/** Choosing from finite sets, and the least element as the front of an ordered container. */
module Ordered {

  /** Some element of a set, as an iterator over an unordered container gives one. */
  method Pick<T>(s: set<T>) returns (x: T)
    requires s != {}
    ensures x in s
  {
    x :| x in s;
  }

  lemma Inhabitant<T>(s: set<T>) returns (x: T)
    requires s != {}
    ensures x in s
  {
    x :| x in s;
  }

  /** Taking one element off the rest adds it to what is done. */
  lemma DoneOneMore<T>(all: set<T>, rest: set<T>, x: T)
    requires rest <= all && x in rest
    ensures (all - rest) + {x} == all - (rest - {x}) && x !in all - rest
  {
  }

  /** The same for those elements of the whole that are in a selection. */
  lemma SelectedOneMore<T>(selected: set<T>, rest: set<T>, x: T)
    requires x in rest
    ensures x in selected ==> selected - (rest - {x}) == (selected - rest) + {x} && x !in selected - rest
    ensures x !in selected ==> selected - (rest - {x}) == selected - rest
  {
  }

  lemma {:induction false} LeastExists(s: set<int>)
    requires s != {}
    ensures exists k :: k in s && forall j :: j in s ==> k <= j
  {
    var x := Inhabitant(s);
    var rest := s - {x};
    if rest == {} {
      assert s == {x};
    } else {
      LeastExists(rest);
      var y :| y in rest && forall j :: j in rest ==> y <= j;
      assert s == rest + {x};
      var k := if x <= y then x else y;
      assert k in s && forall j :: j in s ==> k <= j;
    }
  }

  function Least(s: set<int>): (k: int)
    requires s != {}
    ensures k in s && forall j :: j in s ==> k <= j
  {
    LeastExists(s);
    var k :| k in s && forall j :: j in s ==> k <= j;
    k
  }
}
