/** Left folds whose step may be any function, and what an injective step gives for whole lists. */
module Folds {

  function Fold<S, V>(step: (S, V) -> S, start: S, values: seq<V>): S
    decreases |values|
  {
    if values == [] then start
    else step(Fold(step, start, values[..|values| - 1]), values[|values| - 1])
  }

  ghost predicate InjectiveInState<S(!new), V(!new)>(step: (S, V) -> S) {
    forall s, t, v :: step(s, v) == step(t, v) ==> s == t
  }

  ghost predicate InjectiveInValue<S(!new), V(!new)>(step: (S, V) -> S) {
    forall s, v, w :: step(s, v) == step(s, w) ==> v == w
  }

  lemma FoldAppend<S, V>(step: (S, V) -> S, start: S, front: seq<V>, back: seq<V>)
    ensures Fold(step, start, front + back) == Fold(step, Fold(step, start, front), back)
    decreases |back|
  {
    if back == [] {
      assert front + back == front;
    } else {
      var n := |back| - 1;
      assert (front + back)[..|front| + n] == front + back[..n];
      FoldAppend(step, start, front, back[..n]);
    }
  }

  lemma FoldOne<S, V>(step: (S, V) -> S, start: S, front: seq<V>, v: V)
    ensures Fold(step, start, front + [v]) == step(Fold(step, start, front), v)
  {
    assert (front + [v])[..|front|] == front;
  }

  /** Continuing two states over the same list keeps them equal or keeps them different. */
  lemma {:induction false} FoldInjective<S(!new), V(!new)>(step: (S, V) -> S, s: S, t: S, values: seq<V>)
    requires InjectiveInState(step)
    ensures Fold(step, s, values) == Fold(step, t, values) <==> s == t
    decreases |values|
  {
    if values != [] {
      FoldInjective(step, s, t, values[..|values| - 1]);
    }
  }

  /** Changing one element of a list changes the fold. */
  lemma FoldOneDifference<S(!new), V(!new)>(step: (S, V) -> S, start: S, a: seq<V>, b: seq<V>, k: nat)
    requires InjectiveInState(step) && InjectiveInValue(step)
    requires k < |a| == |b|
    requires a[k] != b[k]
    requires forall i :: 0 <= i < |a| && i != k ==> a[i] == b[i]
    ensures Fold(step, start, a) != Fold(step, start, b)
  {
    var front, back := a[..k], a[k + 1..];
    assert a == front + [a[k]] + back && b == front + [b[k]] + back;
    FoldAppend(step, start, front + [a[k]], back);
    FoldAppend(step, start, front + [b[k]], back);
    FoldOne(step, start, front, a[k]);
    FoldOne(step, start, front, b[k]);
    FoldInjective(step, Fold(step, start, front + [a[k]]), Fold(step, start, front + [b[k]]), back);
  }

  /** Replacing two neighbours keeps the fold exactly when the step after them lands where it did. */
  lemma FoldTwoDifferences<S(!new), V(!new)>(
      step: (S, V) -> S, start: S, front: seq<V>, x: V, y: V, back: seq<V>, x': V, y': V)
    requires InjectiveInState(step)
    ensures Fold(step, start, front + [x', y'] + back) == Fold(step, start, front + [x, y] + back)
       <==> step(Fold(step, start, front + [x']), y') == Fold(step, start, front + [x, y])
  {
    FoldAppend(step, start, front + [x, y], back);
    FoldAppend(step, start, front + [x', y'], back);
    FoldInjective(step, Fold(step, start, front + [x', y']), Fold(step, start, front + [x, y]), back);
    assert front + [x', y'] == front + [x'] + [y'];
    FoldOne(step, start, front + [x'], y');
  }
}

/** The 64-bit list hash: one xor-shift-add step per value, folded over a list. */
module ListHash {
  import opened Folds

  /** A value as one of the four overloads of the step takes it. */
  datatype IntValue =
    | U64(u64: bv64)
    | I64(i64: bv64)
    | U32(u32: bv32)
    | I32(i32: bv32)

  predicate Negative(w: bv32) { w >= 0x8000_0000 }

  function ZeroExtended(w: bv32): bv64 { w as bv64 }

  function OneExtended(w: bv32): bv64 { (w as bv64) + 0xFFFF_FFFF_0000_0000 }

  /** The conversion to an unsigned 64-bit word: 32-bit signed values are sign extended. */
  function ToWord(v: IntValue): bv64 {
    match v
    case U64(w) => w
    case I64(w) => w
    case U32(w) => ZeroExtended(w)
    case I32(w) => if Negative(w) then OneExtended(w) else ZeroExtended(w)
  }

  function XorRight21(w: bv64): bv64 { w ^ (w >> 21) }

  function XorLeft35(w: bv64): bv64 { w ^ (w << 35) }

  function XorRight4(w: bv64): bv64 { w ^ (w >> 4) }

  function Plus(a: bv64, b: bv64): bv64 { a + b }

  /** What one step makes of the state alone, before the value is added. */
  function Mixed(w: bv64): bv64 { XorRight4(XorLeft35(XorRight21(w))) }

  function Updated(already: bv64, value: bv64): bv64 { Plus(Mixed(already), value) }

  function Words(values: seq<IntValue>): (words: seq<bv64>)
    ensures |words| == |values|
  {
    seq(|values|, i requires 0 <= i < |values| => ToWord(values[i]))
  }

  function Hash(words: seq<bv64>): bv64 { Fold(Updated, 0, words) }

  /** The step, whose first parameter the source updates by reference. */
  method HashUpdate(already: bv64, value: bv64) returns (result: bv64)
    ensures result == Updated(already, value)
  {
    result := XorRight21(already);
    result := XorLeft35(result);
    result := XorRight4(result);
    result := Plus(result, value);
  }

  method CountHash(range: seq<IntValue>) returns (result: bv64)
    ensures result == Hash(Words(range))
  {
    ghost var words := Words(range);
    result := 0;
    for i := 0 to |range|
      invariant result == Fold(Updated, 0, words[..i])
    {
      assert words[..i + 1] == words[..i] + [words[i]];
      FoldOne(Updated, 0, words[..i], words[i]);
      result := HashUpdate(result, ToWord(range[i]));
    }
    assert words[..|range|] == words;
  }

  /** The step on two states of one bit each: where the three shifts take a bit. */
  lemma KnownSteps()
    ensures Updated(1, 0) == 0x0000_0008_8000_0001
    ensures Updated(0x20_0000, 7) == 0x0110_0008_8022_0008
  {
    assert XorRight21(1) == 1 && XorLeft35(1) == 0x8_0000_0001;
    assert XorRight4(0x8_0000_0001) == 0x8_8000_0001;
    assert XorRight21(0x20_0000) == 0x20_0001 && XorLeft35(0x20_0001) == 0x0100_0008_0020_0001;
    assert XorRight4(0x0100_0008_0020_0001) == 0x0110_0008_8022_0001;
    assert Plus(0x8_8000_0001, 0) == 0x8_8000_0001;
    assert Plus(0x0110_0008_8022_0001, 7) == 0x0110_0008_8022_0008;
  }

  // ----- the step can be undone -----

  function UndoXorRight21(w: bv64): bv64 { w ^ (w >> 21) ^ (w >> 42) ^ (w >> 63) }

  function UndoXorRight4(w: bv64): bv64 {
    w ^ (w >> 4) ^ (w >> 8) ^ (w >> 12) ^ (w >> 16) ^ (w >> 20) ^ (w >> 24) ^ (w >> 28)
    ^ (w >> 32) ^ (w >> 36) ^ (w >> 40) ^ (w >> 44) ^ (w >> 48) ^ (w >> 52) ^ (w >> 56) ^ (w >> 60)
  }

  function Minus(a: bv64, b: bv64): bv64 { a - b }

  /** The state before a step, from the state after it and the value the step added. */
  function Undone(after: bv64, value: bv64): bv64 {
    UndoXorRight21(XorLeft35(UndoXorRight4(Minus(after, value))))
  }

  // Each inverse is first stated on the expanded word, where it is an identity of bit-vectors.

  lemma Right21Bits(w: bv64)
    ensures UndoXorRight21(w ^ (w >> 21)) == w
    ensures XorRight21(w ^ (w >> 21) ^ (w >> 42) ^ (w >> 63)) == w
  {
  }

  lemma Left35Bits(w: bv64)
    ensures XorLeft35(w ^ (w << 35)) == w
  {
  }

  lemma Right4Bits(w: bv64)
    ensures UndoXorRight4(w ^ (w >> 4)) == w
    ensures XorRight4(w ^ (w >> 4) ^ (w >> 8) ^ (w >> 12) ^ (w >> 16) ^ (w >> 20) ^ (w >> 24) ^ (w >> 28)
                      ^ (w >> 32) ^ (w >> 36) ^ (w >> 40) ^ (w >> 44) ^ (w >> 48) ^ (w >> 52) ^ (w >> 56) ^ (w >> 60)) == w
  {
  }

  lemma SumBits(a: bv64, b: bv64)
    ensures Minus(a + b, a) == b
    ensures Plus(a, b - a) == b
  {
  }

  lemma Right21Inverse(w: bv64)
    ensures UndoXorRight21(XorRight21(w)) == w
    ensures XorRight21(UndoXorRight21(w)) == w
  {
    assert XorRight21(w) == w ^ (w >> 21);
    assert UndoXorRight21(w) == w ^ (w >> 21) ^ (w >> 42) ^ (w >> 63);
    Right21Bits(w);
  }

  lemma Left35Inverse(w: bv64)
    ensures XorLeft35(XorLeft35(w)) == w
  {
    assert XorLeft35(w) == w ^ (w << 35);
    Left35Bits(w);
  }

  lemma Right4Inverse(w: bv64)
    ensures UndoXorRight4(XorRight4(w)) == w
    ensures XorRight4(UndoXorRight4(w)) == w
  {
    assert XorRight4(w) == w ^ (w >> 4);
    Right4Bits(w);
  }

  lemma SumInverse(a: bv64, b: bv64)
    ensures Minus(Plus(a, b), a) == b
    ensures Plus(a, Minus(b, a)) == b
  {
    assert Plus(a, b) == a + b;
    assert Minus(b, a) == b - a;
    SumBits(a, b);
  }

  lemma SumBitsLeft(a: bv64, b: bv64)
    ensures Minus(a + b, b) == a
    ensures Plus(a - b, b) == a
  {
  }

  lemma SumInverseLeft(a: bv64, b: bv64)
    ensures Minus(Plus(a, b), b) == a
    ensures Plus(Minus(a, b), b) == a
  {
    assert Plus(a, b) == a + b;
    assert Minus(a, b) == a - b;
    SumBitsLeft(a, b);
  }

  lemma MixedInverse(w: bv64)
    ensures UndoXorRight21(XorLeft35(UndoXorRight4(Mixed(w)))) == w
    ensures Mixed(UndoXorRight21(XorLeft35(UndoXorRight4(w)))) == w
  {
    Right21Inverse(w);
    Left35Inverse(XorRight21(w));
    Right4Inverse(XorLeft35(XorRight21(w)));
    Right4Inverse(w);
    Left35Inverse(UndoXorRight4(w));
    Right21Inverse(XorLeft35(UndoXorRight4(w)));
  }

  lemma UpdatedUndone(state: bv64, value: bv64)
    ensures Undone(Updated(state, value), value) == state
  {
    SumInverseLeft(Mixed(state), value);
    MixedInverse(state);
  }

  lemma UndoneUpdated(state: bv64, value: bv64)
    ensures Updated(Undone(state, value), value) == state
  {
    SumInverseLeft(state, value);
    MixedInverse(Minus(state, value));
  }

  /** For a fixed value the step is a bijection on states: `Undone` is its two-sided inverse. */
  lemma UpdateIsBijection(state: bv64, value: bv64)
    ensures Undone(Updated(state, value), value) == state
    ensures Updated(Undone(state, value), value) == state
  {
    UpdatedUndone(state, value);
    UndoneUpdated(state, value);
  }

  /** For a fixed state the step is a bijection of the value as well. */
  lemma UpdateIsBijectionInValue(state: bv64, value: bv64)
    ensures Minus(Updated(state, value), Mixed(state)) == value
    ensures Updated(state, Minus(value, Mixed(state))) == value
  {
    SumInverse(Mixed(state), value);
  }

  // ----- what that means for lists -----

  lemma StepIsInjective()
    ensures InjectiveInState(Updated) && InjectiveInValue(Updated)
  {
    forall s, t, v | Updated(s, v) == Updated(t, v)
      ensures s == t
    {
      UpdateIsBijection(s, v);
      UpdateIsBijection(t, v);
    }
    forall s, v, w | Updated(s, v) == Updated(s, w)
      ensures v == w
    {
      UpdateIsBijectionInValue(s, v);
      UpdateIsBijectionInValue(s, w);
    }
  }

  /** Two equally long lists that differ in exactly one position, any position, never share a hash. */
  lemma OneDifferenceChangesHash(a: seq<bv64>, b: seq<bv64>, k: nat)
    requires k < |a| == |b|
    requires a[k] != b[k]
    requires forall i :: 0 <= i < |a| && i != k ==> a[i] == b[i]
    ensures Hash(a) != Hash(b)
  {
    StepIsInjective();
    FoldOneDifference(Updated, 0, a, b, k);
  }

  /** Two differing neighbours are already enough for a collision: whatever the first of
      them is changed to, exactly one value of the second restores the hash. */
  lemma TwoDifferencesCollide(front: seq<bv64>, x: bv64, y: bv64, back: seq<bv64>, x': bv64, y': bv64)
    ensures Hash(front + [x', y'] + back) == Hash(front + [x, y] + back)
       <==> y' == Minus(Hash(front + [x, y]), Mixed(Hash(front + [x'])))
  {
    StepIsInjective();
    FoldTwoDifferences(Updated, 0, front, x, y, back, x', y');
    UpdateIsBijectionInValue(Hash(front + [x']), y');
    UpdateIsBijectionInValue(Hash(front + [x']), Hash(front + [x, y]));
  }

  function Low32(w: bv64): bv32 { (w & 0xFFFF_FFFF) as bv32 }

  lemma WideningBits(w: bv32)
    ensures Low32(w as bv64) == w
    ensures Low32((w as bv64) + 0xFFFF_FFFF_0000_0000) == w
  {
  }

  lemma ZeroExtendedLow32(w: bv32)
    ensures Low32(ZeroExtended(w)) == w
  {
    assert ZeroExtended(w) == w as bv64;
    WideningBits(w);
  }

  lemma OneExtendedLow32(w: bv32)
    ensures Low32(OneExtended(w)) == w
  {
    assert OneExtended(w) == (w as bv64) + 0xFFFF_FFFF_0000_0000;
    WideningBits(w);
  }

  lemma WidenedLow32(w: bv32)
    ensures Low32(ToWord(U32(w))) == w
    ensures Low32(ToWord(I32(w))) == w
  {
    ZeroExtendedLow32(w);
    OneExtendedLow32(w);
  }

  function High32(w: bv64): bv32 { (w >> 32) as bv32 }

  lemma WideningHighBits(w: bv32)
    ensures High32(w as bv64) == 0
    ensures High32((w as bv64) + 0xFFFF_FFFF_0000_0000) == 0xFFFF_FFFF
  {
  }

  /** The upper half of a widened value: all zero bits without a sign, and as many copies of the sign bit with one. */
  lemma WidenedHigh32(w: bv32)
    ensures High32(ToWord(U32(w))) == 0
    ensures High32(ToWord(I32(w))) == if w >= 0x8000_0000 then 0xFFFF_FFFF else 0
  {
    assert ZeroExtended(w) == w as bv64;
    assert OneExtended(w) == (w as bv64) + 0xFFFF_FFFF_0000_0000;
    hide ZeroExtended, OneExtended;
    WideningHighBits(w);
  }

  /** The widened value of each type: its own bits below, the sign above; 64-bit values as they are. */
  lemma WidenedExactly(w: bv32, v: bv64)
    ensures Low32(ToWord(U32(w))) == w && High32(ToWord(U32(w))) == 0
    ensures Low32(ToWord(I32(w))) == w && High32(ToWord(I32(w))) == if w >= 0x8000_0000 then 0xFFFF_FFFF else 0
    ensures ToWord(U64(v)) == v && ToWord(I64(v)) == v
  {
    WidenedLow32(w);
    WidenedHigh32(w);
    Word64IsItself(v, v);
    hide ToWord;
  }

  /** Nothing counts to zero, and one value to itself. */
  lemma EmptyAndSingle(v: IntValue)
    ensures Hash(Words([])) == 0
    ensures Hash(Words([v])) == ToWord(v)
  {
    assert Words([]) == [] && Words([v]) == [ToWord(v)] && [ToWord(v)][..0] == [];
    assert Hash([]) == 0;
    hide ToWord;
    assert Hash([ToWord(v)]) == Updated(0, ToWord(v));
    ZeroIsMixedToZero();
    assert Updated(0, ToWord(v)) == Plus(Mixed(0), ToWord(v));
  }

  lemma ZeroIsMixedToZero()
    ensures Mixed(0) == 0
    ensures forall v :: Plus(0, v) == v
  {
    assert XorRight21(0) == 0 && XorLeft35(0) == 0 && XorRight4(0) == 0;
  }

  /** Widening loses nothing, so the results above carry over to lists of any one of the four types. */
  lemma ToWordInjective(a: bv32, b: bv32)
    ensures ToWord(U32(a)) == ToWord(U32(b)) ==> a == b
    ensures ToWord(I32(a)) == ToWord(I32(b)) ==> a == b
  {
    WidenedLow32(a);
    WidenedLow32(b);
  }

  predicate SameType(a: IntValue, b: IntValue) {
    (a.U64? && b.U64?) || (a.I64? && b.I64?) || (a.U32? && b.U32?) || (a.I32? && b.I32?)
  }

  lemma WideningKeepsApart(a: IntValue, b: IntValue)
    requires SameType(a, b) && a != b
    ensures ToWord(a) != ToWord(b)
  {
    hide ToWord;
    match (a, b)
    case (U32(v), U32(w)) => ToWordInjective(v, w);
    case (I32(v), I32(w)) => ToWordInjective(v, w);
    case (U64(v), U64(w)) => Word64IsItself(v, w);
    case (I64(v), I64(w)) => Word64IsItself(v, w);
    case _ =>
  }

  lemma Word64IsItself(a: bv64, b: bv64)
    ensures ToWord(U64(a)) == a && ToWord(I64(a)) == a && ToWord(U64(b)) == b && ToWord(I64(b)) == b
  {
  }

  /** The same for what is really counted: ranges of any one of the four types, of one length, that differ in exactly
      one position. */
  lemma OneDifferenceChangesCount(a: seq<IntValue>, b: seq<IntValue>, k: nat)
    requires k < |a| == |b| && SameType(a[k], b[k])
    requires a[k] != b[k]
    requires forall i :: 0 <= i < |a| && i != k ==> a[i] == b[i]
    ensures Hash(Words(a)) != Hash(Words(b))
  {
    WideningKeepsApart(a[k], b[k]);
    hide ToWord;
    OneDifferenceChangesHash(Words(a), Words(b), k);
  }
}
