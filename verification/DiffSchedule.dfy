/**
 When differences are asked for: two tables of deadlines, each with one entry for the common
 state and one per channel, and one one-shot timer per table.
 */
module DiffSchedule {
  import opened Basics
  import opened Ordered

  /** Whose difference is meant: the common one (the null channel of the source) or one channel's. */
  datatype Target = Common | Channel(id: int)

  datatype Reason = Unknown | PtsGapOrShortPoll | AfterFail

  type Deadlines = map<Target, int>

  /** `calls` counts how often the difference of each target was asked for, `sends` how often a request went out. */
  datatype State = State(
    now: int,
    byPts: Deadlines,
    byPtsTimer: Option<int>,
    afterFail: Deadlines,
    failTimer: Option<int>,
    inited: set<Target>,
    requesting: set<Target>,
    timeouts: map<Target, int>,
    calls: multiset<Target>,
    sends: multiset<Target>)

  // ----- the operations on values -----

  function Without(t: Deadlines, ks: set<Target>): Deadlines {
    t - ks
  }

  function Due(t: Deadlines, now: int): set<Target> {
    set k | k in t && t[k] <= now
  }

  function Earliest(t: Deadlines): Option<int> {
    if t == map[] then None else Some(Least(t.Values))
  }

  function GetDifference(st: State): State {
    var called := st.(byPts := Without(st.byPts, {Common}), calls := st.calls + multiset{Common});
    if Common in st.requesting then called
    else called.(afterFail := Without(st.afterFail, {Common}), requesting := st.requesting + {Common},
                 sends := st.sends + multiset{Common})
  }

  function GetChannelDifference(st: State, k: Target, reason: Reason): State
    requires k.Channel?
  {
    var called := st.(byPts := if reason != PtsGapOrShortPoll then Without(st.byPts, {k}) else st.byPts,
                      calls := st.calls + multiset{k});
    if k !in st.inited || k in st.requesting then called
    else called.(afterFail := if reason != AfterFail then Without(st.afterFail, {k}) else st.afterFail,
                 requesting := st.requesting + {k},
                 sends := st.sends + multiset{k})
  }

  /** Whether asking for the difference of `k` now sends a request. */
  predicate Sends(st: State, k: Target) {
    (k == Common || k in st.inited) && k !in st.requesting
  }

  function Sent(st: State, due: set<Target>): set<Target> {
    set k | k in due && Sends(st, k)
  }

  /** A failed common difference is asked for again whether or not its flag is still set. */
  function SentAgain(st: State, due: set<Target>): set<Target> {
    set k | k in due && (k == Common || Sends(st, k))
  }

  /** The due deadlines among `ks` are dispatched and cleared; one that really sends also drops its retry. */
  function ByPtsDispatched(st: State, ks: set<Target>): State {
    var due := Due(st.byPts, st.now) * ks;
    var sent := Sent(st, due);
    st.(byPts := Without(st.byPts, due),
        afterFail := Without(st.afterFail, sent),
        requesting := st.requesting + sent,
        calls := st.calls + multiset(due),
        sends := st.sends + multiset(sent))
  }

  /** The due retries among `ks` are dispatched and cleared, together with their other deadlines. */
  function AfterFailDispatched(st: State, ks: set<Target>): State {
    var due := Due(st.afterFail, st.now) * ks;
    var sent := SentAgain(st, due);
    st.(afterFail := Without(st.afterFail, due),
        byPts := Without(st.byPts, due),
        requesting := st.requesting + sent,
        calls := st.calls + multiset(due),
        sends := st.sends + multiset(sent))
  }

  /** Every due deadline is dispatched, and the timer is set for the earliest one left. */
  function ByPtsSwept(st: State): State {
    var r := ByPtsDispatched(st, st.byPts.Keys);
    r.(byPtsTimer := Earliest(r.byPts))
  }

  function AfterFailSwept(st: State): State {
    var r := AfterFailDispatched(st, st.afterFail.Keys);
    r.(failTimer := Earliest(r.afterFail))
  }

  /** Whether a request for `ms` from now (or, if not positive, for none at all) changes the entry. */
  predicate Changes(t: Deadlines, k: Target, ms: int, now: int) {
    if ms <= 0 then k in t else k !in t || now + ms < t[k]
  }

  function Changed(t: Deadlines, k: Target, ms: int, now: int): Deadlines {
    if !Changes(t, k, ms, now) then t else if ms <= 0 then Without(t, {k}) else t[k := now + ms]
  }

  function StartByPts(st: State, k: Target, ms: int): State {
    var changed := st.(byPts := Changed(st.byPts, k, ms, st.now));
    if Changes(st.byPts, k, ms, st.now) then ByPtsSwept(changed) else st
  }

  function TimeoutOf(st: State, k: Target): int {
    if k in st.timeouts then st.timeouts[k] else 1
  }

  function Doubled(timeout: int): int {
    if timeout < 64 then timeout * 2 else timeout
  }

  function StartAfterFail(st: State, k: Target): State {
    var ms := TimeoutOf(st, k) * 1000;
    var changed := st.(afterFail := Changed(st.afterFail, k, ms, st.now));
    var r := if Changes(st.afterFail, k, ms, st.now) then AfterFailSwept(changed) else st;
    r.(timeouts := st.timeouts[k := Doubled(TimeoutOf(st, k))])
  }

  // ----- dispatching one by one is dispatching all -----

  lemma WithoutOneMore(t: Deadlines, ks: set<Target>, k: Target)
    ensures Without(t, ks + {k}) == Without(Without(t, ks), {k})
  {
  }

  lemma MultisetOneMore(calls: multiset<Target>, ks: set<Target>, k: Target)
    requires k !in ks
    ensures calls + multiset(ks + {k}) == calls + multiset(ks) + multiset{k}
  {
  }

  lemma DueOneMore(t: Deadlines, now: int, ks: set<Target>, k: Target)
    requires k in t && t[k] <= now
    ensures Due(t, now) * (ks + {k}) == Due(t, now) * ks + {k}
  {
  }

  lemma SentOneMore(st: State, due: set<Target>, k: Target)
    ensures Sent(st, due + {k}) == if Sends(st, k) then Sent(st, due) + {k} else Sent(st, due)
    ensures SentAgain(st, due + {k})
         == if k == Common || Sends(st, k) then SentAgain(st, due) + {k} else SentAgain(st, due)
    ensures k !in due ==> k !in Sent(st, due) && k !in SentAgain(st, due)
  {
  }

  lemma UnionOneMore(r: set<Target>, ks: set<Target>, k: Target)
    requires k !in ks
    ensures r + (ks + {k}) == r + ks + {k}
    ensures k in r + ks <==> k in r
    ensures (r + ks) - {k} + {k} == r + ks + {k}
  {
  }

  lemma ByPtsOneMore(st: State, ks: set<Target>, k: Target)
    requires k !in ks && k in st.byPts && st.byPts[k] <= st.now
    ensures k == Common ==> ByPtsDispatched(st, ks + {k}) == GetDifference(ByPtsDispatched(st, ks))
    ensures k.Channel? ==>
              var r := GetChannelDifference(ByPtsDispatched(st, ks), k, PtsGapOrShortPoll);
              ByPtsDispatched(st, ks + {k}) == r.(byPts := Without(r.byPts, {k}))
  {
    hide Without, Due, Sent, SentAgain;
    var due := Due(st.byPts, st.now) * ks;
    DueOneMore(st.byPts, st.now, ks, k);
    SentOneMore(st, due, k);
    WithoutOneMore(st.byPts, due, k);
    WithoutOneMore(st.afterFail, Sent(st, due), k);
    MultisetOneMore(st.calls, due, k);
    if Sends(st, k) {
      MultisetOneMore(st.sends, Sent(st, due), k);
    }
    UnionOneMore(st.requesting, Sent(st, due), k);
  }

  lemma ByPtsNotDue(st: State, ks: set<Target>, k: Target)
    requires k !in st.byPts || st.now < st.byPts[k]
    ensures ByPtsDispatched(st, ks + {k}) == ByPtsDispatched(st, ks)
  {
    assert Due(st.byPts, st.now) * (ks + {k}) == Due(st.byPts, st.now) * ks;
  }

  lemma AfterFailOneMore(st: State, ks: set<Target>, k: Target)
    requires k !in ks && k in st.afterFail && st.afterFail[k] <= st.now
    ensures k == Common ==>
              var d := AfterFailDispatched(st, ks);
              AfterFailDispatched(st, ks + {k}) == GetDifference(d.(requesting := d.requesting - {Common}))
    ensures k.Channel? ==>
              var r := GetChannelDifference(AfterFailDispatched(st, ks), k, AfterFail);
              AfterFailDispatched(st, ks + {k}) == r.(afterFail := Without(r.afterFail, {k}))
  {
    hide Without, Due, Sent, SentAgain;
    var due := Due(st.afterFail, st.now) * ks;
    DueOneMore(st.afterFail, st.now, ks, k);
    SentOneMore(st, due, k);
    WithoutOneMore(st.afterFail, due, k);
    WithoutOneMore(st.byPts, due, k);
    MultisetOneMore(st.calls, due, k);
    MultisetOneMore(st.sends, SentAgain(st, due), k);
    UnionOneMore(st.requesting, SentAgain(st, due), k);
  }

  lemma AfterFailNotDue(st: State, ks: set<Target>, k: Target)
    requires k !in st.afterFail || st.now < st.afterFail[k]
    ensures AfterFailDispatched(st, ks + {k}) == AfterFailDispatched(st, ks)
  {
    assert Due(st.afterFail, st.now) * (ks + {k}) == Due(st.afterFail, st.now) * ks;
  }

  /** `wait` is the distance to the earliest deadline after `now` among `ks`, or zero if there is none. */
  ghost predicate WaitsFor(at: Deadlines, ks: set<Target>, now: int, wait: int) {
    && (forall k :: k in ks && k in at && now < at[k] ==> 0 < wait <= at[k] - now)
    && (wait != 0 ==> exists k :: k in ks && k in at && now < at[k] == now + wait)
  }

  lemma WaitIsEarliest(at: Deadlines, now: int, wait: int)
    requires WaitsFor(at, at.Keys, now, wait)
    ensures Earliest(Without(at, Due(at, now))) == if wait != 0 then Some(now + wait) else None
  {
    var left := Without(at, Due(at, now));
    if wait != 0 {
      var k :| k in at && now < at[k] == now + wait;
      assert k in left && left[k] == now + wait;
      assert now + wait in left.Values;
      forall w | w in left.Values
        ensures now + wait <= w
      {
        var j :| j in left && left[j] == w;
        assert j in at;
      }
    } else {
      assert left == map[];
    }
  }

  lemma NothingDispatched(st: State)
    ensures ByPtsDispatched(st, {}) == st && AfterFailDispatched(st, {}) == st
  {
    assert Due(st.byPts, st.now) * {} == {} && Due(st.afterFail, st.now) * {} == {};
    assert Sent(st, {}) == {} && SentAgain(st, {}) == {};
    assert Without(st.byPts, {}) == st.byPts && Without(st.afterFail, {}) == st.afterFail;
    assert st.calls + multiset({}) == st.calls && st.sends + multiset({}) == st.sends;
  }

  /** Looking at the common entry alone. */
  lemma CommonDispatched(st: State)
    ensures ByPtsDispatched(st, {Common})
         == if Common in st.byPts && st.byPts[Common] <= st.now then GetDifference(st) else st
    ensures AfterFailDispatched(st, {Common})
         == if Common in st.afterFail && st.afterFail[Common] <= st.now
            then GetDifference(st.(requesting := st.requesting - {Common})) else st
  {
    assert {} + {Common} == {Common};
    NothingDispatched(st);
    hide ByPtsDispatched, AfterFailDispatched, GetDifference;
    if Common in st.byPts && st.byPts[Common] <= st.now {
      ByPtsOneMore(st, {}, Common);
    } else {
      ByPtsNotDue(st, {}, Common);
    }
    if Common in st.afterFail && st.afterFail[Common] <= st.now {
      AfterFailOneMore(st, {}, Common);
    } else {
      AfterFailNotDue(st, {}, Common);
    }
  }

  /** Once every entry was looked at, the sweep is complete and the wait is for the earliest deadline left. */
  lemma ByPtsAllVisited(st: State, wait: int)
    requires WaitsFor(st.byPts, st.byPts.Keys + {Common}, st.now, wait)
    ensures ByPtsSwept(st) == ByPtsDispatched(st, st.byPts.Keys + {Common}).(
                                byPtsTimer := if wait != 0 then Some(st.now + wait) else None)
  {
    var due := Due(st.byPts, st.now);
    assert due * (st.byPts.Keys + {Common}) == due == due * st.byPts.Keys;
    WaitIsEarliest(st.byPts, st.now, wait);
  }

  lemma AfterFailAllVisited(st: State, wait: int)
    requires WaitsFor(st.afterFail, st.afterFail.Keys + {Common}, st.now, wait)
    ensures AfterFailSwept(st) == AfterFailDispatched(st, st.afterFail.Keys + {Common}).(
                                    failTimer := if wait != 0 then Some(st.now + wait) else None)
  {
    var due := Due(st.afterFail, st.now);
    assert due * (st.afterFail.Keys + {Common}) == due == due * st.afterFail.Keys;
    WaitIsEarliest(st.afterFail, st.now, wait);
  }

  // ----- the object -----

  /** A common deadline of zero stands for none, as the source keeps it. */
  function At(whenMap: Deadlines, curTime: int): Deadlines {
    if curTime != 0 then whenMap[Common := curTime] else whenMap
  }

  lemma AtWithout(whenMap: Deadlines, curTime: int, k: Target)
    requires Common !in whenMap
    ensures k.Channel? ==> At(Without(whenMap, {k}), curTime) == Without(At(whenMap, curTime), {k})
    ensures k == Common ==> At(whenMap, 0) == Without(At(whenMap, curTime), {k})
    ensures Common !in Without(whenMap, {k})
  {
  }

  lemma AtKeys(whenMap: Deadlines, curTime: int)
    ensures At(whenMap, curTime).Keys + {Common} == whenMap.Keys + {Common}
  {
  }

  class Scheduler {
    var now: int
    var whenGetDiffByPts: Deadlines
    var getDifferenceTimeByPts: int
    var byPtsTimer: Option<int>
    var whenGetDiffAfterFail: Deadlines
    var getDifferenceTimeAfterFail: int
    var failDifferenceTimer: Option<int>
    var inited: set<Target>
    var requesting: set<Target>
    var failDifferenceTimeout: int
    var channelFailDifferenceTimeout: map<Target, int>
    ghost var calls: multiset<Target>
    ghost var sends: multiset<Target>

    ghost predicate Valid()
      reads this
    {
      && 0 <= now
      && Common !in whenGetDiffByPts && Common !in whenGetDiffAfterFail && Common !in channelFailDifferenceTimeout
    }

    ghost function View(): State
      reads this
    {
      State(now, At(whenGetDiffByPts, getDifferenceTimeByPts), byPtsTimer,
            At(whenGetDiffAfterFail, getDifferenceTimeAfterFail), failDifferenceTimer,
            inited, requesting, channelFailDifferenceTimeout[Common := failDifferenceTimeout], calls, sends)
    }

    /** Starts out waiting for the state it asks the server for. */
    constructor ()
      ensures Valid() && View() == Initial()
    {
      now, inited, requesting := 0, {}, {Common};
      whenGetDiffByPts, getDifferenceTimeByPts, byPtsTimer := map[], 0, None;
      whenGetDiffAfterFail, getDifferenceTimeAfterFail, failDifferenceTimer := map[], 0, None;
      failDifferenceTimeout, channelFailDifferenceTimeout := 1, map[];
      calls, sends := multiset{}, multiset{};
    }

    method RequestDifference()
      requires Valid()
      modifies this
      ensures Valid() && View() == GetDifference(old(View())) && now == old(now)
      ensures whenGetDiffByPts == old(whenGetDiffByPts) && whenGetDiffAfterFail == old(whenGetDiffAfterFail)
    {
      hide At, Without;
      AtWithout(whenGetDiffByPts, getDifferenceTimeByPts, Common);
      AtWithout(whenGetDiffAfterFail, getDifferenceTimeAfterFail, Common);
      getDifferenceTimeByPts := 0;
      calls := calls + multiset{Common};
      if Common in requesting {
        return;
      }
      getDifferenceTimeAfterFail := 0;
      requesting := requesting + {Common};
      sends := sends + multiset{Common};
    }

    method RequestChannelDifference(channel: Target, from: Reason)
      requires Valid() && channel.Channel?
      modifies this
      ensures Valid() && View() == GetChannelDifference(old(View()), channel, from)
      ensures from == PtsGapOrShortPoll ==> whenGetDiffByPts == old(whenGetDiffByPts)
      ensures from == AfterFail ==> whenGetDiffAfterFail == old(whenGetDiffAfterFail)
    {
      hide At, Without;
      AtWithout(whenGetDiffByPts, getDifferenceTimeByPts, channel);
      calls := calls + multiset{channel};
      if from != PtsGapOrShortPoll {
        whenGetDiffByPts := Without(whenGetDiffByPts, {channel});
      }
      if channel !in inited || channel in requesting {
        return;
      }
      SendChannelDifference(channel, from);
    }

    method SendChannelDifference(channel: Target, from: Reason)
      requires Valid() && channel.Channel?
      modifies this`whenGetDiffAfterFail, this`requesting, this`sends
      ensures Valid()
      ensures View() == old(View()).(
                afterFail := if from != AfterFail then Without(old(View()).afterFail, {channel})
                             else old(View()).afterFail,
                requesting := old(requesting) + {channel},
                sends := old(sends) + multiset{channel})
      ensures from == AfterFail ==> whenGetDiffAfterFail == old(whenGetDiffAfterFail)
    {
      hide At, Without;
      AtWithout(whenGetDiffAfterFail, getDifferenceTimeAfterFail, channel);
      if from != AfterFail {
        whenGetDiffAfterFail := Without(whenGetDiffAfterFail, {channel});
      }
      requesting := requesting + {channel};
      sends := sends + multiset{channel};
    }

    /** One step of the loop: the deadline of `k` is waited for or dispatched. */
    method VisitByPts(k: Target, wait: int, ghost st: State, ghost done: set<Target>) returns (r: int)
      requires Valid() && View() == ByPtsDispatched(st, done)
      requires k.Channel? && k !in done && k in whenGetDiffByPts
      requires WaitsFor(st.byPts, done, st.now, wait)
      modifies this
      ensures Valid() && View() == ByPtsDispatched(st, done + {k})
      ensures forall j :: j in old(whenGetDiffByPts) && j != k ==> j in whenGetDiffByPts
      ensures WaitsFor(st.byPts, done + {k}, st.now, r) && now == st.now
    {
      hide GetChannelDifference, Due, Sent, SentAgain;
      assert k in View().byPts && View().byPts[k] == whenGetDiffByPts[k];
      assert k in st.byPts && st.byPts[k] == whenGetDiffByPts[k] && now == st.now;
      if whenGetDiffByPts[k] > now {
        r := if wait != 0 && wait < whenGetDiffByPts[k] - now then wait else whenGetDiffByPts[k] - now;
        ByPtsNotDue(st, done, k);
      } else {
        r := wait;
        ByPtsOneMore(st, done, k);
        hide ByPtsDispatched;
        RequestChannelDifference(k, PtsGapOrShortPoll);
        AtWithout(whenGetDiffByPts, getDifferenceTimeByPts, k);
        whenGetDiffByPts := Without(whenGetDiffByPts, {k});
      }
    }

    /** The common deadline comes first. */
    method VisitCommonByPts() returns (wait: int)
      requires Valid()
      modifies this
      ensures Valid() && View() == ByPtsDispatched(old(View()), {Common})
      ensures whenGetDiffByPts == old(whenGetDiffByPts)
      ensures WaitsFor(old(View()).byPts, {Common}, old(now), wait) && now == old(now)
    {
      hide ByPtsDispatched, GetDifference;
      CommonDispatched(View());
      wait := 0;
      if getDifferenceTimeByPts != 0 {
        if getDifferenceTimeByPts > now {
          wait := getDifferenceTimeByPts - now;
          assert Common in {Common};
        } else {
          RequestDifference();
        }
      }
    }

    /** Then every channel, in whatever order the table gives them. */
    method VisitChannelsByPts(common: int, ghost st: State) returns (wait: int)
      requires Valid() && View() == ByPtsDispatched(st, {Common}) && now == st.now
      requires whenGetDiffByPts.Keys + {Common} == st.byPts.Keys + {Common}
      requires WaitsFor(st.byPts, {Common}, st.now, common)
      modifies this
      ensures Valid() && View() == ByPtsDispatched(st, st.byPts.Keys + {Common}) && now == st.now
      ensures WaitsFor(st.byPts, st.byPts.Keys + {Common}, st.now, wait)
    {
      hide ByPtsDispatched, WaitsFor, At;
      wait := common;
      var rest := whenGetDiffByPts.Keys;
      ghost var done := {Common};
      while rest != {}
        invariant Valid() && View() == ByPtsDispatched(st, done) && now == st.now
        invariant done + rest == st.byPts.Keys + {Common} && rest !! done
        invariant forall k :: k in rest ==> k in whenGetDiffByPts
        invariant WaitsFor(st.byPts, done, st.now, wait)
        decreases rest
      {
        var k := Pick(rest);
        rest := rest - {k};
        wait := VisitByPts(k, wait, st, done);
        done := done + {k};
      }
      assert done == st.byPts.Keys + {Common};
    }

    method GetDifferenceByPts()
      requires Valid()
      modifies this
      ensures Valid() && View() == ByPtsSwept(old(View()))
    {
      hide ByPtsDispatched, ByPtsSwept, WaitsFor, At;
      ghost var st := View();
      AtKeys(whenGetDiffByPts, getDifferenceTimeByPts);
      var wait := VisitCommonByPts();
      wait := VisitChannelsByPts(wait, st);
      byPtsTimer := if wait != 0 then Some(now + wait) else None;
      ByPtsAllVisited(st, wait);
    }

    /** One step of the loop: the deadline of `k` is waited for or dispatched. */
    method VisitAfterFail(k: Target, wait: int, ghost st: State, ghost done: set<Target>) returns (r: int)
      requires Valid() && View() == AfterFailDispatched(st, done)
      requires k.Channel? && k !in done && k in whenGetDiffAfterFail
      requires WaitsFor(st.afterFail, done, st.now, wait)
      modifies this
      ensures Valid() && View() == AfterFailDispatched(st, done + {k})
      ensures forall j :: j in old(whenGetDiffAfterFail) && j != k ==> j in whenGetDiffAfterFail
      ensures WaitsFor(st.afterFail, done + {k}, st.now, r) && now == st.now
    {
      hide GetChannelDifference, Due, Sent, SentAgain;
      assert k in View().afterFail && View().afterFail[k] == whenGetDiffAfterFail[k];
      assert k in st.afterFail && st.afterFail[k] == whenGetDiffAfterFail[k] && now == st.now;
      if whenGetDiffAfterFail[k] > now {
        r := if wait != 0 && wait < whenGetDiffAfterFail[k] - now then wait else whenGetDiffAfterFail[k] - now;
        AfterFailNotDue(st, done, k);
      } else {
        r := wait;
        AfterFailOneMore(st, done, k);
        hide AfterFailDispatched;
        RequestChannelDifference(k, AfterFail);
        AtWithout(whenGetDiffAfterFail, getDifferenceTimeAfterFail, k);
        whenGetDiffAfterFail := Without(whenGetDiffAfterFail, {k});
      }
    }

    /** The common deadline comes first. */
    method VisitCommonAfterFail() returns (wait: int)
      requires Valid()
      modifies this
      ensures Valid() && View() == AfterFailDispatched(old(View()), {Common})
      ensures whenGetDiffAfterFail == old(whenGetDiffAfterFail)
      ensures WaitsFor(old(View()).afterFail, {Common}, old(now), wait) && now == old(now)
    {
      hide AfterFailDispatched, GetDifference;
      CommonDispatched(View());
      wait := 0;
      if getDifferenceTimeAfterFail != 0 {
        if getDifferenceTimeAfterFail > now {
          wait := getDifferenceTimeAfterFail - now;
          assert Common in {Common};
        } else {
          requesting := requesting - {Common};
          RequestDifference();
        }
      }
    }

    /** Then every channel, in whatever order the table gives them. */
    method VisitChannelsAfterFail(common: int, ghost st: State) returns (wait: int)
      requires Valid() && View() == AfterFailDispatched(st, {Common}) && now == st.now
      requires whenGetDiffAfterFail.Keys + {Common} == st.afterFail.Keys + {Common}
      requires WaitsFor(st.afterFail, {Common}, st.now, common)
      modifies this
      ensures Valid() && View() == AfterFailDispatched(st, st.afterFail.Keys + {Common}) && now == st.now
      ensures WaitsFor(st.afterFail, st.afterFail.Keys + {Common}, st.now, wait)
    {
      hide AfterFailDispatched, WaitsFor, At;
      wait := common;
      var rest := whenGetDiffAfterFail.Keys;
      ghost var done := {Common};
      while rest != {}
        invariant Valid() && View() == AfterFailDispatched(st, done) && now == st.now
        invariant done + rest == st.afterFail.Keys + {Common} && rest !! done
        invariant forall k :: k in rest ==> k in whenGetDiffAfterFail
        invariant WaitsFor(st.afterFail, done, st.now, wait)
        decreases rest
      {
        var k := Pick(rest);
        rest := rest - {k};
        wait := VisitAfterFail(k, wait, st, done);
        done := done + {k};
      }
      assert done == st.afterFail.Keys + {Common};
    }

    method GetDifferenceAfterFail()
      requires Valid()
      modifies this
      ensures Valid() && View() == AfterFailSwept(old(View()))
    {
      hide AfterFailDispatched, AfterFailSwept, WaitsFor, At;
      ghost var st := View();
      AtKeys(whenGetDiffAfterFail, getDifferenceTimeAfterFail);
      var wait := VisitCommonAfterFail();
      wait := VisitChannelsAfterFail(wait, st);
      failDifferenceTimer := if wait != 0 then Some(now + wait) else None;
      AfterFailAllVisited(st, wait);
    }

    method WhenGetDiffChanged(channel: Target, ms: int, whenMap: Deadlines, curTime: int)
      returns (changed: bool, newMap: Deadlines, newTime: int)
      requires Valid() && Common !in whenMap
      ensures Common !in newMap
      ensures changed == Changes(At(whenMap, curTime), channel, ms, now)
      ensures At(newMap, newTime) == Changed(At(whenMap, curTime), channel, ms, now)
    {
      changed, newMap, newTime := true, whenMap, curTime;
      if channel.Channel? {
        if ms <= 0 {
          if channel in whenMap {
            newMap := Without(whenMap, {channel});
          } else {
            changed := false;
          }
        } else {
          var when := now + ms;
          if channel in whenMap {
            if whenMap[channel] > when {
              newMap := whenMap[channel := when];
            } else {
              changed := false;
            }
          } else {
            newMap := whenMap[channel := when];
          }
        }
      } else {
        if ms <= 0 {
          if curTime != 0 {
            newTime := 0;
          } else {
            changed := false;
          }
        } else {
          var when := now + ms;
          if curTime == 0 || curTime > when {
            newTime := when;
          } else {
            changed := false;
          }
        }
      }
    }

    method PtsWaiterStartTimerFor(channel: Target, ms: int)
      requires Valid()
      modifies this
      ensures Valid() && View() == StartByPts(old(View()), channel, ms)
    {
      hide At, ByPtsSwept, Changes, Changed;
      var changed;
      changed, whenGetDiffByPts, getDifferenceTimeByPts
        := WhenGetDiffChanged(channel, ms, whenGetDiffByPts, getDifferenceTimeByPts);
      UnchangedStays(old(View()).byPts, channel, ms, now);
      if changed {
        GetDifferenceByPts();
      }
    }

    method FailDifferenceStartTimerFor(channel: Target)
      requires Valid()
      modifies this
      ensures Valid() && View() == StartAfterFail(old(View()), channel)
    {
      hide At, AfterFailSwept, Changes, Changed;
      var timeout := if channel == Common then failDifferenceTimeout
                     else if channel in channelFailDifferenceTimeout then channelFailDifferenceTimeout[channel]
                     else 1;
      assert timeout == TimeoutOf(View(), channel);
      var changed;
      changed, whenGetDiffAfterFail, getDifferenceTimeAfterFail
        := WhenGetDiffChanged(channel, timeout * 1000, whenGetDiffAfterFail, getDifferenceTimeAfterFail);
      UnchangedStays(old(View()).afterFail, channel, timeout * 1000, now);
      ghost var timeouts := View().timeouts;
      if changed {
        GetDifferenceAfterFail();
        SweepKeepsTimeouts(
          old(View()).(afterFail := Changed(old(View()).afterFail, channel, timeout * 1000, old(now))));
      }
      assert View().timeouts == timeouts;
      SetTimeout(channel, if timeout < 64 then timeout * 2 else timeout);
    }

    method SetTimeout(channel: Target, timeout: int)
      requires Valid()
      modifies this`failDifferenceTimeout, this`channelFailDifferenceTimeout
      ensures Valid() && View() == old(View()).(timeouts := old(View()).timeouts[channel := timeout])
    {
      if channel == Common {
        failDifferenceTimeout := timeout;
      } else {
        channelFailDifferenceTimeout := channelFailDifferenceTimeout[channel := timeout];
      }
      assert View().timeouts == old(View()).timeouts[channel := timeout];
    }
  }

  lemma UnchangedStays(t: Deadlines, k: Target, ms: int, now: int)
    ensures !Changes(t, k, ms, now) ==> Changed(t, k, ms, now) == t
  {
  }

  lemma SweepKeepsTimeouts(st: State)
    ensures AfterFailSwept(st).timeouts == st.timeouts && ByPtsSwept(st).timeouts == st.timeouts
  {
  }

  // ----- runs -----

  /** An answer that is too long and a failed request for the first state are only logged. */
  datatype Event =
    | Tick(elapsed: nat)
    | PtsWaiterStarts(k: Target, ms: int)
    | DifferenceFailed(k: Target)
    | ByPtsTimerFires
    | FailTimerFires
    | DifferenceWanted
    | DifferenceReceived
    | DifferenceTooLong
    | StateFailed
    | ChannelDifferenceReceived(id: int, isFinal: bool)
    | ChannelDifferenceWanted(id: int)
    | PtsInited(k: Target)

  function Initial(): State {
    State(0, map[], None, map[], None, {}, {Common}, map[Common := 1], multiset{}, multiset{})
  }

  predicate IsDue(timer: Option<int>, now: int) {
    timer.Some? && timer.value <= now
  }

  function Step(st: State, ev: Event): State {
    match ev
    case Tick(elapsed) => st.(now := st.now + elapsed)
    case PtsWaiterStarts(k, ms) => StartByPts(st, k, ms)
    case DifferenceFailed(k) => StartAfterFail(st, k)
    case ByPtsTimerFires => if IsDue(st.byPtsTimer, st.now) then ByPtsSwept(st) else st
    case FailTimerFires => if IsDue(st.failTimer, st.now) then AfterFailSwept(st) else st
    case DifferenceWanted => GetDifference(st)
    case DifferenceReceived => st.(requesting := st.requesting - {Common}, timeouts := st.timeouts[Common := 1])
    case DifferenceTooLong => st.(timeouts := st.timeouts[Common := 1])
    case StateFailed => st
    case ChannelDifferenceReceived(id, isFinal) =>
      var k := Channel(id);
      var received := st.(requesting := st.requesting - {k}, timeouts := st.timeouts - {k});
      if isFinal then received else GetChannelDifference(received, k, Unknown)
    case ChannelDifferenceWanted(id) => GetChannelDifference(st, Channel(id), Unknown)
    case PtsInited(k) => st.(inited := st.inited + {k})
  }

  function Run(events: seq<Event>): State
    decreases |events|
  {
    if events == [] then Initial() else Step(Run(events[..|events| - 1]), events[|events| - 1])
  }

  /** The timer of a table is armed, and never later than any deadline in it. */
  ghost predicate Armed(t: Deadlines, timer: Option<int>) {
    forall k :: k in t ==> timer.Some? && timer.value <= t[k]
  }

  ghost predicate Backoff(timeouts: map<Target, int>) {
    forall k :: k in timeouts ==> timeouts[k] in {1, 2, 4, 8, 16, 32, 64}
  }

  ghost predicate Invariant(st: State) {
    Armed(st.byPts, st.byPtsTimer) && Armed(st.afterFail, st.failTimer) && Backoff(st.timeouts)
  }

  lemma EarliestArms(t: Deadlines)
    ensures Armed(t, Earliest(t))
  {
    forall k | k in t
      ensures Earliest(t).Some? && Earliest(t).value <= t[k]
    {
      assert t[k] in t.Values;
    }
  }

  /** A sweep needs nothing of the timer it was called for: it arms its own timer anew and leaves the other table
      armed. */
  lemma SweepsArm(st: State)
    ensures Armed(ByPtsSwept(st).byPts, ByPtsSwept(st).byPtsTimer)
    ensures Armed(st.afterFail, st.failTimer) ==> Armed(ByPtsSwept(st).afterFail, ByPtsSwept(st).failTimer)
    ensures Armed(AfterFailSwept(st).afterFail, AfterFailSwept(st).failTimer)
    ensures Armed(st.byPts, st.byPtsTimer) ==> Armed(AfterFailSwept(st).byPts, AfterFailSwept(st).byPtsTimer)
  {
    EarliestArms(ByPtsSwept(st).byPts);
    EarliestArms(AfterFailSwept(st).afterFail);
  }

  /** Deadlines were only taken away, and the timers left alone. */
  ghost predicate OnlyRemoves(st: State, r: State) {
    && (forall j :: j in r.byPts ==> j in st.byPts && r.byPts[j] == st.byPts[j])
    && (forall j :: j in r.afterFail ==> j in st.afterFail && r.afterFail[j] == st.afterFail[j])
    && r.byPtsTimer == st.byPtsTimer && r.failTimer == st.failTimer && r.timeouts == st.timeouts
  }

  lemma AskingOnlyRemoves(st: State)
    ensures OnlyRemoves(st, GetDifference(st))
  {
  }

  lemma AskingChannelOnlyRemoves(st: State, k: Target, reason: Reason)
    requires k.Channel?
    ensures OnlyRemoves(st, GetChannelDifference(st, k, reason))
  {
  }

  lemma StepKeepsInvariant(st: State, ev: Event)
    requires Invariant(st)
    ensures Invariant(Step(st, ev))
  {
    hide ByPtsSwept, AfterFailSwept, Changed, GetDifference, GetChannelDifference;
    match ev
    case PtsWaiterStarts(k, ms) =>
      var changed := st.(byPts := Changed(st.byPts, k, ms, st.now));
      SweepsArm(changed);
      SweepKeepsTimeouts(changed);
    case DifferenceFailed(k) =>
      var changed := st.(afterFail := Changed(st.afterFail, k, TimeoutOf(st, k) * 1000, st.now));
      SweepsArm(changed);
      SweepKeepsTimeouts(changed);
    case ByPtsTimerFires =>
      SweepsArm(st);
      SweepKeepsTimeouts(st);
    case FailTimerFires =>
      SweepsArm(st);
      SweepKeepsTimeouts(st);
    case DifferenceWanted => AskingOnlyRemoves(st);
    case ChannelDifferenceWanted(id) => AskingChannelOnlyRemoves(st, Channel(id), Unknown);
    case ChannelDifferenceReceived(id, _) =>
      var k := Channel(id);
      AskingChannelOnlyRemoves(st.(requesting := st.requesting - {k}, timeouts := st.timeouts - {k}), k, Unknown);
    case _ =>
  }

  lemma {:induction false} EveryRunIsArmed(events: seq<Event>)
    ensures Invariant(Run(events))
    decreases |events|
  {
    if events != [] {
      EveryRunIsArmed(events[..|events| - 1]);
      StepKeepsInvariant(Run(events[..|events| - 1]), events[|events| - 1]);
    }
  }

  lemma EarliestIsStored(t: Deadlines)
    ensures Earliest(t).Some? <==> t != map[]
    ensures Earliest(t).Some? ==> Earliest(t).value in t.Values
  {
  }

  /** After a sweep nothing stored is due, every due entry was asked for exactly once and nothing else was,
      and the timer is set for exactly the earliest deadline left, or stopped if there is none. */
  lemma SweepIsComplete(st: State, k: Target)
    ensures var r := ByPtsSwept(st);
            && (k in r.byPts ==> k in st.byPts && r.byPts[k] == st.byPts[k] && st.now < r.byPts[k])
            && r.calls[k] == st.calls[k] + (if k in st.byPts && st.byPts[k] <= st.now then 1 else 0)
            && (r.byPtsTimer.Some? <==> r.byPts != map[])
            && (r.byPtsTimer.Some? ==> r.byPtsTimer.value in r.byPts.Values)
    ensures var r := AfterFailSwept(st);
            && (k in r.afterFail ==> k in st.afterFail && r.afterFail[k] == st.afterFail[k] && st.now < r.afterFail[k])
            && r.calls[k] == st.calls[k] + (if k in st.afterFail && st.afterFail[k] <= st.now then 1 else 0)
            && (r.failTimer.Some? <==> r.afterFail != map[])
            && (r.failTimer.Some? ==> r.failTimer.value in r.afterFail.Values)
  {
    EarliestIsStored(ByPtsSwept(st).byPts);
    EarliestIsStored(AfterFailSwept(st).afterFail);
    assert k in Due(st.byPts, st.now) * st.byPts.Keys <==> k in st.byPts && st.byPts[k] <= st.now;
    assert k in Due(st.afterFail, st.now) * st.afterFail.Keys <==> k in st.afterFail && st.afterFail[k] <= st.now;
    hide Earliest, Sent, SentAgain;
  }

  /** In every reachable state a deadline that is due finds its timer due as well, and the firing asks for it. */
  lemma DueIsDispatched(events: seq<Event>, k: Target)
    ensures var st := Run(events);
            k in st.byPts && st.byPts[k] <= st.now ==>
              Step(st, ByPtsTimerFires).calls[k] == st.calls[k] + 1 && k !in Step(st, ByPtsTimerFires).byPts
    ensures var st := Run(events);
            k in st.afterFail && st.afterFail[k] <= st.now ==>
              Step(st, FailTimerFires).calls[k] == st.calls[k] + 1 && k !in Step(st, FailTimerFires).afterFail
  {
    EveryRunIsArmed(events);
    SweepIsComplete(Run(events), k);
    hide ByPtsSwept, AfterFailSwept, Run;
  }

  /** How many requests a sweep sends for a target: one exactly if its entry is due and it can be sent. Of the retries
      the common one always can, a channel only if its pts are known and its flag is not set any more. */
  lemma RetrySends(st: State, k: Target)
    ensures AfterFailSwept(st).sends[k]
         == st.sends[k]
            + (if k in st.afterFail && st.afterFail[k] <= st.now && (k == Common || Sends(st, k)) then 1 else 0)
    ensures ByPtsSwept(st).sends[k]
         == st.sends[k] + (if k in st.byPts && st.byPts[k] <= st.now && Sends(st, k) then 1 else 0)
  {
    assert k in Due(st.byPts, st.now) * st.byPts.Keys <==> k in st.byPts && st.byPts[k] <= st.now;
    assert k in Due(st.afterFail, st.now) * st.afterFail.Keys <==> k in st.afterFail && st.afterFail[k] <= st.now;
  }

  // ----- a stored deadline is the least one asked for -----

  /** The deadline an event asks the first table for, if it asks for one for `k`. */
  function AskedByPts(st: State, ev: Event, k: Target): set<int> {
    if ev.PtsWaiterStarts? && ev.k == k && ev.ms > 0 then {st.now + ev.ms} else {}
  }

  function AskedAfterFail(st: State, ev: Event, k: Target): set<int> {
    if ev.DifferenceFailed? && ev.k == k then {st.now + TimeoutOf(st, k) * 1000} else {}
  }

  /** The deadlines asked for `k` since the last event that left it without one. */
  function SinceClearedByPts(events: seq<Event>, k: Target): set<int>
    decreases |events|
  {
    if events == [] || k !in Run(events).byPts then {}
    else
      var n := |events| - 1;
      SinceClearedByPts(events[..n], k) + AskedByPts(Run(events[..n]), events[n], k)
  }

  function SinceClearedAfterFail(events: seq<Event>, k: Target): set<int>
    decreases |events|
  {
    if events == [] || k !in Run(events).afterFail then {}
    else
      var n := |events| - 1;
      SinceClearedAfterFail(events[..n], k) + AskedAfterFail(Run(events[..n]), events[n], k)
  }

  /** Sweeping changes no deadline that it leaves in place, in either table. */
  lemma SweepsOnlyRemove(st: State, k: Target)
    ensures k in ByPtsSwept(st).byPts ==> k in st.byPts && ByPtsSwept(st).byPts[k] == st.byPts[k]
    ensures k in ByPtsSwept(st).afterFail ==> k in st.afterFail && ByPtsSwept(st).afterFail[k] == st.afterFail[k]
    ensures k in AfterFailSwept(st).byPts ==> k in st.byPts && AfterFailSwept(st).byPts[k] == st.byPts[k]
    ensures k in AfterFailSwept(st).afterFail
            ==> k in st.afterFail && AfterFailSwept(st).afterFail[k] == st.afterFail[k]
  {
  }

  function EntryOf(t: Deadlines, k: Target): set<int> {
    if k in t then {t[k]} else {}
  }

  /** What one event does to an entry that it leaves in place. */
  lemma StepMovesByPts(st: State, ev: Event, k: Target)
    requires k in Step(st, ev).byPts
    ensures var asked := AskedByPts(st, ev, k) + EntryOf(st.byPts, k);
            asked != {} && Step(st, ev).byPts[k] == Least(asked)
  {
    hide ByPtsSwept, AfterFailSwept, GetDifference, GetChannelDifference;
    SweepsOnlyRemove(st, k);
    match ev
    case PtsWaiterStarts(j, ms) => SweepsOnlyRemove(st.(byPts := Changed(st.byPts, j, ms, st.now)), k);
    case DifferenceFailed(j) =>
      SweepsOnlyRemove(st.(afterFail := Changed(st.afterFail, j, TimeoutOf(st, j) * 1000, st.now)), k);
    case DifferenceWanted => AskingOnlyRemoves(st);
    case ChannelDifferenceWanted(id) => AskingChannelOnlyRemoves(st, Channel(id), Unknown);
    case ChannelDifferenceReceived(id, _) =>
      var j := Channel(id);
      AskingChannelOnlyRemoves(st.(requesting := st.requesting - {j}, timeouts := st.timeouts - {j}), j, Unknown);
    case _ =>
  }

  lemma StepMovesAfterFail(st: State, ev: Event, k: Target)
    requires Backoff(st.timeouts) && k in Step(st, ev).afterFail
    ensures var asked := AskedAfterFail(st, ev, k) + EntryOf(st.afterFail, k);
            asked != {} && Step(st, ev).afterFail[k] == Least(asked)
  {
    hide ByPtsSwept, AfterFailSwept, GetDifference, GetChannelDifference;
    SweepsOnlyRemove(st, k);
    match ev
    case PtsWaiterStarts(j, ms) => SweepsOnlyRemove(st.(byPts := Changed(st.byPts, j, ms, st.now)), k);
    case DifferenceFailed(j) =>
      assert TimeoutOf(st, j) > 0;
      SweepsOnlyRemove(st.(afterFail := Changed(st.afterFail, j, TimeoutOf(st, j) * 1000, st.now)), k);
    case DifferenceWanted => AskingOnlyRemoves(st);
    case ChannelDifferenceWanted(id) => AskingChannelOnlyRemoves(st, Channel(id), Unknown);
    case ChannelDifferenceReceived(id, _) =>
      var j := Channel(id);
      AskingChannelOnlyRemoves(st.(requesting := st.requesting - {j}, timeouts := st.timeouts - {j}), j, Unknown);
    case _ =>
  }

  lemma LeastOfUnion(a: set<int>, b: set<int>)
    requires a != {}
    ensures Least(b + {Least(a)}) == Least(a + b)
  {
  }

  /** Over every run a stored deadline is the least of those asked for since the entry was last absent. */
  lemma {:induction false} ByPtsIsLeastAsked(events: seq<Event>, k: Target)
    requires k in Run(events).byPts
    ensures SinceClearedByPts(events, k) != {} && Run(events).byPts[k] == Least(SinceClearedByPts(events, k))
    decreases |events|
  {
    if events != [] {
      var n := |events| - 1;
      var front := events[..n];
      var before, asked := Run(front), AskedByPts(Run(front), events[n], k);
      StepMovesByPts(before, events[n], k);
      hide Step, AskedByPts;
      if k in before.byPts {
        ByPtsIsLeastAsked(front, k);
        LeastOfUnion(SinceClearedByPts(front, k), asked);
      } else {
        assert SinceClearedByPts(front, k) == {};
        assert asked + {} == {} + asked;
      }
    }
  }

  lemma {:induction false} AfterFailIsLeastAsked(events: seq<Event>, k: Target)
    requires k in Run(events).afterFail
    ensures SinceClearedAfterFail(events, k) != {}
    ensures Run(events).afterFail[k] == Least(SinceClearedAfterFail(events, k))
    decreases |events|
  {
    if events != [] {
      var n := |events| - 1;
      var front := events[..n];
      var before, asked := Run(front), AskedAfterFail(Run(front), events[n], k);
      EveryRunIsArmed(front);
      StepMovesAfterFail(before, events[n], k);
      hide Step, AskedAfterFail;
      if k in before.afterFail {
        AfterFailIsLeastAsked(front, k);
        LeastOfUnion(SinceClearedAfterFail(front, k), asked);
      } else {
        assert SinceClearedAfterFail(front, k) == {};
        assert asked + {} == {} + asked;
      }
    }
  }

  // ----- a set flag keeps requests from going out -----

  /** What asking for differences does to the flag, the retry and the requests of one target: nothing, or one request
      goes out, either because the flag was not set or because the common retry was due. */
  ghost predicate Asks(st: State, st': State, k: Target) {
    var sent := k in st'.requesting && st'.sends[k] == st.sends[k] + 1 && (k == Common ==> k !in st'.afterFail);
    || (&& (k in st'.requesting <==> k in st.requesting) && st'.sends[k] == st.sends[k]
        && (k == Common ==> (k in st'.afterFail <==> k in st.afterFail)))
    || (k !in st.requesting && sent)
    || (k == Common && k in st.afterFail && sent)
  }

  lemma DifferenceAsks(st: State, k: Target)
    ensures Asks(st, GetDifference(st), k)
  {
  }

  lemma ChannelAsks(st: State, j: Target, reason: Reason, k: Target)
    requires j.Channel?
    ensures Asks(st, GetChannelDifference(st, j, reason), k)
  {
  }

  lemma ByPtsAsks(st: State, k: Target)
    ensures Asks(st, ByPtsSwept(st), k)
  {
    RetrySends(st, k);
  }

  lemma AfterFailAsks(st: State, k: Target)
    ensures Asks(st, AfterFailSwept(st), k)
  {
    RetrySends(st, k);
  }

  lemma StartByPtsAsks(st: State, j: Target, ms: int, k: Target)
    ensures Asks(st, StartByPts(st, j, ms), k)
  {
    ByPtsAsks(st.(byPts := Changed(st.byPts, j, ms, st.now)), k);
    hide ByPtsSwept;
  }

  lemma CommonRetryWaits(st: State, ms: int)
    requires ms > 0 && Common !in st.afterFail
    ensures var st' := AfterFailSwept(st.(afterFail := st.afterFail[Common := st.now + ms]));
            && Common in st'.afterFail && st'.sends[Common] == st.sends[Common]
            && (Common in st'.requesting <==> Common in st.requesting)
  {
    RetrySends(st.(afterFail := st.afterFail[Common := st.now + ms]), Common);
  }

  /** The failure of another target, or of any channel, asks like a sweep. */
  lemma FailureAsks(st: State, j: Target, k: Target)
    requires j != k || k.Channel?
    ensures Asks(st, StartAfterFail(st, j), k)
  {
    var changed := st.(afterFail := Changed(st.afterFail, j, TimeoutOf(st, j) * 1000, st.now));
    assert k == Common ==> (k in changed.afterFail <==> k in st.afterFail);
    hide Changed, Changes, TimeoutOf;
    AfterFailAsks(changed, k);
    hide AfterFailSwept;
  }

  /** A common failure leaves a retry and the flag. */
  lemma CommonFailureWaits(st: State)
    requires Backoff(st.timeouts) && Common !in st.afterFail
    ensures var st' := StartAfterFail(st, Common);
            && Common in st'.afterFail && st'.sends[Common] == st.sends[Common]
            && (Common in st'.requesting <==> Common in st.requesting)
  {
    CommonRetryWaits(st, TimeoutOf(st, Common) * 1000);
    hide AfterFailSwept;
  }

  // ----- requests on the way -----

  /** The event ends a request for `k` that is on the way. */
  predicate Answers(ev: Event, k: Target) {
    match ev
    case DifferenceFailed(j) => j == k
    case DifferenceReceived => k == Common
    case DifferenceTooLong => k == Common
    case StateFailed => k == Common
    case ChannelDifferenceReceived(id, _) => k == Channel(id)
    case _ => false
  }

  function Answered(events: seq<Event>, k: Target): nat
    decreases |events|
  {
    if events == [] then 0
    else Answered(events[..|events| - 1], k) + if Answers(events[|events| - 1], k) then 1 else 0
  }

  /** The requests sent, with the one for the first state, less those answered. */
  function OnTheWay(events: seq<Event>, k: Target): int {
    Run(events).sends[k] + (if k == Common then 1 else 0) - Answered(events, k)
  }

  /** An answer is for a request on the way, and the first common request is the one for the state. */
  ghost predicate Possible(events: seq<Event>, ev: Event) {
    && (forall k :: Answers(ev, k) ==> OnTheWay(events, k) > 0)
    && (ev.StateFailed? ==> Answered(events, Common) == 0)
    && (ev == DifferenceFailed(Common) || ev.DifferenceTooLong? ==> Answered(events, Common) > 0)
  }

  ghost predicate AllPossible(events: seq<Event>) {
    forall i :: 0 <= i < |events| ==> Possible(events[..i], events[i])
  }

  /** The event ends a request for `k`, leaves its flag and arranges for nothing that would free it. */
  predicate Drops(ev: Event, k: Target) {
    if k == Common then ev.DifferenceTooLong? || ev.StateFailed? else ev == DifferenceFailed(k)
  }

  predicate Dropped(events: seq<Event>, k: Target) {
    exists i :: 0 <= i < |events| && Drops(events[i], k)
  }

  /** The flag is set, and neither a request nor a retry that would free it first is to come. */
  predicate Stuck(events: seq<Event>, k: Target) {
    k in Run(events).requesting && OnTheWay(events, k) == 0 && (k == Common ==> k !in Run(events).afterFail)
  }

  /** How the flag, the common retry and the number of requests on the way hang together. */
  ghost predicate Tracked(st: State, onTheWay: int, dropped: bool, k: Target) {
    var retried := k == Common && k in st.afterFail;
    if dropped then onTheWay == 0 && k in st.requesting && !retried
    else 0 <= onTheWay <= 1 && (k in st.requesting <==> onTheWay == 1 || retried) && !(onTheWay == 1 && retried)
  }

  lemma AskingTracks(st: State, st': State, onTheWay: int, dropped: bool, k: Target)
    requires Tracked(st, onTheWay, dropped, k) && Asks(st, st', k)
    ensures Tracked(st', onTheWay + st'.sends[k] - st.sends[k], dropped, k)
  {
  }

  /** Events that answer no request for `k`. */
  lemma StepAsks(st: State, ev: Event, k: Target)
    requires !Answers(ev, k)
    ensures Asks(st, Step(st, ev), k)
  {
    hide GetDifference, GetChannelDifference, ByPtsSwept, AfterFailSwept, StartByPts, StartAfterFail;
    match ev
    case PtsWaiterStarts(j, ms) => StartByPtsAsks(st, j, ms, k);
    case DifferenceFailed(j) => FailureAsks(st, j, k);
    case ByPtsTimerFires => ByPtsAsks(st, k);
    case FailTimerFires => AfterFailAsks(st, k);
    case DifferenceWanted => DifferenceAsks(st, k);
    case ChannelDifferenceWanted(id) => ChannelAsks(st, Channel(id), Unknown, k);
    case ChannelDifferenceReceived(id, _) =>
      var j := Channel(id);
      ChannelAsks(st.(requesting := st.requesting - {j}, timeouts := st.timeouts - {j}), j, Unknown, k);
    case _ =>
  }

  lemma StepTracks(st: State, ev: Event, st': State, onTheWay: int, dropped: bool, k: Target)
    requires st' == Step(st, ev) && Backoff(st.timeouts)
    requires Tracked(st, onTheWay, dropped, k) && (Answers(ev, k) ==> onTheWay > 0)
    ensures var answered := if Answers(ev, k) then 1 else 0;
            Tracked(st', onTheWay + st'.sends[k] - st.sends[k] - answered, dropped || Drops(ev, k), k)
  {
    hide GetDifference, GetChannelDifference, ByPtsSwept, AfterFailSwept, StartByPts, StartAfterFail;
    if !Answers(ev, k) {
      StepAsks(st, ev, k);
      AskingTracks(st, st', onTheWay, dropped, k);
    } else if ev.ChannelDifferenceReceived? {
      var received := st.(requesting := st.requesting - {k}, timeouts := st.timeouts - {k});
      ChannelAsks(received, k, Unknown, k);
      AskingTracks(received, st', onTheWay - 1, dropped, k);
    } else if ev.DifferenceFailed? && k == Common {
      CommonFailureWaits(st);
    } else if ev.DifferenceFailed? {
      FailureAsks(st, k, k);
    }
  }

  lemma RunLast(events: seq<Event>, k: Target)
    requires events != []
    ensures Run(events) == Step(Run(events[..|events| - 1]), events[|events| - 1])
    ensures Answered(events, k)
         == Answered(events[..|events| - 1], k) + if Answers(events[|events| - 1], k) then 1 else 0
  {
    hide Step;
  }

  lemma DroppedLast(events: seq<Event>, k: Target)
    requires events != []
    ensures Dropped(events, k) <==> Dropped(events[..|events| - 1], k) || Drops(events[|events| - 1], k)
  {
    hide Drops;
  }

  lemma PossiblePrefix(events: seq<Event>, n: nat)
    requires AllPossible(events) && n <= |events|
    ensures AllPossible(events[..n])
  {
    hide Possible;
    forall i | 0 <= i < n
      ensures Possible(events[..n][..i], events[..n][i])
    {
      assert events[..n][..i] == events[..i];
    }
  }

  lemma LastAnswered(events: seq<Event>, k: Target)
    requires events != [] && AllPossible(events)
    ensures Answers(events[|events| - 1], k) ==> OnTheWay(events[..|events| - 1], k) > 0
  {
    assert Possible(events[..|events| - 1], events[|events| - 1]);
    hide OnTheWay, Answers;
  }

  lemma {:induction false} EveryRunTracks(events: seq<Event>, k: Target)
    requires AllPossible(events)
    ensures Tracked(Run(events), OnTheWay(events, k), Dropped(events, k), k)
    decreases |events|
  {
    if events != [] {
      var n := |events| - 1;
      RunLast(events, k);
      DroppedLast(events, k);
      LastAnswered(events, k);
      PossiblePrefix(events, n);
      EveryRunIsArmed(events[..n]);
      hide Run, Answered, AllPossible, Tracked, Step, Dropped, Drops, Answers, Backoff;
      EveryRunTracks(events[..n], k);
      StepTracks(Run(events[..n]), events[n], Run(events), OnTheWay(events[..n], k), Dropped(events[..n], k), k);
    }
  }

  /** The flag is set exactly while a request is on the way, a common retry waits, or the target has been dropped. */
  lemma FlagMeans(events: seq<Event>, k: Target)
    requires AllPossible(events)
    ensures 0 <= OnTheWay(events, k) <= 1
    ensures k in Run(events).requesting
            <==> OnTheWay(events, k) == 1 || (k == Common && k in Run(events).afterFail) || Dropped(events, k)
  {
    EveryRunTracks(events, k);
    hide AllPossible, OnTheWay, Dropped, Run;
  }

  /** A target is stuck exactly if an event dropped it: an answer that is too long, or the failure of the request for
      the state, the common one; any failure, a channel. */
  lemma StuckExactly(events: seq<Event>, k: Target)
    requires AllPossible(events)
    ensures Stuck(events, k) <==> Dropped(events, k)
  {
    EveryRunTracks(events, k);
    hide AllPossible, OnTheWay, Dropped, Run;
  }

  lemma DueRetrySends(st: State)
    requires Common in st.afterFail && st.afterFail[Common] <= st.now && Armed(st.afterFail, st.failTimer)
    ensures Step(st, FailTimerFires).sends[Common] == st.sends[Common] + 1
    ensures Common !in Step(st, FailTimerFires).afterFail
  {
    RetrySends(st, Common);
    SweepIsComplete(st, Common);
    hide AfterFailSwept, ByPtsSwept;
  }

  /** Unless it was dropped, a common difference that failed has its retry armed, and once that is due it is sent. */
  lemma CommonIsRetried(events: seq<Event>)
    requires AllPossible(events) && !Dropped(events, Common)
    requires Common in Run(events).requesting && OnTheWay(events, Common) == 0
    ensures var st := Run(events);
            && Common in st.afterFail && st.failTimer.Some? && st.failTimer.value <= st.afterFail[Common]
            && (st.afterFail[Common] <= st.now ==>
                  && Step(st, FailTimerFires).sends[Common] == st.sends[Common] + 1
                  && Common !in Step(st, FailTimerFires).afterFail)
  {
    FlagMeans(events, Common);
    EveryRunIsArmed(events);
    hide Run, AllPossible, OnTheWay, Dropped, Step, Backoff;
    if Run(events).afterFail[Common] <= Run(events).now {
      DueRetrySends(Run(events));
    }
  }

  /** Whatever comes later in the run, a stuck target stays stuck and no request is sent for it. */
  lemma {:induction false} StuckForever(events: seq<Event>, n: nat, k: Target)
    requires AllPossible(events) && n <= |events| && Stuck(events[..n], k)
    ensures Stuck(events, k) && Run(events).sends[k] == Run(events[..n]).sends[k]
    decreases |events|
  {
    var m := |events| - 1;
    if n > m {
      assert events[..n] == events;
    } else {
      RunLast(events, k);
      LastAnswered(events, k);
      PossiblePrefix(events, m);
      assert events[..m][..n] == events[..n];
      hide Run, Answered, AllPossible, Step, Dropped, Answers;
      StuckForever(events[..m], n, k);
      StepAsks(Run(events[..m]), events[m], k);
    }
  }

  predicate Receives(ev: Event, id: int) {
    ev.ChannelDifferenceReceived? && ev.id == id
  }

  lemma FlagStays(st: State, ev: Event, id: int)
    requires Channel(id) in st.requesting && !Receives(ev, id)
    ensures Channel(id) in Step(st, ev).requesting && Step(st, ev).sends[Channel(id)] == st.sends[Channel(id)]
  {
    hide StartAfterFail, StartByPts, ByPtsSwept, AfterFailSwept, GetDifference, GetChannelDifference;
    if ev == DifferenceFailed(Channel(id)) {
      FailureAsks(st, Channel(id), Channel(id));
    } else {
      StepAsks(st, ev, Channel(id));
    }
  }

  /** Over every run a channel whose flag is set is sent no request before its difference is received. */
  lemma {:induction false} FlaggedSendsNothing(events: seq<Event>, n: nat, id: int)
    requires n <= |events| && Channel(id) in Run(events[..n]).requesting
    requires forall i :: n <= i < |events| ==> !Receives(events[i], id)
    ensures Channel(id) in Run(events).requesting
    ensures Run(events).sends[Channel(id)] == Run(events[..n]).sends[Channel(id)]
    decreases |events|
  {
    var m := |events| - 1;
    if n > m {
      assert events[..n] == events;
    } else {
      assert events[..m][..n] == events[..n];
      assert !Receives(events[m], id);
      RunLast(events, Channel(id));
      hide Run, Step, Receives;
      FlaggedSendsNothing(events[..m], n, id);
      FlagStays(Run(events[..m]), events[m], id);
    }
  }

  // ----- two runs that end with a stuck target -----

  /** The run is possible and ends in `st`, after so many answers for `k`. */
  ghost predicate Reached(events: seq<Event>, st: State, k: Target, answered: nat) {
    AllPossible(events) && Run(events) == st && Answered(events, k) == answered
  }

  lemma ReachedNext(events: seq<Event>, ev: Event, st: State, k: Target, answered: nat)
    requires Reached(events, st, k, answered) && !ev.StateFailed?
    requires forall j :: Answers(ev, j) ==> j == k && st.sends[j] + (if j == Common then 1 else 0) > answered
    requires ev == DifferenceFailed(Common) || ev.DifferenceTooLong? ==> k == Common && answered > 0
    ensures Reached(events + [ev], Step(st, ev), k, answered + if Answers(ev, k) then 1 else 0)
  {
    var all := events + [ev];
    assert all[..|events|] == events;
    assert Possible(events, ev);
    hide Possible, Step;
    forall i | 0 <= i < |all|
      ensures Possible(all[..i], all[i])
    {
      assert i < |events| ==> all[..i] == events[..i];
    }
  }

  /** The same for an event that answers nothing. */
  lemma ReachedQuietly(events: seq<Event>, ev: Event, st: State, k: Target, answered: nat)
    requires Reached(events, st, k, answered)
    requires ev.Tick? || ev.FailTimerFires? || ev.DifferenceWanted? || ev.ChannelDifferenceWanted? || ev.PtsInited?
    ensures Reached(events + [ev], Step(st, ev), k, answered)
  {
    hide Reached, Step;
    ReachedNext(events, ev, st, k, answered);
  }

  lemma ReachedSays(events: seq<Event>, st: State, k: Target, answered: nat)
    requires Reached(events, st, k, answered)
    ensures AllPossible(events) && Run(events) == st
    ensures k.Channel? && k in st.requesting && st.sends[k] == answered ==> Stuck(events, k)
  {
  }

  /** The first failure of all arms the timer of the retries for itself. */
  lemma FirstFailure(st: State, k: Target)
    requires st.afterFail == map[] && k !in st.timeouts
    ensures var st' := StartAfterFail(st, k);
            && st'.afterFail == map[k := st.now + 1000] && st'.failTimer == Some(st.now + 1000)
            && st'.requesting == st.requesting && st'.sends == st.sends && st'.now == st.now
  {
    var changed := st.(afterFail := map[k := st.now + 1000]);
    assert Due(changed.afterFail, st.now) * changed.afterFail.Keys == {} && SentAgain(changed, {}) == {};
    assert Without(changed.afterFail, {}) == changed.afterFail && Without(changed.byPts, {}) == changed.byPts;
    EarliestIsStored(changed.afterFail);
    assert forall w :: w in changed.afterFail.Values ==> w == st.now + 1000;
    hide Due, SentAgain, Without, Earliest;
  }

  /** The first request for a channel is sent. */
  function AskedFirst(k: Target): State {
    Initial().(inited := {k}, requesting := {Common, k}, calls := multiset{k}, sends := multiset{k})
  }

  lemma AskedFirstIsReached(id: int)
    ensures Step(Step(Initial(), PtsInited(Channel(id))), ChannelDifferenceWanted(id)) == AskedFirst(Channel(id))
  {
    var k := Channel(id);
    assert Step(Initial(), PtsInited(k)) == Initial().(inited := {k});
    assert Without(map[], {k}) == map[];
  }

  lemma FlaggedRetry(st: State, k: Target)
    requires k.Channel? && k in st.requesting && st.afterFail == map[k := st.now] && IsDue(st.failTimer, st.now)
    ensures var retried := Step(st, FailTimerFires);
            k !in retried.afterFail && retried.sends[k] == st.sends[k] && k in retried.requesting
  {
    SweepIsComplete(st, k);
    AfterFailAsks(st, k);
    hide AfterFailSwept;
  }

  lemma FirstRetry(k: Target)
    requires k.Channel?
    ensures var waited := Step(Step(AskedFirst(k), DifferenceFailed(k)), Tick(1000));
            && k in waited.afterFail && waited.sends[k] == 1
            && var retried := Step(waited, FailTimerFires);
               k !in retried.afterFail && retried.sends[k] == 1 && k in retried.requesting
  {
    var failed := Step(AskedFirst(k), DifferenceFailed(k));
    assert failed == StartAfterFail(AskedFirst(k), k);
    FirstFailure(AskedFirst(k), k);
    var waited := failed.(now := 1000);
    assert Step(failed, Tick(1000)) == waited;
    hide Step, StartAfterFail;
    FlaggedRetry(waited, k);
  }

  lemma FailureReached(id: int)
    ensures var k := Channel(id);
            Reached([PtsInited(k), ChannelDifferenceWanted(id), DifferenceFailed(k)],
                    Step(AskedFirst(k), DifferenceFailed(k)), k, 1)
  {
    var k := Channel(id);
    var inited := [PtsInited(k)];
    assert Reached([], Initial(), k, 0) && inited == [] + inited;
    assert AskedFirst(k).sends[k] == 1;
    AskedFirstIsReached(id);
    hide Step, Reached, AskedFirst, Initial;
    ReachedQuietly([], PtsInited(k), Initial(), k, 0);
    ReachedQuietly(inited, ChannelDifferenceWanted(id), Step(Initial(), PtsInited(k)), k, 0);
    var asked := [PtsInited(k), ChannelDifferenceWanted(id)];
    assert inited + [ChannelDifferenceWanted(id)] == asked;
    assert asked + [DifferenceFailed(k)] == [PtsInited(k), ChannelDifferenceWanted(id), DifferenceFailed(k)];
    ReachedNext(asked, DifferenceFailed(k), AskedFirst(k), k, 0);
  }

  /** Once a channel's request has failed, its retry a second later sends nothing, and the channel is stuck. */
  lemma RetrySendsNothing(id: int)
    ensures var k := Channel(id);
            var events := [PtsInited(k), ChannelDifferenceWanted(id), DifferenceFailed(k), Tick(1000)];
            && AllPossible(events) && k in Run(events).afterFail && Run(events).sends[k] == 1
            && AllPossible(events + [FailTimerFires]) && Stuck(events + [FailTimerFires], k)
            && k !in Run(events + [FailTimerFires]).afterFail && Run(events + [FailTimerFires]).sends[k] == 1
  {
    var k := Channel(id);
    var failed := [PtsInited(k), ChannelDifferenceWanted(id), DifferenceFailed(k)];
    assert failed + [Tick(1000)] == [PtsInited(k), ChannelDifferenceWanted(id), DifferenceFailed(k), Tick(1000)];
    var s := Step(AskedFirst(k), DifferenceFailed(k));
    var waited := Step(s, Tick(1000));
    FailureReached(id);
    FirstRetry(k);
    hide Step, AllPossible, Reached, Run, Stuck, AskedFirst;
    ReachedQuietly(failed, Tick(1000), s, k, 1);
    ReachedQuietly(failed + [Tick(1000)], FailTimerFires, waited, k, 1);
    ReachedSays(failed + [Tick(1000)], waited, k, 1);
    ReachedSays(failed + [Tick(1000)] + [FailTimerFires], Step(waited, FailTimerFires), k, 1);
  }

  /** A difference that is too long is never asked for again. */
  lemma TooLongIsTheLast()
    ensures var events := [DifferenceReceived, DifferenceWanted, DifferenceTooLong];
            AllPossible(events) && Stuck(events, Common) && Run(events).sends[Common] == 1
  {
    var received, wanted := [DifferenceReceived], [DifferenceReceived, DifferenceWanted];
    assert wanted == received + [DifferenceWanted];
    assert wanted + [DifferenceTooLong] == [DifferenceReceived, DifferenceWanted, DifferenceTooLong];
    var s1 := Initial().(requesting := {});
    var s2 := s1.(calls := multiset{Common}, sends := multiset{Common}, requesting := {Common});
    assert Step(Initial(), DifferenceReceived) == s1;
    assert Step(s1, DifferenceWanted) == s2 && Step(s2, DifferenceTooLong) == s2;
    assert Reached([], Initial(), Common, 0) && received == [] + received;
    hide Step, AllPossible;
    ReachedNext([], DifferenceReceived, Initial(), Common, 0);
    ReachedQuietly(received, DifferenceWanted, s1, Common, 1);
    ReachedNext(wanted, DifferenceTooLong, s2, Common, 1);
  }

  // ----- the waiting times grow with the failures in a row -----

  function Power2(n: nat): nat {
    if n == 0 then 1 else 2 * Power2(n - 1)
  }

  /** The seconds to wait after `n` failures in a row. */
  function Seconds(n: nat): nat {
    if Power2(n) < 64 then Power2(n) else 64
  }

  /** The event ends the failures in a row of `k`; a common difference that is too long was received as well. */
  predicate Clears(ev: Event, k: Target) {
    if k == Common then ev.DifferenceReceived? || ev.DifferenceTooLong?
    else ev.ChannelDifferenceReceived? && k == Channel(ev.id)
  }

  /** How often the difference of `k` has failed since it was last received. */
  function Failures(events: seq<Event>, k: Target): nat
    decreases |events|
  {
    if events == [] then 0
    else
      var n := |events| - 1;
      if Clears(events[n], k) then 0
      else Failures(events[..n], k) + if events[n] == DifferenceFailed(k) then 1 else 0
  }

  lemma SecondsGrow(n: nat)
    ensures Seconds(n + 1) == if Seconds(n) < 64 then 2 * Seconds(n) else 64
    ensures Seconds(n) <= 64
  {
    SecondsStop(n);
  }

  lemma {:induction false} SecondsStop(n: nat)
    ensures Power2(n) >= 1
    ensures n <= 6 || Power2(n) >= 64
    ensures Power2(0) == 1 && Power2(1) == 2 && Power2(2) == 4 && Power2(3) == 8
    ensures Power2(4) == 16 && Power2(5) == 32 && Power2(6) == 64
  {
    if n > 0 {
      SecondsStop(n - 1);
    }
  }

  /** What an event leaves as the timeout of `k`. */
  lemma StepTimeout(st: State, ev: Event, k: Target)
    ensures var was, now := TimeoutOf(st, k), TimeoutOf(Step(st, ev), k);
            now == if Clears(ev, k) then 1
                   else if ev != DifferenceFailed(k) then was
                   else if was < 64 then 2 * was else was
  {
    hide ByPtsSwept, AfterFailSwept, Changed, GetDifference, GetChannelDifference;
    match ev
    case PtsWaiterStarts(j, ms) => SweepKeepsTimeouts(st.(byPts := Changed(st.byPts, j, ms, st.now)));
    case DifferenceFailed(j) =>
      SweepKeepsTimeouts(st.(afterFail := Changed(st.afterFail, j, TimeoutOf(st, j) * 1000, st.now)));
    case ByPtsTimerFires => SweepKeepsTimeouts(st);
    case FailTimerFires => SweepKeepsTimeouts(st);
    case DifferenceWanted => AskingOnlyRemoves(st);
    case ChannelDifferenceWanted(id) => AskingChannelOnlyRemoves(st, Channel(id), Unknown);
    case ChannelDifferenceReceived(id, _) =>
      var j := Channel(id);
      AskingChannelOnlyRemoves(st.(requesting := st.requesting - {j}, timeouts := st.timeouts - {j}), j, Unknown);
    case _ =>
  }

  lemma {:induction false} TimeoutIsCounted(events: seq<Event>, k: Target)
    ensures TimeoutOf(Run(events), k) == Seconds(Failures(events, k))
    decreases |events|
  {
    SecondsStop(0);
    if events != [] {
      var n := |events| - 1;
      TimeoutIsCounted(events[..n], k);
      StepTimeout(Run(events[..n]), events[n], k);
      SecondsGrow(Failures(events[..n], k));
      hide Step, Seconds, Power2;
    }
  }

  lemma FailureIsStored(st: State, k: Target)
    requires TimeoutOf(st, k) > 0
    ensures var wait := TimeoutOf(st, k) * 1000; var after := StartAfterFail(st, k);
            && k in after.afterFail
            && after.afterFail[k] == if k in st.afterFail && st.afterFail[k] < st.now + wait then st.afterFail[k]
                                     else st.now + wait
  {
    hide ByPtsSwept, TimeoutOf;
  }

  /** The timeout of a target is counted in its failures: it is the smaller of 64 and 2^n after `n` of them in a row,
      and the next failure asks for a retry so many seconds ahead, or leaves an earlier one. */
  lemma FailuresWaitLonger(events: seq<Event>, k: Target)
    ensures var st, n := Run(events), Failures(events, k);
            && (k in st.timeouts ==> st.timeouts[k] == if Power2(n) < 64 then Power2(n) else 64)
            && (k !in st.timeouts ==> n == 0)
    ensures var st, n := Run(events), Failures(events, k);
            var wait := 1000 * if Power2(n) < 64 then Power2(n) else 64;
            var after := Step(st, DifferenceFailed(k));
            && k in after.afterFail
            && after.afterFail[k] == if k in st.afterFail && st.afterFail[k] < st.now + wait then st.afterFail[k]
                                     else st.now + wait
  {
    var st := Run(events);
    var n := Failures(events, k);
    TimeoutIsCounted(events, k);
    SecondsStop(n);
    SecondsGrow(if n > 0 then n - 1 else 0);
    FailureIsStored(st, k);
    assert Step(st, DifferenceFailed(k)) == StartAfterFail(st, k);
    hide Run, Step, Failures, StartAfterFail;
  }

  // ----- each target on its own -----

  /** What concerns one target alone. */
  datatype One = One(byPts: Option<int>, afterFail: Option<int>, flag: bool, inited: bool, calls: nat, sends: nat)

  function Part(st: State, k: Target): One {
    One(if k in st.byPts then Some(st.byPts[k]) else None,
        if k in st.afterFail then Some(st.afterFail[k]) else None,
        k in st.requesting, k in st.inited, st.calls[k], st.sends[k])
  }

  predicate Passed(deadline: Option<int>, now: int) {
    deadline.Some? && deadline.value <= now
  }

  /** The difference is asked for: its deadline goes. Unless the pts are unknown or a request runs, one is sent, and
      then the retry goes too. */
  function OneAsked(o: One, common: bool): One {
    var asked := o.(byPts := None, calls := o.calls + 1);
    if o.flag || !(common || o.inited) then asked
    else asked.(afterFail := None, flag := true, sends := o.sends + 1)
  }

  /** A deadline that has passed asks. */
  function OneDue(o: One, common: bool, now: int): One {
    if Passed(o.byPts, now) then OneAsked(o, common) else o
  }

  /** A retry whose time has passed asks, and goes even if nothing is sent; the common one frees its flag first. */
  function OneRetried(o: One, common: bool, now: int): One {
    if Passed(o.afterFail, now) then OneAsked(o.(flag := o.flag && !common), common).(afterFail := None) else o
  }

  /** A deadline is moved to an earlier time, or taken back. */
  function OneMoved(deadline: Option<int>, now: int, ms: int): Option<int> {
    if ms <= 0 then None
    else if deadline.Some? && deadline.value <= now + ms then deadline
    else Some(now + ms)
  }

  /** What an event does to one target. An event of any target may go through a table (`sweeps`), and then every target
      of which the time has passed is asked for. */
  function OneStep(o: One, k: Target, now: int, seconds: int, ev: Event, sweeps: bool): One {
    var common := k == Common;
    match ev
    case Tick(_) => o
    case PtsWaiterStarts(j, ms) =>
      var moved := if j == k then o.(byPts := OneMoved(o.byPts, now, ms)) else o;
      if sweeps then OneDue(moved, common, now) else moved
    case DifferenceFailed(j) =>
      var moved := if j == k then o.(afterFail := OneMoved(o.afterFail, now, 1000 * seconds)) else o;
      if sweeps then OneRetried(moved, common, now) else moved
    case ByPtsTimerFires => if sweeps then OneDue(o, common, now) else o
    case FailTimerFires => if sweeps then OneRetried(o, common, now) else o
    case DifferenceWanted => if common then OneAsked(o, true) else o
    case DifferenceReceived => if common then o.(flag := false) else o
    case DifferenceTooLong => o
    case StateFailed => o
    case ChannelDifferenceReceived(id, isFinal) =>
      if k != Channel(id) then o
      else if isFinal then o.(flag := false) else OneAsked(o.(flag := false), false)
    case ChannelDifferenceWanted(id) => if k == Channel(id) then OneAsked(o, false) else o
    case PtsInited(j) => if j == k then o.(inited := true) else o
  }

  /** Whether an event goes through its table: a timer that is due, or an entry that changes. */
  predicate Sweeps(st: State, ev: Event, seconds: int) {
    match ev
    case PtsWaiterStarts(j, ms) => if ms <= 0 then j in st.byPts else j !in st.byPts || st.now + ms < st.byPts[j]
    case DifferenceFailed(j) => j !in st.afterFail || st.now + 1000 * seconds < st.afterFail[j]
    case ByPtsTimerFires => Passed(st.byPtsTimer, st.now)
    case FailTimerFires => Passed(st.failTimer, st.now)
    case _ => false
  }

  lemma AskedAlone(st: State, k: Target)
    ensures Part(GetDifference(st), k) == if k == Common then OneAsked(Part(st, k), true) else Part(st, k)
  {
  }

  lemma ChannelAskedAlone(st: State, j: Target, k: Target)
    requires j.Channel?
    ensures Part(GetChannelDifference(st, j, Unknown), k)
         == if k == j then OneAsked(Part(st, k), false) else Part(st, k)
  {
  }

  lemma SweptAlone(st: State, k: Target)
    ensures Part(ByPtsSwept(st), k) == OneDue(Part(st, k), k == Common, st.now)
    ensures Part(AfterFailSwept(st), k) == OneRetried(Part(st, k), k == Common, st.now)
  {
    RetrySends(st, k);
    SweepIsComplete(st, k);
    ByPtsSweepAt(st, k);
    AfterFailSweepAt(st, k);
    hide ByPtsSwept, AfterFailSwept;
  }

  /** What the first sweep does to the entries and the flag of one target. */
  lemma ByPtsSweepAt(st: State, k: Target)
    ensures var r := ByPtsSwept(st); var due := k in st.byPts && st.byPts[k] <= st.now; var sent := due && Sends(st, k);
            && (k in r.byPts <==> k in st.byPts && !due)
            && (k in r.afterFail <==> k in st.afterFail && !sent)
            && (k in r.afterFail ==> r.afterFail[k] == st.afterFail[k])
            && (k in r.requesting <==> k in st.requesting || sent) && r.inited == st.inited
  {
    var ks := Due(st.byPts, st.now) * st.byPts.Keys;
    assert k in ks <==> k in st.byPts && st.byPts[k] <= st.now;
    assert k in Sent(st, ks) <==> k in ks && Sends(st, k);
    hide Earliest, Due, Sent, Sends;
  }

  lemma AfterFailSweepAt(st: State, k: Target)
    ensures var r := AfterFailSwept(st); var due := k in st.afterFail && st.afterFail[k] <= st.now;
            var sent := due && (k == Common || Sends(st, k));
            && (k in r.afterFail <==> k in st.afterFail && !due)
            && (k in r.byPts <==> k in st.byPts && !due)
            && (k in r.byPts ==> r.byPts[k] == st.byPts[k])
            && (k in r.requesting <==> k in st.requesting || sent) && r.inited == st.inited
  {
    var ks := Due(st.afterFail, st.now) * st.afterFail.Keys;
    assert k in ks <==> k in st.afterFail && st.afterFail[k] <= st.now;
    assert k in SentAgain(st, ks) <==> k in ks && (k == Common || Sends(st, k));
    hide Earliest, Due, SentAgain, Sends;
  }

  lemma MovedAlone(st: State, j: Target, ms: int, k: Target)
    ensures var was := Part(st, k); var now := Part(st.(byPts := Changed(st.byPts, j, ms, st.now)), k);
            now == if j == k then was.(byPts := OneMoved(was.byPts, st.now, ms)) else was
    ensures var was := Part(st, k); var now := Part(st.(afterFail := Changed(st.afterFail, j, ms, st.now)), k);
            now == if j == k then was.(afterFail := OneMoved(was.afterFail, st.now, ms)) else was
  {
  }

  lemma StartedAlone(st: State, j: Target, ms: int, k: Target)
    ensures var o := Part(st, k); var moved := if j == k then o.(byPts := OneMoved(o.byPts, st.now, ms)) else o;
            Part(StartByPts(st, j, ms), k)
            == if Sweeps(st, PtsWaiterStarts(j, ms), 1) then OneDue(moved, k == Common, st.now) else moved
  {
    MovedAlone(st, j, ms, k);
    UnchangedStays(st.byPts, j, ms, st.now);
    SweptAlone(st.(byPts := Changed(st.byPts, j, ms, st.now)), k);
    hide ByPtsSwept, Changed, Part, OneDue, OneMoved;
  }

  lemma RetryStoredAlone(st: State, j: Target, seconds: int, k: Target)
    requires seconds > 0
    ensures var changed := st.(afterFail := Changed(st.afterFail, j, seconds * 1000, st.now)); var o := Part(st, k);
            var moved := if j == k then o.(afterFail := OneMoved(o.afterFail, st.now, 1000 * seconds)) else o;
            Part(if Changes(st.afterFail, j, seconds * 1000, st.now) then AfterFailSwept(changed) else st, k)
            == if Sweeps(st, DifferenceFailed(j), seconds) then OneRetried(moved, k == Common, st.now) else moved
  {
    MovedAlone(st, j, seconds * 1000, k);
    UnchangedStays(st.afterFail, j, seconds * 1000, st.now);
    SweptAlone(st.(afterFail := Changed(st.afterFail, j, seconds * 1000, st.now)), k);
    hide AfterFailSwept, Changed, Part, OneRetried, OneMoved;
  }

  lemma FailedAlone(st: State, j: Target, k: Target)
    requires TimeoutOf(st, j) > 0
    ensures var o, s := Part(st, k), TimeoutOf(st, j);
            var moved := if j == k then o.(afterFail := OneMoved(o.afterFail, st.now, 1000 * s)) else o;
            Part(StartAfterFail(st, j), k)
            == if Sweeps(st, DifferenceFailed(j), s) then OneRetried(moved, k == Common, st.now) else moved
  {
    hide AfterFailSwept, Changed, Changes, Part, OneRetried, OneMoved, Sweeps, TimeoutOf, Doubled;
    var s := TimeoutOf(st, j);
    var changed := st.(afterFail := Changed(st.afterFail, j, s * 1000, st.now));
    RetryStoredAlone(st, j, s, k);
    SamePart(if Changes(st.afterFail, j, s * 1000, st.now) then AfterFailSwept(changed) else st,
             st.timeouts[j := Doubled(s)], k);
  }

  lemma SamePart(st: State, timeouts: map<Target, int>, k: Target)
    ensures Part(st.(timeouts := timeouts), k) == Part(st, k)
  {
  }

  lemma StepAlone(st: State, ev: Event, k: Target)
    requires ev.DifferenceFailed? ==> TimeoutOf(st, ev.k) > 0
    ensures var seconds := if ev.DifferenceFailed? then TimeoutOf(st, ev.k) else 1;
            Part(Step(st, ev), k) == OneStep(Part(st, k), k, st.now, seconds, ev, Sweeps(st, ev, seconds))
  {
    hide ByPtsSwept, AfterFailSwept, GetDifference, GetChannelDifference, Changed;
    hide OneAsked, OneDue, OneRetried, OneMoved;
    match ev
    case PtsWaiterStarts(j, ms) =>
      StartedAlone(st, j, ms, k);
      hide StartByPts;
    case DifferenceFailed(j) =>
      FailedAlone(st, j, k);
      hide StartAfterFail, TimeoutOf;
    case ByPtsTimerFires => SweptAlone(st, k);
    case FailTimerFires => SweptAlone(st, k);
    case DifferenceWanted => AskedAlone(st, k);
    case ChannelDifferenceWanted(id) => ChannelAskedAlone(st, Channel(id), k);
    case ChannelDifferenceReceived(id, _) =>
      ChannelAskedAlone(st.(requesting := st.requesting - {Channel(id)}, timeouts := st.timeouts - {Channel(id)}),
                        Channel(id), k);
    case _ =>
  }

  /** The two tables, the flags and the requests of all targets together behave for each target as that target alone
      would; the targets meet only in the sweeps. */
  lemma EachTargetAlone(events: seq<Event>, ev: Event, k: Target)
    ensures var st := Run(events);
            var seconds := if ev.DifferenceFailed? then Seconds(Failures(events, ev.k)) else 1;
            Part(Step(st, ev), k) == OneStep(Part(st, k), k, st.now, seconds, ev, Sweeps(st, ev, seconds))
  {
    var st := Run(events);
    if ev.DifferenceFailed? {
      TimeoutIsCounted(events, ev.k);
      SecondsGrow(Failures(events, ev.k));
      SecondsStop(Failures(events, ev.k));
    }
    hide Run, Seconds, Failures, Power2;
    StepAlone(st, ev, k);
  }

  /** The timer is set for exactly the earliest entry, or off if there is none. */
  ghost predicate SetForEarliest(t: Deadlines, timer: Option<int>) {
    && (timer.Some? <==> t != map[])
    && (timer.Some? ==> (exists k :: k in t && t[k] == timer.value) && forall k :: k in t ==> timer.value <= t[k])
  }

  lemma SweptTimer(st: State)
    ensures SetForEarliest(ByPtsSwept(st).byPts, ByPtsSwept(st).byPtsTimer)
    ensures SetForEarliest(AfterFailSwept(st).afterFail, AfterFailSwept(st).failTimer)
    ensures ByPtsSwept(st).failTimer == st.failTimer && AfterFailSwept(st).byPtsTimer == st.byPtsTimer
    ensures ByPtsSwept(st).now == st.now == AfterFailSwept(st).now
  {
    EarliestArms(ByPtsSwept(st).byPts);
    EarliestArms(AfterFailSwept(st).afterFail);
    EarliestIsStored(ByPtsSwept(st).byPts);
    EarliestIsStored(AfterFailSwept(st).afterFail);
    hide Earliest;
  }

  /** An event that goes through a table sets its timer for the earliest entry left; all others leave the timers, and
      only the clock moves the time. */
  ghost predicate TimersFollow(st: State, ev: Event, after: State, swept: bool) {
    && (if swept && (ev.PtsWaiterStarts? || ev.ByPtsTimerFires?)
        then SetForEarliest(after.byPts, after.byPtsTimer) else after.byPtsTimer == st.byPtsTimer)
    && (if swept && (ev.DifferenceFailed? || ev.FailTimerFires?)
        then SetForEarliest(after.afterFail, after.failTimer) else after.failTimer == st.failTimer)
    && after.now == st.now + if ev.Tick? then ev.elapsed else 0
  }

  lemma AskingKeepsTime(st: State, k: Target)
    ensures GetDifference(st).now == st.now
    ensures k.Channel? ==> GetChannelDifference(st, k, Unknown).now == st.now
  {
  }

  lemma StepTimers(st: State, ev: Event)
    requires ev.DifferenceFailed? ==> TimeoutOf(st, ev.k) > 0
    ensures TimersFollow(st, ev, Step(st, ev), Sweeps(st, ev, if ev.DifferenceFailed? then TimeoutOf(st, ev.k) else 1))
  {
    hide ByPtsSwept, AfterFailSwept, SetForEarliest, Changed, GetDifference, GetChannelDifference, TimeoutOf;
    match ev
    case PtsWaiterStarts(j, ms) => SweptTimer(st.(byPts := Changed(st.byPts, j, ms, st.now)));
    case DifferenceFailed(j) => SweptTimer(st.(afterFail := Changed(st.afterFail, j, TimeoutOf(st, j) * 1000, st.now)));
    case ByPtsTimerFires => SweptTimer(st);
    case FailTimerFires => SweptTimer(st);
    case DifferenceWanted =>
      AskingOnlyRemoves(st);
      AskingKeepsTime(st, Common);
    case ChannelDifferenceWanted(id) =>
      AskingChannelOnlyRemoves(st, Channel(id), Unknown);
      AskingKeepsTime(st, Channel(id));
    case ChannelDifferenceReceived(id, _) =>
      var k := Channel(id);
      var received := st.(requesting := st.requesting - {k}, timeouts := st.timeouts - {k});
      AskingChannelOnlyRemoves(received, k, Unknown);
      AskingKeepsTime(received, k);
    case _ =>
  }

  lemma EveryTimerFollows(events: seq<Event>, ev: Event)
    ensures var seconds := if ev.DifferenceFailed? then Seconds(Failures(events, ev.k)) else 1;
            TimersFollow(Run(events), ev, Step(Run(events), ev), Sweeps(Run(events), ev, seconds))
  {
    if ev.DifferenceFailed? {
      TimeoutIsCounted(events, ev.k);
      SecondsStop(Failures(events, ev.k));
    }
    assert ev.DifferenceFailed? ==> Seconds(Failures(events, ev.k)) > 0;
    hide Run, Step, Seconds, Failures, Power2, TimersFollow, Sweeps, TimeoutOf;
    StepTimers(Run(events), ev);
  }
}
