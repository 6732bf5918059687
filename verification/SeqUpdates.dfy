/**
 Ordered delivery of numbered update containers: a container is dropped, applied or buffered
 by its number, and applying one drains the buffer as far as it now reaches.
 */
module SeqUpdates {
  import opened Ordered

  /** What a container carries. Feeding it may find that data is missing and ask for a difference. */
  datatype Body = Body(id: int, startsDifference: bool)

  datatype Container =
    | Updates(seqNo: nat, body: Body)
    | UpdatesCombined(seqStart: nat, seqNo: nat, body: Body)
    | UpdateShort(body: Body)
    | UpdatesTooLong

  /** One feed: the container and the state number it was fed at. */
  datatype Applied = Applied(at: nat, c: Container)

  /** `log` is what was fed in full, `aside` the containers of which only the group call updates were fed. */
  datatype State = State(
    seqNo: nat,
    buffer: map<nat, Container>,
    timer: bool,
    requesting: bool,
    log: seq<Applied>,
    aside: seq<Container>)

  /** The first number of a container; zero when it has none. */
  function Start(c: Container): nat {
    match c
    case Updates(seqNo, _) => seqNo
    case UpdatesCombined(seqStart, _, _) => seqStart
    case UpdateShort(_) => 0
    case UpdatesTooLong => 0
  }

  /** The state number after a container; zero when it leaves that number alone. */
  function End(c: Container): nat {
    match c
    case Updates(seqNo, _) => seqNo
    case UpdatesCombined(_, seqNo, _) => seqNo
    case UpdateShort(_) => 0
    case UpdatesTooLong => 0
  }

  /** What the server guarantees of a combined container. */
  predicate WellFormed(c: Container) {
    Start(c) <= End(c)
  }

  /** The key at the front of the ordered map. */
  function Front(m: map<nat, Container>): (k: nat)
    requires m != map[]
    ensures k in m && forall j :: j in m ==> k <= j
  {
    Least(m.Keys)
  }

  // ----- the operations on values -----

  function GetDifference(st: State): State {
    if st.requesting then st else st.(buffer := map[], timer := false, requesting := true)
  }

  function Feed(st: State, c: Container): State
    requires !c.UpdatesTooLong?
  {
    var fed := st.(log := st.log + [Applied(st.seqNo, c)]);
    if c.body.startsDifference then GetDifference(fed) else fed
  }

  function FeedAside(st: State, c: Container): State {
    if c.UpdatesTooLong? then st else st.(aside := st.aside + [c])
  }

  function ApplyUpdates(st: State, c: Container): State
    decreases |st.buffer|, 2
  {
    if c.UpdatesTooLong? then GetDifference(st)
    else if Start(c) != 0 && Start(c) <= st.seqNo then st
    else if Start(c) != 0 && Start(c) > st.seqNo + 1 then
      st.(buffer := if Start(c) in st.buffer then st.buffer else st.buffer[Start(c) := c], timer := true)
    else SetSeq(Feed(st, c), End(c))
  }

  function SetSeq(st: State, seqNo: nat): State
    decreases |st.buffer|, 1
  {
    if seqNo == 0 || seqNo == st.seqNo then st else Drain(st.(seqNo := seqNo, timer := false))
  }

  /** Takes containers from the front of the buffer up to the first one beyond a gap. */
  function Drain(st: State): State
    decreases |st.buffer|, 0
  {
    if st.buffer == map[] then st
    else
      var s := Front(st.buffer);
      if s > st.seqNo + 1 then st.(timer := true)
      else
        var popped := st.(buffer := st.buffer - {s});
        if s == st.seqNo + 1 then ApplyUpdates(popped, st.buffer[s]) else Drain(popped)
  }

  // ----- the object -----

  class UpdatesManager {
    var updatesSeq: nat
    var bySeqUpdates: map<nat, Container>
    var bySeqTimer: bool
    var requesting: bool
    ghost var log: seq<Applied>
    ghost var aside: seq<Container>

    ghost function View(): State
      reads this
    {
      State(updatesSeq, bySeqUpdates, bySeqTimer, requesting, log, aside)
    }

    /** Starts out waiting for the state it asks the server for. */
    constructor ()
      ensures View() == Initial()
    {
      updatesSeq, bySeqUpdates, bySeqTimer, requesting, log, aside := 0, map[], false, true, [], [];
    }

    method RequestDifference()
      modifies this
      ensures View() == GetDifference(old(View()))
    {
      if requesting {
        return;
      }
      bySeqUpdates := map[];
      bySeqTimer := false;
      requesting := true;
    }

    method FeedUpdateVector(c: Container)
      requires !c.UpdatesTooLong?
      modifies this
      ensures View() == Feed(old(View()), c)
    {
      log := log + [Applied(updatesSeq, c)];
      if c.body.startsDifference {
        RequestDifference();
      }
    }

    method Apply(c: Container)
      modifies this
      ensures View() == ApplyUpdates(old(View()), c)
      decreases |bySeqUpdates|, 1
    {
      if c.UpdatesTooLong? {
        RequestDifference();
        return;
      }
      if Start(c) != 0 {
        if Start(c) <= updatesSeq {
          return;
        }
        if Start(c) > updatesSeq + 1 {
          if Start(c) !in bySeqUpdates {
            bySeqUpdates := bySeqUpdates[Start(c) := c];
          }
          bySeqTimer := true;
          return;
        }
      }
      FeedUpdateVector(c);
      SetState(if c.UpdateShort? then updatesSeq else End(c));
    }

    method SetState(seqNo: nat)
      modifies this
      ensures View() == SetSeq(old(View()), seqNo)
      decreases |bySeqUpdates|, 0
    {
      if seqNo == 0 || seqNo == updatesSeq {
        return;
      }
      updatesSeq := seqNo;
      if bySeqTimer {
        bySeqTimer := false;
      }
      while bySeqUpdates != map[]
        invariant updatesSeq == seqNo && |bySeqUpdates| <= old(|bySeqUpdates|)
        invariant Drain(View()) == SetSeq(old(View()), seqNo)
        decreases |bySeqUpdates|
      {
        var s := Front(bySeqUpdates);
        if s <= seqNo + 1 {
          var v := bySeqUpdates[s];
          bySeqUpdates := bySeqUpdates - {s};
          if s == seqNo + 1 {
            Apply(v);
            return;
          }
        } else {
          if !bySeqTimer {
            bySeqTimer := true;
          }
          break;
        }
      }
    }

    method MtpUpdateReceived(c: Container, forceLogout: bool)
      modifies this
      ensures View() == Step(old(View()), Pushed(c, forceLogout))
    {
      if !requesting || forceLogout {
        Apply(c);
      } else {
        ApplyGroupCallParticipantUpdates(c);
      }
    }

    /** While a difference is being asked for, group call updates are fed whatever their number. What they carry cannot
        start another difference then. */
    method ApplyGroupCallParticipantUpdates(c: Container)
      modifies `aside
      ensures View() == FeedAside(old(View()), c)
    {
      if !c.UpdatesTooLong? {
        aside := aside + [c];
      }
    }

    method MtpNewSessionCreated()
      modifies this
      ensures View() == Step(old(View()), NewSession)
    {
      updatesSeq := 0;
      RequestDifference();
    }

    method DifferenceDone(result: Event)
      requires || result.DifferenceEmpty?
               || result.DifferenceSlice?
               || result.DifferenceFinal?
               || result.DifferenceTooLong?
      modifies this
      ensures View() == Step(old(View()), result)
    {
      match result
      case DifferenceEmpty(seqNo) =>
        SetState(seqNo);
        requesting := false;
      case DifferenceSlice(seqNo) =>
        SetState(seqNo);
        requesting := false;
        RequestDifference();
      case DifferenceFinal(seqNo) =>
        SetState(seqNo);
        requesting := false;
      case DifferenceTooLong =>
    }

    method RetryDifferenceAfterFail()
      modifies this
      ensures View() == Step(old(View()), RetryAfterFail)
    {
      requesting := false;
      RequestDifference();
    }

    method BySeqTimerFires()
      requires bySeqTimer
      modifies this
      ensures View() == Step(old(View()), TimerFired)
    {
      bySeqTimer := false;
      RequestDifference();
    }
  }

  // ----- runs -----

  datatype Event =
    | Pushed(c: Container, forceLogout: bool)
    | Returned(c: Container)
    | DifferenceEmpty(seqNo: nat)
    | DifferenceSlice(seqNo: nat)
    | DifferenceFinal(seqNo: nat)
    | DifferenceTooLong
    | RetryAfterFail
    | DifferenceWanted
    | NewSession
    | TimerFired

  function Initial(): State {
    State(0, map[], false, true, [], [])
  }

  function Step(st: State, ev: Event): State {
    match ev
    case Pushed(c, forceLogout) => if st.requesting && !forceLogout then FeedAside(st, c) else ApplyUpdates(st, c)
    case Returned(c) => ApplyUpdates(st, c)
    case DifferenceEmpty(seqNo) => SetSeq(st, seqNo).(requesting := false)
    case DifferenceSlice(seqNo) => GetDifference(SetSeq(st, seqNo).(requesting := false))
    case DifferenceFinal(seqNo) => SetSeq(st, seqNo).(requesting := false)
    case DifferenceTooLong => st
    case RetryAfterFail => GetDifference(st.(requesting := false))
    case DifferenceWanted => GetDifference(st)
    case NewSession => GetDifference(st.(seqNo := 0))
    case TimerFired => if st.timer then GetDifference(st.(timer := false)) else st
  }

  function Run(st: State, events: seq<Event>): State
    decreases |events|
  {
    if events == [] then st else Step(Run(st, events[..|events| - 1]), events[|events| - 1])
  }

  predicate ServerKeepsForm(ev: Event) {
    (ev.Pushed? || ev.Returned?) ==> WellFormed(ev.c)
  }

  // ----- what every run keeps -----

  ghost predicate KeyedByStart(buffer: map<nat, Container>) {
    forall k :: k in buffer ==> 0 < k == Start(buffer[k]) && WellFormed(buffer[k])
  }

  ghost predicate BeyondGap(st: State) {
    forall k :: k in st.buffer ==> st.seqNo + 1 < k
  }

  ghost predicate AppliedInTurn(log: seq<Applied>) {
    forall i :: 0 <= i < |log| && Start(log[i].c) != 0 ==> Start(log[i].c) == log[i].at + 1
  }

  ghost predicate Safe(st: State) {
    KeyedByStart(st.buffer) && BeyondGap(st) && AppliedInTurn(st.log)
  }

  /** Whatever waits beyond a gap has a timer that will ask for the difference. */
  ghost predicate Watched(st: State) {
    st.buffer != map[] ==> st.timer
  }

  lemma FeedKeepsSafe(st: State, c: Container)
    requires Safe(st) && !c.UpdatesTooLong? && (Start(c) == 0 || Start(c) == st.seqNo + 1)
    ensures Safe(Feed(st, c)) && Feed(st, c).seqNo == st.seqNo
    ensures Watched(st) ==> Watched(Feed(st, c))
    ensures |Feed(st, c).buffer| <= |st.buffer|
  {
  }

  lemma ApplyKeepsSafe(st: State, c: Container)
    requires Safe(st) && WellFormed(c)
    ensures Safe(ApplyUpdates(st, c))
    ensures Watched(st) || Start(c) == st.seqNo + 1 ==> Watched(ApplyUpdates(st, c))
    decreases |st.buffer|, 2
  {
    hide Feed, SetSeq, AppliedInTurn;
    if !c.UpdatesTooLong? && (Start(c) == 0 || Start(c) == st.seqNo + 1) {
      FeedKeepsSafe(st, c);
      SetSeqKeepsSafe(Feed(st, c), End(c));
    }
  }

  lemma SetSeqKeepsSafe(st: State, seqNo: nat)
    requires Safe(st)
    ensures Safe(SetSeq(st, seqNo))
    ensures Watched(st) || (seqNo != 0 && seqNo != st.seqNo) ==> Watched(SetSeq(st, seqNo))
    decreases |st.buffer|, 1
  {
    if seqNo != 0 && seqNo != st.seqNo {
      DrainGivesSafe(st.(seqNo := seqNo, timer := false));
    }
  }

  /** Popping the front brings the rest closer, and leaves it beyond the gap if the front was the next. */
  lemma PoppedKeeps(st: State, s: nat)
    requires KeyedByStart(st.buffer) && AppliedInTurn(st.log) && st.buffer != map[] && s == Front(st.buffer)
    ensures var popped := st.(buffer := st.buffer - {s});
            && KeyedByStart(popped.buffer) && |popped.buffer| < |st.buffer|
            && (s == st.seqNo + 1 ==> Safe(popped) && WellFormed(st.buffer[s]) && Start(st.buffer[s]) == s)
    ensures s > st.seqNo + 1 ==> Safe(st.(timer := true)) && Watched(st.(timer := true))
  {
  }

  /** Draining restores everything, whatever the new state number is and although the timer was stopped. */
  lemma DrainGivesSafe(st: State)
    requires KeyedByStart(st.buffer) && AppliedInTurn(st.log)
    ensures Safe(Drain(st)) && Watched(Drain(st))
    decreases |st.buffer|, 0
  {
    if st.buffer != map[] {
      var s := Front(st.buffer);
      PoppedKeeps(st, s);
      hide ApplyUpdates, KeyedByStart, AppliedInTurn, BeyondGap;
      if s <= st.seqNo + 1 {
        var popped := st.(buffer := st.buffer - {s});
        if s == st.seqNo + 1 {
          ApplyKeepsSafe(popped, st.buffer[s]);
        } else {
          DrainGivesSafe(popped);
        }
      }
    }
  }

  /** One event keeps safety always, and the timer watch unless the timer fires into a running request. */
  lemma StepKeeps(st: State, ev: Event)
    requires Safe(st) && ServerKeepsForm(ev)
    ensures Safe(Step(st, ev))
    ensures Watched(st) ==>
              (Watched(Step(st, ev)) <==> !(ev.TimerFired? && st.requesting && st.buffer != map[]))
  {
    match ev
    case Pushed(c, _) => ApplyKeepsSafe(st, c);
    case Returned(c) => ApplyKeepsSafe(st, c);
    case DifferenceEmpty(seqNo) => SetSeqKeepsSafe(st, seqNo);
    case DifferenceSlice(seqNo) => SetSeqKeepsSafe(st, seqNo);
    case DifferenceFinal(seqNo) => SetSeqKeepsSafe(st, seqNo);
    case _ =>
  }

  /** In every reachable state buffered containers lie beyond the gap and every numbered container was applied in its
      turn. */
  lemma {:induction false} EveryRunIsSafe(events: seq<Event>)
    requires forall i :: 0 <= i < |events| ==> ServerKeepsForm(events[i])
    ensures Safe(Run(Initial(), events))
    decreases |events|
  {
    if events != [] {
      var n := |events| - 1;
      EveryRunIsSafe(events[..n]);
      StepKeeps(Run(Initial(), events[..n]), events[n]);
    }
  }

  /** The timer fires into a running request at step `i` of the run. */
  ghost predicate FiresInFlight(events: seq<Event>, i: nat)
    requires i < |events|
  {
    var before := Run(Initial(), events[..i]);
    events[i].TimerFired? && before.requesting && before.buffer != map[]
  }

  lemma RunPrefix(events: seq<Event>, n: nat)
    requires n < |events|
    ensures Run(Initial(), events[..n + 1]) == Step(Run(Initial(), events[..n]), events[n])
  {
    assert events[..n + 1][..n] == events[..n];
  }

  lemma {:induction false} WatchedUntil(events: seq<Event>, n: nat)
    requires n <= |events|
    requires forall i :: 0 <= i < |events| ==> ServerKeepsForm(events[i])
    requires forall i :: 0 <= i < n ==> !FiresInFlight(events, i)
    ensures Watched(Run(Initial(), events[..n]))
  {
    if n > 0 {
      WatchedUntil(events, n - 1);
      EveryRunIsSafe(events[..n - 1]);
      StepKeeps(Run(Initial(), events[..n - 1]), events[n - 1]);
      RunPrefix(events, n - 1);
      assert !FiresInFlight(events, n - 1);
    }
  }

  /** The buffer is watched in every state of a run exactly when the timer never fires into a running request. */
  lemma EveryRunIsWatched(events: seq<Event>)
    requires forall i :: 0 <= i < |events| ==> ServerKeepsForm(events[i])
    ensures (forall n :: 0 <= n <= |events| ==> Watched(Run(Initial(), events[..n])))
       <==> (forall i :: 0 <= i < |events| ==> !FiresInFlight(events, i))
  {
    if forall i :: 0 <= i < |events| ==> !FiresInFlight(events, i) {
      forall n | 0 <= n <= |events|
        ensures Watched(Run(Initial(), events[..n]))
      {
        WatchedUntil(events, n);
      }
    } else {
      var i :| 0 <= i < |events| && FiresInFlight(events, i);
      EveryRunIsSafe(events[..i]);
      StepKeeps(Run(Initial(), events[..i]), events[i]);
      RunPrefix(events, i);
      assert !Watched(Run(Initial(), events[..i])) || !Watched(Run(Initial(), events[..i + 1]));
    }
  }

  /** A run that loses its timer: while the first request is still running an answer brings a container from beyond the
      gap, and the timer fires. */
  lemma TimerCanBeLost(body: Body)
    ensures var events := [Returned(Updates(5, body)), TimerFired];
            && FiresInFlight(events, 1)
            && !Watched(Run(Initial(), events)) && Run(Initial(), events).buffer == map[5 := Updates(5, body)]
  {
    var events := [Returned(Updates(5, body)), TimerFired];
    assert events[..1] == [events[0]] && events[..1][..0] == [];
    assert Run(Initial(), events[..1]) == Step(Initial(), events[0]);
    assert ApplyUpdates(Initial(), Updates(5, body)).buffer == map[5 := Updates(5, body)];
  }

  // ----- delivery in any order -----

  /** Container `i` continues the ones before it and asks for no difference. */
  ghost predicate Continues(n: nat, cs: seq<Container>, i: nat)
    requires i < |cs|
  {
    && (cs[i].Updates? || cs[i].UpdatesCombined?)
    && WellFormed(cs[i])
    && !cs[i].body.startsDifference
    && Start(cs[i]) == EndAfter(n, cs, i) + 1
  }

  /** Containers that continue each other from state number `n`. */
  ghost predicate Chain(n: nat, cs: seq<Container>) {
    forall i: nat :: i < |cs| ==> Continues(n, cs, i)
  }

  /** The state number once the first `k` containers are applied. */
  function EndAfter(n: nat, cs: seq<Container>, k: nat): nat
    requires k <= |cs|
  {
    if k == 0 then n else End(cs[k - 1])
  }

  /** Where the gap-free run of received containers that starts at `k` ends. */
  function Reach(received: set<nat>, k: nat, limit: nat): (r: nat)
    requires k <= limit
    ensures k <= r <= limit
    ensures r == limit || r !in received
    ensures forall j: nat :: k <= j < r ==> j in received
    decreases limit - k
  {
    if k < limit && k in received then Reach(received, k + 1, limit) else k
  }

  function Feeds(n: nat, cs: seq<Container>, k: nat): seq<Applied>
    requires k <= |cs|
  {
    seq(k, i requires 0 <= i < k => Applied(EndAfter(n, cs, i), cs[i]))
  }

  /** The buffer holds the received containers from `k` on, each under its first number, and nothing else. */
  ghost predicate HoldsExactly(buffer: map<nat, Container>, cs: seq<Container>, received: set<nat>, k: nat) {
    && (forall j :: j in received && k <= j < |cs| ==> Start(cs[j]) in buffer && buffer[Start(cs[j])] == cs[j])
    && (forall s :: s in buffer ==> exists j :: j in received && k <= j < |cs| && s == Start(cs[j]))
  }

  /** `k` containers of the chain were applied since `st0`, in order and once each; the rest received waits. */
  ghost predicate Delivered(st0: State, cs: seq<Container>, received: set<nat>, k: nat, st: State) {
    && k <= |cs|
    && st.seqNo == EndAfter(st0.seqNo, cs, k)
    && st.log == st0.log + Feeds(st0.seqNo, cs, k)
    && st.requesting == st0.requesting && st.aside == st0.aside
    && HoldsExactly(st.buffer, cs, received, k)
  }

  lemma {:induction false} ChainGrows(n: nat, cs: seq<Container>, i: nat, j: nat)
    requires Chain(n, cs) && i < j < |cs|
    ensures End(cs[i]) < Start(cs[j]) && Start(cs[i]) < Start(cs[j])
  {
    assert Continues(n, cs, i) && Continues(n, cs, j);
    if i + 1 < j {
      ChainGrows(n, cs, i, j - 1);
      assert Continues(n, cs, j - 1);
    }
  }

  lemma StartsDiffer(n: nat, cs: seq<Container>, i: nat, j: nat)
    requires Chain(n, cs) && i < |cs| && j < |cs|
    ensures Start(cs[i]) == Start(cs[j]) ==> i == j
  {
    if i < j {
      ChainGrows(n, cs, i, j);
    } else if j < i {
      ChainGrows(n, cs, j, i);
    }
  }

  /** Every waiting container starts where the chain has it, not before `k`. */
  lemma WaitingStarts(st0: State, cs: seq<Container>, received: set<nat>, k: nat, st: State)
    requires Chain(st0.seqNo, cs) && Delivered(st0, cs, received, k, st)
    ensures forall s :: s in st.buffer ==> st.seqNo < s && (k !in received ==> st.seqNo + 1 < s)
  {
    forall s | s in st.buffer
      ensures st.seqNo < s && (k !in received ==> st.seqNo + 1 < s)
    {
      var j :| j in received && k <= j < |cs| && s == Start(cs[j]);
      assert Continues(st0.seqNo, cs, k);
      if k < j {
        ChainGrows(st0.seqNo, cs, k, j);
      }
    }
  }

  lemma FeedsOneMore(n: nat, cs: seq<Container>, k: nat)
    requires k < |cs|
    ensures Feeds(n, cs, k + 1) == Feeds(n, cs, k) + [Applied(EndAfter(n, cs, k), cs[k])]
  {
  }

  /** Applying the next container of the chain, whether it just arrived or came off the buffer. */
  lemma ApplyNext(st0: State, cs: seq<Container>, received: set<nat>, k: nat, st: State)
    requires Chain(st0.seqNo, cs) && k < |cs| && k in received
    requires st.seqNo == EndAfter(st0.seqNo, cs, k) && st.log == st0.log + Feeds(st0.seqNo, cs, k)
    requires st.requesting == st0.requesting && st.aside == st0.aside && HoldsExactly(st.buffer, cs, received, k + 1)
    ensures !cs[k].UpdatesTooLong?
    ensures ApplyUpdates(st, cs[k]) == Drain(Feed(st, cs[k]).(seqNo := End(cs[k]), timer := false))
    ensures Delivered(st0, cs, received, k + 1, Feed(st, cs[k]).(seqNo := End(cs[k]), timer := false))
  {
    assert Continues(st0.seqNo, cs, k);
    FeedsOneMore(st0.seqNo, cs, k);
  }

  lemma PopFront(st0: State, cs: seq<Container>, received: set<nat>, k: nat, st: State)
    requires Chain(st0.seqNo, cs) && Delivered(st0, cs, received, k, st)
    requires k < |cs| && k in received
    ensures st.buffer != map[] && Front(st.buffer) == st.seqNo + 1 == Start(cs[k])
    ensures st.buffer[Start(cs[k])] == cs[k]
    ensures HoldsExactly(st.buffer - {Start(cs[k])}, cs, received, k + 1)
  {
    WaitingStarts(st0, cs, received, k, st);
    assert Continues(st0.seqNo, cs, k);
    assert Start(cs[k]) in st.buffer;
    forall j | j in received && k + 1 <= j < |cs|
      ensures Start(cs[j]) != Start(cs[k])
    {
      ChainGrows(st0.seqNo, cs, k, j);
    }
  }

  /** The state once the container at the front was taken off and applied, before draining goes on. */
  function Popped(st: State, c: Container): State
    requires !c.UpdatesTooLong?
  {
    Feed(st.(buffer := st.buffer - {Start(c)}), c).(seqNo := End(c), timer := false)
  }

  lemma DrainPops(st0: State, cs: seq<Container>, received: set<nat>, k: nat, st: State)
    requires Chain(st0.seqNo, cs) && Delivered(st0, cs, received, k, st) && !st.timer
    requires k < |cs| && k in received
    ensures !cs[k].UpdatesTooLong? && Drain(st) == Drain(Popped(st, cs[k]))
    ensures Delivered(st0, cs, received, k + 1, Popped(st, cs[k]))
  {
    hide Delivered, HoldsExactly, ApplyUpdates, Feeds;
    PopFront(st0, cs, received, k, st);
    var rest := st.(buffer := st.buffer - {Start(cs[k])});
    assert st.seqNo == EndAfter(st0.seqNo, cs, k) && st.log == st0.log + Feeds(st0.seqNo, cs, k)
        && st.requesting == st0.requesting && st.aside == st0.aside by {
      DeliveredParts(st0, cs, received, k, st);
    }
    ApplyNext(st0, cs, received, k, rest);
  }

  lemma DeliveredParts(st0: State, cs: seq<Container>, received: set<nat>, k: nat, st: State)
    requires Delivered(st0, cs, received, k, st)
    ensures k <= |cs| && st.seqNo == EndAfter(st0.seqNo, cs, k) && st.log == st0.log + Feeds(st0.seqNo, cs, k)
    ensures st.requesting == st0.requesting && st.aside == st0.aside && HoldsExactly(st.buffer, cs, received, k)
  {
  }

  lemma DrainStops(st0: State, cs: seq<Container>, received: set<nat>, k: nat, st: State)
    requires Chain(st0.seqNo, cs) && Delivered(st0, cs, received, k, st) && !st.timer
    requires k == |cs| || k !in received
    ensures Drain(st) == st.(timer := st.buffer != map[])
  {
    hide ApplyUpdates, Feeds;
    WaitingStarts(st0, cs, received, k, st);
    if k == |cs| {
      assert st.buffer == map[];
    }
  }

  lemma {:induction false} DrainDelivers(st0: State, cs: seq<Container>, received: set<nat>, k: nat, st: State)
    requires Chain(st0.seqNo, cs) && Delivered(st0, cs, received, k, st) && !st.timer
    ensures Delivered(st0, cs, received, Reach(received, k, |cs|), Drain(st))
    ensures Drain(st).timer <==> Drain(st).buffer != map[]
    decreases |cs| - k
  {
    if k < |cs| && k in received {
      DrainPops(st0, cs, received, k, st);
      DrainDelivers(st0, cs, received, k + 1, Popped(st, cs[k]));
    } else {
      DrainStops(st0, cs, received, k, st);
    }
  }

  /** One more container of the chain arrives: a repeated one, one beyond the gap, or the next one. */
  lemma ReceiveDelivers(st0: State, cs: seq<Container>, received: set<nat>, i: nat, st: State)
    requires Chain(st0.seqNo, cs) && i < |cs|
    requires Delivered(st0, cs, received, Reach(received, 0, |cs|), st)
    requires st.timer <==> st.buffer != map[]
    ensures var now := received + {i};
            && Delivered(st0, cs, now, Reach(now, 0, |cs|), ApplyUpdates(st, cs[i]))
            && (ApplyUpdates(st, cs[i]).timer <==> ApplyUpdates(st, cs[i]).buffer != map[])
  {
    var k := Reach(received, 0, |cs|);
    if i < k {
      assert received + {i} == received;
      RepeatIsDropped(st0, cs, received, k, i, st);
    } else if i == k {
      NextIsApplied(st0, cs, received, k, st);
      ReachOnwards(received + {i}, 0, k + 1, |cs|);
    } else {
      EarlyIsBuffered(st0, cs, received, k, i, st);
      ReachOnwards(received + {i}, 0, k, |cs|);
    }
  }

  lemma RepeatIsDropped(st0: State, cs: seq<Container>, received: set<nat>, k: nat, i: nat, st: State)
    requires Chain(st0.seqNo, cs) && Delivered(st0, cs, received, k, st) && i < k
    ensures ApplyUpdates(st, cs[i]) == st
  {
    assert Continues(st0.seqNo, cs, i) && Continues(st0.seqNo, cs, k - 1);
    if i < k - 1 {
      ChainGrows(st0.seqNo, cs, i, k - 1);
    }
  }

  lemma NextIsApplied(st0: State, cs: seq<Container>, received: set<nat>, k: nat, st: State)
    requires Chain(st0.seqNo, cs) && Delivered(st0, cs, received, k, st)
    requires k < |cs| && k !in received
    ensures var now := received + {k};
            && Delivered(st0, cs, now, Reach(now, k + 1, |cs|), ApplyUpdates(st, cs[k]))
            && (ApplyUpdates(st, cs[k]).timer <==> ApplyUpdates(st, cs[k]).buffer != map[])
  {
    var now := received + {k};
    assert HoldsExactly(st.buffer, cs, now, k + 1);
    ApplyNext(st0, cs, now, k, st);
    hide Delivered, HoldsExactly, ApplyUpdates, Feeds;
    DrainDelivers(st0, cs, now, k + 1, Feed(st, cs[k]).(seqNo := End(cs[k]), timer := false));
  }

  lemma EarlyIsBuffered(st0: State, cs: seq<Container>, received: set<nat>, k: nat, i: nat, st: State)
    requires Chain(st0.seqNo, cs) && Delivered(st0, cs, received, k, st) && k < i < |cs|
    ensures var r := ApplyUpdates(st, cs[i]);
            Delivered(st0, cs, received + {i}, k, r) && r.timer && r.buffer != map[]
  {
    assert Continues(st0.seqNo, cs, k) && Continues(st0.seqNo, cs, i);
    ChainGrows(st0.seqNo, cs, k, i);
    if Start(cs[i]) in st.buffer {
      var j :| j in received && k <= j < |cs| && Start(cs[i]) == Start(cs[j]);
      StartsDiffer(st0.seqNo, cs, i, j);
    }
    var r, now := ApplyUpdates(st, cs[i]), received + {i};
    assert r.buffer == st.buffer[Start(cs[i]) := cs[i]];
    forall s | s in r.buffer
      ensures exists j :: j in now && k <= j < |cs| && s == Start(cs[j])
    {
      if s in st.buffer {
        var j :| j in received && k <= j < |cs| && s == Start(cs[j]);
        assert j in now;
      } else {
        assert i in now && s == Start(cs[i]);
      }
    }
    forall j | j in now && k <= j < |cs|
      ensures Start(cs[j]) in r.buffer && r.buffer[Start(cs[j])] == cs[j]
    {
      StartsDiffer(st0.seqNo, cs, i, j);
    }
  }

  lemma ReachOnwards(received: set<nat>, k: nat, m: nat, limit: nat)
    requires k <= m <= limit
    requires forall j: nat :: k <= j < m ==> j in received
    ensures Reach(received, k, limit) == Reach(received, m, limit)
    decreases m - k
  {
    if k < m {
      ReachOnwards(received, k + 1, m, limit);
    }
  }

  /** Feeds the containers of a chain in the order of `arrivals`, which may skip and repeat. */
  function Deliver(st: State, cs: seq<Container>, arrivals: seq<nat>): State
    requires forall i :: 0 <= i < |arrivals| ==> arrivals[i] < |cs|
    decreases |arrivals|
  {
    if arrivals == [] then st
    else ApplyUpdates(Deliver(st, cs, arrivals[..|arrivals| - 1]), cs[arrivals[|arrivals| - 1]])
  }

  function Seen(arrivals: seq<nat>): set<nat> {
    set x | x in arrivals
  }

  /** Whatever the order and the repetitions, the state is decided by the set of what arrived: the gap-free
      run is applied once each and in order, and the buffer is exactly what lies beyond the gap. */
  lemma {:induction false} AnyOrderDelivers(st0: State, cs: seq<Container>, arrivals: seq<nat>)
    requires Chain(st0.seqNo, cs) && st0.buffer == map[] && !st0.timer
    requires forall i :: 0 <= i < |arrivals| ==> arrivals[i] < |cs|
    ensures Delivered(st0, cs, Seen(arrivals), Reach(Seen(arrivals), 0, |cs|), Deliver(st0, cs, arrivals))
    ensures Deliver(st0, cs, arrivals).timer <==> Deliver(st0, cs, arrivals).buffer != map[]
    decreases |arrivals|
  {
    if arrivals == [] {
      assert Feeds(st0.seqNo, cs, 0) == [];
    } else {
      var n := |arrivals| - 1;
      AnyOrderDelivers(st0, cs, arrivals[..n]);
      ReceiveDelivers(st0, cs, Seen(arrivals[..n]), arrivals[n], Deliver(st0, cs, arrivals[..n]));
      assert Seen(arrivals[..n]) + {arrivals[n]} == Seen(arrivals);
    }
  }

  /** Once everything arrived, everything was applied exactly once and in order, and nothing is left waiting. */
  lemma AllArrived(st0: State, cs: seq<Container>, arrivals: seq<nat>)
    requires Chain(st0.seqNo, cs) && st0.buffer == map[] && !st0.timer
    requires forall i :: 0 <= i < |arrivals| ==> arrivals[i] < |cs|
    requires forall i: nat :: i < |cs| ==> i in arrivals
    ensures Deliver(st0, cs, arrivals)
         == State(EndAfter(st0.seqNo, cs, |cs|), map[], false, st0.requesting,
                  st0.log + Feeds(st0.seqNo, cs, |cs|), st0.aside)
  {
    AnyOrderDelivers(st0, cs, arrivals);
    assert forall i: nat :: i < |cs| ==> i in Seen(arrivals);
    assert Deliver(st0, cs, arrivals).buffer == map[];
  }

  // ----- delivery over runs -----

  /** The container is handed over in full: returned by a request, or pushed when nothing stands in its way. */
  predicate HandedOver(ev: Event, c: Container, requesting: bool) {
    ev == Returned(c) || ev == Pushed(c, true) || (ev == Pushed(c, false) && !requesting)
  }

  /** A run in which the containers of a chain arrive in any order, with gaps and repetitions: what is pushed while no
      difference is being asked for, what forces a logout and what a request returns is delivered in turn. */
  lemma {:induction false} RunDelivers(st0: State, cs: seq<Container>, arrivals: seq<nat>, events: seq<Event>)
    requires Chain(st0.seqNo, cs) && st0.buffer == map[] && !st0.timer && |events| == |arrivals|
    requires forall i :: 0 <= i < |arrivals| ==> arrivals[i] < |cs|
    requires forall i :: 0 <= i < |arrivals| ==> HandedOver(events[i], cs[arrivals[i]], st0.requesting)
    ensures Run(st0, events) == Deliver(st0, cs, arrivals)
    ensures Delivered(st0, cs, Seen(arrivals), Reach(Seen(arrivals), 0, |cs|), Run(st0, events))
    ensures Run(st0, events).timer <==> Run(st0, events).buffer != map[]
    decreases |events|
  {
    AnyOrderDelivers(st0, cs, arrivals);
    if events != [] {
      var n := |events| - 1;
      RunDelivers(st0, cs, arrivals[..n], events[..n]);
      assert Run(st0, events[..n]).requesting == st0.requesting;
      assert HandedOver(events[n], cs[arrivals[n]], st0.requesting);
      hide Delivered, ApplyUpdates, Chain;
    }
  }

  /** While a difference is being asked for, what is pushed is only kept aside, in order, and nothing is delivered. */
  lemma {:induction false} RunFeedsAside(st: State, pushed: seq<Container>, events: seq<Event>)
    requires st.requesting && |events| == |pushed|
    requires forall i :: 0 <= i < |pushed| ==> events[i] == Pushed(pushed[i], false) && !pushed[i].UpdatesTooLong?
    ensures Run(st, events) == st.(aside := st.aside + pushed)
    decreases |events|
  {
    if events != [] {
      var n := |events| - 1;
      RunFeedsAside(st, pushed[..n], events[..n]);
      assert events[n] == Pushed(pushed[n], false);
      assert st.aside + pushed == (st.aside + pushed[..n]) + [pushed[n]];
    } else {
      assert st.aside + pushed == st.aside;
    }
  }

  lemma TooLongIsNotKept(st: State)
    requires st.requesting
    ensures Step(st, Pushed(UpdatesTooLong, false)) == st
  {
  }

  // ----- what an answer leaves behind -----

  function Above(buffer: map<nat, Container>, n: nat): map<nat, Container> {
    map s | s in buffer && n < s :: buffer[s]
  }

  /** Draining drops what the new number has overtaken. */
  lemma {:induction false} DrainDropsOvertaken(st: State)
    ensures Drain(st) == Drain(st.(buffer := Above(st.buffer, st.seqNo)))
    decreases |st.buffer|
  {
    hide ApplyUpdates;
    if st.buffer == map[] || Front(st.buffer) > st.seqNo {
      assert Above(st.buffer, st.seqNo) == st.buffer;
    } else {
      var popped := st.(buffer := st.buffer - {Front(st.buffer)});
      assert Above(popped.buffer, st.seqNo) == Above(st.buffer, st.seqNo);
      DrainDropsOvertaken(popped);
    }
  }

  /** An answer that moves the state number to `n`. Of what is buffered, what `n` has overtaken is dropped; the rest are
      containers of a chain from `n` on, of which the gap-free run is applied, and the request flag is free. */
  lemma AnswerDelivers(st: State, ev: Event, n: nat, cs: seq<Container>, received: set<nat>)
    requires (ev == DifferenceEmpty(n) || ev == DifferenceFinal(n)) && n != 0 && n != st.seqNo
    requires Chain(n, cs) && HoldsExactly(Above(st.buffer, n), cs, received, 0)
    ensures var after := Step(st, ev); var k := Reach(received, 0, |cs|);
            && !after.requesting && after.aside == st.aside
            && after.seqNo == EndAfter(n, cs, k) && after.log == st.log + Feeds(n, cs, k)
            && HoldsExactly(after.buffer, cs, received, k)
            && (after.timer <==> after.buffer != map[])
  {
    var moved := st.(seqNo := n, timer := false);
    var kept := moved.(buffer := Above(st.buffer, n));
    assert Delivered(kept, cs, received, 0, kept) by {
      assert Feeds(n, cs, 0) == [];
    }
    DrainDropsOvertaken(moved);
    hide ApplyUpdates, HoldsExactly, Feeds, Drain;
    DrainDelivers(kept, cs, received, 0, kept);
  }

  /** An answer without a new number only frees the flag. */
  lemma AnswerWithoutNumber(st: State, ev: Event, n: nat)
    requires (ev == DifferenceEmpty(n) || ev == DifferenceFinal(n)) && (n == 0 || n == st.seqNo)
    ensures Step(st, ev) == State(st.seqNo, st.buffer, st.timer, false, st.log, st.aside)
  {
  }

  /** A slice is a final answer after which the next part is asked for at once; one that is too long changes nothing. */
  lemma SliceAsksAgain(st: State, n: nat)
    ensures var done := Step(st, DifferenceFinal(n));
            && Step(st, DifferenceSlice(n)) == State(done.seqNo, map[], false, true, done.log, done.aside)
            && Step(st, DifferenceTooLong) == st
  {
    hide SetSeq;
  }

  /** What asks for the difference: the wish itself, the timer that was set, a new session, and a container that is too
      long or one in turn whose data is missing. */
  predicate Asks(st: State, ev: Event) {
    match ev
    case DifferenceWanted => true
    case NewSession => true
    case TimerFired => st.timer
    case Pushed(c, forceLogout) => (forceLogout || !st.requesting) && LacksData(st, c)
    case Returned(c) => LacksData(st, c)
    case _ => false
  }

  predicate LacksData(st: State, c: Container) {
    c.UpdatesTooLong? || (Start(c) in {0, st.seqNo + 1} && c.body.startsDifference)
  }

  /** What is fed before the difference is asked for. */
  function Fed(ev: Event): seq<Container> {
    if (ev.Pushed? || ev.Returned?) && !ev.c.UpdatesTooLong? then [ev.c] else []
  }

  /** Asking empties the buffer and stops its timer, and what comes next is only kept aside. */
  lemma AskingClears(st: State, ev: Event)
    requires Asks(st, ev) && !st.requesting && ServerKeepsForm(ev)
    ensures var after := Step(st, ev);
            && after.requesting && after.buffer == map[] && !after.timer && after.aside == st.aside
            && after.log == st.log + (if Fed(ev) == [] then [] else [Applied(st.seqNo, Fed(ev)[0])])
            && after.seqNo == (if ev.NewSession? then 0
                               else if Fed(ev) != [] && End(Fed(ev)[0]) != 0 then End(Fed(ev)[0]) else st.seqNo)
  {
    if (ev.Pushed? || ev.Returned?) && !ev.c.UpdatesTooLong? {
      var fed := Feed(st, ev.c);
      assert ApplyUpdates(st, ev.c) == SetSeq(fed, End(ev.c));
      assert fed.buffer == map[] && !fed.timer && fed.requesting;
      hide ApplyUpdates;
      assert SetSeq(fed, End(ev.c)) == if End(ev.c) == 0 then fed else fed.(seqNo := End(ev.c));
    }
  }

  /** A difference is asked for once at a time: while one is, asking again only stops a timer that fired or forgets
      the number for a new session. */
  lemma AskingTwice(st: State, ev: Event)
    requires st.requesting && (ev.DifferenceWanted? || ev.NewSession? || ev.TimerFired?)
    ensures Step(st, ev) == State(if ev.NewSession? then 0 else st.seqNo, st.buffer, st.timer && !ev.TimerFired?, true,
                                  st.log, st.aside)
  {
  }

  /** The retry after a failure asks whether or not the flag is still set. */
  lemma RetryAsksAnew(st: State)
    ensures Step(st, RetryAfterFail) == State(st.seqNo, map[], false, true, st.log, st.aside)
  {
  }

  /** A short container has no number: it is fed at once and leaves number, buffer and timer alone. */
  lemma ShortIsFedAtOnce(st: State, ev: Event, c: Container)
    requires c.UpdateShort? && !c.body.startsDifference && HandedOver(ev, c, st.requesting)
    ensures Step(st, ev) == st.(log := st.log + [Applied(st.seqNo, c)])
  {
    var fed := Feed(st, c);
    assert ApplyUpdates(st, c) == SetSeq(fed, End(c));
    assert End(c) == 0;
    hide ApplyUpdates;
  }

  /** What lies beyond the gap waits under its first number with the timer set; of two with one number the first
      waits. */
  lemma FirstCopyWaits(st: State, ev: Event, c: Container, s: nat)
    requires !c.UpdatesTooLong? && Start(c) > st.seqNo + 1 && HandedOver(ev, c, st.requesting)
    ensures var after := Step(st, ev);
            && (s in after.buffer <==> s in st.buffer || s == Start(c))
            && (s in after.buffer ==> after.buffer[s] == if s in st.buffer then st.buffer[s] else c)
            && after == State(st.seqNo, after.buffer, true, st.requesting, st.log, st.aside)
  {
  }
}
