/**
 Counting views: message ids gather per peer, a timer sends one request for each peer that has
 none running, and an id is not gathered again until the peer is reset.
 */
module ViewsIncrement {
  import opened Basics
  import opened Ordered

  datatype Peer = Peer(id: int)

  datatype MsgId = MsgId(id: int)

  datatype Key = Key(peer: Peer, msg: MsgId)

  datatype Batch = Batch(peer: Peer, ids: set<MsgId>)

  datatype Logged = WasSent(batch: Batch) | WasReset(peer: Peer)

  /** `marks` are the requests the object believes to be running, `onTheWay` those that really are. `log` holds every
      request sent and every reset of a peer, `leftover` the ids that waited when their peer was last reset. */
  datatype State = State(
    incremented: map<Peer, set<MsgId>>,
    toIncrement: map<Peer, set<MsgId>>,
    marks: map<Peer, int>,
    timer: bool,
    next: int,
    onTheWay: map<int, Batch>,
    log: seq<Logged>,
    leftover: set<Key>)

  function Of(m: map<Peer, set<MsgId>>, p: Peer): set<MsgId> {
    if p in m then m[p] else {}
  }

  /** In how many requests sent since the last reset of its peer an id is. */
  function PlacedIn(log: seq<Logged>, k: Key): nat {
    if log == [] then 0
    else
      match log[|log| - 1]
      case WasSent(batch) => PlacedIn(log[..|log| - 1], k) + One(batch.peer == k.peer && k.msg in batch.ids)
      case WasReset(p) => if p == k.peer then 0 else PlacedIn(log[..|log| - 1], k)
  }

  function Placed(s: State, k: Key): nat {
    PlacedIn(s.log, k)
  }

  predicate Accepted(s: State, k: Key) {
    k.msg in Of(s.incremented, k.peer)
  }

  predicate Queued(s: State, k: Key) {
    k.msg in Of(s.toIncrement, k.peer)
  }

  // ----- the operations on values -----

  function Scheduled(s: State, k: Key): State {
    if Accepted(s, k) then s
    else s.(incremented := s.incremented[k.peer := Of(s.incremented, k.peer) + {k.msg}],
            toIncrement := s.toIncrement[k.peer := Of(s.toIncrement, k.peer) + {k.msg}],
            timer := s.timer || k.peer !in s.toIncrement)
  }

  /** The peer is forgotten, but what waits for its next request goes on waiting. */
  function Reset(s: State, p: Peer): State {
    s.(incremented := s.incremented - {p},
       log := s.log + [WasReset(p)],
       leftover := (set k | k in s.leftover && k.peer != p) + KeysOf(p, Of(s.toIncrement, p)))
  }

  function KeysOf(p: Peer, ids: set<MsgId>): set<Key> {
    set m | m in ids :: Key(p, m)
  }

  /** The request for one waiting peer. */
  function Sent(s: State, p: Peer): State
    requires p in s.toIncrement
  {
    s.(toIncrement := s.toIncrement - {p},
       marks := s.marks[p := s.next],
       next := s.next + 1,
       onTheWay := s.onTheWay[s.next := Batch(p, s.toIncrement[p])],
       log := s.log + [WasSent(Batch(p, s.toIncrement[p]))])
  }

  function SentAll(s: State, order: seq<Peer>): State
    requires Sendable(s, order)
    decreases |order|
  {
    if order == [] then s else SentAll(Sent(s, order[0]), order[1..])
  }

  predicate Sendable(s: State, order: seq<Peer>) {
    && (forall i :: 0 <= i < |order| ==> order[i] in s.toIncrement && order[i] !in s.marks)
    && (forall i, j :: 0 <= i < j < |order| ==> order[i] != order[j])
  }

  function Rearmed(s: State): State {
    if s.toIncrement != map[] then s.(timer := true) else s
  }

  /** A reply of another length than the request leaves the mark of the peer in place. */
  function Done(s: State, requestId: int, sameLength: bool): State {
    Rearmed(s.(onTheWay := s.onTheWay - {requestId},
               marks := if sameLength then Unmarked(s.marks, requestId) else s.marks))
  }

  function Failed(s: State, requestId: int): State {
    Rearmed(s.(onTheWay := s.onTheWay - {requestId}, marks := Unmarked(s.marks, requestId)))
  }

  function Unmarked(marks: map<Peer, int>, requestId: int): map<Peer, int> {
    map p | p in marks && marks[p] != requestId :: marks[p]
  }

  // ----- runs -----

  datatype Event =
    | Schedule(k: Key)
    | RemoveIncremented(p: Peer)
    | Fire(order: seq<Peer>)
    | ReplyDone(requestId: int, sameLength: bool)
    | ReplyFailed(requestId: int)

  function Initial(): State {
    State(map[], map[], map[], false, 1, map[], [], {})
  }

  /** The timer goes through the waiting peers without a mark, in whatever order the container has them. */
  ghost predicate Possible(s: State, ev: Event) {
    match ev
    case Fire(order) => s.timer && Sendable(s, order) && forall p :: p in s.toIncrement && p !in s.marks ==> p in order
    case ReplyDone(r, _) => r in s.onTheWay
    case ReplyFailed(r) => r in s.onTheWay
    case _ => true
  }

  ghost function Step(s: State, ev: Event): State
    requires Possible(s, ev)
  {
    match ev
    case Schedule(k) => Scheduled(s, k)
    case RemoveIncremented(p) => Reset(s, p)
    case Fire(order) => SentAll(s.(timer := false), order)
    case ReplyDone(r, sameLength) => Done(s, r, sameLength)
    case ReplyFailed(r) => Failed(s, r)
  }

  ghost predicate Runs(s: State, run: seq<Event>)
    decreases |run|
  {
    run == [] || (Possible(s, run[0]) && Runs(Step(s, run[0]), run[1..]))
  }

  ghost function Run(s: State, run: seq<Event>): State
    requires Runs(s, run)
    decreases |run|
  {
    if run == [] then s else Run(Step(s, run[0]), run[1..])
  }

  // ----- what every run keeps -----

  ghost predicate MarksFit(s: State) {
    && 0 < s.next
    && (forall p :: p in s.marks ==> 0 < s.marks[p] < s.next)
    && (forall p, q :: p in s.marks && q in s.marks && s.marks[p] == s.marks[q] ==> p == q)
    && (forall r :: r in s.onTheWay ==> s.onTheWay[r].peer in s.marks && s.marks[s.onTheWay[r].peer] == r)
  }

  /** A waiting peer without a mark has the timer; no peer waits with nothing. */
  ghost predicate QueueWatched(s: State) {
    && (forall p :: p in s.toIncrement ==> s.toIncrement[p] != {})
    && (forall p :: p in s.toIncrement && p !in s.marks ==> s.timer)
  }

  /** An id is accepted once between two resets, so it is placed at most once, plus once if it was left over. */
  ghost predicate PlacedFits(s: State, k: Key) {
    Placed(s, k) + One(Queued(s, k)) <= One(Accepted(s, k)) + One(k in s.leftover)
  }

  ghost predicate Invariant(s: State) {
    MarksFit(s) && QueueWatched(s) && forall k :: PlacedFits(s, k)
  }

  /** Marked, but the answer that would remove the mark has already come. */
  predicate Wedged(s: State, p: Peer) {
    p in s.marks && s.marks[p] !in s.onTheWay
  }

  lemma SentFacts(s: State, p: Peer, k: Key)
    requires p in s.toIncrement
    ensures Placed(Sent(s, p), k) == Placed(s, k) + One(k.peer == p && Queued(s, k))
    ensures Queued(Sent(s, p), k) == (k.peer != p && Queued(s, k))
  {
    hide PlacedIn;
    PlacedOneMore(s.log, Batch(p, s.toIncrement[p]), k);
  }

  lemma PlacedOneMore(log: seq<Logged>, batch: Batch, k: Key)
    ensures PlacedIn(log + [WasSent(batch)], k) == PlacedIn(log, k) + One(batch.peer == k.peer && k.msg in batch.ids)
  {
    assert (log + [WasSent(batch)])[..|log|] == log;
  }

  lemma PlacedAfterReset(log: seq<Logged>, p: Peer, k: Key)
    ensures PlacedIn(log + [WasReset(p)], k) == if p == k.peer then 0 else PlacedIn(log, k)
  {
    assert (log + [WasReset(p)])[..|log|] == log;
  }

  lemma SentKeepsMarks(s: State, p: Peer)
    requires MarksFit(s) && p in s.toIncrement && p !in s.marks
    ensures MarksFit(Sent(s, p))
  {
  }

  lemma SentLeavesSendable(s: State, order: seq<Peer>)
    requires Sendable(s, order) && order != []
    ensures Sendable(Sent(s, order[0]), order[1..])
  {
  }

  /** One pass of the timer: what it leaves waiting is exactly what it did not list, and the listed get their mark. */
  lemma {:induction false} SentAllFacts(s: State, order: seq<Peer>, p: Peer)
    requires MarksFit(s) && Sendable(s, order)
    ensures var after := SentAll(s, order);
            && MarksFit(after)
            && Of(after.toIncrement, p) == (if p in order then {} else Of(s.toIncrement, p))
            && (p in after.toIncrement <==> p in s.toIncrement && p !in order)
            && (p in after.marks <==> p in s.marks || p in order)
            && (Wedged(after, p) <==> Wedged(s, p))
    decreases |order|
  {
    if order != [] {
      SentKeepsMarks(s, order[0]);
      SentLeavesSendable(s, order);
      SentOthers(s, order[0], p);
      hide MarksFit, Wedged, Sent;
      SentAllFacts(Sent(s, order[0]), order[1..], p);
      assert order == [order[0]] + order[1..];
    }
  }

  lemma SentOthers(s: State, q: Peer, p: Peer)
    requires MarksFit(s) && q in s.toIncrement && q !in s.marks
    ensures var after := Sent(s, q);
            && Of(after.toIncrement, p) == (if p == q then {} else Of(s.toIncrement, p))
            && (p in after.toIncrement <==> p in s.toIncrement && p != q)
            && (p in after.marks <==> p in s.marks || p == q)
            && (Wedged(after, p) <==> Wedged(s, p))
  {
  }

  /** One pass of the timer puts each waiting id of a listed peer into exactly one request. */
  lemma {:induction false} SentAllPlaces(s: State, order: seq<Peer>, k: Key)
    requires Sendable(s, order)
    ensures Placed(SentAll(s, order), k) == Placed(s, k) + One(k.peer in order && Queued(s, k))
    ensures Queued(SentAll(s, order), k) == (k.peer !in order && Queued(s, k))
    ensures Accepted(SentAll(s, order), k) == Accepted(s, k)
    ensures SentAll(s, order).leftover == s.leftover
    decreases |order|
  {
    if order != [] {
      hide Placed, Queued;
      SentFacts(s, order[0], k);
      SentLeavesSendable(s, order);
      SentAllPlaces(Sent(s, order[0]), order[1..], k);
      assert order == [order[0]] + order[1..];
    }
  }

  // ----- what is really sent -----

  /** The request for a peer carries exactly the ids that wait for it. */
  function WaitingBatch(s: State, p: Peer): Batch {
    Batch(p, Of(s.toIncrement, p))
  }

  /** One firing sends one request for each listed peer, under the next ids, with exactly the ids that waited for it;
      what was on the way before stays, and the requests are logged in the order in which they went out. */
  lemma {:induction false} FiringSends(s: State, order: seq<Peer>, r: int)
    requires Sendable(s, order)
    ensures var after := SentAll(s, order);
            && after.next == s.next + |order|
            && (r in after.onTheWay <==> r in s.onTheWay || s.next <= r < after.next)
            && (r in after.onTheWay
                ==> after.onTheWay[r] == if s.next <= r < after.next then WaitingBatch(s, order[r - s.next])
                                         else s.onTheWay[r])
            && |after.log| == |s.log| + |order| && s.log <= after.log
            && forall i :: 0 <= i < |order| ==> after.log[|s.log| + i] == WasSent(WaitingBatch(s, order[i]))
    decreases |order|
  {
    if order != [] {
      var first := Sent(s, order[0]);
      SentLeavesSendable(s, order);
      assert forall i :: 1 <= i < |order| ==> WaitingBatch(first, order[i]) == WaitingBatch(s, order[i]);
      hide Sent, Sendable, WaitingBatch;
      FiringSends(first, order[1..], r);
      var after := SentAll(s, order);
      forall i | 0 <= i < |order|
        ensures after.log[|s.log| + i] == WasSent(WaitingBatch(s, order[i]))
      {
        if i > 0 {
          assert after.log[|first.log| + (i - 1)] == WasSent(WaitingBatch(first, order[1..][i - 1]));
        }
      }
    }
  }

  /** The requests among what is logged, in order. */
  function Batches(log: seq<Logged>): seq<Batch> {
    if log == [] then []
    else Batches(log[..|log| - 1]) + if log[|log| - 1].WasSent? then [log[|log| - 1].batch] else []
  }

  /** Every request on the way is the one logged under its number. */
  ghost predicate LogFits(s: State) {
    && s.next == |Batches(s.log)| + 1
    && forall r :: r in s.onTheWay ==> 0 < r < s.next && s.onTheWay[r] == Batches(s.log)[r - 1]
  }

  lemma BatchesOneMore(log: seq<Logged>, last: Logged)
    ensures Batches(log + [last]) == Batches(log) + if last.WasSent? then [last.batch] else []
  {
    assert (log + [last])[..|log|] == log;
  }

  lemma {:induction false} SentAllLogs(s: State, order: seq<Peer>)
    requires Sendable(s, order) && LogFits(s)
    ensures LogFits(SentAll(s, order))
    decreases |order|
  {
    if order != [] {
      SentLeavesSendable(s, order);
      BatchesOneMore(s.log, WasSent(Batch(order[0], s.toIncrement[order[0]])));
      assert LogFits(Sent(s, order[0])) by { hide Batches; }
      hide LogFits, Sent, Sendable;
      SentAllLogs(Sent(s, order[0]), order[1..]);
    }
  }

  lemma {:induction false} EveryRequestIsLogged(s: State, run: seq<Event>)
    requires LogFits(s) && Runs(s, run)
    ensures LogFits(Run(s, run))
    decreases |run|
  {
    if run != [] {
      StepLogs(s, run[0]);
      hide LogFits, Step, Possible;
      EveryRequestIsLogged(Step(s, run[0]), run[1..]);
    }
  }

  lemma StepLogs(s: State, ev: Event)
    requires LogFits(s) && Possible(s, ev)
    ensures LogFits(Step(s, ev))
  {
    hide Batches, SentAll;
    match ev
    case Fire(order) => SentAllLogs(s.(timer := false), order);
    case RemoveIncremented(p) => BatchesOneMore(s.log, WasReset(p));
    case _ =>
  }

  /** The timer afterwards: set by the first id of a peer that none waits for and by every reply while ids wait. */
  lemma TimerAfter(s: State, ev: Event)
    requires Possible(s, ev)
    ensures Step(s, ev).timer
            == match ev
               case Schedule(k) => s.timer || (k.peer !in s.toIncrement && !Accepted(s, k))
               case RemoveIncremented(_) => s.timer
               case Fire(_) => false
               case ReplyDone(_, _) => s.timer || s.toIncrement != map[]
               case ReplyFailed(_) => s.timer || s.toIncrement != map[]
  {
    if ev.Fire? {
      TimerStays(s.(timer := false), ev.order);
    }
    hide SentAll;
  }

  lemma {:induction false} TimerStays(s: State, order: seq<Peer>)
    requires Sendable(s, order)
    ensures SentAll(s, order).timer == s.timer
    decreases |order|
  {
    if order != [] {
      SentLeavesSendable(s, order);
      TimerStays(Sent(s, order[0]), order[1..]);
    }
  }

  /** The mark of a peer afterwards: a firing gives one to each listed peer, a reply takes the one of its request. */
  lemma MarkAfter(s: State, ev: Event, p: Peer)
    requires MarksFit(s) && Possible(s, ev)
    ensures p in Step(s, ev).marks
            <==> match ev
                 case Fire(order) => p in s.marks || p in order
                 case ReplyDone(r, sameLength) => p in s.marks && !(sameLength && s.marks[p] == r)
                 case ReplyFailed(r) => p in s.marks && s.marks[p] != r
                 case _ => p in s.marks
    ensures p in s.marks && p in Step(s, ev).marks ==> Step(s, ev).marks[p] == s.marks[p]
  {
    if ev.Fire? {
      SentAllFacts(s.(timer := false), ev.order, p);
      if p in s.marks {
        MarksStay(s.(timer := false), ev.order, p);
      }
    }
    hide SentAll, MarksFit;
  }

  lemma {:induction false} MarksStay(s: State, order: seq<Peer>, p: Peer)
    requires Sendable(s, order) && p in s.marks
    ensures p in SentAll(s, order).marks && SentAll(s, order).marks[p] == s.marks[p]
    decreases |order|
  {
    if order != [] {
      SentLeavesSendable(s, order);
      MarksStay(Sent(s, order[0]), order[1..], p);
    }
  }

  lemma RepliesKeepMarks(s: State, requestId: int, unmark: bool)
    requires MarksFit(s) && QueueWatched(s) && requestId in s.onTheWay
    ensures MarksFit(Done(s, requestId, unmark)) && QueueWatched(Done(s, requestId, unmark))
    ensures Failed(s, requestId) == Done(s, requestId, true)
  {
    var after := Done(s, requestId, unmark);
    forall r | r in after.onTheWay
      ensures after.onTheWay[r].peer in after.marks && after.marks[after.onTheWay[r].peer] == r
    {
      assert r in s.onTheWay;
    }
  }

  lemma FireKeepsMarks(s: State, order: seq<Peer>)
    requires MarksFit(s) && QueueWatched(s) && Possible(s, Fire(order))
    ensures MarksFit(Step(s, Fire(order))) && QueueWatched(Step(s, Fire(order)))
  {
    hide SentAll;
    var after := SentAll(s.(timer := false), order);
    SentAllFacts(s.(timer := false), order, Peer(0));
    forall p
      ensures p in after.toIncrement ==> p in after.marks && after.toIncrement[p] != {}
    {
      SentAllFacts(s.(timer := false), order, p);
    }
  }

  lemma StepKeepsMarks(s: State, ev: Event)
    requires MarksFit(s) && QueueWatched(s) && Possible(s, ev)
    ensures MarksFit(Step(s, ev)) && QueueWatched(Step(s, ev))
  {
    match ev
    case Fire(order) => FireKeepsMarks(s, order);
    case ReplyDone(r, sameLength) => RepliesKeepMarks(s, r, sameLength);
    case ReplyFailed(r) => RepliesKeepMarks(s, r, true);
    case _ => hide KeysOf;
  }

  /** Only a reset of its own peer makes an id a left-over one. */
  lemma ResetPlaces(s: State, p: Peer, k: Key)
    requires PlacedFits(s, k)
    ensures PlacedFits(Reset(s, p), k)
    ensures k in Reset(s, p).leftover <==> if k.peer == p then Queued(s, k) else k in s.leftover
    ensures Placed(Reset(s, p), k) == if k.peer == p then 0 else Placed(s, k)
    ensures Accepted(Reset(s, p), k) == (k.peer != p && Accepted(s, k))
    ensures Queued(Reset(s, p), k) == Queued(s, k)
  {
    hide PlacedIn;
    PlacedAfterReset(s.log, p, k);
    assert k in KeysOf(p, Of(s.toIncrement, p)) <==> k == Key(p, k.msg) && k.msg in Of(s.toIncrement, p);
  }

  lemma SchedulePlaces(s: State, one: Key, k: Key)
    ensures Placed(Scheduled(s, one), k) == Placed(s, k)
    ensures Accepted(Scheduled(s, one), k) == (k == one || Accepted(s, k))
    ensures Queued(Scheduled(s, one), k) == ((k == one && !Accepted(s, k)) || Queued(s, k))
    ensures Scheduled(s, one).leftover == s.leftover
  {
  }

  lemma StepKeepsPlaced(s: State, ev: Event, k: Key)
    requires PlacedFits(s, k) && Possible(s, ev)
    ensures PlacedFits(Step(s, ev), k)
    ensures k !in s.leftover && ev != RemoveIncremented(k.peer) ==> k !in Step(s, ev).leftover
  {
    hide SentAll, Reset, Scheduled;
    match ev
    case Schedule(one) => SchedulePlaces(s, one, k);
    case Fire(order) => SentAllPlaces(s.(timer := false), order, k);
    case RemoveIncremented(p) => ResetPlaces(s, p, k);
    case _ =>
  }

  lemma StepKeeps(s: State, ev: Event)
    requires Invariant(s) && Possible(s, ev)
    ensures Invariant(Step(s, ev))
  {
    hide MarksFit, QueueWatched, PlacedFits, Step, Possible;
    StepKeepsMarks(s, ev);
    forall k ensures PlacedFits(Step(s, ev), k) { StepKeepsPlaced(s, ev, k); }
  }

  lemma {:induction false} EveryRunKeeps(s: State, run: seq<Event>)
    requires Invariant(s) && Runs(s, run)
    ensures Invariant(Run(s, run))
    decreases |run|
  {
    if run != [] {
      StepKeeps(s, run[0]);
      EveryRunKeeps(Step(s, run[0]), run[1..]);
    }
  }

  /** In every reachable state no two requests for one peer are on the way, and a non-empty queue has the timer armed
      or a mark. */
  lemma OneRequestPerPeer(run: seq<Event>, r: int, q: int, p: Peer)
    requires Runs(Initial(), run)
    ensures var s := Run(Initial(), run);
            && (r in s.onTheWay && q in s.onTheWay && s.onTheWay[r].peer == s.onTheWay[q].peer ==> r == q)
            && (p in s.toIncrement ==> s.timer || p in s.marks)
  {
    EveryRunKeeps(Initial(), run);
  }

  // ----- marks that nothing removes -----

  predicate OtherLength(ev: Event) {
    ev.ReplyDone? && !ev.sameLength
  }

  lemma ReplyWedges(s: State, requestId: int, sameLength: bool, p: Peer)
    requires MarksFit(s) && requestId in s.onTheWay
    ensures var marked := p in s.marks && s.marks[p] == requestId;
            Wedged(Done(s, requestId, sameLength), p) <==> Wedged(s, p) || (!sameLength && marked)
  {
  }

  lemma StepWedges(s: State, ev: Event, p: Peer)
    requires MarksFit(s) && Possible(s, ev)
    ensures Wedged(s, p) ==> Wedged(Step(s, ev), p)
    ensures OtherLength(ev) ==> Wedged(Step(s, ev), s.onTheWay[ev.requestId].peer)
    ensures !Wedged(s, p) && !OtherLength(ev) ==> !Wedged(Step(s, ev), p)
  {
    hide SentAll;
    match ev
    case Fire(order) => SentAllFacts(s.(timer := false), order, p);
    case ReplyDone(r, sameLength) =>
      ReplyWedges(s, r, sameLength, p);
      ReplyWedges(s, r, sameLength, s.onTheWay[r].peer);
      hide Done;
    case ReplyFailed(r) =>
      ReplyWedges(s, r, true, p);
      assert Failed(s, r) == Done(s, r, true);
      hide Done, Failed;
    case _ => hide MarksFit;
  }

  lemma {:induction false} WedgedForever(s: State, run: seq<Event>, p: Peer)
    requires Invariant(s) && Runs(s, run) && Wedged(s, p)
    ensures Wedged(Run(s, run), p)
    decreases |run|
  {
    if run != [] {
      StepWedges(s, run[0], p);
      StepKeeps(s, run[0]);
      WedgedForever(Step(s, run[0]), run[1..], p);
    }
  }

  ghost predicate EveryMarkAnswered(s: State) {
    forall p :: !Wedged(s, p)
  }

  lemma StepAnswered(s: State, ev: Event)
    requires MarksFit(s) && EveryMarkAnswered(s) && Possible(s, ev)
    ensures EveryMarkAnswered(Step(s, ev)) <==> !OtherLength(ev)
  {
    assert OtherLength(ev) ==> ev.requestId in s.onTheWay;
    hide MarksFit, Wedged, Step, Possible;
    if OtherLength(ev) {
      StepWedges(s, ev, s.onTheWay[ev.requestId].peer);
    } else {
      forall p ensures !Wedged(Step(s, ev), p) { StepWedges(s, ev, p); }
    }
  }

  /** Every mark belongs to a request still on the way exactly when no reply so far had another length. */
  lemma {:induction false} MarksAnswered(s: State, run: seq<Event>)
    requires Invariant(s) && Runs(s, run) && EveryMarkAnswered(s)
    ensures EveryMarkAnswered(Run(s, run)) <==> forall i :: 0 <= i < |run| ==> !OtherLength(run[i])
    decreases |run|
  {
    if run != [] {
      var ev, later := run[0], Step(s, run[0]);
      StepKeeps(s, ev);
      StepAnswered(s, ev);
      if OtherLength(ev) {
        var p :| Wedged(later, p);
        WedgedForever(later, run[1..], p);
      } else {
        MarksAnswered(later, run[1..]);
        assert run == [ev] + run[1..];
      }
    }
  }

  /** One message, one firing and one reply of another length wedge the peer of the message. */
  lemma OtherLengthWedges(k: Key)
    ensures var run := [Schedule(k), Fire([k.peer]), ReplyDone(1, false)];
            Runs(Initial(), run) && Wedged(Run(Initial(), run), k.peer)
  {
    var queued := Step(Initial(), Schedule(k));
    assert {} + {k.msg} == {k.msg};
    assert queued.toIncrement == map[k.peer := {k.msg}] && queued.timer && queued.marks == map[];
    var fired := Sent(queued.(timer := false), k.peer);
    assert [k.peer][1..] == [] && SentAll(queued.(timer := false), [k.peer]) == fired;
    assert fired == Step(queued, Fire([k.peer]));
    assert fired.marks == map[k.peer := 1] && 1 in fired.onTheWay;
    assert Wedged(Step(fired, ReplyDone(1, false)), k.peer);
    hide Step, Possible;
    RunFirst(fired, ReplyDone(1, false), []);
    RunFirst(queued, Fire([k.peer]), [ReplyDone(1, false)] + []);
    RunFirst(Initial(), Schedule(k), [Fire([k.peer])] + ([ReplyDone(1, false)] + []));
    assert [Schedule(k)] + ([Fire([k.peer])] + ([ReplyDone(1, false)] + []))
        == [Schedule(k), Fire([k.peer]), ReplyDone(1, false)];
  }

  // ----- how often an id is placed between two resets -----

  predicate NoReset(run: seq<Event>, p: Peer) {
    RemoveIncremented(p) !in run
  }

  lemma {:induction false} PlacedAtMostOnce(s: State, run: seq<Event>, k: Key)
    requires Invariant(s) && Runs(s, run) && NoReset(run, k.peer) && k !in s.leftover
    ensures Placed(Run(s, run), k) <= 1
    decreases |run|
  {
    if run == [] {
      assert PlacedFits(s, k);
    } else {
      hide MarksFit, QueueWatched, PlacedFits, Step, Possible;
      StepKeeps(s, run[0]);
      StepKeepsPlaced(s, run[0], k);
      PlacedAtMostOnce(Step(s, run[0]), run[1..], k);
    }
  }

  /** What waits behind a wedged mark is never placed again. */
  lemma {:induction false} WedgedPlacesNothing(s: State, run: seq<Event>, k: Key)
    requires Invariant(s) && Runs(s, run) && NoReset(run, k.peer) && Wedged(s, k.peer)
    ensures Placed(Run(s, run), k) == Placed(s, k)
    decreases |run|
  {
    if run != [] {
      hide MarksFit, QueueWatched, PlacedFits, Step, Possible, Wedged;
      StepKeeps(s, run[0]);
      StepWedges(s, run[0], k.peer);
      WedgedStepPlacesNothing(s, run[0], k);
      WedgedPlacesNothing(Step(s, run[0]), run[1..], k);
    }
  }

  lemma WedgedStepPlacesNothing(s: State, ev: Event, k: Key)
    requires Possible(s, ev) && Wedged(s, k.peer) && ev != RemoveIncremented(k.peer)
    ensures Placed(Step(s, ev), k) == Placed(s, k)
  {
    hide SentAll;
    if ev.Fire? {
      SentAllPlaces(s.(timer := false), ev.order, k);
    }
  }

  /** A set laid out in some order. */
  lemma {:induction false} Listed(ps: set<Peer>) returns (order: seq<Peer>)
    ensures forall p :: p in ps ==> p in order
    ensures forall i :: 0 <= i < |order| ==> order[i] in ps
    ensures forall i, j :: 0 <= i < j < |order| ==> order[i] != order[j]
  {
    if ps == {} {
      order := [];
    } else {
      var p := Inhabitant(ps);
      var later := Listed(ps - {p});
      order := [p] + later;
    }
  }

  lemma TimerPass(s: State, k: Key) returns (order: seq<Peer>)
    requires Invariant(s) && Queued(s, k) && k.peer !in s.marks
    ensures Possible(s, Fire(order))
    ensures var after := Step(s, Fire(order));
            && Invariant(after)
            && Placed(after, k) == Placed(s, k) + 1
            && Accepted(after, k) == Accepted(s, k)
            && k.peer in after.marks && !Wedged(after, k.peer)
  {
    hide SentAll, PlacedFits;
    order := Listed(set p | p in s.toIncrement && p !in s.marks);
    StepKeeps(s, Fire(order));
    SentAllPlaces(s.(timer := false), order, k);
    SentAllFacts(s.(timer := false), order, k.peer);
  }

  lemma FailureFrees(s: State, p: Peer, k: Key)
    requires Invariant(s) && p in s.marks && !Wedged(s, p)
    ensures Possible(s, ReplyFailed(s.marks[p]))
    ensures var after := Step(s, ReplyFailed(s.marks[p]));
            && Invariant(after)
            && p !in after.marks
            && Placed(after, k) == Placed(s, k) && Accepted(after, k) == Accepted(s, k)
            && Queued(after, k) == Queued(s, k)
  {
    var ev := ReplyFailed(s.marks[p]);
    StepKeeps(s, ev);
  }

  lemma PlacedTwice(s: State, k: Key) returns (run: seq<Event>)
    requires Invariant(s) && Queued(s, k) && !Wedged(s, k.peer) && Placed(s, k) == 0 && !Accepted(s, k)
    ensures Runs(s, run) && NoReset(run, k.peer) && Placed(Run(s, run), k) == 2
  {
    hide MarksFit, QueueWatched, PlacedFits, Step, Possible;
    if k.peer in s.marks {
      var failed := ReplyFailed(s.marks[k.peer]);
      FailureFrees(s, k.peer, k);
      var later := PlacedTwiceUnmarked(Step(s, failed), k);
      RunFirst(s, failed, later);
      run := [failed] + later;
    } else {
      run := PlacedTwiceUnmarked(s, k);
    }
  }

  lemma PlacedTwiceUnmarked(s: State, k: Key) returns (run: seq<Event>)
    requires Invariant(s) && Queued(s, k) && k.peer !in s.marks && Placed(s, k) == 0 && !Accepted(s, k)
    ensures Runs(s, run) && NoReset(run, k.peer) && Placed(Run(s, run), k) == 2
  {
    hide MarksFit, QueueWatched, PlacedFits, Step, Possible;
    var first := TimerPass(s, k);
    var s1 := Step(s, Fire(first));
    FailureFrees(s1, k.peer, k);
    var failed := ReplyFailed(s1.marks[k.peer]);
    var later := PlacedAgain(Step(s1, failed), k);
    RunFirst(s1, failed, later);
    RunFirst(s, Fire(first), [failed] + later);
    run := [Fire(first)] + ([failed] + later);
  }

  lemma PlacedAgain(s: State, k: Key) returns (run: seq<Event>)
    requires Invariant(s) && k.peer !in s.marks && !Accepted(s, k)
    ensures Runs(s, run) && NoReset(run, k.peer) && Placed(Run(s, run), k) == Placed(s, k) + 1
  {
    var s1 := Step(s, Schedule(k));
    assert Possible(s, Schedule(k)) && s1 == Scheduled(s, k);
    hide MarksFit, QueueWatched, PlacedFits, Step, Possible;
    SchedulePlaces(s, k, k);
    StepKeeps(s, Schedule(k));
    var second := TimerPass(s1, k);
    RunFirst(s1, Fire(second), []);
    RunFirst(s, Schedule(k), [Fire(second)] + []);
    run := [Schedule(k)] + ([Fire(second)] + []);
  }

  lemma RunFirst(s: State, ev: Event, rest: seq<Event>)
    requires Possible(s, ev) && Runs(Step(s, ev), rest)
    ensures Runs(s, [ev] + rest) && Run(s, [ev] + rest) == Run(Step(s, ev), rest)
  {
    assert ([ev] + rest)[1..] == rest;
  }

  /** One message that waits when its peer is reset can be placed twice before the next reset. */
  lemma LeftOverIsPlacedTwice(k: Key) returns (run: seq<Event>)
    ensures var start := Reset(Step(Initial(), Schedule(k)), k.peer);
            Runs(start, run) && NoReset(run, k.peer) && Placed(Run(start, run), k) == 2
  {
    StepKeeps(Initial(), Schedule(k));
    var queued := Step(Initial(), Schedule(k));
    StepKeeps(queued, RemoveIncremented(k.peer));
    ResetPlaces(queued, k.peer, k);
    var start := Reset(queued, k.peer);
    assert Queued(start, k) && !Wedged(start, k.peer);
    hide Invariant, Reset, Step, Possible;
    run := PlacedTwice(start, k);
  }

  /** After a reset an id is placed at most once whatever happens before the next one, exactly when it did not wait
      at the reset or waits behind a mark whose answer has come. */
  lemma PlacedOnceIff(s: State, k: Key)
    requires Invariant(s)
    ensures (forall run :: Runs(Reset(s, k.peer), run) && NoReset(run, k.peer)
                           ==> Placed(Run(Reset(s, k.peer), run), k) <= 1)
            <==> !Queued(s, k) || Wedged(s, k.peer)
  {
    var start := Reset(s, k.peer);
    assert Wedged(start, k.peer) == Wedged(s, k.peer) && PlacedFits(s, k);
    hide MarksFit, QueueWatched, PlacedFits, Reset;
    StepKeeps(s, RemoveIncremented(k.peer));
    ResetPlaces(s, k.peer, k);
    if Wedged(s, k.peer) {
      forall run | Runs(start, run) && NoReset(run, k.peer) ensures Placed(Run(start, run), k) <= 1 {
        WedgedPlacesNothing(start, run, k);
      }
    } else if !Queued(s, k) {
      forall run | Runs(start, run) && NoReset(run, k.peer) ensures Placed(Run(start, run), k) <= 1 {
        PlacedAtMostOnce(start, run, k);
      }
    } else {
      var run := PlacedTwice(start, k);
    }
  }

  // ----- the object -----

  lemma {:induction false} SentOneMore(s: State, order: seq<Peer>, p: Peer)
    requires MarksFit(s) && Sendable(s, order) && p in s.toIncrement && p !in s.marks && p !in order
    ensures Sendable(s, order + [p]) && p in SentAll(s, order).toIncrement
    ensures SentAll(s, order + [p]) == Sent(SentAll(s, order), p)
    decreases |order|
  {
    hide Sent;
    SentAllFacts(s, order, p);
    if order == [] {
      assert [p][1..] == [];
      assert SentAll(Sent(s, p), []) == Sent(s, p);
    } else {
      var later := Sent(s, order[0]);
      SentKeepsMarks(s, order[0]);
      SentOthers(s, order[0], p);
      SentLeavesSendable(s, order);
      SentLeavesSendable(s, order + [p]) by { assert Sendable(s, order + [p]); }
      hide MarksFit, Wedged, Sendable;
      assert (order + [p])[1..] == order[1..] + [p];
      SentOneMore(later, order[1..], p);
    }
  }

  /** The pass has still `rest` before it, and sent those of the others that had no mark. */
  ghost predicate PassReached(s: State, rest: set<Peer>, order: seq<Peer>) {
    && rest <= s.toIncrement.Keys
    && (forall p :: p in rest ==> p !in order)
    && (forall p :: p in s.toIncrement && p !in s.marks && p !in rest ==> p in order)
  }

  lemma PassBegins(s: State)
    requires MarksFit(s)
    ensures var start := s.(timer := false);
            MarksFit(start) && Sendable(start, []) && SentAll(start, []) == start
            && PassReached(start, start.toIncrement.Keys, [])
  {
  }

  lemma PassEnds(s: State, order: seq<Peer>)
    requires s.timer && Sendable(s.(timer := false), order) && PassReached(s.(timer := false), {}, order)
    ensures Possible(s, Fire(order))
  {
  }

  lemma PassOneMore(s: State, rest: set<Peer>, order: seq<Peer>, p: Peer)
    requires PassReached(s, rest, order) && p in rest
    ensures p in s.toIncrement && p !in order
    ensures PassReached(s, rest - {p}, if p in s.marks then order else order + [p])
  {
  }

  class ViewsManager {
    var incremented: map<Peer, set<MsgId>>
    var toIncrement: map<Peer, set<MsgId>>
    var incrementRequests: map<Peer, int>
    var incrementTimer: bool
    var nextRequestId: int
    ghost var onTheWay: map<int, Batch>
    ghost var log: seq<Logged>
    ghost var leftover: set<Key>

    ghost function View(): State
      reads this
    {
      State(incremented, toIncrement, incrementRequests, incrementTimer, nextRequestId, onTheWay, log, leftover)
    }

    constructor ()
      ensures View() == Initial() && Invariant(View())
    {
      incremented, toIncrement, incrementRequests := map[], map[], map[];
      incrementTimer, nextRequestId := false, 1;
      onTheWay, log, leftover := map[], [], {};
    }

    method ScheduleIncrement(peer: Peer, id: MsgId)
      modifies this
      ensures View() == Step(old(View()), Schedule(Key(peer, id)))
    {
      if peer in incremented {
        if id in incremented[peer] {
          return;
        }
      } else {
        incremented := incremented[peer := {}];
      }
      incremented := incremented[peer := incremented[peer] + {id}];
      assert incremented == old(incremented)[peer := Of(old(incremented), peer) + {id}];
      if peer !in toIncrement {
        toIncrement := toIncrement[peer := {}];
        incrementTimer := true;
      }
      toIncrement := toIncrement[peer := toIncrement[peer] + {id}];
      assert toIncrement == old(toIncrement)[peer := Of(old(toIncrement), peer) + {id}];
    }

    method RemoveIncremented(peer: Peer)
      modifies this
      ensures View() == Step(old(View()), Event.RemoveIncremented(peer))
    {
      log, leftover := log + [WasReset(peer)], Reset(View(), peer).leftover;
      incremented := incremented - {peer};
    }

    method SendFor(peer: Peer)
      requires peer in toIncrement
      modifies this
      ensures View() == Sent(old(View()), peer)
    {
      var ids := toIncrement[peer];
      log := log + [WasSent(Batch(peer, ids))];
      onTheWay := onTheWay[nextRequestId := Batch(peer, ids)];
      incrementRequests := incrementRequests[peer := nextRequestId];
      nextRequestId := nextRequestId + 1;
      toIncrement := toIncrement - {peer};
    }

    /** One turn of the pass: a peer with a mark is left waiting. */
    method VisitPeer(peer: Peer, ghost start: State, ghost order: seq<Peer>)
      requires MarksFit(start) && Sendable(start, order) && View() == SentAll(start, order)
      requires peer in start.toIncrement && peer !in order
      modifies this
      ensures var longer := if peer in start.marks then order else order + [peer];
              Sendable(start, longer) && View() == SentAll(start, longer)
    {
      SentAllFacts(start, order, peer);
      if peer !in incrementRequests {
        SentOneMore(start, order, peer);
        hide MarksFit, SentAll, Sent, Sendable;
        SendFor(peer);
      }
    }

    /** The timer fires; `order` is the order in which the pass came to the peers it sent. */
    method ViewsIncrement() returns (ghost order: seq<Peer>)
      requires incrementTimer && MarksFit(View())
      modifies this
      ensures Possible(old(View()), Fire(order)) && View() == Step(old(View()), Fire(order))
    {
      hide MarksFit, SentAll, Sent, Sendable;
      ghost var before := View();
      incrementTimer := false;
      ghost var start := View();
      order := [];
      PassBegins(before);
      var rest := toIncrement.Keys;
      while rest != {}
        invariant Sendable(start, order) && View() == SentAll(start, order)
        invariant PassReached(start, rest, order)
        decreases |rest|
      {
        var peer := Pick(rest);
        PassOneMore(start, rest, order, peer);
        hide PassReached;
        rest := rest - {peer};
        VisitPeer(peer, start, order);
        order := if peer in start.marks then order else order + [peer];
      }
      PassEnds(before, order);
    }

    /** The first entry with this id is erased. */
    method Unmark(requestId: int)
      requires MarksFit(View())
      modifies `incrementRequests
      ensures incrementRequests == Unmarked(old(incrementRequests), requestId)
    {
      var rest := incrementRequests.Keys;
      while rest != {}
        invariant incrementRequests == old(incrementRequests) && rest <= incrementRequests.Keys
        invariant forall p :: p in incrementRequests && p !in rest ==> incrementRequests[p] != requestId
      {
        var peer := Pick(rest);
        if incrementRequests[peer] == requestId {
          incrementRequests := incrementRequests - {peer};
          break;
        }
        rest := rest - {peer};
      }
    }

    method Rearm()
      modifies `incrementTimer
      ensures View() == Rearmed(old(View()))
    {
      if toIncrement != map[] && !incrementTimer {
        incrementTimer := true;
      }
    }

    /** The counters the answer carries go to the messages; here only their number matters. `ids` were captured when
        the request was sent. */
    method Done(requestId: int, ids: set<MsgId>, views: nat)
      requires MarksFit(View()) && requestId in onTheWay && onTheWay[requestId].ids == ids
      modifies this
      ensures View() == Step(old(View()), ReplyDone(requestId, |ids| == views))
    {
      if |ids| == views {
        Unmark(requestId);
      }
      onTheWay := onTheWay - {requestId};
      Rearm();
    }

    method Fail(requestId: int)
      requires MarksFit(View()) && requestId in onTheWay
      modifies this
      ensures View() == Step(old(View()), ReplyFailed(requestId))
    {
      Unmark(requestId);
      onTheWay := onTheWay - {requestId};
      Rearm();
    }
  }
}
