/**
 Polling extended media: ids gather per peer for half a minute, then go out in requests of at most
 one hundred, one running request per peer, all peers sharing one timer.
 */
module MediaPoll {
  import opened Basics
  import opened Ordered

  const POLL_PERIOD: int := 30000
  const MAX_POLL_PER_REQUEST: nat := 100

  datatype Peer = Peer(id: int)

  datatype MsgId = MsgId(id: int)

  datatype Key = Key(peer: Peer, msg: MsgId)

  /** A request that has been sent. */
  datatype Request = Request(id: int, peer: Peer, ids: set<MsgId>)

  /** `requestId` is zero while nothing runs, `when` is zero while unset. */
  datatype Entry = Entry(when: int, requestId: int, ids: set<MsgId>, sent: set<MsgId>)

  datatype Timer = Off | At(time: int)

  /** `clock` is the last moment seen, `onTheWay` the requests still to be answered; `accepted` counts how often an
      id was taken in, `completed` how often a request that carried it was answered. */
  datatype State = State(
    entries: map<Peer, Entry>,
    timer: Timer,
    next: int,
    clock: int,
    onTheWay: set<Request>,
    accepted: map<Key, nat>,
    completed: map<Key, nat>)

  function Count(m: map<Key, nat>, k: Key): nat {
    if k in m then m[k] else 0
  }

  function Counted(m: map<Key, nat>, p: Peer, ids: set<MsgId>): map<Key, nat> {
    map k | k in m.Keys + KeysOf(p, ids) :: Count(m, k) + if k.peer == p && k.msg in ids then 1 else 0
  }

  function KeysOf(p: Peer, ids: set<MsgId>): set<Key> {
    set m | m in ids :: Key(p, m)
  }

  function EntryOf(s: State, p: Peer): Entry {
    if p in s.entries then s.entries[p] else Entry(0, 0, {}, {})
  }

  function ArmedBy(timer: Timer, time: int): Timer {
    if timer.Off? then At(time) else timer
  }

  // ----- the operations on values -----

  function Polled(s: State, k: Key, now: int): State {
    var r := EntryOf(s, k.peer);
    if k.msg in r.ids || k.msg in r.sent then s.(clock := now)
    else
      var when := if r.requestId == 0 && r.when == 0 then now + POLL_PERIOD else r.when;
      s.(entries := s.entries[k.peer := r.(ids := r.ids + {k.msg}, when := when)],
         timer := ArmedBy(s.timer, now + POLL_PERIOD),
         clock := now,
         accepted := Counted(s.accepted, k.peer, {k.msg}))
  }

  predicate Due(r: Entry, now: int) {
    r.requestId == 0 && r.when <= now
  }

  /** The hundred smallest ids, or all if there are fewer. */
  ghost predicate FirstOf(ids: set<MsgId>, part: set<MsgId>) {
    && part <= ids
    && |part| == (if |ids| < MAX_POLL_PER_REQUEST then |ids| else MAX_POLL_PER_REQUEST)
    && forall a, b :: a in part && b in ids && b !in part ==> a.id < b.id
  }

  /** What a timer pass takes from the due entries, and the request each part goes out in. */
  datatype Take = Take(part: set<MsgId>, requestId: int)

  function Taken(r: Entry, take: Take): Entry {
    r.(sent := take.part, ids := r.ids - take.part, requestId := take.requestId)
  }

  function TakenEntries(entries: map<Peer, Entry>, takes: map<Peer, Take>): map<Peer, Entry> {
    map p | p in entries :: if p in takes then Taken(entries[p], takes[p]) else entries[p]
  }

  ghost predicate TakesFit(s: State, now: int, takes: map<Peer, Take>) {
    && (forall p :: p in takes <==> p in s.entries && Due(s.entries[p], now))
    && (forall p :: p in takes ==> FirstOf(s.entries[p].ids, takes[p].part) && s.next <= takes[p].requestId)
    && (forall p, q :: p in takes && q in takes && takes[p].requestId == takes[q].requestId ==> p == q)
  }

  /** Something due stays behind, so the timer has to come back at once. */
  ghost predicate Remains(s: State, takes: map<Peer, Take>) {
    exists p :: p in takes && p in s.entries && s.entries[p].ids != takes[p].part
  }

  predicate Later(s: State, p: Peer, now: int) {
    p in s.entries && s.entries[p].requestId == 0 && now < s.entries[p].when
  }

  /** The next firing: at once if something due remains, else at the earliest time a waiting entry has. */
  ghost predicate NextTimer(s: State, now: int, takes: map<Peer, Take>, timer: Timer) {
    if Remains(s, takes) then timer == At(now + 1)
    else if exists p :: Later(s, p, now) then
      && timer.At?
      && (exists p :: Later(s, p, now) && s.entries[p].when == timer.time)
      && (forall p :: Later(s, p, now) ==> timer.time <= s.entries[p].when)
    else timer == Off
  }

  ghost predicate FreshIds(first: int, takes: map<Peer, Take>, next: int) {
    && first <= next
    && (forall p :: p in takes ==> first <= takes[p].requestId < next)
    && (forall p, q :: p in takes && q in takes && takes[p].requestId == takes[q].requestId ==> p == q)
  }

  ghost function Fired(s: State, now: int, takes: map<Peer, Take>, timer: Timer, next: int): State
    requires FreshIds(s.next, takes, next)
  {
    s.(entries := TakenEntries(s.entries, takes),
       timer := timer,
       next := next,
       clock := now,
       onTheWay := s.onTheWay + Requests(takes))
  }

  function Requests(takes: map<Peer, Take>): set<Request> {
    set p | p in takes :: Request(takes[p].requestId, p, takes[p].part)
  }

  /** Every entry with this request is freed; one without further ids goes, another waits for a new period. Only the
      entries in `among` have been looked at. */
  function FinishedEntries(entries: map<Peer, Entry>, requestId: int, now: int, among: set<Peer>): map<Peer, Entry> {
    map p | p in entries && !(p in among && entries[p].requestId == requestId && entries[p].ids == {}) ::
      if p in among && entries[p].requestId == requestId
      then Entry(now + POLL_PERIOD, 0, entries[p].ids, {})
      else entries[p]
  }

  ghost predicate WaitsAgain(entries: map<Peer, Entry>, requestId: int, among: set<Peer>) {
    exists p :: p in among && p in entries && entries[p].requestId == requestId && entries[p].ids != {}
  }

  ghost function Finished(s: State, q: Request, now: int): State {
    s.(entries := FinishedEntries(s.entries, q.id, now, s.entries.Keys),
       timer := if WaitsAgain(s.entries, q.id, s.entries.Keys) then ArmedBy(s.timer, now + POLL_PERIOD) else s.timer,
       clock := now,
       onTheWay := s.onTheWay - {q},
       completed := Counted(s.completed, q.peer, q.ids))
  }

  // ----- runs -----

  datatype Event =
    | Poll(k: Key, now: int)
    | Fire(now: int, takes: map<Peer, Take>, timer: Timer, next: int)
    | Finish(q: Request, now: int)

  function Initial(clock: int): State {
    State(map[], Off, 1, clock, {}, map[], map[])
  }

  ghost predicate Possible(s: State, ev: Event) {
    && 0 < s.clock <= ev.now
    && match ev
       case Poll(_, _) => true
       case Fire(now, takes, timer, next) =>
         && s.timer.At? && s.timer.time <= now
         && TakesFit(s, now, takes) && FreshIds(s.next, takes, next) && NextTimer(s, now, takes, timer)
       case Finish(q, _) => q in s.onTheWay
  }

  ghost function Step(s: State, ev: Event): State
    requires Possible(s, ev)
  {
    match ev
    case Poll(k, now) => Polled(s, k, now)
    case Fire(now, takes, timer, next) => Fired(s, now, takes, timer, next)
    case Finish(q, now) => Finished(s, q, now)
  }

  // ----- what every run keeps -----

  /** Nothing is both waiting and sent, and `sent` is empty exactly while nothing runs. */
  ghost predicate EntryFits(s: State, r: Entry) {
    && r.ids !! r.sent
    && |r.sent| <= MAX_POLL_PER_REQUEST
    && 0 < r.when <= s.clock + POLL_PERIOD
    && (r.requestId == 0 <==> r.sent == {})
    && (r.requestId == 0 ==> r.ids != {})
  }

  ghost predicate EntriesFit(s: State) {
    forall p :: p in s.entries ==> EntryFits(s, s.entries[p])
  }

  /** A waiting entry has the timer, no later than its own time. */
  ghost predicate TimerFits(s: State) {
    && (s.timer.At? ==> s.timer.time <= s.clock + POLL_PERIOD)
    && (forall p :: p in s.entries && s.entries[p].requestId == 0
                    ==> s.timer.At? && s.timer.time <= s.entries[p].when)
  }

  /** A running entry has its request on the way, with exactly what the entry has as sent. */
  predicate Requested(s: State, p: Peer)
    requires p in s.entries
  {
    var r := s.entries[p];
    r.requestId != 0 ==> Request(r.requestId, p, r.sent) in s.onTheWay
  }

  predicate Entered(s: State, q: Request) {
    0 < q.id < s.next && q.peer in s.entries && s.entries[q.peer].requestId == q.id && s.entries[q.peer].sent == q.ids
  }

  ghost predicate RequestsFit(s: State) {
    && 0 < s.next
    && (forall p :: p in s.entries ==> Requested(s, p))
    && (forall q :: q in s.onTheWay ==> Entered(s, q))
    && (forall q, o :: q in s.onTheWay && o in s.onTheWay && q.id == o.id ==> q == o)
  }

  /** What was taken in is waiting, sent or completed, each time once. */
  ghost predicate KeyFits(s: State, k: Key) {
    var r := EntryOf(s, k.peer);
    Count(s.accepted, k) == Count(s.completed, k) + One(k.msg in r.ids) + One(k.msg in r.sent)
  }

  ghost predicate Invariant(s: State) {
    EntriesFit(s) && TimerFits(s) && RequestsFit(s) && forall k :: KeyFits(s, k)
  }

  lemma TakenEntry(s: State, r: Entry, take: Take)
    requires EntryFits(s, r) && r.requestId == 0 && FirstOf(r.ids, take.part) && take.requestId > 0
    ensures EntryFits(s, Taken(r, take))
  {
    if r.ids != {} {
      var m := Inhabitant(r.ids);
      assert |r.ids| == |r.ids - {m}| + 1;
    }
  }

  lemma FireKeepsEntries(s: State, now: int, takes: map<Peer, Take>, timer: Timer, next: int)
    requires EntriesFit(s) && 0 < s.next && s.clock <= now && TakesFit(s, now, takes) && FreshIds(s.next, takes, next)
    ensures EntriesFit(Fired(s, now, takes, timer, next))
  {
    hide FirstOf, Requests;
    var after := Fired(s, now, takes, timer, next);
    forall p | p in after.entries ensures EntryFits(after, after.entries[p]) {
      if p in takes {
        TakenEntry(s, s.entries[p], takes[p]);
      }
    }
  }

  lemma NextTimerFits(s: State, now: int, takes: map<Peer, Take>, timer: Timer, p: Peer)
    requires EntriesFit(s) && s.clock <= now && NextTimer(s, now, takes, timer)
    ensures timer.At? ==> timer.time <= now + POLL_PERIOD
    ensures Later(s, p, now) ==> timer.At? && timer.time <= s.entries[p].when
  {
  }

  lemma FireKeepsTimer(s: State, now: int, takes: map<Peer, Take>, timer: Timer, next: int)
    requires EntriesFit(s) && 0 < s.next && s.clock <= now
    requires TakesFit(s, now, takes) && FreshIds(s.next, takes, next) && NextTimer(s, now, takes, timer)
    ensures TimerFits(Fired(s, now, takes, timer, next))
  {
    hide FirstOf, NextTimer, Requests, EntryFits, EntriesFit;
    var after := Fired(s, now, takes, timer, next);
    NextTimerFits(s, now, takes, timer, Peer(0));
    forall p | p in after.entries && after.entries[p].requestId == 0
      ensures after.timer.At? && after.timer.time <= after.entries[p].when
    {
      assert p !in takes && Later(s, p, now);
      NextTimerFits(s, now, takes, timer, p);
    }
  }

  lemma FireKeepsRequests(s: State, now: int, takes: map<Peer, Take>, timer: Timer, next: int)
    requires RequestsFit(s) && TakesFit(s, now, takes) && FreshIds(s.next, takes, next)
    ensures RequestsFit(Fired(s, now, takes, timer, next))
  {
    hide FirstOf, NextTimer;
    var after := Fired(s, now, takes, timer, next);
    forall p | p in after.entries ensures Requested(after, p) {
      assert Requested(s, p);
    }
    forall q | q in after.onTheWay ensures Entered(after, q) {
      if q !in Requests(takes) {
        assert Entered(s, q);
      }
    }
  }

  lemma FireKeepsKey(s: State, now: int, takes: map<Peer, Take>, timer: Timer, next: int, k: Key)
    requires EntriesFit(s) && KeyFits(s, k) && TakesFit(s, now, takes) && FreshIds(s.next, takes, next)
    ensures KeyFits(Fired(s, now, takes, timer, next), k)
  {
    hide Requests;
    var after := Fired(s, now, takes, timer, next);
    if k.peer in takes {
      assert takes[k.peer].part <= s.entries[k.peer].ids;
      assert s.entries[k.peer].sent == {};
    }
  }

  lemma CountOfCounted(m: map<Key, nat>, p: Peer, ids: set<MsgId>, k: Key)
    ensures Count(Counted(m, p, ids), k) == Count(m, k) + One(k.peer == p && k.msg in ids)
  {
    assert k in KeysOf(p, ids) <==> k == Key(p, k.msg) && k.msg in ids;
  }

  lemma PollKeepsKey(s: State, one: Key, now: int, k: Key)
    requires EntriesFit(s) && KeyFits(s, k)
    ensures KeyFits(Polled(s, one, now), k)
  {
    CountOfCounted(s.accepted, one.peer, {one.msg}, k);
    hide Counted;
  }

  lemma PollKeepsEntries(s: State, one: Key, now: int)
    requires EntriesFit(s) && TimerFits(s) && 0 < s.clock <= now
    ensures EntriesFit(Polled(s, one, now)) && TimerFits(Polled(s, one, now))
  {
    hide Counted;
    var after := Polled(s, one, now);
    assert one.peer in s.entries ==> EntryFits(s, s.entries[one.peer]);
    forall p | p in after.entries ensures EntryFits(after, after.entries[p]) {
      if p != one.peer {
        assert EntryFits(s, s.entries[p]);
      }
    }
  }

  lemma PollKeepsRequests(s: State, one: Key, now: int)
    requires RequestsFit(s)
    ensures RequestsFit(Polled(s, one, now))
  {
    hide Counted;
    var after := Polled(s, one, now);
    forall p | p in after.entries ensures Requested(after, p) {
      if p in s.entries {
        assert Requested(s, p);
      }
    }
    forall r | r in after.onTheWay ensures Entered(after, r) {
      assert Entered(s, r);
    }
  }

  /** The answered request frees exactly the entry it was sent for. */
  lemma FinishedEntry(s: State, q: Request, p: Peer)
    requires RequestsFit(s) && q in s.onTheWay && p in s.entries
    ensures s.entries[p].requestId == q.id <==> p == q.peer
    ensures p == q.peer ==> s.entries[p].sent == q.ids && 0 < q.id
  {
    assert Entered(s, q) && Requested(s, p);
    if s.entries[p].requestId == q.id {
      assert Entered(s, Request(q.id, p, s.entries[p].sent));
    }
  }

  lemma FinishKeepsKey(s: State, q: Request, now: int, k: Key)
    requires EntriesFit(s) && RequestsFit(s) && KeyFits(s, k) && q in s.onTheWay
    ensures KeyFits(Finished(s, q, now), k)
  {
    CountOfCounted(s.completed, q.peer, q.ids, k);
    assert Entered(s, q);
    FinishedEntry(s, q, q.peer);
    if k.peer in s.entries {
      FinishedEntry(s, q, k.peer);
    }
    hide Counted, RequestsFit;
  }

  lemma FinishKeepsEntries(s: State, q: Request, now: int)
    requires EntriesFit(s) && TimerFits(s) && RequestsFit(s) && q in s.onTheWay && 0 < s.clock <= now
    ensures EntriesFit(Finished(s, q, now)) && TimerFits(Finished(s, q, now))
  {
    hide Counted;
    assert Entered(s, q);
    hide RequestsFit;
    var after := Finished(s, q, now);
    forall p | p in after.entries && after.entries[p].requestId == 0
      ensures after.timer.At? && after.timer.time <= after.entries[p].when
    {
      if s.entries[p].requestId == q.id {
        assert WaitsAgain(s.entries, q.id, s.entries.Keys);
      }
    }
  }

  lemma FinishKeepsRequests(s: State, q: Request, now: int)
    requires RequestsFit(s) && q in s.onTheWay
    ensures RequestsFit(Finished(s, q, now))
  {
    hide Counted, WaitsAgain;
    var after := Finished(s, q, now);
    forall p | p in after.entries ensures Requested(after, p) {
      assert Requested(s, p);
      FinishedEntry(s, q, p);
    }
    forall o | o in after.onTheWay ensures Entered(after, o) {
      assert Entered(s, o);
      FinishedEntry(s, q, o.peer);
    }
  }

  lemma StepKeeps(s: State, ev: Event)
    requires Invariant(s) && Possible(s, ev)
    ensures Invariant(Step(s, ev))
  {
    assert 0 < s.next;
    hide EntriesFit, TimerFits, RequestsFit, KeyFits;
    var after := Step(s, ev);
    match ev
    case Poll(one, now) =>
      PollKeepsEntries(s, one, now);
      PollKeepsRequests(s, one, now);
      forall k ensures KeyFits(after, k) { PollKeepsKey(s, one, now, k); }
    case Fire(now, takes, timer, next) =>
      FireKeepsEntries(s, now, takes, timer, next);
      FireKeepsTimer(s, now, takes, timer, next);
      FireKeepsRequests(s, now, takes, timer, next);
      forall k ensures KeyFits(after, k) { FireKeepsKey(s, now, takes, timer, next, k); }
    case Finish(q, now) =>
      FinishKeepsEntries(s, q, now);
      FinishKeepsRequests(s, q, now);
      forall k ensures KeyFits(after, k) { FinishKeepsKey(s, q, now, k); }
  }

  ghost predicate Runs(s: State, run: seq<Event>)
    decreases |run|
  {
    run == [] || (Possible(s, run[0]) && Runs(Step(s, run[0]), run[1..]))
  }

  ghost function Run(s: State, run: seq<Event>): State
    requires Runs(s, run)
    decreases |run|
  {
    if run == [] then s else Run(Step(s, run[0]), run[1..])
  }

  lemma {:induction false} EveryRunKeeps(s: State, run: seq<Event>)
    requires Invariant(s) && Runs(s, run)
    ensures Invariant(Run(s, run))
    decreases |run|
  {
    if run != [] {
      hide Invariant, Step, Possible;
      StepKeeps(s, run[0]);
      EveryRunKeeps(Step(s, run[0]), run[1..]);
    }
  }

  lemma InitialFits(clock: int)
    ensures Invariant(Initial(clock))
  {
  }

  /** After any run from the start: an entry with nothing running has nothing sent and a timer that comes in time; no
      request carries more than a hundred ids; and every id taken in is waiting, sent or completed, each time once. */
  lemma EveryRunPolls(clock: int, run: seq<Event>, k: Key)
    requires Runs(Initial(clock), run)
    ensures var s := Run(Initial(clock), run); var r := EntryOf(s, k.peer);
            && (r.requestId == 0 ==> r.sent == {})
            && (r.requestId == 0 && r.ids != {} ==> s.timer.At? && s.timer.time <= r.when)
            && |r.sent| <= MAX_POLL_PER_REQUEST && r.ids !! r.sent
            && Count(s.accepted, k) == Count(s.completed, k) + One(k.msg in r.ids) + One(k.msg in r.sent)
  {
    InitialFits(clock);
    EveryRunKeeps(Initial(clock), run);
    hide Runs, Run, RequestsFit;
    var s := Run(Initial(clock), run);
    assert KeyFits(s, k) && (k.peer in s.entries ==> EntryFits(s, s.entries[k.peer]));
  }

  // ----- what each event does to the ids of one peer -----

  /** An id that neither waits nor is under way waits afterwards and is accepted once more; the first of an idle peer
      starts its half minute, and the timer is started if it is off. */
  lemma PollTakesIn(s: State, one: Key, now: int, k: Key)
    requires Possible(s, Poll(one, now))
    requires one.msg !in EntryOf(s, one.peer).ids && one.msg !in EntryOf(s, one.peer).sent
    ensures var after, was := Step(s, Poll(one, now)), EntryOf(s, one.peer);
            && one.peer in after.entries
            && EntryOf(after, one.peer)
               == Entry(if was.requestId == 0 && was.when == 0 then now + 30000 else was.when, was.requestId,
                        was.ids + {one.msg}, was.sent)
            && after.timer == (if s.timer.Off? then At(now + 30000) else s.timer)
            && Count(after.accepted, k) == Count(s.accepted, k) + (if k == one then 1 else 0)
            && after.completed == s.completed && after.onTheWay == s.onTheWay
            && forall p :: p != one.peer
                           ==> (p in after.entries <==> p in s.entries) && EntryOf(after, p) == EntryOf(s, p)
  {
    CountOfCounted(s.accepted, one.peer, {one.msg}, k);
    hide Counted;
  }

  /** One that waits or is under way already is not taken in again. */
  lemma PollKnown(s: State, one: Key, now: int)
    requires Possible(s, Poll(one, now))
    requires one.msg in EntryOf(s, one.peer).ids || one.msg in EntryOf(s, one.peer).sent
    ensures Step(s, Poll(one, now)) == s.(clock := now)
  {
  }

  /** The request carries the hundred smallest of these ids, or all if there are fewer. */
  ghost predicate Carries(q: Request, ids: set<MsgId>) {
    && q.ids <= ids && |q.ids| == (if |ids| < 100 then |ids| else 100)
    && forall a, b :: a in q.ids && b in ids - q.ids ==> a.id < b.id
  }

  /** A firing sends for each due peer one new request, and the rest of its ids waits on; the other peers stay. */
  lemma FiringSends(s: State, ev: Event, p: Peer)
    requires Possible(s, ev) && ev.Fire? && p in s.entries
    ensures var after, r := Step(s, ev), s.entries[p];
            && after.entries.Keys == s.entries.Keys
            && after.accepted == s.accepted && after.completed == s.completed
            && if r.requestId == 0 && r.when <= ev.now then
                 exists q :: && q !in s.onTheWay && q.peer == p && q.id >= s.next && Carries(q, r.ids)
                             && after.entries[p] == Entry(r.when, q.id, r.ids - q.ids, q.ids)
                             && q in after.onTheWay
               else after.entries[p] == r
    requires RequestsFit(s)
  {
    if p in ev.takes {
      var q := Request(ev.takes[p].requestId, p, ev.takes[p].part);
      assert q in Requests(ev.takes);
      assert q in s.onTheWay ==> Entered(s, q);
      assert Carries(q, s.entries[p].ids);
    }
    hide Remains, NextTimer, RequestsFit;
  }

  /** Nothing else goes out: a request on the way after a firing was there before, or is the one its entry has now. */
  lemma FiringSendsNoOther(s: State, ev: Event, q: Request)
    requires Possible(s, ev) && ev.Fire?
    ensures q in s.onTheWay ==> q in Step(s, ev).onTheWay
    ensures q in Step(s, ev).onTheWay && q !in s.onTheWay
            ==> && q.peer in s.entries && s.entries[q.peer].requestId == 0 && s.entries[q.peer].when <= ev.now
                && Step(s, ev).entries[q.peer].requestId == q.id && Step(s, ev).entries[q.peer].sent == q.ids
  {
    hide Remains, NextTimer, FirstOf;
  }

  /** An answer takes its request away and completes what it carried. The entry goes if nothing waits in it; otherwise it
      waits half a minute more, and the timer is started if it is off. All other entries stay. */
  lemma AnswerCompletes(s: State, q: Request, now: int, k: Key, p: Peer)
    requires Invariant(s) && Possible(s, Finish(q, now))
    ensures var after := Step(s, Finish(q, now)); var more := EntryOf(s, q.peer).ids;
            && after.onTheWay == s.onTheWay - {q} && after.accepted == s.accepted
            && Count(after.completed, k)
               == Count(s.completed, k) + (if k.peer == q.peer && k.msg in q.ids then 1 else 0)
            && (q.peer in after.entries <==> more != {})
            && (more != {} ==> after.entries[q.peer] == Entry(now + 30000, 0, more, {}))
            && (p != q.peer ==> (p in after.entries <==> p in s.entries) && EntryOf(after, p) == EntryOf(s, p))
            && after.timer == if more != {} && s.timer.Off? then At(now + 30000) else s.timer
  {
    CountOfCounted(s.completed, q.peer, q.ids, k);
    assert Entered(s, q);
    FinishedEntry(s, q, q.peer);
    if p in s.entries {
      FinishedEntry(s, q, p);
    }
    assert WaitsAgain(s.entries, q.id, s.entries.Keys) <==> EntryOf(s, q.peer).ids != {} by {
      forall o | o in s.entries ensures s.entries[o].requestId == q.id <==> o == q.peer {
        FinishedEntry(s, q, o);
      }
    }
    hide Counted, Invariant;
  }

  // ----- the object -----

  lemma FinishedOneMore(entries: map<Peer, Entry>, requestId: int, now: int, among: set<Peer>, p: Peer)
    requires p in entries && p !in among
    ensures p in FinishedEntries(entries, requestId, now, among)
    ensures FinishedEntries(FinishedEntries(entries, requestId, now, among), requestId, now, {p})
            == FinishedEntries(entries, requestId, now, among + {p})
    ensures WaitsAgain(FinishedEntries(entries, requestId, now, among), requestId, {p})
            <==> entries[p].requestId == requestId && entries[p].ids != {}
    ensures WaitsAgain(entries, requestId, among + {p})
            <==> WaitsAgain(entries, requestId, among) || (entries[p].requestId == requestId && entries[p].ids != {})
  {
  }

  /** The part of a due entry moves over to `sent`; the entry has no request yet. */
  function Moved(entries: map<Peer, Entry>, parts: map<Peer, set<MsgId>>): map<Peer, Entry> {
    map p | p in entries ::
      if p in parts then entries[p].(sent := parts[p], ids := entries[p].ids - parts[p]) else entries[p]
  }

  ghost predicate PartsFit(entries: map<Peer, Entry>, now: int, seen: set<Peer>, parts: map<Peer, set<MsgId>>) {
    && (forall p :: p in parts <==> p in seen && p in entries && Due(entries[p], now))
    && (forall p :: p in parts ==> FirstOf(entries[p].ids, parts[p]))
  }

  ghost predicate Behind(entries: map<Peer, Entry>, parts: map<Peer, set<MsgId>>) {
    exists p :: p in parts && p in entries && entries[p].ids != parts[p]
  }

  predicate Waits(r: Entry, now: int) {
    r.requestId == 0 && now < r.when
  }

  /** `nearest` as the pass keeps it: zero while no entry seen has to wait. */
  ghost predicate NearestFits(entries: map<Peer, Entry>, now: int, seen: set<Peer>, parts: map<Peer, set<MsgId>>,
                              nearest: int) {
    if Behind(entries, parts) then nearest == now
    else
      && (nearest == 0 <==> forall p :: p in seen && p in entries ==> !Waits(entries[p], now))
      && (nearest != 0
          ==> exists p :: p in seen && p in entries && Waits(entries[p], now) && entries[p].when == nearest)
      && (forall p :: p in seen && p in entries && Waits(entries[p], now) ==> nearest <= entries[p].when)
  }

  lemma DueOneMore(entries: map<Peer, Entry>, now: int, seen: set<Peer>, parts: map<Peer, set<MsgId>>, nearest: int,
                   p: Peer, part: set<MsgId>)
    requires 0 < now && p in entries && p !in seen && Due(entries[p], now) && FirstOf(entries[p].ids, part)
    requires PartsFit(entries, now, seen, parts) && NearestFits(entries, now, seen, parts, nearest)
    ensures PartsFit(entries, now, seen + {p}, parts[p := part])
    ensures NearestFits(entries, now, seen + {p}, parts[p := part], if part != entries[p].ids then now else nearest)
  {
    hide FirstOf;
    assert p !in parts;
    var more := parts[p := part];
    assert Behind(entries, more) <==> Behind(entries, parts) || part != entries[p].ids by {
      assert p in more;
      assert forall q :: q in parts ==> q in more && more[q] == parts[q];
    }
  }

  lemma LaterOneMore(entries: map<Peer, Entry>, now: int, seen: set<Peer>, parts: map<Peer, set<MsgId>>, nearest: int,
                     p: Peer)
    requires 0 < now && p in entries && p !in seen && !Due(entries[p], now)
    requires PartsFit(entries, now, seen, parts) && NearestFits(entries, now, seen, parts, nearest)
    ensures PartsFit(entries, now, seen + {p}, parts)
    ensures var when := entries[p].when;
            NearestFits(entries, now, seen + {p}, parts,
                        if Waits(entries[p], now) && (nearest == 0 || nearest > when) then when else nearest)
  {
    hide FirstOf;
    assert p in seen + {p};
  }

  /** The entries as the second pass leaves them: each part with the request it went out in. */
  function Numbered(entries: map<Peer, Entry>, takes: map<Peer, Take>): map<Peer, Entry> {
    map p | p in entries :: if p in takes then entries[p].(requestId := takes[p].requestId) else entries[p]
  }

  lemma TakeOneMore(s: State, takes: map<Peer, Take>, next: int, p: Peer, take: Take)
    requires FreshIds(s.next, takes, next) && p !in takes && p in s.entries && take.requestId == next
    ensures FreshIds(s.next, takes[p := take], next + 1)
    ensures Requests(takes[p := take]) == Requests(takes) + {Request(next, p, take.part)}
    ensures p in Numbered(s.entries, takes)
    ensures Numbered(s.entries, takes[p := take])
            == Numbered(s.entries, takes)[p := Numbered(s.entries, takes)[p].(requestId := next)]
  {
    var more := takes[p := take];
    assert p in more && forall o :: o in takes ==> o in more && more[o] == takes[o];
  }

  lemma PassTimer(s: State, now: int, parts: map<Peer, set<MsgId>>, nearest: int, takes: map<Peer, Take>)
    requires 0 < now && NearestFits(s.entries, now, s.entries.Keys, parts, nearest)
    requires takes.Keys == parts.Keys && forall p :: p in parts ==> takes[p].part == parts[p]
    ensures NextTimer(s, now, takes,
                      if nearest == 0 then Off else At(now + if nearest - now > 1 then nearest - now else 1))
  {
    assert Behind(s.entries, parts) <==> Remains(s, takes);
    assert forall p :: Later(s, p, now) <==> p in s.entries && Waits(s.entries[p], now);
  }

  /** What the code asserts before a due entry is sent: nothing of it is still under way. */
  lemma AssertHolds(s: State)
    requires Invariant(s)
    ensures forall p :: p in s.entries && s.entries[p].requestId == 0 ==> s.entries[p].sent == {}
  {
    hide TimerFits, RequestsFit, KeyFits;
    forall p | p in s.entries && s.entries[p].requestId == 0 ensures s.entries[p].sent == {} {
      assert EntryFits(s, s.entries[p]);
    }
  }

  lemma PassTakes(s: State, now: int, parts: map<Peer, set<MsgId>>, takes: map<Peer, Take>, next: int)
    requires PartsFit(s.entries, now, s.entries.Keys, parts)
    requires takes.Keys == parts.Keys && forall p :: p in parts ==> takes[p].part == parts[p]
    requires FreshIds(s.next, takes, next)
    ensures TakesFit(s, now, takes)
    ensures Numbered(Moved(s.entries, parts), takes) == TakenEntries(s.entries, takes)
  {
    hide FirstOf;
    forall p | p in takes ensures p in s.entries && Due(s.entries[p], now) && FirstOf(s.entries[p].ids, takes[p].part) {
      assert p in parts;
    }
  }

  class ViewsManager {
    var pollRequests: map<Peer, Entry>
    var pollTimer: Timer
    var nextRequestId: int
    ghost var clock: int
    ghost var onTheWay: set<Request>
    ghost var accepted: map<Key, nat>
    ghost var completed: map<Key, nat>

    /** The smallest of the ids. */
    static method Smallest(ids: set<MsgId>) returns (least: MsgId)
      requires ids != {}
      ensures least in ids && forall m :: m in ids ==> least.id <= m.id
    {
      least := Pick(ids);
      var rest := ids - {least};
      while rest != {}
        invariant rest <= ids && least in ids && forall m :: m in ids && m !in rest ==> least.id <= m.id
      {
        var m := Pick(rest);
        rest := rest - {m};
        if m.id < least.id {
          least := m;
        }
      }
    }

    static method TakeFirst(ids: set<MsgId>) returns (part: set<MsgId>)
      ensures FirstOf(ids, part)
    {
      if |ids| < MAX_POLL_PER_REQUEST {
        return ids;
      }
      part := {};
      while |part| < MAX_POLL_PER_REQUEST
        invariant part <= ids && |part| <= MAX_POLL_PER_REQUEST
        invariant forall a, b :: a in part && b in ids && b !in part ==> a.id < b.id
      {
        assert ids == part + (ids - part);
        var least := Smallest(ids - part);
        assert forall b :: b in ids - part && b != least ==> b.id != least.id;
        part := part + {least};
      }
    }

    ghost function View(): State
      reads this
    {
      State(pollRequests, pollTimer, nextRequestId, clock, onTheWay, accepted, completed)
    }

    constructor (ghost now: int)
      ensures View() == Initial(now) && Invariant(View())
    {
      pollRequests, pollTimer, nextRequestId := map[], Off, 1;
      clock, onTheWay, accepted, completed := now, {}, map[], map[];
    }

    method CallOnce(time: int)
      modifies `pollTimer
      ensures pollTimer == ArmedBy(old(pollTimer), time)
    {
      if pollTimer.Off? {
        pollTimer := At(time);
      }
    }

    method PollExtendedMedia(peer: Peer, id: MsgId, isRegular: bool, now: int)
      requires 0 < clock <= now
      modifies this
      ensures View() == if isRegular then Step(old(View()), Poll(Key(peer, id), now)) else old(View())
    {
      if !isRegular {
        return;
      }
      clock := now;
      var request := if peer in pollRequests then pollRequests[peer] else Entry(0, 0, {}, {});
      if id in request.ids || id in request.sent {
        return;
      }
      accepted := Counted(accepted, peer, {id});
      request := request.(ids := request.ids + {id});
      if request.requestId == 0 && request.when == 0 {
        request := request.(when := now + POLL_PERIOD);
      }
      pollRequests := pollRequests[peer := request];
      CallOnce(now + POLL_PERIOD);
    }

    /** The entries are gone through one by one; under the invariant one of them carries the answered request. */
    method FinishRequest(requestId: int, now: int, ghost q: Request)
      requires q.id == requestId && Possible(View(), Finish(q, now))
      modifies this
      ensures View() == Step(old(View()), Finish(q, now))
    {
      completed := Counted(completed, q.peer, q.ids);
      onTheWay := onTheWay - {q};
      clock := now;
      ghost var before := pollRequests;
      var rest := pollRequests.Keys;
      while rest != {}
        modifies `pollRequests, `pollTimer
        invariant rest <= before.Keys
        invariant pollRequests == FinishedEntries(before, requestId, now, before.Keys - rest)
        invariant pollTimer == if WaitsAgain(before, requestId, before.Keys - rest)
                               then ArmedBy(old(pollTimer), now + POLL_PERIOD) else old(pollTimer)
      {
        hide Counted;
        var peer := Pick(rest);
        DoneOneMore(before.Keys, rest, peer);
        FinishedOneMore(before, requestId, now, before.Keys - rest, peer);
        rest := rest - {peer};
        VisitFinished(peer, requestId, now);
      }
      assert before.Keys - rest == before.Keys;
    }

    method VisitFinished(peer: Peer, requestId: int, now: int)
      requires peer in pollRequests
      modifies `pollRequests, `pollTimer
      ensures pollRequests == FinishedEntries(old(pollRequests), requestId, now, {peer})
      ensures pollTimer == if WaitsAgain(old(pollRequests), requestId, {peer})
                           then ArmedBy(old(pollTimer), now + POLL_PERIOD) else old(pollTimer)
    {
      var request := pollRequests[peer];
      if request.requestId == requestId {
        request := request.(sent := {}, requestId := 0);
        if request.ids == {} {
          pollRequests := pollRequests - {peer};
        } else {
          pollRequests := pollRequests[peer := request.(when := now + POLL_PERIOD)];
          CallOnce(now + POLL_PERIOD);
        }
      }
    }

    method SendPollRequests(now: int) returns (ghost takes: map<Peer, Take>)
      requires Invariant(View()) && 0 < clock <= now && pollTimer.At? && pollTimer.time <= now
      modifies this
      ensures Possible(old(View()), Fire(now, takes, pollTimer, nextRequestId))
      ensures View() == Step(old(View()), Fire(now, takes, pollTimer, nextRequestId))
    {
      hide NearestFits, NextTimer, FirstOf, Requests, Invariant, TakesFit, PartsFit, Numbered, Moved, TakenEntries;
      hide FreshIds;
      AssertHolds(View());
      pollTimer := Off;
      clock := now;
      var toRequest, nearest := TakeParts(now);
      takes := SendBatched(toRequest);
      PassTimer(old(View()), now, toRequest, nearest, takes);
      PassTakes(old(View()), now, toRequest, takes, nextRequestId);
      if nearest != 0 {
        pollTimer := At(now + if nearest - now > 1 then nearest - now else 1);
      }
    }

    method TakeParts(now: int) returns (toRequest: map<Peer, set<MsgId>>, nearest: int)
      requires 0 < now && forall p :: p in pollRequests && pollRequests[p].requestId == 0 ==> pollRequests[p].sent == {}
      modifies `pollRequests
      ensures pollRequests == Moved(old(pollRequests), toRequest) && toRequest.Keys <= pollRequests.Keys
      ensures PartsFit(old(pollRequests), now, old(pollRequests).Keys, toRequest)
      ensures NearestFits(old(pollRequests), now, old(pollRequests).Keys, toRequest, nearest)
    {
      ghost var before := pollRequests;
      toRequest, nearest := map[], 0;
      var rest := pollRequests.Keys;
      while rest != {}
        invariant rest <= before.Keys
        invariant pollRequests == Moved(before, toRequest)
        invariant PartsFit(before, now, before.Keys - rest, toRequest)
        invariant NearestFits(before, now, before.Keys - rest, toRequest, nearest)
      {
        var peer := Pick(rest);
        DoneOneMore(before.Keys, rest, peer);
        toRequest, nearest := VisitEntry(peer, now, before, before.Keys - rest, toRequest, nearest);
        rest := rest - {peer};
      }
      assert before.Keys - rest == before.Keys;
    }

    method VisitEntry(peer: Peer, now: int, ghost before: map<Peer, Entry>, ghost seen: set<Peer>,
                      toRequest: map<Peer, set<MsgId>>, nearest: int)
      returns (requests: map<Peer, set<MsgId>>, soonest: int)
      requires 0 < now && peer in before && peer !in seen && (before[peer].requestId == 0 ==> before[peer].sent == {})
      requires pollRequests == Moved(before, toRequest)
      requires PartsFit(before, now, seen, toRequest) && NearestFits(before, now, seen, toRequest, nearest)
      modifies `pollRequests
      ensures pollRequests == Moved(before, requests)
      ensures PartsFit(before, now, seen + {peer}, requests)
      ensures NearestFits(before, now, seen + {peer}, requests, soonest)
    {
      var request := pollRequests[peer];
      requests, soonest := toRequest, nearest;
      hide NearestFits;
      assert peer !in toRequest && request == before[peer];
      if request.requestId != 0 {
        LaterOneMore(before, now, seen, toRequest, nearest, peer);
      } else if request.when <= now {
        assert request.sent == {};
        var part := TakeFirst(request.ids);
        DueOneMore(before, now, seen, toRequest, nearest, peer, part);
        assert part <= request.ids;
        hide PartsFit, FirstOf;
        request := request.(sent := part, ids := request.ids - part);
        pollRequests := pollRequests[peer := request];
        requests := toRequest[peer := part];
        assert request.ids != {} <==> part != before[peer].ids by {
          assert before[peer].ids == part + request.ids;
        }
        if request.ids != {} {
          soonest := now;
        }
      } else {
        LaterOneMore(before, now, seen, toRequest, nearest, peer);
        if nearest == 0 || nearest > request.when {
          soonest := request.when;
        }
      }
    }

    method SendBatched(batched: map<Peer, set<MsgId>>) returns (ghost takes: map<Peer, Take>)
      requires batched.Keys <= pollRequests.Keys
      modifies `pollRequests, `nextRequestId, `onTheWay
      ensures takes.Keys == batched.Keys && forall p :: p in takes ==> takes[p].part == batched[p]
      ensures FreshIds(old(nextRequestId), takes, nextRequestId)
      ensures pollRequests == Numbered(old(pollRequests), takes)
      ensures onTheWay == old(onTheWay) + Requests(takes)
    {
      takes := map[];
      ghost var before := View();
      var rest := batched.Keys;
      while rest != {}
        invariant rest <= batched.Keys && takes.Keys == batched.Keys - rest
        invariant forall p :: p in takes ==> takes[p].part == batched[p]
        invariant FreshIds(before.next, takes, nextRequestId)
        invariant pollRequests == Numbered(before.entries, takes)
        invariant onTheWay == before.onTheWay + Requests(takes)
      {
        var peer := Pick(rest);
        rest := rest - {peer};
        ghost var take := Take(batched[peer], nextRequestId);
        TakeOneMore(before, takes, nextRequestId, peer, take);
        hide Requests, FreshIds, Numbered;
        SendFor(peer, batched[peer]);
        takes := takes[peer := take];
      }
    }

    method SendFor(peer: Peer, ids: set<MsgId>)
      requires peer in pollRequests
      modifies `pollRequests, `nextRequestId, `onTheWay
      ensures pollRequests == old(pollRequests)[peer := old(pollRequests)[peer].(requestId := old(nextRequestId))]
      ensures nextRequestId == old(nextRequestId) + 1
      ensures onTheWay == old(onTheWay) + {Request(old(nextRequestId), peer, ids)}
    {
      onTheWay := onTheWay + {Request(nextRequestId, peer, ids)};
      pollRequests := pollRequests[peer := pollRequests[peer].(requestId := nextRequestId)];
      nextRequestId := nextRequestId + 1;
    }
  }
}
