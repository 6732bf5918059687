/**
 Coalescing of message data requests: callbacks gather under their message, one request per
 place asks for all messages not asked for yet, and its finalize runs what gathered under them.
 */
module MessageData {
  import opened Ordered

  /** Where a message lives: outside channels (the null channel of the source) or in one channel. */
  datatype Place = Plain | Channel(id: int)

  datatype MsgId = MsgId(id: int)

  datatype Key = Key(place: Place, msg: MsgId)

  datatype Callback = Callback(token: int)

  /** A request id of zero stands for "not asked for yet". */
  datatype Request = Request(requestId: int, callbacks: seq<Callback>)

  datatype Batch = Batch(place: Place, ids: seq<MsgId>)

  type Requests = map<MsgId, Request>

  /** What the object holds, its requests on the way, and per message every callback given and every callback run. */
  datatype State = State(
    entries: map<Key, Request>,
    scheduled: bool,
    next: int,
    inFlight: map<int, Batch>,
    given: map<Key, seq<Callback>>,
    ran: map<Key, seq<Callback>>)

  function At(log: map<Key, seq<Callback>>, k: Key): seq<Callback> {
    if k in log then log[k] else []
  }

  function Waiting(entries: map<Key, Request>, k: Key): seq<Callback> {
    if k in entries then entries[k].callbacks else []
  }

  // ----- the operations on values -----

  /** A callback joins the others of its message; a message nobody asked for yet gets a pass scheduled. */
  function Asked(s: State, k: Key, done: seq<Callback>): State {
    var was := if k in s.entries then s.entries[k] else Request(0, []);
    s.(entries := s.entries[k := was.(callbacks := was.callbacks + done)],
       scheduled := s.scheduled || was.requestId == 0,
       given := s.given[k := At(s.given, k) + done])
  }

  function TaggedWith(entries: map<Key, Request>, requestId: int): set<Key> {
    set k | k in entries && entries[k].requestId == requestId
  }

  /** The ids are those of exactly these messages, each once. */
  ghost predicate Lists(ids: seq<MsgId>, msgs: set<MsgId>) {
    (forall m :: m in ids <==> m in msgs) && |ids| == |msgs|
  }

  function Unsent(entries: map<Key, Request>, p: Place): set<MsgId> {
    set k | k in entries && k.place == p && entries[k].requestId <= 0 :: k.msg
  }

  /** One request for the messages of a place that nobody asked for yet, if there are any. */
  ghost predicate SentFor(s: State, s': State, p: Place) {
    if Unsent(s.entries, p) == {} then s' == s
    else
      && s.next in s'.inFlight
      && Lists(s'.inFlight[s.next].ids, Unsent(s.entries, p))
      && s' == s.(entries := Tagged(s.entries, p, s.next),
                  next := s.next + 1,
                  inFlight := s.inFlight[s.next := Batch(p, s'.inFlight[s.next].ids)])
  }

  function Tagged(entries: map<Key, Request>, p: Place, requestId: int): map<Key, Request> {
    map k | k in entries ::
      if k.place == p && entries[k].requestId <= 0 then entries[k].(requestId := requestId) else entries[k]
  }

  /** The callbacks under the messages of a request are run, and the messages leave. */
  function Finalized(s: State, requestId: int): State {
    var tagged := TaggedWith(s.entries, requestId);
    s.(entries := s.entries - tagged,
       inFlight := s.inFlight - {requestId},
       ran := map k | k in s.ran.Keys + tagged :: At(s.ran, k) + if k in tagged then s.entries[k].callbacks else [])
  }

  // ----- what every run keeps -----

  /** A message carries a request id exactly while that request is on the way, and then it is one of its ids. */
  ghost predicate TagsFit(s: State) {
    && (forall k :: k in s.entries ==> 0 <= s.entries[k].requestId)
    && (forall k :: k in s.entries && s.entries[k].requestId > 0 ==>
          var r := s.entries[k].requestId;
          r in s.inFlight && s.inFlight[r].place == k.place && k.msg in s.inFlight[r].ids)
    && (forall r :: r in s.inFlight ==> 0 < r < s.next)
    && (forall r, m :: r in s.inFlight && m in s.inFlight[r].ids ==>
          var k := Key(s.inFlight[r].place, m);
          k in s.entries && s.entries[k].requestId == r)
  }

  /** Every callback given was run or still waits, once, in the order in which it was given. */
  ghost predicate NoneLost(s: State) {
    forall k :: At(s.given, k) == At(s.ran, k) + Waiting(s.entries, k)
  }

  /** A message nobody asked for yet has a pass coming. */
  ghost predicate NoneForgotten(s: State) {
    forall k :: k in s.entries && s.entries[k].requestId == 0 ==> s.scheduled
  }

  ghost predicate AllAsked(entries: map<Key, Request>) {
    forall k :: k in entries ==> entries[k].requestId > 0
  }

  ghost predicate Invariant(s: State) {
    0 < s.next && TagsFit(s) && NoneLost(s) && NoneForgotten(s)
  }

  lemma AskedTagsFit(s: State, k: Key, done: seq<Callback>)
    requires TagsFit(s)
    ensures TagsFit(Asked(s, k, done))
  {
  }

  lemma AskedKeeps(s: State, k: Key, done: seq<Callback>)
    requires Invariant(s)
    ensures Invariant(Asked(s, k, done))
  {
    AskedTagsFit(s, k, done);
    var s' := Asked(s, k, done);
    hide TagsFit;
    forall j
      ensures At(s'.given, j) == At(s'.ran, j) + Waiting(s'.entries, j)
    {
      assert At(s.given, j) == At(s.ran, j) + Waiting(s.entries, j);
      if j == k {
        assert At(s.ran, k) + Waiting(s.entries, k) + done == At(s.ran, k) + (Waiting(s.entries, k) + done);
      }
    }
  }

  lemma UnsentMember(entries: map<Key, Request>, k: Key)
    requires k in entries
    ensures entries[k].requestId <= 0 <==> k.msg in Unsent(entries, k.place)
  {
    if k.msg in Unsent(entries, k.place) {
      var j :| j in entries && j.place == k.place && entries[j].requestId <= 0 && j.msg == k.msg;
      assert j == k;
    }
  }

  lemma SentForKeeps(s: State, s': State, p: Place)
    requires Invariant(s) && SentFor(s, s', p)
    ensures Invariant(s')
    ensures forall k :: k in s.entries ==> k in s'.entries && s'.entries[k].callbacks == s.entries[k].callbacks
    ensures forall k :: k in s'.entries ==> k in s.entries
    ensures forall k :: k in s'.entries ==>
              s'.entries[k].requestId
              == if k.place == p && s.entries[k].requestId == 0 then s.next else s.entries[k].requestId
  {
    if Unsent(s.entries, p) != {} {
      SentTagsFit(s, s', p);
      forall j
        ensures At(s'.given, j) == At(s'.ran, j) + Waiting(s'.entries, j)
      {
        assert At(s.given, j) == At(s.ran, j) + Waiting(s.entries, j);
      }
    } else {
      forall k | k in s.entries && k.place == p
        ensures s.entries[k].requestId != 0
      {
        UnsentMember(s.entries, k);
      }
    }
  }

  lemma SentTagsFit(s: State, s': State, p: Place)
    requires Invariant(s) && SentFor(s, s', p) && Unsent(s.entries, p) != {}
    ensures TagsFit(s')
  {
    forall k | k in s'.entries && s'.entries[k].requestId > 0
      ensures var r := s'.entries[k].requestId;
              r in s'.inFlight && s'.inFlight[r].place == k.place && k.msg in s'.inFlight[r].ids
    {
      UnsentMember(s.entries, k);
    }
    forall r, m | r in s'.inFlight && m in s'.inFlight[r].ids
      ensures var k := Key(s'.inFlight[r].place, m);
              k in s'.entries && s'.entries[k].requestId == r
    {
      if r == s.next {
        assert m in Unsent(s.entries, p);
      }
    }
  }

  lemma FinalizedTagsFit(s: State, requestId: int)
    requires TagsFit(s) && requestId > 0
    ensures TagsFit(Finalized(s, requestId))
  {
  }

  lemma FinalizedKeeps(s: State, requestId: int)
    requires Invariant(s) && requestId > 0
    ensures Invariant(Finalized(s, requestId))
  {
    FinalizedTagsFit(s, requestId);
    var s' := Finalized(s, requestId);
    hide TagsFit;
    forall j
      ensures At(s'.given, j) == At(s'.ran, j) + Waiting(s'.entries, j)
    {
      assert At(s.given, j) == At(s.ran, j) + Waiting(s.entries, j);
    }
  }

  // ----- runs -----

  datatype Event = Ask(k: Key, done: seq<Callback>) | SendFor(p: Place) | PassEnds | Finalize(requestId: int)

  function Initial(): State {
    State(map[], false, 1, map[], map[], map[])
  }

  /** One event. A pass sends place by place and ends once every message is asked for. */
  ghost predicate Step(s: State, ev: Event, s': State) {
    match ev
    case Ask(k, done) => s' == Asked(s, k, done)
    case SendFor(p) => SentFor(s, s', p)
    case PassEnds => AllAsked(s.entries) && s' == s.(scheduled := false)
    case Finalize(requestId) => requestId in s.inFlight && s' == Finalized(s, requestId)
  }

  ghost predicate Runs(states: seq<State>, events: seq<Event>) {
    && |states| == |events| + 1
    && forall i :: 0 <= i < |events| ==> Step(states[i], events[i], states[i + 1])
  }

  ghost predicate IsRun(states: seq<State>, events: seq<Event>) {
    Runs(states, events) && states[0] == Initial()
  }

  /** A run may be continued by any other that begins where it ends, such as that of a whole pass. */
  lemma RunGoesOn(states: seq<State>, events: seq<Event>, more: seq<State>, moreEvents: seq<Event>)
    requires IsRun(states, events) && Runs(more, moreEvents) && more[0] == states[|events|]
    ensures IsRun(states + more[1..], events + moreEvents)
    ensures (states + more[1..])[|events| + |moreEvents|] == more[|moreEvents|]
  {
    hide Step;
    var all := states + more[1..];
    forall i | 0 <= i < |events + moreEvents|
      ensures Step(all[i], (events + moreEvents)[i], all[i + 1])
    {
      if i >= |events| {
        assert all[i] == more[i - |events|] && all[i + 1] == more[i - |events| + 1];
        assert Step(more[i - |events|], moreEvents[i - |events|], more[i - |events| + 1]);
      }
    }
  }

  /** In every reachable state nothing given is lost, doubled or forgotten, and tags and requests agree. */
  lemma {:induction false} EveryRunKeeps(states: seq<State>, events: seq<Event>, n: nat)
    requires IsRun(states, events) && n < |states|
    ensures Invariant(states[n])
  {
    if n > 0 {
      EveryRunKeeps(states, events, n - 1);
      hide Invariant, Asked, SentFor, Finalized;
      assert Step(states[n - 1], events[n - 1], states[n]);
      match events[n - 1]
      case Ask(k, done) => AskedKeeps(states[n - 1], k, done);
      case SendFor(p) => SentForKeeps(states[n - 1], states[n], p);
      case PassEnds => PassEndKeeps(states[n - 1]);
      case Finalize(requestId) =>
        InFlightIsPositive(states[n - 1], requestId);
        FinalizedKeeps(states[n - 1], requestId);
    }
  }

  lemma PassEndKeeps(s: State)
    requires Invariant(s) && AllAsked(s.entries)
    ensures Invariant(s.(scheduled := false))
  {
    forall j
      ensures At(s.given, j) == At(s.ran, j) + Waiting(s.entries, j)
    {
    }
  }

  lemma InFlightIsPositive(s: State, requestId: int)
    requires Invariant(s) && requestId in s.inFlight
    ensures requestId > 0
  {
  }

  /** A finalize runs exactly what waits under the messages of its own request, and nothing of any other. */
  lemma FinalizeRunsItsOwn(s: State, requestId: int, k: Key)
    requires Invariant(s) && requestId in s.inFlight
    ensures var own := k.place == s.inFlight[requestId].place && k.msg in s.inFlight[requestId].ids;
            && At(Finalized(s, requestId).ran, k) == At(s.ran, k) + (if own then Waiting(s.entries, k) else [])
            && (own ==> k !in Finalized(s, requestId).entries)
            && (!own ==> Waiting(Finalized(s, requestId).entries, k) == Waiting(s.entries, k))
  {
    assert k in TaggedWith(s.entries, requestId)
      <==> k.place == s.inFlight[requestId].place && k.msg in s.inFlight[requestId].ids;
  }

  /** Once a message has left the table, everything ever given for it was run exactly once and in order. */
  lemma SettledRanAll(states: seq<State>, events: seq<Event>, n: nat, k: Key)
    requires IsRun(states, events) && n < |states| && k !in states[n].entries
    ensures At(states[n].ran, k) == At(states[n].given, k)
  {
    EveryRunKeeps(states, events, n);
    assert At(states[n].given, k) == At(states[n].ran, k) + Waiting(states[n].entries, k);
  }

  /** The callbacks that the events of a run give for a message, in their order. */
  function AskedFor(events: seq<Event>, k: Key): seq<Callback> {
    if events == [] then []
    else
      var last := events[|events| - 1];
      AskedFor(events[..|events| - 1], k) + if last.Ask? && last.k == k then last.done else []
  }

  /** What an event does to the callbacks of a message: those that are given join behind the ones that wait; the end of
      its own request runs all that wait; nothing else touches them. */
  lemma CallbacksAfter(s: State, ev: Event, s': State, k: Key)
    requires Invariant(s) && Step(s, ev, s')
    ensures var ends := && ev.Finalize? && s.inFlight[ev.requestId].place == k.place
                        && k.msg in s.inFlight[ev.requestId].ids;
            var more := if ev.Ask? && ev.k == k then ev.done else [];
            && Waiting(s'.entries, k) == (if ends then [] else Waiting(s.entries, k) + more)
            && At(s'.ran, k) == At(s.ran, k) + (if ends then Waiting(s.entries, k) else [])
            && At(s'.given, k) == At(s.given, k) + more
            && (k in s'.entries <==> (k in s.entries && !ends) || (ev.Ask? && ev.k == k))
  {
    hide Invariant, SentFor;
    match ev
    case Ask(_, _) =>
    case SendFor(p) =>
      SentForKeeps(s, s', p);
      SentForFrame(s, s', p);
    case PassEnds =>
    case Finalize(requestId) =>
      hide Finalized, Step;
      assert s' == Finalized(s, requestId) by { StepFinalizes(s, requestId, s'); }
      FinalizeRunsItsOwn(s, requestId, k);
      FinalizedGiven(s, requestId, k);
  }

  lemma StepFinalizes(s: State, requestId: int, s': State)
    requires Step(s, Finalize(requestId), s')
    ensures s' == Finalized(s, requestId)
  {
  }

  lemma FinalizedGiven(s: State, requestId: int, k: Key)
    requires Invariant(s) && requestId in s.inFlight
    ensures Finalized(s, requestId).given == s.given
    ensures k in Finalized(s, requestId).entries
            <==> k in s.entries && !(k.place == s.inFlight[requestId].place && k.msg in s.inFlight[requestId].ids)
  {
    assert k in TaggedWith(s.entries, requestId)
      <==> k.place == s.inFlight[requestId].place && k.msg in s.inFlight[requestId].ids;
  }

  /** Over every run all callbacks given for a message have been run or wait, in the order in which they were given. */
  lemma {:induction false} EveryCallbackIsKept(states: seq<State>, events: seq<Event>, n: nat, k: Key)
    requires IsRun(states, events) && n < |states|
    ensures At(states[n].ran, k) + Waiting(states[n].entries, k) == AskedFor(events[..n], k)
  {
    if n == 0 {
      assert AskedFor(events[..0], k) == [];
    } else {
      EveryRunKeeps(states, events, n - 1);
      EveryRunKeeps(states, events, n);
      EveryCallbackIsKept(states, events, n - 1, k);
      assert NoneLost(states[n - 1]) && NoneLost(states[n]) && Step(states[n - 1], events[n - 1], states[n]);
      assert events[..n][..n - 1] == events[..n - 1];
      hide Invariant, Step, IsRun;
      CallbacksAfter(states[n - 1], events[n - 1], states[n], k);
    }
  }

  /** What an event does to the requests on the way: a place with messages not asked for sends one, for exactly these
      messages, which from then on are asked for; the end of a request takes it away. */
  lemma RequestsAfter(s: State, ev: Event, s': State, r: int)
    requires Invariant(s) && Step(s, ev, s')
    ensures var sends := ev.SendFor? && exists k :: k in s.entries && k.place == ev.p && s.entries[k].requestId == 0;
            && s'.next == s.next + (if sends then 1 else 0)
            && (r in s'.inFlight
                <==> (r in s.inFlight && ev != Finalize(r)) || (sends && r == s.next))
            && (r in s.inFlight && r in s'.inFlight ==> s'.inFlight[r] == s.inFlight[r])
            && (sends && r == s.next ==>
                  && s'.inFlight[r].place == ev.p && s.next !in s.inFlight
                  && forall m :: m in s'.inFlight[r].ids
                                 <==> Key(ev.p, m) in s.entries && s.entries[Key(ev.p, m)].requestId == 0)
            && (s'.scheduled <==> if ev.Ask? then s.scheduled || ev.k !in s.entries || s.entries[ev.k].requestId == 0
                                  else s.scheduled && !ev.PassEnds?)
  {
    if ev.SendFor? {
      SendsExactly(s, s', ev.p);
    }
    hide TagsFit, NoneLost, NoneForgotten;
  }

  lemma SendsExactly(s: State, s': State, p: Place)
    requires Invariant(s) && SentFor(s, s', p)
    ensures s.next !in s.inFlight
    ensures Unsent(s.entries, p) != {}
            <==> exists k :: k in s.entries && k.place == p && s.entries[k].requestId == 0
    ensures forall m :: m in Unsent(s.entries, p)
                        <==> Key(p, m) in s.entries && s.entries[Key(p, m)].requestId == 0
  {
    forall m
      ensures m in Unsent(s.entries, p) <==> Key(p, m) in s.entries && s.entries[Key(p, m)].requestId == 0
    {
      if Key(p, m) in s.entries {
        UnsentMember(s.entries, Key(p, m));
      }
    }
    if k :| k in s.entries && k.place == p && s.entries[k].requestId == 0 {
      assert k == Key(p, k.msg) && k.msg in Unsent(s.entries, p);
    }
    if m :| m in Unsent(s.entries, p) {
      assert Key(p, m).place == p;
    }
  }

  // ----- the object -----

  function FlatKeys(requests: map<Place, Requests>): set<Key> {
    set p, m | p in requests && m in requests[p] :: Key(p, m)
  }

  /** The tables of all places as one. */
  function Flat(requests: map<Place, Requests>): map<Key, Request> {
    map k | k in FlatKeys(requests) :: requests[k.place][k.msg]
  }

  lemma FlatMember(requests: map<Place, Requests>, k: Key)
    ensures k in Flat(requests) <==> k.place in requests && k.msg in requests[k.place]
    ensures k in Flat(requests) ==> Flat(requests)[k] == requests[k.place][k.msg]
  {
  }

  /** What replacing the table of one place does to the whole. */
  lemma FlatReplaced(requests: map<Place, Requests>, p: Place, table: Requests, flat: map<Key, Request>)
    requires forall k :: k in flat <==> if k.place == p then k.msg in table else k in Flat(requests)
    requires forall k :: k in flat ==> flat[k] == if k.place == p then table[k.msg] else Flat(requests)[k]
    ensures Flat(requests[p := table]) == flat
  {
    hide Flat;
    var more := requests[p := table];
    forall k
      ensures k in Flat(more) <==> k in flat
      ensures k in flat ==> Flat(more)[k] == flat[k]
    {
      FlatMember(requests, k);
      FlatMember(more, k);
    }
  }

  lemma AddedReplaces(requests: map<Place, Requests>, k: Key, request: Request, table: Requests)
    requires table == TableOf(requests, k.place)[k.msg := request]
    ensures Flat(requests[k.place := table]) == Flat(requests)[k := request]
  {
    hide Flat;
    forall j
      ensures j in Flat(requests)[k := request] <==> if j.place == k.place then j.msg in table else j in Flat(requests)
      ensures j in Flat(requests)[k := request] ==>
                Flat(requests)[k := request][j] == if j.place == k.place then table[j.msg] else Flat(requests)[j]
    {
      FlatMember(requests, j);
    }
    FlatReplaced(requests, k.place, table, Flat(requests)[k := request]);
  }

  /** What a callback does to the tables. */
  lemma AskedTables(s: State, requests: map<Place, Requests>, k: Key, done: seq<Callback>, was: Request,
                    table: Requests)
    requires s.entries == Flat(requests)
    requires was == if k.msg in TableOf(requests, k.place) then TableOf(requests, k.place)[k.msg] else Request(0, [])
    requires table == TableOf(requests, k.place)[k.msg := was.(callbacks := was.callbacks + done)]
    ensures Asked(s, k, done)
            == s.(entries := Flat(requests[k.place := table]), scheduled := s.scheduled || was.requestId == 0,
                  given := s.given[k := At(s.given, k) + done])
  {
    hide Flat;
    FlatMember(requests, k);
    AddedReplaces(requests, k, table[k.msg], table);
  }

  lemma FlatDropped(requests: map<Place, Requests>, p: Place)
    ensures Flat(requests - {p}) == Flat(requests[p := map[]])
  {
    hide Flat;
    forall k
      ensures k in Flat(requests - {p}) <==> k in Flat(requests[p := map[]])
      ensures k in Flat(requests - {p}) ==> Flat(requests - {p})[k] == Flat(requests[p := map[]])[k]
    {
      FlatMember(requests - {p}, k);
      FlatMember(requests[p := map[]], k);
    }
  }

  function UnsentIn(table: Requests): set<MsgId> {
    set m | m in table && table[m].requestId <= 0
  }

  lemma UnsentOfPlace(requests: map<Place, Requests>, p: Place)
    requires p in requests
    ensures Unsent(Flat(requests), p) == UnsentIn(requests[p])
  {
    forall m
      ensures m in Unsent(Flat(requests), p) <==> m in UnsentIn(requests[p])
    {
      FlatMember(requests, Key(p, m));
      if m in UnsentIn(requests[p]) {
        UnsentMember(Flat(requests), Key(p, m));
      }
    }
  }

  method CollectMessageIds(table: Requests) returns (ids: seq<MsgId>)
    ensures Lists(ids, UnsentIn(table))
  {
    ids := [];
    var rest := table.Keys;
    ghost var unsent := UnsentIn(table);
    NothingListed();
    assert unsent - rest == {};
    hide Lists;
    while rest != {}
      invariant rest <= table.Keys && Lists(ids, unsent - rest)
      decreases rest
    {
      var m := Pick(rest);
      SelectedOneMore(unsent, rest, m);
      if table[m].requestId <= 0 {
        ListsOneMore(ids, unsent - rest, m);
        ids := ids + [m];
      }
      rest := rest - {m};
    }
    assert unsent - rest == unsent;
  }

  lemma NothingListed()
    ensures Lists([], {})
  {
  }

  class Requester {
    var requests: map<Place, Requests>
    var resolveDelayed: bool
    var nextRequestId: int
    ghost var inFlight: map<int, Batch>
    ghost var given: map<Key, seq<Callback>>
    ghost var ran: map<Key, seq<Callback>>

    ghost function View(): State
      reads this
    {
      State(Flat(requests), resolveDelayed, nextRequestId, inFlight, given, ran)
    }

    ghost predicate Valid()
      reads this
    {
      Plain in requests && Invariant(View())
    }

    constructor ()
      ensures Valid() && View() == Initial()
    {
      requests, resolveDelayed, nextRequestId := map[Plain := map[]], false, 1;
      inFlight, given, ran := map[], map[], map[];
      new;
      assert Flat(requests) == map[];
    }

    method RequestMessageData(p: Place, m: MsgId, done: seq<Callback>)
      requires Valid()
      modifies this
      ensures Valid() && View() == Asked(old(View()), Key(p, m), done)
    {
      hide Flat, Invariant, Asked;
      ghost var k := Key(p, m);
      AskedKeeps(View(), k, done);
      var table := if p in requests then requests[p] else map[];
      var request := if m in table then table[m] else Request(0, []);
      var more := table[m := request.(callbacks := request.callbacks + done)];
      AskedTables(View(), requests, k, done, request, more);
      requests := requests[p := more];
      given := given[k := At(given, k) + done];
      if request.requestId == 0 {
        resolveDelayed := true;
      }
    }

    /** The request for one place, and the tagging of what it asks for. */
    method SendPlace(p: Place)
      requires p in requests && 0 < nextRequestId
      modifies this
      ensures SentFor(old(View()), View(), p) && requests.Keys == old(requests).Keys && 0 < nextRequestId
    {
      hide Flat;
      var table := requests[p];
      var ids := CollectMessageIds(table);
      UnsentOfPlace(requests, p);
      if ids != [] {
        var requestId := nextRequestId;
        nextRequestId := nextRequestId + 1;
        inFlight := inFlight[requestId := Batch(p, ids)];
        var tagged := map m | m in table ::
          if table[m].requestId > 0 then table[m] else table[m].(requestId := requestId);
        TagsReplaced(requests, p, requestId, tagged);
        requests := requests[p := tagged];
      } else {
        assert |UnsentIn(table)| == 0;
      }
    }

    method VisitChannel(c: Place)
      requires c in requests && c != Plain && 0 < nextRequestId
      modifies this
      ensures SentFor(old(View()), View(), c) && 0 < nextRequestId
      ensures old(requests).Keys - {c} <= requests.Keys <= old(requests).Keys
    {
      if requests[c] == map[] {
        UnsentOfPlace(requests, c);
        EmptyDropped(requests, c);
        hide Flat, Unsent;
        requests := requests - {c};
      } else {
        SendPlace(c);
      }
    }

    /** Place by place, in whatever order the table gives the channels. Channels whose table ran empty are dropped. */
    method SendChannels(ghost before: seq<State>, ghost done: seq<Place>)
      returns (ghost states: seq<State>, ghost places: seq<Place>)
      requires Plain in requests && 0 < nextRequestId
      requires SendsEach(before, done) && before[|done|] == View() && EachOnce(done, {Plain})
      modifies this
      ensures Plain in requests && requests.Keys <= old(requests).Keys
      ensures SendsEach(states, places) && states[0] == before[0] && states[|places|] == View()
      ensures EachOnce(places, old(requests).Keys)
    {
      states, places := before, done;
      assert |before| == |done| + 1;
      hide SentFor, Flat, SendsEach, EachOnce;
      ghost var all := requests.Keys;
      var rest := requests.Keys - {Plain};
      assert all - rest == {Plain};
      while rest != {}
        invariant 0 < nextRequestId && Plain in requests && Plain !in rest && rest <= requests.Keys <= all
        invariant |states| == |places| + 1 && states[0] == before[0] && states[|places|] == View()
        invariant SendsEach(states, places) && EachOnce(places, all - rest)
        decreases rest
      {
        var c := Pick(rest);
        DoneOneMore(all, rest, c);
        VisitChannel(c);
        states, places := SendsOneMore(states, places, View(), c, all - rest);
        rest := rest - {c};
      }
      assert all - rest == all;
    }

    /** The messages outside channels come first. */
    method SendPlaces() returns (ghost states: seq<State>, ghost places: seq<Place>)
      requires Plain in requests && 0 < nextRequestId
      modifies this
      ensures Plain in requests && requests.Keys <= old(requests).Keys
      ensures SendsEach(states, places) && states[0] == old(View()) && states[|places|] == View()
      ensures EachOnce(places, old(requests).Keys)
    {
      states, places := [View()], [];
      assert SendsEach(states, places) && EachOnce(places, {});
      hide SentFor, Flat, EachOnce;
      SendPlace(Plain);
      states, places := SendsOneMore(states, places, View(), Plain, {});
      assert {} + {Plain} == {Plain};
      states, places := SendChannels(states, places);
    }

    /** A pass over all places: a run that sends for each of them once and then ends. */
    method ResolveMessageDatas() returns (ghost states: seq<State>, ghost places: seq<Place>)
      requires Valid()
      modifies this
      ensures Valid()
      ensures Runs(states, PassEvents(places)) && EachOnce(places, old(requests).Keys)
      ensures states[0] == old(View()) && states[|places| + 1] == View()
      ensures Passed(old(View()), View().(scheduled := old(resolveDelayed)), old(requests).Keys)
      ensures !resolveDelayed && AllAsked(View().entries)
    {
      assert 0 < nextRequestId;
      states, places := SendPlaces();
      SendsPass(states, places, |places|);
      assert Places(places[..|places|]) == old(requests).Keys;
      hide Invariant, Passed, Flat, AllAsked;
      PassDone(old(View()), View(), requests, old(requests).Keys);
      PassedSaveFlag(old(View()), View(), old(requests).Keys);
      PassEndKeeps(View());
      resolveDelayed := false;
      PassIsRun(states, places, View());
      states := states + [View()];
    }

    /** Runs the callbacks gathered under the messages of one request, in the order in which it visits them. */
    method FinalizeMessageDataRequest(p: Place, requestId: int)
      returns (callbacks: seq<Callback>, ghost order: seq<MsgId>)
      requires Valid() && requestId in inFlight && inFlight[requestId].place == p
      modifies this
      ensures Valid() && View() == Finalized(old(View()), requestId)
      ensures Lists(order, TaggedIn(TableOf(old(requests), p), requestId))
      ensures callbacks == Gathered(TableOf(old(requests), p), order)
    {
      hide Invariant, Flat, Lists, Gathered, Finalized, Remaining, RanAlso, TaggedIn, TableOf;
      InFlightIsPositive(View(), requestId);
      FinalizedKeeps(View(), requestId);
      RemainingIsFinalized(View(), requests, p, requestId);
      ghost var s, was, table := View(), requests, TableOf(requests, p);
      callbacks, order := TakeOut(p, requestId);
      inFlight := inFlight - {requestId};
      RanIsFinalized(s, was, p, requestId, order);
      ran := RanAlso(ran, p, table, order);
      assert View() == Finalized(s, requestId);
    }

    method TakeOut(p: Place, requestId: int) returns (callbacks: seq<Callback>, ghost order: seq<MsgId>)
      requires p !in requests ==> TaggedIn(TableOf(requests, p), requestId) == {}
      modifies this`requests
      ensures requests == Remaining(old(requests), p, requestId)
      ensures Lists(order, TaggedIn(TableOf(old(requests), p), requestId))
      ensures callbacks == Gathered(TableOf(old(requests), p), order)
    {
      hide Lists, Gathered, TaggedIn;
      NothingTaken(TableOf(requests, p));
      callbacks, order := [], [];
      if p in requests {
        var left;
        left, callbacks, order := TakeTagged(requests[p], requestId);
        DropOrReplace(p, left, requestId);
      }
    }

    method DropOrReplace(p: Place, left: Requests, ghost requestId: int)
      requires p in requests && left == requests[p] - TaggedIn(requests[p], requestId)
      modifies this`requests
      ensures requests == Remaining(old(requests), p, requestId)
    {
      if p != Plain && left == map[] {
        requests := requests - {p};
      } else {
        requests := requests[p := left];
      }
    }
  }

  /** The log once the callbacks under the messages of `order` have been run. */
  function RanAlso(ran: map<Key, seq<Callback>>, p: Place, table: Requests, order: seq<MsgId>): map<Key, seq<Callback>>
  {
    map k | k in ran.Keys + KeysAt(p, order) ::
      At(ran, k) + if k.place == p && k.msg in order && k.msg in table then table[k.msg].callbacks else []
  }

  function KeysAt(p: Place, order: seq<MsgId>): set<Key> {
    set m | m in order :: Key(p, m)
  }

  lemma TakenAt(s: State, requests: map<Place, Requests>, p: Place, requestId: int, order: seq<MsgId>, k: Key)
    requires Invariant(s) && s.entries == Flat(requests)
    requires requestId in s.inFlight && s.inFlight[requestId].place == p
    requires Lists(order, TaggedIn(TableOf(requests, p), requestId))
    ensures k in KeysAt(p, order) <==> k in TaggedWith(s.entries, requestId)
    ensures k in KeysAt(p, order) <==> k.place == p && k.msg in order
    ensures k in KeysAt(p, order)
            ==> && k.msg in TableOf(requests, p)
                && TableOf(requests, p)[k.msg].callbacks == s.entries[k].callbacks
  {
    TaggedOfPlace(s, requests, p, requestId);
    assert k in KeysAt(p, order) <==> k == Key(p, k.msg) && k.msg in order;
    hide Invariant, Flat, TaggedWith, KeysAt;
    FlatMember(requests, k);
  }

  lemma RanIsFinalized(s: State, requests: map<Place, Requests>, p: Place, requestId: int, order: seq<MsgId>)
    requires Invariant(s) && s.entries == Flat(requests)
    requires requestId in s.inFlight && s.inFlight[requestId].place == p
    requires Lists(order, TaggedIn(TableOf(requests, p), requestId))
    ensures RanAlso(s.ran, p, TableOf(requests, p), order) == Finalized(s, requestId).ran
  {
    hide Invariant, Flat, Lists, TaggedIn, TaggedWith, KeysAt;
    var also, table := RanAlso(s.ran, p, TableOf(requests, p), order), TableOf(requests, p);
    var ran := Finalized(s, requestId).ran;
    forall k
      ensures k in also <==> k in ran
      ensures k in also ==> also[k] == ran[k]
    {
      TakenAt(s, requests, p, requestId, order, k);
    }
  }

  /** The tables once the messages of a request of one place are taken out. */
  function Remaining(requests: map<Place, Requests>, p: Place, requestId: int): map<Place, Requests> {
    if p !in requests then requests
    else
      var left := requests[p] - TaggedIn(requests[p], requestId);
      if p != Plain && left == map[] then requests - {p} else requests[p := left]
  }

  lemma RemainingIsFinalized(s: State, requests: map<Place, Requests>, p: Place, requestId: int)
    requires Invariant(s) && s.entries == Flat(requests) && Plain in requests
    requires requestId in s.inFlight && s.inFlight[requestId].place == p
    ensures Plain in Remaining(requests, p, requestId)
    ensures p !in requests
            ==> Remaining(requests, p, requestId) == requests && TaggedIn(TableOf(requests, p), requestId) == {}
    ensures Finalized(s, requestId) == State(Flat(Remaining(requests, p, requestId)), s.scheduled, s.next,
                                             s.inFlight - {requestId}, s.given, Finalized(s, requestId).ran)
  {
    TaggedOfPlace(s, requests, p, requestId);
    hide Flat, Invariant;
    if p in requests {
      var left := requests[p] - TaggedIn(requests[p], requestId);
      TagsRemoved(s, requests, p, requestId, left);
      hide TaggedIn, TaggedWith;
      FlatDropped(requests, p);
    } else {
      assert TaggedWith(s.entries, requestId) == {};
      assert s.entries - {} == s.entries;
    }
  }

  function TableOf(requests: map<Place, Requests>, p: Place): Requests {
    if p in requests then requests[p] else map[]
  }

  function TaggedIn(table: Requests, requestId: int): set<MsgId> {
    set m | m in table && table[m].requestId == requestId
  }

  /** The loop over the table of one place: what carries the request id is taken out and its callbacks are kept. */
  method TakeTagged(table: Requests, requestId: int)
    returns (left: Requests, callbacks: seq<Callback>, ghost order: seq<MsgId>)
    ensures left == table - TaggedIn(table, requestId)
    ensures Lists(order, TaggedIn(table, requestId)) && callbacks == Gathered(table, order)
  {
    left, callbacks, order := table, [], [];
    var rest := table.Keys;
    ghost var tagged := TaggedIn(table, requestId);
    hide Lists, Gathered;
    NothingTaken(table);
    assert tagged - rest == {};
    while rest != {}
      invariant rest <= table.Keys && left == table - (tagged - rest)
      invariant Lists(order, tagged - rest) && callbacks == Gathered(table, order)
      decreases rest
    {
      var m := Pick(rest);
      SelectedOneMore(tagged, rest, m);
      if left[m].requestId == requestId {
        callbacks := if callbacks == [] then left[m].callbacks else callbacks + left[m].callbacks;
        ListsOneMore(order, tagged - rest, m);
        GatheredOneMore(table, order, m);
        left, order := left - {m}, order + [m];
      }
      rest := rest - {m};
    }
    assert tagged - rest == tagged;
  }

  lemma NothingTaken(table: Requests)
    ensures Lists([], {}) && Gathered(table, []) == []
  {
  }

  lemma ListsOneMore(ids: seq<MsgId>, msgs: set<MsgId>, m: MsgId)
    requires Lists(ids, msgs) && m !in msgs
    ensures Lists(ids + [m], msgs + {m})
  {
  }

  lemma GatheredOneMore(table: Requests, order: seq<MsgId>, m: MsgId)
    requires m in table
    ensures Gathered(table, order + [m]) == Gathered(table, order) + table[m].callbacks
    ensures Gathered(table, order) == [] ==> Gathered(table, order + [m]) == table[m].callbacks
  {
    assert (order + [m])[..|order|] == order;
  }

  /** Everything tagged with a request of one place is in the table of that place. */
  lemma TaggedOfPlace(s: State, requests: map<Place, Requests>, p: Place, requestId: int)
    requires Invariant(s) && s.entries == Flat(requests)
    requires requestId in s.inFlight && s.inFlight[requestId].place == p
    ensures forall k :: k in TaggedWith(s.entries, requestId)
              <==> k.place == p && k.msg in TaggedIn(TableOf(requests, p), requestId)
  {
    forall k
      ensures k in TaggedWith(s.entries, requestId)
              <==> k.place == p && k.msg in TaggedIn(TableOf(requests, p), requestId)
    {
      FlatMember(requests, k);
    }
  }

  lemma TagsRemoved(s: State, requests: map<Place, Requests>, p: Place, requestId: int, left: Requests)
    requires s.entries == Flat(requests) && p in requests && left == requests[p] - TaggedIn(requests[p], requestId)
    requires forall k :: k in TaggedWith(s.entries, requestId)
                         <==> k.place == p && k.msg in TaggedIn(requests[p], requestId)
    ensures Flat(requests[p := left]) == Finalized(s, requestId).entries
  {
    hide Flat;
    var flat := Finalized(s, requestId).entries;
    forall k
      ensures k in flat <==> if k.place == p then k.msg in left else k in Flat(requests)
      ensures k in flat ==> flat[k] == if k.place == p then left[k.msg] else Flat(requests)[k]
    {
      FlatMember(requests, k);
    }
    FlatReplaced(requests, p, left, flat);
  }

  /** The callbacks of these messages of one table, one after the other. */
  function Gathered(table: Requests, order: seq<MsgId>): seq<Callback>
    decreases |order|
  {
    if order == [] then []
    else
      var m := order[|order| - 1];
      Gathered(table, order[..|order| - 1]) + if m in table then table[m].callbacks else []
  }

  lemma TagsReplaced(requests: map<Place, Requests>, p: Place, requestId: int, tagged: Requests)
    requires p in requests
    requires tagged == map m | m in requests[p] ::
                         if requests[p][m].requestId > 0 then requests[p][m]
                         else requests[p][m].(requestId := requestId)
    ensures Flat(requests[p := tagged]) == Tagged(Flat(requests), p, requestId)
  {
    hide Flat;
    var flat := Tagged(Flat(requests), p, requestId);
    forall k
      ensures k in flat <==> if k.place == p then k.msg in tagged else k in Flat(requests)
      ensures k in flat ==> flat[k] == if k.place == p then tagged[k.msg] else Flat(requests)[k]
    {
      FlatMember(requests, k);
    }
    FlatReplaced(requests, p, tagged, flat);
  }

  lemma EmptyDropped(requests: map<Place, Requests>, p: Place)
    requires p in requests && requests[p] == map[]
    ensures Flat(requests - {p}) == Flat(requests)
  {
    FlatDropped(requests, p);
    assert requests[p := map[]] == requests;
  }

  /** A pass leaves callbacks and requests on the way alone, and leaves nothing unasked where it was. */
  ghost predicate EntryPassed(was: Request, now: Request, visited: bool) {
    && now.callbacks == was.callbacks
    && (was.requestId > 0 || !visited ==> now == was)
    && (visited ==> now.requestId > 0)
  }

  /** A message that a pass comes to before anybody asked for it. */
  predicate Fresh(s: State, done: set<Place>, k: Key) {
    k in s.entries && s.entries[k].requestId <= 0 && k.place in done
  }

  /** The messages a pass asks for get new ids, the same one exactly if they are of one place. */
  ghost predicate OnePerPlace(s: State, s': State, done: set<Place>)
    requires s'.entries.Keys == s.entries.Keys
  {
    && s.next <= s'.next
    && (forall k :: Fresh(s, done, k) ==> k in s'.entries && s.next <= s'.entries[k].requestId < s'.next)
    && (forall k, j :: Fresh(s, done, k) && Fresh(s, done, j)
                       ==> (s'.entries[k].requestId == s'.entries[j].requestId <==> k.place == j.place))
  }

  /** What a pass has done once it was at the places of `done`. */
  ghost predicate Passed(s: State, s': State, done: set<Place>) {
    && s'.entries.Keys == s.entries.Keys
    && s'.scheduled == s.scheduled && s'.given == s.given && s'.ran == s.ran
    && (forall k :: k in s.entries ==> EntryPassed(s.entries[k], s'.entries[k], k.place in done))
    && OnePerPlace(s, s', done)
    && (forall r :: r in s.inFlight ==> r in s'.inFlight && s'.inFlight[r] == s.inFlight[r])
  }

  lemma PassBegins(s: State)
    ensures Passed(s, s, {})
  {
  }

  lemma SentForFrame(s: State, s': State, p: Place)
    requires Invariant(s) && SentFor(s, s', p)
    ensures s'.entries.Keys == s.entries.Keys
    ensures s'.scheduled == s.scheduled && s'.given == s.given && s'.ran == s.ran
    ensures forall r :: r in s.inFlight ==> r in s'.inFlight && s'.inFlight[r] == s.inFlight[r]
    ensures forall k :: k in s.entries && (k.place != p || s.entries[k].requestId > 0) ==> s'.entries[k] == s.entries[k]
  {
    assert Tagged(s.entries, p, s.next).Keys == s.entries.Keys;
  }

  lemma EntryGoesOn(s: State, was: State, s': State, done: set<Place>, p: Place, k: Key)
    requires Invariant(was) && SentFor(was, s', p) && k in s.entries && k in was.entries
    requires EntryPassed(s.entries[k], was.entries[k], k.place in done)
    ensures k in s'.entries && EntryPassed(s.entries[k], s'.entries[k], k.place in done + {p})
  {
    SentForKeeps(was, s', p);
    SentForFrame(was, s', p);
  }

  lemma IdBelowNext(s: State, k: Key)
    requires Invariant(s) && k in s.entries
    ensures 0 <= s.entries[k].requestId < s.next
  {
  }

  lemma SentMovesNext(s: State, s': State, p: Place, k: Key)
    requires SentFor(s, s', p) && k in s.entries
    ensures s.next <= s'.next
    ensures k.place == p && s.entries[k].requestId <= 0 ==> s.next < s'.next
  {
    if k.place == p && s.entries[k].requestId <= 0 {
      UnsentMember(s.entries, k);
    }
  }

  lemma FreshId(s: State, was: State, s': State, done: set<Place>, p: Place, k: Key)
    requires Invariant(was) && Passed(s, was, done) && SentFor(was, s', p) && p !in done && Fresh(s, done + {p}, k)
    ensures k in was.entries && k in s'.entries
    ensures s'.entries[k].requestId == if k.place == p then was.next else was.entries[k].requestId
    ensures k.place == p ==> was.next < s'.next
    ensures k.place != p ==> Fresh(s, done, k) && was.entries[k].requestId < was.next
    ensures was.next <= s'.next
  {
    assert k in was.entries.Keys && EntryPassed(s.entries[k], was.entries[k], k.place in done);
    hide OnePerPlace, Passed;
    SentForKeeps(was, s', p);
    IdBelowNext(was, k);
    SentMovesNext(was, s', p, k);
    hide Invariant, SentFor;
  }

  lemma OnePerPlaceAt(s: State, was: State, done: set<Place>, k: Key, j: Key)
    requires was.entries.Keys == s.entries.Keys && OnePerPlace(s, was, done) && Fresh(s, done, k)
    ensures k in was.entries && s.next <= was.entries[k].requestId < was.next
    ensures Fresh(s, done, j)
            ==> j in was.entries && (was.entries[k].requestId == was.entries[j].requestId <==> k.place == j.place)
  {
  }

  /** Two messages the pass has come to, the second place included. */
  lemma FreshPair(s: State, was: State, s': State, done: set<Place>, p: Place, k: Key, j: Key)
    requires Invariant(was) && Passed(s, was, done) && SentFor(was, s', p) && p !in done
    requires Fresh(s, done + {p}, k) && Fresh(s, done + {p}, j)
    ensures k in s'.entries && j in s'.entries && s.next <= s'.entries[k].requestId < s'.next
    ensures s'.entries[k].requestId == s'.entries[j].requestId <==> k.place == j.place
  {
    FreshId(s, was, s', done, p, k);
    FreshId(s, was, s', done, p, j);
    assert OnePerPlace(s, was, done) && s.next <= was.next;
    hide Invariant, Passed, SentFor, Fresh, OnePerPlace;
    if k.place != p {
      OnePerPlaceAt(s, was, done, k, j);
    }
    if j.place != p {
      OnePerPlaceAt(s, was, done, j, k);
    }
  }

  lemma OnePerPlaceGoesOn(s: State, was: State, s': State, done: set<Place>, p: Place)
    requires Invariant(was) && Passed(s, was, done) && SentFor(was, s', p) && p !in done
    requires s'.entries.Keys == s.entries.Keys
    ensures OnePerPlace(s, s', done + {p})
  {
    assert s.next <= was.next <= s'.next;
    hide Invariant, Passed, SentFor, Fresh;
    forall k, j | Fresh(s, done + {p}, k) && Fresh(s, done + {p}, j)
      ensures k in s'.entries && j in s'.entries && s.next <= s'.entries[k].requestId < s'.next
      ensures s'.entries[k].requestId == s'.entries[j].requestId <==> k.place == j.place
    {
      FreshPair(s, was, s', done, p, k, j);
    }
  }

  lemma PassGoesOn(s: State, was: State, s': State, done: set<Place>, p: Place)
    requires Invariant(was) && Passed(s, was, done) && SentFor(was, s', p) && p !in done
    ensures Passed(s, s', done + {p})
  {
    SentForFrame(was, s', p);
    OnePerPlaceGoesOn(s, was, s', done, p);
    hide OnePerPlace;
    forall k | k in s.entries
      ensures k in s'.entries && EntryPassed(s.entries[k], s'.entries[k], k.place in done + {p})
    {
      assert k in was.entries.Keys;
      EntryGoesOn(s, was, s', done, p, k);
    }
    hide Invariant, SentFor, EntryPassed;
  }

  // ----- a whole pass is a run -----

  ghost predicate SendsEach(states: seq<State>, places: seq<Place>) {
    && |states| == |places| + 1
    && forall i :: 0 <= i < |places| ==> SentFor(states[i], states[i + 1], places[i])
  }

  /** The places are those of `all`, each once. */
  ghost predicate EachOnce(places: seq<Place>, all: set<Place>) {
    && (forall p :: p in places <==> p in all)
    && (forall i, j :: 0 <= i < j < |places| ==> places[i] != places[j])
  }

  function Places(places: seq<Place>): set<Place> {
    set p | p in places
  }

  function PassEvents(places: seq<Place>): seq<Event> {
    seq(|places|, i requires 0 <= i < |places| => SendFor(places[i])) + [PassEnds]
  }

  ghost method SendsOneMore(states: seq<State>, places: seq<Place>, s': State, p: Place, done: set<Place>)
    returns (more: seq<State>, morePlaces: seq<Place>)
    requires SendsEach(states, places) && SentFor(states[|places|], s', p) && EachOnce(places, done) && p !in done
    ensures more == states + [s'] && morePlaces == places + [p]
    ensures SendsEach(more, morePlaces) && EachOnce(morePlaces, done + {p})
  {
    more, morePlaces := states + [s'], places + [p];
    hide SentFor;
  }

  /** Sending for some places one after the other is a pass over them. */
  lemma {:induction false} SendsPass(states: seq<State>, places: seq<Place>, n: nat)
    requires SendsEach(states, places) && n <= |places| && Invariant(states[0])
    requires forall i, j :: 0 <= i < j < |places| ==> places[i] != places[j]
    ensures Invariant(states[n]) && Passed(states[0], states[n], Places(places[..n]))
  {
    hide SentFor, Invariant, Passed;
    if n == 0 {
      PassBegins(states[0]);
      assert Places(places[..0]) == {};
    } else {
      SendsPass(states, places, n - 1);
      SentForKeeps(states[n - 1], states[n], places[n - 1]);
      PassGoesOn(states[0], states[n - 1], states[n], Places(places[..n - 1]), places[n - 1]);
      assert Places(places[..n]) == Places(places[..n - 1]) + {places[n - 1]};
    }
  }

  lemma PassIsRun(states: seq<State>, places: seq<Place>, last: State)
    requires SendsEach(states, places)
    requires AllAsked(states[|places|].entries) && last == states[|places|].(scheduled := false)
    ensures Runs(states + [last], PassEvents(places))
  {
    hide SentFor, AllAsked;
  }

  lemma PassedSaveFlag(s: State, s': State, all: set<Place>)
    requires Passed(s, s', all)
    ensures Passed(s, s'.(scheduled := false).(scheduled := s.scheduled), all)
  {
  }

  lemma PassDone(s: State, s': State, requests: map<Place, Requests>, all: set<Place>)
    requires Passed(s, s', all) && s'.entries == Flat(requests) && requests.Keys <= all
    ensures AllAsked(s'.entries)
  {
    forall k | k in s'.entries
      ensures k.place in all
    {
      FlatMember(requests, k);
    }
  }
}
