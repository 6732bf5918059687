/**
 The requests of a save of sticker sets: one for each set that goes or comes back, and one for the order once all of
 these have been answered. A newer save of the same kind cancels what is still on the way.
 */
module StickerRequests {
  import Ordered
  import opened StickerSets

  /** A request to uninstall or install a set, or to reorder, and the save it was sent for. */
  datatype Request = Request(id: int, kind: Kind, save: nat)

  datatype Outcome = Opening | Waiting | Superseded | Finished

  datatype Save = Save(kind: Kind, size: nat, outcome: Outcome)

  /** `pending` and `reorderId` are what the object remembers, `onTheWay` and `reordering` what really is under way;
      `saves` are all saves so far, `reorders` those a reorder request was sent for. */
  datatype State = State(
    pending: map<Kind, set<int>>,
    reorderId: map<Kind, int>,
    next: int,
    onTheWay: set<Request>,
    reordering: set<Request>,
    saves: seq<Save>,
    reorders: seq<int>)

  function Pending(s: State, kind: Kind): set<int> {
    if kind in s.pending then s.pending[kind] else {}
  }

  function ReorderId(s: State, kind: Kind): int {
    if kind in s.reorderId then s.reorderId[kind] else 0
  }

  predicate Active(save: Save) {
    save.outcome == Opening || save.outcome == Waiting
  }

  // ----- the steps of a save -----

  function Superseding(saves: seq<Save>, kind: Kind): (after: seq<Save>)
    ensures |after| == |saves|
    ensures forall i :: 0 <= i < |saves| ==>
              after[i]
              == if saves[i].kind == kind && Active(saves[i]) then saves[i].(outcome := Superseded) else saves[i]
  {
    seq(|saves|, i requires 0 <= i < |saves| =>
      if saves[i].kind == kind && Active(saves[i]) then saves[i].(outcome := Superseded) else saves[i])
  }

  function OfOtherKinds(requests: set<Request>, kind: Kind): set<Request> {
    set q | q in requests && q.kind != kind
  }

  /** What an earlier save of the kind still has under way is cancelled. */
  function Begun(s: State, kind: Kind, size: nat): State {
    s.(pending := s.pending[kind := {}],
       reorderId := s.reorderId[kind := 0],
       onTheWay := OfOtherKinds(s.onTheWay, kind),
       reordering := OfOtherKinds(s.reordering, kind),
       saves := Superseding(s.saves, kind) + [Save(kind, size, Opening)])
  }

  function RequestSent(s: State, kind: Kind): State
    requires s.saves != []
  {
    s.(pending := s.pending[kind := Pending(s, kind) + {s.next}],
       next := s.next + 1,
       onTheWay := s.onTheWay + {Request(s.next, kind, |s.saves| - 1)})
  }

  function Requested(s: State, kind: Kind, n: nat): (after: State)
    requires s.saves != []
    ensures after.saves == s.saves && after.reorders == s.reorders
  {
    if n == 0 then s else RequestSent(Requested(s, kind, n - 1), kind)
  }

  function WithOutcome(s: State, save: nat, outcome: Outcome): State
    requires save < |s.saves|
  {
    s.(saves := s.saves[save := s.saves[save].(outcome := outcome)])
  }

  /** An order of fewer than two sets needs no request. */
  function OrderSaved(s: State, save: nat): State
    requires save < |s.saves|
  {
    var kind := s.saves[save].kind;
    if s.saves[save].size < 2 then s
    else
      s.(reorderId := s.reorderId[kind := s.next],
         next := s.next + 1,
         reordering := s.reordering + {Request(s.next, kind, save)},
         reorders := s.reorders + [save])
  }

  function Concluded(s: State, kind: Kind): State
    requires s.saves != []
  {
    var save := |s.saves| - 1;
    if Pending(s, kind) == {} then OrderSaved(WithOutcome(s, save, Finished), save) else WithOutcome(s, save, Waiting)
  }

  function Answered(s: State, q: Request): State
    requires q.save < |s.saves|
  {
    var after := s.(pending := s.pending[q.kind := Pending(s, q.kind) - {q.id}], onTheWay := s.onTheWay - {q});
    if Pending(after, q.kind) == {} then OrderSaved(WithOutcome(after, q.save, Finished), q.save) else after
  }

  function ReorderAnswered(s: State, q: Request): State {
    s.(reorderId := s.reorderId[q.kind := 0], reordering := s.reordering - {q})
  }

  // ----- runs -----

  datatype Event =
    | SaveSets(kind: Kind, size: nat, requests: nat)
    | SetAnswer(q: Request)
    | ReorderAnswer(q: Request)

  function Initial(): State {
    State(map[], map[], 1, {}, {}, [], [])
  }

  predicate Possible(s: State, ev: Event) {
    match ev
    case SaveSets(_, _, _) => true
    case SetAnswer(q) => q in s.onTheWay && q.save < |s.saves|
    case ReorderAnswer(q) => q in s.reordering
  }

  function Step(s: State, ev: Event): State
    requires Possible(s, ev)
  {
    match ev
    case SaveSets(kind, size, n) => Concluded(Requested(Begun(s, kind, size), kind, n), kind)
    case SetAnswer(q) => Answered(s, q)
    case ReorderAnswer(q) => ReorderAnswered(s, q)
  }

  // ----- what every run keeps -----

  /** A request on the way belongs to a save that still runs. */
  predicate RequestFits(s: State, q: Request) {
    && 0 < q.id < s.next
    && q.save < |s.saves| && s.saves[q.save].kind == q.kind && Active(s.saves[q.save])
  }

  function OfKind(requests: set<Request>, kind: Kind): set<Request> {
    set q | q in requests && q.kind == kind
  }

  function Ids(requests: set<Request>): set<int> {
    set q | q in requests :: q.id
  }

  /** What is remembered for a kind are the requests on the way. */
  predicate PendingFits(s: State, kind: Kind) {
    Pending(s, kind) == Ids(OfKind(s.onTheWay, kind))
  }

  ghost predicate RequestsFit(s: State) {
    && 0 < s.next
    && (forall q :: q in s.onTheWay ==> RequestFits(s, q))
    && (forall q, o :: q in s.onTheWay && o in s.onTheWay && q.id == o.id ==> q == o)
    && (forall k :: PendingFits(s, k))
  }

  /** One save of a kind runs at most, and while it does nothing of its kind is being reordered. */
  ghost predicate SavesFit(s: State) {
    && (forall m, n :: 0 <= m < n < |s.saves| && Active(s.saves[m]) && Active(s.saves[n])
                       ==> s.saves[m].kind != s.saves[n].kind)
    && (forall n, q :: 0 <= n < |s.saves| && Active(s.saves[n]) && q in s.reordering ==> q.kind != s.saves[n].kind)
    && (forall q, o :: q in s.reordering && o in s.reordering && q.kind == o.kind ==> q == o)
    && (forall q :: q in s.reordering ==> 0 < q.id == ReorderId(s, q.kind))
  }

  /** A save that waits has requests to wait for. */
  ghost predicate WaitingFits(s: State) {
    forall n :: 0 <= n < |s.saves| && s.saves[n].outcome == Waiting ==> Pending(s, s.saves[n].kind) != {}
  }

  function Times(reorders: seq<int>, n: int): nat {
    multiset(reorders)[n]
  }

  /** The order of a save is sent once if all its requests were answered, and else not at all. */
  predicate OrderFits(s: State, n: int) {
    Times(s.reorders, n)
    == if 0 <= n < |s.saves| && s.saves[n].outcome == Finished && s.saves[n].size >= 2 then 1 else 0
  }

  /** Between events no save is being put together. */
  ghost predicate NoneOpening(s: State) {
    forall n :: 0 <= n < |s.saves| ==> s.saves[n].outcome != Opening
  }

  ghost predicate Invariant(s: State) {
    RequestsFit(s) && SavesFit(s) && WaitingFits(s) && NoneOpening(s) && forall n :: OrderFits(s, n)
  }

  lemma BegunRequests(s: State, kind: Kind, size: nat)
    requires RequestsFit(s)
    ensures RequestsFit(Begun(s, kind, size))
  {
    var after := Begun(s, kind, size);
    forall q | q in after.onTheWay ensures RequestFits(after, q) {
      assert RequestFits(s, q);
    }
    forall k ensures PendingFits(after, k) {
      assert PendingFits(s, k);
      assert OfKind(after.onTheWay, k) == if k == kind then {} else OfKind(s.onTheWay, k);
    }
  }

  lemma BegunOpens(s: State, kind: Kind, size: nat)
    ensures OpeningLast(Begun(s, kind, size), kind)
    ensures var saves := Begun(s, kind, size).saves; saves[|saves| - 1].size == size
  {
  }

  lemma BegunSaves(s: State, kind: Kind, size: nat)
    requires SavesFit(s)
    ensures SavesFit(Begun(s, kind, size))
  {
  }

  lemma BegunWaiting(s: State, kind: Kind, size: nat)
    requires WaitingFits(s)
    ensures WaitingFits(Begun(s, kind, size))
  {
  }

  lemma BegunOrders(s: State, kind: Kind, size: nat, n: int)
    requires OrderFits(s, n)
    ensures OrderFits(Begun(s, kind, size), n)
  {
  }

  /** The last save is the one being put together. */
  predicate OpeningLast(s: State, kind: Kind) {
    s.saves != [] && s.saves[|s.saves| - 1].kind == kind && s.saves[|s.saves| - 1].outcome == Opening
  }

  lemma IdsOneMore(requests: set<Request>, q: Request, kind: Kind)
    ensures Ids(OfKind(requests + {q}, kind)) == Ids(OfKind(requests, kind)) + if q.kind == kind then {q.id} else {}
  {
    var more := OfKind(requests + {q}, kind);
    assert more == OfKind(requests, kind) + if q.kind == kind then {q} else {};
    if q.kind == kind {
      assert q in more;
    }
  }

  lemma IdsOneLess(requests: set<Request>, q: Request, kind: Kind)
    requires q in requests && forall o :: o in requests && o.id == q.id ==> o == q
    ensures Ids(OfKind(requests - {q}, kind)) == Ids(OfKind(requests, kind)) - if q.kind == kind then {q.id} else {}
  {
    assert OfKind(requests - {q}, kind) == OfKind(requests, kind) - {q};
  }

  lemma SentRequests(s: State, kind: Kind)
    requires RequestsFit(s) && OpeningLast(s, kind)
    ensures RequestsFit(RequestSent(s, kind))
  {
    hide Ids, OfKind;
    var after := RequestSent(s, kind);
    forall q | q in after.onTheWay ensures RequestFits(after, q) {
      if q in s.onTheWay {
        assert RequestFits(s, q);
      }
    }
    forall k ensures PendingFits(after, k) {
      assert PendingFits(s, k);
      IdsOneMore(s.onTheWay, Request(s.next, kind, |s.saves| - 1), k);
    }
    forall q | q in s.onTheWay ensures q.id < s.next {
      assert RequestFits(s, q);
    }
  }

  lemma SentSaves(s: State, kind: Kind)
    requires SavesFit(s) && s.saves != []
    ensures SavesFit(RequestSent(s, kind))
  {
    hide Active;
    var after := RequestSent(s, kind);
    forall q | q in after.reordering ensures 0 < q.id == ReorderId(after, q.kind) {
      assert 0 < q.id == ReorderId(s, q.kind);
    }
  }

  lemma SentWaiting(s: State, kind: Kind)
    requires WaitingFits(s) && s.saves != []
    ensures WaitingFits(RequestSent(s, kind))
  {
  }

  lemma {:induction false} RequestedKeeps(s: State, kind: Kind, n: nat)
    requires RequestsFit(s) && SavesFit(s) && WaitingFits(s) && OpeningLast(s, kind)
    ensures RequestsFit(Requested(s, kind, n)) && SavesFit(Requested(s, kind, n)) && WaitingFits(Requested(s, kind, n))
    ensures OpeningLast(Requested(s, kind, n), kind)
  {
    if n > 0 {
      var before := Requested(s, kind, n - 1);
      assert Requested(s, kind, n) == RequestSent(before, kind);
      hide RequestsFit, SavesFit, WaitingFits, Requested;
      assert OpeningLast(before, kind) ==> OpeningLast(RequestSent(before, kind), kind);
      hide RequestSent, OpeningLast;
      RequestedKeeps(s, kind, n - 1);
      SentRequests(before, kind);
      SentSaves(before, kind);
      SentWaiting(before, kind);
    }
  }

  // ----- the end of a save -----

  lemma OutcomeRequests(s: State, save: nat, outcome: Outcome)
    requires RequestsFit(s) && save < |s.saves|
    requires outcome == Waiting || Pending(s, s.saves[save].kind) == {}
    ensures RequestsFit(WithOutcome(s, save, outcome))
  {
    var after := WithOutcome(s, save, outcome);
    forall q | q in after.onTheWay ensures RequestFits(after, q) {
      assert RequestFits(s, q) && PendingFits(s, q.kind);
      assert q in OfKind(s.onTheWay, q.kind);
      assert q.id in Pending(s, q.kind);
    }
    forall k ensures PendingFits(after, k) {
      assert PendingFits(s, k);
    }
  }

  lemma OrderSavedRequests(s: State, save: nat)
    requires RequestsFit(s) && save < |s.saves|
    ensures RequestsFit(OrderSaved(s, save))
  {
    var after := OrderSaved(s, save);
    forall q | q in after.onTheWay ensures RequestFits(after, q) {
      assert RequestFits(s, q);
    }
    forall k ensures PendingFits(after, k) {
      assert PendingFits(s, k);
    }
  }

  /** A running save ends: it stops being active and may start its reordering. */
  lemma EndSaves(s: State, save: nat)
    requires SavesFit(s) && 0 < s.next && save < |s.saves| && Active(s.saves[save])
    ensures SavesFit(OrderSaved(WithOutcome(s, save, Finished), save))
  {
    var after := OrderSaved(WithOutcome(s, save, Finished), save);
    forall m, n | 0 <= m < n < |after.saves| && Active(after.saves[m]) && Active(after.saves[n])
      ensures after.saves[m].kind != after.saves[n].kind
    {
      assert m != save && n != save;
    }
    forall n | 0 <= n < |after.saves| && Active(after.saves[n])
      ensures s.saves[n].kind != s.saves[save].kind
    {
      assert n != save;
    }
  }

  ghost predicate OthersWait(s: State, save: nat) {
    forall n :: 0 <= n < |s.saves| && n != save && s.saves[n].outcome == Waiting ==> Pending(s, s.saves[n].kind) != {}
  }

  lemma EndWaiting(s: State, save: nat)
    requires OthersWait(s, save) && save < |s.saves|
    ensures WaitingFits(OrderSaved(WithOutcome(s, save, Finished), save))
  {
  }

  lemma EndOrders(s: State, save: nat, n: int)
    requires save < |s.saves| && s.saves[save].outcome != Finished && OrderFits(s, n)
    ensures OrderFits(OrderSaved(WithOutcome(s, save, Finished), save), n)
  {
  }

  lemma ConcludedKeeps(s: State, kind: Kind, n: int)
    requires RequestsFit(s) && SavesFit(s) && WaitingFits(s) && OrderFits(s, n) && OpeningLast(s, kind)
    ensures var after := Concluded(s, kind);
            RequestsFit(after) && SavesFit(after) && WaitingFits(after) && OrderFits(after, n)
  {
    var save := |s.saves| - 1;
    if Pending(s, kind) == {} {
      var ended := WithOutcome(s, save, Finished);
      OutcomeRequests(s, save, Finished);
      OrderSavedRequests(ended, save);
      EndSaves(s, save);
      EndWaiting(s, save);
      EndOrders(s, save, n);
      hide RequestsFit, SavesFit, WaitingFits, OrderFits;
    } else {
      OutcomeRequests(s, save, Waiting);
      hide RequestsFit;
      WaitsSaves(s, save);
    }
  }

  lemma WaitsSaves(s: State, save: nat)
    requires SavesFit(s) && save < |s.saves| && Active(s.saves[save])
    ensures SavesFit(WithOutcome(s, save, Waiting))
  {
    var after := WithOutcome(s, save, Waiting);
    assert forall i :: 0 <= i < |s.saves| ==>
             after.saves[i].kind == s.saves[i].kind && Active(after.saves[i]) == Active(s.saves[i]);
    hide Active;
    forall q | q in after.reordering ensures 0 < q.id == ReorderId(after, q.kind) {
      assert 0 < q.id == ReorderId(s, q.kind);
    }
  }

  function Released(s: State, q: Request): State {
    s.(pending := s.pending[q.kind := Pending(s, q.kind) - {q.id}], onTheWay := s.onTheWay - {q})
  }

  lemma ReleasedRequests(s: State, q: Request)
    requires RequestsFit(s) && q in s.onTheWay
    ensures RequestsFit(Released(s, q))
  {
    hide Ids, OfKind;
    var after := Released(s, q);
    forall o | o in after.onTheWay ensures RequestFits(after, o) {
      assert RequestFits(s, o);
    }
    forall k ensures PendingFits(after, k) {
      assert PendingFits(s, k);
      IdsOneLess(s.onTheWay, q, k);
    }
  }

  lemma ReleasedSaves(s: State, q: Request)
    requires SavesFit(s)
    ensures SavesFit(Released(s, q))
  {
    hide Active;
    forall o | o in s.reordering ensures 0 < o.id == ReorderId(Released(s, q), o.kind) {
      assert 0 < o.id == ReorderId(s, o.kind);
    }
  }

  lemma ReleasedWaiting(s: State, q: Request)
    requires SavesFit(s) && WaitingFits(s) && RequestFits(s, q)
    ensures OthersWait(Released(s, q), q.save)
    ensures Pending(Released(s, q), q.kind) != {} ==> WaitingFits(Released(s, q))
  {
    var after := Released(s, q);
    forall n | 0 <= n < |s.saves| && n != q.save && s.saves[n].outcome == Waiting
      ensures Pending(after, s.saves[n].kind) != {}
    {
      assert s.saves[n].kind != q.kind;
    }
  }

  lemma AnsweredKeeps(s: State, q: Request, n: int)
    requires RequestsFit(s) && SavesFit(s) && WaitingFits(s) && OrderFits(s, n) && q in s.onTheWay
    ensures q.save < |s.saves|
    ensures var after := Answered(s, q);
            RequestsFit(after) && SavesFit(after) && WaitingFits(after) && OrderFits(after, n)
  {
    assert RequestFits(s, q) && 0 < s.next;
    var released := Released(s, q);
    ReleasedRequests(s, q);
    ReleasedSaves(s, q);
    ReleasedWaiting(s, q);
    hide RequestsFit, SavesFit, WaitingFits, OthersWait;
    assert OrderFits(released, n);
    if Pending(released, q.kind) == {} {
      OutcomeRequests(released, q.save, Finished);
      OrderSavedRequests(WithOutcome(released, q.save, Finished), q.save);
      EndSaves(released, q.save);
      EndWaiting(released, q.save);
      EndOrders(released, q.save, n);
      hide OrderFits;
    }
  }

  lemma ReorderAnsweredKeeps(s: State, q: Request)
    requires RequestsFit(s) && SavesFit(s) && WaitingFits(s) && q in s.reordering
    ensures var after := ReorderAnswered(s, q); RequestsFit(after) && SavesFit(after) && WaitingFits(after)
  {
    var after := ReorderAnswered(s, q);
    forall o | o in after.onTheWay ensures RequestFits(after, o) {
      assert RequestFits(s, o);
    }
    forall k ensures PendingFits(after, k) {
      assert PendingFits(s, k);
    }
  }

  lemma NoneLeftOpening(s: State, ev: Event)
    requires NoneOpening(s) && Possible(s, ev)
    ensures NoneOpening(Step(s, ev))
  {
    if ev.SaveSets? {
      var requested := Requested(Begun(s, ev.kind, ev.size), ev.kind, ev.requests);
      assert forall n :: 0 <= n < |s.saves| ==> requested.saves[n].outcome != Opening;
      hide Requested;
    }
  }

  lemma StepKeeps(s: State, ev: Event)
    requires Invariant(s) && Possible(s, ev)
    ensures Invariant(Step(s, ev))
  {
    NoneLeftOpening(s, ev);
    hide NoneOpening;
    hide RequestsFit, SavesFit, WaitingFits;
    var after := Step(s, ev);
    match ev
    case SaveSets(kind, size, count) =>
      var begun := Begun(s, kind, size);
      BegunRequests(s, kind, size);
      BegunSaves(s, kind, size);
      BegunWaiting(s, kind, size);
      RequestedKeeps(begun, kind, count);
      var requested := Requested(begun, kind, count);
      hide Concluded, Begun, Requested;
      ConcludedKeeps(requested, kind, 0) by { BegunOrders(s, kind, size, 0); }
      forall n ensures OrderFits(after, n) {
        BegunOrders(s, kind, size, n);
        ConcludedKeeps(requested, kind, n);
      }
    case SetAnswer(q) =>
      hide Answered;
      forall n ensures OrderFits(after, n) && RequestsFit(after) && SavesFit(after) && WaitingFits(after) {
        AnsweredKeeps(s, q, n);
      }
      AnsweredKeeps(s, q, 0);
    case ReorderAnswer(q) =>
      ReorderAnsweredKeeps(s, q);
      forall n ensures OrderFits(after, n) {
        assert OrderFits(s, n);
      }
  }

  predicate Runs(s: State, run: seq<Event>)
    decreases |run|
  {
    run == [] || (Possible(s, run[0]) && Runs(Step(s, run[0]), run[1..]))
  }

  function Run(s: State, run: seq<Event>): State
    requires Runs(s, run)
    decreases |run|
  {
    if run == [] then s else Run(Step(s, run[0]), run[1..])
  }

  lemma {:induction false} EveryRunKeeps(s: State, run: seq<Event>)
    requires Invariant(s) && Runs(s, run)
    ensures Invariant(Run(s, run))
    decreases |run|
  {
    if run != [] {
      hide Invariant, Step, Possible;
      StepKeeps(s, run[0]);
      EveryRunKeeps(Step(s, run[0]), run[1..]);
    }
  }

  /** In every run a save waits, is superseded or is finished. It waits exactly while one of its requests is on the way.
      Its order is sent once if it is finished, which it is when all of them have been answered, and else not at all. */
  lemma EveryRunOrders(run: seq<Event>, n: int, q: Request)
    requires Runs(Initial(), run)
    ensures var s := Run(Initial(), run);
            && (Times(s.reorders, n) <= 1)
            && (0 <= n < |s.saves| ==>
                  && (Times(s.reorders, n) == 1 <==> s.saves[n].outcome == Finished && s.saves[n].size >= 2)
                  && (q in s.onTheWay && q.save == n ==> Active(s.saves[n]) && Times(s.reorders, n) == 0)
                  && s.saves[n].outcome != Opening
                  && (s.saves[n].outcome == Waiting
                      <==> exists o :: o in OfKind(s.onTheWay, s.saves[n].kind) && o.save == n))
            && (q in s.onTheWay ==> q.save < |s.saves|)
  {
    EveryRunKeeps(Initial(), run);
    var s := Run(Initial(), run);
    hide Run, Runs;
    assert OrderFits(s, n);
    if q in s.onTheWay {
      assert RequestFits(s, q);
    }
    if 0 <= n < |s.saves| {
      assert PendingFits(s, s.saves[n].kind);
    }
  }

  /** An outcome once reached is final, so a superseded save never has its order sent. */
  lemma OutcomeStays(s: State, ev: Event, n: nat)
    requires Invariant(s) && Possible(s, ev) && n < |s.saves|
    ensures n < |Step(s, ev).saves|
    ensures !Active(s.saves[n]) ==> Step(s, ev).saves[n] == s.saves[n]
  {
    match ev
    case SaveSets(kind, size, count) => hide Requested;
    case SetAnswer(q) => assert RequestFits(s, q);
    case ReorderAnswer(q) =>
  }

  lemma {:induction false} SupersededForever(s: State, run: seq<Event>, n: nat)
    requires Invariant(s) && Runs(s, run) && n < |s.saves| && s.saves[n].outcome == Superseded
    ensures n < |Run(s, run).saves| && Run(s, run).saves[n].outcome == Superseded && Times(Run(s, run).reorders, n) == 0
    decreases |run|
  {
    if run == [] {
      assert OrderFits(s, n);
    } else {
      OutcomeStays(s, run[0], n);
      StepKeeps(s, run[0]);
      hide Invariant, Step, Possible;
      SupersededForever(Step(s, run[0]), run[1..], n);
    }
  }

  /** A new save supersedes exactly the save of its kind that still runs. */
  lemma NewSaveSupersedes(s: State, kind: Kind, size: nat, requests: nat, n: nat)
    requires n < |s.saves|
    ensures var after := Step(s, SaveSets(kind, size, requests));
            && n < |after.saves|
            && after.saves[n].outcome
               == if s.saves[n].kind == kind && Active(s.saves[n]) then Superseded else s.saves[n].outcome
  {
    hide Requested;
  }

  // ----- what each event sends -----

  lemma {:induction false} RequestedExactly(s: State, kind: Kind, n: nat, q: Request)
    requires s.saves != []
    ensures var after := Requested(s, kind, n);
            && after.next == s.next + n && after.reordering == s.reordering && after.reorderId == s.reorderId
            && (q in after.onTheWay
                <==> || q in s.onTheWay
                     || (q.kind == kind && q.save == |s.saves| - 1 && s.next <= q.id < s.next + n))
            && (q.id in Pending(after, kind) <==> q.id in Pending(s, kind) || s.next <= q.id < s.next + n)
  {
    if n > 0 {
      var before, after := Requested(s, kind, n - 1), Requested(s, kind, n);
      assert after == RequestSent(before, kind) && before.saves == s.saves;
      hide *;
      OneSentExactly(before, kind, q);
      RequestedExactly(s, kind, n - 1, q);
    }
  }

  lemma OneSentExactly(s: State, kind: Kind, q: Request)
    requires s.saves != []
    ensures var after := RequestSent(s, kind);
            && after.next == s.next + 1 && after.reordering == s.reordering && after.reorderId == s.reorderId
            && (q in after.onTheWay <==> q in s.onTheWay || q == Request(s.next, kind, |s.saves| - 1))
            && (q.id in Pending(after, kind) <==> q.id in Pending(s, kind) || q.id == s.next)
  {
  }

  /** A save sends exactly its requests, under the next ids, and cancels all of its kind that were on the way. With any
      to wait for it waits; with none it is finished at once, and its order is sent if it has two sets or more. */
  lemma SaveSends(s: State, kind: Kind, size: nat, n: nat, q: Request)
    ensures var after := Step(s, SaveSets(kind, size, n)); var save := |s.saves|; var orders := n == 0 && size >= 2;
            && |after.saves| == save + 1
            && after.saves[save] == Save(kind, size, if n == 0 then Finished else Waiting)
            && (q in after.onTheWay
                <==> || (q in s.onTheWay && q.kind != kind)
                     || (q.kind == kind && q.save == save && s.next <= q.id < s.next + n))
            && after.reorders == s.reorders + (if orders then [save] else [])
            && (q in after.reordering
                <==> (q in s.reordering && q.kind != kind) || (orders && q == Request(s.next, kind, save)))
            && ReorderId(after, kind) == (if orders then s.next else 0)
            && after.next == s.next + n + (if orders then 1 else 0)
  {
    var begun := Begun(s, kind, size);
    RequestedExactly(begun, kind, n, q);
    NothingPending(s, kind, size, n);
    hide Requested;
  }

  lemma NothingPending(s: State, kind: Kind, size: nat, n: nat)
    ensures Pending(Requested(Begun(s, kind, size), kind, n), kind) == {} <==> n == 0
  {
    var begun := Begun(s, kind, size);
    RequestedExactly(begun, kind, n, Request(s.next, kind, 0));
    assert Pending(begun, kind) == {};
  }

  /** The answer to one request takes it away. It finishes its save, and sends the order if that has two sets or more,
      exactly if no other request of the save is on the way. */
  lemma AnswerFinishes(s: State, q: Request, n: nat)
    requires Invariant(s) && q in s.onTheWay && n < |s.saves|
    ensures q.save < |s.saves|
    ensures var after := Step(s, SetAnswer(q));
            var last := forall o :: o in s.onTheWay && o.save == q.save ==> o == q;
            var orders := last && s.saves[q.save].size >= 2;
            && after.onTheWay == s.onTheWay - {q} && |after.saves| == |s.saves|
            && after.saves[n] == (if n == q.save && last then s.saves[n].(outcome := Finished) else s.saves[n])
            && after.reorders == s.reorders + (if orders then [q.save] else [])
            && after.reordering == s.reordering + (if orders then {Request(s.next, q.kind, q.save)} else {})
            && ReorderId(after, q.kind) == (if orders then s.next else ReorderId(s, q.kind))
            && after.next == s.next + (if orders then 1 else 0)
  {
    assert RequestFits(s, q);
    LastOfItsSave(s, q);
    assert s.saves[q.save := s.saves[q.save]] == s.saves;
    hide Invariant;
  }

  lemma LastOfItsSave(s: State, q: Request)
    requires Invariant(s) && q in s.onTheWay
    ensures Pending(s, q.kind) - {q.id} == {} <==> forall o :: o in s.onTheWay && o.save == q.save ==> o == q
  {
    assert PendingFits(s, q.kind) && RequestFits(s, q);
    forall o | o in s.onTheWay ensures o.save == q.save <==> o.kind == q.kind {
      assert RequestFits(s, o);
    }
    forall o | o in s.onTheWay && o.save == q.save && o != q
      ensures o.id in Pending(s, q.kind) - {q.id}
    {
      assert o in OfKind(s.onTheWay, q.kind);
    }
    if Pending(s, q.kind) - {q.id} != {} {
      var i :| i in Pending(s, q.kind) - {q.id};
      var o :| o in OfKind(s.onTheWay, q.kind) && o.id == i;
      assert o in s.onTheWay && o.save == q.save && o != q;
    }
  }

  /** The answer to an order only ends the reordering. */
  lemma ReorderEnds(s: State, q: Request)
    requires Possible(s, ReorderAnswer(q))
    ensures var after := Step(s, ReorderAnswer(q));
            && after.reordering == s.reordering - {q} && ReorderId(after, q.kind) == 0
            && after.onTheWay == s.onTheWay && after.saves == s.saves && after.reorders == s.reorders
            && after.pending == s.pending && after.next == s.next
  {
  }

  // ----- the object -----

  /** The second pass after some of the sets. */
  function ClearedAmong(sets: map<SetId, StickerSet>, kind: Kind, among: set<SetId>): map<SetId, StickerSet> {
    map id | id in sets ::
      if id in among && !sets[id].flags.archived && KindOf(sets[id]) == kind then NotInstalled(sets[id]) else sets[id]
  }

  lemma ClearedOneMore(sets: map<SetId, StickerSet>, kind: Kind, among: set<SetId>, id: SetId)
    requires id in sets && id !in among
    ensures var before := ClearedAmong(sets, kind, among);
            && id in before && before[id] == sets[id]
            && ClearedAmong(sets, kind, among + {id})
               == if !sets[id].flags.archived && KindOf(sets[id]) == kind then before[id := NotInstalled(sets[id])]
                  else before
  {
  }

  /** The sweep after some of the sets. */
  function SweptAmong(sets: map<SetId, StickerSet>, among: set<SetId>): map<SetId, StickerSet> {
    map id | id in sets && (id in among ==> Kept(sets[id])) :: sets[id]
  }

  lemma RequestedKeepsSaves(s: State, kind: Kind, n: nat)
    requires s.saves != []
    ensures Requested(s, kind, n).saves == s.saves
  {
  }

  lemma OneMoreRequested(s: State, kind: Kind, n: nat)
    requires s.saves != []
    ensures Requested(s, kind, n + 1) == RequestSent(Requested(s, kind, n), kind)
  {
    hide RequestSent;
  }

  lemma {:induction false} RequestedBoth(s: State, kind: Kind, m: nat, n: nat)
    requires s.saves != []
    ensures Requested(Requested(s, kind, m), kind, n) == Requested(s, kind, m + n)
  {
    hide RequestSent;
    if n > 0 {
      hide Requested;
      RequestedBoth(s, kind, m, n - 1);
      OneMoreRequested(Requested(s, kind, m), kind, n - 1);
      OneMoreRequested(s, kind, m + n - 1);
    }
  }

  lemma OneMoreRemoved(st: Store, localRemoved: seq<SetId>, i: nat)
    requires i < |localRemoved|
    ensures Removed(st, localRemoved[..i + 1]) == RemovedOne(Removed(st, localRemoved[..i]), localRemoved[i])
  {
    hide RemovedOne;
    assert localRemoved[..i + 1][..i] == localRemoved[..i];
  }

  lemma OneMorePlaced(st: Store, localOrder: seq<SetId>, edit: Edit, i: nat)
    requires i < |localOrder|
    ensures PlacedAll(st, localOrder[..i + 1], edit)
            == PlacedOne(PlacedAll(st, localOrder[..i], edit), localOrder[i], edit)
  {
    hide PlacedOne;
    assert localOrder[..i + 1][..i] == localOrder[..i];
  }

  class StickersSaver {
    var sets: map<SetId, StickerSet>
    var recent: seq<Recent>
    var orders: map<Kind, seq<SetId>>
    var pending: map<Kind, set<int>>
    var reorderId: map<Kind, int>
    var nextRequestId: int
    ghost var uninstalls: seq<SetId>
    ghost var installs: seq<SetId>
    ghost var clears: seq<SetId>
    ghost var onTheWay: set<Request>
    ghost var reordering: set<Request>
    ghost var saves: seq<Save>
    ghost var reorders: seq<int>

    function OrderOf(kind: Kind): seq<SetId>
      reads this
    {
      if kind in orders then orders[kind] else []
    }

    ghost function OtherOrders(kind: Kind): map<Kind, seq<SetId>>
      reads this
    {
      orders - {kind}
    }

    /** The sets, seen from the kind that is being saved. */
    ghost function Sets(kind: Kind): Store
      reads this
    {
      Store(sets, recent, OrderOf(kind), uninstalls, installs, clears)
    }

    ghost function Requests(): State
      reads this
    {
      State(pending, reorderId, nextRequestId, onTheWay, reordering, saves, reorders)
    }

    constructor (sets: map<SetId, StickerSet>, recent: seq<Recent>, orders: map<Kind, seq<SetId>>)
      ensures Requests() == Initial() && Invariant(Requests())
      ensures this.sets == sets && this.recent == recent && this.orders == orders
    {
      this.sets, this.recent, this.orders := sets, recent, orders;
      pending, reorderId, nextRequestId := map[], map[], 1;
      uninstalls, installs, clears := [], [], [];
      onTheWay, reordering, saves, reorders := {}, {}, [], [];
    }

    method CancelEarlier(kind: Kind, size: nat)
      modifies `pending, `reorderId, `onTheWay, `reordering, `saves
      ensures Requests() == Begun(old(Requests()), kind, size)
    {
      onTheWay, reordering := OfOtherKinds(onTheWay, kind), OfOtherKinds(reordering, kind);
      saves := Superseding(saves, kind) + [Save(kind, size, Opening)];
      pending := pending[kind := {}];
      reorderId := reorderId[kind := 0];
    }

    method SendForSet(kind: Kind)
      requires saves != []
      modifies `pending, `nextRequestId, `onTheWay
      ensures Requests() == RequestSent(old(Requests()), kind)
    {
      onTheWay := onTheWay + {Request(nextRequestId, kind, |saves| - 1)};
      pending := pending[kind := (if kind in pending then pending[kind] else {}) + {nextRequestId}];
      nextRequestId := nextRequestId + 1;
    }

    method EraseRecent(stickers: set<Document>)
      modifies `recent
      ensures recent == Without(old(recent), stickers)
    {
      var all, kept: seq<Recent> := recent, [];
      for i := 0 to |all|
        invariant kept == Without(all[..i], stickers)
      {
        WithoutLast(all[..i], all[i], stickers);
        assert all[..i + 1] == all[..i] + [all[i]];
        if all[i].document !in stickers {
          kept := kept + [all[i]];
        }
      }
      assert all[..|all|] == all;
      recent := kept;
    }

    method RemoveFromOrder(kind: Kind, id: SetId)
      modifies `orders
      ensures OrderOf(kind) == WithoutFirst(old(OrderOf(kind)), id)
      ensures OtherOrders(kind) == old(OtherOrders(kind))
    {
      var order := OrderOf(kind);
      var removeIndex := 0;
      while removeIndex < |order| && order[removeIndex] != id
        invariant 0 <= removeIndex <= |order|
        invariant WithoutFirst(order, id) == order[..removeIndex] + WithoutFirst(order[removeIndex..], id)
      {
        removeIndex := removeIndex + 1;
      }
      if removeIndex < |order| {
        assert order[removeIndex..][1..] == order[removeIndex + 1..];
        orders := orders[kind := order[..removeIndex] + order[removeIndex + 1..]];
      } else {
        assert order[..removeIndex] + WithoutFirst(order[removeIndex..], id) == order;
      }
    }

    /** A set that is not archived gets its request and leaves the order, and the sets if nothing holds it. */
    method TakeOff(id: SetId, kind: Kind)
      requires saves != [] && id in sets
      modifies this
      ensures sets == if Held(old(sets)[id]) then old(sets)[id := Uninstalled(old(sets)[id])] else old(sets) - {id}
      ensures OrderOf(kind) == WithoutFirst(old(OrderOf(kind)), id) && OtherOrders(kind) == old(OtherOrders(kind))
      ensures uninstalls == old(uninstalls) + [id] && installs == old(installs)
      ensures recent == old(recent) && clears == old(clears)
      ensures Requests() == RequestSent(old(Requests()), kind)
    {
      SendForSet(kind);
      uninstalls := uninstalls + [id];
      RemoveFromOrder(kind, id);
      var s := sets[id];
      if !s.flags.featured && !s.flags.special && !s.flags.emoji && !(s.locked > 0) {
        sets := sets - {id};
      } else {
        sets := sets[id := s.(flags := s.flags.(installed := false, archived := false), installDate := 0)];
      }
    }

    method RemoveSet(id: SetId, kind: Kind)
      requires saves != []
      modifies this
      ensures Sets(kind) == RemovedOne(old(Sets(kind)), id) && OtherOrders(kind) == old(OtherOrders(kind))
      ensures Requests()
              == if |uninstalls| == |old(uninstalls)| then old(Requests()) else RequestSent(old(Requests()), kind)
      ensures |uninstalls| == |old(uninstalls)| || |uninstalls| == |old(uninstalls)| + 1
    {
      hide Without, WithoutFirst, RequestSent, Uninstalled, Held;
      if id == CLOUD_RECENT_SET || id == CLOUD_RECENT_ATTACHED_SET {
        sets := sets - {CLOUD_RECENT_SET, CLOUD_RECENT_ATTACHED_SET, CUSTOM_SET};
        recent := [];
        clears := clears + [id];
        return;
      }
      if id in sets {
        var s := sets[id];
        EraseRecent(s.stickers);
        if !s.flags.archived {
          TakeOff(id, kind);
        }
      }
    }

    method ClearInstalled(kind: Kind)
      modifies `sets
      ensures sets == Cleared(old(sets), kind)
    {
      ghost var before := sets;
      var rest := sets.Keys;
      while rest != {}
        invariant rest <= before.Keys && sets == ClearedAmong(before, kind, before.Keys - rest)
      {
        var id := Ordered.Pick(rest);
        Ordered.DoneOneMore(before.Keys, rest, id);
        ClearedOneMore(before, kind, before.Keys - rest, id);
        hide ClearedAmong;
        rest := rest - {id};
        var stickerSet := sets[id];
        if !stickerSet.flags.archived && KindOf(stickerSet) == kind {
          sets := sets[id := stickerSet.(flags := stickerSet.flags.(installed := false))];
        }
      }
      assert before.Keys - rest == before.Keys;
    }

    method PlaceSet(id: SetId, kind: Kind, edit: Edit)
      requires saves != []
      modifies this
      ensures Sets(kind) == PlacedOne(old(Sets(kind)), id, edit) && OtherOrders(kind) == old(OtherOrders(kind))
      ensures Requests()
              == if |installs| == |old(installs)| then old(Requests()) else RequestSent(old(Requests()), kind)
      ensures |installs| == |old(installs)| || |installs| == |old(installs)| + 1
    {
      hide RequestSent;
      if id in sets {
        var s := sets[id];
        var install := s.flags.archived && id !in edit.localRemoved;
        s := s.(flags := s.flags.(archived := s.flags.archived && !install, installed := true));
        if s.installDate == 0 {
          s := s.(installDate := edit.now);
        }
        assert s == Placed(sets[id], id in edit.localRemoved, edit.now);
        hide Placed;
        if install {
          SendForSet(kind);
          installs := installs + [id];
        }
        PutInOrder(id, kind, s);
      }
    }

    method PutInOrder(id: SetId, kind: Kind, s: StickerSet)
      modifies `orders, `sets
      ensures sets == old(sets)[id := s]
      ensures OrderOf(kind) == old(OrderOf(kind)) + [id] && OtherOrders(kind) == old(OtherOrders(kind))
    {
      orders := orders[kind := OrderOf(kind) + [id]];
      sets := sets[id := s];
    }

    method Sweep()
      modifies `sets
      ensures sets == Swept(old(sets))
    {
      ghost var before := sets;
      var rest := sets.Keys;
      while rest != {}
        invariant rest <= before.Keys && sets == SweptAmong(before, before.Keys - rest) && rest <= sets.Keys
      {
        var id := Ordered.Pick(rest);
        rest := rest - {id};
        if !Kept(sets[id]) {
          sets := sets - {id};
        }
      }
      assert before.Keys - rest == before.Keys;
    }

    method SaveOrder(kind: Kind, size: nat, ghost save: nat)
      requires save < |saves| && saves[save].kind == kind && saves[save].size == size
      modifies `reorderId, `nextRequestId, `reordering, `reorders
      ensures Requests() == OrderSaved(old(Requests()), save)
    {
      if size < 2 {
        return;
      }
      reorders := reorders + [save];
      reordering := reordering + {Request(nextRequestId, kind, save)};
      reorderId := reorderId[kind := nextRequestId];
      nextRequestId := nextRequestId + 1;
    }

    method RemoveAll(localRemoved: seq<SetId>, kind: Kind)
      requires saves != [] && uninstalls == []
      modifies this
      ensures Sets(kind) == Removed(old(Sets(kind)), localRemoved) && OtherOrders(kind) == old(OtherOrders(kind))
      ensures Requests() == Requested(old(Requests()), kind, |uninstalls|)
    {
      ghost var store, requests, others := Sets(kind), Requests(), OtherOrders(kind);
      for i := 0 to |localRemoved|
        invariant Sets(kind) == Removed(store, localRemoved[..i])
        invariant Requests() == Requested(requests, kind, |uninstalls|)
        invariant OtherOrders(kind) == others
      {
        hide RemovedOne, RequestSent, Removed, Requested;
        OneMoreRemoved(store, localRemoved, i);
        OneMoreRequested(requests, kind, |uninstalls|);
        RemoveSet(localRemoved[i], kind);
      }
      hide Removed, Requested;
      assert localRemoved[..|localRemoved|] == localRemoved;
    }

    method PlaceAll(localOrder: seq<SetId>, kind: Kind, edit: Edit)
      requires saves != [] && installs == []
      modifies this
      ensures Sets(kind) == PlacedAll(old(Sets(kind)), localOrder, edit) && OtherOrders(kind) == old(OtherOrders(kind))
      ensures Requests() == Requested(old(Requests()), kind, |installs|)
    {
      ghost var store, requests, others := Sets(kind), Requests(), OtherOrders(kind);
      for i := 0 to |localOrder|
        invariant Sets(kind) == PlacedAll(store, localOrder[..i], edit)
        invariant Requests() == Requested(requests, kind, |installs|)
        invariant OtherOrders(kind) == others
      {
        hide PlacedOne, RequestSent, PlacedAll, Requested;
        OneMorePlaced(store, localOrder, edit, i);
        OneMoreRequested(requests, kind, |installs|);
        PlaceSet(localOrder[i], kind, edit);
      }
      hide PlacedAll, Requested;
      assert localOrder[..|localOrder|] == localOrder;
    }

    method PassRemovals(edit: Edit)
      requires saves != []
      modifies this
      ensures Sets(edit.kind) == Removed(Started(old(Sets(edit.kind))), edit.localRemoved) && installs == []
      ensures OtherOrders(edit.kind) == old(OtherOrders(edit.kind))
      ensures Requests() == Requested(old(Requests()), edit.kind, |uninstalls|)
    {
      hide Removed, Requested;
      uninstalls, installs, clears := [], [], [];
      RemovedKeepsInstalls(Sets(edit.kind), edit.localRemoved);
      RemoveAll(edit.localRemoved, edit.kind);
    }

    method PassOrder(edit: Edit)
      requires saves != [] && installs == []
      modifies this
      ensures Sets(edit.kind) == Arranged(old(Sets(edit.kind)), edit) && uninstalls == old(uninstalls)
      ensures OtherOrders(edit.kind) == old(OtherOrders(edit.kind))
      ensures Requests() == Requested(old(Requests()), edit.kind, |installs|)
    {
      hide PlacedAll, Cleared, Swept, Requested;
      ClearInstalled(edit.kind);
      orders := orders[edit.kind := []];
      PlacedSets(Sets(edit.kind), edit.localOrder, edit, CUSTOM_SET);
      PlaceAll(edit.localOrder, edit.kind, edit);
      Sweep();
    }

    /** The three passes and the sweep; a request goes out for each set that goes or comes back. */
    method RunPasses(edit: Edit)
      requires saves != []
      modifies this
      ensures Sets(edit.kind) == Saved(old(Sets(edit.kind)), edit)
      ensures OtherOrders(edit.kind) == old(OtherOrders(edit.kind))
      ensures Requests() == Requested(old(Requests()), edit.kind, |uninstalls| + |installs|)
    {
      hide Removed, Arranged, Requested;
      ghost var before := Requests();
      PassRemovals(edit);
      RequestedKeepsSaves(before, edit.kind, |uninstalls|);
      ghost var sent := |uninstalls|;
      PassOrder(edit);
      RequestedBoth(before, edit.kind, sent, |installs|);
    }

    method Conclude(kind: Kind, size: nat)
      requires OpeningLast(Requests(), kind) && saves[|saves| - 1].size == size
      modifies `saves, `reorderId, `nextRequestId, `reordering, `reorders
      ensures Requests() == Concluded(old(Requests()), kind)
    {
      hide OrderSaved;
      ghost var save: nat := |saves| - 1;
      if kind !in pending || pending[kind] == {} {
        saves := saves[save := saves[save].(outcome := Finished)];
        SaveOrder(kind, size, save);
      } else {
        saves := saves[save := saves[save].(outcome := Waiting)];
      }
    }

    method SaveStickerSets(localOrder: seq<SetId>, localRemoved: seq<SetId>, kind: Kind, now: int)
      modifies this
      ensures Sets(kind) == Saved(old(Sets(kind)), Edit(localOrder, localRemoved, kind, now))
      ensures OtherOrders(kind) == old(OtherOrders(kind))
      ensures Requests() == Step(old(Requests()), SaveSets(kind, |localOrder|, |uninstalls| + |installs|))
    {
      hide Saved, Requested, Concluded, Begun;
      BegunOpens(Requests(), kind, |localOrder|);
      CancelEarlier(kind, |localOrder|);
      RunPasses(Edit(localOrder, localRemoved, kind, now));
      Conclude(kind, |localOrder|);
    }

    /** A request for a set was answered, well or not; `size` was captured when it was sent. */
    method SetDisenabled(requestId: int, kind: Kind, size: nat, ghost q: Request)
      requires Possible(Requests(), SetAnswer(q)) && q.id == requestId && q.kind == kind
      requires saves[q.save].kind == kind && saves[q.save].size == size
      modifies this
      ensures Requests() == Step(old(Requests()), SetAnswer(q))
      ensures sets == old(sets) && recent == old(recent) && orders == old(orders)
    {
      onTheWay := onTheWay - {q};
      pending := pending[kind := (if kind in pending then pending[kind] else {}) - {requestId}];
      if pending[kind] == {} {
        saves := saves[q.save := saves[q.save].(outcome := Finished)];
        SaveOrder(kind, size, q.save);
      }
    }

    method Reordered(kind: Kind, ghost q: Request)
      requires q in reordering && q.kind == kind
      modifies `reorderId, `reordering
      ensures Requests() == Step(old(Requests()), ReorderAnswer(q))
    {
      reorderId := reorderId[kind := 0];
      reordering := reordering - {q};
    }
  }
}
