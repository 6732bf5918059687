/**
 Loading the dialogs of each folder in two parts: the list, page by page, and the pinned ones.
 A load state lives until both parts arrived.
 */
module DialogsLoad {

  /** The main list (the null folder of the source) or a folder. */
  datatype Folder = Main | Folder(id: int)

  datatype LoadState = LoadState(
    offsetDate: int,
    offsetId: int,
    offsetPeer: int,
    requestId: int,
    listReceived: bool,
    pinnedRequestId: int,
    pinnedReceived: bool)

  /** One load state among those a folder ever had, by its number. */
  datatype Load = Load(folder: Folder, number: nat)

  /** A page of the list: the server may send all of it, or a slice, which gives the offset of the next page. */
  datatype ListResult = NotModified | AllDialogs | Slice(lastDate: int, lastPeer: int, lastMsgId: int)

  datatype State = State(
    loads: map<Folder, LoadState>,
    started: map<Folder, nat>,
    listInFlight: map<int, Load>,
    pinnedInFlight: map<int, Load>,
    next: int,
    posted: seq<Load>)

  // ----- the operations on values -----

  const FRESH := LoadState(0, 0, 0, 0, false, 0, false)

  function Started(s: State, f: Folder): nat {
    if f in s.started then s.started[f] else 0
  }

  /** The load state of a folder in use. */
  function Current(s: State, f: Folder): Load {
    Load(f, Started(s, f))
  }

  /** A load state with both parts goes, and the end of the loading is posted. */
  function Finished(s: State, f: Folder): State {
    if f !in s.loads || !s.loads[f].listReceived || !s.loads[f].pinnedReceived then s
    else s.(loads := s.loads - {f}, posted := s.posted + [Current(s, f)])
  }

  function PinnedRequested(s: State, f: Folder): State {
    if f !in s.loads || s.loads[f].pinnedReceived || s.loads[f].pinnedRequestId != 0 then s
    else s.(loads := s.loads[f := s.loads[f].(pinnedRequestId := s.next)],
            pinnedInFlight := s.pinnedInFlight[s.next := Current(s, f)],
            next := s.next + 1)
  }

  function MoreRequested(s: State, f: Folder, blocked: bool): State {
    if f !in s.loads || s.loads[f].requestId != 0 || blocked then s
    else
      var sent := s.(loads := s.loads[f := s.loads[f].(requestId := s.next)],
                     listInFlight := s.listInFlight[s.next := Current(s, f)],
                     next := s.next + 1);
      if sent.loads[f].pinnedReceived then sent else PinnedRequested(sent, f)
  }

  function DialogsRequested(s: State, f: Folder, blocked: bool): State {
    var started := if f != Main && f !in s.loads
                   then s.(loads := s.loads[f := FRESH], started := s.started[f := Started(s, f) + 1]) else s;
    MoreRequested(started, f, blocked)
  }

  /** The next page starts at the offset, and may be asked for. */
  function Advanced(l: LoadState, page: ListResult): LoadState
    requires page.Slice?
  {
    l.(offsetDate := page.lastDate, offsetId := page.lastMsgId, offsetPeer := page.lastPeer, requestId := 0)
  }

  function ListDone(s: State, requestId: int, result: ListResult): State
    requires requestId in s.listInFlight
  {
    var f := s.listInFlight[requestId].folder;
    var s' := s.(listInFlight := s.listInFlight - {requestId});
    if f !in s.loads || result.NotModified? then s'
    else if result.Slice? && result.lastDate != 0 then
      s'.(loads := s.loads[f := Advanced(s.loads[f], result)])
    else
      Finished(s'.(loads := s.loads[f := s.loads[f].(listReceived := true)]), f)
  }

  /** The source does not check that the load state is still there. */
  function ListFailed(s: State, requestId: int): State
    requires requestId in s.listInFlight && s.listInFlight[requestId].folder in s.loads
  {
    var f := s.listInFlight[requestId].folder;
    s.(listInFlight := s.listInFlight - {requestId}, loads := s.loads[f := s.loads[f].(requestId := 0)])
  }

  function PinnedFinalized(s: State, requestId: int): State
    requires requestId in s.pinnedInFlight
  {
    var f := s.pinnedInFlight[requestId].folder;
    var s' := s.(pinnedInFlight := s.pinnedInFlight - {requestId});
    if f !in s.loads then s'
    else Finished(s'.(loads := s.loads[f := s.loads[f].(pinnedRequestId := 0, pinnedReceived := true)]), f)
  }

  // ----- what every run keeps -----

  /** A list request on the way belongs to the load state in use, which waits for it. */
  ghost predicate ListsFit(s: State) {
    && (forall r :: r in s.listInFlight ==>
          var l := s.listInFlight[r];
          && 0 < r < s.next && l == Current(s, l.folder)
          && l.folder in s.loads && s.loads[l.folder].requestId == r && !s.loads[l.folder].listReceived)
    && (forall f :: f in s.loads && s.loads[f].listReceived ==> s.loads[f].requestId != 0)
  }

  ghost predicate PinnedFit(s: State) {
    && (forall r :: r in s.pinnedInFlight ==>
          var l := s.pinnedInFlight[r];
          && 0 < r < s.next && l == Current(s, l.folder)
          && l.folder in s.loads && s.loads[l.folder].pinnedRequestId == r && !s.loads[l.folder].pinnedReceived)
    && (forall f :: f in s.loads && s.loads[f].pinnedRequestId != 0 ==>
          s.loads[f].pinnedRequestId in s.pinnedInFlight && s.pinnedInFlight[s.loads[f].pinnedRequestId].folder == f)
  }

  /** The end was posted once for every load state that is gone, and for no other. */
  ghost predicate PostedOnce(s: State) {
    && (forall i, j :: 0 <= i < j < |s.posted| ==> s.posted[i] != s.posted[j])
    && (forall l :: l in s.posted <==>
          1 <= l.number <= Started(s, l.folder) && !(l == Current(s, l.folder) && l.folder in s.loads))
  }

  ghost predicate Invariant(s: State) {
    && 0 < s.next
    && (forall f :: f in s.loads ==> Started(s, f) >= 1 && !(s.loads[f].listReceived && s.loads[f].pinnedReceived))
    && ListsFit(s) && PinnedFit(s) && PostedOnce(s)
  }

  datatype Event =
    | RequestDialogs(f: Folder, blocked: bool)
    | RequestMore(f: Folder, blocked: bool)
    | RequestPinned(f: Folder)
    | ListIsDone(requestId: int, result: ListResult)
    | ListHasFailed(requestId: int)
    | PinnedIsOver(requestId: int)

  function Initial(): State {
    State(map[Main := FRESH], map[Main := 1], map[], map[], 1, [])
  }

  /** Results come only for requests on the way. */
  predicate Possible(s: State, ev: Event) {
    match ev
    case ListIsDone(r, _) => r in s.listInFlight
    case ListHasFailed(r) => r in s.listInFlight
    case PinnedIsOver(r) => r in s.pinnedInFlight
    case _ => true
  }

  function Step(s: State, ev: Event): State
    requires Possible(s, ev)
    requires ev.ListHasFailed? ==> s.listInFlight[ev.requestId].folder in s.loads
  {
    match ev
    case RequestDialogs(f, blocked) => DialogsRequested(s, f, blocked)
    case RequestMore(f, blocked) => MoreRequested(s, f, blocked)
    case RequestPinned(f) => PinnedRequested(s, f)
    case ListIsDone(r, result) => ListDone(s, r, result)
    case ListHasFailed(r) => ListFailed(s, r)
    case PinnedIsOver(r) => PinnedFinalized(s, r)
  }

  /** Where a failing list request arrives, its load state is still there. */
  lemma FailFindsState(s: State, ev: Event)
    requires Invariant(s) && Possible(s, ev) && ev.ListHasFailed?
    ensures s.listInFlight[ev.requestId].folder in s.loads
  {
  }

  // ----- each part of the invariant depends on a part of the state -----

  lemma PostedSame(s: State, s': State)
    requires PostedOnce(s) && s'.posted == s.posted && s'.started == s.started && s'.loads.Keys == s.loads.Keys
    ensures PostedOnce(s')
  {
    assert forall f :: f in s'.loads <==> f in s.loads;
  }

  lemma ListsSame(s: State, s': State)
    requires ListsFit(s) && s'.listInFlight == s.listInFlight && s'.started == s.started && s.next <= s'.next
    requires forall f :: f in s.loads <==> f in s'.loads
    requires forall f :: f in s.loads ==>
               s'.loads[f].requestId == s.loads[f].requestId && s'.loads[f].listReceived == s.loads[f].listReceived
    ensures ListsFit(s')
  {
  }

  lemma PinnedSame(s: State, s': State)
    requires PinnedFit(s) && s'.pinnedInFlight == s.pinnedInFlight && s'.started == s.started && s.next <= s'.next
    requires forall f :: f in s.loads <==> f in s'.loads
    requires forall f :: f in s.loads ==>
               && s'.loads[f].pinnedRequestId == s.loads[f].pinnedRequestId
               && s'.loads[f].pinnedReceived == s.loads[f].pinnedReceived
    ensures PinnedFit(s')
  {
  }

  /** All of the invariant but that one load state may have both parts. */
  ghost predicate AlmostInvariant(s: State, f: Folder) {
    && 0 < s.next
    && (forall g :: g in s.loads ==> Started(s, g) >= 1)
    && (forall g :: g in s.loads && g != f ==> !(s.loads[g].listReceived && s.loads[g].pinnedReceived))
    && ListsFit(s) && PinnedFit(s) && PostedOnce(s)
  }

  lemma FinishedKeeps(s: State, f: Folder)
    requires AlmostInvariant(s, f)
    ensures Invariant(Finished(s, f))
  {
    if f in s.loads && s.loads[f].listReceived && s.loads[f].pinnedReceived {
      FinishedPosts(s, f);
      FinishedFits(s, f);
      hide PostedOnce, ListsFit, PinnedFit;
    }
  }

  /** Both parts of a finished load have been received, so that none of its requests is on the way. */
  lemma FinishedFits(s: State, f: Folder)
    requires ListsFit(s) && PinnedFit(s) && f in s.loads && s.loads[f].listReceived && s.loads[f].pinnedReceived
    ensures var s' := s.(loads := s.loads - {f}, posted := s.posted + [Current(s, f)]);
            ListsFit(s') && PinnedFit(s')
  {
  }

  lemma FinishedPosts(s: State, f: Folder)
    requires PostedOnce(s) && f in s.loads && Started(s, f) >= 1
    ensures PostedOnce(s.(loads := s.loads - {f}, posted := s.posted + [Current(s, f)]))
  {
    var s' := s.(loads := s.loads - {f}, posted := s.posted + [Current(s, f)]);
    forall l
      ensures l in s'.posted <==>
                1 <= l.number <= Started(s', l.folder) && !(l == Current(s', l.folder) && l.folder in s'.loads)
    {
      assert l in s'.posted <==> l in s.posted || l == Current(s, f);
    }
  }

  lemma PinnedSentFits(s: State, f: Folder)
    requires PinnedFit(s) && 0 < s.next && f in s.loads && !s.loads[f].pinnedReceived && s.loads[f].pinnedRequestId == 0
    ensures PinnedFit(PinnedRequested(s, f))
  {
  }

  lemma PinnedRequestedKeeps(s: State, f: Folder)
    requires Invariant(s)
    ensures Invariant(PinnedRequested(s, f))
  {
    if f in s.loads && !s.loads[f].pinnedReceived && s.loads[f].pinnedRequestId == 0 {
      var s' := PinnedRequested(s, f);
      assert s'.loads.Keys == s.loads.Keys;
      PostedSame(s, s');
      ListsSame(s, s');
      PinnedSentFits(s, f);
      hide PostedOnce, ListsFit, PinnedFit;
    }
  }

  lemma ListRequestedKeeps(s: State, f: Folder)
    requires Invariant(s) && f in s.loads && s.loads[f].requestId == 0
    ensures Invariant(s.(loads := s.loads[f := s.loads[f].(requestId := s.next)],
                         listInFlight := s.listInFlight[s.next := Current(s, f)], next := s.next + 1))
  {
    var s' := s.(loads := s.loads[f := s.loads[f].(requestId := s.next)],
                 listInFlight := s.listInFlight[s.next := Current(s, f)], next := s.next + 1);
    assert s'.loads.Keys == s.loads.Keys;
    PostedSame(s, s');
    PinnedSame(s, s');
    hide PostedOnce, PinnedFit;
  }

  lemma MoreRequestedKeeps(s: State, f: Folder, blocked: bool)
    requires Invariant(s)
    ensures Invariant(MoreRequested(s, f, blocked))
  {
    hide Invariant, PinnedRequested;
    if f in s.loads && s.loads[f].requestId == 0 && !blocked {
      ListRequestedKeeps(s, f);
      PinnedRequestedKeeps(s.(loads := s.loads[f := s.loads[f].(requestId := s.next)],
                              listInFlight := s.listInFlight[s.next := Current(s, f)], next := s.next + 1), f);
    }
  }

  lemma StartKeeps(s: State, f: Folder)
    requires Invariant(s) && f !in s.loads
    ensures Invariant(s.(loads := s.loads[f := FRESH], started := s.started[f := Started(s, f) + 1]))
  {
    var s' := s.(loads := s.loads[f := FRESH], started := s.started[f := Started(s, f) + 1]);
    assert PostedOnce(s');
    assert ListsFit(s');
    assert PinnedFit(s');
  }

  lemma SliceKeeps(s: State, requestId: int, f: Folder, page: ListResult)
    requires Invariant(s) && requestId in s.listInFlight && f == s.listInFlight[requestId].folder && page.Slice?
    ensures Invariant(s.(listInFlight := s.listInFlight - {requestId},
                         loads := s.loads[f := Advanced(s.loads[f], page)]))
  {
    var t := s.(listInFlight := s.listInFlight - {requestId},
                loads := s.loads[f := Advanced(s.loads[f], page)]);
    assert t.loads.Keys == s.loads.Keys;
    PostedSame(s, t);
    PinnedSame(s, t);
    hide PostedOnce, PinnedFit;
  }

  lemma LastPageKeeps(s: State, requestId: int, f: Folder)
    requires Invariant(s) && requestId in s.listInFlight && f == s.listInFlight[requestId].folder
    ensures AlmostInvariant(s.(listInFlight := s.listInFlight - {requestId},
                               loads := s.loads[f := s.loads[f].(listReceived := true)]), f)
  {
    var t := s.(listInFlight := s.listInFlight - {requestId},
                loads := s.loads[f := s.loads[f].(listReceived := true)]);
    assert t.loads.Keys == s.loads.Keys;
    PostedSame(s, t);
    PinnedSame(s, t);
    hide PostedOnce, PinnedFit;
  }

  lemma ListDoneKeeps(s: State, requestId: int, result: ListResult)
    requires Invariant(s) && requestId in s.listInFlight
    ensures Invariant(ListDone(s, requestId, result))
  {
    var f := s.listInFlight[requestId].folder;
    assert f in s.loads;
    if result.NotModified? {
      var t := s.(listInFlight := s.listInFlight - {requestId});
      PostedSame(s, t);
      PinnedSame(s, t);
    } else if result.Slice? && result.lastDate != 0 {
      SliceKeeps(s, requestId, f, result);
    } else {
      LastPageKeeps(s, requestId, f);
      FinishedKeeps(s.(listInFlight := s.listInFlight - {requestId},
                       loads := s.loads[f := s.loads[f].(listReceived := true)]), f);
      hide Invariant, AlmostInvariant, Finished;
    }
  }

  lemma ListFailedKeeps(s: State, requestId: int)
    requires Invariant(s) && requestId in s.listInFlight
    ensures s.listInFlight[requestId].folder in s.loads && Invariant(ListFailed(s, requestId))
  {
    var s' := ListFailed(s, requestId);
    assert s'.loads.Keys == s.loads.Keys;
    PostedSame(s, s');
    PinnedSame(s, s');
  }

  lemma PinnedFinalizedKeeps(s: State, requestId: int)
    requires Invariant(s) && requestId in s.pinnedInFlight
    ensures Invariant(PinnedFinalized(s, requestId))
  {
    var f := s.pinnedInFlight[requestId].folder;
    var t := s.(pinnedInFlight := s.pinnedInFlight - {requestId},
                loads := s.loads[f := s.loads[f].(pinnedRequestId := 0, pinnedReceived := true)]);
    assert t.loads.Keys == s.loads.Keys;
    PostedSame(s, t);
    ListsSame(s, t);
    assert AlmostInvariant(t, f);
    FinishedKeeps(t, f);
  }

  lemma StepKeeps(s: State, ev: Event)
    requires Invariant(s) && Possible(s, ev)
    ensures ev.ListHasFailed? ==> s.listInFlight[ev.requestId].folder in s.loads
    ensures Invariant(Step(s, ev))
  {
    hide Invariant, MoreRequested, PinnedRequested, ListDone, PinnedFinalized;
    match ev
    case RequestDialogs(f, blocked) =>
      if f != Main && f !in s.loads {
        StartKeeps(s, f);
        MoreRequestedKeeps(s.(loads := s.loads[f := FRESH], started := s.started[f := Started(s, f) + 1]), f, blocked);
      } else {
        MoreRequestedKeeps(s, f, blocked);
      }
    case RequestMore(f, blocked) => MoreRequestedKeeps(s, f, blocked);
    case RequestPinned(f) => PinnedRequestedKeeps(s, f);
    case ListIsDone(r, result) => ListDoneKeeps(s, r, result);
    case ListHasFailed(r) => ListFailedKeeps(s, r);
    case PinnedIsOver(r) => PinnedFinalizedKeeps(s, r);
  }

  // ----- runs -----

  /** A list request fails and its load state is gone: the source would follow a null pointer. */
  ghost predicate Crashes(s: State, ev: Event) {
    ev.ListHasFailed? && Possible(s, ev) && s.listInFlight[ev.requestId].folder !in s.loads
  }

  ghost predicate IsRun(states: seq<State>, events: seq<Event>) {
    && |states| == |events| + 1
    && states[0] == Initial()
    && forall i :: 0 <= i < |events| ==>
         && Possible(states[i], events[i])
         && (!Crashes(states[i], events[i]) ==> states[i + 1] == Step(states[i], events[i]))
  }

  /** No reachable state follows a null pointer, keeps a load with both parts, has two requests of one part on
      the way for a folder, or has posted the end of a load twice or too early. */
  lemma {:induction false} EveryRunKeeps(states: seq<State>, events: seq<Event>, n: nat)
    requires IsRun(states, events) && n < |states|
    ensures Invariant(states[n])
    ensures forall ev :: Possible(states[n], ev) ==> !Crashes(states[n], ev)
  {
    if n > 0 {
      EveryRunKeeps(states, events, n - 1);
      StepKeeps(states[n - 1], events[n - 1]);
      assert states[n] == Step(states[n - 1], events[n - 1]);
      hide Step;
    }
    forall ev | Possible(states[n], ev) && ev.ListHasFailed?
      ensures !Crashes(states[n], ev)
    {
      FailFindsState(states[n], ev);
    }
  }

  /** In every reachable state at most one request of each part is on the way for a folder. */
  lemma OneInFlight(states: seq<State>, events: seq<Event>, n: nat, r: int, q: int)
    requires IsRun(states, events) && n < |states|
    ensures var s := states[n];
            && (r in s.listInFlight && q in s.listInFlight ==>
                  (s.listInFlight[r].folder == s.listInFlight[q].folder <==> r == q))
            && (r in s.pinnedInFlight && q in s.pinnedInFlight ==>
                  (s.pinnedInFlight[r].folder == s.pinnedInFlight[q].folder <==> r == q))
  {
    EveryRunKeeps(states, events, n);
  }

  /** A load whose list request is spent without having ended or freed its place. */
  ghost predicate Wedged(s: State, f: Folder) {
    && f in s.loads && s.loads[f].requestId != 0 && !s.loads[f].listReceived
    && forall r :: r in s.listInFlight ==> s.listInFlight[r].folder != f
  }

  /** A "not modified" answer wedges the load it is for. */
  lemma NotModifiedWedges(s: State, requestId: int)
    requires Invariant(s) && requestId in s.listInFlight
    ensures Wedged(ListDone(s, requestId, NotModified), s.listInFlight[requestId].folder)
  {
  }

  /** Wedged, and still the same load. */
  ghost predicate StaysWedged(s: State, s': State, f: Folder) {
    Wedged(s, f) ==> Wedged(s', f) && Current(s', f) == Current(s, f)
  }

  lemma WedgedFinished(s: State, g: Folder, f: Folder)
    ensures StaysWedged(s, Finished(s, g), f)
  {
  }

  lemma WedgedPinned(s: State, g: Folder, f: Folder)
    ensures StaysWedged(s, PinnedRequested(s, g), f)
  {
  }

  lemma WedgedMore(s: State, g: Folder, blocked: bool, f: Folder)
    ensures StaysWedged(s, MoreRequested(s, g, blocked), f)
  {
    if g in s.loads && s.loads[g].requestId == 0 && !blocked {
      var sent := s.(loads := s.loads[g := s.loads[g].(requestId := s.next)],
                     listInFlight := s.listInFlight[s.next := Current(s, g)],
                     next := s.next + 1);
      assert StaysWedged(s, sent, f);
      WedgedPinned(sent, g, f);
      hide PinnedRequested;
    }
  }

  lemma WedgedStays(s: State, f: Folder, ev: Event)
    requires Wedged(s, f) && Possible(s, ev) && !Crashes(s, ev)
    ensures Wedged(Step(s, ev), f) && Current(Step(s, ev), f) == Current(s, f)
  {
    hide MoreRequested, PinnedRequested, Finished;
    match ev
    case RequestDialogs(g, blocked) =>
      var started := if g != Main && g !in s.loads
                     then s.(loads := s.loads[g := FRESH], started := s.started[g := Started(s, g) + 1]) else s;
      assert Wedged(started, f) && Current(started, f) == Current(s, f);
      WedgedMore(started, g, blocked, f);
    case RequestMore(g, blocked) => WedgedMore(s, g, blocked, f);
    case RequestPinned(g) => WedgedPinned(s, g, f);
    case ListIsDone(r, result) =>
      var g := s.listInFlight[r].folder;
      var s' := s.(listInFlight := s.listInFlight - {r});
      if g in s.loads {
        WedgedFinished(s'.(loads := s.loads[g := s.loads[g].(listReceived := true)]), g, f);
      }
    case ListHasFailed(r) =>
    case PinnedIsOver(r) =>
      var g := s.pinnedInFlight[r].folder;
      if g in s.loads {
        var t := s.(pinnedInFlight := s.pinnedInFlight - {r},
                    loads := s.loads[g := s.loads[g].(pinnedRequestId := 0, pinnedReceived := true)]);
        assert Wedged(t, f) && Current(t, f) == Current(s, f);
        WedgedFinished(t, g, f);
      }
  }

  /** A load that waits for the list has its request on the way. */
  ghost predicate Answerable(s: State) {
    forall f :: f in s.loads && s.loads[f].requestId != 0 && !s.loads[f].listReceived
                ==> s.loads[f].requestId in s.listInFlight && s.listInFlight[s.loads[f].requestId].folder == f
  }

  /** So no load is wedged, and only a "not modified" answer changes that. */
  lemma AnswerableIsFree(s: State, f: Folder)
    requires Answerable(s)
    ensures !Wedged(s, f)
  {
  }

  lemma AnswerableFinished(s: State, f: Folder)
    requires Answerable(s)
    ensures Answerable(Finished(s, f))
  {
  }

  lemma AnswerablePinned(s: State, f: Folder)
    requires Answerable(s)
    ensures Answerable(PinnedRequested(s, f))
  {
  }

  lemma AnswerableMore(s: State, f: Folder, blocked: bool)
    requires Invariant(s) && Answerable(s)
    ensures Answerable(MoreRequested(s, f, blocked))
  {
    if f in s.loads && s.loads[f].requestId == 0 && !blocked {
      var sent := s.(loads := s.loads[f := s.loads[f].(requestId := s.next)],
                     listInFlight := s.listInFlight[s.next := Current(s, f)],
                     next := s.next + 1);
      assert Answerable(sent);
      AnswerablePinned(sent, f);
      hide PinnedRequested;
    }
  }

  lemma AnswerableDone(s: State, requestId: int, result: ListResult)
    requires Invariant(s) && Answerable(s) && requestId in s.listInFlight && !result.NotModified?
    ensures Answerable(ListDone(s, requestId, result))
  {
    var f := s.listInFlight[requestId].folder;
    if !(result.Slice? && result.lastDate != 0) {
      var t := s.(listInFlight := s.listInFlight - {requestId},
                  loads := s.loads[f := s.loads[f].(listReceived := true)]);
      assert Answerable(t);
      AnswerableFinished(t, f);
      hide Finished;
    }
  }

  lemma AnswerableStays(s: State, ev: Event)
    requires Invariant(s) && Answerable(s) && Possible(s, ev)
    requires !(ev.ListIsDone? && ev.result.NotModified?)
    ensures ev.ListHasFailed? ==> s.listInFlight[ev.requestId].folder in s.loads
    ensures Answerable(Step(s, ev))
  {
    hide MoreRequested, PinnedRequested, ListDone, Finished;
    match ev
    case RequestDialogs(f, blocked) =>
      if f != Main && f !in s.loads {
        var started := s.(loads := s.loads[f := FRESH], started := s.started[f := Started(s, f) + 1]);
        StartKeeps(s, f);
        assert Answerable(started);
        AnswerableMore(started, f, blocked);
      } else {
        AnswerableMore(s, f, blocked);
      }
    case RequestMore(f, blocked) => AnswerableMore(s, f, blocked);
    case RequestPinned(f) => AnswerablePinned(s, f);
    case ListIsDone(r, result) => AnswerableDone(s, r, result);
    case ListHasFailed(r) => FailFindsState(s, ev);
    case PinnedIsOver(r) =>
      var f := s.pinnedInFlight[r].folder;
      var t := s.(pinnedInFlight := s.pinnedInFlight - {r},
                  loads := s.loads[f := s.loads[f].(pinnedRequestId := 0, pinnedReceived := true)]);
      assert Answerable(t);
      AnswerableFinished(t, f);
  }

  /** Up to the first "not modified" answer of a run nothing is wedged. */
  lemma {:induction false} AnswerableUntil(states: seq<State>, events: seq<Event>, n: nat)
    requires IsRun(states, events) && n < |states|
    requires forall i :: 0 <= i < n ==> !(events[i].ListIsDone? && events[i].result.NotModified?)
    ensures Answerable(states[n])
  {
    if n > 0 {
      AnswerableUntil(states, events, n - 1);
      EveryRunKeeps(states, events, n - 1);
      AnswerableStays(states[n - 1], events[n - 1]);
      assert states[n] == Step(states[n - 1], events[n - 1]);
      hide Step, Invariant, Answerable;
    }
  }

  lemma WedgedNextStep(states: seq<State>, events: seq<Event>, f: Folder, m: nat)
    requires IsRun(states, events) && m < |events| && Wedged(states[m], f)
    ensures Wedged(states[m + 1], f) && Current(states[m + 1], f) == Current(states[m], f)
  {
    EveryRunKeeps(states, events, m);
    hide Invariant, Step, Wedged;
    WedgedStays(states[m], f, events[m]);
  }

  lemma CurrentIsUnposted(s: State, f: Folder)
    requires PostedOnce(s) && f in s.loads
    ensures Current(s, f) !in s.posted
  {
  }

  /** Whatever happens later in the run, a wedged load stays wedged, stays the load of its folder, and its end is never
      posted. */
  lemma {:induction false} WedgedForever(states: seq<State>, events: seq<Event>, f: Folder, n: nat, m: nat)
    requires IsRun(states, events) && n <= m < |states| && Wedged(states[n], f)
    ensures Wedged(states[m], f) && Current(states[m], f) == Current(states[n], f)
    ensures Current(states[n], f) !in states[m].posted
  {
    EveryRunKeeps(states, events, m);
    assert PostedOnce(states[m]);
    hide Invariant, PostedOnce, IsRun;
    if n < m {
      WedgedForever(states, events, f, n, m - 1);
      WedgedNextStep(states, events, f, m - 1);
    }
    CurrentIsUnposted(states[m], f);
  }

  /** Some load is wedged exactly if a list request has been answered with "not modified". */
  lemma WedgedExactly(states: seq<State>, events: seq<Event>, n: nat)
    requires IsRun(states, events) && n < |states|
    ensures (exists f :: Wedged(states[n], f))
            <==> exists i :: 0 <= i < n && events[i].ListIsDone? && events[i].result.NotModified?
  {
    if i :| 0 <= i < n && events[i].ListIsDone? && events[i].result.NotModified? {
      EveryRunKeeps(states, events, i);
      assert states[i + 1] == Step(states[i], events[i]);
      NotModifiedWedges(states[i], events[i].requestId);
      var f := states[i].listInFlight[events[i].requestId].folder;
      WedgedForever(states, events, f, i + 1, n);
    } else {
      AnswerableUntil(states, events, n);
      hide Answerable, Wedged;
      forall f ensures !Wedged(states[n], f) { AnswerableIsFree(states[n], f); }
    }
  }

  // ----- what a call sends -----

  /** A list request may go out: the load is there, its list is not over, nothing is stuck and none is on the way. */
  ghost predicate Idle(s: State, f: Folder) {
    && f in s.loads && !s.loads[f].listReceived && !Wedged(s, f)
    && forall r :: r in s.listInFlight ==> s.listInFlight[r].folder != f
  }

  /** The pinned part is neither there nor on the way. */
  ghost predicate PinnedMissing(s: State, f: Folder) {
    f in s.loads && !s.loads[f].pinnedReceived && forall r :: r in s.pinnedInFlight ==> s.pinnedInFlight[r].folder != f
  }

  /** The call starts a load of the folder. */
  predicate Starts(s: State, ev: Event) {
    ev.RequestDialogs? && ev.f != Main && ev.f !in s.loads
  }

  /** One more request, for the load that is in use now. */
  ghost predicate OneMore(before: map<int, Load>, after: map<int, Load>, l: Load) {
    exists r :: r !in before && after == before[r := l]
  }

  lemma IdleIsUnasked(s: State, f: Folder)
    requires Invariant(s) && f in s.loads
    ensures Idle(s, f) <==> s.loads[f].requestId == 0
    ensures PinnedMissing(s, f) <==> !s.loads[f].pinnedReceived && s.loads[f].pinnedRequestId == 0
  {
  }

  lemma NextIsFresh(s: State)
    requires Invariant(s)
    ensures forall r :: r in s.listInFlight || r in s.pinnedInFlight ==> r < s.next
  {
  }

  lemma PinnedRequestSent(s: State, f: Folder, first: int)
    requires forall r :: r in s.pinnedInFlight ==> r < s.next
    ensures var after := PinnedRequested(s, f);
            && after.listInFlight == s.listInFlight && after.started == s.started && after.loads.Keys == s.loads.Keys
            && (if f in s.loads && !s.loads[f].pinnedReceived && s.loads[f].pinnedRequestId == 0
                then OneMore(s.pinnedInFlight, after.pinnedInFlight, Current(s, f))
                else after.pinnedInFlight == s.pinnedInFlight)
  {
    assert s.next !in s.pinnedInFlight;
  }

  lemma MoreRequestSent(s: State, f: Folder, blocked: bool)
    requires Invariant(s)
    ensures var after := MoreRequested(s, f, blocked); var asks := !blocked && Idle(s, f);
            && after.started == s.started && after.loads.Keys == s.loads.Keys
            && (if asks then OneMore(s.listInFlight, after.listInFlight, Current(s, f))
                else after.listInFlight == s.listInFlight)
            && (if asks && PinnedMissing(s, f) then OneMore(s.pinnedInFlight, after.pinnedInFlight, Current(s, f))
                else after.pinnedInFlight == s.pinnedInFlight)
  {
    NextIsFresh(s);
    if f in s.loads {
      IdleIsUnasked(s, f);
      hide Invariant, Idle, PinnedMissing, PinnedRequested;
      if s.loads[f].requestId == 0 && !blocked {
        var sent := s.(loads := s.loads[f := s.loads[f].(requestId := s.next)],
                       listInFlight := s.listInFlight[s.next := Current(s, f)],
                       next := s.next + 1);
        assert OneMore(s.listInFlight, sent.listInFlight, Current(s, f)) by {
          assert s.next !in s.listInFlight;
        }
        assert sent.loads.Keys == s.loads.Keys;
        hide OneMore;
        PinnedRequestSent(sent, f, s.next);
      }
    }
  }

  lemma StartedIsIdle(s: State, f: Folder)
    requires Invariant(s) && f !in s.loads
    ensures var begun := s.(loads := s.loads[f := FRESH], started := s.started[f := Started(s, f) + 1]);
            Idle(begun, f) && PinnedMissing(begun, f) && Current(begun, f) == Load(f, Started(s, f) + 1)
  {
  }

  /** In every reachable state a call that is not blocked sends one list request for the load in use, or for the one it
      starts, exactly if that load is idle, and with it one pinned request exactly if the pinned part is missing. Any
      other call sends nothing. */
  lemma CallSends(states: seq<State>, events: seq<Event>, n: nat, ev: Event)
    requires IsRun(states, events) && n < |states| && (ev.RequestDialogs? || ev.RequestMore?)
    ensures var s, f := states[n], ev.f; var after := Step(s, ev);
            var l := Load(f, Started(s, f) + if Starts(s, ev) then 1 else 0);
            var asks := !ev.blocked && (Starts(s, ev) || Idle(s, f));
            && (if asks then OneMore(s.listInFlight, after.listInFlight, l) else after.listInFlight == s.listInFlight)
            && (if asks && (Starts(s, ev) || PinnedMissing(s, f))
                then OneMore(s.pinnedInFlight, after.pinnedInFlight, l)
                else after.pinnedInFlight == s.pinnedInFlight)
            && after.loads.Keys == s.loads.Keys + (if Starts(s, ev) then {f} else {})
            && Current(after, f) == l
  {
    var s, f := states[n], ev.f;
    EveryRunKeeps(states, events, n);
    if Starts(s, ev) {
      StartedIsIdle(s, f);
      StartKeeps(s, f);
      var begun := s.(loads := s.loads[f := FRESH], started := s.started[f := Started(s, f) + 1]);
      assert begun.loads.Keys == s.loads.Keys + {f};
      hide Invariant, MoreRequested, Idle, PinnedMissing, OneMore, IsRun;
      MoreRequestSent(begun, f, ev.blocked);
    } else {
      hide Invariant, MoreRequested, Idle, PinnedMissing, OneMore, IsRun;
      MoreRequestSent(s, f, ev.blocked);
    }
  }

  /** Asking for the pinned part alone sends one request exactly if it is missing. */
  lemma PinnedCallSends(states: seq<State>, events: seq<Event>, n: nat, f: Folder)
    requires IsRun(states, events) && n < |states|
    ensures var s, after := states[n], Step(states[n], RequestPinned(f));
            && after.listInFlight == s.listInFlight && after.loads.Keys == s.loads.Keys
            && (if PinnedMissing(s, f) then OneMore(s.pinnedInFlight, after.pinnedInFlight, Current(s, f))
                else after.pinnedInFlight == s.pinnedInFlight)
  {
    EveryRunKeeps(states, events, n);
    var s := states[n];
    NextIsFresh(s);
    PinnedRequestSent(s, f, s.next);
    if f in s.loads {
      IdleIsUnasked(s, f);
    }
    hide Invariant, IsRun;
  }

  // ----- when a load ends -----

  /** The answer that ends the list of a load: all of the list, or a page that gives no offset. */
  predicate ListEnds(s: State, ev: Event, l: Load) {
    && ev.ListIsDone? && ev.requestId in s.listInFlight && s.listInFlight[ev.requestId] == l
    && (ev.result.AllDialogs? || (ev.result.Slice? && ev.result.lastDate == 0))
  }

  /** The end, good or bad, of the pinned request of a load. */
  predicate PinnedEnds(s: State, ev: Event, l: Load) {
    ev.PinnedIsOver? && ev.requestId in s.pinnedInFlight && s.pinnedInFlight[ev.requestId] == l
  }

  predicate ListOver(s: State, l: Load) {
    l in s.posted || (l.folder in s.loads && l == Current(s, l.folder) && s.loads[l.folder].listReceived)
  }

  predicate PinnedOver(s: State, l: Load) {
    l in s.posted || (l.folder in s.loads && l == Current(s, l.folder) && s.loads[l.folder].pinnedReceived)
  }

  lemma FinishedOver(s: State, f: Folder, l: Load)
    ensures ListOver(Finished(s, f), l) <==> ListOver(s, l)
    ensures PinnedOver(Finished(s, f), l) <==> PinnedOver(s, l)
  {
  }

  lemma PinnedRequestedOver(s: State, f: Folder, l: Load)
    ensures ListOver(PinnedRequested(s, f), l) <==> ListOver(s, l)
    ensures PinnedOver(PinnedRequested(s, f), l) <==> PinnedOver(s, l)
  {
  }

  lemma AskedOver(s: State, f: Folder, l: Load)
    requires f in s.loads
    ensures var sent := s.(loads := s.loads[f := s.loads[f].(requestId := s.next)],
                           listInFlight := s.listInFlight[s.next := Current(s, f)],
                           next := s.next + 1);
            (ListOver(sent, l) <==> ListOver(s, l)) && (PinnedOver(sent, l) <==> PinnedOver(s, l))
  {
  }

  lemma MoreRequestedOver(s: State, f: Folder, blocked: bool, l: Load)
    ensures ListOver(MoreRequested(s, f, blocked), l) <==> ListOver(s, l)
    ensures PinnedOver(MoreRequested(s, f, blocked), l) <==> PinnedOver(s, l)
  {
    if f in s.loads && s.loads[f].requestId == 0 && !blocked {
      var sent := s.(loads := s.loads[f := s.loads[f].(requestId := s.next)],
                     listInFlight := s.listInFlight[s.next := Current(s, f)],
                     next := s.next + 1);
      AskedOver(s, f, l);
      hide PinnedRequested, ListOver, PinnedOver;
      PinnedRequestedOver(sent, f, l);
    }
  }

  lemma StartedOver(s: State, f: Folder, l: Load)
    requires Invariant(s) && f !in s.loads
    ensures var begun := s.(loads := s.loads[f := FRESH], started := s.started[f := Started(s, f) + 1]);
            (ListOver(begun, l) <==> ListOver(s, l)) && (PinnedOver(begun, l) <==> PinnedOver(s, l))
  {
  }

  lemma StepOver(s: State, ev: Event, l: Load)
    requires Invariant(s) && Possible(s, ev) && !Crashes(s, ev)
    ensures ListOver(Step(s, ev), l) <==> ListOver(s, l) || ListEnds(s, ev, l)
    ensures PinnedOver(Step(s, ev), l) <==> PinnedOver(s, l) || PinnedEnds(s, ev, l)
  {
    hide MoreRequested, PinnedRequested, ListDone, PinnedFinalized, Invariant;
    match ev
    case RequestDialogs(f, blocked) =>
      if f != Main && f !in s.loads {
        StartedOver(s, f, l);
        MoreRequestedOver(s.(loads := s.loads[f := FRESH], started := s.started[f := Started(s, f) + 1]), f, blocked,
                          l);
      } else {
        MoreRequestedOver(s, f, blocked, l);
      }
    case RequestMore(f, blocked) => MoreRequestedOver(s, f, blocked, l);
    case RequestPinned(f) => PinnedRequestedOver(s, f, l);
    case ListIsDone(r, result) => ListDoneOver(s, r, result, l);
    case ListHasFailed(r) =>
    case PinnedIsOver(r) => PinnedFinalizedOver(s, r, l);
  }

  /** A request on the way is for the load in use. */
  lemma OnTheWayIsInUse(s: State, r: int)
    requires Invariant(s)
    ensures r in s.listInFlight ==> s.listInFlight[r].folder in s.loads
                                    && s.listInFlight[r] == Current(s, s.listInFlight[r].folder)
    ensures r in s.pinnedInFlight ==> s.pinnedInFlight[r].folder in s.loads
                                      && s.pinnedInFlight[r] == Current(s, s.pinnedInFlight[r].folder)
  {
  }

  lemma ListDoneOver(s: State, r: int, result: ListResult, l: Load)
    requires Invariant(s) && r in s.listInFlight
    ensures ListOver(ListDone(s, r, result), l) <==> ListOver(s, l) || ListEnds(s, ListIsDone(r, result), l)
    ensures PinnedOver(ListDone(s, r, result), l) <==> PinnedOver(s, l)
  {
    var f := s.listInFlight[r].folder;
    OnTheWayIsInUse(s, r);
    hide Invariant, Finished;
    FinishedOver(s.(listInFlight := s.listInFlight - {r},
                    loads := s.loads[f := s.loads[f].(listReceived := true)]), f, l);
  }

  lemma PinnedFinalizedOver(s: State, r: int, l: Load)
    requires Invariant(s) && r in s.pinnedInFlight
    ensures ListOver(PinnedFinalized(s, r), l) <==> ListOver(s, l)
    ensures PinnedOver(PinnedFinalized(s, r), l) <==> PinnedOver(s, l) || PinnedEnds(s, PinnedIsOver(r), l)
  {
    var f := s.pinnedInFlight[r].folder;
    OnTheWayIsInUse(s, r);
    hide Invariant, Finished;
    FinishedOver(s.(pinnedInFlight := s.pinnedInFlight - {r},
                    loads := s.loads[f := s.loads[f].(pinnedRequestId := 0, pinnedReceived := true)]), f, l);
  }

  lemma {:induction false} OverIsCounted(states: seq<State>, events: seq<Event>, n: nat, l: Load)
    requires IsRun(states, events) && n < |states|
    ensures ListOver(states[n], l) <==> ListEnded(states, events, n, l)
    ensures PinnedOver(states[n], l) <==> PinnedEnded(states, events, n, l)
  {
    if n > 0 {
      EveryRunKeeps(states, events, n - 1);
      assert Possible(states[n - 1], events[n - 1]) && !Crashes(states[n - 1], events[n - 1]);
      assert states[n] == Step(states[n - 1], events[n - 1]);
      hide Invariant, ListOver, PinnedOver, ListEnds, PinnedEnds, Step, Possible, Crashes, IsRun;
      EndedOneMore(states, events, n - 1, l);
      StepOver(states[n - 1], events[n - 1], l);
      hide ListEnded, PinnedEnded;
      OverIsCounted(states, events, n - 1, l);
    }
  }

  /** An answer that ended the list of the load is among the first `n` events. */
  ghost predicate ListEnded(states: seq<State>, events: seq<Event>, n: nat, l: Load)
    requires n <= |events| && n < |states|
  {
    exists i :: 0 <= i < n && ListEnds(states[i], events[i], l)
  }

  ghost predicate PinnedEnded(states: seq<State>, events: seq<Event>, n: nat, l: Load)
    requires n <= |events| && n < |states|
  {
    exists i :: 0 <= i < n && PinnedEnds(states[i], events[i], l)
  }

  lemma EndedOneMore(states: seq<State>, events: seq<Event>, n: nat, l: Load)
    requires n < |events| && n + 1 < |states|
    ensures ListEnded(states, events, n + 1, l)
            <==> ListEnded(states, events, n, l) || ListEnds(states[n], events[n], l)
    ensures PinnedEnded(states, events, n + 1, l)
            <==> PinnedEnded(states, events, n, l) || PinnedEnds(states[n], events[n], l)
  {
    hide ListEnds, PinnedEnds;
  }

  /** The end of a load has been posted exactly if both have come: an answer that ended its list and the end of its
      pinned request. Until then the load is there. */
  lemma PostedExactly(states: seq<State>, events: seq<Event>, n: nat, l: Load)
    requires IsRun(states, events) && n < |states|
    ensures l in states[n].posted
            <==> ListEnded(states, events, n, l) && PinnedEnded(states, events, n, l)
  {
    EveryRunKeeps(states, events, n);
    OverIsCounted(states, events, n, l);
    hide ListEnded, PinnedEnded, IsRun, ListsFit, PinnedFit, PostedOnce;
  }

  /** An answer with an offset, or a failure, takes its request away and leaves the load idle; every answer takes away
      exactly its own request. */
  lemma AnswerFrees(states: seq<State>, events: seq<Event>, n: nat, ev: Event)
    requires IsRun(states, events) && n < |states| && Possible(states[n], ev) && !Crashes(states[n], ev)
    requires ev.ListIsDone? || ev.ListHasFailed? || ev.PinnedIsOver?
    ensures var s, after := states[n], Step(states[n], ev);
            && after.listInFlight == s.listInFlight - (if ev.PinnedIsOver? then {} else {ev.requestId})
            && after.pinnedInFlight == s.pinnedInFlight - (if ev.PinnedIsOver? then {ev.requestId} else {})
            && (ev.ListHasFailed? || (ev.ListIsDone? && ev.result.Slice? && ev.result.lastDate != 0) ==>
                  var f := s.listInFlight[ev.requestId].folder;
                  Idle(after, f) && after.loads.Keys == s.loads.Keys)
  {
    var s := states[n];
    EveryRunKeeps(states, events, n);
    StepKeeps(s, ev);
    hide Invariant, IsRun;
    AnswerTakes(s, ev);
    if ev.ListHasFailed? || (ev.ListIsDone? && ev.result.Slice? && ev.result.lastDate != 0) {
      var f := s.listInFlight[ev.requestId].folder;
      OnTheWayIsInUse(s, ev.requestId);
      assert Step(s, ev).loads.Keys == s.loads.Keys && Step(s, ev).loads[f].requestId == 0;
      hide Idle, Step;
      IdleIsUnasked(Step(s, ev), f);
    }
  }

  lemma AnswerTakes(s: State, ev: Event)
    requires Possible(s, ev) && !Crashes(s, ev) && (ev.ListIsDone? || ev.ListHasFailed? || ev.PinnedIsOver?)
    ensures Step(s, ev).listInFlight == s.listInFlight - if ev.PinnedIsOver? then {} else {ev.requestId}
    ensures Step(s, ev).pinnedInFlight == s.pinnedInFlight - if ev.PinnedIsOver? then {ev.requestId} else {}
  {
    assert s.listInFlight - {} == s.listInFlight && s.pinnedInFlight - {} == s.pinnedInFlight;
  }

  // ----- where the next page starts -----

  datatype Dialog = Dialog(peer: int, topMessage: int)

  datatype Message = Message(id: int, peer: int, date: int)

  /** The date of the last listed copy of a message; zero if it is not listed. */
  function DateOf(messages: seq<Message>, peer: int, id: int): int
    decreases |messages|
  {
    if messages == [] then 0
    else
      var m := messages[|messages| - 1];
      if m.id == id && m.peer == peer then m.date else DateOf(messages[..|messages| - 1], peer, id)
  }

  predicate Valid(d: Dialog) {
    d.peer != 0 && d.topMessage != 0
  }

  /** The date of the last dialog whose top message is listed with a date; zero if there is none. */
  function LastDate(dialogs: seq<Dialog>, messages: seq<Message>): int
    decreases |dialogs|
  {
    if dialogs == [] then 0
    else
      var d := dialogs[|dialogs| - 1];
      var date := if Valid(d) then DateOf(messages, d.peer, d.topMessage) else 0;
      if date != 0 then date else LastDate(dialogs[..|dialogs| - 1], messages)
  }

  /** The last dialog with a peer and a message, if any. */
  function LastValid(dialogs: seq<Dialog>): Dialog
    decreases |dialogs|
  {
    if dialogs == [] then Dialog(0, 0)
    else
      var d := dialogs[|dialogs| - 1];
      if Valid(d) then d else LastValid(dialogs[..|dialogs| - 1])
  }

  method FindDate(messages: seq<Message>, peer: int, id: int) returns (date: int)
    ensures date == DateOf(messages, peer, id)
  {
    var i := |messages|;
    assert messages[..i] == messages;
    while i > 0
      invariant 0 <= i <= |messages|
      invariant DateOf(messages, peer, id) == DateOf(messages[..i], peer, id)
    {
      i := i - 1;
      assert messages[..i + 1][..i] == messages[..i];
      if messages[i].id == id && messages[i].peer == peer {
        return messages[i].date;
      }
    }
    date := 0;
  }

  /** The offset of the next page, found in one scan from the end. */
  method FindOffset(dialogs: seq<Dialog>, messages: seq<Message>) returns (lastDate: int, lastPeer: int, lastMsgId: int)
    ensures lastDate == LastDate(dialogs, messages)
    ensures Dialog(lastPeer, lastMsgId) == LastValid(dialogs)
  {
    lastDate, lastPeer, lastMsgId := 0, 0, 0;
    var i := |dialogs|;
    assert dialogs[..i] == dialogs;
    while i > 0
      invariant 0 <= i <= |dialogs|
      invariant lastDate == 0 && LastDate(dialogs, messages) == LastDate(dialogs[..i], messages)
      invariant lastPeer == 0 <==> lastMsgId == 0
      invariant LastValid(dialogs) == if lastPeer == 0 then LastValid(dialogs[..i]) else Dialog(lastPeer, lastMsgId)
    {
      i := i - 1;
      assert dialogs[..i + 1][..i] == dialogs[..i];
      var d := dialogs[i];
      if d.peer == 0 || d.topMessage == 0 {
        continue;
      }
      if lastPeer == 0 {
        lastPeer := d.peer;
      }
      if lastMsgId == 0 {
        lastMsgId := d.topMessage;
      }
      lastDate := FindDate(messages, d.peer, d.topMessage);
      if lastDate != 0 {
        break;
      }
    }
  }

  /** The last listed copy of a message. */
  ghost predicate LastCopy(messages: seq<Message>, peer: int, id: int, i: nat) {
    && i < |messages| && messages[i].peer == peer && messages[i].id == id
    && forall j :: i < j < |messages| ==> !(messages[j].peer == peer && messages[j].id == id)
  }

  /** The date found is that of the last message with this id and this peer. */
  lemma {:induction false} DateIsOfLastCopy(messages: seq<Message>, peer: int, id: int, i: nat)
    requires LastCopy(messages, peer, id, i)
    ensures DateOf(messages, peer, id) == messages[i].date
    decreases |messages|
  {
    var n := |messages| - 1;
    if i < n {
      assert !(messages[n].peer == peer && messages[n].id == id);
      DateIsOfLastCopy(messages[..n], peer, id, i);
    }
  }

  /** Without one it is zero. */
  lemma {:induction false} NoCopyNoDate(messages: seq<Message>, peer: int, id: int)
    requires forall i :: 0 <= i < |messages| ==> !(messages[i].peer == peer && messages[i].id == id)
    ensures DateOf(messages, peer, id) == 0
    decreases |messages|
  {
    if messages != [] {
      NoCopyNoDate(messages[..|messages| - 1], peer, id);
    }
  }

  /** The date of a page is that of its last dated dialog. */
  lemma {:induction false} DateIsOfLastDated(dialogs: seq<Dialog>, messages: seq<Message>, i: nat)
    requires i < |dialogs| && Dated(dialogs[i], messages)
    requires forall j :: i < j < |dialogs| ==> !Dated(dialogs[j], messages)
    ensures LastDate(dialogs, messages) == DateOf(messages, dialogs[i].peer, dialogs[i].topMessage)
    decreases |dialogs|
  {
    hide DateOf;
    var n := |dialogs| - 1;
    if i < n {
      assert !Dated(dialogs[n], messages);
      DateIsOfLastDated(dialogs[..n], messages, i);
    }
  }

  /** Its peer and message are those of its last dialog that has both. */
  lemma {:induction false} OffsetIsOfLastValid(dialogs: seq<Dialog>, i: nat)
    requires i < |dialogs| && dialogs[i].peer != 0 && dialogs[i].topMessage != 0
    requires forall j :: i < j < |dialogs| ==> dialogs[j].peer == 0 || dialogs[j].topMessage == 0
    ensures LastValid(dialogs) == dialogs[i]
    decreases |dialogs|
  {
    var n := |dialogs| - 1;
    if i < n {
      assert !Valid(dialogs[n]);
      OffsetIsOfLastValid(dialogs[..n], i);
    }
  }

  predicate Dated(d: Dialog, messages: seq<Message>) {
    Valid(d) && DateOf(messages, d.peer, d.topMessage) != 0
  }

  ghost predicate SomeDated(dialogs: seq<Dialog>, messages: seq<Message>) {
    exists i :: 0 <= i < |dialogs| && Dated(dialogs[i], messages)
  }

  /** What a page of these dialogs and messages tells. */
  function PageOf(dialogs: seq<Dialog>, messages: seq<Message>): ListResult {
    Slice(LastDate(dialogs, messages), LastValid(dialogs).peer, LastValid(dialogs).topMessage)
  }

  /** An offset is written exactly if some dialog's top message is listed with a date, and then it has a message. */
  lemma {:induction false} WrittenExactly(dialogs: seq<Dialog>, messages: seq<Message>)
    ensures LastDate(dialogs, messages) != 0 <==> SomeDated(dialogs, messages)
    ensures SomeDated(dialogs, messages) ==> Valid(LastValid(dialogs))
    decreases |dialogs|
  {
    if dialogs != [] {
      var n := |dialogs| - 1;
      WrittenExactly(dialogs[..n], messages);
      if Dated(dialogs[n], messages) {
        assert SomeDated(dialogs, messages);
      } else {
        assert forall i :: 0 <= i < n ==> dialogs[..n][i] == dialogs[i];
      }
    }
  }

  /** The date that is found is that of the last valid dialog exactly if that dialog is dated itself. */
  lemma {:induction false} LastDateIsLastValid(dialogs: seq<Dialog>, messages: seq<Message>)
    requires SomeDated(dialogs, messages)
    ensures var d := LastValid(dialogs);
            LastDate(dialogs, messages) == DateOf(messages, d.peer, d.topMessage) <==> Dated(d, messages)
    decreases |dialogs|
  {
    WrittenExactly(dialogs, messages);
    var n := |dialogs| - 1;
    if !Valid(dialogs[n]) {
      WrittenExactly(dialogs[..n], messages);
      LastDateIsLastValid(dialogs[..n], messages);
    }
  }

  /** The page ends the list if no dialog in it is dated. Otherwise its offset is stored, and the stored date is that
      of the stored message exactly if the message of the last valid dialog is listed with a date. */
  lemma StoredOffsetAgrees(s: State, requestId: int, dialogs: seq<Dialog>, messages: seq<Message>)
    requires Invariant(s) && requestId in s.listInFlight
    ensures var f := s.listInFlight[requestId].folder; var after := ListDone(s, requestId, PageOf(dialogs, messages));
            if SomeDated(dialogs, messages) then
              && f in after.loads && after.loads[f].requestId == 0 && !after.loads[f].listReceived
              && (after.loads[f].offsetDate == DateOf(messages, after.loads[f].offsetPeer, after.loads[f].offsetId)
                  <==> Dated(LastValid(dialogs), messages))
            else f in after.loads ==> after.loads[f].listReceived
  {
    WrittenExactly(dialogs, messages);
    if SomeDated(dialogs, messages) {
      LastDateIsLastValid(dialogs, messages);
    }
  }

  /** A page whose stored date is that of another message than the stored one. */
  lemma OffsetCanDisagree()
    ensures var dialogs := [Dialog(1, 10), Dialog(2, 20)]; var messages := [Message(10, 1, 5)];
            && SomeDated(dialogs, messages) && !Dated(LastValid(dialogs), messages)
            && PageOf(dialogs, messages) == Slice(5, 2, 20) && DateOf(messages, 2, 20) == 0
  {
    var dialogs, messages := [Dialog(1, 10), Dialog(2, 20)], [Message(10, 1, 5)];
    assert dialogs[..1] == [Dialog(1, 10)] && dialogs[..1][..0] == [];
    assert messages[..0] == [];
    assert DateOf(messages, 1, 10) == 5 && DateOf(messages, 2, 20) == 0;
    assert LastDate(dialogs[..1], messages) == 5;
    assert Dated(dialogs[0], messages);
  }

  // ----- the object -----

  /** One map holds both the single main state and the folder states of the source; a missing key is a null pointer. */
  class DialogsLoader {
    var loads: map<Folder, LoadState>
    var nextRequestId: int
    ghost var started: map<Folder, nat>
    ghost var listInFlight: map<int, Load>
    ghost var pinnedInFlight: map<int, Load>
    ghost var posted: seq<Load>

    ghost function View(): State
      reads this
    {
      State(loads, started, listInFlight, pinnedInFlight, nextRequestId, posted)
    }

    constructor ()
      ensures View() == Initial()
    {
      loads, nextRequestId := map[Main := FRESH], 1;
      started, listInFlight, pinnedInFlight, posted := map[Main := 1], map[], map[], [];
    }

    method RequestDialogs(f: Folder, blocked: bool)
      modifies this
      ensures View() == DialogsRequested(old(View()), f, blocked)
    {
      if f != Main && f !in loads {
        loads := loads[f := FRESH];
        started := started[f := (if f in started then started[f] else 0) + 1];
      }
      RequestMoreDialogs(f, blocked);
    }

    method RequestMoreDialogs(f: Folder, blocked: bool)
      modifies this
      ensures View() == MoreRequested(old(View()), f, blocked)
    {
      if f !in loads || loads[f].requestId != 0 || blocked {
        return;
      }
      listInFlight := listInFlight[nextRequestId := Current(View(), f)];
      loads := loads[f := loads[f].(requestId := nextRequestId)];
      nextRequestId := nextRequestId + 1;
      if !loads[f].pinnedReceived {
        RequestPinnedDialogs(f);
      }
    }

    method RequestPinnedDialogs(f: Folder)
      modifies this
      ensures View() == PinnedRequested(old(View()), f)
    {
      if f !in loads || loads[f].pinnedReceived || loads[f].pinnedRequestId != 0 {
        return;
      }
      pinnedInFlight := pinnedInFlight[nextRequestId := Current(View(), f)];
      loads := loads[f := loads[f].(pinnedRequestId := nextRequestId)];
      nextRequestId := nextRequestId + 1;
    }

    method DialogsLoadFinish(f: Folder)
      modifies this
      ensures View() == Finished(old(View()), f)
    {
      if f !in loads || !loads[f].listReceived || !loads[f].pinnedReceived {
        return;
      }
      posted := posted + [Current(View(), f)];
      loads := loads - {f};
    }

    /** A page arrived whose dialogs and messages are given, or all of the list, or a "not modified". */
    method DialogsDone(f: Folder, requestId: int, all: bool, slice: bool, dialogs: seq<Dialog>, messages: seq<Message>)
      requires requestId in listInFlight && listInFlight[requestId].folder == f
      modifies this
      ensures View() == ListDone(old(View()), requestId, if all then AllDialogs
                                                         else if slice then PageOf(dialogs, messages)
                                                         else NotModified)
    {
      listInFlight := listInFlight - {requestId};
      if all {
        if f in loads {
          loads := loads[f := loads[f].(listReceived := true)];
          DialogsLoadFinish(f);
        }
      } else if slice {
        var lastDate, lastPeer, lastMsgId := FindOffset(dialogs, messages);
        if f in loads {
          if lastDate != 0 {
            loads := loads[f := loads[f].(offsetDate := lastDate, offsetId := lastMsgId, offsetPeer := lastPeer,
                                          requestId := 0)];
          } else {
            loads := loads[f := loads[f].(listReceived := true)];
            DialogsLoadFinish(f);
          }
        }
      }
    }

    /** Follows the pointer to the load state without a check, as the source does. */
    method DialogsFail(f: Folder, requestId: int)
      requires Invariant(View()) && requestId in listInFlight && listInFlight[requestId].folder == f
      modifies this
      ensures Invariant(View()) && f in loads && View() == ListFailed(old(View()), requestId)
    {
      ListFailedKeeps(View(), requestId);
      hide Invariant;
      listInFlight := listInFlight - {requestId};
      loads := loads[f := loads[f].(requestId := 0)];
    }

    /** Done or failed, the pinned dialogs count as received. */
    method PinnedFinalize(f: Folder, requestId: int)
      requires requestId in pinnedInFlight && pinnedInFlight[requestId].folder == f
      modifies this
      ensures View() == PinnedFinalized(old(View()), requestId)
    {
      pinnedInFlight := pinnedInFlight - {requestId};
      if f in loads {
        loads := loads[f := loads[f].(pinnedRequestId := 0, pinnedReceived := true)];
        DialogsLoadFinish(f);
      }
    }
  }
}
