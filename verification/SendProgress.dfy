/**
 Telling others what one is doing: each action of a chat is announced at most once in a while, and the request of an
 earlier announcement is dropped before a new one is sent.
 */
module SendProgress {
  import opened Basics
  import opened Ordered

  datatype Action = Typing | Speaking | Other(kind: int)

  datatype Chat = Chat(id: int)

  datatype Key = Key(chat: Chat, topMsgId: int, action: Action)

  const SEND_MY_SPEAKING_INTERVAL: int := 3000
  const SEND_MY_TYPING_INTERVAL: int := 5000

  function SendEach(key: Key): int {
    if key.action == Speaking then SEND_MY_SPEAKING_INTERVAL else SEND_MY_TYPING_INTERVAL
  }

  // ----- the throttle -----

  /** One call of the throttle. */
  datatype Call = Call(key: Key, doing: bool, now: int)

  /** An entry lasts for two intervals from the announcement; in its second half a new one is let through. */
  predicate LetThrough(updated: map<Key, int>, call: Call) {
    if call.doing then call.key !in updated || updated[call.key] <= call.now + SendEach(call.key)
    else call.key in updated && call.now < updated[call.key]
  }

  function Noted(updated: map<Key, int>, call: Call): map<Key, int> {
    if !LetThrough(updated, call) then updated
    else if call.doing then updated[call.key := call.now + 2 * SendEach(call.key)]
    else updated - {call.key}
  }

  function After(calls: seq<Call>): map<Key, int> {
    if calls == [] then map[] else Noted(After(calls[..|calls| - 1]), calls[|calls| - 1])
  }

  /** Whether the i-th call was let through. */
  predicate Accepted(calls: seq<Call>, i: nat)
    requires i < |calls|
  {
    LetThrough(After(calls[..i]), calls[i])
  }

  predicate Positive(calls: seq<Call>, key: Key, i: nat)
    requires i < |calls|
  {
    calls[i].key == key && calls[i].doing && Accepted(calls, i)
  }

  predicate Stopped(calls: seq<Call>, key: Key, i: nat)
    requires i < |calls|
  {
    calls[i].key == key && !calls[i].doing && Accepted(calls, i)
  }

  ghost predicate Monotone(calls: seq<Call>) {
    forall i, j :: 0 <= i <= j < |calls| ==> calls[i].now <= calls[j].now
  }

  ghost predicate NoStop(calls: seq<Call>, key: Key, lo: nat, hi: nat)
    requires hi <= |calls|
  {
    forall i :: lo <= i < hi ==> !Stopped(calls, key, i)
  }

  /** When the running announcement of a key began; none if there was none since the last stop let through. */
  function Running(calls: seq<Call>, key: Key): (start: seq<int>)
    ensures |start| <= 1
  {
    if calls == [] then []
    else
      var n := |calls| - 1;
      if calls[n].key == key && Accepted(calls, n) then (if calls[n].doing then [calls[n].now] else [])
      else Running(calls[..n], key)
  }

  lemma {:induction false} AfterIsRunning(calls: seq<Call>, key: Key)
    ensures key in After(calls) <==> Running(calls, key) != []
    ensures key in After(calls) ==> After(calls)[key] == Running(calls, key)[0] + 2 * SendEach(key)
  {
    if calls != [] {
      AfterIsRunning(calls[..|calls| - 1], key);
    }
  }

  /** Speaking is announced every three seconds, all else every five. */
  predicate Admits(running: seq<int>, call: Call)
    requires |running| <= 1
  {
    var interval := if call.key.action == Speaking then 3000 else 5000;
    if call.doing then running == [] || call.now - running[0] >= interval
    else running != [] && call.now - running[0] < 2 * interval
  }

  /** A beginning is let through exactly when nothing runs or a whole interval has passed since it began, a stop
      exactly when something runs that began less than two intervals ago. */
  lemma AcceptedExactly(calls: seq<Call>, i: nat)
    requires i < |calls|
    ensures Accepted(calls, i) <==> Admits(Running(calls[..i], calls[i].key), calls[i])
  {
    AfterIsRunning(calls[..i], calls[i].key);
  }

  lemma {:induction false} EntryLasts(calls: seq<Call>, key: Key, i: nat, j: nat)
    requires i < j <= |calls| && Monotone(calls) && Positive(calls, key, i) && NoStop(calls, key, i, j)
    ensures key in After(calls[..j]) && After(calls[..j])[key] >= calls[i].now + 2 * SendEach(key)
    decreases j
  {
    assert calls[..j][..j - 1] == calls[..j - 1];
    if i < j - 1 {
      EntryLasts(calls, key, i, j - 1);
      assert !Stopped(calls, key, j - 1);
    }
  }

  /** Two beginnings let through for one key, without a stop let through between them, are an interval apart. */
  lemma PositivesSpaced(calls: seq<Call>, key: Key, i: nat, j: nat)
    requires i < j < |calls| && Monotone(calls) && Positive(calls, key, i) && Positive(calls, key, j)
    requires NoStop(calls, key, i, j)
    ensures calls[j].now - calls[i].now >= SendEach(key)
  {
    EntryLasts(calls, key, i, j);
  }

  function Positives(calls: seq<Call>, key: Key, lo: nat, hi: nat): nat
    requires lo <= hi <= |calls|
    decreases hi
  {
    if lo == hi then 0
    else Positives(calls, key, lo, hi - 1) + if Positive(calls, key, hi - 1) then 1 else 0
  }

  lemma {:induction false} PositivesSpan(calls: seq<Call>, key: Key, lo: nat, hi: nat) returns (first: nat, last: nat)
    requires lo < hi <= |calls| && Monotone(calls) && NoStop(calls, key, lo, hi) && Positives(calls, key, lo, hi) > 0
    ensures lo <= first <= last < hi && Positive(calls, key, last)
    ensures forall m :: last < m < hi ==> !Positive(calls, key, m)
    ensures (Positives(calls, key, lo, hi) - 1) * SendEach(key) <= calls[last].now - calls[first].now
    decreases hi
  {
    if !Positive(calls, key, hi - 1) {
      first, last := PositivesSpan(calls, key, lo, hi - 1);
    } else if Positives(calls, key, lo, hi - 1) == 0 {
      first, last := hi - 1, hi - 1;
    } else {
      first, last := PositivesSpan(calls, key, lo, hi - 1);
      PositivesSpaced(calls, key, last, hi - 1);
      last := hi - 1;
    }
  }

  /** In any stretch of calls without a stop let through, no more beginnings than intervals fit, and one. */
  lemma PositivesInWindow(calls: seq<Call>, key: Key, lo: nat, hi: nat)
    requires lo < hi <= |calls| && Monotone(calls) && NoStop(calls, key, lo, hi)
    ensures Positives(calls, key, lo, hi) <= (calls[hi - 1].now - calls[lo].now) / SendEach(key) + 1
  {
    if Positives(calls, key, lo, hi) > 0 {
      var first, last := PositivesSpan(calls, key, lo, hi);
      var n, each := Positives(calls, key, lo, hi) - 1, SendEach(key);
      var width := calls[hi - 1].now - calls[lo].now;
      assert n * each <= width;
      assert n <= width / each;
    }
  }

  /** Calls one interval after the other. */
  function Steady(key: Key, start: int, n: nat): seq<Call> {
    seq(n, i requires 0 <= i < n => Call(key, true, start + i * SendEach(key)))
  }

  /** The bound is reached: calls one interval apart are all let through. */
  lemma {:induction false} WindowReached(key: Key, start: int, n: nat)
    ensures Positives(Steady(key, start, n), key, 0, n) == n
    ensures n > 0 ==> Running(Steady(key, start, n), key) == [start + (n - 1) * SendEach(key)]
  {
    if n > 0 {
      var calls := Steady(key, start, n);
      WindowReached(key, start, n - 1);
      assert calls[..n - 1] == Steady(key, start, n - 1);
      AcceptedExactly(calls, n - 1);
      SamePositives(calls, Steady(key, start, n - 1), key, n - 1);
    }
  }

  lemma {:induction false} SamePositives(calls: seq<Call>, prefix: seq<Call>, key: Key, hi: nat)
    requires prefix <= calls && hi <= |prefix|
    ensures Positives(calls, key, 0, hi) == Positives(prefix, key, 0, hi)
  {
    if hi > 0 {
      SamePositives(calls, prefix, key, hi - 1);
      assert calls[..hi - 1] == prefix[..hi - 1];
    }
  }

  // ----- the requests -----

  datatype Request = Request(id: int, key: Key)

  /** `calls` are the calls of the throttle so far and `sends` those of them that led to a request; `onTheWay` are the
      requests neither answered nor cancelled. */
  datatype State = State(
    updated: map<Key, int>,
    requests: map<Key, int>,
    stopChat: Option<Chat>,
    stopTimer: bool,
    next: int,
    onTheWay: set<Request>,
    calls: seq<Call>,
    sends: seq<int>)

  function Initial(): State {
    State(map[], map[], None, false, 1, {}, [], [])
  }

  function Cancelled(s: State, key: Key): State {
    if key !in s.requests then s
    else s.(requests := s.requests - {key},
            onTheWay := set q | q in s.onTheWay && q.id != s.requests[key])
  }

  function TypingCancelled(s: State, chat: Chat): State {
    Cancelled(s.(stopTimer := false), Key(chat, 0, Typing))
  }

  function Sent(s: State, key: Key): State {
    s.(requests := if key in s.requests then s.requests else s.requests[key := s.next],
       stopChat := if key.action == Typing then Some(key.chat) else s.stopChat,
       stopTimer := s.stopTimer || key.action == Typing,
       next := s.next + 1,
       onTheWay := s.onTheWay + {Request(s.next, key)},
       sends := s.sends + [|s.calls| - 1])
  }

  function Called(s: State, call: Call): State {
    s.(updated := Noted(s.updated, call), calls := s.calls + [call])
  }

  /** `exempt` for oneself and for broadcasts, `skip` for users who would not see it. */
  function Updated(s: State, call: Call, exempt: bool, skip: bool): State {
    if exempt then s
    else if !LetThrough(s.updated, call) then Called(s, call)
    else
      var cancelled := Cancelled(Called(s, call), call.key);
      if call.doing && !skip then Sent(cancelled, call.key) else cancelled
  }

  function Answered(s: State, q: Request): State {
    s.(requests := map k | k in s.requests && s.requests[k] != q.id :: s.requests[k],
       onTheWay := s.onTheWay - {q})
  }

  datatype Event =
    | Update(call: Call, exempt: bool, skip: bool)
    | Cancel(key: Key)
    | CancelTyping(chat: Chat)
    | StopTimerFires(chat: Chat)
    | Done(q: Request)
    | Lost(q: Request)

  /** The clock never goes back, and the timer has a chat to stop the typing in. */
  predicate Possible(s: State, ev: Event) {
    match ev
    case Update(call, _, _) => s.calls == [] || s.calls[|s.calls| - 1].now <= call.now
    case StopTimerFires(chat) => s.stopTimer && s.stopChat == Some(chat)
    case Done(q) => q in s.onTheWay
    case Lost(q) => q in s.onTheWay
    case _ => true
  }

  /** A request that fails is not handled: it stays recorded until the next announcement cancels it. */
  function Step(s: State, ev: Event): State {
    match ev
    case Update(call, exempt, skip) => Updated(s, call, exempt, skip)
    case Cancel(key) => Cancelled(s, key)
    case CancelTyping(chat) => TypingCancelled(s, chat)
    case StopTimerFires(chat) => TypingCancelled(s.(stopChat := None), chat)
    case Done(q) => Answered(s, q)
    case Lost(q) => s.(onTheWay := s.onTheWay - {q})
  }

  /** Every request on the way is the one recorded for its key. */
  ghost predicate RequestsFit(s: State) {
    && (forall k :: k in s.requests ==> s.requests[k] < s.next)
    && (forall k, l :: k in s.requests && l in s.requests && s.requests[k] == s.requests[l] ==> k == l)
    && (forall q :: q in s.onTheWay ==> q.key in s.requests && s.requests[q.key] == q.id)
  }

  ghost predicate TimerFits(s: State) {
    s.stopTimer ==> s.stopChat.Some?
  }

  /** What was sent, in order, were beginnings that the throttle let through. */
  ghost predicate SendsFit(calls: seq<Call>, sends: seq<int>) {
    && (forall i :: 0 <= i < |sends| ==> 0 <= sends[i] < |calls| && Positive(calls, calls[sends[i]].key, sends[i]))
    && (forall i, j :: 0 <= i < j < |sends| ==> sends[i] < sends[j])
  }

  ghost predicate Invariant(s: State) {
    RequestsFit(s) && TimerFits(s) && SendsFit(s.calls, s.sends) && s.updated == After(s.calls) && Monotone(s.calls)
  }

  lemma CancelledKeeps(s: State, key: Key)
    requires RequestsFit(s)
    ensures RequestsFit(Cancelled(s, key))
    ensures key !in Cancelled(s, key).requests
    ensures forall q :: q in Cancelled(s, key).onTheWay ==> q.key != key
  {
  }

  lemma SentKeeps(s: State, key: Key)
    requires RequestsFit(s) && key !in s.requests
    ensures RequestsFit(Sent(s, key))
  {
  }

  lemma SamePositive(calls: seq<Call>, prefix: seq<Call>, key: Key, i: nat)
    requires prefix <= calls && i < |prefix|
    ensures Positive(calls, key, i) == Positive(prefix, key, i)
  {
    assert calls[..i] == prefix[..i];
  }

  lemma SendsStayFit(calls: seq<Call>, sends: seq<int>, call: Call)
    requires SendsFit(calls, sends)
    ensures SendsFit(calls + [call], sends)
    ensures Positive(calls + [call], call.key, |calls|) ==> SendsFit(calls + [call], sends + [|calls|])
  {
    hide Positive;
    var more := calls + [call];
    forall i | 0 <= i < |sends| ensures Positive(more, more[sends[i]].key, sends[i]) {
      SamePositive(more, calls, calls[sends[i]].key, sends[i]);
    }
  }

  lemma CalledFits(s: State, call: Call)
    requires SendsFit(s.calls, s.sends) && s.updated == After(s.calls) && Monotone(s.calls)
    requires s.calls == [] || s.calls[|s.calls| - 1].now <= call.now
    ensures var after := Called(s, call);
            && after.updated == After(after.calls) && Monotone(after.calls) && SendsFit(after.calls, after.sends)
            && (LetThrough(s.updated, call) && call.doing ==> SendsFit(after.calls, s.sends + [|s.calls|]))
  {
    SendsStayFit(s.calls, s.sends, call);
    assert (s.calls + [call])[..|s.calls|] == s.calls;
    hide SendsFit, LetThrough, Noted;
  }

  lemma UpdatedKeeps(s: State, call: Call, exempt: bool, skip: bool)
    requires Invariant(s) && Possible(s, Update(call, exempt, skip))
    ensures Invariant(Updated(s, call, exempt, skip))
  {
    var called := Called(s, call);
    assert RequestsFit(called);
    hide RequestsFit, SendsFit, After, Monotone, Accepted;
    CalledFits(s, call);
    CancelledKeeps(called, call.key);
    SentKeeps(Cancelled(called, call.key), call.key);
  }

  lemma StepKeeps(s: State, ev: Event)
    requires Invariant(s) && Possible(s, ev)
    ensures Invariant(Step(s, ev))
  {
    match ev
    case Update(call, exempt, skip) => UpdatedKeeps(s, call, exempt, skip);
    case Cancel(key) => CancelledKeeps(s, key);
    case CancelTyping(chat) => CancelledKeeps(s.(stopTimer := false), Key(chat, 0, Typing));
    case StopTimerFires(chat) => CancelledKeeps(s.(stopTimer := false, stopChat := None), Key(chat, 0, Typing));
    case _ =>
  }

  ghost predicate Runs(s: State, run: seq<Event>)
    decreases |run|
  {
    run == [] || (Possible(s, run[0]) && Runs(Step(s, run[0]), run[1..]))
  }

  function Run(s: State, run: seq<Event>): State
    decreases |run|
  {
    if run == [] then s else Run(Step(s, run[0]), run[1..])
  }

  lemma {:induction false} EveryRunKeeps(s: State, run: seq<Event>)
    requires Invariant(s) && Runs(s, run)
    ensures Invariant(Run(s, run))
    decreases |run|
  {
    if run != [] {
      hide Invariant, Step, Possible;
      StepKeeps(s, run[0]);
      EveryRunKeeps(Step(s, run[0]), run[1..]);
    }
  }

  /** In every run one request per key at most is on the way, an armed stop timer has its chat, and two requests for one
      key were sent an interval apart unless a stop was let through between them. */
  lemma EveryRunThrottled(run: seq<Event>, q: Request, o: Request, i: nat, j: nat)
    requires Runs(Initial(), run)
    ensures var s := Run(Initial(), run);
            && (q in s.onTheWay && o in s.onTheWay && q.key == o.key ==> q == o)
            && (s.stopTimer ==> s.stopChat.Some?)
    ensures var s := Run(Initial(), run);
            i < j < |s.sends| ==>
              && 0 <= s.sends[i] < s.sends[j] < |s.calls|
              && var first, second := s.calls[s.sends[i]], s.calls[s.sends[j]];
                 first.key == second.key && NoStop(s.calls, first.key, s.sends[i], s.sends[j])
                 ==> second.now - first.now >= SendEach(first.key)
  {
    EveryRunKeeps(Initial(), run);
    var s := Run(Initial(), run);
    hide Run, Runs;
    if i < j < |s.sends| {
      var key := s.calls[s.sends[i]].key;
      if s.calls[s.sends[j]].key == key && NoStop(s.calls, key, s.sends[i], s.sends[j]) {
        PositivesSpaced(s.calls, key, s.sends[i], s.sends[j]);
      }
    }
  }

  // ----- what each event leaves behind -----

  /** The call is let through after those before it. */
  predicate Admitted(calls: seq<Call>, call: Call) {
    Admits(Running(calls, call.key), call)
  }

  lemma AdmittedIsLetThrough(s: State, call: Call)
    requires s.updated == After(s.calls)
    ensures LetThrough(s.updated, call) <==> Admitted(s.calls, call)
  {
    var all := s.calls + [call];
    assert all[..|s.calls|] == s.calls;
    AcceptedExactly(all, |s.calls|);
  }

  /** The event sends a new request. */
  predicate Announces(s: State, ev: Event) {
    ev.Update? && !ev.exempt && !ev.skip && ev.call.doing && Admitted(s.calls, ev.call)
  }

  /** The event ends what runs under the key, if anything does. */
  predicate Ends(s: State, ev: Event, key: Key) {
    match ev
    case Update(call, exempt, _) => !exempt && call.key == key && Admitted(s.calls, call)
    case Cancel(k) => k == key
    case CancelTyping(chat) => key == Key(chat, 0, Typing)
    case StopTimerFires(chat) => key == Key(chat, 0, Typing)
    case _ => false
  }

  /** What is on the way afterwards: what was and was not ended under its key, answered or lost, and the new request. */
  lemma OnTheWayAfter(s: State, ev: Event, q: Request)
    requires Invariant(s) && Possible(s, ev)
    ensures q in Step(s, ev).onTheWay
            <==> || (Announces(s, ev) && q == Request(s.next, ev.call.key))
                 || (q in s.onTheWay && !Ends(s, ev, q.key) && ev != Done(q) && ev != Lost(q))
    ensures Step(s, ev).sends == if Announces(s, ev) then s.sends + [|s.calls|] else s.sends
    ensures Step(s, ev).next == if Announces(s, ev) then s.next + 1 else s.next
  {
    if ev.Update? {
      AdmittedIsLetThrough(s, ev.call);
    }
    hide Admitted, LetThrough, Noted, SendsFit, After, Monotone;
  }

  /** What is recorded afterwards; a lost request stays recorded. */
  lemma RecordedAfter(s: State, ev: Event, key: Key)
    requires Invariant(s) && Possible(s, ev)
    ensures var after := Step(s, ev);
            && (key in after.requests
                <==> || (Announces(s, ev) && key == ev.call.key)
                     || (key in s.requests && !Ends(s, ev, key) && !(ev.Done? && ev.q.id == s.requests[key])))
            && (key in after.requests
                ==> after.requests[key] == if Announces(s, ev) && key == ev.call.key then s.next else s.requests[key])
  {
    if ev.Update? {
      AdmittedIsLetThrough(s, ev.call);
    }
    hide Admitted, LetThrough, Noted, SendsFit, After, Monotone;
  }

  /** The one timer afterwards: set by every typing notice sent, for its chat; stopped by every cancelling of typing. */
  lemma TimerAfter(s: State, ev: Event)
    requires Invariant(s) && Possible(s, ev)
    ensures var after := Step(s, ev); var typing := Announces(s, ev) && ev.call.key.action == Typing;
            && after.stopTimer == (typing || (s.stopTimer && !ev.CancelTyping? && !ev.StopTimerFires?))
            && after.stopChat == if typing then Some(ev.call.key.chat)
                                 else if ev.StopTimerFires? then None else s.stopChat
  {
    if ev.Update? {
      AdmittedIsLetThrough(s, ev.call);
    }
    hide Admitted, LetThrough, Noted, SendsFit, After, Monotone, RequestsFit;
  }

  /** The calls the throttle has seen: all but those for oneself and for broadcasts. */
  lemma CallsAfter(s: State, ev: Event)
    ensures Step(s, ev).calls == if ev.Update? && !ev.exempt then s.calls + [ev.call] else s.calls
  {
    hide LetThrough, Noted;
  }

  // ----- the stop timer -----

  /** The chat of the typing notice an event sends, if it sends one. */
  function TypingSent(s: State, ev: Event): Option<Chat> {
    if ev.Update? && !ev.exempt && !ev.skip && ev.call.doing && ev.call.key.action == Typing
       && LetThrough(s.updated, ev.call)
    then Some(ev.call.key.chat)
    else None
  }

  /** The chat of the last typing notice that a run sends; `chat` if it sends none. */
  function LastTyping(s: State, run: seq<Event>, chat: Chat): Chat
    decreases |run|
  {
    if run == [] then chat
    else
      var sent := TypingSent(s, run[0]);
      LastTyping(Step(s, run[0]), run[1..], if sent.Some? then sent.value else chat)
  }

  /** The event neither ends the request nor cancels under its key, and the timer does not fire. */
  predicate Spares(s: State, q: Request, ev: Event) {
    match ev
    case Update(call, exempt, _) => exempt || call.key != q.key || !LetThrough(s.updated, call)
    case Cancel(key) => key != q.key
    case CancelTyping(chat) => q.key != Key(chat, 0, Typing)
    case StopTimerFires(_) => false
    case Done(o) => o != q
    case Lost(o) => o != q
  }

  predicate SparesAll(s: State, q: Request, run: seq<Event>)
    decreases |run|
  {
    run == [] || (Spares(s, q, run[0]) && SparesAll(Step(s, run[0]), q, run[1..]))
  }

  lemma SparedStays(s: State, q: Request, ev: Event, chat: Chat)
    requires RequestsFit(s) && Possible(s, ev) && Spares(s, q, ev) && q in s.onTheWay && s.stopChat == Some(chat)
    ensures q in Step(s, ev).onTheWay
    ensures Step(s, ev).stopChat == if TypingSent(s, ev).Some? then TypingSent(s, ev) else Some(chat)
  {
  }

  lemma {:induction false} SparedUntil(s: State, q: Request, run: seq<Event>, chat: Chat)
    requires Invariant(s) && Runs(s, run) && SparesAll(s, q, run) && q in s.onTheWay && s.stopChat == Some(chat)
    ensures Invariant(Run(s, run)) && q in Run(s, run).onTheWay
    ensures Run(s, run).stopChat == Some(LastTyping(s, run, chat))
    decreases |run|
  {
    if run != [] {
      SparedStays(s, q, run[0], chat);
      StepKeeps(s, run[0]);
      hide Invariant, Step, Possible, Spares, TypingSent;
      var sent := TypingSent(s, run[0]);
      SparedUntil(Step(s, run[0]), q, run[1..], if sent.Some? then sent.value else chat);
    }
  }

  lemma FiringTakes(s: State, q: Request, chat: Chat)
    requires RequestsFit(s) && q in s.onTheWay && Possible(s, StopTimerFires(chat))
    ensures q !in Step(s, StopTimerFires(chat)).onTheWay <==> q.key == Key(chat, 0, Typing)
  {
  }

  /** A typing notice is sent, and its request is neither ended nor cancelled under its own key before the next firing
      of the stop timer. That firing reaches it exactly when the notice was for no topic and the last typing notice
      sent, whatever its topic, was for the same chat. */
  lemma NextFiringReaches(s: State, call: Call, run: seq<Event>, chat: Chat)
    requires Invariant(s) && Possible(s, Update(call, false, false))
    requires TypingSent(s, Update(call, false, false)).Some?
    requires var sent := Step(s, Update(call, false, false));
             && Runs(sent, run) && SparesAll(sent, Request(s.next, call.key), run)
             && Possible(Run(sent, run), StopTimerFires(chat))
    ensures var sent := Step(s, Update(call, false, false)); var q := Request(s.next, call.key);
            && q in Run(sent, run).onTheWay
            && (q !in Step(Run(sent, run), StopTimerFires(chat)).onTheWay
                <==> call.key.topMsgId == 0 && LastTyping(sent, run, call.key.chat) == call.key.chat)
  {
    var sent, q := Step(s, Update(call, false, false)), Request(s.next, call.key);
    StepKeeps(s, Update(call, false, false));
    assert q in sent.onTheWay && sent.stopChat == Some(call.key.chat);
    hide Step, SparesAll, LastTyping;
    SparedUntil(sent, q, run, call.key.chat);
    hide Run, Runs;
    FiringTakes(Run(sent, run), q, chat);
  }

  predicate NoTyping(s: State, run: seq<Event>)
    decreases |run|
  {
    run == [] || (TypingSent(s, run[0]) == None && NoTyping(Step(s, run[0]), run[1..]))
  }

  /** Once the typing is cancelled in any chat at all, the timer does not fire until another typing notice is sent. */
  lemma CancelTypingDisarms(s: State, chat: Chat, run: seq<Event>)
    requires Runs(TypingCancelled(s, chat), run) && NoTyping(TypingCancelled(s, chat), run)
    ensures !Run(TypingCancelled(s, chat), run).stopTimer
    ensures forall i :: 0 <= i < |run| ==> !run[i].StopTimerFires?
  {
    DisarmedStays(TypingCancelled(s, chat), run);
  }

  lemma {:induction false} DisarmedStays(s: State, run: seq<Event>)
    requires !s.stopTimer && Runs(s, run) && NoTyping(s, run)
    ensures !Run(s, run).stopTimer
    ensures forall i :: 0 <= i < |run| ==> !run[i].StopTimerFires?
    decreases |run|
  {
    if run != [] {
      assert !Step(s, run[0]).stopTimer && !run[0].StopTimerFires?;
      hide Step, Possible, TypingSent;
      DisarmedStays(Step(s, run[0]), run[1..]);
      assert forall i :: 0 < i < |run| ==> run[i] == run[1..][i - 1];
    }
  }

  lemma RunOfTwo(s: State, first: Event, second: Event)
    requires Possible(s, first) && Possible(Step(s, first), second)
    ensures Runs(s, [first, second]) && Run(s, [first, second]) == Step(Step(s, first), second)
  {
    hide Step, Possible;
    var later := Step(s, first);
    assert [first, second][1..] == [second] && [second][1..] == [];
    assert Runs(later, [second]) && Run(later, [second]) == Run(Step(later, second), []);
  }

  /** Typing in one chat and then in another: the firing leaves the notice of the first on the way for good. */
  lemma OtherChatIsForgotten(first: Chat, second: Chat)
    requires first != second
    ensures var one, two := Key(first, 0, Typing), Key(second, 0, Typing);
            var s := Step(Initial(), Update(Call(one, true, 0), false, false));
            var run := [Update(Call(two, true, 0), false, false), StopTimerFires(second)];
            Runs(s, run) && Request(1, one) in Run(s, run).onTheWay && !Run(s, run).stopTimer
  {
    var one, two := Key(first, 0, Typing), Key(second, 0, Typing);
    var s := Step(Initial(), Update(Call(one, true, 0), false, false));
    var again := Update(Call(two, true, 0), false, false);
    var t := Step(s, again);
    assert s.onTheWay == {Request(1, one)} && s.requests == map[one := 1];
    assert two !in s.updated && t.requests == map[one := 1, two := 2];
    assert Request(1, one) in t.onTheWay && t.stopChat == Some(second);
    RunOfTwo(s, again, StopTimerFires(second));
  }

  /** Typing in a topic of the first chat afterwards makes the firing reach the forgotten notice after all: what counts
      is the last typing notice, not whether another chat had one. */
  lemma OwnTopicBringsBack(first: Chat, second: Chat, topic: int)
    requires first != second && topic != 0
    ensures var one, two, three := Key(first, 0, Typing), Key(second, 0, Typing), Key(first, topic, Typing);
            var s := Step(Step(Step(Initial(), Update(Call(one, true, 0), false, false)),
                               Update(Call(two, true, 0), false, false)),
                          Update(Call(three, true, 0), false, false));
            && Request(1, one) in s.onTheWay
            && Possible(s, StopTimerFires(first)) && Request(1, one) !in Step(s, StopTimerFires(first)).onTheWay
  {
    var one, two, three := Key(first, 0, Typing), Key(second, 0, Typing), Key(first, topic, Typing);
    var s1 := Step(Initial(), Update(Call(one, true, 0), false, false));
    assert s1.requests == map[one := 1] && two !in s1.updated && three !in s1.updated;
    var s2 := Step(s1, Update(Call(two, true, 0), false, false));
    assert s2.requests == map[one := 1, two := 2] && three !in s2.updated;
    assert s2.onTheWay == {Request(1, one), Request(2, two)};
  }

  /** Cancelling the typing in one chat stops the timer that was set for another. */
  lemma OtherChatIsDisarmed(first: Chat, second: Chat)
    requires first != second
    ensures var one := Key(first, 0, Typing);
            var s := Step(Step(Initial(), Update(Call(one, true, 0), false, false)), CancelTyping(second));
            Request(1, one) in s.onTheWay && !s.stopTimer
  {
    var one := Key(first, 0, Typing);
    var s := Step(Initial(), Update(Call(one, true, 0), false, false));
    assert s.onTheWay == {Request(1, one)} && s.requests == map[one := 1];
  }

  // ----- the object -----

  class SendProgressManager {
    var updated: map<Key, int>
    var requests: map<Key, int>
    var stopTypingChat: Option<Chat>
    var stopTypingTimer: bool
    var nextRequestId: int
    ghost var onTheWay: set<Request>
    ghost var calls: seq<Call>
    ghost var sends: seq<int>

    ghost function View(): State
      reads this
    {
      State(updated, requests, stopTypingChat, stopTypingTimer, nextRequestId, onTheWay, calls, sends)
    }

    constructor ()
      ensures View() == Initial() && Invariant(View())
    {
      updated, requests, stopTypingChat, stopTypingTimer, nextRequestId := map[], map[], None, false, 1;
      onTheWay, calls, sends := {}, [], [];
    }

    method CancelRequest(key: Key)
      modifies this
      ensures View() == Cancelled(old(View()), key)
    {
      if key in requests {
        onTheWay := set q | q in onTheWay && q.id != requests[key];
        requests := requests - {key};
      }
    }

    method CancelTyping(chat: Chat)
      modifies this
      ensures View() == TypingCancelled(old(View()), chat)
    {
      stopTypingTimer := false;
      CancelRequest(Key(chat, 0, Typing));
    }

    /** The timer takes the chat out of its field, which the invariant says is there. */
    method StopTypingTimerFires()
      requires Invariant(View()) && stopTypingTimer
      modifies this
      ensures old(stopTypingChat).Some?
      ensures View() == Step(old(View()), StopTimerFires(old(stopTypingChat).value))
    {
      var chat := stopTypingChat.value;
      stopTypingChat := None;
      CancelTyping(chat);
    }

    method CheckUpdated(key: Key, doing: bool, now: int) returns (through: bool)
      modifies this
      ensures through == LetThrough(old(updated), Call(key, doing, now))
      ensures View() == Called(old(View()), Call(key, doing, now))
    {
      calls := calls + [Call(key, doing, now)];
      if doing {
        var sendEach := if key.action == Speaking then SEND_MY_SPEAKING_INTERVAL else SEND_MY_TYPING_INTERVAL;
        if key !in updated {
          updated := updated[key := now + 2 * sendEach];
        } else if updated[key] > now + sendEach {
          return false;
        } else {
          updated := updated[key := now + 2 * sendEach];
        }
      } else {
        if key !in updated {
          return false;
        } else if updated[key] <= now {
          return false;
        } else {
          updated := updated - {key};
        }
      }
      return true;
    }

    method Update(key: Key, progress: int, isSelf: bool, isBroadcast: bool, skip: bool, now: int)
      requires Possible(View(), Event.Update(Call(key, progress >= 0, now), false, skip))
      modifies this
      ensures var exempt := isSelf || (isBroadcast && key.action != Speaking);
              View() == Step(old(View()), Event.Update(Call(key, progress >= 0, now), exempt, skip))
    {
      if isSelf || (isBroadcast && key.action != Speaking) {
        return;
      }
      var doing := progress >= 0;
      var through := CheckUpdated(key, doing, now);
      if through {
        CancelRequest(key);
        if doing && !skip {
          Send(key);
        }
      }
    }

    method Send(key: Key)
      modifies this
      ensures View() == Sent(old(View()), key)
    {
      onTheWay := onTheWay + {Request(nextRequestId, key)};
      sends := sends + [|calls| - 1];
      if key !in requests {
        requests := requests[key := nextRequestId];
      }
      nextRequestId := nextRequestId + 1;
      if key.action == Typing {
        stopTypingChat := Some(key.chat);
        stopTypingTimer := true;
      }
    }

    /** The first entry with the answered request is erased; the invariant says no other has it. */
    method DoneRequest(requestId: int, ghost q: Request)
      requires Invariant(View()) && q in onTheWay && q.id == requestId
      modifies this
      ensures View() == Step(old(View()), Done(q))
    {
      onTheWay := onTheWay - {q};
      var rest := requests.Keys;
      while rest != {}
        modifies `requests
        invariant requests == old(requests) && rest <= requests.Keys
        invariant forall k :: k in requests && k !in rest ==> requests[k] != requestId
      {
        var key := Pick(rest);
        if requests[key] == requestId {
          requests := requests - {key};
          break;
        }
        rest := rest - {key};
      }
    }
  }
}
