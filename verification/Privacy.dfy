/**
 Privacy rules: the lists of exceptions and the option printed as a list of wire rules, and parsed back from one.
 */
module Privacy {
  import opened Basics

  datatype Peer = User(id: int) | Chat(id: int) | Channel(id: int)

  datatype Choice = Everyone | Contacts | Nobody

  datatype Rule = Rule(option: Choice, always: seq<Peer>, never: seq<Peer>, ignoreAlways: bool, ignoreNever: bool)

  datatype WireRule =
    | AllowAll
    | AllowContacts
    | AllowUsers(ids: seq<int>)
    | AllowChatParticipants(ids: seq<int>)
    | DisallowContacts
    | DisallowAll
    | DisallowUsers(ids: seq<int>)
    | DisallowChatParticipants(ids: seq<int>)

  /** One exception as it is read: a peer, and whether it is allowed. */
  datatype Mention = Mention(peer: Peer, allow: bool)

  datatype Lists = Lists(always: seq<Peer>, never: seq<Peer>)

  // ----- what a wire rule mentions -----

  /** A bare id is first looked for among the loaded chats, then among the loaded channels. */
  function Resolve(loaded: set<Peer>, id: int): Option<Peer> {
    if Chat(id) in loaded then Some(Chat(id))
    else if Channel(id) in loaded then Some(Channel(id))
    else None
  }

  function UserMentions(ids: seq<int>, allow: bool): seq<Mention> {
    seq(|ids|, i requires 0 <= i < |ids| => Mention(User(ids[i]), allow))
  }

  function ChatMentions(ids: seq<int>, allow: bool, loaded: set<Peer>): (ms: seq<Mention>)
    ensures forall m :: m in ms ==> m.allow == allow && !m.peer.User? && Resolve(loaded, m.peer.id) == Some(m.peer)
  {
    if ids == [] then []
    else
      var n := |ids| - 1;
      var resolved := Resolve(loaded, ids[n]);
      ChatMentions(ids[..n], allow, loaded) + if resolved.Some? then [Mention(resolved.value, allow)] else []
  }

  function RuleMentions(rule: WireRule, loaded: set<Peer>): seq<Mention> {
    match rule
    case AllowUsers(ids) => UserMentions(ids, true)
    case AllowChatParticipants(ids) => ChatMentions(ids, true, loaded)
    case DisallowUsers(ids) => UserMentions(ids, false)
    case DisallowChatParticipants(ids) => ChatMentions(ids, false, loaded)
    case _ => []
  }

  function Mentions(rules: seq<WireRule>, loaded: set<Peer>): seq<Mention> {
    if rules == [] then []
    else Mentions(rules[..|rules| - 1], loaded) + RuleMentions(rules[|rules| - 1], loaded)
  }

  // ----- parsing -----

  function Add(l: Lists, m: Mention): Lists {
    if m.peer in l.always || m.peer in l.never then l
    else if m.allow then l.(always := l.always + [m.peer])
    else l.(never := l.never + [m.peer])
  }

  function AddAll(l: Lists, ms: seq<Mention>): Lists {
    if ms == [] then l else Add(AddAll(l, ms[..|ms| - 1]), ms[|ms| - 1])
  }

  function OptionOf(rule: WireRule): Option<Choice> {
    match rule
    case AllowAll => Some(Everyone)
    case AllowContacts => Some(Contacts)
    case DisallowAll => Some(Nobody)
    case _ => None
  }

  /** The first rule that is an option rule; nobody if there is none. */
  function FirstOption(rules: seq<WireRule>): Choice {
    if rules == [] then Nobody
    else if OptionOf(rules[0]).Some? then OptionOf(rules[0]).value
    else FirstOption(rules[1..])
  }

  function Parsed(rules: seq<WireRule>, loaded: set<Peer>): Rule {
    var l := AddAll(Lists([], []), Mentions(rules, loaded));
    Rule(FirstOption(rules), l.always, l.never, false, false)
  }

  // ----- what the parsed lists are: the first mention of a peer decides -----

  ghost predicate Mentioned(ms: seq<Mention>, p: Peer) {
    exists i :: 0 <= i < |ms| && ms[i].peer == p
  }

  /** The peers whose first mention has this verdict, in the order of these mentions. */
  ghost function Winners(ms: seq<Mention>, allow: bool): seq<Peer> {
    if ms == [] then []
    else
      var n := |ms| - 1;
      Winners(ms[..n], allow)
      + if ms[n].allow == allow && !Mentioned(ms[..n], ms[n].peer) then [ms[n].peer] else []
  }

  ghost predicate FirstIs(ms: seq<Mention>, p: Peer, allow: bool) {
    exists i :: 0 <= i < |ms| && ms[i] == Mention(p, allow) && !Mentioned(ms[..i], p)
  }

  ghost predicate Distinct(ps: seq<Peer>) {
    forall i, j :: 0 <= i < j < |ps| ==> ps[i] != ps[j]
  }

  ghost predicate Apart(ps: seq<Peer>, qs: seq<Peer>) {
    forall p :: p in ps ==> p !in qs
  }

  lemma {:induction false} WinnersAreFirst(ms: seq<Mention>, allow: bool, p: Peer)
    ensures p in Winners(ms, allow) <==> FirstIs(ms, p, allow)
  {
    if ms != [] {
      var n := |ms| - 1;
      WinnersAreFirst(ms[..n], allow, p);
      assert forall i :: 0 <= i <= n ==> ms[..n][..i] == ms[..i];
      assert forall i :: 0 <= i < n ==> ms[..n][i] == ms[i];
    }
  }

  lemma MentionedLast(ms: seq<Mention>, p: Peer)
    requires ms != []
    ensures Mentioned(ms, p) <==> Mentioned(ms[..|ms| - 1], p) || ms[|ms| - 1].peer == p
  {
    var n := |ms| - 1;
    if Mentioned(ms[..n], p) {
      var i :| 0 <= i < n && ms[..n][i].peer == p;
      assert ms[i].peer == p;
    }
    if i :| 0 <= i < |ms| && ms[i].peer == p && i != n {
      assert ms[..n][i].peer == p;
    }
  }

  /** The lists hold whoever was mentioned, once and on one side. */
  ghost predicate Settled(ms: seq<Mention>, l: Lists) {
    && (forall p :: p in l.always || p in l.never <==> Mentioned(ms, p))
    && Distinct(l.always) && Distinct(l.never) && Apart(l.always, l.never)
  }

  lemma DistinctOneMore(ps: seq<Peer>, p: Peer)
    requires Distinct(ps) && p !in ps
    ensures Distinct(ps + [p])
  {
  }

  lemma SettledOneMore(ms: seq<Mention>, l: Lists)
    requires ms != [] && Settled(ms[..|ms| - 1], l)
    ensures Settled(ms, Add(l, ms[|ms| - 1]))
  {
    var last := ms[|ms| - 1];
    forall p
      ensures Mentioned(ms, p) <==> Mentioned(ms[..|ms| - 1], p) || last.peer == p
    {
      MentionedLast(ms, p);
    }
    hide Mentioned, Distinct;
    if last.peer !in l.always && last.peer !in l.never {
      DistinctOneMore(if last.allow then l.always else l.never, last.peer);
    }
  }

  lemma {:induction false} ListsAreWinners(ms: seq<Mention>)
    ensures AddAll(Lists([], []), ms) == Lists(Winners(ms, true), Winners(ms, false))
    ensures Settled(ms, AddAll(Lists([], []), ms))
  {
    if ms != [] {
      var n := |ms| - 1;
      ListsAreWinners(ms[..n]);
      var l := AddAll(Lists([], []), ms[..n]);
      assert Mentioned(ms[..n], ms[n].peer) <==> ms[n].peer in l.always || ms[n].peer in l.never;
      SettledOneMore(ms, l);
      hide Mentioned, Settled;
    }
  }

  lemma {:induction false} MentionResolves(rules: seq<WireRule>, loaded: set<Peer>, p: Peer)
    requires Mentioned(Mentions(rules, loaded), p) && !p.User?
    ensures Resolve(loaded, p.id) == Some(p)
  {
    var n := |rules| - 1;
    var before, last := Mentions(rules[..n], loaded), RuleMentions(rules[n], loaded);
    var all: seq<Mention> := before + last;
    var i :| 0 <= i < |all| && all[i].peer == p;
    if i < |before| {
      assert Mentioned(before, p) by { assert before[i].peer == p; }
      MentionResolves(rules[..n], loaded, p);
    } else {
      assert last[i - |before|] in last;
    }
  }

  /** For every list of wire rules: no peer twice, none on both sides, and for each the first mention decides. */
  lemma ParsedIsFirstMention(rules: seq<WireRule>, loaded: set<Peer>, p: Peer)
    ensures var r := Parsed(rules, loaded); var ms := Mentions(rules, loaded);
            && Distinct(r.always) && Distinct(r.never) && Apart(r.always, r.never)
            && (p in r.always <==> FirstIs(ms, p, true))
            && (p in r.never <==> FirstIs(ms, p, false))
            && r.always == Winners(ms, true) && r.never == Winners(ms, false)
  {
    ListsAreWinners(Mentions(rules, loaded));
    WinnersAreFirst(Mentions(rules, loaded), true, p);
    WinnersAreFirst(Mentions(rules, loaded), false, p);
  }

  // ----- printing -----

  function UserIds(ps: seq<Peer>): seq<int> {
    if ps == [] then []
    else UserIds(ps[..|ps| - 1]) + if ps[|ps| - 1].User? then [ps[|ps| - 1].id] else []
  }

  function ChatIds(ps: seq<Peer>): seq<int> {
    if ps == [] then []
    else ChatIds(ps[..|ps| - 1]) + if ps[|ps| - 1].User? then [] else [ps[|ps| - 1].id]
  }

  function OptionRule(option: Choice): WireRule {
    match option
    case Everyone => AllowAll
    case Contacts => AllowContacts
    case Nobody => DisallowAll
  }

  function Part(rule: WireRule): seq<WireRule>
    requires rule.AllowUsers? || rule.AllowChatParticipants? || rule.DisallowUsers? || rule.DisallowChatParticipants?
  {
    if rule.ids == [] then [] else [rule]
  }

  function Allowed(rule: Rule): seq<Peer> {
    if rule.ignoreAlways then [] else rule.always
  }

  function Disallowed(rule: Rule): seq<Peer> {
    if rule.ignoreNever then [] else rule.never
  }

  function Printed(rule: Rule): seq<WireRule> {
    Part(AllowUsers(UserIds(Allowed(rule)))) + Part(AllowChatParticipants(ChatIds(Allowed(rule))))
    + Part(DisallowUsers(UserIds(Disallowed(rule)))) + Part(DisallowChatParticipants(ChatIds(Disallowed(rule))))
    + [OptionRule(rule.option)]
  }

  // ----- the round trip -----

  ghost function UsersOf(ps: seq<Peer>): seq<Peer> {
    if ps == [] then []
    else UsersOf(ps[..|ps| - 1]) + if ps[|ps| - 1].User? then [ps[|ps| - 1]] else []
  }

  ghost function ChatsOf(ps: seq<Peer>): seq<Peer> {
    if ps == [] then []
    else ChatsOf(ps[..|ps| - 1]) + if ps[|ps| - 1].User? then [] else [ps[|ps| - 1]]
  }

  /** The users in their order, then the chats and channels in theirs. */
  ghost function UsersFirst(ps: seq<Peer>): seq<Peer> {
    UsersOf(ps) + ChatsOf(ps)
  }

  ghost predicate AllResolve(ps: seq<Peer>, loaded: set<Peer>) {
    forall p :: p in ps && !p.User? ==> Resolve(loaded, p.id) == Some(p)
  }

  /** What can be stored without loss: nobody twice or on both sides, every chat found again by its bare id. */
  ghost predicate Storable(rule: Rule, loaded: set<Peer>) {
    && Distinct(Allowed(rule)) && Distinct(Disallowed(rule)) && Apart(Allowed(rule), Disallowed(rule))
    && AllResolve(Allowed(rule), loaded) && AllResolve(Disallowed(rule), loaded)
  }

  function AsMentions(ps: seq<Peer>, allow: bool): seq<Mention> {
    seq(|ps|, i requires 0 <= i < |ps| => Mention(ps[i], allow))
  }

  lemma LastMentions(rules: seq<WireRule>, last: WireRule, loaded: set<Peer>)
    ensures Mentions(rules + [last], loaded) == Mentions(rules, loaded) + RuleMentions(last, loaded)
  {
    hide RuleMentions;
    assert (rules + [last])[..|rules|] == rules;
  }

  lemma Regroup<T>(a: seq<T>, b: seq<T>, c: seq<T>)
    ensures a + b + c == a + (b + c)
  {
  }

  lemma SplitLast<T>(a: seq<T>)
    requires a != []
    ensures a == a[..|a| - 1] + [a[|a| - 1]]
  {
  }

  lemma {:induction false} MentionsAppend(a: seq<WireRule>, b: seq<WireRule>, loaded: set<Peer>)
    ensures Mentions(a + b, loaded) == Mentions(a, loaded) + Mentions(b, loaded)
  {
    if b == [] {
      assert a + b == a && Mentions(b, loaded) == [];
    } else {
      var most, last := b[..|b| - 1], b[|b| - 1];
      hide Mentions, RuleMentions;
      SplitLast(b);
      MentionsAppend(a, most, loaded);
      LastMentions(most, last, loaded);
      LastMentions(a + most, last, loaded);
      Regroup(a, most, [last]);
      Regroup(Mentions(a, loaded), Mentions(most, loaded), RuleMentions(last, loaded));
    }
  }

  lemma PartMentions(rule: WireRule, loaded: set<Peer>)
    requires rule.AllowUsers? || rule.AllowChatParticipants? || rule.DisallowUsers? || rule.DisallowChatParticipants?
    ensures Mentions(Part(rule), loaded) == RuleMentions(rule, loaded)
  {
    if rule.ids != [] {
      assert [rule][..0] == [];
    }
  }

  lemma PrintedMentions(rule: Rule, loaded: set<Peer>)
    ensures var a, n := Allowed(rule), Disallowed(rule);
            Mentions(Printed(rule), loaded)
            == UserMentions(UserIds(a), true) + ChatMentions(ChatIds(a), true, loaded)
               + UserMentions(UserIds(n), false) + ChatMentions(ChatIds(n), false, loaded)
  {
    var a, n := Allowed(rule), Disallowed(rule);
    var p1, p2 := AllowUsers(UserIds(a)), AllowChatParticipants(ChatIds(a));
    var p3, p4 := DisallowUsers(UserIds(n)), DisallowChatParticipants(ChatIds(n));
    hide Part, Mentions, UserMentions, ChatMentions, UserIds, ChatIds;
    assert Printed(rule) == Part(p1) + Part(p2) + Part(p3) + Part(p4) + [OptionRule(rule.option)];
    hide Printed;
    PartMentions(p1, loaded);
    PartMentions(p2, loaded);
    PartMentions(p3, loaded);
    PartMentions(p4, loaded);
    MentionsOfFive(Part(p1), Part(p2), Part(p3), Part(p4), OptionRule(rule.option), loaded);
  }

  lemma MentionsOfFive(a: seq<WireRule>, b: seq<WireRule>, c: seq<WireRule>, d: seq<WireRule>, last: WireRule,
                       loaded: set<Peer>)
    requires OptionOf(last).Some?
    ensures Mentions(a + b + c + d + [last], loaded)
            == Mentions(a, loaded) + Mentions(b, loaded) + Mentions(c, loaded) + Mentions(d, loaded)
  {
    assert [last][..0] == [] && Mentions([last], loaded) == [];
    hide Mentions;
    MentionsAppend(a + b + c + d, [last], loaded);
    MentionsAppend(a + b + c, d, loaded);
    MentionsAppend(a + b, c, loaded);
    MentionsAppend(a, b, loaded);
  }

  ghost predicate NoOption(rules: seq<WireRule>) {
    forall i :: 0 <= i < |rules| ==> OptionOf(rules[i]) == None
  }

  lemma {:induction false} FirstOptionAppend(a: seq<WireRule>, last: WireRule)
    requires NoOption(a) && OptionOf(last).Some?
    ensures FirstOption(a + [last]) == OptionOf(last).value
  {
    hide OptionOf;
    if a != [] {
      FirstOptionAppend(a[1..], last);
      assert (a + [last])[1..] == a[1..] + [last];
    }
  }

  lemma NoOptionAppend(a: seq<WireRule>, b: seq<WireRule>)
    requires NoOption(a) && NoOption(b)
    ensures NoOption(a + b)
  {
    hide OptionOf;
  }

  lemma PrintedOption(rule: Rule)
    ensures FirstOption(Printed(rule)) == rule.option
  {
    var a, n := Allowed(rule), Disallowed(rule);
    var p1, p2 := Part(AllowUsers(UserIds(a))), Part(AllowChatParticipants(ChatIds(a)));
    var p3, p4 := Part(DisallowUsers(UserIds(n))), Part(DisallowChatParticipants(ChatIds(n)));
    assert NoOption(p1) && NoOption(p2) && NoOption(p3) && NoOption(p4);
    hide NoOption, Part;
    NoOptionAppend(p1, p2);
    NoOptionAppend(p1 + p2, p3);
    NoOptionAppend(p1 + p2 + p3, p4);
    FirstOptionAppend(p1 + p2 + p3 + p4, OptionRule(rule.option));
  }

  lemma {:induction false} UserMentionsAre(ps: seq<Peer>, allow: bool)
    ensures UserMentions(UserIds(ps), allow) == AsMentions(UsersOf(ps), allow)
  {
    if ps != [] {
      var n := |ps| - 1;
      UserMentionsAre(ps[..n], allow);
      if ps[n].User? {
        assert UserMentions(UserIds(ps), allow) == UserMentions(UserIds(ps[..n]), allow) + [Mention(ps[n], allow)];
        assert AsMentions(UsersOf(ps), allow) == AsMentions(UsersOf(ps[..n]), allow) + [Mention(ps[n], allow)];
      } else {
        assert UserIds(ps) == UserIds(ps[..n]) && UsersOf(ps) == UsersOf(ps[..n]);
      }
    }
  }

  lemma {:induction false} ChatMentionsAre(ps: seq<Peer>, allow: bool, loaded: set<Peer>)
    requires AllResolve(ps, loaded)
    ensures ChatMentions(ChatIds(ps), allow, loaded) == AsMentions(ChatsOf(ps), allow)
  {
    if ps != [] {
      var n := |ps| - 1;
      ChatMentionsAre(ps[..n], allow, loaded);
      if !ps[n].User? {
        assert ps[n] in ps;
        var ids := ChatIds(ps);
        assert ids[..|ids| - 1] == ChatIds(ps[..n]) && ids[|ids| - 1] == ps[n].id;
        assert AsMentions(ChatsOf(ps), allow) == AsMentions(ChatsOf(ps[..n]), allow) + [Mention(ps[n], allow)];
      } else {
        assert ChatIds(ps) == ChatIds(ps[..n]) && ChatsOf(ps) == ChatsOf(ps[..n]);
      }
    }
  }

  lemma CountedAnywhere(a: seq<Peer>, b: seq<Peer>, p: Peer)
    ensures multiset((a + [p]) + b) == multiset(a + b) + multiset{p} == multiset(a + (b + [p]))
  {
    Regroup(a, b, [p]);
  }

  lemma UsersFirstLast(ps: seq<Peer>, p: Peer)
    ensures multiset(UsersFirst(ps + [p])) == multiset(UsersFirst(ps)) + multiset{p}
  {
    assert (ps + [p])[..|ps|] == ps;
    CountedAnywhere(UsersOf(ps), ChatsOf(ps), p);
  }

  lemma {:induction false} UsersFirstKeeps(ps: seq<Peer>)
    ensures multiset(UsersFirst(ps)) == multiset(ps)
  {
    if ps != [] {
      var n := |ps| - 1;
      UsersFirstKeeps(ps[..n]);
      UsersFirstLast(ps[..n], ps[n]);
      SplitLast(ps);
      hide UsersOf, ChatsOf, UsersFirst;
    }
  }

  lemma {:induction false} DistinctByCount(ps: seq<Peer>)
    ensures Distinct(ps) <==> forall p :: multiset(ps)[p] <= 1
  {
    if ps != [] {
      var n := |ps| - 1;
      DistinctByCount(ps[..n]);
      assert ps == ps[..n] + [ps[n]];
      if Distinct(ps) {
        assert ps[n] !in ps[..n];
      }
      if forall p :: multiset(ps)[p] <= 1 {
        assert multiset(ps)[ps[n]] == multiset(ps[..n])[ps[n]] + 1;
        assert forall p :: multiset(ps[..n])[p] <= multiset(ps)[p];
      }
    }
  }

  lemma UsersFirstDistinct(ps: seq<Peer>)
    ensures Distinct(UsersFirst(ps)) <==> Distinct(ps)
    ensures forall p :: p in UsersFirst(ps) <==> p in ps
  {
    UsersFirstKeeps(ps);
    DistinctByCount(ps);
    DistinctByCount(UsersFirst(ps));
    assert forall p :: p in multiset(ps) <==> p in ps;
    assert forall p :: p in multiset(UsersFirst(ps)) <==> p in UsersFirst(ps);
  }

  lemma MentionedInOrder(a: seq<Peer>, n: seq<Peer>, p: Peer)
    ensures Mentioned(AsMentions(a, true) + AsMentions(n, false), p) <==> p in a || p in n
  {
    var ms := AsMentions(a, true) + AsMentions(n, false);
    if p in a + n {
      var i :| 0 <= i < |a + n| && (a + n)[i] == p;
      assert ms[i].peer == p;
    }
  }

  lemma {:induction false} AllowedAllWin(a: seq<Peer>)
    requires Distinct(a)
    ensures Winners(AsMentions(a, true), true) == a && Winners(AsMentions(a, true), false) == []
  {
    if a != [] {
      var k, ms := |a| - 1, AsMentions(a, true);
      AllowedAllWin(a[..k]);
      assert ms[..k] == AsMentions(a[..k], true) && ms[k] == Mention(a[k], true);
      MentionedInOrder(a[..k], [], a[k]);
      assert ms[..k] + AsMentions([], false) == ms[..k];
    }
  }

  lemma WinnersLast(ms: seq<Mention>, m: Mention, allow: bool)
    ensures Winners(ms + [m], allow)
            == Winners(ms, allow) + if m.allow == allow && !Mentioned(ms, m.peer) then [m.peer] else []
  {
    assert (ms + [m])[..|ms|] == ms;
    hide Mentioned;
  }

  lemma AsMentionsLast(before: seq<Mention>, n: seq<Peer>, p: Peer, allow: bool)
    ensures before + AsMentions(n + [p], allow) == before + AsMentions(n, allow) + [Mention(p, allow)]
  {
  }

  /** Among distinct mentions everyone wins. */
  lemma {:induction false} DistinctAllWin(a: seq<Peer>, n: seq<Peer>)
    requires Distinct(a) && Distinct(n) && Apart(a, n)
    ensures Winners(AsMentions(a, true) + AsMentions(n, false), true) == a
    ensures Winners(AsMentions(a, true) + AsMentions(n, false), false) == n
    decreases |n|
  {
    if n == [] {
      AllowedAllWin(a);
      assert AsMentions(a, true) + AsMentions(n, false) == AsMentions(a, true);
    } else {
      var k := |n| - 1;
      DistinctAllWin(a, n[..k]);
      assert n[k] !in a && n[k] !in n[..k];
      hide AsMentions, Distinct, Apart, Winners, Mentioned;
      MentionedInOrder(a, n[..k], n[k]);
      SplitLast(n);
      AsMentionsLast(AsMentions(a, true), n[..k], n[k], false);
      WinnersLast(AsMentions(a, true) + AsMentions(n[..k], false), Mention(n[k], false), true);
      WinnersLast(AsMentions(a, true) + AsMentions(n[..k], false), Mention(n[k], false), false);
    }
  }

  lemma StorableMentions(rule: Rule, loaded: set<Peer>)
    requires Storable(rule, loaded)
    ensures Mentions(Printed(rule), loaded)
            == AsMentions(UsersFirst(Allowed(rule)), true) + AsMentions(UsersFirst(Disallowed(rule)), false)
  {
    var a, n := Allowed(rule), Disallowed(rule);
    hide Printed, Mentions, UserMentions, ChatMentions, UserIds, ChatIds, UsersOf, ChatsOf;
    PrintedMentions(rule, loaded);
    UserMentionsAre(a, true);
    UserMentionsAre(n, false);
    ChatMentionsAre(a, true, loaded);
    ChatMentionsAre(n, false, loaded);
    AsMentionsAppend(UsersOf(a), ChatsOf(a), true);
    AsMentionsAppend(UsersOf(n), ChatsOf(n), false);
    hide AsMentions;
  }

  lemma AsMentionsAppend(a: seq<Peer>, b: seq<Peer>, allow: bool)
    ensures AsMentions(a + b, allow) == AsMentions(a, allow) + AsMentions(b, allow)
  {
  }

  lemma StorableComesBack(rule: Rule, loaded: set<Peer>)
    requires Storable(rule, loaded)
    ensures Parsed(Printed(rule), loaded)
            == Rule(rule.option, UsersFirst(Allowed(rule)), UsersFirst(Disallowed(rule)), false, false)
  {
    var a, n := Allowed(rule), Disallowed(rule);
    StorableMentions(rule, loaded);
    PrintedOption(rule);
    UsersFirstDistinct(a);
    UsersFirstDistinct(n);
    DistinctAllWin(UsersFirst(a), UsersFirst(n));
    ListsAreWinners(Mentions(Printed(rule), loaded));
    hide Printed, Mentions, UsersFirst, Winners, AsMentions, AddAll;
  }

  /** Printing and parsing give back the option and the lists, users first, exactly for what can be stored. */
  lemma RoundTrip(rule: Rule, loaded: set<Peer>)
    ensures Parsed(Printed(rule), loaded)
            == Rule(rule.option, UsersFirst(Allowed(rule)), UsersFirst(Disallowed(rule)), false, false)
            <==> Storable(rule, loaded)
  {
    var a, n := Allowed(rule), Disallowed(rule);
    if Storable(rule, loaded) {
      StorableComesBack(rule, loaded);
    }
    if Parsed(Printed(rule), loaded) == Rule(rule.option, UsersFirst(a), UsersFirst(n), false, false) {
      hide Printed, Mentions, UsersFirst;
      ListsAreWinners(Mentions(Printed(rule), loaded));
      UsersFirstDistinct(a);
      UsersFirstDistinct(n);
      forall p | (p in a || p in n) && !p.User? ensures Resolve(loaded, p.id) == Some(p) {
        MentionResolves(Printed(rule), loaded, p);
      }
    }
  }

  /** Whatever was parsed can be stored, so a second round only moves the users to the front. */
  lemma ParsedIsStorable(rules: seq<WireRule>, loaded: set<Peer>)
    ensures var r := Parsed(rules, loaded);
            && Storable(r, loaded)
            && Parsed(Printed(r), loaded) == Rule(r.option, UsersFirst(r.always), UsersFirst(r.never), false, false)
  {
    var r := Parsed(rules, loaded);
    ListsAreWinners(Mentions(rules, loaded));
    forall p | (p in r.always || p in r.never) && !p.User? ensures Resolve(loaded, p.id) == Some(p) {
      MentionResolves(rules, loaded, p);
    }
    StorableComesBack(r, loaded);
  }

  lemma OneChannelPrinted(id: int)
    ensures ChatIds([Channel(id)]) == [id] && UserIds([Channel(id)]) == []
    ensures ChatIds([]) == [] && UserIds([]) == []
  {
    assert [Channel(id)][..0] == [];
    assert ChatIds([Channel(id)]) == ChatIds([]) + [id] == [id];
    assert UserIds([Channel(id)]) == UserIds([]) + [] == [];
  }

  lemma ClashMentionsChat(rule: Rule, loaded: set<Peer>, id: int)
    requires Allowed(rule) == [Channel(id)] && Disallowed(rule) == [] && Chat(id) in loaded
    ensures Mentions(Printed(rule), loaded) == [Mention(Chat(id), true)]
  {
    OneChannelPrinted(id);
    assert ChatMentions([id], true, loaded) == [Mention(Chat(id), true)] by {
      assert [id][..0] == [];
      assert ChatMentions([], true, loaded) == [];
    }
    assert ChatMentions([], false, loaded) == [];
    assert UserMentions([], true) == [] && UserMentions([], false) == [];
    PrintedMentions(rule, loaded);
    hide ChatMentions, UserMentions, ChatIds, UserIds, Mentions, Printed;
  }

  /** A channel that shares its bare id with a loaded chat comes back as that chat. */
  lemma ClashComesBackAsChat(id: int, option: Choice)
    ensures var rule := Rule(option, [Channel(id)], [], false, false); var loaded := {Chat(id), Channel(id)};
            !Storable(rule, loaded) && Parsed(Printed(rule), loaded).always == [Chat(id)]
  {
    var rule, loaded := Rule(option, [Channel(id)], [], false, false), {Chat(id), Channel(id)};
    ClashMentionsChat(rule, loaded, id);
    var ms := Mentions(Printed(rule), loaded);
    assert AddAll(Lists([], []), ms) == Lists([Chat(id)], []) by {
      assert ms[..0] == [];
      assert AddAll(Lists([], []), ms) == Add(AddAll(Lists([], []), []), ms[0]);
    }
    assert Channel(id) in Allowed(rule) && Resolve(loaded, id) == Some(Chat(id));
    hide AddAll, Mentions, Printed;
  }

  // ----- on the wire -----

  predicate IsOptionRule(rule: WireRule) {
    rule.AllowAll? || rule.AllowContacts? || rule.DisallowAll?
  }

  /** The first of the three option rules says what is parsed; without any it is nobody. */
  lemma {:induction false} OptionOnWire(rules: seq<WireRule>, loaded: set<Peer>)
    ensures var option := Parsed(rules, loaded).option;
            && ((forall i :: 0 <= i < |rules| ==> !IsOptionRule(rules[i])) ==> option == Nobody)
            && forall i :: && 0 <= i < |rules| && IsOptionRule(rules[i])
                           && (forall j :: 0 <= j < i ==> !IsOptionRule(rules[j]))
                           ==> option == if rules[i].AllowAll? then Everyone
                                         else if rules[i].AllowContacts? then Contacts else Nobody
  {
    if rules != [] && !IsOptionRule(rules[0]) {
      OptionOnWire(rules[1..], loaded);
      assert forall i :: 1 <= i < |rules| ==> rules[1..][i - 1] == rules[i];
      assert Parsed(rules, loaded).option == Parsed(rules[1..], loaded).option;
    }
  }

  /** The rule lists the peer: a user by its id, another by a bare id that is first looked for among the chats. */
  predicate Names(rule: WireRule, loaded: set<Peer>, p: Peer) {
    match rule
    case AllowUsers(ids) => p.User? && p.id in ids
    case DisallowUsers(ids) => p.User? && p.id in ids
    case AllowChatParticipants(ids) => p.id in ids && FoundByBareId(loaded, p)
    case DisallowChatParticipants(ids) => p.id in ids && FoundByBareId(loaded, p)
    case _ => false
  }

  predicate FoundByBareId(loaded: set<Peer>, p: Peer) {
    !p.User? && p in loaded && (p.Channel? ==> Chat(p.id) !in loaded)
  }

  predicate Allows(rule: WireRule) {
    rule.AllowUsers? || rule.AllowChatParticipants?
  }

  ghost predicate FirstNames(rules: seq<WireRule>, loaded: set<Peer>, p: Peer, i: nat) {
    i < |rules| && Names(rules[i], loaded, p) && forall h :: 0 <= h < i ==> !Names(rules[h], loaded, p)
  }

  lemma {:induction false} ChatMentionsName(ids: seq<int>, allow: bool, loaded: set<Peer>, p: Peer)
    ensures Mentioned(ChatMentions(ids, allow, loaded), p) <==> p.id in ids && FoundByBareId(loaded, p)
  {
    if ids == [] {
      assert ChatMentions(ids, allow, loaded) == [];
    } else {
      var n := |ids| - 1;
      var before, resolved := ChatMentions(ids[..n], allow, loaded), Resolve(loaded, ids[n]);
      var all := ChatMentions(ids, allow, loaded);
      assert all == before + if resolved.Some? then [Mention(resolved.value, allow)] else [];
      assert ids == ids[..n] + [ids[n]];
      hide ChatMentions, Mentioned;
      ChatMentionsName(ids[..n], allow, loaded, p);
      if resolved.Some? {
        assert all[..|all| - 1] == before && all[|all| - 1] == Mention(resolved.value, allow);
        MentionedLast(all, p);
      } else {
        assert all == before;
      }
    }
  }

  lemma RuleMentionsName(rule: WireRule, loaded: set<Peer>, p: Peer)
    ensures Mentioned(RuleMentions(rule, loaded), p) <==> Names(rule, loaded, p)
    ensures forall m :: m in RuleMentions(rule, loaded) ==> m.allow == Allows(rule)
  {
    match rule
    case AllowUsers(ids) => UserMentionsName(ids, true, p);
    case DisallowUsers(ids) => UserMentionsName(ids, false, p);
    case AllowChatParticipants(ids) => ChatMentionsName(ids, true, loaded, p);
    case DisallowChatParticipants(ids) => ChatMentionsName(ids, false, loaded, p);
    case _ =>
  }

  lemma UserMentionsName(ids: seq<int>, allow: bool, p: Peer)
    ensures Mentioned(UserMentions(ids, allow), p) <==> p.User? && p.id in ids
  {
    if p.User? && p.id in ids {
      var i :| 0 <= i < |ids| && ids[i] == p.id;
      assert UserMentions(ids, allow)[i].peer == p;
    }
  }

  /** The first mention in two lists of which the second has one verdict. */
  lemma FirstOfTwo(a: seq<Mention>, b: seq<Mention>, p: Peer, verdict: bool, allow: bool)
    requires forall m :: m in b ==> m.allow == verdict
    ensures Mentioned(a + b, p) <==> Mentioned(a, p) || Mentioned(b, p)
    ensures FirstIs(a + b, p, allow)
            <==> FirstIs(a, p, allow) || (!Mentioned(a, p) && Mentioned(b, p) && allow == verdict)
  {
    var all := a + b;
    MentionedInBoth(a, b, p);
    if FirstIs(a, p, allow) {
      var i :| 0 <= i < |a| && a[i] == Mention(p, allow) && !Mentioned(a[..i], p);
      assert all[i] == a[i] && all[..i] == a[..i];
    }
    if !Mentioned(a, p) && Mentioned(b, p) {
      var i := FirstMention(b, p);
      assert all[|a| + i] == b[i] && b[i] in b;
      assert all[..|a| + i] == a + b[..i];
      MentionedInBoth(a, b[..i], p);
    }
    if FirstIs(all, p, allow) {
      var i :| 0 <= i < |all| && all[i] == Mention(p, allow) && !Mentioned(all[..i], p);
      if i < |a| {
        assert all[i] == a[i] && all[..i] == a[..i];
      } else {
        assert all[i] == b[i - |a|] && all[i] in b;
        assert all[..i] == a + all[|a|..i];
        MentionedInBoth(a, all[|a|..i], p);
      }
    }
  }

  lemma MentionedInBoth(a: seq<Mention>, b: seq<Mention>, p: Peer)
    ensures Mentioned(a + b, p) <==> Mentioned(a, p) || Mentioned(b, p)
  {
    if i :| 0 <= i < |a| && a[i].peer == p {
      assert (a + b)[i].peer == p;
    }
    if i :| 0 <= i < |b| && b[i].peer == p {
      assert (a + b)[|a| + i].peer == p;
    }
  }

  lemma {:induction false} FirstMention(ms: seq<Mention>, p: Peer) returns (i: nat)
    requires Mentioned(ms, p)
    ensures i < |ms| && ms[i].peer == p && !Mentioned(ms[..i], p)
  {
    var n := |ms| - 1;
    if Mentioned(ms[..n], p) {
      i := FirstMention(ms[..n], p);
      assert ms[..n][..i] == ms[..i];
    } else {
      MentionedLast(ms, p);
      i := n;
    }
  }

  lemma {:induction false} FirstRuleDecides(rules: seq<WireRule>, loaded: set<Peer>, p: Peer, allow: bool)
    ensures Mentioned(Mentions(rules, loaded), p) <==> SomeNames(rules, loaded, p)
    ensures FirstIs(Mentions(rules, loaded), p, allow) <==> Decided(rules, loaded, p, allow)
  {
    if rules != [] {
      var n := |rules| - 1;
      var before, last := Mentions(rules[..n], loaded), RuleMentions(rules[n], loaded);
      assert Mentions(rules, loaded) == before + last;
      hide *;
      FirstRuleDecides(rules[..n], loaded, p, allow);
      RuleMentionsName(rules[n], loaded, p);
      FirstOfTwo(before, last, p, Allows(rules[n]), allow);
      RuleAppended(rules, loaded, p, allow);
    }
  }

  ghost predicate SomeNames(rules: seq<WireRule>, loaded: set<Peer>, p: Peer) {
    exists i: nat :: i < |rules| && Names(rules[i], loaded, p)
  }

  ghost predicate Decided(rules: seq<WireRule>, loaded: set<Peer>, p: Peer, allow: bool) {
    exists i: nat :: FirstNames(rules, loaded, p, i) && Allows(rules[i]) == allow
  }

  lemma RuleAppended(rules: seq<WireRule>, loaded: set<Peer>, p: Peer, allow: bool)
    requires rules != []
    ensures var n := |rules| - 1; var before := rules[..n];
            && (SomeNames(rules, loaded, p) <==> SomeNames(before, loaded, p) || Names(rules[n], loaded, p))
            && (Decided(rules, loaded, p, allow)
                <==> || Decided(before, loaded, p, allow)
                     || (!SomeNames(before, loaded, p) && Names(rules[n], loaded, p) && Allows(rules[n]) == allow))
  {
    var n := |rules| - 1;
    var before := rules[..n];
    hide Names, Allows;
    assert forall i :: 0 <= i < n ==> before[i] == rules[i];
    assert forall i: nat :: i < n ==> (FirstNames(before, loaded, p, i) <==> FirstNames(rules, loaded, p, i));
    assert FirstNames(rules, loaded, p, n)
      <==> Names(rules[n], loaded, p) && forall i :: 0 <= i < n ==> !Names(before[i], loaded, p);
  }

  lemma PartIs(rule: WireRule, w: WireRule)
    requires rule.AllowUsers? || rule.AllowChatParticipants? || rule.DisallowUsers? || rule.DisallowChatParticipants?
    ensures w in Part(rule) <==> w == rule && rule.ids != []
  {
  }

  lemma PrintedIsOneOf(rule: Rule, w: WireRule)
    ensures w in Printed(rule)
            <==> || (w == AllowUsers(UserIds(Allowed(rule))) && w.ids != [])
                 || (w == AllowChatParticipants(ChatIds(Allowed(rule))) && w.ids != [])
                 || (w == DisallowUsers(UserIds(Disallowed(rule))) && w.ids != [])
                 || (w == DisallowChatParticipants(ChatIds(Disallowed(rule))) && w.ids != [])
                 || w == OptionRule(rule.option)
  {
    hide UserIds, ChatIds, Part, OptionRule, Allowed, Disallowed;
    var a, n := Allowed(rule), Disallowed(rule);
    PartIs(AllowUsers(UserIds(a)), w);
    PartIs(AllowChatParticipants(ChatIds(a)), w);
    PartIs(DisallowUsers(UserIds(n)), w);
    PartIs(DisallowChatParticipants(ChatIds(n)), w);
  }

  /** On the wire: a peer is allowed or not by the first rule that lists it. */
  lemma ParsedOnWire(rules: seq<WireRule>, loaded: set<Peer>, p: Peer)
    ensures var r := Parsed(rules, loaded);
            && (p in r.always <==> exists i: nat :: FirstNames(rules, loaded, p, i) && Allows(rules[i]))
            && (p in r.never <==> exists i: nat :: FirstNames(rules, loaded, p, i) && !Allows(rules[i]))
            && !r.ignoreAlways && !r.ignoreNever
  {
    ParsedIsFirstMention(rules, loaded, p);
    FirstRuleDecides(rules, loaded, p, true);
    FirstRuleDecides(rules, loaded, p, false);
    hide Mentions, FirstIs, Winners;
  }

  lemma {:induction false} IdsAreCounted(ps: seq<Peer>, id: int)
    ensures multiset(UserIds(ps))[id] == multiset(ps)[User(id)]
    ensures multiset(ChatIds(ps))[id] == multiset(ps)[Chat(id)] + multiset(ps)[Channel(id)]
  {
    if ps != [] {
      var n := |ps| - 1;
      IdsAreCounted(ps[..n], id);
      SplitLast(ps);
    }
  }

  /** What is printed says what the rule says: nothing of an ignored list, the users and the others of a list as often
      as they are in it, and the option. */
  predicate SaysOf(w: WireRule, rule: Rule, id: int) {
    var always, never := multiset(rule.always), multiset(rule.never);
    match w
    case AllowAll => rule.option == Everyone
    case AllowContacts => rule.option == Contacts
    case DisallowAll => rule.option == Nobody
    case DisallowContacts => false
    case AllowUsers(ids) => !rule.ignoreAlways && multiset(ids)[id] == always[User(id)]
    case AllowChatParticipants(ids) => !rule.ignoreAlways && multiset(ids)[id] == always[Chat(id)] + always[Channel(id)]
    case DisallowUsers(ids) => !rule.ignoreNever && multiset(ids)[id] == never[User(id)]
    case DisallowChatParticipants(ids) => !rule.ignoreNever && multiset(ids)[id] == never[Chat(id)] + never[Channel(id)]
  }

  /** Who is on a list that is not ignored is in a rule of the right kind. */
  predicate SaysAll(printed: seq<WireRule>, rule: Rule, p: Peer) {
    && (!rule.ignoreAlways && p in rule.always
        ==> exists w :: w in printed && if p.User? then w.AllowUsers? else w.AllowChatParticipants?)
    && (!rule.ignoreNever && p in rule.never
        ==> exists w :: w in printed && if p.User? then w.DisallowUsers? else w.DisallowChatParticipants?)
  }

  lemma PrintedSays(rule: Rule, w: WireRule, id: int)
    requires w in Printed(rule)
    ensures SaysOf(w, rule, id)
  {
    hide UserIds, ChatIds, Printed, Part;
    PrintedIsOneOf(rule, w);
    UnlessIgnored(rule.always, rule.ignoreAlways, id);
    UnlessIgnored(rule.never, rule.ignoreNever, id);
  }

  lemma UnlessIgnored(ps: seq<Peer>, ignored: bool, id: int)
    ensures var users := UserIds(if ignored then [] else ps);
            users != [] ==> !ignored && multiset(users)[id] == multiset(ps)[User(id)]
    ensures var chats := ChatIds(if ignored then [] else ps);
            chats != [] ==> !ignored && multiset(chats)[id] == multiset(ps)[Chat(id)] + multiset(ps)[Channel(id)]
  {
    IdsAreCounted(ps, id);
  }

  lemma PrintedSaysAll(rule: Rule, p: Peer)
    ensures SaysAll(Printed(rule), rule, p)
  {
    var a, n := Allowed(rule), Disallowed(rule);
    hide UserIds, ChatIds, Printed, Part;
    IdsAreCounted(a, p.id);
    IdsAreCounted(n, p.id);
    assert p in a ==> multiset(a)[p] > 0;
    assert p in n ==> multiset(n)[p] > 0;
    PrintedIsOneOf(rule, if p.User? then AllowUsers(UserIds(a)) else AllowChatParticipants(ChatIds(a)));
    PrintedIsOneOf(rule, if p.User? then DisallowUsers(UserIds(n)) else DisallowChatParticipants(ChatIds(n)));
  }

  lemma PrintedOnWire(rule: Rule, id: int, p: Peer)
    ensures forall w :: w in Printed(rule) ==> SaysOf(w, rule, id)
    ensures SaysAll(Printed(rule), rule, p)
    ensures exists w :: w in Printed(rule) && IsOptionRule(w)
  {
    PrintedSaysAll(rule, p);
    PrintedIsOneOf(rule, OptionRule(rule.option));
    assert IsOptionRule(OptionRule(rule.option));
    hide *;
    forall w | w in Printed(rule) ensures SaysOf(w, rule, id) {
      PrintedSays(rule, w, id);
    }
  }

  // ----- the loops -----

  method CollectInputUsers(peers: seq<Peer>) returns (result: seq<int>)
    ensures result == UserIds(peers)
  {
    result := [];
    for i := 0 to |peers|
      invariant result == UserIds(peers[..i])
    {
      assert peers[..i + 1][..i] == peers[..i];
      if peers[i].User? {
        result := result + [peers[i].id];
      }
    }
    assert peers[..|peers|] == peers;
  }

  method CollectInputChats(peers: seq<Peer>) returns (result: seq<int>)
    ensures result == ChatIds(peers)
  {
    result := [];
    for i := 0 to |peers|
      invariant result == ChatIds(peers[..i])
    {
      assert peers[..i + 1][..i] == peers[..i];
      if !peers[i].User? {
        result := result + [peers[i].id];
      }
    }
    assert peers[..|peers|] == peers;
  }

  /** The rules for one of the two lists: the users, then the chats, each only if there are any. */
  method PrintList(peers: seq<Peer>, allow: bool) returns (result: seq<WireRule>)
    ensures result == if allow then Part(AllowUsers(UserIds(peers))) + Part(AllowChatParticipants(ChatIds(peers)))
                      else Part(DisallowUsers(UserIds(peers))) + Part(DisallowChatParticipants(ChatIds(peers)))
  {
    var users := CollectInputUsers(peers);
    var chats := CollectInputChats(peers);
    result := [];
    if users != [] {
      result := result + [if allow then AllowUsers(users) else DisallowUsers(users)];
    }
    if chats != [] {
      result := result + [if allow then AllowChatParticipants(chats) else DisallowChatParticipants(chats)];
    }
  }

  method RulesToTL(rule: Rule) returns (result: seq<WireRule>)
    ensures result == Printed(rule)
  {
    var always, never: seq<WireRule> := [], [];
    if !rule.ignoreAlways {
      always := PrintList(rule.always, true);
    }
    if !rule.ignoreNever {
      never := PrintList(rule.never, false);
    }
    result := always + never + [match rule.option
                                case Everyone => AllowAll
                                case Contacts => AllowContacts
                                case Nobody => DisallowAll];
    ghost var a, n := Allowed(rule), Disallowed(rule);
    assert always == Part(AllowUsers(UserIds(a))) + Part(AllowChatParticipants(ChatIds(a)));
    ghost var p3, p4 := Part(DisallowUsers(UserIds(n))), Part(DisallowChatParticipants(ChatIds(n)));
    assert never == p3 + p4;
    hide Part, UserIds, ChatIds, Allowed, Disallowed;
    Regroup(always, p3, p4);
  }

  lemma {:induction false} AddAllAppend(l: Lists, a: seq<Mention>, b: seq<Mention>)
    ensures AddAll(l, a + b) == AddAll(AddAll(l, a), b)
  {
    if b == [] {
      assert a + b == a;
    } else {
      var n, all := |b| - 1, a + b;
      AddAllAppend(l, a, b[..n]);
      assert all[..|all| - 1] == a + b[..n] && all[|all| - 1] == b[n];
      hide Add;
    }
  }

  method FeedUsers(l: Lists, users: seq<int>, allow: bool) returns (after: Lists)
    ensures after == AddAll(l, UserMentions(users, allow))
  {
    after := l;
    for i := 0 to |users|
      invariant after == AddAll(l, UserMentions(users[..i], allow))
    {
      var user := User(users[i]);
      assert UserMentions(users[..i + 1], allow)[..i] == UserMentions(users[..i], allow);
      if user !in after.always && user !in after.never {
        if allow {
          after := after.(always := after.always + [user]);
        } else {
          after := after.(never := after.never + [user]);
        }
      }
    }
    assert users[..|users|] == users;
  }

  method FeedChats(l: Lists, chats: seq<int>, allow: bool, loaded: set<Peer>) returns (after: Lists)
    ensures after == AddAll(l, ChatMentions(chats, allow, loaded))
  {
    after := l;
    for i := 0 to |chats|
      invariant after == AddAll(l, ChatMentions(chats[..i], allow, loaded))
    {
      var peer := if Chat(chats[i]) in loaded then Some(Chat(chats[i]))
                  else if Channel(chats[i]) in loaded then Some(Channel(chats[i])) else None;
      assert chats[..i + 1][..i] == chats[..i];
      if peer.Some? {
        ghost var ms := ChatMentions(chats[..i], allow, loaded) + [Mention(peer.value, allow)];
        assert ms[..|ms| - 1] == ChatMentions(chats[..i], allow, loaded);
        assert ChatMentions(chats[..i + 1], allow, loaded) == ms;
        if peer.value !in after.always && peer.value !in after.never {
          if allow {
            after := after.(always := after.always + [peer.value]);
          } else {
            after := after.(never := after.never + [peer.value]);
          }
        }
      } else {
        assert ChatMentions(chats[..i + 1], allow, loaded) == ChatMentions(chats[..i], allow, loaded);
      }
    }
    assert chats[..|chats|] == chats;
  }

  method FeedRule(l: Lists, rule: WireRule, loaded: set<Peer>) returns (after: Lists)
    ensures after == AddAll(l, RuleMentions(rule, loaded))
  {
    match rule
    case AllowUsers(ids) => after := FeedUsers(l, ids, true);
    case AllowChatParticipants(ids) => after := FeedChats(l, ids, true, loaded);
    case DisallowUsers(ids) => after := FeedUsers(l, ids, false);
    case DisallowChatParticipants(ids) => after := FeedChats(l, ids, false, loaded);
    case _ => after := l;
  }

  /** How far the option is settled after some of the rules. */
  predicate OptionReached(rules: seq<WireRule>, i: nat, option: Choice, optionSet: bool)
    requires i <= |rules|
  {
    if optionSet then option == FirstOption(rules) else FirstOption(rules[i..]) == FirstOption(rules)
  }

  lemma OptionOneMore(rules: seq<WireRule>, i: nat, option: Choice, optionSet: bool)
    requires i < |rules| && OptionReached(rules, i, option, optionSet)
    ensures var said := OptionOf(rules[i]);
            OptionReached(rules, i + 1, if said.Some? && !optionSet then said.value else option,
                          said.Some? || optionSet)
  {
    hide OptionOf;
    assert rules[i..][0] == rules[i] && rules[i..][1..] == rules[i + 1..];
  }

  lemma ListsOneMore(rules: seq<WireRule>, i: nat, loaded: set<Peer>)
    requires i < |rules|
    ensures AddAll(Lists([], []), Mentions(rules[..i + 1], loaded))
            == AddAll(AddAll(Lists([], []), Mentions(rules[..i], loaded)), RuleMentions(rules[i], loaded))
  {
    hide AddAll, RuleMentions, Mentions;
    AddAllAppend(Lists([], []), Mentions(rules[..i], loaded), RuleMentions(rules[i], loaded));
    assert rules[..i + 1] == rules[..i] + [rules[i]];
    LastMentions(rules[..i], rules[i], loaded);
  }

  /** The first option rule settles the option; a final rule that disallows everybody settles it otherwise. */
  method TLToRules(rules: seq<WireRule>, loaded: set<Peer>) returns (result: Rule)
    ensures result == Parsed(rules, loaded)
  {
    var option, optionSet := Everyone, false;
    var lists := Lists([], []);
    assert rules[0..] == rules;
    for i := 0 to |rules|
      invariant lists == AddAll(Lists([], []), Mentions(rules[..i], loaded))
      invariant OptionReached(rules, i, option, optionSet)
    {
      ListsOneMore(rules, i, loaded);
      OptionOneMore(rules, i, option, optionSet);
      hide AddAll, RuleMentions, Mentions, OptionReached;
      lists := FeedRule(lists, rules[i], loaded);
      var said := OptionOf(rules[i]);
      if said.Some? && !optionSet {
        option, optionSet := said.value, true;
      }
    }
    if !optionSet {
      option := Nobody;
    }
    assert rules[..|rules|] == rules;
    result := Rule(option, lists.always, lists.never, false, false);
  }
}
