/**
 The first page of a peer's own invite links. The one live permanent link is kept at its front, so that looking it up
 inspects one element; the peer keeps its address as well.
 */
module InviteLinks {
  import opened Basics

  datatype Peer = Peer(id: int)

  datatype Address = Address(text: string)

  datatype Details = Details(title: string, admin: int, date: int, startDate: int, expireDate: int,
                             usageLimit: int, requested: int, requestApproval: bool)

  datatype Link = Link(address: Address, permanent: bool, revoked: bool, usage: int, details: Details)

  const NO_ADDRESS: Address := Address("")

  /** `slices` are the cached lists, `stored` the address each peer keeps as its invite link. */
  datatype State = State(slices: map<Peer, seq<Link>>, stored: map<Peer, Address>)

  predicate Live(link: Link) {
    link.permanent && !link.revoked
  }

  // ----- the fast lookup and the full scan -----

  function Lookup(list: seq<Link>): Option<Link> {
    if list != [] && Live(list[0]) then Some(list[0]) else None
  }

  function Scan(list: seq<Link>): Option<Link> {
    if list == [] then None
    else if Live(list[0]) then Some(list[0])
    else Scan(list[1..])
  }

  function LiveCount(list: seq<Link>): nat {
    if list == [] then 0 else LiveCount(list[1..]) + if Live(list[0]) then 1 else 0
  }

  /** Only the first element may be a live permanent link. */
  ghost predicate FrontOnly(list: seq<Link>) {
    forall i :: 0 < i < |list| ==> !Live(list[i])
  }

  lemma {:induction false} NoLive(list: seq<Link>)
    ensures LiveCount(list) == 0 <==> forall i :: 0 <= i < |list| ==> !Live(list[i])
    ensures LiveCount(list) == 0 <==> Scan(list) == None
  {
    if list != [] {
      NoLive(list[1..]);
      assert forall i :: 0 < i < |list| ==> list[i] == list[1..][i - 1];
    }
  }

  /** Exactly for such lists the lookup sees what there is: at most one live permanent link, and it is found. */
  lemma FrontOnlyIsExact(list: seq<Link>)
    ensures FrontOnly(list) <==> LiveCount(list) <= 1 && (LiveCount(list) == 1 ==> Lookup(list).Some?)
    ensures FrontOnly(list) ==> Lookup(list) == Scan(list)
  {
    if list != [] {
      NoLive(list[1..]);
      assert forall i :: 0 < i < |list| ==> list[i] == list[1..][i - 1];
    }
  }

  // ----- the list operations -----

  function FirstLive(list: seq<Link>): (i: nat)
    ensures i <= |list| && (i < |list| ==> Live(list[i])) && forall j :: 0 <= j < i ==> !Live(list[j])
  {
    if list == [] || Live(list[0]) then 0 else 1 + FirstLive(list[1..])
  }

  function BroughtToFront(list: seq<Link>): seq<Link> {
    var i := FirstLive(list);
    if i == |list| then list else [list[i]] + list[..i] + list[i + 1..]
  }

  function WithoutLive(list: seq<Link>): (rest: seq<Link>)
    ensures forall i :: 0 <= i < |rest| ==> !Live(rest[i]) && rest[i] in list
  {
    if list == [] then []
    else (if Live(list[0]) then [] else [list[0]]) + WithoutLive(list[1..])
  }

  /** The links among the answers, without the one already known as the permanent one. */
  function Parsed(invites: seq<Option<Link>>, permanent: Option<Link>): seq<Link> {
    if invites == [] then []
    else
      var n := |invites| - 1;
      Parsed(invites[..n], permanent) + if Kept(invites[n], permanent) then [invites[n].value] else []
  }

  predicate Kept(invite: Option<Link>, permanent: Option<Link>) {
    invite.Some? && (permanent.Some? ==> invite.value.address != permanent.value.address)
  }

  function Find(list: seq<Link>, address: Address): (i: nat)
    ensures i <= |list| && (i < |list| ==> list[i].address == address)
    ensures forall j :: 0 <= j < i ==> list[j].address != address
  {
    if list == [] || list[0].address == address then 0 else 1 + Find(list[1..], address)
  }

  function Replaced(list: seq<Link>, updated: Link): (after: seq<Link>)
    ensures |after| == |list|
    ensures forall i :: 0 <= i < |list| ==> after[i] == if list[i].address == updated.address then updated else list[i]
  {
    seq(|list|, i requires 0 <= i < |list| => if list[i].address == updated.address then updated else list[i])
  }

  lemma {:induction false} LiveCountAppend(a: seq<Link>, b: seq<Link>)
    ensures LiveCount(a + b) == LiveCount(a) + LiveCount(b)
  {
    if a == [] {
      assert a + b == b;
    } else {
      LiveCountAppend(a[1..], b);
      assert (a + b)[1..] == a[1..] + b;
    }
  }

  /** Bringing to the front keeps every link, and is enough exactly when there was at most one live permanent link. */
  lemma BroughtToFrontFits(list: seq<Link>)
    ensures multiset(BroughtToFront(list)) == multiset(list)
    ensures FrontOnly(BroughtToFront(list)) <==> LiveCount(list) <= 1
  {
    var i, front := FirstLive(list), BroughtToFront(list);
    if i < |list| {
      assert list == list[..i] + [list[i]] + list[i + 1..];
      LiveCountAppend(list[..i] + [list[i]], list[i + 1..]);
      LiveCountAppend(list[..i], [list[i]]);
      LiveCountAppend([list[i]] + list[..i], list[i + 1..]);
      LiveCountAppend([list[i]], list[..i]);
      FrontOnlyIsExact(front);
    } else {
      NoLive(list);
    }
  }

  // ----- the operations on values -----

  function ListOf(s: State, p: Peer): seq<Link> {
    if p in s.slices then s.slices[p] else []
  }

  function StoredOf(s: State, p: Peer): Address {
    if p in s.stored then s.stored[p] else NO_ADDRESS
  }

  /** A new link goes to the front, but behind a permanent one that stays; a new permanent link replaces the old. */
  function Prepended(s: State, p: Peer, link: Link): State {
    var list := ListOf(s, p);
    var had := Lookup(list).Some?;
    var after := if link.permanent && had then [link] + list[1..]
                 else if had then [list[0], link] + list[1..]
                 else [link] + list;
    s.(slices := s.slices[p := after], stored := if link.permanent then s.stored[p := link.address] else s.stored)
  }

  /** The answer to an edit: a link that became revoked leaves the list. */
  function Edited(s: State, p: Peer, key: Address, link: Link): State {
    if p !in s.slices then s
    else
      var list := s.slices[p];
      var j := Find(list, key);
      if j == |list| then s
      else if link.revoked && !list[j].revoked then s.(slices := s.slices[p := list[..j] + list[j + 1..]])
      else s.(slices := s.slices[p := list[j := link]])
  }

  function SliceAnswered(s: State, p: Peer, invites: seq<Option<Link>>): State {
    var permanent := Lookup(ListOf(s, p));
    var slice := Parsed(invites, permanent);
    if permanent == None then
      var front := BroughtToFront(slice);
      s.(slices := s.slices[p := front],
         stored := if Lookup(front).Some? then s.stored[p := front[0].address] else s.stored)
    else s.(slices := s.slices[p := [permanent.value] + WithoutLive(slice)])
  }

  function PermanentSet(s: State, p: Peer, invite: Option<Link>): State {
    if invite == None || !invite.value.permanent then s
    else
      var list := ListOf(s, p);
      if Lookup(list) == None then
        State(s.slices[p := [invite.value] + list], s.stored[p := invite.value.address])
      else if list[0].address == invite.value.address then
        s.(slices := s.slices[p := [list[0].(usage := invite.value.usage)] + list[1..]])
      else
        State(s.slices[p := [invite.value] + list[1..]], s.stored[p := invite.value.address])
  }

  function PermanentCleared(s: State, p: Peer): State {
    if Lookup(ListOf(s, p)) == None then s
    else State(s.slices[p := ListOf(s, p)[1..]], s.stored[p := NO_ADDRESS])
  }

  function ExternallyUpdated(s: State, p: Peer, updated: Link): State {
    if p in s.slices then s.(slices := s.slices[p := Replaced(s.slices[p], updated)]) else s
  }

  // ----- runs -----

  datatype Event =
    | Prepend(p: Peer, link: Link)
    | EditDone(p: Peer, key: Address, link: Link)
    | MyLinksDone(p: Peer, invites: seq<Option<Link>>)
    | SetMyPermanent(p: Peer, invite: Option<Link>)
    | ClearMyPermanent(p: Peer)
    | ApplyExternalUpdate(p: Peer, updated: Link)
    | ApproveWithoutLink(p: Peer)

  function Step(s: State, ev: Event): State {
    match ev
    case Prepend(p, link) => Prepended(s, p, link)
    case EditDone(p, key, link) => Edited(s, p, key, link)
    case MyLinksDone(p, invites) => SliceAnswered(s, p, invites)
    case SetMyPermanent(p, invite) => PermanentSet(s, p, invite)
    case ClearMyPermanent(p) => PermanentCleared(s, p)
    case ApplyExternalUpdate(p, updated) => ExternallyUpdated(s, p, updated)
    case ApproveWithoutLink(p) => s.(slices := s.slices - {p})
  }

  /** The lookup misses nothing, and what it finds is what the peer keeps. */
  ghost predicate PeerFits(list: seq<Link>, stored: Address) {
    FrontOnly(list) && (Lookup(list).Some? ==> list[0].address == stored)
  }

  ghost predicate Fits(s: State) {
    forall p :: p in s.slices ==> PeerFits(s.slices[p], StoredOf(s, p))
  }

  /** What a live permanent link may overwrite: the front, and only under the address the peer keeps. */
  predicate MayBecome(j: nat, link: Link, stored: Address) {
    Live(link) ==> j == 0 && link.address == stored
  }

  /** The guard each answer has to pass; everything else passes always. */
  ghost predicate Keeps(s: State, ev: Event) {
    match ev
    case EditDone(p, key, link) =>
      var j := Find(ListOf(s, p), key);
      j < |ListOf(s, p)| ==> MayBecome(j, link, StoredOf(s, p))
    case MyLinksDone(p, invites) => Lookup(ListOf(s, p)).Some? || LiveCount(Parsed(invites, None)) <= 1
    case ApplyExternalUpdate(p, updated) =>
      forall j :: 0 <= j < |ListOf(s, p)| && ListOf(s, p)[j].address == updated.address
                  ==> MayBecome(j, updated, StoredOf(s, p))
    case _ => true
  }

  // ----- each operation, on the list of one peer -----

  lemma PlacedFits(list: seq<Link>, stored: Address, j: nat, link: Link)
    requires PeerFits(list, stored) && j < |list|
    ensures PeerFits(list[j := link], stored) <==> MayBecome(j, link, stored)
  {
    var after := list[j := link];
    assert after[j] == link && forall i :: 0 <= i < |list| && i != j ==> after[i] == list[i];
  }

  lemma ErasedFits(list: seq<Link>, stored: Address, j: nat)
    requires PeerFits(list, stored) && j < |list|
    ensures PeerFits(list[..j] + list[j + 1..], stored)
  {
    var after := list[..j] + list[j + 1..];
    forall i | 0 < i < |after| ensures !Live(after[i]) {
      assert after[i] == if i < j then list[i] else list[i + 1];
    }
  }

  lemma ReplacedFits(list: seq<Link>, stored: Address, updated: Link)
    requires PeerFits(list, stored)
    ensures PeerFits(Replaced(list, updated), stored)
            <==> forall j :: 0 <= j < |list| && list[j].address == updated.address ==> MayBecome(j, updated, stored)
  {
    var after := Replaced(list, updated);
    if PeerFits(after, stored) {
      forall j | 0 <= j < |list| && list[j].address == updated.address ensures MayBecome(j, updated, stored) {
        assert after[j] == updated;
      }
    }
  }

  /** Only the list and the stored address of one peer changed, so only they have to be looked at. */
  lemma OnlyPeer(s: State, after: State, p: Peer)
    requires Fits(s)
    requires forall q :: q != p ==> (q in after.slices <==> q in s.slices) && StoredOf(after, q) == StoredOf(s, q)
    requires forall q :: q != p && q in s.slices ==> after.slices[q] == s.slices[q]
    ensures Fits(after) <==> p in after.slices ==> PeerFits(after.slices[p], StoredOf(after, p))
  {
    hide PeerFits, StoredOf;
  }

  lemma EditFits(s: State, p: Peer, key: Address, link: Link)
    requires Fits(s)
    ensures Fits(Edited(s, p, key, link)) <==> Keeps(s, EditDone(p, key, link))
  {
    if p in s.slices {
      var list, stored := s.slices[p], StoredOf(s, p);
      var j := Find(list, key);
      OnlyPeer(s, Edited(s, p, key, link), p) by { hide Fits, PeerFits; }
      assert PeerFits(list, stored);
      hide Fits, PeerFits;
      if j < |list| {
        PlacedFits(list, stored, j, link);
        ErasedFits(list, stored, j);
      }
    }
  }

  lemma MergedFits(list: seq<Link>, stored: Address, slice: seq<Link>)
    requires PeerFits(list, stored) && Lookup(list).Some?
    ensures PeerFits([list[0]] + WithoutLive(slice), stored)
  {
  }

  lemma FrontFits(slice: seq<Link>, stored: Address)
    ensures var front := BroughtToFront(slice);
            PeerFits(front, if Lookup(front).Some? then front[0].address else stored) <==> LiveCount(slice) <= 1
  {
    BroughtToFrontFits(slice);
    hide BroughtToFront;
  }

  lemma SliceFits(s: State, p: Peer, invites: seq<Option<Link>>)
    requires Fits(s)
    ensures Fits(SliceAnswered(s, p, invites)) <==> Keeps(s, MyLinksDone(p, invites))
  {
    var list, stored := ListOf(s, p), StoredOf(s, p);
    OnlyPeer(s, SliceAnswered(s, p, invites), p) by { hide Fits, PeerFits, BroughtToFront, Parsed, WithoutLive; }
    hide BroughtToFront, Parsed, WithoutLive;
    if Lookup(list) == None {
      hide Fits, PeerFits;
      FrontFits(Parsed(invites, None), stored);
      hide Lookup;
    } else {
      assert PeerFits(list, stored);
      hide Fits, PeerFits;
      MergedFits(list, stored, Parsed(invites, Lookup(list)));
    }
  }

  lemma ExternalFits(s: State, p: Peer, updated: Link)
    requires Fits(s)
    ensures Fits(ExternallyUpdated(s, p, updated)) <==> Keeps(s, ApplyExternalUpdate(p, updated))
  {
    if p in s.slices {
      OnlyPeer(s, ExternallyUpdated(s, p, updated), p) by { hide Fits, PeerFits; }
      assert PeerFits(s.slices[p], StoredOf(s, p));
      hide Fits, PeerFits;
      ReplacedFits(s.slices[p], StoredOf(s, p), updated);
    }
  }

  lemma PrependFits(s: State, p: Peer, link: Link)
    requires Fits(s)
    ensures Fits(Prepended(s, p, link))
  {
    OnlyPeer(s, Prepended(s, p, link), p) by { hide Fits, PeerFits; }
    assert p in s.slices ==> PeerFits(ListOf(s, p), StoredOf(s, p));
    hide Fits;
  }

  lemma SetFits(s: State, p: Peer, invite: Option<Link>)
    requires Fits(s)
    ensures Fits(PermanentSet(s, p, invite))
  {
    OnlyPeer(s, PermanentSet(s, p, invite), p) by { hide Fits, PeerFits; }
    assert p in s.slices ==> PeerFits(ListOf(s, p), StoredOf(s, p));
    hide Fits;
  }

  lemma ClearFits(s: State, p: Peer)
    requires Fits(s)
    ensures Fits(PermanentCleared(s, p))
  {
    OnlyPeer(s, PermanentCleared(s, p), p) by { hide Fits, PeerFits; }
    assert p in s.slices ==> PeerFits(ListOf(s, p), StoredOf(s, p));
    hide Fits;
  }

  /** Exactly the answers that pass their guard leave the cache fitting. */
  lemma StepFits(s: State, ev: Event)
    requires Fits(s)
    ensures Fits(Step(s, ev)) <==> Keeps(s, ev)
  {
    match ev
    case EditDone(p, key, link) => EditFits(s, p, key, link);
    case MyLinksDone(p, invites) => SliceFits(s, p, invites);
    case ApplyExternalUpdate(p, updated) => ExternalFits(s, p, updated);
    case Prepend(p, link) => PrependFits(s, p, link);
    case SetMyPermanent(p, invite) => SetFits(s, p, invite);
    case ClearMyPermanent(p) => ClearFits(s, p);
    case ApproveWithoutLink(p) =>
  }

  function Run(s: State, run: seq<Event>): State
    decreases |run|
  {
    if run == [] then s else Run(Step(s, run[0]), run[1..])
  }

  /** Before and after every event of the run. */
  ghost predicate FitsThroughout(s: State, run: seq<Event>)
    decreases |run|
  {
    Fits(s) && (run == [] || FitsThroughout(Step(s, run[0]), run[1..]))
  }

  ghost predicate KeepsThroughout(s: State, run: seq<Event>)
    decreases |run|
  {
    run == [] || (Keeps(s, run[0]) && KeepsThroughout(Step(s, run[0]), run[1..]))
  }

  /** The cache fits all through a run exactly when every answer in it passes its guard. */
  lemma {:induction false} EveryRunFits(s: State, run: seq<Event>)
    requires Fits(s)
    ensures FitsThroughout(s, run) <==> KeepsThroughout(s, run)
    decreases |run|
  {
    if run != [] {
      hide Fits, Keeps, Step;
      StepFits(s, run[0]);
      if Fits(Step(s, run[0])) {
        EveryRunFits(Step(s, run[0]), run[1..]);
      }
    }
  }

  /** What the lookup finds after such a run: the one live permanent link there is, under the address the peer keeps. */
  lemma {:induction false} LookupIsScan(s: State, run: seq<Event>, p: Peer)
    requires Fits(s) && KeepsThroughout(s, run)
    ensures var after := Run(s, run);
            && Lookup(ListOf(after, p)) == Scan(ListOf(after, p))
            && LiveCount(ListOf(after, p)) <= 1
            && (Scan(ListOf(after, p)).Some? ==> Scan(ListOf(after, p)).value.address == StoredOf(after, p))
    decreases |run|
  {
    if run == [] {
      FrontOnlyIsExact(ListOf(s, p));
    } else {
      StepFits(s, run[0]);
      hide Fits, Keeps, Step;
      LookupIsScan(Step(s, run[0]), run[1..], p);
    }
  }

  /** A first page with two live permanent links breaks the cache: one of them stays behind the front. */
  lemma TwoLiveLinksBreak(p: Peer, one: Link, two: Link)
    requires Live(one) && Live(two)
    ensures var start := State(map[], map[]); var ev := MyLinksDone(p, [Some(one), Some(two)]);
            && Fits(start) && !Keeps(start, ev) && !FitsThroughout(start, [ev])
            && Step(start, ev).slices[p] == [one, two]
  {
    var start, ev := State(map[], map[]), MyLinksDone(p, [Some(one), Some(two)]);
    assert Parsed(ev.invites, None) == [one, two] by {
      assert ev.invites[..1] == [Some(one)] && [Some(one)][..0] == [];
      assert Parsed([], None) == [] && Parsed([Some(one)], None) == [one];
    }
    assert LiveCount([one, two]) == 2 by {
      assert [one, two][1..] == [two] && [two][1..] == [] && LiveCount([]) == 0;
      assert LiveCount([two]) == 1;
    }
    hide Parsed, LiveCount;
    StepFits(start, ev);
    assert [one] + [one, two][..0] + [one, two][1..] == [one, two];
  }

  /** What the server is expected to send: one live permanent link at most, and for a link already known the same
      address, the same permanence, and no way back from revoked. */
  ghost predicate Promised(s: State, ev: Event) {
    match ev
    case EditDone(p, key, link) =>
      link.address == key && forall j :: 0 <= j < |ListOf(s, p)| && ListOf(s, p)[j].address == key
                                         ==> SameLink(ListOf(s, p)[j], link)
    case MyLinksDone(p, invites) => LiveCount(Parsed(invites, None)) <= 1
    case ApplyExternalUpdate(p, updated) =>
      forall j :: 0 <= j < |ListOf(s, p)| && ListOf(s, p)[j].address == updated.address
                  ==> SameLink(ListOf(s, p)[j], updated)
    case _ => true
  }

  predicate SameLink(known: Link, link: Link) {
    link.permanent == known.permanent && (known.revoked ==> link.revoked)
  }

  /** Answers as promised pass their guard. */
  lemma PromisedKeeps(s: State, ev: Event)
    requires Fits(s) && Promised(s, ev)
    ensures Keeps(s, ev)
  {
    assert PeerFits(ListOf(s, ev.p), StoredOf(s, ev.p));
  }

  // ----- which links are in the list afterwards -----

  /** The event leaves the lists and the stored addresses of all other peers alone. */
  ghost predicate OnlyAt(s: State, after: State, p: Peer) {
    forall q :: q != p ==> && (q in after.slices <==> q in s.slices)
                           && (q in s.slices ==> after.slices[q] == s.slices[q])
                           && StoredOf(after, q) == StoredOf(s, q)
  }

  lemma StepIsAtPeer(s: State, ev: Event)
    ensures OnlyAt(s, Step(s, ev), ev.p)
  {
    hide Lookup, Find, BroughtToFront, Parsed, WithoutLive, Replaced;
  }

  /** The front holds a permanent link that is not revoked. */
  predicate HasPermanent(list: seq<Link>) {
    list != [] && list[0].permanent && !list[0].revoked
  }

  /** The link that was edited is the first with its address. If it became revoked it leaves, and the others keep their
      order; otherwise it stands where it stood. */
  lemma EditedList(s: State, p: Peer, key: Address, link: Link, j: nat)
    requires p in s.slices && j < |s.slices[p]| && s.slices[p][j].address == key
    requires forall i :: 0 <= i < j ==> s.slices[p][i].address != key
    ensures var list := s.slices[p]; var after := Step(s, EditDone(p, key, link));
            && after.stored == s.stored && p in after.slices
            && after.slices[p] == if link.revoked && !list[j].revoked then list[..j] + list[j + 1..]
                                  else list[..j] + [link] + list[j + 1..]
  {
    var list := s.slices[p];
    assert Find(list, key) == j;
    assert list[j := link] == list[..j] + [link] + list[j + 1..];
  }

  lemma NothingFound(list: seq<Link>, key: Address)
    requires forall i :: 0 <= i < |list| ==> list[i].address != key
    ensures Find(list, key) == |list|
  {
  }

  lemma UnknownIsNotEdited(s: State, p: Peer, key: Address, link: Link)
    requires forall i :: 0 <= i < |ListOf(s, p)| ==> ListOf(s, p)[i].address != key
    ensures Step(s, EditDone(p, key, link)) == s
  {
    NothingFound(ListOf(s, p), key);
  }

  /** A new link: the front is where a permanent one goes, in place of the old; another goes behind a permanent one. */
  lemma PrependedList(s: State, p: Peer, link: Link)
    ensures var list := ListOf(s, p); var after := Step(s, Prepend(p, link));
            && p in after.slices
            && StoredOf(after, p) == (if link.permanent then link.address else StoredOf(s, p))
            && after.slices[p] == if !HasPermanent(list) then [link] + list
                                  else if link.permanent then [link] + list[1..]
                                  else [list[0]] + [link] + list[1..]
  {
    var list := ListOf(s, p);
    if HasPermanent(list) {
      assert [list[0]] + [link] + list[1..] == [list[0], link] + list[1..];
    }
  }

  /** What a page adds to a list whose permanent link is known: neither that link again nor another live one. */
  function PageLinks(invites: seq<Option<Link>>, known: Option<Link>): seq<Link> {
    if invites == [] then []
    else if && invites[0].Some?
            && (known.Some?
                ==> && invites[0].value.address != known.value.address
                    && !(invites[0].value.permanent && !invites[0].value.revoked))
    then [invites[0].value] + PageLinks(invites[1..], known)
    else PageLinks(invites[1..], known)
  }

  lemma {:induction false} ParsedFirst(invites: seq<Option<Link>>, known: Option<Link>)
    requires invites != []
    ensures Parsed(invites, known)
         == (if Kept(invites[0], known) then [invites[0].value] else []) + Parsed(invites[1..], known)
    decreases |invites|
  {
    var n := |invites| - 1;
    assert Parsed(invites[..0], known) == [];
    if n > 0 {
      ParsedFirst(invites[..n], known);
      assert invites[..n][1..] == invites[1..][..n - 1];
    } else {
      assert invites[1..] == [] && Parsed(invites[1..], known) == [] && invites[..n] == [];
    }
  }

  lemma {:induction false} PageIsParsed(invites: seq<Option<Link>>, known: Option<Link>)
    ensures PageLinks(invites, known)
         == if known == None then Parsed(invites, known) else WithoutLive(Parsed(invites, known))
    decreases |invites|
  {
    if invites != [] {
      PageIsParsed(invites[1..], known);
      ParsedFirst(invites, known);
      var rest := Parsed(invites[1..], known);
      if Kept(invites[0], known) {
        assert ([invites[0].value] + rest)[1..] == rest;
      } else {
        assert [] + rest == rest;
      }
    }
  }

  /** A first page while the permanent link is known goes behind it. */
  lemma PageBehindPermanent(s: State, p: Peer, invites: seq<Option<Link>>)
    requires HasPermanent(ListOf(s, p))
    ensures var list := ListOf(s, p); var after := Step(s, MyLinksDone(p, invites));
            && p in after.slices && after.stored == s.stored
            && after.slices[p] == [list[0]] + PageLinks(invites, Some(list[0]))
  {
    PageIsParsed(invites, Some(ListOf(s, p)[0]));
  }

  /** Otherwise it replaces the list, its first live permanent link moved to the front and stored. */
  lemma PageReplacesList(s: State, p: Peer, invites: seq<Option<Link>>, i: nat)
    requires !HasPermanent(ListOf(s, p))
    requires var page := PageLinks(invites, None);
             && i <= |page| && (i < |page| ==> page[i].permanent && !page[i].revoked)
             && forall j :: 0 <= j < i ==> !(page[j].permanent && !page[j].revoked)
    ensures var page := PageLinks(invites, None); var after := Step(s, MyLinksDone(p, invites));
            && p in after.slices
            && after.slices[p] == (if i < |page| then [page[i]] + page[..i] + page[i + 1..] else page)
            && StoredOf(after, p) == if i < |page| then page[i].address else StoredOf(s, p)
  {
    PageIsParsed(invites, None);
    FirstLiveIs(Parsed(invites, None), i);
    hide Parsed, PageLinks, FirstLive, WithoutLive;
  }

  lemma FirstLiveIs(list: seq<Link>, i: nat)
    requires i <= |list| && (i < |list| ==> list[i].permanent && !list[i].revoked)
    requires forall j :: 0 <= j < i ==> !(list[j].permanent && !list[j].revoked)
    ensures FirstLive(list) == i
    ensures var front := BroughtToFront(list);
            && front == (if i < |list| then [list[i]] + list[..i] + list[i + 1..] else list)
            && (Lookup(front).Some? <==> i < |list|)
  {
    assert FirstLive(list) == i;
  }

  /** The permanent link of a chat is set: put in front, in place of another, or only its usage taken over. */
  lemma SetList(s: State, p: Peer, link: Link)
    requires link.permanent
    ensures var list := ListOf(s, p); var after := Step(s, SetMyPermanent(p, Some(link)));
            var same := HasPermanent(list) && list[0].address == link.address;
            && p in after.slices
            && StoredOf(after, p) == (if same then StoredOf(s, p) else link.address)
            && after.slices[p] == if same then [list[0].(usage := link.usage)] + list[1..]
                                  else if HasPermanent(list) then [link] + list[1..]
                                  else [link] + list
  {
  }

  /** The permanent link goes and nothing is stored any more, or nothing changes. */
  lemma ClearedList(s: State, p: Peer)
    ensures var list := ListOf(s, p); var after := Step(s, ClearMyPermanent(p));
            if HasPermanent(list) then
              p in after.slices && after.slices[p] == list[1..] && StoredOf(after, p) == NO_ADDRESS
            else after == s
  {
  }

  /** What changes nothing: a missing or temporary link where the permanent one is set. */
  lemma NothingToSet(s: State, p: Peer, invite: Option<Link>)
    requires invite == None || !invite.value.permanent
    ensures Step(s, SetMyPermanent(p, invite)) == s
  {
  }

  /** Every copy of an updated link is replaced; after an approval without a link the list is dropped to be loaded
      again. */
  lemma UpdatedList(s: State, p: Peer, updated: Link)
    ensures var after := Step(s, ApplyExternalUpdate(p, updated));
            && after.stored == s.stored && (p in after.slices <==> p in s.slices)
            && |ListOf(after, p)| == |ListOf(s, p)|
            && forall i :: 0 <= i < |ListOf(s, p)| ==>
                 ListOf(after, p)[i] == if ListOf(s, p)[i].address == updated.address then updated else ListOf(s, p)[i]
    ensures Step(s, ApproveWithoutLink(p)).stored == s.stored && p !in Step(s, ApproveWithoutLink(p)).slices
  {
  }

  // ----- the object -----

  class InviteLinks {
    var firstSlices: map<Peer, seq<Link>>
    var inviteLink: map<Peer, Address>

    ghost function View(): State
      reads this
    {
      State(firstSlices, inviteLink)
    }

    constructor (inviteLink: map<Peer, Address>)
      ensures View() == State(map[], inviteLink) && Fits(View())
    {
      firstSlices := map[];
      this.inviteLink := inviteLink;
    }

    function LookupMyPermanent(peer: Peer): Option<Link>
      reads this
    {
      if peer in firstSlices then Lookup(firstSlices[peer]) else None
    }

    static method BringPermanentToFront(list: seq<Link>) returns (front: seq<Link>)
      ensures front == BroughtToFront(list)
    {
      var i := 0;
      while i < |list| && !Live(list[i])
        invariant 0 <= i <= FirstLive(list)
      {
        i := i + 1;
      }
      assert i == FirstLive(list);
      front := list;
      if i != |list| && i != 0 {
        front := [list[i]] + list[..i] + list[i + 1..];
      } else if i == 0 && list != [] {
        assert list == [list[0]] + list[..0] + list[1..];
      }
    }

    static method RemovePermanent(list: seq<Link>) returns (rest: seq<Link>)
      ensures rest == WithoutLive(list)
    {
      rest := [];
      assert list[0..] == list;
      for i := 0 to |list|
        invariant rest + WithoutLive(list[i..]) == WithoutLive(list)
      {
        assert list[i..][0] == list[i] && list[i..][1..] == list[i + 1..];
        if !Live(list[i]) {
          assert WithoutLive(list[i..]) == [list[i]] + WithoutLive(list[i + 1..]);
          assert rest + ([list[i]] + WithoutLive(list[i + 1..])) == rest + [list[i]] + WithoutLive(list[i + 1..]);
          rest := rest + [list[i]];
        } else {
          assert WithoutLive(list[i..]) == WithoutLive(list[i + 1..]);
        }
      }
    }

    static method ParseSlice(invites: seq<Option<Link>>, permanent: Option<Link>) returns (links: seq<Link>)
      ensures links == Parsed(invites, permanent)
    {
      links := [];
      for i := 0 to |invites|
        invariant links == Parsed(invites[..i], permanent)
      {
        assert invites[..i + 1][..i] == invites[..i];
        if invites[i].Some? {
          var link := invites[i].value;
          if permanent == None || link.address != permanent.value.address {
            links := links + [link];
          }
        }
      }
      assert invites[..|invites|] == invites;
    }

    method EditPermanentLink(peer: Peer, address: Address)
      modifies `inviteLink
      ensures inviteLink == old(inviteLink)[peer := address]
    {
      inviteLink := inviteLink[peer := address];
    }

    method PrependMyToFirstSlice(peer: Peer, link: Link)
      modifies this
      ensures View() == Step(old(View()), Prepend(peer, link))
    {
      if peer !in firstSlices {
        firstSlices := firstSlices[peer := []];
      }
      var links := firstSlices[peer];
      var hadPermanent := Lookup(links).Some?;
      if link.permanent && hadPermanent {
        links := links[1..];
      }
      if hadPermanent && !link.permanent {
        assert links[..1] + [link] + links[1..] == [links[0], link] + links[1..];
        links := links[..1] + [link] + links[1..];
      } else {
        links := [link] + links;
      }
      firstSlices := firstSlices[peer := links];
      if link.permanent {
        EditPermanentLink(peer, link.address);
      }
    }

    /** The handler of an edit; `replacement` is the new link of an answer that says the old one was replaced. */
    method EditAnswered(peer: Peer, key: Address, invite: Option<Link>, replacement: Option<Link>, adminIsSelf: bool)
      modifies this
      ensures var edited := if invite == None then old(View())
                            else Step(old(View()), EditDone(peer, key, invite.value));
              View() == if invite == None || replacement == None || !adminIsSelf then edited
                        else Step(edited, Prepend(peer, replacement.value))
    {
      if invite == None {
        return;
      }
      var link := invite.value;
      if peer in firstSlices {
        var links := firstSlices[peer];
        var j := 0;
        while j < |links| && links[j].address != key
          invariant 0 <= j <= Find(links, key)
        {
          j := j + 1;
        }
        assert j == Find(links, key);
        if j != |links| {
          if link.revoked && !links[j].revoked {
            links := links[..j] + links[j + 1..];
          } else {
            links := links[j := link];
          }
          firstSlices := firstSlices[peer := links];
        }
      }
      if replacement.Some? && adminIsSelf {
        PrependMyToFirstSlice(peer, replacement.value);
      }
    }

    method MyLinksAnswered(peer: Peer, invites: seq<Option<Link>>)
      modifies this
      ensures View() == Step(old(View()), MyLinksDone(peer, invites))
    {
      var permanent := LookupMyPermanent(peer);
      var slice := ParseSlice(invites, permanent);
      if permanent == None {
        slice := BringPermanentToFront(slice);
        firstSlices := firstSlices[peer := slice];
        if Lookup(slice).Some? {
          EditPermanentLink(peer, slice[0].address);
        }
      } else {
        slice := RemovePermanent(slice);
        var existing := firstSlices[peer];
        assert existing[..1] == [permanent.value];
        firstSlices := firstSlices[peer := existing[..1] + slice];
      }
    }

    method SetMyPermanent(peer: Peer, invite: Option<Link>)
      modifies this
      ensures View() == Step(old(View()), Event.SetMyPermanent(peer, invite))
    {
      if invite == None || !invite.value.permanent {
        return;
      }
      var link := invite.value;
      var links := if peer in firstSlices then firstSlices[peer] else [];
      var permanent := Lookup(links);
      if permanent.Some? {
        if permanent.value.address == link.address {
          assert links[0 := links[0].(usage := link.usage)] == [links[0].(usage := link.usage)] + links[1..];
          if permanent.value.usage != link.usage {
            firstSlices := firstSlices[peer := links[0 := links[0].(usage := link.usage)]];
          } else {
            assert links[0 := links[0].(usage := link.usage)] == links;
          }
          return;
        }
        links := links[1..];
      }
      firstSlices := firstSlices[peer := [link] + links];
      EditPermanentLink(peer, link.address);
    }

    method ClearMyPermanent(peer: Peer)
      modifies this
      ensures View() == Step(old(View()), Event.ClearMyPermanent(peer))
    {
      if LookupMyPermanent(peer) == None {
        return;
      }
      firstSlices := firstSlices[peer := firstSlices[peer][1..]];
      EditPermanentLink(peer, NO_ADDRESS);
    }

    method ApplyExternalUpdate(peer: Peer, updated: Link)
      modifies this
      ensures View() == Step(old(View()), Event.ApplyExternalUpdate(peer, updated))
    {
      if peer in firstSlices {
        var links := firstSlices[peer];
        for i := 0 to |links|
          invariant |links| == |firstSlices[peer]| && firstSlices == old(firstSlices)
          invariant links[..i] == Replaced(firstSlices[peer], updated)[..i] && links[i..] == firstSlices[peer][i..]
        {
          if links[i].address == updated.address {
            links := links[i := updated];
          }
        }
        assert links == Replaced(firstSlices[peer], updated);
        firstSlices := firstSlices[peer := links];
      }
    }

    method ApproveWithoutLink(peer: Peer)
      modifies this
      ensures View() == Step(old(View()), Event.ApproveWithoutLink(peer))
    {
      firstSlices := firstSlices - {peer};
    }
  }
}
