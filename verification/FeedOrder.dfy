/** The order in which the elements of an update list are fed. */
module FeedOrder {

  datatype Kind = MessageId | GroupCallParticipants | Other

  datatype Update = Update(kind: Kind, payload: int)

  datatype SkipPolicy = SkipNone | SkipMessageIds | SkipExceptGroupCallParticipants

  /** A choice among the kinds. */
  datatype Selection = Selection(ids: bool, calls: bool, others: bool) {
    predicate Has(kind: Kind) {
      match kind
      case MessageId => ids
      case GroupCallParticipants => calls
      case Other => others
    }

    function And(s: Selection): Selection {
      Selection(ids && s.ids, calls && s.calls, others && s.others)
    }
  }

  const IDS := Selection(true, false, false)
  const CALLS := Selection(false, true, false)
  const OTHERS := Selection(false, false, true)
  const NOT_CALLS := Selection(true, false, true)

  /** The elements of the chosen kinds, in their order. */
  function OfKinds(list: seq<Update>, kinds: Selection): seq<Update>
    decreases |list|
  {
    if list == [] then []
    else
      var n := |list| - 1;
      var front := OfKinds(list[..n], kinds);
      if kinds.Has(list[n].kind) then front + [list[n]] else front
  }

  lemma OfKindsMembers(list: seq<Update>, kinds: Selection)
    ensures forall i :: 0 <= i < |OfKinds(list, kinds)| ==> kinds.Has(OfKinds(list, kinds)[i].kind)
    decreases |list|
  {
    if list != [] {
      OfKindsMembers(list[..|list| - 1], kinds);
    }
  }

  lemma {:induction false} OfKindsAppend(a: seq<Update>, b: seq<Update>, kinds: Selection)
    ensures OfKinds(a + b, kinds) == OfKinds(a, kinds) + OfKinds(b, kinds)
    decreases |b|
  {
    if b == [] {
      assert a + b == a;
    } else {
      var n := |b| - 1;
      assert (a + b)[..|a| + n] == a + b[..n];
      OfKindsAppend(a, b[..n], kinds);
    }
  }

  lemma {:induction false} AllChosen(list: seq<Update>, kinds: Selection)
    requires forall i :: 0 <= i < |list| ==> kinds.Has(list[i].kind)
    ensures OfKinds(list, kinds) == list
    decreases |list|
  {
    if list != [] {
      AllChosen(list[..|list| - 1], kinds);
    }
  }

  lemma {:induction false} NoneChosen(list: seq<Update>, kinds: Selection)
    requires forall i :: 0 <= i < |list| ==> !kinds.Has(list[i].kind)
    ensures OfKinds(list, kinds) == []
    decreases |list|
  {
    if list != [] {
      NoneChosen(list[..|list| - 1], kinds);
    }
  }

  /** Selecting twice is selecting the kinds common to both. */
  lemma {:induction false} OfKindsTwice(list: seq<Update>, kinds: Selection, again: Selection)
    ensures OfKinds(OfKinds(list, kinds), again) == OfKinds(list, kinds.And(again))
    decreases |list|
  {
    if list != [] {
      var n := |list| - 1;
      OfKindsTwice(list[..n], kinds, again);
      if kinds.Has(list[n].kind) {
        var front := OfKinds(list[..n], kinds);
        assert OfKinds(list, kinds) == front + [list[n]];
        assert (front + [list[n]])[..|front|] == front;
      }
    }
  }

  /** Each element is in the selection of its own kind as often as in the list, and in no other. */
  lemma {:induction false} CountedOnce(list: seq<Update>, kinds: Selection, u: Update)
    ensures multiset(OfKinds(list, kinds))[u] == if kinds.Has(u.kind) then multiset(list)[u] else 0
    decreases |list|
  {
    if list != [] {
      var n := |list| - 1;
      CountedOnce(list[..n], kinds, u);
      assert list == list[..n] + [list[n]];
    }
  }

  /** The three kinds leave nothing out and count nothing twice. */
  lemma OfKindsConserves(list: seq<Update>)
    ensures multiset(list) == multiset(OfKinds(list, IDS) + OfKinds(list, CALLS) + OfKinds(list, OTHERS))
  {
    hide OfKinds;
    forall u
      ensures multiset(list)[u] == multiset(OfKinds(list, IDS) + OfKinds(list, CALLS) + OfKinds(list, OTHERS))[u]
    {
      CountedOnce(list, IDS, u);
      CountedOnce(list, CALLS, u);
      CountedOnce(list, OTHERS, u);
    }
  }

  lemma OfKindsOneMore(list: seq<Update>, i: nat, kinds: Selection)
    requires i < |list|
    ensures OfKinds(list[..i + 1], kinds)
         == if kinds.Has(list[i].kind) then OfKinds(list[..i], kinds) + [list[i]] else OfKinds(list[..i], kinds)
  {
    assert list[..i + 1][..i] == list[..i];
  }

  // ----- the stable sort -----

  /** The key the list is sorted by. */
  function SortKey(u: Update): int {
    if u.kind == GroupCallParticipants then 0 else 1
  }

  /** `sorted` is a stable sort of `list`: ascending keys, and the elements of each key in their order. */
  ghost predicate IsStableSort(list: seq<Update>, sorted: seq<Update>) {
    && (forall i, j :: 0 <= i < j < |sorted| ==> SortKey(sorted[i]) <= SortKey(sorted[j]))
    && OfKinds(sorted, CALLS) == OfKinds(list, CALLS)
    && OfKinds(sorted, NOT_CALLS) == OfKinds(list, NOT_CALLS)
  }

  /** A list sorted by the key is its first class followed by its second. */
  lemma {:induction false} SortedIsPartitioned(sorted: seq<Update>)
    requires forall i, j :: 0 <= i < j < |sorted| ==> SortKey(sorted[i]) <= SortKey(sorted[j])
    ensures sorted == OfKinds(sorted, CALLS) + OfKinds(sorted, NOT_CALLS)
    decreases |sorted|
  {
    if sorted != [] {
      var n := |sorted| - 1;
      SortedIsPartitioned(sorted[..n]);
      OfKindsOneMore(sorted, n, CALLS);
      OfKindsOneMore(sorted, n, NOT_CALLS);
      hide OfKinds;
      assert sorted[..n + 1] == sorted == sorted[..n] + [sorted[n]];
      if SortKey(sorted[n]) == 0 {
        forall i | 0 <= i < n
          ensures !NOT_CALLS.Has(sorted[..n][i].kind)
        {
          assert SortKey(sorted[i]) <= SortKey(sorted[n]);
        }
        NoneChosen(sorted[..n], NOT_CALLS);
      }
    }
  }

  /** There is one stable sort of a list, the stable partition. */
  lemma StableSortIsPartition(list: seq<Update>, sorted: seq<Update>)
    requires IsStableSort(list, sorted)
    ensures sorted == OfKinds(list, CALLS) + OfKinds(list, NOT_CALLS)
  {
    SortedIsPartitioned(sorted);
  }

  lemma PartitionIsStableSort(list: seq<Update>)
    ensures IsStableSort(list, OfKinds(list, CALLS) + OfKinds(list, NOT_CALLS))
  {
    hide OfKinds;
    var calls, rest := OfKinds(list, CALLS), OfKinds(list, NOT_CALLS);
    OfKindsMembers(list, CALLS);
    OfKindsMembers(list, NOT_CALLS);
    OfKindsAppend(calls, rest, CALLS);
    OfKindsAppend(calls, rest, NOT_CALLS);
    AllChosen(calls, CALLS);
    NoneChosen(calls, NOT_CALLS);
    NoneChosen(rest, CALLS);
    AllChosen(rest, NOT_CALLS);
    TwoClassesSorted(calls, rest);
  }

  lemma TwoClassesSorted(a: seq<Update>, b: seq<Update>)
    requires forall i :: 0 <= i < |a| ==> SortKey(a[i]) == 0
    requires forall i :: 0 <= i < |b| ==> SortKey(b[i]) == 1
    ensures forall i, j :: 0 <= i < j < |a + b| ==> SortKey((a + b)[i]) <= SortKey((a + b)[j])
  {
  }

  /** Stands for the library's stable sort; callers use its contract only. */
  method StableSort(list: seq<Update>) returns (sorted: seq<Update>)
    ensures IsStableSort(list, sorted)
  {
    var calls, rest := [], [];
    for i := 0 to |list|
      invariant calls == OfKinds(list[..i], CALLS)
      invariant rest == OfKinds(list[..i], NOT_CALLS)
    {
      OfKindsOneMore(list, i, CALLS);
      OfKindsOneMore(list, i, NOT_CALLS);
      if SortKey(list[i]) == 0 {
        calls := calls + [list[i]];
      } else {
        rest := rest + [list[i]];
      }
    }
    assert list[..|list|] == list;
    PartitionIsStableSort(list);
    sorted := calls + rest;
  }

  // ----- feeding -----

  /** What a policy feeds of a list, in the order in which it does. */
  function Fed(list: seq<Update>, policy: SkipPolicy): seq<Update> {
    match policy
    case SkipNone => OfKinds(list, CALLS) + OfKinds(list, NOT_CALLS)
    case SkipMessageIds => OfKinds(list, CALLS) + OfKinds(list, OTHERS)
    case SkipExceptGroupCallParticipants => OfKinds(list, CALLS)
  }

  function KindsFed(policy: SkipPolicy): Selection {
    match policy
    case SkipNone => Selection(true, true, true)
    case SkipMessageIds => Selection(false, true, true)
    case SkipExceptGroupCallParticipants => CALLS
  }

  lemma PartitionSelected(list: seq<Update>, policy: SkipPolicy)
    ensures OfKinds(OfKinds(list, CALLS) + OfKinds(list, NOT_CALLS), KindsFed(policy))
         == Fed(list, policy)
  {
    var calls, rest, kinds := OfKinds(list, CALLS), OfKinds(list, NOT_CALLS), KindsFed(policy);
    OfKindsMembers(list, CALLS);
    OfKindsMembers(list, NOT_CALLS);
    OfKindsAppend(calls, rest, kinds);
    AllChosen(calls, kinds);
    OfKindsTwice(list, NOT_CALLS, kinds);
    if policy == SkipExceptGroupCallParticipants {
      NoneChosen(rest, kinds);
    } else if policy == SkipNone {
      AllChosen(rest, kinds);
    }
  }

  /** The policy skips this update. */
  predicate Skips(policy: SkipPolicy, u: Update) {
    || (policy == SkipMessageIds && u.kind == MessageId)
    || (policy == SkipExceptGroupCallParticipants && u.kind != GroupCallParticipants)
  }

  /** What is fed: each update as often as the list has it unless the policy skips it, group call updates before all
      others, and otherwise in the order of the list. */
  lemma FedExactly(list: seq<Update>, policy: SkipPolicy, u: Update)
    ensures multiset(Fed(list, policy))[u] == if Skips(policy, u) then 0 else multiset(list)[u]
    ensures forall i, j :: 0 <= i < j < |Fed(list, policy)| && Fed(list, policy)[j].kind == GroupCallParticipants
                           ==> Fed(list, policy)[i].kind == GroupCallParticipants
    ensures KeepsOrder(list, Fed(list, policy))
  {
    CountedOnce(list, CALLS, u);
    CountedOnce(list, OTHERS, u);
    CountedOnce(list, NOT_CALLS, u);
    OfKindsMembers(list, CALLS);
    OfKindsMembers(list, OTHERS);
    OfKindsMembers(list, NOT_CALLS);
    hide OfKinds;
    FedOfKind(list, policy);
  }

  /** The first pass over a difference: the message id updates, and no other. */
  lemma MessageIdsExactly(list: seq<Update>, u: Update)
    ensures multiset(OfKinds(list, IDS))[u] == if u.kind == MessageId then multiset(list)[u] else 0
    ensures SubsequenceOf(OfKinds(list, IDS), list)
  {
    CountedOnce(list, IDS, u);
    OfKindsIsSubsequence(list, IDS);
  }

  /** Each of the two groups is fed in the order of the list. */
  ghost predicate KeepsOrder(list: seq<Update>, fed: seq<Update>) {
    && SubsequenceOf(OfKinds(fed, CALLS), list)
    && SubsequenceOf(OfKinds(fed, NOT_CALLS), list)
  }

  ghost predicate SubsequenceOf(part: seq<Update>, list: seq<Update>)
    decreases |list|
  {
    if part == [] || list == [] then part == []
    else
      var n, m := |list| - 1, |part| - 1;
      SubsequenceOf(part, list[..n]) || (part[m] == list[n] && SubsequenceOf(part[..m], list[..n]))
  }

  lemma {:induction false} OfKindsIsSubsequence(list: seq<Update>, kinds: Selection)
    ensures SubsequenceOf(OfKinds(list, kinds), list)
    decreases |list|
  {
    if list != [] {
      var n := |list| - 1;
      OfKindsIsSubsequence(list[..n], kinds);
      if kinds.Has(list[n].kind) {
        var front := OfKinds(list[..n], kinds);
        assert OfKinds(list, kinds) == front + [list[n]] && (front + [list[n]])[..|front|] == front;
      }
    }
  }

  lemma FedOfKind(list: seq<Update>, policy: SkipPolicy)
    ensures KeepsOrder(list, Fed(list, policy))
  {
    var calls := OfKinds(list, CALLS);
    var rest := match policy
                case SkipNone => OfKinds(list, NOT_CALLS)
                case SkipMessageIds => OfKinds(list, OTHERS)
                case SkipExceptGroupCallParticipants => [];
    OfKindsMembers(list, CALLS);
    OfKindsMembers(list, NOT_CALLS);
    OfKindsMembers(list, OTHERS);
    OfKindsAppend(calls, rest, CALLS);
    OfKindsAppend(calls, rest, NOT_CALLS);
    AllChosen(calls, CALLS);
    NoneChosen(calls, NOT_CALLS);
    NoneChosen(rest, CALLS);
    AllChosen(rest, NOT_CALLS);
    OfKindsIsSubsequence(list, CALLS);
    OfKindsIsSubsequence(list, NOT_CALLS);
    OfKindsIsSubsequence(list, OTHERS);
    hide OfKinds, SubsequenceOf;
    assert calls + [] == calls;
    assert SubsequenceOf(calls, list) && (rest != [] ==> SubsequenceOf(rest, list));
    EmptyIsSubsequence(list);
    assert Fed(list, policy) == calls + rest;
    assert calls + [] == calls && [] + rest == rest;
  }

  lemma EmptyIsSubsequence(list: seq<Update>)
    ensures SubsequenceOf([], list)
  {
  }

  class UpdateFeeder {
    ghost var fed: seq<Update>

    method FeedUpdate(update: Update)
      modifies this
      ensures fed == old(fed) + [update]
    {
      fed := fed + [update];
    }

    method FeedUpdateVector(updates: seq<Update>, policy: SkipPolicy)
      modifies this
      ensures fed == old(fed) + Fed(updates, policy)
    {
      hide OfKinds;
      assert OfKinds(updates[..0], KindsFed(policy)) == [] by {
        NoneChosen(updates[..0], KindsFed(policy));
      }
      var list := updates;
      var hasGroupCallParticipantUpdates := exists i :: 0 <= i < |list| && list[i].kind == GroupCallParticipants;
      if hasGroupCallParticipantUpdates {
        list := StableSort(list);
        StableSortIsPartition(updates, list);
      } else if policy == SkipExceptGroupCallParticipants {
        NoneChosen(updates, CALLS);
        return;
      } else {
        NoneChosen(updates, CALLS);
        AllChosen(updates, NOT_CALLS);
      }
      assert list == OfKinds(updates, CALLS) + OfKinds(updates, NOT_CALLS);
      PartitionSelected(updates, policy);
      for i := 0 to |list|
        invariant fed == old(fed) + OfKinds(list[..i], KindsFed(policy))
      {
        OfKindsOneMore(list, i, KindsFed(policy));
        var kind := list[i].kind;
        if (policy == SkipMessageIds && kind == MessageId)
          || (policy == SkipExceptGroupCallParticipants && kind != GroupCallParticipants) {
          continue;
        }
        FeedUpdate(list[i]);
      }
      assert list[..|list|] == list;
    }

    method FeedMessageIds(updates: seq<Update>)
      modifies this
      ensures fed == old(fed) + OfKinds(updates, IDS)
    {
      for i := 0 to |updates|
        invariant fed == old(fed) + OfKinds(updates[..i], IDS)
      {
        OfKindsOneMore(updates, i, IDS);
        if updates[i].kind == MessageId {
          FeedUpdate(updates[i]);
        }
      }
      assert updates[..|updates|] == updates;
    }

    /** Two passes that feed every element of a difference exactly once. */
    method FeedDifference(other: seq<Update>)
      modifies this
      ensures fed == old(fed) + OfKinds(other, IDS) + OfKinds(other, CALLS) + OfKinds(other, OTHERS)
      ensures multiset(fed) == multiset(old(fed)) + multiset(other)
    {
      hide OfKinds;
      FeedMessageIds(other);
      FeedUpdateVector(other, SkipMessageIds);
      OfKindsConserves(other);
      assert fed == old(fed) + (OfKinds(other, IDS) + OfKinds(other, CALLS) + OfKinds(other, OTHERS));
    }
  }
}
