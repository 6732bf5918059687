/**
 Saving an edited list of sticker sets: three passes over the sets (what was removed, whose installed flag goes, what
 the new order holds) and a sweep of the sets nothing keeps.
 */
module StickerSets {

  datatype SetId = SetId(id: int)

  datatype Document = Document(id: int)

  datatype Recent = Recent(document: Document, weight: int)

  datatype Kind = Stickers | Masks | Emoji

  datatype Flags = Flags(archived: bool, installed: bool, featured: bool, special: bool, emoji: bool, masks: bool)

  datatype StickerSet = StickerSet(flags: Flags, locked: int, installDate: int, stickers: set<Document>)

  const CUSTOM_SET: SetId := SetId(0xFFFF_FFFF_FFFF_FFFF)
  const CLOUD_RECENT_SET: SetId := SetId(0xFFFF_FFFF_FFFF_FFFC)
  const CLOUD_RECENT_ATTACHED_SET: SetId := SetId(0xFFFF_FFFF_FFFF_FFF9)

  /** `uninstalls` and `installs` are the sets a request was sent for, in order, `clears` the cloud lists that a request
      to clear was sent for. */
  datatype Store = Store(
    sets: map<SetId, StickerSet>,
    recent: seq<Recent>,
    order: seq<SetId>,
    uninstalls: seq<SetId>,
    installs: seq<SetId>,
    clears: seq<SetId>)

  /** The edit: the order wished for, and what was removed. */
  datatype Edit = Edit(localOrder: seq<SetId>, localRemoved: seq<SetId>, kind: Kind, now: int)

  predicate CloudRecent(id: SetId) {
    id == CLOUD_RECENT_SET || id == CLOUD_RECENT_ATTACHED_SET
  }

  predicate ClearedWithCloud(id: SetId) {
    CloudRecent(id) || id == CUSTOM_SET
  }

  function KindOf(s: StickerSet): Kind {
    if s.flags.emoji then Emoji else if s.flags.masks then Masks else Stickers
  }

  /** What keeps a set although it is not installed any more. */
  predicate Held(s: StickerSet) {
    s.flags.featured || s.flags.special || s.flags.emoji || s.locked > 0
  }

  predicate Kept(s: StickerSet) {
    s.flags.featured || s.flags.installed || s.flags.archived || s.flags.special || s.flags.emoji || s.locked > 0
  }

  // ----- the passes on values -----

  function Uninstalled(s: StickerSet): StickerSet {
    s.(flags := s.flags.(installed := false, archived := false), installDate := 0)
  }

  function Without(recent: seq<Recent>, documents: set<Document>): seq<Recent> {
    if recent == [] then []
    else
      var n := |recent| - 1;
      Without(recent[..n], documents) + if recent[n].document in documents then [] else [recent[n]]
  }

  function WithoutFirst(ids: seq<SetId>, id: SetId): seq<SetId> {
    if ids == [] then [] else if ids[0] == id then ids[1..] else [ids[0]] + WithoutFirst(ids[1..], id)
  }

  function RemovedOne(st: Store, id: SetId): Store {
    if CloudRecent(id) then
      st.(sets := st.sets - {CLOUD_RECENT_SET, CLOUD_RECENT_ATTACHED_SET, CUSTOM_SET}, recent := [],
          clears := st.clears + [id])
    else if id !in st.sets then st
    else
      var s := st.sets[id];
      var recent := Without(st.recent, s.stickers);
      if s.flags.archived then st.(recent := recent)
      else
        st.(recent := recent,
            order := WithoutFirst(st.order, id),
            sets := if Held(s) then st.sets[id := Uninstalled(s)] else st.sets - {id},
            uninstalls := st.uninstalls + [id])
  }

  function Removed(st: Store, localRemoved: seq<SetId>): Store {
    if localRemoved == [] then st
    else RemovedOne(Removed(st, localRemoved[..|localRemoved| - 1]), localRemoved[|localRemoved| - 1])
  }

  /** A set taken off leaves the order at its first place there; no other removal touches the order. */
  lemma {:induction false} OnceOutOfOrder(ids: seq<SetId>, id: SetId, k: nat)
    requires k <= |ids| && (k < |ids| ==> ids[k] == id) && forall j :: 0 <= j < k ==> ids[j] != id
    ensures WithoutFirst(ids, id) == if k < |ids| then ids[..k] + ids[k + 1..] else ids
  {
    if k > 0 {
      OnceOutOfOrder(ids[1..], id, k - 1);
      assert ids == [ids[0]] + ids[1..];
    }
  }

  lemma OrderWhileRemoving(st: Store, id: SetId, k: nat)
    requires k <= |st.order| && (k < |st.order| ==> st.order[k] == id) && forall j :: 0 <= j < k ==> st.order[j] != id
    ensures var taken := && id !in {CLOUD_RECENT_SET, CLOUD_RECENT_ATTACHED_SET}
                         && id in st.sets && !st.sets[id].flags.archived;
            RemovedOne(st, id).order == if taken && k < |st.order| then st.order[..k] + st.order[k + 1..] else st.order
  {
    OnceOutOfOrder(st.order, id, k);
    hide Without, WithoutFirst;
  }

  function NotInstalled(s: StickerSet): StickerSet {
    s.(flags := s.flags.(installed := false))
  }

  function Cleared(sets: map<SetId, StickerSet>, kind: Kind): map<SetId, StickerSet> {
    map id | id in sets ::
      if !sets[id].flags.archived && KindOf(sets[id]) == kind then NotInstalled(sets[id]) else sets[id]
  }

  /** A set of the order: installed, dated, and no longer archived unless it was removed as well. */
  function Placed(s: StickerSet, removed: bool, now: int): StickerSet {
    s.(flags := s.flags.(installed := true, archived := s.flags.archived && removed),
       installDate := if s.installDate == 0 then now else s.installDate)
  }

  function PlacedOne(st: Store, id: SetId, edit: Edit): Store {
    if id !in st.sets then st
    else
      var s := st.sets[id];
      var removed := id in edit.localRemoved;
      st.(sets := st.sets[id := Placed(s, removed, edit.now)],
          order := st.order + [id],
          installs := if s.flags.archived && !removed then st.installs + [id] else st.installs)
  }

  function PlacedAll(st: Store, localOrder: seq<SetId>, edit: Edit): Store {
    if localOrder == [] then st
    else PlacedOne(PlacedAll(st, localOrder[..|localOrder| - 1], edit), localOrder[|localOrder| - 1], edit)
  }

  function Swept(sets: map<SetId, StickerSet>): map<SetId, StickerSet> {
    map id | id in sets && Kept(sets[id]) :: sets[id]
  }

  /** No request sent yet. */
  function Started(st: Store): Store {
    st.(uninstalls := [], installs := [], clears := [])
  }

  /** The second and the third pass and the sweep. */
  function Arranged(removed: Store, edit: Edit): Store {
    var cleared := removed.(sets := Cleared(removed.sets, edit.kind), order := []);
    var placed := PlacedAll(cleared, edit.localOrder, edit);
    placed.(sets := Swept(placed.sets))
  }

  function Saved(st: Store, edit: Edit): Store {
    Arranged(Removed(Started(st), edit.localRemoved), edit)
  }

  // ----- what each pass does to one set -----

  predicate CloudAmong(ids: seq<SetId>) {
    CLOUD_RECENT_SET in ids || CLOUD_RECENT_ATTACHED_SET in ids
  }

  /** The edit takes this set off the account. */
  predicate TakenOff(sets: map<SetId, StickerSet>, localRemoved: seq<SetId>, id: SetId) {
    id in sets && id in localRemoved && !CloudRecent(id) && !sets[id].flags.archived
  }

  /** The edit erases this set at once. */
  predicate Erased(sets: map<SetId, StickerSet>, localRemoved: seq<SetId>, id: SetId) {
    || (CloudAmong(localRemoved) && ClearedWithCloud(id))
    || (TakenOff(sets, localRemoved, id) && !Held(sets[id]))
  }

  function AfterRemoval(sets: map<SetId, StickerSet>, localRemoved: seq<SetId>, id: SetId): StickerSet
    requires id in sets
  {
    if TakenOff(sets, localRemoved, id) then Uninstalled(sets[id]) else sets[id]
  }

  /** What the removals of a list did to one set. */
  ghost predicate RemovedFits(before: map<SetId, StickerSet>, localRemoved: seq<SetId>, id: SetId,
                              after: map<SetId, StickerSet>)
  {
    && (id in after <==> id in before && !Erased(before, localRemoved, id))
    && (id in after ==> after[id] == AfterRemoval(before, localRemoved, id))
  }

  lemma RemovedOneFits(before: map<SetId, StickerSet>, ids: seq<SetId>, id: SetId, st: Store, last: SetId)
    requires RemovedFits(before, ids, id, st.sets) && RemovedFits(before, ids, last, st.sets)
    ensures RemovedFits(before, ids + [last], id, RemovedOne(st, last).sets)
  {
    hide Without, WithoutFirst;
  }

  lemma {:induction false} RemovedSets(st: Store, localRemoved: seq<SetId>, id: SetId)
    ensures id in Removed(st, localRemoved).sets <==> id in st.sets && !Erased(st.sets, localRemoved, id)
    ensures id in Removed(st, localRemoved).sets
            ==> Removed(st, localRemoved).sets[id] == AfterRemoval(st.sets, localRemoved, id)
  {
    if localRemoved != [] {
      var n := |localRemoved| - 1;
      RemovedSets(st, localRemoved[..n], id);
      RemovedSets(st, localRemoved[..n], localRemoved[n]);
      hide RemovedOne, Erased, AfterRemoval;
      RemovedOneFits(st.sets, localRemoved[..n], id, Removed(st, localRemoved[..n]), localRemoved[n]);
      assert localRemoved == localRemoved[..n] + [localRemoved[n]];
    }
  }

  lemma {:induction false} PlacedSets(st: Store, localOrder: seq<SetId>, edit: Edit, id: SetId)
    ensures id in PlacedAll(st, localOrder, edit).sets <==> id in st.sets
    ensures id in st.sets ==>
              PlacedAll(st, localOrder, edit).sets[id]
              == if id in localOrder then Placed(st.sets[id], id in edit.localRemoved, edit.now) else st.sets[id]
    ensures PlacedAll(st, localOrder, edit).recent == st.recent
    ensures PlacedAll(st, localOrder, edit).uninstalls == st.uninstalls
    ensures PlacedAll(st, localOrder, edit).clears == st.clears
  {
    if localOrder != [] {
      var n := |localOrder| - 1;
      PlacedSets(st, localOrder[..n], edit, id);
      PlacedSets(st, localOrder[..n], edit, localOrder[n]);
      assert localOrder == localOrder[..n] + [localOrder[n]];
    }
  }

  /** Those of the ids that are sets, in their order. */
  function Existing(sets: map<SetId, StickerSet>, ids: seq<SetId>): seq<SetId> {
    if ids == [] then []
    else Existing(sets, ids[..|ids| - 1]) + if ids[|ids| - 1] in sets then [ids[|ids| - 1]] else []
  }

  lemma {:induction false} ExistingIs(sets: map<SetId, StickerSet>, ids: seq<SetId>, id: SetId)
    ensures id in Existing(sets, ids) <==> id in ids && id in sets
  {
    if ids != [] {
      ExistingIs(sets, ids[..|ids| - 1], id);
      assert ids == ids[..|ids| - 1] + [ids[|ids| - 1]];
    }
  }

  lemma {:induction false} SameExisting(sets: map<SetId, StickerSet>, more: map<SetId, StickerSet>, ids: seq<SetId>)
    requires forall id :: id in ids ==> (id in sets <==> id in more)
    ensures Existing(sets, ids) == Existing(more, ids)
  {
    if ids != [] {
      assert ids == ids[..|ids| - 1] + [ids[|ids| - 1]];
      SameExisting(sets, more, ids[..|ids| - 1]);
    }
  }

  lemma {:induction false} PlacedOrder(st: Store, localOrder: seq<SetId>, edit: Edit)
    ensures PlacedAll(st, localOrder, edit).order == st.order + Existing(st.sets, localOrder)
  {
    if localOrder != [] {
      var n := |localOrder| - 1;
      PlacedOrder(st, localOrder[..n], edit);
      PlacedSets(st, localOrder[..n], edit, localOrder[n]);
    }
  }

  // ----- the whole save -----

  /** A set is there afterwards exactly when it was there, no removal erased it, and the order or some flag keeps it.
      Clearing a cloud list erases three sets; another set that is removed, is not archived and has nothing that lasts
      is erased as well. An installed set of another kind is kept too, unless it was removed. */
  lemma SurvivesExactly(st: Store, edit: Edit, id: SetId)
    ensures id in Saved(st, edit).sets
            <==> && id in st.sets
                 && var s := st.sets[id];
                    var cloud := id in {CLOUD_RECENT_SET, CLOUD_RECENT_ATTACHED_SET};
                    var lasts := s.flags.featured || s.flags.special || s.flags.emoji || s.locked > 0;
                    var taken := id in edit.localRemoved && !cloud && !s.flags.archived;
                    var kind := if s.flags.emoji then Emoji else if s.flags.masks then Masks else Stickers;
                    && !((CLOUD_RECENT_SET in edit.localRemoved || CLOUD_RECENT_ATTACHED_SET in edit.localRemoved)
                         && (cloud || id == CUSTOM_SET))
                    && (taken ==> lasts)
                    && (|| id in edit.localOrder || lasts || s.flags.archived
                        || (s.flags.installed && kind != edit.kind && !taken))
  {
    var begun := Started(st);
    RemovedSets(begun, edit.localRemoved, id);
    var removed := Removed(begun, edit.localRemoved);
    PlacedSets(removed.(sets := Cleared(removed.sets, edit.kind), order := []), edit.localOrder, edit, id);
    hide Removed, PlacedAll;
  }

  /** The new order is the wished one without the sets that are not there, and what it holds is there and installed. */
  lemma OrderIsFiltered(st: Store, edit: Edit, id: SetId)
    ensures var after := Saved(st, edit);
            && after.order == Existing(after.sets, edit.localOrder)
            && (id in after.order ==> id in after.sets && after.sets[id].flags.installed)
  {
    var removed := Removed(Started(st), edit.localRemoved);
    var cleared := removed.(sets := Cleared(removed.sets, edit.kind), order := []);
    var placed := PlacedAll(cleared, edit.localOrder, edit);
    PlacedOrder(cleared, edit.localOrder, edit);
    forall o | o in edit.localOrder ensures o in cleared.sets <==> o in Swept(placed.sets) {
      PlacedSets(cleared, edit.localOrder, edit, o);
    }
    PlacedSets(cleared, edit.localOrder, edit, id);
    SameExisting(cleared.sets, Swept(placed.sets), edit.localOrder);
    ExistingIs(Swept(placed.sets), edit.localOrder, id);
    hide Removed, PlacedAll, Existing;
  }

  /** Among the sets of the saved kind that are not archived, exactly those of the order are installed. */
  lemma InstalledExactly(st: Store, edit: Edit, id: SetId)
    ensures var after := Saved(st, edit);
            id in after.sets && !after.sets[id].flags.archived && KindOf(after.sets[id]) == edit.kind
            ==> (after.sets[id].flags.installed <==> id in after.order)
  {
    var removed := Removed(Started(st), edit.localRemoved);
    var cleared := removed.(sets := Cleared(removed.sets, edit.kind), order := []);
    PlacedSets(cleared, edit.localOrder, edit, id);
    PlacedOrder(cleared, edit.localOrder, edit);
    ExistingIs(cleared.sets, edit.localOrder, id);
    hide Removed, PlacedAll, Existing;
  }

  /** What a save makes of a set that survives it: whether it is installed, archived and dated; all else stays. */
  lemma FlagsExactly(st: Store, edit: Edit, id: SetId)
    requires id in Saved(st, edit).sets
    ensures id in st.sets
    ensures var s, after := st.sets[id], Saved(st, edit).sets[id];
            var cloud := id in {CLOUD_RECENT_SET, CLOUD_RECENT_ATTACHED_SET};
            var taken := id in edit.localRemoved && !cloud && !s.flags.archived;
            var kind := if s.flags.emoji then Emoji else if s.flags.masks then Masks else Stickers;
            var date := if taken then 0 else s.installDate;
            && (after.flags.installed
                <==> || id in edit.localOrder
                     || (s.flags.installed && !taken && (s.flags.archived || kind != edit.kind)))
            && (after.flags.archived
                <==> s.flags.archived && (id !in edit.localOrder || id in edit.localRemoved))
            && after.installDate == (if id in edit.localOrder && date == 0 then edit.now else date)
            && after == s.(flags := s.flags.(installed := after.flags.installed, archived := after.flags.archived),
                           installDate := after.installDate)
  {
    var begun := Started(st);
    RemovedSets(begun, edit.localRemoved, id);
    var removed := Removed(begun, edit.localRemoved);
    PlacedSets(removed.(sets := Cleared(removed.sets, edit.kind), order := []), edit.localOrder, edit, id);
    hide Removed, PlacedAll;
  }

  // ----- recent stickers and requests -----

  /** The stickers of the removed sets that there were. */
  function Gone(sets: map<SetId, StickerSet>, localRemoved: seq<SetId>): set<Document> {
    if localRemoved == [] then {}
    else
      var n := |localRemoved| - 1;
      var id := localRemoved[n];
      Gone(sets, localRemoved[..n]) + if id in sets && !CloudRecent(id) then sets[id].stickers else {}
  }

  lemma {:induction false} GoneHas(sets: map<SetId, StickerSet>, localRemoved: seq<SetId>, id: SetId)
    requires id in sets && id in localRemoved && !CloudRecent(id)
    ensures sets[id].stickers <= Gone(sets, localRemoved)
  {
    var n := |localRemoved| - 1;
    if id != localRemoved[n] {
      assert localRemoved == localRemoved[..n] + [localRemoved[n]];
      GoneHas(sets, localRemoved[..n], id);
    }
  }

  lemma WithoutLast(recent: seq<Recent>, last: Recent, d: set<Document>)
    ensures Without(recent + [last], d) == Without(recent, d) + if last.document in d then [] else [last]
  {
    assert (recent + [last])[..|recent|] == recent;
  }

  lemma {:induction false} WithoutBoth(recent: seq<Recent>, a: set<Document>, b: set<Document>)
    ensures Without(Without(recent, a), b) == Without(recent, a + b)
  {
    if recent != [] {
      var most, last := recent[..|recent| - 1], recent[|recent| - 1];
      assert recent == most + [last];
      hide Without;
      WithoutBoth(most, a, b);
      WithoutLast(most, last, a);
      WithoutLast(most, last, a + b);
      WithoutLast(Without(most, a), last, b);
      if last.document in a {
        assert Without(recent, a) == Without(most, a);
        assert Without(recent, a + b) == Without(most, a + b);
      }
    } else {
      assert Without(recent, a) == [] && Without(recent, a + b) == [];
    }
  }

  lemma {:induction false} WithoutNothing(recent: seq<Recent>)
    ensures Without(recent, {}) == recent
  {
    if recent != [] {
      WithoutNothing(recent[..|recent| - 1]);
    }
  }

  lemma RemovedOneRecent(before: Store, sets: map<SetId, StickerSet>, recent: seq<Recent>, localRemoved: seq<SetId>,
                         id: SetId)
    requires !CloudAmong(localRemoved) && before.recent == Without(recent, Gone(sets, localRemoved))
    requires !CloudRecent(id) && (id in before.sets ==> id in sets && before.sets[id].stickers == sets[id].stickers)
    requires id in sets && id !in before.sets ==> id in localRemoved
    ensures RemovedOne(before, id).recent == Without(recent, Gone(sets, localRemoved + [id]))
  {
    var gone := Gone(sets, localRemoved);
    assert (localRemoved + [id])[..|localRemoved|] == localRemoved;
    hide Without, WithoutFirst;
    if id in before.sets {
      WithoutBoth(recent, gone, sets[id].stickers);
    } else if id in sets {
      GoneHas(sets, localRemoved, id);
      assert gone + sets[id].stickers == gone;
    } else {
      assert gone + {} == gone;
    }
  }

  lemma {:induction false} RemovedRecent(st: Store, localRemoved: seq<SetId>)
    ensures Removed(st, localRemoved).recent
            == if CloudAmong(localRemoved) then [] else Without(st.recent, Gone(st.sets, localRemoved))
    ensures Removed(st, localRemoved).installs == st.installs
  {
    if localRemoved == [] {
      WithoutNothing(st.recent);
    } else {
      var n := |localRemoved| - 1;
      var id, before := localRemoved[n], Removed(st, localRemoved[..n]);
      RemovedRecent(st, localRemoved[..n]);
      RemovedSets(st, localRemoved[..n], id);
      assert localRemoved == localRemoved[..n] + [id];
      if !CloudAmong(localRemoved) {
        RemovedOneRecent(before, st.sets, st.recent, localRemoved[..n], id);
      }
      hide Gone, WithoutFirst;
    }
  }

  /** The recent stickers lose those of the removed sets; clearing the cloud list takes them all. */
  lemma RecentIsFiltered(st: Store, edit: Edit)
    ensures Saved(st, edit).recent
            == if CloudAmong(edit.localRemoved) then [] else Without(st.recent, Gone(st.sets, edit.localRemoved))
  {
    RemovedRecent(Started(st), edit.localRemoved);
    var removed := Removed(Started(st), edit.localRemoved);
    PlacedSets(removed.(sets := Cleared(removed.sets, edit.kind), order := []), edit.localOrder, edit, CUSTOM_SET);
    hide Removed, PlacedAll, Gone, Without;
  }

  lemma {:induction false} WithoutCounts(recent: seq<Recent>, documents: set<Document>, r: Recent)
    ensures multiset(Without(recent, documents))[r] == if r.document in documents then 0 else multiset(recent)[r]
  {
    if recent != [] {
      var most, last := recent[..|recent| - 1], recent[|recent| - 1];
      assert recent == most + [last];
      hide Without;
      WithoutLast(most, last, documents);
      WithoutCounts(most, documents, r);
    } else {
      assert Without(recent, documents) == [];
    }
  }

  lemma {:induction false} GoneExactly(sets: map<SetId, StickerSet>, localRemoved: seq<SetId>, d: Document)
    ensures d in Gone(sets, localRemoved)
            <==> exists id :: id in localRemoved && id in sets && !CloudRecent(id) && d in sets[id].stickers
  {
    if localRemoved != [] {
      var n := |localRemoved| - 1;
      GoneExactly(sets, localRemoved[..n], d);
      assert localRemoved == localRemoved[..n] + [localRemoved[n]];
    }
  }

  /** A recent sticker stays exactly if no cloud list is cleared and it is in none of the sets removed. */
  lemma RecentExactly(st: Store, edit: Edit, r: Recent)
    ensures multiset(Saved(st, edit).recent)[r]
         == if || CLOUD_RECENT_SET in edit.localRemoved
               || CLOUD_RECENT_ATTACHED_SET in edit.localRemoved
               || exists id :: && id in edit.localRemoved && id in st.sets && r.document in st.sets[id].stickers
                               && id !in {CLOUD_RECENT_SET, CLOUD_RECENT_ATTACHED_SET}
            then 0 else multiset(st.recent)[r]
  {
    RecentIsFiltered(st, edit);
    WithoutCounts(st.recent, Gone(st.sets, edit.localRemoved), r);
    GoneExactly(st.sets, edit.localRemoved, r.document);
    hide Saved, Gone, Without;
  }

  lemma RemovedKeepsInstalls(st: Store, localRemoved: seq<SetId>)
    ensures Removed(st, localRemoved).installs == st.installs
  {
    RemovedRecent(st, localRemoved);
  }

  /** The removals up to the first that clears a cloud list. */
  function BeforeCloud(localRemoved: seq<SetId>): seq<SetId> {
    if !CloudAmong(localRemoved) then localRemoved else BeforeCloud(localRemoved[..|localRemoved| - 1])
  }

  /** The removals that can still find a set: clearing a cloud list takes three of them away. */
  function Reaching(localRemoved: seq<SetId>, id: SetId): seq<SetId> {
    if ClearedWithCloud(id) then BeforeCloud(localRemoved) else localRemoved
  }

  /** How often a set that is there gets a request: once for each removal if something holds it, else once. */
  function UninstallCount(sets: map<SetId, StickerSet>, removals: seq<SetId>, id: SetId): nat {
    if !TakenOff(sets, removals, id) then 0
    else if Held(sets[id]) then multiset(removals)[id]
    else 1
  }

  lemma BeforeCloudOneMore(localRemoved: seq<SetId>, last: SetId)
    ensures BeforeCloud(localRemoved + [last])
            == if CloudAmong(localRemoved) || CloudRecent(last) then BeforeCloud(localRemoved)
               else localRemoved + [last]
  {
    var more := localRemoved + [last];
    assert more[..|more| - 1] == localRemoved && last == more[|more| - 1];
    assert forall id :: id in more <==> id in localRemoved || id == last;
  }

  lemma UninstallsOneMore(before: Store, sets: map<SetId, StickerSet>, localRemoved: seq<SetId>, last: SetId, id: SetId)
    requires id in before.sets <==> id in sets && !Erased(sets, localRemoved, id)
    requires id in before.sets ==> before.sets[id] == AfterRemoval(sets, localRemoved, id)
    ensures multiset(RemovedOne(before, last).uninstalls)[id] - multiset(before.uninstalls)[id]
            == UninstallCount(sets, Reaching(localRemoved + [last], id), id)
               - UninstallCount(sets, Reaching(localRemoved, id), id)
  {
    BeforeCloudOneMore(localRemoved, last);
    assert !CloudAmong(localRemoved) ==> BeforeCloud(localRemoved) == localRemoved;
    hide Without, WithoutFirst, BeforeCloud;
    var all := localRemoved + [last];
    assert multiset(all) == multiset(localRemoved) + multiset{last};
    assert multiset(before.uninstalls + [last]) == multiset(before.uninstalls) + multiset{last};
  }

  lemma {:induction false} RemovedRequests(st: Store, localRemoved: seq<SetId>, id: SetId)
    ensures multiset(Removed(st, localRemoved).uninstalls)[id]
            == multiset(st.uninstalls)[id] + UninstallCount(st.sets, Reaching(localRemoved, id), id)
  {
    if localRemoved != [] {
      var n := |localRemoved| - 1;
      RemovedRequests(st, localRemoved[..n], id);
      RemovedSets(st, localRemoved[..n], id);
      assert localRemoved == localRemoved[..n] + [localRemoved[n]];
      UninstallsOneMore(Removed(st, localRemoved[..n]), st.sets, localRemoved[..n], localRemoved[n], id);
      hide RemovedOne, Reaching, UninstallCount;
    }
  }

  /** The cloud lists among the removals, in order. */
  function CloudLists(localRemoved: seq<SetId>): seq<SetId> {
    if localRemoved == [] then []
    else
      var n := |localRemoved| - 1;
      CloudLists(localRemoved[..n]) + if CloudRecent(localRemoved[n]) then [localRemoved[n]] else []
  }

  lemma {:induction false} RemovedClears(st: Store, localRemoved: seq<SetId>)
    ensures Removed(st, localRemoved).clears == st.clears + CloudLists(localRemoved)
  {
    if localRemoved != [] {
      RemovedClears(st, localRemoved[..|localRemoved| - 1]);
      hide Without, WithoutFirst;
    }
  }

  ghost predicate Distinct(ids: seq<SetId>) {
    forall i, j :: 0 <= i < j < |ids| ==> ids[i] != ids[j]
  }

  lemma {:induction false} PlacedRequests(st: Store, localOrder: seq<SetId>, edit: Edit, id: SetId)
    requires st.installs == []
    ensures var after := PlacedAll(st, localOrder, edit);
            && Distinct(after.installs)
            && (id in after.installs
                <==> id in localOrder && id in st.sets && st.sets[id].flags.archived && id !in edit.localRemoved)
  {
    if localOrder != [] {
      var n := |localOrder| - 1;
      PlacedRequests(st, localOrder[..n], edit, id);
      PlacedRequests(st, localOrder[..n], edit, localOrder[n]);
      PlacedSets(st, localOrder[..n], edit, localOrder[n]);
      assert localOrder == localOrder[..n] + [localOrder[n]];
    }
  }

  lemma {:induction false} DistinctOnce(ids: seq<SetId>, id: SetId)
    requires Distinct(ids)
    ensures multiset(ids)[id] == if id in ids then 1 else 0
  {
    if ids != [] {
      var n := |ids| - 1;
      DistinctOnce(ids[..n], id);
      assert ids == ids[..n] + [ids[n]];
    }
  }

  /** For each set taken off a request to uninstall goes out, one for each removal if something holds the set and one
      otherwise; one to install for each archived set of the order that is there and was not removed as well; and one
      to clear for each cloud list removed. */
  lemma RequestsAreExact(st: Store, edit: Edit, id: SetId)
    ensures var after := Saved(st, edit);
            && multiset(after.uninstalls)[id] == UninstallCount(st.sets, Reaching(edit.localRemoved, id), id)
            && multiset(after.installs)[id]
               == (if && id in edit.localOrder && id !in edit.localRemoved
                      && id in st.sets && st.sets[id].flags.archived && !Erased(st.sets, edit.localRemoved, id)
                   then 1 else 0)
            && after.clears == CloudLists(edit.localRemoved)
  {
    var begun := Started(st);
    RemovedSets(begun, edit.localRemoved, id);
    RemovedRequests(begun, edit.localRemoved, id);
    RemovedRecent(begun, edit.localRemoved);
    RemovedClears(begun, edit.localRemoved);
    var removed := Removed(begun, edit.localRemoved);
    var cleared := removed.(sets := Cleared(removed.sets, edit.kind), order := []);
    PlacedRequests(cleared, edit.localOrder, edit, id);
    PlacedSets(cleared, edit.localOrder, edit, id);
    DistinctOnce(PlacedAll(cleared, edit.localOrder, edit).installs, id);
    hide Removed, PlacedAll, Gone, Without, Reaching, UninstallCount, CloudLists;
  }
}
