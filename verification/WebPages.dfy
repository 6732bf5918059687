/**
 Resolving pending web pages in batches: one request for all messages outside channels and one
 per channel, handed out through temporary negative ids.
 */
module WebPages {
  import opened Basics
  import opened Ordered

  datatype Page = Page(key: int)

  datatype Channel = Channel(key: int)

  /** The message a page is shown in, and the channel it is in, if any. */
  datatype Item = Item(channel: Option<Channel>, id: int)

  datatype Batch = Batch(channel: Option<Channel>, ids: seq<int>)

  datatype IndexAndMessageIds = IndexAndMessageIds(index: nat, ids: seq<int>)

  const INT_MAX := 0x7FFF_FFFF

  // ----- what a batch is for -----

  function Tagged(pending: map<Page, int>, tag: int): set<Page> {
    set p | p in pending && pending[p] == tag
  }

  /** The ids are those of the messages of exactly these pages, one for each page, all of them in one place. */
  ghost predicate Covers(ids: seq<int>, pages: set<Page>, channel: Option<Channel>, find: map<Page, Item>) {
    && (forall p :: p in pages ==> p in find && find[p].channel == channel && find[p].id in ids)
    && (forall i :: 0 <= i < |ids| ==> exists p :: p in pages && p in find && find[p].id == ids[i])
    && |ids| == |pages|
  }

  lemma CoversOneMore(ids: seq<int>, pages: set<Page>, channel: Option<Channel>, find: map<Page, Item>, p: Page)
    requires Covers(ids, pages, channel, find) && p !in pages && p in find && find[p].channel == channel
    ensures Covers(ids + [find[p].id], pages + {p}, channel, find)
  {
    var more, all := ids + [find[p].id], pages + {p};
    forall i | 0 <= i < |more|
      ensures exists q :: q in all && q in find && find[q].id == more[i]
    {
      if i == |ids| {
        assert p in all;
      } else {
        var q :| q in pages && q in find && find[q].id == ids[i];
        assert q in all;
      }
    }
  }

  lemma CoversOne(find: map<Page, Item>, p: Page)
    requires p in find
    ensures Covers([find[p].id], {p}, find[p].channel, find)
  {
    assert [find[p].id][0] == find[p].id;
  }

  /** Whether a pass at time `t` takes a page into a batch: it is due, not asked for yet, and shown in a message. */
  predicate Taken(pending: map<Page, int>, till: Page -> int, find: map<Page, Item>, t: int, p: Page) {
    p in pending && pending[p] <= 0 && till(p) <= t && p in find
  }

  /** The channel indices are a bijection onto the numbers below the number of channels; `order` is its inverse. */
  ghost predicate Indexed(byChannel: map<Channel, IndexAndMessageIds>, order: seq<Channel>) {
    && |order| == |byChannel|
    && (forall i :: 0 <= i < |order| ==> order[i] in byChannel && byChannel[order[i]].index == i)
    && (forall c :: c in byChannel ==> byChannel[c].index < |order| && order[byChannel[c].index] == c)
  }

  /** What the temporary id of a page says about it. */
  ghost predicate TempIdFits(tag: int, p: Page, order: seq<Channel>, find: map<Page, Item>) {
    p in find && match find[p].channel
                 case None => tag == -1
                 case Some(c) => 0 <= -tag - 2 < |order| && order[-tag - 2] == c
  }

  /** The pages of `done` that the pass takes carry temporary ids; every other page is as it was. */
  ghost predicate Marked(
    before: map<Page, int>, till: Page -> int, find: map<Page, Item>, t: int, done: set<Page>,
    pending: map<Page, int>, order: seq<Channel>)
  {
    && pending.Keys == before.Keys
    && forall p :: p in before ==>
         if p in done && Taken(before, till, find, t, p) then pending[p] < 0 && TempIdFits(pending[p], p, order, find)
         else pending[p] == before[p] >= 0
  }

  /** Each batch collected so far holds exactly the messages of the pages that carry its temporary id. */
  ghost predicate Collected(
    pending: map<Page, int>, ids: seq<int>, byChannel: map<Channel, IndexAndMessageIds>, find: map<Page, Item>)
  {
    && Covers(ids, Tagged(pending, -1), None, find)
    && forall c :: c in byChannel ==> ChannelCollected(pending, byChannel[c], c, find)
  }

  ghost predicate ChannelCollected(
    pending: map<Page, int>, batch: IndexAndMessageIds, c: Channel, find: map<Page, Item>)
  {
    batch.ids != [] && Covers(batch.ids, Tagged(pending, -(batch.index as int) - 2), Some(c), find)
  }

  lemma TaggedOneMore(pending: map<Page, int>, p: Page, tag: int)
    requires p in pending && pending[p] != tag
    ensures Tagged(pending[p := tag], tag) == Tagged(pending, tag) + {p} && p !in Tagged(pending, tag)
    ensures forall other :: other != tag && other != pending[p] ==>
              Tagged(pending[p := tag], other) == Tagged(pending, other)
  {
  }

  lemma IndexedSame(byChannel: map<Channel, IndexAndMessageIds>, order: seq<Channel>, c: Channel, ids: seq<int>)
    requires Indexed(byChannel, order) && c in byChannel
    ensures Indexed(byChannel[c := IndexAndMessageIds(byChannel[c].index, ids)], order)
  {
    assert byChannel[c := IndexAndMessageIds(byChannel[c].index, ids)].Keys == byChannel.Keys;
    assert |byChannel[c := IndexAndMessageIds(byChannel[c].index, ids)].Keys| == |byChannel.Keys|;
  }

  lemma IndexedNew(byChannel: map<Channel, IndexAndMessageIds>, order: seq<Channel>, c: Channel, ids: seq<int>)
    requires Indexed(byChannel, order) && c !in byChannel
    ensures Indexed(byChannel[c := IndexAndMessageIds(|byChannel|, ids)], order + [c])
  {
    var more := byChannel[c := IndexAndMessageIds(|byChannel|, ids)];
    assert more.Keys == byChannel.Keys + {c};
    assert |more.Keys| == |byChannel.Keys| + 1;
  }

  lemma CollectedPlain(
    pending: map<Page, int>, ids: seq<int>, byChannel: map<Channel, IndexAndMessageIds>, order: seq<Channel>,
    find: map<Page, Item>, p: Page)
    requires Indexed(byChannel, order) && Collected(pending, ids, byChannel, find)
    requires p in pending && pending[p] == 0 && p in find && find[p].channel == None
    ensures Collected(pending[p := -1], ids + [find[p].id], byChannel, find)
  {
    TaggedOneMore(pending, p, -1);
    CoversOneMore(ids, Tagged(pending, -1), None, find, p);
    hide Covers, Tagged;
    forall c | c in byChannel
      ensures ChannelCollected(pending[p := -1], byChannel[c], c, find)
    {
      assert ChannelCollected(pending, byChannel[c], c, find);
    }
  }

  lemma CollectedMore(
    pending: map<Page, int>, ids: seq<int>, byChannel: map<Channel, IndexAndMessageIds>, order: seq<Channel>,
    find: map<Page, Item>, p: Page, c: Channel)
    requires Indexed(byChannel, order) && Collected(pending, ids, byChannel, find)
    requires p in pending && pending[p] == 0 && p in find && find[p].channel == Some(c) && c in byChannel
    ensures var i := byChannel[c].index;
            Collected(pending[p := -(i as int) - 2], ids,
                      byChannel[c := IndexAndMessageIds(i, byChannel[c].ids + [find[p].id])], find)
  {
    hide Covers, Tagged, Indexed;
    var tag := -(byChannel[c].index as int) - 2;
    TaggedOneMore(pending, p, tag);
    assert ChannelCollected(pending, byChannel[c], c, find);
    CoversOneMore(byChannel[c].ids, Tagged(pending, tag), Some(c), find, p);
    forall d | d in byChannel && d != c
      ensures ChannelCollected(pending[p := tag], byChannel[d], d, find)
    {
      IndicesDiffer(byChannel, order, c, d);
      assert ChannelCollected(pending, byChannel[d], d, find);
    }
  }

  lemma CollectedNew(
    pending: map<Page, int>, ids: seq<int>, byChannel: map<Channel, IndexAndMessageIds>, order: seq<Channel>,
    find: map<Page, Item>, p: Page, c: Channel)
    requires Indexed(byChannel, order) && Collected(pending, ids, byChannel, find)
    requires p in pending && pending[p] == 0 && p in find && find[p].channel == Some(c) && c !in byChannel
    requires Tagged(pending, -|byChannel| - 2) == {}
    ensures Collected(pending[p := -|byChannel| - 2], ids,
                      byChannel[c := IndexAndMessageIds(|byChannel|, [find[p].id])], find)
  {
    hide Covers, Tagged, Indexed;
    var tag := -|byChannel| - 2;
    TaggedOneMore(pending, p, tag);
    CoversOne(find, p);
    forall d | d in byChannel
      ensures ChannelCollected(pending[p := tag], byChannel[d], d, find)
    {
      IndexedAt(byChannel, order, d);
      assert ChannelCollected(pending, byChannel[d], d, find);
    }
    assert {} + {p} == {p};
  }

  /** Every page asked for carries the id of a request that was sent. */
  ghost predicate IdsFit(pending: map<Page, int>, sent: map<int, Batch>, next: int) {
    && SentBelow(sent, next)
    && (forall p :: p in pending ==> 0 <= pending[p] < next)
    && (forall p :: p in pending && pending[p] > 0 ==> pending[p] in sent)
  }

  ghost predicate SentBelow(sent: map<int, Batch>, next: int) {
    0 < next && forall r :: r in sent ==> 0 < r < next
  }

  // ----- the object -----

  class Resolver {
    var webPagesPending: map<Page, int>
    var webPagesTimer: Option<int>
    var nextRequestId: int
    ghost var sent: map<int, Batch>

    ghost predicate Valid()
      reads this
    {
      IdsFit(webPagesPending, sent, nextRequestId)
    }

    constructor ()
      ensures Valid() && webPagesPending == map[] && webPagesTimer == None && sent == map[]
    {
      webPagesPending, webPagesTimer, nextRequestId, sent := map[], None, 1, map[];
    }

    /** Sends a request; the id is fresh and positive. */
    method Send(batch: Batch) returns (requestId: int)
      requires 0 < nextRequestId
      modifies this`nextRequestId, this`sent
      ensures requestId == old(nextRequestId) && nextRequestId == requestId + 1
      ensures sent == old(sent)[requestId := batch]
    {
      requestId := nextRequestId;
      nextRequestId := nextRequestId + 1;
      sent := sent[requestId := batch];
    }

    /** One page of the first loop, which is due and has a message. */
    method Take(p: Page, item: Item, ids: seq<int>, byChannel: map<Channel, IndexAndMessageIds>,
                ghost order: seq<Channel>, ghost find: map<Page, Item>)
      returns (ids': seq<int>, byChannel': map<Channel, IndexAndMessageIds>, ghost order': seq<Channel>)
      requires p in webPagesPending && webPagesPending[p] == 0 && p in find && find[p] == item
      requires Indexed(byChannel, order) && Collected(webPagesPending, ids, byChannel, find)
      requires forall q :: q in webPagesPending && webPagesPending[q] < 0 ==> -webPagesPending[q] - 2 < |order|
      modifies this`webPagesPending
      ensures Indexed(byChannel', order') && Collected(webPagesPending, ids', byChannel', find) && order <= order'
      ensures p in webPagesPending && webPagesPending[p] < 0 && TempIdFits(webPagesPending[p], p, order', find)
      ensures webPagesPending == old(webPagesPending)[p := webPagesPending[p]]
    {
      hide Collected, Covers, Indexed;
      ids', byChannel', order' := ids, byChannel, order;
      var tag := -1;
      if item.channel.Some? {
        var c := item.channel.value;
        if c !in byChannel {
          byChannel' := byChannel[c := IndexAndMessageIds(|byChannel|, [item.id])];
          IndexedNew(byChannel, order, c, [item.id]);
          IndexedSize(byChannel, order);
          assert forall q :: q in webPagesPending ==> webPagesPending[q] != -|byChannel| - 2;
          assert Tagged(webPagesPending, -|byChannel| - 2) == {};
          CollectedNew(webPagesPending, ids, byChannel, order, find, p, c);
          order' := order + [c];
        } else {
          byChannel' := byChannel[c := IndexAndMessageIds(byChannel[c].index, byChannel[c].ids + [item.id])];
          IndexedSame(byChannel, order, c, byChannel[c].ids + [item.id]);
          IndexedAt(byChannel, order, c);
          CollectedMore(webPagesPending, ids, byChannel, order, find, p, c);
        }
        tag := -(byChannel'[c].index as int) - 2;
      } else {
        ids' := ids + [item.id];
        CollectedPlain(webPagesPending, ids, byChannel, order, find, p);
      }
      webPagesPending := webPagesPending[p := tag];
    }

    /** One page of the first loop. */
    method Visit(t: int, till: Page -> int, find: map<Page, Item>, p: Page,
                 ids: seq<int>, byChannel: map<Channel, IndexAndMessageIds>, m: int,
                 ghost before: map<Page, int>, ghost done: set<Page>, ghost order: seq<Channel>)
      returns (ids': seq<int>, byChannel': map<Channel, IndexAndMessageIds>, m': int, ghost order': seq<Channel>)
      requires p in before && p !in done
      requires Indexed(byChannel, order) && Collected(webPagesPending, ids, byChannel, find)
      requires Marked(before, till, find, t, done, webPagesPending, order) && Soonest(before, till, t, done, m)
      modifies this`webPagesPending
      ensures Indexed(byChannel', order') && Collected(webPagesPending, ids', byChannel', find)
      ensures Marked(before, till, find, t, done + {p}, webPagesPending, order')
      ensures Soonest(before, till, t, done + {p}, m')
    {
      hide Collected, Indexed, Marked, Soonest, TempIdFits;
      ids', byChannel', m', order' := ids, byChannel, m, order;
      MarkedValue(before, till, find, t, done, webPagesPending, order, p);
      if webPagesPending[p] <= 0 {
        if till(p) <= t {
          if p in find {
            ghost var was := webPagesPending;
            MarkedTags(before, till, find, t, done, webPagesPending, order);
            ids', byChannel', order' := Take(p, find[p], ids, byChannel, order, find);
            MarkedOneMore(before, till, find, t, done, was, order, webPagesPending, order', p);
          }
        } else if till(p) - t < m {
          m' := till(p) - t;
        }
      }
      SoonestStep(before, till, t, done, m, p, m');
    }

    /** The first loop, over the pages in whatever order the map gives them. */
    method Collect(t: int, till: Page -> int, find: map<Page, Item>)
      returns (ids: seq<int>, byChannel: map<Channel, IndexAndMessageIds>, m: int, ghost order: seq<Channel>)
      requires Valid()
      modifies this`webPagesPending
      ensures Indexed(byChannel, order) && Collected(webPagesPending, ids, byChannel, find)
      ensures Marked(old(webPagesPending), till, find, t, old(webPagesPending).Keys, webPagesPending, order)
      ensures Soonest(old(webPagesPending), till, t, old(webPagesPending).Keys, m)
    {
      ghost var before := webPagesPending;
      ids, byChannel, order, m := [], map[], [], INT_MAX;
      var rest := webPagesPending.Keys;
      hide Collected, Indexed, Marked, Soonest;
      NothingCollected(before, till, find, t);
      assert before.Keys - rest == {};
      while rest != {}
        invariant rest <= before.Keys
        invariant Indexed(byChannel, order) && Collected(webPagesPending, ids, byChannel, find)
        invariant Marked(before, till, find, t, before.Keys - rest, webPagesPending, order)
        invariant Soonest(before, till, t, before.Keys - rest, m)
        decreases rest
      {
        var p := Pick(rest);
        ids, byChannel, m, order := Visit(t, till, find, p, ids, byChannel, m, before, before.Keys - rest, order);
        DoneOneMore(before.Keys, rest, p);
        rest := rest - {p};
      }
      assert before.Keys - rest == before.Keys;
    }

    method SendOne(c: Channel, batch: IndexAndMessageIds, reqsByIndex: array<int>)
      requires 0 < nextRequestId && batch.index < reqsByIndex.Length
      modifies this`nextRequestId, this`sent, reqsByIndex
      ensures nextRequestId == old(nextRequestId) + 1
      ensures sent == old(sent)[old(nextRequestId) := Batch(Some(c), batch.ids)]
      ensures reqsByIndex[..] == old(reqsByIndex[..])[batch.index := old(nextRequestId)]
    {
      var r := Send(Batch(Some(c), batch.ids));
      reqsByIndex[batch.index] := r;
    }

    /** One request for the messages outside channels, if there are any, and one for each channel. */
    method SendBatches(ids: seq<int>, byChannel: map<Channel, IndexAndMessageIds>, ghost order: seq<Channel>)
      returns (requestId: int, reqsByIndex: array<int>)
      requires SentBelow(sent, nextRequestId) && Indexed(byChannel, order)
      modifies this`nextRequestId, this`sent
      ensures fresh(reqsByIndex) && old(nextRequestId) <= nextRequestId
      ensures Batched(old(nextRequestId), old(sent), sent, nextRequestId, ids, byChannel, order,
                      requestId, reqsByIndex[..])
    {
      hide Indexed, Batched, SentBelow;
      IndexedSize(byChannel, order);
      requestId := 0;
      ghost var first, before := nextRequestId, sent;
      SentIsPositive(sent, first);
      if ids != [] {
        requestId := Send(Batch(None, ids));
      }
      PlainSent(first, before, ids);
      reqsByIndex := new int[|byChannel|](_ => 0);
      ghost var mid := sent;
      ghost var next := nextRequestId;
      SendChannels(byChannel, reqsByIndex, order);
      BatchesSent(first, before, mid, next, sent, nextRequestId, ids, byChannel, order, requestId, reqsByIndex[..]);
    }

    method SendChannels(byChannel: map<Channel, IndexAndMessageIds>, reqsByIndex: array<int>, ghost order: seq<Channel>)
      requires SentBelow(sent, nextRequestId) && Indexed(byChannel, order) && reqsByIndex.Length == |order|
      modifies this`nextRequestId, this`sent, reqsByIndex
      ensures old(nextRequestId) <= nextRequestId && SentBelow(sent, nextRequestId)
      ensures ChannelsSent(old(nextRequestId), sent, reqsByIndex[..], byChannel, order)
      ensures Grown(old(sent), sent, reqsByIndex[..])
    {
      hide Indexed, SentSoFar, SentBelow, ChannelsSent, Grown;
      ghost var first, before, reqOf: map<Channel, int> := nextRequestId, sent, map[];
      var rest := byChannel.Keys;
      NothingSent(first, sent, reqsByIndex[..], byChannel);
      while rest != {}
        invariant rest <= byChannel.Keys && reqOf.Keys == byChannel.Keys - rest
        invariant SentSoFar(first, before, sent, nextRequestId, reqOf, reqsByIndex[..], byChannel)
        decreases rest
      {
        var c := Pick(rest);
        SentOneMore(first, before, sent, nextRequestId, reqOf, reqsByIndex[..], byChannel, order, c);
        DoneOneMore(byChannel.Keys, rest, c);
        rest, reqOf := rest - {c}, reqOf[c := nextRequestId];
        SendOne(c, byChannel[c], reqsByIndex);
      }
      AllSent(first, before, sent, nextRequestId, reqOf, reqsByIndex[..], byChannel, order);
    }

    /** The second loop over the pages replaces the temporary ids. */
    method Assign(requestId: int, reqsByIndex: array<int>)
      requires forall p :: p in webPagesPending ==> -webPagesPending[p] - 2 < reqsByIndex.Length
      modifies this`webPagesPending
      ensures webPagesPending == Assigned(old(webPagesPending), requestId, reqsByIndex[..])
    {
      ghost var mid := webPagesPending;
      var rest := webPagesPending.Keys;
      while rest != {}
        invariant rest <= mid.Keys && webPagesPending.Keys == mid.Keys
        invariant forall p :: p in rest ==> webPagesPending[p] == mid[p]
        invariant forall p :: p in mid && p !in rest
                              ==> webPagesPending[p] == FinalId(mid[p], requestId, reqsByIndex[..])
        decreases rest
      {
        var p := Pick(rest);
        rest := rest - {p};
        var tag := webPagesPending[p];
        if tag < 0 {
          webPagesPending := webPagesPending[p := if tag == -1 then requestId else reqsByIndex[-tag - 2]];
        }
      }
    }

    /** A pass over all pending pages, at time `t`. `find` is where each page is shown. */
    method ResolveWebPages(t: int, till: Page -> int, find: map<Page, Item>)
      requires Valid()
      modifies this
      ensures Valid() && old(nextRequestId) <= nextRequestId
      ensures Resolved(old(webPagesPending), webPagesPending, till, find, t, old(nextRequestId), sent)
      ensures forall r :: r in old(sent) ==> r in sent && sent[r] == old(sent)[r]
      ensures exists m :: Soonest(old(webPagesPending), till, t, old(webPagesPending).Keys, m)
                && webPagesTimer == if m < INT_MAX then Some(m * 1000) else old(webPagesTimer)
    {
      hide Indexed, Collected, Marked, Soonest, Batched, Resolved, Assigned, IdsFit, SentBelow;
      ghost var before, first, sentWas := webPagesPending, nextRequestId, sent;
      IdsFitSent(before, sent, first);
      var ids, byChannel, m;
      ghost var order;
      ids, byChannel, m, order := Collect(t, till, find);
      ghost var mid := webPagesPending;
      var requestId, reqsByIndex := SendBatches(ids, byChannel, order);
      PassDone(before, till, find, t, mid, ids, byChannel, order, first, sentWas, sent, nextRequestId,
               requestId, reqsByIndex[..]);
      if requestId != 0 || reqsByIndex.Length != 0 {
        Assign(requestId, reqsByIndex);
      }
      if m < INT_MAX {
        webPagesTimer := Some(m * 1000);
      }
    }

    /** A page asked for again starts over, even if a request for it is still running. */
    method RequestWebPageDelayed(page: Page, pendingTill: int, t: int, remaining: int)
      requires Valid()
      modifies this
      ensures Valid() && sent == old(sent)
      ensures pendingTill <= 0 ==> webPagesPending == old(webPagesPending) && webPagesTimer == old(webPagesTimer)
      ensures pendingTill > 0 ==>
                && webPagesPending == old(webPagesPending)[page := 0]
                && webPagesTimer.Some?
                && var left := (pendingTill - t) * 1000;
                   webPagesTimer == if old(webPagesTimer).None? || left <= remaining
                                    then Some(if left < 0 then 1 else left + 1) else old(webPagesTimer)
    {
      if pendingTill <= 0 {
        return;
      }
      webPagesPending := webPagesPending[page := 0];
      var left := (pendingTill - t) * 1000;
      if webPagesTimer.None? || left <= remaining {
        webPagesTimer := Some((if left < 0 then 0 else left) + 1);
      }
    }

    /** A result takes out exactly the pages that carry the id of its request. Those among them that still wait are
        marked as failed: their time becomes -1, and their change is told. */
    method GotWebPages(requestId: int, till: Page -> int) returns (failed: set<Page>)
      requires Valid() && requestId > 0
      modifies this`webPagesPending
      ensures Valid()
      ensures webPagesPending == old(webPagesPending) - Tagged(old(webPagesPending), requestId)
      ensures failed == set p | p in Tagged(old(webPagesPending), requestId) && till(p) > 0
    {
      ghost var before := webPagesPending;
      failed := {};
      var rest := webPagesPending.Keys;
      while rest != {}
        invariant rest <= before.Keys && Valid()
        invariant webPagesPending == before - (Tagged(before, requestId) - rest)
        invariant failed == set p | p in Tagged(before, requestId) - rest && till(p) > 0
        decreases rest
      {
        var p := Pick(rest);
        rest := rest - {p};
        if webPagesPending[p] == requestId {
          if till(p) > 0 {
            failed := failed + {p};
          }
          webPagesPending := webPagesPending - {p};
        }
      }
    }
  }

  /** What a pass means for one page: no temporary id survives, and the message of every page with a fresh id
      is in the batch that was sent under that id for the page's own channel. */
  lemma ResolvedPage(
    before: map<Page, int>, after: map<Page, int>, till: Page -> int, find: map<Page, Item>, t: int,
    first: int, sent: map<int, Batch>, p: Page)
    requires Resolved(before, after, till, find, t, first, sent) && 0 < first
    requires p in before && 0 <= before[p] < first
    ensures 0 <= after[p]
    ensures after[p] >= first <==> before[p] == 0 && till(p) <= t && p in find
    ensures after[p] >= first ==>
              after[p] in sent && find[p].id in sent[after[p]].ids && sent[after[p]].channel == find[p].channel
  {
    if after[p] >= first {
      assert Covers(sent[after[p]].ids, Tagged(after, after[p]), sent[after[p]].channel, find);
      assert p in Tagged(after, after[p]);
    }
  }

  /** Two pages a pass asked for share a request exactly when they are shown in the same place. */
  lemma OneBatchPerPlace(
    before: map<Page, int>, after: map<Page, int>, till: Page -> int, find: map<Page, Item>, t: int,
    first: int, sent: map<int, Batch>, p: Page, q: Page)
    requires Resolved(before, after, till, find, t, first, sent)
    requires p in before && before[p] < first <= after[p] && q in before && before[q] < first <= after[q]
    ensures p in find && q in find
    ensures after[p] == after[q] <==> find[p].channel == find[q].channel
  {
    assert Taken(before, till, find, t, p) && Taken(before, till, find, t, q);
  }

  /** A fresh request asks for something, and only for messages of pages that carry its id, one for each such page. */
  lemma BatchHoldsOnly(
    before: map<Page, int>, after: map<Page, int>, till: Page -> int, find: map<Page, Item>, t: int,
    first: int, sent: map<int, Batch>, r: int, i: nat)
    requires Resolved(before, after, till, find, t, first, sent) && r in sent && first <= r && i < |sent[r].ids|
    ensures exists p :: p in after && after[p] == r && p in find && find[p] == Item(sent[r].channel, sent[r].ids[i])
    ensures |sent[r].ids| == |set p | p in after && after[p] == r|
  {
    assert Covers(sent[r].ids, Tagged(after, r), sent[r].channel, find);
    var p :| p in Tagged(after, r) && p in find && find[p].id == sent[r].ids[i];
    assert Tagged(after, r) == set q | q in after && after[q] == r;
  }

  /** A page waits without having been asked for. */
  predicate WaitsOn(pending: map<Page, int>, till: Page -> int, t: int, p: Page) {
    p in pending && pending[p] <= 0 && t < till(p)
  }

  /** The timer of a pass: it is set exactly if some page waits less than the largest time, and then for the page that
      waits least. */
  lemma SoonestExactly(pending: map<Page, int>, till: Page -> int, t: int, m: int, p: Page)
    requires Soonest(pending, till, t, pending.Keys, m)
    ensures m < INT_MAX <==> exists q :: WaitsOn(pending, till, t, q) && till(q) - t < INT_MAX
    ensures m < INT_MAX ==> exists q :: WaitsOn(pending, till, t, q) && till(q) - t == m
    ensures WaitsOn(pending, till, t, p) ==> m <= till(p) - t
  {
    if m < INT_MAX {
      var q :| q in pending.Keys && q in pending && pending[q] <= 0 && t < till(q) && m == till(q) - t;
      assert WaitsOn(pending, till, t, q);
    }
  }

  function FinalId(tag: int, requestId: int, reqs: seq<int>): int
    requires -tag - 2 < |reqs|
  {
    if tag >= 0 then tag else if tag == -1 then requestId else reqs[-tag - 2]
  }

  function Assigned(mid: map<Page, int>, requestId: int, reqs: seq<int>): map<Page, int>
    requires forall p :: p in mid ==> -mid[p] - 2 < |reqs|
  {
    map p | p in mid :: FinalId(mid[p], requestId, reqs)
  }

  /** What a pass leaves behind: a page it does not take keeps its request id, so no temporary id survives;
      a page it takes is tagged with the one fresh request for its channel; and each fresh request carries
      exactly the messages of the pages tagged with it. */
  ghost predicate Resolved(
    before: map<Page, int>, after: map<Page, int>, till: Page -> int, find: map<Page, Item>, t: int,
    first: int, sent: map<int, Batch>)
  {
    && after.Keys == before.Keys
    && (forall p :: p in before && !Taken(before, till, find, t, p) ==> after[p] == before[p])
    && (forall p :: p in before && Taken(before, till, find, t, p) ==>
          first <= after[p] && after[p] in sent && sent[after[p]].channel == find[p].channel)
    && (forall r :: r in sent && first <= r ==>
          sent[r].ids != [] && Covers(sent[r].ids, Tagged(after, r), sent[r].channel, find))
    && (forall r, q :: r in sent && q in sent && first <= r < q ==> sent[r].channel != sent[q].channel)
  }

  /** Every temporary id points into the vector of requests, and there is a request for every one in use. */
  lemma PassFits(
    before: map<Page, int>, till: Page -> int, find: map<Page, Item>, t: int, mid: map<Page, int>,
    ids: seq<int>, byChannel: map<Channel, IndexAndMessageIds>, order: seq<Channel>,
    first: int, sent: map<int, Batch>, requestId: int, reqs: seq<int>)
    requires Marked(before, till, find, t, before.Keys, mid, order) && Collected(mid, ids, byChannel, find)
    requires ChannelsSent(first, sent, reqs, byChannel, order)
    requires ids == [] <==> requestId == 0
    ensures forall p :: p in mid ==> -mid[p] - 2 < |reqs|
    ensures ids == [] ==> Tagged(mid, -1) == {}
    ensures requestId == 0 && reqs == [] ==> Assigned(mid, requestId, reqs) == mid
  {
    assert ids == [] ==> |Tagged(mid, -1)| == 0;
    if ids == [] {
      assert Tagged(mid, -1) == {};
      assert forall p :: p in mid && mid[p] == -1 ==> p in Tagged(mid, -1);
    }
  }

  lemma RequestsDiffer(
    byChannel: map<Channel, IndexAndMessageIds>, order: seq<Channel>, first: int, sent: map<int, Batch>,
    ids: seq<int>, requestId: int, reqs: seq<int>)
    requires Indexed(byChannel, order) && ChannelsSent(first, sent, reqs, byChannel, order)
    requires if ids == [] then requestId == 0 < first else requestId in sent && sent[requestId] == Batch(None, ids)
    ensures forall i :: 0 <= i < |reqs| ==> first <= reqs[i] && reqs[i] != requestId
    ensures forall i, j :: 0 <= i < j < |reqs| ==> reqs[i] != reqs[j]
  {
    forall i, j | 0 <= i < j < |reqs|
      ensures reqs[i] != reqs[j]
    {
      assert sent[reqs[i]].channel == Some(order[i]) && sent[reqs[j]].channel == Some(order[j]);
      assert byChannel[order[i]].index == i && byChannel[order[j]].index == j;
    }
  }

  /** Each fresh request carries exactly the messages of the pages tagged with it. */
  lemma FreshCovers(
    mid: map<Page, int>, find: map<Page, Item>, ids: seq<int>, byChannel: map<Channel, IndexAndMessageIds>,
    order: seq<Channel>, first: int, sent: map<int, Batch>, requestId: int, reqs: seq<int>, r: int)
    requires Collected(mid, ids, byChannel, find)
    requires Indexed(byChannel, order) && ChannelsSent(first, sent, reqs, byChannel, order)
    requires if ids == [] then requestId == 0 < first
             else first <= requestId && requestId in sent && sent[requestId] == Batch(None, ids)
    requires forall p :: p in mid ==> -mid[p] - 2 < |reqs| && mid[p] < first
    requires r in sent && ((r == requestId && ids != []) || r in reqs)
    ensures sent[r].ids != [] && Covers(sent[r].ids, Tagged(Assigned(mid, requestId, reqs), r), sent[r].channel, find)
  {
    RequestsDiffer(byChannel, order, first, sent, ids, requestId, reqs);
    if r == requestId && ids != [] {
      hide Covers, Tagged, Assigned, Indexed, ChannelsSent;
      AssignedTags(mid, requestId, reqs, first, -1);
    } else {
      hide Covers, Tagged, Assigned, Collected;
      var i :| 0 <= i < |reqs| && reqs[i] == r;
      FreshChannelCovers(mid, find, ids, byChannel, order, first, sent, requestId, reqs, i);
    }
  }

  lemma FreshChannelCovers(
    mid: map<Page, int>, find: map<Page, Item>, ids: seq<int>, byChannel: map<Channel, IndexAndMessageIds>,
    order: seq<Channel>, first: int, sent: map<int, Batch>, requestId: int, reqs: seq<int>, i: nat)
    requires Collected(mid, ids, byChannel, find)
    requires Indexed(byChannel, order) && ChannelsSent(first, sent, reqs, byChannel, order)
    requires forall p :: p in mid ==> -mid[p] - 2 < |reqs| && mid[p] < first
    requires forall j :: 0 <= j < |reqs| ==> first <= reqs[j] && reqs[j] != requestId
    requires forall j, k :: 0 <= j < k < |reqs| ==> reqs[j] != reqs[k]
    requires i < |reqs|
    ensures var r := reqs[i];
            && r in sent && sent[r].ids != []
            && Covers(sent[r].ids, Tagged(Assigned(mid, requestId, reqs), r), sent[r].channel, find)
  {
    hide Covers, Tagged, Assigned;
    AssignedTags(mid, requestId, reqs, first, -(i as int) - 2);
    var c := order[i];
    assert c in byChannel && byChannel[c].index == i && sent[reqs[i]] == Batch(Some(c), byChannel[c].ids);
    assert ChannelCollected(mid, byChannel[c], c, find);
  }

  lemma FreshChannelsDiffer(
    byChannel: map<Channel, IndexAndMessageIds>, order: seq<Channel>, first: int, sent: map<int, Batch>,
    ids: seq<int>, requestId: int, reqs: seq<int>, r: int, q: int)
    requires Indexed(byChannel, order) && ChannelsSent(first, sent, reqs, byChannel, order)
    requires ids != [] ==> requestId in sent && sent[requestId] == Batch(None, ids)
    requires r in sent && ((r == requestId && ids != []) || r in reqs)
    requires q in sent && ((q == requestId && ids != []) || q in reqs)
    ensures sent[r].channel == sent[q].channel ==> r == q
  {
    if r in reqs && q in reqs {
      var i :| 0 <= i < |reqs| && reqs[i] == r;
      var j :| 0 <= j < |reqs| && reqs[j] == q;
      assert byChannel[order[i]].index == i && byChannel[order[j]].index == j;
    }
  }

  lemma PassResolves(
    before: map<Page, int>, till: Page -> int, find: map<Page, Item>, t: int, mid: map<Page, int>,
    ids: seq<int>, byChannel: map<Channel, IndexAndMessageIds>, order: seq<Channel>,
    first: int, sentBefore: map<int, Batch>, sent: map<int, Batch>, requestId: int, reqs: seq<int>)
    requires Marked(before, till, find, t, before.Keys, mid, order) && Collected(mid, ids, byChannel, find)
    requires Indexed(byChannel, order) && ChannelsSent(first, sent, reqs, byChannel, order)
    requires if ids == [] then requestId == 0 < first
             else first <= requestId && requestId in sent && sent[requestId] == Batch(None, ids)
    requires Grown(sentBefore, sent, if ids == [] then reqs else [requestId] + reqs)
    requires 0 < first && (forall p :: p in before ==> before[p] < first) && (forall r :: r in sentBefore ==> r < first)
    requires forall p :: p in mid ==> -mid[p] - 2 < |reqs|
    ensures Resolved(before, Assigned(mid, requestId, reqs), till, find, t, first, sent)
  {
    assert forall p :: p in mid ==> mid[p] < first;
    forall r | r in sent && first <= r
      ensures (r == requestId && ids != []) || r in reqs
    {
      assert r !in sentBefore;
      if ids != [] && r != requestId {
        assert r in [requestId] + reqs;
      }
    }
    forall r | r in sent && first <= r
      ensures sent[r].ids != [] && Covers(sent[r].ids, Tagged(Assigned(mid, requestId, reqs), r), sent[r].channel, find)
    {
      FreshCovers(mid, find, ids, byChannel, order, first, sent, requestId, reqs, r);
    }
    forall r, q | r in sent && q in sent && first <= r < q
      ensures sent[r].channel != sent[q].channel
    {
      FreshChannelsDiffer(byChannel, order, first, sent, ids, requestId, reqs, r, q);
    }
    PagesAssigned(before, till, find, t, mid, ids, byChannel, order, first, sent, requestId, reqs);
  }

  lemma PagesAssigned(
    before: map<Page, int>, till: Page -> int, find: map<Page, Item>, t: int, mid: map<Page, int>,
    ids: seq<int>, byChannel: map<Channel, IndexAndMessageIds>, order: seq<Channel>,
    first: int, sent: map<int, Batch>, requestId: int, reqs: seq<int>)
    requires Marked(before, till, find, t, before.Keys, mid, order) && Collected(mid, ids, byChannel, find)
    requires ChannelsSent(first, sent, reqs, byChannel, order)
    requires ids != [] ==> first <= requestId && requestId in sent && sent[requestId] == Batch(None, ids)
    requires forall p :: p in mid ==> -mid[p] - 2 < |reqs|
    ensures var after := Assigned(mid, requestId, reqs);
            && after.Keys == before.Keys
            && (forall p :: p in before && !Taken(before, till, find, t, p) ==> after[p] == before[p])
            && (forall p :: p in before && Taken(before, till, find, t, p) ==>
                  first <= after[p] && after[p] in sent && sent[after[p]].channel == find[p].channel)
  {
    forall p | p in before && Taken(before, till, find, t, p)
      ensures var r := FinalId(mid[p], requestId, reqs);
              first <= r && r in sent && sent[r].channel == find[p].channel
    {
      assert TempIdFits(mid[p], p, order, find);
      if mid[p] == -1 {
        assert p in Tagged(mid, -1);
        assert find[p].id in ids;
      }
    }
  }

  lemma GrownKeeps(before: map<int, Batch>, sent: map<int, Batch>, reqs: seq<int>)
    requires Grown(before, sent, reqs)
    ensures forall r :: r in before ==> r in sent && sent[r] == before[r]
  {
  }

  lemma KeepsValid(
    before: map<Page, int>, after: map<Page, int>, till: Page -> int, find: map<Page, Item>, t: int,
    first: int, sent: map<int, Batch>, next: int)
    requires Resolved(before, after, till, find, t, first, sent)
    requires 0 < first <= next && forall r :: r in sent ==> 0 < r < next
    requires forall p :: p in before ==> 0 <= before[p] < first && (before[p] > 0 ==> before[p] in sent)
    ensures forall p :: p in after ==> 0 <= after[p] < next && (after[p] > 0 ==> after[p] in sent)
  {
  }

  /** All that a pass has to show once its batches are sent. */
  lemma PassDone(
    before: map<Page, int>, till: Page -> int, find: map<Page, Item>, t: int, mid: map<Page, int>,
    ids: seq<int>, byChannel: map<Channel, IndexAndMessageIds>, order: seq<Channel>, first: int,
    sentBefore: map<int, Batch>, sent: map<int, Batch>, next: int, requestId: int, reqs: seq<int>)
    requires IdsFit(before, sentBefore, first)
    requires Marked(before, till, find, t, before.Keys, mid, order) && Collected(mid, ids, byChannel, find)
    requires Indexed(byChannel, order)
    requires Batched(first, sentBefore, sent, next, ids, byChannel, order, requestId, reqs)
    ensures forall p :: p in mid ==> -mid[p] - 2 < |reqs|
    ensures requestId == 0 && reqs == [] ==> Assigned(mid, requestId, reqs) == mid
    ensures Resolved(before, Assigned(mid, requestId, reqs), till, find, t, first, sent)
    ensures IdsFit(Assigned(mid, requestId, reqs), sent, next)
    ensures forall r :: r in sentBefore ==> r in sent && sent[r] == sentBefore[r]
  {
    hide Indexed, Collected, Marked, Resolved, Assigned, ChannelsSent, Grown;
    GrownKeeps(sentBefore, sent, if ids == [] then reqs else [requestId] + reqs);
    PassFits(before, till, find, t, mid, ids, byChannel, order, first, sent, requestId, reqs);
    PassResolves(before, till, find, t, mid, ids, byChannel, order, first, sentBefore, sent, requestId, reqs);
    KeepsValid(before, Assigned(mid, requestId, reqs), till, find, t, first, sent, next);
  }

  /** The tags of the pages, before and after the temporary ids are replaced. */
  lemma AssignedTags(mid: map<Page, int>, requestId: int, reqs: seq<int>, first: int, tag: int)
    requires forall p :: p in mid ==> -mid[p] - 2 < |reqs| && mid[p] < first
    requires forall i :: 0 <= i < |reqs| ==> first <= reqs[i] && reqs[i] != requestId
    requires forall i, j :: 0 <= i < j < |reqs| ==> reqs[i] != reqs[j]
    requires tag < 0 && -tag - 2 < |reqs| && (tag == -1 ==> first <= requestId)
    ensures Tagged(Assigned(mid, requestId, reqs), FinalId(tag, requestId, reqs)) == Tagged(mid, tag)
  {
    var after, r := Assigned(mid, requestId, reqs), FinalId(tag, requestId, reqs);
    forall p | p in mid
      ensures after[p] == r <==> mid[p] == tag
    {
    }
  }

  lemma IndexedSize(byChannel: map<Channel, IndexAndMessageIds>, order: seq<Channel>)
    requires Indexed(byChannel, order)
    ensures |order| == |byChannel|
  {
  }

  lemma IndexedAt(byChannel: map<Channel, IndexAndMessageIds>, order: seq<Channel>, c: Channel)
    requires Indexed(byChannel, order) && c in byChannel
    ensures byChannel[c].index < |order| == |byChannel| && order[byChannel[c].index] == c
  {
  }

  lemma IndicesDiffer(byChannel: map<Channel, IndexAndMessageIds>, order: seq<Channel>, c: Channel, d: Channel)
    requires Indexed(byChannel, order) && c in byChannel && d in byChannel && c != d
    ensures byChannel[c].index != byChannel[d].index
  {
    assert order[byChannel[d].index] == d && order[byChannel[c].index] == c;
  }

  /** The seconds to the next page that is waited for without being due, or `INT_MAX`. */
  ghost predicate Soonest(pending: map<Page, int>, till: Page -> int, t: int, done: set<Page>, m: int) {
    && m <= INT_MAX
    && (forall p :: p in done && p in pending && pending[p] <= 0 && t < till(p) ==> m <= till(p) - t)
    && (m < INT_MAX ==> exists p :: p in done && p in pending && pending[p] <= 0 && t < till(p) && m == till(p) - t)
  }

  lemma NothingCollected(pending: map<Page, int>, till: Page -> int, find: map<Page, Item>, t: int)
    requires forall p :: p in pending ==> 0 <= pending[p]
    ensures Indexed(map[], []) && Collected(pending, [], map[], find)
    ensures Marked(pending, till, find, t, {}, pending, []) && Soonest(pending, till, t, {}, INT_MAX)
  {
    assert Tagged(pending, -1) == {};
  }

  /** Each channel of `reqOf` was sent its batch under a fresh id, which stands at the index of the channel. */
  ghost predicate Sending(
    first: int, sent: map<int, Batch>, reqOf: map<Channel, int>, reqs: seq<int>,
    byChannel: map<Channel, IndexAndMessageIds>)
  {
    forall c :: c in reqOf ==>
      && c in byChannel && first <= reqOf[c] && reqOf[c] in sent
      && sent[reqOf[c]] == Batch(Some(c), byChannel[c].ids)
      && byChannel[c].index < |reqs| && reqs[byChannel[c].index] == reqOf[c]
  }

  lemma SendingOneMore(
    first: int, sent: map<int, Batch>, reqOf: map<Channel, int>, reqs: seq<int>,
    byChannel: map<Channel, IndexAndMessageIds>, order: seq<Channel>, c: Channel, r: int)
    requires Sending(first, sent, reqOf, reqs, byChannel) && Indexed(byChannel, order) && |reqs| == |order|
    requires c in byChannel && c !in reqOf && first <= r && r !in sent
    ensures Sending(first, sent[r := Batch(Some(c), byChannel[c].ids)], reqOf[c := r],
                    reqs[byChannel[c].index := r], byChannel)
  {
    IndexedAt(byChannel, order, c);
    forall d | d in reqOf
      ensures byChannel[d].index != byChannel[c].index
    {
      IndicesDiffer(byChannel, order, c, d);
    }
  }

  lemma GrownOneMore(
    before: map<int, Batch>, sent: map<int, Batch>, reqOf: map<Channel, int>, c: Channel, r: int, batch: Batch)
    requires GrownBy(before, sent, reqOf) && c !in reqOf && r !in sent
    ensures GrownBy(before, sent[r := batch], reqOf[c := r])
  {
    var more, reqOf' := sent[r := batch], reqOf[c := r];
    forall q | q in more && q !in before
      ensures exists d :: d in reqOf' && reqOf'[d] == q
    {
      if q == r {
        assert reqOf'[c] == q;
      } else {
        var d :| d in reqOf && reqOf[d] == q;
        assert reqOf'[d] == q;
      }
    }
  }

  lemma SendingDone(
    first: int, before: map<int, Batch>, sent: map<int, Batch>, reqOf: map<Channel, int>, reqs: seq<int>,
    byChannel: map<Channel, IndexAndMessageIds>, order: seq<Channel>)
    requires Sending(first, sent, reqOf, reqs, byChannel) && Indexed(byChannel, order) && |reqs| == |order|
    requires reqOf.Keys == byChannel.Keys && GrownBy(before, sent, reqOf)
    ensures ChannelsSent(first, sent, reqs, byChannel, order) && Grown(before, sent, reqs)
  {
    forall i | 0 <= i < |reqs|
      ensures order[i] in reqOf && reqs[i] == reqOf[order[i]]
    {
      assert order[i] in byChannel && byChannel[order[i]].index == i;
    }
    forall r | r in sent && r !in before
      ensures r in reqs
    {
      var c :| c in reqOf && reqOf[c] == r;
      assert reqs[byChannel[c].index] == r;
    }
  }

  /** The batches of some channels have been sent, everything before is kept, and ids stay below the next one. */
  ghost predicate SentSoFar(
    first: int, before: map<int, Batch>, sent: map<int, Batch>, next: int, reqOf: map<Channel, int>, reqs: seq<int>,
    byChannel: map<Channel, IndexAndMessageIds>)
  {
    && first <= next && SentBelow(sent, next)
    && Sending(first, sent, reqOf, reqs, byChannel) && GrownBy(before, sent, reqOf)
  }

  lemma NothingSent(first: int, sent: map<int, Batch>, reqs: seq<int>, byChannel: map<Channel, IndexAndMessageIds>)
    requires SentBelow(sent, first)
    ensures SentSoFar(first, sent, sent, first, map[], reqs, byChannel)
  {
  }

  lemma SentOneMore(
    first: int, before: map<int, Batch>, sent: map<int, Batch>, next: int, reqOf: map<Channel, int>, reqs: seq<int>,
    byChannel: map<Channel, IndexAndMessageIds>, order: seq<Channel>, c: Channel)
    requires SentSoFar(first, before, sent, next, reqOf, reqs, byChannel) && Indexed(byChannel, order)
    requires |reqs| == |order| && c in byChannel && c !in reqOf
    ensures 0 < next && byChannel[c].index < |reqs|
    ensures SentSoFar(first, before, sent[next := Batch(Some(c), byChannel[c].ids)], next + 1, reqOf[c := next],
                      reqs[byChannel[c].index := next], byChannel)
  {
    var batch := Batch(Some(c), byChannel[c].ids);
    IndexedAt(byChannel, order, c);
    assert next !in sent && SentBelow(sent[next := batch], next + 1);
    hide Sending, GrownBy, Indexed;
    SendingOneMore(first, sent, reqOf, reqs, byChannel, order, c, next);
    GrownOneMore(before, sent, reqOf, c, next, batch);
  }

  lemma AllSent(
    first: int, before: map<int, Batch>, sent: map<int, Batch>, next: int, reqOf: map<Channel, int>, reqs: seq<int>,
    byChannel: map<Channel, IndexAndMessageIds>, order: seq<Channel>)
    requires SentSoFar(first, before, sent, next, reqOf, reqs, byChannel) && Indexed(byChannel, order)
    requires |reqs| == |order| && reqOf.Keys == byChannel.Keys
    ensures first <= next && SentBelow(sent, next)
    ensures ChannelsSent(first, sent, reqs, byChannel, order) && Grown(before, sent, reqs)
  {
    hide Sending, GrownBy, Indexed, ChannelsSent, Grown, SentBelow;
    SendingDone(first, before, sent, reqOf, reqs, byChannel, order);
  }

  /** All batches have been sent: the one of the messages outside channels, if there are any, and one per channel. */
  ghost predicate Batched(
    first: int, before: map<int, Batch>, sent: map<int, Batch>, next: int, ids: seq<int>,
    byChannel: map<Channel, IndexAndMessageIds>, order: seq<Channel>, requestId: int, reqs: seq<int>)
  {
    && 0 < first <= next && SentBelow(sent, next)
    && (if ids == [] then requestId == 0
        else first <= requestId && requestId in sent && sent[requestId] == Batch(None, ids))
    && ChannelsSent(first, sent, reqs, byChannel, order)
    && Grown(before, sent, if ids == [] then reqs else [requestId] + reqs)
  }

  lemma SentIsPositive(sent: map<int, Batch>, next: int)
    requires SentBelow(sent, next)
    ensures 0 < next
  {
  }

  lemma IdsFitSent(pending: map<Page, int>, sent: map<int, Batch>, next: int)
    requires IdsFit(pending, sent, next)
    ensures SentBelow(sent, next)
  {
  }

  lemma PlainSent(first: int, before: map<int, Batch>, ids: seq<int>)
    requires SentBelow(before, first)
    ensures SentBelow(before[first := Batch(None, ids)], first + 1)
  {
  }

  lemma BatchesSent(
    first: int, before: map<int, Batch>, mid: map<int, Batch>, afterPlain: int, sent: map<int, Batch>, next: int,
    ids: seq<int>, byChannel: map<Channel, IndexAndMessageIds>, order: seq<Channel>, requestId: int, reqs: seq<int>)
    requires SentBelow(before, first) && SentBelow(sent, next) && first <= afterPlain <= next
    requires if ids == [] then requestId == 0 && mid == before
             else requestId == first && mid == before[first := Batch(None, ids)]
    requires ChannelsSent(afterPlain, sent, reqs, byChannel, order) && Grown(mid, sent, reqs)
    ensures Batched(first, before, sent, next, ids, byChannel, order, requestId, reqs)
  {
    if ids != [] {
      forall r | r in sent && r !in before ensures r in [requestId] + reqs {
        assert r in mid ==> r == first;
      }
    }
  }

  lemma SoonestStep(pending: map<Page, int>, till: Page -> int, t: int, done: set<Page>, m: int, p: Page, m': int)
    requires Soonest(pending, till, t, done, m) && p in pending
    requires m' == if pending[p] <= 0 && t < till(p) && till(p) - t < m then till(p) - t else m
    ensures Soonest(pending, till, t, done + {p}, m')
  {
    if m' < INT_MAX && m' == m {
      var q :| q in done && q in pending && pending[q] <= 0 && t < till(q) && m == till(q) - t;
      assert q in done + {p};
    } else if m' < INT_MAX {
      assert p in done + {p};
    }
  }

  lemma MarkedTags(
    before: map<Page, int>, till: Page -> int, find: map<Page, Item>, t: int, done: set<Page>,
    pending: map<Page, int>, order: seq<Channel>)
    requires Marked(before, till, find, t, done, pending, order)
    ensures forall q :: q in pending && pending[q] < 0 ==> -pending[q] - 2 < |order|
  {
  }

  lemma MarkedValue(
    before: map<Page, int>, till: Page -> int, find: map<Page, Item>, t: int, done: set<Page>,
    pending: map<Page, int>, order: seq<Channel>, p: Page)
    requires Marked(before, till, find, t, done, pending, order) && p in before && p !in done
    ensures p in pending && pending[p] == before[p] >= 0
    ensures !Taken(before, till, find, t, p) ==> Marked(before, till, find, t, done + {p}, pending, order)
  {
  }

  lemma MarkedOneMore(
    before: map<Page, int>, till: Page -> int, find: map<Page, Item>, t: int, done: set<Page>,
    was: map<Page, int>, orderWas: seq<Channel>, now: map<Page, int>, order: seq<Channel>, p: Page)
    requires Marked(before, till, find, t, done, was, orderWas) && orderWas <= order
    requires p !in done && Taken(before, till, find, t, p)
    requires p in now && now[p] < 0 && TempIdFits(now[p], p, order, find) && now == was[p := now[p]]
    ensures Marked(before, till, find, t, done + {p}, now, order)
  {
    assert now.Keys == was.Keys;
  }

  /** Everything sent before is kept, and what is new is among `reqs`. */
  ghost predicate Grown(before: map<int, Batch>, sent: map<int, Batch>, reqs: seq<int>) {
    && (forall r :: r in before ==> r in sent && sent[r] == before[r])
    && (forall r :: r in sent && r !in before ==> r in reqs)
  }

  ghost predicate GrownBy(before: map<int, Batch>, sent: map<int, Batch>, reqOf: map<Channel, int>) {
    && (forall r :: r in before ==> r in sent && sent[r] == before[r])
    && (forall r :: r in sent && r !in before ==> exists c :: c in reqOf && reqOf[c] == r)
  }

  /** Each channel was sent its batch, under a fresh id that stands at its index. */
  ghost predicate ChannelsSent(
    first: int, sent: map<int, Batch>, reqs: seq<int>, byChannel: map<Channel, IndexAndMessageIds>, order: seq<Channel>)
  {
    && |reqs| == |order|
    && forall i :: 0 <= i < |reqs| ==>
         && first <= reqs[i] && reqs[i] in sent && order[i] in byChannel
         && sent[reqs[i]] == Batch(Some(order[i]), byChannel[order[i]].ids)
  }
}
