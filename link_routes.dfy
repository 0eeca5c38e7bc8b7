/**
 * The Express router of src/server/routes/links.ts. Each handler is a
 * method over the store that returns the status and JSON body it sends.
 * The handlers query the Link model directly; a query is modelled by the
 * LinkStore operation that has the same meaning.
 */
module LinkRoutes {
  import opened Wrappers
  import opened LinkModel
  import opened LinkApi

  const StatusOk: nat := 200
  const StatusCreated: nat := 201
  const StatusBadRequest: nat := 400
  const StatusNotFound: nat := 404

  /** The `{ message }` bodies the handlers can send. */
  datatype Message =
    | CreateFailed       // "failed to create link"
    | OrderUpdated       // "order updated"
    | OrderUpdateFailed  // "failed to update order"
    | LinkDeleted        // "link deleted"
    | LinkNotFound       // "link does not exist"
    | ClickFailed        // "failed to update click count"

  /** One `$push`ed element of the stats group. */
  datatype StatsEntry = StatsEntry(name: string, clicks: int, color: string, icon: string)

  /** The `{ totalClicks, links }` document sent by `GET /stats`. */
  datatype Stats = Stats(totalClicks: int, links: seq<StatsEntry>)

  datatype Body =
    | LinkList(links: seq<Link>)
    | OneLink(link: Link)
    | Notice(message: Message)
    | StatsReport(stats: Stats)

  datatype Reply = Reply(status: nat, body: Body)

  // ---------------------------------------------------------------------
  // The batch reorder of `PUT /order`

  /** The last position of `x` in `ids`: the write to it that lands last. */
  function LastIndex(ids: seq<Id>, x: Id): (k: nat)
    requires x in ids
    ensures k < |ids| && ids[k] == x
    ensures forall j :: k < j < |ids| ==> ids[j] != x
  {
    if ids[|ids| - 1] == x then |ids| - 1
    else LastIndex(ids[..|ids| - 1], x)
  }

  /**
   * The collection after `findByIdAndUpdate(linkIds[i], { order: i })` for
   * every i in turn: a listed id gets the index of its last occurrence, an
   * unlisted document is untouched, and an id with no document is skipped.
   */
  function Reordered(m: map<Id, Link>, ids: seq<Id>): (r: map<Id, Link>)
    ensures r.Keys == m.Keys
    ensures forall id :: id in m ==> r[id].(order := m[id].order) == m[id]
    ensures forall id :: id in m && id !in ids ==> r[id] == m[id]
    ensures forall id :: id in m && id in ids ==>
      0 <= r[id].order < |ids| && ids[r[id].order] == id
    ensures forall id, j :: id in m && id in ids && r[id].order < j < |ids| ==> ids[j] != id
  {
    map id | id in m :: if id in ids then m[id].(order := LastIndex(ids, id)) else m[id]
  }

  /** One more update of the batch. */
  lemma ReorderedStep(m: map<Id, Link>, ids: seq<Id>, x: Id)
    ensures x in m ==>
      Reordered(m, ids + [x]) == Reordered(m, ids)[x := Overlay(Reordered(m, ids)[x], OrderOnly(|ids|))]
    ensures x !in m ==> Reordered(m, ids + [x]) == Reordered(m, ids)
  {
    var before, after := Reordered(m, ids), Reordered(m, ids + [x]);
    forall id | id in m && id != x && id in ids
      ensures LastIndex(ids + [x], id) == LastIndex(ids, id)
    {
      LastIndexAppend(ids, x, id);
    }
    if x in m {
      assert LastIndex(ids + [x], x) == |ids|;
      assert after == before[x := Overlay(before[x], OrderOnly(|ids|))];
    } else {
      assert after == before;
    }
  }

  lemma LastIndexAppend(ids: seq<Id>, x: Id, y: Id)
    requires y in ids && y != x
    ensures LastIndex(ids + [x], y) == LastIndex(ids, y)
  {
    assert (ids + [x])[..|ids|] == ids;
  }

  /** With distinct ids, the document whose id is `ids[i]` gets `order == i`. */
  lemma ReorderedDistinct(m: map<Id, Link>, ids: seq<Id>, i: nat)
    requires forall p, q :: 0 <= p < q < |ids| ==> ids[p] != ids[q]
    requires i < |ids| && ids[i] in m
    ensures Reordered(m, ids)[ids[i]].order == i
  {
  }

  // ---------------------------------------------------------------------
  // The aggregation of `GET /stats`

  /**
   * The `$match` query: `createdAt` within `[startDate, endDate]`, inclusive,
   * when both bounds are given; every document otherwise.
   */
  function InWindow(l: Link, startDate: Option<Timestamp>, endDate: Option<Timestamp>): (b: bool)
    ensures startDate.None? || endDate.None? ==> b
    ensures startDate.Some? && endDate.Some? && endDate.value < startDate.value ==> !b
    ensures b && startDate.Some? && endDate.Some? ==> startDate.value <= l.createdAt && l.createdAt <= endDate.value
    ensures startDate.Some? && endDate.Some? && startDate.value <= l.createdAt <= endDate.value ==> b
  {
    if startDate.Some? && endDate.Some? then startDate.value <= l.createdAt <= endDate.value
    else true
  }

  /** The `$match` stage over the documents in scan order. */
  function MatchStage(docs: seq<Link>, startDate: Option<Timestamp>, endDate: Option<Timestamp>): (r: seq<Link>)
    ensures forall l :: l in r <==> l in docs && InWindow(l, startDate, endDate)
    ensures forall l :: multiset(r)[l] == if InWindow(l, startDate, endDate) then multiset(docs)[l] else 0
    ensures |r| <= |docs|
  {
    if docs == [] then []
    else
      assert docs == [docs[0]] + docs[1..];
      var rest := MatchStage(docs[1..], startDate, endDate);
      if InWindow(docs[0], startDate, endDate) then [docs[0]] + rest else rest
  }

  /** The element `$push`ed for one document. */
  function ToStatsEntry(l: Link): StatsEntry {
    StatsEntry(l.name, l.clicks, l.color, l.icon)
  }

  /** The `$push` accumulator: one entry per matched document, in order. */
  function PushEntries(s: seq<Link>): (r: seq<StatsEntry>)
    ensures |r| == |s|
    ensures forall i :: 0 <= i < |s| ==> r[i] == ToStatsEntry(s[i])
  {
    if s == [] then [] else [ToStatsEntry(s[0])] + PushEntries(s[1..])
  }

  /** The `$group` stage with `_id: null`: no group at all when nothing matched. */
  function GroupStage(matched: seq<Link>): (g: seq<Stats>)
    ensures |g| <= 1
    ensures g == [] <==> matched == []
    ensures g != [] ==> g[0].totalClicks == SumClicks(matched) == SumEntryClicks(g[0].links)
    ensures g != [] ==> |g[0].links| == |matched|
    ensures g != [] ==> forall i :: 0 <= i < |matched| ==> g[0].links[i] == ToStatsEntry(matched[i])
  {
    if matched == [] then []
    else
      PushEntriesSum(matched);
      [Stats(SumClicks(matched), PushEntries(matched))]
  }

  /** `stats[0] || { totalClicks: 0, links: [] }`. */
  function StatsOf(docs: seq<Link>, startDate: Option<Timestamp>, endDate: Option<Timestamp>): (r: Stats)
    ensures r.totalClicks == SumClicks(MatchStage(docs, startDate, endDate))
    ensures |r.links| == |MatchStage(docs, startDate, endDate)|
    ensures forall i :: 0 <= i < |r.links| ==> r.links[i] == ToStatsEntry(MatchStage(docs, startDate, endDate)[i])
  {
    var groups := GroupStage(MatchStage(docs, startDate, endDate));
    if groups == [] then Stats(0, []) else groups[0]
  }

  function SumEntryClicks(s: seq<StatsEntry>): int {
    if s == [] then 0 else s[0].clicks + SumEntryClicks(s[1..])
  }

  lemma {:induction false} PushEntriesSum(s: seq<Link>)
    ensures SumEntryClicks(PushEntries(s)) == SumClicks(s)
  {
    if s != [] {
      assert PushEntries(s)[1..] == PushEntries(s[1..]);
      PushEntriesSum(s[1..]);
    }
  }

  /** `totalClicks` is the sum of the `clicks` the report lists. */
  lemma StatsTotalIsSumOfEntries(docs: seq<Link>, startDate: Option<Timestamp>, endDate: Option<Timestamp>)
    ensures StatsOf(docs, startDate, endDate).totalClicks == SumEntryClicks(StatsOf(docs, startDate, endDate).links)
  {
    var matched := MatchStage(docs, startDate, endDate);
    PushEntriesSum(matched);
    assert StatsOf(docs, startDate, endDate).links == PushEntries(matched);
  }

  /**
   * Over a scan of the store, the matched documents are the stored
   * documents inside the window, each exactly once, and the report lists
   * an entry exactly for those.
   */
  lemma MatchedStoreDocuments(docs: seq<Link>, links: map<Id, Link>, startDate: Option<Timestamp>, endDate: Option<Timestamp>)
    requires ListsExactly(docs, links)
    ensures forall l :: l in MatchStage(docs, startDate, endDate) ==>
      l.id in links && links[l.id] == l && InWindow(l, startDate, endDate)
    ensures forall id :: id in links ==>
      multiset(MatchStage(docs, startDate, endDate))[links[id]] == if InWindow(links[id], startDate, endDate) then 1 else 0
    ensures forall e :: e in StatsOf(docs, startDate, endDate).links <==>
      exists l :: l in links.Values && InWindow(l, startDate, endDate) && e == ToStatsEntry(l)
  {
    var matched := MatchStage(docs, startDate, endDate);
    var entries := StatsOf(docs, startDate, endDate).links;
    forall e | e in entries
      ensures exists l :: l in links.Values && InWindow(l, startDate, endDate) && e == ToStatsEntry(l)
    {
      var i :| 0 <= i < |entries| && entries[i] == e;
      assert matched[i] in matched;
      assert links[matched[i].id] == matched[i];
    }
    forall l | l in links.Values && InWindow(l, startDate, endDate)
      ensures ToStatsEntry(l) in entries
    {
      var id :| id in links && links[id] == l;
      assert multiset(docs)[l] == 1;
      assert l in matched;
      var i :| 0 <= i < |matched| && matched[i] == l;
      assert entries[i] == ToStatsEntry(l);
    }
  }

  /** The report is `{ totalClicks: 0, links: [] }` exactly when nothing matched. */
  lemma StatsEmpty(docs: seq<Link>, startDate: Option<Timestamp>, endDate: Option<Timestamp>)
    ensures StatsOf(docs, startDate, endDate) == Stats(0, []) <==> MatchStage(docs, startDate, endDate) == []
  {
  }

  /** Without both bounds every document is matched. */
  lemma {:induction false} UnboundedMatchesAll(docs: seq<Link>, startDate: Option<Timestamp>, endDate: Option<Timestamp>)
    requires startDate.None? || endDate.None?
    ensures MatchStage(docs, startDate, endDate) == docs
  {
    if docs != [] {
      UnboundedMatchesAll(docs[1..], startDate, endDate);
      assert docs == [docs[0]] + docs[1..];
    }
  }

  // ---------------------------------------------------------------------
  // The handlers

  /** `GET /`: every link, ascending by `order`. */
  method ListLinks(store: LinkStore) returns (reply: Reply)
    requires store.Valid()
    ensures reply.status == StatusOk && reply.body.LinkList?
    ensures OrderSorted(reply.body.links) && ListsExactly(reply.body.links, store.links)
  {
    var all := store.GetAll();
    reply := Reply(StatusOk, LinkList(all));
  }

  /** `POST /`: 201 with the saved link, 400 when validation fails. */
  method CreateLink(store: LinkStore, body: LinkFields, now: Timestamp) returns (reply: Reply)
    requires store.Valid()
    modifies store
    ensures store.Valid() && store.nextId == old(store.nextId) + 1
    ensures HasRequiredFields(body) ==>
      && reply.status == StatusCreated && reply.body.OneLink?
      && reply.body.link.id == old(store.nextId) && reply.body.link.id !in old(store.links)
      && Some(reply.body.link) == NewLink(body, reply.body.link.id, now)
      && store.links == old(store.links)[reply.body.link.id := reply.body.link]
    ensures !HasRequiredFields(body) ==>
      reply == Reply(StatusBadRequest, Notice(CreateFailed)) && store.links == old(store.links)
  {
    var r := store.Create(body, now);
    if r.Success? {
      reply := Reply(StatusCreated, OneLink(r.value));
    } else {
      reply := Reply(StatusBadRequest, Notice(CreateFailed));
    }
  }

  /**
   * `PUT /order`: sets `order` of the link `linkIds[i]` to i, one update at
   * a time. A body without a `linkIds` array makes `linkIds.map` throw: 400.
   */
  method ReorderLinks(store: LinkStore, linkIds: Option<seq<Id>>) returns (reply: Reply)
    requires store.Valid()
    modifies store
    ensures store.Valid() && store.nextId == old(store.nextId)
    ensures linkIds.None? ==>
      reply == Reply(StatusBadRequest, Notice(OrderUpdateFailed)) && store.links == old(store.links)
    ensures linkIds.Some? ==>
      reply == Reply(StatusOk, Notice(OrderUpdated)) && store.links == Reordered(old(store.links), linkIds.value)
  {
    if linkIds.None? {
      return Reply(StatusBadRequest, Notice(OrderUpdateFailed));
    }
    var ids := linkIds.value;
    assert Reordered(store.links, ids[..0]) == store.links;
    var i := 0;
    while i < |ids|
      invariant 0 <= i <= |ids|
      invariant store.Valid() && store.nextId == old(store.nextId)
      invariant store.links == Reordered(old(store.links), ids[..i])
    {
      ReorderedStep(old(store.links), ids[..i], ids[i]);
      var ignored := store.Update(ids[i], OrderOnly(i));
      assert ids[..i + 1] == ids[..i] + [ids[i]];
      i := i + 1;
    }
    assert ids[..|ids|] == ids;
    reply := Reply(StatusOk, Notice(OrderUpdated));
  }

  /** `DELETE /:id`: reports success whether or not a link had the id. */
  method DeleteLink(store: LinkStore, id: Id) returns (reply: Reply)
    requires store.Valid()
    modifies store
    ensures store.Valid() && store.nextId == old(store.nextId)
    ensures reply == Reply(StatusOk, Notice(LinkDeleted))
    ensures store.links == old(store.links) - {id}
  {
    var ignored := store.Delete(id);
    reply := Reply(StatusOk, Notice(LinkDeleted));
  }

  /**
   * `POST /:id/clicks`: 404 for an unknown id, 400 when the document fails
   * validation on save, otherwise the link with one more click.
   */
  method RecordLinkClick(store: LinkStore, id: Id) returns (reply: Reply)
    requires store.Valid()
    modifies store
    ensures store.Valid() && store.nextId == old(store.nextId)
    ensures id !in old(store.links) ==>
      reply == Reply(StatusNotFound, Notice(LinkNotFound)) && store.links == old(store.links)
    ensures id in old(store.links) && !Savable(old(store.links)[id]) ==>
      reply == Reply(StatusBadRequest, Notice(ClickFailed)) && store.links == old(store.links)
    ensures id in old(store.links) && Savable(old(store.links)[id]) ==>
      && reply == Reply(StatusOk, OneLink(Clicked(old(store.links)[id])))
      && store.links == old(store.links)[id := reply.body.link]
  {
    var r := store.RecordClick(id);
    if r.Failure? {
      if r.error == NotFound {
        return Reply(StatusNotFound, Notice(LinkNotFound));
      }
      return Reply(StatusBadRequest, Notice(ClickFailed));
    }
    reply := Reply(StatusOk, OneLink(r.value));
  }

  /** `GET /stats`: the click report over the links matched by the window. */
  method GetStats(store: LinkStore, startDate: Option<Timestamp>, endDate: Option<Timestamp>) returns (reply: Reply)
    requires store.Valid()
    ensures reply.status == StatusOk && reply.body.StatsReport?
    ensures reply.body.stats == StatsOf(store.Documents(), startDate, endDate)
    ensures reply.body.stats.totalClicks == SumClicks(MatchStage(store.Documents(), startDate, endDate))
    ensures reply.body.stats.totalClicks == SumEntryClicks(reply.body.stats.links)
    ensures forall l :: l in MatchStage(store.Documents(), startDate, endDate) ==>
      l.id in store.links && store.links[l.id] == l
    ensures forall id :: id in store.links ==>
      multiset(MatchStage(store.Documents(), startDate, endDate))[store.links[id]]
        == if InWindow(store.links[id], startDate, endDate) then 1 else 0
    ensures forall e :: e in reply.body.stats.links <==>
      exists l :: l in store.links.Values && InWindow(l, startDate, endDate) && e == ToStatsEntry(l)
  {
    var docs := store.Documents();
    var stats := StatsOf(docs, startDate, endDate);
    StatsTotalIsSumOfEntries(docs, startDate, endDate);
    MatchedStoreDocuments(docs, store.links, startDate, endDate);
    reply := Reply(StatusOk, StatsReport(stats));
  }

  /**
   * A fresh collection: create GitHub, record three clicks, ask for the
   * unwindowed stats.
   */
  method GitHubScenario(now: Timestamp) returns (created: Link, stats: Stats)
    ensures created.clicks == 0 && created.order == 0 && created.createdAt == now
    ensures stats == Stats(3, [StatsEntry("GitHub", 3, "#333", "gh")])
  {
    var store := new LinkStore();
    var body := NoFields.(name := Some("GitHub"), url := Some("https://github.com/alice"),
                          icon := Some("gh"), color := Some("#333"));
    var reply := CreateLink(store, body, now);
    created := reply.body.link;
    var id := created.id;
    reply := RecordLinkClick(store, id);
    reply := RecordLinkClick(store, id);
    reply := RecordLinkClick(store, id);
    assert store.links == map[id := created.(clicks := 3)];
    assert id == 0 && store.nextId == 1;
    assert Scan(store.links, 0) == [];
    assert store.Documents() == [created.(clicks := 3)];
    reply := GetStats(store, None, None);
    stats := reply.body.stats;
    UnboundedMatchesAll(store.Documents(), None, None);
  }
}
