/**
 * The Link document of the Mongoose schema in src/server/models/Link.ts:
 * four required strings, two numbers with default 0 and a creation
 * timestamp that defaults to the current time.
 */
module LinkModel {
  import opened Wrappers

  /** Document ids. The store hands them out in increasing order. */
  type Id = nat

  /** Dates are milliseconds since the epoch. */
  type Timestamp = int

  /** A stored Link document. */
  datatype Link = Link(
    id: Id,
    name: string,
    url: string,
    icon: string,
    color: string,
    clicks: int,
    order: int,
    createdAt: Timestamp)

  /**
   * A `Partial<ILink>` payload: the body of a create or update request.
   * `None` stands for a key that the payload does not carry.
   */
  datatype LinkFields = LinkFields(
    name: Option<string>,
    url: Option<string>,
    icon: Option<string>,
    color: Option<string>,
    clicks: Option<int>,
    order: Option<int>,
    createdAt: Option<Timestamp>)

  /** The empty payload `{}`. */
  const NoFields := LinkFields(None, None, None, None, None, None, None)

  /** The schema default of `clicks`. */
  const DefaultClicks: int := 0

  /** The schema default of `order`. */
  const DefaultOrder: int := 0

  /** The payload `{ order: k }` sent for each id by the batch reorder. */
  function OrderOnly(k: int): LinkFields {
    NoFields.(order := Some(k))
  }

  /** Mongoose's `required` check for a String path: present and not the empty string. */
  predicate RequiredString(v: Option<string>) {
    v.Some? && v.value != ""
  }

  /** The four `required: true` paths of the schema all pass validation. */
  predicate HasRequiredFields(f: LinkFields) {
    RequiredString(f.name) && RequiredString(f.url) && RequiredString(f.icon) && RequiredString(f.color)
  }

  /**
   * `new Link(data)` followed by validation on save: None when a required
   * path fails, otherwise the document with the schema defaults filled in.
   */
  function NewLink(f: LinkFields, id: Id, now: Timestamp): (r: Option<Link>)
    ensures r.Some? <==> HasRequiredFields(f)
    ensures r.Some? ==> r.value.id == id
    ensures r.Some? ==> Some(r.value.name) == f.name && Some(r.value.url) == f.url
    ensures r.Some? ==> Some(r.value.icon) == f.icon && Some(r.value.color) == f.color
    ensures r.Some? && f.clicks.None? ==> r.value.clicks == DefaultClicks
    ensures r.Some? && f.clicks.Some? ==> r.value.clicks == f.clicks.value
    ensures r.Some? && f.order.None? ==> r.value.order == DefaultOrder
    ensures r.Some? && f.order.Some? ==> r.value.order == f.order.value
    ensures r.Some? && f.createdAt.None? ==> r.value.createdAt == now
    ensures r.Some? && f.createdAt.Some? ==> r.value.createdAt == f.createdAt.value
  {
    if HasRequiredFields(f) then
      Some(Link(id, f.name.value, f.url.value, f.icon.value, f.color.value,
                f.clicks.GetOr(DefaultClicks), f.order.GetOr(DefaultOrder), f.createdAt.GetOr(now)))
    else
      None
  }

  /** The payload that carries every field of `l` except its id. */
  function FieldsOf(l: Link): LinkFields {
    LinkFields(Some(l.name), Some(l.url), Some(l.icon), Some(l.color),
               Some(l.clicks), Some(l.order), Some(l.createdAt))
  }

  /**
   * The update `findByIdAndUpdate(id, data)` applies to a document: every
   * field the payload carries replaces the stored one; validators do not run.
   */
  function Overlay(l: Link, f: LinkFields): (r: Link)
    ensures r.id == l.id
    ensures f.name.Some? ==> r.name == f.name.value
    ensures f.name.None? ==> r.name == l.name
    ensures f.url.Some? ==> r.url == f.url.value
    ensures f.url.None? ==> r.url == l.url
    ensures f.icon.Some? ==> r.icon == f.icon.value
    ensures f.icon.None? ==> r.icon == l.icon
    ensures f.color.Some? ==> r.color == f.color.value
    ensures f.color.None? ==> r.color == l.color
    ensures f.clicks.Some? ==> r.clicks == f.clicks.value
    ensures f.clicks.None? ==> r.clicks == l.clicks
    ensures f.order.Some? ==> r.order == f.order.value
    ensures f.order.None? ==> r.order == l.order
    ensures f.createdAt.Some? ==> r.createdAt == f.createdAt.value
    ensures f.createdAt.None? ==> r.createdAt == l.createdAt
  {
    Link(l.id, f.name.GetOr(l.name), f.url.GetOr(l.url), f.icon.GetOr(l.icon), f.color.GetOr(l.color),
         f.clicks.GetOr(l.clicks), f.order.GetOr(l.order), f.createdAt.GetOr(l.createdAt))
  }

  /** Two payloads sent one after the other, the later one winning per key. */
  function Merge(f: LinkFields, g: LinkFields): LinkFields {
    LinkFields(
      if g.name.Some? then g.name else f.name,
      if g.url.Some? then g.url else f.url,
      if g.icon.Some? then g.icon else f.icon,
      if g.color.Some? then g.color else f.color,
      if g.clicks.Some? then g.clicks else f.clicks,
      if g.order.Some? then g.order else f.order,
      if g.createdAt.Some? then g.createdAt else f.createdAt)
  }

  /** The empty update leaves a document as it is. */
  lemma OverlayNothing(l: Link)
    ensures Overlay(l, NoFields) == l
  {
  }

  /** Two updates in a row are one update with the merged payload. */
  lemma OverlayTwice(l: Link, f: LinkFields, g: LinkFields)
    ensures Overlay(Overlay(l, f), g) == Overlay(l, Merge(f, g))
  {
  }

  /** The values the schema supplies for paths a payload leaves out. */
  function Defaults(now: Timestamp): LinkFields {
    LinkFields(None, None, None, None, Some(DefaultClicks), Some(DefaultOrder), Some(now))
  }

  /** An update is the merge of the stored fields with the payload. */
  lemma OverlayFields(l: Link, f: LinkFields)
    ensures FieldsOf(Overlay(l, f)) == Merge(FieldsOf(l), f)
  {
  }

  /** A created document holds the schema defaults overridden by the payload. */
  lemma NewLinkFields(f: LinkFields, id: Id, now: Timestamp)
    requires HasRequiredFields(f)
    ensures NewLink(f, id, now).Some?
    ensures FieldsOf(NewLink(f, id, now).value) == Merge(Defaults(now), f)
  {
  }

  /**
   * Creating from one payload and then updating with a second gives the
   * defaults overridden by the first payload and then by the second, under
   * the id assigned at creation.
   */
  lemma {:induction false} CreateThenUpdate(f: LinkFields, g: LinkFields, id: Id, now: Timestamp)
    requires HasRequiredFields(f)
    ensures NewLink(f, id, now).Some?
    ensures Overlay(NewLink(f, id, now).value, g).id == id
    ensures FieldsOf(Overlay(NewLink(f, id, now).value, g)) == Merge(Merge(Defaults(now), f), g)
  {
    NewLinkFields(f, id, now);
    OverlayFields(NewLink(f, id, now).value, g);
  }

  /**
   * `save()` of a fetched document validates the required paths again, so
   * a document whose name, url, icon or color was set to "" by an update
   * cannot be saved.
   */
  predicate Savable(l: Link) {
    HasRequiredFields(FieldsOf(l))
  }

  /** Every document that `create` stores can be saved again. */
  lemma NewLinkSavable(f: LinkFields, id: Id, now: Timestamp)
    requires NewLink(f, id, now).Some?
    ensures Savable(NewLink(f, id, now).value)
  {
  }

  /** Recording a click: `link.clicks += 1`. */
  function Clicked(l: Link): (r: Link)
    ensures r.clicks == l.clicks + 1
    ensures r.(clicks := l.clicks) == l
    ensures Savable(r) <==> Savable(l)
  {
    l.(clicks := l.clicks + 1)
  }

  /** `$sum` of the `clicks` of a sequence of documents. */
  function SumClicks(s: seq<Link>): (r: int)
    ensures (forall i :: 0 <= i < |s| ==> s[i].clicks >= 0) ==> r >= 0
    ensures (forall i :: 0 <= i < |s| ==> s[i].clicks <= 0) ==> r <= 0
  {
    if s == [] then 0 else s[0].clicks + SumClicks(s[1..])
  }

  lemma {:induction false} SumClicksAppend(s: seq<Link>, t: seq<Link>)
    ensures SumClicks(s + t) == SumClicks(s) + SumClicks(t)
  {
    if s == [] {
      assert s + t == t;
    } else {
      assert (s + t)[1..] == s[1..] + t;
      SumClicksAppend(s[1..], t);
    }
  }

  /** Reordering documents does not change their total clicks. */
  lemma {:induction false} SumClicksPermutation(s: seq<Link>, t: seq<Link>)
    requires multiset(s) == multiset(t)
    ensures SumClicks(s) == SumClicks(t)
  {
    if s == [] {
      assert |t| == |multiset(t)| == 0;
    } else {
      var x := s[0];
      assert x in multiset(t);
      var k :| 0 <= k < |t| && t[k] == x;
      var rest := t[..k] + t[k+1..];
      assert t == t[..k] + ([x] + t[k+1..]);
      SumClicksAppend(t[..k], [x] + t[k+1..]);
      SumClicksAppend(t[..k], t[k+1..]);
      assert SumClicks([x] + t[k+1..]) == x.clicks + SumClicks(t[k+1..]);
      assert SumClicks(t) == x.clicks + SumClicks(rest);
      assert s == [x] + s[1..];
      assert multiset(rest) == multiset(t) - multiset{x};
      assert multiset(s[1..]) == multiset(s) - multiset{x};
      SumClicksPermutation(s[1..], rest);
    }
  }
}
