/**
 * The link service of src/server/services/api.ts over the MongoDB `links`
 * collection. The collection is the map `links` of class LinkStore; ids are
 * handed out by a counter, so id order is insertion order, the order in
 * which a collection scan meets the documents.
 */
module LinkApi {
  import opened Wrappers
  import opened LinkModel

  /** Why a service call failed. */
  datatype StoreError =
    | NotFound     // no document has the id
    | Invalid      // validation of the document failed on save

  /** Non-decreasing `order`: the result of `sort({ order: 1 })`. */
  predicate OrderSorted(s: seq<Link>) {
    forall i, j :: 0 <= i < j < |s| ==> s[i].order <= s[j].order
  }

  /** `r` lists every document of `links` exactly once and nothing else. */
  predicate ListsExactly(r: seq<Link>, links: map<Id, Link>) {
    && (forall l :: l in r ==> l.id in links && links[l.id] == l)
    && (forall id :: id in links ==> multiset(r)[links[id]] == 1)
  }

  /** Each document is stored under its own id. */
  predicate IdsMatch(links: map<Id, Link>) {
    forall id :: id in links ==> links[id].id == id
  }

  /** The documents with id below `n`, in id order: a collection scan. */
  function Scan(links: map<Id, Link>, n: nat): (r: seq<Link>)
    requires IdsMatch(links)
    ensures forall i :: 0 <= i < |r| ==> r[i].id < n && r[i].id in links && links[r[i].id] == r[i]
    ensures forall i, j :: 0 <= i < j < |r| ==> r[i].id < r[j].id
    ensures forall id :: id in links && id < n ==> links[id] in r
  {
    if n == 0 then []
    else Scan(links, n - 1) + (if n - 1 in links then [links[n - 1]] else [])
  }

  /** Documents with strictly increasing ids occur once each. */
  lemma {:induction false} IncreasingIdsOnce(s: seq<Link>)
    requires forall i, j :: 0 <= i < j < |s| ==> s[i].id < s[j].id
    ensures forall l :: l in s ==> multiset(s)[l] == 1
  {
    if s != [] {
      var rest := s[1..];
      assert s == [s[0]] + rest;
      IncreasingIdsOnce(rest);
      assert s[0] !in rest;
    }
  }

  /** A scan lists every stored document below `n` exactly once. */
  lemma ScanLists(links: map<Id, Link>, n: nat)
    requires IdsMatch(links)
    ensures forall id :: id in links && id < n ==> multiset(Scan(links, n))[links[id]] == 1
  {
    IncreasingIdsOnce(Scan(links, n));
  }

  /** Inserts `x` into an `order`-sorted sequence, ahead of the first document not below it. */
  function InsertByOrder(x: Link, s: seq<Link>): (r: seq<Link>)
    requires OrderSorted(s)
    ensures OrderSorted(r)
    ensures multiset(r) == multiset(s) + multiset{x}
  {
    if s == [] || x.order <= s[0].order then
      [x] + s
    else
      var rest := InsertByOrder(x, s[1..]);
      assert s == [s[0]] + s[1..];
      assert forall j :: 0 <= j < |rest| ==> rest[j] in multiset(s[1..]) + multiset{x};
      [s[0]] + rest
  }

  /** `sort({ order: 1 })` applied to a scan: a stable insertion sort. */
  function SortByOrder(s: seq<Link>): (r: seq<Link>)
    ensures OrderSorted(r)
    ensures multiset(r) == multiset(s)
  {
    if s == [] then []
    else
      assert s == [s[0]] + s[1..];
      InsertByOrder(s[0], SortByOrder(s[1..]))
  }

  /** The links collection and the id generator. */
  class LinkStore {
    var links: map<Id, Link>
    var nextId: Id

    ghost predicate Valid()
      reads this
    {
      forall id :: id in links ==> links[id].id == id && id < nextId
    }

    /** The documents in the order a collection scan visits them. */
    function Documents(): (r: seq<Link>)
      reads this
      requires Valid()
      ensures ListsExactly(r, links)
    {
      ScanLists(links, nextId);
      Scan(links, nextId)
    }

    constructor ()
      ensures Valid() && links == map[] && nextId == 0
    {
      links := map[];
      nextId := 0;
    }

    /** `getAll`: every stored link, in non-decreasing `order`. */
    method GetAll() returns (r: seq<Link>)
      requires Valid()
      ensures OrderSorted(r)
      ensures ListsExactly(r, links)
    {
      var docs := Documents();
      r := SortByOrder(docs);
      assert forall l :: l in r <==> l in docs by {
        assert forall l :: l in r <==> l in multiset(r);
        assert forall l :: l in docs <==> l in multiset(docs);
      }
    }

    /**
     * `create`: builds a document with a fresh id and saves it; a document
     * failing validation is not saved. The id is drawn either way.
     */
    method Create(data: LinkFields, now: Timestamp) returns (r: Result<Link, StoreError>)
      requires Valid()
      modifies this
      ensures Valid() && nextId == old(nextId) + 1
      ensures HasRequiredFields(data) ==>
        && r.Success? && r.value.id == old(nextId) && r.value.id !in old(links)
        && Some(r.value) == NewLink(data, r.value.id, now)
        && links == old(links)[r.value.id := r.value]
      ensures !HasRequiredFields(data) ==> r == Failure(Invalid) && links == old(links)
    {
      var id := nextId;
      nextId := nextId + 1;
      var doc := NewLink(data, id, now);
      if doc.Some? {
        links := links[id := doc.value];
        r := Success(doc.value);
      } else {
        r := Failure(Invalid);
      }
    }

    /** `update`: overlays the payload on the document with this id and returns the new document. */
    method Update(id: Id, data: LinkFields) returns (r: Result<Link, StoreError>)
      requires Valid()
      modifies this
      ensures Valid() && nextId == old(nextId)
      ensures id in old(links) ==>
        r == Success(Overlay(old(links)[id], data)) && links == old(links)[id := r.value]
      ensures id !in old(links) ==> r == Failure(NotFound) && links == old(links)
    {
      if id in links {
        var updated := Overlay(links[id], data);
        links := links[id := updated];
        r := Success(updated);
      } else {
        r := Failure(NotFound);
      }
    }

    /** `delete`: removes the document with this id; NotFound when there is none. */
    method Delete(id: Id) returns (r: Result<(), StoreError>)
      requires Valid()
      modifies this
      ensures Valid() && nextId == old(nextId)
      ensures links == old(links) - {id}
      ensures r.Success? <==> id in old(links)
      ensures r.Failure? ==> r.error == NotFound
    {
      if id in links {
        links := links - {id};
        r := Success(());
      } else {
        r := Failure(NotFound);
      }
    }

    /**
     * `recordClick`: fetches the document, adds one to `clicks` and saves
     * it back; NotFound when there is no document with this id, Invalid
     * when the save fails validation and nothing is written.
     */
    method RecordClick(id: Id) returns (r: Result<Link, StoreError>)
      requires Valid()
      modifies this
      ensures Valid() && nextId == old(nextId)
      ensures id in old(links) && Savable(old(links)[id]) ==>
        r == Success(Clicked(old(links)[id])) && links == old(links)[id := r.value]
      ensures id in old(links) && !Savable(old(links)[id]) ==>
        r == Failure(Invalid) && links == old(links)
      ensures id !in old(links) ==> r == Failure(NotFound) && links == old(links)
    {
      if id !in links {
        return Failure(NotFound);
      }
      var link := links[id];
      link := Clicked(link);
      if !Savable(link) {
        return Failure(Invalid);
      }
      links := links[id := link];
      r := Success(link);
    }
  }

  /** A second delete of the same id fails, whatever the first one did. */
  method DeleteTwice(store: LinkStore, id: Id) returns (first: Result<(), StoreError>, second: Result<(), StoreError>)
    requires store.Valid()
    modifies store
    ensures store.Valid() && store.links == old(store.links) - {id}
    ensures first.Success? <==> id in old(store.links)
    ensures second == Failure(NotFound)
  {
    first := store.Delete(id);
    second := store.Delete(id);
  }
}
