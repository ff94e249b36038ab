/** The part of the Chroma vector store the portfolio relies on, as an abstract store: a
    named collection of `(id, document, metadata)` entries with count, get, delete, add and
    a batched nearest-neighbour query, and a client that hands out collections by name.
    Embeddings and the similarity ranking are not modelled: a collection is given a ranking
    function, and the query keeps the first candidates of that ranking that are stored. */
module Chroma {
  import opened Outcomes
  import opened JsonValues

  /** The metadata the portfolio attaches to a document: `{"links": ...}`. */
  datatype Metadata = Metadata(links: string)

  type Id = nat

  datatype Entry = Entry(id: Id, document: string, metadata: Metadata)

  /** Nearest-first candidates for a query text among the given entries. */
  type Ranking = (string, seq<Entry>) -> seq<Entry>

  /** How the store reads a `query_texts` argument that is not a non-empty list of strings:
      `Some(texts)` if it accepts it as those texts, `None` if it refuses it. */
  type Coercion = Json -> Option<seq<string>>

  /** The reply of `query`; only its `metadatas` field is used, one group per query text. */
  datatype QueryResult = QueryResult(metadatas: Option<seq<seq<Metadata>>>)

  function IdsOf(entries: seq<Entry>): (ids: seq<Id>)
    ensures |ids| == |entries|
    ensures forall i :: 0 <= i < |entries| ==> ids[i] == entries[i].id
  {
    seq(|entries|, i requires 0 <= i < |entries| => entries[i].id)
  }

  predicate DistinctIds(entries: seq<Entry>) {
    forall i, j :: 0 <= i < j < |entries| ==> entries[i].id != entries[j].id
  }

  /** The entries left after deleting the given ids. */
  function Without(entries: seq<Entry>, ids: seq<Id>): (r: seq<Entry>)
    ensures forall e :: e in r <==> e in entries && e.id !in ids
    ensures |r| <= |entries|
  {
    if entries == [] then []
    else if entries[0].id in ids then Without(entries[1..], ids)
    else [entries[0]] + Without(entries[1..], ids)
  }

  /** Deleting every id the collection reports leaves it empty. */
  lemma DeleteAllIds(entries: seq<Entry>)
    ensures Without(entries, IdsOf(entries)) == []
  {
    WithoutCovered(entries, IdsOf(entries));
  }

  lemma {:induction false} WithoutCovered(entries: seq<Entry>, ids: seq<Id>)
    requires forall i :: 0 <= i < |entries| ==> entries[i].id in ids
    ensures Without(entries, ids) == []
  {
    if entries != [] {
      WithoutCovered(entries[1..], ids);
    }
  }

  /** The strings of a JSON list, if every item is a string. */
  function TextsOf(items: seq<Json>): (r: Option<seq<string>>)
    ensures r.Some? <==> forall i :: 0 <= i < |items| ==> items[i].JString?
    ensures r.Some? ==> |r.value| == |items|
    ensures r.Some? ==> forall i :: 0 <= i < |items| ==> items[i] == JString(r.value[i])
  {
    if items == [] then Some([])
    else if !items[0].JString? then None
    else
      match TextsOf(items[1..])
      case None => None
      case Some(rest) => Some([items[0].s] + rest)
  }

  lemma TextsOfStrings(xs: seq<string>)
    ensures TextsOf(Strings(xs)) == Some(xs)
  {
    var r := TextsOf(Strings(xs));
    assert r.Some?;
    assert forall i :: 0 <= i < |xs| ==> r.value[i] == xs[i] by {
      forall i | 0 <= i < |xs| ensures r.value[i] == xs[i] {
        assert Strings(xs)[i] == JString(r.value[i]);
      }
    }
    assert r.value == xs;
  }

  /** The query texts the store takes from a `query_texts` argument: a non-empty JSON list
      of strings is taken item by item; anything else is left to `other`. */
  function Coerce(texts: Json, other: Coercion): (r: Option<seq<string>>)
    ensures texts.JArray? && texts.items != [] && TextsOf(texts.items).Some? ==>
              r == TextsOf(texts.items)
  {
    if texts.JArray? && texts.items != [] && TextsOf(texts.items).Some? then TextsOf(texts.items)
    else other(texts)
  }

  /** Some stored entry carries this metadata. */
  predicate Stored(entries: seq<Entry>, m: Metadata) {
    exists e :: e in entries && e.metadata == m
  }

  /** The metadata of the first `k` ranked candidates that are stored in `entries`. */
  function Nearest(ranked: seq<Entry>, entries: seq<Entry>, k: nat): (g: seq<Metadata>)
    ensures |g| <= k && |g| <= |ranked|
    ensures forall i :: 0 <= i < |g| ==> Stored(entries, g[i])
    ensures entries == [] ==> g == []
  {
    if k == 0 || ranked == [] then []
    else if ranked[0] in entries then
      assert Stored(entries, ranked[0].metadata);
      [ranked[0].metadata] + Nearest(ranked[1..], entries, k - 1)
    else Nearest(ranked[1..], entries, k)
  }

  /** A Chroma collection. */
  class Collection {
    const name: string
    const rank: Ranking
    const coerceOther: Coercion
    var entries: seq<Entry>

    /** The store keeps ids unique. */
    ghost predicate Valid()
      reads this
    {
      DistinctIds(entries)
    }

    constructor (name: string, rank: Ranking, coerceOther: Coercion)
      ensures this.name == name && this.rank == rank && this.coerceOther == coerceOther
      ensures entries == [] && Valid()
    {
      this.name := name;
      this.rank := rank;
      this.coerceOther := coerceOther;
      entries := [];
    }

    /** `collection.count()` */
    method Count() returns (n: nat)
      ensures n == |entries|
    {
      n := |entries|;
    }

    /** The `ids` field of `collection.get()`: every stored id. */
    method Get() returns (ids: seq<Id>)
      ensures ids == IdsOf(entries)
    {
      ids := IdsOf(entries);
    }

    /** `collection.delete(ids=...)` */
    method Delete(ids: seq<Id>)
      requires Valid()
      modifies this
      ensures Valid()
      ensures entries == Without(old(entries), ids)
    {
      entries := Without(entries, ids);
      assert forall i, j :: 0 <= i < j < |entries| ==> entries[i].id != entries[j].id by {
        DeleteKeepsDistinct(old(entries), ids);
      }
    }

    /** `collection.add(documents=[d], metadatas=[m], ids=[id])`: an id already stored is
        ignored, as the store does with existing ids. */
    method Add(document: string, metadata: Metadata, id: Id)
      requires Valid()
      modifies this
      ensures Valid()
      ensures entries == if id in IdsOf(old(entries)) then old(entries)
                         else old(entries) + [Entry(id, document, metadata)]
    {
      if id !in IdsOf(entries) {
        entries := entries + [Entry(id, document, metadata)];
        forall i | 0 <= i < |entries| - 1 ensures entries[i].id != id {
          assert IdsOf(old(entries))[i] == entries[i].id;
        }
      }
    }

    /** `collection.query(query_texts=texts, n_results=n)`: one group of at most `n` stored
        metadata records per query text, in the order of the texts; refused when the store
        does not accept `texts`. */
    function Query(texts: Json, n: nat): (r: Result<QueryResult>)
      reads this
      ensures r.Ok? <==> Coerce(texts, coerceOther).Some?
      ensures r.Ok? ==> r.value.metadatas.Some?
      ensures r.Ok? ==> |r.value.metadatas.value| == |Coerce(texts, coerceOther).value|
      ensures r.Ok? ==> forall i :: 0 <= i < |r.value.metadatas.value| ==>
                |r.value.metadatas.value[i]| <= n
                && (entries == [] ==> r.value.metadatas.value[i] == [])
                && forall m :: m in r.value.metadatas.value[i] ==> Stored(entries, m)
    {
      match Coerce(texts, coerceOther)
      case None => Raised(QueryRejected)
      case Some(ts) =>
        var es, rk := entries, rank;
        var groups := seq(|ts|, i requires 0 <= i < |ts| => Nearest(rk(ts[i], es), es, n));
        assert forall i :: 0 <= i < |groups| ==> groups[i] == Nearest(rk(ts[i], es), es, n);
        Ok(QueryResult(Some(groups)))
    }
  }

  lemma DeleteKeepsDistinct(entries: seq<Entry>, ids: seq<Id>)
    requires DistinctIds(entries)
    ensures DistinctIds(Without(entries, ids))
  {
  }

  /** A Chroma client: collections by name. */
  class Client {
    const rank: Ranking
    const coerceOther: Coercion
    var collections: map<string, Collection>

    constructor (rank: Ranking, coerceOther: Coercion, collections: map<string, Collection>)
      ensures this.rank == rank && this.coerceOther == coerceOther
      ensures this.collections == collections
    {
      this.rank := rank;
      this.coerceOther := coerceOther;
      this.collections := collections;
    }

    /** `client.get_or_create_collection(name=...)`: the existing collection of that name,
        or a new empty one registered under it. */
    method GetOrCreateCollection(name: string) returns (c: Collection)
      modifies this
      ensures name in collections && collections[name] == c
      ensures name in old(collections) ==> c == old(collections[name]) && collections == old(collections)
      ensures name !in old(collections) ==>
                fresh(c) && c.entries == [] && c.name == name && collections == old(collections)[name := c]
    {
      if name in collections {
        c := collections[name];
      } else {
        c := new Collection(name, rank, coerceOther);
        collections := collections[name := c];
      }
    }
  }
}
