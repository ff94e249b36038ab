/** The portfolio index: the table of `Techstack`/`Links` rows and the `portfolio` collection
    of the vector store that holds one document per row. Reading the CSV file is not
    modelled; the constructor receives the table it produced. `uuid4` is stood in for by a
    counter that only grows, so an id is never issued twice, not even across a clear. */
module Portfolios {
  import opened Outcomes
  import opened JsonValues
  import opened Tables
  import opened Chroma

  const CollectionName := "portfolio"
  const DocumentColumn := "Techstack"
  const LinksColumn := "Links"
  /** `n_results` of every query. */
  const ResultsPerSkill: nat := 2

  /** What the ingest loop has added, and whether it stopped on an exception. */
  datatype Ingest = Ingest(added: seq<Entry>, status: Result<()>)

  /** The ingest loop of `load_portfolio` over `rows`, with ids from `firstId` on: each row
      in turn adds one entry, until a row lacks a required column and raises `KeyError`. */
  function IngestRows(rows: seq<Row>, firstId: Id): (r: Ingest)
    ensures |r.added| <= |rows|
    ensures r.status.Ok? ==> |r.added| == |rows|
    ensures forall k :: 0 <= k < |r.added| ==> r.added[k].id == firstId + k
    decreases |rows|
  {
    if rows == [] then Ingest([], Ok(()))
    else
      var prior := IngestRows(rows[..|rows| - 1], firstId);
      var row := rows[|rows| - 1];
      if prior.status.Raised? then prior
      else if DocumentColumn !in row then Ingest(prior.added, Raised(KeyError(DocumentColumn)))
      else if LinksColumn !in row then Ingest(prior.added, Raised(KeyError(LinksColumn)))
      else
        Ingest(prior.added + [Entry(firstId + |rows| - 1, row[DocumentColumn], Metadata(row[LinksColumn]))], Ok(()))
  }

  /** The entry a complete row becomes. */
  function RowEntry(row: Row, id: Id): (e: Entry)
    requires DocumentColumn in row && LinksColumn in row
    ensures e.id == id && e.document == row[DocumentColumn] && e.metadata.links == row[LinksColumn]
  {
    Entry(id, row[DocumentColumn], Metadata(row[LinksColumn]))
  }

  /** When every row has both columns, each row adds exactly one entry, in row order:
      document = `Techstack`, metadata = `{links: Links}`. */
  lemma {:induction false} IngestComplete(rows: seq<Row>, firstId: Id)
    requires forall i :: 0 <= i < |rows| ==> DocumentColumn in rows[i] && LinksColumn in rows[i]
    ensures IngestRows(rows, firstId).status == Ok(())
    ensures |IngestRows(rows, firstId).added| == |rows|
    ensures forall k :: 0 <= k < |rows| ==> IngestRows(rows, firstId).added[k] == RowEntry(rows[k], firstId + k)
  {
    if rows != [] {
      var front := rows[..|rows| - 1];
      IngestComplete(front, firstId);
      assert forall k :: 0 <= k < |front| ==> front[k] == rows[k];
    }
  }

  /** One more row: the loop either stops on it with `KeyError` or appends its entry. */
  lemma IngestNext(rows: seq<Row>, i: nat, firstId: Id)
    requires i < |rows|
    requires IngestRows(rows[..i], firstId).status.Ok?
    ensures var prior := IngestRows(rows[..i], firstId).added;
            IngestRows(rows[..i + 1], firstId) ==
              if DocumentColumn !in rows[i] then Ingest(prior, Raised(KeyError(DocumentColumn)))
              else if LinksColumn !in rows[i] then Ingest(prior, Raised(KeyError(LinksColumn)))
              else Ingest(prior + [RowEntry(rows[i], firstId + i)], Ok(()))
  {
    assert rows[..i + 1][..i] == rows[..i];
  }

  /** Once the loop has raised, later rows change nothing. */
  lemma {:induction false} IngestStops(rows: seq<Row>, i: nat, firstId: Id)
    requires i <= |rows|
    requires IngestRows(rows[..i], firstId).status.Raised?
    ensures IngestRows(rows, firstId) == IngestRows(rows[..i], firstId)
    decreases |rows| - i
  {
    if i < |rows| {
      assert rows[..i + 1][..i] == rows[..i];
      IngestStops(rows, i + 1, firstId);
    } else {
      assert rows[..i] == rows;
    }
  }

  /** For a table: with both columns every row is ingested; without one of them, a table
      with rows raises `KeyError` for the first missing column (`Techstack` is read first)
      on its first row, having added nothing. */
  lemma IngestTable(t: Table, firstId: Id)
    ensures DocumentColumn in t.columns && LinksColumn in t.columns ==>
              IngestRows(t.rows, firstId).status == Ok(()) && |IngestRows(t.rows, firstId).added| == |t.rows|
    ensures t.rows != [] && DocumentColumn !in t.columns ==>
              IngestRows(t.rows, firstId) == Ingest([], Raised(KeyError(DocumentColumn)))
    ensures t.rows != [] && DocumentColumn in t.columns && LinksColumn !in t.columns ==>
              IngestRows(t.rows, firstId) == Ingest([], Raised(KeyError(LinksColumn)))
  {
    if DocumentColumn in t.columns && LinksColumn in t.columns {
      forall i | 0 <= i < |t.rows| ensures DocumentColumn in t.rows[i] && LinksColumn in t.rows[i] {
        assert t.rows[i].Keys == ColumnSet(t.columns);
      }
      IngestComplete(t.rows, firstId);
    } else if t.rows != [] {
      assert t.rows[0].Keys == ColumnSet(t.columns);
      assert t.rows[..1][..0] == [] && t.rows[..1][0] == t.rows[0];
      IngestStops(t.rows, 1, firstId);
    }
  }

  /** The collection's entries, and the outcome, after `load_portfolio(force)` on a
      collection holding `entries`, with `data` (absent: `None`) and ids from `nextId` on. */
  function LoadEffect(entries: seq<Entry>, data: Option<Table>, force: bool, nextId: Id): (r: (seq<Entry>, Result<()>))
    ensures !force && entries != [] ==> r == (entries, Ok(()))
    ensures data.None? ==> r == (if force then [] else entries, Ok(()))
    ensures force ==> forall e :: e in r.0 ==> e.id >= nextId
    ensures forall k :: 0 <= k < |r.0| ==> r.0[k] in entries || r.0[k].id == nextId + k
  {
    var base := if force then [] else entries;
    if base == [] && data.Some? then
      var ingest := IngestRows(data.value.rows, nextId);
      (ingest.added, ingest.status)
    else (base, Ok(()))
  }

  /** After a forced load with a table that has both columns, the collection holds exactly
      one entry per row, in row order, each with a new id: no earlier entry survives. */
  lemma ForcedLoadReplaces(entries: seq<Entry>, t: Table, nextId: Id)
    requires DocumentColumn in t.columns && LinksColumn in t.columns
    ensures var r := LoadEffect(entries, Some(t), true, nextId);
            && r.1 == Ok(())
            && |r.0| == |t.rows|
            && forall k :: 0 <= k < |t.rows| ==> r.0[k] == RowEntry(t.rows[k], nextId + k)
  {
    IngestTable(t, nextId);
    forall i | 0 <= i < |t.rows| ensures DocumentColumn in t.rows[i] && LinksColumn in t.rows[i] {
      assert t.rows[i].Keys == ColumnSet(t.columns);
    }
    IngestComplete(t.rows, nextId);
  }

  /** Whether the ingest loop adds anything does not depend on the ids it hands out. */
  lemma {:induction false} IngestEmptyAnyIds(rows: seq<Row>, a: Id, b: Id)
    ensures IngestRows(rows, a).added == [] <==> IngestRows(rows, b).added == []
    ensures IngestRows(rows, a).status == IngestRows(rows, b).status
    decreases |rows|
  {
    if rows != [] {
      IngestEmptyAnyIds(rows[..|rows| - 1], a, b);
    }
  }

  /** A second non-forced load leaves the collection as the first one left it. */
  lemma LoadTwiceIsLoadOnce(entries: seq<Entry>, data: Option<Table>, n1: Id, n2: Id)
    ensures var first := LoadEffect(entries, data, false, n1).0;
            LoadEffect(first, data, false, n2).0 == first
  {
    var first := LoadEffect(entries, data, false, n1).0;
    if first == [] && data.Some? {
      IngestEmptyAnyIds(data.value.rows, n1, n2);
    }
  }

  /** An id above every stored id is not among them. */
  lemma AddFresh(entries: seq<Entry>, id: Id)
    requires forall e :: e in entries ==> e.id < id
    ensures id !in IdsOf(entries)
  {
  }

  /** A bound above every id in `entries`. */
  function IdBound(entries: seq<Entry>): (b: Id)
    ensures forall e :: e in entries ==> e.id < b
  {
    if entries == [] then 0
    else
      var rest := IdBound(entries[1..]);
      if entries[0].id < rest then rest else entries[0].id + 1
  }

  /** `QueryResult.get('metadatas', [])` */
  function MetadatasOrEmpty(result: QueryResult): (groups: seq<seq<Metadata>>)
    ensures result.metadatas.Some? ==> groups == result.metadatas.value
    ensures result.metadatas.None? ==> groups == []
  {
    result.metadatas.GetOr([])
  }

  class Portfolio {
    /** The table; `None` stands for the attribute being absent (`hasattr` false). */
    var data: Option<Table>
    const client: Client
    var collection: Collection
    /** The next id `uuid4` stands for. */
    var nextId: Id

    ghost predicate Valid()
      reads this, client, collection
    {
      && CollectionName in client.collections
      && client.collections[CollectionName] == collection
      && DistinctIds(collection.entries)
      && forall e :: e in collection.entries ==> e.id < nextId
    }

    /** `Portfolio()` after the table has been read: the `portfolio` collection of the
        persistent client, created if it does not exist yet. */
    constructor (data: Table, client: Client)
      requires CollectionName in client.collections ==> DistinctIds(client.collections[CollectionName].entries)
      modifies client
      ensures Valid()
      ensures this.data == Some(data) && this.client == client
      ensures CollectionName in old(client.collections) ==>
                collection == old(client.collections[CollectionName])
                && collection.entries == old(client.collections[CollectionName].entries)
      ensures CollectionName !in old(client.collections) ==> fresh(collection) && collection.entries == []
    {
      this.data := Some(data);
      this.client := client;
      var c := client.GetOrCreateCollection(CollectionName);
      collection := c;
      nextId := IdBound(c.entries);
    }

    /** `clear_collection()`: deletes every stored id when the collection is not empty, then
        obtains the collection of the same name again, which is the same collection. */
    method ClearCollection()
      requires Valid()
      modifies this, collection, client
      ensures Valid()
      ensures collection == old(collection) && collection.entries == []
      ensures data == old(data) && nextId == old(nextId) && client.collections == old(client.collections)
    {
      var n := collection.Count();
      if n > 0 {
        var ids := collection.Get();
        if ids != [] {
          DeleteAllIds(collection.entries);
          collection.Delete(ids);
        }
      }
      collection := client.GetOrCreateCollection(CollectionName);
    }

    /** `load_portfolio(force_reload)`: clear first when forced; then, only if the collection
        is empty and the table is present, add one entry per row, each under a new id. */
    method LoadPortfolio(forceReload: bool) returns (status: Result<()>)
      requires Valid()
      modifies this, collection, client
      ensures Valid()
      ensures collection == old(collection) && data == old(data) && client.collections == old(client.collections)
      ensures nextId >= old(nextId)
      ensures (collection.entries, status) == LoadEffect(old(collection.entries), data, forceReload, old(nextId))
    {
      if forceReload {
        ClearCollection();
      }
      status := Ok(());
      var n := collection.Count();
      if n == 0 && data.Some? {
        var rows := data.value.rows;
        var firstId := nextId;
        var i := 0;
        while i < |rows| && status.Ok?
          invariant 0 <= i <= |rows|
          invariant Valid()
          invariant collection == old(collection) && data == old(data) && client.collections == old(client.collections)
          invariant nextId == firstId + i
          invariant IngestRows(rows[..i], firstId) == Ingest(collection.entries, status)
        {
          var row := rows[i];
          var id := nextId;
          nextId := nextId + 1;
          IngestNext(rows, i, firstId);
          if DocumentColumn !in row {
            status := Raised(KeyError(DocumentColumn));
          } else if LinksColumn !in row {
            status := Raised(KeyError(LinksColumn));
          } else {
            AddFresh(collection.entries, id);
            collection.Add(row[DocumentColumn], Metadata(row[LinksColumn]), id);
          }
          i := i + 1;
        }
        if status.Raised? {
          IngestStops(rows, i, firstId);
        } else {
          assert rows[..i] == rows;
        }
      }
    }

    /** `query_links(skills)`: one query with the skills as query texts and two results
        each; its `metadatas`, or `[]` if the reply has none. Reading only, it changes
        nothing. */
    function QueryLinks(skills: Json): (r: Result<seq<seq<Metadata>>>)
      reads this, collection
      ensures r.Ok? <==> Coerce(skills, collection.coerceOther).Some?
      ensures r.Ok? ==> |r.value| == |Coerce(skills, collection.coerceOther).value|
      ensures r.Ok? ==> forall i :: 0 <= i < |r.value| ==>
                |r.value[i]| <= ResultsPerSkill && forall m :: m in r.value[i] ==> Stored(collection.entries, m)
    {
      match collection.Query(skills, ResultsPerSkill)
      case Raised(e) => Raised(e)
      case Ok(result) => Ok(MetadatasOrEmpty(result))
    }
  }

  /** For a non-empty list of skill strings: one group per skill, in the order of the skills,
      each the metadata of at most two stored entries, the first the ranking lists for that skill. */
  lemma QueryLinksPerSkill(p: Portfolio, skills: seq<string>)
    requires skills != []
    ensures var r := p.QueryLinks(JArray(Strings(skills)));
            && r.Ok?
            && |r.value| == |skills|
            && forall i :: 0 <= i < |skills| ==>
                 r.value[i] == Nearest(p.collection.rank(skills[i], p.collection.entries), p.collection.entries, ResultsPerSkill)
  {
  }
}
