/**
  Retrieval: pg_retrieve, mongo_retrieve and the backend selection that picks
  one of them. The SQL query itself is the oracle `query`; what the pipeline
  may assume of it is LawfulStore: against a table of chunks and a distance
  standing for pgvector's `<=>`, every fetched result is the `LIMIT k` nearest
  rows that pass the `WHERE source = ...` filter, nearest first.
*/
module Retrieval {
  import opened Wrappers
  import opened Interfaces

  const PgBackend: string := "pgvector"
  const MongoUnsupported: string := "MongoDB vector retrieval requires Atlas Vector Search setup."

  function Min(a: nat, b: nat): nat
  {
    if a <= b then a else b
  }

  /** `WHERE source = %s`: exact equality, or no condition at all. */
  predicate Matches(c: Chunk, filter: Option<string>)
  {
    filter.None? || c.source == filter.value
  }

  function ToRow(c: Chunk): Row
  {
    Row(c.content, c.source)
  }

  /** How many chunks of the table pass the filter. */
  function CountMatching(table: seq<Chunk>, filter: Option<string>): (n: nat)
    ensures n <= |table|
  {
    if table == [] then 0
    else (if Matches(table[0], filter) then 1 else 0) + CountMatching(table[1..], filter)
  }

  /**
    `idx` are the table positions the query picked, in the order it returns
    them: as many as LIMIT and the matching rows allow, all distinct, all
    passing the filter, ordered by distance to the probe, and none of the
    matching rows left out is nearer than a row that was picked.
  */
  ghost predicate SelectedBy(table: seq<Chunk>, dist: (Vector, Vector) -> real, probe: Vector,
                             filter: Option<string>, k: nat, idx: seq<nat>, rows: seq<Row>)
  {
    && |idx| == |rows| == Min(k, CountMatching(table, filter))
    && (forall i :: 0 <= i < |idx| ==>
          idx[i] < |table| && Matches(table[idx[i]], filter) && rows[i] == ToRow(table[idx[i]]))
    && (forall i, j :: 0 <= i < j < |idx| ==>
          idx[i] != idx[j] && dist(probe, table[idx[i]].embedding) <= dist(probe, table[idx[j]].embedding))
    && (forall i, c :: 0 <= i < |idx| && 0 <= c < |table| && Matches(table[c], filter) && c !in idx ==>
          dist(probe, table[idx[i]].embedding) <= dist(probe, table[c].embedding))
  }

  /** `ORDER BY embedding <=> probe LIMIT k` over the filtered table could have returned `rows`. */
  ghost predicate NearestFirst(table: seq<Chunk>, dist: (Vector, Vector) -> real, probe: Vector,
                               filter: Option<string>, k: nat, rows: seq<Row>)
  {
    exists idx :: SelectedBy(table, dist, probe, filter, k, idx, rows)
  }

  /** The query oracle behaves like that SELECT over `table` whenever it returns rows. */
  ghost predicate LawfulStore(query: (Vector, Option<string>, nat) -> StoreOutcome,
                              table: seq<Chunk>, dist: (Vector, Vector) -> real)
  {
    forall probe, filter, k :: query(probe, filter, k).Fetched? ==>
      NearestFirst(table, dist, probe, filter, k, query(probe, filter, k).rows)
  }

  /** A nearest-first result holds at most k rows, fewer only when fewer rows match, and every row passes the filter. */
  lemma NearestFirstBounds(table: seq<Chunk>, dist: (Vector, Vector) -> real, probe: Vector,
                           filter: Option<string>, k: nat, rows: seq<Row>)
    requires NearestFirst(table, dist, probe, filter, k, rows)
    ensures |rows| <= k
    ensures |rows| == Min(k, CountMatching(table, filter))
    ensures filter.Some? ==> forall i :: 0 <= i < |rows| ==> rows[i].source == filter.value
  {
    var idx :| SelectedBy(table, dist, probe, filter, k, idx, rows);
    if filter.Some? {
      forall i | 0 <= i < |rows| ensures rows[i].source == filter.value {
        assert Matches(table[idx[i]], filter);
      }
    }
  }

  /** What one call of pg_retrieve returns, whether it leaves its connection open, and the calls it makes. */
  datatype Retrieved = Retrieved(rows: Result<seq<Row>, Error>, leaks: bool, calls: seq<Call>)

  /**
    pg_retrieve: connect, register the vector type, open a cursor, execute the
    filtered or unfiltered query, fetch, close. `close` is not in a `finally`,
    so anything that raises after the connection is open leaves it open.
  */
  function PgRetrieveSpec(query: (Vector, Option<string>, nat) -> StoreOutcome,
                          probe: Vector, k: nat, filter: Option<string>): (r: Retrieved)
    ensures r.rows.Ok? <==> query(probe, filter, k).Fetched?
    ensures r.rows.Ok? ==> r.rows.value == query(probe, filter, k).rows
    ensures r.rows.Err? ==> r.rows.error == StoreFailure
    ensures |r.calls| > 0 && r.calls[0] == Connect
    ensures (Close in r.calls) <==> r.rows.Ok?
    ensures (Execute(filter, k) in r.calls) <==> (query(probe, filter, k).QueryFailed? || query(probe, filter, k).Fetched?)
    ensures r.leaks <==> (r.rows.Err? && !query(probe, filter, k).ConnectFailed?)
    ensures r.leaks <==> (query(probe, filter, k).SetupFailed? || query(probe, filter, k).QueryFailed?)
  {
    match query(probe, filter, k)
    case ConnectFailed => Retrieved(Err(StoreFailure), false, [Connect])
    case SetupFailed => Retrieved(Err(StoreFailure), true, [Connect])
    case QueryFailed => Retrieved(Err(StoreFailure), true, [Connect, Execute(filter, k)])
    case Fetched(rows) => Retrieved(Ok(rows), false, [Connect, Execute(filter, k), Close])
  }

  /** mongo_retrieve: a skeleton that always raises, so "not configured" is never confused with "no matches". */
  function MongoRetrieve(probe: Vector, k: nat): (r: Result<seq<Row>, Error>)
    ensures r.Err? && r.error.NotImplemented?
  {
    Err(NotImplemented(MongoUnsupported))
  }

  /** The backend branch of answer_query: "pgvector" goes to Postgres, anything else to the Mongo stub. */
  function Retrieve(query: (Vector, Option<string>, nat) -> StoreOutcome, backend: string,
                    probe: Vector, k: nat, filter: Option<string>): (r: Retrieved)
    ensures r.rows.Ok? ==> backend == PgBackend
    ensures backend != PgBackend ==>
      r.rows == Err(NotImplemented(MongoUnsupported)) && r.calls == [] && !r.leaks
    ensures backend == PgBackend ==> |r.calls| > 0 && r.calls[0] == Connect
  {
    if backend == PgBackend then PgRetrieveSpec(query, probe, k, filter)
    else Retrieved(MongoRetrieve(probe, k), false, [])
  }

  /** Against a lawful store, rows fetched by pg_retrieve are the k nearest matching rows, nearest first. */
  lemma PgRetrieveNearestFirst(query: (Vector, Option<string>, nat) -> StoreOutcome,
                               table: seq<Chunk>, dist: (Vector, Vector) -> real,
                               probe: Vector, k: nat, filter: Option<string>)
    requires LawfulStore(query, table, dist)
    ensures var r := PgRetrieveSpec(query, probe, k, filter);
      r.rows.Ok? ==>
        && NearestFirst(table, dist, probe, filter, k, r.rows.value)
        && |r.rows.value| <= k
        && (filter.Some? ==> forall i :: 0 <= i < |r.rows.value| ==> r.rows.value[i].source == filter.value)
  {
    var r := PgRetrieveSpec(query, probe, k, filter);
    if r.rows.Ok? {
      NearestFirstBounds(table, dist, probe, filter, k, r.rows.value);
    }
  }

  /** Every chunk of the table carries a tag of the form "Wikipedia:<page>", as the Wikipedia indexer writes them. */
  ghost predicate WikipediaTagged(table: seq<Chunk>)
  {
    forall i :: 0 <= i < |table| ==> |table[i].source| >= 10 && table[i].source[..10] == "Wikipedia:"
  }

  lemma {:induction false} NoWikipediaTagEqualsBareWord(table: seq<Chunk>)
    requires WikipediaTagged(table)
    ensures CountMatching(table, Some("Wikipedia")) == 0
  {
    if table != [] {
      assert |table[0].source| != |"Wikipedia"|;
      NoWikipediaTagEqualsBareWord(table[1..]);
    }
  }

  /**
    The front ends offer the filter "Wikipedia", but the indexer tags chunks
    "Wikipedia:<page>"; the filter is exact equality, so it matches nothing.
  */
  lemma WikipediaFilterMatchesNothing(table: seq<Chunk>, dist: (Vector, Vector) -> real,
                                      probe: Vector, k: nat, rows: seq<Row>)
    requires WikipediaTagged(table)
    requires NearestFirst(table, dist, probe, Some("Wikipedia"), k, rows)
    ensures rows == []
  {
    NoWikipediaTagEqualsBareWord(table);
    NearestFirstBounds(table, dist, probe, Some("Wikipedia"), k, rows);
  }

  /** Every chunk of the table carries a tag ending in ".pdf": the PDF indexer globs `*.pdf` and stores the basename. */
  ghost predicate PdfTagged(table: seq<Chunk>)
  {
    forall i :: 0 <= i < |table| ==>
      |table[i].source| >= 4 && table[i].source[|table[i].source| - 4..] == ".pdf"
  }

  lemma {:induction false} NoPdfTagEqualsBareWord(table: seq<Chunk>)
    requires PdfTagged(table)
    ensures CountMatching(table, Some("PDF")) == 0
  {
    if table != [] {
      var tag := table[0].source;
      assert tag[|tag| - 4..] == ".pdf";
      assert tag[|tag| - 1] == 'f';
      NoPdfTagEqualsBareWord(table[1..]);
    }
  }

  /** Likewise the front ends' filter "PDF" matches no chunk the PDF indexer writes. */
  lemma PdfFilterMatchesNothing(table: seq<Chunk>, dist: (Vector, Vector) -> real,
                                probe: Vector, k: nat, rows: seq<Row>)
    requires PdfTagged(table)
    requires NearestFirst(table, dist, probe, Some("PDF"), k, rows)
    ensures rows == []
  {
    NoPdfTagEqualsBareWord(table);
    NearestFirstBounds(table, dist, probe, Some("PDF"), k, rows);
  }

  const Paris: string := "Paris is the capital of France."
  const Eiffel: string := "The Eiffel Tower is in Paris."
  const France: string := "Wikipedia:France"

  /**
    Two chunks tagged "Wikipedia:France" and LIMIT 2 with that filter: both
    come back, the nearer one first.
  */
  lemma TwoFranceChunksBothRetrieved(dist: (Vector, Vector) -> real, probe: Vector,
                                     e1: Vector, e2: Vector, rows: seq<Row>)
    requires NearestFirst([Chunk(Paris, France, e1), Chunk(Eiffel, France, e2)], dist, probe, Some(France), 2, rows)
    ensures rows == [Row(Paris, France), Row(Eiffel, France)] || rows == [Row(Eiffel, France), Row(Paris, France)]
    ensures dist(probe, e1) < dist(probe, e2) ==> rows == [Row(Paris, France), Row(Eiffel, France)]
  {
    var table := [Chunk(Paris, France, e1), Chunk(Eiffel, France, e2)];
    var idx :| SelectedBy(table, dist, probe, Some(France), 2, idx, rows);
    assert CountMatching(table, Some(France)) == 2 by {
      assert table[1..] == [Chunk(Eiffel, France, e2)];
      assert table[1..][1..] == [];
    }
    assert |idx| == 2;
    assert idx[0] < 2 && idx[1] < 2 && idx[0] != idx[1];
    if idx[0] == 0 {
      assert rows == [ToRow(table[0]), ToRow(table[1])];
    } else {
      assert rows == [ToRow(table[1]), ToRow(table[0])];
    }
  }
}
