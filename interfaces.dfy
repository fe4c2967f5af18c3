/**
  The records that cross the boundary of the answer pipeline, and the external
  collaborators it calls. SHA-256, the embedding model, the SQL engine with its
  `<=>` distance, the language model and JSON are not modelled: each one is a
  function value handed to the pipeline, and whatever the pipeline relies on is
  stated as a predicate over that function.
*/
module Interfaces {
  import opened Wrappers

  /** An embedding (a float vector in the source; never computed here). */
  type Vector = seq<real>

  /** A row of the `documents` table as the indexers write it. */
  datatype Chunk = Chunk(content: string, source: string, embedding: Vector)

  /** A row as `SELECT content, source` returns it. */
  datatype Row = Row(content: string, source: string)

  /** The dictionary `{"result": ..., "sources": [...]}` that answer_query returns. */
  datatype AnswerRecord = AnswerRecord(result: string, sources: seq<string>)

  /** A Redis value stored with SETEX: the serialized payload and its time to live in seconds. */
  datatype Entry = Entry(value: string, ttl: nat)

  /** The exceptions answer_query can raise, as values. */
  datatype Error =
    | NotImplemented(message: string)  // the Mongo branch
    | ProviderFailure                  // the embedder or the language model raised
    | StoreFailure                     // connecting to, or querying, Postgres raised
    | DecodeFailure                    // json.loads rejected a cached value

  /**
    What one pg_retrieve round trip to Postgres produces: the connection could
    not be opened; it was opened but register_vector or cursor() raised; the
    query (execute or fetchall) raised; or the rows came back.
  */
  datatype StoreOutcome = ConnectFailed | SetupFailed | QueryFailed | Fetched(rows: seq<Row>)

  /** The observable effects of one request, in the order they happen. */
  datatype Call =
    | Embed(text: string)
    | CacheGet(key: string)
    | Connect
    | Execute(filter: Option<string>, limit: nat)
    | Close
    | Generate(prompt: string)
    | CacheSetEx(key: string, ttl: nat, value: string)

  /**
    The collaborators answer_query uses. `query` is the nearest-neighbour SELECT
    with its optional `WHERE source = ...` and its `LIMIT`; `None` from `embed`
    or `generate` stands for the call raising.
  */
  datatype Providers = Providers(
    embed: string -> Option<Vector>,
    digest: string -> string,
    query: (Vector, Option<string>, nat) -> StoreOutcome,
    generate: string -> Option<string>,
    encode: AnswerRecord -> string,
    decode: string -> Option<AnswerRecord>)

  /** JSON as the pipeline needs it: a dump is never empty and loads back to the same record. */
  ghost predicate CodecRoundTrips(encode: AnswerRecord -> string, decode: string -> Option<AnswerRecord>)
  {
    forall a :: |encode(a)| > 0 && decode(encode(a)) == Some(a)
  }
}
