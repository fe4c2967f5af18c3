# Retrieval-augmented answer pipeline

This project models `answer_query` in `app/rag.py` of an enterprise RAG service, together with its two storage branches `pg_retrieve` and `mongo_retrieve`. One request:

1. embeds the question;
2. derives the Redis key `"rag:" + sha256(source + ":" + question)`;
3. returns the cached JSON if a Redis client exists and the stored value is truthy;
4. otherwise resolves the source filter (`"all"` means none) and retrieves up to `k` rows from Postgres/pgvector, nearest first, or fails in the Mongo stub;
5. joins the row contents with newlines into a context, builds the fixed prompt, asks the language model;
6. stores `{result, sources}` with `SETEX key 600` and returns it.

Modules:

- `Interfaces` (interfaces.dfy): records and collaborators. The embedder, SHA-256, the SQL query, the language model and JSON are fields of `Providers`: function values. `None` stands for an embedder or model call that raises. For Postgres, `ConnectFailed`, `SetupFailed` (`register_vector` or `cursor()` raised after connecting) and `QueryFailed` (`execute` or `fetchall` raised) stand for the three places pg_retrieve can raise.
- `CacheKeys` (cache_key.dfy): the key basis, the key, and what they do and do not guarantee.
- `Retrieval` (retrieval.dfy): `pg_retrieve` as a function of the query oracle, `mongo_retrieve`, the backend branch, and the store contract. `LawfulStore` says the query behaves like `WHERE source = f ORDER BY embedding <=> probe LIMIT k` over a table of chunks, with an abstract distance.
- `Assembly` (assembly.dfy): the `context` string, the `sources` list and the prompt template.
- `Rag` (rag.dfy): `AnswerSpec` gives the whole effect of one request: reply, cache afterwards, connections left open, and the ordered list of calls. The class `RagPipeline` runs the same steps imperatively, against a `RedisCache` object and a ghost call log, and is proved to agree with `AnswerSpec`. The lemmas about `AnswerSpec` state the cache and call properties.

In some places the code does less than a reader might assume. The model follows the code:

- The question is embedded before the cache lookup (app/rag.py:66). A hit still calls the embedder; only retrieval and generation are skipped (`Rag.EmbedsFirst`, `Rag.CacheHitShortCircuit`).
- The connection is closed only on success; `conn.close()` is not in a `finally` (app/rag.py:60-61). Anything that raises after `psycopg2.connect` leaves it open: `register_vector` (app/rag.py:30), `cursor()` (app/rag.py:40), or the query (`Rag.LeakOnlyAfterConnect`).
- Errors from Redis itself are not caught, so they would fail the request rather than degrade to a miss. The model's `RedisCache` never fails (see Left out).
- The key basis is not injective once a source tag contains a colon (`CacheKeys.KeyBasisCollision`). Only determinism holds, plus injectivity for colon-free sources (`CacheKeys.KeyBasisInjective`).
- The cap on `sources` and the filter equality hold only for answers computed on a miss (`Rag.MissSourcesBounded`). A cached answer is returned to any request with the same key (`Rag.SameKeySameReply`). The key leaves out `k` (app/rag.py:69), so an answer fetched with LIMIT k1 is also returned for k2 (`Rag.CacheIgnoresK`). A colon in a Wikipedia tag lets `("France:q", "Wikipedia")` share the key of `("q", "Wikipedia:France")`. The second request then returns sources tagged `"Wikipedia:France"` under the filter `"Wikipedia"` (`Rag.CollisionCrossesFilter`).
- The front ends offer the filters `"PDF"` and `"Wikipedia"`, but the Wikipedia indexer tags chunks `"Wikipedia:<page>"` (indexers/index_wiki.py:49). The filter is exact equality (app/rag.py:54), so `"Wikipedia"` matches no such chunk (`Retrieval.WikipediaFilterMatchesNothing`). The PDF indexer only reads `*.pdf` files (indexers/index_pdfs.py:36) and tags chunks with the file's basename, so every PDF tag ends in `.pdf` and `"PDF"` matches no indexed chunk either (`Retrieval.PdfFilterMatchesNothing`).

## Model

| member | source | states |
|---|---|---|
| `CacheKeys.KeyBasis` | app/rag.py:69 | the basis is as long as source and question plus one, with the colon right after the source |
| `CacheKeys.CacheKey` | app/rag.py:69-70 | the key is the prefix "rag:" followed by exactly the digest of the basis; being a function of (source, question), the same pair always gives the same key |
| `CacheKeys.IsHexDigest` | app/rag.py:70 | a SHA-256 hexdigest is 64 lower-case hexadecimal characters |
| `CacheKeys.CacheKeyShape` | app/rag.py:70 | with a SHA-256 hex digest the key is 68 characters long and everything after "rag:" is the digest |
| `CacheKeys.KeyBasisRoundTrip` | app/rag.py:69 | for a colon-free source, splitting the basis at its first colon gives back exactly (source, question) |
| `CacheKeys.KeyBasisInjective` | app/rag.py:69 | two colon-free sources give equal bases only for equal (source, question) pairs |
| `CacheKeys.KeyBasisCollision` | app/rag.py:69-70 | ("a:b","c") and ("a","b:c") have the same basis and hence the same key under any digest |
| `CacheKeys.CacheKeyCaseSensitive` | app/rag.py:69-70 | nothing is normalised: "Foo?" and "foo?" under "all" have different bases, and their keys coincide exactly when the digest collides on those bases |
| `Retrieval.Matches` | app/rag.py:54 | `WHERE source = %s`: a chunk passes exactly when there is no filter or its tag equals the filter |
| `Retrieval.ToRow` | app/rag.py:53 | `SELECT content, source`: a chunk's content and tag, without its embedding |
| `Retrieval.CountMatching` | app/rag.py:51-56 | the number of chunks passing the filter, at most the table's size |
| `Retrieval.SelectedBy` | app/rag.py:51-56 | the positions picked by `ORDER BY embedding <=> %s LIMIT %s` under the filter: min(k, matching) of them, distinct, all matching, in non-decreasing distance, and no matching chunk left out is nearer than one picked |
| `Retrieval.NearestFirst` | app/rag.py:42-58 | the rows are what the filtered or unfiltered nearest-neighbour query could return for some choice of positions |
| `Retrieval.LawfulStore` | app/rag.py:42-60 | every result the query oracle fetches is such a nearest-first result over the table |
| `Retrieval.NearestFirstBounds` | app/rag.py:41-58 | a nearest-first result has at most k rows, exactly min(k, number of matching chunks), and every row's tag equals the filter when there is one |
| `Retrieval.PgRetrieveSpec` | app/rag.py:28-62 | pg_retrieve returns rows exactly when the query fetched them, else a store error; it always connects first; it executes exactly when setup succeeded; it closes the connection exactly when it returns rows; it leaks the connection exactly when it fails after connecting (setup or query failure) |
| `Retrieval.PgRetrieveNearestFirst` | app/rag.py:41-60 | against a lawful store, fetched rows are the k nearest matching chunks in non-decreasing distance, at most k of them, all matching the filter |
| `Retrieval.Retrieve` | app/rag.py:81-84 | only the "pgvector" backend can return rows; any other backend yields the NotImplemented error without a database call or a leaked connection; "pgvector" always connects first |
| `Retrieval.MongoRetrieve` | app/rag.py:34-35 | the Mongo branch always fails with NotImplemented, never an empty success |
| `Retrieval.WikipediaTagged` | indexers/index_wiki.py:49 | every tag starts with "Wikipedia:" |
| `Retrieval.NoWikipediaTagEqualsBareWord` | indexers/index_wiki.py:49 | in a table of "Wikipedia:<page>" tags no chunk passes the exact filter "Wikipedia" |
| `Retrieval.WikipediaFilterMatchesNothing` | app/rag.py:51-58 | a lawful result for the filter "Wikipedia" over such a table is empty |
| `Retrieval.PdfTagged` | indexers/index_pdfs.py:36-52 | every tag is the basename of a `*.pdf` file, so it ends in ".pdf" |
| `Retrieval.NoPdfTagEqualsBareWord` | indexers/index_pdfs.py:36-52 | in a table of tags ending in ".pdf" no chunk passes the exact filter "PDF" |
| `Retrieval.PdfFilterMatchesNothing` | app/rag.py:51-58 | a lawful result for the filter "PDF" over such a table is empty |
| `Retrieval.TwoFranceChunksBothRetrieved` | app/rag.py:51-58 | with two chunks tagged "Wikipedia:France" and LIMIT 2 under that filter both come back, the nearer one first |
| `Assembly.Contents` | app/rag.py:86 | one content per row, in row order |
| `Assembly.Sources` | app/rag.py:87 | one tag per row, in row order, duplicates kept: `sources[i]` is row i's tag |
| `Assembly.JoinLinesLayout` | app/rag.py:86 | each part appears verbatim at its start offset in the newline join, followed by a newline unless it is last |
| `Assembly.JoinLines` | app/rag.py:86 | the join of no parts is empty; otherwise it is exactly as long as the parts plus one newline between each pair |
| `Assembly.LineStartIncreasing` | app/rag.py:86 | a later part starts after an earlier part ends, so the join keeps list order |
| `Assembly.Context` | app/rag.py:86 | the context is empty when no row was retrieved, and otherwise as long as the contents plus one newline between consecutive rows |
| `Assembly.ContextLayout` | app/rag.py:86 | row i's content sits verbatim in the context, followed by a newline and before row i+1's content |
| `Assembly.Prompt` | app/rag.py:88 | the prompt's length is the template's fixed text plus the context and the question |
| `Assembly.PromptFrame` | app/rag.py:88 | the prompt is "Context:\n", the context, "\n\nQuestion: ", the question and "\nAnswer based only on the context above.", in that order |
| `Assembly.PromptInjective` | app/rag.py:88 | two equal prompts whose contexts have the same length have the same context and question |
| `Rag.ResolveFilter` | app/rag.py:80 | no filter if and only if the source is "all"; otherwise the filter is that exact string |
| `Rag.CacheConfigured` | app/rag.py:25 | a client is created exactly when REDIS_URL is non-empty |
| `Rag.DefaultRedisUrlEnablesCache` | app/rag.py:19-25 | the constructor's default URL "redis://redis:6379/0" enables the cache; only an empty URL disables it |
| `Rag.Lookup` | app/rag.py:73 | GET yields a payload exactly when the key is stored, and then the stored payload |
| `Rag.IsHit` | app/rag.py:74 | a lookup counts as a hit exactly when a payload is present and is not empty |
| `Rag.DecodeCached` | app/rag.py:76-77 | the cached payload decodes to the record the decoder yields, or fails with a decode error |
| `Rag.AnswerSpec` | app/rag.py:65-96 | every request first embeds the question, leaves at most one connection open, and changes the cache only by writing its own key to the encoded answer with TTL 600, and only when a client exists and the request succeeded |
| `Rag.ServedFromCache` | app/rag.py:72-74 | a request is answered from the cache exactly when a client exists and the payload under its key is a hit |
| `Rag.EmbedsFirst` | app/rag.py:66 | every request, hit or miss, starts by embedding the question and embeds nothing else |
| `Rag.CacheHitShortCircuit` | app/rag.py:66-77 | on a hit the decoded payload is returned, the cache is unchanged, no connection is opened, and the only calls are the embedding and the lookup |
| `Rag.MissAnswered` | app/rag.py:79-96 | on a Postgres miss fetching `rows`, the reply is the model's answer to Prompt(Context(rows), question) with Sources(rows); with a client the encoded reply is stored under the key with TTL 600 and the calls are embed, get, connect, execute, close, generate, setex; without a client the cache is unchanged and get and setex are missing |
| `Rag.FailureCachesNothing` | app/rag.py:81-94 | a request that fails leaves the cache unchanged and issues no cache write |
| `Rag.NoClientNoCaching` | app/rag.py:72-94 | without a client no request reads or writes the cache |
| `Rag.UnsupportedBackendFails` | app/rag.py:81-84 | on a miss, any backend but "pgvector" fails with the NotImplemented message before the database or the model is called and before any cache write |
| `Rag.LeakOnlyAfterConnect` | app/rag.py:28-61 | a request leaves at most one connection open, exactly when Postgres setup or the query raised after connecting, and then it fails with a store error |
| `Rag.MissSourcesBounded` | app/rag.py:80-87 | against a lawful store a freshly computed answer lists at most k sources, each equal to the source when it is not "all" |
| `Rag.RepeatedRequestServedFromCache` | app/rag.py:72-94 | if JSON round-trips, a second identical request after a successful one has the same reply, leaves the cache as it was and calls only the embedder and the lookup |
| `Rag.SameKeySameReply` | app/rag.py:69-77 | after a successful request, any request with the same cache key gets the first reply, whatever its k, backend or filter |
| `Rag.CacheIgnoresK` | app/rag.py:69-77 | an answer computed for k1 is returned unchanged to the same question and source with any k2 |
| `Rag.CollisionCrossesFilter` | app/rag.py:69-77 | ("France:q", "Wikipedia") after a successful ("q", "Wikipedia:France") returns the first reply, whose sources, computed on a miss, are all "Wikipedia:France" |
| `Rag.RedisCache.constructor` | app/rag.py:25 | the client sees whatever the server already holds |
| `Rag.RedisCache.Get` | app/rag.py:73 | GET returns the stored payload exactly when the key is present |
| `Rag.RedisCache.SetEx` | app/rag.py:94 | SETEX stores the payload with its TTL under the key and changes no other key |
| `Rag.RagPipeline.constructor` | app/rag.py:19-25 | a redis client exists exactly when REDIS_URL is non-empty; REDIS_URL defaults to "redis://redis:6379/0" and VECTOR_BACKEND to "pgvector"; no connection is open and nothing has been called yet |
| `Rag.RagPipeline.PgRetrieve` | app/rag.py:38-62 | returns what PgRetrieveSpec returns, appends its calls to the log and counts the connection it leaves open |
| `Rag.RagPipeline.AnswerQuery` | app/rag.py:65-96 | returns AnswerSpec's reply for the current cache, leaves the Redis map as AnswerSpec's cache, appends AnswerSpec's calls and adds its leaked connections |
| `Rag.AskTwice` | app/rag.py:72-94 | on a pipeline with a client, the first request behaves as AnswerSpec says; if it succeeds, the second identical request returns the same answer, leaves the cache and the connection count as the first left them, and its calls are exactly the embedding and the cache lookup |

## Left out

- The collaborators are not computed: SHA-256 over UTF-8, the OpenAI embedder and language model, pgvector's `<=>` cosine distance, Postgres, and JSON. Each is a function value in `Providers`, or a predicate over one (`LawfulStore`, `CodecRoundTrips`, `IsHexDigest`). They are deterministic functions here. A temperature-0 model may still vary between calls, and only the cache-based properties hold regardless.
- `get_conn`, `register_vector`, `cursor`, `execute` and `fetchall` are folded into one oracle call. Its outcome is one of four: connecting failed (`ConnectFailed`), `register_vector` or `cursor()` raised after connecting (`SetupFailed`), `execute` or `fetchall` raised (`QueryFailed`), or rows came back (`Fetched`).
- Redis expiry: the TTL value 600 is recorded in each entry, but time does not pass, so an entry never expires.
- Redis errors on GET or SETEX: `RedisCache` never fails. In the source they would propagate out of `answer_query`.
- `json.loads` of a cached value that is valid JSON but not a `{result, sources}` object: the source returns it as is. The decoder oracle maps every payload to a record or to a decode failure.
- Rag.MissSourcesBounded: the cap of k sources and the filter equality are stated only for a miss, because on a hit the source returns whatever is cached under the key, and the key covers neither k nor the exact split of source and question (`Rag.CacheIgnoresK`, `Rag.CollisionCrossesFilter`).
- `Rag.RagPipeline.AnswerQuery`: `k` is a natural number. The source passes any Python int to `LIMIT`; Postgres rejects a negative one, and the callers only use the default 5.
- Environment reading (`load_dotenv`, `os.getenv`) and logging: the Redis URL and the backend name are constructor parameters, defaulting to the values the source uses when the variables are unset.
- Concurrency between requests: each method call is one request running alone.
- The HTTP layer (app/main.py), authentication (app/auth.py), the front ends (web/app.js, ui/app.py) and the indexers are not part of this model. Of the indexers, only the tag formats are used: `"Wikipedia:<page>"` in `Retrieval.WikipediaTagged`, and the basename of a `*.pdf` file in `Retrieval.PdfTagged`.
