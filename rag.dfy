/**
  answer_query: embed the question, look the answer up in Redis, otherwise
  retrieve the nearest chunks, build the context and the prompt, ask the
  language model, cache the answer for 600 seconds and return it.

  AnswerSpec is the whole effect of one request as a function of the
  collaborators, the configuration and the cache contents; the class
  RagPipeline runs the same steps imperatively against a RedisCache object
  and is proved to agree with it. The lemmas below AnswerSpec state what a
  request does to the cache and which collaborators it calls.
*/
module Rag {
  import opened Wrappers
  import opened Interfaces
  import opened CacheKeys
  import opened Retrieval
  import opened Assembly

  const CacheTtl: nat := 600
  const DefaultK: nat := 5
  const AllSources: string := "all"
  const DefaultRedisUrl: string := "redis://redis:6379/0"

  /** `None if source == "all" else source` */
  function ResolveFilter(source: string): (filter: Option<string>)
    ensures filter.None? <==> source == AllSources
    ensures filter.Some? ==> filter.value == source
  {
    if source == AllSources then None else Some(source)
  }

  /** `redis_client.get(key)`: the stored payload, or nothing. Expiry is not modelled. */
  function Lookup(cache: map<string, Entry>, key: string): (cached: Option<string>)
    ensures cached.Some? <==> key in cache
    ensures cached.Some? ==> cached.value == cache[key].value
  {
    if key in cache then Some(cache[key].value) else None
  }

  /** `if cached:` a payload is used only when it is present and not the empty byte string. */
  predicate IsHit(cached: Option<string>): (hit: bool)
    ensures hit ==> cached.Some? && cached.value != ""
    ensures cached.Some? && cached.value != "" ==> hit
  {
    cached.Some? && |cached.value| > 0
  }

  /** `json.loads(cached)` */
  function DecodeCached(decode: string -> Option<AnswerRecord>, payload: string): (r: Result<AnswerRecord, Error>)
    ensures r.Ok? <==> decode(payload).Some?
    ensures r.Ok? ==> r.value == decode(payload).value
    ensures r.Err? ==> r.error == DecodeFailure
  {
    match decode(payload)
    case Some(a) => Ok(a)
    case None => Err(DecodeFailure)
  }

  /** `redis.from_url(REDIS_URL) if REDIS_URL else None`: a client exists exactly when the URL is non-empty. */
  function CacheConfigured(redisUrl: string): (on: bool)
    ensures on <==> |redisUrl| > 0
  {
    redisUrl != ""
  }

  /** With REDIS_URL unset the default URL is used, so the cache is on unless the variable is set to "". */
  lemma DefaultRedisUrlEnablesCache()
    ensures CacheConfigured(DefaultRedisUrl)
    ensures !CacheConfigured("")
  {
  }

  /** What one request returns, the cache afterwards, how many connections it leaves open, and the calls made. */
  datatype Outcome = Outcome(reply: Result<AnswerRecord, Error>, cache: map<string, Entry>, leaks: nat, calls: seq<Call>)

  /** A request is answered from the cache: a client exists and holds a truthy payload under the key. */
  predicate ServedFromCache(p: Providers, cacheOn: bool, cache: map<string, Entry>, question: string, source: string)
  {
    cacheOn && IsHit(Lookup(cache, CacheKey(p.digest, source, question)))
  }

  /**
    answer_query(question, source, k), step by step. Whatever happens, the
    request's own key is the only cache entry it can change (and only to the
    encoded answer of a successful request, with TTL 600), at most one
    connection is left open, and the embedding is the first call.
  */
  function AnswerSpec(p: Providers, backend: string, cacheOn: bool, cache: map<string, Entry>,
                      question: string, source: string, k: nat): (out: Outcome)
    ensures |out.calls| > 0 && out.calls[0] == Embed(question)
    ensures out.leaks <= 1
    ensures out.cache == cache ||
      (cacheOn && out.reply.Ok? &&
       out.cache == cache[CacheKey(p.digest, source, question) := Entry(p.encode(out.reply.value), CacheTtl)])
    ensures !cacheOn || out.reply.Err? ==> out.cache == cache
  {
    match p.embed(question)
    case None => Outcome(Err(ProviderFailure), cache, 0, [Embed(question)])
    case Some(probe) =>
      var key := CacheKey(p.digest, source, question);
      var lookup := if cacheOn then [CacheGet(key)] else [];
      if ServedFromCache(p, cacheOn, cache, question, source) then
        Outcome(DecodeCached(p.decode, Lookup(cache, key).value), cache, 0, [Embed(question)] + lookup)
      else
        var got := Retrieve(p.query, backend, probe, k, ResolveFilter(source));
        var before := [Embed(question)] + lookup + got.calls;
        var leaks := if got.leaks then 1 else 0;
        match got.rows
        case Err(e) => Outcome(Err(e), cache, leaks, before)
        case Ok(rows) =>
          var prompt := Prompt(Context(rows), question);
          match p.generate(prompt)
          case None => Outcome(Err(ProviderFailure), cache, leaks, before + [Generate(prompt)])
          case Some(answer) =>
            var record := AnswerRecord(answer, Sources(rows));
            if cacheOn then
              var payload := p.encode(record);
              Outcome(Ok(record), cache[key := Entry(payload, CacheTtl)], leaks,
                      before + [Generate(prompt), CacheSetEx(key, CacheTtl, payload)])
            else
              Outcome(Ok(record), cache, leaks, before + [Generate(prompt)])
  }

  /** The question is embedded first on every request, cache hit or not. */
  lemma EmbedsFirst(p: Providers, backend: string, cacheOn: bool, cache: map<string, Entry>,
                    question: string, source: string, k: nat)
    ensures var out := AnswerSpec(p, backend, cacheOn, cache, question, source, k);
      |out.calls| > 0 && out.calls[0] == Embed(question)
      && forall i :: 0 < i < |out.calls| ==> !out.calls[i].Embed?
  {
  }

  /**
    On a hit the decoded payload is returned unchanged, the cache is not
    touched, and besides the lookup only the embedder was called.
  */
  lemma CacheHitShortCircuit(p: Providers, backend: string, cache: map<string, Entry>,
                             question: string, source: string, k: nat)
    requires p.embed(question).Some?
    requires ServedFromCache(p, true, cache, question, source)
    ensures var key := CacheKey(p.digest, source, question);
      var out := AnswerSpec(p, backend, true, cache, question, source, k);
      && out.reply == DecodeCached(p.decode, cache[key].value)
      && out.cache == cache
      && out.leaks == 0
      && out.calls == [Embed(question), CacheGet(key)]
  {
  }

  /**
    On a miss against Postgres that fetches `rows`, the answer is the model's
    output for the fixed prompt over those rows with their tags as sources;
    with a client the encoded answer is stored under the key with TTL 600,
    and without one nothing is read or written.
  */
  lemma MissAnswered(p: Providers, cacheOn: bool, cache: map<string, Entry>,
                     question: string, source: string, k: nat,
                     probe: Vector, rows: seq<Row>, answer: string)
    requires !ServedFromCache(p, cacheOn, cache, question, source)
    requires p.embed(question) == Some(probe)
    requires p.query(probe, ResolveFilter(source), k) == Fetched(rows)
    requires p.generate(Prompt(Context(rows), question)) == Some(answer)
    ensures var key := CacheKey(p.digest, source, question);
      var out := AnswerSpec(p, PgBackend, cacheOn, cache, question, source, k);
      var record := AnswerRecord(answer, Sources(rows));
      var fetch := [Connect, Execute(ResolveFilter(source), k), Close, Generate(Prompt(Context(rows), question))];
      && out.reply == Ok(record)
      && out.leaks == 0
      && (cacheOn ==> out.cache == cache[key := Entry(p.encode(record), CacheTtl)])
      && (cacheOn ==> out.calls == [Embed(question), CacheGet(key)] + fetch + [CacheSetEx(key, CacheTtl, p.encode(record))])
      && (!cacheOn ==> out.cache == cache && out.calls == [Embed(question)] + fetch)
  {
  }

  /** A request that fails caches nothing: neither the cache nor any write call is produced. */
  lemma FailureCachesNothing(p: Providers, backend: string, cacheOn: bool, cache: map<string, Entry>,
                             question: string, source: string, k: nat)
    ensures var out := AnswerSpec(p, backend, cacheOn, cache, question, source, k);
      out.reply.Err? ==> out.cache == cache && forall i :: 0 <= i < |out.calls| ==> !out.calls[i].CacheSetEx?
  {
  }

  /** Without a client the cache is never read or written. */
  lemma NoClientNoCaching(p: Providers, backend: string, cache: map<string, Entry>,
                          question: string, source: string, k: nat)
    ensures var out := AnswerSpec(p, backend, false, cache, question, source, k);
      && out.cache == cache
      && forall i :: 0 <= i < |out.calls| ==> !out.calls[i].CacheGet? && !out.calls[i].CacheSetEx?
  {
  }

  /**
    Any backend but "pgvector" fails with NotImplemented on a miss, before
    generation, without touching the database or writing the cache.
  */
  lemma UnsupportedBackendFails(p: Providers, backend: string, cacheOn: bool, cache: map<string, Entry>,
                                question: string, source: string, k: nat)
    requires backend != PgBackend
    requires p.embed(question).Some?
    requires !ServedFromCache(p, cacheOn, cache, question, source)
    ensures var out := AnswerSpec(p, backend, cacheOn, cache, question, source, k);
      && out.reply == Err(NotImplemented(MongoUnsupported))
      && out.cache == cache
      && out.leaks == 0
      && out.calls == [Embed(question)] + (if cacheOn then [CacheGet(CacheKey(p.digest, source, question))] else [])
  {
  }

  /** Only a failure after the connection is open (setup or query) leaves a connection open. */
  lemma LeakOnlyAfterConnect(p: Providers, backend: string, cacheOn: bool, cache: map<string, Entry>,
                               question: string, source: string, k: nat)
    ensures var out := AnswerSpec(p, backend, cacheOn, cache, question, source, k);
      && out.leaks <= 1
      && (out.leaks == 1 <==>
            && backend == PgBackend
            && p.embed(question).Some?
            && !ServedFromCache(p, cacheOn, cache, question, source)
            && (p.query(p.embed(question).value, ResolveFilter(source), k).SetupFailed? ||
                p.query(p.embed(question).value, ResolveFilter(source), k).QueryFailed?))
      && (out.leaks == 1 ==> out.reply == Err(StoreFailure))
  {
  }

  /**
    Against a lawful store, an answer computed on a miss lists at most k
    sources, and all of them equal the filter when the source is not "all".
  */
  lemma MissSourcesBounded(p: Providers, table: seq<Chunk>, dist: (Vector, Vector) -> real,
                           backend: string, cacheOn: bool, cache: map<string, Entry>,
                           question: string, source: string, k: nat)
    requires LawfulStore(p.query, table, dist)
    requires !ServedFromCache(p, cacheOn, cache, question, source)
    ensures var out := AnswerSpec(p, backend, cacheOn, cache, question, source, k);
      out.reply.Ok? ==>
        && |out.reply.value.sources| <= k
        && (source != AllSources ==>
              forall i :: 0 <= i < |out.reply.value.sources| ==> out.reply.value.sources[i] == source)
  {
    match p.embed(question)
    case None =>
    case Some(probe) =>
      PgRetrieveNearestFirst(p.query, table, dist, probe, k, ResolveFilter(source));
  }

  /**
    Two identical successive requests with a client, JSON round-tripping: the
    second returns the first's answer from the cache, leaves the cache as the
    first left it, and calls only the embedder and the cache lookup.
  */
  lemma RepeatedRequestServedFromCache(p: Providers, backend: string, cache: map<string, Entry>,
                                       question: string, source: string, k: nat)
    requires CodecRoundTrips(p.encode, p.decode)
    ensures var first := AnswerSpec(p, backend, true, cache, question, source, k);
      var second := AnswerSpec(p, backend, true, first.cache, question, source, k);
      first.reply.Ok? ==>
        && second.reply == first.reply
        && second.cache == first.cache
        && second.leaks == 0
        && second.calls == [Embed(question), CacheGet(CacheKey(p.digest, source, question))]
  {
    var first := AnswerSpec(p, backend, true, cache, question, source, k);
    if first.reply.Ok? && !ServedFromCache(p, true, cache, question, source) {
      var key := CacheKey(p.digest, source, question);
      var payload := p.encode(first.reply.value);
      assert first.cache == cache[key := Entry(payload, CacheTtl)];
      assert p.decode(payload) == Some(first.reply.value);
    }
  }

  /**
    Any later request whose cache key equals that of a successful request is
    answered with the first reply, whatever its own k, backend or filter: the
    key covers only source and question, and those only through the basis.
  */
  lemma SameKeySameReply(p: Providers, backend1: string, backend2: string, cache: map<string, Entry>,
                         q1: string, s1: string, k1: nat, q2: string, s2: string, k2: nat)
    requires CodecRoundTrips(p.encode, p.decode)
    requires p.embed(q2).Some?
    requires CacheKey(p.digest, s1, q1) == CacheKey(p.digest, s2, q2)
    ensures var first := AnswerSpec(p, backend1, true, cache, q1, s1, k1);
      first.reply.Ok? ==> AnswerSpec(p, backend2, true, first.cache, q2, s2, k2).reply == first.reply
  {
    var first := AnswerSpec(p, backend1, true, cache, q1, s1, k1);
    if first.reply.Ok? && !ServedFromCache(p, true, cache, q1, s1) {
      var key := CacheKey(p.digest, s1, q1);
      var payload := p.encode(first.reply.value);
      assert first.cache == cache[key := Entry(payload, CacheTtl)];
      assert p.decode(payload) == Some(first.reply.value);
    }
  }

  /**
    k is not part of the key: an answer computed with LIMIT k1 is returned
    unchanged to a request with any other k2, so the cap of k2 sources holds
    only for misses.
  */
  lemma CacheIgnoresK(p: Providers, backend: string, cache: map<string, Entry>,
                      question: string, source: string, k1: nat, k2: nat)
    requires CodecRoundTrips(p.encode, p.decode)
    requires p.embed(question).Some?
    ensures var first := AnswerSpec(p, backend, true, cache, question, source, k1);
      first.reply.Ok? ==> AnswerSpec(p, backend, true, first.cache, question, source, k2).reply == first.reply
  {
    SameKeySameReply(p, backend, backend, cache, question, source, k1, question, source, k2);
  }

  /**
    A colon in a Wikipedia tag lets a request under the filter "Wikipedia"
    share its key with one under "Wikipedia:France"; the second then returns
    the first's sources, which against a lawful store are all
    "Wikipedia:France", not the requested filter.
  */
  lemma CollisionCrossesFilter(p: Providers, table: seq<Chunk>, dist: (Vector, Vector) -> real,
                               backend: string, cache: map<string, Entry>, k: nat)
    requires CodecRoundTrips(p.encode, p.decode)
    requires LawfulStore(p.query, table, dist)
    requires p.embed("France:q").Some?
    ensures var first := AnswerSpec(p, backend, true, cache, "q", "Wikipedia:France", k);
      var second := AnswerSpec(p, backend, true, first.cache, "France:q", "Wikipedia", k);
      && (first.reply.Ok? ==> second.reply == first.reply)
      && (first.reply.Ok? && !ServedFromCache(p, true, cache, "q", "Wikipedia:France") ==>
            forall i :: 0 <= i < |second.reply.value.sources| ==> second.reply.value.sources[i] == "Wikipedia:France")
  {
    assert KeyBasis("Wikipedia:France", "q") == KeyBasis("Wikipedia", "France:q");
    SameKeySameReply(p, backend, backend, cache, "q", "Wikipedia:France", k, "France:q", "Wikipedia", k);
    if !ServedFromCache(p, true, cache, "q", "Wikipedia:France") {
      MissSourcesBounded(p, table, dist, backend, true, cache, "q", "Wikipedia:France", k);
    }
  }

  /** The Redis server: a map from key to stored payload and TTL. */
  class RedisCache {
    var entries: map<string, Entry>

    constructor (initial: map<string, Entry>)
      ensures entries == initial
    {
      entries := initial;
    }

    /** GET key */
    method Get(key: string) returns (value: Option<string>)
      ensures value.Some? <==> key in entries
      ensures value.Some? ==> value.value == entries[key].value
    {
      value := if key in entries then Some(entries[key].value) else None;
    }

    /** SETEX key ttl value: stores the payload and its TTL, and changes no other key. */
    method SetEx(key: string, ttl: nat, value: string)
      modifies this
      ensures entries == old(entries)[key := Entry(value, ttl)]
    {
      entries := entries[key := Entry(value, ttl)];
    }
  }

  /**
    The module-level state of the service: its collaborators, VECTOR_BACKEND,
    the redis client (null when REDIS_URL is empty), the database connections
    that pg_retrieve opened and did not close, and the calls made so far.
  */
  class RagPipeline {
    const providers: Providers
    const backend: string
    const redis: RedisCache?
    var openConnections: nat
    ghost var calls: seq<Call>

    constructor (providers: Providers, server: RedisCache,
                 redisUrl: string := DefaultRedisUrl, backend: string := PgBackend)
      ensures this.providers == providers && this.backend == backend
      ensures redis == (if CacheConfigured(redisUrl) then server else null)
      ensures openConnections == 0 && calls == []
    {
      this.providers := providers;
      this.backend := backend;
      redis := if CacheConfigured(redisUrl) then server else null;
      openConnections := 0;
      calls := [];
    }

    /** pg_retrieve(query_vec, k, source) */
    method PgRetrieve(probe: Vector, k: nat, filter: Option<string>) returns (rows: Result<seq<Row>, Error>)
      modifies this
      ensures var r := PgRetrieveSpec(providers.query, probe, k, filter);
        && rows == r.rows
        && openConnections == old(openConnections) + (if r.leaks then 1 else 0)
        && calls == old(calls) + r.calls
    {
      var outcome := providers.query(probe, filter, k);
      calls := calls + [Connect];
      if outcome.ConnectFailed? {
        return Err(StoreFailure);
      }
      openConnections := openConnections + 1;
      if outcome.SetupFailed? {
        return Err(StoreFailure);
      }
      calls := calls + [Execute(filter, k)];
      if outcome.QueryFailed? {
        return Err(StoreFailure);
      }
      calls := calls + [Close];
      openConnections := openConnections - 1;
      rows := Ok(outcome.rows);
    }

    /** answer_query(question, source="all", k=5) */
    method AnswerQuery(question: string, source: string := AllSources, k: nat := DefaultK)
      returns (r: Result<AnswerRecord, Error>)
      modifies this, redis
      ensures var out := AnswerSpec(providers, backend, redis != null,
                                    if redis != null then old(redis.entries) else map[],
                                    question, source, k);
        && r == out.reply
        && openConnections == old(openConnections) + out.leaks
        && calls == old(calls) + out.calls
        && (redis != null ==> redis.entries == out.cache)
    {
      ghost var cache0 := if redis != null then redis.entries else map[];
      ghost var calls0 := calls;
      calls := calls + [Embed(question)];
      var probe := providers.embed(question);
      if probe.None? {
        return Err(ProviderFailure);
      }

      var key := CacheKey(providers.digest, source, question);
      ghost var lookup := if redis != null then [CacheGet(key)] else [];
      if redis != null {
        calls := calls + [CacheGet(key)];
        var cached := redis.Get(key);
        if IsHit(cached) {
          return DecodeCached(providers.decode, cached.value);
        }
      }
      assert !ServedFromCache(providers, redis != null, cache0, question, source);
      assert calls == calls0 + [Embed(question)] + lookup;
      ghost var got := Retrieve(providers.query, backend, probe.value, k, ResolveFilter(source));

      var filter := ResolveFilter(source);
      var rows: Result<seq<Row>, Error>;
      if backend == PgBackend {
        rows := PgRetrieve(probe.value, k, filter);
      } else {
        rows := MongoRetrieve(probe.value, k);
      }
      assert rows == got.rows;
      assert calls == calls0 + [Embed(question)] + lookup + got.calls;
      if rows.Err? {
        return Err(rows.error);
      }

      var context := Context(rows.value);
      var sources := Sources(rows.value);
      var prompt := Prompt(context, question);
      calls := calls + [Generate(prompt)];
      var answer := providers.generate(prompt);
      if answer.None? {
        return Err(ProviderFailure);
      }
      var result := AnswerRecord(answer.value, sources);

      if redis != null {
        var payload := providers.encode(result);
        calls := calls + [CacheSetEx(key, CacheTtl, payload)];
        redis.SetEx(key, CacheTtl, payload);
      }
      r := Ok(result);
    }
  }

  /**
    Two identical requests on one pipeline with a client: once the first
    succeeds, the second returns the same answer and its only calls are the
    embedding and the cache lookup; the language model is not called again.
  */
  method AskTwice(pipeline: RagPipeline, question: string, source: string, k: nat)
    returns (first: Result<AnswerRecord, Error>, second: Result<AnswerRecord, Error>)
    requires pipeline.redis != null
    requires CodecRoundTrips(pipeline.providers.encode, pipeline.providers.decode)
    modifies pipeline, pipeline.redis
    ensures var out := AnswerSpec(pipeline.providers, pipeline.backend, true, old(pipeline.redis.entries),
                                  question, source, k);
      && first == out.reply
      && (first.Ok? ==>
            && second == first
            && pipeline.redis.entries == out.cache
            && pipeline.openConnections == old(pipeline.openConnections) + out.leaks
            && pipeline.calls == old(pipeline.calls) + out.calls
                                 + [Embed(question), CacheGet(CacheKey(pipeline.providers.digest, source, question))])
  {
    ghost var before := pipeline.redis.entries;
    first := pipeline.AnswerQuery(question, source, k);
    second := pipeline.AnswerQuery(question, source, k);
    RepeatedRequestServedFromCache(pipeline.providers, pipeline.backend, before, question, source, k);
  }
}
