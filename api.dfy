/** The class `SolrPower_Api` and the host services it writes to: the debug
    log, the query pipeline, the statistics cache, ping and the throttled
    schema check. Each network exchange is recorded in the ghost trace `sent`
    and its answer is an input (an oracle). */
module SolrPower {
  import opened Php
  import opened Connection
  import opened QueryShaping
  import opened Schema

  /** A value stored in the debug log. */
  datatype LogValue = Text(text: string) | Number(number: int) | List(items: seq<string>) | Null

  /** A `Solarium\Exception\HttpException`: its code and message. */
  datatype HttpError = HttpError(code: int, message: string)

  /** The outcome of `$solr->ping()`: success, or an `HttpException`. */
  datatype PingOutcome = PingOk | PingFailed(error: HttpError)

  /** A network exchange the plugin starts. */
  datatype Request =
    | SelectSent(endpoint: Endpoint, query: SelectQuery)
    | PingSent(endpoint: Endpoint)
    | UploadSent(upload: UploadRequest)

  /** The index service's answer to a select query. */
  type Server = SelectQuery -> SelectOutcome

  /** What the host application supplies: environment lookups, plugin options
      (`solr_options()`), the non-builtin taxonomies (`get_taxonomies`), the
      searchable post types (`get_post_types`), the files that exist, and the
      message of `SolrPower::sanity_check()` ("" when it passes). */
  datatype Site = Site(
    env: HostEnv,
    settings: Settings,
    taxonomies: seq<string>,
    postTypes: seq<string>,
    files: set<string>,
    sanityMessage: string
  )

  type Stats = map<string, int>

  datatype CacheKey = CacheKey(key: string, group: string)
  datatype CacheEntry = CacheEntry(stats: Stats, ttl: nat)
  datatype Transient = Transient(value: string, ttl: nat)

  const StatsCacheKey := CacheKey("solr_index_stats", "solr")
  const CacheTtl := 300
  const SchemaCheckName := "schema_check"

  /** The object cache (`wp_cache_get` / `wp_cache_set`); entries past their
      TTL are taken to be gone already. */
  class ObjectCache {
    var entries: map<CacheKey, CacheEntry>

    constructor ()
      ensures entries == map[]
    {
      entries := map[];
    }

    /** `wp_cache_get`: the stored value, or None for `false`. */
    function Get(k: CacheKey): Option<Stats>
      reads this
    {
      if k in entries then Some(entries[k].stats) else None
    }

    method Set(k: CacheKey, stats: Stats, ttl: nat)
      modifies this
      ensures entries == old(entries)[k := CacheEntry(stats, ttl)]
    {
      entries := entries[k := CacheEntry(stats, ttl)];
    }
  }

  /** The transient store (`get_transient` / `set_transient`). */
  class TransientStore {
    var entries: map<string, Transient>

    constructor ()
      ensures entries == map[]
    {
      entries := map[];
    }

    /** `get_transient`: the stored value, or None for `false`. */
    function Get(name: string): Option<string>
      reads this
    {
      if name in entries then Some(entries[name].value) else None
    }

    method Set(name: string, value: string, ttl: nat)
      modifies this
      ensures entries == old(entries)[name := Transient(value, ttl)]
    {
      entries := entries[name := Transient(value, ttl)];
    }
  }

  // ------------------------------------------------------------------ log

  /** `array_merge` of two string-keyed arrays: every key of either, the
      item's value where the item has the key, the old value elsewhere. */
  function Merged(log: map<string, LogValue>, item: map<string, LogValue>): (r: map<string, LogValue>)
    ensures r.Keys == log.Keys + item.Keys
    ensures forall k :: k in item ==> r[k] == item[k]
    ensures forall k :: k in log && k !in item ==> r[k] == log[k]
  {
    log + item
  }

  /** Merging an item whose keys the next item covers has no lasting effect. */
  lemma MergeShadowed(log: map<string, LogValue>, a: map<string, LogValue>, b: map<string, LogValue>)
    requires a.Keys <= b.Keys
    ensures Merged(Merged(log, a), b) == Merged(log, b)
  {
    var l := Merged(Merged(log, a), b);
    var r := Merged(log, b);
    assert l.Keys == r.Keys;
    forall k | k in l ensures l[k] == r[k] {
      if k !in b {
        assert k !in a;
      }
    }
  }

  /** The six request fields `master_query` logs. */
  function RequestLog(qry: string, offset: int, count: int, fq: Option<seq<string>>, sortBy: string, order: string): map<string, LogValue> {
    map[
      "Search Query" := Text(qry),
      "Offset" := Number(offset),
      "Count" := Number(count),
      "fq" := (if fq.Some? then List(fq.value) else Null),
      "Sort By" := Text(sortBy),
      "Order" := Text(order)
    ]
  }

  // ------------------------------------------------------------ the answers

  /** What `master_query` returns for a client (or none) and the server's answer. */
  function Answer(client: Option<Endpoint>, server: Server, select: SelectQuery): Option<Response> {
    if client.Some? then Interpret(server(select)) else None
  }

  /** The selects issued: one when there is a client, none otherwise. */
  function SelectsSent(client: Option<Endpoint>, select: SelectQuery): seq<Request> {
    if client.Some? then [SelectSent(client.value, select)] else []
  }

  /** The query `fetch_stat` runs for a post type. */
  function StatSelect(site: Site, postType: string): SelectQuery {
    SelectFor("post_type:" + postType, 0, 1, Some([]), "score", "desc", site.settings, site.taxonomies)
  }

  function StatLog(postType: string): map<string, LogValue> {
    RequestLog("post_type:" + postType, 0, 1, Some([]), "score", "desc")
  }

  /** `fetch_stat`'s mapping of an answer to a count: no answer counts 0. */
  function CountOf(answer: Option<Response>): (n: nat)
    ensures answer.None? ==> n == 0
    ensures answer.Some? ==> n == answer.value.numFound
  {
    match answer
    case None => 0
    case Some(response) => response.numFound
  }

  function StatCount(site: Site, server: Server, postType: string): nat {
    CountOf(Answer(Connect(site.env), server, StatSelect(site, postType)))
  }

  /** The statistics for `postTypes`, entered one post type after the other. */
  function StatsFor(site: Site, server: Server, postTypes: seq<string>): Stats
  {
    if postTypes == [] then map[]
    else
      var last := postTypes[|postTypes| - 1];
      StatsFor(site, server, postTypes[..|postTypes| - 1])[last := StatCount(site, server, last)]
  }

  /** The statistics hold one entry per post type, and that entry is the type's count. */
  lemma {:induction false} StatsForMeaning(site: Site, server: Server, postTypes: seq<string>)
    ensures StatsFor(site, server, postTypes).Keys == set t | t in postTypes
    ensures forall t :: t in postTypes ==> StatsFor(site, server, postTypes)[t] == StatCount(site, server, t)
  {
    if postTypes != [] {
      var init := postTypes[..|postTypes| - 1];
      var last := postTypes[|postTypes| - 1];
      assert postTypes == init + [last];
      StatsForMeaning(site, server, init);
    }
  }

  /** The selects a cache miss issues, one post type after the other. */
  function StatSelects(site: Site, postTypes: seq<string>): seq<Request>
  {
    if postTypes == [] then []
    else StatSelects(site, postTypes[..|postTypes| - 1]) + SelectsSent(Connect(site.env), StatSelect(site, postTypes[|postTypes| - 1]))
  }

  /** Exactly one select per post type, in order, when a client exists; none without one. */
  lemma {:induction false} StatSelectsMeaning(site: Site, postTypes: seq<string>)
    ensures Connect(site.env).None? ==> StatSelects(site, postTypes) == []
    ensures Connect(site.env).Some? ==>
      && |StatSelects(site, postTypes)| == |postTypes|
      && forall i :: 0 <= i < |postTypes| ==>
           StatSelects(site, postTypes)[i] == SelectSent(Connect(site.env).value, StatSelect(site, postTypes[i]))
  {
    if postTypes != [] {
      var init := postTypes[..|postTypes| - 1];
      StatSelectsMeaning(site, init);
    }
  }

  /** The log after logging the stat requests of `postTypes` in turn: only the last one shows. */
  function LogAfterStats(log: map<string, LogValue>, postTypes: seq<string>): map<string, LogValue> {
    if postTypes == [] then log else Merged(log, StatLog(postTypes[|postTypes| - 1]))
  }

  /** The client remembered after connecting once per post type. */
  function SolrAfterStats(solr: Option<Endpoint>, env: HostEnv, postTypes: seq<string>): Option<Endpoint> {
    if postTypes != [] && Connect(env).Some? then Connect(env) else solr
  }

  /** One more post type: one more entry, one more select, one more logged request. */
  lemma StatsStep(site: Site, server: Server, log: map<string, LogValue>, solr: Option<Endpoint>, types: seq<string>, i: nat)
    requires i < |types|
    ensures StatsFor(site, server, types[..i + 1]) == StatsFor(site, server, types[..i])[types[i] := StatCount(site, server, types[i])]
    ensures StatSelects(site, types[..i + 1]) == StatSelects(site, types[..i]) + SelectsSent(Connect(site.env), StatSelect(site, types[i]))
    ensures LogAfterStats(log, types[..i + 1]) == Merged(LogAfterStats(log, types[..i]), StatLog(types[i]))
    ensures SolrAfterStats(solr, site.env, types[..i + 1]) ==
      (if Connect(site.env).Some? then Connect(site.env) else SolrAfterStats(solr, site.env, types[..i]))
  {
    assert types[..i + 1][..i] == types[..i];
    if i > 0 {
      MergeShadowed(log, StatLog(types[i - 1]), StatLog(types[i]));
    }
  }

  /** A stat query is of count 1 at offset 0, with no filters, sorted by score. */
  lemma StatSelectShape(site: Site, postType: string)
    ensures var q := StatSelect(site, postType);
      q.query == "post_type:" + postType && q.start == 0 && q.rows == 1 && q.filters == [] && q.sort == Sort("score", "desc")
  {
    SelectShape("post_type:" + postType, 0, 1, Some([]), "score", "desc", site.settings, site.taxonomies);
  }

  // --------------------------------------------------------------- the class

  class SolrPowerApi {
    var log: map<string, LogValue>
    var solr: Option<Endpoint>
    var lastCode: Option<int>
    var lastError: Option<HttpError>
    /** Every network exchange started so far, in order. */
    ghost var sent: seq<Request>

    constructor ()
      ensures log == map[] && solr == None && lastCode == None && lastError == None && sent == []
    {
      log := map[];
      solr := None;
      lastCode := None;
      lastError := None;
      sent := [];
    }

    /** `add_log`. */
    method AddLog(item: map<string, LogValue>)
      modifies this`log
      ensures log == Merged(old(log), item)
    {
      log := log + item;
    }

    /** `get_solr`: the client, or None when host, port or path is falsy; a
        client built is remembered in `solr`. */
    method GetSolr(env: HostEnv) returns (client: Option<Endpoint>)
      modifies this`solr
      ensures client == Connect(env)
      ensures solr == if client.Some? then client else old(solr)
    {
      var endpoint := EndpointFor(env);
      if !(TruthyOpt(endpoint.host) && TruthyOpt(endpoint.port) && Truthy(endpoint.path)) {
        return None;
      }
      client := Some(endpoint);
      solr := client;
    }

    /** `master_query`: log the request, build the facet list, and, with a
        client, send the select and keep its response unless the select threw
        or the status code is falsy. */
    method MasterQuery(client: Option<Endpoint>, server: Server, qry: string, offset: int, count: int,
                       fq: Option<seq<string>>, sortBy: string, order: string,
                       settings: Settings, taxonomies: seq<string>) returns (response: Option<Response>)
      modifies this`log, this`sent
      ensures log == Merged(old(log), RequestLog(qry, offset, count, fq, sortBy, order))
      ensures client.None? ==> response == None && sent == old(sent)
      ensures client.Some? ==>
        var select := SelectFor(qry, offset, count, fq, sortBy, order, settings, taxonomies);
        && sent == old(sent) + [SelectSent(client.value, select)]
        && response == Interpret(server(select))
    {
      AddLog(RequestLog(qry, offset, count, fq, sortBy, order));
      response := None;
      var facetFields := CollectFacetFields(settings, taxonomies);
      if client.Some? {
        var filters := CollectFilterQueries(fq);
        var select := SelectQuery(qry, "*,score", offset, count, false, SortFor(sortBy, order),
                                  FacetSetFor(facetFields, settings), filters,
                                  PostContentHighlighting, settings.defaultOperator);
        sent := sent + [SelectSent(client.value, select)];
        var outcome := server(select);
        match outcome
        case Threw =>
          response := None;
        case Responded(r) =>
          response := Some(r);
          if DiscardsResponse(r.statusCode) {
            response := None;
          }
      }
    }

    /** `query`: connect, then `master_query` with the site's options. */
    method Query(site: Site, server: Server, qry: string, offset: int, count: int,
                 fq: Option<seq<string>>, sortBy: string, order: string) returns (response: Option<Response>)
      modifies this`log, this`sent, this`solr
      ensures response == Answer(Connect(site.env), server, SelectFor(qry, offset, count, fq, sortBy, order, site.settings, site.taxonomies))
      ensures log == Merged(old(log), RequestLog(qry, offset, count, fq, sortBy, order))
      ensures sent == old(sent) + SelectsSent(Connect(site.env), SelectFor(qry, offset, count, fq, sortBy, order, site.settings, site.taxonomies))
      ensures solr == if Connect(site.env).Some? then Connect(site.env) else old(solr)
    {
      var client := GetSolr(site.env);
      response := MasterQuery(client, server, qry, offset, count, fq, sortBy, order, site.settings, site.taxonomies);
    }

    /** `fetch_stat`: the number of documents of one post type, 0 when the query gives nothing. */
    method FetchStat(site: Site, server: Server, postType: string) returns (n: int)
      modifies this`log, this`sent, this`solr
      ensures n == StatCount(site, server, postType)
      ensures log == Merged(old(log), StatLog(postType))
      ensures sent == old(sent) + SelectsSent(Connect(site.env), StatSelect(site, postType))
      ensures solr == if Connect(site.env).Some? then Connect(site.env) else old(solr)
    {
      var search := Query(site, server, "post_type:" + postType, 0, 1, Some([]), "score", "desc");
      if search.None? {
        return 0;
      }
      n := search.value.numFound;
    }

    /** `index_stats`: on a cache hit the cached map, with nothing sent; on a
        miss one stat query per post type, the map stored for 300 seconds. */
    method IndexStats(cache: ObjectCache, site: Site, server: Server) returns (stats: Stats)
      modifies this`log, this`sent, this`solr, cache
      ensures old(cache.Get(StatsCacheKey)).Some? ==>
        && stats == old(cache.Get(StatsCacheKey)).value
        && cache.entries == old(cache.entries)
        && log == old(log) && sent == old(sent) && solr == old(solr)
      ensures old(cache.Get(StatsCacheKey)).None? ==>
        && stats == StatsFor(site, server, site.postTypes)
        && cache.entries == old(cache.entries)[StatsCacheKey := CacheEntry(stats, CacheTtl)]
        && sent == old(sent) + StatSelects(site, site.postTypes)
        && log == LogAfterStats(old(log), site.postTypes)
        && solr == SolrAfterStats(old(solr), site.env, site.postTypes)
    {
      var cached := cache.Get(StatsCacheKey);
      if cached.Some? {
        return cached.value;
      }
      stats := FetchStats(site, server, site.postTypes);
      cache.Set(StatsCacheKey, stats, CacheTtl);
    }

    /** The loop of `index_stats`: `fetch_stat` for each post type in turn. */
    method FetchStats(site: Site, server: Server, types: seq<string>) returns (stats: Stats)
      modifies this`log, this`sent, this`solr
      ensures stats == StatsFor(site, server, types)
      ensures sent == old(sent) + StatSelects(site, types)
      ensures log == LogAfterStats(old(log), types)
      ensures solr == SolrAfterStats(old(solr), site.env, types)
    {
      stats := map[];
      var i := 0;
      while i < |types|
        invariant 0 <= i <= |types|
        invariant stats == StatsFor(site, server, types[..i])
        invariant sent == old(sent) + StatSelects(site, types[..i])
        invariant log == LogAfterStats(old(log), types[..i])
        invariant solr == SolrAfterStats(old(solr), site.env, types[..i])
      {
        StatsStep(site, server, old(log), old(solr), types, i);
        var n := FetchStat(site, server, types[i]);
        stats := stats[types[i] := n];
        i := i + 1;
      }
      assert types[..|types|] == types;
    }

    /** `ping_server`: without a client nothing happens; otherwise a ping is
        sent, success records code 200, an `HttpException` records its code
        and the exception. */
    method PingServer(env: HostEnv, ping: PingOutcome) returns (ok: bool)
      modifies this`solr, this`lastCode, this`lastError, this`sent
      ensures ok <==> Connect(env).Some? && ping.PingOk?
      ensures solr == if Connect(env).Some? then Connect(env) else old(solr)
      ensures Connect(env).None? ==> lastCode == old(lastCode) && lastError == old(lastError) && sent == old(sent)
      ensures Connect(env).Some? ==> sent == old(sent) + [PingSent(Connect(env).value)]
      ensures Connect(env).Some? && ping.PingOk? ==> lastCode == Some(200) && lastError == old(lastError)
      ensures Connect(env).Some? && ping.PingFailed? ==> lastCode == Some(ping.error.code) && lastError == Some(ping.error)
    {
      var client := GetSolr(env);
      if client.None? {
        return false;
      }
      sent := sent + [PingSent(client.value)];
      match ping
      case PingOk =>
        lastCode := Some(200);
        ok := true;
      case PingFailed(e) =>
        lastCode := Some(e.code);
        lastError := Some(e);
        ok := false;
    }

    /** `submit_schema`: the upload is sent only when every preflight check passes. */
    method SubmitSchema(site: Site, uploadStatus: nat) returns (message: string)
      modifies this`sent
      ensures var s := Submit(site.env, site.files, site.sanityMessage, uploadStatus);
        && message == s.message
        && sent == old(sent) + (if s.upload.Some? then [UploadSent(s.upload.value)] else [])
    {
      var submission := Submit(site.env, site.files, site.sanityMessage, uploadStatus);
      if submission.upload.Some? {
        sent := sent + [UploadSent(submission.upload.value)];
      }
      message := submission.message;
    }

    /** `check_for_schema`: nothing while the `schema_check` transient is set
        or outside the hosting environment; otherwise ping, submit the schema
        only when the last code is exactly 404, show the notice when the
        message holds "Error" past offset 0, and set the transient for 300
        seconds whatever happened. `notice` says whether the notice was shown. */
    method CheckForSchema(transients: TransientStore, site: Site, ping: PingOutcome, uploadStatus: nat)
      returns (notice: bool)
      modifies this`solr, this`lastCode, this`lastError, this`sent, transients
      ensures old(transients.Get(SchemaCheckName)).Some? || site.env.environment.None? ==>
        && !notice
        && transients.entries == old(transients.entries)
        && sent == old(sent) && lastCode == old(lastCode) && lastError == old(lastError) && solr == old(solr)
      ensures old(transients.Get(SchemaCheckName)).None? && site.env.environment.Some? ==>
        var s := Submit(site.env, site.files, site.sanityMessage, uploadStatus);
        var pinged := old(sent) + (if Connect(site.env).Some? then [PingSent(Connect(site.env).value)] else []);
        && transients.entries == old(transients.entries)[SchemaCheckName := Transient("1", CacheTtl)]
        && solr == (if Connect(site.env).Some? then Connect(site.env) else old(solr))
        && (Connect(site.env).None? ==> lastCode == old(lastCode) && lastError == old(lastError))
        && (Connect(site.env).Some? && ping.PingOk? ==> lastCode == Some(200) && lastError == old(lastError))
        && (Connect(site.env).Some? && ping.PingFailed? ==> lastCode == Some(ping.error.code) && lastError == Some(ping.error))
        && (lastCode != Some(404) ==> sent == pinged && !notice)
        && (lastCode == Some(404) ==>
              && sent == pinged + (if s.upload.Some? then [UploadSent(s.upload.value)] else [])
              && notice == NoticeShown(s.message))
    {
      notice := false;
      var lastCheck := transients.Get(SchemaCheckName);
      if lastCheck.None? {
        if site.env.environment.Some? {
          var _ := PingServer(site.env, ping);
          if lastCode == Some(404) {
            var message := SubmitSchema(site, uploadStatus);
            notice := NoticeShown(message);
          }
          transients.Set(SchemaCheckName, "1", CacheTtl);
        }
      }
    }
  }

  // ------------------------------------------------- properties over two calls

  /** A second `index_stats` right after the first answers the same map and sends nothing. */
  method RepeatedIndexStats(api: SolrPowerApi, cache: ObjectCache, site: Site, server: Server)
    returns (first: Stats, second: Stats)
    modifies api, cache
    ensures second == first
    ensures old(cache.Get(StatsCacheKey)).None? ==> api.sent == old(api.sent) + StatSelects(site, site.postTypes)
    ensures old(cache.Get(StatsCacheKey)).Some? ==> api.sent == old(api.sent)
  {
    first := api.IndexStats(cache, site, server);
    second := api.IndexStats(cache, site, server);
  }

  /** Within the 300 seconds after a schema check in the hosting environment,
      the next check sends nothing, changes no code and shows no notice. */
  method RepeatedSchemaCheck(api: SolrPowerApi, transients: TransientStore, site: Site,
                             ping: PingOutcome, uploadStatus: nat)
    returns (secondNotice: bool, ghost sentAfterFirst: seq<Request>, ghost codeAfterFirst: Option<int>)
    modifies api, transients
    ensures site.env.environment.Some? ==>
      !secondNotice && api.sent == sentAfterFirst && api.lastCode == codeAfterFirst
    ensures site.env.environment.Some? ==> transients.Get(SchemaCheckName).Some?
  {
    var _ := api.CheckForSchema(transients, site, ping, uploadStatus);
    sentAfterFirst, codeAfterFirst := api.sent, api.lastCode;
    secondNotice := api.CheckForSchema(transients, site, ping, uploadStatus);
  }
}
