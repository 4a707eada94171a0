/** The connection rules of `SolrPower_Api`: which remote path identifies this
    site's index, which scheme is used by default, and when a client may be
    built at all (`compute_path`, the scheme expression and the validity test
    of `get_solr`). */
module Connection {
  import opened Php

  /** The host-environment lookups the rules read. Each `Option` is None when
      PHP would see `false`: an unset environment variable, an undefined
      constant, a `realpath` that fails. */
  datatype HostEnv = HostEnv(
    indexHost: Option<string>,     // getenv('PANTHEON_INDEX_HOST')
    indexPort: Option<string>,     // getenv('PANTHEON_INDEX_PORT')
    environment: Option<string>,   // getenv('PANTHEON_ENVIRONMENT')
    solrPathConst: Option<string>, // the SOLR_PATH constant, when defined
    schemeConst: Option<string>,   // the SOLR_POWER_SCHEME constant, when defined
    clientCert: Option<string>,    // realpath(ABSPATH . '../certs/binding.pem')
    absPath: Option<string>,       // realpath(ABSPATH)
    fileMount: string,             // $_ENV['FILEMOUNT']
    pluginDir: string              // SOLR_POWER_PATH
  )

  /** The endpoint options handed to the Solarium client. */
  datatype Endpoint = Endpoint(
    host: Option<string>,
    port: Option<string>,
    scheme: string,
    path: string,
    localCert: Option<string>
  )

  const EnvironmentPathPrefix := "/sites/self/environments/"
  const EnvironmentPathSuffix := "/index"

  /** `compute_path`: the SOLR_PATH override wins; otherwise the hosting
      environment's index path, built around the environment's name (an unset
      environment contributes the empty string). */
  function ComputePath(env: HostEnv): (path: string)
    ensures env.solrPathConst.Some? ==> path == env.solrPathConst.value
    ensures env.solrPathConst.None? ==>
      && Truthy(path)
      && |path| == |EnvironmentPathPrefix| + |env.environment.GetOr("")| + |EnvironmentPathSuffix|
      && path[..|EnvironmentPathPrefix|] == EnvironmentPathPrefix
      && path[|path| - |EnvironmentPathSuffix|..] == EnvironmentPathSuffix
      && path[|EnvironmentPathPrefix|..|path| - |EnvironmentPathSuffix|] == env.environment.GetOr("")
  {
    if env.solrPathConst.Some? then env.solrPathConst.value
    else EnvironmentPathPrefix + env.environment.GetOr("") + EnvironmentPathSuffix
  }

  /** Whether SOLR_POWER_SCHEME is accepted by `/^http[s]?$/` (its trailing-newline
      quirk is not modelled). */
  predicate IsHttpScheme(s: string) {
    s == "http" || s == "https"
  }

  /** The default scheme: SOLR_POWER_SCHEME when it is "http" or "https", else "https". */
  function DefaultScheme(schemeConst: Option<string>): (scheme: string)
    ensures IsHttpScheme(scheme)
    ensures schemeConst.Some? && IsHttpScheme(schemeConst.value) ==> scheme == schemeConst.value
    ensures !(schemeConst.Some? && IsHttpScheme(schemeConst.value)) ==> scheme == "https"
  {
    if schemeConst.Some? && IsHttpScheme(schemeConst.value) then schemeConst.value else "https"
  }

  /** The endpoint configuration `get_solr` assembles (the `solr_scheme` and
      `s4wp_connection_options` filters are taken as the identity). */
  function EndpointFor(env: HostEnv): Endpoint {
    Endpoint(env.indexHost, env.indexPort, DefaultScheme(env.schemeConst), ComputePath(env), env.clientCert)
  }

  /** The decision of `get_solr`: fail closed (no client) when host, port or
      path is falsy, otherwise a client on the assembled endpoint. */
  function Connect(env: HostEnv): (client: Option<Endpoint>)
    ensures client.Some? <==> TruthyOpt(env.indexHost) && TruthyOpt(env.indexPort) && Truthy(ComputePath(env))
    ensures client.Some? ==> client.value.host == env.indexHost && client.value.port == env.indexPort
    ensures client.Some? ==> client.value.path == ComputePath(env) && IsHttpScheme(client.value.scheme)
    ensures client.Some? ==> client.value.scheme == DefaultScheme(env.schemeConst) && client.value.localCert == env.clientCert
  {
    var e := EndpointFor(env);
    if TruthyOpt(e.host) && TruthyOpt(e.port) && Truthy(e.path) then Some(e) else None
  }

  /** Without a SOLR_PATH override the path test never fails, so the client
      exists exactly when host and port are set and truthy. */
  lemma ConnectWithoutOverride(env: HostEnv)
    requires env.solrPathConst.None?
    ensures Connect(env).Some? <==> TruthyOpt(env.indexHost) && TruthyOpt(env.indexPort)
    ensures Connect(env).Some? ==> Connect(env).value.path == EnvironmentPathPrefix + env.environment.GetOr("") + EnvironmentPathSuffix
  {
  }

  /** With a falsy override ("" or "0") no client is ever built. */
  lemma FalsyOverrideFailsClosed(env: HostEnv)
    requires env.solrPathConst.Some? && !Truthy(env.solrPathConst.value)
    ensures Connect(env) == None
  {
  }
}
