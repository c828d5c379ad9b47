/**
 * The decisions behind the system statistics endpoint: which deployment the
 * registry runs in, what the registry, database and auth-server probes
 * report when their collaborators answer or fail, and the 30-second cache
 * kept in module globals together with the server start time.
 */
module SystemRoutes {
  import opened Wrappers

  /** A timestamp in microseconds, the resolution of `datetime`. */
  type Time = int

  const MicrosPerSecond: nat := 1_000_000

  /** `STATS_CACHE_TTL_SECONDS`. */
  const StatsCacheTtlSeconds: nat := 30

  // ---------------------------------------------------------------------------
  // _detect_deployment_type
  // ---------------------------------------------------------------------------

  /** The process environment. */
  type Env = map<string, string>

  const KubernetesServiceHost: string := "KUBERNETES_SERVICE_HOST"
  const EcsContainerMetadataUri: string := "ECS_CONTAINER_METADATA_URI"
  const EcsContainerMetadataUriV4: string := "ECS_CONTAINER_METADATA_URI_V4"
  const AwsExecutionEnv: string := "AWS_EXECUTION_ENV"

  /** `os.getenv(key)` is truthy: the variable is set and not empty. */
  predicate IsSet(env: Env, key: string)
  {
    key in env && env[key] != ""
  }

  predicate IsDeploymentType(t: string)
  {
    t == "Kubernetes" || t == "ECS" || t == "EC2" || t == "Local"
  }

  /**
   * The deployment type, by priority: Kubernetes whenever its service host is
   * set, then ECS when either metadata URI is set, then EC2 when the execution
   * environment says so, and Local otherwise.
   */
  function DetectDeploymentType(env: Env): (t: string)
    ensures IsDeploymentType(t)
    ensures t == "Kubernetes" <==> IsSet(env, KubernetesServiceHost)
    ensures t == "ECS" <==>
              !IsSet(env, KubernetesServiceHost)
              && (IsSet(env, EcsContainerMetadataUri) || IsSet(env, EcsContainerMetadataUriV4))
    ensures t == "EC2" <==>
              !IsSet(env, KubernetesServiceHost)
              && !IsSet(env, EcsContainerMetadataUri) && !IsSet(env, EcsContainerMetadataUriV4)
              && AwsExecutionEnv in env && env[AwsExecutionEnv] == "AWS_ECS_EC2"
  {
    if IsSet(env, KubernetesServiceHost) then "Kubernetes"
    else if IsSet(env, EcsContainerMetadataUri) || IsSet(env, EcsContainerMetadataUriV4) then "ECS"
    else if AwsExecutionEnv in env && env[AwsExecutionEnv] == "AWS_ECS_EC2" then "EC2"
    else "Local"
  }

  /** Two environments that agree on the four detection variables give the same deployment type. */
  lemma DeploymentTypeReadsOnlyItsVariables(env1: Env, env2: Env)
    requires forall k :: k in [KubernetesServiceHost, EcsContainerMetadataUri, EcsContainerMetadataUriV4, AwsExecutionEnv] ==>
               (k in env1 <==> k in env2) && (k in env1 ==> env1[k] == env2[k])
    ensures DetectDeploymentType(env1) == DetectDeploymentType(env2)
  {
    assert KubernetesServiceHost in [KubernetesServiceHost, EcsContainerMetadataUri, EcsContainerMetadataUriV4, AwsExecutionEnv];
    assert EcsContainerMetadataUri in [KubernetesServiceHost, EcsContainerMetadataUri, EcsContainerMetadataUriV4, AwsExecutionEnv];
    assert EcsContainerMetadataUriV4 in [KubernetesServiceHost, EcsContainerMetadataUri, EcsContainerMetadataUriV4, AwsExecutionEnv];
    assert AwsExecutionEnv in [KubernetesServiceHost, EcsContainerMetadataUri, EcsContainerMetadataUriV4, AwsExecutionEnv];
  }

  // ---------------------------------------------------------------------------
  // _get_registry_stats
  // ---------------------------------------------------------------------------

  datatype RegistryStats = RegistryStats(servers: nat, agents: nat, skills: nat)

  /**
   * The counts of the three repositories, each the outcome of a `count()`
   * call; if any of them raises, every count is reported as zero.
   */
  function GetRegistryStats(servers: Result<nat, string>, agents: Result<nat, string>,
                            skills: Result<nat, string>): (stats: RegistryStats)
    ensures servers.Ok? && agents.Ok? && skills.Ok? ==>
              stats == RegistryStats(servers.value, agents.value, skills.value)
    ensures servers.Err? || agents.Err? || skills.Err? ==> stats == RegistryStats(0, 0, 0)
  {
    match servers
    case Err(_) => RegistryStats(0, 0, 0)
    case Ok(s) =>
      match agents
      case Err(_) => RegistryStats(0, 0, 0)
      case Ok(a) =>
        match skills
        case Err(_) => RegistryStats(0, 0, 0)
        case Ok(k) => RegistryStats(s, a, k)
  }

  // ---------------------------------------------------------------------------
  // _get_database_status
  // ---------------------------------------------------------------------------

  datatype DatabaseStatus = DatabaseStatus(backend: string, status: string, host: string)

  predicate IsDigit(c: char)
  {
    '0' <= c <= '9'
  }

  function DigitChar(d: nat): (c: char)
    requires d < 10
    ensures IsDigit(c) && c as int - '0' as int == d
  {
    ('0' as int + d) as char
  }

  /** The decimal rendering Python gives a non-negative `int`: digits only, no leading zero. */
  function NatToString(n: nat): (s: string)
    ensures |s| >= 1
    ensures forall i :: 0 <= i < |s| ==> IsDigit(s[i])
    ensures s[0] == '0' ==> n == 0
    ensures |s| > 1 ==> s[0] != '0'
    decreases n
  {
    if n < 10 then [DigitChar(n)] else NatToString(n / 10) + [DigitChar(n % 10)]
  }

  /** The value of a string of decimal digits. */
  function ParseDecimal(s: string): nat
    requires forall i :: 0 <= i < |s| ==> IsDigit(s[i])
    decreases |s|
  {
    if s == [] then 0
    else
      assert IsDigit(s[|s| - 1]);
      ParseDecimal(s[..|s| - 1]) * 10 + (s[|s| - 1] as int - '0' as int)
  }

  /** The rendering of a number reads back as that number, so distinct ports give distinct hosts. */
  lemma {:induction false} NatToStringRoundTrip(n: nat)
    ensures ParseDecimal(NatToString(n)) == n
    decreases n
  {
    if n >= 10 {
      var s := NatToString(n);
      assert s[..|s| - 1] == NatToString(n / 10);
      NatToStringRoundTrip(n / 10);
    }
  }

  /** `f"{host}:{port}"`. */
  function HostPort(host: string, port: nat): string
  {
    host + ":" + NatToString(port)
  }

  /**
   * The database status: the file backend is reported without any database
   * contact; any other backend is "Healthy" when the client is obtained and
   * answers the ping, "Unhealthy" otherwise, with the configured host and port
   * in both cases.
   */
  function GetDatabaseStatus(backend: string, host: string, port: nat, pingOk: bool): (d: DatabaseStatus)
    ensures backend == "file" ==> d == DatabaseStatus("file", "N/A", "N/A")
    ensures backend != "file" ==>
              && d.backend == backend
              && d.host == HostPort(host, port)
              && (d.status == "Healthy" <==> pingOk)
              && (d.status == "Healthy" || d.status == "Unhealthy")
  {
    if backend == "file" then DatabaseStatus("file", "N/A", "N/A")
    else if pingOk then DatabaseStatus(backend, "Healthy", HostPort(host, port))
    else DatabaseStatus(backend, "Unhealthy", HostPort(host, port))
  }

  /** The host reads "N/A" exactly for the file backend: a configured host always carries a port. */
  lemma DatabaseHostIsNotApplicableOnlyForFile(backend: string, host: string, port: nat, pingOk: bool)
    ensures GetDatabaseStatus(backend, host, port, pingOk).host == "N/A" <==> backend == "file"
    ensures GetDatabaseStatus(backend, host, port, pingOk).status == "N/A" <==> backend == "file"
  {
    if backend != "file" {
      var h := HostPort(host, port);
      assert h[|host|] == ':';
      assert ':' !in "N/A";
    }
  }

  // ---------------------------------------------------------------------------
  // _get_auth_status
  // ---------------------------------------------------------------------------

  /** What a GET on one health endpoint gives: an HTTP status, or an exception. */
  datatype ProbeOutcome = Answered(statusCode: int) | Raised

  datatype AuthStatus = AuthStatus(provider: string, status: string, url: string)

  /** A 2xx, 3xx or 4xx answer shows the auth server is reachable. */
  predicate Reachable(o: ProbeOutcome)
  {
    o.Answered? && o.statusCode < 500
  }

  /** The endpoints tried, in order. */
  function HealthEndpoints(authUrl: string): (endpoints: seq<string>)
    ensures |endpoints| == 3
  {
    [authUrl + "/health", authUrl + "/healthcheck", authUrl + "/.well-known/openid-configuration"]
  }

  /** The index of the first endpoint that answers below 500, or the number of endpoints if none does. */
  function FirstReachable(endpoints: seq<string>, probe: string -> ProbeOutcome): (k: nat)
    ensures k <= |endpoints|
    ensures k < |endpoints| ==> Reachable(probe(endpoints[k]))
    ensures forall j :: 0 <= j < k ==> !Reachable(probe(endpoints[j]))
    decreases |endpoints|
  {
    if endpoints == [] then 0
    else if Reachable(probe(endpoints[0])) then 0
    else 1 + FirstReachable(endpoints[1..], probe)
  }

  /**
   * The auth status: "Healthy" exactly when the HTTP client is created and
   * some health endpoint answers below 500, "Unhealthy" otherwise; provider
   * and URL are echoed either way.
   */
  function AuthStatusOf(provider: string, authUrl: string, clientOk: bool, probe: string -> ProbeOutcome): (a: AuthStatus)
    ensures a.provider == provider && a.url == authUrl
    ensures a.status == "Healthy" || a.status == "Unhealthy"
    ensures a.status == "Healthy" <==>
              clientOk && exists i :: 0 <= i < |HealthEndpoints(authUrl)| && Reachable(probe(HealthEndpoints(authUrl)[i]))
  {
    var endpoints := HealthEndpoints(authUrl);
    var k := FirstReachable(endpoints, probe);
    assert k < |endpoints| ==> Reachable(probe(endpoints[k]));
    if clientOk && k < |endpoints| then AuthStatus(provider, "Healthy", authUrl)
    else AuthStatus(provider, "Unhealthy", authUrl)
  }

  /**
   * The endpoints requested: none without a client, otherwise the health
   * endpoints in order, up to and including the first one that answers below
   * 500; every endpoint before the last one requested did not.
   */
  function RequestedEndpoints(authUrl: string, clientOk: bool, probe: string -> ProbeOutcome): (r: seq<string>)
    ensures !clientOk <==> r == []
    ensures |r| <= |HealthEndpoints(authUrl)|
    ensures forall i :: 0 <= i < |r| ==> r[i] == HealthEndpoints(authUrl)[i]
    ensures forall i :: 0 <= i < |r| - 1 ==> !Reachable(probe(r[i]))
    ensures clientOk && |r| < |HealthEndpoints(authUrl)| ==> Reachable(probe(r[|r| - 1]))
  {
    var endpoints := HealthEndpoints(authUrl);
    var k := FirstReachable(endpoints, probe);
    if !clientOk then [] else if k < |endpoints| then endpoints[..k + 1] else endpoints
  }

  /**
   * `_get_auth_status`: tries the endpoints in order, returns "Healthy" at the
   * first answer below 500, skips endpoints that raise, and reports
   * "Unhealthy" when none answers or the client cannot be created. `probe`
   * stands for the HTTP GET; `requested` lists the endpoints asked, in order.
   */
  method GetAuthStatus(provider: string, authUrl: string, clientOk: bool, probe: string -> ProbeOutcome)
    returns (auth: AuthStatus, requested: seq<string>)
    ensures auth == AuthStatusOf(provider, authUrl, clientOk, probe)
    ensures requested == RequestedEndpoints(authUrl, clientOk, probe)
  {
    if !clientOk {
      return AuthStatus(provider, "Unhealthy", authUrl), [];
    }
    var endpoints := HealthEndpoints(authUrl);
    requested := [];
    var i := 0;
    while i < |endpoints|
      invariant 0 <= i <= |endpoints|
      invariant requested == endpoints[..i]
      invariant forall j :: 0 <= j < i ==> !Reachable(probe(endpoints[j]))
    {
      requested := requested + [endpoints[i]];
      var outcome := probe(endpoints[i]);
      if outcome.Answered? && outcome.statusCode < 500 {
        assert FirstReachable(endpoints, probe) == i;
        return AuthStatus(provider, "Healthy", authUrl), requested;
      }
      i := i + 1;
    }
    assert FirstReachable(endpoints, probe) == |endpoints|;
    auth := AuthStatus(provider, "Unhealthy", authUrl);
  }

  /**
   * With a client, the last endpoint requested decides the status: "Healthy"
   * exactly when it answered below 500, and "Unhealthy" only after all three
   * were requested.
   */
  lemma {:induction false} LastRequestedDecides(provider: string, authUrl: string, clientOk: bool, probe: string -> ProbeOutcome)
    requires clientOk
    ensures var r := RequestedEndpoints(authUrl, clientOk, probe);
      && r != []
      && (AuthStatusOf(provider, authUrl, clientOk, probe).status == "Healthy" <==> Reachable(probe(r[|r| - 1])))
      && (AuthStatusOf(provider, authUrl, clientOk, probe).status == "Unhealthy" ==> |r| == |HealthEndpoints(authUrl)|)
  {
    var endpoints := HealthEndpoints(authUrl);
    var r := RequestedEndpoints(authUrl, clientOk, probe);
    var k := FirstReachable(endpoints, probe);
    if k == |endpoints| {
      assert r == endpoints;
      assert forall i :: 0 <= i < |endpoints| ==> !Reachable(probe(endpoints[i]));
    } else {
      assert r == endpoints[..k + 1];
    }
  }

  // ---------------------------------------------------------------------------
  // _get_cached_stats and set_server_start_time
  // ---------------------------------------------------------------------------

  /** The stats dictionary; `started_at` is kept as a time rather than its ISO text. */
  datatype Stats = Stats(
    uptimeSeconds: int,
    startedAt: Time,
    version: string,
    deploymentType: string,
    deploymentMode: string,
    registryStats: RegistryStats,
    databaseStatus: DatabaseStatus,
    authStatus: AuthStatus)

  /**
   * What the collaborators report when the stats are computed afresh: the
   * version and settings, the outcomes of the three repository counts, the
   * database settings and whether its ping succeeds, and the auth settings,
   * whether the HTTP client is created and how each health endpoint answers.
   */
  datatype Snapshot = Snapshot(
    version: string,
    env: Env,
    deploymentMode: string,
    serverCount: Result<nat, string>,
    agentCount: Result<nat, string>,
    skillCount: Result<nat, string>,
    dbBackend: string,
    dbHost: string,
    dbPort: nat,
    dbPingOk: bool,
    authProvider: string,
    authUrl: string,
    authClientOk: bool,
    authProbe: string -> ProbeOutcome)

  /** The three module globals. */
  datatype CacheState = CacheState(serverStartTime: Option<Time>, statsCache: Option<Stats>, statsCacheTime: Option<Time>)

  /** Division truncating toward zero, as `int()` does on a float. */
  function TruncDiv(a: int, b: nat): int
    requires b > 0
  {
    if a >= 0 then a / b else -((-a) / b)
  }

  /** The uptime in whole seconds and the start time reported; without a start time, 0 and now. */
  function Uptime(serverStartTime: Option<Time>, now: Time): (r: (int, Time))
    ensures serverStartTime.None? ==> r == (0, now)
    ensures serverStartTime.Some? ==> r.1 == serverStartTime.value
    ensures serverStartTime.Some? && now >= serverStartTime.value ==>
              && r.0 >= 0
              && r.0 * MicrosPerSecond <= now - serverStartTime.value < (r.0 + 1) * MicrosPerSecond
    ensures serverStartTime.Some? && now < serverStartTime.value ==>
              && r.0 <= 0
              && (r.0 - 1) * MicrosPerSecond < now - serverStartTime.value <= r.0 * MicrosPerSecond
  {
    match serverStartTime
    case None => (0, now)
    case Some(start) => (TruncDiv(now - start, MicrosPerSecond), start)
  }

  /**
   * The stats computed at `now` from what the collaborators report: the uptime
   * and start time, the detected deployment type, and the registry, database
   * and auth reports the three probes make of the snapshot.
   */
  function FreshStats(serverStartTime: Option<Time>, now: Time, snap: Snapshot): (stats: Stats)
    ensures (stats.uptimeSeconds, stats.startedAt) == Uptime(serverStartTime, now)
    ensures stats.version == snap.version && stats.deploymentMode == snap.deploymentMode
    ensures IsDeploymentType(stats.deploymentType) && stats.deploymentType == DetectDeploymentType(snap.env)
    ensures stats.registryStats == GetRegistryStats(snap.serverCount, snap.agentCount, snap.skillCount)
    ensures stats.databaseStatus == GetDatabaseStatus(snap.dbBackend, snap.dbHost, snap.dbPort, snap.dbPingOk)
    ensures stats.authStatus == AuthStatusOf(snap.authProvider, snap.authUrl, snap.authClientOk, snap.authProbe)
  {
    var (uptime, startedAt) := Uptime(serverStartTime, now);
    Stats(uptime, startedAt, snap.version, DetectDeploymentType(snap.env), snap.deploymentMode,
          GetRegistryStats(snap.serverCount, snap.agentCount, snap.skillCount),
          GetDatabaseStatus(snap.dbBackend, snap.dbHost, snap.dbPort, snap.dbPingOk),
          AuthStatusOf(snap.authProvider, snap.authUrl, snap.authClientOk, snap.authProbe))
  }

  /** The cache is used: both globals are set and it is younger than the TTL. */
  predicate CacheHit(s: CacheState, now: Time)
  {
    s.statsCache.Some? && s.statsCacheTime.Some?
    && now - s.statsCacheTime.value < StatsCacheTtlSeconds * MicrosPerSecond
  }

  /**
   * One call of `_get_cached_stats`: the new globals and the stats returned.
   * The start time is never touched, the cache afterwards holds the stats
   * returned, and it is valid at `now`.
   */
  function Step(s: CacheState, now: Time, snap: Snapshot): (r: (CacheState, Stats))
    ensures r.0.serverStartTime == s.serverStartTime
    ensures r.0.statsCache == Some(r.1)
    ensures CacheHit(r.0, now)
  {
    if CacheHit(s, now) then (s, s.statsCache.value)
    else
      var stats := FreshStats(s.serverStartTime, now, snap);
      (s.(statsCache := Some(stats), statsCacheTime := Some(now)), stats)
  }

  /** On a hit the cached stats come back unchanged and nothing is stored. */
  lemma CacheHitReturnsCached(s: CacheState, now: Time, snap: Snapshot)
    requires CacheHit(s, now)
    ensures Step(s, now, snap) == (s, s.statsCache.value)
  {
  }

  /**
   * On a miss the stats are computed afresh, the cache then holds exactly the
   * stats returned with the cache time at now, and the start time is kept.
   */
  lemma CacheMissRefreshes(s: CacheState, now: Time, snap: Snapshot)
    requires !CacheHit(s, now)
    ensures var (s', stats) := Step(s, now, snap);
      && stats == FreshStats(s.serverStartTime, now, snap)
      && s'.statsCache == Some(stats) && s'.statsCacheTime == Some(now)
      && s'.serverStartTime == s.serverStartTime
  {
  }

  /**
   * After a call that computes the stats afresh, every call within the next
   * 30 seconds returns those same stats and leaves the cache as it is,
   * whatever the collaborators would report by then.
   */
  lemma RepeatWithinTtlIsCached(s: CacheState, t0: Time, t1: Time, snap0: Snapshot, snap1: Snapshot)
    requires !CacheHit(s, t0)
    requires t0 <= t1 < t0 + StatsCacheTtlSeconds * MicrosPerSecond
    ensures var (s1, stats0) := Step(s, t0, snap0);
      Step(s1, t1, snap1) == (s1, stats0)
  {
  }

  /** The cache expires: once 30 seconds have passed since it was stored, the next call recomputes. */
  lemma CacheExpiresAfterTtl(s: CacheState, t0: Time, t1: Time, snap0: Snapshot, snap1: Snapshot)
    requires !CacheHit(s, t0)
    requires t1 >= t0 + StatsCacheTtlSeconds * MicrosPerSecond
    ensures var (s1, _) := Step(s, t0, snap0);
      Step(s1, t1, snap1).1 == FreshStats(s.serverStartTime, t1, snap1)
  {
  }

  /** Without a start time the uptime is 0 and the start reported is now. */
  lemma UptimeWithoutStartTime(s: CacheState, now: Time, snap: Snapshot)
    requires s.serverStartTime.None? && !CacheHit(s, now)
    ensures Step(s, now, snap).1.uptimeSeconds == 0 && Step(s, now, snap).1.startedAt == now
  {
  }

  /** The module globals of the system routes. */
  class StatsCache {
    var serverStartTime: Option<Time>
    var statsCache: Option<Stats>
    var statsCacheTime: Option<Time>

    function State(): CacheState
      reads this
    {
      CacheState(serverStartTime, statsCache, statsCacheTime)
    }

    /** The globals at import time: all unset. */
    constructor ()
      ensures State() == CacheState(None, None, None)
    {
      serverStartTime := None;
      statsCache := None;
      statsCacheTime := None;
    }

    /** `set_server_start_time`: records the start time and leaves the cache alone. */
    method SetServerStartTime(startTime: Time)
      modifies this
      ensures State() == old(State()).(serverStartTime := Some(startTime))
    {
      serverStartTime := Some(startTime);
    }

    /**
     * `_get_cached_stats` at time `now`: returns the cached stats while they
     * are younger than 30 seconds, otherwise computes them from `snap` and
     * stores them with the time. `refreshed` tells whether they were computed.
     */
    method GetCachedStats(now: Time, snap: Snapshot) returns (stats: Stats, refreshed: bool)
      modifies this
      ensures (State(), stats) == Step(old(State()), now, snap)
      ensures refreshed <==> !CacheHit(old(State()), now)
    {
      if statsCache.Some? && statsCacheTime.Some?
         && now - statsCacheTime.value < StatsCacheTtlSeconds * MicrosPerSecond
      {
        return statsCache.value, false;
      }

      var uptimeSeconds: int;
      var startedAt: Time;
      if serverStartTime.Some? {
        uptimeSeconds := TruncDiv(now - serverStartTime.value, MicrosPerSecond);
        startedAt := serverStartTime.value;
      } else {
        uptimeSeconds := 0;
        startedAt := now;
      }

      var registryStats := GetRegistryStats(snap.serverCount, snap.agentCount, snap.skillCount);
      var databaseStatus := GetDatabaseStatus(snap.dbBackend, snap.dbHost, snap.dbPort, snap.dbPingOk);
      var authStatus, _ := GetAuthStatus(snap.authProvider, snap.authUrl, snap.authClientOk, snap.authProbe);
      stats := Stats(uptimeSeconds, startedAt, snap.version, DetectDeploymentType(snap.env), snap.deploymentMode,
                     registryStats, databaseStatus, authStatus);

      statsCache := Some(stats);
      statsCacheTime := Some(now);
      refreshed := true;
    }
  }
}
