/**
 * The federation reconciliation engine: it compares the servers the Anthropic
 * federation configuration declares with the servers the registry holds under
 * source "anthropic", removes the stale ones one by one with per-item fault
 * isolation, regenerates the nginx routing configuration when something was
 * removed, and returns a result record.
 *
 * The pure part (name-to-path mapping, expected set, stale set, the result a run
 * produces) is a set of functions; the run itself is the imperative method
 * `ReconcileAnthropicServers` over collaborator objects that record the calls
 * made on them.
 */
module FederationReconciliation {
  import opened Wrappers
  import StringOrder

  /** The provenance tag of the records this engine may prune. */
  const AnthropicSource: string := "anthropic"

  // ---------------------------------------------------------------------------
  // Data model
  // ---------------------------------------------------------------------------

  datatype AnthropicServer = AnthropicServer(name: string)

  /** `config.anthropic`: whether federation is on, and the declared servers. */
  datatype AnthropicFederation = AnthropicFederation(enabled: bool, servers: seq<AnthropicServer>)

  datatype FederationConfig = FederationConfig(anthropic: AnthropicFederation)

  /**
   * A stored server record, as far as reconciliation reads it. An absent
   * `server_name` or `is_enabled` key is `None`.
   */
  datatype ServerRecord = ServerRecord(source: string, serverName: Option<string>, isEnabled: Option<bool>)

  /**
   * The dictionary a run returns. `errors` is `None` when the key is absent
   * (the two early returns) and `Some` after a real removal pass.
   */
  datatype ReconciliationResult = ReconciliationResult(
    removed: seq<string>,
    removedCount: nat,
    expectedCount: nat,
    actualCount: nat,
    dryRun: bool,
    errors: Option<seq<string>>)

  /** What `server_service.remove_server(path)` does: returns True, returns False, or raises. */
  datatype RemoveOutcome = Removed | NotRemoved | Raised(message: string)

  /** One `counter.add(value, {"source": source})` call on the OTel counter. */
  datatype CounterAdd = CounterAdd(value: nat, source: string)

  // ---------------------------------------------------------------------------
  // Identifier mapping and the expected set
  // ---------------------------------------------------------------------------

  /** `name.replace('/', '-')`. */
  function ReplaceSlashes(name: string): string
  {
    seq(|name|, i requires 0 <= i < |name| => if name[i] == '/' then '-' else name[i])
  }

  /** The storage path of a declared server: `"/" + name.replace('/', '-')`. */
  function NameToPath(name: string): (path: string)
    ensures |path| == |name| + 1 && path[0] == '/'
    ensures forall i :: 1 <= i < |path| ==> path[i] != '/'
    ensures forall i :: 0 <= i < |name| && name[i] != '/' ==> path[i + 1] == name[i]
    ensures forall i :: 0 <= i < |name| && name[i] == '/' ==> path[i + 1] == '-'
  {
    "/" + ReplaceSlashes(name)
  }

  /**
   * Two names map to the same path exactly when they agree everywhere except
   * where one has '/' and the other '-': the mapping is not injective.
   */
  lemma NameToPathCollision(a: string, b: string)
    ensures NameToPath(a) == NameToPath(b) <==>
      |a| == |b| && forall i :: 0 <= i < |a| ==> a[i] == b[i] || (a[i] in "/-" && b[i] in "/-")
  {
    if NameToPath(a) == NameToPath(b) {
      forall i | 0 <= i < |a|
        ensures a[i] == b[i] || (a[i] in "/-" && b[i] in "/-")
      {
        assert NameToPath(a)[i + 1] == NameToPath(b)[i + 1];
      }
    }
    if |a| == |b| && forall i :: 0 <= i < |a| ==> a[i] == b[i] || (a[i] in "/-" && b[i] in "/-") {
      assert ReplaceSlashes(a) == ReplaceSlashes(b);
    }
  }

  /** A concrete collision: "a/b" and "a-b" are both stored at "/a-b". */
  lemma NameToPathNotInjective()
    ensures "a/b" != "a-b" && NameToPath("a/b") == NameToPath("a-b") == "/a-b"
  {
    assert ReplaceSlashes("a/b") == "a-b";
    assert ReplaceSlashes("a-b") == "a-b";
  }

  /** `_config_server_names_to_paths`: the set of paths of the declared servers. */
  function ConfigServerNamesToPaths(servers: seq<AnthropicServer>): (paths: set<string>)
    ensures |paths| <= |servers|
    ensures forall p :: p in paths <==> exists i :: 0 <= i < |servers| && p == NameToPath(servers[i].name)
    decreases |servers|
  {
    if servers == [] then {}
    else
      var rest := ConfigServerNamesToPaths(servers[..|servers| - 1]);
      var last := NameToPath(servers[|servers| - 1].name);
      DeclaredPathStep(servers);
      assert forall p :: p in rest + {last} <==> Declares(servers, p);
      rest + {last}
  }

  /** Some declared server maps to `p`. */
  predicate Declares(servers: seq<AnthropicServer>, p: string)
  {
    exists i :: 0 <= i < |servers| && p == NameToPath(servers[i].name)
  }

  /** A path comes from the declared servers exactly when it comes from all but the last one, or from the last one. */
  lemma DeclaredPathStep(servers: seq<AnthropicServer>)
    requires servers != []
    ensures forall p :: Declares(servers, p) <==>
      Declares(servers[..|servers| - 1], p) || p == NameToPath(servers[|servers| - 1].name)
  {
    var init := servers[..|servers| - 1];
    assert forall i :: 0 <= i < |init| ==> init[i] == servers[i];
  }

  /** Every expected path starts with '/' and contains no other '/'. */
  lemma ExpectedPathShape(servers: seq<AnthropicServer>, p: string)
    requires p in ConfigServerNamesToPaths(servers)
    ensures |p| >= 1 && p[0] == '/' && '/' !in p[1..]
  {
    var i :| 0 <= i < |servers| && p == NameToPath(servers[i].name);
    assert forall k :: 0 <= k < |p[1..]| ==> p[1..][k] == p[k + 1];
  }

  /** The expected paths of a run: none at all when federation is disabled. */
  function ExpectedPaths(config: FederationConfig): (expected: set<string>)
    ensures |expected| <= |config.anthropic.servers|
    ensures forall p :: p in expected <==>
              config.anthropic.enabled && exists i :: 0 <= i < |config.anthropic.servers| && p == NameToPath(config.anthropic.servers[i].name)
  {
    if config.anthropic.enabled then ConfigServerNamesToPaths(config.anthropic.servers) else {}
  }

  // ---------------------------------------------------------------------------
  // The stale set
  // ---------------------------------------------------------------------------

  /** `server_repo.list_by_source(source)`: the records carrying that source tag. */
  function BySource(servers: map<string, ServerRecord>, source: string): (records: map<string, ServerRecord>)
    ensures forall p :: p in records <==> p in servers && servers[p].source == source
    ensures forall p :: p in records ==> records[p] == servers[p]
  {
    map p | p in servers && servers[p].source == source :: servers[p]
  }

  /** Stale paths: stored under the source but not expected (`actual_paths - expected_paths`). */
  function StalePaths(expected: set<string>, actual: map<string, ServerRecord>): (stale: set<string>)
    ensures stale <= actual.Keys && stale !! expected
    ensures forall p :: p in actual ==> p in stale || p in expected
  {
    actual.Keys - expected
  }

  /** The stale set of a run over the store `servers`. */
  function StaleOf(config: FederationConfig, servers: map<string, ServerRecord>): (stale: set<string>)
    ensures forall p :: p in stale <==> p in servers && servers[p].source == AnthropicSource && p !in ExpectedPaths(config)
  {
    StalePaths(ExpectedPaths(config), BySource(servers, AnthropicSource))
  }

  /** With federation disabled, every stored Anthropic server is stale, whatever is declared. */
  lemma DisabledProviderAllStale(config: FederationConfig, servers: map<string, ServerRecord>)
    requires !config.anthropic.enabled
    ensures StaleOf(config, servers) == set p | p in servers && servers[p].source == AnthropicSource
  {
  }

  /** Only Anthropic records are ever stale. */
  lemma StaleAreAnthropic(config: FederationConfig, servers: map<string, ServerRecord>, p: string)
    requires p in StaleOf(config, servers)
    ensures p in servers && servers[p].source == AnthropicSource
    ensures p !in ExpectedPaths(config)
  {
  }

  // ---------------------------------------------------------------------------
  // Names, the removal pass and the result, as functions
  // ---------------------------------------------------------------------------

  /** `actual_servers[path].get("server_name", path)`. */
  function DisplayName(records: map<string, ServerRecord>, path: string): string
    requires path in records
  {
    records[path].serverName.GetOr(path)
  }

  /** The display names of `paths`, in the same order. */
  function DisplayNames(paths: seq<string>, records: map<string, ServerRecord>): (names: seq<string>)
    requires forall i :: 0 <= i < |paths| ==> paths[i] in records
    ensures |names| == |paths|
    ensures forall i :: 0 <= i < |paths| ==> names[i] == DisplayName(records, paths[i])
  {
    seq(|paths|, i requires 0 <= i < |paths| => DisplayName(records, paths[i]))
  }

  function FailedToRemoveMessage(name: string, path: string): string
  {
    "Failed to remove " + name + " (" + path + ")"
  }

  function ErrorRemovingMessage(path: string, message: string): string
  {
    "Error removing " + path + ": " + message
  }

  /** The entry a failed removal of `path` adds to `errors`: a False answer or an exception. */
  function ErrorMessage(records: map<string, ServerRecord>, path: string, o: RemoveOutcome): string
    requires path in records && !o.Removed?
  {
    match o
    case NotRemoved => FailedToRemoveMessage(DisplayName(records, path), path)
    case Raised(e) => ErrorRemovingMessage(path, e)
  }

  /** The `removed` and `errors` lists the removal loop accumulates. */
  datatype RemovalLog = RemovalLog(removed: seq<string>, errors: seq<string>)

  /**
   * The removal loop over `paths`, in order, each path attempted once. Fault
   * isolation: every attempted path adds exactly one entry, to `removed` or to
   * `errors`.
   */
  function RunRemovals(paths: seq<string>, records: map<string, ServerRecord>, outcome: string -> RemoveOutcome): (log: RemovalLog)
    requires forall i :: 0 <= i < |paths| ==> paths[i] in records
    ensures |log.removed| + |log.errors| == |paths|
    decreases |paths|
  {
    if paths == [] then RemovalLog([], [])
    else
      var log := RunRemovals(paths[..|paths| - 1], records, outcome);
      var path := paths[|paths| - 1];
      if outcome(path).Removed? then log.(removed := log.removed + [DisplayName(records, path)])
      else log.(errors := log.errors + [ErrorMessage(records, path, outcome(path))])
  }

  /** The paths whose removal reported success, in order. */
  function RemovedInOrder(paths: seq<string>, outcome: string -> RemoveOutcome): (r: seq<string>)
    ensures |r| <= |paths|
    ensures forall p :: p in r <==> p in paths && outcome(p).Removed?
    ensures StringOrder.StrictlyAscending(paths) ==> StringOrder.StrictlyAscending(r)
    decreases |paths|
  {
    if paths == [] then []
    else
      var init := paths[..|paths| - 1];
      assert paths == init + [paths[|paths| - 1]];
      var r0 := RemovedInOrder(init, outcome);
      assert StringOrder.StrictlyAscending(paths) ==> StringOrder.StrictlyAscending(init);
      assert StringOrder.StrictlyAscending(paths) ==> StringOrder.StrictlyAscending(r0 + [paths[|paths| - 1]]) by {
        if StringOrder.StrictlyAscending(paths) { StringOrder.AscendingAppend(r0, init, paths[|paths| - 1]); }
      }
      if outcome(paths[|paths| - 1]).Removed? then r0 + [paths[|paths| - 1]] else r0
  }

  /** The paths whose removal answered False or raised, in order. */
  function FailedInOrder(paths: seq<string>, outcome: string -> RemoveOutcome): (r: seq<string>)
    ensures |r| <= |paths|
    ensures forall p :: p in r <==> p in paths && !outcome(p).Removed?
    ensures StringOrder.StrictlyAscending(paths) ==> StringOrder.StrictlyAscending(r)
    decreases |paths|
  {
    if paths == [] then []
    else
      var init := paths[..|paths| - 1];
      assert paths == init + [paths[|paths| - 1]];
      var r0 := FailedInOrder(init, outcome);
      assert StringOrder.StrictlyAscending(paths) ==> StringOrder.StrictlyAscending(init);
      assert StringOrder.StrictlyAscending(paths) ==> StringOrder.StrictlyAscending(r0 + [paths[|paths| - 1]]) by {
        if StringOrder.StrictlyAscending(paths) { StringOrder.AscendingAppend(r0, init, paths[|paths| - 1]); }
      }
      if outcome(paths[|paths| - 1]).Removed? then r0 else r0 + [paths[|paths| - 1]]
  }

  /** The error entries of the failed paths, in the same order. */
  function ErrorMessages(paths: seq<string>, records: map<string, ServerRecord>, outcome: string -> RemoveOutcome): (msgs: seq<string>)
    requires forall i :: 0 <= i < |paths| ==> paths[i] in records && !outcome(paths[i]).Removed?
    ensures |msgs| == |paths|
    ensures forall i :: 0 <= i < |paths| ==> msgs[i] == ErrorMessage(records, paths[i], outcome(paths[i]))
  {
    seq(|paths|, i requires 0 <= i < |paths| => ErrorMessage(records, paths[i], outcome(paths[i])))
  }

  /** The paths the store loses in a removal pass over `paths`. */
  function RemovedPaths(paths: seq<string>, outcome: string -> RemoveOutcome): set<string>
  {
    set p | p in paths && outcome(p).Removed?
  }

  /** `removed` holds the display names of the paths whose removal succeeded, in attempt order. */
  lemma {:induction false} RemovedAreTheSuccesses(paths: seq<string>, records: map<string, ServerRecord>, outcome: string -> RemoveOutcome)
    requires forall i :: 0 <= i < |paths| ==> paths[i] in records
    ensures forall i :: 0 <= i < |RemovedInOrder(paths, outcome)| ==> RemovedInOrder(paths, outcome)[i] in records
    ensures RunRemovals(paths, records, outcome).removed == DisplayNames(RemovedInOrder(paths, outcome), records)
    decreases |paths|
  {
    if paths != [] {
      var init := paths[..|paths| - 1];
      assert paths == init + [paths[|paths| - 1]];
      RemovedAreTheSuccesses(init, records, outcome);
    }
  }

  /**
   * `errors` holds one entry per path whose removal answered False ("Failed to
   * remove NAME (PATH)") or raised ("Error removing PATH: MESSAGE"), in attempt
   * order, and nothing else.
   */
  lemma {:induction false} ErrorsAreTheFailures(paths: seq<string>, records: map<string, ServerRecord>, outcome: string -> RemoveOutcome)
    requires forall i :: 0 <= i < |paths| ==> paths[i] in records
    ensures forall i :: 0 <= i < |FailedInOrder(paths, outcome)| ==>
              FailedInOrder(paths, outcome)[i] in records && !outcome(FailedInOrder(paths, outcome)[i]).Removed?
    ensures RunRemovals(paths, records, outcome).errors == ErrorMessages(FailedInOrder(paths, outcome), records, outcome)
    decreases |paths|
  {
    if paths != [] {
      var init := paths[..|paths| - 1];
      assert paths == init + [paths[|paths| - 1]];
      ErrorsAreTheFailures(init, records, outcome);
    }
  }

  /** One more attempted path adds it to the removed paths exactly when its removal succeeds. */
  lemma RemovedPathsStep(paths: seq<string>, i: nat, outcome: string -> RemoveOutcome)
    requires i < |paths|
    ensures RemovedPaths(paths[..i + 1], outcome)
      == RemovedPaths(paths[..i], outcome) + (if outcome(paths[i]).Removed? then {paths[i]} else {})
  {
    assert paths[..i + 1] == paths[..i] + [paths[i]];
  }

  /** With distinct paths, the number of successes is the number of records the store loses. */
  lemma {:induction false} RemovedCountIsStoreLoss(paths: seq<string>, outcome: string -> RemoveOutcome)
    requires forall i, j :: 0 <= i < j < |paths| ==> paths[i] != paths[j]
    ensures |RemovedInOrder(paths, outcome)| == |RemovedPaths(paths, outcome)|
    decreases |paths|
  {
    if paths != [] {
      var init := paths[..|paths| - 1];
      var last := paths[|paths| - 1];
      assert paths == init + [last];
      assert last !in init;
      RemovedCountIsStoreLoss(init, outcome);
      if outcome(last).Removed? {
        assert RemovedPaths(paths, outcome) == RemovedPaths(init, outcome) + {last};
      } else {
        assert RemovedPaths(paths, outcome) == RemovedPaths(init, outcome);
      }
    }
  }

  /** The paths a run hands to `remove_server`: the stale ones, ascending, unless it returns early. */
  function AttemptedPaths(config: FederationConfig, servers: map<string, ServerRecord>, dryRun: bool): seq<string>
  {
    var stale := StaleOf(config, servers);
    if stale == {} || dryRun then [] else StringOrder.Sorted(stale)
  }

  /**
   * The result of `reconcile_anthropic_servers` on the store `servers`: the
   * counts are the sizes of the expected and actual sets, `removed_count` is
   * `len(removed)`, and the `errors` key is present exactly after a real pass.
   */
  function Reconcile(config: FederationConfig, servers: map<string, ServerRecord>, outcome: string -> RemoveOutcome, dryRun: bool): (r: ReconciliationResult)
    ensures r.removedCount == |r.removed|
    ensures r.expectedCount == |ExpectedPaths(config)| && r.actualCount == |BySource(servers, AnthropicSource)|
    ensures r.errors.Some? <==> RealRun(config, servers, dryRun)
  {
    var expected := ExpectedPaths(config);
    var actual := BySource(servers, AnthropicSource);
    var stale := StalePaths(expected, actual);
    if stale == {} then
      ReconciliationResult([], 0, |expected|, |actual|, dryRun, None)
    else
      var order := StringOrder.Sorted(stale);
      if dryRun then
        var names := DisplayNames(order, actual);
        ReconciliationResult(names, |names|, |expected|, |actual|, true, None)
      else
        var log := RunRemovals(order, actual, outcome);
        ReconciliationResult(log.removed, |log.removed|, |expected|, |actual|, false, Some(log.errors))
  }

  /**
   * Nothing stale: the run returns `removed=[]`, `removed_count=0`, echoes
   * `dry_run`, has no `errors` key, and attempts no removal.
   */
  lemma NothingStale(config: FederationConfig, servers: map<string, ServerRecord>, outcome: string -> RemoveOutcome, dryRun: bool)
    requires StaleOf(config, servers) == {}
    ensures Reconcile(config, servers, outcome, dryRun)
      == ReconciliationResult([], 0, |ExpectedPaths(config)|, |BySource(servers, AnthropicSource)|, dryRun, None)
    ensures AttemptedPaths(config, servers, dryRun) == []
  {
  }

  /**
   * Dry run with stale paths: `removed` lists the display names of the stale
   * paths in ascending path order, `removed_count` is the number of stale paths,
   * there is no `errors` key, and no removal is attempted.
   */
  lemma {:induction false} DryRunReport(config: FederationConfig, servers: map<string, ServerRecord>, outcome: string -> RemoveOutcome)
    requires StaleOf(config, servers) != {}
    ensures var r := Reconcile(config, servers, outcome, true);
      && r.dryRun && r.errors.None?
      && r.removedCount == |StaleOf(config, servers)|
      && r.removed == DisplayNames(StringOrder.Sorted(StaleOf(config, servers)), BySource(servers, AnthropicSource))
    ensures AttemptedPaths(config, servers, true) == []
  {
  }

  /**
   * The fields of every result agree: `removed_count == len(removed)`, the
   * counts are the sizes of the expected and actual sets, at most as many
   * servers are reported as are stale (exactly as many in a dry run), and after
   * a real pass `removed` and `errors` together account for every stale path.
   */
  lemma {:induction false} ResultConsistent(config: FederationConfig, servers: map<string, ServerRecord>, outcome: string -> RemoveOutcome, dryRun: bool)
    ensures var r := Reconcile(config, servers, outcome, dryRun);
      var stale := StaleOf(config, servers);
      && r.removedCount == |r.removed| <= |stale|
      && r.expectedCount == |ExpectedPaths(config)| <= |config.anthropic.servers|
      && r.actualCount == |BySource(servers, AnthropicSource)|
      && (r.errors.Some? <==> !dryRun && stale != {})
      && (r.errors.Some? ==> !r.dryRun && |r.removed| + |r.errors.value| == |stale|)
      && (r.errors.None? ==> r.dryRun == dryRun)
      && (dryRun ==> r.removedCount == |stale|)
  {
  }

  /**
   * Re-entrancy: the next run over the store a real run leaves behind finds
   * exactly the stale paths whose removal failed, so a run in which every
   * removal succeeds leaves nothing stale.
   */
  lemma Convergence(config: FederationConfig, servers: map<string, ServerRecord>, outcome: string -> RemoveOutcome)
    ensures var after := servers - RemovedPaths(AttemptedPaths(config, servers, false), outcome);
      StaleOf(config, after) == StaleOf(config, servers) - RemovedPaths(AttemptedPaths(config, servers, false), outcome)
    ensures (forall p :: outcome(p) == Removed) ==>
      StaleOf(config, servers - RemovedPaths(AttemptedPaths(config, servers, false), outcome)) == {}
  {
  }

  /** A removal pass touches only stale Anthropic records: every other record survives unchanged. */
  lemma OthersUntouched(config: FederationConfig, servers: map<string, ServerRecord>, outcome: string -> RemoveOutcome, dryRun: bool, p: string)
    requires p in servers
    requires servers[p].source != AnthropicSource || p in ExpectedPaths(config)
    ensures var after := servers - RemovedPaths(AttemptedPaths(config, servers, dryRun), outcome);
      p in after && after[p] == servers[p]
  {
  }

  /** `{p: info for p, info in all_servers.items() if info.get("is_enabled", False)}`. */
  function EnabledServers(servers: map<string, ServerRecord>): (enabled: map<string, ServerRecord>)
    ensures forall p :: p in enabled <==> p in servers && servers[p].isEnabled == Some(true)
    ensures forall p :: p in enabled ==> enabled[p] == servers[p]
  {
    map p | p in servers && servers[p].isEnabled.GetOr(false) :: servers[p]
  }

  // ---------------------------------------------------------------------------
  // Collaborators
  // ---------------------------------------------------------------------------

  /** The server repository: every stored record, keyed by path. */
  class ServerRepository {
    var servers: map<string, ServerRecord>

    constructor (initial: map<string, ServerRecord>)
      ensures servers == initial
    {
      servers := initial;
    }

    method ListBySource(source: string) returns (records: map<string, ServerRecord>)
      ensures records == BySource(servers, source)
    {
      records := BySource(servers, source);
    }

    method ListAll() returns (records: map<string, ServerRecord>)
      ensures records == servers
    {
      records := servers;
    }
  }

  /**
   * The server service. `outcome` says how `remove_server` answers for each
   * path; `calls` records the paths it was called with. Only a True answer
   * deletes the record.
   */
  class ServerService {
    const repo: ServerRepository
    const outcome: string -> RemoveOutcome
    var calls: seq<string>

    constructor (repo: ServerRepository, outcome: string -> RemoveOutcome)
      ensures this.repo == repo && this.outcome == outcome && calls == []
    {
      this.repo := repo;
      this.outcome := outcome;
      calls := [];
    }

    method RemoveServer(path: string) returns (r: RemoveOutcome)
      modifies this, repo
      ensures r == outcome(path)
      ensures calls == old(calls) + [path]
      ensures repo.servers == if r.Removed? then old(repo.servers) - {path} else old(repo.servers)
    {
      r := outcome(path);
      calls := calls + [path];
      if r.Removed? {
        repo.servers := repo.servers - {path};
      }
    }
  }

  /** The nginx service; `generated` records each `generate_config_async` call. */
  class NginxService {
    const failing: bool
    var generated: seq<map<string, ServerRecord>>

    constructor (failing: bool)
      ensures this.failing == failing && generated == []
    {
      this.failing := failing;
      generated := [];
    }

    /** Returns false when the regeneration raised. */
    method GenerateConfig(enabled: map<string, ServerRecord>) returns (ok: bool)
      modifies this
      ensures generated == old(generated) + [enabled]
      ensures ok == !failing
    {
      generated := generated + [enabled];
      ok := !failing;
    }
  }

  /** The OTel instruments; `removedCounter` records each add on the removed-servers counter. */
  class Instruments {
    const hasRemovedCounter: bool
    var removedCounter: seq<CounterAdd>

    constructor (hasRemovedCounter: bool)
      ensures this.hasRemovedCounter == hasRemovedCounter && removedCounter == []
    {
      this.hasRemovedCounter := hasRemovedCounter;
      removedCounter := [];
    }
  }

  /**
   * `_record_reconciliation_metrics`: adds the removed count to the counter,
   * tagged with the source, when the instruments and the counter exist; it
   * never fails.
   */
  method RecordReconciliationMetrics(instruments: Instruments?, removedCount: nat)
    modifies instruments
    ensures instruments != null ==>
              instruments.removedCounter == old(instruments.removedCounter) +
                (if instruments.hasRemovedCounter then [CounterAdd(removedCount, AnthropicSource)] else [])
  {
    if instruments != null && instruments.hasRemovedCounter {
      instruments.removedCounter := instruments.removedCounter + [CounterAdd(removedCount, AnthropicSource)];
    }
  }

  // ---------------------------------------------------------------------------
  // The run
  // ---------------------------------------------------------------------------

  /**
   * The removal loop: each path of `order` is handed to `remove_server` once,
   * in order; a True answer appends the display name to `removed`, a False
   * answer or an exception appends a message to `errors`, and the loop goes on.
   */
  method RemoveStaleServers(order: seq<string>, actual: map<string, ServerRecord>, service: ServerService, repo: ServerRepository)
    returns (log: RemovalLog)
    requires service.repo == repo
    requires forall i :: 0 <= i < |order| ==> order[i] in actual
    modifies service, repo
    ensures log == RunRemovals(order, actual, service.outcome)
    ensures service.calls == old(service.calls) + order
    ensures repo.servers == old(repo.servers) - RemovedPaths(order, service.outcome)
  {
    var removed: seq<string> := [];
    var errors: seq<string> := [];
    var i := 0;
    while i < |order|
      invariant 0 <= i <= |order|
      invariant RemovalLog(removed, errors) == RunRemovals(order[..i], actual, service.outcome)
      invariant service.calls == old(service.calls) + order[..i]
      invariant repo.servers == old(repo.servers) - RemovedPaths(order[..i], service.outcome)
    {
      var path := order[i];
      var name := DisplayName(actual, path);
      var outcome := service.RemoveServer(path);
      match outcome {
        case Removed =>
          removed := removed + [name];
        case NotRemoved =>
          errors := errors + [FailedToRemoveMessage(name, path)];
        case Raised(e) =>
          errors := errors + [ErrorRemovingMessage(path, e)];
      }
      assert order[..i + 1] == order[..i] + [path];
      assert order[..i + 1][..i] == order[..i];
      RemovedPathsStep(order, i, service.outcome);
      i := i + 1;
    }
    assert order[..i] == order;
    log := RemovalLog(removed, errors);
  }

  /**
   * Steps 1 to 3: the expected paths (none when federation is disabled), the
   * snapshot of the Anthropic records, and the stale paths.
   */
  method ComputeDelta(config: FederationConfig, repo: ServerRepository)
    returns (expected: set<string>, actual: map<string, ServerRecord>, stale: set<string>)
    ensures expected == ExpectedPaths(config)
    ensures actual == BySource(repo.servers, AnthropicSource)
    ensures stale == StaleOf(config, repo.servers)
  {
    expected := ConfigServerNamesToPaths(config.anthropic.servers);
    if !config.anthropic.enabled {
      expected := {};
    }
    actual := repo.ListBySource(AnthropicSource);
    stale := actual.Keys - expected;
  }

  /**
   * Steps 4 to 6 of a real run: the removal loop, then the nginx regeneration
   * when something was removed (a failure there is ignored), then the metrics.
   */
  method RemoveAndRegenerate(
    order: seq<string>,
    actual: map<string, ServerRecord>,
    service: ServerService,
    repo: ServerRepository,
    nginx: NginxService?,
    instruments: Instruments?,
    skipNginxRegen: bool)
    returns (log: RemovalLog)
    requires service.repo == repo
    requires forall i :: 0 <= i < |order| ==> order[i] in actual
    modifies repo, service, nginx, instruments
    ensures log == RunRemovals(order, actual, service.outcome)
    ensures service.calls == old(service.calls) + order
    ensures repo.servers == old(repo.servers) - RemovedPaths(order, service.outcome)
    ensures nginx != null ==>
              nginx.generated == old(nginx.generated) +
                (if log.removed != [] && !skipNginxRegen then [EnabledServers(repo.servers)] else [])
    ensures instruments != null ==>
              instruments.removedCounter == old(instruments.removedCounter) +
                (if instruments.hasRemovedCounter then [CounterAdd(|log.removed|, AnthropicSource)] else [])
  {
    log := RemoveStaleServers(order, actual, service, repo);
    if log.removed != [] && nginx != null && !skipNginxRegen {
      var all := repo.ListAll();
      var enabled := EnabledServers(all);
      var _ := nginx.GenerateConfig(enabled);
    }
    RecordReconciliationMetrics(instruments, |log.removed|);
  }

  /** A run that reaches the removal loop. */
  predicate RealRun(config: FederationConfig, servers: map<string, ServerRecord>, dryRun: bool)
  {
    !dryRun && StaleOf(config, servers) != {}
  }

  /**
   * `reconcile_anthropic_servers`. The result is `Reconcile` of the store as it
   * was; `remove_server` is called once per stale path in ascending order
   * (never in a dry run, never when nothing is stale); the store loses exactly
   * the paths whose removal succeeded; nginx is regenerated, with the enabled
   * records of the store after removal, exactly when something was removed,
   * the service is present and regeneration is not skipped; and the metrics
   * counter gets `len(removed)` after a real run.
   */
  method ReconcileAnthropicServers(
    config: FederationConfig,
    service: ServerService,
    repo: ServerRepository,
    nginx: NginxService?,
    instruments: Instruments?,
    dryRun: bool,
    skipNginxRegen: bool)
    returns (result: ReconciliationResult)
    requires service.repo == repo
    modifies repo, service, nginx, instruments
    ensures result == Reconcile(config, old(repo.servers), service.outcome, dryRun)
    ensures service.calls == old(service.calls) + AttemptedPaths(config, old(repo.servers), dryRun)
    ensures repo.servers == old(repo.servers) - RemovedPaths(AttemptedPaths(config, old(repo.servers), dryRun), service.outcome)
    ensures nginx != null ==>
              nginx.generated == old(nginx.generated) +
                (if RealRun(config, old(repo.servers), dryRun) && result.removed != [] && !skipNginxRegen
                 then [EnabledServers(repo.servers)] else [])
    ensures instruments != null ==>
              instruments.removedCounter == old(instruments.removedCounter) +
                (if RealRun(config, old(repo.servers), dryRun) && instruments.hasRemovedCounter
                 then [CounterAdd(|result.removed|, AnthropicSource)] else [])
  {
    var expected, actual, stale := ComputeDelta(config, repo);
    if stale == {} {
      assert old(repo.servers) - RemovedPaths([], service.outcome) == old(repo.servers);
      return ReconciliationResult([], 0, |expected|, |actual|, dryRun, None);
    }
    var order := StringOrder.Sorted(stale);
    forall i | 0 <= i < |order|
      ensures order[i] in actual
    {
      assert order[i] in stale;
    }
    if dryRun {
      assert old(repo.servers) - RemovedPaths([], service.outcome) == old(repo.servers);
      var names := DisplayNames(order, actual);
      return ReconciliationResult(names, |names|, |expected|, |actual|, true, None);
    }

    var log := RemoveAndRegenerate(order, actual, service, repo, nginx, instruments, skipNginxRegen);
    result := ReconciliationResult(log.removed, |log.removed|, |expected|, |actual|, false, Some(log.errors));
  }
}
