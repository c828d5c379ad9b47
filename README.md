# Federation reconciliation and registry operations, modelled in Dafny

This project models the core of the MCP gateway registry's server-lifecycle and
operations logic. It has four modules, one per source file.

- **`FederationReconciliation`** (`federation_reconciliation.dfy`) models the Anthropic federation
  reconciliation engine. Each server name declared in the federation configuration becomes an
  expected storage path. The engine:
  - computes the stale records: those stored with source `"anthropic"` whose path is not expected;
  - walks the stale paths in ascending order and removes each one, isolating failures per item;
  - regenerates the nginx routing configuration when something was removed;
  - adds the removed count to a metrics counter;
  - returns a result record.

  The run is the imperative method `ReconcileAnthropicServers`. It works over collaborator objects
  (the server repository, the server service, nginx and the instruments) that record the calls
  made on them. It is proved against the pure function `Reconcile` and the pure removal pass
  `RunRemovals`. The lemmas state what the result means.
- **`AuditRoutes`** (`audit_routes.dfy`) models two parts of the audit-log API:
  - the translation of the filter parameters of an events query into a typed database query (`BuildQuery`);
  - the shaping of the aggregation rows of the statistics endpoint: top lists, timeline,
    status distribution and per-user activity.
- **`SystemRoutes`** (`system_routes.dfy`) models:
  - deployment-type detection from the environment;
  - the zero-on-error registry counts;
  - the database and auth-server health decisions;
  - the 30-second statistics cache with its uptime calculation, held in the module globals (the class `StatsCache`).
- **`RequestUtils`** (`request_utils.dfy`) models client-address extraction. It reads the first
  field of `X-Forwarded-For`, stripped, and uses it only when it is a valid IP address.
  Otherwise it uses the connection's peer host, and otherwise `"unknown"`.

Two shared modules support them:
- `Wrappers` (`wrappers.dfy`) holds `Option`, `Result` and Python's truthiness of an optional string.
- `StringOrder` (`string_order.dfy`) holds Python's ordering of `str` values and `sorted()` of a
  set of strings. Ascending order is unique, so a listing is characterised by its order and its elements.

Modelling choices:
- Time is an integer count of microseconds, the resolution of `datetime`. A `total_seconds()`
  comparison with 30 s becomes a comparison with 30 000 000 µs. `int()` of elapsed seconds truncates toward zero.
- Calls into code that is not part of this model become parameters:
  - `remove_server` is an outcome oracle;
  - `re.escape` is a function parameter;
  - `ipaddress.ip_address` is a predicate parameter;
  - HTTP probes map each endpoint to a status or an exception;
  - the repository counts and the database ping are outcomes.
- There are at most as many expected paths as declared names. The
  name-to-path mapping is not injective: `"a/b"` and `"a-b"` share `/a-b`. This is stated as a
  lemma and not changed.

## Model

| member | source | states |
|---|---|---|
| FederationReconciliation.NameToPath | registry/services/federation_reconciliation.py:55 | A declared name's path is one longer than the name, starts with '/', has no other '/', keeps every non-slash character of the name in place and turns every '/' of the name into '-' |
| FederationReconciliation.NameToPathCollision | registry/services/federation_reconciliation.py:55 | Two names share a path exactly when they have equal length and differ only where one has '/' and the other '-' |
| FederationReconciliation.NameToPathNotInjective | registry/services/federation_reconciliation.py:55 | The distinct names "a/b" and "a-b" are both stored at "/a-b" |
| FederationReconciliation.ConfigServerNamesToPaths | registry/services/federation_reconciliation.py:39-57 | A path is expected exactly when some declared server maps to it; there are at most as many expected paths as declared servers |
| FederationReconciliation.ExpectedPathShape | registry/services/federation_reconciliation.py:53-57 | Every expected path starts with '/' and contains no other '/' |
| FederationReconciliation.ExpectedPaths | registry/services/federation_reconciliation.py:124-130 | A path is expected exactly when federation is enabled and some declared server maps to it; there are never more expected paths than declared servers |
| FederationReconciliation.BySource | registry/services/federation_reconciliation.py:137-138 | list_by_source yields exactly the stored records carrying the source tag, unchanged, keyed by path |
| FederationReconciliation.StalePaths | registry/services/federation_reconciliation.py:145-146 | The stale set lies within the actual paths, is disjoint from the expected set, and together with it covers every actual path |
| FederationReconciliation.StaleOf | registry/services/federation_reconciliation.py:124-146 | A path is stale exactly when it is stored with source "anthropic" and is not expected |
| FederationReconciliation.DisabledProviderAllStale | registry/services/federation_reconciliation.py:124-146 | With federation disabled, the stale set is every stored record with source "anthropic", whatever is declared |
| FederationReconciliation.StaleAreAnthropic | registry/services/federation_reconciliation.py:136-146 | Only stored records with source "anthropic" that are not expected are ever stale |
| FederationReconciliation.DisplayNames | registry/services/federation_reconciliation.py:158-160 | One name per path, in order: the record's server_name, or the path when it has none |
| FederationReconciliation.RemovedInOrder | registry/services/federation_reconciliation.py:180-185 | The paths reported removed are exactly the attempted paths whose removal returned True, and no more than were attempted; they keep the ascending order of the attempted paths |
| FederationReconciliation.RunRemovals | registry/services/federation_reconciliation.py:178-198 | Fault isolation: every attempted path adds exactly one entry to removed or to errors, so the two lengths sum to the number attempted; its entries are characterised by RemovedAreTheSuccesses and ErrorsAreTheFailures |
| FederationReconciliation.RemovedAreTheSuccesses | registry/services/federation_reconciliation.py:180-185 | removed is the list of display names of the successful removals, in attempt order |
| FederationReconciliation.FailedInOrder | registry/services/federation_reconciliation.py:186-197 | The failed paths are exactly the attempted paths whose removal answered False or raised, and no more than were attempted; they keep the ascending order of the attempted paths |
| FederationReconciliation.ErrorsAreTheFailures | registry/services/federation_reconciliation.py:186-197 | errors holds one entry per failed path, in attempt order: "Failed to remove NAME (PATH)" for a False answer, "Error removing PATH: MESSAGE" for an exception |
| FederationReconciliation.RemovedCountIsStoreLoss | registry/services/federation_reconciliation.py:180-185 | Over distinct paths, the number of successes equals the number of records the store loses |
| FederationReconciliation.Reconcile | registry/services/federation_reconciliation.py:88-240 | removed_count is len(removed), expected_count and actual_count are the sizes of the expected and actual sets, and the errors key is present exactly in a run that is not dry and finds something stale; NothingStale, DryRunReport and ResultConsistent give the rest |
| FederationReconciliation.NothingStale | registry/services/federation_reconciliation.py:148-156 | With nothing stale the result is removed=[], removed_count=0, the two set sizes, dry_run echoed and no errors key, and no removal is attempted |
| FederationReconciliation.DryRunReport | registry/services/federation_reconciliation.py:158-175 | A dry run with stale paths reports the display names of the stale paths in ascending path order and their number, has no errors key, and attempts no removal |
| FederationReconciliation.ResultConsistent | registry/services/federation_reconciliation.py:148-240 | removed_count == len(removed) <= stale count, with equality in a dry run; expected_count and actual_count are the set sizes; the errors key is present exactly after a real pass, where removed and errors together account for every stale path |
| FederationReconciliation.Convergence | registry/services/federation_reconciliation.py:145-198 | A second run over the store a real run leaves finds exactly the stale paths whose removal failed; if every removal succeeds nothing is stale |
| FederationReconciliation.OthersUntouched | registry/services/federation_reconciliation.py:177-198 | Records of other sources and expected records survive any run unchanged |
| FederationReconciliation.EnabledServers | registry/services/federation_reconciliation.py:203-208 | The routing configuration receives exactly the records whose is_enabled is true (a missing flag counts as false), unchanged |
| FederationReconciliation.ServerRepository.ListBySource | registry/services/federation_reconciliation.py:137 | list_by_source returns the stored records carrying the source tag |
| FederationReconciliation.ServerRepository.ListAll | registry/services/federation_reconciliation.py:203 | list_all returns every stored record |
| FederationReconciliation.ServerService.RemoveServer | registry/services/federation_reconciliation.py:183 | remove_server records the call and deletes the record only when it answers True |
| FederationReconciliation.NginxService.GenerateConfig | registry/services/federation_reconciliation.py:209 | Each regeneration is recorded with the records it received; a failure is reported, never raised |
| FederationReconciliation.RecordReconciliationMetrics | registry/services/federation_reconciliation.py:60-85 | The counter receives the removed count tagged with source "anthropic" when the instruments and the counter exist; nothing else changes |
| FederationReconciliation.ComputeDelta | registry/services/federation_reconciliation.py:124-146 | Steps 1 to 3 yield the expected set (empty when disabled), the Anthropic records and the stale set of the current store |
| FederationReconciliation.RemoveStaleServers | registry/services/federation_reconciliation.py:177-198 | The loop calls remove_server once per path in order, builds removed and errors as the removal pass does, and the store loses exactly the successful paths |
| FederationReconciliation.RemoveAndRegenerate | registry/services/federation_reconciliation.py:177-219 | After the loop, nginx is called once with the enabled records of the updated store exactly when something was removed and regeneration is not skipped; the counter gets len(removed) |
| FederationReconciliation.ReconcileAnthropicServers | registry/services/federation_reconciliation.py:88-240 | The result is the reconciliation of the store as it was; remove_server is called on the stale paths in ascending order, never in a dry run or when nothing is stale; the store loses exactly the successful paths; nginx and metrics are called only after a real run |
| StringOrder.Sorted | registry/services/federation_reconciliation.py:159 | sorted() of a set lists each element exactly once, in strictly ascending str order |
| StringOrder.SortedUnique | registry/services/federation_reconciliation.py:180 | Any strictly ascending listing of the stale set is the one the loop walks |
| AuditRoutes.LogType | registry/audit/routes.py:210-214 | "registry_api" maps to "registry_api_access", "mcp_access" to "mcp_server_access", any other stream to itself |
| AuditRoutes.BuildQuery | registry/audit/routes.py:179-279 | Key by key, when each query key is present and what it holds: log type always; timestamp iff a bound is given, with exactly the given bounds; username regex iff a username is given; stream-dependent action keys; status keys; authorization decision iff given |
| AuditRoutes.ActionFilters | registry/audit/routes.py:230-245 | For mcp_access, operation goes to the request method and resource_type to a case-insensitive escaped server-name regex, and resource_id is ignored; otherwise the three go verbatim to action.*; empty values set nothing |
| AuditRoutes.StatusFilters | registry/audit/routes.py:247-273 | For mcp_access a status string is set only for a success or error range and the numeric key never; otherwise the numeric range is set iff a bound is given |
| AuditRoutes.RangeFilter | registry/audit/routes.py:217-222 | $gte is present exactly when the lower bound is given and $lte exactly when the upper one is |
| AuditRoutes.McpStatusFilter | registry/audit/routes.py:252-266 | "success" iff min >= 200 and max absent or below 400; "error" iff min >= 400 and max given and at least 400; nothing otherwise, so the (400, 599) branch adds nothing |
| AuditRoutes.TopItems | registry/audit/routes.py:494-514 | A top list has at most one item per row and every item has a non-empty name, so the "unknown" fallback never shows |
| AuditRoutes.TopItemsKeepsOrder | registry/audit/routes.py:494-498 | Shaping a top list distributes over concatenation of the rows, so input order is kept |
| AuditRoutes.TopItemsOfOneRow | registry/audit/routes.py:494-498 | A row with a non-empty _id becomes one item with its name and count; a row without one is dropped |
| AuditRoutes.TopItemsNamed | registry/audit/routes.py:494-514 | A top list has exactly one item per row with a non-empty _id |
| AuditRoutes.TopServers | registry/audit/routes.py:491-508 | top_servers is empty for the registry stream and the shaped server rows for mcp_access |
| AuditRoutes.ActivityTimeline | registry/audit/routes.py:516-518 | One bucket per timeline row, in order, with its period and count |
| AuditRoutes.LastCount | registry/audit/routes.py:520-534 | A bucket holds the count of the last row whose _id names it |
| AuditRoutes.StatusDistributionOf | registry/audit/routes.py:520-534 | mcp_access never fills 4xx, and with no rows every bucket is 0 |
| AuditRoutes.ShapeStatusDistribution | registry/audit/routes.py:520-534 | The loop sets each bucket to the count of the last row naming it; for mcp_access, success fills 2xx and error fills 5xx |
| AuditRoutes.LastCountOfGroupedRows | registry/audit/routes.py:520-534 | With distinct _ids, a bucket holds exactly the count of the row with that _id |
| AuditRoutes.LastCountAbsent | registry/audit/routes.py:527-534 | A bucket no row names stays 0, so rows such as "other" change nothing |
| AuditRoutes.FirstOperations | registry/audit/routes.py:544 | The first five operations of the user's list, in order, or all of them when there are fewer; a missing list gives none |
| AuditRoutes.ShapeOperations | registry/audit/routes.py:543-548 | The inner loop keeps, in order, the operations with a non-empty name (name, else _id.op), with count defaulting to 0 |
| AuditRoutes.ShapeUserActivity | registry/audit/routes.py:537-555 | The outer loop skips rows without a user and builds one item per user with total defaulting to 0 and the shaped first five operations |
| AuditRoutes.OperationItems | registry/audit/routes.py:543-548 | No more operation items than entries, each with a non-empty name; completed by the order and one-entry lemmas |
| AuditRoutes.OperationItemsKeepsOrder | registry/audit/routes.py:544-548 | Shaping a user's operations distributes over concatenation, so entries keep their input order |
| AuditRoutes.OperationItemsOfOne | registry/audit/routes.py:544-548 | An entry with a name (else `_id.op`) becomes exactly one item with that name and its count, 0 by default; any other entry becomes none |
| AuditRoutes.UserActivity | registry/audit/routes.py:537-555 | At most one item per row; every user name is non-empty, every user has at most five operations, and every operation name is non-empty |
| AuditRoutes.UserActivityOfOneRow | registry/audit/routes.py:539-555 | A row with a user becomes exactly one item (name, total or 0, shaped operations); a row without one is dropped |
| AuditRoutes.UserActivityKeepsOrder | registry/audit/routes.py:539-555 | User activity shaping distributes over concatenation, so row order is kept |
| AuditRoutes.GenerateCsv | registry/audit/routes.py:762-766 | The export yields exactly one chunk: the empty string when there are no events, the rendered document otherwise |
| SystemRoutes.DetectDeploymentType | registry/api/system_routes.py:36-63 | The result is one of the four types; Kubernetes iff its host variable is set; ECS iff not Kubernetes and a metadata URI is set; EC2 iff neither and the execution environment is AWS_ECS_EC2 |
| SystemRoutes.DeploymentTypeReadsOnlyItsVariables | registry/api/system_routes.py:49-63 | Environments agreeing on the four detection variables give the same type |
| SystemRoutes.GetRegistryStats | registry/api/system_routes.py:66-104 | All counts succeed: they are reported; any count raises: all three are 0 |
| SystemRoutes.NatToString | registry/api/system_routes.py:182 | The port is rendered as a non-empty string of decimal digits with no leading zero, as Python formats an int |
| SystemRoutes.NatToStringRoundTrip | registry/api/system_routes.py:191 | The rendered port reads back as the port, so distinct ports give distinct host strings |
| SystemRoutes.GetDatabaseStatus | registry/api/system_routes.py:156-196 | The file backend gives file/N/A/N/A; any other backend gives itself, host "host:port", and "Healthy" iff the ping succeeds, "Unhealthy" otherwise |
| SystemRoutes.DatabaseHostIsNotApplicableOnlyForFile | registry/api/system_routes.py:165-196 | Host and status read "N/A" exactly for the file backend |
| SystemRoutes.HealthEndpoints | registry/api/system_routes.py:122-126 | Three endpoints are tried |
| SystemRoutes.FirstReachable | registry/api/system_routes.py:128-138 | The index of the first endpoint answering below 500: every earlier one raised or answered 500 or above |
| SystemRoutes.GetAuthStatus | registry/api/system_routes.py:107-153 | The loop requests endpoints in order up to and including the first answering below 500, and reports the status the decision gives |
| SystemRoutes.AuthStatusOf | registry/api/system_routes.py:107-153 | "Healthy" iff the client is created and some endpoint answers below 500, "Unhealthy" otherwise; provider and URL are echoed |
| SystemRoutes.RequestedEndpoints | registry/api/system_routes.py:128-140 | Nothing is requested iff there is no client; requests follow the endpoint order, every request before the last one failed, and stopping early means the last one answered below 500 |
| SystemRoutes.LastRequestedDecides | registry/api/system_routes.py:128-153 | With a client, the status is "Healthy" exactly when the last endpoint requested answered below 500, and "Unhealthy" only after all three were requested |
| SystemRoutes.Uptime | registry/api/system_routes.py:225-231 | The whole seconds elapsed since the start, truncated toward zero, with the start reported; without a start time, 0 and now |
| SystemRoutes.FreshStats | registry/api/system_routes.py:219-242 | Fresh stats carry the uptime and start time, the detected deployment type, and the registry, database and auth reports the three probes make of the collaborators' answers |
| SystemRoutes.CacheHit | registry/api/system_routes.py:212-217 | The cache is used when both globals are set and it is younger than 30 seconds; its effect is stated by Step, CacheHitReturnsCached and CacheExpiresAfterTtl |
| SystemRoutes.Step | registry/api/system_routes.py:199-248 | A call never changes the start time, leaves in the cache the stats it returns, and leaves the cache valid at the time of the call |
| SystemRoutes.CacheHitReturnsCached | registry/api/system_routes.py:212-217 | On a hit the cached stats come back unchanged and the globals stay as they are |
| SystemRoutes.CacheMissRefreshes | registry/api/system_routes.py:219-248 | On a miss fresh stats are returned, the cache then holds exactly them with cache time now, and the start time is kept |
| SystemRoutes.RepeatWithinTtlIsCached | registry/api/system_routes.py:212-246 | After a refresh, any call within 30 seconds returns the same stats and changes nothing, whatever the collaborators would report |
| SystemRoutes.CacheExpiresAfterTtl | registry/api/system_routes.py:212-246 | Once 30 seconds have passed since the refresh, the next call computes the stats afresh |
| SystemRoutes.UptimeWithoutStartTime | registry/api/system_routes.py:225-231 | Fresh stats without a start time report uptime 0 and started_at now |
| SystemRoutes.StatsCache.constructor | registry/api/system_routes.py:20-23 | The three globals start unset |
| SystemRoutes.StatsCache.SetServerStartTime | registry/api/system_routes.py:27-33 | Records the start time and leaves the cache alone |
| SystemRoutes.StatsCache.GetCachedStats | registry/api/system_routes.py:199-248 | The returned stats and new globals are those of one cache step; refreshed iff the cache was missing or at least 30 seconds old |
| RequestUtils.FirstField | registry/utils/request_utils.py:30 | The first comma-separated field is a prefix without commas that is the whole text or stops at the first comma |
| RequestUtils.LeadingSpaces | registry/utils/request_utils.py:30 | strip() drops exactly the leading whitespace, up to the first non-whitespace character |
| RequestUtils.TrailingEnd | registry/utils/request_utils.py:30 | strip() drops exactly the trailing whitespace, back to the last non-whitespace character |
| RequestUtils.Strip | registry/utils/request_utils.py:30 | The stripped text is the slice after the leading whitespace, followed only by whitespace, and neither starts nor ends with whitespace |
| RequestUtils.StripIdempotent | registry/utils/request_utils.py:30 | Stripping twice is stripping once |
| RequestUtils.NoSurroundingWhitespaceIsFixed | registry/utils/request_utils.py:30 | Text without surrounding whitespace is left unchanged by strip() |
| RequestUtils.Candidate | registry/utils/request_utils.py:30 | The candidate holds no comma and has no surrounding whitespace |
| RequestUtils.CandidateIsTrimmedFirstField | registry/utils/request_utils.py:28-30 | The candidate is a slice of the header before its first comma, without commas or surrounding whitespace |
| RequestUtils.GetClientIp | registry/utils/request_utils.py:15-40 | The header candidate when the header is non-empty and the candidate is a valid IP; else the client host when there is a client; else "unknown" |
| RequestUtils.ClientIpIsValidatedOrFallback | registry/utils/request_utils.py:28-40 | The result is a validated header candidate, the client host, or "unknown"; without a client, anything but "unknown" came from the header and passed validation |

## Left out

- Logging, the elapsed-time measurement and the duration histogram in `_record_reconciliation_metrics` are left out: they affect no result.
- `audit_username` and the audit summary line of `reconcile_anthropic_servers` only feed a log message.
- FederationReconciliation.ServerRepository.ListAll: the model has no `list_all` that raises. A failure there would skip the nginx call, and that is ignored like a regeneration failure.
- FederationReconciliation.ServerService.RemoveServer: a `False` answer or an exception is modelled as leaving the store unchanged. What the real service does to the store in those cases is not part of this model.
- FederationReconciliation.ReconcileAnthropicServers: a raise from `list_by_source` is not modelled; the source propagates it to the caller.
- The name-to-path collision (`"a/b"` and `"a-b"`) is stated, not fixed.
- MongoDB aggregation pipelines, `count`/`find`/`distinct` and `asyncio.gather` are left out: they run inside the database or concern concurrency. Their results are inputs to the shaping functions.
- FastAPI routing, authentication dependencies, `StreamingResponse` and HTTP exceptions are transport plumbing and are left out.
- AuditRoutes.GenerateCsv: the CSV writer body is a parameter `render`. Only the empty case and the single-chunk shape are stated. `_generate_jsonl` is serialisation and is left out.
- AuditRoutes.BuildQuery: `re.escape` is a function parameter. Timestamps are opaque integers.
- AuditRoutes.ShapeUserActivity: `str(op_name)` is the identity, because names are modelled as strings.
- AuditRoutes.ShapeStatusDistribution: rows whose `_id` key is missing are treated as not matching; the source would raise a `KeyError` on the MCP branch.
- SystemRoutes.GetRegistryStats: a failure to obtain the repositories is treated like a failing count. Either way all counts are zero.
- SystemRoutes.GetDatabaseStatus: the port is a non-negative integer. Obtaining the client and pinging it are one outcome, `pingOk`.
- SystemRoutes.GetAuthStatus: the HTTP client and its 5-second timeout are the flag `clientOk` and the function `probe`.
- SystemRoutes.StatsCache.GetCachedStats: `datetime.now`, `isoformat`, `__version__` and `settings` are inputs. The answers of the collaborators (the three counts, the database ping, the HTTP client and the endpoint answers) are fields of a `Snapshot`, and the stats are computed from them by the three probe functions.
- SystemRoutes.Uptime: `total_seconds()` is taken as exact on the microsecond count. Float rounding of very large differences is not modelled.
- RequestUtils.GetClientIp: `ipaddress.ip_address` is the predicate parameter `isIp`. The client host is returned as the framework gives it.
- The tests of endpoint utilities, safe arithmetic evaluation and URL validation exercise code that is not part of this model. `metrics-service/app/core/models.py` holds declarations only.
