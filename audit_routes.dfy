/**
 * The pure halves of the audit log API: turning the filter parameters of an
 * events query into a typed database query, and shaping the aggregation rows
 * of the statistics endpoint into its response. The aggregations themselves
 * run inside the database; their rows are inputs here.
 */
module AuditRoutes {
  import opened Wrappers

  /** A timestamp, as an opaque integer. */
  type Time = int

  const RegistryApiStream: string := "registry_api"
  const McpAccessStream: string := "mcp_access"

  /** The stored `log_type` of each known stream; any other stream name is used as it is. */
  const LogTypeMap: map<string, string> := map[
    RegistryApiStream := "registry_api_access",
    McpAccessStream := "mcp_server_access"
  ]

  /** The stored `log_type` a stream name selects. */
  function LogType(stream: string): (logType: string)
    ensures stream == RegistryApiStream ==> logType == "registry_api_access"
    ensures stream == McpAccessStream ==> logType == "mcp_server_access"
    ensures stream != RegistryApiStream && stream != McpAccessStream ==> logType == stream
  {
    if stream in LogTypeMap then LogTypeMap[stream] else stream
  }

  // ---------------------------------------------------------------------------
  // _build_query
  // ---------------------------------------------------------------------------

  /** The query parameters of the events and export endpoints. */
  datatype AuditFilter = AuditFilter(
    stream: string,
    fromTime: Option<Time>,
    toTime: Option<Time>,
    username: Option<string>,
    operation: Option<string>,
    resourceType: Option<string>,
    resourceId: Option<string>,
    statusMin: Option<int>,
    statusMax: Option<int>,
    authDecision: Option<string>)

  /** A `{"$gte": ..., "$lte": ...}` range, each bound present or not. */
  datatype Bounds<T> = Bounds(gte: Option<T>, lte: Option<T>)

  /** A `{"$regex": pattern, "$options": options}` condition. */
  datatype RegexCondition = RegexCondition(pattern: string, options: string)

  /** The keys the action filters may set: `mcp_request.method`, `mcp_server.name`, `action.*`. */
  datatype ActionQuery = ActionQuery(
    mcpRequestMethod: Option<string>,
    mcpServerName: Option<RegexCondition>,
    actionOperation: Option<string>,
    actionResourceType: Option<string>,
    actionResourceId: Option<string>)

  /** The keys the response-status filter may set: `mcp_response.status`, `response.status_code`. */
  datatype StatusQuery = StatusQuery(
    mcpResponseStatus: Option<string>,
    responseStatusCode: Option<Bounds<int>>)

  /** The query dictionary, one optional field per key `_build_query` may set. */
  datatype AuditQuery = AuditQuery(
    logType: string,
    timestamp: Option<Bounds<Time>>,
    identityUsername: Option<RegexCondition>,
    action: ActionQuery,
    status: StatusQuery,
    authorizationDecision: Option<string>)

  /** The status range an MCP query maps to "success". */
  predicate McpSuccessRange(statusMin: Option<int>, statusMax: Option<int>)
  {
    statusMin.Some? && statusMin.value >= 200 && (statusMax.None? || statusMax.value < 400)
  }

  /** The status range an MCP query maps to "error". */
  predicate McpErrorRange(statusMin: Option<int>, statusMax: Option<int>)
  {
    statusMin.Some? && statusMin.value >= 400 && statusMax.Some? && statusMax.value >= 400
  }

  /**
   * What the action keys hold: MCP records are matched on the request method
   * and, case-insensitively and literally, on the server name; other records
   * on the action's operation, resource type and resource id. An absent or
   * empty parameter sets no key.
   */
  predicate ActionKeys(stream: string, operation: Option<string>, resourceType: Option<string>,
                       resourceId: Option<string>, escape: string -> string, a: ActionQuery)
  {
    && (a.mcpRequestMethod.Some? <==> stream == McpAccessStream && Given(operation))
    && (a.mcpRequestMethod.Some? ==> a.mcpRequestMethod == operation)
    && (a.mcpServerName.Some? <==> stream == McpAccessStream && Given(resourceType))
    && (a.mcpServerName.Some? ==> a.mcpServerName.value == RegexCondition(escape(resourceType.value), "i"))
    && (a.actionOperation.Some? <==> stream != McpAccessStream && Given(operation))
    && (a.actionOperation.Some? ==> a.actionOperation == operation)
    && (a.actionResourceType.Some? <==> stream != McpAccessStream && Given(resourceType))
    && (a.actionResourceType.Some? ==> a.actionResourceType == resourceType)
    && (a.actionResourceId.Some? <==> stream != McpAccessStream && Given(resourceId))
    && (a.actionResourceId.Some? ==> a.actionResourceId == resourceId)
  }

  /**
   * What the status keys hold: for MCP records "success" exactly on a success
   * range, "error" exactly on an error range, and nothing else; for other
   * records the numeric range whenever a bound is given.
   */
  predicate StatusKeys(stream: string, statusMin: Option<int>, statusMax: Option<int>, s: StatusQuery)
  {
    && (s.mcpResponseStatus == Some("success") <==> stream == McpAccessStream && McpSuccessRange(statusMin, statusMax))
    && (s.mcpResponseStatus == Some("error") <==> stream == McpAccessStream && McpErrorRange(statusMin, statusMax))
    && (s.mcpResponseStatus.None? || s.mcpResponseStatus == Some("success") || s.mcpResponseStatus == Some("error"))
    && (s.responseStatusCode.Some? <==> stream != McpAccessStream && (statusMin.Some? || statusMax.Some?))
    && (s.responseStatusCode.Some? ==> s.responseStatusCode.value == Bounds(statusMin, statusMax))
  }

  /**
   * `_build_query`, assigning the keys section by section. `escape` stands for
   * `re.escape`. The contract gives, key by key, when the key is present and
   * what it holds; in particular the MCP status is "error" only when the
   * minimum is at least 400 and the maximum is given and at least 400, so the
   * (400, 599) branch of the source adds nothing.
   */
  method BuildQuery(f: AuditFilter, escape: string -> string) returns (q: AuditQuery)
    ensures q.logType == LogType(f.stream)
    ensures q.timestamp.Some? <==> f.fromTime.Some? || f.toTime.Some?
    ensures q.timestamp.Some? ==> q.timestamp.value == Bounds(f.fromTime, f.toTime)
    ensures q.identityUsername.Some? <==> Given(f.username)
    ensures Given(f.username) ==> q.identityUsername.value == RegexCondition(escape(f.username.value), "i")
    ensures ActionKeys(f.stream, f.operation, f.resourceType, f.resourceId, escape, q.action)
    ensures StatusKeys(f.stream, f.statusMin, f.statusMax, q.status)
    ensures q.authorizationDecision.Some? <==> Given(f.authDecision)
    ensures q.authorizationDecision.Some? ==> q.authorizationDecision == f.authDecision
  {
    var timestamp: Option<Bounds<Time>> := None;
    if f.fromTime.Some? || f.toTime.Some? {
      var range := RangeFilter(f.fromTime, f.toTime);
      timestamp := Some(range);
    }

    var identityUsername: Option<RegexCondition> := None;
    if Given(f.username) {
      identityUsername := Some(RegexCondition(escape(f.username.value), "i"));
    }

    var action := ActionFilters(f.stream, f.operation, f.resourceType, f.resourceId, escape);
    var status := StatusFilters(f.stream, f.statusMin, f.statusMax);

    var authorizationDecision: Option<string> := None;
    if Given(f.authDecision) {
      authorizationDecision := f.authDecision;
    }

    q := AuditQuery(LogType(f.stream), timestamp, identityUsername, action, status, authorizationDecision);
  }

  /** The action-filter section of `_build_query`. */
  method ActionFilters(stream: string, operation: Option<string>, resourceType: Option<string>,
                       resourceId: Option<string>, escape: string -> string)
    returns (a: ActionQuery)
    ensures ActionKeys(stream, operation, resourceType, resourceId, escape, a)
  {
    a := ActionQuery(None, None, None, None, None);
    if stream == McpAccessStream {
      if Given(operation) {
        a := a.(mcpRequestMethod := operation);
      }
      if Given(resourceType) {
        a := a.(mcpServerName := Some(RegexCondition(escape(resourceType.value), "i")));
      }
    } else {
      if Given(operation) {
        a := a.(actionOperation := operation);
      }
      if Given(resourceType) {
        a := a.(actionResourceType := resourceType);
      }
      if Given(resourceId) {
        a := a.(actionResourceId := resourceId);
      }
    }
  }

  /** The response-status section of `_build_query`. */
  method StatusFilters(stream: string, statusMin: Option<int>, statusMax: Option<int>)
    returns (s: StatusQuery)
    ensures StatusKeys(stream, statusMin, statusMax, s)
  {
    s := StatusQuery(None, None);
    if statusMin.Some? || statusMax.Some? {
      if stream == McpAccessStream {
        var status := McpStatusFilter(statusMin, statusMax);
        s := s.(mcpResponseStatus := status);
      } else {
        var range := RangeFilter(statusMin, statusMax);
        s := s.(responseStatusCode := Some(range));
      }
    }
  }

  /** A `$gte`/`$lte` range built key by key from the bounds that are given. */
  method RangeFilter<T>(lower: Option<T>, upper: Option<T>) returns (range: Bounds<T>)
    ensures range == Bounds(lower, upper)
  {
    range := Bounds(None, None);
    if lower.Some? {
      range := range.(gte := lower);
    }
    if upper.Some? {
      range := range.(lte := upper);
    }
  }

  /**
   * The MCP status a numeric status range maps to: "success" for a range at
   * or above 200 that stays below 400, "error" for a range at or above 400
   * with an upper bound at or above 400, nothing otherwise.
   */
  method McpStatusFilter(statusMin: Option<int>, statusMax: Option<int>) returns (status: Option<string>)
    ensures status == Some("success") <==> McpSuccessRange(statusMin, statusMax)
    ensures status == Some("error") <==> McpErrorRange(statusMin, statusMax)
    ensures status.None? || status == Some("success") || status == Some("error")
  {
    status := None;
    if McpSuccessRange(statusMin, statusMax) {
      status := Some("success");
    } else if statusMin.Some? && statusMin.value >= 400 {
      status := Some("error");
    } else if statusMin == Some(400) && statusMax == Some(599) {
      status := Some("error");
    }
  }

  // ---------------------------------------------------------------------------
  // get_statistics: shaping the aggregation rows
  // ---------------------------------------------------------------------------

  /** A `{"_id": ..., "count": ...}` row of a group-by aggregation; a null `_id` is `None`. */
  datatype CountRow = CountRow(id: Option<string>, count: int)

  datatype UsageSummaryItem = UsageSummaryItem(name: string, count: int)

  /**
   * `[UsageSummaryItem(name=r["_id"] or "unknown", count=r["count"]) for r in rows if r.get("_id")]`:
   * at most one item per row, and "unknown" never appears since only rows with
   * a non-empty `_id` are kept.
   */
  function TopItems(rows: seq<CountRow>): (items: seq<UsageSummaryItem>)
    ensures |items| <= |rows|
    ensures forall i :: 0 <= i < |items| ==> items[i].name != ""
    decreases |rows|
  {
    if rows == [] then []
    else
      var init := TopItems(rows[..|rows| - 1]);
      var r := rows[|rows| - 1];
      if Given(r.id) then init + [UsageSummaryItem(r.id.value, r.count)] else init
  }

  /** The number of rows that carry a non-empty `_id`. */
  function NamedRows(rows: seq<CountRow>): nat
    decreases |rows|
  {
    if rows == [] then 0
    else NamedRows(rows[..|rows| - 1]) + (if Given(rows[|rows| - 1].id) then 1 else 0)
  }

  /**
   * The top lists keep the rows with a non-empty `_id`, in input order, with
   * their counts, and only those: shaping distributes over concatenation, a
   * named row becomes exactly one item, an unnamed row none.
   */
  lemma {:induction false} TopItemsKeepsOrder(a: seq<CountRow>, b: seq<CountRow>)
    ensures TopItems(a + b) == TopItems(a) + TopItems(b)
    decreases |b|
  {
    if b == [] {
      assert a + b == a;
    } else {
      var bInit := b[..|b| - 1];
      assert (a + b)[..|a + b| - 1] == a + bInit;
      TopItemsKeepsOrder(a, bInit);
    }
  }

  lemma TopItemsOfOneRow(r: CountRow)
    ensures TopItems([r]) == if Given(r.id) then [UsageSummaryItem(r.id.value, r.count)] else []
  {
    assert [r][..0] == [];
  }

  /** There is exactly one item per row with a non-empty `_id`. */
  lemma {:induction false} TopItemsNamed(rows: seq<CountRow>)
    ensures |TopItems(rows)| == NamedRows(rows)
    decreases |rows|
  {
    if rows != [] {
      TopItemsNamed(rows[..|rows| - 1]);
    }
  }

  /** `top_servers`: the MCP stream's server rows, shaped; always empty for the registry stream. */
  function TopServers(stream: string, serverRows: seq<CountRow>): (items: seq<UsageSummaryItem>)
    ensures stream != McpAccessStream ==> items == []
    ensures stream == McpAccessStream ==> items == TopItems(serverRows)
  {
    var raw := if stream == McpAccessStream then serverRows else [];
    if raw != [] then TopItems(raw) else []
  }

  datatype TimeSeriesBucket = TimeSeriesBucket(period: string, count: int)

  /** `activity_timeline`: one bucket per row, in order. */
  function ActivityTimeline(rows: seq<(string, int)>): (buckets: seq<TimeSeriesBucket>)
    ensures |buckets| == |rows|
    ensures forall i :: 0 <= i < |rows| ==> buckets[i] == TimeSeriesBucket(rows[i].0, rows[i].1)
  {
    seq(|rows|, i requires 0 <= i < |rows| => TimeSeriesBucket(rows[i].0, rows[i].1))
  }

  datatype StatusDistribution = StatusDistribution(status2xx: int, status4xx: int, status5xx: int)

  /** Row `i` is the last row whose `_id` is `key`. */
  predicate IsLastWith(rows: seq<CountRow>, key: string, i: nat)
  {
    i < |rows| && rows[i].id == Some(key) && forall j :: i < j < |rows| ==> rows[j].id != Some(key)
  }

  /** The count of the last row whose `_id` is `key`, or 0 when there is none. */
  function LastCount(rows: seq<CountRow>, key: string): (c: int)
    ensures forall i: nat :: IsLastWith(rows, key, i) ==> c == rows[i].count
    decreases |rows|
  {
    if rows == [] then 0
    else if rows[|rows| - 1].id == Some(key) then rows[|rows| - 1].count
    else
      var init := rows[..|rows| - 1];
      assert forall i: nat :: IsLastWith(rows, key, i) ==> IsLastWith(init, key, i) && init[i] == rows[i];
      LastCount(init, key)
  }

  /**
   * The status distribution the loops of `get_statistics` produce. The MCP
   * stream never fills 4xx; with no rows every field is 0.
   */
  function StatusDistributionOf(stream: string, rows: seq<CountRow>): (d: StatusDistribution)
    ensures stream == McpAccessStream ==> d.status4xx == 0
    ensures rows == [] ==> d == StatusDistribution(0, 0, 0)
  {
    if stream == McpAccessStream then
      StatusDistribution(LastCount(rows, "success"), 0, LastCount(rows, "error"))
    else
      StatusDistribution(LastCount(rows, "2xx"), LastCount(rows, "4xx"), LastCount(rows, "5xx"))
  }

  /**
   * The status-distribution loop: each row whose `_id` names a bucket sets that
   * field to its count; for MCP, "success" is 2xx and "error" is 5xx.
   */
  method ShapeStatusDistribution(stream: string, rows: seq<CountRow>) returns (d: StatusDistribution)
    ensures d == StatusDistributionOf(stream, rows)
  {
    d := StatusDistribution(0, 0, 0);
    var i := 0;
    while i < |rows|
      invariant 0 <= i <= |rows|
      invariant d == StatusDistributionOf(stream, rows[..i])
    {
      var r := rows[i];
      assert rows[..i + 1][..i] == rows[..i];
      if stream == McpAccessStream {
        if r.id == Some("success") {
          d := d.(status2xx := r.count);
        } else if r.id == Some("error") {
          d := d.(status5xx := r.count);
        }
      } else {
        if r.id == Some("2xx") {
          d := d.(status2xx := r.count);
        } else if r.id == Some("4xx") {
          d := d.(status4xx := r.count);
        } else if r.id == Some("5xx") {
          d := d.(status5xx := r.count);
        }
      }
      i := i + 1;
    }
    assert rows[..i] == rows;
  }

  /** The `_id` values of distinct rows differ, as a group-by stage guarantees. */
  predicate DistinctIds(rows: seq<CountRow>)
  {
    forall i, j :: 0 <= i < j < |rows| && rows[i].id.Some? ==> rows[i].id != rows[j].id
  }

  /** With distinct `_id`s, a bucket's field is the count of the row with that `_id`. */
  lemma {:induction false} LastCountOfGroupedRows(rows: seq<CountRow>, k: nat)
    requires DistinctIds(rows)
    requires k < |rows| && rows[k].id.Some?
    ensures LastCount(rows, rows[k].id.value) == rows[k].count
    decreases |rows|
  {
    if k != |rows| - 1 {
      var init := rows[..|rows| - 1];
      assert init[k] == rows[k];
      LastCountOfGroupedRows(init, k);
    }
  }

  /** A bucket no row names stays 0, so "other" rows and unknown MCP statuses change nothing. */
  lemma {:induction false} LastCountAbsent(rows: seq<CountRow>, key: string)
    requires forall i :: 0 <= i < |rows| ==> rows[i].id != Some(key)
    ensures LastCount(rows, key) == 0
    decreases |rows|
  {
    if rows != [] {
      LastCountAbsent(rows[..|rows| - 1], key);
    }
  }

  // ---------------------------------------------------------------------------
  // get_statistics: per-user activity
  // ---------------------------------------------------------------------------

  /** At most this many operations are reported per user. */
  const MaxOperationsPerUser: nat := 5

  /**
   * An entry of a user's `operations` list: a dictionary with optional `name`,
   * nested `_id.op` and `count`, or anything that is not a dictionary.
   */
  datatype OperationEntry = OperationEntry(name: Option<string>, idOp: Option<string>, count: Option<int>) | NotADict

  /** A per-user row: `_id` (the user), optional `total`, optional `operations` list. */
  datatype ActivityRow = ActivityRow(id: Option<string>, total: Option<int>, operations: Option<seq<OperationEntry>>)

  datatype UserActivityItem = UserActivityItem(username: string, total: int, operations: seq<UsageSummaryItem>)

  /** `op.get("name") or op.get("_id", {}).get("op")`, or None for a non-dictionary. */
  function OperationName(op: OperationEntry): Option<string>
  {
    match op
    case NotADict => None
    case OperationEntry(name, idOp, _) => if Given(name) then name else idOp
  }

  /** `(r.get("operations") or [])[:5]`: the first five operations, or all of them when there are fewer. */
  function FirstOperations(r: ActivityRow): (ops: seq<OperationEntry>)
    ensures var all := r.operations.GetOr([]);
      && |ops| == (if |all| < MaxOperationsPerUser then |all| else MaxOperationsPerUser)
      && forall i :: 0 <= i < |ops| ==> ops[i] == all[i]
  {
    var all := r.operations.GetOr([]);
    if |all| <= MaxOperationsPerUser then all else all[..MaxOperationsPerUser]
  }

  /**
   * The operation items of a user: the entries with a non-empty name, count
   * defaulting to 0; at most one item per entry.
   */
  function OperationItems(ops: seq<OperationEntry>): (items: seq<UsageSummaryItem>)
    ensures |items| <= |ops|
    ensures forall k :: 0 <= k < |items| ==> items[k].name != ""
    decreases |ops|
  {
    if ops == [] then []
    else
      var init := OperationItems(ops[..|ops| - 1]);
      var op := ops[|ops| - 1];
      var name := OperationName(op);
      if Given(name) then init + [UsageSummaryItem(name.value, if op.OperationEntry? then op.count.GetOr(0) else 0)]
      else init
  }

  /**
   * `user_activity` as the nested loops build it. Every reported user has a
   * non-empty name and at most five operations, each with a non-empty name;
   * there is at most one item per row.
   */
  function UserActivity(rows: seq<ActivityRow>): (activity: seq<UserActivityItem>)
    ensures |activity| <= |rows|
    ensures forall k :: 0 <= k < |activity| ==>
              && activity[k].username != ""
              && |activity[k].operations| <= MaxOperationsPerUser
              && forall m :: 0 <= m < |activity[k].operations| ==> activity[k].operations[m].name != ""
    decreases |rows|
  {
    if rows == [] then []
    else
      var init := UserActivity(rows[..|rows| - 1]);
      var r := rows[|rows| - 1];
      if Given(r.id) then init + [UserActivityItem(r.id.value, r.total.GetOr(0), OperationItems(FirstOperations(r)))]
      else init
  }

  /** The inner loop: the items of the first five operations of one user. */
  method ShapeOperations(ops: seq<OperationEntry>) returns (items: seq<UsageSummaryItem>)
    ensures items == OperationItems(ops)
  {
    items := [];
    var j := 0;
    while j < |ops|
      invariant 0 <= j <= |ops|
      invariant items == OperationItems(ops[..j])
    {
      var op := ops[j];
      var name := OperationName(op);
      var count := if op.OperationEntry? then op.count.GetOr(0) else 0;
      assert ops[..j + 1][..j] == ops[..j];
      if Given(name) {
        items := items + [UsageSummaryItem(name.value, count)];
      }
      j := j + 1;
    }
    assert ops[..j] == ops;
  }

  /**
   * A user's operations keep the entries with a name (or `_id.op`), in input
   * order, and only those: shaping distributes over concatenation, a named
   * entry becomes exactly one item with its count (0 by default), others none.
   */
  lemma {:induction false} OperationItemsKeepsOrder(a: seq<OperationEntry>, b: seq<OperationEntry>)
    ensures OperationItems(a + b) == OperationItems(a) + OperationItems(b)
    decreases |b|
  {
    if b == [] {
      assert a + b == a;
    } else {
      var bInit := b[..|b| - 1];
      assert (a + b)[..|a + b| - 1] == a + bInit;
      OperationItemsKeepsOrder(a, bInit);
    }
  }

  lemma OperationItemsOfOne(op: OperationEntry)
    ensures OperationItems([op]) ==
      if Given(OperationName(op))
      then [UsageSummaryItem(OperationName(op).value, if op.OperationEntry? then op.count.GetOr(0) else 0)]
      else []
  {
    assert [op][..0] == [];
  }

  /** The outer loop over the per-user rows, skipping rows without a user. */
  method ShapeUserActivity(rows: seq<ActivityRow>) returns (activity: seq<UserActivityItem>)
    ensures activity == UserActivity(rows)
  {
    activity := [];
    var i := 0;
    while i < |rows|
      invariant 0 <= i <= |rows|
      invariant activity == UserActivity(rows[..i])
    {
      var r := rows[i];
      assert rows[..i + 1][..i] == rows[..i];
      if Given(r.id) {
        var ops := ShapeOperations(FirstOperations(r));
        activity := activity + [UserActivityItem(r.id.value, r.total.GetOr(0), ops)];
      }
      i := i + 1;
    }
    assert rows[..i] == rows;
  }

  /** A row with a user becomes one item: its name, its total or 0, its shaped operations. */
  lemma UserActivityOfOneRow(r: ActivityRow)
    ensures UserActivity([r]) ==
      if Given(r.id) then [UserActivityItem(r.id.value, r.total.GetOr(0), OperationItems(FirstOperations(r)))] else []
  {
    assert [r][..0] == [];
  }

  /** Shaping per-user rows distributes over concatenation: input order is kept. */
  lemma {:induction false} UserActivityKeepsOrder(a: seq<ActivityRow>, b: seq<ActivityRow>)
    ensures UserActivity(a + b) == UserActivity(a) + UserActivity(b)
    decreases |b|
  {
    if b == [] {
      assert a + b == a;
    } else {
      var bInit := b[..|b| - 1];
      assert (a + b)[..|a + b| - 1] == a + bInit;
      UserActivityKeepsOrder(a, bInit);
    }
  }

  // ---------------------------------------------------------------------------
  // _generate_csv
  // ---------------------------------------------------------------------------

  /**
   * The chunks the CSV export generator yields: a single empty chunk when there
   * are no events, otherwise a single chunk holding the whole document, which
   * `render` (the CSV writer) produces.
   */
  function GenerateCsv<E>(events: seq<E>, render: seq<E> -> string): (chunks: seq<string>)
    ensures |chunks| == 1
    ensures events == [] ==> chunks == [""]
    ensures events != [] ==> chunks == [render(events)]
  {
    if events == [] then [""] else [render(events)]
  }
}
