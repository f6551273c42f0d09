/**
 The tool gateway `run_sql` of tools/sql_executor.py and its closed query
 catalog. The backing store is not modelled: each call is handed the reply
 the store would give (rows, a driver error, or a failure to connect) and
 whether the audit write succeeds. The gateway state records every
 statement sent to the store, so the number of store accesses is the
 length of that log.
 */
module SqlExecutor {
  import opened Common
  import AccessControl
  import LineageLogger

  /** The four fixed statement texts. Their SQL is not modelled; only which
      text is sent, and how many positional placeholders it has. */
  datatype QueryText = DailyRevenueQuery | RevenueBySkuQuery | DataFreshnessQuery | MissingSkusQuery

  /** Number of `%s` placeholders each text binds positionally. */
  function Placeholders(q: QueryText): nat
  {
    match q
    case DailyRevenueQuery => 2
    case RevenueBySkuQuery => 1
    case DataFreshnessQuery => 0
    case MissingSkusQuery => 3
  }

  const DailyRevenue: string := "get_daily_revenue"
  const RevenueBySku: string := "get_revenue_by_sku"
  const DataFreshness: string := "get_data_freshness"
  const MissingSkus: string := "find_missing_skus_yesterday"

  /** `QUERY_LIBRARY`: the only statements the gateway will ever send. */
  const QueryLibrary: map<string, QueryText> := map[
    DailyRevenue := DailyRevenueQuery,
    RevenueBySku := RevenueBySkuQuery,
    DataFreshness := DataFreshnessQuery,
    MissingSkus := MissingSkusQuery
  ]

  /** The catalog is exactly the four named tools, each with its own text. */
  lemma CatalogIsClosed()
    ensures QueryLibrary.Keys == {DailyRevenue, RevenueBySku, DataFreshness, MissingSkus}
    ensures forall q: QueryText :: q in QueryLibrary.Values
    ensures forall a, b :: a in QueryLibrary && b in QueryLibrary && a != b ==> QueryLibrary[a] != QueryLibrary[b]
  {
    assert QueryLibrary[DailyRevenue] == DailyRevenueQuery;
    assert QueryLibrary[RevenueBySku] == RevenueBySkuQuery;
    assert QueryLibrary[DataFreshness] == DataFreshnessQuery;
    assert QueryLibrary[MissingSkus] == MissingSkusQuery;
    forall q: QueryText ensures q in QueryLibrary.Values {
      var name := match q
        case DailyRevenueQuery => DailyRevenue
        case RevenueBySkuQuery => RevenueBySku
        case DataFreshnessQuery => DataFreshness
        case MissingSkusQuery => MissingSkus;
      assert QueryLibrary[name] == q;
    }
  }

  /** A statement as the driver receives it: catalog text and, separately,
      the parameters to bind. */
  datatype Statement = Statement(text: QueryText, params: seq<Cell>)

  /** `{"columns": cols, "rows": rows}` as `run_sql` returns it. */
  datatype QueryResult = QueryResult(columns: seq<string>, rows: seq<Row>)

  /** What the store does with a call: the connection cannot be opened, so
      no statement is sent; or the statement is sent and executing or
      fetching raises; or the rows come back. */
  datatype StoreReply = ConnectError | StoreError | Fetched(result: QueryResult)

  /** The ledger plus the log of statements sent to the store. */
  datatype Gateway = Gateway(ledger: LineageLogger.Ledger, executed: seq<Statement>)

  /** State after a call and what the call returned or raised. */
  datatype Call = Call(gateway: Gateway, result: Result<QueryResult>)

  /** The audit record of a call that returned: run id, tool name, the
      parameters with the caller's role, and the summary of the result. */
  function RecordOf(runId: string, toolName: string, params: seq<Cell>, role: string, result: QueryResult): LineageLogger.ToolCallRecord
  {
    LineageLogger.ToolCallRecord(runId, toolName, LineageLogger.Inputs(params, role),
      LineageLogger.Summarize(LineageLogger.Outputs(Some(result.columns), Some(result.rows))))
  }

  /** True when `g'` is a later state of `g`: the ledger only grew and the
      statement log only grew. */
  ghost predicate Advances(g: Gateway, g': Gateway)
  {
    LineageLogger.Extends(g.ledger, g'.ledger) && g.executed <= g'.executed
  }

  lemma AdvancesChain(a: Gateway, b: Gateway, c: Gateway, runId: string)
    requires Advances(a, b) && Advances(b, c)
    requires LineageLogger.AddedFor(a.ledger, b.ledger, runId) && LineageLogger.AddedFor(b.ledger, c.ledger, runId)
    ensures Advances(a, c) && LineageLogger.AddedFor(a.ledger, c.ledger, runId)
    ensures LineageLogger.LoggedSince(a.ledger, c.ledger) ==
              LineageLogger.LoggedSince(a.ledger, b.ledger) + LineageLogger.LoggedSince(b.ledger, c.ledger)
  {
    LineageLogger.AddedForChain(a.ledger, b.ledger, c.ledger, runId);
    LineageLogger.LoggedSinceChain(a.ledger, b.ledger, c.ledger);
  }

  /** A call passes both checks of `run_sql` and goes on to the store. */
  predicate ReachesStore(roles: AccessControl.RolesFile, role: string, toolName: string)
  {
    AccessControl.RequireToolAllowed(roles, role, toolName).Pass? && toolName in QueryLibrary
  }

  /** `run_sql`: permission check, then catalog lookup, then execution of the
      catalog text with the parameters passed apart, then one audit record,
      then return. */
  function RunSql(g: Gateway, roles: AccessControl.RolesFile, toolName: string, params: seq<Cell>,
                  role: string, runId: string, reply: StoreReply, logOk: bool): (c: Call)
    requires runId in g.ledger.runs
    ensures Advances(g, c.gateway)
    ensures c.gateway.ledger.runs == g.ledger.runs
    ensures LineageLogger.AddedFor(g.ledger, c.gateway.ledger, runId)
    // a denial (or a missing roles file) raises before the lookup: no store access, no record
    ensures AccessControl.RequireToolAllowed(roles, role, toolName).Fail? ==>
              c == Call(g, Failure(AccessControl.RequireToolAllowed(roles, role, toolName).error))
    // an allowed name outside the catalog raises ValueError: no store access, no record
    ensures AccessControl.RequireToolAllowed(roles, role, toolName).Pass? && toolName !in QueryLibrary ==>
              c == Call(g, Failure(UnknownTool(toolName)))
    // otherwise, once connected, exactly one statement reaches the store: the catalog text, with params apart
    ensures ReachesStore(roles, role, toolName) && !reply.ConnectError? ==>
              c.gateway.executed == g.executed + [Statement(QueryLibrary[toolName], params)]
    ensures !ReachesStore(roles, role, toolName) || reply.ConnectError? ==> c.gateway.executed == g.executed
    ensures c.result.Success? <==> ReachesStore(roles, role, toolName) && reply.Fetched? && logOk
    // on success the fetched result is returned and exactly one record describes it
    ensures c.result.Success? ==> c.result.value == reply.result
    ensures c.result.Success? ==> |c.gateway.ledger.toolCalls| == |g.ledger.toolCalls| + 1
    ensures c.result.Success? ==>
              c.gateway.ledger.toolCalls[|g.ledger.toolCalls|] ==
                LineageLogger.ToolCallRecord(runId, toolName, LineageLogger.Inputs(params, role),
                  LineageLogger.Summarize(LineageLogger.Outputs(Some(reply.result.columns), Some(reply.result.rows))))
    // any failure, including a failed audit write, leaves the ledger as it was
    ensures c.result.Failure? ==> c.gateway.ledger == g.ledger
    ensures LineageLogger.LoggedSince(g.ledger, c.gateway.ledger) == if c.result.Success? then [toolName] else []
    // past the checks, a connection or store error raises before logging and a failed audit write raises after fetching
    ensures ReachesStore(roles, role, toolName) && !reply.Fetched? ==> c.result == Failure(StoreFailure)
    ensures ReachesStore(roles, role, toolName) && reply.Fetched? && !logOk ==> c.result == Failure(AuditWriteFailure)
    ensures LineageLogger.ReferencesKnownRuns(g.ledger) ==> LineageLogger.ReferencesKnownRuns(c.gateway.ledger)
    // the tool-call table gains exactly that one record on success, and nothing otherwise
    ensures c.gateway.ledger.toolCalls ==
              g.ledger.toolCalls + if c.result.Success? then [RecordOf(runId, toolName, params, role, reply.result)] else []
  {
    match AccessControl.RequireToolAllowed(roles, role, toolName)
    case Fail(e) => Call(g, Failure(e))
    case Pass =>
      if toolName !in QueryLibrary then Call(g, Failure(UnknownTool(toolName)))
      else
        var sql := QueryLibrary[toolName];
        var g1 := g.(executed := g.executed + [Statement(sql, params)]);
        match reply
        case ConnectError => Call(g, Failure(StoreFailure))
        case StoreError => Call(g1, Failure(StoreFailure))
        case Fetched(result) =>
          var logged := LineageLogger.LogToolCall(
            g.ledger, runId, toolName, LineageLogger.Inputs(params, role),
            LineageLogger.Outputs(Some(result.columns), Some(result.rows)), logOk);
          match logged
          case Failure(e) => Call(g1, Failure(e))
          case Success(l) => Call(g1.(ledger := l), Success(result))
  }

  /** The statement text depends on the tool name alone: two calls that differ
      only in their parameters send the same text, so no caller-supplied value
      ever becomes part of it. */
  lemma TextIndependentOfParams(g: Gateway, roles: AccessControl.RolesFile, toolName: string,
                                p1: seq<Cell>, p2: seq<Cell>, role: string, runId: string,
                                reply: StoreReply, logOk: bool)
    requires runId in g.ledger.runs
    requires |RunSql(g, roles, toolName, p1, role, runId, reply, logOk).gateway.executed| > |g.executed|
    ensures |RunSql(g, roles, toolName, p2, role, runId, reply, logOk).gateway.executed| > |g.executed|
    ensures Last(RunSql(g, roles, toolName, p1, role, runId, reply, logOk).gateway.executed).text
         == Last(RunSql(g, roles, toolName, p2, role, runId, reply, logOk).gateway.executed).text
         == QueryLibrary[toolName]
    ensures Last(RunSql(g, roles, toolName, p2, role, runId, reply, logOk).gateway.executed).params == p2
  {
  }

  function Last<T>(s: seq<T>): T
    requires |s| > 0
  {
    s[|s| - 1]
  }
}
