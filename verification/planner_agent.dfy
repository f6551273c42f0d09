/**
 The control flow of `main` in agents/planner_agent.py: log the run, then
 call the tools in a fixed order, aborting on the calls that are not guarded
 and degrading on the two SKU calls that are. What each external call does
 is given by a `World`: the store's reply and the audit write's fate for
 each SQL tool, whether the run insert succeeds, and the index's ranking
 (or `None` when embedding or the index fails). The date is read from the
 clock twice, as two day numbers.
 */
module PlannerAgent {
  import opened Common
  import AccessControl
  import LineageLogger
  import SqlExecutor
  import RagRetriever

  /** Name recorded in `sources_used` for the retrieval step. */
  const RetrieveDocsSource: string := "retrieve_docs"

  /** `top_k` of the retrieval step. */
  const NotesTopK: nat := 3

  /** The command-line request and the two readings of the clock: `yesterday`
      is computed from `today` and `last7_start` from `todayAgain`, a second
      call of `date.today()` that falls a day later when midnight passes
      between the two. */
  datatype Request = Request(runId: string, userId: string, role: string, question: string, today: int, todayAgain: int)

  /** What happens to one SQL tool call past the gateway's checks. */
  datatype ToolReply = ToolReply(store: SqlExecutor.StoreReply, logOk: bool)

  datatype World = World(
    runLogOk: bool,
    daily: ToolReply,
    freshness: ToolReply,
    ranking: Option<seq<RagRetriever.ScoredPoint>>,
    sku: ToolReply,
    missing: ToolReply)

  /** A SQL tool call returns: it passes the gateway's checks, the store
      answers and its audit record is written. */
  predicate CallReturns(roles: AccessControl.RolesFile, role: string, toolName: string, reply: ToolReply)
  {
    SqlExecutor.ReachesStore(roles, role, toolName) && reply.store.Fetched? && reply.logOk
  }

  /** What one SQL tool call sends to the store: its text with its
      parameters, once, when the call passes the gateway's checks and the
      connection opens; nothing otherwise. */
  function SentBy(roles: AccessControl.RolesFile, role: string, toolName: string,
                  text: SqlExecutor.QueryText, params: seq<Cell>, reply: ToolReply): seq<SqlExecutor.Statement>
  {
    if SqlExecutor.ReachesStore(roles, role, toolName) && !reply.store.ConnectError?
    then [SqlExecutor.Statement(text, params)]
    else []
  }

  /** What one SQL tool call records in the ledger: its name, once, when it returns. */
  function LoggedBy(roles: AccessControl.RolesFile, role: string, toolName: string, reply: ToolReply): seq<string>
  {
    if CallReturns(roles, role, toolName, reply) then [toolName] else []
  }

  /** The audit record one SQL tool call adds: when it returns, one record
      for the request's run holding the parameters, the caller's role and
      the summary of the fetched result; nothing otherwise. */
  function RecordedBy(roles: AccessControl.RolesFile, req: Request, toolName: string, params: seq<Cell>,
                      reply: ToolReply): seq<LineageLogger.ToolCallRecord>
  {
    if CallReturns(roles, req.role, toolName, reply)
    then [SqlExecutor.RecordOf(req.runId, toolName, params, req.role, reply.store.result)]
    else []
  }

  /** `(last7_start, yesterday)`. */
  function DailyParams(req: Request): seq<Cell>
  {
    [Date(req.todayAgain - 7), Date(req.today - 1)]
  }

  /** `(yesterday,)`. */
  function SkuParams(req: Request): seq<Cell>
  {
    [Date(req.today - 1)]
  }

  /** `(last7_start, yesterday - 1 day, yesterday)`. */
  function MissingParams(req: Request): seq<Cell>
  {
    [Date(req.todayAgain - 7), Date(req.today - 2), Date(req.today - 1)]
  }

  datatype Trend = Trend(revYesterday: real, revPrev: real, dropPct: real)

  /** `float(cell)` for the revenue column: a number converts, anything else raises. */
  function AsFloat(c: Cell): Option<real>
  {
    if c.Num? then Some(c.x) else None
  }

  /** The trend step: the revenue of the last two daily rows and the drop
      between them. Too few rows, a short row, a non-numeric revenue or a
      zero previous revenue raises, and nothing catches it. */
  function ComputeTrend(rows: seq<Row>): (r: Result<Trend>)
    ensures r.Success? <==>
              && |rows| >= 2
              && |rows[|rows| - 1]| >= 2 && rows[|rows| - 1][1].Num?
              && |rows[|rows| - 2]| >= 2 && rows[|rows| - 2][1].Num?
              && rows[|rows| - 2][1].x != 0.0
    ensures r.Failure? ==> r.error == TrendFailure
    ensures r.Success? ==>
              && r.value.revYesterday == rows[|rows| - 1][1].x
              && r.value.revPrev == rows[|rows| - 2][1].x
              && r.value.dropPct * r.value.revPrev == (r.value.revPrev - r.value.revYesterday) * 100.0
  {
    if |rows| < 2 || |rows[|rows| - 1]| < 2 || |rows[|rows| - 2]| < 2 then Failure(TrendFailure)
    else
      match (AsFloat(rows[|rows| - 1][1]), AsFloat(rows[|rows| - 2][1]))
      case (Some(yesterday), Some(prev)) =>
        if prev == 0.0 then Failure(TrendFailure)
        else Success(Trend(yesterday, prev, ((prev - yesterday) / prev) * 100.0))
      case _ => Failure(TrendFailure)
  }

  /** A fall from 10000 to 8000 is reported as a 20% drop. */
  lemma TwentyPercentDrop(today: int)
    ensures ComputeTrend([[Date(today - 2), Num(10000.0)], [Date(today - 1), Num(8000.0)]])
         == Success(Trend(8000.0, 10000.0, 20.0))
  {
  }

  /** `[r[0] for r in rows]`: the first cell of every row, or `None` when some
      row is empty and the comprehension raises IndexError. */
  function FirstColumn(rows: seq<Row>): (r: Option<seq<Cell>>)
    ensures r.Some? <==> forall i :: 0 <= i < |rows| ==> |rows[i]| > 0
    ensures r.Some? ==> |r.value| == |rows| && forall i :: 0 <= i < |rows| ==> r.value[i] == rows[i][0]
  {
    if |rows| == 0 then Some([])
    else if |rows[0]| == 0 then None
    else match FirstColumn(rows[1..])
      case None => None
      case Some(rest) => Some([rows[0][0]] + rest)
  }

  /** `missing_skus` once the missing-SKU call has returned: the first cells,
      or `[]` when taking them raised and the handler reset the list. */
  function FirstCellsOrEmpty(rows: seq<Row>): (cells: seq<Cell>)
    ensures (forall i :: 0 <= i < |rows| ==> |rows[i]| > 0) ==>
              |cells| == |rows| && forall i :: 0 <= i < |rows| ==> cells[i] == rows[i][0]
    ensures (exists i :: 0 <= i < |rows| && |rows[i]| == 0) ==> cells == []
  {
    match FirstColumn(rows)
    case Some(cells) => cells
    case None => []
  }

  /** State and findings after step 3B. */
  datatype MissingOutcome = MissingOutcome(gateway: SqlExecutor.Gateway, missingSkus: seq<Cell>, sources: seq<string>)

  /** Step 3B, reached only when step 3A returned: the missing-SKU call under
      a catch-all. Its source is recorded as soon as the call returns, before
      the first cells are taken; if the call raises, `missing_skus` stays `[]`. */
  method MissingStep(g: SqlExecutor.Gateway, roles: AccessControl.RolesFile, req: Request, w: World)
    returns (m: MissingOutcome)
    requires req.runId in g.ledger.runs
    ensures SqlExecutor.Advances(g, m.gateway)
    ensures LineageLogger.AddedFor(g.ledger, m.gateway.ledger, req.runId)
    ensures m.gateway.ledger.runs == g.ledger.runs
    ensures LineageLogger.LoggedSince(g.ledger, m.gateway.ledger) == m.sources
    ensures m.sources == [] || m.sources == [SqlExecutor.MissingSkus]
    ensures m.sources != [] <==> CallReturns(roles, req.role, SqlExecutor.MissingSkus, w.missing)
    ensures m.sources == [] ==> m.missingSkus == []
    ensures m.sources != [] ==>
              && w.missing.store.Fetched?
              && m.missingSkus == FirstCellsOrEmpty(w.missing.store.result.rows)
    ensures forall i :: |g.executed| <= i < |m.gateway.executed| ==>
              m.gateway.executed[i] == SqlExecutor.Statement(SqlExecutor.MissingSkusQuery, MissingParams(req))
    // the call is made once: at most one statement, and only once past the checks and connected
    ensures m.gateway.executed == g.executed + MissingSent(roles, req, w)
    ensures m.sources == LoggedBy(roles, req.role, SqlExecutor.MissingSkus, w.missing)
    ensures m.gateway.ledger.toolCalls == g.ledger.toolCalls + MissingRecorded(roles, req, w)
  {
    var c := SqlExecutor.RunSql(g, roles, SqlExecutor.MissingSkus, MissingParams(req), req.role,
                                req.runId, w.missing.store, w.missing.logOk);
    if c.result.Failure? {
      m := MissingOutcome(c.gateway, [], []);
    } else {
      m := MissingOutcome(c.gateway, FirstCellsOrEmpty(c.result.value.rows), [SqlExecutor.MissingSkus]);
    }
  }

  /** State and findings after the SKU investigation. */
  datatype SkuOutcome = SkuOutcome(
    gateway: SqlExecutor.Gateway,
    skuAllowed: bool,
    skuRows: seq<Row>,
    missingSkus: seq<Cell>,
    sources: seq<string>)

  /** When step 3A returns, its statement and record followed by step 3B's
      are the SKU investigation's. */
  lemma SkuTrace(roles: AccessControl.RolesFile, req: Request, w: World,
                 e0: seq<SqlExecutor.Statement>, e1: seq<SqlExecutor.Statement>, e2: seq<SqlExecutor.Statement>,
                 t0: seq<LineageLogger.ToolCallRecord>, t1: seq<LineageLogger.ToolCallRecord>,
                 t2: seq<LineageLogger.ToolCallRecord>)
    requires CallReturns(roles, req.role, SqlExecutor.RevenueBySku, w.sku)
    requires e1 == e0 + [SqlExecutor.Statement(SqlExecutor.RevenueBySkuQuery, SkuParams(req))]
    requires e2 == e1 + MissingSent(roles, req, w)
    requires t1 == t0 + [SqlExecutor.RecordOf(req.runId, SqlExecutor.RevenueBySku, SkuParams(req), req.role, w.sku.store.result)]
    requires t2 == t1 + MissingRecorded(roles, req, w)
    ensures e2 == e0 + SkuSent(roles, req, w)
    ensures t2 == t0 + SkuRecorded(roles, req, w)
  {
    assert SkuSent(roles, req, w) ==
           [SqlExecutor.Statement(SqlExecutor.RevenueBySkuQuery, SkuParams(req))] + MissingSent(roles, req, w);
    assert SkuRecorded(roles, req, w) ==
           [SqlExecutor.RecordOf(req.runId, SqlExecutor.RevenueBySku, SkuParams(req), req.role, w.sku.store.result)] +
           MissingRecorded(roles, req, w);
  }

  /** Steps 3A and 3B. Step 3A is guarded by a catch-all: when the SKU revenue
      call raises, for a denial or any other reason, `sku_allowed` turns off
      and the missing-SKU call is never made. */
  method SkuStep(g: SqlExecutor.Gateway, roles: AccessControl.RolesFile, req: Request, w: World)
    returns (s: SkuOutcome)
    requires req.runId in g.ledger.runs
    ensures SqlExecutor.Advances(g, s.gateway)
    ensures LineageLogger.AddedFor(g.ledger, s.gateway.ledger, req.runId)
    ensures s.gateway.ledger.runs == g.ledger.runs
    ensures LineageLogger.LoggedSince(g.ledger, s.gateway.ledger) == s.sources
    // the gate: 3A returned exactly when the SKU call returns; then 3B is always attempted
    ensures s.skuAllowed <==> CallReturns(roles, req.role, SqlExecutor.RevenueBySku, w.sku)
    ensures s.sources ==
              if s.skuAllowed then
                [SqlExecutor.RevenueBySku] +
                (if CallReturns(roles, req.role, SqlExecutor.MissingSkus, w.missing) then [SqlExecutor.MissingSkus] else [])
              else []
    ensures s.sources == SkuLogged(roles, req, w)
    ensures s.skuAllowed ==> s.skuRows == w.sku.store.result.rows
    ensures !s.skuAllowed ==> s.skuRows == []
    ensures s.missingSkus ==
              if s.skuAllowed && CallReturns(roles, req.role, SqlExecutor.MissingSkus, w.missing)
              then FirstCellsOrEmpty(w.missing.store.result.rows)
              else []
    // statements sent: the SKU revenue text with (yesterday), then only missing-SKU texts, and those only after 3A returned
    ensures |s.gateway.executed| > |g.executed| ==>
              s.gateway.executed[|g.executed|] == SqlExecutor.Statement(SqlExecutor.RevenueBySkuQuery, SkuParams(req))
    ensures s.skuAllowed ==> |s.gateway.executed| > |g.executed|
    ensures !s.skuAllowed ==> |s.gateway.executed| <= |g.executed| + 1
    ensures forall i :: |g.executed| < i < |s.gateway.executed| ==>
              s.gateway.executed[i] == SqlExecutor.Statement(SqlExecutor.MissingSkusQuery, MissingParams(req))
    ensures forall i :: |g.executed| <= i < |s.gateway.executed| ==>
              SqlExecutor.Placeholders(s.gateway.executed[i].text) == |s.gateway.executed[i].params|
    // exactly the statements of the two calls, each made at most once
    ensures s.gateway.executed == g.executed + SkuSent(roles, req, w)
    ensures s.gateway.ledger.toolCalls == g.ledger.toolCalls + SkuRecorded(roles, req, w)
  {
    var c := SqlExecutor.RunSql(g, roles, SqlExecutor.RevenueBySku, SkuParams(req), req.role, req.runId,
                                w.sku.store, w.sku.logOk);
    if c.result.Failure? {
      s := SkuOutcome(c.gateway, false, [], [], []);
    } else {
      var m := MissingStep(c.gateway, roles, req, w);
      SqlExecutor.AdvancesChain(g, c.gateway, m.gateway, req.runId);
      assert SqlExecutor.QueryLibrary[SqlExecutor.RevenueBySku] == SqlExecutor.RevenueBySkuQuery;
      SkuTrace(roles, req, w, g.executed, c.gateway.executed, m.gateway.executed,
               g.ledger.toolCalls, c.gateway.ledger.toolCalls, m.gateway.ledger.toolCalls);
      s := SkuOutcome(m.gateway, true, c.result.value.rows, m.missingSkus, [SqlExecutor.RevenueBySku] + m.sources);
    }
  }

  /** The sections of the answer `main` prints, before formatting. */
  datatype Report = Report(
    trend: Trend,
    freshnessRows: seq<Row>,
    notes: seq<RagRetriever.Note>,
    skuAllowed: bool,
    skuRows: seq<Row>,
    missingSkus: seq<Cell>,
    sourcesUsed: seq<string>)

  /** The sections every finished run has. */
  datatype Required = Required(trend: Trend, freshnessRows: seq<Row>, notes: seq<RagRetriever.Note>)

  datatype DailyOutcome = DailyOutcome(gateway: SqlExecutor.Gateway, trend: Result<Trend>)

  /** The daily revenue call returns, its record is written, and the trend
      can be computed from its rows. */
  predicate TrendComputed(roles: AccessControl.RolesFile, req: Request, w: World)
  {
    && SqlExecutor.ReachesStore(roles, req.role, SqlExecutor.DailyRevenue)
    && w.daily.store.Fetched? && w.daily.logOk
    && ComputeTrend(w.daily.store.result.rows).Success?
  }

  /** Step 1: the daily revenue call for the last seven days, then the trend. */
  method DailyStep(g: SqlExecutor.Gateway, roles: AccessControl.RolesFile, req: Request, w: World)
    returns (d: DailyOutcome)
    requires req.runId in g.ledger.runs
    ensures SqlExecutor.Advances(g, d.gateway)
    ensures LineageLogger.AddedFor(g.ledger, d.gateway.ledger, req.runId)
    ensures d.gateway.ledger.runs == g.ledger.runs
    ensures d.trend.Success? <==> TrendComputed(roles, req, w)
    ensures d.trend.Success? ==> d.trend == ComputeTrend(w.daily.store.result.rows)
    ensures roles.None? ==> d.trend == Failure(RolesFileMissing)
    ensures roles.Some? && !AccessControl.Grants(roles.value, req.role, SqlExecutor.DailyRevenue) ==>
              d.trend == Failure(PermissionDenied(req.role, SqlExecutor.DailyRevenue))
    ensures d.trend.Success? ==> LineageLogger.LoggedSince(g.ledger, d.gateway.ledger) == [SqlExecutor.DailyRevenue]
    ensures forall i :: |g.executed| <= i < |d.gateway.executed| ==>
              d.gateway.executed[i] == SqlExecutor.Statement(SqlExecutor.DailyRevenueQuery, DailyParams(req))
    // the call is made once, and records itself exactly when it returns
    ensures d.gateway.executed == g.executed + DailySent(roles, req, w)
    ensures LineageLogger.LoggedSince(g.ledger, d.gateway.ledger) == LoggedBy(roles, req.role, SqlExecutor.DailyRevenue, w.daily)
    ensures d.gateway.ledger.toolCalls == g.ledger.toolCalls + DailyRecorded(roles, req, w)
    // a failure here is the exception that ends the run
    ensures d.trend.Failure? ==> RequiredError(roles, req, w) == Some(d.trend.error)
  {
    var daily := SqlExecutor.RunSql(g, roles, SqlExecutor.DailyRevenue, DailyParams(req), req.role,
                                    req.runId, w.daily.store, w.daily.logOk);
    if daily.result.Failure? {
      return DailyOutcome(daily.gateway, Failure(daily.result.error));
    }
    d := DailyOutcome(daily.gateway, ComputeTrend(daily.result.value.rows));
  }

  /** Everything before the SKU investigation succeeds: the trend, the
      freshness call and its record, and the retrieval. */
  predicate RequiredSucceeds(roles: AccessControl.RolesFile, req: Request, w: World)
  {
    && TrendComputed(roles, req, w)
    && SqlExecutor.ReachesStore(roles, req.role, SqlExecutor.DataFreshness)
    && w.freshness.store.Fetched? && w.freshness.logOk
    && w.ranking.Some?
  }

  /** The exception that ends the run before the SKU investigation, checked in
      the order the steps run: a missing roles file or a denial of the daily
      tool, a store or audit failure of the daily call, an unusable trend, a
      denial of the freshness tool, a store or audit failure of the freshness
      call, then a failed retrieval. `None` when every step succeeds. */
  function RequiredError(roles: AccessControl.RolesFile, req: Request, w: World): (e: Option<Error>)
    ensures e.None? <==> RequiredSucceeds(roles, req, w)
    ensures roles.None? ==> e == Some(RolesFileMissing)
    ensures roles.Some? && !AccessControl.Grants(roles.value, req.role, SqlExecutor.DailyRevenue) ==>
              e == Some(PermissionDenied(req.role, SqlExecutor.DailyRevenue))
    ensures TrendComputed(roles, req, w) && roles.Some? && !AccessControl.Grants(roles.value, req.role, SqlExecutor.DataFreshness) ==>
              e == Some(PermissionDenied(req.role, SqlExecutor.DataFreshness))
    ensures TrendComputed(roles, req, w) && CallReturns(roles, req.role, SqlExecutor.DataFreshness, w.freshness) && w.ranking.None? ==>
              e == Some(RetrievalFailure)
  {
    var dailyCheck := AccessControl.RequireToolAllowed(roles, req.role, SqlExecutor.DailyRevenue);
    var freshnessCheck := AccessControl.RequireToolAllowed(roles, req.role, SqlExecutor.DataFreshness);
    if dailyCheck.Fail? then Some(dailyCheck.error)
    else if !w.daily.store.Fetched? then Some(StoreFailure)
    else if !w.daily.logOk then Some(AuditWriteFailure)
    else if ComputeTrend(w.daily.store.result.rows).Failure? then Some(TrendFailure)
    else if freshnessCheck.Fail? then Some(freshnessCheck.error)
    else if !w.freshness.store.Fetched? then Some(StoreFailure)
    else if !w.freshness.logOk then Some(AuditWriteFailure)
    else if w.ranking.None? then Some(RetrievalFailure)
    else None
  }

  /** The statement of each SQL tool call `main` makes, and the statements of
      each stretch of the run. */
  function DailySent(roles: AccessControl.RolesFile, req: Request, w: World): seq<SqlExecutor.Statement>
  {
    SentBy(roles, req.role, SqlExecutor.DailyRevenue, SqlExecutor.DailyRevenueQuery, DailyParams(req), w.daily)
  }

  function FreshnessSent(roles: AccessControl.RolesFile, req: Request, w: World): seq<SqlExecutor.Statement>
  {
    SentBy(roles, req.role, SqlExecutor.DataFreshness, SqlExecutor.DataFreshnessQuery, [], w.freshness)
  }

  function MissingSent(roles: AccessControl.RolesFile, req: Request, w: World): seq<SqlExecutor.Statement>
  {
    SentBy(roles, req.role, SqlExecutor.MissingSkus, SqlExecutor.MissingSkusQuery, MissingParams(req), w.missing)
  }

  /** Step 3A's statement, then step 3B's only when 3A returned. */
  function SkuSent(roles: AccessControl.RolesFile, req: Request, w: World): seq<SqlExecutor.Statement>
  {
    SentBy(roles, req.role, SqlExecutor.RevenueBySku, SqlExecutor.RevenueBySkuQuery, SkuParams(req), w.sku) +
    (if CallReturns(roles, req.role, SqlExecutor.RevenueBySku, w.sku) then MissingSent(roles, req, w) else [])
  }

  function SkuLogged(roles: AccessControl.RolesFile, req: Request, w: World): seq<string>
  {
    LoggedBy(roles, req.role, SqlExecutor.RevenueBySku, w.sku) +
    (if CallReturns(roles, req.role, SqlExecutor.RevenueBySku, w.sku)
     then LoggedBy(roles, req.role, SqlExecutor.MissingSkus, w.missing) else [])
  }

  /** Step 1's statement, then step 2's only when the trend was computed. */
  function RequiredSent(roles: AccessControl.RolesFile, req: Request, w: World): seq<SqlExecutor.Statement>
  {
    DailySent(roles, req, w) + (if TrendComputed(roles, req, w) then FreshnessSent(roles, req, w) else [])
  }

  function RequiredLogged(roles: AccessControl.RolesFile, req: Request, w: World): seq<string>
  {
    LoggedBy(roles, req.role, SqlExecutor.DailyRevenue, w.daily) +
    (if TrendComputed(roles, req, w) then LoggedBy(roles, req.role, SqlExecutor.DataFreshness, w.freshness) else [])
  }

  /** The unguarded steps' statements, then the SKU investigation's only when
      those steps all succeeded. */
  function RunSent(roles: AccessControl.RolesFile, req: Request, w: World): seq<SqlExecutor.Statement>
  {
    RequiredSent(roles, req, w) + (if RequiredSucceeds(roles, req, w) then SkuSent(roles, req, w) else [])
  }

  function RunLogged(roles: AccessControl.RolesFile, req: Request, w: World): seq<string>
  {
    RequiredLogged(roles, req, w) + (if RequiredSucceeds(roles, req, w) then SkuLogged(roles, req, w) else [])
  }

  /** The audit records of each stretch of the run, composed as the
      statements are. */
  function DailyRecorded(roles: AccessControl.RolesFile, req: Request, w: World): seq<LineageLogger.ToolCallRecord>
  {
    RecordedBy(roles, req, SqlExecutor.DailyRevenue, DailyParams(req), w.daily)
  }

  function MissingRecorded(roles: AccessControl.RolesFile, req: Request, w: World): seq<LineageLogger.ToolCallRecord>
  {
    RecordedBy(roles, req, SqlExecutor.MissingSkus, MissingParams(req), w.missing)
  }

  function SkuRecorded(roles: AccessControl.RolesFile, req: Request, w: World): seq<LineageLogger.ToolCallRecord>
  {
    RecordedBy(roles, req, SqlExecutor.RevenueBySku, SkuParams(req), w.sku) +
    (if CallReturns(roles, req.role, SqlExecutor.RevenueBySku, w.sku) then MissingRecorded(roles, req, w) else [])
  }

  function RequiredRecorded(roles: AccessControl.RolesFile, req: Request, w: World): seq<LineageLogger.ToolCallRecord>
  {
    DailyRecorded(roles, req, w) +
    (if TrendComputed(roles, req, w) then RecordedBy(roles, req, SqlExecutor.DataFreshness, [], w.freshness) else [])
  }

  function RunRecorded(roles: AccessControl.RolesFile, req: Request, w: World): seq<LineageLogger.ToolCallRecord>
  {
    RequiredRecorded(roles, req, w) + (if RequiredSucceeds(roles, req, w) then SkuRecorded(roles, req, w) else [])
  }

  /** The run table after the insert of `log_agent_run`: the request's run
      with its user, role and question, unless that id was already there. */
  function RunsAfterInsert(runs: map<string, LineageLogger.RunRecord>, req: Request): map<string, LineageLogger.RunRecord>
  {
    if req.runId in runs then runs else runs[req.runId := LineageLogger.RunRecord(req.userId, req.role, req.question)]
  }

  /** Each of the four SQL tools is called at most once per run, and a run
      that fails before the SKU investigation neither sends nor records a SKU
      call; while the trend is not computed, only the daily revenue text is sent. */
  lemma RunSentShape(roles: AccessControl.RolesFile, req: Request, w: World)
    ensures |RunSent(roles, req, w)| <= 4 && |RunLogged(roles, req, w)| <= 4
    ensures !RequiredSucceeds(roles, req, w) ==>
              && RunLogged(roles, req, w) == RequiredLogged(roles, req, w)
              && forall i :: 0 <= i < |RunSent(roles, req, w)| ==>
                   RunSent(roles, req, w)[i].text in {SqlExecutor.DailyRevenueQuery, SqlExecutor.DataFreshnessQuery}
    ensures !TrendComputed(roles, req, w) ==>
              forall i :: 0 <= i < |RunSent(roles, req, w)| ==> RunSent(roles, req, w)[i].text == SqlExecutor.DailyRevenueQuery
    ensures !CallReturns(roles, req.role, SqlExecutor.RevenueBySku, w.sku) ==>
              forall i :: 0 <= i < |RunSent(roles, req, w)| ==> RunSent(roles, req, w)[i].text != SqlExecutor.MissingSkusQuery
    ensures forall i :: 0 <= i < |RunSent(roles, req, w)| ==>
              SqlExecutor.Placeholders(RunSent(roles, req, w)[i].text) == |RunSent(roles, req, w)[i].params|
  {
  }

  /** One `run_sql` call in terms of `SentBy` and `RecordedBy`. */
  lemma CallTrace(g: SqlExecutor.Gateway, roles: AccessControl.RolesFile, req: Request, toolName: string,
                  text: SqlExecutor.QueryText, params: seq<Cell>, reply: ToolReply)
    requires req.runId in g.ledger.runs
    requires toolName in SqlExecutor.QueryLibrary && SqlExecutor.QueryLibrary[toolName] == text
    ensures var c := SqlExecutor.RunSql(g, roles, toolName, params, req.role, req.runId, reply.store, reply.logOk);
            && c.gateway.executed == g.executed + SentBy(roles, req.role, toolName, text, params, reply)
            && c.gateway.ledger.toolCalls == g.ledger.toolCalls + RecordedBy(roles, req, toolName, params, reply)
  {
  }

  /** When the trend is computed, step 1's statement and record followed by
      step 2's are those of the unguarded steps. */
  lemma RequiredCompose(roles: AccessControl.RolesFile, req: Request, w: World,
                        e0: seq<SqlExecutor.Statement>, e1: seq<SqlExecutor.Statement>, e2: seq<SqlExecutor.Statement>,
                        t0: seq<LineageLogger.ToolCallRecord>, t1: seq<LineageLogger.ToolCallRecord>,
                        t2: seq<LineageLogger.ToolCallRecord>)
    requires TrendComputed(roles, req, w)
    requires e1 == e0 + DailySent(roles, req, w) && e2 == e1 + FreshnessSent(roles, req, w)
    requires t1 == t0 + DailyRecorded(roles, req, w)
    requires t2 == t1 + RecordedBy(roles, req, SqlExecutor.DataFreshness, [], w.freshness)
    ensures e2 == e0 + RequiredSent(roles, req, w)
    ensures t2 == t0 + RequiredRecorded(roles, req, w)
  {
    assert RequiredSent(roles, req, w) == DailySent(roles, req, w) + FreshnessSent(roles, req, w);
    assert RequiredRecorded(roles, req, w) ==
           DailyRecorded(roles, req, w) + RecordedBy(roles, req, SqlExecutor.DataFreshness, [], w.freshness);
  }

  /** The statement log after the unguarded steps: at most two statements,
      daily revenue and freshness texts only, each binding as many parameters
      as its text has placeholders, and only the daily revenue text while the
      trend is not computed. */
  lemma RequiredTrace(roles: AccessControl.RolesFile, req: Request, w: World,
                      e0: seq<SqlExecutor.Statement>, e: seq<SqlExecutor.Statement>)
    requires e == e0 + RequiredSent(roles, req, w)
    ensures |e| <= |e0| + 2
    ensures forall i :: |e0| <= i < |e| ==> SqlExecutor.Placeholders(e[i].text) == |e[i].params|
    ensures forall i :: |e0| <= i < |e| ==> e[i].text in {SqlExecutor.DailyRevenueQuery, SqlExecutor.DataFreshnessQuery}
    ensures !TrendComputed(roles, req, w) ==> forall i :: |e0| <= i < |e| ==> e[i].text == SqlExecutor.DailyRevenueQuery
  {
    var sent := RequiredSent(roles, req, w);
    forall i | |e0| <= i < |e|
      ensures e[i] == sent[i - |e0|]
    {
    }
  }

  datatype RequiredOutcome = RequiredOutcome(gateway: SqlExecutor.Gateway, result: Result<Required>)

  /** Steps 1, 2 and 2.5: daily revenue and its trend, freshness, then the
      documentation notes. None of them is guarded, so the first failure ends
      the run. */
  method RequiredSteps(g: SqlExecutor.Gateway, roles: AccessControl.RolesFile, req: Request, w: World)
    returns (r: RequiredOutcome)
    requires req.runId in g.ledger.runs
    ensures SqlExecutor.Advances(g, r.gateway)
    ensures LineageLogger.AddedFor(g.ledger, r.gateway.ledger, req.runId)
    ensures r.gateway.ledger.runs == g.ledger.runs
    ensures r.result.Success? <==> RequiredSucceeds(roles, req, w)
    ensures roles.None? ==> r.result == Failure(RolesFileMissing)
    ensures r.result.Success? ==>
              LineageLogger.LoggedSince(g.ledger, r.gateway.ledger) == [SqlExecutor.DailyRevenue, SqlExecutor.DataFreshness]
    ensures forall i :: |g.executed| <= i < |r.gateway.executed| ==>
              SqlExecutor.Placeholders(r.gateway.executed[i].text) == |r.gateway.executed[i].params|
    ensures forall i :: |g.executed| <= i < |r.gateway.executed| ==>
              r.gateway.executed[i].text in {SqlExecutor.DailyRevenueQuery, SqlExecutor.DataFreshnessQuery}
    ensures r.result.Success? ==>
              && ComputeTrend(w.daily.store.result.rows) == Success(r.result.value.trend)
              && r.result.value.freshnessRows == w.freshness.store.result.rows
              && r.result.value.notes == RagRetriever.RetrieveDocs(w.ranking.value, req.role, NotesTopK)
    // the first failure ends the steps: nothing after it is sent or recorded
    ensures r.gateway.executed == g.executed + RequiredSent(roles, req, w)
    ensures LineageLogger.LoggedSince(g.ledger, r.gateway.ledger) == RequiredLogged(roles, req, w)
    ensures r.gateway.ledger.toolCalls == g.ledger.toolCalls + RequiredRecorded(roles, req, w)
    ensures !TrendComputed(roles, req, w) ==>
              forall i :: |g.executed| <= i < |r.gateway.executed| ==> r.gateway.executed[i].text == SqlExecutor.DailyRevenueQuery
    ensures |r.gateway.executed| <= |g.executed| + 2
    ensures r.result.Failure? ==> RequiredError(roles, req, w) == Some(r.result.error)
    ensures roles.Some? && !AccessControl.Grants(roles.value, req.role, SqlExecutor.DailyRevenue) ==>
              r.result == Failure(PermissionDenied(req.role, SqlExecutor.DailyRevenue))
    ensures TrendComputed(roles, req, w) && roles.Some? && !AccessControl.Grants(roles.value, req.role, SqlExecutor.DataFreshness) ==>
              r.result == Failure(PermissionDenied(req.role, SqlExecutor.DataFreshness))
  {
    var daily := DailyStep(g, roles, req, w);
    if daily.trend.Failure? {
      RequiredTrace(roles, req, w, g.executed, daily.gateway.executed);
      return RequiredOutcome(daily.gateway, Failure(daily.trend.error));
    }
    var freshness := SqlExecutor.RunSql(daily.gateway, roles, SqlExecutor.DataFreshness, [], req.role,
                                        req.runId, w.freshness.store, w.freshness.logOk);
    SqlExecutor.AdvancesChain(g, daily.gateway, freshness.gateway, req.runId);
    assert SqlExecutor.QueryLibrary[SqlExecutor.DataFreshness] == SqlExecutor.DataFreshnessQuery;
    CallTrace(daily.gateway, roles, req, SqlExecutor.DataFreshness, SqlExecutor.DataFreshnessQuery, [], w.freshness);
    RequiredCompose(roles, req, w, g.executed, daily.gateway.executed, freshness.gateway.executed,
                    g.ledger.toolCalls, daily.gateway.ledger.toolCalls, freshness.gateway.ledger.toolCalls);
    RequiredTrace(roles, req, w, g.executed, freshness.gateway.executed);
    if freshness.result.Failure? {
      return RequiredOutcome(freshness.gateway, Failure(freshness.result.error));
    }
    if w.ranking.None? {
      return RequiredOutcome(freshness.gateway, Failure(RetrievalFailure));
    }
    var notes := RagRetriever.RetrieveDocs(w.ranking.value, req.role, NotesTopK);
    r := RequiredOutcome(freshness.gateway, Success(Required(daily.trend.value, freshness.result.value.rows, notes)));
  }

  /** Each failure before the SKU investigation ends the run: a missing roles
      file, a denial of either unguarded tool, a store or audit failure on
      either of them, too few daily rows, or a failed retrieval. */
  lemma RequiredFailures(roles: AccessControl.RolesFile, req: Request, w: World)
    ensures roles.None? ==> !RequiredSucceeds(roles, req, w)
    ensures roles.Some? && !AccessControl.Grants(roles.value, req.role, SqlExecutor.DailyRevenue) ==>
              !RequiredSucceeds(roles, req, w)
    ensures roles.Some? && !AccessControl.Grants(roles.value, req.role, SqlExecutor.DataFreshness) ==>
              !RequiredSucceeds(roles, req, w)
    ensures !w.daily.store.Fetched? || !w.daily.logOk ==> !RequiredSucceeds(roles, req, w)
    ensures !w.freshness.store.Fetched? || !w.freshness.logOk ==> !RequiredSucceeds(roles, req, w)
    ensures w.daily.store.Fetched? && |w.daily.store.result.rows| < 2 ==> !RequiredSucceeds(roles, req, w)
    ensures w.ranking.None? ==> !RequiredSucceeds(roles, req, w)
  {
  }

  /** Final state, and the report or the exception that ended the run. */
  datatype RunOutcome = RunOutcome(gateway: SqlExecutor.Gateway, report: Result<Report>)

  /** What a finished run reports, given what the store and the index did.
      `sources_used` lists, in call order, exactly the steps that returned:
      the three unguarded steps, then the SKU revenue call when it returned,
      then the missing-SKU call when it too was made and returned. The SKU
      section is allowed exactly when the SKU revenue call returned, and then
      carries its rows; `missing_skus` is the first column of the missing-SKU
      rows when that call returned, and `[]` otherwise. The trend, the
      freshness rows and the notes come from the daily rows, the freshness
      rows and the ranking. */
  predicate ReportMatches(rep: Report, roles: AccessControl.RolesFile, req: Request, w: World)
  {
    var skuReturned := CallReturns(roles, req.role, SqlExecutor.RevenueBySku, w.sku);
    var missingReturned := skuReturned && CallReturns(roles, req.role, SqlExecutor.MissingSkus, w.missing);
    && rep.sourcesUsed ==
         [SqlExecutor.DailyRevenue, SqlExecutor.DataFreshness, RetrieveDocsSource] +
         (if skuReturned then [SqlExecutor.RevenueBySku] else []) +
         (if missingReturned then [SqlExecutor.MissingSkus] else [])
    && (rep.skuAllowed <==> skuReturned)
    && rep.skuRows == (if skuReturned then w.sku.store.result.rows else [])
    && rep.missingSkus == (if missingReturned then FirstCellsOrEmpty(w.missing.store.result.rows) else [])
    && w.daily.store.Fetched? && w.freshness.store.Fetched? && w.ranking.Some?
    && ComputeTrend(w.daily.store.result.rows) == Success(rep.trend)
    && rep.freshnessRows == w.freshness.store.result.rows
    && rep.notes == RagRetriever.RetrieveDocs(w.ranking.value, req.role, NotesTopK)
  }

  /** When the unguarded steps succeed, their statements followed by the SKU
      investigation's are the run's, and likewise for the records. */
  lemma CompletedRunTrace(roles: AccessControl.RolesFile, req: Request, w: World,
                          e0: seq<SqlExecutor.Statement>, e1: seq<SqlExecutor.Statement>, e2: seq<SqlExecutor.Statement>,
                          t0: seq<LineageLogger.ToolCallRecord>, t1: seq<LineageLogger.ToolCallRecord>,
                          t2: seq<LineageLogger.ToolCallRecord>)
    requires RequiredSucceeds(roles, req, w)
    requires e1 == e0 + RequiredSent(roles, req, w) && e2 == e1 + SkuSent(roles, req, w)
    requires t1 == t0 + RequiredRecorded(roles, req, w) && t2 == t1 + SkuRecorded(roles, req, w)
    ensures e2 == e0 + RunSent(roles, req, w)
    ensures t2 == t0 + RunRecorded(roles, req, w)
    ensures RunLogged(roles, req, w) == RequiredLogged(roles, req, w) + SkuLogged(roles, req, w)
  {
    assert RunSent(roles, req, w) == RequiredSent(roles, req, w) + SkuSent(roles, req, w);
    assert RunRecorded(roles, req, w) == RequiredRecorded(roles, req, w) + SkuRecorded(roles, req, w);
    AppendAssociates(e0, RequiredSent(roles, req, w), SkuSent(roles, req, w));
    AppendAssociates(t0, RequiredRecorded(roles, req, w), SkuRecorded(roles, req, w));
  }

  /** Appending two stretches of a log one after the other appends their concatenation. */
  lemma AppendAssociates<T>(a: seq<T>, b: seq<T>, c: seq<T>)
    ensures (a + b) + c == a + (b + c)
  {
  }

  /** The statement log after a run: at most one statement per tool, each
      binding as many parameters as its text has placeholders; only daily
      revenue and freshness texts when the unguarded steps fail, and no
      missing-SKU text unless the SKU revenue call returned. */
  lemma RunTrace(roles: AccessControl.RolesFile, req: Request, w: World, e0: seq<SqlExecutor.Statement>, e: seq<SqlExecutor.Statement>)
    requires e == e0 + RunSent(roles, req, w)
    ensures |e| <= |e0| + 4
    ensures forall i :: |e0| <= i < |e| ==> SqlExecutor.Placeholders(e[i].text) == |e[i].params|
    ensures !RequiredSucceeds(roles, req, w) ==>
              forall i :: |e0| <= i < |e| ==> e[i].text in {SqlExecutor.DailyRevenueQuery, SqlExecutor.DataFreshnessQuery}
    ensures !CallReturns(roles, req.role, SqlExecutor.RevenueBySku, w.sku) ==>
              forall i :: |e0| <= i < |e| ==> e[i].text != SqlExecutor.MissingSkusQuery
  {
    RunSentShape(roles, req, w);
    var sent := RunSent(roles, req, w);
    forall i | |e0| <= i < |e|
      ensures e[i] == sent[i - |e0|]
    {
    }
  }

  /** `sources_used` of a finished run: the three unguarded steps, then the
      SKU investigation's sources, which are those `ReportMatches` expects;
      leaving out retrieval leaves the tool calls recorded. */
  lemma SourcesUsedShape(roles: AccessControl.RolesFile, req: Request, w: World, sources: seq<string>)
    requires sources == SkuLogged(roles, req, w)
    ensures var used := [SqlExecutor.DailyRevenue, SqlExecutor.DataFreshness, RetrieveDocsSource] + sources;
            var skuReturned := CallReturns(roles, req.role, SqlExecutor.RevenueBySku, w.sku);
            var missingReturned := skuReturned && CallReturns(roles, req.role, SqlExecutor.MissingSkus, w.missing);
            && used == [SqlExecutor.DailyRevenue, SqlExecutor.DataFreshness, RetrieveDocsSource] +
                       (if skuReturned then [SqlExecutor.RevenueBySku] else []) +
                       (if missingReturned then [SqlExecutor.MissingSkus] else [])
            && used[..2] + used[3..] == [SqlExecutor.DailyRevenue, SqlExecutor.DataFreshness] + sources
  {
    var used := [SqlExecutor.DailyRevenue, SqlExecutor.DataFreshness, RetrieveDocsSource] + sources;
    assert used[..2] == [SqlExecutor.DailyRevenue, SqlExecutor.DataFreshness];
    assert used[3..] == sources;
  }

  /** `main` after the run insert: the unguarded steps, then the SKU
      investigation, then the report. */
  method RunTools(g: SqlExecutor.Gateway, roles: AccessControl.RolesFile, req: Request, w: World)
    returns (out: RunOutcome)
    requires req.runId in g.ledger.runs
    ensures SqlExecutor.Advances(g, out.gateway)
    ensures out.gateway.ledger.runs == g.ledger.runs
    ensures LineageLogger.AddedFor(g.ledger, out.gateway.ledger, req.runId)
    ensures forall i :: |g.executed| <= i < |out.gateway.executed| ==>
              SqlExecutor.Placeholders(out.gateway.executed[i].text) == |out.gateway.executed[i].params|
    ensures out.report.Success? <==> RequiredSucceeds(roles, req, w)
    ensures roles.None? ==> out.report == Failure(RolesFileMissing)
    ensures out.report.Success? ==> ReportMatches(out.report.value, roles, req, w)
    ensures out.report.Success? ==>
              var used := out.report.value.sourcesUsed;
              used[..2] + used[3..] == LineageLogger.LoggedSince(g.ledger, out.gateway.ledger)
    ensures out.report.Success? && !out.report.value.skuAllowed ==>
              forall i :: |g.executed| <= i < |out.gateway.executed| ==>
                out.gateway.executed[i].text != SqlExecutor.MissingSkusQuery
    // exactly the statements and records of the calls made, each call made at most once
    ensures out.gateway.executed == g.executed + RunSent(roles, req, w)
    ensures LineageLogger.LoggedSince(g.ledger, out.gateway.ledger) == RunLogged(roles, req, w)
    ensures out.gateway.ledger.toolCalls == g.ledger.toolCalls + RunRecorded(roles, req, w)
    ensures |out.gateway.executed| <= |g.executed| + 4
    // a failed run stops at its first failure: the SKU investigation is never reached
    ensures out.report.Failure? ==> RequiredError(roles, req, w) == Some(out.report.error)
    ensures out.report.Failure? ==>
              && LineageLogger.LoggedSince(g.ledger, out.gateway.ledger) == RequiredLogged(roles, req, w)
              && forall i :: |g.executed| <= i < |out.gateway.executed| ==>
                   out.gateway.executed[i].text in {SqlExecutor.DailyRevenueQuery, SqlExecutor.DataFreshnessQuery}
    ensures roles.Some? && !AccessControl.Grants(roles.value, req.role, SqlExecutor.DailyRevenue) ==>
              out.report == Failure(PermissionDenied(req.role, SqlExecutor.DailyRevenue))
    ensures TrendComputed(roles, req, w) && roles.Some? && !AccessControl.Grants(roles.value, req.role, SqlExecutor.DataFreshness) ==>
              out.report == Failure(PermissionDenied(req.role, SqlExecutor.DataFreshness))
  {
    var required := RequiredSteps(g, roles, req, w);
    if required.result.Failure? {
      RunTrace(roles, req, w, g.executed, required.gateway.executed);
      return RunOutcome(required.gateway, Failure(required.result.error));
    }
    var sku := SkuStep(required.gateway, roles, req, w);
    SqlExecutor.AdvancesChain(g, required.gateway, sku.gateway, req.runId);
    CompletedRunTrace(roles, req, w, g.executed, required.gateway.executed, sku.gateway.executed,
                      g.ledger.toolCalls, required.gateway.ledger.toolCalls, sku.gateway.ledger.toolCalls);
    RunTrace(roles, req, w, g.executed, sku.gateway.executed);
    var used := [SqlExecutor.DailyRevenue, SqlExecutor.DataFreshness, RetrieveDocsSource] + sku.sources;
    SourcesUsedShape(roles, req, w, sku.sources);
    out := RunOutcome(sku.gateway, Success(Report(
      required.result.value.trend, required.result.value.freshnessRows, required.result.value.notes,
      sku.skuAllowed, sku.skuRows, sku.missingSkus, used)));
  }

  /** `main` from the run insert on. The run is recorded before any tool is
      called; if that write fails nothing else happens. */
  method Plan(g0: SqlExecutor.Gateway, roles: AccessControl.RolesFile, req: Request, w: World) returns (out: RunOutcome)
    ensures !w.runLogOk ==> out == RunOutcome(g0, Failure(AuditWriteFailure))
    ensures w.runLogOk ==> req.runId in out.gateway.ledger.runs
    ensures SqlExecutor.Advances(g0, out.gateway)
    ensures LineageLogger.ReferencesKnownRuns(g0.ledger) ==> LineageLogger.ReferencesKnownRuns(out.gateway.ledger)
    ensures LineageLogger.AddedFor(g0.ledger, out.gateway.ledger, req.runId)
    // every statement sent binds as many parameters as its text has placeholders
    ensures forall i :: |g0.executed| <= i < |out.gateway.executed| ==>
              SqlExecutor.Placeholders(out.gateway.executed[i].text) == |out.gateway.executed[i].params|
    // the unguarded steps decide whether the report is assembled; the guarded SKU steps never do
    ensures out.report.Success? <==> w.runLogOk && RequiredSucceeds(roles, req, w)
    ensures out.report.Success? ==> ReportMatches(out.report.value, roles, req, w)
    // leaving out retrieval, `sources_used` is exactly the tool calls the run added to the ledger
    ensures out.report.Success? ==>
              var used := out.report.value.sourcesUsed;
              used[..2] + used[3..] == LineageLogger.LoggedSince(g0.ledger, out.gateway.ledger)
    // with the SKU section off, the missing-SKU statement never reaches the store
    ensures out.report.Success? && !out.report.value.skuAllowed ==>
              forall i :: |g0.executed| <= i < |out.gateway.executed| ==>
                out.gateway.executed[i].text != SqlExecutor.MissingSkusQuery
    // exactly the statements and records of the calls made, each call made at most once
    ensures out.gateway.executed == g0.executed + (if w.runLogOk then RunSent(roles, req, w) else [])
    ensures LineageLogger.LoggedSince(g0.ledger, out.gateway.ledger) == if w.runLogOk then RunLogged(roles, req, w) else []
    // the audit trail: the run record with the request's details, and one full record per call that returned
    ensures out.gateway.ledger.runs == if w.runLogOk then RunsAfterInsert(g0.ledger.runs, req) else g0.ledger.runs
    ensures out.gateway.ledger.toolCalls == g0.ledger.toolCalls + if w.runLogOk then RunRecorded(roles, req, w) else []
    ensures |out.gateway.executed| <= |g0.executed| + 4
    // a run that fails after its insert stops at its first failure: the SKU investigation is never reached
    ensures w.runLogOk && out.report.Failure? ==> RequiredError(roles, req, w) == Some(out.report.error)
    ensures out.report.Failure? ==>
              forall i :: |g0.executed| <= i < |out.gateway.executed| ==>
                out.gateway.executed[i].text in {SqlExecutor.DailyRevenueQuery, SqlExecutor.DataFreshnessQuery}
    ensures w.runLogOk && roles.Some? && !AccessControl.Grants(roles.value, req.role, SqlExecutor.DailyRevenue) ==>
              out.report == Failure(PermissionDenied(req.role, SqlExecutor.DailyRevenue))
    ensures w.runLogOk && TrendComputed(roles, req, w) && roles.Some? &&
            !AccessControl.Grants(roles.value, req.role, SqlExecutor.DataFreshness) ==>
              out.report == Failure(PermissionDenied(req.role, SqlExecutor.DataFreshness))
  {
    var begun := LineageLogger.BeginRun(g0.ledger, req.runId, req.userId, req.role, req.question, w.runLogOk);
    if begun.Failure? {
      return RunOutcome(g0, Failure(begun.error));
    }
    var g1 := g0.(ledger := begun.value);
    assert LineageLogger.LoggedSince(g0.ledger, g1.ledger) == [];
    out := RunTools(g1, roles, req, w);
    SqlExecutor.AdvancesChain(g0, g1, out.gateway, req.runId);
    assert LineageLogger.ReferencesKnownRuns(g0.ledger) ==> LineageLogger.ReferencesKnownRuns(out.gateway.ledger) by {
      if LineageLogger.ReferencesKnownRuns(g0.ledger) {
        forall i | 0 <= i < |out.gateway.ledger.toolCalls|
          ensures out.gateway.ledger.toolCalls[i].runId in out.gateway.ledger.runs
        {
          if i < |g1.ledger.toolCalls| {
            assert out.gateway.ledger.toolCalls[i] == g1.ledger.toolCalls[i];
          }
        }
      }
    }
  }

  /** A roles document in the shape the repository's own checks expect
      (the actual file is not part of this model): finance may use every
      SQL tool, ops only the daily revenue and freshness tools. */
  const IllustrativeRoles: AccessControl.RolesDoc := AccessControl.RolesDoc(Some(map[
    "finance" := AccessControl.RoleInfo(Some([SqlExecutor.DailyRevenue, SqlExecutor.RevenueBySku,
                                              SqlExecutor.DataFreshness, SqlExecutor.MissingSkus])),
    "ops" := AccessControl.RoleInfo(Some([SqlExecutor.DailyRevenue, SqlExecutor.DataFreshness]))
  ]))

  /** Under that document ops reaches the store with the daily revenue and
      freshness tools only, so (by `Plan`'s contract) a finished ops run
      reports the SKU section as not allowed, and finance reaches every tool. */
  lemma IllustrativeRolesReach()
    ensures var roles := Some(IllustrativeRoles);
            && SqlExecutor.ReachesStore(roles, "ops", SqlExecutor.DailyRevenue)
            && SqlExecutor.ReachesStore(roles, "ops", SqlExecutor.DataFreshness)
            && !SqlExecutor.ReachesStore(roles, "ops", SqlExecutor.RevenueBySku)
            && !SqlExecutor.ReachesStore(roles, "ops", SqlExecutor.MissingSkus)
            && forall t :: t in SqlExecutor.QueryLibrary ==> SqlExecutor.ReachesStore(roles, "finance", t)
  {
    var roles := Some(IllustrativeRoles);
    SqlExecutor.CatalogIsClosed();
    var fin := IllustrativeRoles.roles.value["finance"].allowedTools.value;
    var ops := IllustrativeRoles.roles.value["ops"].allowedTools.value;
    assert fin[0] == SqlExecutor.DailyRevenue && fin[1] == SqlExecutor.RevenueBySku;
    assert fin[2] == SqlExecutor.DataFreshness && fin[3] == SqlExecutor.MissingSkus;
    assert ops[0] == SqlExecutor.DailyRevenue && ops[1] == SqlExecutor.DataFreshness && |ops| == 2;
    assert SqlExecutor.RevenueBySku !in ops;
    assert SqlExecutor.MissingSkus !in ops;
  }
}
