/**
 The audit ledger of governance/lineage_logger.py: a `runs` table keyed by
 run id, written with an idempotent insert, and an append-only `tool_calls`
 table whose rows hold a size-bounded summary of each tool's output.
 Whether a write reaches the database is a parameter (`writeOk`); a failed
 write raises and leaves the ledger as it was.
 */
module LineageLogger {
  import opened Common

  /** Rows kept in a tool call's output summary. */
  const PreviewLimit: nat := 5

  /** The dictionary handed to `log_tool_call`; either key may be missing. */
  datatype Outputs = Outputs(columns: Option<seq<string>>, rows: Option<seq<Row>>)

  /** The `safe_outputs` projection stored instead of the full result. */
  datatype Summary = Summary(columns: seq<string>, rowCount: nat, previewRows: seq<Row>)

  datatype Inputs = Inputs(params: seq<Cell>, userRole: string)

  datatype RunRecord = RunRecord(userId: string, userRole: string, question: string)

  datatype ToolCallRecord = ToolCallRecord(runId: string, toolName: string, inputs: Inputs, outputs: Summary)

  datatype Ledger = Ledger(runs: map<string, RunRecord>, toolCalls: seq<ToolCallRecord>)

  function RowsOf(out: Outputs): seq<Row>
  {
    if out.rows.Some? then out.rows.value else []
  }

  /** The output summary: all columns, the true row count, and only the
      leading rows, never more than `PreviewLimit` of them. */
  function Summarize(out: Outputs): (s: Summary)
    ensures s.columns == (if out.columns.Some? then out.columns.value else [])
    ensures s.rowCount == |RowsOf(out)|
    ensures s.previewRows <= RowsOf(out)
    ensures |s.previewRows| <= PreviewLimit
    ensures |RowsOf(out)| >= PreviewLimit ==> |s.previewRows| == PreviewLimit
    ensures |RowsOf(out)| <= PreviewLimit ==> s.previewRows == RowsOf(out)
  {
    var rows := RowsOf(out);
    Summary(
      if out.columns.Some? then out.columns.value else [],
      |rows|,
      rows[..Min(PreviewLimit, |rows|)])
  }

  /** Two results that agree on their columns, their length and their first
      `PreviewLimit` rows leave the same trace in the ledger: nothing beyond
      the preview is stored. */
  lemma SummaryForgetsTail(a: Outputs, b: Outputs)
    requires a.columns == b.columns
    requires |RowsOf(a)| == |RowsOf(b)|
    requires RowsOf(a)[..Min(PreviewLimit, |RowsOf(a)|)] == RowsOf(b)[..Min(PreviewLimit, |RowsOf(b)|)]
    ensures Summarize(a) == Summarize(b)
  {
  }

  /** Every recorded tool call names a run that is already in the ledger
      (the foreign key of `tool_calls` onto `runs`). */
  ghost predicate ReferencesKnownRuns(l: Ledger)
  {
    forall i :: 0 <= i < |l.toolCalls| ==> l.toolCalls[i].runId in l.runs
  }

  /** `l'` is a later state of `l`: no run record was altered or removed and
      the tool calls of `l` are still there, in order, at the front. */
  ghost predicate Extends(l: Ledger, l': Ledger)
  {
    && (forall id :: id in l.runs ==> id in l'.runs && l'.runs[id] == l.runs[id])
    && l.toolCalls <= l'.toolCalls
  }

  /** Names of the tools recorded in `l'` after the records of `l`. */
  function LoggedSince(l: Ledger, l': Ledger): seq<string>
    requires |l.toolCalls| <= |l'.toolCalls|
  {
    var added := l'.toolCalls[|l.toolCalls|..];
    seq(|added|, i requires 0 <= i < |added| => added[i].toolName)
  }

  lemma LoggedSinceChain(a: Ledger, b: Ledger, c: Ledger)
    requires Extends(a, b) && Extends(b, c)
    ensures LoggedSince(a, c) == LoggedSince(a, b) + LoggedSince(b, c)
  {
    assert a.toolCalls <= c.toolCalls;
    var ab, bc, ac := LoggedSince(a, b), LoggedSince(b, c), LoggedSince(a, c);
    assert |ac| == |ab| + |bc|;
    forall i | 0 <= i < |ac| ensures ac[i] == (ab + bc)[i] {
      if i < |ab| {
        assert ac[i] == c.toolCalls[|a.toolCalls| + i].toolName;
        assert c.toolCalls[|a.toolCalls| + i] == b.toolCalls[|a.toolCalls| + i];
      } else {
        assert ac[i] == c.toolCalls[|a.toolCalls| + i].toolName;
        assert bc[i - |ab|] == c.toolCalls[|b.toolCalls| + (i - |ab|)].toolName;
      }
    }
  }

  /** Every tool call recorded in `l'` after those of `l` belongs to run `runId`. */
  ghost predicate AddedFor(l: Ledger, l': Ledger, runId: string)
    requires |l.toolCalls| <= |l'.toolCalls|
  {
    forall i :: |l.toolCalls| <= i < |l'.toolCalls| ==> l'.toolCalls[i].runId == runId
  }

  lemma AddedForChain(a: Ledger, b: Ledger, c: Ledger, runId: string)
    requires Extends(a, b) && Extends(b, c)
    requires AddedFor(a, b, runId) && AddedFor(b, c, runId)
    ensures Extends(a, c) && AddedFor(a, c, runId)
  {
    forall i | |a.toolCalls| <= i < |c.toolCalls| ensures c.toolCalls[i].runId == runId {
      if i < |b.toolCalls| {
        assert c.toolCalls[i] == b.toolCalls[i];
      }
    }
  }

  /** `log_agent_run`: an insert that does nothing when the run id exists. */
  function BeginRun(l: Ledger, runId: string, userId: string, role: string, question: string, writeOk: bool): (r: Result<Ledger>)
    ensures r.Success? <==> writeOk
    ensures r.Success? ==> runId in r.value.runs && Extends(l, r.value)
    ensures r.Success? ==> r.value.toolCalls == l.toolCalls
    ensures r.Success? ==> r.value.runs.Keys == l.runs.Keys + {runId}
    ensures r.Success? && runId !in l.runs ==> r.value.runs[runId] == RunRecord(userId, role, question)
    ensures r.Success? && runId in l.runs ==> r.value == l
    ensures r.Success? && ReferencesKnownRuns(l) ==> ReferencesKnownRuns(r.value)
  {
    if !writeOk then Failure(AuditWriteFailure)
    else if runId in l.runs then Success(l)
    else Success(l.(runs := l.runs[runId := RunRecord(userId, role, question)]))
  }

  /** Beginning the same run twice, with whatever other details, leaves the
      ledger as beginning it once did. */
  lemma BeginRunIdempotent(l: Ledger, runId: string, userId: string, role: string, question: string,
                           userId': string, role': string, question': string)
    requires BeginRun(l, runId, userId, role, question, true).Success?
    ensures BeginRun(BeginRun(l, runId, userId, role, question, true).value, runId, userId', role', question', true)
         == BeginRun(l, runId, userId, role, question, true)
  {
  }

  /** `log_tool_call`: appends exactly one record, built from the summary of
      the outputs, and touches nothing else. The caller must have begun the
      run already. */
  function LogToolCall(l: Ledger, runId: string, toolName: string, inputs: Inputs, outputs: Outputs, writeOk: bool): (r: Result<Ledger>)
    requires runId in l.runs
    ensures r.Success? <==> writeOk
    ensures r.Failure? ==> r.error == AuditWriteFailure
    ensures r.Success? ==> Extends(l, r.value) && r.value.runs == l.runs
    ensures r.Success? ==> |r.value.toolCalls| == |l.toolCalls| + 1
    ensures r.Success? ==> r.value.toolCalls[|l.toolCalls|] == ToolCallRecord(runId, toolName, inputs, Summarize(outputs))
    ensures r.Success? && ReferencesKnownRuns(l) ==> ReferencesKnownRuns(r.value)
  {
    if !writeOk then Failure(AuditWriteFailure)
    else Success(l.(toolCalls := l.toolCalls + [ToolCallRecord(runId, toolName, inputs, Summarize(outputs))]))
  }
}
