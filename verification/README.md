# Governed tool execution of the lakehouse agent, in Dafny

This project models the governed tool-execution path of the agentic
lakehouse assistant:

- **policy check**: `is_tool_allowed` / `require_tool_allowed`, a
  fail-closed membership test of a tool name in a role's `allowed_tools`;
- **SQL tool gateway**: `run_sql`, which runs permission check, closed
  catalog lookup, execution with separately bound parameters, one audit
  record, then return;
- **audit ledger**: the idempotent run insert and the append-only
  tool-call insert with its five-row output summary;
- **retrieval post-filter**: `retrieve_docs`, a role filter applied after
  the index's `top_k` limit;
- **offline ingestion**: `chunk_text` and the numbering of points and
  chunks;
- **agent's `main`**: which failures end the run, how `sources_used` grows,
  the SKU gate and the extraction of `missing_skus`.

One module per source file: `Common` (shared `Option`, `Result`,
`Outcome`, `Error`, `Cell`), `AccessControl`, `LineageLogger`,
`SqlExecutor`, `RagRetriever`, `EmbeddingPipeline`, `PlannerAgent`.

Everything is pure. The databases are a `SqlExecutor.Gateway` value, made
of the audit ledger and the log of statements sent to the store, and each
operation returns the next gateway. Every external effect becomes an
input:
- what the store replies (rows, a driver error once the statement is sent, or a failure to connect);
- whether an audit write succeeds;
- the index's ranking, or `None` when embedding or the index fails;
- the run id, and today's date as two day numbers, one for each of the two
  `date.today()` calls (agents/planner_agent.py:34-35), which differ when
  midnight falls between them.

The planner bundles these as a `PlannerAgent.World`.

The model follows the code, including where it is more fragile than its
comments suggest:
- `retrieve_docs` is outside any `try`, so a retrieval failure ends the
  run;
- a source name is appended to `sources_used` only after its call
  returned;
- a failed audit write raises out of `run_sql` after the store was
  queried, and the fetched result is lost.

## Model

| member | source | states |
|---|---|---|
| AccessControl.AllowedTools | governance/access_control.py:21-23 | The list after the `.get` defaults holds exactly the tools the reference reading `Grants` allows the role; it is empty when the document has no `roles` or does not name the role |
| AccessControl.IsToolAllowed | governance/access_control.py:19-24 | A missing roles file raises before any decision; a present file always yields a decision, which is true exactly when the document names the role, the role has an `allowed_tools` list and the tool is in it (the reference `Grants`); a document without `roles`, or without the role, denies |
| AccessControl.RequireToolAllowed | governance/access_control.py:27-29 | Returns normally exactly when the file exists and grants the tool; a denial raises PermissionError naming role and tool; a missing file raises FileNotFoundError instead |
| AccessControl.DecisionIsLocal | governance/access_control.py:22-24 | Replacing or adding the entry of any other role never changes the decision for a role |
| LineageLogger.Summarize | governance/lineage_logger.py:30-34 | The summary keeps the columns (default empty), the true row count, and as preview the leading rows: a prefix of the rows, never longer than 5, exactly 5 when there are at least 5 rows, all rows when there are at most 5 |
| LineageLogger.SummaryForgetsTail | governance/lineage_logger.py:30-34 | Two outputs with the same columns, length and first five rows get the same summary, so nothing past the preview reaches the ledger |
| LineageLogger.BeginRun | governance/lineage_logger.py:16-26 | Fails exactly when the write fails; otherwise the run id is then a key, no existing run record or tool call changes, a new id gets the given user, role and question, and an existing id leaves the ledger untouched; the tool-call foreign key stays satisfied |
| LineageLogger.BeginRunIdempotent | governance/lineage_logger.py:21-23 | Inserting the same run id a second time, with any other details, leaves the ledger as the first insert left it |
| LineageLogger.LogToolCall | governance/lineage_logger.py:28-49 | For a run already begun: fails exactly when the write fails and then changes nothing; otherwise appends exactly one record, holding run id, tool name, inputs and the summary of the outputs, and alters no earlier record or run |
| SqlExecutor.CatalogIsClosed | tools/sql_executor.py:8-43 | The catalog names exactly the four tools, every statement text belongs to one of them, and no two names share a text |
| SqlExecutor.RunSql | tools/sql_executor.py:54-77 | A denial or missing roles file raises before the lookup, and a name outside the catalog raises ValueError; both leave no statement sent and no record. A failure to connect raises with no statement sent. Otherwise exactly one statement reaches the store: the catalog text, with the parameters apart. A store error then raises with no record; a failed audit write raises after the fetch. The call succeeds exactly when the checks pass, the store answers and the record is written; it then returns the fetched result and adds exactly one record: the run given, the tool name, the parameters and role as inputs, and the summary of the fetched columns and rows. Any failure leaves the ledger unchanged |
| SqlExecutor.TextIndependentOfParams | tools/sql_executor.py:61-65 | Two calls that differ only in their parameters send the same text, `QUERY_LIBRARY[tool_name]`, each with its own parameters |
| RagRetriever.VisibleTo | tools/rag_retriever.py:28-30 | The role test: a point passes exactly when it has a payload whose `allowed_roles` is present and contains the role (its consequences are stated by `UntaggedPointsHidden`, `RoleFilterSpec` and `IngestedVisibility`) |
| RagRetriever.VisibleToIsDefaultedMembership | tools/rag_retriever.py:28-30 | For every point and role, the case-by-case test is `user_role in allowed_roles` after `p.payload or {}` and `.get("allowed_roles", [])` supply their empty defaults |
| RagRetriever.UntaggedPointsHidden | tools/rag_retriever.py:28-30 | A point with no payload, or whose payload has no `allowed_roles`, is excluded for every role |
| RagRetriever.ToNote | tools/rag_retriever.py:31-36 | A record copies document name, chunk id and text from the payload and carries the point's score |
| RagRetriever.VisibleIndices | tools/rag_retriever.py:27-30 | Reference description: the positions of the points whose payload has `allowed_roles` containing the role, strictly increasing, and a position is listed exactly when its point passes the test |
| RagRetriever.RoleFilter | tools/rag_retriever.py:26-37 | The loop keeps at most one record per point; `RoleFilterSpec` states exactly which records and in which order |
| RagRetriever.RoleFilterSpec | tools/rag_retriever.py:26-38 | The filter returns one record per visible point and nothing else, in the index's order: record `j` is built from the point at the `j`-th visible position; points with no payload or no `allowed_roles` are seen by nobody |
| RagRetriever.RoleFilterAppend | tools/rag_retriever.py:26-38 | Filtering two runs of points one after the other is filtering their concatenation |
| RagRetriever.RetrieveDocs | tools/rag_retriever.py:15-38 | Exactly one record per visible point among the first `top_k` of the ranking, built from that point, in ranking order, and nothing else; hence at most `top_k` records, never more than the index returned |
| RagRetriever.RetrieveIsPrefixOfVisibleRanking | tools/rag_retriever.py:19-36 | The records are a prefix of the role-visible part of the whole ranking: filtering after the limit only ever loses records at the end |
| RagRetriever.FilterAfterLimitUnderfills | tools/rag_retriever.py:22-30 | A two-point ranking whose best point is hidden from the role returns nothing for `top_k = 1`, though a visible point exists at rank 2 |
| EmbeddingPipeline.ChunksFrom | rag/embedding_pipeline.py:14-17 | From any offset, the loop yields no chunk exactly when the offset is at or past the end, and every chunk is non-empty and at most `size` long |
| EmbeddingPipeline.ChunkText | rag/embedding_pipeline.py:12-18 | The empty text, and only it, gives no chunks; every chunk is non-empty and at most `size` long |
| EmbeddingPipeline.ChunksFromConcat | rag/embedding_pipeline.py:14-17 | From any offset, the chunks glue back to the rest of the text |
| EmbeddingPipeline.ChunksFromShape | rag/embedding_pipeline.py:14-17 | From any offset, chunk `i` is the clamped slice at `start + i*size`, exactly `size` long when not last |
| EmbeddingPipeline.ChunksFromCount | rag/embedding_pipeline.py:14-17 | From any offset, the chunks cover the rest of the text and one chunk fewer would not |
| EmbeddingPipeline.ChunkTextRoundTrip | rag/embedding_pipeline.py:12-18 | Concatenating the chunks gives back the text |
| EmbeddingPipeline.ChunkTextCount | rag/embedding_pipeline.py:12-18 | There are ceil(length / size) chunks; the empty text, and only it, gives none |
| EmbeddingPipeline.ChunkTextSlices | rag/embedding_pipeline.py:15-17 | Chunk `i` is `text[i*size .. min((i+1)*size, len)]`; every chunk is non-empty and at most `size` long, and all but the last are exactly `size` long |
| EmbeddingPipeline.DocPayloads | rag/embedding_pipeline.py:44-54 | A document yields one payload per chunk of its text at the default size, each tagged with finance and ops and carrying a non-empty text of at most 400 characters |
| EmbeddingPipeline.AllPayloads | rag/embedding_pipeline.py:40-56 | Every payload of the corpus is tagged with finance and ops and carries a non-empty text of at most 400 characters |
| EmbeddingPipeline.BuildPoints | rag/embedding_pipeline.py:37-56 | One point per chunk of every document, in document and chunk order; point ids run 1, 2, 3, ... (hence distinct); each payload is the reference payload, with `allowed_roles` equal to finance and ops |
| EmbeddingPipeline.DocPayloadsRoundTrip | rag/embedding_pipeline.py:45-53 | Within a document, chunk ids number the chunks from 0, and the payload texts glue back to the document |
| EmbeddingPipeline.IngestedVisibility | rag/embedding_pipeline.py:53 | An ingested point passes the retrieval filter for finance and ops and for no other role |
| PlannerAgent.ComputeTrend | agents/planner_agent.py:49-52 | The trend exists exactly when there are two daily rows with a numeric revenue in their second cell and the earlier one is non-zero; it reports those two revenues, and the drop times the earlier revenue is 100 times their difference; otherwise the step raises |
| PlannerAgent.TwentyPercentDrop | agents/planner_agent.py:49-52 | A fall from 10000 to 8000 is a 20% drop |
| PlannerAgent.FirstColumn | agents/planner_agent.py:99 | The comprehension succeeds exactly when every row is non-empty, and then yields each row's first cell, in order |
| PlannerAgent.FirstCellsOrEmpty | agents/planner_agent.py:99-101 | When every row is non-empty, `missing_skus` is each row's first cell, in order; when some row is empty the handler leaves it `[]` |
| PlannerAgent.DailyStep | agents/planner_agent.py:34-52 | The trend is computed exactly when the daily revenue call returns (checks passed, store answered, record written) and its rows admit a trend. The call is made once: exactly its one statement is sent when it passes the checks and connects, the daily revenue text with (last7_start, yesterday) taken from the two clock readings, and it is recorded exactly when it returns, with its parameters, the role and the summary of its result. Any failure is the one `RequiredError` names, so a missing roles file or a denial surfaces as the run's error |
| PlannerAgent.RequiredSteps | agents/planner_agent.py:40-69 | Steps 1, 2 and 2.5 finish exactly when the trend is computed, the freshness call returns and retrieval succeeds; they then hand on the trend, the freshness rows and the role-filtered top-3 notes. The first failure ends them: the statements sent are exactly the daily call's, then the freshness call's only if the trend was computed (so at most two, and only daily revenue texts while the trend is not computed), and the records added are exactly the full records of the calls that returned among those made, in order. A failure raises the error `RequiredError` names, including a denial of either tool |
| PlannerAgent.RequiredError | agents/planner_agent.py:40-69 | The exception that ends a run before the SKU investigation, in step order; there is none exactly when those steps all succeed; a missing roles file, a denial of the daily tool, and, once the trend is computed, a denial of the freshness tool or a failed retrieval each name their own error |
| PlannerAgent.RequiredFailures | agents/planner_agent.py:41-69 | A missing roles file, a denial of either unguarded tool, a store or audit failure on either, fewer than two daily rows, or a retrieval failure each end the run |
| PlannerAgent.MissingStep | agents/planner_agent.py:89-101 | The call is made once: exactly one statement is sent when it passes the checks and connects, the missing-SKU text with (last7_start, yesterday-1, yesterday), and none otherwise. Its source is listed, and its full record (parameters, role, result summary) added, exactly when it returned, and then `missing_skus` is the first cells of its rows (or empty if a row is empty); otherwise `missing_skus` stays empty |
| PlannerAgent.SkuStep | agents/planner_agent.py:71-101 | `sku_allowed` holds exactly when the SKU revenue call returns; any failure, a denial included, turns it off. The sources are the SKU call when it returned, followed by the missing-SKU call when it was then made and returned; the records added are exactly those calls' full records, in the same order. The rows are kept only when allowed. `missing_skus` is the first cells of the missing-SKU rows when that call returned, else `[]`. The statements sent are exactly the SKU revenue text with (yesterday) when that call passes the checks and connects, then the missing-SKU text once only when the first call returned: at most two |
| PlannerAgent.CallTrace | tools/sql_executor.py:54-77 | One `run_sql` call sends exactly the statement `SentBy` names (the catalog text with its parameters when the checks pass and the store connects) and adds exactly the record `RecordedBy` names (the full record when the call returns) |
| PlannerAgent.RunSentShape | agents/planner_agent.py:40-101 | Each tool is called at most once per run; a run that fails before the SKU investigation sends only daily revenue and freshness texts and records no SKU call; while the trend is not computed only the daily revenue text is sent |
| PlannerAgent.RunTrace | agents/planner_agent.py:40-101 | In the statement log of a run, at most four statements follow the earlier ones, each binding as many parameters as its text has placeholders; a failed run adds only daily revenue and freshness texts, and no missing-SKU text is sent unless the SKU revenue call returned |
| PlannerAgent.RunTools | agents/planner_agent.py:37-101 | After the run insert: the report is assembled exactly when the unguarded steps succeed, and is then the one `ReportMatches` pins down: `sources_used` is the three unguarded steps followed by the SKU call and the missing-SKU call each exactly when it returned; the SKU gate, the SKU rows, `missing_skus` and the sections are fixed by what the store and the index returned. `sources_used` without the retrieval entry is exactly the records added, in order. The statements sent and the records added are exactly those of the calls made, each call at most once (four statements at most), each record carrying its call's parameters, the role and its result summary; a failed run raises the error `RequiredError` names, a denial of either unguarded tool included, and never reaches the SKU calls, sending only daily revenue and freshness texts and recording only the unguarded calls that returned |
| PlannerAgent.Plan | agents/planner_agent.py:31-101 | The run is inserted before any tool call: when that write succeeds the run map gains exactly this run, with the request's user, role and question (an existing run id is left as it was), and no other run changes; when it fails the run map is unchanged, nothing is sent and no record is added. Every record added belongs to the run, and the tool-call foreign key stays satisfied. The statements sent and the records added are exactly those of the calls made, each at most once, each record carrying the run id, tool name, parameters, role and result summary of a call that returned, and every statement binds as many parameters as its text has placeholders. The report is assembled exactly when the insert and the unguarded steps succeed, and is then the one `ReportMatches` pins down (the full `sources_used` in call order, SKU gate, SKU rows, `missing_skus`, sections), with sources matching the records added. A failed run after the insert raises the error `RequiredError` names, a denial of either unguarded tool included, and sends no SKU statement |
| PlannerAgent.IllustrativeRolesReach | test_permissions.py:18-28 | Under a roles document granting finance all four tools and ops only daily revenue and freshness, ops reaches the store with those two alone, so a finished ops run reports the SKU section as not allowed, while finance reaches every tool |

## Left out

- Database connections and their environment defaults (`get_conn`): I/O; each call is handed the store's reply (including a failure to connect) and whether the audit write succeeds.
- SqlExecutor.RunSql: the query connection commits when its `with` block exits (tools/sql_executor.py:63-77), after the audit row was committed on its own connection; a failure of that final commit would raise with the audit record kept. The model treats every exit after a successful audit write as a return, so it does not cover a run where a record exists for a call that then raised.
- The SQL inside `QUERY_LIBRARY`: only which text is sent and its placeholder count are modelled, not what the queries compute or how they order rows.
- AccessControl.IsToolAllowed: a key written with no value in the roles file (`roles:`, a role, or `allowed_tools:` left empty) makes the source raise AttributeError or TypeError (governance/access_control.py:22-24); the model reads such a key as absent, so the check denies with PermissionError there instead.
- YAML parsing in `load_roles`: its result is a parameter. An unreadable or malformed file, and an empty file (which `safe_load` turns into `None`, so `.get` raises), are not modelled.
- The roles file is re-read by every check; the model uses one document for a whole run, so an edit during a run is not modelled.
- Embedding, the vector index and the upload (`SentenceTransformer`, `QdrantClient`): foreign calls; retrieval is given the index's ranking, and ingestion is given the corpus as (name, content) pairs in directory-listing order.
- The index's validation of `limit` and its behaviour for `top_k = 0`: `RetrieveDocs` takes the first `top_k` points as given.
- RagRetriever.VisibleTo: an `allowed_roles` key present with value `null` raises TypeError in the source; the model treats it like a missing key (seen by nobody).
- PlannerAgent.ComputeTrend: revenues are reals, not floats (no rounding, overflow or NaN), and `float()` of a numeric string is not modelled; a string cell fails the step.
- Scores: carried along as given, without the `float()` conversion.
- JSON serialisation of audit inputs and outputs (`json.dumps(..., default=str)`): only the shape of the summary is modelled.
- `argparse` (its `--role` choices), `uuid4` and `date.today()`: the request carries the role, the run id and the two readings of today's date as inputs.
- Printing the answer, its layout and the 220-character truncation of notes: output formatting; the model stops at the report's contents.
- PlannerAgent.Plan: a finished run means the report was assembled. The printing that follows is outside any `try` and can still raise: a non-string missing SKU in `', '.join` (agents/planner_agent.py:122), an SKU row with fewer than three cells or a revenue `float()` rejects (line 128), or a freshness row with fewer than two cells (line 116).
- The `tool_calls` to `runs` foreign key: not visible in the code, so it is a precondition of `LineageLogger.LogToolCall` and `SqlExecutor.RunSql`, and the `ReferencesKnownRuns` invariant is proved to be kept.
- test_rag.py and the live checks in test_permissions.py: scripts against running services. The roles document behind them is not part of this model; `PlannerAgent.IllustrativeRoles` is an example document of that shape.
