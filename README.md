# dsl-engine, modelled in Dafny

dsl-engine diagnoses e-commerce alerts, such as a drop in conversion rate, by
running a workflow: a list of typed nodes joined by `next` ids and branch
routes. This project models the engine's core and proves properties about it.
The core is:

- **The run** (`src/core/engine.js`). The light validator runs first and
  rejects a malformed workflow before anything executes. A fresh execution
  context is then created. The loop starts at the first `validation` node and
  calls the executor the node registry gives for each node's type, for at
  most 50 steps. The answer is the context's final insight, a `suppressed` or
  `deferred` early return, or an error.
- **Two validators.** `src/core/validator.js` returns a list of errors.
  `src/core/workflow-validator.js` is the strict one. It throws at the first
  fault, checks the type whitelist, the node limit and the start node, and
  searches depth-first for cycles and excessive depth.
- **The node registry** (`src/nodes/index.js`) and the ten executors. Most of
  them update the shared context in place.
- **The shared pieces.** These are the time-window parser (`parseWindow`), the
  per-dimension analysis of `src/core/analysis-lib.js`, and the whitelisted
  SQL templates with their filter injection (`getTemplate`).

## How the model is laid out

**Pure code becomes functions and lemmas.** This covers the validators'
decisions, `parseWindow`, the analysis library, the branch expression
evaluator, template resolution and each node's effect on a context value
(`Step`).

**Code that works by mutation stays imperative:**

- The shared context object is the class `Context.ExecutionContext`.
- Every executor that assigns into the context is a `method Execute` with
  `modifies c`. It is proved to leave exactly the state its `Step` function
  describes.
- Loops are methods whose invariants tie them to those functions: the engine's
  step loop, the validators' `forEach` loops, the dimension loop, the row
  loop, the rule search and the limitations pushes.
- The recursive depth-first search updates `visited` and `recursionStack` in
  place. It is the class `WorkflowValidator.Search`.

**Outside dependencies are parameters.** The clock, the UUID generator, the
database, `Date.parse` and the string-to-number conversion all come in through
`Runtime.Env`.

**Behaviours of the code as written that the proofs make visible:**

- The engine never calls the strict validator. It ignores `start_node`.
- A branch's `terminate` status is not one the loop knows, so it ends the run
  in an `execution_exception`.
- The generic dimension template and the geo and UTM templates that
  `TEMPLATE_MAP` names do not exist. Those dimensions always yield no
  findings.
- `executeTemplate` injects filter placeholders into the SQL but hands the
  database only the positional parameters, not the filter values.

## Model

| member | source | states |
|---|---|---|
| Registry.GetNodeExecutor | src/nodes/index.js:30-32 | an executor is returned only for the tag it is registered under |
| Registry.FindSound | src/nodes/index.js:30-32 | the keyed lookup answers an entry registered under the tag, and nothing exactly when no entry is |
| Registry.TenEntries | src/nodes/index.js:13-24 | the registry lists ten executors, each once, under pairwise distinct keys |
| Registry.TagInjective | src/nodes/index.js:13-24 | distinct executors are registered under distinct keys |
| Registry.Lookup | src/nodes/index.js:13-32 | a tag yields a given executor exactly when it is that executor's key |
| Registry.Position | src/nodes/index.js:13-24 | every executor has a place in the registry |
| Registry.UnknownTag | src/nodes/index.js:30-32 | a tag yields no executor exactly when it is none of the ten keys |
| Dsl.FindById | src/core/engine.js:34 | a node found by id has that id |
| Dsl.FindByIdFirst | src/core/engine.js:34 | `find` returns the first node with the id, and nothing exactly when no node has it |
| Dsl.FirstOfKind | src/core/engine.js:28 | a node found by type has that type |
| Dsl.FirstOfKindFirst | src/core/engine.js:28 | `find` returns the first node of the type, and nothing exactly when none has it |
| Context.CreateExecutionContext | src/core/context.js:8-25 | the new context copies alert and brand, starts with empty maps, no analysis and no final insight, and records the workflow's id and version with the given clock reading and trace id |
| Context.ExecutionContext.constructor | src/core/context.js:8-25 | the shared context object starts in the given state |
| Context.DefaultTimes | src/nodes/metric-compare.js:22-26 | without windows or timestamp the current window is the hour from now and the baseline is the hour starting three days earlier |
| Window.DigitRun | src/core/utils.js:28 | the `\d+` run at the start of a text is maximal |
| Window.ParseWindow | src/core/utils.js:16-63 | a window fails exactly when it has no "avg_prev_", no '\|' and is not an ISO instant, and then with "Unknown window definition" |
| Window.DigitRunOf | src/core/utils.js:28 | a run of digits followed by a non-digit is read in full |
| Window.NoDaysMatchAt | src/core/utils.js:28 | `/prev_(\d+)_days/` cannot match at a character other than 'p' |
| Window.DaysMatchAtStart | src/core/utils.js:28-29 | "prev_N_days…" matches at its start and captures N |
| Window.DaysInAvgPrev | src/core/utils.js:28-29 | "avg_prev_N_days…" yields N days |
| Window.AvgPrevWindow | src/core/utils.js:19-45 | "avg_prev_N_days…" resolves to the hour starting N days before the reference, which for N >= 1 ends before the reference |
| Window.AvgPrevDefaultsToOneDay | src/core/utils.js:29 | an avg_prev token without a day count goes back one day |
| Window.PairWindow | src/core/utils.js:48-51 | "a\|b" yields exactly the instants of a and b, whatever the reference |
| Window.PairRoundTrip | src/core/utils.js:48-51 | two instants rendered by a formatter that the parser reads back, and joined with '\|', parse back to those two instants |
| Window.InstantWindow | src/core/utils.js:55-60 | a bare ISO instant t yields the window [t, t + 1 hour) |
| Strings.IndexOf | src/queries/templates.js:190-193 | the first occurrence of a word, and none exactly when it never occurs |
| Strings.Split | src/core/utils.js:49 | the pieces join back to the text, none contains the separator, and there is one piece exactly when the separator is absent |
| Strings.SplitAfter | src/core/utils.js:49 | splitting at a one-character separator stops right after the first piece |
| Strings.ContainsInSplit | src/nodes/branch.js:72-78 | what occurs in a piece of a split occurs in the whole |
| Strings.ContainsTrim | src/nodes/branch.js:73 | what occurs in the trimmed text occurs in the original |
| Strings.TrimStart | src/nodes/branch.js:73 | the result is a suffix of the text, the removed prefix is all white space, and the result does not start with white space |
| Strings.TrimEnd | src/nodes/branch.js:73 | the result is a prefix of the text, the removed suffix is all white space, and the result does not end with white space |
| Strings.Trim | src/nodes/branch.js:73 | the trimmed text is a slice of the original with only white space removed before and after it, and it neither starts nor ends with white space |
| Strings.TrimIdentity | src/nodes/branch.js:73 | a text without surrounding white space is its own trim |
| Strings.DigitsValueNatText | src/core/utils.js:29 | reading back a rendered number gives the number |
| Queries.FirstInvalidColumn | src/queries/templates.js:178-181 | the first filter column outside `[a-zA-Z0-9_]+`, and none exactly when all are safe |
| Queries.InsertionPoint | src/queries/templates.js:190-193 | the clause goes before the first GROUP BY, else before the first ORDER BY |
| Queries.InjectClause | src/queries/templates.js:190-197 | the clause and a space are inserted before the first GROUP BY or ORDER BY; otherwise a space and the clause are appended |
| Queries.ReplaceAt | src/queries/templates.js:191-193 | replacing a word by "clause word" inserts the clause and a space before it |
| Queries.Resolve | src/queries/templates.js:167-183 | a name outside the table fails with "not found or not allowed", then the first unsafe column fails; otherwise the template and filters are accepted |
| Queries.Sql | src/queries/templates.js:172-200 | without filters the text is the template; with filters the clause is injected |
| Queries.GetTemplate | src/queries/templates.js:167-201 | fails exactly when resolution fails, with its message |
| Queries.GetTemplateCases | src/queries/templates.js:167-201 | the four outcomes: unknown name, untouched template, unsafe column, clause injected |
| Queries.RemovingClauseRecoversTemplate | src/queries/templates.js:190-197 | deleting the inserted clause and its space gives back the template exactly |
| Queries.ClausePlaceholders | src/queries/templates.js:178-183 | the clause carries exactly one placeholder per filter |
| Queries.NoPlaceholderInColumn | src/queries/templates.js:179 | a whitelisted column holds no placeholder |
| Queries.ExecuteTemplate | src/queries/executor.js:28-58 | a resolution failure is the error; otherwise the database is called with the resolved statement and the given parameters alone, without the filter values |
| Queries.ExecuteTemplateAfterGetTemplate | src/queries/executor.js:28-46 | the query fails with `getTemplate`'s error, or reaches the database with the statement whose text `getTemplate` returns |
| Analysis.PlanQueries | src/core/analysis-lib.js:36-43 | a mapped dimension queries its template with the two window bounds; any other queries the generic template with the dimension and the bounds twice |
| Analysis.FirstValueColumn | src/core/analysis-lib.js:84 | the first column that is not a measure, and none exactly when all are measures |
| Analysis.NormalizeRow | src/core/analysis-lib.js:83-89 | the value is the key column's cell; the rate is present exactly when `pending_rate` is; count falls back from count to order_count to 0 |
| Analysis.NormalizeRows | src/core/analysis-lib.js:82-91 | one normalised row per row, in order |
| Analysis.AnalyzeSegment | src/core/analysis-lib.js:93-119 | the rate rule (rise above 5) is tried before the volume rule (drop beyond 15 percent over a baseline above 10); a finding keeps dimension and value and scores above 5 |
| Analysis.VolumeRuleExamples | src/core/analysis-lib.js:108-115 | 100 to 80 scores 20; 100 to 90 scores nothing |
| Analysis.BaselineFor | src/core/analysis-lib.js:55-61 | the last baseline row with the value, and none exactly when no row has it |
| Analysis.MatchedSupported | src/core/analysis-lib.js:60-68 | every finding comes from a current row whose value a baseline row shares and scores above 5; no more findings than current rows |
| Analysis.UnmatchedRowDropped | src/core/analysis-lib.js:61-62 | a current row without a baseline partner contributes nothing |
| Analysis.InsertSorted | src/core/analysis-lib.js:71 | inserting into a list sorted by impact keeps it sorted |
| Analysis.InsertBounded | src/core/analysis-lib.js:71 | inserting below a bound keeps every impact below it |
| Analysis.InsertPermutes | src/core/analysis-lib.js:71 | insertion adds exactly the new finding |
| Analysis.InsertKeepsTies | src/core/analysis-lib.js:71 | insertion keeps the order among equal impacts |
| Analysis.SortByImpactCorrect | src/core/analysis-lib.js:71 | the sort is a permutation, non-increasing in impact, and stable |
| Analysis.CompareRowsSound | src/core/analysis-lib.js:52-71 | the compared findings are a reordering of the matched findings, sorted by impact, each from a current row whose value a baseline row shares |
| Analysis.AnalyzeSound | src/core/analysis-lib.js:30-78 | the findings of a dimension are sorted by impact and score above 5; when both queries succeed they are exactly the matched findings of the two row sets, reordered, each from a current row whose value a baseline row shares |
| Analysis.MissingTemplateYieldsNothing | src/core/analysis-lib.js:36-49 | a dimension outside TEMPLATE_MAP, and city, utm_source and utm_campaign, query a template that does not exist and yield no findings |
| Analysis.FailureYieldsNothing | src/core/analysis-lib.js:74-77 | a failure of either query degrades to no findings |
| Analysis.MatchRows | src/core/analysis-lib.js:60-68 | the row loop computes the matched findings in order |
| Analysis.AnalyzeDimension | src/core/analysis-lib.js:30-78 | `analyzeDimension` computes the plan, both queries, the matching and the sort |
| Validator.Messages | src/core/validator.js:6-42 | one message per problem, in order |
| Validator.NodeErrors | src/core/validator.js:29-39 | a node adds no error exactly when it has an id, a type and a `next` that is absent or names a node |
| Validator.AllNodeErrorsEmpty | src/core/validator.js:29-39 | the per-node errors are empty exactly when every node passes |
| Validator.AllNodeErrorsFromNodes | src/core/validator.js:29-39 | every per-node error is a missing id, a missing type or a dangling next |
| Validator.AllNodeErrorsInclude | src/core/validator.js:29-39 | each node's own errors appear in the list |
| Validator.EmptyIff | src/core/validator.js:6-42 | no errors exactly when id, version and a non-empty nodes array are present and every node passes |
| Validator.MissingNodesStops | src/core/validator.js:11-14 | without a nodes array the list ends with that error, has at most three entries, and no node is checked |
| Validator.HeaderReported | src/core/validator.js:9-18 | a missing id or version is reported exactly when missing; an empty nodes array is reported |
| Validator.NodeFaultsReported | src/core/validator.js:29-39 | each missing node id, missing type and dangling next is in the list |
| Validator.CheckNode | src/core/validator.js:29-39 | the body of the `forEach` appends exactly that node's errors |
| Validator.CheckNodes | src/core/validator.js:29-39 | the `forEach` appends the errors of every node in order |
| Validator.ValidateWorkflow | src/core/validator.js:6-42 | the pushes yield exactly the messages of the error list |
| WorkflowValidator.AllowedTags | src/core/workflow-validator.js:6-17 | the whitelist holds the ten type names |
| WorkflowValidator.WhitelistedIsRegistered | src/core/workflow-validator.js:6-17 | every whitelisted type has an executor |
| WorkflowValidator.RegisteredIsWhitelisted | src/core/workflow-validator.js:6-17 | every registered type is whitelisted |
| WorkflowValidator.WhitelistIsRegistry | src/core/workflow-validator.js:6-17 | the whitelist is exactly the registry's key set |
| WorkflowValidator.NodeMap | src/core/workflow-validator.js:44-49 | the map's keys are exactly the node ids |
| WorkflowValidator.IdErrorNone | src/core/workflow-validator.js:45-49 | the id loop throws nothing exactly when ids are present and pairwise distinct |
| WorkflowValidator.UniqueIdsSnoc | src/core/workflow-validator.js:46-47 | ids stay unique after one more node exactly when its id is present and new |
| WorkflowValidator.NodeMapLookup | src/core/workflow-validator.js:48 | with distinct ids the map sends each id to its own node |
| WorkflowValidator.StartNode | src/core/workflow-validator.js:51-62 | `start_node` when given, else the first validation node's id; an error exactly when neither exists |
| WorkflowValidator.RouteError | src/core/workflow-validator.js:91-98 | a branch route error exactly when some route names no node |
| WorkflowValidator.NodeError | src/core/workflow-validator.js:69-99 | a node is rejected exactly when its type is missing or not whitelisted, its `next` dangles, or a branch route dangles |
| WorkflowValidator.FirstNodeError | src/core/workflow-validator.js:69-100 | no rejection exactly when every node passes |
| WorkflowValidator.DepthFirst | src/core/workflow-validator.js:107-109 | beyond depth 20 the search fails, even at a visited node |
| WorkflowValidator.AcceptedShape | src/core/workflow-validator.js:22-138 | an accepted workflow has 1 to 50 nodes with unique ids, whitelisted types, edges inside the workflow, and a start node among its nodes |
| WorkflowValidator.AcceptedEdgesStayInside | src/core/workflow-validator.js:77-99 | in an accepted workflow every `next` and route names a node |
| WorkflowValidator.DfsFinishes | src/core/workflow-validator.js:106-133 | a successful search finishes its node and keeps the search invariant (finished nodes are closed under edges) |
| WorkflowValidator.DfsAllFinish | src/core/workflow-validator.js:120-130 | a successful search from several ids finishes them all |
| WorkflowValidator.Descends | src/core/workflow-validator.js:106-133 | a walk from a finished node visits no node twice |
| WorkflowValidator.AcceptedHasNoReachableCycle | src/core/workflow-validator.js:102-137 | no walk from the start node of an accepted workflow repeats a node |
| WorkflowValidator.Search.constructor | src/core/workflow-validator.js:103-104 | the search starts with empty `visited` and `recursionStack` |
| WorkflowValidator.Search.Visit | src/core/workflow-validator.js:106-133 | the recursive `dfs` computes the search's result and, on success, restores the recursion stack |
| WorkflowValidator.BuildNodeMap | src/core/workflow-validator.js:44-49 | the id loop builds the node map, or throws at the first missing or repeated id |
| WorkflowValidator.IdErrorExtends | src/core/workflow-validator.js:45-49 | once a prefix fails its id check, the whole list fails the same way |
| WorkflowValidator.CheckNodes | src/core/workflow-validator.js:69-100 | the node loop throws exactly the first node rejection |
| WorkflowValidator.ValidateWorkflow | src/core/workflow-validator.js:22-138 | the checks in order compute the validation result |
| ValidationNode.Execute | src/nodes/validation.js:15-79 | a bad window fails; a future window under 30 minutes defers; a drop below the minimum suppresses; otherwise success to `next` |
| ValidationNode.NoWindowNeverDefers | src/nodes/validation.js:36-48 | without a current window the node never defers |
| ValidationNode.WindowCheckFirst | src/nodes/validation.js:41-57 | a too-short window defers whatever the threshold |
| ValidationNode.FlatThresholdWins | src/nodes/validation.js:18 | the node-level minimum wins over the one under params |
| MetricCompareNode.PctChange | src/nodes/metric-compare.js:47 | a zero baseline gives 0; otherwise the change is the percentage of the baseline |
| MetricCompareNode.FunnelShape | src/nodes/metric-compare.js:42-54 | the funnel holds exactly the metrics processed, each with its own entry |
| MetricCompareNode.DerivedFunnel | src/nodes/metric-compare.js:41-54 | `derived.funnel` is the funnel of the metrics processed |
| MetricCompareNode.DeltaKeysDistinct | src/nodes/metric-compare.js:56 | distinct metrics have distinct delta keys, none of them "funnel" |
| MetricCompareNode.DeltaKeysAt | src/nodes/metric-compare.js:56 | the delta keys written are those of the metrics processed, in order |
| MetricCompareNode.DerivedDeltas | src/nodes/metric-compare.js:44-57 | each processed metric's delta key holds its percentage change |
| MetricCompareNode.DerivedUntouched | src/nodes/metric-compare.js:41-57 | every other key of `derived` is unchanged |
| MetricCompareNode.DeltaKeysNamed | src/nodes/metric-compare.js:38-56 | the keys written are sessions_delta_pct, orders_delta_pct and cvr_delta_pct |
| MetricCompareNode.DerivedWrites | src/nodes/metric-compare.js:38-57 | after the node, the funnel holds exactly sessions, orders and cvr, each delta equals its pct_change, and nothing else in `derived` changed |
| MetricCompareNode.StepFrame | src/nodes/metric-compare.js:11-68 | on success the node moves to `next`, and it changes only `derived` |
| MetricCompareNode.Execute | src/nodes/metric-compare.js:11-68 | the node's in-place writes leave the state its step describes |
| BreakdownNode.TotalDrop | src/nodes/recursive-dimension-breakdown.js:32 | the divisor is never negative |
| BreakdownNode.DefaultDivisor | src/nodes/recursive-dimension-breakdown.js:32 | a missing or zero orders delta gives 100 |
| BreakdownNode.ValidCauses | src/nodes/recursive-dimension-breakdown.js:33-36 | exactly the causes that pass the dominance test are kept |
| BreakdownNode.ValidCausesSorted | src/nodes/recursive-dimension-breakdown.js:29-36 | filtering keeps the causes sorted by impact |
| BreakdownNode.MixedIff | src/nodes/recursive-dimension-breakdown.js:38-46 | mixed factors means at least two valid causes and a top impact of at most 60 |
| BreakdownNode.ValidCausesCount | src/nodes/recursive-dimension-breakdown.js:33-36 | filtering keeps each valid cause as often as it occurs and drops every other finding |
| BreakdownNode.ValidCausesPermute | src/nodes/recursive-dimension-breakdown.js:29-36 | filtering two reorderings of the same findings gives two reorderings of the same causes |
| BreakdownNode.StepSound | src/nodes/recursive-dimension-breakdown.js:7-55 | on success the node moves to `next`; root causes become the valid causes of the listed dimensions' findings, all of them and nothing else (as a multiset), sorted by impact; mixed factors are raised exactly when mixed; nothing else changes; a failure changes nothing |
| BreakdownNode.CollectSound | src/nodes/recursive-dimension-breakdown.js:22-26 | every collected finding scores above 5 |
| BreakdownNode.CollectFindings | src/nodes/recursive-dimension-breakdown.js:22-26 | the dimension loop concatenates the findings of each dimension, in order |
| BreakdownNode.Execute | src/nodes/recursive-dimension-breakdown.js:7-55 | the node's in-place writes leave the state its step describes |
| DrillDownNode.StepSound | src/nodes/drill-down.js:7-63 | the node only moves to `next` and touches only root causes and the drill path; whenever it changes anything it appended exactly the best drilled finding after the causes and set the path to the top cause's segment; a failure changes nothing |
| DrillDownNode.DrillAppends | src/nodes/drill-down.js:22-62 | a top cause of at least 40 whose window resolves moves on to `next`; non-empty drill findings append exactly `findings[0]` to the end of the root causes and overwrite the path with the top cause's segment; empty findings change nothing |
| DrillDownNode.NothingToDrill | src/nodes/drill-down.js:12-25 | without causes, or with a top cause below 40, nothing changes |
| DrillDownNode.DrillsAtForty | src/nodes/drill-down.js:22-55 | a top cause of impact exactly 40 is drilled into |
| DrillDownNode.UnsafeColumnDrillsNothing | src/nodes/drill-down.js:29-46 | a top cause whose column fails the whitelist makes the query fail, so nothing is appended |
| DrillDownNode.Execute | src/nodes/drill-down.js:7-63 | the node's in-place push and assignment leave the state its step describes |
| ConfidenceNode.Clamp | src/nodes/confidence.js:47 | the clamp lands in [0.1, 0.99] and leaves values already there unchanged |
| ConfidenceNode.ScoreRange | src/nodes/confidence.js:7-47 | the unclamped score lies in [0.2, 0.9], so the clamp never changes it |
| ConfidenceNode.NoCausesScore | src/nodes/confidence.js:33-44 | without causes the score is 0.3, or 0.2 at low volume; missing order data counts as low volume |
| ConfidenceNode.ClarityBonus | src/nodes/confidence.js:24-32 | the clarity bonus is paid exactly for a single cause or a top cause above twice the second |
| ConfidenceNode.StepSound | src/nodes/confidence.js:7-55 | the node moves to `next` and writes only the confidence, which lies in [0.2, 0.9] |
| ConfidenceNode.Execute | src/nodes/confidence.js:7-55 | the score built step by step is the one stored |
| InsightNode.EffectiveConfidence | src/nodes/insight.js:12 | a missing or zero confidence counts as 0.5 |
| InsightNode.ClassificationTable | src/nodes/insight.js:14-42 | no causes is inconclusive; otherwise actionable above 0.6, inconclusive below 0.4, investigating in between |
| InsightNode.SummaryOf | src/nodes/insight.js:19-42 | the summary is the inconclusive one exactly without causes, the mixed one when mixed, else the confidence band's wording for the top cause |
| InsightNode.SpaceUnderscores | src/nodes/insight.js:117 | underscores become spaces, and nothing else changes |
| InsightNode.CapitalizeWords | src/nodes/insight.js:117 | exactly the characters that start a word are upper-cased |
| InsightNode.FormatLabelShape | src/nodes/insight.js:117 | a label keeps its length, has no underscores, and starts every word with a capital |
| InsightNode.FormatLabelIdempotent | src/nodes/insight.js:117 | formatting a label twice is the same as once |
| InsightNode.FormatLabelWords | src/nodes/insight.js:117 | "a_b" of lower-case words becomes "A B" |
| InsightNode.Details | src/nodes/insight.js:45-47 | one detail per cause, in order, with the formatted dimension, value and change |
| InsightNode.Limitations | src/nodes/insight.js:51-64 | the fixed entry first; low confidence, mixed factors and partial data listed exactly when they apply |
| InsightNode.LimitationsOrdered | src/nodes/insight.js:51-64 | the limitations appear in their fixed order |
| InsightNode.ConclusionOf | src/nodes/insight.js:82-114 | no causes gives the fixed text; otherwise the primary sentence of the top cause and its change, and the second cause only when it scores above 50 |
| InsightNode.StepSound | src/nodes/insight.js:7-80 | the node returns done, writes only the final insight, and stores the causes with one detail per cause |
| InsightNode.NoCausesInconclusive | src/nodes/insight.js:39-42 | without causes the diagnosis is inconclusive with the fixed summary and conclusion |
| InsightNode.PushLimitations | src/nodes/insight.js:51-64 | the pushes build exactly the limitations list |
| InsightNode.Execute | src/nodes/insight.js:7-80 | the stored final insight is the one the step describes |
| CompositeNode.Execute | src/nodes/composite.js:7-16 | success to `params.start_node_id` exactly when params exist, else the TypeError |
| CompositeNode.IgnoresNext | src/nodes/composite.js:7-16 | the node's own `next` plays no part |
| SuppressionNode.Step | src/nodes/suppression.js:7-18 | with params the node records a suppression with its reason or "unknown" and returns done; only the final insight changes |
| SuppressionNode.Execute | src/nodes/suppression.js:7-18 | the in-place assignment leaves the state the step describes |
| DeferNode.Step | src/nodes/defer.js:7-18 | with params the node records a deferral with its reason or "insufficient_data" and returns done; only the final insight changes |
| DeferNode.Execute | src/nodes/defer.js:7-18 | the in-place assignment leaves the state the step describes |
| BranchNode.WalkStopsAtFalsy | src/nodes/branch.js:126 | once the dotted walk meets a falsy value, that value is the result |
| BranchNode.ViewDerived | src/nodes/branch.js:124 | the context object exposes `derived` under its own name |
| BranchNode.DottedLookup | src/nodes/branch.js:122-127 | a two-part path reads a field inside a field, unless a flat `derived` key shadows it |
| BranchNode.OpNamed | src/nodes/branch.js:111-118 | an operator is recognised only by its own text |
| BranchNode.OpNamedText | src/nodes/branch.js:111-118 | each of the six operators is recognised by its text |
| BranchNode.Compare | src/nodes/branch.js:109-120 | undefined on either side, or an unknown operator, is false |
| BranchNode.FieldLen | src/nodes/branch.js:83 | the `[\w._]+` run at the start is maximal |
| BranchNode.SpaceLen | src/nodes/branch.js:83 | the `\s*` run at the start is maximal |
| BranchNode.OpAt | src/nodes/branch.js:83 | the operator read at the start is a prefix of the text |
| BranchNode.SkipSpaces | src/nodes/branch.js:83 | leading white space is dropped, and only that |
| BranchNode.ParseLeafSound | src/nodes/branch.js:83-89 | every parse is a well-formed leaf that spells out the text exactly |
| BranchNode.ParseLeafComplete | src/nodes/branch.js:83-89 | every well-formed leaf, with any white space around its operator, parses back to itself |
| BranchNode.TrimmedPartsFree | src/nodes/branch.js:71-79 | a trimmed piece of a split holds no separator |
| BranchNode.Pieces | src/nodes/branch.js:71-79 | the trimmed pieces between separators contain no separator |
| BranchNode.PiecesKeepAbsence | src/nodes/branch.js:71-79 | a piece never contains a word its whole did not |
| BranchNode.Conjunction | src/nodes/branch.js:76-94 | without " OR ", an expression holds exactly when every AND piece is a leaf that holds |
| BranchNode.Precedence | src/nodes/branch.js:66-95 | " OR " binds loosest: an expression holds exactly when some OR piece has all its AND leaves holding |
| BranchNode.Disjunction | src/nodes/branch.js:71-74 | with an " OR ", the expression holds exactly when some OR piece's AND leaves all hold |
| BranchNode.UndefinedFieldFails | src/nodes/branch.js:89-94 | a leaf whose field is undefined fails, whatever the operator and literal |
| BranchNode.RuleList | src/nodes/branch.js:11-21 | `node.rules`, else `params.rules`, else the legacy conditions as rules, else none |
| BranchNode.Verdicts | src/nodes/branch.js:23-31 | each rule's condition read in order |
| BranchNode.FirstTrue | src/nodes/branch.js:23-39 | the first rule that holds, and none exactly when none holds |
| BranchNode.Fallback | src/nodes/branch.js:41-60 | success to the default exactly when it is a non-empty id; a terminate default and no default both terminate, with their reasons |
| BranchNode.DecideFirstMatch | src/nodes/branch.js:23-39 | the first rule that holds decides `next`, whatever the later rules say |
| BranchNode.DecideNoMatch | src/nodes/branch.js:41-60 | when no rule holds, the default path decides |
| BranchNode.FirstMatch | src/nodes/branch.js:23-39 | the rule loop finds the first rule that holds |
| BranchNode.Execute | src/nodes/branch.js:10-61 | the loop with its early return and the default path give the step's transition |
| Engine.ExecuteNode | src/core/engine.js:45 | the executor's in-place call leaves the state its step describes |
| Engine.Loop | src/core/engine.js:33-63 | at most one executor call per remaining step; the step count stays within 50; the budget error is never thrown inside the loop; the only unknown status is terminate |
| Engine.ExecutorsDispatch | src/core/engine.js:39-45 | the executors the run uses are the registry's dispatch |
| Engine.StepKeepsAlertAndBrand | src/core/engine.js:45 | no executor writes the alert or the brand |
| Engine.LoopKeepsAlertAndBrand | src/core/engine.js:33-63 | the loop ends with the alert and brand it started with |
| Engine.SelfRouteExhausts | src/core/engine.js:33-63 | a node that always routes to itself runs once per remaining step, and the budget is used up |
| Engine.UnknownTypeThrows | src/core/engine.js:39-42 | a type outside the registry throws "No executor" before any executor runs |
| Engine.UnmatchedBranchThrows | src/core/engine.js:57-60 | a branch with no rule holding and no default ends in the unknown-status error for terminate |
| Engine.RunOutcomes | src/core/engine.js:12-95 | validation errors are answered joined and with no call, and only then; past validation the run escapes exactly when no validation node exists; halts are suppressed or deferred; at most 50 calls |
| Engine.IgnoresStartNode | src/core/engine.js:28 | `start_node` plays no part in the run |
| Engine.ExecutorsKeepIdentity | src/core/engine.js:45 | the registry's executors keep alert and brand |
| Engine.DeliveredCarriesIdentity | src/core/engine.js:70-77 | a delivered insight carries the run's brand id and metric |
| Engine.RunDeliversOwnIdentity | src/core/engine.js:70-77 | `executeWorkflow`'s delivered insight names the run's own brand and metric |
| Engine.SelfRouteExceeds | src/core/engine.js:30-67 | a single self-routing node runs 50 times and the run ends with the max-steps exception |
| Engine.SelfLoopExceeds | src/core/engine.js:30-67 | a single validation node routing to itself, with no window and no minimum, runs 50 times and ends with the max-steps exception |
| Engine.Advance | src/core/engine.js:34-62 | one pass of the loop body agrees with the loop function |
| Engine.Conclude | src/core/engine.js:65-85 | the budget check, then the final insight or the no-insight error |
| Engine.RunLoop | src/core/engine.js:29-94 | the `try` block computes the loop's answer on the shared context |
| Engine.ExecuteWorkflow | src/core/engine.js:12-95 | `executeWorkflow` computes the run |

## Left out

- Queries.ExecuteTemplate: the database is a function parameter that receives the resolved statement and the parameters; the SQL text it would receive is `Queries.Sql` of that statement. The query timeout, `Promise.race` and logging are not modelled.
- Asynchrony: `async`/`await` and `Promise.all` are modelled as sequential calls; the two queries of a dimension are independent.
- Logging and console output: not modelled.
- Clock, UUID and `Date.parse`: `new Date()`, `crypto.randomUUID()` and ISO parsing are parameters of the run.
- Environment variables: `MIN_SESSIONS`, `MIN_ORDERS`, `MAX_NODES` and `MAX_DEPTH` take their defaults. The first two are unused by the node anyway.
- Window.ParseWindow: `setDate` and `setHours` are modelled as adding 24-hour days and 1-hour steps in milliseconds. Local-time daylight-saving shifts are not modelled.
- Regular expressions: `/prev_(\d+)_days/`, the branch leaf pattern and the column whitelist are hand-written matchers over ASCII character classes, not a regex engine.
- Numbers: `toFixed` and the narrative number formatting are not modelled. Findings keep their change as a structured value, not the rendered sentence.
- Confidence scores are kept in hundredths. The JavaScript floating-point sums (0.5 + 0.3 and so on) are not modelled.
- BranchNode.Compare: operands are compared as numbers only. JavaScript's loose `==` between strings and numbers, string ordering, and object operands are not modelled.
- Context.View: the context as seen by branch paths omits the array-valued entries and the body of a final insight. Property reads on non-objects yield undefined.
- Dsl.Node: a `next` that is an object (which the strict validator tolerates) is not modelled. A `next` is an id, with the empty id standing for none.
- BranchNode.Holds: a rule whose `if` is null is modelled as never matching. In the code `typeof null` is `'object'`, so `evaluateCondition` reads `cond.field` of null and the run throws a TypeError (`src/nodes/branch.js` lines 28-30 and 105). An `if` that is neither a string nor an object (a number, a boolean, undefined) never matches, as in the code.
- BranchNode.RuleList: legacy `params.conditions` entries are modelled only as `{ field, op, value, next }` objects with a string field. In the code a string entry becomes a rule whose `if` is that string and whose `next` is undefined, so it is evaluated as an expression and, when it holds, routes to an undefined next node (`src/nodes/branch.js` lines 18-21). An object entry, or an object `if`, without a `field` reaches `path.split` on undefined in `getByPath` and throws a TypeError (line 126). Neither case is modelled.
- Registry.UnknownTag: lookups in the node registry and the other JavaScript objects treat a name that is not an own key as absent. Names inherited from `Object.prototype` (`constructor`, `toString`, `__proto__`, `hasOwnProperty` and the like) are therefore not modelled. In the code a node of type `constructor` finds a truthy registry entry, and the run ends in a TypeError (`executor.execute is not a function`) instead of the "No executor" error.
- Engine.UnknownTypeThrows: states the "No executor" error for every type without an own registry entry, so it does not cover the prototype-inherited names above, for which the code throws a TypeError.
- BranchNode.GetByPath: a path segment such as `constructor` or `toString` reads an inherited property in the code and yields a function, where the model yields undefined. The same holds for `BranchNode.Walk` and for the `derived` shortcut.
- Numbers: JavaScript numbers are modelled as exact reals plus NaN, with no infinities and no IEEE-754 rounding. A branch literal such as `1e999` or `Infinity` cannot be written. The threshold tests (rate rise above 5 and volume change below -15 in the analysis, impact score below 40 in the drill-down, above 50 or 20 in the confidence node, above 20, 40 or 60 in the breakdown and above 50 in the insight) are decided on exact values, where double rounding could in rare cases tip a value sitting on the threshold. The one division by zero the code depends on, the zero total drop in the breakdown, is handled explicitly as the code's `Infinity` outcome.
- WorkflowValidator.ValidateWorkflow: the "Workflow JSON must be an object" check is not modelled, because a workflow here is always a record.
- Validator.IdText: a node whose id is the empty string and one with no id both print "undefined".
- The thrown TypeError texts (reading `params` of a node without params, iterating missing dimensions) are paraphrased.
- Server, persistence and the HTTP layer (`src/server.js`, the models, the database connectors) are not part of this model.
