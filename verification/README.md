# Agent runtime and domain gate: a verified model

A Dafny model of the decision-making core of the repository, with machine-checked theorems
about whole runs. Providers, tools, case executors, repositories and clocks are arbitrary:
every theorem holds for all of them.

| files | what they model |
|---|---|
| `AgentLoop`, `AgentLoopTranscript`, `AgentLoopRuns`, `AgentLoopMeaning`, `AgentLoopMethod` | the bounded tool-calling loop: a step machine, its invariants over whole runs, what a run shows outside field by field, and the imperative loop proved to compute it |
| `ContextSizer`, `ContextSelection`, `ContextAssembly`, `ContextBuilder` | the size estimate, greedy selection and its optimality, and how a context is put together from skill, knowledge, memory and meta sections |
| `JsonReader`, `ContextReading`, `MessageReading`, `ContextMeaning` | a JSON reader, and the rendered texts read back with it: sections, whole contexts, tool results, message payloads |
| `SkillRun` | build, compile, run, prepare as one pipeline |
| `DomainEvaluation`, `DomainEvaluationTheorems`, `DomainEvaluationMeaning` | the layered evaluator, its blame chain, monotonicity, compositionality and rounded rates, and every verdict by the fields of requirements and observation |
| `BudgetLedger`, `BudgetMeaning`, `BudgetObjects`, `DomainGate`, `DomainGateTheorems`, `DomainGateReports`, `DomainGateReturns`, `DomainGateMethod` | the shared budget, the wrapper every executor calls through and what it lets through, the fail-closed driver, what its records report and the validator of its result; the objects and the driver are proved against the value-level specification |
| `RateLimiter`, `RequestBody` | the fixed-window limiter and the cumulative body bound, over whole request histories |
| `CursorPaging` | the defensive paging service, the repository's query and client walks along the cursor |
| `SessionStore` | the session store over any history of calls |
| `Prelude`, `Json`, `ProviderModels` | shared types |

Code that the source writes step by step is written step by step here (methods, loops, classes
with mutable fields) and proved equal to a function; the theorems are about the functions.

## What the proofs brought to light

- Deadline: even when provider and tools keep their time allowances, the last clock reading of
  a run can pass the deadline. All readings are in time exactly when local work, between two
  readings with no call in between, ends by the deadline (`HonouredRunEndsInTime`).
- Rate limiter: the tight bound for any interval shorter than a window is 2 * limit - 1; an interval of
  one whole window, ends included, can reach 2 * limit.
- Gate: usage is added before it is checked, so an overshoot makes the driver raise instead of
  returning a result (`OvershootRaises`). `GateRaisesIff` gives the exact condition, which also covers
  an executor that claims more responses than its case made calls (`OverclaimRaises`) and a provider
  error code that starts with a digit or an underscore: it is recorded, but the control snapshot's own
  pattern refuses it (`DigitCodeRaises`). Replies of at most 1000 tokens, showable codes and honest
  claims are enough for a result (`ModestRunReturns`); 1001 tokens are not (`OneTokenMoreRaises`).
- Gate: a record shows the resources a case had used when it closed. An executor that calls through an
  earlier case's wrapper charges that case afterwards, and the returned result then shows more in the
  final resources than in the record (`BorrowedCallUnrecorded`); otherwise both agree (`RecordedResources`).
- Evaluator: weakening requirements can turn a success into a failure; `WeakeningKeepsSuccessIff`
  says exactly when it cannot.
- Rates: six decimals identify "all" and "none" for exactly the row counts below 2,000,000.
- Sessions: `issue` accepts owners, such as one with an inner space, that the actor context rejects, so
  the issued cookie never resolves.
- Context: additional memory and meta sections are not checked for repeated ids before the bundle
  is constructed; a repeated id fails the build even if the section would have been omitted.

## Model

| member | source | states |
|---|---|---|
| `AgentLoopMethod.Run` | app/agent/loop.py:164-172 | the imperative loop with its terminal signal returns, for every request and environment, the result and the signals of the step machine, so every theorem below about the machine is about this code |
| `AgentLoopMethod.RunLoop` | app/agent/loop.py:174-429 | growing lists, counters and the two nested loops, proved equal to the step machine |
| `AgentLoopRuns.NeverFallsThrough` | app/agent/loop.py:202-429 | no run ever begins an iteration beyond the limit, so the return after the loop is never reached |
| `AgentLoopMethod.Respond` | app/agent/loop.py:278-418 | what follows a recorded response: the checks, then the calls or a stop |
| `AgentLoopMethod.ValidateCalls` | app/agent/loop.py:316-349 | the pass over one response with a growing set gives the batch verdict |
| `AgentLoopMethod.ExecuteCall` | app/agent/loop.py:351-418 | one execution: time left, call, record, answer and time check, or a stop on TIMEOUT |
| `AgentLoopMethod.ExecuteCalls` | app/agent/loop.py:351-418 | the execution loop of one response follows the machine step by step |
| `AgentLoopMethod.AskProvider` | app/agent/loop.py:202-276 | the top of an iteration: context size, time, request, reply |
| `AgentLoopMethod.JudgeResponse` | app/agent/loop.py:278-349 | what a response leads to, in the order of the checks |
| `AgentLoopTranscript.ValidateBatchMeans` | app/agent/loop.py:316-349 | a batch is admitted iff every call is allowed, new and not repeated within the batch; otherwise the verdict is that of the first offending call |
| `AgentLoopTranscript.StepKeepsTranscript` | app/agent/loop.py:202-418 | every step keeps the transcript a sequence of blocks: a response and its answers, in call order, with matching id and name |
| `AgentLoopTranscript.AdmissionGivesAtMostOnce` | app/agent/loop.py:316-418 | all-or-nothing admission of every batch makes executed (name, canonical arguments) pairs pairwise distinct |
| `AgentLoopRuns.TranscriptGrammar` | app/agent/loop.py:202-418 | at every provider call the messages are the initial ones and closed blocks; at every exit at most the last block is open, and only by a missing suffix |
| `AgentLoopRuns.ToolsRunAtMostOnce` | app/agent/loop.py:316-418 | for any provider and tool runtime no pair of name and canonical arguments runs twice, every name is allowed and the tool budget holds |
| `AgentLoopRuns.RunBounds` | app/agent/loop.py:202-429 | iterations equals the number of responses and is at most min(max_iterations, max_tool_calls + 1); usage is the sum over the responses |
| `AgentLoopRuns.EveryExitExplained` | app/agent/loop.py:174-456 | every exit has the status, final response and error code of its stop reason, and the reason is true of the transcript, for a refused batch down to the first offending call |
| `AgentLoopRuns.FirstRefused` | app/agent/loop.py:316-349 | a refused batch has a first offending call, with admissible calls before it |
| `AgentLoopRuns.TerminalSignalValid` | app/agent/loop.py:574-598 | the error-code lookup never misses and the terminal signal meets its own validators, the pattern of safe codes included (app/runtime/signals.py:309-351) |
| `AgentLoopRuns.SignalsPairExecutions` | app/agent/loop.py:366-388 | signals are one Started and one Completed per recorded execution, in order, with ordinals 1, 2, 3, ... |
| `AgentLoopRuns.DeadlineRespected` | app/agent/loop.py:200-418 | all clock readings but the last precede the deadline, the last does not iff the run stopped on TIMEOUT, and every provider timeout and tool cap is exactly the positive time left |
| `AgentLoopRuns.AllowancesBounded` | app/agent/loop.py:218-365 | under a non-decreasing clock no allowance exceeds the run timeout |
| `AgentLoopRuns.HonouredRunEndsInTime` | app/agent/loop.py:200-418 | if provider and tools keep their allowances, every clock reading is within the deadline iff local work ends within it; a reading past it is the last one and follows local work rather than a call |
| `AgentLoopRuns.LocalWorkCanOverrun` | app/agent/loop.py:200-231 | it does happen: a second clock reading past the deadline stops the run before any call |
| `AgentLoopRuns.ConstructedValuesValid` | app/providers/models.py:127-245 | every message and every request the loop builds passes the checks of its own constructor |
| `AgentLoopRuns.CompletedHasText` | app/agent/loop.py:291-302 | a completed run ends in a response with text that is not blank |
| `AgentLoopRuns.RunInduction` | app/agent/loop.py:202-429 | what holds at the start and is kept by every step holds at the end of every run |
| `AgentLoopMeaning.RequestsCarry` | app/agent/loop.py:200-252 | every request of every run, field by field: the messages so far, one spec per allowed tool in order with the registry's name, description and schema, AUTO iff tools are allowed and NONE otherwise, the run's temperature, max_tokens and top_p, the time left, the iteration; and none is made beyond the context ceiling or of a provider that cannot serve it |
| `AgentLoopMeaning.FirstRequestIff` | app/agent/loop.py:180-267 | a first request is made iff every tool is registered, the context fits, time is left and the provider can serve the run; the first of these that fails decides status, reason and error code, unsupported_capability included |
| `AgentLoopMeaning.BlockShows` | app/agent/loop.py:269-405 | a response is kept as an assistant message with its content, calls and reasoning; each call that ran is answered under its id and name by a content that reads back as the tool's result |
| `AgentLoopMeaning.RunUsage` | app/agent/loop.py:466-474 | input, output and cached tokens of a run are each the sum over its responses |
| `AgentLoopMeaning.ToolsShown` | app/agent/loop.py:351-418 | every execution: the iteration it belongs to, what the runtime was asked with which time left, and its two signals field by field, with a failure code that is one of the seven published ones or tool_failed |
| `AgentLoopMeaning.TerminalShows` | app/agent/loop.py:574-598 | the terminal signal shows status, reason and iterations, and a fixed code per failing reason |
| `AgentLoopMeaning.NoExecutionRepeats` | app/agent/loop.py:332-348 | no two executions agree in tool and canonical arguments |
| `AgentLoopMeaning.RefusalShown` | app/agent/loop.py:316-349 | a run that stops on a repeated or a disallowed call names the first such call of its last response: all calls before it are allowed and new |
| `ContextSizer.RunsCountWords` | app/agent/context.py:107-143 | summing the lengths of the runs of word characters counts the word characters |
| `ContextSizer.EstimateIsUnits` | app/agent/context.py:107-143 | a message estimate is ceil(23 * (ceil(w / 4) + o) / 20) + 8 for its w word and o other characters |
| `ContextSizer.EstimateAdds` | app/agent/context.py:100-105 | every message adds its own estimate, and nothing else is added |
| `ContextSizer.InsertionNeverShrinks` | app/agent/context.py:96-143 | inserting text anywhere into the rendered message never lowers its estimate |
| `ContextSizer.GroupEstimateMonotone` | app/agent/context.py:868-898 | a rendered message with more sections among its texts is estimated no smaller |
| `MessageReading.PayloadReadsBack` | app/agent/context.py:107-143 | the text whose size is estimated reads back as the message, every field under its own key, calls in order |
| `Json.EscapeConcat` | app/agent/context.py:868-898 | per-character JSON escaping distributes over concatenation, so inserted text stays inserted |
| `JsonReader.EscapeReadsBack` | app/agent/context.py:868-898 | undoing the escapes of any string, control characters included, gives it back and stops at the closing quote |
| `JsonReader.ValueReadsBack` | app/agent/context.py:868-898 | the tokens of any value parse to that value, whatever follows |
| `ContextReading.SectionReadsBack` | app/agent/context.py:883-889 | whatever a section contains, its text reads back as content, instructional flag, section id, source and trust, each under its own key |
| `ContextReading.GroupReadsBack` | app/agent/context.py:879-896 | a rendered list reads back as its items in order, under its schema version |
| `ContextReading.MessagesReadBack` | app/agent/context.py:868-898 | reading the two messages of any sections gives exactly the instructional and the data sections, in order, and nothing else |
| `ContextReading.SelectionReadsBack` | app/agent/context.py:446-452 | the messages of a selection show exactly the selected sections, and the estimate is theirs |
| `MessageReading.ToolResultReadsBack` | app/agent/loop.py:486-508 | what the provider is shown of a tool's result reads back as its data, success, tool name, version and, if there is one, error, each under its own key |
| `ContextSelection.SelectSections` | app/agent/context.py:394-452 | the greedy loop over a growing index set returns the specified selection, messages, estimate and omitted ids |
| `ContextSelection.TrialOrderSorted` | app/agent/context.py:424-431 | optional sections are tried by descending priority, then source position |
| `ContextSelection.ChoiceIsOptimal` | app/agent/context.py:394-452 | among all sets with every required section that fit, the chosen one has the lexicographically greatest inclusion vector in trial order, and is the only one with it |
| `ContextSelection.FeasibleSupersetIsChoice` | app/agent/context.py:432-444 | a fitting superset of the chosen set is the chosen set |
| `ContextSelection.ChoiceIsMaximal` | app/agent/context.py:432-444 | no set of omitted sections can be added and still fit |
| `ContextSelection.DeterministicSizerMonotone` | app/agent/context.py:93-143 | the source's own estimator never falls when sections are added, which is the hypothesis of optimality |
| `ContextSelection.PickKeepsOrder` | app/agent/context.py:446-450 | selected sections stay in source order |
| `ContextSelection.IdsPartition` | app/agent/context.py:446-456 | selected and omitted ids together are the input ids, each as often as it occurs |
| `ContextAssembly.OptionalNeverExceeds` | app/agent/context.py:394-422 | inserting optional sections anywhere never changes whether the required ones fit |
| `ContextAssembly.TrialOrderInserted` | app/agent/context.py:424-431 | after inserting lower priorities the trial order is the old one, moved, followed by the inserted sections |
| `ContextAssembly.LowerPriorityNeverDisplaces` | app/agent/context.py:394-452 | optional sections of lower priority, inserted anywhere, do not change which of the other sections are chosen |
| `ContextBuilder.PaddedReadsBack` | app/agent/context.py:505-681 | zero-padded numbers read back, so numbered section ids never collide |
| `ContextBuilder.PaddedWidth` | app/agent/context.py:505-681 | a padded number is as wide as asked for, or as its digits need |
| `ContextBuilder.BuildRecentFormSections` | app/agent/context.py:455-527 | the appending builder yields the specified sections, with at most ten match rows |
| `ContextBuilder.RecentFormBase` | app/agent/context.py:455-527 | ids are distinct and reserved for the skill, instructions are required, optional rows have priority 500 |
| `ContextBuilder.SingleMatchBase` | app/agent/context.py:530-609 | the same for the single-match skill |
| `ContextBuilder.AssembledDistinctIff` | app/agent/context.py:662-732 | after knowledge and additional sections only the additional ones can bring a repeated id |
| `ContextBuilder.AssembledFitsIff` | app/agent/context.py:372-392 | knowledge, memory and meta sections never make a context exceed its budget |
| `ContextBuilder.ContextBuiltIff` | app/agent/context.py:303-392 | the exact condition under which build succeeds, over all inputs |
| `ContextBuilder.KnowledgeNeverDisplaces` | app/agent/context.py:662-732 | citations change nothing about which of the skill's own sections are selected |
| `ContextBuilder.SystemMessageFixed` | app/agent/context.py:325-347 | whatever citations and additional sections contain, the system message is the rendering of the skill's own instruction sections |
| `ContextMeaning.SystemMessageLists` | app/agent/context.py:325-347 | reading that message gives exactly the skill's own instruction sections, in order |
| `ContextMeaning.BundleShown` | app/agent/context.py:372-392 | a built bundle in every field: identity, the smaller of both ceilings, the size of its messages, the kept sections and omitted ids at increasing positions, every required section kept, messages that read back as the kept sections |
| `ContextMeaning.BuildFailsFor` | app/agent/context.py:316-422 | a limit that is not positive and required sections that do not fit each have their own error |
| `ContextMeaning.AssembledShown` | app/agent/context.py:303-392 | every section shown is of the skill, a citation or additional, and every required one is shown |
| `ContextMeaning.RecentFormShown` | app/agent/context.py:455-527 | a built recent-form context shows policy, instructions, scope, aggregate, boundaries, report and request, each with its own text, trust, source and priority; whatever else it shows is one of the first ten match rows, a citation or additional |
| `ContextMeaning.RecentRowsPresent` | app/agent/context.py:498-512 | each of the first ten rows has its section, in order, before the request |
| `ContextMeaning.CitationsPlaced` | app/agent/context.py:684-732 | every citation has its section, in order, right before the user's request; additional sections come last |
| `ContextMeaning.SingleMatchShown` | app/agent/context.py:530-609 | the same for a single match: scope, target and request, and at most the report lines besides |
| `SkillRun.BuildSucceedsIff` | app/agent/context.py:372-392 | a selection passes the checks of ContextBundle exactly when required sections fit and no id repeats |
| `SkillRun.CollectMissing` | app/agent/compiler.py:87-92 | the append loop lists the unregistered tools in order |
| `SkillRun.CompileRun` | app/agent/compiler.py:57-141 | the checks in order, then the request |
| `SkillRun.UnregisteredMeans` | app/agent/compiler.py:87-97 | missing tools are exactly the allowed ones the registry does not know |
| `SkillRun.UnregisteredInOrder` | app/agent/compiler.py:87-97 | and they are named in the order in which they are allowed |
| `SkillRun.CompileDecides` | app/agent/compiler.py:57-141 | for any bundle: exactly when run, skill and version differ, a ceiling is exceeded, the messages are too large or tools are missing, in this order; otherwise every field of the request, with and without a profile |
| `SkillRun.BuiltBundleCompiles` | app/agent/compiler.py:57-97 | a bundle built for the execution with the compiler's sizer can be rejected only for unregistered tools |
| `SkillRun.CompiledRunStarts` | app/agent/loop.py:180-216 | a compiled run never stops on tool configuration, nor on context size before its first provider call |
| `SkillRun.CollectPayloads` | app/agent/draft.py:208-234 | the loop over executions appends one payload per success and fails at the first other one |
| `SkillRun.PayloadsMean` | app/agent/draft.py:208-234 | payloads exist iff every execution is a usable knowledge search, and are its data in order |
| `SkillRun.PrepareDraft` | app/agent/draft.py:135-206 | compile, run, require a final response, collect evidence, in that order |
| `SkillRun.PreparedMeans` | app/agent/draft.py:135-234 | a draft exists exactly when the run completed and every execution contributed one payload, in order; its report is the last response's text |
| `SkillRun.PreparedIsCompiled` | app/agent/draft.py:135-170 | nothing is prepared from what does not compile |
| `DomainEvaluation.EvaluateChecks` | app/evaluation/domain_e2e.py:526-586 | the step-by-step evaluation layer equals its specification |
| `DomainEvaluation.CheckResources` | app/evaluation/domain_e2e.py:608-643 | the resource layer with its flags equals its specification |
| `DomainEvaluation.AppendNew` | app/evaluation/domain_e2e.py:655-670 | appending a layer's codes keeps the first occurrence of each |
| `DomainEvaluation.OrderedUniqueFailures` | app/evaluation/domain_e2e.py:655-670 | the codes of a case are those of its layers, in layer order, without repetition |
| `DomainEvaluation.EvaluateCaseInSteps` | app/evaluation/domain_e2e.py:405-446 | one case in the source's order of steps |
| `DomainEvaluationTheorems.LayersValid` | app/evaluation/domain_e2e.py:273-286 | every layer result meets its own validator: failure codes iff FAIL |
| `DomainEvaluationTheorems.ChainOfLayers` | app/evaluation/domain_e2e.py:449-587 | a functional layer passes or fails only behind a passing predecessor |
| `DomainEvaluationTheorems.BlameChain` | app/evaluation/domain_e2e.py:414-447 | when a functional layer fails every earlier one passes and no later one passes or fails, so at most one fails, and the primary failure is that layer's first code |
| `DomainEvaluationTheorems.UnsafeExactly` | app/evaluation/domain_e2e.py:589-605 | a case is an unsafe publication iff it was published and some applicable functional layer did not pass |
| `DomainEvaluationTheorems.SucceededHasNoCodes` | app/evaluation/domain_e2e.py:414-447 | a succeeded case has no failure codes |
| `DomainEvaluationTheorems.ChecksMeaning` | app/evaluation/domain_e2e.py:526-586 | the evaluation layer passes iff every demanded check is known and satisfied |
| `DomainEvaluationTheorems.SuccessMonotone` | app/evaluation/domain_e2e.py:405-643 | whatever observation dominates a succeeding one succeeds |
| `DomainEvaluationTheorems.GapForbidsSuccess` | app/evaluation/domain_e2e.py:482-605 | requirements that skip a prerequisite layer can never be met |
| `DomainEvaluationTheorems.WeakeningKeepsSuccessIff` | app/evaluation/domain_e2e.py:405-643 | weakening requirements keeps success exactly when the weaker ones leave no gap in the chain of layers |
| `DomainEvaluationTheorems.WeakeningCanBreakSuccess` | app/evaluation/domain_e2e.py:482-605 | a concrete weakening turns a success into a failure |
| `DomainEvaluationTheorems.AloneIsCase` | app/evaluation/glm53_domain_gate.py:1260-1285 | the full evaluator on a one-case dataset yields the case's own evaluation |
| `DomainEvaluationTheorems.AggregateIsCompositional` | app/evaluation/domain_e2e.py:361-402 | the aggregate's cases are the one-case evaluations in dataset order |
| `DomainEvaluationTheorems.OrderDoesNotMatter` | app/evaluation/domain_e2e.py:361-402 | permuting the candidate's cases changes nothing in the evaluation |
| `DomainEvaluationTheorems.ObservedHolds` | app/evaluation/domain_e2e.py:383-391 | the dictionary of observations holds each observation under its id |
| `DomainEvaluationTheorems.RatesExactIff` | app/evaluation/domain_e2e.py:673-675 | a rate is 1.0 iff all rows hold and 0.0 iff none do, for exactly the row counts below 2,000,000 |
| `DomainEvaluationTheorems.RateIsBlunt` | app/evaluation/domain_e2e.py:673-675 | from 2,000,000 rows on, one miss still rounds to 1.0 and one hit to 0.0 |
| `DomainEvaluationTheorems.MeanExact` | app/evaluation/domain_e2e.py:673-675 | the same for the mean of a list of verdicts |
| `DomainEvaluationMeaning.ProviderDecided` | app/evaluation/domain_e2e.py:449-480 | verdict and codes of the provider layer, by fields: not applicable, too few responses, another status or stop reason, pass |
| `DomainEvaluationMeaning.ToolDecided` | app/evaluation/domain_e2e.py:482-507 | verdict and codes of the tool layer, by fields: a required tool not proposed, not successful, or too few executions |
| `DomainEvaluationMeaning.EvidenceDecided` | app/evaluation/domain_e2e.py:509-524 | the evidence layer fails with EVIDENCE_MISSING iff it applies, its prerequisites pass and there are fewer ids than demanded |
| `DomainEvaluationMeaning.EvaluationDecided` | app/evaluation/domain_e2e.py:526-587 | verdict and codes of the evaluation layer, by fields: refuted checks, an unavailable evaluation, a score below the minimum, an unknown check |
| `DomainEvaluationMeaning.TerminalDecided` | app/evaluation/domain_e2e.py:589-606 | verdict and codes of the terminal layer, by fields: a status that is not allowed, a publication although an earlier layer is open |
| `DomainEvaluationMeaning.ResourcesDecided` | app/evaluation/domain_e2e.py:608-644 | the resource layer fails iff some maximum is exceeded and is unknown iff a bounded quantity was not measured |
| `DomainEvaluationMeaning.SucceedsIff` | app/evaluation/domain_e2e.py:405-447 | a case succeeds iff, by the fields of requirements and observation alone, its applicable layers leave no gap and each of their demands is met |
| `DomainEvaluationMeaning.ResultMeans` | app/evaluation/domain_e2e.py:405-447 | every field of a case's result; its codes are those of the six layers, in order |
| `DomainEvaluationMeaning.RateIsNearest` | app/evaluation/domain_e2e.py:673-675 | a rate is the multiple of one millionth nearest to the exact quotient, the even one of two |
| `DomainEvaluationMeaning.RateOfNothing` | app/evaluation/domain_e2e.py:673-675 | the rate of no rows is zero |
| `DomainEvaluationMeaning.CountTrueCounts` | app/evaluation/domain_e2e.py:673-675 | the count behind a rate is the number of rows that hold |
| `BudgetLedger.GrantWithinLimits` | app/evaluation/glm53_domain_gate.py:656-715 | a granted request has 1 <= max_tokens <= min(output cap, both remaining budgets) |
| `BudgetLedger.ReserveSound` | app/evaluation/glm53_domain_gate.py:656-715 | a refusal keeps the budget invariant (totals are sums over cases, inner calls equal calls used, at most 12 and 4, stop code coherent), and so does a granted request once the provider was called |
| `BudgetLedger.SettleSound` | app/evaluation/glm53_domain_gate.py:717-737 | settling keeps the invariant although usage is added before it is checked |
| `BudgetLedger.ConcludeSound` | app/evaluation/glm53_domain_gate.py:621-654 | every reply of the inner provider keeps the invariant |
| `BudgetLedger.ChatSound` | app/evaluation/glm53_domain_gate.py:621-654 | a whole chat call keeps the invariant and makes at most one inner call |
| `BudgetLedger.AlwaysSound` | app/evaluation/glm53_domain_gate.py:509-744 | the invariant holds after any sequence of registrations, stops and chat calls of any wrappers |
| `BudgetLedger.StopIsFinal` | app/evaluation/glm53_domain_gate.py:555-569 | once set the stop code never changes and no inner call follows it |
| `BudgetMeaning.GrantedIff` | app/evaluation/glm53_domain_gate.py:656-684 | a call reaches the provider iff no stop is set, fewer than 12 and 4 calls were made, fewer than 12000 and 4000 tokens used and output is asked for; the first that fails decides the refusal and the stop, and nothing is counted |
| `BudgetMeaning.GrantSends` | app/evaluation/glm53_domain_gate.py:656-715 | the request that is sent: the caller's messages, tools, choice and iteration, the greatest output limit that fits, sampling and timeout of caller or profile; and exactly one call is counted |
| `BudgetMeaning.GrantedCallAnswers` | app/evaluation/glm53_domain_gate.py:621-654 | for every kind of reply to a granted call: what the caller gets, what is charged, which stop and code are recorded; foreign models and non-responses are blocked and charged nothing, failures are raised with their classification |
| `BudgetMeaning.OnlyOwnRepliesReturn` | app/evaluation/glm53_domain_gate.py:647-654 | whatever is returned is the reply itself, from provider zhipu and model glm-5.3-flash, within every limit |
| `BudgetMeaning.CodeKept` | app/evaluation/glm53_domain_gate.py:1318-1327 | an error code is recorded iff it consists of lower-case letters, digits and underscores with at least one letter, cut to 128 characters |
| `BudgetMeaning.FlashSends` | app/evaluation/glm53_domain_gate.py:685-715 | under the registered profile at most 2048 tokens, temperature 1.0, top_p 0.95 and at most 90 seconds |
| `BudgetMeaning.RegisterMeans` | app/evaluation/glm53_domain_gate.py:528-531 | a new case starts with a row of zeros after the others and changes nothing else |
| `BudgetMeaning.StopProviderMeans` | app/evaluation/glm53_domain_gate.py:555-565 | the first stop stays, a later one changes nothing that is set, and no use changes |
| `BudgetMeaning.StopGlobalMeans` | app/evaluation/glm53_domain_gate.py:567-569 | the same for the global stop |
| `BudgetObjects.BudgetState.constructor` | app/evaluation/glm53_domain_gate.py:509-522 | the empty ledger |
| `BudgetObjects.BudgetState.RegisterCase` | app/evaluation/glm53_domain_gate.py:528-531 | a new row for a new case, and a refusal for a registered one |
| `BudgetObjects.BudgetState.StopProvider` | app/evaluation/glm53_domain_gate.py:555-565 | the first provider stop and the first stop code are kept |
| `BudgetObjects.BudgetState.StopGlobal` | app/evaluation/glm53_domain_gate.py:567-569 | the first global stop and the first stop code are kept |
| `BudgetObjects.BudgetedProvider.Reserve` | app/evaluation/glm53_domain_gate.py:656-715 | the shared fields follow the ledger's reservation, or are stopped and refused |
| `BudgetObjects.BudgetedProvider.Charge` | app/evaluation/glm53_domain_gate.py:717-726 | totals and the case row grow together |
| `BudgetObjects.BudgetedProvider.Settle` | app/evaluation/glm53_domain_gate.py:717-737 | the shared fields follow the ledger's settlement |
| `BudgetObjects.BudgetedProvider.Conclude` | app/evaluation/glm53_domain_gate.py:625-654 | what the wrapper does with each kind of reply |
| `BudgetObjects.BudgetedProvider.Chat` | app/evaluation/glm53_domain_gate.py:621-654 | the wrapper over a shared mutable state does what the ledger says, and touches only its own case row |
| `DomainGateMethod.CaseSnapshot` | app/evaluation/glm53_domain_gate.py:533-542 | the snapshot of a case, or none where its bounded model raises |
| `DomainGateMethod.Execute` | app/evaluation/glm53_domain_gate.py:1089-1093 | any sequence of calls by an executor through any wrapper it was ever given follows the ledger |
| `DomainGateMethod.EvaluateOneCase` | app/evaluation/glm53_domain_gate.py:1260-1285 | evaluating a dataset of one case gives the case's evaluation |
| `DomainGateMethod.DecideFailure` | app/evaluation/glm53_domain_gate.py:1288-1301 | the failure of an executed case, read from the shared state |
| `DomainGateMethod.Equip` | app/evaluation/glm53_domain_gate.py:1080-1088 | a case gets its row in the shared budget and its wrapper |
| `DomainGateMethod.StartCase` | app/evaluation/glm53_domain_gate.py:1080-1093 | registration, wrapper and execution of a case |
| `DomainGateMethod.FinishCase` | app/evaluation/glm53_domain_gate.py:1094-1147 | the record of a case for every outcome of its executor |
| `DomainGateMethod.RecordObserved` | app/evaluation/glm53_domain_gate.py:1125-1147 | snapshot, evaluation, stop and record of an executed case, or the error that leaves the driver |
| `DomainGateMethod.HandleCase` | app/evaluation/glm53_domain_gate.py:1070-1147 | the body of the driver's loop |
| `DomainGateMethod.Snapshot` | app/evaluation/glm53_domain_gate.py:544-553 | the snapshot of the whole budget, or none where one of its models raises |
| `DomainGateMethod.AssembleResult` | app/evaluation/glm53_domain_gate.py:1164-1199 | the verdict and the result from the final state |
| `DomainGateMethod.Conclude` | app/evaluation/glm53_domain_gate.py:1149-1199 | the aggregate evaluation of a complete run, then the result |
| `DomainGateMethod.RunAllCases` | app/evaluation/glm53_domain_gate.py:1067-1147 | the loop over the dataset with one mutable budget shared by all wrappers follows the run of the cases |
| `DomainGateMethod.Run` | app/evaluation/glm53_domain_gate.py:1029-1199 | the driver with its mutable budget and lists returns what the gate's specification computes, so every theorem below is about this code |
| `DomainGateTheorems.ChatsSound` | app/evaluation/glm53_domain_gate.py:1089-1093 | any executor leaves the budget invariant intact |
| `DomainGateTheorems.StepCaseKeeps` | app/evaluation/glm53_domain_gate.py:1070-1147 | every case keeps the run invariant: sound budget, faithful records, clean prefix, at most one failing case, skipped rest |
| `DomainGateTheorems.RunCasesKeeps` | app/evaluation/glm53_domain_gate.py:1070-1147 | the invariant after any number of cases |
| `DomainGateTheorems.AggregateMatchesRecords` | app/evaluation/glm53_domain_gate.py:1149-1163 | the aggregate's case list equals the one-case evaluations recorded during the run |
| `DomainGateTheorems.AdmittedIff` | app/evaluation/glm53_domain_gate.py:1166-1181 | a returned result is admitted iff every record is executed without failure |
| `DomainGateTheorems.ReturnedResultValid` | app/evaluation/glm53_domain_gate.py:434-489 | for any provider and executor, a returned result satisfies every modelled clause of its own validator |
| `DomainGateTheorems.RecordsShaped` | app/evaluation/glm53_domain_gate.py:1070-1147 | records are clean executed cases, then at most one failing case, then skipped cases with the first stop code |
| `DomainGateTheorems.GateRaisesIff` | app/evaluation/glm53_domain_gate.py:1125-1199 | the driver raises exactly when an executed case used more tokens than its snapshot allows or claims more responses than calls, or the final totals exceed a token limit, or the recorded error code cannot be shown |
| `DomainGateTheorems.RecordedCodeShowableIff` | app/evaluation/glm53_domain_gate.py:1318-1327 | a code that is recorded meets the pattern of the control snapshot (line 157) iff it starts with a letter |
| `DomainGateTheorems.DigitCodeRaises` | app/evaluation/glm53_domain_gate.py:1318-1327 | a first case ending in the error code 429_limited makes the driver raise, for every dataset |
| `DomainGateTheorems.RunCasesInduction` | app/evaluation/glm53_domain_gate.py:1070-1147 | what every case keeps holds for as long as the run goes on |
| `DomainGateTheorems.RaiseIsFinal` | app/evaluation/glm53_domain_gate.py:1070-1147 | once a case made the driver raise no later case runs |
| `DomainGateReturns.ChatModest` | app/evaluation/glm53_domain_gate.py:621-654 | with replies of at most 1000 tokens, a chat call keeps case and domain tokens at no more than 1000 per call made |
| `DomainGateReturns.ModestRunReturns` | app/evaluation/glm53_domain_gate.py:1029-1199 | if no reply uses more than 1000 tokens, recorded error codes start with a letter and executors claim no more responses than calls, the gate returns |
| `DomainGateReturns.PlainRunReturns` | app/evaluation/glm53_domain_gate.py:1029-1199 | the same from provider and executors alone, for up to three cases of up to four calls |
| `DomainGateReturns.OneTokenMoreRaises` | app/evaluation/glm53_domain_gate.py:717-737 | four replies of 1001 tokens make the driver raise, so 1000 is the best such bound |
| `DomainGateReturns.OvershootRaises` | app/evaluation/glm53_domain_gate.py:1125-1147 | a first reply of more than 4000 tokens whose error the executor swallows makes the driver raise |
| `DomainGateReturns.OverclaimRaises` | app/evaluation/glm53_domain_gate.py:1125-1147 | an executor that made no call and claims a response makes the driver raise |
| `DomainGateTheorems.StoppedRunSkips` | app/evaluation/glm53_domain_gate.py:1071-1079 | after a stop no case runs and the budget stays as it is |
| `DomainGateTheorems.OvershootStops` | app/evaluation/glm53_domain_gate.py:717-744 | a case that overshoots a snapshot bound has already set the stop code |
| `DomainGateReports.RecordsReport` | app/evaluation/glm53_domain_gate.py:1070-1147 | every record of a returned result: skipped with the stop code, failed with the classification of its executor's failure, or executed with every reported field under its own name, the use of its row when it closed, and the first reason in order as failure |
| `DomainGateReports.ExecutedReport` | app/evaluation/glm53_domain_gate.py:1229-1257 | an executed case's executor returned an observation, and the record shows each of its fields |
| `DomainGateReports.RecordedResources` | app/evaluation/glm53_domain_gate.py:1125-1147 | recorded calls, tokens and latency never exceed those of the case in the final resources; they equal them iff the calls agree, and do whenever no later executor calls through this case's wrapper |
| `DomainGateReports.BorrowedCallUnrecorded` | app/evaluation/glm53_domain_gate.py:1080-1147 | they can differ: an executor that calls through an earlier case's wrapper makes the gate return a record with no call and a row with one |
| `DomainGateReports.CaseHalts` | app/evaluation/glm53_domain_gate.py:1094-1138 | which stop each record sets: none, a global one for an unsafe publication, otherwise a provider stop with the recordable part of its error code; what was set before stays |
| `DomainGateReports.ResultAggregates` | app/evaluation/glm53_domain_gate.py:1149-1163 | a candidate exists iff all cases were executed; it is the recorded observations in order under the identity of dataset and experiment, and the evaluation is the recorded ones with their rates |
| `RateLimiter.InMemoryRateLimiter.constructor` | app/api/security.py:45-57 | positive limit and window, no buckets |
| `RateLimiter.InMemoryRateLimiter.Allow` | app/api/security.py:59-68 | the verdict and the buckets are those of the whole history of calls |
| `RateLimiter.BucketCounts` | app/api/security.py:59-68 | a stored bucket is the opening reading of the key's current window and the number allowed since it, between 1 and limit |
| `RateLimiter.DeniedIff` | app/api/security.py:59-68 | a request is denied iff the window is still open and exactly limit requests were allowed in it |
| `RateLimiter.WindowBound` | app/api/security.py:59-68 | each started window lets through at most limit requests |
| `RateLimiter.SlidingBound` | app/api/security.py:59-68 | any interval shorter than one window lets through at most 2 * limit - 1 requests of a key |
| `RateLimiter.SlidingBoundReached` | app/api/security.py:59-68 | for every policy whose window is at least two ticks some history reaches that bound |
| `RateLimiter.SameReadingBound` | app/api/security.py:59-68 | requests at one and the same reading, the whole of an interval shorter than a window of one tick, let through at most limit |
| `RateLimiter.ClosedBound` | app/api/security.py:59-68 | readings at most one whole window apart let through at most 2 * limit requests of a key |
| `RateLimiter.ClosedBoundReached` | app/api/security.py:59-68 | for every policy some history reaches that bound |
| `RateLimiter.FullWindowLater` | app/api/security.py:62-63 | a request one full window after the start is allowed and opens the next window |
| `RateLimiter.DenialsLeaveNoTrace` | app/api/security.py:64-66 | dropping the denied requests from a history changes no bucket and no later verdict, so denials never extend a window |
| `RateLimiter.KeysDoNotInterfere` | app/api/security.py:59-68 | a key's verdicts depend on its own requests only |
| `RateLimiter.ModestClientNeverDenied` | app/api/security.py:59-68 | a client with at most limit requests in any stretch shorter than a window is never denied |
| `RequestBody.LimitedReceiver.constructor` | app/api/security.py:150 | nothing received yet |
| `RequestBody.LimitedReceiver.Receive` | app/api/security.py:152-159 | the running total decides as the cumulative size of everything received says |
| `RequestBody.DeliveredIsBounded` | app/api/security.py:150-159 | the application never receives more body than the maximum, and receives all of it when all of it fits |
| `RequestBody.RefusalIsFinal` | app/api/security.py:152-159 | after a refusal every later body message is refused, even if the application goes on receiving |
| `CursorPaging.AcceptedIff` | app/conversations/service.py:272-294 | the service returns a page iff the reply is in scope, visible, strictly ordered, within the limit and full if more is claimed; the page passes its own validator |
| `CursorPaging.PageShowsReply` | app/conversations/service.py:280-292 | a page shows id, conversation, sequence and content of each message in its place, the caller's limit and cursor, and the last sequence number as next cursor iff more is claimed |
| `CursorPaging.ErrorMeans` | app/conversations/service.py:248-294 | which of the three errors a call ends in, exactly |
| `CursorPaging.WalkAscends` | app/conversations/models.py:380-395 | for any repository behaviour, sequence numbers ascend strictly over a whole walk, all pages but the last are full, and the cursor advances by at least limit per page |
| `CursorPaging.CursorDropsPrefix` | app/persistence/conversation_repository.py:304-318 | asking the repository from the cursor of the m-th message yields exactly the messages after it |
| `CursorPaging.CandidatesAreAsked` | app/persistence/conversation_repository.py:312-324 | the query reads exactly the visible messages of owner and conversation past the cursor, in the order of the table |
| `CursorPaging.QueryAccepted` | app/conversations/service.py:256-294 | every page of the repository's own query passes the defensive service |
| `CursorPaging.HonestWalk` | app/conversations/service.py:240-294 | while messages are appended between calls, a walk never fails, skips or repeats, and when it ends it has delivered the whole history as of its last call |
| `CursorPaging.WalkSkipsNothing` | app/conversations/service.py:240-294 | while messages are appended and hidden between calls, a walk never fails, and a message visible at every call is delivered or still ahead of the cursor; an ended walk has delivered it |
| `CursorPaging.WalkIsComplete` | app/conversations/service.py:240-294 | over a history that stands still the walk ends within one call per limit messages and delivers all of it |
| `SessionStore.InMemoryAuthSessionStore.constructor` | app/auth/session.py:111-113 | no sessions |
| `SessionStore.InMemoryAuthSessionStore.IssueSession` | app/auth/session.py:115-141 | errors for a bad owner or lifetime, otherwise a stored session and its values |
| `SessionStore.InMemoryAuthSessionStore.FindActive` | app/auth/session.py:143-153 | the checks of `_active` in order |
| `SessionStore.InMemoryAuthSessionStore.Resolve` | app/auth/session.py:155-157 | the owner, or the first failing check, as the history of calls says |
| `SessionStore.InMemoryAuthSessionStore.VerifyCsrf` | app/auth/session.py:159-169 | whether the token is the issued one, as the history of calls says |
| `SessionStore.InMemoryAuthSessionStore.RevokeSession` | app/auth/session.py:171-181 | only the live session's record gets a revocation time |
| `SessionStore.KeyIsRecordDigest` | app/auth/session.py:115-181 | every key of the dictionary is the cookie digest of the record it holds |
| `SessionStore.IssueErrorMeans` | app/auth/session.py:122-125 | an owner that is empty or differs from its stripped form, then a lifetime that is not positive or above one day, and nothing else is refused |
| `SessionStore.WellFormedMeans` | app/auth/session.py:144-145 | a value is looked up iff it is not empty and has no line break, semicolon or equals sign |
| `SessionStore.OtherCookieUntouched` | app/auth/session.py:115-181 | a call with one cookie leaves every other cookie's record alone |
| `SessionStore.HistoryMeans` | app/auth/session.py:115-181 | the record of a cookie is that of its last successful issue, revoked iff a revocation followed before expiry |
| `SessionStore.ResolvesIff` | app/auth/session.py:143-157 | a cookie resolves iff it was issued, not revoked since, not expired and its owner is a valid actor, always to the owner it was issued for; otherwise with the exact error |
| `SessionStore.VerifiesIff` | app/auth/session.py:159-169 | a token verifies iff the cookie stands and the token is the one issued with it |
| `SessionStore.IssuedButNeverResolved` | app/auth/session.py:115-157 | once issued for an owner the actor context (app/api/actor.py:19-22) rejects, a cookie resolves at no reading and after no further calls unless it is issued again |
| `SessionStore.RejectedOwnerIsIssued` | app/auth/session.py:115-124 | the store accepts such owners |
| `SessionStore.OnceGoneForGood` | app/auth/session.py:143-181 | a cookie that failed to resolve never resolves later unless it is issued again, and a revoked one stays revoked |
| `SessionStore.OthersDoNotMatter` | app/auth/session.py:115-181 | calls with other cookies never change how a cookie stands |
| `SessionStore.RevokeTakesEffect` | app/auth/session.py:171-181 | revoking a live cookie makes it revoked at every later reading |
| `SessionStore.RevokeRecords` | app/auth/session.py:171-181 | revoking sets the revocation time of a standing cookie's record and changes nothing else; otherwise it changes nothing |

## Left out

- Observers: an observer that raises, and what it does with a signal; the model records the signals sent.
- Exceptions of a provider that are not its declared error type, and a tool runtime that does not return.
- Request metadata other than the iteration number, latencies in tool signals, structured-response contracts and runtime-profile metadata.
- JSON canonicalisation: the reader only serves to read rendered texts back; tool arguments and tool data are represented by their canonical JSON text, so equal texts mean equal arguments.
- Floating point: 1.15 is the exact rational 23/20, rates are exact integers in millionths with ties to even, times are reals in the loop and integers elsewhere.
- Section contents: prompt texts, projections of match data and the report-line filter are texts given from outside; the checks that raise while they are produced are not modelled.
- Normalisation of run ids and skill names, which only strips or rejects.
- The knowledge evidence builder in the draft step is an arbitrary function of the collected payloads.
- Case executors are finite scripts of chat calls through the wrappers they were given, followed by any outcome; an executor that reacts to replies makes, against a given provider, the calls of one such script, and the theorems hold for all scripts.
- The identity checks before the gate's loop (provider, profile, dataset digest, case order, execution plan), commit identity, digests, A/B binding, output reservation and the command line; of the admission the model has what the result copies from it.
- DomainGateTheorems.ReturnedResultValid: states that the records follow the order of the dataset's cases, where the validator compares with the admission's plan, because the check that the two orders agree precedes the loop and is not modelled; the timestamp has no clause.
- `_classify_error` and its table: the classification of a provider error is an arbitrary function.
- Headers, content-length and the asynchronous plumbing of the request middleware.
- Conversation creation, appending, archiving and hiding; message roles, digests and source references are not part of a message here.
- Cookie policy and the composition of the session boundary; random values are parameters and the digest is any injective function.
- PostgreSQL repositories other than the message query, workers, the review harness, retrieval and the HTTP layer.
