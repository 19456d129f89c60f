# smartestiroid core, modelled in Dafny

smartestiroid drives Android app tests with language-model agents. A
planner turns the test's goal into user objectives and execution plans. An
executor performs one plan step at a time through Appium tools. A replanner
decides whether to continue or to finish with a PASS/FAIL response. This
project models the bookkeeping around those agents and proves properties of
it. The language-model answers themselves are inputs to the model.

The modules follow the source files:

| file | module | source |
|---|---|---|
| `progress.dfy` | `Progress` | `progress.py`: objective ledger (`ObjectiveProgress`, a class over a sequence of step values) and execution records (`ExecutionProgress`, `StepExecutionRecord`, classes) |
| `workflow.dfy` | `Workflow` | `workflow.py`: the closure state of `create_workflow_functions` as the class `RunDriver`, the node functions `execute_step`, `plan_step`, `replan_step`, the router `should_end`, and the plan → agent → replan graph as `RunTest` |
| `replanner.dfy` | `Replanner` | `agents/multi_stage_replanner.py`: the local arithmetic and normalisation around the replanner's model calls, plus the planner's fallback in `agents/simple_planner.py` |
| `allure_logger.dfy` | `AllureLogger` | `utils/allure_logger.py`: the tool-call recorder `AllureToolCallbackHandler` as the class `ToolCallRecorder` |
| `xml_compressor.dfy` | `XmlCompressor` | `appium_tools/xml_compressor.py`: attribute pruning and removal of redundant containers on an element tree |
| `token_counter.dfy` | `TokenCounter` | `appium_tools/token_counter.py`: the pricing-key classifier of model names, the per-session counter `TiktokenCountCallback` and the shared global history |
| `failure_report.dfy` | `FailureReport` | `utils/failure_report_generator.py`: loading the JSONL log, extracting failed tests, the fallback analysis and the report's display rules |
| `log_analyzer.dfy` | `LogAnalyzer` | `utils/log_analyzer.py`: log entries, the statistics pass `_analyze` and the export truncations |
| `models.dfy` | `Models` | result markers, the planner's act and the past-step pairs |
| `json.dfy`, `text.dfy`, `wrappers.dfy` | `JsonValues`, `Text`, `Wrappers` | decoded JSON values, the Python string operations used (`in`, `lower`, `upper`, `strip`, `replace`, slicing), and `Option`/`Result` |

Exceptions of the source become `Failure` results or `Raised` outcomes;
that includes the NameError `plan_step` raises by accident when every
objective is already achieved (see "## Findings").
Clock readings become integer parameters `now`. Every language-model call,
and every screen capture made inside a `try`, is a given `Outcome`: either a
returned value or a raised exception message. The tool callbacks the executor
agent triggers are a given sequence of tool events, replayed on the recorder.

## Model

| member | source | states |
|---|---|---|
| Progress.ObjectiveStep.RemainingPlan | src/smartestiroid/progress.py:212-214 | the remaining plan is the suffix after the plan cursor, and it is empty exactly when the cursor is at or past the end |
| Progress.ObjectivesOnly | src/smartestiroid/progress.py:290-292 | only objective-type steps are kept, and there are no more of them than steps |
| Progress.CountCompletedBounds | src/smartestiroid/progress.py:294-297 | the completed count never exceeds the list, and it equals the list length exactly when every step is completed |
| Progress.CompletedAtMostTotal | src/smartestiroid/progress.py:294-301 | the completed objective count never exceeds the total objective count |
| Progress.AllCompletedIffCounts | src/smartestiroid/progress.py:402-405 | all objectives are completed exactly when the total is non-zero and the completed count reaches it, so an empty ledger is never complete |
| Progress.PyInsert | src/smartestiroid/progress.py:330 | like Python's `list.insert`, the element goes at the position, or at the end when the position is past the end; the length grows by one |
| Progress.InsertRecoveryShape | src/smartestiroid/progress.py:317-335 | the recovery step lands right after the cursor, earlier steps are untouched, and later steps move up one place with only their index changed |
| Progress.InsertRecoveryKeepsIndices | src/smartestiroid/progress.py:330-334 | if every step's index is its position before the insertion, the same holds afterwards |
| Progress.InsertIntoEmptyBreaksIndices | src/smartestiroid/progress.py:317-334 | into an empty list the step is appended at position 0 with index 1, so the index invariant fails there |
| Progress.InsertRecoveryKeepsCounts | src/smartestiroid/progress.py:294-301 | inserting a recovery step changes neither objective count nor the all-completed test |
| Progress.FirstUnfinishedFrom | src/smartestiroid/progress.py:383-389 | the result is the first pending or in-progress objective at or after the start, or None when there is none |
| Progress.AllCompletedHasNoUnfinished | src/smartestiroid/progress.py:376-389 | with every objective completed, the scan for the next objective finds nothing |
| Progress.ObjectiveProgress.CurrentStep | src/smartestiroid/progress.py:284-288 | the current step exists exactly when the cursor is inside the list, and it is the step under the cursor |
| Progress.ObjectiveProgress.InsertRecoveryStep | src/smartestiroid/progress.py:303-335 | returns cursor+1; the new list is the insertion followed by re-numbering; plan cursors stay in bounds; the index invariant is kept |
| Progress.ObjectiveProgress.AdvanceToNextStep | src/smartestiroid/progress.py:337-347 | moves exactly when a next step exists and makes that step in progress; otherwise nothing changes |
| Progress.ObjectiveProgress.ReturnToParentObjective | src/smartestiroid/progress.py:349-363 | succeeds exactly for a current recovery step whose parent index lies inside the list; the parent is reopened and becomes current; otherwise nothing changes |
| Progress.ObjectiveProgress.MarkCurrentCompleted | src/smartestiroid/progress.py:365-374 | only the current step changes: completed, with the evidence; nothing happens without a current step |
| Progress.ObjectiveProgress.MarkCurrentFailed | src/smartestiroid/progress.py:391-400 | only the current step changes: failed, with the reason as evidence |
| Progress.ObjectiveProgress.AdvanceToNextObjective | src/smartestiroid/progress.py:376-389 | scans from position 0, not from the cursor; finds exactly the first unfinished objective, makes it in progress and current; without one nothing changes |
| Progress.ObjectiveProgress.SetCurrentExecutionPlan | src/smartestiroid/progress.py:500-509 | the current step gets the plan and its plan cursor goes back to 0; plan cursors stay in bounds |
| Progress.ObjectiveProgress.AdvanceCurrentExecutionPlan | src/smartestiroid/progress.py:511-520 | the plan cursor moves by one exactly when it is before the end; it never passes the end |
| Progress.ObjectiveProgress.CurrentRemainingPlan | src/smartestiroid/progress.py:522-527 | empty without a current step, otherwise the current step's remaining plan |
| Progress.ObjectiveProgress.EnterDialogHandlingMode | src/smartestiroid/progress.py:537-545 | only the current step's dialog flag is set, so a second call changes nothing; the plan cursor is untouched |
| Progress.ObjectiveProgress.ExitDialogHandlingMode | src/smartestiroid/progress.py:547-555 | only the dialog flag is cleared; the dialog count is kept |
| Progress.ObjectiveProgress.IncrementDialogHandlingCount | src/smartestiroid/progress.py:564-571 | the dialog count grows by one and the plan cursor does not move |
| Progress.CountCompletedRecords | src/smartestiroid/progress.py:73-75 | the completed record count never exceeds the number of records |
| Progress.RecordCountsConcat | src/smartestiroid/progress.py:73-79 | the completed count and the tool-call total of joined record lists are the sums of the counts and totals of the parts |
| Progress.RecordCountsOne | src/smartestiroid/progress.py:73-79 | a single record is counted as completed exactly when its status is completed, and contributes exactly its own tool calls |
| Replanner.RemainingStepCount | src/smartestiroid/agents/multi_stage_replanner.py:257 | the count is never negative; it is the plan length minus the past steps when the past is shorter, else 0 |
| Replanner.RemainingPlan | src/smartestiroid/agents/multi_stage_replanner.py:374 | the remaining plan is the suffix after the executed steps, empty once they cover the plan |
| Replanner.RemainingCountIsSliceLength | src/smartestiroid/agents/multi_stage_replanner.py:374-377 | the clamped count equals the length of the remaining plan |
| Replanner.IsLastObjectiveMeaning | src/smartestiroid/agents/multi_stage_replanner.py:262-270 | the current objective is the last one exactly when it is achieved and at most one objective is still open |
| Replanner.NormalizeDecision | src/smartestiroid/agents/multi_stage_replanner.py:345-347 | the decision is RESPONSE exactly when the stripped, upper-cased word is RESPONSE; anything else is PLAN |
| Replanner.DecideAction | src/smartestiroid/agents/multi_stage_replanner.py:338-353 | a failed call gives PLAN with the fallback reason; a RESPONSE decision only comes from a successful call saying RESPONSE; the reason is stripped |
| Replanner.NormalizeDecisionName | src/smartestiroid/agents/multi_stage_replanner.py:345-348 | normalising the name of a decision gives that decision back |
| Replanner.RemainingObjectives | src/smartestiroid/agents/multi_stage_replanner.py:389-391 | the remaining steps are exactly the steps neither completed nor skipped |
| Replanner.RemainingObjectivesOne | src/smartestiroid/agents/multi_stage_replanner.py:389-391 | a single step remains exactly when it is neither completed nor skipped |
| Replanner.RemainingObjectivesConcat | src/smartestiroid/agents/multi_stage_replanner.py:389-391 | filtering a joined ledger gives the joined filtered parts, so the remaining steps keep their order and multiplicity |
| Replanner.RemainingAfterAllCompleted | src/smartestiroid/agents/multi_stage_replanner.py:389-391 | once every objective is completed, only recovery steps can remain |
| Replanner.LocatorSection | src/smartestiroid/agents/multi_stage_replanner.py:416-422 | the locator section is non-empty exactly when the locator is non-empty and a blocking dialog was reported, and it then starts with the section header and contains the locator |
| Replanner.PlannerFallback | src/smartestiroid/agents/simple_planner.py:187-199 | a plan of the unexecuted steps exactly when some remain, and then it is the suffix of the plan; otherwise a PASS response with the abort text |
| AllureLogger.StartedCall | src/smartestiroid/utils/allure_logger.py:125-138 | a started call has no end time, output or error |
| AllureLogger.AllCallLinesLayout | src/smartestiroid/utils/allure_logger.py:99-123 | the summary has three lines per call, the k-th call's lines at positions 3k to 3k+2 |
| AllureLogger.SummaryHeaderReportsError | src/smartestiroid/utils/allure_logger.py:106-112 | the header line of the k-th call is numbered k+1 and says ERROR exactly when that call has an error |
| AllureLogger.ToolCallRecorder.SetExecutionProgress | src/smartestiroid/utils/allure_logger.py:34-36 | only the execution progress is attached |
| AllureLogger.ToolCallRecorder.SetObjectiveProgress | src/smartestiroid/utils/allure_logger.py:38-40 | only the objective progress is attached |
| AllureLogger.ToolCallRecorder.StartStep | src/smartestiroid/utils/allure_logger.py:42-56 | a fresh in-progress record becomes current; with execution progress attached it is appended there and the progress cursor is set |
| AllureLogger.ToolCallRecorder.CompleteStep | src/smartestiroid/utils/allure_logger.py:58-64 | the current record is closed as completed or failed with the response and then forgotten; nothing happens without one |
| AllureLogger.ToolCallRecorder.LastToolName | src/smartestiroid/utils/allure_logger.py:89-97 | None exactly for an empty call list, otherwise the last call's name |
| AllureLogger.ToolCallRecorder.GetSummary | src/smartestiroid/utils/allure_logger.py:99-123 | the summary is the fixed text for no calls, otherwise the numbered lines of every call in order |
| AllureLogger.ToolCallRecorder.ProgressSummaryLines | src/smartestiroid/utils/allure_logger.py:66-87 | no lines exactly when nothing is attached; the objective summary comes first; the tool-call total comes last |
| AllureLogger.ToolCallRecorder.OnToolStart | src/smartestiroid/utils/allure_logger.py:125-153 | exactly one open call is appended, and one to the active step's record when there is one |
| AllureLogger.ToolCallRecorder.OnToolEnd | src/smartestiroid/utils/allure_logger.py:155-171 | only the last call of each list gets its end time and output; empty lists stay empty |
| AllureLogger.ToolCallRecorder.OnToolError | src/smartestiroid/utils/allure_logger.py:173-188 | only the last call of each list gets its end time and error; empty lists stay empty |
| AllureLogger.ToolCallRecorder.ReplayEvents | src/smartestiroid/utils/allure_logger.py:125-188 | the callbacks, applied in order, leave the call list and the active record's calls equal to the replay of the events; the record's status, response and step and the attached progress objects are untouched |
| AllureLogger.ReplayLength | src/smartestiroid/utils/allure_logger.py:125-188 | replaying events adds exactly one call per tool start, and end or error events never add or remove one |
| AllureLogger.ReplayAppends | src/smartestiroid/utils/allure_logger.py:125-188 | calls recorded before a step are never changed by the step's events, as long as the step's first event is a tool start or the step already holds a call |
| AllureLogger.ToolCallRecorder.Clear | src/smartestiroid/utils/allure_logger.py:211-215 | the call list is emptied; the progress objects and the current record stay |
| AllureLogger.ToolCallRecorder.ResetProgress | src/smartestiroid/utils/allure_logger.py:217-222 | the call list, both progress objects and the current record are cleared |
| XmlCompressor.PruneAttributes | src/smartestiroid/appium_tools/xml_compressor.py:205-230 | an attribute survives exactly when the pruning rules keep it, and survivors keep their value |
| XmlCompressor.CompressKeepsShape | src/smartestiroid/appium_tools/xml_compressor.py:195-234 | pruning never adds, removes or moves an element anywhere in the tree |
| XmlCompressor.UnknownAttributesKept | src/smartestiroid/appium_tools/xml_compressor.py:205-230 | an attribute on none of the lists is kept with its value |
| XmlCompressor.ValueRules | src/smartestiroid/appium_tools/xml_compressor.py:213-230 | operation flags are dropped when "false" and kept when "true"; `enabled` is dropped when "true" and kept when "false"; empty labels and false states are dropped; listed attributes always go |
| XmlCompressor.RotationNeverDeleted | src/smartestiroid/appium_tools/xml_compressor.py:205-211 | `rotation` is kept on every element, so the root-only exception never applies |
| XmlCompressor.PassNode | src/smartestiroid/appium_tools/xml_compressor.py:256-285 | a pass keeps the node's tag and attributes; a pass that reports a removal makes the tree smaller; one that does not leaves it as it was |
| XmlCompressor.PassChildren | src/smartestiroid/appium_tools/xml_compressor.py:256-285 | the children keep their number; a reported removal makes them smaller; otherwise they are unchanged |
| XmlCompressor.PassChildrenSlots | src/smartestiroid/appium_tools/xml_compressor.py:277-281 | each slot holds the processed child, or that child's only child when the child was removable, so sibling order is kept |
| XmlCompressor.RemovableHasNoLabels | src/smartestiroid/appium_tools/xml_compressor.py:288-328 | a removable container carries no label of its own |
| XmlCompressor.PassKeepsLabels | src/smartestiroid/appium_tools/xml_compressor.py:256-285 | a pass never loses, adds or reorders a text or content-desc value |
| XmlCompressor.RemoveRedundantContainers | src/smartestiroid/appium_tools/xml_compressor.py:237-253 | the loop ends at a fixed point of the pass, with no more elements than before, the same labels and the same root |
| XmlCompressor.CompressXml | src/smartestiroid/appium_tools/xml_compressor.py:164-192 | a parse error gives the input back unchanged; otherwise the tree is a fixed point of the pass, keeps the labels of the pruned input and is no larger |
| TokenCounter.FirstMatch | src/smartestiroid/appium_tools/token_counter.py:233-304 | "default" exactly when no pattern occurs, otherwise the first pattern in order that occurs |
| Text.StripEmptyIffBlank | src/smartestiroid/utils/failure_report_generator.py:164-165 | a line strips to nothing exactly when every character is whitespace, which is how a blank log line is recognised |
| TokenCounter.NormalizeGivesPricingKey | src/smartestiroid/appium_tools/token_counter.py:222-304 | every classified name is a key of the pricing table |
| TokenCounter.FirstMatchNoLaterThan | src/smartestiroid/appium_tools/token_counter.py:233-301 | a name containing a pattern is classified by that pattern or by one tried before it |
| TokenCounter.ProNameNotPlainGpt5 | src/smartestiroid/appium_tools/token_counter.py:226-245 | a name containing gpt-5-pro is never priced as plain gpt-5 |
| TokenCounter.DeepResearchNotPlainO4Mini | src/smartestiroid/appium_tools/token_counter.py:256-259 | a name containing o4-mini-deep-research is never priced as o4-mini |
| TokenCounter.Gpt4oNotPlainGpt4 | src/smartestiroid/appium_tools/token_counter.py:276-295 | a name containing gpt-4o is never priced as gpt-4 |
| TokenCounter.SumTotalSplits | src/smartestiroid/appium_tools/token_counter.py:543-554 | over records whose total is input plus output, the summed totals are the summed inputs plus outputs |
| TokenCounter.Summarize | src/smartestiroid/appium_tools/token_counter.py:524-558 | the summary counts every record, its total is input plus output, and an empty history gives zeros |
| TokenCounter.SummarizeSessions | src/smartestiroid/appium_tools/token_counter.py:778-812 | the global summary counts every session and its total is input plus output |
| TokenCounter.SaveAddsToGlobalSummary | src/smartestiroid/appium_tools/token_counter.py:778-812 | saving one more session adds exactly its counts to every global total |
| TokenCounter.SessionLabel | src/smartestiroid/appium_tools/token_counter.py:752 | a given non-empty label is used; otherwise "Session n" numbered after the saved sessions |
| TokenCounter.TokenCountCallback.TotalTokensIsHistoryTotal | src/smartestiroid/appium_tools/token_counter.py:423-425 | with valid counters, input plus output tokens equals the summed totals of the history |
| TokenCounter.TokenCountCallback.OnLlmStart | src/smartestiroid/appium_tools/token_counter.py:340-343 | the invocation id grows by one and nothing else changes |
| TokenCounter.TokenCountCallback.OnLlmEnd | src/smartestiroid/appium_tools/token_counter.py:349-395 | a missing llm_output or token_usage, or a `prompt_tokens_details` or prompt count of None, is an error that changes nothing; a cached or completion count of None is an error raised after the earlier counters grew, with no record appended; otherwise the three counts are added and one record with the current id is appended, keeping the counters equal to the history's sums |
| TokenCounter.TokenCountCallback.ResetCounters | src/smartestiroid/appium_tools/token_counter.py:476-487 | the counters, history and id go back to zero; the global history is another object and is not touched |
| TokenCounter.TokenCountCallback.GetInvocationById | src/smartestiroid/appium_tools/token_counter.py:498-511 | None exactly when no record has the id, otherwise the first record that has it |
| TokenCounter.TokenCountCallback.LatestInvocation | src/smartestiroid/appium_tools/token_counter.py:513-522 | None exactly for an empty history, otherwise the last record |
| TokenCounter.TokenCountCallback.GetInvocationsSummary | src/smartestiroid/appium_tools/token_counter.py:524-558 | with valid counters and a non-empty history, the summary's totals are the counters |
| TokenCounter.TokenCountCallback.SaveSessionToGlobal | src/smartestiroid/appium_tools/token_counter.py:741-765 | nothing is saved for an empty history; otherwise exactly one labelled session record with the session's totals and history is appended |
| TokenCounter.GlobalHistory.Reset | src/smartestiroid/appium_tools/token_counter.py:878-885 | the global history is emptied |
| Workflow.ShouldEnd | src/smartestiroid/workflow.py:768-775 | the route is END exactly when the state holds a non-empty response, and "agent" otherwise |
| Workflow.BudgetExhaustedResponse | src/smartestiroid/workflow.py:542-575 | the budget-exhausted response is non-empty and contains RESULT_FAIL |
| Workflow.ReplanErrorResponse | src/smartestiroid/workflow.py:754-766 | the error response is non-empty and starts with the error prefix |
| Workflow.ReplaceLeavesNoPass | src/smartestiroid/workflow.py:648 | replacing RESULT_PASS by RESULT_FAIL leaves no RESULT_PASS behind |
| Workflow.NoPassAcrossNewline | src/smartestiroid/workflow.py:648-649 | appending a note that starts with a newline and has no RESULT_PASS creates none at the seam |
| Workflow.NoteHasNoPass | src/smartestiroid/workflow.py:649 | the correction note contains no RESULT_PASS |
| Workflow.SafeguardedResponse | src/smartestiroid/workflow.py:634-649 | a PASS with objectives left becomes a text with no RESULT_PASS that ends with the note; otherwise the text is reason, blank line, status |
| Workflow.ResponseBranch | src/smartestiroid/workflow.py:634-719 | with objectives left, a PASS skips the evaluator and gets the failure analysis; a result without RESULT_PASS always went through the analysis |
| Workflow.SafeguardSkipsEvaluator | src/smartestiroid/workflow.py:637-664 | with objectives left, the outcome of a PASS is the same whatever the evaluator would answer |
| Workflow.FallbackPassIsCorrected | src/smartestiroid/workflow.py:637-649 | the planner's fallback PASS, given when no plan steps remain, is turned into a failure text while objectives remain |
| Workflow.AllDoneBranchIff | src/smartestiroid/workflow.py:420-437 | the all-done branch is reached exactly when no step after the achieved first one is an unfinished objective |
| Workflow.IntendedAllDoneState | src/smartestiroid/workflow.py:435-438 | the evidently intended all-done result: the plan is the single step "全目標達成済み", the count is 0, and the route still leads to the agent |
| Workflow.MarkAchieved | src/smartestiroid/workflow.py:420-424 | the first step becomes completed with the pre-evaluation result and no other step changes |
| Workflow.RunDriver.ExecuteStep | src/smartestiroid/workflow.py:178-360 | an empty plan gives the single system-skip step and touches nothing; otherwise one record is opened at position len(past_steps), receives the tool calls the agent's callbacks report, and is closed with the agent's answer, and the history grows by one entry; when the agent raises, the tool calls it made stay recorded and the step fails |
| Workflow.RunDriver.PlanStep | src/smartestiroid/workflow.py:362-493 | succeeds exactly when every call up to the execution planner returns and, for an achieved first objective, a next one exists; a raised screen capture or parser fails before the ledger is touched; once parsed the ledger is installed with its first step in progress, and each later failure (analysis, pre-evaluation, next analysis, planner, the NameError of the unimported `Plan`, the missing step of an empty ledger) fails with its message and leaves the ledger as written so far; on success the current objective holds the new plan, a fresh execution progress starts and the count is reset to 0 |
| Workflow.StepRecordCounts | src/smartestiroid/progress.py:73-79 | the record `execute_step` appends adds one to the completed count exactly when the agent returned, and adds one tool call per tool the agent started |
| Workflow.RunDriver.StartPlan | src/smartestiroid/workflow.py:470-483 | the screen is cached, the history is emptied and a fresh execution progress is attached |
| Workflow.RunDriver.ReplanStep | src/smartestiroid/workflow.py:495-766 | every exit answers the incoming count plus one; a spent budget gives the RESULT_FAIL text without the planner; an exception gives the error response; once the planner is consulted the ledger's steps and cursor are the ones `replan` left, whether it returned or raised, and otherwise they stay; the ledger's input, the execution records and the original plan never change; only a plan act moves the execution cursor, to the count of completed records |
| Workflow.RunDriver.RunRound | src/smartestiroid/conftest.py:634-635 | one agent → replan round keeps the recorder wired to the driver's progress objects, counts one more replan, and once the budget was already spent ends the run on a response containing RESULT_FAIL |
| Workflow.RunTest | src/smartestiroid/conftest.py:632-635 | whatever the model outcomes and tool events, the planner is consulted at most max_replan_count+1 times; a finished run ends on a non-empty response carrying its replan count, which contains RESULT_FAIL when the budget was spent; a run cut short by the given rounds stops on the agent route within the budget |
| FailureReport.LoadFailsIff | src/smartestiroid/utils/failure_report_generator.py:160-171 | loading fails exactly when some line decodes to a value that is not an object |
| FailureReport.LoadedEntriesNumbered | src/smartestiroid/utils/failure_report_generator.py:162-168 | entries keep file order, and each carries the 1-based number of the kept line it came from and that line's object |
| FailureReport.LoadedEntriesComplete | src/smartestiroid/utils/failure_report_generator.py:162-168 | every kept line appears among the entries |
| FailureReport.LoadLog | src/smartestiroid/utils/failure_report_generator.py:160-171 | the loop over the numbered lines computes the loaded entries |
| FailureReport.HierarchyXmlIsShortest | src/smartestiroid/utils/failure_report_generator.py:217-223 | a match starts with `<hierarchy`, ends with `</hierarchy>` and holds no earlier closing tag |
| FailureReport.HierarchyXmlIsLeftmost | src/smartestiroid/utils/failure_report_generator.py:217-223 | a match starts at the first `<hierarchy` of the prompt |
| FailureReport.HierarchyXmlNoneIff | src/smartestiroid/utils/failure_report_generator.py:217-223 | there is no match exactly when no closing tag follows any opening tag |
| FailureReport.Apply | src/smartestiroid/utils/failure_report_generator.py:204-265 | the record's identity is kept; a failed step sets the message and classifies it; a failed test fills the message only while it is empty; other entries leave the message alone |
| FailureReport.ExtractFailedTests | src/smartestiroid/utils/failure_report_generator.py:173-277 | the extraction loop computes the corrected extraction |
| FailureReport.EntriesBeforeFirstStartIgnored | src/smartestiroid/utils/failure_report_generator.py:185-201 | entries before the first test start leave no trace |
| FailureReport.OnlyFailuresReported | src/smartestiroid/utils/failure_report_generator.py:187-191 | only tests with a non-empty error message are reported |
| FailureReport.ReportedRangesWellFormed | src/smartestiroid/utils/failure_report_generator.py:185-277 | every reported test was opened by a TEST/START entry with its id and line, and its start line is at most its end line |
| FailureReport.LoadedLogRangesWellFormed | src/smartestiroid/utils/failure_report_generator.py:160-277 | from the raw log to the report, every reported test failed and has a well-formed line range |
| FailureReport.AsWrittenAgreesWithoutSkippedLines | src/smartestiroid/utils/failure_report_generator.py:275-277 | when no line was skipped, the written and corrected extractions agree |
| FailureReport.AsWrittenEndsBeforeStart | src/smartestiroid/utils/failure_report_generator.py:275-277 | on a log with two leading blank lines, the written code reports a test starting on line 3 and ending on line 2 |
| FailureReport.CorrectedEndsAtLastLine | src/smartestiroid/utils/failure_report_generator.py:275-277 | on the same log, the corrected extraction ends that test on line 4, the last line read |
| FailureReport.FallbackAnalysis | src/smartestiroid/utils/failure_report_generator.py:382-433 | connection loss, then a missing element, then a timeout, else unknown; HIGH confidence exactly for connection loss and LOW exactly for unknown; 1 to 3 causes and recommendations |
| FailureReport.ErrorTypeAgreesWithFallback | src/smartestiroid/utils/failure_report_generator.py:246-259 | a step classified as a timeout is never analysed as unknown; a missing-element step is analysed as connection loss or a missing element |
| FailureReport.StepDisplay | src/smartestiroid/utils/failure_report_generator.py:552-554 | a step of at most 50 characters is shown as it is; a longer one as its first 50 characters and "..." |
| FailureReport.StepDisplayIdempotent | src/smartestiroid/utils/failure_report_generator.py:552-554 | shortening a shown step again changes nothing |
| FailureReport.LastScreenshots | src/smartestiroid/utils/failure_report_generator.py:591-592 | the last three screenshots, or all when there are fewer |
| FailureReport.ShownLabel | src/smartestiroid/utils/failure_report_generator.py:596 | a non-empty label is shown, otherwise "Screenshot"; never empty |
| FailureReport.FailureTime | src/smartestiroid/utils/failure_report_generator.py:548-550 | shown only for a non-empty timestamp, as characters 11 to 19 when it has at least 19 and whole otherwise |
| LogAnalyzer.FromJsonDefaults | src/smartestiroid/utils/log_analyzer.py:40-50 | missing fields default to "", "INFO", "UNKNOWN" and "UNKNOWN", and a missing message or data is None |
| LogAnalyzer.FromJsonInvertsToObject | src/smartestiroid/utils/log_analyzer.py:40-50 | reading back the object of an entry gives the entry |
| LogAnalyzer.TimeOfDayIdempotent | src/smartestiroid/utils/log_analyzer.py:52-57 | taking the clock part twice changes nothing, and it is never longer than the timestamp |
| LogAnalyzer.FilterSound | src/smartestiroid/utils/log_analyzer.py:134-176 | an entry is among the filtered ones exactly when it was read and is of the kind |
| LogAnalyzer.ScreenshotsCounted | src/smartestiroid/utils/log_analyzer.py:154-162 | there is one screenshot record per SCREEN entry with an image path |
| LogAnalyzer.PromptsAtMostCalls | src/smartestiroid/utils/log_analyzer.py:137-147 | there are no more prompt records than LLM/START entries |
| LogAnalyzer.StartTimeFromStart | src/smartestiroid/utils/log_analyzer.py:179-184 | there is a start time exactly when there is a TEST/START entry, and it is the time of one |
| LogAnalyzer.StartTimeStable | src/smartestiroid/utils/log_analyzer.py:183-184 | a non-empty start time, once recorded, is never overwritten |
| LogAnalyzer.EndTimeIsLast | src/smartestiroid/utils/log_analyzer.py:186-193 | None exactly when there is no TEST/END or SESSION/END entry, otherwise the time of the last one |
| LogAnalyzer.LastDataIsLast | src/smartestiroid/utils/log_analyzer.py:179-189 | the data of the last entry of the kind with object data, None when there is none |
| LogAnalyzer.CountEntry | src/smartestiroid/utils/log_analyzer.py:136-176 | one entry keeps every counter equal to the entries it counts |
| LogAnalyzer.TrackTest | src/smartestiroid/utils/log_analyzer.py:178-193 | one entry keeps the test id, title, result, start and end times equal to their specifications |
| LogAnalyzer.TrackStartData | src/smartestiroid/utils/log_analyzer.py:179-182 | the test id and title are those of the last TEST/START entry with object data |
| LogAnalyzer.TrackEndData | src/smartestiroid/utils/log_analyzer.py:186-188 | the test result is the status of the last TEST/END entry with object data |
| LogAnalyzer.TrackTimes | src/smartestiroid/utils/log_analyzer.py:183-193 | the start time is taken while unset or empty; the end time comes from every end entry |
| LogAnalyzer.Analyze | src/smartestiroid/utils/log_analyzer.py:122-193 | fails exactly when some test entry has data that is not an object; otherwise it counts every entry and keeps the timeline, every counter equals the length of its list, and the test fields are those of the last matching entries |
| LogAnalyzer.ShortMessage | src/smartestiroid/utils/log_analyzer.py:292-294 | a message of more than 80 characters becomes its first 77 and "..."; the result never exceeds 80 |
| LogAnalyzer.ShortMessageIdempotent | src/smartestiroid/utils/log_analyzer.py:292-294 | shortening a shortened message changes nothing |
| LogAnalyzer.TruncatedPrompt | src/smartestiroid/utils/log_analyzer.py:306-308 | a prompt of more than 2000 characters keeps its first 2000 and the truncation mark |

## Left out

- Floating point: token costs, the pricing table's prices, rounding and averages, and the percentage in the progress summary. Only the integer token counts are modelled.
- Text formatting for display: `format_*` of the token counter, `get_progress_summary` of the ledger and of `ExecutionProgress` (the ledger's summary enters `ProgressSummaryLines` as a given text), `format_for_llm`, the prompts of the replanner, and the report assembly `_build_report`, `generate_report` and `_build_analysis_prompt`. The cells of `_build_test_section` are modelled; the rest of its text is not.
- Language-model calls: the executor, the planner, the evaluator, `analyze_test_failure` and `_analyze_with_llm`, and the three stages of the replanner. Their answers are given `Outcome` values.
- The planner is an oracle: its answers to the calls `plan_step` makes (`parse_objective_steps`, `analyze_screen`, `evaluate_objective_completion`, `create_execution_plan_for_objective`) and the `replan(..., objective_progress=...)` call of `replan_step` are given values. `agents/simple_planner.py` defines only `create_plan` (line 41) and `replan(state, locator, image_url, previous_image_url)` (line 138), so it does not provide what `workflow.py` calls; `agents/__init__.py:8` also imports `ScreenAnalysis` from it, which it does not define. The planner that `workflow.py` evidently expects is not part of this model.
- Workflow.RunDriver.ReplanStep: what `replan` does to the ledger it is handed is a given value, the steps and cursor it leaves there; it is taken to leave `original_input` as it is and to touch nothing else.
- Workflow.RunTest: the harness runs the graph with a LangGraph recursion limit of 50 node steps (`conftest.py`:708), which is not modelled; the planner bound holds only while that limit is not reached, which with `max_replan_count` 20 (`conftest.py`:608) it is not, and from 24 on GraphRecursionError would come before the budget response.
- Replanner.PlannerFallback: models only the fallback of `replan` in `agents/simple_planner.py`, not a planner that `workflow.py` can call.
- Workflow.RunDriver.ExecuteStep: the screen capture at `workflow.py`:204-206 is outside the `try` and is taken to succeed; if it raised, the step record would stay open and the exception would end the run.
- I/O: file reading and writing, `allure.attach`, `print`, colours, the images directory and `save_to_allure`. The logs are given as decoded lines; `log_analyzer.py`'s `_load_log` is given as its parsed entries.
- `Text`: `lower`, `upper` and `strip` are modelled on ASCII letters and ASCII whitespace only.
- XML parsing and serialising (`ET.fromstring`, `tostring`): the parser's result is a given tree, or None for a parse error.
- The in-place updates of `_compress_element` and `_remove_containers_pass`: the in-place attribute deletion and child replacement are modelled as functions that rebuild the tree; element identity and aliasing are not captured.
- Progress.ObjectiveProgress: steps are values, so a step object held elsewhere does not see a later write to the list.
- Progress.ObjectiveProgress: negative indices are not representable: the cursor `current_step_index`, a step's `plan_index` and its `parent_index` are `nat` (the last inside an `Option`). The constructor establishes `Valid()` only for a ledger whose plan cursors are in range and a start on a step or at 0, because the source's constructor accepts any list.
- `workflow.py` imports `ExecutionProgress` and `ObjectiveProgress` from `.models`, which defines neither; the model takes these names to be the classes of `progress.py`, without which the module would not load at all.
- FailureReport: a failed-test record is a value; the source never writes to a record after appending it, so nothing is lost.
- JSON field values of a type other than the one the code compares with (for example a non-string `cat` or `evt`) are read as absent or as their default.
- JSON numbers: `JsonValues.Json` has integers only, so a non-integer number such as `"phase": 1.0` is not representable, and a log line holding one is outside the inputs the model accepts.
- LogAnalyzer.PromptOf: `len(str(prompt))` is modelled only for string prompts; for other values the length is `None`.
- LogAnalyzer.StartTimeStable: the start time is "never overwritten" only once it is non-empty, because the code's `if not start_time` also replaces an empty timestamp.
- The Appium tool wrappers, image handling, the structured logger, the test harness and async scheduling are outside the modelled core.

## Findings

| source | as written | input that shows it | evidently intended | confidence | as-written member | corrected member |
|---|---|---|---|---|---|---|
| src/smartestiroid/workflow.py:437 | the all-done branch builds `Plan(steps=["全目標達成済み"])`, but `Plan` is never imported, so the branch raises NameError, which the handler at 484-493 re-raises | a ledger with one objective that the pre-evaluation finds achieved, which reaches the branch by `Workflow.AllDoneBranchIff` | the plan becomes the single step "全目標達成済み" with the count reset to 0, and the run goes on to the agent | high (not executed) | Workflow.RunDriver.PlanStep | Workflow.IntendedAllDoneState |
| src/smartestiroid/utils/failure_report_generator.py:275-277 | the test still open at the end is closed with `log_end_line = len(self.entries)`, the number of kept entries | a log whose lines 1-2 are blank, line 3 is a TEST/START with a test id and line 4 is a STEP/FAIL: the test is reported as lines 3-2 | the end line is the line number of the last entry read (4), as SESSION/END does with its own line | high (not executed) | FailureReport.AsWrittenEndsBeforeStart | FailureReport.CorrectedEndsAtLastLine |
