// The plan → execute → replan driver.  The closure state shared by the
// three graph nodes (image cache, step history, execution progress, the
// objective ledger and the tool-call recorder) is the class `RunDriver`;
// the planner, the executing agent, the evaluator and the failure analysis
// are language-model calls and enter as their outcomes.
module Workflow {
  import opened Wrappers
  import opened Text
  import opened Models
  import opened Progress
  import opened AllureLogger
  import opened Replanner

  /** `PlanExecute`: the graph state. */
  datatype PlanExecute = PlanExecute(
    input: string,
    plan: seq<string>,
    pastSteps: seq<PastStep>,
    response: Option<string>,
    replanCount: Option<int>)

  /** The dictionary a node returns; `past_steps` is appended, every other present key overwrites. */
  datatype StateUpdate = StateUpdate(
    pastSteps: seq<PastStep>,
    plan: Option<seq<string>>,
    response: Option<string>,
    replanCount: Option<int>)

  /** How the graph merges a node's update into the state. */
  function Apply(s: PlanExecute, u: StateUpdate): PlanExecute
  {
    PlanExecute(
      s.input,
      if u.plan.Some? then u.plan.value else s.plan,
      s.pastSteps + u.pastSteps,
      if u.response.Some? then u.response else s.response,
      if u.replanCount.Some? then u.replanCount else s.replanCount)
  }

  /** The result of a language-model call: a value, or the message of the exception it raised. */
  datatype Outcome<T> = Returned(value: T) | Raised(message: string)

  /** One entry of `step_history["executed_steps"]`. */
  datatype HistoryEntry = HistoryEntry(step: string, response: string, timestamp: int, success: bool)

  const SYSTEM_SKIP_STEP: string := "[SYSTEM_SKIP]"
  const SYSTEM_SKIP_OUTCOME: string := "計画ステップなし - リプランが必要"
  const ALL_OBJECTIVES_DONE_STEP: string := "全目標達成済み"
  /** The AttributeError raised where `plan_step` sets the status of a current step that does not exist. */
  const NONE_STATUS_ERROR: string := "'NoneType' object has no attribute 'status'"
  /** The message of the NameError raised where `plan_step` builds a `Plan` it never imported. */
  const PLAN_NAME_ERROR: string := "name 'Plan' is not defined"
  const AUTO_CORRECTION_NOTE: string := "\n\n【自動補正】目標ステップが未達成のためFAILに変更されました。"
  const REPLAN_ERROR_PREFIX: string := "エラーが発生しました: "
  const EXECUTE_ERROR_PREFIX: string := "Error: "

  // ---------------------------------------------------------------------
  // Routing
  // ---------------------------------------------------------------------

  datatype Route = End | Agent

  /** `should_end`: the run ends exactly when the state holds a non-empty response. */
  function ShouldEnd(s: PlanExecute): (r: Route)
    ensures r == End <==> (s.response.Some? && s.response.value != [])
    ensures r == Agent <==> (s.response.None? || s.response.value == [])
  {
    if s.response.Some? && s.response.value != "" then End else Agent
  }

  // ---------------------------------------------------------------------
  // The replan budget
  // ---------------------------------------------------------------------

  /** The response given once the replan budget is spent; it always ends in RESULT_FAIL. */
  function BudgetExhaustedResponse(maxReplanCount: nat, completedSteps: nat): (r: string)
    ensures Contains(r, RESULT_FAIL)
    ensures r != []
  {
    var r := "## リプラン回数制限到達\n\nリプラン回数が制限（" + NatToString(maxReplanCount)
      + "回）に達したため、処理を終了しました。\n現在の進捗: " + NatToString(completedSteps)
      + "ステップ完了\n\n" + RESULT_FAIL;
    assert OccursAt(r, RESULT_FAIL, |r| - |RESULT_FAIL|);
    r
  }

  /** The response for an exception raised inside the replan body. */
  function ReplanErrorResponse(message: string): (r: string)
    ensures r != [] && StartsWith(r, REPLAN_ERROR_PREFIX)
  {
    REPLAN_ERROR_PREFIX + message
  }

  // ---------------------------------------------------------------------
  // The PASS → FAIL safeguard
  // ---------------------------------------------------------------------

  /** After a replacement, a result marker starting at `t` came from a prefix of `t` itself when it holds no 'R'. */
  lemma {:induction false} PrefixSurvivesReplace(t: string, w: string)
    requires forall k :: 0 <= k < |w| ==> w[k] != 'R'
    ensures StartsWith(Replace(t, RESULT_PASS, RESULT_FAIL), w) ==> StartsWith(t, w)
    decreases |t|
  {
    var r := Replace(t, RESULT_PASS, RESULT_FAIL);
    if w == [] || |t| < |RESULT_PASS| {
    } else if StartsWith(t, RESULT_PASS) {
      assert r[0] == RESULT_FAIL[0] == 'R';
    } else {
      var rest := Replace(t[1..], RESULT_PASS, RESULT_FAIL);
      assert r == [t[0]] + rest;
      PrefixSurvivesReplace(t[1..], w[1..]);
      if StartsWith(r, w) {
        assert rest[..|w| - 1] == r[1..|w|] == w[1..];
        assert t[..|w|] == [t[0]] + t[1..][..|w| - 1];
      }
    }
  }

  /** RESULT_FAIL followed by text without RESULT_PASS holds no RESULT_PASS. */
  lemma NoPassAfterFail(rest: string)
    requires !Contains(rest, RESULT_PASS)
    ensures !Contains(RESULT_FAIL + rest, RESULT_PASS)
  {
    var r := RESULT_FAIL + rest;
    var n := |RESULT_PASS|;
    forall i | 0 <= i <= |r| - n
      ensures !OccursAt(r, RESULT_PASS, i)
    {
      if i == 0 {
        assert r[i..i + n][7] == 'F' != RESULT_PASS[7];
      } else if i < |RESULT_FAIL| {
        assert r[i..i + n][0] == RESULT_FAIL[i] != RESULT_PASS[0];
      } else {
        assert r[i..i + n] == rest[i - |RESULT_FAIL|..i - |RESULT_FAIL| + n];
        assert !OccursAt(rest, RESULT_PASS, i - |RESULT_FAIL|);
      }
    }
  }

  /** A character kept in front of a replaced tail creates no RESULT_PASS when the text did not start with one. */
  lemma NoPassAfterKeptChar(s: string)
    requires |s| >= |RESULT_PASS| && !StartsWith(s, RESULT_PASS)
    requires !Contains(Replace(s[1..], RESULT_PASS, RESULT_FAIL), RESULT_PASS)
    ensures !Contains([s[0]] + Replace(s[1..], RESULT_PASS, RESULT_FAIL), RESULT_PASS)
  {
    var rest := Replace(s[1..], RESULT_PASS, RESULT_FAIL);
    var r := [s[0]] + rest;
    var n := |RESULT_PASS|;
    forall i | 0 <= i <= |r| - n
      ensures !OccursAt(r, RESULT_PASS, i)
    {
      if i == 0 {
        PrefixSurvivesReplace(s[1..], RESULT_PASS[1..]);
        assert OccursAt(r, RESULT_PASS, 0) ==> StartsWith(rest, RESULT_PASS[1..]);
        assert s[..n] == [s[0]] + s[1..][..n - 1];
      } else {
        assert r[i..i + n] == rest[i - 1..i - 1 + n];
        assert !OccursAt(rest, RESULT_PASS, i - 1);
      }
    }
  }

  /** `s.replace(RESULT_PASS, RESULT_FAIL)` leaves no RESULT_PASS behind. */
  lemma {:induction false} ReplaceLeavesNoPass(s: string)
    ensures !Contains(Replace(s, RESULT_PASS, RESULT_FAIL), RESULT_PASS)
    decreases |s|
  {
    var n := |RESULT_PASS|;
    if |s| < n {
    } else if StartsWith(s, RESULT_PASS) {
      ReplaceLeavesNoPass(s[n..]);
      NoPassAfterFail(Replace(s[n..], RESULT_PASS, RESULT_FAIL));
    } else {
      ReplaceLeavesNoPass(s[1..]);
      NoPassAfterKeptChar(s);
    }
  }

  /** Appending text that starts with a newline and holds no RESULT_PASS creates none across the seam. */
  lemma NoPassAcrossNewline(x: string, note: string)
    requires !Contains(x, RESULT_PASS) && !Contains(note, RESULT_PASS)
    requires |note| > 0 && note[0] == '\n'
    ensures !Contains(x + note, RESULT_PASS)
  {
    var y := x + note;
    var n := |RESULT_PASS|;
    forall i | 0 <= i <= |y| - n
      ensures !OccursAt(y, RESULT_PASS, i)
    {
      if i + n <= |x| {
        assert y[i..i + n] == x[i..i + n];
        assert !OccursAt(x, RESULT_PASS, i);
      } else if i >= |x| {
        assert y[i..i + n] == note[i - |x|..i - |x| + n];
        assert !OccursAt(note, RESULT_PASS, i - |x|);
      } else {
        assert y[|x|] == '\n';
        assert y[i..i + n][|x| - i] == '\n';
        assert RESULT_PASS[|x| - i] != '\n';
      }
    }
  }

  lemma NoteHasNoPass()
    ensures !Contains(AUTO_CORRECTION_NOTE, RESULT_PASS)
  {
    forall i | 0 <= i <= |AUTO_CORRECTION_NOTE| - |RESULT_PASS|
      ensures !OccursAt(AUTO_CORRECTION_NOTE, RESULT_PASS, i)
    {
      assert AUTO_CORRECTION_NOTE[i] != 'R' == RESULT_PASS[0];
      assert AUTO_CORRECTION_NOTE[i..i + |RESULT_PASS|][0] == AUTO_CORRECTION_NOTE[i];
    }
  }

  /**
   * `evaluated_response` after the safeguard: the reason and the status,
   * with every RESULT_PASS turned into RESULT_FAIL and a note appended when
   * the status is PASS while objectives remain.
   */
  function SafeguardedResponse(status: Status, reason: string, objectivesRemain: bool): (r: string)
    ensures status == Pass && objectivesRemain ==> !Contains(r, RESULT_PASS)
    ensures status == Pass && objectivesRemain ==> EndsWithNote(r)
    ensures !(status == Pass && objectivesRemain) ==> r == reason + "\n\n" + StatusText(status)
  {
    var evaluated := reason + "\n\n" + StatusText(status);
    if status == Pass && objectivesRemain then
      ReplaceLeavesNoPass(evaluated);
      NoteHasNoPass();
      NoPassAcrossNewline(Replace(evaluated, RESULT_PASS, RESULT_FAIL), AUTO_CORRECTION_NOTE);
      Replace(evaluated, RESULT_PASS, RESULT_FAIL) + AUTO_CORRECTION_NOTE
    else
      evaluated
  }

  predicate EndsWithNote(r: string)
  {
    |AUTO_CORRECTION_NOTE| <= |r| && r[|r| - |AUTO_CORRECTION_NOTE|..] == AUTO_CORRECTION_NOTE
  }

  /**
   * The response branch of `replan_step`: the safeguarded text goes to the
   * evaluator only while it still claims RESULT_PASS; a text that does not
   * claim RESULT_PASS gets the failure analysis appended.  An exception of
   * either call is returned as a failure for the caller to turn into the
   * error response.
   */
  function ResponseBranch(status: Status, reason: string, objectivesRemain: bool,
                          evaluator: Outcome<string>, analysis: Outcome<string>): (r: Result<string>)
    ensures status == Pass && objectivesRemain ==>
      r == (match analysis
            case Returned(a) => Success(SafeguardedResponse(status, reason, true) + "\n---\n" + a)
            case Raised(m) => Failure(m))
    ensures r.Success? && !Contains(r.value, RESULT_PASS) ==> analysis.Returned?
  {
    var safeguarded := SafeguardedResponse(status, reason, objectivesRemain);
    var evaluated := if Contains(safeguarded, RESULT_PASS) then evaluator else Returned(safeguarded);
    match evaluated
    case Raised(m) => Failure(m)
    case Returned(e) =>
      if Contains(e, RESULT_PASS) then Success(e)
      else
        match analysis
        case Raised(m) => Failure(m)
        case Returned(a) => Success(e + "\n---\n" + a)
  }

  /**
   * With objectives left, a PASS response never reaches the evaluator: the
   * outcome is the same whatever the evaluator would have answered.
   */
  lemma SafeguardSkipsEvaluator(reason: string, e1: Outcome<string>, e2: Outcome<string>, analysis: Outcome<string>)
    ensures ResponseBranch(Pass, reason, true, e1, analysis) == ResponseBranch(Pass, reason, true, e2, analysis)
  {
  }

  /**
   * The planner's fallback answers PASS when no plan steps remain; with
   * objectives left, the safeguard turns that answer into a failure text.
   */
  lemma FallbackPassIsCorrected(plan: seq<string>, past: seq<PastStep>, error: string)
    requires |plan| <= |past|
    ensures var a := PlannerFallback(plan, past, error);
      a.ResponseAct? && !Contains(SafeguardedResponse(a.status, a.reason, true), RESULT_PASS)
  {
  }

  // ---------------------------------------------------------------------
  // The closure state and the three graph nodes
  // ---------------------------------------------------------------------

  /** What the planner's `replan` hands back. */
  datatype ReplanResult = ReplanResult(act: Act, stateAnalysis: Option<string>)

  /**
   * The ledger as the planner's `replan` leaves it.  It is handed the live
   * ledger and completes objective steps there, which also moves the
   * cursor; it may do so and then raise.
   */
  datatype LedgerState = LedgerState(steps: seq<ObjectiveStep>, cursor: nat)

  /**
   * The record `execute_step` leaves behind, appended to the earlier ones,
   * adds one to the completed count exactly when the agent returned, and
   * adds one tool call per tool the agent started.
   */
  lemma StepRecordCounts(before: seq<StepExecutionRecord>, rec: StepExecutionRecord, tools: seq<ToolEvent>,
                         agent: Outcome<string>)
    requires rec.status == (if agent.Returned? then RecordCompleted else RecordFailed)
    requires rec.toolCalls == Replay([], tools)
    ensures CountCompletedRecords(before + [rec]) == CountCompletedRecords(before) + (if agent.Returned? then 1 else 0)
    ensures SumToolCalls(before + [rec]) == SumToolCalls(before) + StartCount(tools)
  {
    RecordCountsConcat(before, [rec]);
    RecordCountsOne(rec);
    ReplayLength([], tools);
  }

  /** The agent's answer as it is recorded: its content, or the error text. */
  function AgentText(agent: Outcome<string>): string
  {
    match agent
    case Returned(content) => content
    case Raised(message) => EXECUTE_ERROR_PREFIX + message
  }

  /** `objective_progress and not objective_progress.is_all_objectives_completed()` */
  predicate ObjectivesRemain(ledger: Option<ObjectiveProgress>)
    reads if ledger.Some? then {ledger.value} else {}
  {
    ledger.Some? && !ledger.value.IsAllObjectivesCompleted()
  }

  /** The ledger after the pre-evaluation found its first objective achieved. */
  function MarkAchieved(ledger: seq<ObjectiveStep>, preEval: StepResult): (r: seq<ObjectiveStep>)
    requires ledger != []
    ensures |r| == |ledger| && r[0].status == Completed && r[0].result == Some(preEval)
    ensures forall k :: 0 < k < |r| ==> r[k] == ledger[k]
  {
    ledger[0 := ledger[0].(status := Completed, result := Some(preEval))]
  }

  /**
   * The outcomes of the calls `plan_step` makes inside its `try`, in call
   * order: the screen capture (its image URL), the objective parser, the
   * screen analysis, the pre-evaluation, the analysis for the next
   * objective (made only when the first is already achieved) and the
   * execution planner.  The analyses' texts only feed later model calls.
   */
  datatype PlanCalls = PlanCalls(
    screen: Outcome<string>,
    objectives: Outcome<seq<ObjectiveStep>>,
    analysis: Outcome<string>,
    preEval: Outcome<StepResult>,
    nextAnalysis: Outcome<string>,
    plan: Outcome<seq<string>>)

  /** The ledger was parsed and has a first step to work on. */
  predicate HasLedger(c: PlanCalls)
  {
    c.screen.Returned? && c.objectives.Returned? && c.objectives.value != []
  }

  /** The first step was also analysed and pre-evaluated. */
  predicate Evaluated(c: PlanCalls)
  {
    HasLedger(c) && c.analysis.Returned? && c.preEval.Returned?
  }

  /** Where the scan for the next objective lands once the first one is achieved. */
  function NextObjective(c: PlanCalls): Option<nat>
    requires Evaluated(c)
  {
    FirstUnfinishedFrom(MarkAchieved(c.objectives.value, c.preEval.value), 0)
  }

  /** `plan_step` gets as far as asking for the execution plan. */
  predicate ReachesPlanner(c: PlanCalls)
  {
    Evaluated(c) && (c.preEval.value.achieved ==> NextObjective(c).Some? && c.nextAnalysis.Returned?)
  }

  /**
   * `plan_step` reaches its all-done branch exactly when the first step is
   * achieved and no later step is an unfinished objective; a one-objective
   * ledger whose objective is already achieved is such an input.
   */
  lemma AllDoneBranchIff(ledger: seq<ObjectiveStep>, preEval: StepResult)
    requires ledger != []
    ensures FirstUnfinishedFrom(MarkAchieved(ledger, preEval), 0).None?
      <==> forall k :: 0 < k < |ledger| ==> !Unfinished(ledger[k])
  {
    var marked := MarkAchieved(ledger, preEval);
    var found := FirstUnfinishedFrom(marked, 0);
    if found.Some? {
      assert found.value != 0;
      assert Unfinished(ledger[found.value]);
    }
  }

  /**
   * The state `plan_step` evidently meant to leave when every objective is
   * already achieved: the single step "全目標達成済み" as the plan, the count
   * reset to 0, and the route still leading to the agent.
   */
  function IntendedAllDoneState(s: PlanExecute): (t: PlanExecute)
    ensures t.plan == [ALL_OBJECTIVES_DONE_STEP] && t.replanCount == Some(0)
    ensures t.input == s.input && t.pastSteps == s.pastSteps && t.response == s.response
    ensures ShouldEnd(t) == ShouldEnd(s)
  {
    Apply(s, StateUpdate([], Some([ALL_OBJECTIVES_DONE_STEP]), None, Some(0)))
  }

  /** The replan count a state carries (`state.get("replan_count", 0)`). */
  function CountOf(s: PlanExecute): int
  {
    if s.replanCount.Some? then s.replanCount.value else 0
  }

  /** The text `replan_step` answers for a response act. */
  function ResponseText(r: Result<string>): string
  {
    match r
    case Success(t) => t
    case Failure(m) => ReplanErrorResponse(m)
  }

  /** The closure state of `create_workflow_functions`. */
  class RunDriver {
    const maxReplanCount: nat
    const recorder: ToolCallRecorder
    var previousImageUrl: string
    var executedSteps: seq<HistoryEntry>
    var executionProgress: Option<ExecutionProgress>
    var objectiveProgress: Option<ObjectiveProgress>

    /** The recorder always reports to the progress objects the driver holds. */
    ghost predicate Valid()
      reads this, recorder
    {
      recorder.executionProgress == executionProgress && recorder.objectiveProgress == objectiveProgress
    }

    constructor (maxReplanCount: nat)
      ensures Valid() && fresh(recorder)
      ensures this.maxReplanCount == maxReplanCount && previousImageUrl == "" && executedSteps == []
      ensures executionProgress == None && objectiveProgress == None
    {
      this.maxReplanCount := maxReplanCount;
      recorder := new ToolCallRecorder();
      previousImageUrl := "";
      executedSteps := [];
      executionProgress := None;
      objectiveProgress := None;
    }

    function ProgressFrame(): set<object>
      reads this
    {
      if executionProgress.Some? then {executionProgress.value} else {}
    }

    function LedgerFrame(): set<object>
      reads this
    {
      if objectiveProgress.Some? then {objectiveProgress.value} else {}
    }

    /**
     * `execute_step`: runs the first step of the plan.  An empty plan yields
     * the single system-skip step without consulting the agent; otherwise a
     * step record is opened at position `len(past_steps)`, receives the
     * tool callbacks the agent triggers, and is closed as completed or
     * failed with the agent's answer; the step history grows by one entry.
     * A returned answer clears the flat call list; an agent exception fails
     * the step and leaves the calls it made in that list.
     */
    method ExecuteStep(state: PlanExecute, tools: seq<ToolEvent>, agent: Outcome<string>, now: int)
      returns (r: Result<StateUpdate>)
      requires Valid()
      modifies this, recorder, ProgressFrame()
      ensures Valid()
      ensures objectiveProgress == old(objectiveProgress) && previousImageUrl == old(previousImageUrl)
      ensures state.plan == [] ==>
        r == Success(StateUpdate([PastStep(SYSTEM_SKIP_STEP, SYSTEM_SKIP_OUTCOME)], None, None, None))
        && unchanged(this) && unchanged(recorder)
      ensures state.plan != [] ==> executionProgress.Some?
      ensures state.plan != [] && old(executionProgress).Some? ==> executionProgress == old(executionProgress)
      ensures state.plan != [] && old(executionProgress).None? ==>
        fresh(executionProgress.value) && executionProgress.value.originalPlan == state.plan
      ensures state.plan != [] ==>
        var p := executionProgress.value;
        |p.records| > 0 && p.currentStepIndex == |state.pastSteps|
        && p.records[..|p.records| - 1] == (if old(executionProgress).Some? then old(executionProgress.value.records) else [])
        && var rec := p.records[|p.records| - 1];
        rec.stepIndex == |state.pastSteps| && rec.stepText == state.plan[0]
        && rec.status == (if agent.Returned? then RecordCompleted else RecordFailed)
        && rec.agentResponse == Some(AgentText(agent))
        && rec.toolCalls == Replay([], tools)
      ensures state.plan != [] ==>
        executedSteps == old(executedSteps) + [HistoryEntry(state.plan[0], AgentText(agent), now, agent.Returned?)]
        && recorder.currentRecord == None
      ensures state.plan != [] && agent.Returned? ==>
        r == Success(StateUpdate([PastStep(state.plan[0], agent.value)], None, None, None)) && recorder.toolCalls == []
      ensures state.plan != [] && agent.Raised? ==> r.Failure? && recorder.toolCalls == Replay(old(recorder.toolCalls), tools)
    {
      if state.plan == [] {
        return Success(StateUpdate([PastStep(SYSTEM_SKIP_STEP, SYSTEM_SKIP_OUTCOME)], None, None, None));
      }
      var task := state.plan[0];
      if executionProgress.None? {
        var p := new ExecutionProgress(state.plan);
        executionProgress := Some(p);
        recorder.SetExecutionProgress(p);
      }
      var record := recorder.StartStep(|state.pastSteps|, task, now);
      recorder.ReplayEvents(tools);
      match agent {
        case Returned(content) =>
          recorder.CompleteStep(content, true, now);
          recorder.Clear();
          executedSteps := executedSteps + [HistoryEntry(task, content, now, true)];
          r := Success(StateUpdate([PastStep(task, content)], None, None, None));
        case Raised(message) =>
          recorder.CompleteStep(EXECUTE_ERROR_PREFIX + message, false, now);
          executedSteps := executedSteps + [HistoryEntry(task, EXECUTE_ERROR_PREFIX + message, now, false)];
          r := Failure("ステップ実行中にエラーが発生しました: " + message);
      }
    }

    /**
     * `plan_step`: installs the parsed ledger and makes its first step
     * current and in progress.  When the pre-evaluation finds that step
     * already achieved it is completed and the scan for the next unfinished
     * objective runs; if none remains, building the single-step plan
     * "全目標達成済み" raises a NameError (`Plan` is not imported).
     * Otherwise the current objective receives the new execution plan, the
     * step history is emptied and a fresh execution progress starts, with
     * the count reset to 0.  An empty ledger has no current step to work on.
     * Every exception, raised by a call or by the code, is re-raised: the
     * step fails, and what was written before it stays written.
     */
    method PlanStep(state: PlanExecute, calls: PlanCalls) returns (r: Result<StateUpdate>)
      requires Valid()
      modifies this, recorder
      ensures Valid()
      ensures r.Success? <==> ReachesPlanner(calls) && calls.plan.Returned?
      ensures r.Success? ==>
        r.value == StateUpdate([], Some(calls.plan.value), None, Some(0))
        && executedSteps == [] && previousImageUrl == calls.screen.value
        && executionProgress.Some? && fresh(executionProgress.value)
        && executionProgress.value.originalPlan == calls.plan.value && executionProgress.value.records == []
      ensures r.Failure? ==>
        executionProgress == old(executionProgress) && executedSteps == old(executedSteps)
        && previousImageUrl == old(previousImageUrl)
      ensures calls.screen.Raised? ==> r == Failure(calls.screen.message) && objectiveProgress == old(objectiveProgress)
      ensures calls.screen.Returned? && calls.objectives.Raised? ==>
        r == Failure(calls.objectives.message) && objectiveProgress == old(objectiveProgress)
      ensures calls.screen.Returned? && calls.objectives.Returned? ==>
        objectiveProgress.Some? && fresh(objectiveProgress.value)
        && objectiveProgress.value.originalInput == state.input
      ensures calls.screen.Returned? && calls.objectives.Returned? && calls.objectives.value == [] ==>
        r == Failure(NONE_STATUS_ERROR) && objectiveProgress.value.steps == []
      ensures HasLedger(calls) && !Evaluated(calls) ==>
        var ledger := calls.objectives.value;
        r == Failure(if calls.analysis.Raised? then calls.analysis.message else calls.preEval.message)
        && objectiveProgress.value.cursor == 0
        && objectiveProgress.value.steps == ledger[0 := ledger[0].(status := InProgress)]
      ensures Evaluated(calls) && !calls.preEval.value.achieved ==>
        var ledger := calls.objectives.value;
        var plan := if calls.plan.Returned? then calls.plan.value else ledger[0].plan;
        objectiveProgress.value.cursor == 0
        && objectiveProgress.value.steps == ledger[0 := ledger[0].(status := InProgress, plan := plan)]
        && (calls.plan.Raised? ==> r == Failure(calls.plan.message))
      ensures Evaluated(calls) && calls.preEval.value.achieved && NextObjective(calls).None? ==>
        r == Failure(PLAN_NAME_ERROR)
        && objectiveProgress.value.steps == MarkAchieved(calls.objectives.value, calls.preEval.value)
      ensures Evaluated(calls) && calls.preEval.value.achieved && NextObjective(calls).Some? ==>
        var marked := MarkAchieved(calls.objectives.value, calls.preEval.value);
        var j := NextObjective(calls).value;
        var plan := if calls.nextAnalysis.Returned? && calls.plan.Returned? then calls.plan.value else marked[j].plan;
        objectiveProgress.value.cursor == j
        && objectiveProgress.value.steps == marked[j := marked[j].(status := InProgress, plan := plan)]
        && (calls.nextAnalysis.Raised? ==> r == Failure(calls.nextAnalysis.message))
        && (calls.nextAnalysis.Returned? && calls.plan.Raised? ==> r == Failure(calls.plan.message))
    {
      if calls.screen.Raised? {
        return Failure(calls.screen.message);
      }
      if calls.objectives.Raised? {
        return Failure(calls.objectives.message);
      }
      var ledger := calls.objectives.value;
      var op := new ObjectiveProgress(state.input, ledger, 0);
      objectiveProgress := Some(op);
      recorder.SetObjectiveProgress(op);
      if op.cursor >= |op.steps| {
        return Failure(NONE_STATUS_ERROR);
      }
      op.steps := ledger[0 := ledger[0].(status := InProgress)];
      if calls.analysis.Raised? {
        return Failure(calls.analysis.message);
      }
      if calls.preEval.Raised? {
        return Failure(calls.preEval.message);
      }
      var preEval := calls.preEval.value;
      if preEval.achieved {
        op.steps := MarkAchieved(ledger, preEval);
        var found := op.AdvanceToNextObjective();
        if !found {
          return Failure(PLAN_NAME_ERROR);
        }
        if calls.nextAnalysis.Raised? {
          return Failure(calls.nextAnalysis.message);
        }
      }
      if calls.plan.Raised? {
        return Failure(calls.plan.message);
      }
      var newPlan := calls.plan.value;
      op.steps := op.steps[op.cursor := op.steps[op.cursor].(status := InProgress, plan := newPlan)];
      StartPlan(newPlan, calls.screen.value);
      return Success(StateUpdate([], Some(newPlan), None, Some(0)));
    }

    /** The end of `plan_step`: caches the screen, empties the history and starts a fresh execution progress. */
    method StartPlan(newPlan: seq<string>, imageUrl: string)
      requires Valid()
      modifies this, recorder
      ensures Valid()
      ensures executedSteps == [] && previousImageUrl == imageUrl && objectiveProgress == old(objectiveProgress)
      ensures executionProgress.Some? && fresh(executionProgress.value)
      ensures executionProgress.value.originalPlan == newPlan && executionProgress.value.records == []
    {
      previousImageUrl := imageUrl;
      executedSteps := [];
      var p := new ExecutionProgress(newPlan);
      executionProgress := Some(p);
      recorder.SetExecutionProgress(p);
    }

    /**
     * `replan_step`: every exit answers with the incoming count plus one.
     * With the budget spent it answers the RESULT_FAIL message without
     * consulting the planner.  A response act goes through the safeguard,
     * the evaluator and the failure analysis; a plan act becomes the new
     * plan and moves the execution cursor to the number of completed
     * records.  Any exception in the body becomes the error response.
     * `ledgerAfter` is what `replan` wrote to the ledger, whether it then
     * returned or raised, and None when it wrote nothing.
     */
    method ReplanStep(state: PlanExecute, ledgerAfter: Option<LedgerState>, planner: Outcome<ReplanResult>,
                      evaluator: Outcome<string>, analysis: Outcome<string>, imageUrl: string) returns (u: StateUpdate)
      requires Valid()
      modifies this, ProgressFrame(), LedgerFrame()
      ensures Valid()
      ensures u.replanCount == Some(CountOf(state) + 1) && u.pastSteps == []
      ensures executionProgress == old(executionProgress) && objectiveProgress == old(objectiveProgress)
      ensures executedSteps == old(executedSteps)
      ensures objectiveProgress.Some? && CountOf(state) < maxReplanCount && ledgerAfter.Some? ==>
        objectiveProgress.value.steps == ledgerAfter.value.steps
        && objectiveProgress.value.cursor == ledgerAfter.value.cursor
      ensures objectiveProgress.Some? && !(CountOf(state) < maxReplanCount && ledgerAfter.Some?) ==>
        objectiveProgress.value.steps == old(objectiveProgress.value.steps)
        && objectiveProgress.value.cursor == old(objectiveProgress.value.cursor)
      ensures objectiveProgress.Some? ==>
        objectiveProgress.value.originalInput == old(objectiveProgress.value.originalInput)
      ensures executionProgress.Some? ==>
        executionProgress.value.records == old(executionProgress.value.records)
        && executionProgress.value.originalPlan == old(executionProgress.value.originalPlan)
      ensures executionProgress.Some? && !(CountOf(state) < maxReplanCount && planner.Returned? && planner.value.act.PlanAct?) ==>
        executionProgress.value.currentStepIndex == old(executionProgress.value.currentStepIndex)
      ensures CountOf(state) >= maxReplanCount ==>
        u.response == Some(BudgetExhaustedResponse(maxReplanCount, |state.pastSteps|)) && u.plan == None
        && previousImageUrl == old(previousImageUrl)
      ensures CountOf(state) < maxReplanCount && planner.Raised? ==>
        u.response == Some(ReplanErrorResponse(planner.message)) && u.plan == None
        && previousImageUrl == old(previousImageUrl)
      ensures CountOf(state) < maxReplanCount && planner.Returned? ==> previousImageUrl == imageUrl
      ensures CountOf(state) < maxReplanCount && planner.Returned? && planner.value.act.ResponseAct? ==>
        var a := planner.value.act;
        u.plan == None
        && u.response == Some(ResponseText(ResponseBranch(a.status, a.reason, ObjectivesRemain(objectiveProgress), evaluator, analysis)))
      ensures CountOf(state) < maxReplanCount && planner.Returned? && planner.value.act.PlanAct? ==>
        u.response == None && u.plan == Some(planner.value.act.steps)
        && (executionProgress.Some? ==>
              executionProgress.value.currentStepIndex == CountCompletedRecords(executionProgress.value.records))
    {
      var count := CountOf(state);
      if count >= maxReplanCount {
        return StateUpdate([], None, Some(BudgetExhaustedResponse(maxReplanCount, |state.pastSteps|)), Some(count + 1));
      }
      if ledgerAfter.Some? && objectiveProgress.Some? {
        objectiveProgress.value.steps := ledgerAfter.value.steps;
        objectiveProgress.value.cursor := ledgerAfter.value.cursor;
      }
      match planner {
        case Raised(message) =>
          u := StateUpdate([], None, Some(ReplanErrorResponse(message)), Some(count + 1));
        case Returned(result) =>
          previousImageUrl := imageUrl;
          match result.act {
            case ResponseAct(status, reason) =>
              var text := ResponseBranch(status, reason, ObjectivesRemain(objectiveProgress), evaluator, analysis);
              u := StateUpdate([], None, Some(ResponseText(text)), Some(count + 1));
            case PlanAct(steps) =>
              if executionProgress.Some? {
                var p := executionProgress.value;
                p.currentStepIndex := p.CompletedCount();
              }
              u := StateUpdate([], Some(steps), None, Some(count + 1));
          }
      }
    }

    /**
     * One agent → replan round on `state`: the step is executed, its update
     * applied, then the replanner's update applied.  A successful round
     * counts one more replan, and once the budget was already spent it ends
     * the run on a response carrying RESULT_FAIL.
     */
    method RunRound(state: PlanExecute, round: Round) returns (r: Result<PlanExecute>)
      requires Valid()
      modifies this, recorder, ProgressFrame(), LedgerFrame()
      ensures Valid()
      ensures executionProgress.Some? ==> executionProgress == old(executionProgress) || fresh(executionProgress.value)
      ensures objectiveProgress == old(objectiveProgress)
      ensures r.Success? ==> r.value.replanCount == Some(CountOf(state) + 1)
      ensures r.Success? && CountOf(state) >= maxReplanCount ==>
        ShouldEnd(r.value) == End && Contains(r.value.response.value, RESULT_FAIL)
    {
      var executed := ExecuteStep(state, round.tools, round.agent, round.now);
      if executed.Failure? {
        return Failure(executed.error);
      }
      var s := Apply(state, executed.value);
      var update := ReplanStep(s, round.ledger, round.planner, round.evaluator, round.analysis, round.imageUrl);
      return Success(Apply(s, update));
    }
  }

  // ---------------------------------------------------------------------
  // A whole run
  // ---------------------------------------------------------------------

  /**
   * One execute → replan round: the tool callbacks the agent triggers, the
   * outcomes of the language-model calls, and the ledger as `replan` leaves it.
   */
  datatype Round = Round(tools: seq<ToolEvent>, agent: Outcome<string>, ledger: Option<LedgerState>,
                         planner: Outcome<ReplanResult>, evaluator: Outcome<string>, analysis: Outcome<string>,
                         imageUrl: string, now: int)

  datatype RunOutcome =
    | Finished(state: PlanExecute)
    | Crashed(message: string)
    | Stopped(state: PlanExecute)

  /**
   * The graph START → planner → agent → replan → (END | agent) run on fresh
   * closure state, with the language-model outcomes of each round given.
   * Whatever they are, the planner node is consulted at most
   * `max_replan_count + 1` times, and a finished run ends on a non-empty
   * response carrying the count of replans.  `Stopped` has no counterpart
   * in the source: it only reports that the given rounds ran out while the
   * graph would still go on to the agent.  The harness runs the graph with a
   * recursion limit of 50 node steps; the bound assumes it is not reached.
   * A run that ends on the budget response takes 1 + 2 * (max_replan_count + 1)
   * node steps, so from `max_replan_count` 24 on LangGraph would raise
   * GraphRecursionError first (conftest.py sets 20).
   */
  method RunTest(maxReplanCount: nat, input: string, planCalls: PlanCalls, rounds: seq<Round>)
    returns (outcome: RunOutcome, replans: nat)
    ensures replans <= maxReplanCount + 1
    ensures outcome.Finished? ==> ShouldEnd(outcome.state) == End && outcome.state.replanCount == Some(replans)
    ensures outcome.Finished? && replans == maxReplanCount + 1 ==>
      Contains(outcome.state.response.value, RESULT_FAIL)
    ensures outcome.Stopped? ==> ShouldEnd(outcome.state) == Agent && replans <= maxReplanCount
  {
    var d := new RunDriver(maxReplanCount);
    var s := PlanExecute(input, [], [], None, None);
    var planned := d.PlanStep(s, planCalls);
    if planned.Failure? {
      return Crashed(planned.error), 0;
    }
    s := Apply(s, planned.value);
    replans := 0;
    var i := 0;
    while i < |rounds|
      invariant 0 <= i <= |rounds|
      invariant d.Valid() && fresh(d.recorder) && d.maxReplanCount == maxReplanCount
      invariant d.executionProgress.Some? ==> fresh(d.executionProgress.value)
      invariant d.objectiveProgress.Some? ==> fresh(d.objectiveProgress.value)
      invariant s.replanCount == Some(replans) && replans <= maxReplanCount
      invariant ShouldEnd(s) == Agent
    {
      var next := d.RunRound(s, rounds[i]);
      if next.Failure? {
        return Crashed(next.error), replans;
      }
      s := next.value;
      replans := replans + 1;
      if ShouldEnd(s) == End {
        return Finished(s), replans;
      }
      i := i + 1;
    }
    return Stopped(s), replans;
  }
}
