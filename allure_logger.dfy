// The tool-call recorder the agent reports to: a flat list of the tool calls
// of the current plan step, the step record being filled, and the progress
// objects it is attached to.
module AllureLogger {
  import opened Wrappers
  import opened Text
  import opened Progress

  const NO_TOOL_CALLS: string := "ツール呼び出しなし"
  const NO_PROGRESS: string := "進捗情報なし"

  /** The tool call `on_tool_start` records: no end time, output or error yet. */
  function StartedCall(name: Option<string>, input: Option<string>, now: int): (c: ToolCallRecord)
    ensures c.output == None && c.error == None && c.endTime == None
  {
    ToolCallRecord(
      if name.Some? then name.value else "Unknown",
      if input.Some? then input.value else "",
      None, None, now, None)
  }

  /** `on_tool_end` applied to one call: the end time and the output as a string (or None). */
  function EndedCall(c: ToolCallRecord, output: Option<string>, now: int): ToolCallRecord
  {
    c.(endTime := Some(now), output := output)
  }

  /** `on_tool_error` applied to one call: the end time and the error text. */
  function FailedCall(c: ToolCallRecord, error: string, now: int): ToolCallRecord
  {
    c.(endTime := Some(now), error := Some(error))
  }

  /** One callback the agent's tool runs trigger on the recorder. */
  datatype ToolEvent =
    | ToolStarted(name: Option<string>, input: Option<string>, at: int)
    | ToolEnded(output: Option<string>, at: int)
    | ToolFailed(error: string, at: int)

  /** The effect of one callback on a list of calls, as `on_tool_start`, `on_tool_end` and `on_tool_error` have it. */
  function ApplyEvent(calls: seq<ToolCallRecord>, e: ToolEvent): seq<ToolCallRecord>
  {
    match e
    case ToolStarted(name, input, at) => calls + [StartedCall(name, input, at)]
    case ToolEnded(output, at) =>
      if calls == [] then [] else calls[|calls| - 1 := EndedCall(calls[|calls| - 1], output, at)]
    case ToolFailed(error, at) =>
      if calls == [] then [] else calls[|calls| - 1 := FailedCall(calls[|calls| - 1], error, at)]
  }

  /** The calls after a run of callbacks, applied in order. */
  function Replay(calls: seq<ToolCallRecord>, events: seq<ToolEvent>): seq<ToolCallRecord>
    decreases |events|
  {
    if events == [] then calls else Replay(ApplyEvent(calls, events[0]), events[1..])
  }

  /** The number of tool runs that started among the callbacks. */
  function StartCount(events: seq<ToolEvent>): nat
  {
    if events == [] then 0 else (if events[0].ToolStarted? then 1 else 0) + StartCount(events[1..])
  }

  /** Every started tool adds one call, and ending or failing one adds none. */
  lemma {:induction false} ReplayLength(calls: seq<ToolCallRecord>, events: seq<ToolEvent>)
    ensures |Replay(calls, events)| == |calls| + StartCount(events)
    decreases |events|
  {
    if events != [] {
      ReplayLength(ApplyEvent(calls, events[0]), events[1..]);
    }
  }

  /**
   * Calls recorded earlier are untouched by a run of callbacks that starts
   * a tool before ending or failing one: the new calls are appended.
   */
  lemma {:induction false} ReplayAppends(before: seq<ToolCallRecord>, calls: seq<ToolCallRecord>, events: seq<ToolEvent>)
    requires calls != [] || events == [] || events[0].ToolStarted?
    ensures Replay(before + calls, events) == before + Replay(calls, events)
    decreases |events|
  {
    if events != [] {
      var e := events[0];
      var next := ApplyEvent(calls, e);
      if !e.ToolStarted? {
        assert (before + calls)[|before + calls| - 1] == calls[|calls| - 1];
      }
      assert ApplyEvent(before + calls, e) == before + next;
      ReplayAppends(before, next, events[1..]);
    }
  }

  /** Python truthiness of an optional string. */
  predicate Truthy(s: Option<string>)
  {
    s.Some? && s.value != []
  }

  /** The three summary lines of the `number`-th call. */
  function CallLines(number: nat, c: ToolCallRecord): seq<string>
  {
    [ NatToString(number) + ". " + c.toolName + ": " + (if Truthy(c.error) then "❌ ERROR" else "✅ OK"),
      "   Input: " + Take(c.input, 200),
      if Truthy(c.error) then "   Error: " + Take(c.error.value, 200)
      else "   Output: " + (if Truthy(c.output) then Take(c.output.value, 300) else "None") ]
  }

  /** The summary lines of all calls, numbered from 1 in list order. */
  function AllCallLines(calls: seq<ToolCallRecord>): seq<string>
  {
    if calls == [] then []
    else AllCallLines(calls[..|calls| - 1]) + CallLines(|calls|, calls[|calls| - 1])
  }

  /** `get_summary` as text. */
  function SummaryText(calls: seq<ToolCallRecord>): string
  {
    if calls == [] then NO_TOOL_CALLS else Join(AllCallLines(calls), "\n")
  }

  /** Each call contributes three lines, the `k`-th call's lines at positions 3k..3k+2. */
  lemma {:induction false} AllCallLinesLayout(calls: seq<ToolCallRecord>)
    ensures |AllCallLines(calls)| == 3 * |calls|
    ensures forall k :: 0 <= k < |calls| ==> AllCallLines(calls)[3 * k..3 * k + 3] == CallLines(k + 1, calls[k])
  {
    if calls != [] {
      var init := calls[..|calls| - 1];
      AllCallLinesLayout(init);
      var lines := AllCallLines(calls);
      assert lines == AllCallLines(init) + CallLines(|calls|, calls[|calls| - 1]);
      forall k | 0 <= k < |calls|
        ensures lines[3 * k..3 * k + 3] == CallLines(k + 1, calls[k])
      {
        if k < |calls| - 1 {
          assert lines[3 * k..3 * k + 3] == AllCallLines(init)[3 * k..3 * k + 3];
          assert init[k] == calls[k];
        } else {
          assert lines[3 * k..3 * k + 3] == CallLines(|calls|, calls[|calls| - 1]);
        }
      }
    }
  }

  /** The header line of the `k`-th call reports ERROR exactly when that call has an error. */
  lemma SummaryHeaderReportsError(calls: seq<ToolCallRecord>, k: nat)
    requires k < |calls|
    ensures |AllCallLines(calls)| == 3 * |calls|
    ensures var header := AllCallLines(calls)[3 * k];
      header == NatToString(k + 1) + ". " + calls[k].toolName + ": "
                + (if Truthy(calls[k].error) then "❌ ERROR" else "✅ OK")
  {
    AllCallLinesLayout(calls);
    assert AllCallLines(calls)[3 * k] == AllCallLines(calls)[3 * k..3 * k + 3][0];
  }

  /** `AllureToolCallbackHandler` */
  class ToolCallRecorder {
    var toolCalls: seq<ToolCallRecord>
    var executionProgress: Option<ExecutionProgress>
    var objectiveProgress: Option<ObjectiveProgress>
    var currentRecord: Option<StepExecutionRecord>

    constructor ()
      ensures toolCalls == [] && executionProgress == None && objectiveProgress == None && currentRecord == None
    {
      toolCalls := [];
      executionProgress := None;
      objectiveProgress := None;
      currentRecord := None;
    }

    /** The attached execution progress, as a frame. */
    function ExecutionFrame(): set<object>
      reads this
    {
      if executionProgress.Some? then {executionProgress.value} else {}
    }

    /** The step record being filled, as a frame. */
    function RecordFrame(): set<object>
      reads this
    {
      if currentRecord.Some? then {currentRecord.value} else {}
    }

    method SetExecutionProgress(p: ExecutionProgress)
      modifies this
      ensures executionProgress == Some(p)
      ensures toolCalls == old(toolCalls) && objectiveProgress == old(objectiveProgress) && currentRecord == old(currentRecord)
    {
      executionProgress := Some(p);
    }

    method SetObjectiveProgress(p: ObjectiveProgress)
      modifies this
      ensures objectiveProgress == Some(p)
      ensures toolCalls == old(toolCalls) && executionProgress == old(executionProgress) && currentRecord == old(currentRecord)
    {
      objectiveProgress := Some(p);
    }

    /**
     * `start_step`: a new in-progress record becomes the current one; with
     * execution progress attached it is also appended there and the
     * progress cursor moves to `index`.
     */
    method StartStep(index: int, text: string, now: int) returns (record: StepExecutionRecord)
      modifies this, ExecutionFrame()
      ensures fresh(record)
      ensures record.stepIndex == index && record.stepText == text && record.toolCalls == []
      ensures record.status == RecordInProgress && record.startedAt == Some(now)
      ensures currentRecord == Some(record)
      ensures toolCalls == old(toolCalls) && executionProgress == old(executionProgress)
      ensures objectiveProgress == old(objectiveProgress)
      ensures executionProgress.Some? ==>
        (var p := executionProgress.value;
         p.records == old(p.records) + [record] && p.currentStepIndex == index && p.originalPlan == old(p.originalPlan))
    {
      record := new StepExecutionRecord(index, text, RecordInProgress, Some(now));
      currentRecord := Some(record);
      if executionProgress.Some? {
        var p := executionProgress.value;
        p.records := p.records + [record];
        p.currentStepIndex := index;
      }
    }

    /**
     * `complete_step`: closes the current record as completed or failed with
     * the agent's response and forgets it; nothing happens without one.
     */
    method CompleteStep(response: string, success: bool, now: int)
      modifies this, RecordFrame()
      ensures old(currentRecord).Some? ==>
        (var r := old(currentRecord).value;
         r.completedAt == Some(now) && r.agentResponse == Some(response)
         && r.status == (if success then RecordCompleted else RecordFailed)
         && r.toolCalls == old(r.toolCalls) && r.stepIndex == old(r.stepIndex) && r.stepText == old(r.stepText))
      ensures currentRecord == None
      ensures toolCalls == old(toolCalls) && executionProgress == old(executionProgress)
      ensures objectiveProgress == old(objectiveProgress)
    {
      if currentRecord.Some? {
        var r := currentRecord.value;
        r.completedAt := Some(now);
        r.agentResponse := Some(response);
        r.status := if success then RecordCompleted else RecordFailed;
        currentRecord := None;
      }
    }

    /** `get_last_tool_name`: None for an empty call list. */
    function LastToolName(): (r: Option<string>)
      reads this
      ensures r.None? <==> toolCalls == []
      ensures r.Some? ==> r.value == toolCalls[|toolCalls| - 1].toolName
    {
      if toolCalls == [] then None else Some(toolCalls[|toolCalls| - 1].toolName)
    }

    /** `get_summary`: the numbered OK/ERROR lines of the recorded calls, in order. */
    method GetSummary() returns (s: string)
      ensures s == SummaryText(toolCalls)
    {
      if toolCalls == [] {
        return NO_TOOL_CALLS;
      }
      var lines: seq<string> := [];
      var i := 0;
      while i < |toolCalls|
        invariant 0 <= i <= |toolCalls|
        invariant lines == AllCallLines(toolCalls[..i])
      {
        lines := lines + CallLines(i + 1, toolCalls[i]);
        i := i + 1;
        assert toolCalls[..i][..i - 1] == toolCalls[..i - 1];
      }
      assert toolCalls[..i] == toolCalls;
      s := Join(lines, "\n");
    }

    /**
     * `get_progress_summary`: the objective summary (given as text) and a
     * blank line when a ledger is attached, then the plan-step and tool-call
     * totals when execution progress is attached; a fixed text when neither.
     */
    function ProgressSummaryLines(objectiveSummary: string): (lines: seq<string>)
      reads this, ExecutionFrame(), if executionProgress.Some? then executionProgress.value.records else []
      ensures lines == [] <==> objectiveProgress.None? && executionProgress.None?
      ensures objectiveProgress.Some? ==> |lines| >= 2 && lines[..2] == [objectiveSummary, ""]
      ensures executionProgress.Some? ==>
        lines[|lines| - 1] == "【ツール呼び出し】 合計" + NatToString(executionProgress.value.TotalToolCalls()) + "回"
    {
      (if objectiveProgress.Some? then [objectiveSummary, ""] else [])
      + (if executionProgress.Some? then
           var p := executionProgress.value;
           [ "【LLM実行計画】 " + NatToString(p.CompletedCount()) + "/" + NatToString(|p.originalPlan|) + " ステップ完了",
             "【ツール呼び出し】 合計" + NatToString(p.TotalToolCalls()) + "回" ]
         else [])
    }

    function ProgressSummary(objectiveSummary: string): string
      reads this, ExecutionFrame(), if executionProgress.Some? then executionProgress.value.records else []
    {
      var lines := ProgressSummaryLines(objectiveSummary);
      if lines == [] then NO_PROGRESS else Join(lines, "\n")
    }

    /**
     * `on_tool_start`: appends exactly one open call to the list and, while a
     * step is active, one matching record to that step.
     */
    method OnToolStart(name: Option<string>, input: Option<string>, now: int)
      modifies this, RecordFrame()
      ensures toolCalls == old(toolCalls) + [StartedCall(name, input, now)]
      ensures old(currentRecord).Some? ==>
        (var r := old(currentRecord).value;
         r.toolCalls == old(r.toolCalls) + [StartedCall(name, input, now)]
         && r.status == old(r.status) && r.agentResponse == old(r.agentResponse)
         && r.stepIndex == old(r.stepIndex) && r.stepText == old(r.stepText))
      ensures currentRecord == old(currentRecord) && executionProgress == old(executionProgress)
      ensures objectiveProgress == old(objectiveProgress)
    {
      var call := StartedCall(name, input, now);
      toolCalls := toolCalls + [call];
      if currentRecord.Some? {
        var r := currentRecord.value;
        r.toolCalls := r.toolCalls + [call];
      }
    }

    /** `on_tool_end`: completes the last call and the last call of the active step, if any. */
    method OnToolEnd(output: Option<string>, now: int)
      modifies this, RecordFrame()
      ensures old(toolCalls) == [] ==> toolCalls == []
      ensures old(toolCalls) != [] ==>
        toolCalls == old(toolCalls)[|old(toolCalls)| - 1 := EndedCall(old(toolCalls)[|old(toolCalls)| - 1], output, now)]
      ensures old(currentRecord).Some? ==>
        (var r := old(currentRecord).value;
         (old(r.toolCalls) == [] ==> r.toolCalls == [])
         && (old(r.toolCalls) != [] ==>
               r.toolCalls == old(r.toolCalls)[|old(r.toolCalls)| - 1 := EndedCall(old(r.toolCalls)[|old(r.toolCalls)| - 1], output, now)])
         && r.status == old(r.status) && r.agentResponse == old(r.agentResponse)
         && r.stepIndex == old(r.stepIndex) && r.stepText == old(r.stepText))
      ensures currentRecord == old(currentRecord) && executionProgress == old(executionProgress)
      ensures objectiveProgress == old(objectiveProgress)
    {
      if toolCalls != [] {
        toolCalls := toolCalls[|toolCalls| - 1 := EndedCall(toolCalls[|toolCalls| - 1], output, now)];
      }
      if currentRecord.Some? && currentRecord.value.toolCalls != [] {
        var r := currentRecord.value;
        r.toolCalls := r.toolCalls[|r.toolCalls| - 1 := EndedCall(r.toolCalls[|r.toolCalls| - 1], output, now)];
      }
    }

    /** `on_tool_error`: marks the last call, and the active step's last call, as failed. */
    method OnToolError(error: string, now: int)
      modifies this, RecordFrame()
      ensures old(toolCalls) == [] ==> toolCalls == []
      ensures old(toolCalls) != [] ==>
        toolCalls == old(toolCalls)[|old(toolCalls)| - 1 := FailedCall(old(toolCalls)[|old(toolCalls)| - 1], error, now)]
      ensures old(currentRecord).Some? ==>
        (var r := old(currentRecord).value;
         (old(r.toolCalls) == [] ==> r.toolCalls == [])
         && (old(r.toolCalls) != [] ==>
               r.toolCalls == old(r.toolCalls)[|old(r.toolCalls)| - 1 := FailedCall(old(r.toolCalls)[|old(r.toolCalls)| - 1], error, now)])
         && r.status == old(r.status) && r.agentResponse == old(r.agentResponse)
         && r.stepIndex == old(r.stepIndex) && r.stepText == old(r.stepText))
      ensures currentRecord == old(currentRecord) && executionProgress == old(executionProgress)
      ensures objectiveProgress == old(objectiveProgress)
    {
      if toolCalls != [] {
        toolCalls := toolCalls[|toolCalls| - 1 := FailedCall(toolCalls[|toolCalls| - 1], error, now)];
      }
      if currentRecord.Some? && currentRecord.value.toolCalls != [] {
        var r := currentRecord.value;
        r.toolCalls := r.toolCalls[|r.toolCalls| - 1 := FailedCall(r.toolCalls[|r.toolCalls| - 1], error, now)];
      }
    }

    /**
     * The callbacks the agent triggers while it works on a step, in order:
     * both the flat list and the active step's record receive them.
     */
    method ReplayEvents(events: seq<ToolEvent>)
      modifies this, RecordFrame()
      ensures toolCalls == Replay(old(toolCalls), events)
      ensures old(currentRecord).Some? ==>
        (var r := old(currentRecord).value;
         r.toolCalls == Replay(old(r.toolCalls), events)
         && r.status == old(r.status) && r.agentResponse == old(r.agentResponse)
         && r.stepIndex == old(r.stepIndex) && r.stepText == old(r.stepText))
      ensures currentRecord == old(currentRecord) && executionProgress == old(executionProgress)
      ensures objectiveProgress == old(objectiveProgress)
    {
      var i := 0;
      while i < |events|
        invariant 0 <= i <= |events|
        invariant Replay(toolCalls, events[i..]) == Replay(old(toolCalls), events)
        invariant currentRecord == old(currentRecord) && executionProgress == old(executionProgress)
        invariant objectiveProgress == old(objectiveProgress)
        invariant currentRecord.Some? ==>
          (var r := currentRecord.value;
           Replay(r.toolCalls, events[i..]) == Replay(old(r.toolCalls), events)
           && r.status == old(r.status) && r.agentResponse == old(r.agentResponse)
           && r.stepIndex == old(r.stepIndex) && r.stepText == old(r.stepText))
      {
        assert events[i..][1..] == events[i + 1..];
        match events[i] {
          case ToolStarted(name, input, at) => OnToolStart(name, input, at);
          case ToolEnded(output, at) => OnToolEnd(output, at);
          case ToolFailed(error, at) => OnToolError(error, at);
        }
        i := i + 1;
      }
    }

    /** `clear`: forgets the flat call list only. */
    method Clear()
      modifies this
      ensures toolCalls == []
      ensures currentRecord == old(currentRecord) && executionProgress == old(executionProgress)
      ensures objectiveProgress == old(objectiveProgress)
    {
      toolCalls := [];
    }

    /** `reset_progress`: detaches everything and forgets the call list. */
    method ResetProgress()
      modifies this
      ensures toolCalls == [] && executionProgress == None && objectiveProgress == None && currentRecord == None
    {
      executionProgress := None;
      objectiveProgress := None;
      currentRecord := None;
      toolCalls := [];
    }
  }
}
