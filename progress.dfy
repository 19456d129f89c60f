// Progress bookkeeping of a test run: the ledger of user objectives
// (ObjectiveProgress) with its recovery steps and per-step execution-plan
// cursor, and the record of executed plan steps (ExecutionProgress).
module Progress {
  import opened Wrappers

  datatype StepType = Objective | Recovery

  datatype StepStatus = Pending | InProgress | Completed | Failed | Skipped

  /** One action the agent carried out while pursuing a step. */
  datatype ExecutedAction = ExecutedAction(action: string, toolName: string, result: string, timestamp: int, success: bool)

  /** The evaluator's verdict on whether a step's goal is reached. */
  datatype StepResult = StepResult(achieved: bool, evidence: string)

  /**
   * A user objective or a recovery step inserted to get past a blocker.
   * `planIndex` is the cursor into `plan`, the execution plan made for it.
   */
  datatype ObjectiveStep = ObjectiveStep(
    index: int,
    description: string,
    stepType: StepType,
    status: StepStatus,
    plan: seq<string>,
    planIndex: nat,
    actions: seq<ExecutedAction>,
    parentIndex: Option<nat>,
    blockingReason: Option<string>,
    evidence: Option<string>,
    result: Option<StepResult>,
    handlingDialog: bool,
    dialogCount: int)
  {
    /** The plan steps not yet executed (`execution_plan[execution_plan_index:]`). */
    function RemainingPlan(): (r: seq<string>)
      ensures planIndex <= |plan| ==> plan == plan[..planIndex] + r
      ensures planIndex >= |plan| <==> r == []
    {
      if planIndex <= |plan| then plan[planIndex..] else []
    }

    predicate PlanCompleted()
    {
      planIndex >= |plan|
    }
  }

  /** A freshly parsed user objective: pending, with an empty plan. */
  function NewObjective(index: nat, description: string): ObjectiveStep
  {
    ObjectiveStep(index, description, Objective, Pending, [], 0, [], None, None, None, None, false, 0)
  }

  /** The recovery step `insert_recovery_step` creates. */
  function NewRecoveryStep(pos: nat, parent: nat, description: string, reason: string, plan: seq<string>): ObjectiveStep
  {
    ObjectiveStep(pos, description, Recovery, Pending, plan, 0, [], Some(parent), Some(reason), None, None, false, 0)
  }

  predicate PlanCursorOk(s: ObjectiveStep)
  {
    s.planIndex <= |s.plan|
  }

  predicate PlanCursorsOk(steps: seq<ObjectiveStep>)
  {
    forall i :: 0 <= i < |steps| ==> PlanCursorOk(steps[i])
  }

  /** Every step's `index` field is its position in the list. */
  predicate IndicesMatch(steps: seq<ObjectiveStep>)
  {
    forall i :: 0 <= i < |steps| ==> steps[i].index == i
  }

  // ---------------------------------------------------------------------
  // Objective-only counts
  // ---------------------------------------------------------------------

  /** `get_objective_steps_only`: the objective steps, in list order. */
  function ObjectivesOnly(steps: seq<ObjectiveStep>): (r: seq<ObjectiveStep>)
    ensures |r| <= |steps|
    ensures forall i :: 0 <= i < |r| ==> r[i].stepType == Objective
  {
    if steps == [] then []
    else (if steps[0].stepType == Objective then [steps[0]] else []) + ObjectivesOnly(steps[1..])
  }

  /** The number of steps in `steps` whose status is completed. */
  function CountCompleted(steps: seq<ObjectiveStep>): nat
  {
    if steps == [] then 0
    else (if steps[0].status == Completed then 1 else 0) + CountCompleted(steps[1..])
  }

  /** `get_total_objectives_count` */
  function TotalObjectives(steps: seq<ObjectiveStep>): nat
  {
    |ObjectivesOnly(steps)|
  }

  /** `get_completed_objectives_count` */
  function CompletedObjectives(steps: seq<ObjectiveStep>): nat
  {
    CountCompleted(ObjectivesOnly(steps))
  }

  /** `is_all_objectives_completed`: false when there is no objective at all. */
  predicate AllObjectivesCompleted(steps: seq<ObjectiveStep>)
  {
    var objectives := ObjectivesOnly(steps);
    objectives != [] && forall i :: 0 <= i < |objectives| ==> objectives[i].status == Completed
  }

  /** The completed count never exceeds the list, and reaches it exactly when every step is completed. */
  lemma {:induction false} CountCompletedBounds(steps: seq<ObjectiveStep>)
    ensures CountCompleted(steps) <= |steps|
    ensures CountCompleted(steps) == |steps| <==> forall i :: 0 <= i < |steps| ==> steps[i].status == Completed
  {
    if steps != [] {
      CountCompletedBounds(steps[1..]);
      if forall i :: 0 <= i < |steps| - 1 ==> steps[1..][i].status == Completed {
        if steps[0].status == Completed {
          forall i | 0 <= i < |steps|
            ensures steps[i].status == Completed
          {
            if i > 0 {
              assert steps[i] == steps[1..][i - 1];
            }
          }
        }
      }
    }
  }

  lemma CompletedAtMostTotal(steps: seq<ObjectiveStep>)
    ensures CompletedObjectives(steps) <= TotalObjectives(steps)
  {
    CountCompletedBounds(ObjectivesOnly(steps));
  }

  /** All objectives are completed exactly when the completed count reaches a non-zero total. */
  lemma AllCompletedIffCounts(steps: seq<ObjectiveStep>)
    ensures AllObjectivesCompleted(steps)
      <==> TotalObjectives(steps) > 0 && CompletedObjectives(steps) == TotalObjectives(steps)
  {
    CountCompletedBounds(ObjectivesOnly(steps));
  }

  lemma {:induction false} ObjectivesOnlyConcat(a: seq<ObjectiveStep>, b: seq<ObjectiveStep>)
    ensures ObjectivesOnly(a + b) == ObjectivesOnly(a) + ObjectivesOnly(b)
  {
    if a != [] {
      assert (a + b)[1..] == a[1..] + b;
      ObjectivesOnlyConcat(a[1..], b);
    } else {
      assert a + b == b;
    }
  }

  /** Two lists whose steps agree position by position on type and status. */
  predicate SameKinds(a: seq<ObjectiveStep>, b: seq<ObjectiveStep>)
  {
    |a| == |b| && forall i :: 0 <= i < |a| ==> a[i].stepType == b[i].stepType && a[i].status == b[i].status
  }

  lemma {:induction false} SameKindsCounts(a: seq<ObjectiveStep>, b: seq<ObjectiveStep>)
    requires SameKinds(a, b)
    ensures SameKinds(ObjectivesOnly(a), ObjectivesOnly(b))
    ensures CountCompleted(a) == CountCompleted(b)
  {
    if a != [] {
      assert SameKinds(a[1..], b[1..]);
      SameKindsCounts(a[1..], b[1..]);
      var ra, rb := ObjectivesOnly(a[1..]), ObjectivesOnly(b[1..]);
      if a[0].stepType == Objective {
        assert ObjectivesOnly(a) == [a[0]] + ra;
        assert ObjectivesOnly(b) == [b[0]] + rb;
      }
    }
  }

  /** Steps of the same kinds in the same places give the same objective counts. */
  lemma SameKindsObjectiveCounts(a: seq<ObjectiveStep>, b: seq<ObjectiveStep>)
    requires SameKinds(a, b)
    ensures TotalObjectives(a) == TotalObjectives(b)
    ensures CompletedObjectives(a) == CompletedObjectives(b)
    ensures AllObjectivesCompleted(a) == AllObjectivesCompleted(b)
  {
    SameKindsCounts(a, b);
    SameKindsCounts(ObjectivesOnly(a), ObjectivesOnly(b));
    AllCompletedIffCounts(a);
    AllCompletedIffCounts(b);
  }

  // ---------------------------------------------------------------------
  // Inserting a recovery step
  // ---------------------------------------------------------------------

  /** Python's `list.insert(pos, x)`: a position past the end appends. */
  function PyInsert<T>(s: seq<T>, pos: nat, x: T): (r: seq<T>)
    ensures |r| == |s| + 1
    ensures pos <= |s| ==> r == s[..pos] + [x] + s[pos..]
    ensures pos >= |s| ==> r == s + [x]
  {
    if pos >= |s| then s + [x] else s[..pos] + [x] + s[pos..]
  }

  /** The re-numbering loop: every step at position `from` or later gets its position as index. */
  function ReindexFrom(s: seq<ObjectiveStep>, from: nat): (r: seq<ObjectiveStep>)
    ensures |r| == |s|
  {
    seq(|s|, k requires 0 <= k < |s| => if k >= from then s[k].(index := k) else s[k])
  }

  /** The step list after `insert_recovery_step` with the cursor at `cursor`. */
  function WithRecovery(steps: seq<ObjectiveStep>, cursor: nat, rec: ObjectiveStep): seq<ObjectiveStep>
  {
    ReindexFrom(PyInsert(steps, cursor + 1, rec), cursor + 2)
  }

  /** Inserting a step whose plan cursor is in bounds keeps every plan cursor in bounds. */
  lemma WithRecoveryKeepsPlanCursors(steps: seq<ObjectiveStep>, cursor: nat, rec: ObjectiveStep)
    requires PlanCursorsOk(steps) && PlanCursorOk(rec)
    ensures PlanCursorsOk(WithRecovery(steps, cursor, rec))
  {
    var inserted := PyInsert(steps, cursor + 1, rec);
    forall k | 0 <= k < |inserted|
      ensures PlanCursorOk(inserted[k])
    {
      if k < cursor + 1 && k < |steps| {
        assert inserted[k] == steps[k];
      } else if k > cursor + 1 && k <= |steps| {
        assert inserted[k] == steps[k - 1];
      }
    }
  }

  /**
   * Inserting after a cursor inside the list puts the recovery step right
   * after the cursor, keeps the earlier steps, and shifts the later steps by
   * one position, changing only their `index`.
   */
  lemma InsertRecoveryShape(steps: seq<ObjectiveStep>, cursor: nat, rec: ObjectiveStep)
    requires cursor < |steps|
    ensures var r := WithRecovery(steps, cursor, rec);
      |r| == |steps| + 1
      && r[..cursor + 1] == steps[..cursor + 1]
      && r[cursor + 1] == rec
      && forall k :: cursor + 1 < k < |r| ==> r[k] == steps[k - 1].(index := k)
  {
    var r := WithRecovery(steps, cursor, rec);
    forall k | 0 <= k < cursor + 1
      ensures r[k] == steps[k]
    {
    }
  }

  /** The index invariant survives an insertion behind a cursor inside the list. */
  lemma InsertRecoveryKeepsIndices(steps: seq<ObjectiveStep>, cursor: nat, parent: nat,
                                   description: string, reason: string, plan: seq<string>)
    requires IndicesMatch(steps) && cursor < |steps|
    ensures IndicesMatch(WithRecovery(steps, cursor, NewRecoveryStep(cursor + 1, parent, description, reason, plan)))
  {
    var rec := NewRecoveryStep(cursor + 1, parent, description, reason, plan);
    InsertRecoveryShape(steps, cursor, rec);
    var r := WithRecovery(steps, cursor, rec);
    forall k | 0 <= k < |r|
      ensures r[k].index == k
    {
      if k < cursor + 1 {
        assert r[k] == r[..cursor + 1][k] == steps[..cursor + 1][k];
      }
    }
  }

  /**
   * Into an empty list the recovery step is appended at position 0 while its
   * `index` is 1, so the index invariant does not hold afterwards.
   */
  lemma InsertIntoEmptyBreaksIndices(parent: nat, description: string, reason: string, plan: seq<string>)
    ensures var r := WithRecovery([], 0, NewRecoveryStep(1, parent, description, reason, plan));
      |r| == 1 && r[0].index == 1 && !IndicesMatch(r)
  {
  }

  /** Inserting a step that is not an objective leaves the objective list as it was. */
  lemma InsertedRecoveryObjectives(steps: seq<ObjectiveStep>, pos: nat, rec: ObjectiveStep)
    requires rec.stepType == Recovery
    ensures ObjectivesOnly(PyInsert(steps, pos, rec)) == ObjectivesOnly(steps)
  {
    assert ObjectivesOnly([rec]) == [];
    if pos >= |steps| {
      ObjectivesOnlyConcat(steps, [rec]);
    } else {
      ObjectivesOnlyConcat(steps[..pos], [rec]);
      ObjectivesOnlyConcat(steps[..pos] + [rec], steps[pos..]);
      ObjectivesOnlyConcat(steps[..pos], steps[pos..]);
      assert steps[..pos] + steps[pos..] == steps;
      assert PyInsert(steps, pos, rec) == (steps[..pos] + [rec]) + steps[pos..];
    }
  }

  /** Recovery steps never enter the objective counts. */
  lemma InsertRecoveryKeepsCounts(steps: seq<ObjectiveStep>, cursor: nat, rec: ObjectiveStep)
    requires rec.stepType == Recovery
    ensures TotalObjectives(WithRecovery(steps, cursor, rec)) == TotalObjectives(steps)
    ensures CompletedObjectives(WithRecovery(steps, cursor, rec)) == CompletedObjectives(steps)
    ensures AllObjectivesCompleted(WithRecovery(steps, cursor, rec)) == AllObjectivesCompleted(steps)
  {
    var ins := PyInsert(steps, cursor + 1, rec);
    var r := ReindexFrom(ins, cursor + 2);
    assert SameKinds(ins, r);
    SameKindsObjectiveCounts(ins, r);
    InsertedRecoveryObjectives(steps, cursor + 1, rec);
  }

  // ---------------------------------------------------------------------
  // Finding the next unfinished objective
  // ---------------------------------------------------------------------

  predicate Unfinished(s: ObjectiveStep)
  {
    s.stepType == Objective && (s.status == Pending || s.status == InProgress)
  }

  /** The first position at or after `from` holding an unfinished objective. */
  function FirstUnfinishedFrom(steps: seq<ObjectiveStep>, from: nat): (r: Option<nat>)
    requires from <= |steps|
    ensures r.Some? ==> (from <= r.value < |steps| && Unfinished(steps[r.value])
                         && forall j :: from <= j < r.value ==> !Unfinished(steps[j]))
    ensures r.None? ==> forall j :: from <= j < |steps| ==> !Unfinished(steps[j])
    decreases |steps| - from
  {
    if from == |steps| then None
    else if Unfinished(steps[from]) then Some(from)
    else FirstUnfinishedFrom(steps, from + 1)
  }

  /** Objectives that are finished stay out of the scan: a fully completed ledger has nothing left. */
  lemma AllCompletedHasNoUnfinished(steps: seq<ObjectiveStep>)
    requires AllObjectivesCompleted(steps)
    ensures FirstUnfinishedFrom(steps, 0).None?
  {
    var objectives := ObjectivesOnly(steps);
    forall j | 0 <= j < |steps| && steps[j].stepType == Objective
      ensures steps[j].status == Completed
    {
      ObjectiveInFilter(steps, j);
    }
  }

  lemma {:induction false} ObjectiveInFilter(steps: seq<ObjectiveStep>, j: nat)
    requires j < |steps| && steps[j].stepType == Objective
    ensures exists i :: 0 <= i < |ObjectivesOnly(steps)| && ObjectivesOnly(steps)[i] == steps[j]
  {
    if j == 0 {
      assert ObjectivesOnly(steps)[0] == steps[0];
    } else {
      ObjectiveInFilter(steps[1..], j - 1);
      var i :| 0 <= i < |ObjectivesOnly(steps[1..])| && ObjectivesOnly(steps[1..])[i] == steps[1..][j - 1];
      if steps[0].stepType == Objective {
        assert ObjectivesOnly(steps)[i + 1] == steps[j];
      } else {
        assert ObjectivesOnly(steps)[i] == steps[j];
      }
    }
  }

  // ---------------------------------------------------------------------
  // The ledger
  // ---------------------------------------------------------------------

  /**
   * `ObjectiveProgress`: the step list (objectives and recovery steps) and the
   * cursor `current_step_index`.  Steps are values here; a write to a field
   * of a step is an update of the list at that position.
   */
  class ObjectiveProgress {
    var originalInput: string
    var steps: seq<ObjectiveStep>
    var cursor: nat

    /** Every plan cursor is within its plan, and the cursor is on a step or at 0. */
    ghost predicate Valid()
      reads this
    {
      PlanCursorsOk(steps) && (cursor == 0 || cursor < |steps|)
    }

    constructor (input: string, initial: seq<ObjectiveStep>, start: nat)
      ensures originalInput == input && steps == initial && cursor == start
      ensures PlanCursorsOk(initial) && (start == 0 || start < |initial|) ==> Valid()
    {
      originalInput := input;
      steps := initial;
      cursor := start;
    }

    /** `get_current_step`: the step under the cursor, or None when the cursor is off the list. */
    function CurrentStep(): (r: Option<ObjectiveStep>)
      reads this
      ensures r.Some? <==> cursor < |steps|
      ensures r.Some? ==> r.value == steps[cursor]
    {
      if cursor < |steps| then Some(steps[cursor]) else None
    }

    function CompletedObjectivesCount(): nat
      reads this
    {
      CompletedObjectives(steps)
    }

    function TotalObjectivesCount(): nat
      reads this
    {
      TotalObjectives(steps)
    }

    predicate IsAllObjectivesCompleted()
      reads this
    {
      AllObjectivesCompleted(steps)
    }

    /**
     * `insert_recovery_step`: inserts a pending recovery step right after the
     * cursor, re-numbers the later steps and returns the insertion position.
     */
    method InsertRecoveryStep(parent: nat, description: string, reason: string, plan: seq<string>) returns (pos: nat)
      modifies this
      ensures pos == old(cursor) + 1
      ensures steps == WithRecovery(old(steps), old(cursor), NewRecoveryStep(pos, parent, description, reason, plan))
      ensures cursor == old(cursor) && originalInput == old(originalInput)
      ensures old(Valid()) ==> Valid()
      ensures old(IndicesMatch(steps)) && old(cursor) < old(|steps|) ==> IndicesMatch(steps)
    {
      pos := cursor + 1;
      var rec := NewRecoveryStep(pos, parent, description, reason, plan);
      ghost var before := steps;
      steps := PyInsert(steps, pos, rec);
      RenumberFrom(pos + 1);
      assert steps == WithRecovery(before, cursor, rec) && |steps| == |before| + 1;
      if PlanCursorsOk(before) {
        WithRecoveryKeepsPlanCursors(before, cursor, rec);
      }
      if IndicesMatch(before) && cursor < |before| {
        InsertRecoveryKeepsIndices(before, cursor, parent, description, reason, plan);
      }
    }

    /** The re-numbering loop of `insert_recovery_step`: each step from `from` on gets its position as index. */
    method RenumberFrom(from: nat)
      modifies this
      ensures steps == ReindexFrom(old(steps), from)
      ensures cursor == old(cursor) && originalInput == old(originalInput)
    {
      var i := from;
      while i < |steps|
        invariant |steps| == |old(steps)|
        invariant cursor == old(cursor) && originalInput == old(originalInput)
        invariant forall k :: 0 <= k < |steps| ==>
          steps[k] == if from <= k < i then old(steps)[k].(index := k) else old(steps)[k]
      {
        steps := steps[i := steps[i].(index := i)];
        i := i + 1;
      }
    }

    /** `advance_to_next_step`: moves the cursor one step on unless it is on the last step. */
    method AdvanceToNextStep() returns (moved: bool)
      modifies this
      ensures moved <==> old(cursor) + 1 < |old(steps)|
      ensures moved ==> (cursor == old(cursor) + 1
                         && steps == old(steps)[cursor := old(steps)[cursor].(status := InProgress)])
      ensures !moved ==> cursor == old(cursor) && steps == old(steps)
      ensures originalInput == old(originalInput)
      ensures old(Valid()) ==> Valid()
    {
      if cursor + 1 < |steps| {
        cursor := cursor + 1;
        steps := steps[cursor := steps[cursor].(status := InProgress)];
        moved := true;
      } else {
        moved := false;
      }
    }

    /**
     * `return_to_parent_objective`: from a recovery step whose parent lies
     * inside the list, re-opens the parent and moves the cursor to it.
     */
    method ReturnToParentObjective() returns (ok: bool)
      modifies this
      ensures ok <==> (old(cursor) < |old(steps)| && old(steps)[old(cursor)].stepType == Recovery
                       && old(steps)[old(cursor)].parentIndex.Some?
                       && old(steps)[old(cursor)].parentIndex.value < |old(steps)|)
      ensures ok ==> (cursor == old(steps)[old(cursor)].parentIndex.value
                      && steps == old(steps)[cursor := old(steps)[cursor].(status := InProgress)])
      ensures !ok ==> cursor == old(cursor) && steps == old(steps)
      ensures originalInput == old(originalInput)
      ensures old(Valid()) ==> Valid()
    {
      ok := false;
      var current := CurrentStep();
      if current.Some? && current.value.stepType == Recovery && current.value.parentIndex.Some? {
        var parent := current.value.parentIndex.value;
        if parent < |steps| {
          steps := steps[parent := steps[parent].(status := InProgress)];
          cursor := parent;
          ok := true;
        }
      }
    }

    /** `mark_current_completed`: the current step becomes completed with the given evidence. */
    method MarkCurrentCompleted(evidence: string)
      modifies this
      ensures old(cursor) < |old(steps)| ==>
        steps == old(steps)[old(cursor) := old(steps)[old(cursor)].(status := Completed, evidence := Some(evidence))]
      ensures old(cursor) >= |old(steps)| ==> steps == old(steps)
      ensures cursor == old(cursor) && originalInput == old(originalInput)
      ensures old(Valid()) ==> Valid()
    {
      if cursor < |steps| {
        steps := steps[cursor := steps[cursor].(status := Completed, evidence := Some(evidence))];
      }
    }

    /** `mark_current_failed`: the current step becomes failed with the reason as evidence. */
    method MarkCurrentFailed(reason: string)
      modifies this
      ensures old(cursor) < |old(steps)| ==>
        steps == old(steps)[old(cursor) := old(steps)[old(cursor)].(status := Failed, evidence := Some(reason))]
      ensures old(cursor) >= |old(steps)| ==> steps == old(steps)
      ensures cursor == old(cursor) && originalInput == old(originalInput)
      ensures old(Valid()) ==> Valid()
    {
      if cursor < |steps| {
        steps := steps[cursor := steps[cursor].(status := Failed, evidence := Some(reason))];
      }
    }

    /**
     * `advance_to_next_objective`: scans from the start of the list (not from
     * the cursor) for the first pending or in-progress objective, makes it
     * in progress and moves the cursor there.
     */
    method AdvanceToNextObjective() returns (found: bool)
      modifies this
      ensures found <==> FirstUnfinishedFrom(old(steps), 0).Some?
      ensures found ==> (cursor == FirstUnfinishedFrom(old(steps), 0).value
                         && steps == old(steps)[cursor := old(steps)[cursor].(status := InProgress)])
      ensures !found ==> cursor == old(cursor) && steps == old(steps)
      ensures originalInput == old(originalInput)
      ensures old(Valid()) ==> Valid()
    {
      var i := 0;
      while i < |steps|
        invariant 0 <= i <= |steps|
        invariant FirstUnfinishedFrom(steps, 0) == FirstUnfinishedFrom(steps, i)
      {
        if Unfinished(steps[i]) {
          steps := steps[i := steps[i].(status := InProgress)];
          cursor := i;
          return true;
        }
        i := i + 1;
      }
      return false;
    }

    /** `set_current_execution_plan`: gives the current step a new plan and rewinds its cursor. */
    method SetCurrentExecutionPlan(plan: seq<string>)
      modifies this
      ensures old(cursor) < |old(steps)| ==>
        steps == old(steps)[old(cursor) := old(steps)[old(cursor)].(plan := plan, planIndex := 0)]
      ensures old(cursor) >= |old(steps)| ==> steps == old(steps)
      ensures cursor == old(cursor) && originalInput == old(originalInput)
      ensures old(Valid()) ==> Valid()
    {
      if cursor < |steps| {
        steps := steps[cursor := steps[cursor].(plan := plan, planIndex := 0)];
      }
    }

    /**
     * `advance_current_execution_plan`: moves the current step's plan cursor
     * by one unless it is at the end; false when there is no current step.
     */
    method AdvanceCurrentExecutionPlan() returns (advanced: bool)
      modifies this
      ensures advanced <==> old(cursor) < |old(steps)| && old(steps)[old(cursor)].planIndex < |old(steps)[old(cursor)].plan|
      ensures advanced ==> steps == old(steps)[old(cursor) := old(steps)[old(cursor)].(planIndex := old(steps)[old(cursor)].planIndex + 1)]
      ensures !advanced ==> steps == old(steps)
      ensures cursor == old(cursor) && originalInput == old(originalInput)
      ensures old(Valid()) ==> Valid()
    {
      advanced := false;
      if cursor < |steps| && steps[cursor].planIndex < |steps[cursor].plan| {
        steps := steps[cursor := steps[cursor].(planIndex := steps[cursor].planIndex + 1)];
        advanced := true;
      }
    }

    /** `get_current_remaining_plan`: empty when there is no current step. */
    function CurrentRemainingPlan(): (r: seq<string>)
      reads this
      ensures cursor >= |steps| ==> r == []
      ensures cursor < |steps| ==> r == steps[cursor].RemainingPlan()
    {
      match CurrentStep()
      case Some(s) => s.RemainingPlan()
      case None => []
    }

    /** `is_current_execution_completed`: true when there is no current step. */
    predicate IsCurrentExecutionCompleted()
      reads this
    {
      match CurrentStep()
      case Some(s) => s.PlanCompleted()
      case None => true
    }

    /** `enter_dialog_handling_mode`: sets the current step's dialog flag (idempotent). */
    method EnterDialogHandlingMode()
      modifies this
      ensures old(cursor) < |old(steps)| ==> steps == old(steps)[old(cursor) := old(steps)[old(cursor)].(handlingDialog := true)]
      ensures old(cursor) >= |old(steps)| ==> steps == old(steps)
      ensures cursor == old(cursor) && originalInput == old(originalInput)
      ensures old(Valid()) ==> Valid()
    {
      var current := CurrentStep();
      if current.Some? && !current.value.handlingDialog {
        steps := steps[cursor := steps[cursor].(handlingDialog := true)];
      }
    }

    /** `exit_dialog_handling_mode`: clears the flag and keeps the dialog count. */
    method ExitDialogHandlingMode()
      modifies this
      ensures old(cursor) < |old(steps)| ==> steps == old(steps)[old(cursor) := old(steps)[old(cursor)].(handlingDialog := false)]
      ensures old(cursor) >= |old(steps)| ==> steps == old(steps)
      ensures cursor == old(cursor) && originalInput == old(originalInput)
      ensures old(Valid()) ==> Valid()
    {
      var current := CurrentStep();
      if current.Some? && current.value.handlingDialog {
        steps := steps[cursor := steps[cursor].(handlingDialog := false)];
      }
    }

    predicate IsHandlingDialog()
      reads this
    {
      match CurrentStep()
      case Some(s) => s.handlingDialog
      case None => false
    }

    /** `increment_dialog_handling_count`: the count grows by one; the plan cursor does not move. */
    method IncrementDialogHandlingCount()
      modifies this
      ensures old(cursor) < |old(steps)| ==>
        steps == old(steps)[old(cursor) := old(steps)[old(cursor)].(dialogCount := old(steps)[old(cursor)].dialogCount + 1)]
      ensures old(cursor) >= |old(steps)| ==> steps == old(steps)
      ensures cursor == old(cursor) && originalInput == old(originalInput)
      ensures old(Valid()) ==> Valid()
    {
      if cursor < |steps| {
        steps := steps[cursor := steps[cursor].(dialogCount := steps[cursor].dialogCount + 1)];
      }
    }

    function DialogHandlingCount(): int
      reads this
    {
      match CurrentStep()
      case Some(s) => s.dialogCount
      case None => 0
    }
  }

  // ---------------------------------------------------------------------
  // Execution progress: records of executed plan steps
  // ---------------------------------------------------------------------

  datatype RecordStatus = RecordPending | RecordInProgress | RecordCompleted | RecordFailed

  /** One tool invocation inside a plan step. */
  datatype ToolCallRecord = ToolCallRecord(
    toolName: string, input: string, output: Option<string>, error: Option<string>,
    startTime: int, endTime: Option<int>)

  /** `StepExecutionRecord`: shared between the progress list and the recorder that fills it. */
  class StepExecutionRecord {
    var stepIndex: int
    var stepText: string
    var toolCalls: seq<ToolCallRecord>
    var status: RecordStatus
    var startedAt: Option<int>
    var completedAt: Option<int>
    var agentResponse: Option<string>

    constructor (index: int, text: string, status: RecordStatus, startedAt: Option<int>)
      ensures stepIndex == index && stepText == text && toolCalls == []
      ensures this.status == status && this.startedAt == startedAt
      ensures completedAt == None && agentResponse == None
    {
      stepIndex := index;
      stepText := text;
      toolCalls := [];
      this.status := status;
      this.startedAt := startedAt;
      completedAt := None;
      agentResponse := None;
    }
  }

  function CountCompletedRecords(records: seq<StepExecutionRecord>): (n: nat)
    reads records
    ensures n <= |records|
  {
    if records == [] then 0
    else (CountCompletedRecords(records[..|records| - 1])
          + if records[|records| - 1].status == RecordCompleted then 1 else 0)
  }

  function SumToolCalls(records: seq<StepExecutionRecord>): nat
    reads records
  {
    if records == [] then 0
    else SumToolCalls(records[..|records| - 1]) + |records[|records| - 1].toolCalls|
  }

  /** `ExecutionProgress`: the plan of the current run and the records of its executed steps. */
  class ExecutionProgress {
    var originalPlan: seq<string>
    var records: seq<StepExecutionRecord>
    var currentStepIndex: int

    constructor (plan: seq<string>)
      ensures originalPlan == plan && records == [] && currentStepIndex == 0
    {
      originalPlan := plan;
      records := [];
      currentStepIndex := 0;
    }

    /** `get_completed_count`: the records whose status is completed. */
    function CompletedCount(): nat
      reads this, records
    {
      CountCompletedRecords(records)
    }

    /** `get_total_tool_calls`: tool calls summed over every record. */
    function TotalToolCalls(): nat
      reads this, records
    {
      SumToolCalls(records)
    }
  }

  /** Over joined record lists, the completed count and the tool-call total are the sums of the parts. */
  lemma {:induction false} RecordCountsConcat(a: seq<StepExecutionRecord>, b: seq<StepExecutionRecord>)
    ensures CountCompletedRecords(a + b) == CountCompletedRecords(a) + CountCompletedRecords(b)
    ensures SumToolCalls(a + b) == SumToolCalls(a) + SumToolCalls(b)
    decreases |b|
  {
    if b == [] {
      assert a + b == a;
    } else {
      var front := b[..|b| - 1];
      RecordCountsConcat(a, front);
      assert (a + b)[..|a + b| - 1] == a + front;
      assert (a + b)[|a + b| - 1] == b[|b| - 1];
    }
  }

  /** One record is counted exactly when it is completed, and brings its own tool calls. */
  lemma RecordCountsOne(r: StepExecutionRecord)
    ensures CountCompletedRecords([r]) == (if r.status == RecordCompleted then 1 else 0)
    ensures SumToolCalls([r]) == |r.toolCalls|
  {
    assert [r][..0] == [];
  }
}
