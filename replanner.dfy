// The local arithmetic and normalisation around the replanner's language
// model calls: clamped remaining counts, the last-objective test, the
// PLAN/RESPONSE decision with its safe fallback, the remaining plan and
// objectives, and the planner's own fallback when replanning fails.
module Replanner {
  import opened Wrappers
  import opened Text
  import opened Models
  import opened Progress

  /** `max(len(original_plan) - len(past_steps), 0)` */
  function RemainingStepCount<A, B>(plan: seq<A>, past: seq<B>): (r: nat)
    ensures |past| <= |plan| ==> r + |past| == |plan|
    ensures |past| >= |plan| ==> r == 0
  {
    if |plan| - |past| > 0 then |plan| - |past| else 0
  }

  /** `original_plan[len(past_steps):]`, which is empty once the past is as long as the plan. */
  function RemainingPlan<A, B>(plan: seq<A>, past: seq<B>): (r: seq<A>)
    ensures |past| <= |plan| ==> plan == plan[..|past|] + r
    ensures |past| >= |plan| ==> r == []
  {
    if |past| <= |plan| then plan[|past|..] else []
  }

  /** The clamped count is exactly the length of the remaining plan. */
  lemma RemainingCountIsSliceLength<A, B>(plan: seq<A>, past: seq<B>)
    ensures RemainingStepCount(plan, past) == |RemainingPlan(plan, past)|
  {
  }

  /**
   * `is_last_objective`: the objectives left once the current one counts as
   * achieved are none, and it is achieved.  False without a ledger.
   */
  function IsLastObjective(ledger: Option<seq<ObjectiveStep>>, achieved: bool): bool
  {
    match ledger
    case None => false
    case Some(steps) =>
      var remainingAfterCurrent := TotalObjectives(steps) - CompletedObjectives(steps) - (if achieved then 1 else 0);
      remainingAfterCurrent <= 0 && achieved
  }

  /** The current objective is the last one exactly when it is achieved and at most one objective is open. */
  lemma IsLastObjectiveMeaning(steps: seq<ObjectiveStep>, achieved: bool)
    ensures IsLastObjective(Some(steps), achieved)
      <==> achieved && TotalObjectives(steps) - CompletedObjectives(steps) <= 1
    ensures IsLastObjective(Some(steps), achieved) && !AllObjectivesCompleted(steps)
      ==> TotalObjectives(steps) == 0 || CompletedObjectives(steps) + 1 == TotalObjectives(steps)
  {
    CompletedAtMostTotal(steps);
    AllCompletedIffCounts(steps);
  }

  datatype Decision = PlanDecision | ResponseDecision

  function DecisionName(d: Decision): string
  {
    match d
    case PlanDecision => "PLAN"
    case ResponseDecision => "RESPONSE"
  }

  /** The structured output of the decision stage: a decision word and a reason. */
  datatype DecisionOutput = DecisionOutput(decision: string, reason: string)

  const DECISION_FALLBACK_REASON: string := "構造化出力エラーのためフォールバック"

  /** The decision word stripped and upper-cased; anything but PLAN or RESPONSE is PLAN. */
  function NormalizeDecision(word: string): (d: Decision)
    ensures d == ResponseDecision <==> Upper(Strip(word)) == "RESPONSE"
  {
    var norm := Upper(Strip(word));
    if norm == "RESPONSE" then ResponseDecision else PlanDecision
  }

  /**
   * `decide_action` after the language model call: the normalised decision
   * and the stripped reason, or PLAN with the fallback reason when the call
   * failed.
   */
  function DecideAction(output: Result<DecisionOutput>): (r: (Decision, string))
    ensures output.Failure? ==> r == (PlanDecision, DECISION_FALLBACK_REASON)
    ensures output.Success? ==> r.1 == Strip(output.value.reason)
    ensures r.0 == ResponseDecision ==> output.Success? && Upper(Strip(output.value.decision)) == "RESPONSE"
  {
    match output
    case Failure(_) => (PlanDecision, DECISION_FALLBACK_REASON)
    case Success(o) => (NormalizeDecision(o.decision), Strip(o.reason))
  }

  /** Normalising the name of a decision gives that decision back. */
  lemma NormalizeDecisionName(d: Decision)
    ensures NormalizeDecision(DecisionName(d)) == d
  {
    var w := DecisionName(d);
    StripKeepsTrimmed(w);
    assert Upper(w) == w;
  }

  predicate IsOpen(s: ObjectiveStep)
  {
    s.status != Completed && s.status != Skipped
  }

  /**
   * The steps still to do in `build_plan`: those neither completed nor
   * skipped, in list order (recovery steps included).
   */
  function RemainingObjectives(steps: seq<ObjectiveStep>): (r: seq<ObjectiveStep>)
    ensures |r| <= |steps|
    ensures forall s :: s in r <==> s in steps && IsOpen(s)
  {
    if steps == [] then []
    else (if IsOpen(steps[0]) then [steps[0]] else []) + RemainingObjectives(steps[1..])
  }

  /** A single step is kept exactly when it is open. */
  lemma RemainingObjectivesOne(x: ObjectiveStep)
    ensures RemainingObjectives([x]) == if IsOpen(x) then [x] else []
  {
    assert [x][1..] == [];
  }

  /**
   * The open steps keep list order and multiplicity: together with
   * RemainingObjectivesOne, the filter distributes over concatenation.
   */
  lemma {:induction false} RemainingObjectivesConcat(a: seq<ObjectiveStep>, b: seq<ObjectiveStep>)
    ensures RemainingObjectives(a + b) == RemainingObjectives(a) + RemainingObjectives(b)
    decreases |a|
  {
    if a == [] {
      assert a + b == b;
    } else {
      var head := if IsOpen(a[0]) then [a[0]] else [];
      assert (a + b)[0] == a[0];
      assert (a + b)[1..] == a[1..] + b;
      RemainingObjectivesConcat(a[1..], b);
      calc {
        RemainingObjectives(a + b);
        head + RemainingObjectives(a[1..] + b);
        head + (RemainingObjectives(a[1..]) + RemainingObjectives(b));
        (head + RemainingObjectives(a[1..])) + RemainingObjectives(b);
        RemainingObjectives(a) + RemainingObjectives(b);
      }
    }
  }

  /** Once every objective is completed, only recovery steps can remain open. */
  lemma RemainingAfterAllCompleted(steps: seq<ObjectiveStep>)
    requires AllObjectivesCompleted(steps)
    ensures forall s :: s in RemainingObjectives(steps) ==> s.stepType == Recovery
  {
    forall j | 0 <= j < |steps| && steps[j].stepType == Objective
      ensures steps[j].status == Completed
    {
      ObjectiveInFilter(steps, j);
    }
  }

  const LOCATOR_SECTION_HEADER: string :=
    "\n【★重要★ 現在の画面ロケーター情報】\nブロッキングダイアログを閉じるために、以下のロケーター情報から適切なボタン（同意、OK、閉じる等）を見つけてください:\n"

  /**
   * The locator section of the plan prompt: empty unless the locator is
   * non-empty and the state analysis reported a blocking dialog, and then
   * the header followed by the locator itself.
   */
  function LocatorSection(locator: string, blockingDialogs: Option<string>): (r: string)
    ensures r != [] <==> (locator != [] && blockingDialogs.Some? && blockingDialogs.value != [])
    ensures r != [] ==> StartsWith(r, LOCATOR_SECTION_HEADER) && Contains(r, locator)
  {
    if locator != [] && blockingDialogs.Some? && blockingDialogs.value != [] then
      var r := LOCATOR_SECTION_HEADER + locator + "\n";
      assert OccursAt(r, locator, |LOCATOR_SECTION_HEADER|);
      r
    else ""
  }

  const FALLBACK_ABORT_PREFIX: string := "エラー発生のため処理を中断します: "

  /**
   * The planner's fallback when its multi-stage replan fails: the steps of
   * the plan not yet executed, or a PASS response when none are left.
   */
  function PlannerFallback(plan: seq<string>, past: seq<PastStep>, error: string): (a: Act)
    ensures a.PlanAct? <==> |past| < |plan|
    ensures a.PlanAct? ==> plan == plan[..|past|] + a.steps
    ensures a.ResponseAct? ==> a.status == Pass && a.reason == FALLBACK_ABORT_PREFIX + error
  {
    var remaining := RemainingPlan(plan, past);
    if remaining != [] then PlanAct(remaining) else ResponseAct(Pass, FALLBACK_ABORT_PREFIX + error)
  }
}
