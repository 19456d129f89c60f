// Result markers and the values exchanged between the planner and the run
// driver: the planner's act (a new plan or a final response) and the
// (step, outcome) pairs accumulated in `past_steps`.
module Models {
  const RESULT_PASS: string := "RESULT_PASS"
  const RESULT_SKIP: string := "RESULT_SKIP"
  const RESULT_FAIL: string := "RESULT_FAIL"

  /** The two statuses a planner response may carry. */
  datatype Status = Pass | Fail

  function StatusText(s: Status): string
  {
    match s
    case Pass => RESULT_PASS
    case Fail => RESULT_FAIL
  }

  /** `Act.action`: either a plan of further steps or a final response. */
  datatype Act =
    | PlanAct(steps: seq<string>)
    | ResponseAct(status: Status, reason: string)

  /** One entry of `past_steps`: the executed step and what the agent answered. */
  datatype PastStep = PastStep(step: string, outcome: string)
}
