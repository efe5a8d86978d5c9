/** The conditional edge leaving the risk gate. */
module Routing {

  import opened Results
  import opened Types

  /**
    The name of the node to run after the risk gate. It reads nothing but the verdict, and
    an unrecognised verdict raises instead of falling back on either node.
   */
  function RouteCIODecision(v: Verdict): (r: Result<string>)
    ensures IsPassVerdict(v) ==> r == Success("ExecutionNode")
    ensures VerdictValue(v) == "Warn" || VerdictValue(v) == "Block" ==> r == Success("HumanNode")
    ensures r.Failure? <==> VerdictValue(v) != "Pass" && VerdictValue(v) != "Warn" && VerdictValue(v) != "Block"
    ensures r.Failure? ==> r.error == ValueError("Invalid risk verdict")
  {
    match VerdictValue(v)
    case "Pass" => Success("ExecutionNode")
    case "Warn" => Success("HumanNode")
    case "Block" => Success("HumanNode")
    case _ => Failure(ValueError("Invalid risk verdict"))
  }
}
