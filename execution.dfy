/**
  The execution step: a Pass verdict stands for human approval, and the approval then
  decides whether the portfolio is rebalanced to the CIO's proposal.
 */
module Execution {

  import opened Results
  import opened Types

  /** What the step reports; the source writes this as a log line. */
  datatype ExecutionOutcome =
    | Rebalanced(equities: Allocation, bonds: Allocation)
    | NotRebalanced(approval: HumanApproval)
    | InvalidApproval

  /** The approval in force once the step has applied the Pass shortcut. */
  function ApprovalInForce(s: SharedState): Option<HumanApproval>
    requires s.riskReport.Some?
  {
    if IsPassVerdict(s.riskReport.value.verdict) then Some(Approve) else s.humanApproval
  }

  /**
    `execution_node`. Only `human_approval` can change, and only to `approve` on a Pass
    verdict; a rebalance happens exactly when the approval in force is `approve`. Neither
    `reject` nor `try_again` rebalances, and `try_again` does not loop back.
   */
  method ExecutionNode(s: SharedState) returns (r: Result<(SharedState, ExecutionOutcome)>)
    ensures s.riskReport.None? ==> r == Failure(AttributeError("'NoneType' object has no attribute 'verdict'"))
    ensures r.Failure? <==> s.riskReport.None? || (ApprovalInForce(s) == Some(Approve) && s.cioReport.None?)
    ensures r.Success? ==> SameExcept(s, r.value.0, {HumanApprovalKey})
    ensures r.Success? ==> r.value.0.humanApproval == ApprovalInForce(s)
    ensures r.Success? && IsPassVerdict(s.riskReport.value.verdict) ==> r.value.0.humanApproval == Some(Approve)
    ensures r.Success? && !IsPassVerdict(s.riskReport.value.verdict) ==> r.value.0 == s
    ensures r.Success? ==> (r.value.1.Rebalanced? <==> r.value.0.humanApproval == Some(Approve))
    ensures r.Success? && r.value.1.Rebalanced? ==>
              r.value.1 == Rebalanced(s.cioReport.value.equities, s.cioReport.value.bonds)
    ensures r.Success? ==> (r.value.1.NotRebalanced? <==> r.value.0.humanApproval in {Some(Reject), Some(TryAgain)})
    ensures r.Success? && r.value.1.NotRebalanced? ==> r.value.0.humanApproval == Some(r.value.1.approval)
    ensures r.Success? ==> (r.value.1.InvalidApproval? <==> r.value.0.humanApproval.None?)
  {
    if s.riskReport.None? {
      return Failure(AttributeError("'NoneType' object has no attribute 'verdict'"));
    }
    var state := s;
    if IsPassVerdict(state.riskReport.value.verdict) {
      // approval is implicit when the risk gate passed
      state := state.(humanApproval := Some(Approve));
    }
    var outcome;
    match state.humanApproval {
      case Some(Approve) =>
        if state.cioReport.None? {
          return Failure(AttributeError("'NoneType' object has no attribute 'equities'"));
        }
        outcome := Rebalanced(state.cioReport.value.equities, state.cioReport.value.bonds);
      case Some(Reject) =>
        outcome := NotRebalanced(Reject);
      case Some(TryAgain) =>
        outcome := NotRebalanced(TryAgain);
      case None =>
        outcome := InvalidApproval;
    }
    r := Success((state, outcome));
  }
}
