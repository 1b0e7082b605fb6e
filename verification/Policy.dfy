/** The deterministic safety policy and the incident transition relation. */
module Policy {
  datatype SafetyMode = Safe | AutopilotExperimental

  datatype Risk = Low | Medium | High | Prohibited

  datatype Decision = Allow | RequireApproval | Block

  datatype OperationsContext = OperationsContext(
    mode: SafetyMode,
    killSwitch: bool,
    targetConfigured: bool,
    actionEnabled: bool,
    verificationConfigured: bool,
    cooldownClear: bool)

  function DecideOperations(risk: Risk, mutating: bool, c: OperationsContext): Decision {
    if !mutating then Allow
    else if c.killSwitch || !c.targetConfigured || !c.actionEnabled || !c.verificationConfigured || !c.cooldownClear
            || risk.High? || risk.Prohibited? then Block
    else match (c.mode, risk)
      case (Safe, _) => RequireApproval
      case (AutopilotExperimental, Low) => Allow
      case (AutopilotExperimental, Medium) => RequireApproval
      case (_, _) => Block
  }

  datatype IncidentState =
    | Open | CollectingContext | Diagnosing | Planning | Repairing | Testing | PreviewDeploying
    | VerifyingPreview | WaitingApproval | ProductionDeploying | VerifyingProduction | RollingBack
    | RolledBack | Resolved | Failed | Escalated | Cancelled | Ignored | Duplicate | Paused

  predicate CanTransition(s: IncidentState, next: IncidentState) {
    || next.Escalated? || next.Failed? || next.Cancelled? || next.Paused?
    || match s
       case Open => next.CollectingContext?
       case CollectingContext => next.Diagnosing?
       case Diagnosing => next.Planning?
       case Planning => next.Repairing? || next.WaitingApproval?
       case Repairing => next.Testing? || next.VerifyingProduction?
       case Testing => next.Repairing? || next.PreviewDeploying?
       case PreviewDeploying => next.VerifyingPreview?
       case VerifyingPreview => next.Repairing? || next.WaitingApproval? || next.ProductionDeploying?
       case WaitingApproval => next.Repairing? || next.ProductionDeploying?
       case ProductionDeploying => next.VerifyingProduction?
       case VerifyingProduction => next.Resolved? || next.RollingBack?
       case RollingBack => next.RolledBack?
       case RolledBack => next.Resolved?
       case Paused => next.CollectingContext?
       case _ => false
  }

  /** The states in which escalating an incident does nothing. */
  predicate Closed(s: IncidentState) {
    s.Resolved? || s.RolledBack? || s.Escalated? || s.Failed? || s.Cancelled?
  }
}
