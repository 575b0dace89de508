/** The eleven mission states and the transitions the orchestration service allows. */
module MissionStates {
  datatype MissionState =
    | Pending | Scheduled | Active | Paused | Retrying | WaitingDependency
    | WaitingApproval | WaitingHuman | Completed | Failed | Cancelled

  function AllowedTransitions(from: MissionState): set<MissionState> {
    match from
    case Pending => {Scheduled, Active, Paused, Cancelled, WaitingDependency}
    case Scheduled => {Active, Paused, Cancelled, WaitingDependency}
    case Active => {Completed, Failed, Paused, Retrying, WaitingApproval, WaitingHuman, Cancelled}
    case Paused => {Pending, Scheduled, Active, Cancelled}
    case Retrying => {Active, Paused, Failed, Cancelled, WaitingDependency}
    case WaitingDependency => {Pending, Scheduled, Paused, Cancelled}
    case WaitingApproval => {Active, WaitingHuman, Completed, Failed, Paused, Cancelled}
    case WaitingHuman => {Active, Failed, Paused, Cancelled, Pending}
    case Completed => {}
    case Failed => {Retrying, Cancelled}
    case Cancelled => {}
  }

  /** `transition` accepts a move along an edge and a move to the current state. */
  predicate MayMove(from: MissionState, target: MissionState) {
    target == from || target in AllowedTransitions(from)
  }
}
