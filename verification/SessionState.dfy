// The session life cycle and the summary shown to the user.
module SessionState {
  import opened Errors
  import opened Preflight

  datatype State =
    | Requested
    | Provisioning
    | GatewayStarting
    | InPreflight
    | Browsing
    | Closing
    | Destroyed
    | Failed
  {
    function AllowedNext(): set<State> {
      match this
      case Requested => {Provisioning, Failed, Closing}
      case Provisioning => {GatewayStarting, Failed, Closing}
      case GatewayStarting => {InPreflight, Failed, Closing}
      case InPreflight => {Browsing, Failed, Closing}
      case Browsing => {Closing, Failed}
      case Closing => {Destroyed, Failed}
      case Destroyed => {}
      case Failed => {Closing, Destroyed}
    }

    predicate CanTransitionTo(next: State) {
      next in AllowedNext()
    }

    // The states a session never leaves once it has been asked to shut down.
    predicate ShuttingDown() {
      Closing? || Destroyed? || Failed?
    }
  }

  function Rank(s: State): nat {
    match s
    case Requested => 0
    case Provisioning => 1
    case GatewayStarting => 2
    case InPreflight => 3
    case Browsing => 4
    case Closing => 5
    case Destroyed => 6
    case Failed => 7
  }

  // The table is one path: each state of a start leads to the next and to no other live
  // one, every live state can fail and be closed, and what shuts down never comes back.
  lemma TableIsOnePath(s: State, next: State)
    ensures !s.ShuttingDown() && !next.ShuttingDown() ==> (s.CanTransitionTo(next) <==> Rank(next) == Rank(s) + 1)
    ensures !s.ShuttingDown() ==>
              (next.ShuttingDown() ==> (s.CanTransitionTo(next) <==> next.Closing? || next.Failed?))
    ensures s.ShuttingDown() ==>
              (s.CanTransitionTo(next) <==> next.ShuttingDown() && next != s && !s.Destroyed?)
  {}

  datatype SessionSummary = SessionSummary(state: State, protection: ProtectionStatus, publicIp: Option<string>) {
    predicate IsSafe() {
      state.Browsing? && protection.PermitsBrowsing()
    }
  }
}
