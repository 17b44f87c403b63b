/** The session state machine (src/jumpserver/state-machine.ts). */
module StateMachine {

  datatype SessionState =
    | DISCONNECTED
    | CONNECTING
    | JUMPSERVER_MENU
    | ENTERING_ASSET
    | ASSET_SHELL
    | COMMAND_RUNNING
    | UNKNOWN
    | ERROR

  /** canTransition: membership in the table of legal moves. */
  predicate CanTransition(from: SessionState, to: SessionState) {
    match from
    case DISCONNECTED => to == CONNECTING
    case CONNECTING => to == JUMPSERVER_MENU || to == ERROR
    case JUMPSERVER_MENU => to == ENTERING_ASSET || to == DISCONNECTED
    case ENTERING_ASSET =>
      to == ASSET_SHELL || to == JUMPSERVER_MENU || to == DISCONNECTED || to == UNKNOWN || to == ERROR
    case ASSET_SHELL => to == COMMAND_RUNNING || to == JUMPSERVER_MENU || to == UNKNOWN || to == DISCONNECTED
    case COMMAND_RUNNING => to == ASSET_SHELL || to == UNKNOWN || to == DISCONNECTED
    case UNKNOWN => to == DISCONNECTED || to == CONNECTING
    case ERROR => to == DISCONNECTED
  }

  /** The requested state when the move is legal, UNKNOWN otherwise. */
  function NextState(from: SessionState, to: SessionState): SessionState {
    if CanTransition(from, to) then to else UNKNOWN
  }

  /** JumpServerSession.isLive(). */
  predicate Live(s: SessionState) {
    s == JUMPSERVER_MENU || s == ASSET_SHELL || s == COMMAND_RUNNING || s == ENTERING_ASSET
  }

  /** A state no continuation of an old operation may leave for a live one. */
  predicate Dead(s: SessionState) {
    s == DISCONNECTED || s == UNKNOWN || s == ERROR
  }

  /** A request for any state but CONNECTING keeps a dead session dead. */
  lemma DeadStaysDead(from: SessionState, to: SessionState)
    requires Dead(from) && to != CONNECTING
    ensures Dead(NextState(from, to))
  {
  }
}
