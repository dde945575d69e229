/** Task and workflow states, their classes and the transitions between them. */
module States {

  datatype State = IDLE | WAITING | RUNNING | DELAYED | PAUSED | SUCCESS | CANCELLED | ERROR | SKIPPED

  predicate IsCompleted(s: State) {
    s in {SUCCESS, ERROR, CANCELLED, SKIPPED}
  }

  predicate IsPausedOrCompleted(s: State) {
    s == PAUSED || IsCompleted(s)
  }

  /** The table of legal moves; a state may always "move" to itself. */
  predicate ValidTransition(from: State, to: State) {
    from == to ||
    match from
    case IDLE => to in {RUNNING, ERROR, CANCELLED}
    case WAITING => to == RUNNING
    case RUNNING => to in {PAUSED, DELAYED, SUCCESS, ERROR, CANCELLED}
    case DELAYED => to in {RUNNING, ERROR, CANCELLED}
    case PAUSED => to in {RUNNING, ERROR, CANCELLED}
    case SUCCESS => false
    case CANCELLED => to == RUNNING
    case ERROR => to in {RUNNING, SKIPPED}
    case SKIPPED => false
  }

  /**
   The same by where a move leads: any state but the two final ones may run
   again; what has started or is about to may fail or be cancelled; only what
   runs is paused, delayed or succeeds; only a failure is skipped.
   */
  lemma MovesByTarget(from: State, to: State)
    requires from != to
    ensures ValidTransition(from, to) <==>
            match to
            case RUNNING => from !in {SUCCESS, SKIPPED}
            case ERROR => from in {IDLE, RUNNING, DELAYED, PAUSED}
            case CANCELLED => from in {IDLE, RUNNING, DELAYED, PAUSED}
            case PAUSED => from == RUNNING
            case DELAYED => from == RUNNING
            case SUCCESS => from == RUNNING
            case SKIPPED => from == ERROR
            case _ => false
  {
  }
}
