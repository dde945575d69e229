/** What the policies of a task make of its completion, in the order in which they act. */
module Policies {
  import opened States

  /** Whether wait-after delays the completion, fail-on fails it, and retry makes another attempt. */
  datatype Decision = Decision(waits: bool, fails: bool, retries: bool)

  /** The state after the policies; a join that is retried waits for its logical state again. */
  function StateAfterPolicies(d: Decision, join: bool, st: State): State {
    if d.waits then DELAYED
    else
      var end := if d.fails && st == SUCCESS then ERROR else st;
      if d.retries && end != CANCELLED then (if join then WAITING else DELAYED) else end
  }
}
