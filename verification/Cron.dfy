/** Several engines advance one cron trigger, each from its own copy of the stored row. */
module Cron {
  import opened Wrappers

  type Time = nat
  type EngineId = nat

  /** `remaining` is None when the number of executions is not limited. */
  datatype Trigger = Trigger(next: Time, remaining: Option<nat>)

  /** `copies`: what engines have read and not yet acted on; `wins`: the scheduled times that were fired, in order. */
  datatype System = System(trigger: Option<Trigger>, copies: map<EngineId, Trigger>, wins: seq<Time>)

  datatype Action = Read(engine: EngineId) | Advance(engine: EngineId, nextTime: Time)

  /** A pattern always yields a time after the one it starts from. */
  predicate Enabled(x: System, a: Action) {
    match a
    case Read(e) => x.trigger.Some?
    case Advance(e, nextTime) => e in x.copies && nextTime > x.copies[e].next
  }

  function Decremented(remaining: Option<nat>): Option<nat> {
    if remaining.Some? && remaining.value > 0 then Some(remaining.value - 1) else remaining
  }

  /**
   The stored row after an engine acted on its copy: deleted after the last
   execution, else updated if the time matches.
   */
  function Advanced(stored: Option<Trigger>, copy: Trigger, nextTime: Time): (Option<Trigger>, bool) {
    var remaining := Decremented(copy.remaining);
    if remaining == Some(0) then (None, stored.Some?)
    else if stored.Some? && stored.value.next == copy.next then (Some(Trigger(nextTime, remaining)), true)
    else (stored, false)
  }

  function Apply(x: System, a: Action): System
    requires Enabled(x, a)
  {
    match a
    case Read(e) => x.(copies := x.copies[e := x.trigger.value])
    case Advance(e, nextTime) =>
      var copy := x.copies[e];
      var r := Advanced(x.trigger, copy, nextTime);
      System(r.0, x.copies - {e}, if r.1 then x.wins + [copy.next] else x.wins)
  }

  datatype Trace = Begin | Then(before: Trace, action: Action)

  datatype Outcome = Impossible | Reached(system: System)

  function After(first: Time, limit: Option<nat>, tr: Trace): Outcome {
    match tr
    case Begin => Reached(System(Some(Trigger(first, limit)), map[], []))
    case Then(before, a) =>
      match After(first, limit, before)
      case Reached(x) => if Enabled(x, a) then Reached(Apply(x, a)) else Impossible
      case Impossible => Impossible
  }

  /** A copy is current, or its time has passed and it shows more executions left than there are. */
  ghost predicate CopyFits(copy: Trigger, stored: Trigger) {
    copy == stored ||
    (copy.next < stored.next && copy.remaining.Some? == stored.remaining.Some? &&
     (copy.remaining.Some? ==> copy.remaining.value > stored.remaining.value))
  }

  ghost predicate Increasing(times: seq<Time>) {
    forall i, j :: 0 <= i < j < |times| ==> times[i] < times[j]
  }

  ghost predicate Inv(limit: Option<nat>, x: System) {
    && Increasing(x.wins)
    && match x.trigger
       case Some(t) =>
         && (forall i :: 0 <= i < |x.wins| ==> x.wins[i] < t.next)
         && t.remaining.Some? == limit.Some?
         && (limit.Some? ==> t.remaining.value >= 1 && |x.wins| + t.remaining.value == limit.value)
         && (forall e :: e in x.copies ==> CopyFits(x.copies[e], t))
       case None => limit.Some? && |x.wins| == limit.value
  }

  lemma StepKeepsInv(limit: Option<nat>, x: System, a: Action)
    requires Inv(limit, x) && Enabled(x, a)
    ensures Inv(limit, Apply(x, a))
  {
  }

  lemma {:induction false} RunKeepsInv(first: Time, limit: Option<nat>, tr: Trace)
    requires After(first, limit, tr).Reached? && (limit.Some? ==> limit.value >= 1)
    ensures Inv(limit, After(first, limit, tr).system)
  {
    if tr.Begin? {
    } else {
      RunKeepsInv(first, limit, tr.before);
      StepKeepsInv(limit, After(first, limit, tr.before).system, tr.action);
    }
  }

  /**
   Firings are conserved: those made and those left add up to the limit, which is
   used up when the trigger is gone.
   */
  lemma FiringIsConserved(first: Time, limit: nat, tr: Trace)
    requires After(first, Some(limit), tr).Reached? && limit >= 1
    ensures var x := After(first, Some(limit), tr).system;
            match x.trigger
            case Some(t) => t.remaining.Some? && |x.wins| + t.remaining.value == limit && t.remaining.value >= 1
            case None => |x.wins| == limit
  {
    RunKeepsInv(first, Some(limit), tr);
  }

  /** No scheduled time is fired twice, limited or not. */
  lemma NoTimeFiresTwice(first: Time, limit: Option<nat>, tr: Trace, i: nat, j: nat)
    requires After(first, limit, tr).Reached? && (limit.Some? ==> limit.value >= 1)
    requires i < j < |After(first, limit, tr).system.wins|
    ensures After(first, limit, tr).system.wins[i] < After(first, limit, tr).system.wins[j]
  {
    RunKeepsInv(first, limit, tr);
  }

  /** An engine fires exactly when its copy is still what is stored; an unlimited trigger is never deleted. */
  lemma CurrentCopyWins(first: Time, limit: Option<nat>, tr: Trace, e: EngineId, nextTime: Time)
    requires After(first, limit, tr).Reached? && (limit.Some? ==> limit.value >= 1)
    requires Enabled(After(first, limit, tr).system, Advance(e, nextTime))
    ensures var x := After(first, limit, tr).system;
            && (Advanced(x.trigger, x.copies[e], nextTime).1 <==> x.trigger == Some(x.copies[e]))
            && (limit.None? ==> x.trigger.Some?)
  {
    RunKeepsInv(first, limit, tr);
  }

  /**
   An engine whose copy is what is stored fires its time, and leaves the time it
   has computed with one execution less, or, after the last one, nothing; any
   other engine changes nothing but its copy.
   */
  lemma AdvanceIsExact(first: Time, limit: Option<nat>, tr: Trace, e: EngineId, nextTime: Time)
    requires After(first, limit, tr).Reached? && (limit.Some? ==> limit.value >= 1)
    requires Enabled(After(first, limit, tr).system, Advance(e, nextTime))
    ensures var x, x' := After(first, limit, tr).system, Apply(After(first, limit, tr).system, Advance(e, nextTime));
            var copy := x.copies[e];
            && x'.copies == x.copies - {e}
            && if x.trigger != Some(copy) then x'.trigger == x.trigger && x'.wins == x.wins
               else
                 && x'.wins == x.wins + [copy.next]
                 && match copy.remaining
                    case None => x'.trigger == Some(Trigger(nextTime, None))
                    case Some(n) =>
                      n >= 1 && x'.trigger == if n == 1 then None else Some(Trigger(nextTime, Some(n - 1)))
  {
    RunKeepsInv(first, limit, tr);
  }

  class CronStore {
    var trigger: Option<Trigger>

    /** Acts on a copy; true if the stored row was changed by this engine. */
    method AdvanceCronTrigger(copy: Trigger, nextTime: Time) returns (modified: bool)
      modifies this
      ensures (trigger, modified) == Advanced(old(trigger), copy, nextTime)
    {
      var remaining := copy.remaining;
      if remaining.Some? && remaining.value > 0 {
        remaining := Some(remaining.value - 1);
      }
      if remaining == Some(0) {
        modified := trigger.Some?;
        trigger := None;
      } else if trigger.Some? && trigger.value.next == copy.next {
        trigger := Some(Trigger(nextTime, remaining));
        modified := true;
      } else {
        modified := false;
      }
    }
  }
}
