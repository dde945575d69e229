/** Which policies a task has and when it makes another attempt, in terms of what is configured. */
module RetryDecisions {
  import opened States
  import opened Wrappers
  import opened Retry

  // ---------- which policies a task has ----------

  /** The task's own retry settings whenever it has any, and only otherwise the workflow's default ones. */
  function RetryOf(task: Option<Spec>, defaults: Option<Spec>): Option<RetrySpec> {
    if task.Some? && task.value.retry.Some? then task.value.retry
    else if defaults.Some? then defaults.value.retry
    else None
  }

  /** The policy is configured: a flag by the task or by default, retries by the task or else by default. */
  predicate Configured(p: Policy, task: Option<Spec>, defaults: Option<Spec>) {
    match p
    case PauseBefore => (task.Some? && task.value.pauseBefore) || (defaults.Some? && defaults.value.pauseBefore)
    case WaitBefore => (task.Some? && task.value.waitBefore) || (defaults.Some? && defaults.value.waitBefore)
    case WaitAfter => (task.Some? && task.value.waitAfter) || (defaults.Some? && defaults.value.waitAfter)
    case FailOn => (task.Some? && task.value.failOn) || (defaults.Some? && defaults.value.failOn)
    case Retry(c, b, k) => RetryOf(task, defaults) == Some(RetrySpec(c, b, k))
    case Timeout => (task.Some? && task.value.timeout) || (defaults.Some? && defaults.value.timeout)
    case Concurrency => (task.Some? && task.value.concurrency) || (defaults.Some? && defaults.value.concurrency)
  }

  /** The place of a policy in the list. */
  function Turn(p: Policy): nat {
    match p
    case PauseBefore => 0
    case WaitBefore => 1
    case WaitAfter => 2
    case FailOn => 3
    case Retry(_, _, _) => 4
    case Timeout => 5
    case Concurrency => 6
  }

  lemma ChosenIsConfigured(k: nat, task: Option<Spec>, defaults: Option<Spec>, p: Policy)
    requires k < FACTORIES
    ensures Chosen(k, task, defaults) == Some(p) <==> Turn(p) == k && Configured(p, task, defaults)
  {
  }

  /** The list holds the configured policies with a turn before n, in the order of their turns. */
  ghost predicate Lists(ps: seq<Policy>, n: nat, task: Option<Spec>, defaults: Option<Spec>) {
    && (forall p :: p in ps <==> Turn(p) < n && Configured(p, task, defaults))
    && (forall i, k :: 0 <= i < k < |ps| ==> Turn(ps[i]) < Turn(ps[k]))
  }

  lemma OneMorePolicy(ps: seq<Policy>, n: nat, task: Option<Spec>, defaults: Option<Spec>, more: Option<Policy>)
    requires Lists(ps, n, task, defaults)
    requires forall p :: more == Some(p) <==> Turn(p) == n && Configured(p, task, defaults)
    ensures Lists(ps + ToSeq(more), n + 1, task, defaults)
  {
    assert forall i :: 0 <= i < |ps| ==> ps[i] in ps;
  }

  lemma {:induction false} FirstOfList(n: nat, task: Option<Spec>, defaults: Option<Spec>)
    requires n <= FACTORIES
    ensures Lists(Constructed(n, task, defaults), n, task, defaults)
  {
    if n > 0 {
      FirstOfList(n - 1, task, defaults);
      forall p
        ensures Chosen(n - 1, task, defaults) == Some(p) <==> Turn(p) == n - 1 && Configured(p, task, defaults)
      {
        ChosenIsConfigured(n - 1, task, defaults, p);
      }
      OneMorePolicy(Constructed(n - 1, task, defaults), n - 1, task, defaults, Chosen(n - 1, task, defaults));
    } else {
    }
  }

  /** The list holds exactly the configured policies, each once, in this order. */
  lemma ListIsConfigured(task: Option<Spec>, defaults: Option<Spec>)
    ensures var ps := Constructed(FACTORIES, task, defaults);
            && (forall p :: p in ps <==> Configured(p, task, defaults))
            && (forall i, k :: 0 <= i < k < |ps| ==> Turn(ps[i]) < Turn(ps[k]))
  {
    FirstOfList(FACTORIES, task, defaults);
  }

  // ---------- another attempt ----------

  /** The outcome after fail-on. */
  function Outcome(task: Option<Spec>, defaults: Option<Spec>, st: State, ch: Choice): State {
    if Configured(FailOn, task, defaults) && ch.failOn && st == SUCCESS then ERROR else st
  }

  /**
   After so many retries: a failure is tried again unless break-on is given and
   true or continue-on is given and false; a success only if continue-on is given
   and true.
   */
  predicate TriesAgain(retry: Option<RetrySpec>, retries: nat, end: State, ch: Choice) {
    && retry.Some? && retries < retry.value.count
    && match end
       case ERROR => !(retry.value.breaks && ch.breakOn) && !(retry.value.continues && !ch.continueOn)
       case SUCCESS => retry.value.continues && ch.continueOn
       case _ => false
  }

  /** Wait-after has yet to delay the completion. */
  predicate StillWaits(task: Option<Spec>, defaults: Option<Spec>, x: Exec) {
    Configured(WaitAfter, task, defaults) && !x.waitAfterDone
  }

  lemma SetupIsConfigured(task: Option<Spec>, defaults: Option<Spec>) returns (s: Setup)
    requires !Configured(PauseBefore, task, defaults)
    ensures IsSetup(s, task, defaults)
    ensures s.waitBefore == Configured(WaitBefore, task, defaults) && s.timeout == Configured(Timeout, task, defaults)
    ensures s.waitAfter == Configured(WaitAfter, task, defaults) && s.failOn == Configured(FailOn, task, defaults)
    ensures match RetryOf(task, defaults)
            case Some(r) => s.retry == Some(Policy.Retry(r.count, r.breaks, r.continues))
            case None => s.retry == None
  {
    forall k: nat, p | k < FACTORIES
      ensures Chosen(k, task, defaults) == Some(p) <==> Turn(p) == k && Configured(p, task, defaults)
    {
      ChosenIsConfigured(k, task, defaults, p);
    }
    s := SetupOf(task, defaults);
  }

  lemma RetryMeans(p: Policy, x: Exec, ch: Choice)
    requires p.Retry? && IsOutcome(x.state)
    ensures After(p, x, ch) ==
            if TriesAgain(Some(RetrySpec(p.count, p.breaks, p.continues)), RetryNo(x), x.state, ch)
            then x.(state := DELAYED, retryNo := Some(RetryNo(x) + 1), continues := x.continues + 1)
            else if p.count == 0 || x.state == CANCELLED then x else x.(retryNo := None)
  {
  }

  lemma PoliciesMean(s: Setup, x: Exec, ch: Choice, retry: Option<RetrySpec>)
    requires IsOutcome(x.state) && (s.waitAfter ==> x.waitAfterDone)
    requires match retry
             case Some(r) => s.retry == Some(Policy.Retry(r.count, r.breaks, r.continues))
             case None => s.retry == None
    ensures var end := if s.failOn && ch.failOn && x.state == SUCCESS then ERROR else x.state;
            var y := AfterSetup(s, x, ch);
            if TriesAgain(retry, RetryNo(x), end, ch)
            then y == x.(state := DELAYED, retryNo := Some(RetryNo(x) + 1), continues := x.continues + 1)
            else y == x.(state := end, retryNo := y.retryNo)
  {
    var a := AfterOne(If(s.waitAfter, WaitAfter), x, ch);
    assert a == x;
    var b := AfterOne(If(s.failOn, FailOn), a, ch);
    if retry.Some? {
      RetryMeans(s.retry.value, b, ch);
    }
  }

  /** The outcome that an event brings: that of the action, the one remembered, or a failure when time is up. */
  ghost predicate Brings(x: Exec, e: Event, st: State) {
    match e
    case ActionDone(state) => x.actions > 0 && state in {SUCCESS, ERROR, CANCELLED} && st == state
    case CompleteDue(i) => i < |x.completes| && st == x.completes[i] && st in {SUCCESS, ERROR, CANCELLED}
    case TimeoutDue => x.timeouts > 0 && st == ERROR
    case _ => false
  }

  lemma BringingCompletes(ps: seq<Policy>, x: Exec, e: Event, st: State, ch: Choice)
    requires Brings(x, e, st)
    ensures Enabled(x, e) && Deliver(ps, x, e, ch) == Completed(ps, Minus(x, e), st, ch)
    ensures var z := Minus(x, e);
            && z.state == x.state && z.continues == x.continues && z.computed == x.computed && z.runs == x.runs
            && z.dispatched == x.dispatched && z.retryNo == x.retryNo && z.waitAfterDone == x.waitAfterDone
  {
  }

  lemma CompletedMeans(task: Option<Spec>, defaults: Option<Spec>, x: Exec, st: State, ch: Choice)
    requires !Configured(PauseBefore, task, defaults) && !IsCompleted(x.state) && IsOutcome(st)
    requires !StillWaits(task, defaults, x)
    ensures var y, end := Completed(Constructed(FACTORIES, task, defaults), x, st, ch),
                          Outcome(task, defaults, st, ch);
            if TriesAgain(RetryOf(task, defaults), RetryNo(x), end, ch)
            then y == x.(state := DELAYED, retryNo := Some(RetryNo(x) + 1), continues := x.continues + 1)
            else
              y == x.(state := end, retryNo := y.retryNo, computed := x.computed + 1,
                      dispatched := x.dispatched + if ch.paused then 0 else 1)
  {
    var s := SetupIsConfigured(task, defaults);
    CompletedIsTallied(s, task, defaults, x, st, ch);
    PoliciesMean(s, x.(state := st), ch, RetryOf(task, defaults));
  }

  /**
   An outcome that wait-after does not delay leads to another attempt exactly if
   retries are left and the clauses ask for it; otherwise the task ends with it,
   and what follows is computed, and dispatched unless the workflow is paused.
   */
  lemma TriesAgainExactly(task: Option<Spec>, defaults: Option<Spec>, x: Exec, e: Event, st: State, ch: Choice)
    requires !Configured(PauseBefore, task, defaults) && Brings(x, e, st) && !IsCompleted(x.state)
    requires !StillWaits(task, defaults, x)
    ensures Enabled(x, e)
    ensures var y, end := Deliver(Constructed(FACTORIES, task, defaults), x, e, ch), Outcome(task, defaults, st, ch);
            if TriesAgain(RetryOf(task, defaults), RetryNo(x), end, ch)
            then
              && y.state == DELAYED && y.retryNo == Some(RetryNo(x) + 1) && y.continues == x.continues + 1
              && y.computed == x.computed && y.dispatched == x.dispatched
            else
              && y.state == end && y.continues == x.continues && y.computed == x.computed + 1
              && y.dispatched == x.dispatched + if ch.paused then 0 else 1
  {
    BringingCompletes(Constructed(FACTORIES, task, defaults), x, e, st, ch);
    CompletedMeans(task, defaults, Minus(x, e), st, ch);
  }

  /** The first completion of a task with wait-after is put off once, with its outcome remembered. */
  lemma WaitsOnce(task: Option<Spec>, defaults: Option<Spec>, x: Exec, e: Event, st: State, ch: Choice)
    requires !Configured(PauseBefore, task, defaults) && Brings(x, e, st) && !IsCompleted(x.state)
    requires StillWaits(task, defaults, x)
    ensures Enabled(x, e)
    ensures var y := Deliver(Constructed(FACTORIES, task, defaults), x, e, ch);
            && y.state == DELAYED && y.waitAfterDone && y.completes == Minus(x, e).completes + [st]
            && y.computed == x.computed && y.continues == x.continues && y.retryNo == x.retryNo
  {
    var s := SetupIsConfigured(task, defaults);
    var x' := Minus(x, e).(state := st);
    BringingCompletes(Constructed(FACTORIES, task, defaults), x, e, st, ch);
    CompletedIsTallied(s, task, defaults, Minus(x, e), st, ch);
    DelayedIsLeftAlone(s, AfterOne(Some(WaitAfter), x', ch), ch);
  }

  /** Starting a task starts its action at once, or after wait-before; a timeout is armed exactly if there is one. */
  lemma StartMeans(task: Option<Spec>, defaults: Option<Spec>, ch: Choice)
    requires !Configured(PauseBefore, task, defaults)
    ensures var y := Deliver(Constructed(FACTORIES, task, defaults), CREATED, Start, ch);
            && y.timeouts == (if Configured(Timeout, task, defaults) then 1 else 0)
            && (if Configured(WaitBefore, task, defaults)
                then y.state == DELAYED && y.actions == 0 && y.continues == 1
                else y.state == RUNNING && y.actions == 1 && y.continues == 0)
            && y.completes == [] && y.computed == 0 && (y.waitBeforeDone <==> Configured(WaitBefore, task, defaults))
  {
    var s := SetupIsConfigured(task, defaults);
    BeforePoliciesInOrder(s, task, defaults, CREATED.(state := RUNNING));
  }

  /** Nothing continues a task that may also time out. */
  predicate NoClash(task: Option<Spec>, defaults: Option<Spec>) {
    Configured(Timeout, task, defaults) ==>
      && !Configured(WaitBefore, task, defaults)
      && (RetryOf(task, defaults).Some? ==> RetryOf(task, defaults).value.count == 0)
  }

  lemma AttemptsButOne(s: Setup, x: Exec, e: Event, st: State)
    requires !Clash(s) && Inv(s, x) && Brings(x, e, st) && !IsCompleted(x.state)
    ensures x.runs >= 1 && RetryNo(x) == x.runs - 1 && x.continues == 0 && x.computed == 0
  {
    MinusIsTaken(s, x, e);
  }

  lemma NoClashSetup(task: Option<Spec>, defaults: Option<Spec>) returns (s: Setup)
    requires !Configured(PauseBefore, task, defaults) && NoClash(task, defaults)
    ensures IsSetup(s, task, defaults) && !Clash(s)
  {
    s := SetupIsConfigured(task, defaults);
  }

  lemma RunsButOne(task: Option<Spec>, defaults: Option<Spec>, tr: Trace, e: Event, st: State)
    requires !Configured(PauseBefore, task, defaults) && NoClash(task, defaults)
    requires Run(Constructed(FACTORIES, task, defaults), tr).Some?
    requires var x := Run(Constructed(FACTORIES, task, defaults), tr).value;
             Brings(x, e, st) && !IsCompleted(x.state)
    ensures var x := Run(Constructed(FACTORIES, task, defaults), tr).value;
            x.runs >= 1 && RetryNo(x) == x.runs - 1 && x.continues == 0 && x.computed == 0
  {
    var s := NoClashSetup(task, defaults);
    RunKeepsInv(s, task, defaults, tr);
    AttemptsButOne(s, Run(Constructed(FACTORIES, task, defaults), tr).value, e, st);
  }

  lemma RunOneMore(ps: seq<Policy>, tr: Trace, e: Event, ch: Choice)
    requires Run(ps, tr).Some? && Enabled(Run(ps, tr).value, e)
    ensures Run(ps, Then(tr, e, ch)) == Some(Deliver(ps, Run(ps, tr).value, e, ch))
  {
  }

  /** In runs the retries made are the attempts but one, so with a count of c there are c + 1 attempts at most. */
  lemma AttemptsAreExact(task: Option<Spec>, defaults: Option<Spec>, tr: Trace, e: Event, st: State, ch: Choice)
    requires !Configured(PauseBefore, task, defaults) && NoClash(task, defaults)
    requires Run(Constructed(FACTORIES, task, defaults), tr).Some?
    requires var x := Run(Constructed(FACTORIES, task, defaults), tr).value;
             Brings(x, e, st) && !IsCompleted(x.state) && !StillWaits(task, defaults, x)
    ensures var ps := Constructed(FACTORIES, task, defaults);
            var x, y, end := Run(ps, tr).value, Run(ps, Then(tr, e, ch)), Outcome(task, defaults, st, ch);
            && x.runs >= 1 && y.Some?
            && if TriesAgain(RetryOf(task, defaults), x.runs - 1, end, ch)
               then y.value.state == DELAYED && y.value.continues == 1 && y.value.computed == 0
               else y.value.state == end && y.value.continues == 0 && y.value.computed == 1
  {
    var x := Run(Constructed(FACTORIES, task, defaults), tr).value;
    RunsButOne(task, defaults, tr, e, st);
    TriesAgainExactly(task, defaults, x, e, st, ch);
    RunOneMore(Constructed(FACTORIES, task, defaults), tr, e, ch);
  }

  /** A task that is continued starts its action once more. */
  lemma ContinueMeans(ps: seq<Policy>, x: Exec, ch: Choice)
    requires Enabled(x, ContinueDue)
    ensures Deliver(ps, x, ContinueDue, ch) ==
            x.(state := RUNNING, continues := x.continues - 1, actions := x.actions + 1, runs := x.runs + 1)
  {
  }
}
