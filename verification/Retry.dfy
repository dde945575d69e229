/**
 The policies of a task that is no join: waiting before and after it, failing
 it, retrying it and timing it out.  An execution is driven by the start
 request, by the results of its actions and by the jobs its policies schedule,
 in any order.
 */
module Retry {
  import opened Policies
  import opened States
  import opened Wrappers

  datatype Policy =
    | PauseBefore
    | WaitBefore
    | WaitAfter
    | FailOn
    | Retry(count: nat, breaks: bool, continues: bool)
    | Timeout
    | Concurrency

  /** `breaks` and `continues` tell whether there is a break-on and a continue-on clause. */
  datatype RetrySpec = RetrySpec(count: nat, breaks: bool, continues: bool)

  datatype Spec = Spec(pauseBefore: bool, waitBefore: bool, waitAfter: bool, failOn: bool,
                       retry: Option<RetrySpec>, timeout: bool, concurrency: bool)

  // ---------- the list of policies ----------

  function If(c: bool, p: Policy): Option<Policy> {
    if c then Some(p) else None
  }

  function Factory(k: nat, spec: Option<Spec>): Option<Policy> {
    if spec.None? then None
    else
      match k
      case 0 => If(spec.value.pauseBefore, PauseBefore)
      case 1 => If(spec.value.waitBefore, WaitBefore)
      case 2 => If(spec.value.waitAfter, WaitAfter)
      case 3 => If(spec.value.failOn, FailOn)
      case 4 => (match spec.value.retry
                 case None => None
                 case Some(r) => Some(Retry(r.count, r.breaks, r.continues)))
      case 5 => If(spec.value.timeout, Timeout)
      case 6 => If(spec.value.concurrency, Concurrency)
      case _ => None
  }

  const FACTORIES: nat := 7

  /** The task's own policy, or else the workflow's default. */
  function Chosen(k: nat, task: Option<Spec>, defaults: Option<Spec>): Option<Policy> {
    if Factory(k, task).Some? then Factory(k, task) else Factory(k, defaults)
  }

  function ToSeq(p: Option<Policy>): seq<Policy> {
    if p.Some? then [p.value] else []
  }

  function Constructed(n: nat, task: Option<Spec>, defaults: Option<Spec>): seq<Policy> {
    if n == 0 then [] else Constructed(n - 1, task, defaults) + ToSeq(Chosen(n - 1, task, defaults))
  }

  method ConstructPoliciesList(task: Option<Spec>, defaults: Option<Spec>) returns (policies: seq<Policy>)
    ensures policies == Constructed(FACTORIES, task, defaults)
  {
    policies := [];
    for k := 0 to FACTORIES
      invariant policies == Constructed(k, task, defaults)
    {
      var policy := Factory(k, task);
      if defaults.Some? && policy.None? {
        policy := Factory(k, defaults);
      }
      policies := policies + ToSeq(policy);
    }
  }

  // ---------- a task execution ----------

  /**
   `actions`, `continues`, `completes` and `timeouts` are what is under way:
   running actions, and scheduled jobs to continue, complete or time out the
   task.  `runs`, `computed` and `dispatched` count the actions ever started and
   how often the next commands were computed and dispatched.
   */
  datatype Exec = Exec(state: State, waitBeforeDone: bool, waitAfterDone: bool, retryNo: Option<nat>,
                       actions: nat, continues: nat, completes: seq<State>, timeouts: nat,
                       runs: nat, computed: nat, dispatched: nat)

  const CREATED := Exec(IDLE, false, false, None, 0, 0, [], 0, 0, 0, 0)

  /** The values of the expressions of the policies, and whether the workflow is paused. */
  datatype Choice = Choice(failOn: bool, breakOn: bool, continueOn: bool, paused: bool)

  function Before(p: Policy, x: Exec): Exec {
    match p
    case WaitBefore =>
      if x.waitBeforeDone then x.(state := RUNNING)
      else if x.state != IDLE then x.(waitBeforeDone := true, state := DELAYED, continues := x.continues + 1)
      else x
    case PauseBefore => x.(state := IDLE)
    case Timeout => x.(timeouts := x.timeouts + 1)
    case _ => x
  }

  function RetryNo(x: Exec): nat {
    if x.retryNo.Some? then x.retryNo.value else 0
  }

  predicate StopsRetrying(p: Policy, x: Exec, ch: Choice)
    requires p.Retry?
  {
    || RetryNo(x) >= p.count
    || (x.state == ERROR && p.breaks && ch.breakOn)
    || (x.state == SUCCESS && !p.continues)
    || (p.continues && !ch.continueOn)
  }

  function After(p: Policy, x: Exec, ch: Choice): Exec {
    match p
    case WaitAfter =>
      if x.waitAfterDone then x
      else x.(waitAfterDone := true, state := DELAYED, completes := x.completes + [x.state])
    case FailOn => if x.state == SUCCESS && ch.failOn then x.(state := ERROR) else x
    case Retry(count, _, _) =>
      if count == 0 || !IsCompleted(x.state) || x.state == CANCELLED then x
      else if StopsRetrying(p, x, ch) then x.(retryNo := None)
      else x.(retryNo := Some(RetryNo(x) + 1), state := DELAYED, continues := x.continues + 1)
    case _ => x
  }

  function BeforeAll(ps: seq<Policy>, x: Exec): Exec {
    if ps == [] then x else Before(ps[|ps| - 1], BeforeAll(ps[..|ps| - 1], x))
  }

  function AfterAll(ps: seq<Policy>, x: Exec, ch: Choice): Exec {
    if ps == [] then x else After(ps[|ps| - 1], AfterAll(ps[..|ps| - 1], x, ch), ch)
  }

  function Launched(x: Exec): Exec {
    x.(actions := x.actions + 1, runs := x.runs + 1)
  }

  function Completed(ps: seq<Policy>, x: Exec, state: State, ch: Choice): Exec {
    if IsCompleted(x.state) then x
    else
      var y := AfterAll(ps, x.(state := state), ch);
      if y.state == DELAYED then y
      else y.(computed := y.computed + 1, dispatched := y.dispatched + if ch.paused then 0 else 1)
  }

  /** What happens to the execution; a request to start may be repeated, all else is consumed. */
  datatype Event = Start | ActionDone(state: State) | ContinueDue | CompleteDue(i: nat) | TimeoutDue

  predicate Enabled(x: Exec, e: Event) {
    match e
    case Start => true
    case ActionDone(state) => x.actions > 0 && state in {SUCCESS, ERROR, CANCELLED}
    case ContinueDue => x.continues > 0
    case CompleteDue(i) => i < |x.completes|
    case TimeoutDue => x.timeouts > 0
  }

  /** The execution with the event taken out. */
  function Minus(x: Exec, e: Event): Exec
    requires Enabled(x, e)
  {
    match e
    case Start => x
    case ActionDone(state) => x.(actions := x.actions - 1)
    case ContinueDue => x.(continues := x.continues - 1)
    case CompleteDue(i) => x.(completes := x.completes[..i] + x.completes[i + 1..])
    case TimeoutDue => x.(timeouts := x.timeouts - 1)
  }

  /** The state with which an event completes the task. */
  function Due(x: Exec, e: Event): State
    requires Enabled(x, e)
  {
    match e
    case ActionDone(state) => state
    case CompleteDue(i) => x.completes[i]
    case _ => ERROR
  }

  function Deliver(ps: seq<Policy>, x: Exec, e: Event, ch: Choice): Exec
    requires Enabled(x, e)
  {
    match e
    case Start =>
      if x.state != IDLE then x
      else
        var y := BeforeAll(ps, x.(state := RUNNING));
        if y.state == RUNNING then Launched(y) else y
    case ContinueDue => Launched(Minus(x, e).(state := RUNNING))
    case _ => Completed(ps, Minus(x, e), Due(x, e), ch)
  }

  // ---------- the engine's objects ----------

  class TaskExecution {
    const policies: seq<Policy>
    var x: Exec

    constructor (task: Option<Spec>, defaults: Option<Spec>)
      ensures policies == Constructed(FACTORIES, task, defaults) && x == CREATED
    {
      var ps := ConstructPoliciesList(task, defaults);
      policies := ps;
      x := CREATED;
    }

    method BeforeTaskStart()
      modifies this
      ensures x == BeforeAll(policies, old(x))
    {
      for k := 0 to |policies|
        invariant x == BeforeAll(policies[..k], old(x))
      {
        assert policies[..k + 1][..k] == policies[..k];
        var p := policies[k];
        if p.WaitBefore? {
          if x.waitBeforeDone {
            x := x.(state := RUNNING);
          } else if x.state != IDLE {
            x := x.(waitBeforeDone := true);
            x := x.(state := DELAYED);
            x := x.(continues := x.continues + 1);
          }
        } else if p.PauseBefore? {
          x := x.(state := IDLE);
        } else if p.Timeout? {
          x := x.(timeouts := x.timeouts + 1);
        }
      }
      assert policies[..|policies|] == policies;
    }

    method AfterTaskComplete(ch: Choice)
      modifies this
      ensures x == AfterAll(policies, old(x), ch)
    {
      for k := 0 to |policies|
        invariant x == AfterAll(policies[..k], old(x), ch)
      {
        assert policies[..k + 1][..k] == policies[..k];
        var p := policies[k];
        if p.WaitAfter? {
          WaitAfterTask();
        } else if p.FailOn? {
          if x.state == SUCCESS && ch.failOn {
            x := x.(state := ERROR);
          }
        } else if p.Retry? {
          RetryTask(p, ch);
        }
      }
      assert policies[..|policies|] == policies;
    }

    method WaitAfterTask()
      modifies this
      ensures forall ch :: x == After(WaitAfter, old(x), ch)
    {
      if !x.waitAfterDone {
        var end := x.state;
        x := x.(waitAfterDone := true, state := DELAYED);
        x := x.(completes := x.completes + [end]);
      }
    }

    method RetryTask(p: Policy, ch: Choice)
      requires p.Retry?
      modifies this
      ensures x == After(p, old(x), ch)
    {
      if p.count == 0 || !IsCompleted(x.state) || x.state == CANCELLED {
        return;
      }
      var retryNo := 0;
      if x.retryNo.Some? {
        retryNo := x.retryNo.value;
        x := x.(retryNo := None);
      }
      var stop := x.state == SUCCESS && !p.continues;
      stop := stop || (p.continues && !ch.continueOn);
      var broken := x.state == ERROR && p.breaks && ch.breakOn;
      if retryNo >= p.count || broken || stop {
        return;
      }
      x := x.(retryNo := Some(retryNo + 1));
      x := x.(state := DELAYED);
      x := x.(continues := x.continues + 1);
    }

    method Complete(state: State, ch: Choice)
      modifies this
      ensures x == Completed(policies, old(x), state, ch)
    {
      if IsCompleted(x.state) {
        return;
      }
      x := x.(state := state);
      AfterTaskComplete(ch);
      if x.state == DELAYED {
        return;
      }
      x := x.(computed := x.computed + 1);
      if ch.paused {
        return;
      }
      x := x.(dispatched := x.dispatched + 1);
    }

    method Handle(e: Event, ch: Choice)
      requires Enabled(x, e)
      modifies this
      ensures x == Deliver(policies, old(x), e, ch)
    {
      match e
      case Start =>
        if x.state == IDLE {
          x := x.(state := RUNNING);
          BeforeTaskStart();
          if x.state == RUNNING {
            x := Launched(x);
          }
        }
      case ActionDone(state) =>
        x := x.(actions := x.actions - 1);
        Complete(state, ch);
      case ContinueDue =>
        x := x.(continues := x.continues - 1, state := RUNNING);
        x := Launched(x);
      case CompleteDue(i) =>
        var state := x.completes[i];
        x := x.(completes := x.completes[..i] + x.completes[i + 1..]);
        Complete(state, ch);
      case TimeoutDue =>
        x := x.(timeouts := x.timeouts - 1);
        if !IsCompleted(x.state) {
          Complete(ERROR, ch);
        }
    }
  }

  // ---------- what the list amounts to ----------

  datatype Setup = Setup(waitBefore: bool, waitAfter: bool, failOn: bool, retry: Option<Policy>, timeout: bool)

  ghost predicate IsSetup(s: Setup, task: Option<Spec>, defaults: Option<Spec>) {
    && Chosen(0, task, defaults) == None
    && Chosen(1, task, defaults) == If(s.waitBefore, WaitBefore)
    && Chosen(2, task, defaults) == If(s.waitAfter, WaitAfter)
    && Chosen(3, task, defaults) == If(s.failOn, FailOn)
    && Chosen(4, task, defaults) == s.retry && (s.retry.Some? ==> s.retry.value.Retry?)
    && Chosen(5, task, defaults) == If(s.timeout, Timeout)
    && (Chosen(6, task, defaults).Some? ==> Chosen(6, task, defaults).value == Concurrency)
  }

  /** Every configuration without pause-before has a setup. */
  ghost function SetupOf(task: Option<Spec>, defaults: Option<Spec>): (s: Setup)
    requires Chosen(0, task, defaults) == None
    ensures IsSetup(s, task, defaults)
  {
    Setup(Chosen(1, task, defaults).Some?, Chosen(2, task, defaults).Some?, Chosen(3, task, defaults).Some?,
          Chosen(4, task, defaults), Chosen(5, task, defaults).Some?)
  }

  function AfterOne(p: Option<Policy>, x: Exec, ch: Choice): Exec {
    if p.Some? then After(p.value, x, ch) else x
  }

  function BeforeOne(p: Option<Policy>, x: Exec): Exec {
    if p.Some? then Before(p.value, x) else x
  }

  function BeforeSetup(s: Setup, x: Exec): Exec {
    BeforeOne(If(s.timeout, Timeout), BeforeOne(If(s.waitBefore, WaitBefore), x))
  }

  function AfterSetup(s: Setup, x: Exec, ch: Choice): Exec {
    AfterOne(s.retry, AfterOne(If(s.failOn, FailOn), AfterOne(If(s.waitAfter, WaitAfter), x, ch), ch), ch)
  }

  ghost function AfterFirst(n: nat, task: Option<Spec>, defaults: Option<Spec>, x: Exec, ch: Choice): Exec {
    AfterAll(Constructed(n, task, defaults), x, ch)
  }

  ghost function BeforeFirst(n: nat, task: Option<Spec>, defaults: Option<Spec>, x: Exec): Exec {
    BeforeAll(Constructed(n, task, defaults), x)
  }

  lemma AllOfOne(n: nat, task: Option<Spec>, defaults: Option<Spec>, x: Exec, ch: Choice)
    requires n > 0
    ensures AfterFirst(0, task, defaults, x, ch) == BeforeFirst(0, task, defaults, x) == x
    ensures var p := Chosen(n - 1, task, defaults);
            && AfterFirst(n, task, defaults, x, ch) == AfterOne(p, AfterFirst(n - 1, task, defaults, x, ch), ch)
            && BeforeFirst(n, task, defaults, x) == BeforeOne(p, BeforeFirst(n - 1, task, defaults, x))
  {
    var front, ps := Constructed(n - 1, task, defaults), Constructed(n, task, defaults);
    if Chosen(n - 1, task, defaults).Some? {
      assert ps[..|ps| - 1] == front;
    } else {
      assert ps == front;
    }
  }

  lemma IdleAfter(p: Option<Policy>, x: Exec, ch: Choice)
    requires p.Some? ==> p.value in {PauseBefore, WaitBefore, Timeout, Concurrency}
    ensures AfterOne(p, x, ch) == x
  {
  }

  lemma IdleBefore(p: Option<Policy>, x: Exec)
    requires p.Some? ==> p.value in {WaitAfter, FailOn, Concurrency} || p.value.Retry?
    ensures BeforeOne(p, x) == x
  {
  }

  lemma AfterFirstFive(s: Setup, task: Option<Spec>, defaults: Option<Spec>, x: Exec, ch: Choice)
    requires IsSetup(s, task, defaults)
    ensures AfterFirst(5, task, defaults, x, ch) == AfterSetup(s, x, ch)
  {
    AllOfOne(1, task, defaults, x, ch);
    IdleAfter(Chosen(0, task, defaults), x, ch);
    AllOfOne(2, task, defaults, x, ch);
    IdleAfter(Chosen(1, task, defaults), x, ch);
    AllOfOne(3, task, defaults, x, ch);
    AllOfOne(4, task, defaults, x, ch);
    AllOfOne(5, task, defaults, x, ch);
  }

  /** Whatever the policies, waiting comes before failing and failing before retrying. */
  lemma AfterPoliciesInOrder(s: Setup, task: Option<Spec>, defaults: Option<Spec>, x: Exec, ch: Choice)
    requires IsSetup(s, task, defaults)
    ensures AfterAll(Constructed(FACTORIES, task, defaults), x, ch) == AfterSetup(s, x, ch)
  {
    AfterFirstFive(s, task, defaults, x, ch);
    AllOfOne(6, task, defaults, x, ch);
    IdleAfter(Chosen(5, task, defaults), AfterSetup(s, x, ch), ch);
    AllOfOne(7, task, defaults, x, ch);
    IdleAfter(Chosen(6, task, defaults), AfterSetup(s, x, ch), ch);
  }

  lemma BeforeFirstFive(s: Setup, task: Option<Spec>, defaults: Option<Spec>, x: Exec)
    requires IsSetup(s, task, defaults)
    ensures BeforeFirst(5, task, defaults, x) == BeforeOne(If(s.waitBefore, WaitBefore), x)
  {
    var ch, y := Choice(false, false, false, false), BeforeOne(If(s.waitBefore, WaitBefore), x);
    AllOfOne(1, task, defaults, x, ch);
    AllOfOne(2, task, defaults, x, ch);
    AllOfOne(3, task, defaults, x, ch);
    IdleBefore(Chosen(2, task, defaults), y);
    AllOfOne(4, task, defaults, x, ch);
    IdleBefore(Chosen(3, task, defaults), y);
    AllOfOne(5, task, defaults, x, ch);
    IdleBefore(Chosen(4, task, defaults), y);
  }

  lemma BeforePoliciesInOrder(s: Setup, task: Option<Spec>, defaults: Option<Spec>, x: Exec)
    requires IsSetup(s, task, defaults)
    ensures BeforeAll(Constructed(FACTORIES, task, defaults), x) == BeforeSetup(s, x)
  {
    var ch := Choice(false, false, false, false);
    BeforeFirstFive(s, task, defaults, x);
    AllOfOne(6, task, defaults, x, ch);
    AllOfOne(7, task, defaults, x, ch);
    IdleBefore(Chosen(6, task, defaults), BeforeSetup(s, x));
  }

  /** What the policies decide: waiting is decided first, and retrying on the state that failing leaves. */
  function DecisionOf(s: Setup, x: Exec, ch: Choice): Decision {
    var fails := s.failOn && ch.failOn;
    var failed := if fails && x.state == SUCCESS then x.(state := ERROR) else x;
    Decision(s.waitAfter && !x.waitAfterDone,
             fails,
             s.retry.Some? && s.retry.value.Retry? && s.retry.value.count > 0 &&
             !StopsRetrying(s.retry.value, failed, ch))
  }

  lemma DelayedIsLeftAlone(s: Setup, x: Exec, ch: Choice)
    requires x.state == DELAYED && (s.retry.Some? ==> s.retry.value.Retry?)
    ensures AfterOne(If(s.failOn, FailOn), x, ch) == x && AfterOne(s.retry, x, ch) == x
  {
  }

  lemma FailOnDecides(s: Setup, x: Exec, ch: Choice)
    ensures AfterOne(If(s.failOn, FailOn), x, ch) ==
            if s.failOn && ch.failOn && x.state == SUCCESS then x.(state := ERROR) else x
  {
  }

  lemma RetryDecides(p: Policy, x: Exec, ch: Choice)
    requires p.Retry? && x.state in {SUCCESS, ERROR, CANCELLED}
    ensures After(p, x, ch).state ==
            if p.count > 0 && !StopsRetrying(p, x, ch) && x.state != CANCELLED then DELAYED else x.state
  {
  }

  lemma SetupDecides(s: Setup, x: Exec, ch: Choice)
    requires x.state in {SUCCESS, ERROR, CANCELLED} && (s.retry.Some? ==> s.retry.value.Retry?)
    ensures AfterSetup(s, x, ch).state == StateAfterPolicies(DecisionOf(s, x, ch), false, x.state)
  {
    var a := AfterOne(If(s.waitAfter, WaitAfter), x, ch);
    if s.waitAfter && !x.waitAfterDone {
      assert a.state == DELAYED;
      DelayedIsLeftAlone(s, a, ch);
    } else {
      assert a == x;
      FailOnDecides(s, x, ch);
      if s.retry.Some? {
        RetryDecides(s.retry.value, AfterOne(If(s.failOn, FailOn), x, ch), ch);
      }
    }
  }

  /** The effect of the configured policies on the state of a task is that of their decision. */
  lemma PoliciesDecide(s: Setup, task: Option<Spec>, defaults: Option<Spec>, x: Exec, ch: Choice)
    requires IsSetup(s, task, defaults) && x.state in {SUCCESS, ERROR, CANCELLED}
    ensures AfterAll(Constructed(FACTORIES, task, defaults), x, ch).state ==
            StateAfterPolicies(DecisionOf(s, x, ch), false, x.state)
  {
    AfterPoliciesInOrder(s, task, defaults, x, ch);
    SetupDecides(s, x, ch);
  }

  // ---------- runs ----------

  datatype Trace = Begin | Then(before: Trace, event: Event, choice: Choice)

  /** The state after a run, or nothing if some event of it cannot happen. */
  function Run(ps: seq<Policy>, tr: Trace): Option<Exec> {
    match tr
    case Begin => Some(CREATED)
    case Then(before, e, ch) =>
      var x := Run(ps, before);
      if x.Some? && Enabled(x.value, e) then Some(Deliver(ps, x.value, e, ch)) else None
  }

  /** The events of a run that did something: all but repeated requests to start. */
  function Deliveries(ps: seq<Policy>, tr: Trace): nat {
    match tr
    case Begin => 0
    case Then(before, e, _) =>
      Deliveries(ps, before) +
      if e.Start? && Run(ps, before).Some? && Run(ps, before).value.state != IDLE then 0 else 1
  }

  function Count(s: Setup): nat {
    if s.retry.Some? && s.retry.value.Retry? then s.retry.value.count else 0
  }

  /** A timeout beside a policy that has the task continued later. */
  predicate Clash(s: Setup) {
    s.timeout && (s.waitBefore || Count(s) > 0)
  }

  function Pending(x: Exec): nat {
    x.actions + x.continues + |x.completes|
  }

  ghost predicate Inv(s: Setup, x: Exec) {
    && x.computed <= 1 && x.dispatched <= x.computed
    && (IsCompleted(x.state) <==> x.computed == 1)
    && (x.state == IDLE ==> x == CREATED)
    && (x.computed == 1 ==> x.continues == 0)
    && (x.computed == 0 && x.state != IDLE ==> Pending(x) >= 1)
    && RetryNo(x) <= Count(s) && x.runs <= Count(s) + 1
    && (x.computed == 0 && x.state != IDLE ==> x.runs + x.continues == RetryNo(x) + 1)
    && (x.completes != [] ==> x.waitAfterDone && |x.completes| == 1 && x.completes[0] in {SUCCESS, ERROR, CANCELLED})
    && (s.timeout ==> x.continues == 0 && x.actions <= 1)
    && (!s.timeout ==> x.timeouts == 0 && Pending(x) <= 1 && (x.computed == 1 ==> Pending(x) == 0))
    && x.timeouts <= 1
  }

  lemma StartKeepsInv(s: Setup, x: Exec)
    requires x == CREATED && !Clash(s)
    ensures var y := BeforeSetup(s, x.(state := RUNNING));
            Inv(s, if y.state == RUNNING then Launched(y) else y)
  {
  }

  predicate IsOutcome(state: State) {
    state in {SUCCESS, ERROR, CANCELLED}
  }

  /** The three things that the policies make of a completion. */
  ghost predicate Waits(s: Setup, x: Exec, y: Exec) {
    !x.waitAfterDone && y == x.(waitAfterDone := true, state := DELAYED, completes := x.completes + [x.state])
  }

  ghost predicate Retries(s: Setup, x: Exec, y: Exec) {
    RetryNo(x) < Count(s) && y == x.(state := DELAYED, retryNo := Some(RetryNo(x) + 1), continues := x.continues + 1)
  }

  ghost predicate Finishes(x: Exec, y: Exec) {
    IsOutcome(y.state) && y.retryNo in {x.retryNo, None} && y == x.(state := y.state, retryNo := y.retryNo)
  }

  lemma AfterCompletion(s: Setup, x: Exec, ch: Choice)
    requires IsOutcome(x.state) && (s.retry.Some? ==> s.retry.value.Retry?)
    ensures var y := AfterSetup(s, x, ch); Waits(s, x, y) || Retries(s, x, y) || Finishes(x, y)
  {
    var a := AfterOne(If(s.waitAfter, WaitAfter), x, ch);
    if a != x {
      assert Waits(s, x, a);
    }
    var b := AfterOne(If(s.failOn, FailOn), a, ch);
    assert a.state == DELAYED ==> b == a;
  }

  function Tallied(y: Exec, paused: bool): Exec {
    if y.state == DELAYED then y
    else y.(computed := y.computed + 1, dispatched := y.dispatched + if paused then 0 else 1)
  }

  /** The invariant with one of the pending deliveries taken out. */
  ghost predicate Taken(s: Setup, x: Exec) {
    && x.computed <= 1 && x.dispatched <= x.computed
    && (IsCompleted(x.state) <==> x.computed == 1) && x.state != IDLE
    && x.continues == 0
    && RetryNo(x) <= Count(s) && x.runs <= Count(s) + 1
    && (x.computed == 0 ==> x.runs == RetryNo(x) + 1)
    && (x.completes != [] ==> x.waitAfterDone && |x.completes| == 1 && IsOutcome(x.completes[0]))
    && (s.timeout ==> x.actions <= 1)
    && (!s.timeout ==> x.timeouts == 0 && Pending(x) == 0)
    && x.timeouts <= 1
  }

  lemma OutcomeKeepsInv(s: Setup, x: Exec, state: State, y: Exec, paused: bool)
    requires !Clash(s) && Taken(s, x) && IsOutcome(state) && x.computed == 0
    requires var x' := x.(state := state); Waits(s, x', y) || Retries(s, x', y) || Finishes(x', y)
    ensures Inv(s, Tallied(y, paused))
  {
    var x' := x.(state := state);
    if Waits(s, x', y) {
      assert x.completes == [] && y.completes == [state];
    }
  }

  lemma CompletedIsTallied(s: Setup, task: Option<Spec>, defaults: Option<Spec>, x: Exec, state: State, ch: Choice)
    requires IsSetup(s, task, defaults) && !IsCompleted(x.state)
    ensures Completed(Constructed(FACTORIES, task, defaults), x, state, ch) ==
            Tallied(AfterSetup(s, x.(state := state), ch), ch.paused)
  {
    AfterPoliciesInOrder(s, task, defaults, x.(state := state), ch);
  }

  lemma CompletedKeepsInv(s: Setup, task: Option<Spec>, defaults: Option<Spec>, x: Exec, state: State, ch: Choice)
    requires IsSetup(s, task, defaults) && !Clash(s) && Taken(s, x) && IsOutcome(state)
    ensures Inv(s, Completed(Constructed(FACTORIES, task, defaults), x, state, ch))
  {
    if x.computed == 0 {
      CompletedIsTallied(s, task, defaults, x, state, ch);
      AfterCompletion(s, x.(state := state), ch);
      OutcomeKeepsInv(s, x, state, AfterSetup(s, x.(state := state), ch), ch.paused);
    }
  }

  lemma MinusIsTaken(s: Setup, x: Exec, e: Event)
    requires !Clash(s) && Inv(s, x) && Enabled(x, e) && !e.Start? && !e.ContinueDue?
    ensures Taken(s, Minus(x, e))
    ensures IsOutcome(Due(x, e))
  {
  }

  lemma DeliveryKeepsInv(s: Setup, task: Option<Spec>, defaults: Option<Spec>, x: Exec, e: Event, ch: Choice)
    requires IsSetup(s, task, defaults) && !Clash(s) && Inv(s, x) && Enabled(x, e)
    ensures Inv(s, Deliver(Constructed(FACTORIES, task, defaults), x, e, ch))
  {
    if e.Start? {
      if x.state == IDLE {
        BeforePoliciesInOrder(s, task, defaults, x.(state := RUNNING));
        StartKeepsInv(s, x);
      }
    } else if e.ContinueDue? {
      ContinueKeepsInv(s, x);
    } else {
      MinusIsTaken(s, x, e);
      CompletedKeepsInv(s, task, defaults, Minus(x, e), Due(x, e), ch);
    }
  }

  lemma ContinueKeepsInv(s: Setup, x: Exec)
    requires !Clash(s) && Inv(s, x) && x.continues > 0
    ensures Inv(s, Launched(x.(continues := x.continues - 1, state := RUNNING)))
  {
  }

  lemma {:induction false} RunKeepsInv(s: Setup, task: Option<Spec>, defaults: Option<Spec>, tr: Trace)
    requires IsSetup(s, task, defaults) && !Clash(s)
    requires Run(Constructed(FACTORIES, task, defaults), tr).Some?
    ensures Inv(s, Run(Constructed(FACTORIES, task, defaults), tr).value)
  {
    if tr.Begin? {
    } else {
      RunKeepsInv(s, task, defaults, tr.before);
      var x := Run(Constructed(FACTORIES, task, defaults), tr.before).value;
      DeliveryKeepsInv(s, task, defaults, x, tr.event, tr.choice);
    }
  }

  // ---------- every run ends, and computes the next commands once ----------

  /** Bounds the deliveries still to come. */
  function Budget(s: Setup, x: Exec): int {
    if x.state == IDLE then 4 * Count(s) + 7
    else
      (if IsCompleted(x.state) then 0 else 4 * (Count(s) - RetryNo(x))) +
      3 * x.continues + 2 * x.actions + 2 * |x.completes| + x.timeouts + if x.waitAfterDone then 0 else 2
  }

  lemma StartSpends(s: Setup, x: Exec)
    requires x == CREATED && !Clash(s)
    ensures var y := BeforeSetup(s, x.(state := RUNNING));
            Budget(s, if y.state == RUNNING then Launched(y) else y) < Budget(s, x)
  {
  }

  lemma OutcomeSpends(s: Setup, x: Exec, state: State, y: Exec, paused: bool)
    requires Taken(s, x) && IsOutcome(state) && x.computed == 0
    requires var x' := x.(state := state); Waits(s, x', y) || Retries(s, x', y) || Finishes(x', y)
    ensures var spent := if Retries(s, x.(state := state), y) then 1 else 0;
            Budget(s, Tallied(y, paused)) <= Budget(s, x) - spent
  {
  }

  lemma CompletedSpends(s: Setup, task: Option<Spec>, defaults: Option<Spec>, x: Exec, state: State, ch: Choice)
    requires IsSetup(s, task, defaults) && Taken(s, x) && IsOutcome(state)
    ensures Budget(s, Completed(Constructed(FACTORIES, task, defaults), x, state, ch)) <= Budget(s, x)
  {
    if x.computed == 0 {
      CompletedIsTallied(s, task, defaults, x, state, ch);
      AfterCompletion(s, x.(state := state), ch);
      OutcomeSpends(s, x, state, AfterSetup(s, x.(state := state), ch), ch.paused);
    }
  }

  lemma MinusSpends(s: Setup, x: Exec, e: Event)
    requires Inv(s, x) && Enabled(x, e) && !e.Start? && !e.ContinueDue?
    ensures Budget(s, Minus(x, e)) < Budget(s, x)
  {
  }

  lemma DeliverySpends(s: Setup, task: Option<Spec>, defaults: Option<Spec>, x: Exec, e: Event, ch: Choice)
    requires IsSetup(s, task, defaults) && !Clash(s) && Inv(s, x) && Enabled(x, e)
    requires !(e.Start? && x.state != IDLE)
    ensures Budget(s, Deliver(Constructed(FACTORIES, task, defaults), x, e, ch)) < Budget(s, x)
  {
    if e.Start? {
      BeforePoliciesInOrder(s, task, defaults, x.(state := RUNNING));
      StartSpends(s, x);
    } else if !e.ContinueDue? {
      MinusIsTaken(s, x, e);
      MinusSpends(s, x, e);
      CompletedSpends(s, task, defaults, Minus(x, e), Due(x, e), ch);
    }
  }

  lemma {:induction false} RunSpends(s: Setup, task: Option<Spec>, defaults: Option<Spec>, tr: Trace)
    requires IsSetup(s, task, defaults) && !Clash(s)
    requires Run(Constructed(FACTORIES, task, defaults), tr).Some?
    ensures Deliveries(Constructed(FACTORIES, task, defaults), tr)
            + Budget(s, Run(Constructed(FACTORIES, task, defaults), tr).value) <= 4 * Count(s) + 7
  {
    if tr.Begin? {
    } else {
      var x := Run(Constructed(FACTORIES, task, defaults), tr.before).value;
      RunSpends(s, task, defaults, tr.before);
      RunKeepsInv(s, task, defaults, tr.before);
      if !(tr.event.Start? && x.state != IDLE) {
        DeliverySpends(s, task, defaults, x, tr.event, tr.choice);
      }
    }
  }

  /**
   Without a clash, every run of a task with retry count c starts its action
   at most c + 1 times, takes a bounded number of deliveries, and computes the
   next commands once when nothing is under way any more, never twice.
   */
  lemma RetryEnds(s: Setup, task: Option<Spec>, defaults: Option<Spec>, tr: Trace)
    requires IsSetup(s, task, defaults) && !Clash(s)
    requires Run(Constructed(FACTORIES, task, defaults), tr).Some?
    ensures Deliveries(Constructed(FACTORIES, task, defaults), tr) <= 4 * Count(s) + 7
    ensures var x := Run(Constructed(FACTORIES, task, defaults), tr).value;
            && x.runs <= Count(s) + 1 && x.dispatched <= x.computed <= 1
            && (x.state != IDLE && Pending(x) == 0 ==> x.computed == 1 && IsCompleted(x.state))
  {
    RunKeepsInv(s, task, defaults, tr);
    RunSpends(s, task, defaults, tr);
  }

  predicate NeverPaused(tr: Trace) {
    tr.Then? ==> NeverPaused(tr.before) && !tr.choice.paused
  }

  lemma {:induction false} PoliciesKeepCounts(ps: seq<Policy>, x: Exec, ch: Choice)
    ensures var y := AfterAll(ps, x, ch); y.computed == x.computed && y.dispatched == x.dispatched
    ensures var y := BeforeAll(ps, x); y.computed == x.computed && y.dispatched == x.dispatched
  {
    if ps == [] {
    } else {
      PoliciesKeepCounts(ps[..|ps| - 1], x, ch);
    }
  }

  lemma DeliveryDispatchesComputed(ps: seq<Policy>, x: Exec, e: Event, ch: Choice)
    requires Enabled(x, e) && !ch.paused && x.dispatched == x.computed
    ensures var y := Deliver(ps, x, e, ch); y.dispatched == y.computed
  {
    if e.Start? {
      PoliciesKeepCounts(ps, x.(state := RUNNING), ch);
    } else if !e.ContinueDue? {
      PoliciesKeepCounts(ps, Minus(x, e).(state := Due(x, e)), ch);
    }
  }

  /** If the workflow is not paused, what is computed is dispatched. */
  lemma {:induction false} ComputedIsDispatched(ps: seq<Policy>, tr: Trace)
    requires Run(ps, tr).Some? && NeverPaused(tr)
    ensures Run(ps, tr).value.dispatched == Run(ps, tr).value.computed
  {
    if tr.Begin? {
    } else {
      ComputedIsDispatched(ps, tr.before);
      DeliveryDispatchesComputed(ps, Run(ps, tr.before).value, tr.event, tr.choice);
    }
  }

  // ---------- when a task without break-on and continue-on is retried ----------

  ghost predicate Plain(s: Setup) {
    !s.timeout && (s.retry.Some? ==> s.retry.value.Retry? && !s.retry.value.breaks && !s.retry.value.continues)
  }

  lemma PlainOutcome(s: Setup, x: Exec, ch: Choice)
    requires Plain(s) && IsOutcome(x.state) && RetryNo(x) <= Count(s)
    ensures var y := AfterSetup(s, x, ch);
            && (y.state == ERROR ==> RetryNo(x) == Count(s))
            && (Retries(s, x, y) ==> x.state == ERROR || s.failOn)
  {
    var a := AfterOne(If(s.waitAfter, WaitAfter), x, ch);
    var b := AfterOne(If(s.failOn, FailOn), a, ch);
    assert a.state == DELAYED ==> b == a;
  }

  /** A task that failed made all attempts. */
  ghost predicate FailsLast(s: Setup, x: Exec) {
    x.computed == 1 && x.state == ERROR ==> x.runs == Count(s) + 1
  }

  /** The failure for which a retry may still be due, because the completion is delayed. */
  function Owed(x: Exec): nat {
    if ERROR in x.completes then 1 else 0
  }

  /** With this many failures so far, no attempt was made without one before it. */
  ghost predicate RetriesFailures(x: Exec, failures: nat) {
    x.runs <= failures + 1 && (x.computed == 0 && x.state != IDLE ==> RetryNo(x) + Owed(x) <= failures)
  }

  lemma PlainCompletion(s: Setup, task: Option<Spec>, defaults: Option<Spec>, x: Exec, state: State, failures: nat,
                        ch: Choice)
    requires IsSetup(s, task, defaults) && Plain(s) && Taken(s, x) && IsOutcome(state) && FailsLast(s, x)
    requires !s.failOn ==> RetriesFailures(x, failures)
    requires !s.failOn && x.computed == 0 && state == ERROR ==> RetryNo(x) + 1 <= failures
    ensures var y := Completed(Constructed(FACTORIES, task, defaults), x, state, ch);
            FailsLast(s, y) && (!s.failOn ==> RetriesFailures(y, failures))
  {
    if x.computed == 0 {
      var x' := x.(state := state);
      AfterPoliciesInOrder(s, task, defaults, x', ch);
      AfterCompletion(s, x', ch);
      PlainOutcome(s, x', ch);
      PlainTally(s, x, state, AfterSetup(s, x', ch), failures, ch.paused);
    }
  }

  lemma PlainTally(s: Setup, x: Exec, state: State, y: Exec, failures: nat, paused: bool)
    requires Taken(s, x) && !s.timeout && IsOutcome(state) && x.computed == 0
    requires var x' := x.(state := state); Waits(s, x', y) || Retries(s, x', y) || Finishes(x', y)
    requires y.state == ERROR ==> RetryNo(x) == Count(s)
    requires !s.failOn ==> RetriesFailures(x, failures) && (state == ERROR ==> RetryNo(x) + 1 <= failures)
    requires !s.failOn && Retries(s, x.(state := state), y) ==> state == ERROR
    ensures FailsLast(s, Tallied(y, paused)) && (!s.failOn ==> RetriesFailures(Tallied(y, paused), failures))
  {
    assert x.completes == [];
    if Waits(s, x.(state := state), y) {
      assert y.completes == [state];
    }
  }

  function Failures(tr: Trace): nat {
    if tr.Begin? then 0 else Failures(tr.before) + if tr.event == ActionDone(ERROR) then 1 else 0
  }

  lemma PlainStart(s: Setup, x: Exec, failures: nat)
    requires Inv(s, x) && x.state == IDLE
    ensures var y := BeforeSetup(s, x.(state := RUNNING));
            var z := if y.state == RUNNING then Launched(y) else y;
            FailsLast(s, z) && RetriesFailures(z, failures)
  {
  }

  lemma PlainContinue(s: Setup, x: Exec, failures: nat)
    requires Inv(s, x) && x.continues > 0 && (!s.failOn ==> RetriesFailures(x, failures))
    ensures var y := Launched(x.(continues := x.continues - 1, state := RUNNING));
            FailsLast(s, y) && (!s.failOn ==> RetriesFailures(y, failures))
  {
  }

  /** With the delivery taken out, a failure that it brings is counted. */
  lemma PlainMinus(s: Setup, x: Exec, e: Event, failures: nat)
    requires Plain(s) && Inv(s, x) && Enabled(x, e) && !e.Start? && !e.ContinueDue? && FailsLast(s, x)
    requires !s.failOn ==> RetriesFailures(x, failures)
    ensures var failures' := failures + if e == ActionDone(ERROR) then 1 else 0;
            && FailsLast(s, Minus(x, e))
            && (!s.failOn ==> RetriesFailures(Minus(x, e), failures'))
            && (!s.failOn && x.computed == 0 && Due(x, e) == ERROR ==> RetryNo(x) + 1 <= failures')
  {
    if e.CompleteDue? {
      assert x.completes == [x.completes[0]] && e.i == 0;
      assert Minus(x, e).completes == [];
    }
  }

  lemma PlainDelivery(s: Setup, task: Option<Spec>, defaults: Option<Spec>, x: Exec, e: Event, failures: nat,
                      ch: Choice)
    requires IsSetup(s, task, defaults) && Plain(s) && Inv(s, x) && Enabled(x, e) && FailsLast(s, x)
    requires !s.failOn ==> RetriesFailures(x, failures)
    ensures var y := Deliver(Constructed(FACTORIES, task, defaults), x, e, ch);
            && FailsLast(s, y)
            && (!s.failOn ==> RetriesFailures(y, failures + if e == ActionDone(ERROR) then 1 else 0))
  {
    if e.Start? {
      if x.state == IDLE {
        BeforePoliciesInOrder(s, task, defaults, x.(state := RUNNING));
        PlainStart(s, x, failures);
      }
    } else if e.ContinueDue? {
      PlainContinue(s, x, failures);
    } else {
      PlainOther(s, task, defaults, x, e, failures, ch);
    }
  }

  lemma PlainOther(s: Setup, task: Option<Spec>, defaults: Option<Spec>, x: Exec, e: Event, failures: nat, ch: Choice)
    requires IsSetup(s, task, defaults) && Plain(s) && Inv(s, x) && Enabled(x, e) && FailsLast(s, x)
    requires !e.Start? && !e.ContinueDue? && (!s.failOn ==> RetriesFailures(x, failures))
    ensures var y := Completed(Constructed(FACTORIES, task, defaults), Minus(x, e), Due(x, e), ch);
            && FailsLast(s, y)
            && (!s.failOn ==> RetriesFailures(y, failures + if e == ActionDone(ERROR) then 1 else 0))
  {
    MinusIsTaken(s, x, e);
    PlainMinus(s, x, e, failures);
    PlainCompletion(s, task, defaults, Minus(x, e), Due(x, e), failures + if e == ActionDone(ERROR) then 1 else 0, ch);
  }

  /**
   Without break-on, continue-on and timeout, a task that fails has made all
   c + 1 attempts; and without fail-on it makes another attempt only after a
   failed one.
   */
  lemma {:induction false} AttemptsFollowFailures(s: Setup, task: Option<Spec>, defaults: Option<Spec>, tr: Trace)
    requires IsSetup(s, task, defaults) && Plain(s) && Run(Constructed(FACTORIES, task, defaults), tr).Some?
    ensures var x := Run(Constructed(FACTORIES, task, defaults), tr).value;
            && (x.computed == 1 && x.state == ERROR ==> x.runs == Count(s) + 1)
            && (!s.failOn ==> x.runs <= Failures(tr) + 1)
            && (!s.failOn ==> RetriesFailures(x, Failures(tr)))
  {
    if tr.Begin? {
    } else {
      var x := Run(Constructed(FACTORIES, task, defaults), tr.before).value;
      AttemptsFollowFailures(s, task, defaults, tr.before);
      RunKeepsInv(s, task, defaults, tr.before);
      PlainDelivery(s, task, defaults, x, tr.event, Failures(tr.before), tr.choice);
    }
  }

  // ---------- a timeout that clashes ----------

  const GO_ON := Choice(false, false, true, false)

  /** With the timeout still to come: the action runs for the k-th retry, or that retry is scheduled. */
  ghost predicate Trying(x: Exec, k: nat) {
    && x.state == RUNNING && x.actions == 1 && x.continues == 0 && x.completes == [] && x.timeouts == 1
    && RetryNo(x) == k && x.computed == 0
  }

  ghost predicate ToTry(s: Setup, x: Exec, k: nat) {
    && x.state == DELAYED && x.actions == 0 && x.continues == 1 && x.completes == [] && x.timeouts == 1
    && RetryNo(x) == k && x.computed == 0 && (k > 0 && s.waitAfter ==> x.waitAfterDone)
  }

  lemma AfterFailing(s: Setup, x: Exec)
    requires x.state == ERROR && (s.retry.Some? ==> s.retry.value.Retry?)
    ensures AfterSetup(s, x, GO_ON) ==
            if s.waitAfter && !x.waitAfterDone then
              x.(waitAfterDone := true, state := DELAYED, completes := x.completes + [ERROR])
            else if RetryNo(x) < Count(s) then
              x.(state := DELAYED, retryNo := Some(RetryNo(x) + 1), continues := x.continues + 1)
            else if Count(s) > 0 then x.(retryNo := None)
            else x
  {
    var a := AfterOne(If(s.waitAfter, WaitAfter), x, GO_ON);
    assert AfterOne(If(s.failOn, FailOn), a, GO_ON) == a;
  }

  lemma AfterCancelling(s: Setup, x: Exec)
    requires x.state == CANCELLED && (s.retry.Some? ==> s.retry.value.Retry?) && (s.waitAfter ==> x.waitAfterDone)
    ensures AfterSetup(s, x, GO_ON) == x
  {
  }

  /** What becomes of a failure that nothing delays any more. */
  function Failed(s: Setup, x: Exec): Exec {
    if RetryNo(x) < Count(s) then
      x.(state := DELAYED, retryNo := Some(RetryNo(x) + 1), continues := x.continues + 1)
    else
      x.(state := ERROR, retryNo := if Count(s) > 0 then None else x.retryNo,
         computed := x.computed + 1, dispatched := x.dispatched + 1)
  }

  lemma TalliedFailing(s: Setup, x: Exec, y: Exec)
    requires y == if s.waitAfter && !x.waitAfterDone then
                    x.(waitAfterDone := true, state := DELAYED, completes := x.completes + [ERROR])
                  else if RetryNo(x) < Count(s) then
                    x.(state := DELAYED, retryNo := Some(RetryNo(x) + 1), continues := x.continues + 1)
                  else x.(state := ERROR, retryNo := if Count(s) > 0 then None else x.retryNo)
    ensures Tallied(y, false) ==
            if s.waitAfter && !x.waitAfterDone then
              x.(waitAfterDone := true, state := DELAYED, completes := x.completes + [ERROR])
            else Failed(s, x)
  {
  }

  lemma CompletedFailing(s: Setup, task: Option<Spec>, defaults: Option<Spec>, x: Exec)
    requires IsSetup(s, task, defaults) && !IsCompleted(x.state)
    ensures Completed(Constructed(FACTORIES, task, defaults), x, ERROR, GO_ON) ==
            if s.waitAfter && !x.waitAfterDone then
              x.(waitAfterDone := true, state := DELAYED, completes := x.completes + [ERROR])
            else Failed(s, x)
  {
    CompletedIsTallied(s, task, defaults, x, ERROR, GO_ON);
    AfterFailing(s, x.(state := ERROR));
    TalliedFailing(s, x, AfterSetup(s, x.(state := ERROR), GO_ON));
  }

  /** Whatever delivers a failure, it is the completion of the execution without that delivery. */
  lemma DeliverFailing(s: Setup, task: Option<Spec>, defaults: Option<Spec>, x: Exec, e: Event)
    requires IsSetup(s, task, defaults) && x.state in {RUNNING, DELAYED} && Enabled(x, e)
    requires e in {ActionDone(ERROR), TimeoutDue} || (e.CompleteDue? && x.completes[e.i] == ERROR)
    ensures var y := Minus(x, e);
            Deliver(Constructed(FACTORIES, task, defaults), x, e, GO_ON) ==
            if s.waitAfter && !y.waitAfterDone then
              y.(waitAfterDone := true, state := DELAYED, completes := y.completes + [ERROR])
            else Failed(s, y)
  {
    CompletedFailing(s, task, defaults, Minus(x, e));
  }

  lemma DelayedFailing(s: Setup, x: Exec)
    requires x.completes == []
    ensures var y := x.(waitAfterDone := true, state := DELAYED, completes := x.completes + [ERROR]);
            && Enabled(y, CompleteDue(0)) && y.completes[0] == ERROR
            && Failed(s, Minus(y, CompleteDue(0))) == Failed(s, x.(waitAfterDone := true))
  {
    assert [ERROR][..0] + [ERROR][1..] == [];
  }

  /** If the failure is delayed by wait-after, the delayed completion fails the task again. */
  lemma Fail(s: Setup, task: Option<Spec>, defaults: Option<Spec>, tr: Trace, x: Exec, e: Event) returns (tr': Trace)
    requires IsSetup(s, task, defaults) && Run(Constructed(FACTORIES, task, defaults), tr) == Some(x)
    requires e in {ActionDone(ERROR), TimeoutDue} && x.state in {RUNNING, DELAYED} && Enabled(x, e) && x.completes == []
    ensures Run(Constructed(FACTORIES, task, defaults), tr') ==
            Some(Failed(s, Minus(x, e).(waitAfterDone := x.waitAfterDone || s.waitAfter)))
  {
    var ps := Constructed(FACTORIES, task, defaults);
    DeliverFailing(s, task, defaults, x, e);
    tr' := Then(tr, e, GO_ON);
    if s.waitAfter && !x.waitAfterDone {
      DelayedFailing(s, Minus(x, e));
      DeliverFailing(s, task, defaults, Deliver(ps, x, e, GO_ON), CompleteDue(0));
      tr' := Then(tr', CompleteDue(0), GO_ON);
    } else {
      assert Minus(x, e) == Minus(x, e).(waitAfterDone := x.waitAfterDone || s.waitAfter);
    }
  }

  lemma Proceed(s: Setup, task: Option<Spec>, defaults: Option<Spec>, tr: Trace, k: nat) returns (tr': Trace)
    requires Run(Constructed(FACTORIES, task, defaults), tr).Some?
    requires ToTry(s, Run(Constructed(FACTORIES, task, defaults), tr).value, k)
    ensures Run(Constructed(FACTORIES, task, defaults), tr').Some?
    ensures Trying(Run(Constructed(FACTORIES, task, defaults), tr').value, k)
  {
    tr' := Then(tr, ContinueDue, GO_ON);
  }

  lemma Begins(s: Setup, task: Option<Spec>, defaults: Option<Spec>)
    requires IsSetup(s, task, defaults) && s.timeout
    ensures var x := Deliver(Constructed(FACTORIES, task, defaults), CREATED, Start, GO_ON);
            if s.waitBefore then ToTry(s, x, 0) else Trying(x, 0)
  {
    BeforePoliciesInOrder(s, task, defaults, CREATED.(state := RUNNING));
  }

  lemma FailedIsToTry(s: Setup, x: Exec, k: nat)
    requires Trying(x, k) && k < Count(s)
    ensures ToTry(s, Failed(s, Minus(x, ActionDone(ERROR)).(waitAfterDone := x.waitAfterDone || s.waitAfter)), k + 1)
  {
  }

  lemma {:induction false} Exhaust(s: Setup, task: Option<Spec>, defaults: Option<Spec>, k: nat) returns (tr: Trace)
    requires IsSetup(s, task, defaults) && Clash(s) && k <= Count(s) && (k == 0 ==> s.waitBefore)
    ensures Run(Constructed(FACTORIES, task, defaults), tr).Some?
    ensures ToTry(s, Run(Constructed(FACTORIES, task, defaults), tr).value, k)
  {
    if k == 0 || (k == 1 && !s.waitBefore) {
      tr := Then(Begin, Start, GO_ON);
      Begins(s, task, defaults);
      assert Run(Constructed(FACTORIES, task, defaults), Begin) == Some(CREATED);
    } else {
      tr := Exhaust(s, task, defaults, k - 1);
      tr := Proceed(s, task, defaults, tr, k - 1);
    }
    if k > 0 {
      var x := Run(Constructed(FACTORIES, task, defaults), tr).value;
      FailedIsToTry(s, x, k - 1);
      tr := Fail(s, task, defaults, tr, x, ActionDone(ERROR));
    }
  }

  lemma ContinueFinished(s: Setup, task: Option<Spec>, defaults: Option<Spec>, x: Exec)
    requires IsSetup(s, task, defaults) && x.continues > 0 && (s.waitAfter ==> x.waitAfterDone)
    ensures var y := Deliver(Constructed(FACTORIES, task, defaults), x, ContinueDue, GO_ON);
            && Enabled(y, ActionDone(CANCELLED))
            && Deliver(Constructed(FACTORIES, task, defaults), y, ActionDone(CANCELLED), GO_ON).computed ==
               x.computed + 1
  {
    var y := x.(continues := x.continues - 1, state := CANCELLED, runs := x.runs + 1);
    AfterPoliciesInOrder(s, task, defaults, y, GO_ON);
    AfterCancelling(s, y);
    var run := Launched(x.(continues := x.continues - 1, state := RUNNING));
    assert y == Minus(run, ActionDone(CANCELLED)).(state := CANCELLED);
  }

  /** The task times out, and is continued and completed once more. */
  lemma ClashComputesTwice(s: Setup, task: Option<Spec>, defaults: Option<Spec>) returns (tr: Trace)
    requires IsSetup(s, task, defaults) && Clash(s)
    ensures Run(Constructed(FACTORIES, task, defaults), tr).Some?
    ensures Run(Constructed(FACTORIES, task, defaults), tr).value.computed == 2
  {
    tr := Exhaust(s, task, defaults, Count(s));
    tr := Fail(s, task, defaults, tr, Run(Constructed(FACTORIES, task, defaults), tr).value, TimeoutDue);
    ContinueFinished(s, task, defaults, Run(Constructed(FACTORIES, task, defaults), tr).value);
    tr := Then(Then(tr, ContinueDue, GO_ON), ActionDone(CANCELLED), GO_ON);
  }

  ghost predicate ComputesOnce(ps: seq<Policy>) {
    forall tr :: Run(ps, tr).Some? ==> Run(ps, tr).value.computed <= 1
  }

  /** The next commands are computed at most once in every run exactly if there is no clash. */
  lemma ComputesOnceExactly(s: Setup, task: Option<Spec>, defaults: Option<Spec>)
    requires IsSetup(s, task, defaults)
    ensures ComputesOnce(Constructed(FACTORIES, task, defaults)) <==> !Clash(s)
  {
    var ps := Constructed(FACTORIES, task, defaults);
    if Clash(s) {
      var tr := ClashComputesTwice(s, task, defaults);
    } else {
      forall tr | Run(ps, tr).Some?
        ensures Run(ps, tr).value.computed <= 1
      {
        RetryEnds(s, task, defaults, tr);
      }
    }
  }

  /** The same of every configuration without pause-before, by what it configures. */
  lemma ConfigurationComputesOnce(task: Option<Spec>, defaults: Option<Spec>)
    requires Chosen(0, task, defaults) == None
    ensures ComputesOnce(Constructed(FACTORIES, task, defaults)) <==>
            (Chosen(5, task, defaults).Some? ==>
               Chosen(1, task, defaults).None? &&
               (Chosen(4, task, defaults).Some? ==> Chosen(4, task, defaults).value.count == 0))
  {
    ComputesOnceExactly(SetupOf(task, defaults), task, defaults);
  }
}
