/**
 Runs of a direct workflow as a state machine.  Every step is one transaction
 together with the operations it registers to run after it.  Expressions are
 choices: `holds` is the set of guarded transitions whose condition is true.
 */
module DirectRun {
  import opened States
  import opened WorkflowSpec
  import opened JoinLogic
  import opened AffectedJoins
  import opened Policies

  // ---------- what a completed task leads to ----------

  function Chosen(clause: seq<Transition>, event: Event, holds: set<NextTask>): seq<NextTask> {
    if clause == [] then [] else
      var entry := NextTask(clause[0].to, event);
      (if !clause[0].guarded || entry in holds then [entry] else []) + Chosen(clause[1..], event, holds)
  }

  function FindNextTasks(s: Spec, t: Name, st: State, holds: set<NextTask>): seq<NextTask>
    requires t in s.tasks
  {
    var spec := s.tasks[t];
    var skips := if st == SKIPPED then Chosen(spec.onSkip, OnSkip, holds) else [];
    (if st == ERROR then Chosen(spec.onError, OnError, holds) else []) +
    skips +
    (if st == SUCCESS || (st == SKIPPED && skips == []) then Chosen(spec.onSuccess, OnSuccess, holds) else []) +
    (if st in {SUCCESS, ERROR} then Chosen(spec.onComplete, OnComplete, holds) else [])
  }

  /** The entries that name tasks; these are saved with the completed task. */
  function TaskEntries(cmds: seq<NextTask>): (r: seq<NextTask>)
    ensures forall n :: n in r <==> n in cmds && n.name !in ENGINE_COMMANDS
  {
    if cmds == [] then [] else
      var last := |cmds| - 1;
      TaskEntries(cmds[..last]) + if cmds[last].name in ENGINE_COMMANDS then [] else [cmds[last]]
  }

  predicate ChangesState(n: NextTask) {
    n.name in {FAIL, SUCCEED, PAUSE}
  }

  /** Only the tasks ahead of the first command that changes the workflow state are launched. */
  function Launched(cmds: seq<NextTask>): set<Name> {
    if cmds == [] || ChangesState(cmds[0]) then {}
    else (if cmds[0].name == NOOP then {} else {cmds[0].name}) + Launched(cmds[1..])
  }

  /** The workflow state after dispatching the commands. */
  function StateAfter(cmds: seq<NextTask>, wf: State): State {
    if cmds == [] then wf
    else if cmds[0].name == FAIL then ERROR
    else if cmds[0].name == SUCCEED then SUCCESS
    else if cmds[0].name == PAUSE then PAUSED
    else StateAfter(cmds[1..], wf)
  }

  predicate HandlesError(cmds: seq<NextTask>) {
    exists n :: n in cmds && n.event == OnError
  }

  // ---------- the state machine ----------

  /** `refresh`: joins with a pending refresh; `check`: a completion check is pending. */
  datatype Run = Run(execs: Table, wf: State, refresh: set<Name>, check: bool)

  const INIT := Run(map[], IDLE, {}, false)

  datatype Action =
    | Start
    | Progress(task: Name, to: State)
    | Complete(task: Name, outcome: State, policies: Decision, holds: set<NextTask>)
    | Refresh(task: Name, policies: Decision, holds: set<NextTask>)
    | Check
    | Stop(outcome: State)

  const NEW_TASK := TaskEx(IDLE, [], false, false)
  const NEW_JOIN := TaskEx(WAITING, [], false, false)

  /** A join is created waiting, or put back to waiting; any other task gets a new execution. */
  function Launch(s: Spec, db: Table, n: Name): TaskEx {
    if !IsJoin(s, n) then NEW_TASK
    else if n in db then db[n].(state := WAITING)
    else NEW_JOIN
  }

  function LaunchAll(s: Spec, db: Table, names: set<Name>): Table {
    map n | n in db.Keys + names :: if n in names then Launch(s, db, n) else db[n]
  }

  function Commands(s: Spec, wf: State, t: Name, st: State, holds: set<NextTask>): seq<NextTask>
    requires t in s.tasks
  {
    if IsCompleted(wf) then [] else FindNextTasks(s, t, st, holds)
  }

  function CompletedEx(old_: TaskEx, st: State, cmds: seq<NextTask>): TaskEx {
    TaskEx(st, TaskEntries(cmds), TaskEntries(cmds) != [],
           if st == ERROR then HandlesError(cmds) else old_.errorHandled)
  }

  ghost function FinishTask(s: Spec, r: Run, t: Name, st: State, holds: set<NextTask>): Run
    requires t in s.tasks && t in r.execs
  {
    var cmds := Commands(s, r.wf, t, st, holds);
    var db := LaunchAll(s, r.execs[t := CompletedEx(r.execs[t], st, cmds)], Launched(cmds));
    var wf := StateAfter(cmds, r.wf);
    Run(db, wf,
        if IsCompleted(wf) then r.refresh else r.refresh + Affected(s, db.Keys, t),
        r.check || TaskEntries(cmds) == [])
  }

  /** A task is completed with st unless its policies delay or retry it; a retried join gets a refresh. */
  ghost function CompleteTask(s: Spec, r: Run, t: Name, st: State, d: Decision, holds: set<NextTask>): Run
    requires t in s.tasks && t in r.execs
  {
    var end := StateAfterPolicies(d, IsJoin(s, t), st);
    if IsCompleted(end) then FinishTask(s, r, t, end, holds)
    else
      r.(execs := r.execs[t := r.execs[t].(state := end)],
         refresh := if end == WAITING then r.refresh + {t} else r.refresh)
  }

  predicate AllCompleted(db: Table) {
    forall t :: t in db ==> IsCompleted(db[t].state)
  }

  function FinalState(db: Table): State {
    if exists t :: t in db && db[t].state == CANCELLED then CANCELLED
    else if forall t :: t in db && db[t].state == ERROR ==> db[t].errorHandled then SUCCESS
    else ERROR
  }

  /**
   The runs considered: no pause command, and at most one execution per task,
   so a task that is not a join is launched only once.
   */
  predicate Sane(s: Spec, db: Table, cmds: seq<NextTask>) {
    && (forall n :: n in cmds ==> n.name != PAUSE)
    && (forall n :: n in Launched(cmds) && !IsJoin(s, n) ==> n !in db)
    && (forall i, k :: 0 <= i < k < |cmds| && cmds[i].name == cmds[k].name ==>
          IsJoin(s, cmds[i].name) || cmds[i].name in ENGINE_COMMANDS)
  }

  function StartTasks(s: Spec): set<Name> {
    set t | t in s.tasks && Inbound(s, t) == []
  }

  /** The executions a started workflow begins with. */
  function StartTable(s: Spec): Table {
    map t | t in StartTasks(s) :: NEW_TASK
  }

  /** A completion with which the policies agree leads to commands of the kind considered. */
  predicate MayComplete(s: Spec, r: Run, t: Name, st: State, d: Decision, holds: set<NextTask>)
    requires t in s.tasks
  {
    var end := StateAfterPolicies(d, IsJoin(s, t), st);
    IsCompleted(end) ==> Sane(s, r.execs, Commands(s, r.wf, t, end, holds))
  }

  ghost predicate Enabled(s: Spec, r: Run, a: Action)
    requires Valid(s) && Acyclic(s)
  {
    match a
    case Start => r.wf == IDLE && r.execs == map[]
    case Progress(t, st) =>
      t in r.execs && !IsCompleted(r.execs[t].state) && !IsCompleted(st) && st != WAITING
    case Complete(t, st, d, holds) =>
      && t in s.tasks && t in r.execs && !IsCompleted(r.execs[t].state) && st in {SUCCESS, ERROR, CANCELLED}
      && MayComplete(s, r, t, st, d, holds)
    case Refresh(t, d, holds) =>
      && t in r.refresh && IsJoin(s, t) && t in r.execs
      && (RefreshActs(r, t) && Verdict(s, r.execs, t) == ERROR ==> MayComplete(s, r, t, ERROR, d, holds))
    case Check => r.check
    case Stop(st) => r.wf == RUNNING && st in {SUCCESS, ERROR, CANCELLED}
  }

  /** A refresh looks further only at an execution that neither runs nor is completed. */
  predicate RefreshActs(r: Run, t: Name)
    requires t in r.execs
  {
    !IsCompleted(r.execs[t].state) && r.execs[t].state != RUNNING && !IsCompleted(r.wf)
  }

  /** A refresh of t that finds the given logical state. */
  ghost function RefreshTask(s: Spec, r: Run, t: Name, verdict: State, d: Decision, holds: set<NextTask>): Run
    requires IsJoin(s, t) && t in r.execs
  {
    var r0 := r.(refresh := r.refresh - {t});
    if !RefreshActs(r, t) then r0
    else if verdict == RUNNING then r0.(execs := r.execs[t := r.execs[t].(state := RUNNING)])
    else if verdict == ERROR then CompleteTask(s, r0, t, ERROR, d, holds)
    else r0
  }

  ghost function CheckCompletion(r: Run): Run {
    if IsPausedOrCompleted(r.wf) || !AllCompleted(r.execs) then r.(check := false)
    else r.(check := false, wf := FinalState(r.execs))
  }

  ghost function Apply(s: Spec, r: Run, a: Action): Run
    requires Valid(s) && Acyclic(s) && Enabled(s, r, a)
  {
    match a
    case Start => r.(wf := RUNNING, execs := StartTable(s))
    case Progress(t, st) => r.(execs := r.execs[t := r.execs[t].(state := st)])
    case Complete(t, st, d, holds) => CompleteTask(s, r, t, st, d, holds)
    case Refresh(t, d, holds) => RefreshTask(s, r, t, Verdict(s, r.execs, t), d, holds)
    case Check => CheckCompletion(r)
    case Stop(st) => r.(wf := st)
  }

  // ---------- runs ----------

  /** The steps of a run, latest last. */
  datatype Trace = Begin | Then(before: Trace, action: Action)

  datatype Outcome = Impossible | State(run: Run)

  /** The state a trace leads to, if each of its steps is enabled when it is taken. */
  ghost function After(s: Spec, tr: Trace): Outcome
    requires Valid(s) && Acyclic(s)
  {
    match tr
    case Begin => State(INIT)
    case Then(before, a) =>
      match After(s, before)
      case State(r) => if Enabled(s, r, a) then State(Apply(s, r, a)) else Impossible
      case Impossible => Impossible
  }

  ghost predicate Reachable(s: Spec, r: Run)
    requires Valid(s) && Acyclic(s)
  {
    exists tr :: After(s, tr) == State(r)
  }

  /** The trace `tr` continues the trace `early`. */
  ghost predicate Continues(early: Trace, tr: Trace) {
    early == tr || (tr.Then? && Continues(early, tr.before))
  }

  // ---------- facts about commands ----------

  lemma {:induction false} ChosenAreTargets(clause: seq<Transition>, event: Event, holds: set<NextTask>, n: NextTask)
    requires n in Chosen(clause, event, holds)
    ensures n.name in Targets(clause)
  {
    if n == NextTask(clause[0].to, event) {
      assert clause[0] in clause;
    } else {
      ChosenAreTargets(clause[1..], event, holds, n);
      var tr :| tr in clause[1..] && tr.to == n.name;
      assert tr in clause;
    }
  }

  /** Some transition of the clause leads to n under a condition that holds. */
  ghost predicate Listed(clause: seq<Transition>, n: NextTask, holds: set<NextTask>) {
    exists tr :: tr in clause && tr.to == n.name && (!tr.guarded || n in holds)
  }

  lemma {:induction false} ChosenAreListed(clause: seq<Transition>, event: Event, holds: set<NextTask>, n: NextTask)
    ensures n in Chosen(clause, event, holds) <==> n.event == event && Listed(clause, n, holds)
  {
    if clause == [] {
    } else {
      ChosenAreListed(clause[1..], event, holds, n);
      assert forall tr :: tr in clause <==> tr == clause[0] || tr in clause[1..];
    }
  }

  /** Which events a task raises at its end, and so what it leads to; a skipped task falls back to "on-success". */
  lemma NextTasksMean(s: Spec, t: Name, st: State, holds: set<NextTask>, n: NextTask)
    requires t in s.tasks && IsCompleted(st)
    ensures var spec := s.tasks[t];
            n in FindNextTasks(s, t, st, holds) <==>
            match n.event
            case OnError => st == ERROR && Listed(spec.onError, n, holds)
            case OnSkip => st == SKIPPED && Listed(spec.onSkip, n, holds)
            case OnSuccess =>
              && Listed(spec.onSuccess, n, holds)
              && (st == SUCCESS ||
                  (st == SKIPPED && forall m: NextTask :: m.event == OnSkip ==> !Listed(spec.onSkip, m, holds)))
            case OnComplete => st !in {CANCELLED, SKIPPED} && Listed(spec.onComplete, n, holds)
  {
    var spec := s.tasks[t];
    ChosenAreListed(spec.onError, OnError, holds, n);
    ChosenAreListed(spec.onSkip, OnSkip, holds, n);
    ChosenAreListed(spec.onSuccess, OnSuccess, holds, n);
    ChosenAreListed(spec.onComplete, OnComplete, holds, n);
    NoneListed(spec.onSkip, OnSkip, holds);
  }

  lemma NoneListed(clause: seq<Transition>, event: Event, holds: set<NextTask>)
    ensures Chosen(clause, event, holds) == [] <==> forall m: NextTask :: m.event == event ==> !Listed(clause, m, holds)
  {
    var all := Chosen(clause, event, holds);
    if all != [] {
      ChosenAreListed(clause, event, holds, all[0]);
    } else {
      forall m: NextTask | m.event == event
        ensures !Listed(clause, m, holds)
      {
        ChosenAreListed(clause, event, holds, m);
      }
    }
  }

  lemma NextAreOutbound(s: Spec, t: Name, st: State, holds: set<NextTask>)
    requires t in s.tasks
    ensures forall n :: n in FindNextTasks(s, t, st, holds) ==> n.name in Outbound(s, t)
  {
    var spec := s.tasks[t];
    forall n | n in FindNextTasks(s, t, st, holds)
      ensures n.name in Outbound(s, t)
    {
      if n in Chosen(spec.onError, OnError, holds) {
        ChosenAreTargets(spec.onError, OnError, holds, n);
      } else if n in Chosen(spec.onSkip, OnSkip, holds) {
        ChosenAreTargets(spec.onSkip, OnSkip, holds, n);
      } else if n in Chosen(spec.onSuccess, OnSuccess, holds) {
        ChosenAreTargets(spec.onSuccess, OnSuccess, holds, n);
      } else {
        ChosenAreTargets(spec.onComplete, OnComplete, holds, n);
      }
    }
  }

  /** Launched names come from entries that name tasks, and without a state change all of them are launched. */
  lemma {:induction false} LaunchedNames(cmds: seq<NextTask>, wf: State)
    requires forall n :: n in cmds ==> n.name != PAUSE
    ensures forall x :: x in Launched(cmds) ==> exists n :: n in cmds && n.name !in ENGINE_COMMANDS && n.name == x
    ensures StateAfter(cmds, wf) in {wf, SUCCESS, ERROR}
    ensures StateAfter(cmds, wf) !in {SUCCESS, ERROR} ==>
              forall n :: n in cmds && n.name !in ENGINE_COMMANDS ==> n.name in Launched(cmds)
  {
    if cmds == [] {
    } else {
      assert forall n :: n in cmds <==> n == cmds[0] || n in cmds[1..];
      LaunchedNames(cmds[1..], wf);
    }
  }
}
