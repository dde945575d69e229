/** What every run of a direct workflow keeps, and what follows. */
module DirectTheorems {
  import opened States
  import opened WorkflowSpec
  import opened JoinLogic
  import opened AffectedJoins
  import opened JoinMoves
  import opened Policies
  import opened DirectRun

  // ---------- the invariant ----------

  ghost predicate Shape(s: Spec, r: Run) {
    && r.execs.Keys <= s.tasks.Keys
    && (forall t :: t in r.execs && r.execs[t].state == WAITING ==> IsJoin(s, t))
    && (forall t :: t in r.refresh ==> t in r.execs && IsJoin(s, t))
    && r.wf in {IDLE, RUNNING, SUCCESS, CANCELLED, ERROR}
    && (r.wf == IDLE ==> r.execs == map[])
  }

  /** Every waiting join that has a verdict, other than `spared`, has a pending refresh. */
  ghost predicate Awake(s: Spec, db: Table, refresh: set<Name>, spared: set<Name>)
    requires Valid(s) && Acyclic(s)
  {
    forall j :: j in db && IsJoin(s, j) && db[j].state == WAITING && j !in spared ==>
      Verdict(s, db, j) == WAITING || j in refresh
  }

  ghost predicate Checked(r: Run) {
    AllCompleted(r.execs) ==> r.check
  }

  ghost predicate Inv(s: Spec, r: Run)
    requires Valid(s) && Acyclic(s)
  {
    match r
    case Run(execs, wf, refresh, _) =>
      Shape(s, r) && (wf == RUNNING ==> Grounded(s, execs) && Awake(s, execs, refresh, {}) && Checked(r))
  }

  // ---------- completing a task ----------

  /** The commands of a task lead to other tasks of the definition. */
  lemma CommandFacts(s: Spec, wf: State, t: Name, st: State, holds: set<NextTask>)
    requires Valid(s) && Acyclic(s) && t in s.tasks
    ensures var cmds := Commands(s, wf, t, st, holds);
            && (forall n :: n in TaskEntries(cmds) ==> Edge(s, t, n.name))
            && (forall x :: x in Launched(cmds) && (forall n :: n in cmds ==> n.name != PAUSE) ==>
                  Edge(s, t, x) && x != t)
  {
    var cmds := Commands(s, wf, t, st, holds);
    NextAreOutbound(s, t, st, holds);
    forall n | n in TaskEntries(cmds)
      ensures Edge(s, t, n.name)
    {
      assert n.name in Outbound(s, t);
    }
    if forall n :: n in cmds ==> n.name != PAUSE {
      LaunchedNames(cmds, wf);
      forall x | x in Launched(cmds)
        ensures Edge(s, t, x) && x != t
      {
        var n :| n in cmds && n.name !in ENGINE_COMMANDS && n.name == x;
        assert n in TaskEntries(cmds);
        EdgeReaches(s, t, x);
      }
    }
  }

  lemma FinishOnlyCompletes(s: Spec, r: Run, t: Name, st: State, holds: set<NextTask>)
    requires Valid(s) && Acyclic(s) && t in s.tasks && t in r.execs
    requires !IsCompleted(r.execs[t].state) && Sane(s, r.execs, Commands(s, r.wf, t, st, holds))
    ensures OnlyCompletes(r.execs, FinishTask(s, r, t, st, holds).execs, t)
  {
    CommandFacts(s, r.wf, t, st, holds);
  }

  lemma FinishKeepsShape(s: Spec, r: Run, t: Name, st: State, holds: set<NextTask>)
    requires Valid(s) && Acyclic(s) && Shape(s, r) && t in s.tasks && t in r.execs && st in {SUCCESS, ERROR, CANCELLED}
    requires !IsCompleted(r.execs[t].state) && Sane(s, r.execs, Commands(s, r.wf, t, st, holds))
    ensures Shape(s, FinishTask(s, r, t, st, holds))
  {
    var cmds := Commands(s, r.wf, t, st, holds);
    CommandFacts(s, r.wf, t, st, holds);
    LaunchedNames(cmds, r.wf);
    var db := r.execs[t := CompletedEx(r.execs[t], st, cmds)];
    LaunchKeepsShape(s, db, Launched(cmds));
    AffectedAreJoins(s, LaunchAll(s, db, Launched(cmds)).Keys, t);
  }

  lemma LaunchKeepsShape(s: Spec, db: Table, names: set<Name>)
    requires db.Keys <= s.tasks.Keys && names <= s.tasks.Keys
    requires forall x :: x in db && db[x].state == WAITING ==> IsJoin(s, x)
    ensures var db' := LaunchAll(s, db, names);
            && db.Keys <= db'.Keys <= s.tasks.Keys
            && forall x :: x in db' && db'[x].state == WAITING ==> IsJoin(s, x)
  {
  }

  lemma AffectedAreJoins(s: Spec, existing: set<Name>, t: Name)
    ensures forall x :: x in Affected(s, existing, t) ==> x in existing && IsJoin(s, x)
  {
  }

  /** Completing t and launching all it leads to keeps the table grounded. */
  lemma LaunchKeepsGrounded(s: Spec, db: Table, t: Name, ex: TaskEx, names: set<Name>)
    requires Grounded(s, db) && t in db && t !in names && names <= s.tasks.Keys && NextNames(ex) <= names
    requires forall n :: n in names && !IsJoin(s, n) ==> n !in db
    ensures Grounded(s, LaunchAll(s, db[t := ex], names))
  {
    var db' := LaunchAll(s, db[t := ex], names);
    forall x | x in db' && IsCompleted(db'[x].state)
      ensures NextNames(db'[x]) <= db'.Keys
    {
      assert x !in names;
    }
  }

  /** What is launched is incomplete afterwards. */
  lemma LaunchedAreIncomplete(s: Spec, db: Table, names: set<Name>, n: Name)
    requires n in names
    ensures !AllCompleted(LaunchAll(s, db, names))
  {
    assert !IsCompleted(LaunchAll(s, db, names)[n].state);
  }

  lemma FinishKeepsGrounded(s: Spec, r: Run, t: Name, st: State, holds: set<NextTask>)
    requires Valid(s) && Acyclic(s) && Shape(s, r) && t in s.tasks && t in r.execs && st in {SUCCESS, ERROR, CANCELLED}
    requires !IsCompleted(r.execs[t].state) && Sane(s, r.execs, Commands(s, r.wf, t, st, holds))
    requires r.wf == RUNNING && Grounded(s, r.execs)
    requires FinishTask(s, r, t, st, holds).wf == RUNNING
    ensures Grounded(s, FinishTask(s, r, t, st, holds).execs) && Checked(FinishTask(s, r, t, st, holds))
  {
    var cmds := Commands(s, r.wf, t, st, holds);
    CommandFacts(s, r.wf, t, st, holds);
    LaunchedNames(cmds, r.wf);
    var ex := CompletedEx(r.execs[t], st, cmds);
    LaunchKeepsGrounded(s, r.execs, t, ex, Launched(cmds));
    if TaskEntries(cmds) != [] {
      var n := TaskEntries(cmds)[0];
      LaunchedAreIncomplete(s, r.execs[t := ex], Launched(cmds), n.name);
    }
  }

  lemma FinishKeepsAwake(s: Spec, r: Run, t: Name, st: State, holds: set<NextTask>)
    requires Valid(s) && Acyclic(s) && Shape(s, r) && t in s.tasks && t in r.execs && st in {SUCCESS, ERROR, CANCELLED}
    requires !IsCompleted(r.execs[t].state) && Sane(s, r.execs, Commands(s, r.wf, t, st, holds))
    requires r.wf == RUNNING && Awake(s, r.execs, r.refresh, {t})
    requires FinishTask(s, r, t, st, holds).wf == RUNNING
    ensures var r' := FinishTask(s, r, t, st, holds); Awake(s, r'.execs, r'.refresh, {})
  {
    var r', cmds := FinishTask(s, r, t, st, holds), Commands(s, r.wf, t, st, holds);
    CommandFacts(s, r.wf, t, st, holds);
    FinishOnlyCompletes(s, r, t, st, holds);
    FinishKeepsShape(s, r, t, st, holds);
    LaunchKeepsAwake(s, r.execs, r'.execs, r.refresh, t, Launched(cmds));
  }

  lemma LaunchKeepsAwake(s: Spec, db: Table, db': Table, refresh: set<Name>, t: Name, names: set<Name>)
    requires Valid(s) && Acyclic(s) && db'.Keys <= s.tasks.Keys && OnlyCompletes(db, db', t)
    requires Awake(s, db, refresh, {t}) && t in db' && IsCompleted(db'[t].state)
    requires forall x :: x in names ==> Edge(s, t, x) && x != t
    requires forall x :: x in db' && x != t && x !in names ==> x in db && db'[x] == db[x]
    ensures Awake(s, db', refresh + Affected(s, db'.Keys, t), {})
  {
    forall j | j in db' && IsJoin(s, j) && db'[j].state == WAITING && Verdict(s, db', j) != WAITING
      ensures j in refresh + Affected(s, db'.Keys, t)
    {
      if j in names {
        OpenStep(s, db'.Keys, t, j);
      } else {
        WokenIsAffected(s, db, db', refresh, t, j);
      }
    }
  }

  lemma WokenIsAffected(s: Spec, db: Table, db': Table, refresh: set<Name>, t: Name, j: Name)
    requires Valid(s) && Acyclic(s) && db'.Keys <= s.tasks.Keys && OnlyCompletes(db, db', t)
    requires Awake(s, db, refresh, {t}) && j in db && IsJoin(s, j) && j != t && db[j].state == WAITING
    requires j in db' && db'[j].state == WAITING && Verdict(s, db', j) != WAITING
    ensures j in refresh + Affected(s, db'.Keys, t)
  {
    if Verdict(s, db, j) == WAITING {
      AffectedMissesNothing(s, db, db', t, j);
    }
  }

  // ---------- steps that complete nothing ----------

  /** Replacing one incomplete execution by another gives no join a verdict. */
  lemma QuietChange(s: Spec, db: Table, t: Name, ex: TaskEx, j: Name)
    requires Valid(s) && Acyclic(s) && IsJoin(s, j)
    requires t in db && !IsCompleted(db[t].state) && !IsCompleted(ex.state)
    ensures Verdict(s, db, j) == WAITING ==> Verdict(s, db[t := ex], j) == WAITING
  {
    if Verdict(s, db, j) == WAITING && Verdict(s, db[t := ex], j) != WAITING {
      NewVerdictIsOpenFrom(s, db, db[t := ex], t, j);
    }
  }

  lemma QuietKeepsAwake(s: Spec, db: Table, refresh: set<Name>, refresh': set<Name>, t: Name, ex: TaskEx)
    requires Valid(s) && Acyclic(s) && t in db && Awake(s, db, refresh, {t})
    requires !IsCompleted(db[t].state) && !IsCompleted(ex.state) && (ex.state == WAITING ==> t in refresh')
    requires refresh - {t} <= refresh'
    ensures Awake(s, db[t := ex], refresh', {})
  {
    forall j | j in db[t := ex] && IsJoin(s, j) && db[t := ex][j].state == WAITING &&
               Verdict(s, db[t := ex], j) != WAITING
      ensures j in refresh'
    {
      QuietChange(s, db, t, ex, j);
    }
  }

  lemma QuietKeepsGrounded(s: Spec, db: Table, t: Name, ex: TaskEx)
    requires Grounded(s, db) && t in db && !IsCompleted(ex.state)
    ensures Grounded(s, db[t := ex])
  {
    var db' := db[t := ex];
    forall x | x in db' && IsCompleted(db'[x].state)
      ensures NextNames(db'[x]) <= db'.Keys
    {
      assert db'[x] == db[x];
    }
  }

  lemma QuietKeepsInv(s: Spec, r: Run, r': Run, t: Name, ex: TaskEx)
    requires Valid(s) && Acyclic(s) && Shape(s, r) && t in r.execs
    requires r.wf == RUNNING ==> Grounded(s, r.execs) && Awake(s, r.execs, r.refresh, {t})
    requires !IsCompleted(r.execs[t].state) && !IsCompleted(ex.state)
    requires ex.state == WAITING ==> IsJoin(s, t) && t in r'.refresh
    requires r'.execs == r.execs[t := ex] && r'.wf == r.wf
    requires r.refresh - {t} <= r'.refresh <= r.refresh + (if IsJoin(s, t) then {t} else {})
    ensures Inv(s, r')
  {
    if r.wf == RUNNING {
      QuietKeepsAwake(s, r.execs, r.refresh, r'.refresh, t, ex);
      QuietKeepsGrounded(s, r.execs, t, ex);
      assert !IsCompleted(r'.execs[t].state);
    }
  }

  /** Dispatching never revives a workflow. */
  lemma FinishStartsRunning(s: Spec, r: Run, t: Name, st: State, holds: set<NextTask>)
    requires t in s.tasks && t in r.execs && Sane(s, r.execs, Commands(s, r.wf, t, st, holds))
    requires FinishTask(s, r, t, st, holds).wf == RUNNING
    ensures r.wf == RUNNING
  {
    LaunchedNames(Commands(s, r.wf, t, st, holds), r.wf);
  }

  lemma FinishKeepsInv(s: Spec, r: Run, t: Name, st: State, holds: set<NextTask>)
    requires Valid(s) && Acyclic(s) && Shape(s, r) && t in s.tasks && t in r.execs && st in {SUCCESS, ERROR, CANCELLED}
    requires !IsCompleted(r.execs[t].state) && Sane(s, r.execs, Commands(s, r.wf, t, st, holds))
    requires r.wf == RUNNING ==> Grounded(s, r.execs) && Awake(s, r.execs, r.refresh, {t})
    ensures Inv(s, FinishTask(s, r, t, st, holds))
  {
    FinishKeepsShape(s, r, t, st, holds);
    if FinishTask(s, r, t, st, holds).wf == RUNNING {
      FinishStartsRunning(s, r, t, st, holds);
      FinishKeepsGrounded(s, r, t, st, holds);
      FinishKeepsAwake(s, r, t, st, holds);
    }
  }

  /** Completing a task keeps the invariant, whether its policies let it end, delay it or retry it. */
  lemma CompletionKeepsInv(s: Spec, r: Run, t: Name, st: State, d: Decision, holds: set<NextTask>)
    requires Valid(s) && Acyclic(s) && Shape(s, r) && t in s.tasks && t in r.execs && st in {SUCCESS, ERROR, CANCELLED}
    requires !IsCompleted(r.execs[t].state) && MayComplete(s, r, t, st, d, holds)
    requires r.wf == RUNNING ==> Grounded(s, r.execs) && Awake(s, r.execs, r.refresh, {t})
    ensures Inv(s, CompleteTask(s, r, t, st, d, holds))
  {
    var end := StateAfterPolicies(d, IsJoin(s, t), st);
    if IsCompleted(end) {
      FinishKeepsInv(s, r, t, end, holds);
    } else {
      QuietKeepsInv(s, r, CompleteTask(s, r, t, st, d, holds), t, r.execs[t].(state := end));
    }
  }

  /** After a refresh that fails the join. */
  lemma RefreshToErrorKeepsInv(s: Spec, r: Run, t: Name, d: Decision, holds: set<NextTask>)
    requires Valid(s) && Acyclic(s) && Inv(s, r) && t in r.refresh
    requires RefreshActs(r, t) && MayComplete(s, r, t, ERROR, d, holds)
    ensures Inv(s, RefreshTask(s, r, t, ERROR, d, holds))
  {
    var r0 := r.(refresh := r.refresh - {t});
    assert Shape(s, r0);
    CompletionKeepsInv(s, r0, t, ERROR, d, holds);
  }

  lemma RefreshToRunningKeepsInv(s: Spec, r: Run, t: Name, d: Decision, holds: set<NextTask>)
    requires Valid(s) && Acyclic(s) && Inv(s, r) && t in r.refresh && RefreshActs(r, t)
    ensures Inv(s, RefreshTask(s, r, t, RUNNING, d, holds))
  {
    var r0 := r.(refresh := r.refresh - {t});
    assert Shape(s, r0);
    QuietKeepsInv(s, r0, RefreshTask(s, r, t, RUNNING, d, holds), t, r.execs[t].(state := RUNNING));
  }

  lemma IdleRefreshKeepsAwake(s: Spec, db: Table, refresh: set<Name>, t: Name)
    requires Valid(s) && Acyclic(s) && IsJoin(s, t) && t in db && Awake(s, db, refresh, {})
    requires db[t].state == WAITING ==> Verdict(s, db, t) == WAITING
    ensures Awake(s, db, refresh - {t}, {})
  {
  }

  /** A refresh that decides nothing may be dropped. */
  lemma IdleRefreshKeepsInv(s: Spec, r: Run, t: Name)
    requires Valid(s) && Acyclic(s) && Inv(s, r) && IsJoin(s, t) && t in r.execs
    requires r.wf == RUNNING && r.execs[t].state == WAITING ==> Verdict(s, r.execs, t) == WAITING
    ensures Inv(s, Run(r.execs, r.wf, r.refresh - {t}, r.check))
  {
    assert Shape(s, r);
    if r.wf == RUNNING {
      IdleRefreshKeepsAwake(s, r.execs, r.refresh, t);
    }
  }

  lemma IdleRefresh(s: Spec, r: Run, t: Name, verdict: State, d: Decision, holds: set<NextTask>)
    requires IsJoin(s, t) && t in r.execs && (!RefreshActs(r, t) || verdict == WAITING)
    ensures RefreshTask(s, r, t, verdict, d, holds) == Run(r.execs, r.wf, r.refresh - {t}, r.check)
    ensures r.wf == RUNNING && r.execs[t].state == WAITING ==> verdict == WAITING
  {
  }

  lemma RefreshKeepsInv(s: Spec, r: Run, t: Name, verdict: State, d: Decision, holds: set<NextTask>)
    requires Valid(s) && Acyclic(s) && Inv(s, r) && IsJoin(s, t) && t in r.execs && t in r.refresh
    requires verdict in {WAITING, RUNNING, ERROR}
    requires verdict == WAITING ==> Verdict(s, r.execs, t) == WAITING
    requires RefreshActs(r, t) && verdict == ERROR ==> MayComplete(s, r, t, ERROR, d, holds)
    ensures Inv(s, RefreshTask(s, r, t, verdict, d, holds))
  {
    if !RefreshActs(r, t) || verdict == WAITING {
      IdleRefresh(s, r, t, verdict, d, holds);
      IdleRefreshKeepsInv(s, r, t);
    } else if verdict == RUNNING {
      RefreshToRunningKeepsInv(s, r, t, d, holds);
    } else {
      RefreshToErrorKeepsInv(s, r, t, d, holds);
    }
  }

  lemma HasStartTask(s: Spec) returns (t: Name)
    requires Valid(s) && Acyclic(s) && s.tasks != map[]
    ensures t in s.tasks && Inbound(s, t) == []
  {
    var t0 :| t0 in s.tasks;
    t := MinimalTask(s, s.tasks.Keys, t0);
    if Inbound(s, t) != [] {
      var a := Inbound(s, t)[0];
      InboundIsEdge(s, a, t);
      EdgeReaches(s, a, t);
    }
  }

  lemma StartIsGrounded(s: Spec, db: Table)
    requires Valid(s) && Acyclic(s)
    requires db == StartTable(s)
    ensures Grounded(s, db) && Awake(s, db, {}, {})
  {
  }

  /** A definition has a start task, so a started workflow is not complete at once. */
  lemma StartKeepsInv(s: Spec, db: Table, check: bool)
    requires Valid(s) && Acyclic(s) && s.tasks != map[]
    requires db == StartTable(s)
    ensures Inv(s, Run(db, RUNNING, {}, check))
  {
    var t := HasStartTask(s);
    assert t in db && !IsCompleted(db[t].state);
    StartIsGrounded(s, db);
  }

  /** What a check leaves of a state that it does not complete, and what it makes of one that it does. */
  lemma CheckLeaves(s: Spec, r: Run, wf: State)
    requires Shape(s, r) && wf in {SUCCESS, ERROR, CANCELLED, r.wf} && (wf == IDLE ==> r.wf == IDLE)
    ensures Shape(s, Run(r.execs, wf, r.refresh, false))
  {
  }

  lemma FinalStateRange(db: Table)
    ensures FinalState(db) in {SUCCESS, ERROR, CANCELLED}
  {
  }

  lemma CheckKeepsInv(s: Spec, r: Run)
    requires Valid(s) && Acyclic(s) && Inv(s, r) && Enabled(s, r, Check)
    ensures Inv(s, CheckCompletion(r))
  {
    FinalStateRange(r.execs);
    CheckLeaves(s, r, CheckCompletion(r).wf);
  }

  /** A completed workflow stays completed. */
  lemma CompletedStays(s: Spec, r: Run, a: Action)
    requires Valid(s) && Acyclic(s) && Enabled(s, r, a) && IsCompleted(r.wf)
    ensures Apply(s, r, a).wf == r.wf
  {
  }

  lemma StepKeepsInv(s: Spec, r: Run, a: Action)
    requires Valid(s) && Acyclic(s) && s.tasks != map[] && Inv(s, r) && Enabled(s, r, a)
    ensures Inv(s, Apply(s, r, a))
  {
    assert r.wf == RUNNING ==> forall t :: Awake(s, r.execs, r.refresh, {t});
    match a
    case Start => StartKeepsInv(s, Apply(s, r, a).execs, r.check);
    case Progress(t, st) =>
      QuietKeepsInv(s, r, Apply(s, r, a), t, r.execs[t].(state := st));
    case Complete(t, st, d, holds) => CompletionKeepsInv(s, r, t, st, d, holds);
    case Refresh(t, d, holds) =>
      VerdictRange(s, r.execs, t);
      RefreshKeepsInv(s, r, t, Verdict(s, r.execs, t), d, holds);
    case Check => CheckKeepsInv(s, r);
    case Stop(st) =>
  }

  /** The invariant holds in every reachable state. */
  lemma {:induction false} TraceKeepsInv(s: Spec, tr: Trace)
    requires Valid(s) && Acyclic(s) && s.tasks != map[] && After(s, tr).State?
    ensures Inv(s, After(s, tr).run)
  {
    if tr.Begin? {
    } else {
      TraceKeepsInv(s, tr.before);
      StepKeepsInv(s, After(s, tr.before).run, tr.action);
    }
  }

  lemma ReachableKeepsInv(s: Spec, r: Run)
    requires Valid(s) && Acyclic(s) && s.tasks != map[] && Reachable(s, r)
    ensures Inv(s, r)
  {
    var tr :| After(s, tr) == State(r);
    TraceKeepsInv(s, tr);
  }

  // ---------- main results ----------

  /** Joins do not deadlock: with nothing active, some waiting join has its verdict and a pending refresh. */
  lemma JoinsDoNotDeadlock(s: Spec, r: Run, j0: Name) returns (j: Name)
    requires Valid(s) && Acyclic(s) && s.tasks != map[] && Reachable(s, r) && r.wf == RUNNING
    requires forall t :: t in r.execs ==> IsCompleted(r.execs[t].state) || r.execs[t].state == WAITING
    requires j0 in r.execs && r.execs[j0].state == WAITING
    ensures j in r.execs && r.execs[j].state == WAITING && IsJoin(s, j)
    ensures Verdict(s, r.execs, j) in {RUNNING, ERROR} && j in r.refresh
  {
    ReachableKeepsInv(s, r);
    j := SomeJoinIsDecided(s, r.execs, j0);
  }

  /** No wake-up is lost: a waiting join whose verdict is in has a pending refresh. */
  lemma NoWakeUpIsLost(s: Spec, r: Run, j: Name)
    requires Valid(s) && Acyclic(s) && s.tasks != map[] && Reachable(s, r) && r.wf == RUNNING
    requires j in r.execs && IsJoin(s, j) && r.execs[j].state == WAITING && Verdict(s, r.execs, j) != WAITING
    ensures j in r.refresh
  {
    ReachableKeepsInv(s, r);
  }

  /** The transaction that gives an existing waiting join its verdict also finds that join and schedules its refresh. */
  lemma CompletionWakesJoin(s: Spec, r: Run, t: Name, st: State, d: Decision, holds: set<NextTask>, j: Name)
    requires Valid(s) && Acyclic(s) && Enabled(s, r, Complete(t, st, d, holds)) && IsJoin(s, j)
    requires var r' := CompleteTask(s, r, t, st, d, holds);
             && j in r'.execs && !IsCompleted(r'.wf)
             && Verdict(s, r.execs, j) == WAITING && Verdict(s, r'.execs, j) != WAITING
    ensures var r' := CompleteTask(s, r, t, st, d, holds);
            j in Affected(s, r'.execs.Keys, t) && j in r'.refresh
  {
    var end := StateAfterPolicies(d, IsJoin(s, t), st);
    if IsCompleted(end) {
      FinishOnlyCompletes(s, r, t, end, holds);
      AffectedMissesNothing(s, r.execs, FinishTask(s, r, t, end, holds).execs, t, j);
    } else {
      QuietChange(s, r.execs, t, r.execs[t].(state := end), j);
    }
  }

  /**
   What performing the refresh of a decided join does: with the verdict RUNNING
   it runs, with the verdict ERROR it fails exactly if its policies neither
   delay nor retry it; a retried join waits with another refresh pending.
   */
  lemma RefreshDecides(s: Spec, r: Run, j: Name, d: Decision, holds: set<NextTask>)
    requires Valid(s) && Acyclic(s) && Enabled(s, r, Refresh(j, d, holds)) && r.wf == RUNNING
    requires r.execs[j].state == WAITING && Verdict(s, r.execs, j) in {RUNNING, ERROR}
    ensures var r' := RefreshTask(s, r, j, Verdict(s, r.execs, j), d, holds);
            && r' == Apply(s, r, Refresh(j, d, holds)) && j in r'.execs
            && Refreshed(Verdict(s, r.execs, j), d, r'.execs[j].state, j in r'.refresh)
  {
    RefreshSets(s, r, j, Verdict(s, r.execs, j), d, holds);
  }

  ghost predicate Refreshed(verdict: State, d: Decision, st: State, pending: bool) {
    && (st == RUNNING <==> verdict == RUNNING)
    && (st == ERROR <==> verdict == ERROR && !d.waits && !d.retries)
    && (st == DELAYED <==> verdict == ERROR && d.waits)
    && (st == WAITING <==> verdict == ERROR && !d.waits && d.retries)
    && (st == WAITING ==> pending)
  }

  lemma RefreshSets(s: Spec, r: Run, j: Name, verdict: State, d: Decision, holds: set<NextTask>)
    requires Valid(s) && Acyclic(s) && IsJoin(s, j) && j in r.execs && RefreshActs(r, j)
    requires verdict in {RUNNING, ERROR} && (verdict == ERROR ==> MayComplete(s, r, j, ERROR, d, holds))
    ensures var r' := RefreshTask(s, r, j, verdict, d, holds);
            j in r'.execs && Refreshed(verdict, d, r'.execs[j].state, j in r'.refresh)
  {
    if verdict == ERROR && !d.waits && !d.retries {
      FinishCompletes(s, r.(refresh := r.refresh - {j}), j, ERROR, holds);
    }
  }

  lemma FinishCompletes(s: Spec, r: Run, t: Name, st: State, holds: set<NextTask>)
    requires Valid(s) && Acyclic(s) && t in s.tasks && t in r.execs && Sane(s, r.execs, Commands(s, r.wf, t, st, holds))
    ensures var r' := FinishTask(s, r, t, st, holds); t in r'.execs && r'.execs[t].state == st
  {
    CommandFacts(s, r.wf, t, st, holds);
  }

  /** Completion is never missed: all tasks done means a check is pending, and that check ends the workflow. */
  lemma CompletionIsNotMissed(s: Spec, r: Run)
    requires Valid(s) && Acyclic(s) && s.tasks != map[] && Reachable(s, r)
    requires r.wf == RUNNING && AllCompleted(r.execs)
    ensures Enabled(s, r, Check) && IsCompleted(Apply(s, r, Check).wf)
  {
    ReachableKeepsInv(s, r);
  }

  /** Once started, a workflow with all tasks done and no pending check is final. */
  lemma DoneWithoutCheckIsFinal(s: Spec, r: Run)
    requires Valid(s) && Acyclic(s) && s.tasks != map[] && Reachable(s, r)
    requires r.wf != IDLE && AllCompleted(r.execs) && !r.check
    ensures IsCompleted(r.wf)
  {
    ReachableKeepsInv(s, r);
  }

  /** A check never completes a workflow that still has work, and completes it with the state its tasks call for. */
  lemma CheckIsExact(s: Spec, r: Run)
    requires Valid(s) && Acyclic(s) && Enabled(s, r, Check) && r.wf == RUNNING
    ensures IsCompleted(Apply(s, r, Check).wf) <==> AllCompleted(r.execs)
    ensures Apply(s, r, Check).wf == SUCCESS <==>
            AllCompleted(r.execs) &&
            forall t :: t in r.execs ==>
              r.execs[t].state != CANCELLED && (r.execs[t].state == ERROR ==> r.execs[t].errorHandled)
    ensures Apply(s, r, Check).wf == CANCELLED <==>
            AllCompleted(r.execs) && exists t :: t in r.execs && r.execs[t].state == CANCELLED
  {
    if t :| t in r.execs && r.execs[t].state == CANCELLED {
    }
  }

  /** The refresh of j will decide it, and can be performed unless it fails j and that leads to excluded commands. */
  ghost predicate DecisiveRefresh(s: Spec, r: Run, j: Name)
    requires Valid(s) && Acyclic(s)
  {
    && j in r.refresh && IsJoin(s, j) && j in r.execs && r.execs[j].state == WAITING
    && Verdict(s, r.execs, j) in {RUNNING, ERROR}
    && forall d, holds :: Enabled(s, r, Refresh(j, d, holds)) <==>
         Verdict(s, r.execs, j) == ERROR ==> MayComplete(s, r, j, ERROR, d, holds)
  }

  /** When a refresh that acts is enabled. */
  lemma ActingIsEnabled(s: Spec, r: Run, j: Name, d: Decision, holds: set<NextTask>)
    requires Valid(s) && Acyclic(s) && j in r.refresh && IsJoin(s, j) && j in r.execs && RefreshActs(r, j)
    ensures Enabled(s, r, Refresh(j, d, holds)) <==>
            Verdict(s, r.execs, j) == ERROR ==> MayComplete(s, r, j, ERROR, d, holds)
  {
  }

  lemma DecidedIsDecisive(s: Spec, r: Run, j: Name)
    requires Valid(s) && Acyclic(s) && r.wf == RUNNING && j in r.refresh && IsJoin(s, j) && j in r.execs
    requires r.execs[j].state == WAITING && Verdict(s, r.execs, j) in {RUNNING, ERROR}
    ensures DecisiveRefresh(s, r, j)
  {
    assert RefreshActs(r, j);
    forall d, holds
      ensures Enabled(s, r, Refresh(j, d, holds)) <==>
              Verdict(s, r.execs, j) == ERROR ==> MayComplete(s, r, j, ERROR, d, holds)
    {
      ActingIsEnabled(s, r, j, d, holds);
    }
  }

  /** A running workflow is never stuck: something is active, a decisive refresh is pending, or the final check is. */
  lemma NeverStuck(s: Spec, r: Run)
    requires Valid(s) && Acyclic(s) && s.tasks != map[] && Reachable(s, r) && r.wf == RUNNING
    ensures (exists t :: t in r.execs && !IsCompleted(r.execs[t].state) && r.execs[t].state != WAITING) ||
            (exists j :: DecisiveRefresh(s, r, j)) ||
            (Enabled(s, r, Check) && AllCompleted(r.execs))
  {
    ReachableKeepsInv(s, r);
    if AllCompleted(r.execs) {
    } else if forall t :: t in r.execs ==> IsCompleted(r.execs[t].state) || r.execs[t].state == WAITING {
      var j0 :| j0 in r.execs && r.execs[j0].state == WAITING;
      var j := JoinsDoNotDeadlock(s, r, j0);
      DecidedIsDecisive(s, r, j);
    }
  }

  /** Failing a join leads to other joins and to engine commands that do not pause. */
  ghost predicate FailsIntoJoins(s: Spec) {
    forall j, n :: IsJoin(s, j) && n in Targets(s.tasks[j].onError) + Targets(s.tasks[j].onComplete) ==>
      n != PAUSE && (IsJoin(s, n) || n in ENGINE_COMMANDS)
  }

  /** Then a decisive refresh can always be performed, whatever the policies and conditions. */
  lemma DecisiveRefreshIsEnabled(s: Spec, r: Run, j: Name, d: Decision, holds: set<NextTask>)
    requires Valid(s) && Acyclic(s) && FailsIntoJoins(s) && DecisiveRefresh(s, r, j)
    ensures Enabled(s, r, Refresh(j, d, holds))
  {
    FailingIsSane(s, r, j, holds);
  }

  lemma FailingIsSane(s: Spec, r: Run, j: Name, holds: set<NextTask>)
    requires Valid(s) && Acyclic(s) && FailsIntoJoins(s) && IsJoin(s, j)
    ensures Sane(s, r.execs, Commands(s, r.wf, j, ERROR, holds))
  {
    var cmds := Commands(s, r.wf, j, ERROR, holds);
    var spec := s.tasks[j];
    forall n | n in cmds
      ensures n.name != PAUSE && (IsJoin(s, n.name) || n.name in ENGINE_COMMANDS)
    {
      if n in Chosen(spec.onError, OnError, holds) {
        ChosenAreTargets(spec.onError, OnError, holds, n);
      } else {
        ChosenAreTargets(spec.onComplete, OnComplete, holds, n);
      }
      assert n.name in Targets(spec.onError) + Targets(spec.onComplete);
    }
    LaunchedNames(cmds, r.wf);
  }

  // ---------- verdicts are final ----------

  /** The step puts no completed execution back to work. */
  ghost predicate KeepsCompleted(db: Table, db': Table) {
    forall x :: x in db && IsCompleted(db[x].state) ==> x in db' && IsCompleted(db'[x].state)
  }

  lemma FinishGrows(s: Spec, r: Run, t: Name, st: State, holds: set<NextTask>)
    requires Valid(s) && Acyclic(s) && Shape(s, r) && t in s.tasks && t in r.execs
    requires !IsCompleted(r.execs[t].state) && Sane(s, r.execs, Commands(s, r.wf, t, st, holds))
    requires KeepsCompleted(r.execs, FinishTask(s, r, t, st, holds).execs) && st in {SUCCESS, ERROR, CANCELLED}
    ensures Grows(s, r.execs, FinishTask(s, r, t, st, holds).execs)
  {
    var cmds := Commands(s, r.wf, t, st, holds);
    CommandFacts(s, r.wf, t, st, holds);
    LaunchGrows(s, r.execs, t, CompletedEx(r.execs[t], st, cmds), Launched(cmds));
  }

  /** What t leads to is possible as long as t has not ended. */
  lemma NextIsPossible(s: Spec, db: Table, t: Name, x: Name)
    requires Valid(s) && Acyclic(s) && t in db && !IsCompleted(db[t].state) && Edge(s, t, x)
    ensures Possible(s, db, x)
  {
    assert OpenVia(s, db, t, x);
  }

  lemma NextArePossible(s: Spec, db: Table, t: Name, names: set<Name>)
    requires Valid(s) && Acyclic(s) && t in db && !IsCompleted(db[t].state) && forall x :: x in names ==> Edge(s, t, x)
    ensures forall x :: x in names ==> x in s.tasks && Possible(s, db, x)
  {
    forall x | x in names
      ensures Possible(s, db, x)
    {
      NextIsPossible(s, db, t, x);
    }
  }

  lemma LaunchKeepsCompleted(s: Spec, db: Table, t: Name, ex: TaskEx, names: set<Name>)
    requires t in db && !IsCompleted(db[t].state) && KeepsCompleted(db, LaunchAll(s, db[t := ex], names))
    ensures var db' := LaunchAll(s, db[t := ex], names);
            db'.Keys == db.Keys + names && forall x :: x in db && IsCompleted(db[x].state) ==> db'[x] == db[x]
  {
  }

  lemma GrowsBy(s: Spec, db: Table, db': Table, names: set<Name>)
    requires Valid(s) && Acyclic(s) && db'.Keys == db.Keys + names <= s.tasks.Keys
    requires forall x :: x in names ==> Possible(s, db, x)
    requires forall x :: x in db && IsCompleted(db[x].state) ==> db'[x] == db[x]
    ensures Grows(s, db, db')
  {
  }

  lemma LaunchGrows(s: Spec, db: Table, t: Name, ex: TaskEx, names: set<Name>)
    requires Valid(s) && Acyclic(s) && db.Keys <= s.tasks.Keys && t in db && !IsCompleted(db[t].state)
    requires forall x :: x in names ==> Edge(s, t, x)
    requires KeepsCompleted(db, LaunchAll(s, db[t := ex], names))
    ensures Grows(s, db, LaunchAll(s, db[t := ex], names))
  {
    LaunchKeepsCompleted(s, db, t, ex, names);
    NextArePossible(s, db, t, names);
    GrowsBy(s, db, LaunchAll(s, db[t := ex], names), names);
  }

  lemma QuietGrows(s: Spec, db: Table, t: Name, ex: TaskEx)
    requires Valid(s) && Acyclic(s) && db.Keys <= s.tasks.Keys && t in db && !IsCompleted(db[t].state)
    ensures Grows(s, db, db[t := ex])
  {
  }

  lemma StartGrows(s: Spec, r: Run)
    requires Valid(s) && Acyclic(s) && Enabled(s, r, Start)
    ensures Grows(s, r.execs, Apply(s, r, Start).execs)
  {
    assert r.execs == map[];
    StartTableGrows(s);
  }

  lemma StartTableGrows(s: Spec)
    requires Valid(s) && Acyclic(s)
    ensures Grows(s, map[], StartTable(s))
  {
    forall t | t in StartTable(s)
      ensures Possible(s, map[], t)
    {
      StartIsPossible(s, map[], t);
    }
  }

  lemma StartIsPossible(s: Spec, db: Table, t: Name)
    requires Valid(s) && Acyclic(s) && t in StartTasks(s)
    ensures Possible(s, db, t)
  {
  }

  lemma CompletionGrows(s: Spec, r: Run, t: Name, st: State, d: Decision, holds: set<NextTask>)
    requires Valid(s) && Acyclic(s) && Shape(s, r) && t in s.tasks && t in r.execs && st in {SUCCESS, ERROR, CANCELLED}
    requires !IsCompleted(r.execs[t].state) && MayComplete(s, r, t, st, d, holds)
    requires KeepsCompleted(r.execs, CompleteTask(s, r, t, st, d, holds).execs)
    ensures Grows(s, r.execs, CompleteTask(s, r, t, st, d, holds).execs)
  {
    var end := StateAfterPolicies(d, IsJoin(s, t), st);
    if IsCompleted(end) {
      FinishGrows(s, r, t, end, holds);
    } else {
      QuietGrows(s, r.execs, t, r.execs[t].(state := end));
    }
  }

  lemma RefreshGrows(s: Spec, r: Run, t: Name, verdict: State, d: Decision, holds: set<NextTask>)
    requires Valid(s) && Acyclic(s) && Shape(s, r) && IsJoin(s, t) && t in r.execs
    requires RefreshActs(r, t) && verdict == ERROR ==> MayComplete(s, r, t, ERROR, d, holds)
    requires KeepsCompleted(r.execs, RefreshTask(s, r, t, verdict, d, holds).execs)
    ensures Grows(s, r.execs, RefreshTask(s, r, t, verdict, d, holds).execs)
  {
    if RefreshActs(r, t) && verdict == ERROR {
      var r0 := r.(refresh := r.refresh - {t});
      assert Shape(s, r0);
      CompletionGrows(s, r0, t, ERROR, d, holds);
    } else if RefreshActs(r, t) {
      QuietGrows(s, r.execs, t, r.execs[t].(state := RUNNING));
    }
  }

  lemma StepGrows(s: Spec, r: Run, a: Action)
    requires Valid(s) && Acyclic(s) && Shape(s, r) && Enabled(s, r, a) && KeepsCompleted(r.execs, Apply(s, r, a).execs)
    ensures Grows(s, r.execs, Apply(s, r, a).execs)
  {
    match a
    case Start => StartGrows(s, r);
    case Progress(t, st) => QuietGrows(s, r.execs, t, r.execs[t].(state := st));
    case Complete(t, st, d, holds) => CompletionGrows(s, r, t, st, d, holds);
    case Refresh(t, d, holds) => RefreshGrows(s, r, t, Verdict(s, r.execs, t), d, holds);
    case Check =>
    case Stop(st) =>
  }

  lemma GrowsTransitive(s: Spec, a: Table, b: Table, c: Table)
    requires Valid(s) && Acyclic(s) && Grows(s, a, b) && Grows(s, b, c)
    ensures Grows(s, a, c)
  {
    forall x | x in c && x !in a
      ensures Possible(s, a, x)
    {
      if !Possible(s, a, x) {
        ImpossibleStays(s, a, b, x);
      }
    }
  }

  /** No step of the run puts a completed execution back to work. */
  ghost predicate NeverReopens(s: Spec, tr: Trace)
    requires Valid(s) && Acyclic(s) && After(s, tr).State?
  {
    tr.Then? ==> KeepsCompleted(After(s, tr.before).run.execs, After(s, tr).run.execs) && NeverReopens(s, tr.before)
  }

  lemma {:induction false} RunGrows(s: Spec, early: Trace, tr: Trace)
    requires Valid(s) && Acyclic(s) && s.tasks != map[] && After(s, tr).State?
    requires NeverReopens(s, tr) && Continues(early, tr)
    ensures After(s, early).State? && Grows(s, After(s, early).run.execs, After(s, tr).run.execs)
  {
    TraceKeepsInv(s, tr);
    if early != tr {
      RunGrows(s, early, tr.before);
      TraceKeepsInv(s, tr.before);
      var r := After(s, tr.before).run;
      StepGrows(s, r, tr.action);
      GrowsTransitive(s, After(s, early).run.execs, r.execs, After(s, tr).run.execs);
    }
  }

  /**
   Verdicts are final: along a run in which completed executions stay
   completed, a join once judged RUNNING or ERROR is judged so ever after.
   */
  lemma VerdictsAreFinal(s: Spec, early: Trace, tr: Trace, j: Name)
    requires Valid(s) && Acyclic(s) && s.tasks != map[] && After(s, tr).State?
    requires NeverReopens(s, tr) && Continues(early, tr)
    requires IsJoin(s, j)
    ensures After(s, early).State?
    ensures Verdict(s, After(s, early).run.execs, j) != WAITING ==>
            Verdict(s, After(s, tr).run.execs, j) == Verdict(s, After(s, early).run.execs, j)
  {
    RunGrows(s, early, tr);
    if Verdict(s, After(s, early).run.execs, j) != WAITING {
      VerdictIsFinal(s, After(s, early).run.execs, After(s, tr).run.execs, j);
    }
  }

  /** What one inbound task induces only ever moves away from WAITING, once. */
  lemma InducedStatesAreFinal(s: Spec, early: Trace, tr: Trace, a: Name, j: Name)
    requires Valid(s) && Acyclic(s) && s.tasks != map[] && After(s, tr).State?
    requires NeverReopens(s, tr) && Continues(early, tr)
    requires a in s.tasks
    ensures After(s, early).State?
    ensures InducedState(s, After(s, early).run.execs, a, j).state != WAITING ==>
            InducedState(s, After(s, tr).run.execs, a, j).state ==
            InducedState(s, After(s, early).run.execs, a, j).state
  {
    RunGrows(s, early, tr);
    if InducedState(s, After(s, early).run.execs, a, j).state != WAITING {
      InducedStays(s, After(s, early).run.execs, After(s, tr).run.execs, a, j);
    }
  }

  /** A task the route search rules out is never created later. */
  lemma ImpossibleIsNeverCreated(s: Spec, early: Trace, tr: Trace, x: Name, depth: nat)
    requires Valid(s) && Acyclic(s) && s.tasks != map[] && After(s, tr).State?
    requires NeverReopens(s, tr) && Continues(early, tr)
    requires x in s.tasks
    ensures After(s, early).State?
    ensures x !in After(s, early).run.execs && !PossibleRoute(s, After(s, early).run.execs, x, depth).0 ==>
            x !in After(s, tr).run.execs
  {
    RunGrows(s, early, tr);
    if x !in After(s, early).run.execs && !PossibleRoute(s, After(s, early).run.execs, x, depth).0 {
      ImpossibleStays(s, After(s, early).run.execs, After(s, tr).run.execs, x);
    }
  }
}
