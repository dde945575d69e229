/**
 Pausing and resuming a direct workflow run.  A task that completes during a
 pause is held: what it leads to is dispatched by the resume, together for all
 held tasks and under conditions that are evaluated again.
 */
module PausedRun {
  import opened States
  import opened WorkflowSpec
  import opened JoinLogic
  import opened JoinMoves
  import opened AffectedJoins
  import opened DirectRun
  import opened DirectTheorems
  import opened Policies
  import opened Reopening

  // ---------- the state machine ----------

  /** `held`: tasks completed during the pause, whose commands are not dispatched yet. */
  datatype Paused = Paused(run: Run, held: set<Name>)

  /** A resume goes through the held tasks in some order, and knows for each which conditions hold now. */
  datatype Move =
    | Act(action: Action)
    | Pause
    | Resume(order: seq<Name>, holds: map<Name, set<NextTask>>)

  /** Completing a task of a paused workflow stores what it leads to and looks for affected joins, no more. */
  ghost function HoldTask(s: Spec, r: Run, t: Name, st: State, holds: set<NextTask>): Run
    requires t in s.tasks && t in r.execs
  {
    var ex := CompletedEx(r.execs[t], st, FindNextTasks(s, t, st, holds));
    r.(execs := r.execs[t := ex], refresh := r.refresh + Affected(s, r.execs.Keys, t))
  }

  ghost function CompleteHeld(s: Spec, p: Paused, t: Name, st: State, d: Decision, holds: set<NextTask>): Paused
    requires t in s.tasks && t in p.run.execs
  {
    var end := StateAfterPolicies(d, IsJoin(s, t), st);
    if IsCompleted(end) then Paused(HoldTask(s, p.run, t, end, holds), p.held + {t})
    else Paused(CompleteTask(s, p.run, t, st, d, holds), p.held)
  }

  ghost function RefreshHeld(s: Spec, p: Paused, t: Name, verdict: State, d: Decision, holds: set<NextTask>): Paused
    requires IsJoin(s, t) && t in p.run.execs
  {
    var p0 := p.(run := p.run.(refresh := p.run.refresh - {t}));
    if RefreshActs(p.run, t) && verdict == ERROR then CompleteHeld(s, p0, t, ERROR, d, holds)
    else p.(run := RefreshTask(s, p.run, t, verdict, d, holds))
  }

  /** The commands of held tasks, one task after another. */
  ghost function HeldCommands(s: Spec, db: Table, order: seq<Name>, holds: map<Name, set<NextTask>>): seq<NextTask>
    requires forall t :: t in order ==> t in s.tasks && t in db && t in holds
  {
    if order == [] then [] else
      var last := |order| - 1;
      HeldCommands(s, db, order[..last], holds) +
      FindNextTasks(s, order[last], db[order[last]].state, holds[order[last]])
  }

  /** A resume ignores commands to pause. */
  function WithoutPauses(cmds: seq<NextTask>): (r: seq<NextTask>)
    ensures forall n :: n in r <==> n in cmds && n.name != PAUSE
  {
    if cmds == [] then [] else
      var last := |cmds| - 1;
      WithoutPauses(cmds[..last]) + if cmds[last].name == PAUSE then [] else [cmds[last]]
  }

  /** The order lists the held tasks, each once, and the conditions are known for them. */
  ghost predicate Lists(s: Spec, p: Paused, order: seq<Name>, holds: map<Name, set<NextTask>>) {
    && (forall t :: t in order <==> t in p.held)
    && (forall t :: t in p.held ==> t in s.tasks && t in p.run.execs && t in holds)
    && (forall i, k :: 0 <= i < k < |order| ==> order[i] != order[k])
  }

  ghost function ResumeCommands(s: Spec, p: Paused, order: seq<Name>, holds: map<Name, set<NextTask>>): seq<NextTask>
    requires Lists(s, p, order, holds)
  {
    WithoutPauses(HeldCommands(s, p.run.execs, order, holds))
  }

  /** With something to dispatch a resume dispatches it, otherwise it looks whether the workflow is complete. */
  ghost function ResumeRun(s: Spec, r: Run, cmds: seq<NextTask>): Run {
    if cmds == [] then r.(wf := if AllCompleted(r.execs) then FinalState(r.execs) else RUNNING)
    else r.(execs := LaunchAll(s, r.execs, Launched(cmds)), wf := StateAfter(cmds, RUNNING))
  }

  /** While paused, tasks in flight go on, refreshes and checks are delivered, and the workflow may be stopped. */
  ghost predicate ActsPaused(s: Spec, r: Run, a: Action)
    requires Valid(s) && Acyclic(s)
  {
    match a
    case Complete(t, st, _, _) =>
      t in s.tasks && t in r.execs && !IsCompleted(r.execs[t].state) && st in {SUCCESS, ERROR, CANCELLED}
    case Refresh(t, _, _) => t in r.refresh && IsJoin(s, t) && t in r.execs
    case Stop(st) => st in {ERROR, CANCELLED}
    case _ => Enabled(s, r, a)
  }

  ghost predicate MayMove(s: Spec, p: Paused, m: Move)
    requires Valid(s) && Acyclic(s)
  {
    match m
    case Act(a) => if p.run.wf == PAUSED then ActsPaused(s, p.run, a) else Enabled(s, p.run, a)
    case Pause => p.run.wf == RUNNING
    case Resume(order, holds) =>
      p.run.wf == PAUSED && Lists(s, p, order, holds) && Sane(s, p.run.execs, ResumeCommands(s, p, order, holds))
  }

  ghost function ActPaused(s: Spec, p: Paused, a: Action): Paused
    requires Valid(s) && Acyclic(s) && ActsPaused(s, p.run, a)
  {
    match a
    case Complete(t, st, d, holds) => CompleteHeld(s, p, t, st, d, holds)
    case Refresh(t, d, holds) => RefreshHeld(s, p, t, Verdict(s, p.run.execs, t), d, holds)
    case Stop(st) => p.(run := p.run.(wf := st))
    case _ => p.(run := Apply(s, p.run, a))
  }

  ghost function Moved(s: Spec, p: Paused, m: Move): Paused
    requires Valid(s) && Acyclic(s) && MayMove(s, p, m)
  {
    match m
    case Act(a) => if p.run.wf == PAUSED then ActPaused(s, p, a) else p.(run := Apply(s, p.run, a))
    case Pause => p.(run := p.run.(wf := PAUSED))
    case Resume(order, holds) => Paused(ResumeRun(s, p.run, ResumeCommands(s, p, order, holds)), {})
  }

  /** The moves of a run, latest last. */
  datatype Moves = Fresh | Next(before: Moves, move: Move)

  datatype Reached = Nowhere | At(state: Paused)

  ghost function Along(s: Spec, ms: Moves): Reached
    requires Valid(s) && Acyclic(s)
  {
    match ms
    case Fresh => At(Paused(INIT, {}))
    case Next(before, m) =>
      match Along(s, before)
      case At(p) => if MayMove(s, p, m) then At(Moved(s, p, m)) else Nowhere
      case Nowhere => Nowhere
  }

  // ---------- what pauses keep ----------

  /** As Grounded, but what held tasks lead to need not exist yet. */
  ghost predicate GroundedBut(s: Spec, db: Table, held: set<Name>) {
    && db.Keys <= s.tasks.Keys
    && (forall t :: t in s.tasks && Inbound(s, t) == [] ==> t in db)
    && (forall t :: t in db && IsCompleted(db[t].state) && t !in held ==> NextNames(db[t]) <= db.Keys)
  }

  ghost predicate HeldAreCompleted(db: Table, held: set<Name>) {
    forall t :: t in held ==> t in db && IsCompleted(db[t].state)
  }

  ghost predicate PausedTable(s: Spec, db: Table, refresh: set<Name>, held: set<Name>) {
    && (forall t :: t in db && db[t].state == WAITING ==> IsJoin(s, t))
    && (forall t :: t in refresh ==> t in db && IsJoin(s, t))
    && HeldAreCompleted(db, held) && GroundedBut(s, db, held)
  }

  ghost predicate PausedInv(s: Spec, p: Paused)
    requires Valid(s) && Acyclic(s)
  {
    match p
    case Paused(r, held) =>
      if r.wf != PAUSED then Inv(s, r) && (held == {} || IsCompleted(r.wf))
      else PausedTable(s, r.execs, r.refresh, held) && Awake(s, r.execs, r.refresh, {})
  }

  lemma QuietKeepsTable(s: Spec, db: Table, refresh: set<Name>, refresh': set<Name>, held: set<Name>, t: Name,
                        ex: TaskEx)
    requires PausedTable(s, db, refresh, held) && t in db && !IsCompleted(db[t].state) && !IsCompleted(ex.state)
    requires ex.state == WAITING ==> IsJoin(s, t)
    requires refresh' <= refresh + (if IsJoin(s, t) then {t} else {})
    ensures PausedTable(s, db[t := ex], refresh', held)
  {
    var db' := db[t := ex];
    assert db'.Keys == db.Keys;
    forall x | x in db' && IsCompleted(db'[x].state) && x !in held
      ensures NextNames(db'[x]) <= db'.Keys
    {
      assert db'[x] == db[x];
    }
  }

  /** Steps of a paused workflow that complete nothing. */
  lemma QuietKeepsPaused(s: Spec, p: Paused, r': Run, t: Name, ex: TaskEx)
    requires Valid(s) && Acyclic(s) && t in p.run.execs && p.run.wf == PAUSED
    requires PausedTable(s, p.run.execs, p.run.refresh, p.held) && Awake(s, p.run.execs, p.run.refresh, {t})
    requires !IsCompleted(p.run.execs[t].state) && !IsCompleted(ex.state)
    requires ex.state == WAITING ==> IsJoin(s, t) && t in r'.refresh
    requires r'.execs == p.run.execs[t := ex] && r'.wf == PAUSED
    requires p.run.refresh - {t} <= r'.refresh <= p.run.refresh + (if IsJoin(s, t) then {t} else {})
    ensures PausedInv(s, Paused(r', p.held))
  {
    QuietKeepsTable(s, p.run.execs, p.run.refresh, r'.refresh, p.held, t, ex);
    QuietKeepsAwake(s, p.run.execs, p.run.refresh, r'.refresh, t, ex);
  }

  lemma HoldKeepsTable(s: Spec, db: Table, refresh: set<Name>, held: set<Name>, t: Name, ex: TaskEx)
    requires PausedTable(s, db, refresh, held) && t in db && !IsCompleted(db[t].state) && IsCompleted(ex.state)
    ensures PausedTable(s, db[t := ex], refresh + Affected(s, db.Keys, t), held + {t})
  {
    var db' := db[t := ex];
    assert db'.Keys == db.Keys;
    AffectedAreJoins(s, db.Keys, t);
    forall x | x in db' && IsCompleted(db'[x].state) && x !in held + {t}
      ensures NextNames(db'[x]) <= db'.Keys
    {
      assert db'[x] == db[x];
    }
  }

  lemma HoldKeepsAwake(s: Spec, db: Table, refresh: set<Name>, t: Name, ex: TaskEx)
    requires Valid(s) && Acyclic(s) && db.Keys <= s.tasks.Keys && Awake(s, db, refresh, {t})
    requires t in db && !IsCompleted(db[t].state) && IsCompleted(ex.state)
    ensures Awake(s, db[t := ex], refresh + Affected(s, db.Keys, t), {})
  {
    assert db[t := ex].Keys == db.Keys;
    LaunchKeepsAwake(s, db, db[t := ex], refresh, t, {});
  }

  lemma HoldKeepsPaused(s: Spec, p: Paused, t: Name, st: State, holds: set<NextTask>)
    requires Valid(s) && Acyclic(s) && t in s.tasks && t in p.run.execs && p.run.wf == PAUSED
    requires PausedTable(s, p.run.execs, p.run.refresh, p.held) && Awake(s, p.run.execs, p.run.refresh, {t})
    requires !IsCompleted(p.run.execs[t].state) && IsCompleted(st)
    ensures PausedInv(s, Paused(HoldTask(s, p.run, t, st, holds), p.held + {t}))
  {
    var db := p.run.execs;
    var ex := CompletedEx(db[t], st, FindNextTasks(s, t, st, holds));
    HoldKeepsTable(s, db, p.run.refresh, p.held, t, ex);
    HoldKeepsAwake(s, db, p.run.refresh, t, ex);
  }

  lemma CompleteKeepsPaused(s: Spec, p: Paused, t: Name, st: State, d: Decision, holds: set<NextTask>)
    requires Valid(s) && Acyclic(s) && t in s.tasks && t in p.run.execs && p.run.wf == PAUSED
    requires PausedTable(s, p.run.execs, p.run.refresh, p.held) && Awake(s, p.run.execs, p.run.refresh, {t})
    requires !IsCompleted(p.run.execs[t].state) && st in {SUCCESS, ERROR, CANCELLED}
    ensures PausedInv(s, CompleteHeld(s, p, t, st, d, holds))
  {
    var end := StateAfterPolicies(d, IsJoin(s, t), st);
    if IsCompleted(end) {
      HoldKeepsPaused(s, p, t, end, holds);
    } else {
      QuietKeepsPaused(s, p, CompleteTask(s, p.run, t, st, d, holds), t, p.run.execs[t].(state := end));
    }
  }

  lemma SpareOne(s: Spec, db: Table, refresh: set<Name>, t: Name)
    requires Valid(s) && Acyclic(s) && Awake(s, db, refresh, {})
    ensures Awake(s, db, refresh - {t}, {t})
  {
  }

  lemma DropRefresh(s: Spec, db: Table, refresh: set<Name>, held: set<Name>, t: Name)
    requires PausedTable(s, db, refresh, held)
    ensures PausedTable(s, db, refresh - {t}, held)
  {
  }

  lemma IdleRefreshHeld(s: Spec, p: Paused, t: Name, verdict: State, d: Decision, holds: set<NextTask>)
    requires IsJoin(s, t) && t in p.run.execs && (!RefreshActs(p.run, t) || verdict == WAITING)
    ensures RefreshHeld(s, p, t, verdict, d, holds) == p.(run := p.run.(refresh := p.run.refresh - {t}))
  {
  }

  lemma DropKeepsPaused(s: Spec, p: Paused, t: Name)
    requires Valid(s) && Acyclic(s) && PausedInv(s, p) && p.run.wf == PAUSED && IsJoin(s, t) && t in p.run.execs
    requires p.run.execs[t].state == WAITING ==> Verdict(s, p.run.execs, t) == WAITING
    ensures PausedInv(s, p.(run := p.run.(refresh := p.run.refresh - {t})))
  {
    IdleRefreshKeepsAwake(s, p.run.execs, p.run.refresh, t);
    DropRefresh(s, p.run.execs, p.run.refresh, p.held, t);
  }

  lemma IdleIsNotWaiting(r: Run, t: Name)
    requires t in r.execs && !RefreshActs(r, t) && r.wf == PAUSED
    ensures r.execs[t].state != WAITING
  {
  }

  lemma IdleRefreshKeepsPaused(s: Spec, p: Paused, p': Paused, t: Name)
    requires Valid(s) && Acyclic(s) && PausedInv(s, p) && p.run.wf == PAUSED && IsJoin(s, t) && t in p.run.execs
    requires !RefreshActs(p.run, t) || Verdict(s, p.run.execs, t) == WAITING
    requires p' == p.(run := p.run.(refresh := p.run.refresh - {t}))
    ensures PausedInv(s, p')
  {
    if !RefreshActs(p.run, t) {
      IdleIsNotWaiting(p.run, t);
    }
    DropKeepsPaused(s, p, t);
  }

  lemma RunningRefreshKeepsPaused(s: Spec, p: Paused, t: Name, d: Decision, holds: set<NextTask>)
    requires Valid(s) && Acyclic(s) && PausedInv(s, p) && p.run.wf == PAUSED && IsJoin(s, t) && t in p.run.execs
    requires RefreshActs(p.run, t)
    ensures PausedInv(s, RefreshHeld(s, p, t, RUNNING, d, holds))
  {
    DropRefresh(s, p.run.execs, p.run.refresh, p.held, t);
    SpareOne(s, p.run.execs, p.run.refresh, t);
    QuietKeepsPaused(s, p.(run := p.run.(refresh := p.run.refresh - {t})),
                     RefreshTask(s, p.run, t, RUNNING, d, holds), t, p.run.execs[t].(state := RUNNING));
  }

  lemma ErrorRefreshKeepsPaused(s: Spec, p: Paused, t: Name, d: Decision, holds: set<NextTask>)
    requires Valid(s) && Acyclic(s) && PausedInv(s, p) && p.run.wf == PAUSED && IsJoin(s, t) && t in p.run.execs
    requires RefreshActs(p.run, t)
    ensures PausedInv(s, RefreshHeld(s, p, t, ERROR, d, holds))
  {
    DropRefresh(s, p.run.execs, p.run.refresh, p.held, t);
    SpareOne(s, p.run.execs, p.run.refresh, t);
    CompleteKeepsPaused(s, p.(run := p.run.(refresh := p.run.refresh - {t})), t, ERROR, d, holds);
  }

  lemma RefreshKeepsPaused(s: Spec, p: Paused, t: Name, verdict: State, d: Decision, holds: set<NextTask>)
    requires Valid(s) && Acyclic(s) && PausedInv(s, p) && p.run.wf == PAUSED && IsJoin(s, t) && t in p.run.execs
    requires verdict in {WAITING, RUNNING, ERROR} && (verdict == WAITING ==> Verdict(s, p.run.execs, t) == WAITING)
    ensures PausedInv(s, RefreshHeld(s, p, t, verdict, d, holds))
  {
    if !RefreshActs(p.run, t) || verdict == WAITING {
      IdleRefreshHeld(s, p, t, verdict, d, holds);
      IdleRefreshKeepsPaused(s, p, RefreshHeld(s, p, t, verdict, d, holds), t);
    } else if verdict == RUNNING {
      RunningRefreshKeepsPaused(s, p, t, d, holds);
    } else {
      ErrorRefreshKeepsPaused(s, p, t, d, holds);
    }
  }

  /** Whatever happens in a pause, a waiting join that has its verdict has a pending refresh. */
  lemma ActKeepsPaused(s: Spec, p: Paused, a: Action)
    requires Valid(s) && Acyclic(s) && PausedInv(s, p) && p.run.wf == PAUSED && ActsPaused(s, p.run, a)
    ensures PausedInv(s, ActPaused(s, p, a))
  {
    match a
    case Start =>
    case Progress(t, st) =>
      SpareOne(s, p.run.execs, p.run.refresh, t);
      QuietKeepsPaused(s, p, Apply(s, p.run, a), t, p.run.execs[t].(state := st));
    case Complete(t, st, d, holds) =>
      SpareOne(s, p.run.execs, p.run.refresh, t);
      CompleteKeepsPaused(s, p, t, st, d, holds);
    case Refresh(t, d, holds) =>
      VerdictRange(s, p.run.execs, t);
      RefreshKeepsPaused(s, p, t, Verdict(s, p.run.execs, t), d, holds);
    case Check =>
    case Stop(st) =>
  }

  // ---------- what a resume keeps ----------

  predicate OnlyNoops(cmds: seq<NextTask>) {
    forall n :: n in cmds ==> n.name == NOOP
  }

  /** Everything is done, no check is pending, and the resume has nothing but no-ops to dispatch. */
  predicate MissesCheck(db: Table, check: bool, cmds: seq<NextTask>) {
    AllCompleted(db) && !check && cmds != [] && OnlyNoops(cmds)
  }

  /** All that held tasks stored as their next tasks exists or is launched, unless the task itself is launched again. */
  ghost predicate Grounds(db: Table, held: set<Name>, names: set<Name>) {
    forall t :: t in held && t in db && t !in names ==> NextNames(db[t]) <= db.Keys + names
  }

  /** The verdict on j after a launch, by what was there before: enough have triggered it, or too many are lost. */
  ghost predicate DecidedBy(s: Spec, db: Table, names: set<Name>, j: Name)
    requires Valid(s) && Acyclic(s) && IsJoin(s, j)
  {
    var fired, lost := Triggering(s, db, j) - names, Lost(s, db, j) - Regained(s, db, names, j);
    || Inbound(s, j) == []
    || TooManyLost(s, lost, j)
    || match s.tasks[j].join
       case Count(c) => |fired| >= c
       case _ => forall a :: a in Inbound(s, j) ==> a in fired
  }

  /** A launched join that has its verdict at once, and that no pending refresh will wake. */
  ghost predicate FallsAsleep(s: Spec, db: Table, refresh: set<Name>, names: set<Name>, j: Name)
    requires Valid(s) && Acyclic(s)
  {
    j in names && IsJoin(s, j) && j !in refresh && DecidedBy(s, db, names, j)
  }

  lemma DecidedIsVerdict(s: Spec, db: Table, names: set<Name>, j: Name)
    requires Valid(s) && Acyclic(s) && IsJoin(s, j)
    ensures Verdict(s, LaunchAll(s, db, names), j) != WAITING <==> DecidedBy(s, db, names, j)
  {
    VerdictRange(s, LaunchAll(s, db, names), j);
    if Inbound(s, j) != [] {
      VerdictAfterLaunch(s, db, names, j);
      LaunchedVerdict(s, db, names, j);
    }
  }

  /** Launching decides no join that was undecided. */
  lemma LaunchDecidesNothing(s: Spec, db: Table, names: set<Name>, j: Name)
    requires Valid(s) && Acyclic(s) && IsJoin(s, j) && Verdict(s, db, j) == WAITING
    ensures Verdict(s, LaunchAll(s, db, names), j) == WAITING
  {
    if Inbound(s, j) != [] {
      var fired, lost := Triggering(s, db, j), Lost(s, db, j);
      VerdictMeans(s, db, j);
      VerdictAfterLaunch(s, db, names, j);
      VerdictRange(s, LaunchAll(s, db, names), j);
      SubsetIsSmaller(fired - names, fired);
      SubsetIsSmaller(lost - Regained(s, db, names, j), lost);
      LaunchedVerdict(s, db, names, j);
      ErrorIsTooManyLost(s, db, j);
    }
  }

  lemma ErrorIsTooManyLost(s: Spec, db: Table, j: Name)
    requires Valid(s) && Acyclic(s) && IsJoin(s, j) && Inbound(s, j) != []
    ensures Verdict(s, db, j) == ERROR <==> TooManyLost(s, Lost(s, db, j), j)
  {
    VerdictMeans(s, db, j);
    ErrorMeansLost(s, Triggering(s, db, j), Lost(s, db, j), j, Verdict(s, db, j));
  }

  /** After a launch every decided waiting join has a refresh exactly if no launched join falls asleep. */
  lemma LaunchAwakeExactly(s: Spec, db: Table, refresh: set<Name>, names: set<Name>)
    requires Valid(s) && Acyclic(s) && Awake(s, db, refresh, {})
    ensures Awake(s, LaunchAll(s, db, names), refresh, {}) <==> forall j :: !FallsAsleep(s, db, refresh, names, j)
  {
    var db' := LaunchAll(s, db, names);
    forall j | IsJoin(s, j) && j in db' && db'[j].state == WAITING && Verdict(s, db', j) != WAITING && j !in refresh
      ensures FallsAsleep(s, db, refresh, names, j)
    {
      if j in names {
        DecidedIsVerdict(s, db, names, j);
      } else if Verdict(s, db, j) == WAITING {
        LaunchDecidesNothing(s, db, names, j);
      }
    }
    forall j | FallsAsleep(s, db, refresh, names, j)
      ensures !Awake(s, db', refresh, {})
    {
      DecidedIsVerdict(s, db, names, j);
      assert db'[j].state == WAITING;
    }
  }

  lemma LaunchGroundsExactly(s: Spec, db: Table, held: set<Name>, names: set<Name>)
    requires GroundedBut(s, db, held) && HeldAreCompleted(db, held) && names <= s.tasks.Keys
    ensures Grounded(s, LaunchAll(s, db, names)) <==> Grounds(db, held, names)
  {
    var db' := LaunchAll(s, db, names);
    assert db'.Keys == db.Keys + names;
    forall t | t in db && t !in names
      ensures db'[t] == db[t]
    {
    }
    forall t | t in held && t !in names
      ensures IsCompleted(db'[t].state)
    {
    }
  }

  /** Without a state change all tasks are launched; commands that are no-ops launch nothing. */
  lemma {:induction false} DispatchedAll(cmds: seq<NextTask>)
    requires forall n :: n in cmds ==> n.name != PAUSE
    ensures StateAfter(cmds, RUNNING) in {RUNNING, SUCCESS, ERROR}
    ensures StateAfter(cmds, RUNNING) == RUNNING <==> forall n :: n in cmds ==> !ChangesState(n)
    ensures StateAfter(cmds, RUNNING) == RUNNING ==>
              forall x :: x in Launched(cmds) <==> exists n :: n in cmds && n.name != NOOP && n.name == x
  {
    if cmds == [] {
    } else {
      assert forall n :: n in cmds <==> n == cmds[0] || n in cmds[1..];
      DispatchedAll(cmds[1..]);
    }
  }

  lemma DispatchesNoTask(cmds: seq<NextTask>)
    requires forall n :: n in cmds ==> n.name != PAUSE
    ensures StateAfter(cmds, RUNNING) == RUNNING && Launched(cmds) == {} <==> OnlyNoops(cmds)
  {
    DispatchedAll(cmds);
    if n :| n in cmds && n.name != NOOP {
      assert StateAfter(cmds, RUNNING) == RUNNING ==> n.name in Launched(cmds);
    }
  }

  lemma LaunchCompletesNothing(s: Spec, db: Table, names: set<Name>)
    ensures AllCompleted(LaunchAll(s, db, names)) <==> AllCompleted(db) && names == {}
  {
    var db' := LaunchAll(s, db, names);
    if x :| x in names {
      assert !IsCompleted(db'[x].state);
    } else {
      assert db' == db;
    }
  }

  /** Everything is done, but the workflow runs on without a pending check. */
  ghost predicate Missed(r: Run) {
    r.wf == RUNNING && AllCompleted(r.execs) && !r.check
  }

  lemma ResumeMissesExactly(s: Spec, r: Run, cmds: seq<NextTask>)
    requires forall n :: n in cmds ==> n.name != PAUSE
    ensures Missed(ResumeRun(s, r, cmds)) <==> MissesCheck(r.execs, r.check, cmds)
  {
    if cmds != [] {
      DispatchesNoTask(cmds);
      LaunchCompletesNothing(s, r.execs, Launched(cmds));
    }
  }

  /**
   A resume leaves a workflow running that has nothing left to do and no check
   pending, exactly if all was done before, no check was pending, and what the
   held tasks lead to is no-ops alone, at least one of them.
   */
  lemma ResumeMissesCompletion(s: Spec, p: Paused, order: seq<Name>, holds: map<Name, set<NextTask>>)
    requires Valid(s) && Acyclic(s) && MayMove(s, p, Resume(order, holds))
    ensures Missed(Moved(s, p, Resume(order, holds)).run) <==>
            MissesCheck(p.run.execs, p.run.check, ResumeCommands(s, p, order, holds))
  {
    ResumeMissesExactly(s, p.run, ResumeCommands(s, p, order, holds));
  }

  /** Then nothing but stopping it, or pausing it again, has any effect on its state or its tasks. */
  lemma MissedStays(s: Spec, p: Paused, a: Action)
    requires Valid(s) && Acyclic(s) && Missed(p.run) && MayMove(s, p, Act(a)) && !a.Stop?
    ensures Missed(Moved(s, p, Act(a)).run) && Moved(s, p, Act(a)).run.execs == p.run.execs
  {
  }

  /** Pausing and resuming it once more completes it. */
  lemma PausingMakesUp(s: Spec, p: Paused)
    requires Valid(s) && Acyclic(s) && Missed(p.run) && p.held == {}
    ensures var paused := Moved(s, p, Pause);
            && MayMove(s, p, Pause) && MayMove(s, paused, Resume([], map[]))
            && IsCompleted(Moved(s, paused, Resume([], map[])).run.wf)
  {
  }

  /** What a resume must do to keep a running workflow alive. */
  ghost predicate ResumeIsSafe(s: Spec, r: Run, held: set<Name>, cmds: seq<NextTask>)
    requires Valid(s) && Acyclic(s)
  {
    ResumeRun(s, r, cmds).wf == RUNNING ==>
      && Grounds(r.execs, held, Launched(cmds))
      && (forall j :: !FallsAsleep(s, r.execs, r.refresh, Launched(cmds), j))
      && !MissesCheck(r.execs, r.check, cmds)
  }
}
