/** What runs with pauses keep, exactly when a resume loses something, and what that leads to. */
module PausedTheorems {
  import opened States
  import opened WorkflowSpec
  import opened JoinLogic
  import opened JoinMoves
  import opened DirectRun
  import opened DirectTheorems
  import opened Policies
  import opened Reopening
  import opened PausedRun

  // ---------- in a pause ----------

  /** Nothing is created, the state of the workflow stays, and at most one of the given tasks changes. */
  ghost predicate ChangesOnly(p: Paused, p': Paused, some: set<Name>) {
    && p'.run.execs.Keys == p.run.execs.Keys && p'.run.wf == p.run.wf && p.held <= p'.held
    && forall t :: t in p.run.execs && t !in some ==> p'.run.execs[t] == p.run.execs[t]
  }

  lemma CompleteChangesOnly(s: Spec, p: Paused, t: Name, st: State, d: Decision, holds: set<NextTask>)
    requires t in s.tasks && t in p.run.execs && IsCompleted(st)
    ensures ChangesOnly(p, CompleteHeld(s, p, t, st, d, holds), {t})
  {
  }

  lemma RefreshChangesOnly(s: Spec, p: Paused, t: Name, verdict: State, d: Decision, holds: set<NextTask>)
    requires IsJoin(s, t) && t in p.run.execs && verdict in {WAITING, RUNNING, ERROR}
    ensures ChangesOnly(p, RefreshHeld(s, p, t, verdict, d, holds), {t})
  {
    if RefreshActs(p.run, t) && verdict == ERROR {
      CompleteChangesOnly(s, p.(run := p.run.(refresh := p.run.refresh - {t})), t, ERROR, d, holds);
    }
  }

  /** The task that a step names. */
  function Named(a: Action): set<Name> {
    match a
    case Progress(t, _) => {t}
    case Complete(t, _, _, _) => {t}
    case Refresh(t, _, _) => {t}
    case _ => {}
  }

  /** In a pause nothing is launched and nothing but stopping changes the workflow; a step changes its task alone. */
  lemma PauseLaunchesNothing(s: Spec, p: Paused, a: Action)
    requires Valid(s) && Acyclic(s) && p.run.wf == PAUSED && ActsPaused(s, p.run, a) && !a.Stop?
    ensures ChangesOnly(p, ActPaused(s, p, a), Named(a))
  {
    match a
    case Complete(t, st, d, holds) => CompleteChangesOnly(s, p, t, st, d, holds);
    case Refresh(t, d, holds) =>
      VerdictRange(s, p.run.execs, t);
      RefreshChangesOnly(s, p, t, Verdict(s, p.run.execs, t), d, holds);
    case _ =>
  }

  // ---------- one resume ----------

  lemma {:induction false} HeldAreOutbound(s: Spec, db: Table, order: seq<Name>, holds: map<Name, set<NextTask>>)
    requires forall t :: t in order ==> t in s.tasks && t in db && t in holds
    ensures forall n :: n in HeldCommands(s, db, order, holds) ==> exists t :: t in order && n.name in Outbound(s, t)
  {
    if order == [] {
    } else {
      var last := |order| - 1;
      HeldAreOutbound(s, db, order[..last], holds);
      NextAreOutbound(s, order[last], db[order[last]].state, holds[order[last]]);
      assert order[last] in order;
    }
  }

  lemma ResumeLaunchesTasks(s: Spec, p: Paused, order: seq<Name>, holds: map<Name, set<NextTask>>)
    requires Valid(s) && Lists(s, p, order, holds)
    ensures Launched(ResumeCommands(s, p, order, holds)) <= s.tasks.Keys
    ensures StateAfter(ResumeCommands(s, p, order, holds), RUNNING) in {RUNNING, SUCCESS, ERROR}
  {
    var cmds := ResumeCommands(s, p, order, holds);
    HeldAreOutbound(s, p.run.execs, order, holds);
    LaunchedNames(cmds, RUNNING);
    forall x | x in Launched(cmds)
      ensures x in s.tasks
    {
      var n :| n in cmds && n.name !in ENGINE_COMMANDS && n.name == x;
      var t :| t in order && n.name in Outbound(s, t);
    }
  }

  lemma LaunchShape(s: Spec, r: Run, held: set<Name>, cmds: seq<NextTask>)
    requires PausedTable(s, r.execs, r.refresh, held) && Launched(cmds) <= s.tasks.Keys
    requires StateAfter(cmds, RUNNING) in {RUNNING, SUCCESS, ERROR}
    ensures Shape(s, ResumeRun(s, r, cmds))
  {
    if cmds != [] {
      LaunchKeepsShape(s, r.execs, Launched(cmds));
    }
  }

  lemma RunningAfterResume(s: Spec, r: Run, held: set<Name>, cmds: seq<NextTask>)
    requires Valid(s) && Acyclic(s) && PausedTable(s, r.execs, r.refresh, held) && Awake(s, r.execs, r.refresh, {})
    requires Launched(cmds) <= s.tasks.Keys && (forall n :: n in cmds ==> n.name != PAUSE)
    requires ResumeRun(s, r, cmds).wf == RUNNING
    ensures var r' := ResumeRun(s, r, cmds);
            && (Grounded(s, r'.execs) <==> Grounds(r.execs, held, Launched(cmds)))
            && (Awake(s, r'.execs, r'.refresh, {}) <==>
                forall j :: !FallsAsleep(s, r.execs, r.refresh, Launched(cmds), j))
            && (Checked(r') <==> !MissesCheck(r.execs, r.check, cmds))
  {
    LaunchGroundsExactly(s, r.execs, held, Launched(cmds));
    LaunchAwakeExactly(s, r.execs, r.refresh, Launched(cmds));
    ResumeMissesExactly(s, r, cmds);
    if cmds == [] {
      LaunchNothing(s, r.execs);
    }
  }

  lemma LaunchNothing(s: Spec, db: Table)
    ensures LaunchAll(s, db, {}) == db
  {
  }

  lemma SafeKeepsInv(s: Spec, r: Run, held: set<Name>, cmds: seq<NextTask>)
    requires Valid(s) && Acyclic(s) && PausedTable(s, r.execs, r.refresh, held) && Awake(s, r.execs, r.refresh, {})
    requires Launched(cmds) <= s.tasks.Keys && (forall n :: n in cmds ==> n.name != PAUSE)
    requires StateAfter(cmds, RUNNING) in {RUNNING, SUCCESS, ERROR}
    ensures Inv(s, ResumeRun(s, r, cmds)) <==> ResumeIsSafe(s, r, held, cmds)
  {
    LaunchShape(s, r, held, cmds);
    if ResumeRun(s, r, cmds).wf == RUNNING {
      RunningAfterResume(s, r, held, cmds);
    }
  }

  /**
   A resume keeps what keeps a running workflow alive exactly if it covers what
   the held tasks stored, lets no launched join fall asleep, and does not miss
   the completion.
   */
  lemma ResumeIsSafeExactly(s: Spec, p: Paused, order: seq<Name>, holds: map<Name, set<NextTask>>)
    requires Valid(s) && Acyclic(s) && PausedInv(s, p) && MayMove(s, p, Resume(order, holds))
    ensures PausedInv(s, Moved(s, p, Resume(order, holds))) <==>
            ResumeIsSafe(s, p.run, p.held, ResumeCommands(s, p, order, holds))
  {
    var cmds := ResumeCommands(s, p, order, holds);
    ResumeLaunchesTasks(s, p, order, holds);
    SafeKeepsInv(s, p.run, p.held, cmds);
    assert ResumeRun(s, p.run, cmds).wf != PAUSED;
  }

  /** After a resume no wake-up is lost, exactly if no launched join falls asleep. */
  lemma ResumeWakesExactly(s: Spec, p: Paused, order: seq<Name>, holds: map<Name, set<NextTask>>)
    requires Valid(s) && Acyclic(s) && PausedInv(s, p) && MayMove(s, p, Resume(order, holds))
    requires Moved(s, p, Resume(order, holds)).run.wf == RUNNING
    ensures var r', names := Moved(s, p, Resume(order, holds)).run, Launched(ResumeCommands(s, p, order, holds));
            Awake(s, r'.execs, r'.refresh, {}) <==> forall j :: !FallsAsleep(s, p.run.execs, p.run.refresh, names, j)
  {
    ResumeLaunchesTasks(s, p, order, holds);
    RunningAfterResume(s, p.run, p.held, ResumeCommands(s, p, order, holds));
  }

  /** The conditions evaluate as they did when the held tasks completed. */
  ghost predicate Agrees(s: Spec, p: Paused, holds: map<Name, set<NextTask>>) {
    forall t :: t in p.held && t in s.tasks && t in p.run.execs && t in holds ==>
      p.run.execs[t].next == TaskEntries(FindNextTasks(s, t, p.run.execs[t].state, holds[t]))
  }

  /** The tasks have executions, and their conditions are known. */
  ghost predicate Known(s: Spec, db: Table, order: seq<Name>, holds: map<Name, set<NextTask>>) {
    forall t :: t in order ==> t in s.tasks && t in db && t in holds
  }

  lemma KnownParts(s: Spec, db: Table, a: seq<Name>, b: seq<Name>, holds: map<Name, set<NextTask>>)
    ensures Known(s, db, a + b, holds) <==> Known(s, db, a, holds) && Known(s, db, b, holds)
  {
    assert forall t :: t in a + b <==> t in a || t in b;
  }

  lemma HeldOneMore(s: Spec, db: Table, a: seq<Name>, t: Name, holds: map<Name, set<NextTask>>)
    requires Known(s, db, a, holds) && t in s.tasks && t in db && t in holds
    ensures Known(s, db, a + [t], holds)
    ensures HeldCommands(s, db, a + [t], holds) ==
            HeldCommands(s, db, a, holds) + FindNextTasks(s, t, db[t].state, holds[t])
  {
    var order := a + [t];
    assert order[..|order| - 1] == a && order[|order| - 1] == t;
  }

  lemma {:induction false} HeldCommandsHave(s: Spec, db: Table, order: seq<Name>, holds: map<Name, set<NextTask>>,
                                            t: Name)
    requires Known(s, db, order, holds) && t in order
    ensures forall n :: n in FindNextTasks(s, t, db[t].state, holds[t]) ==> n in HeldCommands(s, db, order, holds)
  {
    var front, last := order[..|order| - 1], order[|order| - 1];
    assert order == front + [last] && last in order;
    KnownParts(s, db, front, [last], holds);
    HeldOneMore(s, db, front, last, holds);
    if t != last {
      HeldCommandsHave(s, db, front, holds, t);
    }
  }

  lemma Regroup<T>(x: seq<T>, y: seq<T>, z: seq<T>)
    ensures x + (y + z) == (x + y) + z
  {
  }

  lemma HeldStep(s: Spec, db: Table, a: seq<Name>, front: seq<Name>, last: Name, holds: map<Name, set<NextTask>>)
    requires Known(s, db, a, holds) && Known(s, db, front, holds) && last in s.tasks && last in db && last in holds
    requires Known(s, db, a + front, holds)
    requires HeldCommands(s, db, a + front, holds) ==
             HeldCommands(s, db, a, holds) + HeldCommands(s, db, front, holds)
    ensures Known(s, db, a + (front + [last]), holds) && Known(s, db, front + [last], holds)
    ensures HeldCommands(s, db, a + (front + [last]), holds) ==
            HeldCommands(s, db, a, holds) + HeldCommands(s, db, front + [last], holds)
  {
    HeldOneMore(s, db, a + front, last, holds);
    HeldOneMore(s, db, front, last, holds);
    Regroup(a, front, [last]);
    Regroup(HeldCommands(s, db, a, holds), HeldCommands(s, db, front, holds),
            FindNextTasks(s, last, db[last].state, holds[last]));
  }

  /** The commands of held tasks are found task by task, in the given order. */
  lemma {:induction false} HeldInOrder(s: Spec, db: Table, a: seq<Name>, b: seq<Name>,
                                       holds: map<Name, set<NextTask>>)
    requires Known(s, db, a, holds) && Known(s, db, b, holds)
    ensures Known(s, db, a + b, holds)
    ensures HeldCommands(s, db, a + b, holds) == HeldCommands(s, db, a, holds) + HeldCommands(s, db, b, holds)
    decreases |b|
  {
    if b == [] {
      assert a + b == a;
    } else {
      var front, last := b[..|b| - 1], b[|b| - 1];
      assert b == front + [last] && last in b;
      KnownParts(s, db, front, [last], holds);
      HeldInOrder(s, db, a, front, holds);
      HeldStep(s, db, a, front, last, holds);
    }
  }

  /** If they do, the resume covers what the held tasks stored. */
  lemma AgreeingGrounds(s: Spec, p: Paused, order: seq<Name>, holds: map<Name, set<NextTask>>)
    requires Lists(s, p, order, holds) && Agrees(s, p, holds)
    requires StateAfter(ResumeCommands(s, p, order, holds), RUNNING) == RUNNING
    ensures Grounds(p.run.execs, p.held, Launched(ResumeCommands(s, p, order, holds)))
  {
    var cmds := ResumeCommands(s, p, order, holds);
    DispatchedAll(cmds);
    forall t, x | t in p.held && x in NextNames(p.run.execs[t])
      ensures x in Launched(cmds)
    {
      HeldCommandsHave(s, p.run.execs, order, holds, t);
      var n :| n in p.run.execs[t].next && n.name == x;
      assert n in cmds && n.name !in ENGINE_COMMANDS;
    }
  }

  // ---------- runs ----------

  /** Every resume of the run is safe. */
  ghost predicate SafelyResumed(s: Spec, ms: Moves)
    requires Valid(s) && Acyclic(s) && Along(s, ms).At?
  {
    ms.Next? ==>
      && SafelyResumed(s, ms.before)
      && (ms.move.Resume? ==>
            var p := Along(s, ms.before).state;
            ResumeIsSafe(s, p.run, p.held, ResumeCommands(s, p, ms.move.order, ms.move.holds)))
  }

  lemma MoveKeepsInv(s: Spec, p: Paused, m: Move)
    requires Valid(s) && Acyclic(s) && s.tasks != map[] && PausedInv(s, p) && MayMove(s, p, m)
    requires m.Resume? ==> ResumeIsSafe(s, p.run, p.held, ResumeCommands(s, p, m.order, m.holds))
    ensures PausedInv(s, Moved(s, p, m))
  {
    match m
    case Act(a) =>
      if p.run.wf == PAUSED {
        ActKeepsPaused(s, p, a);
      } else {
        StepKeepsInv(s, p.run, a);
        if IsCompleted(p.run.wf) {
          CompletedStays(s, p.run, a);
        }
      }
    case Pause =>
    case Resume(order, holds) => ResumeIsSafeExactly(s, p, order, holds);
  }

  lemma {:induction false} AlongKeepsInv(s: Spec, ms: Moves)
    requires Valid(s) && Acyclic(s) && s.tasks != map[] && Along(s, ms).At? && SafelyResumed(s, ms)
    ensures PausedInv(s, Along(s, ms).state)
  {
    if ms.Fresh? {
    } else {
      AlongKeepsInv(s, ms.before);
      MoveKeepsInv(s, Along(s, ms.before).state, ms.move);
    }
  }

  /** The invariant holds in every state of the run. */
  ghost predicate AlwaysInv(s: Spec, ms: Moves)
    requires Valid(s) && Acyclic(s) && Along(s, ms).At?
  {
    PausedInv(s, Along(s, ms).state) && (ms.Next? ==> AlwaysInv(s, ms.before))
  }

  /** It holds throughout exactly if every resume is safe. */
  lemma {:induction false} SafeRunsExactly(s: Spec, ms: Moves)
    requires Valid(s) && Acyclic(s) && s.tasks != map[] && Along(s, ms).At?
    ensures AlwaysInv(s, ms) <==> SafelyResumed(s, ms)
  {
    if ms.Fresh? {
    } else {
      SafeRunsExactly(s, ms.before);
      if AlwaysInv(s, ms.before) {
        var p := Along(s, ms.before).state;
        if ms.move.Resume? {
          ResumeIsSafeExactly(s, p, ms.move.order, ms.move.holds);
        } else {
          MoveKeepsInv(s, p, ms.move);
        }
      }
    }
  }

  /** However often a run is paused and safely resumed, a waiting join with a verdict has a pending refresh. */
  lemma PausesLoseNoWakeUp(s: Spec, ms: Moves, j: Name)
    requires Valid(s) && Acyclic(s) && s.tasks != map[] && Along(s, ms).At? && SafelyResumed(s, ms)
    requires var r := Along(s, ms).state.run;
             && r.wf in {RUNNING, PAUSED} && j in r.execs && IsJoin(s, j) && r.execs[j].state == WAITING
             && Verdict(s, r.execs, j) != WAITING
    ensures j in Along(s, ms).state.run.refresh
  {
    AlongKeepsInv(s, ms);
  }

  /** Nor does it deadlock: with nothing active, some waiting join has its verdict and a pending refresh. */
  lemma PausesDoNotDeadlock(s: Spec, ms: Moves, j0: Name) returns (j: Name)
    requires Valid(s) && Acyclic(s) && s.tasks != map[] && Along(s, ms).At? && SafelyResumed(s, ms)
    requires var r := Along(s, ms).state.run;
             && r.wf == RUNNING && j0 in r.execs && r.execs[j0].state == WAITING
             && forall t :: t in r.execs ==> IsCompleted(r.execs[t].state) || r.execs[t].state == WAITING
    ensures var r := Along(s, ms).state.run;
            && IsJoin(s, j) && j in r.execs && r.execs[j].state == WAITING && j in r.refresh
            && Verdict(s, r.execs, j) in {RUNNING, ERROR}
  {
    AlongKeepsInv(s, ms);
    j := SomeJoinIsDecided(s, Along(s, ms).state.run.execs, j0);
  }

  /** Nor does it miss its completion: with everything done a check is pending, which completes the workflow. */
  lemma PausesMissNoCompletion(s: Spec, ms: Moves)
    requires Valid(s) && Acyclic(s) && s.tasks != map[] && Along(s, ms).At? && SafelyResumed(s, ms)
    requires Along(s, ms).state.run.wf == RUNNING && AllCompleted(Along(s, ms).state.run.execs)
    ensures Enabled(s, Along(s, ms).state.run, Check)
    ensures IsCompleted(Apply(s, Along(s, ms).state.run, Check).wf)
  {
    AlongKeepsInv(s, ms);
  }

  // ---------- after an unsafe resume ----------

  /** No move after `early` up to `ms` stops the workflow. */
  ghost predicate WithoutStop(early: Moves, ms: Moves) {
    early == ms || (ms.Next? && !(ms.move.Act? && ms.move.action.Stop?) && WithoutStop(early, ms.before))
  }

  ghost predicate WithoutPause(early: Moves, ms: Moves) {
    early == ms || (ms.Next? && ms.move != Pause && WithoutPause(early, ms.before))
  }

  /** A workflow that has missed its completion stays as it is until it is stopped or paused. */
  lemma {:induction false} MissedForever(s: Spec, early: Moves, ms: Moves)
    requires Valid(s) && Acyclic(s) && Along(s, ms).At? && WithoutStop(early, ms) && WithoutPause(early, ms)
    requires Along(s, early).At? && Missed(Along(s, early).state.run)
    ensures Missed(Along(s, ms).state.run) && Along(s, ms).state.run.execs == Along(s, early).state.run.execs
  {
    if early == ms {
    } else {
      MissedForever(s, early, ms.before);
      MissedStays(s, Along(s, ms.before).state, ms.move.action);
    }
  }

  /** Everything but j is done, and j waits without a refresh that would look at its verdict. */
  ghost predicate Asleep(p: Paused, j: Name) {
    && p.run.wf in {RUNNING, PAUSED} && p.held == {}
    && j in p.run.execs && p.run.execs[j].state == WAITING && j !in p.run.refresh
    && forall t :: t in p.run.execs && t != j ==> IsCompleted(p.run.execs[t].state)
  }

  /** Some step acts on j other than by a refresh. */
  predicate ActsOn(m: Move, j: Name) {
    m.Act? && (m.action.Progress? || m.action.Complete?) && m.action.task == j
  }

  ghost predicate LeavesAlone(early: Moves, ms: Moves, j: Name) {
    early == ms || (ms.Next? && !ActsOn(ms.move, j) && LeavesAlone(early, ms.before, j))
  }

  lemma NothingHeld(s: Spec, p: Paused, order: seq<Name>, holds: map<Name, set<NextTask>>)
    requires Lists(s, p, order, holds) && p.held == {}
    ensures ResumeCommands(s, p, order, holds) == []
  {
    assert forall i :: 0 <= i < |order| ==> order[i] in order;
  }

  lemma AsleepStays(s: Spec, p: Paused, m: Move, j: Name)
    requires Valid(s) && Acyclic(s) && Asleep(p, j) && MayMove(s, p, m) && !ActsOn(m, j)
    requires !(m.Act? && m.action.Stop?)
    ensures Asleep(Moved(s, p, m), j) && Moved(s, p, m).run.execs == p.run.execs
  {
    match m
    case Act(a) =>
      if a.Refresh? {
        assert IsCompleted(p.run.execs[a.task].state);
      }
    case Pause =>
    case Resume(order, holds) =>
      NothingHeld(s, p, order, holds);
  }

  /** A join that fell asleep when all else was done sleeps on through all steps, checks, pauses and resumes. */
  lemma {:induction false} AsleepForever(s: Spec, early: Moves, ms: Moves, j: Name)
    requires Valid(s) && Acyclic(s) && Along(s, ms).At? && WithoutStop(early, ms) && LeavesAlone(early, ms, j)
    requires Along(s, early).At? && Asleep(Along(s, early).state, j)
    ensures Asleep(Along(s, ms).state, j) && Along(s, ms).state.run.execs == Along(s, early).state.run.execs
  {
    if early == ms {
    } else {
      AsleepForever(s, early, ms.before, j);
      AsleepStays(s, Along(s, ms.before).state, ms.move, j);
    }
  }
}
