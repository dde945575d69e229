/**
 Runs in which a resume loses something: all start tasks lead to one join, or
 to a no-op, and all of them complete during one pause.
 */
module PausedExamples {
  import opened States
  import opened WorkflowSpec
  import opened JoinLogic
  import opened AffectedJoins
  import opened DirectRun
  import opened DirectTheorems
  import opened Policies
  import opened PausedRun
  import opened Reopening
  import opened PausedTheorems
  import opened ReopeningRun

  /** Every start task leads to n alone when it succeeds. */
  predicate Funnel(s: Spec, n: Name) {
    StartTasks(s) != {} && forall t :: t in StartTasks(s) ==> LeadsTo(s, t, n)
  }

  /** Only the start tasks lead to the join j, and they are as many as it asks for. */
  predicate JoinOfAllStarts(s: Spec, j: Name) {
    && IsJoin(s, j) && Funnel(s, j) && (forall a :: a in Inbound(s, j) ==> a in StartTasks(s))
    && (s.tasks[j].join.Count? ==> s.tasks[j].join.cardinality <= |StartTasks(s)|)
  }

  function Done(n: Name): TaskEx {
    CompletedEx(NEW_TASK, SUCCESS, [NextTask(n, OnSuccess)])
  }

  /** The executions when some of the start tasks have succeeded. */
  function StartedTable(s: Spec, done: set<Name>, n: Name): Table {
    map t | t in StartTasks(s) :: if t in done then Done(n) else NEW_TASK
  }

  lemma NextIsOne(s: Spec, t: Name, n: Name)
    requires LeadsTo(s, t, n)
    ensures FindNextTasks(s, t, SUCCESS, {}) == [NextTask(n, OnSuccess)]
  {
    OneEntry(n, OnSuccess);
    assert Chosen([], OnComplete, {}) == [];
  }

  /** The state in the pause when some start tasks have ended. */
  ghost predicate Ended(s: Spec, n: Name, done: set<Name>, p: Paused) {
    && p.run.wf == PAUSED && !p.run.check && p.held == done
    && p.run.execs == StartedTable(s, done, n) && p.run.refresh <= StartTasks(s)
  }

  lemma Extend(s: Spec, ms: Moves, p: Paused, m: Move) returns (ms': Moves, p': Paused)
    requires Valid(s) && Acyclic(s) && Along(s, ms) == At(p) && MayMove(s, p, m)
    ensures ms' == Next(ms, m) && p' == Moved(s, p, m) && Along(s, ms') == At(p')
  {
    ms', p' := Next(ms, m), Moved(s, p, m);
  }

  lemma Beginning(s: Spec)
    requires Valid(s) && Acyclic(s)
    ensures var p0, p1 := Paused(INIT, {}), Paused(Run(StartTable(s), RUNNING, {}, false), {});
            && Along(s, Fresh) == At(p0)
            && MayMove(s, p0, Act(Start)) && Moved(s, p0, Act(Start)) == p1
            && MayMove(s, p1, Pause) && Moved(s, p1, Pause) == Paused(Run(StartTable(s), PAUSED, {}, false), {})
  {
  }

  lemma NoneDone(s: Spec, n: Name)
    ensures StartTable(s) == StartedTable(s, {}, n)
  {
  }

  lemma PausedAtStart(s: Spec, n: Name) returns (ms: Moves, p: Paused)
    requires Valid(s) && Acyclic(s)
    ensures Along(s, ms) == At(p) && Ended(s, n, {}, p)
  {
    Beginning(s);
    NoneDone(s, n);
    ms, p := Extend(s, Fresh, Paused(INIT, {}), Act(Start));
    ms, p := Extend(s, ms, p, Pause);
  }

  lemma OneMoreDone(s: Spec, n: Name, done: set<Name>, t: Name)
    requires t in StartTasks(s)
    ensures StartedTable(s, done, n)[t := Done(n)] == StartedTable(s, done + {t}, n)
  {
  }

  lemma HoldIsDone(s: Spec, n: Name, r: Run, t: Name)
    requires LeadsTo(s, t, n) && t in r.execs && r.execs[t] == NEW_TASK
    ensures HoldTask(s, r, t, SUCCESS, {}) ==
            r.(execs := r.execs[t := Done(n)], refresh := r.refresh + Affected(s, r.execs.Keys, t))
  {
    NextIsOne(s, t, n);
  }

  lemma StartedKeys(s: Spec, n: Name, done: set<Name>, t: Name)
    requires t in StartTasks(s) && t !in done
    ensures StartedTable(s, done, n).Keys == StartTasks(s) && StartedTable(s, done, n)[t] == NEW_TASK
  {
  }

  /** The state after t has succeeded as well. */
  ghost function OneMore(p: Paused, n: Name, t: Name, refresh: set<Name>): Paused
    requires t in p.run.execs
  {
    Paused(p.run.(execs := p.run.execs[t := Done(n)], refresh := refresh), p.held + {t})
  }

  lemma HoldOne(s: Spec, n: Name, done: set<Name>, p: Paused, t: Name) returns (p': Paused)
    requires Valid(s) && Acyclic(s) && Ended(s, n, done, p) && t in StartTasks(s) && t !in done
    ensures t in p.run.execs && p.run.execs[t] == NEW_TASK
    ensures p' == OneMore(p, n, t, p.run.refresh + Affected(s, p.run.execs.Keys, t)) && Ended(s, n, done + {t}, p')
  {
    StartedKeys(s, n, done, t);
    AffectedAreJoins(s, p.run.execs.Keys, t);
    OneMoreDone(s, n, done, t);
    p' := OneMore(p, n, t, p.run.refresh + Affected(s, p.run.execs.Keys, t));
  }

  lemma SuccessIsHeld(s: Spec, n: Name, p: Paused, t: Name) returns (m: Move)
    requires Valid(s) && Acyclic(s) && p.run.wf == PAUSED && LeadsTo(s, t, n)
    requires t in p.run.execs && p.run.execs[t] == NEW_TASK
    ensures MayMove(s, p, m)
    ensures Moved(s, p, m) == OneMore(p, n, t, p.run.refresh + Affected(s, p.run.execs.Keys, t))
  {
    m := Act(Complete(t, SUCCESS, NO_POLICY, {}));
    HoldIsDone(s, n, p.run, t);
  }

  lemma EndOne(s: Spec, n: Name, done: set<Name>, ms: Moves, p: Paused, t: Name) returns (ms': Moves, p': Paused)
    requires Valid(s) && Acyclic(s) && LeadsTo(s, t, n) && Along(s, ms) == At(p) && Ended(s, n, done, p)
    requires t in StartTasks(s) && t !in done
    ensures Along(s, ms') == At(p') && Ended(s, n, done + {t}, p')
  {
    var p1 := HoldOne(s, n, done, p, t);
    var m := SuccessIsHeld(s, n, p, t);
    ms', p' := Extend(s, ms, p, m);
  }

  lemma StartLeads(s: Spec, n: Name, starts: set<Name>, t: Name)
    requires Funnel(s, n) && starts <= StartTasks(s) && t in starts
    ensures LeadsTo(s, t, n) && t in StartTasks(s)
  {
  }

  lemma MovesOver(done: set<Name>, todo: set<Name>, t: Name)
    requires t in todo && todo !! done
    ensures t !in done && done + {t} + (todo - {t}) == done + todo && todo - {t} !! done + {t}
  {
  }

  lemma {:induction false} EndAll(s: Spec, n: Name, todo: set<Name>, done: set<Name>, ms: Moves, p: Paused)
    returns (ms': Moves, p': Paused)
    requires Valid(s) && Acyclic(s) && Funnel(s, n) && todo <= StartTasks(s)
    requires todo !! done && Along(s, ms) == At(p) && Ended(s, n, done, p)
    ensures Along(s, ms') == At(p') && Ended(s, n, done + todo, p')
    decreases todo
  {
    if todo == {} {
      assert done + todo == done;
      ms', p' := ms, p;
    } else {
      var t :| t in todo;
      StartLeads(s, n, todo, t);
      MovesOver(done, todo, t);
      ms', p' := EndOne(s, n, done, ms, p, t);
      ms', p' := EndAll(s, n, todo - {t}, done + {t}, ms', p');
    }
  }

  lemma {:induction false} ListOf(names: set<Name>) returns (order: seq<Name>)
    ensures Distinct(order) && forall t :: t in order <==> t in names
    decreases names
  {
    if names == {} {
      order := [];
    } else {
      var t :| t in names;
      var rest := ListOf(names - {t});
      order := [t] + rest;
      assert t !in rest;
    }
  }

  lemma {:induction false} OnlyEntries(s: Spec, n: Name, order: seq<Name>, holds: map<Name, set<NextTask>>)
    requires Funnel(s, n) && forall t :: t in order ==> t in StartTasks(s) && t in holds && holds[t] == {}
    ensures var db := StartedTable(s, StartTasks(s), n);
            && |HeldCommands(s, db, order, holds)| == |order|
            && forall m :: m in HeldCommands(s, db, order, holds) ==> m == NextTask(n, OnSuccess)
  {
    if order == [] {
    } else {
      var last := |order| - 1;
      OnlyEntries(s, n, order[..last], holds);
      assert order[last] in order;
      NextIsOne(s, order[last], n);
    }
  }

  lemma {:induction false} NoPauses(cmds: seq<NextTask>)
    requires forall n :: n in cmds ==> n.name != PAUSE
    ensures WithoutPauses(cmds) == cmds
  {
    if cmds == [] {
    } else {
      var last := |cmds| - 1;
      assert cmds == cmds[..last] + [cmds[last]];
      NoPauses(cmds[..last]);
    }
  }

  /** The resume of the last state has one command for each start task. */
  lemma ReadyToResume(s: Spec, n: Name, order: seq<Name>, p: Paused) returns (holds: map<Name, set<NextTask>>)
    requires Valid(s) && Acyclic(s) && Funnel(s, n) && n !in {PAUSE, FAIL, SUCCEED} && (n == NOOP || IsJoin(s, n))
    requires Ended(s, n, StartTasks(s), p) && Distinct(order) && forall t :: t in order <==> t in StartTasks(s)
    ensures Lists(s, p, order, holds) && ResumeCommands(s, p, order, holds) != []
    ensures forall m :: m in ResumeCommands(s, p, order, holds) ==> m == NextTask(n, OnSuccess)
  {
    holds := map t | t in StartTasks(s) :: {};
    OnlyEntries(s, n, order, holds);
    var t :| t in StartTasks(s);
    assert t in order;
    NoPauses(HeldCommands(s, p.run.execs, order, holds));
  }

  lemma PauseAndEnd(s: Spec, n: Name) returns (ms: Moves, p: Paused)
    requires Valid(s) && Acyclic(s) && Funnel(s, n)
    ensures Along(s, ms) == At(p) && Ended(s, n, StartTasks(s), p)
  {
    ms, p := PausedAtStart(s, n);
    ms, p := EndAll(s, n, StartTasks(s), {}, ms, p);
    assert {} + StartTasks(s) == StartTasks(s);
  }

  /** The whole pause: every start task has ended, and a resume is possible. */
  lemma WholePause(s: Spec, n: Name)
    returns (ms: Moves, p: Paused, order: seq<Name>, holds: map<Name, set<NextTask>>)
    requires Valid(s) && Acyclic(s) && Funnel(s, n) && n !in {PAUSE, FAIL, SUCCEED} && (n == NOOP || IsJoin(s, n))
    ensures Along(s, ms) == At(p) && Ended(s, n, StartTasks(s), p) && MayMove(s, p, Resume(order, holds))
    ensures ResumeCommands(s, p, order, holds) != []
    ensures forall m :: m in ResumeCommands(s, p, order, holds) ==> m == NextTask(n, OnSuccess)
  {
    order := ListOf(StartTasks(s));
    ms, p := PauseAndEnd(s, n);
    holds := ReadyToResume(s, n, order, p);
    SameCommandIsSane(s, p.run.execs, n, ResumeCommands(s, p, order, holds));
    MayResume(s, p, order, holds);
  }

  lemma MayResume(s: Spec, p: Paused, order: seq<Name>, holds: map<Name, set<NextTask>>)
    requires Valid(s) && Acyclic(s) && p.run.wf == PAUSED && Lists(s, p, order, holds)
    requires Sane(s, p.run.execs, ResumeCommands(s, p, order, holds))
    ensures MayMove(s, p, Resume(order, holds))
  {
  }

  lemma SameCommandIsSane(s: Spec, db: Table, n: Name, cmds: seq<NextTask>)
    requires n !in {PAUSE, FAIL, SUCCEED} && (n == NOOP || IsJoin(s, n))
    requires cmds != [] && forall m :: m in cmds ==> m == NextTask(n, OnSuccess)
    ensures Sane(s, db, cmds) && StateAfter(cmds, RUNNING) == RUNNING
    ensures Launched(cmds) == if n == NOOP then {} else {n}
  {
    DispatchedAll(cmds);
    assert cmds[0] in cmds;
    assert forall i :: 0 <= i < |cmds| ==> cmds[i] in cmds;
  }

  lemma AllDone(s: Spec, n: Name)
    ensures AllCompleted(StartedTable(s, StartTasks(s), n))
    ensures var db := StartedTable(s, StartTasks(s), n);
            db.Keys == StartTasks(s) && forall t :: t in db ==> db[t] == Done(n)
  {
  }

  lemma ResumeOfNoops(s: Spec, r: Run, cmds: seq<NextTask>)
    requires cmds != [] && forall m :: m in cmds ==> m == NextTask(NOOP, OnSuccess)
    ensures ResumeRun(s, r, cmds) == r.(wf := RUNNING)
  {
    SameCommandIsSane(s, r.execs, NOOP, cmds);
    LaunchNothing(s, r.execs);
  }

  /**
   If every start task leads to a no-op alone, pausing, letting all of them
   succeed and resuming leaves the workflow running with nothing left to do.
   */
  lemma CompletionIsMissed(s: Spec) returns (ms: Moves, p: Paused)
    requires Valid(s) && Acyclic(s) && Funnel(s, NOOP)
    ensures Along(s, ms) == At(p) && Missed(p.run) && p.held == {}
    ensures p.run.execs.Keys == StartTasks(s) && forall t :: t in p.run.execs ==> p.run.execs[t].state == SUCCESS
  {
    var before, q, order, holds := WholePause(s, NOOP);
    AllDone(s, NOOP);
    ResumeOfNoops(s, q.run, ResumeCommands(s, q, order, holds));
    ms, p := Extend(s, before, q, Resume(order, holds));
  }

  lemma DoneTriggers(s: Spec, db: Table, a: Name, j: Name)
    requires Valid(s) && IsJoin(s, j) && LeadsTo(s, a, j) && a in db && db[a] == Done(j)
    ensures a in Inbound(s, j) && a in Triggering(s, db, j) && j in NextNames(db[a])
  {
    OneTask(NextTask(j, OnSuccess));
    TriggersJoin(s, db, a, j);
  }

  lemma AllTrigger(s: Spec, db: Table, j: Name)
    requires Valid(s) && IsJoin(s, j) && (forall t :: t in db ==> LeadsTo(s, t, j) && db[t] == Done(j))
    requires forall a :: a in Inbound(s, j) ==> a in db
    ensures Triggering(s, db, j) == db.Keys && forall a :: a in db ==> a in Inbound(s, j)
  {
    forall a | a in db
      ensures a in Inbound(s, j) && a in Triggering(s, db, j)
    {
      DoneTriggers(s, db, a, j);
    }
  }

  lemma FunnelIsNoStart(s: Spec, j: Name)
    requires Funnel(s, j) && forall a :: a in StartTasks(s) ==> a in Inbound(s, j)
    ensures j !in StartTasks(s) && Inbound(s, j) != []
  {
    var a :| a in StartTasks(s);
    assert a in Inbound(s, j);
  }

  lemma EnoughMeansRunning(join: Join, ins: seq<Name>, fired: set<Name>, lost: set<Name>, verdict: State)
    requires Means(join, ins, fired, lost, verdict) && (join.Count? ==> join.cardinality <= |fired|)
    requires forall a :: a in ins ==> a in fired
    ensures verdict == RUNNING
  {
  }

  lemma FiredDecide(s: Spec, db: Table, fired: set<Name>, j: Name)
    requires Valid(s) && Acyclic(s) && IsJoin(s, j) && Inbound(s, j) != [] && j !in fired
    requires Triggering(s, db, j) == fired && forall a :: a in Inbound(s, j) ==> a in fired
    requires s.tasks[j].join.Count? ==> s.tasks[j].join.cardinality <= |fired|
    ensures Verdict(s, LaunchAll(s, db, {j}), j) == RUNNING
  {
    TriggersAfterLaunch(s, db, {j}, j);
    Without(fired, j);
    VerdictMeans(s, LaunchAll(s, db, {j}), j);
    EnoughMeansRunning(s.tasks[j].join, Inbound(s, j), fired, Lost(s, LaunchAll(s, db, {j}), j),
                       Verdict(s, LaunchAll(s, db, {j}), j));
  }

  lemma Without(fired: set<Name>, j: Name)
    requires j !in fired
    ensures fired - {j} == fired
  {
  }

  lemma DoneDecides(s: Spec, db: Table, j: Name)
    requires Valid(s) && Acyclic(s) && IsJoin(s, j) && Inbound(s, j) != [] && j !in db
    requires forall t :: t in db ==> LeadsTo(s, t, j) && db[t] == Done(j)
    requires forall a :: a in Inbound(s, j) ==> a in db
    requires s.tasks[j].join.Count? ==> s.tasks[j].join.cardinality <= |db.Keys|
    ensures Verdict(s, LaunchAll(s, db, {j}), j) == RUNNING
  {
    AllTrigger(s, db, j);
    FiredDecide(s, db, db.Keys, j);
  }

  lemma StartsLeadIn(s: Spec, j: Name)
    requires Valid(s) && IsJoin(s, j) && Funnel(s, j)
    ensures forall a :: a in StartTasks(s) ==> a in Inbound(s, j)
  {
    forall a | a in StartTasks(s)
      ensures a in Inbound(s, j)
    {
      assert Transition(j, false) in s.tasks[a].onSuccess;
    }
  }

  lemma AllStartsDecide(s: Spec, j: Name)
    requires Valid(s) && Acyclic(s) && JoinOfAllStarts(s, j)
    ensures j !in StartTasks(s)
    ensures Verdict(s, LaunchAll(s, StartedTable(s, StartTasks(s), j), {j}), j) == RUNNING
  {
    StartsLeadIn(s, j);
    FunnelIsNoStart(s, j);
    AllDone(s, j);
    DoneDecides(s, StartedTable(s, StartTasks(s), j), j);
  }

  lemma JoinSleeps(s: Spec, j: Name, p: Paused)
    requires IsJoin(s, j) && j !in StartTasks(s) && p.run.wf == RUNNING && p.held == {}
    requires p.run.execs == LaunchAll(s, StartedTable(s, StartTasks(s), j), {j}) && p.run.refresh <= StartTasks(s)
    ensures Asleep(p, j)
  {
    AllDone(s, j);
  }

  /**
   If every start task leads to the join j alone, which needs no others, then
   pausing, letting all of them succeed and resuming leaves j waiting for good,
   although it may run.
   */
  lemma JoinFallsAsleep(s: Spec, j: Name) returns (ms: Moves, p: Paused)
    requires Valid(s) && Acyclic(s) && JoinOfAllStarts(s, j)
    ensures Along(s, ms) == At(p) && p.run.wf == RUNNING && Asleep(p, j) && Verdict(s, p.run.execs, j) == RUNNING
  {
    var before, q, order, holds := WholePause(s, j);
    SameCommandIsSane(s, q.run.execs, j, ResumeCommands(s, q, order, holds));
    AllStartsDecide(s, j);
    ms, p := Extend(s, before, q, Resume(order, holds));
    JoinSleeps(s, j, p);
  }

  // ---------- there are such definitions ----------

  /** The definition with the diamond has such a join as well. */
  lemma JoinOfAllStartsExists()
    ensures Valid(SPEC) && Acyclic(SPEC) && JoinOfAllStarts(SPEC, "j")
  {
    SpecIsValid();
    SpecIsAcyclic();
    SpecLeads();
    InboundOfJoin();
    StartsOfSpec();
    StartsLead(SPEC, "a", "b", "j");
  }

  lemma SpecKeys()
    ensures SPEC.tasks.Keys == {"a", "b", "j", "k"}
  {
  }

  lemma InboundOfJoin()
    ensures Inbound(SPEC, "j") == ["a", "b"]
  {
    InboundTo("j");
  }

  lemma StartsOfSpec()
    ensures StartTasks(SPEC) == {"a", "b"}
  {
    SpecKeys();
    SpecStarts();
    InboundOfJoin();
    StartsAre(SPEC, "a", "b", "j", "k");
  }

  lemma StartsAre(s: Spec, a: Name, b: Name, j: Name, k: Name)
    requires s.tasks.Keys == {a, b, j, k} && Inbound(s, a) == Inbound(s, b) == []
    requires Inbound(s, j) != [] && Inbound(s, k) != []
    ensures StartTasks(s) == {a, b}
  {
  }

  lemma StartsLead(s: Spec, a: Name, b: Name, j: Name)
    requires StartTasks(s) == {a, b} && LeadsTo(s, a, j) && LeadsTo(s, b, j) && IsJoin(s, j)
    requires Inbound(s, j) == [a, b] && s.tasks[j].join == Count(1)
    ensures JoinOfAllStarts(s, j)
  {
    assert a in StartTasks(s);
    assert |StartTasks(s)| >= 1;
  }

  const QUIET := Spec(["a"], map["a" := To(NoJoin, NOOP)])

  lemma QuietExists()
    ensures Valid(QUIET) && Acyclic(QUIET) && Funnel(QUIET, NOOP)
  {
    assert Outbound(QUIET, "a") == {NOOP};
    assert forall x, y :: !Edge(QUIET, x, y);
    forall p: seq<Name> | |p| >= 2
      ensures !Path(QUIET, p)
    {
      assert !Edge(QUIET, p[0], p[1]);
    }
    assert "a" in StartTasks(QUIET);
  }
}
