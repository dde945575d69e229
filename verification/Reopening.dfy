/**
 Putting a completed join back to waiting: when that takes back a verdict that
 another join may run.
 */
module Reopening {
  import opened States
  import opened WorkflowSpec
  import opened JoinLogic
  import opened JoinMoves
  import opened AffectedJoins
  import opened DirectRun
  import opened DirectTheorems
  import opened Policies
  import opened Wrappers

  // ---------- one task ends ----------

  /** What the end of t adds to the tasks that have triggered j. */
  ghost function Added(s: Spec, t: Name, cmds: seq<NextTask>, j: Name): set<Name> {
    if t in Inbound(s, j) && exists n :: n in TaskEntries(cmds) && n.name == j then {t} else {}
  }

  /** Launching takes completed joins out of those that have triggered j, and the end of t may add t. */
  lemma FinishTriggering(s: Spec, r: Run, t: Name, st: State, holds: set<NextTask>, j: Name)
    requires Valid(s) && Acyclic(s) && t in s.tasks && t in r.execs && IsCompleted(st)
    requires !IsCompleted(r.execs[t].state) && Sane(s, r.execs, Commands(s, r.wf, t, st, holds))
    ensures var cmds := Commands(s, r.wf, t, st, holds);
            Triggering(s, FinishTask(s, r, t, st, holds).execs, j) ==
            Triggering(s, r.execs, j) - Launched(cmds) + Added(s, t, cmds, j)
  {
    var cmds := Commands(s, r.wf, t, st, holds);
    CommandFacts(s, r.wf, t, st, holds);
    TriggeringAfterLaunch(s, r.execs, t, CompletedEx(r.execs[t], st, cmds), Launched(cmds), j);
  }

  lemma TriggeringAfterLaunch(s: Spec, db: Table, t: Name, ex: TaskEx, names: set<Name>, j: Name)
    requires t in db && !IsCompleted(db[t].state) && IsCompleted(ex.state) && t !in names
    ensures Triggering(s, LaunchAll(s, db[t := ex], names), j) ==
            Triggering(s, db, j) - names + if t in Inbound(s, j) && j in NextNames(ex) then {t} else {}
  {
  }

  /**
   Exactly when a step that ends t leaves the verdict that j may run: for a
   number, if enough of the tasks that have triggered j, with t if it triggers
   j too, are not launched again; for all, if none of them is.
   */
  ghost predicate KeepsEnough(s: Spec, db: Table, t: Name, cmds: seq<NextTask>, j: Name)
    requires j in s.tasks
  {
    match s.tasks[j].join
    case Count(c) => |Triggering(s, db, j) - Launched(cmds) + Added(s, t, cmds, j)| >= c
    case _ => Triggering(s, db, j) !! Launched(cmds)
  }

  lemma FinishKeepsRunning(s: Spec, r: Run, t: Name, st: State, holds: set<NextTask>, j: Name)
    requires Valid(s) && Acyclic(s) && t in s.tasks && t in r.execs && IsCompleted(st)
    requires !IsCompleted(r.execs[t].state) && Sane(s, r.execs, Commands(s, r.wf, t, st, holds))
    requires IsJoin(s, j) && Inbound(s, j) != [] && Verdict(s, r.execs, j) == RUNNING
    ensures Verdict(s, FinishTask(s, r, t, st, holds).execs, j) == RUNNING <==>
            KeepsEnough(s, r.execs, t, Commands(s, r.wf, t, st, holds), j)
  {
    FinishTriggering(s, r, t, st, holds, j);
    VerdictMeans(s, r.execs, j);
    VerdictMeans(s, FinishTask(s, r, t, st, holds).execs, j);
    TriggeringIsInbound(s, r.execs, t, Launched(Commands(s, r.wf, t, st, holds)), j);
  }

  /** If all inbound tasks have triggered j, the unfinished t is none of them. */
  lemma TriggeringIsInbound(s: Spec, db: Table, t: Name, names: set<Name>, j: Name)
    requires t in db && !IsCompleted(db[t].state)
    ensures forall a :: a in Triggering(s, db, j) ==> a in Inbound(s, j)
    ensures (forall a :: a in Inbound(s, j) ==> a in Triggering(s, db, j)) ==>
              t !in Inbound(s, j) &&
              ((forall a :: a in Inbound(s, j) ==> a in Triggering(s, db, j) - names) <==>
               Triggering(s, db, j) !! names)
  {
  }

  // ---------- any step ----------

  /** The task that a step ends, with its end state and the conditions that hold. */
  datatype Ending = Ending(task: Name, outcome: State, holds: set<NextTask>)

  ghost function EndingOf(s: Spec, r: Run, a: Action): Option<Ending>
    requires Valid(s) && Acyclic(s)
  {
    match a
    case Complete(t, st, d, holds) =>
      var end := StateAfterPolicies(d, IsJoin(s, t), st);
      if IsCompleted(end) then Some(Ending(t, end, holds)) else None
    case Refresh(t, d, holds) =>
      var end := StateAfterPolicies(d, IsJoin(s, t), ERROR);
      if IsJoin(s, t) && t in r.execs && RefreshActs(r, t) && Verdict(s, r.execs, t) == ERROR && IsCompleted(end)
      then Some(Ending(t, end, holds))
      else None
    case _ => None
  }

  ghost predicate KeepsVerdict(s: Spec, r: Run, a: Action, j: Name)
    requires Valid(s) && Acyclic(s) && Enabled(s, r, a) && j in s.tasks
  {
    match EndingOf(s, r, a)
    case Some(e) =>
      e.task in s.tasks && KeepsEnough(s, r.execs, e.task, Commands(s, r.wf, e.task, e.outcome, e.holds), j)
    case None => true
  }

  ghost predicate KeepsOutcomes(db: Table, db': Table) {
    forall x :: x in db && IsCompleted(db[x].state) ==> x in db' && db'[x] == db[x]
  }

  /** Steps that end no task leave completed executions as they are. */
  lemma QuietStep(s: Spec, r: Run, a: Action)
    requires Valid(s) && Acyclic(s) && Enabled(s, r, a) && EndingOf(s, r, a).None?
    ensures KeepsOutcomes(r.execs, Apply(s, r, a).execs)
    ensures a.Start? || Apply(s, r, a).execs.Keys == r.execs.Keys
  {
    if a.Refresh? {
      VerdictRange(s, r.execs, a.task);
    }
  }

  lemma MoreTriggeringKeepsRunning(s: Spec, db: Table, db': Table, j: Name)
    requires Valid(s) && Acyclic(s) && IsJoin(s, j) && Inbound(s, j) != [] && Verdict(s, db, j) == RUNNING
    requires KeepsOutcomes(db, db')
    ensures Verdict(s, db', j) == RUNNING
  {
    assert Triggering(s, db, j) <= Triggering(s, db', j);
    SubsetIsSmaller(Triggering(s, db, j), Triggering(s, db', j));
    VerdictMeans(s, db, j);
    VerdictMeans(s, db', j);
  }

  lemma {:induction false} SubsetIsSmaller(a: set<Name>, b: set<Name>)
    requires a <= b
    ensures |a| <= |b|
    decreases a
  {
    if a == {} {
    } else {
      var x :| x in a;
      SubsetIsSmaller(a - {x}, b - {x});
    }
  }

  /** The step that ends a task has the same executions as completing that task alone. */
  lemma EndingStep(s: Spec, r: Run, a: Action)
    requires Valid(s) && Acyclic(s) && Enabled(s, r, a) && EndingOf(s, r, a).Some?
    ensures var e := EndingOf(s, r, a).value;
            && e.task in s.tasks && e.task in r.execs && !IsCompleted(r.execs[e.task].state) && IsCompleted(e.outcome)
            && Sane(s, r.execs, Commands(s, r.wf, e.task, e.outcome, e.holds))
            && Apply(s, r, a).execs == FinishTask(s, r, e.task, e.outcome, e.holds).execs
  {
  }

  /** Along any step of a run the verdict that a join may run stays exactly if the step keeps enough of what gave it. */
  lemma RunningVerdictStays(s: Spec, r: Run, a: Action, j: Name)
    requires Valid(s) && Acyclic(s) && Enabled(s, r, a)
    requires IsJoin(s, j) && Inbound(s, j) != [] && Verdict(s, r.execs, j) == RUNNING
    ensures Verdict(s, Apply(s, r, a).execs, j) == RUNNING <==> KeepsVerdict(s, r, a, j)
  {
    match EndingOf(s, r, a)
    case Some(e) =>
      EndingStep(s, r, a);
      FinishKeepsRunning(s, r, e.task, e.outcome, e.holds, j);
    case None =>
      QuietStep(s, r, a);
      MoreTriggeringKeepsRunning(s, r.execs, Apply(s, r, a).execs, j);
  }

  /** The tasks that a step launches. */
  ghost function LaunchedBy(s: Spec, r: Run, a: Action): set<Name>
    requires Valid(s) && Acyclic(s)
  {
    match EndingOf(s, r, a)
    case Some(e) => if e.task in s.tasks then Launched(Commands(s, r.wf, e.task, e.outcome, e.holds)) else {}
    case None => {}
  }

  /** Launching a completed join again takes back the verdict of every join of all that it had triggered. */
  lemma ReopeningRevokes(s: Spec, r: Run, a: Action, x: Name, j: Name)
    requires Valid(s) && Acyclic(s) && Enabled(s, r, a) && x in LaunchedBy(s, r, a)
    requires IsJoin(s, j) && s.tasks[j].join == All && Verdict(s, r.execs, j) == RUNNING
    requires x in Triggering(s, r.execs, j)
    ensures Verdict(s, Apply(s, r, a).execs, j) != RUNNING
  {
    RunningVerdictStays(s, r, a, j);
  }

  // ---------- either verdict ----------

  /** Completed executions upstream of j keep their outcome, and only tasks with a possible route are created. */
  ghost predicate GrowsAbove(s: Spec, db: Table, db': Table, j: Name)
    requires Valid(s) && Acyclic(s)
  {
    && db.Keys <= db'.Keys <= s.tasks.Keys
    && (forall x :: x in db && IsCompleted(db[x].state) && Reaches(s, x, j) ==>
          IsCompleted(db'[x].state) && NextNames(db'[x]) == NextNames(db[x]))
    && (forall x :: x in db' && x !in db ==> Possible(s, db, x))
  }

  lemma {:induction false} ImpossibleStaysAbove(s: Spec, db: Table, db': Table, a: Name, j: Name)
    requires Valid(s) && Acyclic(s) && GrowsAbove(s, db, db', j) && Reaches(s, a, j)
    requires a in s.tasks && a !in db && !Possible(s, db, a)
    ensures a !in db' && !Possible(s, db', a)
    decreases Upstream(s, a)
  {
    forall y | Edge(s, y, a)
      ensures !OpenVia(s, db', y, a)
    {
      assert !OpenVia(s, db, y, a);
      EdgeReaches(s, y, a);
      ReachesTransitive(s, y, a, j);
      if y !in db {
        UpstreamShrinks(s, y, a);
        ImpossibleStaysAbove(s, db, db', y, j);
      }
    }
  }

  lemma InducedStaysAbove(s: Spec, db: Table, db': Table, a: Name, j: Name)
    requires Valid(s) && Acyclic(s) && GrowsAbove(s, db, db', j) && Edge(s, a, j)
    requires InducedState(s, db, a, j).state != WAITING
    ensures InducedState(s, db', a, j).state == InducedState(s, db, a, j).state
  {
    EdgeReaches(s, a, j);
    if a !in db {
      ImpossibleStaysAbove(s, db, db', a, j);
    }
  }

  lemma InducedStatesStayAbove(s: Spec, db: Table, db': Table, j: Name, ins: seq<Name>)
    requires Valid(s) && Acyclic(s) && GrowsAbove(s, db, db', j)
    requires forall a :: a in ins ==> a in s.tasks && Edge(s, a, j)
    ensures forall k :: 0 <= k < |ins| && InducedStates(s, db, j, ins)[k].state != WAITING ==>
              InducedStates(s, db', j, ins)[k].state == InducedStates(s, db, j, ins)[k].state
  {
    forall k | 0 <= k < |ins| && InducedStates(s, db, j, ins)[k].state != WAITING
      ensures InducedStates(s, db', j, ins)[k].state == InducedStates(s, db, j, ins)[k].state
    {
      InducedStaysAbove(s, db, db', ins[k], j);
    }
  }

  lemma InboundAreEdges(s: Spec, j: Name)
    requires Valid(s) && j in s.tasks
    ensures forall a :: a in Inbound(s, j) ==> a in s.tasks && Edge(s, a, j)
  {
  }

  lemma VerdictStaysAbove(s: Spec, db: Table, db': Table, j: Name)
    requires Valid(s) && Acyclic(s) && GrowsAbove(s, db, db', j) && IsJoin(s, j)
    requires Verdict(s, db, j) != WAITING
    ensures Verdict(s, db', j) == Verdict(s, db, j)
  {
    var ins := Inbound(s, j);
    InboundAreEdges(s, j);
    InducedStatesStayAbove(s, db, db', j, ins);
    VerdictStays(s.tasks[j].join, ins, InducedStates(s, db, j, ins), InducedStates(s, db', j, ins), db, db');
  }

  /** A completed join upstream of j that is launched again. */
  ghost predicate ReopensAbove(s: Spec, db: Table, names: set<Name>, j: Name) {
    exists x :: x in names && x in db && IsCompleted(db[x].state) && Reaches(s, x, j)
  }

  lemma LaunchKeepsAbove(s: Spec, db: Table, t: Name, ex: TaskEx, names: set<Name>, j: Name)
    requires t in db && !IsCompleted(db[t].state) && !ReopensAbove(s, db, names, j)
    ensures var db' := LaunchAll(s, db[t := ex], names);
            && db'.Keys == db.Keys + names
            && forall x :: x in db && IsCompleted(db[x].state) && Reaches(s, x, j) ==> db'[x] == db[x]
  {
  }

  lemma GrowsAboveBy(s: Spec, db: Table, db': Table, names: set<Name>, j: Name)
    requires Valid(s) && Acyclic(s) && db'.Keys == db.Keys + names <= s.tasks.Keys
    requires forall x :: x in names ==> Possible(s, db, x)
    requires forall x :: x in db && IsCompleted(db[x].state) && Reaches(s, x, j) ==> db'[x] == db[x]
    ensures GrowsAbove(s, db, db', j)
  {
  }

  lemma LaunchGrowsAbove(s: Spec, db: Table, t: Name, ex: TaskEx, names: set<Name>, j: Name)
    requires Valid(s) && Acyclic(s) && db.Keys <= s.tasks.Keys && names <= s.tasks.Keys
    requires t in db && !IsCompleted(db[t].state) && t !in names && (forall x :: x in names ==> Edge(s, t, x))
    requires !ReopensAbove(s, db, names, j)
    ensures GrowsAbove(s, db, LaunchAll(s, db[t := ex], names), j)
  {
    LaunchKeepsAbove(s, db, t, ex, names, j);
    NextArePossible(s, db, t, names);
    GrowsAboveBy(s, db, LaunchAll(s, db[t := ex], names), names, j);
  }

  lemma QuietGrowsAbove(s: Spec, r: Run, a: Action, j: Name)
    requires Valid(s) && Acyclic(s) && Enabled(s, r, a) && EndingOf(s, r, a).None? && r.execs.Keys <= s.tasks.Keys
    ensures GrowsAbove(s, r.execs, Apply(s, r, a).execs, j)
  {
    QuietStep(s, r, a);
    if a.Start? {
      StartGrows(s, r);
    } else {
      SameKeysGrow(s, r.execs, Apply(s, r, a).execs, j);
    }
  }

  lemma SameKeysGrow(s: Spec, db: Table, db': Table, j: Name)
    requires Valid(s) && Acyclic(s) && db'.Keys == db.Keys <= s.tasks.Keys && KeepsOutcomes(db, db')
    ensures GrowsAbove(s, db, db', j)
  {
  }

  lemma EndingGrowsAbove(s: Spec, r: Run, a: Action, j: Name)
    requires Valid(s) && Acyclic(s) && Enabled(s, r, a) && EndingOf(s, r, a).Some? && r.execs.Keys <= s.tasks.Keys
    requires !ReopensAbove(s, r.execs, LaunchedBy(s, r, a), j)
    ensures GrowsAbove(s, r.execs, Apply(s, r, a).execs, j)
  {
    EndingStep(s, r, a);
    var e := EndingOf(s, r, a).value;
    var cmds := Commands(s, r.wf, e.task, e.outcome, e.holds);
    CommandFacts(s, r.wf, e.task, e.outcome, e.holds);
    LaunchGrowsAbove(s, r.execs, e.task, CompletedEx(r.execs[e.task], e.outcome, cmds), Launched(cmds), j);
  }

  /** In any step a verdict, either one, is taken back only by launching again a completed join upstream. */
  lemma RevokedOnlyByReopening(s: Spec, r: Run, a: Action, j: Name)
    requires Valid(s) && Acyclic(s) && Enabled(s, r, a) && r.execs.Keys <= s.tasks.Keys
    requires IsJoin(s, j) && Verdict(s, r.execs, j) != WAITING
    requires Verdict(s, Apply(s, r, a).execs, j) != Verdict(s, r.execs, j)
    ensures ReopensAbove(s, r.execs, LaunchedBy(s, r, a), j)
  {
    if !ReopensAbove(s, r.execs, LaunchedBy(s, r, a), j) {
      if EndingOf(s, r, a).None? {
        QuietGrowsAbove(s, r, a, j);
      } else {
        EndingGrowsAbove(s, r, a, j);
      }
      VerdictStaysAbove(s, r.execs, Apply(s, r, a).execs, j);
    }
  }

  // ---------- the verdict that a join must fail ----------

  /** A chain of tasks without executions leads from a launched task to a. */
  ghost predicate Regains(s: Spec, db: Table, names: set<Name>, a: Name)
    requires Valid(s) && Acyclic(s) && a in s.tasks
    decreases Upstream(s, a), 1
  {
    exists y :: Edge(s, y, a) && RegainsVia(s, db, names, y, a)
  }

  ghost predicate RegainsVia(s: Spec, db: Table, names: set<Name>, y: Name, a: Name)
    requires Valid(s) && Acyclic(s) && Edge(s, y, a)
    decreases Upstream(s, a), 0
  {
    EdgeReaches(s, y, a);
    UpstreamShrinks(s, y, a);
    y in names || (y !in db && Regains(s, db, names, y))
  }

  /** The inbound tasks of j that launching makes possible again: the launched ones and those that they may lead to. */
  ghost function Regained(s: Spec, db: Table, names: set<Name>, j: Name): set<Name>
    requires Valid(s) && Acyclic(s)
  {
    set a | a in Inbound(s, j) && a in s.tasks && (a in names || (a !in db && Regains(s, db, names, a)))
  }

  /** A task that is not launched can come after a launch if it could before, or if a launched task leads to it. */
  lemma {:induction false} PossibleAfterLaunch(s: Spec, db: Table, names: set<Name>, a: Name)
    requires Valid(s) && Acyclic(s) && a in s.tasks && a !in db && a !in names
    ensures Possible(s, LaunchAll(s, db, names), a) <==> Possible(s, db, a) || Regains(s, db, names, a)
    decreases Upstream(s, a)
  {
    var db' := LaunchAll(s, db, names);
    forall y | Edge(s, y, a)
      ensures OpenVia(s, db', y, a) <==> y in names || OpenVia(s, db, y, a) || RegainsVia(s, db, names, y, a)
    {
      EdgeReaches(s, y, a);
      UpstreamShrinks(s, y, a);
      if y !in db && y !in names {
        PossibleAfterLaunch(s, db, names, y);
      }
    }
  }

  lemma LostOneAfterLaunch(s: Spec, db: Table, names: set<Name>, a: Name, j: Name)
    requires Valid(s) && Acyclic(s) && a in Inbound(s, j)
    ensures a in Lost(s, LaunchAll(s, db, names), j) <==> a in Lost(s, db, j) - Regained(s, db, names, j)
  {
    if a !in db && a !in names {
      PossibleAfterLaunch(s, db, names, a);
    }
  }

  lemma LostAfterLaunch(s: Spec, db: Table, names: set<Name>, j: Name)
    requires Valid(s) && Acyclic(s)
    ensures Lost(s, LaunchAll(s, db, names), j) == Lost(s, db, j) - Regained(s, db, names, j)
  {
    forall a | a in Inbound(s, j)
      ensures a in Lost(s, LaunchAll(s, db, names), j) <==> a in Lost(s, db, j) - Regained(s, db, names, j)
    {
      LostOneAfterLaunch(s, db, names, a, j);
    }
  }

  /** A launch takes its tasks out of those that have triggered j, and what they may lead to out of those lost to it. */
  lemma VerdictAfterLaunch(s: Spec, db: Table, names: set<Name>, j: Name)
    requires Valid(s) && Acyclic(s) && IsJoin(s, j) && Inbound(s, j) != []
    ensures Means(s.tasks[j].join, Inbound(s, j), Triggering(s, db, j) - names,
                  Lost(s, db, j) - Regained(s, db, names, j), Verdict(s, LaunchAll(s, db, names), j))
  {
    LostAfterLaunch(s, db, names, j);
    TriggersAfterLaunch(s, db, names, j);
    VerdictMeans(s, LaunchAll(s, db, names), j);
  }

  lemma TriggersAfterLaunch(s: Spec, db: Table, names: set<Name>, j: Name)
    ensures Triggering(s, LaunchAll(s, db, names), j) == Triggering(s, db, j) - names
  {
  }

  lemma {:induction false} AtMostAsMany(some: set<Name>, names: seq<Name>)
    requires forall a :: a in some ==> a in names
    ensures |some| <= |names|
    decreases |names|
  {
    if names == [] {
      assert some == {};
    } else {
      var rest := some - {names[0]};
      assert forall a :: a in rest ==> a in names[1..];
      AtMostAsMany(rest, names[1..]);
      SubsetIsSmaller(some, rest + {names[0]});
    }
  }

  /** So many are lost that the others cannot make up the number, or for a join of all that one is. */
  ghost predicate TooManyLost(s: Spec, lost: set<Name>, j: Name)
    requires j in s.tasks
  {
    match s.tasks[j].join
    case Count(c) => |Inbound(s, j)| - |lost| < c
    case _ => lost != {}
  }

  /** Which tasks have triggered a join does not matter for its failure. */
  lemma ErrorMeansLost(s: Spec, fired: set<Name>, lost: set<Name>, j: Name, verdict: State)
    requires IsJoin(s, j) && fired !! lost && (forall a :: a in fired + lost ==> a in Inbound(s, j))
    requires Means(s.tasks[j].join, Inbound(s, j), fired, lost, verdict)
    ensures verdict == ERROR <==> TooManyLost(s, lost, j)
  {
    AtMostAsMany(fired + lost, Inbound(s, j));
  }

  /** What is lost to j after t has ended with ex and others were launched. */
  ghost function StillLost(s: Spec, db: Table, t: Name, ex: TaskEx, names: set<Name>, j: Name): set<Name>
    requires Valid(s) && Acyclic(s)
  {
    Lost(s, db[t := ex], j) - Regained(s, db[t := ex], names, j)
  }

  /** The end of t loses nothing but t itself, if it does not trigger j, and tasks to which only t kept the way open. */
  lemma EndingLoses(s: Spec, db: Table, t: Name, ex: TaskEx, j: Name)
    requires Valid(s) && Acyclic(s) && IsJoin(s, j) && t in db && !IsCompleted(db[t].state) && IsCompleted(ex.state)
    ensures Lost(s, db, j) <= Lost(s, db[t := ex], j)
    ensures t in Lost(s, db[t := ex], j) <==> t in Inbound(s, j) && j !in NextNames(ex)
    ensures forall a :: a in Lost(s, db[t := ex], j) - Lost(s, db, j) && a != t ==>
              a !in db && Possible(s, db, a) && OpenTo(s, db.Keys, t, a)
  {
    var db' := db[t := ex];
    assert db'.Keys == db.Keys;
    forall a | a in Inbound(s, j) && a !in db
      ensures !Possible(s, db, a) ==> !Possible(s, db', a)
      ensures Possible(s, db, a) && !Possible(s, db', a) ==> OpenTo(s, db.Keys, t, a)
    {
      if !Possible(s, db, a) {
        ImpossibleAfterEnding(s, db, t, ex, a);
      } else if !Possible(s, db', a) {
        ClosedRouteIsOpenFrom(s, db, db', t, a);
      }
    }
  }

  lemma {:induction false} ImpossibleAfterEnding(s: Spec, db: Table, t: Name, ex: TaskEx, a: Name)
    requires Valid(s) && Acyclic(s) && t in db && !IsCompleted(db[t].state) && a in s.tasks
    requires a !in db && !Possible(s, db, a)
    ensures !Possible(s, db[t := ex], a)
    decreases Upstream(s, a)
  {
    forall y | Edge(s, y, a)
      ensures !OpenVia(s, db[t := ex], y, a)
    {
      assert !OpenVia(s, db, y, a);
      EdgeReaches(s, y, a);
      UpstreamShrinks(s, y, a);
      if y !in db {
        ImpossibleAfterEnding(s, db, t, ex, y);
      }
    }
  }

  lemma LaunchedVerdict(s: Spec, db: Table, names: set<Name>, j: Name)
    requires Valid(s) && Acyclic(s) && IsJoin(s, j) && Inbound(s, j) != []
    ensures Verdict(s, LaunchAll(s, db, names), j) == ERROR <==>
            TooManyLost(s, Lost(s, db, j) - Regained(s, db, names, j), j)
  {
    VerdictAfterLaunch(s, db, names, j);
    ErrorMeansLost(s, Triggering(s, db, j) - names, Lost(s, db, j) - Regained(s, db, names, j), j,
                   Verdict(s, LaunchAll(s, db, names), j));
  }

  ghost predicate KeepsError(s: Spec, r: Run, a: Action, j: Name)
    requires Valid(s) && Acyclic(s) && Enabled(s, r, a) && j in s.tasks
  {
    match EndingOf(s, r, a)
    case Some(e) =>
      && e.task in s.tasks && e.task in r.execs
      && var cmds := Commands(s, r.wf, e.task, e.outcome, e.holds);
         var ex := CompletedEx(r.execs[e.task], e.outcome, cmds);
         TooManyLost(s, StillLost(s, r.execs, e.task, ex, Launched(cmds), j), j)
    case None => true
  }

  /** Along any step of a run the verdict that a join must fail stays exactly if the step leaves enough lost to it. */
  lemma ErrorVerdictStays(s: Spec, r: Run, a: Action, j: Name)
    requires Valid(s) && Acyclic(s) && Enabled(s, r, a) && r.execs.Keys <= s.tasks.Keys
    requires IsJoin(s, j) && Verdict(s, r.execs, j) == ERROR
    ensures Verdict(s, Apply(s, r, a).execs, j) == ERROR <==> KeepsError(s, r, a, j)
  {
    match EndingOf(s, r, a)
    case Some(e) =>
      EndingStep(s, r, a);
      FinishKeepsError(s, r, e.task, e.outcome, e.holds, j);
    case None =>
      QuietGrowsAbove(s, r, a, j);
      VerdictStaysAbove(s, r.execs, Apply(s, r, a).execs, j);
  }

  lemma FinishKeepsError(s: Spec, r: Run, t: Name, st: State, holds: set<NextTask>, j: Name)
    requires Valid(s) && Acyclic(s) && t in s.tasks && t in r.execs && IsJoin(s, j) && Inbound(s, j) != []
    ensures var cmds := Commands(s, r.wf, t, st, holds);
            Verdict(s, FinishTask(s, r, t, st, holds).execs, j) == ERROR <==>
            TooManyLost(s, StillLost(s, r.execs, t, CompletedEx(r.execs[t], st, cmds), Launched(cmds), j), j)
  {
    var cmds := Commands(s, r.wf, t, st, holds);
    LaunchedVerdict(s, r.execs[t := CompletedEx(r.execs[t], st, cmds)], Launched(cmds), j);
  }
}
