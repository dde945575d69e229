/** What the end of a task stores, and what a completion check makes of it, in terms of the definition. */
module Ends {
  import opened States
  import opened WorkflowSpec
  import opened JoinLogic
  import opened JoinMoves
  import opened AffectedJoins
  import opened DirectRun
  import opened DirectTheorems
  import opened Policies
  import opened Wrappers
  import opened Clauses
  import opened Reopening
  import PausedRun

  // ---------- the stored end ----------

  lemma FollowsPrefix(spec: TaskSpec, cmds: seq<NextTask>, places: seq<Place>)
    requires Follows(spec, cmds, places) && cmds != []
    ensures var last := |cmds| - 1;
            && Follows(spec, cmds[..last], places[..last]) && places[last].index < |Clause(spec, places[last].event)|
            && cmds[last] == Target(spec, places[last])
            && forall p :: p in places[..last] ==> Ahead(p, places[last])
  {
  }

  lemma FollowsOneMore(spec: TaskSpec, cmds: seq<NextTask>, places: seq<Place>, p: Place)
    requires Follows(spec, cmds, places) && p.index < |Clause(spec, p.event)| && forall q :: q in places ==> Ahead(q, p)
    ensures Follows(spec, cmds + [Target(spec, p)], places + [p])
  {
    assert forall i :: 0 <= i < |places| ==> places[i] in places;
  }

  /** The places whose targets are tasks. */
  function TaskPlaces(spec: TaskSpec, places: seq<Place>): (r: seq<Place>)
    requires forall p :: p in places ==> p.index < |Clause(spec, p.event)|
    ensures forall p :: p in r <==> p in places && Target(spec, p).name !in ENGINE_COMMANDS
  {
    if places == [] then []
    else
      var last := places[|places| - 1];
      TaskPlaces(spec, places[..|places| - 1]) + if Target(spec, last).name in ENGINE_COMMANDS then [] else [last]
  }

  lemma FollowedAreThere(spec: TaskSpec, cmds: seq<NextTask>, places: seq<Place>)
    requires Follows(spec, cmds, places)
    ensures forall p :: p in places ==> p.index < |Clause(spec, p.event)|
  {
  }

  lemma {:induction false} EntriesFollow(spec: TaskSpec, cmds: seq<NextTask>, places: seq<Place>)
    requires Follows(spec, cmds, places)
    ensures forall p :: p in places ==> p.index < |Clause(spec, p.event)|
    ensures Follows(spec, TaskEntries(cmds), TaskPlaces(spec, places))
  {
    FollowedAreThere(spec, cmds, places);
    if cmds == [] {
    } else {
      var last := |cmds| - 1;
      FollowsPrefix(spec, cmds, places);
      EntriesFollow(spec, cmds[..last], places[..last]);
      if cmds[last].name !in ENGINE_COMMANDS {
        FollowsOneMore(spec, TaskEntries(cmds[..last]), TaskPlaces(spec, places[..last]), places[last]);
      }
    }
  }

  /** The tasks that an end leads to are those of the places taken, in their order, without engine commands. */
  ghost predicate LeadsOn(s: Spec, t: Name, st: State, holds: set<NextTask>, next: seq<NextTask>)
    requires t in s.tasks
  {
    exists places :: Follows(s.tasks[t], next, places) && OfTasks(s.tasks[t], st, holds, places)
  }

  ghost predicate OfTasks(spec: TaskSpec, st: State, holds: set<NextTask>, places: seq<Place>) {
    forall p :: p in places <==> Taken(spec, st, p, holds) && Target(spec, p).name !in ENGINE_COMMANDS
  }

  /** What is known of the stored end of a task that ended while the workflow was not completed. */
  ghost predicate StoresEnd(s: Spec, t: Name, st: State, holds: set<NextTask>, ex: TaskEx)
    requires t in s.tasks
  {
    && ex.state == st && LeadsOn(s, t, st, holds, ex.next) && ex.hasNext == (ex.next != [])
    && (st == ERROR ==> (ex.errorHandled <==> ListsError(s, t, holds)))
  }

  lemma CompletedStores(s: Spec, t: Name, st: State, holds: set<NextTask>, old_: TaskEx)
    requires t in s.tasks && IsCompleted(st)
    ensures StoresEnd(s, t, st, holds, CompletedEx(old_, st, FindNextTasks(s, t, st, holds)))
  {
    var cmds := FindNextTasks(s, t, st, holds);
    var places := FoundInOrder(s, t, st, holds);
    EntriesFollow(s.tasks[t], cmds, places);
    assert OfTasks(s.tasks[t], st, holds, TaskPlaces(s.tasks[t], places));
    if st == ERROR {
      HandlesErrorMeans(s, t, holds);
    }
  }

  /** The end of a task, in a workflow that is not completed: what it stores is what the definition says. */
  lemma EndStores(s: Spec, r: Run, t: Name, st: State, holds: set<NextTask>)
    requires Valid(s) && Acyclic(s) && t in s.tasks && t in r.execs && IsCompleted(st)
    requires Sane(s, r.execs, Commands(s, r.wf, t, st, holds))
    ensures var execs := FinishTask(s, r, t, st, holds).execs;
            && t in execs && execs[t].state == st
            && (!IsCompleted(r.wf) ==> StoresEnd(s, t, st, holds, execs[t]))
            && (IsCompleted(r.wf) ==> execs[t].next == [] && (st == ERROR ==> !execs[t].errorHandled))
    ensures var r' := FinishTask(s, r, t, st, holds);
            && (r'.check <==> r.check || r'.execs[t].next == [])
            && forall j ::
                 j in r'.refresh <==> j in r.refresh || (!IsCompleted(r'.wf) && j in Affected(s, r'.execs.Keys, t))
  {
    CommandFacts(s, r.wf, t, st, holds);
    if !IsCompleted(r.wf) {
      CompletedStores(s, t, st, holds, r.execs[t]);
    }
  }

  /** The same for an end in a pause. */
  lemma HeldEndStores(s: Spec, r: Run, t: Name, st: State, holds: set<NextTask>)
    requires t in s.tasks && t in r.execs && IsCompleted(st)
    ensures var execs := PausedRun.HoldTask(s, r, t, st, holds).execs;
            t in execs && StoresEnd(s, t, st, holds, execs[t])
  {
    CompletedStores(s, t, st, holds, r.execs[t]);
  }

  /** What completing a task with its policies makes of it, in or out of a pause. */
  ghost predicate Decided(st: State, d: Decision, join: bool, st': State) {
    && (st' == DELAYED <==> d.waits || (d.retries && !join && st != CANCELLED))
    && (st' == WAITING <==> !d.waits && d.retries && join && st != CANCELLED)
    && (st' == ERROR <==> !d.waits && !d.retries && (st == ERROR || (st == SUCCESS && d.fails)))
    && (st' == SUCCESS <==> !d.waits && !d.retries && st == SUCCESS && !d.fails)
    && (st' == CANCELLED <==> !d.waits && st == CANCELLED)
  }

  /** A completion ends, delays or repeats the task as its policies say, and a join that waits again has a refresh. */
  lemma CompletionDecides(s: Spec, r: Run, t: Name, st: State, d: Decision, holds: set<NextTask>)
    requires Valid(s) && Acyclic(s) && Enabled(s, r, Complete(t, st, d, holds))
    ensures var r' := Apply(s, r, Complete(t, st, d, holds));
            && t in r'.execs && Decided(st, d, IsJoin(s, t), r'.execs[t].state)
            && (r'.execs[t].state == WAITING ==> t in r'.refresh)
  {
    var end := StateAfterPolicies(d, IsJoin(s, t), st);
    if IsCompleted(end) {
      CommandFacts(s, r.wf, t, end, holds);
    }
  }

  /** A refresh of a join that runs or is completed, or in a completed workflow, does nothing. */
  lemma LateRefreshDoesNothing(s: Spec, r: Run, j: Name, d: Decision, holds: set<NextTask>)
    requires Valid(s) && Acyclic(s) && Enabled(s, r, Refresh(j, d, holds))
    requires IsCompleted(r.wf) || IsCompleted(r.execs[j].state) || r.execs[j].state == RUNNING
    ensures var r' := Apply(s, r, Refresh(j, d, holds));
            r'.execs == r.execs && r'.wf == r.wf && r'.check == r.check && r'.refresh == r.refresh - {j}
  {
  }

  // ---------- over runs ----------

  /** The last end of t in the run, with its state and the conditions that held. */
  ghost function LastEnd(s: Spec, tr: Trace, t: Name): Option<Ending>
    requires Valid(s) && Acyclic(s)
  {
    match tr
    case Begin => None
    case Then(before, a) =>
      match After(s, before)
      case Impossible => None
      case State(r) =>
        var e := EndingOf(s, r, a);
        if e.Some? && e.value.task == t then e else LastEnd(s, before, t)
  }

  ghost predicate Remembers(s: Spec, t: Name, ex: TaskEx, end: Option<Ending>) {
    t in s.tasks && end.Some? && StoresEnd(s, t, end.value.outcome, end.value.holds, ex)
  }

  ghost predicate AllRemembered(s: Spec, tr: Trace)
    requires Valid(s) && Acyclic(s) && After(s, tr).State?
  {
    var r := After(s, tr).run;
    !IsCompleted(r.wf) ==>
      forall t :: t in r.execs && IsCompleted(r.execs[t].state) ==> Remembers(s, t, r.execs[t], LastEnd(s, tr, t))
  }

  /** Steps that end no task complete none. */
  lemma QuietCompletesNone(s: Spec, r: Run, a: Action)
    requires Valid(s) && Acyclic(s) && Enabled(s, r, a) && EndingOf(s, r, a).None?
    ensures var r' := Apply(s, r, a);
            forall x :: x in r'.execs && IsCompleted(r'.execs[x].state) ==> x in r.execs && r'.execs[x] == r.execs[x]
  {
    if a.Refresh? {
      VerdictRange(s, r.execs, a.task);
    }
  }

  lemma EndCompletesOne(s: Spec, r: Run, t: Name, st: State, holds: set<NextTask>)
    requires t in s.tasks && t in r.execs
    ensures var r' := FinishTask(s, r, t, st, holds);
            forall x :: x in r'.execs && IsCompleted(r'.execs[x].state) && x != t ==>
              x in r.execs && r'.execs[x] == r.execs[x]
  {
    var cmds := Commands(s, r.wf, t, st, holds);
    LaunchCompletesOne(s, r.execs, t, CompletedEx(r.execs[t], st, cmds), Launched(cmds));
  }

  lemma LaunchCompletesOne(s: Spec, db: Table, t: Name, ex: TaskEx, names: set<Name>)
    requires t in db
    ensures var db' := LaunchAll(s, db[t := ex], names);
            forall x :: x in db' && IsCompleted(db'[x].state) && x != t ==> x in db && db'[x] == db[x]
  {
  }

  lemma QuietRemembers(s: Spec, tr: Trace)
    requires Valid(s) && Acyclic(s) && tr.Then? && After(s, tr).State? && AllRemembered(s, tr.before)
    requires EndingOf(s, After(s, tr.before).run, tr.action).None?
    ensures AllRemembered(s, tr)
  {
    var r := After(s, tr.before).run;
    QuietCompletesNone(s, r, tr.action);
    if IsCompleted(r.wf) {
      CompletedStays(s, r, tr.action);
    }
  }

  lemma EndingRemembers(s: Spec, tr: Trace)
    requires Valid(s) && Acyclic(s) && tr.Then? && After(s, tr).State? && AllRemembered(s, tr.before)
    requires EndingOf(s, After(s, tr.before).run, tr.action).Some?
    ensures AllRemembered(s, tr)
  {
    var r, r' := After(s, tr.before).run, After(s, tr).run;
    var e := EndingOf(s, r, tr.action).value;
    EndingStep(s, r, tr.action);
    EndStores(s, r, e.task, e.outcome, e.holds);
    EndCompletesOne(s, r, e.task, e.outcome, e.holds);
    if IsCompleted(r.wf) {
      CompletedStays(s, r, tr.action);
    }
    forall t | !IsCompleted(r.wf) && t in r'.execs && IsCompleted(r'.execs[t].state)
      ensures Remembers(s, t, r'.execs[t], LastEnd(s, tr, t))
    {
      if t != e.task {
        assert LastEnd(s, tr, t) == LastEnd(s, tr.before, t);
      }
    }
  }

  lemma {:induction false} RunRemembers(s: Spec, tr: Trace)
    requires Valid(s) && Acyclic(s) && After(s, tr).State?
    ensures AllRemembered(s, tr)
  {
    if tr.Begin? {
    } else {
      RunRemembers(s, tr.before);
      if EndingOf(s, After(s, tr.before).run, tr.action).None? {
        QuietRemembers(s, tr);
      } else {
        EndingRemembers(s, tr);
      }
    }
  }

  /** t failed at its last end, and there its definition listed an "on-error" transition. */
  ghost predicate FailedHandled(s: Spec, tr: Trace, t: Name)
    requires Valid(s) && Acyclic(s)
  {
    var end := LastEnd(s, tr, t);
    t in s.tasks && end.Some? && end.value.outcome == ERROR && ListsError(s, t, end.value.holds)
  }

  /**
   A check succeeds exactly if all tasks are completed, none was cancelled, and
   every failed one had an "on-error" transition to take at its end; it fails
   exactly if all are completed, none was cancelled, and some failed one had none.
   */
  lemma CheckFollowsDefinition(s: Spec, tr: Trace)
    requires Valid(s) && Acyclic(s) && After(s, tr).State?
    requires After(s, tr).run.wf == RUNNING && Enabled(s, After(s, tr).run, Check)
    ensures var execs, wf := After(s, tr).run.execs, Apply(s, After(s, tr).run, Check).wf;
            var clean := AllCompleted(execs) && forall t :: t in execs ==> execs[t].state != CANCELLED;
            && (wf == SUCCESS <==>
                clean && forall t :: t in execs && execs[t].state == ERROR ==> FailedHandled(s, tr, t))
            && (wf == ERROR <==>
                clean && exists t :: t in execs && execs[t].state == ERROR && !FailedHandled(s, tr, t))
  {
    var r := After(s, tr).run;
    RunRemembers(s, tr);
    CheckIsExact(s, r);
    forall t | t in r.execs && r.execs[t].state == ERROR
      ensures r.execs[t].errorHandled <==> FailedHandled(s, tr, t)
    {
      assert Remembers(s, t, r.execs[t], LastEnd(s, tr, t));
    }
    CheckRange(r);
  }

  lemma CheckRange(r: Run)
    requires r.wf == RUNNING
    ensures CheckCompletion(r).wf in {RUNNING, SUCCESS, ERROR, CANCELLED}
    ensures CheckCompletion(r).wf == RUNNING <==> !AllCompleted(r.execs)
    ensures CheckCompletion(r).wf == CANCELLED <==>
            AllCompleted(r.execs) && exists t :: t in r.execs && r.execs[t].state == CANCELLED
  {
  }
}
