/**
 The engine's operations on one direct workflow execution, with its fields
 updated in place and its loops, each proved to take the step that the state
 machine of DirectRun describes.
 */
module DirectEngine {
  import opened States
  import opened WorkflowSpec
  import opened JoinLogic
  import opened AffectedJoins
  import opened DirectRun
  import opened Policies
  import opened PausedRun
  import RouteCache

  /** What the loop over a clause adds for its entry at i to those found before it. */
  lemma ChosenFrom(r: seq<NextTask>, clause: seq<Transition>, i: nat, event: Event, holds: set<NextTask>)
    requires i < |clause|
    ensures var entry := NextTask(clause[i].to, event);
            r + Chosen(clause[i..], event, holds) ==
            (if !clause[i].guarded || entry in holds then r + [entry] else r) + Chosen(clause[i + 1..], event, holds)
  {
    var entry, more := NextTask(clause[i].to, event), Chosen(clause[i + 1..], event, holds);
    assert clause[i..][0] == clause[i] && clause[i..][1..] == clause[i + 1..];
    assert r + ([entry] + more) == r + [entry] + more;
  }

  method EvaluateClause(clause: seq<Transition>, event: Event, holds: set<NextTask>) returns (r: seq<NextTask>)
    ensures r == Chosen(clause, event, holds)
  {
    r := [];
    assert clause[0..] == clause;
    for i := 0 to |clause|
      invariant r + Chosen(clause[i..], event, holds) == Chosen(clause, event, holds)
    {
      ChosenFrom(r, clause, i, event, holds);
      var entry := NextTask(clause[i].to, event);
      if !clause[i].guarded || entry in holds {
        r := r + [entry];
      }
    }
    assert Chosen(clause[|clause|..], event, holds) == [];
  }

  method EvaluateNextTasks(s: Spec, t: Name, st: State, holds: set<NextTask>) returns (r: seq<NextTask>)
    requires t in s.tasks
    ensures r == FindNextTasks(s, t, st, holds)
  {
    var spec := s.tasks[t];
    r := [];
    if st == ERROR {
      r := EvaluateClause(spec.onError, OnError, holds);
    }
    var skipIsEmpty := false;
    if st == SKIPPED {
      r := EvaluateClause(spec.onSkip, OnSkip, holds);
      skipIsEmpty := r == [];
    }
    if st == SUCCESS || skipIsEmpty {
      var more := EvaluateClause(spec.onSuccess, OnSuccess, holds);
      r := r + more;
    }
    if IsCompleted(st) && st !in {CANCELLED, SKIPPED} {
      var more := EvaluateClause(spec.onComplete, OnComplete, holds);
      r := r + more;
    }
  }

  method SaveNextTasks(cmds: seq<NextTask>) returns (r: seq<NextTask>)
    ensures r == TaskEntries(cmds)
  {
    r := [];
    for i := 0 to |cmds|
      invariant r == TaskEntries(cmds[..i])
    {
      assert cmds[..i + 1][..i] == cmds[..i];
      if cmds[i].name !in ENGINE_COMMANDS {
        r := r + [cmds[i]];
      }
    }
    assert cmds[..|cmds|] == cmds;
  }

  lemma {:induction false} LaunchedSplit(a: seq<NextTask>, b: seq<NextTask>)
    requires forall n :: n in a ==> !ChangesState(n)
    ensures Launched(a + b) == Launched(a) + Launched(b)
  {
    if a == [] {
      assert a + b == b;
    } else {
      assert a[0] in a && (a + b)[0] == a[0] && (a + b)[1..] == a[1..] + b;
      LaunchedSplit(a[1..], b);
    }
  }

  lemma {:induction false} StateAfterSplit(a: seq<NextTask>, b: seq<NextTask>, wf: State)
    requires forall n :: n in a ==> !ChangesState(n)
    ensures StateAfter(a + b, wf) == StateAfter(b, wf)
  {
    if a == [] {
      assert a + b == b;
    } else {
      assert a[0] in a && (a + b)[0] == a[0] && (a + b)[1..] == a[1..] + b;
      StateAfterSplit(a[1..], b, wf);
    }
  }

  /** What dispatching the command at i adds to the dispatch of those before it. */
  lemma DispatchStep(cmds: seq<NextTask>, i: nat, wf: State)
    requires i < |cmds| && forall n :: n in cmds[..i] ==> !ChangesState(n)
    ensures ChangesState(cmds[i]) ==> Launched(cmds) == Launched(cmds[..i])
    ensures ChangesState(cmds[i]) ==>
              StateAfter(cmds, wf) ==
              if cmds[i].name == FAIL then ERROR else if cmds[i].name == SUCCEED then SUCCESS else PAUSED
    ensures !ChangesState(cmds[i]) ==> forall n :: n in cmds[..i + 1] ==> !ChangesState(n)
    ensures !ChangesState(cmds[i]) ==>
              Launched(cmds[..i + 1]) == Launched(cmds[..i]) + if cmds[i].name == NOOP then {} else {cmds[i].name}
  {
    assert cmds == cmds[..i] + cmds[i..] && cmds[..i + 1] == cmds[..i] + [cmds[i]];
    LaunchedSplit(cmds[..i], cmds[i..]);
    StateAfterSplit(cmds[..i], cmds[i..], wf);
    LaunchedSplit(cmds[..i], [cmds[i]]);
  }

  lemma LaunchOneMore(s: Spec, db: Table, names: set<Name>, n: Name)
    ensures LaunchAll(s, db, names)[n := Launch(s, LaunchAll(s, db, names), n)] == LaunchAll(s, db, names + {n})
  {
  }

  /** The state that completing a task starts from does not matter. */
  lemma FinishOverwrites(s: Spec, r: Run, t: Name, st: State, holds: set<NextTask>)
    requires t in s.tasks && t in r.execs
    ensures FinishTask(s, r.(execs := r.execs[t := r.execs[t].(state := st)]), t, st, holds) ==
            FinishTask(s, r, t, st, holds)
  {
    var ex := CompletedEx(r.execs[t], st, Commands(s, r.wf, t, st, holds));
    assert r.execs[t := r.execs[t].(state := st)][t := ex] == r.execs[t := ex];
  }

  /** A completion is the policies followed, if they let the task end, by the post-completion logic. */
  lemma CompletionSplits(s: Spec, r: Run, r1: Run, t: Name, st: State, d: Decision, holds: set<NextTask>)
    requires t in s.tasks && t in r.execs && st in {SUCCESS, ERROR, CANCELLED}
    requires var end := StateAfterPolicies(d, IsJoin(s, t), st);
             && r1.execs == r.execs[t := r.execs[t].(state := end)] && r1.wf == r.wf && r1.check == r.check
             && r1.refresh == if end == WAITING then r.refresh + {t} else r.refresh
    ensures var end := r1.execs[t].state;
            && end in {DELAYED, WAITING, SUCCESS, ERROR, CANCELLED}
            && CompleteTask(s, r, t, st, d, holds) ==
               if end in {DELAYED, WAITING} then r1 else FinishTask(s, r1, t, end, holds)
  {
    var end := r1.execs[t].state;
    if IsCompleted(end) {
      FinishOverwrites(s, r, t, end, holds);
      assert r1 == r.(execs := r.execs[t := r.execs[t].(state := end)]);
    }
  }

  lemma HoldOverwrites(s: Spec, r: Run, t: Name, st: State, holds: set<NextTask>)
    requires t in s.tasks && t in r.execs
    ensures HoldTask(s, r.(execs := r.execs[t := r.execs[t].(state := st)]), t, st, holds) ==
            HoldTask(s, r, t, st, holds)
  {
    var ex := CompletedEx(r.execs[t], st, FindNextTasks(s, t, st, holds));
    assert r.execs[t := r.execs[t].(state := st)][t := ex] == r.execs[t := ex];
    assert r.execs[t := r.execs[t].(state := st)].Keys == r.execs.Keys;
  }

  /** The same for a completion in a paused workflow. */
  lemma HeldCompletionSplits(s: Spec, p: Paused, r1: Run, t: Name, st: State, d: Decision, holds: set<NextTask>)
    requires t in s.tasks && t in p.run.execs && st in {SUCCESS, ERROR, CANCELLED}
    requires var end := StateAfterPolicies(d, IsJoin(s, t), st);
             && r1.execs == p.run.execs[t := p.run.execs[t].(state := end)]
             && r1.wf == p.run.wf && r1.check == p.run.check
             && r1.refresh == if end == WAITING then p.run.refresh + {t} else p.run.refresh
    ensures var end := r1.execs[t].state;
            CompleteHeld(s, p, t, st, d, holds) ==
            if end in {DELAYED, WAITING} then Paused(r1, p.held)
            else Paused(HoldTask(s, r1, t, end, holds), p.held + {t})
  {
    var end := r1.execs[t].state;
    if IsCompleted(end) {
      HoldOverwrites(s, p.run, t, end, holds);
      assert r1 == p.run.(execs := p.run.execs[t := p.run.execs[t].(state := end)]);
    }
  }

  /** The end of a task is what it stores and dispatches, followed by the search for affected joins. */
  lemma FinishParts(s: Spec, r: Run, t: Name, st: State, holds: set<NextTask>, r1: Run)
    requires t in s.tasks && t in r.execs
    requires var cmds := Commands(s, r.wf, t, st, holds);
             && r1.execs == LaunchAll(s, r.execs[t := CompletedEx(r.execs[t], st, cmds)], Launched(cmds))
             && r1.wf == StateAfter(cmds, r.wf) && r1.refresh == r.refresh
             && r1.check == (r.check || TaskEntries(cmds) == [])
    ensures FinishTask(s, r, t, st, holds) ==
            r1.(refresh := if IsCompleted(r1.wf) then r1.refresh else r1.refresh + Affected(s, r1.execs.Keys, t))
  {
  }

  lemma HoldParts(s: Spec, r: Run, t: Name, st: State, holds: set<NextTask>, r1: Run)
    requires t in s.tasks && t in r.execs && r.wf == PAUSED
    requires r1 == r.(execs := r.execs[t := CompletedEx(r.execs[t], st, Commands(s, r.wf, t, st, holds))])
    ensures HoldTask(s, r, t, st, holds) == r1.(refresh := r1.refresh + Affected(s, r1.execs.Keys, t))
  {
    assert r1.execs.Keys == r.execs.Keys;
  }

  lemma ResumeParts(s: Spec, p: Paused, order: seq<Name>, holds: map<Name, set<NextTask>>, cmds: seq<NextTask>)
    requires Valid(s) && Acyclic(s) && MayMove(s, p, Resume(order, holds))
    requires cmds == WithoutPauses(HeldCommands(s, p.run.execs, order, holds))
    ensures Moved(s, p, Resume(order, holds)) == Paused(ResumeRun(s, p.run.(wf := RUNNING), cmds), {})
  {
  }

  class Engine {
    const s: Spec
    var execs: Table
    var wf: State
    var refresh: set<Name>
    var check: bool
    var held: set<Name>

    ghost function View(): Run
      reads this`execs, this`wf, this`refresh, this`check
    {
      Run(execs, wf, refresh, check)
    }

    ghost function Whole(): Paused
      reads this
    {
      Paused(View(), held)
    }

    constructor (spec: Spec)
      ensures s == spec && Whole() == Paused(INIT, {})
    {
      s := spec;
      execs, wf, refresh, check, held := map[], IDLE, {}, false, {};
    }

    /** Creates the tasks without inbound transitions. */
    method StartWorkflow()
      requires wf == IDLE && execs == map[]
      modifies this`wf, this`execs
      ensures View() == old(View()).(wf := RUNNING, execs := StartTable(s))
    {
      wf := RUNNING;
      var startTasks := StartTasks(s);
      var todo := startTasks;
      while todo != {}
        invariant execs.Keys + todo == startTasks
        invariant forall t :: t in execs ==> execs[t] == NEW_TASK
        invariant wf == RUNNING && refresh == old(refresh) && check == old(check)
        decreases todo
      {
        var t :| t in todo;
        todo := todo - {t};
        execs := execs[t := NEW_TASK];
      }
      assert execs == StartTable(s);
    }

    /** Puts a join to waiting, creating it if needed. */
    method Defer(n: Name)
      requires IsJoin(s, n)
      modifies this`execs
      ensures execs == old(execs)[n := Launch(s, old(execs), n)]
    {
      if n in execs && execs[n].state == WAITING {
        return;
      }
      if n !in execs {
        execs := execs[n := NEW_JOIN];
      } else if execs[n].state != WAITING {
        execs := execs[n := execs[n].(state := WAITING)];
      }
    }

    method CreateTask(n: Name)
      modifies this`execs
      ensures execs == old(execs)[n := Launch(s, old(execs), n)]
    {
      if IsJoin(s, n) {
        Defer(n);
      } else {
        execs := execs[n := NEW_TASK];
      }
    }

    /** Runs commands in order until one of them changes the workflow state. */
    method Dispatch(cmds: seq<NextTask>)
      modifies this`execs, this`wf
      ensures execs == LaunchAll(s, old(execs), Launched(cmds))
      ensures wf == StateAfter(cmds, old(wf))
    {
      for i := 0 to |cmds|
        invariant forall n :: n in cmds[..i] ==> !ChangesState(n)
        invariant execs == LaunchAll(s, old(execs), Launched(cmds[..i]))
        invariant wf == old(wf)
      {
        var n := cmds[i];
        DispatchStep(cmds, i, wf);
        if ChangesState(n) {
          wf := if n.name == FAIL then ERROR else if n.name == SUCCEED then SUCCESS else PAUSED;
          return;
        }
        if n.name != NOOP {
          LaunchOneMore(s, old(execs), Launched(cmds[..i]), n.name);
          CreateTask(n.name);
        }
      }
      assert cmds[..|cmds|] == cmds;
      StateAfterSplit(cmds, [], wf);
      assert cmds + [] == cmds;
    }

    /** What the policies of a task make of its completion. */
    method AfterTaskComplete(t: Name, d: Decision)
      requires t in execs && IsCompleted(execs[t].state)
      modifies this`execs, this`refresh
      ensures var st := StateAfterPolicies(d, IsJoin(s, t), old(execs)[t].state);
              && execs == old(execs)[t := old(execs)[t].(state := st)]
              && refresh == if st == WAITING then old(refresh) + {t} else old(refresh)
    {
      if d.waits {
        execs := execs[t := execs[t].(state := DELAYED)];
        return;
      }
      if d.fails && execs[t].state == SUCCESS {
        execs := execs[t := execs[t].(state := ERROR)];
      }
      if d.retries && execs[t].state != CANCELLED {
        if IsJoin(s, t) {
          execs := execs[t := execs[t].(state := WAITING)];
          refresh := refresh + {t};
        } else {
          execs := execs[t := execs[t].(state := DELAYED)];
        }
      }
    }

    /** Completes a task unless it is completed already or its policies delay or retry it. */
    method CompleteTask(t: Name, st: State, d: Decision, holds: set<NextTask>)
      requires t in s.tasks && t in execs && st in {SUCCESS, ERROR, CANCELLED}
      modifies this
      ensures Whole() == if IsCompleted(old(execs)[t].state) then old(Whole())
                         else if old(wf) == PAUSED then CompleteHeld(s, old(Whole()), t, st, d, holds)
                         else Paused(DirectRun.CompleteTask(s, old(View()), t, st, d, holds), old(held))
    {
      if IsCompleted(execs[t].state) {
        return;
      }
      ghost var p := Whole();
      execs := execs[t := execs[t].(state := st)];
      AfterTaskComplete(t, d);
      if wf == PAUSED {
        HeldCompletionSplits(s, p, View(), t, st, d, holds);
      } else {
        CompletionSplits(s, p.run, View(), t, st, d, holds);
      }
      if execs[t].state in {DELAYED, WAITING} {
        return;
      }
      FinishTask(t, execs[t].state, holds);
    }

    /**
     The post-completion logic of a task, ended by the search for affected joins.
     In a paused workflow nothing is dispatched and the task counts as not processed.
     */
    method FinishTask(t: Name, st: State, holds: set<NextTask>)
      requires t in s.tasks && t in execs && IsCompleted(st)
      modifies this
      ensures Whole() == if old(wf) == PAUSED then Paused(HoldTask(s, old(View()), t, st, holds), old(held) + {t})
                         else Paused(DirectRun.FinishTask(s, old(View()), t, st, holds), old(held))
    {
      var cmds := [];
      if !IsCompleted(wf) {
        cmds := EvaluateNextTasks(s, t, st, holds);
      }
      ghost var r := View();
      SaveCompletion(t, st, cmds);
      if wf == PAUSED {
        held := held + {t};
        HoldParts(s, r, t, st, holds, View());
      } else {
        DispatchNext(t, cmds);
        FinishParts(s, r, t, st, holds, View());
      }
      CheckAffectedTasks(t);
    }

    /** Stores the state of a completed task, what it leads to, and whether its error is handled. */
    method SaveCompletion(t: Name, st: State, cmds: seq<NextTask>)
      requires t in execs
      modifies this`execs
      ensures execs == old(execs)[t := CompletedEx(old(execs)[t], st, cmds)]
    {
      var next := SaveNextTasks(cmds);
      var handled := execs[t].errorHandled;
      if st == ERROR {
        handled := exists n :: n in cmds && n.event == OnError;
      }
      execs := execs[t := TaskEx(st, next, next != [], handled)];
    }

    /** Registers a completion check if the task leads nowhere, and dispatches its commands. */
    method DispatchNext(t: Name, cmds: seq<NextTask>)
      requires t in execs && execs[t].next == TaskEntries(cmds)
      modifies this`execs, this`wf, this`check
      ensures execs == LaunchAll(s, old(execs), Launched(cmds)) && wf == StateAfter(cmds, old(wf))
      ensures check == (old(check) || TaskEntries(cmds) == [])
    {
      if execs[t].next == [] {
        check := true;
      }
      Dispatch(cmds);
    }

    method CheckAffectedTasks(t: Name)
      requires t in s.tasks
      modifies this`refresh
      ensures refresh == if IsCompleted(wf) then old(refresh) else old(refresh) + Affected(s, execs.Keys, t)
    {
      if IsCompleted(wf) {
        return;
      }
      var affected := FindIndirectlyAffected(s, execs.Keys, t);
      var todo := affected;
      while todo != {}
        invariant todo <= affected && refresh == old(refresh) + (affected - todo)
        decreases todo
      {
        var j :| j in todo;
        todo := todo - {j};
        refresh := refresh + {j};
      }
    }

    /** A scheduled refresh of a join: re-reads its logical state and acts on it. */
    method RefreshTaskState(t: Name, d: Decision, holds: set<NextTask>)
      requires Valid(s) && Acyclic(s) && MayMove(s, Whole(), Act(Refresh(t, d, holds)))
      modifies this
      ensures Whole() == Moved(s, old(Whole()), Act(Refresh(t, d, holds)))
    {
      refresh := refresh - {t};
      if IsCompleted(execs[t].state) || execs[t].state == RUNNING || IsCompleted(wf) {
        return;
      }
      var logical := RouteCache.GetJoinLogicalState(s, execs, t);
      if logical.state == RUNNING {
        execs := execs[t := execs[t].(state := RUNNING)];
      } else if logical.state == ERROR {
        CompleteTask(t, ERROR, d, holds);
      }
    }

    /** A scheduled check. */
    method CheckAndComplete()
      modifies this`check, this`wf
      ensures View() == CheckCompletion(old(View()))
    {
      check := false;
      CompleteIfDone();
    }

    method CompleteIfDone()
      modifies this`wf
      ensures wf == if IsPausedOrCompleted(old(wf)) || !AllCompleted(execs) then old(wf) else FinalState(execs)
    {
      if IsPausedOrCompleted(wf) {
        return;
      }
      if exists t :: t in execs && !IsCompleted(execs[t].state) {
        return;
      }
      if exists t :: t in execs && execs[t].state == CANCELLED {
        wf := CANCELLED;
      } else if forall t :: t in execs && execs[t].state == ERROR ==> execs[t].errorHandled {
        wf := SUCCESS;
      } else {
        wf := ERROR;
      }
    }

    // ---------- pausing and resuming ----------

    method PauseWorkflow()
      requires Valid(s) && Acyclic(s) && wf in {RUNNING, PAUSED}
      modifies this`wf
      ensures Whole() == if old(wf) == PAUSED then old(Whole()) else Moved(s, old(Whole()), Pause)
    {
      if wf == PAUSED {
        return;
      }
      wf := PAUSED;
    }

    /**
     Resumes the workflow if it is paused: dispatches what the held tasks lead to,
     or, if that is nothing, looks whether the workflow is complete.
     */
    method ResumeWorkflow(order: seq<Name>, holds: map<Name, set<NextTask>>)
      requires Valid(s) && Acyclic(s) && (wf == PAUSED ==> MayMove(s, Whole(), Resume(order, holds)))
      modifies this
      ensures Whole() == if old(wf) == PAUSED then Moved(s, old(Whole()), Resume(order, holds)) else old(Whole())
    {
      if wf != PAUSED {
        return;
      }
      ghost var p := Whole();
      wf := RUNNING;
      var found := FindHeldCommands(order, holds);
      var cmds := RemovePauses(found);
      ResumeParts(s, p, order, holds, cmds);
      ContinueWorkflow(cmds);
    }

    /** Counts all tasks as processed, and dispatches the commands or looks whether the workflow is complete. */
    method ContinueWorkflow(cmds: seq<NextTask>)
      requires wf == RUNNING
      modifies this
      ensures Whole() == Paused(ResumeRun(s, old(View()), cmds), {})
    {
      held := {};
      if cmds != [] {
        Dispatch(cmds);
      } else {
        CompleteIfDone();
      }
    }

    /** The commands of the completed tasks that are not processed yet. */
    method FindHeldCommands(order: seq<Name>, holds: map<Name, set<NextTask>>) returns (cmds: seq<NextTask>)
      requires forall t :: t in order ==> t in s.tasks && t in execs && t in holds
      ensures cmds == HeldCommands(s, execs, order, holds)
    {
      cmds := [];
      for i := 0 to |order|
        invariant cmds == HeldCommands(s, execs, order[..i], holds)
      {
        assert order[..i + 1][..i] == order[..i];
        var next := EvaluateNextTasks(s, order[i], execs[order[i]].state, holds[order[i]]);
        cmds := cmds + next;
      }
      assert order[..|order|] == order;
    }
  }

  method RemovePauses(cmds: seq<NextTask>) returns (r: seq<NextTask>)
    ensures r == WithoutPauses(cmds)
  {
    r := [];
    for i := 0 to |cmds|
      invariant r == WithoutPauses(cmds[..i])
    {
      assert cmds[..i + 1][..i] == cmds[..i];
      if cmds[i].name != PAUSE {
        r := r + [cmds[i]];
      }
    }
    assert cmds[..|cmds|] == cmds;
  }
}
