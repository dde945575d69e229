/** Reverse workflows: a target task is reached by first running all it requires. */
module Reverse {
  import opened States

  type Name = string

  /** `order` is the order in which the definition lists its tasks, `defaults` what all of them require. */
  datatype Definition = Definition(order: seq<Name>, requirements: map<Name, set<Name>>, defaults: set<Name>)

  datatype TaskEx = TaskEx(name: Name, state: State)

  /** Edges lead from a required task to the task requiring it. */
  type Graph = set<(Name, Name)>

  datatype Result<T> = Ok(value: T) | InvalidTaskName

  function Requires(d: Definition, t: Name): set<Name> {
    if t in d.requirements then d.requirements[t] + d.defaults - {t} else {}
  }

  /** What validation of a definition guarantees: tasks are listed once, and only tasks are required. */
  ghost predicate Valid(d: Definition) {
    && (forall n :: n in d.order <==> n in d.requirements)
    && (forall i, j :: 0 <= i < j < |d.order| ==> d.order[i] != d.order[j])
    && (forall t, n :: t in d.requirements && n in Requires(d, t) ==> n in d.requirements)
  }

  // ---------- the graph ----------

  predicate DependsOn(d: Definition, among: seq<Name>, dep: Name, t: Name) {
    dep in d.order && t in among && dep in Requires(d, t)
  }

  method GetDependencyTasks(d: Definition, t: Name) returns (deps: set<Name>)
    ensures forall n :: n in deps <==> n in d.order && n in Requires(d, t)
  {
    var needed := Requires(d, t);
    deps := {};
    for i := 0 to |d.order|
      invariant forall n :: n in deps <==> n in d.order[..i] && n in needed
    {
      if d.order[i] in needed {
        deps := deps + {d.order[i]};
      }
    }
  }

  method BuildGraph(d: Definition) returns (g: Graph)
    ensures g == GraphOf(d)
  {
    g := {};
    for i := 0 to |d.order|
      invariant forall a, b :: (a, b) in g <==> DependsOn(d, d.order[..i], a, b)
    {
      var t := d.order[i];
      var deps := GetDependencyTasks(d, t);
      g := g + set dep | dep in deps :: (dep, t);
    }
    assert d.order[..|d.order|] == d.order;
    forall e
      ensures e in g <==> e in GraphOf(d)
    {
      assert (e.0, e.1) == e;
    }
  }

  ghost function GraphOf(d: Definition): Graph {
    set a, b | a in d.order && b in d.order && DependsOn(d, d.order, a, b) :: (a, b)
  }

  ghost predicate PathTo(g: Graph, p: seq<Name>, a: Name, b: Name) {
    |p| >= 1 && p[0] == a && p[|p| - 1] == b && forall i :: 0 <= i < |p| - 1 ==> (p[i], p[i + 1]) in g
  }

  /** b is a, or requires it directly or not. */
  ghost predicate Needs(g: Graph, a: Name, b: Name) {
    exists p :: PathTo(g, p, a, b)
  }

  ghost predicate Acyclic(g: Graph) {
    forall a, b :: (a, b) in g ==> !Needs(g, b, a)
  }

  lemma NeedsItself(g: Graph, a: Name)
    ensures Needs(g, a, a)
  {
    assert PathTo(g, [a], a, a);
  }

  lemma NeedsMore(g: Graph, a: Name, b: Name, c: Name)
    requires (a, b) in g && Needs(g, b, c)
    ensures Needs(g, a, c)
  {
    var p :| PathTo(g, p, b, c);
    var q := [a] + p;
    forall i | 0 <= i < |q| - 1
      ensures (q[i], q[i + 1]) in g
    {
      assert i > 0 ==> q[i] == p[i - 1] && q[i + 1] == p[i];
    }
    assert PathTo(g, q, a, c);
  }

  /** Traversing the reversed graph from the target lists each needed task once, in whatever order. */
  ghost predicate IsTraversal(g: Graph, target: Name, nodes: seq<Name>) {
    && (forall n :: n in nodes <==> Needs(g, n, target))
    && (forall i, j :: 0 <= i < j < |nodes| ==> nodes[i] != nodes[j])
  }

  // ---------- satisfied tasks ----------

  function Succeeded(execs: seq<TaskEx>): set<Name> {
    set e | e in execs && e.state == SUCCESS :: e.name
  }

  ghost predicate Satisfied(d: Definition, execs: seq<TaskEx>, t: Name) {
    (forall e :: e in execs ==> e.name != t) && Requires(d, t) <= Succeeded(execs)
  }

  method IsSatisfiedTask(d: Definition, execs: seq<TaskEx>, t: Name) returns (ok: bool)
    ensures ok <==> Satisfied(d, execs, t)
  {
    if exists e :: e in execs && e.name == t {
      return false;
    }
    if Requires(d, t) == {} {
      return true;
    }
    var success: set<Name> := {};
    for i := 0 to |execs|
      invariant success == Succeeded(execs[..i])
    {
      if execs[i].state == SUCCESS {
        success := success + {execs[i].name};
      }
    }
    assert execs[..|execs|] == execs;
    return Requires(d, t) - success == {};
  }

  ghost predicate Found(d: Definition, execs: seq<TaskEx>, target: Name, found: seq<Name>) {
    && (forall n :: n in found <==> Needs(GraphOf(d), n, target) && Satisfied(d, execs, n))
    && (forall i, j :: 0 <= i < j < |found| ==> found[i] != found[j])
  }

  /** `nodes` is what the traversal of the graph gives. */
  method FindTaskSpecsWithSatisfiedDependencies(d: Definition, execs: seq<TaskEx>, target: Name, nodes: seq<Name>)
    returns (r: Result<seq<Name>>)
    requires target in d.requirements ==> IsTraversal(GraphOf(d), target, nodes)
    ensures r == InvalidTaskName <==> target !in d.requirements
    ensures r.Ok? ==> Found(d, execs, target, r.value)
  {
    if target !in d.requirements {
      return InvalidTaskName;
    }
    var found := [];
    for i := 0 to |nodes|
      invariant forall n :: n in found <==> n in nodes[..i] && Satisfied(d, execs, n)
      invariant forall k, l :: 0 <= k < l < |found| ==> found[k] != found[l]
    {
      var ok := IsSatisfiedTask(d, execs, nodes[i]);
      if ok {
        assert nodes[i] !in nodes[..i];
        found := found + [nodes[i]];
      }
    }
    r := Ok(found);
  }

  // ---------- runs ----------

  datatype Run = Run(wf: State, execs: seq<TaskEx>)

  const NEW := Run(IDLE, [])

  datatype Action =
    | Begin
    | Move(i: nat, state: State)
    | Complete(i: nat, state: State)
    | Pause
    | Resume
    | Finish(state: State)

  /** The execution of every found task is created. */
  ghost predicate Created(d: Definition, target: Name, execs: seq<TaskEx>, execs': seq<TaskEx>) {
    exists found :: Found(d, execs, target, found) && execs' == execs + Executions(found)
  }

  function Executions(names: seq<Name>): (r: seq<TaskEx>)
    ensures |r| == |names| && forall i :: 0 <= i < |r| ==> r[i] == TaskEx(names[i], IDLE)
  {
    seq(|names|, i requires 0 <= i < |names| => TaskEx(names[i], IDLE))
  }

  /** One transaction; the commands found while the workflow is paused or completed are not dispatched. */
  ghost predicate Step(d: Definition, target: Name, r: Run, a: Action, r': Run) {
    match a
    case Begin => r.wf == IDLE && r'.wf == RUNNING && Created(d, target, r.execs, r'.execs)
    case Move(i, state) =>
      && i < |r.execs| && !IsCompleted(r.execs[i].state) && !IsCompleted(state)
      && r' == r.(execs := r.execs[i := r.execs[i].(state := state)])
    case Complete(i, state) =>
      && i < |r.execs| && !IsCompleted(r.execs[i].state) && IsCompleted(state) && r'.wf == r.wf
      && var done := r.execs[i := r.execs[i].(state := state)];
         if r.wf == RUNNING then Created(d, target, done, r'.execs) else r'.execs == done
    case Pause => r.wf == RUNNING && r' == r.(wf := PAUSED)
    case Resume => r.wf == PAUSED && r'.wf == RUNNING && Created(d, target, r.execs, r'.execs)
    case Finish(state) => !IsCompleted(r.wf) && IsCompleted(state) && r' == r.(wf := state)
  }

  datatype Trace = Initially | Then(before: Trace, action: Action, run: Run)

  function RunOf(tr: Trace): Run {
    if tr.Initially? then NEW else tr.run
  }

  ghost predicate IsRun(d: Definition, target: Name, tr: Trace) {
    tr.Then? ==> IsRun(d, target, tr.before) && Step(d, target, RunOf(tr.before), tr.action, tr.run)
  }

  ghost predicate Once(execs: seq<TaskEx>) {
    forall i, j :: 0 <= i < j < |execs| ==> execs[i].name != execs[j].name
  }

  /** Only needed tasks are started, and only behind everything they require. */
  ghost predicate Justified(d: Definition, target: Name, execs: seq<TaskEx>) {
    forall e :: e in execs ==> Needs(GraphOf(d), e.name, target) && Requires(d, e.name) <= Succeeded(execs)
  }

  ghost predicate NothingToStart(d: Definition, target: Name, execs: seq<TaskEx>) {
    forall n :: Needs(GraphOf(d), n, target) ==> !Satisfied(d, execs, n)
  }

  lemma UpdateKeeps(d: Definition, target: Name, execs: seq<TaskEx>, i: nat, state: State)
    requires i < |execs| && !IsCompleted(execs[i].state) && Once(execs) && Justified(d, target, execs)
    ensures var execs' := execs[i := execs[i].(state := state)];
            && Once(execs') && Justified(d, target, execs') && Succeeded(execs) <= Succeeded(execs')
            && (state != SUCCESS && NothingToStart(d, target, execs) ==> NothingToStart(d, target, execs'))
  {
    var execs' := execs[i := execs[i].(state := state)];
    forall n | n in Succeeded(execs)
      ensures n in Succeeded(execs')
    {
      var k :| 0 <= k < |execs| && execs[k].state == SUCCESS && execs[k].name == n;
      assert execs'[k] == execs[k];
    }
    forall e | e in execs'
      ensures exists e0 :: e0 in execs && e0.name == e.name
    {
      var k :| 0 <= k < |execs'| && execs'[k] == e;
      assert execs[k].name == e.name;
    }
    if state != SUCCESS && NothingToStart(d, target, execs) {
      UpdateSatisfiesNone(d, execs, i, state);
    }
  }

  lemma UpdateSatisfiesNone(d: Definition, execs: seq<TaskEx>, i: nat, state: State)
    requires i < |execs| && state != SUCCESS
    ensures var execs' := execs[i := execs[i].(state := state)];
            forall n :: Satisfied(d, execs', n) ==> Satisfied(d, execs, n)
  {
    var execs' := execs[i := execs[i].(state := state)];
    forall e | e in execs
      ensures exists e' :: e' in execs' && e'.name == e.name
    {
      var k :| 0 <= k < |execs| && execs[k] == e;
      assert execs'[k].name == e.name;
    }
    forall n | n in Succeeded(execs')
      ensures n in Succeeded(execs)
    {
      var k :| 0 <= k < |execs'| && execs'[k].state == SUCCESS && execs'[k].name == n;
      assert execs[k] == execs'[k];
    }
  }

  lemma CreationKeeps(d: Definition, target: Name, execs: seq<TaskEx>, execs': seq<TaskEx>)
    requires Once(execs) && Justified(d, target, execs) && Created(d, target, execs, execs')
    ensures Once(execs') && Justified(d, target, execs') && NothingToStart(d, target, execs')
    ensures Succeeded(execs') == Succeeded(execs)
  {
    var found :| Found(d, execs, target, found) && execs' == execs + Executions(found);
    forall e | e in execs'
      ensures e in execs || (e.state == IDLE && e.name in found)
    {
    }
    assert forall e :: e in execs ==> e in execs';
    forall i, j | 0 <= i < j < |execs'|
      ensures execs'[i].name != execs'[j].name
    {
      if i < |execs| <= j {
        assert execs[i] in execs && Satisfied(d, execs, found[j - |execs|]);
      }
    }
    forall n | Needs(GraphOf(d), n, target)
      ensures !Satisfied(d, execs', n)
    {
      if n in found {
        var k :| 0 <= k < |found| && found[k] == n;
        assert execs'[|execs| + k].name == n;
      }
    }
  }

  ghost predicate Inv(d: Definition, target: Name, r: Run) {
    && Once(r.execs) && Justified(d, target, r.execs)
    && (r.wf == RUNNING ==> NothingToStart(d, target, r.execs))
  }

  lemma StepKeepsInv(d: Definition, target: Name, r: Run, a: Action, r': Run)
    requires Inv(d, target, r) && Step(d, target, r, a, r')
    ensures Inv(d, target, r') && Succeeded(r.execs) <= Succeeded(r'.execs)
  {
    match a
    case Begin => CreationKeeps(d, target, r.execs, r'.execs);
    case Move(i, state) => UpdateKeeps(d, target, r.execs, i, state);
    case Complete(i, state) =>
      UpdateKeeps(d, target, r.execs, i, state);
      if r.wf == RUNNING {
        CreationKeeps(d, target, r.execs[i := r.execs[i].(state := state)], r'.execs);
      }
    case Pause =>
    case Resume => CreationKeeps(d, target, r.execs, r'.execs);
    case Finish(_) =>
  }

  /**
   In every run only the target and what it requires is started, each at most
   once, and never before all that it requires itself has succeeded.
   */
  lemma {:induction false} StartsAreSafe(d: Definition, target: Name, tr: Trace)
    requires IsRun(d, target, tr)
    ensures Once(RunOf(tr).execs) && Justified(d, target, RunOf(tr).execs)
    ensures RunOf(tr).wf == RUNNING ==> NothingToStart(d, target, RunOf(tr).execs)
  {
    if tr.Initially? {
    } else {
      StartsAreSafe(d, target, tr.before);
      StepKeepsInv(d, target, RunOf(tr.before), tr.action, tr.run);
    }
  }

  // ---------- progress ----------

  ghost function NeededBy(d: Definition, t: Name): set<Name> {
    set n | n in d.order && Needs(GraphOf(d), n, t)
  }

  lemma NeededShrinks(d: Definition, dep: Name, t: Name)
    requires (dep, t) in GraphOf(d) && !Needs(GraphOf(d), t, dep)
    ensures NeededBy(d, dep) < NeededBy(d, t)
  {
    forall n | n in NeededBy(d, dep)
      ensures n in NeededBy(d, t)
    {
      NeedsEnd(GraphOf(d), n, dep, t);
    }
    NeedsItself(GraphOf(d), t);
    assert t !in NeededBy(d, dep);
  }

  lemma NeedsEnd(g: Graph, a: Name, b: Name, c: Name)
    requires Needs(g, a, b) && (b, c) in g
    ensures Needs(g, a, c)
  {
    var p :| PathTo(g, p, a, b);
    assert PathTo(g, p + [c], a, c);
  }

  ghost predicate Executed(execs: seq<TaskEx>, t: Name) {
    exists e :: e in execs && e.name == t
  }

  /** No task that the target needs lies on a cycle. */
  ghost predicate AcyclicBelow(g: Graph, target: Name) {
    forall a, b :: (a, b) in g && Needs(g, b, target) ==> !Needs(g, b, a)
  }

  /** Below a task not executed yet there is one that can start. */
  lemma SomeTaskCanStart(d: Definition, execs: seq<TaskEx>, t: Name, target: Name) returns (n: Name)
    requires Valid(d) && AcyclicBelow(GraphOf(d), target) && t in d.requirements && Needs(GraphOf(d), t, target)
    requires !Executed(execs, t) && forall e :: e in execs ==> e.state == SUCCESS
    ensures Needs(GraphOf(d), n, target) && Satisfied(d, execs, n)
    decreases NeededBy(d, t)
  {
    if dep :| dep in Requires(d, t) && !Executed(execs, dep) {
      assert DependsOn(d, d.order, dep, t);
      NeededShrinks(d, dep, t);
      NeedsMore(GraphOf(d), dep, t, target);
      n := SomeTaskCanStart(d, execs, dep, target);
    } else {
      n := t;
    }
  }

  /** While all executions have succeeded, either the target has, or there is a task to start. */
  lemma Progress(d: Definition, target: Name, execs: seq<TaskEx>)
    requires Valid(d) && AcyclicBelow(GraphOf(d), target) && target in d.requirements
    requires forall e :: e in execs ==> e.state == SUCCESS
    ensures target in Succeeded(execs) || !NothingToStart(d, target, execs)
  {
    NeedsItself(GraphOf(d), target);
    if target !in Succeeded(execs) {
      var n := SomeTaskCanStart(d, execs, target, target);
    }
  }

  /** A running workflow all of whose executions have succeeded has reached its target. */
  lemma NeverStalls(d: Definition, target: Name, tr: Trace)
    requires Valid(d) && AcyclicBelow(GraphOf(d), target) && target in d.requirements
    requires IsRun(d, target, tr) && RunOf(tr).wf == RUNNING
    requires forall e :: e in RunOf(tr).execs ==> e.state == SUCCESS
    ensures target in Succeeded(RunOf(tr).execs)
  {
    StartsAreSafe(d, target, tr);
    Progress(d, target, RunOf(tr).execs);
  }

  /** Once the target is started, everything it needs has been started once and has succeeded. */
  lemma TargetComesLast(d: Definition, target: Name, tr: Trace, n: Name)
    requires Valid(d) && IsRun(d, target, tr) && Executed(RunOf(tr).execs, target)
    requires Needs(GraphOf(d), n, target) && n != target
    ensures n in Succeeded(RunOf(tr).execs)
  {
    StartsAreSafe(d, target, tr);
    var p :| PathTo(GraphOf(d), p, n, target);
    SucceededAlong(d, target, RunOf(tr).execs, p);
  }

  lemma {:induction false} SucceededAlong(d: Definition, target: Name, execs: seq<TaskEx>, p: seq<Name>)
    requires Justified(d, target, execs) && |p| >= 2 && PathTo(GraphOf(d), p, p[0], p[|p| - 1])
    requires Executed(execs, p[|p| - 1])
    ensures p[0] in Succeeded(execs)
  {
    var k := |p| - 2;
    assert (p[k], p[k + 1]) in GraphOf(d);
    assert p[k] in Requires(d, p[k + 1]) && p[k] in Succeeded(execs);
    if k > 0 {
      SucceededAlong(d, target, execs, p[..k + 1]);
    }
  }

  // ---------- cycles ----------

  /** Every member of the set requires a member of it. */
  ghost predicate NeverFree(d: Definition, doomed: set<Name>) {
    forall n {:trigger n in doomed} :: n in doomed ==> RequiresOneOf(d, n, doomed)
  }

  ghost predicate RequiresOneOf(d: Definition, n: Name, some: set<Name>) {
    exists dep :: dep in Requires(d, n) && dep in some
  }

  ghost predicate NoneExecuted(execs: seq<TaskEx>, some: set<Name>) {
    forall e :: e in execs ==> e.name !in some
  }

  lemma CreationSparesDoomed(d: Definition, target: Name, execs: seq<TaskEx>, execs': seq<TaskEx>, doomed: set<Name>)
    requires NeverFree(d, doomed) && NoneExecuted(execs, doomed) && Created(d, target, execs, execs')
    ensures NoneExecuted(execs', doomed)
  {
    var found :| Found(d, execs, target, found) && execs' == execs + Executions(found);
    forall n | n in doomed
      ensures n !in found
    {
      DoomedIsNotSatisfied(d, execs, n, doomed);
    }
  }

  lemma DoomedIsNotSatisfied(d: Definition, execs: seq<TaskEx>, n: Name, doomed: set<Name>)
    requires NeverFree(d, doomed) && NoneExecuted(execs, doomed) && n in doomed
    ensures !Satisfied(d, execs, n)
  {
    assert RequiresOneOf(d, n, doomed);
    var dep :| dep in Requires(d, n) && dep in doomed;
    assert dep !in Succeeded(execs);
  }

  lemma UpdateSparesDoomed(execs: seq<TaskEx>, i: nat, state: State, doomed: set<Name>)
    requires i < |execs| && NoneExecuted(execs, doomed)
    ensures NoneExecuted(execs[i := execs[i].(state := state)], doomed)
  {
  }

  /** Tasks of which each requires another one are not started in any run. */
  lemma {:induction false} DoomedAreNeverExecuted(d: Definition, target: Name, tr: Trace, doomed: set<Name>)
    requires IsRun(d, target, tr) && NeverFree(d, doomed)
    ensures NoneExecuted(RunOf(tr).execs, doomed)
  {
    if tr.Initially? {
    } else {
      DoomedAreNeverExecuted(d, target, tr.before, doomed);
      var execs := RunOf(tr.before).execs;
      match tr.action
      case Begin => CreationSparesDoomed(d, target, execs, tr.run.execs, doomed);
      case Move(i, state) => UpdateSparesDoomed(execs, i, state, doomed);
      case Complete(i, state) =>
        UpdateSparesDoomed(execs, i, state, doomed);
        if RunOf(tr.before).wf == RUNNING {
          CreationSparesDoomed(d, target, execs[i := execs[i].(state := state)], tr.run.execs, doomed);
        }
      case Resume => CreationSparesDoomed(d, target, execs, tr.run.execs, doomed);
      case _ =>
    }
  }

  ghost function NeedingTask(d: Definition, b: Name): set<Name> {
    set n | n in d.order && Needs(GraphOf(d), b, n)
  }

  /** On a cycle through the edge from a to b, all that need b are doomed. */
  lemma CycleDooms(d: Definition, a: Name, b: Name)
    requires (a, b) in GraphOf(d) && Needs(GraphOf(d), b, a)
    ensures NeverFree(d, NeedingTask(d, b))
  {
    var g := GraphOf(d);
    forall n | n in NeedingTask(d, b)
      ensures RequiresOneOf(d, n, NeedingTask(d, b))
    {
      var p :| PathTo(g, p, b, n);
      if |p| == 1 {
        assert a in Requires(d, b) && a in NeedingTask(d, b);
      } else {
        var k := |p| - 2;
        assert (p[k], p[k + 1]) in g;
        assert PathTo(g, p[..k + 1], b, p[k]);
        assert p[k] in Requires(d, n) && p[k] in NeedingTask(d, b);
      }
    }
  }

  /** A target that needs a task on a cycle is not started in any run. */
  lemma CycleIsNeverPassed(d: Definition, target: Name, tr: Trace)
    requires Valid(d) && target in d.requirements && !AcyclicBelow(GraphOf(d), target) && IsRun(d, target, tr)
    ensures !Executed(RunOf(tr).execs, target)
  {
    var g := GraphOf(d);
    var a, b :| (a, b) in g && Needs(g, b, target) && Needs(g, b, a);
    CycleDooms(d, a, b);
    DoomedAreNeverExecuted(d, target, tr, NeedingTask(d, b));
    assert target in NeedingTask(d, b);
  }

  // ---------- a run in which all goes well ----------

  lemma Listing(some: set<Name>) returns (names: seq<Name>)
    ensures forall n :: n in names <==> n in some
    ensures forall i, j :: 0 <= i < j < |names| ==> names[i] != names[j]
  {
    names := [];
    var left := some;
    while left != {}
      invariant left <= some && forall n :: n in names <==> n in some - left
      invariant forall i, j :: 0 <= i < j < |names| ==> names[i] != names[j]
      decreases left
    {
      var n :| n in left;
      assert n !in names;
      left := left - {n};
      names := names + [n];
      assert forall m :: m in names <==> m == n || m in names[..|names| - 1];
    }
  }

  lemma {:induction false} NeededAreTasks(d: Definition, p: seq<Name>, a: Name, b: Name)
    requires Valid(d) && b in d.requirements && PathTo(GraphOf(d), p, a, b)
    ensures a in d.order
  {
    if |p| == 1 {
    } else {
      assert (p[0], p[1]) in GraphOf(d);
    }
  }

  lemma CreationIsPossible(d: Definition, target: Name, execs: seq<TaskEx>) returns (execs': seq<TaskEx>)
    requires Valid(d) && target in d.requirements
    ensures Created(d, target, execs, execs')
  {
    var some := set n | n in d.order && Needs(GraphOf(d), n, target) && Satisfied(d, execs, n);
    var found := Listing(some);
    forall n | Needs(GraphOf(d), n, target)
      ensures n in d.order
    {
      var p :| PathTo(GraphOf(d), p, n, target);
      NeededAreTasks(d, p, n, target);
    }
    assert Found(d, execs, target, found);
    execs' := execs + Executions(found);
  }

  ghost function Unexecuted(d: Definition, execs: seq<TaskEx>): set<Name> {
    set n | n in d.order && !Executed(execs, n)
  }

  function Incomplete(execs: seq<TaskEx>): set<nat> {
    set i | 0 <= i < |execs| && !IsCompleted(execs[i].state)
  }

  ghost predicate OnlySuccess(execs: seq<TaskEx>) {
    forall e :: e in execs ==> e.state == SUCCESS || !IsCompleted(e.state)
  }

  /** Creating executions leaves fewer tasks without one, unless none is created. */
  lemma CreationShrinks(d: Definition, target: Name, execs: seq<TaskEx>, execs': seq<TaskEx>)
    requires Valid(d) && target in d.requirements && Created(d, target, execs, execs') && OnlySuccess(execs)
    ensures OnlySuccess(execs') && (execs' == execs || Unexecuted(d, execs') < Unexecuted(d, execs))
  {
    var found :| Found(d, execs, target, found) && execs' == execs + Executions(found);
    assert forall e :: e in execs ==> e in execs';
    if found == [] {
      assert execs' == execs;
    } else {
      var n := found[0];
      assert n in found;
      var p :| PathTo(GraphOf(d), p, n, target);
      NeededAreTasks(d, p, n, target);
      assert execs'[|execs|].name == n;
      assert n in Unexecuted(d, execs) && n !in Unexecuted(d, execs');
    }
  }

  lemma CompletionShrinks(d: Definition, execs: seq<TaskEx>, i: nat)
    requires i in Incomplete(execs) && OnlySuccess(execs)
    ensures var execs' := execs[i := execs[i].(state := SUCCESS)];
            && OnlySuccess(execs') && Incomplete(execs') == Incomplete(execs) - {i}
            && Unexecuted(d, execs') <= Unexecuted(d, execs)
  {
    var execs' := execs[i := execs[i].(state := SUCCESS)];
    forall n | Executed(execs, n)
      ensures Executed(execs', n)
    {
      var k :| 0 <= k < |execs| && execs[k].name == n;
      assert execs'[k] in execs' && execs'[k].name == n;
    }
  }

  /**
   From a running workflow without failures, completing all with success leads to
   a state where nothing is left to do.
   */
  lemma {:induction false} AllSucceed(d: Definition, target: Name, tr: Trace) returns (tr': Trace)
    requires Valid(d) && target in d.requirements && IsRun(d, target, tr)
    requires RunOf(tr).wf == RUNNING && OnlySuccess(RunOf(tr).execs)
    ensures IsRun(d, target, tr') && RunOf(tr').wf == RUNNING
    ensures forall e :: e in RunOf(tr').execs ==> e.state == SUCCESS
    decreases Unexecuted(d, RunOf(tr).execs), Incomplete(RunOf(tr).execs)
  {
    var execs := RunOf(tr).execs;
    if Incomplete(execs) == {} {
      forall e | e in execs
        ensures e.state == SUCCESS
      {
        var k :| 0 <= k < |execs| && execs[k] == e;
        assert k !in Incomplete(execs);
      }
      tr' := tr;
    } else {
      var i :| i in Incomplete(execs);
      var done := execs[i := execs[i].(state := SUCCESS)];
      CompletionShrinks(d, execs, i);
      var execs' := CreationIsPossible(d, target, done);
      CreationShrinks(d, target, done, execs');
      tr' := AllSucceed(d, target, Then(tr, Complete(i, SUCCESS), Run(RUNNING, execs')));
    }
  }

  lemma SomeRunSucceeds(d: Definition, target: Name) returns (tr: Trace)
    requires Valid(d) && target in d.requirements
    ensures IsRun(d, target, tr) && RunOf(tr).wf == RUNNING
    ensures forall e :: e in RunOf(tr).execs ==> e.state == SUCCESS
  {
    var execs := CreationIsPossible(d, target, []);
    CreationShrinks(d, target, [], execs);
    tr := AllSucceed(d, target, Then(Initially, Begin, Run(RUNNING, execs)));
  }

  ghost predicate AllSuccess(execs: seq<TaskEx>) {
    forall e :: e in execs ==> e.state == SUCCESS
  }

  /** A running workflow whose executions have all succeeded has reached its target. */
  ghost predicate NoRunStalls(d: Definition, target: Name) {
    forall tr :: IsRun(d, target, tr) && RunOf(tr).wf == RUNNING && AllSuccess(RunOf(tr).execs) ==>
      target in Succeeded(RunOf(tr).execs)
  }

  ghost predicate SomeRunStarts(d: Definition, target: Name) {
    exists tr :: IsRun(d, target, tr) && Executed(RunOf(tr).execs, target)
  }

  /** No run stalls, and some run gets to start the target, exactly if what the target needs has no cycle. */
  lemma StallsExactly(d: Definition, target: Name)
    requires Valid(d) && target in d.requirements
    ensures NoRunStalls(d, target) <==> AcyclicBelow(GraphOf(d), target)
    ensures SomeRunStarts(d, target) <==> AcyclicBelow(GraphOf(d), target)
  {
    var good := SomeRunSucceeds(d, target);
    if AcyclicBelow(GraphOf(d), target) {
      forall tr | IsRun(d, target, tr) && RunOf(tr).wf == RUNNING && AllSuccess(RunOf(tr).execs)
        ensures target in Succeeded(RunOf(tr).execs)
      {
        NeverStalls(d, target, tr);
      }
      assert target in Succeeded(RunOf(good).execs);
    } else {
      forall tr | IsRun(d, target, tr)
        ensures !Executed(RunOf(tr).execs, target)
      {
        CycleIsNeverPassed(d, target, tr);
      }
      assert target !in Succeeded(RunOf(good).execs);
    }
  }

  // ---------- default requirements ----------

  /** A default task that itself requires something is required by what it requires. */
  lemma DefaultClosesCycle(d: Definition, a: Name)
    requires Valid(d) && a in d.defaults && Requires(d, a) != {}
    ensures !Acyclic(GraphOf(d)) && NeverFree(d, d.requirements.Keys)
  {
    var b :| b in Requires(d, a);
    var g := GraphOf(d);
    assert a in Requires(d, b);
    assert DependsOn(d, d.order, b, a) && DependsOn(d, d.order, a, b);
    NeedsItself(g, a);
    NeedsMore(g, b, a, a);
    assert (a, b) in g && Needs(g, b, a);
    forall n | n in d.requirements
      ensures RequiresOneOf(d, n, d.requirements.Keys)
    {
      assert n != a ==> a in Requires(d, n);
    }
  }

  /** If a default task requires something, no run starts any task. */
  lemma DefaultRequirementStalls(d: Definition, a: Name, target: Name, tr: Trace)
    requires Valid(d) && a in d.defaults && Requires(d, a) != {}
    requires target in d.requirements && IsRun(d, target, tr)
    ensures RunOf(tr).execs == []
  {
    DefaultClosesCycle(d, a);
    DoomedAreNeverExecuted(d, target, tr, d.requirements.Keys);
    StartsAreSafe(d, target, tr);
    var execs := RunOf(tr).execs;
    if execs != [] {
      assert execs[0] in execs;
      var p :| PathTo(GraphOf(d), p, execs[0].name, target);
      NeededAreTasks(d, p, execs[0].name, target);
    }
  }

  /** The definition without its defaults. */
  function OwnOnly(d: Definition): Definition {
    d.(defaults := {})
  }

  ghost predicate DefaultsAreFree(d: Definition) {
    forall a :: a in d.defaults ==> Requires(d, a) == {}
  }

  lemma OwnEdge(d: Definition, a: Name, b: Name)
    ensures (a, b) in GraphOf(OwnOnly(d)) ==> (a, b) in GraphOf(d)
    ensures (a, b) in GraphOf(d) && a !in d.defaults ==> (a, b) in GraphOf(OwnOnly(d))
  {
    assert DependsOn(OwnOnly(d), d.order, a, b) ==> DependsOn(d, d.order, a, b);
  }

  lemma OwnNeeds(d: Definition, a: Name, b: Name)
    ensures Needs(GraphOf(OwnOnly(d)), a, b) ==> Needs(GraphOf(d), a, b)
  {
    if Needs(GraphOf(OwnOnly(d)), a, b) {
      var p :| PathTo(GraphOf(OwnOnly(d)), p, a, b);
      forall i | 0 <= i < |p| - 1
        ensures (p[i], p[i + 1]) in GraphOf(d)
      {
        OwnEdge(d, p[i], p[i + 1]);
      }
      assert PathTo(GraphOf(d), p, a, b);
    }
  }

  /**
   The requirements have no cycle exactly if those without the defaults have none
   and no default task requires anything.
   */
  lemma DefaultsStayAcyclicExactly(d: Definition)
    requires Valid(d)
    ensures Acyclic(GraphOf(d)) <==> Acyclic(GraphOf(OwnOnly(d))) && DefaultsAreFree(d)
  {
    var g, own := GraphOf(d), GraphOf(OwnOnly(d));
    if Acyclic(g) {
      if a :| a in d.defaults && Requires(d, a) != {} {
        DefaultClosesCycle(d, a);
      }
      forall a, b | (a, b) in own
        ensures !Needs(own, b, a)
      {
        OwnEdge(d, a, b);
        OwnNeeds(d, b, a);
      }
    } else if DefaultsAreFree(d) {
      var a, b :| (a, b) in g && Needs(g, b, a);
      var p :| PathTo(g, p, b, a);
      CycleAvoidsDefaults(d, a, b, p);
    }
  }

  /** Tasks on a cycle require something, so none of them is a default task. */
  lemma CycleAvoidsDefaults(d: Definition, a: Name, b: Name, p: seq<Name>)
    requires DefaultsAreFree(d) && (a, b) in GraphOf(d) && PathTo(GraphOf(d), p, b, a)
    ensures (a, b) in GraphOf(OwnOnly(d)) && PathTo(GraphOf(OwnOnly(d)), p, b, a)
  {
    forall i | 0 <= i < |p|
      ensures p[i] !in d.defaults
    {
      if i == 0 {
        assert a in Requires(d, p[0]);
      } else {
        assert (p[i - 1], p[i]) in GraphOf(d);
        assert p[i - 1] in Requires(d, p[i]);
      }
    }
    OwnEdge(d, a, b);
    forall i | 0 <= i < |p| - 1
      ensures (p[i], p[i + 1]) in GraphOf(OwnOnly(d))
    {
      OwnEdge(d, p[i], p[i + 1]);
    }
  }
}
