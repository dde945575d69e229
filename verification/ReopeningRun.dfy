/** A run in which a verdict is taken back: the second of two tasks before a "join: one" ends after the join did. */
module ReopeningRun {
  import opened States
  import opened WorkflowSpec
  import opened JoinLogic
  import opened AffectedJoins
  import opened DirectRun
  import opened DirectTheorems
  import opened Policies
  import opened Reopening

  const NO_POLICY := Decision(false, false, false)

  /** On success t leads to n alone. */
  predicate LeadsTo(s: Spec, t: Name, n: Name) {
    t in s.tasks && s.tasks[t].onSuccess == [Transition(n, false)] && s.tasks[t].onComplete == []
  }

  /** The start tasks a and b lead to j, which joins one of its predecessors and leads to k, which waits for j alone. */
  predicate Diamond(s: Spec, a: Name, b: Name, j: Name, k: Name) {
    && a != b && a in StartTasks(s) && b in StartTasks(s) && LeadsTo(s, a, j) && LeadsTo(s, b, j) && LeadsTo(s, j, k)
    && IsJoin(s, j) && s.tasks[j].join == Count(1) && IsJoin(s, k) && s.tasks[k].join == All && Inbound(s, k) == [j]
  }

  lemma OneEntry(n: Name, event: Event)
    ensures Chosen([Transition(n, false)], event, {}) == [NextTask(n, event)]
  {
    assert [Transition(n, false)][1..] == [];
  }

  lemma OneTask(cmd: NextTask)
    requires cmd.name !in ENGINE_COMMANDS
    ensures TaskEntries([cmd]) == [cmd] && Launched([cmd]) == {cmd.name} && StateAfter([cmd], RUNNING) == RUNNING
  {
    assert [cmd][..0] == [] && [cmd][1..] == [];
  }

  lemma OneCommand(s: Spec, t: Name, n: Name)
    requires LeadsTo(s, t, n) && n in s.tasks && n !in ENGINE_COMMANDS
    ensures var cmds := Commands(s, RUNNING, t, SUCCESS, {});
            && cmds == [NextTask(n, OnSuccess)] && TaskEntries(cmds) == cmds && Launched(cmds) == {n}
            && StateAfter(cmds, RUNNING) == RUNNING
  {
    OneEntry(n, OnSuccess);
    assert Chosen([], OnComplete, {}) == [];
    OneTask(NextTask(n, OnSuccess));
  }

  /** What completing t, which leads to the join n, does to the executions. */
  ghost predicate Succeeded(s: Spec, r: Run, t: Name, n: Name, r': Run)
    requires t in r.execs
  {
    && r'.wf == RUNNING && n in r'.refresh
    && var ex := TaskEx(SUCCESS, [NextTask(n, OnSuccess)], true, r.execs[t].errorHandled);
       r'.execs == LaunchAll(s, r.execs[t := ex], {n})
  }

  lemma SaneSuccess(s: Spec, db: Table, n: Name)
    requires IsJoin(s, n) && n !in ENGINE_COMMANDS
    ensures Sane(s, db, [NextTask(n, OnSuccess)])
  {
    assert [NextTask(n, OnSuccess)][1..] == [];
  }

  lemma FinishOne(s: Spec, r: Run, t: Name, n: Name)
    requires Valid(s) && r.wf == RUNNING && t in r.execs && LeadsTo(s, t, n) && IsJoin(s, n) && t != n
    ensures Succeeded(s, r, t, n, FinishTask(s, r, t, SUCCESS, {}))
  {
    OneCommand(s, t, n);
    var cmds := Commands(s, RUNNING, t, SUCCESS, {});
    var db := LaunchAll(s, r.execs[t := CompletedEx(r.execs[t], SUCCESS, cmds)], {n});
    assert Transition(n, false) in s.tasks[t].onSuccess;
    OpenStep(s, db.Keys, t, n);
  }

  lemma NoPolicy(s: Spec, r: Run, t: Name, st: State)
    requires t in s.tasks && t in r.execs && IsCompleted(st)
    ensures StateAfterPolicies(NO_POLICY, IsJoin(s, t), st) == st
    ensures CompleteTask(s, r, t, st, NO_POLICY, {}) == FinishTask(s, r, t, st, {})
  {
  }

  lemma SuccessStep(s: Spec, r: Run, t: Name, n: Name)
    requires Valid(s) && Acyclic(s) && r.wf == RUNNING && t in r.execs && !IsCompleted(r.execs[t].state)
    requires LeadsTo(s, t, n) && IsJoin(s, n) && t != n
    ensures var a := Complete(t, SUCCESS, NO_POLICY, {});
            Enabled(s, r, a) && Succeeded(s, r, t, n, Apply(s, r, a)) && LaunchedBy(s, r, a) == {n}
  {
    OneCommand(s, t, n);
    SaneSuccess(s, r.execs, n);
    FinishOne(s, r, t, n);
    NoPolicy(s, r, t, SUCCESS);
  }

  /** Once a has triggered j, j may run. */
  lemma OneIsEnough(s: Spec, db: Table, a: Name, j: Name)
    requires Valid(s) && Acyclic(s) && LeadsTo(s, a, j) && IsJoin(s, j) && s.tasks[j].join == Count(1)
    requires a in db && db[a].state == SUCCESS && db[a].next == [NextTask(j, OnSuccess)]
    ensures Verdict(s, db, j) == RUNNING
  {
    TriggersJoin(s, db, a, j);
    VerdictMeans(s, db, j);
    assert Triggering(s, db, j) != {};
  }

  /** A join that may run does so at its next refresh. */
  lemma RefreshRuns(s: Spec, r: Run, j: Name)
    requires Valid(s) && Acyclic(s) && r.wf == RUNNING && IsJoin(s, j)
    requires j in r.refresh && j in r.execs && r.execs[j].state == WAITING && Verdict(s, r.execs, j) == RUNNING
    ensures var refresh := Refresh(j, NO_POLICY, {});
            && Enabled(s, r, refresh)
            && Apply(s, r, refresh) == RefreshTask(s, r, j, RUNNING, NO_POLICY, {})
  {
  }

  lemma RefreshedRuns(s: Spec, r: Run, j: Name)
    requires IsJoin(s, j) && j in r.execs && RefreshActs(r, j)
    ensures var r' := RefreshTask(s, r, j, RUNNING, NO_POLICY, {});
            r'.wf == r.wf && r'.execs == r.execs[j := r.execs[j].(state := RUNNING)]
  {
  }

  lemma TriggersJoin(s: Spec, db: Table, a: Name, j: Name)
    requires Valid(s) && LeadsTo(s, a, j) && j in s.tasks
    requires a in db && db[a].state == SUCCESS && db[a].next == [NextTask(j, OnSuccess)]
    ensures a in Inbound(s, j) && a in Triggering(s, db, j)
  {
    assert Transition(j, false) in s.tasks[a].onSuccess;
    InboundIsEdge(s, a, j);
    assert NextTask(j, OnSuccess) in db[a].next;
  }

  lemma AllRuns(s: Spec, db: Table, j: Name, k: Name)
    requires Valid(s) && Acyclic(s) && LeadsTo(s, j, k) && IsJoin(s, k)
    requires s.tasks[k].join == All && Inbound(s, k) == [j]
    requires j in db && db[j].state == SUCCESS && db[j].next == [NextTask(k, OnSuccess)]
    ensures Verdict(s, db, k) == RUNNING && j in Triggering(s, db, k)
  {
    TriggersJoin(s, db, j, k);
    VerdictMeans(s, db, k);
  }

  lemma DiamondIsAcyclic(s: Spec, a: Name, b: Name, j: Name, k: Name)
    requires Valid(s) && Acyclic(s) && Diamond(s, a, b, j, k)
    ensures a != j && b != j && j != k && a != k && b != k
  {
    assert Transition(j, false) in s.tasks[a].onSuccess && Transition(j, false) in s.tasks[b].onSuccess;
    assert Transition(k, false) in s.tasks[j].onSuccess;
    InboundIsEdge(s, a, j);
    InboundIsEdge(s, b, j);
    InboundIsEdge(s, j, k);
    EdgeReaches(s, j, k);
  }

  lemma OneMore(s: Spec, tr: Trace, r: Run, a: Action)
    requires Valid(s) && Acyclic(s) && After(s, tr) == State(r) && Enabled(s, r, a)
    ensures After(s, Then(tr, a)) == State(Apply(s, r, a))
  {
  }

  ghost predicate Triggered(db: Table, a: Name, j: Name) {
    a in db && db[a].state == SUCCESS && db[a].next == [NextTask(j, OnSuccess)]
  }

  ghost predicate Unfinished(db: Table, t: Name) {
    t in db && !IsCompleted(db[t].state)
  }

  lemma StartHas(s: Spec, t: Name)
    requires t in StartTasks(s)
    ensures Unfinished(StartTable(s), t)
  {
    assert StartTable(s)[t] == NEW_TASK;
  }

  lemma StartStep(s: Spec, a: Name, b: Name) returns (tr: Trace, r: Run)
    requires Valid(s) && Acyclic(s) && a in StartTasks(s) && b in StartTasks(s)
    ensures After(s, tr) == State(r) && r.wf == RUNNING && Unfinished(r.execs, a) && Unfinished(r.execs, b)
  {
    tr, r := Then(Begin, Start), Run(StartTable(s), RUNNING, {}, false);
    assert After(s, Begin) == State(INIT);
    OneMore(s, Begin, INIT, Start);
    StartHas(s, a);
    StartHas(s, b);
  }

  lemma SucceededMeans(s: Spec, r: Run, t: Name, n: Name, r': Run)
    requires t in r.execs && t != n && IsJoin(s, n) && Succeeded(s, r, t, n, r')
    ensures Triggered(r'.execs, t, n) && n in r'.execs && r'.execs[n].state == WAITING
    ensures forall x :: x in r.execs && x != t && x != n ==> x in r'.execs && r'.execs[x] == r.execs[x]
  {
  }

  /** Everything but t and n is as before. */
  ghost predicate OthersStay(db: Table, db': Table, t: Name, n: Name) {
    forall x :: x in db && x != t && x != n ==> x in db' && db'[x] == db[x]
  }

  lemma Succeed(s: Spec, tr: Trace, r: Run, t: Name, n: Name) returns (tr': Trace, r': Run)
    requires Valid(s) && Acyclic(s) && After(s, tr) == State(r) && r.wf == RUNNING && Unfinished(r.execs, t)
    requires LeadsTo(s, t, n) && IsJoin(s, n) && t != n
    ensures After(s, tr') == State(r') && r'.wf == RUNNING && Triggered(r'.execs, t, n)
    ensures n in r'.refresh && n in r'.execs && r'.execs[n].state == WAITING && OthersStay(r.execs, r'.execs, t, n)
  {
    var a := Complete(t, SUCCESS, NO_POLICY, {});
    SuccessStep(s, r, t, n);
    OneMore(s, tr, r, a);
    tr', r' := Then(tr, a), Apply(s, r, a);
    SucceededMeans(s, r, t, n, r');
  }

  lemma Join(s: Spec, tr: Trace, r: Run, j: Name) returns (tr': Trace, r': Run)
    requires Valid(s) && Acyclic(s) && After(s, tr) == State(r) && r.wf == RUNNING && IsJoin(s, j)
    requires j in r.refresh && j in r.execs && r.execs[j].state == WAITING && Verdict(s, r.execs, j) == RUNNING
    ensures After(s, tr') == State(r') && r'.wf == RUNNING && Unfinished(r'.execs, j)
    ensures OthersStay(r.execs, r'.execs, j, j)
  {
    var a := Refresh(j, NO_POLICY, {});
    RefreshRuns(s, r, j);
    RefreshedRuns(s, r, j);
    OneMore(s, tr, r, a);
    tr', r' := Then(tr, a), Apply(s, r, a);
  }

  /** Up to the state in which a has triggered j. */
  lemma FirstEnds(s: Spec, a: Name, b: Name, j: Name, k: Name) returns (tr: Trace, r: Run)
    requires Valid(s) && Acyclic(s) && Diamond(s, a, b, j, k)
    ensures After(s, tr) == State(r) && r.wf == RUNNING && Unfinished(r.execs, b) && Verdict(s, r.execs, j) == RUNNING
    ensures j in r.refresh && j in r.execs && r.execs[j].state == WAITING
  {
    DiamondIsAcyclic(s, a, b, j, k);
    var tr0, r0 := StartStep(s, a, b);
    tr, r := Succeed(s, tr0, r0, a, j);
    OneIsEnough(s, r.execs, a, j);
  }

  /** Up to the state in which j has ended and k may run. */
  lemma JoinEnds(s: Spec, a: Name, b: Name, j: Name, k: Name) returns (tr: Trace, r: Run)
    requires Valid(s) && Acyclic(s) && Diamond(s, a, b, j, k)
    ensures After(s, tr) == State(r) && r.wf == RUNNING && Unfinished(r.execs, b)
    ensures Verdict(s, r.execs, k) == RUNNING && j in Triggering(s, r.execs, k)
  {
    DiamondIsAcyclic(s, a, b, j, k);
    var tr1, r1 := FirstEnds(s, a, b, j, k);
    var tr2, r2 := Join(s, tr1, r1, j);
    tr, r := Succeed(s, tr2, r2, j, k);
    AllRuns(s, r.execs, j, k);
  }

  /**
   Whenever two start tasks lead to a "join: one", which leads to a "join: all"
   of it alone, there is a run in which the latter may run, until the second
   start task ends and puts the former, which had ended, back to waiting.
   */
  lemma VerdictIsRevoked(s: Spec, a: Name, b: Name, j: Name, k: Name) returns (tr: Trace, r: Run, step: Action)
    requires Valid(s) && Acyclic(s) && Diamond(s, a, b, j, k)
    ensures After(s, tr) == State(r) && Enabled(s, r, step) && After(s, Then(tr, step)) == State(Apply(s, r, step))
    ensures Verdict(s, r.execs, k) == RUNNING && Verdict(s, Apply(s, r, step).execs, k) != RUNNING
  {
    DiamondIsAcyclic(s, a, b, j, k);
    tr, r := JoinEnds(s, a, b, j, k);
    step := Complete(b, SUCCESS, NO_POLICY, {});
    SuccessStep(s, r, b, j);
    ReopeningRevokes(s, r, step, j, k);
    OneMore(s, tr, r, step);
  }

  // ---------- there is such a definition ----------

  function To(join: Join, n: Name): TaskSpec {
    TaskSpec(join, [], [], [Transition(n, false)], [])
  }

  const SPEC := Spec(["a", "b", "j", "k"],
                     map["a" := To(NoJoin, "j"), "b" := To(NoJoin, "j"), "j" := To(Count(1), "k"),
                         "k" := TaskSpec(All, [], [], [], [])])

  function Level(t: Name): nat {
    if t in {"a", "b"} then 0 else if t == "j" then 1 else 2
  }

  lemma OutboundOf(t: Name)
    requires t in SPEC.tasks
    ensures Outbound(SPEC, t) == if t == "k" then {} else if t == "j" then {"k"} else {"j"}
  {
    assert Targets([]) == {};
    forall n: Name
      ensures Targets([Transition(n, false)]) == {n}
    {
      assert Transition(n, false) in [Transition(n, false)];
    }
  }

  lemma {:induction false} PathsClimb(p: seq<Name>)
    requires Path(SPEC, p) && |p| >= 2
    ensures Level(p[0]) < Level(p[|p| - 1])
  {
    var k := |p| - 2;
    assert Edge(SPEC, p[k], p[k + 1]);
    OutboundOf(p[k]);
    if k == 0 {
    } else {
      PathsClimb(p[..k + 1]);
    }
  }

  lemma SpecIsAcyclic()
    ensures Acyclic(SPEC)
  {
    forall x
      ensures !Reaches(SPEC, x, x)
    {
      if p :| PathFromTo(SPEC, p, x, x) {
        PathsClimb(p);
      }
    }
  }

  lemma SpecIsListed()
    ensures forall n :: n in SPEC.order <==> n in SPEC.tasks
    ensures forall i, j :: 0 <= i < j < |SPEC.order| ==> SPEC.order[i] != SPEC.order[j]
    ensures SPEC.tasks.Keys !! ENGINE_COMMANDS
  {
    assert SPEC.tasks.Keys == {"a", "b", "j", "k"};
  }

  lemma SpecIsValid()
    ensures Valid(SPEC)
  {
    SpecIsListed();
    forall t, n | t in SPEC.tasks && n in Outbound(SPEC, t)
      ensures n in SPEC.tasks
    {
      OutboundOf(t);
    }
  }

  lemma InboundStep(s: Spec, n: Name, rest: seq<Name>, t: Name)
    ensures InboundAmong(s, [n] + rest, t) ==
            (if t in Outbound(s, n) then [n] else []) + InboundAmong(s, rest, t)
  {
    assert ([n] + rest)[1..] == rest;
  }

  lemma InboundOfTwo(s: Spec, a: Name, b: Name, rest: seq<Name>, t: Name)
    ensures InboundAmong(s, [a, b] + rest, t) ==
            (if t in Outbound(s, a) then [a] else []) +
            ((if t in Outbound(s, b) then [b] else []) + InboundAmong(s, rest, t))
  {
    assert [a, b] + rest == [a] + ([b] + rest);
    InboundStep(s, a, [b] + rest, t);
    InboundStep(s, b, rest, t);
  }

  lemma InboundOfFour(s: Spec, a: Name, b: Name, j: Name, k: Name, t: Name)
    requires s.order == [a, b, j, k] && t !in Outbound(s, k) && (t in Outbound(s, a) <==> t in Outbound(s, b))
    ensures Inbound(s, t) == (if t in Outbound(s, a) then [a, b] else []) + if t in Outbound(s, j) then [j] else []
  {
    assert s.order == [a, b] + [j, k] && [j, k] == [j, k] + [];
    InboundOfTwo(s, a, b, [j, k], t);
    InboundOfTwo(s, j, k, [], t);
  }

  lemma InboundTo(t: Name)
    requires t in SPEC.tasks
    ensures Inbound(SPEC, t) == if t == "k" then ["j"] else if t == "j" then ["a", "b"] else []
  {
    OutboundOf("a");
    OutboundOf("b");
    OutboundOf("j");
    OutboundOf("k");
    InboundOfFour(SPEC, "a", "b", "j", "k", t);
  }

  lemma SpecLeads()
    ensures LeadsTo(SPEC, "a", "j") && LeadsTo(SPEC, "b", "j") && LeadsTo(SPEC, "j", "k")
    ensures IsJoin(SPEC, "j") && SPEC.tasks["j"].join == Count(1) && IsJoin(SPEC, "k") && SPEC.tasks["k"].join == All
  {
  }

  /** There is such a definition. */
  lemma DiamondExists()
    ensures Valid(SPEC) && Acyclic(SPEC) && Diamond(SPEC, "a", "b", "j", "k")
  {
    SpecIsValid();
    SpecIsAcyclic();
    SpecLeads();
    SpecStarts();
  }

  lemma SpecStarts()
    ensures "a" in StartTasks(SPEC) && "b" in StartTasks(SPEC) && Inbound(SPEC, "k") == ["j"]
  {
    InboundTo("a");
    InboundTo("b");
    InboundTo("k");
  }
}
