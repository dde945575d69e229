/**
 The logical state of a join: what the join should do given the executions
 of the tasks before it.  Everything here looks executions up directly;
 RouteCache.dfy shows that the cached search of the engine computes the same.
 */
module JoinLogic {
  import opened States
  import opened WorkflowSpec

  datatype NextTask = NextTask(name: Name, event: Event)

  /** A stored task execution; `next` is what it triggered when it completed. */
  datatype TaskEx = TaskEx(state: State, next: seq<NextTask>, hasNext: bool, errorHandled: bool)

  /** At most one execution per task name. */
  type Table = map<Name, TaskEx>

  function NextNames(ex: TaskEx): set<Name> {
    set n | n in ex.next :: n.name
  }

  /** The execution of `a` may still trigger, or has triggered, task t. */
  predicate MayTrigger(ex: TaskEx, t: Name) {
    !IsCompleted(ex.state) || t in NextNames(ex)
  }

  // ---------- is there a possible route to a task without execution? ----------

  /** The search as the engine runs it: a flag and a depth that is threaded through the whole search. */
  function PossibleRoute(s: Spec, db: Table, t: Name, depth: nat): (r: (bool, nat))
    requires Valid(s) && Acyclic(s) && t in s.tasks
    ensures r.0 <==> Possible(s, db, t)
    decreases Upstream(s, t), |s.order| + 1
  {
    var ins := Inbound(s, t);
    if ins == [] then (true, depth) else RouteThrough(s, db, t, ins, depth)
  }

  function RouteThrough(s: Spec, db: Table, t: Name, ins: seq<Name>, depth: nat): (r: (bool, nat))
    requires Valid(s) && Acyclic(s) && t in s.tasks
    requires forall a :: a in ins ==> Edge(s, a, t)
    ensures r.0 <==> exists a :: a in ins && OpenVia(s, db, a, t)
    decreases Upstream(s, t), |ins|
  {
    if ins == [] then (false, depth) else
      var a := ins[0];
      assert Edge(s, a, t);
      EdgeReaches(s, a, t);
      UpstreamShrinks(s, a, t);
      assert forall x :: x in ins <==> x == a || x in ins[1..];
      if a !in db then
        var found := PossibleRoute(s, db, a, depth + 1);
        if found.0 then (true, found.1) else RouteThrough(s, db, t, ins[1..], found.1)
      else if MayTrigger(db[a], t) then (true, depth)
      else RouteThrough(s, db, t, ins[1..], depth)
  }

  /** The same question without order, depth or search: can t still come to run? */
  ghost predicate Possible(s: Spec, db: Table, t: Name)
    requires Valid(s) && Acyclic(s) && t in s.tasks
    decreases Upstream(s, t), 1
  {
    Inbound(s, t) == [] || exists a :: Edge(s, a, t) && OpenVia(s, db, a, t)
  }

  ghost predicate OpenVia(s: Spec, db: Table, a: Name, t: Name)
    requires Valid(s) && Acyclic(s) && Edge(s, a, t)
    decreases Upstream(s, t), 0
  {
    if a in db then MayTrigger(db[a], t)
    else
      EdgeReaches(s, a, t);
      UpstreamShrinks(s, a, t);
      Possible(s, db, a)
  }

  /** x can be entered right now: it starts the workflow, or an existing execution may trigger it. */
  ghost predicate Enterable(s: Spec, db: Table, x: Name) {
    Inbound(s, x) == [] || exists y :: Edge(s, y, x) && y in db && MayTrigger(db[y], x)
  }

  /** A chain of tasks without executions that leads from an enterable task to t. */
  ghost predicate Chain(s: Spec, db: Table, p: seq<Name>, t: Name) {
    && Path(s, p)
    && p[|p| - 1] == t
    && (forall i :: 0 <= i < |p| - 1 ==> p[i] !in db)
    && Enterable(s, db, p[0])
  }

  lemma {:induction false} PossibleGivesChain(s: Spec, db: Table, t: Name) returns (p: seq<Name>)
    requires Valid(s) && Acyclic(s) && t in s.tasks && Possible(s, db, t)
    ensures Chain(s, db, p, t)
    decreases Upstream(s, t)
  {
    if Enterable(s, db, t) {
      p := [t];
    } else {
      var a :| Edge(s, a, t) && OpenVia(s, db, a, t);
      EdgeReaches(s, a, t);
      UpstreamShrinks(s, a, t);
      var q := PossibleGivesChain(s, db, a);
      ChainExtends(s, db, q, a, t);
      p := q + [t];
    }
  }

  lemma ChainExtends(s: Spec, db: Table, q: seq<Name>, a: Name, t: Name)
    requires Chain(s, db, q, a) && Edge(s, a, t) && a !in db
    ensures Chain(s, db, q + [t], t)
  {
    var p := q + [t];
    forall i | 0 <= i < |p| - 1
      ensures Edge(s, p[i], p[i + 1]) && p[i] !in db
    {
      assert i < |q| - 1 ==> p[i] == q[i] && p[i + 1] == q[i + 1];
    }
  }

  lemma {:induction false} ChainGivesPossible(s: Spec, db: Table, p: seq<Name>, t: Name)
    requires Valid(s) && Acyclic(s) && t in s.tasks && Chain(s, db, p, t)
    ensures Possible(s, db, t)
    decreases |p|
  {
    if |p| == 1 {
      if y :| Edge(s, y, t) && y in db && MayTrigger(db[y], t) {
        assert OpenVia(s, db, y, t);
      }
    } else {
      var q, a := p[..|p| - 1], p[|p| - 2];
      assert Edge(s, p[|p| - 2], p[|p| - 1]);
      assert Path(s, q) by {
        forall i | 0 <= i < |q| - 1
          ensures Edge(s, q[i], q[i + 1])
        {
          assert Edge(s, p[i], p[i + 1]);
        }
      }
      ChainGivesPossible(s, db, q, a);
      assert OpenVia(s, db, a, t);
    }
  }

  /**
   The route search says "possible" exactly when some chain of not yet existing
   tasks links a start task, or a live or triggering execution, to t.
   */
  lemma PossibleRouteIsChain(s: Spec, db: Table, t: Name, depth: nat)
    requires Valid(s) && Acyclic(s) && t in s.tasks
    ensures PossibleRoute(s, db, t, depth).0 <==> exists p :: Chain(s, db, p, t)
  {
    if Possible(s, db, t) {
      var p := PossibleGivesChain(s, db, t);
    }
    if p :| Chain(s, db, p, t) {
      ChainGivesPossible(s, db, p, t);
    }
  }

  // ---------- the state one inbound task induces ----------

  datatype Cause = NoEvent | ImpossibleRoute | NotTriggered | Fired(event: Event)

  datatype Induced = Induced(state: State, depth: nat, cause: Cause)

  /** A later entry for the same name overwrites an earlier one. */
  function EventFor(next: seq<NextTask>, t: Name): (e: Event)
    requires exists n :: n in next && n.name == t
    ensures NextTask(t, e) in next
  {
    var last := next[|next| - 1];
    if last.name == t then last.event else EventFor(next[..|next| - 1], t)
  }

  function InducedState(s: Spec, db: Table, a: Name, j: Name): (r: Induced)
    requires Valid(s) && Acyclic(s) && a in s.tasks
    ensures r.state in {WAITING, RUNNING, ERROR}
  {
    if a !in db then
      var route := PossibleRoute(s, db, a, 1);
      if route.0 then Induced(WAITING, route.1, NoEvent) else Induced(ERROR, route.1, ImpossibleRoute)
    else if !IsCompleted(db[a].state) then Induced(WAITING, 1, NoEvent)
    else if j !in NextNames(db[a]) then Induced(ERROR, 1, NotTriggered)
    else Induced(RUNNING, 1, Fired(EventFor(db[a].next, j)))
  }

  /** The induced states of all inbound tasks of j, in definition order. */
  function InducedStates(s: Spec, db: Table, j: Name, ins: seq<Name>): (r: seq<Induced>)
    requires Valid(s) && Acyclic(s)
    requires forall a :: a in ins ==> a in s.tasks
    ensures |r| == |ins| && forall k :: 0 <= k < |ins| ==> r[k] == InducedState(s, db, ins[k], j)
  {
    seq(|ins|, k requires 0 <= k < |ins| => InducedState(s, db, ins[k], j))
  }

  lemma OneMore(a: seq<Induced>, b: seq<Induced>)
    requires |a| == |b| + 1 && forall k :: 0 <= k < |b| ==> a[k] == b[k]
    ensures a == b + [a[|b|]]
  {
  }

  lemma InducedStatesOneMore(s: Spec, db: Table, j: Name, ins: seq<Name>, i: nat)
    requires Valid(s) && Acyclic(s) && i < |ins|
    requires forall a :: a in ins ==> a in s.tasks
    ensures InducedStates(s, db, j, ins[..i + 1]) ==
            InducedStates(s, db, j, ins[..i]) + [InducedState(s, db, ins[i], j)]
  {
    OneMore(InducedStates(s, db, j, ins[..i + 1]), InducedStates(s, db, j, ins[..i]));
  }

  // ---------- the verdict ----------

  function CountOf(states: seq<Induced>, st: State): (n: nat)
    ensures n <= |states|
  {
    if states == [] then 0
    else CountOf(states[..|states| - 1], st) + if states[|states| - 1].state == st then 1 else 0
  }

  function DepthOf(states: seq<Induced>, st: State): nat {
    if states == [] then 0
    else DepthOf(states[..|states| - 1], st) +
         if states[|states| - 1].state == st then states[|states| - 1].depth else 0
  }

  datatype Trigger = Trigger(task: Name, cause: Cause)

  datatype LogicalState = LogicalState(state: State, cardinality: int, triggeredBy: seq<Trigger>)

  function TriggersOf(ins: seq<Name>, states: seq<Induced>, db: Table, st: State): seq<Trigger>
    requires |ins| == |states|
  {
    if ins == [] then [] else
      var n := |ins| - 1;
      TriggersOf(ins[..n], states[..n], db, st) +
      if states[n].state == st && ins[n] in db then [Trigger(ins[n], states[n].cause)] else []
  }

  function Judge(join: Join, ins: seq<Name>, states: seq<Induced>, db: Table): (r: LogicalState)
    requires join != NoJoin && |ins| == |states|
    ensures r.state in {WAITING, RUNNING, ERROR}
  {
    var errors, runnings, total := CountOf(states, ERROR), CountOf(states, RUNNING), |states|;
    match join
    case Count(card) =>
      if runnings >= card then LogicalState(RUNNING, 0, TriggersOf(ins, states, db, RUNNING))
      else if errors > total - card then LogicalState(ERROR, 0, [])
      else LogicalState(WAITING, card - runnings, [])
    case All =>
      if total == runnings then LogicalState(RUNNING, 0, TriggersOf(ins, states, db, RUNNING))
      else if errors > 0 then LogicalState(ERROR, 0, TriggersOf(ins, states, db, ERROR))
      else LogicalState(WAITING, total - DepthOf(states, RUNNING), [])
  }

  function JoinLogicalState(s: Spec, db: Table, j: Name): (r: LogicalState)
    requires Valid(s) && Acyclic(s) && IsJoin(s, j)
    ensures r.state in {WAITING, RUNNING, ERROR}
  {
    var ins := Inbound(s, j);
    if ins == [] then LogicalState(RUNNING, 0, [])
    else Judge(s.tasks[j].join, ins, InducedStates(s, db, j, ins), db)
  }

  function Verdict(s: Spec, db: Table, j: Name): State
    requires Valid(s) && Acyclic(s) && IsJoin(s, j)
  {
    JoinLogicalState(s, db, j).state
  }

  // ---------- facts about verdicts ----------

  lemma {:induction false} CountsAddUp(states: seq<Induced>)
    requires forall k :: 0 <= k < |states| ==> states[k].state in {WAITING, RUNNING, ERROR}
    ensures CountOf(states, WAITING) + CountOf(states, RUNNING) + CountOf(states, ERROR) == |states|
  {
    if states == [] {
    } else {
      CountsAddUp(states[..|states| - 1]);
    }
  }

  /** Where `b` shows st, so did `a`; then `b` shows it no more often. */
  lemma {:induction false} CountGrowsWith(a: seq<Induced>, b: seq<Induced>, st: State)
    requires |a| == |b|
    requires forall k :: 0 <= k < |b| && b[k].state == st ==> a[k].state == st
    ensures CountOf(b, st) <= CountOf(a, st)
  {
    if a == [] {
    } else {
      CountGrowsWith(a[..|a| - 1], b[..|b| - 1], st);
    }
  }

  lemma {:induction false} CountZero(a: seq<Induced>, st: State)
    requires forall k :: 0 <= k < |a| ==> a[k].state != st
    ensures CountOf(a, st) == 0
  {
    if a == [] {
    } else {
      CountZero(a[..|a| - 1], st);
    }
  }

  /** If no inbound task induces WAITING, the join has a verdict. */
  lemma NothingWaitingDecides(join: Join, ins: seq<Name>, states: seq<Induced>, db: Table)
    requires join != NoJoin && |ins| == |states|
    requires forall k :: 0 <= k < |states| ==> states[k].state in {RUNNING, ERROR}
    ensures Judge(join, ins, states, db).state in {RUNNING, ERROR}
  {
    CountsAddUp(states);
    CountZero(states, WAITING);
  }

  /** If induced states only ever leave WAITING, a verdict once given stays. */
  lemma VerdictStays(join: Join, ins: seq<Name>, a: seq<Induced>, b: seq<Induced>, db: Table, db': Table)
    requires join != NoJoin && |ins| == |a| == |b|
    requires forall k :: 0 <= k < |b| ==>
               a[k].state in {WAITING, RUNNING, ERROR} && b[k].state in {WAITING, RUNNING, ERROR}
    requires forall k :: 0 <= k < |a| && a[k].state != WAITING ==> b[k].state == a[k].state
    requires Judge(join, ins, a, db).state != WAITING
    ensures Judge(join, ins, b, db').state == Judge(join, ins, a, db).state
  {
    CountGrowsWith(b, a, RUNNING);
    CountGrowsWith(b, a, ERROR);
    CountsAddUp(a);
    CountsAddUp(b);
  }

  /** If nothing newly induces RUNNING or ERROR, a join without a verdict still has none. */
  lemma VerdictNeedsMover(join: Join, ins: seq<Name>, a: seq<Induced>, b: seq<Induced>, db: Table, db': Table)
    requires join != NoJoin && |ins| == |a| == |b|
    requires forall k :: 0 <= k < |b| && b[k].state != WAITING ==> a[k].state == b[k].state
    requires Judge(join, ins, a, db).state == WAITING
    ensures Judge(join, ins, b, db').state == WAITING
  {
    CountGrowsWith(a, b, RUNNING);
    CountGrowsWith(a, b, ERROR);
  }

  /** For "join: all" the reported cardinality is the number of inbound tasks that have not triggered the join. */
  lemma {:induction false} RunningDepthIsCount(states: seq<Induced>)
    requires forall k :: 0 <= k < |states| && states[k].state == RUNNING ==> states[k].depth == 1
    ensures DepthOf(states, RUNNING) == CountOf(states, RUNNING)
  {
    if states == [] {
    } else {
      RunningDepthIsCount(states[..|states| - 1]);
    }
  }

  lemma JudgeCardinality(join: Join, ins: seq<Name>, states: seq<Induced>, db: Table)
    requires join != NoJoin && |ins| == |states|
    requires join.Count? ==> join.cardinality <= |ins|
    requires forall k :: 0 <= k < |states| && states[k].state == RUNNING ==> states[k].depth == 1
    ensures var l := Judge(join, ins, states, db);
            l.state in {WAITING, RUNNING, ERROR} &&
            if l.state == WAITING then 1 <= l.cardinality <= |ins| else l.cardinality == 0
  {
    RunningDepthIsCount(states);
  }

  /** A verdict leaves nothing to wait for; a waiting join waits for at least one task, and no more than it has. */
  lemma CardinalityIsMeaningful(s: Spec, db: Table, j: Name)
    requires Valid(s) && Acyclic(s) && IsJoin(s, j)
    requires s.tasks[j].join.Count? ==> s.tasks[j].join.cardinality <= |Inbound(s, j)|
    ensures var l := JoinLogicalState(s, db, j);
            l.state in {WAITING, RUNNING, ERROR} &&
            if l.state == WAITING then 1 <= l.cardinality <= |Inbound(s, j)| else l.cardinality == 0
  {
    var ins := Inbound(s, j);
    if ins != [] {
      JudgeCardinality(s.tasks[j].join, ins, InducedStates(s, db, j, ins), db);
    }
  }

  // ---------- what a verdict means ----------

  /** The inbound tasks of j that are completed and have triggered it. */
  ghost function Triggering(s: Spec, db: Table, j: Name): set<Name> {
    set a | a in Inbound(s, j) && a in db && IsCompleted(db[a].state) && j in NextNames(db[a])
  }

  /** The inbound tasks of j that never will: completed without triggering it, or out of reach. */
  ghost function Lost(s: Spec, db: Table, j: Name): set<Name>
    requires Valid(s) && Acyclic(s)
  {
    set a | a in Inbound(s, j) &&
            if a in db then IsCompleted(db[a].state) && j !in NextNames(db[a]) else !Possible(s, db, a)
  }

  ghost function Inducing(ins: seq<Name>, states: seq<Induced>, st: State): set<Name>
    requires |ins| == |states|
  {
    set k | 0 <= k < |ins| && states[k].state == st :: ins[k]
  }

  ghost predicate Distinct(names: seq<Name>) {
    forall i, k :: 0 <= i < k < |names| ==> names[i] != names[k]
  }

  lemma InducingOneMore(ins: seq<Name>, states: seq<Induced>, st: State)
    requires |ins| == |states| > 0 && Distinct(ins)
    ensures var n := |ins| - 1;
            var front := Inducing(ins[..n], states[..n], st);
            && ins[n] !in front
            && Inducing(ins, states, st) == if states[n].state == st then front + {ins[n]} else front
  {
    var n := |ins| - 1;
    forall a | a in Inducing(ins, states, st)
      ensures a in Inducing(ins[..n], states[..n], st) || (states[n].state == st && a == ins[n])
    {
      var k :| 0 <= k < |ins| && states[k].state == st && ins[k] == a;
      assert k < n ==> ins[..n][k] == a && states[..n][k].state == st;
    }
  }

  lemma {:induction false} CountIsSize(ins: seq<Name>, states: seq<Induced>, st: State)
    requires |ins| == |states| && Distinct(ins)
    ensures CountOf(states, st) == |Inducing(ins, states, st)|
  {
    if ins == [] {
    } else {
      var n := |ins| - 1;
      CountIsSize(ins[..n], states[..n], st);
      InducingOneMore(ins, states, st);
    }
  }

  lemma {:induction false} CountIsFull(states: seq<Induced>, st: State)
    ensures CountOf(states, st) == |states| <==> forall k :: 0 <= k < |states| ==> states[k].state == st
  {
    if states == [] {
    } else {
      CountIsFull(states[..|states| - 1], st);
    }
  }

  lemma {:induction false} InboundAmongIsDistinct(s: Spec, names: seq<Name>, t: Name)
    requires Distinct(names)
    ensures Distinct(InboundAmong(s, names, t))
  {
    if names == [] {
    } else {
      var rest := InboundAmong(s, names[1..], t);
      InboundAmongIsDistinct(s, names[1..], t);
      assert names[0] !in names[1..];
      assert forall i :: 0 <= i < |rest| ==> rest[i] in rest;
    }
  }

  lemma InducingSets(s: Spec, db: Table, j: Name)
    requires Valid(s) && Acyclic(s)
    ensures var ins := Inbound(s, j);
            && Inducing(ins, InducedStates(s, db, j, ins), RUNNING) == Triggering(s, db, j)
            && Inducing(ins, InducedStates(s, db, j, ins), ERROR) == Lost(s, db, j)
  {
    var ins := Inbound(s, j);
    var states := InducedStates(s, db, j, ins);
    forall k | 0 <= k < |ins|
      ensures states[k].state == RUNNING <==> ins[k] in Triggering(s, db, j)
      ensures states[k].state == ERROR <==> ins[k] in Lost(s, db, j)
    {
      assert states[k] == InducedState(s, db, ins[k], j);
    }
  }

  /**
   A join of a number runs when that many inbound tasks have triggered it, and
   fails when so many are lost that the rest cannot make up the number.  A join
   of all runs when all have triggered it, and fails when one is lost.
   */
  lemma VerdictMeans(s: Spec, db: Table, j: Name)
    requires Valid(s) && Acyclic(s) && IsJoin(s, j) && Inbound(s, j) != []
    ensures Means(s.tasks[j].join, Inbound(s, j), Triggering(s, db, j), Lost(s, db, j), Verdict(s, db, j))
  {
    var ins := Inbound(s, j);
    InboundAmongIsDistinct(s, s.order, j);
    InducingSets(s, db, j);
    JudgeMeans(s.tasks[j].join, ins, InducedStates(s, db, j, ins), db);
  }

  ghost predicate Means(join: Join, ins: seq<Name>, fired: set<Name>, lost: set<Name>, verdict: State) {
    match join
    case Count(c) =>
      && (verdict == RUNNING <==> |fired| >= c)
      && (verdict == ERROR <==> |fired| < c && |ins| - |lost| < c)
    case All =>
      && (verdict == RUNNING <==> forall a :: a in ins ==> a in fired)
      && (verdict == ERROR <==> lost != {})
    case NoJoin => false
  }

  lemma JudgeMeans(join: Join, ins: seq<Name>, states: seq<Induced>, db: Table)
    requires join != NoJoin && |ins| == |states| && Distinct(ins)
    ensures Means(join, ins, Inducing(ins, states, RUNNING), Inducing(ins, states, ERROR),
                  Judge(join, ins, states, db).state)
  {
    CountIsSize(ins, states, RUNNING);
    CountIsSize(ins, states, ERROR);
    CountIsFull(states, RUNNING);
    AllInducing(ins, states, RUNNING);
    if a :| a in Inducing(ins, states, ERROR) {
      var k :| 0 <= k < |ins| && states[k].state == ERROR && ins[k] == a;
    }
  }

  lemma AllInducing(ins: seq<Name>, states: seq<Induced>, st: State)
    requires |ins| == |states| && Distinct(ins)
    ensures (forall k :: 0 <= k < |states| ==> states[k].state == st) <==>
            forall a :: a in ins ==> a in Inducing(ins, states, st)
  {
    forall k | 0 <= k < |ins| && ins[k] in Inducing(ins, states, st)
      ensures states[k].state == st
    {
    }
    if forall a :: a in ins ==> a in Inducing(ins, states, st) {
      assert forall k :: 0 <= k < |ins| ==> ins[k] in ins;
    }
  }

  lemma {:induction false} TriggersAreInducing(ins: seq<Name>, states: seq<Induced>, db: Table, st: State)
    requires |ins| == |states|
    ensures forall tr :: tr in TriggersOf(ins, states, db, st) ==>
              exists k :: 0 <= k < |ins| && ins[k] == tr.task && states[k].state == st && states[k].cause == tr.cause
    ensures forall k :: 0 <= k < |ins| && states[k].state == st && ins[k] in db ==>
              Trigger(ins[k], states[k].cause) in TriggersOf(ins, states, db, st)
  {
    if ins == [] {
    } else {
      var n := |ins| - 1;
      TriggersAreInducing(ins[..n], states[..n], db, st);
    }
  }

  lemma TriggersOfCaused(ins: seq<Name>, states: seq<Induced>, db: Table, j: Name)
    requires |ins| == |states| && AllCaused(ins, states, db, j)
    ensures NamesAll(TriggersOf(ins, states, db, RUNNING), Inducing(ins, states, RUNNING))
    ensures forall tr :: tr in TriggersOf(ins, states, db, RUNNING) ==> Caused(db, j, tr)
  {
    var triggers := TriggersOf(ins, states, db, RUNNING);
    TriggersAreInducing(ins, states, db, RUNNING);
    forall a | a in Inducing(ins, states, RUNNING)
      ensures exists tr :: tr in triggers && tr.task == a
    {
      var k :| 0 <= k < |ins| && states[k].state == RUNNING && ins[k] == a;
      assert Caused(db, j, Trigger(ins[k], states[k].cause));
      assert Trigger(ins[k], states[k].cause) in triggers;
    }
  }

  ghost predicate NamesAll(triggers: seq<Trigger>, names: set<Name>) {
    forall a :: a in names <==> exists tr :: tr in triggers && tr.task == a
  }

  lemma JudgeTriggers(join: Join, ins: seq<Name>, states: seq<Induced>, db: Table, j: Name)
    requires join != NoJoin && |ins| == |states| && AllCaused(ins, states, db, j)
    requires Judge(join, ins, states, db).state == RUNNING
    ensures NamesAll(Judge(join, ins, states, db).triggeredBy, Inducing(ins, states, RUNNING))
    ensures forall tr :: tr in Judge(join, ins, states, db).triggeredBy ==> Caused(db, j, tr)
  {
    TriggersOfCaused(ins, states, db, j);
  }

  /** A join that may run names exactly the tasks that triggered it, each with an event that did. */
  lemma TriggersAreExact(s: Spec, db: Table, j: Name)
    requires Valid(s) && Acyclic(s) && IsJoin(s, j) && Verdict(s, db, j) == RUNNING && Inbound(s, j) != []
    ensures NamesAll(JoinLogicalState(s, db, j).triggeredBy, Triggering(s, db, j))
    ensures forall tr :: tr in JoinLogicalState(s, db, j).triggeredBy ==> Caused(db, j, tr)
  {
    var ins := Inbound(s, j);
    InducedAreCaused(s, db, j);
    InducingSets(s, db, j);
    JudgeTriggers(s.tasks[j].join, ins, InducedStates(s, db, j, ins), db, j);
  }

  ghost predicate AllCaused(ins: seq<Name>, states: seq<Induced>, db: Table, j: Name)
    requires |ins| == |states|
  {
    forall k :: 0 <= k < |ins| && states[k].state == RUNNING ==> Caused(db, j, Trigger(ins[k], states[k].cause))
  }

  lemma InducedAreCaused(s: Spec, db: Table, j: Name)
    requires Valid(s) && Acyclic(s)
    ensures AllCaused(Inbound(s, j), InducedStates(s, db, j, Inbound(s, j)), db, j)
  {
    var ins := Inbound(s, j);
    var states := InducedStates(s, db, j, ins);
    forall k | 0 <= k < |ins| && states[k].state == RUNNING
      ensures Caused(db, j, Trigger(ins[k], states[k].cause))
    {
      RunningIsCaused(s, db, ins[k], j);
    }
  }

  /** The task has stored j as a next task, the last time under the event named. */
  ghost predicate Caused(db: Table, j: Name, tr: Trigger) {
    tr.task in db && tr.cause.Fired? && LastNamed(db[tr.task].next, NextTask(j, tr.cause.event))
  }

  ghost predicate LastNamed(next: seq<NextTask>, entry: NextTask) {
    exists i :: 0 <= i < |next| && next[i] == entry && forall k :: i < k < |next| ==> next[k].name != entry.name
  }

  lemma OneMoreEntry(front: seq<NextTask>, last: NextTask, entry: NextTask)
    ensures last == entry ==> LastNamed(front + [last], entry)
    ensures LastNamed(front, entry) && last.name != entry.name ==> LastNamed(front + [last], entry)
  {
    var next := front + [last];
    assert next[|front|] == last;
    if LastNamed(front, entry) {
      var i :| 0 <= i < |front| && front[i] == entry && forall k :: i < k < |front| ==> front[k].name != entry.name;
      assert next[i] == entry && forall k :: i < k < |front| ==> next[k] == front[k];
    }
  }

  lemma {:induction false} EventIsLast(next: seq<NextTask>, t: Name)
    requires exists n :: n in next && n.name == t
    ensures LastNamed(next, NextTask(t, EventFor(next, t)))
  {
    var front, last := next[..|next| - 1], next[|next| - 1];
    assert next == front + [last];
    OneMoreEntry(front, last, NextTask(t, EventFor(next, t)));
    if last.name != t {
      EventIsLast(front, t);
    }
  }

  lemma RunningIsCaused(s: Spec, db: Table, a: Name, j: Name)
    requires Valid(s) && Acyclic(s) && a in s.tasks && InducedState(s, db, a, j).state == RUNNING
    ensures Caused(db, j, Trigger(a, InducedState(s, db, a, j).cause))
  {
    var n :| n in db[a].next && n.name == j;
    EventIsLast(db[a].next, j);
  }

  // ---------- what is reported with a verdict ----------

  lemma JudgeMissing(join: Join, ins: seq<Name>, states: seq<Induced>, db: Table, fired: set<Name>)
    requires join != NoJoin && |ins| == |states| && Distinct(ins) && fired == Inducing(ins, states, RUNNING)
    requires forall k :: 0 <= k < |states| && states[k].state == RUNNING ==> states[k].depth == 1
    requires Judge(join, ins, states, db).state == WAITING
    ensures Judge(join, ins, states, db).cardinality == (if join.Count? then join.cardinality else |ins|) - |fired|
  {
    RunningDepthIsCount(states);
    CountIsSize(ins, states, RUNNING);
  }

  lemma RunningIsOneDeep(s: Spec, db: Table, j: Name)
    requires Valid(s) && Acyclic(s)
    ensures var states := InducedStates(s, db, j, Inbound(s, j));
            forall k :: 0 <= k < |states| && states[k].state == RUNNING ==> states[k].depth == 1
  {
  }

  /** A waiting join reports how many inbound tasks have still to trigger it: of the number asked for, or of all. */
  lemma CardinalityIsMissing(s: Spec, db: Table, j: Name)
    requires Valid(s) && Acyclic(s) && IsJoin(s, j) && Verdict(s, db, j) == WAITING
    ensures JoinLogicalState(s, db, j).cardinality ==
            match s.tasks[j].join
            case Count(c) => c - |Triggering(s, db, j)|
            case _ => |Inbound(s, j)| - |Triggering(s, db, j)|
  {
    var ins := Inbound(s, j);
    InboundAmongIsDistinct(s, s.order, j);
    InducingSets(s, db, j);
    RunningIsOneDeep(s, db, j);
    JudgeMissing(s.tasks[j].join, ins, InducedStates(s, db, j, ins), db, Triggering(s, db, j));
  }

  /** The inbound tasks that have ended without triggering j. */
  ghost function Failing(s: Spec, db: Table, j: Name): set<Name> {
    set a | a in Inbound(s, j) && a in db && IsCompleted(db[a].state) && j !in NextNames(db[a])
  }

  lemma ErrorTriggers(s: Spec, db: Table, j: Name)
    requires Valid(s) && Acyclic(s)
    ensures var triggers := TriggersOf(Inbound(s, j), InducedStates(s, db, j, Inbound(s, j)), db, ERROR);
            NamesAll(triggers, Failing(s, db, j)) && forall tr :: tr in triggers ==> tr.cause == NotTriggered
  {
    var ins := Inbound(s, j);
    var states := InducedStates(s, db, j, ins);
    TriggersAreInducing(ins, states, db, ERROR);
    var triggers := TriggersOf(ins, states, db, ERROR);
    forall a | a in Failing(s, db, j)
      ensures Trigger(a, NotTriggered) in triggers
    {
      var k :| 0 <= k < |ins| && ins[k] == a;
      assert states[k] == InducedState(s, db, a, j);
    }
    TriggersAreIn(ins, states, db, ERROR);
    forall tr | tr in triggers
      ensures tr.task in Failing(s, db, j) && tr.cause == NotTriggered
    {
      var k :| 0 <= k < |ins| && ins[k] == tr.task && states[k].state == ERROR && states[k].cause == tr.cause;
      assert states[k] == InducedState(s, db, ins[k], j);
    }
  }

  lemma {:induction false} TriggersAreIn(ins: seq<Name>, states: seq<Induced>, db: Table, st: State)
    requires |ins| == |states|
    ensures forall tr :: tr in TriggersOf(ins, states, db, st) ==> tr.task in db
  {
    if ins == [] {
    } else {
      TriggersAreIn(ins[..|ins| - 1], states[..|ins| - 1], db, st);
    }
  }

  /**
   A join of all that must fail names the inbound tasks that ended without
   triggering it, and no others; a join of a number names none.
   */
  lemma ErrorNamesFailing(s: Spec, db: Table, j: Name)
    requires Valid(s) && Acyclic(s) && IsJoin(s, j) && Verdict(s, db, j) == ERROR
    ensures var triggers := JoinLogicalState(s, db, j).triggeredBy;
            match s.tasks[j].join
            case Count(_) => triggers == []
            case _ => NamesAll(triggers, Failing(s, db, j)) && forall tr :: tr in triggers ==> tr.cause == NotTriggered
  {
    var ins := Inbound(s, j);
    ErrorTriggers(s, db, j);
    JudgeError(s.tasks[j].join, ins, InducedStates(s, db, j, ins), db);
  }

  lemma JudgeError(join: Join, ins: seq<Name>, states: seq<Induced>, db: Table)
    requires join != NoJoin && |ins| == |states| && Judge(join, ins, states, db).state == ERROR
    ensures Judge(join, ins, states, db).triggeredBy == if join.Count? then [] else TriggersOf(ins, states, db, ERROR)
  {
  }
}
