/** How the logical states of joins may change when the table of executions changes. */
module JoinMoves {
  import opened States
  import opened WorkflowSpec
  import opened JoinLogic
  import opened AffectedJoins

  lemma VerdictRange(s: Spec, db: Table, j: Name)
    requires Valid(s) && Acyclic(s) && IsJoin(s, j)
    ensures Verdict(s, db, j) in {WAITING, RUNNING, ERROR}
  {
  }

  // ---------- one task completes ----------

  /**
   The only incomplete execution that may become completed is the one of t;
   new executions are incomplete, and others are unchanged or put back to incomplete.
   */
  ghost predicate OnlyCompletes(db: Table, db': Table, t: Name) {
    && t in db && !IsCompleted(db[t].state) && db.Keys <= db'.Keys
    && (forall x :: x in db && x != t ==> db'[x] == db[x] || !IsCompleted(db'[x].state))
    && (forall x :: x in db' && x !in db ==> !IsCompleted(db'[x].state))
  }

  /** A route that closes was closed by t completing, and the search from t passes it. */
  lemma {:induction false} ClosedRouteIsOpenFrom(s: Spec, db: Table, db': Table, t: Name, a: Name)
    requires Valid(s) && Acyclic(s) && a in s.tasks && OnlyCompletes(db, db', t)
    requires a !in db' && Possible(s, db, a) && !Possible(s, db', a)
    ensures OpenTo(s, db'.Keys, t, a) && IsCompleted(db'[t].state)
    decreases Upstream(s, a)
  {
    var y :| Edge(s, y, a) && OpenVia(s, db, y, a);
    assert !OpenVia(s, db', y, a);
    if y in db {
      assert y == t;
      OpenStep(s, db'.Keys, t, a);
    } else {
      assert y !in db';
      EdgeReaches(s, y, a);
      UpstreamShrinks(s, y, a);
      ClosedRouteIsOpenFrom(s, db, db', t, y);
      OpenExtend(s, db'.Keys, t, y, a);
    }
  }

  /** An inbound task that newly induces RUNNING or ERROR induced WAITING before, and the search from t passes it. */
  lemma MoverIsOpenFrom(s: Spec, db: Table, db': Table, t: Name, a: Name, j: Name)
    requires Valid(s) && Acyclic(s) && Edge(s, a, j) && OnlyCompletes(db, db', t)
    requires InducedState(s, db', a, j).state != WAITING
    requires InducedState(s, db, a, j).state != InducedState(s, db', a, j).state
    ensures InducedState(s, db, a, j).state == WAITING
    ensures OpenTo(s, db'.Keys, t, j) && IsCompleted(db'[t].state)
  {
    if a in db {
      assert a == t;
      OpenStep(s, db'.Keys, t, j);
    } else {
      ClosedRouteIsOpenFrom(s, db, db', t, a);
      OpenExtend(s, db'.Keys, t, a, j);
    }
  }

  /** A join can only leave WAITING if t completes and an open path leads from t to the join. */
  lemma NewVerdictIsOpenFrom(s: Spec, db: Table, db': Table, t: Name, j: Name)
    requires Valid(s) && Acyclic(s) && IsJoin(s, j) && OnlyCompletes(db, db', t)
    requires Verdict(s, db, j) == WAITING && Verdict(s, db', j) != WAITING
    ensures OpenTo(s, db'.Keys, t, j) && IsCompleted(db'[t].state)
  {
    var ins := Inbound(s, j);
    var a, b := InducedStates(s, db, j, ins), InducedStates(s, db', j, ins);
    if forall k :: 0 <= k < |b| && b[k].state != WAITING ==> a[k].state == b[k].state {
      VerdictNeedsMover(s.tasks[j].join, ins, a, b, db, db');
    } else {
      var k :| 0 <= k < |b| && b[k].state != WAITING && a[k].state != b[k].state;
      InboundIsEdge(s, ins[k], j);
      MoverIsOpenFrom(s, db, db', t, ins[k], j);
    }
  }

  lemma OpenPathReaches(s: Spec, existing: set<Name>, t: Name, j: Name)
    requires OpenTo(s, existing, t, j) && j in s.tasks
    ensures Reaches(s, t, j)
  {
    var p :| OpenPath(s, existing, p) && p[0] == t && p[|p| - 1] == j;
    forall i | 0 <= i < |p| - 1
      ensures Edge(s, p[i], p[i + 1])
    {
      assert p[i + 1] in Outbound(s, p[i]);
      assert i < |p| - 2 ==> p[i + 2] in Outbound(s, p[i + 1]);
    }
    assert PathFromTo(s, p, t, j);
  }

  /**
   The search misses nothing: whenever the completion of t gives an existing
   join its verdict, the search from t returns that join.
   */
  lemma AffectedMissesNothing(s: Spec, db: Table, db': Table, t: Name, j: Name)
    requires Valid(s) && Acyclic(s) && IsJoin(s, j) && OnlyCompletes(db, db', t)
    requires j in db' && Verdict(s, db, j) == WAITING && Verdict(s, db', j) != WAITING
    ensures j in Affected(s, db'.Keys, t)
  {
    NewVerdictIsOpenFrom(s, db, db', t, j);
    OpenPathReaches(s, db'.Keys, t, j);
  }

  // ---------- completed executions stay ----------

  /** Completed executions keep their outcome, and only tasks with a possible route are created. */
  ghost predicate Grows(s: Spec, db: Table, db': Table)
    requires Valid(s) && Acyclic(s)
  {
    && db.Keys <= db'.Keys <= s.tasks.Keys
    && (forall x :: x in db && IsCompleted(db[x].state) ==>
          IsCompleted(db'[x].state) && NextNames(db'[x]) == NextNames(db[x]))
    && (forall x :: x in db' && x !in db ==> Possible(s, db, x))
  }

  lemma {:induction false} ImpossibleStays(s: Spec, db: Table, db': Table, a: Name)
    requires Valid(s) && Acyclic(s) && Grows(s, db, db')
    requires a in s.tasks && a !in db && !Possible(s, db, a)
    ensures a !in db' && !Possible(s, db', a)
    decreases Upstream(s, a)
  {
    forall y | Edge(s, y, a)
      ensures !OpenVia(s, db', y, a)
    {
      assert !OpenVia(s, db, y, a);
      if y !in db {
        EdgeReaches(s, y, a);
        UpstreamShrinks(s, y, a);
        ImpossibleStays(s, db, db', y);
      }
    }
  }

  lemma InducedStays(s: Spec, db: Table, db': Table, a: Name, j: Name)
    requires Valid(s) && Acyclic(s) && Grows(s, db, db') && a in s.tasks
    requires InducedState(s, db, a, j).state != WAITING
    ensures InducedState(s, db', a, j).state == InducedState(s, db, a, j).state
  {
    if a !in db {
      ImpossibleStays(s, db, db', a);
    }
  }

  lemma InducedStatesStay(s: Spec, db: Table, db': Table, j: Name, ins: seq<Name>)
    requires Valid(s) && Acyclic(s) && Grows(s, db, db')
    requires forall x :: x in ins ==> x in s.tasks
    ensures forall k :: 0 <= k < |ins| && InducedStates(s, db, j, ins)[k].state != WAITING ==>
              InducedStates(s, db', j, ins)[k].state == InducedStates(s, db, j, ins)[k].state
  {
    forall k | 0 <= k < |ins| && InducedStates(s, db, j, ins)[k].state != WAITING
      ensures InducedStates(s, db', j, ins)[k].state == InducedStates(s, db, j, ins)[k].state
    {
      InducedStays(s, db, db', ins[k], j);
    }
  }

  lemma VerdictIsFinal(s: Spec, db: Table, db': Table, j: Name)
    requires Valid(s) && Acyclic(s) && Grows(s, db, db') && IsJoin(s, j)
    requires Verdict(s, db, j) != WAITING
    ensures Verdict(s, db', j) == Verdict(s, db, j)
  {
    var ins := Inbound(s, j);
    var a, b := InducedStates(s, db, j, ins), InducedStates(s, db', j, ins);
    InducedStatesStay(s, db, db', j, ins);
    VerdictStays(s.tasks[j].join, ins, a, b, db, db');
  }

  // ---------- deadlock freedom ----------

  /** Executed start tasks, executed successors of completed tasks. */
  ghost predicate Grounded(s: Spec, db: Table) {
    && db.Keys <= s.tasks.Keys
    && (forall t :: t in s.tasks && Inbound(s, t) == [] ==> t in db)
    && (forall t :: t in db && IsCompleted(db[t].state) ==> NextNames(db[t]) <= db.Keys)
  }

  /** Upstream of a join with only completed executions before it, no missing task can still come. */
  lemma {:induction false} NothingCanCome(s: Spec, db: Table, w: Name, x: Name)
    requires Valid(s) && Acyclic(s) && Grounded(s, db)
    requires forall y :: y in db && Reaches(s, y, w) ==> IsCompleted(db[y].state)
    requires x in s.tasks && x !in db && Reaches(s, x, w)
    ensures !Possible(s, db, x)
    decreases Upstream(s, x)
  {
    forall y | Edge(s, y, x)
      ensures !OpenVia(s, db, y, x)
    {
      EdgeReaches(s, y, x);
      ReachesTransitive(s, y, x, w);
      if y !in db {
        UpstreamShrinks(s, y, x);
        NothingCanCome(s, db, w, y);
      }
    }
  }

  /** When everything is completed or waiting, some waiting join has its verdict. */
  lemma SomeJoinIsDecided(s: Spec, db: Table, j0: Name) returns (j: Name)
    requires Valid(s) && Acyclic(s) && Grounded(s, db)
    requires forall t :: t in db ==> IsCompleted(db[t].state) || (db[t].state == WAITING && IsJoin(s, t))
    requires j0 in db && db[j0].state == WAITING
    ensures j in db && db[j].state == WAITING && IsJoin(s, j) && Verdict(s, db, j) in {RUNNING, ERROR}
  {
    var waiting := set t | t in db && db[t].state == WAITING;
    j := MinimalTask(s, waiting, j0);
    var ins := Inbound(s, j);
    var states := InducedStates(s, db, j, ins);
    forall k | 0 <= k < |ins|
      ensures states[k].state in {RUNNING, ERROR}
    {
      InboundIsEdge(s, ins[k], j);
      EdgeReaches(s, ins[k], j);
      if ins[k] !in db {
        NothingCanCome(s, db, j, ins[k]);
      }
    }
    NothingWaitingDecides(s.tasks[j].join, ins, states, db);
  }
}
