/**
 The engine's own evaluation of a join: task executions are prefetched into a
 dictionary up to a limited depth, and the route search fills that dictionary
 further while it recurses.  Each method is proved to compute what the direct
 definitions of JoinLogic say.
 */
module RouteCache {
  import opened States
  import opened WorkflowSpec
  import JL = JoinLogic
  import opened Wrappers

  const MAX_SEARCH_DEPTH: nat := 5

  function Lookup(db: JL.Table, n: Name): Option<JL.TaskEx> {
    if n in db then Some(db[n]) else None
  }

  /** There is a walk of exactly k transitions from a to b. */
  ghost predicate Walk(s: Spec, a: Name, b: Name, k: nat)
    decreases k
  {
    if k == 0 then a == b else exists c :: Edge(s, c, b) && Walk(s, a, c, k - 1)
  }

  /** What the depth-limited search collects when it enters t at the given depth. */
  ghost predicate Collected(s: Spec, n: Name, t: Name, depth: nat) {
    || (n == t && (depth > 1 || Inbound(s, t) == []))
    || exists k: nat :: 1 <= k <= MAX_SEARCH_DEPTH - depth && Walk(s, n, t, k)
  }

  ghost predicate CollectedFromAny(s: Spec, n: Name, ins: seq<Name>, depth: nat) {
    exists a :: a in ins && Collected(s, n, a, depth)
  }

  lemma CollectedFromOneMore(s: Spec, n: Name, ins: seq<Name>, i: nat, depth: nat)
    requires i < |ins|
    ensures CollectedFromAny(s, n, ins[..i + 1], depth) <==>
            CollectedFromAny(s, n, ins[..i], depth) || Collected(s, n, ins[i], depth)
  {
    assert ins[..i + 1] == ins[..i] + [ins[i]];
  }

  lemma NoWalkIntoStart(s: Spec, a: Name, b: Name, k: nat)
    requires Valid(s) && b in s.tasks && Inbound(s, b) == [] && k >= 1
    ensures !Walk(s, a, b, k)
  {
    forall c
      ensures !Edge(s, c, b)
    {
      InboundIsEdge(s, c, b);
    }
  }

  lemma CollectedStep(s: Spec, n: Name, t: Name, depth: nat)
    requires Valid(s) && t in s.tasks && 1 <= depth < MAX_SEARCH_DEPTH && Inbound(s, t) != []
    ensures Collected(s, n, t, depth) <==>
            (n == t && depth > 1) || CollectedFromAny(s, n, Inbound(s, t), depth + 1)
  {
    forall a | a in Inbound(s, t) && Collected(s, n, a, depth + 1)
      ensures Collected(s, n, t, depth)
    {
      assert Edge(s, a, t);
      if n == a {
        assert Walk(s, n, a, 0);
        assert Walk(s, n, t, 1);
      } else {
        var k: nat :| 1 <= k <= MAX_SEARCH_DEPTH - (depth + 1) && Walk(s, n, a, k);
        assert Walk(s, n, t, k + 1);
      }
    }
    if k: nat :| 1 <= k <= MAX_SEARCH_DEPTH - depth && Walk(s, n, t, k) {
      var c :| Edge(s, c, t) && Walk(s, n, c, k - 1);
      assert c in Inbound(s, t) && Collected(s, n, c, depth + 1);
    }
  }

  method FindAllParentTaskNames(s: Spec, t: Name, depth: nat) returns (names: set<Name>)
    requires Valid(s) && t in s.tasks && 1 <= depth <= MAX_SEARCH_DEPTH
    ensures forall n :: n in names <==> Collected(s, n, t, depth)
    decreases MAX_SEARCH_DEPTH - depth
  {
    if depth == MAX_SEARCH_DEPTH {
      return {t};
    }
    var ins := Inbound(s, t);
    if ins == [] {
      forall n, k: nat | 1 <= k
        ensures !Walk(s, n, t, k)
      {
        NoWalkIntoStart(s, n, t, k);
      }
      return {t};
    }
    names := {};
    for i := 0 to |ins|
      invariant forall n :: n in names <==> CollectedFromAny(s, n, ins[..i], depth + 1)
    {
      InboundIsEdge(s, ins[i], t);
      var more := FindAllParentTaskNames(s, ins[i], depth + 1);
      forall n
        ensures n in names + more <==> CollectedFromAny(s, n, ins[..i + 1], depth + 1)
      {
        CollectedFromOneMore(s, n, ins, i, depth + 1);
      }
      names := names + more;
    }
    assert ins[..|ins|] == ins;
    if depth > 1 {
      names := names + {t};
    }
    forall n
      ensures n in names <==> Collected(s, n, t, depth)
    {
      CollectedStep(s, n, t, depth);
    }
  }

  /** The prefetched names are exactly the tasks one to four transitions upstream, or t itself if nothing is. */
  lemma PrefetchReach(s: Spec, n: Name, t: Name)
    requires Valid(s) && t in s.tasks
    ensures Collected(s, n, t, 1) <==>
            if Inbound(s, t) == [] then n == t
            else Walk(s, n, t, 1) || Walk(s, n, t, 2) || Walk(s, n, t, 3) || Walk(s, n, t, 4)
  {
    if Inbound(s, t) == [] {
      forall k: nat | 1 <= k
        ensures !Walk(s, n, t, k)
      {
        NoWalkIntoStart(s, n, t, k);
      }
    } else {
      assert Collected(s, n, t, 1) <==> WalksAtMost(s, n, t, 4);
      WalksOneMore(s, n, t, 4);
      WalksOneMore(s, n, t, 3);
      WalksOneMore(s, n, t, 2);
      WalksOneMore(s, n, t, 1);
    }
  }

  ghost predicate WalksAtMost(s: Spec, a: Name, b: Name, m: nat) {
    exists k: nat :: 1 <= k <= m && Walk(s, a, b, k)
  }

  lemma WalksOneMore(s: Spec, a: Name, b: Name, m: nat)
    requires m >= 1
    ensures WalksAtMost(s, a, b, m) <==> WalksAtMost(s, a, b, m - 1) || Walk(s, a, b, m)
  {
    if WalksAtMost(s, a, b, m) {
      var k: nat :| 1 <= k <= m && Walk(s, a, b, k);
    }
  }

  lemma InboundIsCollected(s: Spec, a: Name, t: Name)
    requires Valid(s) && t in s.tasks && a in Inbound(s, t)
    ensures Collected(s, a, t, 1)
  {
    assert Edge(s, a, t) && Walk(s, a, a, 0);
    assert Walk(s, a, t, 1);
  }

  lemma RouteThroughStep(s: Spec, db: JL.Table, t: Name, ins: seq<Name>, i: nat, d: nat)
    requires Valid(s) && Acyclic(s) && t in s.tasks && i < |ins|
    requires forall a :: a in ins ==> Edge(s, a, t)
    ensures ins[i] in s.tasks && Upstream(s, ins[i]) < Upstream(s, t)
    ensures JL.RouteThrough(s, db, t, ins[i..], d) ==
            if ins[i] !in db then
              var found := JL.PossibleRoute(s, db, ins[i], d + 1);
              if found.0 then (true, found.1) else JL.RouteThrough(s, db, t, ins[i + 1..], found.1)
            else if JL.MayTrigger(db[ins[i]], t) then (true, d)
            else JL.RouteThrough(s, db, t, ins[i + 1..], d)
  {
    assert ins[i..][0] == ins[i] && ins[i..][1..] == ins[i + 1..];
    EdgeReaches(s, ins[i], t);
    UpstreamShrinks(s, ins[i], t);
  }

  class Cache {
    var entries: map<Name, Option<JL.TaskEx>>

    /** Every cached entry is what the table holds. */
    ghost predicate Sound(db: JL.Table)
      reads this
    {
      forall n :: n in entries ==> entries[n] == Lookup(db, n)
    }

    /** Prefetch for one task. */
    constructor Prepare(s: Spec, db: JL.Table, t: Name)
      requires Valid(s) && t in s.tasks
      ensures Sound(db)
      ensures forall n :: n in entries <==> Collected(s, n, t, 1)
    {
      var names := FindAllParentTaskNames(s, t, 1);
      var found := map n | n in names && n in db :: Some(db[n]);
      var todo := names;
      while todo != {}
        invariant todo <= names && names - todo <= found.Keys <= names
        invariant forall n :: n in names && n in db ==> n in found
        invariant forall n :: n in found ==> found[n] == Lookup(db, n)
        decreases todo
      {
        var n :| n in todo;
        todo := todo - {n};
        if n !in found {
          found := found[n := None];
        }
      }
      entries := found;
    }

    /** Loads the surroundings of t when its predecessor a is not cached yet. */
    method Require(s: Spec, db: JL.Table, t: Name, a: Name)
      requires Valid(s) && t in s.tasks && a in Inbound(s, t) && Sound(db)
      modifies this
      ensures Sound(db) && old(entries).Keys <= entries.Keys && a in entries
    {
      if a !in entries {
        var more := new Cache.Prepare(s, db, t);
        InboundIsCollected(s, a, t);
        entries := entries + more.entries;
      }
    }

    method PossibleRoute(s: Spec, db: JL.Table, t: Name, depth: nat) returns (possible: bool, d: nat)
      requires Valid(s) && Acyclic(s) && t in s.tasks && Sound(db)
      modifies this
      ensures (possible, d) == JL.PossibleRoute(s, db, t, depth)
      ensures Sound(db) && old(entries).Keys <= entries.Keys
      decreases Upstream(s, t)
    {
      var ins := Inbound(s, t);
      if ins == [] {
        return true, depth;
      }
      d := depth;
      for i := 0 to |ins|
        invariant Sound(db) && old(entries).Keys <= entries.Keys
        invariant JL.RouteThrough(s, db, t, ins, depth) == JL.RouteThrough(s, db, t, ins[i..], d)
      {
        var a := ins[i];
        Require(s, db, t, a);
        RouteThroughStep(s, db, t, ins, i, d);
        if entries[a].None? {
          possible, d := PossibleRoute(s, db, a, d + 1);
          if possible {
            return true, d;
          }
        } else if JL.MayTrigger(entries[a].value, t) {
          return true, d;
        }
      }
      return false, d;
    }

    method GetInducedJoinState(s: Spec, db: JL.Table, a: Name, j: Name) returns (r: JL.Induced)
      requires Valid(s) && Acyclic(s) && a in s.tasks && Sound(db) && a in entries
      modifies this
      ensures r == JL.InducedState(s, db, a, j)
      ensures Sound(db) && old(entries).Keys <= entries.Keys
    {
      if entries[a].None? {
        var possible, depth := PossibleRoute(s, db, a, 1);
        return if possible then JL.Induced(WAITING, depth, JL.NoEvent)
               else JL.Induced(ERROR, depth, JL.ImpossibleRoute);
      }
      var ex := entries[a].value;
      if !IsCompleted(ex.state) {
        return JL.Induced(WAITING, 1, JL.NoEvent);
      }
      if j !in JL.NextNames(ex) {
        return JL.Induced(ERROR, 1, JL.NotTriggered);
      }
      r := JL.Induced(RUNNING, 1, JL.Fired(JL.EventFor(ex.next, j)));
    }
  }

  method Count(states: seq<JL.Induced>, st: State) returns (count: nat, depth: nat)
    ensures count == JL.CountOf(states, st) && depth == JL.DepthOf(states, st)
  {
    count, depth := 0, 0;
    for i := 0 to |states|
      invariant count == JL.CountOf(states[..i], st) && depth == JL.DepthOf(states[..i], st)
    {
      assert states[..i + 1][..i] == states[..i];
      if states[i].state == st {
        count, depth := count + 1, depth + states[i].depth;
      }
    }
    assert states[..|states|] == states;
  }

  method CollectInducedStates(s: Spec, db: JL.Table, j: Name, ins: seq<Name>) returns (states: seq<JL.Induced>)
    requires Valid(s) && Acyclic(s) && IsJoin(s, j) && ins == Inbound(s, j)
    ensures states == JL.InducedStates(s, db, j, ins)
  {
    var cache := new Cache.Prepare(s, db, j);
    forall k | 0 <= k < |ins|
      ensures ins[k] in s.tasks && ins[k] in cache.entries
    {
      InboundIsCollected(s, ins[k], j);
    }
    states := [];
    for i := 0 to |ins|
      invariant cache.Sound(db) && forall k :: i <= k < |ins| ==> ins[k] in cache.entries
      invariant states == JL.InducedStates(s, db, j, ins[..i])
    {
      var induced := cache.GetInducedJoinState(s, db, ins[i], j);
      JL.InducedStatesOneMore(s, db, j, ins, i);
      states := states + [induced];
    }
    assert ins[..|ins|] == ins;
  }

  method Decide(join: Join, ins: seq<Name>, states: seq<JL.Induced>, db: JL.Table) returns (r: JL.LogicalState)
    requires join != NoJoin && |ins| == |states|
    ensures r == JL.Judge(join, ins, states, db)
  {
    var errors, _ := Count(states, ERROR);
    var runnings, runningDepth := Count(states, RUNNING);
    var total := |states|;
    match join {
      case Count(card) =>
        if runnings >= card {
          return JL.LogicalState(RUNNING, 0, JL.TriggersOf(ins, states, db, RUNNING));
        }
        if errors > total - card {
          return JL.LogicalState(ERROR, 0, []);
        }
        return JL.LogicalState(WAITING, card - runnings, []);
      case All =>
        if total == runnings {
          return JL.LogicalState(RUNNING, 0, JL.TriggersOf(ins, states, db, RUNNING));
        }
        if errors > 0 {
          return JL.LogicalState(ERROR, 0, JL.TriggersOf(ins, states, db, ERROR));
        }
        return JL.LogicalState(WAITING, total - runningDepth, []);
    }
  }

  /**
   The verdict on a join as the engine computes it, through the cache.  No
   lookup of a direct predecessor can miss the cache.
   */
  method GetJoinLogicalState(s: Spec, db: JL.Table, j: Name) returns (r: JL.LogicalState)
    requires Valid(s) && Acyclic(s) && IsJoin(s, j)
    ensures r == JL.JoinLogicalState(s, db, j)
  {
    var ins := Inbound(s, j);
    if ins == [] {
      return JL.LogicalState(RUNNING, 0, []);
    }
    var states := CollectInducedStates(s, db, j, ins);
    r := Decide(s.tasks[j].join, ins, states, db);
  }
}
