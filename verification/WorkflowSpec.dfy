/** A direct workflow definition: a finite graph of tasks and transitions. */
module WorkflowSpec {

  type Name = string

  datatype Event = OnError | OnSkip | OnSuccess | OnComplete

  /** One entry of an "on-..." clause: where to go, and whether a condition guards it. */
  datatype Transition = Transition(to: Name, guarded: bool)

  /** "join: one" is Count(1); a join of 0 is falsy in the source and counts as no join. */
  datatype Join = NoJoin | All | Count(cardinality: nat)

  datatype TaskSpec = TaskSpec(join: Join,
                               onError: seq<Transition>,
                               onSkip: seq<Transition>,
                               onSuccess: seq<Transition>,
                               onComplete: seq<Transition>)

  /** `order` is the order in which the definition lists its tasks. */
  datatype Spec = Spec(order: seq<Name>, tasks: map<Name, TaskSpec>)

  const NOOP := "noop"
  const FAIL := "fail"
  const SUCCEED := "succeed"
  const PAUSE := "pause"
  const ENGINE_COMMANDS := {NOOP, FAIL, SUCCEED, PAUSE}

  predicate IsJoin(s: Spec, t: Name) {
    t in s.tasks && s.tasks[t].join != NoJoin
  }

  function Targets(clause: seq<Transition>): set<Name> {
    set tr | tr in clause :: tr.to
  }

  /** All names a task may lead to: other tasks and engine commands. */
  function Outbound(s: Spec, t: Name): set<Name> {
    if t !in s.tasks then {} else
      Targets(s.tasks[t].onError) + Targets(s.tasks[t].onSuccess) +
      Targets(s.tasks[t].onComplete) + Targets(s.tasks[t].onSkip)
  }

  predicate Edge(s: Spec, a: Name, b: Name) {
    a in s.tasks && b in s.tasks && b in Outbound(s, a)
  }

  function InboundAmong(s: Spec, names: seq<Name>, t: Name): (r: seq<Name>)
    ensures |r| <= |names|
    ensures forall n :: n in r <==> n in names && t in Outbound(s, n)
  {
    if names == [] then []
    else (if t in Outbound(s, names[0]) then [names[0]] else []) + InboundAmong(s, names[1..], t)
  }

  /** The tasks with a transition to t, in definition order. */
  function Inbound(s: Spec, t: Name): (r: seq<Name>)
    ensures |r| <= |s.order|
    ensures forall n :: n in r <==> n in s.order && t in Outbound(s, n)
  {
    InboundAmong(s, s.order, t)
  }

  /** What validation of a definition guarantees, apart from having a start task. */
  ghost predicate Valid(s: Spec) {
    && (forall n :: n in s.order <==> n in s.tasks)
    && (forall i, j :: 0 <= i < j < |s.order| ==> s.order[i] != s.order[j])
    && s.tasks.Keys !! ENGINE_COMMANDS
    && (forall t, n :: t in s.tasks && n in Outbound(s, t) ==> n in s.tasks || n in ENGINE_COMMANDS)
    && (forall t :: t in s.tasks && s.tasks[t].join.Count? ==> s.tasks[t].join.cardinality >= 1)
  }

  lemma InboundIsEdge(s: Spec, a: Name, t: Name)
    requires Valid(s) && t in s.tasks
    ensures a in Inbound(s, t) <==> Edge(s, a, t)
  {
  }

  // ---------- paths ----------

  ghost predicate Path(s: Spec, p: seq<Name>) {
    |p| >= 1 && forall i :: 0 <= i < |p| - 1 ==> Edge(s, p[i], p[i + 1])
  }

  ghost predicate PathFromTo(s: Spec, p: seq<Name>, a: Name, b: Name) {
    |p| >= 2 && p[0] == a && p[|p| - 1] == b && Path(s, p)
  }

  ghost predicate Reaches(s: Spec, a: Name, b: Name) {
    exists p :: PathFromTo(s, p, a, b)
  }

  ghost predicate Acyclic(s: Spec) {
    forall a :: !Reaches(s, a, a)
  }

  lemma EdgeReaches(s: Spec, a: Name, b: Name)
    requires Edge(s, a, b)
    ensures Reaches(s, a, b)
  {
    assert PathFromTo(s, [a, b], a, b);
  }

  lemma ReachesTransitive(s: Spec, a: Name, b: Name, c: Name)
    requires Reaches(s, a, b) && Reaches(s, b, c)
    ensures Reaches(s, a, c)
  {
    var p :| PathFromTo(s, p, a, b);
    var q :| PathFromTo(s, q, b, c);
    var r := p + q[1..];
    forall i | 0 <= i < |r| - 1
      ensures Edge(s, r[i], r[i + 1])
    {
      if i < |p| - 1 {
        assert r[i] == p[i] && r[i + 1] == p[i + 1];
      } else {
        assert r[i] == q[i - (|p| - 1)] && r[i + 1] == q[i - (|p| - 1) + 1];
      }
    }
    assert PathFromTo(s, r, a, c);
  }

  /** All tasks from which t can be reached. */
  ghost function Upstream(s: Spec, t: Name): set<Name> {
    set a | a in s.tasks && Reaches(s, a, t)
  }

  lemma UpstreamShrinks(s: Spec, a: Name, b: Name)
    requires Acyclic(s) && Reaches(s, a, b) && a in s.tasks
    ensures Upstream(s, a) < Upstream(s, b)
  {
    forall x | x in Upstream(s, a)
      ensures x in Upstream(s, b)
    {
      ReachesTransitive(s, x, a, b);
    }
    assert a in Upstream(s, b) && a !in Upstream(s, a);
  }

  /** Every nonempty set of tasks of an acyclic graph has a member no other member leads to. */
  lemma MinimalTask(s: Spec, W: set<Name>, start: Name) returns (w: Name)
    requires Acyclic(s) && start in W && W <= s.tasks.Keys
    ensures w in W && forall x :: x in W ==> !Reaches(s, x, w)
    decreases Upstream(s, start)
  {
    if x :| x in W && Reaches(s, x, start) {
      UpstreamShrinks(s, x, start);
      w := MinimalTask(s, W, x);
    } else {
      w := start;
    }
  }
}
