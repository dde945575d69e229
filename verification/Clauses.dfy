/**
 What the end of a task leads to, read off the clauses of its definition: which
 transitions are taken, in which order, which of them a dispatch reaches, and
 whether an error counts as handled.
 */
module Clauses {
  import opened States
  import opened WorkflowSpec
  import opened JoinLogic
  import opened DirectRun

  // ---------- places in the definition ----------

  /** An entry of an "on-..." clause of a task. */
  datatype Place = Place(event: Event, index: nat)

  function Clause(spec: TaskSpec, event: Event): seq<Transition> {
    match event
    case OnError => spec.onError
    case OnSkip => spec.onSkip
    case OnSuccess => spec.onSuccess
    case OnComplete => spec.onComplete
  }

  /** The clause for what happened comes before "on-complete"; a skipped task may fall back to "on-success". */
  function Rank(event: Event): nat {
    match event
    case OnError => 0
    case OnSkip => 0
    case OnSuccess => 1
    case OnComplete => 2
  }

  predicate Ahead(p: Place, q: Place) {
    Rank(p.event) < Rank(q.event) || (p.event == q.event && p.index < q.index)
  }

  /** The condition of the entry, if it has one, holds. */
  predicate Holds(spec: TaskSpec, p: Place, holds: set<NextTask>) {
    p.index < |Clause(spec, p.event)| &&
    var tr := Clause(spec, p.event)[p.index];
    !tr.guarded || NextTask(tr.to, p.event) in holds
  }

  /** The end state consults the clause; "on-success" stands in for an "on-skip" clause without an entry that holds. */
  ghost predicate Consults(spec: TaskSpec, st: State, event: Event, holds: set<NextTask>) {
    match event
    case OnError => st == ERROR
    case OnSkip => st == SKIPPED
    case OnSuccess => st == SUCCESS || (st == SKIPPED && forall i: nat :: !Holds(spec, Place(OnSkip, i), holds))
    case OnComplete => st in {SUCCESS, ERROR}
  }

  ghost predicate Taken(spec: TaskSpec, st: State, p: Place, holds: set<NextTask>) {
    Consults(spec, st, p.event, holds) && Holds(spec, p, holds)
  }

  function Target(spec: TaskSpec, p: Place): NextTask
    requires p.index < |Clause(spec, p.event)|
  {
    NextTask(Clause(spec, p.event)[p.index].to, p.event)
  }

  /** The commands are those of the places, one for each, and no place is ahead of an earlier one. */
  ghost predicate Follows(spec: TaskSpec, cmds: seq<NextTask>, places: seq<Place>) {
    && |cmds| == |places|
    && (forall i :: 0 <= i < |cmds| ==>
          places[i].index < |Clause(spec, places[i].event)| && cmds[i] == Target(spec, places[i]))
    && (forall i, k :: 0 <= i < k < |places| ==> Ahead(places[i], places[k]))
  }

  // ---------- the commands found ----------

  /** The places of one clause from lo on whose conditions hold. */
  function PlacesFrom(spec: TaskSpec, event: Event, lo: nat, holds: set<NextTask>): (r: seq<Place>)
    ensures forall p :: p in r <==> p.event == event && lo <= p.index && Holds(spec, p, holds)
    ensures forall k :: 0 <= k < |r| ==> r[k].event == event && lo <= r[k].index
    ensures forall i, k :: 0 <= i < k < |r| ==> Ahead(r[i], r[k])
    decreases |Clause(spec, event)| - lo
  {
    if lo >= |Clause(spec, event)| then []
    else
      (if Holds(spec, Place(event, lo), holds) then [Place(event, lo)] else []) +
      PlacesFrom(spec, event, lo + 1, holds)
  }

  lemma {:induction false} ChosenFollows(spec: TaskSpec, event: Event, lo: nat, holds: set<NextTask>)
    requires lo <= |Clause(spec, event)|
    ensures Follows(spec, Chosen(Clause(spec, event)[lo..], event, holds), PlacesFrom(spec, event, lo, holds))
    decreases |Clause(spec, event)| - lo
  {
    var clause := Clause(spec, event);
    if lo < |clause| {
      ChosenFollows(spec, event, lo + 1, holds);
      assert clause[lo..][0] == clause[lo] && clause[lo..][1..] == clause[lo + 1..];
    }
  }

  lemma FollowsConcat(spec: TaskSpec, a: seq<NextTask>, p: seq<Place>, b: seq<NextTask>, q: seq<Place>)
    requires Follows(spec, a, p) && Follows(spec, b, q)
    requires forall x, y :: x in p && y in q ==> Rank(x.event) < Rank(y.event)
    ensures Follows(spec, a + b, p + q)
  {
  }

  ghost function PlacesOf(spec: TaskSpec, st: State, event: Event, holds: set<NextTask>): (r: seq<Place>)
    ensures forall p :: p in r <==> p.event == event && Taken(spec, st, p, holds)
  {
    if Consults(spec, st, event, holds) then PlacesFrom(spec, event, 0, holds) else []
  }

  ghost function Part(spec: TaskSpec, st: State, event: Event, holds: set<NextTask>): seq<NextTask> {
    if Consults(spec, st, event, holds) then Chosen(Clause(spec, event), event, holds) else []
  }

  lemma PartFollows(spec: TaskSpec, st: State, event: Event, holds: set<NextTask>)
    ensures Follows(spec, Part(spec, st, event, holds), PlacesOf(spec, st, event, holds))
  {
    ChosenFollows(spec, event, 0, holds);
    assert Clause(spec, event)[0..] == Clause(spec, event);
  }

  lemma SkipsMean(spec: TaskSpec, holds: set<NextTask>)
    ensures Chosen(spec.onSkip, OnSkip, holds) == [] <==> forall i: nat :: !Holds(spec, Place(OnSkip, i), holds)
  {
    ChosenFollows(spec, OnSkip, 0, holds);
    assert spec.onSkip[0..] == spec.onSkip;
    var places := PlacesFrom(spec, OnSkip, 0, holds);
    if i: nat :| Holds(spec, Place(OnSkip, i), holds) {
      assert Place(OnSkip, i) in places;
    }
    if places != [] {
      assert Holds(spec, Place(OnSkip, places[0].index), holds) by { assert places[0] in places; }
    }
  }

  lemma PartsFound(s: Spec, t: Name, st: State, holds: set<NextTask>)
    requires t in s.tasks && IsCompleted(st)
    ensures var spec := s.tasks[t];
            FindNextTasks(s, t, st, holds) ==
            Part(spec, st, OnError, holds) + Part(spec, st, OnSkip, holds) + Part(spec, st, OnSuccess, holds) +
            Part(spec, st, OnComplete, holds)
  {
    SkipsMean(s.tasks[t], holds);
  }

  ghost predicate AllOf(places: seq<Place>, event: Event) {
    forall p :: p in places ==> p.event == event
  }

  /** The clauses behind one another, of which those for an error and a skip are not both consulted. */
  lemma FollowsAll(spec: TaskSpec, ce: seq<NextTask>, e: seq<Place>, ck: seq<NextTask>, k: seq<Place>,
                   cu: seq<NextTask>, u: seq<Place>, cc: seq<NextTask>, c: seq<Place>)
    requires Follows(spec, ce, e) && Follows(spec, ck, k) && Follows(spec, cu, u) && Follows(spec, cc, c)
    requires AllOf(e, OnError) && AllOf(k, OnSkip) && AllOf(u, OnSuccess) && AllOf(c, OnComplete)
    requires e == [] || k == []
    ensures Follows(spec, ce + ck + cu + cc, e + k + u + c)
  {
    FollowsConcat(spec, ce, e, ck, k);
    FollowsConcat(spec, ce + ck, e + k, cu, u);
    FollowsConcat(spec, ce + ck + cu, e + k + u, cc, c);
  }

  /**
   The commands found at the end of a task are the targets of exactly the
   places taken: those for an error or a skip first, then those for success, then
   those for completion, each clause in its own order.
   */
  lemma FoundInOrder(s: Spec, t: Name, st: State, holds: set<NextTask>) returns (places: seq<Place>)
    requires t in s.tasks && IsCompleted(st)
    ensures Follows(s.tasks[t], FindNextTasks(s, t, st, holds), places)
    ensures forall p :: p in places <==> Taken(s.tasks[t], st, p, holds)
  {
    var spec := s.tasks[t];
    PartsFound(s, t, st, holds);
    PartFollows(spec, st, OnError, holds);
    PartFollows(spec, st, OnSkip, holds);
    PartFollows(spec, st, OnSuccess, holds);
    PartFollows(spec, st, OnComplete, holds);
    places := AllPlaces(spec, st, holds);
    FollowsAll(spec, Part(spec, st, OnError, holds), PlacesOf(spec, st, OnError, holds),
               Part(spec, st, OnSkip, holds), PlacesOf(spec, st, OnSkip, holds),
               Part(spec, st, OnSuccess, holds), PlacesOf(spec, st, OnSuccess, holds),
               Part(spec, st, OnComplete, holds), PlacesOf(spec, st, OnComplete, holds));
  }

  ghost function AllPlaces(spec: TaskSpec, st: State, holds: set<NextTask>): (r: seq<Place>)
    ensures forall p :: p in r <==> Taken(spec, st, p, holds)
  {
    PlacesOf(spec, st, OnError, holds) + PlacesOf(spec, st, OnSkip, holds) + PlacesOf(spec, st, OnSuccess, holds) +
    PlacesOf(spec, st, OnComplete, holds)
  }

  // ---------- what a dispatch reaches ----------

  predicate Stops(n: NextTask) {
    n.name in {FAIL, SUCCEED, PAUSE}
  }

  /** The place is taken, and no place ahead of it that is taken changes the state of the workflow. */
  ghost predicate Reached(spec: TaskSpec, st: State, p: Place, holds: set<NextTask>) {
    && Taken(spec, st, p, holds)
    && forall q :: Taken(spec, st, q, holds) && Ahead(q, p) ==> !Stops(Target(spec, q))
  }

  lemma {:induction false} LaunchedIndex(cmds: seq<NextTask>, x: Name)
    ensures x in Launched(cmds) <==> exists i :: LaunchesAt(cmds, x, i)
  {
    if cmds == [] {
    } else {
      LaunchedIndex(cmds[1..], x);
      if i :| LaunchesAt(cmds[1..], x, i) {
        assert !ChangesState(cmds[0]) ==> LaunchesAt(cmds, x, i + 1);
      }
      if i :| LaunchesAt(cmds, x, i) {
        if i == 0 {
        } else {
          assert !ChangesState(cmds[0]);
          assert forall k :: 0 <= k <= i - 1 ==> cmds[1..][k] == cmds[k + 1];
          assert LaunchesAt(cmds[1..], x, i - 1);
        }
      }
      if !ChangesState(cmds[0]) && cmds[0].name == x && x != NOOP {
        assert LaunchesAt(cmds, x, 0);
      }
    }
  }

  ghost predicate LaunchesAt(cmds: seq<NextTask>, x: Name, i: int) {
    && 0 <= i < |cmds| && cmds[i].name == x && x != NOOP
    && forall k :: 0 <= k <= i ==> !ChangesState(cmds[k])
  }

  /** Places are in the order in which the commands were found. */
  lemma FollowsIsOrder(spec: TaskSpec, cmds: seq<NextTask>, places: seq<Place>, i: int, k: int)
    requires Follows(spec, cmds, places) && 0 <= i < |places| && 0 <= k < |places|
    ensures Ahead(places[i], places[k]) <==> i < k
  {
  }

  lemma ReachedAt(spec: TaskSpec, st: State, holds: set<NextTask>, cmds: seq<NextTask>, places: seq<Place>, i: int)
    requires Follows(spec, cmds, places) && 0 <= i < |cmds|
    requires forall p :: p in places <==> Taken(spec, st, p, holds)
    ensures Reached(spec, st, places[i], holds) <==> forall k :: 0 <= k < i ==> !ChangesState(cmds[k])
  {
    assert places[i] in places;
    forall q | Taken(spec, st, q, holds) && Ahead(q, places[i])
      ensures exists k :: 0 <= k < i && places[k] == q
    {
      var k :| 0 <= k < |places| && places[k] == q;
      FollowsIsOrder(spec, cmds, places, k, i);
    }
    forall k | 0 <= k < i
      ensures places[k] in places && Ahead(places[k], places[i])
    {
    }
  }

  lemma LaunchedIsReached(spec: TaskSpec, st: State, holds: set<NextTask>, cmds: seq<NextTask>, places: seq<Place>,
                          x: Name, i: int)
    requires Follows(spec, cmds, places) && (forall p :: p in places <==> Taken(spec, st, p, holds))
    requires LaunchesAt(cmds, x, i)
    ensures x !in ENGINE_COMMANDS && Reached(spec, st, places[i], holds) && Target(spec, places[i]).name == x
  {
    ReachedAt(spec, st, holds, cmds, places, i);
    assert !ChangesState(cmds[i]);
  }

  lemma ReachedIsLaunched(spec: TaskSpec, st: State, holds: set<NextTask>, cmds: seq<NextTask>, places: seq<Place>,
                          x: Name, p: Place) returns (i: int)
    requires Follows(spec, cmds, places) && (forall q :: q in places <==> Taken(spec, st, q, holds))
    requires x !in ENGINE_COMMANDS && Reached(spec, st, p, holds) && Target(spec, p).name == x
    ensures LaunchesAt(cmds, x, i)
  {
    assert p in places;
    i :| 0 <= i < |places| && places[i] == p;
    ReachedAt(spec, st, holds, cmds, places, i);
  }

  /**
   Exactly those tasks are launched at the end of a task that are the target of a
   place taken which no state change is ahead of.
   */
  lemma LaunchedMeans(s: Spec, t: Name, st: State, holds: set<NextTask>, x: Name)
    requires t in s.tasks && IsCompleted(st)
    ensures x in Launched(FindNextTasks(s, t, st, holds)) <==>
            x !in ENGINE_COMMANDS &&
            exists p :: Reached(s.tasks[t], st, p, holds) && Target(s.tasks[t], p).name == x
  {
    var places := FoundInOrder(s, t, st, holds);
    var spec, cmds := s.tasks[t], FindNextTasks(s, t, st, holds);
    LaunchedIndex(cmds, x);
    if x in Launched(cmds) {
      var i :| LaunchesAt(cmds, x, i);
      LaunchedIsReached(spec, st, holds, cmds, places, x, i);
    }
    if p :| x !in ENGINE_COMMANDS && Reached(spec, st, p, holds) && Target(spec, p).name == x {
      var i := ReachedIsLaunched(spec, st, holds, cmds, places, x, p);
    }
  }

  /** The state that an engine command asks for. */
  function AskedFor(x: Name): State
    requires x in {FAIL, SUCCEED, PAUSE}
  {
    if x == FAIL then ERROR else if x == SUCCEED then SUCCESS else PAUSED
  }

  lemma {:induction false} StateAfterIndex(cmds: seq<NextTask>, wf: State)
    ensures (forall k :: 0 <= k < |cmds| ==> !ChangesState(cmds[k])) ==> StateAfter(cmds, wf) == wf
    ensures forall i ::
              0 <= i < |cmds| && ChangesState(cmds[i]) && (forall k :: 0 <= k < i ==> !ChangesState(cmds[k])) ==>
              StateAfter(cmds, wf) == AskedFor(cmds[i].name)
  {
    if cmds == [] {
    } else {
      StateAfterIndex(cmds[1..], wf);
      assert forall k :: 0 <= k < |cmds| - 1 ==> cmds[1..][k] == cmds[k + 1];
    }
  }

  /** The state of the workflow changes as the first place taken with a state change asks, and not without one. */
  lemma StateAfterMeans(s: Spec, t: Name, st: State, holds: set<NextTask>, wf: State)
    requires t in s.tasks && IsCompleted(st)
    ensures var spec, wf' := s.tasks[t], StateAfter(FindNextTasks(s, t, st, holds), wf);
            && ((forall p :: Taken(spec, st, p, holds) ==> !Stops(Target(spec, p))) ==> wf' == wf)
            && (forall p :: Reached(spec, st, p, holds) && Stops(Target(spec, p)) ==>
                  wf' == AskedFor(Target(spec, p).name))
  {
    var places := FoundInOrder(s, t, st, holds);
    StateAfterIndex(FindNextTasks(s, t, st, holds), wf);
    StatePlaces(s.tasks[t], st, holds, FindNextTasks(s, t, st, holds), places, wf);
  }

  lemma StatePlaces(spec: TaskSpec, st: State, holds: set<NextTask>, cmds: seq<NextTask>, places: seq<Place>, wf: State)
    requires Follows(spec, cmds, places) && forall p :: p in places <==> Taken(spec, st, p, holds)
    ensures (forall p :: Taken(spec, st, p, holds) ==> !Stops(Target(spec, p))) ==> StateAfter(cmds, wf) == wf
    ensures forall p :: Reached(spec, st, p, holds) && Stops(Target(spec, p)) ==>
              StateAfter(cmds, wf) == AskedFor(Target(spec, p).name)
  {
    StateAfterIndex(cmds, wf);
    assert forall k :: 0 <= k < |places| ==> places[k] in places;
    forall p | Reached(spec, st, p, holds) && Stops(Target(spec, p))
      ensures StateAfter(cmds, wf) == AskedFor(Target(spec, p).name)
    {
      assert p in places;
      var i :| 0 <= i < |places| && places[i] == p;
      ReachedAt(spec, st, holds, cmds, places, i);
      assert ChangesState(cmds[i]);
    }
  }

  // ---------- handled errors ----------

  /** Some "on-error" entry of the task is there under a condition that holds, or without one. */
  ghost predicate ListsError(s: Spec, t: Name, holds: set<NextTask>)
    requires t in s.tasks
  {
    exists tr :: tr in s.tasks[t].onError && (!tr.guarded || NextTask(tr.to, OnError) in holds)
  }

  lemma HandlesErrorMeans(s: Spec, t: Name, holds: set<NextTask>)
    requires t in s.tasks
    ensures HandlesError(FindNextTasks(s, t, ERROR, holds)) <==> ListsError(s, t, holds)
  {
    var spec, cmds := s.tasks[t], FindNextTasks(s, t, ERROR, holds);
    if n :| n in cmds && n.event == OnError {
      NextTasksMean(s, t, ERROR, holds, n);
    }
    if tr :| tr in spec.onError && (!tr.guarded || NextTask(tr.to, OnError) in holds) {
      NextTasksMean(s, t, ERROR, holds, NextTask(tr.to, OnError));
      assert NextTask(tr.to, OnError) in cmds;
    }
  }
}
