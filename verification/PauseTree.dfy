/**
 Pausing and resuming a tree of workflow executions.  A workflow pauses its
 sub-workflows before itself and then reports to the task that started it,
 which pauses the workflow above, so the calls run down and up the tree.
 */
module PauseTree {
  import opened States

  type WfId = nat
  type TaskId = nat

  /**
   `tasks` of a workflow, `subs` of a task, and back: the `owner` of a task, the
   task that is the `starter` of a sub-workflow.  `created` is the order of creation.
   */
  datatype Tree = Tree(root: WfId,
                       workflows: set<WfId>,
                       taskIds: set<TaskId>,
                       tasks: WfId -> seq<TaskId>,
                       subs: TaskId -> seq<WfId>,
                       owner: TaskId -> WfId,
                       starter: WfId -> TaskId,
                       created: WfId -> nat)

  predicate IsSub(t: Tree, c: WfId) {
    c in t.workflows && c != t.root
  }

  function Parent(t: Tree, c: WfId): WfId {
    t.owner(t.starter(c))
  }

  /** The links agree, and a sub-workflow is created after the workflow that starts it. */
  ghost predicate WellFormed(t: Tree) {
    && t.root in t.workflows
    && (forall w, k {:trigger k in t.tasks(w)} :: w in t.workflows && k in t.tasks(w) ==>
          k in t.taskIds && t.owner(k) == w)
    && (forall k {:trigger t.owner(k)} :: k in t.taskIds ==> t.owner(k) in t.workflows && k in t.tasks(t.owner(k)))
    && (forall k, c {:trigger c in t.subs(k)} :: k in t.taskIds && c in t.subs(k) ==> IsSub(t, c) && t.starter(c) == k)
    && (forall c {:trigger t.starter(c)} :: IsSub(t, c) ==> t.starter(c) in t.taskIds && c in t.subs(t.starter(c)))
    && (forall c {:trigger t.starter(c)} :: IsSub(t, c) ==> t.created(t.owner(t.starter(c))) < t.created(c))
  }

  datatype Operation = Pause(w: WfId) | Resume(w: WfId)

  type WfStates = map<WfId, State>
  type TaskStates = map<TaskId, State>

  /** Every live workflow runs or is paused, and the workflow above a live one is live. */
  ghost predicate Live(t: Tree, wf: WfStates)
    requires WellFormed(t)
  {
    && wf.Keys == t.workflows
    && (forall w :: w in wf ==> wf[w] in {RUNNING, PAUSED} || IsCompleted(wf[w]))
    && (forall c {:trigger t.starter(c)} :: IsSub(t, c) && !IsCompleted(wf[c]) ==> !IsCompleted(wf[Parent(t, c)]))
  }

  /** Below a workflow in state st, every live workflow is in state st. */
  ghost predicate Closed(t: Tree, wf: WfStates, st: State)
    requires WellFormed(t) && wf.Keys == t.workflows
  {
    forall c {:trigger t.starter(c)} :: IsSub(t, c) && wf[Parent(t, c)] == st && !IsCompleted(wf[c]) ==> wf[c] == st
  }

  ghost predicate AllLiveAre(wf: WfStates, st: State) {
    forall w :: w in wf && !IsCompleted(wf[w]) ==> wf[w] == st
  }

  /** Workflows only move from one state to the other. */
  ghost predicate OnlyMoves(wf: WfStates, wf': WfStates, from: State, to: State) {
    wf'.Keys == wf.Keys && forall w :: w in wf ==> wf'[w] == wf[w] || (wf[w] == from && wf'[w] == to)
  }

  ghost function In(wf: WfStates, st: State): set<WfId> {
    set w | w in wf && wf[w] == st
  }

  ghost function Younger(t: Tree, w: WfId): set<WfId>
    requires WellFormed(t) && w in t.workflows
  {
    set x | x in t.workflows && t.created(x) > t.created(w)
  }

  lemma ChildIsYounger(t: Tree, c: WfId)
    requires WellFormed(t) && IsSub(t, c)
    ensures Younger(t, c) < Younger(t, Parent(t, c))
  {
    assert c in Younger(t, Parent(t, c));
  }

  /** If the root is in state st and the tree is closed, all live workflows are. */
  lemma {:induction false} RootDecides(t: Tree, wf: WfStates, st: State, w: WfId)
    requires WellFormed(t) && Live(t, wf) && Closed(t, wf, st) && wf[t.root] == st && !IsCompleted(st)
    requires w in wf && !IsCompleted(wf[w])
    ensures wf[w] == st
    decreases t.created(w)
  {
    if w != t.root {
      RootDecides(t, wf, st, Parent(t, w));
    }
  }

  lemma RootDecidesAll(t: Tree, wf: WfStates, st: State)
    requires WellFormed(t) && Live(t, wf) && Closed(t, wf, st) && wf[t.root] == st && !IsCompleted(st)
    ensures AllLiveAre(wf, st)
  {
    forall w | w in wf && !IsCompleted(wf[w])
      ensures wf[w] == st
    {
      RootDecides(t, wf, st, w);
    }
  }

  /** The task that started w, and through it the workflow above, has a sub-workflow that moved. */
  ghost predicate SubMoved(t: Tree, k: TaskId, wf: WfStates, wf': WfStates, from: State, to: State)
    requires WellFormed(t) && wf.Keys == wf'.Keys == t.workflows
  {
    exists c {:trigger t.starter(c)} :: IsSub(t, c) && t.starter(c) == k && wf[c] == from && wf'[c] == to
  }

  /** Running tasks above a newly paused workflow are paused; no other task changes. */
  ghost predicate TasksFollow(t: Tree, wf: WfStates, task: TaskStates, wf': WfStates, task': TaskStates)
    requires WellFormed(t) && wf.Keys == wf'.Keys == t.workflows
  {
    && task.Keys == task'.Keys == t.taskIds
    && forall k :: k in task ==>
         task'[k] == if task[k] == RUNNING && SubMoved(t, k, wf, wf', RUNNING, PAUSED) then PAUSED else task[k]
  }

  /** What pausing may have done so far. */
  ghost predicate PausedSome(t: Tree, wf: WfStates, task: TaskStates, wf': WfStates, task': TaskStates)
    requires WellFormed(t) && wf.Keys == t.workflows
  {
    OnlyMoves(wf, wf', RUNNING, PAUSED) && TasksFollow(t, wf, task, wf', task')
  }

  lemma PausedSomeTransitive(t: Tree, a: WfStates, ta: TaskStates, b: WfStates, tb: TaskStates, c: WfStates,
                             tc: TaskStates)
    requires WellFormed(t) && a.Keys == b.Keys == t.workflows
    requires PausedSome(t, a, ta, b, tb) && PausedSome(t, b, tb, c, tc)
    ensures PausedSome(t, a, ta, c, tc)
  {
    forall k | k in ta
      ensures tc[k] == if ta[k] == RUNNING && SubMoved(t, k, a, c, RUNNING, PAUSED) then PAUSED else ta[k]
    {
      if SubMoved(t, k, a, c, RUNNING, PAUSED) {
        var x :| IsSub(t, x) && t.starter(x) == k && a[x] == RUNNING && c[x] == PAUSED;
        assert b[x] == RUNNING || b[x] == PAUSED;
        assert SubMoved(t, k, a, b, RUNNING, PAUSED) || SubMoved(t, k, b, c, RUNNING, PAUSED);
      }
    }
  }

  /** Pausing w itself and then the task above it. */
  lemma PauseOne(t: Tree, wf: WfStates, task: TaskStates, w: WfId)
    requires WellFormed(t) && wf.Keys == t.workflows && task.Keys == t.taskIds
    requires w in wf && wf[w] == RUNNING
    ensures var task' := if IsSub(t, w) && task[t.starter(w)] == RUNNING then task[t.starter(w) := PAUSED] else task;
            PausedSome(t, wf, task, wf[w := PAUSED], task')
  {
    var wf' := wf[w := PAUSED];
    if IsSub(t, w) {
      assert SubMoved(t, t.starter(w), wf, wf', RUNNING, PAUSED);
    }
    forall k | k in task && SubMoved(t, k, wf, wf', RUNNING, PAUSED)
      ensures IsSub(t, w) && t.starter(w) == k
    {
      var c :| IsSub(t, c) && t.starter(c) == k && wf[c] == RUNNING && wf'[c] == PAUSED;
    }
  }

  // ---------- how far a pause reaches ----------

  /** x is q or a sub-workflow of it, at any depth. */
  ghost predicate Below(t: Tree, q: WfId, x: WfId)
    requires WellFormed(t) && x in t.workflows
    decreases t.created(x)
  {
    x == q || (IsSub(t, x) && Below(t, q, Parent(t, x)))
  }

  ghost function Sub(t: Tree, q: WfId): set<WfId>
    requires WellFormed(t)
  {
    set x | x in t.workflows && Below(t, q, x)
  }

  /** The nearest paused workflow from w upwards, or else the root. */
  ghost function Top(t: Tree, wf: WfStates, w: WfId): (q: WfId)
    requires WellFormed(t) && wf.Keys == t.workflows && w in wf
    ensures q in wf
    decreases t.created(w)
  {
    if wf[w] == PAUSED || !IsSub(t, w) then w else Top(t, wf, Parent(t, w))
  }

  ghost function Reach(t: Tree, wf: WfStates, w: WfId): set<WfId>
    requires WellFormed(t) && wf.Keys == t.workflows && w in wf
  {
    Sub(t, Top(t, wf, w))
  }

  /** The live workflows among these are paused. */
  ghost function PauseAll(wf: WfStates, some: set<WfId>): WfStates {
    map x | x in wf :: if x in some && !IsCompleted(wf[x]) then PAUSED else wf[x]
  }

  lemma PauseAllTwice(wf: WfStates, a: set<WfId>, b: set<WfId>)
    ensures PauseAll(PauseAll(wf, a), b) == PauseAll(wf, a + b)
  {
  }

  lemma PauseAllKeepsLive(t: Tree, wf: WfStates, some: set<WfId>)
    requires WellFormed(t) && Live(t, wf)
    ensures Live(t, PauseAll(wf, some))
  {
    forall c | IsSub(t, c) && !IsCompleted(PauseAll(wf, some)[c])
      ensures !IsCompleted(PauseAll(wf, some)[Parent(t, c)])
    {
      assert t.starter(c) in t.taskIds;
    }
  }

  lemma PauseOneKeepsLive(t: Tree, wf: WfStates, w: WfId)
    requires WellFormed(t) && Live(t, wf) && w in wf && !IsCompleted(wf[w])
    ensures Live(t, wf[w := PAUSED]) && (IsSub(t, w) ==> Parent(t, w) != w && !IsCompleted(wf[Parent(t, w)]))
  {
    assert wf[w := PAUSED] == PauseAll(wf, {w});
    PauseAllKeepsLive(t, wf, {w});
  }

  lemma {:induction false} BelowTransitive(t: Tree, a: WfId, b: WfId, c: WfId)
    requires WellFormed(t) && b in t.workflows && c in t.workflows && Below(t, a, b) && Below(t, b, c)
    ensures Below(t, a, c)
    decreases t.created(c)
  {
    if c == b {
    } else {
      BelowTransitive(t, a, b, Parent(t, c));
    }
  }

  lemma {:induction false} BelowIsYounger(t: Tree, q: WfId, x: WfId)
    requires WellFormed(t) && q in t.workflows && x in t.workflows && Below(t, q, x)
    ensures t.created(q) <= t.created(x)
    decreases t.created(x)
  {
    if x == q {
    } else {
      BelowIsYounger(t, q, Parent(t, x));
    }
  }

  lemma {:induction false} BelowTop(t: Tree, wf: WfStates, w: WfId)
    requires WellFormed(t) && wf.Keys == t.workflows && w in wf
    ensures Below(t, Top(t, wf, w), w)
    decreases t.created(w)
  {
    if wf[w] == PAUSED || !IsSub(t, w) {
    } else {
      BelowTop(t, wf, Parent(t, w));
    }
  }

  lemma SubsBelow(t: Tree, a: WfId, b: WfId)
    requires WellFormed(t) && b in t.workflows && Below(t, a, b)
    ensures Sub(t, b) <= Sub(t, a)
  {
    forall x | x in Sub(t, b)
      ensures x in Sub(t, a)
    {
      BelowTransitive(t, a, b, x);
    }
  }

  lemma SubInReach(t: Tree, wf: WfStates, w: WfId)
    requires WellFormed(t) && wf.Keys == t.workflows && w in wf
    ensures w in Sub(t, w) && Sub(t, w) <= Reach(t, wf, w)
  {
    BelowTop(t, wf, w);
    SubsBelow(t, Top(t, wf, w), w);
  }

  /** Nothing live is below a completed workflow. */
  lemma {:induction false} NothingLiveBelow(t: Tree, wf: WfStates, c: WfId, x: WfId)
    requires WellFormed(t) && Live(t, wf) && c in wf && IsCompleted(wf[c]) && x in wf && Below(t, c, x)
    ensures IsCompleted(wf[x])
    decreases t.created(x)
  {
    if x == c {
    } else {
      NothingLiveBelow(t, wf, c, Parent(t, x));
    }
  }

  /** The nearest paused workflow upwards stays if only workflows that are not above w change. */
  lemma {:induction false} TopStays(t: Tree, wf: WfStates, wf': WfStates, w: WfId)
    requires WellFormed(t) && wf.Keys == wf'.Keys == t.workflows && w in wf
    requires forall x :: x in wf && t.created(x) <= t.created(w) ==> wf'[x] == wf[x]
    ensures Top(t, wf', w) == Top(t, wf, w)
    decreases t.created(w)
  {
    if wf[w] == PAUSED || !IsSub(t, w) {
    } else {
      TopStays(t, wf, wf', Parent(t, w));
    }
  }

  ghost predicate AreSubsOf(t: Tree, some: set<WfId>, w: WfId) {
    forall c :: c in some ==> IsSub(t, c) && Parent(t, c) == w
  }

  ghost function Under(t: Tree, some: set<WfId>): set<WfId>
    requires WellFormed(t)
  {
    set x, c | x in t.workflows && c in some && Below(t, c, x) :: x
  }

  /** After pausing some sub-workflows of w: they with all below, or, if one of them was running, all that w reaches. */
  ghost predicate PausedUnder(t: Tree, wf: WfStates, wf': WfStates, w: WfId, some: set<WfId>)
    requires WellFormed(t) && wf.Keys == t.workflows && w in wf
  {
    wf' == PauseAll(wf, Reach(t, wf, w)) || wf' == PauseAll(wf, Under(t, some))
  }

  lemma UnderIsBelow(t: Tree, wf: WfStates, w: WfId, some: set<WfId>)
    requires WellFormed(t) && wf.Keys == t.workflows && w in wf && AreSubsOf(t, some, w)
    ensures Under(t, some) <= Sub(t, w) <= Reach(t, wf, w)
    ensures forall x :: x in Under(t, some) ==> t.created(w) < t.created(x)
  {
    forall x | x in Under(t, some)
      ensures x in Sub(t, w) && t.created(w) < t.created(x)
    {
      var c :| c in some && Below(t, c, x);
      assert Below(t, w, Parent(t, c));
      BelowTransitive(t, w, c, x);
      BelowIsYounger(t, c, x);
    }
    SubInReach(t, wf, w);
  }

  lemma PausedUnderNone(t: Tree, wf: WfStates, w: WfId)
    requires WellFormed(t) && wf.Keys == t.workflows && w in wf
    ensures PausedUnder(t, wf, wf, w, {})
  {
    assert PauseAll(wf, Under(t, {})) == wf;
  }

  lemma PauseMore(wf: WfStates, a: set<WfId>, b: set<WfId>)
    requires b <= a
    ensures PauseAll(PauseAll(wf, a), b) == PauseAll(wf, a) && PauseAll(PauseAll(wf, b), a) == PauseAll(wf, a)
  {
  }

  /** One sub-workflow after another. */
  lemma PausedUnderMore(t: Tree, a: WfStates, b: WfStates, c: WfStates, w: WfId, some: set<WfId>, more: set<WfId>)
    requires WellFormed(t) && Live(t, a) && w in a && !IsCompleted(a[w])
    requires AreSubsOf(t, some, w) && AreSubsOf(t, more, w)
    requires PausedUnder(t, a, b, w, some) && PausedUnder(t, b, c, w, more)
    ensures PausedUnder(t, a, c, w, some + more)
  {
    var reach := Reach(t, a, w);
    UnderIsBelow(t, a, w, some);
    UnderIsBelow(t, a, w, more);
    if b == PauseAll(a, reach) {
      assert b[w] == PAUSED && Reach(t, b, w) == Sub(t, w);
      PauseMore(a, reach, Sub(t, w));
      PauseMore(a, reach, Under(t, more));
    } else {
      TopStays(t, a, b, w);
      PauseMore(a, reach, Under(t, some));
      PauseAllTwice(a, Under(t, some), Under(t, more));
      assert Under(t, some) + Under(t, more) == Under(t, some + more);
    }
  }

  /** Pausing a sub-workflow of w, unless it is completed. */
  lemma PausedUnderOne(t: Tree, wf: WfStates, wf': WfStates, w: WfId, c: WfId)
    requires WellFormed(t) && Live(t, wf) && IsSub(t, c) && Parent(t, c) == w && w in wf
    requires wf' == if IsCompleted(wf[c]) then wf else PauseAll(wf, Reach(t, wf, c))
    ensures PausedUnder(t, wf, wf', w, {c})
  {
    assert Under(t, {c}) == Sub(t, c);
    if IsCompleted(wf[c]) {
      forall x | x in Sub(t, c)
        ensures IsCompleted(wf[x])
      {
        NothingLiveBelow(t, wf, c, x);
      }
      assert PauseAll(wf, Sub(t, c)) == wf;
    }
  }

  ghost function Children(t: Tree, w: WfId): set<WfId> {
    set c | c in t.workflows && IsSub(t, c) && Parent(t, c) == w
  }

  lemma {:induction false} BelowAChild(t: Tree, w: WfId, x: WfId)
    requires WellFormed(t) && x in t.workflows && Below(t, w, x) && x != w
    ensures x in Under(t, Children(t, w))
    decreases t.created(x)
  {
    if Parent(t, x) == w {
      assert Below(t, x, x) && x in Children(t, w);
    } else {
      BelowAChild(t, w, Parent(t, x));
      var c :| c in Children(t, w) && Below(t, c, Parent(t, x));
      assert Below(t, c, x);
    }
  }

  /** All live workflows below w, but not w, are paused. */
  ghost predicate PausedBelow(t: Tree, wf: WfStates, w: WfId)
    requires WellFormed(t) && wf.Keys == t.workflows
  {
    forall x :: x in Sub(t, w) && x != w && !IsCompleted(wf[x]) ==> wf[x] == PAUSED
  }

  lemma ChildrenPaused(t: Tree, wf: WfStates, wf': WfStates, w: WfId)
    requires WellFormed(t) && Live(t, wf) && w in wf
    requires !IsCompleted(wf[w]) && PausedUnder(t, wf, wf', w, Children(t, w))
    ensures PausedBelow(t, wf', w) && PauseAll(wf', Reach(t, wf', w)) == PauseAll(wf, Reach(t, wf, w))
  {
    var reach := Reach(t, wf, w);
    UnderIsBelow(t, wf, w, Children(t, w));
    forall x | x in Sub(t, w) && x != w
      ensures x in Under(t, Children(t, w))
    {
      BelowAChild(t, w, x);
    }
    if wf' == PauseAll(wf, reach) {
      SubInReach(t, wf, w);
      assert wf'[w] == PAUSED && Reach(t, wf', w) == Sub(t, w);
      PauseMore(wf, reach, Sub(t, w));
    } else {
      TopStays(t, wf, wf', w);
      PauseMore(wf, reach, Under(t, Children(t, w)));
    }
  }

  /** Pausing w with all below it paused, and then the workflow above. */
  lemma PausedSelf(t: Tree, wf: WfStates, w: WfId)
    requires WellFormed(t) && Live(t, wf) && w in wf && !IsCompleted(wf[w]) && PausedBelow(t, wf, w)
    ensures wf[w] == PAUSED ==> PauseAll(wf, Reach(t, wf, w)) == wf
    ensures wf[w] == RUNNING && !IsSub(t, w) ==> PauseAll(wf, Reach(t, wf, w)) == wf[w := PAUSED]
    ensures wf[w] == RUNNING && IsSub(t, w) ==>
              PauseAll(wf[w := PAUSED], Reach(t, wf[w := PAUSED], Parent(t, w))) == PauseAll(wf, Reach(t, wf, w))
  {
    SubInReach(t, wf, w);
    if wf[w] == RUNNING {
      var wf1 := wf[w := PAUSED];
      assert wf1 == PauseAll(wf, Sub(t, w));
      if IsSub(t, w) {
        TopStays(t, wf, wf1, Parent(t, w));
        PauseMore(wf, Reach(t, wf, w), Sub(t, w));
      }
    }
  }

  /** Pausing leaves no running workflow with a paused one directly below it, if there was none. */
  lemma PauseKeepsClosed(t: Tree, wf: WfStates, w: WfId)
    requires WellFormed(t) && Live(t, wf) && Closed(t, wf, RUNNING) && w in wf
    ensures Closed(t, PauseAll(wf, Reach(t, wf, w)), RUNNING)
  {
    var q, wf' := Top(t, wf, w), PauseAll(wf, Reach(t, wf, w));
    TopIsPausedOrRoot(t, wf, w);
    forall c | IsSub(t, c) && wf'[Parent(t, c)] == RUNNING && !IsCompleted(wf'[c])
      ensures wf'[c] == RUNNING
    {
      assert t.starter(c) in t.taskIds;
      assert Parent(t, c) !in Sub(t, q) && wf[Parent(t, c)] == RUNNING;
      assert wf[c] == RUNNING && c != q;
      assert !Below(t, q, c);
    }
  }

  lemma {:induction false} TopIsPausedOrRoot(t: Tree, wf: WfStates, w: WfId)
    requires WellFormed(t) && wf.Keys == t.workflows && w in wf
    ensures wf[Top(t, wf, w)] == PAUSED || Top(t, wf, w) == t.root
    decreases t.created(w)
  {
    if wf[w] == PAUSED || !IsSub(t, w) {
    } else {
      TopIsPausedOrRoot(t, wf, Parent(t, w));
    }
  }

  lemma {:induction false} AllBelowRoot(t: Tree, x: WfId)
    requires WellFormed(t) && x in t.workflows
    ensures Below(t, t.root, x)
    decreases t.created(x)
  {
    if x == t.root {
    } else {
      AllBelowRoot(t, Parent(t, x));
    }
  }

  lemma {:induction false} RunningReachesRoot(t: Tree, wf: WfStates, w: WfId)
    requires WellFormed(t) && Live(t, wf) && AllLiveAre(wf, RUNNING) && w in wf && !IsCompleted(wf[w])
    ensures Top(t, wf, w) == t.root
    decreases t.created(w)
  {
    if w == t.root {
    } else {
      RunningReachesRoot(t, wf, Parent(t, w));
    }
  }

  /** A pause leaves nothing running exactly if all that runs is below the nearest paused workflow upwards. */
  lemma PausesAllExactly(t: Tree, wf: WfStates, w: WfId)
    requires WellFormed(t) && Live(t, wf) && w in wf
    ensures AllLiveAre(PauseAll(wf, Reach(t, wf, w)), PAUSED) <==>
            forall x :: x in wf && wf[x] == RUNNING ==> Below(t, Top(t, wf, w), x)
  {
    var wf' := PauseAll(wf, Reach(t, wf, w));
    forall x | x in wf && wf[x] == RUNNING
      ensures wf'[x] == PAUSED <==> Below(t, Top(t, wf, w), x)
    {
    }
  }

  /** Where everything live runs, a pause reaches the whole tree. */
  lemma RunningTreePauses(t: Tree, wf: WfStates, w: WfId)
    requires WellFormed(t) && Live(t, wf) && AllLiveAre(wf, RUNNING) && w in wf && !IsCompleted(wf[w])
    ensures AllLiveAre(PauseAll(wf, Reach(t, wf, w)), PAUSED)
  {
    RunningReachesRoot(t, wf, w);
    forall x | x in wf
      ensures x in Reach(t, wf, w)
    {
      AllBelowRoot(t, x);
    }
  }

  lemma SubsOfTask(t: Tree, w: WfId, k: TaskId)
    requires WellFormed(t) && w in t.workflows && k in t.tasks(w)
    ensures forall c :: c in t.subs(k) ==> c in t.workflows && IsSub(t, c) && t.starter(c) == k && Parent(t, c) == w
  {
  }

  ghost predicate AllAre(wf: WfStates, some: seq<WfId>, st: State) {
    forall c :: c in some && c in wf && !IsCompleted(wf[c]) ==> wf[c] == st
  }

  /** The live sub-workflows of these tasks are in state st. */
  ghost predicate SubsAre(t: Tree, wf: WfStates, tasks: seq<TaskId>, st: State)
    requires WellFormed(t) && wf.Keys == t.workflows
  {
    forall c {:trigger t.starter(c)} :: IsSub(t, c) && t.starter(c) in tasks && !IsCompleted(wf[c]) ==> wf[c] == st
  }

  lemma AllAreStay(wf: WfStates, wf': WfStates, some: seq<WfId>, c: WfId, from: State, to: State)
    requires OnlyMoves(wf, wf', from, to) && from != to && AllAre(wf, some, to)
    requires c in wf && !IsCompleted(wf'[c]) ==> wf'[c] == to
    ensures AllAre(wf', some + [c], to)
  {
  }

  lemma AllSubsAre(t: Tree, wf: WfStates, w: WfId, k: TaskId, st: State)
    requires WellFormed(t) && wf.Keys == t.workflows && w in t.workflows && k in t.tasks(w) && AllAre(wf, t.subs(k), st)
    ensures SubsAre(t, wf, [k], st)
  {
  }

  lemma SubsStay(t: Tree, wf: WfStates, wf': WfStates, tasks: seq<TaskId>, from: State, to: State)
    requires WellFormed(t) && wf.Keys == t.workflows && OnlyMoves(wf, wf', from, to)
    requires from != to && SubsAre(t, wf, tasks, to)
    ensures SubsAre(t, wf', tasks, to)
  {
  }

  /** Some sub-workflow started by task k is in state st. */
  ghost predicate SubIs(t: Tree, k: TaskId, wf: WfStates, st: State)
    requires WellFormed(t) && wf.Keys == t.workflows
  {
    exists c {:trigger t.starter(c)} :: IsSub(t, c) && t.starter(c) == k && wf[c] == st
  }

  lemma MovingShrinks(wf: WfStates, wf': WfStates, from: State, to: State)
    requires OnlyMoves(wf, wf', from, to) && from != to
    ensures In(wf', from) == In(wf, from) || In(wf', from) < In(wf, from)
  {
  }

  // ---------- what resuming does to tasks ----------

  /** Above a newly resumed workflow, an incomplete task runs again once none of its sub-workflows is paused. */
  ghost predicate ResumedSome(t: Tree, wf: WfStates, task: TaskStates, wf': WfStates, task': TaskStates)
    requires WellFormed(t) && wf.Keys == t.workflows
  {
    && OnlyMoves(wf, wf', PAUSED, RUNNING)
    && task.Keys == task'.Keys == t.taskIds
    && forall k :: k in task ==>
         task'[k] == if !IsCompleted(task[k]) && SubMoved(t, k, wf, wf', PAUSED, RUNNING) && !SubIs(t, k, wf', PAUSED)
                     then RUNNING else task[k]
  }

  lemma ResumedNone(t: Tree, wf: WfStates, task: TaskStates)
    requires WellFormed(t) && wf.Keys == t.workflows && task.Keys == t.taskIds
    ensures ResumedSome(t, wf, task, wf, task)
  {
    forall k | k in task
      ensures !SubMoved(t, k, wf, wf, PAUSED, RUNNING)
    {
    }
  }

  lemma ResumedSomeTransitive(t: Tree, a: WfStates, ta: TaskStates, b: WfStates, tb: TaskStates, c: WfStates,
                              tc: TaskStates)
    requires WellFormed(t) && a.Keys == b.Keys == t.workflows
    requires ResumedSome(t, a, ta, b, tb) && ResumedSome(t, b, tb, c, tc)
    ensures ResumedSome(t, a, ta, c, tc)
  {
    forall k | k in ta
      ensures SubMoved(t, k, a, c, PAUSED, RUNNING) <==>
              SubMoved(t, k, a, b, PAUSED, RUNNING) || SubMoved(t, k, b, c, PAUSED, RUNNING)
      ensures SubIs(t, k, c, PAUSED) ==> SubIs(t, k, b, PAUSED)
      ensures SubIs(t, k, b, PAUSED) && !SubIs(t, k, c, PAUSED) ==> SubMoved(t, k, b, c, PAUSED, RUNNING)
    {
      if SubMoved(t, k, a, c, PAUSED, RUNNING) {
        var x :| IsSub(t, x) && t.starter(x) == k && a[x] == PAUSED && c[x] == RUNNING;
        assert b[x] == PAUSED || b[x] == RUNNING;
      }
    }
  }

  lemma ResumeOne(t: Tree, wf: WfStates, task: TaskStates, w: WfId)
    requires WellFormed(t) && wf.Keys == t.workflows && task.Keys == t.taskIds
    requires w in wf && wf[w] == PAUSED
    ensures var wf' := wf[w := RUNNING];
            var k := t.starter(w);
            ResumedSome(t, wf, task, wf',
              if IsSub(t, w) && !IsCompleted(task[k]) && !SubIs(t, k, wf', PAUSED) then task[k := RUNNING] else task)
  {
    var wf' := wf[w := RUNNING];
    if IsSub(t, w) {
      assert SubMoved(t, t.starter(w), wf, wf', PAUSED, RUNNING);
    }
    forall k | k in task && SubMoved(t, k, wf, wf', PAUSED, RUNNING)
      ensures IsSub(t, w) && t.starter(w) == k
    {
      var c :| IsSub(t, c) && t.starter(c) == k && wf[c] == PAUSED && wf'[c] == RUNNING;
    }
  }

  lemma ResumedAnotherTask(t: Tree, a: WfStates, ta: TaskStates, b: WfStates, tb: TaskStates, c: WfStates,
                           tc: TaskStates,
                           tasks: seq<TaskId>, i: nat)
    requires WellFormed(t) && a.Keys == b.Keys == t.workflows && i < |tasks| && SubsAre(t, b, tasks[..i], RUNNING)
    requires ResumedSome(t, a, ta, b, tb) && ResumedSome(t, b, tb, c, tc) && SubsAre(t, c, [tasks[i]], RUNNING)
    ensures ResumedSome(t, a, ta, c, tc) && SubsAre(t, c, tasks[..i + 1], RUNNING)
  {
    ResumedSomeTransitive(t, a, ta, b, tb, c, tc);
    SubsStay(t, b, c, tasks[..i], PAUSED, RUNNING);
    assert tasks[..i + 1] == tasks[..i] + [tasks[i]];
  }

  lemma ResumedAnother(t: Tree, a: WfStates, ta: TaskStates, b: WfStates, tb: TaskStates, c: WfStates, tc: TaskStates,
                       subs: seq<WfId>, j: nat)
    requires WellFormed(t) && a.Keys == b.Keys == t.workflows && j < |subs| && AllAre(b, subs[..j], RUNNING)
    requires ResumedSome(t, a, ta, b, tb) && ResumedSome(t, b, tb, c, tc)
    requires subs[j] in c && !IsCompleted(c[subs[j]]) ==> c[subs[j]] == RUNNING
    ensures ResumedSome(t, a, ta, c, tc) && AllAre(c, subs[..j + 1], RUNNING)
  {
    ResumedSomeTransitive(t, a, ta, b, tb, c, tc);
    AllAreStay(b, c, subs[..j], subs[j], PAUSED, RUNNING);
    assert subs[..j + 1] == subs[..j] + [subs[j]];
  }

  // ---------- how far resuming reaches ----------

  /**
   When w is resumed, the workflow above stays paused: another of its tasks is
   paused, or the task that started w is and has another paused sub-workflow.
   */
  ghost predicate HeldBack(t: Tree, wf: WfStates, task: TaskStates, w: WfId)
    requires WellFormed(t) && wf.Keys == t.workflows && task.Keys == t.taskIds && IsSub(t, w)
  {
    exists k {:trigger task[k]} :: k in t.tasks(Parent(t, w)) && task[k] == PAUSED &&
      (k == t.starter(w) ==> OtherSubIs(t, wf, w, PAUSED))
  }

  ghost predicate OtherSubIs(t: Tree, wf: WfStates, w: WfId, st: State)
    requires WellFormed(t) && wf.Keys == t.workflows && IsSub(t, w)
  {
    exists c {:trigger t.starter(c)} :: IsSub(t, c) && c != w && t.starter(c) == t.starter(w) && wf[c] == st
  }

  /** The last workflow upwards from w that is resumed with it. */
  ghost function ResumeTop(t: Tree, wf: WfStates, task: TaskStates, w: WfId): (q: WfId)
    requires WellFormed(t) && wf.Keys == t.workflows && task.Keys == t.taskIds && w in wf
    ensures q in wf
    decreases t.created(w)
  {
    if IsSub(t, w) && wf[Parent(t, w)] == PAUSED && !HeldBack(t, wf, task, w)
    then ResumeTop(t, wf, task, Parent(t, w))
    else w
  }

  ghost function Rise(t: Tree, wf: WfStates, task: TaskStates, w: WfId): set<WfId>
    requires WellFormed(t) && wf.Keys == t.workflows && task.Keys == t.taskIds && w in wf
  {
    Sub(t, ResumeTop(t, wf, task, w))
  }

  /** The paused workflows among these run. */
  ghost function ResumeAll(wf: WfStates, some: set<WfId>): WfStates {
    map x | x in wf :: if x in some && wf[x] == PAUSED then RUNNING else wf[x]
  }

  /** What resuming w leads to. */
  ghost function Resumed(t: Tree, wf: WfStates, task: TaskStates, w: WfId): WfStates
    requires WellFormed(t) && wf.Keys == t.workflows && task.Keys == t.taskIds && w in wf
  {
    if wf[w] == PAUSED then ResumeAll(wf, Rise(t, wf, task, w)) else wf
  }

  lemma ResumeMore(wf: WfStates, a: set<WfId>, b: set<WfId>)
    requires b <= a
    ensures ResumeAll(ResumeAll(wf, a), b) == ResumeAll(wf, a)
    ensures ResumeAll(ResumeAll(wf, b), a) == ResumeAll(wf, a)
  {
  }

  lemma ResumeTwice(wf: WfStates, a: set<WfId>, b: set<WfId>)
    ensures ResumeAll(ResumeAll(wf, a), b) == ResumeAll(wf, a + b)
  {
  }

  lemma {:induction false} BelowResumeTop(t: Tree, wf: WfStates, task: TaskStates, w: WfId)
    requires WellFormed(t) && wf.Keys == t.workflows && task.Keys == t.taskIds && w in wf
    ensures Below(t, ResumeTop(t, wf, task, w), w)
    decreases t.created(w)
  {
    if IsSub(t, w) && wf[Parent(t, w)] == PAUSED && !HeldBack(t, wf, task, w) {
      BelowResumeTop(t, wf, task, Parent(t, w));
    } else {
    }
  }

  lemma SubInRise(t: Tree, wf: WfStates, task: TaskStates, w: WfId)
    requires WellFormed(t) && wf.Keys == t.workflows && task.Keys == t.taskIds && w in wf
    ensures w in Sub(t, w) && Sub(t, w) <= Rise(t, wf, task, w)
  {
    BelowResumeTop(t, wf, task, w);
    SubsBelow(t, ResumeTop(t, wf, task, w), w);
  }

  /** The same workflows and tasks except below q. */
  ghost predicate SameOutside(t: Tree, wf: WfStates, task: TaskStates, wf': WfStates, task': TaskStates, q: WfId)
    requires WellFormed(t) && wf.Keys == wf'.Keys == t.workflows && task.Keys == task'.Keys == t.taskIds
  {
    && (forall x :: x in wf && x !in Sub(t, q) ==> wf'[x] == wf[x])
    && (forall k {:trigger t.owner(k)} :: k in task && t.owner(k) !in Sub(t, q) ==> task'[k] == task[k])
  }

  lemma ParentIsNotBelow(t: Tree, q: WfId)
    requires WellFormed(t) && IsSub(t, q)
    ensures !Below(t, q, Parent(t, q)) && Parent(t, q) in t.workflows
  {
    assert t.created(t.owner(t.starter(q))) < t.created(q);
    if Below(t, q, Parent(t, q)) {
      BelowIsYounger(t, q, Parent(t, q));
    }
  }

  lemma SiblingIsNotBelow(t: Tree, q: WfId, c: WfId)
    requires WellFormed(t) && IsSub(t, q) && IsSub(t, c) && c != q && Parent(t, c) == Parent(t, q)
    ensures !Below(t, q, c)
  {
    ParentIsNotBelow(t, q);
  }

  lemma HeldBackStays(t: Tree, wf: WfStates, task: TaskStates, wf': WfStates, task': TaskStates, q: WfId)
    requires WellFormed(t) && wf.Keys == wf'.Keys == t.workflows && task.Keys == task'.Keys == t.taskIds
    requires SameOutside(t, wf, task, wf', task', q) && IsSub(t, q)
    ensures HeldBack(t, wf, task, q) <==> HeldBack(t, wf', task', q)
  {
    ParentIsNotBelow(t, q);
    forall c | IsSub(t, c) && c != q && t.starter(c) == t.starter(q)
      ensures wf'[c] == wf[c]
    {
      SiblingIsNotBelow(t, q, c);
    }
    forall k | k in t.tasks(Parent(t, q))
      ensures k in task && task'[k] == task[k]
    {
      assert t.owner(k) == Parent(t, q);
    }
  }

  lemma {:induction false} RiseStays(t: Tree, wf: WfStates, task: TaskStates, wf': WfStates, task': TaskStates, q: WfId)
    requires WellFormed(t) && wf.Keys == wf'.Keys == t.workflows && task.Keys == task'.Keys == t.taskIds
    requires SameOutside(t, wf, task, wf', task', q) && q in wf
    ensures ResumeTop(t, wf', task', q) == ResumeTop(t, wf, task, q)
    decreases t.created(q)
  {
    if IsSub(t, q) {
      ParentIsNotBelow(t, q);
      HeldBackStays(t, wf, task, wf', task', q);
      SubsBelow(t, Parent(t, q), q);
      RiseStays(t, wf, task, wf', task', Parent(t, q));
    } else {
    }
  }

  /** Below a workflow that is not paused, none is. */
  lemma {:induction false} NothingPausedBelow(t: Tree, wf: WfStates, c: WfId, x: WfId)
    requires WellFormed(t) && Live(t, wf) && Closed(t, wf, RUNNING) && c in wf && wf[c] != PAUSED
    requires x in wf && Below(t, c, x)
    ensures wf[x] != PAUSED
    decreases t.created(x)
  {
    if x == c {
    } else {
      NothingPausedBelow(t, wf, c, Parent(t, x));
    }
  }

  lemma NothingToResume(t: Tree, wf: WfStates, c: WfId)
    requires WellFormed(t) && Live(t, wf) && Closed(t, wf, RUNNING) && c in wf && wf[c] != PAUSED
    ensures ResumeAll(wf, Sub(t, c)) == wf
  {
    forall x | x in Sub(t, c)
      ensures wf[x] != PAUSED
    {
      NothingPausedBelow(t, wf, c, x);
    }
  }

  /** After resuming some sub-workflows of w: they with all below, or all that resuming the paused w reaches. */
  ghost predicate ResumedUnder(t: Tree, wf: WfStates, task: TaskStates, wf': WfStates, w: WfId, some: set<WfId>)
    requires WellFormed(t) && wf.Keys == t.workflows && task.Keys == t.taskIds && w in wf
  {
    (wf[w] == PAUSED && wf' == ResumeAll(wf, Rise(t, wf, task, w))) || wf' == ResumeAll(wf, Under(t, some))
  }

  lemma ResumedUnderNone(t: Tree, wf: WfStates, task: TaskStates, w: WfId)
    requires WellFormed(t) && wf.Keys == t.workflows && task.Keys == t.taskIds && w in wf
    ensures ResumedUnder(t, wf, task, wf, w, {})
  {
    assert ResumeAll(wf, Under(t, {})) == wf;
  }

  lemma UnderIsBelowAll(t: Tree, w: WfId, some: set<WfId>)
    requires WellFormed(t) && w in t.workflows && AreSubsOf(t, some, w)
    ensures Under(t, some) <= Sub(t, w) && w !in Under(t, some)
  {
    forall x | x in Under(t, some)
      ensures x in Sub(t, w) && x != w
    {
      var c :| c in some && Below(t, c, x);
      assert Below(t, w, Parent(t, c));
      BelowTransitive(t, w, c, x);
      BelowIsYounger(t, c, x);
    }
  }

  /** Resuming below w leaves the tasks of other workflows alone. */
  lemma ResumedBelow(t: Tree, a: WfStates, ta: TaskStates, b: WfStates, tb: TaskStates, w: WfId, some: set<WfId>)
    requires WellFormed(t) && a.Keys == t.workflows && ResumedSome(t, a, ta, b, tb)
    requires w in a && AreSubsOf(t, some, w) && b == ResumeAll(a, Under(t, some))
    ensures SameOutside(t, a, ta, b, tb, w) && b[w] == a[w]
  {
    UnderIsBelowAll(t, w, some);
    forall c | IsSub(t, c) && a[c] == PAUSED && b[c] == RUNNING
      ensures Parent(t, c) in Sub(t, w)
    {
      assert t.starter(c) in t.taskIds;
      assert c in Under(t, some) && Below(t, w, c) && c != w;
    }
    forall k | k in ta && t.owner(k) !in Sub(t, w)
      ensures !SubMoved(t, k, a, b, PAUSED, RUNNING)
    {
    }
  }

  lemma ResumedUnderMore(t: Tree, a: WfStates, ta: TaskStates, b: WfStates, tb: TaskStates, c: WfStates, w: WfId,
                         some: set<WfId>, more: set<WfId>)
    requires WellFormed(t) && Live(t, a) && Live(t, b) && Closed(t, b, RUNNING) && w in a
    requires ResumedSome(t, a, ta, b, tb) && AreSubsOf(t, some, w) && AreSubsOf(t, more, w)
    requires ResumedUnder(t, a, ta, b, w, some) && ResumedUnder(t, b, tb, c, w, more)
    ensures ResumedUnder(t, a, ta, c, w, some + more)
  {
    UnderIsBelowAll(t, w, some);
    UnderIsBelowAll(t, w, more);
    if b == ResumeAll(a, Under(t, some)) {
      ResumedBelow(t, a, ta, b, tb, w, some);
      RiseStays(t, a, ta, b, tb, w);
      SubInRise(t, a, ta, w);
      ResumeMore(a, Rise(t, a, ta, w), Under(t, some));
      ResumeTwice(a, Under(t, some), Under(t, more));
      assert Under(t, some) + Under(t, more) == Under(t, some + more);
    } else {
      SubInRise(t, a, ta, w);
      assert b[w] == RUNNING && c == ResumeAll(b, Under(t, more));
      ResumeMore(a, Rise(t, a, ta, w), Under(t, more));
    }
  }

  lemma ResumedUnderOne(t: Tree, wf: WfStates, task: TaskStates, wf': WfStates, w: WfId, c: WfId)
    requires WellFormed(t) && Live(t, wf) && Closed(t, wf, RUNNING) && task.Keys == t.taskIds
    requires IsSub(t, c) && Parent(t, c) == w && w in wf && wf' == Resumed(t, wf, task, c)
    ensures ResumedUnder(t, wf, task, wf', w, {c})
  {
    assert Under(t, {c}) == Sub(t, c);
    if wf[c] != PAUSED {
      NothingToResume(t, wf, c);
    }
  }

  ghost function SubsOf(t: Tree, tasks: seq<TaskId>): set<WfId> {
    set c | c in t.workflows && IsSub(t, c) && t.starter(c) in tasks
  }

  ghost function Members(subs: seq<WfId>): set<WfId> {
    set c | c in subs
  }

  lemma OneMoreTask(t: Tree, w: WfId, tasks: seq<TaskId>, i: nat)
    requires WellFormed(t) && w in t.workflows && tasks == t.tasks(w) && i < |tasks|
    ensures SubsOf(t, tasks[..i + 1]) == SubsOf(t, tasks[..i]) + SubsOf(t, [tasks[i]])
    ensures AreSubsOf(t, SubsOf(t, tasks[..i]), w) && AreSubsOf(t, SubsOf(t, [tasks[i]]), w)
  {
    assert tasks[..i + 1] == tasks[..i] + [tasks[i]];
    assert forall k :: k in tasks[..i] || k == tasks[i] ==> k in t.tasks(w);
  }

  lemma PausedUnderNoTask(t: Tree, wf: WfStates, w: WfId, tasks: seq<TaskId>)
    requires WellFormed(t) && wf.Keys == t.workflows && w in wf
    ensures PausedUnder(t, wf, wf, w, SubsOf(t, tasks[..0]))
  {
    PausedUnderNone(t, wf, w);
    assert SubsOf(t, tasks[..0]) == {};
  }

  lemma SubsOfAll(t: Tree, w: WfId)
    requires WellFormed(t) && w in t.workflows
    ensures SubsOf(t, t.tasks(w)) == Children(t, w)
  {
    forall c | IsSub(t, c)
      ensures t.starter(c) in t.tasks(w) <==> Parent(t, c) == w
    {
    }
  }

  lemma OneMoreSub(t: Tree, w: WfId, subs: seq<WfId>, j: nat)
    requires j < |subs| && forall c :: c in subs ==> IsSub(t, c) && Parent(t, c) == w
    ensures Members(subs[..j + 1]) == Members(subs[..j]) + {subs[j]}
    ensures AreSubsOf(t, Members(subs[..j]), w) && AreSubsOf(t, {subs[j]}, w)
  {
    assert subs[..j + 1] == subs[..j] + [subs[j]];
    assert forall c :: c in subs[..j] || c == subs[j] ==> c in subs;
  }

  lemma SubsAreMembers(t: Tree, w: WfId, k: TaskId)
    requires WellFormed(t) && w in t.workflows && k in t.tasks(w)
    ensures Members(t.subs(k)) == SubsOf(t, [k])
  {
    SubsOfTask(t, w, k);
  }

  lemma PausedUnderTask(t: Tree, a: WfStates, b: WfStates, c: WfStates, w: WfId, i: nat)
    requires WellFormed(t) && Live(t, a) && w in a && !IsCompleted(a[w]) && i < |t.tasks(w)|
    requires PausedUnder(t, a, b, w, SubsOf(t, t.tasks(w)[..i])) && PausedUnder(t, b, c, w, SubsOf(t, [t.tasks(w)[i]]))
    ensures PausedUnder(t, a, c, w, SubsOf(t, t.tasks(w)[..i + 1]))
  {
    OneMoreTask(t, w, t.tasks(w), i);
    PausedUnderMore(t, a, b, c, w, SubsOf(t, t.tasks(w)[..i]), SubsOf(t, [t.tasks(w)[i]]));
  }

  lemma PausedAnotherTask(t: Tree, a: WfStates, ta: TaskStates, b: WfStates, tb: TaskStates, c: WfStates,
                          tc: TaskStates, w: WfId, i: nat)
    requires WellFormed(t) && Live(t, a) && b.Keys == t.workflows && w in a && !IsCompleted(a[w]) && i < |t.tasks(w)|
    requires PausedSome(t, a, ta, b, tb) && PausedSome(t, b, tb, c, tc)
    requires PausedUnder(t, a, b, w, SubsOf(t, t.tasks(w)[..i])) && PausedUnder(t, b, c, w, SubsOf(t, [t.tasks(w)[i]]))
    ensures !IsCompleted(c[w]) && PausedSome(t, a, ta, c, tc) && PausedUnder(t, a, c, w, SubsOf(t, t.tasks(w)[..i + 1]))
  {
    PausedSomeTransitive(t, a, ta, b, tb, c, tc);
    PausedUnderTask(t, a, b, c, w, i);
  }

  lemma PausedAnotherSub(t: Tree, a: WfStates, ta: TaskStates, b: WfStates, tb: TaskStates, c: WfStates, tc: TaskStates,
                         w: WfId, subs: seq<WfId>, j: nat)
    requires WellFormed(t) && Live(t, a) && b.Keys == t.workflows && w in a && !IsCompleted(a[w])
    requires j < |subs| && forall x :: x in subs ==> IsSub(t, x) && Parent(t, x) == w
    requires PausedSome(t, a, ta, b, tb) && PausedSome(t, b, tb, c, tc)
    requires PausedUnder(t, a, b, w, Members(subs[..j])) && PausedUnder(t, b, c, w, {subs[j]})
    ensures PausedSome(t, a, ta, c, tc) && PausedUnder(t, a, c, w, Members(subs[..j + 1]))
  {
    PausedSomeTransitive(t, a, ta, b, tb, c, tc);
    OneMoreSub(t, w, subs, j);
    PausedUnderMore(t, a, b, c, w, Members(subs[..j]), {subs[j]});
  }

  /** Once all that resuming w reaches is resumed, reporting again from w reaches no further. */
  lemma RiseIsDone(t: Tree, a: WfStates, ta: TaskStates, b: WfStates, tb: TaskStates, w: WfId)
    requires WellFormed(t) && a.Keys == t.workflows && ResumedSome(t, a, ta, b, tb) && w in a
    requires b == ResumeAll(a, Rise(t, a, ta, w))
    ensures ResumeTop(t, b, tb, w) == w
  {
    if IsSub(t, w) && a[Parent(t, w)] == PAUSED {
      if HeldBack(t, a, ta, w) {
        HeldBackLasts(t, a, ta, b, tb, w);
      } else {
        SubInRise(t, a, ta, Parent(t, w));
      }
    }
  }

  lemma HeldBackLasts(t: Tree, a: WfStates, ta: TaskStates, b: WfStates, tb: TaskStates, w: WfId)
    requires WellFormed(t) && a.Keys == t.workflows && ResumedSome(t, a, ta, b, tb) && IsSub(t, w)
    requires b == ResumeAll(a, Sub(t, w)) && HeldBack(t, a, ta, w)
    ensures HeldBack(t, b, tb, w)
  {
    forall c | IsSub(t, c) && c != w && Parent(t, c) == Parent(t, w)
      ensures b[c] == a[c]
    {
      SiblingIsNotBelow(t, w, c);
    }
    var k :| k in t.tasks(Parent(t, w)) && ta[k] == PAUSED && (k == t.starter(w) ==> OtherSubIs(t, a, w, PAUSED));
    assert t.owner(k) == Parent(t, w);
    if k == t.starter(w) {
      var c :| IsSub(t, c) && c != w && t.starter(c) == k && a[c] == PAUSED;
      assert b[c] == PAUSED && SubIs(t, k, b, PAUSED);
    } else {
      assert !SubMoved(t, k, a, b, PAUSED, RUNNING);
    }
    assert tb[k] == PAUSED;
  }

  lemma PartThenWhole(wf: WfStates, some: set<WfId>, reach: set<WfId>, w: WfId)
    requires some <= reach && w in reach && w in wf && wf[w] == PAUSED
    ensures ResumeAll(ResumeAll(wf, some)[w := RUNNING], reach) == ResumeAll(wf, reach)
  {
  }

  lemma ResumedPart(t: Tree, a: WfStates, ta: TaskStates, b: WfStates, tb: TaskStates, w: WfId, some: set<WfId>)
    requires WellFormed(t) && a.Keys == t.workflows && ResumedSome(t, a, ta, b, tb) && w in a && a[w] == PAUSED
    requires AreSubsOf(t, some, w) && b == ResumeAll(a, Under(t, some))
    ensures ResumeAll(b[w := RUNNING], Rise(t, b, tb, w)) == ResumeAll(a, Rise(t, a, ta, w))
  {
    SubInRise(t, a, ta, w);
    UnderIsBelowAll(t, w, some);
    ResumedBelow(t, a, ta, b, tb, w, some);
    RiseStays(t, a, ta, b, tb, w);
    PartThenWhole(a, Under(t, some), Rise(t, a, ta, w), w);
  }

  lemma ResumedFull(t: Tree, a: WfStates, ta: TaskStates, b: WfStates, tb: TaskStates, w: WfId)
    requires WellFormed(t) && Live(t, b) && Closed(t, b, RUNNING) && a.Keys == t.workflows
    requires ResumedSome(t, a, ta, b, tb) && w in a && a[w] == PAUSED && b == ResumeAll(a, Rise(t, a, ta, w))
    ensures ResumeAll(b[w := RUNNING], Rise(t, b, tb, w)) == b
  {
    SubInRise(t, a, ta, w);
    RiseIsDone(t, a, ta, b, tb, w);
    NothingToResume(t, b, w);
    assert b[w := RUNNING] == b;
  }

  /** Resuming the children of w and then w itself is resuming w. */
  lemma ResumedWhole(t: Tree, a: WfStates, ta: TaskStates, b: WfStates, tb: TaskStates, w: WfId)
    requires WellFormed(t) && Live(t, b) && Closed(t, b, RUNNING) && a.Keys == t.workflows
    requires ResumedSome(t, a, ta, b, tb) && w in a && a[w] == PAUSED
    requires ResumedUnder(t, a, ta, b, w, Children(t, w))
    ensures ResumeAll(b[w := RUNNING], Rise(t, b, tb, w)) == Resumed(t, a, ta, w)
  {
    if b == ResumeAll(a, Under(t, Children(t, w))) {
      ResumedPart(t, a, ta, b, tb, w, Children(t, w));
    } else {
      ResumedFull(t, a, ta, b, tb, w);
    }
  }

  /** The task above w when w reports that it runs. */
  ghost function AfterReport(t: Tree, wf: WfStates, task: TaskStates, w: WfId): TaskStates
    requires WellFormed(t) && wf.Keys == t.workflows && task.Keys == t.taskIds && IsSub(t, w)
  {
    var k := t.starter(w);
    if !IsCompleted(task[k]) && !SubIs(t, k, wf, PAUSED) then task[k := RUNNING] else task
  }

  ghost predicate SomeTaskPaused(t: Tree, task: TaskStates, w: WfId)
    requires WellFormed(t) && w in t.workflows && task.Keys == t.taskIds
  {
    exists k {:trigger task[k]} :: k in t.tasks(w) && task[k] == PAUSED
  }

  lemma HeldBackMeans(t: Tree, wf: WfStates, task: TaskStates, w: WfId)
    requires WellFormed(t) && wf.Keys == t.workflows && task.Keys == t.taskIds && IsSub(t, w)
    ensures HeldBack(t, wf, task, w) <==>
            SomeTaskPaused(t, AfterReport(t, wf[w := RUNNING], task, w), Parent(t, w))
  {
    var wf1, k0 := wf[w := RUNNING], t.starter(w);
    var task1 := AfterReport(t, wf1, task, w);
    assert OtherSubIs(t, wf, w, PAUSED) <==> SubIs(t, k0, wf1, PAUSED) by {
      if c :| IsSub(t, c) && c != w && t.starter(c) == k0 && wf[c] == PAUSED {
        assert wf1[c] == PAUSED;
      }
    }
    assert t.owner(k0) == Parent(t, w);
    forall k | k in t.tasks(Parent(t, w))
      ensures k in task
      ensures task1[k] == PAUSED <==> task[k] == PAUSED && (k == k0 ==> OtherSubIs(t, wf, w, PAUSED))
    {
    }
  }

  /** What w has set running by reporting upwards is what it reaches. */
  lemma ReportReaches(t: Tree, wf: WfStates, task: TaskStates, w: WfId)
    requires WellFormed(t) && Live(t, wf) && task.Keys == t.taskIds && w in wf
    requires Live(t, wf[w := RUNNING]) && Closed(t, wf[w := RUNNING], RUNNING)
    ensures var wf1 := wf[w := RUNNING];
            ResumeAll(wf1, Rise(t, wf, task, w)) ==
            if !IsSub(t, w) then wf1
            else
              var task1 := AfterReport(t, wf1, task, w);
              if SomeTaskPaused(t, task1, Parent(t, w)) then wf1 else Resumed(t, wf1, task1, Parent(t, w))
  {
    var wf1 := wf[w := RUNNING];
    NothingToResume(t, wf1, w);
    if IsSub(t, w) {
      HeldBackMeans(t, wf, task, w);
      ParentIsNotBelow(t, w);
      if wf[Parent(t, w)] == PAUSED && !HeldBack(t, wf, task, w) {
        ReportStays(t, wf, task, w);
        RiseStays(t, wf, task, wf1, AfterReport(t, wf1, task, w), Parent(t, w));
      }
    }
  }

  lemma ReportStays(t: Tree, wf: WfStates, task: TaskStates, w: WfId)
    requires WellFormed(t) && wf.Keys == t.workflows && task.Keys == t.taskIds && IsSub(t, w)
    ensures SameOutside(t, wf, task, wf[w := RUNNING], AfterReport(t, wf[w := RUNNING], task, w), Parent(t, w))
  {
    assert Below(t, Parent(t, w), w) && t.owner(t.starter(w)) in Sub(t, Parent(t, w)) by {
      assert t.starter(w) in t.taskIds;
      assert Below(t, Parent(t, w), Parent(t, w));
    }
  }

  lemma ResumedUnderTask(t: Tree, a: WfStates, ta: TaskStates, b: WfStates, tb: TaskStates, c: WfStates, w: WfId,
                         i: nat)
    requires WellFormed(t) && Live(t, a) && Live(t, b) && Closed(t, b, RUNNING) && w in a && i < |t.tasks(w)|
    requires ResumedSome(t, a, ta, b, tb) && ResumedUnder(t, a, ta, b, w, SubsOf(t, t.tasks(w)[..i]))
    requires ResumedUnder(t, b, tb, c, w, SubsOf(t, [t.tasks(w)[i]]))
    ensures ResumedUnder(t, a, ta, c, w, SubsOf(t, t.tasks(w)[..i + 1]))
  {
    OneMoreTask(t, w, t.tasks(w), i);
    ResumedUnderMore(t, a, ta, b, tb, c, w, SubsOf(t, t.tasks(w)[..i]), SubsOf(t, [t.tasks(w)[i]]));
  }

  lemma ResumedUnderSub(t: Tree, a: WfStates, ta: TaskStates, b: WfStates, tb: TaskStates, c: WfStates, w: WfId,
                        subs: seq<WfId>, j: nat)
    requires WellFormed(t) && Live(t, a) && Live(t, b) && Closed(t, b, RUNNING) && w in a
    requires j < |subs| && forall x :: x in subs ==> IsSub(t, x) && Parent(t, x) == w
    requires ResumedSome(t, a, ta, b, tb) && ResumedUnder(t, a, ta, b, w, Members(subs[..j]))
    requires ResumedUnder(t, b, tb, c, w, {subs[j]})
    ensures ResumedUnder(t, a, ta, c, w, Members(subs[..j + 1]))
  {
    OneMoreSub(t, w, subs, j);
    ResumedUnderMore(t, a, ta, b, tb, c, w, Members(subs[..j]), {subs[j]});
  }

  // ---------- a pause that leaves a workflow running ----------

  /** Two sub-workflows of one workflow that are started by different tasks. */
  ghost predicate Beside(t: Tree, b: WfId, c: WfId) {
    IsSub(t, b) && IsSub(t, c) && Parent(t, b) == Parent(t, c) && t.starter(b) != t.starter(c)
  }

  /** A paused task beside it keeps the resumed w from reaching further. */
  lemma BesidePausedTask(t: Tree, wf: WfStates, task: TaskStates, w: WfId, v: WfId)
    requires WellFormed(t) && wf.Keys == t.workflows && task.Keys == t.taskIds && Beside(t, w, v)
    requires task[t.starter(v)] == PAUSED
    ensures ResumeTop(t, wf, task, w) == w && v !in Sub(t, w) && Parent(t, w) !in Sub(t, w)
  {
    assert t.starter(v) in t.tasks(Parent(t, w));
    SiblingIsNotBelow(t, w, v);
    ParentIsNotBelow(t, w);
  }

  /** What is not below the parent of w is not below w. */
  lemma OutsideParent(t: Tree, w: WfId, x: WfId)
    requires WellFormed(t) && IsSub(t, w) && x in t.workflows && !Below(t, Parent(t, w), x)
    ensures x !in Sub(t, w)
  {
    assert Below(t, Parent(t, w), w) by {
      assert Below(t, Parent(t, w), Parent(t, w));
    }
    if Below(t, w, x) {
      BelowTransitive(t, Parent(t, w), w, x);
    }
  }

  /** The task above a live workflow is paused with it. */
  lemma StarterIsPaused(t: Tree, a: WfStates, ta: TaskStates, b: WfStates, tb: TaskStates, c: WfId)
    requires WellFormed(t) && a.Keys == t.workflows && PausedSome(t, a, ta, b, tb) && IsSub(t, c)
    requires a[c] == RUNNING && b[c] == PAUSED && ta[t.starter(c)] == RUNNING
    ensures tb[t.starter(c)] == PAUSED
  {
    assert SubMoved(t, t.starter(c), a, b, RUNNING, PAUSED);
  }

  /** A task stays as it is if resuming w reaches only what is below w, and the task is no task of that part. */
  lemma TaskOutside(t: Tree, a: WfStates, ta: TaskStates, b: WfStates, tb: TaskStates, w: WfId, k: TaskId)
    requires WellFormed(t) && a.Keys == t.workflows && ResumedSome(t, a, ta, b, tb) && b == ResumeAll(a, Sub(t, w))
    requires IsSub(t, w) && k in ta && t.owner(k) !in Sub(t, w) && k != t.starter(w)
    ensures tb[k] == ta[k]
  {
    forall c | IsSub(t, c) && a[c] == PAUSED && b[c] == RUNNING && c != w
      ensures Parent(t, c) in Sub(t, w)
    {
      assert t.starter(c) in t.taskIds;
    }
    assert !SubMoved(t, k, a, b, PAUSED, RUNNING);
  }

  lemma OutsideOwner(t: Tree, w: WfId, a: WfId)
    requires WellFormed(t) && IsSub(t, w) && a == Parent(t, w) && IsSub(t, a)
    ensures t.owner(t.starter(a)) !in Sub(t, w) && t.starter(a) != t.starter(w)
  {
    ParentIsNotBelow(t, a);
    OutsideParent(t, w, Parent(t, a));
  }

  lemma FirstPaused(t: Tree, wf: WfStates, task: TaskStates, wf': WfStates, task': TaskStates, w: WfId, v: WfId,
                    c: WfId)
    requires WellFormed(t) && Live(t, wf) && AllLiveAre(wf, RUNNING) && PausedSome(t, wf, task, wf', task')
    requires AllLiveAre(wf', PAUSED) && Beside(t, w, v) && Beside(t, Parent(t, w), c)
    requires !IsCompleted(wf[w]) && !IsCompleted(wf[v]) && !IsCompleted(wf[c])
    requires task[t.starter(v)] == RUNNING && task[t.starter(Parent(t, w))] == RUNNING
    ensures wf'[w] == wf'[c] == wf'[Parent(t, w)] == PAUSED
    ensures task'[t.starter(v)] == task'[t.starter(Parent(t, w))] == PAUSED
  {
    assert Parent(t, w) in t.workflows;
    StarterIsPaused(t, wf, task, wf', task', v);
    StarterIsPaused(t, wf, task, wf', task', Parent(t, w));
  }

  lemma FirstResumed(t: Tree, wf: WfStates, task: TaskStates, wf': WfStates, task': TaskStates, w: WfId, v: WfId,
                     c: WfId)
    requires WellFormed(t) && wf.Keys == t.workflows && ResumedSome(t, wf, task, wf', task')
    requires Beside(t, w, v) && Beside(t, Parent(t, w), c) && wf' == Resumed(t, wf, task, w)
    requires wf[w] == wf[c] == wf[Parent(t, w)] == PAUSED
    requires task[t.starter(v)] == task[t.starter(Parent(t, w))] == PAUSED
    ensures wf'[w] == RUNNING && wf'[c] == wf'[Parent(t, w)] == PAUSED && task'[t.starter(Parent(t, w))] == PAUSED
  {
    var a := Parent(t, w);
    BesidePausedTask(t, wf, task, w, v);
    SiblingIsNotBelow(t, a, c);
    OutsideParent(t, w, c);
    OutsideOwner(t, w, a);
    SubInRise(t, wf, task, w);
    TaskOutside(t, wf, task, wf', task', w, t.starter(a));
  }

  lemma SecondResumed(t: Tree, wf: WfStates, task: TaskStates, wf': WfStates, w: WfId, c: WfId)
    requires WellFormed(t) && wf.Keys == t.workflows && task.Keys == t.taskIds && w in wf
    requires IsSub(t, w) && Beside(t, Parent(t, w), c) && wf' == Resumed(t, wf, task, c)
    requires wf[w] == RUNNING && wf[c] == wf[Parent(t, w)] == PAUSED && task[t.starter(Parent(t, w))] == PAUSED
    ensures wf'[w] == wf'[c] == RUNNING && wf'[Parent(t, w)] == PAUSED
  {
    BesidePausedTask(t, wf, task, c, Parent(t, w));
    SubInRise(t, wf, task, c);
  }

  lemma LeftRunning(t: Tree, wf: WfStates, w: WfId, c: WfId)
    requires WellFormed(t) && Live(t, wf) && IsSub(t, w) && Beside(t, Parent(t, w), c)
    requires wf[w] == wf[c] == RUNNING && wf[Parent(t, w)] == PAUSED
    ensures var wf' := PauseAll(wf, Reach(t, wf, w));
            wf'[w] == wf'[Parent(t, w)] == PAUSED && wf'[c] == RUNNING
  {
    SubInReach(t, wf, w);
    SiblingIsNotBelow(t, Parent(t, w), c);
    assert Top(t, wf, Parent(t, w)) == Parent(t, w);
  }

  class Store {
    const tree: Tree
    var wf: WfStates
    var task: TaskStates

    ghost predicate Valid()
      reads this
    {
      WellFormed(tree) && Live(tree, wf) && task.Keys == tree.taskIds
    }

    // ---------- pausing ----------

    /**
     Pauses the sub-workflows, then the workflow itself, which reports upwards.
     The calls end, and pause exactly what is live below the nearest workflow
     upwards that was paused already, or in the whole tree if there is none.
     */
    method PauseWorkflow(w: WfId)
      requires Valid() && w in wf && !IsCompleted(wf[w])
      modifies this
      ensures Valid() && PausedSome(tree, old(wf), old(task), wf, task)
      ensures wf == PauseAll(old(wf), Reach(tree, old(wf), w))
      decreases In(wf, RUNNING), Younger(tree, w), 3
    {
      PauseTasks(w);
      ghost var wf0, task0 := wf, task;
      MovingShrinks(old(wf), wf, RUNNING, PAUSED);
      ChildrenPaused(tree, old(wf), wf, w);
      PauseSelf(w);
      PausedSomeTransitive(tree, old(wf), old(task), wf0, task0, wf, task);
    }

    /** Pauses the live sub-workflows of all tasks of w. */
    method PauseTasks(w: WfId)
      requires Valid() && w in wf && !IsCompleted(wf[w])
      modifies this
      ensures Valid() && PausedSome(tree, old(wf), old(task), wf, task)
      ensures PausedUnder(tree, old(wf), wf, w, Children(tree, w))
      decreases In(wf, RUNNING), Younger(tree, w), 2
    {
      var tasks := tree.tasks(w);
      PausedUnderNoTask(tree, wf, w, tasks);
      SubsOfAll(tree, w);
      for i := 0 to |tasks|
        invariant Valid() && !IsCompleted(wf[w]) && PausedSome(tree, old(wf), old(task), wf, task)
        invariant PausedUnder(tree, old(wf), wf, w, SubsOf(tree, tasks[..i]))
      {
        ghost var wf0, task0 := wf, task;
        MovingShrinks(old(wf), wf, RUNNING, PAUSED);
        PauseSubs(w, tasks[i]);
        PausedAnotherTask(tree, old(wf), old(task), wf0, task0, wf, task, w, i);
      }
      assert tasks[..|tasks|] == tasks;
    }

    /** Pauses the live sub-workflows of one task of w. */
    method PauseSubs(w: WfId, k: TaskId)
      requires Valid() && w in wf && !IsCompleted(wf[w]) && k in tree.tasks(w)
      modifies this
      ensures Valid() && PausedSome(tree, old(wf), old(task), wf, task)
      ensures PausedUnder(tree, old(wf), wf, w, SubsOf(tree, [k]))
      decreases In(wf, RUNNING), Younger(tree, w), 1
    {
      SubsOfTask(tree, w, k);
      var subs := tree.subs(k);
      PausedUnderNone(tree, wf, w);
      assert Members(subs[..0]) == {};
      for j := 0 to |subs|
        invariant Valid() && PausedSome(tree, old(wf), old(task), wf, task)
        invariant PausedUnder(tree, old(wf), wf, w, Members(subs[..j]))
      {
        ghost var wf0, task0 := wf, task;
        MovingShrinks(old(wf), wf, RUNNING, PAUSED);
        PauseSub(w, subs[j]);
        PausedAnotherSub(tree, old(wf), old(task), wf0, task0, wf, task, w, subs, j);
      }
      assert subs[..|subs|] == subs;
      SubsAreMembers(tree, w, k);
    }

    /** Pauses one sub-workflow of w if it is live. */
    method PauseSub(w: WfId, c: WfId)
      requires Valid() && w in wf && IsSub(tree, c) && Parent(tree, c) == w
      modifies this
      ensures Valid() && PausedSome(tree, old(wf), old(task), wf, task)
      ensures PausedUnder(tree, old(wf), wf, w, {c})
      decreases In(wf, RUNNING), Younger(tree, w), 0
    {
      if !IsCompleted(wf[c]) {
        ChildIsYounger(tree, c);
        PauseWorkflow(c);
      }
      PausedUnderOne(tree, old(wf), wf, w, c);
    }

    /** Sets the state of w alone and reports to the task above it. */
    method PauseSelf(w: WfId)
      requires Valid() && w in wf && !IsCompleted(wf[w]) && PausedBelow(tree, wf, w)
      modifies this
      ensures Valid() && PausedSome(tree, old(wf), old(task), wf, task)
      ensures wf == PauseAll(old(wf), Reach(tree, old(wf), w))
      decreases In(wf, RUNNING), Younger(tree, w), 2
    {
      PausedSelf(tree, wf, w);
      PauseOneKeepsLive(tree, wf, w);
      if wf[w] == PAUSED {
        return;
      }
      PauseOne(tree, wf, task, w);
      ghost var wf0 := wf;
      wf := wf[w := PAUSED];
      assert w in In(wf0, RUNNING) && In(wf, RUNNING) == In(wf0, RUNNING) - {w};
      if IsSub(tree, w) {
        OnActionPaused(w, wf0);
      }
    }

    /** The task above w follows w, and the workflow of that task is paused. */
    method OnActionPaused(w: WfId, ghost wf0: WfStates)
      requires Valid() && IsSub(tree, w) && !IsCompleted(wf[Parent(tree, w)])
      requires w in wf0 && wf0[w] == RUNNING && wf == wf0[w := PAUSED] && wf0.Keys == tree.workflows
      modifies this
      ensures Valid() && PausedSome(tree, wf0, old(task), wf, task)
      ensures wf == PauseAll(old(wf), Reach(tree, old(wf), Parent(tree, w)))
      decreases In(wf, RUNNING), wf.Keys, 3
    {
      PauseOne(tree, wf0, task, w);
      UpdateTask(tree.starter(w), PAUSED);
      ghost var wf1, task1 := wf, task;
      PauseWorkflow(Parent(tree, w));
      PausedSomeTransitive(tree, wf0, old(task), wf1, task1, wf, task);
    }

    /**
     Moves a task execution to st unless it is completed, the move is illegal, or
     it would run over a paused sub-workflow.
     */
    method UpdateTask(k: TaskId, st: State)
      requires Valid() && k in task && !IsCompleted(st)
      modifies this`task
      ensures task == if !IsCompleted(old(task)[k]) && ValidTransition(old(task)[k], st) &&
                         !(st == RUNNING && SubIs(tree, k, wf, PAUSED))
                      then old(task)[k := st] else old(task)
    {
      if IsCompleted(task[k]) || !ValidTransition(task[k], st) {
        return;
      }
      if st == RUNNING && exists c :: c in wf && IsSub(tree, c) && tree.starter(c) == k && wf[c] == PAUSED {
        return;
      }
      task := task[k := st];
    }

    // ---------- resuming ----------

    /**
     Resumes the sub-workflows of a paused workflow, then the workflow itself,
     which reports upwards.  The calls end, and resume exactly what is paused
     below the last workflow upwards that no other paused task holds back.
     */
    method ResumeWorkflow(w: WfId)
      requires Valid() && Closed(tree, wf, RUNNING) && w in wf
      modifies this
      ensures Valid() && Closed(tree, wf, RUNNING) && ResumedSome(tree, old(wf), old(task), wf, task)
      ensures wf == Resumed(tree, old(wf), old(task), w)
      ensures !IsCompleted(wf[w]) ==> wf[w] == RUNNING
      decreases In(wf, PAUSED), Younger(tree, w), 3
    {
      ResumedNone(tree, wf, task);
      if wf[w] != PAUSED {
        return;
      }
      ResumeTasks(w);
      FewerPaused(old(wf), wf, w);
      ResumedWhole(tree, old(wf), old(task), wf, task, w);
      ResumeSelf(w, old(wf), old(task));
    }

    /** Resumes the live sub-workflows of all tasks of w. */
    method ResumeTasks(w: WfId)
      requires Valid() && Closed(tree, wf, RUNNING) && w in wf
      modifies this
      ensures Valid() && Closed(tree, wf, RUNNING) && ResumedSome(tree, old(wf), old(task), wf, task)
      ensures SubsAre(tree, wf, tree.tasks(w), RUNNING)
      ensures ResumedUnder(tree, old(wf), old(task), wf, w, Children(tree, w))
      decreases In(wf, PAUSED), Younger(tree, w), 2
    {
      var tasks := tree.tasks(w);
      ResumedNone(tree, wf, task);
      ResumedUnderNone(tree, wf, task, w);
      assert SubsOf(tree, tasks[..0]) == {};
      SubsOfAll(tree, w);
      for i := 0 to |tasks|
        invariant Valid() && Closed(tree, wf, RUNNING) && ResumedSome(tree, old(wf), old(task), wf, task)
        invariant SubsAre(tree, wf, tasks[..i], RUNNING)
        invariant ResumedUnder(tree, old(wf), old(task), wf, w, SubsOf(tree, tasks[..i]))
      {
        ghost var wf0, task0 := wf, task;
        MovingShrinks(old(wf), wf, PAUSED, RUNNING);
        ResumeSubs(w, tasks[i]);
        ResumedUnderTask(tree, old(wf), old(task), wf0, task0, wf, w, i);
        ResumedAnotherTask(tree, old(wf), old(task), wf0, task0, wf, task, tasks, i);
      }
      assert tasks[..|tasks|] == tasks;
    }

    /** Resumes the live sub-workflows of one task of w. */
    method ResumeSubs(w: WfId, k: TaskId)
      requires Valid() && Closed(tree, wf, RUNNING) && w in wf && k in tree.tasks(w)
      modifies this
      ensures Valid() && Closed(tree, wf, RUNNING) && ResumedSome(tree, old(wf), old(task), wf, task)
      ensures SubsAre(tree, wf, [k], RUNNING)
      ensures ResumedUnder(tree, old(wf), old(task), wf, w, SubsOf(tree, [k]))
      decreases In(wf, PAUSED), Younger(tree, w), 1
    {
      SubsOfTask(tree, w, k);
      var subs := tree.subs(k);
      ResumedNone(tree, wf, task);
      ResumedUnderNone(tree, wf, task, w);
      assert Members(subs[..0]) == {};
      for j := 0 to |subs|
        invariant Valid() && Closed(tree, wf, RUNNING)
        invariant ResumedSome(tree, old(wf), old(task), wf, task)
        invariant AllAre(wf, subs[..j], RUNNING)
        invariant ResumedUnder(tree, old(wf), old(task), wf, w, Members(subs[..j]))
      {
        ghost var wf0, task0 := wf, task;
        var c := subs[j];
        assert c in subs;
        MovingShrinks(old(wf), wf, PAUSED, RUNNING);
        ResumeSub(w, c);
        ResumedUnderSub(tree, old(wf), old(task), wf0, task0, wf, w, subs, j);
        ResumedAnother(tree, old(wf), old(task), wf0, task0, wf, task, subs, j);
      }
      assert subs[..|subs|] == subs;
      SubsAreMembers(tree, w, k);
      AllSubsAre(tree, wf, w, k, RUNNING);
    }

    /** Resumes one sub-workflow of w if it is live. */
    method ResumeSub(w: WfId, c: WfId)
      requires Valid() && Closed(tree, wf, RUNNING) && w in wf && IsSub(tree, c) && Parent(tree, c) == w
      modifies this
      ensures Valid() && Closed(tree, wf, RUNNING) && ResumedSome(tree, old(wf), old(task), wf, task)
      ensures ResumedUnder(tree, old(wf), old(task), wf, w, {c})
      ensures !IsCompleted(wf[c]) ==> wf[c] == RUNNING
      decreases In(wf, PAUSED), Younger(tree, w), 0
    {
      ResumedNone(tree, wf, task);
      if !IsCompleted(wf[c]) {
        ChildIsYounger(tree, c);
        ResumeWorkflow(c);
      }
      ResumedUnderOne(tree, old(wf), old(task), wf, w, c);
    }

    /** Sets w running, even if it already is, and reports to the task above it; w was paused in wf0. */
    method ResumeSelf(w: WfId, ghost wf0: WfStates, ghost task0: TaskStates)
      requires Valid() && Closed(tree, wf, RUNNING)
      requires w in wf && !IsCompleted(wf[w]) && SubsAre(tree, wf, tree.tasks(w), RUNNING)
      requires wf0.Keys == tree.workflows && wf0[w] == PAUSED && ResumedSome(tree, wf0, task0, wf, task)
      modifies this
      ensures Valid() && Closed(tree, wf, RUNNING) && ResumedSome(tree, wf0, task0, wf, task)
      ensures wf == ResumeAll(old(wf)[w := RUNNING], Rise(tree, old(wf), old(task), w)) && wf[w] == RUNNING
      decreases In(wf, PAUSED) - {w}, wf.Keys, 5
    {
      ResumeSelfKeeps(tree, wf, w);
      ResumeSelfTasks(tree, wf0, task0, wf, task, w);
      RunningIsNotPaused(wf, w);
      ReportReaches(tree, wf, task, w);
      wf := wf[w := RUNNING];
      if IsSub(tree, w) {
        OnActionResumed(w, wf0, task0);
      }
    }

    /**
     The task above w follows w.  If then some task beside it, or itself, is paused,
     nothing else changes; otherwise the workflow above is resumed too.
     */
    method OnActionResumed(w: WfId, ghost wf0: WfStates, ghost task0: TaskStates)
      requires Valid() && Closed(tree, wf, RUNNING) && IsSub(tree, w) && wf[w] == RUNNING
      requires wf0.Keys == tree.workflows && task0.Keys == tree.taskIds
      requires ResumedSome(tree, wf0, task0, wf, AfterReport(tree, wf, task, w))
      modifies this
      ensures Valid() && Closed(tree, wf, RUNNING) && ResumedSome(tree, wf0, task0, wf, task)
      ensures var task1 := AfterReport(tree, old(wf), old(task), w);
              if SomeTaskPaused(tree, task1, Parent(tree, w)) then wf == old(wf) && task == task1
              else wf == Resumed(tree, old(wf), task1, Parent(tree, w)) && wf[Parent(tree, w)] == RUNNING
      ensures wf[w] == RUNNING
      decreases In(wf, PAUSED), wf.Keys, 4
    {
      UpdateTask(tree.starter(w), RUNNING);
      ghost var wf1, task1 := wf, task;
      if forall k :: k in tree.tasks(Parent(tree, w)) ==> task[k] != PAUSED {
        ResumeWorkflow(Parent(tree, w));
        ResumedSomeTransitive(tree, wf0, task0, wf1, task1, wf, task);
      }
    }

    /**
     However often workflows are paused and resumed, both operations stay possible:
     below a running workflow all live ones run.
     */
    method PauseOrResume(ops: seq<Operation>)
      requires Valid() && Closed(tree, wf, RUNNING) && forall op :: op in ops ==> op.w in wf
      modifies this
      ensures Valid() && Closed(tree, wf, RUNNING)
    {
      for i := 0 to |ops|
        invariant Valid() && Closed(tree, wf, RUNNING)
      {
        var op := ops[i];
        assert op in ops;
        match op
        case Pause(w) =>
          if !IsCompleted(wf[w]) {
            PauseKeepsClosed(tree, wf, w);
            PauseWorkflow(w);
          }
        case Resume(w) => ResumeWorkflow(w);
      }
    }

    /**
     In a running tree let w and v be beside each other, and their workflow beside c.
     Pausing the tree, resuming w and c alone, and pausing w leaves c running.
     */
    method PauseLeavesRunning(w: WfId, v: WfId, c: WfId)
      requires Valid() && AllLiveAre(wf, RUNNING) && Beside(tree, w, v) && Beside(tree, Parent(tree, w), c)
      requires !IsCompleted(wf[w]) && !IsCompleted(wf[v]) && !IsCompleted(wf[c])
      requires task[tree.starter(v)] == RUNNING && task[tree.starter(Parent(tree, w))] == RUNNING
      modifies this
      ensures Valid() && wf[w] == PAUSED && wf[Parent(tree, w)] == PAUSED && wf[c] == RUNNING
    {
      RunningTreePauses(tree, wf, w);
      PauseWorkflow(w);
      FirstPaused(tree, old(wf), old(task), wf, task, w, v, c);
      AllLiveIsClosed(tree, wf, PAUSED, RUNNING);
      ghost var wf1, task1 := wf, task;
      ResumeWorkflow(w);
      FirstResumed(tree, wf1, task1, wf, task, w, v, c);
      ghost var wf2, task2 := wf, task;
      ResumeWorkflow(c);
      SecondResumed(tree, wf2, task2, wf, w, c);
      LeftRunning(tree, wf, w, c);
      PauseWorkflow(w);
    }

    /** Pausing any running workflow and then resuming the root restores every workflow of the tree. */
    method PauseAndResume(w: WfId)
      requires Valid() && AllLiveAre(wf, RUNNING) && w in wf && wf[w] == RUNNING
      modifies this
      ensures Valid() && wf == old(wf)
      ensures task == old(task) <==>
              forall k :: k in old(task) && !IsCompleted(old(task)[k]) && SubIs(tree, k, wf, RUNNING) ==>
                old(task)[k] == RUNNING
    {
      RunningTreePauses(tree, wf, w);
      PauseWorkflow(w);
      AllLiveIsClosed(tree, wf, PAUSED, RUNNING);
      RootIsLive(tree, wf, w);
      ghost var wf1, task1 := wf, task;
      ResumeWorkflow(tree.root);
      RootDecidesAll(tree, wf, RUNNING);
      RoundTrip(tree, old(wf), old(task), wf1, task1, wf, task);
    }
  }

  lemma RunningIsNotPaused(wf: WfStates, w: WfId)
    requires w in wf
    ensures In(wf[w := RUNNING], PAUSED) == In(wf, PAUSED) - {w}
  {
  }

  lemma FewerPaused(wf: WfStates, wf': WfStates, w: WfId)
    requires OnlyMoves(wf, wf', PAUSED, RUNNING) && w in wf && wf[w] == PAUSED
    ensures In(wf', PAUSED) - {w} < In(wf, PAUSED)
  {
    assert w in In(wf, PAUSED);
  }

  lemma ResumeSelfKeeps(t: Tree, wf: WfStates, w: WfId)
    requires WellFormed(t) && Live(t, wf) && Closed(t, wf, RUNNING)
    requires w in wf && !IsCompleted(wf[w]) && SubsAre(t, wf, t.tasks(w), RUNNING)
    ensures Live(t, wf[w := RUNNING]) && Closed(t, wf[w := RUNNING], RUNNING)
  {
    forall c | IsSub(t, c) && Parent(t, c) == w && !IsCompleted(wf[c])
      ensures wf[c] == RUNNING
    {
      assert t.starter(c) in t.tasks(w);
    }
  }

  lemma ResumeSelfTasks(t: Tree, wf0: WfStates, task0: TaskStates, wf: WfStates, task: TaskStates, w: WfId)
    requires WellFormed(t) && wf0.Keys == wf.Keys == t.workflows && ResumedSome(t, wf0, task0, wf, task)
    requires w in wf && wf0[w] == PAUSED && !IsCompleted(wf[w])
    ensures var wf' := wf[w := RUNNING];
            ResumedSome(t, wf0, task0, wf',
              if IsSub(t, w) && !IsCompleted(task[t.starter(w)]) && !SubIs(t, t.starter(w), wf', PAUSED)
              then task[t.starter(w) := RUNNING] else task)
  {
    if wf[w] == PAUSED {
      ResumeOne(t, wf, task, w);
      var k, wf' := t.starter(w), wf[w := RUNNING];
      var again := IsSub(t, w) && !IsCompleted(task[k]) && !SubIs(t, k, wf', PAUSED);
      var task' := if again then task[k := RUNNING] else task;
      ResumedSomeTransitive(t, wf0, task0, wf, task, wf', task');
    } else {
      assert wf[w := RUNNING] == wf;
      if IsSub(t, w) {
        assert SubMoved(t, t.starter(w), wf0, wf, PAUSED, RUNNING);
      }
    }
  }

  lemma AllLiveIsClosed(t: Tree, wf: WfStates, st: State, other: State)
    requires WellFormed(t) && wf.Keys == t.workflows && AllLiveAre(wf, st)
    requires st != other && !IsCompleted(other)
    ensures Closed(t, wf, other)
  {
    forall c | IsSub(t, c)
      ensures wf[Parent(t, c)] != other
    {
      assert Parent(t, c) in wf;
    }
  }

  lemma {:induction false} RootIsLive(t: Tree, wf: WfStates, w: WfId)
    requires WellFormed(t) && Live(t, wf) && w in wf && !IsCompleted(wf[w])
    ensures !IsCompleted(wf[t.root])
    decreases t.created(w)
  {
    if w != t.root {
      RootIsLive(t, wf, Parent(t, w));
    }
  }

  /**
   Pausing everything and resuming everything gives back all workflows, and all
   tasks exactly if those above live workflows ran.
   */
  lemma RoundTrip(t: Tree, a: WfStates, ta: TaskStates, b: WfStates, tb: TaskStates, c: WfStates, tc: TaskStates)
    requires WellFormed(t) && a.Keys == b.Keys == t.workflows && Live(t, a)
    requires AllLiveAre(a, RUNNING) && PausedSome(t, a, ta, b, tb) && AllLiveAre(b, PAUSED)
    requires ResumedSome(t, b, tb, c, tc) && AllLiveAre(c, RUNNING)
    ensures c == a
    ensures tc == ta <==> forall k :: k in ta && !IsCompleted(ta[k]) && SubIs(t, k, c, RUNNING) ==> ta[k] == RUNNING
  {
    PausedAndResumed(a, b, c);
    forall k | k in ta
      ensures tc[k] == ta[k] <==> (!IsCompleted(ta[k]) && SubIs(t, k, c, RUNNING) ==> ta[k] == RUNNING)
    {
      RoundTripTask(t, k, a, ta, b, tb, c, tc);
    }
    assert tc == ta <==> forall k :: k in ta ==> tc[k] == ta[k];
  }

  lemma PausedAndResumed(a: WfStates, b: WfStates, c: WfStates)
    requires OnlyMoves(a, b, RUNNING, PAUSED) && OnlyMoves(b, c, PAUSED, RUNNING)
    requires AllLiveAre(a, RUNNING) && AllLiveAre(c, RUNNING)
    ensures c == a
  {
    assert forall w :: w in a ==> c[w] == a[w];
  }

  lemma RoundTripTask(t: Tree, k: TaskId, a: WfStates, ta: TaskStates, b: WfStates, tb: TaskStates, c: WfStates,
                      tc: TaskStates)
    requires WellFormed(t) && a.Keys == b.Keys == t.workflows && k in ta
    requires AllLiveAre(a, RUNNING) && PausedSome(t, a, ta, b, tb) && AllLiveAre(b, PAUSED)
    requires ResumedSome(t, b, tb, c, tc) && AllLiveAre(c, RUNNING)
    ensures tc[k] == if !IsCompleted(ta[k]) && SubIs(t, k, a, RUNNING) then RUNNING else ta[k]
  {
    MovedIsLive(t, k, a, b, RUNNING, PAUSED);
    MovedIsLive(t, k, b, c, PAUSED, RUNNING);
    LiveSubsBefore(t, k, a, b);
  }

  lemma MovedIsLive(t: Tree, k: TaskId, wf: WfStates, wf': WfStates, from: State, to: State)
    requires WellFormed(t) && wf.Keys == t.workflows && OnlyMoves(wf, wf', from, to) && from != to
    requires AllLiveAre(wf', to) && !IsCompleted(from)
    ensures SubMoved(t, k, wf, wf', from, to) <==> SubIs(t, k, wf, from)
    ensures !SubIs(t, k, wf', from)
  {
    if SubIs(t, k, wf, from) {
      var c :| IsSub(t, c) && t.starter(c) == k && wf[c] == from;
      assert wf'[c] == to;
    }
  }

  lemma LiveSubsBefore(t: Tree, k: TaskId, a: WfStates, b: WfStates)
    requires WellFormed(t) && a.Keys == t.workflows && OnlyMoves(a, b, RUNNING, PAUSED)
    requires AllLiveAre(a, RUNNING) && AllLiveAre(b, PAUSED)
    ensures SubIs(t, k, a, RUNNING) <==> SubIs(t, k, b, PAUSED)
  {
    if SubIs(t, k, a, RUNNING) {
      var c :| IsSub(t, c) && t.starter(c) == k && a[c] == RUNNING;
      assert b[c] == PAUSED;
    }
  }
}
