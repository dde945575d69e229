/** Dispatching workflow commands, with a backlog for those that follow a pause. */
module Dispatcher {
  import opened States
  import opened Sorting
  import opened Wrappers

  datatype Kind = RunTask | RunExistingTask | Noop | FailWorkflow | SucceedWorkflow | PauseWorkflow

  /** `id` tells commands apart; the unique key of a join is represented by its rank among keys. */
  datatype Cmd = Cmd(kind: Kind, id: nat, wait: bool, key: Option<nat>)

  // ---------- the backlog ----------

  datatype Name = TaskName | RunExistingName | NoopName | FailName | SucceedName | PauseName

  /** A command as stored in the runtime context. */
  datatype Saved = Saved(name: Name, id: nat, wait: bool, key: Option<nat>)

  function ToDict(c: Cmd): Saved {
    var name := match c.kind
                case RunTask => TaskName
                case RunExistingTask => RunExistingName
                case Noop => NoopName
                case FailWorkflow => FailName
                case SucceedWorkflow => SucceedName
                case PauseWorkflow => PauseName;
    Saved(name, c.id, c.wait, c.key)
  }

  /** Any name that is not an engine command makes a command to run a task; wait flag and key are not restored. */
  function FromDict(d: Saved): Cmd {
    var kind := match d.name
                case NoopName => Noop
                case FailName => FailWorkflow
                case SucceedName => SucceedWorkflow
                case PauseName => PauseWorkflow
                case _ => RunTask;
    Cmd(kind, d.id, false, None)
  }

  /** A command survives the backlog unchanged exactly if it does not rerun a task and is not set up as a join. */
  lemma BacklogRoundTrip(c: Cmd)
    ensures FromDict(ToDict(c)) == c <==> c.kind != RunExistingTask && !c.wait && c.key == None
  {
  }

  /** A join that goes through the backlog comes back as a task that does not wait. */
  lemma JoinLosesWaitInBacklog()
    ensures var join := Cmd(RunTask, 0, true, Some(1)); FromDict(ToDict(join)) == Cmd(RunTask, 0, false, None)
  {
  }

  // ---------- rearranging ----------

  predicate ChangesState(c: Cmd) {
    c.kind in {FailWorkflow, SucceedWorkflow, PauseWorkflow}
  }

  predicate Runs(c: Cmd) {
    c.kind in {RunTask, RunExistingTask}
  }

  /** A join to be dispatched under a lock. */
  predicate Waits(c: Cmd) {
    c.kind == RunTask && c.wait
  }

  function Rank(c: Cmd): int {
    if Waits(c) then 1 + (if c.key.Some? then c.key.value else 0) else 0
  }

  /** Other commands first, then joins in ascending key order. */
  ghost predicate OrderedWaits(cmds: seq<Cmd>) {
    forall i, j :: 0 <= i < j < |cmds| && Waits(cmds[i]) ==> Waits(cmds[j]) && Rank(cmds[i]) <= Rank(cmds[j])
  }

  function WithoutNoops(cmds: seq<Cmd>): (r: seq<Cmd>)
    ensures forall c :: c in r <==> c in cmds && c.kind != Noop
  {
    if cmds == [] then []
    else WithoutNoops(cmds[..|cmds| - 1]) + if cmds[|cmds| - 1].kind == Noop then [] else [cmds[|cmds| - 1]]
  }

  ghost predicate IsFirstStateChange(cmds: seq<Cmd>, i: nat) {
    i < |cmds| && ChangesState(cmds[i]) && forall k :: 0 <= k < i ==> !ChangesState(cmds[k])
  }

  ghost predicate SortOf(res: seq<Cmd>, cmds: seq<Cmd>) {
    multiset(res) == multiset(cmds) && OrderedWaits(res)
  }

  /**
   The first change of state is at `i`: joins before it are in order, commands
   after it are kept behind a pause only.
   */
  ghost predicate ArrangedAt(some: seq<Cmd>, i: nat, res: seq<Cmd>) {
    && IsFirstStateChange(some, i) && i < |res| && SortOf(res[..i], some[..i])
    && if some[i].kind == PauseWorkflow then res[i..] == some[i..] else |res| == i + 1 && res[i] == some[i]
  }

  /**
   What rearranging may return.  The sort compares any two commands that do not
   wait as "less", so only the order of the joins is determined.
   */
  ghost predicate Arranged(cmds: seq<Cmd>, res: seq<Cmd>) {
    var some := WithoutNoops(cmds);
    if forall c :: c in some ==> !ChangesState(c) then SortOf(res, some)
    else exists i: nat :: ArrangedAt(some, i, res)
  }

  lemma SortedIsOrdered(cmds: seq<Cmd>)
    ensures SortOf(Sort(Rank, cmds), cmds)
  {
    SortIsCorrect(Rank, cmds);
    var res := Sort(Rank, cmds);
    forall i, j | 0 <= i < j < |res| && Waits(res[i])
      ensures Waits(res[j]) && Rank(res[i]) <= Rank(res[j])
    {
      assert Rank(res[i]) <= Rank(res[j]);
    }
  }

  method RemoveNoops(cmds: seq<Cmd>) returns (r: seq<Cmd>)
    ensures r == WithoutNoops(cmds)
  {
    r := [];
    for i := 0 to |cmds|
      invariant r == WithoutNoops(cmds[..i])
    {
      assert cmds[..i + 1][..i] == cmds[..i];
      if cmds[i].kind != Noop {
        r := r + [cmds[i]];
      }
    }
    assert cmds[..|cmds|] == cmds;
  }

  method RearrangeCommands(cmds: seq<Cmd>) returns (res: seq<Cmd>)
    ensures Arranged(cmds, res)
  {
    var some := RemoveNoops(cmds);
    var i := 0;
    while i < |some| && !ChangesState(some[i])
      invariant i <= |some| && forall k :: 0 <= k < i ==> !ChangesState(some[k])
    {
      i := i + 1;
    }
    if i == |some| {
      SortedIsOrdered(some);
      return Sort(Rank, some);
    }
    assert IsFirstStateChange(some, i) && some[i] in some;
    if i == 0 && some[0].kind != PauseWorkflow {
      ArrangedParts(some, 0, [], some[..1]);
      return some[..1];
    }
    SortedIsOrdered(some[..i]);
    var sorted := Sort(Rank, some[..i]);
    res := sorted + [some[i]];
    if some[i].kind == PauseWorkflow {
      res := res + some[i + 1..];
    }
    ArrangedParts(some, i, sorted, res);
  }

  lemma ArrangedParts(some: seq<Cmd>, i: nat, sorted: seq<Cmd>, res: seq<Cmd>)
    requires IsFirstStateChange(some, i) && SortOf(sorted, some[..i])
    requires res == sorted + [some[i]] + if some[i].kind == PauseWorkflow then some[i + 1..] else []
    ensures ArrangedAt(some, i, res)
  {
    SameLength(sorted, some[..i]);
    assert res[..i] == sorted;
    assert some[i..] == [some[i]] + some[i + 1..];
  }

  lemma SameLength(a: seq<Cmd>, b: seq<Cmd>)
    requires multiset(a) == multiset(b)
    ensures |a| == |b|
  {
    assert |multiset(a)| == |a| && |multiset(b)| == |b|;
  }

  // ---------- processing ----------

  /** The workflow state, the backlog in its runtime context, and the commands started so far, oldest first. */
  datatype Flow = Flow(wf: State, backlog: seq<Saved>, started: seq<Cmd>)

  /** One command, given the state of the workflow when its turn comes. */
  function Handle(f: Flow, c: Cmd): Flow {
    if IsCompleted(f.wf) then f
    else if f.wf == PAUSED then f.(backlog := f.backlog + [ToDict(c)])
    else
      match c.kind
      case RunTask => f.(started := f.started + [c])
      case RunExistingTask => f.(started := f.started + [c])
      case FailWorkflow => f.(wf := ERROR)
      case SucceedWorkflow => f.(wf := SUCCESS)
      case PauseWorkflow => f.(wf := PAUSED)
      case Noop => f
  }

  function HandleAll(f: Flow, cmds: seq<Cmd>): Flow {
    if cmds == [] then f else Handle(HandleAll(f, cmds[..|cmds| - 1]), cmds[|cmds| - 1])
  }

  ghost predicate Processed(f: Flow, cmds: seq<Cmd>, f': Flow) {
    exists res :: Arranged(cmds, res) && f' == HandleAll(f, res)
  }

  function Restored(backlog: seq<Saved>): (r: seq<Cmd>)
    ensures |r| == |backlog| && forall i :: 0 <= i < |r| ==> r[i] == FromDict(backlog[i])
  {
    seq(|backlog|, i requires 0 <= i < |backlog| => FromDict(backlog[i]))
  }

  /** First the backlog, then the new commands. */
  ghost predicate Dispatched(f: Flow, cmds: seq<Cmd>, f': Flow) {
    exists mid :: Processed(f.(backlog := []), Restored(f.backlog), mid) && Processed(mid, cmds, f')
  }

  class WorkflowExecution {
    var wf: State
    var backlog: seq<Saved>
    var started: seq<Cmd>

    ghost function View(): Flow
      reads this
    {
      Flow(wf, backlog, started)
    }

    method PollCommandsFromBacklog() returns (cmds: seq<Cmd>)
      modifies this`backlog
      ensures cmds == Restored(old(backlog)) && backlog == []
    {
      cmds := Restored(backlog);
      backlog := [];
    }

    method ProcessCommands(cmds: seq<Cmd>)
      modifies this
      ensures Processed(old(View()), cmds, View())
    {
      var res := RearrangeCommands(cmds);
      for i := 0 to |res|
        invariant View() == HandleAll(old(View()), res[..i])
      {
        assert res[..i + 1][..i] == res[..i];
        var c := res[i];
        if IsCompleted(wf) {
          CompletedIsFinal(old(View()), res, i);
          break;
        }
        if wf == PAUSED {
          SaveCommandToBacklog(c);
          continue;
        }
        ProcessCommand(c);
      }
      assert res[..|res|] == res;
    }

    method SaveCommandToBacklog(c: Cmd)
      requires wf == PAUSED
      modifies this`backlog
      ensures View() == Handle(old(View()), c)
    {
      backlog := backlog + [ToDict(c)];
    }

    method ProcessCommand(c: Cmd)
      requires wf != PAUSED && !IsCompleted(wf)
      modifies this
      ensures View() == Handle(old(View()), c)
    {
      if Runs(c) {
        started := started + [c];
      } else if ChangesState(c) {
        wf := if c.kind == FailWorkflow then ERROR else if c.kind == SucceedWorkflow then SUCCESS else PAUSED;
      }
    }

    method DispatchWorkflowCommands(cmds: seq<Cmd>)
      modifies this
      ensures Dispatched(old(View()), cmds, View())
    {
      var saved := PollCommandsFromBacklog();
      ProcessCommands(saved);
      ProcessCommands(cmds);
    }
  }

  /** Once the workflow is completed, the remaining commands change nothing. */
  lemma {:induction false} CompletedIsFinal(f: Flow, cmds: seq<Cmd>, i: nat)
    requires i <= |cmds| && IsCompleted(HandleAll(f, cmds[..i]).wf)
    ensures HandleAll(f, cmds) == HandleAll(f, cmds[..i])
    decreases |cmds| - i
  {
    if i < |cmds| {
      assert cmds[..i + 1][..i] == cmds[..i];
      CompletedIsFinal(f, cmds, i + 1);
    } else {
      assert cmds[..i] == cmds;
    }
  }

  // ---------- which commands must not be lost ----------

  predicate Ends(c: Cmd) {
    c.kind in {FailWorkflow, SucceedWorkflow}
  }

  predicate HasEnd(cmds: seq<Cmd>) {
    exists c :: c in cmds && Ends(c)
  }

  /** The tasks to run that have no fail or succeed ahead of them. */
  function Live(cmds: seq<Cmd>): multiset<nat> {
    if cmds == [] || Ends(cmds[0]) then multiset{}
    else (if Runs(cmds[0]) then multiset{cmds[0].id} else multiset{}) + Live(cmds[1..])
  }

  lemma {:induction false} LiveConcat(a: seq<Cmd>, b: seq<Cmd>)
    ensures HasEnd(a + b) <==> HasEnd(a) || HasEnd(b)
    ensures Live(a + b) == if HasEnd(a) then Live(a) else Live(a) + Live(b)
  {
    assert forall c :: c in a + b <==> c in a || c in b;
    if a == [] {
      assert a + b == b;
    } else {
      assert (a + b)[0] == a[0] && (a + b)[1..] == a[1..] + b;
      assert forall c :: c in a <==> c == a[0] || c in a[1..];
      LiveConcat(a[1..], b);
    }
  }

  lemma LiveSingle(c: Cmd)
    ensures Live([c]) == (if Runs(c) then multiset{c.id} else multiset{})
    ensures HasEnd([c]) <==> Ends(c)
  {
    assert [c][1..] == [];
    assert c in [c];
  }

  lemma LiveWithoutOne(b: seq<Cmd>, k: nat)
    requires k < |b| && !HasEnd(b)
    ensures var rest := b[..k] + b[k + 1..];
            && Live(b) == Live([b[k]]) + Live(rest) && !HasEnd(rest)
            && multiset(rest) == multiset(b) - multiset{b[k]}
  {
    assert b == b[..k] + ([b[k]] + b[k + 1..]);
    LiveConcat(b[..k], [b[k]] + b[k + 1..]);
    LiveConcat([b[k]], b[k + 1..]);
    LiveConcat(b[..k], b[k + 1..]);
  }

  /** Reordering commands none of which ends the workflow changes nothing. */
  lemma {:induction false} LiveOfPermutation(a: seq<Cmd>, b: seq<Cmd>)
    requires multiset(a) == multiset(b) && !HasEnd(a)
    ensures Live(a) == Live(b) && !HasEnd(b)
  {
    SameLength(a, b);
    if a != [] {
      assert a[0] in multiset(b);
      var k :| 0 <= k < |b| && b[k] == a[0];
      SameMembers(a, b);
      LiveWithoutOne(b, k);
      LiveWithoutOne(a, 0);
      assert a[..0] + a[1..] == a[1..];
      LiveOfPermutation(a[1..], b[..k] + b[k + 1..]);
    }
  }

  lemma SameMembers(a: seq<Cmd>, b: seq<Cmd>)
    requires multiset(a) == multiset(b)
    ensures forall c :: c in a <==> c in b
  {
    forall c
      ensures c in a <==> c in b
    {
      assert c in a <==> c in multiset(a);
    }
  }

  /** The same tasks stay to be run, and the workflow is ended by both or by neither. */
  ghost predicate Alike(a: seq<Cmd>, b: seq<Cmd>) {
    Live(a) == Live(b) && (HasEnd(a) <==> HasEnd(b))
  }

  lemma AlikeConcat(a: seq<Cmd>, a': seq<Cmd>, b: seq<Cmd>, b': seq<Cmd>)
    requires Alike(a, a') && Alike(b, b')
    ensures Alike(a + b, a' + b')
  {
    LiveConcat(a, b);
    LiveConcat(a', b');
  }

  lemma SkippingOne(queue: seq<Cmd>, c: Cmd)
    requires !Runs(c)
    ensures Live(queue + [c]) == Live(queue) && (HasEnd(queue + [c]) <==> HasEnd(queue) || Ends(c))
  {
    LiveConcat(queue, [c]);
    LiveSingle(c);
  }

  lemma {:induction false} LiveWithoutNoops(cmds: seq<Cmd>)
    ensures Alike(WithoutNoops(cmds), cmds)
  {
    if cmds == [] {
    } else {
      var front, last := cmds[..|cmds| - 1], cmds[|cmds| - 1];
      LiveWithoutNoops(front);
      assert cmds == front + [last];
      if last.kind == Noop {
        SkippingOne(front, last);
        assert WithoutNoops(cmds) == WithoutNoops(front);
      } else {
        AlikeConcat(WithoutNoops(front), front, [last], [last]);
      }
    }
  }

  lemma EndedAlike(a: seq<Cmd>, b: seq<Cmd>)
    requires a != [] && b != [] && Ends(a[0]) && Ends(b[0])
    ensures Alike(a, b)
  {
    assert a[0] in a && b[0] in b;
  }

  lemma NoEndBefore(some: seq<Cmd>, i: nat)
    requires IsFirstStateChange(some, i)
    ensures !HasEnd(some[..i])
  {
    forall c | c in some[..i]
      ensures !Ends(c)
    {
      var k :| 0 <= k < i && some[..i][k] == c;
      assert !ChangesState(some[k]);
    }
  }

  lemma ArrangedTails(some: seq<Cmd>, i: nat, res: seq<Cmd>)
    requires ArrangedAt(some, i, res)
    ensures Alike(res[i..], some[i..])
  {
    if some[i].kind != PauseWorkflow {
      EndedAlike(res[i..], some[i..]);
    }
  }

  lemma ArrangedAtKeepsLive(some: seq<Cmd>, i: nat, res: seq<Cmd>)
    requires ArrangedAt(some, i, res)
    ensures Alike(res, some)
  {
    NoEndBefore(some, i);
    LiveOfPermutation(some[..i], res[..i]);
    ArrangedTails(some, i, res);
    AlikeConcat(res[..i], some[..i], res[i..], some[i..]);
    assert some == some[..i] + some[i..] && res == res[..i] + res[i..];
  }

  /** Rearranging drops only commands that would never be reached. */
  lemma ArrangedKeepsLive(cmds: seq<Cmd>, res: seq<Cmd>)
    requires Arranged(cmds, res)
    ensures Alike(res, cmds)
  {
    var some := WithoutNoops(cmds);
    LiveWithoutNoops(cmds);
    if forall c :: c in some ==> !ChangesState(c) {
      LiveOfPermutation(some, res);
    } else {
      var i: nat :| ArrangedAt(some, i, res);
      ArrangedAtKeepsLive(some, i, res);
    }
  }

  /** A running workflow has no backlog, and only tasks are started. */
  ghost predicate Tidy(f: Flow) {
    (f.wf == RUNNING ==> f.backlog == []) && (forall c :: c in f.started ==> Runs(c)) &&
    (f.wf in {RUNNING, PAUSED} || IsCompleted(f.wf))
  }

  /** The started commands followed by those still kept. */
  function Line(f: Flow): seq<Cmd> {
    f.started + Restored(f.backlog)
  }

  /** The tasks of `queue` that nothing ends are those started or kept. */
  ghost predicate Carries(f: Flow, queue: seq<Cmd>) {
    Live(Line(f)) == Live(queue) && if IsCompleted(f.wf) then HasEnd(queue) else HasEnd(Line(f)) <==> HasEnd(queue)
  }

  lemma SavedIsAlike(backlog: seq<Saved>, c: Cmd)
    ensures var c' := FromDict(ToDict(c));
            Restored(backlog + [ToDict(c)]) == Restored(backlog) + [c'] && Alike([c'], [c])
  {
    LiveSingle(c);
    LiveSingle(FromDict(ToDict(c)));
  }

  lemma SavingOne(f: Flow, queue: seq<Cmd>, c: Cmd)
    requires Tidy(f) && Carries(f, queue) && f.wf == PAUSED
    ensures Carries(Handle(f, c), queue + [c])
  {
    var c' := FromDict(ToDict(c));
    SavedIsAlike(f.backlog, c);
    assert Line(Handle(f, c)) == Line(f) + [c'];
    AlikeConcat(Line(f), queue, [c'], [c]);
  }

  lemma HandlingStaysTidy(f: Flow, c: Cmd)
    requires Tidy(f)
    ensures Tidy(Handle(f, c))
  {
  }

  lemma StartingOne(f: Flow, queue: seq<Cmd>, c: Cmd)
    requires Tidy(f) && Carries(f, queue) && f.wf == RUNNING
    ensures Carries(Handle(f, c), queue + [c])
  {
    var f' := Handle(f, c);
    assert Line(f) == f.started && Line(f') == f'.started;
    if Runs(c) {
      assert f' == f.(started := f.started + [c]);
      AlikeConcat(f.started, queue, [c], [c]);
    } else {
      assert f'.started == f.started && (Ends(c) <==> IsCompleted(f'.wf));
      SkippingOne(queue, c);
    }
  }

  lemma HandlingOne(f: Flow, queue: seq<Cmd>, c: Cmd)
    requires Tidy(f) && Carries(f, queue)
    ensures Tidy(Handle(f, c)) && Carries(Handle(f, c), queue + [c])
  {
    HandlingStaysTidy(f, c);
    if f.wf == PAUSED {
      SavingOne(f, queue, c);
    } else if f.wf == RUNNING {
      StartingOne(f, queue, c);
    } else {
      LiveConcat(queue, [c]);
    }
  }

  lemma {:induction false} HandlingConserves(f: Flow, queue: seq<Cmd>, res: seq<Cmd>)
    requires Tidy(f) && Carries(f, queue)
    ensures Tidy(HandleAll(f, res)) && Carries(HandleAll(f, res), queue + res)
  {
    if res == [] {
      assert queue + res == queue;
    } else {
      var front, c := res[..|res| - 1], res[|res| - 1];
      HandlingConserves(f, queue, front);
      HandlingOne(HandleAll(f, front), queue + front, c);
      assert queue + res == queue + front + [c];
    }
  }

  lemma ProcessingConserves(f: Flow, queue: seq<Cmd>, cmds: seq<Cmd>, f': Flow)
    requires Tidy(f) && Carries(f, queue) && Processed(f, cmds, f')
    ensures Tidy(f') && Carries(f', queue + cmds)
  {
    var res :| Arranged(cmds, res) && f' == HandleAll(f, res);
    HandlingConserves(f, queue, res);
    ArrangedKeepsLive(cmds, res);
    AlikeConcat(queue, queue, res, cmds);
  }

  lemma CarriesAlike(f: Flow, a: seq<Cmd>, b: seq<Cmd>)
    requires Carries(f, a) && Alike(a, b)
    ensures Carries(f, b)
  {
  }

  /** Dispatching loses no command and repeats none, whatever the state it ends in. */
  lemma DispatchingConserves(f: Flow, queue: seq<Cmd>, cmds: seq<Cmd>, f': Flow)
    requires f.wf == RUNNING && (forall c :: c in f.started ==> Runs(c))
    requires Alike(Line(f), queue) && Dispatched(f, cmds, f')
    ensures Tidy(f') && Carries(f', queue + cmds)
  {
    var f0, saved := f.(backlog := []), Restored(f.backlog);
    var mid :| Processed(f0, saved, mid) && Processed(mid, cmds, f');
    ClearedCarries(f0);
    ProcessingConserves(f0, f.started, saved, mid);
    ProcessingConserves(mid, f.started + saved, cmds, f');
    AlikeConcat(Line(f), queue, cmds, cmds);
    CarriesAlike(f', Line(f) + cmds, queue + cmds);
  }

  lemma ClearedCarries(f: Flow)
    requires f.wf == RUNNING && f.backlog == []
    ensures Carries(f, f.started)
  {
    assert Line(f) == f.started;
  }

  // ---------- rounds of dispatching, pausing and resuming ----------

  datatype Action = Submit(cmds: seq<Cmd>) | Resume(cmds: seq<Cmd>) | ApiPause | Complete(state: State)

  function WithoutPauses(cmds: seq<Cmd>): seq<Cmd> {
    if cmds == [] then []
    else WithoutPauses(cmds[..|cmds| - 1]) + if cmds[|cmds| - 1].kind == PauseWorkflow then [] else [cmds[|cmds| - 1]]
  }

  /** The commands an action hands to the dispatcher; pause commands found on resume are ignored. */
  function New(a: Action): seq<Cmd> {
    match a
    case Submit(cmds) => cmds
    case Resume(cmds) => WithoutPauses(cmds)
    case _ => []
  }

  ghost predicate Step(f: Flow, a: Action, f': Flow) {
    match a
    case Submit(cmds) => f.wf == RUNNING && Dispatched(f, cmds, f')
    case Resume(_) =>
      f.wf == PAUSED &&
      if New(a) != [] || f.backlog != [] then Dispatched(f.(wf := RUNNING), New(a), f')
      else f'.wf in {RUNNING, SUCCESS, ERROR, CANCELLED} && f' == f.(wf := f'.wf)
    case ApiPause => f.wf == RUNNING && f' == f.(wf := PAUSED)
    case Complete(st) => !IsCompleted(f.wf) && IsCompleted(st) && f' == f.(wf := st)
  }

  /** The actions of a run with the states they lead to, latest last. */
  datatype Trace = Begin | Then(before: Trace, action: Action, flow: Flow)

  function FlowOf(tr: Trace): Flow {
    if tr.Begin? then Flow(RUNNING, [], []) else tr.flow
  }

  ghost predicate IsRun(tr: Trace) {
    tr.Then? ==> IsRun(tr.before) && Step(FlowOf(tr.before), tr.action, tr.flow)
  }

  /** Every command ever handed to the dispatcher, in order. */
  function Submitted(tr: Trace): seq<Cmd> {
    if tr.Begin? then [] else Submitted(tr.before) + New(tr.action)
  }

  ghost predicate Accounted(f: Flow, queue: seq<Cmd>) {
    && Tidy(f) && Live(Line(f)) == Live(queue)
    && (!IsCompleted(f.wf) ==> (HasEnd(Line(f)) <==> HasEnd(queue)))
  }

  lemma StepConserves(f: Flow, a: Action, f': Flow, queue: seq<Cmd>)
    requires Step(f, a, f') && Accounted(f, queue)
    ensures Accounted(f', queue + New(a))
  {
    if a.Submit? || (a.Resume? && (New(a) != [] || f.backlog != [])) {
      DispatchingConserves(f.(wf := RUNNING), queue, New(a), f');
    } else {
      assert queue + New(a) == queue;
      assert Line(f') == Line(f);
    }
  }

  lemma {:induction false} RunConserves(tr: Trace)
    requires IsRun(tr)
    ensures Accounted(FlowOf(tr), Submitted(tr))
  {
    if tr.Begin? {
    } else {
      RunConserves(tr.before);
      StepConserves(FlowOf(tr.before), tr.action, tr.flow, Submitted(tr.before));
    }
  }

  /** How often the command `id` was started. */
  function Starts(started: seq<Cmd>, id: nat): nat {
    if started == [] then 0 else (if started[0].id == id then 1 else 0) + Starts(started[1..], id)
  }

  lemma {:induction false} StartsAreLive(started: seq<Cmd>, id: nat)
    requires forall c :: c in started ==> Runs(c)
    ensures Live(started)[id] == Starts(started, id) && !HasEnd(started)
  {
    if started == [] {
    } else {
      assert started[0] in started && forall c :: c in started[1..] ==> c in started;
      StartsAreLive(started[1..], id);
    }
  }

  ghost predicate Distinct(cmds: seq<Cmd>) {
    forall i, j :: 0 <= i < j < |cmds| ==> cmds[i].id != cmds[j].id
  }

  /** A task is live exactly if some command runs it with no fail or succeed ahead. */
  lemma {:induction false} LiveOnce(cmds: seq<Cmd>, id: nat)
    requires Distinct(cmds)
    ensures Live(cmds)[id] == if Unended(cmds, id) then 1 else 0
  {
    if cmds == [] {
    } else {
      var front, last := cmds[..|cmds| - 1], cmds[|cmds| - 1];
      LiveOnce(front, id);
      assert cmds == front + [last];
      LiveConcat(front, [last]);
      LiveSingle(last);
      UnendedFront(cmds, id);
    }
  }

  ghost predicate UnendedAt(cmds: seq<Cmd>, id: nat, i: nat) {
    i < |cmds| && cmds[i].kind in {RunTask, RunExistingTask} && cmds[i].id == id && !HasEnd(cmds[..i])
  }

  ghost predicate Unended(cmds: seq<Cmd>, id: nat) {
    exists i: nat :: UnendedAt(cmds, id, i)
  }

  lemma UnendedFront(cmds: seq<Cmd>, id: nat)
    requires cmds != [] && Distinct(cmds)
    ensures var n := |cmds| - 1;
            && (Unended(cmds, id) <==> Unended(cmds[..n], id) || UnendedAt(cmds, id, n))
            && !(Unended(cmds[..n], id) && UnendedAt(cmds, id, n))
  {
    var n := |cmds| - 1;
    forall i: nat | i < n
      ensures UnendedAt(cmds, id, i) <==> UnendedAt(cmds[..n], id, i)
    {
      assert cmds[..n][..i] == cmds[..i];
    }
  }

  /**
   Over any run of dispatching, pausing and resuming, a command to run a task
   that no fail or succeed comes before is started once or is in the backlog,
   and not both.  A command behind a fail or succeed is never started.
   */
  lemma StartedOnceOrKept(tr: Trace, id: nat)
    requires IsRun(tr) && Distinct(Submitted(tr))
    ensures Starts(FlowOf(tr).started, id) + Live(Restored(FlowOf(tr).backlog))[id] ==
            if Unended(Submitted(tr), id) then 1 else 0
  {
    var f := FlowOf(tr);
    RunConserves(tr);
    LiveOnce(Submitted(tr), id);
    StartsAreLive(f.started, id);
    LiveConcat(f.started, Restored(f.backlog));
  }

  // ---------- what one pass does ----------

  lemma {:induction false} HandlingConcat(f: Flow, a: seq<Cmd>, b: seq<Cmd>)
    ensures HandleAll(f, a + b) == HandleAll(HandleAll(f, a), b)
  {
    if b == [] {
      assert a + b == a;
    } else {
      var front := b[..|b| - 1];
      assert (a + b)[..|a + b| - 1] == a + front;
      HandlingConcat(f, a, front);
    }
  }

  /** A running workflow starts all tasks, in order. */
  lemma {:induction false} RunningStartsAll(f: Flow, cmds: seq<Cmd>)
    requires f.wf == RUNNING && forall c :: c in cmds ==> Runs(c)
    ensures HandleAll(f, cmds) == f.(started := f.started + cmds)
  {
    if cmds == [] {
      assert f.started + cmds == f.started;
    } else {
      var front, last := cmds[..|cmds| - 1], cmds[|cmds| - 1];
      assert last in cmds && Runs(last);
      RunningStartsAll(f, front);
      assert f.started + cmds == f.started + front + [last];
    }
  }

  function SavedAll(cmds: seq<Cmd>): (r: seq<Saved>) {
    if cmds == [] then [] else SavedAll(cmds[..|cmds| - 1]) + [ToDict(cmds[|cmds| - 1])]
  }

  /** A paused workflow keeps all commands, in order. */
  lemma {:induction false} PausedKeepsAll(f: Flow, cmds: seq<Cmd>)
    requires f.wf == PAUSED
    ensures HandleAll(f, cmds) == f.(backlog := f.backlog + SavedAll(cmds))
  {
    if cmds == [] {
      assert f.backlog + SavedAll(cmds) == f.backlog;
    } else {
      var front, last := cmds[..|cmds| - 1], cmds[|cmds| - 1];
      PausedKeepsAll(f, front);
      assert f.backlog + SavedAll(cmds) == f.backlog + SavedAll(front) + [ToDict(last)];
    }
  }

  /** A pass has started the commands of `sorted` in this order and kept `kept`. */
  ghost predicate Passed(f: Flow, sorted: seq<Cmd>, f': Flow, kept: seq<Cmd>) {
    && OrderedWaits(sorted) && f'.started == f.started + sorted && f'.backlog == SavedAll(kept)
    && (f'.wf == RUNNING ==> kept == []) && (f'.wf in {RUNNING, PAUSED} || IsCompleted(f'.wf))
  }

  lemma PassWithoutChange(f: Flow, some: seq<Cmd>, res: seq<Cmd>)
    requires f.wf == RUNNING && f.backlog == [] && SortOf(res, some)
    requires forall c :: c in some ==> Runs(c)
    ensures Passed(f, res, HandleAll(f, res), []) && HandleAll(f, res).wf == RUNNING
  {
    SameMembers(res, some);
    RunningStartsAll(f, res);
  }

  /** The state that a command asks for. */
  function Commanded(c: Cmd): State
    requires ChangesState(c)
  {
    match c.kind
    case FailWorkflow => ERROR
    case SucceedWorkflow => SUCCESS
    case _ => PAUSED
  }

  /** The first of the commands that changes the state decides it. */
  ghost predicate Decides(cmds: seq<Cmd>, wf: State) {
    if forall c :: c in cmds ==> !ChangesState(c) then wf == RUNNING
    else exists i: nat :: IsFirstStateChange(cmds, i) && wf == Commanded(cmds[i])
  }

  lemma RunsThenChanges(f: Flow, sorted: seq<Cmd>, c: Cmd, kept: seq<Cmd>)
    requires f.wf == RUNNING && f.backlog == [] && (forall d :: d in sorted ==> Runs(d))
    requires ChangesState(c) && (c.kind == PauseWorkflow || kept == [])
    ensures var f' := HandleAll(f, sorted + [c] + kept);
            && f'.started == f.started + sorted && f'.backlog == SavedAll(kept)
            && f'.wf == Commanded(c) && (f'.wf == PAUSED || (IsCompleted(f'.wf) && kept == []))
  {
    RunningStartsAll(f, sorted);
    var f1 := f.(started := f.started + sorted);
    HandlingConcat(f, sorted, [c]);
    assert [c][..0] == [];
    assert HandleAll(f1, [c]) == Handle(HandleAll(f1, []), c) == Handle(f1, c);
    HandlingConcat(f, sorted + [c], kept);
    if c.kind == PauseWorkflow {
      PausedKeepsAll(Handle(f1, c), kept);
    }
  }

  lemma ArrangedSplits(some: seq<Cmd>, i: nat, res: seq<Cmd>)
    requires ArrangedAt(some, i, res)
    ensures res == res[..i] + [some[i]] + if some[i].kind == PauseWorkflow then some[i + 1..] else []
  {
    assert res == res[..i] + res[i..];
    assert some[i..] == [some[i]] + some[i + 1..];
    assert some[i].kind != PauseWorkflow ==> res[i..] == [some[i]];
  }

  lemma PassWithChange(f: Flow, some: seq<Cmd>, i: nat, res: seq<Cmd>)
    requires f.wf == RUNNING && f.backlog == [] && ArrangedAt(some, i, res)
    requires forall c :: c in some ==> c.kind != Noop
    ensures var kept := if some[i].kind == PauseWorkflow then some[i + 1..] else [];
            Passed(f, res[..i], HandleAll(f, res), kept) && HandleAll(f, res).wf == Commanded(some[i])
  {
    var kept := if some[i].kind == PauseWorkflow then some[i + 1..] else [];
    SameMembers(res[..i], some[..i]);
    TasksBefore(some, i);
    ArrangedSplits(some, i, res);
    RunsThenChanges(f, res[..i], some[i], kept);
  }

  lemma TasksBefore(some: seq<Cmd>, i: nat)
    requires IsFirstStateChange(some, i) && forall c :: c in some ==> c.kind != Noop
    ensures forall c :: c in some[..i] ==> Runs(c)
  {
    forall c | c in some[..i]
      ensures Runs(c)
    {
      var k :| 0 <= k < i && some[..i][k] == c;
      assert !ChangesState(some[k]) && some[k] in some;
    }
  }

  /** The pass starts tasks before joins, joins in key order, and keeps fewer pauses than it was given. */
  ghost predicate PassedSome(f: Flow, cmds: seq<Cmd>, f': Flow) {
    exists sorted, kept :: Passed(f, sorted, f', kept) && (kept == [] || Pauses(kept) < Pauses(cmds))
  }

  lemma KeptHasFewerPauses(some: seq<Cmd>, i: nat)
    requires i < |some| && some[i].kind == PauseWorkflow
    ensures Pauses(some[i + 1..]) < Pauses(some)
  {
    assert some == some[..i] + some[i..] && some[i..][1..] == some[i + 1..];
    PausesConcat(some[..i], some[i..]);
  }

  lemma ChangingPass(f: Flow, cmds: seq<Cmd>, some: seq<Cmd>, i: nat, res: seq<Cmd>)
    requires f.wf == RUNNING && f.backlog == [] && ArrangedAt(some, i, res)
    requires (forall c :: c in some ==> c.kind != Noop) && Pauses(some) == Pauses(cmds)
    ensures PassedSome(f, cmds, HandleAll(f, res)) && Decides(some, HandleAll(f, res).wf)
  {
    assert some[i] in some;
    PassWithChange(f, some, i, res);
    if some[i].kind == PauseWorkflow {
      KeptHasFewerPauses(some, i);
    }
  }

  /**
   The joins of one pass are started, and so locked, in the order of their keys,
   and the state is the one asked for first.
   */
  lemma PassStartsJoinsInOrder(f: Flow, cmds: seq<Cmd>, f': Flow)
    requires f.wf == RUNNING && f.backlog == [] && Processed(f, cmds, f')
    ensures PassedSome(f, cmds, f') && Decides(WithoutNoops(cmds), f'.wf)
  {
    var some := WithoutNoops(cmds);
    PausesWithoutNoops(cmds);
    var res :| Arranged(cmds, res) && f' == HandleAll(f, res);
    if forall c :: c in some ==> !ChangesState(c) {
      PassWithoutChange(f, some, res);
    } else {
      var i: nat :| ArrangedAt(some, i, res);
      ChangingPass(f, cmds, some, i, res);
    }
  }

  // ---------- the backlog drains ----------

  function Pauses(cmds: seq<Cmd>): nat {
    if cmds == [] then 0 else (if cmds[0].kind == PauseWorkflow then 1 else 0) + Pauses(cmds[1..])
  }

  lemma {:induction false} PausesConcat(a: seq<Cmd>, b: seq<Cmd>)
    ensures Pauses(a + b) == Pauses(a) + Pauses(b)
  {
    if a == [] {
      assert a + b == b;
    } else {
      assert (a + b)[0] == a[0] && (a + b)[1..] == a[1..] + b;
      PausesConcat(a[1..], b);
    }
  }

  lemma {:induction false} PausesWithoutNoops(cmds: seq<Cmd>)
    ensures Pauses(WithoutNoops(cmds)) == Pauses(cmds)
  {
    if cmds == [] {
    } else {
      var front, last := cmds[..|cmds| - 1], cmds[|cmds| - 1];
      PausesWithoutNoops(front);
      assert cmds == front + [last];
      PausesConcat(front, [last]);
      PausesConcat(WithoutNoops(front), [last]);
      assert [last][1..] == [];
      assert WithoutNoops(cmds) == WithoutNoops(front) + if last.kind == Noop then [] else [last];
      if last.kind == Noop {
        assert WithoutNoops(cmds) == WithoutNoops(front);
      }
    }
  }

  lemma {:induction false} PausesAreSaved(cmds: seq<Cmd>)
    ensures Pauses(Restored(SavedAll(cmds))) == Pauses(cmds)
  {
    if cmds == [] {
    } else {
      var front, last := cmds[..|cmds| - 1], cmds[|cmds| - 1];
      PausesAreSaved(front);
      var last' := FromDict(ToDict(last));
      assert Restored(SavedAll(cmds)) == Restored(SavedAll(front)) + [last'];
      assert cmds == front + [last];
      PausesConcat(front, [last]);
      PausesConcat(Restored(SavedAll(front)), [last']);
      assert [last][1..] == [] && [last'][1..] == [];
    }
  }

  /** The pauses still waiting in the backlog. */
  function PausesLeft(f: Flow): nat {
    Pauses(Restored(f.backlog))
  }

  ghost predicate Drained(f: Flow) {
    f.backlog == [] || IsCompleted(f.wf)
  }

  lemma ProcessingNothing(f: Flow, f': Flow)
    requires Processed(f, [], f')
    ensures f' == f
  {
    var res :| Arranged([], res) && f' == HandleAll(f, res);
    SameLength(res, []);
  }

  /** Resuming without new commands drains the backlog, or uses up one of its pauses. */
  lemma ResumeDrains(f: Flow, f': Flow, cmds: seq<Cmd>)
    requires Step(f, Resume(cmds), f') && WithoutPauses(cmds) == []
    ensures Drained(f') || (f'.wf == PAUSED && PausesLeft(f') < PausesLeft(f))
  {
    if f.backlog != [] {
      var f0 := f.(wf := RUNNING, backlog := []);
      var mid :| Processed(f0, Restored(f.backlog), mid) && Processed(mid, [], f');
      ProcessingNothing(mid, f');
      PassStartsJoinsInOrder(f0, Restored(f.backlog), mid);
      var sorted, kept :| Passed(f0, sorted, mid, kept) && (kept == [] || Pauses(kept) < Pauses(Restored(f.backlog)));
      PausesAreSaved(kept);
    }
  }

  /** `late` continues `early`, handing no new commands to the dispatcher; `resumes` counts the resumes. */
  ghost predicate QuietSince(early: Trace, late: Trace, resumes: nat)
    decreases late
  {
    if late == early then resumes == 0
    else late.Then? && New(late.action) == [] && !late.action.Submit? &&
         if late.action.Resume? then resumes > 0 && QuietSince(early, late.before, resumes - 1)
         else QuietSince(early, late.before, resumes)
  }

  /** With no new commands, the backlog is empty after at most one resume more than the pauses it holds. */
  lemma {:induction false} BacklogDrains(early: Trace, late: Trace, resumes: nat)
    requires IsRun(late) && QuietSince(early, late, resumes)
    requires resumes > PausesLeft(FlowOf(early))
    ensures Drained(FlowOf(late))
  {
    DrainsInTime(early, late, resumes);
  }

  lemma {:induction false} DrainsInTime(early: Trace, late: Trace, resumes: nat)
    requires IsRun(late) && QuietSince(early, late, resumes)
    ensures Drained(FlowOf(late)) || PausesLeft(FlowOf(late)) + resumes <= PausesLeft(FlowOf(early))
  {
    if late != early {
      var f := FlowOf(late.before);
      RunConserves(late.before);
      if late.action.Resume? {
        DrainsInTime(early, late.before, resumes - 1);
        ResumeDrains(f, late.flow, late.action.cmds);
      } else {
        DrainsInTime(early, late.before, resumes);
      }
    }
  }

  // ---------- a resume that starts nothing ----------

  ghost predicate OnlyNoops(cmds: seq<Cmd>) {
    forall c :: c in cmds ==> c.kind == Noop
  }

  /** No-ops are dropped before anything is saved. */
  ghost predicate SavesNoNoop(backlog: seq<Saved>) {
    forall d :: d in backlog ==> d.name != NoopName
  }

  lemma {:induction false} HandlingSavesNoNoop(f: Flow, cmds: seq<Cmd>)
    requires SavesNoNoop(f.backlog) && forall c :: c in cmds ==> c.kind != Noop
    ensures SavesNoNoop(HandleAll(f, cmds).backlog)
  {
    if cmds == [] {
    } else {
      var front, last := cmds[..|cmds| - 1], cmds[|cmds| - 1];
      assert last in cmds && forall c :: c in front ==> c in cmds;
      HandlingSavesNoNoop(f, front);
    }
  }

  lemma ArrangedHasNoNoop(cmds: seq<Cmd>, res: seq<Cmd>)
    requires Arranged(cmds, res)
    ensures forall c :: c in res ==> c.kind != Noop
  {
    var some := WithoutNoops(cmds);
    if forall c :: c in some ==> !ChangesState(c) {
      SameMembers(res, some);
    } else {
      var i: nat :| ArrangedAt(some, i, res);
      ArrangedSplits(some, i, res);
      SameMembers(res[..i], some[..i]);
      forall c | c in res
        ensures c in some
      {
        assert c in res[..i] || c == some[i] || c in some[i + 1..];
      }
    }
  }

  lemma ProcessingSavesNoNoop(f: Flow, cmds: seq<Cmd>, f': Flow)
    requires SavesNoNoop(f.backlog) && Processed(f, cmds, f')
    ensures SavesNoNoop(f'.backlog)
  {
    var res :| Arranged(cmds, res) && f' == HandleAll(f, res);
    ArrangedHasNoNoop(cmds, res);
    HandlingSavesNoNoop(f, res);
  }

  lemma {:induction false} RunSavesNoNoop(tr: Trace)
    requires IsRun(tr)
    ensures SavesNoNoop(FlowOf(tr).backlog)
  {
    if tr.Begin? {
    } else {
      RunSavesNoNoop(tr.before);
      var f := FlowOf(tr.before).(wf := RUNNING);
      if tr.action.Submit? || (tr.action.Resume? && (New(tr.action) != [] || f.backlog != [])) {
        var mid :| Processed(f.(backlog := []), Restored(f.backlog), mid) && Processed(mid, New(tr.action), tr.flow);
        ProcessingSavesNoNoop(f.(backlog := []), Restored(f.backlog), mid);
        ProcessingSavesNoNoop(mid, New(tr.action), tr.flow);
      }
    }
  }

  /** A pass that leaves a running workflow with nothing started was given no-ops only. */
  lemma QuietPass(f: Flow, cmds: seq<Cmd>, f': Flow)
    requires f.wf == RUNNING && f.backlog == [] && Processed(f, cmds, f')
    ensures f'.wf == RUNNING && f'.started == f.started <==> OnlyNoops(cmds)
    ensures OnlyNoops(cmds) ==> f' == f
    ensures f'.wf == RUNNING ==> f'.backlog == [] && f.started <= f'.started
  {
    var some := WithoutNoops(cmds);
    var res :| Arranged(cmds, res) && f' == HandleAll(f, res);
    NoopsOnly(cmds);
    if forall c :: c in some ==> !ChangesState(c) {
      AllRun(some);
      QuietSort(f, some, res);
    } else {
      var i: nat :| ArrangedAt(some, i, res);
      ChangeStops(f, some, i, res);
    }
  }

  lemma AllRun(some: seq<Cmd>)
    requires forall c :: c in some ==> !ChangesState(c) && c.kind != Noop
    ensures forall c :: c in some ==> Runs(c)
  {
  }

  lemma ChangeStops(f: Flow, some: seq<Cmd>, i: nat, res: seq<Cmd>)
    requires f.wf == RUNNING && f.backlog == [] && ArrangedAt(some, i, res) && forall c :: c in some ==> c.kind != Noop
    ensures HandleAll(f, res).wf != RUNNING && some != []
  {
    PassWithChange(f, some, i, res);
  }

  lemma QuietSort(f: Flow, some: seq<Cmd>, res: seq<Cmd>)
    requires f.wf == RUNNING && f.backlog == [] && SortOf(res, some) && forall c :: c in some ==> Runs(c)
    ensures var f' := HandleAll(f, res);
            && f'.wf == RUNNING && f'.backlog == [] && f.started <= f'.started
            && (f'.started == f.started <==> some == []) && (some == [] ==> f' == f)
  {
    PassWithoutChange(f, some, res);
    SameLength(res, some);
    var f' := HandleAll(f, res);
    assert f'.started == f.started + res;
    assert |f'.started| == |f.started| + |some|;
    if some == [] {
      assert res == [];
    }
  }

  lemma NoopsOnly(cmds: seq<Cmd>)
    ensures WithoutNoops(cmds) == [] <==> OnlyNoops(cmds)
  {
    if WithoutNoops(cmds) != [] {
      assert WithoutNoops(cmds)[0] in WithoutNoops(cmds);
    }
  }

  /** A pass that does not start from a running workflow does not end in one. */
  lemma {:induction false} NotRunningStays(f: Flow, cmds: seq<Cmd>)
    requires f.wf != RUNNING && (f.wf == PAUSED || IsCompleted(f.wf))
    ensures HandleAll(f, cmds).wf == f.wf
  {
    if cmds == [] {
    } else {
      NotRunningStays(f, cmds[..|cmds| - 1]);
    }
  }

  lemma RestoredHasNoNoop(backlog: seq<Saved>)
    requires SavesNoNoop(backlog)
    ensures OnlyNoops(Restored(backlog)) <==> backlog == []
  {
    if backlog != [] {
      assert backlog[0] in backlog && Restored(backlog)[0] in Restored(backlog);
    }
  }

  lemma StoppedPass(f: Flow, saved: seq<Cmd>, mid: Flow, cmds: seq<Cmd>, f': Flow)
    requires f.wf == RUNNING && f.backlog == [] && Processed(f, saved, mid)
    requires mid.wf != RUNNING && Processed(mid, cmds, f')
    ensures f'.wf != RUNNING
  {
    PassStartsJoinsInOrder(f, saved, mid);
    var res :| Arranged(cmds, res) && f' == HandleAll(mid, res);
    NotRunningStays(mid, res);
  }

  lemma QuietDispatch(f: Flow, cmds: seq<Cmd>, f': Flow)
    requires f.wf == RUNNING && SavesNoNoop(f.backlog) && Dispatched(f, cmds, f')
    ensures f'.wf == RUNNING && f'.started == f.started <==> f.backlog == [] && OnlyNoops(cmds)
  {
    var f0, saved := f.(backlog := []), Restored(f.backlog);
    var mid :| Processed(f0, saved, mid) && Processed(mid, cmds, f');
    RestoredHasNoNoop(f.backlog);
    QuietPass(f0, saved, mid);
    if mid.wf == RUNNING {
      QuietPass(mid, cmds, f');
      if f'.wf == RUNNING && f'.started == f.started {
        assert mid.started == f.started;
      }
    } else {
      StoppedPass(f0, saved, mid, cmds, f');
    }
  }

  /**
   A resume that has something to dispatch leaves the workflow running with
   nothing started exactly if the backlog is empty and the commands it found are
   no-ops.
   */
  lemma ResumeStartsNothing(tr: Trace)
    requires IsRun(tr) && tr.Then? && tr.action.Resume? && (New(tr.action) != [] || FlowOf(tr.before).backlog != [])
    ensures var f, f' := FlowOf(tr.before), tr.flow;
            f'.wf == RUNNING && f'.started == f.started <==> f.backlog == [] && OnlyNoops(New(tr.action))
  {
    RunSavesNoNoop(tr.before);
    QuietDispatch(FlowOf(tr.before).(wf := RUNNING), New(tr.action), tr.flow);
  }

  /** Such a resume happens: a task is started, and leads to a no-op when it completes during a pause. */
  lemma NothingIsStarted(task: Cmd, noop: Cmd) returns (tr: Trace)
    requires task.kind == RunTask && noop.kind == Noop
    ensures IsRun(tr) && tr.Then? && tr.action == Resume([noop]) && New(tr.action) == [noop]
    ensures tr.before == Then(Then(Begin, Submit([task]), tr.flow), ApiPause, tr.flow.(wf := PAUSED))
    ensures tr.flow == Flow(RUNNING, [], [task])
  {
    var run := Flow(RUNNING, [], [task]);
    var started := Then(Begin, Submit([task]), run);
    var paused := Then(started, ApiPause, run.(wf := PAUSED));
    tr := Then(paused, Resume([noop]), run);
    TaskIsStarted(task);
    assert [noop][..0] == [];
    assert WithoutPauses([noop]) == WithoutPauses([]) + [noop] == [noop];
    NoopsDoNothing(run, noop);
    assert IsRun(Begin) && IsRun(started) && IsRun(paused);
  }

  lemma TaskIsStarted(task: Cmd)
    requires task.kind == RunTask
    ensures Dispatched(Flow(RUNNING, [], []), [task], Flow(RUNNING, [], [task]))
  {
    var f, f' := Flow(RUNNING, [], []), Flow(RUNNING, [], [task]);
    ArrangedAlone(task);
    RunningStartsAll(f, [task]);
    assert f.started + [task] == [task];
    assert Processed(f, [task], f');
    NothingDoesNothing(f);
    assert f.(backlog := []) == f && f.backlog == [];
  }

  lemma ArrangedAlone(task: Cmd)
    requires task.kind == RunTask
    ensures Arranged([task], [task])
  {
    assert [task][..0] == [];
    assert WithoutNoops([task]) == WithoutNoops([]) + [task] == [task];
  }

  lemma NothingDoesNothing(f: Flow)
    ensures Processed(f, Restored([]), f)
  {
    assert Restored([]) == [] && WithoutNoops([]) == [];
    assert Arranged([], []) && HandleAll(f, []) == f;
  }

  lemma NoopsDoNothing(f: Flow, noop: Cmd)
    requires noop.kind == Noop && f.backlog == []
    ensures Dispatched(f, [noop], f)
  {
    assert [noop][..0] == [];
    assert WithoutNoops([noop]) == WithoutNoops([]) == [];
    assert Arranged([noop], []) && Arranged(Restored([]), []);
    assert HandleAll(f, []) == f;
    assert Processed(f, Restored([]), f) && Processed(f, [noop], f);
  }
}
