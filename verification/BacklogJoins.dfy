/** Which joins lose their wait flag on the way through the dispatcher. */
module BacklogJoins {
  import opened States
  import opened Dispatcher

  /** What is left of a command that was saved and restored. */
  function Reread(c: Cmd): Cmd {
    FromDict(ToDict(c))
  }

  // ---------- one pass ----------

  /** The commands ahead of the first one that changes the state. */
  function Ahead(cmds: seq<Cmd>): seq<Cmd> {
    if cmds == [] || ChangesState(cmds[0]) then [] else [cmds[0]] + Ahead(cmds[1..])
  }

  /** The state asked for first, or the workflow stays running. */
  function Asked(cmds: seq<Cmd>): State {
    if cmds == [] then RUNNING else if ChangesState(cmds[0]) then Commanded(cmds[0]) else Asked(cmds[1..])
  }

  lemma {:induction false} AheadIsPrefix(cmds: seq<Cmd>, i: nat)
    requires i <= |cmds| && (forall k :: 0 <= k < i ==> !ChangesState(cmds[k]))
    requires i == |cmds| || ChangesState(cmds[i])
    ensures Ahead(cmds) == cmds[..i] && Asked(cmds) == if i == |cmds| then RUNNING else Commanded(cmds[i])
  {
    if i == 0 {
    } else {
      AheadIsPrefix(cmds[1..], i - 1);
      assert cmds[..i] == [cmds[0]] + cmds[1..][..i - 1];
    }
  }

  ghost predicate Among(some: seq<Cmd>, all: seq<Cmd>) {
    forall c :: c in some ==> c in all
  }

  /** A pass over a running workflow starts what is ahead of the first state change and keeps some of the rest. */
  ghost predicate PassOf(f: Flow, some: seq<Cmd>, f': Flow, i: nat, kept: seq<Cmd>) {
    && i <= |some| && Ahead(some) == some[..i] && Among(kept, some[i..])
    && (forall c :: c in f'.started <==> c in f.started || c in Ahead(some))
    && f'.backlog == SavedAll(kept) && f'.wf == Asked(some) && (f'.wf == RUNNING ==> kept == [])
  }

  lemma QuietPassAhead(f: Flow, some: seq<Cmd>, res: seq<Cmd>)
    requires f.wf == RUNNING && f.backlog == [] && SortOf(res, some) && forall c :: c in some ==> Runs(c)
    ensures PassOf(f, some, HandleAll(f, res), |some|, [])
  {
    PassWithoutChange(f, some, res);
    assert forall k :: 0 <= k < |some| ==> some[k] in some;
    AheadIsPrefix(some, |some|);
    SameMembers(res, some);
    assert some[..|some|] == some;
  }

  lemma ChangingPassAhead(f: Flow, some: seq<Cmd>, i: nat, res: seq<Cmd>)
    requires f.wf == RUNNING && f.backlog == [] && ArrangedAt(some, i, res) && forall c :: c in some ==> c.kind != Noop
    ensures PassOf(f, some, HandleAll(f, res), i, if some[i].kind == PauseWorkflow then some[i + 1..] else [])
  {
    PassWithChange(f, some, i, res);
    AheadIsPrefix(some, i);
    SameMembers(res[..i], some[..i]);
    assert some[i..] == [some[i]] + some[i + 1..];
  }

  lemma PassAhead(f: Flow, cmds: seq<Cmd>, f': Flow) returns (i: nat, kept: seq<Cmd>)
    requires f.wf == RUNNING && f.backlog == [] && Processed(f, cmds, f')
    ensures PassOf(f, WithoutNoops(cmds), f', i, kept)
  {
    var some := WithoutNoops(cmds);
    var res :| Arranged(cmds, res) && f' == HandleAll(f, res);
    if forall c :: c in some ==> !ChangesState(c) {
      AllRun(some);
      QuietPassAhead(f, some, res);
      i, kept := |some|, [];
    } else {
      i :| ArrangedAt(some, i, res);
      ChangingPassAhead(f, some, i, res);
      kept := if some[i].kind == PauseWorkflow then some[i + 1..] else [];
    }
  }

  lemma ArrangedAmong(cmds: seq<Cmd>, res: seq<Cmd>)
    requires Arranged(cmds, res)
    ensures Among(res, cmds)
  {
    var some := WithoutNoops(cmds);
    if forall c :: c in some ==> !ChangesState(c) {
      SameMembers(res, some);
    } else {
      var i: nat :| ArrangedAt(some, i, res);
      ArrangedSplits(some, i, res);
      SameMembers(res[..i], some[..i]);
      forall c | c in res
        ensures c in some
      {
        assert c in res[..i] || c == some[i] || c in some[i + 1..];
      }
    }
  }

  /** A pass over a workflow that does not run starts nothing, and keeps everything or nothing. */
  lemma PassStopped(f: Flow, cmds: seq<Cmd>, f': Flow) returns (kept: seq<Cmd>)
    requires f.wf == PAUSED || IsCompleted(f.wf)
    requires Processed(f, cmds, f')
    ensures f'.started == f.started && f'.backlog == f.backlog + SavedAll(kept) && Among(kept, cmds)
  {
    var res :| Arranged(cmds, res) && f' == HandleAll(f, res);
    ArrangedAmong(cmds, res);
    if f.wf == PAUSED {
      PausedKeepsAll(f, res);
      kept := res;
    } else {
      assert res[..0] == [];
      CompletedIsFinal(f, res, 0);
      kept := [];
      assert f.backlog + SavedAll(kept) == f.backlog;
    }
  }

  // ---------- runs ----------

  ghost predicate Dispatches(f: Flow, a: Action) {
    a.Submit? || (a.Resume? && (New(a) != [] || f.backlog != []))
  }

  /** The new commands started at once: those ahead of the first state change, unless the backlog has one. */
  ghost function StartedAtOnce(f: Flow, a: Action): seq<Cmd> {
    if Dispatches(f, a) && Asked(WithoutNoops(Restored(f.backlog))) == RUNNING then Ahead(WithoutNoops(New(a))) else []
  }

  /** All commands of a run that were started at once. */
  ghost function AtOnce(tr: Trace): seq<Cmd> {
    if tr.Begin? then [] else AtOnce(tr.before) + StartedAtOnce(FlowOf(tr.before), tr.action)
  }

  /** Reread from a command that was handed in but not started at once. */
  ghost predicate Later(d: Cmd, submitted: seq<Cmd>, atOnce: seq<Cmd>) {
    exists c :: c in submitted && c !in atOnce && d == Reread(c)
  }

  /** What was started was started at once or is reread; what is kept will be reread. */
  ghost predicate Traced(f: Flow, submitted: seq<Cmd>, atOnce: seq<Cmd>) {
    && Among(atOnce, submitted) && Among(atOnce, f.started)
    && (forall d :: d in f.started ==> d in atOnce || Later(d, submitted, atOnce))
    && (forall d :: d in Restored(f.backlog) ==> Later(d, submitted, atOnce))
  }

  lemma RereadOnce(c: Cmd)
    ensures Reread(Reread(c)) == Reread(c)
  {
  }

  lemma {:induction false} RestoredSaved(cmds: seq<Cmd>)
    ensures forall d :: d in Restored(SavedAll(cmds)) ==> exists c :: c in cmds && d == Reread(c)
  {
    if cmds == [] {
    } else {
      var front, last := cmds[..|cmds| - 1], cmds[|cmds| - 1];
      RestoredSaved(front);
      assert Restored(SavedAll(cmds)) == Restored(SavedAll(front)) + [Reread(last)];
    }
  }

  lemma RestoredConcat(a: seq<Saved>, b: seq<Saved>)
    ensures Restored(a + b) == Restored(a) + Restored(b)
  {
  }

  /** Commands handed in later are different ones, so nothing that was reread counts as started at once afterwards. */
  lemma LaterStays(d: Cmd, submitted: seq<Cmd>, atOnce: seq<Cmd>, more: seq<Cmd>, direct: seq<Cmd>)
    requires Later(d, submitted, atOnce) && Distinct(submitted + more) && Among(direct, more)
    ensures Later(d, submitted + more, atOnce + direct)
  {
    var c :| c in submitted && c !in atOnce && d == Reread(c);
    ApartFromMore(submitted, more, c);
    assert c in submitted + more && c !in atOnce + direct;
  }

  lemma ApartFromMore(submitted: seq<Cmd>, more: seq<Cmd>, c: Cmd)
    requires Distinct(submitted + more) && c in submitted
    ensures c !in more
  {
    var i :| 0 <= i < |submitted| && submitted[i] == c;
    forall k | 0 <= k < |more|
      ensures more[k] != c
    {
      assert (submitted + more)[i] == c && (submitted + more)[|submitted| + k] == more[k];
    }
  }

  /** A new command that is not started at once will be reread. */
  lemma NewIsLater(c: Cmd, submitted: seq<Cmd>, atOnce: seq<Cmd>, more: seq<Cmd>, direct: seq<Cmd>)
    requires Distinct(submitted + more) && Among(atOnce, submitted) && c in more && c !in direct
    ensures Later(Reread(c), submitted + more, atOnce + direct)
  {
    if c in atOnce {
      ApartFromMore(submitted, more, c);
    }
    assert c in submitted + more && c !in atOnce + direct;
  }

  lemma {:induction false} DistinctWithoutNoops(cmds: seq<Cmd>)
    requires Distinct(cmds)
    ensures Distinct(WithoutNoops(cmds))
  {
    if cmds == [] {
    } else {
      var front, last := cmds[..|cmds| - 1], cmds[|cmds| - 1];
      DistinctWithoutNoops(front);
      forall c | c in WithoutNoops(front)
        ensures c.id != last.id
      {
        assert c in front;
      }
    }
  }

  lemma RestAreOthers(some: seq<Cmd>, i: nat, c: Cmd)
    requires Distinct(some) && i <= |some| && c in some[i..]
    ensures c in some && c !in some[..i]
  {
  }

  /** The pass over the backlog starts and keeps only what is reread. */
  lemma FirstPass(f: Flow, mid: Flow, submitted: seq<Cmd>, atOnce: seq<Cmd>)
    requires f.wf == RUNNING && Traced(f, submitted, atOnce)
    requires Processed(f.(backlog := []), Restored(f.backlog), mid)
    ensures Traced(mid, submitted, atOnce) && mid.wf == Asked(WithoutNoops(Restored(f.backlog)))
    ensures mid.wf == RUNNING ==> mid.backlog == []
  {
    var some := WithoutNoops(Restored(f.backlog));
    var i, kept := PassAhead(f.(backlog := []), Restored(f.backlog), mid);
    RestoredSaved(kept);
    forall d | d in Restored(mid.backlog)
      ensures Later(d, submitted, atOnce)
    {
      var x :| x in kept && d == Reread(x);
      RereadLater(x, submitted, atOnce);
    }
  }

  /** What is reread twice is reread once. */
  lemma RereadLater(x: Cmd, submitted: seq<Cmd>, atOnce: seq<Cmd>)
    requires Later(x, submitted, atOnce)
    ensures Later(Reread(x), submitted, atOnce)
  {
    var c :| c in submitted && c !in atOnce && x == Reread(c);
    RereadOnce(c);
  }

  lemma StartedStay(d: Cmd, submitted: seq<Cmd>, atOnce: seq<Cmd>, more: seq<Cmd>, direct: seq<Cmd>)
    requires (d in atOnce || Later(d, submitted, atOnce)) && Distinct(submitted + more) && Among(direct, more)
    ensures d in atOnce + direct || Later(d, submitted + more, atOnce + direct)
  {
    if d !in atOnce {
      LaterStays(d, submitted, atOnce, more, direct);
    }
  }

  /** The pass over the new commands, when the workflow still runs. */
  lemma SecondPass(f: Flow, cmds: seq<Cmd>, f': Flow, submitted: seq<Cmd>, atOnce: seq<Cmd>)
    requires f.wf == RUNNING && f.backlog == [] && Traced(f, submitted, atOnce) && Processed(f, cmds, f')
    requires Distinct(submitted + cmds)
    ensures Traced(f', submitted + cmds, atOnce + Ahead(WithoutNoops(cmds)))
  {
    var some := WithoutNoops(cmds);
    var i, kept := PassAhead(f, cmds, f');
    RestoredSaved(kept);
    DistinctPart(submitted, cmds);
    DistinctWithoutNoops(cmds);
    forall d | d in Restored(f'.backlog)
      ensures Later(d, submitted + cmds, atOnce + Ahead(some))
    {
      var x :| x in kept && d == Reread(x);
      RestAreOthers(some, i, x);
      NewIsLater(x, submitted, atOnce, cmds, Ahead(some));
    }
    forall d | d in f.started
      ensures d in atOnce + Ahead(some) || Later(d, submitted + cmds, atOnce + Ahead(some))
    {
      StartedStay(d, submitted, atOnce, cmds, Ahead(some));
    }
  }

  lemma DistinctPart(a: seq<Cmd>, b: seq<Cmd>)
    requires Distinct(a + b)
    ensures Distinct(a) && Distinct(b)
  {
    forall i, j | 0 <= i < j < |a|
      ensures a[i].id != a[j].id
    {
      assert (a + b)[i] == a[i] && (a + b)[j] == a[j];
    }
    forall i, j | 0 <= i < j < |b|
      ensures b[i].id != b[j].id
    {
      assert (a + b)[|a| + i] == b[i] && (a + b)[|a| + j] == b[j];
    }
  }

  /** The pass over the new commands, when the backlog has stopped the workflow. */
  lemma StoppedSecondPass(f: Flow, cmds: seq<Cmd>, f': Flow, submitted: seq<Cmd>, atOnce: seq<Cmd>)
    requires (f.wf == PAUSED || IsCompleted(f.wf)) && Traced(f, submitted, atOnce) && Processed(f, cmds, f')
    requires Distinct(submitted + cmds)
    ensures Traced(f', submitted + cmds, atOnce)
  {
    var kept := PassStopped(f, cmds, f');
    RestoredConcat(f.backlog, SavedAll(kept));
    RestoredSaved(kept);
    assert atOnce + [] == atOnce;
    forall d | d in Restored(f'.backlog)
      ensures Later(d, submitted + cmds, atOnce)
    {
      if d in Restored(f.backlog) {
        LaterStays(d, submitted, atOnce, cmds, []);
      } else {
        var x :| x in kept && d == Reread(x);
        NewIsLater(x, submitted, atOnce, cmds, []);
      }
    }
    forall d | d in f.started
      ensures d in atOnce || Later(d, submitted + cmds, atOnce)
    {
      StartedStay(d, submitted, atOnce, cmds, []);
    }
  }

  lemma DispatchIsTraced(f: Flow, a: Action, f': Flow, submitted: seq<Cmd>, atOnce: seq<Cmd>)
    requires f.wf == RUNNING && Dispatches(f, a) && Dispatched(f, New(a), f') && Traced(f, submitted, atOnce)
    requires Distinct(submitted + New(a))
    ensures Traced(f', submitted + New(a), atOnce + StartedAtOnce(f, a))
  {
    var mid :| Processed(f.(backlog := []), Restored(f.backlog), mid) && Processed(mid, New(a), f');
    FirstPass(f, mid, submitted, atOnce);
    AskedRange(WithoutNoops(Restored(f.backlog)));
    if mid.wf == RUNNING {
      SecondPass(mid, New(a), f', submitted, atOnce);
    } else {
      StoppedSecondPass(mid, New(a), f', submitted, atOnce);
      assert atOnce + [] == atOnce;
    }
  }

  lemma {:induction false} AskedRange(cmds: seq<Cmd>)
    ensures Asked(cmds) in {RUNNING, PAUSED, SUCCESS, ERROR}
  {
    if cmds == [] {
    } else {
      AskedRange(cmds[1..]);
    }
  }

  lemma {:induction false} RunIsTraced(tr: Trace)
    requires IsRun(tr) && Distinct(Submitted(tr))
    ensures Traced(FlowOf(tr), Submitted(tr), AtOnce(tr))
  {
    if tr.Begin? {
    } else {
      var f, a := FlowOf(tr.before), tr.action;
      DistinctPart(Submitted(tr.before), New(a));
      RunIsTraced(tr.before);
      if Dispatches(f, a) {
        DispatchIsTraced(f.(wf := RUNNING), a, tr.flow, Submitted(tr.before), AtOnce(tr.before));
      } else {
        assert Submitted(tr) == Submitted(tr.before) && AtOnce(tr) == AtOnce(tr.before);
      }
    }
  }

  lemma SameId(cmds: seq<Cmd>, c: Cmd, d: Cmd)
    requires Distinct(cmds) && c in cmds && d in cmds && c.id == d.id
    ensures c == d
  {
    var i :| 0 <= i < |cmds| && cmds[i] == c;
    var k :| 0 <= k < |cmds| && cmds[k] == d;
  }

  /**
   In every run a started command is as it was handed in exactly if it was ahead
   of the first state change of its pass and nothing in the backlog had stopped
   the workflow before; otherwise it is what the backlog leaves of it.
   */
  lemma StartedAsHandedIn(tr: Trace, c: Cmd, d: Cmd)
    requires IsRun(tr) && Distinct(Submitted(tr))
    requires c in Submitted(tr) && d in FlowOf(tr).started && d.id == c.id
    ensures d == if c in AtOnce(tr) then c else Reread(c)
  {
    RunIsTraced(tr);
    if d in AtOnce(tr) {
      SameId(Submitted(tr), c, d);
    } else {
      var c' :| c' in Submitted(tr) && c' !in AtOnce(tr) && d == Reread(c');
      SameId(Submitted(tr), c, c');
    }
  }

  /** So a started join still waits exactly if it was started at once. */
  lemma JoinsLoseWaitExactly(tr: Trace, c: Cmd, d: Cmd)
    requires IsRun(tr) && Distinct(Submitted(tr)) && Waits(c)
    requires c in Submitted(tr) && d in FlowOf(tr).started && d.id == c.id
    ensures Waits(d) <==> c in AtOnce(tr)
    ensures !Waits(d) ==> d.kind == RunTask && d.key.None?
  {
    StartedAsHandedIn(tr, c, d);
  }
}
