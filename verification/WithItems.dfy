/** The first round of a "with-items" task: bounded parallelism over a list of items. */
module WithItems {
  import opened States
  import opened Sorting

  type Data = string

  /** One action execution; `index` is the item it works on. */
  datatype ActionEx = ActionEx(index: nat, state: State, accepted: bool, output: Data)

  /**
   The task: `concurrency` 0 means unlimited, and then `capacity` is unused.
   `jobs` holds the positions of finished executions whose completion handler
   is scheduled but has not run yet.
   */
  datatype Items = Items(concurrency: nat, count: nat, capacity: int,
                         execs: seq<ActionEx>, jobs: set<nat>, state: State)

  // ---------- index selection ----------

  /** The members of c from lo up to hi, ascending. */
  function Ascending(c: set<nat>, lo: nat, hi: nat): (r: seq<nat>)
    requires lo <= hi
    ensures forall i :: i in r <==> i in c && lo <= i < hi
    ensures forall k :: 0 <= k < |r| ==> lo <= r[k] < hi
    ensures forall k, m :: 0 <= k < m < |r| ==> r[k] < r[m]
    decreases hi - lo
  {
    if lo == hi then [] else (if lo in c then [lo] else []) + Ascending(c, lo + 1, hi)
  }

  function Range(lo: nat, hi: nat): (r: seq<nat>)
    ensures |r| == if lo <= hi then hi - lo else 0
    ensures forall k :: 0 <= k < |r| ==> r[k] == lo + k
  {
    if lo < hi then seq(hi - lo, k => lo + k) else []
  }

  function Accepted(execs: seq<ActionEx>): set<nat> {
    set k | 0 <= k < |execs| && execs[k].accepted && IsCompleted(execs[k].state) :: execs[k].index
  }

  function Unaccepted(execs: seq<ActionEx>): set<nat> {
    set k | 0 <= k < |execs| && !execs[k].accepted && IsCompleted(execs[k].state) :: execs[k].index
  }

  function CountWhere(execs: seq<ActionEx>, f: ActionEx -> bool): (n: nat)
    ensures n <= |execs|
  {
    if execs == [] then 0
    else CountWhere(execs[..|execs| - 1], f) + if f(execs[|execs| - 1]) then 1 else 0
  }

  predicate IsAccepted(x: ActionEx) {
    x.accepted
  }

  predicate IsAcceptedOrRunning(x: ActionEx) {
    x.accepted || x.state == RUNNING
  }

  predicate IsTaken(x: ActionEx) {
    x.accepted || x.state in {RUNNING, DELAYED, IDLE}
  }

  function AcceptedCount(execs: seq<ActionEx>): nat {
    CountWhere(execs, IsAccepted)
  }

  function NextStartIndex(execs: seq<ActionEx>): nat {
    CountWhere(execs, IsTaken)
  }

  function Prefix(indices: seq<nat>, w: Items): seq<nat> {
    if w.concurrency == 0 || w.capacity >= |indices| then indices
    else if w.capacity <= 0 then [] else indices[..w.capacity]
  }

  /** Which items to start next; `candidates` are items with only rejected executions. */
  function NextIndexes(w: Items): seq<nat> {
    var candidates := Unaccepted(w.execs) - Accepted(w.execs);
    if candidates != {} then
      var again := Ascending(candidates, 0, w.count);
      Prefix(again + (if again == [] then [] else Range(again[|again| - 1] + 1, w.count)), w)
    else
      Prefix(Range(NextStartIndex(w.execs), w.count), w)
  }

  /** In every round the chosen items are distinct, ascending, in range, and no more than the capacity. */
  lemma NextIndexesAreSane(w: Items)
    requires w.capacity >= 0
    ensures var r := NextIndexes(w);
            (forall k :: 0 <= k < |r| ==> r[k] < w.count) &&
            (forall k, m :: 0 <= k < m < |r| ==> r[k] < r[m]) &&
            (w.concurrency > 0 ==> |r| <= w.capacity)
  {
  }

  /** Item i has a rejected execution and no accepted one. */
  ghost predicate ToRepeat(w: Items, i: nat) {
    && i < w.count
    && (exists x :: x in w.execs && x.index == i && !x.accepted && IsCompleted(x.state))
    && !(exists x :: x in w.execs && x.index == i && x.accepted && IsCompleted(x.state))
  }

  /** The executions that are accepted or under way. */
  ghost function UnderWay(w: Items): set<nat> {
    set k | 0 <= k < |w.execs| && (w.execs[k].accepted || w.execs[k].state in {RUNNING, DELAYED, IDLE})
  }

  /**
   The items to start: those to repeat and all behind the last of them, or, if none
   is to repeat, those behind as many as are accepted or under way.
   */
  ghost predicate ToStart(w: Items, i: nat) {
    && i < w.count
    && if exists k: nat :: ToRepeat(w, k)
       then ToRepeat(w, i) || forall k: nat :: ToRepeat(w, k) ==> k < i
       else i >= |UnderWay(w)|
  }

  ghost function Where(execs: seq<ActionEx>, f: ActionEx -> bool): set<nat> {
    set k | 0 <= k < |execs| && f(execs[k])
  }

  lemma WhereOneMore(execs: seq<ActionEx>, f: ActionEx -> bool)
    requires execs != []
    ensures var last := |execs| - 1;
            && last !in Where(execs[..last], f)
            && Where(execs, f) == Where(execs[..last], f) + if f(execs[last]) then {last} else {}
  {
  }

  lemma {:induction false} CountIsSize(execs: seq<ActionEx>, f: ActionEx -> bool)
    ensures CountWhere(execs, f) == |Where(execs, f)|
  {
    if execs == [] {
    } else {
      CountIsSize(execs[..|execs| - 1], f);
      WhereOneMore(execs, f);
    }
  }

  lemma CandidatesMean(w: Items)
    ensures forall i: nat :: i in Unaccepted(w.execs) - Accepted(w.execs) && i < w.count <==> ToRepeat(w, i)
  {
    forall i: nat
      ensures i in Unaccepted(w.execs) <==>
              exists x :: x in w.execs && x.index == i && !x.accepted && IsCompleted(x.state)
      ensures i in Accepted(w.execs) <==>
              exists x :: x in w.execs && x.index == i && x.accepted && IsCompleted(x.state)
    {
    }
  }

  /** The items to start before any limit: ascending and complete. */
  ghost predicate ListsAll(w: Items, all: seq<nat>) {
    && (forall i: nat :: i in all <==> ToStart(w, i))
    && (forall k, m :: 0 <= k < m < |all| ==> all[k] < all[m])
  }

  lemma RangeHolds(lo: nat, hi: nat)
    ensures forall i: nat :: i in Range(lo, hi) <==> lo <= i < hi
  {
    forall i: nat
      ensures i in Range(lo, hi) <==> lo <= i < hi
    {
      if lo <= i < hi {
        assert Range(lo, hi)[i - lo] == i;
      }
    }
  }

  /** The last of an ascending list is its greatest member. */
  lemma LastIsGreatest(again: seq<nat>)
    requires again != [] && forall k, m :: 0 <= k < m < |again| ==> again[k] < again[m]
    ensures again[|again| - 1] in again && forall i :: i in again ==> i <= again[|again| - 1]
  {
    forall i | i in again
      ensures i <= again[|again| - 1]
    {
      var m :| 0 <= m < |again| && again[m] == i;
    }
  }

  lemma RepeatedAreListed(w: Items, again: seq<nat>)
    requires (forall i: nat :: i in again <==> ToRepeat(w, i)) && again != []
    requires forall k, m :: 0 <= k < m < |again| ==> again[k] < again[m]
    ensures ListsAll(w, again + Range(again[|again| - 1] + 1, w.count))
  {
    LastIsGreatest(again);
    var last := again[|again| - 1];
    RangeHolds(last + 1, w.count);
    var all := again + Range(last + 1, w.count);
    forall i: nat
      ensures i in all <==> ToStart(w, i)
    {
      assert ToRepeat(w, last);
      assert i in all <==> i in again || i in Range(last + 1, w.count);
      assert (forall k: nat :: ToRepeat(w, k) ==> k < i) <==> last < i;
    }
  }

  lemma TakenIsSize(w: Items)
    ensures NextStartIndex(w.execs) == |UnderWay(w)|
  {
    var f := IsTaken;
    CountIsSize(w.execs, f);
    assert UnderWay(w) == Where(w.execs, f);
  }

  lemma FreshAreListed(w: Items)
    requires forall i: nat :: !ToRepeat(w, i)
    ensures ListsAll(w, Range(NextStartIndex(w.execs), w.count))
  {
    TakenIsSize(w);
    RangeHolds(NextStartIndex(w.execs), w.count);
  }

  /** In every round the next items are the first of those to start, as many as the capacity allows. */
  lemma NextIndexesAreExact(w: Items) returns (all: seq<nat>)
    requires w.capacity >= 0 && forall x :: x in w.execs ==> x.index < w.count
    ensures ListsAll(w, all)
    ensures NextIndexes(w) == if w.concurrency > 0 && w.capacity < |all| then all[..w.capacity] else all
  {
    CandidatesMean(w);
    var candidates := Unaccepted(w.execs) - Accepted(w.execs);
    if candidates != {} {
      var again := Ascending(candidates, 0, w.count);
      var i :| i in candidates;
      assert i in again;
      RepeatedAreListed(w, again);
      all := again + Range(again[|again| - 1] + 1, w.count);
    } else {
      FreshAreListed(w);
      all := Range(NextStartIndex(w.execs), w.count);
    }
  }

  // ---------- the operations ----------

  /** Starts the chosen items one by one, each taking one unit of capacity. */
  function StartAll(w: Items, indices: seq<nat>): Items
    decreases |indices|
  {
    if indices == [] then w else StartAll(StartOne(w, indices[0]), indices[1..])
  }

  /** What one execution takes from the capacity. */
  function Unit(w: Items): nat {
    if w.concurrency == 0 then 0 else 1
  }

  function StartOne(w: Items, index: nat): Items {
    w.(execs := w.execs + [ActionEx(index, RUNNING, false, "")], capacity := w.capacity - Unit(w))
  }

  function Schedule(w: Items): Items {
    var indices := NextIndexes(w);
    if indices == [] then w.(state := SUCCESS) else StartAll(w, indices)
  }

  /** The task starts with n items. */
  function Begin(n: nat, concurrency: nat): Items {
    Schedule(Items(concurrency, n, concurrency, [], {}, RUNNING))
  }

  /** The executor reports the outcome of the execution at position i. */
  function Report(w: Items, i: nat, outcome: State, output: Data): Items
    requires i < |w.execs|
  {
    w.(execs := w.execs[i := w.execs[i].(state := outcome, accepted := true, output := output)], jobs := w.jobs + {i})
  }

  predicate AnyCancelled(w: Items) {
    exists k :: 0 <= k < |w.execs| && w.execs[k].accepted && w.execs[k].state == CANCELLED
  }

  predicate ItemsCompleted(w: Items) {
    AnyCancelled(w) ||
    ((if w.count == 0 then 1 else w.count) == AcceptedCount(w.execs) &&
     (w.concurrency == 0 || w.capacity == w.concurrency))
  }

  function FinalItemsState(w: Items): State {
    if AnyCancelled(w) then CANCELLED
    else if exists k :: 0 <= k < |w.execs| && w.execs[k].accepted && w.execs[k].state == ERROR then ERROR
    else SUCCESS
  }

  predicate HasMoreIterations(w: Items) {
    w.count > CountWhere(w.execs, IsAcceptedOrRunning)
  }

  /** The part of the handler after the capacity was given back, for a task that is not complete yet. */
  function Settle(w: Items): Items {
    if ItemsCompleted(w) then w.(state := FinalItemsState(w))
    else if HasMoreIterations(w) && w.concurrency > 0 then Schedule(w)
    else w
  }

  /** The completion handler of the execution at position i. */
  function Handle(w: Items, i: nat): Items {
    var w0 := w.(jobs := w.jobs - {i});
    if IsCompleted(w.state) then w0 else
      var w1 := if w.concurrency > 0 && w.capacity < w.concurrency then w0.(capacity := w.capacity + 1) else w0;
      Settle(w1)
  }

  datatype Action = Reported(pos: nat, outcome: State, output: Data) | Handled(pos: nat)

  predicate Enabled(w: Items, a: Action) {
    match a
    case Reported(i, outcome, _) =>
      i < |w.execs| && w.execs[i].state == RUNNING && outcome in {SUCCESS, ERROR, CANCELLED}
    case Handled(i) => i in w.jobs
  }

  function Apply(w: Items, a: Action): Items
    requires Enabled(w, a)
  {
    match a
    case Reported(i, outcome, output) => Report(w, i, outcome, output)
    case Handled(i) => Handle(w, i)
  }

  // ---------- the invariant of a first round ----------

  /** The executions for which the completion handler has not run. */
  function Unhandled(w: Items): set<nat> {
    set k | 0 <= k < |w.execs| && (w.execs[k].state == RUNNING || k in w.jobs)
  }

  /** Executions are numbered like their items, and accepted exactly when completed. */
  ghost predicate Numbered(w: Items) {
    && |w.execs| <= w.count
    && (forall k :: 0 <= k < |w.execs| ==>
          w.execs[k].index == k && w.execs[k].state in {RUNNING, SUCCESS, ERROR, CANCELLED})
    && (forall k :: 0 <= k < |w.execs| ==> (w.execs[k].accepted <==> w.execs[k].state != RUNNING))
    && (forall k :: k in w.jobs ==> k < |w.execs| && w.execs[k].state != RUNNING)
  }

  /** With a limit c, free capacity and unhandled executions always add up to c. */
  ghost predicate Conserved(w: Items) {
    if w.concurrency == 0 then |w.execs| == w.count
    else w.capacity >= 0 && w.capacity + |Unhandled(w)| == w.concurrency && (|w.execs| == w.count || w.capacity == 0)
  }

  /** Some accepted execution is in the given state. */
  ghost predicate SomeAre(w: Items, st: State) {
    exists x :: x in w.execs && x.accepted && x.state == st
  }

  /** A cancelled item cancels the task, otherwise a failed one fails it, otherwise it succeeds. */
  ghost predicate EndsAs(w: Items) {
    && (w.state == CANCELLED <==> SomeAre(w, CANCELLED))
    && (w.state == ERROR <==> !SomeAre(w, CANCELLED) && SomeAre(w, ERROR))
    && (w.state == SUCCESS <==> !SomeAre(w, CANCELLED) && !SomeAre(w, ERROR))
  }

  lemma SomeAreMeans(w: Items, st: State)
    ensures SomeAre(w, st) <==> exists k :: 0 <= k < |w.execs| && w.execs[k].accepted && w.execs[k].state == st
  {
    if x :| x in w.execs && x.accepted && x.state == st {
      var k :| 0 <= k < |w.execs| && w.execs[k] == x;
    }
  }

  lemma FinalStateEnds(w: Items)
    ensures AnyCancelled(w) <==> SomeAre(w, CANCELLED)
    ensures EndsAs(w.(state := FinalItemsState(w)))
  {
    SomeAreMeans(w, CANCELLED);
    SomeAreMeans(w, ERROR);
  }

  /** All items were started and accepted; with a limit, all were handled too. */
  ghost predicate Finished(w: Items) {
    && |w.execs| == w.count
    && (forall k :: 0 <= k < |w.execs| ==> w.execs[k].accepted)
    && (w.concurrency > 0 ==> Unhandled(w) == {})
  }

  ghost predicate Inv(w: Items) {
    && Numbered(w)
    && (!IsCompleted(w.state) ==> Conserved(w) && Unhandled(w) != {})
    && (IsCompleted(w.state) && !SomeAre(w, CANCELLED) ==> Finished(w))
    && (IsCompleted(w.state) ==> EndsAs(w))
    && w.state in {RUNNING, SUCCESS, ERROR, CANCELLED}
  }

  lemma {:induction false} CountAll(execs: seq<ActionEx>, f: ActionEx -> bool)
    ensures CountWhere(execs, f) == |execs| <==> forall k :: 0 <= k < |execs| ==> f(execs[k])
  {
    if execs == [] {
    } else {
      CountAll(execs[..|execs| - 1], f);
    }
  }

  /** In a first round the next items are those right after the ones already started. */
  lemma FirstRoundIndexes(w: Items)
    requires Numbered(w)
    ensures NextIndexes(w) == Prefix(Range(|w.execs|, w.count), w)
    ensures HasMoreIterations(w) <==> |w.execs| < w.count
  {
    CountAll(w.execs, IsTaken);
    CountAll(w.execs, IsAcceptedOrRunning);
    assert Unaccepted(w.execs) == {};
  }

  lemma StartOneAppends(w: Items)
    requires Numbered(w) && |w.execs| < w.count
    ensures Numbered(StartOne(w, |w.execs|))
    ensures |Unhandled(StartOne(w, |w.execs|))| == |Unhandled(w)| + 1
  {
    var w1 := StartOne(w, |w.execs|);
    assert forall k :: 0 <= k < |w.execs| ==> w1.execs[k] == w.execs[k];
    assert Unhandled(w1) == Unhandled(w) + {|w.execs|};
  }

  ghost predicate Consecutive(indices: seq<nat>, first: nat) {
    forall k :: 0 <= k < |indices| ==> indices[k] == first + k
  }

  /** Starting consecutive items appends them in order and uses up exactly their number. */
  lemma {:induction false} StartAllAppends(w: Items, indices: seq<nat>)
    requires Numbered(w) && Consecutive(indices, |w.execs|) && |w.execs| + |indices| <= w.count
    ensures var w' := StartAll(w, indices);
            && Numbered(w') && w'.capacity == w.capacity - |indices| * Unit(w) && |w'.execs| == |w.execs| + |indices|
            && w' == w.(execs := w'.execs, capacity := w'.capacity)
            && (forall k :: 0 <= k < |w.execs| ==> w'.execs[k] == w.execs[k])
            && (forall k :: |w.execs| <= k < |w'.execs| ==> w'.execs[k].state == RUNNING)
            && |Unhandled(w')| == |Unhandled(w)| + |indices|
    decreases |indices|
  {
    if indices == [] {
    } else {
      assert indices[0] == |w.execs|;
      StartOneAppends(w);
      StartAllAppends(StartOne(w, indices[0]), indices[1..]);
    }
  }

  /** Scheduling with work and capacity left starts as many items as fit. */
  lemma ScheduleFills(w: Items)
    requires Numbered(w) && |w.execs| < w.count && (w.concurrency > 0 ==> w.capacity > 0)
    ensures var w' := Schedule(w);
            var left := w.count - |w.execs|;
            var n := if w.concurrency == 0 || left <= w.capacity then left else w.capacity;
            && Numbered(w') && |w'.execs| == |w.execs| + n && w'.capacity == w.capacity - n * Unit(w)
            && w' == w.(execs := w'.execs, capacity := w'.capacity)
            && w'.execs[|w.execs|].state == RUNNING
            && |Unhandled(w')| == |Unhandled(w)| + n
  {
    FirstRoundIndexes(w);
    StartAllAppends(w, NextIndexes(w));
  }

  lemma BeginKeepsInv(n: nat, c: nat)
    ensures Inv(Begin(n, c))
  {
    var w := Items(c, n, c, [], {}, RUNNING);
    assert Unhandled(w) == {};
    if n > 0 {
      ScheduleFills(w);
      assert 0 in Unhandled(Begin(n, c));
    } else {
      FirstRoundIndexes(w);
    }
  }

  lemma ReportKeepsInv(w: Items, i: nat, outcome: State, output: Data)
    requires Inv(w) && Enabled(w, Reported(i, outcome, output))
    ensures Inv(Report(w, i, outcome, output))
  {
    var w' := Report(w, i, outcome, output);
    assert Unhandled(w') == Unhandled(w);
    assert forall k :: 0 <= k < |w.execs| && k != i ==> w'.execs[k] == w.execs[k];
    if IsCompleted(w.state) {
      StillCancelled(w, w');
    }
  }

  /** Further reports do not undo a cancellation. */
  lemma StillCancelled(w: Items, w': Items)
    requires SomeAre(w, CANCELLED) && |w'.execs| == |w.execs|
    requires forall k :: 0 <= k < |w.execs| && w.execs[k].state != RUNNING ==> w'.execs[k] == w.execs[k]
    ensures SomeAre(w', CANCELLED)
  {
    SomeAreMeans(w, CANCELLED);
    SomeAreMeans(w', CANCELLED);
  }

  /** The state in which a handler settles: capacity was given back for the execution handled. */
  ghost predicate Settling(w: Items) {
    && Numbered(w) && w.state == RUNNING && w.count > 0
    && if w.concurrency == 0 then |w.execs| == w.count
       else
         && 0 < w.capacity && w.capacity + |Unhandled(w)| == w.concurrency
         && (|w.execs| == w.count || w.capacity == 1)
  }

  lemma SettleCompletes(w: Items)
    requires Settling(w) && ItemsCompleted(w)
    ensures Inv(w.(state := FinalItemsState(w)))
  {
    CountAll(w.execs, IsAccepted);
    FinalStateEnds(w);
    var w' := w.(state := FinalItemsState(w));
    assert Unhandled(w') == Unhandled(w);
    assert SomeAre(w', CANCELLED) <==> SomeAre(w, CANCELLED);
  }

  lemma SettleSchedules(w: Items)
    requires Settling(w) && |w.execs| < w.count
    ensures Inv(Schedule(w))
  {
    ScheduleFills(w);
    assert |w.execs| in Unhandled(Schedule(w));
  }

  lemma SettleWaits(w: Items)
    requires Settling(w) && !ItemsCompleted(w) && |w.execs| == w.count
    ensures Unhandled(w) != {}
  {
    CountAll(w.execs, IsAccepted);
    if Unhandled(w) == {} {
      forall k | 0 <= k < |w.execs|
        ensures w.execs[k].accepted
      {
        assert k !in Unhandled(w);
      }
    }
  }

  lemma SettleKeepsInv(w: Items)
    requires Settling(w)
    ensures Inv(Settle(w))
  {
    FirstRoundIndexes(w);
    if ItemsCompleted(w) {
      SettleCompletes(w);
    } else if |w.execs| < w.count {
      SettleSchedules(w);
    } else {
      SettleWaits(w);
    }
  }

  lemma HandleKeepsInv(w: Items, i: nat)
    requires Inv(w) && Enabled(w, Handled(i))
    ensures Inv(Handle(w, i))
  {
    var w0 := w.(jobs := w.jobs - {i});
    assert Unhandled(w0) == Unhandled(w) - {i};
    if !IsCompleted(w.state) {
      var w1 := if w.concurrency > 0 && w.capacity < w.concurrency then w0.(capacity := w.capacity + 1) else w0;
      assert Unhandled(w1) == Unhandled(w0);
      SettleKeepsInv(w1);
    }
  }

  // ---------- runs ----------

  datatype Trace = First | Then(before: Trace, action: Action)

  datatype Outcome = Impossible | Reached(items: Items)

  /** Where a sequence of reports and handlers leads, in whatever order they come. */
  function After(n: nat, c: nat, tr: Trace): Outcome {
    match tr
    case First => Reached(Begin(n, c))
    case Then(before, a) =>
      match After(n, c, before)
      case Reached(w) => if Enabled(w, a) then Reached(Apply(w, a)) else Impossible
      case Impossible => Impossible
  }

  lemma {:induction false} RunKeepsInv(n: nat, c: nat, tr: Trace)
    requires After(n, c, tr).Reached?
    ensures var w := After(n, c, tr).items; Inv(w) && w.count == n && w.concurrency == c
  {
    match tr
    case First =>
      BeginKeepsInv(n, c);
      ScheduleKeepsSettings(Items(c, n, c, [], {}, RUNNING));
    case Then(before, a) =>
      RunKeepsInv(n, c, before);
      var w := After(n, c, before).items;
      match a
      case Reported(i, outcome, output) => ReportKeepsInv(w, i, outcome, output);
      case Handled(i) =>
        HandleKeepsInv(w, i);
        HandleKeepsSettings(w, i);
  }

  lemma {:induction false} StartAllKeepsSettings(w: Items, indices: seq<nat>)
    ensures var w' := StartAll(w, indices); w'.count == w.count && w'.concurrency == w.concurrency
    decreases |indices|
  {
    if indices == [] {
    } else {
      StartAllKeepsSettings(StartOne(w, indices[0]), indices[1..]);
    }
  }

  lemma ScheduleKeepsSettings(w: Items)
    ensures Schedule(w).count == w.count && Schedule(w).concurrency == w.concurrency
  {
    StartAllKeepsSettings(w, NextIndexes(w));
  }

  lemma HandleKeepsSettings(w: Items, i: nat)
    ensures Handle(w, i).count == w.count && Handle(w, i).concurrency == w.concurrency
  {
    var w0 := w.(jobs := w.jobs - {i});
    ScheduleKeepsSettings(w0);
    ScheduleKeepsSettings(w0.(capacity := w.capacity + 1));
  }

  // ---------- main results ----------

  /** Capacity is conserved until the task completes, so at most c executions run at any time. */
  lemma CapacityIsConserved(n: nat, c: nat, tr: Trace)
    requires c >= 1 && After(n, c, tr).Reached?
    ensures var w := After(n, c, tr).items;
            !IsCompleted(w.state) ==>
              && w.capacity >= 0 && w.capacity + |Unhandled(w)| == c
              && |set k | 0 <= k < |w.execs| && w.execs[k].state == RUNNING| <= c
  {
    RunKeepsInv(n, c, tr);
    var w := After(n, c, tr).items;
    var running := set k | 0 <= k < |w.execs| && w.execs[k].state == RUNNING;
    SubsetCardinality(running, Unhandled(w));
  }

  lemma {:induction false} SubsetCardinality<T>(a: set<T>, b: set<T>)
    requires a <= b
    ensures |a| <= |b|
    decreases a
  {
    if x :| x in a {
      SubsetCardinality(a - {x}, b - {x});
    }
  }

  /** An unfinished task is never abandoned: some execution of it is running or awaits its handler. */
  lemma UnfinishedIsAttended(n: nat, c: nat, tr: Trace)
    requires After(n, c, tr).Reached? && !IsCompleted(After(n, c, tr).items.state)
    ensures exists a :: Enabled(After(n, c, tr).items, a)
  {
    RunKeepsInv(n, c, tr);
    var w := After(n, c, tr).items;
    var k :| k in Unhandled(w);
    if w.execs[k].state == RUNNING {
      assert Enabled(w, Reported(k, SUCCESS, ""));
    } else {
      assert Enabled(w, Handled(k));
    }
  }

  /** Without a cancelled item a limited task is completed exactly when every item has been started and handled. */
  lemma CompletesWhenAllHandled(n: nat, c: nat, tr: Trace)
    requires c >= 1 && After(n, c, tr).Reached? && !SomeAre(After(n, c, tr).items, CANCELLED)
    ensures var w := After(n, c, tr).items; IsCompleted(w.state) <==> |w.execs| == n && Unhandled(w) == {}
  {
    RunKeepsInv(n, c, tr);
  }

  /**
   With or without a limit, the task ends in the state that its items call for, and
   without a cancelled item only when all have been started and accepted; once all
   are handled it has ended.
   */
  lemma EndsAsItemsDo(n: nat, c: nat, tr: Trace)
    requires After(n, c, tr).Reached?
    ensures var w := After(n, c, tr).items;
            && (IsCompleted(w.state) ==> EndsAs(w))
            && (IsCompleted(w.state) && !SomeAre(w, CANCELLED) ==>
                  |w.execs| == n && forall x :: x in w.execs ==> x.accepted)
            && (Unhandled(w) == {} ==> IsCompleted(w.state))
            && w.state in {RUNNING, SUCCESS, ERROR, CANCELLED}
  {
    RunKeepsInv(n, c, tr);
  }

  /** A handler that runs while some item is cancelled ends the task at once, whatever else is still running. */
  lemma CancelledEndsAtOnce(n: nat, c: nat, tr: Trace, i: nat)
    requires After(n, c, tr).Reached? && Enabled(After(n, c, tr).items, Handled(i))
    requires !IsCompleted(After(n, c, tr).items.state) && SomeAre(After(n, c, tr).items, CANCELLED)
    ensures var w, w' := After(n, c, tr).items, After(n, c, Then(tr, Handled(i))).items;
            w'.state == CANCELLED && w'.execs == w.execs
  {
    var w := After(n, c, tr).items;
    FinalStateEnds(w);
  }

  /** A handler that runs after the end of the task does nothing. */
  lemma EndedIsLeftAlone(w: Items, i: nat)
    requires Enabled(w, Handled(i)) && IsCompleted(w.state)
    ensures Apply(w, Handled(i)) == w.(jobs := w.jobs - {i})
  {
  }

  /** In every interleaving items are started in order, each exactly once, and in the end all of them. */
  lemma ItemsStartOnce(n: nat, c: nat, tr: Trace)
    requires After(n, c, tr).Reached?
    ensures var w := After(n, c, tr).items;
            && |w.execs| <= n
            && (forall k :: 0 <= k < |w.execs| ==> w.execs[k].index == k)
            && (IsCompleted(w.state) && !SomeAre(w, CANCELLED) ==> |w.execs| == n)
  {
    RunKeepsInv(n, c, tr);
  }

  // ---------- reports are kept ----------

  datatype Reporting = NotYet | As(outcome: State, output: Data)

  /** What was reported of the execution at position i. */
  function ReportOf(tr: Trace, i: nat): Reporting {
    match tr
    case First => NotYet
    case Then(before, Reported(k, outcome, output)) => if k == i then As(outcome, output) else ReportOf(before, i)
    case Then(before, Handled(_)) => ReportOf(before, i)
  }

  ghost predicate Keeps(x: ActionEx, r: Reporting) {
    match r
    case NotYet => x.state == RUNNING && !x.accepted
    case As(outcome, output) => x.state == outcome && x.output == output && x.accepted
  }

  /** Old executions stay as they are and new ones run. */
  ghost predicate Extends(a: seq<ActionEx>, b: seq<ActionEx>) {
    && |a| <= |b| && (forall k :: 0 <= k < |a| ==> b[k] == a[k])
    && (forall k :: |a| <= k < |b| ==> b[k].state == RUNNING && !b[k].accepted)
  }

  lemma {:induction false} StartAllExtends(w: Items, indices: seq<nat>)
    ensures Extends(w.execs, StartAll(w, indices).execs)
    decreases |indices|
  {
    if indices == [] {
    } else {
      StartAllExtends(StartOne(w, indices[0]), indices[1..]);
    }
  }

  lemma HandleExtends(w: Items, i: nat)
    ensures Extends(w.execs, Handle(w, i).execs)
  {
    var w0 := w.(jobs := w.jobs - {i});
    var w1 := if w.concurrency > 0 && w.capacity < w.concurrency then w0.(capacity := w.capacity + 1) else w0;
    StartAllExtends(w1, NextIndexes(w1));
  }

  ghost predicate AllKept(w: Items, tr: Trace) {
    forall k: nat :: if k < |w.execs| then Keeps(w.execs[k], ReportOf(tr, k)) else ReportOf(tr, k) == NotYet
  }

  lemma {:induction false} RunKeepsReports(n: nat, c: nat, tr: Trace)
    requires After(n, c, tr).Reached?
    ensures AllKept(After(n, c, tr).items, tr)
  {
    match tr
    case First => StartAllExtends(Items(c, n, c, [], {}, RUNNING), NextIndexes(Items(c, n, c, [], {}, RUNNING)));
    case Then(before, a) =>
      RunKeepsReports(n, c, before);
      if a.Handled? {
        HandleExtends(After(n, c, before).items, a.pos);
      }
  }

  /** Every execution has the state and the output that was reported for it, and runs until then. */
  lemma ReportsAreKept(n: nat, c: nat, tr: Trace, i: nat)
    requires After(n, c, tr).Reached? && i < |After(n, c, tr).items.execs|
    ensures Keeps(After(n, c, tr).items.execs[i], ReportOf(tr, i))
  {
    RunKeepsReports(n, c, tr);
  }

  // ---------- the result of the task ----------

  function IndexOf(x: ActionEx): int {
    x.index
  }

  /** The outputs of the accepted executions, ordered by item. */
  method TaskResult(stored: seq<ActionEx>) returns (results: seq<Data>)
    ensures results == Outputs(Sort(IndexOf, stored))
  {
    var execs := Sort(IndexOf, stored);
    results := [];
    for i := 0 to |execs|
      invariant results == Outputs(execs[..i])
    {
      assert execs[..i + 1][..i] == execs[..i];
      if execs[i].accepted {
        results := results + [execs[i].output];
      }
    }
    assert execs[..|execs|] == execs;
  }

  function Outputs(execs: seq<ActionEx>): seq<Data> {
    if execs == [] then []
    else Outputs(execs[..|execs| - 1]) + if execs[|execs| - 1].accepted then [execs[|execs| - 1].output] else []
  }

  /** The positions of the accepted executions, ascending. */
  ghost predicate ListsAccepted(execs: seq<ActionEx>, at: seq<nat>) {
    && (forall k :: 0 <= k < |at| ==> at[k] < |execs| && execs[at[k]].accepted)
    && (forall k, m :: 0 <= k < m < |at| ==> at[k] < at[m])
    && (forall i: nat :: i < |execs| && execs[i].accepted ==> i in at)
  }

  lemma OneMoreAccepted(execs: seq<ActionEx>, at: seq<nat>)
    requires execs != [] && ListsAccepted(execs[..|execs| - 1], at)
    ensures var last := |execs| - 1; ListsAccepted(execs, at + if execs[last].accepted then [last] else [])
  {
    var last := |execs| - 1;
    assert forall k :: 0 <= k < |at| ==> execs[..last][at[k]] == execs[at[k]];
    assert forall i: nat :: i < last ==> execs[..last][i] == execs[i];
  }

  /** The results are the outputs of the executions at these positions. */
  ghost predicate OutputsAt(execs: seq<ActionEx>, at: seq<nat>, results: seq<Data>) {
    |results| == |at| && forall k :: 0 <= k < |at| ==> at[k] < |execs| && results[k] == execs[at[k]].output
  }

  lemma OneMoreOutput(execs: seq<ActionEx>, at: seq<nat>, results: seq<Data>)
    requires execs != [] && OutputsAt(execs[..|execs| - 1], at, results)
    ensures var last := |execs| - 1;
            && OutputsAt(execs, at, results)
            && OutputsAt(execs, at + [last], results + [execs[last].output])
  {
    assert forall k :: 0 <= k < |at| ==> execs[..|execs| - 1][at[k]] == execs[at[k]];
  }

  /** In every round the result is the outputs of the accepted executions and of no others, in their order. */
  lemma {:induction false} ResultIsAccepted(execs: seq<ActionEx>) returns (at: seq<nat>)
    ensures ListsAccepted(execs, at) && OutputsAt(execs, at, Outputs(execs))
  {
    if execs == [] {
      at := [];
    } else {
      var last := |execs| - 1;
      at := ResultIsAccepted(execs[..last]);
      OneMoreAccepted(execs, at);
      OneMoreOutput(execs, at, Outputs(execs[..last]));
      at := at + if execs[last].accepted then [last] else [];
    }
  }

  lemma {:induction false} OutputsOfAccepted(execs: seq<ActionEx>)
    requires forall k :: 0 <= k < |execs| ==> execs[k].accepted
    ensures |Outputs(execs)| == |execs| && forall k :: 0 <= k < |execs| ==> Outputs(execs)[k] == execs[k].output
  {
    if execs == [] {
    } else {
      OutputsOfAccepted(execs[..|execs| - 1]);
    }
  }

  /**
   Results do not depend on the order of completion, nor on the order in which
   the store returns the executions: entry i is the output for item i.
   */
  lemma ResultsAreInItemOrder(n: nat, c: nat, tr: Trace, stored: seq<ActionEx>)
    requires After(n, c, tr).Reached?
    requires var w := After(n, c, tr).items;
             IsCompleted(w.state) && !SomeAre(w, CANCELLED) && multiset(stored) == multiset(w.execs)
    ensures var execs, results := After(n, c, tr).items.execs, Outputs(Sort(IndexOf, stored));
            && |execs| == |results| == n
            && forall i :: 0 <= i < n ==>
                 execs[i].index == i && ReportOf(tr, i).As? && results[i] == ReportOf(tr, i).output
  {
    RunKeepsInv(n, c, tr);
    var w := After(n, c, tr).items;
    SortIsCorrect(IndexOf, stored);
    SortedIsUnique(IndexOf, w.execs, Sort(IndexOf, stored));
    OutputsOfAccepted(w.execs);
    RunKeepsReports(n, c, tr);
  }

  // ---------- the task object ----------

  class WithItemsTask {
    const concurrency: nat
    var count: nat
    var capacity: int
    var execs: seq<ActionEx>
    var jobs: set<nat>
    var state: State

    function View(): Items
      reads this
    {
      Items(concurrency, count, capacity, execs, jobs, state)
    }

    /** Sets up the runtime context of the first round and starts as many items as allowed. */
    constructor (n: nat, c: nat)
      ensures View() == Begin(n, c)
    {
      concurrency := c;
      count, capacity, execs, jobs, state := n, c, [], {}, RUNNING;
      new;
      ScheduleActions();
    }

    /** Fails when the capacity is exceeded. */
    method DecreaseCapacity(n: nat) returns (raised: bool)
      modifies this`capacity
      ensures raised <==> concurrency > 0 && old(capacity) < n
      ensures capacity == if concurrency > 0 && !raised then old(capacity) - n else old(capacity)
    {
      raised := false;
      if concurrency > 0 {
        if capacity >= n {
          capacity := capacity - n;
        } else {
          raised := true;
        }
      }
    }

    method IncreaseCapacity()
      modifies this`capacity
      ensures capacity == old(capacity) + if concurrency > 0 && old(capacity) < concurrency then 1 else 0
    {
      if concurrency > 0 && capacity < concurrency {
        capacity := capacity + 1;
      }
    }

    /** Starts the next portion of actions; in no round does this exceed the capacity. */
    method ScheduleActions()
      requires capacity >= 0
      modifies this
      ensures View() == Schedule(old(View()))
    {
      var indices := NextIndexes(View());
      NextIndexesAreSane(View());
      if indices == [] {
        state := SUCCESS;
        return;
      }
      for i := 0 to |indices|
        invariant StartAll(View(), indices[i..]) == StartAll(old(View()), indices)
        invariant concurrency > 0 ==> capacity >= |indices| - i
      {
        assert indices[i..][0] == indices[i] && indices[i..][1..] == indices[i + 1..];
        execs := execs + [ActionEx(indices[i], RUNNING, false, "")];
        var raised := DecreaseCapacity(1);
        assert !raised;
      }
      assert indices[|indices|..] == [];
    }

    /** The completion handler of the execution at position i. */
    method OnActionComplete(i: nat)
      requires capacity >= 0
      modifies this
      ensures View() == Handle(old(View()), i)
    {
      jobs := jobs - {i};
      if IsCompleted(state) {
        return;
      }
      IncreaseCapacity();
      ghost var w1 := View();
      assert Handle(old(View()), i) == Settle(w1);
      if ItemsCompleted(View()) {
        state := FinalItemsState(View());
        return;
      }
      if HasMoreIterations(View()) && concurrency > 0 {
        ScheduleActions();
      }
    }
  }
}
