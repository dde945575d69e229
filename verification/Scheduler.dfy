/**
 Schedulers that share a persistent job store.  A job is captured by
 compare-and-set on its "captured at" column, invoked, and only then deleted;
 schedulers may stop, crash and restart at any point.
 */
module Scheduler {
  import opened Wrappers

  type Time = nat
  type JobId = nat
  type SchedulerId = nat
  type WorkerId = nat

  /**
   `pickupAfter` and `timeout` are the pick-up delay and the time after which a
   captured job may be captured again.
   */
  datatype Config = Config(pickupAfter: nat, timeout: nat)

  datatype Stored = Stored(executeAt: Time, capturedAt: Option<Time>)

  /** A job waiting in the memory of the scheduler that created it; `seqNo` breaks ties. */
  datatype Entry = Entry(executeAt: Time, seqNo: nat, job: JobId)

  datatype Local = Local(stopped: bool, heap: set<Entry>, seqNo: nat)

  /** A thread on its way through one job, with the captured-at value its copy of the job carries. */
  datatype Stage = Pending(seen: Option<Time>) | Captured(at: Time) | Invoked
  datatype Worker = Worker(owner: SchedulerId, job: JobId, stage: Stage)

  datatype Event =
    | WasCaptured(who: SchedulerId, job: JobId, was: Option<Time>, at: Time)
    | WasInvoked(who: SchedulerId, job: JobId)
    | WasDeleted(who: SchedulerId, job: JobId)

  /** `created` counts the jobs ever persisted; `log` records captures, invocations and deletions. */
  datatype System = System(now: Time,
                           store: map<JobId, Stored>,
                           created: nat,
                           locals: map<SchedulerId, Local>,
                           workers: map<WorkerId, Worker>,
                           log: seq<Event>)

  const INIT := System(0, map[], 0, map[], map[], [])

  datatype Action =
    | Tick(to: Time)
    | Boot(s: SchedulerId)
    | Schedule(s: SchedulerId, runAfter: nat)
    | Dispatch(s: SchedulerId, entry: Entry, w: WorkerId)
    | Poll(s: SchedulerId, job: JobId, w: WorkerId)
    | Capture(w: WorkerId)
    | Invoke(w: WorkerId)
    | Delete(w: WorkerId)
    | Stop(s: SchedulerId)
    | Crash(s: SchedulerId)

  predicate Earlier(a: Entry, b: Entry) {
    a.executeAt < b.executeAt || (a.executeAt == b.executeAt && a.seqNo <= b.seqNo)
  }

  /** The store query: due for longer than the pick-up delay, and not captured or captured too long ago. */
  predicate Eligible(c: Config, job: Stored, now: Time) {
    && job.executeAt + c.pickupAfter < now
    && (job.capturedAt.None? || job.capturedAt.value + c.timeout <= now)
  }

  predicate Runs(x: System, s: SchedulerId) {
    s in x.locals && !x.locals[s].stopped
  }

  predicate Enabled(c: Config, x: System, a: Action) {
    match a
    case Tick(to) => x.now <= to
    case Boot(s) => !Runs(x, s)
    case Schedule(s, _) => s in x.locals
    case Dispatch(s, entry, w) =>
      && Runs(x, s) && w !in x.workers && entry in x.locals[s].heap && entry.executeAt <= x.now
      && forall e :: e in x.locals[s].heap ==> Earlier(entry, e)
    case Poll(s, job, w) => Runs(x, s) && w !in x.workers && job in x.store && Eligible(c, x.store[job], x.now)
    case Capture(w) => w in x.workers && x.workers[w].stage.Pending?
    case Invoke(w) => w in x.workers && x.workers[w].stage.Captured?
    case Delete(w) => w in x.workers && x.workers[w].stage.Invoked?
    case Stop(s) => Runs(x, s)
    case Crash(s) => s in x.locals
  }

  function Apply(c: Config, x: System, a: Action): System
    requires Enabled(c, x, a)
  {
    match a
    case Tick(to) => x.(now := to)
    case Boot(s) => x.(locals := x.locals[s := Local(false, {}, 0)])
    case Schedule(s, runAfter) =>
      var l := x.locals[s];
      var entry := Entry(x.now + runAfter, l.seqNo + 1, x.created);
      x.(store := x.store[x.created := Stored(entry.executeAt, None)],
         created := x.created + 1,
         locals := x.locals[s := l.(heap := l.heap + {entry}, seqNo := l.seqNo + 1)])
    case Dispatch(s, entry, w) =>
      x.(locals := x.locals[s := x.locals[s].(heap := x.locals[s].heap - {entry})],
         workers := x.workers[w := Worker(s, entry.job, Pending(None))])
    case Poll(s, job, w) =>
      x.(workers := x.workers[w := Worker(s, job, Pending(x.store[job].capturedAt))])
    case Capture(w) =>
      var k := x.workers[w];
      if k.job in x.store && x.store[k.job].capturedAt == k.stage.seen then
        x.(store := x.store[k.job := x.store[k.job].(capturedAt := Some(x.now))],
           workers := x.workers[w := k.(stage := Captured(x.now))],
           log := x.log + [WasCaptured(k.owner, k.job, k.stage.seen, x.now)])
      else
        x.(workers := x.workers - {w})
    case Invoke(w) =>
      var k := x.workers[w];
      x.(workers := x.workers[w := k.(stage := Invoked)], log := x.log + [WasInvoked(k.owner, k.job)])
    case Delete(w) =>
      var k := x.workers[w];
      if k.job in x.store then
        x.(store := x.store - {k.job}, workers := x.workers - {w}, log := x.log + [WasDeleted(k.owner, k.job)])
      else
        x.(workers := x.workers - {w})
    case Stop(s) => x.(locals := x.locals[s := x.locals[s].(stopped := true, heap := {})])
    case Crash(s) =>
      x.(locals := x.locals - {s},
         workers := map w | w in x.workers && x.workers[w].owner != s :: x.workers[w])
  }

  // ---------- runs ----------

  datatype Trace = Begin | Then(before: Trace, action: Action)

  datatype Outcome = Impossible | Reached(system: System)

  function After(c: Config, tr: Trace): Outcome {
    match tr
    case Begin => Reached(INIT)
    case Then(before, a) =>
      match After(c, before)
      case Reached(x) => if Enabled(c, x, a) then Reached(Apply(c, x, a)) else Impossible
      case Impossible => Impossible
  }

  // ---------- the invariant ----------

  /** When the job was last captured, according to the log. */
  function LastCapture(log: seq<Event>, job: JobId): Option<Time> {
    if log == [] then None else
      var e := log[|log| - 1];
      if e.WasCaptured? && e.job == job then Some(e.at) else LastCapture(log[..|log| - 1], job)
  }

  /** Each capture replaced the previous one, and not before its timeout. */
  ghost predicate WellSpaced(c: Config, log: seq<Event>) {
    forall i :: 0 <= i < |log| && log[i].WasCaptured? ==>
      && log[i].was == LastCapture(log[..i], log[i].job)
      && (log[i].was.Some? ==> log[i].was.value + c.timeout <= log[i].at)
  }

  ghost predicate InvokedBefore(log: seq<Event>, s: SchedulerId, job: JobId) {
    exists i :: 0 <= i < |log| && log[i] == WasInvoked(s, job)
  }

  ghost predicate CapturedBefore(log: seq<Event>, s: SchedulerId, job: JobId) {
    exists i :: 0 <= i < |log| && log[i].WasCaptured? && log[i].who == s && log[i].job == job
  }

  /** Invocations follow captures, and deletions follow invocations, by the same scheduler. */
  ghost predicate Ordered(log: seq<Event>) {
    forall i :: 0 <= i < |log| ==>
      match log[i]
      case WasInvoked(s, job) => CapturedBefore(log[..i], s, job)
      case WasDeleted(s, job) => InvokedBefore(log[..i], s, job)
      case WasCaptured(_, _, _, _) => true
  }

  ghost predicate DeletedIn(log: seq<Event>, job: JobId) {
    exists i :: 0 <= i < |log| && log[i].WasDeleted? && log[i].job == job
  }

  ghost predicate StoreMatchesLog(x: System) {
    && (forall job :: job in x.store ==> job < x.created && x.store[job].capturedAt == LastCapture(x.log, job))
    && (forall job: nat :: job < x.created && job !in x.store ==> DeletedIn(x.log, job))
    && (forall job: nat :: job >= x.created ==> LastCapture(x.log, job) == None)
  }

  /**
   A pending worker's copy is uncaptured or was already due for recapture; the
   others have left their trace in the log.
   */
  ghost predicate WorkersMatchLog(c: Config, x: System) {
    forall w :: w in x.workers ==>
      var k := x.workers[w];
      k.job < x.created &&
      match k.stage
      case Pending(seen) => seen.Some? ==> seen.value + c.timeout <= x.now
      case Captured(_) => CapturedBefore(x.log, k.owner, k.job)
      case Invoked => InvokedBefore(x.log, k.owner, k.job)
  }

  ghost predicate HeapsHoldJobs(x: System) {
    forall s, e :: s in x.locals && e in x.locals[s].heap ==> e.job < x.created
  }

  ghost predicate Inv(c: Config, x: System) {
    match x
    case System(_, _, _, _, _, log) =>
      WellSpaced(c, log) && Ordered(log) && StoreMatchesLog(x) && WorkersMatchLog(c, x) && HeapsHoldJobs(x)
  }

  // ---------- the log grows ----------

  lemma LogGrows(log: seq<Event>, e: Event)
    ensures forall job :: LastCapture(log + [e], job) ==
                          if e.WasCaptured? && e.job == job then Some(e.at) else LastCapture(log, job)
    ensures forall s, job :: InvokedBefore(log, s, job) ==> InvokedBefore(log + [e], s, job)
    ensures forall s, job :: CapturedBefore(log, s, job) ==> CapturedBefore(log + [e], s, job)
    ensures forall job :: DeletedIn(log, job) ==> DeletedIn(log + [e], job)
  {
    var longer := log + [e];
    assert longer[..|log|] == log && longer[|log|] == e;
    forall s, job | InvokedBefore(log, s, job)
      ensures InvokedBefore(longer, s, job)
    {
      var i :| 0 <= i < |log| && log[i] == WasInvoked(s, job);
      assert longer[i] == log[i];
    }
    forall s, job | CapturedBefore(log, s, job)
      ensures CapturedBefore(longer, s, job)
    {
      var i :| 0 <= i < |log| && log[i].WasCaptured? && log[i].who == s && log[i].job == job;
      assert longer[i] == log[i];
    }
    forall job | DeletedIn(log, job)
      ensures DeletedIn(longer, job)
    {
      var i :| 0 <= i < |log| && log[i].WasDeleted? && log[i].job == job;
      assert longer[i] == log[i];
    }
  }

  lemma LogStaysSound(c: Config, log: seq<Event>, e: Event)
    requires WellSpaced(c, log) && Ordered(log)
    requires e.WasCaptured? ==> e.was == LastCapture(log, e.job) && (e.was.Some? ==> e.was.value + c.timeout <= e.at)
    requires e.WasInvoked? ==> CapturedBefore(log, e.who, e.job)
    requires e.WasDeleted? ==> InvokedBefore(log, e.who, e.job)
    ensures WellSpaced(c, log + [e]) && Ordered(log + [e])
  {
    var longer := log + [e];
    forall i | 0 <= i < |longer|
      ensures longer[..i] == if i < |log| then log[..i] else log
    {
    }
  }

  lemma CaptureKeepsInv(c: Config, x: System, w: WorkerId)
    requires Inv(c, x) && Enabled(c, x, Capture(w))
    ensures Inv(c, Apply(c, x, Capture(w)))
  {
    var k := x.workers[w];
    if k.job in x.store && x.store[k.job].capturedAt == k.stage.seen {
      var e := WasCaptured(k.owner, k.job, k.stage.seen, x.now);
      LogGrows(x.log, e);
      LogStaysSound(c, x.log, e);
      assert (x.log + [e])[|x.log|] == e;
    }
  }

  lemma InvokeKeepsInv(c: Config, x: System, w: WorkerId)
    requires Inv(c, x) && Enabled(c, x, Invoke(w))
    ensures Inv(c, Apply(c, x, Invoke(w)))
  {
    var k := x.workers[w];
    var e := WasInvoked(k.owner, k.job);
    LogGrows(x.log, e);
    LogStaysSound(c, x.log, e);
    assert (x.log + [e])[|x.log|] == e;
  }

  lemma DeleteKeepsInv(c: Config, x: System, w: WorkerId)
    requires Inv(c, x) && Enabled(c, x, Delete(w))
    ensures Inv(c, Apply(c, x, Delete(w)))
  {
    var k := x.workers[w];
    if k.job in x.store {
      var e := WasDeleted(k.owner, k.job);
      LogGrows(x.log, e);
      LogStaysSound(c, x.log, e);
      assert (x.log + [e])[|x.log|] == e;
    }
  }

  lemma StepKeepsInv(c: Config, x: System, a: Action)
    requires Inv(c, x) && Enabled(c, x, a)
    ensures Inv(c, Apply(c, x, a))
  {
    match a
    case Capture(w) => CaptureKeepsInv(c, x, w);
    case Invoke(w) => InvokeKeepsInv(c, x, w);
    case Delete(w) => DeleteKeepsInv(c, x, w);
    case _ =>
  }

  lemma {:induction false} RunKeepsInv(c: Config, tr: Trace)
    requires After(c, tr).Reached?
    ensures Inv(c, After(c, tr).system)
  {
    if tr.Begin? {
    } else {
      RunKeepsInv(c, tr.before);
      StepKeepsInv(c, After(c, tr.before).system, tr.action);
    }
  }

  // ---------- main results ----------

  lemma {:induction false} LastCaptureIsLater(c: Config, log: seq<Event>, i: nat, j: nat)
    requires WellSpaced(c, log) && i < j <= |log| && log[i].WasCaptured?
    ensures LastCapture(log[..j], log[i].job).Some? && log[i].at <= LastCapture(log[..j], log[i].job).value
    decreases j
  {
    assert log[..j][..j - 1] == log[..j - 1];
    if i < j - 1 {
      LastCaptureIsLater(c, log, i, j - 1);
    }
  }

  /** Two captures of one job are separated by the recapture timeout, whoever makes them. */
  lemma CapturesAreSpaced(c: Config, tr: Trace, i: nat, j: nat)
    requires After(c, tr).Reached?
    requires var log := After(c, tr).system.log;
             i < j < |log| && log[i].WasCaptured? && log[j].WasCaptured? && log[i].job == log[j].job
    ensures var log := After(c, tr).system.log; log[i].at + c.timeout <= log[j].at
  {
    RunKeepsInv(c, tr);
    LastCaptureIsLater(c, After(c, tr).system.log, i, j);
  }

  /** With a positive timeout, each value of the captured-at column is replaced by at most one capture. */
  lemma EachValueIsWonOnce(c: Config, tr: Trace, i: nat, j: nat)
    requires After(c, tr).Reached? && c.timeout >= 1
    requires var log := After(c, tr).system.log;
             i < |log| && j < |log| && log[i].WasCaptured? && log[j].WasCaptured? && log[i].job == log[j].job
    ensures var log := After(c, tr).system.log; log[i].was == log[j].was ==> i == j
  {
    RunKeepsInv(c, tr);
    if i < j {
      LastCaptureIsLater(c, After(c, tr).system.log, i, j);
    } else if j < i {
      LastCaptureIsLater(c, After(c, tr).system.log, j, i);
    }
  }

  /** A job leaves the store only when a scheduler that captured and then invoked it deletes it. */
  lemma NoJobIsLost(c: Config, tr: Trace, job: JobId)
    requires After(c, tr).Reached?
    requires var x := After(c, tr).system; job < x.created && job !in x.store
    ensures var log := After(c, tr).system.log;
            exists h, i, k :: 0 <= h < i < k < |log| && log[h].WasCaptured? && log[h].job == job &&
                              log[i] == WasInvoked(log[h].who, job) && log[k] == WasDeleted(log[h].who, job)
  {
    RunKeepsInv(c, tr);
    var log := After(c, tr).system.log;
    var k :| 0 <= k < |log| && log[k].WasDeleted? && log[k].job == job;
    var s := log[k].who;
    assert InvokedBefore(log[..k], s, job);
    var i :| 0 <= i < |log[..k]| && log[..k][i] == WasInvoked(s, job);
    assert log[i] == WasInvoked(s, job);
    assert CapturedBefore(log[..i], s, job);
    var h :| 0 <= h < |log[..i]| && log[..i][h].WasCaptured? && log[..i][h].who == s && log[..i][h].job == job;
    assert log[h].WasCaptured? && log[h].job == job && log[h].who == s;
  }

  // ---------- no job is early ----------

  /** Queued entries carry the time of their job, and threads work only on jobs that are due. */
  ghost predicate OnTime(x: System) {
    && (forall job :: job in x.store ==> job < x.created)
    && HeapsOnTime(x) && WorkersOnTime(x)
  }

  ghost predicate HeapsOnTime(x: System) {
    forall s, e :: s in x.locals && e in x.locals[s].heap ==>
      e.job < x.created && (e.job in x.store ==> x.store[e.job].executeAt == e.executeAt)
  }

  ghost predicate WorkersOnTime(x: System) {
    forall w :: w in x.workers ==>
      x.workers[w].job < x.created && (x.workers[w].job in x.store ==> x.store[x.workers[w].job].executeAt <= x.now)
  }

  lemma HeapsStayOnTime(c: Config, x: System, a: Action)
    requires OnTime(x) && Enabled(c, x, a)
    ensures HeapsOnTime(Apply(c, x, a))
  {
  }

  lemma WorkersStayOnTime(c: Config, x: System, a: Action)
    requires OnTime(x) && Enabled(c, x, a)
    ensures WorkersOnTime(Apply(c, x, a))
  {
  }

  lemma StepStaysOnTime(c: Config, x: System, a: Action)
    requires OnTime(x) && Enabled(c, x, a)
    ensures OnTime(Apply(c, x, a))
  {
    HeapsStayOnTime(c, x, a);
    WorkersStayOnTime(c, x, a);
  }

  /**
   Whichever way a scheduler came to a job, in memory or by polling, the job is
   due when it is captured and invoked.
   */
  lemma NoJobIsEarly(c: Config, tr: Trace, w: WorkerId)
    requires After(c, tr).Reached? && w in After(c, tr).system.workers
    ensures var x := After(c, tr).system;
            x.workers[w].job in x.store ==> x.store[x.workers[w].job].executeAt <= x.now
  {
    RunStaysOnTime(c, tr);
  }

  lemma {:induction false} RunStaysOnTime(c: Config, tr: Trace)
    requires After(c, tr).Reached?
    ensures OnTime(After(c, tr).system)
  {
    if tr.Begin? {
    } else {
      RunStaysOnTime(c, tr.before);
      StepStaysOnTime(c, After(c, tr.before).system, tr.action);
    }
  }

  ghost predicate Continues(early: Trace, tr: Trace) {
    early == tr || (tr.Then? && Continues(early, tr.before))
  }

  /** A stopped scheduler drops its queue but ends what it works on; a crashed one is gone with its threads alone. */
  lemma StopsKeepJobs(c: Config, x: System, s: SchedulerId)
    ensures Enabled(c, x, Stop(s)) ==>
              var x' := Apply(c, x, Stop(s));
              && x'.store == x.store && x'.workers == x.workers && x'.log == x.log && !Runs(x', s)
              && x'.locals[s].heap == {} && forall r :: r in x.locals && r != s ==> x'.locals[r] == x.locals[r]
    ensures Enabled(c, x, Crash(s)) ==>
              var x' := Apply(c, x, Crash(s));
              && x'.store == x.store && x'.log == x.log && s !in x'.locals
              && (forall r :: r in x.locals && r != s ==> r in x'.locals && x'.locals[r] == x.locals[r])
              && (forall w :: w in x'.workers <==> w in x.workers && x.workers[w].owner != s)
              && (forall w :: w in x'.workers ==> x'.workers[w] == x.workers[w])
  {
  }

  // ---------- a job waits for the delay it was scheduled with ----------

  /** Nothing refers to a job before it is created. */
  ghost predicate KnowsCreated(x: System) {
    && (forall job :: job in x.store ==> job < x.created)
    && (forall s, e :: s in x.locals && e in x.locals[s].heap ==> e.job < x.created)
    && (forall w :: w in x.workers ==> x.workers[w].job < x.created)
    && (forall i :: 0 <= i < |x.log| ==> x.log[i].job < x.created)
  }

  lemma StepKnowsCreated(c: Config, x: System, a: Action)
    requires KnowsCreated(x) && Enabled(c, x, a)
    ensures KnowsCreated(Apply(c, x, a))
  {
  }

  lemma {:induction false} RunKnowsCreated(c: Config, tr: Trace)
    requires After(c, tr).Reached?
    ensures KnowsCreated(After(c, tr).system)
  {
    if tr.Begin? {
    } else {
      RunKnowsCreated(c, tr.before);
      StepKnowsCreated(c, After(c, tr.before).system, tr.action);
    }
  }

  /** The job is due at the given time, and whoever has come to work on it has waited for it. */
  ghost predicate WaitsFor(x: System, job: JobId, due: Time) {
    && job < x.created
    && (job in x.store ==> x.store[job].executeAt == due)
    && (forall s, e :: s in x.locals && e in x.locals[s].heap && e.job == job ==> e.executeAt == due)
    && (forall w :: w in x.workers && x.workers[w].job == job ==> due <= x.now)
    && (forall i :: 0 <= i < |x.log| && x.log[i].job == job ==>
          due <= x.now && (x.log[i].WasCaptured? ==> due <= x.log[i].at))
  }

  lemma StepWaitsFor(c: Config, x: System, a: Action, job: JobId, due: Time)
    requires WaitsFor(x, job, due) && Enabled(c, x, a)
    ensures WaitsFor(Apply(c, x, a), job, due)
  {
    var x' := Apply(c, x, a);
    if a.Capture? || a.Invoke? || a.Delete? {
      var k := x.workers[a.w];
      assert |x'.log| <= |x.log| + 1 && x'.now == x.now;
    }
  }

  lemma {:induction false} ScheduledWaits(c: Config, early: Trace, s: SchedulerId, runAfter: nat, tr: Trace)
    requires After(c, tr).Reached? && Continues(Then(early, Schedule(s, runAfter)), tr)
    ensures After(c, early).Reached?
    ensures var x := After(c, early).system; WaitsFor(After(c, tr).system, x.created, x.now + runAfter)
    decreases tr
  {
    if tr == Then(early, Schedule(s, runAfter)) {
      RunKnowsCreated(c, early);
    } else {
      ScheduledWaits(c, early, s, runAfter, tr.before);
      var x := After(c, early).system;
      StepWaitsFor(c, After(c, tr.before).system, tr.action, x.created, x.now + runAfter);
    }
  }

  /**
   A job scheduled to run after a delay is worked on, captured and invoked only
   when the delay is over, and is due until then wherever it waits.
   */
  lemma DelayIsKept(c: Config, early: Trace, s: SchedulerId, runAfter: nat, tr: Trace)
    requires After(c, tr).Reached? && Continues(Then(early, Schedule(s, runAfter)), tr)
    ensures After(c, early).Reached?
    ensures var job, due, x := After(c, early).system.created, After(c, early).system.now + runAfter,
                               After(c, tr).system;
            && (job in x.store ==> x.store[job].executeAt == due)
            && ((exists w :: w in x.workers && x.workers[w].job == job) ==> due <= x.now)
            && ((exists e :: e in x.log && e.job == job) ==> due <= x.now)
            && (forall e :: e in x.log && e.WasCaptured? && e.job == job ==> due <= e.at)
  {
    ScheduledWaits(c, early, s, runAfter, tr);
  }

  lemma FreshIsQueued(x: System, s: SchedulerId, runAfter: nat, c: Config)
    requires KnowsCreated(x) && Enabled(c, x, Schedule(s, runAfter))
    ensures var x' := Apply(c, x, Schedule(s, runAfter));
            && x.created in x'.store && x'.store[x.created] == Stored(x.now + runAfter, None) && s in x'.locals
            && (exists e :: e in x'.locals[s].heap && e.job == x.created && e.executeAt == x.now + runAfter)
            && (forall r, e :: r in x'.locals && e in x'.locals[r].heap && e.job == x.created ==> r == s)
  {
    var x' := Apply(c, x, Schedule(s, runAfter));
    var entry := Entry(x.now + runAfter, x.locals[s].seqNo + 1, x.created);
    assert entry in x'.locals[s].heap;
  }

  /** A scheduled job is in the store, not captured, and queued by the scheduler that took it, by no other. */
  lemma ScheduledIsQueued(c: Config, early: Trace, s: SchedulerId, runAfter: nat)
    requires After(c, Then(early, Schedule(s, runAfter))).Reached?
    ensures var job, due := After(c, early).system.created, After(c, early).system.now + runAfter;
            var x := After(c, Then(early, Schedule(s, runAfter))).system;
            && job in x.store && x.store[job] == Stored(due, None) && s in x.locals
            && (exists e :: e in x.locals[s].heap && e.job == job && e.executeAt == due)
            && (forall r, e :: r in x.locals && e in x.locals[r].heap && e.job == job ==> r == s)
  {
    RunKnowsCreated(c, early);
    FreshIsQueued(After(c, early).system, s, runAfter, c);
  }

  /** A scheduler comes to a job by polling only when it is overdue by the pick-up delay. */
  lemma PollingWaitsLonger(c: Config, early: Trace, s: SchedulerId, runAfter: nat, tr: Trace)
    requires After(c, tr).Reached? && tr.Then? && tr.action.Poll?
    requires After(c, early).Reached? && tr.action.job == After(c, early).system.created
    requires Continues(Then(early, Schedule(s, runAfter)), tr.before)
    ensures After(c, tr).system.now > After(c, early).system.now + runAfter + c.pickupAfter
  {
    ScheduledWaits(c, early, s, runAfter, tr.before);
  }

  /** In each queue, later jobs have higher sequence numbers, none above the scheduler's counter. */
  ghost predicate Numbered(x: System) {
    && (forall s, e :: s in x.locals && e in x.locals[s].heap ==> e.seqNo <= x.locals[s].seqNo && e.job < x.created)
    && (forall s, e, f :: s in x.locals && e in x.locals[s].heap && f in x.locals[s].heap ==>
          (e.seqNo < f.seqNo <==> e.job < f.job) && (e.seqNo == f.seqNo ==> e == f))
  }

  lemma ScheduleStaysNumbered(c: Config, x: System, s: SchedulerId, runAfter: nat)
    requires Numbered(x) && Enabled(c, x, Schedule(s, runAfter))
    ensures Numbered(Apply(c, x, Schedule(s, runAfter)))
  {
  }

  /** Queues only lose entries, or are new and empty. */
  lemma FewerStayNumbered(x: System, x': System)
    requires Numbered(x) && x'.created == x.created
    requires forall s :: s in x'.locals ==>
               x'.locals[s].heap == {} ||
               (s in x.locals && x'.locals[s].heap <= x.locals[s].heap && x'.locals[s].seqNo == x.locals[s].seqNo)
    ensures Numbered(x')
  {
  }

  lemma StepStaysNumbered(c: Config, x: System, a: Action)
    requires Numbered(x) && Enabled(c, x, a)
    ensures Numbered(Apply(c, x, a))
  {
    if a.Schedule? {
      ScheduleStaysNumbered(c, x, a.s, a.runAfter);
    } else {
      FewerStayNumbered(x, Apply(c, x, a));
    }
  }

  lemma {:induction false} RunStaysNumbered(c: Config, tr: Trace)
    requires After(c, tr).Reached?
    ensures Numbered(After(c, tr).system)
  {
    if tr.Begin? {
    } else {
      RunStaysNumbered(c, tr.before);
      StepStaysNumbered(c, After(c, tr.before).system, tr.action);
    }
  }

  /** A scheduler takes its jobs up by their times, and of two with the same time the one scheduled first. */
  lemma FirstComesFirst(c: Config, tr: Trace, s: SchedulerId, entry: Entry, w: WorkerId, e: Entry)
    requires After(c, tr).Reached? && Enabled(c, After(c, tr).system, Dispatch(s, entry, w))
    requires e in After(c, tr).system.locals[s].heap && e != entry
    ensures entry.executeAt < e.executeAt || (entry.executeAt == e.executeAt && entry.job < e.job)
  {
    RunStaysNumbered(c, tr);
  }

  /** Once the delay is over, the earliest job in memory can be taken up by the scheduler that holds it. */
  lemma DueIsDispatched(c: Config, early: Trace, s: SchedulerId, runAfter: nat, tr: Trace, entry: Entry, w: WorkerId)
    requires After(c, tr).Reached? && Continues(Then(early, Schedule(s, runAfter)), tr)
    requires After(c, early).Reached? && entry.job == After(c, early).system.created
    requires var x := After(c, tr).system;
             && Runs(x, s) && entry in x.locals[s].heap && w !in x.workers
             && (forall e :: e in x.locals[s].heap ==> Earlier(entry, e))
    ensures Enabled(c, After(c, tr).system, Dispatch(s, entry, w)) <==>
            After(c, early).system.now + runAfter <= After(c, tr).system.now
  {
    ScheduledWaits(c, early, s, runAfter, tr);
  }

  /**
   Whatever crashed before, any running scheduler can still finish any stored
   job: once it is overdue the store offers it, and it can be captured,
   invoked and deleted.
   */
  lemma AnySchedulerCanFinish(c: Config, tr: Trace, s: SchedulerId, job: JobId) returns (end: Trace)
    requires After(c, tr).Reached? && Runs(After(c, tr).system, s) && job in After(c, tr).system.store
    ensures Continues(tr, end) && After(c, end).Reached?
    ensures var x := After(c, end).system; job !in x.store && InvokedBefore(x.log, s, job)
  {
    var x := After(c, tr).system;
    var w := FreshWorker(x.workers.Keys);
    var seen := x.store[job].capturedAt;
    var to := x.now + x.store[job].executeAt + c.pickupAfter + 1 + (if seen.Some? then seen.value + c.timeout else 0);
    var ticked := Then(tr, Tick(to));
    var polled := Then(ticked, Poll(s, job, w));
    var captured := Then(polled, Capture(w));
    var invoked := Then(captured, Invoke(w));
    end := Then(invoked, Delete(w));
    assert After(c, ticked).Reached? && Continues(tr, ticked);
    assert After(c, polled).Reached? && Continues(tr, polled);
    assert After(c, captured).Reached? && Continues(tr, captured);
    assert After(c, invoked).Reached? && Continues(tr, invoked);
    var log := After(c, invoked).system.log;
    assert log[|log| - 1] == WasInvoked(s, job);
    assert After(c, end).system.log[|log| - 1] == WasInvoked(s, job);
  }

  lemma {:induction false} FreshWorker(used: set<WorkerId>) returns (w: WorkerId)
    ensures w !in used && forall v :: v in used ==> v < w
    decreases used
  {
    if used == {} {
      w := 0;
    } else {
      var v :| v in used;
      var rest := FreshWorker(used - {v});
      w := if v < rest then rest else v + 1;
      assert used == (used - {v}) + {v};
    }
  }

  // ---------- the queue in a scheduler's memory ----------

  /** The fields of one scheduler; methods are called with its lock held. */
  class MemoryQueue {
    var heap: seq<Entry>
    var inMemory: set<JobId>
    var seqNo: nat
    var stopped: bool

    /** Every waiting job is known by its id, and sequence numbers are never reused. */
    ghost predicate Valid()
      reads this
    {
      && (forall i :: 0 <= i < |heap| ==> heap[i].seqNo <= seqNo && heap[i].job in inMemory)
      && (forall i, j :: 0 <= i < j < |heap| ==> heap[i].seqNo != heap[j].seqNo)
    }

    ghost function View(): Local
      reads this
    {
      Local(stopped, (set e | e in heap), seqNo)
    }

    constructor ()
      ensures Valid() && View() == Local(false, {}, 0)
    {
      heap, inMemory, seqNo, stopped := [], {}, 0, false;
    }

    method ScheduleInMemory(executeAt: Time, job: JobId)
      requires Valid()
      modifies this
      ensures Valid() && inMemory == old(inMemory) + {job}
      ensures var entry := Entry(executeAt, old(seqNo) + 1, job);
              View() == old(View()).(heap := old(View()).heap + {entry}, seqNo := old(seqNo) + 1)
    {
      seqNo := seqNo + 1;
      heap := heap + [Entry(executeAt, seqNo, job)];
      inMemory := inMemory + {job};
    }

    /** One turn of the dispatcher: the earliest entry is taken out if it is due. */
    method DispatchOne(now: Time) returns (r: Option<Entry>)
      requires Valid()
      modifies this
      ensures Valid() && inMemory == old(inMemory)
      ensures r.None? ==>
                View() == old(View()) && (old(stopped) || forall e :: e in old(View()).heap ==> e.executeAt > now)
      ensures r.Some? ==>
                && !old(stopped) && r.value in old(View()).heap && r.value.executeAt <= now
                && (forall e :: e in old(View()).heap ==> Earlier(r.value, e))
                && View() == old(View()).(heap := old(View()).heap - {r.value})
    {
      if stopped || heap == [] {
        return None;
      }
      var first := 0;
      for i := 1 to |heap|
        invariant first < i && forall k :: 0 <= k < i ==> Earlier(heap[first], heap[k])
      {
        if !Earlier(heap[first], heap[i]) {
          first := i;
        }
      }
      var entry := heap[first];
      if entry.executeAt > now {
        return None;
      }
      heap := heap[..first] + heap[first + 1..];
      TakenOut(old(heap), first);
      r := Some(entry);
    }

    /** A processed job is forgotten even if it could not be captured. */
    method Forget(job: JobId)
      requires Valid() && forall i :: 0 <= i < |heap| ==> heap[i].job != job
      modifies this`inMemory
      ensures Valid() && inMemory == old(inMemory) - {job}
    {
      inMemory := inMemory - {job};
    }

    /** Waiting jobs are dropped; they stay in the store. */
    method StopQueue()
      modifies this
      ensures Valid() && inMemory == {} && View() == old(View()).(stopped := true, heap := {})
    {
      stopped, heap, inMemory := true, [], {};
    }
  }

  lemma TakenOut(heap: seq<Entry>, i: nat)
    requires i < |heap| && forall k, m :: 0 <= k < m < |heap| ==> heap[k].seqNo != heap[m].seqNo
    ensures var rest := heap[..i] + heap[i + 1..];
            && (set e | e in rest) == (set e | e in heap) - {heap[i]}
            && (forall k :: 0 <= k < |rest| ==> rest[k] in heap)
            && (forall k, m :: 0 <= k < m < |rest| ==> rest[k].seqNo != rest[m].seqNo)
  {
    var rest := heap[..i] + heap[i + 1..];
    assert forall k :: 0 <= k < |rest| ==> rest[k] == heap[if k < i then k else k + 1];
    forall e | e in heap && e != heap[i]
      ensures e in rest
    {
      var k :| 0 <= k < |heap| && heap[k] == e;
      assert rest[if k < i then k else k - 1] == e;
    }
  }
}
