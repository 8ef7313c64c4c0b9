/** A reference-counted audio device stream whose stop is deferred by 750 ms through the scheduler.
    A deferred stop fires in two steps, leaving the queue and then running its locked body, and guards
    may be taken and released in between. */
module AudioStream {
  import opened Options
  import opened Scheduler
  import opened SchedulerRuns
  import opened ScheduledExecutor

  const LINGER: int := 750

  datatype DeviceOp = Started(at: int) | Stopped(at: int, released: int)

  /** `ours` are the stop tasks ever scheduled, `slot` the one still cancellable, `firing` the one whose
      body waits for the lock. */
  datatype Stream = Stream(
    sched: State,
    users: nat,
    slot: Option<nat>,
    firing: Option<nat>,
    started: bool,
    released: int,
    ours: set<nat>,
    log: seq<DeviceOp>)

  datatype Step = Acquire | Release | Sched(e: Event) | Body | RecreateDriver

  function Begin(now: int): Stream {
    Stream(Scheduler.Init(now), 0, None, None, false, now, {}, [])
  }

  ghost function Take(g: Stream): Stream {
    if g.users > 0 then g.(users := g.users + 1)
    else if g.slot.Some? then g.(users := 1, slot := None, sched := Next(g.sched, Cancel(g.slot.value)))
    else g.(users := 1, started := true, log := g.log + [Started(g.sched.now)])
  }

  ghost function Drop(g: Stream): Stream {
    if g.users == 0 then g
    else if g.users > 1 then g.(users := g.users - 1)
    else
      var task := |g.sched.tasks|;
      g.(users := 0, slot := Some(task), ours := g.ours + {task}, released := g.sched.now,
         sched := Next(g.sched, ScheduleAt(g.sched.now + LINGER)))
  }

  function RunBody(g: Stream): Stream {
    if g.firing.None? then g
    else if g.users > 0 then g.(firing := None, slot := None)
    else g.(firing := None, slot := None, started := false,
            log := g.log + [Stopped(g.sched.now, g.released)])
  }

  /** The worker launches one of our stop tasks. */
  predicate Launches(g: Stream, e: Event) {
    && e.StartNext? && CanStart(g.sched)
    && g.sched.batch[0].work.Entry? && g.sched.batch[0].work.task in g.ours
    && Live(g.sched, g.sched.batch[0].work)
  }

  /** The worker is a single thread, and only the guards hold the task handles. */
  predicate Blocked(g: Stream, e: Event) {
    || (g.firing.Some? && (e.StartNext? || e.Poll? || e.Start?))
    || ((e.Cancel? || e.Reset?) && e.task in g.ours)
  }

  ghost function Apply(g: Stream, step: Step): Stream {
    match step
    case Acquire => Take(g)
    case Release => Drop(g)
    case Body => RunBody(g)
    case RecreateDriver => g.(started := g.users > 0)
    case Sched(e) =>
      if Blocked(g, e) then g
      else if Launches(g, e) then g.(sched := Next(g.sched, e), firing := Some(g.sched.batch[0].work.task))
      else g.(sched := Next(g.sched, e))
  }

  ghost function Play(g: Stream, steps: seq<Step>): Stream
    decreases |steps|
  {
    if steps == [] then g else Play(Apply(g, steps[0]), steps[1..])
  }

  /** What every caller relies on: a held guard means a started stream. */
  predicate Consistent(g: Stream) {
    && (g.users > 0 ==> g.started && g.slot.None?)
    && (g.slot.Some? ==> g.users == 0 && g.started)
    && (g.users == 0 && g.slot.None? ==> !g.started)
  }

  ghost predicate Known(g: Stream, task: nat) {
    task < |g.sched.tasks| && !g.sched.tasks[task].repeated
  }

  ghost predicate Wired(g: Stream) {
    && (forall t :: t in g.ours ==> Known(g, t))
    && (g.slot.Some? ==> g.slot.value in g.ours)
    && (g.slot.Some? ==> g.sched.tasks[g.slot.value].origin == g.released + LINGER)
    && (g.firing.Some? ==> g.firing.value in g.ours)
    && (g.firing.Some? ==> g.sched.tasks[g.firing.value].origin <= g.sched.now)
  }

  ghost predicate Good(g: Stream) {
    Inv(g.sched) && Consistent(g) && Wired(g)
  }

  lemma LaunchIsDue(g: Stream, e: Event)
    requires Good(g) && Launches(g, e)
    ensures g.sched.tasks[g.sched.batch[0].work.task].origin <= g.sched.now
  {
    var job := g.sched.batch[0];
    assert job in Items(g.sched.batch) && job in Items(g.sched.submitted);
    assert OnGrid(g.sched, job);
    assert Known(g, job.work.task);
  }

  /** Seen from the scheduler, every step is one of its own. */
  lemma SchedStep(g: Stream, step: Step) returns (e: Event)
    ensures Apply(g, step).sched == Next(g.sched, e)
  {
    match step
    case Acquire => e := if g.users == 0 && g.slot.Some? then Cancel(g.slot.value) else Tick(g.sched.now);
    case Release => e := if g.users == 1 then ScheduleAt(g.sched.now + LINGER) else Tick(g.sched.now);
    case Sched(e') => e := if Apply(g, step).sched == g.sched then Tick(g.sched.now) else e';
    case _ => e := Tick(g.sched.now);
  }

  lemma TasksStay(s: State, e: Event)
    ensures s.tasks <= Next(s, e).tasks && s.now <= Next(s, e).now
  {}

  lemma WiredKeeps(g: Stream, step: Step)
    requires Good(g) && !step.RecreateDriver?
    ensures Wired(Apply(g, step))
  {
    match step
    case Sched(e) =>
      TasksStay(g.sched, e);
      if Launches(g, e) { LaunchIsDue(g, e); }
    case _ =>
  }

  /** The driver is only recreated while no stop is pending. */
  predicate Safe(g: Stream, step: Step) {
    step.RecreateDriver? ==> g.slot.None?
  }

  ghost predicate SafeRun(g: Stream, steps: seq<Step>)
    decreases |steps|
  {
    steps == [] || (Safe(g, steps[0]) && SafeRun(Apply(g, steps[0]), steps[1..]))
  }

  lemma RecreateChangesNothing(g: Stream)
    requires Consistent(g) && g.slot.None?
    ensures Apply(g, RecreateDriver) == g
  {
  }

  lemma ApplyKeeps(g: Stream, step: Step)
    requires Good(g) && Safe(g, step)
    ensures Good(Apply(g, step))
  {
    if step.RecreateDriver? {
      RecreateChangesNothing(g);
    } else {
      var e := SchedStep(g, step);
      NextKeeps(g.sched, e);
      WiredKeeps(g, step);
    }
  }

  lemma {:induction false} PlayKeeps(g: Stream, steps: seq<Step>)
    requires Good(g) && SafeRun(g, steps)
    ensures Good(Play(g, steps))
    decreases |steps|
  {
    if steps != [] {
      ApplyKeeps(g, steps[0]);
      PlayKeeps(Apply(g, steps[0]), steps[1..]);
    }
  }

  // ---- What the callers have done ----------------------------------------------------------------

  /** Read off the steps alone: the time, the guards out, and when the last of them was given back. */
  datatype Record = Record(clock: int, held: nat, released: int)

  function Note(r: Record, step: Step): Record {
    match step
    case Acquire => r.(held := r.held + 1)
    case Release =>
      if r.held == 0 then r
      else r.(held := r.held - 1, released := if r.held == 1 then r.clock else r.released)
    case Sched(e) => if e.Tick? && r.clock < e.to then r.(clock := e.to) else r
    case _ => r
  }

  function NoteAll(r: Record, steps: seq<Step>): Record
    decreases |steps|
  {
    if steps == [] then r else NoteAll(Note(r, steps[0]), steps[1..])
  }

  function Noted(now: int, steps: seq<Step>): Record {
    NoteAll(Record(now, 0, now), steps)
  }

  lemma {:induction false} RecordsAgree(g: Stream, steps: seq<Step>)
    ensures var n, r := Play(g, steps), NoteAll(Record(g.sched.now, g.users, g.released), steps);
            n.users == r.held && n.sched.now == r.clock && n.released == r.released
    decreases |steps|
  {
    if steps != [] {
      if steps[0].Sched? { RunningIff(g.sched, steps[0].e); }
      RecordsAgree(Apply(g, steps[0]), steps[1..]);
    }
  }

  /** Every guard is counted: on every run the counter is the number of guards taken and not given back, and the stream
      knows when the last one was. */
  lemma EveryGuardCounts(now: int, steps: seq<Step>)
    ensures var g, r := Play(Begin(now), steps), Noted(now, steps);
            g.users == r.held && g.sched.now == r.clock && g.released == r.released
  {
    RecordsAgree(Begin(now), steps);
  }

  /** Whatever happens between a deferred stop leaving the queue and its body: guards held means started
      with nothing to stop, a pending stop means no guards and still started, neither means stopped. */
  lemma GuardsMatchTheStream(now: int, steps: seq<Step>)
    requires SafeRun(Begin(now), steps)
    ensures var g, held := Play(Begin(now), steps), Noted(now, steps).held;
            && (held > 0 ==> g.started && g.slot.None?)
            && (g.slot.Some? ==> held == 0 && g.started)
            && (held == 0 && g.slot.None? ==> !g.started)
  {
    PlayKeeps(Begin(now), steps);
    EveryGuardCounts(now, steps);
  }

  ghost predicate AlwaysConsistent(g: Stream, steps: seq<Step>)
    decreases |steps|
  {
    Consistent(g) && (steps == [] || AlwaysConsistent(Apply(g, steps[0]), steps[1..]))
  }

  lemma {:induction false} ConsistentIffSafe(g: Stream, steps: seq<Step>)
    requires Good(g)
    ensures AlwaysConsistent(g, steps) <==> SafeRun(g, steps)
    decreases |steps|
  {
    if steps != [] && Safe(g, steps[0]) {
      ApplyKeeps(g, steps[0]);
      ConsistentIffSafe(Apply(g, steps[0]), steps[1..]);
    } else if steps != [] {
      assert !Consistent(Apply(g, steps[0]));
    }
  }

  /** Over every run, every state matches the guards exactly when each recreation of the driver finds no stop
      pending. */
  lemma RecreateIsSafeIff(now: int, steps: seq<Step>)
    ensures AlwaysConsistent(Begin(now), steps) <==> SafeRun(Begin(now), steps)
  {
    ConsistentIffSafe(Begin(now), steps);
  }

  /** With a stop pending, the next guard after a recreation is handed a stream that was never started. */
  lemma RecreateThenAcquireIsSilent(now: int, steps: seq<Step>)
    requires SafeRun(Begin(now), steps) && Play(Begin(now), steps).slot.Some?
    ensures var g := Apply(Apply(Play(Begin(now), steps), RecreateDriver), Acquire); g.users == 1 && !g.started
  {
    PlayKeeps(Begin(now), steps);
  }

  // ---- Stops that have lost their slot ---------------------------------------------------------

  /** A stop task that will still run its body. */
  ghost predicate Outstanding(g: Stream, task: nat) {
    g.firing == Some(task) || (task in g.ours && task !in g.sched.cancelled && HasEntry(g.sched, task))
  }

  ghost predicate Stray(g: Stream, task: nat) {
    Outstanding(g, task) && g.slot != Some(task)
  }

  /** The stray stop starts before the one in the slot, because it was scheduled before. */
  ghost predicate StraysGoFirst(g: Stream) {
    g.slot.Some? ==>
      forall a, b :: a in Alive(g.sched) && b in Alive(g.sched) && Of(b, g.slot.value)
                     && a.work.Entry? && Stray(g, a.work.task) ==>
                       SchedulerRuns.Before(a, b) && Ahead(g.sched, a, b)
  }

  /** At most one stop is stray; it acts for the last release whenever it can act at all while the slot is empty. */
  ghost predicate FewStrays(g: Stream) {
    && (forall t: nat, u: nat :: Stray(g, t) && Stray(g, u) ==> t == u)
    && (g.firing.Some? && g.slot == g.firing ==> forall t: nat :: !Stray(g, t))
    && (g.firing.Some? ==> !HasEntry(g.sched, g.firing.value))
    && (g.slot.None? && g.users == 0 ==>
          forall t: nat :: Stray(g, t) && t < |g.sched.tasks| ==> g.sched.tasks[t].origin == g.released + LINGER)
    && (forall t :: t in g.ours && t < |g.sched.tasks| ==> g.sched.tasks[t].origin <= g.sched.now + LINGER)
  }

  ghost predicate Orderly(g: Stream) {
    FewStrays(g) && StraysGoFirst(g)
  }

  /** Entries of our tasks are only ever added by a release. */
  lemma OursComesFrom(g: Stream, e: Event, a: Job)
    requires Inv(g.sched) && Wired(g) && a in Alive(Next(g.sched, e)) && a.work.Entry? && a.work.task in g.ours
    ensures a in Alive(g.sched)
  {
    assert Known(g, a.work.task);
    AliveNext(g.sched, e);
  }

  /** An entry of one of our tasks is queued, since our functions never run on. */
  lemma OursIsQueued(g: Stream, a: Job)
    requires Inv(g.sched) && Wired(g) && a in Alive(g.sched) && a.work.Entry? && a.work.task in g.ours
    ensures a in Waiting(g.sched.jobs) + Items(g.sched.batch) && a.due == g.sched.tasks[a.work.task].origin
    ensures a.id < |g.sched.submitted| && a !in Launched(g.sched.launches)
  {
    assert Known(g, a.work.task);
    assert a in Items(g.sched.submitted);
    var i :| 0 <= i < |g.sched.submitted| && g.sched.submitted[i] == a;
    assert OnGrid(g.sched, g.sched.submitted[i]);
  }

  lemma ReleaseStrays(g: Stream, t: nat)
    requires Good(g) && g.users == 1 && Stray(Drop(g), t)
    ensures Stray(g, t) && t in g.ours
  {
    assert g.slot.None?;
    if g.firing != Some(t) {
      assert t != |g.sched.tasks| && t in g.ours && Known(g, t);
      EntryComesFrom(g.sched, ScheduleAt(g.sched.now + LINGER), t);
    }
  }

  function NewJob(s: State, due: int): Job {
    Job(|s.submitted|, due, Entry(|s.tasks|, 0))
  }

  /** A task scheduled now goes behind every queued job that is due no later. */
  lemma NewestGoesLast(s: State, due: int, a: Job)
    requires Inv(s) && a in Waiting(s.jobs) + Items(s.batch) && a.due <= due && a.id < |s.submitted|
    ensures SchedulerRuns.Before(a, NewJob(s, due)) && Ahead(Next(s, ScheduleAt(due)), a, NewJob(s, due))
  {
    var job, n := NewJob(s, due), Next(s, ScheduleAt(due));
    WaitingAfterPush(s.jobs, job);
    assert n.launches == s.launches && Waiting(n.jobs) == Waiting(s.jobs) + {job} && n.batch == s.batch;
    assert job !in Items(s.submitted);
    assert StartsFirst(n.launches, a, job) by {
      assert forall m :: 0 <= m < |s.launches| ==> s.launches[m].job in Launched(s.launches);
    }
  }

  /** A task scheduled now has only the entry that was just added. */
  lemma NewestIsAlone(s: State, due: int, b: Job)
    requires Inv(s) && b in Alive(Next(s, ScheduleAt(due))) && Of(b, |s.tasks|)
    ensures b == NewJob(s, due)
  {
    forall c | c in Alive(s) ensures !Of(c, |s.tasks|) {
      assert c in Items(s.submitted);
      var i :| 0 <= i < |s.submitted| && s.submitted[i] == c;
      assert OnGrid(s, s.submitted[i]);
    }
    AliveNext(s, ScheduleAt(due));
  }

  /** A queued stop of ours goes before one that is scheduled now. */
  lemma QueuedGoesFirst(g: Stream, due: int, a: Job, b: Job)
    requires Inv(g.sched) && Wired(g) && a.work.Entry? && a.work.task in g.ours
    requires a.work.task < |g.sched.tasks| ==> g.sched.tasks[a.work.task].origin <= due
    requires a in Alive(Next(g.sched, ScheduleAt(due)))
    requires b in Alive(Next(g.sched, ScheduleAt(due))) && Of(b, |g.sched.tasks|)
    ensures SchedulerRuns.Before(a, b) && Ahead(Next(g.sched, ScheduleAt(due)), a, b)
  {
    OursComesFrom(g, ScheduleAt(due), a);
    OursIsQueued(g, a);
    NewestIsAlone(g.sched, due, b);
    NewestGoesLast(g.sched, due, a);
  }

  lemma ReleaseGoesLast(g: Stream, n: Stream)
    requires Inv(g.sched) && Wired(g) && n.slot == Some(|g.sched.tasks|)
    requires n.sched == Next(g.sched, ScheduleAt(g.sched.now + LINGER))
    requires forall t: nat :: Stray(n, t) ==> t in g.ours
    requires forall t :: t in g.ours && t < |g.sched.tasks| ==> g.sched.tasks[t].origin <= g.sched.now + LINGER
    ensures StraysGoFirst(n)
  {
    forall a, b | a in Alive(n.sched) && b in Alive(n.sched) && Of(b, n.slot.value)
                  && a.work.Entry? && Stray(n, a.work.task)
      ensures SchedulerRuns.Before(a, b) && Ahead(n.sched, a, b)
    {
      QueuedGoesFirst(g, g.sched.now + LINGER, a, b);
    }
  }

  lemma ReleaseFewStrays(g: Stream, n: Stream, due: int)
    requires Shelved(g.sched) && FewStrays(g) && (forall t :: t in g.ours ==> Known(g, t))
    requires g.firing.Some? ==> g.firing.value in g.ours
    requires n.sched == Next(g.sched, ScheduleAt(due)) && due == g.sched.now + LINGER
    requires n.slot == Some(|g.sched.tasks|) && n.firing == g.firing && n.ours == g.ours + {|g.sched.tasks|}
    requires forall t: nat :: Stray(n, t) ==> Stray(g, t)
    ensures FewStrays(n)
  {
    if g.firing.Some? {
      assert Known(g, g.firing.value);
      EntryComesFrom(g.sched, ScheduleAt(due), g.firing.value);
    }
    assert n.sched.tasks == g.sched.tasks + [TaskInfo(due, 0, false)] && n.sched.now == g.sched.now;
  }

  lemma ReleaseOrderly(g: Stream)
    requires Good(g) && Orderly(g) && g.users == 1
    ensures Orderly(Drop(g))
  {
    var n := Drop(g);
    forall t: nat | Stray(n, t) ensures Stray(g, t) && t in g.ours { ReleaseStrays(g, t); }
    ReleaseFewStrays(g, n, g.sched.now + LINGER);
    ReleaseGoesLast(g, n);
  }

  lemma SameStrays(g: Stream, n: Stream)
    requires Orderly(g) && n.users > 0
    requires n.sched == g.sched && n.firing == g.firing && n.slot == g.slot && n.ours == g.ours
    ensures Orderly(n)
  {
    assert forall t: nat :: Stray(n, t) <==> Stray(g, t);
  }

  lemma ReclaimOrderly(g: Stream)
    requires Good(g) && Orderly(g) && g.users == 0 && g.slot.Some?
    ensures Orderly(Take(g))
  {
    var n := Take(g);
    assert Alive(n.sched) == Alive(g.sched);
    forall t: nat | Stray(n, t) ensures Stray(g, t) || (g.firing == g.slot == Some(t)) {}
  }

  lemma AcquireOrderly(g: Stream)
    requires Good(g) && Orderly(g)
    ensures Orderly(Take(g))
  {
    if g.users == 0 && g.slot.Some? {
      ReclaimOrderly(g);
    } else {
      SameStrays(g, Take(g));
    }
  }

  /** After a body only the stop that was in the slot can be stray. */
  lemma BodyStrays(g: Stream, t: nat)
    requires Good(g) && Orderly(g) && g.firing.Some? && Stray(RunBody(g), t)
    ensures t in g.ours && t != g.firing.value && Outstanding(g, t)
    ensures g.users == 0 ==> g.slot == Some(t)
  {
    assert HasEntry(g.sched, t);
    if g.users == 0 && g.slot != Some(t) {
      assert Stray(g, t);
      assert g.slot != g.firing;
      assert Stray(g, g.firing.value);
    }
  }

  lemma BodyOrderly(g: Stream)
    requires Good(g) && Orderly(g) && g.firing.Some?
    ensures Orderly(RunBody(g))
  {
    var n := RunBody(g);
    forall t: nat | Stray(n, t)
      ensures g.users == 0 ==> g.slot == Some(t)
      ensures g.users > 0 ==> Stray(g, t)
    {
      BodyStrays(g, t);
    }
  }

  lemma SchedStrays(g: Stream, e: Event, t: nat)
    requires Good(g) && !Blocked(g, e) && Stray(Apply(g, Sched(e)), t)
    ensures Stray(g, t) && t in g.ours
  {
    var n := Apply(g, Sched(e));
    assert n.sched == Next(g.sched, e) && n.slot == g.slot && n.ours == g.ours;
    if Launches(g, e) && g.sched.batch[0].work.task == t {
      assert g.sched.batch[0] in Items(g.sched.batch) && g.sched.batch[0] in Alive(g.sched);
    } else if g.firing != Some(t) {
      assert Known(g, t);
      EntryComesFrom(g.sched, e, t);
      CancelledStays(g.sched, e);
    }
  }

  lemma CancelledStays(s: State, e: Event)
    ensures s.cancelled <= Next(s, e).cancelled
  {
  }

  lemma StartedFirst(s: State, n: State, a: Job, b: Job)
    requires CanStart(s) && n == Next(s, StartNext) && s.batch[0] == b && StartsFirst(n.launches, a, b)
    ensures a in Launched(s.launches)
  {
    var m := |s.launches|;
    assert n.launches[m].job == b && n.launches[..m] == s.launches;
  }

  /** When the stop in the slot leaves the queue no stray is left, by the scheduler's order of starts. */
  lemma SlotLaunchesLast(g: Stream, t: nat)
    requires Good(g) && Orderly(g) && !Blocked(g, StartNext) && Launches(g, StartNext)
    requires g.slot == Some(g.sched.batch[0].work.task)
    ensures !Stray(Apply(g, Sched(StartNext)), t)
  {
    var n, b := Apply(g, Sched(StartNext)), g.sched.batch[0];
    if Stray(n, t) {
      SchedStrays(g, StartNext, t);
      var a :| a in Alive(n.sched) && Of(a, t);
      OursComesFrom(g, StartNext, a);
      OursIsQueued(g, a);
      assert b in Items(g.sched.batch) && b in Alive(g.sched);
      AheadStep(g.sched, StartNext, a, b);
      StartedFirst(g.sched, n.sched, a, b);
    }
  }

  lemma SchedFewStrays(g: Stream, e: Event)
    requires Good(g) && Orderly(g) && !Blocked(g, e)
    ensures FewStrays(Apply(g, Sched(e)))
  {
    var n := Apply(g, Sched(e));
    TasksStay(g.sched, e);
    forall t: nat | Stray(n, t) ensures Stray(g, t) && t in g.ours { SchedStrays(g, e, t); }
    if Launches(g, e) {
      var job := g.sched.batch[0];
      assert Known(g, job.work.task);
      LaunchConsumesEntry(g.sched, job.work.task);
      if g.slot == Some(job.work.task) {
        forall t: nat ensures !Stray(n, t) { SlotLaunchesLast(g, t); }
      }
    } else if g.firing.Some? {
      assert Known(g, g.firing.value);
      EntryComesFrom(g.sched, e, g.firing.value);
    }
    assert forall t :: t in g.ours ==> Known(g, t);
  }

  lemma SchedStraysGoFirst(g: Stream, e: Event)
    requires Good(g) && Orderly(g) && !Blocked(g, e)
    ensures StraysGoFirst(Apply(g, Sched(e)))
  {
    var n := Apply(g, Sched(e));
    assert n.sched == Next(g.sched, e) && n.slot == g.slot && n.ours == g.ours;
    if n.slot.Some? {
      forall a, b | a in Alive(n.sched) && b in Alive(n.sched) && Of(b, n.slot.value)
                    && a.work.Entry? && Stray(n, a.work.task)
        ensures SchedulerRuns.Before(a, b) && Ahead(n.sched, a, b)
      {
        SchedStrays(g, e, a.work.task);
        OursComesFrom(g, e, a);
        OursComesFrom(g, e, b);
        AheadStep(g.sched, e, a, b);
      }
    }
  }

  lemma OrderlyStep(g: Stream, step: Step)
    requires Good(g) && Orderly(g) && Safe(g, step)
    ensures Orderly(Apply(g, step))
  {
    match step
    case Acquire => AcquireOrderly(g);
    case Release =>
      if g.users == 1 { ReleaseOrderly(g); }
      else if g.users > 1 { SameStrays(g, Drop(g)); }
    case Body => if g.firing.Some? { BodyOrderly(g); }
    case Sched(e) =>
      if !Blocked(g, e) {
        SchedFewStrays(g, e);
        SchedStraysGoFirst(g, e);
      }
    case RecreateDriver => RecreateChangesNothing(g);
  }

  lemma {:induction false} OrderlyRun(g: Stream, steps: seq<Step>)
    requires Good(g) && Orderly(g) && SafeRun(g, steps)
    ensures Good(Play(g, steps)) && Orderly(Play(g, steps))
    decreases |steps|
  {
    if steps != [] {
      ApplyKeeps(g, steps[0]);
      OrderlyStep(g, steps[0]);
      OrderlyRun(Apply(g, steps[0]), steps[1..]);
    }
  }

  // ---- When stops are on time --------------------------------------------------------------------

  /** What can be seen before the body runs: the slot is empty, or its own task is due. */
  ghost predicate SlotIsDue(g: Stream) {
    g.slot.Some? && g.slot.value < |g.sched.tasks| ==> g.sched.tasks[g.slot.value].origin <= g.sched.now
  }

  lemma OnTime(g: Stream)
    requires Good(g) && Orderly(g) && g.firing.Some? && g.users == 0
    ensures g.released + LINGER <= g.sched.now <==> SlotIsDue(g)
    ensures g.started <==> g.slot.Some?
  {
    var f := g.firing.value;
    assert Known(g, f);
    if g.slot.None? { assert Stray(g, f); }
    else { assert Known(g, g.slot.value); }
  }

  /** However guards and stops interleave, a body that stops the stream does so at least 750 ms after the last release
      if and only if the slot is empty or its task is due, and stops a stream that is started if and only if the slot
      is occupied. */
  lemma StopIsOnTimeIff(now: int, steps: seq<Step>)
    requires SafeRun(Begin(now), steps)
    requires Play(Begin(now), steps).firing.Some? && Noted(now, steps).held == 0
    ensures var g, r := Play(Begin(now), steps), Noted(now, steps);
            && (r.released + 750 <= r.clock <==> SlotIsDue(g))
            && (g.started <==> g.slot.Some?)
  {
    EveryGuardCounts(now, steps);
    OrderlyRun(Begin(now), steps);
    OnTime(Play(Begin(now), steps));
  }

  predicate Alternating(log: seq<DeviceOp>) {
    forall i :: 0 <= i < |log| ==> (log[i].Started? <==> i % 2 == 0)
  }

  predicate Patient(log: seq<DeviceOp>) {
    forall i :: 0 <= i < |log| && log[i].Stopped? ==> log[i].at >= log[i].released + LINGER
  }

  predicate Stops(g: Stream, step: Step) {
    step.Body? && g.firing.Some? && g.users == 0
  }

  /** Every stop of the run finds the slot empty or due. */
  ghost predicate Punctual(g: Stream, steps: seq<Step>)
    decreases |steps|
  {
    steps == [] || ((Stops(g, steps[0]) ==> SlotIsDue(g)) && Punctual(Apply(g, steps[0]), steps[1..]))
  }

  /** Every stop of the run finds the slot occupied. */
  ghost predicate Paired(g: Stream, steps: seq<Step>)
    decreases |steps|
  {
    steps == [] || ((Stops(g, steps[0]) ==> g.slot.Some?) && Paired(Apply(g, steps[0]), steps[1..]))
  }

  ghost predicate Tracked(g: Stream) {
    Alternating(g.log) ==> (g.started <==> |g.log| % 2 == 1)
  }

  lemma AppendLog(log: seq<DeviceOp>, op: DeviceOp)
    ensures Alternating(log + [op]) <==> Alternating(log) && (op.Started? <==> |log| % 2 == 0)
    ensures Patient(log + [op]) <==> Patient(log) && (op.Stopped? ==> op.at >= op.released + LINGER)
  {
    var more := log + [op];
    assert more[|log|] == op;
    assert forall i :: 0 <= i < |log| ==> more[i] == log[i];
  }

  lemma LogStep(g: Stream, step: Step)
    requires Good(g) && Orderly(g) && Tracked(g) && Safe(g, step)
    ensures var n := Apply(g, step);
            && Tracked(n)
            && (Patient(n.log) <==> Patient(g.log) && (Stops(g, step) ==> SlotIsDue(g)))
            && (Alternating(n.log) <==> Alternating(g.log) && (Stops(g, step) ==> g.slot.Some?))
  {
    if Stops(g, step) {
      OnTime(g);
      AppendLog(g.log, Stopped(g.sched.now, g.released));
    } else if step.Acquire? && g.users == 0 && g.slot.None? {
      AppendLog(g.log, Started(g.sched.now));
    } else {
      if step.RecreateDriver? { RecreateChangesNothing(g); }
      assert Apply(g, step).log == g.log && Apply(g, step).started == g.started;
    }
  }

  lemma {:induction false} LogRun(g: Stream, steps: seq<Step>)
    requires Good(g) && Orderly(g) && Tracked(g) && SafeRun(g, steps)
    ensures var log := Play(g, steps).log;
            && (Patient(log) <==> Patient(g.log) && Punctual(g, steps))
            && (Alternating(log) <==> Alternating(g.log) && Paired(g, steps))
    decreases |steps|
  {
    if steps != [] {
      ApplyKeeps(g, steps[0]);
      OrderlyStep(g, steps[0]);
      LogStep(g, steps[0]);
      LogRun(Apply(g, steps[0]), steps[1..]);
    }
  }

  /** Over whole runs: every stop comes at least 750 ms after the last release if and only if each finds the slot empty
      or due; starts and stops alternate if and only if each finds it occupied. */
  lemma StopsAreDeferredIff(now: int, steps: seq<Step>)
    requires SafeRun(Begin(now), steps)
    ensures Patient(Play(Begin(now), steps).log) <==> Punctual(Begin(now), steps)
    ensures Alternating(Play(Begin(now), steps).log) <==> Paired(Begin(now), steps)
  {
    LogRun(Begin(now), steps);
  }

  /** The scheduler goes its own way, except that the worker is busy while a stop waits for the lock, and that only
      guards cancel stops. */
  lemma SchedulerGoesOn(g: Stream, e: Event)
    ensures var n := Apply(g, Sched(e));
            if (g.firing.Some? && (e.StartNext? || e.Poll? || e.Start?))
               || (exists t :: t in g.ours && (e == Cancel(t) || e == Reset(t)))
            then n == g else n.sched == Next(g.sched, e) && n.slot == g.slot && n.started == g.started
  {
  }

  /** A stop waits for the lock exactly when the worker has started one that is not cancelled. */
  lemma StopWaitsIff(now: int, steps: seq<Step>, e: Event)
    requires SafeRun(Begin(now), steps)
    ensures var g, n := Play(Begin(now), steps), Apply(Play(Begin(now), steps), Sched(e));
            n.firing.Some? <==>
              || g.firing.Some?
              || (e.StartNext? && g.sched.batch != [] && g.sched.current.Idle?
                  && exists t :: t in g.ours && Of(g.sched.batch[0], t) && t !in g.sched.cancelled)
  {
    var g := Play(Begin(now), steps);
    PlayKeeps(Begin(now), steps);
    if g.sched.batch != [] && g.sched.batch[0].work.Entry? {
      var t := g.sched.batch[0].work.task;
      assert t in g.ours && t !in g.sched.cancelled ==> Of(g.sched.batch[0], t) && Live(g.sched, g.sched.batch[0].work);
    }
  }

  // ---- A pending stop comes --------------------------------------------------------------------------

  ghost predicate Waits(g: Stream) {
    g.slot.Some? ==> Outstanding(g, g.slot.value) && g.slot.value !in g.sched.cancelled
  }

  lemma SchedWaits(g: Stream, e: Event)
    requires Good(g) && Waits(g) && !Blocked(g, e) && !e.Stop? && g.slot.Some? && g.firing != g.slot
    ensures Waits(Apply(g, Sched(e)))
  {
    var n, t := Apply(g, Sched(e)), g.slot.value;
    assert Known(g, t);
    NotCancelled(g.sched, e, t);
    var a :| a in Alive(g.sched) && Of(a, t);
    OursIsQueued(g, a);
    if e.StartNext? && CanStart(g.sched) && g.sched.batch[0] == a {
      assert Launches(g, e);
    } else {
      AliveStays(g.sched, e, a);
      assert a in Alive(n.sched) && Of(a, t);
    }
  }

  lemma NotCancelled(s: State, e: Event, t: nat)
    requires Flags(s) && t < |s.tasks| && !s.tasks[t].repeated && t !in s.cancelled && e != Cancel(t)
    ensures t !in Next(s, e).cancelled
  {
  }

  lemma ReleaseWaits(g: Stream)
    requires Good(g) && g.users == 1
    ensures Waits(Drop(g))
  {
    var due := g.sched.now + LINGER;
    WaitingAfterPush(g.sched.jobs, NewJob(g.sched, due));
    assert NewJob(g.sched, due) in Alive(Drop(g).sched) && Of(NewJob(g.sched, due), |g.sched.tasks|);
    assert |g.sched.tasks| !in g.sched.cancelled;
  }

  lemma WaitsStep(g: Stream, step: Step)
    requires Good(g) && Waits(g) && Safe(g, step) && step != Sched(Stop)
    ensures Waits(Apply(g, step))
  {
    match step
    case Release => if g.users == 1 { ReleaseWaits(g); }
    case Sched(e) =>
      if !Blocked(g, e) && g.slot.Some? {
        assert Known(g, g.slot.value);
        NotCancelled(g.sched, e, g.slot.value);
        if g.firing != g.slot { SchedWaits(g, e); }
      }
    case _ =>
  }

  lemma {:induction false} WaitsRun(g: Stream, steps: seq<Step>)
    requires Good(g) && Waits(g) && SafeRun(g, steps) && Sched(Stop) !in steps
    ensures Good(Play(g, steps)) && Waits(Play(g, steps))
    decreases |steps|
  {
    if steps != [] {
      ApplyKeeps(g, steps[0]);
      WaitsStep(g, steps[0]);
      WaitsRun(Apply(g, steps[0]), steps[1..]);
    }
  }

  /** While the scheduler is not stopped, a pending stop is queued or waits for the lock; once its entry is the
      worker's next job, starting it and running its body stops the stream. */
  lemma PendingStopComes(now: int, steps: seq<Step>)
    requires SafeRun(Begin(now), steps) && Sched(Stop) !in steps && Play(Begin(now), steps).slot.Some?
    ensures var g := Play(Begin(now), steps);
            && (g.firing == g.slot || HasEntry(g.sched, g.slot.value))
            && (g.firing.None? && g.sched.batch != [] && g.sched.current.Idle? && Of(g.sched.batch[0], g.slot.value) ==>
                  var n := Apply(Apply(g, Sched(StartNext)), Body);
                  !n.started && n.slot.None? && n.firing.None? && n.log == g.log + [Stopped(g.sched.now, g.released)])
  {
    WaitsRun(Begin(now), steps);
    var g := Play(Begin(now), steps);
    if g.sched.batch != [] && g.sched.current.Idle? && Of(g.sched.batch[0], g.slot.value) {
      assert Launches(g, StartNext) by { assert Live(g.sched, g.sched.batch[0].work); }
    }
  }

  // ---- Atomic firing -------------------------------------------------------------------------------

  /** Nothing happens between a stop leaving the queue and its body. */
  ghost predicate Atomic(g: Stream, steps: seq<Step>)
    decreases |steps|
  {
    steps == [] || ((g.firing.Some? ==> steps[0].Body?) && Atomic(Apply(g, steps[0]), steps[1..]))
  }

  ghost predicate Calm(g: Stream) {
    forall t: nat :: !Stray(g, t)
  }

  lemma CalmStep(g: Stream, step: Step)
    requires Good(g) && Orderly(g) && Calm(g) && Safe(g, step)
    requires g.firing.Some? ==> step.Body?
    ensures Calm(Apply(g, step))
  {
    var n := Apply(g, step);
    forall t: nat | Stray(n, t) ensures Stray(g, t) {
      match step
      case Acquire => assert Alive(n.sched) == Alive(g.sched);
      case Release => if g.users == 1 { ReleaseStrays(g, t); }
      case Body => if g.firing.Some? { assert !Stray(g, g.firing.value); BodyStrays(g, t); }
      case Sched(e) => if !Blocked(g, e) { SchedStrays(g, e, t); }
      case RecreateDriver => RecreateChangesNothing(g);
    }
  }

  lemma {:induction false} AtomicRun(g: Stream, steps: seq<Step>)
    requires Good(g) && Orderly(g) && Calm(g) && SafeRun(g, steps) && Atomic(g, steps)
    ensures Punctual(g, steps) && Paired(g, steps)
    decreases |steps|
  {
    if steps != [] {
      ApplyKeeps(g, steps[0]);
      OrderlyStep(g, steps[0]);
      CalmStep(g, steps[0]);
      if Stops(g, steps[0]) { assert !Stray(g, g.firing.value); }
      AtomicRun(Apply(g, steps[0]), steps[1..]);
    }
  }

  /** With atomic firing the device is started and stopped in strict alternation, and every stop comes at
      least 750 ms after the release that asked for it, which is the last one. */
  lemma StopsAreDeferred(now: int, steps: seq<Step>)
    requires SafeRun(Begin(now), steps) && Atomic(Begin(now), steps)
    ensures Alternating(Play(Begin(now), steps).log) && Patient(Play(Begin(now), steps).log)
  {
    AtomicRun(Begin(now), steps);
    LogRun(Begin(now), steps);
  }

  const RACED := [Sched(StartNext), Acquire, Release, Body] + []
  const AGAIN := [Sched(Tick(1500)), Sched(Poll), Sched(StartNext), Body] + []

  /** A guard taken and released while a stop waits for the lock is stopped at once, without its linger, and its own
      stop, which has lost the slot, stops the stream a second time. */
  lemma RacedStopIsEarly()
    ensures var raced := Play(Begin(0), [Acquire, Release, Sched(Tick(750)), Sched(Poll)] + RACED);
            && raced.log == [Started(0), Stopped(750, 750)]
            && Play(raced, AGAIN).log == [Started(0), Stopped(750, 750), Stopped(1500, 750)]
  {
    PlayFour(Begin(0), Acquire, Release, Sched(Tick(750)), Sched(Poll), RACED);
    var g := QueuedStop();
    PlayFour(g, Sched(StartNext), Acquire, Release, Body, []);
    var raced := Races(g);
    PlayFour(raced, Sched(Tick(1500)), Sched(Poll), Sched(StartNext), Body, []);
    StopsAgain(raced);
  }

  /** The stop of the second release is queued and in no slot. */
  ghost predicate Orphaned(g: Stream) {
    && g.users == 0 && g.slot == None && g.firing == None && g.released == 750 && g.ours == {0, 1}
    && g.log == [Started(0), Stopped(750, 750)] && g.sched.now == 750 && g.sched.running
    && g.sched.jobs == map[1500 := [Job(1, 1500, Entry(1, 0))]] && g.sched.batch == [] && g.sched.current.Idle?
    && g.sched.cancelled == {0} && g.sched.emptied == {} && |g.sched.tasks| == 2 && !g.sched.tasks[1].repeated
  }

  ghost predicate Queued(g: Stream) {
    && g.users == 0 && g.slot == Some(0) && g.firing == None && g.started && g.log == [Started(0)]
    && g.sched.batch == [Job(0, 750, Entry(0, 0))] && g.sched.current.Idle? && g.sched.now == 750
    && g.sched.cancelled == {} && g.sched.emptied == {} && g.ours == {0} && g.sched.jobs == map[]
    && g.sched.tasks == [TaskInfo(750, 0, false)] && |g.sched.submitted| == 1 && g.sched.running
  }

  lemma Races(g: Stream) returns (raced: Stream)
    requires Queued(g)
    ensures raced == Apply(Apply(Apply(Apply(g, Sched(StartNext)), Acquire), Release), Body)
    ensures Orphaned(raced)
  {
    var g1 := Apply(g, Sched(StartNext));
    assert g1.firing == Some(0) && g1.slot == Some(0) && g1.users == 0 && g1.sched.batch == [];
    var g2 := Apply(g1, Acquire);
    assert g2.slot == None && g2.users == 1 && g2.sched.cancelled == {0};
    var g3 := Apply(g2, Release);
    var job := Job(1, 1500, Entry(1, 0));
    assert g3.sched.jobs == map[1500 := [job]] by { assert [] + [job] == [job]; }
    raced := Apply(g3, Body);
  }

  lemma StopsAgain(g: Stream)
    requires Orphaned(g)
    ensures Apply(Apply(Apply(Apply(g, Sched(Tick(1500))), Sched(Poll)), Sched(StartNext)), Body).log
         == [Started(0), Stopped(750, 750), Stopped(1500, 750)]
  {
    var g1 := Apply(g, Sched(Tick(1500)));
    assert 1500 in g1.sched.jobs.Keys;
    assert Earliest(g1.sched.jobs.Keys) == 1500;
    var g2 := Apply(g1, Sched(Poll));
    assert g2.sched.batch == [Job(1, 1500, Entry(1, 0))];
    var g3 := Apply(g2, Sched(StartNext));
    assert g3.firing == Some(1) && g3.sched.now == 1500;
  }

  lemma QueuedStop() returns (g: Stream)
    ensures g == Apply(Apply(Apply(Apply(Begin(0), Acquire), Release), Sched(Tick(750))), Sched(Poll))
    ensures Queued(g)
  {
    var job := Job(0, 750, Entry(0, 0));
    var held := Apply(Begin(0), Acquire);
    var idle := Apply(held, Release);
    assert idle.sched.jobs == map[750 := [job]] by { assert [] + [job] == [job]; }
    var due := Apply(idle, Sched(Tick(750)));
    assert 750 in due.sched.jobs.Keys;
    assert Earliest(due.sched.jobs.Keys) == 750;
    g := Apply(due, Sched(Poll));
  }

  lemma PlayFour(g: Stream, a: Step, b: Step, c: Step, d: Step, rest: seq<Step>)
    ensures Play(g, [a, b, c, d] + rest) == Play(Apply(Apply(Apply(Apply(g, a), b), c), d), rest)
  {
    PlayOne(g, a, [b, c, d] + rest);
    PlayOne(Apply(g, a), b, [c, d] + rest);
    PlayOne(Apply(Apply(g, a), b), c, [d] + rest);
    PlayOne(Apply(Apply(Apply(g, a), b), c), d, rest);
    assert [a, b, c, d] + rest == [a] + ([b, c, d] + rest);
    assert [b, c, d] + rest == [b] + ([c, d] + rest) && [c, d] + rest == [c] + ([d] + rest);
  }

  lemma PlayOne(g: Stream, a: Step, rest: seq<Step>)
    ensures Play(g, [a] + rest) == Play(Apply(g, a), rest)
  {
    assert ([a] + rest)[1..] == rest;
  }

  // ---- The object ----------------------------------------------------------------------------

  /** The stop body waiting for the lock, and the history, are ghost. */
  class Device {
    const executor: Executor
    var users: nat
    var slot: Option<nat>
    var started: bool
    ghost var firing: Option<nat>
    ghost var released: int
    ghost var ours: set<nat>
    ghost var log: seq<DeviceOp>

    ghost function Model(): Stream
      reads this, executor
    {
      Stream(executor.Model(), users, slot, firing, started, released, ours, log)
    }

    ghost predicate Valid()
      reads this, executor
    {
      Good(Model()) && Orderly(Model())
    }

    constructor (executor: Executor, now: int)
      requires executor.Model() == Scheduler.Init(now)
      ensures Model() == Begin(now) && this.executor == executor && Valid()
    {
      this.executor := executor;
      users, slot, firing, started := 0, None, None, false;
      released, ours, log := now, {}, [];
    }

    method AcquireGuard()
      requires Valid()
      modifies this, executor
      ensures Model() == Apply(old(Model()), Acquire) && Valid()
    {
      ApplyKeeps(Model(), Acquire);
      OrderlyStep(Model(), Acquire);
      users := users + 1;
      if users == 1 {
        if slot.Some? {
          executor.CancelTask(slot.value);
          slot := None;
        } else {
          started := true;
          log := log + [Started(executor.clock)];
        }
      }
    }

    method ReleaseGuard()
      requires Valid() && users > 0
      modifies this, executor
      ensures Model() == Apply(old(Model()), Release) && Valid()
    {
      ApplyKeeps(Model(), Release);
      OrderlyStep(Model(), Release);
      users := users - 1;
      if users != 0 {
        return;
      }
      released := executor.clock;
      var task := executor.ScheduleIn(executor.clock, LINGER);
      slot := Some(task);
      ours := ours + {task};
    }

    /** initAudioDriver: the new driver starts the streams that are in use. */
    method RecreateAudioDriver()
      requires Valid()
      modifies this`started
      ensures Model() == Apply(old(Model()), RecreateDriver)
      ensures slot.None? ==> Valid()
    {
      if slot.None? { RecreateChangesNothing(Model()); }
      started := users > 0;
    }

    method StopBody()
      requires Valid() && firing.Some?
      modifies this
      ensures Model() == Apply(old(Model()), Body) && Valid()
    {
      ApplyKeeps(Model(), Body);
      OrderlyStep(Model(), Body);
      firing := None;
      slot := None;
      if users != 0 {
        return;
      }
      started := false;
      log := log + [Stopped(executor.clock, released)];
    }
  }
}
