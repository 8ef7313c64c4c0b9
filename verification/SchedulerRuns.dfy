/** What the scheduler promises over whole runs: conservation, order, punctuality,
    fixed-rate entries, cancellation and containment of exceptions. */
module SchedulerRuns {
  import opened Scheduler

  // ---- Conservation ------------------------------------------------------------------------

  function Jobs(ls: seq<Launch>): seq<Job> {
    seq(|ls|, i requires 0 <= i < |ls| => ls[i].job)
  }

  /** How many times a job occurs anywhere: its bucket, the popped batch, the history, the drops. */
  ghost function Occurrences(s: State, job: Job): nat {
    multiset(Bucket(s.jobs, job.due))[job] + multiset(s.batch)[job] + multiset(Jobs(s.launches))[job]
    + (if job in s.dropped then 1 else 0)
  }

  lemma {:induction false} DistinctCount<T>(xs: seq<T>, x: T)
    requires forall i, k :: 0 <= i < k < |xs| ==> xs[i] != xs[k]
    ensures multiset(xs)[x] == if x in Items(xs) then 1 else 0
  {
    if xs != [] {
      var rest := xs[1..];
      DistinctCount(rest, x);
      assert xs == [xs[0]] + rest;
      assert multiset(xs) == multiset{xs[0]} + multiset(rest);
      assert x in Items(xs) <==> x == xs[0] || x in Items(rest) by {
        if x in Items(xs) && x != xs[0] {
          var i :| 0 <= i < |xs| && xs[i] == x;
          assert rest[i - 1] == x;
        }
        if x in Items(rest) {
          var i :| 0 <= i < |rest| && rest[i] == x;
          assert xs[i + 1] == x;
        }
      }
      assert forall i :: 0 <= i < |rest| ==> rest[i] == xs[i + 1];
    }
  }

  lemma BucketIsWaiting(s: State, job: Job)
    requires Shelved(s)
    ensures job in Items(Bucket(s.jobs, job.due)) <==> job in Waiting(s.jobs)
  {
    if job in Waiting(s.jobs) {
      var t, i :| t in s.jobs && 0 <= i < |s.jobs[t]| && job == s.jobs[t][i];
      assert Ordered(s.jobs[t], t, s.submitted);
    }
  }

  /** Every submitted job is in exactly one place, exactly once, after every run; nothing else is anywhere. */
  lemma Conservation(start: int, es: seq<Event>, job: Job)
    ensures var s := Run(Init(start), es);
            Occurrences(s, job) == if job in Items(s.submitted) then 1 else 0
  {
    var s := Run(Init(start), es);
    RunKeeps(Init(start), es);
    BucketIsWaiting(s, job);
    DistinctCount(Bucket(s.jobs, job.due), job);
    DistinctCount(s.batch, job);
    DistinctCount(Jobs(s.launches), job);
    assert Items(Jobs(s.launches)) == Launched(s.launches) by {
      forall j | j in Launched(s.launches) ensures j in Items(Jobs(s.launches)) {
        var i :| 0 <= i < |s.launches| && s.launches[i].job == j;
        assert Jobs(s.launches)[i] == j;
      }
    }
  }

  // ---- Punctuality -------------------------------------------------------------------------

  /** No job starts before its due time, and launches are recorded in clock order. */
  lemma NeverEarly(start: int, es: seq<Event>, i: nat)
    requires i < |Run(Init(start), es).launches|
    ensures var s := Run(Init(start), es);
            && s.launches[i].job.due <= s.launches[i].at <= s.now
            && forall k :: i < k < |s.launches| ==> s.launches[i].at <= s.launches[k].at
  {
    RunKeeps(Init(start), es);
  }

  // ---- Order -------------------------------------------------------------------------------

  predicate Before(a: Job, b: Job) {
    a.due < b.due || (a.due == b.due && a.id < b.id)
  }

  ghost predicate StartsFirst(ls: seq<Launch>, a: Job, b: Job) {
    forall m :: 0 <= m < |ls| && ls[m].job == b ==> a in Launched(ls[..m])
  }

  /** How far an earlier job a is ahead of a later job b, from the moment both were waiting. */
  ghost predicate Ahead(s: State, a: Job, b: Job) {
    && StartsFirst(s.launches, a, b)
    && (|| (a in Waiting(s.jobs) && b in Waiting(s.jobs))
        || (a in Items(s.batch) && (b in Waiting(s.jobs) || b in Items(s.batch)))
        || (a in Items(s.batch) && b in s.dropped)
        || a in Launched(s.launches)
        || (a in s.dropped && b in s.dropped))
  }

  lemma AheadAfterStart(s: State, a: Job, b: Job)
    requires Shelved(s) && Partitioned(s) && Before(a, b) && Ahead(s, a, b) && CanStart(s)
    ensures Ahead(DoStart(s), a, b)
  {
    var n, head := DoStart(s), s.batch[0];
    BatchHead(s);
    LaunchedAfterAppend(s.launches, n.launches[|s.launches|]);
    forall m | 0 <= m < |n.launches| && n.launches[m].job == b ensures a in Launched(n.launches[..m]) {
      if m < |s.launches| {
        assert n.launches[..m] == s.launches[..m];
      } else {
        assert n.launches[..m] == s.launches;
      }
    }
  }

  lemma AheadAfterPoll(s: State, a: Job, b: Job)
    requires Shelved(s) && Before(a, b) && Ahead(s, a, b) && CanPoll(s)
    ensures Ahead(DoPoll(s), a, b)
  {
    var t := Earliest(s.jobs.Keys);
    WaitingAfterPop(s.jobs, t, s.submitted);
    BucketIsWaiting(s, a);
    BucketIsWaiting(s, b);
    assert Items(s.batch) == {};
  }

  /** Only polling and stopping take jobs out of the buckets. */
  lemma WaitingGrows(s: State, e: Event)
    requires !e.Poll? && !e.Stop?
    ensures Waiting(s.jobs) <= Waiting(Next(s, e).jobs)
  {
    match e
    case RunNow => WaitingAfterPush(s.jobs, Job(|s.submitted|, s.now, Plain));
    case ScheduleAt(due) => WaitingAfterPush(s.jobs, Job(|s.submitted|, due, Entry(|s.tasks|, 0)));
    case ScheduleEvery(period) => WaitingAfterPush(s.jobs, Job(|s.submitted|, s.now, Entry(|s.tasks|, 0)));
    case Renew => if CanRenew(s) { WaitingAfterPush(s.jobs, Renewed(s)); }
    case _ =>
  }

  lemma AheadStep(s: State, e: Event, a: Job, b: Job)
    requires Shelved(s) && Partitioned(s) && Before(a, b) && Ahead(s, a, b)
    ensures Ahead(Next(s, e), a, b)
  {
    if e.Poll? {
      if CanPoll(s) { AheadAfterPoll(s, a, b); }
    } else if e.StartNext? {
      if CanStart(s) { AheadAfterStart(s, a, b); }
    } else if !e.Stop? {
      WaitingGrows(s, e);
    }
  }

  lemma {:induction false} AheadRun(s: State, es: seq<Event>, a: Job, b: Job)
    requires Inv(s) && Before(a, b) && Ahead(s, a, b)
    ensures Ahead(Run(s, es), a, b)
    decreases |es|
  {
    if es != [] {
      NextKeeps(s, es[0]);
      AheadStep(s, es[0], a, b);
      AheadRun(Next(s, es[0]), es[1..], a, b);
    }
  }

  /** Of two jobs waiting at the same moment, the one with the smaller (due, submission) key starts first:
      however the run goes on, the later one is never started unless the earlier one already was. */
  lemma OrderOfStarts(start: int, es: seq<Event>, more: seq<Event>, a: Job, b: Job, m: nat)
    requires var s := Run(Init(start), es); a in Waiting(s.jobs) && b in Waiting(s.jobs)
    requires Before(a, b)
    requires var n := Run(Run(Init(start), es), more); m < |n.launches| && n.launches[m].job == b
    ensures a in Launched(Run(Run(Init(start), es), more).launches[..m])
  {
    var s := Run(Init(start), es);
    RunKeeps(Init(start), es);
    assert StartsFirst(s.launches, a, b) by {
      assert forall m :: 0 <= m < |s.launches| ==> s.launches[m].job in Launched(s.launches);
    }
    AheadRun(s, more, a, b);
  }

  lemma BatchStep(s: State, e: Event, job: Job)
    requires Shelved(s) && job in Items(s.batch) + Launched(s.launches)
    ensures var n := Next(s, e); job in Items(n.batch) + Launched(n.launches)
  {
    if e.StartNext? && CanStart(s) {
      BatchHead(s);
      LaunchedAfterAppend(s.launches, Next(s, e).launches[|s.launches|]);
    }
    if e.Poll? && CanPoll(s) { assert Items(s.batch) == {}; }
  }

  lemma {:induction false} BatchStays(s: State, es: seq<Event>, job: Job)
    requires Inv(s) && job in Items(s.batch) + Launched(s.launches)
    ensures var n := Run(s, es); job in Items(n.batch) + Launched(n.launches)
    decreases |es|
  {
    if es != [] {
      NextKeeps(s, es[0]);
      BatchStep(s, es[0], job);
      BatchStays(Next(s, es[0]), es[1..], job);
    }
  }

  /** A job that the worker has popped is never lost to a later stop. */
  lemma PoppedIsNeverDropped(start: int, es: seq<Event>, more: seq<Event>, job: Job)
    requires job in Items(Run(Init(start), es).batch)
    ensures job !in Run(Run(Init(start), es), more).dropped
  {
    var s := Run(Init(start), es);
    RunKeeps(Init(start), es);
    RunKeeps(s, more);
    BatchStays(s, more, job);
  }

  // ---- Fixed-rate entries ------------------------------------------------------------------

  lemma {:induction false} SlotIsLinear(info: TaskInfo, index: nat)
    ensures Slot(info, index) == info.origin + index * info.period
  {
    if index > 0 {
      SlotIsLinear(info, index - 1);
      assert index * info.period == (index - 1) * info.period + info.period;
    }
  }

  /** The k-th entry a task ever queues is due exactly k periods after the first, however late earlier ones ran. */
  lemma FixedRate(start: int, es: seq<Event>, i: nat)
    requires var s := Run(Init(start), es); i < |s.submitted| && s.submitted[i].work.Entry?
    ensures var s := Run(Init(start), es);
            var Entry(task, k) := s.submitted[i].work;
            && task < |s.tasks|
            && k == CountEntries(s.submitted[..i], task)
            && s.submitted[i].due == s.tasks[task].origin + k * s.tasks[task].period
  {
    var s := Run(Init(start), es);
    RunKeeps(Init(start), es);
    assert OnGrid(s, s.submitted[i]);
    SlotIsLinear(s.tasks[s.submitted[i].work.task], s.submitted[i].work.index);
  }

  /** A task never has two entries that can still run. */
  lemma OneEntryPerTask(start: int, es: seq<Event>, a: Job, b: Job)
    requires var s := Run(Init(start), es); a in Alive(s) && b in Alive(s)
    requires a.work.Entry? && Of(b, a.work.task)
    ensures a == b
  {
    RunKeeps(Init(start), es);
  }

  // ---- Cancellation ------------------------------------------------------------------------

  function CountLaunches(ls: seq<Launch>, task: nat): nat {
    if ls == [] then 0
    else CountLaunches(ls[..|ls| - 1], task) + (if Of(ls[|ls| - 1].job, task) then 1 else 0)
  }

  ghost predicate HasEntry(s: State, task: nat) {
    exists a :: a in Alive(s) && Of(a, task)
  }

  /** From a point where the task was cancelled with n launches: nothing invoked since, one entry left at most. */
  ghost predicate Quiet(s: State, task: nat, n: nat) {
    && task in s.cancelled
    && n <= |s.launches|
    && (forall i :: n <= i < |s.launches| && Of(s.launches[i].job, task) ==> !s.launches[i].invoked)
    && CountLaunches(s.launches[n..], task) + (if HasEntry(s, task) then 1 else 0) <= 1
  }

  predicate CanRenew(s: State) {
    s.current.Renewing? && Repeated(s, s.current.job.work)
  }

  function Renewed(s: State): Job
    requires CanRenew(s)
  {
    var job := s.current.job;
    Job(|s.submitted|, job.due + s.tasks[job.work.task].period, Entry(job.work.task, job.work.index + 1))
  }

  /** The job a step adds to the queue, if any. */
  function Added(s: State, e: Event): set<Job> {
    match e
    case RunNow => {Job(|s.submitted|, s.now, Plain)}
    case ScheduleAt(due) => {Job(|s.submitted|, due, Entry(|s.tasks|, 0))}
    case ScheduleEvery(period) => {Job(|s.submitted|, s.now, Entry(|s.tasks|, 0))}
    case Renew => if CanRenew(s) then {Renewed(s)} else {}
    case _ => {}
  }

  lemma AliveAfterWork(s: State, e: Event)
    requires Shelved(s) && Added(s, e) == {}
    ensures Alive(Next(s, e)) <= Alive(s)
  {
    if e.Poll? && CanPoll(s) { WaitingAfterPop(s.jobs, Earliest(s.jobs.Keys), s.submitted); }
    if e.StartNext? && CanStart(s) { BatchHead(s); }
    if e.Stop? { assert Waiting(Next(s, e).jobs) == {}; }
  }

  /** No step revives a job: what can still run was there before or was just added. */
  lemma AliveNext(s: State, e: Event)
    requires Shelved(s)
    ensures Alive(Next(s, e)) <= Alive(s) + Added(s, e)
  {
    if Added(s, e) == {} { AliveAfterWork(s, e); }
    else if e.Renew? { WaitingAfterPush(s.jobs, Renewed(s)); }
    else {
      var due := if e.ScheduleAt? then e.due else s.now;
      WaitingAfterPush(s.jobs, Job(|s.submitted|, due, if e.RunNow? then Plain else Entry(|s.tasks|, 0)));
    }
  }

  /** A known task without a live entry gets one only from its own renewal. */
  lemma EntryComesFrom(s: State, e: Event, task: nat)
    requires Shelved(s) && task < |s.tasks|
    ensures HasEntry(Next(s, e), task) ==> HasEntry(s, task)
  {
    AliveNext(s, e);
    if HasEntry(Next(s, e), task) {
      var a :| a in Alive(Next(s, e)) && Of(a, task);
      if a !in Alive(s) { assert s.current.job in Alive(s) && Of(s.current.job, task); }
    }
  }

  /** Launching an entry uses it up: no entry of its task is left in the queue, and its task can only run on
      through the function that was just entered. */
  lemma LaunchConsumesEntry(s: State, task: nat)
    requires Shelved(s) && Partitioned(s) && Single(s) && CanStart(s) && Of(s.batch[0], task)
    ensures forall a :: a in Waiting(DoStart(s).jobs) + Items(DoStart(s).batch) ==> !Of(a, task)
    ensures HasEntry(DoStart(s), task) <==> Live(s, s.batch[0].work) && Repeated(s, s.batch[0].work)
  {
    var n, job := DoStart(s), s.batch[0];
    BatchHead(s);
    assert job in Items(s.batch) && job in Alive(s);
    forall a | a in Waiting(n.jobs) + Items(n.batch) ensures !Of(a, task) {
      assert a in Alive(s) && a != job;
    }
    if Live(s, job.work) && Repeated(s, job.work) { assert job in Alive(n) && Of(job, task); }
  }

  lemma CountAfterLaunch(ls: seq<Launch>, n: nat, l: Launch, task: nat)
    requires n <= |ls|
    ensures CountLaunches((ls + [l])[n..], task) == CountLaunches(ls[n..], task) + if Of(l.job, task) then 1 else 0
  {
    var more := (ls + [l])[n..];
    assert more == ls[n..] + [l];
    assert more[..|more| - 1] == ls[n..];
  }

  /** The started entry of a cancelled task was its last, and a no-op. */
  lemma QuietHead(s: State, task: nat)
    requires Shelved(s) && Partitioned(s) && Single(s) && CanStart(s) && Of(s.batch[0], task) && task in s.cancelled
    ensures HasEntry(s, task) && !HasEntry(DoStart(s), task) && !Live(s, s.batch[0].work)
  {
    assert s.batch[0] in Items(s.batch) && s.batch[0] in Alive(s);
    LaunchConsumesEntry(s, task);
  }

  lemma QuietStart(s: State, task: nat, n: nat)
    requires Inv(s) && Quiet(s, task, n) && CanStart(s)
    ensures Quiet(DoStart(s), task, n)
  {
    var head := s.batch[0];
    var launch := Launch(head, s.now, Live(s, head.work));
    assert DoStart(s).launches == s.launches + [launch];
    CountAfterLaunch(s.launches, n, launch, task);
    if Of(head, task) {
      QuietHead(s, task);
    } else {
      EntryComesFrom(s, StartNext, task);
      assert Next(s, StartNext) == DoStart(s);
    }
  }

  lemma QuietStep(s: State, e: Event, task: nat, n: nat)
    requires Inv(s) && Quiet(s, task, n)
    ensures Quiet(Next(s, e), task, n)
  {
    if e.StartNext? && CanStart(s) {
      QuietStart(s, task, n);
    } else {
      EntryComesFrom(s, e, task);
      NothingStarts(s, e);
    }
  }

  lemma NothingStarts(s: State, e: Event)
    requires !(e.StartNext? && CanStart(s))
    ensures Next(s, e).launches == s.launches && s.cancelled <= Next(s, e).cancelled
  {
  }

  lemma {:induction false} QuietRun(s: State, es: seq<Event>, task: nat, n: nat)
    requires Inv(s) && Quiet(s, task, n)
    ensures Quiet(Run(s, es), task, n)
    decreases |es|
  {
    if es != [] {
      NextKeeps(s, es[0]);
      QuietStep(s, es[0], task, n);
      QuietRun(Next(s, es[0]), es[1..], task, n);
    }
  }

  /** Once a task is cancelled its function is never entered again and its chain ends:
      at most one leftover entry is launched, as a no-op. */
  lemma AfterCancel(start: int, es: seq<Event>, more: seq<Event>, task: nat)
    requires task in Run(Init(start), es).cancelled
    ensures var s, n := Run(Init(start), es), Run(Run(Init(start), es), more);
            && |s.launches| <= |n.launches|
            && (forall i :: |s.launches| <= i < |n.launches| && Of(n.launches[i].job, task) ==> !n.launches[i].invoked)
            && CountLaunches(n.launches[|s.launches|..], task) <= 1
  {
    var s := Run(Init(start), es);
    RunKeeps(Init(start), es);
    QuietRun(s, more, task, |s.launches|);
  }

  lemma EndedHasNoEntry(s: State, task: nat, outcome: Outcome)
    requires Partitioned(s) && Single(s) && Flags(s)
    requires s.current.Calling? && Of(s.current.job, task) && !outcome.Continue?
    ensures !HasEntry(Next(s, EndCall(outcome)), task)
  {
    var n := Next(s, EndCall(outcome));
    assert s.current.job in Alive(s) && s.current.job !in Alive(n);
    assert Alive(n) <= Alive(s);
  }

  /** A function that returns false, or throws, leaves no entry behind: its chain is over at once,
      although a throw does not mark the task as cancelled. */
  lemma FinishOrThrowEndsChain(start: int, es: seq<Event>, task: nat, outcome: Outcome)
    requires var s := Run(Init(start), es); s.current.Calling? && Of(s.current.job, task)
    requires !outcome.Continue?
    ensures var s := Run(Init(start), es);
            && !HasEntry(Next(s, EndCall(outcome)), task)
            && (task in Next(s, EndCall(outcome)).cancelled <==> outcome.Finish? || task in s.cancelled)
  {
    RunKeeps(Init(start), es);
    EndedHasNoEntry(Run(Init(start), es), task, outcome);
  }

  lemma EndedStep(s: State, e: Event, task: nat)
    requires Shelved(s) && task < |s.tasks| && !HasEntry(s, task)
    ensures var n := Next(s, e);
            && task < |n.tasks| && !HasEntry(n, task) && s.launches <= n.launches
            && forall i :: |s.launches| <= i < |n.launches| ==> !Of(n.launches[i].job, task)
  {
    EntryComesFrom(s, e, task);
    if e.StartNext? && CanStart(s) {
      assert s.batch[0] in Items(s.batch) && s.batch[0] in Alive(s);
    }
  }

  lemma {:induction false} EndedRun(s: State, es: seq<Event>, task: nat)
    requires Inv(s) && task < |s.tasks| && !HasEntry(s, task)
    ensures var n := Run(s, es);
            && !HasEntry(n, task) && s.launches <= n.launches
            && forall i :: |s.launches| <= i < |n.launches| ==> !Of(n.launches[i].job, task)
    decreases |es|
  {
    if es != [] {
      NextKeeps(s, es[0]);
      EndedStep(s, es[0], task);
      EndedRun(Next(s, es[0]), es[1..], task);
    }
  }

  /** However a run goes on after that, no entry of the task is ever started again. */
  lemma EndedChainStaysOver(start: int, es: seq<Event>, task: nat, outcome: Outcome, more: seq<Event>)
    requires var s := Run(Init(start), es); s.current.Calling? && Of(s.current.job, task)
    requires !outcome.Continue?
    ensures var s := Run(Init(start), es);
            var n := Run(Next(s, EndCall(outcome)), more);
            && !HasEntry(n, task) && s.launches <= n.launches
            && forall i :: |s.launches| <= i < |n.launches| ==> !Of(n.launches[i].job, task)
  {
    RunKeeps(Init(start), es);
    EndedFrom(Run(Init(start), es), task, outcome, more);
  }

  lemma EndedFrom(s: State, task: nat, outcome: Outcome, more: seq<Event>)
    requires Inv(s) && s.current.Calling? && Of(s.current.job, task) && !outcome.Continue?
    ensures var n := Run(Next(s, EndCall(outcome)), more);
            && !HasEntry(n, task) && s.launches <= n.launches
            && forall i :: |s.launches| <= i < |n.launches| ==> !Of(n.launches[i].job, task)
  {
    NextKeeps(s, EndCall(outcome));
    EndedHasNoEntry(s, task, outcome);
    EndCallKeeps(s, task, outcome);
    EndedRun(Next(s, EndCall(outcome)), more, task);
  }

  lemma EndCallKeeps(s: State, task: nat, outcome: Outcome)
    requires Flags(s) && s.current.Calling? && Of(s.current.job, task)
    ensures var n := Next(s, EndCall(outcome)); n.launches == s.launches && task < |n.tasks|
  {
  }

  // ---- Exceptions --------------------------------------------------------------------------

  /** What callers may do while the worker is busy: everything but starting the worker, which waits for it. */
  predicate FromOutside(e: Event) {
    !e.Poll? && !e.StartNext? && !e.EndCall? && !e.Renew? && !e.Start?
  }

  predicate AllFromOutside(es: seq<Event>) {
    forall i :: 0 <= i < |es| ==> FromOutside(es[i])
  }

  /** How one popped job goes: what callers do while it runs, how it ends, what they do before it is renewed. */
  datatype Turn = Turn(during: seq<Event>, outcome: Outcome, after: seq<Event>)

  predicate Fair(turn: Turn) {
    AllFromOutside(turn.during) && AllFromOutside(turn.after)
  }

  /** The body of the worker's loop for one popped job: start it, let it return or throw, maybe reschedule. */
  ghost function Perform(s: State, turn: Turn): State {
    Next(Run(Next(Run(Next(s, StartNext), turn.during), EndCall(turn.outcome)), turn.after), Renew)
  }

  ghost function Drain(s: State, turns: seq<Turn>): State
    decreases |turns|
  {
    if turns == [] then s else Drain(Perform(s, turns[0]), turns[1..])
  }

  lemma {:induction false} OutsideKeepsBatch(s: State, es: seq<Event>)
    requires AllFromOutside(es)
    ensures var n := Run(s, es);
            && n.batch == s.batch && n.launches == s.launches && n.current == s.current
            && s.tasks <= n.tasks
    decreases |es|
  {
    if es != [] {
      assert FromOutside(es[0]);
      OutsideKeepsBatch(Next(s, es[0]), es[1..]);
    }
  }

  lemma PerformAdvances(s: State, turn: Turn)
    requires CanStart(s) && Fair(turn)
    ensures var n := Perform(s, turn);
            && n.current.Idle?
            && n.batch == s.batch[1..]
            && Jobs(n.launches) == Jobs(s.launches) + [s.batch[0]]
  {
    var a := Next(s, StartNext);
    assert Jobs(a.launches) == Jobs(s.launches) + [s.batch[0]];
    OutsideKeepsBatch(a, turn.during);
    var b := Next(Run(a, turn.during), EndCall(turn.outcome));
    ReturnsOrRenews(Run(a, turn.during), turn.outcome);
    OutsideKeepsBatch(b, turn.after);
    Settles(Run(b, turn.after));
  }

  lemma ReturnsOrRenews(s: State, outcome: Outcome)
    requires !s.current.Renewing? && (s.current.Calling? ==> Repeated(s, s.current.job.work))
    ensures var n := Next(s, EndCall(outcome));
            && n.batch == s.batch && n.launches == s.launches && n.tasks == s.tasks
            && !n.current.Calling? && (n.current.Renewing? ==> Repeated(n, n.current.job.work))
  {
  }

  lemma Settles(s: State)
    requires !s.current.Calling? && (s.current.Renewing? ==> Repeated(s, s.current.job.work))
    ensures var n := Next(s, Renew); n.current.Idle? && n.batch == s.batch && n.launches == s.launches
  {
  }

  /** Whatever each job of a popped batch does, return or throw, and whatever callers do meanwhile, every job after
      it is started too, in order. */
  lemma {:induction false} ExceptionsAreContained(s: State, turns: seq<Turn>)
    requires s.current.Idle? && |turns| == |s.batch| && forall i :: 0 <= i < |turns| ==> Fair(turns[i])
    ensures var n := Drain(s, turns);
            && n.batch == [] && n.current.Idle?
            && Jobs(n.launches) == Jobs(s.launches) + s.batch
    decreases |turns|
  {
    if turns != [] {
      PerformAdvances(s, turns[0]);
      var m := Perform(s, turns[0]);
      ExceptionsAreContained(m, turns[1..]);
      assert Jobs(s.launches) + s.batch == Jobs(m.launches) + m.batch;
    }
  }

  // ---- What each step does ---------------------------------------------------------------------

  /** What can still run stays, except the entry that is started and what a stop drops. */
  lemma AliveStays(s: State, e: Event, a: Job)
    requires Shelved(s) && !e.Stop? && a in Waiting(s.jobs) + Items(s.batch)
    requires e.StartNext? && CanStart(s) ==> a != s.batch[0]
    ensures a in Alive(Next(s, e))
  {
    if e.Poll? {
      if CanPoll(s) {
        WaitingAfterPop(s.jobs, Earliest(s.jobs.Keys), s.submitted);
        assert Items(s.batch) == {};
      }
    } else {
      WaitingGrows(s, e);
      if e.StartNext? && CanStart(s) { BatchHead(s); }
    }
  }

  /** Whoever submits, the job is queued with its own due time, behind what was submitted before. */
  lemma SubmissionIsQueued(start: int, es: seq<Event>, e: Event)
    requires e.RunNow? || e.ScheduleAt? || e.ScheduleEvery?
    ensures var s, n := Run(Init(start), es), Next(Run(Init(start), es), e);
            && |n.submitted| == |s.submitted| + 1 && s.submitted <= n.submitted
            && var job := n.submitted[|s.submitted|];
               && job.id == |s.submitted| && job in Waiting(n.jobs)
               && job.due == (if e.ScheduleAt? then e.due else s.now)
               && job.work == (if e.RunNow? then Plain else Entry(|s.tasks|, 0))
               && (if e.RunNow? then n.tasks == s.tasks
                   else var period := if e.ScheduleEvery? then e.period else 0;
                        n.tasks == s.tasks + [TaskInfo(job.due, period, e.ScheduleEvery?)])
  {
    var s := Run(Init(start), es);
    var due := if e.ScheduleAt? then e.due else s.now;
    WaitingAfterPush(s.jobs, Job(|s.submitted|, due, if e.RunNow? then Plain else Entry(|s.tasks|, 0)));
  }

  /** Polling takes all jobs of the earliest due time if the worker is free and something is due, and nothing
      otherwise. */
  lemma PollTakesTheEarliest(start: int, es: seq<Event>)
    ensures var s, n := Run(Init(start), es), Next(Run(Init(start), es), Poll);
            if Ready(s) then
              && n.batch != [] && n.batch[0].due <= s.now
              && (forall a :: a in Waiting(s.jobs) ==> n.batch[0].due <= a.due)
              && (forall a :: a in Items(n.batch) <==> a in Waiting(s.jobs) && a.due == n.batch[0].due)
            else n == s
  {
    RunKeeps(Init(start), es);
    PollFrom(Run(Init(start), es));
  }

  ghost predicate Ready(s: State) {
    s.running && s.batch == [] && s.current.Idle? && exists a :: a in Waiting(s.jobs) && a.due <= s.now
  }

  lemma PollFrom(s: State)
    requires Shelved(s)
    ensures var n := Next(s, Poll);
            if Ready(s) then
              && n.batch != [] && n.batch[0].due <= s.now
              && (forall a :: a in Waiting(s.jobs) ==> n.batch[0].due <= a.due)
              && (forall a :: a in Items(n.batch) <==> a in Waiting(s.jobs) && a.due == n.batch[0].due)
            else n == s
  {
    if s.jobs.Keys != {} {
      EarliestBucket(s);
      assert s.jobs[Earliest(s.jobs.Keys)][0] in Items(s.jobs[Earliest(s.jobs.Keys)]);
    }
  }

  lemma EarliestBucket(s: State)
    requires Shelved(s) && s.jobs.Keys != {}
    ensures var t := Earliest(s.jobs.Keys);
            && s.jobs[t] != [] && s.jobs[t][0] in Waiting(s.jobs)
            && (forall a :: a in Waiting(s.jobs) ==> t <= a.due)
            && (forall a :: a in Items(s.jobs[t]) <==> a in Waiting(s.jobs) && a.due == t)
  {
    var t := Earliest(s.jobs.Keys);
    assert s.jobs[t][0] in Waiting(s.jobs);
    forall a | a in Waiting(s.jobs) ensures t <= a.due && (a.due == t ==> a in Items(s.jobs[t])) {
      BucketIsWaiting(s, a);
    }
    forall a | a in Items(s.jobs[t]) ensures a in Waiting(s.jobs) && a.due == t {
      assert Ordered(s.jobs[t], t, s.submitted);
    }
  }

  /** Starting launches the first job of the batch now, calling its function unless its task is cancelled. */
  lemma StartLaunchesTheHead(s: State)
    requires s.batch != [] && s.current.Idle?
    ensures var n, job := Next(s, StartNext), s.batch[0];
            && n.batch == s.batch[1..] && |n.launches| == |s.launches| + 1 && s.launches <= n.launches
            && n.launches[|s.launches|].job == job && n.launches[|s.launches|].at == s.now
            && (n.launches[|s.launches|].invoked <==>
                  job.work.Plain? || (job.work.task !in s.cancelled && job.work.task !in s.emptied))
  {
  }

  /** A task is cancelled by its owner or by returning false, and by nothing else. */
  lemma CancelledIff(start: int, es: seq<Event>, e: Event, task: nat)
    ensures var s, n := Run(Init(start), es), Next(Run(Init(start), es), e);
            task in n.cancelled <==>
              || task in s.cancelled
              || (e == Cancel(task) && task < |s.tasks|)
              || (e == EndCall(Finish) && s.current.Calling? && Of(s.current.job, task))
  {
    RunKeeps(Init(start), es);
  }

  /** Its function is released with that, or by its owner while no call of it is under way, or when a leftover entry
      of a cancelled repeated task comes up. */
  lemma EmptiedIff(start: int, es: seq<Event>, e: Event, task: nat)
    ensures var s, n := Run(Init(start), es), Next(Run(Init(start), es), e);
            task in n.emptied <==>
              || task in s.emptied
              || (e == Reset(task) && task in s.cancelled && !(s.current.Calling? && Of(s.current.job, task)))
              || (e == EndCall(Finish) && s.current.Calling? && Of(s.current.job, task))
              || (e == StartNext && s.batch != [] && s.current.Idle? && Of(s.batch[0], task)
                  && task in s.cancelled && task < |s.tasks| && s.tasks[task].repeated)
  {
    RunKeeps(Init(start), es);
  }

  /** The worker runs until stopped, which drops everything that waits, and runs again once its batch is done. */
  lemma RunningIff(s: State, e: Event)
    ensures var n := Next(s, e);
            && (n.running <==> (s.running && !e.Stop?) || (e.Start? && s.batch == [] && s.current.Idle?))
            && (e.Stop? ==> Waiting(n.jobs) == {})
            && n.now == (if e.Tick? && s.now <= e.to then e.to else s.now)
  {
  }

  lemma {:induction false} RunsOn(s: State, es: seq<Event>)
    requires s.running && Stop !in es
    ensures Run(s, es).running
    decreases |es|
  {
    if es != [] {
      RunningIff(s, es[0]);
      RunsOn(Next(s, es[0]), es[1..]);
    }
  }

  /** A new executor is running, and stays so for as long as nobody stops it. */
  lemma RunsUntilStopped(start: int, es: seq<Event>)
    requires Stop !in es
    ensures Run(Init(start), es).running
  {
    RunsOn(Init(start), es);
  }

  /** A repeated task whose function returned true is queued again, one period after it was due, whatever callers do
      before the worker gets to it. */
  lemma TaskRepeats(start: int, es: seq<Event>, more: seq<Event>)
    requires Run(Init(start), es).current.Calling? && AllFromOutside(more)
    ensures var s := Run(Init(start), es);
            var returned := Next(s, EndCall(Continue));
            var n := Next(Run(returned, more), Renew);
            && s.current.job.work.Entry? && s.current.job.work.task < |s.tasks|
            && HasEntry(returned, s.current.job.work.task)
            && exists a :: a in Waiting(n.jobs) && Follows(s, s.current.job, a)
  {
    RunKeeps(Init(start), es);
    RepeatsFrom(Run(Init(start), es), more);
  }

  /** `a` is the next entry of the task of `job`. */
  predicate Follows(s: State, job: Job, a: Job) {
    && job.work.Entry? && job.work.task < |s.tasks|
    && a.due == job.due + s.tasks[job.work.task].period && a.work == Entry(job.work.task, job.work.index + 1)
  }

  lemma RepeatsFrom(s: State, more: seq<Event>)
    requires Flags(s) && s.current.Calling? && AllFromOutside(more)
    ensures var returned := Next(s, EndCall(Continue));
            var n := Next(Run(returned, more), Renew);
            && HasEntry(returned, s.current.job.work.task)
            && exists a :: a in Waiting(n.jobs) && Follows(s, s.current.job, a)
  {
    var returned := Next(s, EndCall(Continue));
    assert returned.current == Renewing(s.current.job) && returned.tasks == s.tasks;
    assert s.current.job in Alive(returned) && Of(s.current.job, s.current.job.work.task);
    OutsideKeepsBatch(returned, more);
    var m := Run(returned, more);
    assert Follows(s, s.current.job, Renewed(m));
    WaitingAfterPush(m.jobs, Renewed(m));
    assert Renewed(m) in Waiting(Next(m, Renew).jobs);
  }

}
