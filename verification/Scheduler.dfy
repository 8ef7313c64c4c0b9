/** The time-keyed job scheduler: submission, polling, launching, cancellable and repeated tasks,
    stop and start, as a state machine over every interleaving of caller and worker steps. */
module Scheduler {

  datatype Work = Plain | Entry(task: nat, index: nat)

  /** `id` is the submission order; an `Entry` is the index-th queue entry of a task. */
  datatype Job = Job(id: nat, due: int, work: Work)

  datatype TaskInfo = TaskInfo(origin: int, period: int, repeated: bool)

  /** A job taken from the batch and started; `invoked` is false when its task was cancelled. */
  datatype Launch = Launch(job: Job, at: int, invoked: bool)

  /** What the worker is doing with a repeated task: inside its function, or about to reschedule. */
  datatype Current = Idle | Calling(job: Job) | Renewing(job: Job)

  datatype Outcome = Continue | Finish | Throw

  datatype State = State(
    now: int,
    running: bool,
    jobs: map<int, seq<Job>>,
    batch: seq<Job>,
    current: Current,
    tasks: seq<TaskInfo>,
    cancelled: set<nat>,
    emptied: set<nat>,
    submitted: seq<Job>,
    launches: seq<Launch>,
    dropped: set<Job>)

  datatype Event =
    | Tick(to: int)
    | RunNow
    | ScheduleAt(due: int)
    | ScheduleEvery(period: int)
    | Cancel(task: nat)
    | Reset(task: nat)
    | Poll
    | StartNext
    | EndCall(outcome: Outcome)
    | Renew
    | Stop
    | Start

  function Init(now: int): State {
    State(now, true, map[], [], Idle, [], {}, {}, [], [], {})
  }

  // ---- One step ----------------------------------------------------------------------------

  function Bucket(jobs: map<int, seq<Job>>, due: int): seq<Job> {
    if due in jobs then jobs[due] else []
  }

  function Push(s: State, due: int, work: Work): State {
    var job := Job(|s.submitted|, due, work);
    s.(jobs := s.jobs[due := Bucket(s.jobs, due) + [job]], submitted := s.submitted + [job])
  }

  function PushTask(s: State, origin: int, period: int, repeated: bool): State {
    Push(s.(tasks := s.tasks + [TaskInfo(origin, period, repeated)]), origin, Entry(|s.tasks|, 0))
  }

  ghost function Earliest(keys: set<int>): (t: int)
    requires keys != {}
    ensures t in keys && forall k :: k in keys ==> t <= k
  {
    assert (forall k :: k !in keys) ==> keys == {};
    var k :| k in keys;
    if keys == {k} then k
    else
      assert keys - {k} == {} ==> keys == {k};
      assert keys == (keys - {k}) + {k};
      var rest := Earliest(keys - {k});
      if k <= rest then k else rest
  }

  ghost predicate CanPoll(s: State) {
    s.running && s.batch == [] && s.current.Idle? && s.jobs.Keys != {} && Earliest(s.jobs.Keys) <= s.now
  }

  ghost function DoPoll(s: State): State {
    if CanPoll(s) then
      var t := Earliest(s.jobs.Keys);
      s.(batch := s.jobs[t], jobs := s.jobs - {t})
    else s
  }

  predicate Repeated(s: State, work: Work) {
    work.Entry? && work.task < |s.tasks| && s.tasks[work.task].repeated
  }

  predicate Live(s: State, work: Work) {
    work.Entry? ==> work.task !in s.cancelled && work.task !in s.emptied
  }

  predicate CanStart(s: State) {
    s.batch != [] && s.current.Idle?
  }

  function DoStart(s: State): State {
    if CanStart(s) then
      var job := s.batch[0];
      var live := Live(s, job.work);
      var over := if !live && Repeated(s, job.work) then {job.work.task} else {};
      s.(batch := s.batch[1..],
         launches := s.launches + [Launch(job, s.now, live)],
         current := if live && Repeated(s, job.work) then Calling(job) else Idle,
         cancelled := s.cancelled + over,
         emptied := s.emptied + over)
    else s
  }

  function DoEnd(s: State, outcome: Outcome): State {
    if s.current.Calling? && s.current.job.work.Entry? then
      var task := s.current.job.work.task;
      match outcome
      case Continue => s.(current := if task in s.emptied then Idle else Renewing(s.current.job))
      case Finish => s.(current := Idle, cancelled := s.cancelled + {task}, emptied := s.emptied + {task})
      case Throw => s.(current := Idle)
    else s
  }

  function DoRenew(s: State): State {
    if s.current.Renewing? && Repeated(s, s.current.job.work) then
      var job := s.current.job;
      var period := s.tasks[job.work.task].period;
      Push(s.(current := Idle), job.due + period, Entry(job.work.task, job.work.index + 1))
    else s
  }

  /** Steps that are blocked in the state (a lock is held, nothing is due) leave it unchanged. */
  ghost function Next(s: State, e: Event): State {
    match e
    case Tick(to) => if s.now <= to then s.(now := to) else s
    case RunNow => Push(s, s.now, Plain)
    case ScheduleAt(due) => PushTask(s, due, 0, false)
    case ScheduleEvery(period) => PushTask(s, s.now, period, true)
    case Cancel(task) => if task < |s.tasks| then s.(cancelled := s.cancelled + {task}) else s
    case Reset(task) =>
      // RepeatedTask::destroy empties the job only once its lock is free.
      if task in s.cancelled && !(s.current.Calling? && Of(s.current.job, task))
      then s.(emptied := s.emptied + {task}) else s
    case Poll => DoPoll(s)
    case StartNext => DoStart(s)
    case EndCall(outcome) => DoEnd(s, outcome)
    case Renew => DoRenew(s)
    case Stop => s.(running := false, jobs := map[], dropped := s.dropped + Waiting(s.jobs))
    case Start => if s.batch == [] && s.current.Idle? then s.(running := true) else s
  }

  ghost function Run(s: State, es: seq<Event>): State
    decreases |es|
  {
    if es == [] then s else Run(Next(s, es[0]), es[1..])
  }

  // ---- Where jobs are ----------------------------------------------------------------------

  ghost function Waiting(jobs: map<int, seq<Job>>): set<Job> {
    set t, i | t in jobs && 0 <= i < |jobs[t]| :: jobs[t][i]
  }

  ghost function Items<T>(xs: seq<T>): set<T> {
    set i | 0 <= i < |xs| :: xs[i]
  }

  ghost function Launched(ls: seq<Launch>): set<Job> {
    set i | 0 <= i < |ls| :: ls[i].job
  }

  ghost predicate Ordered(js: seq<Job>, due: int, submitted: seq<Job>) {
    && (forall i :: 0 <= i < |js| ==> js[i].due == due && js[i].id < |submitted| && submitted[js[i].id] == js[i])
    && (forall i, k :: 0 <= i < k < |js| ==> js[i].id < js[k].id)
  }

  ghost predicate Numbered(s: State) {
    forall i :: 0 <= i < |s.submitted| ==> s.submitted[i].id == i
  }

  ghost predicate Shelved(s: State) {
    && (forall t :: t in s.jobs ==> s.jobs[t] != [] && Ordered(s.jobs[t], t, s.submitted))
    && (s.batch != [] ==> s.batch[0].due <= s.now && Ordered(s.batch, s.batch[0].due, s.submitted))
  }

  ghost predicate Partitioned(s: State) {
    && Items(s.submitted) == Waiting(s.jobs) + Items(s.batch) + Launched(s.launches) + s.dropped
    && Waiting(s.jobs) !! Items(s.batch) !! Launched(s.launches) !! s.dropped
    && (forall i, k :: 0 <= i < k < |s.launches| ==> s.launches[i].job != s.launches[k].job)
  }

  ghost predicate Timely(s: State) {
    && (forall i :: 0 <= i < |s.launches| ==> s.launches[i].job.due <= s.launches[i].at <= s.now)
    && (forall i, k :: 0 <= i < k < |s.launches| ==> s.launches[i].at <= s.launches[k].at)
  }

  // ---- Task entries ------------------------------------------------------------------------

  function CountEntries(js: seq<Job>, task: nat): nat {
    if js == [] then 0
    else CountEntries(js[..|js| - 1], task) + (if Of(js[|js| - 1], task) then 1 else 0)
  }

  predicate Of(job: Job, task: nat) {
    job.work.Entry? && job.work.task == task
  }

  /** The due time of the index-th entry, counted in steps of the period from the origin. */
  function Slot(info: TaskInfo, index: nat): int {
    if index == 0 then info.origin else Slot(info, index - 1) + info.period
  }

  ghost predicate OnGrid(s: State, job: Job) {
    job.work.Entry? ==>
      && job.work.task < |s.tasks|
      && (var info := s.tasks[job.work.task];
          && job.due == Slot(info, job.work.index)
          && (!info.repeated ==> job.work.index == 0))
  }

  ghost predicate Gridded(s: State) {
    forall i :: 0 <= i < |s.submitted| ==>
      && OnGrid(s, s.submitted[i])
      && (s.submitted[i].work.Entry? ==>
            CountEntries(s.submitted[..i], s.submitted[i].work.task) == s.submitted[i].work.index)
  }

  ghost function CurrentJobs(c: Current): set<Job> {
    if c.Idle? then {} else {c.job}
  }

  /** The entries that can still lead to a launch or a renewal. */
  ghost function Alive(s: State): set<Job> {
    Waiting(s.jobs) + Items(s.batch) + CurrentJobs(s.current)
  }

  ghost predicate Newest(s: State, job: Job) {
    job.work.Entry? ==> CountEntries(s.submitted, job.work.task) == job.work.index + 1
  }

  ghost predicate Single(s: State) {
    && (forall a, b :: a in Alive(s) && b in Alive(s) && a.work.Entry? && Of(b, a.work.task) ==> a == b)
    && (forall a :: a in Alive(s) ==> Newest(s, a))
  }

  ghost predicate Flags(s: State) {
    && s.emptied <= s.cancelled
    && (forall t :: t in s.cancelled ==> t < |s.tasks|)
    && (!s.current.Idle? ==> Repeated(s, s.current.job.work) && s.current.job in Launched(s.launches))
    && (s.current.Calling? ==> s.current.job.work.task !in s.emptied)
  }

  ghost predicate Inv(s: State) {
    Numbered(s) && Shelved(s) && Partitioned(s) && Timely(s) && Gridded(s) && Single(s) && Flags(s)
  }

  // ---- Every step keeps the invariant ------------------------------------------------------

  lemma {:induction false} CountNone(js: seq<Job>, task: nat)
    requires forall i :: 0 <= i < |js| ==> !Of(js[i], task)
    ensures CountEntries(js, task) == 0
  {
    if js != [] { CountNone(js[..|js| - 1], task); }
  }

  lemma WaitingAfterPush(jobs: map<int, seq<Job>>, job: Job)
    ensures Waiting(jobs[job.due := Bucket(jobs, job.due) + [job]]) == Waiting(jobs) + {job}
  {
    var old', new' := Waiting(jobs), Waiting(jobs[job.due := Bucket(jobs, job.due) + [job]]);
    var jobs' := jobs[job.due := Bucket(jobs, job.due) + [job]];
    assert jobs'[job.due][|Bucket(jobs, job.due)|] == job;
    forall j | j in old' ensures j in new' {
      var t, i :| t in jobs && 0 <= i < |jobs[t]| && j == jobs[t][i];
      assert jobs'[t][i] == j;
    }
    forall j | j in new' ensures j in old' + {job} {
      var t, i :| t in jobs' && 0 <= i < |jobs'[t]| && j == jobs'[t][i];
      if j != job { assert t in jobs && jobs[t][i] == j; }
    }
  }

  lemma ItemsAfterAppend<T>(xs: seq<T>, x: T)
    ensures Items(xs + [x]) == Items(xs) + {x}
  {
    var ys := xs + [x];
    assert ys[|xs|] == x;
    forall y | y in Items(xs) ensures y in Items(ys) {
      var i :| 0 <= i < |xs| && xs[i] == y;
      assert ys[i] == y;
    }
  }

  lemma LaunchedAfterAppend(ls: seq<Launch>, l: Launch)
    ensures Launched(ls + [l]) == Launched(ls) + {l.job}
  {
    var ys := ls + [l];
    assert ys[|ls|] == l;
    forall y | y in Launched(ls) ensures y in Launched(ys) {
      var i :| 0 <= i < |ls| && ls[i].job == y;
      assert ys[i].job == y;
    }
  }

  /** A new entry must be on its task's grid, the next in number, and the only one that can still run. */
  ghost predicate Welcome(s: State, due: int, work: Work) {
    && OnGrid(s, Job(|s.submitted|, due, work))
    && (work.Entry? ==>
          && CountEntries(s.submitted, work.task) == work.index
          && forall a :: a in Alive(s) ==> !Of(a, work.task))
  }

  /** Adding a welcome entry keeps everything. */
  lemma PushKeeps(s: State, due: int, work: Work)
    requires Inv(s) && Welcome(s, due, work)
    ensures Inv(Push(s, due, work))
  {
    PushKeepsShelves(s, due, work);
    PushKeepsPartition(s, due, work);
    PushKeepsGrid(s, due, work);
    PushKeepsSingle(s, due, work);
  }

  lemma PushKeepsPartition(s: State, due: int, work: Work)
    requires Numbered(s) && Partitioned(s)
    ensures Partitioned(Push(s, due, work))
  {
    var job := Job(|s.submitted|, due, work);
    WaitingAfterPush(s.jobs, job);
    ItemsAfterAppend(s.submitted, job);
    assert job !in Items(s.submitted);
  }

  lemma PushKeepsSingle(s: State, due: int, work: Work)
    requires Single(s)
    requires work.Entry? ==>
      && CountEntries(s.submitted, work.task) == work.index
      && forall a :: a in Alive(s) ==> !Of(a, work.task)
    ensures Single(Push(s, due, work))
  {
    var job := Job(|s.submitted|, due, work);
    var n := Push(s, due, work);
    WaitingAfterPush(s.jobs, job);
    assert Alive(n) == Alive(s) + {job};
    assert n.submitted[..|s.submitted|] == s.submitted;
    forall a | a in Alive(n) ensures Newest(n, a) {
      if a != job { assert Newest(s, a); }
    }
  }

  /** A later submission does not disturb a bucket, and goes to the end of its own. */
  lemma OrderedGrows(js: seq<Job>, due: int, submitted: seq<Job>, job: Job)
    requires Ordered(js, due, submitted) && job.id == |submitted|
    ensures Ordered(js, due, submitted + [job])
    ensures job.due == due ==> Ordered(js + [job], due, submitted + [job])
  {
    assert (submitted + [job])[|submitted|] == job;
    assert forall i :: 0 <= i < |submitted| ==> (submitted + [job])[i] == submitted[i];
  }

  lemma PushKeepsShelves(s: State, due: int, work: Work)
    requires Numbered(s) && Shelved(s)
    ensures Numbered(Push(s, due, work)) && Shelved(Push(s, due, work))
  {
    var n, job := Push(s, due, work), Job(|s.submitted|, due, work);
    forall t | t in n.jobs ensures n.jobs[t] != [] && Ordered(n.jobs[t], t, n.submitted) {
      OrderedGrows(Bucket(s.jobs, t), t, s.submitted, job);
    }
    if s.batch != [] { OrderedGrows(s.batch, s.batch[0].due, s.submitted, job); }
  }

  lemma PushKeepsGrid(s: State, due: int, work: Work)
    requires Gridded(s) && OnGrid(s, Job(|s.submitted|, due, work))
    requires work.Entry? ==> CountEntries(s.submitted, work.task) == work.index
    ensures Gridded(Push(s, due, work))
  {
    var n := Push(s, due, work);
    forall i | 0 <= i < |n.submitted|
      ensures OnGrid(n, n.submitted[i])
      ensures n.submitted[i].work.Entry? ==>
            CountEntries(n.submitted[..i], n.submitted[i].work.task) == n.submitted[i].work.index
    {
      if i < |s.submitted| {
        assert n.submitted[..i] == s.submitted[..i];
        assert OnGrid(s, s.submitted[i]);
      } else {
        assert n.submitted[..i] == s.submitted;
      }
    }
  }

  /** The first entry of a task that was just created. */
  lemma NewTaskIsWelcome(s: State, origin: int, period: int, repeated: bool)
    requires Inv(s)
    ensures var m := s.(tasks := s.tasks + [TaskInfo(origin, period, repeated)]);
            Inv(m) && Welcome(m, origin, Entry(|s.tasks|, 0))
  {
    var task := |s.tasks|;
    var m := s.(tasks := s.tasks + [TaskInfo(origin, period, repeated)]);
    forall i | 0 <= i < |m.submitted| ensures OnGrid(m, m.submitted[i]) && !Of(m.submitted[i], task) {
      assert OnGrid(s, s.submitted[i]);
    }
    CountNone(s.submitted, task);
    assert Alive(m) == Alive(s);
    forall a | a in Alive(m) ensures Newest(m, a) && !Of(a, task) {
      assert Newest(s, a);
      assert a in Items(s.submitted);
    }
  }

  lemma PushTaskKeeps(s: State, origin: int, period: int, repeated: bool)
    requires Inv(s)
    ensures Inv(PushTask(s, origin, period, repeated))
  {
    NewTaskIsWelcome(s, origin, period, repeated);
    PushKeeps(s.(tasks := s.tasks + [TaskInfo(origin, period, repeated)]), origin, Entry(|s.tasks|, 0));
  }

  lemma PollKeeps(s: State)
    requires Inv(s)
    ensures Inv(DoPoll(s))
  {
    if CanPoll(s) {
      var t := Earliest(s.jobs.Keys);
      var n := DoPoll(s);
      assert Waiting(s.jobs) == Waiting(n.jobs) + Items(n.batch) && Waiting(n.jobs) !! Items(n.batch) by {
        WaitingAfterPop(s.jobs, t, s.submitted);
      }
      assert Items(s.batch) == {};
      EntriesKeep(s, n);
    }
  }

  lemma WaitingAfterPop(jobs: map<int, seq<Job>>, t: int, submitted: seq<Job>)
    requires t in jobs
    requires forall u :: u in jobs ==> Ordered(jobs[u], u, submitted)
    ensures Waiting(jobs) == Waiting(jobs - {t}) + Items(jobs[t])
    ensures Waiting(jobs - {t}) !! Items(jobs[t])
  {
    var rest := jobs - {t};
    forall j | j in Waiting(jobs) ensures j in Waiting(rest) + Items(jobs[t]) {
      var u, i :| u in jobs && 0 <= i < |jobs[u]| && j == jobs[u][i];
      if u != t { assert u in rest && rest[u][i] == j; }
    }
    forall j | j in Waiting(rest) ensures j in Waiting(jobs) && j !in Items(jobs[t]) {
      var u, i :| u in rest && 0 <= i < |rest[u]| && j == rest[u][i];
      assert u in jobs && jobs[u][i] == j;
      assert j.due == u;
    }
    forall j | j in Items(jobs[t]) ensures j in Waiting(jobs) {
      var i :| 0 <= i < |jobs[t]| && jobs[t][i] == j;
    }
  }

  lemma BatchHead(s: State)
    requires s.batch != [] && Shelved(s)
    ensures Items(s.batch) == {s.batch[0]} + Items(s.batch[1..]) && s.batch[0] !in Items(s.batch[1..])
  {
    var rest := s.batch[1..];
    forall j | j in Items(s.batch) ensures j in {s.batch[0]} + Items(rest) {
      var i :| 0 <= i < |s.batch| && s.batch[i] == j;
      if i > 0 { assert rest[i - 1] == j; }
    }
    forall j | j in Items(rest) ensures j in Items(s.batch) && j != s.batch[0] {
      var i :| 0 <= i < |rest| && rest[i] == j;
      assert s.batch[i + 1] == j;
    }
  }

  lemma StartKeeps(s: State)
    requires Inv(s)
    ensures Inv(DoStart(s))
  {
    if CanStart(s) {
      var n := DoStart(s);
      BatchHead(s);
      LaunchedAfterAppend(s.launches, Launch(s.batch[0], s.now, Live(s, s.batch[0].work)));
      assert n.batch != [] ==> n.batch[0] == s.batch[1];
      assert Items(n.submitted) == Items(s.submitted);
      assert s.batch[0] in Items(s.batch);
      forall i, k | 0 <= i < k < |n.launches| ensures n.launches[i].job != n.launches[k].job {
        if k == |s.launches| { assert s.launches[i].job in Launched(s.launches); }
      }
      EntriesKeep(s, n);
    }
  }

  /** Steps that submit nothing and revive nothing keep the entries on their grid and single. */
  lemma EntriesKeep(s: State, n: State)
    requires Gridded(s) && Single(s)
    requires n.submitted == s.submitted && n.tasks == s.tasks && Alive(n) <= Alive(s)
    ensures Gridded(n) && Single(n)
  {
    forall a | a in Alive(n) ensures Newest(n, a) { assert Newest(s, a); }
    forall i | 0 <= i < |n.submitted| ensures OnGrid(n, n.submitted[i]) { assert OnGrid(s, s.submitted[i]); }
  }

  lemma EndKeeps(s: State, outcome: Outcome)
    requires Inv(s)
    ensures Inv(DoEnd(s, outcome))
  {
    var n := DoEnd(s, outcome);
    EntriesKeep(s, n);
  }

  /** The entry being renewed is the only live one of its task. */
  lemma RenewAlone(s: State)
    requires Partitioned(s) && Single(s) && Flags(s) && s.current.Renewing?
    ensures var task := s.current.job.work.task;
            && CountEntries(s.submitted, task) == s.current.job.work.index + 1
            && forall a :: a in Alive(s.(current := Idle)) ==> !Of(a, task)
  {
    var job := s.current.job;
    assert job in Alive(s) && Newest(s, job);
    assert job !in Alive(s.(current := Idle));
  }

  /** Its successor is on the grid. */
  lemma RenewOnGrid(s: State)
    requires Partitioned(s) && Gridded(s) && Flags(s) && s.current.Renewing?
    ensures var Entry(task, index) := s.current.job.work;
            OnGrid(s, Job(|s.submitted|, s.current.job.due + s.tasks[task].period, Entry(task, index + 1)))
  {
    var job := s.current.job;
    assert job in Items(s.submitted);
    var i :| 0 <= i < |s.submitted| && s.submitted[i] == job;
    assert OnGrid(s, s.submitted[i]);
  }

  lemma SettleKeeps(s: State)
    requires Inv(s)
    ensures Inv(s.(current := Idle))
  {
    EntriesKeep(s, s.(current := Idle));
  }

  /** The next entry of a task whose function has returned. */
  lemma RenewalIsWelcome(s: State, due: int, work: Work)
    requires Inv(s) && s.current.Renewing?
    requires work.Entry? && work.task == s.current.job.work.task && work.index == s.current.job.work.index + 1
    requires due == s.current.job.due + s.tasks[work.task].period
    ensures Inv(s.(current := Idle)) && Welcome(s.(current := Idle), due, work)
  {
    SettleKeeps(s);
    RenewAlone(s);
    RenewOnGrid(s);
  }

  lemma StopKeeps(s: State)
    requires Inv(s)
    ensures Inv(Next(s, Stop))
  {
    var n := Next(s, Stop);
    assert Waiting(n.jobs) == {};
    EntriesKeep(s, n);
  }

  lemma ClockKeeps(s: State, e: Event)
    requires Inv(s) && (e.Tick? || e.Start?)
    ensures Inv(Next(s, e))
  {
    EntriesKeep(s, Next(s, e));
  }

  lemma CancelKeeps(s: State, e: Event)
    requires Inv(s) && (e.Cancel? || e.Reset?)
    ensures Inv(Next(s, e))
  {
    EntriesKeep(s, Next(s, e));
  }

  lemma RenewStepKeeps(s: State)
    requires Inv(s)
    ensures Inv(Next(s, Renew))
  {
    if s.current.Renewing? {
      var job := s.current.job;
      var due, work := job.due + s.tasks[job.work.task].period, Entry(job.work.task, job.work.index + 1);
      assert Next(s, Renew) == Push(s.(current := Idle), due, work);
      RenewalIsWelcome(s, due, work);
      PushKeeps(s.(current := Idle), due, work);
    }
  }

  lemma NextKeeps(s: State, e: Event)
    requires Inv(s)
    ensures Inv(Next(s, e))
  {
    if e.Tick? || e.Start? { ClockKeeps(s, e); }
    else if e.Cancel? || e.Reset? { CancelKeeps(s, e); }
    else if e.Poll? { PollKeeps(s); }
    else if e.StartNext? { StartKeeps(s); }
    else if e.EndCall? { EndKeeps(s, e.outcome); }
    else if e.Stop? { StopKeeps(s); }
    else if e.Renew? { RenewStepKeeps(s); }
    else if e.RunNow? { PushKeeps(s, s.now, Plain); }
    else if e.ScheduleAt? { PushTaskKeeps(s, e.due, 0, false); }
    else { PushTaskKeeps(s, s.now, e.period, true); }
  }

  lemma {:induction false} RunKeeps(s: State, es: seq<Event>)
    requires Inv(s)
    ensures Inv(Run(s, es))
    decreases |es|
  {
    if es != [] {
      NextKeeps(s, es[0]);
      RunKeeps(Next(s, es[0]), es[1..]);
    }
  }
}
