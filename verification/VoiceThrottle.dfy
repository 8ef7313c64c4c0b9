/** The voice-activity throttle of a conference: the first change is sent at once, further changes within
    250 ms collapse into one trailing send that the scheduler runs. The scheduler itself is part of the state. */
module VoiceThrottle {
  import opened Scheduler
  import opened SchedulerRuns
  import opened ScheduledExecutor

  const MIN_INTERVAL: int := 250

  /** `callers` have changed the flags and not yet entered the rate limiter; `flushing` is the trailing send between
      leaving the queue and taking the lock; `decided` holds the instants recorded as lastVoiceActivitySent_. The lock
      is released before a broadcast goes out: `owing` are the sends that are decided and not yet broadcast, `emitted`
      gives the instants of the others. */
  datatype Throttle = Throttle(
    sched: State,
    lastSent: int,
    pending: bool,
    flush: nat,
    flushing: bool,
    flags: nat,
    shown: nat,
    callers: nat,
    owing: set<nat>,
    decided: seq<int>,
    emitted: map<nat, int>)

  datatype Step = Change(flags: nat) | Send(read: int) | Emit(send: nat) | Flush | Sched(e: Event)

  function Begin(now: int, epoch: int): Throttle {
    Throttle(Scheduler.Init(now), epoch, false, 0, false, 0, 0, 0, {}, [], map[])
  }

  function Decide(t: Throttle, at: int): Throttle {
    t.(lastSent := at, decided := t.decided + [at], owing := t.owing + {|t.decided|})
  }

  /** sendVoiceActivity: `read` is the clock value taken before the lock. */
  ghost function Limit(t: Throttle, read: int): Throttle {
    if t.pending then t
    else if read - t.lastSent < MIN_INTERVAL then
      t.(pending := true, flush := |t.sched.tasks|,
         sched := Next(t.sched, ScheduleAt(t.sched.now + (MIN_INTERVAL - (read - t.lastSent)))))
    else Decide(t, read)
  }

  predicate Fires(t: Throttle, e: Event) {
    && e.StartNext? && CanStart(t.sched) && t.pending && !t.flushing
    && Of(t.sched.batch[0], t.flush) && Live(t.sched, t.sched.batch[0].work)
  }

  /** The worker is inside the trailing send, or the step would cancel it, which nobody can: the caller has discarded
      the task handle. */
  predicate Blocked(t: Throttle, e: Event) {
    || (t.flushing && (e.StartNext? || e.Poll? || e.Start?))
    || ((e.Cancel? || e.Reset?) && t.pending && e.task == t.flush)
  }

  ghost function Apply(t: Throttle, step: Step): Throttle {
    match step
    case Change(flags) => t.(flags := flags, callers := t.callers + 1)
    case Send(read) => if t.callers > 0 && read <= t.sched.now then Limit(t.(callers := t.callers - 1), read) else t
    case Emit(send) =>
      if send in t.owing then
        t.(shown := t.flags, owing := t.owing - {send}, emitted := t.emitted[send := t.sched.now])
      else t
    case Flush => if t.flushing then Decide(t.(flushing := false, pending := false), t.sched.now) else t
    case Sched(e) =>
      if Blocked(t, e) then t
      else if Fires(t, e) then t.(sched := Next(t.sched, e), flushing := true)
      else t.(sched := Next(t.sched, e))
  }

  ghost function Play(t: Throttle, steps: seq<Step>): Throttle
    decreases |steps|
  {
    if steps == [] then t else Play(Apply(t, steps[0]), steps[1..])
  }

  ghost predicate Spaced(times: seq<int>) {
    forall i, k :: 0 <= i < k < |times| ==> times[i] + MIN_INTERVAL * (k - i) <= times[k]
  }

  /** The trailing send is due no earlier than one interval after the last one. */
  ghost predicate Armed(t: Throttle) {
    && (t.pending ==>
          && t.flush < |t.sched.tasks|
          && !t.sched.tasks[t.flush].repeated
          && t.sched.tasks[t.flush].origin >= t.lastSent + MIN_INTERVAL
          && t.flush !in t.sched.cancelled)
    && (t.flushing ==> t.pending && t.lastSent + MIN_INTERVAL <= t.sched.now)
  }

  ghost predicate Stranded(t: Throttle) {
    t.pending && !t.flushing && !HasEntry(t.sched, t.flush)
  }

  ghost predicate Accounted(t: Throttle) {
    t.shown == t.flags || t.owing != {} || t.callers > 0 || t.pending
  }

  /** Every send is broadcast at most once, no earlier than it was decided. */
  ghost predicate Stamped(t: Throttle) {
    && (forall i :: i in t.owing <==> 0 <= i < |t.decided| && i !in t.emitted)
    && (forall i :: i in t.emitted ==> i < |t.decided| && t.decided[i] <= t.emitted[i] <= t.sched.now)
    && (forall i :: 0 <= i < |t.decided| ==> t.decided[i] <= t.sched.now)
  }

  ghost predicate Sound(t: Throttle) {
    && Inv(t.sched) && Armed(t) && Spaced(t.decided) && Stamped(t)
    && (t.decided != [] ==> t.decided[|t.decided| - 1] == t.lastSent)
  }

  ghost predicate Good(t: Throttle) {
    Sound(t) && Accounted(t)
  }

  lemma SpacedAppend(times: seq<int>, at: int)
    requires Spaced(times)
    requires times != [] ==> times[|times| - 1] + MIN_INTERVAL <= at
    ensures Spaced(times + [at])
  {
    var more := times + [at];
    forall i, k | 0 <= i < k < |more| ensures more[i] + MIN_INTERVAL * (k - i) <= more[k] {
      if k == |times| && i < |times| - 1 {
        assert times[i] + MIN_INTERVAL * (|times| - 1 - i) <= times[|times| - 1];
      }
    }
  }

  /** The scheduler's own invariant is what makes a firing trailing send punctual. */
  lemma FiresOnTime(t: Throttle, e: Event)
    requires Inv(t.sched) && Armed(t) && Fires(t, e)
    ensures t.lastSent + MIN_INTERVAL <= t.sched.now
  {
    var job := t.sched.batch[0];
    assert job in Items(t.sched.batch) && job in Items(t.sched.submitted);
    assert OnGrid(t.sched, job);
  }

  lemma ArmedStep(t: Throttle, e: Event)
    requires Inv(t.sched) && Armed(t) && !Blocked(t, e)
    ensures Armed(t.(sched := Next(t.sched, e))) && t.sched.now <= Next(t.sched, e).now
  {}

  lemma DecideKeeps(t: Throttle, at: int)
    requires Inv(t.sched) && Spaced(t.decided) && Stamped(t) && !t.pending && !t.flushing
    requires t.decided != [] ==> t.decided[|t.decided| - 1] == t.lastSent
    requires t.lastSent + MIN_INTERVAL <= at <= t.sched.now
    ensures Good(Decide(t, at))
  {
    SpacedAppend(t.decided, at);
    assert |t.decided| in Decide(t, at).owing;
  }

  lemma DeferKeeps(t: Throttle, due: int)
    requires Sound(t) && !t.pending && t.lastSent + MIN_INTERVAL <= due
    ensures Good(t.(pending := true, flush := |t.sched.tasks|, sched := Next(t.sched, ScheduleAt(due))))
  {
    NextKeeps(t.sched, ScheduleAt(due));
    assert |t.sched.tasks| !in t.sched.cancelled;
  }

  lemma LimitKeeps(t: Throttle, read: int)
    requires Sound(t) && read <= t.sched.now
    ensures Good(Limit(t, read))
  {
    if !t.pending {
      if read - t.lastSent < MIN_INTERVAL {
        DeferKeeps(t, t.sched.now + (MIN_INTERVAL - (read - t.lastSent)));
      } else {
        DecideKeeps(t, read);
      }
    }
  }

  lemma SchedKeeps(t: Throttle, e: Event)
    requires Good(t) && !Blocked(t, e)
    ensures Good(Apply(t, Sched(e)))
  {
    NextKeeps(t.sched, e);
    ArmedStep(t, e);
    if Fires(t, e) { FiresOnTime(t, e); }
  }

  lemma SendKeeps(t: Throttle, read: int)
    requires Good(t)
    ensures Good(Apply(t, Send(read)))
  {
    if t.callers > 0 && read <= t.sched.now {
      var entered := t.(callers := t.callers - 1);
      assert Sound(entered);
      LimitKeeps(entered, read);
    }
  }

  lemma EmitKeeps(t: Throttle, send: nat)
    requires Good(t)
    ensures Good(Apply(t, Emit(send)))
  {
  }

  lemma FlushKeeps(t: Throttle)
    requires Good(t) && t.flushing
    ensures Good(Apply(t, Flush))
  {
    DecideKeeps(t.(flushing := false, pending := false), t.sched.now);
  }

  lemma ApplyKeeps(t: Throttle, step: Step)
    requires Good(t)
    ensures Good(Apply(t, step))
  {
    match step
    case Send(read) => SendKeeps(t, read);
    case Emit(send) => EmitKeeps(t, send);
    case Flush => if t.flushing { FlushKeeps(t); }
    case Sched(e) => if !Blocked(t, e) { SchedKeeps(t, e); }
    case Change(_) =>
  }

  lemma {:induction false} PlayKeeps(t: Throttle, steps: seq<Step>)
    requires Good(t)
    ensures Good(Play(t, steps))
    decreases |steps|
  {
    if steps != [] {
      ApplyKeeps(t, steps[0]);
      PlayKeeps(Apply(t, steps[0]), steps[1..]);
    }
  }

  /** On every run, the i-th and k-th sends are decided at least (k - i) intervals apart. */
  lemma SendsAreSpaced(now: int, epoch: int, steps: seq<Step>, i: nat, k: nat)
    requires i < k < |Play(Begin(now, epoch), steps).decided|
    ensures var sent := Play(Begin(now, epoch), steps).decided; sent[k] - sent[i] >= 250 * (k - i)
  {
    PlayKeeps(Begin(now, epoch), steps);
  }

  function CountIn(times: seq<int>, lo: int, hi: int): nat {
    if times == [] then 0
    else CountIn(times[..|times| - 1], lo, hi) + (if lo <= times[|times| - 1] <= hi then 1 else 0)
  }

  lemma {:induction false} CountShrinks(times: seq<int>, lo: int, hi: int, cap: int)
    requires forall i :: 0 <= i < |times| ==> times[i] <= cap
    requires cap <= hi
    ensures CountIn(times, lo, hi) == CountIn(times, lo, cap)
    ensures cap < lo ==> CountIn(times, lo, hi) == 0
  {
    if times != [] { CountShrinks(times[..|times| - 1], lo, hi, cap); }
  }

  lemma {:induction false} SpacedCount(times: seq<int>, lo: int, hi: int)
    requires Spaced(times)
    ensures CountIn(times, lo, hi) <= if lo <= hi then (hi - lo) / MIN_INTERVAL + 1 else 0
  {
    if times != [] {
      var init, last := times[..|times| - 1], times[|times| - 1];
      if lo <= last <= hi {
        forall i | 0 <= i < |init| ensures init[i] <= last - MIN_INTERVAL {
          assert times[i] + MIN_INTERVAL * (|init| - i) <= times[|init|];
        }
        CountShrinks(init, lo, hi, last - MIN_INTERVAL);
        SpacedCount(init, lo, last - MIN_INTERVAL);
      } else {
        SpacedCount(init, lo, hi);
      }
    }
  }

  /** A window of `width` milliseconds holds the decisions of at most width / 250 + 1 sends. */
  lemma FloodBound(now: int, epoch: int, steps: seq<Step>, from: int, width: nat)
    ensures CountIn(Play(Begin(now, epoch), steps).decided, from, from + width) <= width / 250 + 1
  {
    PlayKeeps(Begin(now, epoch), steps);
    SpacedCount(Play(Begin(now, epoch), steps).decided, from, from + width);
  }

  // ---- What a request does -------------------------------------------------------------------

  /** A caller is served at once if no send is pending and the last is an interval ago by its clock, and otherwise by a
      trailing send: the one that is pending, or a new one due an interval after the last send, later only by the time
      the caller took from reading its clock to entering. */
  lemma RequestIsServed(t: Throttle, read: int)
    requires Good(t) && t.callers > 0 && read <= t.sched.now
    ensures var n := Apply(t, Send(read));
            && n.callers == t.callers - 1
            && n.decided == (if !t.pending && t.lastSent + 250 <= read then t.decided + [read] else t.decided)
            && (n.pending <==> t.pending || read < t.lastSent + 250)
            && (t.pending ==> n.flush == t.flush && n.sched == t.sched)
            && (n.pending && !t.pending ==>
                  && HasEntry(n.sched, n.flush) && n.flush < |n.sched.tasks|
                  && n.sched.tasks[n.flush].origin == t.lastSent + 250 + (t.sched.now - read))
  {
    var due := t.sched.now + (MIN_INTERVAL - (read - t.lastSent));
    if !t.pending && read < t.lastSent + 250 {
      var job := Job(|t.sched.submitted|, due, Entry(|t.sched.tasks|, 0));
      WaitingAfterPush(t.sched.jobs, job);
      assert job in Alive(Apply(t, Send(read)).sched) && Of(job, |t.sched.tasks|);
    }
  }

  /** The scheduler goes its own way, except that the worker is busy while it is inside the trailing send, which nobody
      can cancel. */
  lemma SchedulerGoesOn(t: Throttle, e: Event)
    ensures var n := Apply(t, Sched(e));
            if (t.flushing && (e.StartNext? || e.Poll? || e.Start?))
               || (t.pending && (e == Cancel(t.flush) || e == Reset(t.flush)))
            then n == t else n.sched == Next(t.sched, e) && n.pending == t.pending && n.decided == t.decided
  {
  }

  /** The trailing send is entered exactly when the worker starts it. */
  lemma TrailingSendStartsIff(now: int, epoch: int, steps: seq<Step>, e: Event)
    ensures var t, n := Play(Begin(now, epoch), steps), Apply(Play(Begin(now, epoch), steps), Sched(e));
            n.flushing <==>
              t.flushing || (e.StartNext? && t.pending && t.sched.batch != [] && t.sched.current.Idle?
                             && Of(t.sched.batch[0], t.flush))
  {
    var t := Play(Begin(now, epoch), steps);
    PlayKeeps(Begin(now, epoch), steps);
    if t.pending && t.sched.batch != [] && Of(t.sched.batch[0], t.flush) {
      assert Live(t.sched, t.sched.batch[0].work);
    }
  }

  /** Read off the steps alone: the time, and what the flags were last changed to. */
  datatype Record = Record(clock: int, flags: nat)

  function NoteAll(r: Record, steps: seq<Step>): Record
    decreases |steps|
  {
    if steps == [] then r
    else
      match steps[0]
      case Change(flags) => NoteAll(r.(flags := flags), steps[1..])
      case Sched(e) => NoteAll(if e.Tick? && r.clock < e.to then r.(clock := e.to) else r, steps[1..])
      case _ => NoteAll(r, steps[1..])
  }

  lemma {:induction false} RecordsAgree(t: Throttle, steps: seq<Step>)
    ensures var n, r := Play(t, steps), NoteAll(Record(t.sched.now, t.flags), steps);
            n.sched.now == r.clock && n.flags == r.flags
    decreases |steps|
  {
    if steps != [] {
      if steps[0].Sched? { RunningIff(t.sched, steps[0].e); }
      RecordsAgree(Apply(t, steps[0]), steps[1..]);
    }
  }

  /** A decided send that goes out shows what the flags were last changed to, now. */
  lemma BroadcastShowsTheLatest(now: int, epoch: int, steps: seq<Step>, send: nat)
    requires send in Play(Begin(now, epoch), steps).owing
    ensures var n, r := Apply(Play(Begin(now, epoch), steps), Emit(send)), NoteAll(Record(now, 0), steps);
            n.shown == n.flags == r.flags && send in n.emitted && n.emitted[send] == r.clock && send !in n.owing
  {
    RecordsAgree(Begin(now, epoch), steps);
  }

  /** Once the worker's next job is the trailing send, starting it and taking the lock decides one send, now. */
  lemma TrailingSendFires(now: int, epoch: int, steps: seq<Step>)
    requires var t := Play(Begin(now, epoch), steps);
             && t.pending && !t.flushing && t.sched.batch != [] && t.sched.current.Idle?
             && Of(t.sched.batch[0], t.flush)
    ensures var t := Play(Begin(now, epoch), steps);
            var n := Apply(Apply(t, Sched(StartNext)), Flush);
            && n.decided == t.decided + [t.sched.now] && n.owing == t.owing + {|t.decided|}
            && !n.pending && !n.flushing && n.lastSent == t.sched.now
  {
    var t := Play(Begin(now, epoch), steps);
    PlayKeeps(Begin(now, epoch), steps);
    assert Fires(t, StartNext) by { assert Live(t.sched, t.sched.batch[0].work); }
  }

  // ---- Broadcasts ----------------------------------------------------------------------------

  /** Every broadcast goes out at most `delay` after it was decided. */
  ghost predicate Prompt(t: Throttle, delay: int) {
    forall i :: i in t.emitted && i < |t.decided| ==> t.emitted[i] <= t.decided[i] + delay
  }

  /** On every run, the i-th and k-th broadcasts are at least (k - i) intervals apart, less the longest delay between
      a decision and its broadcast. */
  lemma BroadcastsAreSpaced(now: int, epoch: int, steps: seq<Step>, delay: nat, i: nat, k: nat)
    requires var t := Play(Begin(now, epoch), steps); i < k && i in t.emitted && k in t.emitted && Prompt(t, delay)
    ensures var t := Play(Begin(now, epoch), steps); t.emitted[k] - t.emitted[i] >= 250 * (k - i) - delay
  {
    PlayKeeps(Begin(now, epoch), steps);
    SendsAreSpaced(now, epoch, steps, i, k);
  }

  function CountEmitted(emitted: map<nat, int>, n: nat, lo: int, hi: int): nat {
    if n == 0 then 0
    else CountEmitted(emitted, n - 1, lo, hi) + (if n - 1 in emitted && lo <= emitted[n - 1] <= hi then 1 else 0)
  }

  lemma {:induction false} BroadcastsFollowDecisions(t: Throttle, n: nat, lo: int, hi: int, delay: nat)
    requires Stamped(t) && Prompt(t, delay) && n <= |t.decided|
    ensures CountEmitted(t.emitted, n, lo, hi) <= CountIn(t.decided[..n], lo - delay, hi)
    decreases n
  {
    if n > 0 {
      assert t.decided[..n][..n - 1] == t.decided[..n - 1];
      BroadcastsFollowDecisions(t, n - 1, lo, hi, delay);
    }
  }

  /** A window of `width` milliseconds holds at most (width + delay) / 250 + 1 broadcasts. */
  lemma BroadcastBound(now: int, epoch: int, steps: seq<Step>, delay: nat, from: int, width: nat)
    requires Prompt(Play(Begin(now, epoch), steps), delay)
    ensures var t := Play(Begin(now, epoch), steps);
            CountEmitted(t.emitted, |t.decided|, from, from + width) <= (width + delay) / 250 + 1
  {
    var t := Play(Begin(now, epoch), steps);
    PlayKeeps(Begin(now, epoch), steps);
    BroadcastsFollowDecisions(t, |t.decided|, from, from + width, delay);
    assert t.decided[..|t.decided|] == t.decided;
    SpacedCount(t.decided, from - delay, from + width);
  }

  /** One change sent at once and one trailing; the first broadcast is held up for `delay`. */
  function HeldUp(delay: int): seq<Step> {
    [Change(1), Send(0), Change(2), Send(0)]
    + ([Sched(Tick(delay)), Emit(0), Sched(Tick(250)), Sched(Poll)] + ([Sched(StartNext), Flush, Emit(1)] + []))
  }

  /** The delay counts in full: for every delay up to one interval there is a run with two broadcasts exactly that much
      closer than an interval. At 250 ms both go out at one instant. */
  lemma DelayBunches(delay: int)
    requires 0 <= delay <= 250
    ensures var t := Play(Begin(0, -250), HeldUp(delay));
            Prompt(t, delay) && t.emitted == map[0 := delay, 1 := 250]
  {
    var last := [Sched(StartNext), Flush, Emit(1)] + [];
    var middle := [Sched(Tick(delay)), Emit(0), Sched(Tick(250)), Sched(Poll)] + last;
    PlayFour(Begin(0, -250), Change(1), Send(0), Change(2), Send(0), middle);
    var t := TwoChanges();
    PlayFour(t, Sched(Tick(delay)), Emit(0), Sched(Tick(250)), Sched(Poll), last);
    var u := FirstHeldUp(t, delay);
    PlayThree(u, Sched(StartNext), Flush, Emit(1), []);
    TrailingGoesOut(u);
  }

  /** The first change is decided at 0, the second waits for the trailing send at 250. */
  ghost predicate Waits(t: Throttle) {
    && t.pending && !t.flushing && t.flush == 0 && t.decided == [0] && t.sched.tasks == [TaskInfo(250, 0, false)]
    && t.sched.current.Idle? && t.sched.cancelled == {} && t.sched.emptied == {} && t.sched.running
  }

  lemma TwoChanges() returns (t: Throttle)
    ensures t == Apply(Apply(Apply(Apply(Begin(0, -250), Change(1)), Send(0)), Change(2)), Send(0))
    ensures Waits(t) && t.owing == {0} && t.emitted == map[] && t.sched.now == 0 && t.sched.batch == []
    ensures t.sched.jobs == map[250 := [Job(0, 250, Entry(0, 0))]]
  {
    var a := Apply(Begin(0, -250), Change(1));
    var b := Apply(a, Send(0));
    assert b.decided == [0] && b.owing == {0} && b.lastSent == 0 && b.callers == 0;
    var c := Apply(b, Change(2));
    t := Apply(c, Send(0));
    assert [] + [Job(0, 250, Entry(0, 0))] == [Job(0, 250, Entry(0, 0))];
  }

  lemma FirstHeldUp(t: Throttle, delay: int) returns (u: Throttle)
    requires Waits(t) && t.owing == {0} && t.emitted == map[] && t.sched.now == 0 && t.sched.batch == []
    requires t.sched.jobs == map[250 := [Job(0, 250, Entry(0, 0))]] && 0 <= delay <= 250
    ensures u == Apply(Apply(Apply(Apply(t, Sched(Tick(delay))), Emit(0)), Sched(Tick(250))), Sched(Poll))
    ensures Waits(u) && u.owing == {} && u.emitted == map[0 := delay] && u.sched.now == 250
    ensures u.sched.batch == [Job(0, 250, Entry(0, 0))]
  {
    var a := Apply(t, Sched(Tick(delay)));
    var b := Apply(a, Emit(0));
    var c := Apply(b, Sched(Tick(250)));
    assert c.sched.jobs == t.sched.jobs && c.sched.now == 250;
    assert 250 in c.sched.jobs.Keys;
    assert Earliest(c.sched.jobs.Keys) == 250;
    u := Apply(c, Sched(Poll));
  }

  lemma TrailingGoesOut(u: Throttle)
    requires Waits(u) && u.owing == {} && u.sched.now == 250 && u.sched.batch == [Job(0, 250, Entry(0, 0))]
    ensures var t := Apply(Apply(Apply(u, Sched(StartNext)), Flush), Emit(1));
            t.decided == [0, 250] && t.emitted == u.emitted[1 := 250]
  {
    var a := Apply(u, Sched(StartNext));
    assert Fires(u, StartNext);
    assert a.flushing && a.sched.now == 250 && a.decided == [0];
    var b := Apply(a, Flush);
    assert b.owing == {1} && b.decided == [0, 250];
  }

  lemma PlayOne(t: Throttle, a: Step, rest: seq<Step>)
    ensures Play(t, [a] + rest) == Play(Apply(t, a), rest)
  {
    assert ([a] + rest)[1..] == rest;
  }

  lemma PlayThree(t: Throttle, a: Step, b: Step, c: Step, rest: seq<Step>)
    ensures Play(t, [a, b, c] + rest) == Play(Apply(Apply(Apply(t, a), b), c), rest)
  {
    PlayOne(t, a, [b, c] + rest);
    PlayOne(Apply(t, a), b, [c] + rest);
    PlayOne(Apply(Apply(t, a), b), c, rest);
    assert [a, b, c] + rest == [a] + ([b, c] + rest) && [b, c] + rest == [b] + ([c] + rest);
  }

  lemma PlayFour(t: Throttle, a: Step, b: Step, c: Step, d: Step, rest: seq<Step>)
    ensures Play(t, [a, b, c, d] + rest) == Play(Apply(Apply(Apply(Apply(t, a), b), c), d), rest)
  {
    PlayOne(t, a, [b, c, d] + rest);
    PlayThree(Apply(t, a), b, c, d, rest);
    assert [a, b, c, d] + rest == [a] + ([b, c, d] + rest);
  }

  // ---- No update is lost -------------------------------------------------------------------

  lemma StrandedStep(t: Throttle, step: Step)
    requires Good(t) && Stranded(t)
    ensures var n := Apply(t, step); Stranded(n) && n.decided == t.decided && n.flush == t.flush
  {
    var n := Apply(t, step);
    if step.Sched? && n != t {
      var e := step.e;
      EntryComesFrom(t.sched, e, t.flush);
    }
  }

  lemma {:induction false} StrandedForever(t: Throttle, steps: seq<Step>)
    requires Good(t) && Stranded(t)
    ensures var n := Play(t, steps); Stranded(n) && n.decided == t.decided
    decreases |steps|
  {
    if steps != [] {
      ApplyKeeps(t, steps[0]);
      StrandedStep(t, steps[0]);
      StrandedForever(Apply(t, steps[0]), steps[1..]);
    }
  }

  /** Only stopping the scheduler while the trailing send is still queued can strand it. */
  lemma StrandedOnlyByStop(t: Throttle, step: Step)
    requires Good(t) && !Stranded(t)
    ensures Stranded(Apply(t, step)) <==>
            && step == Sched(Stop) && t.pending && !t.flushing
            && forall a :: a in Items(t.sched.batch) ==> !Of(a, t.flush)
  {
    var n := Apply(t, step);
    if step.Send? && n.pending && !t.pending && n != t {
      var due := t.sched.now + (MIN_INTERVAL - (step.read - t.lastSent));
      var job := Job(|t.sched.submitted|, due, Entry(|t.sched.tasks|, 0));
      WaitingAfterPush(t.sched.jobs, job);
      assert job in Alive(n.sched) && Of(job, n.flush);
    } else if step.Sched? && t.pending && !t.flushing && n != t && !Fires(t, step.e) {
      var a :| a in Alive(t.sched) && Of(a, t.flush);
      StillThere(t, step.e, a);
    }
  }

  lemma StillThere(t: Throttle, e: Event, a: Job)
    requires Good(t) && t.pending && !t.flushing && a in Alive(t.sched) && Of(a, t.flush) && !Fires(t, e)
    ensures HasEntry(Next(t.sched, e), t.flush) <==> !(e.Stop? && a in Waiting(t.sched.jobs))
    ensures a in Waiting(t.sched.jobs) <==> forall b :: b in Items(t.sched.batch) ==> !Of(b, t.flush)
  {
    var s, n := t.sched, Next(t.sched, e);
    assert a in Items(s.batch) ==> a !in Waiting(s.jobs);
    assert !s.current.Idle? ==> !Of(s.current.job, t.flush);
    if e.Stop? {
      assert Waiting(n.jobs) == {};
      if a in Items(s.batch) { assert a in Alive(n); }
    } else {
      AliveStays(s, e, a);
      assert a in Alive(n);
    }
  }

  /** No update is lost: in every reachable state the flags last shown are the current ones, or a broadcast
      is on its way, or a trailing send is still queued — unless a stop of the scheduler has stranded that
      trailing send, after which no run sends anything ever again. */
  lemma NoUpdateIsLost(now: int, epoch: int, steps: seq<Step>)
    ensures var t := Play(Begin(now, epoch), steps);
            || t.shown == NoteAll(Record(now, 0), steps).flags || t.owing != {} || t.callers > 0 || t.flushing
            || (t.pending && HasEntry(t.sched, t.flush))
            || (t.pending && forall more :: Play(t, more).decided == t.decided)
  {
    var t := Play(Begin(now, epoch), steps);
    PlayKeeps(Begin(now, epoch), steps);
    RecordsAgree(Begin(now, epoch), steps);
    if Stranded(t) {
      forall more ensures Play(t, more).decided == t.decided { StrandedForever(t, more); }
    }
  }

  // ---- The object ----------------------------------------------------------------------------

  /** The threads between two locks, and what they have done, are ghost. */
  class Limiter {
    const executor: Executor
    var lastSent: int
    var pending: bool
    var flags: nat
    var shown: nat
    ghost var flush: nat
    ghost var flushing: bool
    ghost var callers: nat
    ghost var owing: set<nat>
    ghost var decided: seq<int>
    ghost var emitted: map<nat, int>

    ghost function Model(): Throttle
      reads this, executor
    {
      Throttle(executor.Model(), lastSent, pending, flush, flushing, flags, shown, callers, owing, decided, emitted)
    }

    ghost predicate Valid()
      reads this, executor
    {
      Good(Model())
    }

    constructor (executor: Executor, now: int, epoch: int)
      requires executor.Model() == Scheduler.Init(now)
      ensures Model() == Begin(now, epoch) && this.executor == executor && Valid()
    {
      this.executor := executor;
      lastSent, pending, flush, flushing := epoch, false, 0, false;
      flags, shown, callers, owing, decided, emitted := 0, 0, 0, {}, [], map[];
    }

    method UpdateVoiceActivity(newFlags: nat)
      requires Valid()
      modifies this
      ensures Model() == Apply(old(Model()), Change(newFlags)) && Valid()
    {
      ApplyKeeps(Model(), Change(newFlags));
      flags := newFlags;
      callers := callers + 1;
    }

    method Defer(delay: int)
      requires executor.Valid()
      modifies this`pending, this`flush, executor
      ensures Model() == old(Model()).(pending := true, flush := |old(Model()).sched.tasks|,
                                       sched := Next(old(Model()).sched, ScheduleAt(old(executor.clock) + delay)))
    {
      pending := true;
      var task := executor.ScheduleIn(executor.clock, delay);
      flush := task;
    }

    /** Under the lock: leave it to the pending trailing send, schedule one, or decide to send at once. */
    method RateLimit(read: int)
      requires executor.Valid() && read <= executor.clock
      modifies this, executor
      ensures Model() == Limit(old(Model()), read)
    {
      if pending {
        return;
      }
      var elapsed := read - lastSent;
      if elapsed < MIN_INTERVAL {
        Defer(MIN_INTERVAL - elapsed);
        return;
      }
      lastSent := read;
      owing := owing + {|decided|};
      decided := decided + [read];
    }

    method SendVoiceActivity(read: int)
      requires Valid() && callers > 0 && read <= executor.clock
      modifies this, executor
      ensures Model() == Apply(old(Model()), Send(read)) && Valid()
    {
      ApplyKeeps(Model(), Send(read));
      callers := callers - 1;
      RateLimit(read);
    }

    /** The worker takes the trailing send out of the queue. */
    method StartFlush()
      requires Valid() && Fires(Model(), StartNext)
      modifies this, executor
      ensures Model() == Apply(old(Model()), Sched(StartNext)) && Valid()
    {
      ApplyKeeps(Model(), Sched(StartNext));
      executor.StartJob();
      flushing := true;
    }

    /** The trailing edge, under the lock. */
    method FlushVoiceActivity()
      requires Valid() && flushing
      modifies this
      ensures Model() == Apply(old(Model()), Flush) && Valid()
    {
      ApplyKeeps(Model(), Flush);
      flushing := false;
      pending := false;
      lastSent := executor.clock;
      owing := owing + {|decided|};
      decided := decided + [executor.clock];
    }

    method DoSendVoiceActivity(ghost send: nat)
      requires Valid() && send in owing
      modifies this
      ensures Model() == Apply(old(Model()), Emit(send)) && Valid()
    {
      ApplyKeeps(Model(), Emit(send));
      shown := flags;
      owing := owing - {send};
      emitted := emitted[send := executor.clock];
    }
  }
}
