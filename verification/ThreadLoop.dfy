/** ThreadLoop: a restartable worker thread shared between its owner and the worker's main loop. Every point at which
    the worker reads or writes the shared state is a separate step, so that runs interleave freely with the owner's
    calls; only a test for RUNNING and the store of STOPPING that follows it are one step. */
module ThreadLoop {
  import opened Options

  datatype RunState = Ready | Running | Stopping

  datatype Place = InSetup | AtTest | InProcess | InCleanup | AtTail | AtSignal | Ending | Gone

  /** How the guarded part of the main loop ended. */
  datatype Fate = Pending | SetupFailed | SetupThrew | ProcessThrew | CleanupThrew | Clean

  datatype Worker = Worker(place: Place, fate: Fate, processed: nat, cleanups: nat, detached: bool)

  /** What the call holding the owner's lock is waiting for. */
  datatype Call = Idle | Starting | Joining | Timing | Timed

  /** `crashed` is the program's termination by assigning over a joinable thread; `overlapped` records that a worker
      was launched while an earlier one had not yet signalled its end. */
  datatype State = State(
    run: RunState, done: bool, handle: Option<nat>, workers: seq<Worker>, call: Call, crashed: bool, overlapped: bool)

  datatype Event =
    | Start(caller: Option<nat>) | Stop | Join(caller: Option<nat>)
    | JoinFor(caller: Option<nat>) | Wait(caller: Option<nat>)
    | Wake | DoneSeen | TimedOut
    | SetupReturned(w: nat, ok: bool) | Test(w: nat) | ProcessReturned(w: nat) | CleanupReturned(w: nat)
    | Threw(w: nat) | CloseRun(w: nat) | Signal(w: nat) | End(w: nat)

  const INITIAL := State(Ready, true, None, [], Idle, false, false)

  predicate Live(w: Worker) {
    w.place != Ending && w.place != Gone
  }

  predicate InCallback(w: Worker) {
    w.place == InSetup || w.place == InProcess || w.place == InCleanup
  }

  // ---- The owner's calls -----------------------------------------------------------------------

  function StopRun(s: State): State {
    if s.run == Running then s.(run := Stopping) else s
  }

  function Launch(s: State): State {
    if s.handle.Some? then s.(crashed := true)
    else
      s.(run := Running, done := false, handle := Some(|s.workers|), call := Idle,
         workers := s.workers + [Worker(InSetup, Pending, 0, 0, false)],
         overlapped := s.overlapped || exists i :: 0 <= i < |s.workers| && Live(s.workers[i]))
  }

  function Detach(s: State): State
    requires s.handle.Some? && s.handle.value < |s.workers|
  {
    var w := s.handle.value;
    s.(handle := None, call := Idle, workers := s.workers[w := s.workers[w].(detached := true)])
  }

  predicate Held(s: State) {
    s.handle.Some? && s.handle.value < |s.workers|
  }

  /** A call may come from outside or from inside one of a worker's callbacks. */
  predicate CanCall(s: State, caller: Option<nat>) {
    s.call == Idle && (caller.Some? ==> caller.value < |s.workers| && InCallback(s.workers[caller.value]))
  }

  /** joinThread: a worker that joins itself is detached instead. */
  function JoinThread(s: State, caller: Option<nat>, waiting: Call): State {
    if !Held(s) then s
    else if caller == s.handle then Detach(s)
    else s.(call := waiting)
  }

  function StartCall(s: State, caller: Option<nat>): State {
    if s.run == Running then s
    else if s.run == Stopping && Held(s) then
      var joined := JoinThread(s, caller, Starting);
      if joined.call == Starting then joined else Launch(joined)
    else Launch(s)
  }

  function WakeCall(s: State): State {
    if Held(s) && s.workers[s.handle.value].place == Gone then
      match s.call
      case Starting => Launch(s.(handle := None))
      case Joining => s.(handle := None, call := Idle)
      case Timed => s.(handle := None, call := Idle)
      case _ => s
    else s
  }

  // ---- The worker's main loop ------------------------------------------------------------------

  function Put(s: State, w: nat, worker: Worker): State
    requires w < |s.workers|
  {
    s.(workers := s.workers[w := worker])
  }

  function Thrown(worker: Worker): Worker {
    match worker.place
    case InSetup => worker.(place := AtTail, fate := SetupThrew)
    case InProcess => worker.(place := AtTail, fate := ProcessThrew)
    case InCleanup => worker.(place := AtTail, fate := CleanupThrew)
    case _ => worker
  }

  function Tested(worker: Worker, running: bool): Worker {
    if worker.place != AtTest then worker
    else if running then worker.(place := InProcess, processed := worker.processed + 1)
    else worker.(place := InCleanup, cleanups := worker.cleanups + 1)
  }

  /** The worker's own part of one of its steps. */
  function Moved(worker: Worker, e: Event, running: bool): Worker {
    match e
    case SetupReturned(_, ok) =>
      if worker.place != InSetup then worker
      else if ok then worker.(place := AtTest) else worker.(place := AtTail, fate := SetupFailed)
    case Test(_) => Tested(worker, running)
    case ProcessReturned(_) => if worker.place == InProcess then worker.(place := AtTest) else worker
    case CleanupReturned(_) => if worker.place == InCleanup then worker.(place := AtTail, fate := Clean) else worker
    case Threw(_) => Thrown(worker)
    case CloseRun(_) => if worker.place == AtTail then worker.(place := AtSignal) else worker
    case Signal(_) => if worker.place == AtSignal then worker.(place := Ending) else worker
    case End(_) => if worker.place == Ending then worker.(place := Gone) else worker
    case _ => worker
  }

  predicate IsWorkers(e: Event) {
    || e.SetupReturned? || e.Test? || e.ProcessReturned? || e.CleanupReturned?
    || e.Threw? || e.CloseRun? || e.Signal? || e.End?
  }

  function WorkerStep(s: State, e: Event): State
    requires IsWorkers(e)
  {
    if e.w >= |s.workers| then s
    else
      var moved := Put(s, e.w, Moved(s.workers[e.w], e, s.run == Running));
      if e.CloseRun? && s.workers[e.w].place == AtTail then StopRun(moved)
      else if e.Signal? && s.workers[e.w].place == AtSignal then moved.(done := true)
      else moved
  }

  function Apply(s: State, e: Event): State {
    if s.crashed then s
    else if IsWorkers(e) then WorkerStep(s, e)
    else
      match e
      case Start(caller) => if CanCall(s, caller) then StartCall(s, caller) else s
      case Stop => StopRun(s)
      case Join(caller) => if CanCall(s, caller) then JoinThread(StopRun(s), caller, Joining) else s
      case JoinFor(caller) => if CanCall(s, caller) then JoinThread(StopRun(s), caller, Timing) else s
      case Wait(caller) => if CanCall(s, caller) then JoinThread(s, caller, Joining) else s
      case Wake => WakeCall(s)
      case DoneSeen => if s.call == Timing && s.done then s.(call := Timed) else s
      case TimedOut => if s.call == Timing && !s.done && Held(s) then Detach(s) else s
  }

  function Play(s: State, events: seq<Event>): State
    decreases |events|
  {
    if events == [] then s else Play(Apply(s, events[0]), events[1..])
  }

  // ---- The invariant -----------------------------------------------------------------------------

  predicate WorkerOk(w: Worker) {
    match w.place
    case InSetup => w.fate == Pending && w.cleanups == 0 && w.processed == 0
    case AtTest => w.fate == Pending && w.cleanups == 0
    case InProcess => w.fate == Pending && w.cleanups == 0 && w.processed > 0
    case InCleanup => w.fate == Pending && w.cleanups == 1
    case _ =>
      && w.fate != Pending
      && w.cleanups == (if w.fate == Clean || w.fate == CleanupThrew then 1 else 0)
      && (w.fate == SetupFailed || w.fate == SetupThrew ==> w.processed == 0)
      && (w.fate == ProcessThrew ==> w.processed > 0)
  }

  /** Only the newest worker can be held. */
  predicate Shape(s: State) {
    && !s.crashed
    && (s.handle.Some? ==> s.handle.value == |s.workers| - 1 && !s.workers[s.handle.value].detached)
    && (s.call != Idle ==> s.handle.Some?)
    && (s.run == Ready ==> s.workers == [])
  }

  predicate AllOk(s: State) {
    forall i :: 0 <= i < |s.workers| ==> WorkerOk(s.workers[i])
  }

  /** A worker that is neither held nor detached has been joined. */
  predicate Owned(s: State) {
    && (forall i :: 0 <= i < |s.workers| ==> s.handle == Some(i) || s.workers[i].detached || s.workers[i].place == Gone)
    && (s.overlapped ==> exists i :: 0 <= i < |s.workers| && s.workers[i].detached)
  }

  predicate Past(w: Worker) {
    w.place == AtSignal || w.place == Ending || w.place == Gone
  }

  /** Without an overlap the shared flags describe the newest worker. */
  predicate Single(s: State) {
    !s.overlapped ==>
      && (forall i :: 0 <= i < |s.workers| - 1 ==> !Live(s.workers[i]))
      && (s.done <==> s.workers == [] || !Live(s.workers[|s.workers| - 1]))
      && (s.run == Running ==> s.workers != [] && !Past(s.workers[|s.workers| - 1]))
      && (s.call == Timed ==> s.done)
  }

  predicate Inv(s: State) {
    Shape(s) && AllOk(s) && Owned(s) && Single(s)
  }

  lemma LaunchKeeps(s: State)
    requires s.handle == None && Inv(s.(call := Idle))
    ensures Inv(Launch(s))
  {
    var t := Launch(s);
    if t.overlapped && !s.overlapped {
      var i :| 0 <= i < |s.workers| && Live(s.workers[i]);
      assert t.workers[i].detached;
    } else if t.overlapped {
      var i :| 0 <= i < |s.workers| && s.workers[i].detached;
      assert t.workers[i].detached;
    }
  }

  lemma DetachKeeps(s: State)
    requires Inv(s) && Held(s)
    ensures Inv(Detach(s))
  {
    var t, w := Detach(s), s.handle.value;
    assert t.workers[w].detached && WorkerOk(t.workers[w]) by { assert WorkerOk(s.workers[w]); }
  }

  lemma JoinThreadKeeps(s: State, caller: Option<nat>, waiting: Call)
    requires Inv(s) && s.call == Idle && waiting != Timed
    ensures Inv(JoinThread(s, caller, waiting))
  {
    if Held(s) && caller == s.handle { DetachKeeps(s); }
  }

  lemma StartKeeps(s: State, caller: Option<nat>)
    requires Inv(s) && s.call == Idle
    ensures Inv(StartCall(s, caller))
  {
    if s.run == Stopping && Held(s) {
      JoinThreadKeeps(s, caller, Starting);
      if caller == s.handle { LaunchKeeps(Detach(s)); }
    } else if s.run != Running {
      LaunchKeeps(s);
    }
  }

  /** Dropping the handle of a worker that is gone. */
  lemma JoinedKeeps(s: State)
    requires Inv(s) && Held(s) && s.workers[s.handle.value].place == Gone
    ensures Inv(s.(handle := None, call := Idle))
  {
  }

  lemma WakeKeeps(s: State)
    requires Inv(s)
    ensures Inv(WakeCall(s))
  {
    if Held(s) && s.workers[s.handle.value].place == Gone {
      JoinedKeeps(s);
      if s.call == Starting {
        assert s.(handle := None).(call := Idle) == s.(handle := None, call := Idle);
        LaunchKeeps(s.(handle := None));
      }
    }
  }

  lemma MovedKeeps(w: Worker, e: Event, running: bool)
    requires WorkerOk(w) && IsWorkers(e)
    ensures WorkerOk(Moved(w, e, running)) && Moved(w, e, running).detached == w.detached
    ensures !Live(w) ==> !Live(Moved(w, e, running))
    ensures w.place == Gone ==> Moved(w, e, running).place == Gone
    ensures Live(w) && !(e.Signal? && w.place == AtSignal) ==> Live(Moved(w, e, running))
    ensures !Past(w) && !(e.CloseRun? && w.place == AtTail) ==> !Past(Moved(w, e, running))
  {
  }

  lemma WorkerStepShape(s: State, e: Event)
    requires Shape(s) && AllOk(s) && IsWorkers(e) && e.w < |s.workers|
    ensures var t := WorkerStep(s, e); Shape(t) && AllOk(t)
  {
    MovedKeeps(s.workers[e.w], e, s.run == Running);
  }

  lemma WorkerStepOwned(s: State, e: Event)
    requires AllOk(s) && Owned(s) && IsWorkers(e) && e.w < |s.workers|
    ensures Owned(WorkerStep(s, e))
  {
    var t := WorkerStep(s, e);
    MovedKeeps(s.workers[e.w], e, s.run == Running);
    if s.overlapped {
      var i :| 0 <= i < |s.workers| && s.workers[i].detached;
      assert t.workers[i].detached;
    }
  }

  lemma WorkerStepSingle(s: State, e: Event)
    requires IsWorkers(e) && e.w < |s.workers| && WorkerOk(s.workers[e.w]) && Single(s)
    ensures Single(WorkerStep(s, e))
  {
    MovedKeeps(s.workers[e.w], e, s.run == Running);
  }

  lemma WorkerStepKeeps(s: State, e: Event)
    requires Inv(s) && IsWorkers(e)
    ensures Inv(WorkerStep(s, e))
  {
    if e.w < |s.workers| {
      WorkerStepShape(s, e);
      WorkerStepOwned(s, e);
      WorkerStepSingle(s, e);
    }
  }

  lemma FlagsKeep(s: State)
    requires Inv(s)
    ensures Inv(StopRun(s)) && (s.call == Timing && s.done ==> Inv(s.(call := Timed)))
  {
  }

  lemma ApplyKeeps(s: State, e: Event)
    requires Inv(s)
    ensures Inv(Apply(s, e))
  {
    if IsWorkers(e) {
      WorkerStepKeeps(s, e);
    } else {
      FlagsKeep(s);
      match e
      case Start(caller) => if CanCall(s, caller) { StartKeeps(s, caller); }
      case Join(caller) => if CanCall(s, caller) { JoinThreadKeeps(StopRun(s), caller, Joining); }
      case JoinFor(caller) => if CanCall(s, caller) { JoinThreadKeeps(StopRun(s), caller, Timing); }
      case Wait(caller) => if CanCall(s, caller) { JoinThreadKeeps(s, caller, Joining); }
      case Wake => WakeKeeps(s);
      case TimedOut => if Held(s) { DetachKeeps(s); }
      case _ =>
    }
  }

  lemma {:induction false} PlayKeeps(s: State, events: seq<Event>)
    requires Inv(s)
    ensures Inv(Play(s, events))
    decreases |events|
  {
    if events != [] {
      ApplyKeeps(s, events[0]);
      PlayKeeps(Apply(s, events[0]), events[1..]);
    }
  }

  // ---- Main results --------------------------------------------------------------------------------

  /** No run assigns a new thread over one that is still joinable, which would end the program. */
  lemma NeverAssignsOverAThread(events: seq<Event>)
    ensures !Play(INITIAL, events).crashed
  {
    PlayKeeps(INITIAL, events);
  }

  /** Unless a worker was launched beside a live one, at most one worker is ever live, the done flag says whether the
      newest has ended, and RUNNING means that a worker has yet to close the run. */
  lemma OneLiveWorker(events: seq<Event>)
    requires !Play(INITIAL, events).overlapped
    ensures var s := Play(INITIAL, events);
            && (forall i, j :: 0 <= i < j < |s.workers| ==> !Live(s.workers[i]) || !Live(s.workers[j]))
            && (s.done <==> forall i :: 0 <= i < |s.workers| ==> !Live(s.workers[i]))
            && (s.run == Running ==> exists i :: 0 <= i < |s.workers| && !Past(s.workers[i]))
  {
    PlayKeeps(INITIAL, events);
    var s := Play(INITIAL, events);
    if s.workers != [] { assert s.workers[|s.workers| - 1] in s.workers; }
  }

  /** Only a detached worker can ever be overlapped: a program whose joins never time out and never come from the
      worker itself has at most one worker, and every worker but the one that is held has gone. */
  lemma WithoutDetachNoOverlap(events: seq<Event>)
    ensures var s := Play(INITIAL, events);
            (forall i :: 0 <= i < |s.workers| ==> !s.workers[i].detached) ==>
              && !s.overlapped
              && forall i :: 0 <= i < |s.workers| && s.handle != Some(i) ==> s.workers[i].place == Gone
  {
    PlayKeeps(INITIAL, events);
  }

  // ---- One worker along a run --------------------------------------------------------------------

  /** The guarded part of the worker is over. */
  predicate Tail(w: Worker) {
    w.place == AtTail || Past(w)
  }

  lemma TailStep(s: State, e: Event, k: nat)
    requires Shape(s) && k < |s.workers| && Tail(s.workers[k])
    ensures var t := Apply(s, e);
            && k < |t.workers| && Tail(t.workers[k])
            && t.workers[k].processed == s.workers[k].processed && t.workers[k].cleanups == s.workers[k].cleanups
  {
    if IsWorkers(e) { MovedTail(s.workers[k], e, s.run == Running); } else { OwnerStep(s, e, k); }
  }

  lemma MovedTail(w: Worker, e: Event, running: bool)
    requires Tail(w)
    ensures var m := Moved(w, e, running); Tail(m) && m.processed == w.processed && m.cleanups == w.cleanups
  {
  }

  /** The owner's calls only ever detach a worker, or launch another. */
  lemma OwnerStep(s: State, e: Event, k: nat)
    requires Shape(s) && k < |s.workers| && !IsWorkers(e)
    ensures var t := Apply(s, e);
            k < |t.workers| && t.workers[k].(detached := true) == s.workers[k].(detached := true)
  {
    if e.Start? && CanCall(s, e.caller) {
      OwnerStart(s, e.caller, k);
    } else if e.Wake? {
      OwnerWake(s, k);
    }
  }

  lemma OwnerStart(s: State, caller: Option<nat>, k: nat)
    requires Shape(s) && k < |s.workers|
    ensures var t := StartCall(s, caller);
            k < |t.workers| && t.workers[k].(detached := true) == s.workers[k].(detached := true)
  {
  }

  lemma OwnerWake(s: State, k: nat)
    requires Shape(s) && k < |s.workers|
    ensures var t := WakeCall(s); k < |t.workers| && t.workers[k] == s.workers[k]
  {
  }

  lemma {:induction false} TailRun(s: State, events: seq<Event>, k: nat)
    requires Inv(s) && k < |s.workers| && Tail(s.workers[k])
    ensures var t := Play(s, events);
            && k < |t.workers| && Tail(t.workers[k])
            && t.workers[k].processed == s.workers[k].processed && t.workers[k].cleanups == s.workers[k].cleanups
    decreases |events|
  {
    if events != [] {
      ApplyKeeps(s, events[0]);
      TailStep(s, events[0], k);
      TailRun(Apply(s, events[0]), events[1..], k);
    }
  }

  // ---- A worker's account of its callbacks -------------------------------------------------------

  /** What a worker's callbacks have answered so far: whether its setup returned true, and whether its setup or a
      process call threw. It is read off the answers, not off what the worker makes of them. */
  datatype Account = Account(setUp: bool, threw: bool)

  function Answered(w: Worker, e: Event, i: nat, a: Account): Account {
    if e == SetupReturned(i, true) && w.place == InSetup then a.(setUp := true)
    else if e == Threw(i) && (w.place == InSetup || w.place == InProcess) then a.(threw := true)
    else a
  }

  function Heard(s: State, e: Event, i: nat, a: Account): Account {
    if i < |s.workers| then Answered(s.workers[i], e, i, a) else a
  }

  function HeardAll(s: State, events: seq<Event>, i: nat, a: Account): Account
    decreases |events|
  {
    if events == [] then a else HeardAll(Apply(s, events[0]), events[1..], i, Heard(s, events[0], i, a))
  }

  predicate Tells(w: Worker, a: Account) {
    match w.place
    case InSetup => a == Account(false, false) && w.processed == 0 && w.cleanups == 0
    case AtTest => a == Account(true, false) && w.cleanups == 0
    case InProcess => a == Account(true, false) && w.cleanups == 0
    case InCleanup => a == Account(true, false) && w.cleanups == 1
    case _ => w.cleanups == (if a.setUp && !a.threw then 1 else 0) && (w.processed > 0 ==> a.setUp)
  }

  predicate TellsOf(s: State, i: nat, a: Account) {
    if i < |s.workers| then Tells(s.workers[i], a) else a == Account(false, false)
  }

  lemma NewcomerStep(s: State, e: Event, i: nat)
    requires Shape(s) && i >= |s.workers|
    ensures TellsOf(Apply(s, e), i, Account(false, false))
  {
  }

  lemma MovedTells(w: Worker, e: Event, i: nat, running: bool, a: Account)
    requires Tells(w, a) && IsWorkers(e) && e.w == i
    ensures Tells(Moved(w, e, running), Answered(w, e, i, a))
  {
  }

  lemma OwnStep(s: State, e: Event, i: nat, a: Account)
    requires Shape(s) && i < |s.workers| && Tells(s.workers[i], a) && IsWorkers(e)
    ensures TellsOf(Apply(s, e), i, Heard(s, e, i, a))
  {
    var n := Apply(s, e);
    if e.w == i {
      MovedTells(s.workers[i], e, i, s.run == Running, a);
      assert n.workers[i] == Moved(s.workers[i], e, s.run == Running);
    } else {
      assert n.workers[i] == s.workers[i] && Heard(s, e, i, a) == a;
    }
  }

  lemma TellsStep(s: State, e: Event, i: nat, a: Account)
    requires Shape(s) && TellsOf(s, i, a)
    ensures TellsOf(Apply(s, e), i, Heard(s, e, i, a))
  {
    if i >= |s.workers| {
      NewcomerStep(s, e, i);
    } else if IsWorkers(e) {
      OwnStep(s, e, i, a);
    } else {
      OwnerStep(s, e, i);
      assert Tells(Apply(s, e).workers[i], a) && Heard(s, e, i, a) == a;
    }
  }

  lemma {:induction false} TellsRun(s: State, events: seq<Event>, i: nat, a: Account)
    requires Inv(s) && TellsOf(s, i, a)
    ensures TellsOf(Play(s, events), i, HeardAll(s, events, i, a))
    decreases |events|
  {
    if events == [] {
      assert Play(s, events) == s;
    } else {
      ApplyKeeps(s, events[0]);
      TellsStep(s, events[0], i, a);
      TellsRun(Apply(s, events[0]), events[1..], i, Heard(s, events[0], i, a));
    }
  }

  /** On every run the cleanup of each worker is entered at most once, and of a worker past its guarded part exactly
      once if and only if its setup returned true and neither setup nor process threw. */
  lemma CleanupAtMostOnce(events: seq<Event>, i: nat)
    requires i < |Play(INITIAL, events).workers|
    ensures var w, a := Play(INITIAL, events).workers[i], HeardAll(INITIAL, events, i, Account(false, false));
            && w.cleanups <= 1
            && (w.cleanups == 1 ==> a.setUp && !a.threw)
            && (Past(w) ==> (w.cleanups == 1 <==> a.setUp && !a.threw))
            && (w.processed > 0 ==> a.setUp)
    ensures var w := Play(INITIAL, events).workers[i];
            && (w.cleanups == 1 ==> w.fate == Pending || w.fate == Clean || w.fate == CleanupThrew)
            && (Past(w) ==> (w.cleanups == 1 <==> w.fate == Clean || w.fate == CleanupThrew))
            && (w.processed > 0 ==> w.fate != SetupFailed && w.fate != SetupThrew)
  {
    PlayKeeps(INITIAL, events);
    assert WorkerOk(Play(INITIAL, events).workers[i]);
    TellsRun(INITIAL, events, i, Account(false, false));
    assert TellsOf(Play(INITIAL, events), i, HeardAll(INITIAL, events, i, Account(false, false)));
  }

  // ---- What each callback's outcome leads to -----------------------------------------------------

  /** After a setup that failed or threw, on every continuation the worker never processes and never cleans up; after
      one that succeeded it goes on to the test. */
  lemma SetupDecides(s: State, k: nat, e: Event, more: seq<Event>)
    requires Inv(s) && k < |s.workers| && s.workers[k].place == InSetup
    requires e == SetupReturned(k, true) || e == SetupReturned(k, false) || e == Threw(k)
    ensures var n, t := Apply(s, e), Play(Apply(s, e), more);
            && k < |n.workers|
            && (if e == SetupReturned(k, true) then n.workers[k].place == AtTest
                else k < |t.workers| && t.workers[k].processed == 0 && t.workers[k].cleanups == 0)
  {
    assert WorkerOk(s.workers[k]);
    ApplyKeeps(s, e);
    if e != SetupReturned(k, true) { TailRun(Apply(s, e), more, k); }
  }

  /** At the test a worker processes once more while the loop is running, and otherwise enters cleanup, which is its
      only one. */
  lemma TestDecides(s: State, k: nat)
    requires Inv(s) && k < |s.workers| && s.workers[k].place == AtTest
    ensures var w, n := s.workers[k], Apply(s, Test(k)).workers[k];
            if s.run == Running then n.place == InProcess && n.processed == w.processed + 1 && n.cleanups == 0
            else n.place == InCleanup && n.processed == w.processed && n.cleanups == 1
  {
    assert WorkerOk(s.workers[k]);
  }

  /** A process call that returns leads back to the test; one that throws, and a cleanup however it ends, lead to no
      further process or cleanup call on any continuation. */
  lemma CallbackDecides(s: State, k: nat, e: Event, more: seq<Event>)
    requires Inv(s) && k < |s.workers| && (s.workers[k].place == InProcess || s.workers[k].place == InCleanup)
    requires e == Threw(k) || e == (if s.workers[k].place == InProcess then ProcessReturned(k) else CleanupReturned(k))
    ensures var w, n, t := s.workers[k], Apply(s, e), Play(Apply(s, e), more);
            && k < |n.workers|
            && n.workers[k].processed == w.processed && n.workers[k].cleanups == w.cleanups
            && (if e == ProcessReturned(k) then n.workers[k].place == AtTest
                else k < |t.workers| && t.workers[k].processed == w.processed && t.workers[k].cleanups == w.cleanups)
  {
    ApplyKeeps(s, e);
    if e != ProcessReturned(k) { TailRun(Apply(s, e), more, k); }
  }

  /** What is left of a worker: it closes the run if it was running, signals, and is gone. */
  lemma TailEnds(s: State, k: nat)
    requires Inv(s) && k < |s.workers| && s.workers[k].place == AtTail
    ensures var a := Apply(s, CloseRun(k));
            var b := Apply(a, Signal(k));
            var c := Apply(b, End(k));
            && a.run != Running && (s.run != Running ==> a.run == s.run) && a.done == s.done
            && b.done && !Live(b.workers[k]) && c.workers[k].place == Gone
  {
  }

  /** A start is never lost: from every state it leaves the loop running, or waits and then starts a worker. */
  lemma StartTakesEffect(s: State, caller: Option<nat>)
    requires Inv(s) && CanCall(s, caller)
    ensures var n := Apply(s, Start(caller));
            || (n.run == Running && n.handle.Some? && (s.run == Running ==> n == s) && n.call == Idle)
            || (s.run == Running && n == s)
            || (n.call == Starting && n.handle == s.handle && n.workers == s.workers)
    ensures s.run != Running && (s.handle == None || s.handle == caller) ==>
              var n := Apply(s, Start(caller));
              && n.handle == Some(|s.workers|) && |n.workers| == |s.workers| + 1
              && n.workers[|s.workers|].place == InSetup && !n.done
  {
  }

  /** Stopping, joining and timed joining end the run; waiting for completion does not. A caller then waits for the
      worker that is held, unless it is that worker, which is detached. */
  lemma StopsTheRunIff(s: State, e: Event)
    requires Inv(s) && (e.Stop? || ((e.Join? || e.JoinFor? || e.Wait?) && CanCall(s, e.caller)))
    ensures var n := Apply(s, e);
            && n.run == (if s.run == Running && !e.Wait? then Stopping else s.run)
            && (!e.Stop? && s.handle.Some? && s.handle != e.caller ==> n.call == if e.JoinFor? then Timing else Joining)
            && (!e.Stop? && s.handle.Some? && s.handle == e.caller ==>
                  n.call == Idle && n.handle == None && n.workers[s.handle.value].detached)
            && (e.Stop? || s.handle == None ==> n.call == s.call && n.handle == s.handle)
  {
  }

  /** A worker closes the run and raises the flag at its own places only. */
  lemma FlagsChangeIff(s: State, e: Event)
    requires Inv(s) && IsWorkers(e)
    ensures var n := Apply(s, e);
            && n.run == (if e.CloseRun? && e.w < |s.workers| && s.workers[e.w].place == AtTail && s.run == Running
                         then Stopping else s.run)
            && (n.done <==> s.done || (e.Signal? && e.w < |s.workers| && s.workers[e.w].place == AtSignal))
            && n.handle == s.handle && n.call == s.call && |n.workers| == |s.workers|
            && forall i :: 0 <= i < |s.workers| && i != e.w ==> n.workers[i] == s.workers[i]
  {
  }

  /** A waiting call goes on exactly when the worker it waits for has gone. */
  lemma WaitEndsIff(s: State)
    requires Inv(s) && (s.call == Joining || s.call == Timed || s.call == Starting)
    ensures var n := Apply(s, Wake);
            if s.workers[s.handle.value].place == Gone then n.call == Idle && (n.handle == None <==> s.call != Starting)
            else n == s
  {
  }

  /** A timed wait ends with a join exactly when the flag is up, also at its timeout, and with a detach otherwise. */
  lemma TimedWaitEndsIff(s: State)
    requires Inv(s) && s.call == Timing
    ensures var seen, out := Apply(s, DoneSeen), Apply(s, TimedOut);
            && (if s.done then seen.call == Timed && seen.handle == s.handle && out == s
                else seen == s && out.call == Idle && out.handle == None && out.workers[s.handle.value].detached)
  {
  }

  /** On every run a worker is only ever launched when none is held: nothing was, it has just been joined after it had
      gone, or its caller was the worker itself, now detached. */
  lemma LaunchesOverNothing(events: seq<Event>, e: Event)
    ensures var s, n := Play(INITIAL, events), Apply(Play(INITIAL, events), e);
            |n.workers| > |s.workers| ==>
              || s.handle == None
              || (s.call == Starting && s.handle.value < |s.workers| && s.workers[s.handle.value].place == Gone)
              || (e.Start? && s.handle == e.caller && s.handle.value < |n.workers|
                  && n.workers[s.handle.value].detached)
  {
    PlayKeeps(INITIAL, events);
    LaunchStep(Play(INITIAL, events), e);
  }

  lemma LaunchStep(s: State, e: Event)
    requires Shape(s)
    ensures var n := Apply(s, e);
            |n.workers| > |s.workers| ==>
              || s.handle == None
              || (s.call == Starting && s.workers[s.handle.value].place == Gone)
              || (e.Start? && s.handle == e.caller && s.handle.value < |n.workers|
                  && n.workers[s.handle.value].detached)
  {
  }

  /** On every run, when a call that waits in a join returns, no worker ever launched is left except detached ones; and
      none before the one that a waiting start goes on to launch. */
  lemma JoinReturnsAfterEveryWorker(events: seq<Event>, e: Event)
    requires var s := Play(INITIAL, events); s.call == Joining || s.call == Timed || s.call == Starting
    requires Apply(Play(INITIAL, events), e).call == Idle
    ensures var s, t := Play(INITIAL, events), Apply(Play(INITIAL, events), e);
            && |s.workers| <= |t.workers|
            && (forall i :: 0 <= i < |s.workers| ==> t.workers[i].place == Gone || t.workers[i].detached)
            && (if s.call == Starting then t.handle == Some(|s.workers|) && |t.workers| == |s.workers| + 1
                else t.handle == None && |t.workers| == |s.workers|)
  {
    PlayKeeps(INITIAL, events);
    var s := Play(INITIAL, events);
    assert e.Wake?;
    assert Apply(s, e) == WakeCall(s);
  }

  /** Without detached workers every one of them has gone. */
  lemma JoinMeansFinished(events: seq<Event>, e: Event)
    requires var s := Play(INITIAL, events);
             && (s.call == Joining || s.call == Timed)
             && forall i :: 0 <= i < |s.workers| ==> !s.workers[i].detached
    requires Apply(Play(INITIAL, events), e).call == Idle
    ensures var t := Apply(Play(INITIAL, events), e); forall i :: 0 <= i < |t.workers| ==> t.workers[i].place == Gone
  {
    JoinReturnsAfterEveryWorker(events, e);
    var s, t := Play(INITIAL, events), Apply(Play(INITIAL, events), e);
    PlayKeeps(INITIAL, events);
    assert t.workers == s.workers;
  }

  // ---- What an overlap breaks ------------------------------------------------------------------------

  /** The steps by which a worker ends after a stop, its callback throwing if it is in one. */
  function Windup(place: Place, k: nat): seq<Event> {
    match place
    case InSetup => [Threw(k), CloseRun(k), Signal(k)]
    case InProcess => [Threw(k), CloseRun(k), Signal(k)]
    case InCleanup => [Threw(k), CloseRun(k), Signal(k)]
    case AtTest => [Test(k), Threw(k), CloseRun(k), Signal(k)]
    case AtTail => [CloseRun(k), Signal(k)]
    case AtSignal => [Signal(k)]
    case _ => []
  }

  /** Worker k has signalled its end, and nothing else has happened but the end of the run. */
  predicate Signalled(s: State, t: State, k: nat) {
    && t.done && t.call == s.call && t.handle == s.handle && !t.crashed && |t.workers| == |s.workers|
    && forall i :: 0 <= i < |s.workers| && i != k ==> t.workers[i] == s.workers[i]
  }

  lemma WindupSignals(s: State, k: nat)
    requires !s.crashed && k < |s.workers| && Live(s.workers[k]) && s.run == Stopping
    ensures Signalled(s, Play(s, Windup(s.workers[k].place, k)), k)
  {
    var place := s.workers[k].place;
    if place == AtSignal {
      SignalPlays(s, k);
    } else if place == AtTail {
      TailPlays(s, k);
    } else if place == AtTest {
      TestPlays(s, k);
    } else {
      ThrowPlays(s, k);
    }
  }

  lemma SignalPlays(s: State, k: nat)
    requires !s.crashed && k < |s.workers| && s.workers[k].place == AtSignal
    ensures Signalled(s, Play(s, [Signal(k)]), k)
  {
    assert [Signal(k)][1..] == [];
    assert Play(s, [Signal(k)]) == Apply(s, Signal(k));
  }

  lemma TailPlays(s: State, k: nat)
    requires !s.crashed && k < |s.workers| && s.workers[k].place == AtTail
    ensures Signalled(s, Play(s, [CloseRun(k), Signal(k)]), k)
  {
    var closed := StopRun(Put(s, k, s.workers[k].(place := AtSignal)));
    assert Apply(s, CloseRun(k)) == closed;
    SignalPlays(closed, k);
    assert [CloseRun(k), Signal(k)][1..] == [Signal(k)];
    assert Play(s, [CloseRun(k), Signal(k)]) == Play(closed, [Signal(k)]);
  }

  lemma ThrowPlays(s: State, k: nat)
    requires !s.crashed && k < |s.workers| && InCallback(s.workers[k])
    ensures Signalled(s, Play(s, [Threw(k), CloseRun(k), Signal(k)]), k)
  {
    var thrown, rest := Put(s, k, Thrown(s.workers[k])), [CloseRun(k), Signal(k)];
    assert Apply(s, Threw(k)) == thrown;
    TailPlays(thrown, k);
    assert [Threw(k), CloseRun(k), Signal(k)][1..] == rest;
    assert Play(s, [Threw(k), CloseRun(k), Signal(k)]) == Play(thrown, rest);
  }

  lemma TestPlays(s: State, k: nat)
    requires !s.crashed && k < |s.workers| && s.workers[k].place == AtTest && s.run == Stopping
    ensures Signalled(s, Play(s, [Test(k), Threw(k), CloseRun(k), Signal(k)]), k)
  {
    var tested, events := Put(s, k, Tested(s.workers[k], false)), [Test(k), Threw(k), CloseRun(k), Signal(k)];
    assert Apply(s, Test(k)) == tested;
    ThrowPlays(tested, k);
    PlayFirst(s, events, 0, tested);
    assert events[0..] == events && events[1..] == [Threw(k), CloseRun(k), Signal(k)];
  }

  lemma {:induction false} PlayAppends(s: State, first: seq<Event>, second: seq<Event>)
    ensures Play(s, first + second) == Play(Play(s, first), second)
    decreases |first|
  {
    if first == [] {
      assert first + second == second;
    } else {
      assert (first + second)[1..] == first[1..] + second;
      PlayAppends(Apply(s, first[0]), first[1..], second);
    }
  }

  // ---- Exactly when a timed join can be misled ---------------------------------------------------

  /** While worker h is held, no older worker is live, and neither the done flag nor a timed join speaks for it. */
  predicate Honest(s: State, h: nat) {
    && h < |s.workers|
    && (s.handle == Some(h) ==>
          && (forall k :: 0 <= k < h ==> !Live(s.workers[k]))
          && (s.done || s.call == Timed ==> !Live(s.workers[h])))
  }

  lemma HonestWorkerStep(s: State, e: Event, h: nat)
    requires Shape(s) && AllOk(s) && Honest(s, h) && IsWorkers(e)
    ensures Honest(WorkerStep(s, e), h)
  {
    if e.w < |s.workers| { MovedKeeps(s.workers[e.w], e, s.run == Running); }
  }

  lemma HonestStep(s: State, e: Event, h: nat)
    requires Shape(s) && AllOk(s) && Honest(s, h)
    ensures Honest(Apply(s, e), h)
  {
    if IsWorkers(e) { HonestWorkerStep(s, e, h); }
  }

  lemma {:induction false} HonestRun(s: State, events: seq<Event>, h: nat)
    requires Inv(s) && Honest(s, h)
    ensures Honest(Play(s, events), h)
    decreases |events|
  {
    if events != [] {
      ApplyKeeps(s, events[0]);
      HonestStep(s, events[0], h);
      HonestRun(Apply(s, events[0]), events[1..], h);
    }
  }

  /** A timed join has seen the done flag and still holds a worker that has not signalled. */
  predicate Misled(t: State, h: nat) {
    t.call == Timed && t.handle == Some(h) && h < |t.workers| && Live(t.workers[h])
  }

  ghost predicate CanBeMisled(s: State, h: nat) {
    exists events :: Misled(Play(s, events), h)
  }

  /** From every state that holds a live worker, some schedule misleads a timed join about that worker if and only if
      the done flag is up already, or an older worker is still live to raise it. */
  lemma TimedJoinMisledIff(s: State, h: nat)
    requires Inv(s) && s.call == Idle && s.handle == Some(h) && Live(s.workers[h])
    ensures CanBeMisled(s, h) <==> s.done || exists k :: 0 <= k < h && Live(s.workers[k])
  {
    if s.done {
      StaleFlagFoolsTimedJoin(s);
    } else if k :| 0 <= k < h && Live(s.workers[k]) {
      LeftoverFoolsTimedJoin(s, k);
    } else {
      TimedJoinIsPrompt(s, h);
    }
  }

  /** With the flag down and no older worker live, no schedule misleads a timed join. */
  lemma TimedJoinIsPrompt(s: State, h: nat)
    requires Inv(s) && s.call == Idle && s.handle == Some(h) && !s.done
    requires forall k :: 0 <= k < h ==> !Live(s.workers[k])
    ensures !CanBeMisled(s, h)
  {
    forall events ensures !Misled(Play(s, events), h) { HonestRun(s, events, h); }
  }

  /** A flag that an older worker has left behind is taken at once for the held one's. */
  lemma StaleFlagFoolsTimedJoin(s: State)
    requires Inv(s) && s.call == Idle && s.handle.Some? && s.done && Live(s.workers[s.handle.value])
    ensures CanBeMisled(s, s.handle.value)
  {
    var called, events := s.(run := Stopping, call := Timing), [JoinFor(None), DoneSeen];
    CallsTimedJoin(s);
    SeesDone(called);
    PlayFirst(s, events, 0, called);
    assert events[0..] == events && events[1..] == [DoneSeen];
    assert Misled(Play(s, events), s.handle.value);
  }

  lemma PlayFirst(s: State, events: seq<Event>, i: nat, t: State)
    requires i < |events| && Apply(s, events[i]) == t
    ensures Play(s, events[i..]) == Play(t, events[i + 1..])
  {
    assert events[i..][1..] == events[i + 1..];
  }

  /** A live leftover always fools a timed join: from every state in which an older worker is live beside the held one,
      some schedule makes joinFor take the leftover's signal for the held worker's, so that it gives up its timeout
      while that worker has not moved at all. */
  lemma LeftoverFoolsTimedJoin(s: State, k: nat)
    requires Inv(s) && s.call == Idle && s.handle.Some? && k < s.handle.value && Live(s.workers[k])
    ensures exists events ::
              var t := Play(s, events);
              t.call == Timed && t.handle == s.handle && |t.workers| == |s.workers|
              && t.workers[s.handle.value] == s.workers[s.handle.value]
    ensures Live(s.workers[s.handle.value]) ==> CanBeMisled(s, s.handle.value)
  {
    var called := s.(run := Stopping, call := Timing);
    CallsTimedJoin(s);
    var rest := Windup(s.workers[k].place, k) + [DoneSeen];
    FooledAfterCall(called, k);
    var events := [JoinFor(None)] + rest;
    PlayFirst(s, events, 0, called);
    assert events[0..] == events && events[1..] == rest;
    assert Live(s.workers[s.handle.value]) ==> Misled(Play(s, events), s.handle.value);
  }

  lemma CallsTimedJoin(s: State)
    requires Shape(s) && s.call == Idle && s.handle.Some?
    ensures Apply(s, JoinFor(None)) == s.(run := Stopping, call := Timing)
  {
  }

  lemma FooledAfterCall(s: State, k: nat)
    requires !s.crashed && s.call == Timing && s.run == Stopping && Held(s)
    requires k < s.handle.value && Live(s.workers[k])
    ensures var t := Play(s, Windup(s.workers[k].place, k) + [DoneSeen]);
            t.call == Timed && t.handle == s.handle && |t.workers| == |s.workers|
            && t.workers[s.handle.value] == s.workers[s.handle.value]
  {
    var windup := Windup(s.workers[k].place, k);
    WindupSignals(s, k);
    PlayAppends(s, windup, [DoneSeen]);
    SeesDone(Play(s, windup));
  }

  lemma SeesDone(s: State)
    requires !s.crashed && s.call == Timing && s.done
    ensures Play(s, [DoneSeen]) == s.(call := Timed)
  {
    assert [DoneSeen][1..] == [];
  }

  /** Such a state is reached by a timeout followed by a restart, after which two workers process at once. */
  lemma RestartAfterTimeoutOverlaps()
    ensures Play(Play(INITIAL, UNTIL_TIMEOUT), AFTER_RESTART) == Restarted(InProcess, 2, InProcess, 1)
  {
    var events := AFTER_RESTART;
    TimesOut();
    Restarts();
    Resumes();
    PlayFirst(ABANDONED, events, 0, Restarted(InProcess, 1, InSetup, 0));
    PlayFirst(Restarted(InProcess, 1, InSetup, 0), events, 1, Restarted(AtTest, 1, InSetup, 0));
    PlayFirst(Restarted(AtTest, 1, InSetup, 0), events, 2, Restarted(InProcess, 2, InSetup, 0));
    PlayFirst(Restarted(InProcess, 2, InSetup, 0), events, 3, Restarted(InProcess, 2, AtTest, 0));
    PlayFirst(Restarted(InProcess, 2, AtTest, 0), events, 4, Restarted(InProcess, 2, InProcess, 1));
    assert events[0..] == events && events[5..] == [];
  }

  const UNTIL_TIMEOUT := [Start(None), SetupReturned(0, true), Test(0), JoinFor(None), TimedOut]
  const AFTER_RESTART := [Start(None), ProcessReturned(0), Test(0), SetupReturned(1, true), Test(1)]
  const LEFT_BEHIND := [Start(None), Threw(0), CloseRun(0), Signal(0), End(0)]
  const ABANDONED := State(Stopping, false, None, [Worker(InProcess, Pending, 1, 0, true)], Idle, false, false)

  function Started(place: Place, processed: nat): State {
    State(Running, false, Some(0), [Worker(place, Pending, processed, 0, false)], Idle, false, false)
  }

  /** A detached worker and a new one that is held. */
  function Restarted(place: Place, processed: nat, second: Place, processed': nat): State {
    State(Running, false, Some(1),
          [Worker(place, Pending, processed, 0, true), Worker(second, Pending, processed', 0, false)],
          Idle, false, true)
  }

  /** The same with the detached worker on its way out. */
  function LeftBehind(place: Place, run: RunState, done: bool): State {
    State(run, done, Some(1),
          [Worker(place, ProcessThrew, 1, 0, true), Worker(InSetup, Pending, 0, 0, false)],
          Idle, false, true)
  }

  /** The flag can be up with no older worker left: the leftover has gone after raising it. */
  lemma StaleFlagIsReached()
    ensures Play(Play(INITIAL, UNTIL_TIMEOUT), LEFT_BEHIND) == LeftBehind(Gone, Stopping, true)
  {
    var events := LEFT_BEHIND;
    TimesOut();
    Restarts();
    Throws();
    RaisesTheFlag();
    PlayFirst(ABANDONED, events, 0, Restarted(InProcess, 1, InSetup, 0));
    PlayFirst(Restarted(InProcess, 1, InSetup, 0), events, 1, LeftBehind(AtTail, Running, false));
    PlayFirst(LeftBehind(AtTail, Running, false), events, 2, LeftBehind(AtSignal, Stopping, false));
    PlayFirst(LeftBehind(AtSignal, Stopping, false), events, 3, LeftBehind(Ending, Stopping, true));
    PlayFirst(LeftBehind(Ending, Stopping, true), events, 4, LeftBehind(Gone, Stopping, true));
    assert events[0..] == events && events[5..] == [];
  }

  lemma Throws()
    ensures Apply(Restarted(InProcess, 1, InSetup, 0), Threw(0)) == LeftBehind(AtTail, Running, false)
    ensures Apply(LeftBehind(AtTail, Running, false), CloseRun(0)) == LeftBehind(AtSignal, Stopping, false)
  {
  }

  lemma RaisesTheFlag()
    ensures Apply(LeftBehind(AtSignal, Stopping, false), Signal(0)) == LeftBehind(Ending, Stopping, true)
    ensures Apply(LeftBehind(Ending, Stopping, true), End(0)) == LeftBehind(Gone, Stopping, true)
  {
  }

  lemma TimesOut()
    ensures Play(INITIAL, UNTIL_TIMEOUT) == ABANDONED
  {
    var a, b, c, events := Started(InSetup, 0), Started(AtTest, 0), Started(InProcess, 1), UNTIL_TIMEOUT;
    var d := c.(run := Stopping, call := Timing);
    Starts();
    CallsJoinFor();
    GivesUp();
    PlayFirst(INITIAL, events, 0, a);
    PlayFirst(a, events, 1, b);
    PlayFirst(b, events, 2, c);
    PlayFirst(c, events, 3, d);
    PlayFirst(d, events, 4, ABANDONED);
    assert events[0..] == events && events[5..] == [];
  }

  lemma GivesUp()
    ensures Apply(Started(InProcess, 1).(run := Stopping, call := Timing), TimedOut) == ABANDONED
  {
  }

  lemma Starts()
    ensures Apply(INITIAL, Start(None)) == Started(InSetup, 0)
    ensures Apply(Started(InSetup, 0), SetupReturned(0, true)) == Started(AtTest, 0)
    ensures Apply(Started(AtTest, 0), Test(0)) == Started(InProcess, 1)
  {
  }

  lemma CallsJoinFor()
    ensures Apply(Started(InProcess, 1), JoinFor(None)) == Started(InProcess, 1).(run := Stopping, call := Timing)
  {
  }

  lemma Restarts()
    ensures Apply(ABANDONED, Start(None)) == Restarted(InProcess, 1, InSetup, 0)
  {
    assert Live(ABANDONED.workers[0]);
  }

  lemma Resumes()
    ensures Apply(Restarted(InProcess, 1, InSetup, 0), ProcessReturned(0)) == Restarted(AtTest, 1, InSetup, 0)
    ensures Apply(Restarted(AtTest, 1, InSetup, 0), Test(0)) == Restarted(InProcess, 2, InSetup, 0)
    ensures Apply(Restarted(InProcess, 2, InSetup, 0), SetupReturned(1, true)) == Restarted(InProcess, 2, AtTest, 0)
    ensures Apply(Restarted(InProcess, 2, AtTest, 0), Test(1)) == Restarted(InProcess, 2, InProcess, 1)
  {
  }

  // ---- After a stop ------------------------------------------------------------------------------------

  function Rank(place: Place): nat {
    match place
    case InSetup => 7
    case InProcess => 7
    case AtTest => 6
    case InCleanup => 5
    case AtTail => 4
    case AtSignal => 3
    case Ending => 2
    case Gone => 0
  }

  /** How many of the events moved worker k. */
  function Steps(s: State, events: seq<Event>, k: nat): nat
    decreases |events|
  {
    if events == [] then 0
    else
      var t := Apply(s, events[0]);
      (if k < |s.workers| && k < |t.workers| && t.workers[k].place != s.workers[k].place then 1 else 0)
      + Steps(t, events[1..], k)
  }

  predicate NoStart(s: State, events: seq<Event>) {
    s.call != Starting && forall i :: 0 <= i < |events| ==> !events[i].Start?
  }

  lemma MovedDown(w: Worker, e: Event)
    requires IsWorkers(e)
    ensures var m := Moved(w, e, false);
            m.processed == w.processed && (m.place != w.place ==> Rank(m.place) < Rank(w.place))
  {
  }

  lemma StoppedStep(s: State, e: Event, k: nat)
    requires Shape(s) && s.run == Stopping && s.call != Starting && !e.Start? && k < |s.workers|
    ensures var t := Apply(s, e);
            && t.run == Stopping && t.call != Starting && |t.workers| == |s.workers|
            && t.workers[k].processed == s.workers[k].processed
            && (t.workers[k].place != s.workers[k].place ==> Rank(t.workers[k].place) < Rank(s.workers[k].place))
  {
    if IsWorkers(e) {
      MovedDown(s.workers[k], e);
    } else {
      assert Apply(s, e).workers[k].(detached := true) == s.workers[k].(detached := true);
    }
  }

  /** After a stop, and until a start, no worker begins another process call, and each ends within seven of its own
      steps however the threads interleave. */
  lemma {:induction false} StopIsBounded(s: State, events: seq<Event>, k: nat)
    requires Inv(s) && s.run == Stopping && NoStart(s, events) && k < |s.workers|
    ensures var t := Play(s, events);
            && t.run == Stopping && |t.workers| == |s.workers|
            && t.workers[k].processed == s.workers[k].processed
            && Steps(s, events, k) + Rank(t.workers[k].place) <= Rank(s.workers[k].place)
    decreases |events|
  {
    if events != [] {
      StoppedStep(s, events[0], k);
      ApplyKeeps(s, events[0]);
      StopIsBounded(Apply(s, events[0]), events[1..], k);
    }
  }

  // ---- The object --------------------------------------------------------------------------------------

  /** The owner's side. A call that has to wait returns with `call` set and is resumed by Resume or EndOfWait. */
  class Loop {
    var run: RunState
    var done: bool
    var handle: Option<nat>
    var workers: seq<Worker>
    var call: Call
    ghost var crashed: bool
    ghost var overlapped: bool

    ghost function Model(): State
      reads this
    {
      State(run, done, handle, workers, call, crashed, overlapped)
    }

    constructor ()
      ensures Model() == INITIAL && Inv(Model())
    {
      run, done, handle, workers, call := Ready, true, None, [], Idle;
      crashed, overlapped := false, false;
    }

    method StopLoop()
      requires Inv(Model())
      modifies this
      ensures Model() == Apply(old(Model()), Stop) && Inv(Model())
    {
      ApplyKeeps(Model(), Stop);
      if run == Running {
        run := Stopping;
      }
    }

    /** joinThread: a caller that now has to wait sets `call`. */
    method JoinHeld(caller: Option<nat>, waiting: Call)
      requires Inv(Model()) && call == Idle
      modifies this
      ensures Model() == JoinThread(old(Model()), caller, waiting)
    {
      if handle == None {
        return;
      }
      if caller == handle {
        workers := workers[handle.value := workers[handle.value].(detached := true)];
        handle := None;
        return;
      }
      call := waiting;
    }

    method Spawn()
      requires handle == None
      modifies this
      ensures Model() == Launch(old(Model()))
    {
      overlapped := overlapped || exists i :: 0 <= i < |workers| && Live(workers[i]);
      run := Running;
      done := false;
      handle := Some(|workers|);
      workers := workers + [Worker(InSetup, Pending, 0, 0, false)];
      call := Idle;
    }

    method StartLoop(caller: Option<nat>)
      requires Inv(Model()) && CanCall(Model(), caller)
      modifies this
      ensures Model() == Apply(old(Model()), Start(caller)) && Inv(Model())
    {
      ApplyKeeps(Model(), Start(caller));
      if run == Running {
        return;
      }
      if run == Stopping && handle != None {
        JoinHeld(caller, Starting);
        if call == Starting {
          return;
        }
      }
      Spawn();
    }

    method JoinLoop(caller: Option<nat>)
      requires Inv(Model()) && CanCall(Model(), caller)
      modifies this
      ensures Model() == Apply(old(Model()), Join(caller)) && Inv(Model())
    {
      ApplyKeeps(Model(), Join(caller));
      StopLoop();
      JoinHeld(caller, Joining);
    }

    method JoinLoopFor(caller: Option<nat>)
      requires Inv(Model()) && CanCall(Model(), caller)
      modifies this
      ensures Model() == Apply(old(Model()), JoinFor(caller)) && Inv(Model())
    {
      ApplyKeeps(Model(), JoinFor(caller));
      StopLoop();
      JoinHeld(caller, Timing);
    }

    method WaitForCompletion(caller: Option<nat>)
      requires Inv(Model()) && CanCall(Model(), caller)
      modifies this
      ensures Model() == Apply(old(Model()), Wait(caller)) && Inv(Model())
    {
      ApplyKeeps(Model(), Wait(caller));
      JoinHeld(caller, Joining);
    }

    /** The joined thread has gone: the waiting call returns, or goes on to start a new worker. */
    method Resume()
      requires Inv(Model()) && call != Idle && call != Timing && workers[handle.value].place == Gone
      modifies this
      ensures Model() == Apply(old(Model()), Wake) && Inv(Model())
    {
      ApplyKeeps(Model(), Wake);
      handle := None;
      if call == Starting {
        Spawn();
      } else {
        call := Idle;
      }
    }

    /** The timed wait is over: join if the flag is up, detach otherwise. */
    method EndOfWait() returns (joined: bool)
      requires Inv(Model()) && call == Timing
      modifies this
      ensures joined == old(done)
      ensures Model() == Apply(old(Model()), if joined then DoneSeen else TimedOut) && Inv(Model())
    {
      ApplyKeeps(Model(), DoneSeen);
      ApplyKeeps(Model(), TimedOut);
      joined := done;
      if joined {
        call := Timed;
      } else {
        workers := workers[handle.value := workers[handle.value].(detached := true)];
        handle := None;
        call := Idle;
      }
    }
  }
}
