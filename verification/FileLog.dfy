/** The log file: producers and one writer thread sharing a double-buffered queue, and size-based rotation of the file
    the writer appends to. */
module FileLog {
  import opened Options

  datatype Msg = Msg(header: string, level: string, payload: string, linefeed: bool)

  // ---- The file ---------------------------------------------------------------------------------

  const RENAME_ATTEMPTS := 10

  /** The operating system's answers to one rotation. */
  datatype Answers = Answers(renames: seq<bool>, truncateOpens: bool, appendOpens: bool)

  datatype Archive = Archive(leftover: nat, messages: seq<Msg>)

  /** `leftover` is the number of bytes the file held when the session opened it. */
  datatype File = File(isOpen: bool, leftover: nat, live: seq<Msg>, archives: seq<Archive>, size: nat)

  /** The bytes writeMsg puts into the file. */
  function Render(m: Msg): string {
    m.header + "{" + m.level + "} " + m.payload + (if m.linefeed then "\n" else "")
  }

  function Estimate(m: Msg): nat {
    |m.header| + 1 + |m.level| + 2 + |m.payload| + (if m.linefeed then 1 else 0)
  }

  function Bytes(messages: seq<Msg>): nat {
    if messages == [] then 0 else Bytes(messages[..|messages| - 1]) + |Render(messages[|messages| - 1])|
  }

  function FileBytes(f: File): nat {
    f.leftover + Bytes(f.live)
  }

  /** Renaming has worked if one of the attempts did. */
  predicate Renamed(a: Answers) {
    exists i :: 0 <= i < |a.renames| && i < RENAME_ATTEMPTS && a.renames[i]
  }

  predicate Reopened(a: Answers) {
    a.appendOpens || (Renamed(a) && a.truncateOpens)
  }

  predicate NeedsRotation(f: File, m: Msg, limit: nat) {
    limit != 0 && f.size != 0 && f.size + Estimate(m) >= limit
  }

  function Rotated(f: File, a: Answers): File {
    if !f.isOpen then f
    else if !Renamed(a) then f.(isOpen := Reopened(a), size := FileBytes(f))
    else File(Reopened(a), 0, [], f.archives + [Archive(f.leftover, f.live)], 0)
  }

  /** A stream that is not open swallows what is written to it. */
  function Appended(f: File, m: Msg): File {
    f.(live := if f.isOpen then f.live + [m] else f.live, size := f.size + Estimate(m))
  }

  function Write(f: File, m: Msg, limit: nat, a: Answers): File {
    Appended(if NeedsRotation(f, m, limit) then Rotated(f, a) else f, m)
  }

  /** The size accounted for a message is the number of bytes written for it. */
  lemma EstimateIsExact(m: Msg)
    ensures Estimate(m) == |Render(m)| && Estimate(m) >= 3
  {
  }

  predicate Accounted(f: File) {
    f.isOpen ==> f.size == FileBytes(f)
  }

  lemma BytesGrow(messages: seq<Msg>, m: Msg)
    ensures Bytes(messages + [m]) == Bytes(messages) + Estimate(m)
  {
    assert (messages + [m])[..|messages|] == messages;
    EstimateIsExact(m);
  }

  lemma BytesPositive(messages: seq<Msg>)
    ensures Bytes(messages) == 0 <==> messages == []
  {
    if messages != [] { EstimateIsExact(messages[|messages| - 1]); }
  }

  lemma WriteAccounts(f: File, m: Msg, limit: nat, a: Answers)
    requires Accounted(f)
    ensures Accounted(Write(f, m, limit, a))
  {
    var g := if NeedsRotation(f, m, limit) then Rotated(f, a) else f;
    BytesGrow(g.live, m);
    BytesPositive(g.live);
    EstimateIsExact(m);
  }

  /** Below the limit, or nothing but one message. */
  predicate WithinLimit(f: File, limit: nat) {
    FileBytes(f) < limit || (f.leftover == 0 && |f.live| == 1)
  }

  /** A write leaves the file within the limit exactly when no rotation was due, or a rename worked, or the file could
      not be opened again and was within the limit before. */
  lemma WithinLimitIff(f: File, m: Msg, limit: nat, a: Answers)
    requires Accounted(f) && f.isOpen && limit > 0
    ensures WithinLimit(Write(f, m, limit, a), limit) <==>
              || FileBytes(f) == 0 || FileBytes(f) + |Render(m)| < limit
              || Renamed(a) || (!a.appendOpens && WithinLimit(f, limit))
  {
    EstimateIsExact(m);
    BytesPositive(f.live);
    BytesGrow(f.live, m);
    if NeedsRotation(f, m, limit) && Renamed(a) {
      assert Write(f, m, limit, a).live == (if Reopened(a) then [] + [m] else []);
      assert Bytes([]) == 0;
    }
  }

  /** A write archives the file exactly when there is a limit, the file is not empty, the message would reach the limit,
      and one of the ten renames works. */
  lemma RotatesIff(f: File, m: Msg, limit: nat, a: Answers)
    requires Accounted(f) && f.isOpen
    ensures var g := Write(f, m, limit, a);
            if limit != 0 && FileBytes(f) != 0 && FileBytes(f) + |Render(m)| >= limit
               && (exists i :: 0 <= i < |a.renames| && i < 10 && a.renames[i])
            then g.archives == f.archives + [Archive(f.leftover, f.live)] && g.leftover == 0
                 && g.live == (if a.truncateOpens || a.appendOpens then [m] else [])
            else g.archives == f.archives && g.leftover == f.leftover
  {
    EstimateIsExact(m);
    assert [] + [m] == [m];
  }

  // ---- Nothing is lost by rotating ------------------------------------------------------------------

  function Archived(archives: seq<Archive>): seq<Msg> {
    if archives == [] then []
    else Archived(archives[..|archives| - 1]) + archives[|archives| - 1].messages
  }

  /** Everything that reached a file, in order. */
  function Kept(f: File): seq<Msg> {
    Archived(f.archives) + f.live
  }

  lemma RotateKeeps(f: File, a: Answers)
    ensures Kept(Rotated(f, a)) == Kept(f)
  {
    if f.isOpen && Renamed(a) {
      var g := Rotated(f, a);
      assert g.archives[..|g.archives| - 1] == f.archives;
      assert Archived(g.archives) == Archived(f.archives) + f.live;
    }
  }

  lemma WriteKeeps(f: File, m: Msg, limit: nat, a: Answers)
    ensures var g := Write(f, m, limit, a);
            && (g.isOpen ==> f.isOpen && Kept(g) == Kept(f) + [m])
            && (Kept(g) == Kept(f) || (f.isOpen && Kept(g) == Kept(f) + [m]))
  {
    RotateKeeps(f, a);
    var r := if NeedsRotation(f, m, limit) then Rotated(f, a) else f;
    if r.isOpen { assert Archived(r.archives) + (r.live + [m]) == (Archived(r.archives) + r.live) + [m]; }
  }

  // ---- One asynchronous session -----------------------------------------------------------------------

  /** `enqueued` and `written` record what producers put into the queue and what the writer took through writeMsg;
      `atDisable` and `atExit` how much had been enqueued at those moments; `intact` that every rotation could reopen
      the file. */
  datatype State = State(
    enabled: bool, queue: seq<Msg>, pending: seq<Msg>, exited: bool, closed: bool, file: File,
    enqueued: seq<Msg>, written: seq<Msg>, dropped: seq<Msg>, atDisable: Option<nat>, atExit: Option<nat>,
    intact: bool)

  datatype Event =
    | Enqueue(m: Msg)
    | Take
    | WriteNext(limit: nat, answers: Answers)
    | Disable
    | Exit
    | Close

  function Opened(leftover: nat): State {
    State(true, [], [], false, false, File(true, leftover, [], [], leftover), [], [], [], None, None, true)
  }

  function Apply(s: State, e: Event): State {
    match e
    case Enqueue(m) => s.(queue := s.queue + [m], enqueued := s.enqueued + [m])
    case Take => if !s.exited && s.pending == [] then s.(pending := s.queue, queue := []) else s
    case WriteNext(limit, answers) =>
      if s.exited || s.pending == [] then s
      else
        var file := Write(s.file, s.pending[0], limit, answers);
        s.(pending := s.pending[1..], written := s.written + [s.pending[0]], file := file, intact := file.isOpen)
    case Disable => if s.enabled then s.(enabled := false, atDisable := Some(|s.enqueued|)) else s
    case Exit =>
      if !s.exited && s.pending == [] && !s.enabled && s.queue == []
      then s.(exited := true, atExit := Some(|s.enqueued|)) else s
    case Close =>
      if s.exited && !s.closed
      then s.(closed := true, dropped := s.queue, queue := [], file := s.file.(isOpen := false, size := 0)) else s
  }

  function Play(s: State, events: seq<Event>): State
    decreases |events|
  {
    if events == [] then s else Play(Apply(s, events[0]), events[1..])
  }

  predicate Conserved(s: State) {
    s.enqueued == s.written + (s.pending + (s.dropped + s.queue))
  }

  predicate Staged(s: State) {
    && (!s.closed ==> s.dropped == [])
    && (s.closed ==> s.exited)
    && (s.exited <==> s.atExit.Some?)
    && (s.exited ==> s.pending == [] && s.atExit == Some(|s.written|) && !s.enabled)
    && (s.enabled <==> s.atDisable.None?)
    && (s.atDisable.Some? ==> s.atDisable.value <= |s.enqueued|)
    && (s.atDisable.Some? && s.exited ==> s.atDisable.value <= s.atExit.value)
  }

  predicate Filed(s: State) {
    && Kept(s.file) <= s.written
    && (s.intact ==> Kept(s.file) == s.written)
    && (!s.closed ==> s.intact == s.file.isOpen)
    && Accounted(s.file)
  }

  predicate Inv(s: State) {
    Conserved(s) && Staged(s) && Filed(s)
  }

  lemma EnqueueKeeps(s: State, m: Msg)
    requires Inv(s)
    ensures Inv(Apply(s, Enqueue(m)))
  {
  }

  lemma WriteNextKeeps(s: State, limit: nat, answers: Answers)
    requires Inv(s)
    ensures Inv(Apply(s, WriteNext(limit, answers)))
  {
    if !s.exited && s.pending != [] {
      WriteKeeps(s.file, s.pending[0], limit, answers);
      WriteAccounts(s.file, s.pending[0], limit, answers);
    }
  }

  lemma ApplyKeeps(s: State, e: Event)
    requires Inv(s)
    ensures Inv(Apply(s, e))
  {
    match e
    case Enqueue(m) => EnqueueKeeps(s, m);
    case WriteNext(limit, answers) => WriteNextKeeps(s, limit, answers);
    case _ =>
  }

  lemma {:induction false} PlayKeeps(s: State, events: seq<Event>)
    requires Inv(s)
    ensures Inv(Play(s, events))
    decreases |events|
  {
    if events != [] {
      ApplyKeeps(s, events[0]);
      PlayKeeps(Apply(s, events[0]), events[1..]);
    }
  }

  /** On every run what has been written is a prefix of what was enqueued, in order and without repeats, and what
      reached the files is a prefix of that, all of it for as long as the file could be reopened. */
  lemma WrittenIsAPrefix(leftover: nat, events: seq<Event>)
    ensures var s := Play(Opened(leftover), events);
            && Kept(s.file) <= s.written <= NoteAll(Record([], None), events).logged
            && (s.intact ==> Kept(s.file) == s.written)
            && (s.file.isOpen ==> s.file.size == FileBytes(s.file))
  {
    PlayKeeps(Opened(leftover), events);
    EveryMessageIsEnqueued(leftover, events);
  }

  /** When a session has been closed, exactly the messages enqueued before the writer left have been written: these
      include everything enqueued before the handler was disabled, and exactly the later ones are dropped or carried
      over to the next session. */
  lemma StopWritesEverything(leftover: nat, events: seq<Event>)
    requires Play(Opened(leftover), events).closed
    ensures var s, r := Play(Opened(leftover), events), NoteAll(Record([], None), events);
            && r.disabled.Some? && s.atExit.Some?
            && r.disabled.value <= s.atExit.value <= |r.logged|
            && s.written == r.logged[..s.atExit.value]
            && (s.intact ==> Kept(s.file) == r.logged[..s.atExit.value])
            && s.dropped + s.queue == r.logged[s.atExit.value..]
  {
    PlayKeeps(Opened(leftover), events);
    EveryMessageIsEnqueued(leftover, events);
    var s := Play(Opened(leftover), events);
    assert s.enqueued == s.written + (s.dropped + s.queue);
  }

  // ---- What the producers have done, and what the writer can do ---------------------------------------

  /** Read off the events alone: what was logged, and how much of it before the handler was disabled. */
  datatype Record = Record(logged: seq<Msg>, disabled: Option<nat>)

  function NoteAll(r: Record, events: seq<Event>): Record
    decreases |events|
  {
    if events == [] then r
    else
      match events[0]
      case Enqueue(m) => NoteAll(r.(logged := r.logged + [m]), events[1..])
      case Disable => NoteAll(r.(disabled := if r.disabled.Some? then r.disabled else Some(|r.logged|)), events[1..])
      case _ => NoteAll(r, events[1..])
  }

  lemma {:induction false} RecordsAgree(s: State, events: seq<Event>)
    requires s.enabled <==> s.atDisable.None?
    ensures var n, r := Play(s, events), NoteAll(Record(s.enqueued, s.atDisable), events);
            n.enqueued == r.logged && n.atDisable == r.disabled
    decreases |events|
  {
    if events != [] { RecordsAgree(Apply(s, events[0]), events[1..]); }
  }

  /** Every message logged is enqueued, in the order of the calls. */
  lemma EveryMessageIsEnqueued(leftover: nat, events: seq<Event>)
    ensures var s, r := Play(Opened(leftover), events), NoteAll(Record([], None), events);
            s.enqueued == r.logged && s.atDisable == r.disabled
  {
    RecordsAgree(Opened(leftover), events);
  }

  function Writes(n: nat, limit: nat, a: Answers): seq<Event> {
    seq(n, _ => WriteNext(limit, a))
  }

  lemma {:induction false} BatchIsWritten(s: State, limit: nat, a: Answers)
    requires !s.exited
    ensures var n := Play(s, Writes(|s.pending|, limit, a));
            && n.pending == [] && n.written == s.written + s.pending && n.queue == s.queue
            && n.enqueued == s.enqueued && !n.exited && n.enabled == s.enabled && n.closed == s.closed
            && n.dropped == s.dropped
    decreases |s.pending|
  {
    if s.pending == [] {
      assert s.written + s.pending == s.written;
    } else {
      var events := Writes(|s.pending|, limit, a);
      var n := Apply(s, events[0]);
      assert n.pending == s.pending[1..] && n.written == s.written + [s.pending[0]];
      assert events[1..] == Writes(|n.pending|, limit, a);
      BatchIsWritten(n, limit, a);
      assert s.written + [s.pending[0]] + s.pending[1..] == s.written + s.pending;
    }
  }

  lemma {:induction false} PlayJoins(s: State, first: seq<Event>, second: seq<Event>)
    ensures Play(s, first + second) == Play(Play(s, first), second)
    decreases |first|
  {
    if first == [] {
      assert first + second == second;
    } else {
      assert (first + second)[1..] == first[1..] + second;
      PlayJoins(Apply(s, first[0]), first[1..], second);
    }
  }

  /** The writer can always catch up, whatever the file system answers: from every state in which it has not left,
      finishing its batch, swapping the buffers and writing the next batch writes everything logged so far. */
  lemma WriterCatchesUp(leftover: nat, events: seq<Event>, limit: nat, a: Answers)
    requires !Play(Opened(leftover), events).exited
    ensures var s := Play(Opened(leftover), events);
            var more := Writes(|s.pending|, limit, a) + ([Take] + Writes(|s.queue|, limit, a));
            && Play(s, more).written == NoteAll(Record([], None), events).logged
            && Play(s, more).pending == [] && Play(s, more).queue == [] && !Play(s, more).exited
  {
    var s := Play(Opened(leftover), events);
    PlayKeeps(Opened(leftover), events);
    EveryMessageIsEnqueued(leftover, events);
    CatchUp(s, limit, a);
  }

  lemma CatchUp(s: State, limit: nat, a: Answers)
    requires !s.exited && s.dropped == [] && Conserved(s)
    ensures var more := Writes(|s.pending|, limit, a) + ([Take] + Writes(|s.queue|, limit, a));
            var n := Play(s, more);
            n.written == s.enqueued && n.pending == [] && n.queue == [] && !n.exited
  {
    var first, second := Writes(|s.pending|, limit, a), Writes(|s.queue|, limit, a);
    var emptied := Play(s, first);
    BatchIsWritten(s, limit, a);
    SwapAndWrite(emptied, limit, a);
    PlayJoins(s, first, [Take] + second);
    AllAccountedFor(s);
  }

  lemma SwapAndWrite(s: State, limit: nat, a: Answers)
    requires !s.exited && s.pending == []
    ensures var n := Play(s, [Take] + Writes(|s.queue|, limit, a));
            n.written == s.written + s.queue && n.pending == [] && n.queue == [] && !n.exited
  {
    var second := Writes(|s.queue|, limit, a);
    var taken := Apply(s, Take);
    BatchIsWritten(taken, limit, a);
    assert ([Take] + second)[0] == Take && ([Take] + second)[1..] == second;
  }

  lemma AllAccountedFor(s: State)
    requires Conserved(s) && s.dropped == []
    ensures (s.written + s.pending) + s.queue == s.enqueued
  {
    assert s.dropped + s.queue == s.queue;
  }

  /** A writer that has caught up leaves exactly when the handler is disabled, and the file is closed after that and not
      before. */
  lemma WriterLeavesIff(s: State)
    requires Inv(s) && !s.exited && !s.closed
    ensures Apply(s, Exit).exited <==> !s.enabled && s.queue == [] && s.pending == []
    ensures Apply(s, Close) == s
    ensures Apply(s, Exit).exited ==>
              var n := Apply(Apply(s, Exit), Close);
              n.closed && !n.file.isOpen && n.file.size == 0 && n.file.live == s.file.live
  {
  }

  // ---- Rotation over whole runs -------------------------------------------------------------------------

  predicate Smooth(e: Event, limit: nat) {
    e.WriteNext? ==> e.limit == limit && Renamed(e.answers)
  }

  /** An archive is within the limit, holds a single message, or holds what was there before. */
  predicate ArchiveWithin(a: Archive, limit: nat) {
    a.leftover > 0 || Bytes(a.messages) < limit || |a.messages| == 1
  }

  predicate Rotating(s: State, limit: nat) {
    && (s.closed ==> s.exited)
    && Accounted(s.file)
    && (s.written != [] ==> WithinLimit(s.file, limit))
    && (s.written == [] ==> s.file.live == [] && s.file.archives == [] && (!s.closed ==> s.file.isOpen))
    && forall i :: 0 <= i < |s.file.archives| ==> ArchiveWithin(s.file.archives[i], limit)
  }

  /** The file about to be archived is within the limit like the others. */
  lemma ArchivesWithin(f: File, m: Msg, limit: nat, a: Answers)
    requires f.leftover > 0 || Bytes(f.live) < limit || |f.live| == 1
    requires forall i :: 0 <= i < |f.archives| ==> ArchiveWithin(f.archives[i], limit)
    ensures var g := Write(f, m, limit, a);
            forall i :: 0 <= i < |g.archives| ==> ArchiveWithin(g.archives[i], limit)
  {
    assert ArchiveWithin(Archive(f.leftover, f.live), limit);
  }

  lemma RotatingStep(s: State, e: Event, limit: nat)
    requires limit > 0 && Rotating(s, limit) && Smooth(e, limit)
    ensures Rotating(Apply(s, e), limit)
  {
    if e.WriteNext? && !s.exited && s.pending != [] {
      WriteAccounts(s.file, s.pending[0], e.limit, e.answers);
      if s.file.isOpen { WithinLimitIff(s.file, s.pending[0], e.limit, e.answers); }
      ArchivesWithin(s.file, s.pending[0], e.limit, e.answers);
      assert Apply(s, e).file == Write(s.file, s.pending[0], limit, e.answers);
    }
  }

  lemma {:induction false} RotatingRun(s: State, events: seq<Event>, limit: nat)
    requires limit > 0 && Rotating(s, limit)
    requires forall i :: 0 <= i < |events| ==> Smooth(events[i], limit)
    ensures Rotating(Play(s, events), limit)
    decreases |events|
  {
    if events != [] {
      RotatingStep(s, events[0], limit);
      RotatingRun(Apply(s, events[0]), events[1..], limit);
    }
  }

  /** With a fixed limit and successful renames, after every write on every run the file is below the limit or holds
      exactly one message, and so did every archive made from it. */
  lemma FilesStayWithinLimit(leftover: nat, events: seq<Event>, limit: nat)
    requires limit > 0
    requires forall i :: 0 <= i < |events| ==> Smooth(events[i], limit)
    ensures var s := Play(Opened(leftover), events);
            && (s.written != [] ==> WithinLimit(s.file, limit))
            && forall i :: 0 <= i < |s.file.archives| ==> ArchiveWithin(s.file.archives[i], limit)
  {
    RotatingRun(Opened(leftover), events, limit);
  }

  /** When renames keep failing the file grows past any limit: nothing is lost, nothing is bounded. */
  lemma FailedRenamesOnlyGrow(f: File, m: Msg, limit: nat, a: Answers)
    requires Accounted(f) && f.isOpen && a.appendOpens && !Renamed(a)
    ensures var g := Write(f, m, limit, a);
            g.isOpen && g.archives == f.archives && g.live == f.live + [m] && g.size == f.size + |Render(m)|
  {
    EstimateIsExact(m);
  }

  // ---- The object ------------------------------------------------------------------------------------------

  class Log {
    var enabled: bool
    var synchronous: bool
    var queue: seq<Msg>
    var pending: seq<Msg>
    var exited: bool
    var closed: bool
    var isOpen: bool
    var size: nat
    // The contents of the file system.
    var leftover: nat
    var live: seq<Msg>
    var archives: seq<Archive>
    ghost var enqueued: seq<Msg>
    ghost var written: seq<Msg>
    ghost var dropped: seq<Msg>
    ghost var atDisable: Option<nat>
    ghost var atExit: Option<nat>
    ghost var intact: bool

    ghost function Disk(): File
      reads this
    {
      File(isOpen, leftover, live, archives, size)
    }

    ghost function Model(): State
      reads this
    {
      State(enabled, queue, pending, exited, closed, Disk(), enqueued, written, dropped, atDisable, atExit, intact)
    }

    /** setFile on a file that holds `existing` bytes. */
    constructor (existing: nat, sync: bool)
      ensures Model() == Opened(existing) && synchronous == sync
    {
      enabled, synchronous, queue, pending, exited, closed := true, sync, [], [], false, false;
      isOpen, size, leftover, live, archives := true, existing, existing, [], [];
      enqueued, written, dropped, atDisable, atExit, intact := [], [], [], None, None, true;
    }

    /** Up to ten renames, then a new file, or the old one again. */
    method Rotate(a: Answers)
      requires |a.renames| == RENAME_ATTEMPTS && Accounted(Disk())
      modifies this`isOpen, this`size, this`leftover, this`live, this`archives
      ensures Disk() == Rotated(old(Disk()), a)
    {
      if !isOpen {
        return;
      }
      var renamed := false;
      var attempt := 0;
      while attempt < RENAME_ATTEMPTS && !renamed
        invariant 0 <= attempt <= RENAME_ATTEMPTS
        invariant !renamed ==> forall i :: 0 <= i < attempt ==> !a.renames[i]
        invariant renamed ==> Renamed(a)
        invariant Disk() == old(Disk())
      {
        if a.renames[attempt] {
          renamed := true;
        }
        attempt := attempt + 1;
      }
      if !renamed {
        isOpen := a.appendOpens;
        size := leftover + Bytes(live);
        return;
      }
      archives := archives + [Archive(leftover, live)];
      leftover, live := 0, [];
      isOpen := a.truncateOpens;
      if !isOpen {
        isOpen := a.appendOpens;
      }
      size := 0;
    }

    method WriteMsg(m: Msg, limit: nat, a: Answers)
      requires |a.renames| == RENAME_ATTEMPTS && Accounted(Disk())
      modifies this`isOpen, this`size, this`leftover, this`live, this`archives
      ensures Disk() == Write(old(Disk()), m, limit, a) && Accounted(Disk())
    {
      WriteAccounts(Disk(), m, limit, a);
      var next := Estimate(m);
      if limit != 0 && size != 0 && size + next >= limit {
        Rotate(a);
      }
      if isOpen {
        live := live + [m];
      }
      size := size + next;
    }

    /** What a producer calls: at once in synchronous mode, through the queue otherwise. */
    method Consume(m: Msg, limit: nat, a: Answers)
      requires |a.renames| == RENAME_ATTEMPTS && Accounted(Disk())
      modifies this
      ensures !old(synchronous) ==> Model() == Apply(old(Model()), Enqueue(m))
      ensures old(synchronous) ==>
                Model() == if old(enabled && isOpen) then old(Model()).(file := Write(old(Disk()), m, limit, a))
                           else old(Model())
      ensures synchronous == old(synchronous)
    {
      if synchronous {
        if enabled && isOpen {
          WriteMsg(m, limit, a);
        }
        return;
      }
      queue := queue + [m];
      enqueued := enqueued + [m];
    }

    /** The writer's wait: leave, or swap the two buffers. */
    method TakeBatch() returns (stopped: bool)
      requires Inv(Model()) && !exited && pending == [] && (!enabled || queue != [])
      modifies this
      ensures Model() == Apply(old(Model()), if stopped then Exit else Take) && Inv(Model())
      ensures stopped <==> !old(enabled) && old(queue) == []
    {
      ApplyKeeps(Model(), Take);
      ApplyKeeps(Model(), Exit);
      if !enabled && queue == [] {
        exited := true;
        atExit := Some(|enqueued|);
        return true;
      }
      queue, pending := pending, queue;
      return false;
    }

    /** One turn of do_consume. */
    method WriteFront(limit: nat, a: Answers)
      requires Inv(Model()) && !exited && pending != [] && |a.renames| == RENAME_ATTEMPTS
      modifies this
      ensures Model() == Apply(old(Model()), WriteNext(limit, a)) && Inv(Model())
    {
      ApplyKeeps(Model(), WriteNext(limit, a));
      var m := pending[0];
      WriteMsg(m, limit, a);
      pending := pending[1..];
      written := written + [m];
      intact := isOpen;
    }

    /** do_consume: writes the whole batch. */
    method WriteBatch(limit: nat, answers: seq<Answers>) returns (ghost events: seq<Event>)
      requires Inv(Model()) && !exited
      requires |answers| == |pending|
      requires forall i :: 0 <= i < |answers| ==> |answers[i].renames| == RENAME_ATTEMPTS
      modifies this
      ensures Model() == Play(old(Model()), events) && Inv(Model())
      ensures pending == [] && written == old(written) + old(pending) && queue == old(queue)
    {
      events := [];
      var i := 0;
      ghost var start, all := Model(), written + pending;
      while i < |answers|
        invariant 0 <= i <= |answers| && |pending| == |answers| - i && written + pending == all
        invariant Model() == Play(start, events) && Inv(Model()) && !exited && queue == start.queue
      {
        PlayAppends(start, events, WriteNext(limit, answers[i]));
        events := events + [WriteNext(limit, answers[i])];
        WriteFront(limit, answers[i]);
        i := i + 1;
      }
    }

    method DisableHandler()
      requires Inv(Model())
      modifies this
      ensures Model() == Apply(old(Model()), Disable) && Inv(Model())
    {
      ApplyKeeps(Model(), Disable);
      if enabled {
        atDisable := Some(|enqueued|);
      }
      enabled := false;
    }

    /** The end of stop, once the writer has been joined. */
    method CloseFile()
      requires Inv(Model()) && exited && !closed
      modifies this
      ensures Model() == Apply(old(Model()), Close) && Inv(Model())
    {
      ApplyKeeps(Model(), Close);
      isOpen := false;
      dropped := queue;
      queue := [];
      closed := true;
      size := 0;
    }
  }

  lemma {:induction false} PlayAppends(s: State, events: seq<Event>, e: Event)
    ensures Play(s, events + [e]) == Apply(Play(s, events), e)
    decreases |events|
  {
    if events == [] {
      assert [e][1..] == [];
    } else {
      assert (events + [e])[1..] == events[1..] + [e];
      PlayAppends(Apply(s, events[0]), events[1..], e);
    }
  }
}
