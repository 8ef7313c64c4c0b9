/** The host microphone in a conference. Two independent flags mute it, the media source and the moderator's
    "host" entry, and the data-plane filter of the ring-buffer pool must agree with them for every participant. */
module ConferenceMute {
  import opened Options

  datatype Kind = AUDIO | VIDEO | NONE

  datatype Source = Source(kind: Kind, muted: bool)

  datatype ConfState = ATTACHED | DETACHED | ONHOLD

  const HOST: string := "host"

  /** `live` are the call ids the call factory knows, `mic` the filter of the pool, and `unbound` the
      participants added while attached that no bind has reached yet. */
  datatype Conf = Conf(
    state: ConfState,
    participants: set<string>,
    live: set<string>,
    muted: set<string>,
    sources: seq<Source>,
    playbackMuted: bool,
    mic: set<string>,
    unbound: set<string>)

  datatype Op =
    | NewCall(id: string)
    | EndCall(id: string)
    | DefaultSources(addVideo: bool)
    | Attach
    | Detach
    | Add(id: string, peerMuted: bool, audio: Option<bool>, video: Option<bool>)
    | Bind(id: string)
    | Remove(id: string)
    | MuteHost(on: bool)
    | MuteLocalHost(on: bool)
    | MuteLocalVideo(on: bool)
    | MuteCall(id: string, on: bool)
    | MutePlayback(on: bool)

  function Empty(): Conf {
    Conf(DETACHED, {}, {}, {}, [], false, {}, {})
  }

  predicate HasAudio(sources: seq<Source>) {
    exists i :: 0 <= i < |sources| && sources[i].kind == AUDIO
  }

  predicate HasNone(sources: seq<Source>) {
    exists i :: 0 <= i < |sources| && sources[i].kind == NONE
  }

  predicate AnyMuted(sources: seq<Source>) {
    exists i :: 0 <= i < |sources| && (sources[i] == Source(AUDIO, true) || sources[i].kind == NONE)
  }

  /** isMediaSourceMuted for audio: assumed muted when not attached or when a source is not set. */
  predicate SourceMuted(c: Conf) {
    c.state != ATTACHED || AnyMuted(c.sources)
  }

  predicate HostMuted(c: Conf) {
    SourceMuted(c) || HOST in c.muted
  }

  function SetMute(sources: seq<Source>, kind: Kind, on: bool): seq<Source> {
    seq(|sources|, i requires 0 <= i < |sources| =>
      if sources[i].kind == kind then Source(kind, on) else sources[i])
  }

  function Filter(mic: set<string>, ids: set<string>, on: bool): set<string> {
    if on then mic + ids else mic - ids
  }

  function DefaultOf(video: bool): seq<Source> {
    [Source(AUDIO, false)] + (if video then [Source(VIDEO, false)] else [])
  }

  function UnbindHost(c: Conf): Conf {
    c.(mic := Filter(c.mic, c.participants, true))
  }

  function BindHost(c: Conf): Conf {
    c.(mic := Filter(c.mic, c.participants * c.live, false))
  }

  function DoAttach(c: Conf): Conf {
    if c.state != DETACHED then c
    else
      var n := c.(state := ATTACHED, unbound := {});
      n.(mic := Filter(c.mic, c.participants * c.live, HostMuted(n)))
  }

  /** `stream` is the mute state of a call's stream of that kind, if it has one. */
  function TakeOver(sources: seq<Source>, kind: Kind, stream: Option<bool>): seq<Source> {
    if stream.Some? then SetMute(sources, kind, stream.value) else sources
  }

  function DoAdd(c: Conf, id: string, peerMuted: bool, audio: Option<bool>, video: Option<bool>): Conf {
    if id in c.participants then c
    else
      var n := c.(participants := c.participants + {id},
                  unbound := if c.state == ATTACHED then c.unbound + {id} else c.unbound);
      if id !in c.live then n
      else n.(muted := if peerMuted then c.muted + {id} else c.muted,
              // The first participant of an attached conference hands its mute states to the host.
              sources := if c.state == ATTACHED && n.participants == {id}
                         then TakeOver(TakeOver(c.sources, AUDIO, audio), VIDEO, video) else c.sources)
  }

  function DoBind(c: Conf, id: string): Conf {
    if c.state != ATTACHED then c else c.(mic := Filter(c.mic, {id}, HostMuted(c)), unbound := c.unbound - {id})
  }

  function DoRemove(c: Conf, id: string): Conf {
    var n := c.(mic := Filter(c.mic, {id}, false));
    if id !in c.participants then n
    else n.(participants := c.participants - {id}, unbound := c.unbound - {id},
            muted := if id in c.live then c.muted - {id} else c.muted)
  }

  function DoMuteHost(c: Conf, on: bool): Conf {
    if on && HOST !in c.muted then UnbindHost(c.(muted := c.muted + {HOST}))
    else if !on && HOST in c.muted then
      var n := c.(muted := c.muted - {HOST});
      if SourceMuted(c) then n else BindHost(n)
    else c
  }

  function DoMuteLocalHost(c: Conf, on: bool): Conf {
    if c.state == ATTACHED then
      if on == SourceMuted(c) then c
      else
        var n := if HOST in c.muted then c else if on then UnbindHost(c) else BindHost(c);
        n.(sources := SetMute(c.sources, AUDIO, on))
    else c.(mic := Filter(c.mic, c.participants, on), sources := SetMute(c.sources, AUDIO, on))
  }

  function DoMuteCall(c: Conf, id: string, on: bool): Conf {
    if on && id !in c.muted then c.(muted := c.muted + {id})
    else if !on && id in c.muted then DoBind(c.(muted := c.muted - {id}), id)
    else c
  }

  function DoMutePlayback(c: Conf, on: bool): Conf {
    var n := c.(playbackMuted := on);
    if c.state != ATTACHED then n
    else n.(mic := Filter(c.mic, c.participants, HostMuted(c)), unbound := {})
  }

  /** Call ids are never the reserved key, and an id is never reused for a second call. */
  function Apply(c: Conf, op: Op): Conf {
    match op
    case NewCall(id) => if id in c.participants || id == HOST then c else c.(live := c.live + {id})
    case EndCall(id) => c.(live := c.live - {id})
    case DefaultSources(video) => if c.state == ATTACHED then c else c.(sources := DefaultOf(video))
    case Attach => DoAttach(c)
    case Detach => if c.state == ATTACHED then c.(state := DETACHED, sources := DefaultOf(false)) else c
    case Add(id, peerMuted, audio, video) => if id == HOST then c else DoAdd(c, id, peerMuted, audio, video)
    case Bind(id) => DoBind(c, id)
    case Remove(id) => if id == HOST then c else DoRemove(c, id)
    case MuteHost(on) => DoMuteHost(c, on)
    case MuteLocalHost(on) => DoMuteLocalHost(c, on)
    case MuteLocalVideo(on) => c.(sources := SetMute(c.sources, VIDEO, on))
    case MuteCall(id, on) => if id == HOST then c else DoMuteCall(c, id, on)
    case MutePlayback(on) => DoMutePlayback(c, on)
  }

  function Run(c: Conf, ops: seq<Op>): Conf
    decreases |ops|
  {
    if ops == [] then c else Run(Apply(c, ops[0]), ops[1..])
  }

  // ---- The filter agrees with the flags ----------------------------------------------------

  /** The participants the filter speaks for. */
  function Bound(c: Conf): set<string> {
    c.participants * c.live - c.unbound
  }

  predicate FilterAgrees(c: Conf) {
    c.state == ATTACHED ==> forall p :: p in Bound(c) ==> (p in c.mic <==> HostMuted(c))
  }

  predicate Usable(c: Conf) {
    HasAudio(c.sources) && !HasNone(c.sources)
  }

  lemma SetMuteAudio(sources: seq<Source>, on: bool)
    ensures AnyMuted(SetMute(sources, AUDIO, on)) <==> HasNone(sources) || (on && HasAudio(sources))
    ensures HasAudio(SetMute(sources, AUDIO, on)) <==> HasAudio(sources)
    ensures HasNone(SetMute(sources, AUDIO, on)) <==> HasNone(sources)
  {
    var after := SetMute(sources, AUDIO, on);
    assert forall i :: 0 <= i < |sources| ==> after[i].kind == sources[i].kind;
    if on && HasAudio(sources) {
      var i :| 0 <= i < |sources| && sources[i].kind == AUDIO;
      assert after[i] == Source(AUDIO, true);
    }
  }

  lemma SetMuteVideo(sources: seq<Source>, on: bool)
    ensures AnyMuted(SetMute(sources, VIDEO, on)) <==> AnyMuted(sources)
    ensures HasAudio(SetMute(sources, VIDEO, on)) <==> HasAudio(sources)
    ensures HasNone(SetMute(sources, VIDEO, on)) <==> HasNone(sources)
  {
    var after := SetMute(sources, VIDEO, on);
    assert forall i :: 0 <= i < |sources| ==> after[i].kind == sources[i].kind;
    assert forall i :: 0 <= i < |sources| && sources[i].kind != VIDEO ==> after[i] == sources[i];
  }

  lemma DefaultIsUsable(video: bool)
    ensures HasAudio(DefaultOf(video)) && !HasNone(DefaultOf(video))
  {
    assert DefaultOf(video)[0].kind == AUDIO;
  }

  lemma TakenOver(c: Conf, audio: Option<bool>, video: Option<bool>)
    requires Usable(c)
    ensures var sources := TakeOver(TakeOver(c.sources, AUDIO, audio), VIDEO, video);
            && HasAudio(sources) && !HasNone(sources)
            && (AnyMuted(sources) <==> if audio.Some? then audio.value else AnyMuted(c.sources))
  {
    if audio.Some? { SetMuteAudio(c.sources, audio.value); }
    if video.Some? { SetMuteVideo(TakeOver(c.sources, AUDIO, audio), video.value); }
  }

  lemma AddKeeps(c: Conf, id: string, peerMuted: bool, audio: Option<bool>, video: Option<bool>)
    requires FilterAgrees(c) && Usable(c)
    ensures var n := Apply(c, Add(id, peerMuted, audio, video)); FilterAgrees(n) && Usable(n)
  {
    TakenOver(c, audio, video);
  }

  lemma ApplyKeeps(c: Conf, op: Op)
    requires FilterAgrees(c) && Usable(c)
    ensures FilterAgrees(Apply(c, op)) && Usable(Apply(c, op))
  {
    match op
    case DefaultSources(video) => DefaultIsUsable(video);
    case Detach => DefaultIsUsable(false);
    case MuteLocalHost(on) => SetMuteAudio(c.sources, on);
    case MuteLocalVideo(on) => SetMuteVideo(c.sources, on);
    case Add(id, peerMuted, audio, video) => AddKeeps(c, id, peerMuted, audio, video);
    case _ =>
  }

  lemma {:induction false} RunKeeps(c: Conf, ops: seq<Op>)
    requires FilterAgrees(c) && Usable(c)
    ensures FilterAgrees(Run(c, ops)) && Usable(Run(c, ops))
    decreases |ops|
  {
    if ops != [] {
      ApplyKeeps(c, ops[0]);
      RunKeeps(Apply(c, ops[0]), ops[1..]);
    }
  }

  // ---- The flags follow the requests -----------------------------------------------------------

  /** A conference with its sources set, as its users know it: who takes part, whose calls are live and muted, and the
      two switches that mute the host. There is no filter and no source list. */
  datatype Board = Board(
    state: ConfState, participants: set<string>, live: set<string>, muted: set<string>, unbound: set<string>,
    hostFlag: bool, sourceFlag: bool)

  function Enact(b: Board, op: Op): Board {
    match op
    case NewCall(id) => if id in b.participants || id == HOST then b else b.(live := b.live + {id})
    case EndCall(id) => b.(live := b.live - {id})
    case DefaultSources(_) => if b.state == ATTACHED then b else b.(sourceFlag := false)
    case Attach => if b.state == DETACHED then b.(state := ATTACHED, unbound := {}) else b
    case Detach => if b.state == ATTACHED then b.(state := DETACHED, sourceFlag := false) else b
    case Add(id, peerMuted, audio, _) =>
      if id == HOST || id in b.participants then b
      else
        var first := b.state == ATTACHED && b.participants == {} && id in b.live;
        b.(participants := b.participants + {id},
           unbound := if b.state == ATTACHED then b.unbound + {id} else b.unbound,
           muted := if peerMuted && id in b.live then b.muted + {id} else b.muted,
           sourceFlag := if first && audio.Some? then audio.value else b.sourceFlag)
    case Bind(id) => if b.state == ATTACHED then b.(unbound := b.unbound - {id}) else b
    case Remove(id) =>
      if id == HOST || id !in b.participants then b
      else b.(participants := b.participants - {id}, unbound := b.unbound - {id},
              muted := if id in b.live then b.muted - {id} else b.muted)
    case MuteHost(on) => b.(hostFlag := on)
    case MuteLocalHost(on) => b.(sourceFlag := on)
    case MuteLocalVideo(_) => b
    case MuteCall(id, on) =>
      if id == HOST then b
      else if on then b.(muted := b.muted + {id})
      else b.(unbound := if id in b.muted && b.state == ATTACHED then b.unbound - {id} else b.unbound,
              muted := b.muted - {id})
    case MutePlayback(_) => if b.state == ATTACHED then b.(unbound := {}) else b
  }

  function EnactAll(b: Board, ops: seq<Op>): Board
    decreases |ops|
  {
    if ops == [] then b else EnactAll(Enact(b, ops[0]), ops[1..])
  }

  function BoardOf(c: Conf): Board {
    Board(c.state, c.participants, c.live, c.muted - {HOST}, c.unbound, HOST in c.muted, AnyMuted(c.sources))
  }

  lemma BoardAdd(c: Conf, id: string, peerMuted: bool, audio: Option<bool>, video: Option<bool>)
    requires Usable(c)
    ensures BoardOf(Apply(c, Add(id, peerMuted, audio, video))) == Enact(BoardOf(c), Add(id, peerMuted, audio, video))
  {
    TakenOver(c, audio, video);
    if id !in c.participants {
      FirstIsUnbound(c, id);
      assert c.participants == {} ==> c.participants + {id} == {id};
      assert id != HOST ==> c.muted + {id} - {HOST} == c.muted - {HOST} + {id};
    }
  }

  lemma BoardRemove(c: Conf, id: string)
    ensures BoardOf(Apply(c, Remove(id))) == Enact(BoardOf(c), Remove(id))
  {
    if id != HOST { assert c.muted - {id} - {HOST} == c.muted - {HOST} - {id}; }
  }

  lemma BoardMuteHost(c: Conf, on: bool)
    ensures BoardOf(Apply(c, MuteHost(on))) == Enact(BoardOf(c), MuteHost(on))
  {
    assert c.muted + {HOST} - {HOST} == c.muted - {HOST} == c.muted - {HOST} - {HOST};
  }

  lemma BoardMuteCall(c: Conf, id: string, on: bool)
    ensures BoardOf(Apply(c, MuteCall(id, on))) == Enact(BoardOf(c), MuteCall(id, on))
  {
    if id != HOST {
      assert c.muted + {id} - {HOST} == c.muted - {HOST} + {id};
      assert c.muted - {id} - {HOST} == c.muted - {HOST} - {id};
    }
  }

  lemma BoardStep(c: Conf, op: Op)
    requires Usable(c)
    ensures BoardOf(Apply(c, op)) == Enact(BoardOf(c), op)
  {
    match op
    case DefaultSources(video) => DefaultIsQuiet(video);
    case Detach => DefaultIsQuiet(false);
    case MuteLocalHost(on) => SetMuteAudio(c.sources, on);
    case MuteLocalVideo(on) => SetMuteVideo(c.sources, on);
    case Add(id, peerMuted, audio, video) => BoardAdd(c, id, peerMuted, audio, video);
    case Remove(id) => BoardRemove(c, id);
    case MuteHost(on) => BoardMuteHost(c, on);
    case MuteCall(id, on) => BoardMuteCall(c, id, on);
    case _ =>
  }

  lemma DefaultIsQuiet(video: bool)
    ensures !AnyMuted(DefaultOf(video))
  {
  }

  lemma {:induction false} BoardRun(c: Conf, ops: seq<Op>)
    requires FilterAgrees(c) && Usable(c)
    ensures BoardOf(Run(c, ops)) == EnactAll(BoardOf(c), ops)
    decreases |ops|
  {
    if ops != [] {
      ApplyKeeps(c, ops[0]);
      BoardStep(c, ops[0]);
      BoardRun(Apply(c, ops[0]), ops[1..]);
    }
  }

  /** Once the host's default sources were set, after every sequence of operations an attached conference
      filters the microphone of each bound live participant exactly when either switch mutes the host. */
  lemma MicFilterAgrees(c: Conf, video: bool, ops: seq<Op>, p: string)
    requires c.state != ATTACHED
    requires var b := EnactAll(BoardOf(c).(sourceFlag := false), ops);
             b.state == ATTACHED && p in b.participants && p in b.live && p !in b.unbound
    ensures var n, b := Run(Apply(c, DefaultSources(video)), ops), EnactAll(BoardOf(c).(sourceFlag := false), ops);
            && BoardOf(n) == b
            && (p in n.mic <==> b.sourceFlag || b.hostFlag)
  {
    var start := Apply(c, DefaultSources(video));
    DefaultIsUsable(video);
    DefaultIsQuiet(video);
    assert BoardOf(start) == BoardOf(c).(sourceFlag := false);
    BoardRun(start, ops);
    RunKeeps(start, ops);
    assert p in Bound(Run(start, ops));
  }

  // ---- What the switches leave alone -------------------------------------------------------------

  /** The default sources are one un-muted audio source and, if asked for, one un-muted video source; detaching leaves
      the audio source. */
  lemma DefaultSourcesAre(c: Conf, video: bool)
    ensures c.state != ATTACHED ==>
              var n := Apply(c, DefaultSources(video)).sources;
              && |n| == (if video then 2 else 1) && n[0] == Source(AUDIO, false)
              && (video ==> n[1] == Source(VIDEO, false))
    ensures c.state == ATTACHED ==> Apply(c, Detach).sources == [Source(AUDIO, false)]
  {
  }

  /** Muting the local video changes the video sources and nothing else. */
  lemma VideoMuteIs(c: Conf, on: bool)
    ensures var n := Apply(c, MuteLocalVideo(on));
            && n.(sources := c.sources) == c && |n.sources| == |c.sources|
            && forall i :: 0 <= i < |c.sources| ==>
                 n.sources[i] == if c.sources[i].kind == VIDEO then Source(VIDEO, on) else c.sources[i]
  {
  }

  /** A call that leaves is forgotten by the filter, whether or not it was a participant, and no other call is. */
  lemma LeavingIsForgotten(c: Conf, id: string, other: string)
    requires id != HOST
    ensures var n := Apply(c, Remove(id));
            && id !in n.mic && id !in n.participants
            && (other != id ==> (other in n.mic <==> other in c.mic))
            && (other != id ==> (other in n.participants <==> other in c.participants))
            && n.sources == c.sources && n.state == c.state && n.live == c.live
  {
  }

  /** Asking the moderator's mute for what is already so does nothing. */
  lemma RepeatedHostMuteIsQuiet(c: Conf, on: bool)
    requires HOST in c.muted <==> on
    ensures Apply(c, MuteHost(on)) == c
  {
  }

  /** While the host is not attached, its mute is recorded and sets the filter of every participant. */
  lemma DetachedMuteIs(c: Conf, on: bool, p: string)
    requires c.state != ATTACHED
    ensures var n := Apply(c, MuteLocalHost(on));
            && (p in n.mic <==> if p in c.participants then on else p in c.mic)
            && |n.sources| == |c.sources|
            && forall i :: 0 <= i < |c.sources| ==>
                 n.sources[i] == if c.sources[i].kind == AUDIO then Source(AUDIO, on) else c.sources[i]
  {
  }

  /** Muting the local playback is recorded, and mutes nobody. */
  lemma PlaybackMuteIs(c: Conf, on: bool)
    ensures var n := Apply(c, MutePlayback(on));
            n.playbackMuted == on && n.muted == c.muted && n.sources == c.sources && n.participants == c.participants
  {
  }

  // ---- Exactly when a local mute works -----------------------------------------------------

  /** Muting keeps the agreement iff there is an audio source to remember it, un-muting iff every source is set. */
  lemma LocalMuteWorksIff(c: Conf, on: bool, p: string)
    requires c.state == ATTACHED && FilterAgrees(c) && HOST !in c.muted && p in Bound(c)
    requires on != SourceMuted(c)
    ensures FilterAgrees(Apply(c, MuteLocalHost(on))) <==> if on then HasAudio(c.sources) else !HasNone(c.sources)
  {
    SetMuteAudio(c.sources, on);
    var n := Apply(c, MuteLocalHost(on));
    assert p in Bound(n);
  }

  /** A mute or un-mute of the attached local host that decides the filter of someone finds the sources it needs. */
  predicate Works(c: Conf, op: Op) {
    op.MuteLocalHost? && c.state == ATTACHED && op.on != SourceMuted(c) && HOST !in c.muted && Bound(c) != {} ==>
      if op.on then HasAudio(c.sources) else !HasNone(c.sources)
  }

  lemma OtherOpsAgree(c: Conf, op: Op)
    requires FilterAgrees(c) && !op.MuteLocalHost?
    ensures FilterAgrees(Apply(c, op))
  {
    if op.MuteLocalVideo? { SetMuteVideo(c.sources, op.on); }
    if op.Add? && op.id != HOST && op.id !in c.participants { FirstIsUnbound(c, op.id); }
  }

  /** A first participant that joins an attached conference is not bound yet, whatever it does to the sources. */
  lemma FirstIsUnbound(c: Conf, id: string)
    requires id !in c.participants
    ensures c.participants + {id} == {id} ==> c.participants == {}
  {
    assert forall p :: p in c.participants ==> p in c.participants + {id} && p != id;
  }

  lemma AgreesIffWorks(c: Conf, op: Op)
    requires FilterAgrees(c)
    ensures FilterAgrees(Apply(c, op)) <==> Works(c, op)
  {
    if !op.MuteLocalHost? {
      OtherOpsAgree(c, op);
    } else if c.state == ATTACHED && op.on != SourceMuted(c) && HOST !in c.muted && Bound(c) != {} {
      assert (forall p :: p !in Bound(c)) ==> Bound(c) == {};
      var p :| p in Bound(c);
      LocalMuteWorksIff(c, op.on, p);
    } else {
      SetMuteAudio(c.sources, op.on);
    }
  }

  ghost predicate AlwaysAgrees(c: Conf, ops: seq<Op>)
    decreases |ops|
  {
    FilterAgrees(c) && (ops == [] || AlwaysAgrees(Apply(c, ops[0]), ops[1..]))
  }

  ghost predicate AlwaysWorks(c: Conf, ops: seq<Op>)
    decreases |ops|
  {
    ops == [] || (Works(c, ops[0]) && AlwaysWorks(Apply(c, ops[0]), ops[1..]))
  }

  lemma {:induction false} AgreesRun(c: Conf, ops: seq<Op>)
    requires FilterAgrees(c)
    ensures AlwaysAgrees(c, ops) <==> AlwaysWorks(c, ops)
    decreases |ops|
  {
    if ops != [] {
      AgreesIffWorks(c, ops[0]);
      if Works(c, ops[0]) { AgreesRun(Apply(c, ops[0]), ops[1..]); }
    }
  }

  /** Over every run of a new conference, with sources or without, the filter agrees with the flags in every state
      exactly when each such mute finds an audio source and each such un-mute no unset one. */
  lemma MicFilterAgreesIff(ops: seq<Op>)
    ensures AlwaysAgrees(Empty(), ops) <==> AlwaysWorks(Empty(), ops)
  {
    AgreesRun(Empty(), ops);
  }

  /** Attaching a conference whose default sources were never set leaves the host with none: a mute then
      silences the microphone while the source reads as un-muted, and un-muting is refused as a no-op. */
  lemma WithoutSourcesAMuteCannotBeUndone(c: Conf, p: string)
    requires c.state == DETACHED && c.sources == [] && HOST !in c.muted && p in c.participants * c.live
    ensures var attached := Apply(c, Attach);
            var muted := Apply(attached, MuteLocalHost(true));
            && p in muted.mic && !HostMuted(muted)
            && Apply(muted, MuteLocalHost(false)) == muted
            && p !in attached.mic
  {}

  /** Attach and detach are inverse on the filter's inputs: re-attaching starts un-muted at the source. */
  lemma DetachForgetsTheSourceMute(c: Conf)
    requires c.state == ATTACHED && FilterAgrees(c)
    ensures var n := Apply(Apply(c, Detach), Attach);
            && n.state == ATTACHED && !AnyMuted(n.sources)
            && (HostMuted(n) <==> HOST in c.muted)
            && FilterAgrees(n)
  {
    DefaultIsUsable(false);
  }

  /** The two flags are independent: with both set, clearing either one keeps every bound participant filtered. */
  lemma OneFlagIsEnough(c: Conf, p: string)
    requires c.state == ATTACHED && FilterAgrees(c) && Usable(c) && p in Bound(c)
    requires HOST in c.muted && AnyMuted(c.sources)
    ensures p in Apply(c, MuteHost(false)).mic && p in Apply(c, MuteLocalHost(false)).mic
    ensures p !in Apply(Apply(c, MuteHost(false)), MuteLocalHost(false)).mic
    ensures p !in Apply(Apply(c, MuteLocalHost(false)), MuteHost(false)).mic
  {
    SetMuteAudio(c.sources, false);
  }

  lemma AloneIff(ids: set<string>, id: string)
    requires id in ids
    ensures |ids| == 1 <==> ids == {id}
  {
    assert |ids - {id}| == |ids| - 1;
    assert |ids - {id}| == 0 ==> ids == {id};
  }

  // ---- The object --------------------------------------------------------------------------

  class Conference {
    var state: ConfState
    var participants: set<string>
    var live: set<string>
    var participantsMuted: set<string>
    var hostSources: seq<Source>
    var localPlaybackMuted: bool
    var micMuted: set<string>
    ghost var unbound: set<string>

    ghost function Model(): Conf
      reads this
    {
      Conf(state, participants, live, participantsMuted, hostSources, localPlaybackMuted, micMuted, unbound)
    }

    /** The filter agrees with the two flags, and the host has sources to remember a mute. */
    ghost predicate Valid()
      reads this
    {
      FilterAgrees(Model()) && Usable(Model())
    }

    constructor ()
      ensures Model() == Empty() && FilterAgrees(Model())
    {
      state, participants, live, participantsMuted := DETACHED, {}, {}, {};
      hostSources, localPlaybackMuted, micMuted, unbound := [], false, {}, {};
    }

    method IsMediaSourceMuted() returns (muted: bool)
      ensures muted <==> SourceMuted(Model())
    {
      if state != ATTACHED {
        return true;
      }
      for i := 0 to |hostSources|
        invariant forall k :: 0 <= k < i ==> hostSources[k] != Source(AUDIO, true) && hostSources[k].kind != NONE
      {
        if hostSources[i].muted && hostSources[i].kind == AUDIO {
          return true;
        }
        if hostSources[i].kind == NONE {
          return true;
        }
      }
      return false;
    }

    method SetLocalHostMuteState(kind: Kind, on: bool)
      modifies this`hostSources
      ensures hostSources == SetMute(old(hostSources), kind, on)
    {
      var i := 0;
      while i < |hostSources|
        invariant 0 <= i <= |hostSources| == |old(hostSources)|
        invariant forall k :: 0 <= k < i ==> hostSources[k] == SetMute(old(hostSources), kind, on)[k]
        invariant forall k :: i <= k < |hostSources| ==> hostSources[k] == old(hostSources)[k]
      {
        if hostSources[i].kind == kind {
          hostSources := hostSources[i := Source(kind, on)];
        }
        i := i + 1;
      }
    }

    /** setMicMuted for each id of a participant list. */
    method SetMicMuted(ids: set<string>, on: bool)
      modifies this`micMuted
      ensures micMuted == Filter(old(micMuted), ids, on)
    {
      var rest := ids;
      while rest != {}
        invariant rest <= ids
        invariant micMuted == Filter(old(micMuted), ids - rest, on)
        decreases |rest|
      {
        assert (forall s :: s !in rest) ==> rest == {};
        var id :| id in rest;
        micMuted := if on then micMuted + {id} else micMuted - {id};
        rest := rest - {id};
      }
      assert ids - rest == ids;
    }

    method SetLocalHostDefaultMediaSource(addVideo: bool)
      requires state != ATTACHED
      modifies this`hostSources
      ensures Model() == Apply(old(Model()), DefaultSources(addVideo)) && Valid()
    {
      DefaultIsUsable(addVideo);
      hostSources := [Source(AUDIO, false)];
      if addVideo {
        hostSources := hostSources + [Source(VIDEO, false)];
      }
      assert hostSources == DefaultOf(addVideo);
    }

    method AttachLocalParticipant()
      modifies this
      ensures Model() == Apply(old(Model()), Attach)
      ensures old(Valid()) ==> Valid()
    {
      if FilterAgrees(Model()) && Usable(Model()) { ApplyKeeps(Model(), Attach); }
      if state == DETACHED {
        state := ATTACHED;
        unbound := {};
        var muted := IsMediaSourceMuted();
        SetMicMuted(participants * live, muted || HOST in participantsMuted);
      }
    }

    method DetachLocalParticipant()
      modifies this
      ensures Model() == Apply(old(Model()), Detach)
      ensures old(Valid()) ==> Valid()
    {
      if FilterAgrees(Model()) && Usable(Model()) { ApplyKeeps(Model(), Detach); }
      if state == ATTACHED {
        hostSources := [Source(AUDIO, false)];
        state := DETACHED;
      }
    }

    /** takeOverMediaSourceControl for one kind of stream. */
    method TakeOverStream(kind: Kind, stream: Option<bool>)
      modifies this`hostSources
      ensures hostSources == if old(state == ATTACHED && |participants| == 1)
                             then TakeOver(old(hostSources), kind, stream) else old(hostSources)
    {
      if stream.Some? && state == ATTACHED && |participants| == 1 {
        SetLocalHostMuteState(kind, stream.value);
      }
    }

    method TakeOverMediaSourceControl(id: string, audio: Option<bool>, video: Option<bool>)
      requires id in participants
      modifies this`hostSources
      ensures hostSources == if state == ATTACHED && participants == {id}
                             then TakeOver(TakeOver(old(hostSources), AUDIO, audio), VIDEO, video)
                             else old(hostSources)
    {
      AloneIff(participants, id);
      TakeOverStream(AUDIO, audio);
      TakeOverStream(VIDEO, video);
    }

    method AddParticipant(id: string, peerMuted: bool, audio: Option<bool>, video: Option<bool>)
      requires id != HOST
      modifies this
      ensures Model() == Apply(old(Model()), Add(id, peerMuted, audio, video))
      ensures old(Valid()) ==> Valid()
    {
      if Usable(Model()) && FilterAgrees(Model()) { AddKeeps(Model(), id, peerMuted, audio, video); }
      if id in participants {
        return;
      }
      participants := participants + {id};
      if state == ATTACHED {
        unbound := unbound + {id};
      }
      if id in live {
        if peerMuted {
          participantsMuted := participantsMuted + {id};
        }
        TakeOverMediaSourceControl(id, audio, video);
      }
    }

    method BindParticipant(id: string)
      modifies this
      ensures Model() == Apply(old(Model()), Bind(id))
      ensures old(Valid()) ==> Valid()
    {
      if FilterAgrees(Model()) && Usable(Model()) { ApplyKeeps(Model(), Bind(id)); }
      if state == ATTACHED {
        var muted := IsMediaSourceMuted();
        SetMicMuted({id}, muted || HOST in participantsMuted);
        unbound := unbound - {id};
      }
    }

    method RemoveParticipant(id: string)
      requires id != HOST
      modifies this
      ensures Model() == Apply(old(Model()), Remove(id))
      ensures old(Valid()) ==> Valid()
    {
      if FilterAgrees(Model()) && Usable(Model()) { ApplyKeeps(Model(), Remove(id)); }
      SetMicMuted({id}, false);
      if id !in participants {
        return;
      }
      participants := participants - {id};
      unbound := unbound - {id};
      if id in live {
        participantsMuted := participantsMuted - {id};
      }
    }

    method MuteHostFlag(on: bool)
      modifies this
      ensures Model() == Apply(old(Model()), MuteHost(on))
      ensures old(Valid()) ==> Valid()
    {
      if FilterAgrees(Model()) && Usable(Model()) { ApplyKeeps(Model(), MuteHost(on)); }
      var hostMuted := HOST in participantsMuted;
      if on && !hostMuted {
        participantsMuted := participantsMuted + {HOST};
        SetMicMuted(participants, true);
      } else if !on && hostMuted {
        participantsMuted := participantsMuted - {HOST};
        var muted := IsMediaSourceMuted();
        if !muted {
          SetMicMuted(participants * live, false);
        }
      }
    }

    method MuteLocalHostAudio(on: bool)
      modifies this
      ensures Model() == Apply(old(Model()), MuteLocalHost(on))
      ensures old(Valid()) ==> Valid()
    {
      if FilterAgrees(Model()) && Usable(Model()) { ApplyKeeps(Model(), MuteLocalHost(on)); }
      var attached := state == ATTACHED;
      var muted := IsMediaSourceMuted();
      if attached && on == muted {
        return;
      }
      if attached && HOST !in participantsMuted {
        if on {
          SetMicMuted(participants, true);
        } else {
          SetMicMuted(participants * live, false);
        }
      } else if !attached {
        SetMicMuted(participants, on);
      }
      SetLocalHostMuteState(AUDIO, on);
    }

    method MuteParticipantCall(id: string, on: bool)
      requires id != HOST
      modifies this
      ensures Model() == Apply(old(Model()), MuteCall(id, on))
      ensures old(Valid()) ==> Valid()
    {
      if FilterAgrees(Model()) && Usable(Model()) { ApplyKeeps(Model(), MuteCall(id, on)); }
      var muted := id in participantsMuted;
      if on && !muted {
        participantsMuted := participantsMuted + {id};
      } else if !on && muted {
        participantsMuted := participantsMuted - {id};
        BindParticipant(id);
      }
    }

    method MuteLocalPlayback(on: bool)
      modifies this
      ensures Model() == Apply(old(Model()), MutePlayback(on))
      ensures old(Valid()) ==> Valid()
    {
      if FilterAgrees(Model()) && Usable(Model()) { ApplyKeeps(Model(), MutePlayback(on)); }
      localPlaybackMuted := on;
      if state != ATTACHED {
        return;
      }
      var muted := IsMediaSourceMuted();
      SetMicMuted(participants, muted || HOST in participantsMuted);
      unbound := {};
    }
  }
}
