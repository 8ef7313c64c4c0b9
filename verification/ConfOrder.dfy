/** Conference orders: the JSON builders, and the versioned parser that dispatches an incoming order to the
    handlers that are registered, subject to what the sending peer may do. */
module ConfOrder {

  import opened Options

  /** Object members are listed in key order, as the ordered map of the JSON library iterates them. */
  datatype Json =
    | Null
    | Bool(b: bool)
    | Int(i: int)
    | Str(s: string)
    | Arr(items: seq<Json>)
    | Obj(members: seq<Member>)

  datatype Member = Member(key: string, value: Json)

  // ---- Values ------------------------------------------------------------------------------

  predicate Less(a: string, b: string) {
    b != [] && (a == [] || a[0] < b[0] || (a[0] == b[0] && Less(a[1..], b[1..])))
  }

  lemma {:induction false} LessTotal(a: string, b: string)
    ensures a == b || Less(a, b) || Less(b, a)
    ensures !(Less(a, b) && Less(b, a)) && !Less(a, a)
    decreases |a|
  {
    if a != [] {
      LessTotal(a[1..], a[1..]);
      if b != [] {
        LessTotal(a[1..], b[1..]);
        if a[0] == b[0] && a[1..] == b[1..] {
          assert a == [a[0]] + a[1..] && b == [b[0]] + b[1..];
        }
      }
    }
  }

  lemma {:induction false} LessTransitive(a: string, b: string, c: string)
    requires Less(a, b) && Less(b, c)
    ensures Less(a, c)
    decreases |a|
  {
    if a != [] && a[0] == b[0] == c[0] { LessTransitive(a[1..], b[1..], c[1..]); }
  }

  function Put(ms: seq<Member>, key: string, value: Json): seq<Member> {
    if ms == [] then [Member(key, value)]
    else if ms[0].key == key then [Member(key, value)] + ms[1..]
    else if Less(key, ms[0].key) then [Member(key, value)] + ms
    else [ms[0]] + Put(ms[1..], key, value)
  }

  function Find(ms: seq<Member>, key: string): Option<Json> {
    if ms == [] then None else if ms[0].key == key then Some(ms[0].value) else Find(ms[1..], key)
  }

  predicate Has(ms: seq<Member>, key: string) {
    Find(ms, key).Some?
  }

  /** Reading a missing member gives null. */
  function Get(ms: seq<Member>, key: string): Json {
    match Find(ms, key) case Some(v) => v case None => Null
  }

  function Digits(n: nat): string {
    if n < 10 then ['0' + n as char] else Digits(n / 10) + ['0' + (n % 10) as char]
  }

  function Decimal(n: int): string {
    if n < 0 then "-" + Digits(-n) else Digits(n)
  }

  // The conversions of the JSON library; None is an exception.

  function AsBool(v: Json): Option<bool> {
    match v
    case Null => Some(false)
    case Bool(b) => Some(b)
    case Int(i) => Some(i != 0)
    case _ => None
  }

  function AsString(v: Json): Option<string> {
    match v
    case Null => Some("")
    case Bool(b) => Some(if b then "true" else "false")
    case Int(i) => Some(Decimal(i))
    case Str(s) => Some(s)
    case _ => None
  }

  function AsInt(v: Json): Option<int> {
    match v
    case Null => Some(0)
    case Bool(b) => Some(if b then 1 else 0)
    case Int(i) => if -0x8000_0000 <= i < 0x8000_0000 then Some(i) else None
    case _ => None
  }

  function AsUInt(v: Json): Option<int> {
    match v
    case Null => Some(0)
    case Bool(b) => Some(if b then 1 else 0)
    case Int(i) => if 0 <= i < 0x1_0000_0000 then Some(i) else None
    case _ => None
  }

  /** Iterating an array gives its indices as keys; iterating a scalar gives nothing. */
  function Entries(v: Json): seq<Member> {
    match v
    case Obj(ms) => ms
    case Arr(items) => seq(|items|, i requires 0 <= i < |items| => Member(Decimal(i), items[i]))
    case _ => []
  }

  // ---- Builders ----------------------------------------------------------------------------

  function Single(key: string, value: Json): Json {
    Obj(Put([], key, value))
  }

  function DeviceOrder(uri: string, device: string, value: Json): Json {
    Obj(Put(Put([], uri, Single("devices", Single(device, value))), "version", Int(1)))
  }

  function MediaOrder(uri: string, device: string, stream: string, key: string, state: bool): Json {
    DeviceOrder(uri, device, Single("medias", Single(stream, Single(key, Bool(state)))))
  }

  function RaiseHandOrder(uri: string, device: string, state: bool): Json {
    DeviceOrder(uri, device, Single("raiseHand", Bool(state)))
  }

  function HangupOrder(uri: string, device: string): Json {
    DeviceOrder(uri, device, Single("hangup", Str("true")))
  }

  function MuteAudioOrder(uri: string, device: string, stream: string, state: bool): Json {
    MediaOrder(uri, device, stream, "muteAudio", state)
  }

  function ActiveStreamOrder(uri: string, device: string, stream: string, state: bool): Json {
    MediaOrder(uri, device, stream, "active", state)
  }

  // ---- Dispatch ----------------------------------------------------------------------------

  datatype Kind =
    | OnVersion | OnHangup | OnRaiseHand | OnActiveStream | OnMuteAudio | OnMuteVideo | OnLayout
    | OnKick | OnActiveParticipant | OnMuteParticipant | OnRaiseHandUri | OnVoice

  datatype Action =
    | Version(version: int)
    | Hangup(uri: string, device: string)
    | RaiseHand(uri: string, device: string, state: bool)
    | ActiveStream(stream: string, state: bool)
    | MuteAudio(uri: string, device: string, stream: string, state: bool)
    | MuteVideo(uri: string, device: string, stream: string, state: bool)
    | Layout(layout: int)
    | Kick(uri: string)
    | ActiveParticipant(uri: string)
    | MuteParticipant(uri: string, state: bool)
    | RaiseHandUri(uri: string, state: bool)
    | Voice(stream: string, state: bool)

  function KindOf(a: Action): Kind {
    match a
    case Version(_) => OnVersion
    case Hangup(_, _) => OnHangup
    case RaiseHand(_, _, _) => OnRaiseHand
    case ActiveStream(_, _) => OnActiveStream
    case MuteAudio(_, _, _, _) => OnMuteAudio
    case MuteVideo(_, _, _, _) => OnMuteVideo
    case Layout(_) => OnLayout
    case Kick(_) => OnKick
    case ActiveParticipant(_) => OnActiveParticipant
    case MuteParticipant(_, _) => OnMuteParticipant
    case RaiseHandUri(_, _) => OnRaiseHandUri
    case Voice(_, _) => OnVoice
  }

  /** What a (partial) parse did: the handlers it called, and whether a conversion threw. */
  datatype Outcome = Outcome(trace: seq<Action>, threw: bool)

  const Nothing: Outcome := Outcome([], false)

  function Then(a: Outcome, b: Outcome): Outcome {
    if a.threw then a else Outcome(a.trace + b.trace, b.threw)
  }

  /** Calls one handler if it is registered and its key is present. */
  function Dispatch(on: set<Kind>, kind: Kind, present: bool, action: Option<Action>): Outcome {
    if kind in on && present then
      (match action case Some(a) => Outcome([a], false) case None => Outcome([], true))
    else Nothing
  }

  /** The registered handlers, whether the authorization check is, the sender and whether it moderates. */
  datatype Context = Context(on: set<Kind>, check: bool, peer: string, moderator: bool)

  function Map1<A>(o: Option<A>, f: A -> Action): Option<Action> {
    match o case Some(a) => Some(f(a)) case None => None
  }

  function Media(c: Context, uri: string, device: string, m: Member): Outcome {
    if !m.value.Obj? then Nothing
    else
      var ms := m.value.members;
      var voice := Dispatch(c.on, OnVoice, Has(ms, "voiceActivity"),
                            Map1(AsBool(Get(ms, "voiceActivity")), b => Voice(m.key, b)));
      if !c.moderator then voice
      else Then(voice, Then(
        Dispatch(c.on, OnMuteVideo, Has(ms, "muteVideo"),
                 Map1(AsBool(Get(ms, "muteVideo")), b => MuteVideo(uri, device, m.key, b))), Then(
        Dispatch(c.on, OnMuteAudio, Has(ms, "muteAudio"),
                 Map1(AsBool(Get(ms, "muteAudio")), b => MuteAudio(uri, device, m.key, b))),
        Dispatch(c.on, OnActiveStream, Has(ms, "active"),
                 Map1(AsBool(Get(ms, "active")), b => ActiveStream(m.key, b))))))
  }

  function Medias(c: Context, uri: string, device: string, ms: seq<Member>): Outcome {
    if ms == [] then Nothing else Then(Media(c, uri, device, ms[0]), Medias(c, uri, device, ms[1..]))
  }

  predicate MayMoveHand(c: Context, uri: string, state: bool) {
    c.peer == uri || (!state && c.moderator)
  }

  function Hand(c: Context, uri: string, device: string, ms: seq<Member>): Outcome {
    if OnRaiseHand !in c.on || !Has(ms, "raiseHand") then Nothing
    else match AsBool(Get(ms, "raiseHand"))
      case None => Outcome([], true)
      case Some(state) =>
        if MayMoveHand(c, uri, state) then Outcome([RaiseHand(uri, device, state)], false) else Nothing
  }

  function Device(c: Context, uri: string, m: Member): Outcome {
    if !m.value.Obj? then Nothing
    else
      var ms := m.value.members;
      Then(Hand(c, uri, m.key, ms), Then(
           Dispatch(c.on, OnHangup, c.moderator && Has(ms, "hangup"), Some(Hangup(uri, m.key))),
           if Has(ms, "medias") then Medias(c, uri, m.key, Entries(Get(ms, "medias"))) else Nothing))
  }

  function Devices(c: Context, uri: string, ms: seq<Member>): Outcome {
    if ms == [] then Nothing else Then(Device(c, uri, ms[0]), Devices(c, uri, ms[1..]))
  }

  function Account(c: Context, m: Member): Outcome {
    if m.key == "version" then Nothing
    else if c.moderator && m.key == "layout" then
      Dispatch(c.on, OnLayout, true, Map1(AsInt(m.value), n => Layout(n)))
    else if !m.value.Obj? || !Has(m.value.members, "devices") then Nothing
    else Devices(c, m.key, Entries(Get(m.value.members, "devices")))
  }

  function Accounts(c: Context, ms: seq<Member>): Outcome {
    if ms == [] then Nothing else Then(Account(c, ms[0]), Accounts(c, ms[1..]))
  }

  function ParseV1(c: Context, ms: seq<Member>): Outcome {
    if c.check then Accounts(c, ms) else Nothing
  }

  function HandV0(c: Context, ms: seq<Member>): Outcome {
    if !Has(ms, "handRaised") then Nothing
    else match (AsString(Get(ms, "handState")), AsString(Get(ms, "handRaised")))
      case (Some(state), Some(uri)) =>
        if OnRaiseHandUri in c.on && MayMoveHand(c, uri, state == "true")
        then Outcome([RaiseHandUri(uri, state == "true")], false) else Nothing
      case _ => Outcome([], true)
  }

  function MuteV0(ms: seq<Member>): Option<Action> {
    match (AsString(Get(ms, "muteParticipant")), AsString(Get(ms, "muteState")))
    case (Some(uri), Some(state)) => Some(MuteParticipant(uri, state == "true"))
    case _ => None
  }

  function ModerationV0(c: Context, ms: seq<Member>): Outcome {
    Then(Dispatch(c.on, OnLayout, Has(ms, "layout"), Map1(AsInt(Get(ms, "layout")), n => Layout(n))), Then(
         Dispatch(c.on, OnActiveParticipant, Has(ms, "activeParticipant"),
                  Map1(AsString(Get(ms, "activeParticipant")), s => ActiveParticipant(s))), Then(
         Dispatch(c.on, OnMuteParticipant, Has(ms, "muteParticipant") && Has(ms, "muteState"), MuteV0(ms)),
         Dispatch(c.on, OnKick, Has(ms, "hangupParticipant"),
                  Map1(AsString(Get(ms, "hangupParticipant")), s => Kick(s))))))
  }

  function ParseV0(c: Context, ms: seq<Member>): Outcome {
    if !c.check then Nothing
    else if !c.moderator then HandV0(c, ms)
    else Then(HandV0(c, ms), ModerationV0(c, ms))
  }

  function ParseMembers(c: Context, ms: seq<Member>): Outcome {
    if !Has(ms, "version") then ParseV0(c, ms)
    else match AsUInt(Get(ms, "version"))
      case None => Outcome([], true)
      case Some(v) =>
        Then(Dispatch(c.on, OnVersion, true, Some(Version(v))), if v == 1 then ParseV1(c, ms) else Nothing)
  }

  /** Membership tests on anything but an object or null throw. */
  function Parse(c: Context, root: Json): Outcome {
    match root
    case Obj(ms) => ParseMembers(c, ms)
    case Null => ParseMembers(c, [])
    case _ => Outcome([], true)
  }
}

/** What the parser guarantees for every order, and that it undoes the builders. */
module ConfOrderLaws {
  import opened Options
  import opened ConfOrder

  // ---- Authorization -----------------------------------------------------------------------

  /** What each action demands of the sender. */
  predicate Allowed(a: Action, peer: string, moderator: bool) {
    match a
    case Version(_) => true
    case Voice(_, _) => true
    case RaiseHand(uri, _, state) => peer == uri || (!state && moderator)
    case RaiseHandUri(uri, state) => peer == uri || (!state && moderator)
    case _ => moderator
  }

  predicate Lawful(c: Context, o: Outcome) {
    forall i :: 0 <= i < |o.trace| ==> Allowed(o.trace[i], c.peer, c.moderator) && KindOf(o.trace[i]) in c.on
  }

  lemma LawfulThen(c: Context, a: Outcome, b: Outcome)
    requires Lawful(c, a) && Lawful(c, b)
    ensures Lawful(c, Then(a, b))
  {}

  lemma LawfulDispatch(c: Context, kind: Kind, present: bool, action: Option<Action>)
    requires present && action.Some? ==> KindOf(action.value) == kind && Allowed(action.value, c.peer, c.moderator)
    ensures Lawful(c, Dispatch(c.on, kind, present, action))
  {}

  lemma LawfulFour(c: Context, o1: Outcome, o2: Outcome, o3: Outcome, o4: Outcome)
    requires Lawful(c, o1) && Lawful(c, o2) && Lawful(c, o3) && Lawful(c, o4)
    ensures Lawful(c, Then(o1, Then(o2, Then(o3, o4))))
  {
    LawfulThen(c, o3, o4);
    LawfulThen(c, o2, Then(o3, o4));
    LawfulThen(c, o1, Then(o2, Then(o3, o4)));
  }

  lemma LawfulMedia(c: Context, uri: string, device: string, m: Member)
    ensures Lawful(c, Media(c, uri, device, m))
  {
    if m.value.Obj? {
      var ms := m.value.members;
      var voice := Map1(AsBool(Get(ms, "voiceActivity")), b => Voice(m.key, b));
      LawfulDispatch(c, OnVoice, Has(ms, "voiceActivity"), voice);
      if c.moderator {
        var video := Map1(AsBool(Get(ms, "muteVideo")), b => MuteVideo(uri, device, m.key, b));
        var audio := Map1(AsBool(Get(ms, "muteAudio")), b => MuteAudio(uri, device, m.key, b));
        var active := Map1(AsBool(Get(ms, "active")), b => ActiveStream(m.key, b));
        LawfulDispatch(c, OnMuteVideo, Has(ms, "muteVideo"), video);
        LawfulDispatch(c, OnMuteAudio, Has(ms, "muteAudio"), audio);
        LawfulDispatch(c, OnActiveStream, Has(ms, "active"), active);
        LawfulFour(c, Dispatch(c.on, OnVoice, Has(ms, "voiceActivity"), voice),
                   Dispatch(c.on, OnMuteVideo, Has(ms, "muteVideo"), video),
                   Dispatch(c.on, OnMuteAudio, Has(ms, "muteAudio"), audio),
                   Dispatch(c.on, OnActiveStream, Has(ms, "active"), active));
      }
    }
  }

  lemma {:induction false} LawfulMedias(c: Context, uri: string, device: string, ms: seq<Member>)
    ensures Lawful(c, Medias(c, uri, device, ms))
    decreases |ms|
  {
    if ms != [] {
      LawfulMedia(c, uri, device, ms[0]);
      LawfulMedias(c, uri, device, ms[1..]);
      LawfulThen(c, Media(c, uri, device, ms[0]), Medias(c, uri, device, ms[1..]));
    }
  }

  lemma {:induction false} LawfulDevices(c: Context, uri: string, ms: seq<Member>)
    ensures Lawful(c, Devices(c, uri, ms))
    decreases |ms|
  {
    if ms != [] {
      if ms[0].value.Obj? {
        LawfulMedias(c, uri, ms[0].key, Entries(Get(ms[0].value.members, "medias")));
      }
      LawfulDevices(c, uri, ms[1..]);
      LawfulThen(c, Device(c, uri, ms[0]), Devices(c, uri, ms[1..]));
    }
  }

  lemma {:induction false} LawfulAccounts(c: Context, ms: seq<Member>)
    ensures Lawful(c, Accounts(c, ms))
    decreases |ms|
  {
    if ms != [] {
      if ms[0].value.Obj? {
        LawfulDevices(c, ms[0].key, Entries(Get(ms[0].value.members, "devices")));
      }
      LawfulAccounts(c, ms[1..]);
      LawfulThen(c, Account(c, ms[0]), Accounts(c, ms[1..]));
    }
  }

  lemma LawfulModeration(c: Context, ms: seq<Member>)
    requires c.moderator
    ensures Lawful(c, ModerationV0(c, ms))
  {
    var layout := Map1(AsInt(Get(ms, "layout")), n => Layout(n));
    var active := Map1(AsString(Get(ms, "activeParticipant")), s => ActiveParticipant(s));
    var kick := Map1(AsString(Get(ms, "hangupParticipant")), s => Kick(s));
    var both := Has(ms, "muteParticipant") && Has(ms, "muteState");
    LawfulDispatch(c, OnLayout, Has(ms, "layout"), layout);
    LawfulDispatch(c, OnActiveParticipant, Has(ms, "activeParticipant"), active);
    LawfulDispatch(c, OnMuteParticipant, both, MuteV0(ms));
    LawfulDispatch(c, OnKick, Has(ms, "hangupParticipant"), kick);
    LawfulFour(c, Dispatch(c.on, OnLayout, Has(ms, "layout"), layout),
               Dispatch(c.on, OnActiveParticipant, Has(ms, "activeParticipant"), active),
               Dispatch(c.on, OnMuteParticipant, both, MuteV0(ms)),
               Dispatch(c.on, OnKick, Has(ms, "hangupParticipant"), kick));
  }

  lemma LawfulV0(c: Context, ms: seq<Member>)
    ensures Lawful(c, ParseV0(c, ms))
  {
    assert Lawful(c, HandV0(c, ms));
    if c.moderator {
      LawfulModeration(c, ms);
      LawfulThen(c, HandV0(c, ms), ModerationV0(c, ms));
    }
  }

  /** For every order, also one that throws half way, every action taken was open to the sender:
      moderation needs a moderator, a hand is moved by its owner or lowered by a moderator. */
  lemma EveryActionIsAuthorised(c: Context, root: Json, i: nat)
    requires i < |Parse(c, root).trace|
    ensures Allowed(Parse(c, root).trace[i], c.peer, c.moderator) && KindOf(Parse(c, root).trace[i]) in c.on
  {
    var ms := if root.Obj? then root.members else [];
    LawfulV0(c, ms);
    LawfulAccounts(c, ms);
  }

  /** Without moderation rights an order can only announce its version, report voice and move the sender's own hand. */
  lemma OutsidersAreConfined(c: Context, root: Json, i: nat)
    requires !c.moderator && i < |Parse(c, root).trace|
    ensures var a := Parse(c, root).trace[i];
            a.Version? || a.Voice? || (a.RaiseHand? && a.uri == c.peer) || (a.RaiseHandUri? && a.uri == c.peer)
  {
    EveryActionIsAuthorised(c, root, i);
  }

  // ---- Optional handlers -------------------------------------------------------------------

  function Only(trace: seq<Action>, on: set<Kind>): seq<Action> {
    if trace == [] then []
    else (if KindOf(trace[0]) in on then [trace[0]] else []) + Only(trace[1..], on)
  }

  lemma {:induction false} OnlyConcat(a: seq<Action>, b: seq<Action>, on: set<Kind>)
    ensures Only(a + b, on) == Only(a, on) + Only(b, on)
    decreases |a|
  {
    if a == [] {
      assert a + b == b;
    } else {
      var head := if KindOf(a[0]) in on then [a[0]] else [];
      assert (a + b)[0] == a[0] && (a + b)[1..] == a[1..] + b;
      OnlyConcat(a[1..], b, on);
      assert head + (Only(a[1..], on) + Only(b, on)) == (head + Only(a[1..], on)) + Only(b, on);
    }
  }

  /** The outcome with fewer handlers is the full outcome with the missing ones filtered out. */
  predicate Restricts(part: Outcome, full: Outcome, on: set<Kind>) {
    !full.threw ==> !part.threw && part.trace == Only(full.trace, on)
  }

  lemma RestrictsThen(p1: Outcome, p2: Outcome, f1: Outcome, f2: Outcome, on: set<Kind>)
    requires Restricts(p1, f1, on) && Restricts(p2, f2, on)
    ensures Restricts(Then(p1, p2), Then(f1, f2), on)
  {
    OnlyConcat(f1.trace, f2.trace, on);
  }

  lemma RestrictsDispatch(part: set<Kind>, full: set<Kind>, kind: Kind, present: bool, action: Option<Action>)
    requires part <= full && (action.Some? ==> KindOf(action.value) == kind)
    ensures Restricts(Dispatch(part, kind, present, action), Dispatch(full, kind, present, action), part)
  {
    if action.Some? { assert [action.value][1..] == []; }
  }

  predicate Narrows(p: Context, f: Context) {
    p.on <= f.on && p.check == f.check && p.peer == f.peer && p.moderator == f.moderator
  }

  lemma RestrictsMedia(p: Context, f: Context, uri: string, device: string, m: Member)
    requires Narrows(p, f)
    ensures Restricts(Media(p, uri, device, m), Media(f, uri, device, m), p.on)
  {
    if m.value.Obj? {
      var ms := m.value.members;
      var voice := Map1(AsBool(Get(ms, "voiceActivity")), b => Voice(m.key, b));
      var video := Map1(AsBool(Get(ms, "muteVideo")), b => MuteVideo(uri, device, m.key, b));
      var audio := Map1(AsBool(Get(ms, "muteAudio")), b => MuteAudio(uri, device, m.key, b));
      var active := Map1(AsBool(Get(ms, "active")), b => ActiveStream(m.key, b));
      RestrictsDispatch(p.on, f.on, OnVoice, Has(ms, "voiceActivity"), voice);
      RestrictsFour(p.on, f.on, OnVoice, Has(ms, "voiceActivity"), voice, OnMuteVideo, Has(ms, "muteVideo"), video,
                    OnMuteAudio, Has(ms, "muteAudio"), audio, OnActiveStream, Has(ms, "active"), active);
    }
  }

  lemma RestrictsFour(part: set<Kind>, full: set<Kind>,
                      k1: Kind, b1: bool, a1: Option<Action>, k2: Kind, b2: bool, a2: Option<Action>,
                      k3: Kind, b3: bool, a3: Option<Action>, k4: Kind, b4: bool, a4: Option<Action>)
    requires part <= full
    requires (a1.Some? ==> KindOf(a1.value) == k1) && (a2.Some? ==> KindOf(a2.value) == k2)
    requires (a3.Some? ==> KindOf(a3.value) == k3) && (a4.Some? ==> KindOf(a4.value) == k4)
    ensures Restricts(
      Then(Dispatch(part, k1, b1, a1), Then(Dispatch(part, k2, b2, a2),
           Then(Dispatch(part, k3, b3, a3), Dispatch(part, k4, b4, a4)))),
      Then(Dispatch(full, k1, b1, a1), Then(Dispatch(full, k2, b2, a2),
           Then(Dispatch(full, k3, b3, a3), Dispatch(full, k4, b4, a4)))), part)
  {
    var p1, p2 := Dispatch(part, k1, b1, a1), Dispatch(part, k2, b2, a2);
    var p3, p4 := Dispatch(part, k3, b3, a3), Dispatch(part, k4, b4, a4);
    var f1, f2 := Dispatch(full, k1, b1, a1), Dispatch(full, k2, b2, a2);
    var f3, f4 := Dispatch(full, k3, b3, a3), Dispatch(full, k4, b4, a4);
    RestrictsDispatch(part, full, k1, b1, a1);
    RestrictsDispatch(part, full, k2, b2, a2);
    RestrictsDispatch(part, full, k3, b3, a3);
    RestrictsDispatch(part, full, k4, b4, a4);
    RestrictsThen(p3, p4, f3, f4, part);
    RestrictsThen(p2, Then(p3, p4), f2, Then(f3, f4), part);
    RestrictsThen(p1, Then(p2, Then(p3, p4)), f1, Then(f2, Then(f3, f4)), part);
  }

  lemma {:induction false} RestrictsMedias(p: Context, f: Context, uri: string, device: string, ms: seq<Member>)
    requires Narrows(p, f)
    ensures Restricts(Medias(p, uri, device, ms), Medias(f, uri, device, ms), p.on)
    decreases |ms|
  {
    if ms != [] {
      RestrictsMedia(p, f, uri, device, ms[0]);
      RestrictsMedias(p, f, uri, device, ms[1..]);
      RestrictsThen(Media(p, uri, device, ms[0]), Medias(p, uri, device, ms[1..]),
                    Media(f, uri, device, ms[0]), Medias(f, uri, device, ms[1..]), p.on);
    }
  }

  lemma RestrictsHand(p: Context, f: Context, uri: string, device: string, ms: seq<Member>)
    requires Narrows(p, f)
    ensures Restricts(Hand(p, uri, device, ms), Hand(f, uri, device, ms), p.on)
  {
    var full := Hand(f, uri, device, ms);
    if full.trace != [] { assert full.trace[1..] == []; }
  }

  lemma RestrictsDevice(p: Context, f: Context, uri: string, m: Member)
    requires Narrows(p, f)
    ensures Restricts(Device(p, uri, m), Device(f, uri, m), p.on)
  {
    if m.value.Obj? {
      var ms := m.value.members;
      var present := p.moderator && Has(ms, "hangup");
      var hangup := Some(Hangup(uri, m.key));
      var pm := if Has(ms, "medias") then Medias(p, uri, m.key, Entries(Get(ms, "medias"))) else Nothing;
      var fm := if Has(ms, "medias") then Medias(f, uri, m.key, Entries(Get(ms, "medias"))) else Nothing;
      RestrictsHand(p, f, uri, m.key, ms);
      RestrictsDispatch(p.on, f.on, OnHangup, present, hangup);
      RestrictsMedias(p, f, uri, m.key, Entries(Get(ms, "medias")));
      RestrictsThen(Dispatch(p.on, OnHangup, present, hangup), pm, Dispatch(f.on, OnHangup, present, hangup), fm, p.on);
      RestrictsThen(Hand(p, uri, m.key, ms), Then(Dispatch(p.on, OnHangup, present, hangup), pm),
                    Hand(f, uri, m.key, ms), Then(Dispatch(f.on, OnHangup, present, hangup), fm), p.on);
    }
  }

  lemma {:induction false} RestrictsDevices(p: Context, f: Context, uri: string, ms: seq<Member>)
    requires Narrows(p, f)
    ensures Restricts(Devices(p, uri, ms), Devices(f, uri, ms), p.on)
    decreases |ms|
  {
    if ms != [] {
      RestrictsDevice(p, f, uri, ms[0]);
      RestrictsDevices(p, f, uri, ms[1..]);
      RestrictsThen(Device(p, uri, ms[0]), Devices(p, uri, ms[1..]),
                    Device(f, uri, ms[0]), Devices(f, uri, ms[1..]), p.on);
    }
  }

  lemma {:induction false} RestrictsAccounts(p: Context, f: Context, ms: seq<Member>)
    requires Narrows(p, f)
    ensures Restricts(Accounts(p, ms), Accounts(f, ms), p.on)
    decreases |ms|
  {
    if ms != [] {
      RestrictsDispatch(p.on, f.on, OnLayout, true, Map1(AsInt(ms[0].value), n => Layout(n)));
      if ms[0].value.Obj? {
        RestrictsDevices(p, f, ms[0].key, Entries(Get(ms[0].value.members, "devices")));
      }
      RestrictsAccounts(p, f, ms[1..]);
      RestrictsThen(Account(p, ms[0]), Accounts(p, ms[1..]), Account(f, ms[0]), Accounts(f, ms[1..]), p.on);
    }
  }

  lemma RestrictsHandV0(p: Context, f: Context, ms: seq<Member>)
    requires Narrows(p, f)
    ensures Restricts(HandV0(p, ms), HandV0(f, ms), p.on)
  {
    var hand := HandV0(f, ms);
    if hand.trace != [] { assert hand.trace[1..] == []; }
  }

  lemma RestrictsModeration(p: Context, f: Context, ms: seq<Member>)
    requires Narrows(p, f)
    ensures Restricts(ModerationV0(p, ms), ModerationV0(f, ms), p.on)
  {
    RestrictsFour(p.on, f.on, OnLayout, Has(ms, "layout"), Map1(AsInt(Get(ms, "layout")), n => Layout(n)),
                  OnActiveParticipant, Has(ms, "activeParticipant"),
                  Map1(AsString(Get(ms, "activeParticipant")), s => ActiveParticipant(s)),
                  OnMuteParticipant, Has(ms, "muteParticipant") && Has(ms, "muteState"), MuteV0(ms),
                  OnKick, Has(ms, "hangupParticipant"), Map1(AsString(Get(ms, "hangupParticipant")), s => Kick(s)));
  }

  lemma RestrictsV0(p: Context, f: Context, ms: seq<Member>)
    requires Narrows(p, f)
    ensures Restricts(ParseV0(p, ms), ParseV0(f, ms), p.on)
  {
    RestrictsHandV0(p, f, ms);
    RestrictsModeration(p, f, ms);
    RestrictsThen(HandV0(p, ms), ModerationV0(p, ms), HandV0(f, ms), ModerationV0(f, ms), p.on);
  }

  /** Leaving handlers unregistered never drops an action of another: when the order parses with the larger
      set, the smaller set sees exactly the actions it handles, in the same order. */
  lemma MissingHandlersOnlyFilter(p: Context, f: Context, root: Json)
    requires Narrows(p, f) && !Parse(f, root).threw
    ensures !Parse(p, root).threw && Parse(p, root).trace == Only(Parse(f, root).trace, p.on)
  {
    var ms := if root.Obj? then root.members else [];
    RestrictsV0(p, f, ms);
    RestrictsAccounts(p, f, ms);
    var version := AsUInt(Get(ms, "version"));
    if Has(ms, "version") && version.Some? {
      var v := Some(Version(version.value));
      RestrictsDispatch(p.on, f.on, OnVersion, true, v);
      RestrictsThen(Dispatch(p.on, OnVersion, true, v), if version.value == 1 then ParseV1(p, ms) else Nothing,
                    Dispatch(f.on, OnVersion, true, v), if version.value == 1 then ParseV1(f, ms) else Nothing, p.on);
    }
  }

  // ---- Round trips -------------------------------------------------------------------------

  predicate Reserved(uri: string) {
    uri == "version" || uri == "layout"
  }

  function Announce(c: Context): seq<Action> {
    if OnVersion in c.on then [Version(1)] else []
  }

  lemma FindSingle(key: string, value: Json)
    ensures Single(key, value).members == [Member(key, value)]
    ensures Find(Single(key, value).members, key) == Some(value)
    ensures forall other :: other != key ==> Find(Single(key, value).members, other) == None
  {
    var ms := Single(key, value).members;
    forall other | other != key ensures Find(ms, other) == None { assert ms[1..] == []; }
  }

  /** The root of a device order has exactly two members, in one order or the other. */
  lemma DeviceOrderRoot(uri: string, device: string, value: Json)
    requires uri != "version"
    ensures var account := Member(uri, Single("devices", Single(device, value)));
            var version := Member("version", Int(1));
            var ms := DeviceOrder(uri, device, value).members;
            (ms == [account, version] || ms == [version, account]) && Find(ms, "version") == Some(Int(1))
  {
    var account := Member(uri, Single("devices", Single(device, value)));
    assert Put([], uri, account.value) == [account];
    assert [account][1..] == [];
    assert Put([], "version", Int(1)) == [Member("version", Int(1))];
    var ms := DeviceOrder(uri, device, value).members;
    if !Less("version", uri) {
      assert ms == [account] + [Member("version", Int(1))];
      assert ms[1..] == [Member("version", Int(1))];
    }
  }

  lemma TwoAccounts(c: Context, a: Member, b: Member)
    requires b.key == "version"
    ensures Accounts(c, [a, b]) == Account(c, a) && Accounts(c, [b, a]) == Account(c, a)
  {
    assert [a, b][1..] == [b] && [b, a][1..] == [a] && [a][1..] == [] && [b][1..] == [];
    assert Account(c, b) == Nothing;
    assert Accounts(c, [a]) == Then(Account(c, a), Nothing) && Accounts(c, [b]) == Then(Account(c, b), Nothing);
    assert Account(c, a).trace + [] == Account(c, a).trace;
  }

  /** Parsing a built device order announces the version and then does what the one device asks for. */
  lemma ParseDeviceOrder(c: Context, uri: string, device: string, value: Json)
    requires c.check && uri != "version" && !(c.moderator && uri == "layout")
    ensures Parse(c, DeviceOrder(uri, device, value))
         == Then(Outcome(Announce(c), false), Device(c, uri, Member(device, value)))
  {
    var account := Member(uri, Single("devices", Single(device, value)));
    var version := Member("version", Int(1));
    DeviceOrderRoot(uri, device, value);
    TwoAccounts(c, account, version);
    FindSingle("devices", Single(device, value));
    FindSingle(device, value);
    var d := Member(device, value);
    assert [d][1..] == [];
    assert Devices(c, uri, [d]) == Then(Device(c, uri, d), Nothing);
    assert Device(c, uri, d).trace + [] == Device(c, uri, d).trace;
    assert Account(c, account) == Device(c, uri, d);
  }

  lemma DeviceWithMedia(c: Context, uri: string, device: string, stream: string, key: string, state: bool)
    requires c.moderator && (key == "muteAudio" || key == "active")
    ensures Device(c, uri, Member(device, Single("medias", Single(stream, Single(key, Bool(state))))))
         == Media(c, uri, device, Member(stream, Single(key, Bool(state))))
  {
    var m := Member(stream, Single(key, Bool(state)));
    FindSingle("medias", Single(stream, m.value));
    FindSingle(stream, m.value);
    assert [m][1..] == [];
    assert Medias(c, uri, device, [m]) == Then(Media(c, uri, device, m), Nothing);
    assert Media(c, uri, device, m).trace + [] == Media(c, uri, device, m).trace;
  }

  lemma MediaMutes(c: Context, uri: string, device: string, stream: string, state: bool)
    requires c.moderator && OnMuteAudio in c.on
    ensures Media(c, uri, device, Member(stream, Single("muteAudio", Bool(state))))
         == Outcome([MuteAudio(uri, device, stream, state)], false)
  {
    FindSingle("muteAudio", Bool(state));
  }

  /** A moderator's muteAudio order comes back as exactly that action, for every uri but the two reserved keys. */
  lemma MuteAudioRoundTrip(c: Context, uri: string, device: string, stream: string, state: bool)
    requires c.check && c.moderator && OnMuteAudio in c.on && !Reserved(uri)
    ensures Parse(c, MuteAudioOrder(uri, device, stream, state))
         == Outcome(Announce(c) + [MuteAudio(uri, device, stream, state)], false)
  {
    ParseDeviceOrder(c, uri, device, Single("medias", Single(stream, Single("muteAudio", Bool(state)))));
    DeviceWithMedia(c, uri, device, stream, "muteAudio", state);
    MediaMutes(c, uri, device, stream, state);
  }

  lemma ActiveStreamRoundTrip(c: Context, uri: string, device: string, stream: string, state: bool)
    requires c.check && c.moderator && OnActiveStream in c.on && !Reserved(uri)
    ensures Parse(c, ActiveStreamOrder(uri, device, stream, state))
         == Outcome(Announce(c) + [ActiveStream(stream, state)], false)
  {
    ParseDeviceOrder(c, uri, device, Single("medias", Single(stream, Single("active", Bool(state)))));
    DeviceWithMedia(c, uri, device, stream, "active", state);
    FindSingle("active", Bool(state));
  }

  lemma HangupRoundTrip(c: Context, uri: string, device: string)
    requires c.check && c.moderator && OnHangup in c.on && !Reserved(uri)
    ensures Parse(c, HangupOrder(uri, device)) == Outcome(Announce(c) + [Hangup(uri, device)], false)
  {
    ParseDeviceOrder(c, uri, device, Single("hangup", Str("true")));
    FindSingle("hangup", Str("true"));
  }

  /** A built raiseHand is dispatched exactly when the peer is its target, or a moderator lowers the hand. */
  lemma RaiseHandRoundTrip(c: Context, uri: string, device: string, state: bool)
    requires c.check && OnRaiseHand in c.on && uri != "version" && !(c.moderator && uri == "layout")
    ensures var allowed := c.peer == uri || (!state && c.moderator);
            Parse(c, RaiseHandOrder(uri, device, state))
              == Outcome(Announce(c) + (if allowed then [RaiseHand(uri, device, state)] else []), false)
  {
    ParseDeviceOrder(c, uri, device, Single("raiseHand", Bool(state)));
    FindSingle("raiseHand", Bool(state));
  }

  /** The two reserved keys are exactly what breaks the round trip: one is overwritten by the version number,
      the other is read as a layout number and throws. */
  lemma ReservedUriIsLost(c: Context, uri: string, device: string, value: Json)
    requires c.check && c.moderator && OnLayout in c.on && Reserved(uri)
    ensures var o := Parse(c, DeviceOrder(uri, device, value));
            o.trace == Announce(c) && (o.threw <==> uri == "layout")
  {
    if uri == "version" {
      var ms := DeviceOrder(uri, device, value).members;
      assert Put([], uri, Single("devices", Single(device, value)))[1..] == [];
      assert ms == [Member("version", Int(1))];
      assert ms[1..] == [];
      assert Accounts(c, ms) == Then(Account(c, ms[0]), Nothing);
    } else {
      DeviceOrderRoot(uri, device, value);
      TwoAccounts(c, Member(uri, Single("devices", Single(device, value))), Member("version", Int(1)));
    }
  }

  // ---- Objects ----------------------------------------------------------------------------------

  predicate KeysInOrder(ms: seq<Member>) {
    forall i, j :: 0 <= i < j < |ms| ==> Less(ms[i].key, ms[j].key)
  }

  predicate KeysAbove(ms: seq<Member>, low: string) {
    forall i :: 0 <= i < |ms| ==> Less(low, ms[i].key)
  }

  lemma {:induction false} PutAbove(ms: seq<Member>, key: string, value: Json, low: string)
    requires KeysAbove(ms, low) && Less(low, key)
    ensures KeysAbove(Put(ms, key, value), low)
    decreases |ms|
  {
    if ms != [] { PutAbove(ms[1..], key, value, low); }
  }

  lemma ConsInOrder(m: Member, rest: seq<Member>)
    requires KeysInOrder(rest) && KeysAbove(rest, m.key)
    ensures KeysInOrder([m] + rest)
  {
    forall i, j | 0 <= i < j <= |rest| ensures Less(([m] + rest)[i].key, ([m] + rest)[j].key) {
      assert ([m] + rest)[j] == rest[j - 1];
    }
  }

  /** Setting a member of an object keeps the members in key order. */
  lemma {:induction false} PutKeepsOrder(ms: seq<Member>, key: string, value: Json)
    requires KeysInOrder(ms)
    ensures KeysInOrder(Put(ms, key, value))
    decreases |ms|
  {
    if ms != [] {
      var first, rest := ms[0], ms[1..];
      LessTotal(key, first.key);
      if first.key == key {
        ConsInOrder(Member(key, value), rest);
      } else if Less(key, first.key) {
        forall i | 0 <= i < |ms| ensures Less(key, ms[i].key) {
          if i > 0 { LessTransitive(key, first.key, ms[i].key); }
        }
        ConsInOrder(Member(key, value), ms);
      } else {
        PutKeepsOrder(rest, key, value);
        PutAbove(rest, key, value, first.key);
        ConsInOrder(first, Put(rest, key, value));
      }
    }
  }

  /** And changes that member only. */
  lemma {:induction false} PutFinds(ms: seq<Member>, key: string, value: Json, other: string)
    ensures Find(Put(ms, key, value), other) == if other == key then Some(value) else Find(ms, other)
    decreases |ms|
  {
    var after := Put(ms, key, value);
    if ms == [] {
      assert after[1..] == [];
    } else if ms[0].key == key {
      assert after[1..] == ms[1..];
    } else if Less(key, ms[0].key) {
      assert after[1..] == ms;
    } else {
      PutFinds(ms[1..], key, value, other);
      assert after[1..] == Put(ms[1..], key, value);
    }
  }

  // ---- What an order means -----------------------------------------------------------------------

  /** The member is there and reads as that truth value. */
  predicate Says(ms: seq<Member>, key: string, state: bool) {
    Has(ms, key) && AsBool(Get(ms, key)) == Some(state)
  }

  predicate Names(ms: seq<Member>, key: string, name: string) {
    Has(ms, key) && AsString(Get(ms, key)) == Some(name)
  }

  /** A stream asks for an action: its voice for anyone, the rest for a moderator. */
  predicate StreamAsks(c: Context, uri: string, device: string, m: Member, a: Action) {
    && m.value.Obj?
    && match a
       case Voice(stream, state) => OnVoice in c.on && stream == m.key && Says(m.value.members, "voiceActivity", state)
       case MuteVideo(u, d, stream, state) =>
         c.moderator && OnMuteVideo in c.on && u == uri && d == device && stream == m.key
         && Says(m.value.members, "muteVideo", state)
       case MuteAudio(u, d, stream, state) =>
         c.moderator && OnMuteAudio in c.on && u == uri && d == device && stream == m.key
         && Says(m.value.members, "muteAudio", state)
       case ActiveStream(stream, state) =>
         c.moderator && OnActiveStream in c.on && stream == m.key && Says(m.value.members, "active", state)
       case _ => false
  }

  predicate DeviceAsks(c: Context, uri: string, m: Member, a: Action) {
    && m.value.Obj?
    && (|| (a.RaiseHand? && OnRaiseHand in c.on && a.uri == uri && a.device == m.key
            && Says(m.value.members, "raiseHand", a.state) && (c.peer == uri || (c.moderator && !a.state)))
        || (a == Hangup(uri, m.key) && OnHangup in c.on && c.moderator && Has(m.value.members, "hangup"))
        || (Has(m.value.members, "medias")
            && var streams := Entries(Get(m.value.members, "medias"));
               exists i :: 0 <= i < |streams| && StreamAsks(c, uri, m.key, streams[i], a)))
  }

  predicate AccountAsks(c: Context, m: Member, a: Action) {
    && m.key != "version"
    && if c.moderator && m.key == "layout" then OnLayout in c.on && a.Layout? && AsInt(m.value) == Some(a.layout)
       else
         && m.value.Obj? && Has(m.value.members, "devices")
         && var devices := Entries(Get(m.value.members, "devices"));
            exists i :: 0 <= i < |devices| && DeviceAsks(c, m.key, devices[i], a)
  }

  /** A version 0 order. */
  predicate RootAsks(c: Context, ms: seq<Member>, a: Action) {
    match a
    case RaiseHandUri(uri, state) =>
      && OnRaiseHandUri in c.on && Names(ms, "handRaised", uri)
      && (state <==> AsString(Get(ms, "handState")) == Some("true"))
      && (c.peer == uri || (c.moderator && !state))
    case Layout(n) => c.moderator && OnLayout in c.on && Has(ms, "layout") && AsInt(Get(ms, "layout")) == Some(n)
    case ActiveParticipant(uri) => c.moderator && OnActiveParticipant in c.on && Names(ms, "activeParticipant", uri)
    case MuteParticipant(uri, state) =>
      && c.moderator && OnMuteParticipant in c.on && Names(ms, "muteParticipant", uri) && Has(ms, "muteState")
      && (state <==> AsString(Get(ms, "muteState")) == Some("true"))
    case Kick(uri) => c.moderator && OnKick in c.on && Names(ms, "hangupParticipant", uri)
    case _ => false
  }

  /** The whole order asks for an action. */
  predicate Asks(c: Context, root: Json, a: Action) {
    && root.Obj?
    && var ms := root.members;
       if !Has(ms, "version") then c.check && RootAsks(c, ms, a)
       else
         || (a.Version? && OnVersion in c.on && AsUInt(Get(ms, "version")) == Some(a.version))
         || (c.check && AsUInt(Get(ms, "version")) == Some(1)
             && exists i :: 0 <= i < |ms| && AccountAsks(c, ms[i], a))
  }

  lemma FourMean(o1: Outcome, o2: Outcome, o3: Outcome, o4: Outcome, a: Action)
    requires !Then(o1, Then(o2, Then(o3, o4))).threw
    ensures !o1.threw && !o2.threw && !o3.threw && !o4.threw
    ensures a in Then(o1, Then(o2, Then(o3, o4))).trace <==>
            a in o1.trace || a in o2.trace || a in o3.trace || a in o4.trace
  {
  }

  function OnStream(c: Context, kind: Kind, ms: seq<Member>, key: string, f: bool -> Action): Outcome {
    Dispatch(c.on, kind, Has(ms, key), Map1(AsBool(Get(ms, key)), f))
  }

  /** One key of a stream: the action for its truth value. */
  lemma OnStreamMeans(c: Context, kind: Kind, ms: seq<Member>, key: string, f: bool -> Action, a: Action)
    requires !OnStream(c, kind, ms, key, f).threw
    ensures a in OnStream(c, kind, ms, key, f).trace <==>
            kind in c.on && ((Says(ms, key, true) && a == f(true)) || (Says(ms, key, false) && a == f(false)))
  {
  }

  lemma StreamMeans(c: Context, uri: string, device: string, m: Member, a: Action)
    requires !Media(c, uri, device, m).threw
    ensures a in Media(c, uri, device, m).trace <==> StreamAsks(c, uri, device, m, a)
  {
    if m.value.Obj? {
      var ms := m.value.members;
      var voice := b => Voice(m.key, b);
      var video := b => MuteVideo(uri, device, m.key, b);
      var audio := b => MuteAudio(uri, device, m.key, b);
      var active := b => ActiveStream(m.key, b);
      var o1, o2 := OnStream(c, OnVoice, ms, "voiceActivity", voice), OnStream(c, OnMuteVideo, ms, "muteVideo", video);
      var o3, o4 := OnStream(c, OnMuteAudio, ms, "muteAudio", audio), OnStream(c, OnActiveStream, ms, "active", active);
      if c.moderator {
        assert Media(c, uri, device, m) == Then(o1, Then(o2, Then(o3, o4)));
        FourMean(o1, o2, o3, o4, a);
        OnStreamMeans(c, OnMuteVideo, ms, "muteVideo", video, a);
        OnStreamMeans(c, OnMuteAudio, ms, "muteAudio", audio, a);
        OnStreamMeans(c, OnActiveStream, ms, "active", active, a);
      } else {
        assert Media(c, uri, device, m) == o1;
      }
      OnStreamMeans(c, OnVoice, ms, "voiceActivity", voice, a);
    }
  }

  lemma {:induction false} StreamsMean(c: Context, uri: string, device: string, ms: seq<Member>, a: Action)
    requires !Medias(c, uri, device, ms).threw
    ensures a in Medias(c, uri, device, ms).trace <==>
            exists i :: 0 <= i < |ms| && StreamAsks(c, uri, device, ms[i], a)
    decreases |ms|
  {
    if ms != [] {
      StreamMeans(c, uri, device, ms[0], a);
      StreamsMean(c, uri, device, ms[1..], a);
      if i :| 0 < i < |ms| && StreamAsks(c, uri, device, ms[i], a) { assert ms[1..][i - 1] == ms[i]; }
      if i :| 0 <= i < |ms[1..]| && StreamAsks(c, uri, device, ms[1..][i], a) { assert ms[i + 1] == ms[1..][i]; }
    }
  }

  lemma DeviceMeans(c: Context, uri: string, m: Member, a: Action)
    requires !Device(c, uri, m).threw
    ensures a in Device(c, uri, m).trace <==> DeviceAsks(c, uri, m, a)
  {
    if m.value.Obj? {
      var ms := m.value.members;
      if Has(ms, "medias") { StreamsMean(c, uri, m.key, Entries(Get(ms, "medias")), a); }
    }
  }

  lemma {:induction false} DevicesMean(c: Context, uri: string, ms: seq<Member>, a: Action)
    requires !Devices(c, uri, ms).threw
    ensures a in Devices(c, uri, ms).trace <==> exists i :: 0 <= i < |ms| && DeviceAsks(c, uri, ms[i], a)
    decreases |ms|
  {
    if ms != [] {
      DeviceMeans(c, uri, ms[0], a);
      DevicesMean(c, uri, ms[1..], a);
      if i :| 0 < i < |ms| && DeviceAsks(c, uri, ms[i], a) { assert ms[1..][i - 1] == ms[i]; }
      if i :| 0 <= i < |ms[1..]| && DeviceAsks(c, uri, ms[1..][i], a) { assert ms[i + 1] == ms[1..][i]; }
    }
  }

  lemma AccountMeans(c: Context, m: Member, a: Action)
    requires !Account(c, m).threw
    ensures a in Account(c, m).trace <==> AccountAsks(c, m, a)
  {
    if m.key != "version" && !(c.moderator && m.key == "layout") && m.value.Obj? && Has(m.value.members, "devices") {
      DevicesMean(c, m.key, Entries(Get(m.value.members, "devices")), a);
    }
  }

  lemma {:induction false} AccountsMean(c: Context, ms: seq<Member>, a: Action)
    requires !Accounts(c, ms).threw
    ensures a in Accounts(c, ms).trace <==> exists i :: 0 <= i < |ms| && AccountAsks(c, ms[i], a)
    decreases |ms|
  {
    if ms != [] {
      AccountMeans(c, ms[0], a);
      AccountsMean(c, ms[1..], a);
      if i :| 0 < i < |ms| && AccountAsks(c, ms[i], a) { assert ms[1..][i - 1] == ms[i]; }
      if i :| 0 <= i < |ms[1..]| && AccountAsks(c, ms[1..][i], a) { assert ms[i + 1] == ms[1..][i]; }
    }
  }

  lemma RootMeans(c: Context, ms: seq<Member>, a: Action)
    requires !ParseV0(c, ms).threw
    ensures a in ParseV0(c, ms).trace <==> c.check && RootAsks(c, ms, a)
  {
    if c.check {
      HandMeans(c, ms, a);
      if c.moderator { ModerationMeans(c, ms, a); }
    }
  }

  lemma HandMeans(c: Context, ms: seq<Member>, a: Action)
    requires !HandV0(c, ms).threw
    ensures a in HandV0(c, ms).trace <==> a.RaiseHandUri? && RootAsks(c, ms, a)
  {
  }

  function OnRoot(c: Context, kind: Kind, ms: seq<Member>, key: string, f: string -> Action): Outcome {
    Dispatch(c.on, kind, Has(ms, key), Map1(AsString(Get(ms, key)), f))
  }

  /** One name in a version 0 order: the action for it. */
  lemma OnRootMeans(c: Context, kind: Kind, ms: seq<Member>, key: string, f: string -> Action, a: Action)
    requires !OnRoot(c, kind, ms, key, f).threw
    ensures a in OnRoot(c, kind, ms, key, f).trace <==>
            && kind in c.on && Has(ms, key) && AsString(Get(ms, key)).Some? && a == f(AsString(Get(ms, key)).value)
  {
  }

  function LayoutOnRoot(c: Context, ms: seq<Member>): Outcome {
    Dispatch(c.on, OnLayout, Has(ms, "layout"), Map1(AsInt(Get(ms, "layout")), n => Layout(n)))
  }

  function MuteOnRoot(c: Context, ms: seq<Member>): Outcome {
    Dispatch(c.on, OnMuteParticipant, Has(ms, "muteParticipant") && Has(ms, "muteState"), MuteV0(ms))
  }

  lemma LayoutMeans(c: Context, ms: seq<Member>, a: Action)
    requires !LayoutOnRoot(c, ms).threw
    ensures a in LayoutOnRoot(c, ms).trace <==>
            OnLayout in c.on && a.Layout? && Has(ms, "layout") && AsInt(Get(ms, "layout")) == Some(a.layout)
  {
  }

  lemma MuteMeans(c: Context, ms: seq<Member>, a: Action)
    requires !MuteOnRoot(c, ms).threw
    ensures a in MuteOnRoot(c, ms).trace <==>
            && OnMuteParticipant in c.on && a.MuteParticipant? && Names(ms, "muteParticipant", a.uri)
            && Has(ms, "muteState") && (a.state <==> AsString(Get(ms, "muteState")) == Some("true"))
  {
  }

  lemma ModerationMeans(c: Context, ms: seq<Member>, a: Action)
    requires c.moderator && !ModerationV0(c, ms).threw
    ensures a in ModerationV0(c, ms).trace <==> !a.RaiseHandUri? && RootAsks(c, ms, a)
  {
    var active, kick := s => ActiveParticipant(s), s => Kick(s);
    var o1, o3 := LayoutOnRoot(c, ms), MuteOnRoot(c, ms);
    var o2 := OnRoot(c, OnActiveParticipant, ms, "activeParticipant", active);
    var o4 := OnRoot(c, OnKick, ms, "hangupParticipant", kick);
    assert ModerationV0(c, ms) == Then(o1, Then(o2, Then(o3, o4)));
    FourMean(o1, o2, o3, o4, a);
    LayoutMeans(c, ms, a);
    OnRootMeans(c, OnActiveParticipant, ms, "activeParticipant", active, a);
    MuteMeans(c, ms, a);
    OnRootMeans(c, OnKick, ms, "hangupParticipant", kick, a);
  }

  /** For every order on which no conversion throws, the handlers are called with exactly the actions that the JSON asks
      for and the sender may ask for. */
  lemma ActionsAreWhatIsAsked(c: Context, root: Json, a: Action)
    requires !Parse(c, root).threw
    ensures a in Parse(c, root).trace <==> Asks(c, root, a)
  {
    if root.Obj? {
      var ms := root.members;
      if !Has(ms, "version") {
        RootMeans(c, ms, a);
      } else if AsUInt(Get(ms, "version")) == Some(1) && c.check {
        AccountsMean(c, ms, a);
      }
    }
  }

  // ---- When an order throws ---------------------------------------------------------------------------

  /** A member that is there does not read as a truth value. */
  predicate Garbled(ms: seq<Member>, key: string) {
    Has(ms, key) && AsBool(Get(ms, key)).None?
  }

  predicate Nameless(ms: seq<Member>, key: string) {
    Has(ms, key) && AsString(Get(ms, key)).None?
  }

  predicate StreamFails(c: Context, m: Member) {
    && m.value.Obj?
    && (|| (OnVoice in c.on && Garbled(m.value.members, "voiceActivity"))
        || (c.moderator && OnMuteVideo in c.on && Garbled(m.value.members, "muteVideo"))
        || (c.moderator && OnMuteAudio in c.on && Garbled(m.value.members, "muteAudio"))
        || (c.moderator && OnActiveStream in c.on && Garbled(m.value.members, "active")))
  }

  predicate DeviceFails(c: Context, m: Member) {
    && m.value.Obj?
    && (|| (OnRaiseHand in c.on && Garbled(m.value.members, "raiseHand"))
        || (Has(m.value.members, "medias")
            && var streams := Entries(Get(m.value.members, "medias"));
               exists i :: 0 <= i < |streams| && StreamFails(c, streams[i])))
  }

  predicate AccountFails(c: Context, m: Member) {
    && m.key != "version"
    && if c.moderator && m.key == "layout" then OnLayout in c.on && AsInt(m.value).None?
       else
         && m.value.Obj? && Has(m.value.members, "devices")
         && var devices := Entries(Get(m.value.members, "devices"));
            exists i :: 0 <= i < |devices| && DeviceFails(c, devices[i])
  }

  predicate RootFails(c: Context, ms: seq<Member>) {
    || (Has(ms, "handRaised") && (AsString(Get(ms, "handState")).None? || AsString(Get(ms, "handRaised")).None?))
    || (c.moderator && OnLayout in c.on && Has(ms, "layout") && AsInt(Get(ms, "layout")).None?)
    || (c.moderator && OnActiveParticipant in c.on && Nameless(ms, "activeParticipant"))
    || (c.moderator && OnMuteParticipant in c.on && Has(ms, "muteParticipant") && Has(ms, "muteState")
        && (Nameless(ms, "muteParticipant") || Nameless(ms, "muteState")))
    || (c.moderator && OnKick in c.on && Nameless(ms, "hangupParticipant"))
  }

  /** Some value that the parser has to read cannot be converted. */
  predicate Fails(c: Context, root: Json) {
    if !root.Obj? then !root.Null?
    else
      var ms := root.members;
      if !Has(ms, "version") then c.check && RootFails(c, ms)
      else
        || AsUInt(Get(ms, "version")).None?
        || (AsUInt(Get(ms, "version")) == Some(1) && c.check
            && exists i :: 0 <= i < |ms| && AccountFails(c, ms[i]))
  }

  lemma FourFail(o1: Outcome, o2: Outcome, o3: Outcome, o4: Outcome)
    ensures Then(o1, Then(o2, Then(o3, o4))).threw <==> o1.threw || o2.threw || o3.threw || o4.threw
  {
  }

  lemma OnStreamFails(c: Context, kind: Kind, ms: seq<Member>, key: string, f: bool -> Action)
    ensures OnStream(c, kind, ms, key, f).threw <==> kind in c.on && Garbled(ms, key)
  {
  }

  lemma StreamThrowsIff(c: Context, uri: string, device: string, m: Member)
    ensures Media(c, uri, device, m).threw <==> StreamFails(c, m)
  {
    if m.value.Obj? {
      var ms := m.value.members;
      var voice := b => Voice(m.key, b);
      var video := b => MuteVideo(uri, device, m.key, b);
      var audio := b => MuteAudio(uri, device, m.key, b);
      var active := b => ActiveStream(m.key, b);
      var o1, o2 := OnStream(c, OnVoice, ms, "voiceActivity", voice), OnStream(c, OnMuteVideo, ms, "muteVideo", video);
      var o3, o4 := OnStream(c, OnMuteAudio, ms, "muteAudio", audio), OnStream(c, OnActiveStream, ms, "active", active);
      assert Media(c, uri, device, m) == if c.moderator then Then(o1, Then(o2, Then(o3, o4))) else o1;
      FourFail(o1, o2, o3, o4);
      OnStreamFails(c, OnVoice, ms, "voiceActivity", voice);
      OnStreamFails(c, OnMuteVideo, ms, "muteVideo", video);
      OnStreamFails(c, OnMuteAudio, ms, "muteAudio", audio);
      OnStreamFails(c, OnActiveStream, ms, "active", active);
    }
  }

  lemma {:induction false} StreamsThrowIff(c: Context, uri: string, device: string, ms: seq<Member>)
    ensures Medias(c, uri, device, ms).threw <==> exists i :: 0 <= i < |ms| && StreamFails(c, ms[i])
    decreases |ms|
  {
    if ms != [] {
      StreamThrowsIff(c, uri, device, ms[0]);
      StreamsThrowIff(c, uri, device, ms[1..]);
      if i :| 0 < i < |ms| && StreamFails(c, ms[i]) { assert ms[1..][i - 1] == ms[i]; }
      if i :| 0 <= i < |ms[1..]| && StreamFails(c, ms[1..][i]) { assert ms[i + 1] == ms[1..][i]; }
    }
  }

  lemma DeviceThrowsIff(c: Context, uri: string, m: Member)
    ensures Device(c, uri, m).threw <==> DeviceFails(c, m)
  {
    if m.value.Obj? && Has(m.value.members, "medias") {
      StreamsThrowIff(c, uri, m.key, Entries(Get(m.value.members, "medias")));
    }
  }

  lemma {:induction false} DevicesThrowIff(c: Context, uri: string, ms: seq<Member>)
    ensures Devices(c, uri, ms).threw <==> exists i :: 0 <= i < |ms| && DeviceFails(c, ms[i])
    decreases |ms|
  {
    if ms != [] {
      DeviceThrowsIff(c, uri, ms[0]);
      DevicesThrowIff(c, uri, ms[1..]);
      if i :| 0 < i < |ms| && DeviceFails(c, ms[i]) { assert ms[1..][i - 1] == ms[i]; }
      if i :| 0 <= i < |ms[1..]| && DeviceFails(c, ms[1..][i]) { assert ms[i + 1] == ms[1..][i]; }
    }
  }

  lemma AccountThrowsIff(c: Context, m: Member)
    ensures Account(c, m).threw <==> AccountFails(c, m)
  {
    if m.key != "version" && !(c.moderator && m.key == "layout") && m.value.Obj? && Has(m.value.members, "devices") {
      DevicesThrowIff(c, m.key, Entries(Get(m.value.members, "devices")));
    }
  }

  lemma {:induction false} AccountsThrowIff(c: Context, ms: seq<Member>)
    ensures Accounts(c, ms).threw <==> exists i :: 0 <= i < |ms| && AccountFails(c, ms[i])
    decreases |ms|
  {
    if ms != [] {
      AccountThrowsIff(c, ms[0]);
      AccountsThrowIff(c, ms[1..]);
      if i :| 0 < i < |ms| && AccountFails(c, ms[i]) { assert ms[1..][i - 1] == ms[i]; }
      if i :| 0 <= i < |ms[1..]| && AccountFails(c, ms[1..][i]) { assert ms[i + 1] == ms[1..][i]; }
    }
  }

  lemma OnRootFails(c: Context, kind: Kind, ms: seq<Member>, key: string, f: string -> Action)
    ensures OnRoot(c, kind, ms, key, f).threw <==> kind in c.on && Nameless(ms, key)
  {
  }

  lemma RootThrowsIff(c: Context, ms: seq<Member>)
    ensures ParseV0(c, ms).threw <==> c.check && RootFails(c, ms)
  {
    var active, kick := s => ActiveParticipant(s), s => Kick(s);
    var o1, o3 := LayoutOnRoot(c, ms), MuteOnRoot(c, ms);
    var o2 := OnRoot(c, OnActiveParticipant, ms, "activeParticipant", active);
    var o4 := OnRoot(c, OnKick, ms, "hangupParticipant", kick);
    assert ModerationV0(c, ms) == Then(o1, Then(o2, Then(o3, o4)));
    FourFail(o1, o2, o3, o4);
    OnRootFails(c, OnActiveParticipant, ms, "activeParticipant", active);
    OnRootFails(c, OnKick, ms, "hangupParticipant", kick);
  }

  /** For every JSON value, parsing throws exactly when some value that the sender's order makes the parser read cannot
      be converted. */
  lemma ThrowsIff(c: Context, root: Json)
    ensures Parse(c, root).threw <==> Fails(c, root)
  {
    if root.Obj? {
      RootThrowsIff(c, root.members);
      AccountsThrowIff(c, root.members);
    } else if root.Null? {
      RootThrowsIff(c, []);
    }
  }

  // ---- In which order --------------------------------------------------------------------------------

  /** The place of an action among those of one stream, one device or one version 0 order. */
  function Place(a: Action): nat {
    match a
    case RaiseHandUri(_, _) => 0
    case Layout(_) => 1
    case ActiveParticipant(_) => 2
    case MuteParticipant(_, _) => 3
    case Kick(_) => 4
    case RaiseHand(_, _, _) => 0
    case Hangup(_, _) => 1
    case Voice(_, _) => 2
    case MuteVideo(_, _, _, _) => 3
    case MuteAudio(_, _, _, _) => 4
    case ActiveStream(_, _) => 5
    case Version(_) => 0
  }

  predicate InPlace(trace: seq<Action>) {
    forall i, j :: 0 <= i < j < |trace| ==> Place(trace[i]) < Place(trace[j])
  }

  predicate OnlyAt(o: Outcome, place: nat) {
    |o.trace| <= 1 && forall i :: 0 <= i < |o.trace| ==> Place(o.trace[i]) == place
  }

  lemma TwoInPlace(o1: Outcome, o2: Outcome, place: nat)
    requires OnlyAt(o1, place) && InPlace(o2.trace) && forall i :: 0 <= i < |o2.trace| ==> place < Place(o2.trace[i])
    ensures var trace := Then(o1, o2).trace;
            InPlace(trace) && forall i :: 0 <= i < |trace| ==> place <= Place(trace[i])
  {
    var trace := o1.trace + o2.trace;
    forall i, j | 0 <= i < j < |trace| ensures Place(trace[i]) < Place(trace[j]) {
      assert trace[j] == o2.trace[j - |o1.trace|];
    }
  }

  lemma FourInPlace(o1: Outcome, o2: Outcome, o3: Outcome, o4: Outcome, p: nat)
    requires OnlyAt(o1, p) && OnlyAt(o2, p + 1) && OnlyAt(o3, p + 2) && OnlyAt(o4, p + 3)
    ensures var trace := Then(o1, Then(o2, Then(o3, o4))).trace;
            InPlace(trace) && forall i :: 0 <= i < |trace| ==> p <= Place(trace[i])
  {
    TwoInPlace(o3, o4, p + 2);
    TwoInPlace(o2, Then(o3, o4), p + 1);
    TwoInPlace(o1, Then(o2, Then(o3, o4)), p);
  }

  lemma DispatchAt(on: set<Kind>, kind: Kind, present: bool, action: Option<Action>, place: nat)
    requires action.Some? ==> Place(action.value) == place
    ensures OnlyAt(Dispatch(on, kind, present, action), place)
  {
  }

  /** The actions of one stream come in their places, each at most once. */
  lemma StreamInPlace(c: Context, uri: string, device: string, m: Member)
    ensures var trace := Media(c, uri, device, m).trace;
            InPlace(trace) && forall i :: 0 <= i < |trace| ==> Place(trace[i]) >= 2
  {
    if m.value.Obj? {
      var ms := m.value.members;
      var a1 := Map1(AsBool(Get(ms, "voiceActivity")), b => Voice(m.key, b));
      var a2 := Map1(AsBool(Get(ms, "muteVideo")), b => MuteVideo(uri, device, m.key, b));
      var a3 := Map1(AsBool(Get(ms, "muteAudio")), b => MuteAudio(uri, device, m.key, b));
      var a4 := Map1(AsBool(Get(ms, "active")), b => ActiveStream(m.key, b));
      DispatchAt(c.on, OnVoice, Has(ms, "voiceActivity"), a1, 2);
      DispatchAt(c.on, OnMuteVideo, Has(ms, "muteVideo"), a2, 3);
      DispatchAt(c.on, OnMuteAudio, Has(ms, "muteAudio"), a3, 4);
      DispatchAt(c.on, OnActiveStream, Has(ms, "active"), a4, 5);
      FourInPlace(Dispatch(c.on, OnVoice, Has(ms, "voiceActivity"), a1),
                  Dispatch(c.on, OnMuteVideo, Has(ms, "muteVideo"), a2),
                  Dispatch(c.on, OnMuteAudio, Has(ms, "muteAudio"), a3),
                  Dispatch(c.on, OnActiveStream, Has(ms, "active"), a4), 2);
    }
  }

  lemma FrontInPlace(hand: Outcome, hang: Outcome, rest: Outcome)
    requires |hand.trace| <= 1 && |hang.trace| <= 1 && !Then(hand, Then(hang, rest)).threw
    requires forall x :: x in hand.trace ==> x.RaiseHand?
    requires forall x :: x in hang.trace ==> x.Hangup?
    ensures Fronted(Then(hand, Then(hang, rest)).trace, |hand.trace| + |hang.trace|, rest.trace)
  {
    var front := hand.trace + hang.trace;
    assert Then(hand, Then(hang, rest)).trace == front + rest.trace;
    assert (front + rest.trace)[..|front|] == front;
  }

  /** First at most one hand and then at most one hang-up, n in all, and then the rest. */
  predicate Fronted(trace: seq<Action>, n: nat, rest: seq<Action>) {
    && n <= |trace| && InPlace(trace[..n]) && trace[n..] == rest
    && forall i :: 0 <= i < n ==> trace[i].RaiseHand? || trace[i].Hangup?
  }

  function StreamActions(c: Context, uri: string, m: Member): seq<Action>
    requires m.value.Obj?
  {
    if Has(m.value.members, "medias") then Medias(c, uri, m.key, Entries(Get(m.value.members, "medias"))).trace else []
  }

  /** The hand of a device comes before its hang-up, and that before its streams, which come in key order. */
  lemma DeviceInPlace(c: Context, uri: string, m: Member)
    requires m.value.Obj? && !Device(c, uri, m).threw
    ensures exists n: nat :: Fronted(Device(c, uri, m).trace, n, StreamActions(c, uri, m))
  {
    var ms := m.value.members;
    var hand := Hand(c, uri, m.key, ms);
    var hang := Dispatch(c.on, OnHangup, c.moderator && Has(ms, "hangup"), Some(Hangup(uri, m.key)));
    var rest := if Has(ms, "medias") then Medias(c, uri, m.key, Entries(Get(ms, "medias"))) else Nothing;
    FrontInPlace(hand, hang, rest);
    assert Fronted(Device(c, uri, m).trace, |hand.trace| + |hang.trace|, StreamActions(c, uri, m));
  }

  /** The actions of a version 0 order come in their places, each at most once, also when a later one throws. */
  lemma RootInPlace(c: Context, ms: seq<Member>)
    ensures InPlace(ParseV0(c, ms).trace)
  {
    ModerationInPlace(c, ms);
    HandFirst(c, ms);
    if c.check && c.moderator { TwoInPlace(HandV0(c, ms), ModerationV0(c, ms), 0); }
  }

  lemma HandFirst(c: Context, ms: seq<Member>)
    ensures OnlyAt(HandV0(c, ms), 0)
  {
  }

  lemma ModerationInPlace(c: Context, ms: seq<Member>)
    ensures var trace := ModerationV0(c, ms).trace;
            InPlace(trace) && forall i :: 0 <= i < |trace| ==> Place(trace[i]) >= 1
  {
    var a1 := Map1(AsInt(Get(ms, "layout")), n => Layout(n));
    var a2 := Map1(AsString(Get(ms, "activeParticipant")), s => ActiveParticipant(s));
    var a4 := Map1(AsString(Get(ms, "hangupParticipant")), s => Kick(s));
    var muted := Has(ms, "muteParticipant") && Has(ms, "muteState");
    DispatchAt(c.on, OnLayout, Has(ms, "layout"), a1, 1);
    DispatchAt(c.on, OnActiveParticipant, Has(ms, "activeParticipant"), a2, 2);
    DispatchAt(c.on, OnMuteParticipant, muted, MuteV0(ms), 3);
    DispatchAt(c.on, OnKick, Has(ms, "hangupParticipant"), a4, 4);
    FourInPlace(Dispatch(c.on, OnLayout, Has(ms, "layout"), a1),
                Dispatch(c.on, OnActiveParticipant, Has(ms, "activeParticipant"), a2),
                Dispatch(c.on, OnMuteParticipant, muted, MuteV0(ms)),
                Dispatch(c.on, OnKick, Has(ms, "hangupParticipant"), a4), 1);
  }

  lemma JoinedTraces(a: Outcome, b: Outcome, c: Outcome)
    requires !Then(a, b).threw
    ensures Then(a, Outcome(b.trace + c.trace, c.threw)).trace == Then(a, b).trace + c.trace
  {
    assert a.trace + (b.trace + c.trace) == (a.trace + b.trace) + c.trace;
  }

  /** Streams are visited in key order: the actions of a list are those of its members in turn. */
  lemma {:induction false} StreamsInTurn(c: Context, uri: string, device: string, xs: seq<Member>, ys: seq<Member>)
    requires !Medias(c, uri, device, xs).threw
    ensures var both := Medias(c, uri, device, xs + ys);
            && both.trace == Medias(c, uri, device, xs).trace + Medias(c, uri, device, ys).trace
            && both.threw == Medias(c, uri, device, ys).threw
    decreases |xs|
  {
    if xs == [] {
      assert xs + ys == ys;
    } else {
      assert (xs + ys)[1..] == xs[1..] + ys;
      StreamsInTurn(c, uri, device, xs[1..], ys);
      JoinedTraces(Media(c, uri, device, xs[0]), Medias(c, uri, device, xs[1..]), Medias(c, uri, device, ys));
    }
  }

  /** And so are devices. */
  lemma {:induction false} DevicesInTurn(c: Context, uri: string, xs: seq<Member>, ys: seq<Member>)
    requires !Devices(c, uri, xs).threw
    ensures var both := Devices(c, uri, xs + ys);
            && both.trace == Devices(c, uri, xs).trace + Devices(c, uri, ys).trace
            && both.threw == Devices(c, uri, ys).threw
    decreases |xs|
  {
    if xs == [] {
      assert xs + ys == ys;
    } else {
      assert (xs + ys)[1..] == xs[1..] + ys;
      DevicesInTurn(c, uri, xs[1..], ys);
      JoinedTraces(Device(c, uri, xs[0]), Devices(c, uri, xs[1..]), Devices(c, uri, ys));
    }
  }

  /** And accounts. */
  lemma {:induction false} AccountsInTurn(c: Context, xs: seq<Member>, ys: seq<Member>)
    requires !Accounts(c, xs).threw
    ensures var both := Accounts(c, xs + ys);
            && both.trace == Accounts(c, xs).trace + Accounts(c, ys).trace
            && both.threw == Accounts(c, ys).threw
    decreases |xs|
  {
    if xs == [] {
      assert xs + ys == ys;
    } else {
      assert (xs + ys)[1..] == xs[1..] + ys;
      AccountsInTurn(c, xs[1..], ys);
      JoinedTraces(Account(c, xs[0]), Accounts(c, xs[1..]), Accounts(c, ys));
    }
  }
}
