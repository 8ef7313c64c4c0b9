/** The parser object: its handlers, and the loops that walk the order being parsed. `threw` is an exception in
    flight: it unwinds the loops and leaves the handlers already called as they are. */
module ConfProtocolParser {
  import opened ConfOrder
  import opened Options

  lemma {:induction false} MediasSplit(c: Context, uri: string, device: string, ms: seq<Member>, i: nat)
    requires i < |ms|
    ensures Medias(c, uri, device, ms[..i + 1]) == Then(Medias(c, uri, device, ms[..i]), Media(c, uri, device, ms[i]))
    decreases i
  {
    var more, less := ms[..i + 1], ms[..i];
    if i == 0 {
      assert more[1..] == [];
      assert Then(Media(c, uri, device, ms[0]), Nothing) == Media(c, uri, device, ms[0]);
    } else {
      assert more[1..] == ms[1..][..i] && less[1..] == ms[1..][..i - 1];
      MediasSplit(c, uri, device, ms[1..], i - 1);
      ThenAssociates(Media(c, uri, device, ms[0]), Medias(c, uri, device, less[1..]), Media(c, uri, device, ms[i]));
    }
  }

  lemma ThenAssociates(a: Outcome, b: Outcome, c: Outcome)
    ensures Then(Then(a, b), c) == Then(a, Then(b, c))
  {
    assert a.trace + b.trace + c.trace == a.trace + (b.trace + c.trace);
  }

  lemma {:induction false} DevicesSplit(c: Context, uri: string, ms: seq<Member>, i: nat)
    requires i < |ms|
    ensures Devices(c, uri, ms[..i + 1]) == Then(Devices(c, uri, ms[..i]), Device(c, uri, ms[i]))
    decreases i
  {
    var more, less := ms[..i + 1], ms[..i];
    if i == 0 {
      assert more[1..] == [];
      assert Then(Device(c, uri, ms[0]), Nothing) == Device(c, uri, ms[0]);
    } else {
      assert more[1..] == ms[1..][..i] && less[1..] == ms[1..][..i - 1];
      DevicesSplit(c, uri, ms[1..], i - 1);
      ThenAssociates(Device(c, uri, ms[0]), Devices(c, uri, less[1..]), Device(c, uri, ms[i]));
    }
  }

  lemma {:induction false} AccountsSplit(c: Context, ms: seq<Member>, i: nat)
    requires i < |ms|
    ensures Accounts(c, ms[..i + 1]) == Then(Accounts(c, ms[..i]), Account(c, ms[i]))
    decreases i
  {
    var more, less := ms[..i + 1], ms[..i];
    if i == 0 {
      assert more[1..] == [];
      assert Then(Account(c, ms[0]), Nothing) == Account(c, ms[0]);
    } else {
      assert more[1..] == ms[1..][..i] && less[1..] == ms[1..][..i - 1];
      AccountsSplit(c, ms[1..], i - 1);
      ThenAssociates(Account(c, ms[0]), Accounts(c, less[1..]), Account(c, ms[i]));
    }
  }

  /** Once a list has thrown, nothing later in it is visited. */
  lemma {:induction false} MediasStop(c: Context, uri: string, device: string, ms: seq<Member>, i: nat)
    requires i <= |ms| && Medias(c, uri, device, ms[..i]).threw
    ensures Medias(c, uri, device, ms) == Medias(c, uri, device, ms[..i])
    decreases i
  {
    assert ms[..i][1..] == ms[1..][..i - 1];
    if !Media(c, uri, device, ms[0]).threw { MediasStop(c, uri, device, ms[1..], i - 1); }
  }

  lemma {:induction false} DevicesStop(c: Context, uri: string, ms: seq<Member>, i: nat)
    requires i <= |ms| && Devices(c, uri, ms[..i]).threw
    ensures Devices(c, uri, ms) == Devices(c, uri, ms[..i])
    decreases i
  {
    assert ms[..i][1..] == ms[1..][..i - 1];
    if !Device(c, uri, ms[0]).threw { DevicesStop(c, uri, ms[1..], i - 1); }
  }

  lemma {:induction false} AccountsStop(c: Context, ms: seq<Member>, i: nat)
    requires i <= |ms| && Accounts(c, ms[..i]).threw
    ensures Accounts(c, ms) == Accounts(c, ms[..i])
    decreases i
  {
    assert ms[..i][1..] == ms[1..][..i - 1];
    if !Account(c, ms[0]).threw { AccountsStop(c, ms[1..], i - 1); }
  }

  lemma ThenNothing(a: Outcome)
    ensures Then(a, Nothing) == a
  {
    assert a.trace + [] == a.trace;
  }

  lemma NothingThen(a: Outcome)
    ensures Then(Nothing, a) == a
  {
    assert [] + a.trace == a.trace;
  }

  lemma ThenFour(a: Outcome, o1: Outcome, o2: Outcome, o3: Outcome, o4: Outcome)
    ensures Then(Then(Then(Then(a, o1), o2), o3), o4) == Then(a, Then(o1, Then(o2, Then(o3, o4))))
  {
    ThenAssociates(Then(Then(a, o1), o2), o3, o4);
    ThenAssociates(Then(a, o1), o2, Then(o3, o4));
    ThenAssociates(a, o1, Then(o2, Then(o3, o4)));
  }

  class Parser {
    const context: Context
    var trace: seq<Action>
    var threw: bool

    constructor (context: Context)
      ensures this.context == context && Done() == Nothing
    {
      this.context := context;
      trace, threw := [], false;
    }

    /** What the parser has done so far. */
    ghost function Done(): Outcome
      reads this
    {
      Outcome(trace, threw)
    }

    /** Calls one handler; an empty action is a conversion that throws before the call. */
    method Call(kind: Kind, present: bool, action: Option<Action>)
      modifies this
      ensures Done() == Then(old(Done()), Dispatch(context.on, kind, present, action))
    {
      ThenNothing(Done());
      if threw {
        return;
      }
      if kind in context.on && present {
        if action.None? {
          threw := true;
          assert trace + [] == trace;
        } else {
          trace := trace + [action.value];
        }
      }
    }

    method ParseMedia(uri: string, device: string, m: Member)
      modifies this
      ensures Done() == Then(old(Done()), Media(context, uri, device, m))
    {
      ThenNothing(Done());
      if !m.value.Obj? {
        return;
      }
      var ms := m.value.members;
      var voice := Map1(AsBool(Get(ms, "voiceActivity")), b => Voice(m.key, b));
      var video := Map1(AsBool(Get(ms, "muteVideo")), b => MuteVideo(uri, device, m.key, b));
      var audio := Map1(AsBool(Get(ms, "muteAudio")), b => MuteAudio(uri, device, m.key, b));
      var active := Map1(AsBool(Get(ms, "active")), b => ActiveStream(m.key, b));
      Call(OnVoice, Has(ms, "voiceActivity"), voice);
      if context.moderator {
        Call(OnMuteVideo, Has(ms, "muteVideo"), video);
        Call(OnMuteAudio, Has(ms, "muteAudio"), audio);
        Call(OnActiveStream, Has(ms, "active"), active);
        ThenFour(old(Done()), Dispatch(context.on, OnVoice, Has(ms, "voiceActivity"), voice),
                 Dispatch(context.on, OnMuteVideo, Has(ms, "muteVideo"), video),
                 Dispatch(context.on, OnMuteAudio, Has(ms, "muteAudio"), audio),
                 Dispatch(context.on, OnActiveStream, Has(ms, "active"), active));
      }
    }

    method ParseMedias(uri: string, device: string, ms: seq<Member>)
      modifies this
      ensures Done() == Then(old(Done()), Medias(context, uri, device, ms))
    {
      var i := 0;
      assert ms[..0] == [];
      ThenNothing(Done());
      while i < |ms| && !threw
        invariant 0 <= i <= |ms|
        invariant Done() == Then(old(Done()), Medias(context, uri, device, ms[..i]))
      {
        MediasSplit(context, uri, device, ms, i);
        ThenAssociates(old(Done()), Medias(context, uri, device, ms[..i]), Media(context, uri, device, ms[i]));
        ParseMedia(uri, device, ms[i]);
        i := i + 1;
      }
      if i == |ms| {
        assert ms[..i] == ms;
      } else if !old(threw) {
        MediasStop(context, uri, device, ms, i);
      }
    }

    method RaiseOrLower(uri: string, device: string, ms: seq<Member>)
      modifies this
      ensures Done() == Then(old(Done()), Hand(context, uri, device, ms))
    {
      ThenNothing(Done());
      if threw {
        return;
      }
      if OnRaiseHand in context.on && Has(ms, "raiseHand") {
        var state := AsBool(Get(ms, "raiseHand"));
        if state.None? {
          threw := true;
          assert trace + [] == trace;
        } else if context.peer == uri || (!state.value && context.moderator) {
          trace := trace + [RaiseHand(uri, device, state.value)];
        }
      }
    }

    method ParseDevice(uri: string, m: Member)
      modifies this
      ensures Done() == Then(old(Done()), Device(context, uri, m))
    {
      ThenNothing(Done());
      if !m.value.Obj? {
        return;
      }
      var ms := m.value.members;
      ghost var hand := Hand(context, uri, m.key, ms);
      ghost var hang := Dispatch(context.on, OnHangup, context.moderator && Has(ms, "hangup"),
                                 Some(Hangup(uri, m.key)));
      ghost var medias :=
        if Has(ms, "medias") then Medias(context, uri, m.key, Entries(Get(ms, "medias"))) else Nothing;
      RaiseOrLower(uri, m.key, ms);
      Call(OnHangup, context.moderator && Has(ms, "hangup"), Some(Hangup(uri, m.key)));
      ThenNothing(Done());
      if Has(ms, "medias") {
        ParseMedias(uri, m.key, Entries(Get(ms, "medias")));
      }
      ThenAssociates(Then(old(Done()), hand), hang, medias);
      ThenAssociates(old(Done()), hand, Then(hang, medias));
    }

    method ParseDevices(uri: string, ms: seq<Member>)
      modifies this
      ensures Done() == Then(old(Done()), Devices(context, uri, ms))
    {
      var i := 0;
      assert ms[..0] == [];
      ThenNothing(Done());
      while i < |ms| && !threw
        invariant 0 <= i <= |ms|
        invariant Done() == Then(old(Done()), Devices(context, uri, ms[..i]))
      {
        DevicesSplit(context, uri, ms, i);
        ThenAssociates(old(Done()), Devices(context, uri, ms[..i]), Device(context, uri, ms[i]));
        ParseDevice(uri, ms[i]);
        i := i + 1;
      }
      if i == |ms| {
        assert ms[..i] == ms;
      } else if !old(threw) {
        DevicesStop(context, uri, ms, i);
      }
    }

    method ParseAccount(m: Member)
      modifies this
      ensures Done() == Then(old(Done()), Account(context, m))
    {
      ThenNothing(Done());
      if m.key == "version" {
        return;
      }
      if context.moderator && m.key == "layout" {
        Call(OnLayout, true, Map1(AsInt(m.value), n => Layout(n)));
        return;
      }
      if !m.value.Obj? || !Has(m.value.members, "devices") {
        return;
      }
      ParseDevices(m.key, Entries(Get(m.value.members, "devices")));
    }

    method ParseVersion1(ms: seq<Member>)
      modifies this
      ensures Done() == Then(old(Done()), ParseV1(context, ms))
    {
      ThenNothing(Done());
      if !context.check {
        return;
      }
      var i := 0;
      assert ms[..0] == [];
      while i < |ms| && !threw
        invariant 0 <= i <= |ms|
        invariant Done() == Then(old(Done()), Accounts(context, ms[..i]))
      {
        AccountsSplit(context, ms, i);
        ThenAssociates(old(Done()), Accounts(context, ms[..i]), Account(context, ms[i]));
        ParseAccount(ms[i]);
        i := i + 1;
      }
      if i == |ms| {
        assert ms[..i] == ms;
      } else if !old(threw) {
        AccountsStop(context, ms, i);
      }
    }

    method ParseModeration(ms: seq<Member>)
      modifies this
      ensures Done() == Then(old(Done()), ModerationV0(context, ms))
    {
      var layout := Map1(AsInt(Get(ms, "layout")), n => Layout(n));
      var active := Map1(AsString(Get(ms, "activeParticipant")), s => ActiveParticipant(s));
      var kick := Map1(AsString(Get(ms, "hangupParticipant")), s => Kick(s));
      var both := Has(ms, "muteParticipant") && Has(ms, "muteState");
      Call(OnLayout, Has(ms, "layout"), layout);
      Call(OnActiveParticipant, Has(ms, "activeParticipant"), active);
      Call(OnMuteParticipant, both, MuteV0(ms));
      Call(OnKick, Has(ms, "hangupParticipant"), kick);
      ThenFour(old(Done()), Dispatch(context.on, OnLayout, Has(ms, "layout"), layout),
               Dispatch(context.on, OnActiveParticipant, Has(ms, "activeParticipant"), active),
               Dispatch(context.on, OnMuteParticipant, both, MuteV0(ms)),
               Dispatch(context.on, OnKick, Has(ms, "hangupParticipant"), kick));
    }

    method RaiseOrLowerByUri(ms: seq<Member>)
      modifies this
      ensures Done() == Then(old(Done()), HandV0(context, ms))
    {
      ThenNothing(Done());
      if threw {
        return;
      }
      if Has(ms, "handRaised") {
        var state, uri := AsString(Get(ms, "handState")), AsString(Get(ms, "handRaised"));
        if state.None? || uri.None? {
          threw := true;
          assert trace + [] == trace;
        } else if OnRaiseHandUri in context.on && MayMoveHand(context, uri.value, state.value == "true") {
          trace := trace + [RaiseHandUri(uri.value, state.value == "true")];
        }
      }
    }

    method ParseVersion0(ms: seq<Member>)
      modifies this
      ensures Done() == Then(old(Done()), ParseV0(context, ms))
    {
      ThenNothing(Done());
      if !context.check {
        return;
      }
      RaiseOrLowerByUri(ms);
      if !context.moderator {
        return;
      }
      ParseModeration(ms);
      ThenAssociates(old(Done()), HandV0(context, ms), ModerationV0(context, ms));
    }

    /** parse: the whole order, from a parser that has done nothing yet. */
    method ParseOrder(root: Json)
      requires Done() == Nothing
      modifies this
      ensures Done() == Parse(context, root)
    {
      if !root.Obj? && !root.Null? {
        threw := true;
        return;
      }
      var ms := if root.Obj? then root.members else [];
      if Has(ms, "version") {
        var version := AsUInt(Get(ms, "version"));
        if version.None? {
          threw := true;
          return;
        }
        Call(OnVersion, true, Some(Version(version.value)));
        NothingThen(Dispatch(context.on, OnVersion, true, Some(Version(version.value))));
        ThenNothing(Done());
        if version.value == 1 {
          ParseVersion1(ms);
        }
      } else {
        ParseVersion0(ms);
        NothingThen(ParseV0(context, ms));
      }
      assert Done() == ParseMembers(context, ms);
    }
  }
}
