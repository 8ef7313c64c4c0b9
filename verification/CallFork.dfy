/** Multi-device forking: a parent call rings several subcalls, merges the first that answers, hangs up the
    rest, and fails only when the last one fails. Subcall events are queued with the state they carried,
    while the merge reads the state the subcall has when the event is delivered. */
module CallFork {
  import opened CallState

  datatype Fate = Merged | HungUp | Failed

  datatype Parent<T> = Parent(call: Call, subs: set<T>, accepted: set<T>, fates: multiset<(T, Fate)>)

  function Each<T>(subs: set<T>, fate: Fate): multiset<(T, Fate)> {
    multiset(set s | s in subs :: (s, fate))
  }

  function HangUpAll<T>(p: Parent<T>, spared: set<T>): Parent<T> {
    p.(subs := {}, fates := p.fates + Each(p.subs - spared, HungUp))
  }

  /** setState with the listener of the constructor, which hangs up pending subcalls when the call is over. */
  function SetParent<T>(p: Parent<T>, state: State, connection: Connection): Parent<T> {
    if !Accepted(p.call, state) || NoChange(p.call, state, connection) then p
    else
      var n := p.(call := SetState(p.call, Request(state, connection, [])));
      if state == OVER then HangUpAll(n, {}) else n
  }

  function RemoveParent<T>(p: Parent<T>): Parent<T> {
    SetParent(p, OVER, p.call.connection)
  }

  predicate Refuses<T>(p: Parent<T>) {
    p.call.connection == CONNECTED || p.call.connection == DISCONNECTED || p.call.state == OVER
  }

  function AddSub<T>(p: Parent<T>, sub: T): Parent<T> {
    if Refuses(p) || sub in p.subs then p else p.(subs := p.subs + {sub}, accepted := p.accepted + {sub})
  }

  predicate Answered(state: State, connection: Connection) {
    state == ACTIVE && connection == CONNECTED
  }

  predicate HungUpByPeer(state: State, connection: Connection) {
    (state == ACTIVE || state == PEER_BUSY) && connection == DISCONNECTED
  }

  predicate Failing(state: State) {
    StateRank(state) >= StateRank(BUSY)
  }

  function Merge<T>(p: Parent<T>, sub: T, state: State, connection: Connection): Parent<T> {
    var popped := HangUpAll(p, {sub});
    SetParent(popped.(fates := popped.fates + multiset{(sub, Merged)}), state, connection)
  }

  function Fail<T>(p: Parent<T>, sub: T, state: State): Parent<T> {
    var n := p.(subs := p.subs - {sub}, fates := p.fates + multiset{(sub, Failed)});
    if n.subs != {} then n
    else
      var reported := if state == BUSY || state == PEER_BUSY then state else MERROR;
      RemoveParent(SetParent(n, reported, DISCONNECTED))
  }

  function CopyForward<T>(p: Parent<T>, state: State, connection: Connection): Parent<T> {
    var n := if state == ACTIVE && p.call.state == INACTIVE then SetParent(p, ACTIVE, p.call.connection) else p;
    if ConnectionRank(n.call.connection) < ConnectionRank(connection) <= ConnectionRank(RINGING)
    then SetParent(n, n.call.state, connection) else n
  }

  /** peerHungupCall disconnects the call before it is removed. */
  function PeerHungUp<T>(p: Parent<T>): Parent<T> {
    RemoveParent(SetParent(p, p.call.state, DISCONNECTED))
  }

  /** subcallStateChanged: `state`, `connection` are what the event carried, `stateNow`, `connectionNow`
      what the subcall holds at delivery. */
  function OnSubcall<T>(p: Parent<T>, sub: T, state: State, connection: Connection,
                        stateNow: State, connectionNow: Connection): Parent<T> {
    if sub !in p.subs then p
    else if Answered(state, connection) then Merge(p, sub, stateNow, connectionNow)
    else if HungUpByPeer(state, connection) then PeerHungUp(HangUpAll(p, {}))
    else if Failing(state) then Fail(p, sub, state)
    else CopyForward(p, state, connection)
  }

  // ---- The asynchronous protocol -------------------------------------------------------------

  datatype Event = Event(sub: nat, state: State, connection: Connection)

  datatype Fork = Fork(parent: Parent<nat>, calls: map<nat, Call>, queue: seq<Event>)

  datatype Step =
    | Add(sub: nat, call: Call)
    | Change(sub: nat, state: State, connection: Connection)
    | Deliver
    | ChangeParent(state: State, connection: Connection)
    | EndParent

  function Begin(call: Call): Fork {
    Fork(Parent(call, {}, {}, multiset{}), map[], [])
  }

  function Next(f: Fork, step: Step): Fork {
    match step
    case Add(sub, call) =>
      // Each subcall object is handed over once.
      if sub in f.calls then f
      else
        var handed :=
          if Refuses(f.parent) then SetState(call, Request(OVER, call.connection, [])) else call.(subcall := true);
        f.(parent := AddSub(f.parent, sub), calls := f.calls[sub := handed])
    case Change(sub, state, connection) =>
      if sub !in f.calls then f
      else
        var n := SetState(f.calls[sub], Request(state, connection, []));
        if n == f.calls[sub] then f
        else
          var heard := if sub in f.parent.accepted then [Event(sub, state, connection)] else [];
          f.(calls := f.calls[sub := n], queue := f.queue + heard)
    case Deliver =>
      if f.queue == [] then f
      else
        var e := f.queue[0];
        var rest := f.(queue := f.queue[1..]);
        if e.sub !in f.calls then rest
        else
          var now := f.calls[e.sub];
          rest.(parent := OnSubcall(f.parent, e.sub, e.state, e.connection, now.state, now.connection))
    case ChangeParent(state, connection) => f.(parent := SetParent(f.parent, state, connection))
    case EndParent => f.(parent := RemoveParent(f.parent))
  }

  function Run(f: Fork, steps: seq<Step>): Fork
    decreases |steps|
  {
    if steps == [] then f else Run(Next(f, steps[0]), steps[1..])
  }

  // ---- One fate each -------------------------------------------------------------------------

  function FateCount<T>(p: Parent<T>, sub: T): nat {
    p.fates[(sub, Merged)] + p.fates[(sub, HungUp)] + p.fates[(sub, Failed)]
  }

  predicate Settled<T>(p: Parent<T>) {
    && p.subs <= p.accepted
    && (forall t :: t in p.accepted ==> FateCount(p, t) == if t in p.subs then 0 else 1)
    && (forall x :: x in p.fates ==> x.0 in p.accepted)
  }

  lemma EachCounts<T>(subs: set<T>, sub: T)
    ensures Each(subs, HungUp)[(sub, HungUp)] == if sub in subs then 1 else 0
    ensures Each(subs, HungUp)[(sub, Merged)] == 0 && Each(subs, HungUp)[(sub, Failed)] == 0
  {
  }

  lemma SettledHangUp<T>(p: Parent<T>)
    requires Settled(p)
    ensures Settled(HangUpAll(p, {}))
  {
    var n := HangUpAll(p, {});
    assert p.subs - {} == p.subs;
    forall t | t in n.accepted ensures FateCount(n, t) == 1 { EachCounts(p.subs, t); }
  }

  lemma SettledAdd<T>(p: Parent<T>, sub: T)
    requires Settled(p) && (sub in p.accepted ==> sub in p.subs)
    ensures Settled(AddSub(p, sub))
  {
    assert sub !in p.accepted ==> forall fate :: (sub, fate) !in p.fates by {
      assert forall fate :: (sub, fate) in p.fates ==> (sub, fate).0 in p.accepted;
    }
  }

  lemma SettledCall<T>(p: Parent<T>, call: Call)
    requires Settled(p)
    ensures Settled(p.(call := call))
  {
  }

  lemma SettledSet<T>(p: Parent<T>, state: State, connection: Connection)
    requires Settled(p)
    ensures Settled(SetParent(p, state, connection))
    ensures p.subs == {} ==> SetParent(p, state, connection).subs == {}
    ensures SetParent(p, state, connection).accepted == p.accepted
  {
    var n := p.(call := SetState(p.call, Request(state, connection, [])));
    assert Settled(n);
    SettledHangUp(n);
  }

  lemma SettledPop<T>(p: Parent<T>, sub: T)
    requires Settled(p) && sub in p.subs
    ensures var popped := HangUpAll(p, {sub}); Settled(popped.(fates := popped.fates + multiset{(sub, Merged)}))
  {
    var popped := HangUpAll(p, {sub});
    var m := popped.(fates := popped.fates + multiset{(sub, Merged)});
    forall t | t in m.accepted ensures FateCount(m, t) == 1 { EachCounts(p.subs - {sub}, t); }
  }

  lemma SettledMerge<T>(p: Parent<T>, sub: T, state: State, connection: Connection)
    requires Settled(p) && sub in p.subs
    ensures Settled(Merge(p, sub, state, connection))
    ensures Merge(p, sub, state, connection).subs == {}
  {
    var popped := HangUpAll(p, {sub});
    SettledPop(p, sub);
    SettledSet(popped.(fates := popped.fates + multiset{(sub, Merged)}), state, connection);
  }

  lemma SettledDrop<T>(p: Parent<T>, sub: T)
    requires Settled(p) && sub in p.subs
    ensures Settled(p.(subs := p.subs - {sub}, fates := p.fates + multiset{(sub, Failed)}))
  {
  }

  lemma SettledFail<T>(p: Parent<T>, sub: T, state: State)
    requires Settled(p) && sub in p.subs
    ensures Settled(Fail(p, sub, state))
  {
    var n := p.(subs := p.subs - {sub}, fates := p.fates + multiset{(sub, Failed)});
    SettledDrop(p, sub);
    var reported := if state == BUSY || state == PEER_BUSY then state else MERROR;
    SettledSet(n, reported, DISCONNECTED);
    var m := SetParent(n, reported, DISCONNECTED);
    SettledSet(m, OVER, m.call.connection);
  }

  lemma SettledCopy<T>(p: Parent<T>, state: State, connection: Connection)
    requires Settled(p)
    ensures Settled(CopyForward(p, state, connection))
  {
    SettledSet(p, ACTIVE, p.call.connection);
    var n := if state == ACTIVE && p.call.state == INACTIVE then SetParent(p, ACTIVE, p.call.connection) else p;
    SettledSet(n, n.call.state, connection);
  }

  lemma SettledEnd<T>(p: Parent<T>)
    requires Settled(p)
    ensures Settled(PeerHungUp(HangUpAll(p, {})))
  {
    SettledHangUp(p);
    var m := SetParent(HangUpAll(p, {}), p.call.state, DISCONNECTED);
    SettledSet(HangUpAll(p, {}), p.call.state, DISCONNECTED);
    SettledSet(m, OVER, m.call.connection);
  }

  lemma SettledOn<T>(p: Parent<T>, sub: T, state: State, connection: Connection,
                     stateNow: State, connectionNow: Connection)
    requires Settled(p)
    ensures Settled(OnSubcall(p, sub, state, connection, stateNow, connectionNow))
  {
    var n := OnSubcall(p, sub, state, connection, stateNow, connectionNow);
    if sub in p.subs {
      if Answered(state, connection) {
        assert n == Merge(p, sub, stateNow, connectionNow);
        SettledMerge(p, sub, stateNow, connectionNow);
      } else if HungUpByPeer(state, connection) {
        assert n == PeerHungUp(HangUpAll(p, {}));
        SettledEnd(p);
      } else if Failing(state) {
        assert n == Fail(p, sub, state);
        SettledFail(p, sub, state);
      } else {
        assert n == CopyForward(p, state, connection);
        SettledCopy(p, state, connection);
      }
    }
  }

  /** What an event can do to the set of subcalls. */
  predicate Shrinks<T>(p: Parent<T>, n: Parent<T>) {
    n.accepted == p.accepted && n.subs <= p.subs
  }

  /** A change without re-entrant listeners, written out. */
  lemma ChangeIs(c: Call, state: State, connection: Connection)
    requires Accepted(c, state) && !NoChange(c, state, connection)
    ensures var after := ClientView(state, connection, c.incoming);
            var emitted := if View(c) != after && !c.subcall then c.emitted + [after] else c.emitted;
            SetState(c, Request(state, connection, [])) == Call(state, connection, c.incoming, c.subcall, emitted)
  {
    assert SetAll(c.(state := state, connection := connection), []) == c.(state := state, connection := connection);
  }

  lemma SetIs(c: Call, state: State, connection: Connection)
    ensures var n := SetState(c, Request(state, connection, []));
            n.state == (if Accepted(c, state) then state else c.state)
            && n.connection == (if Accepted(c, state) then connection else c.connection)
  {
    assert SetAll(c.(state := state, connection := connection), []) == c.(state := state, connection := connection);
  }

  lemma ShrinksSet<T>(p: Parent<T>, state: State, connection: Connection)
    ensures Shrinks(p, SetParent(p, state, connection))
  {
  }

  lemma ShrinksFail<T>(p: Parent<T>, sub: T, state: State)
    ensures Shrinks(p, Fail(p, sub, state))
  {
    var n := p.(subs := p.subs - {sub}, fates := p.fates + multiset{(sub, Failed)});
    var reported := if state == BUSY || state == PEER_BUSY then state else MERROR;
    ShrinksSet(n, reported, DISCONNECTED);
    ShrinksSet(SetParent(n, reported, DISCONNECTED), OVER, SetParent(n, reported, DISCONNECTED).call.connection);
  }

  lemma ShrinksCopy<T>(p: Parent<T>, state: State, connection: Connection)
    ensures Shrinks(p, CopyForward(p, state, connection))
  {
    ShrinksSet(p, ACTIVE, p.call.connection);
    var n := if state == ACTIVE && p.call.state == INACTIVE then SetParent(p, ACTIVE, p.call.connection) else p;
    ShrinksSet(n, n.call.state, connection);
  }

  lemma ShrinksOn<T>(p: Parent<T>, sub: T, state: State, connection: Connection,
                     stateNow: State, connectionNow: Connection)
    ensures Shrinks(p, OnSubcall(p, sub, state, connection, stateNow, connectionNow))
  {
    var n := OnSubcall(p, sub, state, connection, stateNow, connectionNow);
    if sub in p.subs {
      if Answered(state, connection) {
        var popped := HangUpAll(p, {sub});
        ShrinksSet(popped.(fates := popped.fates + multiset{(sub, Merged)}), stateNow, connectionNow);
      } else if HungUpByPeer(state, connection) {
        var m := SetParent(HangUpAll(p, {}), p.call.state, DISCONNECTED);
        ShrinksSet(HangUpAll(p, {}), p.call.state, DISCONNECTED);
        ShrinksSet(m, OVER, m.call.connection);
      } else if Failing(state) {
        assert n == Fail(p, sub, state);
        ShrinksFail(p, sub, state);
      } else {
        assert n == CopyForward(p, state, connection);
        ShrinksCopy(p, state, connection);
      }
    }
  }

  ghost predicate Good(f: Fork) {
    Settled(f.parent) && f.parent.accepted <= f.calls.Keys
  }

  lemma NextKeeps(f: Fork, step: Step)
    requires Good(f)
    ensures Good(Next(f, step))
  {
    match step
    case Deliver =>
      if f.queue != [] && f.queue[0].sub in f.calls {
        var e, now := f.queue[0], f.calls[f.queue[0].sub];
        SettledOn(f.parent, e.sub, e.state, e.connection, now.state, now.connection);
        ShrinksOn(f.parent, e.sub, e.state, e.connection, now.state, now.connection);
      }
    case ChangeParent(state, connection) => SettledSet(f.parent, state, connection);
    case EndParent => SettledSet(f.parent, OVER, f.parent.call.connection);
    case _ =>
  }

  lemma {:induction false} RunKeeps(f: Fork, steps: seq<Step>)
    requires Good(f)
    ensures Good(Run(f, steps))
    decreases |steps|
  {
    if steps != [] {
      NextKeeps(f, steps[0]);
      RunKeeps(Next(f, steps[0]), steps[1..]);
    }
  }

  /** Every accepted subcall is either still pending with no fate, or gone with exactly one. */
  lemma OneFateEach(call: Call, steps: seq<Step>, sub: nat)
    ensures var p := Run(Begin(call), steps).parent;
            && FateCount(p, sub) == (if sub in p.accepted && sub !in p.subs then 1 else 0)
            && (sub in p.subs ==> sub in p.accepted)
  {
    RunKeeps(Begin(call), steps);
    var p := Run(Begin(call), steps).parent;
    assert forall fate :: (sub, fate) in p.fates ==> (sub, fate).0 in p.accepted;
  }

  // ---- Late events -----------------------------------------------------------------------------

  lemma GoneAfterOne(f: Fork, step: Step, sub: nat)
    requires Good(f) && sub in f.parent.accepted && sub !in f.parent.subs
    ensures sub in Next(f, step).parent.accepted && sub !in Next(f, step).parent.subs
  {
    if step.Deliver? && f.queue != [] && f.queue[0].sub in f.calls {
      var e, now := f.queue[0], f.calls[f.queue[0].sub];
      ShrinksOn(f.parent, e.sub, e.state, e.connection, now.state, now.connection);
    }
  }

  lemma {:induction false} GoneForGood(f: Fork, steps: seq<Step>, sub: nat)
    requires Good(f) && sub in f.parent.accepted && sub !in f.parent.subs
    ensures sub !in Run(f, steps).parent.subs
    decreases |steps|
  {
    if steps != [] {
      var n := Next(f, steps[0]);
      NextKeeps(f, steps[0]);
      GoneAfterOne(f, steps[0], sub);
      GoneForGood(n, steps[1..], sub);
    }
  }

  /** Once a subcall has left, nothing it ever sends changes the parent, its subcalls or their fates. */
  lemma LateEventsAreIgnored(call: Call, steps: seq<Step>, more: seq<Step>, sub: nat)
    requires var f := Run(Begin(call), steps); sub in f.parent.accepted && sub !in f.parent.subs
    requires var g := Run(Run(Begin(call), steps), more); g.queue != [] && g.queue[0].sub == sub
    ensures var g := Run(Run(Begin(call), steps), more); Next(g, Deliver).parent == g.parent
  {
    RunKeeps(Begin(call), steps);
    GoneForGood(Run(Begin(call), steps), more, sub);
  }

  // ---- Answering -------------------------------------------------------------------------------

  /** An answered subcall connects a parent that is not yet connected exactly when it is still connected at delivery in
      a state the parent may take over; the carried state does not matter. */
  lemma AnswerConnectsIff<T>(p: Parent<T>, sub: T, stateNow: State, connectionNow: Connection)
    requires p.call.connection != CONNECTED && sub in p.subs
    ensures var n := OnSubcall(p, sub, ACTIVE, CONNECTED, stateNow, connectionNow);
            && n.subs == {}
            && (n.call.connection == CONNECTED <==>
                  connectionNow == CONNECTED && (p.call.state == stateNow || ValidTransition(p.call.state, stateNow)))
  {
    AnswerIsTakenOver(p, sub, stateNow, connectionNow);
  }

  /** An answer merges its subcall and hangs up every other, and the parent takes over what the subcall holds at
      delivery if it may. */
  lemma AnswerIsTakenOver<T>(p: Parent<T>, sub: T, stateNow: State, connectionNow: Connection)
    requires sub in p.subs
    ensures var n := OnSubcall(p, sub, ACTIVE, CONNECTED, stateNow, connectionNow);
            var taken := p.call.state == stateNow || ValidTransition(p.call.state, stateNow);
            && n.subs == {} && n.fates == p.fates + Each(p.subs - {sub}, HungUp) + multiset{(sub, Merged)}
            && n.call.state == (if taken then stateNow else p.call.state)
            && n.call.connection == (if taken then connectionNow else p.call.connection)
  {
    var popped := HangUpAll(p, {sub});
    var merged := popped.(fates := popped.fates + multiset{(sub, Merged)});
    SetIs(popped.call, stateNow, connectionNow);
    ClosedSet(merged, stateNow, connectionNow);
    assert OnSubcall(p, sub, ACTIVE, CONNECTED, stateNow, connectionNow) == SetParent(merged, stateNow, connectionNow);
  }

  /** After an answer a new subcall is accepted exactly when the parent took over a state in which it is neither
      connected, disconnected nor over, or rejected the state and was taking subcalls before. */
  lemma AnswerAdmitsIff<T>(p: Parent<T>, sub: T, stateNow: State, connectionNow: Connection, other: T)
    requires sub in p.subs && other !in p.accepted
    ensures var n := OnSubcall(p, sub, ACTIVE, CONNECTED, stateNow, connectionNow);
            other in AddSub(n, other).accepted <==>
              if p.call.state == stateNow || ValidTransition(p.call.state, stateNow)
              then stateNow != OVER && connectionNow != CONNECTED && connectionNow != DISCONNECTED
              else !Refuses(p)
  {
    var n := OnSubcall(p, sub, ACTIVE, CONNECTED, stateNow, connectionNow);
    assert n == Merge(p, sub, stateNow, connectionNow);
    SetIs(p.call, stateNow, connectionNow);
    ShrinksOn(p, sub, ACTIVE, CONNECTED, stateNow, connectionNow);
    assert n.subs == {} && n.call.state == SetState(p.call, Request(stateNow, connectionNow, [])).state;
  }

  predicate Closed<T>(p: Parent<T>) {
    p.subs == {} && Refuses(p)
  }

  /** An outside change that makes a closed parent take subcalls again. */
  predicate Reopens<T>(p: Parent<T>, step: Step) {
    && step.ChangeParent? && Accepted(p.call, step.state) && step.state != OVER
    && step.connection != CONNECTED && step.connection != DISCONNECTED
  }

  ghost predicate StaysShut(f: Fork, steps: seq<Step>)
    decreases |steps|
  {
    steps == [] || (!Reopens(f.parent, steps[0]) && StaysShut(Next(f, steps[0]), steps[1..]))
  }

  lemma ClosedSet<T>(p: Parent<T>, state: State, connection: Connection)
    requires p.subs == {}
    ensures var n := SetParent(p, state, connection);
            n.subs == {} && n.accepted == p.accepted && n.fates == p.fates
  {
    assert Each<T>({} - {}, HungUp) == multiset{};
    assert p.fates + multiset{} == p.fates;
  }

  /** A closed parent is opened again by exactly such a change. */
  lemma ClosedStep(f: Fork, step: Step)
    requires Closed(f.parent)
    ensures var n := Next(f, step).parent;
            && n.subs == {} && n.accepted == f.parent.accepted && n.fates == f.parent.fates
            && (Closed(n) <==> !Reopens(f.parent, step))
  {
    var p := f.parent;
    if step.ChangeParent? {
      ClosedSet(p, step.state, step.connection);
      SetIs(p.call, step.state, step.connection);
    }
    if step.EndParent? {
      ClosedSet(p, OVER, p.call.connection);
      SetIs(p.call, OVER, p.call.connection);
    }
  }

  lemma {:induction false} ClosedForGood(f: Fork, steps: seq<Step>)
    requires Closed(f.parent) && StaysShut(f, steps)
    ensures var n := Run(f, steps).parent;
            Closed(n) && n.accepted == f.parent.accepted && n.fates == f.parent.fates
    decreases |steps|
  {
    if steps != [] {
      ClosedStep(f, steps[0]);
      ClosedForGood(Next(f, steps[0]), steps[1..]);
    }
  }

  /** After a merge that leaves the parent connected, no subcall is ever accepted, merged or ended again, until an
      outside change of the parent takes it back to a state that is neither connected, disconnected nor over. */
  lemma FirstAnswerWins(call: Call, steps: seq<Step>, more: seq<Step>)
    requires var f := Run(Begin(call), steps);
             && f.queue != [] && f.queue[0].sub in f.parent.subs && f.queue[0].sub in f.calls
             && Answered(f.queue[0].state, f.queue[0].connection)
             && Next(f, Deliver).parent.call.connection == CONNECTED
    requires StaysShut(Next(Run(Begin(call), steps), Deliver), more)
    ensures var n := Next(Run(Begin(call), steps), Deliver);
            var m := Run(n, more);
            m.parent.subs == {} && m.parent.accepted == n.parent.accepted && m.parent.fates == n.parent.fates
  {
    var f := Run(Begin(call), steps);
    RunKeeps(Begin(call), steps);
    var now := f.calls[f.queue[0].sub];
    SettledMerge(f.parent, f.queue[0].sub, now.state, now.connection);
    ClosedForGood(Next(f, Deliver), more);
  }

  /** Such a change is all it takes: the next new subcall is accepted exactly after one. */
  lemma ReopenedIff(f: Fork, step: Step, sub: nat, call: Call)
    requires Good(f) && Closed(f.parent) && sub !in Next(f, step).calls
    ensures sub in Next(Next(f, step), Add(sub, call)).parent.accepted <==> Reopens(f.parent, step)
  {
    NextKeeps(f, step);
    ClosedStep(f, step);
  }

  lemma RunFirst(f: Fork, steps: seq<Step>, i: nat, g: Fork)
    requires i < |steps| && Next(f, steps[i]) == g
    ensures Run(f, steps[i..]) == Run(g, steps[i + 1..])
  {
    assert steps[i..][1..] == steps[i + 1..];
  }

  const HELD := Call(HOLD, CONNECTED, false, true, [])
  const ANSWERED := Call(ACTIVE, CONNECTED, false, true, [])
  const TRYING_OUT := Call(INACTIVE, TRYING, false, false, [ClientConnecting])

  const UNTIL_MERGED := [ChangeParent(INACTIVE, TRYING), Add(1, Fresh(false, true)), Change(1, ACTIVE, CONNECTED),
                         Change(1, HOLD, CONNECTED), Deliver, Deliver]
  const SECOND_ANSWER := [Add(2, Fresh(false, true)), Change(2, ACTIVE, CONNECTED), Deliver]

  function Ringing(call: Call, queue: seq<Event>): Fork {
    Fork(Parent(TRYING_OUT, {1}, {1}, multiset{}), map[1 := call], queue)
  }

  function StillRinging(queue: seq<Event>): Fork {
    Fork(Parent(TRYING_OUT, {}, {1}, multiset{(1, Merged)}), map[1 := HELD], queue)
  }

  function RingingAgain(call: Call, queue: seq<Event>): Fork {
    Fork(Parent(TRYING_OUT, {2}, {1, 2}, multiset{(1, Merged)}), map[1 := HELD, 2 := call], queue)
  }

  /** The condition matters: a subcall put on hold between its answer and the delivery is merged into a parent that
      rejects the state, so the parent keeps ringing and a second subcall is accepted and merged. */
  lemma HeldAnswerLetsASecondSubcallIn()
    ensures var merged := Run(Begin(Fresh(false, false)), UNTIL_MERGED);
            var p := Run(merged, SECOND_ANSWER).parent;
            && merged.parent.call.connection == TRYING && merged.parent.fates == multiset{(1, Merged)}
            && p.call.connection == CONNECTED && p.fates == multiset{(1, Merged), (2, Merged)}
  {
    FirstIsHeld();
    SecondAnswers();
  }

  const ANSWER := Event(1, ACTIVE, CONNECTED)
  const PUT_ON_HOLD := Event(1, HOLD, CONNECTED)
  const SECOND := Event(2, ACTIVE, CONNECTED)

  function Trying(): Fork {
    Fork(Parent(TRYING_OUT, {}, {}, multiset{}), map[], [])
  }

  lemma FirstIsHeld()
    ensures Run(Begin(Fresh(false, false)), UNTIL_MERGED) == StillRinging([])
  {
    var steps := UNTIL_MERGED;
    Rings();
    FirstAnswers();
    HeldIsMerged(PUT_ON_HOLD);
    HoldIsIgnored();
    RunFirst(Begin(Fresh(false, false)), steps, 0, Trying());
    RunFirst(Trying(), steps, 1, Ringing(Fresh(false, true), []));
    RunFirst(Ringing(Fresh(false, true), []), steps, 2, Ringing(ANSWERED, [ANSWER]));
    RunFirst(Ringing(ANSWERED, [ANSWER]), steps, 3, Ringing(HELD, [ANSWER, PUT_ON_HOLD]));
    RunFirst(Ringing(HELD, [ANSWER, PUT_ON_HOLD]), steps, 4, StillRinging([PUT_ON_HOLD]));
    RunFirst(StillRinging([PUT_ON_HOLD]), steps, 5, StillRinging([]));
    assert steps[0..] == steps && steps[6..] == [];
  }

  lemma Rings()
    ensures Next(Begin(Fresh(false, false)), ChangeParent(INACTIVE, TRYING)) == Trying()
    ensures Next(Trying(), Add(1, Fresh(false, true))) == Ringing(Fresh(false, true), [])
  {
    ChangeIs(Fresh(false, false), INACTIVE, TRYING);
  }

  lemma FirstAnswers()
    ensures Next(Ringing(Fresh(false, true), []), Change(1, ACTIVE, CONNECTED)) == Ringing(ANSWERED, [ANSWER])
    ensures Next(Ringing(ANSWERED, [ANSWER]), Change(1, HOLD, CONNECTED)) == Ringing(HELD, [ANSWER, PUT_ON_HOLD])
  {
    ChangeIs(Fresh(false, true), ACTIVE, CONNECTED);
    ChangeIs(ANSWERED, HOLD, CONNECTED);
  }

  lemma HoldIsIgnored()
    ensures Next(StillRinging([PUT_ON_HOLD]), Deliver) == StillRinging([])
  {
    assert [PUT_ON_HOLD][1..] == [];
  }

  lemma HeldIsMerged(hold: Event)
    ensures Next(Ringing(HELD, [Event(1, ACTIVE, CONNECTED), hold]), Deliver) == StillRinging([hold])
  {
    assert Each({1} - {1}, HungUp) == multiset{};
    var queue := [Event(1, ACTIVE, CONNECTED), hold];
    assert queue[1..] == [hold];
  }

  lemma SecondAnswers()
    ensures var p := Run(StillRinging([]), SECOND_ANSWER).parent;
            p.call.connection == CONNECTED && p.fates == multiset{(1, Merged), (2, Merged)}
  {
    var steps, ringing := SECOND_ANSWER, RingingAgain(Fresh(false, true), []);
    var answered := RingingAgain(ANSWERED, [SECOND]);
    RingsAgain();
    RunFirst(StillRinging([]), steps, 0, ringing);
    RunFirst(ringing, steps, 1, answered);
    RunFirst(answered, steps, 2, Next(answered, Deliver));
    assert steps[0..] == steps && steps[3..] == [];
    SecondIsMerged();
  }

  lemma RingsAgain()
    ensures Next(StillRinging([]), Add(2, Fresh(false, true))) == RingingAgain(Fresh(false, true), [])
    ensures Next(RingingAgain(Fresh(false, true), []), Change(2, ACTIVE, CONNECTED)) == RingingAgain(ANSWERED, [SECOND])
  {
    ChangeIs(Fresh(false, true), ACTIVE, CONNECTED);
  }

  lemma SecondIsMerged()
    ensures var p := Next(RingingAgain(ANSWERED, [SECOND]), Deliver).parent;
            p.call.connection == CONNECTED && p.fates == multiset{(1, Merged), (2, Merged)}
  {
    assert Each({2} - {2}, HungUp) == multiset{};
    SetIs(TRYING_OUT, ACTIVE, CONNECTED);
  }

  // ---- Events that only inform, or end the parent ----------------------------------------------

  /** A call that is over has no pending subcalls. */
  predicate Sober<T>(p: Parent<T>) {
    p.subs != {} ==> p.call.state != OVER
  }

  lemma SoberSet<T>(p: Parent<T>, state: State, connection: Connection)
    requires Sober(p)
    ensures Sober(SetParent(p, state, connection))
  {
    RequestTakesEffect(p.call, state, connection);
  }

  lemma SoberOn<T>(p: Parent<T>, sub: T, state: State, connection: Connection,
                   stateNow: State, connectionNow: Connection)
    requires Sober(p)
    ensures Sober(OnSubcall(p, sub, state, connection, stateNow, connectionNow))
  {
    var n := OnSubcall(p, sub, state, connection, stateNow, connectionNow);
    if sub in p.subs {
      if Answered(state, connection) {
        ShrinksOn(p, sub, state, connection, stateNow, connectionNow);
        var popped := HangUpAll(p, {sub});
        SoberSet(popped.(fates := popped.fates + multiset{(sub, Merged)}), stateNow, connectionNow);
      } else if HungUpByPeer(state, connection) {
        var m := SetParent(HangUpAll(p, {}), p.call.state, DISCONNECTED);
        SoberSet(HangUpAll(p, {}), p.call.state, DISCONNECTED);
        SoberSet(m, OVER, m.call.connection);
      } else if Failing(state) {
        SoberFail(p, sub, state);
        assert n == Fail(p, sub, state);
      } else {
        SoberSet(p, ACTIVE, p.call.connection);
        var m := if state == ACTIVE && p.call.state == INACTIVE then SetParent(p, ACTIVE, p.call.connection) else p;
        SoberSet(m, m.call.state, connection);
        assert n == CopyForward(p, state, connection);
      }
    }
  }

  lemma SoberFail<T>(p: Parent<T>, sub: T, state: State)
    requires Sober(p)
    ensures Sober(Fail(p, sub, state))
  {
    var n := p.(subs := p.subs - {sub}, fates := p.fates + multiset{(sub, Failed)});
    var reported := if state == BUSY || state == PEER_BUSY then state else MERROR;
    SoberSet(n, reported, DISCONNECTED);
    var m := SetParent(n, reported, DISCONNECTED);
    SoberSet(m, OVER, m.call.connection);
  }

  lemma {:induction false} SoberRun(f: Fork, steps: seq<Step>)
    requires Sober(f.parent)
    ensures Sober(Run(f, steps).parent)
    decreases |steps|
  {
    if steps != [] {
      match steps[0] {
        case Deliver =>
          if f.queue != [] && f.queue[0].sub in f.calls {
            var e, now := f.queue[0], f.calls[f.queue[0].sub];
            SoberOn(f.parent, e.sub, e.state, e.connection, now.state, now.connection);
          }
        case ChangeParent(state, connection) => SoberSet(f.parent, state, connection);
        case EndParent => SoberSet(f.parent, OVER, f.parent.call.connection);
        case _ =>
      }
      SoberRun(Next(f, steps[0]), steps[1..]);
    }
  }

  /** On every run a parent with pending subcalls is not over, which is what the next three results ask for. */
  lemma PendingMeansNotOver(call: Call, steps: seq<Step>)
    ensures var p := Run(Begin(call), steps).parent; p.subs != {} ==> p.call.state != OVER
  {
    SoberRun(Begin(call), steps);
  }

  /** `next` is further on the way to ringing than `now`. */
  predicate Further(now: Connection, next: Connection) {
    || (next == TRYING && now == DISCONNECTED)
    || (next == PROGRESSING && (now == DISCONNECTED || now == TRYING))
    || (next == RINGING && (now == DISCONNECTED || now == TRYING || now == PROGRESSING))
  }

  /** An event of a pending subcall that neither answers, hangs up nor fails changes no subcall and no fate. The
      parent's connection follows it exactly when that is further on the way to ringing, its state exactly when an
      inactive parent hears of an active subcall, and a client that was up to date still is. */
  lemma ProgressIsCopied<T>(p: Parent<T>, sub: T, state: State, connection: Connection,
                            stateNow: State, connectionNow: Connection, first: ClientState)
    requires sub in p.subs && p.call.state != OVER && !p.call.subcall
    requires state == ACTIVE ==> connection != CONNECTED && connection != DISCONNECTED
    requires state == INACTIVE || state == HOLD || state == ACTIVE
    ensures var n := OnSubcall(p, sub, state, connection, stateNow, connectionNow);
            && n.subs == p.subs && n.accepted == p.accepted && n.fates == p.fates
            && n.call.connection == (if Further(p.call.connection, connection) then connection else p.call.connection)
            && n.call.state == (if state == ACTIVE && p.call.state == INACTIVE then ACTIVE else p.call.state)
            && (UpToDate(p.call, first) ==> UpToDate(n.call, first))
  {
    var m := if state == ACTIVE && p.call.state == INACTIVE then SetParent(p, ACTIVE, p.call.connection) else p;
    InformedSet(p, ACTIVE, p.call.connection, first);
    assert m.call.connection == p.call.connection && m.call.state != OVER;
    InformedSet(m, m.call.state, connection, first);
    FurtherIff(p.call.connection, connection);
    assert OnSubcall(p, sub, state, connection, stateNow, connectionNow) == CopyForward(p, state, connection);
  }

  lemma FurtherIff(now: Connection, next: Connection)
    ensures Further(now, next) <==> ConnectionRank(now) < ConnectionRank(next) <= ConnectionRank(RINGING)
  {
  }

  lemma InformedSet<T>(p: Parent<T>, state: State, connection: Connection, first: ClientState)
    requires state != OVER && !p.call.subcall
    ensures var n := SetParent(p, state, connection);
            && n.subs == p.subs && n.accepted == p.accepted && n.fates == p.fates
            && n.call.state == (if Accepted(p.call, state) then state else p.call.state)
            && n.call.connection == (if Accepted(p.call, state) then connection else p.call.connection)
            && !n.call.subcall && (UpToDate(p.call, first) ==> UpToDate(n.call, first))
  {
    RequestTakesEffect(p.call, state, connection);
    UpToDateAfterOne(p.call, Request(state, connection, []), first);
    var changed := p.call.(state := state, connection := connection);
    assert SetAll(changed, []) == changed;
  }

  /** A peer that hangs up on one subcall ends the parent: it is over and disconnected, and every pending subcall is
      hung up. */
  lemma PeerHangUpEndsAll<T>(p: Parent<T>, sub: T, state: State, stateNow: State, connectionNow: Connection)
    requires sub in p.subs && p.call.state != OVER && (state == ACTIVE || state == PEER_BUSY)
    ensures var n := OnSubcall(p, sub, state, DISCONNECTED, stateNow, connectionNow);
            && n.call.state == OVER && n.call.connection == DISCONNECTED
            && n.subs == {} && n.fates == p.fates + Each(p.subs, HungUp)
  {
    var popped := HangUpAll(p, {});
    assert p.subs - {} == p.subs;
    var m := SetParent(popped, p.call.state, DISCONNECTED);
    RequestTakesEffect(popped.call, p.call.state, DISCONNECTED);
    ClosedSet(popped, p.call.state, DISCONNECTED);
    RequestTakesEffect(m.call, OVER, m.call.connection);
    ClosedSet(m, OVER, m.call.connection);
    assert OnSubcall(p, sub, state, DISCONNECTED, stateNow, connectionNow) == PeerHungUp(popped);
  }

  /** What the client is told of a last failure. */
  function Report(state: State): ClientState {
    match state
    case BUSY => ClientBusy
    case PEER_BUSY => ClientPeerBusy
    case _ => ClientFailure
  }

  /** The last busy or failed subcall disconnects the parent and tells the client why, then that it is over, whenever
      the parent may take over the reason. */
  lemma LastFailureIsReported<T>(p: Parent<T>, sub: T, state: State, connection: Connection,
                                 stateNow: State, connectionNow: Connection)
    requires p.subs == {sub} && !p.call.subcall && (p.call.state == INACTIVE || p.call.state == ACTIVE)
    requires state == BUSY || state == MERROR || state == OVER || (state == PEER_BUSY && connection != DISCONNECTED)
    ensures var n := OnSubcall(p, sub, state, connection, stateNow, connectionNow);
            && n.call.state == OVER && n.call.connection == DISCONNECTED && n.subs == {}
            && n.call.emitted == p.call.emitted + [Report(state), ClientOver]
  {
    var q := p.(subs := {}, fates := p.fates + multiset{(sub, Failed)});
    var reported := if state == BUSY || state == PEER_BUSY then state else MERROR;
    LastFailIs(p, sub, state, connection, stateNow, connectionNow);
    ReportedThenOver(q, reported);
    assert Report(state) == Report(reported);
  }

  lemma LastFailIs<T>(p: Parent<T>, sub: T, state: State, connection: Connection,
                      stateNow: State, connectionNow: Connection)
    requires p.subs == {sub} && Failing(state) && !HungUpByPeer(state, connection)
    ensures OnSubcall(p, sub, state, connection, stateNow, connectionNow)
         == RemoveParent(SetParent(p.(subs := {}, fates := p.fates + multiset{(sub, Failed)}),
                                   if state == BUSY || state == PEER_BUSY then state else MERROR, DISCONNECTED))
  {
    assert p.subs - {sub} == {};
    assert OnSubcall(p, sub, state, connection, stateNow, connectionNow) == Fail(p, sub, state);
  }

  lemma ReportedThenOver<T>(q: Parent<T>, reported: State)
    requires q.subs == {} && !q.call.subcall && (q.call.state == INACTIVE || q.call.state == ACTIVE)
    requires reported == BUSY || reported == PEER_BUSY || reported == MERROR
    ensures var n := RemoveParent(SetParent(q, reported, DISCONNECTED));
            && n.call.state == OVER && n.call.connection == DISCONNECTED && n.subs == {}
            && n.call.emitted == q.call.emitted + [Report(reported), ClientOver]
  {
    var m := SetParent(q, reported, DISCONNECTED);
    ToldOf(q.call, reported);
    ClosedSet(q, reported, DISCONNECTED);
    ToldOf(m.call, OVER);
    ClosedSet(m, OVER, DISCONNECTED);
    assert q.call.emitted + [Report(reported)] + [ClientOver] == q.call.emitted + [Report(reported), ClientOver];
  }

  /** A call that takes over a worse state says so. */
  lemma ToldOf(c: Call, state: State)
    requires !c.subcall && c.state != state && ValidTransition(c.state, state)
    requires state == BUSY || state == PEER_BUSY || state == MERROR || state == OVER
    ensures SetState(c, Request(state, DISCONNECTED, []))
         == Call(state, DISCONNECTED, c.incoming, false,
                 c.emitted + [if state == OVER then ClientOver else Report(state)])
  {
    ChangeIs(c, state, DISCONNECTED);
    ViewIff(c.state, c.connection, c.incoming);
    ViewIff(state, DISCONNECTED, c.incoming);
  }

  /** A subcall is taken on exactly by a parent that is neither connected, disconnected nor over. */
  lemma TakenOnIff<T>(p: Parent<T>, sub: T)
    requires sub !in p.accepted && p.subs <= p.accepted
    ensures var n := AddSub(p, sub);
            && (sub in n.subs <==> p.call.connection != CONNECTED && p.call.connection != DISCONNECTED
                                   && p.call.state != OVER)
            && (sub in n.accepted <==> sub in n.subs)
            && n.subs == (if sub in n.subs then p.subs + {sub} else p.subs)
            && n.call == p.call && n.fates == p.fates
  {
  }

  /** Removing the parent ends it and hangs up what is pending, and leaves its connection as it was. */
  lemma EndEndsAll(f: Fork)
    requires Sober(f.parent)
    ensures var p, n := f.parent, Next(f, EndParent).parent;
            && n.call.state == OVER && n.call.connection == p.call.connection
            && n.subs == {} && n.fates == p.fates + Each(p.subs, HungUp)
  {
    var p := f.parent;
    RequestTakesEffect(p.call, OVER, p.call.connection);
    assert p.subs - {} == p.subs;
    if p.subs == {} {
      ClosedSet(p, OVER, p.call.connection);
      assert Each(p.subs, HungUp) == multiset{};
    }
  }

  /** A subcall that is handed over is silenced if it is taken on, and ended if it is refused. */
  lemma HandedOver(f: Fork, sub: nat, call: Call)
    requires Good(f) && sub !in f.calls
    ensures var n := Next(f, Add(sub, call));
            && n.calls.Keys == f.calls.Keys + {sub} && n.queue == f.queue
            && (sub in n.parent.accepted ==> n.calls[sub] == call.(subcall := true))
            && (sub !in n.parent.accepted ==> n.calls[sub].state == OVER && n.calls[sub].connection == call.connection)
  {
    RequestTakesEffect(call, OVER, call.connection);
    TakenOnIff(f.parent, sub);
  }

  /** The subcalls that were taken on say nothing to the client themselves. */
  predicate Silent(f: Fork) {
    forall sub :: sub in f.parent.accepted ==> sub in f.calls && f.calls[sub].subcall
  }

  /** On every run the subcalls that were taken on are silent towards the client. */
  lemma SubcallsAreSilent(call: Call, steps: seq<Step>)
    ensures Silent(Run(Begin(call), steps))
  {
    SilentRun(Begin(call), steps);
  }

  lemma {:induction false} SilentRun(f: Fork, steps: seq<Step>)
    requires Good(f) && Silent(f)
    ensures Good(Run(f, steps)) && Silent(Run(f, steps))
    decreases |steps|
  {
    if steps == [] {
      assert Run(f, steps) == f;
    } else {
      SilentStep(f, steps[0]);
      SilentRun(Next(f, steps[0]), steps[1..]);
    }
  }

  lemma SilentStep(f: Fork, step: Step)
    requires Good(f) && Silent(f)
    ensures Good(Next(f, step)) && Silent(Next(f, step))
  {
    NextKeeps(f, step);
    match step
    case Change(sub, state, connection) =>
      if sub in f.calls { RequestTakesEffect(f.calls[sub], state, connection); }
    case Deliver =>
      if f.queue != [] && f.queue[0].sub in f.calls {
        var e, now := f.queue[0], f.calls[f.queue[0].sub];
        ShrinksOn(f.parent, e.sub, e.state, e.connection, now.state, now.connection);
      }
    case _ =>
  }

  /** The parent hears of a change exactly when it took the subcall on and the change is one; the event carries it. */
  lemma HeardIff(f: Fork, sub: nat, state: State, connection: Connection)
    requires sub in f.calls
    ensures var c, n := f.calls[sub], Next(f, Change(sub, state, connection));
            && n.parent == f.parent
            && n.queue ==
                 if sub in f.parent.accepted && (c.state == state || ValidTransition(c.state, state))
                    && !(c.state == state && c.connection == connection)
                 then f.queue + [Event(sub, state, connection)] else f.queue
  {
    RequestTakesEffect(f.calls[sub], state, connection);
  }

  // ---- Failing ---------------------------------------------------------------------------------

  /** A busy or failed subcall leaves the parent as it is while others remain; the last one ends it. */
  lemma FailsWithTheLast<T>(p: Parent<T>, sub: T, state: State, connection: Connection,
                            stateNow: State, connectionNow: Connection)
    requires sub in p.subs && Failing(state) && !HungUpByPeer(state, connection)
    ensures var n := OnSubcall(p, sub, state, connection, stateNow, connectionNow);
            && n.subs == p.subs - {sub}
            && n.fates == p.fates + multiset{(sub, Failed)}
            && (if p.subs == {sub} then n.call.state == OVER else n.call == p.call)
  {
    var q := p.(subs := p.subs - {sub}, fates := p.fates + multiset{(sub, Failed)});
    assert q.subs == {} ==> p.subs == {sub};
    assert OnSubcall(p, sub, state, connection, stateNow, connectionNow) == Fail(p, sub, state);
    if q.subs == {} { LastOneEnds(q, if state == BUSY || state == PEER_BUSY then state else MERROR); }
  }

  lemma LastOneEnds<T>(q: Parent<T>, reported: State)
    requires q.subs == {}
    ensures var n := RemoveParent(SetParent(q, reported, DISCONNECTED));
            n.call.state == OVER && n.subs == {} && n.fates == q.fates
  {
    var m := SetParent(q, reported, DISCONNECTED);
    assert Each<T>({} - {}, HungUp) == multiset{};
    assert m.subs == {} && m.fates == q.fates;
    SetIs(m.call, OVER, m.call.connection);
    assert forall x: multiset<(T, Fate)> :: x + multiset{} == x;
  }

  lemma EachGrows<T>(subs: set<T>, sub: T, fate: Fate)
    requires sub !in subs
    ensures Each(subs + {sub}, fate) == Each(subs, fate) + multiset{(sub, fate)}
  {
    var before := set s | s in subs :: (s, fate);
    assert (set s | s in subs + {sub} :: (s, fate)) == before + {(sub, fate)};
    assert (sub, fate) !in before;
  }

  // ---- The object ------------------------------------------------------------------------------

  /** hangupCallsIf: one hang-up for every call that is not kept. */
  method HangUpIf<T>(calls: set<T>, keep: set<T>) returns (ghost log: multiset<(T, Fate)>)
    ensures log == Each(calls - keep, HungUp)
  {
    var rest := calls;
    ghost var ended: set<T> := {};
    log := multiset{};
    assert Each<T>({}, HungUp) == multiset{};
    while rest != {}
      invariant rest <= calls && ended == (calls - keep) - rest && log == Each(ended, HungUp)
      decreases |rest|
    {
      assert (forall s :: s !in rest) ==> rest == {};
      var sub :| sub in rest;
      if sub !in keep {
        EachGrows(ended, sub, HungUp);
        log := log + multiset{(sub, HungUp)};
        ended := ended + {sub};
      }
      rest := rest - {sub};
    }
    assert ended == calls - keep;
  }

  class CallObject {
    var state: State
    var connection: Connection
    const incoming: bool
    var isSubcall: bool
    var emitted: seq<ClientState>
    var subcalls: set<CallObject>
    ghost var accepted: set<CallObject>
    ghost var fates: multiset<(CallObject, Fate)>

    ghost function Model(): Parent<CallObject>
      reads this
    {
      Parent(Call(state, connection, incoming, isSubcall, emitted), subcalls, accepted, fates)
    }

    /** Every subcall ever accepted is pending without a fate, or gone with exactly one. */
    ghost predicate Valid()
      reads this
    {
      Settled(Model())
    }

    constructor (incoming: bool)
      ensures Model() == Parent(Fresh(incoming, false), {}, {}, multiset{}) && Valid()
    {
      this.incoming := incoming;
      state, connection, isSubcall, emitted := INACTIVE, DISCONNECTED, false, [];
      subcalls, accepted, fates := {}, {}, multiset{};
    }

    /** safePopSubcalls followed by hangupCallsIf: every popped subcall that is not kept is hung up. */
    method HangUpSubcalls(keep: set<CallObject>)
      requires Valid()
      modifies this`subcalls, this`fates
      ensures Model() == HangUpAll(old(Model()), keep)
      ensures keep == {} ==> Valid()
    {
      SettledHangUp(Model());
      var popped := subcalls;
      subcalls := {};
      ghost var log := HangUpIf(popped, keep);
      fates := fates + log;
    }

    method SetCallState(newState: State, newConnection: Connection) returns (ok: bool)
      requires Valid()
      modifies this`state, this`connection, this`emitted, this`subcalls, this`fates
      ensures Model() == SetParent(old(Model()), newState, newConnection) && Valid()
      ensures ok <==> Accepted(old(Model()).call, newState)
    {
      SettledSet(Model(), newState, newConnection);
      if state != newState {
        if !ValidTransition(state, newState) {
          return false;
        }
      } else if connection == newConnection {
        return true;
      }
      Commit(newState, newConnection);
      return true;
    }

    method Commit(newState: State, newConnection: Connection)
      requires Valid()
      requires Accepted(Model().call, newState) && !NoChange(Model().call, newState, newConnection)
      modifies this`state, this`connection, this`emitted, this`subcalls, this`fates
      ensures Model() == SetParent(old(Model()), newState, newConnection)
    {
      ChangeIs(Model().call, newState, newConnection);
      var before := ClientView(state, connection, incoming);
      state, connection := newState, newConnection;
      var after := ClientView(state, connection, incoming);
      if before != after && !isSubcall {
        emitted := emitted + [after];
      }
      assert Model().call == SetState(old(Model()).call, Request(newState, newConnection, []));
      // The constructor's own listener. It only looks at the subcalls, so its place before or after the
      // emission makes no difference.
      if newState == OVER {
        HangUpSubcalls({});
      }
    }

    method RemoveCall()
      requires Valid()
      modifies this`state, this`connection, this`emitted, this`subcalls, this`fates
      ensures Model() == RemoveParent(old(Model())) && Valid()
    {
      var ok := SetCallState(OVER, connection);
    }

    /** A subcall that was accepted and has left would be counted twice if it were handed over again. */
    method AddSubCall(sub: CallObject)
      requires sub != this && Valid() && sub.Valid()
      modifies this, sub
      ensures Model() == AddSub(old(Model()), sub) && sub.Valid()
      ensures old(sub in accepted ==> sub in subcalls) ==> Valid()
      ensures old(Refuses(Model())) ==> sub.Model() == RemoveParent(old(sub.Model()))
      ensures !old(Refuses(Model())) && sub !in old(subcalls) ==> sub.isSubcall
    {
      if connection == CONNECTED || connection == DISCONNECTED || state == OVER {
        sub.RemoveCall();
        return;
      }
      if sub in subcalls {
        return;
      }
      if sub !in accepted { SettledAdd(Model(), sub); }
      SettledCall(sub.Model(), sub.Model().call.(subcall := true));
      subcalls := subcalls + {sub};
      accepted := accepted + {sub};
      sub.isSubcall := true;
    }

    method SubcallStateChanged(sub: CallObject, newState: State, newConnection: Connection)
      requires sub != this && Valid()
      modifies this
      ensures Model() == OnSubcall(old(Model()), sub, newState, newConnection, old(sub.state), old(sub.connection))
      ensures Valid()
    {
      SettledOn(Model(), sub, newState, newConnection, sub.state, sub.connection);
      if sub !in subcalls {
        return;
      }
      if newState == ACTIVE && newConnection == CONNECTED {
        TakeOver(sub);
        return;
      }
      if (newState == ACTIVE || newState == PEER_BUSY) && newConnection == DISCONNECTED {
        HangUpSubcalls({});
        var ok := SetCallState(state, DISCONNECTED);
        RemoveCall();
        return;
      }
      if StateRank(newState) >= StateRank(BUSY) {
        DropSubcall(sub, newState);
        return;
      }
      if newState == ACTIVE && state == INACTIVE {
        var ok := SetCallState(newState, connection);
      }
      if ConnectionRank(connection) < ConnectionRank(newConnection) <= ConnectionRank(RINGING) {
        var ok := SetCallState(state, newConnection);
      }
    }

    /** merge: the other subcalls are hung up, and the parent takes over what the subcall holds now. */
    method TakeOver(sub: CallObject)
      requires sub != this && Valid() && sub in subcalls
      modifies this
      ensures Model() == Merge(old(Model()), sub, old(sub.state), old(sub.connection))
    {
      SettledPop(Model(), sub);
      HangUpSubcalls({sub});
      fates := fates + multiset{(sub, Merged)};
      var ok := SetCallState(sub.state, sub.connection);
    }

    method DropSubcall(sub: CallObject, newState: State)
      requires sub != this && Valid() && sub in subcalls
      modifies this
      ensures Model() == Fail(old(Model()), sub, newState)
    {
      SettledDrop(Model(), sub);
      subcalls := subcalls - {sub};
      fates := fates + multiset{(sub, Failed)};
      if subcalls == {} {
        var ok := SetCallState(if newState == BUSY || newState == PEER_BUSY then newState else MERROR, DISCONNECTED);
        RemoveCall();
      }
    }
  }
}
