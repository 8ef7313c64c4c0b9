/** The state machine of a call: which state changes are accepted, and what the client is told. */
module CallState {

  datatype State = INACTIVE | ACTIVE | HOLD | BUSY | PEER_BUSY | MERROR | OVER

  datatype Connection = DISCONNECTED | TRYING | PROGRESSING | RINGING | CONNECTED

  datatype ClientState =
    | ClientInactive | ClientIncoming | ClientConnecting | ClientRinging | ClientCurrent
    | ClientHungup | ClientBusy | ClientPeerBusy | ClientFailure | ClientHold | ClientOver

  /** The numbering of the enumerations, which the source compares. */
  function StateRank(s: State): nat {
    match s
    case INACTIVE => 0 case ACTIVE => 1 case HOLD => 2 case BUSY => 3
    case PEER_BUSY => 4 case MERROR => 5 case OVER => 6
  }

  function ConnectionRank(c: Connection): nat {
    match c
    case DISCONNECTED => 0 case TRYING => 1 case PROGRESSING => 2 case RINGING => 3 case CONNECTED => 4
  }

  predicate ValidTransition(from: State, to: State) {
    to == OVER ||
    match from
    case INACTIVE => to in {ACTIVE, BUSY, PEER_BUSY, MERROR}
    case ACTIVE => to in {BUSY, PEER_BUSY, HOLD, MERROR}
    case HOLD => to in {ACTIVE, MERROR}
    case BUSY => to == MERROR
    case _ => false
  }

  function ClientView(s: State, c: Connection, incoming: bool): ClientState {
    match s
    case ACTIVE =>
      (match c
       case PROGRESSING => ClientConnecting
       case RINGING => if incoming then ClientIncoming else ClientRinging
       case DISCONNECTED => ClientHungup
       case _ => ClientCurrent)
    case HOLD => if c == DISCONNECTED then ClientHungup else ClientHold
    case BUSY => ClientBusy
    case PEER_BUSY => ClientPeerBusy
    case INACTIVE =>
      (match c
       case PROGRESSING => ClientConnecting
       case TRYING => ClientConnecting
       case RINGING => if incoming then ClientIncoming else ClientRinging
       case CONNECTED => ClientCurrent
       case _ => ClientInactive)
    case OVER => ClientOver
    case MERROR => ClientFailure
  }

  datatype Call = Call(state: State, connection: Connection, incoming: bool, subcall: bool, emitted: seq<ClientState>)

  /** A request made by anyone; `nested` are the requests that state listeners make while being notified. */
  datatype Request = Request(state: State, connection: Connection, nested: seq<Request>)

  predicate Accepted(c: Call, state: State) {
    c.state == state || ValidTransition(c.state, state)
  }

  predicate NoChange(c: Call, state: State, connection: Connection) {
    c.state == state && c.connection == connection
  }

  function View(c: Call): ClientState {
    ClientView(c.state, c.connection, c.incoming)
  }

  function SetState(c: Call, r: Request): Call
    decreases r, 1
  {
    if !Accepted(c, r.state) || NoChange(c, r.state, r.connection) then c
    else
      var before := View(c);
      var changed := c.(state := r.state, connection := r.connection);
      var after := View(changed);
      var notified := SetAll(changed, r.nested);
      if before != after && !c.subcall then notified.(emitted := notified.emitted + [after]) else notified
  }

  function SetAll(c: Call, rs: seq<Request>): Call
    decreases rs, 0
  {
    if rs == [] then c else SetAll(SetState(c, rs[0]), rs[1..])
  }

  function Fresh(incoming: bool, subcall: bool): Call {
    Call(INACTIVE, DISCONNECTED, incoming, subcall, [])
  }

  // ---- Phases ------------------------------------------------------------------------------

  function Phase(s: State): nat {
    match s
    case INACTIVE => 0
    case ACTIVE => 1 case HOLD => 1
    case BUSY => 2
    case PEER_BUSY => 3 case MERROR => 3
    case OVER => 4
  }

  lemma {:induction false} PhaseAfterOne(c: Call, r: Request)
    ensures Phase(c.state) <= Phase(SetState(c, r).state)
    ensures SetState(c, r).subcall == c.subcall && SetState(c, r).incoming == c.incoming
    decreases r, 1
  {
    if Accepted(c, r.state) && !NoChange(c, r.state, r.connection) {
      PhaseAfterAll(c.(state := r.state, connection := r.connection), r.nested);
    }
  }

  /** Over every run of accepted and rejected requests, re-entrant ones included, the phase never goes back. */
  lemma {:induction false} PhaseAfterAll(c: Call, rs: seq<Request>)
    ensures Phase(c.state) <= Phase(SetAll(c, rs).state)
    ensures SetAll(c, rs).subcall == c.subcall && SetAll(c, rs).incoming == c.incoming
    decreases rs, 0
  {
    if rs != [] {
      PhaseAfterOne(c, rs[0]);
      PhaseAfterAll(SetState(c, rs[0]), rs[1..]);
    }
  }

  /** A call that is over stays over. */
  lemma OverIsAbsorbing(c: Call, rs: seq<Request>)
    requires c.state == OVER
    ensures SetAll(c, rs).state == OVER
  {
    PhaseAfterAll(c, rs);
  }

  /** Phases alone decide acceptance up to a few exceptions: a transition that moves the phase forward is
      accepted unless it starts on hold, or leaves hold or busy for a busy state; within a phase only hold and
      resume are. */
  lemma AcceptedIff(from: State, to: State)
    requires from != to
    ensures ValidTransition(from, to) <==>
            || to == OVER
            || (Phase(from) < Phase(to) && !(from == INACTIVE && to == HOLD)
                && !(from == HOLD && to in {BUSY, PEER_BUSY}) && !(from == BUSY && to == PEER_BUSY))
            || (Phase(from) == Phase(to) == 1)
  {}

  /** A request without re-entrant listeners takes effect exactly when it is accepted. */
  lemma RequestTakesEffect(c: Call, state: State, connection: Connection)
    ensures var n := SetState(c, Request(state, connection, []));
            && n.state == (if c.state == state || ValidTransition(c.state, state) then state else c.state)
            && n.connection ==
                 (if c.state == state || ValidTransition(c.state, state) then connection else c.connection)
            && n.incoming == c.incoming && n.subcall == c.subcall
  {
    var changed := c.(state := state, connection := connection);
    assert SetAll(changed, []) == changed;
  }

  /** Which calls look alike to the client: for every state it can be told, exactly the calls that look like it. */
  lemma ViewIff(s: State, c: Connection, incoming: bool)
    ensures var v, young := ClientView(s, c, incoming), s == INACTIVE || s == ACTIVE;
            && (v == ClientOver <==> s == OVER)
            && (v == ClientFailure <==> s == MERROR)
            && (v == ClientBusy <==> s == BUSY)
            && (v == ClientPeerBusy <==> s == PEER_BUSY)
            && (v == ClientHold <==> s == HOLD && c != DISCONNECTED)
            && (v == ClientHungup <==> (s == ACTIVE || s == HOLD) && c == DISCONNECTED)
            && (v == ClientInactive <==> s == INACTIVE && c == DISCONNECTED)
            && (v == ClientIncoming <==> young && c == RINGING && incoming)
            && (v == ClientRinging <==> young && c == RINGING && !incoming)
            && (v == ClientConnecting <==> (young && c == PROGRESSING) || (s == INACTIVE && c == TRYING))
            && (v == ClientCurrent <==> (young && c == CONNECTED) || (s == ACTIVE && c == TRYING))
  {
  }

  // ---- What the client is told -------------------------------------------------------------

  predicate NoEqualNeighbours(xs: seq<ClientState>) {
    forall i :: 0 <= i < |xs| - 1 ==> xs[i] != xs[i + 1]
  }

  /** The client's picture: where it began, then what it was told, ending at the present state. */
  predicate Faithful(c: Call, first: ClientState) {
    NoEqualNeighbours([first] + c.emitted) && ([first] + c.emitted)[|c.emitted|] == View(c)
  }

  predicate Flat(rs: seq<Request>) {
    forall i :: 0 <= i < |rs| ==> rs[i].nested == []
  }

  lemma {:induction false} FaithfulAfterAll(c: Call, rs: seq<Request>, first: ClientState)
    requires !c.subcall && Flat(rs) && Faithful(c, first)
    ensures Faithful(SetAll(c, rs), first)
    decreases |rs|
  {
    if rs != [] {
      var n := SetState(c, rs[0]);
      assert SetAll(c.(state := rs[0].state, connection := rs[0].connection), []) ==
             c.(state := rs[0].state, connection := rs[0].connection);
      if n.emitted != c.emitted {
        assert [first] + n.emitted == ([first] + c.emitted) + [View(n)];
      }
      FaithfulAfterAll(n, rs[1..], first);
    }
  }

  /** If no listener re-enters, the emitted states have no equal neighbours and the last one is the current one. */
  lemma ClientSeesEveryChange(incoming: bool, rs: seq<Request>)
    requires Flat(rs)
    ensures var c := SetAll(Fresh(incoming, false), rs);
            && NoEqualNeighbours(c.emitted)
            && (c.emitted != [] ==> c.emitted[|c.emitted| - 1] == View(c))
            && (c.emitted == [] ==> View(c) == ClientInactive)
  {
    var c := SetAll(Fresh(incoming, false), rs);
    FaithfulAfterAll(Fresh(incoming, false), rs, ClientInactive);
    forall i | 0 <= i < |c.emitted| - 1 ensures c.emitted[i] != c.emitted[i + 1] {
      assert ([ClientInactive] + c.emitted)[i + 1] != ([ClientInactive] + c.emitted)[i + 2];
    }
  }

  lemma {:induction false} SubcallOne(c: Call, r: Request)
    requires c.subcall
    ensures SetState(c, r).emitted == c.emitted && SetState(c, r).subcall
    decreases r, 1
  {
    if Accepted(c, r.state) && !NoChange(c, r.state, r.connection) {
      SubcallAll(c.(state := r.state, connection := r.connection), r.nested);
    }
  }

  /** A subcall never tells the client anything. */
  lemma {:induction false} SubcallAll(c: Call, rs: seq<Request>)
    requires c.subcall
    ensures SetAll(c, rs).emitted == c.emitted && SetAll(c, rs).subcall
    decreases rs, 0
  {
    if rs != [] {
      SubcallOne(c, rs[0]);
      SubcallAll(SetState(c, rs[0]), rs[1..]);
    }
  }

  /** A listener that re-enters makes the client see the two changes in reverse: the call is over,
      and the last thing it is told is that the call is current. */
  lemma ReentrantListenerReversesTheStory()
    ensures var c := SetState(Fresh(false, false), Request(ACTIVE, CONNECTED, [Request(OVER, CONNECTED, [])]));
            c.state == OVER && c.emitted == [ClientOver, ClientCurrent]
  {
    var live := Call(ACTIVE, CONNECTED, false, false, []);
    var inner := Request(OVER, CONNECTED, []);
    assert SetAll(Call(OVER, CONNECTED, false, false, []), []) == Call(OVER, CONNECTED, false, false, []);
    assert SetState(live, inner) == Call(OVER, CONNECTED, false, false, [ClientOver]);
    assert [inner][1..] == [];
    assert SetAll(live, [inner]) == SetAll(SetState(live, inner), []);
  }

  lemma {:induction false} EmittedAppends(c: Call, rs: seq<Request>, told: seq<ClientState>)
    requires Flat(rs)
    ensures SetAll(c.(emitted := told + c.emitted), rs)
         == SetAll(c, rs).(emitted := told + SetAll(c, rs).emitted)
    decreases |rs|
  {
    if rs != [] {
      var r := rs[0];
      var n, m := SetState(c, r), SetState(c.(emitted := told + c.emitted), r);
      var changed := c.(state := r.state, connection := r.connection);
      assert SetAll(changed, []) == changed
          && SetAll(changed.(emitted := told + c.emitted), []) == changed.(emitted := told + c.emitted);
      assert m == n.(emitted := told + n.emitted) by {
        assert told + (c.emitted + [View(changed)]) == (told + c.emitted) + [View(changed)];
      }
      EmittedAppends(n, rs[1..], told);
    }
  }

  /** No request of the list changes what the client would see, taken in order. */
  predicate Unseen(c: Call, rs: seq<Request>)
    decreases |rs|
  {
    rs == [] || (View(SetState(c, rs[0])) == View(c) && Unseen(SetState(c, rs[0]), rs[1..]))
  }

  lemma {:induction false} QuietIffUnseen(c: Call, rs: seq<Request>)
    requires !c.subcall && Flat(rs)
    ensures |c.emitted| <= |SetAll(c, rs).emitted|
    ensures |SetAll(c, rs).emitted| == |c.emitted| <==> Unseen(c, rs)
    decreases |rs|
  {
    if rs != [] {
      var r := rs[0];
      assert SetAll(c.(state := r.state, connection := r.connection), []) ==
             c.(state := r.state, connection := r.connection);
      QuietIffUnseen(SetState(c, r), rs[1..]);
    }
  }

  /** With listeners that re-enter, themselves without being re-entered, the client's picture stays faithful exactly
      when the outer change is invisible to it, or nothing the listeners do is visible. */
  lemma ReentrancyIsHarmlessIff(c: Call, r: Request, first: ClientState)
    requires !c.subcall && Faithful(c, first) && Flat(r.nested)
    requires Accepted(c, r.state) && !NoChange(c, r.state, r.connection)
    ensures var changed := c.(state := r.state, connection := r.connection);
            Faithful(SetState(c, r), first) <==> View(c) == View(changed) || Unseen(changed, r.nested)
  {
    var changed := c.(state := r.state, connection := r.connection);
    var quiet := changed.(emitted := []);
    var inner := SetAll(quiet, r.nested);
    assert changed == quiet.(emitted := c.emitted + quiet.emitted) by { assert c.emitted + [] == c.emitted; }
    EmittedAppends(quiet, r.nested, c.emitted);
    FaithfulAfterAll(quiet, r.nested, View(changed));
    PhaseAfterAll(quiet, r.nested);
    QuietIffUnseen(changed, r.nested);
    if View(c) == View(changed) {
      FaithfulAfterAll(changed, r.nested, first);
    } else {
      OuterComesLast(c, changed, inner, first);
    }
  }

  lemma OuterComesLast(c: Call, changed: Call, inner: Call, first: ClientState)
    requires Faithful(c, first) && Faithful(inner, View(changed)) && View(c) != View(changed)
    ensures Faithful(inner.(emitted := c.emitted + inner.emitted + [View(changed)]), first) <==> inner.emitted == []
  {
    var all := [first] + (c.emitted + inner.emitted + [View(changed)]);
    var n := |c.emitted| + |inner.emitted|;
    assert all[n + 1] == View(changed);
    if inner.emitted == [] {
      assert all == ([first] + c.emitted) + [View(changed)];
    } else {
      assert all[n] == inner.emitted[|inner.emitted| - 1] == View(inner);
    }
  }

  // ---- Listeners within listeners ------------------------------------------------------------

  /** The last thing the client was told is the present state. */
  predicate UpToDate(c: Call, first: ClientState) {
    ([first] + c.emitted)[|c.emitted|] == View(c)
  }

  /** After a visible change the client is up to date exactly when the listeners, however deeply nested, leave the call
      looking as the change made it look. */
  lemma VisibleChangeIff(c: Call, r: Request, first: ClientState)
    requires !c.subcall && Accepted(c, r.state)
    requires View(c) != View(c.(state := r.state, connection := r.connection))
    ensures var changed := c.(state := r.state, connection := r.connection);
            UpToDate(SetState(c, r), first) <==> View(SetAll(changed, r.nested)) == View(changed)
  {
    var changed := c.(state := r.state, connection := r.connection);
    var notified := SetAll(changed, r.nested);
    assert SetState(c, r) == notified.(emitted := notified.emitted + [View(changed)]);
    assert ([first] + (notified.emitted + [View(changed)]))[|notified.emitted| + 1] == View(changed);
  }

  /** Whether the client is up to date after one request, from whether it was before and from what the call looks like
      on the way: the last visible change that is not inside another one decides. */
  predicate ToldBy(c: Call, r: Request, before: bool)
    decreases r, 1
  {
    if !Accepted(c, r.state) || NoChange(c, r.state, r.connection) then before
    else
      var changed := c.(state := r.state, connection := r.connection);
      if View(c) == View(changed) then ToldAfter(changed, r.nested, before)
      else View(SetAll(changed, r.nested)) == View(changed)
  }

  predicate ToldAfter(c: Call, rs: seq<Request>, before: bool)
    decreases rs, 0
  {
    if rs == [] then before else ToldAfter(SetState(c, rs[0]), rs[1..], ToldBy(c, rs[0], before))
  }

  lemma {:induction false} UpToDateAfterOne(c: Call, r: Request, first: ClientState)
    requires !c.subcall
    ensures UpToDate(SetState(c, r), first) <==> ToldBy(c, r, UpToDate(c, first))
    decreases r, 1
  {
    if Accepted(c, r.state) && !NoChange(c, r.state, r.connection) {
      var changed := c.(state := r.state, connection := r.connection);
      if View(c) == View(changed) {
        UpToDateAfterAll(changed, r.nested, first);
      } else {
        VisibleChangeIff(c, r, first);
      }
    }
  }

  /** Over every run, with listeners reacting inside listeners to any depth, the client ends up to date exactly when the
      last visible change that is not inside another one is left as it was by its listeners, or there is none and the
      client was up to date before. */
  lemma {:induction false} UpToDateAfterAll(c: Call, rs: seq<Request>, first: ClientState)
    requires !c.subcall
    ensures UpToDate(SetAll(c, rs), first) <==> ToldAfter(c, rs, UpToDate(c, first))
    decreases rs, 0
  {
    if rs != [] {
      UpToDateAfterOne(c, rs[0], first);
      PhaseAfterOne(c, rs[0]);
      UpToDateAfterAll(SetState(c, rs[0]), rs[1..], first);
    }
  }

  /** A listener inside a listener can undo what the first one did: the two limits above are different. */
  lemma NestedListenersCanCancel()
    ensures var back := Request(ACTIVE, PROGRESSING, []);
            var c := SetState(Fresh(false, false), Request(ACTIVE, PROGRESSING, [Request(ACTIVE, RINGING, [back])]));
            c.emitted == [ClientConnecting, ClientRinging, ClientConnecting] && UpToDate(c, ClientInactive)
  {
    var connecting, ringing := Call(ACTIVE, PROGRESSING, false, false, []), Call(ACTIVE, RINGING, false, false, []);
    var back := Request(ACTIVE, PROGRESSING, []);
    var ring := Request(ACTIVE, RINGING, [back]);
    assert SetAll(connecting, []) == connecting;
    assert SetState(ringing, back) == connecting.(emitted := [ClientConnecting]);
    assert [back][1..] == [] && [ring][1..] == [];
    assert SetAll(ringing, [back]) == SetAll(SetState(ringing, back), []);
    assert SetState(connecting, ring) == connecting.(emitted := [ClientConnecting, ClientRinging]);
    assert SetAll(connecting, [ring]) == SetAll(SetState(connecting, ring), []);
  }
}
