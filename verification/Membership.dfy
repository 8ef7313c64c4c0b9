/** Which call is in which conference: calls move between conferences, and a conference that shrinks to
    one member dissolves. */
module Membership {
  import opened Options

  datatype Conference = Conference(members: set<string>, account: string)

  /** `pointer` holds the conference each live call points at, `owner` the account of each call, `confs` the
      conference objects that exist. */
  datatype World = World(
    pointer: map<string, Option<string>>,
    owner: map<string, string>,
    confs: map<string, Conference>,
    accounts: set<string>,
    rendezvous: set<string>)

  datatype Op =
    | NewCall(call: string, account: string)
    | DropCall(call: string)
    | DropAccount(account: string)
    | SetRendezvous(account: string, on: bool)
    | Join(account: string, call: string, account2: string, call2: string, conf: string)
    | Add(account: string, call: string, account2: string, conf: string)
    | Detach(call: string)
    | HangUp(call: string)
    | JoinConferences(account: string, conf: string, account2: string, conf2: string)

  function Empty(): World {
    World(map[], map[], map[], {}, {})
  }

  predicate OwnedBy(w: World, call: string, account: string) {
    call in w.pointer && call in w.owner && w.owner[call] == account
  }

  predicate Hosted(w: World, conf: string, account: string) {
    conf in w.confs && w.confs[conf].account == account
  }

  // ---- Steps on one conference ---------------------------------------------------------------

  /** Conference::addParticipant. */
  function Enter(w: World, conf: string, call: string): World
    requires conf in w.confs
  {
    if call in w.confs[conf].members then w
    else
      var c := w.confs[conf];
      w.(confs := w.confs[conf := c.(members := c.members + {call})],
         pointer := if call in w.pointer then w.pointer[call := Some(conf)] else w.pointer)
  }

  /** Conference::removeParticipant. */
  function Leave(w: World, conf: string, call: string): World
    requires conf in w.confs
  {
    if call !in w.confs[conf].members then w
    else
      var c := w.confs[conf];
      w.(confs := w.confs[conf := c.(members := c.members - {call})],
         pointer := if call in w.pointer then w.pointer[call := None] else w.pointer)
  }

  /** The conference object dies once its account lets go of it, and every live participant exits. */
  function Destroy(w: World, conf: string): World
    requires conf in w.confs
  {
    var members := w.confs[conf].members;
    w.(confs := w.confs - {conf},
       pointer := map c | c in w.pointer :: if c in members then None else w.pointer[c])
  }

  /** The last participant keeps the conference alive only for a rendezvous account, or a lost one. */
  predicate KeepsAlone(w: World, members: set<string>) {
    exists p :: p in members && members == {p} && p in w.pointer
             && (p !in w.owner || w.owner[p] !in w.accounts || w.owner[p] in w.rendezvous)
  }

  predicate Dissolves(w: World, conf: string)
    requires conf in w.confs
  {
    && w.confs[conf].account in w.accounts
    && |w.confs[conf].members| < 2
    && !KeepsAlone(w, w.confs[conf].members)
  }

  function ProcessRemaining(w: World, conf: string): World
    requires conf in w.confs
  {
    if Dissolves(w, conf) then Destroy(w, conf) else w
  }

  function RemoveParticipant(w: World, call: string): World {
    if call in w.pointer && w.pointer[call].Some? && w.pointer[call].value in w.confs then
      var conf := w.pointer[call].value;
      ProcessRemaining(Leave(w, conf, call), conf)
    else w
  }

  /** Calls are in one conference at a time: leave the old one, then enter the new one. */
  function BindTo(w: World, call: string, conf: string): World {
    var left := if call in w.pointer && w.pointer[call].Some? then RemoveParticipant(w, call) else w;
    if conf in left.confs then Enter(left, conf, call) else left
  }

  // ---- Operations of the manager -------------------------------------------------------------

  predicate CanJoin(w: World, account: string, call: string, account2: string, call2: string) {
    account in w.accounts && account2 in w.accounts && call != call2
    && OwnedBy(w, call, account) && OwnedBy(w, call2, account2)
  }

  function DoJoin(w: World, account: string, call: string, call2: string, conf: string): World {
    BindTo(BindTo(w.(confs := w.confs[conf := Conference({}, account)]), call, conf), call2, conf)
  }

  predicate CanAdd(w: World, account: string, call: string, account2: string, conf: string) {
    account in w.accounts && account2 in w.accounts && OwnedBy(w, call, account) && Hosted(w, conf, account2)
    && w.pointer[call] != Some(conf)
  }

  predicate CanMerge(w: World, account: string, conf: string, account2: string, conf2: string) {
    account in w.accounts && account2 in w.accounts && Hosted(w, conf, account) && Hosted(w, conf2, account2)
  }

  /** The participants of a conference that its first account can resolve, hence the ones that move. */
  function Movable(w: World, account: string, conf: string): set<string>
    requires conf in w.confs
  {
    set p | p in w.confs[conf].members && OwnedBy(w, p, account)
  }

  function LeaveAll(w: World, conf: string, calls: set<string>): World
    requires conf in w.confs && calls <= w.confs[conf].members
  {
    var c := w.confs[conf];
    w.(confs := w.confs[conf := c.(members := c.members - calls)],
       pointer := map x | x in w.pointer :: if x in calls then None else w.pointer[x])
  }

  function EnterAll(w: World, conf: string, calls: set<string>): World
    requires conf in w.confs
  {
    var c := w.confs[conf];
    w.(confs := w.confs[conf := c.(members := c.members + calls)],
       pointer := map x | x in w.pointer :: if x in calls then Some(conf) else w.pointer[x])
  }

  function DoMerge(w: World, account: string, conf: string, conf2: string): World
    requires conf in w.confs && conf2 in w.confs
  {
    var calls := Movable(w, account, conf);
    Destroy(EnterAll(LeaveAll(w, conf, calls), conf2, calls), conf)
  }

  predicate Unseen(w: World, call: string) {
    call !in w.pointer && forall k :: k in w.confs ==> call !in w.confs[k].members
  }

  function Apply(w: World, op: Op): World {
    match op
    case NewCall(call, account) =>
      if Unseen(w, call) then w.(pointer := w.pointer[call := None], owner := w.owner[call := account],
                                 accounts := w.accounts + {account}) else w
    case DropCall(call) => w.(pointer := w.pointer - {call})
    case DropAccount(account) => w.(accounts := w.accounts - {account})
    case SetRendezvous(account, on) =>
      w.(rendezvous := if on then w.rendezvous + {account} else w.rendezvous - {account})
    case Join(account, call, account2, call2, conf) =>
      if conf !in w.confs && CanJoin(w, account, call, account2, call2)
      then DoJoin(w, account, call, call2, conf) else w
    case Add(account, call, account2, conf) =>
      if CanAdd(w, account, call, account2, conf) then BindTo(w, call, conf) else w
    case Detach(call) => RemoveParticipant(w, call)
    case HangUp(call) =>
      var n := RemoveParticipant(w, call);
      n.(pointer := n.pointer - {call})
    case JoinConferences(account, conf, account2, conf2) =>
      if CanMerge(w, account, conf, account2, conf2) then DoMerge(w, account, conf, conf2) else w
  }

  function Run(w: World, ops: seq<Op>): World
    decreases |ops|
  {
    if ops == [] then w else Run(Apply(w, ops[0]), ops[1..])
  }

  // ---- Exclusive membership --------------------------------------------------------------------

  predicate Exclusive(w: World) {
    && (forall c, k :: c in w.pointer && k in w.confs ==>
          (c in w.confs[k].members <==> w.pointer[c] == Some(k)))
    && (forall c :: c in w.pointer && w.pointer[c].Some? ==> w.pointer[c].value in w.confs)
  }

  lemma EnterKeeps(w: World, conf: string, call: string)
    requires Exclusive(w) && conf in w.confs
    requires call in w.pointer ==> w.pointer[call] == None || w.pointer[call] == Some(conf)
    ensures Exclusive(Enter(w, conf, call))
  {}

  lemma LeaveKeeps(w: World, conf: string, call: string)
    requires Exclusive(w) && conf in w.confs
    ensures Exclusive(Leave(w, conf, call))
  {}

  lemma DestroyKeeps(w: World, conf: string)
    requires Exclusive(w) && conf in w.confs
    ensures Exclusive(Destroy(w, conf))
  {}

  lemma RemoveKeeps(w: World, call: string)
    requires Exclusive(w)
    ensures Exclusive(RemoveParticipant(w, call))
    ensures call in w.pointer ==> RemoveParticipant(w, call).pointer[call] == None
    ensures RemoveParticipant(w, call).pointer.Keys == w.pointer.Keys
  {
    if call in w.pointer && w.pointer[call].Some? {
      var conf := w.pointer[call].value;
      LeaveKeeps(w, conf, call);
      if Dissolves(Leave(w, conf, call), conf) { DestroyKeeps(Leave(w, conf, call), conf); }
    }
  }

  lemma BindKeeps(w: World, call: string, conf: string)
    requires Exclusive(w)
    ensures Exclusive(BindTo(w, call, conf))
    ensures BindTo(w, call, conf).pointer.Keys == w.pointer.Keys
  {
    RemoveKeeps(w, call);
    var left := if call in w.pointer && w.pointer[call].Some? then RemoveParticipant(w, call) else w;
    if conf in left.confs { EnterKeeps(left, conf, call); }
  }

  lemma LeaveAllKeeps(w: World, conf: string, calls: set<string>)
    requires Exclusive(w) && conf in w.confs && calls <= w.confs[conf].members
    ensures Exclusive(LeaveAll(w, conf, calls))
  {}

  lemma EnterAllKeeps(w: World, conf: string, calls: set<string>)
    requires Exclusive(w) && conf in w.confs
    requires forall c :: c in calls && c in w.pointer ==> w.pointer[c] == None
    ensures Exclusive(EnterAll(w, conf, calls))
  {}

  lemma MergeKeeps(w: World, account: string, conf: string, conf2: string)
    requires Exclusive(w) && conf in w.confs && conf2 in w.confs
    ensures Exclusive(DoMerge(w, account, conf, conf2))
  {
    var calls := Movable(w, account, conf);
    var left := LeaveAll(w, conf, calls);
    LeaveAllKeeps(w, conf, calls);
    EnterAllKeeps(left, conf2, calls);
    DestroyKeeps(EnterAll(left, conf2, calls), conf);
  }

  lemma ApplyKeeps(w: World, op: Op)
    requires Exclusive(w)
    ensures Exclusive(Apply(w, op))
  {
    match op
    case Join(account, call, account2, call2, conf) =>
      if conf !in w.confs {
        var wider := w.(confs := w.confs[conf := Conference({}, account)]);
        assert Exclusive(wider);
        BindKeeps(wider, call, conf);
        BindKeeps(BindTo(wider, call, conf), call2, conf);
      }
    case Add(account, call, account2, conf) => BindKeeps(w, call, conf);
    case Detach(call) => RemoveKeeps(w, call);
    case HangUp(call) => RemoveKeeps(w, call);
    case JoinConferences(account, conf, account2, conf2) =>
      if CanMerge(w, account, conf, account2, conf2) { MergeKeeps(w, account, conf, conf2); }
    case _ =>
  }

  lemma {:induction false} RunKeeps(w: World, ops: seq<Op>)
    requires Exclusive(w)
    ensures Exclusive(Run(w, ops))
    decreases |ops|
  {
    if ops != [] {
      ApplyKeeps(w, ops[0]);
      RunKeeps(Apply(w, ops[0]), ops[1..]);
    }
  }

  /** After every run, a live call is a member of exactly the conference it points at, if any. */
  lemma OneConferencePerCall(ops: seq<Op>, call: string, conf: string)
    requires call in Run(Empty(), ops).pointer && conf in Run(Empty(), ops).confs
    ensures var w := Run(Empty(), ops); call in w.confs[conf].members <==> w.pointer[call] == Some(conf)
  {
    RunKeeps(Empty(), ops);
  }

  // ---- Moving whole conferences ------------------------------------------------------------------

  /** Joining two distinct conferences moves exactly the calls of the first account; the second then holds
      the union, the first is gone, and its other live members are in no conference. */
  lemma JoinMovesTheFirstAccountsCalls(w: World, account: string, conf: string, account2: string, conf2: string)
    requires Exclusive(w) && CanMerge(w, account, conf, account2, conf2) && conf != conf2
    ensures var n := Apply(w, JoinConferences(account, conf, account2, conf2));
            && conf !in n.confs && conf2 in n.confs
            && n.confs[conf2].members == w.confs[conf2].members + Movable(w, account, conf)
            && (forall c :: c in Movable(w, account, conf) ==> n.pointer[c] == Some(conf2))
            && (forall c :: c in w.pointer && c in w.confs[conf].members && c !in Movable(w, account, conf) ==>
                  n.pointer[c] == None)
            && (forall k :: k in w.confs && k != conf && k != conf2 ==> k in n.confs && n.confs[k] == w.confs[k])
  {}

  /** When every participant is a live call of the first account the result is exactly the union. */
  lemma JoinIsUnion(w: World, account: string, conf: string, account2: string, conf2: string)
    requires Exclusive(w) && CanMerge(w, account, conf, account2, conf2) && conf != conf2
    ensures Apply(w, JoinConferences(account, conf, account2, conf2)).confs[conf2].members
              == w.confs[conf2].members + w.confs[conf].members
        <==> forall p :: p in w.confs[conf].members && p !in w.confs[conf2].members ==> OwnedBy(w, p, account)
  {
    JoinMovesTheFirstAccountsCalls(w, account, conf, account2, conf2);
    var n := Apply(w, JoinConferences(account, conf, account2, conf2));
    if n.confs[conf2].members == w.confs[conf2].members + w.confs[conf].members {
      forall p | p in w.confs[conf].members && p !in w.confs[conf2].members ensures OwnedBy(w, p, account) {
        assert p in n.confs[conf2].members;
      }
    }
  }

  /** Joining a conference with itself destroys it and leaves every live participant without one. */
  lemma JoinWithItselfDissolves(w: World, account: string, conf: string)
    requires Exclusive(w) && CanMerge(w, account, conf, account, conf)
    ensures var n := Apply(w, JoinConferences(account, conf, account, conf));
            conf !in n.confs && forall c :: c in w.pointer && c in w.confs[conf].members ==> n.pointer[c] == None
  {
    var calls := Movable(w, account, conf);
    var back := EnterAll(LeaveAll(w, conf, calls), conf, calls);
    assert back.confs[conf].members == w.confs[conf].members;
  }

  /** A new conference of two calls holds exactly those two, wherever they were before. */
  lemma JoinHoldsBoth(w: World, account: string, call: string, account2: string, call2: string, conf: string)
    requires Exclusive(w) && conf !in w.confs && CanJoin(w, account, call, account2, call2)
    ensures var n := Apply(w, Join(account, call, account2, call2, conf));
            && conf in n.confs && n.confs[conf].members == {call, call2} && n.confs[conf].account == account
            && n.pointer.Keys == w.pointer.Keys
            && n.pointer[call] == Some(conf) && n.pointer[call2] == Some(conf)
  {
    var wider := w.(confs := w.confs[conf := Conference({}, account)]);
    assert Exclusive(wider);
    var first := BindTo(wider, call, conf);
    BindHolds(wider, call, conf);
    BindHolds(first, call2, conf);
  }

  lemma BindHolds(w: World, call: string, conf: string)
    requires Exclusive(w) && conf in w.confs && call in w.pointer && w.pointer[call] != Some(conf)
    ensures var n := BindTo(w, call, conf);
            && Exclusive(n) && conf in n.confs && n.confs[conf].members == w.confs[conf].members + {call}
            && n.confs[conf].account == w.confs[conf].account
            && n.pointer.Keys == w.pointer.Keys && n.pointer[call] == Some(conf)
            && (forall c :: c in w.pointer && w.pointer[c] == Some(conf) ==> n.pointer[c] == Some(conf))
            && (forall c :: c in n.pointer && n.pointer[c] == Some(conf) ==> c == call || w.pointer[c] == Some(conf))
  {
    RemoveKeeps(w, call);
    BindKeeps(w, call, conf);
    var left := if w.pointer[call].Some? then RemoveParticipant(w, call) else w;
    assert conf in left.confs && left.confs[conf] == w.confs[conf];
  }

  // ---- Every operation takes effect, or none ---------------------------------------------------

  /** Joining two calls makes a conference of exactly those two if both are live calls of the accounts named, and
      changes nothing otherwise. */
  lemma JoinIff(w: World, account: string, call: string, account2: string, call2: string, conf: string)
    requires Exclusive(w) && conf !in w.confs
    ensures var n := Apply(w, Join(account, call, account2, call2, conf));
            if account in w.accounts && account2 in w.accounts && call != call2
               && call in w.pointer && call in w.owner && w.owner[call] == account
               && call2 in w.pointer && call2 in w.owner && w.owner[call2] == account2
            then && conf in n.confs && n.confs[conf].members == {call, call2} && n.confs[conf].account == account
                 && n.pointer.Keys == w.pointer.Keys
                 && n.pointer[call] == Some(conf) && n.pointer[call2] == Some(conf)
            else n == w
  {
    if CanJoin(w, account, call, account2, call2) {
      JoinHoldsBoth(w, account, call, account2, call2, conf);
    }
  }

  /** Adding a call puts it into the conference if it is a live call of the account named and not there yet, and changes
      nothing otherwise. */
  lemma AddIff(w: World, account: string, call: string, account2: string, conf: string)
    requires Exclusive(w)
    ensures var n := Apply(w, Add(account, call, account2, conf));
            if account in w.accounts && account2 in w.accounts
               && call in w.pointer && call in w.owner && w.owner[call] == account
               && conf in w.confs && w.confs[conf].account == account2 && w.pointer[call] != Some(conf)
            then && conf in n.confs && n.confs[conf].members == w.confs[conf].members + {call}
                 && n.confs[conf].account == account2
                 && n.pointer.Keys == w.pointer.Keys && n.pointer[call] == Some(conf)
            else n == w
  {
    if CanAdd(w, account, call, account2, conf) { BindHolds(w, call, conf); }
  }

  /** Joining two conferences takes effect if both are registered with the accounts named, and changes nothing
      otherwise. */
  lemma MergeIff(w: World, account: string, conf: string, account2: string, conf2: string)
    requires Exclusive(w)
    ensures var n := Apply(w, JoinConferences(account, conf, account2, conf2));
            if account in w.accounts && account2 in w.accounts
               && conf in w.confs && w.confs[conf].account == account
               && conf2 in w.confs && w.confs[conf2].account == account2
            then conf !in n.confs && (conf2 != conf ==> conf2 in n.confs)
            else n == w
  {
  }

  /** Detaching takes the call out of its conference, and touches nobody else unless that conference dissolves. */
  lemma DetachFrees(w: World, call: string)
    requires Exclusive(w)
    ensures var n := Apply(w, Detach(call));
            && n.pointer.Keys == w.pointer.Keys && (call in w.pointer ==> n.pointer[call] == None)
            && (forall k :: k in n.confs ==>
                  && k in w.confs && n.confs[k].account == w.confs[k].account
                  && n.confs[k].members ==
                       if call in w.pointer && w.pointer[call] == Some(k) then w.confs[k].members - {call}
                       else w.confs[k].members)
            && (forall k :: k in w.confs && k !in n.confs ==> call in w.pointer && w.pointer[call] == Some(k))
            && (forall c :: c in w.pointer && c != call ==>
                  n.pointer[c] == w.pointer[c] || (n.pointer[c] == None && w.pointer[c] == w.pointer[call]))
            && n.owner == w.owner && n.accounts == w.accounts && n.rendezvous == w.rendezvous
  {
    RemoveKeeps(w, call);
  }

  /** Hanging up does the same and the call is gone. */
  lemma HangUpFrees(w: World, call: string)
    requires Exclusive(w)
    ensures var n, m := Apply(w, HangUp(call)), Apply(w, Detach(call));
            n.confs == m.confs && call !in n.pointer && n.pointer == m.pointer - {call}
  {
  }

  /** A new call is free and belongs to its account. */
  lemma NewCallIsFree(w: World, call: string, account: string)
    requires Exclusive(w) && call !in w.pointer && forall k :: k in w.confs ==> call !in w.confs[k].members
    ensures var n := Apply(w, NewCall(call, account));
            && call in n.pointer && n.pointer[call] == None && call in n.owner && n.owner[call] == account
            && account in n.accounts && n.confs == w.confs
  {
  }

  /** Calls and accounts can vanish, and accounts become rendezvous points, without any conference being told. */
  lemma ConferencesAreNotTold(w: World, call: string, account: string, on: bool)
    ensures var n := Apply(w, DropCall(call));
            n == w.(pointer := n.pointer) && n.pointer.Keys == w.pointer.Keys - {call}
    ensures var n := Apply(w, DropAccount(account));
            n == w.(accounts := n.accounts) && n.accounts == w.accounts - {account}
    ensures var n := Apply(w, SetRendezvous(account, on));
            && n == w.(rendezvous := n.rendezvous) && (account in n.rendezvous <==> on)
            && forall a :: a != account ==> (a in n.rendezvous <==> a in w.rendezvous)
  {
  }

  // ---- Dissolving --------------------------------------------------------------------------------

  /** The accounts spare a conference that is left with one member or none: its own account is lost, or the one left
      is a live call of a rendezvous or lost account. */
  predicate Exempt(w: World, account: string, left: set<string>) {
    || account !in w.accounts
    || (exists p :: p in left && left == {p} && p in w.pointer
                 && (p !in w.owner || w.owner[p] !in w.accounts || w.owner[p] in w.rendezvous))
  }

  /** After a participant leaves, its conference is still there exactly when two members remain or it is exempt. */
  lemma SurvivesIff(w: World, call: string, conf: string)
    requires Exclusive(w) && call in w.pointer && w.pointer[call] == Some(conf) && conf in w.confs
    ensures var left := w.confs[conf].members - {call};
            conf in RemoveParticipant(w, call).confs <==> |left| >= 2 || Exempt(w, w.confs[conf].account, left)
  {
    var left := w.confs[conf].members - {call};
    var m := Leave(w, conf, call);
    assert m.confs[conf].members == left && m.pointer.Keys == w.pointer.Keys;
    assert Exempt(w, w.confs[conf].account, left) <==> w.confs[conf].account !in w.accounts || KeepsAlone(m, left);
  }

  /** The conferences that a call's departure leaves with fewer than two members, and exempt. */
  function Spares(w: World, call: string): set<string> {
    if call in w.pointer && w.pointer[call].Some? && w.pointer[call].value in w.confs then
      var conf := w.pointer[call].value;
      var left := w.confs[conf].members - {call};
      if |left| < 2 && Exempt(w, w.confs[conf].account, left) then {conf} else {}
    else {}
  }

  function SparedBy(w: World, op: Op): set<string> {
    match op
    case Detach(call) => Spares(w, call)
    case HangUp(call) => Spares(w, call)
    case Add(account, call, account2, conf) => Spares(w, call)
    case Join(account, call, account2, call2, conf) =>
      if conf !in w.confs && CanJoin(w, account, call, account2, call2) then
        var wider := w.(confs := w.confs[conf := Conference({}, account)]);
        Spares(wider, call) + Spares(BindTo(wider, call, conf), call2)
      else {}
    case _ => {}
  }

  function Spared(w: World, ops: seq<Op>): set<string>
    decreases |ops|
  {
    if ops == [] then {} else SparedBy(w, ops[0]) + Spared(Apply(w, ops[0]), ops[1..])
  }

  /** Every conference has two members, apart from some. */
  predicate Full(w: World, spared: set<string>) {
    forall k :: k in w.confs ==> |w.confs[k].members| >= 2 || k in spared
  }

  lemma RemoveFull(w: World, call: string, spared: set<string>)
    requires Exclusive(w) && Full(w, spared)
    ensures Full(RemoveParticipant(w, call), spared + Spares(w, call))
  {
    var n := RemoveParticipant(w, call);
    if call in w.pointer && w.pointer[call].Some? {
      var conf := w.pointer[call].value;
      SurvivesIff(w, call, conf);
      forall k | k in n.confs ensures |n.confs[k].members| >= 2 || k in spared + Spares(w, call) {
        if k == conf { assert n.confs[k].members == w.confs[k].members - {call}; }
      }
    }
  }

  lemma BindFull(w: World, call: string, conf: string, spared: set<string>)
    requires Exclusive(w) && Full(w, spared) && conf in w.confs
    requires call in w.pointer && w.pointer[call] != Some(conf)
    ensures Full(BindTo(w, call, conf), spared + Spares(w, call))
  {
    RemoveFull(w, call, spared);
    var left := if w.pointer[call].Some? then RemoveParticipant(w, call) else w;
    assert Full(left, spared + Spares(w, call));
    if conf in left.confs { EnterFull(left, conf, call, spared + Spares(w, call)); }
  }

  lemma EnterFull(w: World, conf: string, call: string, spared: set<string>)
    requires Full(w, spared) && conf in w.confs
    ensures Full(Enter(w, conf, call), spared)
  {
  }

  lemma JoinFull(w: World, account: string, call: string, account2: string, call2: string, conf: string,
                 spared: set<string>)
    requires Exclusive(w) && Full(w, spared) && conf !in w.confs && CanJoin(w, account, call, account2, call2)
    ensures Full(DoJoin(w, account, call, call2, conf),
                 spared + SparedBy(w, Join(account, call, account2, call2, conf)))
  {
    var wider := w.(confs := w.confs[conf := Conference({}, account)]);
    var n := DoJoin(w, account, call, call2, conf);
    assert Exclusive(wider) && Full(wider, spared + {conf});
    BindFull(wider, call, conf, spared + {conf});
    BindHolds(wider, call, conf);
    var first := BindTo(wider, call, conf);
    BindFull(first, call2, conf, spared + {conf} + Spares(wider, call));
    JoinHoldsBoth(w, account, call, account2, call2, conf);
    assert |{call, call2}| == 2;
  }

  lemma MergeFull(w: World, account: string, conf: string, conf2: string, spared: set<string>)
    requires Full(w, spared) && conf in w.confs && conf2 in w.confs
    ensures Full(DoMerge(w, account, conf, conf2), spared)
  {
    var n, calls := DoMerge(w, account, conf, conf2), Movable(w, account, conf);
    if conf != conf2 {
      var before, after := w.confs[conf2].members, n.confs[conf2].members;
      assert after == before + calls;
      assert |after| == |before| + |calls - before| by { assert after == before + (calls - before); }
    }
  }

  lemma FullStep(w: World, op: Op, spared: set<string>)
    requires Exclusive(w) && Full(w, spared)
    ensures Full(Apply(w, op), spared + SparedBy(w, op))
  {
    match op
    case Join(account, call, account2, call2, conf) =>
      if conf !in w.confs && CanJoin(w, account, call, account2, call2) {
        JoinFull(w, account, call, account2, call2, conf, spared);
      }
    case Add(account, call, account2, conf) =>
      if CanAdd(w, account, call, account2, conf) { BindFull(w, call, conf, spared); }
    case Detach(call) => RemoveFull(w, call, spared);
    case HangUp(call) => RemoveFull(w, call, spared);
    case JoinConferences(account, conf, account2, conf2) =>
      if CanMerge(w, account, conf, account2, conf2) { MergeFull(w, account, conf, conf2, spared); }
    case _ =>
  }

  lemma {:induction false} FullRun(w: World, ops: seq<Op>, spared: set<string>)
    requires Exclusive(w) && Full(w, spared)
    ensures Full(Run(w, ops), spared + Spared(w, ops))
    decreases |ops|
  {
    if ops != [] {
      ApplyKeeps(w, ops[0]);
      FullStep(w, ops[0], spared);
      FullRun(Apply(w, ops[0]), ops[1..], spared + SparedBy(w, ops[0]));
      assert spared + SparedBy(w, ops[0]) + Spared(Apply(w, ops[0]), ops[1..]) == spared + Spared(w, ops);
    }
  }

  /** After every run, every registered conference has at least two members, apart from those that were spared by an
      account when a participant left. */
  lemma ConferencesHaveTwoMembers(ops: seq<Op>, conf: string)
    requires conf in Run(Empty(), ops).confs
    ensures |Run(Empty(), ops).confs[conf].members| >= 2 || conf in Spared(Empty(), ops)
  {
    FullRun(Empty(), ops, {});
  }

  /** Accounts stay and none is a rendezvous point. */
  predicate Ordinary(w: World) {
    && w.rendezvous == {}
    && (forall k :: k in w.confs ==> w.confs[k].account in w.accounts)
    && (forall p :: p in w.pointer ==> p in w.owner && w.owner[p] in w.accounts)
  }

  predicate OrdinaryOp(op: Op) {
    !op.DropAccount? && !(op.SetRendezvous? && op.on)
  }

  lemma OrdinaryBind(w: World, call: string, conf: string)
    requires Exclusive(w) && Ordinary(w)
    ensures Ordinary(RemoveParticipant(w, call)) && Ordinary(BindTo(w, call, conf))
    ensures Spares(w, call) == {}
  {
    RemoveKeeps(w, call);
    BindKeeps(w, call, conf);
  }

  lemma OrdinaryJoin(w: World, account: string, call: string, account2: string, call2: string, conf: string)
    requires Exclusive(w) && Ordinary(w) && conf !in w.confs && CanJoin(w, account, call, account2, call2)
    ensures Ordinary(DoJoin(w, account, call, call2, conf))
    ensures SparedBy(w, Join(account, call, account2, call2, conf)) == {}
  {
    var wider := w.(confs := w.confs[conf := Conference({}, account)]);
    assert Exclusive(wider) && Ordinary(wider);
    OrdinaryBind(wider, call, conf);
    BindKeeps(wider, call, conf);
    OrdinaryBind(BindTo(wider, call, conf), call2, conf);
  }

  lemma OrdinaryMerge(w: World, account: string, conf: string, conf2: string)
    requires Ordinary(w) && conf in w.confs && conf2 in w.confs
    ensures Ordinary(DoMerge(w, account, conf, conf2))
  {
  }

  lemma OrdinaryStep(w: World, op: Op)
    requires Exclusive(w) && Ordinary(w) && OrdinaryOp(op)
    ensures Ordinary(Apply(w, op)) && SparedBy(w, op) == {}
  {
    match op
    case Join(account, call, account2, call2, conf) =>
      if conf !in w.confs && CanJoin(w, account, call, account2, call2) {
        OrdinaryJoin(w, account, call, account2, call2, conf);
      }
    case Add(account, call, account2, conf) => OrdinaryBind(w, call, conf);
    case Detach(call) => OrdinaryBind(w, call, "");
    case HangUp(call) => OrdinaryBind(w, call, "");
    case JoinConferences(account, conf, account2, conf2) =>
      if CanMerge(w, account, conf, account2, conf2) { OrdinaryMerge(w, account, conf, conf2); }
    case _ =>
  }

  lemma {:induction false} OrdinaryRun(w: World, ops: seq<Op>)
    requires Exclusive(w) && Ordinary(w) && forall i :: 0 <= i < |ops| ==> OrdinaryOp(ops[i])
    ensures Spared(w, ops) == {}
    decreases |ops|
  {
    if ops != [] {
      ApplyKeeps(w, ops[0]);
      OrdinaryStep(w, ops[0]);
      OrdinaryRun(Apply(w, ops[0]), ops[1..]);
    }
  }

  /** While no account is lost and none is a rendezvous point, every registered conference has at least two members. */
  lemma OrdinaryConferencesHaveTwoMembers(ops: seq<Op>, conf: string)
    requires forall i :: 0 <= i < |ops| ==> OrdinaryOp(ops[i])
    requires conf in Run(Empty(), ops).confs
    ensures |Run(Empty(), ops).confs[conf].members| >= 2
  {
    ConferencesHaveTwoMembers(ops, conf);
    OrdinaryRun(Empty(), ops);
  }

  /** When a conference dissolves, the member left behind is free again. */
  lemma LastMemberIsFreed(w: World, call: string, conf: string, other: string)
    requires Exclusive(w) && call in w.pointer && w.pointer[call] == Some(conf) && conf in w.confs
    requires w.confs[conf].members == {call, other} && other in w.pointer
    requires conf !in RemoveParticipant(w, call).confs
    ensures RemoveParticipant(w, call).pointer[other] == None
  {
    RemoveKeeps(w, call);
  }

  // ---- One call at a time ------------------------------------------------------------------------

  lemma LeaveAllGrows(w: World, conf: string, calls: set<string>, call: string)
    requires conf in w.confs && calls <= w.confs[conf].members && call in w.confs[conf].members - calls
    ensures LeaveAll(w, conf, calls + {call}) == Leave(LeaveAll(w, conf, calls), conf, call)
  {
    var one, all := Leave(LeaveAll(w, conf, calls), conf, call), LeaveAll(w, conf, calls + {call});
    assert w.confs[conf].members - (calls + {call}) == w.confs[conf].members - calls - {call};
    assert one.confs == all.confs && one.pointer == all.pointer;
  }

  /** A call that no conference holds and that is not yet a member. */
  predicate Free(w: World, conf: string, call: string) {
    conf in w.confs && call in w.pointer && w.pointer[call] == None && call !in w.confs[conf].members
  }

  predicate AllFree(w: World, conf: string, calls: set<string>) {
    forall c :: c in calls ==> Free(w, conf, c)
  }

  lemma EnterAllGrows(w: World, conf: string, calls: set<string>, call: string)
    requires conf in w.confs && call in w.pointer && w.pointer[call] == None
    requires call !in calls && call !in w.confs[conf].members
    ensures EnterAll(w, conf, calls + {call}) == BindTo(EnterAll(w, conf, calls), call, conf)
  {
    var one, all := BindTo(EnterAll(w, conf, calls), call, conf), EnterAll(w, conf, calls + {call});
    assert w.confs[conf].members + (calls + {call}) == w.confs[conf].members + calls + {call};
    assert one.confs == all.confs && one.pointer == all.pointer;
  }

  lemma NoneMoves(w: World, conf: string)
    requires conf in w.confs
    ensures LeaveAll(w, conf, {}) == w && EnterAll(w, conf, {}) == w
  {
    var c := w.confs[conf];
    assert c.(members := c.members - {}) == c && c.(members := c.members + {}) == c;
    assert LeaveAll(w, conf, {}).pointer == w.pointer && EnterAll(w, conf, {}).pointer == w.pointer;
    assert LeaveAll(w, conf, {}).confs == w.confs && EnterAll(w, conf, {}).confs == w.confs;
  }

  // ---- The object ----------------------------------------------------------------------------------

  class Manager {
    var pointer: map<string, Option<string>>
    var owner: map<string, string>
    var confs: map<string, Conference>
    var accounts: set<string>
    var rendezvous: set<string>

    ghost function Model(): World
      reads this
    {
      World(pointer, owner, confs, accounts, rendezvous)
    }

    ghost predicate Valid()
      reads this
    {
      Exclusive(Model())
    }

    constructor ()
      ensures Model() == Empty() && Valid()
    {
      pointer, owner, confs, accounts, rendezvous := map[], map[], map[], {}, {};
    }

    method RemoveFromConference(conf: string, call: string)
      requires Valid() && conf in confs
      modifies this`confs, this`pointer
      ensures Model() == Leave(old(Model()), conf, call) && Valid()
    {
      LeaveKeeps(Model(), conf, call);
      var c := confs[conf];
      if call !in c.members {
        return;
      }
      confs := confs[conf := c.(members := c.members - {call})];
      if call in pointer {
        pointer := pointer[call := None];
      }
    }

    method AddToConference(conf: string, call: string)
      requires Valid() && conf in confs
      requires call in pointer ==> pointer[call] == None || pointer[call] == Some(conf)
      modifies this`confs, this`pointer
      ensures Model() == Enter(old(Model()), conf, call) && Valid()
    {
      EnterKeeps(Model(), conf, call);
      var c := confs[conf];
      if call in c.members {
        return;
      }
      confs := confs[conf := c.(members := c.members + {call})];
      if call in pointer {
        pointer := pointer[call := Some(conf)];
      }
    }

    /** removeConference, then the destructor: every live participant exits. */
    method DestroyConference(conf: string)
      requires Valid() && conf in confs
      modifies this`confs, this`pointer
      ensures Model() == Destroy(old(Model()), conf) && Valid()
    {
      DestroyKeeps(Model(), conf);
      var members := confs[conf].members;
      confs := confs - {conf};
      var rest := members;
      ghost var was := pointer;
      while rest != {}
        invariant rest <= members && confs == old(confs) - {conf} && pointer.Keys == was.Keys
        invariant forall c :: c in was ==> pointer[c] == if c in members && c !in rest then None else was[c]
        decreases |rest|
      {
        assert (forall s :: s !in rest) ==> rest == {};
        var c :| c in rest;
        if c in pointer {
          pointer := pointer[c := None];
        }
        rest := rest - {c};
      }
    }

    method ProcessRemainingParticipants(conf: string)
      requires Valid() && conf in confs
      modifies this`confs, this`pointer
      ensures Model() == ProcessRemaining(old(Model()), conf) && Valid()
    {
      var members := confs[conf].members;
      if |members| > 1 {
        return;
      }
      if |members| == 1 {
        assert (forall s :: s !in members) ==> members == {};
        var p :| p in members;
        assert |members - {p}| == 0;
        assert members == {p};
        if p in pointer {
          if p !in owner || owner[p] !in accounts || owner[p] in rendezvous {
            assert KeepsAlone(Model(), members);
            return;
          }
        }
      }
      if confs[conf].account in accounts {
        assert !KeepsAlone(Model(), members);
        DestroyConference(conf);
      }
    }

    method RemoveCallFromItsConference(call: string)
      requires Valid()
      modifies this`confs, this`pointer
      ensures Model() == RemoveParticipant(old(Model()), call) && Valid()
    {
      if call !in pointer || pointer[call].None? || pointer[call].value !in confs {
        return;
      }
      var conf := pointer[call].value;
      RemoveFromConference(conf, call);
      ProcessRemainingParticipants(conf);
    }

    method BindCallToConference(call: string, conf: string)
      requires Valid()
      modifies this`confs, this`pointer
      ensures Model() == BindTo(old(Model()), call, conf) && Valid()
    {
      RemoveKeeps(Model(), call);
      if call in pointer && pointer[call].Some? {
        RemoveCallFromItsConference(call);
      }
      if conf in confs {
        AddToConference(conf, call);
      }
    }

    method AddParticipant(account: string, call: string, account2: string, conf: string) returns (ok: bool)
      requires Valid()
      modifies this
      ensures Model() == Apply(old(Model()), Op.Add(account, call, account2, conf)) && Valid()
      ensures ok <==> CanAdd(old(Model()), account, call, account2, conf)
    {
      if account !in accounts || account2 !in accounts {
        return false;
      }
      if !(call in pointer && call in owner && owner[call] == account) {
        return false;
      }
      if conf !in confs || confs[conf].account != account2 || pointer[call] == Some(conf) {
        return false;
      }
      BindCallToConference(call, conf);
      return true;
    }

    /** `conf` is the id generated for the new conference. */
    method JoinParticipant(account: string, call: string, account2: string, call2: string, conf: string)
      returns (ok: bool)
      requires Valid() && conf !in confs
      modifies this
      ensures Model() == Apply(old(Model()), Op.Join(account, call, account2, call2, conf)) && Valid()
      ensures ok <==> CanJoin(old(Model()), account, call, account2, call2)
    {
      if account !in accounts || account2 !in accounts || call == call2 {
        return false;
      }
      if !(call in pointer && call in owner && owner[call] == account) {
        return false;
      }
      if !(call2 in pointer && call2 in owner && owner[call2] == account2) {
        return false;
      }
      confs := confs[conf := Conference({}, account)];
      BindCallToConference(call, conf);
      BindCallToConference(call2, conf);
      return true;
    }

    method JoinConference(account: string, conf: string, account2: string, conf2: string) returns (ok: bool)
      requires Valid()
      modifies this
      ensures Model() == Apply(old(Model()), JoinConferences(account, conf, account2, conf2)) && Valid()
      ensures ok <==> CanMerge(old(Model()), account, conf, account2, conf2)
    {
      if account !in accounts || account2 !in accounts || conf !in confs || conf2 !in confs
         || confs[conf].account != account || confs[conf2].account != account2 {
        return false;
      }
      var calls := DetachMovable(account, conf);
      AttachAll(conf2, calls);
      DestroyConference(conf);
      return true;
    }

    /** Detaches every participant that the account can resolve and returns them. */
    method DetachMovable(account: string, conf: string) returns (calls: set<string>)
      requires Valid() && conf in confs
      modifies this`confs, this`pointer
      ensures calls == Movable(old(Model()), account, conf)
      ensures Model() == LeaveAll(old(Model()), conf, calls) && Valid()
    {
      var participants := confs[conf].members;
      var rest := participants;
      calls := {};
      ghost var was := Model();
      NoneMoves(was, conf);
      while rest != {}
        invariant rest <= participants && conf in confs && calls <= participants
        invariant calls == Movable(was, account, conf) - rest
        invariant Model() == LeaveAll(was, conf, calls) && Valid()
        decreases |rest|
      {
        assert (forall s :: s !in rest) ==> rest == {};
        var p :| p in rest;
        if p in pointer && p in owner && owner[p] == account {
          LeaveAllGrows(was, conf, calls, p);
          RemoveFromConference(conf, p);
          calls := calls + {p};
        }
        rest := rest - {p};
      }
    }

    /** One turn of the second loop, after `done` of them. */
    method AttachNext(conf: string, call: string, ghost was: World, ghost done: set<string>)
      requires Exclusive(was) && conf in was.confs && Model() == EnterAll(was, conf, done)
      requires AllFree(was, conf, done + {call}) && call !in done
      modifies this`confs, this`pointer
      ensures Model() == EnterAll(was, conf, done + {call})
    {
      assert call in done + {call};
      EnterAllKeeps(was, conf, done);
      EnterAllGrows(was, conf, done, call);
      BindCallToConference(call, conf);
    }

    method AttachAll(conf: string, calls: set<string>)
      requires Valid() && conf in confs
      requires AllFree(Model(), conf, calls)
      modifies this`confs, this`pointer
      ensures Model() == EnterAll(old(Model()), conf, calls) && Valid()
    {
      ghost var was := Model();
      NoneMoves(was, conf);
      var rest := calls;
      assert calls - rest == {};
      while rest != {}
        invariant rest <= calls && Model() == EnterAll(was, conf, calls - rest)
        decreases |rest|
      {
        assert (forall s :: s !in rest) ==> rest == {};
        var c :| c in rest;
        assert calls - rest + {c} == calls - (rest - {c}) && AllFree(was, conf, calls - rest + {c});
        AttachNext(conf, c, was, calls - rest);
        rest := rest - {c};
      }
      assert calls - rest == calls;
      EnterAllKeeps(was, conf, calls);
    }
  }
}
