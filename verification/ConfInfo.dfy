/** Conference information: when two descriptions count as equal, how descriptions received from remote hosts
    are merged, and which entries a given destination is sent. */
module ConfInfo {
  import opened ConfOrder
  import opened Options

  datatype Participant = Participant(
    uri: string, device: string, sinkId: string, active: bool,
    x: int, y: int, w: int, h: int,
    videoMuted: bool, audioLocalMuted: bool, audioModeratorMuted: bool, isModerator: bool,
    handRaised: bool, voiceActivity: bool, recording: bool, callId: string)

  datatype Info = Info(list: seq<Participant>, h: int, w: int, v: int, layout: int)

  /** operator== on participants, which leaves the call id out. */
  predicate Same(p: Participant, q: Participant) {
    && p.uri == q.uri && p.device == q.device && p.sinkId == q.sinkId && p.active == q.active
    && p.x == q.x && p.y == q.y && p.w == q.w && p.h == q.h
    && p.videoMuted == q.videoMuted && p.audioLocalMuted == q.audioLocalMuted
    && p.audioModeratorMuted == q.audioModeratorMuted && p.isModerator == q.isModerator
    && p.handRaised == q.handRaised && p.voiceActivity == q.voiceActivity && p.recording == q.recording
  }

  /** The size-plus-containment test on participant lists. */
  predicate Listed(p: Participant, list: seq<Participant>) {
    exists i :: 0 <= i < |list| && Same(p, list[i])
  }

  predicate SameFrame(a: Info, b: Info) {
    a.h == b.h && a.w == b.w && a.layout == b.layout
  }

  predicate TestEqual(a: Info, b: Info) {
    SameFrame(a, b) && |a.list| == |b.list| && forall i :: 0 <= i < |a.list| ==> Listed(a.list[i], b.list)
  }

  method Equal(a: Info, b: Info) returns (equal: bool)
    ensures equal <==> TestEqual(a, b)
  {
    if a.h != b.h || a.w != b.w || a.layout != b.layout {
      return false;
    }
    if |a.list| != |b.list| {
      return false;
    }
    for i := 0 to |a.list|
      invariant forall k :: 0 <= k < i ==> Listed(a.list[k], b.list)
    {
      var found := false;
      var j := 0;
      while j < |b.list| && !found
        invariant 0 <= j <= |b.list|
        invariant !found ==> forall k :: 0 <= k < j ==> !Same(a.list[i], b.list[k])
        invariant found ==> Listed(a.list[i], b.list)
      {
        if Same(a.list[i], b.list[j]) {
          found := true;
        }
        j := j + 1;
      }
      if !found {
        assert !Listed(a.list[i], b.list);
        return false;
      }
    }
    return true;
  }

  // ---- What the test means -----------------------------------------------------------------

  function Key(p: Participant): Participant {
    p.(callId := "")
  }

  function Keys(list: seq<Participant>): seq<Participant> {
    seq(|list|, i requires 0 <= i < |list| => Key(list[i]))
  }

  /** The same participants in some order, in the same frame. */
  predicate ReallyEqual(a: Info, b: Info) {
    SameFrame(a, b) && multiset(Keys(a.list)) == multiset(Keys(b.list))
  }

  predicate DuplicateFree(list: seq<Participant>) {
    forall i, j :: 0 <= i < j < |list| ==> !Same(list[i], list[j])
  }

  /** Distinct elements that all occur in a list of the same length fill it exactly. */
  lemma {:induction false} Pigeonhole<T>(xs: seq<T>, ys: seq<T>)
    requires |xs| == |ys|
    requires forall i, j :: 0 <= i < j < |xs| ==> xs[i] != xs[j]
    requires forall i :: 0 <= i < |xs| ==> xs[i] in ys
    ensures multiset(xs) == multiset(ys)
    decreases |xs|
  {
    if xs != [] {
      var k :| 0 <= k < |ys| && ys[k] == xs[0];
      var rest, others := xs[1..], ys[..k] + ys[k + 1..];
      assert ys == ys[..k] + [ys[k]] + ys[k + 1..];
      forall i | 0 <= i < |rest| ensures rest[i] in others {
        assert rest[i] == xs[i + 1] && rest[i] != xs[0];
        assert rest[i] in ys[..k] + [ys[k]] + ys[k + 1..];
      }
      Pigeonhole(rest, others);
      assert xs == [xs[0]] + rest;
      assert multiset(ys) == multiset(ys[..k]) + multiset{ys[k]} + multiset(ys[k + 1..]);
    }
  }

  lemma KeysOf(p: Participant, list: seq<Participant>)
    ensures Listed(p, list) <==> Key(p) in Keys(list)
    ensures Key(p) in Keys(list) <==> Key(p) in multiset(Keys(list))
  {
    var keys := Keys(list);
    if Listed(p, list) {
      var i :| 0 <= i < |list| && Same(p, list[i]);
      assert keys[i] == Key(p);
    }
    if Key(p) in keys {
      var i :| 0 <= i < |keys| && keys[i] == Key(p);
      assert Same(p, list[i]);
    }
  }

  /** For a duplicate-free left side the test is exactly equality up to order. */
  lemma TestIsEquality(a: Info, b: Info)
    requires DuplicateFree(a.list)
    ensures TestEqual(a, b) <==> ReallyEqual(a, b)
  {
    var xs, ys := Keys(a.list), Keys(b.list);
    if TestEqual(a, b) {
      forall i | 0 <= i < |xs| ensures xs[i] in ys { KeysOf(a.list[i], b.list); }
      forall i, j | 0 <= i < j < |xs| ensures xs[i] != xs[j] { assert !Same(a.list[i], a.list[j]); }
      Pigeonhole(xs, ys);
    }
    if ReallyEqual(a, b) { EqualPasses(a, b); }
  }

  /** The test never rejects a reordering, duplicates or not. */
  lemma EqualPasses(a: Info, b: Info)
    requires ReallyEqual(a, b)
    ensures TestEqual(a, b)
  {
    var xs, ys := Keys(a.list), Keys(b.list);
    assert |multiset(xs)| == |xs| && |multiset(ys)| == |ys|;
    forall i | 0 <= i < |a.list| ensures Listed(a.list[i], b.list) {
      assert xs[i] in multiset(xs);
      KeysOf(a.list[i], b.list);
    }
  }

  // ---- Duplicates are exactly what breaks it -------------------------------------------------

  function AllUris(list: seq<Participant>): string {
    if list == [] then "x" else list[0].uri + AllUris(list[1..])
  }

  lemma {:induction false} AllUrisIsLonger(list: seq<Participant>, i: nat)
    requires i < |list|
    ensures |list[i].uri| < |AllUris(list)|
    decreases |list|
  {
    assert |AllUris(list[1..])| > 0 by { AllUrisNonEmpty(list[1..]); }
    if i > 0 { AllUrisIsLonger(list[1..], i - 1); }
  }

  lemma {:induction false} AllUrisNonEmpty(list: seq<Participant>)
    ensures |AllUris(list)| > 0
    decreases |list|
  {
    if list != [] { AllUrisNonEmpty(list[1..]); }
  }

  /** A participant unlike any in the list. */
  function Stranger(list: seq<Participant>): Participant
    requires list != []
  {
    list[0].(uri := AllUris(list))
  }

  /** Two entries that count as the same can hide a third one: replace one by a stranger and the test still passes. */
  lemma DuplicatesFoolTheTest(a: Info, i: nat, j: nat)
    requires i < j < |a.list| && Same(a.list[i], a.list[j])
    ensures var b := a.(list := a.list[j := Stranger(a.list)]); TestEqual(a, b) && !ReallyEqual(a, b)
  {
    var b := a.(list := a.list[j := Stranger(a.list)]);
    forall k | 0 <= k < |a.list| ensures Listed(a.list[k], b.list) {
      assert Same(a.list[k], b.list[if k == j then i else k]);
    }
    var key := Key(b.list[j]);
    assert Keys(b.list)[j] == key;
    assert key in multiset(Keys(b.list));
    assert key !in multiset(Keys(a.list)) by {
      forall k | 0 <= k < |a.list| ensures Keys(a.list)[k] != key { AllUrisIsLonger(a.list, k); }
    }
  }

  /** The test decides equality against every other description exactly when its left side has no duplicates. */
  lemma TestIsRightIff(a: Info)
    ensures DuplicateFree(a.list) <==> forall b :: TestEqual(a, b) <==> ReallyEqual(a, b)
  {
    if DuplicateFree(a.list) {
      forall b ensures TestEqual(a, b) <==> ReallyEqual(a, b) { TestIsEquality(a, b); }
    } else {
      var i, j :| 0 <= i < j < |a.list| && Same(a.list[i], a.list[j]);
      DuplicatesFoolTheTest(a, i, j);
    }
  }

  // ---- Remote hosts --------------------------------------------------------------------------

  datatype Host = Host(uri: string, info: Info)

  /** The hosts in key order, as the ordered map holds them. */
  predicate Sorted(hosts: seq<Host>) {
    forall i, j :: 0 <= i < j < |hosts| ==> Less(hosts[i].uri, hosts[j].uri)
  }

  function Lookup(hosts: seq<Host>, uri: string): Option<Info> {
    if hosts == [] then None
    else if hosts[0].uri == uri then Some(hosts[0].info)
    else Lookup(hosts[1..], uri)
  }

  function Store(hosts: seq<Host>, uri: string, info: Info): seq<Host> {
    if hosts == [] then [Host(uri, info)]
    else if hosts[0].uri == uri then [Host(uri, info)] + hosts[1..]
    else if Less(uri, hosts[0].uri) then [Host(uri, info)] + hosts
    else [hosts[0]] + Store(hosts[1..], uri, info)
  }

  function Erase(hosts: seq<Host>, uri: string): seq<Host> {
    if hosts == [] then []
    else if hosts[0].uri == uri then hosts[1..]
    else [hosts[0]] + Erase(hosts[1..], uri)
  }

  predicate Above(hosts: seq<Host>, low: string) {
    forall i :: 0 <= i < |hosts| ==> Less(low, hosts[i].uri)
  }

  lemma SortedCons(host: Host, rest: seq<Host>)
    requires Sorted(rest) && Above(rest, host.uri)
    ensures Sorted([host] + rest) && ([host] + rest)[1..] == rest
  {
    forall i, j | 0 <= i < j <= |rest| ensures Less(([host] + rest)[i].uri, ([host] + rest)[j].uri) {
      assert ([host] + rest)[j] == rest[j - 1];
    }
  }

  lemma SortedSplit(hosts: seq<Host>)
    requires Sorted(hosts) && hosts != []
    ensures Sorted(hosts[1..]) && Above(hosts[1..], hosts[0].uri) && hosts == [hosts[0]] + hosts[1..]
  {
  }

  lemma AboveBelow(hosts: seq<Host>, low: string, uri: string)
    requires Above(hosts, uri) && Less(low, uri)
    ensures Above(hosts, low)
  {
    forall i | 0 <= i < |hosts| ensures Less(low, hosts[i].uri) { LessTransitive(low, uri, hosts[i].uri); }
  }

  lemma {:induction false} StoreAbove(hosts: seq<Host>, uri: string, info: Info, low: string)
    requires Above(hosts, low) && Less(low, uri)
    ensures Above(Store(hosts, uri, info), low)
    decreases |hosts|
  {
    if hosts != [] { StoreAbove(hosts[1..], uri, info, low); }
  }

  /** Storing keeps the key order. */
  lemma {:induction false} StoreSorted(hosts: seq<Host>, uri: string, info: Info)
    requires Sorted(hosts)
    ensures Sorted(Store(hosts, uri, info))
    decreases |hosts|
  {
    if hosts != [] {
      var first, rest := hosts[0], hosts[1..];
      SortedSplit(hosts);
      LessTotal(uri, first.uri);
      if first.uri == uri {
        SortedCons(Host(uri, info), rest);
      } else if Less(uri, first.uri) {
        AboveBelow(rest, uri, first.uri);
        SortedCons(Host(uri, info), hosts);
      } else {
        StoreSorted(rest, uri, info);
        StoreAbove(rest, uri, info, first.uri);
        SortedCons(first, Store(rest, uri, info));
      }
    }
  }

  /** Storing changes the one key only. */
  lemma {:induction false} StoreFinds(hosts: seq<Host>, uri: string, info: Info, other: string)
    ensures Lookup(Store(hosts, uri, info), other) == if other == uri then Some(info) else Lookup(hosts, other)
    decreases |hosts|
  {
    var after := Store(hosts, uri, info);
    if hosts == [] {
      assert after[1..] == [];
    } else if hosts[0].uri == uri {
      assert after[1..] == hosts[1..];
    } else if Less(uri, hosts[0].uri) {
      assert after[1..] == hosts;
    } else {
      StoreFinds(hosts[1..], uri, info, other);
      assert after[1..] == Store(hosts[1..], uri, info);
    }
  }

  lemma {:induction false} EraseAbove(hosts: seq<Host>, uri: string, low: string)
    requires Above(hosts, low)
    ensures Above(Erase(hosts, uri), low)
    decreases |hosts|
  {
    if hosts != [] { EraseAbove(hosts[1..], uri, low); }
  }

  /** Erasing keeps the key order and removes the one key only. */
  lemma {:induction false} EraseKeeps(hosts: seq<Host>, uri: string, other: string)
    requires Sorted(hosts)
    ensures Sorted(Erase(hosts, uri))
    ensures Lookup(Erase(hosts, uri), other) == if other == uri then None else Lookup(hosts, other)
    decreases |hosts|
  {
    if hosts != [] {
      var first, rest := hosts[0], hosts[1..];
      SortedSplit(hosts);
      EraseKeeps(rest, uri, other);
      if first.uri == uri {
        if rest != [] { StoredUnder(rest, uri); }
      } else {
        EraseAbove(rest, uri, first.uri);
        SortedCons(first, Erase(rest, uri));
      }
    }
  }

  /** A key below the first one is not stored. */
  lemma {:induction false} StoredUnder(hosts: seq<Host>, uri: string)
    requires Sorted(hosts) && hosts != [] && Less(uri, hosts[0].uri)
    ensures Lookup(hosts, uri) == None
    decreases |hosts|
  {
    LessTotal(uri, hosts[0].uri);
    if |hosts| > 1 {
      LessTransitive(uri, hosts[0].uri, hosts[1].uri);
      StoredUnder(hosts[1..], uri);
    }
  }

  // ---- Merging ---------------------------------------------------------------------------------

  datatype Merged = Merged(hosts: seq<Host>, updated: bool, sent: bool)

  /** mergeConfInfo: an empty description removes its host, an unchanged one is ignored. */
  function Merge(hosts: seq<Host>, info: Info, peer: string): Merged {
    if info.list == [] then Merged(Erase(hosts, peer), false, true)
    else
      var stored := Lookup(hosts, peer);
      if stored.Some? && TestEqual(stored.value, info) then Merged(hosts, false, false)
      else Merged(Store(hosts, peer, info), true, false)
  }

  /** Merging updates exactly when the stored description is absent or really different. */
  lemma MergeUpdatesIff(hosts: seq<Host>, info: Info, peer: string)
    requires Lookup(hosts, peer).Some? ==> DuplicateFree(Lookup(hosts, peer).value.list)
    ensures Merge(hosts, info, peer).updated <==>
            info.list != [] && (Lookup(hosts, peer).None? || !ReallyEqual(Lookup(hosts, peer).value, info))
    ensures Merge(hosts, info, peer).sent <==> info.list == []
  {
    if Lookup(hosts, peer).Some? { TestIsEquality(Lookup(hosts, peer).value, info); }
  }

  /** Sending a description again, in any order and with any call ids, never triggers a second update. */
  lemma ResendIsQuiet(hosts: seq<Host>, info: Info, again: Info, peer: string)
    requires info.list != [] && ReallyEqual(info, again)
    requires Merge(hosts, info, peer).updated
    ensures var first := Merge(hosts, info, peer);
            Merge(first.hosts, again, peer) == Merged(first.hosts, false, false)
  {
    StoreFinds(hosts, peer, info, peer);
    EqualPasses(info, again);
    assert again.list != [] by {
      assert |multiset(Keys(info.list))| == |info.list| && |multiset(Keys(again.list))| == |again.list|;
    }
  }

  // ---- Every run of merges ---------------------------------------------------------------------

  datatype Message = Message(info: Info, peer: string)

  function MergeAll(messages: seq<Message>): seq<Host> {
    if messages == [] then []
    else
      var n := |messages| - 1;
      Merge(MergeAll(messages[..n]), messages[n].info, messages[n].peer).hosts
  }

  /** What a peer said last; an empty description is a farewell. */
  function LastSaid(messages: seq<Message>, peer: string): Option<Info> {
    if messages == [] then None
    else
      var n := |messages| - 1;
      if messages[n].peer != peer then LastSaid(messages[..n], peer)
      else if messages[n].info.list == [] then None
      else Some(messages[n].info)
  }

  predicate NoDuplicates(messages: seq<Message>) {
    forall i :: 0 <= i < |messages| ==> DuplicateFree(messages[i].info.list)
  }

  lemma TestIsReflexive(a: Info)
    ensures TestEqual(a, a)
  {
    forall i | 0 <= i < |a.list| ensures Listed(a.list[i], a.list) { assert Same(a.list[i], a.list[i]); }
  }

  /** After any run of descriptions, something is stored for a peer exactly when it did not say farewell last, and it
      passes for what the peer said last; if no description has duplicates it is that, up to order. */
  lemma {:induction false} StoredIsLastSaid(messages: seq<Message>, peer: string)
    ensures Sorted(MergeAll(messages))
    ensures var stored, said := Lookup(MergeAll(messages), peer), LastSaid(messages, peer);
            && stored.Some? == said.Some?
            && (stored.Some? ==> TestEqual(stored.value, said.value))
            && (stored.Some? && NoDuplicates(messages) ==>
                  ReallyEqual(stored.value, said.value) && DuplicateFree(stored.value.list))
    decreases |messages|
  {
    if messages != [] {
      var n := |messages| - 1;
      var m, hosts := messages[n], MergeAll(messages[..n]);
      StoredIsLastSaid(messages[..n], peer);
      assert NoDuplicates(messages) ==> NoDuplicates(messages[..n]) && DuplicateFree(m.info.list);
      if m.info.list == [] {
        EraseKeeps(hosts, m.peer, peer);
      } else {
        StoreSorted(hosts, m.peer, m.info);
        StoreFinds(hosts, m.peer, m.info, peer);
        TestIsReflexive(m.info);
        if m.peer == peer && Lookup(hosts, peer).Some? && NoDuplicates(messages) {
          TestIsEquality(Lookup(hosts, peer).value, m.info);
        }
      }
    }
  }

  // ---- What a destination is sent ----------------------------------------------------------------

  predicate IsRemote(hosts: seq<Host>, uri: string) {
    Lookup(hosts, uri).Some?
  }

  /** The host's own entry has no uri; it is filled in for a remote destination, and left to the local client. */
  function Filled(p: Participant, localUri: string, dest: string): Participant {
    if p.uri == "" && dest != "" then p.(uri := localUri) else p
  }

  function LocalPart(list: seq<Participant>, hosts: seq<Host>, localUri: string, dest: string): seq<Participant> {
    if list == [] then []
    else
      (if IsRemote(hosts, list[0].uri) then [] else [Filled(list[0], localUri, dest)])
      + LocalPart(list[1..], hosts, localUri, dest)
  }

  function RemotePart(hosts: seq<Host>, dest: string): seq<Participant> {
    if hosts == [] then []
    else (if hosts[0].uri != dest then hosts[0].info.list else []) + RemotePart(hosts[1..], dest)
  }

  function ViewOf(info: Info, hosts: seq<Host>, localUri: string, dest: string): Info {
    info.(list := LocalPart(info.list, hosts, localUri, dest) + RemotePart(hosts, dest))
  }

  lemma {:induction false} RemoteSplit(hosts: seq<Host>, dest: string, i: nat)
    requires i < |hosts|
    ensures RemotePart(hosts[..i + 1], dest)
         == RemotePart(hosts[..i], dest) + (if hosts[i].uri != dest then hosts[i].info.list else [])
    decreases i
  {
    var more, less := hosts[..i + 1], hosts[..i];
    if i == 0 {
      assert more[1..] == [];
    } else {
      assert more[1..] == hosts[1..][..i] && less[1..] == hosts[1..][..i - 1];
      RemoteSplit(hosts[1..], dest, i - 1);
    }
  }

  /** Rewriting, erasing and stepping over the first element that is left to visit. */
  lemma AtTheCursor<T>(done: seq<T>, todo: seq<T>, x: T, more: seq<T>)
    requires todo != []
    ensures (done + todo)[|done| := x] == done + ([x] + todo[1..])
    ensures (done + todo)[..|done|] + (done + todo)[|done| + 1..] == done + todo[1..]
    ensures done + ([x] + more) == (done + [x]) + more
    ensures done + todo == done + ([todo[0]] + todo[1..])
  {
  }

  lemma Appended<T>(a: seq<T>, b: seq<T>, c: seq<T>)
    ensures (a + b) + c == a + (b + c) && b + [] == b && a + [] == a
  {
  }

  /** The first loop: erase while iterating over a copy. */
  method OwnEntries(list: seq<Participant>, hosts: seq<Host>, localUri: string, dest: string)
    returns (entries: seq<Participant>)
    ensures entries == LocalPart(list, hosts, localUri, dest)
  {
    entries := list;
    var i := 0;
    ghost var done, todo := [], list;
    while i < |entries|
      invariant i == |done| && entries == done + todo
      invariant LocalPart(list, hosts, localUri, dest) == done + LocalPart(todo, hosts, localUri, dest)
      decreases |todo|
    {
      var entry := entries[i];
      var remote := Lookup(hosts, entry.uri).Some?;
      ghost var filled, rest := Filled(todo[0], localUri, dest), todo[1..];
      AtTheCursor(done, todo, filled, rest);
      AtTheCursor(done, todo, filled, LocalPart(rest, hosts, localUri, dest));
      AtTheCursor(done, [filled] + rest, filled, rest);
      if entry.uri == "" && dest != "" {
        entries := entries[i := entry.(uri := localUri)];
      }
      assert entries == done + ([filled] + rest);
      if remote {
        entries := entries[..i] + entries[i + 1..];
      } else {
        i := i + 1;
        done := done + [filled];
      }
      todo := rest;
    }
  }

  /** getConfInfoHostUri: the local entries, then those of every host but the destination. */
  method GetConfInfoHostUri(info: Info, hosts: seq<Host>, localUri: string, dest: string) returns (view: Info)
    ensures view == ViewOf(info, hosts, localUri, dest)
  {
    var entries := OwnEntries(info.list, hosts, localUri, dest);
    ghost var own := entries;
    var k := 0;
    assert hosts[..0] == [];
    Appended(own, own, own);
    while k < |hosts|
      invariant 0 <= k <= |hosts|
      invariant entries == own + RemotePart(hosts[..k], dest)
    {
      RemoteSplit(hosts, dest, k);
      var theirs := hosts[k].info.list;
      Appended(own, RemotePart(hosts[..k], dest), theirs);
      if dest != hosts[k].uri {
        entries := entries + theirs;
      }
      k := k + 1;
    }
    assert hosts[..k] == hosts;
    view := info.(list := entries);
  }

  lemma {:induction false} LocalPartIff(list: seq<Participant>, hosts: seq<Host>, localUri: string, dest: string,
                                        p: Participant)
    ensures p in LocalPart(list, hosts, localUri, dest) <==>
            exists i :: 0 <= i < |list| && !IsRemote(hosts, list[i].uri) && p == Filled(list[i], localUri, dest)
    decreases |list|
  {
    if list != [] {
      var rest := list[1..];
      LocalPartIff(rest, hosts, localUri, dest, p);
      if p in LocalPart(rest, hosts, localUri, dest) {
        var i :| 0 <= i < |rest| && !IsRemote(hosts, rest[i].uri) && p == Filled(rest[i], localUri, dest);
        assert list[i + 1] == rest[i];
      }
      if i :| 0 < i < |list| && !IsRemote(hosts, list[i].uri) && p == Filled(list[i], localUri, dest) {
        assert rest[i - 1] == list[i];
      }
    }
  }

  lemma {:induction false} RemotePartIff(hosts: seq<Host>, dest: string, p: Participant)
    ensures p in RemotePart(hosts, dest) <==>
            exists i :: 0 <= i < |hosts| && hosts[i].uri != dest && p in hosts[i].info.list
    decreases |hosts|
  {
    if hosts != [] {
      var rest := hosts[1..];
      RemotePartIff(rest, dest, p);
      if p in RemotePart(rest, dest) {
        var i :| 0 <= i < |rest| && rest[i].uri != dest && p in rest[i].info.list;
        assert hosts[i + 1] == rest[i];
      }
      if i :| 0 < i < |hosts| && hosts[i].uri != dest && p in hosts[i].info.list {
        assert rest[i - 1] == hosts[i];
      }
    }
  }

  /** What a destination sees: each local entry that does not stand for a remote host, its missing uri filled in for a
      remote destination only, and every entry of every remote host other than the destination itself. Nothing a host
      sent is echoed back to it. */
  lemma ViewHoldsIff(info: Info, hosts: seq<Host>, localUri: string, dest: string, p: Participant)
    ensures p in ViewOf(info, hosts, localUri, dest).list <==>
            || (exists i :: 0 <= i < |info.list| && ShownAs(info.list[i], p, hosts, localUri, dest))
            || (exists i :: 0 <= i < |hosts| && hosts[i].uri != dest && p in hosts[i].info.list)
    ensures var view := ViewOf(info, hosts, localUri, dest);
            view.h == info.h && view.w == info.w && view.v == info.v && view.layout == info.layout
  {
    LocalPartIff(info.list, hosts, localUri, dest, p);
    RemotePartIff(hosts, dest, p);
    forall i | 0 <= i < |info.list|
      ensures ShownAs(info.list[i], p, hosts, localUri, dest) <==>
              !IsRemote(hosts, info.list[i].uri) && p == Filled(info.list[i], localUri, dest)
    {
      ShownIff(info.list[i], p, hosts, localUri, dest);
    }
  }

  lemma ShownIff(e: Participant, p: Participant, hosts: seq<Host>, localUri: string, dest: string)
    ensures ShownAs(e, p, hosts, localUri, dest) <==> !IsRemote(hosts, e.uri) && p == Filled(e, localUri, dest)
  {
    StoredIff(hosts, e.uri);
    var shown := Filled(e, localUri, dest);
    if e.uri == "" && dest != "" {
      assert shown.uri == localUri && shown == e.(uri := shown.uri);
      if p == e.(uri := p.uri) && p.uri == localUri { assert p == shown; }
    } else {
      assert shown == e;
    }
  }

  /** Entry e of the conference is no remote host's, and shown as p: with the local uri if it has none and there is a
      destination, unchanged otherwise. */
  predicate ShownAs(e: Participant, p: Participant, hosts: seq<Host>, localUri: string, dest: string) {
    && (forall k :: 0 <= k < |hosts| ==> hosts[k].uri != e.uri)
    && (if e.uri == "" && dest != "" then p.uri == localUri && p == e.(uri := p.uri) else p == e)
  }

  lemma {:induction false} StoredIff(hosts: seq<Host>, uri: string)
    ensures Lookup(hosts, uri).Some? <==> exists k :: 0 <= k < |hosts| && hosts[k].uri == uri
    decreases |hosts|
  {
    if hosts != [] {
      StoredIff(hosts[1..], uri);
      if k :| 0 < k < |hosts| && hosts[k].uri == uri { assert hosts[1..][k - 1].uri == uri; }
      if k :| 0 <= k < |hosts[1..]| && hosts[1..][k].uri == uri { assert hosts[k + 1].uri == uri; }
    }
  }

  // ---- The object ----------------------------------------------------------------------------------

  class RemoteHosts {
    var hosts: seq<Host>

    constructor ()
      ensures hosts == [] && Sorted(hosts)
    {
      hosts := [];
    }

    method MergeConfInfo(info: Info, peer: string) returns (updated: bool, sent: bool)
      requires Sorted(hosts)
      modifies this
      ensures Merged(hosts, updated, sent) == Merge(old(hosts), info, peer)
      ensures Sorted(hosts)
    {
      if info.list == [] {
        EraseKeeps(hosts, peer, peer);
        hosts := Erase(hosts, peer);
        return false, true;
      }
      var stored := Lookup(hosts, peer);
      if stored.Some? {
        var same := Equal(stored.value, info);
        if same {
          return false, false;
        }
      }
      StoreSorted(hosts, peer, info);
      hosts := Store(hosts, peer, info);
      return true, false;
    }
  }
}
