/** Successive handles of a peer never interleave, and every handle is served in turn. */
module FamilyOrder {
  import opened Basics
  import opened FamilySpec
  import opened FamilyRuns
  import opened FamilyGrammar
  import opened Wire

  // ---------------------------------------------------------------------------
  // Order in the ring
  // ---------------------------------------------------------------------------

  ghost predicate Precedes(ready: seq<Handle>, a: Handle, b: Handle) {
    forall i, j :: 0 <= i < |ready| && 0 <= j < |ready| && ready[i] == a && ready[j] == b ==> i < j
  }

  lemma PrecedesAppend(ready: seq<Handle>, h: Handle, a: Handle, b: Handle)
    requires Precedes(ready, a, b) && h != a
    ensures Precedes(ready + [h], a, b)
  {
  }

  lemma PrecedesTail(ready: seq<Handle>, a: Handle, b: Handle)
    requires Precedes(ready, a, b) && ready != []
    ensures Precedes(ready[1..], a, b)
  {
    forall i, j | 0 <= i < |ready| - 1 && 0 <= j < |ready| - 1 && ready[1..][i] == a && ready[1..][j] == b
      ensures i < j
    {
      assert ready[i + 1] == a && ready[j + 1] == b;
    }
  }

  lemma {:induction false} PrecedesWithout(ready: seq<Handle>, h: Handle, a: Handle, b: Handle)
    requires Precedes(ready, a, b) && Distinct(ready) && a != b
    ensures Precedes(Without(ready, h), a, b)
  {
    if ready != [] {
      PrecedesTail(ready, a, b);
      if ready[0] != h {
        var tail := ready[1..];
        PrecedesWithout(tail, h, a, b);
        WithoutElements(tail, h);
        PrecedesCons(ready[0], Without(tail, h), a, b, ready);
      }
    }
  }

  lemma PrecedesCons(head: Handle, tail: seq<Handle>, a: Handle, b: Handle, ready: seq<Handle>)
    requires ready != [] && head == ready[0] && a != b && Precedes(ready, a, b)
    requires Precedes(tail, a, b) && (forall x :: x in tail ==> x in ready[1..])
    ensures Precedes([head] + tail, a, b)
  {
    var all := [head] + tail;
    forall i, j | 0 <= i < |all| && 0 <= j < |all| && all[i] == a && all[j] == b
      ensures i < j
    {
      if i > 0 {
        assert a == tail[i - 1] && a in ready[1..];
        var k :| 0 <= k < |ready| - 1 && ready[1..][k] == a;
        assert ready[k + 1] == a;
        if j > 0 {
          assert b == tail[j - 1];
        }
      }
    }
  }

  // ---------------------------------------------------------------------------
  // Successive handles of one peer
  // ---------------------------------------------------------------------------

  /** No live handle of the peer is left: the supervisor closed them before adding another. */
  ghost predicate Free(w: World, peer: PeerID) {
    forall h :: h in w.peers && w.peers[h].peer == peer ==> w.peers[h].down
  }

  /** The older handle has ended; while its PeerDown waits, the newer one's PeerUp waits behind it. */
  ghost predicate SuccessionAt(w: World, a: Handle, b: Handle) {
    a in w.peers && b in w.peers && a < b && w.peers[a].peer == w.peers[b].peer ==>
      w.peers[a].down && (w.peers[a].listed ==> !w.peers[b].up && Precedes(w.ready, a, b))
  }

  ghost predicate Succession(w: World) {
    forall a, b :: SuccessionAt(w, a, b)
  }

  lemma AddSuccession(w: World, peer: PeerID, a: Handle, b: Handle)
    requires RingOk(w) && Free(w, peer) && SuccessionAt(w, a, b)
    ensures SuccessionAt(AddPeer(w, peer), a, b)
  {
    assert w.next !in w.ready;
    if a != w.next {
      if b == w.next {
        assert Precedes(w.ready, a, b);
        PrecedesAppend(w.ready, w.next, a, b);
      } else if a in w.peers && b in w.peers && a < b && w.peers[a].peer == w.peers[b].peer && w.peers[a].listed {
        PrecedesAppend(w.ready, w.next, a, b);
      }
    }
  }

  /** A push or a close: one delivery changes, its handle may join the ring's back or leave the ring. */
  ghost predicate Quietly(w: World, v: World, h: Handle) {
    && h in w.peers && h in v.peers && v.peers == w.peers[h := v.peers[h]]
    && v.peers[h].peer == w.peers[h].peer && v.peers[h].up == w.peers[h].up
    && (w.peers[h].down ==> v.peers[h].down && v.peers[h].listed == w.peers[h].listed && v.ready == w.ready)
    && (v.ready == w.ready || (v.ready == w.ready + [h] && w.peers[h].up) || v.ready == Without(w.ready, h))
  }

  lemma PushIsQuiet(w: World, specs: seq<ProtocolSpec>, h: Handle, pending: Pending)
    requires DeliveriesOk(w, specs) && h in w.peers
    ensures Quietly(w, PushStream(w, specs, h, pending), h)
  {
    StepPeers(w, Give(h, pending), specs);
    assert DeliveryOk(w.peers[h], specs);
  }

  lemma CloseIsQuiet(w: World, specs: seq<ProtocolSpec>, h: Handle, code: Code, resetCode: Code)
    requires DeliveriesOk(w, specs) && h in w.peers
    ensures Quietly(w, ClosePeer(w, h, code, resetCode), h)
  {
    StepPeers(w, Close(h, code, resetCode), specs);
    assert DeliveryOk(w.peers[h], specs);
  }

  lemma QuietSuccession(w: World, v: World, h: Handle, a: Handle, b: Handle)
    requires RingOk(w) && Quietly(w, v, h) && SuccessionAt(w, a, b)
    ensures SuccessionAt(v, a, b)
  {
    if a in w.peers && b in w.peers && a < b && w.peers[a].peer == w.peers[b].peer && w.peers[a].listed {
      PrecedesWithout(w.ready, h, a, b);
      if h != a {
        PrecedesAppend(w.ready, h, a, b);
      }
    }
  }

  lemma TakeSuccession(w: World, specs: seq<ProtocolSpec>, a: Handle, b: Handle)
    requires RingOk(w) && DeliveriesOk(w, specs) && SuccessionAt(w, a, b)
    ensures SuccessionAt(Next(w), a, b)
  {
    if w.ready != [] && a in w.peers && b in w.peers && a < b && w.peers[a].peer == w.peers[b].peer {
      assert DeliveryOk(w.peers[a], specs);
      if w.peers[a].listed && w.ready[0] != a {
        assert a in w.ready;
        PrecedesTail(w.ready, a, b);
        PrecedesAppend(w.ready[1..], w.ready[0], a, b);
      }
    }
  }

  lemma StepSuccession(w: World, x: Action, specs: seq<ProtocolSpec>)
    requires RingOk(w) && DeliveriesOk(w, specs) && Enabled(w, x) && Succession(w)
    requires x.Add? ==> Free(w, x.peer)
    ensures Succession(Step(w, x, specs))
  {
    forall a, b
      ensures SuccessionAt(Step(w, x, specs), a, b)
    {
      assert SuccessionAt(w, a, b);
      match x
      case Add(peer) => AddSuccession(w, peer, a, b);
      case Give(h, pending) =>
        PushIsQuiet(w, specs, h, pending);
        QuietSuccession(w, Step(w, x, specs), h, a, b);
      case Close(h, code, resetCode) =>
        CloseIsQuiet(w, specs, h, code, resetCode);
        QuietSuccession(w, Step(w, x, specs), h, a, b);
      case Take => TakeSuccession(w, specs, a, b);
      case Wake =>
    }
  }

  // ---------------------------------------------------------------------------
  // The log
  // ---------------------------------------------------------------------------

  /** Events of one peer's handles come handle by handle. */
  ghost predicate LogOrdered(w: World) {
    forall i, j :: 0 <= i < j < |w.returned| ==> InTurn(w, w.returned[i].handle, w.returned[j].handle)
  }

  /** Handle b may speak after handle a did. */
  ghost predicate InTurn(w: World, a: Handle, b: Handle) {
    a in w.peers && b in w.peers && w.peers[a].peer == w.peers[b].peer ==> a <= b
  }

  lemma SpeakerIsUp(w: World, i: nat)
    requires Scripted(w) && i < |w.returned|
    ensures w.returned[i].handle in w.peers && w.peers[w.returned[i].handle].up
  {
    OfHandleMember(w.returned, i);
    assert ScriptedAt(w, w.returned[i].handle);
  }

  lemma StepPeerKept(w: World, x: Action, specs: seq<ProtocolSpec>, h: Handle)
    requires Enabled(w, x) && h in w.peers && RingOk(w)
    ensures h in Step(w, x, specs).peers && Step(w, x, specs).peers[h].peer == w.peers[h].peer
    ensures w.peers[h].up ==> Step(w, x, specs).peers[h].up
  {
    StepPeers(w, x, specs);
  }

  lemma StepLogOrdered(w: World, x: Action, specs: seq<ProtocolSpec>)
    requires RingOk(w) && DeliveriesOk(w, specs) && Enabled(w, x) && Scripted(w) && Succession(w) && LogOrdered(w)
    ensures LogOrdered(Step(w, x, specs))
  {
    var v := Step(w, x, specs);
    StepPeers(w, x, specs);
    forall i, j | 0 <= i < j < |v.returned|
      ensures InTurn(v, v.returned[i].handle, v.returned[j].handle)
    {
      var b := v.returned[i].handle;
      assert v.returned[i] == w.returned[i];
      SpeakerIsUp(w, i);
      StepPeerKept(w, x, specs, b);
      if j < |w.returned| {
        assert v.returned[j] == w.returned[j];
        SpeakerIsUp(w, j);
        StepPeerKept(w, x, specs, w.returned[j].handle);
        assert InTurn(w, b, w.returned[j].handle);
      } else {
        var h := w.ready[0];
        assert v.returned[j].handle == h;
        StepPeerKept(w, x, specs, h);
        assert SuccessionAt(w, h, b);
      }
    }
  }

  // ---------------------------------------------------------------------------
  // Runs
  // ---------------------------------------------------------------------------

  ghost predicate Inv(w: World, specs: seq<ProtocolSpec>) {
    RingOk(w) && DeliveriesOk(w, specs) && Woken(w) && Scripted(w) && AllConserved(w)
  }

  ghost predicate IsRun(worlds: seq<World>, actions: seq<Action>, specs: seq<ProtocolSpec>) {
    && |worlds| == |actions| + 1
    && forall i :: 0 <= i < |actions| ==>
        Enabled(worlds[i], actions[i]) && worlds[i + 1] == Step(worlds[i], actions[i], specs)
  }

  /** Whoever adds a handle has closed the peer's earlier ones. */
  ghost predicate Supervised(worlds: seq<World>, actions: seq<Action>)
    requires |worlds| == |actions| + 1
  {
    forall i :: 0 <= i < |actions| && actions[i].Add? ==> Free(worlds[i], actions[i].peer)
  }

  lemma StepInv(w: World, x: Action, specs: seq<ProtocolSpec>)
    requires Inv(w, specs) && Enabled(w, x)
    ensures Inv(Step(w, x, specs), specs)
  {
    StepRing(w, x, specs);
    StepDeliveries(w, x, specs);
    StepScripted(w, x, specs);
    StepConserved(w, x, specs);
  }

  lemma StepOrder(w: World, x: Action, specs: seq<ProtocolSpec>)
    requires Inv(w, specs) && Enabled(w, x) && Succession(w) && LogOrdered(w) && (x.Add? ==> Free(w, x.peer))
    ensures Succession(Step(w, x, specs)) && LogOrdered(Step(w, x, specs))
  {
    StepSuccession(w, x, specs);
    StepLogOrdered(w, x, specs);
  }

  lemma NewInv(specs: seq<ProtocolSpec>)
    ensures Inv(NEW_WORLD, specs) && Succession(NEW_WORLD) && LogOrdered(NEW_WORLD)
  {
    assert forall h :: ScriptedAt(NEW_WORLD, h);
    assert forall a, b :: SuccessionAt(NEW_WORLD, a, b);
  }

  /** Every world of every run satisfies the grammar, the counts, conservation and the wake rule. */
  lemma {:induction false} RunInv(worlds: seq<World>, actions: seq<Action>, specs: seq<ProtocolSpec>, n: nat)
    requires IsRun(worlds, actions, specs) && worlds[0] == NEW_WORLD && n <= |actions|
    ensures Inv(worlds[n], specs)
  {
    if n == 0 {
      NewInv(specs);
    } else {
      RunInv(worlds, actions, specs, n - 1);
      StepInv(worlds[n - 1], actions[n - 1], specs);
    }
  }

  lemma {:induction false} RunSuccession(worlds: seq<World>, actions: seq<Action>, specs: seq<ProtocolSpec>, n: nat)
    requires IsRun(worlds, actions, specs) && worlds[0] == NEW_WORLD && n <= |actions| && Supervised(worlds, actions)
    ensures Succession(worlds[n]) && LogOrdered(worlds[n])
  {
    if n == 0 {
      NewInv(specs);
    } else {
      RunSuccession(worlds, actions, specs, n - 1);
      RunInv(worlds, actions, specs, n - 1);
      StepOrder(worlds[n - 1], actions[n - 1], specs);
    }
  }

  /** Everything a handle said came before everything its successor said. */
  ghost predicate AllBefore(events: seq<Event>, a: Handle, b: Handle) {
    forall i, j :: 0 <= i < |events| && 0 <= j < |events| && events[i].handle == a && events[j].handle == b ==> i < j
  }

  lemma OrderedBefore(w: World, a: Handle, b: Handle)
    requires LogOrdered(w) && a in w.peers && b in w.peers && a < b && w.peers[a].peer == w.peers[b].peer
    ensures AllBefore(w.returned, a, b)
  {
    forall i, j | 0 <= i < |w.returned| && 0 <= j < |w.returned| && w.returned[i].handle == a
        && w.returned[j].handle == b
      ensures i < j
    {
      assert j < i ==> InTurn(w, w.returned[j].handle, w.returned[i].handle);
    }
  }

  /** A handle that said nothing, or whose last word was PeerDown. */
  ghost predicate Finished(w: World, h: Handle)
    requires h in w.peers
  {
    var said := OfHandle(w.returned, h);
    w.peers[h].down && (said == [] || said[|said| - 1] == PeerDown(h, w.peers[h].code))
  }

  lemma SuccessorWaits(w: World, a: Handle, b: Handle)
    requires ScriptedAt(w, a) && ScriptedAt(w, b) && SuccessionAt(w, a, b)
    requires a in w.peers && b in w.peers && a < b && w.peers[a].peer == w.peers[b].peer
    ensures w.peers[a].down && (OfHandle(w.returned, b) != [] ==> Finished(w, a))
  {
  }

  /**
   * Once a newer handle of a peer has spoken, the older one is finished: it said nothing, or its last
   * event was PeerDown; and everything it said came before everything the newer one said.
   */
  lemma HandlesNeverInterleave(worlds: seq<World>, actions: seq<Action>, specs: seq<ProtocolSpec>, w: World, a: Handle,
      b: Handle)
    requires IsRun(worlds, actions, specs) && worlds[0] == NEW_WORLD && Supervised(worlds, actions)
        && w == worlds[|actions|]
    requires a in w.peers && b in w.peers && a < b && w.peers[a].peer == w.peers[b].peer
    ensures w.peers[a].down && (OfHandle(w.returned, b) != [] ==> Finished(w, a)) && AllBefore(w.returned, a, b)
  {
    RunInv(worlds, actions, specs, |actions|);
    RunSuccession(worlds, actions, specs, |actions|);
    assert SuccessionAt(w, a, b) && ScriptedAt(w, a) && ScriptedAt(w, b);
    SuccessorWaits(w, a, b);
    OrderedBefore(w, a, b);
  }

  // ---------------------------------------------------------------------------
  // Turns
  // ---------------------------------------------------------------------------

  function Takes(actions: seq<Action>): nat {
    if actions == [] then 0 else (if actions[0].Take? then 1 else 0) + Takes(actions[1..])
  }

  lemma {:induction false} WithoutPlace(ready: seq<Handle>, h: Handle, k: nat) returns (n: nat)
    requires k < |ready| && ready[k] != h
    ensures n <= k && n < |Without(ready, h)| && Without(ready, h)[n] == ready[k]
  {
    if ready[0] == h {
      n := k - 1;
    } else if k == 0 {
      n := 0;
    } else {
      n := WithoutPlace(ready[1..], h, k - 1);
      n := n + 1;
    }
  }

  lemma ReadyGrows(w: World, x: Action, specs: seq<ProtocolSpec>)
    requires Enabled(w, x)
        && (x.Add? || x.Give? || x.Wake? || (x.Close? && (w.peers[x.handle].down || w.peers[x.handle].up)))
    ensures w.ready <= Step(w, x, specs).ready
  {
  }

  /** A step serves the handle, or moves it up the ring by at least one place per Take. */
  lemma StepPlace(w: World, x: Action, specs: seq<ProtocolSpec>, h: Handle, k: nat) returns (n: nat)
    requires RingOk(w) && Enabled(w, x) && k < |w.ready| && w.ready[k] == h
    requires x.Close? && x.handle == h ==> w.peers[h].up
    ensures k == 0 && x.Take? ==> Returned(w, x) != [] && Returned(w, x)[0].handle == h
    ensures !(k == 0 && x.Take?) ==> n < |Step(w, x, specs).ready| && Step(w, x, specs).ready[n] == h
    ensures !(k == 0 && x.Take?) ==> n + (if x.Take? then 1 else 0) <= k
  {
    if x.Take? {
      n := if k > 0 then k - 1 else 0;
    } else if x.Close? && !w.peers[x.handle].down && !w.peers[x.handle].up {
      n := WithoutPlace(w.ready, x.handle, k);
    } else {
      ReadyGrows(w, x, specs);
      n := k;
    }
  }

  lemma TurnIsLogged(w: World, x: Action, specs: seq<ProtocolSpec>, h: Handle)
    requires Enabled(w, x)
    ensures |OfHandle(Step(w, x, specs).returned, h)| >= |OfHandle(w.returned, h)|
    ensures Returned(w, x) != [] && Returned(w, x)[0].handle == h ==>
        |OfHandle(Step(w, x, specs).returned, h)| > |OfHandle(w.returned, h)|
  {
    StepPeers(w, x, specs);
    if Returned(w, x) != [] {
      OfHandleSnoc(w.returned, Returned(w, x)[0], h);
      assert Returned(w, x) == [Returned(w, x)[0]];
    } else {
      assert w.returned + [] == w.returned;
    }
  }

  lemma {:induction false} LogGrows(worlds: seq<World>, actions: seq<Action>, specs: seq<ProtocolSpec>, h: Handle)
    requires IsRun(worlds, actions, specs)
    ensures |OfHandle(worlds[|actions|].returned, h)| >= |OfHandle(worlds[0].returned, h)|
    decreases |actions|
  {
    if actions != [] {
      TurnIsLogged(worlds[0], actions[0], specs, h);
      LogGrows(worlds[1..], actions[1..], specs, h);
    }
  }

  lemma RunTail(worlds: seq<World>, actions: seq<Action>, specs: seq<ProtocolSpec>)
    requires IsRun(worlds, actions, specs) && actions != []
    ensures IsRun(worlds[1..], actions[1..], specs) && Enabled(worlds[0], actions[0])
    ensures worlds[1] == Step(worlds[0], actions[0], specs)
  {
  }

  ghost predicate NeverCloses(actions: seq<Action>, h: Handle) {
    actions != [] ==> !(actions[0].Close? && actions[0].handle == h) && NeverCloses(actions[1..], h)
  }

  /** A handle with k ahead of it in the ring is served within k + 1 calls of Next, whatever else happens. */
  lemma {:induction false} ServedInTurn(worlds: seq<World>, actions: seq<Action>, specs: seq<ProtocolSpec>, h: Handle,
      k: nat)
    requires IsRun(worlds, actions, specs) && Inv(worlds[0], specs)
    requires k < |worlds[0].ready| && worlds[0].ready[k] == h && Takes(actions) > k
    requires worlds[0].peers[h].up || NeverCloses(actions, h)
    ensures |OfHandle(worlds[|actions|].returned, h)| > |OfHandle(worlds[0].returned, h)|
    decreases |actions|
  {
    var w, x := worlds[0], actions[0];
    RunTail(worlds, actions, specs);
    TurnIsLogged(w, x, specs, h);
    var n := StepPlace(w, x, specs, h, k);
    if k == 0 && x.Take? {
      LogGrows(worlds[1..], actions[1..], specs, h);
    } else {
      StepInv(w, x, specs);
      StepPeerKept(w, x, specs, h);
      ServedInTurn(worlds[1..], actions[1..], specs, h, n);
    }
  }
}
