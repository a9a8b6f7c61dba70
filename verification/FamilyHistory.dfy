/** What became of every push and every close of a family's ring, told from the calls alone. */
module FamilyHistory {
  import opened Basics
  import opened FamilySpec
  import opened FamilyRuns
  import opened FamilyOrder
  import opened Wire

  // ---------------------------------------------------------------------------
  // The calls
  // ---------------------------------------------------------------------------

  /** The peers handles were added for: the handle is the place in the list. */
  function Added(actions: seq<Action>, n: nat): (peers: seq<PeerID>)
    requires n <= |actions|
    ensures |peers| <= n
  {
    if n == 0 then []
    else
      Added(actions, n - 1) + match actions[n - 1] case Add(peer) => [peer] case _ => []
  }

  /** The code of the first close of the handle. */
  function EndCode(actions: seq<Action>, n: nat, h: Handle): Option<Code>
    requires n <= |actions|
  {
    if n == 0 then None
    else if EndCode(actions, n - 1, h).Some? then EndCode(actions, n - 1, h)
    else
      match actions[n - 1]
      case Close(g, code, _) => if g == h then Some(code) else None
      case _ => None
  }

  ghost predicate FirstSpec(specs: seq<ProtocolSpec>, p: Protocol, i: int) {
    0 <= i < |specs| && specs[i].protocol == p && forall j :: 0 <= j < i ==> specs[j].protocol != p
  }

  /** The first spec of the protocol allows more than this many queued streams; without a spec there is no room. */
  ghost predicate HasRoom(specs: seq<ProtocolSpec>, p: Protocol, queued: nat) {
    exists i :: FirstSpec(specs, p, i) && queued < specs[i].maxQueued
  }

  lemma {:induction false} RoomMeans(specs: seq<ProtocolSpec>, p: Protocol, queued: nat)
    ensures HasRoom(specs, p, queued) <==> queued < MaxQueued(specs, p)
  {
    if specs != [] {
      if specs[0].protocol == p {
        assert FirstSpec(specs, p, 0);
        assert forall i :: FirstSpec(specs, p, i) ==> i == 0;
      } else {
        RoomMeans(specs[1..], p, queued);
        RoomOfRest(specs, p, queued);
      }
    }
  }

  lemma RoomOfRest(specs: seq<ProtocolSpec>, p: Protocol, queued: nat)
    requires specs != [] && specs[0].protocol != p
    ensures HasRoom(specs, p, queued) <==> HasRoom(specs[1..], p, queued)
  {
    var rest := specs[1..];
    if HasRoom(specs, p, queued) {
      var i :| FirstSpec(specs, p, i) && queued < specs[i].maxQueued;
      assert FirstSpec(rest, p, i - 1);
    }
    if HasRoom(rest, p, queued) {
      var i :| FirstSpec(rest, p, i) && queued < rest[i].maxQueued;
      assert forall j :: 0 < j < i + 1 ==> specs[j] == rest[j - 1];
      assert FirstSpec(specs, p, i + 1);
    }
  }

  // ---------------------------------------------------------------------------
  // Handles
  // ---------------------------------------------------------------------------

  /** The handle's delivery is as the calls say: its peer, and whether and with which code it ended. */
  ghost predicate AsCalled(w: World, h: Handle, added: seq<PeerID>, ended: Option<Code>) {
    && w.next == |added| && (h in w.peers <==> h < |added|)
    && (h in w.peers ==> w.peers[h].peer == added[h] && w.peers[h].down == ended.Some?)
    && (ended.Some? ==> h in w.peers && w.peers[h].code == ended.value)
  }

  /** A step keeps a handle's peer, and ends the handle if it is its first close. */
  lemma StepKeepsHandle(w: World, a: Action, specs: seq<ProtocolSpec>, h: Handle)
    requires Enabled(w, a) && h in w.peers && RingOk(w)
    ensures h in Step(w, a, specs).peers
    ensures var d, e, closed := w.peers[h], Step(w, a, specs).peers[h], a.Close? && a.handle == h;
            && e.peer == d.peer && e.down == (d.down || closed)
            && e.code == if !d.down && closed then a.code else d.code
  {
    StepPeers(w, a, specs);
  }

  /** Only Add makes a handle, the next one. */
  lemma StepAddsHandle(w: World, a: Action, specs: seq<ProtocolSpec>, h: Handle)
    requires Enabled(w, a) && h !in w.peers
    ensures var v := Step(w, a, specs);
            && (h in v.peers <==> a.Add? && h == w.next)
            && (h in v.peers ==> v.peers[h].peer == a.peer && !v.peers[h].down)
  {
    StepPeers(w, a, specs);
  }

  lemma StepNext(w: World, a: Action, specs: seq<ProtocolSpec>)
    requires Enabled(w, a)
    ensures Step(w, a, specs).next == if a.Add? then w.next + 1 else w.next
  {
  }

  lemma StepAsCalled(w: World, a: Action, specs: seq<ProtocolSpec>, h: Handle, added: seq<PeerID>, ended: Option<Code>)
    requires Enabled(w, a) && AsCalled(w, h, added, ended) && RingOk(w)
    ensures AsCalled(Step(w, a, specs), h, added + (match a case Add(peer) => [peer] case _ => []),
                     if ended.Some? then ended
                     else match a case Close(g, code, _) => (if g == h then Some(code) else None) case _ => None)
  {
    StepNext(w, a, specs);
    if h in w.peers {
      StepKeepsHandle(w, a, specs, h);
    } else {
      StepAddsHandle(w, a, specs, h);
    }
  }

  /**
   * After every run: handle h exists if and only if more than h were added, belongs to the peer it was added
   * for, and is down if and only if it was closed, with the code of its first close.
   */
  lemma {:induction false} HandlesAsCalled(worlds: seq<World>, actions: seq<Action>, specs: seq<ProtocolSpec>, n: nat,
      h: Handle)
    requires IsRun(worlds, actions, specs) && worlds[0] == NEW_WORLD && n <= |actions|
    ensures AsCalled(worlds[n], h, Added(actions, n), EndCode(actions, n, h))
  {
    if n > 0 {
      HandlesAsCalled(worlds, actions, specs, n - 1, h);
      RunInv(worlds, actions, specs, n - 1);
      StepAsCalled(worlds[n - 1], actions[n - 1], specs, h, Added(actions, n - 1), EndCode(actions, n - 1, h));
    }
  }

  // ---------------------------------------------------------------------------
  // Pushes and closes
  // ---------------------------------------------------------------------------

  /** The delivery after the push: queued at the back when accepted, else reset alone with the code. */
  predicate PushedAs(d: Delivery, e: Delivery, x: Pending, accepted: bool) {
    && e.pushes == d.pushes + [Push(x, accepted)]
    && e.streams == (if accepted then d.streams + [x] else d.streams)
    && e.resets == d.resets + (if accepted then []
                               else [Reset(x.stream, if d.down then UNSUPPORTED_SELECTOR else UNSPECIFIED)])
    && (accepted ==> e.listed)
  }

  lemma DeliveryPushed(d: Delivery, specs: seq<ProtocolSpec>, x: Pending)
    requires FamilySpec.Queued(d, x.protocol) == Count(d.streams, x.protocol)
    ensures PushedAs(d, Pushed(d, specs, x), x, !d.down && HasRoom(specs, x.protocol, Count(d.streams, x.protocol)))
  {
    RoomMeans(specs, x.protocol, Count(d.streams, x.protocol));
  }

  /**
   * At every push of every run: the stream is queued, at the back, if and only if the handle is not down and
   * fewer streams of its protocol are queued than the family's limit; otherwise it alone is reset, as
   * unsupported on an ended handle and unspecified on a full one.
   */
  lemma PushedIff(worlds: seq<World>, actions: seq<Action>, specs: seq<ProtocolSpec>, j: nat)
    requires IsRun(worlds, actions, specs) && worlds[0] == NEW_WORLD && j < |actions| && actions[j].Give?
    ensures var h, x := actions[j].handle, actions[j].pending;
            && h in worlds[j].peers && h in worlds[j + 1].peers
            && var d := worlds[j].peers[h];
            PushedAs(d, worlds[j + 1].peers[h], x, !d.down && HasRoom(specs, x.protocol, Count(d.streams, x.protocol)))
  {
    RunInv(worlds, actions, specs, j);
    StepPeers(worlds[j], actions[j], specs);
    GiveCounted(worlds[j], specs, actions[j].handle, actions[j].pending);
  }

  lemma GiveCounted(w: World, specs: seq<ProtocolSpec>, h: Handle, x: Pending)
    requires h in w.peers && DeliveriesOk(w, specs)
    ensures var d := w.peers[h];
            PushedAs(d, Pushed(d, specs, x), x, !d.down && HasRoom(specs, x.protocol, Count(d.streams, x.protocol)))
  {
    assert DeliveryOk(w.peers[h], specs);
    assert FamilySpec.Queued(w.peers[h], x.protocol) == Count(w.peers[h].streams, x.protocol);
    DeliveryPushed(w.peers[h], specs, x);
  }

  lemma {:induction false} ResetAllAt(streams: seq<Pending>, code: Code)
    ensures |ResetAll(streams, code)| == |streams|
    ensures forall i :: 0 <= i < |streams| ==> ResetAll(streams, code)[i] == Reset(streams[i].stream, code)
  {
    if streams != [] {
      ResetAllAt(streams[1..], code);
    }
  }

  /** At the first close of a handle in every run: every queued stream is reset, in order, with the reset code. */
  lemma CloseResets(worlds: seq<World>, actions: seq<Action>, specs: seq<ProtocolSpec>, j: nat)
    requires IsRun(worlds, actions, specs) && worlds[0] == NEW_WORLD && j < |actions| && actions[j].Close?
    ensures var h := actions[j].handle;
            && h in worlds[j].peers && h in worlds[j + 1].peers
            && var d, e := worlds[j].peers[h], worlds[j + 1].peers[h];
            if d.down then e == d
            else
              && e.streams == [] && e.pushes == d.pushes && e.taken == d.taken
              && e.resets == d.resets + seq(|d.streams|, i requires 0 <= i < |d.streams| =>
                                                Reset(d.streams[i].stream, actions[j].resetCode))
  {
    var w, a := worlds[j], actions[j];
    StepPeers(w, a, specs);
    var d := w.peers[a.handle];
    ResetAllAt(d.streams, a.resetCode);
    assert ResetAll(d.streams, a.resetCode)
        == seq(|d.streams|, i requires 0 <= i < |d.streams| => Reset(d.streams[i].stream, a.resetCode));
  }
}
