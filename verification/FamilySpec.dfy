/** A family's delivery ring as a state machine: deliveries, ring and history. */
module FamilySpec {
  import opened Wire

  type Handle = nat
  type PeerID = nat
  type Protocol = nat
  type Stream = nat

  const UNSPECIFIED := Code(0, false)
  const UNSUPPORTED_SELECTOR := Code(9, false)

  datatype ProtocolSpec = ProtocolSpec(protocol: Protocol, maxQueued: nat)
  datatype Pending = Pending(protocol: Protocol, stream: Stream)
  datatype Reset = Reset(stream: Stream, code: Code)

  datatype Event =
    | PeerUp(handle: Handle)
    | StreamIn(handle: Handle, pending: Pending)
    | PeerDown(handle: Handle, code: Code)

  /** One call of push and whether the stream was queued. */
  datatype Push = Push(pending: Pending, accepted: bool)

  /**
   * One handle's delivery. The last three fields are history: every push,
   * how many accepted streams the consumer took, and every reset.
   */
  datatype Delivery = Delivery(
    peer: PeerID, up: bool, down: bool, code: Code, streams: seq<Pending>, queued: map<Protocol, int>, listed: bool,
    pushes: seq<Push>, taken: nat, resets: seq<Reset>)

  /** The ring, the wake token, whether the consumer has seen it empty, and every event returned. */
  datatype World = World(
    next: Handle, ready: seq<Handle>, peers: map<Handle, Delivery>, wake: bool, idle: bool, returned: seq<Event>)

  const NEW_WORLD := World(0, [], map[], false, false, [])

  // ---------------------------------------------------------------------------
  // Operations
  // ---------------------------------------------------------------------------

  /** The limit of the first spec for the protocol; 0 when the family does not own it. */
  function MaxQueued(specs: seq<ProtocolSpec>, p: Protocol): nat {
    if specs == [] then 0 else if specs[0].protocol == p then specs[0].maxQueued else MaxQueued(specs[1..], p)
  }

  function Queued(d: Delivery, p: Protocol): int {
    if p in d.queued then d.queued[p] else 0
  }

  function With(w: World, h: Handle, d: Delivery): World {
    w.(peers := w.peers[h := d])
  }

  /** Put the handle at the back of the ring unless it is in it, and wake the consumer. */
  function Schedule(w: World, h: Handle): World
    requires h in w.peers
  {
    var d := w.peers[h];
    if d.listed then w.(wake := true)
    else With(w, h, d.(listed := true)).(ready := w.ready + [h], wake := true)
  }

  function NewDelivery(peer: PeerID): Delivery {
    Delivery(peer, false, false, UNSPECIFIED, [], map[], false, [], 0, [])
  }

  function AddPeer(w: World, peer: PeerID): World {
    Schedule(With(w, w.next, NewDelivery(peer)).(next := w.next + 1), w.next)
  }

  function Refused(d: Delivery, pending: Pending, code: Code): Delivery {
    d.(pushes := d.pushes + [Push(pending, false)], resets := d.resets + [Reset(pending.stream, code)])
  }

  function Enqueued(d: Delivery, pending: Pending): Delivery {
    d.(streams := d.streams + [pending], queued := d.queued[pending.protocol := Queued(d, pending.protocol) + 1],
       pushes := d.pushes + [Push(pending, true)])
  }

  function PushStream(w: World, specs: seq<ProtocolSpec>, h: Handle, pending: Pending): World
    requires h in w.peers
  {
    var d := w.peers[h];
    if d.down then With(w, h, Refused(d, pending, UNSUPPORTED_SELECTOR))
    else if Queued(d, pending.protocol) >= MaxQueued(specs, pending.protocol)
        then With(w, h, Refused(d, pending, UNSPECIFIED))
    else Schedule(With(w, h, Enqueued(d, pending)), h)
  }

  function Without(ready: seq<Handle>, h: Handle): seq<Handle> {
    if ready == [] then [] else if ready[0] == h then ready[1..] else [ready[0]] + Without(ready[1..], h)
  }

  function ResetAll(streams: seq<Pending>, code: Code): seq<Reset> {
    if streams == [] then [] else [Reset(streams[0].stream, code)] + ResetAll(streams[1..], code)
  }

  function Ended(d: Delivery, code: Code, resetCode: Code): Delivery {
    d.(down := true, code := code, streams := [], queued := map[], resets := d.resets + ResetAll(d.streams, resetCode))
  }

  /** What push leaves of a delivery. */
  function Pushed(d: Delivery, specs: seq<ProtocolSpec>, pending: Pending): Delivery {
    if d.down then Refused(d, pending, UNSUPPORTED_SELECTOR)
    else if Queued(d, pending.protocol) >= MaxQueued(specs, pending.protocol) then Refused(d, pending, UNSPECIFIED)
    else Enqueued(d, pending).(listed := true)
  }

  /** What closePeer leaves of a delivery. */
  function Closed(d: Delivery, code: Code, resetCode: Code): Delivery {
    if d.down then d else Ended(d, code, resetCode).(listed := d.up)
  }

  function ClosePeer(w: World, h: Handle, code: Code, resetCode: Code): World
    requires h in w.peers
  {
    var d := w.peers[h];
    if d.down then w
    else if !d.up then With(w, h, Ended(d, code, resetCode).(listed := false)).(ready := Without(w.ready, h))
    else Schedule(With(w, h, Ended(d, code, resetCode)), h)
  }

  function Took(d: Delivery): Delivery
    requires d.streams != []
  {
    var p := d.streams[0].protocol;
    d.(streams := d.streams[1..], queued := d.queued[p := Queued(d, p) - 1], taken := d.taken + 1)
  }

  /** What Next does to the front handle's delivery, and the event it returns. */
  function Served(h: Handle, d: Delivery): (Delivery, Event) {
    if !d.up then (d.(up := true), PeerUp(h))
    else if d.streams != [] then (Took(d), StreamIn(h, d.streams[0]))
    else (d, PeerDown(h, d.code))
  }

  /** What a turn leaves of a delivery. */
  function Turned(h: Handle, d: Delivery): Delivery {
    var (e, event) := Served(h, d);
    e.(listed := !event.PeerDown? && (e.streams != [] || e.down))
  }

  /** The front handle leaves its place, for the back of the ring or altogether. */
  function Pass(w: World, h: Handle, again: bool): World
    requires w.ready != [] && h in w.peers
  {
    With(w, h, w.peers[h].(listed := again)).(ready := if again then w.ready[1..] + [h] else w.ready[1..])
  }

  /** The front handle takes its turn; it goes to the back when it has more to say. */
  function Next(w: World): World
    requires w.ready != [] ==> w.ready[0] in w.peers
  {
    if w.ready == [] then w.(idle := true)
    else
      var h := w.ready[0];
      var (d, event) := Served(h, w.peers[h]);
      Pass(With(w, h, d), h, !event.PeerDown? && (d.streams != [] || d.down)).(returned := w.returned + [event])
  }

  lemma NextPeers(w: World)
    requires w.ready != [] && w.ready[0] in w.peers
    ensures Next(w).peers == w.peers[w.ready[0] := Turned(w.ready[0], w.peers[w.ready[0]])]
  {
  }

  // ---------------------------------------------------------------------------
  // What holds of one delivery
  // ---------------------------------------------------------------------------

  function Count(streams: seq<Pending>, p: Protocol): nat {
    if streams == [] then 0 else (if streams[0].protocol == p then 1 else 0) + Count(streams[1..], p)
  }

  lemma {:induction false} CountSnoc(streams: seq<Pending>, x: Pending, p: Protocol)
    ensures Count(streams + [x], p) == Count(streams, p) + (if x.protocol == p then 1 else 0)
  {
    if streams == [] {
      assert streams + [x] == [x] && [x][1..] == [];
    } else {
      CountSnoc(streams[1..], x, p);
      assert (streams + [x])[1..] == streams[1..] + [x];
    }
  }

  /** The pushed streams that were queued, and those that were not, in push order. */
  function Chosen(pushes: seq<Push>, accepted: bool): seq<Pending> {
    if pushes == [] then []
    else
      var last := pushes[|pushes| - 1];
      Chosen(pushes[..|pushes| - 1], accepted) + if last.accepted == accepted then [last.pending] else []
  }

  lemma ChosenSnoc(pushes: seq<Push>, x: Push, accepted: bool)
    ensures Chosen(pushes + [x], accepted) == Chosen(pushes, accepted) + if x.accepted == accepted then [x.pending]
        else []
  {
    assert (pushes + [x])[..|pushes|] == pushes;
  }

  /** The queue counts are exact and bounded. */
  ghost predicate Counted(d: Delivery, specs: seq<ProtocolSpec>) {
    forall p :: Queued(d, p) == Count(d.streams, p) <= MaxQueued(specs, p)
  }

  /** What is queued is what was accepted and not yet taken, in push order. */
  ghost predicate InOrder(d: Delivery) {
    && d.taken <= |Chosen(d.pushes, true)|
    && d.streams == (if d.down then [] else Chosen(d.pushes, true)[d.taken..])
  }

  /** When the handle is in the ring: it has something to say. */
  ghost predicate Turn(d: Delivery) {
    && (!d.up ==> d.listed == !d.down && d.taken == 0)
    && (d.up && !d.down ==> d.listed == (d.streams != []))
  }

  ghost predicate DeliveryOk(d: Delivery, specs: seq<ProtocolSpec>) {
    Counted(d, specs) && InOrder(d) && Turn(d)
  }

  lemma NewDeliveryOk(peer: PeerID, specs: seq<ProtocolSpec>)
    ensures DeliveryOk(NewDelivery(peer).(listed := true), specs)
  {
  }

  lemma RefusedOk(d: Delivery, specs: seq<ProtocolSpec>, pending: Pending, code: Code)
    requires DeliveryOk(d, specs)
    ensures DeliveryOk(Refused(d, pending, code), specs)
  {
    var e := Refused(d, pending, code);
    ChosenSnoc(d.pushes, Push(pending, false), true);
    assert Chosen(e.pushes, true) == Chosen(d.pushes, true);
    assert forall p :: Queued(e, p) == Queued(d, p);
  }

  lemma EnqueuedOk(d: Delivery, specs: seq<ProtocolSpec>, pending: Pending)
    requires DeliveryOk(d, specs) && !d.down && Queued(d, pending.protocol) < MaxQueued(specs, pending.protocol)
    ensures DeliveryOk(Enqueued(d, pending).(listed := true), specs)
  {
    var e := Enqueued(d, pending);
    ChosenSnoc(d.pushes, Push(pending, true), true);
    var accepted := Chosen(d.pushes, true);
    assert (accepted + [pending])[d.taken..] == accepted[d.taken..] + [pending];
    forall p
      ensures Queued(e, p) == Count(e.streams, p) <= MaxQueued(specs, p)
    {
      CountSnoc(d.streams, pending, p);
      assert Queued(d, p) == Count(d.streams, p) <= MaxQueued(specs, p);
    }
    assert Counted(e.(listed := true), specs) by {
      assert forall p :: Queued(e.(listed := true), p) == Queued(e, p);
    }
  }

  lemma PushedOk(d: Delivery, specs: seq<ProtocolSpec>, pending: Pending)
    requires DeliveryOk(d, specs)
    ensures DeliveryOk(Pushed(d, specs, pending), specs)
  {
    if d.down {
      RefusedOk(d, specs, pending, UNSUPPORTED_SELECTOR);
    } else if Queued(d, pending.protocol) >= MaxQueued(specs, pending.protocol) {
      RefusedOk(d, specs, pending, UNSPECIFIED);
    } else {
      EnqueuedOk(d, specs, pending);
    }
  }

  lemma ClosedOk(d: Delivery, specs: seq<ProtocolSpec>, code: Code, resetCode: Code)
    requires DeliveryOk(d, specs)
    ensures DeliveryOk(Closed(d, code, resetCode), specs)
  {
  }

  lemma TurnedOk(h: Handle, d: Delivery, specs: seq<ProtocolSpec>)
    requires DeliveryOk(d, specs)
    ensures DeliveryOk(Turned(h, d), specs)
  {
    var e := Turned(h, d);
    if d.up && d.streams != [] {
      var accepted := Chosen(d.pushes, true);
      assert accepted[d.taken..][1..] == accepted[d.taken + 1..];
      forall p
        ensures Queued(e, p) == Count(e.streams, p) <= MaxQueued(specs, p)
      {
        assert Queued(d, p) == Count(d.streams, p) <= MaxQueued(specs, p);
      }
    } else {
      assert forall p :: Queued(e, p) == Queued(d, p);
    }
  }
}
