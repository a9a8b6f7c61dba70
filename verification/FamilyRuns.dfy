/** Properties of every run of a family's ring. */
module FamilyRuns {
  import opened Basics
  import opened FamilySpec
  import opened Wire

  // ---------------------------------------------------------------------------
  // The ring
  // ---------------------------------------------------------------------------

  /** The ring holds each listed handle once. */
  ghost predicate RingOk(w: World) {
    && (forall h :: h in w.peers ==> h < w.next)
    && Distinct(w.ready)
    && (forall h :: h in w.ready <==> h in w.peers && w.peers[h].listed)
  }

  ghost predicate DeliveriesOk(w: World, specs: seq<ProtocolSpec>) {
    forall h :: h in w.peers ==> DeliveryOk(w.peers[h], specs)
  }

  /** A consumer that saw the ring empty and has something to take has a wake-up pending. */
  ghost predicate Woken(w: World) {
    w.idle && w.ready != [] ==> w.wake
  }

  lemma {:induction false} WithoutElements(ready: seq<Handle>, h: Handle)
    requires Distinct(ready)
    ensures Distinct(Without(ready, h))
    ensures forall x :: x in Without(ready, h) <==> x in ready && x != h
  {
    if ready != [] {
      var head, tail := ready[0], ready[1..];
      assert forall x :: x in ready <==> x == head || x in tail;
      assert head !in tail;
      WithoutElements(tail, h);
    }
  }

  // ---------------------------------------------------------------------------
  // Steps
  // ---------------------------------------------------------------------------

  datatype Action =
    | Add(peer: PeerID)
    | Give(handle: Handle, pending: Pending)
    | Close(handle: Handle, code: Code, resetCode: Code)
    | Take
    | Wake

  ghost predicate Enabled(w: World, a: Action) {
    match a
    case Give(h, _) => h in w.peers
    case Close(h, _, _) => h in w.peers
    case Take => w.ready != [] ==> w.ready[0] in w.peers
    case Wake => w.wake
    case Add(_) => true
  }

  ghost function Step(w: World, a: Action, specs: seq<ProtocolSpec>): World
    requires Enabled(w, a)
  {
    match a
    case Add(peer) => AddPeer(w, peer)
    case Give(h, pending) => PushStream(w, specs, h, pending)
    case Close(h, code, resetCode) => ClosePeer(w, h, code, resetCode)
    case Take => Next(w)
    case Wake => w.(wake := false, idle := false)
  }

  lemma WithRing(w: World, h: Handle, d: Delivery)
    requires RingOk(w) && h in w.peers && d.listed == w.peers[h].listed
    ensures RingOk(With(w, h, d))
  {
  }

  lemma ScheduleRing(w: World, h: Handle)
    requires RingOk(w) && h in w.peers
    ensures RingOk(Schedule(w, h)) && Woken(Schedule(w, h))
  {
    if !w.peers[h].listed {
      assert h !in w.ready;
      assert forall x :: x in w.ready + [h] <==> x in w.ready || x == h;
    }
  }

  lemma AddRing(w: World, peer: PeerID)
    requires RingOk(w)
    ensures RingOk(AddPeer(w, peer)) && Woken(AddPeer(w, peer))
  {
    var v := With(w, w.next, NewDelivery(peer)).(next := w.next + 1);
    assert w.next !in w.ready;
    assert RingOk(v);
    ScheduleRing(v, w.next);
  }

  lemma PushRing(w: World, specs: seq<ProtocolSpec>, h: Handle, pending: Pending)
    requires RingOk(w) && Woken(w) && h in w.peers
    ensures RingOk(PushStream(w, specs, h, pending)) && Woken(PushStream(w, specs, h, pending))
  {
    var d := w.peers[h];
    WithRing(w, h, Refused(d, pending, UNSUPPORTED_SELECTOR));
    WithRing(w, h, Refused(d, pending, UNSPECIFIED));
    WithRing(w, h, Enqueued(d, pending));
    ScheduleRing(With(w, h, Enqueued(d, pending)), h);
  }

  lemma CloseRing(w: World, h: Handle, code: Code, resetCode: Code)
    requires RingOk(w) && Woken(w) && h in w.peers
    ensures RingOk(ClosePeer(w, h, code, resetCode)) && Woken(ClosePeer(w, h, code, resetCode))
  {
    var d := w.peers[h];
    if !d.down && !d.up {
      WithoutElements(w.ready, h);
    } else if !d.down {
      WithRing(w, h, Ended(d, code, resetCode));
      ScheduleRing(With(w, h, Ended(d, code, resetCode)), h);
    }
  }

  lemma NextRing(w: World)
    requires RingOk(w) && Woken(w)
    ensures RingOk(Next(w)) && Woken(Next(w))
  {
    if w.ready != [] {
      assert w.ready == [w.ready[0]] + w.ready[1..];
    }
  }

  lemma StepRing(w: World, a: Action, specs: seq<ProtocolSpec>)
    requires RingOk(w) && Woken(w) && Enabled(w, a)
    ensures RingOk(Step(w, a, specs)) && Woken(Step(w, a, specs))
  {
    match a
    case Add(peer) => AddRing(w, peer);
    case Give(h, pending) => PushRing(w, specs, h, pending);
    case Close(h, code, resetCode) => CloseRing(w, h, code, resetCode);
    case Take => NextRing(w);
    case Wake =>
  }

  // ---------------------------------------------------------------------------
  // A step changes one delivery
  // ---------------------------------------------------------------------------

  /** The handle a step touches. */
  ghost function Subject(w: World, a: Action): Option<Handle> {
    match a
    case Add(_) => Some(w.next)
    case Give(h, _) => Some(h)
    case Close(h, _, _) => Some(h)
    case Take => if w.ready == [] then None else Some(w.ready[0])
    case Wake => None
  }

  /** What the step leaves there. */
  ghost function After(w: World, a: Action, specs: seq<ProtocolSpec>): Delivery
    requires Enabled(w, a) && Subject(w, a).Some?
  {
    match a
    case Add(peer) => NewDelivery(peer).(listed := true)
    case Give(h, pending) => Pushed(w.peers[h], specs, pending)
    case Close(h, code, resetCode) => Closed(w.peers[h], code, resetCode)
    case Take => Turned(w.ready[0], w.peers[w.ready[0]])
  }

  /** The event a step returns. */
  ghost function Returned(w: World, a: Action): seq<Event>
    requires Enabled(w, a)
  {
    if a.Take? && w.ready != [] then [Served(w.ready[0], w.peers[w.ready[0]]).1] else []
  }

  lemma ScheduledDelivery(w: World, h: Handle)
    requires h in w.peers
    ensures Schedule(w, h).peers == w.peers[h := w.peers[h].(listed := true)] && Schedule(w, h).returned == w.returned
  {
  }

  lemma StepPeers(w: World, a: Action, specs: seq<ProtocolSpec>)
    requires Enabled(w, a)
    ensures Step(w, a, specs).returned == w.returned + Returned(w, a)
    ensures Subject(w, a).None? ==> Step(w, a, specs).peers == w.peers
    ensures Subject(w, a).Some? ==> Step(w, a, specs).peers == w.peers[Subject(w, a).value := After(w, a, specs)]
  {
    match a
    case Add(peer) => ScheduledDelivery(With(w, w.next, NewDelivery(peer)).(next := w.next + 1), w.next);
    case Give(h, pending) => ScheduledDelivery(With(w, h, Enqueued(w.peers[h], pending)), h);
    case Close(h, code, resetCode) =>
      ScheduledDelivery(With(w, h, Ended(w.peers[h], code, resetCode)), h);
      assert w.peers[h := w.peers[h]] == w.peers;
    case Take =>
      if w.ready != [] {
        NextPeers(w);
      }
    case Wake =>
  }

  lemma AfterOk(w: World, a: Action, specs: seq<ProtocolSpec>)
    requires DeliveriesOk(w, specs) && Enabled(w, a) && Subject(w, a).Some?
    ensures DeliveryOk(After(w, a, specs), specs)
  {
    match a
    case Add(peer) => NewDeliveryOk(peer, specs);
    case Give(h, pending) => PushedOk(w.peers[h], specs, pending);
    case Close(h, code, resetCode) => ClosedOk(w.peers[h], specs, code, resetCode);
    case Take => TurnedOk(w.ready[0], w.peers[w.ready[0]], specs);
  }

  lemma StepDeliveries(w: World, a: Action, specs: seq<ProtocolSpec>)
    requires DeliveriesOk(w, specs) && Enabled(w, a)
    ensures DeliveriesOk(Step(w, a, specs), specs)
  {
    StepPeers(w, a, specs);
    if Subject(w, a).Some? {
      AfterOk(w, a, specs);
    }
  }
}
