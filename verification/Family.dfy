/** A family's ring of deliveries, updated in place under the family's mutex. */
module Family {
  import opened Basics
  import opened FamilySpec
  import opened FamilyRuns
  import opened FamilyOrder
  import opened Wire

  /** One handle's delivery; listed says that the ring holds it. */
  datatype PeerDelivery = PeerDelivery(
    peer: PeerID, up: bool, down: bool, code: Code, streams: seq<Pending>, queued: map<Protocol, int>, listed: bool)

  function Face(d: Delivery): PeerDelivery {
    PeerDelivery(d.peer, d.up, d.down, d.code, d.streams, d.queued, d.listed)
  }

  function Faces(peers: map<Handle, Delivery>): map<Handle, PeerDelivery> {
    map h | h in peers :: Face(peers[h])
  }

  lemma FacesUpdate(peers: map<Handle, Delivery>, h: Handle, d: Delivery)
    ensures Faces(peers[h := d]) == Faces(peers)[h := Face(d)]
  {
  }

  class Family {
    const protocols: seq<ProtocolSpec>
    /** Deliveries belong to the family's mutex: they are kept here, by handle. */
    var deliveries: map<Handle, PeerDelivery>
    var next: Handle
    var ready: seq<Handle>
    var wake: bool
    ghost var w: World

    constructor (protocols: seq<ProtocolSpec>)
      ensures Valid() && w == NEW_WORLD && this.protocols == protocols
    {
      this.protocols := protocols;
      deliveries, next, ready, wake := map[], 0, [], false;
      w := NEW_WORLD;
      NewInv(protocols);
    }

    /** The fields are the state machine's, without its history. */
    ghost predicate Tied()
      reads this
    {
      next == w.next && ready == w.ready && wake == w.wake && deliveries == Faces(w.peers)
    }

    ghost predicate Valid()
      reads this
    {
      Tied() && Inv(w, protocols)
    }

    /** The limit for a protocol the family owns, and 0 for any other. */
    method Limit(protocol: Protocol) returns (limit: nat)
      ensures limit == MaxQueued(protocols, protocol)
    {
      assert protocols[0..] == protocols;
      for i := 0 to |protocols|
        invariant MaxQueued(protocols, protocol) == MaxQueued(protocols[i..], protocol)
      {
        if protocols[i].protocol == protocol {
          return protocols[i].maxQueued;
        }
        assert protocols[i..][1..] == protocols[i + 1..];
      }
      return 0;
    }

    method Schedule(h: Handle)
      requires Tied() && h in deliveries
      modifies this
      ensures Tied() && w == FamilySpec.Schedule(old(w), h)
    {
      if !deliveries[h].listed {
        ready := ready + [h];
        deliveries := deliveries[h := deliveries[h].(listed := true)];
      }
      wake := true;
      FacesUpdate(w.peers, h, w.peers[h].(listed := true));
      w := FamilySpec.Schedule(w, h);
    }

    method AddPeer(peer: PeerID) returns (h: Handle)
      requires Valid()
      modifies this
      ensures Valid() && h == old(w).next && w == FamilySpec.AddPeer(old(w), peer)
    {
      StepInv(w, Add(peer), protocols);
      h := Create(peer);
    }

    method Create(peer: PeerID) returns (h: Handle)
      requires Tied()
      modifies this
      ensures Tied() && h == old(w).next && w == FamilySpec.AddPeer(old(w), peer)
    {
      h := next;
      next := next + 1;
      deliveries := deliveries[h := PeerDelivery(peer, false, false, UNSPECIFIED, [], map[], false)];
      FacesUpdate(w.peers, h, NewDelivery(peer));
      w := With(w, h, NewDelivery(peer)).(next := h + 1);
      Schedule(h);
    }

    /** Queue the stream, or hand it back to be reset with the returned code. */
    method Push(h: Handle, protocol: Protocol, stream: Stream) returns (reset: Option<Reset>)
      requires Valid() && h in deliveries
      modifies this
      ensures Valid() && w == PushStream(old(w), protocols, h, Pending(protocol, stream))
      ensures h in w.peers && w.peers[h].resets == old(w).peers[h].resets + (if reset.None? then [] else [reset.value])
    {
      StepInv(w, Give(h, Pending(protocol, stream)), protocols);
      reset := Offer(h, protocol, stream);
    }

    method Offer(h: Handle, protocol: Protocol, stream: Stream) returns (reset: Option<Reset>)
      requires Tied() && h in deliveries
      modifies this
      ensures Tied() && w == PushStream(old(w), protocols, h, Pending(protocol, stream))
      ensures h in w.peers && w.peers[h].resets == old(w).peers[h].resets + (if reset.None? then [] else [reset.value])
    {
      var d, pending := deliveries[h], Pending(protocol, stream);
      if d.down {
        Refuse(h, pending, UNSUPPORTED_SELECTOR);
        return Some(Reset(stream, UNSUPPORTED_SELECTOR));
      }
      var limit := Limit(protocol);
      var count := if protocol in d.queued then d.queued[protocol] else 0;
      if count >= limit {
        Refuse(h, pending, UNSPECIFIED);
        return Some(Reset(stream, UNSPECIFIED));
      }
      Enqueue(h, pending, count);
      Schedule(h);
      return None;
    }

    ghost method Refuse(h: Handle, pending: Pending, code: Code)
      requires Tied() && h in deliveries
      modifies `w
      ensures Tied() && w == With(old(w), h, Refused(old(w).peers[h], pending, code))
    {
      FacesUpdate(w.peers, h, Refused(w.peers[h], pending, code));
      w := With(w, h, Refused(w.peers[h], pending, code));
    }

    method Enqueue(h: Handle, pending: Pending, count: int)
      requires Tied() && h in deliveries && count == Queued(w.peers[h], pending.protocol)
      modifies this
      ensures Tied() && w == With(old(w), h, Enqueued(old(w).peers[h], pending))
    {
      var d := deliveries[h];
      deliveries := deliveries[h := d.(streams := d.streams + [pending],
          queued := d.queued[pending.protocol := count + 1])];
      FacesUpdate(w.peers, h, Enqueued(w.peers[h], pending));
      w := With(w, h, Enqueued(w.peers[h], pending));
    }

    /** End the handle, handing back its queued streams to be reset; false when it had ended. */
    method ClosePeer(h: Handle, code: Code, resetCode: Code) returns (ended: bool, resets: seq<Reset>)
      requires Valid() && h in deliveries
      modifies this
      ensures Valid() && ended == !old(w).peers[h].down
      ensures w == FamilySpec.ClosePeer(old(w), h, code, resetCode)
      ensures h in w.peers && w.peers[h].resets == old(w).peers[h].resets + resets
    {
      StepInv(w, Close(h, code, resetCode), protocols);
      assert DeliveryOk(w.peers[h], protocols);
      ended, resets := Shut(h, code, resetCode);
    }

    method Shut(h: Handle, code: Code, resetCode: Code) returns (ended: bool, resets: seq<Reset>)
      requires Tied() && h in deliveries && RingOk(w) && Turn(w.peers[h])
      modifies this
      ensures Tied() && ended == !old(w).peers[h].down
      ensures w == FamilySpec.ClosePeer(old(w), h, code, resetCode)
      ensures h in w.peers && w.peers[h].resets == old(w).peers[h].resets + resets
    {
      var d := deliveries[h];
      if d.down {
        return false, [];
      }
      End(h, code, resetCode);
      if !d.up {
        if d.listed {
          Unlist(h);
        }
      } else {
        Schedule(h);
      }
      resets := ResetEach(d.streams, resetCode);
      ended := true;
    }

    method End(h: Handle, code: Code, resetCode: Code)
      requires Tied() && h in deliveries
      modifies this
      ensures Tied() && w == With(old(w), h, Ended(old(w).peers[h], code, resetCode))
    {
      deliveries := deliveries[h := deliveries[h].(down := true, code := code, streams := [], queued := map[])];
      FacesUpdate(w.peers, h, Ended(w.peers[h], code, resetCode));
      w := With(w, h, Ended(w.peers[h], code, resetCode));
    }

    /** Take the handle out of the ring. */
    method Unlist(h: Handle)
      requires Tied() && h in deliveries && h in ready && Distinct(ready)
      modifies this
      ensures Tied()
      ensures w == With(old(w), h, old(w).peers[h].(listed := false)).(ready := Without(old(w).ready, h))
    {
      var k :| 0 <= k < |ready| && ready[k] == h;
      WithoutAt(ready, k);
      ready := ready[..k] + ready[k + 1..];
      deliveries := deliveries[h := deliveries[h].(listed := false)];
      FacesUpdate(w.peers, h, w.peers[h].(listed := false));
      w := With(w, h, w.peers[h].(listed := false)).(ready := Without(w.ready, h));
    }

    /** The front handle's turn. */
    method Next() returns (event: Option<Event>)
      requires Valid()
      modifies this
      ensures Valid() && w == FamilySpec.Next(old(w))
      ensures event.None? <==> old(ready) == []
      ensures w.returned == old(w).returned + (if event.None? then [] else [event.value])
    {
      StepInv(w, Take, protocols);
      if |ready| == 0 {
        w := w.(idle := true);
        return None;
      }
      assert ready[0] in ready;
      var turn := Serve();
      event := Some(turn);
    }

    method Serve() returns (event: Event)
      requires Tied() && ready != [] && ready[0] in deliveries
      modifies this
      ensures Tied() && w == FamilySpec.Next(old(w)) && w.returned == old(w).returned + [event]
    {
      var h := ready[0];
      var d;
      d, event := Say(h, deliveries[h], w.peers[h]);
      ready := ready[1..];
      if d.listed {
        ready := ready + [h];
      }
      deliveries := deliveries[h := d];
      NextPeers(w);
      FacesUpdate(w.peers, h, Turned(h, w.peers[h]));
      w := FamilySpec.Next(w);
    }

    /** What a delivery says next, and what is left of it. */
    method Say(h: Handle, from: PeerDelivery, ghost m: Delivery) returns (d: PeerDelivery, event: Event)
      requires from == Face(m)
      ensures d == Face(Turned(h, m)) && event == Served(h, m).1
    {
      if !from.up {
        d := from.(up := true);
        event := PeerUp(h);
      } else if |from.streams| != 0 {
        var p := from.streams[0].protocol;
        d := from.(streams := from.streams[1..],
            queued := from.queued[p := (if p in from.queued then from.queued[p] else 0) - 1]);
        event := StreamIn(h, from.streams[0]);
      } else {
        return from.(listed := false), PeerDown(h, from.code);
      }
      d := d.(listed := |d.streams| != 0 || d.down);
    }

    /** The consumer receives the wake-up. */
    method Await()
      requires Valid() && wake
      modifies this
      ensures Valid() && w == old(w).(wake := false, idle := false)
    {
      StepInv(w, Wake, protocols);
      wake := false;
      w := w.(wake := false, idle := false);
    }
  }

  method ResetEach(streams: seq<Pending>, code: Code) returns (resets: seq<Reset>)
    ensures resets == ResetAll(streams, code)
  {
    resets := [];
    assert streams[0..] == streams;
    for i := 0 to |streams|
      invariant resets + ResetAll(streams[i..], code) == ResetAll(streams, code)
    {
      assert streams[i..][1..] == streams[i + 1..];
      resets := resets + [Reset(streams[i].stream, code)];
    }
  }

  lemma {:induction false} WithoutAt(ready: seq<Handle>, k: nat)
    requires k < |ready| && Distinct(ready)
    ensures Without(ready, ready[k]) == ready[..k] + ready[k + 1..]
  {
    if k == 0 {
      assert ready[..0] + ready[1..] == ready[1..];
    } else {
      var rest := ready[1..];
      assert ready[0] != ready[k] == rest[k - 1];
      WithoutAt(rest, k - 1);
      assert ready[..k] + ready[k + 1..] == [ready[0]] + (rest[..k - 1] + rest[k..]);
    }
  }
}
