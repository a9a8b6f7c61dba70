/** The supervisor of one peer, run by one goroutine: its fields are updated step by step. */
module Supervisor {
  import opened Basics
  import opened FamilySpec
  import opened SupervisorSpec
  import opened SupervisorSteps
  import opened Wire

  class PeerSupervisor {
    const id: PeerID
    const order: seq<FamilyCode>
    const specs: Specs
    var conn: Option<Conn>
    var outbound: Option<bool>
    var routes: Routes
    var handles: Handles
    var reading: seq<int>
    /** The current view's streams waiting in transport, and the families' rings. */
    var queues: seq<seq<Stream>>
    var rings: Rings
    ghost var s: Sup

    constructor (id: PeerID, order: seq<FamilyCode>, specs: Specs)
      requires Registered(order, specs)
      ensures Valid() && s == NewSup(id, order, specs)
    {
      this.id, this.order, this.specs := id, order, specs;
      conn, outbound, routes, handles := None, None, map[], map[];
      reading, queues := [0, 0], [[], []];
      rings := map f | f in order :: NEW_WORLD;
      s := NewSup(id, order, specs);
      NewSupInv(id, order, specs);
    }

    ghost predicate Tied()
      reads this
    {
      && s.id == id && s.order == order && s.specs == specs && s.rings == rings
      && s.conn == conn && s.outbound == outbound && s.routes == routes && s.handles == handles
      && s.reading == reading && s.queues == queues
    }

    ghost predicate Valid()
      reads this
    {
      Tied() && SupInv(s)
    }

    // -------------------------------------------------------------------------
    // Reading headers
    // -------------------------------------------------------------------------

    /** Start header reads up to each direction's slot limit; the streams to read are returned. */
    method ReadHeaders() returns (started: seq<Stream>)
      requires Tied() && conn.Some? && |queues| == |reading| == 2
      modifies this
      ensures Tied() && s == SupervisorSpec.ReadHeaders(old(s))
    {
      started := [];
      var more := FillDirection(0);
      started := started + more;
      more := FillDirection(1);
      started := started + more;
    }

    method FillDirection(d: nat) returns (started: seq<Stream>)
      requires Tied() && conn.Some? && |queues| == |reading| == 2 && d < 2
      modifies this
      ensures Tied() && |queues| == |reading| == 2 && conn == old(conn) && s == ReadDirection(old(s), d)
      ensures started + queues[d] == old(queues)[d]
    {
      started := [];
      while reading[d] < MAX_HEADER_READS && |queues[d]| > 0
        invariant Tied() && |queues| == |reading| == 2 && conn.Some?
        invariant conn == old(conn) && ReadDirection(s, d) == ReadDirection(old(s), d)
        invariant started + queues[d] == old(queues)[d]
        decreases |queues[d]|
      {
        var x := queues[d][0];
        Start(d);
        started := started + [x];
      }
    }

    /** Take the next queued stream into a slot. */
    method Start(d: nat)
      requires Tied() && conn.Some? && |queues| == |reading| == 2 && d < 2 && queues[d] != []
      modifies this
      ensures Tied() && s == TakeOne(old(s), d)
    {
      reading := reading[d := reading[d] + 1];
      queues := queues[d := queues[d][1..]];
      s := TakeOne(s, d);
    }

    // -------------------------------------------------------------------------
    // Ending a view
    // -------------------------------------------------------------------------

    method DropView(code: Code)
      requires Valid()
      modifies this
      ensures Valid() && s == SupervisorSpec.DropView(old(s), code)
    {
      DropInv(s, code);
      if conn.None? {
        return;
      }
      End(code);
    }

    method End(code: Code)
      requires Tied() && conn.Some? && |queues| == 2
      modifies this
      ensures Tied() && s == SupervisorSpec.DropView(old(s), code)
    {
      var held := handles;
      reading := [0, 0];
      conn, outbound := None, None;
      routes, handles := map[], map[];
      queues := [[], []];
      CloseHandles(held, code);
      s := SupervisorSpec.DropView(s, code);
    }

    method CloseHandles(held: Handles, code: Code)
      modifies `rings
      ensures rings == CloseAll(old(rings), order, held, code)
    {
      assert order[0..] == order;
      for i := 0 to |order|
        invariant CloseAll(rings, order[i..], held, code) == CloseAll(old(rings), order, held, code)
      {
        var f := order[i];
        assert order[i..][0] == f && order[i..][1..] == order[i + 1..];
        if f in held && f in rings && held[f] in rings[f].peers {
          rings := rings[f := FamilySpec.ClosePeer(rings[f], held[f], code, CLOSING)];
        }
      }
    }

    /** End the view once every handle has ended. */
    method HandleClosed()
      requires Valid()
      modifies this
      ensures Valid() && s == SupervisorSpec.HandleClosed(old(s))
    {
      if conn.None? {
        return;
      }
      var unheld := NoneHolds();
      if unheld {
        DropView(NO_SHARED_PROTOCOLS);
      }
    }

    method NoneHolds() returns (unheld: bool)
      requires Tied() && forall f :: f in handles ==> f in order
      ensures unheld == AllDown(s)
    {
      for i := 0 to |order|
        invariant forall j :: 0 <= j < i ==> Down(order[j])
      {
        if !Down(order[i]) {
          return false;
        }
      }
      return true;
    }

    predicate Down(f: FamilyCode)
      reads this
    {
      f in handles && f in rings && handles[f] in rings[f].peers ==> rings[f].peers[handles[f]].down
    }

    // -------------------------------------------------------------------------
    // A header read ends
    // -------------------------------------------------------------------------

    /** Route or end the stream; on the current view, start the next reads. */
    method HeaderRead(x: Stream, from: Conn, d: nat, result: HeaderResult) returns (how: Settled)
      requires Valid() && d < 2 && x in s.taken && s.taken[x] == Slot(from, d)
      modifies this
      ensures Valid() && s == SupervisorSpec.HeaderRead(old(s), x, result)
      ensures x in s.settled && s.settled[x] == how && x !in old(s).settled
    {
      PerformInv(s, ReadEnds(x, result));
      PerformSettles(s, ReadEnds(x, result));
      if conn != Some(from) {
        how := if result.Parsed? then Stopped(CLOSING) else Stopped(result.code);
        s := Settle(s, x, how);
        return;
      }
      CurrentSettles(s, x, result);
      how := Finish(x, d, result);
    }

    method Finish(x: Stream, d: nat, result: HeaderResult) returns (how: Settled)
      requires Tied() && |queues| == |reading| == 2 && d < 2
      requires x in s.taken && conn.Some? && s.taken[x] == Slot(conn.value, d)
      modifies this
      ensures Tied() && s == SupervisorSpec.HeaderRead(old(s), x, result)
      ensures how == if result.Unread? then Stopped(result.code) else Destination(old(s), result.selector)
    {
      if result.Unread? {
        how := Stopped(result.code);
        Fail(x, d, result.code);
      } else if result.selector.family == CONTROL_FAMILY {
        how := Stopped(CONTROL_VIOLATION);
        Violate(x, d);
      } else {
        how := Route(x, d, result.selector);
      }
    }

    method Fail(x: Stream, d: nat, code: Code)
      requires Tied() && |queues| == |reading| == 2 && d < 2 && conn.Some?
      modifies this
      ensures Tied() && s == SupervisorSpec.ReadHeaders(Settle(Freed(old(s), d), x, Stopped(code)))
    {
      Release(x, d, Stopped(code));
      var _ := ReadHeaders();
    }

    /** A control stream on an admitted view ends the view. */
    method Violate(x: Stream, d: nat)
      requires Tied() && |queues| == |reading| == 2 && d < 2 && conn.Some?
      modifies this
      ensures Tied()
          && s == SupervisorSpec.DropView(Settle(Freed(old(s), d), x, Stopped(CONTROL_VIOLATION)), CONTROL_VIOLATION)
    {
      Release(x, d, Stopped(CONTROL_VIOLATION));
      End(CONTROL_VIOLATION);
    }

    method Route(x: Stream, d: nat, selector: Selector) returns (how: Settled)
      requires Tied() && |queues| == |reading| == 2 && d < 2 && conn.Some? && selector.family != CONTROL_FAMILY
      modifies this
      ensures how == Destination(old(s), selector)
      ensures Tied()
          && s == SupervisorSpec.ReadHeaders(Deliver(Settle(Freed(old(s), d), x, how), x, selector.protocol, how))
    {
      how := if selector in routes then Routed(selector.family, routes[selector]) else Stopped(UNSUPPORTED_SELECTOR);
      Release(x, d, how);
      PushTo(x, selector.protocol, how);
      var _ := ReadHeaders();
    }

    /** Free the slot of a stream whose read ended. */
    method Release(x: Stream, d: nat, how: Settled)
      requires Tied() && |queues| == |reading| == 2 && d < 2
      modifies this
      ensures Tied() && s == Settle(Freed(old(s), d), x, how)
    {
      reading := reading[d := reading[d] - 1];
      s := Settle(Freed(s, d), x, how);
    }

    method PushTo(x: Stream, protocol: Protocol, to: Settled)
      requires Tied()
      modifies this
      ensures Tied() && s == Deliver(old(s), x, protocol, to)
    {
      if to.Routed? && to.family in rings && to.family in specs && to.handle in rings[to.family].peers {
        rings := rings[to.family := PushStream(rings[to.family], specs[to.family], to.handle, Pending(protocol, x))];
      }
      s := Deliver(s, x, protocol, to);
    }

    // -------------------------------------------------------------------------
    // Admission
    // -------------------------------------------------------------------------

    method FindShared(families: set<FamilyCode>) returns (shared: seq<FamilyCode>)
      ensures shared == Shared(order, families)
    {
      shared := [];
      assert order[0..] == order;
      for i := 0 to |order|
        invariant shared + Shared(order[i..], families) == Shared(order, families)
      {
        assert order[i..][1..] == order[i + 1..];
        if order[i] in families {
          shared := shared + [order[i]];
        }
      }
    }

    /** Admit the view, replacing the one held, or say why not. */
    method Attach(stack: Stack, v: Offer) returns (refusal: Option<Code>)
      requires Valid() && CanAct(s, Offered(stack, v))
      modifies this
      ensures Valid() && refusal == Refusal(old(s), stack, v)
      ensures s == if refusal.None? then SupervisorSpec.Attach(old(s), v) else old(s)
    {
      refusal := Decide(stack, v);
      if refusal.None? {
        AttachInv(s, v);
        Take(v);
      }
    }

    method Decide(stack: Stack, v: Offer) returns (refusal: Option<Code>)
      requires Tied() && conn.Some? == outbound.Some?
      ensures refusal == Refusal(s, stack, v)
    {
      if !v.recordOk {
        return Some(CONTROL_VIOLATION);
      }
      var shared := FindShared(v.families);
      if |shared| == 0 {
        return Some(NO_SHARED_PROTOCOLS);
      }
      if stack.closed || (v.outbound && stack.disconnected) {
        return Some(CLOSING);
      }
      if conn.Some? && outbound.value != v.outbound && v.outbound != (stack.self < id) {
        return Some(DUPLICATE);
      }
      return None;
    }

    /** The replaced view's handles end before the new view's begin. */
    method Take(v: Offer)
      requires Tied() && |queues| == |v.queues| == 2 && forall f :: f in order ==> f in rings && f in specs
      modifies this
      ensures Tied() && s == SupervisorSpec.Attach(old(s), v)
    {
      var shared := FindShared(v.families);
      SharedAreRegistered(order, v.families);
      if conn.Some? {
        End(DUPLICATE);
      }
      Open(v, shared);
    }

    /** Set up the view with a handle in each shared family, and start reading. */
    method Open(v: Offer, shared: seq<FamilyCode>)
      requires Tied() && |v.queues| == 2 && forall f :: f in shared ==> f in rings && f in specs
      modifies this
      ensures Tied()
      ensures (EnrolAllKeeps(Begin(old(s), v), shared); s
          == SupervisorSpec.ReadHeaders(EnrolAll(Begin(old(s), v), shared)))
    {
      conn, outbound := Some(v.conn), Some(v.outbound);
      queues, reading := v.queues, [0, 0];
      routes, handles := map[], map[];
      s := Begin(s, v);
      EnrolAllKeeps(s, shared);
      EnterAll(shared);
      var _ := ReadHeaders();
    }

    method EnterAll(shared: seq<FamilyCode>)
      requires Tied() && forall f :: f in shared ==> f in rings && f in specs
      modifies this
      ensures Tied() && s == EnrolAll(old(s), shared)
    {
      assert shared[0..] == shared;
      for i := 0 to |shared|
        invariant Tied() && forall f :: f in shared ==> f in rings && f in specs
        invariant EnrolAll(s, shared[i..]) == EnrolAll(old(s), shared)
      {
        assert shared[i..][0] == shared[i] && shared[i..][1..] == shared[i + 1..];
        Enter(shared[i]);
      }
    }

    method Enter(f: FamilyCode)
      requires Tied() && f in rings && f in specs
      modifies this
      ensures Tied() && s == Enrol(old(s), f)
    {
      var h := rings[f].next;
      rings := rings[f := FamilySpec.AddPeer(rings[f], id)];
      handles := handles[f := h];
      var family := specs[f];
      ghost var before := routes;
      assert family[0..] == family;
      for i := 0 to |family|
        invariant AddRoutes(routes, f, family[i..], h) == AddRoutes(before, f, family, h)
        invariant rings == old(rings)[f := FamilySpec.AddPeer(old(rings)[f], id)] && handles == old(handles)[f := h]
        invariant conn == old(conn) && outbound == old(outbound) && reading == old(reading)
            && queues == old(queues) && s == old(s)
      {
        assert family[i..][0] == family[i] && family[i..][1..] == family[i + 1..];
        routes := routes[Selector(f, family[i].protocol) := h];
      }
      s := Enrol(s, f);
    }
  }
}
