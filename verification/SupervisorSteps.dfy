/** Every run of a supervisor with readers, transport, consumers and other peers. */
module SupervisorSteps {
  import opened Basics
  import opened FamilySpec
  import opened FamilyRuns
  import opened FamilyOrder
  import opened SupervisorSpec
  import opened SupervisorRings
  import opened SupervisorRuns
  import opened Wire

  // ---------------------------------------------------------------------------
  // Routes and rings
  // ---------------------------------------------------------------------------

  predicate Owns(specs: seq<ProtocolSpec>, p: Protocol) {
    exists i :: 0 <= i < |specs| && specs[i].protocol == p
  }

  ghost predicate RouteAt(routes: Routes, handles: Handles, specs: Specs, x: Selector) {
    && (x in routes <==> x.family in handles && x.family in specs && Owns(specs[x.family], x.protocol))
    && (x in routes ==> routes[x] == handles[x.family])
  }

  /** The routes are those of the view's handles, for the protocols their families own. */
  ghost predicate RoutesOk(routes: Routes, handles: Handles, specs: Specs) {
    forall x :: RouteAt(routes, handles, specs, x)
  }

  /** Families are registered once, each with at least one protocol. */
  ghost predicate Registered(order: seq<FamilyCode>, specs: Specs) {
    Distinct(order) && forall f :: f in order ==> f in specs && specs[f] != []
  }

  ghost predicate OrderOk(order: seq<FamilyCode>, specs: Specs, rings: Rings) {
    && Registered(order, specs)
    && (forall f :: f in order <==> f in rings) && (forall f :: f in rings ==> f in specs)
  }

  ghost predicate RingsOk(s: Sup) {
    && OrderOk(s.order, s.specs, s.rings) && AllRings(s.rings, s.specs)
    && Owned(s.rings, s.id, s.handles, s.order) && Held(s.rings, s.id, s.handles)
  }

  /** The view's connection, direction, handles and routes are all set, or all clear. */
  ghost predicate AllOrNone(s: Sup) {
    && (s.conn.Some? <==> s.outbound.Some?) && (s.conn.Some? <==> s.handles != map[])
    && (s.conn.Some? <==> s.routes != map[])
  }

  /** What holds between the parts of a step, too. */
  ghost predicate Calm(s: Sup) {
    Steady(s) && AllOrNone(s) && RoutesOk(s.routes, s.handles, s.specs) && RingsOk(s)
  }

  ghost predicate SupInv(s: Sup) {
    Calm(s) && NoneWaits(s)
  }

  /** A view with a handle has a route: the handle's family owns a protocol. */
  lemma HandlesHaveRoutes(s: Sup)
    requires RoutesOk(s.routes, s.handles, s.specs) && RingsOk(s) && s.handles != map[]
    ensures s.routes != map[]
  {
    var f :| f in s.handles;
    assert f in s.rings && f in s.order;
    var x := Selector(f, s.specs[f][0].protocol);
    assert Owns(s.specs[f], x.protocol);
    assert RouteAt(s.routes, s.handles, s.specs, x);
  }

  lemma {:induction false} AddRoutesAt(routes: Routes, f: FamilyCode, specs: seq<ProtocolSpec>, h: Handle, x: Selector)
    ensures x in AddRoutes(routes, f, specs, h) <==> x in routes || (x.family == f && Owns(specs, x.protocol))
    ensures x.family == f && Owns(specs, x.protocol) ==> AddRoutes(routes, f, specs, h)[x] == h
    ensures x in routes && !(x.family == f && Owns(specs, x.protocol)) ==>
        AddRoutes(routes, f, specs, h)[x] == routes[x]
    decreases |specs|
  {
    if specs != [] {
      AddRoutesAt(routes[Selector(f, specs[0].protocol) := h], f, specs[1..], h, x);
      OwnsHead(specs, x.protocol);
    }
  }

  lemma OwnsHead(specs: seq<ProtocolSpec>, p: Protocol)
    requires specs != []
    ensures Owns(specs, p) <==> specs[0].protocol == p || Owns(specs[1..], p)
  {
    if Owns(specs, p) {
      var i :| 0 <= i < |specs| && specs[i].protocol == p;
      if i > 0 {
        assert specs[1..][i - 1].protocol == p;
      }
    }
    if Owns(specs[1..], p) {
      var i :| 0 <= i < |specs| - 1 && specs[1..][i].protocol == p;
      assert specs[i + 1].protocol == p;
    }
  }

  lemma EnrolRoutes(s: Sup, f: FamilyCode)
    requires f in s.rings && f in s.specs && f !in s.handles && RoutesOk(s.routes, s.handles, s.specs)
    ensures RoutesOk(Enrol(s, f).routes, Enrol(s, f).handles, s.specs)
  {
    var t := Enrol(s, f);
    forall x
      ensures RouteAt(t.routes, t.handles, s.specs, x)
    {
      assert RouteAt(s.routes, s.handles, s.specs, x);
      AddRoutesAt(s.routes, f, s.specs[f], s.rings[f].next, x);
    }
  }

  /** The view has no handle yet in any of the families. */
  ghost predicate EnrolReady(s: Sup, families: seq<FamilyCode>) {
    Distinct(families) && forall f :: f in families ==> f in s.rings && f in s.specs && f !in s.handles
  }

  lemma EnrolReadyNext(s: Sup, families: seq<FamilyCode>)
    requires families != [] && EnrolReady(s, families)
    ensures families[0] in s.rings && families[0] in s.specs && families[0] !in s.handles
    ensures EnrolReady(Enrol(s, families[0]), families[1..])
  {
    assert families[0] in families;
    assert forall g :: g in families[1..] ==> g in families && g != families[0];
  }

  lemma OrderKept(order: seq<FamilyCode>, specs: Specs, rings: Rings, f: FamilyCode, w: World)
    requires OrderOk(order, specs, rings) && f in rings
    ensures OrderOk(order, specs, rings[f := w]) && f in order && f in specs
  {
  }

  lemma EnrolRings(s: Sup, f: FamilyCode)
    requires RingsOk(s) && f in s.rings && f !in s.handles
    ensures f in s.specs && RingsOk(Enrol(s, f))
  {
    OrderKept(s.order, s.specs, s.rings, f, FamilySpec.AddPeer(s.rings[f], s.id));
    EnrolOwned(s, f);
  }

  /** Enrolling in every shared family keeps the rings in order: no peer ever has two live handles. */
  lemma {:induction false} EnrolAllOk(s: Sup, families: seq<FamilyCode>)
    requires RingsOk(s) && RoutesOk(s.routes, s.handles, s.specs) && EnrolReady(s, families)
    ensures RingsOk(EnrolAll(s, families))
        && RoutesOk(EnrolAll(s, families).routes, EnrolAll(s, families).handles, s.specs)
    decreases |families|
  {
    if families != [] {
      EnrolReadyNext(s, families);
      EnrolRings(s, families[0]);
      EnrolRoutes(s, families[0]);
      EnrolAllOk(Enrol(s, families[0]), families[1..]);
    }
  }

  lemma {:induction false} SharedDistinct(order: seq<FamilyCode>, families: set<FamilyCode>)
    requires Distinct(order)
    ensures Distinct(Shared(order, families))
  {
    if order != [] {
      SharedDistinct(order[1..], families);
      SharedAreRegistered(order[1..], families);
      var rest, shared := Shared(order[1..], families), Shared(order, families);
      assert order[0] !in order[1..];
      assert forall k :: 0 <= k < |rest| ==> rest[k] in rest;
      if order[0] in families {
        assert forall j :: 0 < j < |shared| ==> shared[j] == rest[j - 1];
      }
    }
  }

  lemma DropViewRings(s: Sup, code: Code)
    requires Steady(s) && RingsOk(s) && RoutesOk(s.routes, s.handles, s.specs)
    ensures RingsOk(DropView(s, code)) && RoutesOk(DropView(s, code).routes, DropView(s, code).handles, s.specs)
  {
    if s.conn.Some? {
      NoRoutes(s.specs);
      ClosedRings(s.id, s.order, s.specs, s.rings, s.handles, code);
    }
  }

  lemma NoRoutes(specs: Specs)
    ensures RoutesOk(map[], map[], specs)
  {
    assert forall x :: RouteAt(map[], map[], specs, x);
  }

  lemma ClosedRings(id: PeerID, order: seq<FamilyCode>, specs: Specs, rings: Rings, handles: Handles, code: Code)
    requires OrderOk(order, specs, rings) && AllRings(rings, specs) && Owned(rings, id, handles, order)
        && Held(rings, id, handles)
    ensures var out := CloseAll(rings, order, handles, code);
            OrderOk(order, specs, out) && AllRings(out, specs) && Owned(out, id, map[], order) && Held(out, id, map[])
  {
    CloseAllFrees(rings, specs, id, handles, order, code);
    NoneOwned(CloseAll(rings, order, handles, code), id, handles, order);
  }

  // ---------------------------------------------------------------------------
  // Steps
  // ---------------------------------------------------------------------------

  datatype Act =
    | Signalled
    | Arrives(dir: nat, stream: Stream)
    | ReadEnds(stream: Stream, result: HeaderResult)
    | Offered(stack: Stack, offer: Offer)
    | Drops(code: Code)
    | HandleEnds
    | RingMoves(family: FamilyCode, action: Action)

  /**
   * Connections and streams are new when they appear. Another peer's supervisor adds a handle only
   * once its earlier ones have ended, as this one does.
   */
  ghost predicate CanAct(s: Sup, a: Act)
    requires FieldsOk(s)
  {
    match a
    case Signalled => s.conn.Some?
    case Arrives(d, x) => s.conn.Some? && d < 2 && x !in s.seen
    case ReadEnds(x, _) => x in s.taken && s.taken[x].dir < 2
    case Offered(_, v) =>
      && v.conn !in s.used && |v.queues| == 2 && Distinct(v.queues[0] + v.queues[1])
      && (forall x :: x in v.queues[0] + v.queues[1] ==> x !in s.seen)
      && (forall f :: f in s.order ==> f in s.rings && f in s.specs)
    case Drops(_) => true
    case HandleEnds => true
    case RingMoves(f, x) =>
      && f in s.rings && f in s.specs && Enabled(s.rings[f], x)
      && (x.Add? ==> x.peer != s.id && Free(s.rings[f], x.peer))
  }

  ghost function Perform(s: Sup, a: Act): Sup
    requires FieldsOk(s) && CanAct(s, a)
  {
    match a
    case Signalled => ReadHeaders(s.(signal := false))
    case Arrives(d, x) => Arrive(s, d, x)
    case ReadEnds(x, result) => HeaderRead(s, x, result)
    case Offered(stack, v) => if Refusal(s, stack, v).None? then Attach(s, v) else s
    case Drops(code) => DropView(s, code)
    case HandleEnds => HandleClosed(s)
    case RingMoves(f, x) => s.(rings := Stepped(s.rings, s.specs, f, x))
  }

  lemma SameRings(s: Sup, t: Sup)
    requires RingsOk(s) && RoutesOk(s.routes, s.handles, s.specs)
    requires t.id == s.id && t.order == s.order && t.specs == s.specs && t.rings == s.rings
        && t.handles == s.handles && t.routes == s.routes
    ensures RingsOk(t) && RoutesOk(t.routes, t.handles, t.specs)
  {
  }

  lemma ReadHeadersInv(s: Sup)
    requires Calm(s) && s.conn.Some?
    ensures SupInv(ReadHeaders(s))
  {
    ReadHeadersOk(s);
    assert Rest(ReadHeaders(s)) == Rest(s);
    SameRings(s, ReadHeaders(s));
  }

  lemma SignalledInv(s: Sup)
    requires SupInv(s) && s.conn.Some?
    ensures SupInv(ReadHeaders(s.(signal := false)))
  {
    var t := s.(signal := false);
    SameRings(s, t);
    SameSteady(s, t);
    ReadHeadersInv(t);
  }

  lemma SameSteady(s: Sup, t: Sup)
    requires Steady(s) && t.conn == s.conn && t.outbound == s.outbound && t.routes == s.routes && t.handles == s.handles
    requires t.reading == s.reading && t.queues == s.queues && t.taken == s.taken && t.settled == s.settled
    requires t.used == s.used && t.seen == s.seen
    ensures Steady(t)
  {
  }

  lemma ArriveSteady(s: Sup, d: nat, x: Stream)
    requires Steady(s) && s.conn.Some? && d < 2 && x !in s.seen
    ensures Steady(Arrive(s, d, x)) && NoneWaits(Arrive(s, d, x))
  {
    assert x !in SupervisorRuns.Queued(s);
    QueuedMore(s.queues[0], s.queues[1], d, x);
    assert SupervisorRuns.Queued(Arrive(s, d, x))
        == if d == 0 then s.queues[0] + [x] + s.queues[1] else s.queues[0] + (s.queues[1] + [x]);
  }

  lemma ArrivesInv(s: Sup, d: nat, x: Stream)
    requires SupInv(s) && s.conn.Some? && d < 2 && x !in s.seen
    ensures SupInv(Arrive(s, d, x))
  {
    ArriveSteady(s, d, x);
    SameRings(s, Arrive(s, d, x));
  }

  lemma QueuedMore(a: seq<Stream>, b: seq<Stream>, d: nat, x: Stream)
    requires Distinct(a + b) && x !in a + b
    ensures var r := if d == 0 then a + [x] + b else a + (b + [x]);
            Distinct(r) && forall y :: y in r <==> y in a + b || y == x
  {
    var q := a + b;
    var r := if d == 0 then a + [x] + b else a + (b + [x]);
    var k := if d == 0 then |a| else |q|;
    assert r == q[..k] + [x] + q[k..];
    InsertOne(q, k, x);
  }

  lemma InsertOne(q: seq<Stream>, k: nat, x: Stream)
    requires Distinct(q) && x !in q && k <= |q|
    ensures Distinct(q[..k] + [x] + q[k..])
    ensures forall y :: y in q[..k] + [x] + q[k..] <==> y in q || y == x
  {
    var r := q[..k] + [x] + q[k..];
    assert forall i :: 0 <= i < |r| ==> r[i] == (if i < k then q[i] else if i == k then x else q[i - 1]);
    forall y | y in q
      ensures y in r
    {
      var i :| 0 <= i < |q| && q[i] == y;
      assert r[if i < k then i else i + 1] == y;
    }
  }

  /** Delivering a stream is one push on its family's ring. */
  lemma DeliverRings(s: Sup, x: Stream, protocol: Protocol, to: Settled)
    requires RingsOk(s) && RoutesOk(s.routes, s.handles, s.specs)
    ensures RingsOk(Deliver(s, x, protocol, to))
        && RoutesOk(Deliver(s, x, protocol, to).routes, Deliver(s, x, protocol, to).handles, s.specs)
  {
    if to.Routed? && to.family in s.rings && to.family in s.specs && to.handle in s.rings[to.family].peers {
      RingMovesRings(s, to.family, Give(to.handle, Pending(protocol, x)));
    }
  }

  lemma RingMovesRings(s: Sup, f: FamilyCode, x: Action)
    requires RingsOk(s) && f in s.rings && f in s.specs && Enabled(s.rings[f], x)
    requires x.Add? ==> x.peer != s.id && Free(s.rings[f], x.peer)
    ensures RingsOk(s.(rings := Stepped(s.rings, s.specs, f, x)))
  {
    OrderKept(s.order, s.specs, s.rings, f, Step(s.rings[f], x, s.specs[f]));
    SteppedGood(s.rings, s.specs, f, x);
    SteppedHeld(s.rings, s.specs, s.id, s.handles, f, x);
    SteppedOwned(s.rings, s.specs, s.id, s.handles, s.order, f, x);
  }

  lemma RingMovesInv(s: Sup, f: FamilyCode, x: Action)
    requires SupInv(s) && f in s.rings && f in s.specs && Enabled(s.rings[f], x)
    requires x.Add? ==> x.peer != s.id && Free(s.rings[f], x.peer)
    ensures SupInv(s.(rings := Stepped(s.rings, s.specs, f, x)))
  {
    RingMovesRings(s, f, x);
    SameSteady(s, s.(rings := Stepped(s.rings, s.specs, f, x)));
  }

  // ---------------------------------------------------------------------------
  // A header read ends
  // ---------------------------------------------------------------------------

  lemma StaleInv(s: Sup, x: Stream, how: Settled)
    requires SupInv(s) && x in s.taken && s.conn != Some(s.taken[x].conn)
    ensures SupInv(Settle(s, x, how))
  {
    SettleOk(s, x, how);
    StaleSlots(s, x, how);
    SameRings(s, Settle(s, x, how));
  }

  /** The slot freed and the stream settled, before the next reads start. */
  lemma FreedSteady(s: Sup, x: Stream, how: Settled)
    requires Steady(s) && x in s.taken && s.conn == Some(s.taken[x].conn)
    ensures s.taken[x].dir < 2 && Steady(Settle(Freed(s, s.taken[x].dir), x, how))
  {
    FreedSlot(s, x, how);
    var t := Freed(s, s.taken[x].dir);
    assert FieldsOk(t) && StreamsOk(t);
    SettleOk(t, x, how);
  }

  lemma DeliverSteady(s: Sup, x: Stream, protocol: Protocol, to: Settled)
    requires Steady(s)
    ensures Steady(Deliver(s, x, protocol, to)) && Deliver(s, x, protocol, to).conn == s.conn
  {
    SameSteady(s, Deliver(s, x, protocol, to));
  }

  /** One of the view's reads ends: its slot is free and its stream settled. */
  lemma FreedCalm(s: Sup, x: Stream, how: Settled)
    requires Calm(s) && x in s.taken && s.conn == Some(s.taken[x].conn)
    ensures s.taken[x].dir < 2 && Calm(Settle(Freed(s, s.taken[x].dir), x, how))
  {
    FreedSteady(s, x, how);
    SameRings(s, Settle(Freed(s, s.taken[x].dir), x, how));
  }

  lemma DeliverCalm(s: Sup, x: Stream, protocol: Protocol, to: Settled)
    requires Calm(s)
    ensures Calm(Deliver(s, x, protocol, to)) && Deliver(s, x, protocol, to).conn == s.conn
  {
    DeliverSteady(s, x, protocol, to);
    DeliverRings(s, x, protocol, to);
  }

  lemma CurrentInv(s: Sup, x: Stream, result: HeaderResult)
    requires SupInv(s) && x in s.taken && s.taken[x].dir < 2 && s.conn == Some(s.taken[x].conn)
    ensures SupInv(HeaderRead(s, x, result))
  {
    var t := Freed(s, s.taken[x].dir);
    var to := if result.Unread? then Stopped(result.code) else Destination(t, result.selector);
    var u := Settle(t, x, to);
    FreedCalm(s, x, to);
    if result.Unread? {
      ReadHeadersInv(u);
    } else if result.selector.family == CONTROL_FAMILY {
      DropInv(u, CONTROL_VIOLATION);
    } else {
      DeliverCalm(u, x, result.selector.protocol, to);
      ReadHeadersInv(Deliver(u, x, result.selector.protocol, to));
    }
  }

  lemma ReadEndsInv(s: Sup, x: Stream, result: HeaderResult)
    requires SupInv(s) && x in s.taken && s.taken[x].dir < 2
    ensures SupInv(HeaderRead(s, x, result))
  {
    if s.conn == Some(s.taken[x].conn) {
      CurrentInv(s, x, result);
    } else {
      StaleInv(s, x, if result.Parsed? then Stopped(CLOSING) else Stopped(result.code));
    }
  }

  lemma DropInv(s: Sup, code: Code)
    requires Calm(s)
    ensures SupInv(DropView(s, code))
  {
    DropViewOk(s, code);
    DropViewRings(s, code);
  }

  // ---------------------------------------------------------------------------
  // A view is admitted
  // ---------------------------------------------------------------------------

  lemma BeginSteady(s: Sup, v: Offer)
    requires Steady(s) && s.conn.None? && CanAct(s, Offered(Stack(0, false, false), v))
    ensures Steady(Begin(s, v))
  {
    var t := Begin(s, v);
    assert SupervisorRuns.Queued(s) == [];
    assert Outstanding(t.taken, v.conn, 0) == {} && Outstanding(t.taken, v.conn, 1) == {};
  }

  lemma BeginRings(s: Sup, v: Offer)
    requires RingsOk(s) && s.handles == map[] && s.routes == map[] && |v.queues| == 2
    ensures RingsOk(Begin(s, v)) && RoutesOk(Begin(s, v).routes, Begin(s, v).handles, s.specs)
  {
    assert forall x :: RouteAt(map[], map[], s.specs, x);
  }

  lemma EnrolledSteady(s: Sup, families: seq<FamilyCode>)
    requires Steady(s) && s.conn.Some? && forall f :: f in families ==> f in s.rings && f in s.specs
    ensures Steady(EnrolAll(s, families)) && EnrolAll(s, families).conn == s.conn
  {
    EnrolAllKeeps(s, families);
  }

  /** Handles are only added; a view enrolled in some family has one. */
  lemma {:induction false} EnrolledHandles(s: Sup, families: seq<FamilyCode>)
    requires forall f :: f in families ==> f in s.rings && f in s.specs
    ensures s.handles != map[] || families != [] ==> EnrolAll(s, families).handles != map[]
    decreases |families|
  {
    if families != [] {
      var t := Enrol(s, families[0]);
      assert families[0] in t.handles;
      EnrolledHandles(t, families[1..]);
    }
  }

  lemma BegunReady(s: Sup, v: Offer)
    requires SupInv(s) && CanAct(s, Offered(Stack(0, false, false), v))
    ensures var t := Begin(DropView(s, DUPLICATE), v);
            && Steady(t) && t.conn.Some? && RingsOk(t) && RoutesOk(t.routes, t.handles, t.specs)
            && EnrolReady(t, Shared(s.order, v.families))
  {
    var d := DropView(s, DUPLICATE);
    DropInv(s, DUPLICATE);
    DropViewOk(s, DUPLICATE);
    DropKeeps(s, DUPLICATE);
    BeginSteady(d, v);
    BeginRings(d, v);
    SharedAreRegistered(s.order, v.families);
    SharedDistinct(s.order, v.families);
  }

  lemma AttachInv(s: Sup, v: Offer)
    requires SupInv(s) && CanAct(s, Offered(Stack(0, false, false), v)) && Shared(s.order, v.families) != []
    ensures SupInv(Attach(s, v))
  {
    var t, shared := Begin(DropView(s, DUPLICATE), v), Shared(s.order, v.families);
    BegunReady(s, v);
    EnrolAllOk(t, shared);
    EnrolAllKeeps(t, shared);
    EnrolledSteady(t, shared);
    EnrolledHandles(t, shared);
    HandlesHaveRoutes(EnrolAll(t, shared));
    ReadHeadersInv(EnrolAll(t, shared));
  }

  lemma DropKeeps(s: Sup, code: Code)
    requires FieldsOk(s)
    ensures var t := DropView(s, code);
            && t.id == s.id && t.order == s.order && t.specs == s.specs && t.rings.Keys == s.rings.Keys
            && t.used == s.used && t.seen == s.seen && t.handles == map[] && t.routes == map[]
  {
  }

  // ---------------------------------------------------------------------------
  // Runs
  // ---------------------------------------------------------------------------

  /** Every step of every run keeps the invariant. */
  lemma PerformInv(s: Sup, a: Act)
    requires SupInv(s) && CanAct(s, a)
    ensures SupInv(Perform(s, a))
  {
    match a
    case Signalled => SignalledInv(s);
    case Arrives(d, x) => ArrivesInv(s, d, x);
    case ReadEnds(x, result) => ReadEndsInv(s, x, result);
    case Offered(stack, v) =>
      if Refusal(s, stack, v).None? {
        AttachInv(s, v);
      }
    case Drops(code) => DropInv(s, code);
    case HandleEnds => DropInv(s, NO_SHARED_PROTOCOLS);
    case RingMoves(f, x) => RingMovesInv(s, f, x);
  }

  ghost function NewSup(id: PeerID, order: seq<FamilyCode>, specs: Specs): Sup {
    Sup(id, order, specs, map f | f in order :: NEW_WORLD, None, None, map[], map[], [0, 0], [[], []], false, map[],
        map[], {}, {})
  }

  ghost predicate Acts(s: Sup, a: Act, t: Sup) {
    FieldsOk(s) ==> CanAct(s, a) && t == Perform(s, a)
  }

  ghost predicate IsSupRun(states: seq<Sup>, acts: seq<Act>) {
    && |states| == |acts| + 1
    && forall i :: 0 <= i < |acts| ==> Acts(states[i], acts[i], states[i + 1])
  }

  lemma ActsInv(s: Sup, a: Act, t: Sup)
    requires SupInv(s) && Acts(s, a, t)
    ensures SupInv(t)
  {
    PerformInv(s, a);
  }

  lemma NewSupInv(id: PeerID, order: seq<FamilyCode>, specs: Specs)
    requires Registered(order, specs)
    ensures SupInv(NewSup(id, order, specs))
  {
    var s := NewSup(id, order, specs);
    forall f | f in s.rings
      ensures RingGood(s.rings[f], specs[f])
    {
      NewInv(specs[f]);
    }
    assert forall x :: RouteAt(s.routes, s.handles, s.specs, x);
    assert forall f, h :: OwnedAt(s.rings, s.id, s.handles, s.order, f, h);
  }

  /**
   * In every state of every run: counters equal outstanding reads and stay within four, streams are in
   * one place, view fields are all set or all clear, and every family's handles keep their order.
   */
  lemma {:induction false} RunSupInv(states: seq<Sup>, acts: seq<Act>, id: PeerID, order: seq<FamilyCode>, specs: Specs,
      n: nat)
    requires Registered(order, specs)
    requires IsSupRun(states, acts) && states[0] == NewSup(id, order, specs) && n <= |acts|
    ensures SupInv(states[n])
  {
    if n == 0 {
      NewSupInv(id, order, specs);
    } else {
      RunSupInv(states, acts, id, order, specs, n - 1);
      ActsInv(states[n - 1], acts[n - 1], states[n]);
    }
  }

  // ---------------------------------------------------------------------------
  // Each stream is settled once
  // ---------------------------------------------------------------------------

  ghost predicate Extends(before: map<Stream, Settled>, after: map<Stream, Settled>) {
    forall x :: x in before ==> x in after && after[x] == before[x]
  }

  lemma ReadHeadersSettles(s: Sup)
    requires Steady(s) && s.conn.Some?
    ensures ReadHeaders(s).settled == s.settled
  {
    ReadHeadersOk(s);
    assert Rest(ReadHeaders(s)).settled == Rest(s).settled;
  }

  lemma CurrentSettles(s: Sup, x: Stream, result: HeaderResult)
    requires Steady(s) && x in s.taken && s.taken[x].dir < 2 && s.conn == Some(s.taken[x].conn)
    ensures Extends(s.settled, HeaderRead(s, x, result).settled)
    ensures x in HeaderRead(s, x, result).settled
    ensures HeaderRead(s, x, result).settled[x]
        == if result.Unread? then Stopped(result.code) else Destination(s, result.selector)
  {
    var t := Freed(s, s.taken[x].dir);
    var to := if result.Unread? then Stopped(result.code) else Destination(t, result.selector);
    var u := Settle(t, x, to);
    FreedSteady(s, x, to);
    assert x !in s.settled;
    if result.Unread? {
      ReadHeadersSettles(u);
    } else if result.selector.family == CONTROL_FAMILY {
      DropViewOk(u, CONTROL_VIOLATION);
    } else {
      DeliverSteady(u, x, result.selector.protocol, to);
      ReadHeadersSettles(Deliver(u, x, result.selector.protocol, to));
    }
  }

  lemma AttachSettles(s: Sup, v: Offer)
    requires SupInv(s) && CanAct(s, Offered(Stack(0, false, false), v))
    ensures Extends(s.settled, Attach(s, v).settled)
  {
    var t, shared := Begin(DropView(s, DUPLICATE), v), Shared(s.order, v.families);
    DropViewOk(s, DUPLICATE);
    BegunReady(s, v);
    EnrolAllKeeps(t, shared);
    EnrolledSteady(t, shared);
    ReadHeadersSettles(EnrolAll(t, shared));
  }

  lemma TakenIsUnsettled(s: Sup, x: Stream)
    requires Steady(s)
    ensures !(x in s.taken && x in s.settled)
  {
  }

  lemma ReadEndsExtends(s: Sup, x: Stream, result: HeaderResult)
    requires Steady(s) && x in s.taken && s.taken[x].dir < 2 && x !in s.settled
    ensures Extends(s.settled, HeaderRead(s, x, result).settled) && x in HeaderRead(s, x, result).settled
  {
    if s.conn == Some(s.taken[x].conn) {
      CurrentSettles(s, x, result);
    }
  }

  lemma ReadEndsSettles(s: Sup, x: Stream, result: HeaderResult)
    requires SupInv(s) && CanAct(s, ReadEnds(x, result))
    ensures var t := HeaderRead(s, x, result);
            Extends(s.settled, t.settled) && x !in s.settled && x in t.settled && x !in t.taken
  {
    TakenIsUnsettled(s, x);
    ReadEndsExtends(s, x, result);
    ReadEndsInv(s, x, result);
    TakenIsUnsettled(HeaderRead(s, x, result), x);
  }

  lemma PerformExtends(s: Sup, a: Act)
    requires SupInv(s) && CanAct(s, a) && !a.ReadEnds?
    ensures Extends(s.settled, Perform(s, a).settled)
  {
    match a
    case Signalled =>
      SameSteady(s, s.(signal := false));
      ReadHeadersSettles(s.(signal := false));
    case Offered(stack, v) =>
      if Refusal(s, stack, v).None? {
        AttachSettles(s, v);
      }
    case Drops(code) => DropViewOk(s, code);
    case HandleEnds => DropViewOk(s, NO_SHARED_PROTOCOLS);
    case Arrives(_, _) =>
    case RingMoves(_, _) =>
  }

  /** What became of a stream never changes; a read that ends settles its stream. */
  lemma PerformSettles(s: Sup, a: Act)
    requires SupInv(s) && CanAct(s, a)
    ensures Extends(s.settled, Perform(s, a).settled)
    ensures a.ReadEnds? ==>
        a.stream !in s.settled && a.stream in Perform(s, a).settled && a.stream !in Perform(s, a).taken
  {
    if a.ReadEnds? {
      ReadEndsSettles(s, a.stream, a.result);
    } else {
      PerformExtends(s, a);
    }
  }

  lemma ActsSettles(s: Sup, a: Act, t: Sup)
    requires SupInv(s) && Acts(s, a, t)
    ensures Extends(s.settled, t.settled)
  {
    PerformSettles(s, a);
  }

  lemma ExtendsTrans(a: map<Stream, Settled>, b: map<Stream, Settled>, c: map<Stream, Settled>)
    requires Extends(a, b) && Extends(b, c)
    ensures Extends(a, c)
  {
  }

  /** Over every run: once a stream is settled it stays so, the same way. */
  lemma {:induction false} RunSettles(states: seq<Sup>, acts: seq<Act>, id: PeerID, order: seq<FamilyCode>,
      specs: Specs, i: nat, n: nat)
    requires Registered(order, specs)
    requires IsSupRun(states, acts) && states[0] == NewSup(id, order, specs) && i <= n <= |acts|
    ensures Extends(states[i].settled, states[n].settled)
    decreases n
  {
    if i < n {
      RunSettles(states, acts, id, order, specs, i, n - 1);
      RunSupInv(states, acts, id, order, specs, n - 1);
      ActsSettles(states[n - 1], acts[n - 1], states[n]);
      ExtendsTrans(states[i].settled, states[n - 1].settled, states[n].settled);
    }
  }

  /** A routed stream reaches the current view's handle in the family its selector names, as one push. */
  lemma RoutedToHandle(s: Sup, x: Stream, selector: Selector)
    requires SupInv(s) && x in s.taken && s.taken[x].dir < 2 && s.conn == Some(s.taken[x].conn)
    requires selector.family != CONTROL_FAMILY && selector.family in s.handles && selector.family in s.specs
        && Owns(s.specs[selector.family], selector.protocol)
    ensures var t, f := HeaderRead(s, x, Parsed(selector)), selector.family;
            && x in t.settled && t.settled[x] == Routed(f, s.handles[f])
            && t.rings == Stepped(s.rings, s.specs, f, Give(s.handles[f], Pending(selector.protocol, x)))
  {
    CurrentSettles(s, x, Parsed(selector));
    assert RouteAt(s.routes, s.handles, s.specs, selector);
    RoutedRings(s, x, selector, s.handles[selector.family]);
  }

  lemma RoutedRings(s: Sup, x: Stream, selector: Selector, h: Handle)
    requires Steady(s) && x in s.taken && s.taken[x].dir < 2 && s.conn == Some(s.taken[x].conn)
    requires selector.family != CONTROL_FAMILY && Destination(s, selector) == Routed(selector.family, h)
    requires selector.family in s.rings && selector.family in s.specs && h in s.rings[selector.family].peers
    ensures HeaderRead(s, x, Parsed(selector)).rings
        == Stepped(s.rings, s.specs, selector.family, Give(h, Pending(selector.protocol, x)))
  {
    var to := Routed(selector.family, h);
    var t := Settle(Freed(s, s.taken[x].dir), x, to);
    FreedSteady(s, x, to);
    var u := Deliver(t, x, selector.protocol, to);
    DeliverSteady(t, x, selector.protocol, to);
    ReadHeadersOk(u);
    assert Rest(ReadHeaders(u)).rings == Rest(u).rings;
  }
}
