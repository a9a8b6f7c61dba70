/** One remote peer's supervisor as a state machine: views, header slots and routing. */
module SupervisorSpec {
  import opened Basics
  import opened FamilySpec
  import opened Wire

  type Conn = nat
  type FamilyCode = nat
  type Rings = map<FamilyCode, World>
  type Specs = map<FamilyCode, seq<ProtocolSpec>>
  type Handles = map<FamilyCode, Handle>
  type Routes = map<Selector, Handle>

  const CONTROL_FAMILY: FamilyCode := 0
  const MAX_HEADER_READS := 4
  const CLOSING := Code(10, false)
  const CONTROL_VIOLATION := Code(11, false)
  const NO_SHARED_PROTOCOLS := Code(12, false)
  const DUPLICATE := Code(13, false)

  /** A header read in progress: the view and direction its slot belongs to. */
  datatype Slot = Slot(conn: Conn, dir: nat)

  /** What became of a stream: pushed to a handle, or ended with a code. */
  datatype Settled = Routed(family: FamilyCode, handle: Handle) | Stopped(code: Code)

  /** How a header read ended: with a selector, or with the code the reader ended the stream with. */
  datatype HeaderResult = Parsed(selector: Selector) | Unread(code: Code)

  /** A view offered for admission. */
  datatype Offer = Offer(conn: Conn, outbound: bool, recordOk: bool, families: set<FamilyCode>,
      queues: seq<seq<Stream>>)

  /** The stack's side of admission: its own identity, and whether it is closed or abandoned the peer's dial. */
  datatype Stack = Stack(self: PeerID, closed: bool, disconnected: bool)

  /**
   * The supervisor's fields, the current view's transport queues and their signal, the registered
   * families with their rings, and the history: reads in progress, settled streams, views and streams seen.
   */
  datatype Sup = Sup(
    id: PeerID, order: seq<FamilyCode>, specs: Specs, rings: Rings,
    conn: Option<Conn>, outbound: Option<bool>, routes: Routes, handles: Handles,
    reading: seq<int>, queues: seq<seq<Stream>>, signal: bool,
    taken: map<Stream, Slot>, settled: map<Stream, Settled>, used: set<Conn>, seen: set<Stream>)

  // ---------------------------------------------------------------------------
  // Reading headers
  // ---------------------------------------------------------------------------

  /** Take one stream from transport into a slot. */
  function TakeOne(s: Sup, d: nat): Sup
    requires s.conn.Some? && d < |s.queues| && d < |s.reading| && s.queues[d] != []
  {
    var x := s.queues[d][0];
    s.(queues := s.queues[d := s.queues[d][1..]], reading := s.reading[d := s.reading[d] + 1],
       taken := s.taken[x := Slot(s.conn.value, d)])
  }

  /** Fill the direction's slots while its queue has streams. */
  function ReadDirection(s: Sup, d: nat): (t: Sup)
    requires s.conn.Some? && d < |s.queues| == |s.reading|
    ensures t.conn == s.conn && |t.queues| == |t.reading| == |s.reading|
    decreases if d < |s.queues| then |s.queues[d]| else 0
  {
    if s.reading[d] < MAX_HEADER_READS && s.queues[d] != [] then ReadDirection(TakeOne(s, d), d) else s
  }

  function ReadHeaders(s: Sup): Sup
    requires s.conn.Some? && |s.queues| == |s.reading| == 2
  {
    ReadDirection(ReadDirection(s, 0), 1)
  }

  /** Transport accepts a stream and signals. */
  function Arrive(s: Sup, d: nat, x: Stream): Sup
    requires d < |s.queues|
  {
    s.(queues := s.queues[d := s.queues[d] + [x]], seen := s.seen + {x}, signal := true)
  }

  // ---------------------------------------------------------------------------
  // Dropping a view
  // ---------------------------------------------------------------------------

  /** Close the view's handle in each family that has one. */
  function CloseAll(rings: Rings, order: seq<FamilyCode>, handles: Handles, code: Code): (out: Rings)
    ensures out.Keys == rings.Keys
    decreases |order|
  {
    if order == [] then rings
    else
      var f := order[0];
      var first := if f in handles && f in rings && handles[f] in rings[f].peers
                   then rings[f := FamilySpec.ClosePeer(rings[f], handles[f], code, CLOSING)] else rings;
      CloseAll(first, order[1..], handles, code)
  }

  /** Transport resets the streams still queued. */
  function StopAll(settled: map<Stream, Settled>, streams: seq<Stream>, code: Code): map<Stream, Settled>
    decreases |streams|
  {
    if streams == [] then settled else StopAll(settled[streams[0] := Stopped(code)], streams[1..], code)
  }

  function DropView(s: Sup, code: Code): Sup
    requires |s.queues| == 2
  {
    if s.conn.None? then s
    else
      s.(conn := None, outbound := None, routes := map[], handles := map[], reading := [0, 0],
         rings := CloseAll(s.rings, s.order, s.handles, code),
         settled := StopAll(s.settled, s.queues[0] + s.queues[1], CLOSING), queues := [[], []])
  }

  // ---------------------------------------------------------------------------
  // A header read ends
  // ---------------------------------------------------------------------------

  function Settle(s: Sup, x: Stream, how: Settled): Sup {
    s.(taken := s.taken - {x}, settled := s.settled[x := how])
  }

  function Freed(s: Sup, d: nat): Sup
    requires d < |s.reading|
  {
    s.(reading := s.reading[d := s.reading[d] - 1])
  }

  /** Where a stream of the current view with this selector goes. */
  function Destination(s: Sup, selector: Selector): Settled {
    if selector.family == CONTROL_FAMILY then Stopped(CONTROL_VIOLATION)
    else if selector !in s.routes then Stopped(UNSUPPORTED_SELECTOR)
    else Routed(selector.family, s.routes[selector])
  }

  function Deliver(s: Sup, x: Stream, protocol: Protocol, to: Settled): Sup {
    if to.Routed? && to.family in s.rings && to.family in s.specs && to.handle in s.rings[to.family].peers
    then s.(rings := s.rings[to.family := PushStream(s.rings[to.family], s.specs[to.family], to.handle,
        Pending(protocol, x))])
    else s
  }

  function HeaderRead(s: Sup, x: Stream, result: HeaderResult): Sup
    requires x in s.taken && s.taken[x].dir < 2 && |s.queues| == |s.reading| == 2
  {
    var read := s.taken[x];
    if s.conn != Some(read.conn) then
      Settle(s, x, if result.Parsed? then Stopped(CLOSING) else Stopped(result.code))
    else
      var t := Freed(s, read.dir);
      if result.Unread? then ReadHeaders(Settle(t, x, Stopped(result.code)))
      else if result.selector.family == CONTROL_FAMILY then
        DropView(Settle(t, x, Destination(t, result.selector)), CONTROL_VIOLATION)
      else
        var to := Destination(t, result.selector);
        ReadHeaders(Deliver(Settle(t, x, to), x, result.selector.protocol, to))
  }

  // ---------------------------------------------------------------------------
  // Admission
  // ---------------------------------------------------------------------------

  /** The registered families the peer also serves, in registration order. */
  function Shared(order: seq<FamilyCode>, families: set<FamilyCode>): seq<FamilyCode> {
    if order == [] then [] else (if order[0] in families then [order[0]] else []) + Shared(order[1..], families)
  }

  /** With views both ways, the one dialed by the lower peer is kept; else the newer. */
  predicate Loses(self: PeerID, id: PeerID, held: Option<bool>, outbound: bool) {
    held.Some? && held.value != outbound && outbound != (self < id)
  }

  /** Why an offered view is refused; None when it is admitted. */
  function Refusal(s: Sup, stack: Stack, v: Offer): Option<Code> {
    if !v.recordOk then Some(CONTROL_VIOLATION)
    else if Shared(s.order, v.families) == [] then Some(NO_SHARED_PROTOCOLS)
    else if stack.closed then Some(CLOSING)
    else if v.outbound && stack.disconnected then Some(CLOSING)
    else if Loses(stack.self, s.id, s.outbound, v.outbound) then Some(DUPLICATE)
    else None
  }

  /** Give the view a handle in a family, and routes for the family's protocols. */
  function Enrol(s: Sup, f: FamilyCode): Sup
    requires f in s.rings && f in s.specs
  {
    var h := s.rings[f].next;
    s.(rings := s.rings[f := FamilySpec.AddPeer(s.rings[f], s.id)], handles := s.handles[f := h],
       routes := AddRoutes(s.routes, f, s.specs[f], h))
  }

  function AddRoutes(routes: Routes, f: FamilyCode, specs: seq<ProtocolSpec>, h: Handle): Routes
    decreases |specs|
  {
    if specs == [] then routes else AddRoutes(routes[Selector(f, specs[0].protocol) := h], f, specs[1..], h)
  }

  function EnrolAll(s: Sup, families: seq<FamilyCode>): Sup
    requires forall f :: f in families ==> f in s.rings && f in s.specs
    decreases |families|
  {
    if families == [] then s else EnrolAll(Enrol(s, families[0]), families[1..])
  }

  /** Start the offered view with no handles yet. */
  function Begin(s: Sup, v: Offer): Sup
    requires |v.queues| == 2
  {
    s.(conn := Some(v.conn), outbound := Some(v.outbound), queues := v.queues, reading := [0, 0],
       routes := map[], handles := map[], used := s.used + {v.conn},
           seen := s.seen + (set x | x in v.queues[0] + v.queues[1]))
  }

  /** Take a view: the old one is dropped, its handles closed, before the new one's are added. */
  function Attach(s: Sup, v: Offer): Sup
    requires |s.queues| == 2 && |v.queues| == 2 && forall f :: f in s.order ==> f in s.rings && f in s.specs
  {
    var t := Begin(DropView(s, DUPLICATE), v);
    SharedAreRegistered(s.order, v.families);
    EnrolAllKeeps(t, Shared(s.order, v.families));
    ReadHeaders(EnrolAll(t, Shared(s.order, v.families)))
  }

  lemma {:induction false} SharedAreRegistered(order: seq<FamilyCode>, families: set<FamilyCode>)
    ensures forall f :: f in Shared(order, families) <==> f in order && f in families
  {
    if order != [] {
      SharedAreRegistered(order[1..], families);
      assert forall f :: f in order <==> f == order[0] || f in order[1..];
    }
  }

  lemma {:induction false} EnrolAllKeeps(s: Sup, families: seq<FamilyCode>)
    requires forall f :: f in families ==> f in s.rings && f in s.specs
    ensures var t := EnrolAll(s, families);
            t == s.(rings := t.rings, handles := t.handles, routes := t.routes) && t.rings.Keys == s.rings.Keys
    decreases |families|
  {
    if families != [] {
      EnrolAllKeeps(Enrol(s, families[0]), families[1..]);
    }
  }

  /** The view ends once no family holds it. */
  predicate AllDown(s: Sup) {
    forall f :: f in s.handles ==> f in s.rings && s.handles[f] in s.rings[f].peers ==>
        s.rings[f].peers[s.handles[f]].down
  }

  function HandleClosed(s: Sup): Sup
    requires |s.queues| == 2
  {
    if s.conn.None? || !AllDown(s) then s else DropView(s, NO_SHARED_PROTOCOLS)
  }
}
