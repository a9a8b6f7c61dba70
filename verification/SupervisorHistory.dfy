/** Which views a supervisor admits and ends, and what becomes of their streams and handles. */
module SupervisorHistory {
  import opened Basics
  import opened FamilySpec
  import opened FamilyRuns
  import opened SupervisorSpec
  import opened SupervisorRings
  import opened SupervisorRuns
  import opened SupervisorSteps
  import opened Wire

  // ---------------------------------------------------------------------------
  // Admission
  // ---------------------------------------------------------------------------

  ghost predicate SharesFamily(s: Sup, v: Offer) {
    exists f :: f in s.order && f in v.families
  }

  /** A view the other way is held, and the lower peer dialed that one. */
  predicate HeldWins(s: Sup, stack: Stack, v: Offer) {
    s.conn.Some? && s.outbound == Some(!v.outbound) && v.outbound == (s.id <= stack.self)
  }

  /** Good record, a shared family, an open stack, no abandoned dial, and no winning view held. */
  ghost predicate Admissible(s: Sup, stack: Stack, v: Offer) {
    && v.recordOk && SharesFamily(s, v) && !stack.closed && !(v.outbound && stack.disconnected)
    && !HeldWins(s, stack, v)
  }

  lemma AdmissibleMeans(s: Sup, stack: Stack, v: Offer)
    requires FieldsOk(s)
    ensures Admissible(s, stack, v) <==> Refusal(s, stack, v).None?
  {
    SharedAreRegistered(s.order, v.families);
    if Shared(s.order, v.families) != [] {
      assert Shared(s.order, v.families)[0] in Shared(s.order, v.families);
    }
  }

  /** The view admitted: its direction, and a handle in exactly the shared families. */
  ghost predicate Admitted(s: Sup, t: Sup, v: Offer) {
    && t.conn == Some(v.conn) && t.outbound == Some(v.outbound)
    && (forall f :: f in t.handles <==> f in s.order && f in v.families)
    && (forall f :: f in t.handles ==>
          f in s.rings && f in t.rings && NewHandle(s.rings[f], t.rings[f], t.handles[f], s.id))
  }

  /** The handle is new, the peer's, and its PeerUp is still to come. */
  predicate NewHandle(w: World, v: World, h: Handle, id: PeerID) {
    h !in w.peers && h in v.peers && v.peers[h].peer == id && !v.peers[h].up && !v.peers[h].down
  }

  lemma {:induction false} EnrolledFamilies(s: Sup, families: seq<FamilyCode>, f: FamilyCode)
    requires Distinct(families) && forall g :: g in families ==> g in s.rings && g in s.specs
    ensures var t := EnrolAll(s, families);
            && (f in t.handles <==> f in s.handles || f in families) && t.rings.Keys == s.rings.Keys
            && (f in t.handles && f !in families ==> t.handles[f] == s.handles[f])
            && (f in s.rings && f !in families ==> t.rings[f] == s.rings[f])
            && (f in families ==> f in s.rings && t.handles[f] == s.rings[f].next
                                  && t.rings[f] == FamilySpec.AddPeer(s.rings[f], s.id))
    decreases |families|
  {
    if families != [] {
      var g := families[0];
      assert g !in families[1..];
      assert forall x :: x in families <==> x == g || x in families[1..];
      EnrolledFamilies(Enrol(s, g), families[1..], f);
    }
  }

  lemma AddedIsNew(w: World, id: PeerID)
    requires RingOk(w)
    ensures NewHandle(w, FamilySpec.AddPeer(w, id), w.next, id)
  {
  }

  lemma AttachAdmits(s: Sup, v: Offer)
    requires SupInv(s) && CanAct(s, Offered(Stack(0, false, false), v))
    ensures Admitted(s, Attach(s, v), v)
  {
    var d := DropView(s, DUPLICATE);
    var t, shared := Begin(d, v), Shared(s.order, v.families);
    BegunReady(s, v);
    DropKeeps(s, DUPLICATE);
    EnrolAllKeeps(t, shared);
    EnrolledSteady(t, shared);
    var e := EnrolAll(t, shared);
    ReadHeadersOk(e);
    assert Rest(ReadHeaders(e)) == Rest(e);
    SharedAreRegistered(s.order, v.families);
    forall f
      ensures f in e.handles <==> f in s.order && f in v.families
      ensures f in e.handles ==> f in s.rings && f in e.rings && NewHandle(s.rings[f], e.rings[f], e.handles[f], s.id)
    {
      EnrolledFamilies(t, shared, f);
      if f in e.handles {
        AddedIsNew(t.rings[f], s.id);
        DropKeepsHandles(s, DUPLICATE, f);
      }
    }
  }

  lemma DropKeepsHandles(s: Sup, code: Code, f: FamilyCode)
    requires FieldsOk(s) && f in s.rings
    ensures f in DropView(s, code).rings && DropView(s, code).rings[f].peers.Keys == s.rings[f].peers.Keys
  {
    if s.conn.Some? {
      CloseAllKeepsHandles(s.rings, s.order, s.handles, code, f);
    }
  }

  lemma {:induction false} CloseAllKeepsHandles(rings: Rings, order: seq<FamilyCode>, handles: Handles, code: Code,
      f: FamilyCode)
    requires f in rings
    ensures CloseAll(rings, order, handles, code)[f].peers.Keys == rings[f].peers.Keys
    decreases |order|
  {
    if order != [] {
      var g := order[0];
      if g in handles && g in rings && handles[g] in rings[g].peers {
        CloseAllKeepsHandles(rings[g := FamilySpec.ClosePeer(rings[g], handles[g], code, CLOSING)], order[1..], handles,
            code, f);
      } else {
        CloseAllKeepsHandles(rings, order[1..], handles, code, f);
      }
    }
  }

  /**
   * At every offer of every run: the view is admitted if and only if its record is good, it shares a family,
   * the stack is open, its dial was not abandoned, and no view held the other way wins; else nothing changes.
   */
  lemma AdmittedIff(states: seq<Sup>, acts: seq<Act>, id: PeerID, order: seq<FamilyCode>, specs: Specs, j: nat)
    requires Registered(order, specs) && IsSupRun(states, acts) && states[0] == NewSup(id, order, specs)
    requires j < |acts| && acts[j].Offered?
    ensures var s, t, v := states[j], states[j + 1], acts[j].offer;
            && (Admissible(s, acts[j].stack, v) <==> t.conn == Some(v.conn))
            && (if Admissible(s, acts[j].stack, v) then Admitted(s, t, v) else t == s)
  {
    var s, v := states[j], acts[j].offer;
    RunSupInv(states, acts, id, order, specs, j);
    assert Acts(s, acts[j], states[j + 1]);
    AdmissibleMeans(s, acts[j].stack, v);
    if Admissible(s, acts[j].stack, v) {
      AttachAdmits(s, v);
    }
  }

  // ---------------------------------------------------------------------------
  // The end of a view
  // ---------------------------------------------------------------------------

  /** The handle is down: with this code, unless it had ended before. */
  ghost predicate HandleEnded(w: World, v: World, h: Handle, code: Code) {
    && h in w.peers && h in v.peers && v.peers[h].down
    && v.peers[h].code == if w.peers[h].down then w.peers[h].code else code
  }

  /** Every handle the view had is down. */
  ghost predicate NoneHolds(s: Sup) {
    forall f :: f in s.handles ==>
      f in s.rings && s.handles[f] in s.rings[f].peers && s.rings[f].peers[s.handles[f]].down
  }

  /** The code the act ends the held view with, if it does. */
  ghost function EndsView(s: Sup, a: Act): Option<Code> {
    if s.conn.None? then None
    else
      match a
      case Drops(code) => Some(code)
      case HandleEnds => if NoneHolds(s) then Some(NO_SHARED_PROTOCOLS) else None
      case Offered(stack, v) => if Admissible(s, stack, v) then Some(DUPLICATE) else None
      case ReadEnds(x, Parsed(selector)) =>
        if selector.family == CONTROL_FAMILY && x in s.taken && s.taken[x].conn == s.conn.value
        then Some(CONTROL_VIOLATION) else None
      case _ => None
  }

  /** The view has ended: its queued streams were reset as closing and its handles ended with the code. */
  ghost predicate ViewEnded(s: Sup, t: Sup, code: Code) {
    && |s.queues| == 2
    && (forall x :: x in SupervisorRuns.Queued(s) ==> x in t.settled && t.settled[x] == Stopped(CLOSING))
    && (forall f :: f in s.handles ==>
          f in s.rings && f in t.rings && HandleEnded(s.rings[f], t.rings[f], s.handles[f], code))
  }

  lemma {:induction false} StopAllAt(settled: map<Stream, Settled>, streams: seq<Stream>, code: Code, x: Stream)
    requires x in streams
    ensures x in StopAll(settled, streams, code) && StopAll(settled, streams, code)[x] == Stopped(code)
    decreases |streams|
  {
    var next := settled[streams[0] := Stopped(code)];
    if x in streams[1..] {
      StopAllAt(next, streams[1..], code, x);
    } else {
      StopAllKeys(next, streams[1..], code);
    }
  }

  lemma {:induction false} CloseAllEnds(rings: Rings, order: seq<FamilyCode>, handles: Handles, code: Code,
      f: FamilyCode)
    requires Distinct(order) && f in rings && f in handles && handles[f] in rings[f].peers
    ensures CloseAll(rings, order, handles, code)[f]
        == if f in order then FamilySpec.ClosePeer(rings[f], handles[f], code, CLOSING) else rings[f]
    decreases |order|
  {
    if order != [] {
      var g := order[0];
      assert g !in order[1..];
      assert f in order <==> f == g || f in order[1..];
      if g in handles && g in rings && handles[g] in rings[g].peers {
        var next := rings[g := FamilySpec.ClosePeer(rings[g], handles[g], code, CLOSING)];
        ClosedIsDown(rings[g], handles[g], code, CLOSING);
        CloseAllEnds(next, order[1..], handles, code, f);
      } else {
        CloseAllEnds(rings, order[1..], handles, code, f);
      }
    }
  }

  lemma ClosedEnds(w: World, h: Handle, code: Code)
    requires h in w.peers
    ensures HandleEnded(w, FamilySpec.ClosePeer(w, h, code, CLOSING), h, code)
  {
  }

  lemma DropEnds(s: Sup, code: Code)
    requires FieldsOk(s) && RingsOk(s) && s.conn.Some?
    ensures ViewEnded(s, DropView(s, code), code)
  {
    var t := DropView(s, code);
    forall x | x in SupervisorRuns.Queued(s)
      ensures x in t.settled && t.settled[x] == Stopped(CLOSING)
    {
      StopAllAt(s.settled, SupervisorRuns.Queued(s), CLOSING, x);
    }
    forall f | f in s.handles
      ensures f in s.rings && f in t.rings && HandleEnded(s.rings[f], t.rings[f], s.handles[f], code)
    {
      CloseAllEnds(s.rings, s.order, s.handles, code, f);
      ClosedEnds(s.rings[f], s.handles[f], code);
    }
  }

  /** A handle that ended stays so when another is added. */
  lemma EndedAfterAdd(w: World, v: World, h: Handle, code: Code, id: PeerID)
    requires HandleEnded(w, v, h, code) && h != v.next
    ensures HandleEnded(w, FamilySpec.AddPeer(v, id), h, code)
  {
  }

  lemma AttachEnds(s: Sup, v: Offer, t: Sup)
    requires FieldsOk(s) && CanAct(s, Offered(Stack(0, false, false), v)) && s.conn.Some? && t == Attach(s, v)
    requires SupInv(s)
    ensures ViewEnded(s, t, DUPLICATE)
  {
    var d := DropView(s, DUPLICATE);
    var b, shared := Begin(d, v), Shared(s.order, v.families);
    DropEnds(s, DUPLICATE);
    BegunReady(s, v);
    EnrolAllKeeps(b, shared);
    EnrolledSteady(b, shared);
    var e := EnrolAll(b, shared);
    ReadHeadersOk(e);
    assert Rest(ReadHeaders(e)) == Rest(e);
    forall f | f in s.handles
      ensures f in e.rings && HandleEnded(s.rings[f], e.rings[f], s.handles[f], DUPLICATE)
    {
      EnrolledFamilies(b, shared, f);
      if f in shared {
        assert RingOk(b.rings[f]);
        EndedAfterAdd(s.rings[f], b.rings[f], s.handles[f], DUPLICATE, s.id);
      }
    }
  }

  lemma ViolationEnds(s: Sup, x: Stream, selector: Selector)
    requires FieldsOk(s) && RingsOk(s) && x in s.taken && s.taken[x].dir < 2 && s.conn == Some(s.taken[x].conn)
    requires selector.family == CONTROL_FAMILY
    ensures ViewEnded(s, HeaderRead(s, x, Parsed(selector)), CONTROL_VIOLATION)
    ensures HeaderRead(s, x, Parsed(selector)).conn.None?
  {
    var u := Settle(Freed(s, s.taken[x].dir), x, Stopped(CONTROL_VIOLATION));
    SameRingsOk(s, u);
    DropEnds(u, CONTROL_VIOLATION);
    SameEnded(s, u, DropView(u, CONTROL_VIOLATION), CONTROL_VIOLATION);
  }

  lemma SameRingsOk(s: Sup, u: Sup)
    requires RingsOk(s) && u.id == s.id && u.order == s.order && u.specs == s.specs && u.rings == s.rings
    requires u.handles == s.handles
    ensures RingsOk(u)
  {
  }

  lemma SameEnded(s: Sup, u: Sup, t: Sup, code: Code)
    requires ViewEnded(u, t, code) && u.queues == s.queues && u.handles == s.handles && u.rings == s.rings
    ensures ViewEnded(s, t, code)
  {
    assert SupervisorRuns.Queued(u) == SupervisorRuns.Queued(s);
  }

  ghost predicate SameView(s: Sup, t: Sup) {
    t.conn == s.conn && t.outbound == s.outbound && t.handles == s.handles && t.routes == s.routes
  }

  lemma ReadKeeps(s: Sup)
    requires Steady(s) && s.conn.Some?
    ensures SameView(s, ReadHeaders(s))
  {
    ReadHeadersOk(s);
    assert Rest(ReadHeaders(s)) == Rest(s);
  }

  lemma SignalKeepsView(s: Sup)
    requires Steady(s) && s.conn.Some?
    ensures SameView(s, ReadHeaders(s.(signal := false)))
  {
    SameSteady(s, s.(signal := false));
    ReadKeeps(s.(signal := false));
  }

  lemma UnreadKeepsView(s: Sup, x: Stream, code: Code)
    requires Steady(s) && x in s.taken && s.taken[x].dir < 2 && s.conn == Some(s.taken[x].conn)
    ensures SameView(s, HeaderRead(s, x, Unread(code)))
  {
    FreedSteady(s, x, Stopped(code));
    ReadKeeps(Settle(Freed(s, s.taken[x].dir), x, Stopped(code)));
  }

  lemma RoutedKeepsView(s: Sup, x: Stream, selector: Selector)
    requires Steady(s) && x in s.taken && s.taken[x].dir < 2 && s.conn == Some(s.taken[x].conn)
    requires selector.family != CONTROL_FAMILY
    ensures SameView(s, HeaderRead(s, x, Parsed(selector)))
  {
    var to := Destination(s, selector);
    var u := Settle(Freed(s, s.taken[x].dir), x, to);
    FreedSteady(s, x, to);
    DeliverSteady(u, x, selector.protocol, to);
    ReadKeeps(Deliver(u, x, selector.protocol, to));
  }

  /** Any other end of a read leaves the view held. */
  lemma ReadKeepsView(s: Sup, x: Stream, result: HeaderResult)
    requires Steady(s) && x in s.taken && s.taken[x].dir < 2 && EndsView(s, ReadEnds(x, result)).None?
    ensures SameView(s, HeaderRead(s, x, result))
  {
    if s.conn == Some(s.taken[x].conn) {
      match result
      case Unread(code) => UnreadKeepsView(s, x, code);
      case Parsed(selector) => RoutedKeepsView(s, x, selector);
    }
  }

  lemma NoneHoldsMeans(s: Sup)
    requires RingsOk(s)
    ensures NoneHolds(s) <==> AllDown(s)
  {
  }

  lemma ActEnds(s: Sup, a: Act)
    requires SupInv(s) && CanAct(s, a) && EndsView(s, a).Some?
    ensures ViewEnded(s, Perform(s, a), EndsView(s, a).value)
    ensures a.Offered? || Perform(s, a).conn.None?
  {
    match a
    case Drops(code) => DropEnds(s, code);
    case HandleEnds =>
      NoneHoldsMeans(s);
      DropEnds(s, NO_SHARED_PROTOCOLS);
    case Offered(stack, v) =>
      AdmissibleMeans(s, stack, v);
      AttachEnds(s, v, Perform(s, a));
    case ReadEnds(x, result) => ViolationEnds(s, x, result.selector);
  }

  lemma ActKeepsView(s: Sup, a: Act)
    requires FieldsOk(s) && CanAct(s, a) && EndsView(s, a).None? && Steady(s) && RingsOk(s)
    requires !(a.Offered? && Admissible(s, a.stack, a.offer))
    ensures SameView(s, Perform(s, a))
  {
    match a
    case Signalled => SignalKeepsView(s);
    case ReadEnds(x, result) => ReadKeepsView(s, x, result);
    case Offered(stack, v) => AdmissibleMeans(s, stack, v);
    case HandleEnds => NoneHoldsMeans(s);
    case _ =>
  }

  /**
   * At every act of every run: a view ends exactly when it is dropped, no family holds it, a control stream
   * follows its first, or another is admitted; then the streams it had queued are reset as closing, and its
   * handles end with that code. Without an end or an admission the view is untouched.
   */
  lemma ViewEndsIff(states: seq<Sup>, acts: seq<Act>, id: PeerID, order: seq<FamilyCode>, specs: Specs, j: nat)
    requires Registered(order, specs) && IsSupRun(states, acts) && states[0] == NewSup(id, order, specs) && j < |acts|
    ensures var s, t, a := states[j], states[j + 1], acts[j];
            && (EndsView(s, a).Some? <==> s.conn.Some? && t.conn != s.conn)
            && (EndsView(s, a).Some? ==> ViewEnded(s, t, EndsView(s, a).value))
            && (EndsView(s, a).None? ==> SameView(s, t) || (a.Offered? && Admissible(s, a.stack, a.offer)))
  {
    var s, a := states[j], acts[j];
    RunSupInv(states, acts, id, order, specs, j);
    assert Acts(s, a, states[j + 1]);
    if EndsView(s, a).Some? {
      ActEnds(s, a);
      if a.Offered? {
        AdmittedIff(states, acts, id, order, specs, j);
      }
    } else if !(a.Offered? && Admissible(s, a.stack, a.offer)) {
      ActKeepsView(s, a);
    }
  }

  // ---------------------------------------------------------------------------
  // Histories
  // ---------------------------------------------------------------------------

  /** The act admitted the view. */
  ghost predicate AdmitsAt(states: seq<Sup>, acts: seq<Act>, j: int, c: Conn, outbound: bool) {
    && 0 <= j < |acts| < |states| && acts[j].Offered? && acts[j].offer.conn == c && acts[j].offer.outbound == outbound
    && Admissible(states[j], acts[j].stack, acts[j].offer)
  }

  /** In every state of every run a view held was admitted by an earlier offer that met every condition. */
  lemma {:induction false} HeldWasAdmitted(states: seq<Sup>, acts: seq<Act>, id: PeerID, order: seq<FamilyCode>,
      specs: Specs, n: nat) returns (j: nat)
    requires Registered(order, specs) && IsSupRun(states, acts) && states[0] == NewSup(id, order, specs) && n <= |acts|
    requires states[n].conn.Some? && states[n].outbound.Some?
    ensures j < n && AdmitsAt(states, acts, j, states[n].conn.value, states[n].outbound.value)
  {
    var s, a := states[n - 1], acts[n - 1];
    ViewEndsIff(states, acts, id, order, specs, n - 1);
    if a.Offered? && Admissible(s, a.stack, a.offer) {
      AdmittedIff(states, acts, id, order, specs, n - 1);
      j := n - 1;
    } else {
      RunSupInv(states, acts, id, order, specs, n - 1);
      if EndsView(s, a).Some? {
        assert Acts(s, a, states[n]);
        ActEnds(s, a);
      }
      j := HeldWasAdmitted(states, acts, id, order, specs, n - 1);
    }
  }

  /** Where a stream goes whose read ends: read on another view, unread, a control stream, or by its selector. */
  ghost function DueFor(s: Sup, from: Conn, result: HeaderResult): Settled {
    match result
    case Unread(code) => Stopped(code)
    case Parsed(selector) =>
      if s.conn != Some(from) then Stopped(CLOSING)
      else if selector.family == CONTROL_FAMILY then Stopped(CONTROL_VIOLATION)
      else if selector.family in s.handles && selector.family in s.specs
          && Owns(s.specs[selector.family], selector.protocol)
      then Routed(selector.family, s.handles[selector.family])
      else Stopped(UNSUPPORTED_SELECTOR)
  }

  lemma DestinationDue(s: Sup, selector: Selector)
    requires RoutesOk(s.routes, s.handles, s.specs) && s.conn.Some?
    ensures Destination(s, selector) == DueFor(s, s.conn.value, Parsed(selector))
  {
    assert RouteAt(s.routes, s.handles, s.specs, selector);
  }

  /**
   * At every end of a header read of every run: the stream settles as closing when its view is gone, as the
   * reader ended it, as a violation, or at the view's handle in the family that owns its protocol, and as
   * unsupported only when there is none.
   */
  lemma ReadSettlesAsDue(states: seq<Sup>, acts: seq<Act>, id: PeerID, order: seq<FamilyCode>, specs: Specs, j: nat)
    requires Registered(order, specs) && IsSupRun(states, acts) && states[0] == NewSup(id, order, specs)
    requires j < |acts| && acts[j].ReadEnds?
    ensures var s, t, x := states[j], states[j + 1], acts[j].stream;
            x in s.taken && x in t.settled && t.settled[x] == DueFor(s, s.taken[x].conn, acts[j].result)
  {
    var s, x, result := states[j], acts[j].stream, acts[j].result;
    RunSupInv(states, acts, id, order, specs, j);
    assert Acts(s, acts[j], states[j + 1]);
    if s.conn == Some(s.taken[x].conn) {
      CurrentSettles(s, x, result);
      if result.Parsed? {
        DestinationDue(s, result.selector);
      }
    }
  }
}
