/** The supervisor's calls on family rings: every handle is closed before its peer gets new ones. */
module SupervisorRings {
  import opened FamilySpec
  import opened FamilyRuns
  import opened FamilyOrder
  import opened SupervisorSpec
  import opened Wire

  ghost predicate RingGood(w: World, specs: seq<ProtocolSpec>) {
    Inv(w, specs) && Succession(w) && LogOrdered(w)
  }

  ghost predicate AllRings(rings: Rings, specs: Specs) {
    forall f :: f in rings ==> f in specs && RingGood(rings[f], specs[f])
  }

  /** A live handle of the peer is the current view's handle in its family, and the family is one of those listed. */
  ghost predicate OwnedAt(rings: Rings, id: PeerID, handles: Handles, order: seq<FamilyCode>, f: FamilyCode,
      h: Handle) {
    f in rings && h in rings[f].peers && rings[f].peers[h].peer == id && !rings[f].peers[h].down ==>
      f in order && f in handles && handles[f] == h
  }

  ghost predicate Owned(rings: Rings, id: PeerID, handles: Handles, order: seq<FamilyCode>) {
    forall f, h :: OwnedAt(rings, id, handles, order, f, h)
  }

  /** The view's handles exist and are the peer's. */
  ghost predicate Held(rings: Rings, id: PeerID, handles: Handles) {
    forall f :: f in handles ==> f in rings && handles[f] in rings[f].peers && rings[f].peers[handles[f]].peer == id
  }

  ghost function Stepped(rings: Rings, specs: Specs, f: FamilyCode, x: Action): Rings
    requires f in rings && f in specs && Enabled(rings[f], x)
  {
    rings[f := Step(rings[f], x, specs[f])]
  }

  lemma SteppedGood(rings: Rings, specs: Specs, f: FamilyCode, x: Action)
    requires AllRings(rings, specs) && f in rings && Enabled(rings[f], x) && (x.Add? ==> Free(rings[f], x.peer))
    ensures AllRings(Stepped(rings, specs, f, x), specs)
  {
    StepInv(rings[f], x, specs[f]);
    StepOrder(rings[f], x, specs[f]);
  }

  /** Only Add makes a handle live, and no step takes a handle away or changes whose it is. */
  lemma StepHandles(w: World, x: Action, specs: seq<ProtocolSpec>, h: Handle)
    requires RingOk(w) && Enabled(w, x)
    ensures h in w.peers ==> h in Step(w, x, specs).peers && Step(w, x, specs).peers[h].peer == w.peers[h].peer
    ensures h in w.peers && w.peers[h].down ==> Step(w, x, specs).peers[h].down
    ensures h !in w.peers && h in Step(w, x, specs).peers ==>
        x.Add? && h == w.next && Step(w, x, specs).peers[h].peer == x.peer
  {
    StepPeers(w, x, specs);
  }

  lemma SteppedHeld(rings: Rings, specs: Specs, id: PeerID, handles: Handles, f: FamilyCode, x: Action)
    requires f in rings && f in specs && RingOk(rings[f]) && Enabled(rings[f], x) && Held(rings, id, handles)
    ensures Held(Stepped(rings, specs, f, x), id, handles)
  {
    if f in handles {
      StepHandles(rings[f], x, specs[f], handles[f]);
    }
  }

  lemma SteppedOwned(rings: Rings, specs: Specs, id: PeerID, handles: Handles, order: seq<FamilyCode>, f: FamilyCode,
      x: Action)
    requires f in rings && f in specs && RingOk(rings[f]) && Enabled(rings[f], x) && Owned(rings, id, handles, order)
    requires x.Add? ==> x.peer != id
    ensures Owned(Stepped(rings, specs, f, x), id, handles, order)
  {
    forall g, h
      ensures OwnedAt(Stepped(rings, specs, f, x), id, handles, order, g, h)
    {
      assert OwnedAt(rings, id, handles, order, g, h);
      if g == f {
        StepHandles(rings[f], x, specs[f], h);
      }
    }
  }

  // ---------------------------------------------------------------------------
  // Closing a view's handles
  // ---------------------------------------------------------------------------

  lemma CloseOne(rings: Rings, specs: Specs, id: PeerID, handles: Handles, order: seq<FamilyCode>, code: Code)
    requires order != [] && AllRings(rings, specs) && Owned(rings, id, handles, order) && Held(rings, id, handles)
    requires order[0] in handles
    ensures var f := order[0]; var x := Close(handles[f], code, CLOSING);
            Owned(Stepped(rings, specs, f, x), id, handles, order[1..])
  {
    var f := order[0];
    var x := Close(handles[f], code, CLOSING);
    SteppedOwned(rings, specs, id, handles, order, f, x);
    var after := Stepped(rings, specs, f, x);
    ClosedIsDown(rings[f], handles[f], code, CLOSING);
    forall g, h
      ensures OwnedAt(after, id, handles, order[1..], g, h)
    {
      assert OwnedAt(after, id, handles, order, g, h);
      assert g in order ==> g == f || g in order[1..];
    }
  }

  lemma ClosedIsDown(w: World, h: Handle, code: Code, resetCode: Code)
    requires h in w.peers
    ensures h in FamilySpec.ClosePeer(w, h, code, resetCode).peers
        && FamilySpec.ClosePeer(w, h, code, resetCode).peers[h].down
  {
  }

  lemma OwnedSkips(rings: Rings, id: PeerID, handles: Handles, order: seq<FamilyCode>)
    requires order != [] && Owned(rings, id, handles, order) && order[0] !in handles
    ensures Owned(rings, id, handles, order[1..])
  {
    forall g, h
      ensures OwnedAt(rings, id, handles, order[1..], g, h)
    {
      assert OwnedAt(rings, id, handles, order, g, h);
      assert g in order ==> g == order[0] || g in order[1..];
    }
  }

  /** Dropping a view leaves the peer no live handle in any family. */
  lemma {:induction false} CloseAllFrees(rings: Rings, specs: Specs, id: PeerID, handles: Handles,
      order: seq<FamilyCode>, code: Code)
    requires AllRings(rings, specs) && Owned(rings, id, handles, order) && Held(rings, id, handles)
    ensures var out := CloseAll(rings, order, handles, code);
            AllRings(out, specs) && Owned(out, id, handles, []) && Held(out, id, handles)
    decreases |order|
  {
    if order != [] {
      var f := order[0];
      if f in handles {
        var x := Close(handles[f], code, CLOSING);
        SteppedGood(rings, specs, f, x);
        SteppedHeld(rings, specs, id, handles, f, x);
        CloseOne(rings, specs, id, handles, order, code);
        CloseAllFrees(Stepped(rings, specs, f, x), specs, id, handles, order[1..], code);
      } else {
        OwnedSkips(rings, id, handles, order);
        CloseAllFrees(rings, specs, id, handles, order[1..], code);
      }
    }
  }

  lemma NoneOwned(rings: Rings, id: PeerID, handles: Handles, order: seq<FamilyCode>)
    requires Owned(rings, id, handles, [])
    ensures Owned(rings, id, map[], order)
  {
    forall f, h
      ensures OwnedAt(rings, id, map[], order, f, h)
    {
      assert OwnedAt(rings, id, handles, [], f, h);
    }
  }

  // ---------------------------------------------------------------------------
  // Adding a view's handles
  // ---------------------------------------------------------------------------

  /** A family the view has no handle in yet has no live handle of the peer. */
  lemma OwnedIsFree(rings: Rings, id: PeerID, handles: Handles, order: seq<FamilyCode>, f: FamilyCode)
    requires Owned(rings, id, handles, order) && f in rings && f !in handles
    ensures Free(rings[f], id)
  {
    forall h | h in rings[f].peers && rings[f].peers[h].peer == id
      ensures rings[f].peers[h].down
    {
      assert OwnedAt(rings, id, handles, order, f, h);
    }
  }

  lemma AddOwned(rings: Rings, specs: Specs, id: PeerID, handles: Handles, order: seq<FamilyCode>, f: FamilyCode)
    requires f in rings && f in specs && RingOk(rings[f]) && f in order
    requires Owned(rings, id, handles, order) && Free(rings[f], id)
    ensures Owned(Stepped(rings, specs, f, Add(id)), id, handles[f := rings[f].next], order)
  {
    var after, now := Stepped(rings, specs, f, Add(id)), handles[f := rings[f].next];
    forall g, h
      ensures OwnedAt(after, id, now, order, g, h)
    {
      assert OwnedAt(rings, id, handles, order, g, h);
      if g == f {
        StepHandles(rings[f], Add(id), specs[f], h);
      }
    }
  }

  lemma AddHeld(rings: Rings, specs: Specs, id: PeerID, handles: Handles, f: FamilyCode)
    requires f in rings && f in specs && RingOk(rings[f]) && Held(rings, id, handles)
    ensures Held(Stepped(rings, specs, f, Add(id)), id, handles[f := rings[f].next])
  {
    SteppedHeld(rings, specs, id, handles, f, Add(id));
    AddedHandle(rings[f], id);
  }

  lemma EnrolOwned(s: Sup, f: FamilyCode)
    requires AllRings(s.rings, s.specs) && f in s.rings && f in s.order && f !in s.handles
    requires Owned(s.rings, s.id, s.handles, s.order) && Held(s.rings, s.id, s.handles)
    ensures var t := Enrol(s, f);
            AllRings(t.rings, t.specs) && Owned(t.rings, t.id, t.handles, t.order) && Held(t.rings, t.id, t.handles)
  {
    OwnedIsFree(s.rings, s.id, s.handles, s.order, f);
    SteppedGood(s.rings, s.specs, f, Add(s.id));
    AddOwned(s.rings, s.specs, s.id, s.handles, s.order, f);
    AddHeld(s.rings, s.specs, s.id, s.handles, f);
  }

  lemma AddedHandle(w: World, peer: PeerID)
    ensures w.next in FamilySpec.AddPeer(w, peer).peers && FamilySpec.AddPeer(w, peer).peers[w.next].peer == peer
  {
  }
}
