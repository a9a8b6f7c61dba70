/** The engine consuming its family's events: whatever the ring returns, at most one binding per peer ID. */
module EngineFamily {
  import opened Basics
  import opened EngineSpec
  import CtrlSpec
  import F = FamilySpec
  import R = FamilyRuns
  import O = FamilyOrder

  /** The family's ring and the engine's tables. */
  datatype Host = Host(ring: F.World, tables: Tables)

  /**
    * The stack adds handles, pushes streams, closes handles; the engine takes the next event and handles it,
    * or does something else. ended says that the handle's context had ended when its PeerUp was handled.
    */
  datatype HostAct =
    | Rings(action: R.Action)
    | Handles(announced: seq<CtrlSpec.ChannelID>, ended: bool)
    | Does(act: Act)

  /** What the engine does about an event. */
  function Response(ring: F.World, event: F.Event, announced: seq<CtrlSpec.ChannelID>, ended: bool): Option<Act> {
    match event
    case PeerUp(h) => if ended || h !in ring.peers then None else Some(Binds(h, ring.peers[h].peer, announced))
    case StreamIn(_, _) => None
    case PeerDown(h, _) => Some(GoesDown(h))
  }

  /** What the engine does about the event the ring returns next. */
  ghost function Reply(ring: F.World, announced: seq<CtrlSpec.ChannelID>, ended: bool): Option<Act>
    requires R.Enabled(ring, R.Take)
  {
    if ring.ready == [] then None else Response(ring, R.Returned(ring, R.Take)[0], announced, ended)
  }

  /** Bindings come and go with the family's events only. */
  predicate OwnAct(a: Act) {
    !a.Binds? && !a.GoesDown?
  }

  /** The step as the source allows it: nothing is asked of the ID of a new binding. */
  ghost predicate CanTake(n: Host, a: HostAct) {
    match a
    case Rings(x) => !x.Take? && R.Enabled(n.ring, x) && (x.Add? ==> O.Free(n.ring, x.peer))
    case Handles(announced, _) => R.Enabled(n.ring, R.Take) && Listed(announced) == n.tables.channels.Keys
    case Does(x) => OwnAct(x) && CanDo(n.tables, x)
  }

  /** The tables change as the response says, where it is one the tables allow. */
  ghost predicate Responds(t: Tables, response: Option<Act>, t': Tables) {
    if response.None? then t' == t
    else t.members.Keys == t.channels.Keys && CanDo(t, response.value) ==> t' == Do(t, response.value)
  }

  ghost predicate HostStep(n: Host, a: HostAct, specs: seq<F.ProtocolSpec>, n': Host) {
    CanTake(n, a) &&
    match a
    case Rings(x) => n' == n.(ring := R.Step(n.ring, x, specs))
    case Handles(announced, ended) =>
      n'.ring == R.Step(n.ring, R.Take, specs) && Responds(n.tables, Reply(n.ring, announced, ended), n'.tables)
    case Does(x) => n'.ring == n.ring && Responds(n.tables, Some(x), n'.tables)
  }

  /** The consumer was returned the handle's PeerUp and not its PeerDown. */
  predicate Present(ring: F.World, h: F.Handle) {
    h in ring.peers && ring.peers[h].up && (ring.peers[h].down ==> ring.peers[h].listed)
  }

  /** Every binding is of a handle present in the family, under its peer's ID. */
  ghost predicate BoundOf(n: Host) {
    forall h :: h in n.tables.bindings ==> Present(n.ring, h) && n.tables.bindings[h].id == n.ring.peers[h].peer
  }

  ghost predicate HostInv(n: Host, specs: seq<F.ProtocolSpec>) {
    O.Inv(n.ring, specs) && O.Succession(n.ring) && O.LogOrdered(n.ring) && BoundOf(n) && Coherent(n.tables)
  }

  // ---------------------------------------------------------------------------
  // A PeerUp finds the ID free
  // ---------------------------------------------------------------------------

  /** While the front handle has its PeerUp to return, no other handle of its peer is present. */
  lemma FrontIsAlone(ring: F.World, g: F.Handle)
    requires R.RingOk(ring) && O.Succession(ring) && ring.ready != [] && ring.ready[0] in ring.peers
    requires !ring.peers[ring.ready[0]].up && Present(ring, g)
    ensures g != ring.ready[0] && ring.peers[g].peer != ring.peers[ring.ready[0]].peer
  {
    var h := ring.ready[0];
    assert h in ring.ready;
    assert O.SuccessionAt(ring, g, h) && O.SuccessionAt(ring, h, g);
  }

  /** The engine may do what it is asked to do. */
  ghost predicate Allowed(n: Host, response: Option<Act>) {
    response.Some? ==> CanDo(n.tables, response.value)
  }

  /** What the engine is asked to do about an event it may do: the ID of a new binding is free. */
  lemma ResponseAllowed(n: Host, announced: seq<CtrlSpec.ChannelID>, ended: bool)
    requires R.RingOk(n.ring) && O.Succession(n.ring) && BoundOf(n)
    requires n.ring.ready != [] && Listed(announced) == n.tables.channels.Keys
    ensures R.Enabled(n.ring, R.Take) && Allowed(n, Reply(n.ring, announced, ended))
  {
    var h := n.ring.ready[0];
    assert h in n.ring.ready;
    assert R.Enabled(n.ring, R.Take);
    if !n.ring.peers[h].up {
      forall g | g in n.tables.bindings
        ensures g != h && n.tables.bindings[g].id != n.ring.peers[h].peer
      {
        FrontIsAlone(n.ring, g);
      }
    }
  }

  // ---------------------------------------------------------------------------
  // Steps
  // ---------------------------------------------------------------------------

  /** The same handles are bound, under the same IDs. */
  ghost predicate SameBound(t: Tables, t': Tables) {
    t'.bindings.Keys == t.bindings.Keys && forall h :: h in t.bindings ==> t'.bindings[h].id == t.bindings[h].id
  }

  lemma UpdatedBound(t: Tables, t': Tables, update: Conn -> Conn)
    requires t'.bindings == Updated(t, update) && forall p :: update(p).id == p.id
    ensures SameBound(t, t')
  {
  }

  lemma AtMostOneBound(t: Tables, t': Tables, h: PeerHandle)
    requires t'.bindings == t.bindings
        || (h in t.bindings && h in t'.bindings && t'.bindings == t.bindings[h := t'.bindings[h]]
            && t'.bindings[h].id == t.bindings[h].id)
    ensures SameBound(t, t')
  {
  }

  lemma OwnActKeeps(t: Tables, a: Act)
    requires t.members.Keys == t.channels.Keys && CanDo(t, a) && OwnAct(a)
    ensures SameBound(t, Do(t, a))
  {
    var t' := Do(t, a);
    match a
    case AddsChannel(id, channel) =>
      if id !in t.channels {
        UpdatedBound(t, t', Adding(id, channel));
      }
    case RemovesChannel(id) =>
      if id in t.channels {
        UpdatedBound(t, t', Removing(id));
      }
    case Joins(h, _) => AtMostOneBound(t, t', h);
    case Quits(h, _) => AtMostOneBound(t, t', h);
    case Handshakes(h, _, _) => AtMostOneBound(t, t', h);
    case Finishes(h) => AtMostOneBound(t, t', h);
    case Stops(h) => AtMostOneBound(t, t', h);
    case Turns(h, _, _) => AtMostOneBound(t, t', h);
  }

  /** What the stack does to the ring makes no handle absent. */
  lemma RingKeepsPresent(ring: F.World, x: R.Action, specs: seq<F.ProtocolSpec>, h: F.Handle)
    requires R.RingOk(ring) && R.Enabled(ring, x) && !x.Take? && Present(ring, h)
    ensures Present(R.Step(ring, x, specs), h) && R.Step(ring, x, specs).peers[h].peer == ring.peers[h].peer
  {
    R.StepPeers(ring, x, specs);
  }

  /** A turn makes a handle absent only by returning its PeerDown. */
  lemma TurnKeepsPresent(ring: F.World, specs: seq<F.ProtocolSpec>, h: F.Handle)
    requires R.RingOk(ring) && R.Enabled(ring, R.Take) && ring.ready != []
    requires h == ring.ready[0] || Present(ring, h)
    ensures var v, event := R.Step(ring, R.Take, specs), R.Returned(ring, R.Take)[0];
            && h in ring.peers && h in v.peers && v.peers[h].peer == ring.peers[h].peer
            && (Present(v, h) || (event.PeerDown? && event.handle == h))
  {
    R.StepPeers(ring, R.Take, specs);
  }

  lemma RingsBound(n: Host, x: R.Action, specs: seq<F.ProtocolSpec>)
    requires R.RingOk(n.ring) && R.Enabled(n.ring, x) && !x.Take? && BoundOf(n)
    ensures BoundOf(n.(ring := R.Step(n.ring, x, specs)))
  {
    forall h | h in n.tables.bindings
      ensures Present(R.Step(n.ring, x, specs), h)
      ensures R.Step(n.ring, x, specs).peers[h].peer == n.ring.peers[h].peer
    {
      RingKeepsPresent(n.ring, x, specs, h);
    }
  }

  /** Whose binding is there after the engine responded to an event. */
  lemma RespondedBindings(t: Tables, a: Act, g: PeerHandle)
    requires t.members.Keys == t.channels.Keys && CanDo(t, a) && !OwnAct(a) && g in Do(t, a).bindings
    ensures (a.Binds? && g == a.h && Do(t, a).bindings[g].id == a.pid)
        || (g in t.bindings && Do(t, a).bindings[g].id == t.bindings[g].id && (a.GoesDown? ==> g != a.h))
  {
  }

  lemma RespondsCoherent(t: Tables, response: Option<Act>, t': Tables)
    requires Coherent(t) && (response.Some? ==> CanDo(t, response.value)) && Responds(t, response, t')
    ensures Coherent(t')
  {
    if response.Some? {
      DoCoherent(t, response.value);
    }
  }

  lemma HandledBinding(n: Host, announced: seq<CtrlSpec.ChannelID>, ended: bool, specs: seq<F.ProtocolSpec>, n': Host,
      g: PeerHandle)
    requires R.RingOk(n.ring) && R.Enabled(n.ring, R.Take) && n.ring.ready != [] && BoundOf(n)
    requires n.tables.members.Keys == n.tables.channels.Keys && Allowed(n, Reply(n.ring, announced, ended))
    requires n'.ring == R.Step(n.ring, R.Take, specs) && Responds(n.tables, Reply(n.ring, announced, ended), n'.tables)
    requires g in n'.tables.bindings
    ensures Present(n'.ring, g) && n'.tables.bindings[g].id == n'.ring.peers[g].peer
  {
    var response := Reply(n.ring, announced, ended);
    if response.Some? {
      RespondedBindings(n.tables, response.value, g);
    }
    TurnKeepsPresent(n.ring, specs, g);
  }

  lemma HandlesBound(n: Host, announced: seq<CtrlSpec.ChannelID>, ended: bool, specs: seq<F.ProtocolSpec>, n': Host)
    requires R.RingOk(n.ring) && R.Enabled(n.ring, R.Take) && n.ring.ready != [] && BoundOf(n)
    requires n.tables.members.Keys == n.tables.channels.Keys && Allowed(n, Reply(n.ring, announced, ended))
    requires n'.ring == R.Step(n.ring, R.Take, specs) && Responds(n.tables, Reply(n.ring, announced, ended), n'.tables)
    ensures BoundOf(n')
  {
    forall g | g in n'.tables.bindings
      ensures Present(n'.ring, g) && n'.tables.bindings[g].id == n'.ring.peers[g].peer
    {
      HandledBinding(n, announced, ended, specs, n', g);
    }
  }

  lemma HostStepInv(n: Host, a: HostAct, specs: seq<F.ProtocolSpec>, n': Host)
    requires HostInv(n, specs) && HostStep(n, a, specs, n')
    ensures HostInv(n', specs)
  {
    match a
    case Rings(x) =>
      O.StepInv(n.ring, x, specs);
      O.StepOrder(n.ring, x, specs);
      RingsBound(n, x, specs);
    case Handles(announced, ended) =>
      O.StepInv(n.ring, R.Take, specs);
      O.StepOrder(n.ring, R.Take, specs);
      if n.ring.ready != [] {
        ResponseAllowed(n, announced, ended);
        RespondsCoherent(n.tables, Reply(n.ring, announced, ended), n'.tables);
        HandlesBound(n, announced, ended, specs, n');
      }
    case Does(x) =>
      DoCoherent(n.tables, x);
      OwnActKeeps(n.tables, x);
  }

  // ---------------------------------------------------------------------------
  // Runs
  // ---------------------------------------------------------------------------

  const NEW_HOST := Host(F.NEW_WORLD, NO_TABLES)

  ghost predicate IsHostRun(hosts: seq<Host>, acts: seq<HostAct>, specs: seq<F.ProtocolSpec>) {
    && |hosts| == |acts| + 1 && hosts[0] == NEW_HOST
    && forall i :: 0 <= i < |acts| ==> HostStep(hosts[i], acts[i], specs, hosts[i + 1])
  }

  /**
    * In every state of every run of an engine fed by its family: bindings are of handles whose PeerUp was
    * returned and PeerDown was not, the tables are coherent, and the engine may do what it is asked to do
    * about the next event. That the ID of a new binding is free is a consequence, not an assumption.
    */
  lemma {:induction false} RunHost(hosts: seq<Host>, acts: seq<HostAct>, specs: seq<F.ProtocolSpec>, n: nat,
      announced: seq<CtrlSpec.ChannelID>, ended: bool)
    requires IsHostRun(hosts, acts, specs) && n <= |acts|
    ensures HostInv(hosts[n], specs)
    ensures hosts[n].ring.ready != [] && Listed(announced) == hosts[n].tables.channels.Keys ==>
        R.Enabled(hosts[n].ring, R.Take) && Allowed(hosts[n], Reply(hosts[n].ring, announced, ended))
  {
    RunHostInv(hosts, acts, specs, n);
    if hosts[n].ring.ready != [] && Listed(announced) == hosts[n].tables.channels.Keys {
      ResponseAllowed(hosts[n], announced, ended);
    }
  }

  lemma {:induction false} RunHostInv(hosts: seq<Host>, acts: seq<HostAct>, specs: seq<F.ProtocolSpec>, n: nat)
    requires IsHostRun(hosts, acts, specs) && n <= |acts|
    ensures HostInv(hosts[n], specs)
  {
    if n == 0 {
      O.NewInv(specs);
    } else {
      RunHostInv(hosts, acts, specs, n - 1);
      HostStepInv(hosts[n - 1], acts[n - 1], specs, hosts[n]);
    }
  }
}
