/** The engine's tables as a state machine: channels, bindings, ready peers and members. */
module EngineSpec {
  // A binding is named by its family peer handle. The events the engine sends into a channel's inbox
  // are recorded as the member IDs that channel has been told.

  import opened CtrlSpec
  import opened CtrlConvergence
  import opened CtrlDrain

  type PeerID = nat
  type ChannelHandle = nat
  type PeerHandle = nat

  type ChannelMap = map<ChannelID, ChannelHandle>
  type Members = map<ChannelID, set<PeerID>>

  /** One binding; w is its outbound control state and what its remote was told. */
  datatype Conn = Conn(
    id: PeerID,
    announced: seq<ChannelID>,   // the channels our Hello lists
    subs: set<ChannelID>,        // the remote's subscriptions
    inboxes: ChannelMap,         // where this peer's streams are routed
    stopped: bool,               // the binding's context has ended
    handshook: bool,
    w: World)

  function Routed(channels: ChannelMap, subs: set<ChannelID>): ChannelMap {
    map id | id in channels && id in subs :: channels[id]
  }

  function Announced(p: Conn, id: ChannelID, present: bool): (q: Conn)
    ensures q.id == p.id && q.subs == p.subs && q.inboxes == p.inboxes
    ensures q.stopped == p.stopped && q.handshook == p.handshook && q.announced == p.announced
  {
    p.(w := AfterCall(p.w, Announce(id, present)))
  }

  /** One binding on its own. */
  ghost predicate Sound(p: Conn) {
    && Reachable(p.w)
    && (p.w.s.closed ==> p.stopped)
    && (!p.handshook ==> p.inboxes == map[] && p.subs == {} && (p.stopped || p.w == NEW_WORLD))
  }

  /** A ready binding routes the subscribed channels and wants its remote told exactly channels. */
  ghost predicate Ready(p: Conn, channels: ChannelMap) {
    && p.handshook
    && p.inboxes == Routed(channels, p.subs)
    && (!p.w.s.closed ==> p.w.wanted == channels.Keys)
  }

  lemma AnnouncedSound(p: Conn, id: ChannelID, present: bool)
    requires Sound(p) && p.handshook
    ensures Sound(Announced(p, id, present))
    ensures Announced(p, id, present).w.s.closed == p.w.s.closed
    ensures Announced(p, id, present).w.wanted == if present then p.w.wanted + {id} else p.w.wanted - {id}
  {
    StepReachable(p.w, Announce(id, present), AfterCall(p.w, Announce(id, present)));
  }

  /** What the engine does to one ready binding when a channel is added. */
  function WithChannel(p: Conn, id: ChannelID, h: ChannelHandle): (q: Conn)
    ensures q.id == p.id && q.subs == p.subs
  {
    Announced(if id in p.subs then p.(inboxes := p.inboxes[id := h]) else p, id, true)
  }

  lemma WithChannelReady(p: Conn, id: ChannelID, h: ChannelHandle, channels: ChannelMap)
    requires Sound(p) && Ready(p, channels) && id !in channels
    ensures Sound(WithChannel(p, id, h)) && Ready(WithChannel(p, id, h), channels[id := h])
  {
    var q := if id in p.subs then p.(inboxes := p.inboxes[id := h]) else p;
    AnnouncedSound(q, id, true);
    assert q.inboxes == Routed(channels[id := h], q.subs);
  }

  /** And when one is removed. */
  function WithoutChannel(p: Conn, id: ChannelID): (q: Conn)
    ensures q.id == p.id && q.subs == p.subs
  {
    Announced(p.(inboxes := p.inboxes - {id}), id, false)
  }

  lemma WithoutChannelReady(p: Conn, id: ChannelID, channels: ChannelMap)
    requires Sound(p) && Ready(p, channels)
    ensures Sound(WithoutChannel(p, id)) && Ready(WithoutChannel(p, id), channels - {id})
  {
    var q := p.(inboxes := p.inboxes - {id});
    AnnouncedSound(q, id, false);
    assert q.inboxes == Routed(channels - {id}, q.subs);
  }

  // ---------------------------------------------------------------------------
  // The engine's maps as values
  // ---------------------------------------------------------------------------

  datatype Tables = Tables(
    channels: ChannelMap,
    bindings: map<PeerHandle, Conn>,             // from PeerUp to PeerDown
    peers: map<PeerID, PeerHandle>,              // ready bindings
    members: Members)        // what each live channel was told

  /** At most one binding an ID, and a ready binding is listed under its own ID. */
  ghost predicate Wired(t: Tables) {
    && (forall g, h :: g in t.bindings && h in t.bindings && t.bindings[g].id == t.bindings[h].id ==> g == h)
    && (forall pid :: pid in t.peers ==> t.peers[pid] in t.bindings && t.bindings[t.peers[pid]].id == pid)
  }

  ghost predicate Subscribes(t: Tables, pid: PeerID, id: ChannelID) {
    pid in t.peers && t.peers[pid] in t.bindings && id in t.bindings[t.peers[pid]].subs
  }

  ghost function Subscribers(t: Tables, id: ChannelID): set<PeerID> {
    set pid | pid in t.peers && Subscribes(t, pid, id)
  }

  /** Every channel was told exactly the ready peers that subscribe to it. */
  ghost predicate MembersTold(t: Tables) {
    && t.members.Keys == t.channels.Keys
    && (forall id, pid :: id in t.channels ==> (pid in t.members[id] <==> Subscribes(t, pid, id)))
  }

  ghost predicate AllSound(t: Tables) {
    forall h :: h in t.bindings ==> Sound(t.bindings[h])
  }

  ghost predicate AllReady(t: Tables) {
    forall pid :: pid in t.peers && t.peers[pid] in t.bindings ==> Ready(t.bindings[t.peers[pid]], t.channels)
  }

  ghost predicate Coherent(t: Tables) {
    Wired(t) && MembersTold(t) && AllSound(t) && AllReady(t)
  }

  /** h is the binding through which its peer is ready. */
  predicate Current(t: Tables, h: PeerHandle) {
    h in t.bindings && t.bindings[h].id in t.peers && t.peers[t.bindings[h].id] == h
  }

  /** Exactly the ready bindings are changed, by update. */
  ghost function Updated(t: Tables, update: Conn -> Conn): map<PeerHandle, Conn> {
    map b | b in t.bindings :: if b in t.peers.Values then update(t.bindings[b]) else t.bindings[b]
  }

  lemma UpdatedWired(t: Tables, t': Tables, update: Conn -> Conn)
    requires Wired(t)
    requires t'.peers == t.peers && t'.bindings == Updated(t, update)
    requires forall p :: update(p).id == p.id && update(p).subs == p.subs
    ensures Wired(t')
    ensures forall pid, id :: Subscribes(t', pid, id) == Subscribes(t, pid, id)
  {
    assert forall b :: b in t.bindings ==>
        t'.bindings[b].id == t.bindings[b].id && t'.bindings[b].subs == t.bindings[b].subs;
  }

  /** If update keeps each ready binding sound and ready, all are. */
  lemma UpdatedReady(t: Tables, t': Tables, update: Conn -> Conn)
    requires Wired(t) && AllSound(t)
    requires t'.peers == t.peers && t'.bindings == Updated(t, update)
    requires forall pid :: pid in t.peers ==>
               Sound(update(t.bindings[t.peers[pid]])) && Ready(update(t.bindings[t.peers[pid]]), t'.channels)
    ensures AllSound(t') && AllReady(t')
  {
    forall pid | pid in t.peers
      ensures t'.bindings[t.peers[pid]] == update(t.bindings[t.peers[pid]])
    {
      assert t.peers[pid] in t.peers.Values;
    }
    forall b | b in t'.bindings
      ensures Sound(t'.bindings[b])
    {
      if b in t.peers.Values {
        var pid :| pid in t.peers && t.peers[pid] == b;
      } else {
        assert t'.bindings[b] == t.bindings[b];
      }
    }
  }

  function Adding(id: ChannelID, h: ChannelHandle): Conn -> Conn {
    (p: Conn) => WithChannel(p, id, h)
  }

  function Removing(id: ChannelID): Conn -> Conn {
    (p: Conn) => WithoutChannel(p, id)
  }

  /** A new channel: every ready peer is told, and those that subscribe to it join. */
  ghost function WithChannelAdded(t: Tables, id: ChannelID, h: ChannelHandle): Tables {
    t.(channels := t.channels[id := h], bindings := Updated(t, Adding(id, h)),
        members := t.members[id := Subscribers(t, id)])
  }

  ghost function WithChannelRemoved(t: Tables, id: ChannelID): Tables {
    t.(channels := t.channels - {id}, bindings := Updated(t, Removing(id)), members := t.members - {id})
  }

  lemma ChannelAdded(t: Tables, id: ChannelID, h: ChannelHandle)
    requires Coherent(t) && id !in t.channels
    ensures Coherent(WithChannelAdded(t, id, h))
  {
    var t', update := WithChannelAdded(t, id, h), Adding(id, h);
    UpdatedWired(t, t', update);
    forall pid | pid in t.peers
      ensures Sound(update(t.bindings[t.peers[pid]])) && Ready(update(t.bindings[t.peers[pid]]), t'.channels)
    {
      WithChannelReady(t.bindings[t.peers[pid]], id, h, t.channels);
    }
    UpdatedReady(t, t', update);
  }

  lemma ChannelRemoved(t: Tables, id: ChannelID)
    requires Coherent(t)
    ensures Coherent(WithChannelRemoved(t, id))
  {
    var t', update := WithChannelRemoved(t, id), Removing(id);
    UpdatedWired(t, t', update);
    forall pid | pid in t.peers
      ensures Sound(update(t.bindings[t.peers[pid]])) && Ready(update(t.bindings[t.peers[pid]]), t'.channels)
    {
      WithoutChannelReady(t.bindings[t.peers[pid]], id, t.channels);
    }
    UpdatedReady(t, t', update);
  }

  /** Members after pid joined or left the live channels in ids. */
  function JoinedTo(members: Members, ids: set<ChannelID>, pid: PeerID): Members {
    map id | id in members :: if id in ids then members[id] + {pid} else members[id]
  }

  function LeftFrom(members: Members, ids: set<ChannelID>, pid: PeerID): Members {
    map id | id in members :: if id in ids then members[id] - {pid} else members[id]
  }

  /** Changing one binding changes what is said about that binding only. */
  lemma OneWired(t: Tables, t': Tables, h: PeerHandle, p': Conn)
    requires Wired(t) && h in t.bindings && p'.id == t.bindings[h].id
    requires t'.bindings == t.bindings[h := p']
    requires t'.peers == t.peers || t'.peers == t.peers - {p'.id} || t'.peers == t.peers[p'.id := h]
    ensures Wired(t')
  {
  }

  lemma OneSound(t: Tables, t': Tables, h: PeerHandle, p': Conn)
    requires AllSound(t) && Sound(p') && t'.bindings == t.bindings[h := p']
    ensures AllSound(t')
  {
    forall b | b in t'.bindings && b != h
      ensures Sound(t'.bindings[b])
    {
      assert b in t.bindings;
    }
  }

  lemma OneReady(t: Tables, t': Tables, h: PeerHandle, p': Conn)
    requires Wired(t) && AllReady(t) && h in t.bindings && p'.id == t.bindings[h].id
    requires t'.bindings == t.bindings[h := p'] && t'.channels == t.channels
    requires t'.peers == t.peers || t'.peers == t.peers - {p'.id} || t'.peers == t.peers[p'.id := h]
    requires Current(t', h) ==> Ready(p', t.channels)
    ensures AllReady(t')
  {
    forall pid | pid in t'.peers && t'.peers[pid] in t'.bindings
      ensures Ready(t'.bindings[t'.peers[pid]], t'.channels)
    {
      if pid == p'.id {
        assert t'.peers[pid] == h;
      } else {
        assert pid in t.peers && t.peers[pid] != h;
      }
    }
  }

  lemma MembersKept(t: Tables, t': Tables)
    requires MembersTold(t) && t'.channels == t.channels && t'.members.Keys == t.members.Keys
    requires forall id, pid :: id in t.channels && Subscribes(t', pid, id) == Subscribes(t, pid, id) ==>
               (pid in t'.members[id] <==> pid in t.members[id])
    requires forall id, pid :: id in t.channels && Subscribes(t', pid, id) && !Subscribes(t, pid, id) ==>
        pid in t'.members[id]
    requires forall id, pid :: id in t.channels && !Subscribes(t', pid, id) && Subscribes(t, pid, id) ==>
        pid !in t'.members[id]
    ensures MembersTold(t')
  {
  }

  /** A current binding may take a new set of subscriptions if its channels are told the difference. */
  lemma Resubscribed(t: Tables, t': Tables, h: PeerHandle, subs: set<ChannelID>)
    requires Coherent(t) && Current(t, h)
    requires var p := t.bindings[h];
             t' == t.(bindings := t.bindings[h := p.(subs := subs, inboxes := Routed(t.channels, subs))],
                      members := LeftFrom(JoinedTo(t.members, subs - p.subs, p.id), p.subs - subs, p.id))
    ensures Coherent(t')
  {
    var p := t.bindings[h];
    assert t.peers[p.id] == h;
    OneWired(t, t', h, t'.bindings[h]);
    OneSound(t, t', h, t'.bindings[h]);
    OneReady(t, t', h, t'.bindings[h]);
    assert forall pid, id :: pid != p.id ==> Subscribes(t', pid, id) == Subscribes(t, pid, id);
    MembersKept(t, t');
  }

  /** A current binding stops being ready, and its channels are told. */
  ghost function Unready(t: Tables, h: PeerHandle): Tables
    requires h in t.bindings
  {
    var p := t.bindings[h];
    t.(peers := t.peers - {p.id}, bindings := t.bindings[h := p.(inboxes := map[])],
       members := LeftFrom(t.members, p.subs, p.id))
  }

  lemma Unreadied(t: Tables, h: PeerHandle)
    requires Coherent(t) && Current(t, h)
    ensures Coherent(Unready(t, h)) && !Current(Unready(t, h), h)
  {
    var p, t' := t.bindings[h], Unready(t, h);
    assert t.peers[p.id] == h;
    OneWired(t, t', h, t'.bindings[h]);
    OneSound(t, t', h, t'.bindings[h]);
    OneReady(t, t', h, t'.bindings[h]);
    UnreadiedMembers(t, h);
  }

  lemma UnreadiedMembers(t: Tables, h: PeerHandle)
    requires Wired(t) && MembersTold(t) && Current(t, h)
    ensures MembersTold(Unready(t, h))
  {
    var p, t' := t.bindings[h], Unready(t, h);
    assert forall pid, id :: pid != p.id ==> Subscribes(t', pid, id) == Subscribes(t, pid, id);
    MembersKept(t, t');
  }

  lemma SubscribedReady(p: Conn, channels: ChannelMap, id: ChannelID)
    requires p.inboxes == Routed(channels, p.subs)
    ensures (if id in channels then p.inboxes[id := channels[id]] else p.inboxes) == Routed(channels, p.subs + {id})
    ensures p.inboxes - {id} == Routed(channels, p.subs - {id})
  {
  }

  /** The remote of a current binding subscribes. */
  ghost function Subscribed(t: Tables, h: PeerHandle, id: ChannelID): Tables
    requires h in t.bindings && t.members.Keys == t.channels.Keys
  {
    var p := t.bindings[h];
    var q := p.(subs := p.subs + {id}, inboxes := if id in t.channels then p.inboxes[id := t.channels[id]]
        else p.inboxes);
    t.(bindings := t.bindings[h := q],
       members := if id in t.channels then t.members[id := t.members[id] + {p.id}] else t.members)
  }

  ghost function Unsubscribed(t: Tables, h: PeerHandle, id: ChannelID): Tables
    requires h in t.bindings && t.members.Keys == t.channels.Keys
  {
    var p := t.bindings[h];
    t.(bindings := t.bindings[h := p.(subs := p.subs - {id}, inboxes := p.inboxes - {id})],
       members := if id in t.channels then t.members[id := t.members[id] - {p.id}] else t.members)
  }

  lemma JoinedOne(members: Members, id: ChannelID, pid: PeerID)
    ensures LeftFrom(JoinedTo(members, {id}, pid), {}, pid)
         == if id in members then members[id := members[id] + {pid}] else members
    ensures LeftFrom(JoinedTo(members, {}, pid), {id}, pid)
         == if id in members then members[id := members[id] - {pid}] else members
  {
  }

  /** A current binding subscribes to a channel it did not subscribe to, and that does not list it. */
  lemma SubscribedOne(t: Tables, h: PeerHandle, id: ChannelID)
    requires Coherent(t) && Current(t, h) && id !in t.bindings[h].subs
    ensures id in t.channels ==> t.bindings[h].id !in t.members[id]
    ensures Coherent(Subscribed(t, h, id))
  {
    var p := t.bindings[h];
    assert Ready(t.bindings[t.peers[p.id]], t.channels);
    assert !Subscribes(t, p.id, id);
    SubscribedReady(p, t.channels, id);
    JoinedOne(t.members, id, p.id);
    assert p.subs + {id} - p.subs == {id} && p.subs - (p.subs + {id}) == {};
    Resubscribed(t, Subscribed(t, h, id), h, p.subs + {id});
  }

  /** A current binding unsubscribes from a channel it subscribed to, and that lists it. */
  lemma UnsubscribedOne(t: Tables, h: PeerHandle, id: ChannelID)
    requires Coherent(t) && Current(t, h) && id in t.bindings[h].subs
    ensures id in t.channels ==> t.bindings[h].id in t.members[id]
    ensures Coherent(Unsubscribed(t, h, id))
  {
    var p := t.bindings[h];
    assert Ready(t.bindings[t.peers[p.id]], t.channels);
    assert Subscribes(t, p.id, id);
    SubscribedReady(p, t.channels, id);
    JoinedOne(t.members, id, p.id);
    assert p.subs - {id} - p.subs == {} && p.subs - (p.subs - {id}) == {id};
    Resubscribed(t, Unsubscribed(t, h, id), h, p.subs - {id});
  }

  lemma NotReadyYet(t: Tables, h: PeerHandle)
    requires Coherent(t) && h in t.bindings && !t.bindings[h].handshook
    ensures t.bindings[h].id !in t.peers
  {
  }

  /** A binding whose handshake completed becomes ready under an ID nobody holds. */
  lemma Readied(t: Tables, t': Tables, h: PeerHandle, p': Conn)
    requires Coherent(t) && h in t.bindings && !t.bindings[h].handshook
    requires p'.id == t.bindings[h].id && Sound(p') && Ready(p', t.channels)
    requires t' == t.(peers := t.peers[p'.id := h], bindings := t.bindings[h := p'],
                      members := JoinedTo(t.members, p'.subs, p'.id))
    ensures Coherent(t')
  {
    OneWired(t, t', h, p');
    OneSound(t, t', h, p');
    OneReady(t, t', h, p');
    ReadiedMembers(t, t', h, p');
  }

  lemma ReadiedMembers(t: Tables, t': Tables, h: PeerHandle, p': Conn)
    requires Coherent(t) && h in t.bindings && !t.bindings[h].handshook
    requires p'.id == t.bindings[h].id
    requires t' == t.(peers := t.peers[p'.id := h], bindings := t.bindings[h := p'],
                      members := JoinedTo(t.members, p'.subs, p'.id))
    ensures MembersTold(t')
  {
    NotReadyYet(t, h);
    forall pid: PeerID, id: ChannelID
      ensures pid != p'.id ==> Subscribes(t', pid, id) == Subscribes(t, pid, id)
    {
      assert pid in t.peers && pid != p'.id ==> t.peers[pid] != h;
    }
    MembersKept(t, t');
  }

  /** A binding may be changed on its own as long as its subscriptions stay. */
  lemma Rebound(t: Tables, t': Tables, h: PeerHandle, p': Conn)
    requires Coherent(t) && h in t.bindings
    requires p'.id == t.bindings[h].id && p'.subs == t.bindings[h].subs && Sound(p')
    requires Current(t, h) ==> Ready(p', t.channels)
    requires t' == t.(bindings := t.bindings[h := p'])
    ensures Coherent(t')
  {
    OneWired(t, t', h, p');
    OneSound(t, t', h, p');
    OneReady(t, t', h, p');
    assert forall pid, id :: Subscribes(t', pid, id) == Subscribes(t, pid, id);
    MembersKept(t, t');
  }

  /** A new binding under an ID without one. */
  lemma NewlyBound(t: Tables, t': Tables, h: PeerHandle, p: Conn)
    requires Coherent(t) && h !in t.bindings && forall g :: g in t.bindings ==> t.bindings[g].id != p.id
    requires p.w == NEW_WORLD && !p.handshook && p.inboxes == map[] && p.subs == {}
    requires t' == t.(bindings := t.bindings[h := p])
    ensures Coherent(t')
  {
    NewIsReachable();
    OneSound(t, t', h, p);
    assert forall pid, id :: Subscribes(t', pid, id) == Subscribes(t, pid, id);
    MembersKept(t, t');
  }

  /** A binding that is not ready may be forgotten. */
  lemma Unbound(t: Tables, t': Tables, h: PeerHandle)
    requires Coherent(t) && h in t.bindings && !Current(t, h)
    requires t' == t.(bindings := t.bindings - {h})
    ensures Coherent(t')
  {
    assert forall pid :: pid in t.peers ==> t.peers[pid] != h;
    assert forall pid, id :: Subscribes(t', pid, id) == Subscribes(t, pid, id);
    MembersKept(t, t');
  }

  /** A binding may stop at any time. */
  function Stopped(p: Conn): Conn {
    p.(stopped := true, w := AfterCall(p.w, Stop))
  }

  lemma StoppedBinding(t: Tables, t': Tables, h: PeerHandle)
    requires Coherent(t) && h in t.bindings
    requires t' == t.(bindings := t.bindings[h := Stopped(t.bindings[h])])
    ensures Coherent(t')
  {
    var p := t.bindings[h];
    StepReachable(p.w, Stop, AfterCall(p.w, Stop));
    assert Current(t, h) ==> Ready(t.bindings[t.peers[p.id]], t.channels);
    Rebound(t, t', h, Stopped(p));
  }

  lemma TurnKeepsWanted(w: World, a: Action, w': World)
    requires Step(w, a, w') && !a.Hello? && !a.Announce? && !a.Stop?
    ensures w'.wanted == w.wanted && w'.s.closed == w.s.closed
  {
    if a.Emit? {
      NextFrame(w.s, a.event, w'.s);
    }
  }

  /** The control loop of a binding takes a turn, or a session asks it for something. */
  lemma Turned(t: Tables, t': Tables, h: PeerHandle, a: Action, w': World)
    requires Coherent(t) && h in t.bindings && t.bindings[h].handshook
    requires Step(t.bindings[h].w, a, w') && !a.Hello? && !a.Announce? && !a.Stop?
    requires t' == t.(bindings := t.bindings[h := t.bindings[h].(w := w')])
    ensures Coherent(t')
  {
    var p := t.bindings[h];
    StepReachable(p.w, a, w');
    TurnKeepsWanted(p.w, a, w');
    assert Current(t, h) ==> t.peers[p.id] == h;
    Rebound(t, t', h, p.(w := w'));
  }

  // ---------------------------------------------------------------------------
  // A handshake completes
  // ---------------------------------------------------------------------------

  /** Announce the channels listed but for those to skip. */
  function AnnounceEach(w: World, ids: seq<ChannelID>, skip: set<ChannelID>, present: bool): World
    decreases |ids|
  {
    if ids == [] then w
    else AnnounceEach(if ids[0] in skip then w else AfterCall(w, Announce(ids[0], present)), ids[1..], skip, present)
  }

  lemma {:induction false} AnnounceSnoc(w: World, ids: seq<ChannelID>, id: ChannelID, skip: set<ChannelID>,
      present: bool)
    ensures var r := AnnounceEach(w, ids, skip, present);
            AnnounceEach(w, ids + [id], skip, present) == if id in skip then r else AfterCall(r, Announce(id, present))
    decreases |ids|
  {
    if ids == [] {
      assert (ids + [id])[1..] == [];
    } else {
      assert (ids + [id])[1..] == ids[1..] + [id];
      AnnounceSnoc(if ids[0] in skip then w else AfterCall(w, Announce(ids[0], present)), ids[1..], id, skip, present);
    }
  }

  ghost function Listed(ids: seq<ChannelID>): set<ChannelID> {
    set id | id in ids
  }

  lemma {:induction false} AnnouncedEach(w: World, ids: seq<ChannelID>, skip: set<ChannelID>, present: bool)
    requires Reachable(w)
    ensures var r := AnnounceEach(w, ids, skip, present);
            && Reachable(r) && r.s.closed == w.s.closed && r.told == w.told
            && r.wanted == if present then w.wanted + (Listed(ids) - skip) else w.wanted - (Listed(ids) - skip)
    decreases |ids|
  {
    if ids != [] {
      var v := AfterCall(w, Announce(ids[0], present));
      StepReachable(w, Announce(ids[0], present), v);
      AnnouncedEach(if ids[0] in skip then w else v, ids[1..], skip, present);
      assert Listed(ids) == {ids[0]} + Listed(ids[1..]);
    }
  }

  /**
    * The control state of a binding whose handshake completed: the Hello listed hello, the channels are
    * announced in some order where the Hello did not list them, and those dropped since are withdrawn.
    */
  ghost function Greeted(w: World, hello: seq<ChannelID>, order: seq<ChannelID>, channels: set<ChannelID>): World {
    AnnounceEach(AnnounceEach(AfterCall(w, Hello(hello)), order, Listed(hello), true), hello, channels, false)
  }

  lemma GreetedWorld(hello: seq<ChannelID>, order: seq<ChannelID>, channels: set<ChannelID>)
    requires Listed(order) == channels
    ensures var r := Greeted(NEW_WORLD, hello, order, channels);
            Reachable(r) && !r.s.closed && r.wanted == channels && r.told == Told(Listed(hello), map[])
  {
    var w := AfterCall(NEW_WORLD, Hello(hello));
    NewIsReachable();
    StepReachable(NEW_WORLD, Hello(hello), w);
    AnnouncedEach(w, order, Listed(hello), true);
    AnnouncedEach(AnnounceEach(w, order, Listed(hello), true), hello, channels, false);
  }

  ghost function Enrolled(t: Tables, h: PeerHandle, listed: seq<ChannelID>, order: seq<ChannelID>): Tables
    requires h in t.bindings
  {
    var p := t.bindings[h];
    var q := p.(w := Greeted(p.w, p.announced, order, t.channels.Keys), subs := Listed(listed),
                inboxes := Routed(t.channels, Listed(listed)), handshook := true);
    t.(peers := t.peers[p.id := h], bindings := t.bindings[h := q],
        members := JoinedTo(t.members, Listed(listed), p.id))
  }

  lemma EnrolledCoherent(t: Tables, h: PeerHandle, listed: seq<ChannelID>, order: seq<ChannelID>)
    requires Coherent(t) && h in t.bindings && !t.bindings[h].handshook && !t.bindings[h].stopped
    requires Listed(order) == t.channels.Keys
    ensures Coherent(Enrolled(t, h, listed, order)) && t.bindings[h].w == NEW_WORLD
  {
    var p := t.bindings[h];
    assert Sound(p);
    GreetedWorld(p.announced, order, t.channels.Keys);
    Readied(t, Enrolled(t, h, listed, order), h, Enrolled(t, h, listed, order).bindings[h]);
  }

  // ---------------------------------------------------------------------------
  // Runs
  // ---------------------------------------------------------------------------

  /** What happens on the engine actor, and to a binding on its own: it stops, or its control state moves. */
  datatype Act =
    | AddsChannel(id: ChannelID, channel: ChannelHandle)
    | RemovesChannel(id: ChannelID)
    | Joins(h: PeerHandle, id: ChannelID)
    | Quits(h: PeerHandle, id: ChannelID)
    | Binds(h: PeerHandle, pid: PeerID, announced: seq<ChannelID>)
    | Handshakes(h: PeerHandle, listed: seq<ChannelID>, order: seq<ChannelID>)
    | Finishes(h: PeerHandle)
    | GoesDown(h: PeerHandle)
    | Stops(h: PeerHandle)
    | Turns(h: PeerHandle, action: Action, next: World)

  /**
    * The stack delivers an ID's PeerDown before its next PeerUp, a Hello lists the channels there are, and
    * a handshake completes once. Between handshake and end a binding's control loop takes turns and
    * sessions ask it for things.
    */
  ghost predicate CanDo(t: Tables, a: Act) {
    match a
    case Binds(h, pid, announced) =>
      h !in t.bindings && (forall g :: g in t.bindings ==> t.bindings[g].id != pid)
          && Listed(announced) == t.channels.Keys
    case Handshakes(h, _, order) => (h in t.bindings ==> !t.bindings[h].handshook) && Listed(order) == t.channels.Keys
    case Stops(h) => h in t.bindings
    case Turns(h, x, next) =>
      && h in t.bindings && t.bindings[h].handshook && Step(t.bindings[h].w, x, next)
      && !x.Hello? && !x.Announce? && !x.Stop?
    case _ => true
  }

  function NewConn(pid: PeerID, announced: seq<ChannelID>): Conn {
    Conn(pid, announced, {}, map[], false, false, NEW_WORLD)
  }

  ghost function StopBinding(t: Tables, h: PeerHandle): Tables {
    if h in t.bindings then t.(bindings := t.bindings[h := Stopped(t.bindings[h])]) else t
  }

  ghost function Remove(t: Tables, h: PeerHandle): Tables {
    if Current(t, h) then Unready(t, h) else t
  }

  ghost function Do(t: Tables, a: Act): Tables
    requires t.members.Keys == t.channels.Keys && CanDo(t, a)
  {
    match a
    case AddsChannel(id, channel) => if id in t.channels then t else WithChannelAdded(t, id, channel)
    case RemovesChannel(id) => if id in t.channels then WithChannelRemoved(t, id) else t
    case Joins(h, id) => if Current(t, h) && id !in t.bindings[h].subs then Subscribed(t, h, id) else t
    case Quits(h, id) => if Current(t, h) && id in t.bindings[h].subs then Unsubscribed(t, h, id) else t
    case Binds(h, pid, announced) => t.(bindings := t.bindings[h := NewConn(pid, announced)])
    case Handshakes(h, listed, order) =>
      if h in t.bindings && !t.bindings[h].stopped then Enrolled(t, h, listed, order) else t
    case Finishes(h) => StopBinding(Remove(t, h), h)
    case GoesDown(h) =>
      var u := StopBinding(Remove(t, h), h);
      u.(bindings := u.bindings - {h})
    case Stops(h) => StopBinding(t, h)
    case Turns(h, _, next) => t.(bindings := t.bindings[h := t.bindings[h].(w := next)])
  }

  lemma FinishCoherent(t: Tables, h: PeerHandle)
    requires Coherent(t)
    ensures Coherent(Remove(t, h)) && !Current(Remove(t, h), h)
    ensures Coherent(StopBinding(Remove(t, h), h)) && !Current(StopBinding(Remove(t, h), h), h)
  {
    var u := Remove(t, h);
    if Current(t, h) {
      Unreadied(t, h);
    }
    if h in u.bindings {
      StoppedBinding(u, StopBinding(u, h), h);
    }
  }

  lemma DownCoherent(t: Tables, h: PeerHandle)
    requires Coherent(t)
    ensures Coherent(Do(t, GoesDown(h)))
  {
    var u := StopBinding(Remove(t, h), h);
    FinishCoherent(t, h);
    if h in u.bindings {
      Unbound(u, u.(bindings := u.bindings - {h}), h);
    } else {
      assert u.bindings - {h} == u.bindings;
    }
  }

  /** A handle that goes down ends and is forgotten. */
  lemma DownForgets(t: Tables, h: PeerHandle)
    requires t.members.Keys == t.channels.Keys
    ensures var u := Do(t, Finishes(h)); Do(t, GoesDown(h)) == u.(bindings := u.bindings - {h})
  {
  }

  /** Every step keeps the tables coherent. */
  lemma DoCoherent(t: Tables, a: Act)
    requires Coherent(t) && CanDo(t, a)
    ensures Coherent(Do(t, a))
  {
    match a
    case AddsChannel(id, channel) =>
      if id !in t.channels {
        ChannelAdded(t, id, channel);
      }
    case RemovesChannel(id) => ChannelRemoved(t, id);
    case Joins(h, id) =>
      if Current(t, h) && id !in t.bindings[h].subs {
        SubscribedOne(t, h, id);
      }
    case Quits(h, id) =>
      if Current(t, h) && id in t.bindings[h].subs {
        UnsubscribedOne(t, h, id);
      }
    case Binds(h, pid, announced) => NewlyBound(t, Do(t, a), h, NewConn(pid, announced));
    case Handshakes(h, listed, order) =>
      if h in t.bindings && !t.bindings[h].stopped {
        EnrolledCoherent(t, h, listed, order);
      }
    case Finishes(h) => FinishCoherent(t, h);
    case GoesDown(h) => DownCoherent(t, h);
    case Stops(h) => StoppedBinding(t, Do(t, a), h);
    case Turns(h, x, next) => Turned(t, Do(t, a), h, x, next);
  }

  const NO_TABLES := Tables(map[], map[], map[], map[])

  ghost predicate Does(t: Tables, a: Act, t': Tables) {
    t.members.Keys == t.channels.Keys ==> CanDo(t, a) && t' == Do(t, a)
  }

  lemma DoesCoherent(t: Tables, a: Act, t': Tables)
    requires Coherent(t) && Does(t, a, t')
    ensures Coherent(t')
  {
    DoCoherent(t, a);
  }

  ghost predicate IsEngineRun(tables: seq<Tables>, acts: seq<Act>) {
    && |tables| == |acts| + 1 && tables[0] == NO_TABLES
    && forall i :: 0 <= i < |acts| ==> Does(tables[i], acts[i], tables[i + 1])
  }

  /**
    * In every state of every run: each ready peer is to be told exactly the engine's channels, routes
    * exactly those it subscribes to, and every channel was told exactly the ready peers that do.
    */
  lemma {:induction false} RunCoherent(tables: seq<Tables>, acts: seq<Act>, n: nat)
    requires IsEngineRun(tables, acts) && n <= |acts|
    ensures Coherent(tables[n])
  {
    if n > 0 {
      RunCoherent(tables, acts, n - 1);
      DoesCoherent(tables[n - 1], acts[n - 1], tables[n]);
    }
  }

  /** In coherent tables a full drain of a ready peer leaves its remote with exactly the channels. */
  lemma CoherentConverges(t: Tables, pid: PeerID, events: seq<CtrlEvent>, s': State)
    requires Coherent(t) && pid in t.peers
    requires var w := t.bindings[t.peers[pid]].w; !w.s.closed && Drains(w.s, events, s')
    ensures t.bindings[t.peers[pid]].w.wanted == t.channels.Keys
    ensures TellAll(t.bindings[t.peers[pid]].w.told, events).channels == t.channels.Keys
  {
    var p := t.bindings[t.peers[pid]];
    assert Sound(p) && Ready(p, t.channels);
    ReachableConsistent(p.w);
    DrainConverges(p.w, events, s');
  }

  /**
    * Subscription convergence: in every state of every run of channel adds, removals, subscriptions,
    * handshakes, departures and control-loop turns, each ready peer's wanted set is the engine's channels,
    * and draining its control state leaves the remote believing exactly in them.
    */
  lemma SubscriptionsConverge(tables: seq<Tables>, acts: seq<Act>, n: nat, pid: PeerID, events: seq<CtrlEvent>,
      s': State)
    requires IsEngineRun(tables, acts) && n <= |acts| && pid in tables[n].peers
    ensures tables[n].peers[pid] in tables[n].bindings
    ensures var t, w := tables[n], tables[n].bindings[tables[n].peers[pid]].w;
            !w.s.closed ==>
              && w.wanted == t.channels.Keys
              && (Drains(w.s, events, s') ==> TellAll(w.told, events).channels == t.channels.Keys)
  {
    var t := tables[n];
    RunCoherent(tables, acts, n);
    assert Ready(t.bindings[t.peers[pid]], t.channels);
    var w := t.bindings[t.peers[pid]].w;
    if !w.s.closed && Drains(w.s, events, s') {
      CoherentConverges(t, pid, events, s');
    }
  }
}
