/** What every run of a channel's actor keeps. */
module ChannelRuns {
  import opened ChannelSpec
  import opened ChannelStreams
  import opened ChannelPlaces
  import opened Wire

  // ---------------------------------------------------------------------------
  // Events
  // ---------------------------------------------------------------------------

  datatype ChannelEvent =
    | ReadDoneEvent(message: MessageID, own: bool, judge: Chunk -> Judgement)
    | ChunkEvent(message: MessageID, chunk: Chunk, now: int, judge: Chunk -> Judgement)
    | ReaderEndsEvent(message: MessageID, stream: Stream, code: Code)
    | TakenEvent(message: MessageID, accepted: bool, complete: bool)
    | OpenEvent(message: MessageID, valid: bool, now: int, judge: Chunk -> Judgement)
    | BoundEvent(peer: PeerID, conn: Conn)
    | UnboundEvent(peer: PeerID, order: seq<MessageID>)
    | PublishEvent(message: MessageID, now: int)
    | ReconstructedEvent(message: MessageID, peer: PeerID)
    | SessionEndedEvent(message: MessageID, peer: PeerID, conn: Conn)
    | DecodedEvent(decode: nat, ok: bool)
    | DroppedEvent(decode: nat)
    | ExpiryEvent(order: seq<MessageID>, now: int)

  /** The session that started the decode is still registered. */
  predicate Registered(w: Chan, m: MessageID, d: nat) {
    m in w.sessions && w.sessions[m].serial == d
  }

  /**
   * The engine unbinds a peer before binding its next connection; streams are new; a loop over sessions
   * visits each; a decode's result is handled once, or dropped after its session was disposed of.
   */
  ghost predicate CanHandle(w: Chan, e: ChannelEvent) {
    match e
    case ChunkEvent(_, c, _, _) => c.stream !in w.places
    case ReaderEndsEvent(m, x, _) => m in w.sessions && x in w.sessions[m].readers
    case BoundEvent(p, c) => p in w.members ==> w.members[p] == c
    case UnboundEvent(_, order) => forall m :: m in w.sessions ==> m in order
    case ExpiryEvent(order, _) => forall m :: m in w.sessions ==> m in order
    case DecodedEvent(d, _) => d in w.results
    case DroppedEvent(d) => d in w.results && !Registered(w, w.results[d], d)
    case _ => true
  }

  ghost function Handle(w: Chan, e: ChannelEvent): Chan
    requires CanHandle(w, e)
  {
    match e
    case ReadDoneEvent(m, own, judge) => ReadDone(w, m, own, judge)
    case ChunkEvent(m, c, now, judge) => ChunkArrives(w, m, c, now, judge)
    case ReaderEndsEvent(m, x, code) => ReaderEnds(w, m, x, code)
    case TakenEvent(m, accepted, complete) => AcceptChunk(w, m, accepted, complete)
    case OpenEvent(m, valid, now, judge) => OpenSession(w, m, valid, now, judge)
    case BoundEvent(p, c) => PeerBound(w, p, c)
    case UnboundEvent(p, order) => PeerUnbound(w, p, order)
    case PublishEvent(m, now) => Publish(w, m, now)
    case ReconstructedEvent(m, p) => PeerReconstructed(w, m, p)
    case SessionEndedEvent(m, p, c) => PeerSessionEnded(w, m, p, c)
    case DecodedEvent(d, ok) => Decode(w, d, ok)
    case DroppedEvent(d) => DropResult(w, d)
    case ExpiryEvent(order, now) => Expire(w, order, now)
  }

  // ---------------------------------------------------------------------------
  // Streams
  // ---------------------------------------------------------------------------

  lemma LeavesOk(w: Chan, m: MessageID, p: PeerID)
    requires StreamsOk(w) && m in w.sessions
    ensures StreamsOk(PeerLeaves(w, m, p))
  {
    var v := w.(sessions := w.sessions[m := DropPeer(w.sessions[m], p)], places := EndQueued(w.places, m, p));
    DropOk(w, m, p);
    DisposeOk(v, m, false);
  }

  lemma {:induction false} LeaveAllOk(w: Chan, messages: seq<MessageID>, p: PeerID)
    requires StreamsOk(w)
    ensures StreamsOk(LeaveAll(w, messages, p))
    decreases |messages|
  {
    if messages != [] {
      var v := if messages[0] in w.sessions then PeerLeaves(w, messages[0], p) else w;
      if messages[0] in w.sessions {
        LeavesOk(w, messages[0], p);
      }
      LeaveAllOk(v, messages[1..], p);
    }
  }

  lemma {:induction false} ExpireSessionsOk(w: Chan, messages: seq<MessageID>, now: int)
    requires StreamsOk(w)
    ensures StreamsOk(ExpireSessions(w, messages, now))
    decreases |messages|
  {
    if messages != [] {
      var m := messages[0];
      var v := if Overdue(w.sessions, m, now) then Dispose(w, m, true) else w;
      DisposeOk(w, m, true);
      ExpireSessionsOk(v, messages[1..], now);
    }
  }

  /** A session whose reads are untouched is replaced by another version of itself. */
  lemma RewriteOk(w: Chan, m: MessageID, s: Session, v: Chan)
    requires StreamsOk(w) && m in w.sessions && SameReads(w.sessions[m], s)
    requires v.sessions == w.sessions[m := s] && v.places == w.places && v.parked == w.parked
    ensures StreamsOk(v)
  {
    SameReadsOk(w, v);
  }

  lemma PublishOk(w: Chan, m: MessageID, now: int)
    requires StreamsOk(w)
    ensures StreamsOk(Publish(w, m, now))
  {
    var d := Dispose(w, m, false);
    DisposeOk(w, m, false);
    NewSessionOk(d, m, NewSession(d, true, now), Publish(w, m, now));
  }

  lemma CompletedOk(w: Chan, m: MessageID, p: PeerID)
    requires StreamsOk(w)
    ensures StreamsOk(PeerReconstructed(w, m, p))
  {
    if m in w.sessions {
      var v := w.(sessions := w.sessions[m := CompletePeer(w.sessions[m], p)]);
      RewriteOk(w, m, CompletePeer(w.sessions[m], p), v);
      DisposeOk(v, m, false);
    }
  }

  lemma DecodeOk(w: Chan, d: nat, ok: bool)
    requires StreamsOk(w) && d in w.results
    ensures StreamsOk(Decode(w, d, ok))
  {
    var m, v := w.results[d], DropResult(w, d);
    SameReadsOk(w, v);
    if m in w.sessions {
      RewriteOk(v, m, w.sessions[m].(stage := Reconstructed), Deliver(v, m, d));
      DisposeOk(Deliver(v, m, d), m, false);
    }
  }

  lemma UnboundOk(w: Chan, p: PeerID, order: seq<MessageID>)
    requires StreamsOk(w)
    ensures StreamsOk(PeerUnbound(w, p, order))
  {
    var v := w.(members := w.members - {p});
    SameReadsOk(w, v);
    UnparkOk(v, p);
    LeaveAllOk(UnparkPeer(v, p), order, p);
  }

  /** Whatever happens, every stream stays in one place and no queued read is stranded. */
  lemma HandleStreams(w: Chan, e: ChannelEvent)
    requires StreamsOk(w) && CanHandle(w, e)
    ensures StreamsOk(Handle(w, e))
  {
    match e
    case ReadDoneEvent(m, own, judge) => ReadDoneOk(w, m, own, judge);
    case ChunkEvent(m, c, now, judge) => ChunkArrivesOk(w, m, c, now, judge);
    case ReaderEndsEvent(m, x, code) => ReaderEndsOk(w, m, x, code);
    case TakenEvent(m, accepted, complete) =>
      if m in w.sessions {
        SameReadsOk(w, Handle(w, e));
      }
    case OpenEvent(m, valid, now, judge) => OpenSessionOk(w, m, valid, now, judge);
    case BoundEvent(p, c) => SameReadsOk(w, PeerBound(w, p, c));
    case UnboundEvent(p, order) => UnboundOk(w, p, order);
    case PublishEvent(m, now) => PublishOk(w, m, now);
    case ReconstructedEvent(m, p) => CompletedOk(w, m, p);
    case SessionEndedEvent(m, p, c) =>
      if m in w.sessions {
        LeavesOk(w, m, p);
      }
    case DecodedEvent(d, ok) => DecodeOk(w, d, ok);
    case DroppedEvent(d) => SameReadsOk(w, DropResult(w, d));
    case ExpiryEvent(order, now) =>
      ExpireSessionsOk(w, order, now);
      ExpireParkedOk(ExpireSessions(w, order, now), now);
  }

  // ---------------------------------------------------------------------------
  // Peers and idleness
  // ---------------------------------------------------------------------------

  ghost predicate PeersAt(s: Session, members: map<PeerID, Conn>) {
    forall p :: p in s.peers ==> p in members && s.peers[p].conn == members[p]
  }

  ghost predicate SessionLive(w: Chan, m: MessageID) {
    m in w.sessions ==> PeersAt(w.sessions[m], w.members) && !Idle(w.sessions[m])
  }

  /** Attached peers are the current members on their current connections; no registered session is idle. */
  ghost predicate Live(w: Chan) {
    forall m :: SessionLive(w, m)
  }

  /** Sessions m aside, the sessions left are unchanged ones. */
  ghost predicate Subsumed(w: Chan, v: Chan, m: MessageID) {
    v.members == w.members && forall o :: o in v.sessions && o != m ==>
        o in w.sessions && v.sessions[o] == w.sessions[o]
  }

  lemma OneChanged(w: Chan, v: Chan, m: MessageID)
    requires Live(w) && Subsumed(w, v, m) && SessionLive(v, m)
    ensures Live(v)
  {
    forall o
      ensures SessionLive(v, o)
    {
      assert SessionLive(w, o);
    }
  }

  lemma DisposeLive(w: Chan, m: MessageID, expired: bool)
    requires Live(w)
    ensures Live(Dispose(w, m, expired))
  {
    OneChanged(w, Dispose(w, m, expired), m);
  }

  /** Dropping a peer keeps the rest attached. */
  lemma LeavesLive(w: Chan, m: MessageID, p: PeerID)
    requires Live(w) && m in w.sessions
    ensures Live(PeerLeaves(w, m, p))
  {
    assert SessionLive(w, m);
    OneChanged(w, PeerLeaves(w, m, p), m);
  }

  lemma NewSessionLive(w: Chan, origin: bool, now: int)
    ensures PeersAt(NewSession(w, origin, now), w.members) && !Idle(NewSession(w, origin, now))
  {
    var s := NewSession(w, origin, now);
    if w.members.Keys != {} {
      var p :| p in w.members;
      assert p in s.peers && !s.peers[p].completed;
    }
  }

  lemma BoundLive(w: Chan, p: PeerID, c: Conn)
    requires Live(w) && (p in w.members ==> w.members[p] == c)
    ensures Live(PeerBound(w, p, c))
  {
    var v := PeerBound(w, p, c);
    forall m
      ensures SessionLive(v, m)
    {
      assert SessionLive(w, m);
      if m in v.sessions && v != w {
        assert p in v.sessions[m].peers && !v.sessions[m].peers[p].completed;
      }
    }
  }

  /** Sessions still to be visited may hold the peer that left; the others are live without it. */
  ghost predicate Leaving(w: Chan, p: PeerID, was: Conn, order: seq<MessageID>) {
    forall m :: m in w.sessions ==>
      if m in order then PeersAt(w.sessions[m], w.members[p := was]) && p !in w.members
          && !Idle(w.sessions[m]) else SessionLive(w, m)
  }

  lemma LeaveOne(w: Chan, p: PeerID, was: Conn, order: seq<MessageID>)
    requires order != [] && p !in w.members && Leaving(w, p, was, order)
    ensures var v := if order[0] in w.sessions then PeerLeaves(w, order[0], p) else w;
            v.members == w.members && Leaving(v, p, was, order[1..])
  {
    var m := order[0];
    assert forall o :: o in order <==> o == m || o in order[1..];
    if m in w.sessions {
      LeftSession(w.sessions[m], p, was, w.members);
      LeftWorld(w, m, p);
    }
  }

  lemma LeftSession(s: Session, p: PeerID, was: Conn, members: map<PeerID, Conn>)
    requires PeersAt(s, members[p := was]) && p !in members
    ensures PeersAt(DropPeer(s, p), members)
  {
  }

  lemma LeftWorld(w: Chan, m: MessageID, p: PeerID)
    requires m in w.sessions
    ensures var v := PeerLeaves(w, m, p);
            && v.members == w.members
            && (m in v.sessions ==> v.sessions[m] == DropPeer(w.sessions[m], p) && !Idle(v.sessions[m]))
            && forall o :: o != m ==>
                (o in v.sessions <==> o in w.sessions)
                && (o in v.sessions ==> v.sessions[o] == w.sessions[o])
  {
  }

  lemma {:induction false} LeaveAllLive(w: Chan, p: PeerID, was: Conn, order: seq<MessageID>)
    requires p !in w.members && Leaving(w, p, was, order)
    ensures Live(LeaveAll(w, order, p))
    decreases |order|
  {
    if order == [] {
      forall m
        ensures SessionLive(w, m)
      {
      }
    } else {
      var v := if order[0] in w.sessions then PeerLeaves(w, order[0], p) else w;
      LeaveOne(w, p, was, order);
      LeaveAllLive(v, p, was, order[1..]);
    }
  }

  lemma UnboundLive(w: Chan, p: PeerID, order: seq<MessageID>)
    requires Live(w) && forall m :: m in w.sessions ==> m in order
    ensures Live(PeerUnbound(w, p, order))
  {
    var v := UnparkPeer(w.(members := w.members - {p}), p);
    var was := if p in w.members then w.members[p] else 0;
    forall m | m in v.sessions
      ensures m in order && PeersAt(v.sessions[m], v.members[p := was]) && !Idle(v.sessions[m])
    {
      assert SessionLive(w, m);
    }
    LeaveAllLive(v, p, was, order);
  }

  lemma {:induction false} ExpireSessionsLive(w: Chan, messages: seq<MessageID>, now: int)
    requires Live(w)
    ensures Live(ExpireSessions(w, messages, now))
    decreases |messages|
  {
    if messages != [] {
      var m := messages[0];
      var v := if Overdue(w.sessions, m, now) then Dispose(w, m, true) else w;
      DisposeLive(w, m, true);
      ExpireSessionsLive(v, messages[1..], now);
    }
  }

  lemma SameSessionsLive(w: Chan, v: Chan)
    requires Live(w) && v.sessions == w.sessions && v.members == w.members
    ensures Live(v)
  {
    assert SessionLive(w, 0);
    OneChanged(w, v, 0);
  }

  /** A session keeps its peers and is not moved past decoding. */
  lemma SamePeersLive(w: Chan, v: Chan, m: MessageID)
    requires Live(w) && m in w.sessions && m in v.sessions && Subsumed(w, v, m)
    requires v.sessions[m].peers == w.sessions[m].peers && v.sessions[m].everHadPeers == w.sessions[m].everHadPeers
    requires (Rank(v.sessions[m].stage) < 2) == (Rank(w.sessions[m].stage) < 2)
    ensures Live(v)
  {
    assert SessionLive(w, m);
    OneChanged(w, v, m);
  }

  /** Only reads changed: everything else about the session is as it was. */
  ghost predicate OnlyReads(s: Session, t: Session) {
    t == s.(queue := t.queue, readers := t.readers, done := t.done)
  }

  lemma ReadDoneKeeps(w: Chan, m: MessageID, own: bool, judge: Chunk -> Judgement)
    requires m in w.sessions
    ensures var v := ReadDone(w, m, own, judge);
            m in v.sessions && OnlyReads(w.sessions[m], v.sessions[m])
                && v == w.(sessions := w.sessions[m := v.sessions[m]], places := v.places)
  {
    var s := w.sessions[m];
    DrainKeeps(Work(if own && s.done > 0 then s.(done := s.done - 1) else s, w.places), m, judge);
  }

  lemma ChunkKeeps(w: Chan, m: MessageID, c: Chunk, now: int, judge: Chunk -> Judgement)
    requires m in w.sessions
    ensures var v := ChunkArrives(w, m, c, now, judge);
            m in v.sessions && OnlyReads(w.sessions[m], v.sessions[m])
                && v == w.(sessions := w.sessions[m := v.sessions[m]], places := v.places)
  {
    DrainKeeps(Work(w.sessions[m], w.places), m, judge);
  }

  lemma ReadsLive(w: Chan, v: Chan, m: MessageID)
    requires Live(w) && m in w.sessions && m in v.sessions && OnlyReads(w.sessions[m], v.sessions[m])
    requires v == w.(sessions := w.sessions[m := v.sessions[m]], places := v.places)
    ensures Live(v)
  {
    SamePeersLive(w, v, m);
  }

  lemma OpenLive(w: Chan, m: MessageID, valid: bool, now: int, judge: Chunk -> Judgement)
    requires Live(w)
    ensures Live(OpenSession(w, m, valid, now, judge))
  {
    if m !in w.sessions && valid {
      NewSessionLive(w, false, now);
      HandleAllKeeps(Work(NewSession(w, false, now), w.places), m, if m in w.parked then w.parked[m].streams
          else [], judge);
      OneChanged(w, OpenSession(w, m, valid, now, judge), m);
    }
  }

  lemma PublishLive(w: Chan, m: MessageID, now: int)
    requires Live(w)
    ensures Live(Publish(w, m, now))
  {
    var d := Dispose(w, m, false);
    DisposeLive(w, m, false);
    NewSessionLive(d, true, now);
    OneChanged(d, Publish(w, m, now), m);
  }

  lemma CompletedLive(w: Chan, m: MessageID, p: PeerID)
    requires Live(w) && m in w.sessions
    ensures Live(PeerReconstructed(w, m, p))
  {
    assert SessionLive(w, m);
    OneChanged(w, PeerReconstructed(w, m, p), m);
  }

  lemma DecodeLive(w: Chan, d: nat, ok: bool)
    requires Live(w) && d in w.results
    ensures Live(Decode(w, d, ok))
  {
    assert SessionLive(w, w.results[d]);
    OneChanged(w, Decode(w, d, ok), w.results[d]);
  }

  /** After every event no registered session is idle, and attached peers are current members. */
  lemma HandleLive(w: Chan, e: ChannelEvent)
    requires Live(w) && CanHandle(w, e)
    ensures Live(Handle(w, e))
  {
    match e
    case ReadDoneEvent(m, own, judge) =>
      if m in w.sessions {
        ReadDoneKeeps(w, m, own, judge);
        ReadsLive(w, Handle(w, e), m);
      }
    case ChunkEvent(m, c, now, judge) =>
      if m in w.sessions {
        ChunkKeeps(w, m, c, now, judge);
        ReadsLive(w, Handle(w, e), m);
      } else {
        SameSessionsLive(w, Handle(w, e));
      }
    case ReaderEndsEvent(m, x, code) => SamePeersLive(w, Handle(w, e), m);
    case TakenEvent(m, accepted, complete) =>
      if m in w.sessions {
        SamePeersLive(w, Handle(w, e), m);
      }
    case OpenEvent(m, valid, now, judge) => OpenLive(w, m, valid, now, judge);
    case BoundEvent(p, c) => BoundLive(w, p, c);
    case UnboundEvent(p, order) => UnboundLive(w, p, order);
    case PublishEvent(m, now) => PublishLive(w, m, now);
    case ReconstructedEvent(m, p) =>
      if m in w.sessions {
        CompletedLive(w, m, p);
      }
    case SessionEndedEvent(m, p, c) =>
      if m in w.sessions {
        LeavesLive(w, m, p);
      }
    case DecodedEvent(d, ok) => DecodeLive(w, d, ok);
    case DroppedEvent(d) => SameSessionsLive(w, DropResult(w, d));
    case ExpiryEvent(order, now) =>
      ExpireSessionsLive(w, order, now);
      SameSessionsLive(ExpireSessions(w, order, now), Expire(w, order, now));
  }
}
