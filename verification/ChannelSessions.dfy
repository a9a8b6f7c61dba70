/** Which sessions each event of a channel starts, keeps and disposes of, and who its members are. */
module ChannelSessions {
  import opened ChannelSpec
  import opened ChannelStreams
  import opened ChannelRuns
  import opened ChannelLogs
  import opened ChannelEffects

  // ---------------------------------------------------------------------------
  // Sessions and members
  // ---------------------------------------------------------------------------

  /** The event registers a new session for the message. */
  predicate Starts(w: Chan, e: ChannelEvent, m: MessageID) {
    match e
    case PublishEvent(o, _) => o == m
    case OpenEvent(o, valid, _, _) => o == m && valid && m !in w.sessions
    case _ => false
  }

  /** A session as it starts: its number, its stage, its age, and the members as its peers. */
  ghost predicate NewlyStarted(w: Chan, e: ChannelEvent, s: Session)
    requires e.PublishEvent? || e.OpenEvent?
  {
    && s.serial == w.nextSerial && s.createdAt == e.now && s.stage == (if e.PublishEvent? then Origin else Consuming)
    && s.everHadPeers == (w.members != map[]) && s.peers == map p | p in w.members :: SessionPeer(w.members[p], false)
  }

  /** The peers the message's session should have after the event, if it goes on. */
  function DuePeers(w: Chan, e: ChannelEvent, m: MessageID): map<PeerID, SessionPeer>
    requires m in w.sessions
  {
    var peers := w.sessions[m].peers;
    match e
    case BoundEvent(p, c) =>
      if p in peers || (p in w.members && w.members[p] == c) then peers else peers[p := SessionPeer(c, false)]
    case UnboundEvent(p, _) => peers - {p}
    case SessionEndedEvent(_, p, _) => if Leaves(w, e, m, p) then peers - {p} else peers
    case ReconstructedEvent(o, p) =>
      if o == m && p in peers then peers[p := peers[p].(completed := true)] else peers
    case _ => peers
  }

  /** The stage it should have: decoding once its last chunk is taken, decoded once a result is handed to it. */
  ghost function DueStage(w: Chan, e: ChannelEvent, m: MessageID): Stage
    requires CanHandle(w, e) && m in w.sessions
  {
    var stage := w.sessions[m].stage;
    match e
    case TakenEvent(o, accepted, complete) =>
      if o == m && accepted && complete && stage == Consuming then Decoding else stage
    case DecodedEvent(d, ok) => if w.results[d] == m && ok && !Delivered(stage) then Reconstructed else stage
    case _ => stage
  }

  /** A session that goes on: it keeps its number and its age, and remembers that it had peers. */
  predicate GoesOn(s: Session, t: Session, stage: Stage, peers: map<PeerID, SessionPeer>) {
    && t.serial == s.serial && t.createdAt == s.createdAt && t.stage == stage && t.peers == peers
    && t.everHadPeers == (s.everHadPeers || peers != map[])
  }

  lemma NewAsStarted(w: Chan, origin: bool, now: int)
    ensures var s := NewSession(w, origin, now);
            && s.everHadPeers == (w.members != map[]) && s.createdAt == now && s.serial == w.nextSerial
            && s.peers == map p | p in w.members :: SessionPeer(w.members[p], false)
  {
    assert w.members.Keys != {} <==> w.members != map[];
  }

  lemma StartedAsDue(w: Chan, e: ChannelEvent, m: MessageID)
    requires CanHandle(w, e) && Starts(w, e, m)
    ensures m in Handle(w, e).sessions && NewlyStarted(w, e, Handle(w, e).sessions[m])
  {
    if e.OpenEvent? {
      NewAsStarted(w, false, e.now);
      HandleAllKeeps(Work(NewSession(w, false, e.now), w.places), m, if m in w.parked then w.parked[m].streams else [],
          e.judge);
    } else {
      NewAsStarted(Dispose(w, m, false), true, e.now);
    }
  }

  lemma {:induction false} LeaveAllSessions(w: Chan, messages: seq<MessageID>, p: PeerID, m: MessageID)
    requires m in w.sessions
    ensures var v, s := LeaveAll(w, messages, p), w.sessions[m];
            && (m in v.sessions <==>
                  !(m in messages && Finished(Delivered(s.stage), s.everHadPeers, s.peers - {p})))
            && (m in v.sessions ==> v.sessions[m] == if m in messages then DropPeer(s, p) else s)
    decreases |messages|
  {
    if messages != [] {
      var o, s := messages[0], w.sessions[m];
      var next := if o in w.sessions then PeerLeaves(w, o, p) else w;
      if o in w.sessions {
        LeavesSession(w, o, p);
      }
      DropTwice(s, p);
      if m in next.sessions {
        LeaveAllSessions(next, messages[1..], p, m);
      } else {
        LeaveAllGone(next, messages[1..], p, m);
      }
      assert forall x :: x in messages <==> x == o || x in messages[1..];
    }
  }

  lemma {:induction false} KeptTwice(chunks: seq<Chunk>, p: PeerID)
    ensures KeepOthers(KeepOthers(chunks, p), p) == KeepOthers(chunks, p)
  {
    if chunks != [] {
      KeptTwice(chunks[1..], p);
      var rest := KeepOthers(chunks[1..], p);
      if chunks[0].peer == p {
        assert [] + rest == rest;
      } else {
        assert ([chunks[0]] + rest)[1..] == rest;
      }
    }
  }

  lemma DropTwice(s: Session, p: PeerID)
    ensures DropPeer(DropPeer(s, p), p) == DropPeer(s, p) && DropPeer(s, p).peers - {p} == DropPeer(s, p).peers
  {
    KeptTwice(s.queue, p);
    assert s.peers - {p} - {p} == s.peers - {p};
  }

  lemma {:induction false} LeaveAllGone(w: Chan, messages: seq<MessageID>, p: PeerID, m: MessageID)
    requires m !in w.sessions
    ensures m !in LeaveAll(w, messages, p).sessions
    decreases |messages|
  {
    if messages != [] {
      LeaveAllGone(if messages[0] in w.sessions then PeerLeaves(w, messages[0], p) else w, messages[1..], p, m);
    }
  }

  lemma {:induction false} ExpireSessionsAt(w: Chan, messages: seq<MessageID>, now: int, m: MessageID)
    ensures var v := ExpireSessions(w, messages, now);
            && (m in v.sessions <==> m in w.sessions && !(m in messages && Overdue(w.sessions, m, now)))
            && (m in v.sessions ==> v.sessions[m] == w.sessions[m])
    decreases |messages|
  {
    if messages != [] {
      var next := if Overdue(w.sessions, messages[0], now) then Dispose(w, messages[0], true) else w;
      ExpireSessionsAt(next, messages[1..], now, m);
      assert forall x :: x in messages <==> x == messages[0] || x in messages[1..];
    }
  }

  /** Whether the message's session goes on, and as what. */
  ghost predicate StaysAsDue(w: Chan, e: ChannelEvent, m: MessageID)
    requires CanHandle(w, e) && m in w.sessions
  {
    var v := Handle(w, e);
    && (m in v.sessions <==> !GoneBy(w, e, m))
    && (m in v.sessions ==> GoesOn(w.sessions[m], v.sessions[m], DueStage(w, e, m), DuePeers(w, e, m)))
  }

  lemma LeavingStays(w: Chan, e: ChannelEvent, m: MessageID)
    requires CanHandle(w, e) && m in w.sessions && HadPeers(w.sessions[m]) && (e.UnboundEvent? || e.SessionEndedEvent?)
    ensures StaysAsDue(w, e, m)
  {
    if e.UnboundEvent? {
      LeaveAllSessions(UnparkPeer(w.(members := w.members - {e.peer}), e.peer), e.order, e.peer, m);
    } else if e.message in w.sessions {
      LeavesSession(w, e.message, e.peer);
    }
  }

  lemma CompleteSession(w: Chan, o: MessageID, p: PeerID, m: MessageID)
    requires m in w.sessions
    ensures var v, s := PeerReconstructed(w, o, p), w.sessions[m];
            var peers := if o == m && p in s.peers then s.peers[p := s.peers[p].(completed := true)] else s.peers;
            && (m in v.sessions <==> !(o == m && Finished(Delivered(s.stage), s.everHadPeers, peers)))
            && (m in v.sessions ==> v.sessions[m] == s.(peers := peers))
  {
    IdleMeans(CompletePeer(w.sessions[m], p));
  }

  lemma CompletedStays(w: Chan, e: ChannelEvent, m: MessageID)
    requires CanHandle(w, e) && m in w.sessions && HadPeers(w.sessions[m]) && e.ReconstructedEvent?
    ensures StaysAsDue(w, e, m)
  {
    CompleteSession(w, e.message, e.peer, m);
  }

  lemma DecodeSession(w: Chan, d: nat, ok: bool, m: MessageID)
    requires d in w.results && m in w.sessions
    ensures var v, s := Decode(w, d, ok), w.sessions[m];
            var now := w.results[d] == m && ok && !Delivered(s.stage);
            && (m in v.sessions <==> !(now && Finished(true, s.everHadPeers, s.peers)))
            && (m in v.sessions ==> v.sessions[m] == if now then s.(stage := Reconstructed) else s)
  {
    IdleMeans(w.sessions[m].(stage := Reconstructed));
  }

  lemma DecodedStays(w: Chan, e: ChannelEvent, m: MessageID)
    requires CanHandle(w, e) && m in w.sessions && HadPeers(w.sessions[m]) && e.DecodedEvent?
    ensures StaysAsDue(w, e, m)
  {
    DecodeSession(w, e.decode, e.ok, m);
  }

  lemma ReadDoneStays(w: Chan, e: ChannelEvent, m: MessageID)
    requires CanHandle(w, e) && m in w.sessions && HadPeers(w.sessions[m]) && e.ReadDoneEvent?
    ensures StaysAsDue(w, e, m)
  {
    if e.message in w.sessions {
      ReadDoneKeeps(w, e.message, e.own, e.judge);
    }
  }

  lemma ChunkStays(w: Chan, e: ChannelEvent, m: MessageID)
    requires CanHandle(w, e) && m in w.sessions && HadPeers(w.sessions[m]) && e.ChunkEvent?
    ensures StaysAsDue(w, e, m)
  {
    if e.message in w.sessions {
      ChunkKeeps(w, e.message, e.chunk, e.now, e.judge);
    }
  }

  /** A session with peers has had peers. */
  predicate HadPeers(s: Session) {
    s.peers != map[] ==> s.everHadPeers
  }

  /** Over one event: which sessions go on, and which start. */
  lemma SessionsAsDue(w: Chan, e: ChannelEvent, m: MessageID)
    requires CanHandle(w, e) && (m in w.sessions ==> HadPeers(w.sessions[m]))
    ensures Starts(w, e, m) ==> m in Handle(w, e).sessions && NewlyStarted(w, e, Handle(w, e).sessions[m])
    ensures !Starts(w, e, m) && m in w.sessions ==> StaysAsDue(w, e, m)
    ensures !Starts(w, e, m) && m !in w.sessions ==> m !in Handle(w, e).sessions
    ensures m in Handle(w, e).sessions ==> HadPeers(Handle(w, e).sessions[m])
  {
    if Starts(w, e, m) {
      StartedAsDue(w, e, m);
    } else if m in w.sessions {
      OthersStay(w, e, m);
    } else {
      NoneAppears(w, e, m);
    }
  }

  lemma BoundStays(w: Chan, e: ChannelEvent, m: MessageID)
    requires CanHandle(w, e) && m in w.sessions && HadPeers(w.sessions[m]) && e.BoundEvent?
    ensures StaysAsDue(w, e, m)
  {
    assert e.peer in AttachPeer(w.sessions[m], e.peer, e.conn).peers;
  }

  lemma ExpiryStays(w: Chan, e: ChannelEvent, m: MessageID)
    requires CanHandle(w, e) && m in w.sessions && HadPeers(w.sessions[m]) && e.ExpiryEvent?
    ensures StaysAsDue(w, e, m)
  {
    ExpireSessionsAt(w, e.order, e.now, m);
  }

  lemma OthersStay(w: Chan, e: ChannelEvent, m: MessageID)
    requires CanHandle(w, e) && m in w.sessions && HadPeers(w.sessions[m]) && !Starts(w, e, m)
    ensures StaysAsDue(w, e, m)
  {
    match e
    case ReadDoneEvent(_, _, _) => ReadDoneStays(w, e, m);
    case ChunkEvent(_, _, _, _) => ChunkStays(w, e, m);
    case UnboundEvent(_, _) => LeavingStays(w, e, m);
    case SessionEndedEvent(_, _, _) => LeavingStays(w, e, m);
    case ReconstructedEvent(_, _) => CompletedStays(w, e, m);
    case DecodedEvent(_, _) => DecodedStays(w, e, m);
    case BoundEvent(_, _) => BoundStays(w, e, m);
    case ExpiryEvent(_, _) => ExpiryStays(w, e, m);
    case _ => RestStay(w, e, m);
  }

  lemma RestStay(w: Chan, e: ChannelEvent, m: MessageID)
    requires CanHandle(w, e) && m in w.sessions && HadPeers(w.sessions[m]) && !Starts(w, e, m)
    requires e.ReaderEndsEvent? || e.TakenEvent? || e.OpenEvent? || e.PublishEvent? || e.DroppedEvent?
    ensures StaysAsDue(w, e, m)
  {
  }

  lemma NoneAppears(w: Chan, e: ChannelEvent, m: MessageID)
    requires CanHandle(w, e) && m !in w.sessions && !Starts(w, e, m)
    ensures m !in Handle(w, e).sessions
  {
    match e
    case UnboundEvent(p, order) => LeaveAllGone(UnparkPeer(w.(members := w.members - {p}), p), order, p, m);
    case ExpiryEvent(order, now) => ExpireSessionsAt(w, order, now, m);
    case _ =>
  }

  /** The connection the peer is a member on: that of its last binding, unless it was unbound since. */
  function MemberNow(events: seq<ChannelEvent>, n: nat, p: PeerID): (c: set<Conn>)
    requires n <= |events|
    ensures |c| <= 1
  {
    if n == 0 then {}
    else
      match events[n - 1]
      case BoundEvent(x, c) => if x == p then {c} else MemberNow(events, n - 1, p)
      case UnboundEvent(x, _) => if x == p then {} else MemberNow(events, n - 1, p)
      case _ => MemberNow(events, n - 1, p)
  }

  lemma MembersStep(w: Chan, e: ChannelEvent)
    requires CanHandle(w, e)
    ensures Handle(w, e).members ==
            match e
            case BoundEvent(p, c) => w.members[p := c]
            case UnboundEvent(p, _) => w.members - {p}
            case _ => w.members
  {
    match e
    case UnboundEvent(p, order) => LeaveAllMembers(UnparkPeer(w.(members := w.members - {p}), p), order, p);
    case ExpiryEvent(order, now) => ExpireMembers(w, order, now);
    case _ =>
  }

  lemma {:induction false} LeaveAllMembers(w: Chan, messages: seq<MessageID>, p: PeerID)
    ensures LeaveAll(w, messages, p).members == w.members && LeaveAll(w, messages, p).results == w.results
    decreases |messages|
  {
    if messages != [] {
      LeaveAllMembers(if messages[0] in w.sessions then PeerLeaves(w, messages[0], p) else w, messages[1..], p);
    }
  }

  lemma {:induction false} ExpireMembers(w: Chan, messages: seq<MessageID>, now: int)
    ensures ExpireSessions(w, messages, now).members == w.members
    ensures ExpireSessions(w, messages, now).results == w.results
    decreases |messages|
  {
    if messages != [] {
      ExpireMembers(if Overdue(w.sessions, messages[0], now) then Dispose(w, messages[0], true) else w, messages[1..],
          now);
    }
  }

  // ---------------------------------------------------------------------------
  // Runs
  // ---------------------------------------------------------------------------

  /** After every run the members are the peers bound and not unbound since, on the connections they bound. */
  lemma {:induction false} MembersAsBound(chans: seq<Chan>, events: seq<ChannelEvent>, n: nat, p: PeerID)
    requires IsChannelRun(chans, events) && chans[0] == NEW_CHAN && n <= |events|
    ensures MemberNow(events, n, p) == if p in chans[n].members then {chans[n].members[p]} else {}
  {
    if n > 0 {
      MembersAsBound(chans, events, n - 1, p);
      MembersStep(chans[n - 1], events[n - 1]);
    }
  }

  lemma {:induction false} RunHadPeers(chans: seq<Chan>, events: seq<ChannelEvent>, n: nat, m: MessageID)
    requires IsChannelRun(chans, events) && chans[0] == NEW_CHAN && n <= |events| && m in chans[n].sessions
    ensures HadPeers(chans[n].sessions[m])
  {
    if n > 0 {
      if m in chans[n - 1].sessions {
        RunHadPeers(chans, events, n - 1, m);
      }
      SessionsAsDue(chans[n - 1], events[n - 1], m);
    }
  }

  /**
   * At every event of every run: a message has a session afterwards if and only if the event starts one, or
   * it had one the event does not dispose of. One that starts has the members as peers and counts its age
   * from the event; one that goes on keeps its number and age.
   */
  lemma RunSessions(chans: seq<Chan>, events: seq<ChannelEvent>, j: nat, m: MessageID)
    requires IsChannelRun(chans, events) && chans[0] == NEW_CHAN && j < |events|
    ensures var w, v, e := chans[j], chans[j + 1], events[j];
            && (m in v.sessions <==> Starts(w, e, m) || (m in w.sessions && !GoneBy(w, e, m)))
            && (m in v.sessions && Starts(w, e, m) ==> NewlyStarted(w, e, v.sessions[m]))
            && (m in v.sessions && !Starts(w, e, m) ==>
                  GoesOn(w.sessions[m], v.sessions[m], DueStage(w, e, m), DuePeers(w, e, m)))
  {
    if m in chans[j].sessions {
      RunHadPeers(chans, events, j, m);
    }
    SessionsAsDue(chans[j], events[j], m);
  }

  /** The message whose session starts a decode at the event: its last chunk needed is taken. */
  predicate StartsDecode(w: Chan, e: ChannelEvent) {
    && e.TakenEvent? && e.accepted && e.complete && e.message in w.sessions
    && w.sessions[e.message].stage == Consuming
  }

  /** A successful result is handed to a session that has not delivered. */
  predicate Delivers(w: Chan, e: ChannelEvent) {
    && e.DecodedEvent? && e.ok && e.decode in w.results && w.results[e.decode] in w.sessions
    && !Delivered(w.sessions[w.results[e.decode]].stage)
  }

  /** What the event adds to the logs, and which results are outstanding after it. */
  ghost predicate LoggedAsDue(w: Chan, e: ChannelEvent, v: Chan) {
    && v.decoded == w.decoded + (if StartsDecode(w, e) then [w.sessions[e.message].serial] else [])
    && v.delivered == w.delivered + (if Delivers(w, e)
                                     then [Delivery(w.sessions[w.results[e.decode]].serial, e.decode)] else [])
    && v.results == (if StartsDecode(w, e) then w.results[w.sessions[e.message].serial := e.message]
                     else if e.DecodedEvent? || e.DroppedEvent? then w.results - {e.decode} else w.results)
  }

  lemma QuietResults(w: Chan, e: ChannelEvent)
    requires CanHandle(w, e) && !e.TakenEvent? && !e.DecodedEvent? && !e.DroppedEvent?
    ensures Handle(w, e).results == w.results
  {
    match e
    case UnboundEvent(p, order) => LeaveAllMembers(UnparkPeer(w.(members := w.members - {p}), p), order, p);
    case ExpiryEvent(order, now) => ExpireMembers(w, order, now);
    case _ =>
  }

  lemma LogsAsDue(w: Chan, e: ChannelEvent)
    requires CanHandle(w, e)
    ensures LoggedAsDue(w, e, Handle(w, e))
  {
    assert w.decoded + [] == w.decoded && w.delivered + [] == w.delivered;
    match e
    case TakenEvent(_, _, _) =>
    case DecodedEvent(_, _) =>
    case DroppedEvent(_) =>
    case PublishEvent(_, _) => QuietResults(w, e);
    case OpenEvent(_, _, _, _) => QuietResults(w, e);
    case _ =>
      QuietCarries(w, e);
      QuietResults(w, e);
  }

  /**
   * At every event of every run: a session starts a decode when it takes the last chunk it needs, and one
   * that has not delivered delivers when a successful result of its message is handled; nothing else is logged.
   */
  lemma RunLogs(chans: seq<Chan>, events: seq<ChannelEvent>, j: nat)
    requires IsChannelRun(chans, events) && chans[0] == NEW_CHAN && j < |events|
    ensures LoggedAsDue(chans[j], events[j], chans[j + 1])
  {
    LogsAsDue(chans[j], events[j]);
  }
}
