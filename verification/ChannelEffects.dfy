/** What each event of a channel does to every stream and session, said without the steps it takes. */
module ChannelEffects {
  import opened ChannelSpec
  import opened ChannelStreams
  import opened ChannelPlaces
  import opened ChannelRuns
  import opened ChannelLogs
  import opened ChannelHistory
  import opened Wire

  // ---------------------------------------------------------------------------
  // Reading or refusing a chunk
  // ---------------------------------------------------------------------------

  /**
   * What a session at this stage makes of a stream for a chunk: malformed ones end as unspecified, those
   * past consuming or held end as redundant, needed ones are read or queued.
   */
  predicate Judged(stage: Stage, j: Judgement, p: Place, m: MessageID, c: Chunk) {
    && (p == Ended(UNSPECIFIED) <==> j == Malformed)
    && (p == Ended(REDUNDANT) <==> j != Malformed && (stage != Consuming || j == Held))
    && (p == Reading(m, c) || p == Queued(m, c) <==> j == Needed && stage == Consuming)
  }

  lemma StreamJudged(k: Work, m: MessageID, c: Chunk, judge: Chunk -> Judgement)
    ensures var e := HandleChunkStream(k, m, c, judge);
            && c.stream in e.places && Judged(k.session.stage, judge(c), e.places[c.stream], m, c)
            && e.session.stage == k.session.stage
            && (e.places[c.stream] == Queued(m, c) ==>
                  |e.session.readers| >= MAX_CONCURRENT_READS && e.session.queue == k.session.queue + [c])
            && (e.places[c.stream] != Queued(m, c) ==> e.session.queue == k.session.queue)
  {
  }

  /** Streams that moved were this message's, and each is where its judgement puts it. */
  ghost predicate MovedAsJudged(before: map<Stream, Place>, after: map<Stream, Place>, stage: Stage, m: MessageID,
      judge: Chunk -> Judgement) {
    forall x :: x in before && x in after && after[x] != before[x] ==>
      && !before[x].Ended? && !before[x].Reading? && before[x].message == m
      && Judged(stage, judge(before[x].chunk), after[x], m, before[x].chunk)
  }

  /** Draining takes streams from the front of the queue, each to where its judgement puts it. */
  lemma {:induction false} DrainJudged(k: Work, m: MessageID, judge: Chunk -> Judgement) returns (i: nat)
    requires Tied(k, m, {}) && |k.session.readers| <= MAX_CONCURRENT_READS
    ensures var e := DrainReads(k, m, judge);
            && i <= |k.session.queue| && e.session.queue == k.session.queue[i..] && e.session.stage == k.session.stage
            && MovedAsJudged(k.places, e.places, k.session.stage, m, judge)
    decreases |k.session.queue|
  {
    var s := k.session;
    if s.queue == [] || |s.readers| >= MAX_CONCURRENT_READS {
      i := 0;
    } else {
      var c, next := s.queue[0], HandleChunkStream(Popped(k), m, s.queue[0], judge);
      assert c in s.queue;
      DrainStep(k, m, judge, {});
      StreamJudged(Popped(k), m, c, judge);
      var j := DrainJudged(next, m, judge);
      i := j + 1;
      DrainMoves(next, m, judge);
      DrainedMore(k, m, judge, next);
      assert s.queue[1..][j..] == s.queue[i..];
    }
  }

  /** A stream being read or ended is where it was after a drain. */
  lemma DrainKeepsMoved(k: Work, m: MessageID, judge: Chunk -> Judgement, x: Stream)
    requires x in k.places && (k.places[x].Ended? || k.places[x].Reading?)
    requires MovedAsJudged(k.places, DrainReads(k, m, judge).places, k.session.stage, m, judge)
    requires x in DrainReads(k, m, judge).places
    ensures DrainReads(k, m, judge).places[x] == k.places[x]
  {
  }

  lemma DrainedMore(k: Work, m: MessageID, judge: Chunk -> Judgement, next: Work)
    requires Tied(k, m, {}) && k.session.queue != [] && |k.session.readers| < MAX_CONCURRENT_READS
    requires next == HandleChunkStream(Popped(k), m, k.session.queue[0], judge)
    requires k.session.queue[0].stream in DrainReads(next, m, judge).places
    requires MovedAsJudged(next.places, DrainReads(next, m, judge).places, k.session.stage, m, judge)
    ensures MovedAsJudged(k.places, DrainReads(next, m, judge).places, k.session.stage, m, judge)
  {
    var c := k.session.queue[0];
    assert c in k.session.queue && k.places[c.stream] == Queued(m, c);
    StreamJudged(Popped(k), m, c, judge);
    OneStream(Popped(k), m, c, judge);
    DrainKeepsMoved(next, m, judge, c.stream);
    OneMoreMoved(k.places, next.places, DrainReads(next, m, judge).places, k.session.stage, m, judge, c);
  }

  /** One stream is handled: only its place changes, and with a slot free it is not queued. */
  lemma OneStream(k: Work, m: MessageID, c: Chunk, judge: Chunk -> Judgement)
    ensures var e := HandleChunkStream(k, m, c, judge);
            && c.stream in e.places && e.places == k.places[c.stream := e.places[c.stream]]
            && (|k.session.readers| < MAX_CONCURRENT_READS ==>
                  e.places[c.stream].Ended? || e.places[c.stream] == Reading(m, c))
  {
  }

  lemma OneMoreMoved(before: map<Stream, Place>, mid: map<Stream, Place>, after: map<Stream, Place>, stage: Stage,
      m: MessageID, judge: Chunk -> Judgement, c: Chunk)
    requires c.stream in before && (before[c.stream] == Queued(m, c) || before[c.stream] == Parked(m, c))
    requires c.stream in mid && mid == before[c.stream := mid[c.stream]]
    requires Judged(stage, judge(c), mid[c.stream], m, c)
    requires c.stream in after && after[c.stream] == mid[c.stream]
    requires MovedAsJudged(mid, after, stage, m, judge)
    ensures MovedAsJudged(before, after, stage, m, judge)
  {
  }

  /** Every chunk of a group taken over is where its judgement puts it; no other stream moved. */
  ghost predicate GroupJudged(before: map<Stream, Place>, after: map<Stream, Place>, chunks: seq<Chunk>, stage: Stage,
      m: MessageID, judge: Chunk -> Judgement) {
    && (forall c :: c in chunks ==> c.stream in after && Judged(stage, judge(c), after[c.stream], m, c))
    && (forall x :: x in before && x !in Streams(chunks) ==> x in after && after[x] == before[x])
  }

  lemma {:induction false} TakeOverJudged(k: Work, m: MessageID, chunks: seq<Chunk>, judge: Chunk -> Judgement)
    requires DistinctStreams(chunks)
    ensures GroupJudged(k.places, HandleAll(k, m, chunks, judge).places, chunks, k.session.stage, m, judge)
    decreases |chunks|
  {
    if chunks == [] {
      assert Streams(chunks) == {};
    } else {
      var c, next := chunks[0], HandleChunkStream(k, m, chunks[0], judge);
      StreamJudged(k, m, c, judge);
      OneStream(k, m, c, judge);
      StreamsTail(chunks);
      TakeOverJudged(next, m, chunks[1..], judge);
      GroupMore(k.places, next.places, HandleAll(next, m, chunks[1..], judge).places, chunks, k.session.stage, m,
          judge);
    }
  }

  lemma GroupMore(before: map<Stream, Place>, mid: map<Stream, Place>, after: map<Stream, Place>, chunks: seq<Chunk>,
      stage: Stage, m: MessageID, judge: Chunk -> Judgement)
    requires chunks != [] && chunks[0].stream in mid && mid == before[chunks[0].stream := mid[chunks[0].stream]]
    requires Judged(stage, judge(chunks[0]), mid[chunks[0].stream], m, chunks[0])
    requires Streams(chunks) - {chunks[0].stream} == Streams(chunks[1..]) && chunks[0].stream in Streams(chunks)
    requires GroupJudged(mid, after, chunks[1..], stage, m, judge)
    ensures GroupJudged(before, after, chunks, stage, m, judge)
  {
    assert chunks[0].stream !in Streams(chunks[1..]);
    assert forall c :: c in chunks <==> c == chunks[0] || c in chunks[1..];
  }

  // ---------------------------------------------------------------------------
  // Events that read
  // ---------------------------------------------------------------------------

  /** The session was drained: a prefix of its queue was judged. */
  ghost predicate Drained(w: Chan, v: Chan, m: MessageID, judge: Chunk -> Judgement, i: nat, last: seq<Chunk>) {
    && m in w.sessions && m in v.sessions && i <= |w.sessions[m].queue|
    && v.sessions[m].queue == w.sessions[m].queue[i..] + last
    && MovedAsJudged(w.places, v.places, w.sessions[m].stage, m, judge)
  }

  lemma ReadDoneAsJudged(w: Chan, m: MessageID, own: bool, judge: Chunk -> Judgement) returns (i: nat)
    requires StreamsOk(w) && m in w.sessions
    ensures Drained(w, ReadDone(w, m, own, judge), m, judge, i, [])
  {
    var s := w.sessions[m];
    assert MessageOk(w, m);
    i := DrainJudged(Work(if own && s.done > 0 then s.(done := s.done - 1) else s, w.places), m, judge);
    assert s.queue[i..] + [] == s.queue[i..];
  }

  /**
   * A stream arrives for a registered session: it ends as unspecified, ends as redundant, is read or is
   * queued as the strategy judges it, and is queued only behind 64 readers, at the back.
   */
  lemma ArrivalAsJudged(w: Chan, m: MessageID, c: Chunk, now: int, judge: Chunk -> Judgement) returns (i: nat)
    requires StreamsOk(w) && m in w.sessions && c.stream !in w.places
    ensures var v := ChunkArrives(w, m, c, now, judge);
            && c.stream in v.places && Judged(w.sessions[m].stage, judge(c), v.places[c.stream], m, c)
            && Drained(w, v, m, judge, i, if v.places[c.stream] == Queued(m, c) then [c] else [])
            && (v.places[c.stream] == Queued(m, c) ==> |v.sessions[m].readers| >= MAX_CONCURRENT_READS)
  {
    assert MessageOk(w, m);
    var k := Work(w.sessions[m], w.places);
    i := DrainJudged(k, m, judge);
    DrainMoves(k, m, judge);
    var d := DrainReads(k, m, judge);
    StreamJudged(d, m, c, judge);
    OneStream(d, m, c, judge);
  }

  /** A stream arrives for no session: it is parked, in its message's group, unless that holds 32. */
  lemma ArrivalIsParked(w: Chan, m: MessageID, c: Chunk, now: int, judge: Chunk -> Judgement)
    requires m !in w.sessions
    ensures var v := ChunkArrives(w, m, c, now, judge);
            if m in w.parked && |w.parked[m].streams| >= MAX_PARKED_CHUNKS then
              v == w.(places := w.places[c.stream := Ended(UNSPECIFIED)])
            else
              && v.places == w.places[c.stream := Parked(m, c)] && v.sessions == w.sessions
              && m in v.parked && v.parked == w.parked[m := v.parked[m]]
              && v.parked[m] == (if m in w.parked then Group(w.parked[m].at, w.parked[m].streams + [c])
                                 else Group(now, [c]))
  {
  }

  /** A new session takes over the group parked for its message, each stream as it is judged. */
  lemma OpeningAsJudged(w: Chan, m: MessageID, now: int, judge: Chunk -> Judgement)
    requires StreamsOk(w) && m !in w.sessions
    ensures var v := OpenSession(w, m, true, now, judge);
            && v.parked == w.parked - {m} && m in v.sessions && v.sessions[m].createdAt == now
            && GroupJudged(w.places, v.places, if m in w.parked then w.parked[m].streams else [], Consuming, m, judge)
  {
    assert MessageOk(w, m);
    var chunks := if m in w.parked then w.parked[m].streams else [];
    TakeOverJudged(Work(NewSession(w, false, now), w.places), m, chunks, judge);
    HandleAllKeeps(Work(NewSession(w, false, now), w.places), m, chunks, judge);
  }

  // ---------------------------------------------------------------------------
  // Events that end
  // ---------------------------------------------------------------------------

  /** A session that has or had peers is finished: delivered and all completed, or not and all gone. */
  predicate Finished(delivered: bool, hadPeers: bool, peers: map<PeerID, SessionPeer>) {
    hadPeers && if delivered then forall p :: p in peers ==> peers[p].completed else peers.Keys == {}
  }

  predicate Delivered(stage: Stage) {
    stage == Reconstructed || stage == Origin
  }

  /** The code for the streams of a session disposed of: redundant once it decodes, refused if it grew too old. */
  function DisposalCode(stage: Stage, expired: bool): Code {
    if stage != Consuming then REDUNDANT else if expired then REFUSED else UNSPECIFIED
  }

  /** The peer left the channel, or the message's session on the connection it is a member on. */
  predicate Leaves(w: Chan, e: ChannelEvent, m: MessageID, p: PeerID) {
    match e
    case UnboundEvent(x, _) => x == p
    case SessionEndedEvent(o, x, c) => o == m && x == p && p in w.members && w.members[p] == c
    case _ => false
  }

  /** The event disposes of the message's session. */
  ghost predicate GoneBy(w: Chan, e: ChannelEvent, m: MessageID)
    requires CanHandle(w, e) && m in w.sessions
  {
    var s := w.sessions[m];
    match e
    case PublishEvent(o, _) => o == m
    case ExpiryEvent(_, now) => now - s.createdAt >= ACTIVE_SESSION_TTL
    case UnboundEvent(p, _) => Finished(Delivered(s.stage), s.everHadPeers, s.peers - {p})
    case SessionEndedEvent(_, p, _) =>
      Leaves(w, e, m, p) && Finished(Delivered(s.stage), s.everHadPeers, s.peers - {p})
    case ReconstructedEvent(o, p) =>
      o == m && Finished(Delivered(s.stage), s.everHadPeers,
          if p in s.peers then s.peers[p := s.peers[p].(completed := true)] else s.peers)
    case DecodedEvent(d, ok) =>
      w.results[d] == m && ok && !Delivered(s.stage) && Finished(true, s.everHadPeers, s.peers)
    case _ => false
  }

  /** The stream waits for a read, and its sender left. */
  predicate DroppedBy(w: Chan, e: ChannelEvent, q: Place) {
    match q
    case Parked(_, c) => e.UnboundEvent? && e.peer == c.peer
    case Queued(m, c) => Leaves(w, e, m, c.peer)
    case _ => false
  }

  /** Where an event that reads nothing leaves a stream. */
  ghost function DuePlace(w: Chan, e: ChannelEvent, x: Stream): Place
    requires CanHandle(w, e) && x in w.places
  {
    var q := w.places[x];
    if q.Ended? then q
    else if e.ReaderEndsEvent? && e.stream == x then Ended(e.code)
    else if DroppedBy(w, e, q) then Ended(UNSPECIFIED)
    else if q.message in w.sessions && GoneBy(w, e, q.message) then
      Ended(DisposalCode(if e.DecodedEvent? then Reconstructed else w.sessions[q.message].stage, e.ExpiryEvent?))
    else if e.ExpiryEvent? && q.Parked? && q.message in w.parked
        && e.now - w.parked[q.message].at >= ACTIVE_SESSION_TTL then Ended(REFUSED)
    else q
  }

  predicate ReadsNothing(e: ChannelEvent) {
    !e.ReadDoneEvent? && !e.ChunkEvent? && !e.OpenEvent?
  }

  lemma IdleMeans(s: Session)
    ensures Idle(s) <==> Finished(Delivered(s.stage), s.everHadPeers, s.peers)
  {
  }

  lemma DisposeDue(w: Chan, m: MessageID, expired: bool, x: Stream)
    requires m in w.sessions && x in w.places
    ensures var v := Dispose(w, m, expired);
            && v.sessions == w.sessions - {m} && x in v.places
            && v.places[x] == (if Of(w.places[x], m) then Ended(DisposalCode(w.sessions[m].stage, expired))
                               else w.places[x])
  {
  }

  /** What leaving makes of a stream of the message. */
  function LeftPlace(s: Session, p: PeerID, q: Place): Place {
    if q.Queued? && q.chunk.peer == p then Ended(UNSPECIFIED)
    else if Finished(Delivered(s.stage), s.everHadPeers, s.peers - {p}) then Ended(DisposalCode(s.stage, false))
    else q
  }

  lemma LeavesSession(w: Chan, m: MessageID, p: PeerID)
    requires m in w.sessions
    ensures var v, s := PeerLeaves(w, m, p), w.sessions[m];
            && (m in v.sessions <==> !Finished(Delivered(s.stage), s.everHadPeers, s.peers - {p}))
            && (m in v.sessions ==> v.sessions[m] == DropPeer(s, p))
            && (forall o :: o != m ==>
                  && (o in v.sessions <==> o in w.sessions)
                  && (o in v.sessions ==> v.sessions[o] == w.sessions[o]))
  {
    IdleMeans(DropPeer(w.sessions[m], p));
  }

  lemma LeavesDue(w: Chan, m: MessageID, p: PeerID, x: Stream)
    requires m in w.sessions && x in w.places
    ensures var v := PeerLeaves(w, m, p);
            && x in v.places
            && v.places[x] == if Of(w.places[x], m) then LeftPlace(w.sessions[m], p, w.places[x]) else w.places[x]
  {
    IdleMeans(DropPeer(w.sessions[m], p));
  }

  lemma LeftTwice(s: Session, p: PeerID, q: Place)
    ensures !q.Queued? || q.chunk.peer != p ==> LeftPlace(DropPeer(s, p), p, q) == LeftPlace(s, p, q)
  {
    assert s.peers - {p} - {p} == s.peers - {p};
  }

  lemma {:induction false} LeaveAllDue(w: Chan, messages: seq<MessageID>, p: PeerID, x: Stream)
    requires x in w.places
    ensures var v, q := LeaveAll(w, messages, p), w.places[x];
            && x in v.places
            && v.places[x] == if !q.Ended? && q.message in messages && q.message in w.sessions
                              then LeftPlace(w.sessions[q.message], p, q) else q
    decreases |messages|
  {
    if messages != [] {
      var m, q := messages[0], w.places[x];
      var next := if m in w.sessions then PeerLeaves(w, m, p) else w;
      if m in w.sessions {
        LeavesSession(w, m, p);
        LeavesDue(w, m, p, x);
        LeftTwice(w.sessions[m], p, q);
      }
      LeaveAllDue(next, messages[1..], p, x);
      assert forall o :: o in messages <==> o == m || o in messages[1..];
    }
  }

  lemma UnboundDue(w: Chan, p: PeerID, order: seq<MessageID>, x: Stream)
    requires StreamsOk(w) && CanHandle(w, UnboundEvent(p, order)) && x in w.places
    ensures x in PeerUnbound(w, p, order).places
    ensures PeerUnbound(w, p, order).places[x] == DuePlace(w, UnboundEvent(p, order), x)
  {
    var v := UnparkPeer(w.(members := w.members - {p}), p);
    LeaveAllDue(v, order, p, x);
    if !w.places[x].Ended? {
      assert MessageOk(w, w.places[x].message);
    }
  }

  lemma SessionEndedDue(w: Chan, m: MessageID, p: PeerID, c: Conn, x: Stream)
    requires StreamsOk(w) && x in w.places
    ensures x in PeerSessionEnded(w, m, p, c).places
    ensures PeerSessionEnded(w, m, p, c).places[x] == DuePlace(w, SessionEndedEvent(m, p, c), x)
  {
    if m in w.sessions {
      if p in w.members && w.members[p] == c {
        LeavesDue(w, m, p, x);
      }
    } else if w.places[x].Queued? {
      assert MessageOk(w, w.places[x].message);
    }
  }

  lemma CompletedDue(w: Chan, m: MessageID, p: PeerID, x: Stream)
    requires x in w.places
    ensures x in PeerReconstructed(w, m, p).places
    ensures PeerReconstructed(w, m, p).places[x] == DuePlace(w, ReconstructedEvent(m, p), x)
  {
    if m in w.sessions {
      var v := w.(sessions := w.sessions[m := CompletePeer(w.sessions[m], p)]);
      IdleMeans(v.sessions[m]);
      DisposeDue(v, m, false, x);
    }
  }

  lemma DecodedDue(w: Chan, d: nat, ok: bool, x: Stream)
    requires x in w.places && d in w.results
    ensures x in Decode(w, d, ok).places && Decode(w, d, ok).places[x] == DuePlace(w, DecodedEvent(d, ok), x)
  {
    var m := w.results[d];
    if m in w.sessions {
      var v := Deliver(DropResult(w, d), m, d);
      IdleMeans(v.sessions[m]);
      DisposeDue(v, m, false, x);
    }
  }

  lemma {:induction false} ExpireSessionsDue(w: Chan, messages: seq<MessageID>, now: int, x: Stream)
    requires x in w.places
    ensures var v, q := ExpireSessions(w, messages, now), w.places[x];
            && x in v.places
            && v.places[x] == (if !q.Ended? && q.message in messages && Overdue(w.sessions, q.message, now)
                               then Ended(DisposalCode(w.sessions[q.message].stage, true)) else q)
    decreases |messages|
  {
    if messages != [] {
      var m := messages[0];
      var next := if Overdue(w.sessions, m, now) then Dispose(w, m, true) else w;
      if m in w.sessions {
        DisposeDue(w, m, true, x);
      }
      ExpireSessionsDue(next, messages[1..], now, x);
      assert forall o :: o in messages <==> o == m || o in messages[1..];
    }
  }

  /** Groups of messages whose session is not too old are left alone. */
  lemma {:induction false} ExpireKeepsGroups(w: Chan, messages: seq<MessageID>, now: int, m: MessageID)
    requires !Overdue(w.sessions, m, now)
    ensures var v := ExpireSessions(w, messages, now);
            (m in v.parked <==> m in w.parked) && (m in v.parked ==> v.parked[m] == w.parked[m])
    decreases |messages|
  {
    if messages != [] {
      var next := if Overdue(w.sessions, messages[0], now) then Dispose(w, messages[0], true) else w;
      ExpireKeepsGroups(next, messages[1..], now, m);
    }
  }

  lemma ExpiryDue(w: Chan, order: seq<MessageID>, now: int, x: Stream)
    requires CanHandle(w, ExpiryEvent(order, now)) && x in w.places
    ensures x in Expire(w, order, now).places
    ensures Expire(w, order, now).places[x] == DuePlace(w, ExpiryEvent(order, now), x)
  {
    ExpireSessionsDue(w, order, now, x);
    var q := w.places[x];
    if q.Parked? && !Overdue(w.sessions, q.message, now) {
      ExpireKeepsGroups(w, order, now, q.message);
    }
  }

  /** An event that reads nothing leaves every stream where DuePlace says. */
  lemma EndsAsDue(w: Chan, e: ChannelEvent, x: Stream)
    requires StreamsOk(w) && CanHandle(w, e) && ReadsNothing(e) && x in w.places
    ensures x in Handle(w, e).places && Handle(w, e).places[x] == DuePlace(w, e, x)
  {
    match e
    case ReaderEndsEvent(m, y, _) => assert MessageOk(w, m);
    case UnboundEvent(p, order) => UnboundDue(w, p, order, x);
    case SessionEndedEvent(m, p, c) => SessionEndedDue(w, m, p, c, x);
    case ReconstructedEvent(m, p) => CompletedDue(w, m, p, x);
    case DecodedEvent(d, ok) => DecodedDue(w, d, ok, x);
    case ExpiryEvent(order, now) => ExpiryDue(w, order, now, x);
    case PublishEvent(m, _) =>
      if m in w.sessions {
        DisposeDue(w, m, false, x);
      }
    case _ =>
  }

  // ---------------------------------------------------------------------------
  // Runs
  // ---------------------------------------------------------------------------

  /**
   * At every arrival of every run, in a registered session: the stream ends as unspecified if and only if it is
   * malformed, ends as redundant if and only if it is not and the session is past consuming or holds its chunk,
   * and is read or queued if and only if it is needed, queued only behind 64 readers.
   */
  lemma RunArrives(chans: seq<Chan>, events: seq<ChannelEvent>, j: nat) returns (i: nat)
    requires IsChannelRun(chans, events) && chans[0] == NEW_CHAN && j < |events| && events[j].ChunkEvent?
    requires events[j].message in chans[j].sessions
    ensures var w, v, m, c := chans[j], chans[j + 1], events[j].message, events[j].chunk;
            && c.stream in v.places && m in v.sessions
            && Judged(w.sessions[m].stage, events[j].judge(c), v.places[c.stream], m, c)
            && Drained(w, v, m, events[j].judge, i, if v.places[c.stream] == Queued(m, c) then [c] else [])
            && (v.places[c.stream] == Queued(m, c) ==> |v.sessions[m].readers| >= MAX_CONCURRENT_READS)
  {
    RunChannel(chans, events, j);
    i := ArrivalAsJudged(chans[j], events[j].message, events[j].chunk, events[j].now, events[j].judge);
  }

  /** A message has 32 streams parked. */
  predicate ParkedFull(w: Chan, m: MessageID) {
    m in w.parked && |w.parked[m].streams| >= MAX_PARKED_CHUNKS
  }

  /** At every arrival of every run, in no session: parked at the back of its group, unless that holds 32. */
  lemma RunParks(chans: seq<Chan>, events: seq<ChannelEvent>, j: nat)
    requires IsChannelRun(chans, events) && chans[0] == NEW_CHAN && j < |events| && events[j].ChunkEvent?
    requires events[j].message !in chans[j].sessions
    ensures var w, v, m, c := chans[j], chans[j + 1], events[j].message, events[j].chunk;
            && c.stream in v.places && v.places == w.places[c.stream := v.places[c.stream]]
            && (v.places[c.stream] == Parked(m, c) <==> !ParkedFull(w, m))
            && (v.places[c.stream] == Ended(UNSPECIFIED) <==> ParkedFull(w, m))
            && (!ParkedFull(w, m) ==>
                  && m in v.parked
                  && v.parked[m] == (if m in w.parked then Group(w.parked[m].at, w.parked[m].streams + [c])
                                     else Group(events[j].now, [c])))
  {
    ArrivalIsParked(chans[j], events[j].message, events[j].chunk, events[j].now, events[j].judge);
  }

  /** At every read-done of every run: a prefix of the queue is read or ended, each stream as it is judged. */
  lemma RunReads(chans: seq<Chan>, events: seq<ChannelEvent>, j: nat) returns (i: nat)
    requires IsChannelRun(chans, events) && chans[0] == NEW_CHAN && j < |events| && events[j].ReadDoneEvent?
    requires events[j].message in chans[j].sessions
    ensures Drained(chans[j], chans[j + 1], events[j].message, events[j].judge, i, [])
  {
    RunChannel(chans, events, j);
    i := ReadDoneAsJudged(chans[j], events[j].message, events[j].own, events[j].judge);
  }

  /** At every valid opening of every run: the new session takes over the streams parked for its message. */
  lemma RunOpens(chans: seq<Chan>, events: seq<ChannelEvent>, j: nat)
    requires IsChannelRun(chans, events) && chans[0] == NEW_CHAN && j < |events| && events[j].OpenEvent?
    requires events[j].valid && events[j].message !in chans[j].sessions
    ensures var w, m := chans[j], events[j].message;
            && m in chans[j + 1].sessions && m !in chans[j + 1].parked
            && GroupJudged(w.places, chans[j + 1].places, if m in w.parked then w.parked[m].streams else [], Consuming,
                           m, events[j].judge)
  {
    RunChannel(chans, events, j);
    OpeningAsJudged(chans[j], events[j].message, events[j].now, events[j].judge);
  }

  /** At every other event of every run, every stream is left where DuePlace says. */
  lemma RunEnds(chans: seq<Chan>, events: seq<ChannelEvent>, j: nat, x: Stream)
    requires IsChannelRun(chans, events) && chans[0] == NEW_CHAN && j < |events| && ReadsNothing(events[j])
    requires x in chans[j].places
    ensures x in chans[j + 1].places && chans[j + 1].places[x] == DuePlace(chans[j], events[j], x)
  {
    RunChannel(chans, events, j);
    EndsAsDue(chans[j], events[j], x);
  }
}
