/** Where a chunk stream given to a channel goes, over every run: nothing is lost, and an end is final. */
module ChannelHistory {
  import opened ChannelSpec
  import opened ChannelStreams
  import opened ChannelPlaces
  import opened ChannelRuns
  import opened ChannelLogs
  import opened Wire

  // ---------------------------------------------------------------------------
  // A stream moves onward
  // ---------------------------------------------------------------------------

  function PlaceRank(p: Place): nat {
    match p
    case Parked(_, _) => 0
    case Queued(_, _) => 1
    case Reading(_, _) => 2
    case Ended(_) => 3
  }

  /** From parked to queued to being read to ended, never back, for the same message and chunk until it ends. */
  predicate Onward(p: Place, q: Place) {
    p == q
    || (PlaceRank(p) < PlaceRank(q) && (q.Ended? || (q.message == p.message && q.chunk == p.chunk)))
  }

  /** No stream is forgotten, and each stays where it is or moves onward; those added are placed. */
  ghost predicate Moves(before: map<Stream, Place>, after: map<Stream, Place>, added: set<Stream>) {
    && after.Keys == before.Keys + added
    && forall x :: x in before ==> Onward(before[x], after[x])
  }

  lemma MovesTrans(a: map<Stream, Place>, b: map<Stream, Place>, c: map<Stream, Place>, n: set<Stream>,
      n': set<Stream>)
    requires Moves(a, b, n) && Moves(b, c, n')
    ensures Moves(a, c, n + n')
  {
  }

  // ---------------------------------------------------------------------------
  // Reads
  // ---------------------------------------------------------------------------

  /** The stream is new, parked for this message, or queued for it with a slot free. */
  predicate Handed(k: Work, m: MessageID, c: Chunk) {
    c.stream in k.places ==>
      || k.places[c.stream] == Parked(m, c)
      || (k.places[c.stream] == Queued(m, c) && |k.session.readers| < MAX_CONCURRENT_READS)
  }

  lemma StreamMoves(k: Work, m: MessageID, c: Chunk, judge: Chunk -> Judgement)
    requires Handed(k, m, c)
    ensures Moves(k.places, HandleChunkStream(k, m, c, judge).places, {c.stream})
    ensures forall x :: x in k.places && x != c.stream ==>
        HandleChunkStream(k, m, c, judge).places[x] == k.places[x]
  {
  }

  lemma {:induction false} DrainMoves(k: Work, m: MessageID, judge: Chunk -> Judgement)
    requires Tied(k, m, {}) && |k.session.readers| <= MAX_CONCURRENT_READS
    ensures Moves(k.places, DrainReads(k, m, judge).places, {})
    decreases |k.session.queue|
  {
    var s := k.session;
    if s.queue != [] && |s.readers| < MAX_CONCURRENT_READS {
      var c, next := s.queue[0], HandleChunkStream(Popped(k), m, s.queue[0], judge);
      assert c in s.queue;
      DrainStep(k, m, judge, {});
      StreamMoves(Popped(k), m, c, judge);
      DrainMoves(next, m, judge);
      MovesTrans(k.places, next.places, DrainReads(k, m, judge).places, {c.stream}, {});
      Absorbed(k.places, DrainReads(k, m, judge).places, c.stream);
    }
  }

  lemma Absorbed(before: map<Stream, Place>, after: map<Stream, Place>, x: Stream)
    requires Moves(before, after, {x} + {}) && x in before
    ensures Moves(before, after, {})
  {
  }

  lemma {:induction false} TakeOverMoves(k: Work, m: MessageID, chunks: seq<Chunk>, judge: Chunk -> Judgement)
    requires DistinctStreams(chunks)
    requires forall c :: c in chunks ==> c.stream in k.places && k.places[c.stream] == Parked(m, c)
    ensures Moves(k.places, HandleAll(k, m, chunks, judge).places, {})
    decreases |chunks|
  {
    if chunks != [] {
      var c, next := chunks[0], HandleChunkStream(k, m, chunks[0], judge);
      assert c in chunks;
      StreamMoves(k, m, c, judge);
      StreamsTail(chunks);
      assert forall d :: d in chunks[1..] ==> d in chunks && d.stream in Streams(chunks[1..]);
      TakeOverMoves(next, m, chunks[1..], judge);
      MovesTrans(k.places, next.places, HandleAll(k, m, chunks, judge).places, {c.stream}, {});
      Absorbed(k.places, HandleAll(k, m, chunks, judge).places, c.stream);
    }
  }

  lemma ReadDoneMoves(w: Chan, m: MessageID, own: bool, judge: Chunk -> Judgement)
    requires StreamsOk(w)
    ensures Moves(w.places, ReadDone(w, m, own, judge).places, {})
  {
    if m in w.sessions {
      var s := w.sessions[m];
      assert MessageOk(w, m);
      DrainMoves(Work(if own && s.done > 0 then s.(done := s.done - 1) else s, w.places), m, judge);
    }
  }

  lemma ChunkMoves(w: Chan, m: MessageID, c: Chunk, now: int, judge: Chunk -> Judgement)
    requires StreamsOk(w) && c.stream !in w.places
    ensures Moves(w.places, ChunkArrives(w, m, c, now, judge).places, {c.stream})
  {
    if m in w.sessions {
      assert MessageOk(w, m);
      ReadOrQueueMoves(Work(w.sessions[m], w.places), m, c, judge);
    }
  }

  lemma ReadOrQueueMoves(k: Work, m: MessageID, c: Chunk, judge: Chunk -> Judgement)
    requires Tied(k, m, {}) && |k.session.readers| <= MAX_CONCURRENT_READS && c.stream !in k.places
    ensures Moves(k.places, HandleChunkStream(DrainReads(k, m, judge), m, c, judge).places, {c.stream})
  {
    DrainMoves(k, m, judge);
    NewStreamMoves(k.places, DrainReads(k, m, judge), m, c, judge);
  }

  lemma NewStreamMoves(before: map<Stream, Place>, k: Work, m: MessageID, c: Chunk, judge: Chunk -> Judgement)
    requires Moves(before, k.places, {}) && c.stream !in before
    ensures Moves(before, HandleChunkStream(k, m, c, judge).places, {c.stream})
  {
    StreamMoves(k, m, c, judge);
    var after := HandleChunkStream(k, m, c, judge).places;
    assert after.Keys == before.Keys + {c.stream};
  }

  lemma ReaderMoves(w: Chan, m: MessageID, x: Stream, code: Code)
    requires StreamsOk(w) && m in w.sessions && x in w.sessions[m].readers
    ensures Moves(w.places, ReaderEnds(w, m, x, code).places, {})
  {
    assert MessageOk(w, m);
  }

  lemma OpenMoves(w: Chan, m: MessageID, valid: bool, now: int, judge: Chunk -> Judgement)
    requires StreamsOk(w)
    ensures Moves(w.places, OpenSession(w, m, valid, now, judge).places, {})
  {
    if m !in w.sessions && valid && m in w.parked {
      assert MessageOk(w, m);
      TakeOverMoves(Work(NewSession(w, false, now), w.places), m, w.parked[m].streams, judge);
    }
  }

  // ---------------------------------------------------------------------------
  // Ends
  // ---------------------------------------------------------------------------

  lemma DisposeMoves(w: Chan, m: MessageID, expired: bool)
    ensures Moves(w.places, Dispose(w, m, expired).places, {})
  {
  }

  lemma LeavesMoves(w: Chan, m: MessageID, p: PeerID)
    requires m in w.sessions
    ensures Moves(w.places, PeerLeaves(w, m, p).places, {})
  {
    var v := w.(sessions := w.sessions[m := DropPeer(w.sessions[m], p)], places := EndQueued(w.places, m, p));
    assert Moves(w.places, v.places, {});
    DisposeMoves(v, m, false);
    MovesTrans(w.places, v.places, Dispose(v, m, false).places, {}, {});
  }

  lemma {:induction false} LeaveAllMoves(w: Chan, messages: seq<MessageID>, p: PeerID)
    ensures Moves(w.places, LeaveAll(w, messages, p).places, {})
    decreases |messages|
  {
    if messages != [] {
      var v := if messages[0] in w.sessions then PeerLeaves(w, messages[0], p) else w;
      if messages[0] in w.sessions {
        LeavesMoves(w, messages[0], p);
      }
      LeaveAllMoves(v, messages[1..], p);
      MovesTrans(w.places, v.places, LeaveAll(w, messages, p).places, {}, {});
    }
  }

  lemma UnboundMoves(w: Chan, p: PeerID, order: seq<MessageID>)
    ensures Moves(w.places, PeerUnbound(w, p, order).places, {})
  {
    var v := UnparkPeer(w.(members := w.members - {p}), p);
    assert Moves(w.places, v.places, {});
    LeaveAllMoves(v, order, p);
    MovesTrans(w.places, v.places, LeaveAll(v, order, p).places, {}, {});
  }

  lemma {:induction false} ExpireMoves(w: Chan, messages: seq<MessageID>, now: int)
    ensures Moves(w.places, ExpireSessions(w, messages, now).places, {})
    decreases |messages|
  {
    if messages != [] {
      var v := if Overdue(w.sessions, messages[0], now) then Dispose(w, messages[0], true) else w;
      DisposeMoves(w, messages[0], true);
      ExpireMoves(v, messages[1..], now);
      MovesTrans(w.places, v.places, ExpireSessions(w, messages, now).places, {}, {});
    }
  }

  lemma ExpiryMoves(w: Chan, order: seq<MessageID>, now: int)
    ensures Moves(w.places, Expire(w, order, now).places, {})
  {
    var v := ExpireSessions(w, order, now);
    ExpireMoves(w, order, now);
    assert Moves(v.places, ExpireParked(v, now).places, {});
    MovesTrans(w.places, v.places, ExpireParked(v, now).places, {}, {});
  }

  // ---------------------------------------------------------------------------
  // Events and runs
  // ---------------------------------------------------------------------------

  /** The stream an event gives to the channel. */
  function Given(e: ChannelEvent): set<Stream> {
    if e.ChunkEvent? then {e.chunk.stream} else {}
  }

  /** Every event keeps every stream there was, lets each move only onward, and places the one it brings. */
  lemma HandleMoves(w: Chan, e: ChannelEvent)
    requires StreamsOk(w) && CanHandle(w, e)
    ensures Moves(w.places, Handle(w, e).places, Given(e))
  {
    match e
    case ReadDoneEvent(m, own, judge) => ReadDoneMoves(w, m, own, judge);
    case ChunkEvent(m, c, now, judge) => ChunkMoves(w, m, c, now, judge);
    case ReaderEndsEvent(m, x, code) => ReaderMoves(w, m, x, code);
    case TakenEvent(_, _, _) =>
    case OpenEvent(m, valid, now, judge) => OpenMoves(w, m, valid, now, judge);
    case BoundEvent(_, _) =>
    case UnboundEvent(p, order) => UnboundMoves(w, p, order);
    case PublishEvent(m, now) => DisposeMoves(w, m, false);
    case ReconstructedEvent(m, p) =>
      if m in w.sessions {
        DisposeMoves(w.(sessions := w.sessions[m := CompletePeer(w.sessions[m], p)]), m, false);
      }
    case SessionEndedEvent(m, p, c) =>
      if m in w.sessions {
        LeavesMoves(w, m, p);
      }
    case DecodedEvent(d, ok) =>
      if w.results[d] in w.sessions {
        DisposeMoves(Deliver(DropResult(w, d), w.results[d], d), w.results[d], false);
      }
    case DroppedEvent(_) =>
    case ExpiryEvent(order, now) => ExpiryMoves(w, order, now);
  }

  /** The place is one for this chunk of the message, or the stream has ended. */
  predicate PlacedFor(p: Place, m: MessageID, c: Chunk) {
    p.Ended? || (p.message == m && p.chunk == c)
  }

  lemma ArrivesAt(w: Chan, m: MessageID, c: Chunk, now: int, judge: Chunk -> Judgement)
    ensures var places := ChunkArrives(w, m, c, now, judge).places;
            c.stream in places && PlacedFor(places[c.stream], m, c)
  {
    if m in w.sessions {
      HandledAt(DrainReads(Work(w.sessions[m], w.places), m, judge), m, c, judge);
    }
  }

  lemma HandledAt(k: Work, m: MessageID, c: Chunk, judge: Chunk -> Judgement)
    ensures var places := HandleChunkStream(k, m, c, judge).places;
            c.stream in places && PlacedFor(places[c.stream], m, c)
  {
  }

  /** The streams given by the events from i to n. */
  function GivenBetween(events: seq<ChannelEvent>, i: nat, n: nat): set<Stream>
    requires i <= n <= |events|
    decreases n
  {
    if i == n then {} else GivenBetween(events, i, n - 1) + Given(events[n - 1])
  }

  /** Between any two states of a run streams move only onward, and exactly those given are added. */
  lemma {:induction false} RunMoves(chans: seq<Chan>, events: seq<ChannelEvent>, i: nat, n: nat)
    requires IsChannelRun(chans, events) && chans[0] == NEW_CHAN && i <= n <= |events|
    ensures Moves(chans[i].places, chans[n].places, GivenBetween(events, i, n))
    decreases n
  {
    if i < n {
      RunMoves(chans, events, i, n - 1);
      RunChannel(chans, events, n - 1);
      HandleMoves(chans[n - 1], events[n - 1]);
      MovesTrans(chans[i].places, chans[n - 1].places, chans[n].places, GivenBetween(events, i, n - 1),
          Given(events[n - 1]));
    }
  }

  /** The stream is where its place says: in that message's parked group, queue or readers, or ended. */
  ghost predicate Found(w: Chan, x: Stream)
    requires x in w.places
  {
    match w.places[x]
    case Parked(m, c) => c.stream == x && m in w.parked && c in w.parked[m].streams
    case Queued(m, c) => c.stream == x && m in w.sessions && c in w.sessions[m].queue
    case Reading(m, c) => m in w.sessions && x in w.sessions[m].readers && w.sessions[m].readers[x] == c
    case Ended(_) => true
  }

  /**
   * Conservation: after every event of every run the streams accounted for are exactly those given so
   * far, each found in the one place it is recorded at.
   */
  lemma StreamsConserved(chans: seq<Chan>, events: seq<ChannelEvent>, n: nat)
    requires IsChannelRun(chans, events) && chans[0] == NEW_CHAN && n <= |events|
    ensures chans[n].places.Keys == GivenBetween(events, 0, n)
    ensures forall x :: x in chans[n].places ==> Found(chans[n], x)
  {
    var w := chans[n];
    RunMoves(chans, events, 0, n);
    RunChannel(chans, events, n);
    forall x | x in w.places
      ensures Found(w, x)
    {
      if !w.places[x].Ended? {
        assert MessageOk(w, w.places[x].message);
      }
    }
  }

  /** A stream given for a chunk of a message is, ever after, parked, queued or being read for it, or ended. */
  lemma GivenStaysAccounted(chans: seq<Chan>, events: seq<ChannelEvent>, j: nat, n: nat)
    requires IsChannelRun(chans, events) && chans[0] == NEW_CHAN && j < n <= |events| && events[j].ChunkEvent?
    ensures var e := events[j];
            e.chunk.stream in chans[n].places && PlacedFor(chans[n].places[e.chunk.stream], e.message, e.chunk)
  {
    var e := events[j];
    ArrivesAt(chans[j], e.message, e.chunk, e.now, e.judge);
    RunMoves(chans, events, j + 1, n);
  }

  /** A stream is ended at most once: its code is the same in every later state. */
  lemma EndedForGood(chans: seq<Chan>, events: seq<ChannelEvent>, i: nat, n: nat, x: Stream)
    requires IsChannelRun(chans, events) && chans[0] == NEW_CHAN && i <= n <= |events|
    requires x in chans[i].places && chans[i].places[x].Ended?
    ensures x in chans[n].places && chans[n].places[x] == chans[i].places[x]
  {
    RunMoves(chans, events, i, n);
  }
}
