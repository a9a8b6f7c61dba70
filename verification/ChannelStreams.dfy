/** Every chunk stream is in one place, and no queued read is stranded. */
module ChannelStreams {
  import opened ChannelSpec
  import opened Wire

  ghost predicate DistinctStreams(chunks: seq<Chunk>) {
    forall i, j :: 0 <= i < j < |chunks| ==> chunks[i].stream != chunks[j].stream
  }

  ghost predicate QueueTied(queue: seq<Chunk>, places: map<Stream, Place>, m: MessageID, hand: set<Stream>) {
    && DistinctStreams(queue)
    && (forall c :: c in queue ==> c.stream !in hand && c.stream in places && places[c.stream] == Queued(m, c))
    && (forall x :: x in places && x !in hand && places[x].Queued? && places[x].message == m ==>
          places[x].chunk.stream == x && places[x].chunk in queue)
  }

  ghost predicate ReadersTied(readers: map<Stream, Chunk>, places: map<Stream, Place>, m: MessageID,
      hand: set<Stream>) {
    && (forall x :: x in readers ==> x !in hand && x in places && places[x] == Reading(m, readers[x]))
    && (forall x :: x in places && x !in hand && places[x].Reading? && places[x].message == m ==> x in readers)
  }

  /** A session's queue and readers are exactly the streams whose place they are, but for those in hand. */
  ghost predicate Tied(k: Work, m: MessageID, hand: set<Stream>) {
    QueueTied(k.session.queue, k.places, m, hand) && ReadersTied(k.session.readers, k.places, m, hand)
  }

  /** A queued read implies that every slot is taken or that a reader's end is still to be handled. */
  ghost predicate SlotsOk(s: Session) {
    |s.readers| <= MAX_CONCURRENT_READS && (s.queue != [] ==> |s.readers| == MAX_CONCURRENT_READS || s.done > 0)
  }

  /** Streams in hand, and the message's queued ones, may move: to an end, or within the message. */
  ghost predicate OnlyTouches(before: map<Stream, Place>, after: map<Stream, Place>, m: MessageID, hand: set<Stream>) {
    && (forall x :: x in before ==> x in after)
    && (forall x :: x in after ==> x in before || x in hand)
    && (forall x :: x in before ==> after[x] == before[x] || x in hand || (before[x].Queued? && before[x].message == m))
    && (forall x :: x in after ==>
          (x in before && after[x] == before[x]) || after[x].Ended? || (!after[x].Parked? && after[x].message == m))
  }

  lemma TouchesTrans(a: map<Stream, Place>, b: map<Stream, Place>, c: map<Stream, Place>, m: MessageID,
      hand: set<Stream>)
    requires OnlyTouches(a, b, m, hand) && OnlyTouches(b, c, m, hand)
    ensures OnlyTouches(a, c, m, hand)
  {
  }

  // ---------------------------------------------------------------------------
  // One chunk stream
  // ---------------------------------------------------------------------------

  lemma EndedTied(k: Work, m: MessageID, x: Stream, code: Code, hand: set<Stream>)
    requires Tied(k, m, hand) && x in hand
    ensures Tied(k.(places := k.places[x := Ended(code)]), m, hand - {x})
  {
  }

  lemma ReadingTied(k: Work, m: MessageID, c: Chunk, hand: set<Stream>)
    requires Tied(k, m, hand) && c.stream in hand
    ensures Tied(Work(k.session.(readers := k.session.readers[c.stream := c]),
        k.places[c.stream := Reading(m, c)]), m, hand - {c.stream})
  {
  }

  lemma QueuedTied(k: Work, m: MessageID, c: Chunk, hand: set<Stream>)
    requires Tied(k, m, hand) && c.stream in hand
    ensures Tied(Work(k.session.(queue := k.session.queue + [c]), k.places[c.stream := Queued(m, c)]),
        m, hand - {c.stream})
  {
    assert forall d :: d in k.session.queue + [c] <==> d in k.session.queue || d == c;
  }

  lemma HandleTied(k: Work, m: MessageID, c: Chunk, judge: Chunk -> Judgement, hand: set<Stream>)
    requires Tied(k, m, hand) && c.stream in hand
    ensures Tied(HandleChunkStream(k, m, c, judge), m, hand - {c.stream})
  {
    var s := k.session;
    if judge(c) == Malformed {
      EndedTied(k, m, c.stream, UNSPECIFIED, hand);
    } else if Rank(s.stage) >= 1 || judge(c) == Held {
      EndedTied(k, m, c.stream, REDUNDANT, hand);
    } else if |s.readers| < MAX_CONCURRENT_READS {
      ReadingTied(k, m, c, hand);
    } else {
      QueuedTied(k, m, c, hand);
    }
  }

  lemma HandleTouches(k: Work, m: MessageID, c: Chunk, judge: Chunk -> Judgement)
    ensures OnlyTouches(k.places, HandleChunkStream(k, m, c, judge).places, m, {c.stream})
  {
  }

  lemma HandleSlots(k: Work, m: MessageID, c: Chunk, judge: Chunk -> Judgement, hand: set<Stream>)
    requires Tied(k, m, hand) && c.stream in hand && SlotsOk(k.session)
    ensures SlotsOk(HandleChunkStream(k, m, c, judge).session)
  {
    assert c.stream !in k.session.readers;
    assert k.session.readers[c.stream := c].Keys == k.session.readers.Keys + {c.stream};
  }

  // ---------------------------------------------------------------------------
  // Draining the queue
  // ---------------------------------------------------------------------------

  /** Taking the head of the queue in hand. */
  lemma PopTied(k: Work, m: MessageID, hand: set<Stream>)
    requires Tied(k, m, hand) && k.session.queue != []
    ensures var s := k.session;
            Tied(k.(session := s.(queue := s.queue[1..])), m, hand + {s.queue[0].stream})
  {
    var q := k.session.queue;
    assert q[0] in q && k.places[q[0].stream] == Queued(m, q[0]);
    assert forall c :: c in q[1..] ==> c in q && c.stream != q[0].stream by {
      forall c | c in q[1..]
        ensures c.stream != q[0].stream
      {
        var i :| 0 <= i < |q| - 1 && q[1..][i] == c;
        assert q[i + 1] == c;
      }
    }
    assert forall c :: c in q <==> c == q[0] || c in q[1..];
  }

  lemma HandBack(hand: set<Stream>, x: Stream)
    requires x !in hand
    ensures hand + {x} - {x} == hand
  {
  }

  lemma OneMore(readers: map<Stream, Chunk>, c: Chunk)
    ensures |readers[c.stream := c]| <= |readers| + 1
  {
    assert readers[c.stream := c].Keys == readers.Keys + {c.stream};
  }

  function Popped(k: Work): Work
    requires k.session.queue != []
  {
    k.(session := k.session.(queue := k.session.queue[1..]))
  }

  /** The head of the queue is read or ended. */
  lemma DrainStep(k: Work, m: MessageID, judge: Chunk -> Judgement, hand: set<Stream>)
    requires Tied(k, m, hand) && k.session.queue != [] && |k.session.readers| < MAX_CONCURRENT_READS
    ensures var next := HandleChunkStream(Popped(k), m, k.session.queue[0], judge);
            Tied(next, m, hand) && |next.session.readers| <= MAX_CONCURRENT_READS
                && next.session.queue == k.session.queue[1..]
  {
    var c := k.session.queue[0];
    HeadIsQueued(k, m, hand);
    PopTied(k, m, hand);
    HandleTied(Popped(k), m, c, judge, hand + {c.stream});
    HandBack(hand, c.stream);
    SlotTaken(Popped(k), m, c, judge);
  }

  lemma HeadIsQueued(k: Work, m: MessageID, hand: set<Stream>)
    requires Tied(k, m, hand) && k.session.queue != []
    ensures k.session.queue[0].stream !in hand
  {
    assert k.session.queue[0] in k.session.queue;
  }

  lemma SlotTaken(k: Work, m: MessageID, c: Chunk, judge: Chunk -> Judgement)
    requires |k.session.readers| < MAX_CONCURRENT_READS
    ensures var next := HandleChunkStream(k, m, c, judge);
            |next.session.readers| <= MAX_CONCURRENT_READS && next.session.queue == k.session.queue
  {
    OneMore(k.session.readers, c);
  }

  /** Draining starts reads until the queue is empty or every slot is taken. */
  lemma {:induction false} DrainTied(k: Work, m: MessageID, judge: Chunk -> Judgement, hand: set<Stream>)
    requires Tied(k, m, hand) && |k.session.readers| <= MAX_CONCURRENT_READS
    ensures var e := DrainReads(k, m, judge);
            && Tied(e, m, hand) && OnlyTouches(k.places, e.places, m, {})
            && |e.session.readers| <= MAX_CONCURRENT_READS
            && (e.session.queue == [] || |e.session.readers| == MAX_CONCURRENT_READS)
    decreases |k.session.queue|
  {
    var s := k.session;
    if s.queue != [] && |s.readers| < MAX_CONCURRENT_READS {
      var next := HandleChunkStream(Popped(k), m, s.queue[0], judge);
      DrainStep(k, m, judge, hand);
      PopTouches(k, m, s.queue[0], judge, hand);
      DrainTied(next, m, judge, hand);
      TouchesTrans(k.places, next.places, DrainReads(next, m, judge).places, m, {});
    }
  }

  lemma PopTouches(k: Work, m: MessageID, c: Chunk, judge: Chunk -> Judgement, hand: set<Stream>)
    requires Tied(k, m, hand) && k.session.queue != [] && c == k.session.queue[0]
    ensures var s := k.session;
            OnlyTouches(k.places, HandleChunkStream(k.(session := s.(queue := s.queue[1..])), m, c, judge).places, m,
                {})
  {
    assert c in k.session.queue;
  }

  lemma {:induction false} DrainKeeps(k: Work, m: MessageID, judge: Chunk -> Judgement)
    ensures var e := DrainReads(k, m, judge).session;
            e == k.session.(queue := e.queue, readers := e.readers)
    decreases |k.session.queue|
  {
    var s := k.session;
    if s.queue != [] && |s.readers| < MAX_CONCURRENT_READS {
      DrainKeeps(HandleChunkStream(k.(session := s.(queue := s.queue[1..])), m, s.queue[0], judge), m, judge);
    }
  }

  // ---------------------------------------------------------------------------
  // A parked group is taken over
  // ---------------------------------------------------------------------------

  ghost function Streams(chunks: seq<Chunk>): set<Stream> {
    set c | c in chunks :: c.stream
  }

  lemma StreamsTail(chunks: seq<Chunk>)
    requires chunks != [] && DistinctStreams(chunks)
    ensures Streams(chunks) - {chunks[0].stream} == Streams(chunks[1..]) && chunks[0].stream in Streams(chunks)
        && DistinctStreams(chunks[1..])
  {
    assert chunks[0] in chunks;
    forall c | c in chunks[1..]
      ensures c in chunks && c.stream != chunks[0].stream
    {
      var i :| 0 <= i < |chunks| - 1 && chunks[1..][i] == c;
      assert chunks[i + 1] == c;
    }
    assert forall c :: c in chunks <==> c == chunks[0] || c in chunks[1..];
  }

  lemma {:induction false} HandleAllTied(k: Work, m: MessageID, chunks: seq<Chunk>, judge: Chunk -> Judgement)
    requires DistinctStreams(chunks) && Tied(k, m, Streams(chunks)) && SlotsOk(k.session)
    ensures var e := HandleAll(k, m, chunks, judge);
            Tied(e, m, {}) && SlotsOk(e.session) && OnlyTouches(k.places, e.places, m, Streams(chunks))
    decreases |chunks|
  {
    if chunks != [] {
      var c, next := chunks[0], HandleChunkStream(k, m, chunks[0], judge);
      StreamsTail(chunks);
      HandleTied(k, m, c, judge, Streams(chunks));
      HandleSlots(k, m, c, judge, Streams(chunks));
      HandleTouches(k, m, c, judge);
      HandleAllTied(next, m, chunks[1..], judge);
      WiderHand(k.places, next.places, m, {c.stream}, Streams(chunks));
      WiderHand(next.places, HandleAll(next, m, chunks[1..], judge).places, m, Streams(chunks[1..]), Streams(chunks));
      TouchesTrans(k.places, next.places, HandleAll(next, m, chunks[1..], judge).places, m, Streams(chunks));
    } else {
      assert Streams(chunks) == {};
    }
  }

  lemma WiderHand(before: map<Stream, Place>, after: map<Stream, Place>, m: MessageID, hand: set<Stream>,
      wider: set<Stream>)
    requires OnlyTouches(before, after, m, hand) && hand <= wider
    ensures OnlyTouches(before, after, m, wider)
  {
  }

  lemma {:induction false} HandleAllKeeps(k: Work, m: MessageID, chunks: seq<Chunk>, judge: Chunk -> Judgement)
    ensures var e := HandleAll(k, m, chunks, judge).session;
            e == k.session.(queue := e.queue, readers := e.readers)
    decreases |chunks|
  {
    if chunks != [] {
      HandleAllKeeps(HandleChunkStream(k, m, chunks[0], judge), m, chunks[1..], judge);
    }
  }
}
