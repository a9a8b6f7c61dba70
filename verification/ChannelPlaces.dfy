/** Each event of a channel keeps every stream in one place: parked, queued, being read or ended. */
module ChannelPlaces {
  import opened ChannelSpec
  import opened ChannelStreams
  import opened Wire

  /** A message's parked group holds one to 32 streams, exactly those parked for it. */
  ghost predicate ParkedTied(parked: map<MessageID, Group>, places: map<Stream, Place>, m: MessageID) {
    && (m in parked ==>
          && 0 < |parked[m].streams| <= MAX_PARKED_CHUNKS && DistinctStreams(parked[m].streams)
          && forall c :: c in parked[m].streams ==> c.stream in places && places[c.stream] == Parked(m, c))
    && (forall x :: x in places && places[x].Parked? && places[x].message == m ==>
          m in parked && places[x].chunk.stream == x && places[x].chunk in parked[m].streams)
  }

  ghost predicate SessionTied(sessions: map<MessageID, Session>, places: map<Stream, Place>, m: MessageID) {
    if m in sessions then Tied(Work(sessions[m], places), m, {}) && SlotsOk(sessions[m])
    else forall x :: x in places && (places[x].Queued? || places[x].Reading?) ==> places[x].message != m
  }

  ghost predicate MessageOk(w: Chan, m: MessageID) {
    ParkedTied(w.parked, w.places, m) && SessionTied(w.sessions, w.places, m)
  }

  /** Every stream is in one place: parked, queued, being read, or ended. */
  ghost predicate StreamsOk(w: Chan) {
    forall m :: MessageOk(w, m)
  }

  // ---------------------------------------------------------------------------
  // A session is worked on
  // ---------------------------------------------------------------------------

  /** The streams in hand are new, or parked for this message. */
  ghost predicate HandOk(places: map<Stream, Place>, m: MessageID, hand: set<Stream>) {
    forall x :: x in hand && x in places ==> places[x].Parked? && places[x].message == m
  }

  lemma OthersParked(parked: map<MessageID, Group>, before: map<Stream, Place>, after: map<Stream, Place>,
      m: MessageID, other: MessageID, hand: set<Stream>)
    requires ParkedTied(parked, before, other) && OnlyTouches(before, after, m, hand) && HandOk(before, m, hand)
        && other != m
    ensures ParkedTied(parked, after, other)
  {
  }

  lemma OthersSession(sessions: map<MessageID, Session>, before: map<Stream, Place>, after: map<Stream, Place>,
      m: MessageID, other: MessageID, hand: set<Stream>)
    requires SessionTied(sessions, before, other) && OnlyTouches(before, after, m, hand) && HandOk(before, m, hand)
        && other != m
    ensures SessionTied(sessions, after, other)
  {
  }

  lemma OwnParked(parked: map<MessageID, Group>, before: map<Stream, Place>, after: map<Stream, Place>, m: MessageID,
      hand: set<Stream>)
    requires ParkedTied(parked, before, m) && OnlyTouches(before, after, m, hand) && forall x :: x in hand ==>
        x !in before
    ensures ParkedTied(parked, after, m)
  {
  }

  /** Work on one session that takes only new streams. */
  lemma PutOk(w: Chan, m: MessageID, k: Work, hand: set<Stream>)
    requires StreamsOk(w) && Tied(k, m, {}) && SlotsOk(k.session)
    requires OnlyTouches(w.places, k.places, m, hand) && forall x :: x in hand ==> x !in w.places
    ensures StreamsOk(Put(w, m, k))
  {
    forall o
      ensures MessageOk(Put(w, m, k), o)
    {
      assert MessageOk(w, o);
      if o == m {
        OwnParked(w.parked, w.places, k.places, m, hand);
      } else {
        OthersParked(w.parked, w.places, k.places, m, o, hand);
        OthersSession(w.sessions, w.places, k.places, m, o, hand);
        assert SessionTied(w.sessions[m := k.session], k.places, o) == SessionTied(w.sessions, k.places, o);
      }
    }
  }

  /** Fewer pending events still to come: the queue is drained before that matters. */
  lemma DrainOk(w: Chan, m: MessageID, s: Session, judge: Chunk -> Judgement)
    requires StreamsOk(w) && m in w.sessions && s == w.sessions[m].(done := s.done)
    ensures var e := DrainReads(Work(s, w.places), m, judge);
            && Tied(e, m, {}) && SlotsOk(e.session) && OnlyTouches(w.places, e.places, m, {})
            && StreamsOk(Put(w, m, e))
  {
    assert MessageOk(w, m);
    DrainTied(Work(s, w.places), m, judge, {});
    PutOk(w, m, DrainReads(Work(s, w.places), m, judge), {});
  }

  lemma ReadDoneOk(w: Chan, m: MessageID, own: bool, judge: Chunk -> Judgement)
    requires StreamsOk(w)
    ensures StreamsOk(ReadDone(w, m, own, judge))
  {
    if m in w.sessions {
      var s := w.sessions[m];
      DrainOk(w, m, if own && s.done > 0 then s.(done := s.done - 1) else s, judge);
    }
  }

  // ---------------------------------------------------------------------------
  // A chunk stream arrives, a reader ends
  // ---------------------------------------------------------------------------

  lemma ReadOrQueueOk(w: Chan, m: MessageID, c: Chunk, judge: Chunk -> Judgement)
    requires StreamsOk(w) && m in w.sessions && c.stream !in w.places
    ensures StreamsOk(Put(w, m, HandleChunkStream(DrainReads(Work(w.sessions[m], w.places), m, judge), m, c, judge)))
  {
    var k := DrainReads(Work(w.sessions[m], w.places), m, judge);
    DrainOk(w, m, w.sessions[m], judge);
    assert c.stream !in k.places;
    InHand(k, m, c.stream);
    HandleTied(k, m, c, judge, {c.stream});
    HandleSlots(k, m, c, judge, {c.stream});
    HandleTouches(k, m, c, judge);
    assert {c.stream} - {c.stream} == {};
    var e := HandleChunkStream(k, m, c, judge);
    WiderHand(w.places, k.places, m, {}, {c.stream});
    TouchesTrans(w.places, k.places, e.places, m, {c.stream});
    PutOk(w, m, e, {c.stream});
  }

  lemma InHand(k: Work, m: MessageID, x: Stream)
    requires Tied(k, m, {}) && x !in k.places
    ensures Tied(k, m, {x})
  {
  }

  lemma ParkOk(w: Chan, m: MessageID, c: Chunk, g: Group)
    requires StreamsOk(w) && m !in w.sessions && c.stream !in w.places
    requires if m in w.parked then g == w.parked[m] && |g.streams| < MAX_PARKED_CHUNKS else g.streams == []
    ensures StreamsOk(w.(parked := w.parked[m := g.(streams := g.streams + [c])],
        places := w.places[c.stream := Parked(m, c)]))
  {
    var v := w.(parked := w.parked[m := g.(streams := g.streams + [c])], places := w.places[c.stream := Parked(m, c)]);
    forall o
      ensures MessageOk(v, o)
    {
      assert MessageOk(w, o);
      if o == m {
        assert forall d :: d in g.streams + [c] <==> d in g.streams || d == c;
      } else {
        NewElsewhere(w, v, o, c.stream);
      }
    }
  }

  /** A new stream placed for another message, or ended at once, changes nothing for this one. */
  lemma NewElsewhere(w: Chan, v: Chan, o: MessageID, x: Stream)
    requires MessageOk(w, o) && x !in w.places && x in v.places && v.places == w.places[x := v.places[x]]
        && !Of(v.places[x], o)
    requires (o in v.parked) == (o in w.parked) && (o in w.parked ==> v.parked[o] == w.parked[o])
    requires (o in v.sessions) == (o in w.sessions) && (o in w.sessions ==> v.sessions[o] == w.sessions[o])
    ensures MessageOk(v, o)
  {
  }

  lemma ChunkArrivesOk(w: Chan, m: MessageID, c: Chunk, now: int, judge: Chunk -> Judgement)
    requires StreamsOk(w) && c.stream !in w.places
    ensures StreamsOk(ChunkArrives(w, m, c, now, judge))
  {
    var v := ChunkArrives(w, m, c, now, judge);
    if m in w.sessions {
      ReadOrQueueOk(w, m, c, judge);
    } else if m in w.parked && |w.parked[m].streams| >= MAX_PARKED_CHUNKS {
      forall o
        ensures MessageOk(v, o)
      {
        assert MessageOk(w, o);
        NewElsewhere(w, v, o, c.stream);
      }
    } else {
      ParkOk(w, m, c, if m in w.parked then w.parked[m] else Group(now, []));
    }
  }

  /** The streams that are gone have ended; the others are where they were. */
  ghost predicate Settles(before: map<Stream, Place>, after: map<Stream, Place>, gone: set<Stream>) {
    && after.Keys == before.Keys && gone <= before.Keys
    && forall x :: x in before ==> if x in gone then after[x].Ended? else after[x] == before[x]
  }

  lemma ParkedSettled(parked: map<MessageID, Group>, before: map<Stream, Place>, after: map<Stream, Place>,
      m: MessageID, gone: set<Stream>)
    requires ParkedTied(parked, before, m) && Settles(before, after, gone)
    requires forall x :: x in gone ==> !(before[x].Parked? && before[x].message == m)
    ensures ParkedTied(parked, after, m)
  {
  }

  lemma SessionSettled(sessions: map<MessageID, Session>, before: map<Stream, Place>, after: map<Stream, Place>,
      m: MessageID, gone: set<Stream>)
    requires SessionTied(sessions, before, m) && Settles(before, after, gone)
    requires forall x :: x in gone ==> !((before[x].Queued? || before[x].Reading?) && before[x].message == m)
    ensures SessionTied(sessions, after, m)
  {
  }

  lemma ReaderEndsOk(w: Chan, m: MessageID, x: Stream, code: Code)
    requires StreamsOk(w) && m in w.sessions && x in w.sessions[m].readers
    ensures StreamsOk(ReaderEnds(w, m, x, code))
  {
    var v := ReaderEnds(w, m, x, code);
    assert MessageOk(w, m);
    assert w.places[x] == Reading(m, w.sessions[m].readers[x]);
    assert Settles(w.places, v.places, {x});
    forall o
      ensures MessageOk(v, o)
    {
      assert MessageOk(w, o);
      ParkedSettled(w.parked, w.places, v.places, o, {x});
      if o == m {
        ReaderGone(w.sessions[m], w.places, m, x, code);
      } else {
        SessionSettled(w.sessions, w.places, v.places, o, {x});
        SameSession(w.sessions, v.sessions, v.places, o);
      }
    }
  }

  lemma SameSession(a: map<MessageID, Session>, b: map<MessageID, Session>, places: map<Stream, Place>, m: MessageID)
    requires SessionTied(a, places, m) && (m in a) == (m in b) && (m in a ==> a[m] == b[m])
    ensures SessionTied(b, places, m)
  {
  }

  lemma SameParked(a: map<MessageID, Group>, b: map<MessageID, Group>, places: map<Stream, Place>, m: MessageID)
    requires ParkedTied(a, places, m) && (m in a) == (m in b) && (m in a ==> a[m] == b[m])
    ensures ParkedTied(b, places, m)
  {
  }

  lemma ReaderGone(s: Session, places: map<Stream, Place>, m: MessageID, x: Stream, code: Code)
    requires Tied(Work(s, places), m, {}) && SlotsOk(s) && x in s.readers
    ensures var t := s.(readers := s.readers - {x}, done := s.done + 1);
            Tied(Work(t, places[x := Ended(code)]), m, {}) && SlotsOk(t)
  {
    assert (s.readers - {x}).Keys == s.readers.Keys - {x};
  }

  // ---------------------------------------------------------------------------
  // Streams end together
  // ---------------------------------------------------------------------------

  lemma DisposeSettles(places: map<Stream, Place>, m: MessageID, code: Code, gone: set<Stream>)
    requires gone == set x | x in places && Of(places[x], m)
    ensures Settles(places, EndAll(places, m, code), gone)
  {
  }

  /** Another message is not touched. */
  lemma DisposeOther(w: Chan, m: MessageID, code: Code, v: Chan, o: MessageID)
    requires MessageOk(w, o) && o != m
    requires v.sessions == w.sessions - {m} && v.parked == w.parked - {m} && v.places == EndAll(w.places, m, code)
    ensures MessageOk(v, o)
  {
    var gone := set x | x in w.places && Of(w.places[x], m);
    DisposeSettles(w.places, m, code, gone);
    ParkedSettled(w.parked, w.places, v.places, o, gone);
    SessionSettled(w.sessions, w.places, v.places, o, gone);
    SameParked(w.parked, v.parked, v.places, o);
    SameSession(w.sessions, v.sessions, v.places, o);
  }

  lemma DisposeOwn(w: Chan, m: MessageID, code: Code, v: Chan)
    requires v.sessions == w.sessions - {m} && v.parked == w.parked - {m} && v.places == EndAll(w.places, m, code)
    ensures MessageOk(v, m)
  {
  }

  lemma DisposeOk(w: Chan, m: MessageID, expired: bool)
    requires StreamsOk(w)
    ensures StreamsOk(Dispose(w, m, expired))
  {
    if m in w.sessions {
      var v := Dispose(w, m, expired);
      var code := if Rank(w.sessions[m].stage) >= 1 then REDUNDANT else if expired then REFUSED else UNSPECIFIED;
      forall o
        ensures MessageOk(v, o)
      {
        assert MessageOk(w, o);
        if o == m {
          DisposeOwn(w, m, code, v);
        } else {
          DisposeOther(w, m, code, v, o);
        }
      }
    }
  }

  lemma {:induction false} KeepOthersElements(chunks: seq<Chunk>, p: PeerID)
    requires DistinctStreams(chunks)
    ensures forall c :: c in KeepOthers(chunks, p) <==> c in chunks && c.peer != p
    ensures DistinctStreams(KeepOthers(chunks, p)) && |KeepOthers(chunks, p)| <= |chunks|
  {
    if chunks != [] {
      var head, tail := chunks[0], chunks[1..];
      StreamsTail(chunks);
      KeepOthersElements(tail, p);
      assert forall c :: c in chunks <==> c == head || c in tail;
      assert forall c :: c in tail ==> c.stream in Streams(tail);
    }
  }

  lemma QueueLeft(s: Session, places: map<Stream, Place>, m: MessageID, p: PeerID)
    requires Tied(Work(s, places), m, {}) && SlotsOk(s)
    ensures Tied(Work(DropPeer(s, p), EndQueued(places, m, p)), m, {}) && SlotsOk(DropPeer(s, p))
  {
    KeepOthersElements(s.queue, p);
  }

  /** A peer leaves one session: its queued streams end. */
  lemma DropOk(w: Chan, m: MessageID, p: PeerID)
    requires StreamsOk(w) && m in w.sessions
    ensures StreamsOk(w.(sessions := w.sessions[m := DropPeer(w.sessions[m], p)], places := EndQueued(w.places, m, p)))
  {
    var v := w.(sessions := w.sessions[m := DropPeer(w.sessions[m], p)], places := EndQueued(w.places, m, p));
    var gone := set x | x in w.places && w.places[x].Queued? && w.places[x].message == m && w.places[x].chunk.peer == p;
    assert Settles(w.places, v.places, gone);
    forall o
      ensures MessageOk(v, o)
    {
      assert MessageOk(w, o);
      ParkedSettled(w.parked, w.places, v.places, o, gone);
      if o == m {
        QueueLeft(w.sessions[m], w.places, m, p);
      } else {
        SessionSettled(w.sessions, w.places, v.places, o, gone);
        SameSession(w.sessions, v.sessions, v.places, o);
      }
    }
  }

  lemma GroupLeft(w: Chan, p: PeerID, o: MessageID)
    requires ParkedTied(w.parked, w.places, o)
    ensures ParkedTied(UnparkPeer(w, p).parked, UnparkPeer(w, p).places, o)
  {
    if o in w.parked {
      KeepOthersElements(w.parked[o].streams, p);
    }
  }

  lemma UnparkOk(w: Chan, p: PeerID)
    requires StreamsOk(w)
    ensures StreamsOk(UnparkPeer(w, p))
  {
    var v := UnparkPeer(w, p);
    var gone := set x | x in w.places && w.places[x].Parked? && w.places[x].chunk.peer == p;
    assert Settles(w.places, v.places, gone);
    forall o
      ensures MessageOk(v, o)
    {
      assert MessageOk(w, o);
      GroupLeft(w, p, o);
      SessionSettled(w.sessions, w.places, v.places, o, gone);
    }
  }

  lemma ExpireParkedOk(w: Chan, now: int)
    requires StreamsOk(w)
    ensures StreamsOk(ExpireParked(w, now))
  {
    var v := ExpireParked(w, now);
    var gone := set x | x in w.places && w.places[x].Parked? && Stale(w.parked, w.places[x].message, now);
    assert Settles(w.places, v.places, gone);
    forall o
      ensures MessageOk(v, o)
    {
      assert MessageOk(w, o);
      SessionSettled(w.sessions, w.places, v.places, o, gone);
    }
  }

  // ---------------------------------------------------------------------------
  // Sessions that keep their reads
  // ---------------------------------------------------------------------------

  /** Same queue, readers and pending events. */
  ghost predicate SameReads(s: Session, t: Session) {
    t.queue == s.queue && t.readers == s.readers && t.done == s.done
  }

  lemma SameReadsOk(w: Chan, v: Chan)
    requires StreamsOk(w) && v.places == w.places && v.parked == w.parked && v.sessions.Keys == w.sessions.Keys
    requires forall m :: m in w.sessions ==> SameReads(w.sessions[m], v.sessions[m])
    ensures StreamsOk(v)
  {
    forall o
      ensures MessageOk(v, o)
    {
      assert MessageOk(w, o);
    }
  }

  /** A new session without streams of its own. */
  lemma NewSessionOk(w: Chan, m: MessageID, s: Session, v: Chan)
    requires StreamsOk(w) && m !in w.sessions && s.queue == [] && s.readers == map[]
    requires v.places == w.places && v.parked == w.parked && v.sessions == w.sessions[m := s]
    ensures StreamsOk(v)
  {
    forall o
      ensures MessageOk(v, o)
    {
      assert MessageOk(w, o);
      if o != m {
        SameSession(w.sessions, v.sessions, v.places, o);
      }
    }
  }

  // ---------------------------------------------------------------------------
  // A parked group is taken over
  // ---------------------------------------------------------------------------

  lemma {:induction false} HandleAllMoves(k: Work, m: MessageID, chunks: seq<Chunk>, judge: Chunk -> Judgement,
      c: Chunk)
    requires c in chunks || (c.stream in k.places && !k.places[c.stream].Parked?)
    ensures c.stream in HandleAll(k, m, chunks, judge).places
        && !HandleAll(k, m, chunks, judge).places[c.stream].Parked?
    decreases |chunks|
  {
    if chunks != [] {
      HandleAllMoves(HandleChunkStream(k, m, chunks[0], judge), m, chunks[1..], judge, c);
    }
  }

  /** A new session takes over the message's parked streams. */
  lemma TakeOverOk(w: Chan, m: MessageID, s: Session, judge: Chunk -> Judgement)
    requires StreamsOk(w) && m in w.parked && m !in w.sessions && s.queue == [] && s.readers == map[]
    ensures var k := HandleAll(Work(s, w.places), m, w.parked[m].streams, judge);
            StreamsOk(Put(w.(parked := w.parked - {m}), m, k))
  {
    var chunks := w.parked[m].streams;
    var k := HandleAll(Work(s, w.places), m, chunks, judge);
    assert MessageOk(w, m);
    HandleAllTied(Work(s, w.places), m, chunks, judge);
    var v := Put(w.(parked := w.parked - {m}), m, k);
    forall o
      ensures MessageOk(v, o)
    {
      assert MessageOk(w, o);
      if o == m {
        NoneParked(w, m, s, judge);
      } else {
        OthersParked(w.parked, w.places, k.places, m, o, Streams(chunks));
        OthersSession(w.sessions, w.places, k.places, m, o, Streams(chunks));
        SameParked(w.parked, v.parked, v.places, o);
        SameSession(w.sessions, v.sessions, v.places, o);
      }
    }
  }

  lemma NoneParked(w: Chan, m: MessageID, s: Session, judge: Chunk -> Judgement)
    requires MessageOk(w, m) && m in w.parked && m !in w.sessions && s.queue == [] && s.readers == map[]
    ensures ParkedTied(w.parked - {m}, HandleAll(Work(s, w.places), m, w.parked[m].streams, judge).places, m)
  {
    var chunks := w.parked[m].streams;
    var after := HandleAll(Work(s, w.places), m, chunks, judge).places;
    HandleAllTied(Work(s, w.places), m, chunks, judge);
    forall x | x in after && after[x].Parked? && after[x].message == m
      ensures false
    {
      assert w.places[x] == after[x];
      HandleAllMoves(Work(s, w.places), m, chunks, judge, w.places[x].chunk);
    }
  }

  lemma OpenSessionOk(w: Chan, m: MessageID, valid: bool, now: int, judge: Chunk -> Judgement)
    requires StreamsOk(w)
    ensures StreamsOk(OpenSession(w, m, valid, now, judge))
  {
    if m !in w.sessions && valid {
      var s := NewSession(w, false, now);
      if m in w.parked {
        TakeOverOk(w, m, s, judge);
        SameReadsOk(Put(w.(parked := w.parked - {m}), m, HandleAll(Work(s, w.places), m, w.parked[m].streams,
            judge)), OpenSession(w, m, valid, now, judge));
      } else {
        assert w.parked - {m} == w.parked;
        NewSessionOk(w, m, s, OpenSession(w, m, valid, now, judge));
      }
    }
  }
}
