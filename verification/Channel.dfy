/** A channel's event loop: its maps are updated by one goroutine, event by event. */
module Channel {
  import opened ChannelSpec
  import opened ChannelStreams
  import opened ChannelPlaces
  import opened ChannelRuns
  import opened ChannelLogs
  import opened Wire

  // ---------------------------------------------------------------------------
  // The streams that were ended
  // ---------------------------------------------------------------------------

  /** The streams ended so far, each with its code. */
  ghost function EndedOf(places: map<Stream, Place>): map<Stream, Code> {
    map x | x in places && places[x].Ended? :: places[x].code
  }

  function All(streams: set<Stream>, code: Code): map<Stream, Code> {
    map x | x in streams :: code
  }

  lemma EndOne(places: map<Stream, Place>, x: Stream, place: Place)
    requires x in places ==> !places[x].Ended?
    ensures EndedOf(places[x := place]) == if place.Ended? then EndedOf(places)[x := place.code] else EndedOf(places)
  {
  }

  lemma EndMany(before: map<Stream, Place>, after: map<Stream, Place>, gone: set<Stream>, code: Code)
    requires Settles(before, after, gone) && forall x :: x in gone ==> after[x] == Ended(code)
    ensures EndedOf(after) == EndedOf(before) + All(gone, code)
  {
  }

  function GroupOf(parked: map<MessageID, Group>, m: MessageID): seq<Chunk> {
    if m in parked then parked[m].streams else []
  }

  /** The message's streams are those parked, queued and being read. */
  ghost predicate Covered(w: Chan, m: MessageID)
    requires m in w.sessions
  {
    (set x | x in w.places && Of(w.places[x], m))
    == Streams(GroupOf(w.parked, m)) + Streams(w.sessions[m].queue) + w.sessions[m].readers.Keys
  }

  lemma StreamsOfMessage(w: Chan, m: MessageID)
    requires MessageOk(w, m) && m in w.sessions
    ensures Covered(w, m)
  {
    ParkedStreams(w.parked, w.places, m);
    QueuedStreams(w.sessions[m].queue, w.places, m);
    ReadStreams(w.sessions[m].readers, w.places, m);
    ByPlace(w.places, m);
  }

  lemma ByPlace(places: map<Stream, Place>, m: MessageID)
    ensures (set x | x in places && Of(places[x], m))
         == (set x | x in places && places[x].Parked? && places[x].message == m)
          + (set x | x in places && places[x].Queued? && places[x].message == m)
          + (set x | x in places && places[x].Reading? && places[x].message == m)
  {
  }

  lemma ParkedStreams(parked: map<MessageID, Group>, places: map<Stream, Place>, m: MessageID)
    requires ParkedTied(parked, places, m)
    ensures (set x | x in places && places[x].Parked? && places[x].message == m) == Streams(GroupOf(parked, m))
  {
  }

  lemma QueuedStreams(queue: seq<Chunk>, places: map<Stream, Place>, m: MessageID)
    requires QueueTied(queue, places, m, {})
    ensures (set x | x in places && places[x].Queued? && places[x].message == m) == Streams(queue)
  {
  }

  lemma ReadStreams(readers: map<Stream, Chunk>, places: map<Stream, Place>, m: MessageID)
    requires ReadersTied(readers, places, m, {})
    ensures (set x | x in places && places[x].Reading? && places[x].message == m) == readers.Keys
  {
  }

  lemma DisposeEnds(w: Chan, m: MessageID, code: Code)
    requires m in w.sessions && Covered(w, m)
    ensures var s := w.sessions[m];
            EndedOf(EndAll(w.places, m, code))
                == EndedOf(w.places) + All(Streams(GroupOf(w.parked, m)) + Streams(s.queue) + s.readers.Keys, code)
  {
    var gone := set x | x in w.places && Of(w.places[x], m);
    EndAllSettles(w.places, m, code, gone);
    EndMany(w.places, EndAll(w.places, m, code), gone, code);
  }

  lemma EndAllSettles(places: map<Stream, Place>, m: MessageID, code: Code, gone: set<Stream>)
    requires gone == set x | x in places && Of(places[x], m)
    ensures Settles(places, EndAll(places, m, code), gone) && forall x :: x in gone ==>
        EndAll(places, m, code)[x] == Ended(code)
  {
  }

  class Channel {
    var members: map<PeerID, Conn>
    var sessions: map<MessageID, Session>
    var parked: map<MessageID, Group>
    var nextSerial: nat
    /** The streams that ended, read or cancelled, with their codes. */
    var ended: map<Stream, Code>
    ghost var w: Chan

    constructor ()
      ensures Valid() && w == NEW_CHAN
    {
      members, sessions, parked, nextSerial, ended := map[], map[], map[], 0, map[];
      w := NEW_CHAN;
      NewChannelInv();
    }

    ghost predicate Tied()
      reads this
    {
      members == w.members && sessions == w.sessions && parked == w.parked && nextSerial == w.nextSerial
          && ended == EndedOf(w.places)
    }

    ghost predicate Valid()
      reads this
    {
      Tied() && ChannelInv(w)
    }

    // -------------------------------------------------------------------------
    // Reading chunk streams
    // -------------------------------------------------------------------------

    method CancelEach(chunks: seq<Chunk>, code: Code)
      modifies `ended
      ensures ended == old(ended) + All(Streams(chunks), code)
    {
      for i := 0 to |chunks|
        invariant ended == old(ended) + All(Streams(chunks[..i]), code)
      {
        assert chunks[..i + 1] == chunks[..i] + [chunks[i]];
        assert Streams(chunks[..i + 1]) == Streams(chunks[..i]) + {chunks[i].stream};
        ended := ended[chunks[i].stream := code];
      }
      assert chunks[..|chunks|] == chunks;
    }

    /** End the stream, start reading it, or queue it. */
    method HandleStream(s: Session, m: MessageID, c: Chunk, judge: Chunk -> Judgement, ghost places: map<Stream, Place>)
      returns (t: Session, ghost after: map<Stream, Place>)
      requires ended == EndedOf(places) && (c.stream in places ==> !places[c.stream].Ended?)
      modifies `ended
      ensures Work(t, after) == HandleChunkStream(Work(s, places), m, c, judge) && ended == EndedOf(after)
    {
      t := s;
      if judge(c) == Malformed {
        after := places[c.stream := Place.Ended(UNSPECIFIED)];
        ended := ended[c.stream := UNSPECIFIED];
      } else if Rank(s.stage) >= 1 || judge(c) == Held {
        after := places[c.stream := Place.Ended(REDUNDANT)];
        ended := ended[c.stream := REDUNDANT];
      } else if |s.readers| < MAX_CONCURRENT_READS {
        after := places[c.stream := Reading(m, c)];
        t := s.(readers := s.readers[c.stream := c]);
      } else {
        after := places[c.stream := Queued(m, c)];
        t := s.(queue := s.queue + [c]);
      }
      EndOne(places, c.stream, after[c.stream]);
    }

    /** Start queued reads while slots are free. */
    method DrainReads(s: Session, m: MessageID, judge: Chunk -> Judgement, ghost places: map<Stream, Place>)
      returns (t: Session, ghost after: map<Stream, Place>)
      requires ended == EndedOf(places) && ChannelStreams.Tied(Work(s, places), m, {})
          && |s.readers| <= MAX_CONCURRENT_READS
      modifies `ended
      ensures Work(t, after) == ChannelSpec.DrainReads(Work(s, places), m, judge) && ended == EndedOf(after)
    {
      t, after := s, places;
      while |t.queue| > 0 && |t.readers| < MAX_CONCURRENT_READS
        invariant ended == EndedOf(after) && ChannelStreams.Tied(Work(t, after), m, {})
            && |t.readers| <= MAX_CONCURRENT_READS
        invariant ChannelSpec.DrainReads(Work(t, after), m, judge) == ChannelSpec.DrainReads(Work(s, places), m, judge)
        decreases |t.queue|
      {
        ghost var k := Work(t, after);
        var c := t.queue[0];
        assert c in t.queue;
        var popped := t.(queue := t.queue[1..]);
        t, after := HandleStream(popped, m, c, judge, after);
        DrainStep(k, m, judge, {});
      }
    }

    method ReadDone(m: MessageID, own: bool, judge: Chunk -> Judgement)
      requires Valid()
      modifies this
      ensures Valid() && w == ChannelSpec.ReadDone(old(w), m, own, judge)
    {
      HandleInv(w, ReadDoneEvent(m, own, judge));
      if m in sessions {
        assert MessageOk(w, m);
        var s := sessions[m];
        Drain(m, if own && s.done > 0 then s.(done := s.done - 1) else s, judge);
      }
    }

    /** A reader's goroutine gives its slot back, its stream read or cancelled with the code. */
    method ReaderEnds(m: MessageID, x: Stream, code: Code)
      requires Valid() && m in sessions && x in sessions[m].readers
      modifies this
      ensures Valid() && w == ChannelSpec.ReaderEnds(old(w), m, x, code)
    {
      HandleInv(w, ReaderEndsEvent(m, x, code));
      assert MessageOk(w, m);
      EndOne(w.places, x, Place.Ended(code));
      var s := sessions[m];
      sessions := sessions[m := s.(readers := s.readers - {x}, done := s.done + 1)];
      ended := ended[x := code];
      w := ChannelSpec.ReaderEnds(w, m, x, code);
    }

    method Drain(m: MessageID, s: Session, judge: Chunk -> Judgement)
      requires Tied() && m in sessions && ChannelStreams.Tied(Work(s, w.places), m, {})
          && |s.readers| <= MAX_CONCURRENT_READS
      modifies this
      ensures Tied() && w == Put(old(w), m, ChannelSpec.DrainReads(Work(s, old(w).places), m, judge))
    {
      var t, after := DrainReads(s, m, judge, w.places);
      sessions := sessions[m := t];
      w := Put(w, m, Work(t, after));
    }

    /** A chunk stream is read or queued by its session, parked when there is none, or ended. */
    method Chunk(m: MessageID, c: Chunk, now: int, judge: Chunk -> Judgement)
      requires Valid() && c.stream !in w.places
      modifies this
      ensures Valid() && w == ChunkArrives(old(w), m, c, now, judge)
    {
      HandleInv(w, ChunkEvent(m, c, now, judge));
      if m in sessions {
        assert MessageOk(w, m);
        Receive(m, c, judge);
      } else {
        Park(m, c, now);
      }
    }

    method Receive(m: MessageID, c: Chunk, judge: Chunk -> Judgement)
      requires Tied() && m in sessions && ChannelStreams.Tied(Work(sessions[m], w.places), m, {})
          && |sessions[m].readers| <= MAX_CONCURRENT_READS
      requires c.stream !in w.places
      modifies this
      ensures Tied()
      ensures w == Put(old(w), m, HandleChunkStream(ChannelSpec.DrainReads(Work(old(w).sessions[m], old(w).places),
          m, judge), m, c, judge))
    {
      DrainTied(Work(sessions[m], w.places), m, judge, {});
      var t, after := DrainReads(sessions[m], m, judge, w.places);
      t, after := HandleStream(t, m, c, judge, after);
      sessions := sessions[m := t];
      w := Put(w, m, Work(t, after));
    }

    method Park(m: MessageID, c: Chunk, now: int)
      requires Tied() && m !in sessions && c.stream !in w.places
      modifies this
      ensures Tied() && forall judge :: w == ChunkArrives(old(w), m, c, now, judge)
    {
      ghost var before := w;
      if m in parked && |parked[m].streams| >= MAX_PARKED_CHUNKS {
        ended := ended[c.stream := UNSPECIFIED];
        w := w.(places := w.places[c.stream := Place.Ended(UNSPECIFIED)]);
      } else {
        var g := if m in parked then parked[m] else Group(now, []);
        parked := parked[m := g.(streams := g.streams + [c])];
        w := w.(parked := parked, places := w.places[c.stream := Parked(m, c)]);
      }
      EndOne(before.places, c.stream, w.places[c.stream]);
    }

    // -------------------------------------------------------------------------
    // Sessions begin and end
    // -------------------------------------------------------------------------

    /** Unregister the session; its streams, parked, queued or being read, are ended. */
    method Dispose(m: MessageID, expired: bool)
      requires Tied() && (m in sessions ==> Covered(w, m))
      modifies this
      ensures Tied() && w == ChannelSpec.Dispose(old(w), m, expired)
    {
      if m !in sessions {
        return;
      }
      var s := sessions[m];
      var code := if Rank(s.stage) >= 1 then REDUNDANT else if expired then REFUSED else UNSPECIFIED;
      var group := GroupOf(parked, m);
      DisposeEnds(w, m, code);
      sessions := sessions - {m};
      parked := parked - {m};
      CancelAll(group, s, code);
      w := ChannelSpec.Dispose(w, m, expired);
    }

    method CancelAll(group: seq<Chunk>, s: Session, code: Code)
      modifies `ended
      ensures ended == old(ended) + All(Streams(group) + Streams(s.queue) + s.readers.Keys, code)
    {
      CancelEach(group, code);
      CancelEach(s.queue, code);
      CancelReaders(s.readers, code);
      AllSum(old(ended), Streams(group), Streams(s.queue), s.readers.Keys, code);
    }

    /** Ending the session's context ends every read in progress. */
    method CancelReaders(readers: map<Stream, Chunk>, code: Code)
      modifies `ended
      ensures ended == old(ended) + All(readers.Keys, code)
    {
      var left := readers.Keys;
      while left != {}
        invariant left <= readers.Keys && ended == old(ended) + All(readers.Keys - left, code)
        decreases |left|
      {
        var x :| x in left;
        AllMore(old(ended), readers.Keys - left, x, code);
        OneVisited(readers.Keys, left, x);
        ended := ended[x := code];
        left := left - {x};
      }
      assert readers.Keys - left == readers.Keys;
    }

    /** Whether the session has no remaining work. */
    method IsIdle(s: Session) returns (idle: bool)
      ensures idle == Idle(s)
    {
      if !s.everHadPeers {
        return false;
      }
      if Rank(s.stage) < 2 {
        return s.peers.Keys == {};
      }
      var left := s.peers.Keys;
      while left != {}
        invariant left <= s.peers.Keys && forall p :: p in s.peers && p !in left ==> s.peers[p].completed
        decreases |left|
      {
        var p :| p in left;
        if !s.peers[p].completed {
          return false;
        }
        left := left - {p};
      }
      return true;
    }

    method DisposeIfIdle(m: MessageID)
      requires Tied() && m in sessions && Covered(w, m)
      modifies this
      ensures Tied() && w == ChannelSpec.DisposeIfIdle(old(w), m)
    {
      var idle := IsIdle(sessions[m]);
      if idle {
        Dispose(m, false);
      }
    }

    /** A new session with every member attached. */
    method Start(origin: bool, now: int) returns (s: Session)
      requires Tied()
      ensures s == NewSession(w, origin, now)
    {
      s := Session(nextSerial, if origin then Origin else Consuming, false, map[], [], map[], 0, now);
      ghost var bare := s;
      var left := members.Keys;
      JoinedAll(members);
      while left != {}
        invariant left <= members.Keys
        invariant s == bare.(peers := Joined(members, left), everHadPeers := left != members.Keys)
        decreases |left|
      {
        var p :| p in left;
        JoinedMore(members, left, p);
        s := AttachPeer(s, p, members[p]);
        left := left - {p};
      }
    }

    method Publish(m: MessageID, now: int)
      requires Valid()
      modifies this
      ensures Valid() && w == ChannelSpec.Publish(old(w), m, now)
    {
      HandleInv(w, PublishEvent(m, now));
      assert MessageOk(w, m);
      if m in sessions {
        StreamsOfMessage(w, m);
      }
      Replace(m, now);
    }

    method Replace(m: MessageID, now: int)
      requires Tied() && (m in sessions ==> Covered(w, m))
      modifies this
      ensures Tied() && w == ChannelSpec.Publish(old(w), m, now)
    {
      Dispose(m, false);
      var s := Start(true, now);
      sessions := sessions[m := s];
      nextSerial := nextSerial + 1;
      w := w.(sessions := sessions, nextSerial := nextSerial);
    }

    /** A peer opens a session: a new one takes the message's parked streams. */
    method Open(m: MessageID, valid: bool, now: int, judge: Chunk -> Judgement)
      requires Valid()
      modifies this
      ensures Valid() && w == OpenSession(old(w), m, valid, now, judge)
    {
      HandleInv(w, OpenEvent(m, valid, now, judge));
      assert MessageOk(w, m);
      Relay(m, valid, now, judge);
    }

    method Relay(m: MessageID, valid: bool, now: int, judge: Chunk -> Judgement)
      requires Tied() && ParkedTied(w.parked, w.places, m)
      modifies this
      ensures Tied() && w == OpenSession(old(w), m, valid, now, judge)
    {
      if m in sessions || !valid {
        return;
      }
      var s := Start(false, now);
      TakeOver(m, s, judge);
    }

    method TakeOver(m: MessageID, s: Session, judge: Chunk -> Judgement)
      requires Tied() && ParkedTied(w.parked, w.places, m)
      modifies this
      ensures Tied()
      ensures w == Put(old(w).(parked := old(w).parked - {m}, nextSerial := old(w).nextSerial + 1), m,
                       HandleAll(Work(s, old(w).places), m, GroupOf(old(w).parked, m), judge))
    {
      var chunks := GroupOf(parked, m);
      var t, after := HandleEach(s, m, chunks, judge, w.places);
      sessions := sessions[m := t];
      parked := parked - {m};
      nextSerial := nextSerial + 1;
      w := Put(w.(parked := parked, nextSerial := nextSerial), m, Work(t, after));
    }

    method HandleEach(s: Session, m: MessageID, chunks: seq<Chunk>, judge: Chunk -> Judgement,
        ghost places: map<Stream, Place>)
      returns (t: Session, ghost after: map<Stream, Place>)
      requires ended == EndedOf(places) && DistinctStreams(chunks)
      requires forall c :: c in chunks ==> c.stream in places && !places[c.stream].Ended?
      modifies `ended
      ensures Work(t, after) == HandleAll(Work(s, places), m, chunks, judge) && ended == EndedOf(after)
    {
      t, after := s, places;
      assert chunks[0..] == chunks;
      for i := 0 to |chunks|
        invariant ended == EndedOf(after)
        invariant forall j :: i <= j < |chunks| ==> chunks[j].stream in after && !after[chunks[j].stream].Ended?
        invariant HandleAll(Work(t, after), m, chunks[i..], judge) == HandleAll(Work(s, places), m, chunks, judge)
      {
        assert chunks[i..][0] == chunks[i] && chunks[i..][1..] == chunks[i + 1..];
        t, after := HandleStream(t, m, chunks[i], judge, after);
      }
    }

    // -------------------------------------------------------------------------
    // Peers
    // -------------------------------------------------------------------------

    method Bound(p: PeerID, c: Conn)
      requires Valid() && (p in members ==> members[p] == c)
      modifies this
      ensures Valid() && w == PeerBound(old(w), p, c)
    {
      HandleInv(w, BoundEvent(p, c));
      if p in members && members[p] == c {
        return;
      }
      members := members[p := c];
      AttachEverywhere(p, c);
      w := PeerBound(w, p, c);
    }

    method AttachEverywhere(p: PeerID, c: Conn)
      modifies `sessions
      ensures sessions == map m | m in old(sessions) :: AttachPeer(old(sessions)[m], p, c)
    {
      var left := sessions.Keys;
      while left != {}
        invariant sessions.Keys == old(sessions).Keys && left <= sessions.Keys
        invariant forall m :: m in sessions ==>
            sessions[m] == if m in left then old(sessions)[m] else AttachPeer(old(sessions)[m], p, c)
        decreases |left|
      {
        var m :| m in left;
        sessions := sessions[m := AttachPeer(sessions[m], p, c)];
        left := left - {m};
      }
    }

    /** Split off a peer's chunks, ending their streams. */
    method Filter(chunks: seq<Chunk>, p: PeerID) returns (kept: seq<Chunk>)
      requires DistinctStreams(chunks)
      modifies `ended
      ensures kept == KeepOthers(chunks, p)
      ensures ended == old(ended) + All(Streams(chunks) - Streams(KeepOthers(chunks, p)), UNSPECIFIED)
    {
      kept := [];
      FilterStart(chunks, p);
      for i := 0 to |chunks|
        invariant kept + KeepOthers(chunks[i..], p) == KeepOthers(chunks, p)
        invariant ended == old(ended) + All(Dropped(chunks[..i], p), UNSPECIFIED)
      {
        FilterStep(chunks, i, p, kept);
        DroppedMore(chunks, i, p);
        if chunks[i].peer == p {
          AllMore(old(ended), Dropped(chunks[..i], p), chunks[i].stream, UNSPECIFIED);
          ended := ended[chunks[i].stream := UNSPECIFIED];
        } else {
          kept := kept + [chunks[i]];
        }
      }
      FilterEnd(chunks, p, kept);
      DroppedStreams(chunks, p);
    }

    /** The peer leaves one session. */
    method Leave(m: MessageID, p: PeerID)
      requires Tied() && StreamsOk(w) && m in sessions
      modifies this
      ensures Tied() && w == PeerLeaves(old(w), m, p)
    {
      assert MessageOk(w, m);
      DropOk(w, m, p);
      DropEnds(sessions[m].queue, w.places, m, p);
      var s := sessions[m];
      var kept := Filter(s.queue, p);
      sessions := sessions[m := s.(queue := kept, peers := s.peers - {p})];
      w := w.(sessions := sessions, places := EndQueued(w.places, m, p));
      assert MessageOk(w, m);
      StreamsOfMessage(w, m);
      DisposeIfIdle(m);
    }
  
    /** The peer is unbound: its parked streams end and it leaves every session. */
    method Unbound(p: PeerID) returns (ghost order: seq<MessageID>)
      requires Valid()
      modifies this
      ensures CanHandle(old(w), UnboundEvent(p, order))
      ensures Valid() && w == PeerUnbound(old(w), p, order)
    {
      ghost var before := w;
      members := members - {p};
      w := w.(members := members);
      SameReadsOk(before, w);
      Unpark(p);
      UnparkOk(before.(members := members), p);
      order := LeaveEach(p);
      HandleInv(before, UnboundEvent(p, order));
    }

    method Unpark(p: PeerID)
      requires Tied() && StreamsOk(w)
      modifies this
      ensures Tied() && w == UnparkPeer(old(w), p)
    {
      var left := parked.Keys;
      UnparkStart(w, p);
      while left != {}
        invariant left <= old(parked).Keys && w == old(w) && members == w.members && sessions == w.sessions
            && nextSerial == w.nextSerial
        invariant parked == UnparkSome(w.parked, p, left) && ended == EndedOf(EndSome(w.places, p, left))
        decreases |left|
      {
        var m :| m in left;
        assert MessageOk(w, m);
        UnparkStep(w, p, left, m);
        var kept := Filter(parked[m].streams, p);
        if |kept| == 0 {
          parked := parked - {m};
        } else {
          parked := parked[m := parked[m].(streams := kept)];
        }
        left := left - {m};
      }
      UnparkEnd(w, p);
      w := UnparkPeer(w, p);
    }

    method LeaveEach(p: PeerID) returns (ghost order: seq<MessageID>)
      requires Tied() && StreamsOk(w)
      modifies this
      ensures Tied() && w == LeaveAll(old(w), order, p) && forall m :: m in old(w).sessions ==> m in order
    {
      order := [];
      var left := sessions.Keys;
      while left != {}
        invariant Tied() && StreamsOk(w) && w == LeaveAll(old(w), order, p)
        invariant forall m :: m in old(w).sessions ==> m in order || m in left
        decreases |left|
      {
        var m :| m in left;
        LeaveAllSnoc(old(w), order, m, p);
        if m in sessions {
          LeavesOk(w, m, p);
          Leave(m, p);
        }
        order := order + [m];
        left := left - {m};
      }
    }

    /** A peer has the message: it needs no more chunks. */
    method Completed(m: MessageID, p: PeerID)
      requires Valid()
      modifies this
      ensures Valid() && w == PeerReconstructed(old(w), m, p)
    {
      HandleInv(w, ReconstructedEvent(m, p));
      if m in sessions {
        assert MessageOk(w, m);
        StreamsOfMessage(w, m);
        Finish(m, p);
      }
    }

    method Finish(m: MessageID, p: PeerID)
      requires Tied() && m in sessions && Covered(w, m)
      modifies this
      ensures Tied() && w == PeerReconstructed(old(w), m, p)
    {
      var s := sessions[m];
      if p in s.peers && !s.peers[p].completed {
        sessions := sessions[m := s.(peers := s.peers[p := s.peers[p].(completed := true)])];
      }
      CompletedTwice(s, p);
      assert sessions == old(sessions)[m := CompletePeer(s, p)];
      w := w.(sessions := sessions);
      assert Covered(w, m);
      DisposeIfIdle(m);
    }

    /** The peer's end of the session closed; ignored when the connection was replaced since. */
    method SessionEnded(m: MessageID, p: PeerID, c: Conn)
      requires Valid()
      modifies this
      ensures Valid() && w == PeerSessionEnded(old(w), m, p, c)
    {
      HandleInv(w, SessionEndedEvent(m, p, c));
      if p !in members || members[p] != c {
        return;
      }
      if m in sessions {
        Leave(m, p);
      }
    }

    /** A chunk was taken; starts says that the session begins its decode. */
    method Taken(m: MessageID, accepted: bool, complete: bool) returns (starts: bool)
      requires Valid()
      modifies this
      ensures Valid() && w == AcceptChunk(old(w), m, accepted, complete)
      ensures starts <==> w.decoded != old(w).decoded
      ensures starts ==> m in old(w).sessions && old(w).sessions[m].serial !in old(w).decoded
    {
      HandleInv(w, TakenEvent(m, accepted, complete));
      starts := m in sessions && accepted && complete && sessions[m].stage == Consuming;
      if starts {
        assert StageAt(w.sessions[m], w);
        sessions := sessions[m := sessions[m].(stage := Decoding)];
      }
      assert |w.decoded + [0]| > |w.decoded|;
      w := AcceptChunk(w, m, accepted, complete);
    }

    /**
     * The result of decode d is handled; it names the message only. deliver says that its payload goes
     * to the subscriber.
     */
    method Decoded(m: MessageID, ok: bool, ghost d: nat) returns (deliver: bool)
      requires Valid() && d in w.results && w.results[d] == m
      modifies this
      ensures Valid() && w == Decode(old(w), d, ok)
      ensures deliver ==> m in old(w).sessions && !Delivers(old(w).delivered, old(w).sessions[m].serial)
      ensures w.delivered == old(w).delivered + if deliver then [Delivery(old(w).sessions[m].serial, d)] else []
    {
      HandleInv(w, DecodedEvent(d, ok));
      DecodeDelivers(w, d, ok);
      deliver := m in sessions && Rank(sessions[m].stage) < 2 && ok;
      if deliver {
        assert MessageOk(w, m);
        StreamsOfMessage(w, m);
      }
      w := DropResult(w, d);
      if deliver {
        assert Covered(w, m);
        Deliver(m, d);
      }
    }

    method Deliver(m: MessageID, ghost d: nat)
      requires Tied() && m in sessions && Covered(w, m)
      modifies this
      ensures Tied() && w == ChannelSpec.DisposeIfIdle(ChannelSpec.Deliver(old(w), m, d), m)
    {
      var s := sessions[m];
      sessions := sessions[m := s.(stage := Reconstructed)];
      w := ChannelSpec.Deliver(w, m, d);
      assert Covered(w, m);
      DisposeIfIdle(m);
    }

    /** The decode's goroutine found its session's context ended and posts nothing. */
    ghost method ResultDropped(d: nat)
      requires Valid() && CanHandle(w, DroppedEvent(d))
      modifies `w
      ensures Valid() && w == DropResult(old(w), d)
    {
      HandleInv(w, DroppedEvent(d));
      w := DropResult(w, d);
    }

    /** Dispose of sessions and end parked groups that are too old. */
    method Expire(now: int) returns (ghost order: seq<MessageID>)
      requires Valid()
      modifies this
      ensures CanHandle(old(w), ExpiryEvent(order, now))
      ensures Valid() && w == ChannelSpec.Expire(old(w), order, now)
    {
      ghost var before := w;
      order := ExpireEach(now);
      forall m
        ensures ParkedTied(w.parked, w.places, m)
      {
        assert MessageOk(w, m);
      }
      ExpireGroups(now);
      HandleInv(before, ExpiryEvent(order, now));
    }

    method ExpireEach(now: int) returns (ghost order: seq<MessageID>)
      requires Tied() && StreamsOk(w)
      modifies this
      ensures Tied() && StreamsOk(w) && w == ExpireSessions(old(w), order, now) && forall m :: m in old(w).sessions ==>
          m in order
    {
      order := [];
      var left := sessions.Keys;
      while left != {}
        invariant Tied() && StreamsOk(w) && w == ExpireSessions(old(w), order, now)
        invariant forall m :: m in old(w).sessions ==> m in order || m in left
        decreases |left|
      {
        var m :| m in left;
        ExpireSnoc(old(w), order, m, now);
        DisposeOk(w, m, true);
        if m in sessions && now - sessions[m].createdAt >= ACTIVE_SESSION_TTL {
          assert MessageOk(w, m);
          StreamsOfMessage(w, m);
          Dispose(m, true);
        }
        order := order + [m];
        left := left - {m};
      }
    }

    /** One group is visited; those in left are not yet. */
    method ExpireGroup(m: MessageID, now: int, ghost left: set<MessageID>)
      requires ParkedTied(w.parked, w.places, m) && m in left && left <= w.parked.Keys
      requires parked == ExpireSome(w.parked, now, left) && ended == EndedOf(EndOld(w.parked, w.places, now, left))
      modifies `parked, `ended
      ensures parked == ExpireSome(w.parked, now, left - {m})
      ensures ended == EndedOf(EndOld(w.parked, w.places, now, left - {m}))
    {
      ExpireStep(w, now, left, m);
      if now - parked[m].at >= ACTIVE_SESSION_TTL {
        CancelEach(parked[m].streams, REFUSED);
        parked := parked - {m};
      }
    }

    method ExpireGroups(now: int)
      requires Tied() && forall m :: ParkedTied(w.parked, w.places, m)
      modifies this
      ensures Tied() && w == ExpireParked(old(w), now)
    {
      var left := parked.Keys;
      ExpireStart(w, now);
      while left != {}
        invariant left <= old(parked).Keys && w == old(w) && members == w.members && sessions == w.sessions
            && nextSerial == w.nextSerial
        invariant parked == ExpireSome(w.parked, now, left) && ended == EndedOf(EndOld(w.parked, w.places, now, left))
        decreases |left|
      {
        var m :| m in left;
        ExpireGroup(m, now, left);
        left := left - {m};
      }
      ExpireEnd(w, now);
      w := ExpireParked(w, now);
    }
  }

  // ---------------------------------------------------------------------------
  // Loops over the parked groups
  // ---------------------------------------------------------------------------

  /** The groups with the peer's chunks split off, but for those left to visit. */
  function UnparkSome(parked: map<MessageID, Group>, p: PeerID, left: set<MessageID>): map<MessageID, Group> {
    map m | m in parked && (m in left || KeepOthers(parked[m].streams, p) != []) ::
      if m in left then parked[m] else parked[m].(streams := KeepOthers(parked[m].streams, p))
  }

  ghost function EndSome(places: map<Stream, Place>, p: PeerID, left: set<MessageID>): map<Stream, Place> {
    map x | x in places ::
      if places[x].Parked? && places[x].chunk.peer == p && places[x].message !in left then Ended(UNSPECIFIED)
      else places[x]
  }

  lemma UnparkStart(w: Chan, p: PeerID)
    requires StreamsOk(w)
    ensures UnparkSome(w.parked, p, w.parked.Keys) == w.parked && EndSome(w.places, p, w.parked.Keys) == w.places
  {
    forall x | x in w.places && w.places[x].Parked?
      ensures w.places[x].message in w.parked
    {
      assert MessageOk(w, w.places[x].message);
    }
  }

  lemma UnparkEnd(w: Chan, p: PeerID)
    ensures UnparkSome(w.parked, p, {}) == UnparkPeer(w, p).parked
        && EndSome(w.places, p, {}) == UnparkPeer(w, p).places
  {
  }

  lemma UnparkStep(w: Chan, p: PeerID, left: set<MessageID>, m: MessageID)
    requires ParkedTied(w.parked, w.places, m) && m in left && left <= w.parked.Keys
    ensures var some, kept := UnparkSome(w.parked, p, left), KeepOthers(w.parked[m].streams, p);
            && m in some && some[m] == w.parked[m] && DistinctStreams(w.parked[m].streams)
            && UnparkSome(w.parked, p, left - {m})
                == (if kept == [] then some - {m} else some[m := some[m].(streams := kept)])
    ensures var streams := w.parked[m].streams;
            EndedOf(EndSome(w.places, p, left - {m}))
                == EndedOf(EndSome(w.places, p, left))
                    + All(Streams(streams) - Streams(KeepOthers(streams, p)), UNSPECIFIED)
  {
    var streams := w.parked[m].streams;
    var gone := set x | x in w.places && w.places[x].Parked? && w.places[x].message == m && w.places[x].chunk.peer == p;
    DroppedStreams(streams, p);
    ParkedOf(streams, w.places, m, p, gone);
    EndSomeStep(w.places, p, left, m, gone);
  }

  lemma ParkedOf(streams: seq<Chunk>, places: map<Stream, Place>, m: MessageID, p: PeerID, gone: set<Stream>)
    requires gone == set x | x in places && places[x].Parked? && places[x].message == m && places[x].chunk.peer == p
    requires forall c :: c in streams ==> c.stream in places && places[c.stream] == Parked(m, c)
    requires forall x :: x in places && places[x].Parked? && places[x].message == m ==>
        places[x].chunk.stream == x && places[x].chunk in streams
    ensures gone == Dropped(streams, p)
  {
  }

  lemma EndSomeStep(places: map<Stream, Place>, p: PeerID, left: set<MessageID>, m: MessageID, gone: set<Stream>)
    requires m in left && gone == set x | x in places && places[x].Parked? && places[x].message == m
        && places[x].chunk.peer == p
    ensures EndedOf(EndSome(places, p, left - {m})) == EndedOf(EndSome(places, p, left)) + All(gone, UNSPECIFIED)
  {
    EndMany(EndSome(places, p, left), EndSome(places, p, left - {m}), gone, UNSPECIFIED);
  }

  /** What handling a result delivers: to the message's session, if that has delivered nothing yet. */
  lemma DecodeDelivers(w: Chan, d: nat, ok: bool)
    requires LogsOk(w) && d in w.results
    ensures var m, v := w.results[d], Decode(w, d, ok);
            if m in w.sessions && Rank(w.sessions[m].stage) < 2 && ok
            then !Delivers(w.delivered, w.sessions[m].serial)
                && v.delivered == w.delivered + [Delivery(w.sessions[m].serial, d)]
            else v.delivered == w.delivered
  {
    var m := w.results[d];
    assert m in w.sessions ==> StageAt(w.sessions[m], w);
  }

  lemma {:induction false} LeaveAllSnoc(w: Chan, order: seq<MessageID>, m: MessageID, p: PeerID)
    ensures var v := LeaveAll(w, order, p);
            LeaveAll(w, order + [m], p) == if m in v.sessions then PeerLeaves(v, m, p) else v
    decreases |order|
  {
    if order == [] {
      assert (order + [m])[1..] == [];
    } else {
      assert (order + [m])[1..] == order[1..] + [m];
      LeaveAllSnoc(if order[0] in w.sessions then PeerLeaves(w, order[0], p) else w, order[1..], m, p);
    }
  }

  lemma CompletedTwice(s: Session, p: PeerID)
    ensures p in s.peers && s.peers[p].completed ==> CompletePeer(s, p) == s
  {
    if p in s.peers && s.peers[p].completed {
      assert s.peers[p := s.peers[p]] == s.peers;
    }
  }

  lemma {:induction false} ExpireSnoc(w: Chan, order: seq<MessageID>, m: MessageID, now: int)
    ensures var v := ExpireSessions(w, order, now);
            ExpireSessions(w, order + [m], now)
            == if Overdue(v.sessions, m, now) then Dispose(v, m, true) else v
    decreases |order|
  {
    if order == [] {
      assert (order + [m])[1..] == [];
    } else {
      assert (order + [m])[1..] == order[1..] + [m];
      var v := if Overdue(w.sessions, order[0], now) then Dispose(w, order[0], true) else w;
      ExpireSnoc(v, order[1..], m, now);
    }
  }

  function ExpireSome(parked: map<MessageID, Group>, now: int, left: set<MessageID>): map<MessageID, Group> {
    map m | m in parked && (m in left || !Stale(parked, m, now)) :: parked[m]
  }

  ghost function EndOld(parked: map<MessageID, Group>, places: map<Stream, Place>, now: int,
      left: set<MessageID>): map<Stream, Place> {
    map x | x in places ::
      if places[x].Parked? && Stale(parked, places[x].message, now) && places[x].message !in left then Ended(REFUSED)
      else places[x]
  }

  lemma ExpireStart(w: Chan, now: int)
    ensures ExpireSome(w.parked, now, w.parked.Keys) == w.parked
        && EndOld(w.parked, w.places, now, w.parked.Keys) == w.places
  {
  }

  lemma ExpireEnd(w: Chan, now: int)
    ensures ExpireSome(w.parked, now, {}) == ExpireParked(w, now).parked
        && EndOld(w.parked, w.places, now, {}) == ExpireParked(w, now).places
  {
  }

  lemma ExpireStep(w: Chan, now: int, left: set<MessageID>, m: MessageID)
    requires ParkedTied(w.parked, w.places, m) && m in left && left <= w.parked.Keys
    ensures var some := ExpireSome(w.parked, now, left);
            && m in some && some[m] == w.parked[m]
            && ExpireSome(w.parked, now, left - {m}) == (if Stale(w.parked, m, now) then some - {m} else some)
    ensures EndedOf(EndOld(w.parked, w.places, now, left - {m}))
         == EndedOf(EndOld(w.parked, w.places, now, left)) + (if Stale(w.parked, m,
             now) then All(Streams(w.parked[m].streams), REFUSED) else map[])
  {
    var gone := if Stale(w.parked, m, now) then Streams(w.parked[m].streams) else {};
    ParkedStreams(w.parked, w.places, m);
    EndMany(EndOld(w.parked, w.places, now, left), EndOld(w.parked, w.places, now, left - {m}), gone, REFUSED);
  }

  lemma JoinedMore(members: map<PeerID, Conn>, left: set<PeerID>, p: PeerID)
    requires p in left && left <= members.Keys
    ensures p !in Joined(members, left)
        && Joined(members, left - {p}) == Joined(members, left)[p := SessionPeer(members[p], false)]
    ensures left - {p} != members.Keys
  {
    assert p in members.Keys && p !in left - {p};
  }

  lemma JoinedAll(members: map<PeerID, Conn>)
    ensures Joined(members, {}) + map[] == Joined(members, {}) && Joined(members, members.Keys) == map[]
  {
  }

  lemma AllSum(e: map<Stream, Code>, a: set<Stream>, b: set<Stream>, c: set<Stream>, code: Code)
    ensures e + All(a, code) + All(b, code) + All(c, code) == e + All(a + b + c, code)
  {
  }

  lemma FilterStart(chunks: seq<Chunk>, p: PeerID)
    ensures [] + KeepOthers(chunks[0..], p) == KeepOthers(chunks, p) && Dropped(chunks[..0], p) == {}
  {
    assert chunks[0..] == chunks;
  }

  lemma FilterEnd(chunks: seq<Chunk>, p: PeerID, kept: seq<Chunk>)
    ensures kept + KeepOthers(chunks[|chunks|..], p) == kept && chunks[..|chunks|] == chunks
  {
  }

  lemma FilterStep(chunks: seq<Chunk>, i: nat, p: PeerID, kept: seq<Chunk>)
    requires i < |chunks|
    ensures kept + KeepOthers(chunks[i..], p)
        == (if chunks[i].peer == p then kept else kept + [chunks[i]]) + KeepOthers(chunks[i + 1..], p)
  {
    assert chunks[i..][1..] == chunks[i + 1..];
  }

  ghost function Dropped(chunks: seq<Chunk>, p: PeerID): set<Stream> {
    set c | c in chunks && c.peer == p :: c.stream
  }

  lemma DroppedMore(chunks: seq<Chunk>, i: nat, p: PeerID)
    requires i < |chunks|
    ensures Dropped(chunks[..i + 1], p)
        == Dropped(chunks[..i], p) + (if chunks[i].peer == p then {chunks[i].stream} else {})
  {
    assert chunks[..i + 1] == chunks[..i] + [chunks[i]];
  }

  lemma OneVisited(all: set<Stream>, left: set<Stream>, x: Stream)
    requires left <= all && x in left
    ensures all - (left - {x}) == all - left + {x}
  {
  }

  lemma AllMore(e: map<Stream, Code>, streams: set<Stream>, x: Stream, code: Code)
    ensures (e + All(streams, code))[x := code] == e + All(streams + {x}, code)
  {
  }

  lemma DroppedStreams(chunks: seq<Chunk>, p: PeerID)
    requires DistinctStreams(chunks)
    ensures Dropped(chunks, p) == Streams(chunks) - Streams(KeepOthers(chunks, p))
  {
    KeepOthersElements(chunks, p);
    forall x | x in Dropped(chunks, p)
      ensures x in Streams(chunks) && x !in Streams(KeepOthers(chunks, p))
    {
      var c :| c in chunks && c.peer == p && c.stream == x;
      forall d | d in chunks && d.stream == x
        ensures d == c
      {
        var i :| 0 <= i < |chunks| && chunks[i] == c;
        var j :| 0 <= j < |chunks| && chunks[j] == d;
        assert i == j;
      }
    }
  }

  lemma DropEnds(queue: seq<Chunk>, places: map<Stream, Place>, m: MessageID, p: PeerID)
    requires QueueTied(queue, places, m, {})
    ensures EndedOf(EndQueued(places, m, p))
        == EndedOf(places) + All(Streams(queue) - Streams(KeepOthers(queue, p)), UNSPECIFIED)
  {
    var gone := set x | x in places && places[x].Queued? && places[x].message == m && places[x].chunk.peer == p;
    EndQueuedSettles(places, m, p, gone);
    EndMany(places, EndQueued(places, m, p), gone, UNSPECIFIED);
    DroppedStreams(queue, p);
    QueuedOf(queue, places, m, p);
  }

  lemma EndQueuedSettles(places: map<Stream, Place>, m: MessageID, p: PeerID, gone: set<Stream>)
    requires gone == set x | x in places && places[x].Queued? && places[x].message == m && places[x].chunk.peer == p
    ensures Settles(places, EndQueued(places, m, p), gone)
        && forall x :: x in gone ==> EndQueued(places, m, p)[x] == Ended(UNSPECIFIED)
  {
  }

  lemma QueuedOf(queue: seq<Chunk>, places: map<Stream, Place>, m: MessageID, p: PeerID)
    requires QueueTied(queue, places, m, {})
    ensures (set x | x in places && places[x].Queued? && places[x].message == m && places[x].chunk.peer == p)
         == Dropped(queue, p)
  {
  }
}
