/** Whose payload a session delivers: its own decode's, or that of an earlier session of its message. */
module ChannelDecodes {
  // A posted decode result names the message and not the session, so the session registered when it is
  // handled takes it.

  import opened ChannelSpec
  import opened ChannelRuns
  import opened ChannelLogs

  // ---------------------------------------------------------------------------
  // A session with no other decode outstanding
  // ---------------------------------------------------------------------------

  /** Every result still to be handled for the message is that of decode s. */
  ghost predicate OnlyOutstanding(w: Chan, m: MessageID, s: nat) {
    forall d :: d in w.results && w.results[d] == m ==> d == s
  }

  ghost predicate OwnSoFar(log: seq<Delivery>, s: nat) {
    forall i :: 0 <= i < |log| && log[i].session == s ==> log[i].decode == s
  }

  /** In every continuation, whatever session s delivers is what it decoded itself. */
  ghost predicate DeliversOwnOnly(w: Chan, s: nat) {
    forall chans: seq<Chan>, events: seq<ChannelEvent> :: IsChannelRun(chans, events) && chans[0] == w ==>
        OwnSoFar(chans[|events|].delivered, s)
  }

  /** Session s belongs to message m; while it may still deliver, no other decode of m is outstanding. */
  ghost predicate Guarded(w: Chan, m: MessageID, s: nat) {
    && s < w.nextSerial && OwnSoFar(w.delivered, s)
    && (forall o :: Registered(w, o, s) ==> o == m)
    && (Registered(w, m, s) && Rank(w.sessions[m].stage) < 2 ==> OnlyOutstanding(w, m, s))
  }

  lemma CarriedGuarded(w: Chan, v: Chan, m: MessageID, s: nat)
    requires Guarded(w, m, s) && Carries(w, v)
    ensures Guarded(v, m, s)
  {
    assert forall o :: Registered(v, o, s) ==> Registered(w, o, s);
  }

  lemma NewGuarded(w: Chan, v: Chan, o: MessageID, stage: Stage, m: MessageID, s: nat)
    requires Guarded(w, m, s) && Adds(w, v, o, stage)
    ensures Guarded(v, m, s)
  {
    assert forall x :: Registered(v, x, s) ==> Registered(w, x, s);
  }

  lemma TakenGuarded(w: Chan, o: MessageID, accepted: bool, complete: bool, m: MessageID, s: nat)
    requires Guarded(w, m, s)
    ensures Guarded(AcceptChunk(w, o, accepted, complete), m, s)
  {
    var v := AcceptChunk(w, o, accepted, complete);
    assert forall x :: Registered(v, x, s) ==> Registered(w, x, s);
  }

  lemma DeliverGuarded(w: Chan, o: MessageID, d: nat, m: MessageID, s: nat)
    requires Guarded(w, m, s) && o in w.sessions && (Registered(w, o, s) ==> d == s)
    ensures Guarded(Deliver(w, o, d), m, s)
  {
    var v := Deliver(w, o, d);
    assert forall x :: Registered(v, x, s) ==> Registered(w, x, s);
  }

  lemma DecodedGuarded(w: Chan, d: nat, ok: bool, m: MessageID, s: nat)
    requires Guarded(w, m, s) && d in w.results
    ensures Guarded(Decode(w, d, ok), m, s)
  {
    var o, v := w.results[d], DropResult(w, d);
    CarriedGuarded(w, v, m, s);
    if o in v.sessions && Rank(v.sessions[o].stage) < 2 && ok {
      DeliverGuarded(v, o, d, m, s);
      CarriedGuarded(Deliver(v, o, d), Decode(w, d, ok), m, s);
    }
  }

  lemma HandleGuarded(w: Chan, e: ChannelEvent, m: MessageID, s: nat)
    requires CanHandle(w, e) && Guarded(w, m, s)
    ensures Guarded(Handle(w, e), m, s)
  {
    match e
    case OpenEvent(o, valid, now, judge) =>
      if o !in w.sessions && valid {
        OpenKeeps(w, o, now, judge);
        NewGuarded(w, Handle(w, e), o, Consuming, m, s);
      }
    case PublishEvent(o, now) =>
      DisposeCarries(w, o, false);
      CarriedGuarded(w, Dispose(w, o, false), m, s);
      PublishKeeps(w, o, now);
      NewGuarded(Dispose(w, o, false), Handle(w, e), o, Origin, m, s);
    case TakenEvent(o, accepted, complete) => TakenGuarded(w, o, accepted, complete, m, s);
    case DecodedEvent(d, ok) => DecodedGuarded(w, d, ok, m, s);
    case _ =>
      QuietCarries(w, e);
      CarriedGuarded(w, Handle(w, e), m, s);
  }

  lemma {:induction false} RunGuarded(chans: seq<Chan>, events: seq<ChannelEvent>, m: MessageID, s: nat, n: nat)
    requires IsChannelRun(chans, events) && Guarded(chans[0], m, s) && n <= |events|
    ensures Guarded(chans[n], m, s)
  {
    if n > 0 {
      RunGuarded(chans, events, m, s, n - 1);
      HandleGuarded(chans[n - 1], events[n - 1], m, s);
    }
  }

  /** Handling another decode's result now makes session s deliver it. */
  lemma ForeignDelivery(w: Chan, m: MessageID, s: nat, d: nat)
    requires Registered(w, m, s) && Rank(w.sessions[m].stage) < 2
    requires d in w.results && w.results[d] == m && d != s
    ensures !DeliversOwnOnly(w, s)
  {
    var v := Decode(w, d, true);
    assert v.delivered == w.delivered + [Delivery(s, d)];
    assert v.delivered[|w.delivered|] == Delivery(s, d);
    var chans, events := [w, v], [DecodedEvent(d, true)];
    assert IsChannelRun(chans, events) && chans[0] == w && !OwnSoFar(chans[|events|].delivered, s);
  }

  lemma NothingDelivered(w: Chan, m: MessageID, s: nat)
    requires LogsOk(w) && Registered(w, m, s) && Rank(w.sessions[m].stage) < 2
    ensures OwnSoFar(w.delivered, s) && forall o :: Registered(w, o, s) ==> o == m
  {
    assert StageAt(w.sessions[m], w);
    assert !Delivers(w.delivered, s);
  }

  /**
   * A session that has not delivered yet can only ever deliver its own decode if and only if no other
   * decode of its message has a result outstanding.
   */
  lemma OwnDecodeIff(w: Chan, m: MessageID, s: nat)
    requires LogsOk(w) && Registered(w, m, s) && Rank(w.sessions[m].stage) < 2
    ensures DeliversOwnOnly(w, s) <==> OnlyOutstanding(w, m, s)
  {
    if OnlyOutstanding(w, m, s) {
      NothingDelivered(w, m, s);
      assert StageAt(w.sessions[m], w);
      forall chans: seq<Chan>, events: seq<ChannelEvent> | IsChannelRun(chans, events) && chans[0] == w
        ensures OwnSoFar(chans[|events|].delivered, s)
      {
        RunGuarded(chans, events, m, s, |events|);
      }
    } else {
      var d :| d in w.results && w.results[d] == m && d != s;
      ForeignDelivery(w, m, s, d);
    }
  }

  // ---------------------------------------------------------------------------
  // Where other decodes' results come from
  // ---------------------------------------------------------------------------

  /** The event at j disposed of session d of the message. */
  ghost predicate DisposedAt(chans: seq<Chan>, m: MessageID, d: nat, j: nat) {
    j + 1 < |chans| && Registered(chans[j], m, d) && !Registered(chans[j + 1], m, d)
  }

  /** Session d of the message was disposed of before the n-th state. */
  ghost predicate WasDisposed(chans: seq<Chan>, m: MessageID, d: nat, n: nat) {
    exists j :: 0 <= j < n && DisposedAt(chans, m, d, j)
  }

  /** Handling a result takes no session's serial away and adds no result. */
  lemma DecodeKeeps(w: Chan, d: nat, ok: bool)
    requires d in w.results
    ensures var v := Decode(w, d, ok);
            && v.nextSerial == w.nextSerial && v.results == w.results - {d}
            && forall m :: m in v.sessions ==> m in w.sessions && v.sessions[m].serial == w.sessions[m].serial
  {
  }

  /** A result appears only when its own, registered session starts the decode, and never changes its message. */
  lemma ResultsAppear(w: Chan, e: ChannelEvent, d: nat)
    requires LogsOk(w) && CanHandle(w, e) && d in Handle(w, e).results
    ensures var v := Handle(w, e);
            if d in w.results then v.results[d] == w.results[d]
            else Registered(w, v.results[d], d) && Registered(v, v.results[d], d)
  {
    match e
    case OpenEvent(o, valid, now, judge) =>
      if o !in w.sessions && valid {
        OpenKeeps(w, o, now, judge);
      }
    case PublishEvent(o, now) =>
      DisposeCarries(w, o, false);
      PublishKeeps(w, o, now);
    case TakenEvent(o, accepted, complete) =>
    case DecodedEvent(x, ok) => DecodeKeeps(w, x, ok);
    case _ => QuietCarries(w, e);
  }

  /** An outstanding result is of a registered session, or of one disposed of earlier. */
  lemma {:induction false} OutstandingMeans(chans: seq<Chan>, events: seq<ChannelEvent>, n: nat, d: nat)
    requires IsChannelRun(chans, events) && chans[0] == NEW_CHAN && n <= |events| && d in chans[n].results
    ensures Registered(chans[n], chans[n].results[d], d) || WasDisposed(chans, chans[n].results[d], d, n)
  {
    if n > 0 {
      var m := chans[n].results[d];
      RunChannel(chans, events, n - 1);
      ResultsAppear(chans[n - 1], events[n - 1], d);
      if d in chans[n - 1].results {
        OutstandingMeans(chans, events, n - 1, d);
        if Registered(chans[n - 1], m, d) && !Registered(chans[n], m, d) {
          assert DisposedAt(chans, m, d, n - 1);
        } else if WasDisposed(chans, m, d, n - 1) {
          var j :| 0 <= j < n - 1 && DisposedAt(chans, m, d, j);
        }
      }
    }
  }

  /** No session has the serial any more. */
  ghost predicate Gone(w: Chan, d: nat) {
    d < w.nextSerial && forall m :: !Registered(w, m, d)
  }

  lemma CarriedGone(w: Chan, v: Chan, d: nat)
    requires Gone(w, d) && v.nextSerial >= w.nextSerial
    requires forall m :: m in v.sessions ==>
        (m in w.sessions && v.sessions[m].serial == w.sessions[m].serial) || v.sessions[m].serial >= w.nextSerial
    ensures Gone(v, d)
  {
    forall m
      ensures !Registered(v, m, d)
    {
      assert !Registered(w, m, d);
    }
  }

  lemma HandleGone(w: Chan, e: ChannelEvent, d: nat)
    requires CanHandle(w, e) && Gone(w, d)
    ensures Gone(Handle(w, e), d)
  {
    SerialsCarried(w, e);
    CarriedGone(w, Handle(w, e), d);
  }

  lemma GoneForGood(w: Chan, e: ChannelEvent, m: MessageID, d: nat)
    requires LogsOk(w) && CanHandle(w, e) && Gone(w, d) && (d in w.results ==> w.results[d] == m)
    ensures Gone(Handle(w, e), d) && (d in Handle(w, e).results ==> Handle(w, e).results[d] == m)
  {
    HandleGone(w, e, d);
    if d in Handle(w, e).results {
      ResultsAppear(w, e, d);
    }
  }

  /** Once its session was disposed of, a decode's result keeps naming that session's message until it is gone. */
  lemma {:induction false} DisposedForGood(chans: seq<Chan>, events: seq<ChannelEvent>, m: MessageID, d: nat, j: nat,
      n: nat)
    requires IsChannelRun(chans, events) && chans[0] == NEW_CHAN && j < n <= |events| && DisposedAt(chans, m, d, j)
    ensures Gone(chans[n], d) && (d in chans[n].results ==> chans[n].results[d] == m)
  {
    RunChannel(chans, events, n - 1);
    if n == j + 1 {
      DisposedIsGone(chans[j], events[j], m, d);
    } else {
      DisposedForGood(chans, events, m, d, j, n - 1);
      GoneForGood(chans[n - 1], events[n - 1], m, d);
    }
  }

  /** The event that disposed of a session left no other with its serial. */
  lemma DisposedIsGone(w: Chan, e: ChannelEvent, m: MessageID, d: nat)
    requires LogsOk(w) && CanHandle(w, e) && Registered(w, m, d) && !Registered(Handle(w, e), m, d)
    ensures Gone(Handle(w, e), d)
    ensures d in Handle(w, e).results ==> Handle(w, e).results[d] == m
  {
    var v := Handle(w, e);
    assert StageAt(w.sessions[m], w);
    SerialsCarried(w, e);
    assert forall o :: Registered(v, o, d) ==> Registered(w, o, d);
    if d in v.results {
      ResultsAppear(w, e, d);
      assert d in w.results ==> ResultAt(w, d);
    }
  }

  /** A session registered at two points of a run was registered all the way. */
  lemma {:induction false} StaysRegistered(chans: seq<Chan>, events: seq<ChannelEvent>, m: MessageID, s: nat, i: nat,
      n: nat)
    requires IsChannelRun(chans, events) && chans[0] == NEW_CHAN && i < n <= |events|
    requires Registered(chans[i], m, s) && Registered(chans[n], m, s)
    ensures Registered(chans[n - 1], m, s)
    decreases n - i
  {
    if i < n - 1 {
      if Registered(chans[i + 1], m, s) {
        StaysRegistered(chans, events, m, s, i + 1, n);
      } else {
        assert DisposedAt(chans, m, s, i);
        DisposedForGood(chans, events, m, s, i, n);
      }
    }
  }

  /** Over every run: while a session is registered it never goes back a stage. */
  lemma {:induction false} RunStagesAdvance(chans: seq<Chan>, events: seq<ChannelEvent>, m: MessageID, s: nat, i: nat,
      n: nat)
    requires IsChannelRun(chans, events) && chans[0] == NEW_CHAN && i <= n <= |events|
    requires Registered(chans[i], m, s) && Registered(chans[n], m, s)
    ensures Rank(chans[i].sessions[m].stage) <= Rank(chans[n].sessions[m].stage)
    decreases n
  {
    if i < n {
      StaysRegistered(chans, events, m, s, i, n);
      RunStagesAdvance(chans, events, m, s, i, n - 1);
      RunChannel(chans, events, n - 1);
      StagesOnlyAdvance(chans[n - 1], events[n - 1], m);
    }
  }

  /** A session after an event is the one there before, or has a new serial. */
  lemma SerialsCarried(w: Chan, e: ChannelEvent)
    requires CanHandle(w, e)
    ensures var v := Handle(w, e);
            && v.nextSerial >= w.nextSerial
            && forall m :: m in v.sessions ==>
                (m in w.sessions && v.sessions[m].serial == w.sessions[m].serial)
                    || v.sessions[m].serial >= w.nextSerial
  {
    match e
    case OpenEvent(o, valid, now, judge) =>
      if o !in w.sessions && valid {
        OpenKeeps(w, o, now, judge);
      }
    case PublishEvent(o, now) =>
      DisposeCarries(w, o, false);
      PublishKeeps(w, o, now);
    case TakenEvent(o, accepted, complete) =>
    case DecodedEvent(x, ok) => DecodeKeeps(w, x, ok);
    case _ => QuietCarries(w, e);
  }

  /**
   * Over every run: a registered session that has not delivered yet can only ever deliver its own decode
   * if and only if no earlier session of its message was disposed of with its decode's result still
   * unhandled now.
   */
  lemma RunDeliversOwnIff(chans: seq<Chan>, events: seq<ChannelEvent>, n: nat, m: MessageID, s: nat)
    requires IsChannelRun(chans, events) && chans[0] == NEW_CHAN && n <= |events|
    requires Registered(chans[n], m, s) && Rank(chans[n].sessions[m].stage) < 2
    ensures DeliversOwnOnly(chans[n], s) <==> forall d :: WasDisposed(chans, m, d, n) ==> d !in chans[n].results
  {
    var w := chans[n];
    RunChannel(chans, events, n);
    OwnDecodeIff(w, m, s);
    forall d | d in w.results
      ensures WasDisposed(chans, m, d, n) <==> w.results[d] == m && d != s
    {
      OutstandingMeans(chans, events, n, d);
      assert ResultAt(w, d);
      if WasDisposed(chans, m, d, n) {
        var j :| 0 <= j < n && DisposedAt(chans, m, d, j);
        DisposedForGood(chans, events, m, d, j, n);
      }
    }
  }

  // ---------------------------------------------------------------------------
  // The failing case
  // ---------------------------------------------------------------------------

  /** Peer 1 is a member; message 7 has the given sessions. */
  function Sketch(sessions: map<MessageID, Session>, next: nat, decoded: seq<nat>, results: map<nat, MessageID>,
      delivered: seq<Delivery>): Chan {
    Chan(map[1 := 1], sessions, map[], next, map[], decoded, results, delivered)
  }

  function Seventh(serial: nat, stage: Stage, now: int): map<MessageID, Session> {
    map[7 := Session(serial, stage, true, map[1 := SessionPeer(1, false)], [], map[], 0, now)]
  }

  lemma SketchBound()
    ensures PeerBound(NEW_CHAN, 1, 1) == Sketch(map[], 0, [], map[], [])
  {
    assert PeerBound(NEW_CHAN, 1, 1).sessions == map[];
  }

  lemma SketchOpen(serial: nat, now: int, decoded: seq<nat>, results: map<nat, MessageID>, judge: Chunk -> Judgement)
    ensures OpenSession(Sketch(map[], serial, decoded, results, []), 7, true, now, judge)
        == Sketch(Seventh(serial, Consuming, now), serial + 1, decoded, results, [])
  {
    var w := Sketch(map[], serial, decoded, results, []);
    var peers := map p | p in w.members :: SessionPeer(w.members[p], false);
    assert peers + map[] == map[1 := SessionPeer(1, false)];
    assert 1 in w.members && w.members.Keys != {};
    assert NewSession(w, false, now) == Seventh(serial, Consuming, now)[7];
    assert w.parked - {7} == map[];
  }

  lemma SketchTaken(serial: nat, now: int, next: nat, decoded: seq<nat>, results: map<nat, MessageID>)
    ensures AcceptChunk(Sketch(Seventh(serial, Consuming, now), next, decoded, results, []), 7, true, true)
        == Sketch(Seventh(serial, Decoding, now), next, decoded + [serial], results[serial := 7], [])
  {
  }

  lemma SketchEnded(now: int)
    ensures PeerSessionEnded(Sketch(Seventh(0, Decoding, now), 1, [0], map[0 := 7], []), 7, 1, 1)
        == Sketch(map[], 1, [0], map[0 := 7], [])
  {
    var w := Sketch(Seventh(0, Decoding, now), 1, [0], map[0 := 7], []);
    var s := DropPeer(w.sessions[7], 1);
    assert s.peers.Keys == {} && Idle(s);
    assert Seventh(0, Decoding, now)[7 := s] - {7} == map[] && w.parked - {7} == map[];
    assert EndQueued(w.places, 7, 1) == map[] && EndAll(map[], 7, REDUNDANT) == map[];
  }

  lemma SketchDecoded(stage: Stage, now: int, decoded: seq<nat>, results: map<nat, MessageID>)
    requires Rank(stage) < 2 && 0 in results && results[0] == 7
    ensures Decode(Sketch(Seventh(1, stage, now), 2, decoded, results, []), 0, true)
        == Sketch(Seventh(1, Reconstructed, now), 2, decoded, results - {0}, [Delivery(1, 0)])
  {
    assert 1 in Seventh(1, Reconstructed, now)[7].peers && !Seventh(1, Reconstructed, now)[7].peers[1].completed;
  }

  /** Session 0 starts its decode and is disposed of; session 1 takes the message's place. */
  lemma UpToSuccessor(judge: Chunk -> Judgement) returns (chans: seq<Chan>, events: seq<ChannelEvent>)
    ensures IsChannelRun(chans, events) && chans[0] == NEW_CHAN
    ensures chans[|events|] == Sketch(Seventh(1, Consuming, 1), 2, [0], map[0 := 7], [])
  {
    SketchBound();
    SketchOpen(0, 0, [], map[], judge);
    SketchTaken(0, 0, 1, [], map[]);
    SketchEnded(0);
    SketchOpen(1, 1, [0], map[0 := 7], judge);
    var consuming := Sketch(Seventh(0, Consuming, 0), 1, [], map[], []);
    var decoding := Sketch(Seventh(0, Decoding, 0), 1, [0], map[0 := 7], []);
    chans, events := [NEW_CHAN], [];
    chans, events := Extend(chans, events, BoundEvent(1, 1), Sketch(map[], 0, [], map[], []));
    chans, events := Extend(chans, events, OpenEvent(7, true, 0, judge), consuming);
    chans, events := Extend(chans, events, TakenEvent(7, true, true), decoding);
    chans, events := Extend(chans, events, SessionEndedEvent(7, 1, 1), Sketch(map[], 1, [0], map[0 := 7], []));
    chans, events := Extend(chans, events, OpenEvent(7, true, 1, judge),
        Sketch(Seventh(1, Consuming, 1), 2, [0], map[0 := 7], []));
  }

  /**
   * A result handled after its session was replaced is delivered by the successor: one still consuming,
   * or one that started a decode of its own.
   */
  lemma LateDecodeReachesSuccessor(judge: Chunk -> Judgement, decoding: bool) returns (chans: seq<Chan>,
      events: seq<ChannelEvent>)
    ensures IsChannelRun(chans, events) && chans[0] == NEW_CHAN
    ensures var w := chans[|events|];
            w.decoded == (if decoding then [0, 1] else [0]) && w.delivered == [Delivery(1, 0)]
  {
    SketchTaken(1, 1, 2, [0], map[0 := 7]);
    chans, events := UpToSuccessor(judge);
    var next := chans[|events|];
    if decoding {
      next := Sketch(Seventh(1, Decoding, 1), 2, [0] + [1], map[0 := 7][1 := 7], []);
      chans, events := Extend(chans, events, TakenEvent(7, true, true), next);
    }
    SketchDecoded(next.sessions[7].stage, 1, next.decoded, next.results);
    chans, events := Extend(chans, events, DecodedEvent(0, true),
        Sketch(Seventh(1, Reconstructed, 1), 2, next.decoded, next.results - {0}, [Delivery(1, 0)]));
  }

  lemma Extend(chans: seq<Chan>, events: seq<ChannelEvent>, e: ChannelEvent, next: Chan) returns (longer: seq<Chan>,
      more: seq<ChannelEvent>)
    requires IsChannelRun(chans, events) && CanHandle(chans[|events|], e) && next == Handle(chans[|events|], e)
    ensures IsChannelRun(longer, more) && longer[0] == chans[0] && |more| == |events| + 1 && longer[|more|] == next
  {
    longer, more := chans + [next], events + [e];
  }
}
