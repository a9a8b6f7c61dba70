/** Sessions only move forward: each starts at most one decode and delivers at most once. */
module ChannelLogs {
  import opened Basics
  import opened ChannelSpec
  import opened ChannelStreams
  import opened ChannelPlaces
  import opened ChannelRuns

  ghost predicate Below(log: seq<nat>, n: nat) {
    forall x :: x in log ==> x < n
  }

  /** The session delivered. */
  ghost predicate Delivers(log: seq<Delivery>, s: nat) {
    exists i :: 0 <= i < |log| && log[i].session == s
  }

  /** The decode's payload was delivered. */
  ghost predicate IsDelivered(log: seq<Delivery>, d: nat) {
    exists i :: 0 <= i < |log| && log[i].decode == d
  }

  /** No session delivers twice and no decode's payload is delivered twice. */
  ghost predicate DeliveredOnce(log: seq<Delivery>) {
    forall i, j :: 0 <= i < j < |log| ==> log[i].session != log[j].session && log[i].decode != log[j].decode
  }

  /** Only sessions that existed deliver, and only payloads that were decoded. */
  ghost predicate DeliveredOf(w: Chan) {
    forall i :: 0 <= i < |w.delivered| ==> w.delivered[i].session < w.nextSerial && w.delivered[i].decode in w.decoded
  }

  /** A session's stage says whether it started a decode and whether it delivered. */
  ghost predicate StageAt(s: Session, w: Chan) {
    && s.serial < w.nextSerial
    && (s.stage == Consuming || s.stage == Origin ==> s.serial !in w.decoded)
    && (s.stage == Decoding ==> s.serial in w.decoded)
    && (s.stage != Reconstructed ==> !Delivers(w.delivered, s.serial))
  }

  /** A result to be handled is of a decode that was started, is not delivered, and names its session's message. */
  ghost predicate ResultAt(w: Chan, d: nat)
    requires d in w.results
  {
    && d in w.decoded && !IsDelivered(w.delivered, d)
    && forall m :: Registered(w, m, d) ==> m == w.results[d]
  }

  ghost predicate SerialsOk(w: Chan) {
    forall m, o :: m in w.sessions && o in w.sessions && m != o ==> w.sessions[m].serial != w.sessions[o].serial
  }

  ghost predicate LogsOk(w: Chan) {
    && Distinct(w.decoded) && Below(w.decoded, w.nextSerial) && DeliveredOnce(w.delivered) && DeliveredOf(w)
    && (forall m :: m in w.sessions ==> StageAt(w.sessions[m], w)) && SerialsOk(w)
    && (forall d :: d in w.results ==> ResultAt(w, d))
  }

  /** Sessions may go, the rest stay at their stage; nothing is logged. */
  ghost predicate Carries(w: Chan, v: Chan) {
    && v.nextSerial == w.nextSerial && v.decoded == w.decoded && v.delivered == w.delivered
    && v.results.Keys <= w.results.Keys && (forall d :: d in v.results ==> v.results[d] == w.results[d])
    && forall m :: m in v.sessions ==>
        m in w.sessions && v.sessions[m].serial == w.sessions[m].serial
        && v.sessions[m].stage == w.sessions[m].stage
  }

  lemma CarriedLogs(w: Chan, v: Chan)
    requires LogsOk(w) && Carries(w, v)
    ensures LogsOk(v)
  {
    forall d | d in v.results
      ensures ResultAt(v, d)
    {
      assert ResultAt(w, d);
      assert forall m :: Registered(v, m, d) ==> Registered(w, m, d);
    }
    forall m | m in v.sessions
      ensures StageAt(v.sessions[m], v)
    {
      assert StageAt(w.sessions[m], w);
    }
  }

  lemma CarriesTrans(a: Chan, b: Chan, c: Chan)
    requires Carries(a, b) && Carries(b, c)
    ensures Carries(a, c)
  {
  }

  lemma DisposeCarries(w: Chan, m: MessageID, expired: bool)
    ensures Carries(w, Dispose(w, m, expired)) && Carries(w, DisposeIfIdle(w, m))
  {
  }

  lemma LeavesCarries(w: Chan, m: MessageID, p: PeerID)
    requires m in w.sessions
    ensures Carries(w, PeerLeaves(w, m, p))
  {
    var v := w.(sessions := w.sessions[m := DropPeer(w.sessions[m], p)], places := EndQueued(w.places, m, p));
    DisposeCarries(v, m, false);
    CarriesTrans(w, v, PeerLeaves(w, m, p));
  }

  lemma CompletedCarries(w: Chan, m: MessageID, p: PeerID)
    ensures Carries(w, PeerReconstructed(w, m, p))
  {
    if m in w.sessions {
      var v := w.(sessions := w.sessions[m := CompletePeer(w.sessions[m], p)]);
      DisposeCarries(v, m, false);
      CarriesTrans(w, v, PeerReconstructed(w, m, p));
    }
  }

  lemma BoundCarries(w: Chan, p: PeerID, c: Conn)
    ensures Carries(w, PeerBound(w, p, c))
  {
  }

  lemma UnboundCarries(w: Chan, p: PeerID, order: seq<MessageID>)
    ensures Carries(w, PeerUnbound(w, p, order))
  {
    var v := UnparkPeer(w.(members := w.members - {p}), p);
    LeaveAllCarries(v, order, p);
    CarriesTrans(w, v, LeaveAll(v, order, p));
  }

  lemma {:induction false} LeaveAllCarries(w: Chan, messages: seq<MessageID>, p: PeerID)
    ensures Carries(w, LeaveAll(w, messages, p))
    decreases |messages|
  {
    if messages != [] {
      var v := if messages[0] in w.sessions then PeerLeaves(w, messages[0], p) else w;
      if messages[0] in w.sessions {
        LeavesCarries(w, messages[0], p);
      }
      LeaveAllCarries(v, messages[1..], p);
      CarriesTrans(w, v, LeaveAll(v, messages[1..], p));
    }
  }

  lemma {:induction false} ExpireCarries(w: Chan, messages: seq<MessageID>, now: int)
    ensures Carries(w, ExpireSessions(w, messages, now))
    decreases |messages|
  {
    if messages != [] {
      var m := messages[0];
      var v := if Overdue(w.sessions, m, now) then Dispose(w, m, true) else w;
      DisposeCarries(w, m, true);
      ExpireCarries(v, messages[1..], now);
      CarriesTrans(w, v, ExpireSessions(v, messages[1..], now));
    }
  }

  lemma ReadsCarry(w: Chan, e: ChannelEvent)
    requires CanHandle(w, e) && (e.ReadDoneEvent? || e.ChunkEvent?)
    ensures Carries(w, Handle(w, e))
  {
    var m := e.message;
    if m in w.sessions {
      if e.ReadDoneEvent? {
        ReadDoneKeeps(w, m, e.own, e.judge);
      } else {
        ChunkKeeps(w, m, e.chunk, e.now, e.judge);
      }
    }
  }

  /** Events other than a new session, a last chunk or a decode's end. */
  lemma QuietCarries(w: Chan, e: ChannelEvent)
    requires CanHandle(w, e) && !e.OpenEvent? && !e.PublishEvent? && !e.TakenEvent? && !e.DecodedEvent?
    ensures Carries(w, Handle(w, e))
  {
    match e
    case ReadDoneEvent(_, _, _) => ReadsCarry(w, e);
    case ChunkEvent(_, _, _, _) => ReadsCarry(w, e);
    case UnboundEvent(p, order) => UnboundCarries(w, p, order);
    case ExpiryEvent(order, now) =>
      ExpireCarries(w, order, now);
      CarriesTrans(w, ExpireSessions(w, order, now), Handle(w, e));
    case ReaderEndsEvent(_, _, _) =>
    case BoundEvent(p, c) => BoundCarries(w, p, c);
    case ReconstructedEvent(m, p) => CompletedCarries(w, m, p);
    case SessionEndedEvent(m, p, c) =>
      if m in w.sessions {
        LeavesCarries(w, m, p);
      }
    case DroppedEvent(_) =>
  }

  /** A new session is registered and the rest stays. */
  ghost predicate Adds(w: Chan, v: Chan, m: MessageID, stage: Stage) {
    && v.nextSerial == w.nextSerial + 1
    && v.decoded == w.decoded && v.delivered == w.delivered && v.results == w.results
    && m in v.sessions && v.sessions[m].serial == w.nextSerial && v.sessions[m].stage == stage
    && forall o :: o in v.sessions && o != m ==> o in w.sessions && v.sessions[o] == w.sessions[o]
  }

  /** A new session has the next serial and nothing logged. */
  lemma NewLogs(w: Chan, v: Chan, m: MessageID, stage: Stage)
    requires LogsOk(w) && Adds(w, v, m, stage) && (stage == Consuming || stage == Origin)
    ensures LogsOk(v)
  {
    forall d | d in v.results
      ensures ResultAt(v, d)
    {
      assert ResultAt(w, d);
      assert forall o :: Registered(v, o, d) ==> Registered(w, o, d);
    }
    forall o | o in v.sessions
      ensures StageAt(v.sessions[o], v)
    {
      assert o != m ==> StageAt(w.sessions[o], w);
    }
  }

  lemma TakenLogs(w: Chan, m: MessageID, accepted: bool, complete: bool)
    requires LogsOk(w)
    ensures LogsOk(AcceptChunk(w, m, accepted, complete))
  {
    var v := AcceptChunk(w, m, accepted, complete);
    if v != w {
      var s := w.sessions[m];
      assert StageAt(s, w);
      forall o | o in v.sessions
        ensures StageAt(v.sessions[o], v)
      {
        assert StageAt(w.sessions[o], w);
      }
      forall d | d in v.results
        ensures ResultAt(v, d)
      {
        assert d != s.serial ==> ResultAt(w, d);
        assert forall o :: Registered(v, o, d) ==> Registered(w, o, d);
      }
    }
  }

  lemma DecodedLogs(w: Chan, d: nat, ok: bool)
    requires LogsOk(w) && d in w.results
    ensures LogsOk(Decode(w, d, ok))
  {
    var m, v := w.results[d], DropResult(w, d);
    CarriedLogs(w, v);
    if m in v.sessions && Rank(v.sessions[m].stage) < 2 && ok {
      assert ResultAt(w, d);
      DeliverLogs(v, m, d);
      CarriedLogs(Deliver(v, m, d), Decode(w, d, ok));
    }
  }

  lemma DeliverLogs(w: Chan, m: MessageID, d: nat)
    requires LogsOk(w) && m in w.sessions && Rank(w.sessions[m].stage) < 2
    requires d !in w.results && d in w.decoded && !IsDelivered(w.delivered, d)
    ensures LogsOk(Deliver(w, m, d))
  {
    var v := Deliver(w, m, d);
    assert StageAt(w.sessions[m], w);
    DeliveredMore(w.delivered, w.sessions[m].serial, d);
    forall o | o in v.sessions
      ensures StageAt(v.sessions[o], v)
    {
      assert StageAt(w.sessions[o], w);
    }
    forall e | e in v.results
      ensures ResultAt(v, e)
    {
      assert ResultAt(w, e);
      assert forall o :: Registered(v, o, e) ==> Registered(w, o, e);
    }
  }

  lemma DeliveredMore(log: seq<Delivery>, s: nat, d: nat)
    requires DeliveredOnce(log) && !Delivers(log, s) && !IsDelivered(log, d)
    ensures var more := log + [Delivery(s, d)];
            && DeliveredOnce(more)
            && (forall t :: Delivers(more, t) ==> t == s || Delivers(log, t))
            && (forall e :: IsDelivered(more, e) ==> e == d || IsDelivered(log, e))
  {
  }

  lemma OpenLogs(w: Chan, m: MessageID, valid: bool, now: int, judge: Chunk -> Judgement)
    requires LogsOk(w)
    ensures LogsOk(OpenSession(w, m, valid, now, judge))
  {
    if m !in w.sessions && valid {
      OpenKeeps(w, m, now, judge);
      NewLogs(w, OpenSession(w, m, valid, now, judge), m, Consuming);
    }
  }

  lemma PublishKeeps(w: Chan, m: MessageID, now: int)
    ensures Adds(Dispose(w, m, false), Publish(w, m, now), m, Origin)
  {
  }

  lemma OpenKeeps(w: Chan, m: MessageID, now: int, judge: Chunk -> Judgement)
    requires m !in w.sessions
    ensures Adds(w, OpenSession(w, m, true, now, judge), m, Consuming)
  {
    HandleAllKeeps(Work(NewSession(w, false, now), w.places), m, if m in w.parked then w.parked[m].streams
        else [], judge);
  }

  lemma PublishLogs(w: Chan, m: MessageID, now: int)
    requires LogsOk(w)
    ensures LogsOk(Publish(w, m, now))
  {
    var d := Dispose(w, m, false);
    DisposeCarries(w, m, false);
    CarriedLogs(w, d);
    PublishKeeps(w, m, now);
    NewLogs(d, Publish(w, m, now), m, Origin);
  }

  lemma HandleLogs(w: Chan, e: ChannelEvent)
    requires LogsOk(w) && CanHandle(w, e)
    ensures LogsOk(Handle(w, e))
  {
    match e
    case OpenEvent(m, valid, now, judge) => OpenLogs(w, m, valid, now, judge);
    case PublishEvent(m, now) => PublishLogs(w, m, now);
    case TakenEvent(m, accepted, complete) => TakenLogs(w, m, accepted, complete);
    case DecodedEvent(d, ok) => DecodedLogs(w, d, ok);
    case _ =>
      QuietCarries(w, e);
      CarriedLogs(w, Handle(w, e));
  }

  lemma PublishAdvances(w: Chan, o: MessageID, now: int, m: MessageID)
    requires m in w.sessions && m in Publish(w, o, now).sessions && w.sessions[m].serial < w.nextSerial
    requires Publish(w, o, now).sessions[m].serial == w.sessions[m].serial
    ensures Rank(Publish(w, o, now).sessions[m].stage) >= Rank(w.sessions[m].stage)
  {
  }

  lemma TakenAdvances(w: Chan, o: MessageID, accepted: bool, complete: bool, m: MessageID)
    requires m in w.sessions && m in AcceptChunk(w, o, accepted, complete).sessions
    ensures Rank(AcceptChunk(w, o, accepted, complete).sessions[m].stage) >= Rank(w.sessions[m].stage)
  {
  }

  lemma DecodedAdvances(w: Chan, d: nat, ok: bool, m: MessageID)
    requires d in w.results && m in w.sessions && m in Decode(w, d, ok).sessions
    ensures Rank(Decode(w, d, ok).sessions[m].stage) >= Rank(w.sessions[m].stage)
  {
  }

  /** A session that stays registered never goes back a stage. */
  lemma StagesOnlyAdvance(w: Chan, e: ChannelEvent, m: MessageID)
    requires LogsOk(w) && CanHandle(w, e) && m in w.sessions && m in Handle(w, e).sessions
    requires Handle(w, e).sessions[m].serial == w.sessions[m].serial
    ensures Rank(Handle(w, e).sessions[m].stage) >= Rank(w.sessions[m].stage)
  {
    assert StageAt(w.sessions[m], w);
    EventAdvances(w, e, m);
  }

  lemma EventAdvances(w: Chan, e: ChannelEvent, m: MessageID)
    requires CanHandle(w, e) && m in w.sessions && m in Handle(w, e).sessions
    requires w.sessions[m].serial < w.nextSerial && Handle(w, e).sessions[m].serial == w.sessions[m].serial
    ensures Rank(Handle(w, e).sessions[m].stage) >= Rank(w.sessions[m].stage)
  {
    match e
    case OpenEvent(_, _, _, _) =>
    case PublishEvent(o, now) => PublishAdvances(w, o, now, m);
    case TakenEvent(o, accepted, complete) => TakenAdvances(w, o, accepted, complete, m);
    case DecodedEvent(d, ok) => DecodedAdvances(w, d, ok, m);
    case _ => QuietCarries(w, e);
  }

  // ---------------------------------------------------------------------------
  // Runs
  // ---------------------------------------------------------------------------

  ghost predicate ChannelInv(w: Chan) {
    StreamsOk(w) && Live(w) && LogsOk(w)
  }

  ghost predicate IsChannelRun(chans: seq<Chan>, events: seq<ChannelEvent>) {
    && |chans| == |events| + 1
    && forall i :: 0 <= i < |events| ==> CanHandle(chans[i], events[i]) && chans[i + 1] == Handle(chans[i], events[i])
  }

  lemma HandleInv(w: Chan, e: ChannelEvent)
    requires ChannelInv(w) && CanHandle(w, e)
    ensures ChannelInv(Handle(w, e))
  {
    HandleStreams(w, e);
    HandleLive(w, e);
    HandleLogs(w, e);
  }

  lemma NewChannelInv()
    ensures ChannelInv(NEW_CHAN)
  {
    assert forall m :: MessageOk(NEW_CHAN, m);
    assert forall m :: SessionLive(NEW_CHAN, m);
  }

  /**
   * After every event of every run: each stream is in one place, no read is stranded, no registered
   * session is idle, attached peers are current members, and no session decoded or delivered twice.
   */
  lemma {:induction false} RunChannel(chans: seq<Chan>, events: seq<ChannelEvent>, n: nat)
    requires IsChannelRun(chans, events) && chans[0] == NEW_CHAN && n <= |events|
    ensures ChannelInv(chans[n])
  {
    if n == 0 {
      NewChannelInv();
    } else {
      RunChannel(chans, events, n - 1);
      HandleInv(chans[n - 1], events[n - 1]);
    }
  }
}
