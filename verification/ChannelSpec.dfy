/** A channel's actor as a state machine: members, sessions and parked streams. */
module ChannelSpec {
  import opened Wire

  type PeerID = nat
  type Conn = nat
  type MessageID = nat
  type Stream = nat

  const MAX_PARKED_CHUNKS := 32
  const MAX_CONCURRENT_READS := 64
  const ACTIVE_SESSION_TTL := 300
  const UNSPECIFIED := Code(0, false)
  const REFUSED := Code(1, false)
  const REDUNDANT := Code(2, true)

  /** A chunk stream as announced: who sent it and which chunk it carries. */
  datatype Chunk = Chunk(peer: PeerID, id: nat, stream: Stream)

  datatype Stage = Consuming | Decoding | Reconstructed | Origin

  function Rank(s: Stage): nat {
    match s
    case Consuming => 0
    case Decoding => 1
    case Reconstructed => 2
    case Origin => 3
  }

  datatype SessionPeer = SessionPeer(conn: Conn, completed: bool)

  /**
   * One message's session; serial numbers it. readers hold a slot each; done counts readers that gave
   * theirs back and whose read-done event the actor has still to handle.
   */
  datatype Session = Session(
    serial: nat, stage: Stage, everHadPeers: bool, peers: map<PeerID, SessionPeer>,
    queue: seq<Chunk>, readers: map<Stream, Chunk>, done: nat, createdAt: int)

  datatype Group = Group(at: int, streams: seq<Chunk>)

  /** Where a chunk stream is. */
  datatype Place =
    | Parked(message: MessageID, chunk: Chunk)
    | Queued(message: MessageID, chunk: Chunk)
    | Reading(message: MessageID, chunk: Chunk)
    | Ended(code: Code)

  /** A session delivered the payload of a decode; a decode is named by the session that started it. */
  datatype Delivery = Delivery(session: nat, decode: nat)

  /**
   * places, decoded and delivered are history: every stream's place, the sessions that started a decode
   * and the deliveries. results holds, for each decode whose result was neither handled nor dropped, the
   * message it was started for: all that the posted result names.
   */
  datatype Chan = Chan(
    members: map<PeerID, Conn>, sessions: map<MessageID, Session>, parked: map<MessageID, Group>, nextSerial: nat,
    places: map<Stream, Place>, decoded: seq<nat>, results: map<nat, MessageID>, delivered: seq<Delivery>)

  const NEW_CHAN := Chan(map[], map[], map[], 0, map[], [], map[], [])

  /** What the strategy makes of a chunk: its ID or length is invalid, it is held already, or it is needed. */
  datatype Judgement = Malformed | Held | Needed

  // ---------------------------------------------------------------------------
  // Reading chunk streams
  // ---------------------------------------------------------------------------

  /** A session and the places of streams, changed together. */
  datatype Work = Work(session: Session, places: map<Stream, Place>)

  /** End the stream, read it if a slot is free, or queue it. */
  function HandleChunkStream(w: Work, m: MessageID, c: Chunk, judge: Chunk -> Judgement): Work {
    var s := w.session;
    if judge(c) == Malformed then w.(places := w.places[c.stream := Ended(UNSPECIFIED)])
    else if Rank(s.stage) >= 1 || judge(c) == Held then w.(places := w.places[c.stream := Ended(REDUNDANT)])
    else if |s.readers| < MAX_CONCURRENT_READS then
      Work(s.(readers := s.readers[c.stream := c]), w.places[c.stream := Reading(m, c)])
    else Work(s.(queue := s.queue + [c]), w.places[c.stream := Queued(m, c)])
  }

  /** Start queued reads while slots are free. */
  function DrainReads(w: Work, m: MessageID, judge: Chunk -> Judgement): Work
    decreases |w.session.queue|
  {
    var s := w.session;
    if s.queue == [] || |s.readers| >= MAX_CONCURRENT_READS then w
    else DrainReads(HandleChunkStream(w.(session := s.(queue := s.queue[1..])), m, s.queue[0], judge), m, judge)
  }

  function HandleAll(w: Work, m: MessageID, chunks: seq<Chunk>, judge: Chunk -> Judgement): Work
    decreases |chunks|
  {
    if chunks == [] then w else HandleAll(HandleChunkStream(w, m, chunks[0], judge), m, chunks[1..], judge)
  }

  function Put(w: Chan, m: MessageID, k: Work): Chan {
    w.(sessions := w.sessions[m := k.session], places := k.places)
  }

  function ReadDone(w: Chan, m: MessageID, own: bool, judge: Chunk -> Judgement): Chan {
    if m !in w.sessions then w
    else
      var s := w.sessions[m];
      Put(w, m, DrainReads(Work(if own && s.done > 0 then s.(done := s.done - 1) else s, w.places), m, judge))
  }

  function ChunkArrives(w: Chan, m: MessageID, c: Chunk, now: int, judge: Chunk -> Judgement): Chan {
    if m in w.sessions then
      Put(w, m, HandleChunkStream(DrainReads(Work(w.sessions[m], w.places), m, judge), m, c, judge))
    else if m in w.parked && |w.parked[m].streams| >= MAX_PARKED_CHUNKS then
      w.(places := w.places[c.stream := Ended(UNSPECIFIED)])
    else
      var g := if m in w.parked then w.parked[m] else Group(now, []);
      w.(parked := w.parked[m := g.(streams := g.streams + [c])], places := w.places[c.stream := Parked(m, c)])
  }

  /** A reader gives its slot back, its stream read or cancelled. */
  function ReaderEnds(w: Chan, m: MessageID, x: Stream, code: Code): Chan
    requires m in w.sessions
  {
    var s := w.sessions[m];
    w.(sessions := w.sessions[m := s.(readers := s.readers - {x}, done := s.done + 1)],
        places := w.places[x := Ended(code)])
  }

  // ---------------------------------------------------------------------------
  // Peers
  // ---------------------------------------------------------------------------

  function AttachPeer(s: Session, p: PeerID, c: Conn): Session {
    if p in s.peers then s else s.(peers := s.peers[p := SessionPeer(c, false)], everHadPeers := true)
  }

  /** The members not left to attach, as attached peers. */
  function Joined(members: map<PeerID, Conn>, left: set<PeerID>): map<PeerID, SessionPeer> {
    map p | p in members && p !in left :: SessionPeer(members[p], false)
  }

  /** Attach every member: the order does not matter, and completed is not reset. */
  function AttachAll(s: Session, members: map<PeerID, Conn>): Session {
    s.(peers := Joined(members, {}) + s.peers,
       everHadPeers := s.everHadPeers || members.Keys != {})
  }

  function KeepOthers(chunks: seq<Chunk>, p: PeerID): seq<Chunk> {
    if chunks == [] then [] else (if chunks[0].peer == p then [] else [chunks[0]]) + KeepOthers(chunks[1..], p)
  }

  function DropPeer(s: Session, p: PeerID): Session {
    s.(queue := KeepOthers(s.queue, p), peers := s.peers - {p})
  }

  function CompletePeer(s: Session, p: PeerID): Session {
    if p in s.peers then s.(peers := s.peers[p := s.peers[p].(completed := true)]) else s
  }

  /** Nothing is left to do: decoded and every peer completed, or not decoded and every peer gone. */
  predicate Idle(s: Session) {
    && s.everHadPeers
    && if Rank(s.stage) < 2 then s.peers.Keys == {} else forall p :: p in s.peers ==> s.peers[p].completed
  }

  /** The peer's streams queued in the session are ended. */
  function EndQueued(places: map<Stream, Place>, m: MessageID, p: PeerID): map<Stream, Place> {
    map x | x in places ::
      if places[x].Queued? && places[x].message == m && places[x].chunk.peer == p then Ended(UNSPECIFIED)
      else places[x]
  }

  function PeerBound(w: Chan, p: PeerID, c: Conn): Chan {
    if p in w.members && w.members[p] == c then w
    else w.(members := w.members[p := c], sessions := map m | m in w.sessions :: AttachPeer(w.sessions[m], p, c))
  }

  /** Leave the session; dispose of it if that leaves it idle. */
  function PeerLeaves(w: Chan, m: MessageID, p: PeerID): Chan
    requires m in w.sessions
  {
    DisposeIfIdle(w.(sessions := w.sessions[m := DropPeer(w.sessions[m], p)], places := EndQueued(w.places, m, p)), m)
  }

  function LeaveAll(w: Chan, messages: seq<MessageID>, p: PeerID): Chan
    decreases |messages|
  {
    if messages == [] then w
    else LeaveAll(if messages[0] in w.sessions then PeerLeaves(w, messages[0], p) else w, messages[1..], p)
  }

  function UnparkPeer(w: Chan, p: PeerID): Chan {
    w.(parked := map m | m in w.parked && KeepOthers(w.parked[m].streams, p) != [] ::
           w.parked[m].(streams := KeepOthers(w.parked[m].streams, p)),
       places := map x | x in w.places ::
           if w.places[x].Parked? && w.places[x].chunk.peer == p then Ended(UNSPECIFIED) else w.places[x])
  }

  /** order lists the sessions in the order they are visited. */
  function PeerUnbound(w: Chan, p: PeerID, order: seq<MessageID>): Chan {
    LeaveAll(UnparkPeer(w.(members := w.members - {p}), p), order, p)
  }

  // ---------------------------------------------------------------------------
  // Sessions begin and end
  // ---------------------------------------------------------------------------

  predicate Of(place: Place, m: MessageID) {
    !place.Ended? && place.message == m
  }

  /** End every stream of the message, parked, queued or being read. */
  function EndAll(places: map<Stream, Place>, m: MessageID, code: Code): map<Stream, Place> {
    map x | x in places :: if Of(places[x], m) then Ended(code) else places[x]
  }

  function Dispose(w: Chan, m: MessageID, expired: bool): Chan {
    if m !in w.sessions then w
    else
      var code := if Rank(w.sessions[m].stage) >= 1 then REDUNDANT else if expired then REFUSED else UNSPECIFIED;
      w.(sessions := w.sessions - {m}, parked := w.parked - {m}, places := EndAll(w.places, m, code))
  }

  function DisposeIfIdle(w: Chan, m: MessageID): Chan {
    if m in w.sessions && Idle(w.sessions[m]) then Dispose(w, m, false) else w
  }

  function NewSession(w: Chan, origin: bool, now: int): Session {
    AttachAll(Session(w.nextSerial, if origin then Origin else Consuming, false, map[], [], map[], 0, now), w.members)
  }

  function Publish(w: Chan, m: MessageID, now: int): Chan {
    var d := Dispose(w, m, false);
    d.(sessions := d.sessions[m := NewSession(d, true, now)], nextSerial := d.nextSerial + 1)
  }

  /** A peer opens a session: a new one takes the message's parked streams; valid says its preamble was. */
  function OpenSession(w: Chan, m: MessageID, valid: bool, now: int, judge: Chunk -> Judgement): Chan {
    if m in w.sessions || !valid then w
    else
      var chunks := if m in w.parked then w.parked[m].streams else [];
      var k := HandleAll(Work(NewSession(w, false, now), w.places), m, chunks, judge);
      Put(w.(parked := w.parked - {m}, nextSerial := w.nextSerial + 1), m, k)
  }

  /** A verified chunk is taken; complete says it was the last one needed. */
  function AcceptChunk(w: Chan, m: MessageID, accepted: bool, complete: bool): Chan {
    if m in w.sessions && accepted && complete && w.sessions[m].stage == Consuming then
      var s := w.sessions[m];
      w.(sessions := w.sessions[m := s.(stage := Decoding)],
         decoded := w.decoded + [s.serial], results := w.results[s.serial := m])
    else w
  }

  /** The result of a decode is dropped: its session's context ended before it was posted. */
  function DropResult(w: Chan, d: nat): Chan {
    w.(results := w.results - {d})
  }

  /** The session registered for the message takes the payload, whoever decoded it. */
  function Deliver(w: Chan, m: MessageID, d: nat): Chan
    requires m in w.sessions
  {
    var s := w.sessions[m];
    w.(sessions := w.sessions[m := s.(stage := Reconstructed)], delivered := w.delivered + [Delivery(s.serial, d)])
  }

  /** The result of a decode is handled: it goes to the session its message has by then. */
  function Decode(w: Chan, d: nat, ok: bool): Chan
    requires d in w.results
  {
    var m, v := w.results[d], DropResult(w, d);
    if m in v.sessions && Rank(v.sessions[m].stage) < 2 && ok then DisposeIfIdle(Deliver(v, m, d), m) else v
  }

  function PeerReconstructed(w: Chan, m: MessageID, p: PeerID): Chan {
    if m !in w.sessions then w
    else DisposeIfIdle(w.(sessions := w.sessions[m := CompletePeer(w.sessions[m], p)]), m)
  }

  /** An event of a connection the peer has since replaced is ignored. */
  function PeerSessionEnded(w: Chan, m: MessageID, p: PeerID, c: Conn): Chan {
    if p !in w.members || w.members[p] != c || m !in w.sessions then w else PeerLeaves(w, m, p)
  }

  predicate Overdue(sessions: map<MessageID, Session>, m: MessageID, now: int) {
    m in sessions && now - sessions[m].createdAt >= ACTIVE_SESSION_TTL
  }

  function ExpireSessions(w: Chan, messages: seq<MessageID>, now: int): Chan
    decreases |messages|
  {
    if messages == [] then w
    else
      var m := messages[0];
      ExpireSessions(if Overdue(w.sessions, m, now) then Dispose(w, m, true) else w, messages[1..], now)
  }

  predicate Stale(parked: map<MessageID, Group>, m: MessageID, now: int) {
    m in parked && now - parked[m].at >= ACTIVE_SESSION_TTL
  }

  function ExpireParked(w: Chan, now: int): Chan {
    w.(parked := map m | m in w.parked && !Stale(w.parked, m, now) :: w.parked[m],
       places := map x | x in w.places ::
           if w.places[x].Parked? && Stale(w.parked, w.places[x].message, now) then Ended(REFUSED) else w.places[x])
  }

  function Expire(w: Chan, order: seq<MessageID>, now: int): Chan {
    ExpireParked(ExpireSessions(w, order, now), now)
  }
}
