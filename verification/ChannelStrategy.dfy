/** A channel with the strategy of each of its sessions: whom it serves and what a decode reads. */
module ChannelStrategy {
  import opened Basics
  import opened ChannelSpec
  import opened ChannelStreams
  import opened ChannelRuns
  import opened ChannelLogs
  import opened StrategySpec
  import opened StrategyRuns

  /** The books of every session there ever was, by serial. */
  datatype Node = Node(chan: Chan, books: map<nat, Book>)

  datatype NodeAct =
    | Event(event: ChannelEvent)
    | Opened(message: MessageID, valid: bool, now: int, judge: Chunk -> Judgement, book: Book,
        order: seq<ChannelSpec.PeerID>)
    | Published(message: MessageID, now: int, book: Book, order: seq<ChannelSpec.PeerID>)
    | Called(message: MessageID, call: Call, after: Book)
    | Given(message: MessageID, peer: ChannelSpec.PeerID, chunk: int, data: Data, priority: nat)

  ghost predicate NewRelayBook(b: Book) {
    Balanced(b) && !b.isOrigin && b.have == {} && b.peers == map[]
  }

  ghost predicate NewOriginBook(b: Book) {
    Balanced(b) && b.isOrigin && b.peers == map[]
  }

  ghost predicate HasBook(n: Node, m: MessageID) {
    m in n.chan.sessions && n.chan.sessions[m].serial in n.books
  }

  ghost predicate BooksOk(books: map<nat, Book>, next: nat) {
    forall k :: k in books ==> k < next && Balanced(books[k])
  }

  ghost predicate Sound(n: Node) {
    BooksOk(n.books, n.chan.nextSerial)
  }

  /** A chunk accepted by TakeChunk: in range, new, and before completion. */
  predicate Acceptable(b: Book, i: int) {
    0 <= i < b.total == |b.chunks| && !b.complete && b.chunks[i].None?
  }

  /** The channel's own calls: routing updates, polls and outcomes of sends. */
  predicate Routine(b: Book, c: Call) {
    match c
    case Allocates(_, _) => true
    case Reports(_, _, _) => true
    case Marks(p, _, completed) => p in b.peers && completed == b.peers[p].completed
    case _ => false
  }

  /**
   * A new session has a new strategy, to which the members are attached in some order. The channel makes
   * its own calls to the strategy of a registered session, and gives it chunks. Whatever else happens to
   * the channel changes strategies only by attaching, detaching and completing peers.
   */
  ghost predicate CanStep(n: Node, a: NodeAct)
    requires Sound(n)
  {
    match a
    case Event(e) => CanHandle(n.chan, e) && !e.OpenEvent? && !e.PublishEvent? && !e.TakenEvent?
    case Opened(_, _, _, _, book, order) => NewRelayBook(book) && Lists(order, n.chan.members)
    case Published(_, _, book, order) => NewOriginBook(book) && Lists(order, n.chan.members)
    case Called(m, c, after) =>
      && HasBook(n, m)
      && var b := n.books[n.chan.sessions[m].serial];
      Routine(b, c) && Does(b, c, after)
    case Given(m, _, _, _, _) => HasBook(n, m)
  }

  /** order lists the members, each once. */
  ghost predicate Lists(order: seq<ChannelSpec.PeerID>, members: map<ChannelSpec.PeerID, Conn>) {
    Distinct(order) && forall p :: p in order <==> p in members
  }

  ghost function AttachEach(b: Book, order: seq<ChannelSpec.PeerID>): Book
    requires Shaped(b)
    decreases |order|
  {
    if order == [] then b else AttachEach(Attached(b, order[0]), order[1..])
  }

  /** What happens to a session's peers, and what its strategy is told of it. */
  datatype PeerAct = Nothing | Joins(peer: ChannelSpec.PeerID, conn: Conn) | Quits(peer: ChannelSpec.PeerID)
    | Finishes(peer: ChannelSpec.PeerID)

  function ActedPeers(peers: map<ChannelSpec.PeerID, SessionPeer>, act: PeerAct)
      : map<ChannelSpec.PeerID, SessionPeer> {
    match act
    case Nothing => peers
    case Joins(p, c) => peers[p := SessionPeer(c, false)]
    case Quits(p) => peers - {p}
    case Finishes(p) => if p in peers then peers[p := peers[p].(completed := true)] else peers
  }

  /** A peer that has completed stays attached, marked. */
  ghost function Acted(b: Book, act: PeerAct): Book
    requires Shaped(b)
  {
    match act
    case Nothing => b
    case Joins(p, _) => Attached(b, p)
    case Quits(p) => Detached(b, p)
    case Finishes(p) => if p in b.peers then Marked(b, p, b.peers[p].bitmap, true) else b
  }

  /** The serials of the sessions that p is not attached to. */
  ghost function Lacking(sessions: map<MessageID, Session>, p: ChannelSpec.PeerID): set<nat> {
    set m | m in sessions && p !in sessions[m].peers :: sessions[m].serial
  }

  ghost function AllSerials(sessions: map<MessageID, Session>): set<nat> {
    set m | m in sessions :: sessions[m].serial
  }

  /** What an event does to the peers of the session with the serial. */
  ghost function ActOf(w: Chan, e: ChannelEvent, k: nat): PeerAct {
    match e
    case BoundEvent(p, c) =>
      if (p in w.members && w.members[p] == c) || k !in Lacking(w.sessions, p) then Nothing else Joins(p, c)
    case UnboundEvent(p, _) => if k in AllSerials(w.sessions) then Quits(p) else Nothing
    case SessionEndedEvent(m, p, c) =>
      if p in w.members && w.members[p] == c && Registered(w, m, k) then Quits(p) else Nothing
    case ReconstructedEvent(m, p) =>
      if Registered(w, m, k) && p in w.sessions[m].peers && !w.sessions[m].peers[p].completed then Finishes(p)
      else Nothing
    case _ => Nothing
  }

  ghost function Followed(w: Chan, books: map<nat, Book>, e: ChannelEvent): map<nat, Book>
    requires BooksOk(books, w.nextSerial)
  {
    map k | k in books :: Acted(books[k], ActOf(w, e, k))
  }

  /** What TakeChunk makes of a chunk decides whether the session starts its decode. */
  ghost function Give(n: Node, m: MessageID, p: ChannelSpec.PeerID, i: int, data: Data, priority: nat): Node
    requires Sound(n) && HasBook(n, m)
  {
    var s := n.chan.sessions[m].serial;
    var b := n.books[s];
    if Acceptable(b, i) then
      var after := Taken(b, p, i, data, priority);
      Node(AcceptChunk(n.chan, m, true, after.complete), n.books[s := after])
    else Node(AcceptChunk(n.chan, m, false, false), n.books)
  }

  ghost function NodeStep(n: Node, a: NodeAct): Node
    requires Sound(n) && CanStep(n, a)
  {
    match a
    case Event(e) => Node(Handle(n.chan, e), Followed(n.chan, n.books, e))
    case Opened(m, valid, now, judge, book, order) =>
      var v := OpenSession(n.chan, m, valid, now, judge);
      Node(v, if m in n.chan.sessions || !valid then n.books
              else n.books[n.chan.nextSerial := AttachEach(book, order)])
    case Published(m, now, book, order) =>
      Node(Publish(n.chan, m, now), n.books[n.chan.nextSerial := AttachEach(book, order)])
    case Called(m, _, after) => n.(books := n.books[n.chan.sessions[m].serial := after])
    case Given(m, p, i, data, priority) => Give(n, m, p, i, data, priority)
  }

  // ---------------------------------------------------------------------------
  // Stages and books agree
  // ---------------------------------------------------------------------------

  /** A consuming session's books are incomplete, a decoding session's complete. */
  predicate StageBook(stage: Stage, b: Book) {
    match stage
    case Consuming => !b.isOrigin && !b.complete
    case Decoding => !b.isOrigin && b.complete
    case Reconstructed => !b.isOrigin
    case Origin => b.isOrigin
  }

  /** The strategy serves exactly the session's peers, and knows which have completed. */
  ghost predicate PeersAgree(peers: map<ChannelSpec.PeerID, SessionPeer>, b: Book) {
    b.peers.Keys == peers.Keys && forall p :: p in peers ==> b.peers[p].completed == peers[p].completed
  }

  ghost predicate FitAt(s: Session, books: map<nat, Book>) {
    s.serial in books && StageBook(s.stage, books[s.serial]) && PeersAgree(s.peers, books[s.serial])
  }

  ghost predicate AllFit(sessions: map<MessageID, Session>, books: map<nat, Book>) {
    forall m :: m in sessions ==> FitAt(sessions[m], books)
  }

  ghost predicate DecodesOk(decoded: seq<nat>, books: map<nat, Book>) {
    forall d :: d in decoded ==> d in books && books[d].complete
  }

  ghost predicate NodeInv(n: Node) {
    && LogsOk(n.chan) && BooksOk(n.books, n.chan.nextSerial) && AllFit(n.chan.sessions, n.books)
    && DecodesOk(n.chan.decoded, n.books)
  }

  lemma BooksPut(books: map<nat, Book>, next: nat, k: nat, book: Book, next': nat)
    requires BooksOk(books, next) && Balanced(book) && k < next' && next <= next'
    ensures BooksOk(books[k := book], next')
  {
  }

  // ---------------------------------------------------------------------------
  // Strategies follow the channel's peers
  // ---------------------------------------------------------------------------

  /** Only peers and their accounts change. */
  ghost predicate PeerChange(b: Book, b': Book) {
    b' == b.(peers := b'.peers, log := b'.log)
  }

  lemma ActedBalanced(b: Book, act: PeerAct)
    requires Balanced(b)
    ensures Balanced(Acted(b, act))
  {
    match act
    case Nothing =>
    case Joins(p, _) => AttachedBalanced(b, p);
    case Quits(p) => DetachedBalanced(b, p);
    case Finishes(p) =>
      if p in b.peers {
        MarkedBalanced(b, p, b.peers[p].bitmap, true);
      }
  }

  lemma ActedChange(b: Book, act: PeerAct)
    requires Shaped(b)
    ensures PeerChange(b, Acted(b, act))
  {
  }

  /** Session and strategy go on agreeing when both are told. */
  lemma ActedAgrees(peers: map<ChannelSpec.PeerID, SessionPeer>, b: Book, act: PeerAct)
    requires Shaped(b) && PeersAgree(peers, b)
    ensures PeersAgree(ActedPeers(peers, act), Acted(b, act))
  {
  }

  lemma FollowedChange(w: Chan, books: map<nat, Book>, e: ChannelEvent, k: nat)
    requires BooksOk(books, w.nextSerial) && k in books
    ensures k in Followed(w, books, e) && PeerChange(books[k], Followed(w, books, e)[k])
  {
    ActedChange(books[k], ActOf(w, e, k));
  }

  lemma FollowedBooks(w: Chan, books: map<nat, Book>, e: ChannelEvent)
    requires BooksOk(books, w.nextSerial)
    ensures BooksOk(Followed(w, books, e), w.nextSerial)
  {
    forall k | k in books
      ensures Balanced(Followed(w, books, e)[k])
    {
      ActedBalanced(books[k], ActOf(w, e, k));
    }
  }

  /** Every session left has the peers it had. */
  ghost predicate SamePeers(w: Chan, v: Chan) {
    forall m :: m in v.sessions ==> m in w.sessions && v.sessions[m].peers == w.sessions[m].peers
  }

  lemma ReadDonePeers(w: Chan, m: MessageID, own: bool, judge: Chunk -> Judgement)
    ensures SamePeers(w, ReadDone(w, m, own, judge))
  {
    if m in w.sessions {
      ReadDoneKeeps(w, m, own, judge);
    }
  }

  lemma ChunkPeers(w: Chan, m: MessageID, c: Chunk, now: int, judge: Chunk -> Judgement)
    ensures SamePeers(w, ChunkArrives(w, m, c, now, judge))
  {
    if m in w.sessions {
      ChunkKeeps(w, m, c, now, judge);
    }
  }

  lemma {:induction false} ExpirePeers(w: Chan, messages: seq<MessageID>, now: int)
    ensures SamePeers(w, ExpireSessions(w, messages, now))
    decreases |messages|
  {
    if messages != [] {
      var v := if Overdue(w.sessions, messages[0], now) then Dispose(w, messages[0], true) else w;
      ExpirePeers(v, messages[1..], now);
    }
  }

  /** The event attaches, drops and completes nobody. */
  predicate LeavesPeers(e: ChannelEvent) {
    !e.BoundEvent? && !e.UnboundEvent? && !e.SessionEndedEvent? && !e.ReconstructedEvent?
  }

  lemma QuietPeers(w: Chan, e: ChannelEvent)
    requires CanHandle(w, e) && LeavesPeers(e) && !e.OpenEvent? && !e.PublishEvent?
    ensures SamePeers(w, Handle(w, e))
  {
    match e
    case ReadDoneEvent(m, own, judge) => ReadDonePeers(w, m, own, judge);
    case ChunkEvent(m, c, now, judge) => ChunkPeers(w, m, c, now, judge);
    case ExpiryEvent(order, now) => ExpirePeers(w, order, now);
    case _ =>
  }

  /** Those in the sessions visited lose p; nobody else is touched. */
  lemma {:induction false} LeaveAllPeers(w: Chan, messages: seq<MessageID>, p: ChannelSpec.PeerID, m: MessageID)
    requires m in LeaveAll(w, messages, p).sessions
    ensures m in w.sessions
    ensures LeaveAll(w, messages, p).sessions[m].peers
        == if m in messages then w.sessions[m].peers - {p} else w.sessions[m].peers
    decreases |messages|
  {
    if messages != [] {
      var v := if messages[0] in w.sessions then PeerLeaves(w, messages[0], p) else w;
      LeaveAllPeers(v, messages[1..], p, m);
    }
  }

  /** A session's peers change as its strategy is told. */
  lemma EventPeers(w: Chan, e: ChannelEvent, m: MessageID)
    requires SerialsOk(w) && CanHandle(w, e) && !e.OpenEvent? && !e.PublishEvent? && m in Handle(w, e).sessions
    ensures m in w.sessions
    ensures Handle(w, e).sessions[m].peers == ActedPeers(w.sessions[m].peers, ActOf(w, e, w.sessions[m].serial))
  {
    match e
    case BoundEvent(p, c) => BoundPeers(w, p, c, m);
    case UnboundEvent(p, order) => UnboundPeers(w, p, order, m);
    case SessionEndedEvent(o, p, c) => EndedPeers(w, o, p, c, m);
    case ReconstructedEvent(o, p) => CompletedPeers(w, o, p, m);
    case _ => QuietPeers(w, e);
  }

  lemma UnboundPeers(w: Chan, p: ChannelSpec.PeerID, order: seq<MessageID>, m: MessageID)
    requires (forall o :: o in w.sessions ==> o in order) && m in PeerUnbound(w, p, order).sessions
    ensures m in w.sessions
    ensures PeerUnbound(w, p, order).sessions[m].peers
        == ActedPeers(w.sessions[m].peers, ActOf(w, UnboundEvent(p, order), w.sessions[m].serial))
  {
    LeaveAllPeers(UnparkPeer(w.(members := w.members - {p}), p), order, p, m);
    assert w.sessions[m].serial in AllSerials(w.sessions);
  }

  lemma EndedPeers(w: Chan, o: MessageID, p: ChannelSpec.PeerID, c: Conn, m: MessageID)
    requires SerialsOk(w) && m in PeerSessionEnded(w, o, p, c).sessions
    ensures m in w.sessions
    ensures PeerSessionEnded(w, o, p, c).sessions[m].peers
        == ActedPeers(w.sessions[m].peers, ActOf(w, SessionEndedEvent(o, p, c), w.sessions[m].serial))
  {
  }

  lemma AlreadyCompleted(s: Session, p: ChannelSpec.PeerID)
    ensures p in s.peers && s.peers[p].completed ==> CompletePeer(s, p) == s
  {
  }

  lemma CompletedPeers(w: Chan, o: MessageID, p: ChannelSpec.PeerID, m: MessageID)
    requires SerialsOk(w) && m in PeerReconstructed(w, o, p).sessions
    ensures m in w.sessions
    ensures PeerReconstructed(w, o, p).sessions[m].peers
        == ActedPeers(w.sessions[m].peers, ActOf(w, ReconstructedEvent(o, p), w.sessions[m].serial))
  {
    if o in w.sessions {
      AlreadyCompleted(w.sessions[o], p);
    }
  }

  lemma BoundPeers(w: Chan, p: ChannelSpec.PeerID, c: Conn, m: MessageID)
    requires SerialsOk(w) && m in w.sessions
    ensures PeerBound(w, p, c).sessions[m].peers
        == ActedPeers(w.sessions[m].peers, ActOf(w, BoundEvent(p, c), w.sessions[m].serial))
  {
    assert w.sessions[m].serial in Lacking(w.sessions, p) <==> p !in w.sessions[m].peers;
  }

  // ---------------------------------------------------------------------------
  // Events keep stages, peers and books in agreement
  // ---------------------------------------------------------------------------

  /** The session stays at its stage, or has delivered. */
  predicate StageAfter(s: Session, t: Session) {
    t.serial == s.serial && (t.stage == s.stage || (t.stage == Reconstructed && Rank(s.stage) < 2))
  }

  lemma DecodeStages(w: Chan, d: nat, ok: bool)
    requires d in w.results
    ensures var v := Decode(w, d, ok);
            && v.nextSerial == w.nextSerial && v.decoded == w.decoded
            && forall m :: m in v.sessions ==> m in w.sessions && StageAfter(w.sessions[m], v.sessions[m])
  {
  }

  lemma EventStages(w: Chan, e: ChannelEvent)
    requires CanHandle(w, e) && !e.OpenEvent? && !e.PublishEvent? && !e.TakenEvent?
    ensures var v := Handle(w, e);
            && v.nextSerial == w.nextSerial && v.decoded == w.decoded
            && forall m :: m in v.sessions ==> m in w.sessions && StageAfter(w.sessions[m], v.sessions[m])
  {
    if e.DecodedEvent? {
      DecodeStages(w, e.decode, e.ok);
    } else {
      QuietCarries(w, e);
    }
  }

  lemma FollowedFit(w: Chan, books: map<nat, Book>, e: ChannelEvent, s: Session, t: Session)
    requires BooksOk(books, w.nextSerial) && FitAt(s, books) && StageAfter(s, t)
    requires t.peers == ActedPeers(s.peers, ActOf(w, e, s.serial))
    ensures FitAt(t, Followed(w, books, e))
  {
    ActedAgrees(s.peers, books[s.serial], ActOf(w, e, s.serial));
    FollowedChange(w, books, e, s.serial);
  }

  lemma EventFit(w: Chan, books: map<nat, Book>, e: ChannelEvent, m: MessageID)
    requires BooksOk(books, w.nextSerial) && SerialsOk(w) && AllFit(w.sessions, books)
    requires CanHandle(w, e) && !e.OpenEvent? && !e.PublishEvent? && !e.TakenEvent? && m in Handle(w, e).sessions
    ensures FitAt(Handle(w, e).sessions[m], Followed(w, books, e))
  {
    EventPeers(w, e, m);
    EventStages(w, e);
    FollowedFit(w, books, e, w.sessions[m], Handle(w, e).sessions[m]);
  }

  lemma EventDecodesOk(w: Chan, books: map<nat, Book>, e: ChannelEvent)
    requires BooksOk(books, w.nextSerial) && DecodesOk(w.decoded, books)
    ensures DecodesOk(w.decoded, Followed(w, books, e))
  {
    forall d | d in w.decoded
      ensures d in Followed(w, books, e) && Followed(w, books, e)[d].complete
    {
      FollowedChange(w, books, e, d);
    }
  }

  lemma EventInv(n: Node, e: ChannelEvent)
    requires NodeInv(n) && CanStep(n, Event(e))
    ensures NodeInv(NodeStep(n, Event(e)))
  {
    HandleLogs(n.chan, e);
    EventStages(n.chan, e);
    FollowedBooks(n.chan, n.books, e);
    EventDecodesOk(n.chan, n.books, e);
    forall m | m in Handle(n.chan, e).sessions
      ensures FitAt(Handle(n.chan, e).sessions[m], Followed(n.chan, n.books, e))
    {
      EventFit(n.chan, n.books, e, m);
    }
  }

  lemma SerialsBelow(w: Chan)
    requires LogsOk(w)
    ensures forall m :: m in w.sessions ==> w.sessions[m].serial < w.nextSerial
    ensures forall d :: d in w.decoded ==> d < w.nextSerial
  {
    assert forall m :: m in w.sessions ==> StageAt(w.sessions[m], w);
  }

  lemma AddedFit(w: Chan, v: Chan, m: MessageID, stage: Stage, books: map<nat, Book>, book: Book)
    requires AllFit(w.sessions, books) && Adds(w, v, m, stage)
    requires StageBook(stage, book) && PeersAgree(v.sessions[m].peers, book)
    requires forall o :: o in w.sessions ==> w.sessions[o].serial < w.nextSerial
    ensures AllFit(v.sessions, books[w.nextSerial := book])
  {
    forall o | o in v.sessions && o != m
      ensures FitAt(v.sessions[o], books[w.nextSerial := book])
    {
      assert FitAt(w.sessions[o], books);
    }
  }

  lemma AddedDecodes(decoded: seq<nat>, books: map<nat, Book>, k: nat, book: Book)
    requires DecodesOk(decoded, books) && forall d :: d in decoded ==> d < k
    ensures DecodesOk(decoded, books[k := book])
  {
  }

  lemma AddedInv(n: Node, v: Chan, m: MessageID, stage: Stage, book: Book)
    requires NodeInv(n) && LogsOk(v) && Adds(n.chan, v, m, stage) && Balanced(book) && StageBook(stage, book)
    requires PeersAgree(v.sessions[m].peers, book)
    ensures NodeInv(Node(v, n.books[n.chan.nextSerial := book]))
  {
    SerialsBelow(n.chan);
    AddedFit(n.chan, v, m, stage, n.books, book);
    AddedDecodes(n.chan.decoded, n.books, n.chan.nextSerial, book);
    BooksPut(n.books, n.chan.nextSerial, n.chan.nextSerial, book, v.nextSerial);
  }

  lemma NewIsIncomplete(b: Book)
    requires NewRelayBook(b)
    ensures !b.complete
  {
  }

  lemma {:induction false} AttachEachBalanced(b: Book, order: seq<ChannelSpec.PeerID>)
    requires Balanced(b)
    ensures Balanced(AttachEach(b, order))
    decreases |order|
  {
    if order != [] {
      AttachedBalanced(b, order[0]);
      AttachEachBalanced(Attached(b, order[0]), order[1..]);
    }
  }

  /** Attaching one peer after the other: each is attached, none has completed. */
  lemma {:induction false} AttachEachPeers(b: Book, order: seq<ChannelSpec.PeerID>)
    requires Shaped(b) && forall p :: p in b.peers ==> !b.peers[p].completed
    ensures var b' := AttachEach(b, order);
            && PeerChange(b, b') && (forall p :: p in b'.peers <==> p in b.peers || p in order)
            && forall p :: p in b'.peers ==> !b'.peers[p].completed
    decreases |order|
  {
    if order != [] {
      AttachEachPeers(Attached(b, order[0]), order[1..]);
      assert forall p :: p in order <==> p == order[0] || p in order[1..];
    }
  }

  /** A session to which every member is attached. */
  ghost predicate MembersJoin(s: Session, members: map<ChannelSpec.PeerID, Conn>) {
    s.peers.Keys == members.Keys && forall p :: p in s.peers ==> !s.peers[p].completed
  }

  lemma NewPeers(w: Chan, origin: bool, now: int)
    ensures MembersJoin(NewSession(w, origin, now), w.members)
  {
  }

  lemma OpenPeers(w: Chan, m: MessageID, now: int, judge: Chunk -> Judgement)
    requires m !in w.sessions
    ensures MembersJoin(OpenSession(w, m, true, now, judge).sessions[m], w.members)
  {
    var s := NewSession(w, false, now);
    NewPeers(w, false, now);
    HandleAllKeeps(Work(s, w.places), m, if m in w.parked then w.parked[m].streams else [], judge);
  }

  lemma PublishPeers(w: Chan, m: MessageID, now: int)
    ensures MembersJoin(Publish(w, m, now).sessions[m], w.members)
  {
    NewPeers(Dispose(w, m, false), true, now);
  }

  lemma NewAgrees(s: Session, members: map<ChannelSpec.PeerID, Conn>, book: Book, order: seq<ChannelSpec.PeerID>)
    requires Shaped(book) && book.peers == map[] && Lists(order, members) && MembersJoin(s, members)
    ensures PeerChange(book, AttachEach(book, order)) && PeersAgree(s.peers, AttachEach(book, order))
  {
    AttachEachPeers(book, order);
  }

  lemma OpenedInv(n: Node, m: MessageID, valid: bool, now: int, judge: Chunk -> Judgement, book: Book,
      order: seq<ChannelSpec.PeerID>)
    requires NodeInv(n) && NewRelayBook(book) && Lists(order, n.chan.members)
    ensures NodeInv(NodeStep(n, Opened(m, valid, now, judge, book, order)))
  {
    if m !in n.chan.sessions && valid {
      var v := OpenSession(n.chan, m, valid, now, judge);
      OpenLogs(n.chan, m, valid, now, judge);
      OpenKeeps(n.chan, m, now, judge);
      OpenPeers(n.chan, m, now, judge);
      NewIsIncomplete(book);
      NewAgrees(v.sessions[m], n.chan.members, book, order);
      AttachEachBalanced(book, order);
      AddedInv(n, v, m, Consuming, AttachEach(book, order));
    }
  }

  lemma DisposedInv(n: Node, m: MessageID)
    requires NodeInv(n)
    ensures NodeInv(n.(chan := Dispose(n.chan, m, false)))
  {
    DisposeCarries(n.chan, m, false);
    CarriedLogs(n.chan, Dispose(n.chan, m, false));
    assert forall o :: o in n.chan.sessions ==> FitAt(n.chan.sessions[o], n.books);
  }

  lemma PublishedInv(n: Node, m: MessageID, now: int, book: Book, order: seq<ChannelSpec.PeerID>)
    requires NodeInv(n) && NewOriginBook(book) && Lists(order, n.chan.members)
    ensures NodeInv(NodeStep(n, Published(m, now, book, order)))
  {
    var d := n.(chan := Dispose(n.chan, m, false));
    var v := Publish(n.chan, m, now);
    DisposedInv(n, m);
    PublishLogs(n.chan, m, now);
    PublishKeeps(n.chan, m, now);
    PublishPeers(n.chan, m, now);
    NewAgrees(v.sessions[m], n.chan.members, book, order);
    AttachEachBalanced(book, order);
    AddedInv(d, v, m, Origin, AttachEach(book, order));
  }

  lemma AllocatedAgrees(peers: map<ChannelSpec.PeerID, SessionPeer>, b: Book, p: ChannelSpec.PeerID, i: nat)
    requires PeersAgree(peers, b) && p in b.peers && i < |b.peers[p].inflight| && i in b.planned
    ensures PeersAgree(peers, Allocated(b, p, i))
  {
  }

  lemma SentAgrees(peers: map<ChannelSpec.PeerID, SessionPeer>, b: Book, p: ChannelSpec.PeerID, i: nat, ok: bool)
    requires PeersAgree(peers, b) && Shaped(b) && p in b.peers && p in b.log.settled
    requires i < b.total == |b.peers[p].inflight| && i in b.planned
    ensures PeersAgree(peers, Sent(b, p, i, ok))
  {
  }

  lemma MarkedAgrees(peers: map<ChannelSpec.PeerID, SessionPeer>, b: Book, p: ChannelSpec.PeerID, bitmap: set<nat>)
    requires PeersAgree(peers, b) && p in b.peers
    ensures PeersAgree(peers, Marked(b, p, bitmap, b.peers[p].completed))
  {
  }

  /** The channel's own calls touch nobody's attachment. */
  lemma RoutineAgrees(peers: map<ChannelSpec.PeerID, SessionPeer>, b: Book, c: Call, after: Book)
    requires Balanced(b) && Routine(b, c) && Does(b, c, after) && PeersAgree(peers, b)
    ensures PeersAgree(peers, after)
  {
    match c
    case Allocates(p, i) => AllocatedAgrees(peers, b, p, i);
    case Reports(p, i, ok) => SentAgrees(peers, b, p, i, ok);
    case Marks(p, bitmap, _) => MarkedAgrees(peers, b, p, bitmap);
  }

  /** Only taking a chunk completes the books. */
  lemma CallKeepsCompleteness(b: Book, c: Call, after: Book)
    requires Balanced(b) && Does(b, c, after) && !c.Takes?
    ensures after.complete == b.complete && after.isOrigin == b.isOrigin
  {
  }

  /** A session's books are replaced by others that fit it; other sessions have other books. */
  lemma RewrittenFit(sessions: map<MessageID, Session>, m: MessageID, s: Session, books: map<nat, Book>, after: Book)
    requires AllFit(sessions, books) && m in sessions && s.serial == sessions[m].serial
    requires StageBook(s.stage, after) && PeersAgree(s.peers, after)
    requires forall o :: o in sessions && o != m ==> sessions[o].serial != s.serial
    ensures AllFit(sessions[m := s], books[s.serial := after])
  {
    forall o | o in sessions && o != m
      ensures FitAt(sessions[o], books[s.serial := after])
    {
      assert FitAt(sessions[o], books);
    }
  }

  lemma OthersDiffer(w: Chan, m: MessageID)
    requires LogsOk(w) && m in w.sessions
    ensures forall o :: o in w.sessions && o != m ==> w.sessions[o].serial != w.sessions[m].serial
  {
  }

  lemma SameSessions(sessions: map<MessageID, Session>, m: MessageID)
    requires m in sessions
    ensures sessions[m := sessions[m]] == sessions
  {
  }

  lemma RewrittenDecodes(decoded: seq<nat>, books: map<nat, Book>, k: nat, after: Book)
    requires DecodesOk(decoded, books) && k in books && after.complete == books[k].complete
    ensures DecodesOk(decoded, books[k := after])
  {
  }

  lemma CalledInv(n: Node, m: MessageID, c: Call, after: Book)
    requires NodeInv(n) && CanStep(n, Called(m, c, after))
    ensures NodeInv(NodeStep(n, Called(m, c, after)))
  {
    var s := n.chan.sessions[m];
    assert FitAt(s, n.books);
    CallBalanced(n.books[s.serial], c, after);
    CallKeepsCompleteness(n.books[s.serial], c, after);
    RoutineAgrees(s.peers, n.books[s.serial], c, after);
    RewrittenInv(n, m, after);
  }

  lemma RewrittenInv(n: Node, m: MessageID, after: Book)
    requires NodeInv(n) && HasBook(n, m) && Balanced(after) && PeersAgree(n.chan.sessions[m].peers, after)
    requires var b := n.books[n.chan.sessions[m].serial]; after.complete == b.complete && after.isOrigin == b.isOrigin
    ensures NodeInv(n.(books := n.books[n.chan.sessions[m].serial := after]))
  {
    var s := n.chan.sessions[m];
    assert FitAt(s, n.books);
    OthersDiffer(n.chan, m);
    RewrittenFit(n.chan.sessions, m, s, n.books, after);
    SameSessions(n.chan.sessions, m);
    RewrittenDecodes(n.chan.decoded, n.books, s.serial, after);
    BooksPut(n.books, n.chan.nextSerial, s.serial, after, n.chan.nextSerial);
  }

  /** An accepted chunk leaves the books incomplete, or completes them and starts the decode. */
  lemma AcceptedFit(w: Chan, m: MessageID, books: map<nat, Book>, after: Book)
    requires AllFit(w.sessions, books) && m in w.sessions && !after.isOrigin && PeersAgree(w.sessions[m].peers, after)
    requires !books[w.sessions[m].serial].isOrigin && !books[w.sessions[m].serial].complete
    requires forall o :: o in w.sessions && o != m ==> w.sessions[o].serial != w.sessions[m].serial
    ensures AllFit(AcceptChunk(w, m, true, after.complete).sessions, books[w.sessions[m].serial := after])
  {
    var v := AcceptChunk(w, m, true, after.complete);
    assert FitAt(w.sessions[m], books);
    RewrittenFit(w.sessions, m, v.sessions[m], books, after);
    assert w.sessions[m := v.sessions[m]] == v.sessions;
  }

  lemma AcceptedDecodes(w: Chan, m: MessageID, books: map<nat, Book>, after: Book)
    requires DecodesOk(w.decoded, books) && m in w.sessions && w.sessions[m].serial in books
    requires !books[w.sessions[m].serial].complete
    ensures DecodesOk(AcceptChunk(w, m, true, after.complete).decoded, books[w.sessions[m].serial := after])
  {
  }

  lemma AcceptedInv(n: Node, m: MessageID, after: Book)
    requires NodeInv(n) && HasBook(n, m) && Balanced(after) && PeersAgree(n.chan.sessions[m].peers, after)
    requires var b := n.books[n.chan.sessions[m].serial]; !b.isOrigin && !after.isOrigin && !b.complete
    ensures NodeInv(Node(AcceptChunk(n.chan, m, true, after.complete), n.books[n.chan.sessions[m].serial := after]))
  {
    TakenLogs(n.chan, m, true, after.complete);
    OthersDiffer(n.chan, m);
    AcceptedFit(n.chan, m, n.books, after);
    AcceptedDecodes(n.chan, m, n.books, after);
    BooksPut(n.books, n.chan.nextSerial, n.chan.sessions[m].serial, after, n.chan.nextSerial);
  }

  lemma TakenAgrees(peers: map<ChannelSpec.PeerID, SessionPeer>, b: Book, p: ChannelSpec.PeerID, i: nat, data: Data,
      priority: nat)
    requires Shaped(b) && b.log.settled.Keys == b.peers.Keys && i < b.total && PeersAgree(peers, b)
    ensures PeersAgree(peers, Taken(b, p, i, data, priority))
  {
  }

  lemma GivenInv(n: Node, m: MessageID, p: ChannelSpec.PeerID, i: int, data: Data, priority: nat)
    requires NodeInv(n) && HasBook(n, m)
    ensures NodeInv(Give(n, m, p, i, data, priority))
  {
    var b := n.books[n.chan.sessions[m].serial];
    if Acceptable(b, i) {
      assert FitAt(n.chan.sessions[m], n.books);
      NeededIsRelay(b, i);
      TakenBalanced(b, p, i, data, priority);
      TakenAgrees(n.chan.sessions[m].peers, b, p, i, data, priority);
      AcceptedInv(n, m, Taken(b, p, i, data, priority));
    }
  }

  lemma StepInv(n: Node, a: NodeAct)
    requires NodeInv(n) && CanStep(n, a)
    ensures NodeInv(NodeStep(n, a))
  {
    match a
    case Event(e) => EventInv(n, e);
    case Opened(m, valid, now, judge, book, order) => OpenedInv(n, m, valid, now, judge, book, order);
    case Published(m, now, book, order) => PublishedInv(n, m, now, book, order);
    case Called(m, c, after) => CalledInv(n, m, c, after);
    case Given(m, p, i, data, priority) => GivenInv(n, m, p, i, data, priority);
  }

  // ---------------------------------------------------------------------------
  // Runs
  // ---------------------------------------------------------------------------

  const NEW_NODE := Node(NEW_CHAN, map[])

  ghost predicate Steps(n: Node, a: NodeAct, n': Node) {
    Sound(n) ==> CanStep(n, a) && n' == NodeStep(n, a)
  }

  ghost predicate IsNodeRun(nodes: seq<Node>, acts: seq<NodeAct>) {
    && |nodes| == |acts| + 1 && nodes[0] == NEW_NODE
    && forall i :: 0 <= i < |acts| ==> Steps(nodes[i], acts[i], nodes[i + 1])
  }

  lemma StepsInv(n: Node, a: NodeAct, n': Node)
    requires NodeInv(n) && Steps(n, a, n')
    ensures NodeInv(n')
  {
    StepInv(n, a);
  }

  lemma {:induction false} RunNode(nodes: seq<Node>, acts: seq<NodeAct>, n: nat)
    requires IsNodeRun(nodes, acts) && n <= |acts|
    ensures NodeInv(nodes[n])
  {
    if n > 0 {
      RunNode(nodes, acts, n - 1);
      StepsInv(nodes[n - 1], acts[n - 1], nodes[n]);
    } else {
      NewChannelInv();
    }
  }

  lemma CalledFrozen(b: Book, c: Call, after: Book)
    requires Balanced(b) && Does(b, c, after)
    ensures b.complete ==> SameData(b, after)
  {
    if b.complete {
      CompleteIsFrozen(b, c, after);
    }
  }

  lemma GivenFrozen(n: Node, m: MessageID, p: ChannelSpec.PeerID, i: int, data: Data, priority: nat, d: nat)
    requires Sound(n) && HasBook(n, m) && d in n.books && n.books[d].complete
    ensures var after := Give(n, m, p, i, data, priority).books; d in after && after[d] == n.books[d]
  {
  }

  /** Complete books keep their data through every step. */
  lemma StepFrozen(n: Node, a: NodeAct, d: nat)
    requires Sound(n) && CanStep(n, a) && d in n.books && n.books[d].complete
    ensures d in NodeStep(n, a).books && SameData(n.books[d], NodeStep(n, a).books[d])
  {
    match a
    case Event(e) => FollowedChange(n.chan, n.books, e, d);
    case Opened(_, _, _, _, _, _) =>
    case Published(_, _, _, _) =>
    case Called(m, c, after) => CalledFrozen(n.books[n.chan.sessions[m].serial], c, after);
    case Given(m, p, i, data, priority) => GivenFrozen(n, m, p, i, data, priority, d);
  }

  lemma GivenDecodes(n: Node, m: MessageID, p: ChannelSpec.PeerID, i: int, data: Data, priority: nat, d: nat)
    requires Sound(n) && HasBook(n, m)
    ensures var n' := Give(n, m, p, i, data, priority);
            && (d in n.chan.decoded ==> d in n'.chan.decoded)
            && (d !in n.chan.decoded && d in n'.chan.decoded ==>
                  && d in n.books && !n.books[d].complete
                  && d in n'.books && n'.books[d].complete)
  {
  }

  /** Decodes are never forgotten, and one starts only when its session's books become complete. */
  lemma StepDecodes(n: Node, a: NodeAct, d: nat)
    requires Sound(n) && CanStep(n, a)
    ensures d in n.chan.decoded ==> d in NodeStep(n, a).chan.decoded
    ensures d !in n.chan.decoded && d in NodeStep(n, a).chan.decoded ==>
      && d in n.books && !n.books[d].complete
      && d in NodeStep(n, a).books && NodeStep(n, a).books[d].complete
  {
    match a
    case Event(e) => EventStages(n.chan, e);
    case Opened(m, valid, now, judge, _, _) =>
      if m !in n.chan.sessions && valid {
        OpenKeeps(n.chan, m, now, judge);
      }
    case Published(m, now, _, _) => PublishKeeps(n.chan, m, now);
    case Called(_, _, _) =>
    case Given(m, p, i, data, priority) => GivenDecodes(n, m, p, i, data, priority, d);
  }

  lemma CompleteCount(b: Book)
    requires Balanced(b) && b.complete
    ensures |b.have| == b.dataChunks
  {
  }

  lemma DecodedBook(n: Node, d: nat)
    requires NodeInv(n) && d in n.chan.decoded
    ensures Distinct(n.chan.decoded) && d < n.chan.nextSerial && d in n.books && n.books[d].complete
    ensures |n.books[d].have| == n.books[d].dataChunks
  {
    CompleteCount(n.books[d]);
  }

  lemma StepKeepsDecode(n: Node, a: NodeAct, d: nat)
    requires NodeInv(n) && CanStep(n, a) && d in n.chan.decoded
    ensures Distinct(NodeStep(n, a).chan.decoded)
    ensures d in NodeStep(n, a).chan.decoded && d in n.books && d in NodeStep(n, a).books
    ensures SameData(n.books[d], NodeStep(n, a).books[d])
  {
    DecodedBook(n, d);
    StepFrozen(n, a, d);
    StepDecodes(n, a, d);
    StepInv(n, a);
    DecodedBook(NodeStep(n, a), d);
  }

  lemma RunDecode(nodes: seq<Node>, acts: seq<NodeAct>, n: nat, d: nat)
    requires IsNodeRun(nodes, acts) && n <= |acts| && d in nodes[n].chan.decoded
    ensures Distinct(nodes[n].chan.decoded) && d in nodes[n].books
    ensures |nodes[n].books[d].have| == nodes[n].books[d].dataChunks
  {
    RunNode(nodes, acts, n);
    DecodedBook(nodes[n], d);
  }

  lemma RunKeepsDecode(nodes: seq<Node>, acts: seq<NodeAct>, n: nat, d: nat)
    requires IsNodeRun(nodes, acts) && n < |acts| && d in nodes[n].chan.decoded
    ensures Distinct(nodes[n + 1].chan.decoded)
    ensures d in nodes[n + 1].chan.decoded && d in nodes[n].books && d in nodes[n + 1].books
    ensures SameData(nodes[n].books[d], nodes[n + 1].books[d])
  {
    RunNode(nodes, acts, n);
    assert Steps(nodes[n], acts[n], nodes[n + 1]);
    StepKeepsDecode(nodes[n], acts[n], d);
  }

  /**
   * Over every run of a channel and its sessions' strategies: each session starts at most one decode, over
   * exactly DataChunks held chunks, and what that decode reads is the same in every later state, however
   * long it runs and whatever becomes of its session.
   */
  lemma {:induction false} DecodesFrozenData(nodes: seq<Node>, acts: seq<NodeAct>, n: nat, k: nat, d: nat)
    requires IsNodeRun(nodes, acts) && n <= k <= |acts| && d in nodes[n].chan.decoded
    ensures Distinct(nodes[k].chan.decoded)
    ensures d in nodes[n].books && |nodes[n].books[d].have| == nodes[n].books[d].dataChunks
    ensures d in nodes[k].chan.decoded && d in nodes[k].books && SameData(nodes[n].books[d], nodes[k].books[d])
    decreases k
  {
    RunDecode(nodes, acts, n, d);
    if n < k {
      DecodesFrozenData(nodes, acts, n, k - 1, d);
      RunKeepsDecode(nodes, acts, k - 1, d);
    }
  }

  /**
   * Over every run, whatever a registered session's strategy dispatches goes to a peer attached to the
   * session that has not completed: sending to a peer that is gone never happens.
   */
  lemma DispatchesReachPeers(nodes: seq<Node>, acts: seq<NodeAct>, n: nat, m: MessageID, dispatches: seq<Dispatch>,
      after: Book)
    requires IsNodeRun(nodes, acts) && n <= |acts| && m in nodes[n].chan.sessions
    ensures var s := nodes[n].chan.sessions[m];
            && s.serial in nodes[n].books
            && (Dispatched(nodes[n].books[s.serial], dispatches, after) ==>
                  forall k :: 0 <= k < |dispatches| ==>
                    dispatches[k].peer in s.peers && !s.peers[dispatches[k].peer].completed)
  {
    var s := nodes[n].chan.sessions[m];
    RunNode(nodes, acts, n);
    assert FitAt(s, nodes[n].books);
    if Dispatched(nodes[n].books[s.serial], dispatches, after) {
      DispatchedPeers(s, nodes[n].books[s.serial], dispatches, after);
    }
  }

  lemma {:induction false} DispatchedPeers(s: Session, b: Book, dispatches: seq<Dispatch>, after: Book)
    requires PeersAgree(s.peers, b) && Dispatched(b, dispatches, after)
    ensures forall k :: 0 <= k < |dispatches| ==>
        dispatches[k].peer in s.peers && !s.peers[dispatches[k].peer].completed
    decreases |dispatches|
  {
    if dispatches != [] {
      var d := dispatches[0];
      DispatchedPeers(s, Allocated(b, d.peer, d.chunk), dispatches[1..], after);
      assert forall k :: 0 < k < |dispatches| ==> dispatches[k] == dispatches[1..][k - 1];
    }
  }
}
