/** The bytes a session's strategy holds, dispatches and decodes are the ones the channel gave it. */
module ChannelData {
  import opened Basics
  import opened ChannelSpec
  import opened ChannelRuns
  import opened StrategySpec
  import opened StrategyRuns
  import opened ChannelStrategy

  /** Act j gives session s these bytes for the chunk. */
  ghost predicate GivesAt(nodes: seq<Node>, acts: seq<NodeAct>, j: nat, s: nat, i: nat, x: Data) {
    && j < |acts| && j < |nodes| && acts[j].Given? && Registered(nodes[j].chan, acts[j].message, s)
    && acts[j].chunk == i && acts[j].data == x
  }

  ghost predicate WasGiven(nodes: seq<Node>, acts: seq<NodeAct>, n: nat, s: nat, i: nat, x: Data) {
    exists j :: 0 <= j < n && GivesAt(nodes, acts, j, s, i, x)
  }

  /** Act j published session s with these bytes for the chunk. */
  ghost predicate PublishesAt(nodes: seq<Node>, acts: seq<NodeAct>, j: nat, s: nat, i: nat, x: Data) {
    && j < |acts| && j < |nodes| && acts[j].Published? && nodes[j].chan.nextSerial == s
    && i < |acts[j].book.chunks| && acts[j].book.chunks[i] == Some(x)
  }

  ghost predicate WasPublished(nodes: seq<Node>, acts: seq<NodeAct>, n: nat, s: nat, i: nat, x: Data) {
    exists j :: 0 <= j < n && PublishesAt(nodes, acts, j, s, i, x)
  }

  /** The bytes session s holds for the chunk. */
  ghost function Held(n: Node, s: nat, i: nat): Option<Data> {
    HeldIn(n.books, s, i)
  }

  ghost function HeldIn(books: map<nat, Book>, s: nat, i: nat): Option<Data> {
    if s in books then ChunkOf(books[s], i) else None
  }

  ghost function ChunkOf(b: Book, i: nat): Option<Data> {
    if i < |b.chunks| then b.chunks[i] else None
  }

  lemma PutHeld(books: map<nat, Book>, k: nat, b: Book, s: nat, i: nat)
    ensures HeldIn(books[k := b], s, i) == if s == k then ChunkOf(b, i) else HeldIn(books, s, i)
  {
  }

  // ---------------------------------------------------------------------------
  // One step
  // ---------------------------------------------------------------------------

  lemma RoutineData(b: Book, c: Call, after: Book)
    requires Balanced(b) && Routine(b, c) && Does(b, c, after)
    ensures after.chunks == b.chunks
  {
  }

  lemma NewHeld(book: Book, order: seq<ChannelSpec.PeerID>)
    requires Balanced(book) && book.peers == map[]
    ensures AttachEach(book, order).chunks == book.chunks
  {
    AttachEachPeers(book, order);
  }

  lemma RelayHoldsNothing(book: Book, i: nat)
    requires NewRelayBook(book) && i < |book.chunks|
    ensures book.chunks[i].None?
  {
  }

  /** What a session holds for a chunk changes only by being published with it, or given it while it lacks it. */
  ghost function HeldAfter(n: Node, a: NodeAct, s: nat, i: nat): Option<Data> {
    match a
    case Published(_, _, book, _) =>
      if s == n.chan.nextSerial then ChunkOf(book, i) else Held(n, s, i)
    case Given(m, _, j, data, _) =>
      if i == j && Registered(n.chan, m, s) && s in n.books && Acceptable(n.books[s], j) then Some(data)
      else Held(n, s, i)
    case _ => Held(n, s, i)
  }

  lemma EventHeld(n: Node, e: ChannelEvent, s: nat, i: nat)
    requires Sound(n) && CanStep(n, Event(e))
    ensures Held(NodeStep(n, Event(e)), s, i) == Held(n, s, i)
  {
    if s in n.books {
      FollowedChange(n.chan, n.books, e, s);
    }
  }

  lemma CreatedHeld(books: map<nat, Book>, next: nat, book: Book, order: seq<ChannelSpec.PeerID>, s: nat, i: nat)
    requires Balanced(book) && book.peers == map[]
    ensures HeldIn(books[next := AttachEach(book, order)], s, i)
        == if s == next then ChunkOf(book, i) else HeldIn(books, s, i)
  {
    NewHeld(book, order);
    PutHeld(books, next, AttachEach(book, order), s, i);
  }

  lemma OpenedHeld(n: Node, a: NodeAct, s: nat, i: nat)
    requires Sound(n) && a.Opened? && NewRelayBook(a.book)
    ensures HeldIn(n.books[n.chan.nextSerial := AttachEach(a.book, a.order)], s, i) == Held(n, s, i)
  {
    CreatedHeld(n.books, n.chan.nextSerial, a.book, a.order, s, i);
    if i < |a.book.chunks| {
      RelayHoldsNothing(a.book, i);
    }
  }

  lemma CalledHeld(n: Node, m: MessageID, c: Call, after: Book, s: nat, i: nat)
    requires Sound(n) && HasBook(n, m) && Routine(n.books[n.chan.sessions[m].serial], c)
    requires Does(n.books[n.chan.sessions[m].serial], c, after)
    ensures HeldIn(n.books[n.chan.sessions[m].serial := after], s, i) == Held(n, s, i)
  {
    RoutineData(n.books[n.chan.sessions[m].serial], c, after);
    PutHeld(n.books, n.chan.sessions[m].serial, after, s, i);
  }

  lemma TakenData(b: Book, p: ChannelSpec.PeerID, j: nat, data: Data, priority: nat, i: nat)
    requires Shaped(b) && b.log.settled.Keys == b.peers.Keys && j < b.total
    ensures ChunkOf(Taken(b, p, j, data, priority), i) == if i == j then Some(data) else ChunkOf(b, i)
  {
  }

  lemma GivenHeld(n: Node, m: MessageID, p: ChannelSpec.PeerID, j: int, data: Data, priority: nat, s: nat, i: nat)
    requires Sound(n) && HasBook(n, m)
    ensures Held(Give(n, m, p, j, data, priority), s, i) == HeldAfter(n, Given(m, p, j, data, priority), s, i)
  {
    GiveBooks(n, m, p, j, data, priority);
    GivenHeldIn(n.books, n.chan.sessions[m].serial, p, j, data, priority, s, i);
  }

  ghost function GivenBooks(books: map<nat, Book>, k: nat, p: ChannelSpec.PeerID, j: int, data: Data, priority: nat)
      : map<nat, Book>
    requires k in books && Balanced(books[k])
  {
    if Acceptable(books[k], j) then books[k := Taken(books[k], p, j, data, priority)] else books
  }

  lemma GivenHeldIn(books: map<nat, Book>, k: nat, p: ChannelSpec.PeerID, j: int, data: Data, priority: nat, s: nat,
      i: nat)
    requires k in books && Balanced(books[k])
    ensures HeldIn(GivenBooks(books, k, p, j, data, priority), s, i)
        == if i == j && s == k && Acceptable(books[k], j) then Some(data) else HeldIn(books, s, i)
  {
    TakenFits(books[k]);
    if Acceptable(books[k], j) {
      TakenData(books[k], p, j, data, priority, i);
      PutHeld(books, k, Taken(books[k], p, j, data, priority), s, i);
    }
  }

  lemma TakenFits(b: Book)
    requires Balanced(b)
    ensures Shaped(b) && b.log.settled.Keys == b.peers.Keys
  {
  }

  lemma GiveBooks(n: Node, m: MessageID, p: ChannelSpec.PeerID, j: int, data: Data, priority: nat)
    requires Sound(n) && HasBook(n, m)
    ensures Give(n, m, p, j, data, priority).books
        == GivenBooks(n.books, n.chan.sessions[m].serial, p, j, data, priority)
  {
  }

  lemma StepHeld(n: Node, a: NodeAct, s: nat, i: nat)
    requires Sound(n) && CanStep(n, a)
    ensures Held(NodeStep(n, a), s, i) == HeldAfter(n, a, s, i)
  {
    match a
    case Event(e) => EventHeld(n, e, s, i);
    case Opened(_, _, _, _, _, _) => OpenedHeld(n, a, s, i);
    case Published(_, _, book, order) => CreatedHeld(n.books, n.chan.nextSerial, book, order, s, i);
    case Called(m, c, after) => CalledHeld(n, m, c, after, s, i);
    case Given(m, p, j, data, priority) => GivenHeld(n, m, p, j, data, priority, s, i);
  }

  // ---------------------------------------------------------------------------
  // Runs
  // ---------------------------------------------------------------------------

  /** The step changes what session s holds for the chunk as HeldAfter says. */
  ghost predicate HeldStep(n: Node, a: NodeAct, n': Node, s: nat, i: nat) {
    Held(n', s, i) == HeldAfter(n, a, s, i) && (s in n.books ==> s < n.chan.nextSerial)
  }

  ghost predicate HeldSteps(nodes: seq<Node>, acts: seq<NodeAct>, s: nat, i: nat) {
    |nodes| == |acts| + 1 && nodes[0] == NEW_NODE
    && forall k :: 0 <= k < |acts| ==> HeldStep(nodes[k], acts[k], nodes[k + 1], s, i)
  }

  lemma StepsHeld(n: Node, a: NodeAct, n': Node, s: nat, i: nat)
    requires NodeInv(n) && Steps(n, a, n')
    ensures HeldStep(n, a, n', s, i)
  {
    StepHeld(n, a, s, i);
  }

  lemma RunHeld(nodes: seq<Node>, acts: seq<NodeAct>, s: nat, i: nat)
    requires IsNodeRun(nodes, acts)
    ensures HeldSteps(nodes, acts, s, i)
  {
    forall k | 0 <= k < |acts|
      ensures HeldStep(nodes[k], acts[k], nodes[k + 1], s, i)
    {
      RunNode(nodes, acts, k);
      StepsHeld(nodes[k], acts[k], nodes[k + 1], s, i);
    }
  }

  lemma {:induction false} HeldFrom(nodes: seq<Node>, acts: seq<NodeAct>, n: nat, s: nat, i: nat, x: Data)
    requires HeldSteps(nodes, acts, s, i) && n <= |acts| && Held(nodes[n], s, i) == Some(x)
    ensures WasGiven(nodes, acts, n, s, i, x) || WasPublished(nodes, acts, n, s, i, x)
  {
    if n > 0 {
      assert HeldStep(nodes[n - 1], acts[n - 1], nodes[n], s, i);
      if Held(nodes[n - 1], s, i) == Some(x) {
        HeldFrom(nodes, acts, n - 1, s, i, x);
      } else {
        assert GivesAt(nodes, acts, n - 1, s, i, x) || PublishesAt(nodes, acts, n - 1, s, i, x);
      }
    }
  }

  /** Over every run: the bytes a session holds for a chunk were given to it for that chunk, or published with it. */
  lemma HeldWasGiven(nodes: seq<Node>, acts: seq<NodeAct>, n: nat, s: nat, i: nat, x: Data)
    requires IsNodeRun(nodes, acts) && n <= |acts| && Held(nodes[n], s, i) == Some(x)
    ensures WasGiven(nodes, acts, n, s, i, x) || WasPublished(nodes, acts, n, s, i, x)
  {
    RunHeld(nodes, acts, s, i);
    HeldFrom(nodes, acts, n, s, i, x);
  }

  lemma {:induction false} HeldOn(nodes: seq<Node>, acts: seq<NodeAct>, m: nat, n: nat, s: nat, i: nat)
    requires HeldSteps(nodes, acts, s, i) && m <= n <= |acts| && Held(nodes[m], s, i).Some?
    ensures Held(nodes[n], s, i) == Held(nodes[m], s, i)
    decreases n
  {
    if m < n {
      HeldOn(nodes, acts, m, n - 1, s, i);
      assert HeldStep(nodes[n - 1], acts[n - 1], nodes[n], s, i);
    }
  }

  /** Over every run: once held, the bytes stay. */
  lemma HeldStays(nodes: seq<Node>, acts: seq<NodeAct>, m: nat, n: nat, s: nat, i: nat)
    requires IsNodeRun(nodes, acts) && m <= n <= |acts| && Held(nodes[m], s, i).Some?
    ensures Held(nodes[n], s, i) == Held(nodes[m], s, i)
  {
    RunHeld(nodes, acts, s, i);
    HeldOn(nodes, acts, m, n, s, i);
  }

  /**
    * Over every run: a chunk in range given to a consuming session that was not given it before is held from
    * then on, with the bytes given.
    */
  lemma GivenIsHeld(nodes: seq<Node>, acts: seq<NodeAct>, j: nat, n: nat, s: nat, i: nat, x: Data)
    requires IsNodeRun(nodes, acts) && j < n <= |acts| && GivesAt(nodes, acts, j, s, i, x)
    requires nodes[j].chan.sessions[acts[j].message].stage == Consuming
    requires s in nodes[j].books && i < nodes[j].books[s].total && forall y :: !WasGiven(nodes, acts, j, s, i, y)
    ensures Held(nodes[n], s, i) == Some(x)
  {
    LacksBefore(nodes, acts, j, s, i);
    RunHeld(nodes, acts, s, i);
    assert HeldStep(nodes[j], acts[j], nodes[j + 1], s, i);
    HeldStays(nodes, acts, j + 1, n, s, i);
  }

  lemma LacksBefore(nodes: seq<Node>, acts: seq<NodeAct>, j: nat, s: nat, i: nat)
    requires IsNodeRun(nodes, acts) && j < |acts| && acts[j].Given? && Registered(nodes[j].chan, acts[j].message, s)
    requires nodes[j].chan.sessions[acts[j].message].stage == Consuming
    requires s in nodes[j].books && i < nodes[j].books[s].total && forall y :: !WasGiven(nodes, acts, j, s, i, y)
    ensures Acceptable(nodes[j].books[s], i)
  {
    RunNode(nodes, acts, j);
    assert FitAt(nodes[j].chan.sessions[acts[j].message], nodes[j].books);
    if Held(nodes[j], s, i).Some? {
      HeldWasGiven(nodes, acts, j, s, i, Held(nodes[j], s, i).value);
      NotPublished(nodes, acts, j, s, i, Held(nodes[j], s, i).value);
    }
  }

  /** A relay's books were not published. */
  lemma NotPublished(nodes: seq<Node>, acts: seq<NodeAct>, n: nat, s: nat, i: nat, x: Data)
    requires IsNodeRun(nodes, acts) && n <= |acts| && s in nodes[n].books && !nodes[n].books[s].isOrigin
    ensures !WasPublished(nodes, acts, n, s, i, x)
  {
    forall k | 0 <= k < |acts|
      ensures KeepsOrigin(nodes[k], acts[k], nodes[k + 1], s)
    {
      RunNode(nodes, acts, k);
      StepsOrigin(nodes[k], acts[k], nodes[k + 1], s);
    }
    forall j | 0 <= j < n && PublishesAt(nodes, acts, j, s, i, x)
      ensures false
    {
      OriginStays(nodes, acts, j, n, s);
    }
  }

  /** An origin's books stay an origin's, and published books are. */
  ghost predicate KeepsOrigin(n: Node, a: NodeAct, n': Node, s: nat) {
    OriginOf(n.books, s) || (a.Published? && s == n.chan.nextSerial) ==> OriginOf(n'.books, s)
  }

  lemma {:induction false} OriginStays(nodes: seq<Node>, acts: seq<NodeAct>, j: nat, n: nat, s: nat)
    requires |nodes| == |acts| + 1 && forall k :: 0 <= k < |acts| ==> KeepsOrigin(nodes[k], acts[k], nodes[k + 1], s)
    requires j < n <= |acts| && acts[j].Published? && nodes[j].chan.nextSerial == s
    ensures OriginOf(nodes[n].books, s)
    decreases n
  {
    if j < n - 1 {
      OriginStays(nodes, acts, j, n - 1, s);
    }
    assert KeepsOrigin(nodes[n - 1], acts[n - 1], nodes[n], s);
  }

  ghost predicate OriginOf(books: map<nat, Book>, s: nat) {
    s in books && books[s].isOrigin
  }

  lemma StepsOrigin(n: Node, a: NodeAct, n': Node, s: nat)
    requires Sound(n) && Steps(n, a, n')
    ensures KeepsOrigin(n, a, n', s)
  {
    if s in n.books {
      StepOrigin(n, a, s);
    } else if a.Published? {
      NewOrigin(a.book, a.order);
    }
  }

  lemma NewOrigin(book: Book, order: seq<ChannelSpec.PeerID>)
    requires NewOriginBook(book)
    ensures AttachEach(book, order).isOrigin
  {
    AttachEachPeers(book, order);
  }

  lemma StepOrigin(n: Node, a: NodeAct, s: nat)
    requires Sound(n) && CanStep(n, a) && s in n.books
    ensures s in NodeStep(n, a).books && NodeStep(n, a).books[s].isOrigin == n.books[s].isOrigin
  {
    match a
    case Event(e) => FollowedChange(n.chan, n.books, e, s);
    case Called(m, c, after) => CalledOrigin(n, m, c, after, s);
    case Given(m, p, i, data, priority) => GivenOrigin(n, m, p, i, data, priority, s);
    case _ =>
  }

  lemma CalledOrigin(n: Node, m: MessageID, c: Call, after: Book, s: nat)
    requires Sound(n) && HasBook(n, m) && s in n.books && !c.Takes?
    requires Does(n.books[n.chan.sessions[m].serial], c, after)
    ensures n.books[n.chan.sessions[m].serial := after][s].isOrigin == n.books[s].isOrigin
  {
    CallKeepsCompleteness(n.books[n.chan.sessions[m].serial], c, after);
  }

  lemma GivenOrigin(n: Node, m: MessageID, p: ChannelSpec.PeerID, i: int, data: Data, priority: nat, s: nat)
    requires Sound(n) && HasBook(n, m) && s in n.books
    ensures s in Give(n, m, p, i, data, priority).books
    ensures Give(n, m, p, i, data, priority).books[s].isOrigin == n.books[s].isOrigin
  {
  }

  /**
    * Over every run: a decode reads, for every chunk held, the bytes given to its session for that chunk,
    * and the same ones however long it runs.
    */
  lemma DecodesGivenBytes(nodes: seq<Node>, acts: seq<NodeAct>, n: nat, k: nat, d: nat, i: nat) returns (x: Data)
    requires IsNodeRun(nodes, acts) && n <= k <= |acts| && d in nodes[n].chan.decoded
    requires d in nodes[n].books && i in nodes[n].books[d].have
    ensures Held(nodes[n], d, i) == Held(nodes[k], d, i) == Some(x) && WasGiven(nodes, acts, n, d, i, x)
  {
    RunNode(nodes, acts, n);
    HaveIsHeld(nodes[n].books[d], i);
    x := Held(nodes[n], d, i).value;
    HeldStays(nodes, acts, n, k, d, i);
    HeldWasGiven(nodes, acts, n, d, i, x);
    NotPublished(nodes, acts, n, d, i, x);
  }

  lemma HaveIsHeld(b: Book, i: nat)
    requires Balanced(b) && i in b.have
    ensures i < |b.chunks| && b.chunks[i].Some? && (b.complete ==> !b.isOrigin)
  {
  }

  /** Over every run: what a registered session's strategy dispatches are bytes given or published for the chunk. */
  lemma DispatchesGivenBytes(nodes: seq<Node>, acts: seq<NodeAct>, n: nat, m: MessageID, d: Dispatch)
    requires IsNodeRun(nodes, acts) && n <= |acts| && HasBook(nodes[n], m)
    requires CanDispatch(nodes[n].books[nodes[n].chan.sessions[m].serial], d)
    ensures var s := nodes[n].chan.sessions[m].serial;
            WasGiven(nodes, acts, n, s, d.chunk, d.data) || WasPublished(nodes, acts, n, s, d.chunk, d.data)
  {
    HeldWasGiven(nodes, acts, n, nodes[n].chan.sessions[m].serial, d.chunk, d.data);
  }
}
