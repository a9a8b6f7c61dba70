/** A strategy's books are what the calls of the run made them: data, counters and what each peer has. */
module StrategyHistory {
  // The functions below read the calls and the first books, never the books in between.

  import opened Basics
  import opened EmitPlanner
  import opened StrategySpec
  import opened StrategyRuns

  // ---------------------------------------------------------------------------
  // One chunk
  // ---------------------------------------------------------------------------

  predicate TakesChunk(c: Call, i: nat) {
    c.Takes? && c.chunk == i
  }

  /** The bytes held for the chunk: those it was taken with. */
  function DataNow(first: Book, calls: seq<Call>, n: nat, i: nat): Option<Data>
    requires n <= |calls| && i < |first.chunks|
  {
    if n == 0 then first.chunks[i]
    else if TakesChunk(calls[n - 1], i) then Some(calls[n - 1].data) else DataNow(first, calls, n - 1, i)
  }

  /** The chunk's entry: its priority, and how often it was offered and credited since it is held. */
  function EntryNow(first: Book, calls: seq<Call>, n: nat, i: nat): Option<EmitEntry>
    requires n <= |calls|
  {
    if n == 0 then if i in first.planned then Some(first.planned[i]) else None
    else EntryAfter(first.isOrigin, EntryNow(first, calls, n - 1, i), calls[n - 1], i)
  }

  /** An offer counts until it fails; a relay counts what was credited. */
  function EntryAfter(isOrigin: bool, e: Option<EmitEntry>, c: Call, i: nat): Option<EmitEntry> {
    if TakesChunk(c, i) then Some(EmitEntry(i, 0, 0, c.priority))
    else if e.None? then None
    else
      match c
      case Allocates(_, j) => if j == i then Some(e.value.(times := e.value.times + 1)) else e
      case Reports(_, j, ok) =>
        if j != i then e
        else if !ok then Some(e.value.(times := e.value.times - 1))
        else if isOrigin then e else Some(e.value.(sent := e.value.sent + 1))
      case _ => e
  }

  ghost predicate ChunkIs(b: Book, isOrigin: bool, i: nat, data: Option<Data>, entry: Option<EmitEntry>) {
    && b.isOrigin == isOrigin && i < |b.chunks| && b.chunks[i] == data
    && (if i in b.planned then entry == Some(b.planned[i]) else entry.None?)
  }

  lemma AllocatedChunk(b: Book, p: PeerID, j: nat, i: nat, data: Option<Data>, entry: Option<EmitEntry>)
    requires ChunkIs(b, b.isOrigin, i, data, entry) && p in b.peers && j < |b.peers[p].inflight| && j in b.planned
    ensures ChunkIs(Allocated(b, p, j), b.isOrigin, i, data, EntryAfter(b.isOrigin, entry, Allocates(p, j), i))
  {
  }

  lemma SentChunk(b: Book, p: PeerID, j: nat, ok: bool, i: nat, data: Option<Data>, entry: Option<EmitEntry>)
    requires ChunkIs(b, b.isOrigin, i, data, entry) && Shaped(b) && p in b.peers && p in b.log.settled
    requires j < b.total == |b.peers[p].inflight| && j in b.planned
    ensures ChunkIs(Sent(b, p, j, ok), b.isOrigin, i, data, EntryAfter(b.isOrigin, entry, Reports(p, j, ok), i))
  {
  }

  lemma TakenChunk(b: Book, p: PeerID, j: nat, x: Data, priority: nat, i: nat, data: Option<Data>,
      entry: Option<EmitEntry>)
    requires ChunkIs(b, b.isOrigin, i, data, entry) && Shaped(b) && b.log.settled.Keys == b.peers.Keys && j < b.total
    ensures var c := Takes(p, j, x, priority);
            ChunkIs(Taken(b, p, j, x, priority), b.isOrigin, i, if j == i then Some(x) else data,
                EntryAfter(b.isOrigin, entry, c, i))
  {
  }

  lemma CallChunk(b: Book, c: Call, after: Book, i: nat, data: Option<Data>, entry: Option<EmitEntry>)
    requires Balanced(b) && Does(b, c, after) && ChunkIs(b, b.isOrigin, i, data, entry)
    ensures ChunkIs(after, b.isOrigin, i, if TakesChunk(c, i) then Some(c.data) else data,
        EntryAfter(b.isOrigin, entry, c, i))
  {
    match c
    case Allocates(p, j) => AllocatedChunk(b, p, j, i, data, entry);
    case Reports(p, j, ok) => SentChunk(b, p, j, ok, i, data, entry);
    case Takes(p, j, x, priority) => TakenChunk(b, p, j, x, priority, i, data, entry);
    case _ =>
  }

  lemma {:induction false} RunChunk(books: seq<Book>, calls: seq<Call>, n: nat, i: nat)
    requires IsCallRun(books, calls) && Balanced(books[0]) && n <= |calls| && i < books[0].total
    ensures i < |books[0].chunks|
    ensures ChunkIs(books[n], books[0].isOrigin, i, DataNow(books[0], calls, n, i), EntryNow(books[0], calls, n, i))
  {
    FirstShaped(books[0]);
    if n > 0 {
      RunChunk(books, calls, n - 1, i);
      RunBalanced(books, calls, n - 1);
      NextChunk(books[0], calls, n - 1, books[n - 1], books[n], i);
    }
  }

  lemma NextChunk(first: Book, calls: seq<Call>, n: nat, b: Book, after: Book, i: nat)
    requires n < |calls| && i < |first.chunks| && Balanced(b) && Does(b, calls[n], after)
    requires ChunkIs(b, first.isOrigin, i, DataNow(first, calls, n, i), EntryNow(first, calls, n, i))
    ensures ChunkIs(after, first.isOrigin, i, DataNow(first, calls, n + 1, i), EntryNow(first, calls, n + 1, i))
  {
    CallChunk(b, calls[n], after, i, DataNow(first, calls, n, i), EntryNow(first, calls, n, i));
  }

  /** The chunk was taken with these bytes before n. */
  ghost predicate TakenWith(calls: seq<Call>, n: nat, i: nat, x: Data) {
    exists j :: 0 <= j < n && j < |calls| && TakesChunk(calls[j], i) && calls[j].data == x
  }

  lemma {:induction false} DataIsTaken(first: Book, calls: seq<Call>, n: nat, i: nat, x: Data)
    requires n <= |calls| && i < |first.chunks|
    ensures DataNow(first, calls, n, i) == Some(x) ==> first.chunks[i] == Some(x) || TakenWith(calls, n, i, x)
  {
    if n > 0 {
      DataIsTaken(first, calls, n - 1, i, x);
    }
  }

  /** A chunk held is never taken, so it is taken at most once, and its bytes stay. */
  lemma {:induction false} HeldStays(books: seq<Book>, calls: seq<Call>, m: nat, n: nat, i: nat)
    requires IsCallRun(books, calls) && Balanced(books[0]) && m <= n <= |calls| && i < books[0].total
    ensures i < |books[0].chunks|
    ensures DataNow(books[0], calls, m, i).Some? ==>
        && DataNow(books[0], calls, n, i) == DataNow(books[0], calls, m, i)
        && forall j :: m <= j < n ==> !TakesChunk(calls[j], i)
    decreases n
  {
    FirstShaped(books[0]);
    if m < n {
      HeldStays(books, calls, m, n - 1, i);
      NotTakenAgain(books, calls, n - 1, i);
    }
  }

  lemma FirstShaped(b: Book)
    requires Balanced(b)
    ensures |b.chunks| == b.total
  {
  }

  lemma NotTakenAgain(books: seq<Book>, calls: seq<Call>, n: nat, i: nat)
    requires IsCallRun(books, calls) && Balanced(books[0]) && n < |calls| && i < books[0].total == |books[0].chunks|
    ensures DataNow(books[0], calls, n, i).Some? ==> !TakesChunk(calls[n], i)
  {
    RunChunk(books, calls, n, i);
    RunBalanced(books, calls, n);
    if DataNow(books[0], calls, n, i).Some? {
      HeldIsRefused(books[n], calls[n], books[n + 1], i);
    }
  }

  lemma HeldIsRefused(b: Book, c: Call, after: Book, i: nat)
    requires Balanced(b) && Does(b, c, after) && i < |b.chunks| && b.chunks[i].Some?
    ensures !TakesChunk(c, i)
  {
  }

  /**
    * Over every run: the bytes held for a chunk are those it started with, or those of the one call that
    * took it.
    */
  lemma HeldAsTaken(books: seq<Book>, calls: seq<Call>, n: nat, i: nat, x: Data)
    requires IsCallRun(books, calls) && Balanced(books[0]) && n <= |calls| && i < books[0].total
    ensures i < |books[n].chunks| && i < |books[0].chunks|
    ensures books[n].chunks[i] == Some(x) <==> books[0].chunks[i] == Some(x) || TakenWith(calls, n, i, x)
    ensures forall j, k :: 0 <= j < k < n && TakesChunk(calls[j], i) ==> !TakesChunk(calls[k], i)
  {
    RunChunk(books, calls, n, i);
    DataIsTaken(books[0], calls, n, i, x);
    HeldStays(books, calls, 0, n, i);
    forall j | 0 <= j < n && TakesChunk(calls[j], i)
      ensures DataNow(books[0], calls, n, i) == Some(calls[j].data)
      ensures forall k :: j < k < n ==> !TakesChunk(calls[k], i)
    {
      HeldStays(books, calls, j + 1, n, i);
    }
  }

  /** Over every run: a dispatch of a chunk carries the bytes it started with or was taken with. */
  lemma DispatchCarriesTaken(books: seq<Book>, calls: seq<Call>, n: nat, d: Dispatch)
    requires IsCallRun(books, calls) && Balanced(books[0]) && n <= |calls| && CanDispatch(books[n], d)
    requires d.chunk < books[0].total
    ensures d.chunk < |books[0].chunks|
    ensures books[0].chunks[d.chunk] == Some(d.data) || TakenWith(calls, n, d.chunk, d.data)
  {
    HeldAsTaken(books, calls, n, d.chunk, d.data);
  }

  /**
    * Over every run: a chunk is planned with the priority it was taken with, offered as often as it was
    * allocated and did not fail, and a relay's credit counts its successful sends.
    */
  lemma PlannedAsCalled(books: seq<Book>, calls: seq<Call>, n: nat, i: nat)
    requires IsCallRun(books, calls) && Balanced(books[0]) && n <= |calls| && i < books[0].total
    ensures i in books[n].planned <==> EntryNow(books[0], calls, n, i).Some?
    ensures i in books[n].planned ==> EntryNow(books[0], calls, n, i) == Some(books[n].planned[i])
  {
    RunChunk(books, calls, n, i);
  }

  // ---------------------------------------------------------------------------
  // One peer
  // ---------------------------------------------------------------------------

  /** What a call makes of a peer: attaching starts afresh, and a failed send takes the chunk back. */
  function PeerAfter(total: nat, ps: Option<PeerState>, c: Call, p: PeerID): Option<PeerState> {
    if c.peer != p then ps
    else
      match c
      case Attaches(_) => Some(PeerState({}, seq(total, _ => 0), false))
      case Detaches(_) => None
      case Marks(_, bitmap, completed) =>
        if ps.Some? then Some(ps.value.(bitmap := bitmap, completed := completed)) else None
      case Takes(_, i, _, _) => if ps.Some? then Some(ps.value.(bitmap := ps.value.bitmap + {i})) else None
      case Allocates(_, i) =>
        if ps.Some? && i < |ps.value.inflight| then
          Some(ps.value.(inflight := ps.value.inflight[i := ps.value.inflight[i] + 1]))
        else None
      case Reports(_, i, ok) =>
        if ps.Some? && i < |ps.value.inflight| then
          Some(PeerState(if ok then ps.value.bitmap + {i} else ps.value.bitmap - {i},
              ps.value.inflight[i := ps.value.inflight[i] - 1], ps.value.completed))
        else None
  }

  function PeerNow(first: Book, calls: seq<Call>, n: nat, p: PeerID): Option<PeerState>
    requires n <= |calls|
  {
    if n == 0 then if p in first.peers then Some(first.peers[p]) else None
    else PeerAfter(first.total, PeerNow(first, calls, n - 1, p), calls[n - 1], p)
  }

  ghost predicate PeerIs(b: Book, p: PeerID, ps: Option<PeerState>) {
    if p in b.peers then ps == Some(b.peers[p]) else ps.None?
  }

  lemma AllocatedPeer(b: Book, q: PeerID, i: nat, p: PeerID, ps: Option<PeerState>)
    requires PeerIs(b, p, ps) && q in b.peers && i < |b.peers[q].inflight| && i in b.planned
    ensures PeerIs(Allocated(b, q, i), p, PeerAfter(b.total, ps, Allocates(q, i), p))
  {
  }

  lemma AttachedPeer(b: Book, q: PeerID, p: PeerID, ps: Option<PeerState>)
    requires PeerIs(b, p, ps) && Shaped(b)
    ensures PeerIs(Attached(b, q), p, PeerAfter(b.total, ps, Attaches(q), p))
    ensures PeerIs(Detached(b, q), p, PeerAfter(b.total, ps, Detaches(q), p))
  {
    assert FreshPeer(b.total).inflight == seq(b.total, _ => 0);
  }

  lemma MarkedPeer(b: Book, q: PeerID, bitmap: set<nat>, completed: bool, p: PeerID, ps: Option<PeerState>)
    requires PeerIs(b, p, ps) && q in b.peers
    ensures PeerIs(Marked(b, q, bitmap, completed), p, PeerAfter(b.total, ps, Marks(q, bitmap, completed), p))
  {
  }

  lemma SentPeer(b: Book, q: PeerID, i: nat, ok: bool, p: PeerID, ps: Option<PeerState>)
    requires PeerIs(b, p, ps) && Shaped(b) && q in b.peers && q in b.log.settled
    requires i < b.total == |b.peers[q].inflight| && i in b.planned
    ensures PeerIs(Sent(b, q, i, ok), p, PeerAfter(b.total, ps, Reports(q, i, ok), p))
  {
  }

  lemma TakenPeer(b: Book, q: PeerID, i: nat, x: Data, priority: nat, p: PeerID, ps: Option<PeerState>)
    requires PeerIs(b, p, ps) && Shaped(b) && b.log.settled.Keys == b.peers.Keys && i < b.total
    ensures PeerIs(Taken(b, q, i, x, priority), p, PeerAfter(b.total, ps, Takes(q, i, x, priority), p))
  {
  }

  lemma CallPeer(b: Book, c: Call, after: Book, p: PeerID, ps: Option<PeerState>)
    requires Balanced(b) && Does(b, c, after) && PeerIs(b, p, ps)
    ensures PeerIs(after, p, PeerAfter(b.total, ps, c, p)) && after.total == b.total
  {
    match c
    case Allocates(q, i) => AllocatedPeer(b, q, i, p, ps);
    case Reports(q, i, ok) => SentPeer(b, q, i, ok, p, ps);
    case Attaches(q) => AttachedPeer(b, q, p, ps);
    case Detaches(q) => AttachedPeer(b, q, p, ps);
    case Marks(q, bitmap, completed) => MarkedPeer(b, q, bitmap, completed, p, ps);
    case Takes(q, i, x, priority) => TakenPeer(b, q, i, x, priority, p, ps);
  }

  ghost predicate KnownAs(b: Book, first: Book, calls: seq<Call>, n: nat, p: PeerID)
    requires n <= |calls|
  {
    PeerIs(b, p, PeerNow(first, calls, n, p)) && b.total == first.total
  }

  /** Over every run: what is known of a peer is what the calls since it was attached say. */
  lemma {:induction false} PeersAsCalled(books: seq<Book>, calls: seq<Call>, n: nat, p: PeerID)
    requires IsCallRun(books, calls) && Balanced(books[0]) && n <= |calls|
    ensures KnownAs(books[n], books[0], calls, n, p)
  {
    if n > 0 {
      PeersAsCalled(books, calls, n - 1, p);
      RunBalanced(books, calls, n - 1);
      NextPeer(books[0], calls, n - 1, books[n - 1], books[n], p);
    }
  }

  lemma NextPeer(first: Book, calls: seq<Call>, n: nat, b: Book, after: Book, p: PeerID)
    requires n < |calls| && Balanced(b) && Does(b, calls[n], after) && KnownAs(b, first, calls, n, p)
    ensures KnownAs(after, first, calls, n + 1, p)
  {
    CallPeer(b, calls[n], after, p, PeerNow(first, calls, n, p));
  }

  // ---------------------------------------------------------------------------
  // A failed send
  // ---------------------------------------------------------------------------

  /** Whether the chunk may be sent to the peer. */
  ghost predicate Offerable(b: Book, p: PeerID, i: nat) {
    p in b.peers && i in b.planned && Eligible(b, b.peers[p], b.planned[i])
  }

  /**
    * After a failed send the peer can be offered the chunk again, unless a relay spent its budget on others
    * meanwhile; even if the peer said it has the chunk while the send was in flight.
    */
  lemma FailedIsOfferedAgain(b: Book, p: PeerID, i: nat, after: Book)
    requires Balanced(b) && Does(b, Reports(p, i, false), after)
    ensures Offerable(after, p, i) <==> b.isOrigin || b.planned[i].sent < b.forwardMultiplier
    ensures after.planned[i].times == b.planned[i].times - 1 && after.planned[i].sent == b.planned[i].sent
  {
    FailedPeer(b, p, i);
  }

  lemma FailedPeer(b: Book, p: PeerID, i: nat)
    requires Shaped(b) && p in b.peers && p in b.log.settled && i < b.total == |b.peers[p].inflight| && i in b.planned
    requires b.peers[p].inflight[i] == 1 && b.planned[i].idx == i
    ensures Offerable(Sent(b, p, i, false), p, i) <==> b.isOrigin || b.planned[i].sent < b.forwardMultiplier
    ensures Sent(b, p, i, false).planned[i] == b.planned[i].(times := b.planned[i].times - 1)
  {
  }

  /** An allocation that fails at once leaves the books as they were. */
  lemma FailureUndoes(b: Book, p: PeerID, i: nat)
    requires Balanced(b) && p in b.peers && LeastEligible(b, p, i)
    ensures Does(b, Allocates(p, i), Allocated(b, p, i)) && Balanced(Allocated(b, p, i))
    ensures Does(Allocated(b, p, i), Reports(p, i, false), b)
  {
    AllocatedBalanced(b, p, i);
    assert FitsPeer(b, b.peers[p], b.log.settled[p]);
    var c := Allocated(b, p, i);
    assert FitsPeer(c, c.peers[p], c.log.settled[p]);
    Undone(b, p, i);
  }

  lemma Undone(b: Book, p: PeerID, i: nat)
    requires Shaped(b) && p in b.peers && p in b.log.settled && i < b.total == |b.peers[p].inflight| && i in b.planned
    requires i !in b.peers[p].bitmap
    ensures Sent(Allocated(b, p, i), p, i, false) == b
  {
    var ps := b.peers[p];
    assert ps.inflight[i := ps.inflight[i] + 1][i := ps.inflight[i]] == ps.inflight;
    assert ps.bitmap - {i} == ps.bitmap;
    assert b.peers[p := ps] == b.peers && b.planned[i := b.planned[i]] == b.planned;
  }
}
