/** Every run of calls keeps a strategy's books balanced; completion freezes them. */
module StrategyRuns {
  import opened StrategySpec

  datatype Call =
    | Allocates(peer: PeerID, chunk: nat)
    | Reports(peer: PeerID, chunk: nat, ok: bool)
    | Attaches(peer: PeerID)
    | Detaches(peer: PeerID)
    | Marks(peer: PeerID, bitmap: set<nat>, completed: bool)
    | Takes(peer: PeerID, chunk: nat, data: Data, priority: nat)

  /** What a call that changes anything does to balanced books. */
  ghost predicate Does(b: Book, c: Call, after: Book)
    requires Balanced(b)
  {
    match c
    case Allocates(p, i) => p in b.peers && LeastEligible(b, p, i) && after == Allocated(b, p, i)
    case Reports(p, i, ok) =>
      p in b.peers && i < b.total && i in b.planned && FitsPeer(b, b.peers[p], b.log.settled[p])
          && b.peers[p].inflight[i] == 1 && after == Sent(b, p, i, ok)
    case Attaches(p) => after == Attached(b, p)
    case Detaches(p) => after == Detached(b, p)
    case Marks(p, bitmap, completed) => p in b.peers && b.peers[p].bitmap <= bitmap
        && after == Marked(b, p, bitmap, completed)
    case Takes(p, i, data, priority) =>
      i < b.total && b.chunks[i].None? && !b.complete && after == Taken(b, p, i, data, priority)
  }

  lemma CallBalanced(b: Book, c: Call, after: Book)
    requires Balanced(b) && Does(b, c, after)
    ensures Balanced(after)
  {
    match c
    case Allocates(p, i) => AllocatedBalanced(b, p, i);
    case Reports(p, i, ok) => SentBalanced(b, p, i, ok);
    case Attaches(p) => AttachedBalanced(b, p);
    case Detaches(p) => DetachedBalanced(b, p);
    case Marks(p, bitmap, completed) => MarkedBalanced(b, p, bitmap, completed);
    case Takes(p, i, data, priority) =>
      NeededIsRelay(b, i);
      TakenBalanced(b, p, i, data, priority);
  }

  ghost predicate IsCallRun(books: seq<Book>, calls: seq<Call>) {
    && |books| == |calls| + 1
    && forall i :: 0 <= i < |calls| ==> Balanced(books[i]) ==> Does(books[i], calls[i], books[i + 1])
  }

  /** Under every call sequence, allocations, credits, sends in flight and losses add up, within budget. */
  lemma {:induction false} RunBalanced(books: seq<Book>, calls: seq<Call>, n: nat)
    requires IsCallRun(books, calls) && Balanced(books[0]) && n <= |calls|
    ensures Balanced(books[n])
  {
    if n > 0 {
      RunBalanced(books, calls, n - 1);
      CallBalanced(books[n - 1], calls[n - 1], books[n]);
    }
  }

  /** What Decode reads. */
  ghost predicate SameData(a: Book, b: Book) {
    b.chunks == a.chunks && b.have == a.have && b.complete == a.complete && b.planned.Keys == a.planned.Keys
  }

  lemma CompleteIsFrozen(b: Book, c: Call, after: Book)
    requires Balanced(b) && b.complete && Does(b, c, after)
    ensures SameData(b, after)
  {
  }

  /** Once complete, the held chunks never change; completeness was reported exactly once. */
  lemma {:induction false} RunFrozen(books: seq<Book>, calls: seq<Call>, m: nat, n: nat)
    requires IsCallRun(books, calls) && Balanced(books[0]) && m <= n <= |calls| && books[m].complete
    ensures SameData(books[m], books[n]) && books[n].log.completions == 1
    decreases n
  {
    RunBalanced(books, calls, n);
    if m < n {
      RunFrozen(books, calls, m, n - 1);
      RunBalanced(books, calls, n - 1);
      CompleteIsFrozen(books[n - 1], calls[n - 1], books[n]);
    }
  }

  /** The chunk was credited to the peer, or taken from it, during this attachment. */
  ghost predicate IsSettled(b: Book, p: PeerID, i: nat) {
    p in b.peers && p in b.log.settled && i in b.log.settled[p]
  }

  lemma SettledIsNotSent(b: Book, p: PeerID, i: nat, c: Call, after: Book)
    requires Balanced(b) && IsSettled(b, p, i) && Does(b, c, after)
    ensures !(c.Allocates? && c.peer == p && c.chunk == i) && !(c.Reports? && c.peer == p && c.chunk == i)
  {
    assert FitsPeer(b, b.peers[p], b.log.settled[p]);
  }

  /** A credited send settles its chunk, and so does taking one from an attached peer. */
  lemma Settles(b: Book, p: PeerID, i: nat, c: Call, after: Book)
    requires Balanced(b) && Does(b, c, after) && p in b.peers
    requires c == Reports(p, i, true) || (c.Takes? && c.peer == p && c.chunk == i)
    ensures IsSettled(after, p, i)
  {
  }

  /** Only attaching the peer again or detaching it unsettles a chunk. */
  lemma StaysSettled(b: Book, p: PeerID, i: nat, c: Call, after: Book)
    requires Balanced(b) && IsSettled(b, p, i) && Does(b, c, after) && c != Attaches(p) && c != Detaches(p)
    ensures IsSettled(after, p, i)
  {
    match c
    case Reports(q, j, ok) => SentSettled(b, p, i, q, j, ok);
    case Takes(q, j, data, priority) => TakenSettled(b, p, i, q, j, data, priority);
    case _ =>
  }

  lemma SentSettled(b: Book, p: PeerID, i: nat, q: PeerID, j: nat, ok: bool)
    requires IsSettled(b, p, i) && Shaped(b) && q in b.peers && q in b.log.settled
    requires j < b.total == |b.peers[q].inflight| && j in b.planned
    ensures IsSettled(Sent(b, q, j, ok), p, i)
  {
  }

  lemma TakenSettled(b: Book, p: PeerID, i: nat, q: PeerID, j: nat, data: Data, priority: nat)
    requires IsSettled(b, p, i) && Shaped(b) && b.log.settled.Keys == b.peers.Keys && j < b.total
    ensures IsSettled(Taken(b, q, j, data, priority), p, i)
  {
  }

  lemma {:induction false} SettledUntil(books: seq<Book>, calls: seq<Call>, m: nat, n: nat, p: PeerID, i: nat)
    requires IsCallRun(books, calls) && Balanced(books[0]) && m <= n <= |calls| && IsSettled(books[m], p, i)
    requires forall k :: m <= k < n ==> calls[k] != Attaches(p) && calls[k] != Detaches(p)
    ensures IsSettled(books[n], p, i)
    decreases n
  {
    if m < n {
      SettledUntil(books, calls, m, n - 1, p, i);
      RunBalanced(books, calls, n - 1);
      StaysSettled(books[n - 1], p, i, calls[n - 1], books[n]);
    }
  }

  /**
    * Within one attachment, over every run: once a chunk was credited to a peer, or taken from it, no
    * later call allocates it to that peer or reports another send of it to that peer.
    */
  lemma NeverSentAgain(books: seq<Book>, calls: seq<Call>, m: nat, n: nat, p: PeerID, i: nat)
    requires IsCallRun(books, calls) && Balanced(books[0]) && m < n < |calls| && p in books[m].peers
    requires calls[m] == Reports(p, i, true) || (calls[m].Takes? && calls[m].peer == p && calls[m].chunk == i)
    requires forall k :: m <= k < n ==> calls[k] != Attaches(p) && calls[k] != Detaches(p)
    ensures !(calls[n].Allocates? && calls[n].peer == p && calls[n].chunk == i)
    ensures !(calls[n].Reports? && calls[n].peer == p && calls[n].chunk == i)
  {
    RunBalanced(books, calls, m);
    Settles(books[m], p, i, calls[m], books[m + 1]);
    SettledUntil(books, calls, m + 1, n, p, i);
    RunBalanced(books, calls, n);
    SettledIsNotSent(books[n], p, i, calls[n], books[n + 1]);
  }

  /** What PollChunks does is a run of allocations, one for each dispatch. */
  lemma {:induction false} PollIsCalls(b: Book, dispatches: seq<Dispatch>, after: Book)
      returns (books: seq<Book>, calls: seq<Call>)
    requires Dispatched(b, dispatches, after)
    ensures IsCallRun(books, calls) && books[0] == b && books[|calls|] == after && |calls| == |dispatches|
    ensures forall k :: 0 <= k < |calls| ==> calls[k] == Allocates(dispatches[k].peer, dispatches[k].chunk)
    decreases |dispatches|
  {
    if dispatches == [] {
      books, calls := [b], [];
    } else {
      var d := dispatches[0];
      var rest, more := PollIsCalls(Allocated(b, d.peer, d.chunk), dispatches[1..], after);
      books, calls := [b] + rest, [Allocates(d.peer, d.chunk)] + more;
      assert forall k :: 0 < k < |calls| ==>
          calls[k] == more[k - 1] && books[k] == rest[k - 1] && books[k + 1] == rest[k];
    }
  }
}
