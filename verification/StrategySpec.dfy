/** The Reed-Solomon strategy's books: held, planned, in flight, credited and lost. */
module StrategySpec {
  // Bitmaps appear as the sets of indices they stand for. Each operation below is what one call does to
  // the books, and each keeps them balanced.

  import opened Basics
  import opened EmitPlanner

  type PeerID = nat
  type Data = seq<bv8>

  datatype PeerState = PeerState(bitmap: set<nat>, inflight: seq<int>, completed: bool)

  type Peers = map<PeerID, PeerState>

  /**
    * credited and lost count, per chunk, the sends that succeeded and the sends in flight when their
    * peer was detached. settled holds, per attached peer, the chunks credited to it or taken from it
    * during this attachment. completions counts the calls that reported completeness.
    */
  datatype Log = Log(
    credited: seq<nat>,
    lost: seq<nat>,
    settled: map<PeerID, set<nat>>,
    maxPeers: nat,
    accepts: nat,
    completions: nat)

  datatype Book = Book(
    isOrigin: bool,
    total: nat,
    dataChunks: nat,
    forwardMultiplier: nat,
    chunks: seq<Option<Data>>,
    have: set<nat>,
    planned: map<int, EmitEntry>,
    peers: Peers,
    complete: bool,
    log: Log)

  // ---------------------------------------------------------------------------
  // In-flight sends
  // ---------------------------------------------------------------------------

  ghost function Flying(ps: PeerState, i: nat): nat {
    if i < |ps.inflight| && ps.inflight[i] > 0 then 1 else 0
  }

  ghost function FlyingTo(i: nat): (PeerID, PeerState) -> nat {
    (peer: PeerID, ps: PeerState) => Flying(ps, i)
  }

  /** The number of attached peers chunk i is in flight to. */
  ghost function InFlight(peers: Peers, i: nat): nat {
    MapSum(peers, FlyingTo(i))
  }

  lemma InFlightPut(peers: Peers, peer: PeerID, ps: PeerState, i: nat)
    ensures InFlight(peers[peer := ps], i) == Flying(ps, i) + InFlight(peers - {peer}, i)
    ensures peer in peers ==> InFlight(peers, i) == Flying(peers[peer], i) + InFlight(peers - {peer}, i)
    ensures peer !in peers ==> peers - {peer} == peers
  {
    MapSumUpdate(peers, FlyingTo(i), peer, ps);
    if peer in peers {
      MapSumSplit(peers, FlyingTo(i), peer);
    }
  }

  lemma InFlightBound(peers: Peers, i: nat)
    ensures InFlight(peers, i) <= |peers|
  {
    MapSumBound(peers, FlyingTo(i), 1);
  }

  // ---------------------------------------------------------------------------
  // Balanced books
  // ---------------------------------------------------------------------------

  ghost predicate Shaped(b: Book) {
    && |b.chunks| == b.total
    && |b.log.credited| == b.total && |b.log.lost| == b.total
    && 0 < b.dataChunks <= b.total
    && (!b.isOrigin ==> b.forwardMultiplier > 0)
  }

  /**
    * Sizes fit, at most one send of a chunk is in flight to a peer, and a settled chunk is marked for
    * the peer and not in flight to it.
    */
  ghost predicate FitsPeer(b: Book, ps: PeerState, settled: set<nat>) {
    && |ps.inflight| == b.total
    && (forall i :: 0 <= i < b.total ==> 0 <= ps.inflight[i] <= 1)
    && (forall i: nat :: i in settled ==> i < b.total && i in ps.bitmap && ps.inflight[i] == 0)
  }

  ghost predicate PeersFit(b: Book) {
    && b.log.settled.Keys == b.peers.Keys
    && (forall p :: p in b.peers ==> FitsPeer(b, b.peers[p], b.log.settled[p]))
  }

  /** A chunk is held, marked in the bitmap and planned, or none of the three. */
  ghost predicate Agreeing(b: Book)
    requires |b.chunks| == b.total
  {
    && (forall i: nat :: i in b.have <==> i < b.total && b.chunks[i].Some?)
    && (forall i: int :: i in b.planned <==> 0 <= i < b.total && b.chunks[i].Some?)
    && (forall i :: i in b.planned ==> b.planned[i].idx == i)
    && (b.isOrigin ==> forall i :: 0 <= i < b.total ==> b.chunks[i].Some?)
  }

  /** Every allocation is accounted for; only planned chunks have a history. */
  ghost predicate Accounted(b: Book)
    requires Shaped(b)
  {
    forall i: nat :: i < b.total ==>
      if i in b.planned then
        && b.planned[i].times == b.log.credited[i] + InFlight(b.peers, i) + b.log.lost[i]
        && b.planned[i].sent == (if b.isOrigin then 0 else b.log.credited[i])
      else
        b.log.credited[i] == 0 && b.log.lost[i] == 0 && InFlight(b.peers, i) == 0
  }

  /** A relay never spends more than its budget plus one send in flight to each attached peer. */
  ghost predicate InBudget(b: Book)
    requires Shaped(b)
  {
    && |b.peers| <= b.log.maxPeers
    && (!b.isOrigin ==> forall i: nat :: i < b.total ==>
          b.log.credited[i] + InFlight(b.peers, i) <= b.forwardMultiplier - 1 + b.log.maxPeers)
  }

  /** A relay completes once, at its DataChunks-th accepted chunk, and accepts none after. */
  ghost predicate Counted(b: Book) {
    && b.log.completions == (if b.complete then 1 else 0)
    && (b.isOrigin ==> !b.complete && b.log.accepts == 0)
    && (!b.isOrigin ==>
          && b.log.accepts == |b.have| <= b.dataChunks
          && (b.complete <==> b.log.accepts == b.dataChunks))
  }

  ghost predicate Balanced(b: Book) {
    Shaped(b) && PeersFit(b) && Agreeing(b) && Accounted(b) && InBudget(b) && Counted(b)
  }

  // ---------------------------------------------------------------------------
  // Changing one peer
  // ---------------------------------------------------------------------------

  lemma PutPeerFits(b: Book, peer: PeerID, ps: PeerState, settled: set<nat>, b': Book)
    requires PeersFit(b) && b'.total == b.total && FitsPeer(b', ps, settled)
    requires b'.peers == b.peers[peer := ps] && b'.log.settled == b.log.settled[peer := settled]
    ensures PeersFit(b')
  {
    forall p | p in b'.peers && p != peer
      ensures FitsPeer(b', b'.peers[p], b'.log.settled[p])
    {
      assert FitsPeer(b, b.peers[p], b.log.settled[p]);
    }
  }

  lemma DropPeerFits(b: Book, peer: PeerID, b': Book)
    requires PeersFit(b) && b'.total == b.total
    requires b'.peers == b.peers - {peer} && b'.log.settled == b.log.settled - {peer}
    ensures PeersFit(b')
  {
    forall p | p in b'.peers
      ensures FitsPeer(b', b'.peers[p], b'.log.settled[p])
    {
      assert FitsPeer(b, b.peers[p], b.log.settled[p]);
    }
  }

  // ---------------------------------------------------------------------------
  // Allocation
  // ---------------------------------------------------------------------------

  /** ec may be sent to a peer in state ps. */
  predicate Eligible(b: Book, ps: PeerState, ec: EmitEntry) {
    && 0 <= ec.idx < |ps.inflight|
    && ec.idx !in ps.bitmap
    && ps.inflight[ec.idx] <= 0
    && (b.isOrigin || ec.sent < b.forwardMultiplier)
  }

  /** No planned chunk may be sent to the peer. */
  ghost predicate NoneEligible(b: Book, peer: PeerID)
    requires peer in b.peers
  {
    forall id :: id in b.planned ==> !Eligible(b, b.peers[peer], b.planned[id])
  }

  /** The planned chunk is eligible for the peer and no eligible one is strictly below it. */
  ghost predicate LeastEligible(b: Book, peer: PeerID, i: int)
    requires peer in b.peers
  {
    && 0 <= i < |b.peers[peer].inflight|
    && i in b.planned && Eligible(b, b.peers[peer], b.planned[i])
    && forall id :: id in b.planned && Eligible(b, b.peers[peer], b.planned[id]) ==>
        !LessEntry(b.planned[id], b.planned[i])
  }

  function Allocated(b: Book, peer: PeerID, i: nat): Book
    requires peer in b.peers && i < |b.peers[peer].inflight| && i in b.planned
  {
    var ps := b.peers[peer];
    b.(peers := b.peers[peer := ps.(inflight := ps.inflight[i := ps.inflight[i] + 1])],
       planned := b.planned[i := b.planned[i].(times := b.planned[i].times + 1)])
  }

  lemma AllocatedFlights(b: Book, peer: PeerID, i: nat, j: nat)
    requires peer in b.peers && i in b.planned && i < |b.peers[peer].inflight| && b.peers[peer].inflight[i] == 0
    ensures InFlight(Allocated(b, peer, i).peers, j) == InFlight(b.peers, j) + if i == j then 1 else 0
  {
    InFlightPut(b.peers, peer, Allocated(b, peer, i).peers[peer], j);
  }

  lemma AllocatedAccounted(b: Book, peer: PeerID, i: nat)
    requires Shaped(b) && Accounted(b) && InBudget(b)
    requires peer in b.peers && i in b.planned && i < |b.peers[peer].inflight| == b.total
        && b.peers[peer].inflight[i] == 0
    requires b.isOrigin || b.planned[i].sent < b.forwardMultiplier
    ensures Accounted(Allocated(b, peer, i)) && InBudget(Allocated(b, peer, i))
  {
    var b' := Allocated(b, peer, i);
    forall j: nat
      ensures InFlight(b'.peers, j) == InFlight(b.peers, j) + if i == j then 1 else 0
    {
      AllocatedFlights(b, peer, i, j);
    }
    InFlightBound(b'.peers, i);
    assert b'.peers.Keys == b.peers.Keys;
    assert |b'.peers| == |b.peers|;
  }

  lemma AllocatedFits(b: Book, peer: PeerID, i: nat)
    requires PeersFit(b) && peer in b.peers && i in b.planned && Eligible(b, b.peers[peer], b.planned[i])
        && b.planned[i].idx == i
    ensures i < b.total == |b.peers[peer].inflight| && b.peers[peer].inflight[i] == 0
    ensures PeersFit(Allocated(b, peer, i))
    ensures i !in b.log.settled[peer]
  {
    assert FitsPeer(b, b.peers[peer], b.log.settled[peer]);
    var b' := Allocated(b, peer, i);
    assert b'.log.settled == b.log.settled[peer := b.log.settled[peer]];
    PutPeerFits(b, peer, b'.peers[peer], b.log.settled[peer], b');
  }

  lemma AllocatedAgrees(b: Book, peer: PeerID, i: nat)
    requires Shaped(b) && Agreeing(b) && peer in b.peers && i in b.planned && i < |b.peers[peer].inflight|
    ensures Agreeing(Allocated(b, peer, i))
  {
  }

  /** Sending an eligible chunk keeps the books balanced and never repeats a settled chunk. */
  lemma AllocatedBalanced(b: Book, peer: PeerID, i: nat)
    requires Balanced(b) && peer in b.peers && i in b.planned && Eligible(b, b.peers[peer], b.planned[i])
    ensures i < |b.peers[peer].inflight| && i < |b.chunks| && b.chunks[i].Some?
    ensures peer in b.log.settled && i !in b.log.settled[peer]
    ensures Balanced(Allocated(b, peer, i))
  {
    AllocatedFits(b, peer, i);
    AllocatedAgrees(b, peer, i);
    AllocatedAccounted(b, peer, i);
  }

  datatype Dispatch = Dispatch(peer: PeerID, chunk: nat, data: Data)

  /** d sends a held chunk, now in flight, to an attached peer that has not completed. */
  ghost predicate GoodDispatch(b: Book, d: Dispatch) {
    && d.peer in b.peers && !b.peers[d.peer].completed
    && d.chunk < |b.chunks| && b.chunks[d.chunk] == Some(d.data)
    && d.chunk < |b.peers[d.peer].inflight| && b.peers[d.peer].inflight[d.chunk] == 1
  }

  /**
    * The peers in done were offered one chunk each: at most one dispatch a peer, and a peer that
    * still wants chunks got none only if nothing was eligible for it.
    */
  ghost predicate Polled(b: Book, done: set<PeerID>, dispatches: seq<Dispatch>) {
    && (forall k :: 0 <= k < |dispatches| ==> dispatches[k].peer in done && GoodDispatch(b, dispatches[k]))
    && (forall j, k :: 0 <= j < k < |dispatches| ==> dispatches[j].peer != dispatches[k].peer)
    && (forall p :: p in done && p in b.peers && !b.peers[p].completed ==>
          NoneEligible(b, p) || exists k :: 0 <= k < |dispatches| && dispatches[k].peer == p)
  }

  /** The books may be asked to make this dispatch: its chunk is least eligible for its peer. */
  ghost predicate CanDispatch(b: Book, d: Dispatch) {
    && d.peer in b.peers && !b.peers[d.peer].completed && LeastEligible(b, d.peer, d.chunk)
    && d.chunk < |b.chunks| && b.chunks[d.chunk] == Some(d.data)
  }

  /** after results from these dispatches, each of the least eligible chunk when it was made. */
  ghost predicate Dispatched(b: Book, dispatches: seq<Dispatch>, after: Book)
    decreases |dispatches|
  {
    if dispatches == [] then after == b
    else
      var d := dispatches[0];
      CanDispatch(b, d) && Dispatched(Allocated(b, d.peer, d.chunk), dispatches[1..], after)
  }

  lemma {:induction false} DispatchedSnoc(b: Book, dispatches: seq<Dispatch>, mid: Book, d: Dispatch)
    requires Dispatched(b, dispatches, mid) && CanDispatch(mid, d)
    ensures Dispatched(b, dispatches + [d], Allocated(mid, d.peer, d.chunk))
    decreases |dispatches|
  {
    if dispatches == [] {
      assert (dispatches + [d])[1..] == [];
    } else {
      var first := dispatches[0];
      assert (dispatches + [d])[1..] == dispatches[1..] + [d];
      DispatchedSnoc(Allocated(b, first.peer, first.chunk), dispatches[1..], mid, d);
    }
  }

  lemma {:induction false} DispatchedBalanced(b: Book, dispatches: seq<Dispatch>, after: Book)
    requires Balanced(b) && Dispatched(b, dispatches, after)
    ensures Balanced(after)
    decreases |dispatches|
  {
    if dispatches != [] {
      var d := dispatches[0];
      AllocatedBalanced(b, d.peer, d.chunk);
      DispatchedBalanced(Allocated(b, d.peer, d.chunk), dispatches[1..], after);
    }
  }

  lemma AllocatedElsewhere(b: Book, peer: PeerID, i: nat, p: PeerID)
    requires peer in b.peers && i in b.planned && i < |b.peers[peer].inflight| && p in b.peers
    ensures Allocated(b, peer, i).peers[p].completed == b.peers[p].completed
    ensures p != peer && NoneEligible(b, p) ==> NoneEligible(Allocated(b, peer, i), p)
  {
  }

  lemma PolledNone(b: Book, done: set<PeerID>, dispatches: seq<Dispatch>, peer: PeerID)
    requires Polled(b, done, dispatches) && peer in b.peers && (b.peers[peer].completed || NoneEligible(b, peer))
    ensures Polled(b, done + {peer}, dispatches)
  {
  }

  /** An allocation puts its own dispatch in flight and touches no other peer's. */
  lemma DispatchesStay(b: Book, done: set<PeerID>, dispatches: seq<Dispatch>, d: Dispatch)
    requires Polled(b, done, dispatches) && d.peer !in done && CanDispatch(b, d)
        && b.peers[d.peer].inflight[d.chunk] == 0
    ensures var all := dispatches + [d];
            forall k :: 0 <= k < |all| ==> GoodDispatch(Allocated(b, d.peer, d.chunk), all[k])
  {
  }

  lemma PolledOne(b: Book, done: set<PeerID>, dispatches: seq<Dispatch>, d: Dispatch)
    requires Polled(b, done, dispatches) && d.peer !in done && CanDispatch(b, d)
        && b.peers[d.peer].inflight[d.chunk] == 0
    ensures Polled(Allocated(b, d.peer, d.chunk), done + {d.peer}, dispatches + [d])
  {
    var b' := Allocated(b, d.peer, d.chunk);
    var all := dispatches + [d];
    DispatchesStay(b, done, dispatches, d);
    forall p | p in done + {d.peer} && p in b'.peers && !b'.peers[p].completed
      ensures NoneEligible(b', p) || exists k :: 0 <= k < |all| && all[k].peer == p
    {
      AllocatedElsewhere(b, d.peer, d.chunk, p);
      if p == d.peer {
        assert all[|dispatches|].peer == p;
      } else if !NoneEligible(b, p) {
        var k :| 0 <= k < |dispatches| && dispatches[k].peer == p;
        assert all[k].peer == p;
      }
    }
  }

  // ---------------------------------------------------------------------------
  // The outcome of a send
  // ---------------------------------------------------------------------------

  /** A chunk in flight to somebody is planned. */
  lemma FlyingIsPlanned(b: Book, peer: PeerID, i: nat)
    requires Shaped(b) && Accounted(b) && peer in b.peers && i < b.total && Flying(b.peers[peer], i) == 1
    ensures i in b.planned && InFlight(b.peers, i) >= 1
  {
    InFlightPut(b.peers, peer, b.peers[peer], i);
  }

  function Landed(ps: PeerState, i: nat, ok: bool): PeerState
    requires i < |ps.inflight|
  {
    ps.(inflight := ps.inflight[i := ps.inflight[i] - 1], bitmap := if ok then ps.bitmap + {i} else ps.bitmap - {i})
  }

  /** A success is credited and settles the chunk; a failure is invisible to both counters. */
  function Sent(b: Book, peer: PeerID, i: nat, ok: bool): Book
    requires Shaped(b) && peer in b.peers && peer in b.log.settled && i < b.total == |b.peers[peer].inflight|
        && i in b.planned
  {
    var ps := Landed(b.peers[peer], i, ok);
    var ec := b.planned[i];
    if ok then
      b.(peers := b.peers[peer := ps],
         planned := if b.isOrigin then b.planned else b.planned[i := ec.(sent := ec.sent + 1)],
         log := b.log.(credited := b.log.credited[i := b.log.credited[i] + 1],
                       settled := b.log.settled[peer := b.log.settled[peer] + {i}]))
    else
      b.(peers := b.peers[peer := ps], planned := b.planned[i := ec.(times := ec.times - 1)])
  }

  lemma SentAccounted(b: Book, peer: PeerID, i: nat, ok: bool)
    requires Shaped(b) && Accounted(b) && InBudget(b)
    requires peer in b.peers && peer in b.log.settled && i < b.total == |b.peers[peer].inflight| && i in b.planned
    requires b.peers[peer].inflight[i] == 1
    ensures Shaped(Sent(b, peer, i, ok)) && Accounted(Sent(b, peer, i, ok)) && InBudget(Sent(b, peer, i, ok))
  {
    var b' := Sent(b, peer, i, ok);
    forall j: nat
      ensures InFlight(b'.peers, j) == InFlight(b.peers, j) - if i == j then 1 else 0
    {
      InFlightPut(b.peers, peer, b'.peers[peer], j);
    }
    assert b'.peers.Keys == b.peers.Keys;
    assert |b'.peers| == |b.peers|;
  }

  lemma SentFits(b: Book, peer: PeerID, i: nat, ok: bool)
    requires Shaped(b) && PeersFit(b) && peer in b.peers && i < b.total && i in b.planned
        && b.peers[peer].inflight[i] == 1
    ensures PeersFit(Sent(b, peer, i, ok))
    ensures i !in b.log.settled[peer]
  {
    assert FitsPeer(b, b.peers[peer], b.log.settled[peer]);
    var b' := Sent(b, peer, i, ok);
    assert b'.log.settled == b.log.settled[peer := b'.log.settled[peer]];
    PutPeerFits(b, peer, b'.peers[peer], b'.log.settled[peer], b');
  }

  lemma SentAgrees(b: Book, peer: PeerID, i: nat, ok: bool)
    requires Shaped(b) && Agreeing(b) && peer in b.peers && peer in b.log.settled
    requires i < b.total == |b.peers[peer].inflight| && i in b.planned
    ensures Agreeing(Sent(b, peer, i, ok))
  {
  }

  /** Either outcome keeps the books balanced; no chunk is credited twice in one attachment. */
  lemma SentBalanced(b: Book, peer: PeerID, i: nat, ok: bool)
    requires Balanced(b) && peer in b.peers && i < b.total && i in b.planned && b.peers[peer].inflight[i] == 1
    ensures Balanced(Sent(b, peer, i, ok))
    ensures i !in b.log.settled[peer]
  {
    SentFits(b, peer, i, ok);
    SentAgrees(b, peer, i, ok);
    SentAccounted(b, peer, i, ok);
  }

  // ---------------------------------------------------------------------------
  // Peers coming and going
  // ---------------------------------------------------------------------------

  ghost function Lost(b: Book, peer: PeerID): seq<nat>
    requires |b.log.lost| == b.total
  {
    seq(b.total, i requires 0 <= i < b.total => b.log.lost[i] + if peer in b.peers then Flying(b.peers[peer], i) else 0)
  }

  function FreshPeer(total: nat): PeerState {
    PeerState({}, seq(total, _ => 0), false)
  }

  /** Attaching starts the peer afresh; whatever was in flight to it is lost. */
  ghost function Attached(b: Book, peer: PeerID): Book
    requires Shaped(b)
  {
    var peers := b.peers[peer := FreshPeer(b.total)];
    b.(peers := peers,
       log := b.log.(settled := b.log.settled[peer := {}], lost := Lost(b, peer),
                     maxPeers := if |peers| > b.log.maxPeers then |peers| else b.log.maxPeers))
  }

  ghost function Detached(b: Book, peer: PeerID): Book
    requires Shaped(b)
  {
    b.(peers := b.peers - {peer},
       log := b.log.(settled := b.log.settled - {peer}, lost := Lost(b, peer)))
  }

  lemma AttachedBalanced(b: Book, peer: PeerID)
    requires Balanced(b)
    ensures Balanced(Attached(b, peer))
  {
    var b' := Attached(b, peer);
    forall j: nat | j < b.total
      ensures InFlight(b'.peers, j) + b'.log.lost[j] == InFlight(b.peers, j) + b.log.lost[j]
      ensures InFlight(b'.peers, j) <= InFlight(b.peers, j)
      ensures b'.log.lost[j] == b.log.lost[j] + if peer in b.peers then Flying(b.peers[peer], j) else 0
    {
      InFlightPut(b.peers, peer, FreshPeer(b.total), j);
    }
    LossAccounted(b, b');
    PutPeerFits(b, peer, FreshPeer(b.total), {}, b');
  }

  lemma DetachedBalanced(b: Book, peer: PeerID)
    requires Balanced(b)
    ensures Balanced(Detached(b, peer))
  {
    var b' := Detached(b, peer);
    forall j: nat | j < b.total
      ensures InFlight(b'.peers, j) + b'.log.lost[j] == InFlight(b.peers, j) + b.log.lost[j]
      ensures InFlight(b'.peers, j) <= InFlight(b.peers, j)
    {
      InFlightPut(b.peers, peer, FreshPeer(b.total), j);
    }
    assert b'.peers.Keys <= b.peers.Keys;
    DropPeerCount(b.peers, peer);
    LossAccounted(b, b');
    DropPeerFits(b, peer, b');
  }

  lemma DropPeerCount(peers: Peers, peer: PeerID)
    ensures |peers - {peer}| <= |peers|
  {
    assert (peers - {peer}).Keys == peers.Keys - {peer};
    if peer in peers {
      assert |peers.Keys - {peer}| == |peers.Keys| - 1;
    } else {
      assert peers - {peer} == peers;
    }
  }

  /** Moving sends from in flight to lost leaves every account as it was. */
  lemma LossAccounted(b: Book, b': Book)
    requires Shaped(b) && Accounted(b) && InBudget(b) && |b'.log.lost| == b.total
    requires b' == b.(peers := b'.peers, log := b.log.(settled := b'.log.settled, lost := b'.log.lost,
        maxPeers := b'.log.maxPeers))
    requires |b'.peers| <= b'.log.maxPeers && b.log.maxPeers <= b'.log.maxPeers
    requires forall j: nat :: j < b.total ==>
               InFlight(b'.peers, j) + b'.log.lost[j] == InFlight(b.peers, j) + b.log.lost[j]
               && InFlight(b'.peers, j) <= InFlight(b.peers, j)
    ensures Shaped(b') && Accounted(b') && InBudget(b')
  {
    forall j: nat | j < b.total && j !in b.planned
      ensures b'.log.lost[j] == 0 && InFlight(b'.peers, j) == 0
    {
    }
  }

  function Marked(b: Book, peer: PeerID, bitmap: set<nat>, completed: bool): Book
    requires peer in b.peers
  {
    b.(peers := b.peers[peer := b.peers[peer].(bitmap := bitmap, completed := completed)])
  }

  lemma MarkedFits(b: Book, peer: PeerID, bitmap: set<nat>, completed: bool)
    requires PeersFit(b) && peer in b.peers && b.peers[peer].bitmap <= bitmap
    ensures PeersFit(Marked(b, peer, bitmap, completed))
  {
    var b' := Marked(b, peer, bitmap, completed);
    assert FitsPeer(b, b.peers[peer], b.log.settled[peer]);
    assert b'.log.settled == b.log.settled[peer := b.log.settled[peer]];
    PutPeerFits(b, peer, b'.peers[peer], b.log.settled[peer], b');
  }

  lemma MarkedFlight(b: Book, peer: PeerID, bitmap: set<nat>, completed: bool, j: nat)
    requires peer in b.peers
    ensures InFlight(Marked(b, peer, bitmap, completed).peers, j) == InFlight(b.peers, j)
  {
    InFlightPut(b.peers, peer, Marked(b, peer, bitmap, completed).peers[peer], j);
  }

  /** A peer's routing update or completion changes nothing that is counted. */
  lemma MarkedBalanced(b: Book, peer: PeerID, bitmap: set<nat>, completed: bool)
    requires Balanced(b) && peer in b.peers && b.peers[peer].bitmap <= bitmap
    ensures Balanced(Marked(b, peer, bitmap, completed))
  {
    var b' := Marked(b, peer, bitmap, completed);
    MarkedFits(b, peer, bitmap, completed);
    forall j: nat
      ensures InFlight(b'.peers, j) == InFlight(b.peers, j)
    {
      MarkedFlight(b, peer, bitmap, completed, j);
    }
    assert b'.peers.Keys == b.peers.Keys;
    LossAccounted(b, b');
  }

  // ---------------------------------------------------------------------------
  // Taking a chunk
  // ---------------------------------------------------------------------------

  /** A chunk not held yet is accepted from peer. */
  function Taken(b: Book, peer: PeerID, i: nat, data: Data, priority: nat): Book
    requires Shaped(b) && b.log.settled.Keys == b.peers.Keys && i < b.total
  {
    var have := b.have + {i};
    var done := |have| >= b.dataChunks;
    b.(chunks := b.chunks[i := Some(data)],
       have := have,
       planned := b.planned[i := EmitEntry(i, 0, 0, priority)],
       peers := if peer in b.peers then b.peers[peer := b.peers[peer].(bitmap := b.peers[peer].bitmap + {i})]
           else b.peers,
       complete := done,
       log := b.log.(settled := if peer in b.peers then b.log.settled[peer := b.log.settled[peer] + {i}]
           else b.log.settled,
                     accepts := b.log.accepts + 1,
                     completions := b.log.completions + if done then 1 else 0))
  }

  lemma TakenFlights(b: Book, peer: PeerID, i: nat, data: Data, priority: nat, j: nat)
    requires Shaped(b) && b.log.settled.Keys == b.peers.Keys && i < b.total
    ensures InFlight(Taken(b, peer, i, data, priority).peers, j) == InFlight(b.peers, j)
  {
    if peer in b.peers {
      InFlightPut(b.peers, peer, Taken(b, peer, i, data, priority).peers[peer], j);
    }
  }

  lemma TakenAccounted(b: Book, peer: PeerID, i: nat, data: Data, priority: nat)
    requires Shaped(b) && b.log.settled.Keys == b.peers.Keys && Accounted(b) && InBudget(b) && i < b.total
        && i !in b.planned
    ensures var b' := Taken(b, peer, i, data, priority); Shaped(b') && Accounted(b') && InBudget(b')
  {
    var b' := Taken(b, peer, i, data, priority);
    forall j: nat
      ensures InFlight(b'.peers, j) == InFlight(b.peers, j)
    {
      TakenFlights(b, peer, i, data, priority, j);
    }
    assert b'.peers.Keys == b.peers.Keys;
    assert |b'.peers| == |b.peers|;
  }

  lemma TakenFits(b: Book, peer: PeerID, i: nat, data: Data, priority: nat)
    requires Shaped(b) && PeersFit(b) && Accounted(b) && i < b.total && i !in b.planned
    ensures PeersFit(Taken(b, peer, i, data, priority))
  {
    var b' := Taken(b, peer, i, data, priority);
    if peer in b.peers {
      assert FitsPeer(b, b.peers[peer], b.log.settled[peer]);
      InFlightPut(b.peers, peer, b.peers[peer], i);
      assert b.peers[peer].inflight[i] == 0;
      PutPeerFits(b, peer, b'.peers[peer], b'.log.settled[peer], b');
    } else {
      forall p | p in b'.peers
        ensures FitsPeer(b', b'.peers[p], b'.log.settled[p])
      {
        assert FitsPeer(b, b.peers[p], b.log.settled[p]);
      }
    }
  }

  lemma TakenAgrees(b: Book, peer: PeerID, i: nat, data: Data, priority: nat)
    requires Shaped(b) && b.log.settled.Keys == b.peers.Keys && Agreeing(b) && Counted(b)
    requires i < b.total && b.chunks[i].None? && !b.complete && !b.isOrigin
    ensures Agreeing(Taken(b, peer, i, data, priority)) && Counted(Taken(b, peer, i, data, priority))
  {
    assert i !in b.have;
  }

  /** Only a relay lacks chunks. */
  lemma NeededIsRelay(b: Book, i: nat)
    requires Balanced(b) && i < b.total && b.chunks[i].None?
    ensures i !in b.have && i !in b.planned
    ensures b.isOrigin ==> false
  {
  }

  /** Accepting a chunk keeps the books balanced; the DataChunks-th one completes them. */
  lemma TakenBalanced(b: Book, peer: PeerID, i: nat, data: Data, priority: nat)
    requires Balanced(b) && i < b.total && b.chunks[i].None? && !b.complete && !b.isOrigin
    ensures Balanced(Taken(b, peer, i, data, priority))
  {
    assert i !in b.planned;
    TakenFits(b, peer, i, data, priority);
    TakenAgrees(b, peer, i, data, priority);
    TakenAccounted(b, peer, i, data, priority);
  }

  // ---------------------------------------------------------------------------
  // New books, and what balanced books say
  // ---------------------------------------------------------------------------

  function NewLog(total: nat): Log {
    Log(seq(total, _ => 0), seq(total, _ => 0), map[], 0, 0, 0)
  }

  lemma NewRelayBalanced(b: Book)
    requires !b.isOrigin && 0 < b.dataChunks <= b.total && b.forwardMultiplier > 0
    requires |b.chunks| == b.total && (forall i :: 0 <= i < b.total ==> b.chunks[i].None?)
    requires b.have == {} && b.planned == map[] && b.peers == map[] && !b.complete && b.log == NewLog(b.total)
    ensures Balanced(b)
  {
  }

  lemma NewOriginBalanced(b: Book)
    requires b.isOrigin && 0 < b.dataChunks <= b.total
    requires |b.chunks| == b.total && (forall i :: 0 <= i < b.total ==> b.chunks[i].Some?)
    requires forall i: nat :: i in b.have <==> i < b.total
    requires forall i :: i in b.planned <==> 0 <= i < b.total
    requires forall i :: i in b.planned ==> b.planned[i] == EmitEntry(i, 0, 0, 0)
    requires b.peers == map[] && !b.complete && b.log == NewLog(b.total)
    ensures Balanced(b)
  {
  }

  /** Allocations never fall below confirmed sends, and a relay's spending is bounded. */
  lemma BalancedMeans(b: Book, i: nat)
    requires Balanced(b) && i in b.planned
    ensures 0 <= b.planned[i].sent <= b.planned[i].times
    ensures !b.isOrigin ==> b.planned[i].sent + InFlight(b.peers, i) <= b.forwardMultiplier - 1 + b.log.maxPeers
    ensures !b.isOrigin && b.planned[i].sent >= b.forwardMultiplier ==>
              forall p :: p in b.peers ==> !Eligible(b, b.peers[p], b.planned[i])
  {
  }
}
