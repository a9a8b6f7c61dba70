/** The Reed-Solomon strategy object: chunk storage, the emit planner and per-peer send state. */
module Strategy {
  import opened Basics
  import Bitmap
  import opened EmitPlanner
  import opened StrategySpec

  datatype RawPeer = RawPeer(bitmap: Bitmap.Bytes, inflight: seq<int>, completed: bool)

  function PeerOf(raw: RawPeer): PeerState {
    PeerState(Bitmap.Ones(raw.bitmap), raw.inflight, raw.completed)
  }

  function PeersOf(raw: map<PeerID, RawPeer>): Peers {
    map p | p in raw :: PeerOf(raw[p])
  }

  lemma PeersOfPut(raw: map<PeerID, RawPeer>, peer: PeerID, r: RawPeer)
    ensures PeersOf(raw[peer := r]) == PeersOf(raw)[peer := PeerOf(r)]
    ensures PeersOf(raw - {peer}) == PeersOf(raw) - {peer}
  {
  }

  /** rest is all without the skipped entries. */
  ghost predicate SkippedFrom(all: map<int, EmitEntry>, rest: map<int, EmitEntry>, skipped: seq<EmitEntry>) {
    && (forall id :: id in all ==> all[id].idx == id)
    && (forall id :: id in rest ==> id in all && rest[id] == all[id])
    && (forall id :: id in all && id !in rest ==> all[id] in skipped)
    && (forall k :: 0 <= k < |skipped| ==> skipped[k].idx in all && all[skipped[k].idx] == skipped[k])
  }

  lemma SkipOne(all: map<int, EmitEntry>, rest: map<int, EmitEntry>, skipped: seq<EmitEntry>, ec: EmitEntry)
    requires SkippedFrom(all, rest, skipped) && ec.idx in rest && rest[ec.idx] == ec
    ensures SkippedFrom(all, rest - {ec.idx}, skipped + [ec])
    ensures |rest - {ec.idx}| < |rest|
  {
    assert (rest - {ec.idx}).Keys == rest.Keys - {ec.idx};
  }

  lemma PutOne(all: map<int, EmitEntry>, rest: map<int, EmitEntry>, skipped: seq<EmitEntry>)
    requires SkippedFrom(all, rest, skipped) && skipped != []
    ensures SkippedFrom(all, rest[skipped[0].idx := skipped[0]], skipped[1..])
  {
    var ec := skipped[0];
    forall id | id in all && id !in rest[ec.idx := ec]
      ensures all[id] in skipped[1..]
    {
      var k :| 0 <= k < |skipped| && skipped[k] == all[id];
      assert k > 0 && skipped[1..][k - 1] == all[id];
    }
  }

  lemma PutAll(all: map<int, EmitEntry>, rest: map<int, EmitEntry>, skipped: seq<EmitEntry>)
    requires SkippedFrom(all, rest, skipped) && |skipped| == 0
    ensures rest == all
  {
    assert forall id :: id in all ==> id in rest;
    assert forall id :: id in rest ==> id in all && rest[id] == all[id];
  }

  ghost predicate NoneEligibleIn(skipped: seq<EmitEntry>, eligible: EmitEntry -> bool) {
    forall k :: 0 <= k < |skipped| ==> !eligible(skipped[k])
  }

  lemma OneMoreIneligible(skipped: seq<EmitEntry>, ec: EmitEntry, eligible: EmitEntry -> bool)
    requires NoneEligibleIn(skipped, eligible) && !eligible(ec)
    ensures NoneEligibleIn(skipped + [ec], eligible)
  {
  }

  /** The entry is planned, eligible and no entry is strictly below it. */
  ghost predicate OnTop(planned: map<int, EmitEntry>, ec: EmitEntry, eligible: EmitEntry -> bool) {
    && ec.idx in planned && planned[ec.idx] == ec && eligible(ec)
    && forall id :: id in planned ==> !LessEntry(planned[id], ec)
  }

  /** The entry on top, if the planner has one: it stays when it may be sent, and is popped when not. */
  method SkipTop(planner: EmitPlanner, eligible: EmitEntry -> bool) returns (top: Option<EmitEntry>, popped: bool)
    requires planner.Valid()
    modifies planner
    ensures planner.Valid()
    ensures popped ==>
      && top.Some? && top.value.idx in old(planner.Contents()) && old(planner.Contents())[top.value.idx] == top.value
      && !eligible(top.value) && planner.Contents() == old(planner.Contents()) - {top.value.idx}
    ensures !popped ==>
      && planner.Contents() == old(planner.Contents())
      && if top.None? then planner.Contents() == map[] else OnTop(planner.Contents(), top.value, eligible)
  {
    top := planner.Top();
    popped := false;
    if top.Some? && !eligible(top.value) {
      var ec := planner.PopFront();
      popped := true;
    }
  }

  /** Pop entries until an eligible one is on top. */
  method SkipIneligible(planner: EmitPlanner, eligible: EmitEntry -> bool) returns (found: Option<EmitEntry>,
      skipped: seq<EmitEntry>)
    requires planner.Valid()
    modifies planner
    ensures planner.Valid() && SkippedFrom(old(planner.Contents()), planner.Contents(), skipped)
    ensures NoneEligibleIn(skipped, eligible)
    ensures found.None? ==> planner.Contents() == map[]
    ensures found.Some? ==> OnTop(planner.Contents(), found.value, eligible)
  {
    ghost var all := planner.Contents();
    found, skipped := None, [];
    var popped := true;
    while popped
      invariant planner.Valid() && SkippedFrom(all, planner.Contents(), skipped)
      invariant NoneEligibleIn(skipped, eligible)
      invariant popped
          || if found.None? then planner.Contents() == map[] else OnTop(planner.Contents(), found.value, eligible)
      decreases popped, |planner.Contents()|
    {
      ghost var rest := planner.Contents();
      found, popped := SkipTop(planner, eligible);
      if popped {
        SkipOne(all, rest, skipped, found.value);
        OneMoreIneligible(skipped, found.value, eligible);
        skipped := skipped + [found.value];
      }
    }
  }

  /** Insert the skipped entries again. */
  method PutBack(planner: EmitPlanner, skipped: seq<EmitEntry>, ghost all: map<int, EmitEntry>)
    requires planner.Valid() && SkippedFrom(all, planner.Contents(), skipped)
    modifies planner
    ensures planner.Valid() && planner.Contents() == all
  {
    for k := 0 to |skipped|
      invariant planner.Valid() && SkippedFrom(all, planner.Contents(), skipped[k..])
    {
      PutOne(all, planner.Contents(), skipped[k..]);
      assert skipped[k..][1..] == skipped[k + 1..];
      planner.Insert(skipped[k]);
    }
    PutAll(all, planner.Contents(), skipped[|skipped|..]);
  }

  /** The planner is left as it was, and the entry found is the least eligible one. */
  method FindEligible(planner: EmitPlanner, eligible: EmitEntry -> bool) returns (found: Option<EmitEntry>)
    requires planner.Valid()
    modifies planner
    ensures planner.Valid() && planner.Contents() == old(planner.Contents())
    ensures found.None? ==> forall id :: id in planner.Contents() ==> !eligible(planner.Contents()[id])
    ensures found.Some? ==>
      && found.value.idx in planner.Contents() && planner.Contents()[found.value.idx] == found.value
      && eligible(found.value)
      && forall id :: id in planner.Contents() && eligible(planner.Contents()[id]) ==>
           !LessEntry(planner.Contents()[id], found.value)
  {
    var skipped;
    found, skipped := SkipIneligible(planner, eligible);
    PutBack(planner, skipped, old(planner.Contents()));
  }

  datatype Verdict = Accepted | Redundant | Invalid

  class Strategy {
    const isOrigin: bool
    const totalChunks: nat
    const dataChunks: nat
    const forwardMultiplier: nat
    const chunkPriority: nat -> nat

    var chunks: seq<Option<Data>>
    var have: Bitmap.Bytes
    const planner: EmitPlanner
    var peers: map<PeerID, RawPeer>
    var complete: bool

    /** The books these fields keep, with their history. */
    ghost var book: Book

    ghost predicate Sized()
      reads this
    {
      && |have| == Bitmap.DivCeil(totalChunks, 8)
      && forall p :: p in peers ==> |peers[p].bitmap| == |have|
    }

    ghost predicate Tied()
      reads this, planner
    {
      && planner.Valid() && Sized()
      && book == Book(isOrigin, totalChunks, dataChunks, forwardMultiplier, chunks, Bitmap.Ones(have),
          planner.Contents(),
                      PeersOf(peers), complete, book.log)
    }

    ghost predicate Valid()
      reads this, planner
    {
      Tied() && Balanced(book)
    }

    /** A relay session: nothing is held. A non-positive multiplier means 4. */
    constructor Relay(total: nat, data: nat, multiplier: int, priority: nat -> nat)
      requires 0 < data <= total
      ensures Valid() && fresh(planner) && !isOrigin && totalChunks == total && dataChunks == data
      ensures forwardMultiplier == (if multiplier <= 0 then 4 else multiplier)
      ensures book.have == {} && peers == map[] && !complete
    {
      isOrigin, totalChunks, dataChunks := false, total, data;
      forwardMultiplier := if multiplier <= 0 then 4 else multiplier;
      chunkPriority := priority;
      chunks := seq(total, _ => None);
      have := Bitmap.Zeros(total);
      planner := new EmitPlanner();
      peers, complete := map[], false;
      new;
      book := Book(false, total, data, forwardMultiplier, chunks, {}, map[], map[], false, NewLog(total));
      NewRelayBalanced(book);
    }

    /** An origin session holds every chunk from the start. */
    constructor Origin(shards: seq<Data>, data: nat)
      requires 0 < data <= |shards|
      ensures Valid() && fresh(planner) && isOrigin && totalChunks == |shards| && dataChunks == data
      ensures peers == map[] && !complete && forall i :: 0 <= i < |shards| ==> chunks[i] == Some(shards[i])
    {
      var total := |shards|;
      isOrigin, totalChunks, dataChunks, forwardMultiplier := true, total, data, 0;
      chunkPriority := _ => 0;
      chunks := seq(total, i requires 0 <= i < total => Some(shards[i]));
      var ones := Bitmap.AllOnes(total);
      have := ones[..];
      var emit := new EmitPlanner();
      for i := 0 to total
        invariant fresh(emit) && emit.Valid()
        invariant forall id :: id in emit.Contents() <==> 0 <= id < i
        invariant forall id :: id in emit.Contents() ==> emit.Contents()[id] == EmitEntry(id, 0, 0, 0)
      {
        emit.Insert(EmitEntry(i, 0, 0, 0));
      }
      planner := emit;
      peers, complete := map[], false;
      new;
      book := Book(true, total, data, 0, chunks, Bitmap.Ones(have), planner.Contents(), map[], false, NewLog(total));
      NewOriginBalanced(book);
    }

    /** Search the planner for a chunk to send to an attached peer. */
    method Choose(peer: PeerID) returns (found: Option<EmitEntry>)
      requires Tied() && peer in peers
      modifies planner
      ensures Tied()
      ensures found.None? ==> NoneEligible(book, peer)
      ensures found.Some? ==> LeastEligible(book, peer, found.value.idx)
    {
      var raw := peers[peer];
      var origin, budget := isOrigin, forwardMultiplier;
      var eligible := (ec: EmitEntry) =>
        0 <= ec.idx < |raw.inflight| && !Bitmap.Get(raw.bitmap, ec.idx) && raw.inflight[ec.idx] <= 0
        && !(!origin && ec.sent >= budget);
      assert forall ec :: eligible(ec) == Eligible(book, book.peers[peer], ec);
      found := FindEligible(planner, eligible);
    }

    /** Mark chunk i in flight to the peer and count the allocation. */
    method MarkAllocated(peer: PeerID, i: nat)
      requires Tied() && peer in peers && i < |peers[peer].inflight| && i in planner.Contents()
      modifies `peers, `book, planner
      ensures Tied() && book == Allocated(old(book), peer, i)
    {
      var raw := peers[peer].(inflight := peers[peer].inflight[i := peers[peer].inflight[i] + 1]);
      PeersOfPut(peers, peer, raw);
      peers := peers[peer := raw];
      planner.Increment(i);
      book := Allocated(book, peer, i);
    }

    /** Choose the least eligible chunk for an attached peer, if there is one, and mark it in flight. */
    method Allocate(peer: PeerID) returns (chosen: Option<Dispatch>)
      requires Valid() && peer in peers
      modifies `peers, `book, planner
      ensures Valid()
      ensures chosen.None? ==> book == old(book) && NoneEligible(book, peer)
      ensures chosen.Some? ==>
        && var i := chosen.value.chunk;
        && chosen.value.peer == peer && LeastEligible(old(book), peer, i)
        && book == Allocated(old(book), peer, i)
        && i < |old(book).chunks| && old(book).chunks[i] == Some(chosen.value.data)
    {
      var found := Choose(peer);
      if found.None? {
        return None;
      }
      var i := found.value.idx;
      AllocatedBalanced(book, peer, i);
      chosen := Some(Dispatch(peer, i, chunks[i].value));
      MarkAllocated(peer, i);
    }

    /** Range over the peers and allocate at most one chunk to each that still wants some. */
    method PollChunks() returns (dispatches: seq<Dispatch>)
      requires Valid()
      modifies `peers, `book, planner
      ensures Valid() && book.peers.Keys == old(book.peers.Keys)
      ensures Dispatched(old(book), dispatches, book)
      ensures Polled(book, book.peers.Keys, dispatches)
    {
      dispatches := PollEach(book);
      DispatchedBalanced(old(book), dispatches, book);
    }

    method PollEach(ghost first: Book) returns (dispatches: seq<Dispatch>)
      requires Tied() && Balanced(first) && book == first
      modifies `peers, `book, planner
      ensures Tied() && book.peers.Keys == first.peers.Keys
      ensures Dispatched(first, dispatches, book) && Polled(book, book.peers.Keys, dispatches)
    {
      dispatches := [];
      var todo := peers.Keys;
      ghost var all := todo;
      PollingStarts(book);
      while todo != {}
        invariant Tied() && Polling(first, book, all, todo, dispatches)
        decreases |todo|
      {
        dispatches, todo := PollNext(todo, dispatches, first, all);
      }
      PollingEnds(first, book, all, dispatches);
    }

    method PollNext(todo: set<PeerID>, dispatches: seq<Dispatch>, ghost first: Book, ghost all: set<PeerID>)
      returns (more: seq<Dispatch>, left: set<PeerID>)
      requires Tied() && Balanced(first) && todo != {} && Polling(first, book, all, todo, dispatches)
      modifies `peers, `book, planner
      ensures Tied() && Polling(first, book, all, left, more) && |left| < |todo|
    {
      DispatchedBalanced(first, dispatches, book);
      var peer :| peer in todo;
      OneLess(all, todo, peer);
      more := PollPeer(peer, all - todo, dispatches, first);
      left := todo - {peer};
    }

    method PollPeer(peer: PeerID, ghost done: set<PeerID>, dispatches: seq<Dispatch>, ghost first: Book)
      returns (all: seq<Dispatch>)
      requires Valid() && peer in book.peers && peer !in done
      requires Dispatched(first, dispatches, book) && Polled(book, done, dispatches)
      modifies `peers, `book, planner
      ensures Valid() && book.peers.Keys == old(book.peers.Keys)
      ensures Dispatched(first, all, book) && Polled(book, done + {peer}, all)
    {
      if peers[peer].completed {
        PolledNone(book, done, dispatches, peer);
        return dispatches;
      }
      var chosen := Allocate(peer);
      if chosen.None? {
        PolledNone(book, done, dispatches, peer);
        return dispatches;
      }
      AllocatedBalanced(old(book), peer, chosen.value.chunk);
      AllocatedFits(old(book), peer, chosen.value.chunk);
      DispatchedSnoc(first, dispatches, old(book), chosen.value);
      PolledOne(old(book), done, dispatches, chosen.value);
      return dispatches + [chosen.value];
    }

    /** The outcome of a send. Reports for unknown peers, bad handles or nothing in flight are ignored. */
    method ChunkSent(peer: PeerID, handle: int, ok: bool)
      requires Valid()
      modifies `peers, `book, planner
      ensures Valid()
      ensures if peer in old(peers) && 0 <= handle < totalChunks && old(book).peers[peer].inflight[handle] > 0
              then handle in old(book).planned && handle !in old(book).log.settled[peer]
                  && book == Sent(old(book), peer, handle, ok)
              else book == old(book)
    {
      if peer !in peers || handle < 0 || handle >= totalChunks {
        return;
      }
      assert FitsPeer(book, book.peers[peer], book.log.settled[peer]);
      if peers[peer].inflight[handle] <= 0 {
        return;
      }
      FlyingIsPlanned(book, peer, handle);
      SentBalanced(book, peer, handle, ok);
      MarkSent(peer, handle, ok);
    }

    method MarkSent(peer: PeerID, i: nat, ok: bool)
      requires Tied() && Shaped(book) && peer in peers && peer in book.log.settled
      requires i < totalChunks == |peers[peer].inflight| && i in planner.Contents()
      modifies `peers, `book, planner
      ensures Tied() && book == Sent(old(book), peer, i, ok)
    {
      ghost var next := Sent(book, peer, i, ok);
      CountSent(i, ok, next.planned);
      var raw := LandedRaw(peers[peer], i, ok);
      PutPeer(peer, raw, next);
    }

    /** A success adds to Sent, on relays only; a failure takes the allocation back. */
    method CountSent(i: nat, ok: bool, ghost planned: map<int, EmitEntry>)
      requires Tied() && i in planner.Contents()
      requires planned == if ok then (if isOrigin then book.planned
          else book.planned[i := book.planned[i].(sent := book.planned[i].sent + 1)])
                          else book.planned[i := book.planned[i].(times := book.planned[i].times - 1)]
      modifies `book, planner
      ensures Tied() && book == old(book).(planned := planned)
    {
      if ok {
        if !isOrigin {
          planner.AddSent(i, 1);
        }
      } else {
        planner.Decrement(i);
      }
      book := book.(planned := planned);
    }

    /** Replace the state of one peer. */
    method PutPeer(peer: PeerID, raw: RawPeer, ghost next: Book)
      requires Tied() && |raw.bitmap| == |have|
      requires next == book.(peers := book.peers[peer := PeerOf(raw)], log := next.log)
      modifies `peers, `book
      ensures Tied() && book == next && peers == old(peers)[peer := raw]
    {
      PeersOfPut(peers, peer, raw);
      peers := peers[peer := raw];
      book := next;
    }

    method AttachPeer(peer: PeerID)
      requires Valid()
      modifies `peers, `book
      ensures Valid() && book == Attached(old(book), peer)
    {
      AttachedBalanced(book, peer);
      var raw := RawPeer(Bitmap.Zeros(totalChunks), seq(totalChunks, _ => 0), false);
      PutPeer(peer, raw, Attached(book, peer));
    }

    method DropPeer(peer: PeerID, ghost next: Book)
      requires Tied() && next == book.(peers := book.peers - {peer}, log := next.log)
      modifies `peers, `book
      ensures Tied() && book == next
    {
      PeersOfPut(peers, peer, RawPeer([], [], false));
      peers := peers - {peer};
      book := next;
    }

    /** A completed peer stays; any other is forgotten, with whatever was in flight to it. */
    method DetachPeer(peer: PeerID, completed: bool)
      requires Valid()
      modifies `peers, `book
      ensures Valid()
      ensures book == if peer !in old(book).peers then old(book)
                      else if completed then Marked(old(book), peer, old(book).peers[peer].bitmap, true)
                      else Detached(old(book), peer)
    {
      if peer !in peers {
        return;
      }
      if completed {
        MarkedBalanced(book, peer, book.peers[peer].bitmap, true);
        PutPeer(peer, peers[peer].(completed := true), Marked(book, peer, book.peers[peer].bitmap, true));
        return;
      }
      DetachedBalanced(book, peer);
      DropPeer(peer, Detached(book, peer));
    }

    /** Merge the chunks a peer says it has, and return the sends in flight to it that are now redundant. */
    method RoutingUpdate(peer: PeerID, update: Option<Bitmap.Bytes>) returns (cancel: seq<nat>)
      requires Valid()
      modifies `peers, `book
      ensures Valid()
      ensures peer !in old(book).peers ==> cancel == [] && book == old(book)
      ensures peer in old(book).peers ==>
        && book == Marked(old(book), peer, old(book).peers[peer].bitmap + ToldChunks(update, |have|),
            old(book).peers[peer].completed)
        && (forall i: nat :: i in cancel <==>
            i < |book.peers[peer].inflight| && book.peers[peer].inflight[i] > 0
            && i in book.peers[peer].bitmap)
        && (forall j, k :: 0 <= j < k < |cancel| ==> cancel[j] < cancel[k])
    {
      cancel := [];
      if peer !in peers {
        return;
      }
      var raw := Merged(peers[peer], update);
      ghost var bitmap := book.peers[peer].bitmap + ToldChunks(update, |have|);
      MarkedBalanced(book, peer, bitmap, raw.completed);
      PutPeer(peer, raw, Marked(book, peer, bitmap, raw.completed));
      cancel := RedundantSends(raw);
    }

    /**
      * Accept a chunk that is new and needed. completed is reported by exactly one call: the one that
      * accepts the DataChunks-th chunk.
      */
    method TakeChunk(peer: PeerID, idx: int, data: Data) returns (verdict: Verdict, completed: bool)
      requires Valid()
      modifies `chunks, `have, `peers, `complete, `book, planner
      ensures Valid()
      ensures verdict == if idx < 0 || idx >= totalChunks then Invalid
                         else if old(complete) || old(chunks)[idx].Some? then Redundant else Accepted
      ensures verdict != Accepted ==> !completed && book == old(book)
      ensures verdict == Accepted ==>
        && Shaped(old(book)) && old(book).log.settled.Keys == old(book).peers.Keys
        && book == Taken(old(book), peer, idx, data, chunkPriority(idx))
        && completed == complete == (book.log.accepts == dataChunks)
    {
      if idx < 0 || idx >= totalChunks {
        return Invalid, false;
      }
      if complete {
        return Redundant, false;
      }
      if chunks[idx].Some? {
        return Redundant, false;
      }
      NeededIsRelay(book, idx);
      TakenBalanced(book, peer, idx, data, chunkPriority(idx));
      Store(peer, idx, data);
      return Accepted, complete;
    }

    method Store(peer: PeerID, i: nat, data: Data)
      requires Tied() && Shaped(book) && book.log.settled.Keys == book.peers.Keys && i < totalChunks
      modifies `chunks, `have, `peers, `complete, `book, planner
      ensures Tied() && book == Taken(old(book), peer, i, data, chunkPriority(i))
    {
      ghost var next := Taken(book, peer, i, data, chunkPriority(i));
      chunks := chunks[i := Some(data)];
      Bitmap.WithBitOnes(have, i);
      have := Bitmap.WithBit(have, i);
      planner.Insert(EmitEntry(i, 0, 0, chunkPriority(i)));
      var count := Bitmap.OnesCount(have);
      complete := count >= dataChunks;
      book := next.(peers := book.peers);
      if peer in peers {
        Bitmap.WithBitOnes(peers[peer].bitmap, i);
        PutPeer(peer, peers[peer].(bitmap := Bitmap.WithBit(peers[peer].bitmap, i)), next);
      }
    }
  }

  /** A preamble as a peer sent it; hashes is how many chunk hashes it lists. */
  datatype Preamble = Preamble(dataChunks: int, parityChunks: int, hashes: nat)

  /** A relay is created for a well-formed preamble only. */
  method NewRelay(preamble: Option<Preamble>, multiplier: int, priority: nat -> nat) returns (s: Option<Strategy>)
    ensures s.Some? <==> preamble.Some? && preamble.value.dataChunks > 0 && preamble.value.parityChunks >= 0
                         && preamble.value.hashes == preamble.value.dataChunks + preamble.value.parityChunks
    ensures s.Some? ==> fresh(s.value) && fresh(s.value.planner) && s.value.Valid() && !s.value.isOrigin
    ensures s.Some? ==> s.value.dataChunks == preamble.value.dataChunks && s.value.totalChunks == preamble.value.hashes
  {
    if preamble.None? {
      return None;
    }
    var p := preamble.value;
    if p.dataChunks <= 0 || p.parityChunks < 0 || p.hashes != p.dataChunks + p.parityChunks {
      return None;
    }
    var relay := new Strategy.Relay(p.hashes, p.dataChunks, multiplier, priority);
    return Some(relay);
  }

  lemma OneLess(all: set<PeerID>, todo: set<PeerID>, peer: PeerID)
    requires todo <= all && peer in todo
    ensures all - (todo - {peer}) == all - todo + {peer} && |todo - {peer}| < |todo|
  {
  }

  /** The peers left to visit are todo; the others were offered a chunk. */
  ghost predicate Polling(first: Book, b: Book, all: set<PeerID>, todo: set<PeerID>, dispatches: seq<Dispatch>) {
    && b.peers.Keys == all && todo <= all
    && Dispatched(first, dispatches, b) && Polled(b, all - todo, dispatches)
  }

  lemma PollingStarts(b: Book)
    ensures Polling(b, b, b.peers.Keys, b.peers.Keys, [])
  {
    assert b.peers.Keys - b.peers.Keys == {};
  }

  lemma PollingEnds(first: Book, b: Book, all: set<PeerID>, dispatches: seq<Dispatch>)
    requires Polling(first, b, all, {}, dispatches)
    ensures Polled(b, b.peers.Keys, dispatches)
  {
    assert all - {} == all;
  }

  /** The indices an update covers; bits past the end of a bitmap of n bytes are ignored. */
  function ToldChunks(update: Option<Bitmap.Bytes>, n: nat): set<nat> {
    if update.Some? then set i | i in Bitmap.Ones(update.value) && i < n * 8 else {}
  }

  method Merged(raw: RawPeer, update: Option<Bitmap.Bytes>) returns (r: RawPeer)
    ensures r == raw.(bitmap := r.bitmap) && |r.bitmap| == |raw.bitmap|
    ensures Bitmap.Ones(r.bitmap) == Bitmap.Ones(raw.bitmap) + ToldChunks(update, |raw.bitmap|)
  {
    r := raw;
    if update.Some? {
      Bitmap.OrBytesOnes(raw.bitmap, update.value);
      r := raw.(bitmap := Bitmap.OrBytes(raw.bitmap, update.value));
    }
  }

  /** The state of a peer after a send of chunk i to it ended. */
  method LandedRaw(raw: RawPeer, i: nat, ok: bool) returns (r: RawPeer)
    requires i < |raw.inflight| && i < |raw.bitmap| * 8
    ensures |r.bitmap| == |raw.bitmap| && PeerOf(r) == Landed(PeerOf(raw), i, ok)
  {
    r := raw.(inflight := raw.inflight[i := raw.inflight[i] - 1]);
    if ok {
      Bitmap.WithBitOnes(raw.bitmap, i);
      r := r.(bitmap := Bitmap.WithBit(raw.bitmap, i));
    } else {
      Bitmap.WithoutBitOnes(raw.bitmap, i);
      r := r.(bitmap := Bitmap.WithoutBit(raw.bitmap, i));
    }
  }

  /** The chunks in flight to a peer that has them. */
  method RedundantSends(raw: RawPeer) returns (cancel: seq<nat>)
    ensures forall i: nat :: i in cancel <==> i < |raw.inflight| && raw.inflight[i] > 0 && i in Bitmap.Ones(raw.bitmap)
    ensures forall j, k :: 0 <= j < k < |cancel| ==> cancel[j] < cancel[k]
  {
    cancel := [];
    for idx := 0 to |raw.inflight|
      invariant forall i: nat :: i in cancel <==> i < idx && raw.inflight[i] > 0 && i in Bitmap.Ones(raw.bitmap)
      invariant forall j, k :: 0 <= j < k < |cancel| ==> cancel[j] < cancel[k]
    {
      if raw.inflight[idx] > 0 && Bitmap.Get(raw.bitmap, idx) {
        assert forall j :: 0 <= j < |cancel| ==> cancel[j] in cancel;
        cancel := cancel + [idx];
      }
    }
  }
}
