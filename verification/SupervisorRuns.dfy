/** What every run of a supervisor keeps: its slots, its streams and its view. */
module SupervisorRuns {
  import opened Basics
  import opened FamilySpec
  import opened SupervisorSpec
  import opened Wire

  /** Without a view its fields are clear; a held view has a direction and was offered. */
  ghost predicate FieldsOk(s: Sup) {
    && |s.queues| == |s.reading| == 2 && s.conn.Some? == s.outbound.Some?
    && (s.conn.None? ==> s.routes == map[] && s.handles == map[] && s.queues == [[], []] && s.reading == [0, 0])
    && (s.conn.Some? ==> s.conn.value in s.used)
  }

  ghost function Outstanding(taken: map<Stream, Slot>, c: Conn, d: nat): set<Stream> {
    set x | x in taken && taken[x] == Slot(c, d)
  }

  /** A direction's counter is the number of its header reads in progress on the current view. */
  ghost predicate SlotOk(s: Sup, d: nat)
    requires s.conn.Some? && d < |s.reading|
  {
    s.reading[d] == |Outstanding(s.taken, s.conn.value, d)| <= MAX_HEADER_READS
  }

  ghost predicate SlotsOk(s: Sup)
    requires |s.reading| == 2
  {
    && (s.conn.Some? ==> SlotOk(s, 0) && SlotOk(s, 1))
    && forall x :: x in s.taken ==> s.taken[x].conn in s.used && s.taken[x].dir < 2
  }

  ghost function Queued(s: Sup): seq<Stream>
    requires |s.queues| == 2
  {
    s.queues[0] + s.queues[1]
  }

  /** Every stream the view brought is queued, being read or settled: in one place only. */
  ghost predicate StreamsOk(s: Sup)
    requires |s.queues| == 2
  {
    && Distinct(Queued(s))
    && (forall x :: x in Queued(s) ==> x !in s.taken && x !in s.settled)
    && s.taken.Keys !! s.settled.Keys
    && (forall x :: x in s.seen <==> x in Queued(s) || x in s.taken || x in s.settled)
  }

  /** No stream waits for a free slot unless transport has signalled. */
  ghost predicate NoneWaits(s: Sup)
    requires |s.queues| == |s.reading| == 2
  {
    s.signal || forall d :: 0 <= d < 2 ==> s.reading[d] == MAX_HEADER_READS || s.queues[d] == []
  }

  ghost predicate Steady(s: Sup) {
    FieldsOk(s) && SlotsOk(s) && StreamsOk(s)
  }

  // ---------------------------------------------------------------------------
  // Reading headers
  // ---------------------------------------------------------------------------

  lemma OutstandingAdd(taken: map<Stream, Slot>, x: Stream, slot: Slot, c: Conn, d: nat)
    requires x !in taken
    ensures Outstanding(taken[x := slot], c, d) == Outstanding(taken, c, d) + (if slot == Slot(c, d) then {x} else {})
    ensures |Outstanding(taken[x := slot], c, d)| == |Outstanding(taken, c, d)| + (if slot == Slot(c, d) then 1 else 0)
  {
    assert Outstanding(taken[x := slot], c, d) == Outstanding(taken, c, d) + (if slot == Slot(c, d) then {x} else {});
  }

  lemma OutstandingRemove(taken: map<Stream, Slot>, x: Stream, c: Conn, d: nat)
    requires x in taken
    ensures |Outstanding(taken - {x}, c, d)| == |Outstanding(taken, c, d)| - (if taken[x] == Slot(c, d) then 1 else 0)
  {
    assert Outstanding(taken - {x}, c, d) == Outstanding(taken, c, d) - {x};
  }

  lemma TakeOneSlots(s: Sup, d: nat)
    requires FieldsOk(s) && SlotsOk(s) && s.conn.Some? && d < 2 && s.queues[d] != [] && s.reading[d] < MAX_HEADER_READS
    requires s.queues[d][0] !in s.taken
    ensures FieldsOk(TakeOne(s, d)) && SlotsOk(TakeOne(s, d))
  {
    var x, c := s.queues[d][0], s.conn.value;
    OutstandingAdd(s.taken, x, Slot(c, d), c, 0);
    OutstandingAdd(s.taken, x, Slot(c, d), c, 1);
  }

  lemma TakeOneStreams(s: Sup, d: nat)
    requires FieldsOk(s) && StreamsOk(s) && s.conn.Some? && d < 2 && s.queues[d] != []
    ensures StreamsOk(TakeOne(s, d))
  {
    var t, x := TakeOne(s, d), s.queues[d][0];
    var before, after := Queued(s), Queued(t);
    var k := if d == 0 then 0 else |s.queues[0]|;
    assert before[k] == x;
    assert after == before[..k] + before[k + 1..];
    DropOne(before, k);
  }

  lemma DropOne(q: seq<Stream>, k: nat)
    requires Distinct(q) && k < |q|
    ensures Distinct(q[..k] + q[k + 1..])
    ensures forall x :: x in q[..k] + q[k + 1..] <==> x in q && x != q[k]
  {
    var r := q[..k] + q[k + 1..];
    forall x | x in q && x != q[k]
      ensures x in r
    {
      var i :| 0 <= i < |q| && q[i] == x;
      assert if i < k then r[i] == x else r[i - 1] == x;
    }
  }

  /** Everything but what reading headers changes. */
  ghost function Rest(s: Sup): Sup {
    s.(queues := [], reading := [], taken := map[])
  }

  lemma {:induction false} ReadDirectionOk(s: Sup, d: nat)
    requires Steady(s) && s.conn.Some? && d < 2
    ensures var t := ReadDirection(s, d);
            && Steady(t) && Rest(t) == Rest(s)
            && t.queues[1 - d] == s.queues[1 - d] && t.reading[1 - d] == s.reading[1 - d]
            && (t.reading[d] == MAX_HEADER_READS || t.queues[d] == [])
    decreases |s.queues[d]|
  {
    if s.reading[d] < MAX_HEADER_READS && s.queues[d] != [] {
      QueuedIsFresh(s, d);
      TakeOneSlots(s, d);
      TakeOneStreams(s, d);
      ReadDirectionOk(TakeOne(s, d), d);
    }
  }

  lemma QueuedIsFresh(s: Sup, d: nat)
    requires FieldsOk(s) && StreamsOk(s) && d < 2 && s.queues[d] != []
    ensures s.queues[d][0] !in s.taken
  {
    assert s.queues[d][0] in Queued(s);
  }

  lemma ReadHeadersOk(s: Sup)
    requires Steady(s) && s.conn.Some?
    ensures var t := ReadHeaders(s);
            Steady(t) && NoneWaits(t) && Rest(t) == Rest(s)
  {
    var m := ReadDirection(s, 0);
    ReadDirectionOk(s, 0);
    ReadDirectionOk(m, 1);
  }

  // ---------------------------------------------------------------------------
  // Dropping a view, ending a read
  // ---------------------------------------------------------------------------

  lemma {:induction false} StopAllKeys(settled: map<Stream, Settled>, streams: seq<Stream>, code: Code)
    ensures forall x :: x in StopAll(settled, streams, code) <==> x in settled || x in streams
    ensures forall x :: x in settled && x !in streams ==> StopAll(settled, streams, code)[x] == settled[x]
    decreases |streams|
  {
    if streams != [] {
      StopAllKeys(settled[streams[0] := Stopped(code)], streams[1..], code);
      assert forall x :: x in streams <==> x == streams[0] || x in streams[1..];
    }
  }

  lemma DropViewOk(s: Sup, code: Code)
    requires Steady(s)
    ensures Steady(DropView(s, code)) && NoneWaits(DropView(s, code)) && DropView(s, code).conn.None?
    ensures forall x :: x in s.settled ==>
        x in DropView(s, code).settled && DropView(s, code).settled[x] == s.settled[x]
  {
    if s.conn.Some? {
      StopAllKeys(s.settled, Queued(s), CLOSING);
    }
  }

  lemma SettleOk(s: Sup, x: Stream, how: Settled)
    requires FieldsOk(s) && StreamsOk(s) && x in s.taken
    ensures FieldsOk(Settle(s, x, how)) && StreamsOk(Settle(s, x, how))
  {
  }

  /** Ending a read of another view leaves this view's counters exact. */
  lemma StaleSlots(s: Sup, x: Stream, how: Settled)
    requires FieldsOk(s) && SlotsOk(s) && x in s.taken && s.conn != Some(s.taken[x].conn)
    ensures SlotsOk(Settle(s, x, how))
  {
    if s.conn.Some? {
      OutstandingRemove(s.taken, x, s.conn.value, 0);
      OutstandingRemove(s.taken, x, s.conn.value, 1);
    }
  }

  /** Ending one of this view's reads frees exactly its slot. */
  lemma FreedSlot(s: Sup, x: Stream, how: Settled)
    requires FieldsOk(s) && SlotsOk(s) && x in s.taken && s.conn == Some(s.taken[x].conn)
    ensures s.taken[x].dir < 2 && s.reading[s.taken[x].dir] > 0
    ensures SlotsOk(Settle(Freed(s, s.taken[x].dir), x, how))
  {
    var c, d := s.conn.value, s.taken[x].dir;
    assert x in Outstanding(s.taken, c, d);
    OutstandingRemove(s.taken, x, c, d);
    OutstandingRemove(s.taken, x, c, 1 - d);
    var t := Settle(Freed(s, d), x, how);
    assert SlotOk(t, d);
    assert SlotOk(t, 1 - d);
  }
}
