/** One peer connection's control and data loops over SESS streams and chunk slots. */
module PeerCtrl {
  // Stream and frame writes are assumed to succeed.

  import opened Basics
  import opened CtrlSpec
  import opened CtrlConvergence
  import opened CtrlDrain
  import opened CtrlOut

  type PeerID = string
  type Stream = nat   // SESS streams in the order they were opened

  datatype StreamEnd = Finished | Reconstructed

  datatype SlotUpdate = SlotUpdate(key: SessionKey, slot: Option<nat>)   // None removes the slot

  type Slots = map<SessionKey, nat>

  function ApplySlot(slots: Slots, update: SlotUpdate): Slots {
    if update.slot.Some? then slots[update.key := update.slot.value] else slots - {update.key}
  }

  function ApplySlots(slots: Slots, updates: seq<SlotUpdate>): Slots
    decreases |updates|
  {
    if updates == [] then slots
    else ApplySlot(ApplySlots(slots, updates[..|updates| - 1]), updates[|updates| - 1])
  }

  lemma {:induction false} ApplySlotsFirst(slots: Slots, updates: seq<SlotUpdate>)
    requires updates != []
    ensures ApplySlots(slots, updates) == ApplySlots(ApplySlot(slots, updates[0]), updates[1..])
    decreases |updates|
  {
    if |updates| > 1 {
      var front := updates[..|updates| - 1];
      ApplySlotsFirst(slots, front);
      assert front[1..] == updates[1..][..|updates| - 2];
    } else {
      assert updates[..0] == [] && updates[1..] == [];
    }
  }

  lemma ApplySlotsLast(slots: Slots, updates: seq<SlotUpdate>, update: SlotUpdate)
    ensures ApplySlots(slots, updates + [update]) == ApplySlot(ApplySlots(slots, updates), update)
  {
    assert (updates + [update])[..|updates|] == updates;
  }

  /** The outbox of every session the remote was told is open. */
  function Outboxes(told: Told): Slots {
    map key | key in told.sessions :: told.sessions[key].outbox
  }

  /** Every SESS stream opened so far is either held for one open key or was ended once. */
  ghost predicate Owned(sessions: map<SessionKey, Stream>, next: nat, ended: map<Stream, StreamEnd>, told: Told) {
    && sessions.Keys <= told.sessions.Keys
    && (forall k :: k in sessions ==> sessions[k] < next && sessions[k] !in ended)
    && (forall j, k :: j in sessions && k in sessions && sessions[j] == sessions[k] ==> j == k)
    && (forall stream :: stream in ended ==> stream < next)
    && (forall stream: nat :: stream < next && stream !in ended ==> stream in sessions.Values)
  }

  lemma OwnedAfterEnd(before: map<SessionKey, Stream>, next: nat, ended: map<Stream, StreamEnd>, told: Told,
                      key: SessionKey, how: StreamEnd)
    requires Owned(before, next, ended, told)
    ensures var ended' := if key in before then ended[before[key] := how] else ended;
            && Owned(before - {key}, next, ended', told)
            && Owned(before - {key}, next, ended', told.(sessions := told.sessions - {key}))
  {
    var ended' := if key in before then ended[before[key] := how] else ended;
    forall stream: nat | stream < next && stream !in ended'
      ensures stream in (before - {key}).Values
    {
      var k :| k in before && before[k] == stream;
      assert k in before - {key};
    }
  }

  lemma OwnedAfterOpen(before: map<SessionKey, Stream>, next: nat, ended: map<Stream, StreamEnd>, told: Told,
      opening: Opening)
    requires Owned(before, next, ended, told) && opening.key !in before
    ensures Owned(before[opening.key := next], next + 1, ended, Tell(told, OpenSession(opening)))
  {
    var after := before[opening.key := next];
    forall stream: nat | stream < next + 1 && stream !in ended
      ensures stream in after.Values
    {
      if stream == next {
        assert after[opening.key] == next;
      } else {
        var k :| k in before && before[k] == stream;
        assert k in after && after[k] == stream;
      }
    }
  }

  lemma Readded(m: map<SessionKey, nat>, key: SessionKey, stream: nat)
    ensures (m - {key})[key := stream] == m[key := stream]
  {
  }

  class PeerConn {
    const id: PeerID
    const ctrlState: CtrlOutState

    // Owned by the control loop.
    var sessions: map<SessionKey, Stream>
    var nextStream: nat
    ghost var ended: map<Stream, StreamEnd>

    var slotCh: seq<SlotUpdate>   // sent by the control loop, not yet received by the data loop

    // Owned by the data loop.
    var slots: Slots

    /** Once the data loop has caught up, its slots are exactly the open keys with their last outbox. */
    ghost predicate SlotsAgree(told: Told)
      reads this
    {
      ApplySlots(slots, slotCh) == Outboxes(told)
    }

    ghost predicate Valid()
      reads this, ctrlState
    {
      ctrlState.Valid() && Matches(ctrlState.w.told)
    }

    constructor (id: PeerID)
      ensures Valid() && fresh(ctrlState) && ctrlState.w == NEW_WORLD && this.id == id
    {
      this.id := id;
      ctrlState := new CtrlOutState();
      sessions, nextStream, slotCh, slots := map[], 0, [], map[];
      ended := map[];
    }

    /** The data loop receives one slot update. */
    method ReceiveSlot()
      requires Valid() && slotCh != []
      modifies `slotCh, `slots
      ensures Valid() && slotCh == old(slotCh)[1..] && slots == ApplySlot(old(slots), old(slotCh)[0])
    {
      ApplySlotsFirst(slots, slotCh);
      slots := ApplySlot(slots, slotCh[0]);
      slotCh := slotCh[1..];
    }

    /** Close or cancel a SESS stream this loop holds. */
    ghost method End(stream: Stream, how: StreamEnd)
      requires stream !in ended
      modifies `ended
      ensures ended == old(ended)[stream := how]
    {
      ended := ended[stream := how];
    }

    method SendSlot(update: SlotUpdate)
      modifies `slotCh
      ensures slotCh == old(slotCh) + [update]
    {
      slotCh := slotCh + [update];
    }

    /** What the loops hold matches what the remote was told. */
    ghost predicate Matches(told: Told)
      reads this
    {
      Owned(sessions, nextStream, ended, told) && SlotsAgree(told)
    }

    method HandleSessionOpen(opening: Opening, ghost told: Told)
      requires Matches(told)
      modifies `sessions, `nextStream, `slotCh, `ended
      ensures Matches(Tell(told, OpenSession(opening)))
      ensures sessions == old(sessions)[opening.key := old(nextStream)]
      ensures nextStream == old(nextStream) + 1
    {
      ClosePrevious(opening.key, told);
      OpenAgrees(told, opening, slots, old(slotCh), slotCh);
      OwnedAfterOpen(sessions, nextStream, ended, told, opening);
      sessions := sessions[opening.key := nextStream];
      nextStream := nextStream + 1;
      SendSlot(SlotUpdate(opening.key, Some(opening.outbox)));
      Readded(old(sessions), opening.key, old(nextStream));
    }

    /** An opening of a key whose stream is still held closes that stream first. */
    method ClosePrevious(key: SessionKey, ghost told: Told)
      requires Owned(sessions, nextStream, ended, told)
      modifies `sessions, `slotCh, `ended
      ensures Owned(sessions, nextStream, ended, told)
      ensures sessions == old(sessions) - {key}
      ensures key in old(sessions) ==>
        && ended == old(ended)[old(sessions)[key] := Finished]
        && slotCh == old(slotCh) + [SlotUpdate(key, None)]
      ensures key !in old(sessions) ==> ended == old(ended) && slotCh == old(slotCh)
    {
      OwnedAfterEnd(sessions, nextStream, ended, told, key, Finished);
      if key in sessions {
        End(sessions[key], Finished);
        sessions := sessions - {key};
        SendSlot(SlotUpdate(key, None));
      } else {
        assert sessions - {key} == sessions;
      }
    }

    method HandleSessionDone(key: SessionKey, ghost told: Told)
      requires Matches(told)
      modifies `sessions, `slotCh, `ended
      ensures Matches(Tell(told, CloseSession(key)))
      ensures sessions == old(sessions) - {key}
      ensures key in old(sessions) ==> ended == old(ended)[old(sessions)[key] := Finished]
      ensures key !in old(sessions) ==> ended == old(ended)
    {
      OwnedAfterEnd(sessions, nextStream, ended, told, key, Finished);
      DoneAgrees(told, key, slots, slotCh);
      if key in sessions {
        End(sessions[key], Finished);
      }
      sessions := sessions - {key};
      SendSlot(SlotUpdate(key, None));
    }

    method HandleStreamEnd(key: SessionKey, ghost told: Told)
      requires Matches(told)
      modifies `sessions, `ended
      ensures Matches(told)
      ensures sessions == old(sessions) - {key}
      ensures key in old(sessions) ==> ended == old(ended)[old(sessions)[key] := Reconstructed]
      ensures key !in old(sessions) ==> ended == old(ended)
    {
      OwnedAfterEnd(sessions, nextStream, ended, told, key, Reconstructed);
      if key in sessions {
        End(sessions[key], Reconstructed);
        sessions := sessions - {key};
      }
    }

    /** Carry out one transition. */
    method HandleCtrl(event: CtrlEvent, ghost told: Told)
      requires Matches(told)
      modifies `sessions, `nextStream, `slotCh, `ended
      ensures Matches(Tell(told, event))
    {
      match event {
        case OpenSession(opening) => HandleSessionOpen(opening, told);
        case CloseSession(key) => HandleSessionDone(key, told);
        case CloseStream(key) => HandleStreamEnd(key, told);
        case SendRouting(_, _) =>
        case Subscribe(_) =>
        case Unsubscribe(_) =>
      }
    }

    /** One turn of the control loop: take a transition and carry it out. */
    method CtrlTurn() returns (event: Option<CtrlEvent>)
      requires Valid()
      modifies this, ctrlState
      ensures Valid() && Step(old(ctrlState.w), Emit(event), ctrlState.w)
      ensures event.Some? ==> Sensible(old(ctrlState.w.told), event.value)
      ensures slots == old(slots)
    {
      ghost var told := ctrlState.w.told;
      event := ctrlState.Next();
      if event.Some? {
        NextSensible(old(ctrlState.w.s), told, event.value, ctrlState.w.s);
        HandleCtrl(event.value, told);
      }
    }

    /**
      * The inner loop of the control loop: turns until nothing is left. It takes exactly as many turns
      * as events are owed, and then the remote knows what was asked for.
      */
    method DrainCtrl() returns (ghost events: seq<CtrlEvent>)
      requires Valid() && !ctrlState.closed
      modifies this, ctrlState
      ensures Valid() && ctrlState.w.waiting && Converged(ctrlState.w)
      ensures ctrlState.w.wanted == old(ctrlState.w.wanted)
      ensures ctrlState.w.desired == old(ctrlState.w.desired) && ctrlState.w.orphans == old(ctrlState.w.orphans)
      ensures |events| == old(Work(ctrlState.Value()))
    {
      events := [];
      while true
        invariant Valid() && !ctrlState.closed
        invariant ctrlState.w.wanted == old(ctrlState.w.wanted)
        invariant ctrlState.w.desired == old(ctrlState.w.desired) && ctrlState.w.orphans == old(ctrlState.w.orphans)
        invariant |events| + Work(ctrlState.Value()) == old(Work(ctrlState.Value()))
        decreases Work(ctrlState.Value())
      {
        ghost var before := ctrlState.w.s;
        var event := CtrlTurn();
        NextTakesWork(before, event, ctrlState.w.s);
        if event.None? {
          NextNoneQuiet(before, ctrlState.w.s);
          NothingOwed(before, ctrlState.w.s);
          QuietConverged(ctrlState.w);
          return;
        }
        events := events + [event.value];
      }
    }
  }

  /** A slot is removed when its session is closed. */
  lemma DoneAgrees(told: Told, key: SessionKey, slots: Slots, before: seq<SlotUpdate>)
    requires ApplySlots(slots, before) == Outboxes(told)
    ensures ApplySlots(slots, before + [SlotUpdate(key, None)]) == Outboxes(Tell(told, CloseSession(key)))
  {
    ApplySlotsLast(slots, before, SlotUpdate(key, None));
  }

  /** A slot set after an optional removal of the same key. */
  lemma OpenAgrees(told: Told, opening: Opening, slots: Slots, before: seq<SlotUpdate>, removed: seq<SlotUpdate>)
    requires ApplySlots(slots, before) == Outboxes(told)
    requires removed == before || removed == before + [SlotUpdate(opening.key, None)]
    ensures ApplySlots(slots, removed + [SlotUpdate(opening.key, Some(opening.outbox))]) ==
            Outboxes(Tell(told, OpenSession(opening)))
  {
    ApplySlotsLast(slots, before, SlotUpdate(opening.key, None));
    ApplySlotsLast(slots, removed, SlotUpdate(opening.key, Some(opening.outbox)));
  }
}
