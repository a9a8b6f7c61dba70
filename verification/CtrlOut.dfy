/** The mutable outbound control state; see CtrlSpec for what each call does to its value. */
module CtrlOut {
  import opened Basics
  import opened CtrlSpec
  import opened CtrlConvergence

  class CtrlOutState {
    var closed: bool
    var ready: bool
    var channels: Channels
    var sessions: Sessions
    var nextOrder: nat

    /** The value of the object beside what was asked for and what the remote was told. */
    ghost var w: World

    function Value(): State
      reads this
    {
      State(closed, ready, channels, sessions, nextOrder)
    }

    ghost predicate Valid()
      reads this
    {
      w.s == Value() && Consistent(w)
    }

    /** Record that the call just made was a. */
    ghost method Record(a: Action)
      requires Consistent(w) && !a.Emit? && !a.Wake? && AfterCall(w, a).s == Value()
      requires a.Hello? ==> HelloFits(w.s, a.ids)
      modifies `w
      ensures Valid() && w == AfterCall(old(w), a)
    {
      CallConsistent(w, a, AfterCall(w, a));
      w := AfterCall(w, a);
    }

    constructor ()
      ensures Valid() && w == NEW_WORLD
    {
      closed, ready, channels, sessions, nextOrder := false, false, map[], map[], 0;
      w := NEW_WORLD;
    }

    /**
     * Record the channels the Hello carried. The state stays in step with what the remote was told if the
     * Hello fits, as it does on the engine's only call, on a new state.
     */
    method AnnounceInitial(ids: seq<ChannelID>)
      requires Valid()
      modifies this
      ensures Value() == RecordHello(old(Value()), ids)
      ensures HelloFits(old(Value()), ids) ==> Valid() && Step(old(w), Hello(ids), w)
    {
      if !closed {
        RecordAnnounced(ids);
      }
      if HelloFits(old(Value()), ids) {
        Record(Hello(ids));
      }
    }

    method RecordAnnounced(ids: seq<ChannelID>)
      modifies `channels
      ensures channels == (map id | id in ids :: ChannelOut(true, true, false)) + old(channels)
    {
      for i := 0 to |ids|
        invariant channels == (map id | id in ids[..i] :: ChannelOut(true, true, false)) + old(channels)
      {
        if ids[i] !in channels {
          channels := channels[ids[i] := ChannelOut(true, true, false)];
        }
        assert ids[..i + 1] == ids[..i] + [ids[i]];
      }
      assert ids[..|ids|] == ids;
    }

    method Announce(id: ChannelID, present: bool)
      requires Valid()
      modifies this
      ensures Valid() && Step(old(w), Action.Announce(id, present), w)
    {
      if closed {
        Record(Action.Announce(id, present));
        return;
      }
      var c := if id in channels then channels[id] else NO_CHANNEL;
      if present {
        if c.announced && !c.want {
          c := c.(retire := true);
        }
        channels := channels[id := c.(want := true)];
      } else {
        channels := channels[id := c.(want := false)];
        ForgetRouting(id);
      }
      Signal();
      Record(Action.Announce(id, present));
    }

    /** Drop the routing of every session of the channel. */
    method ForgetRouting(id: ChannelID)
      modifies `sessions
      ensures sessions == WithoutRouting(old(sessions), id)
    {
      var todo := sessions.Keys;
      while todo != {}
        invariant todo <= old(sessions).Keys == sessions.Keys
        invariant forall k :: k in sessions ==>
          sessions[k]
              == if k.channelID == id && k !in todo then old(sessions)[k].(routing := None) else old(sessions)[k]
        decreases |todo|
      {
        var key :| key in todo;
        todo := todo - {key};
        if key.channelID == id {
          sessions := sessions[key := sessions[key].(routing := None)];
        }
      }
    }

    method OpenSession(opening: Opening)
      requires Valid()
      modifies this
      ensures Valid() && Step(old(w), Open(opening), w)
    {
      if closed {
        Record(Open(opening));
        return;
      }
      var out := Session(opening.key);
      if out.close {
        out := out.(closeStream := false, routing := None, close := false);
      }
      sessions := sessions[opening.key := out.(pendingOpen := Some(opening))];
      Signal();
      assert Value() == RequestOpen(old(Value()), opening);
      Record(Open(opening));
    }

    method CloseSession(key: SessionKey)
      requires Valid()
      modifies this
      ensures Valid() && Step(old(w), Action.Close(key), w)
    {
      if closed {
        Record(Action.Close(key));
        return;
      }
      var out := Session(key);
      sessions := sessions[key := out.(close := true)];
      Signal();
      Record(Action.Close(key));
    }

    method CloseSessionStream(key: SessionKey)
      requires Valid()
      modifies this
      ensures Valid() && Step(old(w), EndStream(key), w)
    {
      if closed {
        Record(EndStream(key));
        return;
      }
      var out := Session(key);
      sessions := sessions[key := out.(closeStream := true)];
      Signal();
      Record(EndStream(key));
    }

    method SetRouting(key: SessionKey, update: Option<Bytes>) returns (accepted: bool)
      requires Valid()
      modifies this
      ensures Valid() && Step(old(w), Route(key, update), w)
      ensures accepted == old(AcceptsRouting(Value(), key))
    {
      if closed || key !in sessions {
        Record(Route(key, update));
        return false;
      }
      sessions := sessions[key := sessions[key].(routing := Some(RoutingBytes(update)))];
      Signal();
      Record(Route(key, update));
      return true;
    }

    /** The entry of key, created with the next number on first use. */
    method Session(key: SessionKey) returns (out: SessionOut)
      modifies `sessions, `nextOrder
      ensures out == old(Entry(Value(), key))
      ensures sessions == old(sessions)[key := out]
      ensures nextOrder == if key in old(sessions) then old(nextOrder) else old(nextOrder) + 1
    {
      if key !in sessions {
        nextOrder := nextOrder + 1;
        sessions := sessions[key := SessionOut(None, false, None, false, false, nextOrder)];
      }
      out := sessions[key];
    }

    method Signal()
      modifies `ready
      ensures ready
    {
      ready := true;
    }

    /** Range over the sessions in any order and keep the matching entry created first. */
    method FirstSession(matches: SessionOut -> bool) returns (first: Option<SessionKey>)
      ensures first.None? ==> NoSession(sessions, matches)
      ensures first.Some? ==> IsFirst(sessions, first.value, matches)
    {
      first := None;
      var todo := sessions.Keys;
      while todo != {}
        invariant todo <= sessions.Keys
        invariant first.None? ==> forall k :: k in sessions && k !in todo ==> !matches(sessions[k])
        invariant first.Some? ==> first.value in sessions && matches(sessions[first.value])
        invariant first.Some? ==> forall k :: k in sessions && k !in todo && matches(sessions[k]) ==>
          sessions[first.value].order <= sessions[k].order
        decreases |todo|
      {
        var candidate :| candidate in todo;
        todo := todo - {candidate};
        if matches(sessions[candidate])
           && (first.None? || sessions[candidate].order < sessions[first.value].order) {
          first := Some(candidate);
        }
      }
    }

    /** The first phase: drop doomed entries until an open one is found to close. */
    method NextClose() returns (event: Option<CtrlEvent>)
      requires Numbered(sessions)
      modifies `sessions
      ensures event.None? ==> NoSession(old(sessions), Closing) && sessions == Undoomed(old(sessions))
      ensures event.Some? ==>
        && event.value.CloseSession?
        && var key := event.value.key;
        && IsFirst(old(sessions), key, Closing)
        && sessions == AfterClose(Purged(old(sessions), old(sessions)[key].order), key)
    {
      while true
        invariant PartlyPurged(old(sessions), sessions)
        decreases |sessions|
      {
        var first := FirstSession(Closes);
        if first.None? {
          PurgeDone(old(sessions), sessions);
          return None;
        }
        var key := first.value;
        if !sessions[key].open {
          PurgeOne(old(sessions), sessions, key);
          sessions := sessions - {key};
          continue;
        }
        PurgeFound(old(sessions), sessions, key);
        event := Some(CtrlEvent.CloseSession(key));
        sessions := AfterClose(sessions, key);
        return;
      }
    }

    /** The second phase: drop dead channels until one is found to unsubscribe. */
    method NextUnsubscribe() returns (event: Option<CtrlEvent>)
      modifies `channels
      ensures event.None? ==> NoChannel(old(channels), Retires) && channels == Living(old(channels))
      ensures event.Some? ==> event.value.Unsubscribe? && Retired(old(channels), channels, event.value.id)
    {
      var todo := channels.Keys;
      while todo != {}
        invariant todo <= channels.Keys <= old(channels).Keys
        invariant forall id :: id in channels ==> channels[id] == old(channels)[id]
        invariant forall id :: id in old(channels) && id !in channels ==> Dead(old(channels)[id])
        invariant forall id :: id in channels && id !in todo ==> !Dead(channels[id]) && !Retires(channels[id])
        decreases |todo|
      {
        var id :| id in todo;
        todo := todo - {id};
        var out := channels[id];
        if Dead(out) {
          channels := channels - {id};
          continue;
        }
        if out.retire || (!out.want && out.announced) {
          channels := if out.want then channels[id := out.(announced := false, retire := false)] else channels - {id};
          return Some(Unsubscribe(id));
        }
      }
      event := None;
      assert channels == Living(old(channels));
    }

    /** The third phase: subscribe any wanted channel not announced yet. */
    method NextSubscribe() returns (event: Option<CtrlEvent>)
      modifies `channels
      ensures event.None? ==> NoChannel(channels, Joins) && channels == old(channels)
      ensures event.Some? ==>
        && event.value.Subscribe?
        && var id := event.value.id;
        && id in old(channels) && Joins(old(channels)[id])
        && channels == old(channels)[id := old(channels)[id].(announced := true)]
    {
      var todo := channels.Keys;
      while todo != {}
        invariant todo <= channels.Keys && channels == old(channels)
        invariant forall id :: id in channels && id !in todo ==> !Joins(channels[id])
        decreases |todo|
      {
        var id :| id in todo;
        todo := todo - {id};
        if channels[id].want && !channels[id].announced {
          channels := channels[id := channels[id].(announced := true)];
          return Some(Subscribe(id));
        }
      }
      event := None;
    }

    /** The last three phases: open, end a stream, send routing. */
    method NextSession() returns (event: Option<CtrlEvent>)
      requires forall k :: k in sessions && Opens(sessions[k]) ==> sessions[k].pendingOpen.value.key == k
      modifies `sessions
      ensures SessionEvent(old(Value()), old(sessions), event, Value())
    {
      var first := FirstSession(Opens);
      if first.Some? {
        var out := sessions[first.value];
        sessions := sessions[first.value := out.(pendingOpen := None, open := true)];
        return Some(CtrlEvent.OpenSession(out.pendingOpen.value));
      }
      first := FirstSession(EndsStream);
      if first.Some? {
        sessions := sessions[first.value := sessions[first.value].(closeStream := false)];
        return Some(CloseStream(first.value));
      }
      first := FirstSession(Routes);
      if first.Some? {
        var out := sessions[first.value];
        sessions := sessions[first.value := out.(routing := None)];
        return Some(SendRouting(first.value, out.routing.value));
      }
      return None;
    }

    method Next() returns (event: Option<CtrlEvent>)
      requires Valid()
      modifies this
      ensures Valid() && Step(old(w), Emit(event), w)
    {
      event := NextEvent();
      ghost var next := w.(s := Value(),
                           told := if event.Some? then Tell(w.told, event.value) else w.told,
                           waiting := event.None?);
      EmitConsistent(w, event, next);
      w := next;
    }

    method NextEvent() returns (event: Option<CtrlEvent>)
      requires CtrlSpec.Valid(Value())
      modifies `channels, `sessions
      ensures NextStep(old(Value()), event, Value())
    {
      if closed {
        return None;
      }
      event := NextClose();
      if event.Some? {
        return;
      }
      event := NextUnsubscribe();
      if event.Some? {
        return;
      }
      event := NextSubscribe();
      if event.Some? {
        LivingKeepsJoins(old(channels));
        return;
      }
      LivingKeepsJoins(old(channels));
      event := NextSession();
    }

    /** The control loop receives from the ready channel. */
    method AwaitReady()
      requires Valid() && w.waiting && ready
      modifies this
      ensures Valid() && Step(old(w), Wake, w)
    {
      ready := false;
      ghost var next := w.(s := w.s.(ready := false), waiting := false);
      CallConsistent(w, Wake, next);
      w := next;
    }

    method Close()
      requires Valid()
      modifies this
      ensures Valid() && Step(old(w), Stop, w)
    {
      closed := true;
      channels := map[];
      sessions := map[];
      Record(Stop);
    }
  }
}
