/** A full drain of one peer's outbound control state, for any map iteration order. */
module CtrlDrain {
  import opened Basics
  import opened CtrlSpec
  import opened CtrlConvergence

  /** Repeated Next from s can return exactly events and then nothing, leaving t. */
  ghost predicate Drains(s: State, events: seq<CtrlEvent>, t: State)
    decreases |events|
  {
    if events == [] then NextStep(s, None, t)
    else exists m :: NextStep(s, Some(events[0]), m) && Drains(m, events[1..], t)
  }

  function TellAll(told: Told, events: seq<CtrlEvent>): Told
    decreases |events|
  {
    if events == [] then told else TellAll(Tell(told, events[0]), events[1..])
  }

  // ---------------------------------------------------------------------------
  // Convergence
  // ---------------------------------------------------------------------------

  lemma AwakeConsistent(w: World)
    requires Consistent(w)
    ensures Consistent(w.(waiting := false))
  {
    var awake := w.(waiting := false);
    forall key: SessionKey | Agrees(w, key)
      ensures Agrees(awake, key)
    {
    }
  }

  lemma {:induction false} DrainConsistent(w: World, events: seq<CtrlEvent>, t: State)
    requires Consistent(w) && !w.s.closed && Drains(w.s, events, t)
    ensures Consistent(w.(s := t, told := TellAll(w.told, events), waiting := false))
    ensures Quiet(t) && !t.closed
    decreases |events|
  {
    var awake := w.(waiting := false);
    AwakeConsistent(w);
    if events == [] {
      EmitConsistent(awake, None, awake.(s := t, waiting := true));
      AwakeConsistent(awake.(s := t, waiting := true));
      NextNoneQuiet(w.s, t);
      NextFrame(w.s, None, t);
    } else {
      var m :| NextStep(w.s, Some(events[0]), m) && Drains(m, events[1..], t);
      var w1 := awake.(s := m, told := Tell(w.told, events[0]));
      EmitConsistent(awake, Some(events[0]), w1);
      NextFrame(w.s, Some(events[0]), m);
      DrainConsistent(w1, events[1..], t);
    }
  }

  /** After a drain the remote knows what was asked for. */
  lemma DrainConverges(w: World, events: seq<CtrlEvent>, t: State)
    requires Consistent(w) && !w.s.closed && Drains(w.s, events, t)
    ensures Converged(w.(told := TellAll(w.told, events)))
  {
    DrainConsistent(w, events, t);
    QuietConverged(w.(s := t, told := TellAll(w.told, events), waiting := false));
  }

  /** The same, for every state of every run: the lossy queue agrees with the maps it replaces. */
  lemma RunThenDrainConverges(worlds: seq<World>, actions: seq<Action>,
                              n: nat, events: seq<CtrlEvent>, t: State)
    requires IsRun(worlds, actions) && n < |worlds|
    requires !worlds[n].s.closed && Drains(worlds[n].s, events, t)
    ensures Converged(worlds[n].(told := TellAll(worlds[n].told, events)))
  {
    RunConsistent(worlds, actions, n);
    DrainConverges(worlds[n], events, t);
  }

  /** A wake is never lost: a control loop that waits without a token has nothing to send. */
  lemma NoLostWake(worlds: seq<World>, actions: seq<Action>, n: nat)
    requires IsRun(worlds, actions) && n < |worlds|
    requires worlds[n].waiting && !worlds[n].s.ready
    ensures forall event, s' :: NextStep(worlds[n].s, event, s') ==> event == None
  {
    RunConsistent(worlds, actions, n);
  }

  // ---------------------------------------------------------------------------
  // What a drain emits
  // ---------------------------------------------------------------------------

  function One(b: bool, event: CtrlEvent): seq<CtrlEvent> { if b then [event] else [] }

  /** The events a drain emits for one session entry, in order. */
  function EntryEvents(key: SessionKey, out: SessionOut): seq<CtrlEvent> {
    if Doomed(out) then []
    else
      One(out.close, CloseSession(key))
      + (if Opens(out) then [OpenSession(out.pendingOpen.value)] else [])
      + if Opens(out) || (!out.close && out.open) then
          One(out.closeStream, CloseStream(key))
          + (if out.routing.Some? then [SendRouting(key, out.routing.value)] else [])
        else []
  }

  function KeyEvents(s: State, key: SessionKey): seq<CtrlEvent> {
    if key in s.sessions then EntryEvents(key, s.sessions[key]) else []
  }

  /** The events a drain emits for one channel, in order. */
  function ChannelOutEvents(id: ChannelID, c: ChannelOut): seq<CtrlEvent> {
    One(Retires(c), Unsubscribe(id)) + One(c.want && (c.retire || !c.announced), Subscribe(id))
  }

  function ChannelEvents(s: State, id: ChannelID): seq<CtrlEvent> {
    if id in s.channels then ChannelOutEvents(id, s.channels[id]) else []
  }

  function OfKey(events: seq<CtrlEvent>, key: SessionKey): seq<CtrlEvent> {
    if events == [] then [] else One(AboutKey(events[0], key), events[0]) + OfKey(events[1..], key)
  }

  function OfChannel(events: seq<CtrlEvent>, id: ChannelID): seq<CtrlEvent> {
    if events == [] then [] else One(AboutChannel(events[0], id), events[0]) + OfChannel(events[1..], id)
  }

  function EventsOf(key: SessionKey, out: Option<SessionOut>): seq<CtrlEvent> {
    if out.Some? then EntryEvents(key, out.value) else []
  }

  /** An entry that steps owes what it owed, less the event taken. */
  lemma EntryTakesEvent(key: SessionKey, before: Option<SessionOut>, event: Option<CtrlEvent>,
      after: Option<SessionOut>)
    requires EntryStep(key, before, event, after)
    requires before.Some? && Opens(before.value) ==> before.value.pendingOpen.value.key == key
    requires before.Some? && Doomed(before.value) ==> !(event.Some? && AboutKey(event.value, key))
    ensures EventsOf(key, before)
        == (if event.Some? then One(AboutKey(event.value, key), event.value) else []) + EventsOf(key, after)
  {
  }

  lemma NextTakesKey(s: State, event: Option<CtrlEvent>, m: State, key: SessionKey)
    requires Valid(s) && !s.closed && NextStep(s, event, m)
    ensures EntryStep(key, Find(s.sessions, key), event, Find(m.sessions, key))
    ensures EventsOf(key, Find(s.sessions, key))
         == (if event.Some? then One(AboutKey(event.value, key), event.value) else [])
             + EventsOf(key, Find(m.sessions, key))
  {
    NextEntry(s, event, m, key);
    EntryTakesEvent(key, Find(s.sessions, key), event, Find(m.sessions, key));
  }

  /** One step takes the first expected event of the key it is about, and no other. */
  lemma NextTakesKeyEvent(s: State, event: CtrlEvent, m: State, key: SessionKey)
    requires Valid(s) && !s.closed && NextStep(s, Some(event), m)
    ensures KeyEvents(s, key) == One(AboutKey(event, key), event) + KeyEvents(m, key)
  {
    NextTakesKey(s, Some(event), m, key);
  }

  lemma NextTakesChannelEvent(s: State, event: CtrlEvent, m: State, id: ChannelID)
    requires Valid(s) && !s.closed && NextStep(s, Some(event), m)
    ensures ChannelEvents(s, id) == One(AboutChannel(event, id), event) + ChannelEvents(m, id)
  {
    NextChannel(s, Some(event), m, id);
  }

  /** A drain emits for each session exactly the events its entry asks for, in that order. */
  lemma {:induction false} DrainPerKey(s: State, events: seq<CtrlEvent>, t: State, key: SessionKey)
    requires Valid(s) && !s.closed && Drains(s, events, t)
    ensures OfKey(events, key) == KeyEvents(s, key)
    decreases |events|
  {
    if events == [] {
      NextEntry(s, None, t, key);
    } else {
      var m :| NextStep(s, Some(events[0]), m) && Drains(m, events[1..], t);
      NextValid(s, Some(events[0]), m);
      NextFrame(s, Some(events[0]), m);
      NextTakesKeyEvent(s, events[0], m, key);
      DrainPerKey(m, events[1..], t, key);
    }
  }

  /** And for each channel. */
  lemma {:induction false} DrainPerChannel(s: State, events: seq<CtrlEvent>, t: State, id: ChannelID)
    requires Valid(s) && !s.closed && Drains(s, events, t)
    ensures OfChannel(events, id) == ChannelEvents(s, id)
    decreases |events|
  {
    if events == [] {
      NextChannel(s, None, t, id);
    } else {
      var m :| NextStep(s, Some(events[0]), m) && Drains(m, events[1..], t);
      NextValid(s, Some(events[0]), m);
      NextFrame(s, Some(events[0]), m);
      NextTakesChannelEvent(s, events[0], m, id);
      DrainPerChannel(m, events[1..], t, id);
    }
  }

  lemma {:induction false} DrainForgets(s: State, events: seq<CtrlEvent>, t: State, key: SessionKey)
    requires Valid(s) && !s.closed && Drains(s, events, t)
    requires key in s.sessions ==> s.sessions[key].close && !Reopening(s, key)
    ensures key !in t.sessions
    decreases |events|
  {
    if events == [] {
      NextEntry(s, None, t, key);
    } else {
      var m :| NextStep(s, Some(events[0]), m) && Drains(m, events[1..], t);
      NextValid(s, Some(events[0]), m);
      NextFrame(s, Some(events[0]), m);
      NextEntry(s, Some(events[0]), m, key);
      DrainForgets(m, events[1..], t, key);
    }
  }

  // ---------------------------------------------------------------------------
  // The order of a drain
  // ---------------------------------------------------------------------------

  /** later comes after event: in a later phase, or in the same session phase and created later. */
  predicate ComesAfter(s: State, event: CtrlEvent, later: CtrlEvent) {
    || Phase(Some(event)) < Phase(Some(later))
    || (&& Phase(Some(event)) == Phase(Some(later))
        && (IsSessionEvent(event) ==>
              && KeyOf(event) in s.sessions && KeyOf(later) in s.sessions
              && s.sessions[KeyOf(event)].order < s.sessions[KeyOf(later)].order))
  }

  lemma NextIsFirst(s: State, event: CtrlEvent, m: State)
    requires Valid(s) && !s.closed && NextStep(s, Some(event), m) && IsSessionEvent(event)
    ensures KeyOf(event) in s.sessions
    ensures forall k :: k in s.sessions && !Doomed(s.sessions[k]) && FirstPhase(s.sessions[k]) == Phase(Some(event)) ==>
              s.sessions[KeyOf(event)].order <= s.sessions[k].order
  {
    NextEntry(s, Some(event), m, KeyOf(event));
    assert forall k :: k in s.sessions && !Doomed(s.sessions[k]) ==> k in Undoomed(s.sessions);
  }

  lemma NextBeforeKeyEvents(s: State, event: CtrlEvent, m: State, key: SessionKey)
    requires Valid(s) && !s.closed && NextStep(s, Some(event), m)
    ensures forall later :: later in KeyEvents(m, key) ==> ComesAfter(s, event, later)
  {
    forall later | later in KeyEvents(m, key)
      ensures ComesAfter(s, event, later)
    {
      NextBeforeKeyEvent(s, event, m, key, later);
    }
  }

  lemma NextBeforeKeyEvent(s: State, event: CtrlEvent, m: State, key: SessionKey, later: CtrlEvent)
    requires Valid(s) && !s.closed && NextStep(s, Some(event), m) && later in KeyEvents(m, key)
    ensures ComesAfter(s, event, later)
  {
    NextEntry(s, Some(event), m, key);
    if IsSessionEvent(event) {
      NextIsFirst(s, event, m);
    }
  }

  lemma NextBeforeChannelEvents(s: State, event: CtrlEvent, m: State, id: ChannelID)
    requires Valid(s) && !s.closed && NextStep(s, Some(event), m)
    ensures forall later :: later in ChannelEvents(m, id) ==> ComesAfter(s, event, later)
  {
    NextChannel(s, Some(event), m, id);
  }

  lemma {:induction false} EventIsProjected(events: seq<CtrlEvent>, e: CtrlEvent)
    requires e in events
    ensures IsSessionEvent(e) ==> e in OfKey(events, KeyOf(e))
    ensures !IsSessionEvent(e) ==> e in OfChannel(events, e.id)
  {
    if e != events[0] {
      EventIsProjected(events[1..], e);
    }
  }

  /** Entries of m are entries of s under the same number. */
  predicate SameOrders(s: State, m: State) {
    forall k :: k in m.sessions ==> k in s.sessions && m.sessions[k].order == s.sessions[k].order
  }

  lemma DrainTail(s: State, events: seq<CtrlEvent>, t: State) returns (m: State)
    requires Valid(s) && !s.closed && Drains(s, events, t) && events != []
    ensures Valid(m) && !m.closed && Drains(m, events[1..], t)
    ensures SameOrders(s, m)
  {
    m :| NextStep(s, Some(events[0]), m) && Drains(m, events[1..], t);
    NextValid(s, Some(events[0]), m);
    NextFrame(s, Some(events[0]), m);
    forall k | k in m.sessions
      ensures k in s.sessions && m.sessions[k].order == s.sessions[k].order
    {
      NextEntry(s, Some(events[0]), m, k);
    }
  }

  lemma HeadComesFirst(s: State, events: seq<CtrlEvent>, t: State, later: CtrlEvent)
    requires Valid(s) && !s.closed && Drains(s, events, t) && events != [] && later in events[1..]
    ensures ComesAfter(s, events[0], later)
  {
    var m :| NextStep(s, Some(events[0]), m) && Drains(m, events[1..], t);
    NextValid(s, Some(events[0]), m);
    NextFrame(s, Some(events[0]), m);
    var rest := events[1..];
    EventIsProjected(rest, later);
    if IsSessionEvent(later) {
      DrainPerKey(m, rest, t, KeyOf(later));
      NextBeforeKeyEvents(s, events[0], m, KeyOf(later));
    } else {
      DrainPerChannel(m, rest, t, later.id);
      NextBeforeChannelEvents(s, events[0], m, later.id);
    }
  }

  /** Every event comes before all that follow it. */
  predicate InOrder(s: State, events: seq<CtrlEvent>) {
    events == [] || ((forall e :: e in events[1..] ==> ComesAfter(s, events[0], e)) && InOrder(s, events[1..]))
  }

  lemma {:induction false} OrderIsKept(s: State, m: State, events: seq<CtrlEvent>)
    requires SameOrders(s, m) && InOrder(m, events)
    ensures InOrder(s, events)
  {
    if events != [] {
      OrderIsKept(s, m, events[1..]);
      assert forall e :: ComesAfter(m, events[0], e) ==> ComesAfter(s, events[0], e);
    }
  }

  lemma {:induction false} InOrderAt(s: State, events: seq<CtrlEvent>, i: nat, j: nat)
    requires InOrder(s, events) && i < j < |events|
    ensures ComesAfter(s, events[i], events[j])
  {
    var rest := events[1..];
    assert rest[j - 1] == events[j];
    if i > 0 {
      assert rest[i - 1] == events[i];
      InOrderAt(s, rest, i - 1, j - 1);
    }
  }

  lemma {:induction false} DrainOrders(s: State, events: seq<CtrlEvent>, t: State)
    requires Valid(s) && !s.closed && Drains(s, events, t)
    ensures InOrder(s, events)
    decreases |events|
  {
    if events != [] {
      var m := DrainTail(s, events, t);
      DrainOrders(m, events[1..], t);
      OrderIsKept(s, m, events[1..]);
      forall e | e in events[1..]
        ensures ComesAfter(s, events[0], e)
      {
        HeadComesFirst(s, events, t, e);
      }
    }
  }

  /** Events come in phase order, and within a session phase in the order the entries were created. */
  lemma DrainInOrder(s: State, events: seq<CtrlEvent>, t: State, i: nat, j: nat)
    requires Valid(s) && !s.closed && Drains(s, events, t) && i < j < |events|
    ensures ComesAfter(s, events[i], events[j])
  {
    DrainOrders(s, events, t);
    InOrderAt(s, events, i, j);
  }

  // ---------------------------------------------------------------------------
  // The length of a drain
  // ---------------------------------------------------------------------------

  ghost function EntryWork(key: SessionKey, out: SessionOut): nat { |EntryEvents(key, out)| }
  ghost function ChannelWork(id: ChannelID, c: ChannelOut): nat { |ChannelOutEvents(id, c)| }

  /** How many events are owed. */
  ghost function Work(s: State): nat {
    MapSum(s.sessions, EntryWork) + MapSum(s.channels, ChannelWork)
  }

  lemma MapSumMove<K(!new), V(!new)>(m: map<K, V>, m': map<K, V>, w: (K, V) -> nat, k: K, took: nat)
    requires k in m
    requires k in m' ==> w(k, m[k]) == took + w(k, m'[k])
    requires k !in m' ==> w(k, m[k]) == took
    requires m'.Keys <= m.Keys
    requires forall x :: x in m' && x != k ==> m'[x] == m[x]
    requires forall x :: x in m && x !in m' && x != k ==> w(x, m[x]) == 0
    ensures MapSum(m, w) == took + MapSum(m', w)
  {
    MapSumSplit(m, w, k);
    MapSumDrop(m - {k}, m' - {k}, w);
    if k in m' {
      MapSumSplit(m', w, k);
    } else {
      assert m' - {k} == m';
    }
  }

  lemma NextTakesEntryWork(s: State, event: Option<CtrlEvent>, m: State)
    requires Valid(s) && !s.closed && NextStep(s, event, m)
    ensures MapSum(s.sessions, EntryWork) ==
            (if event.Some? && IsSessionEvent(event.value) then 1 else 0) + MapSum(m.sessions, EntryWork)
  {
    forall key: SessionKey
      ensures EntryMoves(key, Find(s.sessions, key), event, Find(m.sessions, key))
    {
      NextTakesKey(s, event, m, key);
    }
    EntriesTakeWork(s.sessions, event, m.sessions);
  }

  /** An entry steps, and owes one event less if the step was about it. */
  ghost predicate EntryMoves(key: SessionKey, before: Option<SessionOut>, event: Option<CtrlEvent>,
      after: Option<SessionOut>) {
    && EntryStep(key, before, event, after)
    && |EventsOf(key, before)| == (if event.Some? && AboutKey(event.value, key) then 1 else 0) + |EventsOf(key, after)|
  }

  lemma EntriesTakeWork(before: map<SessionKey, SessionOut>, event: Option<CtrlEvent>,
      after: map<SessionKey, SessionOut>)
    requires forall key: SessionKey :: EntryMoves(key, Find(before, key), event, Find(after, key))
    ensures MapSum(before, EntryWork)
        == (if event.Some? && IsSessionEvent(event.value) then 1 else 0) + MapSum(after, EntryWork)
  {
    forall key: SessionKey
      ensures key in after ==> key in before
      ensures !(event.Some? && AboutKey(event.value, key)) && key in after ==> after[key] == before[key]
      ensures !(event.Some? && AboutKey(event.value, key)) && key in before && key !in after ==>
          EntryWork(key, before[key]) == 0
    {
      assert EntryMoves(key, Find(before, key), event, Find(after, key));
    }
    if event.Some? && IsSessionEvent(event.value) {
      var key := KeyOf(event.value);
      assert EntryMoves(key, Find(before, key), event, Find(after, key));
      MapSumMove(before, after, EntryWork, key, 1);
    } else {
      MapSumDrop(before, after, EntryWork);
    }
  }

  lemma NextTakesChannelWork(s: State, event: Option<CtrlEvent>, m: State)
    requires Valid(s) && !s.closed && NextStep(s, event, m)
    ensures MapSum(s.channels, ChannelWork) ==
            (if event.Some? && !IsSessionEvent(event.value) then 1 else 0) + MapSum(m.channels, ChannelWork)
  {
    forall id: ChannelID
      ensures ChannelStep(id, Find(s.channels, id), event, Find(m.channels, id))
    {
      NextChannel(s, event, m, id);
    }
    if event.Some? && !IsSessionEvent(event.value) {
      var id := event.value.id;
      NextTakesChannelEvent(s, event.value, m, id);
      MapSumMove(s.channels, m.channels, ChannelWork, id, 1);
    } else {
      MapSumDrop(s.channels, m.channels, ChannelWork);
    }
  }

  lemma NextTakesWork(s: State, event: Option<CtrlEvent>, m: State)
    requires Valid(s) && !s.closed && NextStep(s, event, m)
    ensures Valid(m) && !m.closed
    ensures Work(s) == (if event.Some? then 1 else 0) + Work(m)
  {
    NextValid(s, event, m);
    NextFrame(s, event, m);
    NextTakesEntryWork(s, event, m);
    NextTakesChannelWork(s, event, m);
  }

  lemma NothingOwed(s: State, t: State)
    requires Valid(s) && !s.closed && NextStep(s, None, t)
    ensures Work(t) == 0
  {
    forall k | k in t.sessions
      ensures EntryWork(k, t.sessions[k]) == 0
    {
      NextEntry(s, None, t, k);
    }
    forall id | id in t.channels
      ensures ChannelWork(id, t.channels[id]) == 0
    {
      NextChannel(s, None, t, id);
    }
    MapSumBound(t.sessions, EntryWork, 0);
    MapSumBound(t.channels, ChannelWork, 0);
  }

  lemma WorkBound(s: State)
    ensures Work(s) <= 4 * |s.sessions| + 2 * |s.channels|
  {
    MapSumBound(s.sessions, EntryWork, 4);
    MapSumBound(s.channels, ChannelWork, 2);
  }

  /** Every drain emits exactly what is owed, at most four events a session and two a channel. */
  lemma {:induction false} DrainLength(s: State, events: seq<CtrlEvent>, t: State)
    requires Valid(s) && !s.closed && Drains(s, events, t)
    ensures |events| == Work(s) <= 4 * |s.sessions| + 2 * |s.channels|
    decreases |events|
  {
    WorkBound(s);
    if events == [] {
      NextTakesWork(s, None, t);
      NothingOwed(s, t);
    } else {
      var m :| NextStep(s, Some(events[0]), m) && Drains(m, events[1..], t);
      NextTakesWork(s, Some(events[0]), m);
      DrainLength(m, events[1..], t);
    }
  }
}
