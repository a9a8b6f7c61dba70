/** What the remote hears of one channel or session over any stretch of a run and its drain. */
module CtrlHistory {
  import opened Basics
  import opened CtrlSpec
  import opened CtrlConvergence
  import opened CtrlDrain

  // ---------------------------------------------------------------------------
  // One channel
  // ---------------------------------------------------------------------------

  /**
    * What a step tells the remote about the channel. A Hello that lists a channel the remote does not know
    * counts as its SUBSCRIBE.
    */
  function HeardAt(w: World, a: Action, id: ChannelID): seq<CtrlEvent> {
    match a
    case Emit(event) => if event.Some? then One(AboutChannel(event.value, id), event.value) else []
    case Hello(ids) => One(!w.s.closed && id in ids && id !in w.told.channels, Subscribe(id))
    case _ => []
  }

  /** What the remote hears of the channel from state i to state n. */
  function Heard(worlds: seq<World>, actions: seq<Action>, i: nat, n: nat, id: ChannelID): seq<CtrlEvent>
    requires i <= n <= |actions| <= |worlds|
    decreases n - i
  {
    if i == n then [] else HeardAt(worlds[i], actions[i], id) + Heard(worlds, actions, i + 1, n, id)
  }

  /** A channel the remote knows is dropped. */
  predicate DropsAt(w: World, a: Action, id: ChannelID) {
    a == Announce(id, false) && id in w.told.channels
  }

  function Drops(worlds: seq<World>, actions: seq<Action>, i: nat, n: nat, id: ChannelID): nat
    requires i <= n <= |actions| <= |worlds|
    decreases n - i
  {
    if i == n then 0
    else (if DropsAt(worlds[i], actions[i], id) then 1 else 0) + Drops(worlds, actions, i + 1, n, id)
  }

  /** UNSUBSCRIBE then SUBSCRIBE, k times. */
  function Rounds(id: ChannelID, k: nat): seq<CtrlEvent> {
    if k == 0 then [] else [Unsubscribe(id), Subscribe(id)] + Rounds(id, k - 1)
  }

  /** A drop of the channel that the remote has still to hear of. */
  function Owed(s: State, id: ChannelID): nat {
    if Retires(ChannelOf(s, id)) then 1 else 0
  }

  /** The step tells the remote of the channel exactly if it changes whether the remote knows it. */
  predicate Turns(w: World, a: Action, w': World, id: ChannelID) {
    && HeardAt(w, a, id) == (if id in w.told.channels then [Unsubscribe(id)] else [Subscribe(id)])
    && (id in w'.told.channels <==> id !in w.told.channels)
    && Owed(w.s, id) == (if id in w.told.channels then 1 else 0) && Owed(w'.s, id) == 0 && !DropsAt(w, a, id)
  }

  predicate Stays(w: World, a: Action, w': World, id: ChannelID) {
    && HeardAt(w, a, id) == [] && (id in w'.told.channels <==> id in w.told.channels)
    && Owed(w'.s, id) == if DropsAt(w, a, id) then 1 else Owed(w.s, id)
  }

  lemma EmitHeard(w: World, event: Option<CtrlEvent>, w': World, id: ChannelID)
    requires Consistent(w) && Step(w, Emit(event), w') && !w.s.closed
    ensures Turns(w, Emit(event), w', id) || Stays(w, Emit(event), w', id)
  {
    NextChannel(w.s, event, w'.s, id);
    assert id in w.told.channels <==> ChannelOf(w.s, id).announced;
  }

  lemma CallHeard(w: World, a: Action, w': World, id: ChannelID)
    requires Consistent(w) && Step(w, a, w') && !w.s.closed && !a.Emit? && !a.Stop?
    ensures Turns(w, a, w', id) || Stays(w, a, w', id)
  {
    assert id in w.told.channels <==> ChannelOf(w.s, id).announced;
  }

  lemma ClosedStays(w: World, a: Action, w': World)
    requires Step(w, a, w') && !w'.s.closed
    ensures !w.s.closed && !a.Stop?
  {
  }

  lemma {:induction false} OpenBefore(worlds: seq<World>, actions: seq<Action>, i: nat, n: nat)
    requires IsRun(worlds, actions) && i <= n <= |actions| && !worlds[n].s.closed
    ensures !worlds[i].s.closed && (i < n ==> !actions[i].Stop?)
    decreases n - i
  {
    if i < n {
      OpenBefore(worlds, actions, i + 1, n);
      ClosedStays(worlds[i], actions[i], worlds[i + 1]);
    }
  }

  lemma StepHeard(worlds: seq<World>, actions: seq<Action>, i: nat, n: nat, id: ChannelID)
    requires IsRun(worlds, actions) && i < n <= |actions| && !worlds[n].s.closed
    ensures Turns(worlds[i], actions[i], worlds[i + 1], id) || Stays(worlds[i], actions[i], worlds[i + 1], id)
  {
    RunConsistent(worlds, actions, i);
    OpenBefore(worlds, actions, i, n);
    if actions[i].Emit? {
      EmitHeard(worlds[i], actions[i].event, worlds[i + 1], id);
    } else {
      CallHeard(worlds[i], actions[i], worlds[i + 1], id);
    }
  }

  /** What a wanted channel still owes. */
  lemma OwedEvents(w: World, id: ChannelID)
    requires Consistent(w) && !w.s.closed && id in w.wanted
    ensures ChannelEvents(w.s, id) == One(id !in w.told.channels, Subscribe(id)) + Rounds(id, Owed(w.s, id))
  {
    assert id in w.told.channels <==> ChannelOf(w.s, id).announced;
    assert Rounds(id, 1) == [Unsubscribe(id), Subscribe(id)] + Rounds(id, 0);
  }

  /** The remote hears of a turn before what follows it. */
  lemma TurnFirst(now: seq<CtrlEvent>, rest: seq<CtrlEvent>, last: seq<CtrlEvent>, told: bool, id: ChannelID, k: nat)
      returns (more: nat)
    requires now == (if told then [Unsubscribe(id)] else [Subscribe(id)])
    requires rest + last == One(told, Subscribe(id)) + Rounds(id, k)
    ensures now + rest + last == One(!told, Subscribe(id)) + Rounds(id, more)
    ensures more == if told then k + 1 else k
  {
    more := if told then k + 1 else k;
    assert now + rest + last == now + (rest + last);
  }

  /** From state i to n, and then until nothing is owed, the remote hears of the channel in whole rounds. */
  lemma {:induction false} HeardInRounds(worlds: seq<World>, actions: seq<Action>, i: nat, n: nat, id: ChannelID)
      returns (k: nat)
    requires IsRun(worlds, actions) && i <= n <= |actions| && !worlds[n].s.closed && id in worlds[n].wanted
    ensures Heard(worlds, actions, i, n, id) + ChannelEvents(worlds[n].s, id)
        == One(id !in worlds[i].told.channels, Subscribe(id)) + Rounds(id, k)
    ensures k <= Owed(worlds[i].s, id) + Drops(worlds, actions, i, n, id)
    ensures k == 0 <==> Owed(worlds[i].s, id) + Drops(worlds, actions, i, n, id) == 0
    decreases n - i
  {
    if i == n {
      RunConsistent(worlds, actions, n);
      OwedEvents(worlds[n], id);
      k := Owed(worlds[n].s, id);
    } else {
      var later := HeardInRounds(worlds, actions, i + 1, n, id);
      k := HeardOneMore(worlds, actions, i, n, id, later);
    }
  }

  lemma HeardOneMore(worlds: seq<World>, actions: seq<Action>, i: nat, n: nat, id: ChannelID, later: nat)
      returns (k: nat)
    requires IsRun(worlds, actions) && i < n <= |actions| && !worlds[n].s.closed
    requires Heard(worlds, actions, i + 1, n, id) + ChannelEvents(worlds[n].s, id)
        == One(id !in worlds[i + 1].told.channels, Subscribe(id)) + Rounds(id, later)
    requires later <= Owed(worlds[i + 1].s, id) + Drops(worlds, actions, i + 1, n, id)
    requires later == 0 <==> Owed(worlds[i + 1].s, id) + Drops(worlds, actions, i + 1, n, id) == 0
    ensures Heard(worlds, actions, i, n, id) + ChannelEvents(worlds[n].s, id)
        == One(id !in worlds[i].told.channels, Subscribe(id)) + Rounds(id, k)
    ensures k <= Owed(worlds[i].s, id) + Drops(worlds, actions, i, n, id)
    ensures k == 0 <==> Owed(worlds[i].s, id) + Drops(worlds, actions, i, n, id) == 0
  {
    StepHeard(worlds, actions, i, n, id);
    if Turns(worlds[i], actions[i], worlds[i + 1], id) {
      k := TurnFirst(HeardAt(worlds[i], actions[i], id), Heard(worlds, actions, i + 1, n, id),
          ChannelEvents(worlds[n].s, id), id in worlds[i].told.channels, id, later);
    } else {
      k := later;
      assert Heard(worlds, actions, i, n, id) == Heard(worlds, actions, i + 1, n, id);
    }
  }

  lemma DrainHears(worlds: seq<World>, actions: seq<Action>, n: nat, id: ChannelID, events: seq<CtrlEvent>, t: State)
    requires IsRun(worlds, actions) && n <= |actions| && !worlds[n].s.closed && Drains(worlds[n].s, events, t)
    ensures OfChannel(events, id) == ChannelEvents(worlds[n].s, id)
  {
    RunConsistent(worlds, actions, n);
    DrainPerChannel(worlds[n].s, events, t, id);
  }

  lemma DropOwes(worlds: seq<World>, actions: seq<Action>, i: nat, n: nat, id: ChannelID)
    requires IsRun(worlds, actions) && i < n <= |actions| && !worlds[n].s.closed
    requires DropsAt(worlds[i], actions[i], id)
    ensures id in worlds[i + 1].told.channels && Owed(worlds[i + 1].s, id) == 1
    ensures Heard(worlds, actions, i, n, id) == Heard(worlds, actions, i + 1, n, id)
    ensures Drops(worlds, actions, i, n, id) == 1 + Drops(worlds, actions, i + 1, n, id)
  {
    StepHeard(worlds, actions, i, n, id);
  }

  lemma RoundsAfterDrop(worlds: seq<World>, actions: seq<Action>, i: nat, n: nat, id: ChannelID) returns (k: nat)
    requires IsRun(worlds, actions) && i < n <= |actions| && DropsAt(worlds[i], actions[i], id)
    requires !worlds[n].s.closed && id in worlds[n].wanted
    ensures Heard(worlds, actions, i, n, id) + ChannelEvents(worlds[n].s, id) == Rounds(id, k)
    ensures 1 <= k <= Drops(worlds, actions, i, n, id)
  {
    DropOwes(worlds, actions, i, n, id);
    k := HeardInRounds(worlds, actions, i + 1, n, id);
    assert One(false, Subscribe(id)) + Rounds(id, k) == Rounds(id, k);
  }

  /**
    * A channel the remote knows, dropped at some point of a run, wanted again at a later one, whatever
    * happened in between. What the remote hears of it, up to the end of the drain, is UNSUBSCRIBE then
    * SUBSCRIBE: at least once, and never more often than it was dropped.
    */
  lemma ReplacedChannelIsRetired(worlds: seq<World>, actions: seq<Action>, i: nat, n: nat, id: ChannelID,
      events: seq<CtrlEvent>, t: State) returns (k: nat)
    requires IsRun(worlds, actions) && i < n <= |actions| && DropsAt(worlds[i], actions[i], id)
    requires !worlds[n].s.closed && id in worlds[n].wanted && Drains(worlds[n].s, events, t)
    ensures Heard(worlds, actions, i, n, id) + OfChannel(events, id) == Rounds(id, k)
    ensures 1 <= k <= Drops(worlds, actions, i, n, id)
  {
    k := RoundsAfterDrop(worlds, actions, i, n, id);
    DrainHears(worlds, actions, n, id, events, t);
  }

  /** Nothing is said of a channel the remote knows, and it goes on knowing it. */
  predicate KnownQuietly(w: World, a: Action, w': World, id: ChannelID) {
    id in w.told.channels ==> id in w'.told.channels && HeardAt(w, a, id) == []
  }

  lemma StillKnown(worlds: seq<World>, actions: seq<Action>, i: nat, n: nat, id: ChannelID)
    requires IsRun(worlds, actions) && i < n <= |actions| && !worlds[n].s.closed
    requires actions[i] != Emit(Some(Unsubscribe(id)))
    ensures KnownQuietly(worlds[i], actions[i], worlds[i + 1], id)
  {
    StepHeard(worlds, actions, i, n, id);
    assert HeardAt(worlds[i], actions[i], id) != [Unsubscribe(id)];
  }

  /** A channel the remote knows is not spoken of until it is unsubscribed. */
  lemma NothingHeard(worlds: seq<World>, actions: seq<Action>, i: nat, n: nat, id: ChannelID)
    requires IsRun(worlds, actions) && i <= n <= |actions| && !worlds[n].s.closed && id in worlds[i].told.channels
    requires forall j :: i <= j < n ==> actions[j] != Emit(Some(Unsubscribe(id)))
    ensures Heard(worlds, actions, i, n, id) == []
  {
    forall j | i <= j < n
      ensures KnownQuietly(worlds[j], actions[j], worlds[j + 1], id)
    {
      StillKnown(worlds, actions, j, n, id);
    }
    QuietlyKnown(worlds, actions, i, n, id);
  }

  lemma {:induction false} QuietlyKnown(worlds: seq<World>, actions: seq<Action>, i: nat, n: nat, id: ChannelID)
    requires i <= n <= |actions| < |worlds| && id in worlds[i].told.channels
    requires forall j :: i <= j < n ==> KnownQuietly(worlds[j], actions[j], worlds[j + 1], id)
    ensures Heard(worlds, actions, i, n, id) == []
    decreases n - i
  {
    if i < n {
      QuietlyKnown(worlds, actions, i + 1, n, id);
    }
  }

  /** While the UNSUBSCRIBE was not handed out, the drain does both. */
  lemma DrainRetires(worlds: seq<World>, actions: seq<Action>, i: nat, n: nat, id: ChannelID, events: seq<CtrlEvent>,
      t: State)
    requires IsRun(worlds, actions) && i < n <= |actions| && DropsAt(worlds[i], actions[i], id)
    requires !worlds[n].s.closed && id in worlds[n].wanted && Drains(worlds[n].s, events, t)
    requires forall j :: i <= j < n ==> actions[j] != Emit(Some(Unsubscribe(id)))
    ensures OfChannel(events, id) == [Unsubscribe(id), Subscribe(id)]
  {
    var k := ReplacedChannelIsRetired(worlds, actions, i, n, id, events, t);
    NothingHeard(worlds, actions, i, n, id);
    DrainHears(worlds, actions, n, id, events, t);
    assert OfChannel(events, id) == Rounds(id, k) && |OfChannel(events, id)| <= 2;
    RoundsLength(id, k);
    assert Rounds(id, 1) == [Unsubscribe(id), Subscribe(id)] + Rounds(id, 0);
  }

  lemma {:induction false} RoundsLength(id: ChannelID, k: nat)
    ensures |Rounds(id, k)| == 2 * k
  {
    if k > 0 {
      RoundsLength(id, k - 1);
    }
  }

  /** Dropped once, it is heard as exactly UNSUBSCRIBE, SUBSCRIBE, in part before the drain or all in it. */
  lemma DroppedOnceIsRetiredOnce(worlds: seq<World>, actions: seq<Action>, i: nat, n: nat, id: ChannelID,
      events: seq<CtrlEvent>, t: State)
    requires IsRun(worlds, actions) && i < n <= |actions| && DropsAt(worlds[i], actions[i], id)
    requires Drops(worlds, actions, i, n, id) == 1
    requires !worlds[n].s.closed && id in worlds[n].wanted && Drains(worlds[n].s, events, t)
    ensures Heard(worlds, actions, i, n, id) + OfChannel(events, id) == [Unsubscribe(id), Subscribe(id)]
  {
    var k := ReplacedChannelIsRetired(worlds, actions, i, n, id, events, t);
    assert Rounds(id, 1) == [Unsubscribe(id), Subscribe(id)] + Rounds(id, 0);
  }

  // ---------------------------------------------------------------------------
  // One session
  // ---------------------------------------------------------------------------

  predicate OpensKey(a: Action, key: SessionKey) {
    a.Open? && a.opening.key == key
  }

  /** The session stays unwanted, and an orphan or not, until it is opened or closed again. */
  lemma {:induction false} CloseLasts(worlds: seq<World>, actions: seq<Action>, i: nat, n: nat, key: SessionKey)
    requires IsRun(worlds, actions) && i < n <= |actions| && actions[i] == Close(key)
    requires forall j :: i < j < n ==> !OpensKey(actions[j], key) && actions[j] != Close(key)
    ensures key !in worlds[n].desired && (key in worlds[n].orphans <==> Reopening(worlds[i].s, key))
    decreases n
  {
    assert Step(worlds[n - 1], actions[n - 1], worlds[n - 1 + 1]);
    if i < n - 1 {
      CloseLasts(worlds, actions, i, n - 1, key);
    }
  }

  /**
    * The last close of a session, whatever happened since: the next drain to complete leaves it closed at
    * the remote if and only if no reopening of a session open there was pending when it was closed.
    */
  lemma CloseTakesEffect(worlds: seq<World>, actions: seq<Action>, i: nat, n: nat, key: SessionKey,
      events: seq<CtrlEvent>, t: State)
    requires IsRun(worlds, actions) && i < n <= |actions| && actions[i] == Close(key)
    requires forall j :: i < j < n ==> !OpensKey(actions[j], key) && actions[j] != Close(key)
    requires !worlds[n].s.closed && Drains(worlds[n].s, events, t)
    ensures key !in TellAll(worlds[n].told, events).sessions <==> !Reopening(worlds[i].s, key)
  {
    CloseLasts(worlds, actions, i, n, key);
    RunThenDrainConverges(worlds, actions, n, events, t);
  }

  /** Nothing will be said about the key: it is not open, and no opening of it is to be sent. */
  predicate Silent(s: State, key: SessionKey) {
    key in s.sessions ==> !s.sessions[key].open && (s.sessions[key].close || !Opens(s.sessions[key]))
  }

  /** The entry is gone, or will be forgotten without an event. */
  predicate Forgotten(s: State, key: SessionKey) {
    key in s.sessions ==> Doomed(s.sessions[key])
  }

  predicate Speaks(a: Action, key: SessionKey) {
    a.Emit? && a.event.Some? && AboutKey(a.event.value, key)
  }

  lemma StepSilent(w: World, a: Action, w': World, key: SessionKey)
    requires Valid(w.s) && Step(w, a, w') && !w.s.closed && Silent(w.s, key) && !OpensKey(a, key)
    ensures Silent(w'.s, key) && !Speaks(a, key)
    ensures Forgotten(w.s, key) && a != EndStream(key) ==> Forgotten(w'.s, key)
  {
    if a.Emit? {
      NextEntry(w.s, a.event, w'.s, key);
    }
  }

  lemma SilentAt(worlds: seq<World>, actions: seq<Action>, i: nat, key: SessionKey)
    requires IsRun(worlds, actions) && i < |actions| && !worlds[i].s.closed
    requires Silent(worlds[i].s, key) && !OpensKey(actions[i], key)
    ensures Silent(worlds[i + 1].s, key) && !Speaks(actions[i], key)
    ensures Forgotten(worlds[i].s, key) && actions[i] != EndStream(key) ==> Forgotten(worlds[i + 1].s, key)
  {
    RunConsistent(worlds, actions, i);
    StepSilent(worlds[i], actions[i], worlds[i + 1], key);
  }

  lemma CloseSilent(worlds: seq<World>, actions: seq<Action>, i: nat, key: SessionKey)
    requires IsRun(worlds, actions) && i < |actions| && !worlds[i].s.closed
    requires actions[i] == Close(key) && key !in worlds[i].told.sessions
    ensures Silent(worlds[i + 1].s, key) && Forgotten(worlds[i + 1].s, key)
  {
    RunConsistent(worlds, actions, i);
    assert !IsOpen(worlds[i].s, key);
    assert Step(worlds[i], actions[i], worlds[i + 1]);
  }

  lemma {:induction false} StaysSilent(worlds: seq<World>, actions: seq<Action>, i: nat, n: nat, key: SessionKey)
    requires IsRun(worlds, actions) && i < n <= |actions| && !worlds[n].s.closed
    requires actions[i] == Close(key) && key !in worlds[i].told.sessions
    requires forall j :: i < j < n ==> !OpensKey(actions[j], key)
    ensures Silent(worlds[n].s, key) && forall j :: i <= j < n ==> !Speaks(actions[j], key)
    ensures (forall j :: i < j < n ==> actions[j] != EndStream(key)) ==> Forgotten(worlds[n].s, key)
    decreases n
  {
    OpenBefore(worlds, actions, n - 1, n);
    if i == n - 1 {
      CloseSilent(worlds, actions, i, key);
    } else {
      StaysSilent(worlds, actions, i, n - 1, key);
      SilentAt(worlds, actions, n - 1, key);
    }
  }

  /**
    * A session closed while the remote does not know it, its opening not handed out if there was one:
    * until it is opened again nothing is said about it, whatever else happens, nor by any drain. The drain
    * forgets it, unless ending its stream made a new entry that was not closed since.
    */
  lemma ClosedUnsentOpeningIsSilent(worlds: seq<World>, actions: seq<Action>, i: nat, n: nat, key: SessionKey,
      events: seq<CtrlEvent>, t: State)
    requires IsRun(worlds, actions) && i < n <= |actions| && !worlds[n].s.closed
    requires actions[i] == Close(key) && key !in worlds[i].told.sessions
    requires forall j :: i < j < n ==> !OpensKey(actions[j], key)
    requires Drains(worlds[n].s, events, t)
    ensures (forall j :: i <= j < n ==> !Speaks(actions[j], key)) && OfKey(events, key) == []
    ensures key in t.sessions <==> !Forgotten(worlds[n].s, key)
    ensures (forall j :: i < j < n ==> actions[j] != EndStream(key)) ==> key !in t.sessions
  {
    StaysSilent(worlds, actions, i, n, key);
    RunConsistent(worlds, actions, n);
    DrainPerKey(worlds[n].s, events, t, key);
    DrainLeaves(worlds[n].s, events, t, key);
  }

  /** A drain forgets a silent entry exactly if it is closed. */
  lemma {:induction false} DrainLeaves(s: State, events: seq<CtrlEvent>, t: State, key: SessionKey)
    requires Valid(s) && !s.closed && Drains(s, events, t) && Silent(s, key)
    ensures key in t.sessions <==> !Forgotten(s, key)
    decreases |events|
  {
    if events == [] {
      NextEntry(s, None, t, key);
    } else {
      var m :| NextStep(s, Some(events[0]), m) && Drains(m, events[1..], t);
      NextValid(s, Some(events[0]), m);
      NextFrame(s, Some(events[0]), m);
      NextEntry(s, Some(events[0]), m, key);
      DrainLeaves(m, events[1..], t, key);
    }
  }

  // ---------------------------------------------------------------------------
  // Routing updates and stream ends
  // ---------------------------------------------------------------------------

  /** A fresh opening replaces the closed generation of the key. */
  predicate Restarts(w: World, a: Action, key: SessionKey) {
    OpensKey(a, key) && key in w.s.sessions && w.s.sessions[key].close
  }

  /** The routing update of the key that is still to be sent after the step, given the one before it. */
  function RouteAfter(w: World, a: Action, key: SessionKey, before: Option<Bytes>): Option<Bytes> {
    match a
    case Route(k, update) => if k == key && AcceptsRouting(w.s, key) then Some(RoutingBytes(update)) else before
    case Announce(id, present) => if id == key.channelID && !present then None else before
    case Open(_) => if Restarts(w, a, key) then None else before
    case Emit(event) => if event.Some? && event.value.SendRouting? && event.value.key == key then None else before
    case _ => before
  }

  /** Likewise, whether the key's stream is still to be ended. */
  function EndAfter(w: World, a: Action, key: SessionKey, before: bool): bool {
    match a
    case EndStream(k) => k == key || before
    case Open(_) => before && !Restarts(w, a, key)
    case Emit(event) => before && event != Some(CloseStream(key))
    case _ => before
  }

  /**
    * The last update accepted for the key, unless it was sent since, its channel was withdrawn, the session
    * was opened afresh after a close, or the key was forgotten.
    */
  function RouteNow(worlds: seq<World>, actions: seq<Action>, n: nat, key: SessionKey): Option<Bytes>
    requires n <= |actions| < |worlds|
  {
    if n == 0 || key !in worlds[n].s.sessions then None
    else RouteAfter(worlds[n - 1], actions[n - 1], key, RouteNow(worlds, actions, n - 1, key))
  }

  /** A stream end was asked for, and neither sent since nor dropped by a fresh opening or with the key. */
  function EndNow(worlds: seq<World>, actions: seq<Action>, n: nat, key: SessionKey): bool
    requires n <= |actions| < |worlds|
  {
    && n > 0 && key in worlds[n].s.sessions
    && EndAfter(worlds[n - 1], actions[n - 1], key, EndNow(worlds, actions, n - 1, key))
  }

  /** The entry's update and stream end are the ones still to be sent. */
  predicate EntryOwes(s: State, key: SessionKey, route: Option<Bytes>, end: bool) {
    if key in s.sessions then s.sessions[key].routing == route && s.sessions[key].closeStream == end
    else route.None? && !end
  }

  lemma CallOwes(w: World, a: Action, w': World, key: SessionKey, route: Option<Bytes>, end: bool)
    requires Step(w, a, w') && !w.s.closed && !a.Emit? && EntryOwes(w.s, key, route, end) && key in w'.s.sessions
    ensures EntryOwes(w'.s, key, RouteAfter(w, a, key, route), EndAfter(w, a, key, end))
  {
    match a
    case Open(opening) => OpenOwes(w, opening, key, route, end);
    case Announce(id, present) => AnnounceOwes(w, id, present, key, route, end);
    case _ =>
  }

  lemma OpenOwes(w: World, opening: Opening, key: SessionKey, route: Option<Bytes>, end: bool)
    requires !w.s.closed && EntryOwes(w.s, key, route, end) && key in RequestOpen(w.s, opening).sessions
    ensures EntryOwes(RequestOpen(w.s, opening), key, RouteAfter(w, Open(opening), key, route),
        EndAfter(w, Open(opening), key, end))
  {
  }

  lemma AnnounceOwes(w: World, id: ChannelID, present: bool, key: SessionKey, route: Option<Bytes>, end: bool)
    requires !w.s.closed && EntryOwes(w.s, key, route, end) && key in w.s.sessions
    ensures EntryOwes(SetWanted(w.s, id, present), key, RouteAfter(w, Announce(id, present), key, route), end)
  {
  }

  lemma EmitOwes(w: World, a: Action, w': World, key: SessionKey, route: Option<Bytes>, end: bool)
    requires Valid(w.s) && Step(w, a, w') && !w.s.closed && a.Emit? && EntryOwes(w.s, key, route, end)
    requires key in w'.s.sessions
    ensures EntryOwes(w'.s, key, RouteAfter(w, a, key, route), EndAfter(w, a, key, end))
  {
    NextEntry(w.s, a.event, w'.s, key);
  }

  lemma ClosedHasNone(worlds: seq<World>, actions: seq<Action>, n: nat, key: SessionKey)
    requires IsRun(worlds, actions) && n <= |actions| && key in worlds[n].s.sessions
    ensures !worlds[n].s.closed
  {
    RunConsistent(worlds, actions, n);
  }

  lemma {:induction false} RunOwes(worlds: seq<World>, actions: seq<Action>, n: nat, key: SessionKey)
    requires IsRun(worlds, actions) && n <= |actions|
    ensures EntryOwes(worlds[n].s, key, RouteNow(worlds, actions, n, key), EndNow(worlds, actions, n, key))
  {
    if n > 0 && key in worlds[n].s.sessions {
      ClosedHasNone(worlds, actions, n, key);
      OpenBefore(worlds, actions, n - 1, n);
      RunOwes(worlds, actions, n - 1, key);
      StepOwes(worlds, actions, n - 1, key);
    }
  }

  lemma StepOwes(worlds: seq<World>, actions: seq<Action>, n: nat, key: SessionKey)
    requires IsRun(worlds, actions) && n < |actions| && !worlds[n].s.closed && key in worlds[n + 1].s.sessions
    requires EntryOwes(worlds[n].s, key, RouteNow(worlds, actions, n, key), EndNow(worlds, actions, n, key))
    ensures EntryOwes(worlds[n + 1].s, key, RouteNow(worlds, actions, n + 1, key), EndNow(worlds, actions, n + 1, key))
  {
    var route, end := RouteNow(worlds, actions, n, key), EndNow(worlds, actions, n, key);
    RunConsistent(worlds, actions, n);
    assert Step(worlds[n], actions[n], worlds[n + 1]);
    if actions[n].Emit? {
      EmitOwes(worlds[n], actions[n], worlds[n + 1], key, route, end);
    } else {
      CallOwes(worlds[n], actions[n], worlds[n + 1], key, route, end);
    }
  }

  /** The events of one phase. */
  function InPhase(events: seq<CtrlEvent>, phase: nat): seq<CtrlEvent> {
    if events == [] then [] else One(Phase(Some(events[0])) == phase, events[0]) + InPhase(events[1..], phase)
  }

  lemma {:induction false} InPhaseSplit(a: seq<CtrlEvent>, b: seq<CtrlEvent>, phase: nat)
    ensures InPhase(a + b, phase) == InPhase(a, phase) + InPhase(b, phase)
  {
    if a == [] {
      assert a + b == b;
    } else {
      assert (a + b)[0] == a[0] && (a + b)[1..] == a[1..] + b;
      InPhaseSplit(a[1..], b, phase);
    }
  }

  lemma InPhaseOne(b: bool, event: CtrlEvent, phase: nat)
    ensures InPhase(One(b, event), phase) == One(b && Phase(Some(event)) == phase, event)
  {
    assert [event][1..] == [];
  }

  /** The session is open at the remote once the entry's events were sent. */
  predicate EndsOpen(out: SessionOut) {
    !Doomed(out) && (Opens(out) || (out.open && !out.close))
  }

  function RoutingEvents(key: SessionKey, routing: Option<Bytes>): seq<CtrlEvent> {
    if routing.Some? then [SendRouting(key, routing.value)] else []
  }

  lemma RoutingPhase(key: SessionKey, routing: Option<Bytes>)
    ensures InPhase(RoutingEvents(key, routing), 5) == RoutingEvents(key, routing)
    ensures InPhase(RoutingEvents(key, routing), 4) == []
  {
    if routing.Some? {
      InPhaseOne(true, SendRouting(key, routing.value), 5);
      InPhaseOne(true, SendRouting(key, routing.value), 4);
    }
  }

  lemma OpenPhase(out: SessionOut, phase: nat)
    requires phase > 3
    ensures InPhase(if Opens(out) then [OpenSession(out.pendingOpen.value)] else [], phase) == []
  {
    if Opens(out) {
      InPhaseOne(true, OpenSession(out.pendingOpen.value), phase);
    }
  }

  /** What an entry's events say of the stream's end and of routing. */
  lemma EntryPhases(key: SessionKey, out: SessionOut)
    ensures InPhase(EntryEvents(key, out), 5) == if EndsOpen(out) then RoutingEvents(key, out.routing) else []
    ensures InPhase(EntryEvents(key, out), 4) == One(EndsOpen(out) && out.closeStream, CloseStream(key))
  {
    if !Doomed(out) {
      EntryPhase(key, out, 4);
      EntryPhase(key, out, 5);
      RoutingPhase(key, out.routing);
      InPhaseOne(out.closeStream, CloseStream(key), 4);
      InPhaseOne(out.closeStream, CloseStream(key), 5);
    }
  }

  lemma EntryPhase(key: SessionKey, out: SessionOut, phase: nat)
    requires !Doomed(out) && phase > 3
    ensures InPhase(EntryEvents(key, out), phase)
        == if EndsOpen(out) then
             InPhase(One(out.closeStream, CloseStream(key)), phase) + InPhase(RoutingEvents(key, out.routing), phase)
           else []
  {
    var first := One(out.close, CloseSession(key));
    var second := if Opens(out) then [OpenSession(out.pendingOpen.value)] else [];
    var third := if EndsOpen(out) then One(out.closeStream, CloseStream(key)) + RoutingEvents(key, out.routing) else [];
    assert EntryEvents(key, out) == first + second + third;
    InPhaseSplit(first + second, third, phase);
    InPhaseSplit(first, second, phase);
    InPhaseOne(out.close, CloseSession(key), phase);
    OpenPhase(out, phase);
    InPhaseSplit(One(out.closeStream, CloseStream(key)), RoutingEvents(key, out.routing), phase);
  }

  /** Which sessions are open at the remote after the drain. */
  lemma DrainOpens(worlds: seq<World>, actions: seq<Action>, n: nat, key: SessionKey, events: seq<CtrlEvent>, t: State)
    requires IsRun(worlds, actions) && n <= |actions| && !worlds[n].s.closed && Drains(worlds[n].s, events, t)
    ensures key in TellAll(worlds[n].told, events).sessions
        <==> key in worlds[n].s.sessions && EndsOpen(worlds[n].s.sessions[key])
  {
    RunConsistent(worlds, actions, n);
    RunThenDrainConverges(worlds, actions, n, events, t);
    assert Agrees(worlds[n], key);
  }

  /**
    * Over every run: for a session the drain leaves open at the remote, it sends exactly the last routing
    * update accepted and not sent, withdrawn or superseded since, once; for any other session none.
    */
  lemma LatestRoutingIsSent(worlds: seq<World>, actions: seq<Action>, n: nat, key: SessionKey, events: seq<CtrlEvent>,
      t: State)
    requires IsRun(worlds, actions) && n <= |actions| && !worlds[n].s.closed && Drains(worlds[n].s, events, t)
    ensures InPhase(OfKey(events, key), 5)
        == if key in TellAll(worlds[n].told, events).sessions then RoutingEvents(key, RouteNow(worlds, actions, n, key))
           else []
  {
    DrainOpens(worlds, actions, n, key, events, t);
    DrainOwed(worlds, actions, n, key, events, t);
  }

  /** Likewise a stream end asked for and not sent or superseded since is sent exactly once. */
  lemma StreamEndIsSent(worlds: seq<World>, actions: seq<Action>, n: nat, key: SessionKey, events: seq<CtrlEvent>,
      t: State)
    requires IsRun(worlds, actions) && n <= |actions| && !worlds[n].s.closed && Drains(worlds[n].s, events, t)
    ensures InPhase(OfKey(events, key), 4)
        == One(key in TellAll(worlds[n].told, events).sessions && EndNow(worlds, actions, n, key), CloseStream(key))
  {
    DrainOpens(worlds, actions, n, key, events, t);
    DrainOwed(worlds, actions, n, key, events, t);
  }

  lemma DrainOwed(worlds: seq<World>, actions: seq<Action>, n: nat, key: SessionKey, events: seq<CtrlEvent>, t: State)
    requires IsRun(worlds, actions) && n <= |actions| && !worlds[n].s.closed && Drains(worlds[n].s, events, t)
    ensures var s := worlds[n].s;
            var open := key in s.sessions && EndsOpen(s.sessions[key]);
            && InPhase(OfKey(events, key), 5)
                == (if open then RoutingEvents(key, RouteNow(worlds, actions, n, key)) else [])
            && InPhase(OfKey(events, key), 4) == One(open && EndNow(worlds, actions, n, key), CloseStream(key))
  {
    RunConsistent(worlds, actions, n);
    DrainPerKey(worlds[n].s, events, t, key);
    RunOwes(worlds, actions, n, key);
    if key in worlds[n].s.sessions {
      EntryPhases(key, worlds[n].s.sessions[key]);
    }
  }

  // ---------------------------------------------------------------------------
  // Shutdown
  // ---------------------------------------------------------------------------

  /** Over every run: once stopped, the state stays closed and Next returns nothing. */
  lemma {:induction false} StoppedForGood(worlds: seq<World>, actions: seq<Action>, i: nat, n: nat)
    requires IsRun(worlds, actions) && i < n <= |actions| && actions[i].Stop?
    ensures worlds[n].s.closed && (n < |actions| && actions[n].Emit? ==> actions[n].event.None?)
    decreases n
  {
    assert Step(worlds[n - 1], actions[n - 1], worlds[n - 1 + 1]);
    if i < n - 1 {
      StoppedForGood(worlds, actions, i, n - 1);
    }
    if n < |actions| {
      assert Step(worlds[n], actions[n], worlds[n + 1]);
    }
  }

  // ---------------------------------------------------------------------------
  // A close that does not take effect
  // ---------------------------------------------------------------------------

  lemma FirstOpening(first: Opening) returns (w1: World, w2: World)
    ensures Step(NEW_WORLD, Open(first), w1) && Step(w1, Emit(Some(OpenSession(first))), w2)
    ensures w2.s == State(false, true, map[], map[first.key := SessionOut(None, true, None, false, false, 1)], 1)
    ensures w2
        == NEW_WORLD.(s := w2.s, desired := map[first.key := first], told := Tell(NEW_WORLD.told, OpenSession(first)))
  {
    w1 := NEW_WORLD.(s := RequestOpen(NEW_WORLD.s, first), desired := map[first.key := first]);
    w2 := w1.(s := w1.s.(sessions := map[first.key := SessionOut(None, true, None, false, false, 1)]),
              told := Tell(w1.told, OpenSession(first)));
    assert Opens(w1.s.sessions[first.key]);
    assert Undoomed(w1.s.sessions) == w1.s.sessions;
  }

  /** Opened and sent, closed, opened again: this state is reached by a run. */
  lemma ReopeningIsReached(first: Opening, second: Opening) returns (worlds: seq<World>, actions: seq<Action>)
    requires first.key == second.key
    ensures IsRun(worlds, actions)
    ensures actions == [Open(first), Emit(Some(OpenSession(first))), Close(first.key), Open(second)]
    ensures worlds[4].s
        == State(false, true, map[], map[first.key := SessionOut(Some(second), true, None, false, false, 1)], 1)
    ensures worlds[4].told == Told({}, map[first.key := first])
  {
    var k := first.key;
    var w0 := NEW_WORLD;
    var w1, w2 := FirstOpening(first);
    var w3 := w2.(s := RequestClose(w2.s, k), desired := map[]);
    var w4 := w3.(s := RequestOpen(w3.s, second), desired := map[k := second]);
    worlds := [w0, w1, w2, w3, w4];
    actions := [Open(first), Emit(Some(OpenSession(first))), Close(k), Open(second)];
  }

  /**
    * Closed once more before a drain, the session is wanted by nobody, yet the drain closes the first
    * opening and then sends the second.
    */
  lemma OrphanedReopening(first: Opening, second: Opening)
    returns (worlds: seq<World>, actions: seq<Action>, events: seq<CtrlEvent>, t: State)
    requires first.key == second.key
    ensures IsRun(worlds, actions) && |worlds| == 6 && actions[4] == Close(first.key)
    ensures Drains(worlds[5].s, events, t) && events == [CloseSession(first.key), OpenSession(second)]
    ensures first.key !in worlds[5].desired
    ensures first.key in TellAll(worlds[5].told, events).sessions
  {
    worlds, actions := ReopeningIsReached(first, second);
    var w4 := worlds[4];
    var k := first.key;
    var w5 := w4.(s := RequestClose(w4.s, k), desired := w4.desired - {k}, orphans := w4.orphans + {k});
    events, t := OrphanDrain(w5.s, k, second);
    worlds, actions := worlds + [w5], actions + [Close(k)];
    CloseTakesEffect(worlds, actions, 4, 5, k, events, t);
  }

  lemma OrphanDrain(s: State, k: SessionKey, second: Opening) returns (events: seq<CtrlEvent>, t: State)
    requires second.key == k
    requires s == State(false, true, map[], map[k := SessionOut(Some(second), true, None, false, true, 1)], 1)
    ensures events == [CloseSession(k), OpenSession(second)] && Drains(s, events, t)
  {
    events := [CloseSession(k), OpenSession(second)];
    var m := s.(sessions := map[k := SessionOut(Some(second), false, None, false, false, 1)]);
    t := s.(sessions := map[k := SessionOut(None, true, None, false, false, 1)]);
    assert NextStep(s, Some(CloseSession(k)), m) by {
      assert Closing(s.sessions[k]);
      assert Purged(s.sessions, 1) == s.sessions;
    }
    assert NextStep(m, Some(OpenSession(second)), t) by {
      assert Opens(m.sessions[k]);
      assert Undoomed(m.sessions) == m.sessions && Living(m.channels) == m.channels;
    }
    assert NextStep(t, None, t) by {
      assert Undoomed(t.sessions) == t.sessions && Living(t.channels) == t.channels;
    }
    assert events[1..] == [OpenSession(second)] && events[1..][1..] == [];
    assert Drains(t, events[1..][1..], t);
    assert Drains(m, events[1..], t);
  }
}
