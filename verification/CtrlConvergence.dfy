/** What the remote believes after any run on a peer's outbound control state. */
module CtrlConvergence {
  import opened Basics
  import opened CtrlSpec

  // ---------------------------------------------------------------------------
  // One step of Next, seen from one channel and from one session
  // ---------------------------------------------------------------------------

  /** The fixed phase order; nothing to do comes last. */
  function Phase(event: Option<CtrlEvent>): nat {
    if event.None? then 6
    else match event.value
         case CloseSession(_) => 0
         case Unsubscribe(_) => 1
         case Subscribe(_) => 2
         case OpenSession(_) => 3
         case CloseStream(_) => 4
         case SendRouting(_, _) => 5
  }

  predicate IsSessionEvent(event: CtrlEvent) {
    !event.Unsubscribe? && !event.Subscribe?
  }

  function KeyOf(event: CtrlEvent): SessionKey
    requires IsSessionEvent(event)
  {
    if event.OpenSession? then event.opening.key else event.key
  }

  predicate AboutKey(event: CtrlEvent, key: SessionKey) {
    IsSessionEvent(event) && KeyOf(event) == key
  }

  predicate AboutChannel(event: CtrlEvent, id: ChannelID) {
    !IsSessionEvent(event) && event.id == id
  }

  function Find<K, V>(m: map<K, V>, k: K): Option<V> {
    if k in m then Some(m[k]) else None
  }

  /** What happens to the entry of key when Next returns event. */
  predicate EntryStep(key: SessionKey, before: Option<SessionOut>, event: Option<CtrlEvent>,
      after: Option<SessionOut>) {
    if event.Some? && AboutKey(event.value, key) then
      && before.Some?
      && var out := before.value;
      match event.value
      case CloseSession(_) =>
        Closing(out) && after == if Opens(out) then Some(out.(close := false, open := false)) else None
      case OpenSession(opening) =>
        !out.close && out.pendingOpen == Some(opening) && after == Some(out.(pendingOpen := None, open := true))
      case CloseStream(_) =>
        !out.close && !Opens(out) && EndsStream(out) && after == Some(out.(closeStream := false))
      case SendRouting(_, update) =>
        && !out.close && !Opens(out) && !EndsStream(out) && Routes(out) && out.routing == Some(update)
        && after == Some(out.(routing := None))
    else if before.Some? && Doomed(before.value) then
      after == if Phase(event) == 0 && after.Some? then before else None
    else
      && after == before
      && (before.Some? ==> Phase(event) <= FirstPhase(before.value))
  }

  /** The phase in which a live entry has its next event. */
  function FirstPhase(out: SessionOut): nat {
    if Closing(out) then 0
    else if Opens(out) then 3
    else if EndsStream(out) then 4
    else if Routes(out) then 5
    else 6
  }

  lemma NextEntryOnClose(s: State, event: Option<CtrlEvent>, s': State, key: SessionKey)
    requires !s.closed && NextStep(s, event, s') && !NoSession(s.sessions, Closing)
    ensures EntryStep(key, Find(s.sessions, key), event, Find(s'.sessions, key))
  {
  }

  lemma NextEntryOnSession(s: State, live: Sessions, event: Option<CtrlEvent>, s': State, key: SessionKey)
    requires SessionEvent(s, live, event, s')
    requires forall k :: k in live ==> !live[k].close
    requires forall k :: k in live && Opens(live[k]) ==> live[k].pendingOpen.value.key == k
    ensures EntryStep(key, Find(live, key), event, Find(s'.sessions, key))
    ensures Phase(event) > 2
  {
  }

  lemma NextEntry(s: State, event: Option<CtrlEvent>, s': State, key: SessionKey)
    requires Valid(s) && !s.closed && NextStep(s, event, s')
    ensures EntryStep(key, Find(s.sessions, key), event, Find(s'.sessions, key))
  {
    if !NoSession(s.sessions, Closing) {
      NextEntryOnClose(s, event, s', key);
    } else {
      var live := Undoomed(s.sessions);
      assert forall k :: k in live ==> !live[k].close;
      if NoChannel(s.channels, Retires) && NoChannel(s.channels, Joins) {
        NextEntryOnSession(s.(channels := Living(s.channels)), live, event, s', key);
      }
    }
  }

  /** What happens to a channel when Next returns event. */
  predicate ChannelStep(id: ChannelID, before: Option<ChannelOut>, event: Option<CtrlEvent>,
      after: Option<ChannelOut>) {
    if event == Some(Unsubscribe(id)) then
      && before.Some? && Retires(before.value)
      && after == if before.value.want then Some(ChannelOut(true, false, false)) else None
    else if event == Some(Subscribe(id)) then
      && before.Some? && Joins(before.value) && !before.value.retire
      && after == Some(ChannelOut(true, true, false))
    else if before.Some? && Dead(before.value) then
      after == if Phase(event) <= 1 && after.Some? then before else None
    else
      && after == before
      && (before.Some? && Retires(before.value) ==> Phase(event) <= 1)
      && (before.Some? && Joins(before.value) ==> Phase(event) <= 2)
  }

  lemma NextChannel(s: State, event: Option<CtrlEvent>, s': State, id: ChannelID)
    requires Valid(s) && !s.closed && NextStep(s, event, s')
    ensures ChannelStep(id, Find(s.channels, id), event, Find(s'.channels, id))
  {
  }

  lemma NextFrame(s: State, event: Option<CtrlEvent>, s': State)
    requires NextStep(s, event, s')
    ensures s'.closed == s.closed && s'.ready == s.ready && s'.nextOrder == s.nextOrder
  {
  }

  lemma NextValid(s: State, event: Option<CtrlEvent>, s': State)
    requires Valid(s) && NextStep(s, event, s')
    ensures Valid(s')
  {
    NextFrame(s, event, s');
    if !s.closed {
      forall k | k in s'.sessions
        ensures k in s.sessions && s'.sessions[k].order == s.sessions[k].order
        ensures Opens(s'.sessions[k]) ==> s'.sessions[k].pendingOpen == s.sessions[k].pendingOpen
      {
        NextEntry(s, event, s', k);
      }
      forall id | id in s'.channels
        ensures s'.channels[id].retire ==> s'.channels[id].announced
      {
        NextChannel(s, event, s', id);
      }
    }
  }

  // ---------------------------------------------------------------------------
  // The remote's side
  // ---------------------------------------------------------------------------

  /** What the remote has been told: our channels, and our open sessions with their last opening. */
  datatype Told = Told(channels: set<ChannelID>, sessions: map<SessionKey, Opening>)

  function Tell(told: Told, event: CtrlEvent): Told {
    match event
    case CloseSession(key) => told.(sessions := told.sessions - {key})
    case Unsubscribe(id) => told.(channels := told.channels - {id})
    case Subscribe(id) => told.(channels := told.channels + {id})
    case OpenSession(opening) => told.(sessions := told.sessions[opening.key := opening])
    case CloseStream(_) => told
    case SendRouting(_, _) => told
  }

  /**
    * The event makes sense to a remote that was told this much: SUBSCRIBE and UNSUBSCRIBE alternate,
    * and a close, stream end or routing update concerns an open session.
    */
  predicate Sensible(told: Told, event: CtrlEvent) {
    match event
    case Unsubscribe(id) => id in told.channels
    case Subscribe(id) => id !in told.channels
    case OpenSession(_) => true
    case _ => event.key in told.sessions
  }

  predicate IsOpen(s: State, key: SessionKey) {
    key in s.sessions && s.sessions[key].open
  }

  /** The flags record exactly what was told. */
  ghost predicate Linked(s: State, told: Told) {
    && (forall id :: id in told.channels <==> ChannelOf(s, id).announced)
    && (forall key :: key in told.sessions <==> IsOpen(s, key))
  }

  lemma NextSensible(s: State, told: Told, event: CtrlEvent, s': State)
    requires Valid(s) && !s.closed && Linked(s, told) && NextStep(s, Some(event), s')
    ensures Sensible(told, event)
  {
    if IsSessionEvent(event) {
      NextEntry(s, Some(event), s', KeyOf(event));
    } else {
      NextChannel(s, Some(event), s', event.id);
    }
  }

  lemma ChannelLinked(told: Told, event: CtrlEvent, before: Option<ChannelOut>, after: Option<ChannelOut>,
      id: ChannelID)
    requires ChannelStep(id, before, Some(event), after)
    requires id in told.channels <==> before.Some? && before.value.announced
    ensures id in Tell(told, event).channels <==> after.Some? && after.value.announced
  {
  }

  lemma EntryLinked(told: Told, event: CtrlEvent, before: Option<SessionOut>, after: Option<SessionOut>,
      key: SessionKey)
    requires EntryStep(key, before, Some(event), after)
    requires key in told.sessions <==> before.Some? && before.value.open
    ensures key in Tell(told, event).sessions <==> after.Some? && after.value.open
  {
  }

  lemma NextLinked(s: State, told: Told, event: CtrlEvent, s': State)
    requires Valid(s) && !s.closed && Linked(s, told) && NextStep(s, Some(event), s')
    ensures Linked(s', Tell(told, event))
  {
    var told' := Tell(told, event);
    forall id: ChannelID
      ensures id in told'.channels <==> ChannelOf(s', id).announced
    {
      NextChannel(s, Some(event), s', id);
      ChannelLinked(told, event, Find(s.channels, id), Find(s'.channels, id), id);
    }
    forall key: SessionKey
      ensures key in told'.sessions <==> IsOpen(s', key)
    {
      NextEntry(s, Some(event), s', key);
      EntryLinked(told, event, Find(s.sessions, key), Find(s'.sessions, key), key);
    }
  }

  lemma NextNoneLinked(s: State, told: Told, s': State)
    requires Valid(s) && !s.closed && Linked(s, told) && NextStep(s, None, s')
    ensures Linked(s', told)
  {
    forall id: ChannelID
      ensures ChannelOf(s', id).announced == ChannelOf(s, id).announced
    {
      NextChannel(s, None, s', id);
    }
    forall key: SessionKey
      ensures IsOpen(s', key) == IsOpen(s, key)
    {
      NextEntry(s, None, s', key);
    }
  }

  lemma NextNoneQuiet(s: State, s': State)
    requires Valid(s) && NextStep(s, None, s')
    ensures Quiet(s')
  {
    if !s.closed {
      forall k | k in s'.sessions
        ensures FirstPhase(s'.sessions[k]) == 6
      {
        NextEntry(s, None, s', k);
      }
      forall id | id in s'.channels
        ensures !Retires(s'.channels[id]) && !Joins(s'.channels[id])
      {
        NextChannel(s, None, s', id);
      }
    }
  }

  /** Next returns nothing exactly when nothing is owed. */
  lemma NextNoneIff(s: State, event: Option<CtrlEvent>, s': State)
    requires NextStep(s, event, s')
    ensures event.None? <==> Quiet(s)
  {
    LivingKeepsJoins(s.channels);
  }

  // ---------------------------------------------------------------------------
  // Runs
  // ---------------------------------------------------------------------------

  /**
    * One peer's control state beside the simple maps it stands for. wanted and desired are what the
    * last Announce, OpenSession or CloseSession of each channel or key asked for. orphans are keys
    * whose last CloseSession arrived while an older opening was open at the remote and a newer one
    * was still pending. waiting says that the control loop found nothing and waits for the wake token.
    */
  datatype World = World(
    s: State,
    told: Told,
    wanted: set<ChannelID>,
    desired: map<SessionKey, Opening>,
    orphans: set<SessionKey>,
    waiting: bool)

  datatype Action =
    | Hello(ids: seq<ChannelID>)
    | Announce(id: ChannelID, present: bool)
    | Open(opening: Opening)
    | Close(key: SessionKey)
    | EndStream(key: SessionKey)
    | Route(key: SessionKey, update: Option<Bytes>)
    | Emit(event: Option<CtrlEvent>)
    | Wake
    | Stop

  const NEW_WORLD := World(NEW_STATE, Told({}, map[]), {}, map[], {}, false)

  /** An older opening of key is open at the remote and a newer one has not been handed out. */
  predicate Reopening(s: State, key: SessionKey) {
    key in s.sessions && s.sessions[key].open && Opens(s.sessions[key])
  }

  /** The world after a call; Emit and Wake are not calls. */
  function AfterCall(w: World, a: Action): World {
    match a
    case Hello(ids) =>
      // The Hello told the remote every channel it lists; those the state holds already stay as they are.
      if w.s.closed then w
      else
        w.(s := RecordHello(w.s, ids),
           told := w.told.(channels := w.told.channels + set id | id in ids),
           wanted := w.wanted + set id | id in ids && id !in w.s.channels)
    case Announce(id, present) =>
      w.(s := SetWanted(w.s, id, present), wanted := if present then w.wanted + {id} else w.wanted - {id})
    case Open(opening) =>
      w.(s := RequestOpen(w.s, opening),
         desired := w.desired[opening.key := opening],
         orphans := w.orphans - {opening.key})
    case Close(key) =>
      w.(s := RequestClose(w.s, key),
         desired := w.desired - {key},
         orphans := if Reopening(w.s, key) then w.orphans + {key} else w.orphans - {key})
    case EndStream(key) => w.(s := RequestStreamEnd(w.s, key))
    case Route(key, update) => w.(s := RequestRouting(w.s, key, update))
    case Stop => w.(s := Shutdown(w.s))
    case _ => w
  }

  /** Every channel the Hello lists that the state holds already was announced. */
  predicate HelloFits(s: State, ids: seq<ChannelID>) {
    forall id :: id in ids && id in s.channels ==> s.channels[id].announced
  }

  ghost predicate Step(w: World, a: Action, w': World) {
    match a
    case Hello(ids) => HelloFits(w.s, ids) && w' == AfterCall(w, a)
    case Emit(event) =>
      && NextStep(w.s, event, w'.s)
      && w' == w.(s := w'.s,
                  told := if event.Some? then Tell(w.told, event.value) else w.told,
                  waiting := event.None?)
    case Wake => w.waiting && w.s.ready && w' == w.(s := w.s.(ready := false), waiting := false)
    case _ => w' == AfterCall(w, a)
  }

  ghost predicate IsRun(worlds: seq<World>, actions: seq<Action>) {
    && |worlds| == |actions| + 1
    && worlds[0] == NEW_WORLD
    && forall i :: 0 <= i < |actions| ==> Step(worlds[i], actions[i], worlds[i + 1])
  }

  /** One key's entry agrees with what was asked for it. */
  ghost predicate Agrees(w: World, key: SessionKey) {
    if key in w.desired then
      && key !in w.orphans && key in w.s.sessions
      && var out := w.s.sessions[key];
      && !out.close
      && if Opens(out) then out.pendingOpen.value == w.desired[key]
         else out.open && key in w.told.sessions && w.told.sessions[key] == w.desired[key]
    else if key in w.orphans then
      && key in w.s.sessions
      && var out := w.s.sessions[key];
      if out.close then out.open && Opens(out) else out.open != Opens(out)
    else
      key in w.s.sessions ==>
        var out := w.s.sessions[key];
        if out.close then !(out.open && Opens(out)) else !out.open && !Opens(out)
  }

  ghost predicate Consistent(w: World) {
    && Valid(w.s)
    && (!w.s.closed ==>
          && Linked(w.s, w.told)
          && (forall id :: id in w.wanted <==> ChannelOf(w.s, id).want)
          && (forall key :: Agrees(w, key)))
    && (w.waiting && !w.s.ready ==> Quiet(w.s))
  }

  lemma CallValid(w: World, a: Action, w': World)
    requires Valid(w.s) && Step(w, a, w') && !a.Emit?
    ensures Valid(w'.s)
  {
    match a
    case Hello(ids) => RecordHelloValid(w.s, ids);
    case Announce(id, present) => SetWantedValid(w.s, id, present);
    case Open(opening) => RequestOpenValid(w.s, opening);
    case Close(key) => RequestCloseValid(w.s, key);
    case EndStream(key) => RequestStreamEndValid(w.s, key);
    case Route(key, update) => RequestRoutingValid(w.s, key, update);
    case Wake =>
    case Stop =>
  }

  lemma CallLinked(w: World, a: Action, w': World)
    requires Linked(w.s, w.told)
    requires Step(w, a, w') && !a.Emit? && !a.Stop?
    ensures Linked(w'.s, w'.told)
  {
    forall id: ChannelID
      ensures id in w'.told.channels <==> ChannelOf(w'.s, id).announced
    {
    }
    forall key: SessionKey
      ensures IsOpen(w'.s, key) == IsOpen(w.s, key)
    {
    }
  }

  /** Calls that do not touch the key's entry, its desire or what the remote knows of it. */
  lemma OtherAgrees(w: World, w': World, key: SessionKey)
    requires Agrees(w, key)
    requires Find(w'.s.sessions, key) == Find(w.s.sessions, key) && Find(w'.desired, key) == Find(w.desired, key)
    requires (key in w'.orphans) == (key in w.orphans) && w'.told.sessions == w.told.sessions
    ensures Agrees(w', key)
  {
  }

  lemma AnnounceAgrees(w: World, id: ChannelID, present: bool, key: SessionKey)
    requires Agrees(w, key)
    ensures Agrees(AfterCall(w, Announce(id, present)), key)
  {
  }

  lemma OpenedAgrees(w: World, opening: Opening, key: SessionKey)
    requires !w.s.closed && Agrees(w, key)
    ensures Agrees(AfterCall(w, Open(opening)), key)
  {
    if opening.key != key {
      OtherAgrees(w, AfterCall(w, Open(opening)), key);
    }
  }

  lemma ClosedAgrees(w: World, closed: SessionKey, key: SessionKey)
    requires !w.s.closed && Agrees(w, key)
    ensures Agrees(AfterCall(w, Close(closed)), key)
  {
    if closed != key {
      OtherAgrees(w, AfterCall(w, Close(closed)), key);
    }
  }

  lemma EndedAgrees(w: World, ended: SessionKey, key: SessionKey)
    requires !w.s.closed && Agrees(w, key)
    ensures Agrees(AfterCall(w, EndStream(ended)), key)
  {
    if ended != key {
      OtherAgrees(w, AfterCall(w, EndStream(ended)), key);
    }
  }

  lemma RoutedAgrees(w: World, routed: SessionKey, update: Option<Bytes>, key: SessionKey)
    requires !w.s.closed && Agrees(w, key)
    ensures Agrees(AfterCall(w, Route(routed, update)), key)
  {
    if routed != key {
      OtherAgrees(w, AfterCall(w, Route(routed, update)), key);
    }
  }

  lemma CallAgrees(w: World, a: Action, w': World, key: SessionKey)
    requires !w.s.closed && Agrees(w, key)
    requires Step(w, a, w') && !a.Emit? && !a.Stop?
    ensures Agrees(w', key)
  {
    match a
    case Hello(_) => OtherAgrees(w, w', key);
    case Announce(id, present) => AnnounceAgrees(w, id, present, key);
    case Open(opening) => OpenedAgrees(w, opening, key);
    case Close(closed) => ClosedAgrees(w, closed, key);
    case EndStream(ended) => EndedAgrees(w, ended, key);
    case Route(routed, update) => RoutedAgrees(w, routed, update, key);
    case Wake => OtherAgrees(w, w', key);
  }

  /** A Hello leaves the state in step with what the remote was told exactly when it fits. */
  lemma HelloConsistentIff(w: World, ids: seq<ChannelID>)
    requires Consistent(w) && !w.s.closed
    ensures Consistent(AfterCall(w, Hello(ids))) <==> HelloFits(w.s, ids)
  {
    var w' := AfterCall(w, Hello(ids));
    if HelloFits(w.s, ids) {
      CallConsistent(w, Hello(ids), w');
    } else {
      var id :| id in ids && id in w.s.channels && !w.s.channels[id].announced;
      assert id in w'.told.channels && !ChannelOf(w'.s, id).announced;
    }
  }

  lemma CallConsistent(w: World, a: Action, w': World)
    requires Consistent(w) && Step(w, a, w') && !a.Emit?
    ensures Consistent(w')
  {
    CallValid(w, a, w');
    if !w'.s.closed {
      CallLinked(w, a, w');
      forall key: SessionKey
        ensures Agrees(w', key)
      {
        CallAgrees(w, a, w', key);
      }
    }
  }

  lemma EmitAgrees(w: World, event: Option<CtrlEvent>, w': World, key: SessionKey)
    requires Valid(w.s) && !w.s.closed && Linked(w.s, w.told) && Agrees(w, key)
    requires Step(w, Emit(event), w')
    ensures Agrees(w', key)
  {
    NextEntry(w.s, event, w'.s, key);
    assert key in w.told.sessions <==> IsOpen(w.s, key);
  }

  lemma EmitConsistent(w: World, event: Option<CtrlEvent>, w': World)
    requires Consistent(w) && Step(w, Emit(event), w')
    ensures Consistent(w')
  {
    NextValid(w.s, event, w'.s);
    NextFrame(w.s, event, w'.s);
    if event.None? {
      NextNoneQuiet(w.s, w'.s);
    }
    if !w.s.closed {
      if event.Some? {
        NextLinked(w.s, w.told, event.value, w'.s);
      } else {
        NextNoneLinked(w.s, w.told, w'.s);
      }
      forall id: ChannelID
        ensures ChannelOf(w'.s, id).want == ChannelOf(w.s, id).want
      {
        NextChannel(w.s, event, w'.s, id);
      }
      forall key: SessionKey
        ensures Agrees(w', key)
      {
        EmitAgrees(w, event, w', key);
      }
    }
  }

  /**
    * The remote knows exactly the wanted channels, and exactly the desired sessions, each with its
    * last opening, plus the orphans.
    */
  ghost predicate Converged(w: World) {
    && w.told.channels == w.wanted
    && w.told.sessions.Keys == w.desired.Keys + w.orphans
    && forall key :: key in w.desired ==> w.told.sessions[key] == w.desired[key]
  }

  /** With nothing left to send, the remote knows what was asked for. */
  lemma QuietConverged(w: World)
    requires Consistent(w) && !w.s.closed && Quiet(w.s)
    ensures Converged(w)
  {
    forall id: ChannelID
      ensures id in w.told.channels <==> id in w.wanted
    {
      assert id in w.s.channels ==> !Retires(w.s.channels[id]) && !Joins(w.s.channels[id]);
    }
    forall key: SessionKey
      ensures key in w.told.sessions <==> key in w.desired || key in w.orphans
      ensures key in w.desired ==> key in w.told.sessions && w.told.sessions[key] == w.desired[key]
    {
      assert Agrees(w, key);
      assert key in w.told.sessions <==> IsOpen(w.s, key);
      if key in w.s.sessions && !Doomed(w.s.sessions[key]) {
        assert key in Undoomed(w.s.sessions);
      }
    }
  }

  /** Every state of every run is consistent. */
  lemma {:induction false} RunConsistent(worlds: seq<World>, actions: seq<Action>, n: nat)
    requires IsRun(worlds, actions) && n < |worlds|
    ensures Consistent(worlds[n])
  {
    if n == 0 {
      assert worlds[0] == NEW_WORLD;
    } else {
      RunConsistent(worlds, actions, n - 1);
      assert Step(worlds[n - 1], actions[n - 1], worlds[n - 1 + 1]);
      if actions[n - 1].Emit? {
        EmitConsistent(worlds[n - 1], actions[n - 1].event, worlds[n]);
      } else {
        CallConsistent(worlds[n - 1], actions[n - 1], worlds[n]);
      }
    }
  }

  ghost predicate Reachable(w: World) {
    exists worlds, actions :: IsRun(worlds, actions) && worlds[|actions|] == w
  }

  lemma NewIsReachable()
    ensures Reachable(NEW_WORLD)
  {
    assert IsRun([NEW_WORLD], []);
  }

  lemma StepReachable(w: World, a: Action, w': World)
    requires Reachable(w) && Step(w, a, w')
    ensures Reachable(w')
  {
    var worlds, actions :| IsRun(worlds, actions) && worlds[|actions|] == w;
    assert IsRun(worlds + [w'], actions + [a]);
  }

  lemma ReachableConsistent(w: World)
    requires Reachable(w)
    ensures Consistent(w)
  {
    var worlds, actions :| IsRun(worlds, actions) && worlds[|actions|] == w;
    RunConsistent(worlds, actions, |actions|);
  }
}
