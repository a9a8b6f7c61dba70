/** One peer's outbound control state: wants are recorded, Next hands out transitions. */
module CtrlSpec {
  // The functions below say what each call does to the state as a value; CtrlOut.CtrlOutState is the
  // mutable object, and each of its methods is proved to do exactly that. Next is a relation, not a
  // function, because the order in which a map is ranged over is not fixed.

  import opened Basics

  type ChannelID = string
  type MessageID = string
  type Bytes = seq<bv8>

  datatype SessionKey = SessionKey(channelID: ChannelID, messageID: MessageID)

  /** A session-open request; outbox identifies the Go channel the data loop drains. */
  datatype Opening = Opening(key: SessionKey, preamble: Bytes, initialRouting: Bytes, outbox: nat)

  datatype CtrlEvent =
    | CloseSession(key: SessionKey)
    | Unsubscribe(id: ChannelID)
    | Subscribe(id: ChannelID)
    | OpenSession(opening: Opening)
    | CloseStream(key: SessionKey)
    | SendRouting(key: SessionKey, update: Bytes)

  datatype ChannelOut = ChannelOut(want: bool, announced: bool, retire: bool)

  datatype SessionOut = SessionOut(
    pendingOpen: Option<Opening>,
    open: bool,
    routing: Option<Bytes>,
    closeStream: bool,
    close: bool,
    order: nat)

  type Channels = map<ChannelID, ChannelOut>
  type Sessions = map<SessionKey, SessionOut>

  datatype State = State(
    closed: bool,
    ready: bool,        // the capacity-one wake channel holds a token
    channels: Channels,
    sessions: Sessions,
    nextOrder: nat)

  // ---------------------------------------------------------------------------
  // What each call does
  // ---------------------------------------------------------------------------

  const NO_CHANNEL := ChannelOut(false, false, false)
  const NEW_STATE := State(false, false, map[], map[], 0)

  /** No two entries were created at the same time. */
  predicate Numbered(sessions: Sessions) {
    forall j, k :: j in sessions && k in sessions && sessions[j].order == sessions[k].order ==> j == k
  }

  predicate Valid(s: State) {
    && Numbered(s.sessions)
    && (forall k :: k in s.sessions ==> 1 <= s.sessions[k].order <= s.nextOrder)
    && (forall k :: k in s.sessions && s.sessions[k].pendingOpen.Some? ==> s.sessions[k].pendingOpen.value.key == k)
    && (forall id :: id in s.channels && s.channels[id].retire ==> s.channels[id].announced)
    && (s.closed ==> s.channels == map[] && s.sessions == map[])
  }

  function ChannelOf(s: State, id: ChannelID): ChannelOut {
    if id in s.channels then s.channels[id] else NO_CHANNEL
  }

  function RecordHello(s: State, ids: seq<ChannelID>): State {
    if s.closed then s
    else s.(channels := (map id | id in ids :: ChannelOut(true, true, false)) + s.channels)
  }

  function WithoutRouting(sessions: Sessions, id: ChannelID): Sessions {
    map k | k in sessions :: if k.channelID == id then sessions[k].(routing := None) else sessions[k]
  }

  function SetWanted(s: State, id: ChannelID, present: bool): State {
    if s.closed then s
    else
      var c := ChannelOf(s, id);
      if present then
        s.(channels := s.channels[id := ChannelOut(true, c.announced, c.retire || (c.announced && !c.want))],
           ready := true)
      else
        s.(channels := s.channels[id := c.(want := false)],
           sessions := WithoutRouting(s.sessions, id),
           ready := true)
  }

  /** The entry of key, created on first use. */
  function Entry(s: State, key: SessionKey): SessionOut {
    if key in s.sessions then s.sessions[key]
    else SessionOut(None, false, None, false, false, s.nextOrder + 1)
  }

  function PutEntry(s: State, key: SessionKey, out: SessionOut): State {
    s.(sessions := s.sessions[key := out],
       nextOrder := if key in s.sessions then s.nextOrder else s.nextOrder + 1,
       ready := true)
  }

  function RequestOpen(s: State, opening: Opening): State {
    if s.closed then s
    else
      var out := Entry(s, opening.key);
      // A fresh open replaces a closed generation of the same key.
      var base := if out.close then out.(closeStream := false, routing := None, close := false) else out;
      PutEntry(s, opening.key, base.(pendingOpen := Some(opening)))
  }

  function RequestClose(s: State, key: SessionKey): State {
    if s.closed then s else PutEntry(s, key, Entry(s, key).(close := true))
  }

  function RequestStreamEnd(s: State, key: SessionKey): State {
    if s.closed then s else PutEntry(s, key, Entry(s, key).(closeStream := true))
  }

  /** An absent update is recorded as an empty one. */
  function RoutingBytes(update: Option<Bytes>): Bytes {
    if update.Some? then update.value else []
  }

  predicate AcceptsRouting(s: State, key: SessionKey) {
    !s.closed && key in s.sessions
  }

  function RequestRouting(s: State, key: SessionKey, update: Option<Bytes>): State {
    if !AcceptsRouting(s, key) then s
    else PutEntry(s, key, s.sessions[key].(routing := Some(RoutingBytes(update))))
  }

  function Shutdown(s: State): State {
    s.(closed := true, channels := map[], sessions := map[])
  }

  lemma PutEntryValid(s: State, key: SessionKey, out: SessionOut)
    requires Valid(s) && !s.closed
    requires out.order == Entry(s, key).order
    requires out.pendingOpen.Some? ==> out.pendingOpen.value.key == key
    ensures Valid(PutEntry(s, key, out))
  {
  }

  lemma RecordHelloValid(s: State, ids: seq<ChannelID>)
    requires Valid(s)
    ensures Valid(RecordHello(s, ids))
  {
  }

  lemma SetWantedValid(s: State, id: ChannelID, present: bool)
    requires Valid(s)
    ensures Valid(SetWanted(s, id, present))
  {
  }

  lemma RequestOpenValid(s: State, opening: Opening)
    requires Valid(s)
    ensures Valid(RequestOpen(s, opening))
  {
    if !s.closed {
      PutEntryValid(s, opening.key, RequestOpen(s, opening).sessions[opening.key]);
    }
  }

  lemma RequestCloseValid(s: State, key: SessionKey)
    requires Valid(s)
    ensures Valid(RequestClose(s, key))
  {
    if !s.closed {
      PutEntryValid(s, key, RequestClose(s, key).sessions[key]);
    }
  }

  lemma RequestStreamEndValid(s: State, key: SessionKey)
    requires Valid(s)
    ensures Valid(RequestStreamEnd(s, key))
  {
    if !s.closed {
      PutEntryValid(s, key, RequestStreamEnd(s, key).sessions[key]);
    }
  }

  lemma RequestRoutingValid(s: State, key: SessionKey, update: Option<Bytes>)
    requires Valid(s)
    ensures Valid(RequestRouting(s, key, update))
  {
    if AcceptsRouting(s, key) {
      PutEntryValid(s, key, RequestRouting(s, key, update).sessions[key]);
    }
  }

  // ---------------------------------------------------------------------------
  // What Next does
  // ---------------------------------------------------------------------------

  predicate Closes(out: SessionOut) { out.close }
  predicate Doomed(out: SessionOut) { out.close && !out.open }      // forgotten without an event
  predicate Closing(out: SessionOut) { out.close && out.open }
  predicate Opens(out: SessionOut) { out.pendingOpen.Some? }
  predicate EndsStream(out: SessionOut) { out.closeStream && out.open }
  predicate Routes(out: SessionOut) { out.routing.Some? && out.open }

  predicate Dead(c: ChannelOut) { !c.want && !c.announced && !c.retire }
  predicate Retires(c: ChannelOut) { c.retire || (!c.want && c.announced) }
  predicate Joins(c: ChannelOut) { c.want && !c.announced }

  /** key is the earliest-created entry that matches. */
  predicate IsFirst(sessions: Sessions, key: SessionKey, matches: SessionOut -> bool) {
    && key in sessions && matches(sessions[key])
    && forall k :: k in sessions && matches(sessions[k]) ==> sessions[key].order <= sessions[k].order
  }

  predicate NoSession(sessions: Sessions, matches: SessionOut -> bool) {
    forall k :: k in sessions ==> !matches(sessions[k])
  }

  predicate NoChannel(channels: Channels, matches: ChannelOut -> bool) {
    forall id :: id in channels ==> !matches(channels[id])
  }

  /** The sessions without the doomed entries created before order. */
  function Purged(sessions: Sessions, order: nat): Sessions {
    map k | k in sessions && !(Doomed(sessions[k]) && sessions[k].order < order) :: sessions[k]
  }

  function Undoomed(sessions: Sessions): Sessions {
    map k | k in sessions && !Doomed(sessions[k]) :: sessions[k]
  }

  function Living(channels: Channels): Channels {
    map id | id in channels && !Dead(channels[id]) :: channels[id]
  }

  /** now is before without some doomed entries, all created before any entry still to be closed. */
  predicate PartlyPurged(before: Sessions, now: Sessions) {
    && now.Keys <= before.Keys
    && (forall k :: k in now ==> now[k] == before[k])
    && (forall k :: k in before && k !in now ==> Doomed(before[k]))
    && (forall j, k :: j in before && j !in now && k in now && Closes(now[k]) ==> before[j].order < now[k].order)
  }

  lemma PurgeOne(before: Sessions, now: Sessions, key: SessionKey)
    requires Numbered(before) && PartlyPurged(before, now)
    requires IsFirst(now, key, Closes) && !now[key].open
    ensures PartlyPurged(before, now - {key}) && |now - {key}| < |now|
  {
    assert (now - {key}).Keys == now.Keys - {key};
  }

  lemma PurgeDone(before: Sessions, now: Sessions)
    requires PartlyPurged(before, now) && NoSession(now, Closes)
    ensures now == Undoomed(before) && NoSession(before, Closing)
  {
    assert forall k :: k in now <==> k in Undoomed(before);
  }

  lemma PurgeFound(before: Sessions, now: Sessions, key: SessionKey)
    requires Numbered(before) && PartlyPurged(before, now)
    requires IsFirst(now, key, Closes) && now[key].open
    ensures IsFirst(before, key, Closing)
    ensures now == Purged(before, before[key].order)
  {
    forall k | k in before
      ensures k in now <==> k in Purged(before, before[key].order)
    {
      if k in now && Doomed(now[k]) {
        assert before[key].order <= now[k].order;
      }
    }
  }

  lemma LivingKeepsJoins(channels: Channels)
    ensures NoChannel(channels, Joins) == NoChannel(Living(channels), Joins)
  {
    forall id | id in channels && Joins(channels[id])
      ensures !NoChannel(Living(channels), Joins)
    {
      assert id in Living(channels);
    }
  }

  /** What is left of key after its close was handed out. */
  function AfterClose(sessions: Sessions, key: SessionKey): Sessions
    requires key in sessions
  {
    if sessions[key].pendingOpen.None? then sessions - {key}
    else sessions[key := sessions[key].(close := false, open := false)]
  }

  /** before becomes after: id was unsubscribed, and dead entries met on the way were dropped. */
  predicate Retired(before: Channels, after: Channels, id: ChannelID) {
    && id in before && Retires(before[id])
    && (if before[id].want then id in after && after[id] == ChannelOut(true, false, false) else id !in after)
    && (forall x :: x in after ==> x in before)
    && (forall x :: x in before && x != id ==>
          if x in after then after[x] == before[x] else Dead(before[x]))
  }

  /** The last three phases work on one entry; out is its value afterwards. */
  predicate SessionEvent(s: State, sessions: Sessions, event: Option<CtrlEvent>, s': State) {
    if !NoSession(sessions, Opens) then
      && event.Some? && event.value.OpenSession?
      && var key := event.value.opening.key;
      && IsFirst(sessions, key, Opens)
      && event.value.opening == sessions[key].pendingOpen.value
      && s' == s.(sessions := sessions[key := sessions[key].(pendingOpen := None, open := true)])
    else if !NoSession(sessions, EndsStream) then
      && event.Some? && event.value.CloseStream?
      && var key := event.value.key;
      && IsFirst(sessions, key, EndsStream)
      && s' == s.(sessions := sessions[key := sessions[key].(closeStream := false)])
    else if !NoSession(sessions, Routes) then
      && event.Some? && event.value.SendRouting?
      && var key := event.value.key;
      && IsFirst(sessions, key, Routes)
      && event.value.update == sessions[key].routing.value
      && s' == s.(sessions := sessions[key := sessions[key].(routing := None)])
    else
      event.None? && s' == s.(sessions := sessions)
  }

  /** One call of Next in state s may return event and leave s'. */
  predicate NextStep(s: State, event: Option<CtrlEvent>, s': State) {
    if s.closed then event.None? && s' == s
    else if !NoSession(s.sessions, Closing) then
      && event.Some? && event.value.CloseSession?
      && var key := event.value.key;
      && IsFirst(s.sessions, key, Closing)
      && s' == s.(sessions := AfterClose(Purged(s.sessions, s.sessions[key].order), key))
    else if !NoChannel(s.channels, Retires) then
      && event.Some? && event.value.Unsubscribe?
      && Retired(s.channels, s'.channels, event.value.id)
      && s' == s.(sessions := Undoomed(s.sessions), channels := s'.channels)
    else if !NoChannel(s.channels, Joins) then
      && event.Some? && event.value.Subscribe?
      && var id := event.value.id;
      && id in s.channels && Joins(s.channels[id])
      && s' == s.(sessions := Undoomed(s.sessions),
                  channels := Living(s.channels)[id := s.channels[id].(announced := true)])
    else
      SessionEvent(s.(channels := Living(s.channels)), Undoomed(s.sessions), event, s')
  }

  /** Next in state s would return nothing. */
  predicate Quiet(s: State) {
    s.closed
    || (&& NoSession(s.sessions, Closing)
        && NoChannel(s.channels, Retires) && NoChannel(s.channels, Joins)
        && NoSession(Undoomed(s.sessions), Opens)
        && NoSession(Undoomed(s.sessions), EndsStream)
        && NoSession(Undoomed(s.sessions), Routes))
  }
}
