/** The engine's tables are what the acts of the run made them: channels, bindings and subscriptions. */
module EngineHistory {
  // Every function below reads the acts only, never the tables.

  import opened Basics
  import opened CtrlSpec
  import opened CtrlConvergence
  import opened EngineSpec

  /** The channel registered under the id: that of the first add since the last removal. */
  function ChannelNow(acts: seq<Act>, n: nat, id: ChannelID): Option<ChannelHandle>
    requires n <= |acts|
  {
    if n == 0 then None
    else
      var before := ChannelNow(acts, n - 1, id);
      match acts[n - 1]
      case AddsChannel(x, channel) => if x == id && before.None? then Some(channel) else before
      case RemovesChannel(x) => if x == id then None else before
      case _ => before
  }

  /** The peer ID the handle is bound under, from its PeerUp to its PeerDown. */
  function BoundNow(acts: seq<Act>, n: nat, h: PeerHandle): Option<PeerID>
    requires n <= |acts|
  {
    if n == 0 then None
    else
      match acts[n - 1]
      case Binds(g, pid, _) => if g == h then Some(pid) else BoundNow(acts, n - 1, h)
      case GoesDown(g) => if g == h then None else BoundNow(acts, n - 1, h)
      case _ => BoundNow(acts, n - 1, h)
  }

  function StoppedNow(acts: seq<Act>, n: nat, h: PeerHandle): bool
    requires n <= |acts|
  {
    if n == 0 then false
    else
      match acts[n - 1]
      case Binds(g, _, _) => g != h && StoppedNow(acts, n - 1, h)
      case Stops(g) => g == h || StoppedNow(acts, n - 1, h)
      case Finishes(g) => g == h || StoppedNow(acts, n - 1, h)
      case _ => StoppedNow(acts, n - 1, h)
  }

  /** The act completes the handshake of a binding that has not stopped. */
  predicate Completes(acts: seq<Act>, n: nat, h: PeerHandle)
    requires n < |acts|
  {
    acts[n].Handshakes? && acts[n].h == h && BoundNow(acts, n, h).Some? && !StoppedNow(acts, n, h)
  }

  /** The handle's handshake completed, and it has not ended since. */
  function ReadyNow(acts: seq<Act>, n: nat, h: PeerHandle): bool
    requires n <= |acts|
  {
    if n == 0 then false
    else
      match acts[n - 1]
      case Handshakes(_, _, _) => Completes(acts, n - 1, h) || ReadyNow(acts, n - 1, h)
      case Finishes(g) => g != h && ReadyNow(acts, n - 1, h)
      case GoesDown(g) => g != h && ReadyNow(acts, n - 1, h)
      case _ => ReadyNow(acts, n - 1, h)
  }

  /** The handshake listed the channel or the remote joined it since, and it has not quit it since. */
  function SubscribedNow(acts: seq<Act>, n: nat, h: PeerHandle, id: ChannelID): bool
    requires n <= |acts|
  {
    if n == 0 then false
    else
      var before := SubscribedNow(acts, n - 1, h, id);
      match acts[n - 1]
      case Binds(g, _, _) => g != h && before
      case Handshakes(_, listed, _) => if Completes(acts, n - 1, h) then id in listed else before
      case Joins(g, x) => before || (g == h && x == id && ReadyNow(acts, n - 1, h))
      case Quits(g, x) => before && !(g == h && x == id && ReadyNow(acts, n - 1, h))
      case _ => before
  }

  // ---------------------------------------------------------------------------
  // One step
  // ---------------------------------------------------------------------------

  ghost predicate ChannelTracked(t: Tables, acts: seq<Act>, n: nat, id: ChannelID)
    requires n <= |acts|
  {
    Find(t.channels, id) == ChannelNow(acts, n, id)
  }

  lemma ChannelStep(t: Tables, acts: seq<Act>, n: nat, id: ChannelID)
    requires n < |acts| && t.members.Keys == t.channels.Keys && CanDo(t, acts[n]) && ChannelTracked(t, acts, n, id)
    ensures ChannelTracked(Do(t, acts[n]), acts, n + 1, id)
  {
  }

  /** What is said about a handle. */
  datatype Sight = Sight(id: PeerID, stopped: bool, current: bool, subs: set<ChannelID>)

  ghost function See(t: Tables, h: PeerHandle): Option<Sight> {
    if h in t.bindings then
      Some(Sight(t.bindings[h].id, t.bindings[h].stopped, Current(t, h), t.bindings[h].subs))
    else None
  }

  /** What an act makes of it. */
  ghost function Seen(s: Option<Sight>, a: Act, h: PeerHandle): Option<Sight> {
    match a
    case Binds(g, pid, _) => if g == h then Some(Sight(pid, false, false, {})) else s
    case GoesDown(g) => if g == h then None else s
    case Stops(g) => if g == h && s.Some? then Some(s.value.(stopped := true)) else s
    case Finishes(g) => if g == h && s.Some? then Some(s.value.(stopped := true, current := false)) else s
    case Handshakes(g, listed, _) =>
      if g == h && s.Some? && !s.value.stopped then Some(s.value.(current := true, subs := Listed(listed))) else s
    case Joins(g, id) =>
      if g == h && s.Some? && s.value.current then Some(s.value.(subs := s.value.subs + {id})) else s
    case Quits(g, id) =>
      if g == h && s.Some? && s.value.current then Some(s.value.(subs := s.value.subs - {id})) else s
    case _ => s
  }

  lemma UpdatedSight(t: Tables, t': Tables, update: Conn -> Conn, h: PeerHandle)
    requires t'.bindings == Updated(t, update) && t'.peers == t.peers
    requires forall p :: update(p).id == p.id && update(p).stopped == p.stopped && update(p).subs == p.subs
    ensures See(t', h) == See(t, h)
  {
  }

  /** One binding changes and keeps its ID; the ready bindings stay. */
  lemma RewrittenSight(t: Tables, t': Tables, g: PeerHandle, q: Conn, h: PeerHandle)
    requires g in t.bindings && q.id == t.bindings[g].id
    requires t'.bindings == t.bindings[g := q] && t'.peers == t.peers
    ensures See(t', h) == if h == g then Some(Sight(q.id, q.stopped, Current(t, g), q.subs)) else See(t, h)
  {
  }

  lemma ChannelsSight(t: Tables, a: Act, h: PeerHandle)
    requires t.members.Keys == t.channels.Keys && CanDo(t, a) && (a.AddsChannel? || a.RemovesChannel?)
    ensures See(Do(t, a), h) == See(t, h)
  {
    if a.AddsChannel? && a.id !in t.channels {
      UpdatedSight(t, Do(t, a), Adding(a.id, a.channel), h);
    } else if a.RemovesChannel? && a.id in t.channels {
      UpdatedSight(t, Do(t, a), Removing(a.id), h);
    }
  }

  lemma SubscriptionSight(t: Tables, a: Act, h: PeerHandle)
    requires t.members.Keys == t.channels.Keys && CanDo(t, a) && (a.Joins? || a.Quits?)
    ensures See(Do(t, a), h) == Seen(See(t, h), a, h)
  {
    if Current(t, a.h) {
      var subs := t.bindings[a.h].subs;
      assert a.id in subs ==> subs + {a.id} == subs;
      assert a.id !in subs ==> subs - {a.id} == subs;
      if Do(t, a) != t {
        RewrittenSight(t, Do(t, a), a.h, Do(t, a).bindings[a.h], h);
      }
    }
  }

  lemma BoundSight(t: Tables, a: Act, h: PeerHandle)
    requires Coherent(t) && CanDo(t, a) && a.Binds?
    ensures See(Do(t, a), h) == Seen(See(t, h), a, h)
  {
  }

  lemma HandshakeSight(t: Tables, a: Act, h: PeerHandle)
    requires Wired(t) && t.members.Keys == t.channels.Keys && CanDo(t, a) && a.Handshakes?
    ensures See(Do(t, a), h) == Seen(See(t, h), a, h)
  {
  }

  lemma RemovedSight(t: Tables, g: PeerHandle, h: PeerHandle)
    requires Wired(t)
    ensures See(Remove(t, g), h)
        == if h == g && h in t.bindings then Some(See(t, h).value.(current := false)) else See(t, h)
  {
  }

  lemma StoppedSight(t: Tables, g: PeerHandle, h: PeerHandle)
    ensures See(StopBinding(t, g), h)
        == if h == g && h in t.bindings then Some(See(t, h).value.(stopped := true)) else See(t, h)
  {
    if g in t.bindings {
      RewrittenSight(t, StopBinding(t, g), g, Stopped(t.bindings[g]), h);
    }
  }

  lemma EndSight(t: Tables, a: Act, h: PeerHandle)
    requires Wired(t) && t.members.Keys == t.channels.Keys && CanDo(t, a) && (a.Finishes? || a.GoesDown? || a.Stops?)
    ensures See(Do(t, a), h) == Seen(See(t, h), a, h)
  {
    RemovedSight(t, a.h, h);
    StoppedSight(Remove(t, a.h), a.h, h);
    StoppedSight(t, a.h, h);
  }

  lemma DoSight(t: Tables, a: Act, h: PeerHandle)
    requires Coherent(t) && CanDo(t, a)
    ensures See(Do(t, a), h) == Seen(See(t, h), a, h)
  {
    match a
    case AddsChannel(_, _) => ChannelsSight(t, a, h);
    case RemovesChannel(_) => ChannelsSight(t, a, h);
    case Joins(_, _) => SubscriptionSight(t, a, h);
    case Quits(_, _) => SubscriptionSight(t, a, h);
    case Binds(_, _, _) => BoundSight(t, a, h);
    case Handshakes(_, _, _) => HandshakeSight(t, a, h);
    case Turns(g, _, next) => RewrittenSight(t, Do(t, a), g, t.bindings[g].(w := next), h);
    case _ => EndSight(t, a, h);
  }

  /** What the acts say about a handle. */
  ghost predicate SightTracked(s: Option<Sight>, acts: seq<Act>, n: nat, h: PeerHandle)
    requires n <= |acts|
  {
    if s.None? then BoundNow(acts, n, h).None? && !ReadyNow(acts, n, h)
    else
      && BoundNow(acts, n, h) == Some(s.value.id) && s.value.stopped == StoppedNow(acts, n, h)
      && s.value.current == ReadyNow(acts, n, h)
      && forall id :: id in s.value.subs <==> SubscribedNow(acts, n, h, id)
  }

  lemma SightStep(s: Option<Sight>, acts: seq<Act>, n: nat, h: PeerHandle)
    requires n < |acts| && SightTracked(s, acts, n, h)
    requires acts[n].Binds? && acts[n].h == h ==> s.None?
    ensures SightTracked(Seen(s, acts[n], h), acts, n + 1, h)
  {
  }

  // ---------------------------------------------------------------------------
  // Runs
  // ---------------------------------------------------------------------------

  lemma DoesTracked(t: Tables, acts: seq<Act>, n: nat, t': Tables, h: PeerHandle, id: ChannelID)
    requires n < |acts| && Coherent(t) && Does(t, acts[n], t')
    requires SightTracked(See(t, h), acts, n, h) && ChannelTracked(t, acts, n, id)
    ensures SightTracked(See(t', h), acts, n + 1, h) && ChannelTracked(t', acts, n + 1, id)
  {
    DoSight(t, acts[n], h);
    SightStep(See(t, h), acts, n, h);
    ChannelStep(t, acts, n, id);
  }

  lemma {:induction false} RunTracked(tables: seq<Tables>, acts: seq<Act>, n: nat, h: PeerHandle, id: ChannelID)
    requires IsEngineRun(tables, acts) && n <= |acts|
    ensures SightTracked(See(tables[n], h), acts, n, h) && ChannelTracked(tables[n], acts, n, id)
  {
    if n > 0 {
      RunTracked(tables, acts, n - 1, h, id);
      RunCoherent(tables, acts, n - 1);
      DoesTracked(tables[n - 1], acts, n - 1, tables[n], h, id);
    }
  }

  /**
    * In every state of every run: the channels are those added and not removed since, under the handle of
    * the first add.
    */
  lemma ChannelsAreAdded(tables: seq<Tables>, acts: seq<Act>, n: nat, id: ChannelID)
    requires IsEngineRun(tables, acts) && n <= |acts|
    ensures id in tables[n].channels <==> ChannelNow(acts, n, id).Some?
    ensures id in tables[n].channels ==> ChannelNow(acts, n, id) == Some(tables[n].channels[id])
  {
    RunTracked(tables, acts, n, 0, id);
  }

  /**
    * In every state of every run: bound are the handles up and not down since, under their IDs; ready are
    * those whose handshake completed and that have not ended since.
    */
  lemma BindingsAreBound(tables: seq<Tables>, acts: seq<Act>, n: nat, h: PeerHandle)
    requires IsEngineRun(tables, acts) && n <= |acts|
    ensures h in tables[n].bindings <==> BoundNow(acts, n, h).Some?
    ensures h in tables[n].bindings ==>
        && BoundNow(acts, n, h) == Some(tables[n].bindings[h].id)
        && tables[n].bindings[h].stopped == StoppedNow(acts, n, h)
    ensures Current(tables[n], h) <==> ReadyNow(acts, n, h)
  {
    RunTracked(tables, acts, n, h, "");
  }

  /**
    * In every state of every run: a bound peer subscribes to a channel exactly if its handshake listed it or
    * a join did, and it has not quit it since.
    */
  lemma SubscriptionsAreAsked(tables: seq<Tables>, acts: seq<Act>, n: nat, h: PeerHandle, id: ChannelID)
    requires IsEngineRun(tables, acts) && n <= |acts| && h in tables[n].bindings
    ensures id in tables[n].bindings[h].subs <==> SubscribedNow(acts, n, h, id)
  {
    RunTracked(tables, acts, n, h, id);
  }

  /** The handle's peer is ready and subscribes to the channel. */
  predicate Enrols(acts: seq<Act>, n: nat, h: PeerHandle, pid: PeerID, id: ChannelID)
    requires n <= |acts|
  {
    BoundNow(acts, n, h) == Some(pid) && ReadyNow(acts, n, h) && SubscribedNow(acts, n, h, id)
  }

  /**
    * Hence the members a channel was told are the peers of the handles that are ready and subscribe to it.
    */
  lemma MembersAreAsked(tables: seq<Tables>, acts: seq<Act>, n: nat, id: ChannelID, pid: PeerID)
    requires IsEngineRun(tables, acts) && n <= |acts|
    ensures id in tables[n].members <==> ChannelNow(acts, n, id).Some?
    ensures id in tables[n].members ==>
        (pid in tables[n].members[id] <==> exists h :: Enrols(acts, n, h, pid, id))
  {
    var t := tables[n];
    RunCoherent(tables, acts, n);
    ChannelsAreAdded(tables, acts, n, id);
    if id in t.members {
      SubscribersAreAsked(tables, acts, n, id, pid);
    }
  }

  lemma SubscribersAreAsked(tables: seq<Tables>, acts: seq<Act>, n: nat, id: ChannelID, pid: PeerID)
    requires IsEngineRun(tables, acts) && n <= |acts| && Wired(tables[n])
    ensures Subscribes(tables[n], pid, id) <==> exists h :: Enrols(acts, n, h, pid, id)
  {
    var t := tables[n];
    if Subscribes(t, pid, id) {
      RunTracked(tables, acts, n, t.peers[pid], id);
      assert Enrols(acts, n, t.peers[pid], pid, id);
    }
    forall h | Enrols(acts, n, h, pid, id)
      ensures Subscribes(t, pid, id)
    {
      RunTracked(tables, acts, n, h, id);
    }
  }
}
