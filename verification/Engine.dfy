/** The engine actor: its channels, its bindings, and those whose handshake completed. */
module Engine {
  // The events the engine sends into a channel's inbox are recorded as the member IDs that channel has
  // been told. Every method is one step of EngineSpec.

  import opened CtrlSpec
  import opened CtrlConvergence
  import opened EngineSpec

  /** Announce the channels added since the Hello was sent; order is the order in which the map is ranged over. */
  method AnnounceAdded(w: World, hello: seq<ChannelID>, channels: ChannelMap)
      returns (r: World, ghost order: seq<ChannelID>)
    ensures Listed(order) == channels.Keys && r == AnnounceEach(w, order, Listed(hello), true)
  {
    r, order := w, [];
    var todo := channels.Keys;
    while todo != {}
      invariant todo <= channels.Keys && Listed(order) == channels.Keys - todo
      invariant r == AnnounceEach(w, order, Listed(hello), true)
      decreases |todo|
    {
      var id :| id in todo;
      AnnounceSnoc(w, order, id, Listed(hello), true);
      ListedSnoc(order, id);
      todo := todo - {id};
      order := order + [id];
      if id !in hello {
        r := AfterCall(r, Announce(id, true));
      }
    }
  }

  lemma ListedSnoc(ids: seq<ChannelID>, id: ChannelID)
    ensures Listed(ids + [id]) == Listed(ids) + {id}
  {
  }

  /** Announce the channels dropped since. */
  method AnnounceDropped(w: World, hello: seq<ChannelID>, channels: ChannelMap) returns (r: World)
    ensures r == AnnounceEach(w, hello, channels.Keys, false)
  {
    r := w;
    for i := 0 to |hello|
      invariant r == AnnounceEach(w, hello[..i], channels.Keys, false)
    {
      AnnounceSnoc(w, hello[..i], hello[i], channels.Keys, false);
      assert hello[..i + 1] == hello[..i] + [hello[i]];
      if hello[i] !in channels {
        r := AfterCall(r, Announce(hello[i], false));
      }
    }
    assert hello[..|hello|] == hello;
  }

  /** The IDs in some order. */
  method Collect(ids: set<ChannelID>) returns (list: seq<ChannelID>)
    ensures Listed(list) == ids
  {
    list := [];
    var todo := ids;
    while todo != {}
      invariant todo <= ids && Listed(list) == ids - todo
      decreases |todo|
    {
      var id :| id in todo;
      ListedSnoc(list, id);
      todo := todo - {id};
      list := list + [id];
    }
  }

  class Engine {
    var channels: ChannelMap
    var bindings: map<PeerHandle, Conn>
    var peers: map<PeerID, PeerHandle>
    ghost var members: Members

    ghost function Value(): Tables
      reads this
    {
      Tables(channels, bindings, peers, members)
    }

    predicate IsCurrent(h: PeerHandle)
      reads this
    {
      h in bindings && bindings[h].id in peers && peers[bindings[h].id] == h
    }

    constructor ()
      ensures Value() == NO_TABLES && Coherent(Value())
    {
      channels, peers, bindings := map[], map[], map[];
      members := map[];
    }

    /** Tell a live channel that pid joined; it must not believe pid is a member already. */
    ghost method SendJoined(id: ChannelID, pid: PeerID)
      requires id in members && pid !in members[id]
      modifies `members
      ensures members == old(members)[id := old(members)[id] + {pid}]
    {
      members := members[id := members[id] + {pid}];
    }

    ghost method SendLeft(id: ChannelID, pid: PeerID)
      requires id in members && pid in members[id]
      modifies `members
      ensures members == old(members)[id := old(members)[id] - {pid}]
    {
      members := members[id := members[id] - {pid}];
    }

    /** Range over the ready bindings. */
    method UpdateReady(update: Conn -> Conn)
      requires peers.Values <= bindings.Keys
      modifies `bindings
      ensures bindings == Updated(old(Value()), update)
    {
      var todo := peers.Values;
      while todo != {}
        invariant todo <= peers.Values && bindings.Keys == old(bindings).Keys
        invariant forall b :: b in old(bindings) && b in peers.Values - todo ==> bindings[b] == update(old(bindings)[b])
        invariant forall b :: b in old(bindings) && b !in peers.Values - todo ==> bindings[b] == old(bindings)[b]
        decreases |todo|
      {
        var b :| b in todo;
        todo := todo - {b};
        bindings := bindings[b := update(bindings[b])];
      }
    }

    method AddChannel(id: ChannelID, h: ChannelHandle) returns (added: bool)
      requires Coherent(Value())
      modifies this
      ensures Coherent(Value()) && Value() == Do(old(Value()), AddsChannel(id, h))
      ensures added == (id !in old(channels))
    {
      DoCoherent(Value(), AddsChannel(id, h));
      if id in channels {
        return false;
      }
      assert peers.Values <= bindings.Keys;
      UpdateReady(Adding(id, h));
      channels := channels[id := h];
      members := members[id := Subscribers(old(Value()), id)];
      return true;
    }

    method RemoveChannel(id: ChannelID)
      requires Coherent(Value())
      modifies this
      ensures Coherent(Value()) && Value() == Do(old(Value()), RemovesChannel(id))
    {
      DoCoherent(Value(), RemovesChannel(id));
      if id !in channels {
        return;
      }
      assert peers.Values <= bindings.Keys;
      UpdateReady(Removing(id));
      channels := channels - {id};
      members := members - {id};
    }

    /** The remote of binding h subscribes. */
    method PeerSubscribed(h: PeerHandle, id: ChannelID)
      requires Coherent(Value())
      modifies `bindings, `members
      ensures Coherent(Value()) && Value() == Do(old(Value()), Joins(h, id))
    {
      DoCoherent(Value(), Joins(h, id));
      if !IsCurrent(h) || id in bindings[h].subs {
        return;
      }
      SubscribedOne(Value(), h, id);
      Enrol(h, id);
    }

    method Enrol(h: PeerHandle, id: ChannelID)
      requires h in bindings && members.Keys == channels.Keys && (id in channels ==> bindings[h].id !in members[id])
      modifies `bindings, `members
      ensures Value() == Subscribed(old(Value()), h, id)
    {
      var p := bindings[h];
      if id in channels {
        SendJoined(id, p.id);
      }
      bindings := bindings[h := p.(subs := p.subs + {id},
          inboxes := if id in channels then p.inboxes[id := channels[id]] else p.inboxes)];
    }

    method PeerUnsubscribed(h: PeerHandle, id: ChannelID)
      requires Coherent(Value())
      modifies `bindings, `members
      ensures Coherent(Value()) && Value() == Do(old(Value()), Quits(h, id))
    {
      DoCoherent(Value(), Quits(h, id));
      if !IsCurrent(h) || id !in bindings[h].subs {
        return;
      }
      UnsubscribedOne(Value(), h, id);
      Unenrol(h, id);
    }

    method Unenrol(h: PeerHandle, id: ChannelID)
      requires h in bindings && members.Keys == channels.Keys && (id in channels ==> bindings[h].id in members[id])
      modifies `bindings, `members
      ensures Value() == Unsubscribed(old(Value()), h, id)
    {
      var p := bindings[h];
      if id in channels {
        SendLeft(id, p.id);
      }
      bindings := bindings[h := p.(subs := p.subs - {id}, inboxes := p.inboxes - {id})];
    }

    /** PeerUp: bind a handle, recording the channels its Hello will list, unless its context has ended. */
    method BindPeer(h: PeerHandle, pid: PeerID, ended: bool) returns (announced: seq<ChannelID>)
      requires Coherent(Value()) && h !in bindings
      // The stack delivers an ID's PeerDown before its next PeerUp.
      requires forall g :: g in bindings ==> bindings[g].id != pid
      modifies `bindings
      ensures Coherent(Value()) && CanDo(old(Value()), Binds(h, pid, announced))
      ensures Value() == if ended then old(Value()) else Do(old(Value()), Binds(h, pid, announced))
    {
      announced := Collect(channels.Keys);
      if ended {
        return;
      }
      DoCoherent(Value(), Binds(h, pid, announced));
      bindings := bindings[h := NewConn(pid, announced)];
    }

    /** Enrol a peer no channel knows in the live channels its Hello lists, each once. */
    method EnrolListed(pid: PeerID, listed: seq<ChannelID>) returns (subs: set<ChannelID>, inboxes: ChannelMap)
      requires members.Keys == channels.Keys && forall id :: id in members ==> pid !in members[id]
      modifies `members
      ensures subs == Listed(listed) && inboxes == Routed(channels, subs)
      ensures members == JoinedTo(old(members), subs, pid)
    {
      subs, inboxes := {}, map[];
      for i := 0 to |listed|
        invariant subs == Listed(listed[..i])
        invariant inboxes == Routed(channels, subs)
        invariant members == JoinedTo(old(members), subs, pid)
      {
        var id := listed[i];
        assert listed[..i + 1] == listed[..i] + [id];
        ListedSnoc(listed[..i], id);
        if id !in subs {
          subs := subs + {id};
          if id in channels {
            inboxes := inboxes[id := channels[id]];
            SendJoined(id, pid);
          }
        }
      }
      assert listed[..|listed|] == listed;
    }

    /** The handshake of binding h completed; the remote's Hello listed these channels. */
    method HandlePeerHandshake(h: PeerHandle, listed: seq<ChannelID>) returns (ghost order: seq<ChannelID>)
      requires Coherent(Value()) && (h in bindings ==> !bindings[h].handshook)
      modifies this
      ensures CanDo(old(Value()), Handshakes(h, listed, order))
      ensures Coherent(Value()) && Value() == Do(old(Value()), Handshakes(h, listed, order))
    {
      if h !in bindings || bindings[h].stopped {
        order := Collect(channels.Keys);
        return;
      }
      NotReadyYet(Value(), h);
      assert forall id :: id in members ==> !Subscribes(Value(), bindings[h].id, id);
      order := Greet(h, listed);
      DoCoherent(old(Value()), Handshakes(h, listed, order));
    }

    method Greet(h: PeerHandle, listed: seq<ChannelID>) returns (ghost order: seq<ChannelID>)
      requires h in bindings && members.Keys == channels.Keys && forall id :: id in members ==>
          bindings[h].id !in members[id]
      modifies this
      ensures Listed(order) == channels.Keys && Value() == Enrolled(old(Value()), h, listed, order)
    {
      var p := bindings[h];
      var w := AfterCall(p.w, Hello(p.announced));
      w, order := AnnounceAdded(w, p.announced, channels);
      w := AnnounceDropped(w, p.announced, channels);
      var subs, inboxes := EnrolListed(p.id, listed);
      peers := peers[p.id := h];
      bindings := bindings[h := p.(w := w, subs := subs, inboxes := inboxes, handshook := true)];
    }

    /** Take a ready peer out of every channel it subscribes to. */
    method UnenrolAll(pid: PeerID, subs: set<ChannelID>, routed: ChannelMap) returns (inboxes: ChannelMap)
      requires members.Keys == channels.Keys && routed.Keys <= subs
      requires forall id :: id in members && id in subs ==> pid in members[id]
      modifies `members
      ensures inboxes == map[] && members == LeftFrom(old(members), subs, pid)
    {
      inboxes := routed;
      var todo := subs;
      while todo != {}
        invariant todo <= subs && inboxes.Keys <= todo
        invariant members == LeftFrom(old(members), subs - todo, pid)
        decreases |todo|
      {
        var id :| id in todo;
        todo := todo - {id};
        inboxes := inboxes - {id};
        if id in channels {
          SendLeft(id, pid);
        }
      }
      assert members == LeftFrom(old(members), subs, pid);
    }

    method RemovePeer(h: PeerHandle)
      requires Coherent(Value())
      modifies this
      ensures Coherent(Value()) && Value() == Remove(old(Value()), h) && !IsCurrent(h)
    {
      FinishCoherent(Value(), h);
      if !IsCurrent(h) {
        return;
      }
      var p := bindings[h];
      assert Ready(bindings[peers[p.id]], channels);
      assert forall id :: id in members && id in p.subs ==> Subscribes(Value(), p.id, id);
      var inboxes := UnenrolAll(p.id, p.subs, p.inboxes);
      peers := peers - {p.id};
      bindings := bindings[h := p.(inboxes := inboxes)];
    }

    /** Binding h reports that it is done. */
    method HandlePeerGone(h: PeerHandle)
      requires Coherent(Value())
      modifies this
      ensures Coherent(Value()) && Value() == Do(old(Value()), Finishes(h))
    {
      DoCoherent(Value(), Finishes(h));
      RemovePeer(h);
      if h in bindings {
        bindings := bindings[h := Stopped(bindings[h])];
      }
    }

    method PeerDown(h: PeerHandle)
      requires Coherent(Value())
      modifies this
      ensures Coherent(Value()) && Value() == Do(old(Value()), GoesDown(h))
    {
      DownCoherent(Value(), h);
      DownForgets(Value(), h);
      HandlePeerGone(h);
      bindings := bindings - {h};
    }
  }
}
