/** What a family's consumer sees of each handle, and that no stream is lost. */
module FamilyGrammar {
  import opened FamilySpec
  import opened FamilyRuns
  import opened Wire

  // ---------------------------------------------------------------------------
  // One handle's events
  // ---------------------------------------------------------------------------

  function OfHandle(events: seq<Event>, h: Handle): seq<Event> {
    if events == [] then []
    else
      var last := events[|events| - 1];
      OfHandle(events[..|events| - 1], h) + if last.handle == h then [last] else []
  }

  lemma OfHandleSnoc(events: seq<Event>, e: Event, h: Handle)
    ensures OfHandle(events + [e], h) == OfHandle(events, h) + if e.handle == h then [e] else []
  {
    assert (events + [e])[..|events|] == events;
  }

  lemma {:induction false} OfHandleMember(events: seq<Event>, i: nat)
    requires i < |events|
    ensures OfHandle(events, events[i].handle) != []
  {
    if i < |events| - 1 {
      OfHandleMember(events[..|events| - 1], i);
    }
  }

  function StreamIns(h: Handle, streams: seq<Pending>): seq<Event> {
    if streams == [] then [] else StreamIns(h, streams[..|streams| - 1]) + [StreamIn(h, streams[|streams| - 1])]
  }

  /** PeerUp, the taken streams in push order, then PeerDown; nothing if closed before PeerUp. */
  function Script(h: Handle, d: Delivery): seq<Event>
    requires d.taken <= |Chosen(d.pushes, true)|
  {
    if !d.up then []
    else
      [PeerUp(h)] + StreamIns(h, Chosen(d.pushes, true)[..d.taken])
      + if d.down && !d.listed then [PeerDown(h, d.code)] else []
  }

  lemma RefusedScript(h: Handle, d: Delivery, pending: Pending, code: Code)
    requires InOrder(d)
    ensures InOrder(Refused(d, pending, code)) && Script(h, Refused(d, pending, code)) == Script(h, d)
  {
    ChosenSnoc(d.pushes, Push(pending, false), true);
    assert Chosen(Refused(d, pending, code).pushes, true) == Chosen(d.pushes, true);
  }

  lemma EnqueuedScript(h: Handle, d: Delivery, pending: Pending)
    requires InOrder(d) && !d.down
    ensures var e := Enqueued(d, pending).(listed := true);
            e.taken <= |Chosen(e.pushes, true)| && Script(h, e) == Script(h, d)
  {
    var accepted := Chosen(d.pushes, true);
    ChosenSnoc(d.pushes, Push(pending, true), true);
    assert (accepted + [pending])[..d.taken] == accepted[..d.taken];
  }

  lemma PushedScript(h: Handle, d: Delivery, specs: seq<ProtocolSpec>, pending: Pending)
    requires InOrder(d)
    ensures var e := Pushed(d, specs, pending);
            e.taken <= |Chosen(e.pushes, true)| && Script(h, e) == Script(h, d)
  {
    if d.down {
      RefusedScript(h, d, pending, UNSUPPORTED_SELECTOR);
    } else if Queued(d, pending.protocol) >= MaxQueued(specs, pending.protocol) {
      RefusedScript(h, d, pending, UNSPECIFIED);
    } else {
      EnqueuedScript(h, d, pending);
    }
  }

  lemma ClosedScript(h: Handle, d: Delivery, code: Code, resetCode: Code)
    requires InOrder(d)
    ensures Script(h, Closed(d, code, resetCode)) == Script(h, d)
  {
  }

  lemma StreamInsSnoc(h: Handle, accepted: seq<Pending>, n: nat)
    requires n < |accepted|
    ensures [PeerUp(h)] + StreamIns(h, accepted[..n + 1]) + []
        == [PeerUp(h)] + StreamIns(h, accepted[..n]) + [] + [StreamIn(h, accepted[n])]
  {
    var now := accepted[..n + 1];
    assert now[..|now| - 1] == accepted[..n] && now[|now| - 1] == accepted[n];
  }

  /** A handle's turn appends the event it returns. */
  lemma TurnedScript(h: Handle, d: Delivery)
    requires InOrder(d) && Turn(d) && d.listed
    ensures var e := Turned(h, d);
            e.taken <= |Chosen(e.pushes, true)| && Script(h, e) == Script(h, d) + [Served(h, d).1]
  {
    var accepted := Chosen(d.pushes, true);
    if !d.up {
      assert accepted[..0] == [];
    } else if d.streams != [] {
      StreamInsSnoc(h, accepted, d.taken);
    }
  }

  ghost predicate ScriptedAt(w: World, h: Handle) {
    if h in w.peers
    then w.peers[h].taken <= |Chosen(w.peers[h].pushes, true)| && OfHandle(w.returned, h) == Script(h, w.peers[h])
    else OfHandle(w.returned, h) == []
  }

  ghost predicate Scripted(w: World) {
    forall h :: ScriptedAt(w, h)
  }

  /** A step appends to its subject's script what it returns. */
  lemma AfterScript(w: World, a: Action, specs: seq<ProtocolSpec>)
    requires RingOk(w) && DeliveriesOk(w, specs) && Enabled(w, a) && Subject(w, a).Some? && !a.Add?
    ensures var h, e := Subject(w, a).value, After(w, a, specs);
            && h in w.peers && w.peers[h].taken <= |Chosen(w.peers[h].pushes, true)|
                && e.taken <= |Chosen(e.pushes, true)|
            && Script(h, e) == Script(h, w.peers[h]) + Returned(w, a)
  {
    var h := Subject(w, a).value;
    var d := w.peers[h];
    assert DeliveryOk(d, specs);
    match a
    case Give(_, pending) => PushedScript(h, d, specs, pending);
    case Close(_, code, resetCode) => ClosedScript(h, d, code, resetCode);
    case Take => TurnedScript(h, d);
  }

  lemma ChangeScripted(w: World, v: World, h: Handle, e: Delivery, events: seq<Event>)
    requires Scripted(w) && v.peers == w.peers[h := e] && v.returned == w.returned + events
    requires events == [] || (|events| == 1 && events[0].handle == h)
    requires e.taken <= |Chosen(e.pushes, true)| && Script(h, e) == OfHandle(w.returned, h) + events
    ensures Scripted(v)
  {
    forall x
      ensures ScriptedAt(v, x)
    {
      assert ScriptedAt(w, x);
      if events == [] {
        assert v.returned == w.returned;
      } else {
        OfHandleSnoc(w.returned, events[0], x);
        assert events == [events[0]];
      }
    }
  }

  lemma SameScripted(w: World, v: World)
    requires Scripted(w) && v.peers == w.peers && v.returned == w.returned
    ensures Scripted(v)
  {
    assert forall x :: ScriptedAt(w, x) ==> ScriptedAt(v, x);
  }

  lemma StepScripted(w: World, a: Action, specs: seq<ProtocolSpec>)
    requires RingOk(w) && DeliveriesOk(w, specs) && Enabled(w, a) && Scripted(w)
    ensures Scripted(Step(w, a, specs))
  {
    var v, events := Step(w, a, specs), Returned(w, a);
    StepPeers(w, a, specs);
    if Subject(w, a).None? {
      SameScripted(w, v);
    } else {
      var h := Subject(w, a).value;
      assert ScriptedAt(w, h);
      if !a.Add? {
        AfterScript(w, a, specs);
      }
      ChangeScripted(w, v, h, After(w, a, specs), events);
    }
  }

  // ---------------------------------------------------------------------------
  // No stream is lost
  // ---------------------------------------------------------------------------

  function Tokens(streams: seq<Pending>): multiset<Stream> {
    if streams == [] then multiset{} else Tokens(streams[..|streams| - 1]) + multiset{streams[|streams| - 1].stream}
  }

  function PushTokens(pushes: seq<Push>): multiset<Stream> {
    if pushes == [] then multiset{}
        else PushTokens(pushes[..|pushes| - 1]) + multiset{pushes[|pushes| - 1].pending.stream}
  }

  function ResetTokens(resets: seq<Reset>): multiset<Stream> {
    if resets == [] then multiset{} else ResetTokens(resets[..|resets| - 1]) + multiset{resets[|resets| - 1].stream}
  }

  lemma TokensSnoc(streams: seq<Pending>, x: Pending)
    ensures Tokens(streams + [x]) == Tokens(streams) + multiset{x.stream}
  {
    assert (streams + [x])[..|streams|] == streams;
  }

  lemma PushTokensSnoc(pushes: seq<Push>, x: Push)
    ensures PushTokens(pushes + [x]) == PushTokens(pushes) + multiset{x.pending.stream}
  {
    assert (pushes + [x])[..|pushes|] == pushes;
  }

  lemma ResetTokensSnoc(resets: seq<Reset>, x: Reset)
    ensures ResetTokens(resets + [x]) == ResetTokens(resets) + multiset{x.stream}
  {
    assert (resets + [x])[..|resets|] == resets;
  }

  lemma {:induction false} TokensCons(x: Pending, streams: seq<Pending>)
    ensures Tokens([x] + streams) == multiset{x.stream} + Tokens(streams)
  {
    if streams == [] {
      assert [x] + streams == [x] && [x][..0] == [];
    } else {
      TokensCons(x, streams[..|streams| - 1]);
      assert ([x] + streams)[..|streams|] == [x] + streams[..|streams| - 1];
    }
  }

  lemma {:induction false} ResetAllTokens(resets: seq<Reset>, streams: seq<Pending>, code: Code)
    ensures ResetTokens(resets + ResetAll(streams, code)) == ResetTokens(resets) + Tokens(streams)
    decreases |streams|
  {
    if streams == [] {
      assert resets + ResetAll(streams, code) == resets;
    } else {
      var x, rest := Reset(streams[0].stream, code), streams[1..];
      ResetTokensSnoc(resets, x);
      ResetAllTokens(resets + [x], rest, code);
      Associate(resets, x, ResetAll(rest, code));
      HeadTokens(streams);
    }
  }

  lemma Associate(a: seq<Reset>, x: Reset, b: seq<Reset>)
    ensures a + ([x] + b) == a + [x] + b
  {
  }

  lemma HeadTokens(streams: seq<Pending>)
    requires streams != []
    ensures Tokens(streams) == multiset{streams[0].stream} + Tokens(streams[1..])
  {
    TokensCons(streams[0], streams[1..]);
    assert streams == [streams[0]] + streams[1..];
  }

  /** Every pushed stream was taken, is queued, or was reset: once each. */
  ghost predicate Conserved(d: Delivery) {
    && d.taken <= |Chosen(d.pushes, true)|
    && PushTokens(d.pushes) == Tokens(Chosen(d.pushes, true)[..d.taken]) + Tokens(d.streams) + ResetTokens(d.resets)
  }

  lemma RefusedConserved(d: Delivery, pending: Pending, code: Code)
    requires Conserved(d)
    ensures Conserved(Refused(d, pending, code))
  {
    ChosenSnoc(d.pushes, Push(pending, false), true);
    PushTokensSnoc(d.pushes, Push(pending, false));
    ResetTokensSnoc(d.resets, Reset(pending.stream, code));
    assert Chosen(Refused(d, pending, code).pushes, true) == Chosen(d.pushes, true);
  }

  lemma EnqueuedConserved(d: Delivery, pending: Pending)
    requires Conserved(d)
    ensures Conserved(Enqueued(d, pending).(listed := true))
  {
    var accepted := Chosen(d.pushes, true);
    ChosenSnoc(d.pushes, Push(pending, true), true);
    assert (accepted + [pending])[..d.taken] == accepted[..d.taken];
    PushTokensSnoc(d.pushes, Push(pending, true));
    TokensSnoc(d.streams, pending);
  }

  lemma PushedConserved(d: Delivery, specs: seq<ProtocolSpec>, pending: Pending)
    requires Conserved(d)
    ensures Conserved(Pushed(d, specs, pending))
  {
    if d.down {
      RefusedConserved(d, pending, UNSUPPORTED_SELECTOR);
    } else if Queued(d, pending.protocol) >= MaxQueued(specs, pending.protocol) {
      RefusedConserved(d, pending, UNSPECIFIED);
    } else {
      EnqueuedConserved(d, pending);
    }
  }

  lemma ClosedConserved(d: Delivery, code: Code, resetCode: Code)
    requires Conserved(d)
    ensures Conserved(Closed(d, code, resetCode))
  {
    ResetAllTokens(d.resets, d.streams, resetCode);
  }

  /** Taking the front stream moves one token from the queue to those taken. */
  lemma TakenTokens(accepted: seq<Pending>, taken: nat, streams: seq<Pending>)
    requires taken < |accepted| && streams == accepted[taken..]
    ensures Tokens(accepted[..taken + 1]) + Tokens(streams[1..]) == Tokens(accepted[..taken]) + Tokens(streams)
  {
    assert accepted[..taken + 1] == accepted[..taken] + [streams[0]];
    TokensSnoc(accepted[..taken], streams[0]);
    HeadTokens(streams);
  }

  lemma TurnedConserved(h: Handle, d: Delivery)
    requires Conserved(d) && InOrder(d)
    ensures Conserved(Turned(h, d))
  {
    if d.up && d.streams != [] {
      TakenTokens(Chosen(d.pushes, true), d.taken, d.streams);
    }
  }

  ghost predicate AllConserved(w: World) {
    forall h :: h in w.peers ==> Conserved(w.peers[h])
  }

  lemma AfterConserved(w: World, a: Action, specs: seq<ProtocolSpec>)
    requires DeliveriesOk(w, specs) && Enabled(w, a) && AllConserved(w) && Subject(w, a).Some?
    ensures Conserved(After(w, a, specs))
  {
    match a
    case Add(_) =>
    case Give(h, pending) => PushedConserved(w.peers[h], specs, pending);
    case Close(h, code, resetCode) => ClosedConserved(w.peers[h], code, resetCode);
    case Take =>
      assert DeliveryOk(w.peers[w.ready[0]], specs);
      TurnedConserved(w.ready[0], w.peers[w.ready[0]]);
  }

  lemma StepConserved(w: World, a: Action, specs: seq<ProtocolSpec>)
    requires DeliveriesOk(w, specs) && Enabled(w, a) && AllConserved(w)
    ensures AllConserved(Step(w, a, specs))
  {
    StepPeers(w, a, specs);
    if Subject(w, a).Some? {
      AfterConserved(w, a, specs);
    }
  }
}
