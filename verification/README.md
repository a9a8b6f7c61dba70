# Verified models of ethp2p

Dafny models of the parts of ethp2p whose correctness rests on state kept over unbounded runs, and proofs
of what that state guarantees. Each component is a state machine over values (its specification) with
theorems about every run, and a class or a set of methods with the source's own fields, branches and loops
that is proved to take exactly the specification's steps.

* **Outbound control** (`CtrlSpec`, `CtrlConvergence`, `CtrlDrain`, `CtrlHistory`, `CtrlOut`, `PeerCtrl`,
  `EngineSpec`, `EngineHistory`, `EngineFamily`, `Engine`). Callers set desired channel and session state; `next` hands out one
  transition at a time and forgets what was superseded. The model keeps, beside the object, the simple maps of
  what was asked for and what the remote was told, and proves that every drain makes the two agree, that drains
  end, in which order they emit, and what the remote hears of a channel or a session over any stretch of a run.
  `PeerCtrl` carries this to the streams and chunk slots the control and data loops hold, `EngineSpec` and
  `Engine` to the channels and members of the whole engine, over every run of it, `EngineHistory` says what the
  tables are from the calls alone, and `EngineFamily` feeds the engine the events its family returns.
* **Chunk scheduling** (`Bitmap`, `EmitPlanner`, `StrategySpec`, `StrategyRuns`, `StrategyHistory`, `Strategy`).
  Byte-packed sets, a binary heap with a position index, the pop-and-reinsert search for the least eligible
  chunk, and the accounts of allocations, sends in flight, credits and losses under every sequence of calls.
* **Channel and sessions** (`ChannelSpec`, `ChannelStreams`, `ChannelPlaces`, `ChannelRuns`, `ChannelLogs`,
  `ChannelHistory`, `ChannelEffects`, `ChannelSessions`, `ChannelDecodes`, `ChannelStrategy`, `ChannelData`,
  `Channel`). The channel's event loop: where every chunk stream is and what becomes of it at each event, which
  sessions are registered, who is attached to them, how they move from consuming to delivered, whose decode they
  deliver, whom a session's strategy serves and which bytes it decodes and dispatches.
* **Delivery** (`FamilySpec`, `FamilyRuns`, `FamilyGrammar`, `FamilyOrder`, `FamilyHistory`, `Family`). The
  round-robin ring of per-handle deliveries, what its consumer sees, and which pushes it takes.
* **Views** (`SupervisorSpec`, `SupervisorRings`, `SupervisorRuns`, `SupervisorSteps`, `SupervisorHistory`,
  `Supervisor`, `Duplicate`). One peer's supervisor: admission, header-read slots, routing into the family rings, dropping a
  view; and the duplicate-connection rule as a protocol between two nodes.
* **Stack** (`MailboxSpec`, `Stack`). Mailboxes that lose nothing, Disconnect, and traffic totals.
* **Codecs** (`Rlp`, `Enr`, `EnrTheorems`, `Wire`). Canonical RLP (Ethereum Yellow Paper, Appendix B), node
  records (EIP-778, sections "Record Structure" and "RLP Encoding") and minimal-uvarint stream headers.

`Basics` holds options and sums over finite maps. `dafny verify dfyconfig.toml` checks everything.

## How the code is read

* Goroutines are interleaved steps. A capacity-1 wake channel is a boolean token. Timers, contexts, network
  reads and signatures enter as parameters or as steps that may happen at any time.
* A Go map ranged over is a loop over its keys in an arbitrary order; results that depend on the order carry
  the order as a parameter or are proved not to depend on it.
* A stream is a token. What the code does to it (queue it, push it, cancel it with a code) is part of the
  model's state. That none is lost and none is ended twice are theorems over runs:
  `ChannelHistory.StreamsConserved` and `ChannelHistory.EndedForGood` for a channel,
  `SupervisorSteps.RunSettles` for a supervisor, `FamilyOrder.RunInv` for a family.
* `closeSession` on a key whose newer opening is pending over an older one already written does not close the
  session at the remote: `CtrlHistory.CloseTakesEffect` gives the exact condition and
  `CtrlHistory.OrphanedReopening` the case in which it fails.
* The duplicate rule makes two nodes agree on one connection, whatever the interleaving, if and only if the
  preferred direction has exactly one (`Duplicate.AgreeIff`). With two or more, there is always a run that
  leaves both nodes without any (`Duplicate.SameDirectionMayLoseBoth`).
* A decode's result names the message and not the session, so one handled late can be delivered by the
  session's successor: `ChannelDecodes.RunDeliversOwnIff` says exactly when, for every state of every run, and
  `ChannelDecodes.LateDecodeReachesSuccessor` shows it. Deliveries per session and per decode are still at
  most one.
* A HELLO tells the remote every channel it lists, but `announceInitial` leaves a channel the state already holds
  as it is: `CtrlConvergence.HelloConsistentIff` says exactly when state and remote still agree. The engine calls
  it once for each binding, on an empty state.
* A failed send clears the peer's bit for the chunk whoever set it, so a chunk the peer announced while the send
  was in flight can be offered to it again (`StrategyHistory.FailedIsOfferedAgain`).
* A registered family owns at least one protocol (family.go:51-53), which is why a view with handles has routes.

## Model

| member | source | states |
|---|---|---|
| `CtrlOut.CtrlOutState.AnnounceInitial` | broadcast/ctrl_out.go:34-45 | the listed channels not held become wanted and announced, those held are left alone; where each of those was announced this is the Hello step, the remote told all of them, and the run stays consistent |
| `CtrlOut.CtrlOutState.Announce` | broadcast/ctrl_out.go:47-72 | the Announce step: wanted or not; a withdrawn channel wanted again before the remote was told is marked to be retired first; dropping a channel forgets its sessions' routing |
| `CtrlOut.CtrlOutState.OpenSession` | broadcast/ctrl_out.go:74-93 | the Open step: the newest opening is pending; one over a closing entry starts a fresh generation |
| `CtrlOut.CtrlOutState.CloseSession` | broadcast/ctrl_out.go:95-103 | the Close step: the entry, created when missing, is marked for closing |
| `CtrlOut.CtrlOutState.CloseSessionStream` | broadcast/ctrl_out.go:105-113 | the EndStream step: the entry, created when missing, asks for its stream to end |
| `CtrlOut.CtrlOutState.SetRouting` | broadcast/ctrl_out.go:115-132 | the Route step: the latest update of an existing entry wins; reports whether it was taken |
| `CtrlOut.CtrlOutState.Session` | broadcast/ctrl_out.go:134-142 | finds or creates the entry, numbering new entries in creation order |
| `CtrlOut.CtrlOutState.FirstSession` | broadcast/ctrl_out.go:224-233 | the loop over the map finds the matching entry of least number, whatever the map order, or none exactly when none matches |
| `CtrlOut.CtrlOutState.NextClose` | broadcast/ctrl_out.go:160-179 | the first phase: purges doomed entries met on the way and closes the oldest closing session |
| `CtrlOut.CtrlOutState.NextUnsubscribe` | broadcast/ctrl_out.go:181-194 | the second phase: one retired channel, dead channels purged on the way |
| `CtrlOut.CtrlOutState.NextSubscribe` | broadcast/ctrl_out.go:196-201 | the third phase: one channel to join |
| `CtrlOut.CtrlOutState.NextSession` | broadcast/ctrl_out.go:203-221 | open, close-stream and routing phases, oldest entry first |
| `CtrlOut.CtrlOutState.Next` | broadcast/ctrl_out.go:153-222 | every call is a NextStep of the specification: at most one event, by phase, for any map iteration order |
| `CtrlOut.CtrlOutState.AwaitReady` | broadcast/peer_ctrl.go:69-103 | the control loop consumes the wake token |
| `CtrlOut.CtrlOutState.Close` | broadcast/ctrl_out.go:235-241 | a closed state stays closed and returns nothing more |
| `CtrlSpec.RequestOpenValid` | broadcast/ctrl_out.go:74-93 | every opening call keeps the entries valid: numbered, keyed by their own openings, in a consistent flag state |
| `CtrlSpec.RequestCloseValid` | broadcast/ctrl_out.go:95-103 | so does closing |
| `CtrlSpec.RequestStreamEndValid` | broadcast/ctrl_out.go:105-113 | so does ending a stream |
| `CtrlSpec.RequestRoutingValid` | broadcast/ctrl_out.go:115-132 | so does routing |
| `CtrlSpec.SetWantedValid` | broadcast/ctrl_out.go:47-72 | so does announcing |
| `CtrlConvergence.NextEntry` | broadcast/ctrl_out.go:160-219 | what one Next does to one session entry: close only if open or closing, open only its own pending payload, close-stream and routing only after it is open and in that order |
| `CtrlConvergence.NextChannel` | broadcast/ctrl_out.go:181-201 | what one Next does to one channel: unsubscribe and subscribe alternate |
| `CtrlConvergence.NextValid` | broadcast/ctrl_out.go:153-222 | every Next keeps the entries valid |
| `CtrlConvergence.NextLinked` | broadcast/ctrl_out.go:153-222 | what the remote was told stays tied to the open and announced flags |
| `CtrlConvergence.NextNoneIff` | broadcast/ctrl_out.go:153-222 | Next returns nothing exactly when nothing is owed |
| `CtrlConvergence.NextNoneQuiet` | broadcast/ctrl_out.go:153-222 | and then leaves a state that owes nothing |
| `CtrlConvergence.CallConsistent` | broadcast/ctrl_out.go:34-132 | every call keeps the state consistent with the simple desired-state maps it replaces |
| `CtrlConvergence.HelloConsistentIff` | broadcast/ctrl_out.go:34-45 | a Hello leaves the state in step with what the remote was told if and only if every listed channel already held was announced |
| `CtrlConvergence.EmitConsistent` | broadcast/ctrl_out.go:153-222 | every Next keeps it consistent, the remote told the event |
| `CtrlConvergence.RunConsistent` | broadcast/ctrl_out.go:34-241 | hence every state of every run of calls, Next steps and wake-ups is consistent |
| `CtrlConvergence.QuietConverged` | broadcast/ctrl_out.go:153-222 | a consistent state that owes nothing has told the remote exactly the wanted channels and the desired sessions with their latest payload |
| `CtrlDrain.DrainConverges` | broadcast/ctrl_out.go:153-222 | after a full drain the remote knows exactly what was asked for |
| `CtrlDrain.RunThenDrainConverges` | broadcast/ctrl_out.go:34-222 | the same from every state of every run |
| `CtrlHistory.CloseTakesEffect` | broadcast/ctrl_out.go:95-103 | over every run: after the last close of a session, whatever happened since, the drain leaves it closed at the remote if and only if no reopening over an open session was pending when it was closed |
| `CtrlHistory.OrphanedReopening` | broadcast/ctrl_out.go:173-178 | the failing case as a concrete run: open, written, close, open, close still sends the second opening |
| `CtrlDrain.NoLostWake` | broadcast/ctrl_out.go:144-149 | a control loop that waits without a token has nothing to send |
| `CtrlDrain.DrainPerKey` | broadcast/ctrl_out.go:160-219 | a drain emits for each session exactly the events its entry asks for, in order |
| `CtrlDrain.DrainPerChannel` | broadcast/ctrl_out.go:181-201 | and for each channel |
| `CtrlHistory.LatestRoutingIsSent` | broadcast/ctrl_out.go:115-132 | over every run: a drain sends a session it leaves open exactly the last routing update accepted and not sent, withdrawn or superseded since, once, and any other none |
| `CtrlHistory.StreamEndIsSent` | broadcast/ctrl_out.go:105-113 | likewise a stream end asked for and not sent or superseded since is sent exactly once |
| `CtrlHistory.StoppedForGood` | broadcast/ctrl_out.go:235-241 | once stopped, the state stays closed in every later state and Next returns nothing |
| `CtrlHistory.HeardInRounds` | broadcast/ctrl_out.go:34-72 | from any state of any run to any later one where the channel is wanted, and until nothing is owed, the remote hears of it in whole rounds of UNSUBSCRIBE then SUBSCRIBE, after the SUBSCRIBE it lacks: none exactly if it was not dropped while known, never more than the drops |
| `CtrlHistory.ReplacedChannelIsRetired` | broadcast/ctrl_out.go:47-72 | over every run: a channel the remote knows, dropped and wanted again later whatever happened in between, is heard of, up to the end of the drain, as UNSUBSCRIBE then SUBSCRIBE, at least once and at most once per drop |
| `CtrlHistory.DrainRetires` | broadcast/ctrl_out.go:181-201 | if the UNSUBSCRIBE was not handed out before, the drain emits exactly both |
| `CtrlHistory.DroppedOnceIsRetiredOnce` | broadcast/ctrl_out.go:181-201 | dropped once, the remote hears exactly UNSUBSCRIBE, SUBSCRIBE, be it before the drain, in it, or one before and one in it |
| `CtrlHistory.StaysSilent` | broadcast/ctrl_out.go:95-103 | over every run: after a close of a session the remote does not know, and until it is opened again, no event is about it |
| `CtrlHistory.ClosedUnsentOpeningIsSilent` | broadcast/ctrl_out.go:95-103 | nor does any drain emit one; the drain keeps an entry exactly if one is there that is not closed, and none if no stream end was asked for since |
| `CtrlDrain.DrainForgets` | broadcast/ctrl_out.go:160-180 | a closed entry is gone after the drain |
| `CtrlDrain.DrainInOrder` | broadcast/ctrl_out.go:153-233 | events come in phase order and, within a session phase, in creation order, for any map iteration order |
| `CtrlDrain.DrainLength` | broadcast/ctrl_out.go:153-222 | every drain emits exactly the events owed: at most four a session and two a channel |
| `CtrlDrain.NextTakesWork` | broadcast/ctrl_out.go:153-222 | the termination measure: each event returned takes one from what is owed |
| `PeerCtrl.PeerConn.HandleSessionOpen` | broadcast/peer_ctrl.go:180-221 | the control loop holds one stream per session told open; an older stream of the key is finished first; the slot update follows |
| `PeerCtrl.PeerConn.HandleSessionDone` | broadcast/peer_ctrl.go:253-266 | closing finishes the stream and clears the slot |
| `PeerCtrl.PeerConn.HandleStreamEnd` | broadcast/peer_ctrl.go:159-178 | ending only the SESS stream keeps the chunk slot |
| `PeerCtrl.PeerConn.HandleCtrl` | broadcast/peer_ctrl.go:159-178 | each event keeps streams and slots matching what the remote was told |
| `PeerCtrl.PeerConn.ReceiveSlot` | broadcast/peer_ctrl.go:151-157 | the data loop applies updates in order |
| `PeerCtrl.PeerConn.DrainCtrl` | broadcast/peer_ctrl.go:69-103 | after draining, the slots are exactly the open keys, each with the outbox of its latest opening |
| `Engine.Engine.AddChannel` | broadcast/engine.go:134-151 | a new channel is announced to every ready peer and joined by those subscribed to it; a duplicate is refused |
| `Engine.Engine.RemoveChannel` | broadcast/engine.go:153-163 | withdrawn from every ready peer |
| `Engine.Engine.PeerSubscribed` | broadcast/engine.go:165-175 | a subscription enrols the peer in the channel if it exists, once |
| `Engine.Engine.PeerUnsubscribed` | broadcast/engine.go:177-187 | and is undone |
| `Engine.Engine.BindPeer` | broadcast/engine.go:189-199 | a new binding lists the channels of its HELLO and is not ready until its handshake; that its handle and ID are free is what EngineFamily.ResponseAllowed proves of the events a family returns |
| `Engine.Engine.HandlePeerHandshake` | broadcast/engine.go:220-255 | the remote knows the channels listed at bind time, those added or dropped since are announced, and the peer is enrolled once in each live channel it lists; a stopped binding changes nothing |
| `Engine.Engine.RemovePeer` | broadcast/engine.go:265-274 | the peer leaves every channel it was enrolled in |
| `Engine.Engine.HandlePeerGone` | broadcast/engine.go:257-263 | only the current binding is removed |
| `Engine.Engine.PeerDown` | broadcast/engine.go:325-329 | the binding ends, its peer leaves every channel if it was ready through it, and it is forgotten |
| `EngineSpec.ChannelAdded` | broadcast/engine.go:134-151 | adding keeps the tables coherent: each ready peer wants exactly the channels, members are exactly the subscribed ready peers |
| `EngineSpec.ChannelRemoved` | broadcast/engine.go:153-163 | so does removing |
| `EngineSpec.SubscribedOne` | broadcast/engine.go:165-175 | so does a subscription |
| `EngineSpec.UnsubscribedOne` | broadcast/engine.go:177-187 | so does its end |
| `EngineSpec.Readied` | broadcast/engine.go:220-255 | so does a handshake |
| `EngineSpec.Unreadied` | broadcast/engine.go:265-274 | so does a departure |
| `EngineSpec.Turned` | broadcast/peer_ctrl.go:69-103 | so does a turn of a binding's control loop |
| `EngineSpec.GreetedWorld` | broadcast/engine.go:220-255 | announcing what changed between bind time and handshake leaves exactly the present channels wanted, the remote told those of the HELLO, whatever the order of the table |
| `EngineSpec.DoCoherent` | broadcast/engine.go:134-274 | every step keeps the tables coherent: add, remove, subscribe, unsubscribe, bind, handshake, end, down, stop, turn |
| `EngineSpec.RunCoherent` | broadcast/engine.go:134-274 | hence the tables are coherent in every state of every run from empty tables |
| `EngineSpec.SubscriptionsConverge` | broadcast/engine.go:134-274 | in every state of every run, each ready peer not shut down wants exactly the engine's channels, and a full drain of its control state leaves its remote holding exactly them |
| `EngineHistory.ChannelsAreAdded` | broadcast/engine.go:134-163 | in every state of every run the channels are exactly those added and not removed since, under the handle of the first add |
| `EngineHistory.BindingsAreBound` | broadcast/engine.go:189-274 | bound are exactly the handles up and not down since, under their IDs; ready those whose handshake completed and that have not ended since |
| `EngineHistory.SubscriptionsAreAsked` | broadcast/engine.go:165-187 | a bound peer subscribes to a channel if and only if its handshake listed it or a later subscription did, and no unsubscription followed |
| `EngineHistory.MembersAreAsked` | broadcast/engine.go:134-274 | hence a channel has been told exactly the peers of the handles ready and subscribed to it |
| `EngineFamily.ResponseAllowed` | broadcast/engine.go:220-224 | when the family returns a PeerUp, no binding holds the handle or its peer ID |
| `EngineFamily.HostStepInv` | broadcast/engine.go:319-331 | every step of the family, and of the engine handling its events, keeps bindings to handles whose PeerUp was returned and PeerDown was not, and the tables coherent |
| `EngineFamily.RunHost` | broadcast/engine.go:116-132 | in every state of every run of an engine fed by its family that holds, and the engine may do what the next event asks: that an ID is free at its next PeerUp is proved, not assumed |
| `Bitmap.Set` | broadcast/rs/bitmap.go:19-24 | in place, the set of one indices gains exactly the index; out of range nothing changes |
| `Bitmap.Unset` | broadcast/rs/bitmap.go:33-38 | and loses exactly it |
| `Bitmap.Or` | broadcast/rs/bitmap.go:63-67 | in place, the union, restricted to the receiver's length |
| `Bitmap.AllOnes` | broadcast/rs/bitmap.go:11-17 | exactly the first n indices |
| `Bitmap.OnesCount` | broadcast/rs/bitmap.go:40-46 | the byte-wise popcount equals the number of one indices |
| `Bitmap.WithBitOnes` | broadcast/rs/bitmap.go:19-24 | setting a bit of a byte adds one index to the set the bytes stand for |
| `Bitmap.WithoutBitOnes` | broadcast/rs/bitmap.go:33-38 | clearing removes one |
| `Bitmap.OrBytesOnes` | broadcast/rs/bitmap.go:63-67 | bytewise or is set union |
| `EmitPlanner.EmitPlanner.Swap` | broadcast/rs/emit.go:40-44 | keeps the position index the inverse of the entries |
| `EmitPlanner.EmitPlanner.Push` | broadcast/rs/emit.go:46-50 | appends and indexes |
| `EmitPlanner.EmitPlanner.Pop` | broadcast/rs/emit.go:52-59 | removes the last entry and its index |
| `EmitPlanner.EmitPlanner.Insert` | broadcast/rs/emit.go:61-68 | the planner as a map gains or replaces the entry; heap order and the index are kept |
| `EmitPlanner.EmitPlanner.Top` | broadcast/rs/emit.go:70-75 | no entry is strictly below the one returned; none exactly when empty |
| `EmitPlanner.EmitPlanner.PopFront` | broadcast/rs/emit.go:77-79 | removes a least entry |
| `EmitPlanner.EmitPlanner.Increment` | broadcast/rs/emit.go:81-88 | one entry's Times goes up by one, nothing else changes |
| `EmitPlanner.EmitPlanner.Decrement` | broadcast/rs/emit.go:90-97 | or down by one |
| `EmitPlanner.EmitPlanner.Delete` | broadcast/rs/emit.go:104-110 | the entry is gone, the rest unchanged |
| `EmitPlanner.EmitPlanner.AddSent` | broadcast/rs/emit.go:120-126 | one entry's Sent changes; the order does not depend on it |
| `EmitPlanner.RootIsLeast` | broadcast/rs/emit.go:32-38 | in a heap by Times, then Priority, no entry is strictly below the root |
| `EmitPlanner.SiftedUp` | broadcast/rs/emit.go:61-97 | one step of sifting up restores the order around the moved entry |
| `EmitPlanner.SiftedDown` | broadcast/rs/emit.go:61-97 | one step of sifting down does |
| `Strategy.SkipIneligible` | broadcast/rs/strategy.go:254-289 | popping until an eligible entry is on top skips only ineligible ones |
| `Strategy.PutBack` | broadcast/rs/strategy.go:254-289 | reinserting what was skipped restores the planner as a map |
| `Strategy.FindEligible` | broadcast/rs/strategy.go:254-289 | the pop-and-reinsert search returns a least eligible entry, or none exactly when none is eligible, and leaves the planner unchanged |
| `Strategy.NewRelay` | broadcast/rs/strategy.go:96-106 | a relay exists exactly for a well-formed preamble: positive data chunks, no negative parity, one hash per chunk |
| `Strategy.Strategy.Relay` | broadcast/rs/strategy.go:96-125 | a relay starts with balanced books and the default multiplier 4 |
| `Strategy.Strategy.Origin` | broadcast/rs/strategy.go:45-94 | an origin starts holding and planning every chunk |
| `Strategy.Strategy.Allocate` | broadcast/rs/strategy.go:254-289 | the chunk allocated is least by (Times, Priority) among those eligible for the peer; only its Times and the peer's in-flight count change |
| `Strategy.Strategy.PollChunks` | broadcast/rs/strategy.go:226-243 | the new books are the old ones after the dispatches in turn, each of the chunk least eligible for its peer when made; at most one dispatch per peer, none to a completed one, each of a held chunk now in flight to that peer; an incomplete peer gets none only if nothing is eligible for it |
| `Strategy.Strategy.ChunkSent` | broadcast/rs/strategy.go:291-320 | an outcome is credited or taken back exactly when the chunk is in flight to the peer; anything else is ignored |
| `Strategy.Strategy.AttachPeer` | broadcast/rs/strategy.go:141-147 | a fresh peer state; sends in flight to an earlier attachment are counted lost |
| `Strategy.Strategy.DetachPeer` | broadcast/rs/strategy.go:149-159 | a completed peer stays, marked; any other is forgotten and its sends in flight counted lost |
| `Strategy.Strategy.RoutingUpdate` | broadcast/rs/strategy.go:209-224 | the peer's bitmap gains what it was told; exactly the redundant sends in flight are returned, ascending |
| `Strategy.Strategy.TakeChunk` | broadcast/rs/strategy.go:172-203 | accepted exactly when new, in range and before completion; completion is reported by the DataChunks-th accept only |
| `StrategySpec.AllocatedBalanced` | broadcast/rs/strategy.go:254-289 | an allocation keeps the books balanced |
| `StrategySpec.SentBalanced` | broadcast/rs/strategy.go:291-320 | so does an outcome |
| `StrategySpec.AttachedBalanced` | broadcast/rs/strategy.go:141-147 | so does attaching |
| `StrategySpec.DetachedBalanced` | broadcast/rs/strategy.go:149-159 | so does detaching |
| `StrategySpec.MarkedBalanced` | broadcast/rs/strategy.go:209-224 | so does a routing update |
| `StrategySpec.TakenBalanced` | broadcast/rs/strategy.go:172-203 | so does accepting a chunk: the bitmap, the stored chunks and the planner agree index by index |
| `StrategySpec.BalancedMeans` | broadcast/rs/strategy.go:254-320 | Times never falls below Sent; Sent plus sends in flight stays within ForwardMultiplier - 1 plus the most peers ever attached; a spent chunk is eligible for nobody |
| `StrategyRuns.RunBalanced` | broadcast/rs/strategy.go:141-320 | over every call sequence Times equals credited sends plus sends in flight plus sends lost with their peers, each in-flight count 0 or 1 |
| `StrategyRuns.RunFrozen` | broadcast/rs/strategy.go:172-203 | once complete, chunks, bitmap and planned indices never change, and completeness was reported exactly once |
| `StrategyRuns.SettledIsNotSent` | broadcast/rs/strategy.go:254-320 | a chunk credited to or taken from an attached peer is neither allocated to it nor credited to it by the next call |
| `StrategyRuns.StaysSettled` | broadcast/rs/strategy.go:141-159 | only attaching the peer again or detaching it ends that |
| `StrategyRuns.NeverSentAgain` | broadcast/rs/strategy.go:254-320 | over every run, between two calls without an attach or detach of the peer: once credited to it or taken from it, a chunk is never allocated to it nor reported for it again |
| `StrategyRuns.PollIsCalls` | broadcast/rs/strategy.go:226-243 | what a poll does is a run of allocations, one per dispatch, so the run theorems cover it |
| `StrategyHistory.HeldAsTaken` | broadcast/rs/strategy.go:172-203 | over every run: bytes are held for a chunk if and only if the books started with them or a call took the chunk with them, and at most one call did |
| `StrategyHistory.DispatchCarriesTaken` | broadcast/rs/strategy.go:226-243 | hence every dispatch carries the bytes its chunk started or was taken with |
| `StrategyHistory.PlannedAsCalled` | broadcast/rs/strategy.go:254-320 | a chunk is planned if and only if it was taken or started so, with the priority, offers and credit the calls give it |
| `StrategyHistory.PeersAsCalled` | broadcast/rs/strategy.go:141-224 | what is known of a peer is what the calls since it was attached say |
| `StrategyHistory.FailedIsOfferedAgain` | broadcast/rs/strategy.go:312-319 | after a failed send the chunk is eligible for the peer again if and only if the books are an origin's or its credit is below the multiplier |
| `StrategyHistory.FailureUndoes` | broadcast/rs/strategy.go:291-320 | an allocation whose send fails at once leaves the books as they were |
| `Rlp.Decode` | enr/rlp.go:31-90 | a decoded item and what is left make up the input, and at least one byte is consumed |
| `Rlp.DecodeLongLength` | enr/rlp.go:107-123 | the loop computes the big-endian length, rejecting leading zeros and lengths beyond the input |
| `Rlp.DecodeRLPList` | enr/rlp.go:92-105 | the loop decodes the children that fill the payload, with the first error |
| `Rlp.DecodeEncode` | enr/rlp.go:31-202 | decoding an encoded tree followed by any tail returns the tree and the tail |
| `Rlp.EncodeDecode` | enr/rlp.go:31-202 | any accepted input encodes back to exactly the bytes consumed |
| `Rlp.DecodedIsCanonical` | enr/rlp.go:31-123 | every accepted item, at every depth, is in its one canonical form |
| `Rlp.UniquelyDecodable` | enr/rlp.go:167-202 | no encoding is a prefix of another |
| `Rlp.EncodeLongItem` | enr/rlp.go:190-202 | trimming the eight-byte length gives the shortest form |
| `Rlp.EncodeUint` | enr/rlp.go:204-215 | the shortest form, empty for zero |
| `Rlp.DecodeUint` | enr/rlp.go:127-142 | the loop computes the value of a minimal integer that fits |
| `Rlp.UintRoundTrip` | enr/rlp.go:127-215 | every integer that fits round-trips, with any tail |
| `Rlp.UintIsMinimal` | enr/rlp.go:127-142 | an accepted integer is in its minimal form and fits its width |
| `Enr.ReadEntries` | enr/enr.go:97-109 | the loop accepts exactly strictly ascending string keys and fills the map |
| `Enr.Content` | enr/enr.go:125-128 | the loop reconstructs the signed content from the fields' bytes |
| `Enr.DecodeRecord` | enr/enr.go:71-134 | the result is the specification's for every input, errors included |
| `Enr.EncodeSignedContent` | enr/enr.go:213-220 | the loop appends sequence, keys and values in order |
| `Enr.AscendingUnique` | enr/enr.go:97-109 | a map has one ascending listing |
| `EnrTheorems.GenuineIsAccepted` | enr/enr.go:71-134 | the encoding of a 64-byte signature, a sequence number and ascending entries that meets the v4 conditions decodes to them |
| `EnrTheorems.AcceptedIsGenuine` | enr/enr.go:71-134 | every accepted record is the encoding of its signature, sequence number and entry map in key order |
| `EnrTheorems.AcceptedIff` | enr/enr.go:71-134 | acceptance, both ways |
| `EnrTheorems.SortAscending` | enr/enr.go:206-211 | sorting gives strictly ascending keys exactly when no key repeats |
| `EnrTheorems.Sign` | enr/enr.go:188-211 | signing encodes the sorted entries and decodes the result; a nil key or an entry that fails to encode is an error |
| `EnrTheorems.SignIff` | enr/enr.go:188-211 | signing succeeds exactly when no key appears twice, id and secp256k1 included, and the record fits in 300 bytes; the record then holds key, number and entries |
| `Wire.ParseField` | wire/wire.go:246-264 | the loop parses a minimal uvarint of at most 32 bits |
| `Wire.FieldRoundTrip` | wire/wire.go:246-264 | every 32-bit value parses back with any tail |
| `Wire.FieldAccepted` | wire/wire.go:246-264 | what is accepted is the minimal uvarint of the result |
| `Wire.FieldPrefix` | wire/wire.go:246-264 | every proper prefix is incomplete |
| `Wire.FieldStable` | wire/wire.go:246-264 | a decision does not change when more arrives |
| `Wire.SelectorRoundTrip` | wire/wire.go:211-242 | every selector outside family 19 round-trips with any tail |
| `Wire.SelectorAccepted` | wire/wire.go:229-242 | an accepted prefix is AppendSelector of the result |
| `Wire.SelectorPrefix` | wire/wire.go:229-242 | every proper prefix of a header is incomplete |
| `Wire.SelectorStable` | wire/wire.go:229-242 | a decided outcome is stable under extension |
| `Wire.SelectorDecides` | wire/wire.go:17-19 | ten bytes decide, so the read loop never runs out |
| `Wire.ReservedFirstByte` | wire/wire.go:12-15 | a first byte of 0x13 is written for family 19 only, and is what rejects it |
| `Wire.HeadersUniquelyDecodable` | wire/wire.go:211-214 | no header is a prefix of another |
| `Wire.Reader.ReadSelector` | wire/wire.go:269-286 | byte by byte equals parsing at once; no byte beyond the deciding one is consumed; EOF, truncation and read errors as documented; the panic is unreachable |
| `Wire.CodeRoundTrip` | wire/wire.go:98-127 | codes a program can hold round-trip; a received number does exactly when it is a protocol's or a known stack value |
| `Family.Family.Limit` | family.go:122-129 | the loop finds the protocol's limit, 0 when not owned |
| `Family.Family.AddPeer` | family.go:140-146 | a new handle waits at the back of the ring |
| `Family.Family.Push` | family.go:310-329 | queued within the limit, or handed back to be reset with the right code |
| `Family.Family.ClosePeer` | family.go:336-361 | ends the handle once; its queued streams are handed back to be reset; before PeerUp it leaves the ring |
| `Family.Family.Next` | family.go:85-118 | the front handle's turn; the event returned is the one logged |
| `FamilySpec.PushedOk` | family.go:310-329 | the count of each protocol equals its queued streams and never exceeds MaxQueued; the queue is the accepted streams not yet taken, in push order |
| `FamilySpec.ClosedOk` | family.go:336-361 | closing keeps that |
| `FamilySpec.TurnedOk` | family.go:85-118 | so does a turn |
| `FamilyGrammar.StepScripted` | family.go:85-361 | after every step each handle has been returned PeerUp, its streams in push order, then one PeerDown, or nothing if closed before PeerUp |
| `FamilyGrammar.StepConserved` | family.go:85-361 | every pushed stream is taken, queued or reset, once each |
| `FamilyOrder.RunInv` | family.go:85-368 | both, the counts and the wake rule, in every state of every run |
| `FamilyOrder.HandlesNeverInterleave` | family.go:336-368 | given a peer's earlier handles are closed before a new one is added, the older handle is finished before the newer one speaks, and all its events come first |
| `FamilyOrder.ServedInTurn` | family.go:85-118 | a handle with k ahead of it is served within k+1 calls of Next, whatever else happens |
| `FamilyRuns.StepRing` | family.go:85-368 | the ring holds each listed handle once, and a consumer that saw it empty is woken |
| `FamilyHistory.PushedIff` | family.go:310-329 | at every push of every run the stream is queued, at the back, if and only if the handle is not down and fewer of its protocol are queued than the limit; else it alone is reset, unsupported on an ended handle and unspecified on a full one |
| `FamilyHistory.CloseResets` | family.go:336-361 | at the first close of a handle every queued stream is reset, in order, with the reset code; later ones change nothing |
| `FamilyHistory.HandlesAsCalled` | family.go:140-146 | after every run handle h is that of the h-th peer added, and down if and only if it was closed, with the code of the first close |
| `Supervisor.PeerSupervisor.ReadHeaders` | supervisor.go:248-273 | the nested loops fill each direction's slots |
| `Supervisor.PeerSupervisor.FillDirection` | supervisor.go:248-273 | reads start in queue order until the slots are full or the queue is empty |
| `Supervisor.PeerSupervisor.HeaderRead` | supervisor.go:314-336 | routes or ends the stream, exactly once, and starts the next reads; stale completions only end their stream |
| `Supervisor.PeerSupervisor.DropView` | supervisor.go:342-364 | clears every view field, closes every handle, ends every queued stream |
| `Supervisor.PeerSupervisor.CloseHandles` | supervisor.go:342-364 | the loop closes the view's handle in each family |
| `Supervisor.PeerSupervisor.HandleClosed` | supervisor.go:367-380 | ends the view exactly when no family holds it |
| `Supervisor.PeerSupervisor.Attach` | supervisor.go:139-235 | admits or refuses in the order of the checks; an admitted view replaces the old one |
| `SupervisorRuns.ReadDirectionOk` | supervisor.go:248-273 | after reading, each direction has four reads or an empty queue; counters and places stay exact |
| `SupervisorRuns.FreedSlot` | supervisor.go:314-336 | a read that ends on the current view frees exactly its slot |
| `SupervisorRuns.StaleSlots` | supervisor.go:314-321 | a stale one frees none |
| `SupervisorRings.CloseAllFrees` | supervisor.go:342-364 | dropping a view leaves the peer no live handle in any family |
| `SupervisorRings.EnrolOwned` | supervisor.go:201-216 | a handle is added only where the peer has no live one |
| `SupervisorSteps.PerformInv` | supervisor.go:139-380 | every step of the supervisor, its readers, transport, the consumers and other peers keeps the invariant |
| `SupervisorSteps.RunSupInv` | supervisor.go:139-380 | in every state of every run: counters equal outstanding reads of the current view within 0..4; each stream is in one place; connection, outbound, handles and routes are all set or all clear; every family's handles of a peer keep their order |
| `SupervisorSteps.PerformSettles` | supervisor.go:248-336 | what became of a stream never changes, and a read that ends settles its stream |
| `SupervisorSteps.RunSettles` | supervisor.go:248-336 | so between any two states of any run: a stream settles once, for good |
| `SupervisorSteps.RoutedToHandle` | supervisor.go:314-336 | a stream whose selector the view serves reaches the view's handle in that family as one push |
| `SupervisorHistory.AdmittedIff` | supervisor.go:139-235 | at every offer of every run the view is admitted if and only if its record is good, it shares a family, the stack is open, its dial was not abandoned and no view held the other way wins; then with a new handle in exactly the shared families, else nothing changes |
| `SupervisorHistory.HeldWasAdmitted` | supervisor.go:139-235 | in every state of every run a view held was admitted by an earlier offer that met all of these |
| `SupervisorHistory.ViewEndsIff` | supervisor.go:342-380 | at every act of every run a view ends if and only if it is dropped, no family holds it, a control stream arrives on it or another is admitted; then its queued streams are reset as closing and its handles end with that code |
| `SupervisorHistory.ReadSettlesAsDue` | supervisor.go:314-336 | at every end of a header read the stream goes to the view's handle in the family owning its protocol, or ends as closing, violation or unsupported, or as the reader ended it |
| `Duplicate.BothKeepTheWinner` | supervisor.go:175-200 | with one connection dialed by the lower peer and any number by the higher, over every interleaving neither node lets the former go, and both end up holding exactly it |
| `Duplicate.MoveKeeps` | supervisor.go:175-200 | each attach, rejection and GOAWAY keeps that |
| `Duplicate.SameDirectionMayLoseBoth` | supervisor.go:175-200 | in every net with two connections in the preferred direction, whatever else there is, some run ends with nothing left to process and no connection held at either end |
| `Duplicate.AgreeIff` | supervisor.go:175-200 | every run that leaves nothing to process ends with both nodes on one connection if and only if the preferred direction has exactly one |
| `Stack.Entry.Attach` | stack.go:194-216 | a view is appended to the mailbox of the peer's supervisor, started when there is none; a closed stack refuses it and nothing changes |
| `Stack.Entry.Post` | supervisor.go:65-76 | accepted exactly when that supervisor is still in the table |
| `Stack.Entry.DrainInbox` | supervisor.go:113-121 | takes the whole inbox and runs it in order; everything accepted has then run |
| `Stack.Entry.TryExit` | supervisor.go:125-134 | leaves exactly when the inbox is empty, everything accepted having run |
| `Stack.Entry.Disconnect` | stack.go:254-271 | marks the dial in progress and queues the drop together, or returns at once without a supervisor |
| `MailboxSpec.StepFlows` | supervisor.go:65-134 | what was accepted is what ran, is being run and waits, in order; a supervisor with mail is or will be woken |
| `MailboxSpec.ExitRanAll` | supervisor.go:125-134 | a supervisor leaves the table only after running every request it accepted |
| `MailboxSpec.AdmittedIff` | supervisor.go:169-174 | over every run: a view is admitted if and only if it passes the other checks and is not of an attempt a Disconnect abandoned before |
| `MailboxSpec.DisconnectIsFinal` | stack.go:254-271 | over every run: whenever a Disconnect has returned, in that state and every later one, no view of the attempt in progress when it was called is held |
| `MailboxSpec.DisconnectIsAnswered` | stack.go:254-271 | a Disconnect returns if and only if its drop is no longer waiting: at once without a supervisor, and by the time the supervisor leaves |
| `MailboxSpec.MarkedIff` | stack.go:254-271 | a dial in progress is marked if and only if a Disconnect came while it was |
| `MailboxSpec.MailIsRun` | supervisor.go:65-134 | over every run: the requests made while the supervisor was in the table are those that ran, are being run and wait, in the order they were made |
| `Stack.TrafficTable.CloseView` | stack.go:222-238 | a view's counters are added at release, once; the reported traffic does not change |
| `Stack.TrafficTable.Report` | stack.go:324-334 | the loop sums the released totals and the committed views |
| `Stack.CountedAreAdmitted` | stack.go:222-334 | over every run: a view is counted if and only if it was admitted, with the counters it last had, as released if and only if it was |
| `Stack.TrafficIsEveryView` | stack.go:222-334 | the reported traffic is the sum over every admitted view, each once |
| `Stack.TrafficNeverDecreases` | stack.go:222-334 | it never decreases over any run |
| `Channel.Channel.HandleStream` | broadcast/session.go:155-252 | ended as malformed or redundant, read when a slot is free, else queued; every cancellation is recorded |
| `Channel.Channel.DrainReads` | broadcast/session.go:254-261 | the loop starts queued reads until the queue is empty or every slot is taken |
| `Channel.Channel.ReaderEnds` | broadcast/session.go:214-251 | a reader's end gives its slot back, ends its stream once with the code, and owes the channel one read-done |
| `Channel.Channel.ReadDone` | broadcast/channel.go:218-221 | a freed slot is used |
| `Channel.Channel.Chunk` | broadcast/channel.go:282-306 | read, queued, parked within 32 per message, or ended |
| `Channel.Channel.Open` | broadcast/channel.go:308-423 | a new relay session attaches every member and takes the message's parked streams in order |
| `Channel.Channel.Publish` | broadcast/channel.go:365-383 | replaces any session of the message by an origin session |
| `Channel.Channel.Bound` | broadcast/channel.go:325-333 | the peer joins every session |
| `Channel.Channel.Unbound` | broadcast/channel.go:335-357 | its parked and queued streams end, it leaves every session, and sessions left idle are disposed of |
| `Channel.Channel.Dispose` | broadcast/channel.go:464-485 | exactly the message's parked, queued and read streams are ended, with the code its stage calls for |
| `Channel.Channel.IsIdle` | broadcast/session.go:496-509 | the loop decides idleness |
| `Channel.Channel.Leave` | broadcast/session.go:439-456 | a dropped peer's queued streams end |
| `Channel.Channel.Completed` | broadcast/session.go:469-477 | a peer is completed once |
| `Channel.Channel.SessionEnded` | broadcast/channel.go:251-260 | ignored when the peer's connection was replaced |
| `Channel.Channel.Taken` | broadcast/session.go:317-348 | a decode is started at most once per session |
| `Channel.Channel.Decoded` | broadcast/channel.go:265-278 | a result is delivered by the session registered under its message, if that has not delivered yet and the decode succeeded: at most once per session, and the log says whose decode it was |
| `Channel.Channel.Expire` | broadcast/channel.go:487-502 | exactly the sessions and parked groups past their age end, with Refused before decoding |
| `ChannelRuns.HandleStreams` | broadcast/channel.go:214-502 | after every event parked groups of one to 32, read queues and readers hold exactly the streams recorded there, each in one place, and a queued read implies 64 readers or a read-done still to come; that the record loses none is ChannelHistory.HandleMoves |
| `ChannelHistory.HandleMoves` | broadcast/channel.go:214-502 | every event keeps every stream there was, lets each move only from parked to queued to being read to ended, for the same message and chunk, and adds exactly the stream it brings |
| `ChannelHistory.RunMoves` | broadcast/channel.go:214-502 | so between any two states of any run |
| `ChannelHistory.StreamsConserved` | broadcast/channel.go:282-306 | after every event of every run the streams accounted for are exactly those given so far, each found in the parked group, queue or readers its place names, or ended |
| `ChannelHistory.GivenStaysAccounted` | broadcast/channel.go:282-306 | a stream given for a chunk of a message is ever after parked, queued or being read for that chunk, or ended |
| `ChannelHistory.EndedForGood` | broadcast/session.go:155-252 | a stream is ended at most once: its code is the same in every later state |
| `ChannelEffects.RunArrives` | broadcast/session.go:155-252 | at every arrival of every run, in a registered session: the stream ends as unspecified if and only if malformed, as redundant if and only if not and the session is past consuming or holds the chunk, and is otherwise read, or queued at the back behind 64 readers |
| `ChannelEffects.RunParks` | broadcast/channel.go:282-306 | in no session: parked at the back of its message's group if and only if that holds fewer than 32, else ended; the group keeps the time of its first stream |
| `ChannelEffects.RunReads` | broadcast/session.go:254-261 | at every read-done a prefix of the queue is taken, each stream of it read or ended as it is judged, and no other stream moves |
| `ChannelEffects.RunOpens` | broadcast/channel.go:391-423 | a new session takes over exactly the streams parked for its message, each read, queued or ended as it is judged |
| `ChannelEffects.RunEnds` | broadcast/channel.go:325-502 | at every other event every stream is where it was, unless its reader ended it, its sender left, its session was disposed of or its group grew too old: then ended, with the code for that |
| `ChannelSessions.RunSessions` | broadcast/channel.go:214-502 | at every event of every run a message has a session afterwards if and only if the event starts one or does not dispose of the one it had: published over, too old, delivered and all peers completed, or not and all gone; with exactly the stage, peers and age that are due |
| `ChannelSessions.MembersAsBound` | broadcast/channel.go:325-357 | after every run the members are the peers bound and not unbound since, on the connection they were bound on |
| `ChannelSessions.RunLogs` | broadcast/session.go:317-348 | at every event of every run a session starts a decode if and only if it takes the last chunk it needs, and one that has not delivered delivers if and only if a successful result of its message is handled |
| `ChannelRuns.HandleLive` | broadcast/channel.go:214-423 | after every event no registered session is idle and every attached peer is the current member on its current connection |
| `ChannelLogs.HandleLogs` | broadcast/channel.go:214-280 | each session starts at most one decode, delivers at most once, and no decode's payload is delivered twice |
| `ChannelLogs.StagesOnlyAdvance` | broadcast/session.go:49-60 | stages never go backwards |
| `ChannelDecodes.RunStagesAdvance` | broadcast/session.go:49-60 | nor between any two states of a run in which the session is registered |
| `ChannelLogs.RunChannel` | broadcast/channel.go:214-502 | places, liveness and logs hold after every event of every run; what became of each stream given is ChannelHistory.StreamsConserved |
| `ChannelDecodes.OwnDecodeIff` | broadcast/channel.go:265-278 | a session that has not delivered yet delivers nothing but its own decode, in every continuation, if and only if no other decode of its message has a result outstanding |
| `ChannelDecodes.OutstandingMeans` | broadcast/session.go:328-345 | in every run an outstanding result is that of a registered session or of one disposed of earlier |
| `ChannelDecodes.DisposedForGood` | broadcast/channel.go:464-485 | a disposed session's serial never returns, and its decode's result keeps naming its message |
| `ChannelDecodes.RunDeliversOwnIff` | broadcast/channel.go:265-278 | over every run: a session that has not delivered yet can only ever deliver its own decode if and only if no earlier session of its message was disposed of with its decode's result still unhandled |
| `ChannelDecodes.LateDecodeReachesSuccessor` | broadcast/channel.go:265-278 | the failing case as a run: session 0's result, handled after session 1 took its place, is delivered by session 1, be that one consuming or decoding itself |
| `ChannelStrategy.StepInv` | broadcast/session.go:317-477 | channel and strategies together: a strategy serves exactly its session's peers and knows which completed; a consuming session's books are incomplete, a decoding one's complete, and every decode started is over complete books |
| `ChannelStrategy.EventPeers` | broadcast/session.go:403-477 | attaching, dropping and completing change a session's peers exactly as its strategy is told |
| `ChannelStrategy.RunNode` | broadcast/session.go:317-477 | that holds in every state of every run of channel events and strategy calls |
| `ChannelStrategy.DispatchesReachPeers` | broadcast/session.go:532-536 | over every run, what a registered session's strategy dispatches goes to an attached peer that has not completed: the peer-gone branch is unreachable |
| `ChannelStrategy.StepDecodes` | broadcast/session.go:328-345 | a decode starts only by the step that makes its session's books complete, and is never forgotten |
| `ChannelStrategy.DecodesFrozenData` | broadcast/session.go:317-348 | over every run: each session starts at most one decode, over exactly DataChunks held chunks, and what that decode reads is the same in every later state |
| `ChannelData.HeldWasGiven` | broadcast/session.go:317-348 | over every run: the bytes a session holds for a chunk were given to it for that chunk, or published with it |
| `ChannelData.GivenIsHeld` | broadcast/rs/strategy.go:172-203 | a chunk in range given to a consuming session for the first time is held in every later state, with the bytes given |
| `ChannelData.HeldStays` | broadcast/rs/strategy.go:172-203 | bytes once held stay |
| `ChannelData.DecodesGivenBytes` | broadcast/session.go:317-348 | a decode reads, for every chunk held, the bytes given to its session for that chunk, however long it runs |
| `ChannelData.DispatchesGivenBytes` | broadcast/session.go:532-536 | what a registered session dispatches are the bytes given or published for the chunk |

## Left out

- `uint64` counters (entry numbers, serials, connection numbers, traffic totals) are unbounded naturals; wrap-around is not modelled.
- Rlp.DecodeEncode: stated for encodings shorter than 2^64 bytes, as every Go byte slice is.
- Engine.Engine.HandlePeerHandshake: bindings are kept as values by handle, so aliasing of a binding between the engine and its loops is not modelled.
- Family.Family.Push: deliveries are kept as values by handle in the family whose mutex guards them; the linked list of ready elements is a sequence.
- Supervisor.PeerSupervisor.Attach: the supervisor's families are the state machines of `FamilySpec`, not objects; `ConnInfo` is reduced to its direction, and record updates are left out.
- Channel.Channel.Open: sessions are kept as values in the channel's map, and the routing update that follows an opening is left out; the class sees a strategy as its judgement of each chunk and the outcome of taking one, and `ChannelStrategy` lets the strategy's books decide the latter.
- Channel.Channel.Leave: closing the session in the peer's control state and cancelling outbound sends are left out; the strategy's detach is in `ChannelStrategy`.
- Channel.Channel.Decoded: a result whose goroutine found its session's context ended is dropped by a separate step, which may come at any time after the session was disposed of or not at all.
- Strategy.Strategy.Origin: encoding the payload into shards and hashing them is a foreign library's work; the shards are a parameter.
- EnrTheorems.Sign: `slices.SortFunc` is insertion sort by key; ties are rejected on decoding whatever their order.
- Strategy.Strategy.TakeChunk: `chunkPriority` is an arbitrary function of the index, stored data is never nil, and the cancellation of reads of the same chunk is left out.
- Strategy.Strategy.PollChunks: `PollRouting`, its thresholds, the routing bitmaps it emits and the flag that asks for one are left out.
- PeerCtrl.PeerConn.HandleSessionOpen: opening the stream and writing to it are taken to succeed, and the slot channel is unbounded.
- PeerCtrl.PeerConn.HandleCtrl: writes are taken to succeed; one that fails for the peer cancels the connection, one that fails for a session retires its stream.
- PeerCtrl.PeerConn.DrainCtrl: cancellation of the control loop is left out; the slots are those after the updates on their way were applied.
- Channel shutdown (`drainInbox`, `shutdown`), dedup groups and outbound cancellation, and `sendChunk`'s outbox.
- `Stack.Connect`'s dial loop beyond the states Disconnect and admission see, `Start`, `Close`, `Register` and `Connections`.
- Frames (`AppendFrame`, `ReadFrame`) and record entry types other than id and secp256k1: they would add round trips of the kind shown.
- Reed-Solomon coding, SHA-256, Keccak, secp256k1, QUIC, TLS and protobuf: foreign libraries, abstract here.
- Observers, logging, statistics, the simulator and the command line.
