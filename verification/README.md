# Verification of the Mutiny node's protocols, synchronisation and storage

This project models the stateful core of the Mutiny lightning wallet and of its
websocket relay, and proves what that core is for.  `dafny verify
dfyconfig.toml` checks all of it.

Five components are modelled.

* **Relay and client multiplexer.** `Relay.dfy` is the server as a state machine
  with one step per event of its select loop, with histories; `RelayServer.dfy`
  is the handler in imperative form, proved to take exactly those steps;
  `RelayProofs.dfy` holds the invariant and `RelayTheorems.dfy` the statements
  about all runs.  `Multiplexer.dfy`, `MultiSocket.dfy` and `Inbound.dfy` do the same for the
  client end.  `Network.dfy`, `NetworkProofs.dfy` and `NetworkTheorems.dfy` join
  any number of clients to one relay by websockets that are FIFOs and that
  clients may leave for new ones; `Flow.dfy` keeps the accounts of payloads at
  the two ends.  `Exchange.dfy` shows that Disconnect commands die out, and
  `Guard.dfy` when the registry guard is never given back.
* **Chain synchronisation.** `ChainModel.dfy` describes a block explorer that may
  answer anything at any moment and callbacks that may register more work
  whenever they run.  `ChainQueries.dfy` and `ChainDelivery.dfy` hold what
  questions and deliveries mean, `ChainRuns.dfy` what one pass and one run of the
  loop are, `ChainTheorems.dfy` what holds of every run, and `ChainEnds.dfy` when
  a run ends.  `ChainSync.dfy` is the syncer as a class, proved to make such
  runs; `ChainExamples.dfy` proves what five syncs against unhelpful backends
  return.
* **Storage.** `Hex.dfy` and `Keys.dfy` keep the key bytes and their hexadecimal
  text concrete.  `Storage.dfy` relates a flat store to typed maps,
  `Reference.dfy` says what the database promises over typed maps,
  `Laws.dfy` what that means for replies to any sequence of operations,
  `Database.dfy` is the flat store with the database on it, and `Persister.dfy`
  the records of one node.  `Payments.dfy`, `PaymentFields.dfy` and
  `NodeRecords.dfy` follow payment records through the node's calls and events.
* **Route hints.** `Hints.dfy`.
* **Background loop.** `Background.dfy`.

`Common.dfy` holds shared types.

## How to read the model

A history (called so where it is declared) is written by steps and read only by
theorems.  An event of a state machine that is not enabled leaves the state
alone, so a run is any sequence of events.  The registry guard of the relay
lives through the body of its `if let`, so looking up, sending and subscribing
are one step; a send to a full channel is a step that is not enabled yet.
`Guard.dfy` refines this: there a handler first enters its arm, where it no
longer serves its own channel, then gets the guard, then sends.
Closing is two steps, the broadcast and the removal from the registry, with
other tasks in between.

The environment of a sync is a function of time.  Time advances with every
backend call and every callback, so the same question may be answered
differently each time.  The loop is given a budget of passes; the contract says
which budget is enough.  `ChainAccessFailed` is the only error the explorer
calls produce, so the arms for permanent failures are never taken.

Values in the flat store stand for their serialised text; reading one as
another type fails.  In a list of turns of the background loop each record holds
what the clock would show at every place where it may be read.

## What turned out not to hold

* A frame sent to a peer that has come back but is not yet untracked leaves no
  listener on the new connection: `ForwardListensIff` gives the exact condition,
  `LateFrameGoesUnannounced` a run.
* A second connection with an id hides the first, and either one's end
  unregisters the other: `RegisteredIffNotDisplaced` gives the exact condition,
  `OverlapHidesALiveConnection` a run.
* Listing a node's peers panics on another node's record whose key ends with the
  node id, and on a recorded peer that is no public key: `OnlyOwnKeysMatch` is the
  exact condition, `UnequalIdsCanFail` a store that fails it.  Ids of one length
  never collide so.
* Paying a paid invoice again overwrites its success, even when the payer
  refuses: `SuccessSurvivesIff` and `PayingTwiceLosesTheSuccess`.
* The comment in `filter_channels` promises some hint whenever all channels are
  private.  The flags range over all eligible channels but only each peer's
  largest is kept: `SomeHintIff` gives the exact condition.  The caller takes an
  empty list for the presence of a public channel.
* The background loop exits when its first turn brings an update
  (`should_break` starts out true), contrary to its documentation.
* `process_queues` has emptied the queues by the time a pass is restarted, so a
  sync can finish without an answer about a registered item: `UnsettledFinish`
  gives the exact condition, `FinishesUnanswered` and the method
  `FinishedWithoutAnAnswer` a sync.
* A sync need not end.  It goes on while the tip stays, is new, and is never
  accepted (`RejectedTipNeverFinishes`, `NeverFinished`); while it stays, is new
  and even accepted, but some item is never answered about
  (`UnansweredNeverFinishes`, `NeverFinishedForAQuestion`); and while it keeps
  moving (`MovingTipNeverFinishes`, `NeverFinishedForItsTips`).  `RecordedIff` and
  `FinishesOnceRecorded` are exact for a tip that stays, `TimelessFinishIff` is
  the condition in terms of a backend whose answers do not depend on the moment,
  and `FinishIff` holds whatever the tip does.
* The best block last told need not be the hash recorded when a sync finishes:
  `LastBestBlockIff` gives the exact condition, `FinishedOnOldTip` a sync.
* The relay can stop for good: a handler awaits a bounded send while it holds the
  registry guard, and a handler inside an arm does not empty its own channel.
  `StuckForeverIff` gives the exact condition, `SelfDisconnectJams` a run.

## Model

| member | source | states |
|---|---|---|
| RelayTheorems.DeliveryInOrder | ln-websocket-proxy/src/main.rs:281-314 | In every run and for every two connections, what was written to d from a, followed while d runs by what still waits in its channel, is exactly the sequence of payloads a sent to d: nothing lost, repeated or reordered |
| RelayTheorems.FramesCarryTheirSender | ln-websocket-proxy/src/main.rs:292-293 | Every frame on a channel is labelled with the id of the connection that sent it, whatever the sender wrote |
| RelayTheorems.RoutedIsForwarded | ln-websocket-proxy/src/main.rs:281-301 | The frames read off a run as addressed to a registered connection are those the handler put on that connection's channel |
| RelayProofs.InvAlways | ln-websocket-proxy/src/main.rs:241-388 | The whole relay invariant (registry, listeners, tracked peers, labels, channel bound, order, finality of departures) holds at every point of every run |
| RelayTheorems.LogsOnlyGrow | ln-websocket-proxy/src/main.rs:340-357 | Over any continuation of a run a connection keeps its owner, never grows younger, and what its channel carried is only added to |
| RelayTheorems.TrackedPeersAreWatched | ln-websocket-proxy/src/main.rs:398-434 | In every reachable state each tracked peer has an unfinished listener on a connection of that peer, which waits on one not yet gone, is ready to fire, or has told the owner |
| RelayTheorems.UntrackingIsAnnounced | ln-websocket-proxy/src/main.rs:272-274 | A peer leaves a tracked set only at the owner's own request, or in the last step of a listener that has put its own notice of that departure on the owner's channel, unless the owner is gone |
| RelayTheorems.DepartureIsAnnounced | ln-websocket-proxy/src/main.rs:411-428 | A listener whose target is gone has told its running owner or can fire: a broadcast and a dropped broadcast handle have the same effect |
| RelayTheorems.ForwardListensIff | ln-websocket-proxy/src/main.rs:292-301 | After a forward to connection d the sender listens on d if and only if the peer was untracked or a listener on d was there |
| RelayTheorems.ForwardedThenDeparted | ln-websocket-proxy/src/main.rs:292-301 | Subscribing between the peer's broadcast and its removal from the registry is safe: after such a forward, whatever happens next, d's end is announced to a sender that still runs |
| RelayTheorems.AnnouncedWhateverIff | ln-websocket-proxy/src/main.rs:292-301 | A forward is followed by an announcement of d's end in every continuation if and only if the peer was not tracked, a listener on d was there, or the sender is d; otherwise a continuation is given in which d ends unheard |
| RelayTheorems.LateFrameGoesUnannounced | ln-websocket-proxy/src/main.rs:404-407 | A run in which the condition of ForwardedThenDeparted fails: a peer that returns before it is untracked gets a frame, and its second departure is never announced |
| RelayTheorems.RequestedDisconnectFollowsData | ln-websocket-proxy/src/main.rs:267-275 | A text Disconnect of c is the last entry of the peer's channel, behind every frame c had forwarded there |
| RelayTheorems.TextUntracks | ln-websocket-proxy/src/main.rs:272-275 | In every run a text Disconnect untracks that peer of that connection, leaves every other tracked peer of every connection, and touches no listener |
| RelayTheorems.NextFrameIsListenedFor | ln-websocket-proxy/src/main.rs:267-301 | After a text Disconnect the owner's next frame for that peer, to whichever connection it goes by then, leaves a listener there, and that connection's end is announced in every continuation, however the peer was tracked before |
| RelayTheorems.RefusedIsAnswered | ln-websocket-proxy/src/main.rs:309-313 | A frame for an id nobody is registered under puts one Disconnect naming that id on the owner's own channel and changes nothing else |
| RelayTheorems.EndWakesListeners | ln-websocket-proxy/src/main.rs:320-331 | When the owner's websocket ends or a write to it fails, every listener waiting on the connection can act at once, and no listener on another connection is touched |
| RelayTheorems.DepartureNoticeFollowsData | ln-websocket-proxy/src/main.rs:320-331 | The notice of a departed connection stands behind all frames it ever forwards to that receiver |
| RelayTheorems.ForwardingNeverFails | ln-websocket-proxy/src/main.rs:241-244 | Every registry entry for an id names a connection with that owner that has not finished closing and has at most 32 waiting commands, so the failed-send arm is dead |
| RelayTheorems.RegisteredIffNotDisplaced | ln-websocket-proxy/src/main.rs:327-330 | A connection is the registered one for its id exactly as long as no connection of that id was registered after it and no handler of that id unregistered |
| RelayTheorems.LiveMeansRegistered | ln-websocket-proxy/src/main.rs:241-244 | In runs where connections of one id never overlap, every connection that has not finished closing is registered |
| RelayTheorems.OverlapHidesALiveConnection | ln-websocket-proxy/src/main.rs:241-244 | A run with two overlapping connections of one id in which the older one still runs but is not registered |
| RelayProofs.ChannelsKept | ln-websocket-proxy/src/main.rs:232 | No event makes a channel hold more than 32 commands |
| RelayTheorems.LabelsHave33Bytes | ln-websocket-proxy/src/main.rs:282-287 | A message shorter than 33 bytes is ignored; of a longer one, to a registered peer with room, exactly what follows the 33rd byte is routed |
| RelayTheorems.ChannelsHold32 | ln-websocket-proxy/src/main.rs:232 | In every run a channel holds at most 32 commands, and takes another exactly while it holds fewer or its handler is gone |
| Guard.SoundAlways | ln-websocket-proxy/src/main.rs:252-318 | With handlers that stay in an arm of their select loop until they got the registry guard and finished their sends: in every run busy handlers run, and the holder of the guard is one of them |
| Guard.JamLasts | ln-websocket-proxy/src/main.rs:272-273 | A holder that waits for room in a channel whose own handler is busy, or closing, keeps the guard in every continuation |
| Guard.HolderGoesOn | ln-websocket-proxy/src/main.rs:292-314 | A holder that is not in such a jam can finish, at once or after the channel it waits for is popped once |
| Guard.StuckForeverIff | ln-websocket-proxy/src/main.rs:272-314 | The guard is never given back, whatever happens, if and only if its holder waits for a full channel whose handler is itself in an arm or closing |
| Guard.SelfDisconnectJams | ln-websocket-proxy/src/main.rs:267-273 | A run into the jam for every 33-byte id: one owner fills its own channel with 32 frames to itself and asks to be disconnected from itself |
| RelayServer.Server.Register | ln-websocket-proxy/src/main.rs:209-250 | Registering a decoded identifier: a new handler with an empty channel overwrites the entry of that id; an undecodable identifier is turned away |
| RelayServer.Server.Send | ln-websocket-proxy/src/main.rs:293 | A send reaches the channel unless the receiver is gone, and changes nothing else |
| RelayServer.Server.ListenForDisconnections | ln-websocket-proxy/src/main.rs:398-434 | At most one listener is added: none if the peer is already tracked |
| RelayServer.Server.TryBroadcastDisconnect | ln-websocket-proxy/src/main.rs:436-450 | Exactly the listeners subscribed to the connection are signalled, and its handler stops serving |
| RelayServer.Server.OnText | ln-websocket-proxy/src/main.rs:266-279 | A text Disconnect: the registered peer is told and untracked; an unknown peer changes nothing |
| RelayServer.Server.OnBinary | ln-websocket-proxy/src/main.rs:281-314 | A frame: too short is ignored; to a registered peer it is relabelled, queued and listened for; otherwise the owner is told to disconnect |
| RelayServer.Server.OnChannel | ln-websocket-proxy/src/main.rs:336-388 | A command of the channel is written to the owner, or, if that fails, the connection begins to close |
| RelayServer.Server.OnClose | ln-websocket-proxy/src/main.rs:320-327 | The owner's end is broadcast |
| RelayServer.Server.Leave | ln-websocket-proxy/src/main.rs:328-330 | The closing handler removes whatever its id is registered to and is gone |
| RelayServer.Server.OnBroadcast | ln-websocket-proxy/src/main.rs:411-428 | A woken listener puts a Disconnect for its peer on the owner's channel |
| RelayServer.Server.Untrack | ln-websocket-proxy/src/main.rs:430-432 | The listener then untracks its peer and ends |
| Multiplexer.LifecycleAlways | node-manager/src/socket.rs:409-457 | In every run of a client: table keys are the stored subsocket's peer, descriptor numbers and peers never change, stop flags never revert, outputs are data then only Disconnects, and every subsocket is in the table, overwritten, or both stopped and reported |
| Multiplexer.ReconnectClears | node-manager/src/socket.rs:156-173 | Reconnecting empties the table and leaves every subsocket that was in it stopped and reported |
| Multiplexer.RetireAllKeeps | node-manager/src/socket.rs:160-168 | In whatever order the table is iterated, each entry found is stopped, reported and removed and the life-cycle invariant is kept |
| Multiplexer.FramingRoundTrip | node-manager/src/socket.rs:481-496 | A payload framed by send_data, relabelled with the sender's id and dispatched by the receiving client arrives at the subsocket for the sender, behind what waited there, unchanged |
| Inbound.RejectedIsRetired | node-manager/src/socket.rs:320-332 | Along every run: a new inbound connection that the peer manager turns away is a new subsocket that is stopped, reported and not in the table, its frame waits nowhere, a Disconnect to the peer is the one message emitted, and nothing else changes |
| Inbound.AcceptedIsOpen | node-manager/src/socket.rs:278-319 | One that it accepts is in the table, runs and holds exactly the payload; nothing is emitted and nothing else changes |
| Inbound.KnownPeerGetsFrame | node-manager/src/socket.rs:258-269 | A frame of a peer in the table goes behind the others in the inbox of its subsocket, and nothing else changes |
| Inbound.DisconnectRetires | node-manager/src/socket.rs:226-236 | A Disconnect from a peer in the table stops and reports its subsocket, answers with a Disconnect and removes the entry; every other subsocket stays |
| Inbound.StrayIsIgnored | node-manager/src/socket.rs:237-252 | A Disconnect from any other peer, and a frame too short to bear an id, change nothing |
| Inbound.StoppedYieldsNothing | node-manager/src/socket.rs:459-478 | Once a subsocket is stopped, by either side or by a reconnect, its reader takes nothing from it at any later point of the run |
| MultiSocket.MultiWsSocketDescriptor.CreateNewSubsocket | node-manager/src/socket.rs:409-430 | A fresh descriptor replaces any table entry of the peer |
| MultiSocket.MultiWsSocketDescriptor.SendData | node-manager/src/socket.rs:481-496 | A stopped subsocket takes nothing; any other queues the prefixed bytes and takes all |
| MultiSocket.MultiWsSocketDescriptor.DisconnectSocket | node-manager/src/socket.rs:498-511 | A Disconnect is queued (each time) and the flag is set |
| MultiSocket.MultiWsSocketDescriptor.Read | node-manager/src/socket.rs:459-478 | A stopped subsocket yields nothing; any other its oldest message |
| MultiSocket.MultiWsSocketDescriptor.OnMessage | node-manager/src/socket.rs:203-339 | One message of the websocket: a Disconnect retires the named entry, a frame goes to the peer's subsocket, which is created, and on rejection retired, if there was none |
| MultiSocket.MultiWsSocketDescriptor.Reconnect | node-manager/src/socket.rs:156-173 | The loop over the table refines the retiring of every entry; afterwards the table is empty |
| NetworkTheorems.EndToEnd | node-manager/src/socket.rs:244-269 | For all runs, clients that reconnect included, and every two connections: what was handed to send_data for d's id is, in order, what left for it; of the frames the relay read from a those routed to d are a's share of the frames under a's id on d's channel; and these are what d's subsockets for a's id took in since d joined (read, waiting or refused as first frame), followed by what is still coming |
| NetworkTheorems.EndToEndAlone | node-manager/src/socket.rs:244-269 | Where all frames for d's id went to d and all frames under a's id came from a, one equation holds over all runs: what d's subsockets for a's key took in, then what is on its way from the relay, then what has not reached it, is what was handed to send_data for d, in order; over earlier websockets of either client up to what they exchanged |
| NetworkTheorems.EndsAlways | node-manager/src/socket.rs:459-496 | At both ends of every websocket in every run: the payloads handed to send_data for a key are those framed for it, and what subsockets of a peer took in are the payloads delivered under its label |
| NetworkTheorems.NetInvAlways | node-manager/src/socket.rs:189-361 | The joined invariant of clients, websockets and relay holds at every point of every run |
| NetworkTheorems.ForwardsAreRouted | ln-websocket-proxy/src/main.rs:292-293 | The frames a handler forwarded to d are those of the frames read from its owner that were routed to d, in order |
| NetworkTheorems.SharesAreMarked | ln-websocket-proxy/src/main.rs:293 | With 33-byte ids, what a contributed to a channel is a's share of the entries labelled with a's id |
| Flow.LocalEnds | node-manager/src/socket.rs:459-511 | Nothing a client does by itself (sending, reading, opening, disconnecting) loses, repeats or reorders a payload at either end |
| Flow.DeliverEnds | node-manager/src/socket.rs:203-339 | Dispatching one message appends its payload to what the newest subsocket of the labelled peer took in, and to no other |
| Flow.RejoinEnds | node-manager/src/socket.rs:156-173 | Reconnecting leaves both accounts as they were |
| Exchange.ExchangeCosts | node-manager/src/socket.rs:225-242 | Every step of a Disconnect exchange lowers the measure of table entries, commands and their remaining hops, and brings no data into being |
| Exchange.ExchangeDiesOut | node-manager/src/socket.rs:225-242 | So an exchange without data, connections or closes is over after at most as many steps as the measure |
| Exchange.NoHalfOpenPair | node-manager/src/socket.rs:225-242 | Two registered clients with an entry for each other and a Disconnect under way between them have neither entry once nothing is under way |
| Exchange.PendingFalls | node-manager/src/socket.rs:225-242 | No step of an exchange raises the number of commands that are queued, under way towards a channel, or still to be caused by a table entry or listener |
| Exchange.NoWaitingAlways | ln-websocket-proxy/src/main.rs:452-467 | While that number is at most 32 no handler that reads a message and no listener that wakes up ever waits for a channel, at any point of the exchange |
| Exchange.HaltMeansQuiet | ln-websocket-proxy/src/main.rs:266-279 | An exchange that starts with at most 32 commands pending and has come to a halt has left nothing under way at any client that runs |
| ChainSync.MutinyChain.Sync | node-manager/src/chain.rs:53-127 | For every backend, whatever registers meanwhile: nothing registered is lost, the sync is a run of its loop with the n confirmables passed to it, it says exactly what its passes say and makes exactly the rounds they call for, and a finished one leaves empty queues. Against one fixed chain nothing it leaves watched is confirmed or spent there if it made a pass, and it finishes within a stated number of passes once registrations end |
| ChainSync.MutinyChain.Loop | node-manager/src/chain.rs:63-123 | The loop makes a run: passes one after the other, each working with the tip the one before left, ending idle, by giving up, or at the budget |
| ChainSync.MutinyChain.Turn | node-manager/src/chain.rs:65-74 | One turn: idle if and only if nothing is pending and the tip was recorded; otherwise exactly one pass |
| ChainSync.MutinyChain.Proceed | node-manager/src/chain.rs:75-121 | One pass over unconfirmations, best block, questions and confirmations with its six outcomes: what was said, asked, confirmed, forgotten and recorded in each |
| ChainSync.MutinyChain.AnnounceTip | node-manager/src/chain.rs:76-95 | A new tip: each relevant transaction was reported in the best chain, or it was not and all are told so; no other is unconfirmed. Then the tip is told to all if it was accepted; if not, or if a status call fails, the pass ends |
| ChainSync.MutinyChain.CheckTip | node-manager/src/chain.rs:99-104 | The tip read again decides: go on, take up the other one, or give up |
| ChainSync.MutinyChain.ConfirmWatched | node-manager/src/chain.rs:97-120 | What the questions about exactly the watched items found, sorted by place, is handed to all n confirmables if every question was answered and the tip is unchanged, and otherwise nothing; exactly the confirmed transactions and the outputs with a found spender are forgotten |
| ChainTheorems.RunAccounts | node-manager/src/chain.rs:53-127 | A run says its passes' calls one after the other, each pass in order: unconfirmations, best block, confirmations by place. Its rounds are those of this sync and no other, one for each confirmation of its passes in order |
| ChainTheorems.WatchedUntilConfirmed | node-manager/src/chain.rs:131-199 | Whatever is queued or watched when a pass begins is watched at the end of the run, unless this or a later pass confirmed it or found its spender and handed that on |
| ChainTheorems.RecordedByAPass | node-manager/src/chain.rs:97-121 | A hash that a run recorded was new in one of its passes, accepted in the best chain there, and read again as the tip after all questions were answered |
| ChainTheorems.UnsettledFinish | node-manager/src/chain.rs:65-121 | A finished run has asked about all it leaves watched if and only if its last pass went through; and that pass did not exactly if it had no new tip and a question failed, or had one and the tip read again was another. Then it delivered nothing and everything is still watched |
| ChainTheorems.FinishesUnanswered | node-manager/src/chain.rs:113-118 | With the tip recorded and a queued transaction about which every question fails, every sync finishes after one pass, leaving it watched and unanswered |
| ChainExamples.FinishedWithoutAnAnswer | node-manager/src/chain.rs:113-118 | Such a backend and such a sync |
| ChainEnds.RejectedTipNeverFinishes | node-manager/src/chain.rs:82-89 | With a constant tip that is new and never accepted, and no failing status call, no budget of passes is enough: every pass is rejected |
| ChainExamples.NeverFinished | node-manager/src/chain.rs:82-89 | Such a backend, and a sync that is still running after any number of passes |
| ChainEnds.UnansweredNeverFinishes | node-manager/src/chain.rs:113-118 | With a constant new tip and a transaction or output queued or watched that is never answered about, no sync finishes whether or not the tip is accepted: the tip is never recorded, every pass is rejected or unanswered, the item is still watched, and without a failing status call the sync runs on for every budget |
| ChainExamples.NeverFinishedForAQuestion | node-manager/src/chain.rs:113-118 | Such a backend, whose tip is always accepted, and a sync that is still running after any number of passes |
| ChainEnds.MovingTipNeverFinishes | node-manager/src/chain.rs:99-104 | With another tip at every moment no pass goes through and no sync finishes |
| ChainExamples.NeverFinishedForItsTips | node-manager/src/chain.rs:99-104 | Such a backend, and a sync that is still running after any number of passes |
| ChainEnds.RecordedIff | node-manager/src/chain.rs:65-121 | A constant new tip is recorded by a run if and only if one of its passes announced it as accepted and had all its questions answered; no sync finishes without such a pass, and none fails but over a status call |
| ChainEnds.FinishesOnceRecorded | node-manager/src/chain.rs:65-121 | Conversely, after such a pass a run makes at most one more for each moment at which something is registered, never fails, and finishes within that budget, whether or not later questions are answered |
| ChainEnds.RecordedFinishes | node-manager/src/chain.rs:66-74 | With a constant tip recorded beforehand every sync finishes once registrations end |
| ChainEnds.TimelessFinishIff | node-manager/src/chain.rs:65-121 | Against a backend whose answers do not depend on the moment, and when registrations end, a sync that does not fail over a status call finishes if and only if the tip was recorded already, or is accepted and every item queued, watched or found out of the best chain at the first pass is answerable |
| ChainEnds.FinishIff | node-manager/src/chain.rs:65-121 | Whatever the tip does: a run that makes a pass finishes only after one that leaves the recorded hash as the tip to go on with, said in terms of the answers in that pass, and such a pass, once registrations have ended, is the last and finishes the run |
| ChainTheorems.LastBestBlockIff | node-manager/src/chain.rs:76-121 | The tip last announced is the hash recorded at the end if and only if in the pass that announced it all questions were answered and the tip read again was the same |
| ChainTheorems.StillTipIsAnnounced | node-manager/src/chain.rs:76-121 | So it is in every finished run during which the tip does not move |
| ChainTheorems.FinishesOnOldTip | node-manager/src/chain.rs:99-104 | With a new tip announced and the recorded one read again, every sync finishes after one pass with the confirmables on the tip that was given up |
| ChainExamples.FinishedOnOldTip | node-manager/src/chain.rs:99-104 | Such a backend, and a sync whose one call announces tip A while B is recorded |
| ChainEnds.SteadyFinish | node-manager/src/chain.rs:65-123 | Against a backend that always answers consistently, with one accepted tip: no sync fails, it needs at most one pass and one more for each moment after its start at which something is registered, and a finished one has asked about all it leaves watched |
| ChainEnds.AnotherPassIsDue | node-manager/src/chain.rs:66-74 | While the tip stays and once it is recorded, every further pass is due to a registration made since the one before began |
| ChainEnds.HonestFinish | node-manager/src/chain.rs:53-127 | Against one fixed chain a finished run that made a pass leaves nothing watched that is confirmed or spent on the chain |
| ChainEnds.HonestIsSteady | node-manager/src/chain.rs:262-304 | A backend that answers from one chain answers every question, and consistently |
| ChainSync.MutinyChain.ProcessQueues | node-manager/src/chain.rs:131-154 | Both queues move into the watch sets; true if and only if one had something |
| ChainSync.MutinyChain.GetConfirmedTx | node-manager/src/chain.rs:262-304 | The answer of the question about a transaction; what it finds and when it fails is in LookupFindsIff and LookupFailsIff |
| ChainSync.MutinyChain.GetSpender | node-manager/src/chain.rs:226-248 | The confirmed spender of a watched output |
| ChainQueries.LookupFindsIff | node-manager/src/chain.rs:262-304 | For every backend: the question finds ctx if and only if the backend gave its place, a hash for the block at that height, its header for that hash and the transaction itself, and the hash and height are the expected ones if any were |
| ChainQueries.LookupFailsIff | node-manager/src/chain.rs:268-293 | It fails if and only if an answer it needs is missing, the hash is not the expected one, or the height of a transaction that was found is not the known one |
| ChainQueries.SpenderFoundIff | node-manager/src/chain.rs:226-243 | The question about a watched output finds ctx if and only if the backend named a spender with a status, and its later answers confirm ctx as that spender with a block hash and height that do not contradict the status |
| ChainQueries.SpenderFailsIff | node-manager/src/chain.rs:226-243 | It fails if and only if the status of the output is not answered, or the question about the spender it names fails |
| ChainTheorems.ConfirmedIffWitnessed | node-manager/src/chain.rs:97-120 | A pass that goes through hands on exactly the confirmations that the backend's answers to its questions, all about watched items, confirm |
| ChainTheorems.EveryConfirmationWitnessed | node-manager/src/chain.rs:53-127 | No confirmation that any run hands on contradicts the backend's answers, and none for an output the status that named it |
| ChainTheorems.RejectedIff | node-manager/src/chain.rs:156-176 | A new tip is turned down if and only if its header or status is missing or its block is not in the best chain |
| ChainTheorems.TipIsTold | node-manager/src/chain.rs:163-170 | Otherwise confirmable number c is told, as call number c, the header the backend gave and the height it reported; without a height nobody is told |
| ChainTheorems.UnconfirmedToAll | node-manager/src/chain.rs:306-335 | Every relevant transaction with no block, or one never reported in the best chain, is unconfirmed to confirmables 0 to n - 1 one after the other, and watched |
| ChainTheorems.BuriedIsLeftAlone | node-manager/src/chain.rs:314-325 | A transaction that is unconfirmed is a relevant one, and if all its entries name blocks, some such block was reported out of the best chain |
| ChainTheorems.ConfirmationsAreTold | node-manager/src/chain.rs:178-195 | Call number i n + c of the last part of a pass tells confirmable c the ith confirmation, and earlier ones are at lower heights, or at the same height no later in the block |
| ChainSync.MutinyChain.FindWatchedTransactions | node-manager/src/chain.rs:211-217 | Every watched transaction is asked about, and nothing else; the first failing answer ends the search |
| ChainSync.MutinyChain.FindSpenders | node-manager/src/chain.rs:220-249 | Every watched output is asked about, and nothing else; the outputs reported as spent are exactly those with a confirmed spender |
| ChainSync.MutinyChain.GetConfirmedTransactions | node-manager/src/chain.rs:201-260 | What all questions found, sorted by block height and position |
| ChainSync.MutinyChain.SyncConfirmedTransactions | node-manager/src/chain.rs:178-199 | The given confirmations are delivered in order to every confirmable; then exactly their transactions and the given outputs are forgotten |
| ChainSync.MutinyChain.SyncUnconfirmedTransactions | node-manager/src/chain.rs:306-335 | Exactly the relevant transactions not reported in the best chain are unconfirmed to every confirmable and watched again; each of the others was reported there |
| ChainSync.MutinyChain.SyncBestBlockUpdated | node-manager/src/chain.rs:156-176 | Every confirmable hears of a tip in the best chain with a known height; a tip out of the best chain is an inconsistency |
| ChainSync.MutinyChain.DeliverRound | node-manager/src/chain.rs:185-195 | One confirmation reaches every confirmable while callbacks may register more |
| ChainSync.MutinyChain.UnconfirmTransaction | node-manager/src/chain.rs:327-331 | Every confirmable is told and the transaction is watched again |
| ChainSync.MutinyChain.Tick | node-manager/src/chain.rs:345-353 | Registrations by other tasks and callbacks go into the queues |
| ChainDelivery.RoundConserves | node-manager/src/chain.rs:185-195 | Forgetting a transaction once all n confirmables of the sync were told of it loses no registration made while it was being delivered |
| ChainDelivery.SpentConserves | node-manager/src/chain.rs:197-198 | An output is forgotten only after a transaction that the backend had named as its spender, and then confirmed in agreement with that status, reached every confirmable of its sync |
| ChainDelivery.SpendersReached | node-manager/src/chain.rs:234-243 | Delivering the found confirmations delivers to everyone, for each output reported as spent, the transaction the backend had named as its spender before |
| ChainModel.SortByPlace | node-manager/src/chain.rs:253-257 | The sorted list is a permutation in non-decreasing height and position |
| ChainModel.InsertPermutes | node-manager/src/chain.rs:253-257 | Inserting by place keeps every entry, counted with repetition |
| ChainQueries.LeftUnsettled | node-manager/src/chain.rs:201-260 | What is still watched after the findings were delivered was asked about and found unconfirmed |
| ChainQueries.SettledIsComplete | node-manager/src/chain.rs:201-260 | For a backend that answers from one chain, items found unconfirmed are unconfirmed on that chain |
| ChainQueries.HonestLookup | node-manager/src/chain.rs:262-304 | For such a backend the lookup finds a transaction if and only if it is on the chain, and then with the height, position and header of its place |
| ChainQueries.HonestOutLookup | node-manager/src/chain.rs:226-248 | And a spender if and only if the output is spent on the chain |
| Hex.HexRoundTrip | node-manager/src/bdkstorage.rs:67-72 | Decoding hexadecimal text gives back the bytes |
| Hex.HexPrefix | node-manager/src/bdkstorage.rs:67-72 | Hex texts extend each other exactly when the bytes do |
| Keys.MapKeyInjective | node-manager/src/bdkstorage.rs:36-73 | No two database keys, of any of the eight kinds and with or without content, are encoded alike |
| Keys.ScanIsExact | node-manager/src/bdkstorage.rs:37-65 | A scan prefix (a kind, or paths of one keychain) matches exactly the full keys of that kind |
| Keys.KindsAreSeparate | node-manager/src/ldkstorage.rs:38-44 | The beginning of any key the wallet writes tells its kind, so no scan of one kind meets another kind's key |
| Keys.OtherKeysArePlain | node-manager/src/localstorage.rs:15-17 | The manager, network, scorer, mnemonic, nodes and fee keys begin like no scanned kind |
| Keys.RenderInjective | node-manager/src/ldkstorage.rs:325-344 | All keys of database, peer and payment records are different as texts |
| Keys.NumbersAreWeighed | node-manager/src/bdkstorage.rs:58-60 | The four bytes of a number weigh to it, most significant first in paths and least first in outpoints |
| Keys.LengthsAreWeighed | node-manager/src/bdkstorage.rs:59 | The length before a script takes one byte below 253, else a mark with two or four bytes that weigh to it |
| Keys.KindTexts | node-manager/src/bdkstorage.rs:37-53 | The hexadecimal text of each kind of key |
| Keys.KeychainTexts | node-manager/src/bdkstorage.rs:50-52 | The text of an index key and of a checksum key |
| Keys.PathText | node-manager/src/bdkstorage.rs:56-72 | The text of the key of a derivation path, byte for byte |
| Keys.RecordTexts | node-manager/src/ldkstorage.rs:38-72 | The texts of peer, payment and monitor keys |
| Storage.FindPut | node-manager/src/bdkstorage.rs:81-137 | Writing one record is seen under its own key and under no other of all kinds |
| Storage.FindDrop | node-manager/src/bdkstorage.rs:139-214 | Removing one record is seen under its own key and no other |
| Storage.PutRepresents | node-manager/src/localstorage.rs:30-42 | Writing a record into the flat store is writing it into its typed map |
| Storage.DropRepresents | node-manager/src/localstorage.rs:61-63 | Deleting a key of the flat store is deleting the record from its typed map |
| Storage.PlainRepresents | node-manager/src/ldkstorage.rs:346-353 | Writing the other keys disturbs no record |
| Storage.ScanIsTyped | node-manager/src/localstorage.rs:77 | In every store that represents typed maps a database scan reads only values of its type, so its unwrap cannot fail |
| Storage.ScanFindsRecords | node-manager/src/localstorage.rs:65-84 | A database scan returns, key for key, exactly the records the reference holds |
| Reference.SplitAndRejoin | node-manager/src/bdkstorage.rs:110-125 | Details stored with their transaction come back whole, without one an earlier transaction is found; other transactions are untouched; deletion takes the raw transaction only on request |
| Reference.IncrementsCount | node-manager/src/bdkstorage.rs:351-360 | The nth increment of a fresh index returns n - 1 modulo 2^32 |
| Laws.ReadAfterWrite | node-manager/src/bdkstorage.rs:81-137 | In every sequence of operations a read answers with what the last write of its key stored if nothing between was about the key; for scripts in both directions, outputs, raw transactions, details, indexes and the sync time |
| Laws.ReadAfterDeletion | node-manager/src/bdkstorage.rs:139-214 | And with nothing if a deletion of the key came last |
| Laws.ReadUntouched | node-manager/src/bdkstorage.rs:291-349 | A key that no operation was about reads as in the beginning, and as missing in a new database |
| Laws.DeletionReturns | node-manager/src/bdkstorage.rs:139-214 | A deletion returns what a read would have found |
| Laws.DetailsRejoined | node-manager/src/bdkstorage.rs:323-339 | Reading or deleting details with their transaction returns the plain details with whatever raw transaction a read of it finds |
| Laws.IncrementReturns | node-manager/src/bdkstorage.rs:351-360 | An increment returns 0 where a read finds nothing, otherwise the next number modulo 2^32, and a read then answers the same |
| Laws.ReadAfterIncrement | node-manager/src/bdkstorage.rs:351-360 | In every sequence a read after an increment repeats what it returned, if nothing between was about the index |
| Laws.ChecksumKept | node-manager/src/bdkstorage.rs:218-236 | In every sequence, once bytes were accepted for a keychain, the same bytes are accepted for ever and all others refused |
| Laws.ChecksumRefused | node-manager/src/bdkstorage.rs:218-236 | Bytes that were refused stay refused |
| Laws.FirstChecksumAccepted | node-manager/src/bdkstorage.rs:218-236 | The first bytes ever offered for a keychain of a new database are accepted |
| Laws.ListingsAgree | node-manager/src/bdkstorage.rs:249-289 | Listings of outputs, transactions and details hold, once each, exactly the records that single reads find |
| Laws.ScriptListingAgrees | node-manager/src/bdkstorage.rs:238-247 | The listing of scripts holds exactly those that reads find at some path of the keychain asked for |
| Laws.SpentIsUnlisted | node-manager/src/bdkstorage.rs:163-166 | In every sequence a deleted output is not listed until it is stored again |
| Database.MutinyBrowserStorage.PerformAll | node-manager/src/bdkstorage.rs:81-361 | Every sequence of the 26 operations gets from the flat store the replies of eight separate typed maps |
| Database.MutinyBrowserStorage.Perform | node-manager/src/bdkstorage.rs:81-361 | One operation gets the reply of, and does to the typed maps, what the reference says |
| Database.MutinyBrowserStorage.Set | node-manager/src/localstorage.rs:30-42 | The key has the value and no other key changes |
| Database.MutinyBrowserStorage.Reads | node-manager/src/localstorage.rs:45-57 | In a store that represents the typed maps, reading a record's key gives exactly what its typed map holds, and a value of its own type |
| Database.MutinyBrowserStorage.Delete | node-manager/src/localstorage.rs:61-63 | Only that key is removed |
| Database.MutinyBrowserStorage.Scan | node-manager/src/localstorage.rs:65-84 | Exactly the entries with the prefix and suffix, provided each reads as the type asked for |
| Database.MutinyBrowserStorage.SetScriptPubkey | node-manager/src/bdkstorage.rs:82-96 | Both directions between script and path are stored |
| Database.MutinyBrowserStorage.SetTx | node-manager/src/bdkstorage.rs:110-125 | The transaction, if any, goes to the raw transactions and the details are stored without it |
| Database.MutinyBrowserStorage.DelTx | node-manager/src/bdkstorage.rs:177-200 | The details as they were, with the raw transaction only if it was asked for and deleted |
| Database.MutinyBrowserStorage.GetTx | node-manager/src/bdkstorage.rs:323-339 | The details, rejoined with the raw transaction on request |
| Database.MutinyBrowserStorage.CheckChecksum | node-manager/src/bdkstorage.rs:218-236 | A missing checksum is stored, a differing one is refused and kept |
| Database.MutinyBrowserStorage.IncrementLastIndex | node-manager/src/bdkstorage.rs:351-360 | 0 is stored where there was no index, otherwise the successor in 32 bits |
| Database.MutinyBrowserStorage.IterScriptPubkeys | node-manager/src/bdkstorage.rs:238-247 | The scripts of one keychain, or both, once per derivation path |
| Database.MutinyBrowserStorage.IterUtxos | node-manager/src/bdkstorage.rs:249-255 | Exactly the stored outputs, once each |
| Database.MutinyBrowserStorage.IterRawTxs | node-manager/src/bdkstorage.rs:257-263 | Exactly the stored transactions, once each |
| Database.MutinyBrowserStorage.IterTxs | node-manager/src/bdkstorage.rs:265-289 | Exactly the stored details, once each, rejoined through the txid cut from the key; cutting never fails |
| Database.CutTxid | node-manager/src/bdkstorage.rs:272-277 | Dropping two hex digits of a details key and decoding the rest gives its txid |
| Persister.MutinyNodePersister.ListPeerConnectionInfo | node-manager/src/ldkstorage.rs:311-322 | The listing succeeds if and only if every peer key that ends with this node's id is a record of this node for a public key, and is then exactly this node's records |
| Persister.CutPeerExact | node-manager/src/ldkstorage.rs:316-318 | Cutting a recorded key up succeeds exactly for a record of the node itself whose peer is 66 hexadecimal digits, and gives back the peer |
| Persister.EqualLengthIdsSuffice | node-manager/src/ldkstorage.rs:70-72 | Node ids of one length, and peers that are public keys, are enough for that condition |
| Persister.UnequalIdsCanFail | node-manager/src/ldkstorage.rs:316-318 | With ids of different lengths another node's record makes the listing panic |
| Persister.MutinyNodePersister.PersistPeerConnectionInfo | node-manager/src/ldkstorage.rs:293-302 | One peer record of this node changes |
| Persister.MutinyNodePersister.ReadPeerConnectionInfo | node-manager/src/ldkstorage.rs:286-291 | This node's record of the peer |
| Persister.MutinyNodePersister.DeletePeerConnectionInfo | node-manager/src/ldkstorage.rs:306-309 | One peer record of this node is removed |
| Persister.MutinyNodePersister.PersistPaymentInfo | node-manager/src/ldkstorage.rs:245-255 | One payment record of this node and direction changes |
| Persister.MutinyNodePersister.ReadPaymentInfo | node-manager/src/ldkstorage.rs:257-274 | This node's record of the payment in that direction |
| Persister.MutinyNodePersister.ListPaymentInfo | node-manager/src/ldkstorage.rs:276-284 | The records of one direction of every node, under their whole keys |
| Persister.MutinyNodePersister.Persist | node-manager/src/ldkstorage.rs:346-353 | Bytes are stored under the node-wide key and no record is disturbed |
| Persister.MutinyNodePersister.ReadChannelMonitors | node-manager/src/ldkstorage.rs:141-173 | Every monitor whose key ends with the node id, decoded; one that does not decode fails the call |
| Persister.MonitorsAreOwn | node-manager/src/ldkstorage.rs:148-151 | Among node ids of one length a monitor is read by its own node and no other |
| Persister.PaymentScanIsTyped | node-manager/src/localstorage.rs:77 | Reading every payment record of a direction as a payment cannot fail |
| Payments.LifecycleAlways | node-manager/src/event.rs:190-328 | In every run, for every node: received payments are Pending or Succeeded; sent ones InFlight, Succeeded or Failed, with a preimage when Succeeded and no fee while InFlight |
| Payments.RecordsAreMade | node-manager/src/event.rs:317-327 | A record exists exactly if it did before or an invoice, a claim or an accepted or refused attempt to pay made it; later events never create one |
| Payments.StatusIsLastVerdict | node-manager/src/event.rs:375-419 | A record's status is what the last event about it said; without one it is unchanged |
| Payments.PaidMeansSent | node-manager/src/event.rs:277-316 | A payment sent in the run is recorded as Succeeded exactly while its PaymentSent event is the last word, and then has a preimage |
| PaymentFields.FieldsAreLastSaid | node-manager/src/event.rs:190-419 | After every run each of preimage, secret, amount, fee and invoice of every record is what the last event that says something about it said, with 1000 msat to the satoshi in 64 bits, and otherwise what it was |
| PaymentFields.SentIsExact | node-manager/src/event.rs:277-316 | A sent record whose last event is a PaymentSent has succeeded with exactly that event's preimage, fee and time |
| PaymentFields.SuccessIsSent | node-manager/src/event.rs:277-316 | And a sent record made in the run has succeeded only so |
| PaymentFields.ClaimedIsExact | node-manager/src/event.rs:190-276 | A received record whose last event is a claim has succeeded with that claim's preimage, secret, amount and time |
| PaymentFields.UpdatedAtLast | node-manager/src/event.rs:190-419 | Every record bears the time of the last event about it |
| Payments.EventsKeepBolt11 | node-manager/src/event.rs:220-234 | Payment events never change a stored invoice |
| Payments.OtherNodesUntouched | node-manager/src/ldkstorage.rs:70-72 | A node's events leave the records of every other node alone |
| Payments.SuccessSurvivesIff | node-manager/src/node.rs:717-741 | A recorded success is still there at every point of a run if and only if no event of the run starts that payment or invoice over or is its failure; a sent one then has a preimage |
| Payments.PayingTwiceLosesTheSuccess | node-manager/src/node.rs:708-741 | A run in which paying a paid invoice again, refused by the payer, leaves the record Failed without a preimage |
| NodeRecords.Node.HandlePaymentClaimed | node-manager/src/event.rs:190-276 | The received record becomes Succeeded with preimage, secret and amount, keeping its invoice, or is made anew |
| NodeRecords.Node.HandlePaymentSent | node-manager/src/event.rs:277-328 | An existing sent record becomes Succeeded with preimage and fee; a missing one stays missing |
| NodeRecords.Node.HandlePaymentFailed | node-manager/src/event.rs:375-419 | An existing sent record becomes Failed; a missing one stays missing |
| NodeRecords.Node.CreateInvoice | node-manager/src/node.rs:547-569 | The received record of the invoice is Pending |
| NodeRecords.Node.PayInvoice | node-manager/src/node.rs:682-745 | InvoiceInvalid without a record unless exactly one amount is given; otherwise the record ends InFlight, or Failed with RoutingFailed |
| NodeRecords.Node.Keysend | node-manager/src/node.rs:748-799 | The record holds the preimage and ends InFlight, or Failed with RoutingFailed |
| NodeRecords.Node.GetPaymentInfo | node-manager/src/node.rs:657-679 | The received record if there is one, else the sent one, else InvoiceInvalid |
| NodeRecords.Node.GetInvoice | node-manager/src/node.rs:582-589 | Paid and direction are those of that record |
| Hints.FilterChannels | node-manager/src/invoice.rs:143-244 | No hint if an eligible channel is public; otherwise exactly one hint for each peer whose last largest eligible channel is in the first satisfiable tier |
| Hints.Select | node-manager/src/invoice.rs:214-243 | The choice among the kept channels, in any order of the map; the code's debug assertion holds |
| Hints.PassedOverIsOffline | node-manager/src/invoice.rs:234-238 | A channel with enough capacity is passed over only when it is offline |
| Hints.SomeHintIff | node-manager/src/invoice.rs:210-213 | There is a hint if and only if some channel is eligible, none is public, and the tier that decides accepts some kept channel |
| Hints.SingleChannelsSuffice | node-manager/src/invoice.rs:182-193 | With one eligible channel per peer that last condition holds |
| Hints.NoHintsThoughUsable | node-manager/src/invoice.rs:219-229 | A small online channel beside a larger offline one of the same peer gives no hint at all |
| Hints.KeptExists | node-manager/src/invoice.rs:182-193 | Every peer with an eligible channel has a kept one at least as large |
| Hints.OrderDoesNotMatter | node-manager/src/invoice.rs:182-193 | Where capacities differ within each peer, the same channels in any order give the same hints |
| Hints.HintSays | node-manager/src/invoice.rs:163-243 | Each hint names peer, short id, forwarding terms, minimum and maximum of one private, ready channel of the list, none of whose peer's channels is larger, and which has enough capacity and is online as far as some channel is |
| Hints.NoHintWhen | node-manager/src/invoice.rs:152-164 | With a public channel, or without any ready one, there is no hint |
| Background.BackgroundProcessor.Run | node-manager/src/background.rs:229-319 | For every monotone clock the timers keep their pace, sleeps are noticed, updates and prunes are persisted, and the loop stops at the first turn that asks it to |
| Background.LogTheorem | node-manager/src/background.rs:252-308 | In the log of any run: freshness ticks are more than 60 s apart, a ping comes more than 30 s after the last ping or disconnect-all, prunes are more than an hour apart and only when prunable, each update is followed by persisting the manager and each prune by persisting the graph |
| Background.FiringsApart | node-manager/src/background.rs:262-287 | A timer fires only when more than its limit has passed since every earlier reset |
| Background.GapsAreShort | node-manager/src/background.rs:262-287 | If checks are at most d apart, two successive resets are at most the limit and d apart |
| Background.TicksAreRare | node-manager/src/background.rs:262-266 | A run of T ms makes at most 1 + T / 60000 freshness ticks, with the one at start-up |
| Background.PrunesWait | node-manager/src/background.rs:293 | The first prune comes more than 60 s after the start |
| Background.ApartInNumbers | node-manager/src/background.rs:252-318 | In milliseconds: over 60000 between freshness ticks, 30000 from a ping or disconnect-all to a ping, 3600000 between prunes and 30000 between writes of the scorer |
| Background.PrunedWhenAllowed | node-manager/src/background.rs:293-308 | A prune comes over 60000 ms after the start, and only with peer-to-peer gossip or a complete rapid sync |
| Background.NotOverdue | node-manager/src/background.rs:262-318 | After every turn no timer has run longer than its number since it was last reset; for pruning, as long as it was allowed in every turn |
| Background.SleepsInNumbers | node-manager/src/background.rs:267-277 | Everyone is disconnected in exactly the turns that waited longer than 2000 ms |
| Background.StopsAsAskedIff | node-manager/src/background.rs:405 | A run ends in the turn in which the sleeper first asks for it if and only if its first turn brings no update; an update in the first turn stops it |
| Background.BackgroundProcessor.Await | node-manager/src/background.rs:248-256 | An update is persisted at once; otherwise the sleeper's answer decides |
| Background.BackgroundProcessor.CheckFreshness | node-manager/src/background.rs:262-266 | The freshness timer passes this turn in time |
| Background.BackgroundProcessor.CheckPing | node-manager/src/background.rs:267-287 | A long sleep disconnects everyone and restarts the ping timer, which otherwise passes this turn in time |
| Background.BackgroundProcessor.CheckPrune | node-manager/src/background.rs:293-308 | The prune timer passes this turn, only pruning what may be pruned |
| Background.BackgroundProcessor.CheckScorer | node-manager/src/background.rs:310-318 | The scorer timer passes this turn in time |
| Background.BackgroundProcessor.Finish | node-manager/src/background.rs:321-334 | On return the manager, then the scorer, then the graph are persisted once more |

## Left out

- Liveness of the relay under full channels beyond `Guard.StuckForeverIff`: that a jam does not come about is proved only for exchanges of at most 32 pending commands.
- NetworkTheorems.EndToEndAlone: asks that frames for the receiver's id were all routed to that connection, because the relay answers a refused frame by a Disconnect and drops it, and routes by id to whichever connection is registered; the general statement is `EndToEnd`, which names the routed frames.
- Exchange.NoHalfOpenPair: bounded by registered running clients and no closing connections, as the relay drops a Disconnect to an unregistered id.
- Exchange.HaltMeansQuiet: asks for at most 32 pending commands, because with more the relay can jam, as `Guard` shows; and speaks of clients that run, because the channel of a closing one may stay full.
- ChainSync.MutinyChain.Loop: is cut off by a budget of passes, because against an arbitrary backend it need not end; `SteadyFinish` names a sufficient budget.
- `Guard` covers the arms that hold the guard while they send; listeners and the channel arm do not take the guard and are single steps there as in `Relay`.
- Background.BackgroundProcessor.Run: works through a given list of turns, because nothing makes the sleeper ever ask for an exit; results of persisting are ignored as in the code.
- The iteration order of hash maps and sets is arbitrary in the model, and results are stated up to it.
- The lock of the sync hash and other mutexes of the browser's single thread are not modelled; a method runs to its next await.
- Encryption of values, JSON and consensus serialisation of values are abstract; only keys are modelled byte for byte.
- A txid is a field of a transaction value; that it is the hash of the body is not modelled.
- Batches: `begin_batch` shares the same store and `commit_batch` does nothing, so a batch is the database itself.
- Failures of the browser's storage when writing (quota): every write succeeds.
- The 32-bit index counter and 64-bit amounts wrap around, as in a release build; a debug build would stop instead.
- Whether 33-byte hex text is a point on the curve: `PublicKey::from_str` is modelled as accepting 66 hexadecimal digits.
- `list_invoices` and the conversion of records to invoices: an easy member beside the records themselves.
- Creating and signing BOLT 11 invoices, and finding routes: the invoice payer's answer is a parameter.
- Reading the manager, graph and scorer back into lightning objects; monitors are decoded by an arbitrary function.
- The `WsProxy` transport, TCP sockets and the sending task behind `WsProxy::send`; websockets are FIFOs that may close.
- Parsing of text commands: a text message that is not a Disconnect is ignored by both ends and does not occur in the model.
- Clean-up of the entry in `connected_peers` when a handler returns: the set of a gone connection is no longer read.
- Broadcasting transactions, fee estimates, the on-chain wallet, child-index allocation, balances, logging, and the user interface.
