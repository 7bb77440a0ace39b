# Verified model of the fpd connection core

This project models, and proves properties of, the concurrent core of the Fiberplane proxy daemon: the reconnecting
WebSocket and the keep-alive beneath it, the retry budget and status monitor of the data sources, and the handlers of
relay messages. Run `dafny verify dfyconfig.toml` to check it.

## How the model is built

**Protocols.** `KeepAliveProtocol` and `ReconnectingProtocol` are transition systems with one event per `select_biased!`
arm or await point. A guard lists what must not be ready, so arm priority is part of the model. Watch flags are
(version, value) pairs with a seen version per receiver (`Watches`); the receivers kept in `Inner` never mark anything
seen, so every new loop starts at version 0. Bounded(1) channels, the point at which a queue is closed (only when the
keep-alive's write loop has finished its clean-up), weak references to `Inner`, `connect` calls, any number of
overlapping generations, and the dropping of the last handle are all modelled. Sockets are arbitrary: any item may come
in, any write may fail. A failed write is counted as lost although the peer may have seen some of it. History fields
(`accepted`, `wire`, `stream`, ...) record what happened and influence nothing. Messages are any tungstenite message
without raw frames.

**Theorems** are about every run of these systems, from the initial state, by induction over the events. Each step of the
whole is shown to be one step, or none, of each keep-alive (`StepRefinesKeepAlive`), so the keep-alive results lift to
all generations.

**Independent accounts.** `KeepAliveLife`, `HandleLife` and `Dialing` match the states of a run with counts of its events, so
that every event has its effect and nothing happens without its event. `Incoming` says what the read loops owe to users.

**Program form.** `WebSocketKeepAlives`, `ReconnectingWebSockets` and `StatusTasks` are classes whose methods are the
stretches of code between two await points, with fields changed in place. Their contracts tie each method to exactly one
event of the protocol: a select must take an enabled arm, and may take none only if none is enabled. Each module's
`Execute` puts its class under an arbitrary schedule of calls and polls, shows that it goes through a run of the protocol,
and states a main theorem of the object itself. `ConnectLoop.Connect` and `PingTiming.FirstWrites` are loops over
arbitrary inputs, and `QueryService.HandleMessageInner` is one handler running undisturbed.

**Time.** The status monitor is first proved correct without any timing assumption; the results about intervals then
assume instantaneous checks and prompt delivery (`IsOnTime`). Ping timing assumes instantaneous writes and a prompt
scheduler. Durations of the retry budget are reals.

## What the proofs found

- Resending is not lossless, and exactly how much is lost is proved: what a keep-alive accepted is, in order, what is on
  its wire, then at most two lost messages (one in hand on a failed write, one left in its queue), then what is in flight.
- More is lost when nobody is left to take messages: the handle is gone, nobody reconnects, and no write loop goes back to
  its select. Then the outgoing channel, the retry slot and the hands of loops that wait to requeue are stranded
  (`DroppedHandleStrands`, `GivingUpStrands`). A run has lost nothing exactly if no write of a message failed, no
  keep-alive's write task ended with a message in its queue, and none of four events stranded a message
  (`Stranding.NothingIsLostIff`). In all at most three messages per finished keep-alive are lost, and one more; this is
  attained (`BoundIsAttained`). These losses are complete: when nothing can happen any more, every accepted message is on a
  wire or counted as lost (`RunsAtRestAreAccountedFor`).
- When generations overlap, a write loop can wait for ever for the retry slot, which is read by write loops only
  (`RequeuesDeadlock`). On orderly runs this cannot happen (`Ordering.RequeuingNeverBlocks`).
- Order across reconnects, told connection by connection, needs the old write loop to have left before the next connection
  is installed, which nothing in the code enforces (`OverlapReorders`: the old connection hangs in a write, and a later
  message is written first). For the order in time on the wires this is not enough: an older keep-alive may still be
  writing after both loops have left (`LateWriteReorders`). The exact condition on the moment of installation is that all
  older write loops have left and their keep-alives have nothing to write any more: iff that holds, no message is ever
  written after one that was accepted later (`WireOrder.WritesInOrderIff`).
- Overlap comes from a stop signal that is withdrawn: the read loop of the next connection lowers the shared flag, and a
  write loop that was busy meanwhile goes on. Exactly when is `StopSignals.GoesOnIff`. Conversely a late signal of an older
  connection tears down a newer one in good order (`StaleSignalTearsDown`; exactly when is `StopSignals.StaleSignalIff`).
- `close` does not always close for good. If the write loop leaves first, the read loop sees the disconnect flag before
  the close flag and reconnects (`CloseMayReconnect`; the exact guard is in `Reopening.StaysClosedIff`). An attempt that is
  under way when `close` is called may still succeed (`UnsettledMayReopen`).
- `is_connected` looks at two flags only, and can say yes while the newest connection has lost a loop. Exactly when, is
  `ConnectedFlag.MisreportsIff`: as long as there was no connection yet, also after a `connect` that gave up
  (`ConnectedWithoutConnection`), and after a read loop announces its connection when the newest one has already lost a
  loop, with one `connect` its own write loop (`ConnectedWithoutWriter`, `ConnectedWithOldWriter`). The second needs a
  scheduler that polls the new write loop before the new read loop, which is spawned first. The shipped program runs
  tokio's current-thread runtime (`src/main.rs:13`), which polls new tasks in the order of spawning; under that order the
  second case cannot arise (`ConnectedMeansNewestLives`). A keep-alive that has ended without its loops having noticed
  counts as connected; that delay is inherent in a flag.
- The documentation of `connect` allows any number of retries; the wait's power of two fits a u64 only up to 58 retries
  (`ConnectLoop.Connect`: `PowerOverflow`, where a debug build panics and a release build wraps around).
- The documented promise of the retry budget holds with a whole unused delay to spare; this slack is what keeps every
  retry strictly before the next tick.

## Model

| member | source | states |
|---|---|---|
| KeepAliveProtocol.StepKeepsValid | src/tasks/tokio_tungstenite_reconnect/websocket_keepalive.rs:110-207 | Every event of the two loops and of the handle's holders keeps the invariant: accepted messages are on the wire, failed, in hand or queued, in that order; nothing follows a closing frame; the flag is raised iff it was ever sent; items passed on are the socket's, in order |
| KeepAliveProtocol.AcceptedIsWireThenLost | src/tasks/tokio_tungstenite_reconnect/websocket_keepalive.rs:117-155 | Over any run the accepted sequence is wire, then lost, then in flight; at most two lost, none while the loop runs |
| KeepAliveProtocol.LossBoundIsTight | src/tasks/tokio_tungstenite_reconnect/websocket_keepalive.rs:125-155 | A run that loses two messages |
| KeepAliveProtocol.LosslessIff | src/tasks/tokio_tungstenite_reconnect/websocket_keepalive.rs:125-155 | Over any run a keep-alive has lost nothing iff no write of a message failed and its write task did not end with a message in the queue |
| KeepAliveProtocol.DisconnectIsForGood | src/tasks/tokio_tungstenite_reconnect/websocket_keepalive.rs:75-205 | Over any run the flag, once raised, stays raised, and no loop leaves through a `changed()` arm before |
| KeepAliveProtocol.AtMostOneMoreFrame | src/tasks/tokio_tungstenite_reconnect/websocket_keepalive.rs:117-155 | After the flag is raised, any continuation adds to the wire at most the frame already being written (and the closing frame) |
| KeepAliveProtocol.DrainedKeepAlive | src/tasks/tokio_tungstenite_reconnect/websocket_keepalive.rs:134-153 | A write loop that left because all handles were gone has all accepted messages on the wire, before the closing frame |
| KeepAliveLife.StateAgreesWithEvents | src/tasks/tokio_tungstenite_reconnect/websocket_keepalive.rs:110-207 | At every point of every run the keep-alive's whole state agrees with a count of its events: each stage of both tasks is reached by its one event and not before, one frame per write that returned, the flag raised iff somebody raised it |
| KeepAliveLife.ClosingFrameIff | src/tasks/tokio_tungstenite_reconnect/websocket_keepalive.rs:149-155 | The closing frame is on the wire, as its last frame, iff the socket was closed without error; the write task has ended iff it closed the socket, exactly once |
| KeepAliveLife.EveryItemIsSomewhere | src/tasks/tokio_tungstenite_reconnect/websocket_keepalive.rs:160-207 | What the socket yielded for users is taken, queued or in the reader's hand, in order; only a reader refused for want of handles drops one |
| KeepAliveLife.TasksWaitIff | src/tasks/tokio_tungstenite_reconnect/websocket_keepalive.rs:117-205 | Exactly when each task has to wait: for a message or the timer, for the socket or room in the incoming channel, or for good because it has ended |
| Messages.OnlyPingsAndPongsAreDropped | src/tasks/tokio_tungstenite_reconnect/websocket_keepalive.rs:173-189 | Every item that is no ping or pong is passed on as often as it came, and no ping or pong is |
| ReconnectingProtocol.StepRefinesKeepAlive | src/tasks/tokio_tungstenite_reconnect/reconnecting_websocket.rs:273-411 | A step of the whole protocol is one step or none of each keep-alive |
| ReconnectingProtocol.EachKeepAliveRunsItsProtocol | src/tasks/tokio_tungstenite_reconnect/reconnecting_websocket.rs:255-259 | Over any run of the whole, each generation's keep-alive goes through a run of its own protocol |
| ReconnectingProtocol.QuietAfterDisconnect | src/tasks/tokio_tungstenite_reconnect/websocket_keepalive.rs:117-155 | The at-most-one-more-frame result for every generation of every run |
| ReconnectingProtocol.StepKeepsValid | src/tasks/tokio_tungstenite_reconnect/reconnecting_websocket.rs:90-411 | Channel bounds, every keep-alive's invariant, and handle lifetime (a keep-alive is held exactly until both its loops have ended) survive every step |
| HandleLife.StateAgreesWithEvents | src/tasks/tokio_tungstenite_reconnect/reconnecting_websocket.rs:181-219 | At every point of every run each message sent is waiting or was accepted exactly once, the close flag is raised iff `close` was called, and items, calls and connections are as many as the events that make them |
| HandleLife.SendsBeginBeforeClose | src/tasks/tokio_tungstenite_reconnect/reconnecting_websocket.rs:181-185 | No `send` begins after `close`, or without the handle |
| HandleLife.WriteLoopGoesOn | src/tasks/tokio_tungstenite_reconnect/reconnecting_websocket.rs:357-402 | Where each step of a write loop leads: it leaves only when the channel is closed, its message is requeued, or a raised flag is news |
| HandleLife.LoopsEnd | src/tasks/tokio_tungstenite_reconnect/reconnecting_websocket.rs:327-339 | A read loop that has left raises the flag, and dials from attempt 0 iff it left in order to reconnect and the handle's shared part is there |
| HandleLife.WriteLoopWaitsIff | src/tasks/tokio_tungstenite_reconnect/reconnecting_websocket.rs:357-411 | Exactly when a write loop has to wait: nothing to take and no flag news, no room in its keep-alive's queue, a full retry slot, or its end |
| HandleLife.ReadLoopWaitsIff | src/tasks/tokio_tungstenite_reconnect/reconnecting_websocket.rs:285-339 | Exactly when a read loop has to wait: no item and no flag news, a full incoming channel, or its end |
| HandleLife.UsersMay | src/tasks/tokio_tungstenite_reconnect/reconnecting_websocket.rs:148-219 | What a user may do in any state, whatever the connections are doing |
| Conservation.EveryAcceptedMessageIsSomewhere | src/tasks/tokio_tungstenite_reconnect/reconnecting_websocket.rs:348-411 | In every reachable state of every interleaving the accepted messages are exactly those in the outgoing channel, retry slot, write loops' hands, keep-alives, on the wires, or lost, each counted once |
| Conservation.AtMostOnce | src/tasks/tokio_tungstenite_reconnect/reconnecting_websocket.rs:359-389 | No message is written more often than it was accepted, despite resending |
| Conservation.AtMostTwoLostPerFinishedKeepAlive | src/tasks/tokio_tungstenite_reconnect/websocket_keepalive.rs:110-156 | Lost messages are at most twice the keep-alives whose write loop has left |
| Conservation.GenerationIsLosslessIff | src/tasks/tokio_tungstenite_reconnect/websocket_keepalive.rs:110-156 | The same condition, exact for each generation of a run of the whole |
| Conservation.RunIsLosslessIff | src/tasks/tokio_tungstenite_reconnect/websocket_keepalive.rs:110-156 | The keep-alives of a run, however many there are, have lost nothing iff none of them met that condition (messages left in abandoned channels are in `Stranding`) |
| Stranding.StepStrandsIff | src/tasks/tokio_tungstenite_reconnect/reconnecting_websocket.rs:327-409 | A step leads to messages that nobody will take iff there were some, or it drops the handle or gives up the last reconnect when no loop takes messages any more, or the last loop that did is refused its message, or leaves while another waits with one in hand |
| Stranding.StrandedIff | src/tasks/tokio_tungstenite_reconnect/reconnecting_websocket.rs:327-409 | Exact over runs: nothing is stranded iff no such step was taken |
| Stranding.StrandedForGood | src/tasks/tokio_tungstenite_reconnect/reconnecting_websocket.rs:327-409 | From an abandoned state on, over any run, the stranded messages are the same, and nothing is accepted or handed to a keep-alive |
| Stranding.EveryAcceptedMessageIsSomewhereOrLost | src/tasks/tokio_tungstenite_reconnect/reconnecting_websocket.rs:348-411 | Conservation with all losses named: on the way with somebody left to take messages, in flight, written, or lost (in a keep-alive or stranded) |
| Stranding.NothingIsLostIff | src/tasks/tokio_tungstenite_reconnect/reconnecting_websocket.rs:348-411 | A run has lost nothing at all iff no keep-alive met a losing event and no step stranded a message |
| Stranding.RunsAtRestAreAccountedFor | src/tasks/tokio_tungstenite_reconnect/reconnecting_websocket.rs:348-411 | When no event is possible any more, the accepted messages are exactly those written and those counted as lost |
| Stranding.AllLossesAreBounded | src/tasks/tokio_tungstenite_reconnect/reconnecting_websocket.rs:348-411 | All losses: at most three messages per finished keep-alive, and one |
| StrandingRuns.DroppedHandleStrands | src/tasks/tokio_tungstenite_reconnect/reconnecting_websocket.rs:181-191 | A run that strands a message: accepted, and the handle dropped before any connection |
| StrandingRuns.GivingUpStrands | src/tasks/tokio_tungstenite_reconnect/reconnecting_websocket.rs:329-339 | A run in which a reconnecting read loop gives up after the handle is gone, with a message in the channel |
| StrandingRuns.BoundIsAttained | src/tasks/tokio_tungstenite_reconnect/reconnecting_websocket.rs:329-389 | A run with one finished keep-alive that loses four messages, which is the bound |
| StrandingRuns.RequeuesDeadlock | src/tasks/tokio_tungstenite_reconnect/reconnecting_websocket.rs:363-383 | A run of overlapping generations after which no event is possible, a loop waits for the retry slot, and both accepted messages are lost |
| Conservation.WriteMoves | src/tasks/tokio_tungstenite_reconnect/reconnecting_websocket.rs:357-389 | A write loop's step moves nothing, or one message one place on, or a refused one back to the retry slot |
| Ordering.AcceptedOrderIsWireOrder | src/tasks/tokio_tungstenite_reconnect/reconnecting_websocket.rs:357-389 | On orderly runs the accepted sequence is, generation by generation, written, lost and in-flight messages, then the one in limbo, then the outgoing channel |
| Ordering.MoveKeepsSequence | src/tasks/tokio_tungstenite_reconnect/reconnecting_websocket.rs:358-373 | Because the retry arm precedes the outgoing arm, a move keeps the order of hand, retry slot and outgoing channel |
| Ordering.RequeuingNeverBlocks | src/tasks/tokio_tungstenite_reconnect/reconnecting_websocket.rs:363-389 | On orderly runs hands and retry slot hold at most one message, and a requeue is always possible at once |
| Overtaking.OrderSurvivesIff | src/tasks/tokio_tungstenite_reconnect/reconnecting_websocket.rs:329-389 | When a connection is installed after an orderly run and messages can be sent: all older write loops have left and their keep-alives have nothing to write any more iff, however the protocol goes on with that connection, no message is written while one accepted before it may still be |
| Overtaking.StrictRunsAreNeverTooEarly | src/tasks/tokio_tungstenite_reconnect/reconnecting_websocket.rs:329-389 | If every connection is installed under that condition, no message is ever written while one accepted before it may still be |
| Overtaking.LateWriteReorders | src/tasks/tokio_tungstenite_reconnect/websocket_keepalive.rs:125-155 | An orderly run without losses in which an older keep-alive's pending write returns after the later message was written |
| WireOrder.RunKeepsChance | src/tasks/tokio_tungstenite_reconnect/reconnecting_websocket.rs:348-411 | Over any run, what is written or may be written later was so before, or was accepted meanwhile |
| WireOrder.WritesInOrderIff | src/tasks/tokio_tungstenite_reconnect/reconnecting_websocket.rs:329-389 | The same install condition, exact for what is written: it holds iff, however the protocol goes on with that connection, no message is written after one that was accepted later |
| Closing.LeavingEmptiesQueues | src/tasks/tokio_tungstenite_reconnect/reconnecting_websocket.rs:390-402 | On any run, a write loop that leaves through its disconnect or close arm leaves both queues empty: all accepted messages are with keep-alives or in other write loops' hands |
| Closing.LeavingDrains | src/tasks/tokio_tungstenite_reconnect/reconnecting_websocket.rs:390-402 | On an orderly run, a write loop that leaves through its disconnect or close arm leaves every accepted message with a keep-alive, in order |
| Closing.CloseDrains | src/tasks/tokio_tungstenite_reconnect/reconnecting_websocket.rs:213-219 | On an orderly run in which a write loop leaves through its disconnect or close arm at or after `close`: whatever was accepted before `close` is from then on, in order and first, on a wire, lost, or held by a keep-alive |
| Closing.CloseWritesEverything | src/tasks/tokio_tungstenite_reconnect/reconnecting_websocket.rs:213-219 | On such a run, once every keep-alive has ended, however it did, and none met a losing event: all of it is on the wires in order, before the closing frames, each of which is there iff its socket was closed without error (section 5.5.1 of RFC 6455) |
| Closing.ClosingFrameIsSentIff | src/tasks/tokio_tungstenite_reconnect/websocket_keepalive.rs:151-155 | In every run of the whole, a connection's wire has its closing frame iff its socket was closed without error |
| Supervision.AtMostOneSupervisor | src/tasks/tokio_tungstenite_reconnect/reconnecting_websocket.rs:329-339 | With one `connect`, at most one read loop or connection attempt is live, and generations form a chain |
| Supervision.ResignedForGood | src/tasks/tokio_tungstenite_reconnect/reconnecting_websocket.rs:285-336 | With one `connect`, after a Close frame, a seen close flag, a failed delivery, an end for want of a handle or a failed (re)connect, no generation is ever started again |
| Supervision.NoGenerationAfterResigning | src/tasks/tokio_tungstenite_reconnect/reconnecting_websocket.rs:285-339 | Once nobody is left who could reconnect, no generation is ever started again, unless `connect` is called anew |
| Supervision.ReceivedOrderIsStreamOrder | src/tasks/tokio_tungstenite_reconnect/reconnecting_websocket.rs:285-336 | What users receive is the concatenation of one prefix per generation of that socket's stream, without pings and pongs, cut before any Close; at most three items per generation are not forwarded |
| Supervision.ForwardsStream | src/tasks/tokio_tungstenite_reconnect/websocket_keepalive.rs:170-195 | A generation forwards a prefix of its socket's items without pings and pongs, cut before any Close, and all but at most three of them |
| Incoming.EveryTakenItemIsHandedOn | src/tasks/tokio_tungstenite_reconnect/reconnecting_websocket.rs:285-326 | In every reachable state each read loop has forwarded all it took, or is delivering exactly the missing item, or has left and the missing item is a Close or nobody was left to receive it |
| Incoming.ForwardedIsTakenCutAtClose | src/tasks/tokio_tungstenite_reconnect/reconnecting_websocket.rs:285-326 | While the shared part lives and outside a delivery, what was forwarded is exactly what was taken before any Close |
| Incoming.LeavesOnlyIf | src/tasks/tokio_tungstenite_reconnect/reconnecting_websocket.rs:285-325 | Why a read loop leaves, and whether to reconnect: exactly for a Close, the end of items, the handle's end, or a raised flag that is news; otherwise it goes on with the item it took |
| Incoming.NothingIsHeldBack | src/tasks/tokio_tungstenite_reconnect/reconnecting_websocket.rs:285-326 | When the readers of a connection cannot go on, its read loop has ended, waits for users to make room, or has forwarded everything its socket yielded for users |
| Dialing.AttemptsAreCounted | src/tasks/tokio_tungstenite_reconnect/reconnecting_websocket.rs:148-178 | In every reachable state whoever dials, a `connect` or a reconnecting read loop, has made exactly the attempts it counts, all failures that allow a retry, at most `max_retries` |
| Dialing.DialingEndsIff | src/tasks/tokio_tungstenite_reconnect/reconnecting_websocket.rs:152-176 | An attempt is the last iff it succeeded, was a client error or was number `max_retries` + 1; which is the last attempt of `ConnectLoop.Connect` on the same outcomes |
| Counterexamples.OverlapReorders | src/tasks/tokio_tungstenite_reconnect/reconnecting_websocket.rs:329-367 | A run with overlapping generations that writes the later message first |
| StopSignals.GoesOnIff | src/tasks/tokio_tungstenite_reconnect/reconnecting_websocket.rs:279-283 | The arm by which a write loop notices the disconnect flag lets it go on iff every stop signal sent so far was withdrawn by the start of a read loop |
| StopSignals.StaleSignalIff | src/tasks/tokio_tungstenite_reconnect/reconnecting_websocket.rs:313-319 | A loop of a connection that has both its loops leaves through its disconnect arm iff a signal stands that was sent by a loop of another connection |
| StopSignals.FalseAlarmIff | src/tasks/tokio_tungstenite_reconnect/reconnecting_websocket.rs:222-224 | While a connection has both its loops, the flag is up iff a signal stands that was sent by a loop of another connection: for the newest, exactly when `is_connected` wrongly says no on its account |
| Counterexamples.StaleSignalTearsDown | src/tasks/tokio_tungstenite_reconnect/reconnecting_websocket.rs:313-319 | A run in which an older connection's late write loop makes a newer read loop, in good order, leave to reconnect |
| Counterexamples.CloseMayReconnect | src/tasks/tokio_tungstenite_reconnect/reconnecting_websocket.rs:313-339 | A run that installs a new generation after `close`, with nobody connecting at the time |
| Reopening.SelectReconnectsIff | src/tasks/tokio_tungstenite_reconnect/reconnecting_websocket.rs:286-325 | A select of a read loop leaves in order to reconnect iff no item waits and the keep-alive's reader has stopped, or the disconnect flag is raised news, or is no news and the handle is gone; the close flag plays no part |
| Reopening.StaysClosedIff | src/tasks/tokio_tungstenite_reconnect/reconnecting_websocket.rs:286-339 | Over any run from a state in which nobody is connecting, without a new `connect`: no attempt starts iff no read loop met that guard, and then no generation is started either, so this is when `close` closes for good |
| Reopening.UnsettledMayReopen | src/tasks/tokio_tungstenite_reconnect/reconnecting_websocket.rs:329-339 | While an attempt is under way or about to be made, some continuation installs a connection, although the close flag stays raised |
| ConnectedFlag.StepMisreportsIff | src/tasks/tokio_tungstenite_reconnect/reconnecting_websocket.rs:222-224 | A step leads to a handle whose disconnect flag is down while the newest connection has lost a loop (or none exists) iff a read loop starts too late, or it was so before and the step neither raises the flag, installs a connection nor drops the handle |
| ConnectedFlag.MisreportsIff | src/tasks/tokio_tungstenite_reconnect/reconnecting_websocket.rs:222-224 | Exact over runs, with any number of `connect`s: the flag misreports iff nothing corrected it since the handle was built, or since a read loop started too late |
| ConnectedFlag.NeverLostIff | src/tasks/tokio_tungstenite_reconnect/reconnecting_websocket.rs:279-283 | Once there has been a connection: the flag is right all along a run iff no read loop starts when the newest connection has lost a loop |
| ConnectedFlag.TooLateForItself | src/tasks/tokio_tungstenite_reconnect/reconnecting_websocket.rs:279-283 | With one `connect`, too late means that the starting connection's own write loop has ended |
| ConnectedFlag.ConnectedMeansNewestLives | src/tasks/tokio_tungstenite_reconnect/reconnecting_websocket.rs:257-259 | On runs in which tasks make their first step in the order of spawning, a flag that is down after a first connection means that both loops of the newest connection are there |
| Counterexamples.ConnectedWithoutWriter | src/tasks/tokio_tungstenite_reconnect/reconnecting_websocket.rs:279-283 | A run, under a scheduler that polls a new write loop first, after which the handle counts as connected and every write loop has ended |
| Counterexamples.ConnectedWithOldWriter | src/tasks/tokio_tungstenite_reconnect/reconnecting_websocket.rs:279-283 | A run after which the handle counts as connected, the newest write loop has ended, and only that of a dead connection is left |
| Counterexamples.ConnectedWithoutConnection | src/tasks/tokio_tungstenite_reconnect/reconnecting_websocket.rs:148-169 | Under any scheduler, a `connect` that gives up leaves a handle that counts as connected |
| WebSocketKeepAlives.OneWriteArm | src/tasks/tokio_tungstenite_reconnect/websocket_keepalive.rs:120-146 | Arm priority leaves a write loop's select at most one arm to take |
| WebSocketKeepAlives.WebSocketKeepAlive.constructor | src/tasks/tokio_tungstenite_reconnect/websocket_keepalive.rs:48-72 | A new keep-alive is the protocol's initial state |
| WebSocketKeepAlives.WebSocketKeepAlive.Send | src/tasks/tokio_tungstenite_reconnect/websocket_keepalive.rs:75-85 | `send` is refused exactly if the flag is raised, and otherwise accepted exactly if there is room |
| WebSocketKeepAlives.WebSocketKeepAlive.Recv | src/tasks/tokio_tungstenite_reconnect/websocket_keepalive.rs:89-93 | `recv` yields the next passed item, or the end exactly if none waits and the read loop has ended |
| WebSocketKeepAlives.WebSocketKeepAlive.Close | src/tasks/tokio_tungstenite_reconnect/websocket_keepalive.rs:98-101 | `close` raises the flag |
| WebSocketKeepAlives.WebSocketKeepAlive.IsConnected | src/tasks/tokio_tungstenite_reconnect/websocket_keepalive.rs:104-106 | Connected exactly as long as the flag was never sent |
| WebSocketKeepAlives.WebSocketKeepAlive.SelectWrite | src/tasks/tokio_tungstenite_reconnect/websocket_keepalive.rs:119-146 | The write loop's select takes the enabled arm, or none only if none is enabled |
| WebSocketKeepAlives.WebSocketKeepAlive.WriteReturns | src/tasks/tokio_tungstenite_reconnect/websocket_keepalive.rs:128-144 | A write puts its frame on the wire, or ends the loop with its message lost |
| WebSocketKeepAlives.WebSocketKeepAlive.RaiseFlagAfterWriting | src/tasks/tokio_tungstenite_reconnect/websocket_keepalive.rs:149-150 | The clean-up first raises the flag |
| WebSocketKeepAlives.WebSocketKeepAlive.CloseReturns | src/tasks/tokio_tungstenite_reconnect/websocket_keepalive.rs:151-155 | Then it closes the socket, and only then is the queue closed |
| WebSocketKeepAlives.WebSocketKeepAlive.SelectRead | src/tasks/tokio_tungstenite_reconnect/websocket_keepalive.rs:170-202 | The read loop's select asks the socket first, and drops pings and pongs |
| WebSocketKeepAlives.WebSocketKeepAlive.PassItem | src/tasks/tokio_tungstenite_reconnect/websocket_keepalive.rs:178-189 | An item waits for room in the incoming channel, or ends the loop if nobody can receive |
| WebSocketKeepAlives.WebSocketKeepAlive.RaiseFlagAfterReading | src/tasks/tokio_tungstenite_reconnect/websocket_keepalive.rs:204-205 | The read loop raises the flag when it ends |
| WebSocketKeepAlives.Execute | src/tasks/tokio_tungstenite_reconnect/websocket_keepalive.rs:48-207 | Under any schedule of calls and polls the object goes through a run of the protocol; so its accepted messages are accounted for exactly, and it lost none iff no losing event took place |
| ReconnectingWebSockets.ReconnectingWebSocket.constructor | src/tasks/tokio_tungstenite_reconnect/reconnecting_websocket.rs:90-114 | `build` yields the protocol's initial state |
| ReconnectingWebSockets.ReconnectingWebSocket.StartSend | src/tasks/tokio_tungstenite_reconnect/reconnecting_websocket.rs:181-185 | `send` is refused exactly if the handle is closed |
| ReconnectingWebSockets.ReconnectingWebSocket.PollSend | src/tasks/tokio_tungstenite_reconnect/reconnecting_websocket.rs:186-190 | A waiting `send` completes exactly when the outgoing channel has room |
| ReconnectingWebSockets.ReconnectingWebSocket.PollReceive | src/tasks/tokio_tungstenite_reconnect/reconnecting_websocket.rs:195-211 | `recv` takes items up to the first that is no swallowed reset, and yields None only if none is left and the close flag is newly raised |
| ReconnectingWebSockets.ReconnectingWebSocket.Close | src/tasks/tokio_tungstenite_reconnect/reconnecting_websocket.rs:216-219 | `close` raises the close flag |
| ReconnectingWebSockets.ReconnectingWebSocket.IsConnected | src/tasks/tokio_tungstenite_reconnect/reconnecting_websocket.rs:222-224 | The answer yes means that both loops of the newest connection are there, unless a misreport has begun in the run so far and was not corrected |
| ReconnectingWebSockets.ReconnectingWebSocket.StartConnect | src/tasks/tokio_tungstenite_reconnect/reconnecting_websocket.rs:148-151 | A `connect` starts at attempt 0 |
| ReconnectingWebSockets.ReconnectingWebSocket.DialReturns | src/tasks/tokio_tungstenite_reconnect/reconnecting_websocket.rs:152-176 | An attempt installs a generation, gives up, or leads to the next attempt |
| ReconnectingWebSockets.ReconnectingWebSocket.SelectWrite | src/tasks/tokio_tungstenite_reconnect/reconnecting_websocket.rs:357-402 | The write loop's select takes the enabled arm, or none only if none is enabled |
| ReconnectingWebSockets.ReconnectingWebSocket.ForwardMessage | src/tasks/tokio_tungstenite_reconnect/reconnecting_websocket.rs:363-378 | The message waits for the keep-alive's queue, or comes back if that is closed |
| ReconnectingWebSockets.ReconnectingWebSocket.RequeueMessage | src/tasks/tokio_tungstenite_reconnect/reconnecting_websocket.rs:365-383 | A refused message goes to the retry slot exactly when that is free, and the loop is left |
| ReconnectingWebSockets.ReconnectingWebSocket.FinishWriting | src/tasks/tokio_tungstenite_reconnect/reconnecting_websocket.rs:404-409 | The write loop raises the disconnect flag if the handle still exists, and drops its keep-alive |
| ReconnectingWebSockets.ReconnectingWebSocket.StartReading | src/tasks/tokio_tungstenite_reconnect/reconnecting_websocket.rs:279-283 | The read loop lowers the disconnect flag |
| ReconnectingWebSockets.ReconnectingWebSocket.SelectRead | src/tasks/tokio_tungstenite_reconnect/reconnecting_websocket.rs:285-325 | The read loop's select takes the enabled arm, or none only if none is enabled |
| ReconnectingWebSockets.ReconnectingWebSocket.DeliverItem | src/tasks/tokio_tungstenite_reconnect/reconnecting_websocket.rs:298-310 | An item waits for room in the incoming channel, or ends the loop if the handle is gone |
| ReconnectingWebSockets.ReconnectingWebSocket.FinishReading | src/tasks/tokio_tungstenite_reconnect/reconnecting_websocket.rs:327-339 | The read loop raises the disconnect flag and reconnects if that is called for |
| ReconnectingWebSockets.ReconnectingWebSocket.RedialReturns | src/tasks/tokio_tungstenite_reconnect/reconnecting_websocket.rs:333-335 | An attempt of a reconnecting read loop installs a generation, gives up, or leads to the next attempt |
| ReconnectingWebSockets.Execute | src/tasks/tokio_tungstenite_reconnect/reconnecting_websocket.rs:90-411 | Under any schedule of calls and polls the object goes through a run of the protocol; so each message it accepted is in exactly one place, none is written more often than accepted, and all are in order if the run was orderly |
| ConnectLoop.Connect | src/tasks/tokio_tungstenite_reconnect/reconnecting_websocket.rs:148-178 | For any outcomes: exactly 1 + min(first success or 4xx, max_retries) attempts, the last one's outcome, each wait min(2^(i+6) ms, cap); the power overflows u64 iff more than 58 retries are allowed and the first 59 attempts fail retryably |
| ConnectLoop.LastIsUnique | src/tasks/tokio_tungstenite_reconnect/reconnecting_websocket.rs:152-168 | The last attempt is determined by the outcomes |
| ConnectLoop.U64Holds | src/tasks/tokio_tungstenite_reconnect/reconnecting_websocket.rs:171 | The wait's power of two fits a u64 iff the attempt is at most 57 |
| ConnectLoop.WaitsNeverShrink | src/tasks/tokio_tungstenite_reconnect/reconnecting_websocket.rs:171-174 | Waits are non-decreasing |
| ConnectLoop.WaitsReachTheCap | src/tasks/tokio_tungstenite_reconnect/reconnecting_websocket.rs:171-174 | A wait is the power of two until that reaches the cap, and from then on exactly the cap |
| ConnectLoop.WaitsAreBounded | src/tasks/tokio_tungstenite_reconnect/reconnecting_websocket.rs:171-174 | k waits take at most min(64 (2^k - 1), k cap) milliseconds |
| ConnectLoop.UncappedWaits | src/tasks/tokio_tungstenite_reconnect/reconnecting_websocket.rs:171-174 | Without the cap they take exactly 64 (2^k - 1) milliseconds |
| PingTiming.FirstWrites | src/tasks/tokio_tungstenite_reconnect/websocket_keepalive.rs:119-146 | For given arrivals: every write is the next message, as soon as it is there and within the timeout, or a ping exactly at the timeout with no message there; without the pings the wire is a prefix of the arrivals; and all this in a timed run of the keep-alive (Ping frames: section 5.5.2 of RFC 6455) |
| PingTiming.TimedRunsAreRuns | src/tasks/tokio_tungstenite_reconnect/websocket_keepalive.rs:119-146 | A timed run is a run of the keep-alive, so everything proved of those holds of it |
| PingTiming.NeverIdleForLong | src/tasks/tokio_tungstenite_reconnect/websocket_keepalive.rs:119-146 | On every timed run of the keep-alive: at most the timeout passes without a write, a ping is written exactly the timeout after the last write, and without pings the wire is a prefix of what was accepted |
| PingTiming.PingsAreLastResort | src/tasks/tokio_tungstenite_reconnect/websocket_keepalive.rs:119-146 | On every timed run a ping is begun only when all accepted messages are on the wire and the timeout is exactly over |
| PingTiming.PingIffSilent | src/tasks/tokio_tungstenite_reconnect/websocket_keepalive.rs:125-146 | A write is a ping iff no message came within the timeout |
| StatusCheck.FloorLog | src/tasks/service/status_check.rs:37-42 | The floor of the logarithm is the largest power that fits |
| StatusCheck.DelaysAfter | src/tasks/service/status_check.rs:56-77 | Iterating `next` yields one delay per retry left, each the one before times the factor |
| StatusCheck.SumAgainstTotal | src/tasks/service/status_check.rs:36-43 | A power is within the formula's ratio iff the sum of that many delays is within the total |
| StatusCheck.RetriesStayWithinBudget | src/tasks/service/status_check.rs:21-52 | R >= 0 strictly growing delays d b^i; their sum and the next unused delay stay within the total, one more would not; none if the first delay exceeds the total |
| StatusCheck.NoRetryPastTheTotal | src/tasks/service/status_check.rs:21-26 | Every retry comes strictly before the total duration |
| StatusMonitor.StateMapAgreesWithHistory | src/tasks/service.rs:228-286 | Each entry is the outcome of the latest finished check with the configured type and description, every queued retry names a configured source, every published list has one entry per source, and the shutdown list is the last |
| StatusMonitor.StatusesTellLatestChecks | src/tasks/service.rs:630-668 | In every reachable state a source's entry says Connected iff its latest check had no error, Error(c) iff it ended with c, with the configured type and description |
| StatusMonitor.StepPublishes | src/tasks/service.rs:228-286 | Each turn logs its checks and publishes exactly one list: the state map as it then is, or at the shutdown that every source is disconnected; only a tick moves the next tick, by one interval |
| StatusMonitor.ListsTellLatestChecks | src/tasks/service.rs:233-283 | The list published by each turn of a run tells, for every source, its latest check up to then, or at the shutdown that it is disconnected |
| StatusMonitor.UpdateKeepsAgreement | src/tasks/service.rs:620-668 | One check, and the retry it may queue, keep the state map in step with history |
| StatusMonitor.RetriesBeforeNextTick | src/tasks/service.rs:638-648 | Every outstanding retry fires strictly between the last tick and the next |
| StatusMonitor.RetryChainsNeverOverlap | src/tasks/service.rs:228-261 | In every timed run each source has at most one outstanding retry |
| StatusMonitor.ChecksPerInterval | src/tasks/service.rs:670-691 | In every timed run each source is checked exactly 1 + min(failures, R) times per interval, and R is 0 if the interval is shorter than the first delay |
| StatusMonitor.RetriesAreDueAt | src/tasks/service.rs:638-684 | On timed runs the retry after n failures is due 10 + 10 * 1.5 + ... + 10 * 1.5^(n-1) seconds after the tick |
| StatusTasks.StatusTask.constructor | src/tasks/service.rs:134-145 | The monitor starts with an empty state map |
| StatusTasks.StatusTask.UpdateDataSource | src/tasks/service.rs:620-668 | In-place form of one check |
| StatusTasks.StatusTask.UpdateAllDataSources | src/tasks/service.rs:670-691 | In-place form of the checks of one tick, in any order of completion |
| StatusTasks.StatusTask.OnTick | src/tasks/service.rs:233-240 | The tick arm checks every source and publishes the map |
| StatusTasks.StatusTask.OnRetry | src/tasks/service.rs:243-261 | The retry arm checks one source and publishes the map |
| StatusTasks.StatusTask.OnShutdown | src/tasks/service.rs:262-283 | The shutdown arm publishes that all sources are disconnected, and stops |
| StatusTasks.Execute | src/tasks/service.rs:228-286 | Under any schedule of turns the object goes through a run of the monitor; so its state map agrees with history, every published list is complete, and without late turns no retry chains overlap |
| QueryHandlers.GaugeCountsRunningCalls | src/tasks/service.rs:468-511 | In every interleaving the gauge counts the handlers inside the call, started = observed + handlers in between, and both settle when no handler is measured |
| QueryHandlers.RepliesMatchRequests | src/tasks/service.rs:412-512 | In every interleaving queued replies are one for one those of finished relay handlers, each with its request's operation id and the answer the undisturbed handler makes of that handler's own provider result; no lookup and no `expect` fails |
| QueryHandlers.RepliesSayWhatHappened | src/tasks/service.rs:430-612 | What each queued reply says: the provider's data iff the payload is supported and the call returned data, its error iff it returned that, an error of its own iff unsupported; before that wrong version, unknown source and broken module, in this order; and a handler is measured under its version, provider type and source |
| QueryHandlers.StoppedForGood | src/tasks/service.rs:412-428 | After the outgoing task has stopped no reply is queued any more |
| QueryHandlers.LastEntryStays | src/tasks/service.rs:92-100 | Of two entries with one name the later one is configured |
| QueryHandlers.LastResultStays | src/tasks/service.rs:730-750 | Of two results for one provider type the later one is used |
| QueryHandlers.EarlyReturnsMoveNoMetric | src/tasks/service.rs:430-477 | Every early return leaves gauge, both totals and the replies as they were, and a handler gets past it exactly if it has an operation id and no early failure, counted as started once |
| QueryHandlers.LookupIsTotal | src/tasks/service.rs:92-100 | For any configuration, the loaded modules' keys are exactly the configured provider types |
| QueryHandlers.ModulesHaveTheTypes | src/tasks/service.rs:730-750 | Zipping and collecting gives exactly the listed provider types |
| QueryHandlers.QueryService.HandleMessageInner | src/tasks/service.rs:430-512 | One undisturbed handler: no reply without an operation id, early failures with their reasons in order leave metrics alone, otherwise one start, one observation, the gauge back where it was, and the provider's data or error, spelled out |

## Left out

- TCP, TLS, the HTTP upgrade, header and URL building, the response handler and tungstenite's own framing, automatic
  pongs and automatic replies to Close: a socket is an arbitrary incoming sequence with arbitrary write outcomes.
- One poll of a select is one atomic step; a flag raised by another thread between two arms of the same poll is not
  modelled, nor is the fairness of any scheduler, so nothing is claimed about liveness.
- The methods of the two WebSocket classes work on generations held as values in a sequence; the sharing of one
  keep-alive object between two loops is modelled by its one entry in that sequence.
- Raw tungstenite frames as messages; message contents are opaque otherwise.
- The provider runtime, MessagePack encoding and the decoding of a status reply: a provider call is an arbitrary result.
- f32 rounding, `Duration` precision and isize conversion in the retry formula: reals and integers are used.
- StatusMonitor.RetryChainsNeverOverlap: assumes instantaneous checks and prompt delivery; with slow checks chains may overlap.
- PingTiming.NeverIdleForLong: assumes instantaneous writes and a prompt scheduler.
- The order in which a runtime polls tasks: an assumption of `ConnectedFlag.ConnectedMeansNewestLives`, and of nothing else.
- Closing.CloseDrains: nothing about order on runs that are not orderly; there only `LeavingEmptiesQueues` holds.
- QueryHandlers.GaugeCountsRunningCalls: assumes that no handler panics.
- Whether the list sent at shutdown reaches the relay, and whether the main receive loop sees the shutdown.
- The main receive loop, the outgoing loop, health endpoints, provider manager, command line and metrics export.
