# airpc: a verified model of the data tunnel

airpc carries public connections to private backends over one WebSocket per
connector. The *data tunnel* multiplexes many sessions over that connection, gives
each direction of each session a window of 32 frames, and relays TCP streams,
WebSocket messages and streamed HTTP bodies. This project models that runtime in
Dafny and proves what the tunnel promises: no byte is lost, reordered or invented, no
window is overrun, no session blocks another, a relay without faults comes to its end,
and a link that is torn down leaves no session behind. Where the code breaks a promise,
the theorem says exactly when: a streamed response whose client goes away can leave the
connector's pump waiting for as long as the connection lasts, and a WebSocket's close
code is lost if a message meets the close.

## How the model is built

Concurrency is modelled as transition systems. A step is what one goroutine does
between two points at which another one may run, so "credit taken" and "frame
written" are two steps, as are "deleted from the map" and "done closed", and a
`select` may take any ready case. Runs are sequences of steps; the theorems quantify
over every initial state and every run. Faults are steps too: a connection that
refuses writes, a reader that stops, read and write errors on sockets, idle expiry,
cancellation.

| file | content |
|---|---|
| `frames.dfy` | frames, and counting over queues of frames |
| `envelope.dfy` | the encoded record, its validity, the round trip |
| `channel.dfy` | the window (`Window`) and one session seen from both ends (`Channel`) |
| `channel_invariants.dfy` | the inductive invariant (`ChannelInvariants`) and the flow-control theorems (`FlowControl`) |
| `byte_bounds.dfy` | how many bytes a direction can have under way |
| `channel_progress.dfy` | what the link does for a session when nothing fails, and that it ends |
| `mux.dfy` | a link with any number of sessions, refined to single sessions |
| `mux_mixed.dfy`, `mux_termination.dfy` | sessions of all kinds with their users on one link, each running as it would alone; total correctness of all of them together |
| `sessions.dfy` | `Session` and `LinkObject` as classes, each method tied to the acts of `Channel` |
| `teardown.dfy` | close, open and accept racing on one link |
| `tcp_relay.dfy`, `tcp_safety.dfy`, `tcp_termination.dfy` | `RelayConn` at both ends |
| `ws_relay.dfy`, `ws_termination.dfy`, `ws_close.dfy` | `RelayWebSocket` at both ends; when the close code is sure to arrive |
| `http_stream.dfy`, `http_termination.dfy` | the response pump, the edge handler, the claim timer |
| `http_abandoned.dfy` | the pump when nobody serves the response any more |
| `outage.dfy` | the users of a session whose connection is gone |
| `traces.dfy` | the users of a session, seen as runs of it: valid frames, bounded bytes |
| `idle_guard.dfy`, `registry.dfy`, `open_retry.dfy`, `inflight.dfy`, `feed.dfy`, `routes.dfy` | the smaller machines around the tunnel |

`Channel` leaves open who uses a session: its invariant holds for any interleaving of
the session's operations. Each relay is a pair of goroutines per end on top of it, and
only has to show how few control frames it sends. `Flip` and `Turn` exchange the two
ends, so that every predicate is written for one direction.

## Assumptions

- Session and request IDs are never used twice (`internal/edge/edge.go:495` draws 16 random bytes).
- Once a write on a connection has failed, every later write on it fails.
- The wire keeps frames in order; what is on it when a reader stops is never read.
- The wire is unbounded: a write, and with it a dispatch that refuses or ends a session, does not wait for the other end's reader.
- The serializer gives back the map of named fields it was given.
- Routes, kinds and IDs in open frames are valid: configuration checks routes, IDs are hexadecimal.
- The WebSocket library reports a close with a code from 1000 to 4999.
- A socket that is not at its end returns at least one byte per read.
- The clock of the idle guard does not go back. The code reads the wall clock (`internal/datatunnel/relay.go:191` rebuilds a time that has no monotonic reading), so this excludes clock adjustments.

## Where the code differs from its documentation

- `docs/architecture.md:74` and `docs/guides/expose-websocket.md:36` promise that a close
  is relayed with its code and text. If the relay is writing to the WebSocket that has
  just been closed, the write fails, and the loop returns without looking at the close
  (`internal/datatunnel/relay.go:139-141`): only the close without a code goes out. At the
  end of a run in which one WebSocket was closed, the code has arrived if and only if no
  such write failed (`WsTermination.WsTotalCorrectness`). It is sure to arrive if and only
  if the other WebSocket has nothing to say (`WsClose.CodeArrivesExactlyIfSilent`); for
  any other, `WsClose.CodeLost` is a run without faults that loses it.
- `docs/architecture.md:87` says that a client disconnect closes the session and thereby
  cancels the backend body read. A close from the edge is only queued at the connector,
  where nobody reads the queue (`internal/connector/proxy.go:189-217`): while the
  connection is up, the connector's session ends if and only if the pump finishes
  (`HttpStreamSafety.PeerCloseDoesNotReachThePump`). Nor does anybody return credit any
  more, so the pump can come to wait for a credit that never arrives, and then it waits
  as long as the connection lasts; its session stays registered, and the request in
  flight and the backend's body are not released (`HttpAbandoned.StrandedForever`). This
  can happen if and only if more sends may be left, at one byte each, than credits
  (`HttpAbandoned.StrandsExactlyBeyondCredit`); it does happen for every body of more
  than 32 bytes in some run, after a disconnect (`HttpAbandoned.DisconnectCanStrand`) and
  after the claim timer has discarded the session (`HttpAbandoned.DiscardCanStrand`); and
  it cannot be avoided if the credits left do not cover the rest in full chunks
  (`HttpAbandoned.FinishesExactlyWithinCredit`).
- `internal/edge/data.go:163-166` counts a tunnel that dropped between accept and open
  among the failures that are retried. The error of `Link.Open` (`internal/edge/data.go:229`)
  is not marked as one, so it ends the call: `OpenRetry.OpenDataSession` retries after a
  rejection for a tunnel that is down or a connector without a registered link, and after
  nothing else.
- The claim timer checks and then acts, so a session that has just been claimed can be
  discarded: `HttpStreamSafety.ClaimedButDiscarded`, and exactly when,
  `HttpStreamSafety.ClaimIsSafeExactlyBeforeCheck`.
- Longest match fails for routes that set both a prefix and a path, and for those only:
  `Routes.LongestMatchExactly`.
- A prefix that ends in a slash can forward a suffix that is not a path:
  `Routes.SuffixIsPath` says when, `Routes.TrailingSlashForwardsNoPath` gives an instance.
- A touch between the two readings of the idle check is lost:
  `IdleGuard.TouchDuringCheckIsLost`, and exactly when, `IdleGuard.IdleGuardIsExact`.

## Model

| member | source | states |
|---|---|---|
| `FlowControl.CreditConservation` | internal/datatunnel/session.go:53-108 | In every run, the credits of a direction, wherever they are (channel, held by a send, on the wire, in hand, queued, being processed, batched, coming back as window frames), never exceed 32, and are exactly 32 in both directions while both ends are up. |
| `FlowControl.NoExcessCredit` | internal/datatunnel/session.go:99-108 | Every window frame that arrives carries exactly 16 credits and fits: the cap for a buggy peer is never used. |
| `FlowControl.NoOverrun` | internal/datatunnel/link.go:70-79 | If the peer tries at most 8 control frames, dispatch always has room; the queue holds at most 32 data and 8 control frames. |
| `ByteBounds.UnacknowledgedBytesBounded` | internal/datatunnel/session.go:12-15 | If no send carries more than a limit, the bytes one direction has unacknowledged, be they held by a sender, on the wire, in hand, queued or being processed, never exceed the limit times the window. |
| `TcpTrace.TcpBytesBounded` | internal/datatunnel/relay.go:15-45 | A relayed TCP connection never has more than 32 x 32 KiB unacknowledged in a direction. |
| `HttpTrace.HttpBytesBounded` | internal/connector/proxy.go:195-207 | A streamed body never has more than 32 x 32 KiB unacknowledged. |
| `FlowControl.NotStranded` | internal/datatunnel/session.go:19-21 | A sender without credit, both ends up, has at least 17 credits' worth of frames under way, queued or coming back. |
| `FlowControl.OpenBeforeData` | internal/datatunnel/link.go:15-19 | A frame other than an open never reaches an end that has not yet decided about the session, and an open never reaches one that has. |
| `FlowControl.FifoDelivery` | internal/datatunnel/session.go:67-68 | What a consumer has taken and what waits for it is a prefix of what the peer wrote, and nothing is missing between the two while the session is registered. |
| `Envelope.MarshalRoundTrip` | internal/protocol/tunnel/envelope.go:49-60 | Leaving empty fields out of the encoded map loses nothing. |
| `Envelope.RoundTrip` | internal/protocol/tunnel/envelope.go:82-98 | A frame is encoded if and only if its session ID is a token and its fields are in range, and then the other end decodes that frame for that session. |
| `Envelope.DecodedIsSendable` | internal/protocol/tunnel/envelope.go:140-175 | Whatever passes validation on decoding would pass it on encoding, with the same meaning. |
| `Envelope.ReceivedIsWellFormed` | internal/protocol/tunnel/envelope.go:140-175 | Whatever is decoded carried this version, a valid session ID and one of the six types; data frames, and only they, come from records of type data, and without a kind they are binary. |
| `Envelope.WhatIsSent` | internal/protocol/tunnel/envelope.go:161-228 | Opens can be sent for the four kinds of session and no other, closes with no code or one from 1000 to 4999, errors with a text of one line. |
| `Frames.HexIsToken` | internal/edge/edge.go:495-500 | An ID drawn at random in hexadecimal is a token. |
| `Frames.TokensExactly` | internal/protocol/tunnel/envelope.go:230-241 | A token is a non-empty string of letters, digits, underscores and hyphens, and every such string is one. |
| `Frames.TokensAreSafe` | internal/protocol/tunnel/envelope.go:230-241 | A token has no character that separates or matches parts of a subject or a path, and no line break. |
| `Envelope.EveryFrameValidates` | internal/datatunnel/link.go:130-138 | If the users of a session hand it valid frames, no frame on the wire fails validation, the session's own window and error frames included. |
| `TcpTrace.TcpFramesValidate` | internal/datatunnel/relay.go:22-87 | In every run of two TCP relays, whatever they and their session try to write passes validation. |
| `WsTrace.WsFramesValidate` | internal/datatunnel/relay.go:89-161 | The same of WebSocket relays, closes with a code included. |
| `HttpTrace.HttpFramesValidate` | internal/connector/proxy.go:189-217 | The same of the pump, the handler and the claim timer. |
| `Mux.MultiplexingRefinesIndependence` | internal/datatunnel/link.go:35-80 | Every run of a link with any number of sessions, seen from one session, is a run of that session alone. |
| `Mux.SharedLinkKeepsSessions` | internal/datatunnel/link.go:20-27 | Conservation, order and the queue bound hold for every session of a shared link. |
| `Mux.DispatchNeverWaits` | internal/datatunnel/link.go:59-80 | While the reader runs, a frame in hand can be delivered and a frame on the wire can be taken, whatever state any session is in. |
| `Mux.StalledSessionDisablesNothing` | internal/datatunnel/session.go:26-28 | What a session can do, and its effect, does not depend on the state of any other session. |
| `MuxMixed.SharedSessionsRunAlone` | internal/datatunnel/link.go:35-80 | Every run of a link with relayed connections, relayed WebSockets and streamed responses on it, with any faults, seen from one session is a run of that session and its users alone. |
| `MuxMixed.SharedLinkKeepsPromises` | internal/datatunnel/link.go:15-27 | So on such a link every session keeps what it promises under every fault: prefixes of bytes and messages, close fidelity, no truncated response that ends cleanly. |
| `MuxTermination.SharedTotalCorrectness` | internal/datatunnel/session.go:26-28 | Without faults of the connection a run of any number of sessions of all kinds on one link is no longer than the sum of their bounds, and when nothing more can happen every one has ended as it would have alone: connections with both inputs delivered, WebSockets with their messages and close, responses with the whole body, or aborted if their backend failed. |
| `Sessions.Session.constructor` | internal/datatunnel/session.go:45-57 | A new session has a full window, an empty queue, and is neither done nor claimed. |
| `Sessions.Session.TryClaim` | internal/datatunnel/session.go:61-62 | The claim succeeds exactly for the first caller. |
| `Sessions.Session.SendData` | internal/datatunnel/session.go:73-82 | Blocks if and only if there is no credit and the session is open; reports it closed if and only if it is done and there is no credit or the select prefers it; otherwise takes one credit and writes one data frame, and reports whether the write went through. |
| `Sessions.Session.SendEof` | internal/datatunnel/session.go:84-87 | Writes one EOF frame, without a credit. |
| `Sessions.Session.Ack` | internal/datatunnel/session.go:89-97 | Returns the batch as one window frame when it is full, and otherwise only counts. |
| `Sessions.Session.Take` | internal/datatunnel/session.go:67-68 | Takes the oldest frame of the queue. |
| `Sessions.Session.AddSendCredit` | internal/datatunnel/session.go:99-108 | Adds credits one by one up to the window and drops the rest. |
| `Sessions.Session.CloseWith` | internal/datatunnel/session.go:110-128 | Writes the close or error to the wire if its session ID and content validate and the connection takes it, and nothing otherwise; leaves the map and closes done in any case. |
| `Sessions.Session.CloseDone` | internal/datatunnel/session.go:130-132 | Done stays closed once it is. |
| `Sessions.LinkObject.WriteFrame` | internal/datatunnel/link.go:130-138 | Appends the frame to the wire if it validates and the connection takes it, and fails otherwise. |
| `Sessions.LinkObject.AddSession` | internal/datatunnel/link.go:108-118 | Registers a fresh session under a free ID and refuses a taken one. |
| `Sessions.LinkObject.Accept` | internal/datatunnel/link.go:95-99 | The accepting end's registration is the step the two-ended system takes for an accepted open. |
| `Sessions.LinkObject.OpenSession` | internal/datatunnel/link.go:82-93 | Succeeds exactly for a free ID and an open frame that validates, on a connection that takes it; on failure the map and the wire are as before. |
| `Sessions.LinkObject.RemoveSession` | internal/datatunnel/link.go:120-128 | Takes the session out of the map and closes its done. |
| `Sessions.LinkObject.Dispatch` | internal/datatunnel/link.go:59-80 | Credit for a window frame, one more frame in the queue while there is room, and the end of the session on an overrun, as in the two-ended system; nothing for an unknown session. |
| `Sessions.LinkObject.Kill` | internal/datatunnel/link.go:73-79 | The overrun branch reports the violation and ends the session. |
| `Sessions.LinkObject.Close` | internal/datatunnel/link.go:140-150 | Empties the map and leaves every session ever registered done. |
| `Sessions.LinkObject.Run` | internal/datatunnel/link.go:33-57 | For any input and any accept policy: every session registered at the start, and every one accepted on the way, ends with the frames of the input that are its own queued in order and its credit raised by its window frames up to the window, as long as its queue has room for them; every accepted open has a session, every new session an accepted open; and when Run returns every session ever registered is done. |
| `Sessions.LinkObject.OnOpen` | internal/connector/data.go:202-212 | An accepted open is registered before the next frame is read, with a full window and an empty queue; a refused one, or one for a taken ID, registers nothing and is answered with the error of its case. |
| `Sessions.DispatchIsTwoActs` | internal/datatunnel/link.go:59-80 | Dispatch in one piece is looking up and delivering in a row. |
| `Sessions.OpenIsTwoActs` | internal/datatunnel/link.go:82-93 | Opening in one piece is registering and announcing in a row. |
| `Sessions.RemovalIsTwoActs` | internal/datatunnel/link.go:120-128 | Removal in one piece is deleting from the map and closing done in a row. |
| `Sessions.CloseIsThreeActs` | internal/datatunnel/session.go:110-128 | Closing in one piece is telling the peer, leaving the map and closing done in a row; the peer is told if and only if the frame validates and the connection takes writes. |
| `Sessions.RefusalIsTold` | internal/connector/data.go:202-212 | An open is answered with an error if and only if it is refused, or accepted for an ID that is taken, and the connection takes the answer; the session is registered exactly if it was or is accepted for a free ID. |
| `Teardown.DoneIsAbsent` | internal/datatunnel/link.go:120-128 | In every reachable state a session whose done is closed is not in the map. |
| `Teardown.NothingLeaks` | internal/datatunnel/link.go:140-150 | Once Run and the Open calls in progress have returned, the map is empty and every session ever registered is done or being marked, whatever Close, Open and Accept raced. |
| `Teardown.TeardownEnds` | internal/datatunnel/link.go:82-93 | Once the connection has failed under Run, the rest of Run, the Open calls in progress and the marking take a bounded number of steps, and when they can take no more Run has returned, the map is empty and every session ever registered is done. |
| `Teardown.RegisteredUntilRemoved` | internal/datatunnel/link.go:108-128 | In every run the sessions in the map or taken out of it are exactly those accepted or added, and one that was removed, by its users or by an Open that failed, is not in the map. |
| `Teardown.CloseIsFinal` | internal/datatunnel/link.go:140-150 | After anybody closes the connection no Open succeeds, and no session that was registered when anybody swapped the map comes back; Run returns only when those it took out itself are done. |
| `TcpSafety.TcpNeverOverruns` | internal/datatunnel/relay.go:22-87 | Two TCP relays never meet the flow-control violation: at most 32 data and 2 control frames are queued. |
| `TcpSafety.PrefixSafety` | internal/datatunnel/relay.go:30-86 | At every moment and under every fault, what one socket was given is a prefix of what was read from the other. |
| `TcpSafety.HalfCloseAfterAll` | internal/datatunnel/relay.go:72-77 | A socket is half-closed only after the other side has read to EOF and every byte has been written. |
| `TcpSafety.CloseAfterReadErrorIsLast` | internal/datatunnel/relay.go:55-61 | A relay that takes the close following a read error has written every byte read before the error. |
| `TcpSafety.ReturnedRelayClosed` | internal/datatunnel/relay.go:23-24 | In every run, under every fault, a relay that was dialed and has returned has closed its socket. |
| `TcpSafety.PeerEndIsHeard` | internal/datatunnel/relay.go:78-79 | A relay that has taken a close or an error from its session is on its way out. |
| `TcpSafety.EndOfInputIsTold` | internal/datatunnel/relay.go:55-63 | Once the reader has exited, its result is still to be taken, or the EOF has been or is being sent, or the relay is ending. |
| `TcpSafety.NothingReadAfterEnd` | internal/datatunnel/relay.go:33-44 | After a read that reported an EOF or an error, with bytes or without, the socket is not read again. |
| `TcpSafety.WrittenIsTaken` | internal/datatunnel/relay.go:67-69 | The bytes counted as written are those the socket took, in writes that failed half way too. |
| `TcpSafety.QuitTearsDown` | internal/datatunnel/relay.go:51-52 | A relay whose context or idle timer ends it can always return by its own next four acts, with the socket closed, the session over, and one close frame written if the connection takes writes. |
| `TcpTermination.TotalCorrectness` | internal/datatunnel/relay.go:16-87 | Without faults a run is no longer than 10 steps per input byte plus 36, and a run that cannot go on has delivered both inputs in full, with both relays returned, both sockets half-closed and then closed, both sessions done and the wires empty. |
| `TcpTermination.Progress` | internal/datatunnel/relay.go:49-86 | Short of that final state a fault-free step is always enabled. |
| `TcpTermination.StepWorks` | internal/datatunnel/relay.go:49-86 | Every fault-free step decreases the work left. |
| `TcpOutage.OutageEndsRelays` | internal/datatunnel/link.go:140-150 | Once both ends of a connection are closed and have stopped reading, at most 400 steps of two TCP relays change anything, and when none does any more both relays and their readers have returned, their sockets are closed and both sessions are over. |
| `WsOutage.OutageEndsRelays` | internal/datatunnel/relay.go:89-161 | The same of WebSocket relays, however many messages are still to come. |
| `HttpOutage.OutageEndsStream` | internal/connector/proxy.go:189-217 | The same of a streamed response; a stranded pump returns, too. |
| `ChannelProgress.CreditIsUnderWay` | internal/datatunnel/session.go:75-97 | A healthy end without credit has frames or window frames under way. |
| `ChannelProgress.LinkWorks` | internal/datatunnel/link.go:35-80 | Every act of the link without faults brings the session nearer its end. |
| `WsSafety.MessagesInOrder` | internal/datatunnel/relay.go:100-143 | Messages arrive in order, each with its text or binary kind. |
| `WsSafety.CodeComesFirst` | internal/datatunnel/relay.go:128-133 | After a local close error the first close frame sent carries its code and text. |
| `WsSafety.CloseFidelity` | internal/datatunnel/relay.go:146-151 | A close written to a WebSocket is the one the other WebSocket was closed with, after every message read before it. |
| `WsSafety.WsNeverOverruns` | internal/datatunnel/relay.go:89-161 | WebSocket relays never meet the flow-control violation. |
| `WsSafety.ReturnedRelayClosed` | internal/datatunnel/relay.go:94-95 | In every run, under every fault, a relay that was dialed and has returned has closed its WebSocket. |
| `WsSafety.PeerEndIsHeard` | internal/datatunnel/relay.go:146-153 | A relay that has taken a close, an EOF or an error from its session has left its loop. |
| `WsTermination.WsTotalCorrectness` | internal/datatunnel/relay.go:89-161 | Without faults a run is bounded by the number of messages. When nothing more can happen: if neither WebSocket was closed, every message is delivered; if one or both were, both relays and their readers have returned, both WebSockets are closed and both sessions are done; if exactly one was, the other was given all its messages, and its close code and text if and only if no write to the closed one failed. |
| `WsClose.CodeArrivesExactlyIfSilent` | internal/datatunnel/relay.go:125-151 | When one WebSocket is closed, the other stays and nothing else fails, the code and text of the close arrive in every run if and only if the other has no messages. |
| `WsClose.CodeLost` | internal/datatunnel/relay.go:139-141 | If it has messages, there is a run without faults to the end in which the code does not arrive. |
| `HttpStreamSafety.CleanEndIsWhole` | internal/edge/edge.go:360-384 | A streamed response ends normally only if a step of the run was the client leaving or a failed write to it, or if it was given the whole body up to the pump's EOF. |
| `HttpStreamSafety.StopsForItsReason` | internal/edge/edge.go:360-384 | In every run the handler has stopped for the first reason there was: client gone, failed write or dead session, told from its steps, or else an EOF, or a close or error, among the frames it has taken; it panics for a dead session, a close or an error, and for nothing else. |
| `HttpStreamSafety.ServedIsPrefix` | internal/connector/proxy.go:195-217 | At every moment the client was given a prefix of the bytes the pump read. |
| `HttpStreamSafety.NothingReadAfterEnd` | internal/connector/proxy.go:198-215 | After a read that reported the end of the body or an error, with bytes or without, the body is not read again. |
| `HttpStreamSafety.WrittenIsTaken` | internal/edge/edge.go:374-376 | The bytes counted as given to the client are those it took. |
| `HttpStreamSafety.PumpTellsTheEnd` | internal/connector/proxy.go:207-214 | On a working connection the end of the body goes out as an EOF and then a close, a failed read as an error. |
| `HttpStreamSafety.EdgeTellsItsEnd` | internal/edge/data.go:120-124 | On a working connection the handler's return goes out as a close, and an unclaimed session as an error. |
| `HttpStreamSafety.HttpNeverOverruns` | internal/edge/data.go:110-125 | Neither end of a streamed response overruns the other, whatever the claim timer does. |
| `HttpStreamSafety.PeerCloseDoesNotReachThePump` | internal/connector/proxy.go:189-194 | While the connection is up, the connector's session ends if and only if the pump has finished by itself. |
| `HttpAbandoned.StrandsExactlyBeyondCredit` | internal/datatunnel/session.go:75-82 | Once the handler has left, or the timer has discarded a session nobody found, the pump can come to wait for a credit that never arrives if and only if it may have more sends to make, at one byte each, than there are credits for it. |
| `HttpAbandoned.DisconnectCanStrand` | internal/connector/proxy.go:195-217 | For every body of more than 32 bytes there is a run in which the client leaves, the handler closes the session and returns, and the pump is left waiting so. |
| `HttpAbandoned.DiscardCanStrand` | internal/edge/data.go:120-124 | For every such body there is a run in which nobody claims the session, the timer discards it, and the pump is left waiting so. |
| `HttpAbandoned.StrandedForever` | internal/datatunnel/link.go:63-72 | A pump that waits so never moves again and its session stays registered, as long as the connector's connection lasts. |
| `HttpAbandoned.FinishesExactlyWithinCredit` | internal/connector/proxy.go:195-217 | From the same states the pump can reach the end of the body, the backend and the connection holding, if and only if the credits left cover the rest in full chunks. |
| `HttpTermination.StreamedTotalCorrectness` | internal/edge/edge.go:360-384 | When the client stays and the connection holds, a run is bounded by the length of the body, and when nothing more can happen pump and handler have returned and both sessions are done: with a normal end and the whole body given, or, if the backend failed in the body, with a panic after exactly what was read before. |
| `HttpStreamSafety.ClaimIsSafeExactlyBeforeCheck` | internal/edge/data.go:120-124 | While the handler is at it and the edge's connection is up, the session is gone if and only if the timer has discarded it; it is registered with no discard ahead if and only if it was claimed before the timer checked. |
| `HttpStreamSafety.ClaimedButDiscarded` | internal/edge/data.go:120-124 | A run in which a session is claimed and then discarded. |
| `IdleGuard.Guard.CheckExpired` | internal/datatunnel/relay.go:189-200 | Expired if and only if a full timeout or more lies between the two readings; otherwise armed for a timeout after the activity it has read. |
| `IdleGuard.LateCheckExpires` | internal/datatunnel/relay.go:189-200 | A check ends the relay if and only if it comes a timeout or more after the activity it has read, however late, and otherwise arms the timer for that moment, which is still to come. |
| `IdleGuard.IdleGuardIsExact` | internal/datatunnel/relay.go:170-200 | The timer is never armed beyond last activity plus timeout; a relay torn down by a check that took less than a timeout has been idle for a full timeout if and only if no touch came between the two readings. |
| `IdleGuard.PromptExpiryIsExact` | internal/datatunnel/relay.go:189-200 | With a timer served at once, expiry is seen exactly a timeout after the last activity, or exactly at it if it fell between the two readings. |
| `IdleGuard.TouchDuringCheckIsLost` | internal/datatunnel/relay.go:191-197 | A run in which a relay is torn down with no idle time. |
| `Registry.TunnelRegistry.Register` | internal/edge/data.go:34-42 | The new link replaces the old one, which is handed back to be closed. |
| `Registry.TunnelRegistry.Unregister` | internal/edge/data.go:44-50 | Removes the entry only if it is still the caller's link. |
| `Registry.TunnelRegistry.TakeAll` | internal/edge/data.go:58-69 | Empties the table and hands over what was in it. |
| `Registry.RegistryIsCurrent` | internal/edge/data.go:34-56 | Over any interleaving, a lookup yields the link registered last for the connector, or nothing if that one was unregistered or dropped. |
| `Registry.RegisteredExactlyWhile` | internal/edge/data.go:34-69 | From its registration on, a lookup yields a link exactly as long as its own handler has not unregistered it, none has registered another for the connector, and closeAll has not come. |
| `Registry.SupersededIsClosed` | internal/edge/data.go:34-42 | A superseded link is closed, unless a register call or a closeAll is still about to close it. |
| `Registry.HandlerAdvances` | internal/edge/data.go:34-69 | Each step of a handler takes it one phase further, nothing else does, and what register and closeAll are to close is closed. |
| `OpenRetry.AttemptOpen` | internal/edge/data.go:192-230 | Only an acceptance with a registered link reaches Link.Open, which succeeds exactly for a free ID on a link that takes the frame, and whose failure is not retried. |
| `OpenRetry.OpenDataSession` | internal/edge/data.go:170-190 | The first attempt that is neither a rejection for a tunnel that is down nor an acceptance without a link decides. Link.Open is called at most once; success means registered on the accepting connector's link, failure means registered by this call nowhere. |
| `Inflight.OneOwnerCleansUp` | internal/connector/proxy.go:90-139 | The requests in flight are exactly those whose forward call or pump has not finished, and untrack runs once per request. |
| `Inflight.RequestsFinish` | internal/connector/proxy.go:103-217 | A request takes at most five steps of its own, one is enabled until it has finished, and then it is not in flight, was untracked once, and its context is canceled. |
| `Inflight.CancelReachesOnlyItsRequest` | internal/connector/proxy.go:81-88 | A cancel reaches the request it names if it is in flight, and nothing else. |
| `Inflight.OverIsCanceled` | internal/connector/proxy.go:107-112 | A request that is over has had its context canceled. |
| `Inflight.DeadlineAndSessionCancel` | internal/connector/proxy.go:116-117 | The deadline, the end of the response session and the end of the pump cancel the context of their request, for good. |
| `Feed.ObserverFeedIsGapless` | internal/grpcobs/observer.go:144-195 | What the parser was given is a prefix of what was relayed, and with what is still to come it is everything up to the first overflow. |
| `Feed.NothingAfterOverflow` | internal/grpcobs/observer.go:157-167 | After the first dropped chunk nothing put later is ever handed on. |
| `Feed.DeadExactlyWhenFull` | internal/grpcobs/observer.go:157-167 | A feed is dead if and only if some put of the run came when 256 earlier chunks had been put and not taken; until then all chunks put and not taken are queued. |
| `Feed.NothingDroppedInTime` | internal/grpcobs/observer.go:144-195 | If no put comes so far ahead of the takes, what the parser has been given, holds and has queued is all that was put. |
| `Feed.Pipe.Put` | internal/grpcobs/observer.go:157-167 | Queues a copy of the caller's bytes unless the feed is dead or 256 chunks are waiting; the feed is dead afterwards if and only if one of the two holds. |
| `Feed.Pipe.Read` | internal/grpcobs/observer.go:177-195 | Hands on the next bytes, and ends only when the observer is closed and everything accepted has been given. |
| `Feed.RecordsNeedStarts` | internal/grpcobs/observer.go:89-128 | On no stream are more calls recorded than were started. |
| `Feed.StartedCallIsRecorded` | internal/grpcobs/observer.go:89-128 | A started call keeps its name and start in the table until its end is seen, whatever other streams do, and is then recorded. |
| `Feed.CallTable.Finish` | internal/grpcobs/observer.go:118-128 | Records a call exactly if it was in the table, and removes it. |
| `Routes.SortRoutes` | internal/edge/edge.go:398-403 | Sorts in place, to the result of the stable sort. |
| `Routes.SortedIsStable` | internal/edge/edge.go:399-401 | The result is descending in weight and keeps the given order within each weight. |
| `Routes.MatchRoute` | internal/edge/edge.go:405-437 | Returns the first route without a host or with the request's host whose pattern fits the path, with the rewritten path, and nothing only if there is no such route. |
| `Routes.FirstAfterSortIsBest` | internal/edge/edge.go:398-422 | The route selected is the heaviest that matches and the earliest in the configuration of those. |
| `Routes.SelectedForHost` | internal/edge/edge.go:398-437 | The route selected has no host or the request's, and is the heaviest of all configured routes with that host or none whose pattern fits the path, and the earliest of those. |
| `Routes.SortingLosesNothing` | internal/edge/edge.go:398-403 | If no sorted route matches, no configured route does. |
| `Routes.LongestMatch` | internal/edge/edge.go:398-422 | If the route selected does not set both patterns, it has a longest matching pattern, and is the earliest in the configuration of those. |
| `Routes.LongestMatchExactly` | internal/edge/edge.go:400 | A route never wins against a longer pattern if and only if it does not set both. |
| `Routes.PrefixReflexive` | internal/edge/edge.go:439-442 | Prefix matching on path segments is reflexive. |
| `Routes.PrefixTransitive` | internal/edge/edge.go:439-447 | It is transitive. |
| `Routes.PrefixesFormChain` | internal/edge/edge.go:439-447 | Prefixes that match one path are comparable. |
| `Routes.SuffixIsPath` | internal/edge/edge.go:409-418 | The forwarded suffix starts with a slash unless the prefix ends in one and the rest does not begin with one. |
| `Routes.SplitUndoesWithQuery` | internal/edge/edge.go:449-454 | Path and query survive being joined and parsed. |
| `Routes.PathRewrite` | internal/connector/proxy.go:229-251 | End to end, the backend sees its base path followed by what came after the prefix, and the same query; and nothing if and only if the suffix is not a path. |
| `Routes.TrimRightIsExact` | internal/connector/proxy.go:235 | What is cut off the base path is its trailing slashes, all of them and nothing else. |
| `Routes.TrailingSlashForwardsNoPath` | internal/edge/edge.go:413-418 | An instance in which the forwarded suffix is no path. |

## Left out

- NATS, TLS, configuration loading, metrics and the command line: wrappers around libraries; a NATS reply is a parameter of `OpenRetry.AttemptOpen`.
- HTTP/2 and HPACK decoding: only the feed in front of the parser and the table behind it are modelled.
- URL parsing: `Routes.SplitQuery` splits at the first question mark; escapes, fragments and control characters are outside the model. Host normalisation is a parameter.
- `sort.SliceStable`: library code; `Routes.SortRoutes` is an insertion sort with the same result.
- Redialing and its backoff (`internal/connector/data.go:100-168`): a bounded doubling with nothing to prove beyond its body.
- Liveness under faults: termination is proved for runs without faults and for connections that are gone, on the footing that a call on a socket or a backend returns; safety for all runs.
- RoundTrip: ends at the map of named fields; the MessagePack bytes are not part of this model.
- DispatchNeverWaits: does not model a full socket, on which the writes of a dispatch that refuses or ends a session would wait.
- Run: as a method runs by itself; other goroutines that open, use and close sessions meanwhile are in `Teardown` and `Mux`. Of a session whose queue overflows it says that the session is done; what happens at that frame is in `Dispatch` and `Kill`.
- IdleGuardIsExact: a touch, which reads the clock and stores the reading, is one step; two touches that overtake each other in between are not modelled.
- SendData: the select is evaluated at one moment; waiting is the result `Blocked` and calling again.
- OpenDataSession: the deadline is the end of the list of attempts; the pauses between attempts are not modelled.
- FirstAfterSortIsBest: routes are compared as values, so of two routes that are equal in every field either may be meant.
