# Tunlet: a verified model

Tunlet forwards public TCP connections through a server to a client behind a NAT. This project models
the parts that decide who owns a port, which connection meets which, and what goes over the wire, and
proves what they guarantee. Everything is checked by `dafny verify dfyconfig.toml`.

| File | What it holds |
| --- | --- |
| `Bytes.dfy`, `Wire.dfy` | Preamble, framing and message codecs; a socket with exact-length reads |
| `Auth.dfy` | Labels and transcripts, the inputs of every proof |
| `Handshake.dfy` | Both handshakes as two-party machines over byte channels |
| `Documented.dfy` | The codecs against the tables and layouts of the protocol document |
| `Strangers.dfy`, `Impostors.dfy` | The same servers, and the same clients, with anyone at the other end, sending any bytes |
| `Refusals.dfy` | What each thing a peer may do wrong in a handshake is answered with |
| `RegistrySpec.dfy` | The registry's tables and each command as a function from state to state |
| `RegistryInvariant.dfy` | The cross-table invariant, kept by every input |
| `RegistryTheorems.dfy`, `RegistryOutcomes.dfy`, `RegistryQueues.dfy` | What each command achieves and what holds over whole runs |
| `RegistryLaws.dfy`, `HandleLaws.dfy` | For every input, exactly what becomes of each session, request and slot, of each queue, permit and token |
| `FrameOrder.dfy` | What a client is sent from its registration on, and in what order |
| `RegistryActor.dfy` | The actor as an object that updates its tables in place, proved against the functions |
| `Tunnel.dfy` | Actor, bounded command queue, serving tasks and data connections, one event at a time |
| `TunnelPermits.dfy`, `TunnelDelivery.dfy` | Permit conservation, the bound on unclaimed requests, at-most-once delivery |
| `TunnelRefines.dfy` | The registry inside the system is the registry by itself, run on the inputs the system gives it |
| `TunnelServes.dfy`, `TunnelWakes.dfy` | That connections are served, and that those which cannot be are woken |
| `TunnelReady.dfy`, `TunnelClaims.dfy` | When DATA_READY may be written; when a claim uses up a request for nothing |
| `TunnelMoves.dfy`, `Sessions.dfy` | The handlers of control connections added, each with its session loop: the whole server, and who ends each session |
| `HandlerEnds.dfy` | No handler waits for something that does not come |
| `Gateway.dfy` | The system with its data connections as bytes from anyone: what a delivered socket's peer must have sent |
| `PendingPeak.dfy`, `WastedClaim.dfy`, `ServerRuns.dfy` | Runs of the server: the most requests unclaimed at once, and claims wasted |
| `WayOut.dfy`, `Drain.dfy` | A server whose connections are over comes to rest with nothing held |
| `Client.dfy` | The client supervisor across reconnects |
| `ClientOpens.dfy` | The client's side of a request: its setup under a deadline, its permits, its reports |
| `Takeover.dfy` | Clients, the registrations they have sent, and the registry: how often a port changes hands |
| `Rivals.dfy` | A run in which a forgotten registration takes a port from a settled client |
| `Heartbeat.dfy` | The session loop with its timers, on either side |

How the program's surroundings appear:

- Time, the answer of each bind, random draws, verification results of proofs and the fate of a waiting
  receiver are arguments of the operation that asks for them.
- Session, instance and request ids, compared only for equality by the registry, are numbers there and
  sixteen bytes in the codec.
- A registration's writer queue, semaphore and tokens are named by its generation number, a listener's
  token by its listener number. Cancelling a token adds its name to a set.
- The MAC (HMAC, section 2 of RFC 2104) is an arbitrary function of its input bytes; both ends of a
  handshake share it, which is what having the same key means.

Assumptions, each stated as a condition where it is used: time does not run backwards; a session id is
drawn at most once (`AdmissibleRun`, `FreshSessions`); a request id is drawn at most once for a session
(`FreshRequests`, used only for delivery); `Register` commands carry ports the decoder accepts.
`ServerIsTunnel` reduces what is assumed of commands to one thing: each control connection draws its own
session id. What depends on the first id assumption is exact: `RegisterInvExact` and `RunInvExact` give the
condition and `RepeatedSessionBreaksIndex` a run it protects against.

Threads run side by side. A task that has looked at its cancellation token and at the clock acts on what it
saw later, with anything in between; so a look and the act it permits are two events. The same goes for
the actor: taking a command makes room in the queue, the clock is read at some time after that, and the
command takes effect later still.

Where code and commentary disagree the model follows the code:

- src/server/control.rs:97 says OPEN cannot precede REGISTERED. It can: `OpenBeforeRegistered` is such a
  run, `RegisteredFirstExact` says exactly when it does not happen, and `FirstFrameDecides` what it costs
  the client.
- src/server/registry.rs:78 says a rejected request was not consumed. `RejectedYetConsumed` is a run in
  which it is, `RejectedTooLate` another, and `WastedOnlyWhenCutOff` says when that is.

A client that reconnects asks to resume and so takes no port from anyone (src/client/control.rs:65-75).
That is certain only once nothing it sent before is still on its way: `SettledExact`, with
`SettledYetTakenOver` as the run.

## Model

| member | source | states |
|---|---|---|
| Bytes.BeRoundTrip | src/protocol.rs:221 | A number that fits is recovered from its big-endian bytes |
| Bytes.BeCanonical | src/protocol.rs:269 | Every byte string is the encoding of the number read from it |
| Wire.TypesPartitionByKind | src/protocol.rs:61-126 | Exactly one code per type; only ERROR is legal on both kinds of connection |
| Wire.PreambleExact | src/protocol.rs:176-197 | One byte string per kind decodes; the version error appears only behind a good magic |
| Wire.ReadFrameExact | src/protocol.rs:218-283 | A frame is read if and only if the stream starts with its encoding, and what follows is left untouched |
| Wire.RefusedByHeader | src/protocol.rs:266-282 | Refusals depend on the three header bytes alone; no payload over 1024 bytes is ever read |
| Wire.TruncatedFrame | src/protocol.rs:264-282 | A frame cut anywhere is never returned in whole or part |
| Wire.FrameStreamExact | src/protocol.rs:218-283 | Reading n frames succeeds exactly on the encoding of n well-formed frames, returning them and the untouched remainder |
| Wire.Socket.ReadExact | src/protocol.rs:268 | All the bytes asked for, or a failure at the end of the stream |
| Wire.Socket.Read | src/protocol.rs:266-283 | The socket loses exactly the returned frame's bytes |
| Wire.Socket.Write | src/protocol.rs:285-292 | Oversized payloads are refused whole, others appended whole |
| Wire.ControlHelloExact | src/protocol.rs:321-359 | Decoding yields m exactly when m's mode and port are allowed and the bytes are m's encoding |
| Wire.ControlHelloRejects | src/protocol.rs:334-352 | A disallowed mode and port pair is answered INVALID_PORT |
| Wire.ControlChallengeExact | src/protocol.rs:370-387 | Decoding and encoding are inverse on all inputs |
| Wire.RegisteredExact | src/protocol.rs:398-426 | Inverse on exactly the unprivileged ports and nonzero maxima |
| Wire.OpenFailedExact | src/protocol.rs:436-451 | Inverse on exactly the four reasons |
| Wire.DataHelloExact | src/protocol.rs:462-479 | Decoding and encoding are inverse on all inputs |
| Wire.DataChallengeExact | src/protocol.rs:489-504 | Decoding and encoding are inverse on all inputs |
| Wire.SequenceExact | src/protocol.rs:514-519 | Eight bytes and 64-bit sequence numbers correspond one to one |
| Wire.ErrorExact | src/protocol.rs:521-527 | Two bytes decode to an error exactly when they are its code |
| Documented.TypesDocumented | docs/protocol.md:44-61 | Code and payload length of every type are those of the table |
| Documented.ErrorsDocumented | docs/protocol.md:74-85 | The number of every error, and whether it is final for a control connection |
| Documented.FrameDocumented | docs/protocol.md:31-42 | A frame is a type byte, a big-endian length of at most 1024, and the payload |
| Documented.ControlMessages | docs/protocol.md:46-51 | Each control message is the payload of a well-formed frame, field by field in the documented order |
| Documented.DataMessages | docs/protocol.md:57-58 | The same of the data messages |
| Documented.ProofsDocumented | src/auth.rs:17-80 | What lies under each of the five proofs, byte for byte |
| Auth.LabelsPrefixFree | src/auth.rs:17-22 | No label is a prefix of another |
| Auth.MacInputInjective | src/auth.rs:35-80 | The bytes under a proof determine which of the five proofs it is and every field |
| Channel.ReadArrived | src/protocol.rs:264-283 | A frame split across arrivals is read whole or waited for, and no later byte is taken |
| DataHandshake.CompletedAgreement | src/client/data.rs:130-171 | A completed data handshake: same hello and transcript on both ends, every application byte still unread |
| DataStranger.ClaimNeedsProof | src/server/data.rs:31-83 | Whoever the peer is: a claim means it sent exactly preamble, hello and the proof over that hello and over the nonce drawn, on this connection, when it was read |
| DataStranger.ClaimExact | src/server/data.rs:64-83 | A challenged server claims exactly when the frame that has arrived is that proof |
| DataImpostor.ReadyNeedsServer | src/client/data.rs:132-171 | Whoever the server is: a client that begins to forward has been sent exactly a challenge over its own hello that shows knowledge of the key, and DATA_READY |
| DataImpostor.ProofNeedsServer | src/client/data.rs:152-162 | Over every run a client has written nothing, its opening, or its opening and a proof after a genuine challenge |
| DataImpostor.ClientGoesOn | src/client/data.rs:142-170 | It proves itself exactly when a genuine challenge has arrived, and forwards exactly when DATA_READY has |
| ControlStranger.RegisterNeedsProof | src/server/control.rs:150-187 | The same for a registration, with the session id drawn along with the nonce |
| ControlStranger.RegisterExact | src/server/control.rs:172-187 | A challenged server goes on to register exactly when the frame that has arrived is that proof |
| ControlImpostor.RegisteredNeedsServer | src/client/control.rs:171-240 | Whoever the server is: a client that believes itself registered has been sent exactly a genuine challenge and a REGISTERED over this very handshake, with the port it asked for |
| ControlImpostor.ProofNeedsServer | src/client/control.rs:187-206 | A client never proves itself to a server that has not shown knowledge of the key |
| ControlImpostor.PeerReadsExact | src/client/control.rs:171-240 | Whatever has arrived: it waits for the rest, goes on with the frame it awaits, gives up with the code it is told, and takes anything else as a violation |
| Refusals.ControlRefusals | src/server/control.rs:150-187 | What each next frame of a control handshake leads to: on, or to which error code |
| Refusals.PreambleRefusals | src/server/mod.rs:113-133 | What each first eight bytes lead to |
| Refusals.DataRefusals | src/server/data.rs:31-83 | The same for a data handshake; a frame that cannot be read is not answered |
| DataHandshake.ForeignProofRefused | src/server/data.rs:70-78 | A proof made for any other claim is refused unless two different inputs collide |
| ControlHandshake.ProofAgreement | src/server/control.rs:150-187 | After the accepted proof both ends hold the same hello, session and transcript; a registered client has the port the server assigned |
| ControlHandshake.FirstFrameDecides | src/client/control.rs:211-248 | The client is registered exactly when the first frame queued after the proof is an acceptable REGISTERED; if that is an ERROR it fails with its code |
| RegistrySpec.LowestOwnedExact | src/server/registry.rs:479-487 | The least port owned by the instance, or that there is none |
| RegistryInvariant.ScanExact | src/server/registry.rs:491-505 | The least free bindable port; each failure says what ruled the ports out |
| RegistryInvariant.PlaceEffect | src/server/registry.rs:321-352 | A placement takes over an existing slot only for its instance or a Fresh request naming the port, and otherwise binds one new admissible port |
| RegistryInvariant.InstallIndexedExact | src/server/registry.rs:366-380 | Installing keeps the session index if and only if the id is unused or names the session being replaced |
| RegistryInvariant.RegisterKeeps | src/server/registry.rs:307-393 | Registration keeps the cross-table invariant |
| RegistryInvariant.SessionLostKeeps | src/server/registry.rs:628-656 | Losing a session keeps the invariant |
| RegistryInvariant.GoodbyeKeeps | src/server/registry.rs:658-679 | A goodbye keeps the invariant |
| RegistryInvariant.SweepKeeps | src/server/registry.rs:681-706 | A sweep keeps the invariant |
| RegistryInvariant.ShutdownKeeps | src/server/registry.rs:708-723 | Shutdown keeps the invariant |
| RegistryInvariant.AcceptKeeps | src/server/registry.rs:508-585 | Accepting a connection, on every return path, keeps the invariant |
| RegistryInvariant.ApplyKeeps | src/server/registry.rs:226-296 | Every command and every step of other tasks on shared handles keeps the invariant |
| RegistryTheorems.RegisterOutcome | src/server/registry.rs:307-393 | Success: the requester owns the port, the previous owner's session and requests are gone, everything else is as before |
| RegistryTheorems.AutomaticAllocation | src/server/registry.rs:475-506 | Own lowest port first, else the least free port of the range; the meaning of each refusal |
| RegistryTheorems.AutomaticIdempotent | src/server/registry.rs:475-487 | Asking again after a lost reply gives the same port and binds nothing |
| RegistryTheorems.PeekAgreesWithClaim | src/server/registry.rs:239-250 | Peek is true exactly when a claim at that moment would pass its checks |
| RegistryTheorems.RejectedClaimExact | src/server/registry.rs:587-622 | When a claim delivers, and the one case in which a rejected one consumes the request |
| RegistryTheorems.StaleMessage | src/server/registry.rs:251-288 | A message of a session no longer in the table changes nothing at all |
| RegistryTheorems.MessageIsolated | src/server/registry.rs:587-679 | A live session's messages leave all other tunnels untouched |
| RegistryTheorems.DefensiveBranchesDead | src/server/registry.rs:597-679 | In every reachable state losing a session, a goodbye and a claim do the same without their checks of slot, session and generation |
| RegistryTheorems.SlotDisappears | src/server/registry.rs:658-718 | A slot goes if and only if its owner says goodbye, a sweep finds it expired, or the server shuts down |
| RegistryTheorems.ListenerStays | src/server/registry.rs:434-471 | A slot keeps its listener through takeover, loss and resume; later binds get higher numbers |
| RegistryTheorems.OwnerChangeExact | src/server/registry.rs:327-378 | And such a registration from another instance always changes it |
| RegistryTheorems.OwnerChange | src/server/registry.rs:327-378 | A standing slot changes instance only by a Fresh registration naming its port |
| RegistryTheorems.ShutdownComplete | src/server/registry.rs:222-292 | Shutdown empties the tables, cancels every listener and data token ever made, and done twice is done once |
| RegistryTheorems.RunKeeps | src/server/registry.rs:208-223 | The invariant holds after every run |
| RegistryTheorems.Reachable | src/server/registry.rs:173-205 | In every reachable state: slot limits, no control port, no placeholder, listeners and registrations accounted for |
| RegistryTheorems.DeadStaysDead | src/server/registry.rs:628-664 | A used session id that has left the table never returns, and its messages change nothing for the rest of any run |
| RegistryTheorems.NoPingPong | src/server/registry.rs:327-378 | Over any run a port changes hands at most as often as somebody registers afresh for it by name |
| RegistryOutcomes.DisplacedOutcome | src/server/registry.rs:396-417 | The displaced client's forwarding stops at once; it is told REPLACED, then closed, its control token cancelled only later |
| RegistrySpec.FirstFreshExact | src/server/registry.rs:536-548 | The first drawn id not pending for the session, or none if all drawn ones are |
| RegistryOutcomes.AcceptExact | src/server/registry.rs:508-585 | Exactly when a connection is served, what it adds, and that only a full queue does anything else |
| RegistryOutcomes.ResumeExact | src/server/registry.rs:333-350 | Every outcome of a resume, by whether the port is held, by whom, and can be bound |
| RegistryOutcomes.FreshExact | src/server/registry.rs:327-352 | A Fresh request that names a port gets it whoever holds it, and is refused exactly for want of slots or by the machine |
| RegistryOutcomes.ReservationEndsExact | src/server/registry.rs:327-352 | Exactly which inputs end a reservation: a Fresh request naming the port, its own instance naming it or getting it as its lowest, a sweep after expiry, shutdown |
| RegistryOutcomes.ReservationHolds | src/server/registry.rs:333-344 | Over any run a reservation is kept throughout if and only if none of those comes; and then its instance resumes the port on the same listener |
| RegistryLaws.SessionLeavesExact | src/server/registry.rs:307-723 | For every input a session leaves the table, or changes, if and only if its own report, a registration given its port, an OPEN without room or shutdown ends it |
| RegistryLaws.RequestLeavesExact | src/server/registry.rs:260-706 | For every input a request leaves the table, or changes, if and only if its session ends, it is claimed in time, refused or finished, or a sweep finds its deadline come |
| RegistryLaws.RequestAppearsExact | src/server/registry.rs:508-585 | Requests come from accepts that go through alone, due the whole wait after the accept |
| RegistryLaws.SlotExact | src/server/registry.rs:307-723 | What becomes of a slot that stays: the newcomer's, reserved with its expiry, or as it was |
| RegistryLaws.NewcomersExact | src/server/registry.rs:354-393 | Sessions and slots come from registrations that succeed alone, one each |
| HandleLaws.RegisterHandles | src/server/registry.rs:354-417 | After any success the newcomer's queue is open and empty and its semaphore full; the displaced owner's queue gets REPLACED and the close, and no other is touched |
| HandleLaws.QueueExact | src/server/registry.rs:396-715 | For every input, exactly which frames a queue gets and in which order, as far as there is room |
| HandleLaws.TokensExact | src/server/registry.rs:396-723 | For every input, exactly which tokens are cancelled |
| HandleLaws.PermitsExact | src/server/registry.rs:527-584 | For every input, exactly which permits are taken and given back |
| RegistryInvariant.RegisterInvExact | src/server/registry.rs:307-393 | A registration keeps the invariant if and only if its session id, seen from the state it finds, is unused or names the owner of the very port it will get |
| RegistryQueues.RunInvExact | src/server/registry.rs:365-380 | Over any run the invariant holds throughout if and only if every registration that succeeds is such a one |
| RegistryQueues.RepeatedSessionBreaksIndex | src/server/registry.rs:380 | A repeated session id that breaks the invariant |
| RegistryQueues.QueueGrows | src/server/registry.rs:396-417 | The inputs that put a frame on a control connection's queue, exactly; only its own writer does anything else to it |
| FrameOrder.RegisteredFirstExact | src/server/control.rs:63-121 | After any registration, over any run, all writers at work: the queue begins empty, and nothing is put on it before REGISTERED if and only if nothing was accepted, displaced or shut down while its writer lived |
| FrameOrder.FramesInOrder | src/server/control.rs:188-222 | Over any run a writer sends the frames its queue was given, in order, and no others |
| RegistryQueues.OpenBeforeRegistered | src/server/control.rs:97-112 | A run in which OPEN precedes REGISTERED |
| RegistryActor.Registry.constructor | src/server/registry.rs:187-205 | The empty registry, valid |
| RegistryActor.Registry.BindSlot | src/server/registry.rs:434-471 | A failed bind changes nothing; a success adds one placeholder slot under the next listener number |
| RegistryActor.Registry.EnsureSlot | src/server/registry.rs:415-432 | As the function; refusals change nothing |
| RegistryActor.Registry.FindOwned | src/server/registry.rs:479-487 | The walk over the slots finds the least owned port |
| RegistryActor.Registry.BindFirstFree | src/server/registry.rs:491-505 | The loop binds the port the scan names, or changes nothing |
| RegistryActor.Registry.AllocateAutomatic | src/server/registry.rs:475-506 | As the function; refusals change nothing |
| RegistryActor.Registry.Register | src/server/registry.rs:307-393 | Every refusal leaves all tables and counters as they were; a success leaves the function's state |
| RegistryActor.Registry.TakeSlot | src/server/registry.rs:354-380 | The whole state after a new owner is installed |
| RegistryActor.Registry.Displace | src/server/registry.rs:396-417 | The whole state after an owner is displaced |
| RegistryActor.Registry.DropPendingFor | src/server/registry.rs:624-626 | Exactly the session's requests go |
| RegistryActor.Registry.AcceptPublic | src/server/registry.rs:508-585 | The whole state on every path; early returns give back the permits they took |
| RegistryActor.Registry.DrawRequest | src/server/registry.rs:536-548 | The loop returns the first unused draw |
| RegistryActor.Registry.OpenRequest | src/server/registry.rs:549-569 | OPEN queued and request stored, or the session failed and permits returned |
| RegistryActor.Registry.ClaimData | src/server/registry.rs:587-622 | The entry is taken out only after all checks; delivery depends on the receiver |
| RegistryActor.Registry.PeekData | src/server/registry.rs:239-250 | In a valid registry, the answer a claim would get |
| RegistryActor.Registry.SessionLost | src/server/registry.rs:628-656 | The whole state after a loss |
| RegistryActor.Registry.Goodbye | src/server/registry.rs:658-679 | The whole state after a goodbye |
| RegistryActor.Registry.Release | src/server/registry.rs:696-705 | The loop removes exactly the given slots and cancels exactly their listeners |
| RegistryActor.Registry.Sweep | src/server/registry.rs:681-706 | The whole state after a sweep |
| RegistryActor.Registry.NotifyAll | src/server/registry.rs:709-715 | Each live client gets the farewell once, whatever the iteration order |
| RegistryActor.Registry.ShutdownAll | src/server/registry.rs:708-723 | The whole state after shutdown |
| RegistryActor.Registry.HandleCommand | src/server/registry.rs:226-296 | Each command is its function, keeps the object valid, and only Shutdown stops the loop |
| RegistryActor.Registry.Serve | src/server/registry.rs:211-221 | The loop's state is that of the run of the inputs handled, up to the first Shutdown |
| RegistryActor.Registry.Run | src/server/registry.rs:208-223 | After the loop everything is shut down |
| TunnelPermits.NextKeeps | src/server/listener.rs:65-116 | Every event of actor, queue, tasks and connections keeps the books |
| TunnelPermits.PermitsConserved | src/server/registry.rs:527-584 | Over every interleaving free permits plus those of live tasks make the maximum, per registration and globally |
| TunnelPermits.PendingBound | src/server/registry.rs:562-583 | No event takes the number of unclaimed requests beyond 8192 + 1024 |
| TunnelPermits.PendingBoundAlways | src/server/registry.rs:27-33 | In every reachable state of the system at most 9216 requests are unclaimed |
| ServerRuns.PendingBoundReached | src/server/registry.rs:527-584 | A run of the server that ends with 9216 |
| TunnelPermits.NoOrphanTask | src/server/registry.rs:396-400 | A live task belongs to a current session or has been cancelled |
| TunnelRefines.RegistryUnderneath | src/server/registry.rs:208-296 | After any run of the system its registry is that after the run of its inputs, one that meets the registry's own assumptions |
| TunnelServes.PeekExact | src/server/registry.rs:239-250 | A hello is challenged if and only if its request is pending and in time |
| TunnelServes.ClaimDelivers | src/server/registry.rs:587-622 | A claim puts the socket into the task's channel if and only if the request is pending and in time and the task waits |
| TunnelServes.ConnectionIsServed | src/server/listener.rs:65-109 | A public connection to a live port, answered by a data connection that proves itself, ends up forwarded to it after DATA_READY |
| TunnelWakes.OpenFailedWakes | src/server/registry.rs:260-271 | After the client's refusal the request is gone, its task can give up at once, and no later claim over any run reaches it |
| TunnelWakes.ForgottenForGood | src/server/registry.rs:549-622 | A request that has gone undelivered stays so, over every run |
| TunnelWakes.UnservedOnlyFor | src/server/listener.rs:74-99 | A task gives up only once cancelled, out of time, left without a sender, or when DATA_READY cannot be written |
| TunnelReady.ReadyWasInTime | src/server/listener.rs:90-98 | Whenever DATA_READY is written the task has looked before and found its request in time and its session current |
| TunnelDelivery.SocketsClaim | src/server/data.rs:70-83 | A verified proof is followed by the connection's one claim, for the pair its hello named |
| TunnelDelivery.DeliverKeeps | src/server/registry.rs:610-616 | A delivered socket reaches the one task waiting for it |
| TunnelDelivery.NextDelivery | src/server/listener.rs:74-116 | Every event keeps delivery single and paired |
| TunnelDelivery.AtMostOnceEach | src/server/registry.rs:549-622 | Over every interleaving, whatever ids are drawn: each public connection gets at most one data socket and one DATA_READY, each data socket goes to at most one, correctly paired and proved |
| TunnelDelivery.AtMostOnce | src/server/registry.rs:549-622 | The same of each pair of session and request id, if none is drawn twice |
| TunnelClaims.WastedOnlyWhenCutOff | src/server/registry.rs:587-622 | In every reachable state a refused claim leaves the request pending unless its task has gone; then its session's data token is cancelled and its end not handled, or the deadline has passed since the clock was read |
| WastedClaim.RejectedYetConsumed | src/server/registry.rs:610-621 | A run of the server in which a proved claim in time uses up the request and delivers nothing, its session given up |
| WastedClaim.RejectedTooLate | src/server/registry.rs:593-621 | A run in which it does so with the session alive and no token cancelled, the deadline passing between the clock and the send |
| Gateway.DeliveredProof | src/server/data.rs:31-91 | Over every run with anyone sending anything: a socket handed to a public connection is one whose peer sent exactly preamble, hello for its own pair and the proof over a nonce drawn there; the rest is unread |
| Gateway.NextKeeps | src/server/data.rs:31-83 | What the registry knows of a data connection is what has arrived on it |
| TunnelDelivery.ForwardedPair | src/server/listener.rs:99-109 | A public connection is forwarded only to a data connection that proved the same pair, after its DATA_READY |
| TunnelMoves.NextSettles | src/server/registry.rs:508-706 | Apart from registrations and shutdown the system only loses sessions and reserves slots |
| TunnelMoves.EndStays | src/server/control.rs:134-142 | The end of a session that is still in the table cannot leave the queue unhandled |
| Sessions.RegistersFresh | src/server/control.rs:74-84 | Every registration the actor handles has a valid port and an id it has never seen |
| Sessions.TendedElsewhere | src/server/control.rs:111-142 | No event outside the handlers leaves a session without anyone to end it |
| Sessions.StepKeeps | src/server/control.rs:74-145 | Every step of handlers, actor and tasks keeps the server's invariant |
| Sessions.ServerIsTunnel | src/server/control.rs:74-145 | Every run of the server is a run of the system that meets its assumption on session ids |
| Sessions.NoLeakedSession | src/server/control.rs:111-142 | In every reachable state each session has a handler at work or its own end in the queue |
| Sessions.OneEndEach | src/server/control.rs:74-142 | A connection reports its session once, and its end at most once: a goodbye if and only if its session loop has dealt with a GOODBYE |
| HandlerEnds.HandlersMoveOn | src/server/control.rs:74-145 | In every reachable state each handler waits for an answer still to come, for room, or for its loop, and moves on when that comes |
| Drain.OverMeansWinding | src/server/control.rs:133-145 | With all connections over and commands handled: no session, no request, slots reserved with bounded expiry, tasks cut off |
| WayOut.TaskStepLowers | src/server/listener.rs:74-116 | Every step of a task other than a look leaves less to do |
| Drain.NeverStuck | src/server/listener.rs:74-116 | As long as a task or a report is left, some step of the server's own is there to deal with it |
| Drain.WindsDown | src/server/listener.rs:74-116 | However its own steps are taken, no more of them take effect than were left to do at first |
| Drain.EverythingGivenBack | src/server/registry.rs:681-706 | From there, in any order of its own steps: at rest exactly when no task and no report is left, and then, after a late enough sweep or once stopped, no slot, request, permit, listener or token is held |
| Client.AttemptConsistent | src/client/control.rs:59-106 | Each attempt keeps the memory consistent and never changes a remembered port |
| Client.PortStable | src/client/mod.rs:11-44 | Over any run every success prints the same port, the configured one if any; a registered client always remembers its port |
| Client.ResumesForever | src/client/control.rs:65-75 | Fresh until the first success, then only Resume of that port; every request is one the decoder accepts |
| Client.RefusalStops | src/client/control.rs:113-119 | Any refusal but a busy server ends the process without another request |
| Client.AttemptExact | src/client/control.rs:59-162 | One attempt in full: its effect on the memory, and how it ends, by the outcome; a broken, refused or late connection leaves everything as it was |
| Client.EndExact | src/client/mod.rs:20-43 | Over any run the process ends well if and only if some attempt was cancelled or its session ended so, and for good if and only if one met a fatal refusal, violation, reply or session |
| ClientSupervisor.Supervisor.Attempt | src/client/control.rs:59-106 | The attempt's field updates and its ending |
| ClientSupervisor.Supervisor.Run | src/client/mod.rs:20-43 | The loop's state is that of the run of attempts |
| ClientOpens.Setup | src/client/data.rs:71-128 | When a setup succeeds, and which failure is reported when, exactly; if it is never kept waiting, in terms of what the peers take alone |
| ClientOpens.HandleOpen | src/client/data.rs:36-64 | Cancellation wins whenever it comes no later than the setup settles |
| ClientOpens.NextKeeps | src/client/control.rs:322-352 | Every event keeps permits, jobs and reports in agreement |
| ClientOpens.OpensAccounted | src/client/control.rs:322-352 | Over any session each OPEN dealt with is in work or answered once, reported failed at most once, refused exactly when all permits are taken |
| ClientOpens.SetupsTakeEffect | src/client/control.rs:322-352 | While the session is open a setup that succeeds goes on to forward, one that fails is reported with its own reason, and an OPEN is taken on as long as a permit is free |
| ClientOpens.QuietAfterEnd | src/client/control.rs:393-395 | Once the session is over only failures that had happened before, and a refusal of the OPEN in hand, are still sent; every other request ends without a word |
| Takeover.TakeoversBounded | src/client/control.rs:65-75 | However clients, registrations on their way and the registry interleave, a port changes hands at most once per Fresh registration already on its way and per first attempt still begun |
| Takeover.SettledClientsNeverTakeOver | src/client/control.rs:65-75 | Once every client has registered and nothing sent before is on its way, reconnecting never takes a port |
| Takeover.SettledExact | src/client/control.rs:65-75 | Among settled clients a standing slot is certain to keep its owner if and only if no other instance has a Fresh registration for it on its way |
| Rivals.SettledYetTakenOver | src/client/control.rs:77-92 | A run in which a client that had given up waiting takes the port from its rival after both have registered |
| Heartbeat.SessionLoop | src/server/control.rs:237-324 | The loop over local variables computes the machine's exit, pings, pongs and what it hands on |
| Heartbeat.ExitExact | src/server/control.rs:253-318 | Over every run: clean on the server if and only if it dealt with a GOODBYE; on the client clean if and only if cancelled, and fatal if and only if it met a frame malformed or out of place or a fatal error |
| Heartbeat.AnswersExact | src/server/control.rs:284-304 | Every ping is answered with its own value, and every OPEN or OPEN_FAILED handed on, once each in order |
| Heartbeat.PingsSpaced | src/client/control.rs:272-309 | No ping is early: each is a whole interval after the one before |
| Heartbeat.Patient | src/client/control.rs:272-309 | A waiting ping is given the whole timeout from when it was sent |
| Heartbeat.FrameKeepsTimers | src/client/control.rs:321-388 | No frame but the matching pong touches the heartbeat |
| Heartbeat.OnlyMatchingPongClears | src/server/control.rs:293-298 | While a ping waits no other is sent, and only the pong with its value answers it |
| Heartbeat.StepOnWatch | src/server/control.rs:246-272 | Both timers stay within the bound counted from the last sign of life |
| Heartbeat.SilentSessionEnds | src/server/control.rs:247-272 | With prompt timers a session still going had a matching pong within interval + timeout |
| Heartbeat.SessionTheorem | src/client/control.rs:272-309 | From the start of a session: consecutive pings modulo 2^64, one outstanding at most, none early, each given the whole timeout, and the bound |

## Left out

- Sockets, DNS, signals, logging, standard output and the runtime: I/O without logic to prove; a bind is an answer per port, a socket a number or a byte sequence.
- Forwarding after DATA_READY: library code; only that no application byte is lost before it is modelled.
- Command line, configuration and address parsing: used only through the ranges they guarantee.
- Counter widths: generation and listener numbers are unbounded, so the overflow panic after 2^64 registrations is not modelled; ping sequence numbers wrap as in the program.
- Addresses tried one after the other within a dial: a dial is one attempt with one outcome.
- Server-side handshake permits and the handshake timeouts: a connection may end at any time in the model.
- Connections that end before registering: they leave no trace in the registry; their refusals are in the handshake machines.
- TunnelDelivery.AtMostOnce: needs request ids that do not repeat within a session, which the program leaves to randomness once a request is no longer pending; AtMostOnceEach does without.
- Drain.EverythingGivenBack: assumes that the steps left to do are taken in the end, which is the runtime's part.
- Heartbeat.SilentSessionEnds: assumes timers are served when due; a loop held up by a slow registry may end later.
- ClientSupervisor.Supervisor.Attempt: the request chosen is recorded even when the connection fails before sending it.
