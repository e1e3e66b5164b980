# Verification of the tunnel, replay, enrollment and maintenance cores

A Dafny model of the parts of the VibeConnect server and agent whose correctness spans several functions and several
coroutines, with proofs of what they promise. `dafny verify dfyconfig.toml` checks the whole project.

**The tunnel.** One framed connection per agent carries many SSH byte streams. The frame codec is modelled down to the
octets: UTF-8 (section 4 of RFC 3629), JSON text with `ensure_ascii` escapes (section 7 of RFC 8259), decimal lengths and
big-endian prefixes (`Text`, `Utf8`, `Json`, `JsonRoundTrip`, `Numbers`, `FrameCodec`, `FrameStream`). A round trip alone
would allow any other format as well, so `Formats` says what the octets and lines are, character by character, which
octets are accepted and with which error the others are refused. Python texts are sequences of code points, surrogates included; two separate code points that form a surrogate pair are the only texts that JSON does
not return, and every round trip is stated with that as its exact condition.

The broker is modelled twice. `BrokerSpec` gives each operation as a function on its tables; `ServerTunnel` has the
classes of `src/server/tunnel.py`, updated in place, each method proved to be the corresponding function. A step of
`BrokerSystem` is the code that a coroutine runs between two suspensions, so `close_session` is two steps between which
anything may happen; a run is any sequence of steps. `BrokerCalls` says of each call, on the tables and condition by
condition, when it is accepted, all that it then changes, and the error otherwise. On these runs rest the table invariant (`BrokerSystem`), exact
routing and isolation (`BrokerRouting`), and what each wire carries (`TunnelSimulation`, `TunnelOpenSet`,
`TunnelDelivery`, `ChannelData`).

The agent's dispatch is `AgentSpec`, on frames, and `AgentOctets` is its loop on octets: each frame is read under the
agent's own limit, which need not be the server's, then decoded, then dispatched. `TunnelOctets` puts the real codec
between the broker's runs and that loop and says exactly when the agent stays in step, for all channel ids and payloads;
the results on frames in `TunnelSimulation`, `TunnelOpenSet`, `TunnelOrder` and `TunnelDelivery` are steps on the way.
`TunnelTransport` is the asyncio transport with its tasks, and `TunnelEndToEnd` derives what the agent does and what its
sockets get from conditions on the calls alone: transports at the server's end, ids that decode to themselves and are not
overlong, payloads within the agent's limit. `TunnelConservation` runs both directions in one system, in which the agent
forwards for the channels that it has open and the readers of the streams take what has arrived, and
`ConservationOnOctets` puts the codec and the readers on both of them.
`TunnelExamples` has the runs that show where these promises end.

Assumptions are preconditions. Connection ids are fresh in `BrokerSystem.Enabled`; channel ids need to be fresh only for
routing (`BrokerRouting.FreshStep`); the peer is the repository's own agent, which never sends CLOSE_SESSION, only where
`TunnelOpenSet.FromOwnAgent` says so. The table results hold for any codec: `encodeError` tells which frames it refuses,
and `TunnelOctets.NewServer` has the real one, `BrokerSpec.CodecError`.

**Replay and sessions.** `ReplayFile` is the asciinema file and what reading it gives back, `ReplayCapture` the recorder
with every point at which the file system may raise, `JumpSession` the bridge, the session row and `start_jump`. HMAC is
an arbitrary function of the file.

**Enrollment.** `RateLimiter` relates the lazily pruned deques to the full history of failures and bounds what gets
through, also when enrollments overlap (`ConcurrentEnrolls`); `Enrollment` is the token store under interleaved
enrollments. Token hashes and agent ids are fresh.

**Smaller cores.** `Migrations` (runs interrupted between or inside transactions), `Reconnect` (the agent's loop and
backoff over the reals) and `SecretScrub` (recursive redaction, with `str.lower` an arbitrary function).

Some promises turn out to hold only under a condition, which is then proved exactly, beside a case that fails:

- Identifiers survive the codec if and only if they hold no separate surrogate pair (`FrameCodec.RoundTrip`; failing:
  `FrameCodec.PairExample`).
- The agent stays in step with its octets if and only if no frame is one that it mistakes (`TunnelOctets.AgentsInStepIff`;
  failing: two ids that decode to one in `TunnelExamples.FusedIdsFailAgent`, a payload over the agent's 1 MiB, which the
  server's configuration allows, in `LargePayloadFailsAgent`, and data between the halves of a close in
  `LateDataFailsAgent`). Transports, plain ids and small payloads exclude all three.
- The wire announces the server's open channels if and only if no `open_session` passes its checks and then cannot be
  encoded (`TunnelOpenSet.OpenSetKeptIff`; failing: `TunnelExamples.StrandedOpen`). Short ids exclude it.
- `close` on a transport keeps all that was written if and only if no write was waiting
  (`TunnelTransport.CloseKeepsAllIff`; failing: `CloseLosesWrite`). After a first failed write, what is sent is a first
  part of what was written if and only if every write that runs before the close raises too (`FailureLeavesNoGapIff`;
  failing: `FailedWriteLeavesGap`).
- A session row leaves `open` if and only if the replay lets the first close through and the update is reached
  (`JumpSession.FirstCloseDecides`; failing: `BrokenRecordingStaysOpen`, because `close` marks the bridge closed before
  `replay.close` raises).
- The limiter's deque counts the window exactly if and only if no stale failure stands behind a fresh one
  (`RateLimiter.RunsCountWindow`; failing: `OutOfOrderOvercounts`), and a clock that goes back makes it undercount if and
  only if a failure was dropped that counts again (`BackwardClockIff`; failing: `BackwardClockUndercounts`).

## Model

| member | source | states |
|---|---|---|
| Text.MergePairsFixed | src/vibeconnect_common/tunnel.py:51-58 | JSON reading changes a text exactly when it holds two separate code points that form a surrogate pair |
| Utf8.DecodeOfEncode | src/vibeconnect_common/tunnel.py:57-59 | Strict UTF-8: whatever encodes decodes to the same text |
| Utf8.DecodeFirstComplete | src/vibeconnect_common/tunnel.py:77-79 | The strict decoder accepts a character's octets if and only if they are the encoding of a scalar value (no overlong forms, no surrogates) |
| Utf8.EncodeEscapeOfDecodeEscape | src/server/jump.py:790-791 | Any octets, valid UTF-8 or not, come back from the text that `surrogateescape` makes of them |
| Utf8.DecodeEscapeHasNoPair | src/server/jump.py:790-791 | Decoded PTY text never holds a surrogate pair, so JSON cannot alter it |
| JsonRoundTrip.ScanStringOfEscapeAll | src/vibeconnect_common/replay.py:132 | A string's `ensure_ascii` escapes scan back to the string, pairs fused, whatever follows it |
| JsonRoundTrip.ScanNumberOfPrintInt | src/vibeconnect_common/tunnel.py:51-58 | Every integer, negative ones included, prints to decimal text that scans back to it |
| JsonRoundTrip.LoadsOfDumps | src/vibeconnect_common/tunnel.py:57-59 | `json.loads` of `json.dumps` gives back every JSON value at any depth, with surrogate pairs in its strings fused |
| JsonRoundTrip.NothingFollows | src/vibeconnect_common/tunnel.py:77-79 | After a printed value `json.loads` accepts white space and nothing else |
| Numbers.FloatTextIff | src/vibeconnect_common/replay.py:132 | A text is read whole as a float if and only if it is `NaN`, `Infinity`, `-Infinity` or a number of section 6 of RFC 8259 with a fraction or an exponent; these are the floats of every round trip |
| Numbers.NumberIsRead | src/vibeconnect_common/tunnel.py:77-79 | Every number of that grammar is read whole, as the integer of its digits if it has neither fraction nor exponent |
| Formats.StringsAreStrict | src/vibeconnect_common/tunnel.py:77-79 | A string is refused exactly at a control character or at a backslash that begins none of the nine escapes |
| Formats.ShortEscapes | src/vibeconnect_common/tunnel.py:57-59 | The seven short escapes that are written; printable ASCII otherwise stands for itself |
| Formats.Utf8Form | src/vibeconnect_common/tunnel.py:57-59 | UTF-8 has the octets of the examples in section 7 of RFC 3629, and one to four of them at the boundaries of section 3 |
| Formats.EscapedOctet | src/server/jump.py:790-791 | An octet that begins no character becomes U+DC00 plus the octet |
| JsonRoundTrip.StringRoundTrip | src/vibeconnect_common/tunnel.py:57-59 | A string survives JSON if and only if it holds no separate surrogate pair |
| JsonRoundTrip.DumpsPrintable | src/vibeconnect_common/replay.py:132-138 | Printed JSON is printable ASCII: it holds no newline and encoding it never fails |
| FrameCodec.TypeFromNameOfTypeName | src/vibeconnect_common/tunnel.py:162-168 | Frame types have distinct names, each read back as itself |
| FrameCodec.TypeFromNameIff | src/vibeconnect_common/tunnel.py:162-168 | A text is read as a frame type if and only if it is the name of that type |
| Formats.TypeNames | src/vibeconnect_common/models.py:44-56 | The ten names, text by text |
| Formats.EncodeFrameIff | src/vibeconnect_common/tunnel.py:38-61 | A frame is encoded if and only if the limit is positive, the payload within it, the request id not empty and the header at most 16384 octets; then to a big-endian length, the header and the payload; otherwise with the error of the first failing check |
| Formats.HeaderText | src/vibeconnect_common/tunnel.py:51-59 | For plain identifiers, the header is this text: four keys in sorted order without spaces, the length in decimal, a missing channel as null |
| Formats.DecodeFrameIff | src/vibeconnect_common/tunnel.py:64-106 | Octets decode to a frame if and only if they are a big-endian length of 1 to 16384, that many octets of strict UTF-8 for a JSON object whose four fields say this frame, and exactly the payload, within the limit |
| Formats.DecodeErrorIs | src/vibeconnect_common/tunnel.py:68-97 | Which error refuses which octets: length missing, invalid or cut header, no JSON, no object, then the fields, then a payload of another length |
| Formats.TypeErrorIs | src/vibeconnect_common/tunnel.py:162-168 | A header is first refused for a type that is no text or no known name |
| Formats.HeaderErrorIs | src/vibeconnect_common/tunnel.py:84-93 | Then for the first of the other fields that is wrong, in the order of the code |
| FrameCodec.DecodeOfEncode | src/vibeconnect_common/tunnel.py:38-106 | Whatever `encode_frame` accepts, `decode_frame` accepts, with the same type, payload and identifiers (pairs fused) |
| FrameCodec.RoundTrip | src/vibeconnect_common/tunnel.py:38-106 | The round trip is exact if and only if neither identifier holds a separate surrogate pair; so always for texts of Unicode scalar values |
| FrameCodec.PairExample | src/vibeconnect_common/tunnel.py:51-58 | A concrete request id that does not come back |
| FrameCodec.ShortIdsFit | src/vibeconnect_common/tunnel.py:60-61 | Identifiers of at most 300 characters always fit the header bound, whatever they contain |
| FrameStream.StreamReader.ReadExactly | src/server/tunnel.py:52-53 | `readexactly`: the first n octets, or an error that takes what is left |
| FrameStream.ServerReadOneFrame | src/server/tunnel.py:951-973 | The server's reader, octet by octet, returns the frame and leaves the stream exactly where its specification says |
| FrameStream.AgentReadOneFrame | src/agent/tunnel.py:220-251 | The agent's reader likewise, with end of file between frames as a clean end |
| Formats.ServerWaitsIff | src/server/tunnel.py:951-970 | At the end of the stream the server's reader says so if and only if a header or an acceptable payload was still to come; everything else it has refused already |
| Formats.AgentWaitsIff | src/agent/tunnel.py:220-235 | The agent's reader likewise; a clean end is exactly no octets, and one to three octets are an error of their own |
| Formats.ReaderErrors | src/agent/tunnel.py:228-251 | Why each reader refuses a frame whose header has come: the same reasons, except that only the agent tells a negative length from a large one |
| FrameStream.ServerReadIsDecode | src/server/tunnel.py:951-973 | Reading piecemeal gives a frame if and only if `decode_frame` accepts exactly the octets taken |
| FrameStream.PrefixFree | src/vibeconnect_common/tunnel.py:64-106 | No octets that `decode_frame` accepts are a proper prefix of others that it accepts |
| FrameStream.FrameCost | src/server/tunnel.py:954-970 | A frame that is read costs at most 4 + 16384 + max_frame_bytes octets |
| FrameStream.ReadersAgree | src/agent/tunnel.py:220-251 | The two readers accept the same frames and take the same octets |
| FrameStream.MismatchUnreachable | src/vibeconnect_common/tunnel.py:68-97 | Neither reader can make `decode_frame` report a length mismatch or a missing or cut header |
| FrameStream.ReadAllOfEncodeAll | src/server/tunnel.py:951-973 | Any list of encoded frames, concatenated, is read back as exactly that list |
| FrameStream.TruncatedFrame | src/server/tunnel.py:951-973 | A frame cut short anywhere reads as an ended stream |
| BrokerSystem.StepKeepsInv | src/server/tunnel.py:657-883 | Whatever step any coroutine takes, the four tables keep agreeing: registry and connections equal, adapters equal open channels, open and retired disjoint, at most max_sessions, every route to a live adapter |
| BrokerSystem.After | src/server/tunnel.py:657-883 | The invariant holds after every run of steps, a drop or second close inside `close_session` included |
| BrokerSystem.LookupsNeverFail | src/server/tunnel.py:821-859 | None of the broker's dictionary lookups ever raises KeyError |
| BrokerSystem.RetireKeepsInv | src/server/tunnel.py:861-870 | Retiring through a connection object that was dropped or replaced in the meantime is harmless |
| BrokerSystem.NonOwnerDrop | src/server/tunnel.py:872-883 | `_drop_connection` by a handler that does not own the agent's slot leaves the whole broker unchanged |
| BrokerCalls.OpenIffAdmitted | src/server/tunnel.py:727-767 | The tables change if and only if the principal matches, the host key is pinned, the channel id is not empty, the agent is connected with a fresh heartbeat, the id is neither open nor retired there, and fewer than max_sessions are open; otherwise the call changes nothing and raises |
| BrokerCalls.OpenEffect | src/server/tunnel.py:727-767 | What an admitted call changes: the id is open, with an adapter, an empty stream and a route, and exactly the OPEN frame follows on that agent's wire; all else stays, and only the frame is missing if it cannot be encoded |
| BrokerCalls.OpenErrors | src/server/tunnel.py:738-748 | Every refusal has the error of the first condition that fails, in the order of the code |
| BrokerCalls.RegisterEffect | src/server/tunnel.py:680-705 | Registration: the two refusals, and the new connection with its two table entries and AUTH_OK on its wire |
| BrokerCalls.SendEffect | src/server/tunnel.py:777-819 | Data, resize and the first half of a close write exactly one frame, with the call's type, ids and payload, on the routed agent's wire, or raise and change nothing |
| BrokerCalls.SendSteps | src/server/tunnel.py:777-819 | Each of the three calls writes its own type of frame; only a close that was written holds a channel to retire |
| BrokerCalls.StreamCloseEffect | src/server/tunnel.py:166-170 | Closing a stream marks it and closes its session, once; a second call does nothing |
| BrokerCalls.CloseEndEffect | src/server/tunnel.py:861-870 | The second half of a close moves the channel from open to retired with its adapter and route gone, or finds it retired already |
| BrokerCalls.AgentFrameEffect | src/server/tunnel.py:821-843 | What each frame of an agent changes, and each error, for open channels and others |
| BrokerCalls.ErrorFrameEffect | src/server/tunnel.py:997-1008 | The ERROR frame goes out under its own limit of 1 MiB, or nothing does |
| BrokerCalls.DropEffect | src/server/tunnel.py:872-883 | A drop by the owner takes slot and routes and ends the open streams with their buffers kept; any other takes nothing |
| BrokerCalls.ReadEffect | src/server/tunnel.py:142-154 | A read takes the octets asked for, or all if there are fewer or the count is negative, from the front of one buffer and changes nothing else |
| BrokerRouting.StepKeepsRouting | src/server/tunnel.py:727-883 | With channel ids never used before, every step keeps the routing exact and channel ids on one connection each |
| BrokerRouting.RoutesAreInverse | src/server/tunnel.py:855-870 | A channel is routed to an agent if and only if that agent's live connection holds its adapter |
| BrokerRouting.RoutingTableSize | src/server/tunnel.py:727-883 | The routing table has exactly one entry per open channel of a live connection, so at most max_sessions times the connections |
| BrokerRouting.RoutesExactInEveryRun | src/server/jump.py:417 | The same from an empty broker over every run |
| BrokerRouting.AgentsIsolated | src/server/tunnel.py:727-883 | No step for one agent changes another's connections, channels, buffers, wire, slot or routes |
| BrokerRouting.OwnerDrop | src/server/tunnel.py:872-883 | The owner's drop frees the slot, removes exactly the agent's routes, and ends every open stream with its buffer kept |
| AgentSpec.AgentTunnel.Dispatch | src/agent/tunnel.py:160-211 | One turn of the agent's loop, type by type and whatever fails around it (forwarders, connecting, local and tunnel writes, closing): the new channel map and the answer, or the error and the map that it leaves |
| AgentOctets.HandleAgentTunnelStream | src/agent/tunnel.py:146-217 | The loop on the octets of the tunnel, read under the agent's limit, decoded and dispatched, among forwarders and local connections that may fail at any turn: it ends and answers heartbeats as the specified recursion |
| AgentOctets.LoopInOnFrame | src/agent/tunnel.py:158-211 | A frame within the limit takes one turn of the loop, a heartbeat is answered in it, and an error ends the loop there |
| AgentOctets.LoopInAtEnd | src/agent/tunnel.py:146-217 | At end of file the loop returns, unless a forwarder had failed or closing a local connection fails |
| AgentOctets.LoopInFine | src/agent/tunnel.py:158-217 | Where nothing outside the protocol fails, how the loop ends is decided by the octets alone |
| AgentOctets.LoopMore | src/agent/tunnel.py:158-217 | Octets handled to the end may be followed by more; an error is final; a frame cut short only waits |
| AgentOctets.CutIsSafe | src/agent/tunnel.py:220-235 | Wherever the agent is within octets that it can handle, it has raised nothing |
| AgentOctets.LoopOfWire | src/agent/tunnel.py:158-217 | On the octets of any wire the loop does, frame by frame, what it does with the decoded frames that are within its limit |
| TunnelSimulation.StepWire | src/server/tunnel.py:657-883 | Exactly what each broker step adds to each agent's wire, and that no channel is ever forgotten |
| TunnelOctets.LoopIsReplayIff | src/agent/tunnel.py:158-217 | For wires shaped like the broker's (a CLOSE after its OPEN, no channel id on control frames) on which the loop on frames keeps running: the loop on their octets is that loop, at every point, if and only if every channel id holds no separate surrogate pair and every payload is within the agent's limit |
| TunnelOctets.InStepAppend | src/agent/tunnel.py:177-211 | One more frame keeps the agent in step with the octets if and only if the agent does not mistake it: payload over its limit, an opened id that decodes to another, data that decodes to no announced channel, a close that decodes to another's |
| TunnelOctets.AgentsInStepIff | src/agent/tunnel.py:158-217 | For every run of a new server with the real codec, all ids and payloads: every agent runs with exactly the announced channels at every moment if and only if no step writes a frame that the agent mistakes |
| TunnelEndToEnd.AgentFailsOnOctetsIff | src/agent/tunnel.py:177-207 | With plain channel ids, over every run: some agent raises on its octets, other than for the server's ERROR, if and only if some step writes a frame over the agent's limit or for a channel not announced |
| TunnelExamples.LateDataFailsAgent | src/server/tunnel.py:777-819 | A run that ends in the agent's unknown-channel error: data between the two halves of a close |
| TunnelExamples.FusedIdsFailAgent | src/agent/tunnel.py:177-180 | An orderly run whose two channel ids decode to one: the agent would take its frames, and rejects its octets |
| TunnelExamples.LargePayloadFailsAgent | src/agent/main.py:152-157 | A server configured for 16 MiB sends 2 MiB: the agent, which reads with 1 MiB, raises |
| TunnelOpenSet.OpenSetKeptIff | src/server/tunnel.py:742-767 | With the repository's own agent, a step keeps the open channels, the retired ones and the suspended closes as the wire says if and only if it is not an `open_session` that passes its checks and cannot be encoded |
| TunnelExamples.StrandedOpen | src/server/tunnel.py:748-767 | A run with such an `open_session`: the channel stays open on the server and no frame announced it |
| TunnelEndToEnd.OrdinaryIsOwn | src/server/tunnel.py:727-767 | Ids of at most 300 characters and payloads within the configured limit rule that case out over every run |
| TunnelOpenSet.AnnouncedIsOpen | src/server/tunnel.py:727-819 | The wire announces exactly the server's open channels, less those whose CLOSE is written |
| TunnelEndToEnd.AgentTracksServerOnOctets | src/server/tunnel.py:727-819 | Over every clean run with plain ids and payloads within the agent's limit: at every octet the agent has raised nothing, and the octets in flight lead it to the server's open channels less the closing ones |
| TunnelOrder.OrderlyRunIsClean | src/server/tunnel.py:777-819 | If no data or resize call follows a close call on its channel, no step of the run is late |
| TunnelEndToEnd.TransportsKeepAgentInStepOnOctets | src/server/tunnel.py:224-254 | From conditions on the calls alone, transports under any schedule, short and plain ids, payloads within the limit: no frame is late, the agent raises nothing, follows the server's open channels, its sockets get what was sent, and a socket that it closes has been given all of it |
| TunnelTransport.BrokerTunnelTransport.Write | src/server/tunnel.py:224-230 | A write becomes a task unless the transport is closing or there is nothing to send |
| TunnelTransport.BrokerTunnelTransport.Close | src/server/tunnel.py:232-243 | The first close creates its task and then cancels every write that has not run, in place; later ones do nothing |
| TunnelTransport.BrokerTunnelTransport.WriteDone | src/server/tunnel.py:245-250 | A write that raised closes the transport |
| TunnelTransport.BrokerTunnelTransport.Run | src/server/tunnel.py:156-170 | The first step of a task: a cancelled write sends nothing, and a stream is closed at most once |
| TunnelTransport.EndOfStreamStops | src/server/tunnel.py:286-305 | After the end of the stream writes and closes come to nothing, and what waits is left as it is |
| TunnelTransport.FeedEofStops | src/server/tunnel.py:166-198 | A stream that the broker has ended is not closed once more |
| TunnelTransport.NothingAfterClose | src/server/tunnel.py:224-254 | In whatever order the event loop runs the tasks, nothing is sent after the close, and it is sent at most once |
| TunnelTransport.WritesSentInOrder | src/server/tunnel.py:224-254 | With a first-in first-out loop and no write error, what is sent is a prefix of what was written; before `close`, the rest is exactly what waits |
| TunnelTransport.CloseDropsWaiting | src/server/tunnel.py:232-243 | After `close`, no further payload is ever handed to the broker |
| TunnelTransport.CloseKeepsAllIff | src/server/tunnel.py:232-243 | `close` loses nothing that was written if and only if no write was waiting |
| TunnelTransport.CloseLosesWrite | src/server/tunnel.py:232-243 | A run that loses a payload: one write waiting when `close` is called |
| TunnelTransport.SegmentOfWrittenIff | src/server/tunnel.py:224-254 | After any write errors, the payloads sent are the first ones written, position by position, if and only if no accepted write follows a failed one |
| TunnelTransport.FailureLeavesNoGapIff | src/server/tunnel.py:224-254 | With a first-in first-out loop, from the first write that raises: what is sent stays a first part of what was written if and only if every write that runs before the close raises as well; so always when none runs between |
| TunnelTransport.FailedWriteLeavesGap | src/server/tunnel.py:245-250 | A run in which they are not: a failed write and an accepted one queued behind it |
| TunnelConservation.NetStepKeeps | src/agent/tunnel.py:254-272 | Every step of brokers, agents, forwarders of channels that the agent has open, heartbeats, deliveries and reads keeps every channel's books balanced |
| TunnelConservation.BytesConserved | src/server/tunnel.py:142-154 | On frames, over every run of both directions together: bytes given to readers plus the buffer are a prefix of what the agent read locally, and with the payloads in flight all of it while the channel is open; what a socket was given plus the payloads not yet dispatched is what the wire carries |
| TunnelConservation.ReadGives | src/server/tunnel.py:142-154 | In every state of both directions, a read of at least one octet comes back empty only at the end of the stream, and otherwise gives the first octets that have arrived |
| TunnelConservation.ReadingOnGivesAll | src/server/tunnel.py:286-291 | Any reads one after another, of any sizes but zero: what they give is what had arrived, in order, and as many reads as there are octets give all of it |
| TunnelConservation.AllCanBeRead | src/server/tunnel.py:142-154 | From every state, while a channel is open and nothing of it was lost, the run can go on so that its reader has been given exactly what the agent read from its socket |
| ConservationOnOctets.LinkReadsBackIff | src/server/tunnel.py:951-973 | From the octets of any frames that were encoded, a reader gets every frame and then the end if and only if no payload is over its limit |
| ConservationOnOctets.DeliverIsRead | src/server/tunnel.py:706-718 | What the server reads at the head of a link's octets, handled, does what the oldest frame does, and leaves the octets of the rest |
| ConservationOnOctets.BytesConservedOnOctets | src/agent/tunnel.py:254-272 | On octets, over every run with the real codec, plain ids, calls within the agent's limit, local chunks of at most 65536 and a server limit of at least that: upwards the server reads the octets in flight to their end, and given, buffered and decoded data are what the agent read locally while the channel is open; downwards what the socket was given and what the octets in flight decode to are all that the wire holds |
| TunnelDelivery.ClosedSocketGotAll | src/agent/tunnel.py:202-211 | When the agent comes to the CLOSE of a channel, its socket has been given all the data that the wire ever carries for it |
| TunnelDelivery.LocalBytes | src/agent/tunnel.py:195-201 | What each local socket was given plus the payloads in flight for it is what the wire carries for that channel |
| TunnelDelivery.WireCarriesCalls | src/server/tunnel.py:777-788 | Over every run, a channel's data on the wire is exactly the payloads of its accepted `send_data` calls, in call order |
| TunnelEndToEnd.BytesReachTheirSocketOnOctets | src/agent/tunnel.py:195-201 | Over every clean run with fitting calls, through the octets: bytes given to a local socket plus those in flight are what the accepted `send_data` calls sent, and at its CLOSE it has been given all of them |
| ServerTunnel.ActiveTunnelRegistry.Connect | src/server/tunnel.py:487-492 | A slot is taken unless another connection owns it |
| ServerTunnel.ActiveTunnelRegistry.Disconnect | src/server/tunnel.py:494-497 | A slot is freed only by its owner |
| ServerTunnel.TunnelChannelRegistry.OpenChannel | src/server/tunnel.py:515-523 | A channel opens unless its id is empty, in use, retired, or the sessions are used up |
| ServerTunnel.TunnelChannelRegistry.CloseChannel | src/server/tunnel.py:525-530 | A closed channel is retired for good |
| ServerTunnel.ApplyChannelFrame | src/server/tunnel.py:927-948 | The registry's new state and error for every type of frame |
| ServerTunnel.BrokerTunnelConnection.Read | src/server/tunnel.py:142-154 | A read gives all that is buffered if the count is negative or not less, and otherwise exactly that many octets; what it leaves is the rest, the end-of-stream mark and every other channel stay |
| ServerTunnel.BrokerTunnelConnection.EndAll | src/server/tunnel.py:879-880 | The loop marks exactly the streams with adapters |
| ServerTunnel.ServerTunnelBroker.Write | src/server/tunnel.py:976-994 | The frame is on that connection's wire, or encoding raised and nothing changed |
| ServerTunnel.ServerTunnelBroker.Admit | src/server/tunnel.py:680-705 | Registration on the objects is the specified step on the tables |
| ServerTunnel.ServerTunnelBroker.OpenSession | src/server/tunnel.py:727-767 | When it opens, condition by condition on the fields; the tables and the wire then; the error of the first condition that fails; a refused call leaves every object as it was |
| ServerTunnel.ServerTunnelBroker.RequireChannel | src/server/tunnel.py:855-859 | The connection object found is the one that the tables name |
| ServerTunnel.ServerTunnelBroker.Send | src/server/tunnel.py:777-806 | Data and resize on the objects are the specified step |
| ServerTunnel.ServerTunnelBroker.BeginClose | src/server/tunnel.py:808-818 | The first half of a close writes CLOSE and holds on to its connection object |
| ServerTunnel.ServerTunnelBroker.RetireChannel | src/server/tunnel.py:861-870 | The second half retires on the held object, registered or not |
| ServerTunnel.ServerTunnelBroker.HandleAgentFrame | src/server/tunnel.py:821-843 | An agent's frame changes the objects as specified, for every type of frame and every error |
| ServerTunnel.ServerTunnelBroker.DropConnection | src/server/tunnel.py:872-883 | Teardown on the objects, its two loops included, is the specified step |
| ReplayFile.ReadOfFile | src/vibeconnect_common/replay.py:78-85 | Splitting a replay file on newlines and parsing each line gives the header and all events in order, pairs in texts fused |
| ReplayFile.HeaderReads | src/vibeconnect_common/replay.py:78-85 | The header's five members are read back under their names, the node's name with surrogate pairs fused |
| Formats.ReplayHeaderText | src/vibeconnect_common/replay.py:78-85 | For a plain node name, the first line is this text: version 2, command, width, height and timestamp in that order without spaces |
| Formats.EventText | src/vibeconnect_common/replay.py:128-138 | For plain output, an event's line is `[seconds,"o" or "i","text"]` without spaces |
| ReplayFile.TextsExactIff | src/vibeconnect_common/replay.py:128-138 | Recorded texts come back unchanged if and only if none holds a separate surrogate pair |
| ReplayFile.PlaybackOfFile | src/server/jump.py:601-614 | For all PTY payloads, cut inside characters or not UTF-8 at all, re-encoding the text of each event gives the exact bytes |
| ReplayFile.FilesDiffer | src/vibeconnect_common/replay.py:122-126 | Two different recordings never share a file, so an integrity code covers every event |
| ReplayFile.FileAppend | src/vibeconnect_common/replay.py:137-138 | One event more is one line more at the end |
| ReplayCapture.ReplayRecorder.constructor | src/vibeconnect_common/replay.py:56-85 | A new recorder's file is the line of the header's five fields |
| ReplayCapture.ReplayRecorder.Record | src/vibeconnect_common/replay.py:128-135 | A recorded event is appended; a write error, even part way through a line, fails the recorder |
| ReplayCapture.ReplayRecorder.Fail | src/vibeconnect_common/replay.py:95-110 | Failing closes and discards the temporary file and reports once; an error in closing the file escapes first |
| ReplayCapture.ReplayRecorder.Close | src/vibeconnect_common/replay.py:112-126 | Closing publishes and returns a code that verifies, or raises at the step that failed |
| ReplayCapture.RecordKeeps | src/vibeconnect_common/replay.py:128-138 | While open, the file is the header and every line recorded so far, in call order; a record on an open recorder either adds its line or fails the recorder, and on a closed one changes nothing |
| ReplayCapture.ClosePublishes | src/vibeconnect_common/replay.py:112-126 | `close` succeeds exactly when the recorder is open and no call raises; the code is that of the header and all lines |
| ReplayCapture.FailKeeps | src/vibeconnect_common/replay.py:95-110 | A failed recorder never publishes |
| JumpSession.StepKeeps | src/server/jump.py:601-667 | Every recording, close and row update keeps the row true to the replay |
| JumpSession.RowIsFinal | src/server/jump.py:227-236 | A row leaves `open` at most once, whatever is called afterwards |
| JumpSession.RowsTellTheTruth | src/server/jump.py:627-667 | Over every run: a closed row carries the code of the published file, which plays back to the recorded bytes in call order; failed and terminated rows have none |
| JumpSession.FirstCloseDecides | src/server/jump.py:627-667 | The row leaves `open` if and only if the replay lets the first close through and its update is reached; so a session whose recording broke stays open when closed normally |
| JumpSession.BrokenRecordingStaysOpen | src/server/jump.py:636-645 | A session whose row stays open for ever: a write of its recording fails part way and it is closed normally |
| JumpSession.SessionTable.CloseSession | src/server/jump.py:216-242 | The update touches a row only while it is open |
| JumpSession.JumpPtyBridge.OnPayload | src/server/jump.py:601-614 | The payload is recorded, or the bridge is closed or the recorder fails |
| JumpSession.JumpPtyBridge.Close | src/server/jump.py:627-650 | The first part of `close`, on the recorder object |
| JumpSession.JumpPtyBridge.Finish | src/server/jump.py:651-667 | The second part, on the table, other rows untouched |
| JumpSession.ServerJumpCoordinator.StartJump | src/server/jump.py:344-456 | Over the collaborators' replies: the row exists if and only if the first five are fine, the jump starts if and only if all nine are, and each refusal is a JumpError or another error as given; every JumpError after the row exists leaves the row failed and any recorder failed; other rows stay |
| RateLimiter.EnrollmentRateLimiter.Count | src/server/enrollment.py:375-379 | The loop drops exactly the stale front of the deque |
| RateLimiter.EnrollmentRateLimiter.IsLimited | src/server/enrollment.py:358-366 | Limited if and only if a threshold is reached by what is left of its deque in the window; the token's deque is pruned only if the source is below its own |
| RateLimiter.RunsCountWindow | src/server/enrollment.py:358-379 | After any interleaving of queries and appends, out of order or not, a query not earlier than those before it never undercounts the full history, and counts it exactly if and only if nothing stale stands behind a fresh failure; so always for appends in order |
| RateLimiter.OutOfOrderOvercounts | src/server/enrollment.py:368-379 | A run in which it overcounts: a stale append behind a fresh one |
| RateLimiter.BackwardClockIff | src/server/enrollment.py:375-379 | For sorted appends and a clock that does anything: a query does not undercount if and only if every failure already dropped is stale for it |
| RateLimiter.BackwardClockUndercounts | src/server/enrollment.py:375-379 | A run in which it undercounts: a query at an earlier instant than the one before |
| RateLimiter.FailuresPerWindow | src/server/enrollment.py:454-533 | Over all runs of enrollments one after another, no half-open window holds more failed attempts that reached the store than the threshold, per source and per token hash |
| RateLimiter.LetThroughIff | src/server/enrollment.py:454-533 | After every run of enrollments one after another, the limiter lets an attempt through if and only if the log holds fewer failures than the thresholds in the window before it, of its source and of its token hash |
| ConcurrentEnrolls.FailuresPerWindowConcurrent | src/server/enrollment.py:454-533 | With up to n enrollments between check and outcome at a time, in any interleaving, no half-open window holds more such failures than the threshold and n - 1 together |
| ConcurrentEnrolls.ConcurrentBoundIsReached | src/server/enrollment.py:454-533 | That bound is exact: for every threshold, window and n, a run that reaches it |
| Enrollment.InMemoryEnrollmentStore.CreateEnrollmentToken | src/server/enrollment.py:279-306 | The loop disables exactly the node's active tokens, the new one is inserted active, and nothing else changes |
| Enrollment.InMemoryEnrollmentStore.ConsumeEnrollmentToken | src/server/enrollment.py:308-333 | A record is given if and only if the token is there, is the node's, is neither used nor disabled, and expires after now; it has the token's particulars, the token is then used, and nothing else ever changes |
| Enrollment.StepKeeps | src/server/enrollment.py:279-338 | Any interleaving of creates, consumes and persists keeps the invariant |
| Enrollment.NeverActiveAgain | src/server/enrollment.py:285-333 | A used or disabled token is never active again and keeps its particulars |
| Enrollment.AtMostOneWinner | src/server/enrollment.py:308-325 | Of any number of enrollments with one token, at most one wins |
| Enrollment.ConsumeWinsIff | src/server/enrollment.py:308-333 | An enrollment gets its token if and only if the token is the node's, active and unexpired; so the first to try in time does win |
| Enrollment.PersistIff | src/server/enrollment.py:481-506 | It ends with an agent, who has the token's node, labels and key, if and only if the host key presented is the pinned one; either way, and when abandoned, it is over |
| Enrollment.OnlyInTime | src/server/enrollment.py:320-325 | Over every run: behind each agent and each enrollment under way there is a step of the run that took its token while it was active and before it expired |
| Enrollment.WholeEnrollment | src/server/enrollment.py:469-506 | For every token and every instant before its expiry there is a run that ends with its agent |
| Enrollment.EnrollmentConserved | src/server/enrollment.py:469-506 | Each node has at most one active token; agents map one to one to used tokens with the same node, labels and host key; agents and enrollments under way never outnumber the used tokens |
| Migrations.LoadMigrations | src/vibeconnect_common/db.py:78-88 | Loads if and only if all names are well formed and no version repeats, and otherwise gives the error of the first file in the way; there is one migration per file, with that file's version and text, in strictly ascending order |
| Migrations.Schema.RunMigrations | src/vibeconnect_common/db.py:91-109 | The loop with its validation and per-script transactions, cut short after any commit |
| Migrations.StartsIff | src/vibeconnect_common/db.py:132-143 | A run is refused, changing nothing, exactly when what is applied is not a prefix of its list, and with which error |
| Migrations.RunResumes | src/vibeconnect_common/db.py:91-109 | A run commits the next scripts of the list, as far as it gets, each once and in order |
| Migrations.RerunIsNoOp | src/vibeconnect_common/db.py:100-103 | After a completed run, running again changes nothing |
| Migrations.DeployKeepsPrefix | src/vibeconnect_common/db.py:91-109 | Over any number of interrupted runs of growing lists, what is applied is a prefix of the latest, and each of its scripts took effect once, in order |
| Migrations.LastRunCompletes | src/vibeconnect_common/db.py:91-109 | A run that is let to finish then reaches the full list |
| Migrations.CompletedRunExecutesFiles | src/vibeconnect_common/db.py:78-109 | From the directory to a new database: a run that is let to finish has executed the text of every file once, in ascending order of version, and recorded exactly their versions |
| Reconnect.DelayBounds | src/agent/tunnel.py:58-74 | For every positive base and cap: a delay lies between half the capped exponential and the cap |
| Reconnect.DelayIs | src/agent/tunnel.py:67-74 | The delay exactly: the base doubled per attempt, capped, times 0.5 to 1.5, and capped again |
| Reconnect.DelayRefused | src/agent/tunnel.py:67-73 | Arguments are refused if and only if the attempt is negative, the base or cap not positive, or the jitter outside 0 to 1, in that order |
| Reconnect.DefaultDelays | src/agent/tunnel.py:58-74 | With the defaults and a jitter of one half: 1, 2, 4, 8, 16, 32 and then always 60 seconds |
| Reconnect.DelayMonotone | src/agent/tunnel.py:71-74 | For the same base, cap and jitter, delays never shrink as the attempts go on |
| Reconnect.StreakIsLongest | src/agent/main.py:119-134 | The counter is the longest run of failures that ends the history |
| Reconnect.RunTunnel | src/agent/main.py:115-135 | The loop gives up exactly at the first limit + 1 failures since the last success, having slept the planned delay before each other retry |
| Reconnect.BurstSleeps | src/agent/main.py:122-135 | A burst of n failures sleeps exactly its first n delays |
| Reconnect.BurstTotal | src/agent/main.py:122-135 | A burst up to the limit sleeps at most limit times the cap in all |
| SecretScrub.ScrubSecretMetadata | src/vibeconnect_common/crypto.py:232-247 | The recursion with its loops, filling a dict and a list, computes the specified value |
| SecretScrub.CompactTestDecides | src/vibeconnect_common/crypto.py:250-256 | The first disjunct of `_is_secret_key` implies the second, which alone decides |
| SecretScrub.SecretKeysAre | src/vibeconnect_common/crypto.py:250-256 | A key is secret if and only if one of the nine words occurs in its lower-case text, hyphens and underscores aside |
| SecretScrub.ScrubIsClean | src/vibeconnect_common/crypto.py:232-247 | At every depth of the result there is no secret value, and only the redaction under secret keys |
| SecretScrub.ScrubFixedIff | src/vibeconnect_common/crypto.py:232-247 | Scrubbing changes a value exactly when it is not clean or a mapping repeats a key's text |
| SecretScrub.ScrubTwice | src/server/admin.py:612 | The audit writer's scrub after the admin API's changes nothing |
| SecretScrub.StructureKept | src/vibeconnect_common/crypto.py:232-247 | Along every path of public keys and indices the result has the scrubbed original, and no path appears or disappears |
| SecretScrub.SecretKeyRedacted | src/vibeconnect_common/crypto.py:237-240 | A secret key at any depth stays, with the redaction for its value |
| SecretScrub.PutInPlace | src/vibeconnect_common/crypto.py:234-242 | A key that repeats keeps its first place with its last value |

## Left out

- `Formats.HeaderText`: for identifiers of printable ASCII without quotes and backslashes, as `Formats.EventText` for texts; `FrameCodec.RoundTrip` and `ReplayFile.ReadOfFile` cover all others.
- `JsonRoundTrip.NothingFollows`: white space between tokens, which neither side writes, is read as `json` reads it and not specified further; a float is its text, so rounding is left out.
- CPython's limits on integer digits (4300) and on recursion in `json`: the model's parser has none.
- Authentication, certificates, TLS and the AUTH frame: a connection enters the model when `authenticate` has returned.
- Heartbeat freshness, certificate renewal, `revoke`, backpressure and missed-heartbeat tracking: freshness is a parameter of `open_session`, and the others are not called by the broker.
- `BrokerCalls.ReadEffect`: a read is one step, taken when there is data or the end of the stream; the wait before it is that guard.
- `BrokerSystem.Enabled`: a handler whose frame was rejected may go on in the model before it drops; the source drops at once, so the model has more runs.
- `ServerTunnel.BrokerTunnelConnection`: streams are values inside their connection object and not objects of their own, so two names for one stream are not modelled; connections, registries and the broker are objects.
- `ServerTunnel.ServerTunnelBroker.DropConnection`: asks of its caller that streams exist for all adapters, which the table invariant gives.
- `AgentOctets.HandleAgentTunnelStream`: when the loop has raised, an error in closing what is still open may take the place of the one reported; a local write succeeds or fails as a whole.
- `TunnelOctets.LoopIsReplayIff`: wires on which the loop on frames stops are left to `TunnelOctets.AgentsInStepIff`, which covers every run.
- `TunnelConservation.BytesConserved`: on frames; `ConservationOnOctets.BytesConservedOnOctets` has it on octets, for channel ids that decode to themselves.
- `ConservationOnOctets.BytesConservedOnOctets`: the agent's heartbeat answers are ones that can be encoded; its loop raises at others.
- `TunnelEndToEnd.BytesReachTheirSocketOnOctets`: counts bytes handed to the local writer; failures of the local socket end the agent's loop.
- `TunnelEndToEnd.AgentFailsOnOctetsIff`: for channel ids that decode to themselves; for all others `TunnelOctets.AgentsInStepIff` says when the agent leaves the server's channels, which need not be with an error.
- The awaits between reading an agent's frame and handling it: such a frame counts as still in flight.
- `RateLimiter.FailuresPerWindow`: enrollments one after another; `ConcurrentEnrolls.FailuresPerWindowConcurrent` has the bound for overlapping ones, which can pass the check together.
- `TunnelTransport.WritesSentInOrder`: the read loop and callbacks into AsyncSSH are left out, except that an end of stream sets the closing flag.
- `JumpSession.JumpPtyBridge.OnPayload`: the tunnel's `send_data` after the recording is left to the tunnel modules, and the texts of operating system errors are one fixed text.
- Replay path names, pruning, file modes and the audit events of sessions: not needed for what the rows promise.
- `JumpSession.ServerJumpCoordinator.StartJump`: task cancellation is one of the exceptions that escape it, after which the row may stay open.
- PostgreSQL itself: each statement is one step, a transaction commits wholly or not at all, and the table of versions is a set.
- `Migrations.LoadMigrations`: the file name pattern is not modelled; a name parses to a version or not at all.
- `Enrollment.EnrollmentConserved`: for the in-memory store; the expiry clock is a parameter, and certificate issuance between consume and persist is left out, except that an enrollment may be abandoned there.
- `Reconnect.DelayBounds`: real arithmetic, so float rounding and the overflow of `2**attempt` are left out.
- `SecretScrub.ScrubIsClean`: values are trees of mappings, sequences, secrets and leaves; cyclic values and the texts of keys that are not strings are not modelled.
- AsyncSSH callbacks, HTTP handlers, command line, configuration, label authorization and LDAP: plumbing, or easy members.
