# A model of the sandbox kernel's protocols, generators and context switch

The repository runs a gVisor Sentry on a bare AArch64 kernel. This project models four parts of
it in Dafny and proves what they are for.

**The vsock endpoint and its driver** (`Wire`, `Protocol`, `Connections`, `Endpoints`,
`Effects`, `Generations`, `History`, `Runs`, `Silence`, `Resets`, `Witnesses`, `Devices`,
`Progress`, `Channels`, `Hazards`, `Credit`, `Network`, `Opening`, `Reopening`, `Limits`,
`Composition`, `Delivery`, `Realized`, `Completion`).
`Endpoints.Endpoint` is the mutable endpoint: a map from remote addresses to connection objects,
with the loops of `Drain` and the cases of `Handle`. Each of its methods is proved to compute the
functions of `Protocol`, where the order in which `Drain` visits the map is a parameter, because
Go does not fix it. `Effects` says what these come to, operation by operation and in the numbers
of the standard: what each packet does and is answered with, and what a turn of a connection
sends. `History` replays the functions over arbitrary runs of received packets, device resets,
drains, pushes and used-index advances. A generation is one life of a connection
from an accepted request to its deletion; its packets, payloads and handler calls are recorded,
so that results hold for every generation of a key that is used again and again.
`Devices.Device` is the polling driver with its 16-bit ring accounting; it records the steps it
takes and keeps them a run of `History`, so the results about runs are results about it.
`Network` composes the endpoint with any number of peers, each with a receive buffer of its own,
over asynchronous channels (VIRTIO 1.1, section 5.10.6); `Opening`, `Reopening` and `Limits` say
exactly which openings of a connection and which answers are safe there. `Composition` replaces
the endpoint by the trace of the driver, with its pending list, its ring and the transport behind
them; `Realized` shows that this can do all that the network can. `Delivery` follows the bytes
from the application to the peer, and `Completion` shows that no response gets stuck.

**The DHCP client** (`Checksums`, `Options`, `OptionGrammar`, `Frames`, `ClientFrames`,
`ClientBytes`, `ServerFrames`, `Leases`, `Waiting`, `Acquiring`): the checksum loops, the option
writer and parser, the frames built and read in place, and a whole acquisition against any device
and any clock (RFC 2131 section 3.1, RFC 2132 section 2, RFC 1071 section 1, RFC 791 section
3.1).

**Code generation** (`Bits`, `Arm64`, `Patches`, `HelloElf`, `Process`, `HelloProgram`,
`RawImage`): the hand-assembled ELF program and the raw kernel image. `Arm64.Decode` decodes
MOVZ, ADR, SVC and B by their fixed fields (Arm ARM DDI 0487, section C6.2); `Process` loads a
one-segment executable by its program header and runs it.

**The context switch** (`Cpus`, `Switch`): the instructions of `runUser` and `lowerSync` on a
processor object with general and system registers and word-addressed physical memory, and
`switchToUser` around them. User code is an arbitrary function from the state it is entered
with, its page tables and the memory outside the switch state to a state at its next exception.

`Bytes`, `Seqs` and `Buffers` hold byte encodings and facts about sequences. Go's fixed-width
arithmetic is written out (`Wrap16`, `Wrap32`, `Wrap64`, `Signed64`, `Or32`).

Where code and expectation differ, the model follows the code:

- A device reset empties the connection map but leaves packets in the driver's pending list, so
  packets of a forgotten connection can still be sent (`Witnesses.ForgottenPacket`). They are
  exactly the ones that were pending (`Silence.PushedAfterClear`), because an ended connection is
  silent (`Silence.EndedIsSilent`).
- A second request for a connection that exists, and a packet of another type than stream, draw a
  reset to its sender although the connection lives on and sends data behind that reset
  (`Witnesses.DataBehindReset`). Every other reset ends its connection (`Resets.ResetsEnd`).
- `sendSpace` compares wrapped counters with `>`. `Credit.SendSpaceExact` says exactly when its
  result is the true credit, and `Credit.SendSpaceWraps` has a state in which it is not. A response
  of 2^32 bytes is still safe, since the counter wraps with its last byte; with one byte more,
  `Limits.LengthOverflow` reaches such a state with a peer that does everything right, and
  overfills its buffer of one byte.
- A response carries nothing that says which request it answers, so a response to an abandoned
  attempt can establish the next one, and its peer then counts bytes that the new connection has
  not sent. For one opening, `Opening.OpensExactly` gives the exact condition: no data of an earlier
  attempt is, or can still be put, behind a response under way. That speaks about the contents of
  channels, which no peer can observe. Opening only while no request and no response of the
  connection is under way implies it (`Hazards.WaitingIsCalm`), and a peer that has heard the
  response to its request knows that this holds (`Network.MayReopen`). Of the rules that look only
  at how many requests and responses are under way and how long answers are, and let peers open
  when nothing is under way, the safe ones are exactly those that open neither with one response
  nor with one request under way and keep answers to 2^32 bytes (`Limits.RuleExact` for the
  network, `Realized.DriverExact` for the driver with a ring of any depth);
  `Reopening.ResponseOverflow` and `Reopening.RequestOverflow` are runs in which a buffer of one
  byte receives two. Such a miscount does not overflow a buffer each time, because a reset may come
  first.
- A DHCP reply without a subnet mask leads to prefix length 0. The server of an acknowledgement
  is not compared with the offer's. The last of several options with one code wins. Options that
  do not fit are skipped. A message always names a server, since the fixed field stands in for a
  missing option, so the client's check for an offer without one never fires.
- `linuxHelloELF` loads the message length into a 16-bit immediate: a message of 65536 bytes or
  more is written in part only, and `HelloProgram.WholeMessage` gives the exact condition.
- `convert` starts the image at `base + 4` in wrapping arithmetic. For `base = 2^64 - 4` and any
  load segment the image is shorter than the branch that is stored in it, and Go panics;
  `RawImage.PanicsExactly` shows that this is the only such case, and `RawImage.PanicsOnce` has
  such a file.

## Model

| member | source | states |
|---|---|---|
| Wire.DecodeEncode | kernel/vsock/protocol.go:55-75 | decoding an encoded packet gives back its header with the length field set and its payload, for every payload up to truncation of the length to 32 bits |
| Wire.EncodeDecode | kernel/vsock/protocol.go:55-75 | re-encoding any accepted packet reproduces exactly the header and the bytes its length field covers |
| Wire.HeaderRoundTrip | kernel/vsock/protocol.go:41-53 | all ten header fields survive encoding |
| Wire.HeaderBytes | kernel/vsock/protocol.go:41-53 | all 44 header bytes survive decoding |
| Wire.HeaderLayout | kernel/vsock/protocol.go:41-53 | every header field is the little-endian number at its offset, in its width |
| Wire.DecodesExactly | kernel/vsock/protocol.go:64-75 | a packet is accepted exactly when it has 44 bytes and all the payload that its length field declares; bytes behind that are ignored |
| Endpoints.Endpoint.constructor | kernel/vsock/protocol.go:108-117 | a new endpoint has no connections and the default limits |
| Endpoints.Endpoint.Reset | kernel/vsock/protocol.go:119-121 | all connections are gone |
| Endpoints.Connection.UpdatePeer | kernel/vsock/protocol.go:148-151 | the credit fields, and only these, are taken from the header |
| Endpoints.Endpoint.SendChunks | kernel/vsock/protocol.go:236-247 | the inner loop sends the chunks and reaches the state of the pure specification |
| Endpoints.Endpoint.Settle | kernel/vsock/protocol.go:251-258 | the owed shutdown or reset is sent, and a reset removes the connection |
| Endpoints.Endpoint.Turn | kernel/vsock/protocol.go:235-262 | one pass of the outer loop is one turn of the specification |
| Endpoints.Endpoint.Drain | kernel/vsock/protocol.go:231-264 | iterating over a mutating map in any order gives the specified drain for an order of exactly the keys at its start |
| Endpoints.Endpoint.Open | kernel/vsock/protocol.go:181-193 | a request creates a connection or is refused, as specified |
| Endpoints.Endpoint.ReadWrite | kernel/vsock/protocol.go:197-212 | a data packet extends the request, calls the handler or is refused, as specified |
| Endpoints.Endpoint.Update | kernel/vsock/protocol.go:194-224 | every other operation does to the connection map what is specified |
| Endpoints.Endpoint.Handle | kernel/vsock/protocol.go:170-227 | for every byte sequence the new connection map, the packets and the error are those of the specification |
| Effects.Undecoded | kernel/vsock/protocol.go:170-174 | what does not decode is an error that changes and sends nothing; everything else is handled as the packet it decodes to |
| Effects.Strangers | kernel/vsock/protocol.go:175-195 | a packet for somebody else, or other than a request for no connection, draws one reset with nothing announced and changes nothing |
| Effects.Requests | kernel/vsock/protocol.go:181-193 | a request opens a connection with empty counters, is answered with one response and followed by a drain of at most eight packets; for an existing connection or without room it draws one reset |
| Effects.Controls | kernel/vsock/protocol.go:213-224 | on an existing connection a credit request is answered with exactly one credit update with the bytes received and the buffer length, a credit update and a shutdown with nothing, each followed by a drain of at most eight; a reset is answered with nothing at all, an unknown operation with a reset, and both remove the connection; each leaves exactly the stated connection |
| Effects.Payloads | kernel/vsock/protocol.go:197-212 | data that overfills the request ends the connection with a reset; otherwise it is appended, the application is asked exactly when there is no response and the request has CR LF CR LF, one credit update answers exactly while there is still no response, and a missing application is an error with the data kept |
| Effects.Chunks | kernel/vsock/protocol.go:236-247 | for every state: each data packet is the next piece of the response, as long as the rest of the response, the credit left in the wrapping counters and 65536 bytes allow, and the packets end only for want of room, response or credit |
| Effects.Turn | kernel/vsock/protocol.go:235-262 | a turn is such packets and, if there is room behind them, the shutdown in both directions behind the last byte, or the reset of a connection closed without a response, which goes |
| Effects.InOrder | kernel/vsock/protocol.go:231-264 | a drain visits the connections one behind the other, each as it was before, with the room that those in front of it have left |
| Effects.FullPieces | kernel/vsock/protocol.go:241-246 | while the counters do not wrap, only the last data packet of a turn is shorter than 65536 bytes |
| Effects.FewestPackets | kernel/vsock/protocol.go:236-247 | with enough room and credit, n bytes are sent in exactly ceil(n / 65536) data packets |
| Connections.SendChunksFacts | kernel/vsock/protocol.go:236-247 | chunks continue the response exactly where it stopped and stop only for want of room, bytes or credit |
| Connections.ServeFacts | kernel/vsock/protocol.go:235-262 | a turn sends a piece of the response in order, and a reset only for a connection that never had a response |
| Connections.DrainAt | kernel/vsock/protocol.go:235-262 | whatever the order, a drain does to each remote what one turn of its own connection does |
| Connections.DrainOk | kernel/vsock/protocol.go:231-264 | draining keeps the endpoint invariant: keys match remotes, the number of connections is bounded, the counters agree with the stored data |
| Connections.ReactOk | kernel/vsock/protocol.go:181-224 | every packet keeps the endpoint invariant, before draining |
| Connections.HandleOk | kernel/vsock/protocol.go:170-227 | every call of Handle keeps the endpoint invariant |
| Connections.HandleIsolation | kernel/vsock/protocol.go:170-227 | a packet of one peer changes no request, credit or response of another; only a connection that was closing without a response can go |
| Connections.TurnAnnounces | kernel/vsock/protocol.go:123-135 | every packet of a turn goes from the endpoint to its remote and announces exactly the bytes received and the buffer length |
| Connections.ReplyAnnounces | kernel/vsock/protocol.go:123-135 | so does every reply, which already counts the packet it answers |
| Connections.UnwelcomeAnswer | kernel/vsock/protocol.go:137-193 | a packet for somebody else, for no connection (even a reset), for a connection that exists, or for one too many changes nothing and is answered with one reset to its sender |
| Connections.WhenConnectionsGo | kernel/vsock/protocol.go:196-224 | a packet removes its connection at once exactly when it is a reset, has an unknown operation or would overfill the request |
| Endpoints.DrainFull | kernel/vsock/protocol.go:248-261 | once the limit is reached, the connections not visited make no difference |
| Generations.CompleteAfterLeast | kernel/vsock/protocol.go:202-204 | the number of payloads after which a request is complete is the least one |
| Generations.CallsExtend | kernel/vsock/protocol.go:204-209 | handler calls stay on the shortest complete concatenation of whole payloads, and on longer ones while the handler returns nil |
| Generations.ServeKeepsLife | kernel/vsock/protocol.go:235-262 | a turn continues a generation's packets in closing order, or ends them with a reset |
| Generations.DataKeepsLife | kernel/vsock/protocol.go:197-212 | data continues a generation with the matching request and response |
| Generations.ReactKeepsLife | kernel/vsock/protocol.go:213-224 | control packets continue a generation |
| Generations.OpenStartsLife | kernel/vsock/protocol.go:185-188 | an accepted request starts a generation with an empty past |
| Generations.FailKeepsLife | kernel/vsock/protocol.go:205-207 | a missing handler leaves the generation consistent when Handle fails |
| History.ReceiveIsHandle | kernel/vsock/protocol.go:170-227 | the recorded stages of a received packet are Handle |
| History.NextOk | kernel/vsock/device_tamago.go:117-166 | each step of the driver keeps the invariant that ties every past and living generation to its packets |
| History.RunOk | kernel/vsock/device_tamago.go:117-166 | the invariant and the ring bound hold after every run |
| Runs.StreamIntegrity | kernel/vsock/protocol.go:170-264 | in every run the data of each generation is a prefix of its response, exactly the first sent bytes while it lives; ring and pending list are all packets in production order |
| Runs.ClosingOrder | kernel/vsock/protocol.go:251-258 | in every run a generation has at most one shutdown, behind its whole response, with no data after it, and a reset from Drain only as its last packet and without any data; resets that answer a packet belong to Resets.ResetsEnd |
| Runs.Reassembly | kernel/vsock/protocol.go:197-209 | however a request is cut into packets, the handler is called once, on the shortest terminated concatenation of payloads, or never if there is none |
| Runs.AllPacketsFit | kernel/vsock/protocol.go:242-244 | every packet of every run fits the transmit buffers |
| Silence.EndedIsSilent | kernel/vsock/protocol.go:119-227 | once a generation has no connection, by a device reset, a reset, a refusal or a drain, it never gets one again and no packet is ever produced for it |
| Silence.PushedAfterClear | kernel/vsock/device_tamago.go:141-166 | after a device reset, the packets of earlier generations that enter the ring are, in order, those of the pending list at that moment, as far as the ring has advanced through it; none, when it held none |
| Resets.ResetsEnd | kernel/vsock/protocol.go:137-227 | a reset on the wire to a remote ends its generation, with no data of it behind the reset in any continuation, exactly unless it answers a further request or a packet that is not of a stream; then the connection is unchanged |
| Witnesses.ForgottenPacket | kernel/vsock/device_tamago.go:141-166 | a run in the order of one iteration of the loop, with its drain and its look at the ring, in which a response of a forgotten connection is sent after the device reset |
| Witnesses.DataBehindReset | kernel/vsock/protocol.go:181-184 | a run in which a second request draws a reset and the data of the living connection follows it |
| Devices.Device.constructor | kernel/vsock/device_tamago.go:32-44 | a driver starts with an empty run, and its ring is as deep as the transport allows, at most 32 |
| Devices.QueueSizes | kernel/vsock/device_tamago.go:32-44 | a queue has the size that the transport allows, at most 32, and is missing when it allows nothing |
| Devices.WrappedDifference | kernel/vsock/device_tamago.go:102-104 | the wrapped 16-bit difference is the number of outstanding packets exactly while that fits 16 bits |
| Devices.Device.TxAvailable | kernel/vsock/device_tamago.go:102-104 | the wrapping test says exactly whether fewer packets are outstanding than the ring is deep, over unboundedly many sends |
| Devices.Device.Receive | kernel/vsock/device_tamago.go:120-135 | the receive loop handles the packets in order until one fails |
| Devices.Device.ReceiveOne | kernel/vsock/device_tamago.go:130-135 | a handled packet is one step of the run, with its packets at the end of the pending list |
| Devices.Device.Events | kernel/vsock/device_tamago.go:141-154 | an event that starts with four zero bytes clears the connections; the steps taken are the clears of Devices.ClearsMean, and pending packets stay |
| Devices.ClearsMean | kernel/vsock/device_tamago.go:149-153 | each event of at least four bytes that starts with four zeros is one clear, and no other event does anything |
| Effects.DriverSteps | kernel/vsock/device_tamago.go:141-166 | a clear empties the connections and nothing else, a drain of at most eight packets goes behind those that wait, and the first of these enters the ring |
| Devices.Device.Transmit | kernel/vsock/device_tamago.go:160-166 | packets move from the pending list to the ring in order, none lost or repeated, until the list is empty or the ring full |
| Devices.Device.PushOne | kernel/vsock/device_tamago.go:161-163 | the oldest pending packet enters the ring |
| Devices.Device.Flush | kernel/vsock/device_tamago.go:159 | a drain is one step of the run |
| Devices.Device.ServeOnce | kernel/vsock/device_tamago.go:117-166 | an iteration is receive steps, clears, one drain and transmit steps, in this order, and never overfills the ring |
| Devices.Device.WireContents | kernel/vsock/device_tamago.go:117-166 | what was pushed followed by what is pending is the encoding of everything the endpoint produced, and every pushed packet fits its buffer |
| Progress.ServeWork | kernel/vsock/protocol.go:235-262 | every packet of a turn is paid for by remaining work, and a turn with room to spare leaves the connection quiescent |
| Progress.DrainConserves | kernel/vsock/protocol.go:231-264 | a drain below its limit leaves no sendable byte with credit, no owed shutdown and no owed reset anywhere |
| Progress.DrainWork | kernel/vsock/protocol.go:231-264 | the total work falls by at least the number of packets returned |
| Progress.RoundWorks | kernel/vsock/protocol.go:231-264 | with everything acknowledged and some buffer offered, a drain makes progress while there is work |
| Progress.AcknowledgedByUpdate | kernel/vsock/protocol.go:148-215 | a credit update that announces the bytes sent so far acknowledges them, which is what a round assumes of every connection |
| Progress.RoundsSend | kernel/vsock/protocol.go:231-264 | rounds continue the response of a remote without gap or repetition, and send its shutdown exactly when they close it |
| Progress.RoundsFinish | kernel/vsock/protocol.go:231-264 | as many acknowledged drains as there is work send exactly the rest of every response, and its shutdown exactly once, or not at all for a connection that its peer had closed |
| Credit.SendSpaceExact | kernel/vsock/protocol.go:153-166 | sendSpace is the remaining credit exactly when the wrapped acknowledgement is not ahead of the wrapped count |
| Credit.SendSpaceWraps | kernel/vsock/protocol.go:153-166 | with 2^32 bytes sent and all but one consumed, the whole limit is granted again |
| Credit.ChunksWithinCredit | kernel/vsock/protocol.go:236-247 | a turn never sends past the peer's window or the endpoint's own buffer length |
| Credit.TurnKeeps | kernel/vsock/protocol.go:235-262 | a turn keeps the two-sided credit invariant of a remote |
| Credit.RequestKeeps | kernel/vsock/protocol.go:181-190 | an accepted or refused request keeps it |
| Credit.UpdateKeeps | kernel/vsock/protocol.go:194-224 | any other packet keeps it |
| Credit.AcceptKeeps | kernel/vsock/protocol.go:123-166 | a peer that hears a packet keeps it, whatever attempt the packet belongs to |
| Credit.OpenKeeps | kernel/vsock/protocol.go:181-190 | a calm opening keeps it |
| Hazards.ServeQuiet | kernel/vsock/protocol.go:235-262 | a turn puts no data behind a response for a later attempt unless that could be foreseen |
| Hazards.ReactQuiet | kernel/vsock/protocol.go:194-224 | nor does the reaction to a packet, whatever the application answers |
| Hazards.WaitingIsCalm | kernel/vsock/protocol.go:181-190 | a peer that waits for its requests and responses opens calmly |
| Network.ApplyOk | kernel/vsock/protocol.go:148-166 | every move of endpoint, channels or honest peers keeps the invariant of all remotes, for waiting and for calm peers |
| Network.CreditSafety | kernel/vsock/protocol.go:148-166 | in every interleaving of waiting peers with buffers of their own, none holds more unconsumed bytes than its buffer, every connection's unacknowledged bytes stay within both buffers, also when its peer has closed, is opening again or has a reset under way, and an established peer's bytes are a prefix of what its connection has sent of the response |
| Network.CalmSafety | kernel/vsock/protocol.go:148-166 | the same for peers that open calmly, which is all that is needed; an acknowledgement may be of an earlier attempt until the endpoint has taken the request |
| Network.HonestIsCalm | kernel/vsock/protocol.go:181-190 | waiting peers are calm |
| Network.MayReopen | kernel/vsock/protocol.go:181-190 | in a play of waiting peers, one that has heard the response to its request may close and open again at once |
| Opening.Disturbed | kernel/vsock/protocol.go:181-262 | where an opening is not calm, moves without any further opening lead to a peer that has received bytes its connection has not sent |
| Opening.OpensExactly | kernel/vsock/protocol.go:181-262 | an opening is calm exactly when no calm way on leads to such a miscount |
| Limits.RuleExact | kernel/vsock/protocol.go:148-190 | a rule about requests and responses under way and about the length of answers keeps every buffer, of every size, exactly when it opens with neither one request nor one response under way and answers have at most 2^32 bytes |
| Reopening.ResponseOverflow | kernel/vsock/protocol.go:181-190 | a peer that opens with a response under way can be sent two bytes into a buffer of one |
| Reopening.RequestOverflow | kernel/vsock/protocol.go:181-190 | so can one that opens with only a request under way |
| Limits.LengthOverflow | kernel/vsock/protocol.go:153-166 | where answers may have more than 2^32 bytes, a play of 2^32 rounds with a peer that does everything right ends with two bytes in a buffer of one |
| Composition.DriverMoves | kernel/vsock/device_tamago.go:117-166 | each step of the driver is a move of the endpoint in the network, or only moves packets on their way |
| Composition.JointIsPlay | kernel/vsock/device_tamago.go:117-166 | every run of the driver with waiting peers is a play of the network, where what is under way to the peers is ring and pending list together |
| Composition.DriverCreditSafety | kernel/vsock/device_tamago.go:117-166 | so credit safety holds in every run of the driver, whose trace is a run of History |
| Delivery.EndToEnd | kernel/vsock/device_tamago.go:117-166 | in every run of the driver with waiting peers, the bytes that an established peer holds are a prefix of what the application has answered in the latest generation of its key, also when that has ended, and no request of the key is under way; while the connection lives, it has sent at least these bytes of that response |
| Delivery.ReceiveAway | kernel/vsock/protocol.go:170-227 | a packet that leaves a remote without a connection adds nothing to what its peer hears as data |
| Realized.RealizeMove | kernel/vsock/device_tamago.go:117-166 | every move of the network is one or more steps of the driver and its peers, for a ring of any depth |
| Realized.PlayIsJoint | kernel/vsock/device_tamago.go:117-166 | so every play of the network, under any rule for opening and for answers, is a run of the driver with the same peers |
| Realized.DriverExact | kernel/vsock/device_tamago.go:117-166 | the condition of Limits.RuleExact is exact for the driver |
| Completion.TakesOne | kernel/vsock/protocol.go:194-262 | a connection with a response outlives every packet of a peer whose request fits the buffer, never sends less, and sends more when news of consumed bytes give it credit |
| Completion.CanFinish | kernel/vsock/device_tamago.go:117-166 | no response gets stuck: from every reachable state of the driver and waiting peers, for a ring of any depth and buffers of at least one byte, there is a way on after which the peer holds the whole response of its connection |
| Checksums.InternetChecksum | kernel/sprnet/dhcp.go:323-336 | the loops compute the folded word sum, for every length and with 32-bit wrap-around |
| Checksums.FoldLoop | kernel/sprnet/dhcp.go:332-335 | the carry loop terminates with the complement of the fold |
| Checksums.FoldValue | kernel/sprnet/dhcp.go:332-334 | the fold is congruent to the sum modulo 65535 and zero only for zero |
| Checksums.ResidualZero | kernel/sprnet/dhcp.go:323-336 | the checksum is zero exactly for a non-zero multiple of 65535 |
| Checksums.StoredChecksumVerifies | kernel/sprnet/dhcp.go:227 | storing the checksum where its field was zero makes the whole block verify |
| Checksums.ChecksumExactly | kernel/sprnet/dhcp.go:323-336 | the checksum of every block is the complement of its byte sum, with even positions counting 256 times, modulo 2^32 and then modulo 65535 |
| Options.AppendOption | kernel/sprnet/dhcp.go:236-243 | an option is written in place or skipped, and nothing in front of the area changes |
| Options.AppendsExactly | kernel/sprnet/dhcp.go:236-243 | an option of at most 255 bytes that leaves room for the end marker is written as code, length and value; any other changes nothing |
| Options.ParseOptions | kernel/sprnet/dhcp.go:298-321 | the loop terminates in bounds on every input with the specified map or error |
| Options.AppendAllIs | kernel/sprnet/dhcp.go:236-243 | a series of appends leaves exactly the encoding of the options that were not skipped, with room for the end marker |
| Options.LastValuesMeaning | kernel/sprnet/dhcp.go:317 | the map holds for each code the value of its last option |
| Options.ParseEncoded | kernel/sprnet/dhcp.go:298-321 | parsing encoded options yields the last value of every code, whatever follows the end marker |
| OptionGrammar.ParseItems | kernel/sprnet/dhcp.go:298-321 | pads mean nothing, options count with their last value, the end of the data or an end marker with anything behind it ends them, and a cut-off length or value is an error |
| OptionGrammar.Decompose | kernel/sprnet/dhcp.go:298-321 | every input is of that form, so this is the parser on all inputs |
| Options.WriteThenParse | kernel/sprnet/dhcp.go:236-321 | writer and parser undo each other on any area and any options |
| Options.AllAccepted | kernel/sprnet/dhcp.go:237 | options that all fit are all written |
| Frames.BuildPayload | kernel/sprnet/dhcp.go:184-212 | the payload built in place is the specified one, with the end marker in bounds |
| Frames.FillIpHeader | kernel/sprnet/dhcp.go:222-227 | the header written in place is the specified one and touches nothing else |
| Frames.BuildClientFrame | kernel/sprnet/dhcp.go:183-234 | the frame built in place is the specified one |
| ClientFrames.IpHeaderVerifies | kernel/sprnet/dhcp.go:222-227 | the IP header of every client frame verifies and holds its length |
| ClientFrames.ClientFrameHeaders | kernel/sprnet/dhcp.go:214-233 | type, addresses, lengths, ports and checksum of a client frame agree with the frame itself |
| ClientBytes.ClientFrameBytes | kernel/sprnet/dhcp.go:214-234 | a client frame byte by byte: broadcast Ethernet, IPv4 with TTL 64 and protocol 17 from 0.0.0.0 to 255.255.255.255, UDP from 68 to 67, lengths, identification and zeros |
| ClientBytes.ClientFixedBytes | kernel/sprnet/dhcp.go:184-189 | the fixed part of the message byte by byte, with the broadcast flag and zeros everywhere else |
| ClientFrames.ClientFixedFields | kernel/sprnet/dhcp.go:184-189 | the fixed part carries the transaction and the client's address |
| ClientFrames.AcceptedConcat | kernel/sprnet/dhcp.go:193-211 | options that fit are kept whatever later options do |
| ClientFrames.ClientOptionsRecovered | kernel/sprnet/dhcp.go:191-212 | parsing a client frame recovers type and client id always, and requested address and server exactly for requests with IPv4 addresses, for every hostname |
| ClientBytes.OptionalRecovered | kernel/sprnet/dhcp.go:201-211 | parsing a client frame recovers the host name, cut to 63 bytes, the parameter list and the message size exactly when they fit into the 60 bytes with the end marker |
| ClientBytes.OptionBytes | kernel/sprnet/dhcp.go:191-212 | the option area is the encoded options, the end marker, and zeros |
| ServerFrames.ParseServerFrame | kernel/sprnet/dhcp.go:245-296 | every input is parsed in bounds with the specified result or error |
| ServerFrames.PayloadExactly | kernel/sprnet/dhcp.go:246-265 | which frames pass the checks, byte by byte, in both directions, and what their payload is |
| ServerFrames.FrameReads | kernel/sprnet/dhcp.go:245-296 | transaction, address, addresses and options are read from their places, and broken options make the frame unacceptable |
| ServerFrames.ReadAddresses | kernel/sprnet/dhcp.go:286-291 | the loop reads all complete addresses of the option |
| ServerFrames.PayloadOfFrame | kernel/sprnet/dhcp.go:246-263 | the payload comes out of the frame for every IP header length, IP options and padding |
| ServerFrames.ServerFrameRoundTrip | kernel/sprnet/dhcp.go:245-296 | parsing a laid-out server frame returns its transaction, MAC, fixed addresses and the last value of each option |
| ServerFrames.FrameUnderstood | kernel/sprnet/dhcp.go:274-294 | in a frame with any options, in any order and number, each of type, server, mask, first router, name servers and lease time is what the last option of its code says, or its default when there is none or its length is wrong |
| ServerFrames.AddressAt | kernel/sprnet/dhcp.go:286-291 | the i-th address read is the i-th group of four bytes |
| ServerFrames.PaddingIgnored | kernel/sprnet/dhcp.go:258-262 | bytes past the UDP length do not change the result of an accepted frame |
| ServerFrames.ServerNeverMissing | kernel/sprnet/dhcp.go:268-279 | every accepted message has an IPv4 address and names an IPv4 server, so the client's check for a missing one never fires |
| Leases.MaskSizeMeaning | kernel/sprnet/dhcp.go:168 | a mask has size n exactly when it is n ones followed by zeros |
| Leases.LeaseIsSound | kernel/sprnet/dhcp.go:149-181 | a lease has an IPv4 address from offer or acknowledgement and the prefix length of its mask, at most 32 |
| Leases.MergesExactly | kernel/sprnet/dhcp.go:149-172 | offer and acknowledgement make a lease with prefix length n exactly when there is an IPv4 address and a mask of n ones followed by zeros |
| Leases.LeaseFields | kernel/sprnet/dhcp.go:149-181 | every field of a lease is the acknowledgement's, or the offer's where that is missing, with an unspecified address counting as missing |
| Acquiring.BoundedDeadline | kernel/sprnet/dhcp.go:115-121 | a wait's deadline is the overall one or its own, whichever is earlier |
| Waiting.JudgedFrame | kernel/sprnet/dhcp.go:135-144 | an accepted message came in a frame with the client's transaction and address |
| Waiting.WaitJudges | kernel/sprnet/dhcp.go:123-147 | a wait ends with the verdict of the first decisive frame it heard |
| Waiting.WaitEnds | kernel/sprnet/dhcp.go:123-147 | how every wait ends, in terms of the parsed frames: after looks with nothing decisive, at the deadline, by a fault, by a rejection of type 6, or with the wanted message; with the frames heard and what is left of clock and device |
| Waiting.Rejected | kernel/sprnet/dhcp.go:139-141 | a rejection in time, before a fault or the wanted message, ends the wait without one, and what comes behind it is left on the device |
| Waiting.WaitHears | kernel/sprnet/dhcp.go:123-147 | a message that arrives in time, before a fault or a rejection, is returned, and only the clock readings and receipts up to it are used |
| Waiting.WaitFor | kernel/sprnet/dhcp.go:123-147 | the loop gives the specified outcome for every sequence of clock readings and device results, and logs what it heard |
| Acquiring.TryOnce | kernel/sprnet/dhcp.go:79-108 | one attempt gives the specified outcome and puts exactly its frames on the wire |
| Acquiring.TryOk | kernel/sprnet/dhcp.go:79-108 | a request follows only an offer heard in the same attempt, and a lease merges what was heard in it |
| Acquiring.DiscoverSteps | kernel/sprnet/dhcp.go:79-91 | the first half of an attempt: a discover, a wait for type 2 of 2, 4, 8 or 16 seconds or until the deadline, and what each failure leads to |
| Acquiring.RequestSteps | kernel/sprnet/dhcp.go:92-108 | the second half: a request, a wait for type 5 of four seconds or until the deadline, and what each failure leads to |
| Acquiring.RejectedTry | kernel/sprnet/dhcp.go:92-103 | a rejection after the request ends the attempt without a lease, whatever the device would give next |
| Acquiring.Acquire | kernel/sprnet/dhcp.go:64-113 | a run gives the specified outcome and puts exactly its attempts on the wire, in order |
| Acquiring.AcquireAllOk | kernel/sprnet/dhcp.go:78-109 | a run makes at most four attempts, and a lease comes from the last of them |
| Acquiring.RunSteps | kernel/sprnet/dhcp.go:74-113 | the run: at most four attempts, each begun before the deadline of the given time or 20 seconds; failures lead to the next attempt, a lease ends the run |
| Acquiring.MessageTypes | kernel/sprnet/dhcp.go:79-95 | the frames of an attempt are a discover and a request |
| Acquiring.AtMostFour | kernel/sprnet/dhcp.go:78-95 | a run sends at most four discovers and four requests |
| Acquiring.RequestsOffers | kernel/sprnet/dhcp.go:79-95 | every request of every attempt of every run asks for exactly the address and the server of an offer that was heard in that attempt |
| Acquiring.LeaseProvenance | kernel/sprnet/dhcp.go:78-109 | in every run that yields a lease, its last attempt heard an offer and an acknowledgement for this client and transaction, the request asked for exactly the offered address and server, each field is the acknowledgement's or, where it has none, the offer's, and the prefix length is that of the mask |
| Acquiring.PromptServer | kernel/sprnet/dhcp.go:64-113 | a server that offers and acknowledges in time in some attempt, whatever went wrong in the attempts before, is rewarded: that attempt yields the merged lease and is the last |
| Arm64.MovzDecodes | kernel/gvisor_sentry.go:238-240 | a generated MOVZ loads its immediate into its register |
| Arm64.MovzSum | kernel/gvisor_sentry.go:238-240 | the word of a MOVZ is 0xd2800000 plus its fields |
| Arm64.AdrSum | kernel/gvisor_sentry.go:242-245 | the word of an ADR is 0x10000000 plus the two parts of its delta and its register |
| Arm64.AdrDecodes | kernel/gvisor_sentry.go:242-245 | a generated ADR has its delta exactly for deltas from -2^20 to 2^20 - 1 |
| Arm64.BranchAccepted | tools/elf2raw.go:15-22 | a branch is generated exactly between aligned addresses whose distance modulo 2^64 a B can express |
| Arm64.BranchLands | tools/elf2raw.go:15-25 | a generated branch lands on its target modulo 2^64, forwards and backwards |
| Patches.PatchRead | kernel/gvisor_sentry.go:213-234 | every field of a file written at rising offsets reads back |
| HelloElf.LinuxHelloElf | kernel/gvisor_sentry.go:197-236 | the file built in place is the specified image |
| HelloElf.WriteFileHeader | kernel/gvisor_sentry.go:214-222 | the ELF header is written field by field |
| HelloElf.WriteProgramHeader | kernel/gvisor_sentry.go:223-230 | the program header is written field by field |
| HelloElf.WriteCode | kernel/gvisor_sentry.go:231-233 | the loop stores every code word |
| HelloProgram.Loads | kernel/gvisor_sentry.go:213-230 | a loader accepts the file, maps all of it at the load address and starts at the code |
| HelloProgram.FileHeaderExactly | kernel/gvisor_sentry.go:214-222 | every field of the ELF header, in numbers |
| HelloProgram.ProgramHeaderExactly | kernel/gvisor_sentry.go:223-230 | every field of the program header, in numbers |
| HelloProgram.CodeExactly | kernel/gvisor_sentry.go:202-233 | the eight words of code in numbers, and the message behind them |
| HelloProgram.GapsAreZero | kernel/gvisor_sentry.go:213-234 | all other bytes of the file are zero |
| HelloProgram.Meaning | kernel/gvisor_sentry.go:202-212 | the eight code words decode to the intended instructions |
| HelloProgram.HelloRuns | kernel/gvisor_sentry.go:194-236 | loaded and run, from any registers and with any answers of the kernel, the file writes its message to descriptor 1 and exits with 0, and does nothing else |
| HelloProgram.WholeMessage | kernel/gvisor_sentry.go:205 | the whole message is written exactly when it has fewer than 65536 bytes |
| RawImage.Layout | tools/elf2raw.go:44-56 | the first loop rejects exactly the segments below base or past 2^64 and finds the end of the image |
| RawImage.Fill | tools/elf2raw.go:61-71 | the second loop stays in bounds, fails exactly for short segments, and leaves every byte to the last segment that covers it |
| RawImage.Convert | tools/elf2raw.go:34-77 | success, failure and panic happen exactly as specified; on success the size is that of the segments, the first word branches to the entry, and every other byte is that of the last covering segment or 0 |
| RawImage.AcceptsExactly | tools/elf2raw.go:34-77 | which files are converted, in numbers: class, machine and byte order, complete segments of type 1 between base and the top, at most 128 MiB, and an entry in reach of a branch |
| RawImage.SizeMeans | tools/elf2raw.go:44-60 | the image has four bytes or reaches to the end of its last segment, whichever is more |
| RawImage.ByteMeans | tools/elf2raw.go:61-71 | each byte is that of the last segment over it, which starts at its physical address or, if that is 0, its virtual one; or zero |
| RawImage.LastCovering | tools/elf2raw.go:62-71 | the last load segment over an address decides its byte |
| RawImage.NothingCovers | tools/elf2raw.go:61 | gaps are zero |
| RawImage.BranchEnters | tools/elf2raw.go:73-77 | the stored word, decoded at base, lands on the entry |
| RawImage.SizeFits | tools/elf2raw.go:66-68 | every load segment lies in the image, also where base + 4 wraps around |
| RawImage.SizeExact | tools/elf2raw.go:44-60 | below the top of the address space the image reaches from base to the end of the last segment |
| RawImage.PanicsExactly | tools/elf2raw.go:77 | storing the branch panics exactly for base 2^64 - 4 with a load segment |
| RawImage.PanicsOnce | tools/elf2raw.go:44-77 | an accepted file with one segment at 2^64 - 4 leaves no room for the branch |
| Cpus.StoreInside | kernel/gvisorplatform/platform.go:49-63 | a store to a field changes that word of the switch state and nothing else |
| Cpus.HighPointer | kernel/gvisorplatform/registers_arm64.s:48 | the OR with the upper half's bits gives the upper-half alias of an address |
| Cpus.Cpu.Str | kernel/gvisorplatform/registers_arm64.s:50 | a store through R18 writes one word, through an upper-half address |
| Cpus.Cpu.Stp | kernel/gvisorplatform/registers_arm64.s:51-56 | a pair store through R18 writes two words, through upper-half addresses |
| Cpus.Cpu.Ldr | kernel/gvisorplatform/registers_arm64.s:59-70 | a load through R18 reads one word, through an upper-half address |
| Cpus.Cpu.Ldp | kernel/gvisorplatform/registers_arm64.s:74-88 | a pair load through R18 reads two words, also when R18 is one of its targets |
| Cpus.Cpu.Push | kernel/gvisorplatform/registers_arm64.s:94 | the pair store on the exception stack leaves the switch state alone |
| Cpus.Cpu.Pop | kernel/gvisorplatform/registers_arm64.s:105 | the pair load from the exception stack |
| Switch.OffsetsAgree | kernel/gvisorplatform/registers_arm64.s:11-43 | the offsets of the assembly are those of the fields of the struct |
| Switch.SaveKernel | kernel/gvisorplatform/registers_arm64.s:49-56 | the kernel's stack pointer and x19 to x30 go into the switch state |
| Switch.LoadSystem | kernel/gvisorplatform/registers_arm64.s:59-71 | the system registers of EL0, the exception stack and the application's tables come from the switch state |
| Switch.LoadUser | kernel/gvisorplatform/registers_arm64.s:74-88 | x0 to x30 become the 31 user registers, although R18 is the base of all loads |
| Switch.RunUser | kernel/gvisorplatform/registers_arm64.s:46-89 | EL0 starts with exactly the user state of the switch state, the kernel's registers are saved, nothing else in memory changes |
| Switch.StoreToBase | kernel/gvisorplatform/registers_arm64.s:93-106 | x0 to x19 are stored exactly, although R18 and R19 wait on the exception stack |
| Switch.StoreUser | kernel/gvisorplatform/registers_arm64.s:93-113 | all 31 registers of EL0 are stored exactly |
| Switch.StoreSystem | kernel/gvisorplatform/registers_arm64.s:114-127 | stack pointer, program counter, flags and thread pointer of EL0 and the cause of the exception are stored |
| Switch.RestoreKernel | kernel/gvisorplatform/registers_arm64.s:129-140 | the kernel's tables, stack pointer and x19 to x30 come back |
| Switch.LowerSync | kernel/gvisorplatform/registers_arm64.s:92-140 | the switch state receives exactly the state of EL0 and the cause of its exception, the kernel continues with its own, and only two words of the exception stack change besides |
| Switch.Prepare | kernel/gvisorplatform/platform.go:268-279 | the fields set before entering describe the task and keep the rest |
| Switch.CopyRegisters | kernel/gvisorplatform/platform.go:269 | the register copy fills the first 31 words |
| Switch.SwitchToUser | kernel/gvisorplatform/platform.go:265-297 | transparency: the task's registers become what its program makes of them, class 0x15 of the syndrome is reported as a system call, 0x20 and 0x24 as page faults and every other as unexpected, the kernel's x19 to x30, stack and tables are preserved, and no data access of EL1 uses a lower-half address while the application's tables are installed |
| Switch.ClassifyNames | kernel/gvisorplatform/platform.go:289-296 | the answer depends on the class field of the syndrome alone, in both directions |
| Switch.SyndromeOf | kernel/gvisorplatform/platform.go:289 | every value of the register has such fields |

## Left out

- Network.CreditSafety: responses have at most 2^32 bytes, and peers wait before they open a key again (Network.CalmSafety needs only calm openings; that some condition is needed, and which, is Limits.RuleExact). Once all of a response of exactly 2^32 bytes is sent, the counters have wrapped, and the bound on unacknowledged bytes ends.
- Delivery.EndToEnd: a peer does not remember the request that it has sent; that the application's answers are to the payloads received in that generation is Runs.Reassembly.
- Completion.CanFinish: there is a schedule that delivers the response; that every fair schedule does, in particular against device resets, is not stated. The peer's request fits the endpoint's buffer, since the endpoint resets the connection otherwise.
- Opening.OpensExactly: a connection that is shut down before it has a response is outside the equivalence, because whether the next drain resets it depends on how full that drain is; calm openings are safe there too (Network.CalmSafety), but they are not shown to be the only ones.
- Opening.OpensExactly: the criterion is the miscount of bytes, not an overflow of the buffer, since a reset under way may come before the overflow; Reopening.RuleExact is about overflow.
- Checksums.StoredChecksumVerifies: blocks of at most 131070 bytes, beyond which the 32-bit sum may wrap; the one use in the client has 20 bytes.
- Progress.RoundsFinish: peers acknowledge everything between two drains, by credit updates as in Progress.AcknowledgedByUpdate; partial acknowledgement gives credit back later but is not measured.
- Waiting.WaitFor: ends when the given clock readings do; that a real clock reaches the deadline is not stated, and sleeping is not modelled.
- Acquiring.Acquire: the transaction number is a parameter, since it is derived from the time; a nil device and a MAC of another length are errors before the run starts.
- Switch.SwitchToUser: the user program cannot reach the switch state, which is what the page tables are for; a program that never traps has no result.
- HelloProgram.HelloRuns: the loader is for executables with one segment, and a write reads its whole buffer or faults.
- The vsock handler is a pure function of the request; that Go hands it the connection's own buffer, which it could change, is not modelled.
- The queues of the transport: the receive and event queues yield sequences of buffers, the transmit queue takes packets and reports a used index; descriptors, notifications and errors of Pop are not modelled.
- Device discovery, feature negotiation and the start of the queues.
- ELF parsing in `elf2raw`: `RawImage.File` is what the ELF reader reports, and reading a segment yields its bytes or fewer; writing the output file is left out.
- Page tables, translation caches, barriers, instruction fetch while the application's tables are installed, floating-point registers, and vectors other than the synchronous one.
- The loads of Go code in `switchToUser` after the exception are not part of the access log; the kernel's tables are installed by then.
- The Sentry, the file system, HTTP routing, status reporting, the network probe and the build scripts: plumbing without an algorithm of its own.
- Random data, string methods and status helpers: easy members that would add little.
