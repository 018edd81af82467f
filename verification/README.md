# Verified model of the mezquit MQTT publishing client

mezquit publishes to an MQTT 3.1.1 broker over connections that come and go. What makes that
hard is the ledger of packets in flight and the QoS 1 and QoS 2 exchanges built on it: any
number of `Publish` calls, one answer handler, one sender, disconnects and reconnects all
change it, and a receiver at the other end of an unreliable link must in the end have each
message once. This project models that client in Dafny and proves what it keeps.

`dafny verify dfyconfig.toml` verifies everything.

## Layout

| Files | What they model |
|---|---|
| `PacketIds`, `Ledger` | the identifier allocator and the ledger, as values |
| `WaitingList`, `Bits`, `InFlight` | the ledger on the heap: linked list, bitset, index; proved against `Ledger` |
| `Messages`, `Encoding`, `Framing`, `PublishRequest`, `ConnectRequest` | the wire codec, with receivers' parsers written from the standard |
| `Numbers` | the same against the bytes and bounds of the standard and the source, written out |
| `Client` | what each section of the session's code does to the session's variables |
| `Session`, `Wire` | the session on the heap, proved against `Client`; what the handler makes of a byte stream |
| `Delivery` | the protocol: client, link and receiver as a state machine |
| `Invariants`, `Accounts`, `Deliveries`, `Ordering` | what every step of `Delivery` keeps |
| `Guarantees`, `SessionLoss`, `Reordering`, `Completion` | the theorems about whole runs |
| `Hazards`, `Survivors` | what the assumptions below hide: late answers, callers' own identifiers, handlers that outlive their stop |
| `Encoded`, `Simulation` | the packets of `Delivery` as the bytes of the session, and its runs as runs of the session's client |
| `BytePipe`, `MockConnection` | the two-way pipe as a monitor, and its class |

## The delivery protocol

A state of `Delivery` holds the client's variables, every call of `Publish` that has not
returned, the handler, the lock and how far a disconnect has come, both directions of the
connection, and the receiver. Each step is one section of the source that nothing else can
enter half-way:

| Step | Source |
|---|---|
| `Connect`, `ConnectFails` | `internal/mqtt/session.go:66-178` |
| `Begin`, `ClaimID`, `RegisterPacket`, `EnqueuePacket` | `internal/mqtt/session.go:447-466` |
| `SenderWrites` | `internal/mqtt/session.go:265-273` |
| `HandlerTakes`, `HandlerFinishes` | `internal/mqtt/session.go:364-443`, first and second section of each answer |
| `BeginDisconnect`, `HandlerStops`, `EnqueueGoodbye`, `FinishDisconnect` | `internal/mqtt/session.go:184-260` |
| `BrokerReceives` | sections 4.3.2 and 4.3.3 of MQTT 3.1.1, method A and method B |
| `BrokerReceivesLate` | the same, of packets sent before a failed attempt at a clean session (`internal/mqtt/session.go:84-159`) that the receiver has not seen |
| `LinkFails` | section 4.4 of MQTT 3.1.1: any end of either direction is lost, at any time |

A theorem about "every run" is about every sequence of such steps from a new session and an
empty receiver, for both methods of section 4.3.3. Runs may contain any number of clean and
resumed connects, failed attempts, ignored answers, and reused identifiers.

The receiver may answer a resuming client with a session it no longer has. A failed attempt to
connect may or may not have reached it; if it has not, packets of the connection before may yet
arrive, also after the client has replaced its ledger. Exactly-once delivery cannot survive all
of this. `SessionLoss.HarmIffDisagreement` says exactly what it does not survive: after a run
that leaves receiver and ledger in agreement, a step endangers the promise if and only if it
makes them disagree about a message, a condition on the state before the step
(`Delivery.Splits`):

- a resumption, accepted or not, finds its session discarded, while the receiver has delivered a
  message that will be published again (method B) or holds one whose release alone will be sent
  (method A); or
- an attempt at a clean session fails unseen, while the receiver holds a message or an
  exactly-once PUBLISH is still on its way to it.

The history variable `intact` says that receiver and ledger agree, and `exposed` that a session
has been resumed while they did not; until then `Guarantees.ExactlyOnceDelivery` holds. An
accepted clean connect ends that: the messages begun since (`epoch`) have the promise again.

What a failed attempt met is hidden from the caller: a resumption that finds its session gone and whose
CONNACK is lost leaves a new session behind, which later resumptions find present.
`Guarantees.PrudenceSuffices` has a condition that a caller can see to: every session resumed is
reported present, a flag this client does not look at, and after a failed attempt the next
connect is clean. The client's own resend passes, a clean connect followed by resumptions
(`cmd/pub.go:176-200`), are of that kind if none of them fails.

## Assumptions

- Each method of the in-flight ledger is one step, also `unsetBit`, which the source calls
  without the ledger's lock (`internal/mqtt/session.go:385`, `internal/mqtt/session.go:442`).
- In `Delivery` the handler stops when it is told to. In the source the `break` of
  `internal/mqtt/session.go:322` leaves only the `select`, so the goroutine lives on and goes on
  taking the answers of its connection, also after the next connect. `Survivors` is the protocol
  with such handlers: `Survivors.LateTakingKillsIff` says exactly when one more answer taken by
  one is fatal or can become so, `Survivors.AtOnceKillsIff` when it is fatal at once.
- The sender's queue exists before the handler takes its first answer, although the source
  starts the handler first (`internal/mqtt/session.go:164-168`).
- A receiver that accepts a connect closes the connection before it, as section 3.1.4 of MQTT
  3.1.1 requires, and so does one that has seen an attempt whose answer is lost: nothing more
  arrives from it.
- An attempt to connect reaches the receiver while the client waits for the answer, or never: no
  CONNECT of an attempt given up arrives behind a later one.
- Writing to a connection succeeds or the link has failed; the source ignores write errors.
- In `Delivery` a link loses whole packets and answers. `Simulation.PanicIffCutAfterOneByte` has
  the link that loses bytes of an answer.
- In `Delivery`, callers leave `PacketID` at 0. `Session.Session.Publish` has the other case, and
  `Hazards.OwnIdentifierDiesIff` says when the answer to such a message is fatal.
- A connection is a queue of packets in `Delivery` and of bytes in `Session`. A connect time-out
  is an outcome that may happen at any attempt.
- Strings are their bytes.

Where code and comments differ the model follows the code: `DecodeVariableInt` refuses four-byte
lengths that section 2.2.3 of MQTT 3.1.1 allows; the comment on `Close` of the pipe says that
blocked reads return errors, which holds of every read parked at the close
(`BytePipe.ParkedAtCloseIsEof`) and fails of one that bytes have woken and that has not looked
again (`BytePipe.BlockedAtClose`); a QoS 0 message may carry DUP if the caller asks for it, and
`PublishRequest.RoundTrip` excludes it.

## Model

| member | source | states |
|---|---|---|
| PacketIds.AllIdsAre | internal/mqtt/in_flight.go:76-82 | the identifiers are 1 to 65535 |
| PacketIds.NextIdIsFirstFree | internal/mqtt/in_flight.go:53-82 | the identifier handed out is free, in 1..65535 and not the counter's own value; all between the counter and it, going up and on from 1 after 65535, are in use |
| PacketIds.NextIdFailsIff | internal/mqtt/in_flight.go:57-70 | the allocator panics exactly when every identifier other than the counter's is taken, even if that one is free |
| PacketIds.NextIdCapacity | internal/mqtt/in_flight.go:53-74 | with at most 65533 identifiers in flight a claim succeeds |
| PacketIds.SearchStopsIff | internal/mqtt/in_flight.go:57-65 | the search meets a free identifier or its starting point if and only if the counter is not untouched or something is free; otherwise it never ends |
| PacketIds.NextIdNeverHangs | internal/mqtt/in_flight.go:57-65 | so it always stops while an untouched counter means an empty bitset |
| PacketIds.AtNext | internal/mqtt/in_flight.go:76-82 | the capped increment adds 1, takes 65535 to 1, and is one step of the cyclic order |
| Ledger.FreshLedgerServesAll | internal/mqtt/in_flight.go:22-27 | a new ledger hands out 1, 2, ..., 65535 in a row, all distinct, none refused |
| Ledger.ClaimTakesNext | internal/mqtt/in_flight.go:53-74 | a claim fails exactly if all of 1..65535 but the counter are taken; else it takes the first free identifier after the counter, sets the counter to it, and changes nothing else |
| Ledger.GetAfterRegister | internal/mqtt/in_flight.go:99-107 | registering adds one packet at the end and disturbs no other |
| Ledger.GetAfterRelease | internal/mqtt/in_flight.go:109-124 | releasing removes that packet and no other, and keeps the order |
| Ledger.GetAfterReplace | internal/mqtt/in_flight.go:126-140 | replacing changes one message and neither order nor identifiers |
| WaitingList.WaitingPacketList.PushBack | internal/mqtt/in_flight.go:166-182 | the element becomes the last of the list, next and prev links and both ends stay mutually inverse |
| WaitingList.WaitingPacketList.Remove | internal/mqtt/in_flight.go:184-203 | removes exactly the given member from any position and unlinks it; a detached element empties the list |
| Bits.Bitset.SetBit | internal/mqtt/in_flight.go:29-33 | adds exactly the one number to the set the words stand for |
| Bits.Bitset.UnsetBit | internal/mqtt/in_flight.go:35-39 | removes exactly that number |
| Bits.Bitset.GetBit | internal/mqtt/in_flight.go:41-45 | answers membership |
| Bits.OrWritesOneDigit | internal/mqtt/in_flight.go:29-33 | on machine words, or-ing the shifted bit writes that digit and no other |
| Bits.AndClearsOneDigit | internal/mqtt/in_flight.go:35-39 | and-ing its complement clears that digit and no other |
| Bits.TestReadsDigit | internal/mqtt/in_flight.go:41-45 | the comparison with zero reads that digit |
| InFlight.InFlight.FindFree | internal/mqtt/in_flight.go:57-65 | the loop ends, on the first free identifier or back on the old counter |
| InFlight.InFlight.NextPacketID | internal/mqtt/in_flight.go:53-74 | refines the claim of the abstract ledger, panic included; the result is a free identifier in 1..65535 and the new counter |
| InFlight.InFlight.RegisterWaiting | internal/mqtt/in_flight.go:100-107 | refines registration: bit, list and index together |
| InFlight.InFlight.ReleaseWaiting | internal/mqtt/in_flight.go:112-124 | refines release although the index keeps the released packet; panics exactly on an unset bit or a missing entry; on a stale entry the list is lost |
| InFlight.InFlight.ReplaceWaiting | internal/mqtt/in_flight.go:127-140 | refines replacement in place; on a stale entry the list is unchanged |
| InFlight.InFlight.UnsetBit | internal/mqtt/in_flight.go:35-39 | frees the identifier and touches neither list nor index |
| InFlight.InFlight.ResendWaiting | internal/mqtt/in_flight.go:147-153 | the walk ends, writes every waiting packet once in list order as a duplicate, and changes nothing in the ledger |
| Encoding.EncodeVariableInt | internal/mqtt/encoding.go:12-28 | the loop's output equals the specified base-128 digits |
| Encoding.VarIntIsCanonical | internal/mqtt/encoding.go:12-28 | the encoding is well formed, minimal and denotes the value |
| Encoding.VarIntIsUnique | internal/mqtt/encoding.go:12-28 | it is the only minimal well-formed encoding of the value |
| Encoding.VarIntPrefixFree | internal/mqtt/encoding.go:12-28 | no encoding is a prefix of another |
| Encoding.DecodeVariableInt | internal/mqtt/encoding.go:32-50 | the loop computes the specified decoding, with the early refusal and the missing byte that reads as 0 |
| Encoding.VarIntRoundTrip | internal/mqtt/encoding.go:32-50 | decoding returns the value and consumes exactly its bytes below 128^3, and refuses every larger value |
| Encoding.Int16RoundTrip | internal/mqtt/encoding.go:86-91 | two big-endian bytes give back the value modulo 65536 |
| Encoding.FieldRoundTrip | internal/mqtt/encoding.go:70-84 | a length-prefixed field comes back exactly when it has at most 0xFFFF bytes |
| Encoding.EncodeBytesTo | internal/mqtt/encoding.go:70-84 | appends the two length bytes and the content |
| Framing.WriteTo | internal/mqtt/generic_message.go:15-27 | appends header, length and body |
| Framing.WriteDupTo | internal/mqtt/generic_message.go:29-37 | appends the frame of the duplicate |
| Framing.DupChangesOnlyDup | internal/mqtt/generic_message.go:31-37 | a duplicate differs at most in DUP, keeps its type, and is its own duplicate |
| Framing.ReadMessage | internal/mqtt/session.go:347-358 | consumes one body, or reports a bad length or a short read |
| Framing.ReadLoop | internal/mqtt/session.go:288-305 | passes on exactly the specified messages and ends |
| Framing.StreamRoundTrip | internal/mqtt/session.go:288-305 | a stream of frames reads back whole up to the first body of 128^3 bytes or more, and whole exactly when there is none |
| Framing.CutStream | internal/mqtt/session.go:288-305 | a stream cut inside a frame yields the whole messages before the cut, and one message without a body exactly when only zero digits of the length had arrived |
| PublishRequest.RemainingLength | internal/mqtt/publish_request.go:29-45 | the computed length is the length of the body |
| PublishRequest.FixedHeaderBits | internal/mqtt/publish_request.go:47-61 | the accumulated byte is the specified header |
| PublishRequest.MakeMessage | internal/mqtt/publish_request.go:63-78 | builds the specified message |
| PublishRequest.HeaderFields | internal/mqtt/publish_request.go:47-61 | type, QoS, RETAIN and DUP are read back from the header byte |
| PublishRequest.RoundTrip | internal/mqtt/publish_request.go:63-78 | a parser of section 3.3 recovers every field exactly when the options respect the standard's limits |
| PublishRequest.WireRoundTrip | internal/mqtt/publish_request.go:63-78 | also through frame and read loop |
| PublishRequest.DupIsDuplicateOption | internal/mqtt/generic_message.go:31-37 | marking a duplicate equals having asked for one |
| ConnectRequest.RemainingLength | internal/mqtt/connect_request.go:18-45 | body length is 10 plus the computed length, plus 2 for an empty client name |
| ConnectRequest.ConnectBits | internal/mqtt/connect_request.go:47-79 | the accumulated byte is the specified flags |
| ConnectRequest.MakeMessage | internal/mqtt/connect_request.go:83-124 | builds the specified message |
| ConnectRequest.FlagFields | internal/mqtt/connect_request.go:47-79 | each flag is read back from the byte, and the reserved one is clear |
| ConnectRequest.RoundTrip | internal/mqtt/connect_request.go:83-124 | a parser of section 3.1 recovers level, clean flag, keep alive, client name, will, user and password, consuming the whole body, exactly when every field sent fits 16 bits and the will QoS is 0, 1 or 2 |
| ConnectRequest.StrictRoundTrip | internal/mqtt/connect_request.go:83-124 | a receiver that enforces the rules of section 3.1 accepts it as meant exactly when in addition will flags have a will, a password has a user name, and an unnamed client asks for a clean session |
| Session.Session.constructor | internal/mqtt/session.go:492-508 | a new session stands for the new client |
| Session.Session.Connect | internal/mqtt/session.go:66-178 | the error cases and what is left to read; accepted exactly if four bytes arrive in time, 0x20, 2, any, 0; the flags are those given; the ledger is new if clean; what follows CONNECT is, when accepted and resumed, the waiting messages in order, each as a duplicate, and else nothing; when accepted the session is connected with an empty open queue |
| Session.ReplyLaw | internal/mqtt/session.go:119-148 | the reading of CONNACK accepts exactly those bytes |
| Session.ConnectLaw | internal/mqtt/session.go:84-176 | ledger, flags, queue, state and bytes sent after an attempt, accepted or not |
| Session.PublishLaw | internal/mqtt/session.go:455-464 | ledger, queue and bytes sent after a publish, and when it fails |
| Session.Session.InitInFlight | internal/mqtt/session.go:84-89 | a new ledger on the first connect and on every clean one, else the old one; each flag is the one given |
| Session.Session.Publish | internal/mqtt/session.go:447-466 | the error cases; if an identifier is needed, one that was free is taken, becomes the counter, and the message sent waits under it at the end of the list with all others as they were; else the ledger is unchanged; the bytes bound for the peer grow by exactly that message; the one failure is that all of 1..65535 but the counter are taken |
| Session.Session.ProcessPublishAck | internal/mqtt/session.go:364-386 | the panics on type and length; ignored if told so; else the packet is released and its identifier freed |
| Session.Session.ProcessPublishReceived | internal/mqtt/session.go:392-413 | likewise; the packet becomes its PUBREL, which is queued, with a panic on a closed queue; the bytes bound for the peer grow by that PUBREL or not at all |
| Session.Session.ProcessPublishComplete | internal/mqtt/session.go:421-443 | likewise for PUBCOMP and its own ignore flag |
| Session.Session.HandleMessage | internal/mqtt/session.go:324-339 | dispatch by type, with the panic on any other type; a second release loses the list |
| Numbers.AckFrees | internal/mqtt/session.go:364-443 | a message 0x4_ or 0x7_ with body hi lo takes the packet waiting under 256·hi + lo out of the list and frees that identifier, and nothing else |
| Numbers.RecTurns | internal/mqtt/session.go:392-413 | 0x5_ replaces that packet by 62 02 hi lo, which is queued and sent, and changes nothing else |
| Numbers.OtherAnswers | internal/mqtt/session.go:375-379 | ignored, such a message changes nothing; heeded and unknown, it panics |
| Numbers.RecOnClosed | internal/mqtt/session.go:411-412 | on a closed queue 0x5_ changes the ledger and panics |
| Numbers.StaleAnswers | internal/mqtt/in_flight.go:112-140 | for a packet already released, 0x4_ and 0x7_ lose the list, and 0x5_ only queues |
| Numbers.NoAnswer | internal/mqtt/session.go:328-339 | any other first byte panics, and so does a body not of two bytes |
| Numbers.AnswerBytes | internal/mqtt/constants.go:22-47 | four bytes 40, 50 or 70, 02, hi, lo are read as those messages, and are the receiver's answers |
| Numbers.FirstBytes | internal/mqtt/constants.go:22-50 | CONNECT begins with 0x10, DISCONNECT is E0 00 |
| Numbers.LengthBytes | internal/mqtt/encoding.go:12-50 | the remaining lengths at the edges of the standard's table, and the decoder's limit 2097152 |
| Numbers.PublishHeader | internal/mqtt/publish_request.go:47-61 | the first byte of PUBLISH is 48 + 8·DUP + 2·QoS + RETAIN |
| Numbers.PublishBody | internal/mqtt/publish_request.go:63-78 | its body is topic length, topic, identifier if QoS > 0, payload, high bytes first |
| Numbers.PacketHeader | internal/mqtt/publish_request.go:47-61 | the protocol's QoS 1 and 2 are 2 and 4 in that byte |
| Numbers.PacketBody | internal/mqtt/publish_request.go:63-78 | topic, identifier and payload of the protocol's packets are those bytes |
| Numbers.DuplicateHeader | internal/mqtt/generic_message.go:31-37 | a duplicate has 8 more in a first byte 0x30 to 0x37 and is else the same message |
| Numbers.ConnectFlags | internal/mqtt/connect_request.go:47-79 | the flags byte is 2 clean + 4 will + 8·will QoS + 32 retain + 64 password + 128 user name |
| Numbers.ConnectBody | internal/mqtt/connect_request.go:83-124 | the ten bytes of the variable header and the order of the payload's fields |
| Numbers.QueueHoldsHundred | internal/mqtt/session.go:266-266 | the sender goes first when, and only when, 100 messages are queued |
| Session.Session.HandleMessages | internal/mqtt/session.go:280-343 | reading and handling loops on a byte stream equal the fold of the handler over the messages read, in the client they leave and in the bytes they send |
| Session.Session.Send | internal/mqtt/session.go:464-464 | appends to the bytes bound for the peer, waiting for the sender when the queue is full |
| Session.Session.SenderWrites | internal/mqtt/session.go:268-270 | moves the oldest message to the wire and leaves the bytes bound for the peer unchanged |
| Session.Session.Drain | internal/mqtt/session.go:265-273 | after the close everything queued is written in order |
| Session.Session.Disconnect | internal/mqtt/session.go:223-260 | the error cases; else everything queued is written in order, DISCONNECT last, and the queue is closed |
| Session.Session.DisconnectWithoutMessage | internal/mqtt/session.go:184-212 | the same without DISCONNECT |
| Wire.AckIsUnderstood | internal/mqtt/session.go:364-372 | an answer of the broker is read as the kind and identifier it was built from |
| Wire.QueuesAppend | internal/mqtt/session.go:308-341 | the bytes that handling gives the sender are those of each message, in order, up to the first panic |
| Wire.CutAnswer | internal/mqtt/session.go:368-371 | a connection lost inside an answer panics the handler exactly when one byte of the answer had arrived; otherwise all before it takes effect and it is dropped |
| Encoded.TakeCommutes | internal/mqtt/session.go:364-443 | handling an answer commutes with encoding packets, so theorems about packets apply to wire messages |
| Encoded.FinishCommutes | internal/mqtt/session.go:382-442 | so does the second section of an answer |
| Encoded.ConnectCommutes | internal/mqtt/session.go:84-89 | so do both halves of a connect |
| Encoded.ResendCommutes | internal/mqtt/session.go:171-176 | the bytes of a resend are those of the packets the protocol resends |
| Encoded.WireIsReadable | internal/mqtt/session.go:265-273 | after every run the bytes on the wire parse to exactly the packets there, in order |
| Simulation.RunIsEncoded | internal/mqtt/session.go:84-466 | every run of the protocol, section by section and encoded, is a run of the session's client on wire messages |
| Simulation.PublishIsThreeSections | internal/mqtt/session.go:458-464 | claiming, registering and queueing with nothing in between is publishing |
| Simulation.PanicIffCutAfterOneByte | internal/mqtt/session.go:288-340 | after every run, if the link carries some bytes of the answers under way and fails, the handler panics exactly when it fails one byte into an answer, and never over what an answer says |
| Invariants.StepKeepsControl | internal/mqtt/session.go:66-273 | every step keeps lock, handler, state and queue consistent |
| Invariants.StepKeepsIds | internal/mqtt/in_flight.go:53-124 | every step keeps the set bits equal to claimed, listed and about-to-be-cleared identifiers |
| Invariants.StepKeepsPipe | internal/mqtt/session.go:364-466 | every step keeps at most one packet or answer of an identifier under way, and each matching the packet that waits |
| Invariants.AnswerFindsPacket | internal/mqtt/in_flight.go:112-124 | an answer that arrives meets a set bit, an index entry and a listed packet |
| Accounts.StepKeepsBooks | internal/mqtt/session.go:382-466 | every step keeps each registered message in one place |
| Deliveries.StepKeepsSound | internal/mqtt/session.go:382-385 | with any receiver, an acknowledged message was delivered and only registered ones are |
| Deliveries.StepKeepsOnce | internal/mqtt/session.go:392-443 | while ledger and receiver agree, how often each message was delivered follows from where its exchange stands |
| Ordering.StepKeepsSent | internal/mqtt/session.go:460-464 | every step keeps it that only registered messages have been queued, and none twice by its call |
| Ordering.StepKeepsOrdered | internal/mqtt/session.go:457-464 | while calls with identifiers do not overlap, every step keeps the list in the order of first sending |
| Guarantees.Reachable | internal/mqtt/session.go:492-508 | all these invariants hold after every run from a new session |
| Guarantees.IdsAreAccountedFor | internal/mqtt/session.go:456-464 | after every run the set bits are the disjoint union of claimed, listed and released-not-cleared identifiers, each held once |
| Guarantees.ClaimIsFresh | internal/mqtt/session.go:458-458 | whatever the interleaving, a claim returns an identifier no call, packet or clearing uses |
| Guarantees.NoPanic | internal/mqtt/session.go:364-443 | over links that lose whole answers no run panics on what an answer says, on a closed queue or by losing the list; the one possible panic is an exhausted allocator, with at least 65534 identifiers in use |
| Guarantees.Conservation | internal/mqtt/session.go:364-466 | after every run each registered message is waiting, completed or abandoned: one of these, once |
| Guarantees.NothingLost | internal/mqtt/session.go:52-57 | without clean connects each registered message is either waiting or completed |
| Guarantees.AtLeastOnceDelivery | internal/mqtt/session.go:382-385 | after every run, with any receiver, a completed QoS 1 message was delivered |
| Guarantees.ExactlyOnceDelivery | internal/mqtt/session.go:392-443 | after every run a QoS 2 message of the current epoch was delivered at most once, and exactly once if it is completed, unless a session was resumed while receiver and ledger disagreed and no clean connect has followed |
| Guarantees.KeptSessionsStayIntact | internal/mqtt/session.go:137-140 | receiver and ledger go on agreeing while the receiver keeps the sessions resumed and sees every clean start, failed attempts included |
| Guarantees.PrudenceSuffices | internal/mqtt/session.go:66-178 | a caller who resumes only sessions reported present, and connects clean after a failed attempt, has exactly-once delivery of every message over every run |
| Guarantees.CleanStartsAnew | internal/mqtt/session.go:84-89 | after any run whatever, the same holds of all messages begun since an accepted clean connect |
| Guarantees.FlagsDecide | internal/mqtt/session.go:88-89 | after every run, from an attempt to connect to the next, taking a PUBACK or PUBREC changes no ledger exactly if the first flag was given, and taking a PUBCOMP exactly if the second was |
| Guarantees.AnyLossIsPossible | internal/mqtt/session.go:268-270 | in every live state the link can lose any end of either direction |
| Guarantees.ResendIsTheLedger | internal/mqtt/session.go:170-176 | after every run a resumed connection starts with one packet for each waiting identifier, in list order, PUBLISH with DUP; they carry exactly the registered messages neither completed nor given up, each once |
| Guarantees.ResendOrder | internal/mqtt/in_flight.go:147-153 | after every run, of any two waiting packets of which the second's call began after the first was queued, the first stands before the second in the list, and was first sent before it |
| Guarantees.SoloOrder | internal/mqtt/session.go:457-464 | if calls with identifiers have not overlapped since the ledger was new, all waiting packets are in the order of first sending |
| Reordering.ReorderIffOverlap | internal/mqtt/session.go:457-464 | after every such run a step opens the way to a resend out of order only if it begins a call with an identifier while another is unfinished, and then some continuation without further overlaps gets there, identifiers permitting |
| Reordering.NeverOverlapping | internal/mqtt/session.go:457-464 | a new session in which calls with identifiers never overlap is always resent in the order of first sending |
| Reordering.OverlapCrosses | internal/mqtt/session.go:457-464 | whatever stage the other call has reached |
| Guarantees.OrderlyDrain | internal/mqtt/session.go:223-260 | when a polite disconnect returns, all that was queued on this connection is written in order, DISCONNECT last |
| Guarantees.QuietUntilConnect | internal/mqtt/session.go:451-453 | and nothing is queued until the next connect |
| SessionLoss.HarmIffDisagreement | internal/mqtt/session.go:84-159 | after every intact run a step endangers exactly-once delivery if and only if it makes receiver and ledger disagree about a message |
| SessionLoss.LossBreaks | internal/mqtt/session.go:137-140 | a resumption that finds its session gone while a message is at risk can be followed by kept sessions only and still deliver twice, or complete what was never delivered |
| SessionLoss.FailedCleanBreaks | internal/mqtt/session.go:87-159 | a failed clean attempt the receiver never saw, with a message stored or an exactly-once PUBLISH on its way, lets a later message be completed and never delivered |
| SessionLoss.LateBreaks | internal/mqtt/session.go:87-159 | in particular when that PUBLISH of the connection before arrives after the ledger was replaced |
| SessionLoss.AgreementIsSafe | internal/mqtt/session.go:66-178 | after any other step no continuation with kept sessions breaks the promise |
| Completion.SomethingAdvances | internal/mqtt/session.go:184-466 | freedom from deadlock: in every reachable live state with identifiers for the waiting calls, unless the client may connect, some step brings calls, handler, queue or disconnect nearer to their end |
| Completion.EverythingCanComplete | internal/mqtt/session.go:171-176 | from every such state some continuation with kept sessions ends every call and completes every message not given up |
| Completion.CanSayGoodbye | internal/mqtt/session.go:223-260 | a connection with nothing queued can be closed politely, DISCONNECT written last |
| Hazards.LateAnswerPanicsIff | internal/mqtt/session.go:319-322 | an answer taken after the handler has stopped and before the next connect panics exactly on a PUBREC not ignored with the queue closed |
| Hazards.LateAnswerPanics | internal/mqtt/session.go:319-322 | such a state is reachable |
| Hazards.OverlapReorders | internal/mqtt/session.go:457-464 | a run from a new session on which two overlapping calls are sent crosswise |
| Hazards.OwnIdentifierDiesIff | internal/mqtt/session.go:457-464 | publishing under an identifier of the caller's own: the answer panics exactly if it is heeded and, for PUBREC, nothing is registered under that identifier, else no packet waits under it; always if it is not in use; otherwise it ends or changes another message's exchange |
| Survivors.LateTakingKillsIff | internal/mqtt/session.go:306-342 | after every path on which handlers that outlived their stop have only ignored answers, one more answer taken by one is fatal or can become so exactly if the flags heed its kind; identifiers permitting |
| Survivors.IgnoringIsNotMeddling | internal/mqtt/session.go:375-436 | the paths meant are those on which every answer a survivor takes is of a kind the flags ignore |
| Survivors.AnswersStay | internal/mqtt/session.go:306-326 | no attempt to connect loses an answer: it stays for the handler of its connection |
| Survivors.AtOnceKillsIff | internal/mqtt/session.go:319-339 | taken with nothing in between, it is fatal at once exactly if heeded and: a PUBREC with the queue closed; or, its ledger replaced or its packets resent since, a PUBREC with nothing registered, or another answer with no packet waiting, under its identifier |
| Survivors.LeftKillsIff | internal/mqtt/session.go:319-322 | taken so before the ledger is replaced or its packets resent, also after failed resumptions, it is fatal or can become so exactly if it is a heeded PUBREC with the queue closed |
| Survivors.AfterNewLedger | internal/mqtt/session.go:84-89 | a path on which an old PUBACK panics after a clean connect, or a failed attempt at one |
| Survivors.AfterResend | internal/mqtt/session.go:171-176 | a path on which an old PUBACK frees the identifier after a resumption and the second PUBACK panics |
| Survivors.BetweenSections | internal/mqtt/session.go:382-385 | a path on which the second PUBACK comes between the survivor's release and its unset, and every waiting packet is lost |
| BytePipe.EveryRun | internal/mqtt/mock_connection.go:101-184 | in every interleaving, in both directions: no reader is parked while there are bytes or a close to see, bytes come out as they went in, and the end is reported only after a close with every accepted byte read |
| BytePipe.NothingIsLost | internal/mqtt/mock_connection.go:144-162 | what has been read and what is buffered is, byte for byte, what was written before the first close |
| BytePipe.ReadIsFull | internal/mqtt/mock_connection.go:123-125 | a read of a non-empty buffer returns its first bytes, exactly as many as asked for or all |
| BytePipe.EagerIsTheSame | internal/mqtt/mock_connection.go:156-160 | broadcasting only on empty buffers gives the same runs and states as broadcasting always |
| BytePipe.CloseReleasesAll | internal/mqtt/mock_connection.go:166-184 | after a close every blocked reader can run and its call returns, in any order: with bytes while there are any, and with the end from then on |
| BytePipe.ParkedAtCloseIsEof | internal/mqtt/mock_connection.go:164-184 | after every run, with a reader parked at the close, all calls at its end that return in any continuation report the end |
| BytePipe.BlockedAtClose | internal/mqtt/mock_connection.go:164-184 | a reader blocked and then closed on gets the end if it was parked, and bytes if a write had woken it; both are reachable |
| BytePipe.OutcomeAfterClose | internal/mqtt/mock_connection.go:105-125 | after a close an attempt returns bytes if and only if any are left, and the end if and only if none are |
| BytePipe.EveryByteIsRead | internal/mqtt/mock_connection_test.go:127-128 | as many one-byte reads as bytes, any number of threads: when no reader can run, all calls have returned and all bytes are read |
| MockConnection.MockConnection.ReadBufWithLock | internal/mqtt/mock_connection.go:101-127 | one pass of the read loop is the specified attempt |
| MockConnection.MockConnection.ReadSection | internal/mqtt/mock_connection.go:91-98 | a read at either end is that step of the pipe |
| MockConnection.MockConnection.WriteSection | internal/mqtt/mock_connection.go:132-162 | a write at either end is that step, or an error after the close |
| MockConnection.MockConnection.CloseSection | internal/mqtt/mock_connection.go:166-184 | closing is that step |

## Left out

- Command line, configuration, logging and test helpers: no property of their own.
- Real sockets, sleeping, time-outs by the clock, and goroutines that leak after a failed connect.
- Deadlines and their timer in the pipe (`internal/mqtt/mock_connection.go:52-66`, `internal/mqtt/mock_connection.go:230-264`): they depend on the clock.
- Receiving publications, subscriptions and PINGs: the client has none.
- Functional options, default values and the random client name: only the values they set appear.
- Data races inside a word of the bitset, from the unlocked `unsetBit`.
- `clearAllBits`, `nextPacket`, `prevPacket` and `Back`, which nothing hard depends on.
- Bits.Bitset.SetBit: a word is its 64 binary digits; that the masks of the source read and write single digits of machine words is in `Bits.OrWritesOneDigit`, `Bits.AndClearsOneDigit` and `Bits.TestReadsDigit`.
- InFlight.InFlight.FindFree: requires that an untouched counter does not meet a full bitset, where the source would loop for ever (`PacketIds.SearchStopsIff`); `Guarantees.Reachable` shows that no run gets there.
- InFlight.InFlight.NextPacketID: requires the same.
- InFlight.InFlight.RegisterWaiting: for an identifier that is already listed it states the new list but not a valid index, since the earlier packet then has none.
- InFlight.InFlight.ReleaseWaiting: for a stale entry it states that the list is lost, and nothing about what later calls do with it.
- Session.Session.HandleMessages: excludes streams that release a packet twice, after which the list is lost; `Session.Session.HandleMessage` has that case for one message, and `Guarantees.NoPanic` shows that a conforming receiver sends none.
- Session.Session.Connect: the four bytes of CONNACK are read before any other goroutine reads; after a time-out nothing is said of what is left to read.
- Session.Session.Disconnect: the wait for the handler is a step of `Delivery` and not of this method.
- ConnectRequest.RoundTrip: a will message without a will topic is not sent, and is compared as empty.
- MockConnection.MockConnection.ReadBufWithLock: one pass of the loop; that passes of several threads interleave, and that a woken reader passes again, is in `BytePipe`.
- Guarantees.ExactlyOnceDelivery: says nothing between a resumption in disagreement and the next accepted clean connect; `SessionLoss.HarmIffDisagreement` says which steps lead there and that each can break the promise.
- The reader of an earlier connection: blocked on it while the session is given a new one, it would read the rest of a message from the new one (`internal/mqtt/session.go:291-298`).
- Survivors.LateTakingKillsIff: one survivor is half way through an answer at a time; after one has acted on an answer, only further steps of the protocol and its own second section are considered. That a survivor may take a later stop request in place of the new handler is not modelled.
- Reordering.ReorderIffOverlap: the way to a resend out of order is shown when the calls that wait for identifiers can all have one.
- Guarantees.NoPanic: an answer cut by the link is in `Simulation.PanicIffCutAfterOneByte`.
- Completion.EverythingCanComplete: a possibility, not a promise: neither the link nor the receiver is obliged to make progress.
