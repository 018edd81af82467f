/**
 * The session on the heap, proved against the client value of module Client and the bytes of
 * module Framing. Its methods run one at a time here; what their sections do when calls and
 * the handler interleave is the subject of module Delivery.
 */
module Session {
  import opened Wrappers
  import opened PacketIds
  import opened Ledger
  import opened Messages
  import opened Encoding
  import opened Wire
  import C = Client
  import Framing
  import InFlight
  import ConnectRequest
  import PublishRequest

  type ClientState = C.Client<GenericMessage>

  /** A connection: what the peer sends, and what it is sent. */
  class Connection {
    const input: Reader
    const output: Buffer

    constructor (input: Reader, output: Buffer)
      ensures this.input == input && this.output == output
    {
      this.input := input;
      this.output := output;
    }
  }

  /** NoConnection and Died are panics; the others are returned to the caller. */
  datatype SessionError =
    | NoConnection | WrongState | TimedOut
    | ShortRead | NotConnAck(header: byte) | BadLength(length: byte) | NotAccepted(code: byte)
    | Died(failure: C.Failure)

  /** The first thing wrong with a CONNACK; its session-present flag is not looked at. */
  function Refusal(response: seq<byte>): Option<SessionError> {
    if |response| < 4 then Some(ShortRead)
    else if response[0] as int != (CONNACK_TYPE << 4) as int then Some(NotConnAck(response[0]))
    else if response[1] != 2 then Some(BadLength(response[1]))
    else if response[3] != 0 then Some(NotAccepted(response[3]))
    else None
  }

  /** What publishing with these options makes of a client that is connected. */
  function AfterPublish(c: ClientState, o: PublishRequest.PublishOptions): (ClientState, Option<C.Failure>)
    requires 0 <= c.ledger.next <= MAX_ID
  {
    if o.qos > 0 && o.packetID == 0 then C.PublishWithID(c, id => PublishRequest.Message(o.(packetID := id)))
    else C.Enqueue(C.Room(c), PublishRequest.Message(o))
  }

  /** The message a publishing call sends, unless it finds no identifier. */
  function PublishedMessage(c: ClientState, o: PublishRequest.PublishOptions): Option<GenericMessage>
    requires 0 <= c.ledger.next <= MAX_ID
  {
    if o.qos > 0 && o.packetID == 0 then
      match Claim(c.ledger)
      case None => None
      case Some((_, id)) => Some(PublishRequest.Message(o.(packetID := id)))
    else Some(PublishRequest.Message(o))
  }

  function FrameOf(m: Option<GenericMessage>): seq<byte> {
    if m.None? then [] else Framing.Frame(m.value)
  }

  /** A packet is released and its identifier freed, with nothing in between. */
  function Freed(c: ClientState, id: int): (ClientState, Option<C.Failure>) {
    var (after, pending) := C.TakeRelease(c, id);
    C.Finish(after, pending)
  }

  /** A packet is replaced and its successor queued, with nothing but the sender in between. */
  function Replaced(c: ClientState, id: int, msg: GenericMessage): (ClientState, Option<C.Failure>) {
    var (after, pending) := C.TakeReplace(c, id, msg);
    C.Finish(if pending.Send? then C.Room(after) else after, pending)
  }

  function Fatal(failure: Option<C.Failure>): Option<SessionError> {
    if failure.None? then None else Some(Died(failure.value))
  }

  /** As much of a stream as a read of `n` bytes gets. */
  function CutTo(s: seq<byte>, n: nat): seq<byte> {
    if n <= |s| then s[..n] else s
  }

  function Reply(timedOut: bool, input: seq<byte>): Option<SessionError> {
    if timedOut then Some(TimedOut) else Refusal(CutTo(input, 4))
  }

  /** A refused attempt leaves the ledger and the flags changed. */
  function AfterConnect(c: ClientState, clean: bool, ack: bool, comp: bool, accepted: bool): ClientState {
    var prepared := C.Prepare(c, clean, ack, comp);
    if accepted then C.Accept(prepared) else prepared
  }

  /** What follows CONNECT: when a session is resumed, everything that waits, as duplicates. */
  function SentAgain(c: ClientState, clean: bool, accepted: bool): seq<byte> {
    if accepted && !clean then InFlight.ResendBytes(c.ledger.waiting) else []
  }

  // ---- what publishing and connecting mean ---------------------------------------------------

  /** The message is registered under an identifier that was free, at the end, and no other changes. */
  ghost predicate Registers(was: Ledger<GenericMessage>, now: Ledger<GenericMessage>, id: int, msg: GenericMessage) {
    && 1 <= id <= 65535 && id !in was.used && now.used == was.used + {id} && now.next == id
    && id in now.indexed && now.waiting == was.waiting + [Entry(id, msg)]
    && Get(now.waiting, id) == Some(msg) && forall x :: x != id ==> Get(now.waiting, x) == Get(was.waiting, x)
  }

  predicate NeedsId(o: PublishRequest.PublishOptions) {
    o.qos > 0 && o.packetID == 0
  }

  /**
   * What a call of publish does on a connected session, whose outbound bytes were `before`: it
   * sends the message, registered first if it needs an identifier, and fails only for want of one.
   */
  ghost predicate Publishes(
    was: ClientState, now: ClientState, before: seq<byte>, after: seq<byte>,
    error: Option<SessionError>, o: PublishRequest.PublishOptions)
  {
    var exhausted := forall id :: 1 <= id <= 65535 && id != was.ledger.next ==> id in was.ledger.used;
    if NeedsId(o) && exhausted then error == Some(Died(C.NoFreeID)) && now == was && after == before
    else
      var msg := PublishRequest.Message(if NeedsId(o) then o.(packetID := now.ledger.next) else o);
      && error == None && after == before + Framing.Frame(msg)
      && now.queue != [] && now.queue[|now.queue| - 1] == msg
      && now == was.(ledger := now.ledger, queue := now.queue)
      && if NeedsId(o) then Registers(was.ledger, now.ledger, now.ledger.next, msg) else now.ledger == was.ledger
  }

  lemma PublishLaw(c: ClientState, o: PublishRequest.PublishOptions, before: seq<byte>)
    requires Sane(c.ledger) && c.open
    ensures var (after, failure) := AfterPublish(c, o);
            Publishes(c, after, before, before + FrameOf(PublishedMessage(c, o)), Fatal(failure), o)
  {
    ClaimTakesNext(c.ledger);
    if NeedsId(o) {
      if Claim(c.ledger).Some? {
        RegistersLaw(c.ledger, PublishRequest.Message(o.(packetID := Claim(c.ledger).value.1)));
      } else {
        assert before + [] == before;
      }
    }
  }

  lemma RegistersLaw(l: Ledger<GenericMessage>, msg: GenericMessage)
    requires Sane(l) && Claim(l).Some?
    ensures var (claimed, id) := Claim(l).value;
            Registers(l, Register(claimed, id, msg), id, msg)
  {
    ClaimTakesNext(l);
    ClaimKeepsSane(l, msg);
    GetAfterRegister(l.waiting, Claim(l).value.1, msg);
  }

  /** Every waiting message, in order, as a duplicate. */
  function Duplicates(w: seq<Entry<GenericMessage>>): (r: seq<GenericMessage>)
    ensures |r| == |w| && forall i :: 0 <= i < |w| ==> r[i] == Framing.Dup(w[i].msg)
  {
    seq(|w|, i requires 0 <= i < |w| => Framing.Dup(w[i].msg))
  }

  lemma {:induction false} ResendIsStream(w: seq<Entry<GenericMessage>>)
    ensures InFlight.ResendBytes(w) == Framing.Stream(Duplicates(w))
  {
    if w != [] {
      ResendIsStream(w[1..]);
      assert Duplicates(w)[1..] == Duplicates(w[1..]);
    }
  }

  /** The first four bytes of the answer, in time, are a CONNACK of length 2 with return code 0. */
  predicate Accepted(timedOut: bool, input: seq<byte>) {
    !timedOut && |input| >= 4 && input[0] == 0x20 && input[1] == 2 && input[3] == 0
  }

  /**
   * What an attempt to connect does to a session that may connect: flags and ledger change
   * whether it succeeds or not; what follows CONNECT are the duplicates of a session resumed.
   */
  ghost predicate Connects(
    was: ClientState, now: ClientState, before: seq<byte>, after: seq<byte>, request: GenericMessage,
    clean: bool, ack: bool, comp: bool, accepted: bool)
  {
    && now.ignorePubAck == ack && now.ignorePubComp == comp
    && (if clean then
          now.ledger.used == {} && now.ledger.next == 0 && now.ledger.waiting == [] && now.ledger.indexed == {}
        else now.ledger == was.ledger)
    && (if accepted then now.status.Connected? && now.open && now.queue == []
        else now.status == was.status && now.open == was.open && now.queue == was.queue)
    && after == before + Framing.Frame(request)
                + Framing.Stream(if accepted && !clean then Duplicates(was.ledger.waiting) else [])
  }

  lemma ReplyLaw(timedOut: bool, input: seq<byte>)
    ensures Reply(timedOut, input) == None <==> Accepted(timedOut, input)
    ensures Reply(timedOut, input) == Some(TimedOut) <==> timedOut
  {
    assert (CONNACK_TYPE << 4) as int == 0x20;
  }

  lemma ConnectLaw(
    c: ClientState, before: seq<byte>, request: GenericMessage, clean: bool, ack: bool, comp: bool, accepted: bool)
    ensures var now := AfterConnect(c, clean, ack, comp, accepted);
            Connects(c, now, before, before + Framing.Frame(request) + SentAgain(now, clean, accepted), request,
                     clean, ack, comp, accepted)
  {
    ResendIsStream(c.ledger.waiting);
    assert Framing.Stream([]) == [];
  }

  class Session {
    const clientName: seq<byte>
    var conn: Connection?
    var inFlight: InFlight.InFlight?
    var toBroker: seq<GenericMessage>
    var open: bool
    var state: C.Status
    var ignorePubAck: bool
    var ignorePubComp: bool

    ghost function Repr(): set<object>
      reads this, inFlight, if inFlight == null then {} else {inFlight.waitingList}
    {
      {this} + (if inFlight == null then {} else inFlight.Repr())
    }

    ghost predicate Valid()
      reads this, inFlight, if inFlight == null then {} else inFlight.Repr()
    {
      && (inFlight != null ==> this !in inFlight.Repr() && inFlight.Valid() && Sane(inFlight.ledger))
      && (conn != null && inFlight != null ==> conn.output !in inFlight.Repr() && conn.input !in inFlight.Repr())
      && (open ==> conn != null) && (state.Connected? ==> inFlight != null && open)
      && |toBroker| <= C.QUEUE_CAPACITY
    }

    /** The client this session stands for; before the first connect its ledger is a fresh one. */
    ghost function View(): ClientState
      reads this, inFlight
    {
      C.Client.Client(if inFlight == null then Fresh() else inFlight.ledger,
                      state, ignorePubAck, ignorePubComp, open, toBroker)
    }

    constructor (clientName: seq<byte>, conn: Connection?)
      ensures Valid() && fresh(Repr())
      ensures View() == C.NewClient() && this.clientName == clientName && this.conn == conn
      ensures state == C.Initial && inFlight == null && toBroker == [] && !open && !ignorePubAck && !ignorePubComp
    {
      this.clientName := clientName;
      this.conn := conn;
      inFlight := null;
      toBroker := [];
      open := false;
      state := C.Initial;
      ignorePubAck := false;
      ignorePubComp := false;
    }

    // ---- the sender --------------------------------------------------------------------------

    /** What the peer has been sent or will be once the queue has drained. */
    ghost function Outbound(): seq<byte>
      reads this, conn, if conn == null then {} else {conn.output}
    {
      (if conn == null then [] else conn.output.data) + Framing.Stream(toBroker)
    }

    /** One round of the sending loop. */
    method SenderWrites()
      requires Valid() && conn != null && toBroker != []
      modifies this`toBroker, conn.output
      ensures Valid()
      ensures View() == old(View()).(queue := old(toBroker)[1..])
      ensures Outbound() == old(Outbound())
    {
      var message := toBroker[0];
      toBroker := toBroker[1..];
      Framing.WriteTo(message, conn.output);
    }

    method MakeRoom()
      requires Valid() && open
      modifies this`toBroker, conn.output
      ensures Valid() && View() == C.Room(old(View())) && Outbound() == old(Outbound())
    {
      if |toBroker| == C.QUEUE_CAPACITY {
        SenderWrites();
      }
    }

    /** Puts a message on the queue; if that is full, the sender goes first. */
    method Send(msg: GenericMessage) returns (failure: Option<C.Failure>)
      requires Valid()
      modifies this`toBroker, if conn == null then {} else {conn.output}
      ensures Valid()
      ensures (View(), failure) == C.Enqueue(C.Room(old(View())), msg)
      ensures Outbound() == old(Outbound()) + if failure.None? then Framing.Frame(msg) else []
      ensures old(open) ==>
                toBroker == (if old(|toBroker|) == 100 then old(toBroker)[1..] else old(toBroker)) + [msg]
    {
      if !open {
        return Some(C.SendOnClosed);
      }
      MakeRoom();
      Append(msg);
      failure := None;
    }

    method Append(msg: GenericMessage)
      requires Valid() && |toBroker| < C.QUEUE_CAPACITY
      modifies this`toBroker
      ensures Valid() && View() == old(View()).(queue := old(toBroker) + [msg])
      ensures Outbound() == old(Outbound()) + Framing.Frame(msg)
    {
      Framing.StreamAppend(toBroker, msg);
      toBroker := toBroker + [msg];
    }

    /** The sending loop after the queue is closed: it ends when the queue is empty. */
    method Drain()
      requires Valid() && conn != null
      modifies this`toBroker, conn.output
      ensures Valid()
      ensures View() == old(View()).(queue := [])
      ensures conn.output.data == old(Outbound())
    {
      while toBroker != []
        invariant Valid() && View() == old(View()).(queue := toBroker)
        invariant Outbound() == old(Outbound())
        decreases |toBroker|
      {
        SenderWrites();
      }
    }

    // ---- the answer handler ---------------------------------------------------------------------

    /** A packet released twice: its list entry is gone, and taking it out again empties the list. */
    ghost predicate ListLost()
      reads this, inFlight, if inFlight == null then {} else {inFlight.waitingList}
    {
      inFlight != null && inFlight.waitingList.front == null && inFlight.waitingList.back == null
    }

    /** The packet leaves the list, and its identifier becomes available. */
    method ReleaseAndUnset(packetID: int) returns (panicked: bool)
      requires Valid() && inFlight != null && 0 <= packetID <= 0xFFFF
      modifies inFlight.Repr()
      ensures Repr() == old(Repr()) && panicked == old(View()).ledger.Panics(packetID)
      ensures panicked ==> Valid() && View() == old(View())
      ensures Find(old(View()).ledger, packetID) == Found ==>
                Valid() && View().ledger == Unset(Release(old(View()).ledger, packetID), packetID)
      ensures Find(old(View()).ledger, packetID) == Detached ==> ListLost()
    {
      panicked := inFlight.ReleaseWaiting(packetID);
      if panicked {
        return;
      }
      inFlight.UnsetBit(packetID);
      ReleaseKeepsSane(old(View()).ledger, packetID);
    }

    method FreePacket(packetID: int) returns (failure: Option<C.Failure>)
      requires Valid() && inFlight != null && 0 <= packetID <= 0xFFFF
      modifies inFlight.Repr()
      ensures Repr() == old(Repr())
      ensures if Freed(old(View()), packetID).1 == Some(C.LostList) then failure == None && ListLost()
              else Valid() && (View(), failure) == Freed(old(View()), packetID)
    {
      var panicked := ReleaseAndUnset(packetID);
      failure := if panicked then Some(C.UnknownID) else None;
    }

    method ProcessPublishAck(msg: GenericMessage) returns (panic: Option<Panic>)
      requires Valid() && inFlight != null
      modifies inFlight.Repr()
      ensures Repr() == old(Repr()) && Outcome(C.PubAck, msg, panic, old(View())) && Outbound() == old(Outbound())
    {
      if msg.fixedHeader >> 4 != PUBACK_TYPE {
        return Some(WrongType);
      }
      if |msg.body| != 2 {
        return Some(WrongLength);
      }
      var packetID := PacketID(msg);
      if ignorePubAck {
        return None;
      }
      var failure := FreePacket(packetID);
      panic := Failing(failure);
    }

    method ProcessPublishComplete(msg: GenericMessage) returns (panic: Option<Panic>)
      requires Valid() && inFlight != null
      modifies inFlight.Repr()
      ensures Repr() == old(Repr()) && Outcome(C.PubComp, msg, panic, old(View())) && Outbound() == old(Outbound())
    {
      if msg.fixedHeader >> 4 != PUBCOMP_TYPE {
        return Some(WrongType);
      }
      if |msg.body| != 2 {
        return Some(WrongLength);
      }
      var packetID := PacketID(msg);
      if ignorePubComp {
        return None;
      }
      var failure := FreePacket(packetID);
      panic := Failing(failure);
    }

    /** The packet waits on, as another message. */
    method ReplacePacket(packetID: int, msg: GenericMessage) returns (panicked: bool)
      requires Valid() && inFlight != null && 0 <= packetID <= 0xFFFF
      modifies inFlight.Repr()
      ensures Valid() && Repr() == old(Repr())
      ensures var (after, pending) := C.TakeReplace(old(View()), packetID, msg);
              View() == after && pending == if panicked then C.Fail(C.UnknownID) else C.Send(msg)
      ensures Outbound() == old(Outbound())
    {
      panicked := inFlight.ReplaceWaiting(packetID, msg);
      ReplaceKeepsSane(old(View()).ledger, packetID, msg);
    }

    method ReplaceAndSend(packetID: int, msg: GenericMessage) returns (failure: Option<C.Failure>)
      requires Valid() && inFlight != null && 0 <= packetID <= 0xFFFF
      modifies this`toBroker, inFlight.Repr(), if conn == null then {} else {conn.output}
      ensures Valid() && Repr() == old(Repr()) && (View(), failure) == Replaced(old(View()), packetID, msg)
      ensures Outbound() == old(Outbound()) + if failure.None? then Framing.Frame(msg) else []
    {
      var panicked := ReplacePacket(packetID, msg);
      if panicked {
        return Some(C.UnknownID);
      }
      failure := Send(msg);
    }

    method ProcessPublishReceived(msg: GenericMessage) returns (panic: Option<Panic>)
      requires Valid() && inFlight != null
      modifies this`toBroker, inFlight.Repr(), if conn == null then {} else {conn.output}
      ensures Repr() == old(Repr()) && Outcome(C.PubRec, msg, panic, old(View()))
      ensures Outbound() == old(Outbound()) + if TypeOf(msg) == PUBREC_TYPE then Queues(old(View()), msg) else []
    {
      if msg.fixedHeader >> 4 != PUBREC_TYPE {
        return Some(WrongType);
      }
      if |msg.body| != 2 {
        return Some(WrongLength);
      }
      var packetID := PacketID(msg);
      if ignorePubAck {
        return None;
      }
      var failure := SendRelease(packetID);
      panic := Failing(failure);
    }

    /** The packet becomes its PUBREL, which is queued. */
    method SendRelease(packetID: int) returns (failure: Option<C.Failure>)
      requires Valid() && inFlight != null && 0 <= packetID <= 0xFFFF && !ignorePubAck
      modifies this`toBroker, inFlight.Repr(), if conn == null then {} else {conn.output}
      ensures Valid() && Repr() == old(Repr())
      ensures (View(), failure) == HandleAnswer(old(View()), C.PubRec, packetID)
      ensures failure.None? <==> !old(View()).ledger.Panics(packetID) && old(View()).open
      ensures Outbound() == old(Outbound()) + if failure.None? then Framing.Frame(ReleaseMessage(packetID)) else []
    {
      var buffer := new Buffer();
      Encode16BitIntTo(packetID, buffer);
      var releaseMsg := GenericMessage((PUBREL_TYPE << 4) | PUBREL_RESERVED, buffer.data);
      assert releaseMsg == ReleaseMessage(packetID);
      failure := ReplaceAndSend(packetID, releaseMsg);
    }

    /** The client the message leaves, and the panic; or nothing more than that the list is lost. */
    ghost predicate Outcome(kind: C.AckKind, msg: GenericMessage, panic: Option<Panic>, before: ClientState)
      reads this, inFlight, if inFlight == null then {} else inFlight.Repr()
    {
      if HandleAs(before, kind, msg).1 == Some(Failed(C.LostList)) then panic == None && ListLost()
      else Valid() && (View(), panic) == HandleAs(before, kind, msg)
    }

    method HandleMessage(msg: GenericMessage) returns (panic: Option<Panic>)
      requires Valid() && inFlight != null
      modifies this`toBroker, inFlight.Repr(), if conn == null then {} else {conn.output}
      ensures Repr() == old(Repr())
      ensures if Wire.HandleMessage(old(View()), msg).1 == Some(Failed(C.LostList)) then panic == None && ListLost()
              else Valid() && (View(), panic) == Wire.HandleMessage(old(View()), msg)
      ensures Outbound() == old(Outbound()) + Queues(old(View()), msg)
    {
      var msgType := msg.fixedHeader >> 4;
      if msgType == PUBACK_TYPE {
        panic := ProcessPublishAck(msg);
      } else if msgType == PUBREC_TYPE {
        panic := ProcessPublishReceived(msg);
      } else if msgType == PUBCOMP_TYPE {
        panic := ProcessPublishComplete(msg);
      } else {
        panic := Some(UnhandledType);
      }
    }

    /** One round of the loop: message `i`, and what it leaves of the fold over those that follow. */
    method HandleNext(messages: seq<GenericMessage>, i: nat) returns (panic: Option<Panic>)
      requires Valid() && inFlight != null && i < |messages|
      requires HandleAll(View(), messages[i..]).1 != Some(Failed(C.LostList))
      modifies this`toBroker, inFlight.Repr(), if conn == null then {} else {conn.output}
      ensures Valid() && Repr() == old(Repr())
      ensures panic.Some? ==>
                && (View(), panic) == HandleAll(old(View()), messages[i..])
                && Outbound() == old(Outbound()) + QueuesAll(old(View()), messages[i..])
      ensures panic.None? ==>
                && HandleAll(View(), messages[i + 1..]) == HandleAll(old(View()), messages[i..])
                && Outbound() + QueuesAll(View(), messages[i + 1..])
                   == old(Outbound()) + QueuesAll(old(View()), messages[i..])
    {
      NextMessage(View(), messages, i, Outbound());
      panic := HandleMessage(messages[i]);
    }

    /** The handling loop, up to the first panic. */
    method HandleEach(messages: seq<GenericMessage>) returns (panic: Option<Panic>)
      requires Valid() && inFlight != null
      requires HandleAll(View(), messages).1 != Some(Failed(C.LostList))
      modifies this`toBroker, inFlight.Repr(), if conn == null then {} else {conn.output}
      ensures Valid() && (View(), panic) == HandleAll(old(View()), messages)
      ensures Outbound() == old(Outbound()) + QueuesAll(old(View()), messages)
    {
      ghost var before, out := View(), Outbound();
      panic := None;
      var i := 0;
      assert messages[0..] == messages;
      while i < |messages|
        invariant 0 <= i <= |messages| && Valid() && Repr() == old(Repr()) && panic == None
        invariant HandleAll(View(), messages[i..]) == HandleAll(before, messages)
        invariant Outbound() + QueuesAll(View(), messages[i..]) == out + QueuesAll(before, messages)
      {
        panic := HandleNext(messages, i);
        if panic.Some? {
          return;
        }
        i := i + 1;
      }
    }

    /** The reading loop feeds the handling loop all that the peer sends before the stream ends. */
    method HandleMessages() returns (panic: Option<Panic>)
      requires Valid() && inFlight != null && conn != null
      requires HandleAll(View(), Framing.ReadAll(conn.input.rest)).1 != Some(Failed(C.LostList))
      modifies this`toBroker, inFlight.Repr(), conn.input, conn.output
      ensures Valid() && (View(), panic) == HandleAll(old(View()), Framing.ReadAll(old(conn.input.rest)))
      ensures Outbound() == old(Outbound()) + QueuesAll(old(View()), Framing.ReadAll(old(conn.input.rest)))
    {
      var messages := Framing.ReadLoop(conn.input);
      panic := HandleEach(messages);
    }

    // ---- connecting --------------------------------------------------------------------------

    /** A new ledger on the first connect, and whenever a clean session is asked for. */
    method InitInFlight(doClean: bool, ack: bool, comp: bool)
      requires Valid() && !state.Connected?
      modifies this`inFlight, this`ignorePubAck, this`ignorePubComp
      ensures Valid() && fresh(Repr() - old(Repr())) && inFlight != null
      ensures View() == C.Prepare(old(View()), doClean, ack, comp)
      ensures ignorePubAck == ack && ignorePubComp == comp
      ensures if doClean || old(inFlight) == null then inFlight.ledger == Fresh() else inFlight == old(inFlight)
    {
      if inFlight == null || doClean {
        inFlight := new InFlight.InFlight();
      }
      ignorePubAck := ack;
      ignorePubComp := comp;
    }

    /** Sends CONNECT and waits for the answer, or for the time to run out. */
    method Handshake(request: GenericMessage, timedOut: bool) returns (error: Option<SessionError>)
      requires conn != null
      modifies conn.input, conn.output
      ensures conn.output.data == old(conn.output.data) + Framing.Frame(request)
      ensures error == Reply(timedOut, old(conn.input.rest))
      ensures !timedOut ==> CutTo(old(conn.input.rest), 4) + conn.input.rest == old(conn.input.rest)
    {
      Framing.WriteTo(request, conn.output);
      if timedOut {
        return Some(TimedOut);
      }
      ghost var before := conn.input.rest;
      var response := conn.input.Read(4);
      assert response == CutTo(before, 4);
      if |response| != 4 {
        error := Some(ShortRead);
      } else if response[0] as int != (CONNACK_TYPE << 4) as int {
        error := Some(NotConnAck(response[0]));
      } else if response[1] != 2 {
        error := Some(BadLength(response[1]));
      } else if response[3] != 0 {
        error := Some(NotAccepted(response[3]));
      } else {
        error := None;
      }
    }

    /** The connection is accepted: the queue is new, and a resumed session sends again what waits. */
    method Open(clean: bool)
      requires Valid() && conn != null && inFlight != null
      modifies this`state, this`toBroker, this`open, conn.output
      ensures Valid() && View() == C.Accept(old(View()))
      ensures conn.output.data == old(conn.output.data) + SentAgain(View(), clean, true)
    {
      state := C.Connected;
      toBroker := [];
      open := true;
      if !clean {
        inFlight.ResendWaiting(conn.output);
      }
    }

    method Connect(o: ConnectRequest.ConnectOptions, ack: bool, comp: bool, timedOut: bool)
      returns (error: Option<SessionError>)
      requires Valid()
      modifies this`inFlight, this`ignorePubAck, this`ignorePubComp, this`state, this`toBroker, this`open
      modifies if conn == null then {} else {conn.input, conn.output}
      ensures Valid()
      ensures conn == null || old(state).Connected? ==>
                View() == old(View()) && error == Some(if conn == null then NoConnection else WrongState)
      ensures conn != null && !old(state).Connected? ==>
                var request := ConnectRequest.Message(o.(clientName := clientName));
                && error == Reply(timedOut, old(conn.input.rest))
                && (error.None? <==> Accepted(timedOut, old(conn.input.rest)))
                && (error == Some(TimedOut) <==> timedOut)
                && Connects(old(View()), View(), old(conn.output.data), conn.output.data, request,
                            o.cleanSession, ack, comp, error.None?)
                && (!timedOut ==> CutTo(old(conn.input.rest), 4) + conn.input.rest == old(conn.input.rest))
    {
      if conn == null {
        return Some(NoConnection);
      }
      if state.Connected? {
        return Some(WrongState);
      }
      var request := ConnectRequest.MakeMessage(o.(clientName := clientName));
      ghost var before, sent, input := View(), conn.output.data, conn.input.rest;
      error := Attempt(request, o.cleanSession, ack, comp, timedOut);
      ReplyLaw(timedOut, input);
      ConnectLaw(before, sent, request, o.cleanSession, ack, comp, error.None?);
    }

    method Attempt(request: GenericMessage, clean: bool, ack: bool, comp: bool, timedOut: bool)
      returns (error: Option<SessionError>)
      requires Valid() && conn != null && !state.Connected?
      modifies this`inFlight, this`ignorePubAck, this`ignorePubComp, this`state, this`toBroker, this`open
      modifies conn.input, conn.output
      ensures Valid() && error == Reply(timedOut, old(conn.input.rest))
      ensures !timedOut ==> CutTo(old(conn.input.rest), 4) + conn.input.rest == old(conn.input.rest)
      ensures View() == AfterConnect(old(View()), clean, ack, comp, error.None?)
      ensures conn.output.data == old(conn.output.data) + Framing.Frame(request) + SentAgain(View(), clean, error.None?)
    {
      InitInFlight(clean, ack, comp);
      error := Greet(request, clean, timedOut);
    }

    method Greet(request: GenericMessage, clean: bool, timedOut: bool) returns (error: Option<SessionError>)
      requires Valid() && conn != null && inFlight != null
      modifies this`state, this`toBroker, this`open, conn.input, conn.output
      ensures Valid() && error == Reply(timedOut, old(conn.input.rest))
      ensures !timedOut ==> CutTo(old(conn.input.rest), 4) + conn.input.rest == old(conn.input.rest)
      ensures View() == if error.None? then C.Accept(old(View())) else old(View())
      ensures conn.output.data == old(conn.output.data) + Framing.Frame(request) + SentAgain(View(), clean, error.None?)
    {
      error := Handshake(request, timedOut);
      if error.None? {
        Open(clean);
      }
    }

    // ---- disconnecting -----------------------------------------------------------------------

    /** A session never connected has nothing to do; one disconnected already reports an error. */
    method DisconnectWithoutMessage() returns (error: Option<SessionError>)
      requires Valid()
      modifies this`toBroker, this`open, this`state, if conn == null then {} else {conn.output}
      ensures Valid()
      ensures !old(state).Connected? ==>
                View() == old(View()) && error == (if state.Initial? then None else Some(WrongState))
      ensures old(state).Connected? ==>
                && error == None && conn.output.data == old(Outbound())
                && View() == old(View()).(queue := [], open := false, status := C.Disconnected)
    {
      if state.Initial? {
        return None;
      }
      if !state.Connected? {
        return Some(WrongState);
      }
      Finish();
      error := None;
    }

    /** Everything queued is written in order, and DISCONNECT is the last to go. */
    method Disconnect() returns (error: Option<SessionError>)
      requires Valid()
      modifies this`toBroker, this`open, this`state, if conn == null then {} else {conn.output}
      ensures Valid()
      ensures !old(state).Connected? ==>
                View() == old(View()) && error == (if state.Initial? then None else Some(WrongState))
      ensures old(state).Connected? ==>
                && error == None && conn.output.data == old(Outbound()) + Framing.Frame(DisconnectMessage())
                && View() == old(View()).(queue := [], open := false, status := C.Disconnected)
    {
      if state.Initial? {
        return None;
      }
      if !state.Connected? {
        return Some(WrongState);
      }
      var failure := Send(DisconnectMessage());
      Finish();
      error := None;
    }

    /** Closes the queue, lets the sender empty it, and changes the state. */
    method Finish()
      requires Valid() && state.Connected?
      modifies this`toBroker, this`open, this`state, conn.output
      ensures Valid() && conn.output.data == old(Outbound())
      ensures View() == old(View()).(queue := [], open := false, status := C.Disconnected)
    {
      state := C.Disconnected;
      open := false;
      Drain();
    }

    /** Gives the session a new connection. */
    method ReEstablish(conn: Connection)
      requires Valid() && conn.input !in Repr() && conn.output !in Repr()
      modifies this`conn
      ensures Valid() && this.conn == conn && View() == old(View())
    {
      this.conn := conn;
    }

    // ---- publishing ------------------------------------------------------------------------------

    /** Claims an identifier and registers the message under it; None if there is no identifier. */
    method RegisterMessage(o: PublishRequest.PublishOptions) returns (msg: Option<GenericMessage>)
      requires Valid() && inFlight != null
      modifies inFlight.Repr()
      ensures Valid() && fresh(Repr() - old(Repr()))
      ensures match Claim(old(View()).ledger)
              case None => msg == None && View() == old(View())
              case Some((ledger, id)) =>
                && msg == Some(PublishRequest.Message(o.(packetID := id)))
                && View() == old(View()).(ledger := Register(ledger, id, msg.value))
    {
      ghost var before := inFlight.ledger;
      assert Steps(1, 1) == MAX_ID && 1 in AllIds();
      var id := inFlight.NextPacketID();
      if id.None? {
        return None;
      }
      var message := PublishRequest.MakeMessage(o.(packetID := id.value));
      ClaimKeepsSane(before, message);
      inFlight.RegisterWaiting(id.value, message);
      msg := Some(message);
    }

    method Publish(o: PublishRequest.PublishOptions) returns (error: Option<SessionError>)
      requires Valid()
      modifies this`toBroker, if inFlight == null then {} else inFlight.Repr()
      modifies if conn == null then {} else {conn.output}
      ensures Valid()
      ensures conn == null || !old(state).Connected? ==>
                View() == old(View()) && error == Some(if conn == null then NoConnection else WrongState)
      ensures conn != null && old(state).Connected? ==>
                && (View(), error) == (AfterPublish(old(View()), o).0, Fatal(AfterPublish(old(View()), o).1))
                && Publishes(old(View()), View(), old(Outbound()), Outbound(), error, o)
    {
      if conn == null {
        return Some(NoConnection);
      }
      if !state.Connected? {
        return Some(WrongState);
      }
      PublishLaw(View(), o, Outbound());
      var failure := PublishConnected(o);
      error := Fatal(failure);
    }

    method PublishConnected(o: PublishRequest.PublishOptions) returns (failure: Option<C.Failure>)
      requires Valid() && state.Connected?
      modifies this`toBroker, inFlight.Repr(), conn.output
      ensures Valid() && (View(), failure) == AfterPublish(old(View()), o)
      ensures Outbound() == old(Outbound()) + FrameOf(PublishedMessage(old(View()), o))
    {
      var msg: GenericMessage;
      if o.qos > 0 && o.packetID == 0 {
        var registered := RegisterMessage(o);
        if registered.None? {
          return Some(C.NoFreeID);
        }
        msg := registered.value;
      } else {
        msg := PublishRequest.MakeMessage(o);
      }
      failure := Send(msg);
    }
  }
}
