/**
 * The model against the numbers of MQTT 3.1.1: what each byte on the wire means, and the bounds,
 * written out. No statement here depends on the name of a constant for its value.
 */
module Numbers {
  import opened Wrappers
  import opened Ledger
  import opened Messages
  import opened Encoding
  import opened C = Client
  import W = Wire
  import D = Delivery
  import E = Encoded
  import Framing
  import P = PublishRequest
  import Q = ConnectRequest

  // ---- answers, from their bytes ----------------------------------------------------------------

  type Session = C.Client<GenericMessage>

  /** The list is the same but for the packet at this place. */
  ghost predicate LeavesAt(was: seq<Entry<GenericMessage>>, now: seq<Entry<GenericMessage>>, k: nat, id: int) {
    k < |was| && was[k].id == id && now == was[..k] + was[k + 1..]
  }

  /** The packet and its identifier are gone; nothing else has changed. */
  ghost predicate Frees(was: Session, now: Session, id: int) {
    && now == was.(ledger := now.ledger) && now.ledger.used == was.ledger.used - {id}
    && now.ledger.next == was.ledger.next && now.ledger.indexed == was.ledger.indexed
    && (exists k :: LeavesAt(was.ledger.waiting, now.ledger.waiting, k, id))
    && forall x :: Get(now.ledger.waiting, x) == if x == id then None else Get(was.ledger.waiting, x)
  }

  /** The packet waits on as another, which is queued; nothing else has changed. */
  ghost predicate Turns(was: Session, now: Session, id: int, msg: GenericMessage) {
    && now == was.(ledger := now.ledger, queue := now.queue)
    && now.ledger == was.ledger.(waiting := now.ledger.waiting)
    && now.queue == (if |was.queue| >= 100 then was.queue[1..] else was.queue) + [msg]
    && (forall x :: Get(now.ledger.waiting, x) == if x == id then Some(msg) else Get(was.ledger.waiting, x))
    && |now.ledger.waiting| == |was.ledger.waiting|
    && forall k :: 0 <= k < |was.ledger.waiting| ==> now.ledger.waiting[k].id == was.ledger.waiting[k].id
  }

  /** A packet waits under the identifier, and the queue is open. */
  ghost predicate Awaits(c: Session, id: int) {
    && DistinctIds(c.ledger.waiting) && c.open
    && Get(c.ledger.waiting, id).Some? && id in c.ledger.used && id in c.ledger.indexed
  }

  /** First byte 0x4_: PUBACK. First byte 0x7_: PUBCOMP. Both end the exchange, if heeded. */
  lemma AckFrees(c: Session, header: bv8, hi: byte, lo: byte)
    requires (0x40 <= header <= 0x4F && !c.ignorePubAck) || (0x70 <= header <= 0x7F && !c.ignorePubComp)
    requires Awaits(c, 256 * (hi as int) + lo)
    ensures var (now, panic) := W.HandleMessage(c, GenericMessage(header, [hi, lo]));
            panic == None && Frees(c, now, 256 * (hi as int) + lo)
  {
    var id := 256 * (hi as int) + lo;
    assert header >> 4 == 4 || header >> 4 == 7;
    GetAfterRelease(c.ledger.waiting, id);
    assert LeavesAt(c.ledger.waiting, Without(c.ledger.waiting, id), IndexOf(c.ledger.waiting, id), id);
  }

  /** First byte 0x5_: PUBREC. The PUBREL 62 02 hi lo takes the packet's place and is queued. */
  lemma RecTurns(c: Session, header: bv8, hi: byte, lo: byte)
    requires 0x50 <= header <= 0x5F && !c.ignorePubAck && Awaits(c, 256 * (hi as int) + lo)
    ensures var (now, panic) := W.HandleMessage(c, GenericMessage(header, [hi, lo]));
            panic == None && Turns(c, now, 256 * (hi as int) + lo, GenericMessage(0x62, [hi, lo]))
    ensures Framing.Frame(GenericMessage(0x62, [hi, lo])) == [0x62, 2, hi, lo]
    ensures W.Queues(c, GenericMessage(header, [hi, lo])) == [0x62, 2, hi, lo]
  {
    var id := 256 * (hi as int) + lo;
    assert header >> 4 == 5;
    ReleaseBytes(hi, lo);
    GetAfterReplace(c.ledger.waiting, id, GenericMessage(0x62, [hi, lo]));
  }

  lemma ReleaseBytes(hi: byte, lo: byte)
    ensures W.ReleaseMessage(256 * (hi as int) + lo) == GenericMessage(0x62, [hi, lo])
    ensures Framing.Frame(GenericMessage(0x62, [hi, lo])) == [0x62, 2, hi, lo]
  {
    Int16Bytes(hi, lo);
    assert VarInt(2) == [2];
  }

  /** Ignored, an answer changes nothing; unknown, and heeded, it panics and changes nothing. */
  lemma OtherAnswers(c: Session, header: bv8, hi: byte, lo: byte)
    requires 0x40 <= header <= 0x5F || 0x70 <= header <= 0x7F
    ensures var id := 256 * (hi as int) + lo;
            var ignored := if header >= 0x70 then c.ignorePubComp else c.ignorePubAck;
            var r := W.HandleMessage(c, GenericMessage(header, [hi, lo]));
            && (ignored ==> r == (c, None))
            && (!ignored && (id !in c.ledger.used || id !in c.ledger.indexed) ==> r == (c, Some(W.Failed(UnknownID))))
  {
    assert header >> 4 == 4 || header >> 4 == 5 || header >> 4 == 7;
    assert header >> 4 == 7 <==> header >= 0x70;
  }

  /** With the queue closed a PUBREC still changes the ledger, and panics. */
  lemma RecOnClosed(c: Session, header: bv8, hi: byte, lo: byte)
    requires 0x50 <= header <= 0x5F && !c.ignorePubAck && Awaits(c.(open := true), 256 * (hi as int) + lo) && !c.open
    ensures var (now, panic) := W.HandleMessage(c, GenericMessage(header, [hi, lo]));
            && panic == Some(W.Failed(SendOnClosed)) && now == c.(ledger := now.ledger)
            && forall x :: Get(now.ledger.waiting, x) ==
                             if x == 256 * (hi as int) + lo then Some(GenericMessage(0x62, [hi, lo]))
                             else Get(c.ledger.waiting, x)
  {
    assert header >> 4 == 5;
    ReleaseBytes(hi, lo);
    GetAfterReplace(c.ledger.waiting, 256 * (hi as int) + lo, GenericMessage(0x62, [hi, lo]));
  }

  /** A packet that has left the list but not the index: PUBACK and PUBCOMP lose the list. */
  lemma StaleAnswers(c: Session, header: bv8, hi: byte, lo: byte)
    requires 256 * (hi as int) + lo in c.ledger.used && 256 * (hi as int) + lo in c.ledger.indexed
    requires Get(c.ledger.waiting, 256 * (hi as int) + lo).None?
    ensures var r := W.HandleMessage(c, GenericMessage(header, [hi, lo]));
            && ((0x40 <= header <= 0x4F && !c.ignorePubAck) || (0x70 <= header <= 0x7F && !c.ignorePubComp) ==>
                  r == (c, Some(W.Failed(LostList))))
            && (0x50 <= header <= 0x5F && !c.ignorePubAck && c.open ==>
                  var queue := if |c.queue| >= 100 then c.queue[1..] else c.queue;
                  r.1 == None && r.0.ledger == c.ledger && r.0.queue == queue + [GenericMessage(0x62, [hi, lo])])
  {
    assert header >> 4 == 4 <==> 0x40 <= header <= 0x4F;
    assert header >> 4 == 5 <==> 0x50 <= header <= 0x5F;
    assert header >> 4 == 7 <==> 0x70 <= header <= 0x7F;
    ReleaseBytes(hi, lo);
  }

  /** Any other first byte panics, and so does a body that is not two bytes long. */
  lemma NoAnswer(c: Session, m: GenericMessage)
    ensures var isAnswer := 0x40 <= m.fixedHeader <= 0x5F || 0x70 <= m.fixedHeader <= 0x7F;
            && (!isAnswer ==> W.HandleMessage(c, m) == (c, Some(W.UnhandledType)))
            && (isAnswer && |m.body| != 2 ==> W.HandleMessage(c, m) == (c, Some(W.WrongLength)))
  {
    var h := m.fixedHeader;
    assert h >> 4 == 4 <==> 0x40 <= h <= 0x4F;
    assert h >> 4 == 5 <==> 0x50 <= h <= 0x5F;
    assert h >> 4 == 7 <==> 0x70 <= h <= 0x7F;
  }

  /** The read loop makes such messages of four bytes, and the receiver's answers are those. */
  lemma AnswerBytes(hi: byte, lo: byte)
    ensures Framing.ReadAll([0x40, 2, hi, lo]) == [GenericMessage(0x40, [hi, lo])]
    ensures Framing.ReadAll([0x50, 2, hi, lo]) == [GenericMessage(0x50, [hi, lo])]
    ensures Framing.ReadAll([0x70, 2, hi, lo]) == [GenericMessage(0x70, [hi, lo])]
    ensures W.AckMessage(PubAck, 256 * (hi as int) + lo) == GenericMessage(0x40, [hi, lo])
    ensures W.AckMessage(PubRec, 256 * (hi as int) + lo) == GenericMessage(0x50, [hi, lo])
    ensures W.AckMessage(PubComp, 256 * (hi as int) + lo) == GenericMessage(0x70, [hi, lo])
  {
    Int16Bytes(hi, lo);
    AnswerIsRead(GenericMessage(0x40, [hi, lo]), 0x40);
    AnswerIsRead(GenericMessage(0x50, [hi, lo]), 0x50);
    AnswerIsRead(GenericMessage(0x70, [hi, lo]), 0x70);
  }

  lemma AnswerIsRead(m: GenericMessage, header: byte)
    requires m.fixedHeader as int == header && |m.body| == 2
    ensures Framing.ReadAll([header, 2, m.body[0], m.body[1]]) == [m]
  {
    assert VarInt(2) == [2];
    assert Framing.Frame(m) == [header, 2, m.body[0], m.body[1]];
    Framing.ReadOne(m, []);
    assert Framing.Frame(m) + [] == Framing.Frame(m);
    assert [m] + Framing.ReadAll([]) == [m];
  }

  // ---- integers (sections 1.5.2 and 2.2.3) -------------------------------------------------------

  lemma Int16Bytes(hi: byte, lo: byte)
    ensures Int16(256 * (hi as int) + lo) == [hi, lo]
  {
  }

  /** The edges of the table of remaining lengths, and the largest that is read. */
  lemma LengthBytes()
    ensures VarInt(0) == [0] && VarInt(127) == [0x7F]
    ensures VarInt(128) == [0x80, 1] && VarInt(16383) == [0xFF, 0x7F]
    ensures VarInt(16384) == [0x80, 0x80, 1] && VarInt(2097151) == [0xFF, 0xFF, 0x7F]
    ensures VarInt(2097152) == [0x80, 0x80, 0x80, 1]
    ensures VarInt(321) == [0xC1, 2]
    ensures LIMIT == 2097152
  {
  }

  // ---- first bytes and layouts ---------------------------------------------------------------------

  lemma FirstBytes(o: Q.ConnectOptions)
    ensures Q.Message(o).fixedHeader == 0x10
    ensures Framing.Frame(DisconnectMessage()) == [0xE0, 0]
  {
    assert VarInt(0) == [0];
  }

  /** PUBLISH: 48, and 8 for DUP, twice the QoS, and 1 for RETAIN. */
  lemma PublishHeader(o: P.PublishOptions)
    ensures P.HeaderBits(o) ==
              48 + (if o.isDuplicate then 8 else 0) + (if o.qos == 2 then 4 else if o.qos == 1 then 2 else 0)
              + (if o.retain then 1 else 0)
  {
  }

  lemma PublishBody(o: P.PublishOptions)
    requires |o.topic| <= 65535
    ensures o.qos <= 0 ==> P.Body(o) == [|o.topic| / 256, |o.topic| % 256] + o.topic + o.message
    ensures o.qos > 0 && 0 <= o.packetID <= 65535 ==>
              P.Body(o) ==
                [|o.topic| / 256, |o.topic| % 256] + o.topic + [o.packetID / 256, o.packetID % 256] + o.message
  {
  }

  /** The QoS of the protocol's messages, on the wire. */
  lemma PacketHeader(content: D.Message -> E.Content, id: int, m: D.Message, dup: bool)
    ensures E.Encode(content, D.Publish(id, m, dup)).fixedHeader ==
              48 + (if dup then 8 else 0)
              + (match m.qos case AtMostOnce => 0 case AtLeastOnce => 2 case ExactlyOnce => 4)
              + (if content(m).retain then 1 else 0)
  {
    PublishHeader(E.Options(content, id, m, dup));
  }

  /** Topic, identifier and payload of the protocol's messages, on the wire. */
  lemma PacketBody(content: D.Message -> E.Content, id: int, m: D.Message, dup: bool)
    requires |content(m).topic| <= 65535 && 0 <= id <= 65535 && !m.qos.AtMostOnce?
    ensures var topic := content(m).topic;
            E.Encode(content, D.Publish(id, m, dup)).body ==
              [|topic| / 256, |topic| % 256] + topic + [id / 256, id % 256] + content(m).payload
    ensures E.Encode(content, D.PubRel(id, m)) == GenericMessage(0x62, [id / 256, id % 256])
  {
    PublishBody(E.Options(content, id, m, dup));
  }

  /** A duplicate has 8 more in the first byte of a PUBLISH that has not, and is else the same. */
  lemma DuplicateHeader(m: GenericMessage)
    ensures 0x30 <= m.fixedHeader <= 0x37 || 0x38 <= m.fixedHeader <= 0x3F || Framing.Dup(m) == m
    ensures 0x30 <= m.fixedHeader <= 0x37 ==> Framing.Dup(m) == m.(fixedHeader := m.fixedHeader + 8)
    ensures 0x38 <= m.fixedHeader <= 0x3F ==> Framing.Dup(m) == m
  {
    var h := m.fixedHeader;
    assert h >> 4 == 3 <==> 0x30 <= h <= 0x3F;
    assert 0x30 <= h <= 0x37 ==> h | 8 == h + 8;
    assert 0x38 <= h <= 0x3F ==> h | 8 == h;
  }

  /** CONNECT: 2 clean session, 4 will, 8 times the will QoS, 32 will retain, 64 password, 128 user name. */
  lemma ConnectFlags(o: Q.ConnectOptions)
    ensures Q.Flags(o) ==
              (if o.cleanSession then 2 else 0) + (if o.willTopic != [] then 4 else 0)
              + (if o.willQoS == 2 then 16 else if o.willQoS == 1 then 8 else 0) + (if o.willRetain then 32 else 0)
              + (if o.password.Some? then 64 else 0) + (if o.userName != [] then 128 else 0)
  {
    var c: bv8 := if o.cleanSession then 2 else 0;
    var w: bv8 := if o.willTopic != [] then 4 else 0;
    var q: bv8 := if o.willQoS == 1 then 8 else if o.willQoS == 2 then 16 else 0;
    var r: bv8 := if o.willRetain then 32 else 0;
    var u: bv8 := if o.userName != [] then 128 else 0;
    var p: bv8 := if o.password.Some? then 64 else 0;
    assert Q.Flags(o) == c | w | q | r | u | p;
    assert c | w | q | r | u | p == c + w + q + r + p + u;
  }

  function Prefixed(field: seq<byte>): seq<byte> {
    [|field| / 256 % 256, |field| % 256] + field
  }

  function If(present: bool, field: seq<byte>): seq<byte> {
    if present then Prefixed(field) else []
  }

  /** "MQTT", level, flags and keep alive; then name, will topic and message, user name, password. */
  lemma ConnectBody(o: Q.ConnectOptions)
    requires 0 <= o.keepAliveSeconds <= 65535
    ensures Q.Message(o).body == Q.VariableHeader(o) + Q.Payload(o)
    ensures Q.VariableHeader(o) ==
              [0, 4, 77, 81, 84, 84, o.level, Q.Flags(o) as int, o.keepAliveSeconds / 256, o.keepAliveSeconds % 256]
    ensures var will := o.willTopic != [];
            Q.Payload(o) ==
              Prefixed(o.clientName) + If(will, o.willTopic) + If(will, o.willMessage)
              + If(o.userName != [], o.userName)
              + If(o.password.Some?, if o.password.Some? then o.password.value else [])
  {
    ConnectStart(o);
    FieldIsPrefixed(o.clientName);
    FieldIsPrefixed(o.willTopic);
    FieldIsPrefixed(o.willMessage);
    FieldIsPrefixed(o.userName);
    FieldIsPrefixed(Q.PasswordBytes(o));
  }

  lemma FieldIsPrefixed(value: seq<byte>)
    ensures Field(value) == Prefixed(value)
  {
  }

  lemma ConnectStart(o: Q.ConnectOptions)
    requires 0 <= o.keepAliveSeconds <= 65535
    ensures Q.VariableHeader(o) ==
              [0, 4, 77, 81, 84, 84, o.level, Q.Flags(o) as int, o.keepAliveSeconds / 256, o.keepAliveSeconds % 256]
  {
  }

  /** The sender's queue holds 100 messages. */
  lemma QueueHoldsHundred(c: Session)
    requires c.open
    ensures |c.queue| < 100 ==> Room(c) == c
    ensures |c.queue| == 100 ==> Room(c) == c.(queue := c.queue[1..])
  {
  }
}
