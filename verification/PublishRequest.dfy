/** The PUBLISH serialiser, and a parser written from section 3.3 of MQTT 3.1.1. */
module PublishRequest {
  import opened Wrappers
  import opened Messages
  import opened Encoding
  import Framing

  datatype PublishOptions = PublishOptions(
    topic: seq<byte>, message: seq<byte>, qos: int, retain: bool, isDuplicate: bool, packetID: int)

  function HeaderBits(o: PublishOptions): bv8 {
    (PUBLISH_TYPE << 4)
    | (if o.qos == 1 then QOS_ONE else if o.qos == 2 then QOS_TWO else 0)
    | (if o.retain then RETAIN_BIT else 0)
    | (if o.isDuplicate then DUP_BIT else 0)
  }

  function Body(o: PublishOptions): seq<byte> {
    Field(o.topic) + (if o.qos > 0 then Int16(o.packetID) else []) + o.message
  }

  /** The message the serialiser builds. */
  function Message(o: PublishOptions): GenericMessage {
    GenericMessage(HeaderBits(o), Body(o))
  }

  method RemainingLength(o: PublishOptions) returns (n: nat)
    ensures n == |Body(o)|
  {
    var result := 0;
    var lengths := 0;
    result := result + |o.topic|;
    lengths := lengths + 1;
    result := result + |o.message|;
    if o.qos > 0 {
      lengths := lengths + 1;
    }
    n := result + lengths * 2;
  }

  method FixedHeaderBits(o: PublishOptions) returns (result: bv8)
    ensures result == HeaderBits(o)
  {
    result := PUBLISH_TYPE << 4;
    if o.qos == 1 {
      result := result | QOS_ONE;
    } else if o.qos == 2 {
      result := result | QOS_TWO;
    }
    if o.retain {
      result := result | RETAIN_BIT;
    }
    if o.isDuplicate {
      result := result | DUP_BIT;
    }
  }

  method MakeMessage(o: PublishOptions) returns (m: GenericMessage)
    ensures m == Message(o)
  {
    var data := new Buffer();
    EncodeBytesTo(o.topic, data);
    if o.qos > 0 {
      Encode16BitIntTo(o.packetID, data);
    }
    data.Write(o.message);
    var header := FixedHeaderBits(o);
    assert data.data == Body(o);
    m := GenericMessage(header, data.data);
  }

  // ---- the receiver's view --------------------------------------------------------

  datatype Violation = WrongType | ReservedQoS | DupOnQoS0 | Truncated | ZeroPacketID

  /** Two header bits hold the QoS; the value 3 is reserved (section 3.3.1.2). */
  function ParseQoS(header: bv8): nat {
    (if Has(header, QOS_ONE) then 1 else 0) + (if Has(header, QOS_TWO) then 2 else 0)
  }

  /** Packet identifier 0 stands for "none". */
  function Parse(m: GenericMessage): Result<PublishOptions, Violation> {
    var qos := ParseQoS(m.fixedHeader);
    var dup := Has(m.fixedHeader, DUP_BIT);
    if TypeOf(m) != PUBLISH_TYPE then Err(WrongType)
    else if qos == 3 then Err(ReservedQoS)
    else if dup && qos == 0 then Err(DupOnQoS0)
    else ParseBody(qos, Has(m.fixedHeader, RETAIN_BIT), dup, m.body)
  }

  function ParseBody(qos: nat, retain: bool, dup: bool, body: seq<byte>): Result<PublishOptions, Violation> {
    match ParseField(body)
    case None => Err(Truncated)
    case Some((topic, rest)) =>
      if qos == 0 then Ok(PublishOptions(topic, rest, 0, retain, dup, 0))
      else
        match ParseInt16(rest)
        case None => Err(Truncated)
        case Some((id, payload)) =>
          if id == 0 then Err(ZeroPacketID) else Ok(PublishOptions(topic, payload, qos, retain, dup, id))
  }

  /** What a sender must respect for its PUBLISH to arrive as meant. */
  predicate Sendable(o: PublishOptions) {
    && 0 <= o.qos <= 2
    && |o.topic| <= 0xFFFF
    && (o.qos == 0 ==> !o.isDuplicate && o.packetID == 0)
    && (o.qos > 0 ==> 1 <= o.packetID <= 0xFFFF)
  }

  lemma HeaderFields(o: PublishOptions)
    ensures HeaderBits(o) >> 4 == PUBLISH_TYPE
    ensures ParseQoS(HeaderBits(o)) == if o.qos == 1 || o.qos == 2 then o.qos else 0
    ensures Has(HeaderBits(o), RETAIN_BIT) == o.retain
    ensures Has(HeaderBits(o), DUP_BIT) == o.isDuplicate
  {
    var q: bv8 := if o.qos == 1 then 2 else if o.qos == 2 then 4 else 0;
    var r: bv8 := if o.retain then 1 else 0;
    var d: bv8 := if o.isDuplicate then 8 else 0;
    assert HeaderBits(o) == 0x30 | q | r | d;
  }

  /** The receiver recovers every field exactly when the options were sendable. */
  lemma RoundTrip(o: PublishOptions)
    ensures Parse(Message(o)) == Ok(o) <==> Sendable(o)
  {
    HeaderFields(o);
    if 0 <= o.qos <= 2 {
      BodyRoundTrip(o);
    }
  }

  lemma BodyRoundTrip(o: PublishOptions)
    requires 0 <= o.qos <= 2
    ensures ParseBody(o.qos, o.retain, o.isDuplicate, Body(o)) == Ok(o) <==>
              && |o.topic| <= 0xFFFF
              && if o.qos == 0 then o.packetID == 0 else 1 <= o.packetID <= 0xFFFF
  {
    var afterTopic := (if o.qos > 0 then Int16(o.packetID) else []) + o.message;
    assert Body(o) == Field(o.topic) + afterTopic;
    FieldRoundTrip(o.topic, afterTopic);
    Int16RoundTrip(o.packetID, o.message);
    assert o.qos <= 0 ==> afterTopic == o.message;
  }

  /** Through frame and read loop as well, while the body is below 128^3 bytes. */
  lemma WireRoundTrip(o: PublishOptions)
    requires Sendable(o) && |Body(o)| < LIMIT
    ensures |Framing.ReadAll(Framing.Frame(Message(o)))| == 1
    ensures Parse(Framing.ReadAll(Framing.Frame(Message(o)))[0]) == Ok(o)
  {
    RoundTrip(o);
    Framing.ReadOne(Message(o), []);
    assert Framing.Frame(Message(o)) + [] == Framing.Frame(Message(o));
  }

  /** Marking a duplicate is the same as having asked for one, and nothing else changes. */
  lemma DupIsDuplicateOption(o: PublishOptions)
    ensures Framing.Dup(Message(o)) == Message(o.(isDuplicate := true))
    ensures Framing.Dup(Message(o.(isDuplicate := true))) == Message(o.(isDuplicate := true))
  {
    HeaderFields(o);
    HeaderFields(o.(isDuplicate := true));
    var q: bv8 := if o.qos == 1 then 2 else if o.qos == 2 then 4 else 0;
    var r: bv8 := if o.retain then 1 else 0;
    var d: bv8 := if o.isDuplicate then 8 else 0;
    assert (0x30 | q | r | d) | 8 == 0x30 | q | r | 8;
  }
}
