/** The CONNECT serialiser, and a parser written from section 3.1 of MQTT 3.1.1. */
module ConnectRequest {
  import opened Wrappers
  import opened Messages
  import opened Encoding

  datatype ConnectOptions = ConnectOptions(
    level: byte, cleanSession: bool, keepAliveSeconds: int, clientName: seq<byte>,
    willTopic: seq<byte>, willMessage: seq<byte>, willQoS: int, willRetain: bool,
    userName: seq<byte>, password: Option<seq<byte>>)

  function Flags(o: ConnectOptions): bv8 {
    (if o.cleanSession then CLEAN_SESSION_FLAG else 0)
    | (if o.willTopic != [] then WILL_FLAG else 0)
    | (if o.willQoS == 1 then WILL_QOS_ONE else if o.willQoS == 2 then WILL_QOS_TWO else 0)
    | (if o.willRetain then WILL_RETAIN_FLAG else 0)
    | (if o.userName != [] then USER_NAME_FLAG else 0)
    | (if o.password.Some? then PASSWORD_FLAG else 0)
  }

  /** Protocol name and level, flags and keep alive: ten bytes. */
  function VariableHeader(o: ConnectOptions): seq<byte> {
    [0, 4, 'M' as int, 'Q' as int, 'T' as int, 'T' as int, o.level, Flags(o) as int]
    + Int16(o.keepAliveSeconds)
  }

  function OptionalField(present: bool, value: seq<byte>): seq<byte> {
    if present then Field(value) else []
  }

  function PasswordBytes(o: ConnectOptions): seq<byte> {
    if o.password.Some? then o.password.value else []
  }

  function Payload(o: ConnectOptions): seq<byte> {
    Field(o.clientName)
    + OptionalField(o.willTopic != [], o.willTopic)
    + OptionalField(o.willTopic != [], o.willMessage)
    + OptionalField(o.userName != [], o.userName)
    + OptionalField(o.password.Some?, PasswordBytes(o))
  }

  /** The message the serialiser builds. */
  function Message(o: ConnectOptions): GenericMessage {
    GenericMessage(CONNECT_TYPE << 4, VariableHeader(o) + Payload(o))
  }

  method RemainingLength(o: ConnectOptions) returns (n: nat)
    ensures |Message(o).body| == 10 + n + if o.clientName == [] then 2 else 0
  {
    var result := 0;
    var count := 0;
    if o.clientName != [] {
      result := result + |o.clientName|;
      count := count + 1;
    }
    if o.willTopic != [] {
      result := result + |o.willTopic|;
      count := count + 1;
      result := result + |o.willMessage|;
      count := count + 1;
    }
    if o.userName != [] {
      result := result + |o.userName|;
      count := count + 1;
    }
    if o.password.Some? {
      result := result + |o.password.value|;
      count := count + 1;
    }
    n := result + count * 2;
  }

  method ConnectBits(o: ConnectOptions) returns (connectBits: bv8)
    ensures connectBits == Flags(o)
  {
    connectBits := 0;
    if o.cleanSession {
      connectBits := connectBits | CLEAN_SESSION_FLAG;
    }
    if o.willTopic != [] {
      connectBits := connectBits | WILL_FLAG;
    }
    if o.willQoS != 0 {
      match o.willQoS {
        case 1 => connectBits := connectBits | WILL_QOS_ONE;
        case 2 => connectBits := connectBits | WILL_QOS_TWO;
        case _ =>
      }
    }
    if o.willRetain {
      connectBits := connectBits | WILL_RETAIN_FLAG;
    }
    if o.userName != [] {
      connectBits := connectBits | USER_NAME_FLAG;
    }
    if o.password.Some? {
      connectBits := connectBits | PASSWORD_FLAG;
    }
  }

  method WriteVariableHeader(o: ConnectOptions, connectBits: bv8, data: Buffer)
    requires connectBits == Flags(o)
    modifies data
    ensures data.data == old(data.data) + VariableHeader(o)
  {
    var keepAlive := o.keepAliveSeconds;
    data.WriteByte(0);
    data.WriteByte(4);
    data.Write(['M' as int, 'Q' as int, 'T' as int, 'T' as int]);
    data.WriteByte(o.level);
    data.WriteByte(connectBits as int);
    data.WriteByte(keepAlive / 256 % 256);
    data.WriteByte(keepAlive % 256);
    assert data.data == old(data.data) + VariableHeader(o);
  }

  method WriteWill(o: ConnectOptions, connectBits: bv8, data: Buffer)
    requires connectBits == Flags(o)
    modifies data
    ensures data.data == old(data.data) + OptionalField(o.willTopic != [], o.willTopic)
                         + OptionalField(o.willTopic != [], o.willMessage)
  {
    FlagFields(o);
    if Has(connectBits, WILL_FLAG) {
      EncodeBytesTo(o.willTopic, data);
      EncodeBytesTo(o.willMessage, data);
    }
  }

  method WriteCredentials(o: ConnectOptions, connectBits: bv8, data: Buffer)
    requires connectBits == Flags(o)
    modifies data
    ensures data.data == old(data.data) + OptionalField(o.userName != [], o.userName)
                         + OptionalField(o.password.Some?, PasswordBytes(o))
  {
    FlagFields(o);
    if Has(connectBits, USER_NAME_FLAG) {
      EncodeBytesTo(o.userName, data);
    }
    if Has(connectBits, PASSWORD_FLAG) {
      EncodeBytesTo(o.password.value, data);
    }
  }

  lemma Regroup(a: seq<byte>, b: seq<byte>, c: seq<byte>, d: seq<byte>, e: seq<byte>, f: seq<byte>)
    ensures [] + a + b + c + d + e + f == a + (b + c + d + e + f)
  {
  }

  method MakeMessage(o: ConnectOptions) returns (m: GenericMessage)
    ensures m == Message(o)
  {
    var data := new Buffer();
    var connectBits := ConnectBits(o);
    WriteVariableHeader(o, connectBits, data);
    EncodeBytesTo(o.clientName, data);
    WriteWill(o, connectBits, data);
    WriteCredentials(o, connectBits, data);
    ghost var will, user := o.willTopic != [], o.userName != [];
    Regroup(
      VariableHeader(o), Field(o.clientName), OptionalField(will, o.willTopic),
      OptionalField(will, o.willMessage), OptionalField(user, o.userName),
      OptionalField(o.password.Some?, PasswordBytes(o)));
    m := GenericMessage(CONNECT_TYPE << 4, data.data);
  }

  lemma FlagFields(o: ConnectOptions)
    ensures Has(Flags(o), CLEAN_SESSION_FLAG) == o.cleanSession
    ensures Has(Flags(o), WILL_FLAG) == (o.willTopic != [])
    ensures Has(Flags(o), WILL_QOS_ONE) == (o.willQoS == 1)
    ensures Has(Flags(o), WILL_QOS_TWO) == (o.willQoS == 2)
    ensures Has(Flags(o), WILL_RETAIN_FLAG) == o.willRetain
    ensures Has(Flags(o), USER_NAME_FLAG) == (o.userName != [])
    ensures Has(Flags(o), PASSWORD_FLAG) == o.password.Some?
    ensures !Has(Flags(o), 1)
  {
    var c: bv8 := if o.cleanSession then 2 else 0;
    var w: bv8 := if o.willTopic != [] then 4 else 0;
    var q: bv8 := if o.willQoS == 1 then 8 else if o.willQoS == 2 then 16 else 0;
    var r: bv8 := if o.willRetain then 32 else 0;
    var u: bv8 := if o.userName != [] then 128 else 0;
    var p: bv8 := if o.password.Some? then 64 else 0;
    assert Flags(o) == c | w | q | r | u | p;
  }

  // ---- the receiver's view --------------------------------------------------------

  datatype Violation =
    | WrongHeader | WrongProtocol | ReservedFlag | WillFlagsWithoutWill | ReservedWillQoS
    | PasswordWithoutUserName | Truncated | TrailingBytes | UnnamedPersistentSession

  /** An absent optional field reads as empty; a will message needs the will flag. */
  function ParseOptional(present: bool, s: seq<byte>): Option<(seq<byte>, seq<byte>)> {
    if present then ParseField(s) else Some(([], s))
  }

  function ParseWillQoS(flags: bv8): nat {
    (if Has(flags, WILL_QOS_ONE) then 1 else 0) + (if Has(flags, WILL_QOS_TWO) then 2 else 0)
  }

  /** The rules of section 3.1.2.3 to 3.1.2.9 on the connect flags. */
  function FlagViolation(flags: bv8): Option<Violation> {
    if Has(flags, 1) then Some(ReservedFlag)
    else if !Has(flags, WILL_FLAG) && (ParseWillQoS(flags) != 0 || Has(flags, WILL_RETAIN_FLAG)) then
      Some(WillFlagsWithoutWill)
    else if ParseWillQoS(flags) == 3 then Some(ReservedWillQoS)
    else if Has(flags, PASSWORD_FLAG) && !Has(flags, USER_NAME_FLAG) then Some(PasswordWithoutUserName)
    else None
  }

  /** The optional payload fields in the order of section 3.1.3, as selected by the flags. */
  function ParseCredentials(flags: bv8, s: seq<byte>): Option<(seq<byte>, seq<byte>, seq<byte>)> {
    match ParseOptional(Has(flags, USER_NAME_FLAG), s)
    case None => None
    case Some((userName, s1)) =>
      match ParseOptional(Has(flags, PASSWORD_FLAG), s1)
      case None => None
      case Some((password, s2)) => Some((userName, password, s2))
  }

  function ParseWill(flags: bv8, s: seq<byte>): Option<(seq<byte>, seq<byte>, seq<byte>)> {
    match ParseOptional(Has(flags, WILL_FLAG), s)
    case None => None
    case Some((topic, s1)) =>
      match ParseOptional(Has(flags, WILL_FLAG), s1)
      case None => None
      case Some((message, s2)) => Some((topic, message, s2))
  }

  function ParsePayload(level: byte, flags: bv8, keepAlive: nat, s: seq<byte>): Result<ConnectOptions, Violation> {
    match ParseField(s)
    case None => Err(Truncated)
    case Some((clientName, s1)) => ParseOptions(level, flags, keepAlive, clientName, s1)
  }

  function ParseOptions(level: byte, flags: bv8, keepAlive: nat, clientName: seq<byte>, s: seq<byte>)
    : Result<ConnectOptions, Violation>
  {
    match ParseWill(flags, s)
    case None => Err(Truncated)
    case Some((willTopic, willMessage, s2)) =>
      match ParseCredentials(flags, s2)
      case None => Err(Truncated)
      case Some((userName, password, s3)) =>
        if s3 != [] then Err(TrailingBytes)
        else Ok(ConnectOptions(
                  level, Has(flags, CLEAN_SESSION_FLAG), keepAlive, clientName, willTopic, willMessage,
                  ParseWillQoS(flags), Has(flags, WILL_RETAIN_FLAG), userName,
                  if Has(flags, PASSWORD_FLAG) then Some(password) else None))
  }

  function ParseBody(body: seq<byte>): Result<ConnectOptions, Violation> {
    if |body| < 10 then Err(Truncated)
    else if body[..6] != [0, 4, 'M' as int, 'Q' as int, 'T' as int, 'T' as int] then Err(WrongProtocol)
    else ParsePayload(body[6], body[7] as bv8, 256 * (body[8] as int) + body[9], body[10..])
  }

  /** A receiver that also enforces the rules on flags and on unnamed clients. */
  function StrictParse(m: GenericMessage): Result<ConnectOptions, Violation> {
    if m.fixedHeader != CONNECT_TYPE << 4 then Err(WrongHeader)
    else
      match ParseBody(m.body)
      case Err(v) => Err(v)
      case Ok(o) =>
        var broken := FlagViolation(m.body[7] as bv8);
        if broken.Some? then Err(broken.value)
        else if o.clientName == [] && !o.cleanSession then Err(UnnamedPersistentSession)
        else Ok(o)
  }

  /** Lengths and keep alive fit their 16 bits, and the will QoS is one of the three. */
  predicate Encodable(o: ConnectOptions) {
    && 0 <= o.keepAliveSeconds <= 0xFFFF && 0 <= o.willQoS <= 2
    && |o.clientName| <= 0xFFFF && |o.userName| <= 0xFFFF
    && |o.willTopic| <= 0xFFFF && |o.willMessage| <= 0xFFFF
    && (o.password.Some? ==> |o.password.value| <= 0xFFFF)
  }

  /** The request as the receiver sees it: a will message without a topic is not sent. */
  function AsSent(o: ConnectOptions): ConnectOptions {
    if o.willTopic == [] then o.(willMessage := []) else o
  }

  lemma OptionalRoundTrip(present: bool, value: seq<byte>, rest: seq<byte>)
    requires |value| <= 0xFFFF
    ensures ParseOptional(present, OptionalField(present, value) + rest)
         == Some((if present then value else [], rest))
  {
    FieldRoundTrip(value, rest);
    assert [] + rest == rest;
  }

  /** What is sent does not depend on a will message without a topic. */
  lemma SentAsSent(o: ConnectOptions)
    ensures Message(AsSent(o)) == Message(o) && AsSent(AsSent(o)) == AsSent(o)
  {
    assert Flags(AsSent(o)) == Flags(o);
    assert VariableHeader(AsSent(o)) == VariableHeader(o) && Payload(AsSent(o)) == Payload(o);
  }

  /** The receiver recovers every field the flags select, exactly when all of them fit. */
  lemma RoundTrip(o: ConnectOptions)
    ensures ParseBody(Message(o).body) == Ok(AsSent(o)) <==> Encodable(AsSent(o))
  {
    SentAsSent(o);
    if Encodable(AsSent(o)) {
      SentIsParsed(AsSent(o));
    } else {
      UnfitIsLost(AsSent(o));
    }
  }

  lemma HeaderIsParsed(o: ConnectOptions)
    ensures var body := Message(o).body;
            && |body| >= 10 && body[..6] == [0, 4, 'M' as int, 'Q' as int, 'T' as int, 'T' as int]
            && body[6] == o.level && body[7] == Flags(o) as int && body[10..] == Payload(o)
            && 256 * (body[8] as int) + body[9] == o.keepAliveSeconds % 65536
  {
    var body := Message(o).body;
    assert body[..6] == VariableHeader(o)[..6];
    HighAndLow(o.keepAliveSeconds);
  }

  lemma BodyIsParsed(o: ConnectOptions)
    ensures ParseBody(Message(o).body) == ParsePayload(o.level, Flags(o), o.keepAliveSeconds % 65536, Payload(o))
  {
    HeaderIsParsed(o);
    var body := Message(o).body;
    assert body[7] as bv8 == Flags(o);
  }

  lemma SmallRemainder(n: int)
    requires 0 <= n <= 0xFFFF
    ensures n % 65536 == n
  {
  }

  lemma SentIsParsed(o: ConnectOptions)
    requires Encodable(o)
    ensures ParseBody(Message(o).body) == Ok(AsSent(o))
  {
    BodyIsParsed(o);
    SmallRemainder(o.keepAliveSeconds);
    PayloadRoundTrip(o);
  }

  /** What is parsed always fits; so a request that does not is read as another. */
  lemma UnfitIsLost(o: ConnectOptions)
    requires !Encodable(o)
    ensures ParseBody(Message(o).body) != Ok(o)
  {
    BodyIsParsed(o);
    FlagFields(o);
    ParsedFits(o.level, Flags(o), o.keepAliveSeconds % 65536, Payload(o));
  }

  lemma ParsedFits(level: byte, flags: bv8, keepAlive: nat, s: seq<byte>)
    ensures ParsePayload(level, flags, keepAlive, s).Ok? ==>
              var o := ParsePayload(level, flags, keepAlive, s).value;
              && o.keepAliveSeconds == keepAlive && o.willQoS == ParseWillQoS(flags)
              && |o.clientName| <= 0xFFFF && |o.userName| <= 0xFFFF
              && |o.willTopic| <= 0xFFFF && |o.willMessage| <= 0xFFFF
              && (o.password.Some? ==> |o.password.value| <= 0xFFFF)
  {
    if ParseField(s).Some? {
      var s1 := ParseField(s).value.1;
      WillFits(flags, s1);
      if ParseWill(flags, s1).Some? {
        CredentialsFit(flags, ParseWill(flags, s1).value.2);
      }
    }
  }

  lemma WillFits(flags: bv8, s: seq<byte>)
    ensures ParseWill(flags, s).Some? ==>
              |ParseWill(flags, s).value.0| <= 0xFFFF && |ParseWill(flags, s).value.1| <= 0xFFFF
  {
  }

  lemma CredentialsFit(flags: bv8, s: seq<byte>)
    ensures ParseCredentials(flags, s).Some? ==>
              |ParseCredentials(flags, s).value.0| <= 0xFFFF && |ParseCredentials(flags, s).value.1| <= 0xFFFF
  {
  }

  lemma WillRoundTrip(o: ConnectOptions, rest: seq<byte>)
    requires Encodable(o)
    ensures var will := o.willTopic != [];
            var s := OptionalField(will, o.willTopic) + (OptionalField(will, o.willMessage) + rest);
            ParseWill(Flags(o), s) == Some((o.willTopic, AsSent(o).willMessage, rest))
  {
    FlagFields(o);
    var will := o.willTopic != [];
    OptionalRoundTrip(will, o.willTopic, OptionalField(will, o.willMessage) + rest);
    OptionalRoundTrip(will, o.willMessage, rest);
  }

  lemma CredentialsRoundTrip(o: ConnectOptions)
    requires Encodable(o)
    ensures var s := OptionalField(o.userName != [], o.userName) + OptionalField(o.password.Some?, PasswordBytes(o));
            ParseCredentials(Flags(o), s) == Some((o.userName, PasswordBytes(o), []))
  {
    FlagFields(o);
    var p := OptionalField(o.password.Some?, PasswordBytes(o));
    OptionalRoundTrip(o.userName != [], o.userName, p);
    OptionalRoundTrip(o.password.Some?, PasswordBytes(o), []);
    assert p + [] == p;
  }

  lemma PayloadRoundTrip(o: ConnectOptions)
    requires Encodable(o)
    ensures ParsePayload(o.level, Flags(o), o.keepAliveSeconds, Payload(o)) == Ok(AsSent(o))
  {
    var will := o.willTopic != [];
    var s2 := OptionalField(o.userName != [], o.userName) + OptionalField(o.password.Some?, PasswordBytes(o));
    var s1 := OptionalField(will, o.willTopic) + (OptionalField(will, o.willMessage) + s2);
    assert Payload(o) == Field(o.clientName) + s1;
    FieldRoundTrip(o.clientName, s1);
    OptionsRoundTrip(o, s1, s2);
  }

  lemma OptionsRoundTrip(o: ConnectOptions, s1: seq<byte>, s2: seq<byte>)
    requires Encodable(o)
    requires s2 == OptionalField(o.userName != [], o.userName) + OptionalField(o.password.Some?, PasswordBytes(o))
    requires var will := o.willTopic != [];
             s1 == OptionalField(will, o.willTopic) + (OptionalField(will, o.willMessage) + s2)
    ensures ParseOptions(o.level, Flags(o), o.keepAliveSeconds, o.clientName, s1) == Ok(AsSent(o))
  {
    FlagFields(o);
    WillRoundTrip(o, s2);
    CredentialsRoundTrip(o);
  }

  /** The flags the serialiser sets break section 3.1 exactly in these combinations. */
  lemma StrictRoundTrip(o: ConnectOptions)
    ensures StrictParse(Message(o)) == Ok(AsSent(o)) <==>
              && Encodable(AsSent(o))
              && (o.willTopic == [] ==> o.willQoS == 0 && !o.willRetain)
              && (o.password.Some? ==> o.userName != [])
              && (o.clientName == [] ==> o.cleanSession)
  {
    RoundTrip(o);
    HeaderIsParsed(o);
    if Encodable(AsSent(o)) {
      FlagsAreLegal(o);
    }
  }

  lemma FlagsAreLegal(o: ConnectOptions)
    requires 0 <= o.willQoS <= 2
    ensures FlagViolation(Flags(o)).None? <==>
              && (o.willTopic == [] ==> o.willQoS == 0 && !o.willRetain)
              && (o.password.Some? ==> o.userName != [])
  {
    FlagFields(o);
  }
}
