/** Message framing: writing a message, marking it a duplicate, and the client's read loop. */
module Framing {
  import opened Wrappers
  import opened Messages
  import opened Encoding

  function Frame(m: GenericMessage): seq<byte> {
    [m.fixedHeader as int] + VarInt(|m.body|) + m.body
  }

  /** The bytes of a run of messages, one after the other. */
  function Stream(ms: seq<GenericMessage>): seq<byte> {
    if ms == [] then [] else Frame(ms[0]) + Stream(ms[1..])
  }

  lemma {:induction false} StreamAppend(ms: seq<GenericMessage>, m: GenericMessage)
    ensures Stream(ms + [m]) == Stream(ms) + Frame(m)
  {
    if ms == [] {
      assert [] + [m] == [m] && [m][1..] == [];
    } else {
      StreamAppend(ms[1..], m);
      assert (ms + [m])[1..] == ms[1..] + [m];
    }
  }

  /** The duplicate of a message: a PUBLISH with its DUP bit set, anything else unchanged. */
  function Dup(m: GenericMessage): GenericMessage {
    if TypeOf(m) == PUBLISH_TYPE then m.(fixedHeader := m.fixedHeader | DUP_BIT) else m
  }

  method WriteTo(m: GenericMessage, writer: Buffer)
    modifies writer
    ensures writer.data == old(writer.data) + Frame(m)
  {
    var data := new Buffer();
    var bodyLength := |m.body|;
    data.WriteByte(m.fixedHeader as int);
    var lengthBytes := EncodeVariableInt(bodyLength);
    data.Write(lengthBytes);
    if bodyLength > 0 {
      data.Write(m.body);
    }
    assert data.data == Frame(m);
    writer.Write(data.data);
  }

  method WriteDupTo(m: GenericMessage, writer: Buffer)
    modifies writer
    ensures writer.data == old(writer.data) + Frame(Dup(m))
  {
    var m2 := m;
    if m.fixedHeader >> 4 == PUBLISH_TYPE {
      m2 := GenericMessage(m.fixedHeader | DUP_BIT, m.body);
    }
    WriteTo(m2, writer);
  }

  /** A duplicate differs at most in the DUP bit, keeps its type, and is its own duplicate. */
  lemma DupChangesOnlyDup(m: GenericMessage)
    ensures Dup(m).body == m.body && TypeOf(Dup(m)) == TypeOf(m)
    ensures Dup(m).fixedHeader & !DUP_BIT == m.fixedHeader & !DUP_BIT
    ensures TypeOf(m) == PUBLISH_TYPE ==> Has(Dup(m).fixedHeader, DUP_BIT)
    ensures Dup(Dup(m)) == Dup(m)
  {
    assert (m.fixedHeader | 8) >> 4 == m.fixedHeader >> 4;
    assert (m.fixedHeader | 8) | 8 == m.fixedHeader | 8;
  }

  /** What is read after a header byte: a message or an error, and the unread bytes. */
  function ReadBody(header: byte, s: seq<byte>): (r: (Option<GenericMessage>, seq<byte>))
    ensures |r.1| <= |s|
  {
    var (length, rest) := Decode(s);
    if length.None? then (None, rest)
    else if |rest| < length.value then (None, [])
    else (Some(GenericMessage(header as bv8, rest[..length.value])), rest[length.value..])
  }

  /** The messages the read loop passes on before it stops. */
  function ReadAll(s: seq<byte>): seq<GenericMessage>
    decreases |s|
  {
    if s == [] then []
    else
      var (m, rest) := ReadBody(s[0], s[1..]);
      if m.None? then [] else [m.value] + ReadAll(rest)
  }

  method ReadMessage(fixedHeaderByte: byte, reader: Reader) returns (m: Option<GenericMessage>)
    modifies reader
    ensures (m, reader.rest) == ReadBody(fixedHeaderByte, old(reader.rest))
  {
    var remainingLength := DecodeVariableInt(reader);
    if remainingLength.None? {
      return None;
    }
    ghost var before := reader.rest;
    var body := reader.Read(remainingLength.value);
    if |body| != remainingLength.value {
      assert reader.rest == [];
      return None;
    }
    assert body == before[..remainingLength.value];
    assert reader.rest == before[remainingLength.value..];
    m := Some(GenericMessage(fixedHeaderByte as bv8, body));
  }

  method ReadLoop(reader: Reader) returns (messages: seq<GenericMessage>)
    modifies reader
    ensures messages == ReadAll(old(reader.rest))
  {
    messages := [];
    while true
      invariant messages + ReadAll(reader.rest) == ReadAll(old(reader.rest))
      decreases |reader.rest|
    {
      ghost var before := reader.rest;
      var fixedHeader := reader.Read(1);
      if |fixedHeader| == 0 {
        break;
      }
      assert before[1..] == reader.rest;
      var msg := ReadMessage(fixedHeader[0], reader);
      if msg.None? {
        assert ReadAll(before) == [];
        return;
      }
      assert ReadAll(before) == [msg.value] + ReadAll(reader.rest);
      messages := messages + [msg.value];
    }
  }

  // ---- what the read loop recovers ----------------------------------------------------

  /** How many leading messages have a body the decoder accepts. */
  function Readable(ms: seq<GenericMessage>): (n: nat)
    ensures n <= |ms|
  {
    if ms == [] || |ms[0].body| >= LIMIT then 0 else 1 + Readable(ms[1..])
  }

  lemma {:induction false} ReadableIsFirstOversized(ms: seq<GenericMessage>)
    ensures Readable(ms) < |ms| ==> |ms[Readable(ms)].body| >= LIMIT
    ensures forall i :: 0 <= i < Readable(ms) ==> |ms[i].body| < LIMIT
  {
    if ms != [] {
      ReadableIsFirstOversized(ms[1..]);
    }
  }

  lemma ReadOne(m: GenericMessage, rest: seq<byte>)
    ensures |m.body| < LIMIT ==> ReadAll(Frame(m) + rest) == [m] + ReadAll(rest)
    ensures |m.body| >= LIMIT ==> ReadAll(Frame(m) + rest) == []
  {
    var s := Frame(m) + rest;
    assert s[1..] == VarInt(|m.body|) + (m.body + rest);
    VarIntRoundTrip(|m.body|, m.body + rest);
    if |m.body| < LIMIT {
      assert (m.body + rest)[..|m.body|] == m.body;
      assert (m.body + rest)[|m.body|..] == rest;
    }
  }

  lemma StreamStep(ms: seq<GenericMessage>, rest: seq<byte>)
    requires ms != []
    ensures |ms[0].body| < LIMIT ==>
              ReadAll(Stream(ms) + rest) == [ms[0]] + ReadAll(Stream(ms[1..]) + rest)
    ensures |ms[0].body| >= LIMIT ==> ReadAll(Stream(ms) + rest) == []
  {
    assert Stream(ms) + rest == Frame(ms[0]) + (Stream(ms[1..]) + rest);
    ReadOne(ms[0], Stream(ms[1..]) + rest);
  }

  lemma Reassemble(ms: seq<GenericMessage>, tail: seq<GenericMessage>, after: seq<GenericMessage>)
    requires ms != [] && tail == ms[1..] + after
    ensures [ms[0]] + tail == ms + after
  {
  }

  lemma {:induction false} ReadWholeStream(ms: seq<GenericMessage>, rest: seq<byte>)
    requires Readable(ms) == |ms|
    ensures ReadAll(Stream(ms) + rest) == ms + ReadAll(rest)
  {
    if ms == [] {
      assert Stream(ms) + rest == rest;
      assert ms + ReadAll(rest) == ReadAll(rest);
    } else {
      ReadWholeStream(ms[1..], rest);
      StreamStep(ms, rest);
      Reassemble(ms, ReadAll(Stream(ms[1..]) + rest), ReadAll(rest));
    }
  }

  lemma {:induction false} ReadRefusedStream(ms: seq<GenericMessage>, rest: seq<byte>)
    requires Readable(ms) < |ms|
    ensures ReadAll(Stream(ms) + rest) == ms[..Readable(ms)]
  {
    StreamStep(ms, rest);
    if Readable(ms) > 0 {
      ReadRefusedStream(ms[1..], rest);
      assert [ms[0]] + ms[1..][..Readable(ms) - 1] == ms[..Readable(ms)];
    }
  }

  /** Any sequence of messages comes back whole up to the first body of 128^3 bytes or more. */
  lemma StreamRoundTrip(ms: seq<GenericMessage>)
    ensures ReadAll(Stream(ms)) == ms[..Readable(ms)]
    ensures ReadAll(Stream(ms)) == ms <==> forall m :: m in ms ==> |m.body| < LIMIT
  {
    if Readable(ms) == |ms| {
      ReadWholeStream(ms, []);
    } else {
      ReadRefusedStream(ms, []);
    }
    ReadableIsFirstOversized(ms);
    assert Stream(ms) + [] == Stream(ms);
  }

  /**
   * A frame cut after its header byte, or after length bytes whose low seven bits are all
   * zero, reads as a complete message without a body.
   */
  predicate Phantom(m: GenericMessage, cut: nat) {
    && 1 <= cut <= |VarInt(|m.body|)|
    && forall i :: 0 <= i < cut - 1 ==> VarInt(|m.body|)[i] == 128
  }

  /** A stream lost inside a frame yields the whole messages before it, plus that phantom. */
  lemma CutStream(ms: seq<GenericMessage>, m: GenericMessage, cut: nat)
    requires |m.body| < LIMIT && forall x :: x in ms ==> |x.body| < LIMIT
    requires 0 < cut < |Frame(m)|
    ensures ReadAll(Stream(ms) + Frame(m)[..cut]) ==
              ms + if Phantom(m, cut) then [GenericMessage(m.fixedHeader, [])] else []
  {
    ReadableIsFirstOversized(ms);
    assert Readable(ms) == |ms|;
    ReadWholeStream(ms, Frame(m)[..cut]);
    CutFrame(m, cut);
  }

  lemma CutFrame(m: GenericMessage, cut: nat)
    requires |m.body| < LIMIT && 0 < cut < |Frame(m)|
    ensures ReadAll(Frame(m)[..cut]) == if Phantom(m, cut) then [GenericMessage(m.fixedHeader, [])] else []
  {
    var s := Frame(m)[..cut];
    var v := VarInt(|m.body|);
    VarIntIsCanonical(|m.body|);
    VarIntLength(|m.body|);
    if cut > |v| {
      var part := m.body[..cut - 1 - |v|];
      assert s[1..] == v + part;
      VarIntRoundTrip(|m.body|, part);
    } else {
      CutLength(v, cut - 1);
      assert s[1..] == v[..cut - 1];
      assert Decode(s[1..]).1 == [];
    }
  }

  /** Cutting inside the length field leaves a smaller number, zero only if all digits are. */
  lemma CutLength(v: seq<byte>, k: nat)
    requires IsVarInt(v) && |v| <= 3 && k < |v|
    ensures Decode(v[..k]).0.Some? && Decode(v[..k]).1 == []
    ensures Decode(v[..k]).0 == Some(0) <==> forall i :: 0 <= i < k ==> v[i] == 128
  {
    var t := v[..k];
    var n := k + 1;
    assert Padded(t)[..n] == t + [0];
    DecodeMeaning(t);
    assert Decode(t) == (Some(VarValue(t + [0])), []);
    DigitsValue(t + [0], n);
    assert (t + [0])[..n] == t + [0];
    assert forall i :: 0 <= i < k ==> (v[i] as int % 128 == 0 <==> v[i] == 128);
  }
}
