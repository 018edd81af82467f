/** Integer and field codecs of the wire format. */
module Encoding {
  import opened Wrappers
  import opened Messages

  /** A growing byte buffer, or anything else bytes are appended to. */
  class Buffer {
    var data: seq<byte>

    constructor ()
      ensures data == []
    {
      data := [];
    }

    method WriteByte(b: byte)
      modifies this
      ensures data == old(data) + [b]
    {
      data := data + [b];
    }

    method Write(bs: seq<byte>)
      modifies this
      ensures data == old(data) + bs
    {
      data := data + bs;
    }

    /** Takes as many as `n` bytes from the front. */
    method Read(n: nat) returns (bs: seq<byte>)
      modifies this
      ensures |bs| == if n <= |old(data)| then n else |old(data)|
      ensures bs + data == old(data)
    {
      var k := if n <= |data| then n else |data|;
      bs := data[..k];
      data := data[k..];
    }
  }

  /** A byte stream that ends; the bytes not yet read are in `rest`. */
  class Reader {
    var rest: seq<byte>

    constructor (bytes: seq<byte>)
      ensures rest == bytes
    {
      rest := bytes;
    }

    /** Reads as many as `n` bytes; fewer only at the end of the stream. */
    method Read(n: nat) returns (bs: seq<byte>)
      modifies this
      ensures |bs| == if n <= |old(rest)| then n else |old(rest)|
      ensures bs + rest == old(rest)
    {
      var k := if n <= |rest| then n else |rest|;
      bs := rest[..k];
      rest := rest[k..];
    }
  }

  // ---- variable length integers (section 2.2.3 of MQTT 3.1.1) -----------------------

  const LIMIT: nat := 128 * 128 * 128

  function VarInt(v: nat): seq<byte> {
    if v < 128 then [v] else [v % 128 + 128] + VarInt(v / 128)
  }

  /** The number a run of base-128 digits stands for, least significant digit first. */
  function VarValue(s: seq<byte>): nat {
    if s == [] then 0 else s[0] % 128 + 128 * VarValue(s[1..])
  }

  /** Every byte but the last has the continuation bit. */
  ghost predicate IsVarInt(s: seq<byte>) {
    |s| > 0 && s[|s| - 1] < 128 && forall i :: 0 <= i < |s| - 1 ==> s[i] >= 128
  }

  ghost predicate Minimal(s: seq<byte>)
    requires |s| > 0
  {
    |s| == 1 || s[|s| - 1] != 0
  }

  /** The encoding is well formed, minimal, and means the value. */
  lemma {:induction false} VarIntIsCanonical(v: nat)
    ensures IsVarInt(VarInt(v)) && Minimal(VarInt(v)) && VarValue(VarInt(v)) == v
    ensures v > 0 ==> VarInt(v)[|VarInt(v)| - 1] > 0
  {
    if v >= 128 {
      VarIntIsCanonical(v / 128);
      assert VarInt(v)[1..] == VarInt(v / 128);
    }
  }

  lemma FirstDigit(digit: nat, more: nat)
    requires digit < 128
    ensures (digit + 128 * more) % 128 == digit && (digit + 128 * more) / 128 == more
  {
  }

  /** It is the only minimal well-formed encoding of the value. */
  lemma {:induction false} VarIntIsUnique(s: seq<byte>)
    requires IsVarInt(s) && Minimal(s)
    ensures VarInt(VarValue(s)) == s
    ensures |s| > 1 ==> VarValue(s) >= 128
  {
    if |s| > 1 {
      VarIntIsUnique(s[1..]);
      assert s[1..][|s| - 2] == s[|s| - 1];
      FirstDigit(s[0] % 128, VarValue(s[1..]));
      assert s == [s[0]] + s[1..];
    } else {
      assert s[1..] == [] && VarValue([]) == 0;
    }
  }

  /** No encoding is a proper prefix of another. */
  lemma VarIntPrefixFree(a: nat, b: nat)
    requires VarInt(a) <= VarInt(b)
    ensures a == b
  {
    VarIntIsCanonical(a);
    VarIntIsCanonical(b);
    var n := |VarInt(a)|;
    assert VarInt(a)[n - 1] == VarInt(b)[n - 1];
    assert n == |VarInt(b)|;
  }

  lemma VarIntLength(v: nat)
    ensures |VarInt(v)| <= 3 <==> v < LIMIT
  {
    if v >= 128 {
      var w := v / 128;
      if w >= 128 {
        var x := w / 128;
        assert VarInt(v) == [v % 128 + 128, w % 128 + 128] + VarInt(x);
        if x >= 128 {
          VarIntIsCanonical(x / 128);
        }
      }
    }
  }

  /** Go's integers: the encoder is called with lengths, but its code accepts any int. */
  method EncodeVariableInt(value: int) returns (data: seq<byte>)
    ensures value >= 0 ==> data == VarInt(value)
    ensures value < 0 ==> data == [(-((-value) % 128)) % 256]
  {
    data := [];
    var v := value;
    while true
      invariant value >= 0 ==> v >= 0 && data + VarInt(v) == VarInt(value)
      invariant value < 0 ==> v == value && data == []
      decreases if v < 0 then 0 else v
    {
      // v % 128 and v / 128 truncate towards zero, and the conversion to a byte wraps
      var encodedByte: byte := if v >= 0 then v % 128 else (-((-v) % 128)) % 256;
      v := if v >= 0 then v / 128 else -((-v) / 128);
      if v > 0 {
        encodedByte := encodedByte + 128; // the top bit is clear, so this is | 128
      }
      data := data + [encodedByte];
      if !(v > 0) {
        break;
      }
    }
  }

  /** What the decoding loop yields on a stream, and what it leaves unread. */
  function Decode(s: seq<byte>, multiplier: nat := 1, value: nat := 0): (r: (Option<nat>, seq<byte>))
    requires 1 <= multiplier <= LIMIT
    ensures |r.1| <= |s|
    decreases LIMIT - multiplier
  {
    var b: byte := if s == [] then 0 else s[0];
    var rest := if s == [] then [] else s[1..];
    if multiplier * 128 > LIMIT then (None, rest)
    else if b < 128 then (Some(value + b % 128 * multiplier), rest)
    else Decode(rest, multiplier * 128, value + b % 128 * multiplier)
  }

  method DecodeVariableInt(reader: Reader) returns (r: Option<nat>)
    modifies reader
    ensures (r, reader.rest) == Decode(old(reader.rest))
  {
    var multiplier: nat := 1;
    var value: nat := 0;
    while true
      invariant 1 <= multiplier <= LIMIT
      invariant Decode(reader.rest, multiplier, value) == Decode(old(reader.rest))
      decreases LIMIT - multiplier
    {
      var buf := reader.Read(1);
      var encodedByte: byte := if |buf| == 1 then buf[0] else 0; // the error is ignored
      value := value + encodedByte % 128 * multiplier;
      multiplier := multiplier * 128;
      if multiplier > 128 * 128 * 128 {
        return None;
      }
      if encodedByte < 128 {
        break;
      }
    }
    r := Some(value);
  }

  /** The stream as the decoder sees it: bytes missing at its end read as zero. */
  function Padded(s: seq<byte>): seq<byte> {
    s + [0, 0, 0, 0]
  }

  function Drop(s: seq<byte>, n: nat): seq<byte> {
    if n <= |s| then s[n..] else []
  }

  /**
   * On any stream: the number of the first one, two or three bytes that form an integer, and
   * otherwise a refusal after four bytes, whatever the fourth is.
   */
  lemma DecodeMeaning(s: seq<byte>)
    ensures forall n :: 1 <= n <= 3 && IsVarInt(Padded(s)[..n])
              ==> Decode(s) == (Some(VarValue(Padded(s)[..n])), Drop(s, n))
    ensures (forall i :: 0 <= i < 3 ==> Padded(s)[i] >= 128) ==> Decode(s) == (None, Drop(s, 4))
  {
    var t := Padded(s);
    assert Drop(s, 1) == if s == [] then [] else s[1..];
    assert Drop(s, 2) == Drop(Drop(s, 1), 1);
    assert Drop(s, 3) == Drop(Drop(s, 2), 1);
    assert Drop(s, 4) == Drop(Drop(s, 3), 1);
    forall n | 1 <= n <= 3 && IsVarInt(t[..n])
      ensures Decode(s) == (Some(VarValue(t[..n])), Drop(s, n))
    {
      DigitsValue(t, n);
    }
  }

  lemma DigitsValue(t: seq<byte>, n: nat)
    requires 1 <= n <= 3 && n <= |t|
    ensures VarValue(t[..1]) == t[0] % 128
    ensures n >= 2 ==> VarValue(t[..2]) == t[0] as int % 128 + 128 * (t[1] as int % 128)
    ensures n >= 3 ==> VarValue(t[..3]) == t[0] as int % 128 + 128 * (t[1] as int % 128) + 16384 * (t[2] as int % 128)
  {
    assert t[..1][1..] == [];
    if n >= 2 {
      assert t[..2][1..] == [t[1]] && [t[1]][1..] == [];
    }
    if n >= 3 {
      assert t[..3][1..] == [t[1], t[2]] && [t[1], t[2]][1..] == [t[2]] && [t[2]][1..] == [];
      assert VarValue([t[2]]) == t[2] as int % 128;
      assert VarValue([t[1], t[2]]) == t[1] as int % 128 + 128 * VarValue([t[2]]);
    }
  }

  /** Decoding undoes encoding exactly below 128^3; every larger value is refused. */
  lemma VarIntRoundTrip(v: nat, rest: seq<byte>)
    ensures v < LIMIT ==> Decode(VarInt(v) + rest) == (Some(v), rest)
    ensures v >= LIMIT ==> Decode(VarInt(v) + rest).0 == None
  {
    var s := VarInt(v) + rest;
    var n := |VarInt(v)|;
    VarIntIsCanonical(v);
    VarIntLength(v);
    DecodeMeaning(s);
    if v < LIMIT {
      assert Padded(s)[..n] == VarInt(v);
      assert Drop(s, n) == rest;
    } else {
      assert forall i :: 0 <= i < 3 ==> Padded(s)[i] == VarInt(v)[i];
    }
  }

  // ---- 16-bit integers and length-prefixed fields (section 1.5 of MQTT 3.1.1) -------

  /** The two bytes `value >> 8` and `value & 0xFF`, each cut to a byte. */
  function Int16(value: int): seq<byte> {
    [value / 256 % 256, value % 256]
  }

  function Field(value: seq<byte>): seq<byte> {
    Int16(|value|) + value
  }

  method Encode16BitIntTo(value: int, to: Buffer)
    modifies to
    ensures to.data == old(to.data) + Int16(value)
  {
    to.WriteByte(value / 256 % 256);
    to.WriteByte(value % 256);
  }

  /** EncodeStringTo and EncodeBytesTo: a string is its bytes. */
  method EncodeBytesTo(value: seq<byte>, to: Buffer)
    modifies to
    ensures to.data == old(to.data) + Field(value)
  {
    var bytesLength := |value|;
    to.WriteByte(bytesLength / 256 % 256);
    to.WriteByte(bytesLength % 256);
    to.Write(value);
    assert to.data == old(to.data) + Field(value);
  }

  function ParseInt16(s: seq<byte>): Option<(nat, seq<byte>)> {
    if |s| < 2 then None else Some((256 * (s[0] as int) + s[1], s[2..]))
  }

  function ParseField(s: seq<byte>): Option<(seq<byte>, seq<byte>)> {
    match ParseInt16(s)
    case None => None
    case Some((n, rest)) => if |rest| < n then None else Some((rest[..n], rest[n..]))
  }

  lemma HighAndLow(value: int)
    ensures 256 * (value / 256 % 256) + value % 256 == value % 65536
  {
    var q := value / 256;
    assert value == 65536 * (q / 256) + (256 * (q % 256) + value % 256);
  }

  lemma Int16RoundTrip(value: int, rest: seq<byte>)
    ensures ParseInt16(Int16(value) + rest) == Some((value % 65536, rest))
  {
    HighAndLow(value);
    assert (Int16(value) + rest)[2..] == rest;
  }

  /** A field comes back exactly when its length fits the 16-bit prefix. */
  lemma FieldRoundTrip(value: seq<byte>, rest: seq<byte>)
    ensures ParseField(Field(value) + rest) == Some((value, rest)) <==> |value| <= 0xFFFF
    ensures |value| > 0xFFFF ==>
              && ParseField(Field(value) + rest).Some?
              && |ParseField(Field(value) + rest).value.0| <= 0xFFFF
  {
    assert Field(value) + rest == Int16(|value|) + (value + rest);
    Int16RoundTrip(|value|, value + rest);
    if |value| <= 0xFFFF {
      assert (value + rest)[..|value|] == value;
    }
  }
}
