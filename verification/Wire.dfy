/** Answers and packets as messages, and what the answer handler makes of a stream of bytes. */
module Wire {
  import opened Wrappers
  import opened Messages
  import opened Encoding
  import opened Client
  import Framing

  datatype Panic = WrongType | WrongLength | UnhandledType | Failed(failure: Failure)

  function TypeOfKind(kind: AckKind): bv8 {
    match kind
    case PubAck => PUBACK_TYPE
    case PubRec => PUBREC_TYPE
    case PubComp => PUBCOMP_TYPE
  }

  function KindOf(m: GenericMessage): Option<AckKind> {
    if TypeOf(m) == PUBACK_TYPE then Some(PubAck)
    else if TypeOf(m) == PUBREC_TYPE then Some(PubRec)
    else if TypeOf(m) == PUBCOMP_TYPE then Some(PubComp)
    else None
  }

  /** An answer as a broker sends it. */
  function AckMessage(kind: AckKind, id: int): GenericMessage {
    GenericMessage(TypeOfKind(kind) << 4, Int16(id))
  }

  function ReleaseMessage(id: int): GenericMessage {
    GenericMessage((PUBREL_TYPE << 4) | PUBREL_RESERVED, Int16(id))
  }

  function PacketID(m: GenericMessage): (id: int)
    requires |m.body| == 2
    ensures 0 <= id <= 0xFFFF
  {
    256 * (m.body[0] as int) + m.body[1]
  }

  function Failing(f: Option<Failure>): Option<Panic> {
    if f.None? then None else Some(Failed(f.value))
  }

  /** One answer, with nothing but perhaps the sender in between. */
  function HandleAnswer(c: Client<GenericMessage>, kind: AckKind, id: int): (Client<GenericMessage>, Option<Failure>) {
    var (c1, pending) := Take(c, kind, id, ReleaseMessage(id));
    Finish(if pending.Send? then Room(c1) else c1, pending)
  }

  /** One message, by the function for answers of this kind. */
  function HandleAs(c: Client<GenericMessage>, kind: AckKind, m: GenericMessage)
    : (Client<GenericMessage>, Option<Panic>)
  {
    if TypeOf(m) != TypeOfKind(kind) then (c, Some(WrongType))
    else if |m.body| != 2 then (c, Some(WrongLength))
    else
      var (after, failure) := HandleAnswer(c, kind, PacketID(m));
      (after, Failing(failure))
  }

  function HandleMessage(c: Client<GenericMessage>, m: GenericMessage): (Client<GenericMessage>, Option<Panic>) {
    var kind := KindOf(m);
    if kind.None? then (c, Some(UnhandledType)) else HandleAs(c, kind.value, m)
  }

  /** What handling a message gives the sender: the PUBREL of a PUBREC that is heeded. */
  function Queues(c: Client<GenericMessage>, m: GenericMessage): seq<byte> {
    if KindOf(m) == Some(PubRec) && |m.body| == 2 && !c.ignorePubAck && !c.ledger.Panics(PacketID(m)) && c.open
    then Framing.Frame(ReleaseMessage(PacketID(m)))
    else []
  }

  function QueuesAll(c: Client<GenericMessage>, ms: seq<GenericMessage>): seq<byte>
    decreases |ms|
  {
    if ms == [] then []
    else
      var (after, panic) := HandleMessage(c, ms[0]);
      Queues(c, ms[0]) + if panic.Some? then [] else QueuesAll(after, ms[1..])
  }

  /** Messages one after the other, up to the first panic. */
  function HandleAll(c: Client<GenericMessage>, ms: seq<GenericMessage>): (Client<GenericMessage>, Option<Panic>)
    decreases |ms|
  {
    if ms == [] then (c, None)
    else
      var (after, panic) := HandleMessage(c, ms[0]);
      if panic.Some? then (after, panic) else HandleAll(after, ms[1..])
  }

  /** The fold, one message on; `sent` is what went before. */
  lemma NextMessage(c: Client<GenericMessage>, ms: seq<GenericMessage>, i: nat, sent: seq<byte>)
    requires i < |ms|
    ensures var (after, panic) := HandleMessage(c, ms[i]);
            if panic.Some? then
              HandleAll(c, ms[i..]) == (after, panic) && sent + QueuesAll(c, ms[i..]) == sent + Queues(c, ms[i])
            else
              && HandleAll(c, ms[i..]) == HandleAll(after, ms[i + 1..])
              && sent + QueuesAll(c, ms[i..]) == (sent + Queues(c, ms[i])) + QueuesAll(after, ms[i + 1..])
  {
    assert ms[i..][1..] == ms[i + 1..];
    var (after, panic) := HandleMessage(c, ms[i]);
    if panic.Some? {
      assert Queues(c, ms[i]) + [] == Queues(c, ms[i]);
    } else {
      Regroup(sent, Queues(c, ms[i]), QueuesAll(after, ms[i + 1..]));
    }
  }

  lemma Regroup(a: seq<byte>, b: seq<byte>, c: seq<byte>)
    ensures a + (b + c) == (a + b) + c
  {
  }

  lemma AckIsUnderstood(kind: AckKind, id: int)
    requires 0 <= id <= 0xFFFF
    ensures KindOf(AckMessage(kind, id)) == Some(kind)
    ensures |AckMessage(kind, id).body| == 2 && PacketID(AckMessage(kind, id)) == id
  {
    assert (4 as bv8) << 4 >> 4 == 4 && (5 as bv8) << 4 >> 4 == 5 && (7 as bv8) << 4 >> 4 == 7;
  }

  lemma {:induction false} HandleAppend(c: Client<GenericMessage>, first: seq<GenericMessage>, last: GenericMessage)
    ensures HandleAll(c, first + [last]) ==
              if HandleAll(c, first).1.Some? then HandleAll(c, first) else HandleMessage(HandleAll(c, first).0, last)
    decreases |first|
  {
    var all := first + [last];
    if first == [] {
      assert all == [last] && all[1..] == [];
    } else {
      HandleAppend(HandleMessage(c, first[0]).0, first[1..], last);
      assert all[1..] == first[1..] + [last];
    }
  }

  /** What handling one more message gives the sender. */
  function QueuesLast(c: Client<GenericMessage>, first: seq<GenericMessage>, last: GenericMessage): seq<byte> {
    if HandleAll(c, first).1.Some? then [] else Queues(HandleAll(c, first).0, last)
  }

  lemma QueuesFirst(c: Client<GenericMessage>, ms: seq<GenericMessage>)
    requires ms != []
    ensures var (after, panic) := HandleMessage(c, ms[0]);
            && QueuesAll(c, ms) == Queues(c, ms[0]) + (if panic.Some? then [] else QueuesAll(after, ms[1..]))
            && HandleAll(c, ms) == if panic.Some? then (after, panic) else HandleAll(after, ms[1..])
  {
  }

  lemma {:induction false} QueuesAppend(c: Client<GenericMessage>, first: seq<GenericMessage>, last: GenericMessage)
    ensures QueuesAll(c, first + [last]) == QueuesAll(c, first) + QueuesLast(c, first, last)
    decreases |first|
  {
    var all := first + [last];
    if first == [] {
      assert all == [last] && all[1..] == [];
    } else {
      var (after, panic) := HandleMessage(c, first[0]);
      QueuesFirst(c, first);
      QueuesFirst(c, all);
      assert all[1..] == first[1..] + [last];
      if panic.None? {
        QueuesAppend(after, first[1..], last);
        Regroup(Queues(c, first[0]), QueuesAll(after, first[1..]), QueuesLast(after, first[1..], last));
      }
    }
  }

  /**
   * A connection lost inside an answer kills the handler exactly when one byte of that answer
   * had arrived: the missing length byte reads as zero. Lost anywhere else, the broken answer is
   * dropped and everything before it takes effect.
   */
  lemma CutAnswer(c: Client<GenericMessage>, ms: seq<GenericMessage>, kind: AckKind, id: int, cut: nat)
    requires 0 <= id <= 0xFFFF && forall m :: m in ms ==> |m.body| < LIMIT
    requires cut < |Framing.Frame(AckMessage(kind, id))|
    requires HandleAll(c, ms).1.None?
    ensures var r := HandleAll(c, Framing.ReadAll(Framing.Stream(ms) + Framing.Frame(AckMessage(kind, id))[..cut]));
            && r.0 == HandleAll(c, ms).0
            && r.1 == if cut == 1 then Some(WrongLength) else None
  {
    var m := AckMessage(kind, id);
    var phantom := GenericMessage(m.fixedHeader, []);
    AckIsUnderstood(kind, id);
    assert VarInt(2) == [2];
    if cut == 0 {
      assert Framing.Stream(ms) + Framing.Frame(m)[..0] == Framing.Stream(ms);
      Framing.StreamRoundTrip(ms);
    } else {
      Framing.CutStream(ms, m, cut);
      assert Framing.Phantom(m, cut) <==> cut == 1;
      HandleAppend(c, ms, phantom);
      assert ms + [] == ms;
    }
  }
}
