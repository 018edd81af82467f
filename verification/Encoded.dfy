/**
 * The delivery protocol works on packets and the session on wire messages. Encoding every
 * packet turns each step of one client into the same step of the other, so that what is
 * proved of packets holds of bytes.
 */
module Encoded {
  import opened Wrappers
  import opened PacketIds
  import opened Ledger
  import opened Messages
  import opened C = Client
  import opened Encoding
  import W = Wire
  import D = Delivery
  import I = Invariants
  import G = Guarantees
  import P = PublishRequest
  import InFlight
  import Framing

  // ---- a client with its messages rewritten ---------------------------------------------------

  function Entries<M, N>(w: seq<Entry<M>>, f: M -> N): (r: seq<Entry<N>>)
    ensures |r| == |w| && forall i :: 0 <= i < |w| ==> r[i] == Entry(w[i].id, f(w[i].msg))
  {
    seq(|w|, i requires 0 <= i < |w| => Entry(w[i].id, f(w[i].msg)))
  }

  function Each<M, N>(ms: seq<M>, f: M -> N): (r: seq<N>)
    ensures |r| == |ms| && forall i :: 0 <= i < |ms| ==> r[i] == f(ms[i])
  {
    seq(|ms|, i requires 0 <= i < |ms| => f(ms[i]))
  }

  function OfLedger<M, N>(l: Ledger<M>, f: M -> N): Ledger<N> {
    Ledger(l.used, l.next, l.indexed, Entries(l.waiting, f))
  }

  function OfClient<M, N>(c: Client<M>, f: M -> N): Client<N> {
    Client.Client(OfLedger(c.ledger, f), c.status, c.ignorePubAck, c.ignorePubComp, c.open, Each(c.queue, f))
  }

  function OfPending<M, N>(p: Pending<M>, f: M -> N): Pending<N> {
    match p
    case Nothing => Nothing
    case Clear(id) => Clear(id)
    case Send(msg) => Send(f(msg))
    case Fail(failure) => Fail(failure)
  }

  lemma {:induction false} SameIndex<M, N>(w: seq<Entry<M>>, f: M -> N, id: int)
    ensures IndexOf(Entries(w, f), id) == IndexOf(w, id)
  {
    if |w| > 0 && w[0].id != id {
      SameIndex(w[1..], f, id);
      assert Entries(w, f)[1..] == Entries(w[1..], f);
    }
  }

  lemma SameLedger<M, N>(l: Ledger<M>, f: M -> N, id: int, msg: M)
    ensures Find(OfLedger(l, f), id) == Find(l, id)
    ensures Release(OfLedger(l, f), id) == OfLedger(Release(l, id), f)
    ensures Replace(OfLedger(l, f), id, f(msg)) == OfLedger(Replace(l, id, msg), f)
    ensures Register(OfLedger(l, f), id, f(msg)) == OfLedger(Register(l, id, msg), f)
  {
    SameIndex(l.waiting, f, id);
    assert Without(Entries(l.waiting, f), id) == Entries(Without(l.waiting, id), f);
    assert With(Entries(l.waiting, f), id, f(msg)) == Entries(With(l.waiting, id, msg), f);
    assert Entries(l.waiting, f) + [Entry(id, f(msg))] == Entries(l.waiting + [Entry(id, msg)], f);
  }

  /** Connecting, claiming, handling and queueing do not look at what they carry. */
  lemma TakeCommutes<M, N>(c: Client<M>, f: M -> N, kind: AckKind, id: int, release: M)
    ensures var (c1, p) := Take(c, kind, id, release);
            Take(OfClient(c, f), kind, id, f(release)) == (OfClient(c1, f), OfPending(p, f))
  {
    SameLedger(c.ledger, f, id, release);
  }

  lemma EnqueueCommutes<M, N>(c: Client<M>, f: M -> N, msg: M)
    ensures Enqueue(OfClient(c, f), f(msg)) == (OfClient(Enqueue(c, msg).0, f), Enqueue(c, msg).1)
  {
    assert Each(c.queue, f) + [f(msg)] == Each(c.queue + [msg], f);
  }

  lemma FinishCommutes<M, N>(c: Client<M>, f: M -> N, p: Pending<M>)
    ensures Finish(OfClient(c, f), OfPending(p, f)) == (OfClient(Finish(c, p).0, f), Finish(c, p).1)
  {
    if p.Send? {
      EnqueueCommutes(c, f, p.msg);
    }
  }

  lemma ConnectCommutes<M, N>(c: Client<M>, f: M -> N, clean: bool, ack: bool, comp: bool)
    ensures Prepare(OfClient(c, f), clean, ack, comp) == OfClient(Prepare(c, clean, ack, comp), f)
    ensures Accept(OfClient(c, f)) == OfClient(Accept(c), f)
  {
    assert Entries<M, N>([], f) == [];
    assert Each<M, N>([], f) == [];
  }

  lemma ClaimCommutes<M, N>(l: Ledger<M>, f: M -> N)
    requires 0 <= l.next <= MAX_ID
    ensures Claim(OfLedger(l, f)) ==
              match Claim(l) case None => None case Some((after, id)) => Some((OfLedger(after, f), id))
  {
  }

  // ---- packets as bytes --------------------------------------------------------------------------

  /** What a message says: topic, payload and whether to retain. */
  datatype Content = Content(topic: seq<byte>, payload: seq<byte>, retain: bool)

  function Number(q: D.QoS): int {
    match q
    case AtMostOnce => 0
    case AtLeastOnce => 1
    case ExactlyOnce => 2
  }

  function Options(content: D.Message -> Content, id: int, m: D.Message, dup: bool): P.PublishOptions {
    P.PublishOptions(content(m).topic, content(m).payload, Number(m.qos), content(m).retain, dup, id)
  }

  function Encode(content: D.Message -> Content, p: D.Packet): GenericMessage {
    match p
    case Publish0(m) => P.Message(Options(content, 0, m, false))
    case Publish(id, m, dup) => P.Message(Options(content, id, m, dup))
    case PubRel(id, _) => W.ReleaseMessage(id)
    case Goodbye => DisconnectMessage()
  }

  function Encoder(content: D.Message -> Content): (f: D.Packet -> GenericMessage)
    ensures forall p :: f(p) == Encode(content, p)
  {
    p => Encode(content, p)
  }

  /** Duplicating the packet and duplicating its bytes are the same. */
  lemma DupCommutes(content: D.Message -> Content, p: D.Packet)
    requires I.HasId(p)
    ensures Encode(content, D.Dup(p)) == Framing.Dup(Encode(content, p))
  {
    match p {
      case Publish(id, m, dup) =>
        P.DupIsDuplicateOption(Options(content, id, m, dup));
      case PubRel(id, _) =>
        var six: bv8, two: bv8 := 6, 2;
        assert ((six << 4) | two) >> 4 == six;
    }
  }

  /** The bytes of a resend are those of the packets the delivery protocol resends. */
  lemma {:induction false} ResendCommutes(content: D.Message -> Content, w: seq<Entry<D.Packet>>)
    requires forall i :: 0 <= i < |w| ==> I.HasId(w[i].msg)
    ensures InFlight.ResendBytes(Entries(w, Encoder(content))) ==
              Framing.Stream(Each(D.Resend(w), Encoder(content)))
  {
    var f := Encoder(content);
    if w != [] {
      DupCommutes(content, w[0].msg);
      ResendCommutes(content, w[1..]);
      assert Entries(w, f)[1..] == Entries(w[1..], f);
      assert Each(D.Resend(w), f)[1..] == Each(D.Resend(w[1..]), f);
    }
  }

  // ---- what the receiver reads off the wire ----------------------------------------------------

  datatype Arrival = Published(options: P.PublishOptions) | Released(id: int) | Left

  /** What a receiver makes of a message of a publishing client. */
  function Arrived(m: GenericMessage): Option<Arrival> {
    if TypeOf(m) == PUBLISH_TYPE then
      match P.Parse(m)
      case Ok(o) => Some(Published(o))
      case Err(_) => None
    else if m.fixedHeader == (PUBREL_TYPE << 4) | PUBREL_RESERVED && |m.body| == 2 then Some(Released(W.PacketID(m)))
    else if m == DisconnectMessage() then Some(Left)
    else None
  }

  function Meant(content: D.Message -> Content, p: D.Packet): Arrival {
    match p
    case Publish0(m) => Published(Options(content, 0, m, false))
    case Publish(id, m, dup) => Published(Options(content, id, m, dup))
    case PubRel(id, _) => Released(id)
    case Goodbye => Left
  }

  /** Topics fit their length prefix, and messages the decoder's limit. */
  ghost predicate Fits(content: D.Message -> Content) {
    forall m, id, dup :: |content(m).topic| <= 0xFFFF && |P.Body(Options(content, id, m, dup))| < LIMIT
  }

  ghost predicate InOrder(p: D.Packet) {
    && (I.HasId(p) ==> 1 <= D.IdOf(p) <= MAX_ID)
    && (p.Publish0? ==> p.m.qos.AtMostOnce?)
    && (p.Publish? ==> !p.m.qos.AtMostOnce?)
  }

  lemma PacketArrives(content: D.Message -> Content, p: D.Packet)
    requires Fits(content) && InOrder(p)
    ensures Arrived(Encode(content, p)) == Some(Meant(content, p)) && |Encode(content, p).body| < LIMIT
  {
    match p {
      case Publish0(m) =>
        P.RoundTrip(Options(content, 0, m, false));
        P.HeaderFields(Options(content, 0, m, false));
      case Publish(id, m, dup) =>
        P.RoundTrip(Options(content, id, m, dup));
        P.HeaderFields(Options(content, id, m, dup));
      case PubRel(id, _) =>
        var six: bv8, two: bv8 := 6, 2;
        assert ((six << 4) | two) >> 4 == six;
      case Goodbye =>
        var fourteen: bv8 := 14;
        assert (fourteen << 4) >> 4 == fourteen;
    }
  }

  /** In every reachable state of the protocol all that is under way is in order. */
  lemma OutgoingInOrder(s: D.State, i: nat)
    requires G.Inv(s) && i < |I.Outgoing(s)|
    ensures InOrder(I.Outgoing(s)[i])
  {
    var p := I.Outgoing(s)[i];
    if I.HasId(p) {
      assert Get(s.c.ledger.waiting, D.IdOf(p)) == Some(D.Undup(p));
      assert I.WellFormed(D.IdOf(p), D.Undup(p));
    }
  }

  /**
   * After every run, the bytes on the wire read back as the packets the protocol has there: the
   * same number in the same order, each with its topic, payload, QoS, identifier and flags.
   */
  lemma WireIsReadable(early: bool, steps: seq<D.Step>, content: D.Message -> Content)
    requires D.IsRun(D.Init(early), steps) && Fits(content)
    ensures var wire := D.After(D.Init(early), steps).net.wire;
            var read := Framing.ReadAll(Framing.Stream(Each(wire, Encoder(content))));
            && |read| == |wire|
            && forall i :: 0 <= i < |wire| ==> Arrived(read[i]) == Some(Meant(content, wire[i]))
  {
    G.Reachable(early, steps);
    var s := D.After(D.Init(early), steps);
    var ms := Each(s.net.wire, Encoder(content));
    forall i | 0 <= i < |ms| ensures |ms[i].body| < LIMIT && Arrived(ms[i]) == Some(Meant(content, s.net.wire[i])) {
      assert I.Outgoing(s)[i] == s.net.wire[i];
      OutgoingInOrder(s, i);
      PacketArrives(content, s.net.wire[i]);
    }
    Framing.StreamRoundTrip(ms);
  }
}
