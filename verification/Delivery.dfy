/**
 * The delivery protocol as steps: any number of publishing callers, one answer handler, one
 * sender, connects and disconnects, a link that may fail at any point, and a receiver after
 * sections 4.3 and 4.4 of MQTT 3.1.1. Every lock-protected section of the source is one step.
 */
module Delivery {
  import opened Wrappers
  import opened PacketIds
  import opened Ledger
  import opened Client

  datatype QoS = AtMostOnce | AtLeastOnce | ExactlyOnce

  /** A published message; the serial number tells equal contents apart. */
  datatype Message = Message(serial: nat, qos: QoS)

  /** The message of a PUBREL is bookkeeping; no step but the history reads it. */
  datatype Packet =
    | Publish0(m: Message)
    | Publish(id: int, m: Message, dup: bool)
    | PubRel(id: int, m: Message)
    | Goodbye

  datatype Answer = Answer(kind: AckKind, id: int)

  /** Where one Publish call stands; a call of QoS 0 goes straight to Ready. */
  datatype Caller = Started(m: Message) | Claimed(id: int, m: Message) | Ready(packet: Packet)

  datatype Handler = Stopped | Idle | Busy(todo: Pending<Packet>)

  /** Who holds the session's write lock, and how far a disconnect has come. */
  datatype Stage = Unlocked | AwaitStop(polite: bool) | SayGoodbye | Draining(polite: bool)

  /** Both directions of the current connection; `replies` includes what is read but not handled. */
  datatype Net = Net(up: bool, wire: seq<Packet>, replies: seq<Answer>)

  /** Method B of section 4.3.3 delivers on PUBLISH (early), method A on PUBREL. */
  datatype Broker = Broker(early: bool, store: map<int, Message>, delivered: seq<Message>)

  /**
   * What happened so far. `firsts`: the messages in the order their PUBLISH was first queued.
   * `intact`: receiver and ledger agree on the pending exactly-once messages. `exposed`: a session
   * has been resumed while they did not, and no clean connect has followed. `epoch`: messages of
   * this serial number and above belong to the time since such a clean connect. `solo`: since the
   * ledger was new, no call with an identifier has begun while another was unfinished.
   */
  datatype History = History(
    serial: nat, accepted: seq<Message>, completed: seq<Message>, abandoned: seq<Message>,
    firsts: seq<Message>, resent: seq<Packet>, enqueued: seq<Packet>, written: seq<Packet>, sent: seq<Packet>,
    intact: bool, exposed: bool, epoch: nat, solo: bool)

  /** `late`: what an earlier connection may still bring for a ledger that has been replaced. */
  datatype State = State(
    c: Client<Packet>, callers: map<nat, Caller>, handler: Handler, stage: Stage,
    crash: Option<Failure>, net: Net, late: seq<Packet>, broker: Broker, h: History)

  datatype Step =
    | Connect(clean: bool, discard: bool, ignorePubAck: bool, ignorePubComp: bool)
    | ConnectFails(clean: bool, seen: bool, discard: bool, ignorePubAck: bool, ignorePubComp: bool)
    | Begin(p: nat, qos: QoS)
    | ClaimID(p: nat)
    | RegisterPacket(p: nat)
    | EnqueuePacket(p: nat)
    | SenderWrites
    | BrokerReceives
    | BrokerReceivesLate
    | HandlerTakes
    | HandlerFinishes
    | BeginDisconnect(polite: bool)
    | HandlerStops
    | EnqueueGoodbye
    | FinishDisconnect
    | LinkFails(keepWire: nat, keepReplies: nat)

  function Init(early: bool): State {
    State(NewClient(), map[], Stopped, Unlocked, None, Net(false, [], []), [],
          Broker(early, map[], []), History(0, [], [], [], [], [], [], [], [], true, false, 0, true))
  }

  // ---- packets --------------------------------------------------------------------

  /** 0 for a packet without identifier. */
  function IdOf(p: Packet): int {
    match p
    case Publish(id, _, _) => id
    case PubRel(id, _) => id
    case _ => 0
  }

  function MessageOf(p: Packet): Message {
    match p
    case Publish0(m) => m
    case Publish(_, m, _) => m
    case PubRel(_, m) => m
    case Goodbye => Message(0, AtMostOnce)
  }

  function Dup(p: Packet): Packet {
    if p.Publish? then p.(dup := true) else p
  }

  function Undup(p: Packet): Packet {
    if p.Publish? then p.(dup := false) else p
  }

  /** What a reconnect puts on the wire: every waiting packet in order, as a duplicate. */
  function Resend(w: seq<Entry<Packet>>): (r: seq<Packet>)
    ensures |r| == |w| && forall i :: 0 <= i < |w| ==> r[i] == Dup(w[i].msg)
  {
    seq(|w|, i requires 0 <= i < |w| => Dup(w[i].msg))
  }

  function MessagesOf(w: seq<Entry<Packet>>): (r: seq<Message>)
    ensures |r| == |w| && forall i :: 0 <= i < |w| ==> r[i] == MessageOf(w[i].msg)
  {
    seq(|w|, i requires 0 <= i < |w| => MessageOf(w[i].msg))
  }

  /** The PUBREL for an identifier. */
  function ReleaseOf(s: State, id: int): Packet {
    match Get(s.c.ledger.waiting, id)
    case None => PubRel(id, Message(0, ExactlyOnce))
    case Some(p) => PubRel(id, MessageOf(p))
  }

  // ---- steps ----------------------------------------------------------------------

  /**
   * A receiver that forgets its session does harm if it had delivered a message that will be
   * published again (method B), or held one whose release alone will be sent (method A).
   */
  predicate Harmful(s: State, id: int) {
    && id in s.broker.store
    && Get(s.c.ledger.waiting, id).Some?
    && if s.broker.early then Get(s.c.ledger.waiting, id).value.Publish?
       else Get(s.c.ledger.waiting, id).value.PubRel?
  }

  predicate AtRisk(s: State) {
    exists id :: id in s.broker.store && Harmful(s, id)
  }

  /** One of these may still give the receiver a message to hold. */
  predicate Storable(ps: seq<Packet>) {
    exists i :: 0 <= i < |ps| && ps[i].Publish? && ps[i].m.qos.ExactlyOnce?
  }

  /**
   * An attempt to connect that leaves receiver and ledger in disagreement: a new ledger, when
   * the receiver has not seen the attempt and holds a message or may yet be sent one; or an old
   * ledger, when the receiver has discarded a session it counts on.
   */
  predicate Splits(s: State, clean: bool, seen: bool, discard: bool) {
    if clean then !seen && (s.broker.store != map[] || Storable(s.net.wire)) else discard && AtRisk(s)
  }

  predicate MayConnect(s: State) {
    s.stage.Unlocked? && s.callers == map[] && !s.c.status.Connected?
  }

  /**
   * The receiver answers a clean connect with an empty session, and may do so to any. It closes
   * the connection before (section 3.1.4), of which nothing more arrives.
   */
  function DoConnect(s: State, clean: bool, discard: bool, ignorePubAck: bool, ignorePubComp: bool): State {
    var c := Accept(Prepare(s.c, clean, ignorePubAck, ignorePubComp));
    var again := if clean then [] else Resend(c.ledger.waiting);
    var intact := clean || (s.h.intact && !Splits(s, clean, true, discard));
    s.(c := c, handler := Idle, net := Net(true, again, []), late := [],
       broker := s.broker.(store := if discard then map[] else s.broker.store),
       h := s.h.(resent := again, enqueued := [], written := [], sent := again,
                 abandoned := s.h.abandoned + (if clean then MessagesOf(s.c.ledger.waiting) else []),
                 intact := intact, exposed := !clean && (s.h.exposed || !intact),
                 epoch := if clean && s.h.exposed then s.h.serial else s.h.epoch, solo := s.h.solo || clean))
  }

  /**
   * A failed attempt still changes the ledger and the flags, and no answer is read any more. If
   * the receiver has not seen it, the packets of the connection before may yet arrive.
   */
  function DoConnectFails(
    s: State, clean: bool, seen: bool, discard: bool, ignorePubAck: bool, ignorePubComp: bool): State
  {
    s.(c := Prepare(s.c, clean, ignorePubAck, ignorePubComp),
       net := Net(false, if seen || clean then [] else s.net.wire, []),
       late := if seen then [] else if clean then s.late + s.net.wire else s.late,
       broker := s.broker.(store := if discard then map[] else s.broker.store),
       h := s.h.(abandoned := s.h.abandoned + (if clean then MessagesOf(s.c.ledger.waiting) else []),
                 intact := if clean && seen then !s.h.exposed else s.h.intact && !Splits(s, clean, seen, discard),
                 solo := s.h.solo || clean))
  }

  /** A call that publishes with an identifier. */
  predicate Identified(c: Caller) {
    c.Started? || c.Claimed? || c.packet.Publish?
  }

  /** A call with an identifier would begin while another is unfinished. */
  predicate Overlaps(s: State, qos: QoS) {
    !qos.AtMostOnce? && exists p :: p in s.callers && Identified(s.callers[p])
  }

  function DoBegin(s: State, p: nat, qos: QoS): State {
    var m := Message(s.h.serial, qos);
    s.(callers := s.callers[p := if qos.AtMostOnce? then Ready(Publish0(m)) else Started(m)],
       h := s.h.(serial := s.h.serial + 1, solo := s.h.solo && !Overlaps(s, qos)))
  }

  function DoClaim(s: State, p: nat): State
    requires p in s.callers && s.callers[p].Started?
    requires 0 <= s.c.ledger.next <= MAX_ID
  {
    match Claim(s.c.ledger)
    case None => s.(crash := Some(NoFreeID))
    case Some((ledger, id)) =>
      s.(c := s.c.(ledger := ledger), callers := s.callers[p := Claimed(id, s.callers[p].m)])
  }

  function DoRegister(s: State, p: nat): State
    requires p in s.callers && s.callers[p].Claimed?
  {
    var Claimed(id, m) := s.callers[p];
    var packet := Publish(id, m, false);
    s.(c := s.c.(ledger := Register(s.c.ledger, id, packet)), callers := s.callers[p := Ready(packet)],
       h := s.h.(accepted := s.h.accepted + [m]))
  }

  function DoEnqueue(s: State, p: nat): State
    requires p in s.callers && s.callers[p].Ready?
  {
    var packet := s.callers[p].packet;
    var (c, failure) := Enqueue(s.c, packet);
    if failure.Some? then s.(crash := failure)
    else s.(c := c, callers := s.callers - {p},
            h := s.h.(enqueued := s.h.enqueued + [packet],
                      firsts := if packet.Publish? then s.h.firsts + [packet.m] else s.h.firsts))
  }

  function DoSend(s: State): State
    requires s.c.queue != []
  {
    var packet := s.c.queue[0];
    s.(c := s.c.(queue := s.c.queue[1..]),
       net := if s.net.up then s.net.(wire := s.net.wire + [packet]) else s.net,
       h := s.h.(written := s.h.written + [packet],
                 sent := if s.net.up then s.h.sent + [packet] else s.h.sent))
  }

  /** What the receiver does with a packet, and its answer if it gives one. */
  function Receive(b: Broker, p: Packet): (Broker, Option<Answer>) {
    match p
    case Publish0(m) => (b.(delivered := b.delivered + [m]), None)
    case Publish(id, m, _) =>
      if !m.qos.ExactlyOnce? then (b.(delivered := b.delivered + [m]), Some(Answer(PubAck, id)))
      else if id in b.store then (b, Some(Answer(PubRec, id)))
      else
        (b.(store := b.store[id := m], delivered := if b.early then b.delivered + [m] else b.delivered),
         Some(Answer(PubRec, id)))
    case PubRel(id, _) =>
      if id in b.store then
        (b.(store := b.store - {id}, delivered := if b.early then b.delivered else b.delivered + [b.store[id]]),
         Some(Answer(PubComp, id)))
      else (b, Some(Answer(PubComp, id)))
    case Goodbye => (b, None)
  }

  function DoReceive(s: State): State
    requires s.net.wire != []
  {
    var (b, answer) := Receive(s.broker, s.net.wire[0]);
    s.(broker := b,
       net := s.net.(wire := s.net.wire[1..],
                     replies := if answer.Some? && s.net.up then s.net.replies + [answer.value] else s.net.replies))
  }

  /** A packet of a connection before: the answer goes nowhere. */
  function DoReceiveLate(s: State): State
    requires s.late != []
  {
    s.(broker := Receive(s.broker, s.late[0]).0, late := s.late[1..])
  }

  function DoTake(s: State): State
    requires s.net.replies != []
  {
    var a := s.net.replies[0];
    var (c, todo) := Take(s.c, a.kind, a.id, ReleaseOf(s, a.id));
    var entry := Get(s.c.ledger.waiting, a.id);
    s.(c := c, net := s.net.(replies := s.net.replies[1..]),
       handler := if todo.Fail? || todo.Nothing? then Idle else Busy(todo),
       crash := if todo.Fail? then Some(todo.failure) else None,
       h := if todo.Clear? && entry.Some? then s.h.(completed := s.h.completed + [MessageOf(entry.value)]) else s.h)
  }

  function DoFinish(s: State): State
    requires s.handler.Busy?
  {
    var (c, failure) := Finish(s.c, s.handler.todo);
    s.(c := c, handler := Idle, crash := failure,
       h := if s.handler.todo.Send? && failure.None? then s.h.(enqueued := s.h.enqueued + [s.handler.todo.msg])
             else s.h)
  }

  function DoStop(s: State): State
    requires s.stage.AwaitStop?
  {
    if s.stage.polite then s.(handler := Stopped, stage := SayGoodbye)
    else s.(handler := Stopped, stage := Draining(false), c := s.c.(open := false))
  }

  function DoGoodbye(s: State): State {
    s.(c := s.c.(queue := s.c.queue + [Goodbye], open := false), stage := Draining(true),
       h := s.h.(enqueued := s.h.enqueued + [Goodbye]))
  }

  /** A step the program can take: it is alive, the locks allow it, and nothing blocks it. */
  predicate Enabled(s: State, step: Step) {
    s.crash.None? && 0 <= s.c.ledger.next <= MAX_ID &&
    match step
    case Connect(clean, discard, _, _) => MayConnect(s) && (clean ==> discard)
    case ConnectFails(clean, seen, discard, _, _) => MayConnect(s) && (discard ==> seen) && (clean && seen ==> discard)
    case Begin(p, _) => p !in s.callers && s.stage.Unlocked? && s.c.status.Connected?
    case ClaimID(p) => p in s.callers && s.callers[p].Started?
    case RegisterPacket(p) => p in s.callers && s.callers[p].Claimed?
    case EnqueuePacket(p) => p in s.callers && s.callers[p].Ready? && |s.c.queue| < QUEUE_CAPACITY
    case SenderWrites => s.c.queue != []
    case BrokerReceives => s.net.wire != []
    case BrokerReceivesLate => s.late != []
    case HandlerTakes => s.handler.Idle? && s.net.replies != []
    case HandlerFinishes => s.handler.Busy? && (s.handler.todo.Send? ==> |s.c.queue| < QUEUE_CAPACITY)
    case BeginDisconnect(_) => s.stage.Unlocked? && s.callers == map[] && s.c.status.Connected?
    case HandlerStops => s.stage.AwaitStop? && s.handler.Idle?
    case EnqueueGoodbye => s.stage.SayGoodbye? && |s.c.queue| < QUEUE_CAPACITY
    case FinishDisconnect => s.stage.Draining? && s.c.queue == []
    case LinkFails(k, r) => s.net.up && k <= |s.net.wire| && r <= |s.net.replies|
  }

  function Apply(s: State, step: Step): State
    requires Enabled(s, step)
  {
    match step
    case Connect(clean, discard, ack, comp) => DoConnect(s, clean, discard, ack, comp)
    case ConnectFails(clean, seen, discard, ack, comp) => DoConnectFails(s, clean, seen, discard, ack, comp)
    case Begin(p, qos) => DoBegin(s, p, qos)
    case ClaimID(p) => DoClaim(s, p)
    case RegisterPacket(p) => DoRegister(s, p)
    case EnqueuePacket(p) => DoEnqueue(s, p)
    case SenderWrites => DoSend(s)
    case BrokerReceives => DoReceive(s)
    case BrokerReceivesLate => DoReceiveLate(s)
    case HandlerTakes => DoTake(s)
    case HandlerFinishes => DoFinish(s)
    case BeginDisconnect(polite) => s.(stage := AwaitStop(polite))
    case HandlerStops => DoStop(s)
    case EnqueueGoodbye => DoGoodbye(s)
    case FinishDisconnect => s.(stage := Unlocked, c := s.c.(status := Disconnected))
    case LinkFails(k, r) => s.(net := Net(false, s.net.wire[..k], s.net.replies[..r]))
  }

  /** Every step of the run is enabled when it is taken. */
  predicate IsRun(s: State, steps: seq<Step>)
    decreases |steps|
  {
    steps == [] || (Enabled(s, steps[0]) && IsRun(Apply(s, steps[0]), steps[1..]))
  }

  function After(s: State, steps: seq<Step>): State
    requires IsRun(s, steps)
    decreases |steps|
  {
    if steps == [] then s else After(Apply(s, steps[0]), steps[1..])
  }
}
