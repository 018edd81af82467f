/** How often the receiver has delivered each message, kept true by every step. */
module Deliveries {
  import opened Wrappers
  import opened Ledger
  import opened Delivery
  import opened Invariants
  import opened Accounts

  ghost function Times(delivered: seq<Message>, m: Message): nat {
    multiset(delivered)[m]
  }

  lemma OneMore(delivered: seq<Message>, x: Message)
    ensures forall m :: Times(delivered + [x], m) == Times(delivered, m) + if m == x then 1 else 0
  {
  }

  lemma DeliveredTimes(delivered: seq<Message>, m: Message)
    ensures m in delivered <==> Times(delivered, m) > 0
  {
  }

  // ---- with any receiver, even one that loses its session ------------------------------------

  /** Only registered messages are delivered or stored, and an acknowledged one was delivered. */
  ghost predicate SoundOk(b: Broker, w: seq<Entry<Packet>>, replies: seq<Answer>, h: History) {
    && (forall m :: m in b.delivered && !m.qos.AtMostOnce? ==> m in h.accepted)
    && (forall id :: id in b.store ==> b.store[id] in h.accepted && b.store[id].qos.ExactlyOnce?)
    && (forall j, m :: 0 <= j < |replies| && replies[j].kind.PubAck? && Pends(w, replies[j].id, m) ==> m in b.delivered)
    && (forall m :: m in h.completed && m.qos.AtLeastOnce? ==> m in b.delivered)
  }

  /** A packet without identifier carries a message of QoS 0. */
  ghost predicate PlainOk(out: seq<Packet>, callers: map<nat, Caller>) {
    && (forall i :: 0 <= i < |out| && out[i].Publish0? ==> out[i].m.qos.AtMostOnce?)
    && (forall p :: p in callers && callers[p].Ready? && callers[p].packet.Publish0? ==>
                      callers[p].packet.m.qos.AtMostOnce?)
  }

  /** So it is with what is left of an earlier connection, and its messages were registered. */
  ghost predicate LateOk(late: seq<Packet>, accepted: seq<Message>) {
    forall i :: 0 <= i < |late| ==>
                  && (late[i].Publish? ==> late[i].m in accepted)
                  && (late[i].Publish0? ==> late[i].m.qos.AtMostOnce?)
  }

  ghost predicate Sound(s: State) {
    && SoundOk(s.broker, s.c.ledger.waiting, s.net.replies, s.h)
    && PlainOk(Outgoing(s), s.callers) && LateOk(s.late, s.h.accepted)
  }

  // ---- with a receiver whose session stays in step with the ledger ----------------------------

  /** How often a pending exactly-once message has been delivered so far. */
  ghost function Due(early: bool, stored: bool, p: Packet): nat {
    if stored then (if early then 1 else 0) else if p.PubRel? then 1 else 0
  }

  ghost predicate OnceOk(b: Broker, w: seq<Entry<Packet>>, replies: seq<Answer>, h: History) {
    && (forall id, m :: Pends(w, id, m) && m.qos.ExactlyOnce? ==>
                          Times(b.delivered, m) == Due(b.early, id in b.store, Get(w, id).value))
    && (forall id :: id in b.store ==> Pends(w, id, b.store[id]))
    && (forall j :: 0 <= j < |replies| && replies[j].kind.PubRec? ==> replies[j].id in b.store)
    && (forall j :: 0 <= j < |replies| && replies[j].kind.PubComp? ==> replies[j].id !in b.store)
    && (forall m :: m in h.completed && m.qos.ExactlyOnce? && h.epoch <= m.serial ==> Times(b.delivered, m) == 1)
    && (forall m :: m in h.abandoned && m.qos.ExactlyOnce? && h.epoch <= m.serial ==> Times(b.delivered, m) <= 1)
  }

  /** What is left of an earlier connection can do nothing that matters. */
  ghost predicate LateCalm(b: Broker, late: seq<Packet>) {
    late != [] ==> b.store == map[] && !Storable(late)
  }

  // ---- with receiver and ledger in disagreement, before a session is resumed -------------------

  /** Since the epoch: at most once each, and exactly once if completed. */
  ghost predicate Tally(delivered: seq<Message>, completed: seq<Message>, epoch: nat) {
    forall m: Message :: m.qos.ExactlyOnce? && epoch <= m.serial ==>
                           && Times(delivered, m) <= 1
                           && (m in completed ==> Times(delivered, m) == 1)
  }

  /** No message waits twice, and none that waits is completed. */
  ghost predicate Unfinished(w: seq<Entry<Packet>>, h: History) {
    && (forall id, m :: Pends(w, id, m) ==> m !in h.completed)
    && (forall id, x, m :: Pends(w, id, m) && Pends(w, x, m) ==> id == x)
  }

  /** The packet that waits is the one on its way. */
  ghost predicate OnItsWay(w: seq<Entry<Packet>>, p: Packet) {
    && (HasId(p) ==> Get(w, IdOf(p)) == Some(Undup(p)) && WellFormed(IdOf(p), Undup(p)))
    && (p.Publish0? ==> p.m.qos.AtMostOnce?)
  }

  /** The receiver is still in step with a list that the client has given up. */
  ghost predicate InStepWith(b: Broker, w: seq<Entry<Packet>>, late: seq<Packet>, h: History) {
    && OnceOk(b, w, [], h) && Unfinished(w, h)
    && (forall i :: 0 <= i < |late| ==> OnItsWay(w, late[i]))
    && (forall i, j :: 0 <= i < j < |late| && IdOf(late[i]) != 0 ==> IdOf(late[i]) != IdOf(late[j]))
  }

  ghost predicate Doubtful(b: Broker, late: seq<Packet>, h: History) {
    Tally(b.delivered, h.completed, h.epoch) && (late == [] || exists w :: InStepWith(b, w, late, h))
  }

  ghost predicate Once(s: State) {
    && (s.h.intact ==>
          && !s.h.exposed && OnceOk(s.broker, s.c.ledger.waiting, s.net.replies, s.h)
          && LateCalm(s.broker, s.late))
    && (!s.h.intact && !s.h.exposed ==>
          && !s.c.status.Connected? && s.net.wire == []
          && Doubtful(s.broker, s.late, s.h))
  }

  lemma StepKeepsSound(s: State, step: Step)
    requires Enabled(s, step) && Control(s) && Ids(s) && Pipe(s) && Books(s) && Sound(s)
    ensures Sound(Apply(s, step))
  {
    StepKeepsPlain(s, step);
    match step {
      case Connect(_, _, _, _) => AttemptKeepsSound(s, step);
      case ConnectFails(_, _, _, _, _) => AttemptKeepsSound(s, step);
      case RegisterPacket(p) => RegisterKeepsSound(s, p);
      case BrokerReceives => ReceiveKeepsSound(s);
      case BrokerReceivesLate => LateKeepsSound(s);
      case HandlerTakes => TakeKeepsSound(s);
      case _ => RestKeepsSound(s, step);
    }
  }

  lemma RestKeepsSound(s: State, step: Step)
    requires Enabled(s, step) && Sound(s) && PlainOk(Outgoing(Apply(s, step)), Apply(s, step).callers)
    requires !step.Connect? && !step.ConnectFails? && !step.RegisterPacket? && !step.BrokerReceives?
    requires !step.BrokerReceivesLate? && !step.HandlerTakes?
    ensures Sound(Apply(s, step))
  {
    var t := Apply(s, step);
    assert t.broker == s.broker && t.late == s.late && t.c.ledger.waiting == s.c.ledger.waiting;
    assert t.h.accepted == s.h.accepted && t.h.completed == s.h.completed;
  }

  /** A connect brings no delivery; a failed one may leave packets of registered messages behind. */
  lemma AttemptKeepsSound(s: State, step: Step)
    requires Enabled(s, step) && (step.Connect? || step.ConnectFails?)
    requires Pipe(s) && Books(s) && Sound(s) && PlainOk(Outgoing(Apply(s, step)), Apply(s, step).callers)
    ensures Sound(Apply(s, step))
  {
    var t, wire := Apply(s, step), s.net.wire;
    forall i | 0 <= i < |wire|
      ensures wire[i].Publish? ==> wire[i].m in s.h.accepted
      ensures wire[i].Publish0? ==> wire[i].m.qos.AtMostOnce?
    {
      assert Outgoing(s)[i] == wire[i];
      if wire[i].Publish? {
        assert Pends(s.c.ledger.waiting, wire[i].id, wire[i].m);
      }
    }
  }

  lemma LateKeepsSound(s: State)
    requires Enabled(s, BrokerReceivesLate) && Books(s) && Sound(s)
    ensures Sound(DoReceiveLate(s))
  {
    var p := s.late[0];
    assert p.Publish? ==> p.m in s.h.accepted;
    assert Outgoing(DoReceiveLate(s)) == Outgoing(s);
  }

  lemma StepKeepsPlain(s: State, step: Step)
    requires Enabled(s, step) && Control(s) && Ids(s) && Pipe(s) && Sound(s)
    ensures PlainOk(Outgoing(Apply(s, step)), Apply(s, step).callers)
  {
    match step {
      case Connect(clean, discard, ack, comp) => ConnectKeepsPlain(s, clean, discard, ack, comp);
      case EnqueuePacket(p) => EnqueueKeepsPlain(s, p);
      case SenderWrites => SendKeepsPlain(s);
      case BrokerReceives => ReceiveKeepsPlain(s);
      case HandlerFinishes => FinishKeepsPlain(s);
      case LinkFails(k, r) => LinkFailsKeepsPlain(s, k, r);
      case _ => RestKeepsPlain(s, step);
    }
  }

  lemma RestKeepsPlain(s: State, step: Step)
    requires Enabled(s, step) && Sound(s)
    requires !step.Connect? && !step.EnqueuePacket? && !step.SenderWrites? && !step.BrokerReceives?
    requires !step.HandlerFinishes? && !step.LinkFails?
    ensures PlainOk(Outgoing(Apply(s, step)), Apply(s, step).callers)
  {
    var t, out := Apply(s, step), Outgoing(s);
    assert Outgoing(t) == out || Outgoing(t) == out + [Goodbye] || Outgoing(t) == s.c.queue;
    assert forall p :: p in t.callers && t.callers[p].Ready? && t.callers[p].packet.Publish0? && !step.Begin? ==>
                         t.callers[p] == s.callers[p];
    assert forall i :: 0 <= i < |s.c.queue| ==> s.c.queue[i] == out[|s.net.wire| + i];
  }

  lemma ConnectKeepsPlain(s: State, clean: bool, discard: bool, ack: bool, comp: bool)
    requires Enabled(s, Connect(clean, discard, ack, comp)) && Ids(s) && Pipe(s)
    ensures PlainOk(Outgoing(DoConnect(s, clean, discard, ack, comp)), s.callers)
  {
    ResendHasNoPlain(s);
    assert Outgoing(DoConnect(s, clean, discard, ack, comp)) == if clean then [] else Resend(s.c.ledger.waiting);
  }

  lemma ReceiveKeepsPlain(s: State)
    requires Enabled(s, BrokerReceives) && Sound(s)
    ensures PlainOk(Outgoing(DoReceive(s)), s.callers)
  {
    assert Outgoing(DoReceive(s)) == Outgoing(s)[1..];
  }

  lemma EnqueueKeepsPlain(s: State, p: nat)
    requires Enabled(s, EnqueuePacket(p)) && Sound(s)
    ensures PlainOk(Outgoing(DoEnqueue(s, p)), DoEnqueue(s, p).callers)
  {
    assert Outgoing(DoEnqueue(s, p)) == Outgoing(s) + if s.c.open then [s.callers[p].packet] else [];
  }

  lemma LinkFailsKeepsPlain(s: State, k: nat, r: nat)
    requires Enabled(s, LinkFails(k, r)) && Sound(s)
    ensures PlainOk(Outgoing(Apply(s, LinkFails(k, r))), s.callers)
  {
    assert Outgoing(Apply(s, LinkFails(k, r))) == Outgoing(s)[..k] + Outgoing(s)[|s.net.wire|..];
  }

  lemma FinishKeepsPlain(s: State)
    requires Enabled(s, HandlerFinishes) && Control(s) && Pipe(s) && Sound(s)
    ensures PlainOk(Outgoing(DoFinish(s)), s.callers)
  {
    if s.handler.todo.Send? {
      assert Sending(s.handler, IdOf(s.handler.todo.msg));
      assert Outgoing(DoFinish(s)) == Outgoing(s) + if s.c.open then [s.handler.todo.msg] else [];
    } else {
      assert Outgoing(DoFinish(s)) == Outgoing(s);
    }
  }

  lemma ResendHasNoPlain(s: State)
    requires Ids(s) && Pipe(s)
    ensures forall p :: p in Resend(s.c.ledger.waiting) ==> !p.Publish0?
  {
    var w := s.c.ledger.waiting;
    forall i | 0 <= i < |w| ensures !w[i].msg.Publish0? {
      GetAt(w, i);
      assert WellFormed(w[i].id, w[i].msg);
    }
  }

  lemma RegisterKeepsSound(s: State, p: nat)
    requires Enabled(s, RegisterPacket(p)) && Ids(s) && Pipe(s) && Sound(s)
    ensures Sound(DoRegister(s, p))
  {
    var Claimed(id, m) := s.callers[p];
    assert Claims(s.callers, p, id);
    PendsAfterRegister(s.c.ledger.waiting, id, Publish(id, m, false), DoRegister(s, p).c.ledger.waiting);
  }

  lemma SendKeepsPlain(s: State)
    requires Enabled(s, SenderWrites) && Sound(s)
    ensures PlainOk(Outgoing(DoSend(s)), s.callers)
  {
    var out, n := Outgoing(s), |s.net.wire|;
    assert Outgoing(DoSend(s)) == if s.net.up then out else out[..n] + out[n + 1..];
  }

  lemma ReceptionKeepsSound(
    b: Broker, w: seq<Entry<Packet>>, callers: map<nat, Caller>, replies: seq<Answer>, h: History, p: Packet)
    requires SoundOk(b, w, replies, h) && BooksOk(w, callers, h)
    requires p.Publish? ==> Pends(w, p.id, p.m)
    requires p.Publish0? ==> p.m.qos.AtMostOnce?
    ensures var (b', a) := Receive(b, p);
            && SoundOk(b', w, replies, h)
            && (a.Some? ==> SoundOk(b', w, replies + [a.value], h))
  {
    var b' := Receive(b, p).0;
    assert forall m :: m in b.delivered ==> m in b'.delivered;
  }

  lemma ReceiveKeepsSound(s: State)
    requires Enabled(s, BrokerReceives) && Pipe(s) && Books(s) && Sound(s)
    requires PlainOk(Outgoing(DoReceive(s)), s.callers)
    ensures Sound(DoReceive(s))
  {
    var p := s.net.wire[0];
    assert Outgoing(s)[0] == p;
    if p.Publish? {
      assert Pends(s.c.ledger.waiting, p.id, p.m);
    }
    ReceptionKeepsSound(s.broker, s.c.ledger.waiting, s.callers, s.net.replies, s.h, p);
  }

  lemma TakeKeepsSound(s: State)
    requires Enabled(s, HandlerTakes) && Ids(s) && Pipe(s) && Sound(s)
    requires PlainOk(Outgoing(DoTake(s)), s.callers)
    ensures Sound(DoTake(s))
  {
    var w, id := s.c.ledger.waiting, s.net.replies[0].id;
    AnswerFindsPacket(s);
    assert Pends(w, id, MessageOf(Get(w, id).value));
    PendsAfterRelease(w, id, Without(w, id));
    PendsAfterReplace(w, id, ReleaseOf(s, id), With(w, id, ReleaseOf(s, id)));
  }

  lemma StepKeepsOnce(s: State, step: Step)
    requires Enabled(s, step) && Control(s) && Ids(s) && Pipe(s) && Books(s) && Sound(s) && Once(s)
    ensures Once(Apply(s, step))
  {
    match step {
      case Connect(clean, discard, ack, comp) => ConnectKeepsOnce(s, clean, discard, ack, comp);
      case ConnectFails(clean, seen, discard, ack, comp) => ConnectFailsKeepsOnce(s, clean, seen, discard, ack, comp);
      case RegisterPacket(p) => RegisterKeepsOnce(s, p);
      case BrokerReceives => ReceiveKeepsOnce(s);
      case BrokerReceivesLate => LateKeepsOnce(s);
      case HandlerTakes => TakeKeepsOnce(s);
      case _ => RestKeepsOnce(s, step);
    }
  }

  lemma RestKeepsOnce(s: State, step: Step)
    requires Enabled(s, step) && Control(s) && Once(s)
    requires !step.Connect? && !step.ConnectFails? && !step.RegisterPacket? && !step.BrokerReceives?
    requires !step.BrokerReceivesLate? && !step.HandlerTakes?
    ensures Once(Apply(s, step))
  {
    var t := Apply(s, step);
    assert t.broker == s.broker && t.late == s.late && t.c.ledger.waiting == s.c.ledger.waiting;
    SameOnce(s.broker, s.c.ledger.waiting, s.net.replies, s.late, s.h, t.net.replies, t.h);
  }

  /** Only these parts of the history matter, and losing answers does no harm. */
  lemma SameOnce(
    b: Broker, w: seq<Entry<Packet>>, replies: seq<Answer>, late: seq<Packet>, h: History,
    replies': seq<Answer>, h': History)
    requires replies' <= replies || (replies != [] && replies' == replies[1..])
    requires h'.completed == h.completed && h'.abandoned == h.abandoned && h'.epoch == h.epoch
    ensures OnceOk(b, w, replies, h) ==> OnceOk(b, w, replies', h')
    ensures Doubtful(b, late, h) ==> Doubtful(b, late, h')
  {
    if Doubtful(b, late, h) && late != [] {
      var v :| InStepWith(b, v, late, h);
      assert InStepWith(b, v, late, h');
    }
  }

  // ---- connecting ------------------------------------------------------------------------------

  lemma ConnectKeepsOnce(s: State, clean: bool, discard: bool, ack: bool, comp: bool)
    requires Enabled(s, Connect(clean, discard, ack, comp)) && Ids(s) && Pipe(s) && Books(s) && Sound(s) && Once(s)
    ensures Once(DoConnect(s, clean, discard, ack, comp))
  {
    var t := DoConnect(s, clean, discard, ack, comp);
    if t.h.intact {
      if s.h.intact {
        AgreementIsKept(s, clean, discard);
      } else if s.h.exposed {
        NewEpoch(s);
      } else {
        StartsOver(s.broker, s.h, MessagesOf(s.c.ledger.waiting));
      }
      SameOnce(t.broker, t.c.ledger.waiting, [], [], s.h.(abandoned := t.h.abandoned, epoch := t.h.epoch), [], t.h);
    }
  }

  lemma ConnectFailsKeepsOnce(s: State, clean: bool, seen: bool, discard: bool, ack: bool, comp: bool)
    requires Enabled(s, ConnectFails(clean, seen, discard, ack, comp))
    requires Control(s) && Ids(s) && Pipe(s) && Books(s) && Sound(s) && Once(s)
    ensures Once(DoConnectFails(s, clean, seen, discard, ack, comp))
  {
    var t := DoConnectFails(s, clean, seen, discard, ack, comp);
    if t.h.intact {
      if s.h.intact {
        AgreementIsKept(s, clean, discard);
        StaysCalm(s, clean, seen, discard);
      } else {
        StartsOver(s.broker, s.h, MessagesOf(s.c.ledger.waiting));
      }
      SameOnce(t.broker, t.c.ledger.waiting, [], [], s.h.(abandoned := t.h.abandoned), [], t.h);
    } else if !t.h.exposed {
      if s.h.intact {
        Parts(s, clean, seen, discard, t.h);
      } else {
        StaysDoubtful(s, clean, discard, t.late, t.h);
      }
    }
  }

  /** Starting over, or losing only what does no harm, leaves every count as it should be. */
  lemma AgreementIsKept(s: State, clean: bool, discard: bool)
    requires Ids(s) && Pipe(s) && Books(s) && OnceOk(s.broker, s.c.ledger.waiting, s.net.replies, s.h)
    requires if clean then discard || s.broker.store == map[] else !discard || !AtRisk(s)
    ensures var w := if clean then [] else s.c.ledger.waiting;
            var h := s.h.(abandoned := s.h.abandoned + if clean then MessagesOf(s.c.ledger.waiting) else []);
            OnceOk(s.broker.(store := if discard then map[] else s.broker.store), w, [], h)
  {
    var w := s.c.ledger.waiting;
    if clean {
      forall m | m in MessagesOf(w) && m.qos.ExactlyOnce? ensures Times(s.broker.delivered, m) <= 1 {
        PendsListed(w, m);
      }
    }
  }

  /** A clean session is a new beginning if no count is wrong yet. */
  lemma StartsOver(b: Broker, h: History, lost: seq<Message>)
    requires Tally(b.delivered, h.completed, h.epoch)
    ensures OnceOk(b.(store := map[]), [], [], h.(abandoned := h.abandoned + lost))
  {
  }

  /** Whatever was counted wrong before, of the messages to come nothing has been counted. */
  lemma NewEpoch(s: State)
    requires Ids(s) && Books(s) && Sound(s)
    ensures OnceOk(s.broker.(store := map[]), [], [],
                   s.h.(abandoned := s.h.abandoned + MessagesOf(s.c.ledger.waiting), epoch := s.h.serial))
  {
    forall m | m in MessagesOf(s.c.ledger.waiting) ensures m.serial < s.h.serial {
      PendsListed(s.c.ledger.waiting, m);
    }
  }

  lemma StaysCalm(s: State, clean: bool, seen: bool, discard: bool)
    requires Control(s) && Once(s) && (clean && seen ==> discard) && (discard ==> seen)
    requires s.h.intact && ((clean && seen) || !Splits(s, clean, seen, discard))
    ensures LateCalm(s.broker.(store := if discard then map[] else s.broker.store),
                     if seen then [] else if clean then s.late + s.net.wire else s.late)
  {
    assert s.late == [] || s.late + s.net.wire == s.late;
    assert [] + s.net.wire == s.net.wire;
  }

  lemma IntactTally(s: State)
    requires Ids(s) && Books(s) && Sound(s) && OnceOk(s.broker, s.c.ledger.waiting, s.net.replies, s.h)
    ensures Tally(s.broker.delivered, s.h.completed, s.h.epoch)
  {
    forall m: Message | m.qos.ExactlyOnce? && s.h.epoch <= m.serial ensures Times(s.broker.delivered, m) <= 1 {
      DeliveredTimes(s.broker.delivered, m);
      if m in s.h.accepted {
        assert m in multiset(s.h.accepted);
        PendsListed(s.c.ledger.waiting, m);
      }
    }
  }

  lemma RegisterKeepsOnce(s: State, p: nat)
    requires Enabled(s, RegisterPacket(p)) && Ids(s) && Books(s) && Sound(s) && Once(s) && Control(s)
    ensures Once(DoRegister(s, p))
  {
    var Claimed(id, m) := s.callers[p];
    var w, w' := s.c.ledger.waiting, DoRegister(s, p).c.ledger.waiting;
    assert Claims(s.callers, p, id) && Offers(s.callers, p, m);
    PendsAfterRegister(w, id, Publish(id, m, false), w');
    GetAfterRegister(w, id, Publish(id, m, false));
    DeliveredTimes(s.broker.delivered, m);
  }

  /** Delivering anything but an exactly-once message changes no count that matters. */
  lemma PlainKeepsOnce(b: Broker, w: seq<Entry<Packet>>, replies: seq<Answer>, h: History, m: Message)
    requires OnceOk(b, w, replies, h) && !m.qos.ExactlyOnce?
    ensures OnceOk(b.(delivered := b.delivered + [m]), w, replies, h)
  {
    OneMore(b.delivered, m);
  }

  lemma PublishKeepsOnce(
    b: Broker, w: seq<Entry<Packet>>, replies: seq<Answer>, h: History, id: int, m: Message)
    requires OnceOk(b, w, replies, h) && Unfinished(w, h) && m.qos.ExactlyOnce?
    requires Get(w, id) == Some(Publish(id, m, false))
    requires forall j :: 0 <= j < |replies| ==> replies[j].id != id
    ensures OnceOk(Receive(b, Publish(id, m, false)).0, w, replies, h)
    ensures id in Receive(b, Publish(id, m, false)).0.store
  {
    assert Pends(w, id, m);
    OneMore(b.delivered, m);
  }

  lemma PubRelKeepsOnce(
    b: Broker, w: seq<Entry<Packet>>, replies: seq<Answer>, h: History, id: int, m: Message)
    requires OnceOk(b, w, replies, h) && Unfinished(w, h) && m.qos.ExactlyOnce?
    requires Get(w, id) == Some(PubRel(id, m))
    requires forall j :: 0 <= j < |replies| ==> replies[j].id != id
    ensures OnceOk(Receive(b, PubRel(id, m)).0, w, replies, h)
    ensures id !in Receive(b, PubRel(id, m)).0.store
  {
    assert Pends(w, id, m);
    OneMore(b.delivered, m);
  }

  lemma AnswerKeepsOnce(b: Broker, w: seq<Entry<Packet>>, replies: seq<Answer>, h: History, a: Answer)
    requires OnceOk(b, w, replies, h)
    requires (a.kind.PubRec? ==> a.id in b.store) && (a.kind.PubComp? ==> a.id !in b.store)
    ensures OnceOk(b, w, replies + [a], h)
  {
  }

  /** Receiving the packet that waits keeps the receiver in step with the list. */
  lemma ReceptionKeepsOnce(b: Broker, w: seq<Entry<Packet>>, replies: seq<Answer>, h: History, p: Packet)
    requires OnceOk(b, w, replies, h) && Unfinished(w, h) && OnItsWay(w, p)
    requires HasId(p) ==> forall j :: 0 <= j < |replies| ==> replies[j].id != IdOf(p)
    ensures OnceOk(Receive(b, p).0, w, replies, h)
    ensures var (b', a) := Receive(b, p);
            a.Some? ==>
              && (a.value.kind.PubRec? ==> a.value.id in b'.store)
              && (a.value.kind.PubComp? ==> a.value.id !in b'.store)
  {
    match p {
      case Publish0(m) => PlainKeepsOnce(b, w, replies, h, m);
      case Publish(id, m, _) =>
        if m.qos.ExactlyOnce? {
          PublishKeepsOnce(b, w, replies, h, id, m);
        } else {
          PlainKeepsOnce(b, w, replies, h, m);
        }
      case PubRel(id, m) => PubRelKeepsOnce(b, w, replies, h, id, m);
      case Goodbye =>
    }
  }

  lemma FirstOnItsWay(s: State)
    requires s.net.wire != [] && Pipe(s) && PlainOk(Outgoing(s), s.callers)
    ensures var p := s.net.wire[0];
            && OnItsWay(s.c.ledger.waiting, p)
            && (HasId(p) ==> forall j :: 0 <= j < |s.net.replies| ==> s.net.replies[j].id != IdOf(p))
  {
    assert Outgoing(s)[0] == s.net.wire[0];
  }

  lemma ReceiveKeepsOnce(s: State)
    requires Enabled(s, BrokerReceives) && Control(s) && Pipe(s) && Books(s) && Sound(s) && Once(s)
    ensures Once(DoReceive(s))
  {
    if s.h.intact {
      var (b, a) := Receive(s.broker, s.net.wire[0]);
      FirstOnItsWay(s);
      ReceptionKeepsOnce(s.broker, s.c.ledger.waiting, s.net.replies, s.h, s.net.wire[0]);
      if a.Some? {
        AnswerKeepsOnce(b, s.c.ledger.waiting, s.net.replies, s.h, a.value);
      }
    }
  }

  // ---- packets of an earlier connection -----------------------------------------------------

  lemma LateKeepsOnce(s: State)
    requires Enabled(s, BrokerReceivesLate) && Sound(s) && Once(s)
    ensures Once(DoReceiveLate(s))
  {
    var p, t := s.late[0], DoReceiveLate(s);
    if s.h.intact {
      assert !(p.Publish? && p.m.qos.ExactlyOnce?);
      if p.Publish? || p.Publish0? {
        PlainKeepsOnce(s.broker, s.c.ledger.waiting, s.net.replies, s.h, p.m);
      }
      assert forall i :: 0 <= i < |t.late| ==> t.late[i] == s.late[i + 1];
    } else if !s.h.exposed {
      var w :| InStepWith(s.broker, w, s.late, s.h);
      ReceptionKeepsOnce(s.broker, w, [], s.h, p);
      ReceptionKeepsTally(s.broker, w, s.h, p);
      assert InStepWith(t.broker, w, t.late, s.h);
    }
  }

  lemma ReceptionKeepsTally(b: Broker, w: seq<Entry<Packet>>, h: History, p: Packet)
    requires Tally(b.delivered, h.completed, h.epoch) && OnceOk(b, w, [], h) && Unfinished(w, h) && OnItsWay(w, p)
    requires OnceOk(Receive(b, p).0, w, [], h)
    ensures Tally(Receive(b, p).0.delivered, h.completed, h.epoch)
  {
    if HasId(p) {
      assert Pends(w, IdOf(p), MessageOf(p));
    }
    if !p.Goodbye? {
      OneMore(b.delivered, MessageOf(p));
    }
  }

  /** Receiver and ledger part: what was on its way still fits the list that was given up. */
  lemma Parts(s: State, clean: bool, seen: bool, discard: bool, h': History)
    requires Control(s) && Ids(s) && Pipe(s) && Books(s) && Sound(s) && Once(s) && s.h.intact && MayConnect(s)
    requires Splits(s, clean, seen, discard) && (discard ==> seen)
    requires h'.completed == s.h.completed && h'.epoch == s.h.epoch
    requires h'.abandoned == s.h.abandoned + if clean then MessagesOf(s.c.ledger.waiting) else []
    ensures Doubtful(s.broker.(store := if discard then map[] else s.broker.store),
                     if seen then [] else if clean then s.late + s.net.wire else s.late, h')
  {
    IntactTally(s);
    if !seen {
      var w := s.c.ledger.waiting;
      forall m | m in MessagesOf(w) && m.qos.ExactlyOnce? ensures Times(s.broker.delivered, m) <= 1 {
        PendsListed(w, m);
      }
      assert Outgoing(s) == s.net.wire && s.late + s.net.wire == s.net.wire;
      assert forall i :: 0 <= i < |s.net.wire| ==> OnItsWay(w, s.net.wire[i]);
      assert InStepWith(s.broker, w, s.net.wire, h');
    }
  }

  lemma StaysDoubtful(s: State, clean: bool, discard: bool, late': seq<Packet>, h': History)
    requires Doubtful(s.broker, s.late, s.h)
    requires late' == s.late || late' == []
    requires discard ==> late' == []
    requires h'.completed == s.h.completed && h'.epoch == s.h.epoch
    requires h'.abandoned == s.h.abandoned + if clean then MessagesOf(s.c.ledger.waiting) else []
    ensures Doubtful(s.broker.(store := if discard then map[] else s.broker.store), late', h')
  {
    if late' != [] {
      var w :| InStepWith(s.broker, w, s.late, s.h);
      assert InStepWith(s.broker, w, late', h');
    }
  }

  lemma CompleteKeepsOnce(
    b: Broker, w: seq<Entry<Packet>>, replies: seq<Answer>, h: History, id: int, m: Message)
    requires OnceOk(b, w, replies, h) && DistinctIds(w) && Pends(w, id, m) && id !in b.store
    requires m.qos.ExactlyOnce? ==> Get(w, id).value.PubRel?
    requires replies != []
    ensures OnceOk(b, Without(w, id), replies[1..], h.(completed := h.completed + [m]))
  {
    PendsAfterRelease(w, id, Without(w, id));
    GetAfterRelease(w, id);
  }

  lemma PubRecKeepsOnce(b: Broker, w: seq<Entry<Packet>>, replies: seq<Answer>, h: History, id: int, m: Message)
    requires OnceOk(b, w, replies, h) && DistinctIds(w) && Pends(w, id, m) && id in b.store
    requires replies != []
    ensures OnceOk(b, With(w, id, PubRel(id, m)), replies[1..], h)
  {
    PendsAfterReplace(w, id, PubRel(id, m), With(w, id, PubRel(id, m)));
    GetAfterReplace(w, id, PubRel(id, m));
  }

  lemma TakeKeepsOnce(s: State)
    requires Enabled(s, HandlerTakes) && Control(s) && Ids(s) && Pipe(s) && Sound(s) && Once(s)
    ensures Once(DoTake(s))
  {
    if s.h.intact {
      AnswerFindsPacket(s);
      TakenAnswer(s);
    }
  }

  /** The list after an answer agrees with the receiver, as it did before. */
  lemma TakenAnswer(s: State)
    requires Enabled(s, HandlerTakes) && Ids(s) && Pipe(s) && Sound(s)
    requires Find(s.c.ledger, s.net.replies[0].id) == Found
    requires OnceOk(s.broker, s.c.ledger.waiting, s.net.replies, s.h)
    ensures var t := DoTake(s);
            OnceOk(t.broker, t.c.ledger.waiting, t.net.replies, t.h)
  {
    var w, id := s.c.ledger.waiting, s.net.replies[0].id;
    var m := MessageOf(Get(w, id).value);
    assert Pends(w, id, m);
    SameOnce(s.broker, w, s.net.replies, [], s.h, s.net.replies[1..], s.h);
    if s.net.replies[0].kind.PubRec? {
      PubRecKeepsOnce(s.broker, w, s.net.replies, s.h, id, m);
    } else {
      CompleteKeepsOnce(s.broker, w, s.net.replies, s.h, id, m);
    }
  }
}
