/** What every step of the delivery protocol keeps. */
module Invariants {
  import opened Wrappers
  import opened PacketIds
  import opened Ledger
  import opened Client
  import opened Delivery

  // ---- control: locks, handler, queue and the logs of this connection ------------------

  ghost predicate Control(s: State) {
    && (s.handler.Stopped? <==> !(s.c.status.Connected? && (s.stage.Unlocked? || s.stage.AwaitStop?)))
    && (s.callers != map[] ==> s.c.status.Connected? && s.stage.Unlocked?)
    && (!s.c.status.Connected? ==> s.c.queue == [] && s.stage.Unlocked? && !s.c.open)
    && (s.c.status.Connected? ==> (s.c.open <==> !s.stage.Draining?))
    && |s.c.queue| <= QUEUE_CAPACITY
    && (s.late != [] ==> !s.c.status.Connected? && s.net.wire == [])
    && (s.handler.Busy? ==> s.handler.todo.Clear? || s.handler.todo.Send?)
    && (forall p :: p in s.callers && (s.callers[p].Started? || s.callers[p].Claimed?) ==>
                      !s.callers[p].m.qos.AtMostOnce?)
  }

  ghost predicate Logs(s: State) {
    && s.h.written + s.c.queue == s.h.enqueued
    && (s.net.up ==> s.h.sent == s.h.resent + s.h.written)
  }

  ghost predicate Farewell(s: State) {
    && (s.c.status.Connected? && !(s.stage.Draining? && s.stage.polite) ==> Goodbye !in s.h.enqueued)
    && (s.stage.Draining? && s.stage.polite ==> EndsInGoodbye(s.h.enqueued))
    && (forall p :: p in s.callers && s.callers[p].Ready? ==> !s.callers[p].packet.Goodbye?)
    && (s.handler.Busy? && s.handler.todo.Send? ==> !s.handler.todo.msg.Goodbye?)
  }

  /** DISCONNECT comes last, and only there. */
  ghost predicate EndsInGoodbye(ps: seq<Packet>) {
    ps != [] && ps[|ps| - 1] == Goodbye && Goodbye !in ps[..|ps| - 1]
  }

  lemma StepKeepsControl(s: State, step: Step)
    requires Enabled(s, step) && Control(s)
    ensures Control(Apply(s, step))
  {
  }

  lemma StepKeepsLogs(s: State, step: Step)
    requires Enabled(s, step) && Control(s) && Logs(s)
    ensures Logs(Apply(s, step))
  {
    match step {
      case SenderWrites => SendKeepsLogs(s);
      case HandlerFinishes => FinishKeepsLogs(s);
      case _ => RestKeepsLogs(s, step);
    }
  }

  lemma SendKeepsLogs(s: State)
    requires Enabled(s, SenderWrites) && Logs(s)
    ensures Logs(DoSend(s))
  {
    assert s.c.queue == [s.c.queue[0]] + s.c.queue[1..];
  }

  lemma FinishKeepsLogs(s: State)
    requires Enabled(s, HandlerFinishes) && Control(s) && Logs(s)
    ensures Logs(DoFinish(s))
  {
  }

  lemma RestKeepsLogs(s: State, step: Step)
    requires Enabled(s, step) && Control(s) && Logs(s) && !step.SenderWrites? && !step.HandlerFinishes?
    ensures Logs(Apply(s, step))
  {
  }

  lemma StepKeepsFarewell(s: State, step: Step)
    requires Enabled(s, step) && Control(s) && Farewell(s)
    ensures Farewell(Apply(s, step))
  {
    match step {
      case EnqueuePacket(p) => EnqueueKeepsFarewell(s, p);
      case HandlerTakes => TakeKeepsFarewell(s);
      case HandlerFinishes => FinishKeepsFarewell(s);
      case EnqueueGoodbye => GoodbyeKeepsFarewell(s);
      case _ => RestKeepsFarewell(s, step);
    }
  }

  lemma EnqueueKeepsFarewell(s: State, p: nat)
    requires Enabled(s, EnqueuePacket(p)) && Control(s) && Farewell(s)
    ensures Farewell(DoEnqueue(s, p))
  {
  }

  lemma TakeKeepsFarewell(s: State)
    requires Enabled(s, HandlerTakes) && Control(s) && Farewell(s)
    ensures Farewell(DoTake(s))
  {
    assert DoTake(s).h.enqueued == s.h.enqueued && DoTake(s).callers == s.callers;
  }

  lemma FinishKeepsFarewell(s: State)
    requires Enabled(s, HandlerFinishes) && Control(s) && Farewell(s)
    ensures Farewell(DoFinish(s))
  {
    assert DoFinish(s).callers == s.callers;
  }

  lemma GoodbyeKeepsFarewell(s: State)
    requires Enabled(s, EnqueueGoodbye) && Control(s) && Farewell(s)
    ensures Farewell(DoGoodbye(s))
  {
    var t := DoGoodbye(s);
    assert t.h.enqueued[..|t.h.enqueued| - 1] == s.h.enqueued;
  }

  /** Nothing else is queued. */
  lemma RestKeepsFarewell(s: State, step: Step)
    requires Enabled(s, step) && Control(s) && Farewell(s)
    requires !step.EnqueuePacket? && !step.HandlerTakes? && !step.HandlerFinishes? && !step.EnqueueGoodbye?
    ensures Farewell(Apply(s, step))
  {
    var t := Apply(s, step);
    assert t.h.enqueued == s.h.enqueued || t.h.enqueued == [];
  }

  // ---- identifiers ---------------------------------------------------------------------

  /** A call that has its identifier and has not registered its packet. */
  ghost predicate Claims(callers: map<nat, Caller>, p: nat, id: int) {
    p in callers && callers[p].Claimed? && callers[p].id == id
  }

  /** A call that has registered its packet, if it needs to, and has not queued it. */
  ghost predicate Holds(callers: map<nat, Caller>, p: nat, id: int) {
    p in callers && callers[p].Ready? && IdOf(callers[p].packet) == id
  }

  /** The handler has released the packet and not yet cleared its bit. */
  ghost predicate Clearing(h: Handler, id: int) {
    h.Busy? && h.todo == Clear(id)
  }

  /** The handler has replaced the packet and not yet queued the PUBREL. */
  ghost predicate Sending(h: Handler, id: int) {
    h.Busy? && h.todo.Send? && IdOf(h.todo.msg) == id
  }

  ghost predicate IdsOk(l: Ledger<Packet>, callers: map<nat, Caller>, h: Handler) {
    && DistinctIds(l.waiting)
    && 0 <= l.next <= MAX_ID && (l.next == 0 ==> l.used == {})
    && (forall id :: id in l.used ==> 1 <= id <= MAX_ID)
    && (forall id :: id in l.used ==> Get(l.waiting, id).Some? || Clearing(h, id) || exists p :: Claims(callers, p, id))
    && (forall id :: Get(l.waiting, id).Some? ==> id in l.used && id in l.indexed && !Clearing(h, id))
    && (forall id :: Clearing(h, id) ==> id in l.used)
    && (forall p, id :: Claims(callers, p, id) ==> id in l.used && Get(l.waiting, id).None? && !Clearing(h, id))
    && (forall p, q, id :: Claims(callers, p, id) && Claims(callers, q, id) ==> p == q)
  }

  ghost predicate Ids(s: State) {
    IdsOk(s.c.ledger, s.callers, s.handler)
  }

  // ---- where the packet or answer of an identifier can be -------------------------------

  ghost function Outgoing(s: State): seq<Packet> {
    s.net.wire + s.c.queue
  }

  predicate HasId(p: Packet) {
    p.Publish? || p.PubRel?
  }

  /** An answer fits the packet that waits for it. */
  ghost predicate Fits(a: Answer, p: Packet) {
    match a.kind
    case PubAck => p.Publish? && !p.m.qos.ExactlyOnce?
    case PubRec => p.Publish? && p.m.qos.ExactlyOnce?
    case PubComp => p.PubRel?
  }

  ghost predicate WellFormed(id: int, p: Packet) {
    && IdOf(p) == id && id != 0
    && match p
       case Publish(_, m, dup) => !dup && !m.qos.AtMostOnce?
       case PubRel(_, m) => m.qos.ExactlyOnce?
       case _ => false
  }

  /** Packets to come, answers to come, and packets about to be queued are those waiting. */
  ghost predicate MatchingOk(
    w: seq<Entry<Packet>>, callers: map<nat, Caller>, h: Handler, out: seq<Packet>, replies: seq<Answer>)
  {
    && (forall id :: Get(w, id).Some? ==> WellFormed(id, Get(w, id).value))
    && (forall i :: 0 <= i < |out| && HasId(out[i]) ==> Get(w, IdOf(out[i])) == Some(Undup(out[i])))
    && (forall j :: 0 <= j < |replies| ==> Get(w, replies[j].id).Some? && Fits(replies[j], Get(w, replies[j].id).value))
    && (forall id :: Sending(h, id) ==> Get(w, id) == Some(h.todo.msg))
    && (forall p, id :: Holds(callers, p, id) && HasId(callers[p].packet) ==> Get(w, id) == Some(callers[p].packet))
  }

  ghost predicate Matching(s: State) {
    MatchingOk(s.c.ledger.waiting, s.callers, s.handler, Outgoing(s), s.net.replies)
  }

  /** At most one packet or answer of an identifier is under way. */
  ghost predicate OneEachOk(callers: map<nat, Caller>, h: Handler, out: seq<Packet>, replies: seq<Answer>) {
    && (forall i, j :: 0 <= i < j < |out| && IdOf(out[i]) != 0 ==> IdOf(out[i]) != IdOf(out[j]))
    && (forall i, j :: 0 <= i < j < |replies| ==> replies[i].id != replies[j].id)
    && (forall i, j :: 0 <= i < |out| && 0 <= j < |replies| ==> IdOf(out[i]) != replies[j].id)
    && (forall i :: 0 <= i < |out| ==> !Sending(h, IdOf(out[i])))
    && (forall j :: 0 <= j < |replies| ==> !Sending(h, replies[j].id))
    && (forall i, p :: 0 <= i < |out| && IdOf(out[i]) != 0 ==> !Holds(callers, p, IdOf(out[i])))
    && (forall j, p :: 0 <= j < |replies| ==> !Holds(callers, p, replies[j].id))
    && (forall p, id :: Holds(callers, p, id) ==> !Sending(h, id))
    && (forall p, q, id :: id != 0 && Holds(callers, p, id) && Holds(callers, q, id) ==> p == q)
  }

  ghost predicate OneEach(s: State) {
    OneEachOk(s.callers, s.handler, Outgoing(s), s.net.replies)
  }

  // ---- the steps keep the identifiers apart ----------------------------------------------

  lemma StepKeepsIds(s: State, step: Step)
    requires Enabled(s, step) && Control(s) && Ids(s) && Matching(s)
    ensures Ids(Apply(s, step))
  {
    match step {
      case Begin(p, _) => BeginKeepsIds(s, p, step.qos);
      case ClaimID(p) => ClaimKeepsIds(s, p);
      case RegisterPacket(p) => RegisterKeepsIds(s, p);
      case EnqueuePacket(p) => EnqueueKeepsIds(s, p);
      case HandlerTakes => TakeKeepsIds(s);
      case HandlerFinishes => FinishKeepsIds(s);
      case _ => RestKeepsIds(s, step);
    }
  }

  /** The other steps leave the ledger alone, or replace it when nobody is at work. */
  lemma RestKeepsIds(s: State, step: Step)
    requires Enabled(s, step) && Control(s) && Ids(s)
    requires !step.Begin? && !step.ClaimID? && !step.RegisterPacket? && !step.EnqueuePacket?
    requires !step.HandlerTakes? && !step.HandlerFinishes?
    ensures Ids(Apply(s, step))
  {
    var t := Apply(s, step);
    RestOfIds(s, step);
    SameIds(s.c.ledger, s.callers, s.handler, t.c.ledger, t.handler);
  }

  lemma RestOfIds(s: State, step: Step)
    requires Enabled(s, step) && Control(s)
    requires !step.Begin? && !step.ClaimID? && !step.RegisterPacket? && !step.EnqueuePacket?
    requires !step.HandlerTakes? && !step.HandlerFinishes?
    ensures var t := Apply(s, step);
            && t.callers == s.callers
            && (t.c.ledger == s.c.ledger || (t.c.ledger == Fresh() && t.callers == map[]))
            && (t.handler == s.handler || (!s.handler.Busy? && !t.handler.Busy?))
  {
  }

  lemma SameIds(
    l: Ledger<Packet>, callers: map<nat, Caller>, h: Handler, l': Ledger<Packet>, h': Handler)
    requires IdsOk(l, callers, h)
    requires l' == l || (l' == Fresh() && callers == map[])
    requires h' == h || (!h.Busy? && !h'.Busy?)
    ensures l' == l || !h'.Busy? ==> IdsOk(l', callers, h')
  {
  }

  lemma FinishKeepsIds(s: State)
    requires Enabled(s, HandlerFinishes) && Control(s) && Ids(s)
    ensures Ids(DoFinish(s))
  {
  }

  /** Changing one call changes only what that call claims and holds. */
  lemma ChangedCaller(was: map<nat, Caller>, p: nat, c: Caller, now: map<nat, Caller>)
    requires now == was[p := c]
    ensures forall q, id :: Claims(now, q, id) <==>
                            (if q == p then c.Claimed? && c.id == id else Claims(was, q, id))
    ensures forall q, id :: Holds(now, q, id) <==>
                            (if q == p then c.Ready? && IdOf(c.packet) == id else Holds(was, q, id))
  {
  }

  lemma LeavingCaller(was: map<nat, Caller>, p: nat, now: map<nat, Caller>)
    requires now == was - {p}
    ensures forall q, id :: Claims(now, q, id) <==> q != p && Claims(was, q, id)
    ensures forall q, id :: Holds(now, q, id) <==> q != p && Holds(was, q, id)
  {
  }

  lemma BeginKeepsIds(s: State, p: nat, qos: QoS)
    requires Enabled(s, Begin(p, qos)) && Ids(s)
    ensures Ids(DoBegin(s, p, qos))
  {
    var callers := DoBegin(s, p, qos).callers;
    ChangedCaller(s.callers, p, callers[p], callers);
  }

  lemma ClaimKeepsIds(s: State, p: nat)
    requires Enabled(s, ClaimID(p)) && Ids(s)
    ensures Ids(DoClaim(s, p))
  {
    var l := s.c.ledger;
    NextIdIsFirstFree(l.used, l.next);
    if NextId(l.used, l.next).Some? {
      var id := NextId(l.used, l.next).value;
      var callers := DoClaim(s, p).callers;
      ChangedCaller(s.callers, p, callers[p], callers);
      forall x | x in l.used + {id}
        ensures Get(l.waiting, x).Some? || Clearing(s.handler, x) || exists q :: Claims(callers, q, x)
      {
        if x == id {
          assert Claims(callers, p, x);
        } else if q :| Claims(s.callers, q, x) {
          assert Claims(callers, q, x);
        }
      }
    }
  }

  lemma RegisterKeepsIds(s: State, p: nat)
    requires Enabled(s, RegisterPacket(p)) && Ids(s)
    ensures Ids(DoRegister(s, p))
  {
    var Claimed(id, m) := s.callers[p];
    var callers, l := DoRegister(s, p).callers, DoRegister(s, p).c.ledger;
    assert Claims(s.callers, p, id);
    GetAfterRegister(s.c.ledger.waiting, id, Publish(id, m, false));
    ChangedCaller(s.callers, p, callers[p], callers);
    forall x | x in l.used
      ensures Get(l.waiting, x).Some? || Clearing(s.handler, x) || exists q :: Claims(callers, q, x)
    {
      if Get(l.waiting, x).None? && !Clearing(s.handler, x) {
        var q :| Claims(s.callers, q, x);
        assert Claims(callers, q, x);
      }
    }
  }

  lemma EnqueueKeepsIds(s: State, p: nat)
    requires Enabled(s, EnqueuePacket(p)) && Ids(s)
    ensures Ids(DoEnqueue(s, p))
  {
    var l, callers := s.c.ledger, s.callers - {p};
    LeavingCaller(s.callers, p, callers);
    forall x | x in l.used
      ensures Get(l.waiting, x).Some? || Clearing(s.handler, x) || exists q :: Claims(callers, q, x)
    {
      if q :| Claims(s.callers, q, x) {
        assert Claims(callers, q, x);
      }
    }
  }

  /** An answer to come always meets its packet: no lookup panics, and none is detached. */
  lemma AnswerFindsPacket(s: State)
    requires s.net.replies != [] && Ids(s) && Matching(s)
    ensures Find(s.c.ledger, s.net.replies[0].id) == Found
  {
  }

  lemma ReleaseKeepsIds(l: Ledger<Packet>, callers: map<nat, Caller>, id: int)
    requires IdsOk(l, callers, Idle) && Get(l.waiting, id).Some?
    ensures IdsOk(Release(l, id), callers, Busy(Clear(id)))
  {
    GetAfterRelease(l.waiting, id);
    forall x | x in l.used
      ensures Get(Release(l, id).waiting, x).Some? || Clearing(Busy(Clear(id)), x) || exists p :: Claims(callers, p, x)
    {
      assert Get(l.waiting, x).Some? || Clearing(Idle, x) || exists p :: Claims(callers, p, x);
    }
  }

  lemma ReplaceKeepsIds(l: Ledger<Packet>, callers: map<nat, Caller>, id: int, msg: Packet)
    requires IdsOk(l, callers, Idle) && Get(l.waiting, id).Some?
    ensures IdsOk(Replace(l, id, msg), callers, Busy(Send(msg)))
  {
    GetAfterReplace(l.waiting, id, msg);
    forall x | x in l.used
      ensures Get(Replace(l, id, msg).waiting, x).Some? || exists p :: Claims(callers, p, x)
    {
      assert Get(l.waiting, x).Some? || Clearing(Idle, x) || exists p :: Claims(callers, p, x);
    }
  }

  lemma TakeKeepsIds(s: State)
    requires Enabled(s, HandlerTakes) && Ids(s) && Matching(s)
    ensures Ids(DoTake(s))
  {
    var id := s.net.replies[0].id;
    AnswerFindsPacket(s);
    ReleaseKeepsIds(s.c.ledger, s.callers, id);
    ReplaceKeepsIds(s.c.ledger, s.callers, id, ReleaseOf(s, id));
  }

  // ---- the steps keep packets and answers where they belong --------------------------------

  ghost predicate PipeOk(
    w: seq<Entry<Packet>>, callers: map<nat, Caller>, h: Handler, out: seq<Packet>, replies: seq<Answer>)
  {
    MatchingOk(w, callers, h, out, replies) && OneEachOk(callers, h, out, replies)
  }

  ghost predicate Pipe(s: State) {
    PipeOk(s.c.ledger.waiting, s.callers, s.handler, Outgoing(s), s.net.replies)
  }

  /** Losing packets from the middle and answers from the end. */
  lemma PipeLoses(
    w: seq<Entry<Packet>>, callers: map<nat, Caller>, h: Handler, out: seq<Packet>, replies: seq<Answer>,
    i: nat, j: nat, r: nat)
    requires PipeOk(w, callers, h, out, replies) && i <= j <= |out| && r <= |replies|
    ensures PipeOk(w, callers, h, out[..i] + out[j..], replies[..r])
  {
    var out' := out[..i] + out[j..];
    assert forall x :: 0 <= x < |out'| ==> out'[x] == out[if x < i then x else x + (j - i)];
  }

  /** A packet nobody else is sending may join the queue. */
  lemma PipeGains(
    w: seq<Entry<Packet>>, callers: map<nat, Caller>, h: Handler, out: seq<Packet>, replies: seq<Answer>, p: Packet)
    requires PipeOk(w, callers, h, out, replies)
    requires HasId(p) ==>
               && Get(w, IdOf(p)) == Some(Undup(p)) && !Sending(h, IdOf(p))
               && (forall i :: 0 <= i < |out| ==> IdOf(out[i]) != IdOf(p))
               && (forall j :: 0 <= j < |replies| ==> replies[j].id != IdOf(p))
               && (forall q :: !Holds(callers, q, IdOf(p)))
    ensures PipeOk(w, callers, h, out + [p], replies)
  {
    NoZero(w, callers, h, out, replies);
  }

  /** No answer and no release is about identifier 0. */
  lemma NoZero(w: seq<Entry<Packet>>, callers: map<nat, Caller>, h: Handler, out: seq<Packet>, replies: seq<Answer>)
    requires MatchingOk(w, callers, h, out, replies)
    ensures Get(w, 0) == None && !Sending(h, 0) && forall j :: 0 <= j < |replies| ==> replies[j].id != 0
  {
  }

  /** A receiver's answer takes the place of the packet it answers. */
  lemma PipeTurns(
    w: seq<Entry<Packet>>, callers: map<nat, Caller>, h: Handler, out: seq<Packet>, replies: seq<Answer>, a: Answer)
    requires PipeOk(w, callers, h, out, replies)
    requires out != [] && IdOf(out[0]) == a.id != 0 && Fits(a, Undup(out[0]))
    ensures PipeOk(w, callers, h, out[1..], replies + [a])
  {
  }

  lemma PipeDoneSending(
    w: seq<Entry<Packet>>, callers: map<nat, Caller>, h: Handler, out: seq<Packet>, replies: seq<Answer>, h': Handler)
    requires PipeOk(w, callers, h, out, replies) && !(h'.Busy? && h'.todo.Send?)
    ensures PipeOk(w, callers, h', out, replies)
  {
  }

  /** An answer is ignored. */
  lemma PipeSkips(w: seq<Entry<Packet>>, callers: map<nat, Caller>, out: seq<Packet>, replies: seq<Answer>)
    requires PipeOk(w, callers, Idle, out, replies) && replies != []
    ensures PipeOk(w, callers, Idle, out, replies[1..])
  {
  }

  lemma PipeReleases(w: seq<Entry<Packet>>, callers: map<nat, Caller>, out: seq<Packet>, replies: seq<Answer>)
    requires PipeOk(w, callers, Idle, out, replies) && DistinctIds(w) && replies != []
    ensures PipeOk(Without(w, replies[0].id), callers, Busy(Clear(replies[0].id)), out, replies[1..])
  {
    GetAfterRelease(w, replies[0].id);
  }

  lemma PipeReplaces(
    w: seq<Entry<Packet>>, callers: map<nat, Caller>, out: seq<Packet>, replies: seq<Answer>, msg: Packet)
    requires PipeOk(w, callers, Idle, out, replies) && DistinctIds(w) && replies != []
    requires msg.PubRel? && msg.id == replies[0].id && msg.m.qos.ExactlyOnce?
    ensures PipeOk(With(w, msg.id, msg), callers, Busy(Send(msg)), out, replies[1..])
  {
    GetAfterReplace(w, msg.id, msg);
  }

  lemma PipeRegisters(
    w: seq<Entry<Packet>>, callers: map<nat, Caller>, h: Handler, out: seq<Packet>, replies: seq<Answer>,
    p: nat, packet: Packet, callers': map<nat, Caller>)
    requires PipeOk(w, callers, h, out, replies) && DistinctIds(w)
    requires Get(w, IdOf(packet)) == None && WellFormed(IdOf(packet), packet)
    requires p in callers && callers[p].Claimed? && callers' == callers[p := Ready(packet)]
    ensures PipeOk(w + [Entry(IdOf(packet), packet)], callers', h, out, replies)
  {
    GetAfterRegister(w, IdOf(packet), packet);
    ChangedCaller(callers, p, Ready(packet), callers');
  }

  lemma StepKeepsPipe(s: State, step: Step)
    requires Enabled(s, step) && Control(s) && Ids(s) && Pipe(s)
    ensures Pipe(Apply(s, step))
  {
    match step {
      case Connect(clean, discard, ack, comp) => ConnectKeepsPipe(s, clean, discard, ack, comp);
      case ConnectFails(clean, seen, discard, ack, comp) => ConnectFailsKeepsPipe(s, clean, seen, discard, ack, comp);
      case Begin(p, qos) => BeginKeepsPipe(s, p, qos);
      case ClaimID(p) => ClaimKeepsPipe(s, p);
      case RegisterPacket(p) => RegisterKeepsPipe(s, p);
      case EnqueuePacket(p) => EnqueueKeepsPipe(s, p);
      case SenderWrites => SendKeepsPipe(s);
      case BrokerReceives => ReceiveKeepsPipe(s);
      case HandlerTakes => TakeKeepsPipe(s);
      case HandlerFinishes => FinishKeepsPipe(s);
      case EnqueueGoodbye => GoodbyeKeepsPipe(s);
      case LinkFails(k, r) => LinkFailsKeepsPipe(s, k, r);
      case _ => RestKeepsPipe(s, step);
    }
  }

  lemma RestKeepsPipe(s: State, step: Step)
    requires Enabled(s, step) && Pipe(s)
    requires step.BrokerReceivesLate? || step.BeginDisconnect? || step.HandlerStops? || step.FinishDisconnect?
    ensures Pipe(Apply(s, step))
  {
    var t := Apply(s, step);
    assert Outgoing(t) == Outgoing(s) && t.callers == s.callers && t.c.ledger == s.c.ledger;
    PipeDoneSending(s.c.ledger.waiting, s.callers, s.handler, Outgoing(s), s.net.replies, Stopped);
  }

  lemma ResendFillsPipe(w: seq<Entry<Packet>>)
    requires DistinctIds(w) && forall id :: Get(w, id).Some? ==> WellFormed(id, Get(w, id).value)
    ensures PipeOk(w, map[], Idle, Resend(w), [])
  {
    var out := Resend(w);
    forall i | 0 <= i < |out|
      ensures Get(w, w[i].id) == Some(w[i].msg) && IdOf(out[i]) == w[i].id && Undup(out[i]) == w[i].msg
    {
      GetAt(w, i);
      assert WellFormed(w[i].id, w[i].msg);
    }
  }

  lemma ConnectKeepsPipe(s: State, clean: bool, discard: bool, ack: bool, comp: bool)
    requires Enabled(s, Connect(clean, discard, ack, comp)) && Ids(s) && Pipe(s)
    ensures Pipe(DoConnect(s, clean, discard, ack, comp))
  {
    var t := DoConnect(s, clean, discard, ack, comp);
    var w := t.c.ledger.waiting;
    ResendFillsPipe(w);
    assert Outgoing(t) == if clean then [] else Resend(w);
  }

  lemma ConnectFailsKeepsPipe(s: State, clean: bool, seen: bool, discard: bool, ack: bool, comp: bool)
    requires Enabled(s, ConnectFails(clean, seen, discard, ack, comp)) && Control(s) && Pipe(s)
    ensures Pipe(DoConnectFails(s, clean, seen, discard, ack, comp))
  {
    var t, out := DoConnectFails(s, clean, seen, discard, ack, comp), Outgoing(s);
    if seen || clean {
      assert Outgoing(t) == [];
    } else {
      PipeLoses(s.c.ledger.waiting, s.callers, s.handler, out, s.net.replies, |out|, |out|, 0);
      assert out[..|out|] + out[|out|..] == out && Outgoing(t) == out;
    }
  }

  lemma BeginKeepsPipe(s: State, p: nat, qos: QoS)
    requires Enabled(s, Begin(p, qos)) && Pipe(s)
    ensures Pipe(DoBegin(s, p, qos))
  {
    var callers := DoBegin(s, p, qos).callers;
    NoZero(s.c.ledger.waiting, s.callers, s.handler, Outgoing(s), s.net.replies);
    ChangedCaller(s.callers, p, callers[p], callers);
  }

  lemma ClaimKeepsPipe(s: State, p: nat)
    requires Enabled(s, ClaimID(p)) && Pipe(s)
    ensures Pipe(DoClaim(s, p))
  {
    var callers := DoClaim(s, p).callers;
    ChangedCaller(s.callers, p, callers[p], callers);
  }

  lemma RegisterKeepsPipe(s: State, p: nat)
    requires Enabled(s, RegisterPacket(p)) && Ids(s) && Pipe(s) && !s.callers[p].m.qos.AtMostOnce?
    ensures Pipe(DoRegister(s, p))
  {
    var Claimed(id, m) := s.callers[p];
    assert Claims(s.callers, p, id);
    PipeRegisters(s.c.ledger.waiting, s.callers, s.handler, Outgoing(s), s.net.replies,
                  p, Publish(id, m, false), DoRegister(s, p).callers);
  }

  lemma EnqueueKeepsPipe(s: State, p: nat)
    requires Enabled(s, EnqueuePacket(p)) && Pipe(s)
    ensures Pipe(DoEnqueue(s, p))
  {
    var t := DoEnqueue(s, p);
    var packet := s.callers[p].packet;
    if t.crash.None? {
      LeavingCaller(s.callers, p, t.callers);
      assert Holds(s.callers, p, IdOf(packet));
      PipeGains(s.c.ledger.waiting, t.callers, s.handler, Outgoing(s), s.net.replies, packet);
      assert Outgoing(t) == Outgoing(s) + [packet];
    }
  }

  lemma SendKeepsPipe(s: State)
    requires Enabled(s, SenderWrites) && Pipe(s)
    ensures Pipe(DoSend(s))
  {
    var out, n := Outgoing(s), |s.net.wire|;
    if s.net.up {
      assert Outgoing(DoSend(s)) == out;
    } else {
      PipeLoses(s.c.ledger.waiting, s.callers, s.handler, out, s.net.replies, n, n + 1, |s.net.replies|);
      assert Outgoing(DoSend(s)) == out[..n] + out[n + 1..];
      assert s.net.replies[..|s.net.replies|] == s.net.replies;
    }
  }

  lemma ReceiveKeepsPipe(s: State)
    requires Enabled(s, BrokerReceives) && Pipe(s)
    ensures Pipe(DoReceive(s))
  {
    var w, out, replies := s.c.ledger.waiting, Outgoing(s), s.net.replies;
    var answer := Receive(s.broker, out[0]).1;
    assert Outgoing(DoReceive(s)) == out[1..];
    if answer.Some? && s.net.up {
      PipeTurns(w, s.callers, s.handler, out, replies, answer.value);
    } else {
      PipeLoses(w, s.callers, s.handler, out, replies, 0, 1, |replies|);
      assert out[..0] + out[1..] == out[1..] && replies[..|replies|] == replies;
    }
  }

  lemma TakeKeepsPipe(s: State)
    requires Enabled(s, HandlerTakes) && Ids(s) && Pipe(s)
    ensures Pipe(DoTake(s))
  {
    var a, t := s.net.replies[0], DoTake(s);
    AnswerFindsPacket(s);
    assert Outgoing(t) == Outgoing(s);
    if a.kind.PubRec? {
      PubRecKeepsPipe(s);
    } else {
      EndKeepsPipe(s);
    }
  }

  lemma PubRecKeepsPipe(s: State)
    requires Enabled(s, HandlerTakes) && Ids(s) && Pipe(s) && s.net.replies[0].kind.PubRec?
    requires Find(s.c.ledger, s.net.replies[0].id) == Found && Outgoing(DoTake(s)) == Outgoing(s)
    ensures Pipe(DoTake(s))
  {
    PipeReplaces(s.c.ledger.waiting, s.callers, Outgoing(s), s.net.replies, ReleaseOf(s, s.net.replies[0].id));
    PipeSkips(s.c.ledger.waiting, s.callers, Outgoing(s), s.net.replies);
  }

  lemma EndKeepsPipe(s: State)
    requires Enabled(s, HandlerTakes) && Ids(s) && Pipe(s) && !s.net.replies[0].kind.PubRec?
    requires Find(s.c.ledger, s.net.replies[0].id) == Found && Outgoing(DoTake(s)) == Outgoing(s)
    ensures Pipe(DoTake(s))
  {
    PipeReleases(s.c.ledger.waiting, s.callers, Outgoing(s), s.net.replies);
    PipeSkips(s.c.ledger.waiting, s.callers, Outgoing(s), s.net.replies);
  }

  lemma FinishKeepsPipe(s: State)
    requires Enabled(s, HandlerFinishes) && Control(s) && Pipe(s)
    ensures Pipe(DoFinish(s))
  {
    var w, out, replies, t := s.c.ledger.waiting, Outgoing(s), s.net.replies, DoFinish(s);
    PipeDoneSending(w, s.callers, s.handler, out, replies, Idle);
    if s.handler.todo.Send? && t.crash.None? {
      var msg := s.handler.todo.msg;
      assert Sending(s.handler, IdOf(msg));
      PipeGains(w, s.callers, Idle, out, replies, msg);
      assert Outgoing(t) == out + [msg];
    } else {
      assert Outgoing(t) == out;
    }
  }

  lemma GoodbyeKeepsPipe(s: State)
    requires Enabled(s, EnqueueGoodbye) && Pipe(s)
    ensures Pipe(DoGoodbye(s))
  {
    PipeGains(s.c.ledger.waiting, s.callers, s.handler, Outgoing(s), s.net.replies, Goodbye);
    assert Outgoing(DoGoodbye(s)) == Outgoing(s) + [Goodbye];
  }

  lemma LinkFailsKeepsPipe(s: State, k: nat, r: nat)
    requires Enabled(s, LinkFails(k, r)) && Pipe(s)
    ensures Pipe(Apply(s, LinkFails(k, r)))
  {
    var out, n := Outgoing(s), |s.net.wire|;
    PipeLoses(s.c.ledger.waiting, s.callers, s.handler, out, s.net.replies, k, n, r);
    assert Outgoing(Apply(s, LinkFails(k, r))) == out[..k] + out[n..];
  }
}
