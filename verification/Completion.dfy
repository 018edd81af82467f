/**
 * Freedom from deadlock: from every reachable state in which the program lives and has
 * identifiers to give, calls, handler, queue and disconnect can be driven to their end, and one
 * kept session can then bring every waiting message to its own.
 */
module Completion {
  import opened Wrappers
  import opened PacketIds
  import opened Ledger
  import opened Client
  import opened Delivery
  import opened Invariants
  import opened Deliveries
  import opened Guarantees
  import opened SessionLoss

  /** A run of kept sessions that gives no message up, ends every call, and leaves none waiting. */
  ghost predicate Finishes(s: State, steps: seq<Step>) {
    && IsRun(s, steps) && Kept(steps)
    && var t := After(s, steps);
       t.c.ledger.waiting == [] && t.callers == map[] && s.h.accepted <= t.h.accepted && t.h.abandoned == s.h.abandoned
  }

  lemma FinishesLater(s: State, step: Step, steps: seq<Step>)
    requires Enabled(s, step) && SessionKept(step) && Finishes(Apply(s, step), steps)
    requires s.h.accepted <= Apply(s, step).h.accepted && Apply(s, step).h.abandoned == s.h.abandoned
    ensures Finishes(s, [step] + steps)
  {
    assert ([step] + steps)[1..] == steps;
  }

  // ---- one connection, emptied packet by packet ---------------------------------------------

  ghost predicate OnWire(wire: seq<Packet>, id: int) {
    exists i :: 0 <= i < |wire| && IdOf(wire[i]) == id
  }

  /** Every waiting packet is on the wire, but perhaps the one with this identifier. */
  ghost predicate Covered(w: seq<Entry<Packet>>, wire: seq<Packet>, but: int) {
    forall id :: Get(w, id).Some? && id != but ==> OnWire(wire, id)
  }

  /** Connected, heeding every answer, with nothing queued. */
  ghost predicate Attentive(s: State) {
    && s.crash.None? && s.net.up && s.c.open && s.callers == map[] && 0 <= s.c.ledger.next <= MAX_ID
    && !s.c.ignorePubAck && !s.c.ignorePubComp
  }

  /** How many packets the receiver will still see, at most. */
  function Weight(wire: seq<Packet>): nat {
    if wire == [] then 0 else (if wire[0].Publish? then 2 else 1) + Weight(wire[1..])
  }

  lemma {:induction false} WeightAppend(wire: seq<Packet>, p: Packet)
    ensures Weight(wire + [p]) == Weight(wire) + if p.Publish? then 2 else 1
  {
    if wire == [] {
      assert ([] + [p])[1..] == [];
    } else {
      WeightAppend(wire[1..], p);
      assert (wire + [p])[1..] == wire[1..] + [p];
    }
  }

  lemma CoveredRest(w: seq<Entry<Packet>>, wire: seq<Packet>)
    requires wire != [] && Covered(w, wire, 0) && Get(w, 0) == None
    ensures Covered(w, wire[1..], IdOf(wire[0]))
  {
    forall id | Get(w, id).Some? && id != IdOf(wire[0]) ensures OnWire(wire[1..], id) {
      assert OnWire(wire, id);
      var i :| 0 <= i < |wire| && IdOf(wire[i]) == id;
      assert wire[1..][i - 1] == wire[i];
    }
  }

  /** Nothing is under way but what is on the wire. */
  ghost predicate Calm(s: State) {
    && Attentive(s) && s.handler.Idle? && s.net.replies == [] && s.c.queue == []
    && Covered(s.c.ledger.waiting, s.net.wire, 0)
  }

  /** One answer is under way. */
  ghost predicate Answered(s: State, a: Answer) {
    && Attentive(s) && s.handler.Idle? && s.net.replies == [a] && s.c.queue == []
    && Covered(s.c.ledger.waiting, s.net.wire, a.id)
  }

  /** The handler is half way through an answer. */
  ghost predicate HalfWay(s: State, id: int) {
    && Attentive(s) && s.handler.Busy? && s.net.replies == [] && s.c.queue == []
    && match s.handler.todo
       case Clear(x) => x == id && Covered(s.c.ledger.waiting, s.net.wire, 0)
       case Send(p) => p.PubRel? && p.id == id && Covered(s.c.ledger.waiting, s.net.wire, id)
       case _ => false
  }

  /** The PUBREL is queued. */
  ghost predicate Queued(s: State, p: Packet) {
    && Attentive(s) && s.handler.Idle? && s.net.replies == [] && s.c.queue == [p] && p.PubRel?
    && Covered(s.c.ledger.waiting, s.net.wire, p.id)
  }

  lemma Receives(s: State)
    requires Inv(s) && Calm(s) && s.net.wire != []
    ensures var t, p := DoReceive(s), s.net.wire[0];
            && Weight(t.net.wire) == Weight(s.net.wire) - (if p.Publish? then 2 else 1)
            && if HasId(p) then
                 var kind := if p.PubRel? then PubComp else if p.m.qos.ExactlyOnce? then PubRec else PubAck;
                 Answered(t, Answer(kind, IdOf(p)))
               else Calm(t)
  {
    NoZero(s.c.ledger.waiting, s.callers, s.handler, Outgoing(s), s.net.replies);
    CoveredRest(s.c.ledger.waiting, s.net.wire);
  }

  lemma Takes(s: State, a: Answer)
    requires Inv(s) && Answered(s, a)
    ensures HalfWay(DoTake(s), a.id) && DoTake(s).net.wire == s.net.wire
    ensures DoTake(s).handler.todo.Send? ==> a.kind.PubRec?
  {
    var w := s.c.ledger.waiting;
    AnswerFindsPacket(s);
    GetAfterRelease(w, a.id);
    GetAfterReplace(w, a.id, ReleaseOf(s, a.id));
  }

  lemma NothingWaits(w: seq<Entry<Packet>>)
    requires Covered(w, [], 0) && Get(w, 0) == None
    ensures w == []
  {
    assert w == [] || Get(w, w[0].id).Some?;
  }

  lemma {:induction false} Clears(s: State) returns (steps: seq<Step>)
    requires Inv(s) && Calm(s)
    ensures Finishes(s, steps)
    decreases Weight(s.net.wire), 0
  {
    if s.net.wire == [] {
      NoZero(s.c.ledger.waiting, s.callers, s.handler, Outgoing(s), s.net.replies);
      NothingWaits(s.c.ledger.waiting);
      steps := [];
    } else {
      var p, t := s.net.wire[0], Apply(s, BrokerReceives);
      Receives(s);
      StepKeepsInv(s, BrokerReceives);
      if HasId(p) {
        steps := ClearsAnswer(t, t.net.replies[0]);
      } else {
        steps := Clears(t);
      }
      FinishesLater(s, BrokerReceives, steps);
      steps := [BrokerReceives] + steps;
    }
  }

  lemma {:induction false} ClearsAnswer(s: State, a: Answer) returns (steps: seq<Step>)
    requires Inv(s) && Answered(s, a)
    ensures Finishes(s, steps)
    decreases Weight(s.net.wire) + (if a.kind.PubRec? then 1 else 0), 3
  {
    var t := Apply(s, HandlerTakes);
    Takes(s, a);
    StepKeepsInv(s, HandlerTakes);
    steps := ClearsHalf(t, a.id);
    FinishesLater(s, HandlerTakes, steps);
    steps := [HandlerTakes] + steps;
  }

  lemma {:induction false} ClearsHalf(s: State, id: int) returns (steps: seq<Step>)
    requires Inv(s) && HalfWay(s, id)
    ensures Finishes(s, steps)
    decreases Weight(s.net.wire) + (if s.handler.todo.Send? then 1 else 0), 2
  {
    var t := Apply(s, HandlerFinishes);
    StepKeepsInv(s, HandlerFinishes);
    if s.handler.todo.Send? {
      steps := ClearsQueue(t, s.handler.todo.msg);
    } else {
      steps := Clears(t);
    }
    FinishesLater(s, HandlerFinishes, steps);
    steps := [HandlerFinishes] + steps;
  }

  lemma {:induction false} ClearsQueue(s: State, p: Packet) returns (steps: seq<Step>)
    requires Inv(s) && Queued(s, p)
    ensures Finishes(s, steps)
    decreases Weight(s.net.wire) + 1, 1
  {
    var t := Apply(s, SenderWrites);
    StepKeepsInv(s, SenderWrites);
    WeightAppend(s.net.wire, p);
    CoveredMore(s.c.ledger.waiting, s.net.wire, p);
    steps := Clears(t);
    FinishesLater(s, SenderWrites, steps);
    steps := [SenderWrites] + steps;
  }

  lemma CoveredMore(w: seq<Entry<Packet>>, wire: seq<Packet>, p: Packet)
    requires Covered(w, wire, IdOf(p))
    ensures Covered(w, wire + [p], 0)
  {
    forall id | Get(w, id).Some? ensures OnWire(wire + [p], id) {
      assert (wire + [p])[|wire|] == p;
      if id != IdOf(p) {
        assert OnWire(wire, id);
        var i :| 0 <= i < |wire| && IdOf(wire[i]) == id;
        assert (wire + [p])[i] == wire[i];
      }
    }
  }

  // ---- from any state in which the client may connect -----------------------------------------

  lemma ResendCovers(s: State)
    requires Pipe(s)
    ensures Covered(s.c.ledger.waiting, Resend(s.c.ledger.waiting), 0)
  {
    var w := s.c.ledger.waiting;
    forall id | Get(w, id).Some? ensures OnWire(Resend(w), id) {
      var k := IndexOf(w, id);
      assert WellFormed(id, w[k].msg) && Resend(w)[k] == Dup(w[k].msg);
    }
  }

  lemma Resumes(s: State) returns (steps: seq<Step>)
    requires Inv(s) && s.crash.None? && MayConnect(s)
    ensures Finishes(s, steps)
  {
    var step := Connect(false, false, false, false);
    var t := Apply(s, step);
    ResendCovers(s);
    StepKeepsInv(s, step);
    steps := Clears(t);
    assert s.h.abandoned + [] == s.h.abandoned;
    FinishesLater(s, step, steps);
    steps := [step] + steps;
  }

  // ---- to a state in which the client may connect ---------------------------------------------

  ghost function Unclaimed(callers: map<nat, Caller>): set<nat> {
    set p | p in callers && callers[p].Started?
  }

  ghost function Unregistered(callers: map<nat, Caller>): set<nat> {
    set p | p in callers && callers[p].Claimed?
  }

  /** The calls still to claim an identifier can all have one. */
  ghost predicate Spare(s: State) {
    Unclaimed(s.callers) == {} || |s.c.ledger.used| + |Unclaimed(s.callers)| <= MAX_ID - 1
  }

  /** What calls and handler need of the ledger to go on. */
  ghost predicate Steady(s: State) {
    && 0 <= s.c.ledger.next <= MAX_ID
    && (forall p, id :: Claims(s.callers, p, id) ==> id in s.c.ledger.used && !Clearing(s.handler, id))
    && (forall id :: Clearing(s.handler, id) ==> id in s.c.ledger.used)
  }

  /** How far the connection is from being closed. */
  function Rank(s: State): nat {
    if !s.c.status.Connected? then 0
    else
      match s.stage
      case Unlocked => 5
      case AwaitStop(_) => if s.handler.Busy? then 4 else 3
      case SayGoodbye => 2
      case Draining(_) => 1
  }

  /** The step leads to a live state nearer to the end. */
  ghost predicate Advances(s: State, step: Step) {
    && Enabled(s, step) && SessionKept(step)
    && var t := Apply(s, step);
       && t.crash.None? && Steady(t) && Spare(t) && s.h.accepted <= t.h.accepted && t.h.abandoned == s.h.abandoned
       && Nearer(t, s)
  }

  ghost predicate Nearer(t: State, s: State) {
    var c, c' := |Unclaimed(s.callers)|, |Unclaimed(t.callers)|;
    var r, r' := |Unregistered(s.callers)|, |Unregistered(t.callers)|;
    || c' < c
    || (c' == c && r' < r)
    || (c' == c && r' == r && |t.callers| < |s.callers|)
    || (c' == c && r' == r && |t.callers| == |s.callers| && Rank(t) < Rank(s))
    || (c' == c && r' == r && |t.callers| == |s.callers| && Rank(t) == Rank(s) && |t.c.queue| < |s.c.queue|)
  }

  lemma ClaimAdvances(s: State, p: nat)
    requires Control(s) && Steady(s) && s.crash.None? && Spare(s) && p in Unclaimed(s.callers)
    ensures Advances(s, ClaimID(p))
  {
    var t := Apply(s, ClaimID(p));
    SubsetSize({p}, Unclaimed(s.callers));
    NextIdCapacity(s.c.ledger.used, s.c.ledger.next);
    NextIdIsFirstFree(s.c.ledger.used, s.c.ledger.next);
    assert Unclaimed(t.callers) == Unclaimed(s.callers) - {p};
    ChangedCaller(s.callers, p, t.callers[p], t.callers);
  }

  lemma RegisterAdvances(s: State, p: nat)
    requires Control(s) && Steady(s) && s.crash.None? && Spare(s) && p in Unregistered(s.callers)
    ensures Advances(s, RegisterPacket(p))
  {
    var t := Apply(s, RegisterPacket(p));
    assert Claims(s.callers, p, s.callers[p].id);
    assert t.c.ledger.used == s.c.ledger.used;
    assert Unclaimed(t.callers) == Unclaimed(s.callers);
    assert Unregistered(t.callers) == Unregistered(s.callers) - {p};
    ChangedCaller(s.callers, p, t.callers[p], t.callers);
  }

  lemma EnqueueAdvances(s: State, p: nat)
    requires Control(s) && Steady(s) && s.crash.None? && Spare(s) && p in s.callers && s.callers[p].Ready?
    ensures Advances(s, if |s.c.queue| < QUEUE_CAPACITY then EnqueuePacket(p) else SenderWrites)
  {
    if |s.c.queue| < QUEUE_CAPACITY {
      var t := Apply(s, EnqueuePacket(p));
      assert Unclaimed(t.callers) == Unclaimed(s.callers);
      assert Unregistered(t.callers) == Unregistered(s.callers);
      assert t.callers.Keys == s.callers.Keys - {p};
      LeavingCaller(s.callers, p, t.callers);
    }
  }

  /** What the connection does next when no call is at work. */
  function StageStep(s: State): Step {
    var full := |s.c.queue| >= QUEUE_CAPACITY;
    match s.stage
    case Unlocked => BeginDisconnect(false)
    case AwaitStop(_) =>
      if s.handler.Busy? then if s.handler.todo.Send? && full then SenderWrites else HandlerFinishes
      else HandlerStops
    case SayGoodbye => if full then SenderWrites else EnqueueGoodbye
    case Draining(_) => if s.c.queue != [] then SenderWrites else FinishDisconnect
  }

  lemma StageAdvances(s: State)
    requires Control(s) && Steady(s) && s.crash.None? && s.callers == map[] && s.c.status.Connected?
    ensures Advances(s, StageStep(s))
  {
    var t := Apply(s, StageStep(s));
    assert t.callers == s.callers;
    assert Unclaimed(s.callers) == {};
  }

  lemma SomethingAdvances(s: State) returns (step: Step)
    requires Control(s) && Steady(s) && s.crash.None? && Spare(s) && !MayConnect(s)
    ensures Advances(s, step)
  {
    if Unclaimed(s.callers) != {} {
      var p := SomeElement(Unclaimed(s.callers));
      ClaimAdvances(s, p);
      step := ClaimID(p);
    } else if Unregistered(s.callers) != {} {
      var p := SomeElement(Unregistered(s.callers));
      RegisterAdvances(s, p);
      step := RegisterPacket(p);
    } else if s.callers != map[] {
      var p := SomeElement(s.callers.Keys);
      assert p !in Unclaimed(s.callers) && p !in Unregistered(s.callers);
      EnqueueAdvances(s, p);
      step := if |s.c.queue| < QUEUE_CAPACITY then EnqueuePacket(p) else SenderWrites;
    } else {
      StageAdvances(s);
      step := StageStep(s);
    }
  }

  lemma {:induction false} Drives(s: State) returns (steps: seq<Step>)
    requires Inv(s) && s.crash.None? && Spare(s)
    ensures Finishes(s, steps)
    decreases |Unclaimed(s.callers)|, |Unregistered(s.callers)|, |s.callers|, Rank(s), |s.c.queue|
  {
    if MayConnect(s) {
      steps := Resumes(s);
    } else {
      var step := SomethingAdvances(s);
      StepKeepsInv(s, step);
      steps := Drives(Apply(s, step));
      FinishesLater(s, step, steps);
      steps := [step] + steps;
    }
  }

  /** A connection with nothing on its queue can be closed politely, DISCONNECT last. */
  lemma CanSayGoodbye(s: State) returns (steps: seq<Step>)
    requires s.crash.None? && s.stage.Unlocked? && s.callers == map[] && 0 <= s.c.ledger.next <= MAX_ID
    requires s.c.status.Connected? && s.handler.Idle? && s.c.queue == []
    ensures IsRun(s, steps) && Kept(steps)
    ensures var t := After(s, steps);
            MayConnect(t) && t.crash.None? && t.h.written == s.h.written + [Goodbye] && t.c.ledger == s.c.ledger
  {
    var s1 := Apply(s, BeginDisconnect(true));
    var s2 := Apply(s1, HandlerStops);
    var s3 := Apply(s2, EnqueueGoodbye);
    var s4 := Apply(s3, SenderWrites);
    var s5 := Apply(s4, FinishDisconnect);
    OneStep(s4, FinishDisconnect, [], s5);
    OneStep(s3, SenderWrites, [FinishDisconnect], s5);
    OneStep(s2, EnqueueGoodbye, [SenderWrites, FinishDisconnect], s5);
    OneStep(s1, HandlerStops, [EnqueueGoodbye, SenderWrites, FinishDisconnect], s5);
    steps := [HandlerStops, EnqueueGoodbye, SenderWrites, FinishDisconnect];
    OneStep(s, BeginDisconnect(true), steps, s5);
    steps := [BeginDisconnect(true)] + steps;
  }

  lemma OneStep(s: State, step: Step, rest: seq<Step>, end: State)
    requires Enabled(s, step) && IsRun(Apply(s, step), rest) && After(Apply(s, step), rest) == end
    ensures IsRun(s, [step] + rest) && After(s, [step] + rest) == end
  {
    assert ([step] + rest)[1..] == rest;
  }

  // ---- everything can be completed ---------------------------------------------------------------

  ghost predicate Fulfilled(t: State, m: Message) {
    && m in t.h.completed
    && (m.qos.AtLeastOnce? ==> m in t.broker.delivered)
    && (m.qos.ExactlyOnce? && t.h.intact && t.h.epoch <= m.serial ==> Times(t.broker.delivered, m) == 1)
  }

  lemma NoneWaiting(t: State, m: Message)
    requires Inv(t) && t.c.ledger.waiting == [] && m in t.h.accepted && m !in t.h.abandoned
    ensures Fulfilled(t, m)
  {
    assert MessagesOf([]) == [];
    assert m in multiset(t.h.accepted);
    assert m in multiset(t.h.completed);
    assert m in t.h.completed;
  }

  /**
   * After every run that leaves the program alive, with identifiers for the calls that wait for
   * one, some continuation of kept sessions ends every call and completes every message that is
   * registered by then and not given up: each of QoS 1 delivered, and each of QoS 2 delivered
   * exactly once if receiver and ledger agreed.
   */
  lemma EverythingCanComplete(early: bool, steps: seq<Step>) returns (rest: seq<Step>)
    requires IsRun(Init(early), steps)
    requires After(Init(early), steps).crash.None? && Spare(After(Init(early), steps))
    ensures IsRun(After(Init(early), steps), rest) && Kept(rest)
    ensures var s := After(Init(early), steps);
            var t := After(s, rest);
            && t.callers == map[] && s.h.accepted <= t.h.accepted && t.h.abandoned == s.h.abandoned
            && (s.h.intact ==> t.h.intact)
            && forall m :: m in t.h.accepted && m !in t.h.abandoned ==> Fulfilled(t, m)
  {
    Reachable(early, steps);
    rest := CompleteAll(After(Init(early), steps));
  }

  lemma CompleteAll(s: State) returns (rest: seq<Step>)
    requires Inv(s) && s.crash.None? && Spare(s)
    ensures Finishes(s, rest) && (s.h.intact ==> After(s, rest).h.intact)
    ensures var t := After(s, rest);
            forall m :: m in t.h.accepted && m !in t.h.abandoned ==> Fulfilled(t, m)
  {
    rest := Drives(s);
    RunKeepsInv(s, rest);
    if s.h.intact {
      KeptSessionsStayIntact(s, rest);
    }
    var t := After(s, rest);
    forall m | m in t.h.accepted && m !in t.h.abandoned ensures Fulfilled(t, m) {
      NoneWaiting(t, m);
    }
  }
}
