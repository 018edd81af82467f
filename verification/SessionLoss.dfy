/**
 * When exactly-once delivery survives a connect. A receiver may answer a resuming client with
 * a session that is not the one it left, and a failed attempt at a clean session empties the
 * ledger and leaves the receiver alone. Here the connects that can break the promise are told
 * from those that cannot.
 */
module SessionLoss {
  import opened PacketIds
  import opened Ledger
  import opened Client
  import opened Delivery
  import opened Invariants
  import opened Accounts
  import opened Deliveries
  import opened Guarantees

  ghost predicate Kept(steps: seq<Step>) {
    forall i :: 0 <= i < |steps| ==> SessionKept(steps[i])
  }

  /** A run on which every resumed session is present, and which breaks the promise all the same. */
  ghost predicate Breaks(s: State, steps: seq<Step>) {
    IsRun(s, steps) && Kept(steps) && !ExactlyOnceSoFar(After(s, steps))
  }

  lemma FollowStep(s: State, step: Step, steps: seq<Step>)
    requires Enabled(s, step) && SessionKept(step) && Breaks(Apply(s, step), steps)
    ensures Breaks(s, [step] + steps)
  {
    assert ([step] + steps)[1..] == steps;
  }

  lemma BreaksNow(s: State)
    requires !ExactlyOnceSoFar(s)
    ensures Breaks(s, [])
  {
  }

  // ---- the receiver forgot a session the ledger still counts on ------------------------------

  /**
   * A packet whose message the receiver no longer knows: delivered and to be published again
   * (method B), or never delivered and to be released (method A).
   */
  ghost predicate Doomed(b: Broker, w: seq<Entry<Packet>>, id: int, m: Message) {
    && m.qos.ExactlyOnce? && Pends(w, id, m)
    && (if b.early then Get(w, id).value.Publish? && Times(b.delivered, m) == 1
        else Get(w, id).value.PubRel? && Times(b.delivered, m) == 0)
  }

  /** What the receiver holds since is of this connection. */
  ghost predicate Forgotten(b: Broker, w: seq<Entry<Packet>>, id: int) {
    id !in b.store && forall x :: x in b.store ==> Pends(w, x, b.store[x])
  }

  /** Connected, and the client will act on nothing but a PUBCOMP. */
  ghost predicate Deaf(s: State) {
    s.crash.None? && s.handler.Idle? && s.net.up && s.c.ignorePubAck && !s.c.ignorePubComp
  }

  /** The same, perhaps with a bit still to clear. */
  ghost predicate Attending(s: State) {
    && s.crash.None? && (s.handler.Idle? || (s.handler.Busy? && s.handler.todo.Clear?))
    && s.net.up && s.c.ignorePubAck && !s.c.ignorePubComp
  }

  lemma OtherReceived(
    b: Broker, w: seq<Entry<Packet>>, callers: map<nat, Caller>, h: History, p: Packet, id: int, m: Message)
    requires BooksOk(w, callers, h) && Doomed(b, w, id, m) && Forgotten(b, w, id) && IdOf(p) != id
    requires HasId(p) ==> Pends(w, IdOf(p), MessageOf(p))
    requires p.Publish0? ==> p.m.qos.AtMostOnce?
    ensures Doomed(Receive(b, p).0, w, id, m) && Forgotten(Receive(b, p).0, w, id)
  {
    if !p.Goodbye? {
      OneMore(b.delivered, p.m);
    }
    if p.PubRel? && p.id in b.store {
      OneMore(b.delivered, b.store[p.id]);
    }
  }

  lemma OtherArrives(s: State, id: int, m: Message)
    requires Inv(s) && s.net.wire != [] && IdOf(s.net.wire[0]) != id
    requires Doomed(s.broker, s.c.ledger.waiting, id, m) && Forgotten(s.broker, s.c.ledger.waiting, id)
    ensures Doomed(DoReceive(s).broker, s.c.ledger.waiting, id, m)
    ensures Forgotten(DoReceive(s).broker, s.c.ledger.waiting, id)
  {
    var p := s.net.wire[0];
    assert Outgoing(s)[0] == p;
    OtherReceived(s.broker, s.c.ledger.waiting, s.callers, s.h, p, id, m);
  }

  lemma ItArrives(s: State, id: int, m: Message)
    requires Inv(s) && s.net.up && s.net.wire != [] && IdOf(s.net.wire[0]) == id
    requires Doomed(s.broker, s.c.ledger.waiting, id, m) && Forgotten(s.broker, s.c.ledger.waiting, id)
    ensures var t := DoReceive(s);
            if s.broker.early then Times(t.broker.delivered, m) == 2
            else Doomed(t.broker, s.c.ledger.waiting, id, m) && t.net.replies == s.net.replies + [Answer(PubComp, id)]
  {
    var p := s.net.wire[0];
    assert Outgoing(s)[0] == p;
    OneMore(s.broker.delivered, m);
  }

  lemma {:induction false} Arrives(s: State, id: int, m: Message, k: nat) returns (steps: seq<Step>)
    requires Inv(s) && Deaf(s)
    requires Doomed(s.broker, s.c.ledger.waiting, id, m) && Forgotten(s.broker, s.c.ledger.waiting, id)
    requires k < |s.net.wire| && IdOf(s.net.wire[k]) == id
    ensures Breaks(s, steps)
    decreases k
  {
    var t := DoReceive(s);
    StepKeepsInv(s, BrokerReceives);
    if k > 0 {
      NotTheFirst(s, k);
      OtherArrives(s, id, m);
      steps := Arrives(t, id, m, k - 1);
    } else {
      ItArrives(s, id, m);
      if s.broker.early {
        BreaksNow(t);
        steps := [];
      } else {
        steps := Completes(t, id, m, |s.net.replies|);
      }
    }
    FollowStep(s, BrokerReceives, steps);
    steps := [BrokerReceives] + steps;
  }

  lemma NotTheFirst(s: State, k: nat)
    requires OneEach(s) && 0 < k < |s.net.wire| && IdOf(s.net.wire[k]) != 0
    ensures IdOf(s.net.wire[0]) != IdOf(s.net.wire[k])
  {
    assert Outgoing(s)[0] == s.net.wire[0] && Outgoing(s)[k] == s.net.wire[k];
  }

  /** What handling an answer about another packet leaves, when only PUBCOMP is heeded. */
  lemma OtherTaken(s: State, id: int, m: Message)
    requires Enabled(s, HandlerTakes) && Ids(s) && Pipe(s) && Deaf(s) && s.net.replies[0].id != id
    requires Doomed(s.broker, s.c.ledger.waiting, id, m)
    ensures var t := DoTake(s);
            && Attending(t) && t.net.replies == s.net.replies[1..]
            && t.broker == s.broker && Doomed(t.broker, t.c.ledger.waiting, id, m)
  {
    var a, w := s.net.replies[0], s.c.ledger.waiting;
    AnswerFindsPacket(s);
    PendsAfterRelease(w, a.id, Without(w, a.id));
    GetAfterRelease(w, a.id);
  }

  lemma {:induction false} Completes(s: State, id: int, m: Message, j: nat) returns (steps: seq<Step>)
    requires Inv(s) && Deaf(s) && !s.broker.early && Doomed(s.broker, s.c.ledger.waiting, id, m)
    requires j < |s.net.replies| && s.net.replies[j] == Answer(PubComp, id)
    ensures Breaks(s, steps)
    decreases j, 0
  {
    if j == 0 {
      ItCompletes(s, id, m);
      steps := [];
    } else {
      NotTheFirstAnswer(s, j);
      steps := TakesOther(s, id, m, j);
    }
    FollowStep(s, HandlerTakes, steps);
    steps := [HandlerTakes] + steps;
  }

  lemma {:induction false} TakesOther(s: State, id: int, m: Message, j: nat) returns (steps: seq<Step>)
    requires Inv(s) && Deaf(s) && !s.broker.early && Doomed(s.broker, s.c.ledger.waiting, id, m)
    requires 0 < j < |s.net.replies| && s.net.replies[j] == Answer(PubComp, id) && s.net.replies[0].id != id
    ensures Breaks(DoTake(s), steps)
    decreases j - 1, 2
  {
    OtherTaken(s, id, m);
    StepKeepsInv(s, HandlerTakes);
    steps := CompletesAfter(DoTake(s), id, m, j - 1);
  }

  lemma NotTheFirstAnswer(s: State, j: nat)
    requires OneEach(s) && 0 < j < |s.net.replies|
    ensures s.net.replies[0].id != s.net.replies[j].id
  {
  }

  lemma ItCompletes(s: State, id: int, m: Message)
    requires Enabled(s, HandlerTakes) && Ids(s) && Pipe(s) && Books(s) && Deaf(s)
    requires s.net.replies[0] == Answer(PubComp, id)
    requires !s.broker.early && Doomed(s.broker, s.c.ledger.waiting, id, m)
    ensures Breaks(DoTake(s), [])
  {
    AnswerFindsPacket(s);
    assert m in DoTake(s).h.completed;
    BreaksNow(DoTake(s));
  }

  lemma {:induction false} CompletesAfter(s: State, id: int, m: Message, j: nat) returns (steps: seq<Step>)
    requires Inv(s) && !s.broker.early && Doomed(s.broker, s.c.ledger.waiting, id, m)
    requires Attending(s)
    requires j < |s.net.replies| && s.net.replies[j] == Answer(PubComp, id)
    ensures Breaks(s, steps)
    decreases j, 1
  {
    if s.handler.Idle? {
      steps := Completes(s, id, m, j);
    } else {
      StepKeepsInv(s, HandlerFinishes);
      steps := Completes(DoFinish(s), id, m, j);
      FollowStep(s, HandlerFinishes, steps);
      steps := [HandlerFinishes] + steps;
    }
  }

  /** Resuming once more is enough for the loss to show. */
  lemma ResumeBreaks(u: State, id: int, m: Message) returns (steps: seq<Step>)
    requires Inv(u) && MayConnect(u) && u.crash.None? && u.broker.store == map[]
    requires Doomed(u.broker, u.c.ledger.waiting, id, m)
    ensures Breaks(u, steps)
  {
    var step, w := Connect(false, false, true, false), u.c.ledger.waiting;
    var v, k := Apply(u, step), IndexOf(w, id);
    StepKeepsInv(u, step);
    assert WellFormed(id, w[k].msg);
    steps := Arrives(v, id, m, k);
    FollowStep(u, step, steps);
    steps := [step] + steps;
  }

  /** The state after closing a connection on which nothing has happened yet. */
  function Closed(t: State): State {
    t.(handler := Stopped, stage := Unlocked, c := t.c.(open := false, status := Disconnected))
  }

  ghost predicate Quiet(t: State) {
    && t.crash.None? && t.stage.Unlocked? && t.callers == map[] && 0 <= t.c.ledger.next <= MAX_ID
    && t.c.status.Connected? && t.handler.Idle? && t.c.queue == []
  }

  lemma HangUp(t: State, rest: seq<Step>) returns (steps: seq<Step>)
    requires Quiet(t) && Breaks(Closed(t), rest)
    ensures Breaks(t, steps)
  {
    var t1 := Apply(t, BeginDisconnect(false));
    var t2 := Apply(t1, HandlerStops);
    assert Apply(t2, FinishDisconnect) == Closed(t);
    FollowStep(t2, FinishDisconnect, rest);
    var r2 := [FinishDisconnect] + rest;
    FollowStep(t1, HandlerStops, r2);
    var r1 := [HandlerStops] + r2;
    FollowStep(t, BeginDisconnect(false), r1);
    steps := [BeginDisconnect(false)] + r1;
  }

  lemma ClosedKeepsInv(t: State)
    requires Inv(t) && Quiet(t)
    ensures Inv(Closed(t))
  {
    var t1 := Apply(t, BeginDisconnect(false));
    StepKeepsInv(t, BeginDisconnect(false));
    StoppedKeepsInv(t1);
  }

  lemma StoppedKeepsInv(t: State)
    requires Inv(t) && Quiet(t.(stage := Unlocked)) && t.stage == AwaitStop(false)
    ensures Inv(Closed(t))
  {
    StepKeepsInv(t, HandlerStops);
    StepKeepsInv(Apply(t, HandlerStops), FinishDisconnect);
  }

  lemma HarmfulIsDoomed(s: State, id: int, b: Broker)
    requires Inv(s) && s.h.intact && Harmful(s, id) && b == s.broker.(store := map[])
    ensures Doomed(b, s.c.ledger.waiting, id, s.broker.store[id])
  {
    assert Pends(s.c.ledger.waiting, id, s.broker.store[id]);
  }

  /** A resumption that finds its session gone breaks the promise if it was at risk. */
  lemma LossBreaks(s: State, step: Step) returns (steps: seq<Step>)
    requires Inv(s) && s.h.intact && Enabled(s, step) && AtRisk(s)
    requires (step.Connect? || step.ConnectFails?) && !step.clean && step.discard
    ensures Breaks(Apply(s, step), steps)
  {
    var id :| id in s.broker.store && Harmful(s, id);
    var t := Apply(s, step);
    HarmfulIsDoomed(s, id, t.broker);
    StepKeepsInv(s, step);
    if step.ConnectFails? {
      steps := ResumeBreaks(t, id, s.broker.store[id]);
    } else {
      ClosedKeepsInv(t);
      var rest := ResumeBreaks(Closed(t), id, s.broker.store[id]);
      steps := HangUp(t, rest);
    }
  }

  // ---- the receiver kept a session the ledger no longer knows --------------------------------

  /** A new ledger has handed out 1..k, and nothing else has happened. */
  ghost predicate Filling(s: State, k: nat) {
    && Serving(s) && s.stage.Unlocked? && s.c.status.Connected? && s.c.open
    && s.c.ledger.used == FirstIds(k) && s.c.ledger.next == k && s.c.ledger.waiting == []
    && (forall p :: p in s.callers ==> p <= k)
    && s.net == Net(true, [], []) && s.c.queue == []
  }

  ghost predicate Serving(s: State) {
    s.crash.None? && s.handler.Idle? && !s.c.ignorePubAck && !s.c.ignorePubComp
  }

  /** The receiver has met no exactly-once message with this serial number or a later one. */
  ghost predicate Unheard(b: Broker, serial: nat) {
    forall m: Message :: m.qos.ExactlyOnce? && m.serial >= serial ==>
                           Times(b.delivered, m) == 0 && forall x :: x in b.store ==> b.store[x] != m
  }

  lemma {:induction false} Fills(s: State, k: nat, id: int) returns (steps: seq<Step>)
    requires Filling(s, k) && id in s.broker.store && Unheard(s.broker, s.h.serial) && k < id <= MAX_ID
    requires s.h.epoch <= s.h.serial
    ensures Breaks(s, steps)
    decreases id - k
  {
    if k + 1 == id {
      steps := Swallows(s, id);
    } else {
      FillsOne(s, k);
      var begin, claim := Begin(k + 1, AtLeastOnce), ClaimID(k + 1);
      var t := Apply(s, begin);
      var u := Apply(t, claim);
      steps := Fills(u, k + 1, id);
      FollowStep(t, claim, steps);
      FollowStep(s, begin, [claim] + steps);
      steps := [begin] + ([claim] + steps);
    }
  }

  /** A call that takes the next identifier and goes no further. */
  lemma FillsOne(s: State, k: nat)
    requires Filling(s, k) && k < MAX_ID
    ensures Enabled(s, Begin(k + 1, AtLeastOnce))
    ensures var t := Apply(s, Begin(k + 1, AtLeastOnce));
            Enabled(t, ClaimID(k + 1)) && t.broker == s.broker && t.h.serial == s.h.serial + 1
    ensures var u := Apply(Apply(s, Begin(k + 1, AtLeastOnce)), ClaimID(k + 1));
            && Filling(u, k + 1) && u.broker == s.broker
            && u.h.serial == s.h.serial + 1 && u.h.epoch == s.h.epoch
  {
    FreshClaims(k);
  }

  /** The one exchange in progress, under an identifier the receiver takes for another message. */
  ghost predicate Mistaken(
    s: State, p: Packet, m: Message, queue: seq<Packet>, wire: seq<Packet>, replies: seq<Answer>)
  {
    && Serving(s) && s.c.open && 0 < s.c.ledger.next <= MAX_ID && HasId(p) && MessageOf(p) == m && m.qos.ExactlyOnce?
    && IdOf(p) in s.c.ledger.used && IdOf(p) in s.c.ledger.indexed
    && s.c.ledger.waiting == [Entry(IdOf(p), p)] && s.c.queue == queue && s.net == Net(true, wire, replies)
    && Times(s.broker.delivered, m) == 0 && s.h.epoch <= m.serial
    && (replies == [] ==> IdOf(p) in s.broker.store && s.broker.store[IdOf(p)] != m)
  }

  /** An exactly-once message published under that identifier is completed and never delivered. */
  lemma Swallows(s: State, id: int) returns (steps: seq<Step>)
    requires 0 < id <= MAX_ID && Filling(s, id - 1) && id in s.broker.store && Unheard(s.broker, s.h.serial)
    requires s.h.epoch <= s.h.serial
    ensures Breaks(s, steps)
  {
    var m := Message(s.h.serial, ExactlyOnce);
    var s1 := Apply(s, Begin(id, ExactlyOnce));
    FreshClaims(id - 1);
    var s2 := Apply(s1, ClaimID(id));
    var s3 := Apply(s2, RegisterPacket(id));
    var s4 := Apply(s3, EnqueuePacket(id));
    var publish := Publish(id, m, false);
    assert Mistaken(s4, publish, m, [publish], [], []);
    var r4 := PublishIsAnswered(s4, publish, m);
    FollowStep(s3, EnqueuePacket(id), r4);
    var r3 := [EnqueuePacket(id)] + r4;
    FollowStep(s2, RegisterPacket(id), r3);
    var r2 := [RegisterPacket(id)] + r3;
    FollowStep(s1, ClaimID(id), r2);
    var r1 := [ClaimID(id)] + r2;
    FollowStep(s, Begin(id, ExactlyOnce), r1);
    steps := [Begin(id, ExactlyOnce)] + r1;
  }

  lemma NewIsUnheard(s: State)
    requires Inv(s)
    ensures Unheard(s.broker, s.h.serial)
  {
    forall m: Message | m.qos.ExactlyOnce? && m.serial >= s.h.serial
      ensures Times(s.broker.delivered, m) == 0 && forall x :: x in s.broker.store ==> s.broker.store[x] != m
    {
      assert m !in s.h.accepted;
      DeliveredTimes(s.broker.delivered, m);
    }
  }

  lemma PublishIsAnswered(s: State, p: Packet, m: Message) returns (steps: seq<Step>)
    requires p.Publish? && Mistaken(s, p, m, [p], [], [])
    ensures Breaks(s, steps)
  {
    var t := Apply(s, SenderWrites);
    var u := Apply(t, BrokerReceives);
    assert Mistaken(t, p, m, [], [p], []);
    steps := PubRecIsTaken(u, p, m);
    FollowStep(t, BrokerReceives, steps);
    FollowStep(s, SenderWrites, [BrokerReceives] + steps);
    steps := [SenderWrites] + ([BrokerReceives] + steps);
  }

  lemma PubRecIsTaken(s: State, p: Packet, m: Message) returns (steps: seq<Step>)
    requires p.Publish? && Mistaken(s, p, m, [], [], [Answer(PubRec, p.id)])
    requires p.id in s.broker.store && s.broker.store[p.id] != m
    ensures Breaks(s, steps)
  {
    var t := Apply(s, HandlerTakes);
    var u := Apply(t, HandlerFinishes);
    steps := PubRelIsAnswered(u, PubRel(p.id, m), m);
    FollowStep(t, HandlerFinishes, steps);
    FollowStep(s, HandlerTakes, [HandlerFinishes] + steps);
    steps := [HandlerTakes] + ([HandlerFinishes] + steps);
  }

  lemma PubRelIsAnswered(s: State, p: Packet, m: Message) returns (steps: seq<Step>)
    requires p.PubRel? && Mistaken(s, p, m, [p], [], [])
    ensures Breaks(s, steps)
  {
    var t := Apply(s, SenderWrites);
    assert Mistaken(t, p, m, [], [p], []);
    var u := Apply(t, BrokerReceives);
    OneMore(t.broker.delivered, t.broker.store[p.id]);
    steps := PubCompIsTaken(u, p, m);
    FollowStep(t, BrokerReceives, steps);
    FollowStep(s, SenderWrites, [BrokerReceives] + steps);
    steps := [SenderWrites] + ([BrokerReceives] + steps);
  }

  lemma PubCompIsTaken(s: State, p: Packet, m: Message) returns (steps: seq<Step>)
    requires Mistaken(s, p, m, [], [], [Answer(PubComp, IdOf(p))])
    ensures Breaks(s, steps)
  {
    var t := Apply(s, HandlerTakes);
    assert m in t.h.completed;
    BreaksNow(t);
    FollowStep(s, HandlerTakes, []);
    steps := [HandlerTakes] + [];
  }

  lemma SomeElement<T>(ids: set<T>) returns (id: T)
    requires ids != {}
    ensures id in ids
  {
    id :| id in ids;
  }

  /** A new ledger, and a receiver that holds a message under an identifier it will hand out. */
  ghost predicate Stale(t: State, id: int) {
    && Inv(t) && t.crash.None? && MayConnect(t) && t.c.ledger == Fresh()
    && id in t.broker.store && 1 <= id <= MAX_ID
  }

  lemma StaleBreaks(t: State, id: int) returns (steps: seq<Step>)
    requires Stale(t, id)
    ensures Breaks(t, steps)
  {
    var again := Connect(false, false, false, false);
    NewIsUnheard(t);
    assert FirstIds(0) == {};
    steps := Fills(Apply(t, again), 0, id);
    FollowStep(t, again, steps);
    steps := [again] + steps;
  }

  lemma LateArrives(t: State, id: int, k: nat)
    requires k < |t.late| && t.late[k].Publish? && t.late[k].id == id && t.late[k].m.qos.ExactlyOnce?
    ensures var u := DoReceiveLate(t);
            if k == 0 then id in u.broker.store
            else k - 1 < |u.late| && u.late[k - 1] == t.late[k]
  {
  }

  /** A packet of the connection before makes the receiver hold such a message. */
  lemma {:induction false} LateBreaks(t: State, id: int, k: nat) returns (steps: seq<Step>)
    requires Inv(t) && t.crash.None? && MayConnect(t) && t.c.ledger == Fresh() && 1 <= id <= MAX_ID
    requires k < |t.late| && t.late[k].Publish? && t.late[k].id == id && t.late[k].m.qos.ExactlyOnce?
    ensures Breaks(t, steps)
    decreases k
  {
    var u := ReceivesLate(t, id, k);
    if k == 0 {
      steps := StaleBreaks(u, id);
    } else {
      steps := LateBreaks(u, id, k - 1);
    }
    steps := [BrokerReceivesLate] + steps;
  }

  lemma ReceivesLate(t: State, id: int, k: nat) returns (u: State)
    requires Inv(t) && t.crash.None? && MayConnect(t) && t.c.ledger == Fresh()
    requires k < |t.late| && t.late[k].Publish? && t.late[k].id == id && t.late[k].m.qos.ExactlyOnce?
    ensures Inv(u) && u.crash.None? && MayConnect(u) && u.c.ledger == Fresh()
    ensures if k == 0 then id in u.broker.store else k - 1 < |u.late| && u.late[k - 1] == t.late[k]
    ensures forall rest :: Breaks(u, rest) ==> Breaks(t, [BrokerReceivesLate] + rest)
  {
    u := Apply(t, BrokerReceivesLate);
    StepKeepsInv(t, BrokerReceivesLate);
    LateArrives(t, id, k);
    forall rest | Breaks(u, rest) ensures Breaks(t, [BrokerReceivesLate] + rest) {
      FollowStep(t, BrokerReceivesLate, rest);
    }
  }

  /**
   * A failed clean connect that the receiver never saw, while the receiver holds a message or
   * an exactly-once PUBLISH of the connection before is still on its way.
   */
  lemma FailedCleanBreaks(s: State, step: Step) returns (steps: seq<Step>)
    requires Inv(s) && s.h.intact && Enabled(s, step)
    requires step.ConnectFails? && step.clean && !step.seen
    requires s.broker.store != map[] || Storable(s.net.wire)
    ensures Breaks(Apply(s, step), steps)
  {
    StepKeepsInv(s, step);
    if s.broker.store != map[] {
      var id := StoredId(s);
      steps := StaleBreaks(Apply(s, step), id);
    } else {
      var k := StorableAt(s);
      steps := LateBreaks(Apply(s, step), s.net.wire[k].id, k);
    }
  }

  lemma StoredId(s: State) returns (id: int)
    requires Ids(s) && Once(s) && s.h.intact && s.broker.store != map[]
    ensures id in s.broker.store && 1 <= id <= MAX_ID
  {
    id := SomeElement(s.broker.store.Keys);
    assert Pends(s.c.ledger.waiting, id, s.broker.store[id]);
  }

  lemma StorableAt(s: State) returns (k: nat)
    requires Control(s) && Ids(s) && Pipe(s) && Storable(s.net.wire)
    ensures k < |s.net.wire| && s.net.wire[k].Publish? && s.net.wire[k].m.qos.ExactlyOnce?
    ensures 1 <= s.net.wire[k].id <= MAX_ID && s.late + s.net.wire == s.net.wire
  {
    k :| 0 <= k < |s.net.wire| && s.net.wire[k].Publish? && s.net.wire[k].m.qos.ExactlyOnce?;
    assert Outgoing(s)[k] == s.net.wire[k];
    assert s.late == [];
  }

  // ---- the exact condition -----------------------------------------------------------------

  /** The steps that leave receiver and ledger in disagreement. */
  ghost predicate Disagrees(s: State, step: Step) {
    match step
    case Connect(clean, discard, _, _) => Splits(s, clean, true, discard)
    case ConnectFails(clean, seen, discard, _, _) => Splits(s, clean, seen, discard)
    case _ => false
  }

  /**
   * After any run whose connects left receiver and ledger in agreement, one more step endangers
   * exactly-once delivery exactly when it makes them disagree: then, even if every later session
   * is kept, some continuation delivers a message twice or completes one never delivered; and
   * otherwise none does.
   */
  lemma HarmIffDisagreement(early: bool, steps: seq<Step>, step: Step)
    requires IsRun(Init(early), steps) && After(Init(early), steps).h.intact
    requires Enabled(After(Init(early), steps), step)
    ensures var s := After(Init(early), steps);
            Disagrees(s, step) <==> exists rest :: Breaks(Apply(s, step), rest)
  {
    Reachable(early, steps);
    HarmIff(After(Init(early), steps), step);
  }

  lemma HarmIff(s: State, step: Step)
    requires Inv(s) && s.h.intact && Enabled(s, step)
    ensures Disagrees(s, step) <==> exists rest :: Breaks(Apply(s, step), rest)
  {
    if Disagrees(s, step) {
      if step.clean {
        var rest := FailedCleanBreaks(s, step);
      } else {
        var rest := LossBreaks(s, step);
      }
    } else {
      AgreementIsSafe(s, step);
    }
  }

  lemma AgreementIsSafe(s: State, step: Step)
    requires Inv(s) && s.h.intact && Enabled(s, step) && !Disagrees(s, step)
    ensures forall rest :: !Breaks(Apply(s, step), rest)
  {
    StepKeepsInv(s, step);
    StaysIntact(s, step);
    IntactIsSafe(Apply(s, step));
  }

  lemma StaysIntact(s: State, step: Step)
    requires Once(s) && s.h.intact && Enabled(s, step) && !Disagrees(s, step)
    ensures Apply(s, step).h.intact
  {
    assert !s.h.exposed;
  }

  lemma IntactIsSafe(s: State)
    requires Inv(s) && s.h.intact
    ensures forall rest :: !Breaks(s, rest)
  {
    forall rest ensures !Breaks(s, rest) {
      if Breaks(s, rest) {
        KeptSessionsStayIntact(s, rest);
        RunKeepsInv(s, rest);
        InvGivesExactlyOnce(After(s, rest));
      }
    }
  }
}
