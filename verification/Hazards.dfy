/** What goes wrong outside the assumptions of the delivery protocol, and exactly when. */
module Hazards {
  import opened Wrappers
  import opened PacketIds
  import opened Ledger
  import opened Client
  import opened Delivery
  import opened Invariants
  import opened Ordering
  import opened Guarantees

  /** A run from `s` into a state with the property. */
  ghost predicate LeadsTo(s: State, steps: seq<Step>, bad: State -> bool) {
    IsRun(s, steps) && bad(After(s, steps))
  }

  lemma Before(s: State, step: Step, steps: seq<Step>, bad: State -> bool)
    requires Enabled(s, step) && LeadsTo(Apply(s, step), steps, bad)
    ensures LeadsTo(s, [step] + steps, bad)
  {
    assert ([step] + steps)[1..] == steps;
  }

  /** The first connection, clean and accepted, with nothing on it yet. */
  function Connected(early: bool): State {
    Apply(Init(early), Connect(true, true, false, false))
  }

  lemma FirstConnect(early: bool, steps: seq<Step>, bad: State -> bool)
    requires LeadsTo(Connected(early), steps, bad)
    ensures LeadsTo(Init(early), [Connect(true, true, false, false)] + steps, bad)
  {
    Before(Init(early), Connect(true, true, false, false), steps, bad);
  }

  // ---- a handler that outlives its stop ------------------------------------------------------

  /** What becomes of the client if the next answer is handled although the handler has stopped. */
  function LateAnswer(s: State): (Client<Packet>, Option<Failure>)
    requires s.net.replies != []
  {
    var a := s.net.replies[0];
    Handle(s.c, a.kind, a.id, ReleaseOf(s, a.id))
  }

  /**
   * The program's handler keeps taking answers after it has reported that it stopped. That
   * panics exactly on a PUBREC it does not ignore once the queue is closed, in every reachable state.
   */
  lemma LateAnswerPanicsIff(early: bool, steps: seq<Step>)
    requires IsRun(Init(early), steps)
    requires var s := After(Init(early), steps);
             s.handler.Stopped? && s.net.replies != []
    ensures var s := After(Init(early), steps);
            LateAnswer(s).1.Some? <==> s.net.replies[0].kind.PubRec? && !s.c.ignorePubAck && !s.c.open
    ensures var s := After(Init(early), steps);
            LateAnswer(s).1.Some? ==> LateAnswer(s).1 == Some(SendOnClosed)
  {
    Reachable(early, steps);
    LatePanicsIff(After(Init(early), steps));
  }

  lemma LatePanicsIff(s: State)
    requires Ids(s) && Pipe(s) && s.net.replies != []
    ensures LateAnswer(s).1.Some? <==> s.net.replies[0].kind.PubRec? && !s.c.ignorePubAck && !s.c.open
    ensures LateAnswer(s).1.Some? ==> LateAnswer(s).1 == Some(SendOnClosed)
  {
    AnswerFindsPacket(s);
  }

  predicate DiesOfLateAnswer(s: State) {
    s.handler.Stopped? && s.crash.None? && s.net.replies != [] && LateAnswer(s).1 == Some(SendOnClosed)
  }

  /** Such a state is reachable: publish one exactly-once message and disconnect at once. */
  lemma LateAnswerPanics(early: bool) returns (steps: seq<Step>)
    ensures LeadsTo(Init(early), steps, DiesOfLateAnswer)
  {
    steps := PublishesOne(Connected(early));
    FirstConnect(early, steps, DiesOfLateAnswer);
    steps := [Connect(true, true, false, false)] + steps;
  }

  lemma PublishesOne(s: State) returns (steps: seq<Step>)
    requires s == Connected(s.broker.early)
    ensures LeadsTo(s, steps, DiesOfLateAnswer)
  {
    FreshClaims(0);
    assert FirstIds(0) == {};
    var s1 := Apply(s, Begin(0, ExactlyOnce));
    var s2 := Apply(s1, ClaimID(0));
    var s3 := Apply(s2, RegisterPacket(0));
    var s4 := Apply(s3, EnqueuePacket(0));
    assert s4.callers == map[];
    var r4 := IsAnsweredLate(s4);
    Before(s3, EnqueuePacket(0), r4, DiesOfLateAnswer);
    var r3 := [EnqueuePacket(0)] + r4;
    Before(s2, RegisterPacket(0), r3, DiesOfLateAnswer);
    var r2 := [RegisterPacket(0)] + r3;
    Before(s1, ClaimID(0), r2, DiesOfLateAnswer);
    var r1 := [ClaimID(0)] + r2;
    Before(s, Begin(0, ExactlyOnce), r1, DiesOfLateAnswer);
    steps := [Begin(0, ExactlyOnce)] + r1;
  }

  lemma IsAnsweredLate(s: State) returns (steps: seq<Step>)
    requires s.crash.None? && s.callers == map[] && s.stage.Unlocked? && s.c.status.Connected? && s.handler.Idle?
    requires 0 <= s.c.ledger.next <= MAX_ID && !s.c.ignorePubAck
    requires |s.c.queue| == 1 && s.net == Net(true, [], [])
    requires var p := s.c.queue[0]; p.Publish? && p.m.qos.ExactlyOnce? && Find(s.c.ledger, p.id) == Found
    ensures LeadsTo(s, steps, DiesOfLateAnswer)
  {
    var s1 := Apply(s, SenderWrites);
    var s2 := Apply(s1, BrokerReceives);
    var r2 := StopsUnanswered(s2);
    Before(s1, BrokerReceives, r2, DiesOfLateAnswer);
    var r1 := [BrokerReceives] + r2;
    Before(s, SenderWrites, r1, DiesOfLateAnswer);
    steps := [SenderWrites] + r1;
  }

  lemma StopsUnanswered(s: State) returns (steps: seq<Step>)
    requires s.crash.None? && s.callers == map[] && s.stage.Unlocked? && s.c.status.Connected? && s.handler.Idle?
    requires 0 <= s.c.ledger.next <= MAX_ID && !s.c.ignorePubAck
    requires |s.net.replies| == 1 && s.net.replies[0].kind.PubRec? && Find(s.c.ledger, s.net.replies[0].id) == Found
    ensures LeadsTo(s, steps, DiesOfLateAnswer)
  {
    var s1 := Apply(s, BeginDisconnect(false));
    var s2 := Apply(s1, HandlerStops);
    assert LeadsTo(s2, [], DiesOfLateAnswer);
    Before(s1, HandlerStops, [], DiesOfLateAnswer);
    var r1 := [HandlerStops] + [];
    Before(s, BeginDisconnect(false), r1, DiesOfLateAnswer);
    steps := [BeginDisconnect(false)] + r1;
  }

  // ---- a caller's own identifier ---------------------------------------------------------------

  /**
   * Publishing under an identifier of the caller's own only queues the packet. In every reachable
   * state its answer kills exactly if it is heeded and, for a PUBREC, nothing is registered
   * under that identifier; for another answer, no packet waits under it. An identifier not in
   * use is always fatal; one in use lets the answer end, or turn into a PUBREL, the exchange of
   * another message.
   */
  lemma OwnIdentifierDiesIff(early: bool, steps: seq<Step>, packet: Packet, kind: AckKind, id: int)
    requires IsRun(Init(early), steps) && After(Init(early), steps).c.open && packet.Publish?
    ensures var s := After(Init(early), steps);
            var c := Enqueue(s.c, packet).0;
            var (c', failure) := Handle(c, kind, id, PubRel(id, packet.m));
            && (failure.Some? <==>
                  Heeded(c, kind)
                  && if kind.PubRec? then c.ledger.Panics(id) else Get(c.ledger.waiting, id).None?)
            && (id !in s.c.ledger.used ==> (failure.Some? <==> Heeded(c, kind)))
            && (Heeded(c, kind) && failure.None? && Get(c.ledger.waiting, id).Some? ==>
                  Get(c'.ledger.waiting, id) == if kind.PubRec? then Some(PubRel(id, packet.m)) else None)
  {
    Reachable(early, steps);
    OwnIdentifier(After(Init(early), steps), packet, kind, id);
  }

  lemma OwnIdentifier(s: State, packet: Packet, kind: AckKind, id: int)
    requires Ids(s) && s.c.open && packet.Publish?
    ensures var c := Enqueue(s.c, packet).0;
            var (c', failure) := Handle(c, kind, id, PubRel(id, packet.m));
            && (failure.Some? <==>
                  Heeded(c, kind)
                  && if kind.PubRec? then c.ledger.Panics(id) else Get(c.ledger.waiting, id).None?)
            && (id !in s.c.ledger.used ==> (failure.Some? <==> Heeded(c, kind)))
            && (Heeded(c, kind) && failure.None? && Get(c.ledger.waiting, id).Some? ==>
                  Get(c'.ledger.waiting, id) == if kind.PubRec? then Some(PubRel(id, packet.m)) else None)
  {
    StrayAnswer(Enqueue(s.c, packet).0, kind, id, PubRel(id, packet.m));
    ListedIds(s, id);
  }

  lemma ListedIds(s: State, id: int)
    requires Ids(s)
    ensures Get(s.c.ledger.waiting, id).Some? ==> !s.c.ledger.Panics(id)
  {
  }

  /** An answer to nothing that was registered for it. */
  lemma StrayAnswer<M>(c: Client<M>, kind: AckKind, id: int, release: M)
    requires DistinctIds(c.ledger.waiting) && c.open
    requires Get(c.ledger.waiting, id).Some? ==> !c.ledger.Panics(id)
    ensures var (c', failure) := Handle(c, kind, id, release);
            && (failure.Some? <==>
                  Heeded(c, kind)
                  && if kind.PubRec? then c.ledger.Panics(id) else Get(c.ledger.waiting, id).None?)
            && (Heeded(c, kind) && failure.None? && Get(c.ledger.waiting, id).Some? ==>
                  Get(c'.ledger.waiting, id) == if kind.PubRec? then Some(release) else None)
  {
    GetAfterRelease(c.ledger.waiting, id);
    if Listed(c.ledger.waiting, id) {
      GetAfterReplace(c.ledger.waiting, id, release);
    }
  }

  // ---- overlapping calls ---------------------------------------------------------------------

  /** Two calls that overlap can queue their packets in the other order than they registered. */
  lemma OverlapReorders(early: bool) returns (steps: seq<Step>)
    ensures LeadsTo(Init(early), steps, s => Reordered(s))
  {
    steps := TwoBegin(Connected(early), s => Reordered(s));
    FirstConnect(early, steps, s => Reordered(s));
    steps := [Connect(true, true, false, false)] + steps;
  }

  lemma TwoBegin(s: State, bad: State -> bool) returns (steps: seq<Step>)
    requires s == Connected(s.broker.early) && forall x :: Reordered(x) ==> bad(x)
    ensures LeadsTo(s, steps, bad)
  {
    var s1 := Apply(s, Begin(0, ExactlyOnce));
    var s2 := Apply(s1, Begin(1, ExactlyOnce));
    var r2 := TwoClaim(s2, Message(0, ExactlyOnce), Message(1, ExactlyOnce), bad);
    Before(s1, Begin(1, ExactlyOnce), r2, bad);
    var r1 := [Begin(1, ExactlyOnce)] + r2;
    Before(s, Begin(0, ExactlyOnce), r1, bad);
    steps := [Begin(0, ExactlyOnce)] + r1;
  }

  lemma TwoClaim(s: State, m0: Message, m1: Message, bad: State -> bool) returns (steps: seq<Step>)
    requires s.crash.None? && s.c.open && s.c.queue == [] && s.c.ledger == Fresh() && s.h.firsts == []
    requires s.callers == map[0 := Started(m0), 1 := Started(m1)] && m0 != m1
    requires forall x :: Reordered(x) ==> bad(x)
    ensures LeadsTo(s, steps, bad)
  {
    FreshClaims(0);
    FreshClaims(1);
    assert FirstIds(0) == {};
    var s1 := Apply(s, ClaimID(0));
    var s2 := Apply(s1, ClaimID(1));
    var r2 := TwoQueue(s2, m0, m1, bad);
    Before(s1, ClaimID(1), r2, bad);
    var r1 := [ClaimID(1)] + r2;
    Before(s, ClaimID(0), r1, bad);
    steps := [ClaimID(0)] + r1;
  }

  lemma TwoQueue(s: State, m0: Message, m1: Message, bad: State -> bool) returns (steps: seq<Step>)
    requires s.crash.None? && s.c.open && s.c.queue == [] && 0 <= s.c.ledger.next <= MAX_ID
    requires s.callers == map[0 := Claimed(1, m0), 1 := Claimed(2, m1)] && m0 != m1
    requires s.c.ledger.waiting == [] && s.h.firsts == []
    requires forall x :: Reordered(x) ==> bad(x)
    ensures LeadsTo(s, steps, bad)
  {
    var s1 := Apply(s, RegisterPacket(0));
    var s2 := Apply(s1, RegisterPacket(1));
    var s3 := Apply(s2, EnqueuePacket(1));
    var s4 := Apply(s3, EnqueuePacket(0));
    assert s4.callers == map[] && s4.h.firsts == [m1, m0];
    assert MessagesOf(s4.c.ledger.waiting) == [m0, m1];
    assert Crossed(MessagesOf(s4.c.ledger.waiting), s4.h.firsts, 0, 1);
    assert LeadsTo(s4, [], bad);
    Before(s3, EnqueuePacket(0), [], bad);
    var r3 := [EnqueuePacket(0)] + [];
    Before(s2, EnqueuePacket(1), r3, bad);
    var r2 := [EnqueuePacket(1)] + r3;
    Before(s1, RegisterPacket(1), r2, bad);
    var r1 := [RegisterPacket(1)] + r2;
    Before(s, RegisterPacket(0), r1, bad);
    steps := [RegisterPacket(0)] + r1;
  }
}
