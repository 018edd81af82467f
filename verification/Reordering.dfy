/**
 * When a resend can leave the order of first sending. Calls with identifiers that never overlap
 * are always resent in the order they were sent; here it is shown that the first overlap is
 * exactly what can change that.
 */
module Reordering {
  import opened Ledger
  import opened Client
  import opened Delivery
  import opened Invariants
  import opened Accounts
  import opened Ordering
  import opened Guarantees
  import opened Completion

  /** The step begins a call with an identifier while another is unfinished. */
  ghost predicate MakesOverlap(s: State, step: Step) {
    step.Begin? && Overlaps(s, step.qos)
  }

  /** No further such step. */
  ghost predicate NoOverlap(s: State, steps: seq<Step>)
    requires IsRun(s, steps)
    decreases |steps|
  {
    steps == [] || (!MakesOverlap(s, steps[0]) && NoOverlap(Apply(s, steps[0]), steps[1..]))
  }

  /** A continuation without further overlaps in which two waiting packets were sent crosswise. */
  ghost predicate Crosses(s: State, steps: seq<Step>) {
    IsRun(s, steps) && NoOverlap(s, steps) && Reordered(After(s, steps))
  }

  lemma CrossesLater(s: State, step: Step, steps: seq<Step>)
    requires Enabled(s, step) && !MakesOverlap(s, step) && Crosses(Apply(s, step), steps)
    ensures Crosses(s, [step] + steps)
  {
    assert ([step] + steps)[1..] == steps;
  }

  // ---- without an overlap --------------------------------------------------------------------

  lemma {:induction false} SoloStays(s: State, steps: seq<Step>)
    requires IsRun(s, steps) && NoOverlap(s, steps) && s.h.solo
    ensures After(s, steps).h.solo
    decreases |steps|
  {
    if steps != [] {
      SoloStays(Apply(s, steps[0]), steps[1..]);
    }
  }

  lemma SoloIsInOrder(s: State)
    requires Inv(s) && s.h.solo
    ensures forall rest :: !Crosses(s, rest)
  {
    forall rest ensures !Crosses(s, rest) {
      if Crosses(s, rest) {
        SoloStays(s, rest);
        RunKeepsInv(s, rest);
        InOrderIsNotReordered(After(s, rest));
      }
    }
  }

  lemma InOrderIsNotReordered(s: State)
    requires Ordered(s) && s.h.solo
    ensures !Reordered(s)
  {
  }

  /** A new session in which calls with identifiers never overlap resends in sending order. */
  lemma NeverOverlapping(early: bool, steps: seq<Step>)
    requires IsRun(Init(early), steps) && NoOverlap(Init(early), steps)
    ensures var s := After(Init(early), steps);
            InSendingOrder(MessagesOf(s.c.ledger.waiting), s.h.firsts) && !Reordered(s)
  {
    Reachable(early, steps);
    SoloStays(Init(early), steps);
  }

  // ---- after an overlap -----------------------------------------------------------------------

  ghost predicate Alive(s: State) {
    Control(s) && Ids(s) && Pipe(s) && Books(s) && Sent(s) && s.crash.None? && Spare(s)
  }

  /** The call has registered this message and not queued it. */
  predicate Holding(s: State, p: nat, m: Message) {
    p in s.callers && s.callers[p].Ready? && s.callers[p].packet.Publish? && s.callers[p].packet.m == m
  }

  /** The first message stands before the second in the list. */
  ghost predicate Stands(s: State, x: Message, y: Message, i: nat, j: nat) {
    var ms := MessagesOf(s.c.ledger.waiting);
    i < j < |ms| && ms[i] == x && ms[j] == y
  }

  /** A step of one call leaves the others where they are. */
  ghost predicate OthersStay(s: State, t: State, p: nat) {
    forall q :: q != p && q in s.callers ==> q in t.callers && t.callers[q] == s.callers[q]
  }

  /** Whatever crosses from there crosses from here. */
  ghost predicate LeadsOn(s: State, step: Step, t: State) {
    forall rest :: Crosses(t, rest) ==> Crosses(s, [step] + rest)
  }

  lemma Goes(s: State, step: Step)
    requires Alive(s) && Advances(s, step) && !step.Begin?
    ensures Alive(Apply(s, step)) && LeadsOn(s, step, Apply(s, step))
  {
    StaysAlive(s, step);
    forall rest | Crosses(Apply(s, step), rest) ensures Crosses(s, [step] + rest) {
      CrossesLater(s, step, rest);
    }
  }

  lemma StaysAlive(s: State, step: Step)
    requires Alive(s) && Advances(s, step)
    ensures Alive(Apply(s, step))
  {
    StepKeepsControl(s, step);
    StepKeepsIds(s, step);
    StepKeepsPipe(s, step);
    StepKeepsBooks(s, step);
    StepKeepsSent(s, step);
  }

  lemma Claiming(s: State, p: nat) returns (t: State)
    requires Alive(s) && p in s.callers && s.callers[p].Started?
    ensures Alive(t) && LeadsOn(s, ClaimID(p), t) && OthersStay(s, t, p)
    ensures p in t.callers && t.callers[p].Claimed?
  {
    ClaimAdvances(s, p);
    Goes(s, ClaimID(p));
    t := Apply(s, ClaimID(p));
    ClaimedCaller(s, p);
  }

  lemma ClaimedCaller(s: State, p: nat)
    requires Enabled(s, ClaimID(p)) && DoClaim(s, p).crash.None?
    ensures var t := DoClaim(s, p);
            OthersStay(s, t, p) && p in t.callers && t.callers[p].Claimed?
  {
  }

  lemma Registering(s: State, p: nat) returns (t: State)
    requires Alive(s) && p in s.callers && s.callers[p].Claimed?
    ensures Alive(t) && LeadsOn(s, RegisterPacket(p), t) && OthersStay(s, t, p)
    ensures Holding(t, p, s.callers[p].m)
    ensures MessagesOf(t.c.ledger.waiting) == MessagesOf(s.c.ledger.waiting) + [s.callers[p].m]
  {
    RegisterAdvances(s, p);
    Goes(s, RegisterPacket(p));
    t := Apply(s, RegisterPacket(p));
    RegisteredCaller(s, p);
  }

  lemma RegisteredCaller(s: State, p: nat)
    requires Enabled(s, RegisterPacket(p))
    ensures var t := DoRegister(s, p);
            && OthersStay(s, t, p) && Holding(t, p, s.callers[p].m)
            && MessagesOf(t.c.ledger.waiting) == MessagesOf(s.c.ledger.waiting) + [s.callers[p].m]
  {
    var Claimed(id, m) := s.callers[p];
    MessagesAppend(s.c.ledger.waiting, Entry(id, Publish(id, m, false)));
  }

  ghost predicate LeadsThrough(s: State, steps: seq<Step>, t: State) {
    forall rest :: Crosses(t, rest) ==> Crosses(s, steps + rest)
  }

  lemma ThroughBoth(s: State, first: seq<Step>, t: State, second: seq<Step>, u: State)
    requires LeadsThrough(s, first, t) && LeadsThrough(t, second, u)
    ensures LeadsThrough(s, first + second, u)
  {
    forall rest | Crosses(u, rest) ensures Crosses(s, first + second + rest) {
      assert first + second + rest == first + (second + rest);
    }
  }

  /** A call queues its packet as soon as the sender has made room. */
  lemma {:induction false} Queueing(s: State, p: nat, m: Message) returns (steps: seq<Step>, t: State)
    requires Alive(s) && Holding(s, p, m)
    ensures Alive(t) && LeadsThrough(s, steps, t) && OthersStay(s, t, p)
    ensures MessagesOf(t.c.ledger.waiting) == MessagesOf(s.c.ledger.waiting) && t.h.firsts == s.h.firsts + [m]
    decreases |s.c.queue|
  {
    if |s.c.queue| < QUEUE_CAPACITY {
      steps, t := Enqueueing(s, p, m);
    } else {
      var first, u := Writing(s, p, m);
      var second;
      second, t := Queueing(u, p, m);
      ThroughBoth(s, first, u, second, t);
      steps := first + second;
    }
  }

  lemma Enqueueing(s: State, p: nat, m: Message) returns (steps: seq<Step>, t: State)
    requires Alive(s) && Holding(s, p, m) && |s.c.queue| < QUEUE_CAPACITY
    ensures Alive(t) && LeadsThrough(s, steps, t) && OthersStay(s, t, p)
    ensures MessagesOf(t.c.ledger.waiting) == MessagesOf(s.c.ledger.waiting) && t.h.firsts == s.h.firsts + [m]
  {
    EnqueueAdvances(s, p);
    Goes(s, EnqueuePacket(p));
    steps, t := [EnqueuePacket(p)], Apply(s, EnqueuePacket(p));
  }

  lemma Writing(s: State, p: nat, m: Message) returns (steps: seq<Step>, t: State)
    requires Alive(s) && Holding(s, p, m) && |s.c.queue| >= QUEUE_CAPACITY
    ensures Alive(t) && LeadsThrough(s, steps, t) && t.callers == s.callers
    ensures MessagesOf(t.c.ledger.waiting) == MessagesOf(s.c.ledger.waiting) && t.h.firsts == s.h.firsts
    ensures |t.c.queue| < |s.c.queue|
  {
    EnqueueAdvances(s, p);
    Goes(s, SenderWrites);
    steps, t := [SenderWrites], Apply(s, SenderWrites);
  }

  lemma FirstIsClaimed(s: State, p: nat, q: nat) returns (steps: seq<Step>)
    requires Alive(s) && p != q && p in s.callers && s.callers[p].Started? && q in s.callers && s.callers[q].Started?
    ensures Crosses(s, steps)
  {
    var t := Claiming(s, p);
    steps := FirstIsRegistered(t, p, q);
    steps := [ClaimID(p)] + steps;
  }

  lemma FirstIsRegistered(s: State, p: nat, q: nat) returns (steps: seq<Step>)
    requires Alive(s) && p != q && p in s.callers && s.callers[p].Claimed? && q in s.callers && s.callers[q].Started?
    ensures Crosses(s, steps)
  {
    var t := Registering(s, p);
    steps := SecondIsClaimed(t, p, q, s.callers[p].m);
    steps := [RegisterPacket(p)] + steps;
  }

  lemma SecondIsClaimed(s: State, p: nat, q: nat, x: Message) returns (steps: seq<Step>)
    requires Alive(s) && p != q && Holding(s, p, x) && q in s.callers && s.callers[q].Started?
    ensures Crosses(s, steps)
  {
    var t := Claiming(s, q);
    steps := SecondIsRegistered(t, p, q, x);
    steps := [ClaimID(q)] + steps;
  }

  lemma SecondIsRegistered(s: State, p: nat, q: nat, x: Message) returns (steps: seq<Step>)
    requires Alive(s) && p != q && Holding(s, p, x) && q in s.callers && s.callers[q].Claimed?
    ensures Crosses(s, steps)
  {
    var t := Registering(s, q);
    var i := HeldIsListed(s, p, x);
    steps := BothAreQueued(t, p, q, x, s.callers[q].m, i, |s.c.ledger.waiting|);
    steps := [RegisterPacket(q)] + steps;
  }

  /** The second call queues its packet, then the first. */
  lemma BothAreQueued(s: State, p: nat, q: nat, x: Message, y: Message, i: nat, j: nat) returns (steps: seq<Step>)
    requires Alive(s) && p != q && Holding(s, p, x) && Holding(s, q, y) && Stands(s, x, y, i, j)
    ensures Crosses(s, steps)
  {
    var first, t := Queueing(s, q, y);
    assert SendsFirst(t.callers, p, x);
    var second, u := Queueing(t, p, x);
    CrossedNow(t.h.firsts, x, y);
    AreCrossed(u, x, y, i, j);
    steps := first + (second + []);
  }

  lemma AreCrossed(s: State, x: Message, y: Message, i: nat, j: nat)
    requires Stands(s, x, y, i, j)
    requires x in s.h.firsts && y in s.h.firsts && !SentBefore(s.h.firsts, x, y)
    ensures Crosses(s, [])
  {
    assert Crossed(MessagesOf(s.c.ledger.waiting), s.h.firsts, i, j);
  }

  lemma HeldIsListed(s: State, p: nat, x: Message) returns (i: nat)
    requires Pipe(s) && Holding(s, p, x)
    ensures i < |s.c.ledger.waiting| && MessageOf(s.c.ledger.waiting[i].msg) == x
  {
    assert SendsFirst(s.callers, p, x);
    SendsFirstPends(s, p, x);
    i := IndexOf(s.c.ledger.waiting, s.callers[p].packet.id);
  }

  lemma CrossedNow(firsts: seq<Message>, x: Message, y: Message)
    requires x !in firsts && y in firsts
    ensures x in firsts + [x] && y in firsts + [x] && !SentBefore(firsts + [x], x, y)
  {
  }

  /** From any overlap two calls can go on so that their packets are sent crosswise. */
  lemma OverlapCrosses(s: State, p: nat, q: nat) returns (steps: seq<Step>)
    requires Alive(s) && p != q && p in s.callers && Identified(s.callers[p]) && q in s.callers && s.callers[q].Started?
    ensures Crosses(s, steps)
  {
    match s.callers[p] {
      case Started(_) => steps := FirstIsClaimed(s, p, q);
      case Claimed(_, _) => steps := FirstIsRegistered(s, p, q);
      case Ready(packet) => steps := SecondIsClaimed(s, p, q, packet.m);
    }
  }

  // ---- the exact condition -------------------------------------------------------------------

  /**
   * After every run in which calls with identifiers have not overlapped since the ledger was
   * new, a step opens the way to a resend out of order only if it begins such a call while
   * another is unfinished; and if it does, and there are identifiers for the calls that wait
   * for one, some continuation without further overlaps gets there.
   */
  lemma ReorderIffOverlap(early: bool, steps: seq<Step>, step: Step)
    requires IsRun(Init(early), steps) && After(Init(early), steps).h.solo
    requires Enabled(After(Init(early), steps), step)
    ensures var s := After(Init(early), steps);
            && ((exists rest :: Crosses(Apply(s, step), rest)) ==> MakesOverlap(s, step))
            && (MakesOverlap(s, step) && Spare(Apply(s, step)) ==> exists rest :: Crosses(Apply(s, step), rest))
  {
    Reachable(early, steps);
    ReorderIff(After(Init(early), steps), step);
  }

  lemma ReorderIff(s: State, step: Step)
    requires Inv(s) && s.h.solo && Enabled(s, step)
    ensures (exists rest :: Crosses(Apply(s, step), rest)) ==> MakesOverlap(s, step)
    ensures MakesOverlap(s, step) && Spare(Apply(s, step)) ==> exists rest :: Crosses(Apply(s, step), rest)
  {
    StepKeepsInv(s, step);
    if !MakesOverlap(s, step) {
      SoloStep(s, step);
      SoloIsInOrder(Apply(s, step));
    } else if Spare(Apply(s, step)) {
      var p :| p in s.callers && Identified(s.callers[p]);
      OverlapBegun(s, step, p);
      var rest := OverlapCrosses(Apply(s, step), p, step.p);
    }
  }

  lemma SoloStep(s: State, step: Step)
    requires s.h.solo && Enabled(s, step) && !MakesOverlap(s, step)
    ensures Apply(s, step).h.solo
  {
  }

  lemma OverlapBegun(s: State, step: Step, p: nat)
    requires Enabled(s, step) && MakesOverlap(s, step) && p in s.callers && Identified(s.callers[p])
    ensures var t := Apply(s, step);
            && t.crash.None? && p != step.p && p in t.callers && t.callers[p] == s.callers[p]
            && step.p in t.callers && t.callers[step.p].Started?
  {
  }
}
