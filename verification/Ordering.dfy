/** The order of waiting packets, and the order in which they were first queued. */
module Ordering {
  import opened Ledger
  import opened Delivery
  import opened Invariants
  import opened Accounts

  ghost predicate SentBefore(firsts: seq<Message>, x: Message, y: Message) {
    exists a, b :: 0 <= a < b < |firsts| && firsts[a] == x && firsts[b] == y
  }

  /** The messages at these places of the list were queued in the other order. */
  ghost predicate Crossed(ms: seq<Message>, firsts: seq<Message>, i: nat, j: nat) {
    i < j < |ms| && ms[i] in firsts && ms[j] in firsts && !SentBefore(firsts, ms[i], ms[j])
  }

  /** A resend would not follow the order of first sending. */
  ghost predicate Reordered(s: State) {
    exists i, j :: Crossed(MessagesOf(s.c.ledger.waiting), s.h.firsts, i, j)
  }

  /** A call that has registered its packet and not queued it yet. */
  ghost predicate SendsFirst(callers: map<nat, Caller>, p: nat, m: Message) {
    p in callers && callers[p].Ready? && callers[p].packet.Publish? && callers[p].packet.m == m
  }

  // ---- what is queued, in any run -----------------------------------------------------------

  /** Only registered messages are queued, and none twice by its call. */
  ghost predicate SentOk(callers: map<nat, Caller>, h: History) {
    && (forall m :: m in h.firsts ==> m in h.accepted)
    && (forall p, m :: SendsFirst(callers, p, m) ==> m !in h.firsts)
  }

  ghost predicate Sent(s: State) {
    SentOk(s.callers, s.h)
  }

  lemma SendsFirstPends(s: State, p: nat, m: Message)
    requires Pipe(s) && SendsFirst(s.callers, p, m)
    ensures var packet := s.callers[p].packet;
            && Pends(s.c.ledger.waiting, packet.id, m) && Holds(s.callers, p, packet.id) && packet.id != 0
  {
    assert Holds(s.callers, p, s.callers[p].packet.id);
  }

  lemma StepKeepsSent(s: State, step: Step)
    requires Enabled(s, step) && Pipe(s) && Books(s) && Sent(s)
    ensures Sent(Apply(s, step))
  {
    match step {
      case Begin(p, qos) => BeginKeepsSent(s, p, qos);
      case RegisterPacket(p) => RegisterKeepsSent(s, p);
      case EnqueuePacket(p) => EnqueueKeepsSent(s, p);
      case _ => RestKeepsSent(s, step);
    }
  }

  lemma RestKeepsSent(s: State, step: Step)
    requires Enabled(s, step) && Sent(s)
    requires !step.Begin? && !step.RegisterPacket? && !step.EnqueuePacket?
    ensures Sent(Apply(s, step))
  {
    var t := Apply(s, step);
    assert t.h.firsts == s.h.firsts && t.h.accepted == s.h.accepted;
    assert forall q, m :: SendsFirst(t.callers, q, m) ==> SendsFirst(s.callers, q, m);
  }

  lemma BeginKeepsSent(s: State, p: nat, qos: QoS)
    requires Enabled(s, Begin(p, qos)) && Sent(s)
    ensures Sent(DoBegin(s, p, qos))
  {
    assert forall q, m :: SendsFirst(DoBegin(s, p, qos).callers, q, m) ==> SendsFirst(s.callers, q, m);
  }

  lemma RegisterKeepsSent(s: State, p: nat)
    requires Enabled(s, RegisterPacket(p)) && Books(s) && Sent(s)
    ensures Sent(DoRegister(s, p))
  {
    var t, m := DoRegister(s, p), s.callers[p].m;
    assert Offers(s.callers, p, m);
    assert forall q, x :: SendsFirst(t.callers, q, x) ==> (q == p && x == m) || SendsFirst(s.callers, q, x);
  }

  lemma EnqueueKeepsSent(s: State, p: nat)
    requires Enabled(s, EnqueuePacket(p)) && Pipe(s) && Books(s) && Sent(s)
    ensures Sent(DoEnqueue(s, p))
  {
    var t, packet := DoEnqueue(s, p), s.callers[p].packet;
    assert forall q, m :: SendsFirst(t.callers, q, m) ==> SendsFirst(s.callers, q, m);
    if t.crash.None? && packet.Publish? {
      SendsFirstPends(s, p, packet.m);
      forall q, m | SendsFirst(t.callers, q, m) ensures m !in t.h.firsts {
        assert SendsFirst(s.callers, q, m);
        SendsFirstPends(s, q, m);
      }
    }
  }

  // ---- calls with identifiers that do not overlap ----------------------------------------------

  /** Of any two that have been queued, the earlier in the list was queued first. */
  ghost predicate InSendingOrder(ms: seq<Message>, firsts: seq<Message>) {
    forall i, j :: 0 <= i < j < |ms| && ms[i] in firsts && ms[j] in firsts ==> SentBefore(firsts, ms[i], ms[j])
  }

  /** One call is at work, and what has not been queued is its message, the last of the list. */
  ghost predicate OrderedOk(ms: seq<Message>, callers: map<nat, Caller>, firsts: seq<Message>) {
    && (forall p, q :: p in callers && q in callers && Identified(callers[p]) && Identified(callers[q]) ==> p == q)
    && (forall i :: 0 <= i < |ms| && ms[i] !in firsts ==> i == |ms| - 1 && exists p :: SendsFirst(callers, p, ms[i]))
    && InSendingOrder(ms, firsts)
  }

  ghost predicate Ordered(s: State) {
    s.h.solo ==> OrderedOk(MessagesOf(s.c.ledger.waiting), s.callers, s.h.firsts)
  }

  lemma StepKeepsOrdered(s: State, step: Step)
    requires Enabled(s, step) && Control(s) && Ids(s) && Pipe(s) && Books(s) && Sent(s) && Ordered(s)
    ensures Ordered(Apply(s, step))
  {
    match step {
      case Connect(_, _, _, _) => AttemptKeepsOrdered(s, step);
      case ConnectFails(_, _, _, _, _) => AttemptKeepsOrdered(s, step);
      case Begin(p, qos) => BeginKeepsOrdered(s, p, qos);
      case ClaimID(p) => ClaimKeepsOrdered(s, p);
      case RegisterPacket(p) => RegisterKeepsOrdered(s, p);
      case EnqueuePacket(p) => EnqueueKeepsOrdered(s, p);
      case HandlerTakes => TakeKeepsOrdered(s);
      case _ => RestKeepsOrdered(s, step);
    }
  }

  lemma RestKeepsOrdered(s: State, step: Step)
    requires Enabled(s, step) && Ordered(s)
    requires !step.Connect? && !step.ConnectFails? && !step.Begin? && !step.ClaimID? && !step.RegisterPacket?
    requires !step.EnqueuePacket? && !step.HandlerTakes?
    ensures Ordered(Apply(s, step))
  {
    var t := Apply(s, step);
    assert t.callers == s.callers && t.h.firsts == s.h.firsts && t.h.solo == s.h.solo;
    assert t.c.ledger.waiting == s.c.ledger.waiting;
  }

  /** A new ledger is a new beginning. */
  lemma AttemptKeepsOrdered(s: State, step: Step)
    requires Enabled(s, step) && (step.Connect? || step.ConnectFails?) && Ordered(s)
    ensures Ordered(Apply(s, step))
  {
    var t := Apply(s, step);
    assert t.callers == map[] && t.h.firsts == s.h.firsts;
    if step.clean {
      assert MessagesOf(t.c.ledger.waiting) == [];
    }
  }

  lemma BeginKeepsOrdered(s: State, p: nat, qos: QoS)
    requires Enabled(s, Begin(p, qos)) && Ordered(s)
    ensures Ordered(DoBegin(s, p, qos))
  {
    var t := DoBegin(s, p, qos);
    if t.h.solo {
      forall q, m | SendsFirst(s.callers, q, m) ensures SendsFirst(t.callers, q, m) {
      }
    }
  }

  lemma ClaimKeepsOrdered(s: State, p: nat)
    requires Enabled(s, ClaimID(p)) && Ordered(s)
    ensures Ordered(DoClaim(s, p))
  {
    var t := DoClaim(s, p);
    assert forall q, m :: SendsFirst(t.callers, q, m) <==> SendsFirst(s.callers, q, m);
  }

  lemma RegisterKeepsOrdered(s: State, p: nat)
    requires Enabled(s, RegisterPacket(p)) && Books(s) && Sent(s) && Ordered(s)
    ensures Ordered(DoRegister(s, p))
  {
    var Claimed(id, m) := s.callers[p];
    var w, t := s.c.ledger.waiting, DoRegister(s, p);
    assert Offers(s.callers, p, m);
    MessagesAppend(w, Entry(id, Publish(id, m, false)));
    if s.h.solo {
      assert forall q, x :: !SendsFirst(s.callers, q, x);
      assert SendsFirst(t.callers, p, m);
    }
  }

  lemma EnqueueKeepsOrdered(s: State, p: nat)
    requires Enabled(s, EnqueuePacket(p)) && Pipe(s) && Ids(s) && Books(s) && Sent(s) && Ordered(s)
    ensures Ordered(DoEnqueue(s, p))
  {
    var t, packet := DoEnqueue(s, p), s.callers[p].packet;
    if s.h.solo && t.crash.None? {
      if packet.Publish? {
        assert SendsFirst(s.callers, p, packet.m);
        LastIsQueued(MessagesOf(s.c.ledger.waiting), s.callers, s.h.firsts, p, t.callers);
      } else {
        forall q, m | SendsFirst(s.callers, q, m) ensures SendsFirst(t.callers, q, m) {
        }
      }
    }
  }

  lemma LastIsQueued(
    ms: seq<Message>, callers: map<nat, Caller>, firsts: seq<Message>, p: nat, callers': map<nat, Caller>)
    requires OrderedOk(ms, callers, firsts) && callers' == callers - {p}
    requires p in callers && callers[p].Ready? && callers[p].packet.Publish?
    requires callers[p].packet.m !in firsts
    ensures OrderedOk(ms, callers', firsts + [callers[p].packet.m])
  {
    var m := callers[p].packet.m;
    var firsts' := firsts + [m];
    assert SendsFirst(callers, p, m);
    forall i | 0 <= i < |ms| ensures ms[i] in firsts' {
      if ms[i] !in firsts {
        var q :| SendsFirst(callers, q, ms[i]);
        assert q == p;
      }
      assert forall x :: x in firsts' <==> x in firsts || x == m;
    }
    forall i, j | 0 <= i < j < |ms| ensures SentBefore(firsts', ms[i], ms[j]) {
      assert ms[i] in firsts;
      var a :| 0 <= a < |firsts| && firsts[a] == ms[i];
      if ms[j] in firsts {
        SentBeforeGrows(firsts, m, ms[i], ms[j]);
      } else {
        assert firsts'[a] == ms[i] && firsts'[|firsts|] == ms[j];
      }
    }
  }

  lemma SentBeforeGrows(firsts: seq<Message>, m: Message, x: Message, y: Message)
    requires SentBefore(firsts, x, y)
    ensures SentBefore(firsts + [m], x, y)
  {
    var a, b :| 0 <= a < b < |firsts| && firsts[a] == x && firsts[b] == y;
    assert (firsts + [m])[a] == x && (firsts + [m])[b] == y;
  }

  /** Taking a packet out of the list keeps the order of the others. */
  lemma OneLessInOrder(
    ms: seq<Message>, k: nat, callers: map<nat, Caller>, firsts: seq<Message>, ms': seq<Message>)
    requires k < |ms| && OrderedOk(ms, callers, firsts) && (ms' == ms || ms' == ms[..k] + ms[k + 1..])
    ensures OrderedOk(ms', callers, firsts)
  {
    if ms' != ms {
      forall i | 0 <= i < |ms'| ensures ms'[i] == ms[if i < k then i else i + 1] {
      }
    }
  }

  lemma TakeKeepsOrdered(s: State)
    requires Enabled(s, HandlerTakes) && Ids(s) && Pipe(s) && Ordered(s)
    ensures Ordered(DoTake(s))
  {
    if s.h.solo {
      AnswerFindsPacket(s);
      TakenInOrder(s);
    }
  }

  lemma TakenInOrder(s: State)
    requires s.handler.Idle? && s.net.replies != [] && Find(s.c.ledger, s.net.replies[0].id) == Found
    requires OrderedOk(MessagesOf(s.c.ledger.waiting), s.callers, s.h.firsts)
    ensures OrderedOk(MessagesOf(DoTake(s).c.ledger.waiting), s.callers, s.h.firsts)
  {
    TakenMessages(s);
    var w := s.c.ledger.waiting;
    OneLessInOrder(
      MessagesOf(w), IndexOf(w, s.net.replies[0].id), s.callers, s.h.firsts, MessagesOf(DoTake(s).c.ledger.waiting));
  }

  /** An answer takes its message out of the list or leaves it where it is. */
  lemma TakenMessages(s: State)
    requires s.handler.Idle? && s.net.replies != [] && Find(s.c.ledger, s.net.replies[0].id) == Found
    ensures var ms, k := MessagesOf(s.c.ledger.waiting), IndexOf(s.c.ledger.waiting, s.net.replies[0].id);
            var ms' := MessagesOf(DoTake(s).c.ledger.waiting);
            k < |ms| && (ms' == ms || ms' == ms[..k] + ms[k + 1..])
  {
    var w, id := s.c.ledger.waiting, s.net.replies[0].id;
    MessagesWith(w, id, ReleaseOf(s, id));
    MessagesAfterRelease(w, id);
  }
}
