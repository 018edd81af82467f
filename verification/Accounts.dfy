/** Where every message is at any time, and how often the receiver has delivered it. */
module Accounts {
  import opened Ledger
  import opened Delivery
  import opened Invariants

  // ---- where a message is ------------------------------------------------------------------

  /** The message a call has not registered yet. */
  ghost predicate Offers(callers: map<nat, Caller>, p: nat, m: Message) {
    p in callers && (callers[p].Started? || callers[p].Claimed?) && callers[p].m == m
  }

  /** The message whose exchange under this identifier is not finished. */
  ghost predicate Pends(w: seq<Entry<Packet>>, id: int, m: Message) {
    Get(w, id).Some? && MessageOf(Get(w, id).value) == m
  }

  ghost predicate BooksOk(w: seq<Entry<Packet>>, callers: map<nat, Caller>, h: History) {
    && (forall id, m :: Pends(w, id, m) ==> m in h.accepted && m !in h.completed && m !in h.abandoned)
    && (forall id, x, m :: Pends(w, id, m) && Pends(w, x, m) ==> id == x)
    && (forall m :: m in h.completed ==> m in h.accepted && m !in h.abandoned)
    && (forall m :: m in h.abandoned ==> m in h.accepted)
    && (forall m :: m in h.accepted ==> m.serial < h.serial && !m.qos.AtMostOnce?)
    && (forall p, m :: Offers(callers, p, m) ==> h.epoch <= m.serial < h.serial && m !in h.accepted)
    && h.epoch <= h.serial && (forall id, m :: Pends(w, id, m) ==> h.epoch <= m.serial)
    && (forall p, q, m :: Offers(callers, p, m) && Offers(callers, q, m) ==> p == q)
  }

  /** Every registered message is in one place: waiting, completed, or given up by a clean connect. */
  ghost predicate Balance(w: seq<Entry<Packet>>, h: History) {
    && multiset(h.accepted) == multiset(MessagesOf(w)) + multiset(h.completed) + multiset(h.abandoned)
    && forall m :: multiset(h.accepted)[m] <= 1
  }

  ghost predicate Books(s: State) {
    BooksOk(s.c.ledger.waiting, s.callers, s.h) && Balance(s.c.ledger.waiting, s.h)
  }

  lemma ChangedOffer(was: map<nat, Caller>, p: nat, c: Caller, now: map<nat, Caller>)
    requires now == was[p := c]
    ensures forall q, m :: Offers(now, q, m) <==>
                           (if q == p then (c.Started? || c.Claimed?) && c.m == m else Offers(was, q, m))
  {
  }

  lemma LeavingOffer(was: map<nat, Caller>, p: nat, now: map<nat, Caller>)
    requires now == was - {p}
    ensures forall q, m :: Offers(now, q, m) <==> q != p && Offers(was, q, m)
  {
  }

  lemma PendsAfterRegister(w: seq<Entry<Packet>>, id: int, p: Packet, w': seq<Entry<Packet>>)
    requires DistinctIds(w) && !Listed(w, id) && w' == w + [Entry(id, p)]
    ensures forall x, m :: Pends(w', x, m) <==> (if x == id then MessageOf(p) == m else Pends(w, x, m))
  {
    GetAfterRegister(w, id, p);
  }

  lemma PendsAfterRelease(w: seq<Entry<Packet>>, id: int, w': seq<Entry<Packet>>)
    requires DistinctIds(w) && w' == Without(w, id)
    ensures forall x, m :: Pends(w', x, m) <==> x != id && Pends(w, x, m)
  {
    GetAfterRelease(w, id);
  }

  lemma PendsAfterReplace(w: seq<Entry<Packet>>, id: int, p: Packet, w': seq<Entry<Packet>>)
    requires DistinctIds(w) && Pends(w, id, MessageOf(p)) && w' == With(w, id, p)
    ensures forall x, m :: Pends(w', x, m) <==> Pends(w, x, m)
  {
    GetAfterReplace(w, id, p);
  }

  lemma PendsListed(w: seq<Entry<Packet>>, m: Message)
    requires DistinctIds(w)
    ensures m in MessagesOf(w) <==> exists id :: Pends(w, id, m)
  {
    if m in MessagesOf(w) {
      var i :| 0 <= i < |w| && MessagesOf(w)[i] == m;
      GetAt(w, i);
      assert Pends(w, w[i].id, m);
    }
    if id :| Pends(w, id, m) {
      assert MessagesOf(w)[IndexOf(w, id)] == m;
    }
  }

  lemma MessagesAppend(w: seq<Entry<Packet>>, e: Entry<Packet>)
    ensures MessagesOf(w + [e]) == MessagesOf(w) + [MessageOf(e.msg)]
  {
  }

  lemma MessagesWithout(w: seq<Entry<Packet>>, id: int)
    requires Listed(w, id)
    ensures multiset(MessagesOf(w)) == multiset(MessagesOf(Without(w, id))) + multiset{MessageOf(w[IndexOf(w, id)].msg)}
  {
    MessagesAfterRelease(w, id);
    OneLess(MessagesOf(w), IndexOf(w, id));
  }

  lemma MessagesAfterRelease(w: seq<Entry<Packet>>, id: int)
    requires Listed(w, id)
    ensures MessagesOf(Without(w, id)) == MessagesOf(w)[..IndexOf(w, id)] + MessagesOf(w)[IndexOf(w, id) + 1..]
  {
  }

  lemma OneLess<T>(s: seq<T>, k: nat)
    requires k < |s|
    ensures multiset(s) == multiset(s[..k] + s[k + 1..]) + multiset{s[k]}
  {
    assert s == s[..k] + [s[k]] + s[k + 1..];
  }

  lemma MessagesWith(w: seq<Entry<Packet>>, id: int, p: Packet)
    requires Listed(w, id) && MessageOf(p) == MessageOf(w[IndexOf(w, id)].msg)
    ensures MessagesOf(With(w, id, p)) == MessagesOf(w)
  {
  }

  lemma StepKeepsBooks(s: State, step: Step)
    requires Enabled(s, step) && Control(s) && Ids(s) && Pipe(s) && Books(s)
    ensures Books(Apply(s, step))
  {
    match step {
      case Connect(_, _, _, _) => AttemptKeepsBooks(s, step);
      case ConnectFails(_, _, _, _, _) => AttemptKeepsBooks(s, step);
      case Begin(p, qos) => BeginKeepsBooks(s, p, qos);
      case ClaimID(p) => ClaimKeepsBooks(s, p);
      case RegisterPacket(p) => RegisterKeepsBooks(s, p);
      case EnqueuePacket(p) => EnqueueKeepsBooks(s, p);
      case HandlerTakes => TakeKeepsBooks(s);
      case _ => RestKeepsBooks(s, step);
    }
  }

  /** Steps of sender, receiver, link and disconnect move no message between places. */
  lemma RestKeepsBooks(s: State, step: Step)
    requires Enabled(s, step) && Books(s)
    requires !step.Connect? && !step.ConnectFails? && !step.Begin? && !step.ClaimID? && !step.RegisterPacket?
    requires !step.EnqueuePacket? && !step.HandlerTakes?
    ensures Books(Apply(s, step))
  {
    var t := Apply(s, step);
    assert t.callers == s.callers && t.c.ledger.waiting == s.c.ledger.waiting;
    SameBooks(s.c.ledger.waiting, s.callers, s.h, t.h);
  }

  lemma SameBooks(w: seq<Entry<Packet>>, callers: map<nat, Caller>, h: History, h': History)
    requires BooksOk(w, callers, h) && Balance(w, h)
    requires h'.accepted == h.accepted && h'.completed == h.completed && h'.abandoned == h.abandoned
    requires h'.serial == h.serial
    requires h'.epoch == h.epoch || (h'.epoch == h.serial && w == [] && callers == map[])
    ensures BooksOk(w, callers, h') && Balance(w, h')
  {
  }

  lemma EnqueueKeepsBooks(s: State, p: nat)
    requires Enabled(s, EnqueuePacket(p)) && Books(s)
    ensures Books(DoEnqueue(s, p))
  {
    LeavingOffer(s.callers, p, s.callers - {p});
    SameBooks(s.c.ledger.waiting, s.callers, s.h, DoEnqueue(s, p).h);
  }

  lemma AttemptKeepsBooks(s: State, step: Step)
    requires Enabled(s, step) && (step.Connect? || step.ConnectFails?) && Ids(s) && Books(s)
    ensures Books(Apply(s, step))
  {
    var w, t := if step.clean then [] else s.c.ledger.waiting, Apply(s, step);
    var lost := if step.clean then MessagesOf(s.c.ledger.waiting) else [];
    AbandonKeepsBooks(s, step.clean);
    assert t.c.ledger.waiting == w && t.callers == s.callers;
    SameBooks(w, s.callers, s.h.(abandoned := s.h.abandoned + lost), t.h);
  }

  /** A clean connect gives up what was waiting. */
  lemma AbandonKeepsBooks(s: State, clean: bool)
    requires Ids(s) && Books(s)
    ensures var w := if clean then [] else s.c.ledger.waiting;
            var lost := if clean then MessagesOf(s.c.ledger.waiting) else [];
            var h := s.h.(abandoned := s.h.abandoned + lost);
            BooksOk(w, s.callers, h) && Balance(w, h)
  {
    var w := s.c.ledger.waiting;
    if clean {
      forall m | m in MessagesOf(w) ensures m in s.h.accepted && m !in s.h.completed {
        PendsListed(w, m);
      }
      assert MessagesOf([]) == [];
    } else {
      assert s.h.abandoned + [] == s.h.abandoned;
    }
  }

  lemma BeginKeepsBooks(s: State, p: nat, qos: QoS)
    requires Enabled(s, Begin(p, qos)) && Books(s)
    ensures Books(DoBegin(s, p, qos))
  {
    var callers := DoBegin(s, p, qos).callers;
    ChangedOffer(s.callers, p, callers[p], callers);
  }

  lemma ClaimKeepsBooks(s: State, p: nat)
    requires Enabled(s, ClaimID(p)) && Books(s)
    ensures Books(DoClaim(s, p))
  {
    var callers := DoClaim(s, p).callers;
    assert Offers(s.callers, p, s.callers[p].m);
    ChangedOffer(s.callers, p, callers[p], callers);
  }

  lemma RegisterKeepsBooks(s: State, p: nat)
    requires Enabled(s, RegisterPacket(p)) && Control(s) && Ids(s) && Books(s)
    ensures Books(DoRegister(s, p))
  {
    var Claimed(id, m) := s.callers[p];
    var t, w := DoRegister(s, p), s.c.ledger.waiting;
    assert Claims(s.callers, p, id) && Offers(s.callers, p, m);
    PendsAfterRegister(w, id, Publish(id, m, false), t.c.ledger.waiting);
    MessagesAppend(w, Entry(id, Publish(id, m, false)));
    ChangedOffer(s.callers, p, t.callers[p], t.callers);
  }

  /** The exchange under an identifier ends: its message is completed, once. */
  lemma CompleteKeepsBooks(w: seq<Entry<Packet>>, callers: map<nat, Caller>, h: History, id: int, m: Message)
    requires DistinctIds(w) && BooksOk(w, callers, h) && Balance(w, h) && Pends(w, id, m)
    ensures var h' := h.(completed := h.completed + [m]);
            BooksOk(Without(w, id), callers, h') && Balance(Without(w, id), h')
  {
    PendsAfterRelease(w, id, Without(w, id));
    MessagesWithout(w, id);
  }

  lemma TakeKeepsBooks(s: State)
    requires Enabled(s, HandlerTakes) && Ids(s) && Pipe(s) && Books(s)
    ensures Books(DoTake(s))
  {
    AnswerFindsPacket(s);
    if s.net.replies[0].kind.PubRec? {
      PubRecKeepsBooks(s);
    } else {
      EndKeepsBooks(s);
    }
  }

  lemma PubRecKeepsBooks(s: State)
    requires Enabled(s, HandlerTakes) && DistinctIds(s.c.ledger.waiting) && Books(s)
    requires s.net.replies[0].kind.PubRec? && Find(s.c.ledger, s.net.replies[0].id) == Found
    ensures Books(DoTake(s))
  {
    var w, id := s.c.ledger.waiting, s.net.replies[0].id;
    assert Pends(w, id, MessageOf(Get(w, id).value));
    PendsAfterReplace(w, id, ReleaseOf(s, id), With(w, id, ReleaseOf(s, id)));
    MessagesWith(w, id, ReleaseOf(s, id));
  }

  lemma EndKeepsBooks(s: State)
    requires Enabled(s, HandlerTakes) && DistinctIds(s.c.ledger.waiting) && Books(s)
    requires !s.net.replies[0].kind.PubRec? && Find(s.c.ledger, s.net.replies[0].id) == Found
    ensures Books(DoTake(s))
  {
    var w, id := s.c.ledger.waiting, s.net.replies[0].id;
    assert Pends(w, id, MessageOf(Get(w, id).value));
    EndOutcome(s);
    CompleteKeepsBooks(w, s.callers, s.h, id, MessageOf(Get(w, id).value));
  }

  /** The answer is ignored, or its message is completed. */
  lemma EndOutcome(s: State)
    requires Enabled(s, HandlerTakes)
    requires !s.net.replies[0].kind.PubRec? && Find(s.c.ledger, s.net.replies[0].id) == Found
    ensures var t, w, id := DoTake(s), s.c.ledger.waiting, s.net.replies[0].id;
            && t.callers == s.callers
            && ((t.c.ledger.waiting == w && t.h == s.h)
                || (t.c.ledger.waiting == Without(w, id)
                    && t.h == s.h.(completed := s.h.completed + [MessageOf(Get(w, id).value)])))
  {
  }
}
