/** What holds after every run of the delivery protocol from a new session. */
module Guarantees {
  import opened Wrappers
  import opened PacketIds
  import opened Ledger
  import opened Client
  import opened Delivery
  import opened Invariants
  import opened Accounts
  import opened Deliveries
  import opened Ordering

  /** The only way to die is an allocator with nothing to give, and 65534 identifiers in use. */
  ghost predicate CrashOk(s: State) {
    s.crash.Some? ==> s.crash == Some(NoFreeID) && AllIds() - {s.c.ledger.next} <= s.c.ledger.used
  }

  ghost predicate Inv(s: State) {
    && Control(s) && Logs(s) && Farewell(s) && CrashOk(s)
    && Ids(s) && Pipe(s) && Books(s) && Sound(s) && Once(s) && Sent(s) && Ordered(s)
  }

  lemma InitPipe()
    ensures PipeOk([], map[], Stopped, [], []) && PlainOk([], map[])
  {
  }

  lemma InitBooks(h: History)
    requires h.accepted == [] && h.completed == [] && h.abandoned == [] && h.epoch == 0
    ensures BooksOk([], map[], h) && Balance([], h)
  {
    assert forall p, m :: !Offers(map[], p, m);
  }

  lemma InitCounts(b: Broker, h: History)
    requires b.store == map[] && b.delivered == []
    requires h.accepted == [] && h.completed == [] && h.abandoned == [] && h.firsts == []
    ensures SoundOk(b, [], [], h) && OnceOk(b, [], [], h) && LateOk([], h.accepted) && LateCalm(b, [])
    ensures OrderedOk([], map[], []) && SentOk(map[], h)
  {
    assert MessagesOf([]) == [];
  }

  lemma InitInv(early: bool)
    ensures Inv(Init(early))
  {
    var s := Init(early);
    assert s.c.ledger.waiting == [] && Outgoing(s) == [];
    InitPipe();
    InitBooks(s.h);
    InitCounts(s.broker, s.h);
    InitIds(s.c.ledger);
    assert Farewell(s) && Control(s) && Logs(s) && CrashOk(s);
  }

  lemma InitIds(l: Ledger<Packet>)
    requires l == Fresh()
    ensures IdsOk(l, map[], Stopped)
  {
  }

  lemma Reachable(early: bool, steps: seq<Step>)
    requires IsRun(Init(early), steps)
    ensures Inv(After(Init(early), steps))
  {
    InitInv(early);
    RunKeepsInv(Init(early), steps);
  }

  lemma StepKeepsCrashOk(s: State, step: Step)
    requires Enabled(s, step) && Control(s) && Ids(s) && Pipe(s)
    ensures CrashOk(Apply(s, step))
  {
    match step {
      case ClaimID(p) => NextIdFailsIff(s.c.ledger.used, s.c.ledger.next);
      case HandlerTakes => AnswerFindsPacket(s);
      case _ =>
    }
  }

  lemma StepKeepsInv(s: State, step: Step)
    requires Enabled(s, step) && Inv(s)
    ensures Inv(Apply(s, step))
  {
    StepKeepsControl(s, step);
    StepKeepsLogs(s, step);
    StepKeepsFarewell(s, step);
    StepKeepsCrashOk(s, step);
    StepKeepsIds(s, step);
    StepKeepsPipe(s, step);
    StepKeepsBooks(s, step);
    StepKeepsSound(s, step);
    StepKeepsOnce(s, step);
    StepKeepsSent(s, step);
    StepKeepsOrdered(s, step);
  }

  lemma {:induction false} RunKeepsInv(s: State, steps: seq<Step>)
    requires Inv(s) && IsRun(s, steps)
    ensures Inv(After(s, steps))
    decreases |steps|
  {
    if steps != [] {
      StepKeepsInv(s, steps[0]);
      RunKeepsInv(Apply(s, steps[0]), steps[1..]);
    }
  }

  // ---- identifiers and panics ---------------------------------------------------------------

  ghost function ClaimedIds(callers: map<nat, Caller>): set<int> {
    set p | p in callers && callers[p].Claimed? :: callers[p].id
  }

  ghost function ClearingIds(h: Handler): set<int> {
    if h.Busy? && h.todo.Clear? then {h.todo.id} else {}
  }

  lemma MembersOfIds(s: State, id: int)
    ensures id in ClaimedIds(s.callers) <==> exists p :: Claims(s.callers, p, id)
    ensures id in ListedIds(s.c.ledger.waiting) <==> Get(s.c.ledger.waiting, id).Some?
    ensures id in ClearingIds(s.handler) <==> Clearing(s.handler, id)
  {
    if id in ClaimedIds(s.callers) {
      var p :| p in s.callers && s.callers[p].Claimed? && s.callers[p].id == id;
      assert Claims(s.callers, p, id);
    }
    ListedIff(s.c.ledger.waiting, id);
  }

  ghost predicate Accounted(s: State) {
    var claimed, listed, clearing := ClaimedIds(s.callers), ListedIds(s.c.ledger.waiting), ClearingIds(s.handler);
    && s.c.ledger.used == claimed + listed + clearing && s.c.ledger.used <= AllIds()
    && claimed !! listed && claimed !! clearing && listed !! clearing
    && DistinctIds(s.c.ledger.waiting)
    && forall p, q, id :: Claims(s.callers, p, id) && Claims(s.callers, q, id) ==> p == q
  }

  lemma IdsGiveAccount(s: State)
    requires Ids(s)
    ensures Accounted(s)
  {
    var claimed, listed, clearing := ClaimedIds(s.callers), ListedIds(s.c.ledger.waiting), ClearingIds(s.handler);
    forall id
      ensures id in s.c.ledger.used <==> id in claimed || id in listed || id in clearing
      ensures !(id in claimed && id in listed) && !(id in claimed && id in clearing)
      ensures !(id in listed && id in clearing)
    {
      MembersOfIds(s, id);
    }
  }

  /** The set bits are claimed, listed or about to be cleared, and never two of these. */
  lemma IdsAreAccountedFor(early: bool, steps: seq<Step>)
    requires IsRun(Init(early), steps)
    ensures Accounted(After(Init(early), steps))
  {
    Reachable(early, steps);
    IdsGiveAccount(After(Init(early), steps));
  }

  /** Whatever the interleaving, a claim hands out an identifier nobody is using. */
  lemma ClaimIsFresh(early: bool, steps: seq<Step>, p: nat)
    requires IsRun(Init(early), steps) && Enabled(After(Init(early), steps), ClaimID(p))
    ensures var s := After(Init(early), steps);
            var t := Apply(s, ClaimID(p));
            t.crash.None? ==>
              && t.callers[p].Claimed? && t.callers[p].id in AllIds() - s.c.ledger.used
              && Get(s.c.ledger.waiting, t.callers[p].id).None?
              && forall q :: q != p ==> !Claims(t.callers, q, t.callers[p].id)
  {
    Reachable(early, steps);
    var s := After(Init(early), steps);
    var t := Apply(s, ClaimID(p));
    NextIdIsFirstFree(s.c.ledger.used, s.c.ledger.next);
    if t.crash.None? {
      ChangedCaller(s.callers, p, t.callers[p], t.callers);
    }
  }

  /** No run panics on an answer, on a closed channel, or loses the list; claims may run dry. */
  lemma NoPanic(early: bool, steps: seq<Step>)
    requires IsRun(Init(early), steps)
    ensures var s := After(Init(early), steps);
            && (s.crash.Some? ==> s.crash == Some(NoFreeID) && |s.c.ledger.used| >= 65534)
            && (s.net.replies != [] ==> Find(s.c.ledger, s.net.replies[0].id) == Found)
  {
    Reachable(early, steps);
    var s := After(Init(early), steps);
    if s.net.replies != [] {
      AnswerFindsPacket(s);
    }
    if s.crash.Some? && |s.c.ledger.used| < 65534 {
      NextIdFailsIff(s.c.ledger.used, s.c.ledger.next);
      NextIdCapacity(s.c.ledger.used, s.c.ledger.next);
      assert false;
    }
  }

  // ---- conservation and delivery ---------------------------------------------------------------

  /** Every registered message is waiting, completed or abandoned: in one of these, once. */
  lemma Conservation(early: bool, steps: seq<Step>)
    requires IsRun(Init(early), steps)
    ensures var s := After(Init(early), steps);
            var places := multiset(MessagesOf(s.c.ledger.waiting)) + multiset(s.h.completed) + multiset(s.h.abandoned);
            && (forall m :: m in s.h.accepted ==> places[m] == 1)
            && (forall m :: m !in s.h.accepted ==> places[m] == 0)
            && (forall m :: m in s.h.accepted ==> multiset(s.h.accepted)[m] == 1)
  {
    Reachable(early, steps);
    var s := After(Init(early), steps);
    forall m ensures m in s.h.accepted <==> multiset(s.h.accepted)[m] == 1 {
      assert m in multiset(s.h.accepted) <==> m in s.h.accepted;
    }
  }

  ghost predicate IsClean(step: Step) {
    (step.Connect? || step.ConnectFails?) && step.clean
  }

  lemma {:induction false} AbandonedOnlyByClean(s: State, steps: seq<Step>)
    requires IsRun(s, steps) && forall i :: 0 <= i < |steps| ==> !IsClean(steps[i])
    ensures After(s, steps).h.abandoned == s.h.abandoned
    decreases |steps|
  {
    if steps != [] {
      assert !IsClean(steps[0]);
      AbandonedOnlyByClean(Apply(s, steps[0]), steps[1..]);
    }
  }

  /** Without clean connects nothing is abandoned: what is not completed is still waiting. */
  lemma NothingLost(early: bool, steps: seq<Step>, m: Message)
    requires IsRun(Init(early), steps) && forall i :: 0 <= i < |steps| ==> !IsClean(steps[i])
    ensures var s := After(Init(early), steps);
            m in s.h.accepted ==> (m in s.h.completed) != (m in MessagesOf(s.c.ledger.waiting))
  {
    AbandonedOnlyByClean(Init(early), steps);
    Conservation(early, steps);
    var s := After(Init(early), steps);
    assert multiset(s.h.abandoned)[m] == 0;
    assert m in multiset(s.h.completed) <==> m in s.h.completed;
    assert m in multiset(MessagesOf(s.c.ledger.waiting)) <==> m in MessagesOf(s.c.ledger.waiting);
  }

  /** A message of QoS 1 is completed only if the receiver has delivered it, with any receiver. */
  lemma AtLeastOnceDelivery(early: bool, steps: seq<Step>)
    requires IsRun(Init(early), steps)
    ensures var s := After(Init(early), steps);
            forall m :: m in s.h.completed && m.qos.AtLeastOnce? ==> m in s.broker.delivered
  {
    Reachable(early, steps);
  }

  ghost predicate ExactlyOnceSoFar(s: State) {
    Tally(s.broker.delivered, s.h.completed, s.h.epoch)
  }

  lemma InvGivesExactlyOnce(s: State)
    requires Inv(s) && !s.h.exposed
    ensures ExactlyOnceSoFar(s)
  {
    if s.h.intact {
      IntactTally(s);
    }
  }

  /**
   * At most once always, and exactly once by completion, until a session is resumed while
   * receiver and ledger disagree. SessionLoss says when they come to disagree. An accepted clean
   * connect then opens a new epoch, and the messages begun since have the promise again.
   */
  lemma ExactlyOnceDelivery(early: bool, steps: seq<Step>)
    requires IsRun(Init(early), steps)
    ensures !After(Init(early), steps).h.exposed ==> ExactlyOnceSoFar(After(Init(early), steps))
  {
    Reachable(early, steps);
    if !After(Init(early), steps).h.exposed {
      InvGivesExactlyOnce(After(Init(early), steps));
    }
  }

  /**
   * The receiver still has the session that is resumed, and has seen the clean start. Of a
   * failed attempt a caller cannot tell; Prudent is what it can.
   */
  ghost predicate SessionKept(step: Step) {
    && (step.Connect? ==> step.clean || !step.discard)
    && (step.ConnectFails? ==> if step.clean then step.seen else !step.discard)
  }

  lemma {:induction false} KeptSessionsStayIntact(s: State, steps: seq<Step>)
    requires IsRun(s, steps) && forall i :: 0 <= i < |steps| ==> SessionKept(steps[i])
    requires s.h.intact && !s.h.exposed
    ensures After(s, steps).h.intact && !After(s, steps).h.exposed && After(s, steps).h.epoch == s.h.epoch
    decreases |steps|
  {
    if steps != [] {
      assert SessionKept(steps[0]);
      KeptSessionsStayIntact(Apply(s, steps[0]), steps[1..]);
    }
  }

  /**
   * What a caller can see to: no session is resumed after a failed attempt without a clean
   * connect in between, and every session resumed is reported present (section 3.2.2.2).
   * `doubt`: an attempt has failed since the last connect.
   */
  predicate Prudent(steps: seq<Step>, doubt: bool) {
    steps == [] ||
    match steps[0]
    case Connect(clean, discard, _, _) => (clean || (!doubt && !discard)) && Prudent(steps[1..], false)
    case ConnectFails(_, _, _, _, _) => Prudent(steps[1..], true)
    case _ => Prudent(steps[1..], doubt)
  }

  lemma {:induction false} PrudentIsNotExposed(s: State, steps: seq<Step>, doubt: bool)
    requires IsRun(s, steps) && Prudent(steps, doubt)
    requires !s.h.exposed && (doubt || s.h.intact)
    ensures !After(s, steps).h.exposed && After(s, steps).h.epoch == s.h.epoch
    decreases |steps|
  {
    if steps != [] {
      var step := steps[0];
      PrudentIsNotExposed(
        Apply(s, step), steps[1..], if step.Connect? then false else if step.ConnectFails? then true else doubt);
    }
  }

  /** A prudent caller gets exactly-once delivery, whatever its failed attempts met. */
  lemma PrudenceSuffices(early: bool, steps: seq<Step>)
    requires IsRun(Init(early), steps) && Prudent(steps, false)
    ensures var t := After(Init(early), steps);
            Tally(t.broker.delivered, t.h.completed, 0)
  {
    PrudentIsNotExposed(Init(early), steps, false);
    ExactlyOnceDelivery(early, steps);
  }

  /**
   * And one who was not has it for all messages begun since the next accepted clean connect,
   * after whatever run.
   */
  lemma CleanStartsAnew(early: bool, steps: seq<Step>, ack: bool, comp: bool, rest: seq<Step>)
    requires IsRun(Init(early), steps) && Enabled(After(Init(early), steps), Connect(true, true, ack, comp))
    requires IsRun(Apply(After(Init(early), steps), Connect(true, true, ack, comp)), rest) && Prudent(rest, false)
    ensures var s := After(Init(early), steps);
            var t := After(Apply(s, Connect(true, true, ack, comp)), rest);
            Tally(t.broker.delivered, t.h.completed, s.h.serial)
  {
    Reachable(early, steps);
    EpochHolds(After(Init(early), steps), Connect(true, true, ack, comp), rest);
  }

  lemma EpochHolds(s: State, step: Step, rest: seq<Step>)
    requires Inv(s) && step.Connect? && step.clean && Enabled(s, step)
    requires IsRun(Apply(s, step), rest) && Prudent(rest, false)
    ensures var t := After(Apply(s, step), rest);
            Tally(t.broker.delivered, t.h.completed, s.h.serial)
  {
    var u := Apply(s, step);
    StepKeepsInv(s, step);
    PrudentIsNotExposed(u, rest, false);
    RunKeepsInv(u, rest);
    InvGivesExactlyOnce(After(u, rest));
    assert u.h.epoch <= s.h.serial;
  }

  /** The link can lose any end of what it carries, in either direction, whenever it is up. */
  lemma AnyLossIsPossible(s: State, k: nat, r: nat)
    requires s.crash.None? && 0 <= s.c.ledger.next <= MAX_ID
    requires s.net.up && k <= |s.net.wire| && r <= |s.net.replies|
    ensures exists step ::
              && Enabled(s, step) && !IsAttempt(step)
              && Apply(s, step) == s.(net := Net(false, s.net.wire[..k], s.net.replies[..r]))
  {
    var step := LinkFails(k, r);
    assert Enabled(s, step);
    assert Apply(s, step) == s.(net := Net(false, s.net.wire[..k], s.net.replies[..r]));
  }

  // ---- ignored answers -----------------------------------------------------------------------------

  ghost predicate IsAttempt(step: Step) {
    step.Connect? || step.ConnectFails?
  }

  lemma {:induction false} FlagsLast(s: State, steps: seq<Step>)
    requires IsRun(s, steps) && forall i :: 0 <= i < |steps| ==> !IsAttempt(steps[i])
    ensures After(s, steps).c.ignorePubAck == s.c.ignorePubAck && After(s, steps).c.ignorePubComp == s.c.ignorePubComp
    decreases |steps|
  {
    if steps != [] {
      assert !IsAttempt(steps[0]);
      FlagsLast(Apply(s, steps[0]), steps[1..]);
    }
  }

  /** What the two flags of an attempt decide from there on, up to the next attempt. */
  ghost predicate FlagsRule(s: State, step: Step, rest: seq<Step>)
    requires Enabled(s, step)
  {
    IsAttempt(step) && IsRun(Apply(s, step), rest) && (forall i :: 0 <= i < |rest| ==> !IsAttempt(rest[i])) ==>
      var t := After(Apply(s, step), rest);
      Enabled(t, HandlerTakes) ==>
        (Apply(t, HandlerTakes).c.ledger == t.c.ledger <==>
           if t.net.replies[0].kind.PubComp? then step.ignorePubComp else step.ignorePubAck)
  }

  /**
   * From an attempt to connect, accepted or not, to the next: taking a PUBACK or PUBREC leaves
   * the ledger as it is exactly if the first flag was given, and taking a PUBCOMP exactly if
   * the second was.
   */
  lemma FlagsDecide(early: bool, steps: seq<Step>, step: Step, rest: seq<Step>)
    requires IsRun(Init(early), steps) && Enabled(After(Init(early), steps), step)
    ensures FlagsRule(After(Init(early), steps), step, rest)
  {
    Reachable(early, steps);
    FlagsSince(After(Init(early), steps), step, rest);
  }

  lemma FlagsSince(s: State, step: Step, rest: seq<Step>)
    requires Inv(s) && Enabled(s, step)
    ensures FlagsRule(s, step, rest)
  {
    if IsAttempt(step) && IsRun(Apply(s, step), rest) && forall i :: 0 <= i < |rest| ==> !IsAttempt(rest[i]) {
      StepKeepsInv(s, step);
      FlagsSet(s, step);
      if Enabled(After(Apply(s, step), rest), HandlerTakes) {
        FlagsHold(Apply(s, step), rest);
      }
    }
  }

  lemma FlagsSet(s: State, step: Step)
    requires Enabled(s, step) && IsAttempt(step)
    ensures Apply(s, step).c.ignorePubAck == step.ignorePubAck && Apply(s, step).c.ignorePubComp == step.ignorePubComp
  {
  }

  lemma FlagsHold(u: State, rest: seq<Step>)
    requires Inv(u) && IsRun(u, rest) && (forall i :: 0 <= i < |rest| ==> !IsAttempt(rest[i]))
    requires Enabled(After(u, rest), HandlerTakes)
    ensures var t := After(u, rest);
            Apply(t, HandlerTakes).c.ledger == t.c.ledger <==>
              if t.net.replies[0].kind.PubComp? then u.c.ignorePubComp else u.c.ignorePubAck
  {
    RunKeepsInv(u, rest);
    FlagsLast(u, rest);
    TakingChangesLedger(After(u, rest));
  }

  lemma TakingChangesLedger(s: State)
    requires Ids(s) && Pipe(s) && Enabled(s, HandlerTakes)
    ensures DoTake(s).c.ledger == s.c.ledger <==>
              if s.net.replies[0].kind.PubComp? then s.c.ignorePubComp else s.c.ignorePubAck
  {
    AnswerFindsPacket(s);
    var a, w := s.net.replies[0], s.c.ledger.waiting;
    var k := IndexOf(w, a.id);
    assert Fits(a, w[k].msg);
    assert |Without(w, a.id)| < |w|;
    assert With(w, a.id, ReleaseOf(s, a.id))[k].msg == ReleaseOf(s, a.id);
  }

  // ---- order --------------------------------------------------------------------------------------

  /** A packet of this identifier on a resumed connection. */
  ghost predicate Resent(p: Packet, id: int) {
    && HasId(p) && IdOf(p) == id && 1 <= id <= MAX_ID
    && (p.Publish? ==> p.dup && !p.m.qos.AtMostOnce?)
    && (p.PubRel? ==> p.m.qos.ExactlyOnce?)
  }

  /** A message is registered and neither completed nor given up. */
  ghost predicate Open(h: History, m: Message) {
    m in h.accepted && m !in h.completed && m !in h.abandoned
  }

  /**
   * After every run, a resumed connection starts with one packet for each identifier that
   * waits, in list order, DUP set on each PUBLISH; they carry exactly the unfinished messages.
   */
  lemma ResendIsTheLedger(early: bool, steps: seq<Step>, discard: bool, ack: bool, comp: bool)
    requires IsRun(Init(early), steps) && Enabled(After(Init(early), steps), Connect(false, discard, ack, comp))
    ensures var s := After(Init(early), steps);
            var t := Apply(s, Connect(false, discard, ack, comp));
            var wire := t.net.wire;
            && t.c.ledger == s.c.ledger && |wire| == |s.c.ledger.waiting|
            && (forall i :: 0 <= i < |wire| ==> Resent(wire[i], s.c.ledger.waiting[i].id))
            && (forall i, j :: 0 <= i < j < |wire| ==>
                                 IdOf(wire[i]) != IdOf(wire[j]) && MessageOf(wire[i]) != MessageOf(wire[j]))
            && (forall m :: Open(s.h, m) <==> exists i :: 0 <= i < |wire| && MessageOf(wire[i]) == m)
  {
    Reachable(early, steps);
    var s := After(Init(early), steps);
    ResentPackets(s);
    ResentMessages(s);
  }

  lemma ResentPackets(s: State)
    requires Ids(s) && Pipe(s)
    ensures var w := s.c.ledger.waiting;
            && (forall i :: 0 <= i < |w| ==> Resent(Resend(w)[i], w[i].id))
            && (forall i, j :: 0 <= i < j < |w| ==> IdOf(Resend(w)[i]) != IdOf(Resend(w)[j]))
  {
    var w := s.c.ledger.waiting;
    forall i | 0 <= i < |w| ensures Resent(Resend(w)[i], w[i].id) {
      GetAt(w, i);
      assert WellFormed(w[i].id, w[i].msg);
    }
  }

  lemma ResentMessages(s: State)
    requires Ids(s) && Books(s)
    ensures var wire := Resend(s.c.ledger.waiting);
            && (forall i, j :: 0 <= i < j < |wire| ==> MessageOf(wire[i]) != MessageOf(wire[j]))
            && (forall m :: Open(s.h, m) <==> exists i :: 0 <= i < |wire| && MessageOf(wire[i]) == m)
  {
    var w := s.c.ledger.waiting;
    var wire, ms := Resend(w), MessagesOf(w);
    forall i | 0 <= i < |w| ensures Pends(w, w[i].id, ms[i]) && MessageOf(wire[i]) == ms[i] {
      GetAt(w, i);
    }
    forall m ensures Open(s.h, m) <==> exists i :: 0 <= i < |wire| && MessageOf(wire[i]) == m {
      PendsListed(w, m);
      assert m in multiset(s.h.accepted) <==> m in s.h.accepted;
      assert m in multiset(s.h.completed) <==> m in s.h.completed;
      assert m in multiset(s.h.abandoned) <==> m in s.h.abandoned;
      assert m in multiset(ms) <==> m in ms;
      if m in ms {
        var i :| 0 <= i < |ms| && ms[i] == m;
        assert MessageOf(wire[i]) == m;
      }
    }
  }

  /** What has been queued stays at the head of what will have been. */
  lemma {:induction false} FirstsGrow(s: State, steps: seq<Step>)
    requires IsRun(s, steps)
    ensures s.h.firsts <= After(s, steps).h.firsts
    decreases |steps|
  {
    if steps != [] {
      FirstsGrow(Apply(s, steps[0]), steps[1..]);
    }
  }

  /** In the list, the message comes before all with this serial number or a later one. */
  ghost predicate Ahead(w: seq<Entry<Packet>>, x: Message, serial: nat) {
    forall i, j :: 0 <= i < |w| && 0 <= j < |w| && MessageOf(w[i].msg) == x && MessageOf(w[j].msg).serial >= serial ==>
                     i < j
  }

  /** And of those none is among the first `n` to be queued. */
  ghost predicate LaterQueued(firsts: seq<Message>, n: nat, serial: nat) {
    n <= |firsts| && forall k :: 0 <= k < n ==> firsts[k].serial < serial
  }

  lemma AheadWithout(w: seq<Entry<Packet>>, k: nat, x: Message, serial: nat)
    requires k < |w| && Ahead(w, x, serial)
    ensures Ahead(w[..k] + w[k + 1..], x, serial)
  {
    var w' := w[..k] + w[k + 1..];
    forall i | 0 <= i < |w'| ensures w'[i] == w[if i < k then i else i + 1] {
    }
  }

  lemma AheadWith(w: seq<Entry<Packet>>, id: int, p: Packet, x: Message, serial: nat)
    requires Listed(w, id) && MessageOf(p) == MessageOf(w[IndexOf(w, id)].msg) && Ahead(w, x, serial)
    ensures Ahead(With(w, id, p), x, serial)
  {
    var w' := With(w, id, p);
    assert forall i :: 0 <= i < |w'| ==> MessageOf(w'[i].msg) == MessageOf(w[i].msg);
  }

  lemma TakeKeepsAhead(s: State, x: Message, serial: nat)
    requires Enabled(s, HandlerTakes) && Ids(s) && Pipe(s) && Ahead(s.c.ledger.waiting, x, serial)
    ensures Ahead(DoTake(s).c.ledger.waiting, x, serial)
  {
    var w, id := s.c.ledger.waiting, s.net.replies[0].id;
    AnswerFindsPacket(s);
    AheadWithout(w, IndexOf(w, id), x, serial);
    AheadWith(w, id, ReleaseOf(s, id), x, serial);
  }

  lemma StepKeepsAhead(s: State, step: Step, x: Message, serial: nat)
    requires Enabled(s, step) && Ids(s) && Pipe(s) && Books(s)
    requires x in s.h.accepted && x.serial < serial && Ahead(s.c.ledger.waiting, x, serial)
    ensures x in Apply(s, step).h.accepted && Ahead(Apply(s, step).c.ledger.waiting, x, serial)
  {
    match step {
      case RegisterPacket(p) => RegisterKeepsAhead(s, p, x, serial);
      case HandlerTakes => TakeKeepsAhead(s, x, serial);
      case _ => RestKeepsAhead(s, step, x, serial);
    }
  }

  lemma RegisterKeepsAhead(s: State, p: nat, x: Message, serial: nat)
    requires Enabled(s, RegisterPacket(p)) && Books(s)
    requires x in s.h.accepted && Ahead(s.c.ledger.waiting, x, serial)
    ensures Ahead(DoRegister(s, p).c.ledger.waiting, x, serial)
  {
    assert Offers(s.callers, p, s.callers[p].m);
  }

  lemma RestKeepsAhead(s: State, step: Step, x: Message, serial: nat)
    requires Enabled(s, step) && !step.RegisterPacket? && !step.HandlerTakes?
    requires x in s.h.accepted && Ahead(s.c.ledger.waiting, x, serial)
    ensures x in Apply(s, step).h.accepted && Ahead(Apply(s, step).c.ledger.waiting, x, serial)
  {
    var t := Apply(s, step);
    assert t.h.accepted == s.h.accepted;
    assert t.c.ledger.waiting == s.c.ledger.waiting || t.c.ledger.waiting == [];
  }

  lemma {:induction false} RunKeepsAhead(s: State, steps: seq<Step>, x: Message, serial: nat)
    requires IsRun(s, steps) && Inv(s)
    requires x in s.h.accepted && x.serial < serial && Ahead(s.c.ledger.waiting, x, serial)
    ensures Ahead(After(s, steps).c.ledger.waiting, x, serial)
    decreases |steps|
  {
    if steps != [] {
      StepKeepsInv(s, steps[0]);
      StepKeepsAhead(s, steps[0], x, serial);
      RunKeepsAhead(Apply(s, steps[0]), steps[1..], x, serial);
    }
  }

  lemma QueuedIsAhead(s: State, x: Message)
    requires Ids(s) && Books(s) && Sent(s) && x in s.h.firsts
    ensures x in s.h.accepted && x.serial < s.h.serial && Ahead(s.c.ledger.waiting, x, s.h.serial)
    ensures LaterQueued(s.h.firsts, |s.h.firsts|, s.h.serial)
  {
    var w := s.c.ledger.waiting;
    forall j | 0 <= j < |w| ensures MessageOf(w[j].msg).serial < s.h.serial {
      GetAt(w, j);
      assert Pends(w, w[j].id, MessageOf(w[j].msg));
    }
  }

  /**
   * Resending in the order of first sending (section 4.6), for every two calls of which one
   * began after the other had queued its packet: as long as both packets wait, they wait in
   * that order, and they were first queued in it. Whatever other calls there are does not matter.
   */
  lemma ResendOrder(early: bool, before: seq<Step>, rest: seq<Step>, i: nat, j: nat)
    requires IsRun(Init(early), before) && IsRun(After(Init(early), before), rest)
    requires var s := After(Init(early), before);
             var w := After(s, rest).c.ledger.waiting;
             && i < |w| && j < |w|
             && MessageOf(w[i].msg) in s.h.firsts && MessageOf(w[j].msg).serial >= s.h.serial
    ensures i < j
    ensures var t := After(After(Init(early), before), rest);
            var x, y := MessageOf(t.c.ledger.waiting[i].msg), MessageOf(t.c.ledger.waiting[j].msg);
            y in t.h.firsts ==> SentBefore(t.h.firsts, x, y)
  {
    Reachable(early, before);
    var s := After(Init(early), before);
    OneAfterOther(s, rest, i, j);
  }

  lemma OneAfterOther(s: State, rest: seq<Step>, i: nat, j: nat)
    requires Inv(s) && IsRun(s, rest)
    requires var w := After(s, rest).c.ledger.waiting;
             && i < |w| && j < |w|
             && MessageOf(w[i].msg) in s.h.firsts && MessageOf(w[j].msg).serial >= s.h.serial
    ensures i < j
    ensures var t := After(s, rest);
            var x, y := MessageOf(t.c.ledger.waiting[i].msg), MessageOf(t.c.ledger.waiting[j].msg);
            y in t.h.firsts ==> SentBefore(t.h.firsts, x, y)
  {
    var t := After(s, rest);
    var x, y := MessageOf(t.c.ledger.waiting[i].msg), MessageOf(t.c.ledger.waiting[j].msg);
    QueuedIsAhead(s, x);
    RunKeepsAhead(s, rest, x, s.h.serial);
    FirstsGrow(s, rest);
    if y in t.h.firsts {
      var a :| 0 <= a < |s.h.firsts| && s.h.firsts[a] == x;
      var b :| 0 <= b < |t.h.firsts| && t.h.firsts[b] == y;
      assert t.h.firsts[a] == x && a < b;
    }
  }

  /** If calls with identifiers have not overlapped since the ledger was new, so do all pairs. */
  lemma SoloOrder(early: bool, steps: seq<Step>)
    requires IsRun(Init(early), steps) && After(Init(early), steps).h.solo
    ensures var s := After(Init(early), steps);
            InSendingOrder(MessagesOf(s.c.ledger.waiting), s.h.firsts)
  {
    Reachable(early, steps);
  }

  // ---- orderly disconnect ----------------------------------------------------------------------------

  ghost predicate Drained(t: State) {
    && t.h.written == t.h.enqueued && EndsInGoodbye(t.h.written) && t.c.queue == []
    && (t.net.up ==> t.h.sent == t.h.resent + t.h.written)
    && !t.c.status.Connected? && t.callers == map[]
  }

  /**
   * When a polite disconnect returns, everything queued on this connection has been written,
   * in order, DISCONNECT last; and if the link never failed, that is what the wire has carried.
   */
  lemma OrderlyDrain(early: bool, steps: seq<Step>)
    requires IsRun(Init(early), steps)
    requires Enabled(After(Init(early), steps), FinishDisconnect) && After(Init(early), steps).stage.polite
    ensures Drained(Apply(After(Init(early), steps), FinishDisconnect))
  {
    Reachable(early, steps);
    var s := After(Init(early), steps);
    assert s.h.written + [] == s.h.written;
  }

  /** Until the next connect, nothing more is ever queued. */
  lemma {:induction false} QuietUntilConnect(s: State, steps: seq<Step>)
    requires Control(s) && !s.c.status.Connected? && IsRun(s, steps)
    requires forall i :: 0 <= i < |steps| ==> !steps[i].Connect?
    ensures After(s, steps).h.enqueued == s.h.enqueued && After(s, steps).callers == map[]
    decreases |steps|
  {
    if steps != [] {
      StepKeepsControl(s, steps[0]);
      assert !steps[0].Connect?;
      QuietUntilConnect(Apply(s, steps[0]), steps[1..]);
    }
  }
}
