/**
 * The client of the delivery protocol, encoded, is the client of the session: every run of the
 * one is a sequence of sections of the other, and what arrives as answers can arrive as bytes.
 */
module Simulation {
  import opened Wrappers
  import opened PacketIds
  import opened Ledger
  import opened Messages
  import opened C = Client
  import opened Encoded
  import W = Wire
  import D = Delivery
  import I = Invariants
  import G = Guarantees
  import Framing

  // ---- the sections of a client -------------------------------------------------------------

  datatype Section<M> =
    | Preparing(clean: bool, ack: bool, comp: bool)
    | Accepting
    | Claiming
    | Registering(id: int, msg: M)
    | Enqueueing(msg: M)
    | Writing
    | Taking(kind: AckKind, id: int, release: M)
    | Finishing(pending: Pending<M>)
    | Closing
    | Leaving

  /** The panic on finding nothing leaves the client as it is. */
  function AfterClaim<M>(c: C.Client<M>): C.Client<M> {
    if 0 <= c.ledger.next <= MAX_ID && Claim(c.ledger).Some? then c.(ledger := Claim(c.ledger).value.0) else c
  }

  function Perform<M>(c: C.Client<M>, section: Section<M>): C.Client<M> {
    match section
    case Preparing(clean, ack, comp) => Prepare(c, clean, ack, comp)
    case Accepting => Accept(c)
    case Claiming => AfterClaim(c)
    case Registering(id, msg) => c.(ledger := Register(c.ledger, id, msg))
    case Enqueueing(msg) => Enqueue(c, msg).0
    case Writing => if c.queue == [] then c else c.(queue := c.queue[1..])
    case Taking(kind, id, release) => Take(c, kind, id, release).0
    case Finishing(pending) => Finish(c, pending).0
    case Closing => c.(open := false)
    case Leaving => c.(status := Disconnected)
  }

  function PerformAll<M>(c: C.Client<M>, sections: seq<Section<M>>): C.Client<M>
    decreases |sections|
  {
    if sections == [] then c else PerformAll(Perform(c, sections[0]), sections[1..])
  }

  lemma {:induction false} PerformBoth<M>(c: C.Client<M>, first: seq<Section<M>>, second: seq<Section<M>>)
    ensures PerformAll(c, first + second) == PerformAll(PerformAll(c, first), second)
    decreases |first|
  {
    if first == [] {
      assert first + second == second;
    } else {
      PerformBoth(Perform(c, first[0]), first[1..], second);
      assert (first + second)[1..] == first[1..] + second;
    }
  }

  function OfSection<M, N>(section: Section<M>, f: M -> N): Section<N> {
    match section
    case Preparing(clean, ack, comp) => Preparing(clean, ack, comp)
    case Accepting => Accepting
    case Claiming => Claiming
    case Registering(id, msg) => Registering(id, f(msg))
    case Enqueueing(msg) => Enqueueing(f(msg))
    case Writing => Writing
    case Taking(kind, id, release) => Taking(kind, id, f(release))
    case Finishing(pending) => Finishing(OfPending(pending, f))
    case Closing => Closing
    case Leaving => Leaving
  }

  function OfSections<M, N>(sections: seq<Section<M>>, f: M -> N): seq<Section<N>> {
    seq(|sections|, i requires 0 <= i < |sections| => OfSection(sections[i], f))
  }

  lemma PerformCommutes<M, N>(c: C.Client<M>, f: M -> N, section: Section<M>)
    ensures Perform(OfClient(c, f), OfSection(section, f)) == OfClient(Perform(c, section), f)
  {
    match section {
      case Preparing(clean, ack, comp) => ConnectCommutes(c, f, clean, ack, comp);
      case Accepting => ConnectCommutes(c, f, false, false, false);
      case Claiming =>
        if 0 <= c.ledger.next <= MAX_ID {
          ClaimCommutes(c.ledger, f);
        }
      case Registering(id, msg) => SameLedger(c.ledger, f, id, msg);
      case Enqueueing(msg) => EnqueueCommutes(c, f, msg);
      case Writing => assert c.queue != [] ==> Each(c.queue, f)[1..] == Each(c.queue[1..], f);
      case Taking(kind, id, release) => TakeCommutes(c, f, kind, id, release);
      case Finishing(pending) => FinishCommutes(c, f, pending);
      case _ =>
    }
  }

  lemma {:induction false} AllCommute<M, N>(c: C.Client<M>, f: M -> N, sections: seq<Section<M>>)
    ensures PerformAll(OfClient(c, f), OfSections(sections, f)) == OfClient(PerformAll(c, sections), f)
    decreases |sections|
  {
    if sections != [] {
      PerformCommutes(c, f, sections[0]);
      AllCommute(Perform(c, sections[0]), f, sections[1..]);
      assert OfSections(sections, f)[1..] == OfSections(sections[1..], f);
    }
  }

  // ---- the sections of a run -------------------------------------------------------------------

  /** What a step of the protocol asks of the client. */
  function SectionsOf(s: D.State, step: D.Step): seq<Section<D.Packet>>
    requires D.Enabled(s, step)
  {
    match step
    case Connect(clean, _, ack, comp) => [Preparing(clean, ack, comp), Accepting]
    case ConnectFails(clean, _, _, ack, comp) => [Preparing(clean, ack, comp)]
    case ClaimID(_) => [Claiming]
    case RegisterPacket(p) => [Registering(s.callers[p].id, D.Publish(s.callers[p].id, s.callers[p].m, false))]
    case EnqueuePacket(p) => [Enqueueing(s.callers[p].packet)]
    case SenderWrites => [Writing]
    case HandlerTakes =>
      var a := s.net.replies[0];
      [Taking(a.kind, a.id, D.ReleaseOf(s, a.id))]
    case HandlerFinishes => [Finishing(s.handler.todo)]
    case HandlerStops => if s.stage.polite then [] else [Closing]
    case EnqueueGoodbye => [Enqueueing(D.Goodbye), Closing]
    case FinishDisconnect => [Leaving]
    case _ => []
  }

  lemma StepIsSections(s: D.State, step: D.Step)
    requires D.Enabled(s, step) && I.Control(s)
    ensures PerformAll(s.c, SectionsOf(s, step)) == D.Apply(s, step).c
  {
    var sections := SectionsOf(s, step);
    if |sections| == 1 {
      PerformOne(s.c, sections[0]);
      OneSection(s, step);
    } else if |sections| == 2 {
      PerformOne(Perform(s.c, sections[0]), sections[1]);
      assert sections[1..] == [sections[1]];
      assert step.Connect? || step.EnqueueGoodbye?;
    }
  }

  lemma OneSection(s: D.State, step: D.Step)
    requires D.Enabled(s, step) && I.Control(s) && |SectionsOf(s, step)| == 1
    ensures Perform(s.c, SectionsOf(s, step)[0]) == D.Apply(s, step).c
  {
  }

  lemma PerformOne<M>(c: C.Client<M>, section: Section<M>)
    ensures PerformAll(c, [section]) == Perform(c, section)
  {
    assert [section][1..] == [];
  }

  function Trace(s: D.State, steps: seq<D.Step>): seq<Section<D.Packet>>
    requires D.IsRun(s, steps)
    decreases |steps|
  {
    if steps == [] then [] else SectionsOf(s, steps[0]) + Trace(D.Apply(s, steps[0]), steps[1..])
  }

  lemma {:induction false} RunIsSections(s: D.State, steps: seq<D.Step>)
    requires D.IsRun(s, steps) && I.Control(s)
    ensures PerformAll(s.c, Trace(s, steps)) == D.After(s, steps).c
    decreases |steps|
  {
    if steps != [] {
      StepIsSections(s, steps[0]);
      I.StepKeepsControl(s, steps[0]);
      RunIsSections(D.Apply(s, steps[0]), steps[1..]);
      PerformBoth(s.c, SectionsOf(s, steps[0]), Trace(D.Apply(s, steps[0]), steps[1..]));
    }
  }

  /**
   * Every run of the protocol is a run of the session's client on wire messages: the encoded
   * sections, one after the other from a new client, lead to the encoded client.
   */
  lemma RunIsEncoded(early: bool, steps: seq<D.Step>, content: D.Message -> Content)
    requires D.IsRun(D.Init(early), steps)
    ensures PerformAll(NewClient(), OfSections(Trace(D.Init(early), steps), Encoder(content))) ==
              OfClient(D.After(D.Init(early), steps).c, Encoder(content))
  {
    var s, f := D.Init(early), Encoder(content);
    assert OfClient(s.c, f) == NewClient() by {
      assert Entries([], f) == [] && Each([], f) == [];
    }
    RunIsSections(s, steps);
    AllCommute(s.c, f, Trace(s, steps));
  }

  /** Publishing with nothing in between is claiming, registering and queueing. */
  lemma PublishIsThreeSections<M>(c: C.Client<M>, message: int -> M)
    requires 0 <= c.ledger.next <= MAX_ID && Claim(c.ledger).Some? && |c.queue| < QUEUE_CAPACITY
    ensures var id := Claim(c.ledger).value.1;
            PerformAll(c, [Claiming, Registering(id, message(id)), Enqueueing(message(id))])
            == PublishWithID(c, message).0
  {
    var id := Claim(c.ledger).value.1;
    var c1 := Perform(c, Claiming);
    var c2 := Perform(c1, Registering(id, message(id)));
    var last := [Enqueueing(message(id))];
    PerformOne(c2, last[0]);
    assert [Registering(id, message(id)), last[0]][1..] == last;
    assert [Claiming, Registering(id, message(id)), last[0]][1..] == [Registering(id, message(id)), last[0]];
  }

  // ---- answers as bytes -----------------------------------------------------------------------

  function Answers(replies: seq<D.Answer>): (r: seq<GenericMessage>)
    ensures |r| == |replies|
    ensures forall i :: 0 <= i < |replies| ==> r[i] == W.AckMessage(replies[i].kind, replies[i].id)
  {
    seq(|replies|, i requires 0 <= i < |replies| => W.AckMessage(replies[i].kind, replies[i].id))
  }

  lemma RoomCommutes<M, N>(c: C.Client<M>, f: M -> N)
    ensures Room(OfClient(c, f)) == OfClient(Room(c), f)
  {
    assert c.queue != [] ==> Each(c.queue, f)[1..] == Each(c.queue[1..], f);
  }

  /** A handler whose queue is full waits until the sender has written. */
  function Unblocked(t: D.State): D.State {
    if t.handler.Busy? && t.handler.todo.Send? && |t.c.queue| >= QUEUE_CAPACITY then D.DoSend(t) else t
  }

  function Finished(t: D.State): D.State {
    if t.handler.Busy? then D.DoFinish(Unblocked(t)) else t
  }

  predicate AnswerWaits(s: D.State) {
    s.crash.None? && s.handler.Idle? && s.net.replies != []
  }

  lemma TakeIsAlive(s: D.State)
    requires G.Inv(s) && AnswerWaits(s)
    ensures var t := D.DoTake(s);
            && t.crash.None? && t.c.open && t.net.replies == s.net.replies[1..]
            && (t.handler.Idle? || t.handler.Busy?)
  {
    I.AnswerFindsPacket(s);
  }

  lemma UnblockedKeepsInv(t: D.State)
    requires G.Inv(t) && t.crash.None?
    ensures G.Inv(Unblocked(t))
  {
    if Unblocked(t) != t {
      G.StepKeepsInv(t, D.SenderWrites);
    }
  }

  lemma UnblockedIsReady(t: D.State)
    requires I.Control(t) && t.crash.None? && t.handler.Busy? && 0 <= t.c.ledger.next <= MAX_ID && t.c.open
    ensures var u := Unblocked(t);
            && D.Enabled(u, D.HandlerFinishes) && u.handler == t.handler && u.net.replies == t.net.replies
            && D.DoFinish(u).crash.None? && D.DoFinish(u).handler.Idle? && D.DoFinish(u).net.replies == t.net.replies
  {
  }

  lemma FinishedKeepsInv(t: D.State)
    requires G.Inv(t) && t.crash.None? && t.c.open && (t.handler.Idle? || t.handler.Busy?)
    ensures G.Inv(Finished(t)) && Finished(t).crash.None? && Finished(t).handler.Idle?
    ensures Finished(t).net.replies == t.net.replies
  {
    if t.handler.Busy? {
      UnblockedIsReady(t);
      UnblockedKeepsInv(t);
      G.StepKeepsInv(Unblocked(t), D.HandlerFinishes);
    }
  }

  /** The session's handler does with the encoded answer what the protocol does with the answer. */
  lemma AnswerCommutes(s: D.State, content: D.Message -> Content)
    requires G.Inv(s) && AnswerWaits(s)
    ensures var f, a := Encoder(content), s.net.replies[0];
            W.HandleMessage(OfClient(s.c, f), W.AckMessage(a.kind, a.id))
            == (OfClient(Finished(D.DoTake(s)).c, f), None)
  {
    var f, a := Encoder(content), s.net.replies[0];
    I.AnswerFindsPacket(s);
    W.AckIsUnderstood(a.kind, a.id);
    HandlingCommutes(s.c, f, a.kind, a.id, D.ReleaseOf(s, a.id));
    FinishedClient(s);
  }

  /** Both sections of an answer, with the sender first if the queue is full. */
  function HandledAnswer<M>(c: C.Client<M>, kind: AckKind, id: int, release: M): (C.Client<M>, Option<Failure>) {
    var (after, pending) := Take(c, kind, id, release);
    Finish(if pending.Send? then Room(after) else after, pending)
  }

  lemma HandlingCommutes<M>(c: C.Client<M>, f: M -> GenericMessage, kind: AckKind, id: int, release: M)
    requires f(release) == W.ReleaseMessage(id)
    ensures W.HandleAnswer(OfClient(c, f), kind, id) ==
              (OfClient(HandledAnswer(c, kind, id, release).0, f), HandledAnswer(c, kind, id, release).1)
  {
    var (after, pending) := Take(c, kind, id, release);
    TakeCommutes(c, f, kind, id, release);
    RoomCommutes(after, f);
    FinishCommutes(if pending.Send? then Room(after) else after, f, pending);
  }

  lemma FinishedClient(s: D.State)
    requires G.Inv(s) && AnswerWaits(s)
    ensures var a := s.net.replies[0];
            HandledAnswer(s.c, a.kind, a.id, D.ReleaseOf(s, a.id)) == (Finished(D.DoTake(s)).c, None)
  {
    I.AnswerFindsPacket(s);
    TakeIsAlive(s);
  }

  /** None of the answers the receiver has under way kills the handler. */
  lemma {:induction false} NoAnswerKills(
    s: D.State, content: D.Message -> Content, c: C.Client<GenericMessage>, ms: seq<GenericMessage>, k: nat)
    requires G.Inv(s) && s.crash.None? && s.handler.Idle? && k <= |s.net.replies|
    requires c == OfClient(s.c, Encoder(content)) && ms == Answers(s.net.replies[..k])
    ensures W.HandleAll(c, ms).1 == None
    decreases k
  {
    if k > 0 {
      var u, after := AnswerStep(s, content, c);
      AnswersRest(s.net.replies, k);
      NoAnswerKills(u, content, after, ms[1..], k - 1);
      HandlesFirst(c, ms, after);
    }
  }

  lemma AnswersRest(replies: seq<D.Answer>, k: nat)
    requires 0 < k <= |replies|
    ensures Answers(replies[..k])[1..] == Answers(replies[1..][..k - 1])
    ensures Answers(replies[..k])[0] == W.AckMessage(replies[0].kind, replies[0].id)
  {
  }

  lemma HandlesFirst(c: C.Client<GenericMessage>, ms: seq<GenericMessage>, after: C.Client<GenericMessage>)
    requires ms != [] && W.HandleMessage(c, ms[0]) == (after, None)
    ensures W.HandleAll(c, ms) == W.HandleAll(after, ms[1..])
  {
  }

  lemma AnswerStep(s: D.State, content: D.Message -> Content, c: C.Client<GenericMessage>)
    returns (u: D.State, after: C.Client<GenericMessage>)
    requires G.Inv(s) && AnswerWaits(s) && c == OfClient(s.c, Encoder(content))
    ensures G.Inv(u) && u.crash.None? && u.handler.Idle? && u.net.replies == s.net.replies[1..]
    ensures after == OfClient(u.c, Encoder(content))
    ensures W.HandleMessage(c, W.AckMessage(s.net.replies[0].kind, s.net.replies[0].id)) == (after, None)
  {
    AnswerCommutes(s, content);
    TakeIsAlive(s);
    G.StepKeepsInv(s, D.HandlerTakes);
    FinishedKeepsInv(D.DoTake(s));
    u := Finished(D.DoTake(s));
    after := OfClient(u.c, Encoder(content));
  }

  /** Cutting a stream of answers, each of four bytes, cuts one of them. */
  lemma {:induction false} CutAnswers(acks: seq<D.Answer>, n: nat)
    requires n < |Framing.Stream(Answers(acks))|
    ensures |Framing.Stream(Answers(acks))| == 4 * |acks|
    ensures n / 4 < |acks|
    ensures var a := acks[n / 4];
            && |Framing.Frame(W.AckMessage(a.kind, a.id))| == 4
            && Framing.Stream(Answers(acks))[..n] ==
                 Framing.Stream(Answers(acks[..n / 4])) + Framing.Frame(W.AckMessage(a.kind, a.id))[..n % 4]
  {
    var ms, a := Answers(acks), acks[0];
    var frame, rest := Framing.Frame(ms[0]), Framing.Stream(ms[1..]);
    assert |frame| == 4 && ms[1..] == Answers(acks[1..]);
    CutFrames(frame, rest, n);
    if n < 4 {
      assert Answers(acks[..0]) == [] && Framing.Stream([]) == [];
      AnswersSize(acks[1..]);
    } else {
      CutAnswers(acks[1..], n - 4);
      FourLess(n);
      assert Answers(acks[..n / 4])[1..] == Answers(acks[1..][..n / 4 - 1]);
    }
  }

  lemma FourLess(n: nat)
    requires n >= 4
    ensures (n - 4) / 4 == n / 4 - 1 && (n - 4) % 4 == n % 4
  {
  }

  lemma CutFrames(frame: seq<byte>, rest: seq<byte>, n: nat)
    requires |frame| == 4 && n <= 4 + |rest|
    ensures n < 4 ==> (frame + rest)[..n] == [] + frame[..n]
    ensures n >= 4 ==> (frame + rest)[..n] == frame + rest[..n - 4]
  {
  }

  lemma {:induction false} AnswersSize(acks: seq<D.Answer>)
    ensures |Framing.Stream(Answers(acks))| == 4 * |acks|
  {
    if acks != [] {
      assert Answers(acks)[1..] == Answers(acks[1..]);
      AnswersSize(acks[1..]);
    }
  }

  /**
   * After every run that leaves the client alive and its handler waiting, let the link carry the
   * first `n` bytes of the answers under way and then fail: the handler panics exactly when it
   * fails one byte into an answer, and never over what an answer says.
   */
  lemma PanicIffCutAfterOneByte(early: bool, steps: seq<D.Step>, content: D.Message -> Content, n: nat)
    requires D.IsRun(D.Init(early), steps)
    requires var s := D.After(D.Init(early), steps);
             s.crash.None? && s.handler.Idle? && n <= |Framing.Stream(Answers(s.net.replies))|
    ensures var s := D.After(D.Init(early), steps);
            var bytes := Framing.Stream(Answers(s.net.replies))[..n];
            W.HandleAll(OfClient(s.c, Encoder(content)), Framing.ReadAll(bytes)).1
            == if n % 4 == 1 then Some(W.WrongLength) else None
  {
    G.Reachable(early, steps);
    PanicIffCut(D.After(D.Init(early), steps), content, n);
  }

  lemma PanicIffCut(s: D.State, content: D.Message -> Content, n: nat)
    requires G.Inv(s) && s.crash.None? && s.handler.Idle? && n <= |Framing.Stream(Answers(s.net.replies))|
    ensures var bytes := Framing.Stream(Answers(s.net.replies))[..n];
            W.HandleAll(OfClient(s.c, Encoder(content)), Framing.ReadAll(bytes)).1
            == if n % 4 == 1 then Some(W.WrongLength) else None
  {
    var acks := s.net.replies;
    var stream := Framing.Stream(Answers(acks));
    AnswersSize(acks);
    if n == |stream| {
      assert acks[..|acks|] == acks && stream[..n] == stream;
      NoAnswerKills(s, content, OfClient(s.c, Encoder(content)), Answers(acks), |acks|);
      Framing.StreamRoundTrip(Answers(acks));
    } else {
      CutAnswers(acks, n);
      NoAnswerKills(s, content, OfClient(s.c, Encoder(content)), Answers(acks[..n / 4]), n / 4);
      var a := acks[n / 4];
      AnswerIds(s, n / 4);
      W.CutAnswer(OfClient(s.c, Encoder(content)), Answers(acks[..n / 4]), a.kind, a.id, n % 4);
    }
  }

  lemma AnswerIds(s: D.State, k: nat)
    requires I.Ids(s) && I.Matching(s) && k < |s.net.replies|
    ensures 1 <= s.net.replies[k].id <= MAX_ID
  {
  }
}
