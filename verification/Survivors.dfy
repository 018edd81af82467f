/**
 * The program as it is: a handler told to stop lives on, and goes on taking the answers of its
 * own connection, also after the next connect. A state is that of the protocol with the answers
 * that such handlers may still take. When taking one is fatal is settled here, after every run.
 */
module Survivors {
  import opened Wrappers
  import opened PacketIds
  import opened Ledger
  import opened Client
  import opened Delivery
  import opened Invariants
  import opened Guarantees
  import opened SessionLoss
  import opened Completion

  /**
   * `left`: answers of the last connection, of which no ledger has been replaced and no packet
   * resent since. `earlier`: those of each earlier one. `todo`: what a survivor that has taken an
   * answer has still to do. `meddled`: one has taken an answer it did not ignore. The history
   * of the protocol does not record what survivors do.
   */
  datatype World = World(s: State, left: seq<Answer>, earlier: seq<seq<Answer>>, todo: Pending<Packet>, meddled: bool)

  datatype Move = Ordinary(step: Step) | TakesLeft | TakesEarlier(i: nat) | LateFinishes

  function Start(early: bool): World {
    World(Init(early), [], [], Nothing, false)
  }

  /** What a handler that has stopped has not taken. */
  function Untaken(x: World): seq<Answer> {
    x.s.net.replies + x.left
  }

  predicate MayMove(x: World, move: Move) {
    x.s.crash.None? &&
    match move
    case Ordinary(step) => Enabled(x.s, step)
    case TakesLeft => x.s.handler.Stopped? && x.todo.Nothing? && Untaken(x) != []
    case TakesEarlier(i) => x.todo.Nothing? && i < |x.earlier| && x.earlier[i] != []
    case LateFinishes =>
      match x.todo
      case Clear(_) => true
      case Send(_) => x.s.c.open ==> |x.s.c.queue| < QUEUE_CAPACITY
      case _ => false
  }

  /** The answer that a survivor would take. */
  function Taken(x: World, move: Move): Answer
    requires MayMove(x, move) && (move.TakesLeft? || move.TakesEarlier?)
  {
    if move.TakesLeft? then Untaken(x)[0] else x.earlier[move.i][0]
  }

  /** A connect makes survivors of what was untaken; a failed resumption leaves it as it was. */
  function MoveOrdinary(x: World, step: Step): World
    requires Enabled(x.s, step)
  {
    var t := Apply(x.s, step);
    if step.Connect? || (step.ConnectFails? && step.clean) then
      x.(s := t, left := [], earlier := x.earlier + [Untaken(x)])
    else if step.ConnectFails? then x.(s := t, left := Untaken(x))
    else x.(s := t)
  }

  function MoveTakes(x: World, move: Move): World
    requires MayMove(x, move) && (move.TakesLeft? || move.TakesEarlier?)
  {
    var a := Taken(x, move);
    var (c, pending) := Take(x.s.c, a.kind, a.id, ReleaseOf(x.s, a.id));
    var crash := if pending.Fail? then Some(pending.failure) else None;
    var y := x.(todo := if pending.Fail? then Nothing else pending, meddled := x.meddled || !pending.Nothing?);
    if move.TakesEarlier? then
      y.(s := x.s.(c := c, crash := crash), earlier := x.earlier[move.i := x.earlier[move.i][1..]])
    else
      y.(s := x.s.(c := c, crash := crash,
                   net := x.s.net.(replies := if x.s.net.replies == [] then [] else x.s.net.replies[1..])),
         left := if x.s.net.replies == [] then x.left[1..] else x.left)
  }

  function MoveFinishes(x: World): World
    requires MayMove(x, LateFinishes)
  {
    var (c, failure) := Finish(x.s.c, x.todo);
    x.(s := x.s.(c := c, crash := failure), todo := Nothing)
  }

  function Go(x: World, move: Move): World
    requires MayMove(x, move)
  {
    match move
    case Ordinary(step) => MoveOrdinary(x, step)
    case LateFinishes => MoveFinishes(x)
    case _ => MoveTakes(x, move)
  }

  predicate IsPath(x: World, moves: seq<Move>)
    decreases |moves|
  {
    moves == [] || (MayMove(x, moves[0]) && IsPath(Go(x, moves[0]), moves[1..]))
  }

  function End(x: World, moves: seq<Move>): World
    requires IsPath(x, moves)
    decreases |moves|
  {
    if moves == [] then x else End(Go(x, moves[0]), moves[1..])
  }

  // ---- what holds until a survivor has meddled -------------------------------------------------

  ghost predicate Core(s: State) {
    Control(s) && Ids(s) && Pipe(s) && CrashOk(s)
  }

  ghost predicate ValidIds(answers: seq<Answer>) {
    forall j :: 0 <= j < |answers| ==> 1 <= answers[j].id <= MAX_ID
  }

  /** What is left fits the packets that wait, like the answers of a connection that lasts. */
  ghost predicate LeftOk(x: World) {
    && PipeOk(x.s.c.ledger.waiting, x.s.callers, x.s.handler, Outgoing(x.s), Untaken(x))
    && (x.left != [] ==> !x.s.c.status.Connected? && x.s.net.replies == [] && !x.s.net.up)
  }

  ghost predicate Unmeddled(x: World) {
    && Core(x.s) && LeftOk(x) && x.todo.Nothing? && !x.meddled
    && forall i :: 0 <= i < |x.earlier| ==> ValidIds(x.earlier[i])
  }

  lemma StepKeepsCore(s: State, step: Step)
    requires Enabled(s, step) && Core(s)
    ensures Core(Apply(s, step))
  {
    StepKeepsControl(s, step);
    StepKeepsIds(s, step);
    StepKeepsPipe(s, step);
    StepKeepsCrashOk(s, step);
  }

  lemma UntakenIds(x: World)
    requires Unmeddled(x)
    ensures ValidIds(Untaken(x))
  {
  }

  /** Answers may be lost from the front as well, when nobody is at work on one. */
  lemma PipeForgets(
    w: seq<Entry<Packet>>, callers: map<nat, Caller>, h: Handler, out: seq<Packet>, replies: seq<Answer>,
    replies': seq<Answer>)
    requires PipeOk(w, callers, h, out, replies)
    requires replies' == [] || (replies != [] && replies' == replies[1..])
    ensures PipeOk(w, callers, h, out, replies')
  {
  }

  lemma OrdinaryKeepsLeft(x: World, step: Step)
    requires Enabled(x.s, step) && Unmeddled(x)
    ensures LeftOk(MoveOrdinary(x, step))
  {
    var y, t := MoveOrdinary(x, step), Apply(x.s, step);
    StepKeepsPipe(x.s, step);
    if step.ConnectFails? && !step.clean {
      FailedResumptionKeepsLeft(x, step);
    } else if x.left == [] || step.Connect? || step.ConnectFails? {
      assert t.net.replies + [] == t.net.replies;
    } else {
      DisconnectedKeepsLeft(x, step);
    }
  }

  lemma FailedResumptionKeepsLeft(x: World, step: Step)
    requires Enabled(x.s, step) && Control(x.s) && LeftOk(x) && step.ConnectFails? && !step.clean
    ensures LeftOk(MoveOrdinary(x, step))
  {
    var w, out, t := x.s.c.ledger.waiting, Outgoing(x.s), Apply(x.s, step);
    var k := if step.seen then 0 else |out|;
    PipeLoses(w, x.s.callers, x.s.handler, out, Untaken(x), k, |out|, |Untaken(x)|);
    assert out[..k] + out[|out|..] == Outgoing(t);
    assert Untaken(x)[..|Untaken(x)|] == Untaken(x) && [] + Untaken(x) == Untaken(x);
  }

  /** While disconnected only the receiver can do anything, and its answers are lost. */
  lemma DisconnectedKeepsLeft(x: World, step: Step)
    requires Enabled(x.s, step) && Control(x.s) && LeftOk(x) && x.left != [] && !step.Connect? && !step.ConnectFails?
    ensures LeftOk(MoveOrdinary(x, step))
  {
    var w, out, t := x.s.c.ledger.waiting, Outgoing(x.s), Apply(x.s, step);
    assert step.BrokerReceives? || step.BrokerReceivesLate?;
    var k := if step.BrokerReceives? then 1 else 0;
    PipeLoses(w, x.s.callers, x.s.handler, out, Untaken(x), 0, k, |Untaken(x)|);
    assert out[..0] + out[k..] == Outgoing(t) && t.net.replies == [];
    assert Untaken(x)[..|Untaken(x)|] == Untaken(x);
  }

  lemma OrdinaryKeepsUnmeddled(x: World, step: Step)
    requires Enabled(x.s, step) && Unmeddled(x)
    ensures Unmeddled(MoveOrdinary(x, step))
  {
    StepKeepsCore(x.s, step);
    OrdinaryKeepsLeft(x, step);
    UntakenIds(x);
  }

  /** Ignoring an answer only loses it. */
  lemma IgnoringKeepsUnmeddled(x: World, move: Move)
    requires MayMove(x, move) && (move.TakesLeft? || move.TakesEarlier?) && Unmeddled(x)
    requires !Go(x, move).meddled
    ensures Unmeddled(Go(x, move))
  {
    IgnoringLoses(x, move);
    if move.TakesLeft? {
      LosingKeepsUnmeddled(x, Go(x, move));
    }
  }

  lemma IgnoringLoses(x: World, move: Move)
    requires MayMove(x, move) && (move.TakesLeft? || move.TakesEarlier?) && !Go(x, move).meddled
    ensures var y := Go(x, move);
            && y.todo.Nothing? && y.s == x.s.(net := y.s.net) && y.s.net == x.s.net.(replies := y.s.net.replies)
            && (move.TakesEarlier? ==> y == x.(earlier := x.earlier[move.i := x.earlier[move.i][1..]]))
            && (move.TakesLeft? ==>
                  && y == x.(s := y.s, left := y.left) && Untaken(y) == Untaken(x)[1..]
                  && (if x.s.net.replies == [] then y.s.net.replies == [] else y.s.net.replies == x.s.net.replies[1..])
                  && (x.left == [] ==> y.left == []))
  {
  }

  lemma LosingKeepsUnmeddled(x: World, y: World)
    requires Unmeddled(x) && Untaken(x) != [] && Untaken(y) == Untaken(x)[1..]
    requires y == x.(s := y.s, left := y.left) && y.s == x.s.(net := y.s.net)
    requires y.s.net == x.s.net.(replies := y.s.net.replies)
    requires if x.s.net.replies == [] then y.s.net.replies == [] else y.s.net.replies == x.s.net.replies[1..]
    requires x.left == [] ==> y.left == []
    ensures Unmeddled(y)
  {
    PipeForgets(x.s.c.ledger.waiting, x.s.callers, x.s.handler, Outgoing(x.s), Untaken(x), Untaken(y));
    PipeForgets(x.s.c.ledger.waiting, x.s.callers, x.s.handler, Outgoing(x.s), x.s.net.replies, y.s.net.replies);
  }

  lemma {:induction false} PathKeepsUnmeddled(x: World, moves: seq<Move>)
    requires Unmeddled(x) && IsPath(x, moves) && !End(x, moves).meddled
    ensures Unmeddled(End(x, moves))
    decreases |moves|
  {
    if moves != [] {
      var y := Go(x, moves[0]);
      if y.meddled {
        MeddledStays(y, moves[1..]);
      }
      if moves[0].Ordinary? {
        OrdinaryKeepsUnmeddled(x, moves[0].step);
      } else {
        IgnoringKeepsUnmeddled(x, moves[0]);
      }
      PathKeepsUnmeddled(y, moves[1..]);
    }
  }

  lemma {:induction false} MeddledStays(x: World, moves: seq<Move>)
    requires IsPath(x, moves) && x.meddled
    ensures End(x, moves).meddled
    decreases |moves|
  {
    if moves != [] {
      MeddledStays(Go(x, moves[0]), moves[1..]);
    }
  }

  /** Every answer taken by a survivor on this path is ignored. */
  ghost predicate AllIgnored(x: World, moves: seq<Move>)
    requires IsPath(x, moves)
    decreases |moves|
  {
    moves == [] ||
    (&& (moves[0].TakesLeft? || moves[0].TakesEarlier? ==> !Heeded(x.s.c, Taken(x, moves[0]).kind))
     && AllIgnored(Go(x, moves[0]), moves[1..]))
  }

  /** Which paths these are: to meddle is to take an answer that the flags heed. */
  lemma {:induction false} IgnoringIsNotMeddling(x: World, moves: seq<Move>)
    requires IsPath(x, moves) && AllIgnored(x, moves) && !x.meddled
    ensures !End(x, moves).meddled
    decreases |moves|
  {
    if moves != [] {
      IgnoringIsNotMeddling(Go(x, moves[0]), moves[1..]);
    }
  }

  /** A failed resumption keeps every untaken answer; any other attempt hands them to a survivor. */
  lemma AnswersStay(x: World, step: Step)
    requires Enabled(x.s, step) && (step.Connect? || step.ConnectFails?)
    ensures var y := MoveOrdinary(x, step);
            if step.ConnectFails? && !step.clean then Untaken(y) == Untaken(x) && y.earlier == x.earlier
            else Untaken(y) == [] && y.earlier == x.earlier + [Untaken(x)]
  {
    assert [] + Untaken(x) == Untaken(x);
  }

  lemma StartIsUnmeddled(early: bool)
    ensures Unmeddled(Start(early))
  {
    InitInv(early);
    var s := Init(early);
    assert Untaken(Start(early)) == s.net.replies;
  }

  // ---- what a taking can lead to ------------------------------------------------------------

  /** The program dies of something else than want of identifiers. */
  ghost predicate Dead(x: World) {
    x.s.crash.Some? && x.s.crash != Some(NoFreeID)
  }

  /** A continuation in which no further survivor takes an answer, and the program dies. */
  ghost predicate Kills(x: World, moves: seq<Move>) {
    && IsPath(x, moves) && Dead(End(x, moves))
    && forall i :: 0 <= i < |moves| ==> !moves[i].TakesLeft? && !moves[i].TakesEarlier?
  }

  lemma KillsLater(x: World, move: Move, moves: seq<Move>)
    requires MayMove(x, move) && !move.TakesLeft? && !move.TakesEarlier? && Kills(Go(x, move), moves)
    ensures Kills(x, [move] + moves)
  {
    assert ([move] + moves)[1..] == moves;
  }

  lemma {:induction false} NothingKills(x: World, moves: seq<Move>)
    requires Core(x.s) && x.todo.Nothing?
    ensures !Kills(x, moves)
    decreases |moves|
  {
    if Kills(x, moves) && moves != [] {
      assert moves[0].Ordinary?;
      StepKeepsCore(x.s, moves[0].step);
      assert forall i :: 0 <= i < |moves| - 1 ==> moves[1..][i] == moves[i + 1];
      NothingKills(Go(x, moves[0]), moves[1..]);
    }
  }

  // ---- a release half done is fatal after a clean connect --------------------------------------

  /** Nothing but the handler's own answers is heeded, and the survivor is half way. */
  ghost predicate Going(x: World) {
    Control(x.s) && Steady(x.s) && Spare(x.s) && x.s.crash.None?
  }

  /** To the next connect, by steps of the protocol; the survivor waits. */
  lemma {:induction false} DrivesOn(x: World) returns (moves: seq<Move>)
    requires Going(x) && ((x.todo.Clear? && 1 <= x.todo.id <= MAX_ID) || x.todo.Send?)
    ensures Kills(x, moves)
    decreases |Unclaimed(x.s.callers)|, |Unregistered(x.s.callers)|, |x.s.callers|, Rank(x.s), |x.s.c.queue|
  {
    if MayConnect(x.s) {
      if x.todo.Clear? {
        moves := ConnectsClean(x);
      } else {
        moves := FindsClosed(x);
      }
    } else {
      var step := SomethingAdvances(x.s);
      AdvanceIsOrdinary(x, step);
      StepKeepsControl(x.s, step);
      moves := DrivesOn(Go(x, Ordinary(step)));
      KillsLater(x, Ordinary(step), moves);
      moves := [Ordinary(step)] + moves;
    }
  }

  lemma AdvanceIsOrdinary(x: World, step: Step)
    requires Advances(x.s, step) && x.s.crash.None? && !MayConnect(x.s)
    ensures MayMove(x, Ordinary(step)) && Go(x, Ordinary(step)).todo == x.todo
  {
  }

  /** The queue is closed: sending a PUBREL on it panics. */
  lemma FindsClosed(x: World) returns (moves: seq<Move>)
    requires Control(x.s) && x.s.crash.None? && MayConnect(x.s) && x.todo.Send?
    ensures Kills(x, moves)
  {
    moves := [LateFinishes];
    assert moves[1..] == [];
    assert Dead(Go(x, LateFinishes));
  }

  lemma ConnectsClean(x: World) returns (moves: seq<Move>)
    requires Going(x) && MayConnect(x.s) && x.todo.Clear? && 1 <= x.todo.id <= MAX_ID
    ensures Kills(x, moves)
  {
    var step := Connect(true, true, false, false);
    assert FirstIds(0) == {};
    moves := FillsUp(Go(x, Ordinary(step)), 0);
    KillsLater(x, Ordinary(step), moves);
    moves := [Ordinary(step)] + moves;
  }

  /** New calls take the identifiers below that of the survivor. */
  lemma {:induction false} FillsUp(x: World, k: nat) returns (moves: seq<Move>)
    requires Filling(x.s, k) && x.todo.Clear? && k < x.todo.id <= MAX_ID
    ensures Kills(x, moves)
    decreases x.todo.id - k
  {
    if k + 1 == x.todo.id {
      moves := PublishesUnder(x);
    } else {
      FillsOne(x.s, k);
      var begin, claim := Ordinary(Begin(k + 1, AtLeastOnce)), Ordinary(ClaimID(k + 1));
      var y := Go(x, begin);
      moves := FillsUp(Go(y, claim), k + 1);
      KillsLater(y, claim, moves);
      KillsLater(x, begin, [claim] + moves);
      moves := [begin] + ([claim] + moves);
    }
  }

  /** A message is registered under that identifier. */
  lemma PublishesUnder(x: World) returns (moves: seq<Move>)
    requires x.todo.Clear? && 0 < x.todo.id <= MAX_ID && Filling(x.s, x.todo.id - 1)
    ensures Kills(x, moves)
  {
    var id := x.todo.id;
    FreshClaims(id - 1);
    var x1 := Go(x, Ordinary(Begin(id, AtLeastOnce)));
    var x2 := Go(x1, Ordinary(ClaimID(id)));
    var x3 := Go(x2, Ordinary(RegisterPacket(id)));
    var r3 := LosesItsBit(x3);
    KillsLater(x2, Ordinary(RegisterPacket(id)), r3);
    var r2 := [Ordinary(RegisterPacket(id))] + r3;
    KillsLater(x1, Ordinary(ClaimID(id)), r2);
    var r1 := [Ordinary(ClaimID(id))] + r2;
    KillsLater(x, Ordinary(Begin(id, AtLeastOnce)), r1);
    moves := [Ordinary(Begin(id, AtLeastOnce))] + r1;
  }

  ghost predicate Alone(s: State, id: nat) {
    && s.crash.None? && s.handler.Idle? && !s.c.ignorePubAck && s.c.open && 0 <= s.c.ledger.next <= MAX_ID
    && s.net.up && s.net.replies == []
  }

  /** The survivor clears the bit of the new message. */
  lemma LosesItsBit(x: World) returns (moves: seq<Move>)
    requires x.todo.Clear? && x.todo.id > 0 && Alone(x.s, x.todo.id) && x.s.net.wire == [] && x.s.c.queue == []
    requires x.todo.id in x.s.callers && x.s.callers[x.todo.id].Ready?
    requires var p := x.s.callers[x.todo.id].packet;
             p.Publish? && p.id == x.todo.id && !p.m.qos.ExactlyOnce?
    ensures Kills(x, moves)
  {
    var id := x.todo.id;
    var x1 := Go(x, LateFinishes);
    var x2 := Go(x1, Ordinary(EnqueuePacket(id)));
    var x3 := Go(x2, Ordinary(SenderWrites));
    var r3 := MissesItsBit(x3, id);
    KillsLater(x2, Ordinary(SenderWrites), r3);
    var r2 := [Ordinary(SenderWrites)] + r3;
    KillsLater(x1, Ordinary(EnqueuePacket(id)), r2);
    var r1 := [Ordinary(EnqueuePacket(id))] + r2;
    KillsLater(x, LateFinishes, r1);
    moves := [LateFinishes] + r1;
  }

  /** Its answer panics. */
  lemma MissesItsBit(x: World, id: nat) returns (moves: seq<Move>)
    requires Alone(x.s, id) && |x.s.net.wire| == 1 && id !in x.s.c.ledger.used
    requires var p := x.s.net.wire[0]; p.Publish? && p.id == id && !p.m.qos.ExactlyOnce?
    ensures Kills(x, moves)
  {
    var x1 := Go(x, Ordinary(BrokerReceives));
    assert x1.s.net.replies == [Answer(PubAck, id)];
    var x2 := Go(x1, Ordinary(HandlerTakes));
    assert Dead(x2) && Kills(x2, []);
    KillsLater(x1, Ordinary(HandlerTakes), []);
    var r1 := [Ordinary(HandlerTakes)] + [];
    KillsLater(x, Ordinary(BrokerReceives), r1);
    moves := [Ordinary(BrokerReceives)] + r1;
  }

  // ---- the exact condition, when sections interleave -----------------------------------------

  /** What a taking leaves of the client's state. */
  lemma TakingGoesOn(x: World, move: Move)
    requires MayMove(x, move) && (move.TakesLeft? || move.TakesEarlier?) && Unmeddled(x) && Spare(x.s)
    requires Heeded(x.s.c, Taken(x, move).kind)
    ensures var y := Go(x, move);
            Dead(y) || (Going(y) && ((y.todo.Clear? && 1 <= y.todo.id <= MAX_ID) || y.todo.Send?))
  {
    UntakenIds(x);
    assert 1 <= Taken(x, move).id <= MAX_ID;
    TakingOutcome(x, move);
    IdsGiveSteady(x.s);
    if !Dead(Go(x, move)) {
      TakingKeepsGoing(x, move);
    }
  }

  lemma IdsGiveSteady(s: State)
    requires Ids(s)
    ensures Steady(s)
  {
  }

  lemma TakingOutcome(x: World, move: Move)
    requires MayMove(x, move) && (move.TakesLeft? || move.TakesEarlier?) && Heeded(x.s.c, Taken(x, move).kind)
    ensures var y := Go(x, move);
            Dead(y) || (y.s.crash.None? && (y.todo == Clear(Taken(x, move).id) || y.todo.Send?))
  {
  }

  lemma TakingKeepsGoing(x: World, move: Move)
    requires MayMove(x, move) && (move.TakesLeft? || move.TakesEarlier?)
    requires Control(x.s) && Steady(x.s) && Spare(x.s) && Go(x, move).s.crash.None?
    ensures Going(Go(x, move))
  {
    var y := Go(x, move);
    TakingLeavesRest(x, move);
    SameControl(x.s, y.s);
  }

  /** A survivor's first section changes the list and nothing else of the client. */
  lemma TakingLeavesRest(x: World, move: Move)
    requires MayMove(x, move) && (move.TakesLeft? || move.TakesEarlier?)
    ensures var s, t := x.s, Go(x, move).s;
            && t.callers == s.callers && t.handler == s.handler && t.stage == s.stage && t.late == s.late
            && t.net.wire == s.net.wire && t.c == s.c.(ledger := t.c.ledger)
            && t.c.ledger.used == s.c.ledger.used && t.c.ledger.next == s.c.ledger.next
  {
    var a := Taken(x, move);
    TakeChangesList(x.s.c, a.kind, a.id, ReleaseOf(x.s, a.id));
  }

  lemma TakeChangesList<M>(c: Client<M>, kind: AckKind, id: int, release: M)
    ensures var t := Take(c, kind, id, release).0;
            t == c.(ledger := c.ledger.(waiting := t.ledger.waiting))
  {
  }

  lemma SameControl(s: State, t: State)
    requires Control(s) && Steady(s) && Spare(s)
    requires t.callers == s.callers && t.handler == s.handler && t.stage == s.stage && t.late == s.late
    requires t.net.wire == s.net.wire && t.c == s.c.(ledger := t.c.ledger)
    requires t.c.ledger.used == s.c.ledger.used && t.c.ledger.next == s.c.ledger.next
    ensures Control(t) && Steady(t) && Spare(t)
  {
  }

  /**
   * After every path on which survivors have only ignored answers: one more taking is fatal, or
   * can become so by itself, exactly if the client heeds answers of that kind. The kind and the
   * two ignore flags decide; ledger, list and queue do not.
   */
  lemma LateTakingKillsIff(early: bool, moves: seq<Move>, move: Move)
    requires IsPath(Start(early), moves) && !End(Start(early), moves).meddled
    requires var x := End(Start(early), moves);
             MayMove(x, move) && (move.TakesLeft? || move.TakesEarlier?) && Spare(x.s)
    ensures var x := End(Start(early), moves);
            (exists rest :: Kills(Go(x, move), rest)) <==> Heeded(x.s.c, Taken(x, move).kind)
  {
    StartIsUnmeddled(early);
    PathKeepsUnmeddled(Start(early), moves);
    TakingKillsIff(End(Start(early), moves), move);
  }

  lemma TakingKillsIff(x: World, move: Move)
    requires Unmeddled(x) && MayMove(x, move) && (move.TakesLeft? || move.TakesEarlier?) && Spare(x.s)
    ensures (exists rest :: Kills(Go(x, move), rest)) <==> Heeded(x.s.c, Taken(x, move).kind)
  {
    var y := Go(x, move);
    if Heeded(x.s.c, Taken(x, move).kind) {
      TakingGoesOn(x, move);
      if Dead(y) {
        assert Kills(y, []);
      } else {
        var rest := DrivesOn(y);
      }
    } else {
      IgnoringKeepsUnmeddled(x, move);
      forall rest ensures !Kills(y, rest) {
        NothingKills(y, rest);
      }
    }
  }

  // ---- the exact condition, with nothing in between -------------------------------------------

  /** A survivor with room on the queue, if it is open, takes an answer and is done with it. */
  predicate Prompt(x: World, move: Move) {
    MayMove(x, move) && (move.TakesLeft? || move.TakesEarlier?) && (x.s.c.open ==> |x.s.c.queue| < QUEUE_CAPACITY)
  }

  function AtOnce(x: World, move: Move): World
    requires Prompt(x, move)
  {
    var y := Go(x, move);
    if MayMove(y, LateFinishes) then Go(y, LateFinishes) else y
  }

  /**
   * What kills at once: of the connection whose ledger still stands, a PUBREC when the queue is
   * closed; of an earlier one, whose ledger has been replaced or whose packets have been resent,
   * also an answer to a packet that does not wait any more.
   */
  predicate Fatal(x: World, move: Move)
    requires Prompt(x, move)
  {
    var a := Taken(x, move);
    Heeded(x.s.c, a.kind) &&
    if a.kind.PubRec? then !x.s.c.open || (move.TakesEarlier? && x.s.c.ledger.Panics(a.id))
    else move.TakesEarlier? && Get(x.s.c.ledger.waiting, a.id).None?
  }

  lemma AtOnceKillsIff(early: bool, moves: seq<Move>, move: Move)
    requires IsPath(Start(early), moves) && !End(Start(early), moves).meddled
    requires Prompt(End(Start(early), moves), move)
    ensures var x := End(Start(early), moves);
            Dead(AtOnce(x, move)) <==> Fatal(x, move)
  {
    StartIsUnmeddled(early);
    PathKeepsUnmeddled(Start(early), moves);
    FatalIff(End(Start(early), moves), move);
  }

  lemma FatalIff(x: World, move: Move)
    requires Unmeddled(x) && Prompt(x, move)
    ensures Dead(AtOnce(x, move)) <==> Fatal(x, move)
    ensures !Dead(AtOnce(x, move)) ==> AtOnce(x, move).s.crash.None? && AtOnce(x, move).todo.Nothing?
  {
    LeftIsFound(x, move);
    ListedIsFound(x.s, Taken(x, move).id);
  }

  lemma LeftIsFound(x: World, move: Move)
    requires LeftOk(x) && Prompt(x, move)
    ensures move.TakesLeft? ==>
              var a := Taken(x, move);
              Get(x.s.c.ledger.waiting, a.id).Some? && Fits(a, Get(x.s.c.ledger.waiting, a.id).value)
  {
  }

  lemma ListedIsFound(s: State, id: int)
    requires Ids(s)
    ensures Find(s.c.ledger, id) == Found <==> Get(s.c.ledger.waiting, id).Some?
  {
  }

  /** Unsetting the bit ends the exchange for the ledger. */
  lemma UnsetKeepsIds(l: Ledger<Packet>, callers: map<nat, Caller>, id: int)
    requires IdsOk(l, callers, Busy(Clear(id)))
    ensures IdsOk(Unset(l, id), callers, Stopped)
  {
  }

  lemma SendKeepsIds(l: Ledger<Packet>, callers: map<nat, Caller>, msg: Packet)
    requires IdsOk(l, callers, Busy(Send(msg)))
    ensures IdsOk(l, callers, Stopped)
  {
  }

  lemma StoppedIsIdle(l: Ledger<Packet>, callers: map<nat, Caller>)
    requires IdsOk(l, callers, Stopped)
    ensures IdsOk(l, callers, Idle)
  {
  }

  /** Taken at once, what is left of the last connection does what a living handler would do. */
  lemma LeftIsHandled(x: World)
    requires Unmeddled(x) && Prompt(x, TakesLeft) && !Fatal(x, TakesLeft)
    ensures Core(AtOnce(x, TakesLeft).s)
  {
    var a, y := Untaken(x)[0], AtOnce(x, TakesLeft);
    FatalIff(x, TakesLeft);
    LeftIsFound(x, TakesLeft);
    ListedIsFound(x.s, a.id);
    if !Heeded(x.s.c, a.kind) {
      IgnoringKeepsUnmeddled(x, TakesLeft);
    } else if a.kind.PubRec? {
      LeftPubRec(x);
    } else {
      LeftEnd(x);
    }
  }

  lemma LeftEnd(x: World)
    requires Core(x.s) && LeftOk(x) && Prompt(x, TakesLeft) && !Untaken(x)[0].kind.PubRec?
    requires Heeded(x.s.c, Untaken(x)[0].kind) && Find(x.s.c.ledger, Untaken(x)[0].id) == Found
    ensures Core(AtOnce(x, TakesLeft).s)
  {
    var s, a, v := x.s, Untaken(x)[0], AtOnce(x, TakesLeft).s;
    var w, out := s.c.ledger.waiting, Outgoing(s);
    EndIds(s.c.ledger, s.callers, a.id);
    EndPipe(w, s.callers, out, Untaken(x));
    EndOutcome(x);
    LeftReplies(x, v, Without(w, a.id), out);
    assert Outgoing(v) == out;
    HandledCore(s, v, out);
  }

  lemma HandledCore(s: State, v: State, out: seq<Packet>)
    requires Control(s) && s.handler.Stopped? && v.crash.None? && |v.c.queue| <= QUEUE_CAPACITY
    requires v == s.(c := s.c.(ledger := v.c.ledger, queue := v.c.queue), net := v.net, crash := None)
    requires v.net == s.net.(replies := v.net.replies)
    requires v.c.queue == s.c.queue || s.c.open
    requires IdsOk(v.c.ledger, s.callers, Stopped) && out == Outgoing(v)
    requires PipeOk(v.c.ledger.waiting, s.callers, Stopped, out, v.net.replies)
    ensures Core(v)
  {
  }

  lemma EndIds(l: Ledger<Packet>, callers: map<nat, Caller>, id: int)
    requires IdsOk(l, callers, Stopped) && Get(l.waiting, id).Some?
    ensures IdsOk(Unset(Release(l, id), id), callers, Stopped)
  {
    StoppedIsIdle(l, callers);
    ReleaseKeepsIds(l, callers, id);
    UnsetKeepsIds(Release(l, id), callers, id);
  }

  lemma EndPipe(w: seq<Entry<Packet>>, callers: map<nat, Caller>, out: seq<Packet>, replies: seq<Answer>)
    requires PipeOk(w, callers, Stopped, out, replies) && DistinctIds(w) && replies != []
    ensures PipeOk(Without(w, replies[0].id), callers, Stopped, out, replies[1..])
  {
    PipeDoneSending(w, callers, Stopped, out, replies, Idle);
    PipeReleases(w, callers, out, replies);
    PipeDoneSending(
      Without(w, replies[0].id), callers, Busy(Clear(replies[0].id)), out, replies[1..], Stopped);
  }

  lemma EndOutcome(x: World)
    requires Prompt(x, TakesLeft) && !Untaken(x)[0].kind.PubRec?
    requires Heeded(x.s.c, Untaken(x)[0].kind) && Find(x.s.c.ledger, Untaken(x)[0].id) == Found
    ensures var s, a, v := x.s, Untaken(x)[0], AtOnce(x, TakesLeft).s;
            v == s.(c := s.c.(ledger := Unset(Release(s.c.ledger, a.id), a.id)), net := v.net, crash := None)
            && v.net == s.net.(replies := v.net.replies)
            && v.net.replies == if s.net.replies == [] then [] else s.net.replies[1..]
  {
  }

  /** What is still untaken after the first answer, on the connection or left of it. */
  lemma LeftReplies(x: World, v: State, w: seq<Entry<Packet>>, out: seq<Packet>)
    requires LeftOk(x) && Untaken(x) != []
    requires PipeOk(w, x.s.callers, Stopped, out, Untaken(x)[1..])
    requires v.net.replies == if x.s.net.replies == [] then [] else x.s.net.replies[1..]
    ensures PipeOk(w, x.s.callers, Stopped, out, v.net.replies)
  {
    if x.s.net.replies == [] {
      PipeLoses(w, x.s.callers, Stopped, out, Untaken(x)[1..], 0, 0, 0);
      assert out[..0] + out[0..] == out;
    } else {
      assert x.left == [] && Untaken(x) == x.s.net.replies;
    }
  }

  lemma LeftPubRec(x: World)
    requires Core(x.s) && LeftOk(x) && Prompt(x, TakesLeft) && Untaken(x)[0].kind.PubRec? && x.s.c.open
    requires Heeded(x.s.c, PubRec) && Find(x.s.c.ledger, Untaken(x)[0].id) == Found
    requires Fits(Untaken(x)[0], Get(x.s.c.ledger.waiting, Untaken(x)[0].id).value)
    ensures Core(AtOnce(x, TakesLeft).s)
  {
    var s, a, v := x.s, Untaken(x)[0], AtOnce(x, TakesLeft).s;
    var w, out, msg := s.c.ledger.waiting, Outgoing(s), ReleaseOf(s, a.id);
    PubRecIds(s.c.ledger, s.callers, a.id, msg);
    PubRecPipe(w, s.callers, out, Untaken(x), msg);
    PubRecOutcome(x);
    LeftReplies(x, v, With(w, a.id, msg), out + [msg]);
    assert Outgoing(v) == out + [msg];
    HandledCore(s, v, out + [msg]);
  }

  lemma PubRecIds(l: Ledger<Packet>, callers: map<nat, Caller>, id: int, msg: Packet)
    requires IdsOk(l, callers, Stopped) && Get(l.waiting, id).Some?
    ensures IdsOk(Replace(l, id, msg), callers, Stopped)
  {
    StoppedIsIdle(l, callers);
    ReplaceKeepsIds(l, callers, id, msg);
    SendKeepsIds(Replace(l, id, msg), callers, msg);
  }

  lemma PubRecPipe(
    w: seq<Entry<Packet>>, callers: map<nat, Caller>, out: seq<Packet>, replies: seq<Answer>, msg: Packet)
    requires PipeOk(w, callers, Stopped, out, replies) && DistinctIds(w) && replies != []
    requires msg.PubRel? && msg.id == replies[0].id && msg.m.qos.ExactlyOnce?
    ensures PipeOk(With(w, msg.id, msg), callers, Stopped, out + [msg], replies[1..])
  {
    PipeDoneSending(w, callers, Stopped, out, replies, Idle);
    PipeReplaces(w, callers, out, replies, msg);
    NowGains(With(w, msg.id, msg), callers, out, replies[1..], msg);
  }

  lemma NowGains(w: seq<Entry<Packet>>, callers: map<nat, Caller>, out: seq<Packet>, replies: seq<Answer>, msg: Packet)
    requires PipeOk(w, callers, Busy(Send(msg)), out, replies) && msg.PubRel?
    ensures PipeOk(w, callers, Stopped, out + [msg], replies)
  {
    assert Sending(Busy(Send(msg)), IdOf(msg));
    PipeDoneSending(w, callers, Busy(Send(msg)), out, replies, Stopped);
    PipeGains(w, callers, Stopped, out, replies, msg);
  }

  lemma PubRecOutcome(x: World)
    requires Prompt(x, TakesLeft) && Untaken(x)[0].kind.PubRec? && x.s.c.open
    requires Heeded(x.s.c, PubRec) && Find(x.s.c.ledger, Untaken(x)[0].id) == Found
    ensures var s, a, v := x.s, Untaken(x)[0], AtOnce(x, TakesLeft).s;
            var msg := ReleaseOf(s, a.id);
            var c := s.c.(ledger := Replace(s.c.ledger, a.id, msg), queue := s.c.queue + [msg]);
            v == s.(c := c, net := v.net, crash := None)
            && v.net == s.net.(replies := v.net.replies)
            && v.net.replies == if s.net.replies == [] then [] else s.net.replies[1..]
  {
  }

  /**
   * After every path on which survivors have only ignored answers: taken at once from the last
   * connection, an answer is fatal or can become so exactly if it is a PUBREC that is heeded
   * and the queue is closed; otherwise it never is.
   */
  lemma LeftKillsIff(early: bool, moves: seq<Move>)
    requires IsPath(Start(early), moves) && !End(Start(early), moves).meddled
    requires Prompt(End(Start(early), moves), TakesLeft)
    ensures var x := End(Start(early), moves);
            (exists rest :: Kills(AtOnce(x, TakesLeft), rest)) <==>
              Untaken(x)[0].kind.PubRec? && !x.s.c.ignorePubAck && !x.s.c.open
  {
    StartIsUnmeddled(early);
    PathKeepsUnmeddled(Start(early), moves);
    LeftIff(End(Start(early), moves));
    FatalLeft(End(Start(early), moves));
  }

  lemma FatalLeft(x: World)
    requires Prompt(x, TakesLeft)
    ensures Fatal(x, TakesLeft) <==> Untaken(x)[0].kind.PubRec? && !x.s.c.ignorePubAck && !x.s.c.open
  {
  }

  lemma LeftIff(x: World)
    requires Unmeddled(x) && Prompt(x, TakesLeft)
    ensures (exists rest :: Kills(AtOnce(x, TakesLeft), rest)) <==> Fatal(x, TakesLeft)
  {
    var y := AtOnce(x, TakesLeft);
    FatalIff(x, TakesLeft);
    if Fatal(x, TakesLeft) {
      assert Kills(y, []);
    } else {
      LeftIsHandled(x);
      forall rest ensures !Kills(y, rest) {
        NothingKills(y, rest);
      }
    }
  }

  // ---- bad paths --------------------------------------------------------------------------------

  /** A path on which the program dies in this way. */
  ghost predicate Ends(x: World, moves: seq<Move>, failure: Failure) {
    IsPath(x, moves) && End(x, moves).s.crash == Some(failure)
  }

  lemma EndsLater(x: World, move: Move, moves: seq<Move>, failure: Failure)
    requires MayMove(x, move) && Ends(Go(x, move), moves, failure)
    ensures Ends(x, [move] + moves, failure)
  {
    assert ([move] + moves)[1..] == moves;
  }

  /** A message of QoS 1 is registered under identifier 1, on the first connection. */
  ghost predicate Registered(x: World) {
    && x.s.crash.None? && x.todo.Nothing? && x.earlier == [[]] && x.left == [] && x.s.handler.Idle?
    && x.s.stage.Unlocked? && x.s.c.status.Connected? && x.s.c.open && x.s.c.queue == []
    && OneWaits(x) && x.s.net == Net(true, [], [])
    && x.s.callers == map[0 := Ready(x.s.c.ledger.waiting[0].msg)]
  }

  ghost predicate OneWaits(x: World) {
    && x.s.c.ledger.used == {1} && x.s.c.ledger.next == 1 && x.s.c.ledger.indexed == {1}
    && |x.s.c.ledger.waiting| == 1 && x.s.c.ledger.waiting[0].id == 1
    && var p := x.s.c.ledger.waiting[0].msg;
       p.Publish? && p.id == 1 && p.m.qos.AtLeastOnce?
  }

  /** Its PUBACK has arrived. */
  ghost predicate Acknowledged(x: World) {
    && x.s.crash.None? && x.todo.Nothing? && x.earlier == [[]] && x.left == [] && x.s.handler.Idle?
    && x.s.stage.Unlocked? && x.s.c.status.Connected? && x.s.c.queue == [] && x.s.callers == map[]
    && OneWaits(x) && x.s.net == Net(true, [], [Answer(PubAck, 1)])
  }

  /** And is untaken when the session is disconnected. */
  ghost predicate Unread(x: World) {
    && x.s.crash.None? && x.todo.Nothing? && x.earlier == [[]] && x.left == [] && MayConnect(x.s)
    && OneWaits(x) && x.s.net.replies == [Answer(PubAck, 1)]
  }

  lemma RegistersOne(early: bool, tail: seq<Move>, failure: Failure) returns (moves: seq<Move>)
    requires forall z :: Registered(z) ==> Ends(z, tail, failure)
    ensures Ends(Start(early), moves, failure)
  {
    var x := Start(early);
    FreshClaims(0);
    assert FirstIds(0) == {};
    var x1 := Go(x, Ordinary(Connect(true, true, false, false)));
    var x2 := Go(x1, Ordinary(Begin(0, AtLeastOnce)));
    var x3 := Go(x2, Ordinary(ClaimID(0)));
    var x4 := Go(x3, Ordinary(RegisterPacket(0)));
    assert Untaken(x) == [] && x1.earlier == [[]];
    assert Registered(x4);
    EndsLater(x3, Ordinary(RegisterPacket(0)), tail, failure);
    var r3 := [Ordinary(RegisterPacket(0))] + tail;
    EndsLater(x2, Ordinary(ClaimID(0)), r3, failure);
    var r2 := [Ordinary(ClaimID(0))] + r3;
    EndsLater(x1, Ordinary(Begin(0, AtLeastOnce)), r2, failure);
    var r1 := [Ordinary(Begin(0, AtLeastOnce))] + r2;
    EndsLater(x, Ordinary(Connect(true, true, false, false)), r1, failure);
    moves := [Ordinary(Connect(true, true, false, false))] + r1;
  }

  lemma SendsOne(x: World, tail: seq<Move>, failure: Failure)
    requires Registered(x) && forall z :: Acknowledged(z) ==> Ends(z, tail, failure)
    ensures var rest := [Ordinary(SenderWrites)] + ([Ordinary(BrokerReceives)] + tail);
            Ends(x, [Ordinary(EnqueuePacket(0))] + rest, failure)
  {
    var x1 := Go(x, Ordinary(EnqueuePacket(0)));
    var x2 := Go(x1, Ordinary(SenderWrites));
    var x3 := Go(x2, Ordinary(BrokerReceives));
    assert x1.s.callers == map[] && Acknowledged(x3);
    EndsLater(x2, Ordinary(BrokerReceives), tail, failure);
    var r2 := [Ordinary(BrokerReceives)] + tail;
    EndsLater(x1, Ordinary(SenderWrites), r2, failure);
    var r1 := [Ordinary(SenderWrites)] + r2;
    EndsLater(x, Ordinary(EnqueuePacket(0)), r1, failure);
  }

  lemma LeavesOne(x: World, tail: seq<Move>, failure: Failure)
    requires Acknowledged(x) && forall z :: Unread(z) ==> Ends(z, tail, failure)
    ensures var rest := [Ordinary(HandlerStops)] + ([Ordinary(FinishDisconnect)] + tail);
            Ends(x, [Ordinary(BeginDisconnect(false))] + rest, failure)
  {
    var x1 := Go(x, Ordinary(BeginDisconnect(false)));
    var x2 := Go(x1, Ordinary(HandlerStops));
    var x3 := Go(x2, Ordinary(FinishDisconnect));
    assert Unread(x3);
    EndsLater(x2, Ordinary(FinishDisconnect), tail, failure);
    var r2 := [Ordinary(FinishDisconnect)] + tail;
    EndsLater(x1, Ordinary(HandlerStops), r2, failure);
    var r1 := [Ordinary(HandlerStops)] + r2;
    EndsLater(x, Ordinary(BeginDisconnect(false)), r1, failure);
  }

  /** Disconnecting with an answer unread is reachable, and whatever may follow it. */
  lemma LeavesUnread(early: bool, tail: seq<Move>, failure: Failure) returns (moves: seq<Move>)
    requires forall z :: Unread(z) ==> Ends(z, tail, failure)
    ensures Ends(Start(early), moves, failure)
  {
    var r2 := [Ordinary(BeginDisconnect(false))] + ([Ordinary(HandlerStops)] + ([Ordinary(FinishDisconnect)] + tail));
    forall z | Acknowledged(z) ensures Ends(z, r2, failure) {
      LeavesOne(z, tail, failure);
    }
    var r1 := [Ordinary(EnqueuePacket(0))] + ([Ordinary(SenderWrites)] + ([Ordinary(BrokerReceives)] + r2));
    forall z | Registered(z) ensures Ends(z, r1, failure) {
      SendsOne(z, r2, failure);
    }
    moves := RegistersOne(early, r1, failure);
  }

  /** The old PUBACK, taken after a clean connect or a failed attempt at one, panics. */
  lemma AfterNewLedger(early: bool, fails: bool, seen: bool) returns (moves: seq<Move>)
    ensures Ends(Start(early), moves, UnknownID)
  {
    var attempt :=
      Ordinary(if fails then ConnectFails(true, seen, seen, false, false) else Connect(true, true, false, false));
    var tail := [attempt] + ([TakesEarlier(1)] + []);
    forall x | Unread(x) ensures Ends(x, tail, UnknownID) {
      var x1 := Go(x, attempt);
      assert x1.earlier[1] == [Answer(PubAck, 1)];
      EndsLater(x1, TakesEarlier(1), [], UnknownID);
      EndsLater(x, attempt, [TakesEarlier(1)] + [], UnknownID);
    }
    moves := LeavesUnread(early, tail, UnknownID);
  }

  /** Resumed, with the packet on the wire again. */
  ghost predicate ResentToo(x: World) {
    && x.s.crash.None? && x.todo.Nothing? && x.earlier == [[], [Answer(PubAck, 1)]]
    && x.s.handler.Idle? && !x.s.c.ignorePubAck && OneWaits(x)
    && |x.s.net.wire| == 1 && x.s.net.up && x.s.net.replies == []
    && x.s.net.wire[0] == Dup(x.s.c.ledger.waiting[0].msg)
  }

  lemma Resumed(early: bool, tail: seq<Move>, failure: Failure) returns (moves: seq<Move>)
    requires forall z :: ResentToo(z) ==> Ends(z, tail, failure)
    ensures Ends(Start(early), moves, failure)
  {
    var again := Ordinary(Connect(false, false, false, false));
    forall x | Unread(x) ensures Ends(x, [again] + tail, failure) {
      assert Untaken(x) == [Answer(PubAck, 1)];
      assert Go(x, again).earlier == [[], [Answer(PubAck, 1)]];
      assert ResentToo(Go(x, again));
      EndsLater(x, again, tail, failure);
    }
    moves := LeavesUnread(early, [again] + tail, failure);
  }

  /** After a resumption the old PUBACK frees the identifier; that of the resent packet panics. */
  lemma AfterResend(early: bool) returns (moves: seq<Move>)
    ensures Ends(Start(early), moves, UnknownID)
  {
    var tail := [TakesEarlier(1)] + ([LateFinishes] + ([Ordinary(BrokerReceives)] + ([Ordinary(HandlerTakes)] + [])));
    forall x | ResentToo(x) ensures Ends(x, tail, UnknownID) {
      TwiceAcknowledged(x);
    }
    moves := Resumed(early, tail, UnknownID);
  }

  lemma TwiceAcknowledged(x: World)
    requires ResentToo(x)
    ensures var rest := [LateFinishes] + ([Ordinary(BrokerReceives)] + ([Ordinary(HandlerTakes)] + []));
            Ends(x, [TakesEarlier(1)] + rest, UnknownID)
  {
    var x1 := Go(x, TakesEarlier(1));
    var x2 := Go(x1, LateFinishes);
    var x3 := Go(x2, Ordinary(BrokerReceives));
    assert x3.s.net.replies == [Answer(PubAck, 1)];
    EndsLater(x3, Ordinary(HandlerTakes), [], UnknownID);
    var r3 := [Ordinary(HandlerTakes)] + [];
    EndsLater(x2, Ordinary(BrokerReceives), r3, UnknownID);
    var r2 := [Ordinary(BrokerReceives)] + r3;
    EndsLater(x1, LateFinishes, r2, UnknownID);
    EndsLater(x, TakesEarlier(1), [LateFinishes] + r2, UnknownID);
  }

  /** Taken between the survivor's two sections, the second answer loses the whole list. */
  lemma BetweenSections(early: bool) returns (moves: seq<Move>)
    ensures Ends(Start(early), moves, LostList)
  {
    var tail := [TakesEarlier(1)] + ([Ordinary(BrokerReceives)] + ([Ordinary(HandlerTakes)] + []));
    forall x | ResentToo(x) ensures Ends(x, tail, LostList) {
      var x1 := Go(x, TakesEarlier(1));
      var x2 := Go(x1, Ordinary(BrokerReceives));
      assert x2.s.net.replies == [Answer(PubAck, 1)];
      EndsLater(x2, Ordinary(HandlerTakes), [], LostList);
      var r2 := [Ordinary(HandlerTakes)] + [];
      EndsLater(x1, Ordinary(BrokerReceives), r2, LostList);
      EndsLater(x, TakesEarlier(1), [Ordinary(BrokerReceives)] + r2, LostList);
    }
    moves := Resumed(early, tail, LostList);
  }
}
