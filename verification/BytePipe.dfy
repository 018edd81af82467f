/**
 * The two-way byte pipe as a monitor: any number of readers and writers at both ends, and a
 * close. A step is one section under a lock; a reader that finds nothing parks on the
 * condition variable, and runs its section again some time after a broadcast.
 */
module BytePipe {
  import opened Messages

  datatype ReadCall = Parked(size: nat) | Awake(size: nat)

  datatype Outcome = Data(bytes: seq<byte>) | Eof | Blocks

  /**
   * One direction: its buffer, the readers that wait or are about to look again, every byte
   * a write was told is written, and the outcomes of the reads that have returned, in order.
   */
  datatype Lane = Lane(buffer: seq<byte>, readers: map<nat, ReadCall>, accepted: seq<byte>, results: seq<Outcome>)

  /** `input` is what the near end reads, `output` what the remote end reads. */
  datatype Pipe = Pipe(input: Lane, output: Lane, closed: bool)

  /** The near end reads `input` and writes `output`; the remote end the other way round. */
  datatype End = Near | Remote

  datatype Step =
    | Read(end: End, thread: nat, size: nat)
    | Retry(end: End, thread: nat)
    | Write(end: End, bytes: seq<byte>)
    | Close

  function Empty(): Pipe {
    Pipe(Lane([], map[], [], []), Lane([], map[], [], []), false)
  }

  function Min(a: nat, b: nat): nat {
    if a <= b then a else b
  }

  /** The section of a read, up to its wait or its return. */
  function Attempt(lane: Lane, closed: bool, size: nat): Outcome {
    if closed && lane.buffer == [] then Eof
    else if lane.buffer == [] then Blocks
    else Data(lane.buffer[..Min(size, |lane.buffer|)])
  }

  function DoAttempt(lane: Lane, closed: bool, thread: nat, size: nat): Lane {
    var outcome := Attempt(lane, closed, size);
    match outcome
    case Blocks => lane.(readers := lane.readers[thread := Parked(size)])
    case Eof => lane.(readers := lane.readers - {thread}, results := lane.results + [outcome])
    case Data(bytes) =>
      lane.(buffer := lane.buffer[Min(size, |lane.buffer|)..], readers := lane.readers - {thread},
            results := lane.results + [outcome])
  }

  function Woken(readers: map<nat, ReadCall>): map<nat, ReadCall> {
    map t | t in readers :: Awake(readers[t].size)
  }

  function Broadcast(lane: Lane): Lane {
    lane.(readers := Woken(lane.readers))
  }

  /** Writing wakes the readers only when the buffer was empty. */
  function DoWrite(lane: Lane, bytes: seq<byte>): Lane {
    var written := lane.(buffer := lane.buffer + bytes, accepted := lane.accepted + bytes);
    if lane.buffer == [] then Broadcast(written) else written
  }

  /** Closing wakes the readers of a lane only when its buffer is empty. */
  function DoClose(lane: Lane): Lane {
    if lane.buffer == [] then Broadcast(lane) else lane
  }

  function ReadLane(p: Pipe, end: End): Lane {
    if end.Near? then p.input else p.output
  }

  function WithReadLane(p: Pipe, end: End, lane: Lane): Pipe {
    if end.Near? then p.(input := lane) else p.(output := lane)
  }

  function WriteLane(p: Pipe, end: End): Lane {
    if end.Near? then p.output else p.input
  }

  function WithWriteLane(p: Pipe, end: End, lane: Lane): Pipe {
    if end.Near? then p.(output := lane) else p.(input := lane)
  }

  predicate Enabled(p: Pipe, step: Step) {
    match step
    case Read(end, t, _) => t !in ReadLane(p, end).readers
    case Retry(end, t) => t in ReadLane(p, end).readers && ReadLane(p, end).readers[t].Awake?
    case _ => true
  }

  function Apply(p: Pipe, step: Step): Pipe
    requires Enabled(p, step)
  {
    match step
    case Read(end, t, size) => WithReadLane(p, end, DoAttempt(ReadLane(p, end), p.closed, t, size))
    case Retry(end, t) =>
      WithReadLane(p, end, DoAttempt(ReadLane(p, end), p.closed, t, ReadLane(p, end).readers[t].size))
    case Write(end, bytes) => if p.closed then p else WithWriteLane(p, end, DoWrite(WriteLane(p, end), bytes))
    case Close => Pipe(DoClose(p.input), DoClose(p.output), true)
  }

  predicate IsRun(p: Pipe, steps: seq<Step>)
    decreases |steps|
  {
    steps == [] || (Enabled(p, steps[0]) && IsRun(Apply(p, steps[0]), steps[1..]))
  }

  function After(p: Pipe, steps: seq<Step>): Pipe
    requires IsRun(p, steps)
    decreases |steps|
  {
    if steps == [] then p else After(Apply(p, steps[0]), steps[1..])
  }

  // ---- what every step keeps -------------------------------------------------------------

  /** The bytes that reads have returned, in order. */
  function Returned(results: seq<Outcome>): seq<byte> {
    if results == [] then []
    else
      var last := results[|results| - 1];
      Returned(results[..|results| - 1]) + if last.Data? then last.bytes else []
  }

  /** A read that returns bytes returns the first of the buffer, as many as asked for or all. */
  lemma ReadIsFull(lane: Lane, closed: bool, t: nat, size: nat)
    requires lane.buffer != []
    ensures var after := DoAttempt(lane, closed, t, size);
            && |after.results| == |lane.results| + 1
            && var o := after.results[|lane.results|];
               && o.Data? && o.bytes + after.buffer == lane.buffer
               && |o.bytes| == if size <= |lane.buffer| then size else |lane.buffer|
  {
  }

  lemma ReturnedAppend(results: seq<Outcome>, o: Outcome)
    ensures Returned(results + [o]) == Returned(results) + if o.Data? then o.bytes else []
  {
    assert (results + [o])[..|results|] == results;
  }

  /** Whoever is parked has nothing to do: no byte to read, and no close to report. */
  ghost predicate NoLostWakeup(lane: Lane, closed: bool) {
    lane.buffer != [] || closed ==> forall t :: t in lane.readers ==> lane.readers[t].Awake?
  }

  /** First in, first out: what was read and what is buffered is what was accepted. */
  ghost predicate Fifo(lane: Lane) {
    Returned(lane.results) + lane.buffer == lane.accepted
  }

  /** The end is reported after a close, when everything accepted has been read. */
  ghost predicate EofIsFinal(lane: Lane, closed: bool) {
    && (Eof in lane.results ==> closed && lane.buffer == [])
    && (forall i :: 0 <= i < |lane.results| && lane.results[i] == Eof ==> Returned(lane.results[..i]) == lane.accepted)
    && (forall i, j :: 0 <= i < j < |lane.results| && lane.results[i] == Eof ==> lane.results[j] == Eof)
    && Blocks !in lane.results
  }

  ghost predicate LaneOk(lane: Lane, closed: bool) {
    NoLostWakeup(lane, closed) && Fifo(lane) && EofIsFinal(lane, closed)
  }

  ghost predicate Inv(p: Pipe) {
    LaneOk(p.input, p.closed) && LaneOk(p.output, p.closed)
  }

  lemma AttemptKeepsFifo(lane: Lane, closed: bool, t: nat, size: nat)
    requires Fifo(lane)
    ensures Fifo(DoAttempt(lane, closed, t, size))
  {
    var o, n := Attempt(lane, closed, size), Min(size, |lane.buffer|);
    ReturnedAppend(lane.results, o);
    assert lane.buffer == lane.buffer[..n] + lane.buffer[n..];
    if o.Data? {
      assert Returned(lane.results) + lane.buffer[..n] + lane.buffer[n..] == lane.accepted;
    }
  }

  lemma AttemptKeepsEof(lane: Lane, closed: bool, t: nat, size: nat)
    requires Fifo(lane) && EofIsFinal(lane, closed)
    ensures EofIsFinal(DoAttempt(lane, closed, t, size), closed)
  {
    var o, results := Attempt(lane, closed, size), DoAttempt(lane, closed, t, size).results;
    if !o.Blocks? {
      forall i | 0 <= i < |results| && results[i] == Eof ensures Returned(results[..i]) == lane.accepted {
        if i < |lane.results| {
          assert results[..i] == lane.results[..i];
        } else {
          assert results[..i] == lane.results;
        }
      }
    }
  }

  lemma AttemptKeepsLane(lane: Lane, closed: bool, t: nat, size: nat)
    requires LaneOk(lane, closed)
    ensures LaneOk(DoAttempt(lane, closed, t, size), closed)
  {
    AttemptKeepsFifo(lane, closed, t, size);
    AttemptKeepsEof(lane, closed, t, size);
  }

  lemma WriteKeepsLane(lane: Lane, bytes: seq<byte>)
    requires LaneOk(lane, false)
    ensures LaneOk(DoWrite(lane, bytes), false)
  {
    assert Returned(lane.results) + (lane.buffer + bytes) == lane.accepted + bytes;
  }

  lemma CloseKeepsLane(lane: Lane, closed: bool)
    requires LaneOk(lane, closed)
    ensures LaneOk(DoClose(lane), true)
  {
  }

  lemma StepKeepsInv(p: Pipe, step: Step)
    requires Enabled(p, step) && Inv(p)
    ensures Inv(Apply(p, step))
  {
    match step {
      case Read(end, t, size) => AttemptKeepsLane(ReadLane(p, end), p.closed, t, size);
      case Retry(end, t) => AttemptKeepsLane(ReadLane(p, end), p.closed, t, ReadLane(p, end).readers[t].size);
      case Write(end, bytes) => if !p.closed { WriteKeepsLane(WriteLane(p, end), bytes); }
      case Close =>
        CloseKeepsLane(p.input, p.closed);
        CloseKeepsLane(p.output, p.closed);
    }
  }

  lemma {:induction false} RunKeepsInv(p: Pipe, steps: seq<Step>)
    requires Inv(p) && IsRun(p, steps)
    ensures Inv(After(p, steps))
    decreases |steps|
  {
    if steps != [] {
      StepKeepsInv(p, steps[0]);
      RunKeepsInv(Apply(p, steps[0]), steps[1..]);
    }
  }

  /** In every interleaving, in both directions. */
  lemma EveryRun(steps: seq<Step>, end: End)
    requires IsRun(Empty(), steps)
    ensures var p := After(Empty(), steps);
            var lane := ReadLane(p, end);
            NoLostWakeup(lane, p.closed) && Fifo(lane) && EofIsFinal(lane, p.closed)
  {
    assert Returned([]) == [];
    RunKeepsInv(Empty(), steps);
  }

  /** All bytes written for the reader at this end before the first close. */
  function Written(steps: seq<Step>, end: End): seq<byte> {
    if steps == [] || steps[0].Close? then []
    else (if steps[0].Write? && steps[0].end != end then steps[0].bytes else []) + Written(steps[1..], end)
  }

  lemma {:induction false} RunAccepts(p: Pipe, steps: seq<Step>, end: End)
    requires IsRun(p, steps)
    ensures ReadLane(After(p, steps), end).accepted ==
              ReadLane(p, end).accepted + if p.closed then [] else Written(steps, end)
    decreases |steps|
  {
    if steps != [] {
      RunAccepts(Apply(p, steps[0]), steps[1..], end);
    }
  }

  /** What has been read and what is buffered is, byte for byte, what was written before a close. */
  lemma NothingIsLost(steps: seq<Step>, end: End)
    requires IsRun(Empty(), steps)
    ensures var lane := ReadLane(After(Empty(), steps), end);
            Returned(lane.results) + lane.buffer == Written(steps, end)
  {
    EveryRun(steps, end);
    RunAccepts(Empty(), steps, end);
  }

  // ---- what that is good for ---------------------------------------------------------------

  /** The same pipe, waking the readers on every write and every close. */
  function Eager(p: Pipe, step: Step): Pipe
    requires Enabled(p, step)
  {
    match step
    case Write(end, bytes) =>
      if p.closed then p else WithWriteLane(p, end, Broadcast(DoWrite(WriteLane(p, end), bytes)))
    case Close => Pipe(Broadcast(p.input), Broadcast(p.output), true)
    case _ => Apply(p, step)
  }

  predicate IsEagerRun(p: Pipe, steps: seq<Step>)
    decreases |steps|
  {
    steps == [] || (Enabled(p, steps[0]) && IsEagerRun(Eager(p, steps[0]), steps[1..]))
  }

  function AfterEager(p: Pipe, steps: seq<Step>): Pipe
    requires IsEagerRun(p, steps)
    decreases |steps|
  {
    if steps == [] then p else AfterEager(Eager(p, steps[0]), steps[1..])
  }

  lemma AllAwake(readers: map<nat, ReadCall>)
    requires forall t :: t in readers ==> readers[t].Awake?
    ensures Woken(readers) == readers
  {
  }

  lemma WokenTwice(readers: map<nat, ReadCall>)
    ensures Woken(Woken(readers)) == Woken(readers)
  {
  }

  lemma EagerStep(p: Pipe, step: Step)
    requires Inv(p) && Enabled(p, step)
    ensures Eager(p, step) == Apply(p, step)
  {
    if step.Write? && !p.closed {
      var lane := WriteLane(p, step.end);
      if lane.buffer == [] {
        WokenTwice(lane.readers);
      } else {
        AllAwake(lane.readers);
      }
    } else if step.Close? {
      if p.input.buffer != [] {
        AllAwake(p.input.readers);
      }
      if p.output.buffer != [] {
        AllAwake(p.output.readers);
      }
    }
  }

  /** Broadcasting only on empty buffers makes no difference to any run. */
  lemma {:induction false} EagerIsTheSame(p: Pipe, steps: seq<Step>)
    requires Inv(p)
    ensures IsEagerRun(p, steps) <==> IsRun(p, steps)
    ensures IsRun(p, steps) ==> AfterEager(p, steps) == After(p, steps)
    decreases |steps|
  {
    if steps != [] && Enabled(p, steps[0]) {
      EagerStep(p, steps[0]);
      StepKeepsInv(p, steps[0]);
      EagerIsTheSame(Apply(p, steps[0]), steps[1..]);
    }
  }

  function Retries(end: End, threads: seq<nat>): seq<Step> {
    if threads == [] then [] else [Retry(end, threads[0])] + Retries(end, threads[1..])
  }

  /** The threads are the lane's readers, each once. */
  ghost predicate Lists(threads: seq<nat>, readers: map<nat, ReadCall>) {
    && (forall t :: t in readers <==> t in threads)
    && (forall i, j :: 0 <= i < j < |threads| ==> threads[i] != threads[j])
  }

  lemma ListsRest(threads: seq<nat>, readers: map<nat, ReadCall>)
    requires Lists(threads, readers) && threads != []
    ensures Lists(threads[1..], readers - {threads[0]})
  {
    assert threads == [threads[0]] + threads[1..];
  }

  /** So many more calls have returned, each with bytes or with the end. */
  ghost predicate Returns(was: seq<Outcome>, now: seq<Outcome>, n: nat) {
    && was <= now && |now| == |was| + n
    && forall i :: |was| <= i < |now| ==> now[i].Data? || now[i] == Eof
  }

  lemma ReturnsMore(a: seq<Outcome>, b: seq<Outcome>, c: seq<Outcome>, n: nat)
    requires Returns(a, b, 1) && Returns(b, c, n)
    ensures Returns(a, c, n + 1)
  {
  }

  /** A reader that looks again after a close is done: with bytes, or with the end. */
  lemma RetryAfterClose(p: Pipe, end: End, t: nat)
    requires Inv(p) && p.closed && t in ReadLane(p, end).readers
    ensures Enabled(p, Retry(end, t))
    ensures var q := Apply(p, Retry(end, t));
            && q.closed && ReadLane(q, end).readers == ReadLane(p, end).readers - {t}
            && Returns(ReadLane(p, end).results, ReadLane(q, end).results, 1)
            && var o := ReadLane(q, end).results[|ReadLane(p, end).results|];
               if ReadLane(p, end).buffer == [] then o == Eof else o.Data?
  {
  }

  /**
   * After a close every blocked reader can run, and running ends its call, in any order: with
   * bytes while there are any, and with the end from then on.
   */
  lemma {:induction false} CloseReleasesAll(p: Pipe, end: End, threads: seq<nat>)
    requires Inv(p) && p.closed && Lists(threads, ReadLane(p, end).readers)
    ensures IsRun(p, Retries(end, threads))
    ensures var lane := ReadLane(After(p, Retries(end, threads)), end);
            && (forall t :: t !in lane.readers)
            && Returns(ReadLane(p, end).results, lane.results, |threads|) && LaneOk(lane, true)
    decreases |threads|
  {
    if threads != [] {
      var t, rest := threads[0], Retries(end, threads[1..]);
      RetryAfterClose(p, end, t);
      StepKeepsInv(p, Retry(end, t));
      ListsRest(threads, ReadLane(p, end).readers);
      CloseReleasesAll(Apply(p, Retry(end, t)), end, threads[1..]);
      assert ([Retry(end, t)] + rest)[1..] == rest;
      ReturnsMore(
        ReadLane(p, end).results, ReadLane(Apply(p, Retry(end, t)), end).results,
        ReadLane(After(p, [Retry(end, t)] + rest), end).results, |threads| - 1);
    }
  }

  // ---- what a call that is pending at the close returns --------------------------------------

  /** After a close an attempt returns bytes if any are left, and the end if none are. */
  lemma OutcomeAfterClose(lane: Lane, size: nat)
    ensures Attempt(lane, true, size).Data? <==> lane.buffer != []
    ensures Attempt(lane, true, size) == Eof <==> lane.buffer == []
  {
  }

  /** Once the buffer of a closed lane is empty, every call that returns reports the end. */
  ghost predicate Exhausted(lane: Lane, was: seq<Outcome>) {
    && lane.buffer == [] && was <= lane.results
    && forall i :: |was| <= i < |lane.results| ==> lane.results[i] == Eof
  }

  lemma StepKeepsExhausted(p: Pipe, step: Step, end: End, was: seq<Outcome>)
    requires Enabled(p, step) && p.closed && Exhausted(ReadLane(p, end), was)
    ensures Apply(p, step).closed && Exhausted(ReadLane(Apply(p, step), end), was)
  {
  }

  lemma {:induction false} RunKeepsExhausted(p: Pipe, steps: seq<Step>, end: End, was: seq<Outcome>)
    requires IsRun(p, steps) && p.closed && Exhausted(ReadLane(p, end), was)
    ensures After(p, steps).closed && Exhausted(ReadLane(After(p, steps), end), was)
    decreases |steps|
  {
    if steps != [] {
      StepKeepsExhausted(p, steps[0], end, was);
      RunKeepsExhausted(Apply(p, steps[0]), steps[1..], end, was);
    }
  }

  /**
   * A reader that is parked when the pipe is closed gets no bytes: in every continuation all
   * calls at its end that return, its own among them, report the end.
   */
  lemma ParkedAtCloseIsEof(steps: seq<Step>, end: End, t: nat, rest: seq<Step>)
    requires IsRun(Empty(), steps) && IsRun(Apply(After(Empty(), steps), Close), rest)
    requires var readers := ReadLane(After(Empty(), steps), end).readers;
             t in readers && readers[t].Parked?
    ensures var p := After(Empty(), steps);
            var q := After(Apply(p, Close), rest);
            && q.closed && Exhausted(ReadLane(q, end), ReadLane(p, end).results)
            && forall size :: Attempt(ReadLane(q, end), q.closed, size) == Eof
  {
    var p := After(Empty(), steps);
    EveryRun(steps, end);
    RunKeepsExhausted(Apply(p, Close), rest, end, ReadLane(p, end).results);
  }

  /** One reader parks; bytes may come and wake it; then the pipe is closed. */
  function WaitsThenCloses(bytes: seq<byte>): seq<Step> {
    if bytes == [] then [Read(Near, 0, 1), Close] else [Read(Near, 0, 1), Write(Remote, bytes), Close]
  }

  /** Which of the two a blocked reader gets when it looks again: the end, or bytes that woke it. */
  lemma BlockedAtClose(bytes: seq<byte>)
    ensures IsRun(Empty(), WaitsThenCloses(bytes))
    ensures var p := After(Empty(), WaitsThenCloses(bytes));
            && p.closed && Enabled(p, Retry(Near, 0)) && p.input.buffer == bytes
            && Apply(p, Retry(Near, 0)).input.results == [if bytes == [] then Eof else Data(bytes[..1])]
  {
    var p1 := Apply(Empty(), Read(Near, 0, 1));
    var steps := WaitsThenCloses(bytes);
    if bytes == [] {
      assert steps[1..] == [Close] && [Close][1..] == [];
      assert IsRun(p1, [Close]);
    } else {
      var p2 := Apply(p1, Write(Remote, bytes));
      assert p2.input.buffer == bytes;
      assert steps[1..] == [Write(Remote, bytes), Close] && steps[1..][1..] == [Close] && [Close][1..] == [];
      assert IsRun(p2, [Close]) && After(p2, [Close]) == Apply(p2, Close);
      assert IsRun(p1, [Write(Remote, bytes), Close]);
    }
  }

  // ---- one-byte readers ------------------------------------------------------------------------

  /** How many reads the run starts at this end. */
  function Started(steps: seq<Step>, end: End): nat {
    if steps == [] then 0
    else (if steps[0].Read? && steps[0].end == end then 1 else 0) + Started(steps[1..], end)
  }

  /** Nobody closes, and every read at this end asks for one byte. */
  ghost predicate ByteWise(steps: seq<Step>, end: End) {
    forall i :: 0 <= i < |steps| ==> !steps[i].Close? && (steps[i].Read? && steps[i].end == end ==> steps[i].size == 1)
  }

  ghost predicate Bytes(lane: Lane) {
    && (forall t :: t in lane.readers ==> lane.readers[t].size == 1)
    && |Returned(lane.results)| == |lane.results|
  }

  /** Calls that have been made and not returned, and calls that have returned. */
  ghost function Calls(lane: Lane): nat {
    |lane.readers| + |lane.results|
  }

  lemma SameCount(readers: map<nat, ReadCall>)
    ensures |Woken(readers)| == |readers|
  {
    assert Woken(readers).Keys == readers.Keys;
  }

  lemma AttemptCounts(lane: Lane, t: nat)
    requires Bytes(lane)
    ensures Bytes(DoAttempt(lane, false, t, 1))
    ensures Calls(DoAttempt(lane, false, t, 1)) == Calls(lane) + if t in lane.readers then 0 else 1
  {
    var o, after := Attempt(lane, false, 1), DoAttempt(lane, false, t, 1);
    ReturnedAppend(lane.results, o);
    if o.Blocks? {
      assert after.readers.Keys == lane.readers.Keys + {t};
    } else {
      assert after.readers.Keys == lane.readers.Keys - {t};
    }
  }

  lemma StepCounts(p: Pipe, step: Step, end: End)
    requires Enabled(p, step) && !p.closed && ByteWise([step], end) && Bytes(ReadLane(p, end))
    ensures !Apply(p, step).closed && Bytes(ReadLane(Apply(p, step), end))
    ensures Calls(ReadLane(Apply(p, step), end)) == Calls(ReadLane(p, end)) + Started([step], end)
  {
    var lane := ReadLane(p, end);
    assert [step][0] == step && [step][1..] == [];
    match step {
      case Read(e, t, size) => if e == end { AttemptCounts(lane, t); }
      case Retry(e, t) => if e == end { AttemptCounts(lane, t); }
      case Write(e, bytes) => SameCount(lane.readers);
    }
  }

  lemma {:induction false} RunCounts(p: Pipe, steps: seq<Step>, end: End)
    requires IsRun(p, steps) && !p.closed && ByteWise(steps, end) && Bytes(ReadLane(p, end))
    ensures Bytes(ReadLane(After(p, steps), end))
    ensures Calls(ReadLane(After(p, steps), end)) == Calls(ReadLane(p, end)) + Started(steps, end)
    decreases |steps|
  {
    if steps != [] {
      assert [steps[0]][1..] == [];
      StepCounts(p, steps[0], end);
      RunCounts(Apply(p, steps[0]), steps[1..], end);
    }
  }

  /**
   * The case the test suite leaves open: as many one-byte reads as bytes, any number of threads,
   * any interleaving. Once no reader can run, every call has returned and every byte is read.
   */
  lemma EveryByteIsRead(steps: seq<Step>, end: End)
    requires IsRun(Empty(), steps) && ByteWise(steps, end)
    requires var lane := ReadLane(After(Empty(), steps), end);
             && Started(steps, end) == |lane.accepted|
             && forall t :: t in lane.readers ==> lane.readers[t].Parked?
    ensures var lane := ReadLane(After(Empty(), steps), end);
            lane.readers == map[] && Returned(lane.results) == lane.accepted
  {
    assert Returned([]) == [];
    EveryRun(steps, end);
    RunCounts(Empty(), steps, end);
    var lane := ReadLane(After(Empty(), steps), end);
    if lane.readers != map[] {
      SomeReader(lane.readers);
    }
  }

  lemma SomeReader(readers: map<nat, ReadCall>)
    requires readers != map[]
    ensures |readers| > 0 && exists t :: t in readers
  {
    assert readers.Keys != {};
  }
}
