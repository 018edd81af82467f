/** The connection of the test suite: the sections under its locks, as steps of module BytePipe. */
module MockConnection {
  import opened Messages
  import opened Encoding
  import opened BytePipe

  /** A condition variable, with who waits on it or has been woken and not run yet. */
  class Cond {
    var readers: map<nat, ReadCall>

    constructor ()
      ensures readers == map[]
    {
      readers := map[];
    }

    method Wait(thread: nat, size: nat)
      modifies this
      ensures readers == old(readers)[thread := Parked(size)]
    {
      readers := readers[thread := Parked(size)];
    }

    method Leave(thread: nat)
      modifies this
      ensures readers == old(readers) - {thread}
    {
      readers := readers - {thread};
    }

    method Broadcast()
      modifies this
      ensures readers == Woken(old(readers))
    {
      readers := Woken(readers);
    }
  }

  class MockConnection {
    const input: Buffer
    const output: Buffer
    var closed: bool
    const moreData: Cond
    const moreRemoteData: Cond
    ghost var pipe: Pipe // the pipe this object stands for

    ghost function Repr(): set<object> {
      {this, input, output, moreData, moreRemoteData}
    }

    ghost predicate Valid()
      reads Repr()
    {
      && input != output && moreData != moreRemoteData && closed == pipe.closed
      && LaneIs(input, moreData, pipe.input) && LaneIs(output, moreRemoteData, pipe.output)
    }

    static ghost predicate LaneIs(buffer: Buffer, condition: Cond, lane: Lane)
      reads buffer, condition
    {
      buffer.data == lane.buffer && condition.readers == lane.readers
    }

    constructor ()
      ensures Valid() && fresh(Repr())
      ensures pipe == Empty()
    {
      input := new Buffer();
      output := new Buffer();
      moreData := new Cond();
      moreRemoteData := new Cond();
      closed := false;
      pipe := Empty();
    }

    /** One pass of the read loop, from taking the lock to waiting or returning. */
    method ReadBufWithLock(thread: nat, size: nat, buffer: Buffer, condition: Cond, ghost lane: Lane)
      returns (outcome: Outcome)
      requires LaneIs(buffer, condition, lane)
      modifies buffer, condition
      ensures outcome == Attempt(lane, closed, size)
      ensures outcome.Data? ==>
                |outcome.bytes| == if size <= |lane.buffer| then size else |lane.buffer|
      ensures LaneIs(buffer, condition, DoAttempt(lane, closed, thread, size))
    {
      var availBytes := |buffer.data|;
      if closed && availBytes == 0 {
        condition.Leave(thread);
        return Eof;
      }
      if availBytes == 0 {
        condition.Wait(thread, size);
        return Blocks;
      }
      ghost var n := Min(size, |lane.buffer|);
      var bytes := buffer.Read(size);
      condition.Leave(thread);
      assert bytes == lane.buffer[..n] && buffer.data == lane.buffer[n..];
      outcome := Data(bytes);
    }

    /** The step of a read that begins, or of one that has been woken and looks again. */
    static function ReadStep(end: End, thread: nat, size: nat, retry: bool): Step {
      if retry then Retry(end, thread) else BytePipe.Read(end, thread, size)
    }

    method ReadSection(end: End, thread: nat, size: nat, ghost retry: bool) returns (outcome: Outcome)
      requires Valid() && BytePipe.Enabled(pipe, ReadStep(end, thread, size, retry))
      requires retry ==> ReadLane(pipe, end).readers[thread].size == size
      modifies Repr()
      ensures Valid() && pipe == BytePipe.Apply(old(pipe), ReadStep(end, thread, size, retry))
      ensures outcome == Attempt(ReadLane(old(pipe), end), old(pipe).closed, size)
    {
      if end.Near? {
        outcome := ReadBufWithLock(thread, size, input, moreData, pipe.input);
      } else {
        outcome := ReadBufWithLock(thread, size, output, moreRemoteData, pipe.output);
      }
      pipe := BytePipe.Apply(pipe, ReadStep(end, thread, size, retry));
    }

    /** None written stands for the end-of-file error. */
    method WriteBufWithLock(bytes: seq<byte>, buffer: Buffer, condition: Cond, ghost lane: Lane) returns (ok: bool)
      requires LaneIs(buffer, condition, lane)
      modifies buffer, condition
      ensures ok == !closed
      ensures LaneIs(buffer, condition, if closed then lane else DoWrite(lane, bytes))
    {
      if closed {
        return false;
      }
      var availBytes := |buffer.data|;
      buffer.Write(bytes);
      if availBytes == 0 {
        condition.Broadcast();
      }
      ok := true;
    }

    method WriteSection(end: End, bytes: seq<byte>) returns (ok: bool)
      requires Valid()
      modifies Repr()
      ensures Valid() && pipe == BytePipe.Apply(old(pipe), BytePipe.Write(end, bytes))
      ensures ok == !old(pipe).closed
    {
      if end.Near? {
        ok := WriteBufWithLock(bytes, output, moreRemoteData, pipe.output);
      } else {
        ok := WriteBufWithLock(bytes, input, moreData, pipe.input);
      }
      pipe := BytePipe.Apply(pipe, BytePipe.Write(end, bytes));
    }

    method CloseSection()
      requires Valid()
      modifies Repr()
      ensures Valid() && pipe == BytePipe.Apply(old(pipe), Close)
    {
      closed := true;
      if |input.data| == 0 {
        moreData.Broadcast();
      }
      if |output.data| == 0 {
        moreRemoteData.Broadcast();
      }
      pipe := BytePipe.Apply(pipe, Close);
    }
  }
}
