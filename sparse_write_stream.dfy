/** The `SparseWriteStream` class of lib/sparse-stream/sparse-write-stream.ts
    and the destination it writes to.  Each stream callback is a method; each
    method is proved to change the state exactly as the matching function of
    SparseWriteSpec says, so everything proved there holds of the class. */
module SparseWriteStreams {
  import opened Basics
  import opened SparseWriteSpec

  /** The destination's side of `destination.write(buffer, 0, length,
      position)`: a log of the chunks it accepted and a count of the calls
      made.  Whether call number n succeeds is `attemptOutcome(n)`. */
  class Destination {
    const attemptOutcome: nat -> Attempt
    var written: seq<Chunk>
    var attempts: nat

    constructor(attemptOutcome: nat -> Attempt)
      ensures this.attemptOutcome == attemptOutcome
      ensures written == [] && attempts == 0
    {
      this.attemptOutcome := attemptOutcome;
      written := [];
      attempts := 0;
    }

    /** One write call: the whole chunk lands, or the call throws and
        nothing lands. */
    method Write(c: Chunk) returns (a: Attempt)
      modifies this
      ensures a == attemptOutcome(old(attempts))
      ensures attempts == old(attempts) + 1
      ensures written == if a == Written then old(written) + [c] else old(written)
    {
      a := attemptOutcome(attempts);
      attempts := attempts + 1;
      if a == Written {
        written := written + [c];
      }
    }
  }

  class SparseWriteStream {
    const destination: Destination
    const firstBytesToKeep: nat
    const maxRetries: nat
    const retryBaseTimeout: nat
    const isTransient: Error -> bool
    var position: nat
    var bytesWritten: nat
    var firstChunks: seq<Chunk>
    var delays: seq<nat>
    var destroyed: bool

    /** The fixed parameters, as the specification functions take them. */
    function Config(): Settings {
      Settings(firstBytesToKeep, maxRetries, retryBaseTimeout, isTransient)
    }

    /** The stream and its destination, as one value. */
    function State(): Stream
      reads this, destination
    {
      Stream(position, bytesWritten, firstChunks, destination.written,
             destination.attempts, delays, destroyed)
    }

    /** The held-back chunks all lie below `firstBytesToKeep`. */
    ghost predicate Valid()
      reads this
    {
      HeldBelow(firstChunks, firstBytesToKeep)
    }

    /** `new SparseWriteStream(destination, firstBytesToKeep = 0,
        maxRetries = 5)`; the retry base timeout and the transient-error
        classifier are the module constants the source imports. */
    constructor(destination: Destination, retryBaseTimeout: nat, isTransient: Error -> bool,
                firstBytesToKeep: nat := 0, maxRetries: nat := DefaultMaxRetries)
      ensures Valid()
      ensures this.destination == destination && this.firstBytesToKeep == firstBytesToKeep
      ensures this.maxRetries == maxRetries && this.retryBaseTimeout == retryBaseTimeout
      ensures this.isTransient == isTransient
      ensures State() == Fresh(destination.attempts).(written := destination.written)
    {
      this.destination := destination;
      this.firstBytesToKeep := firstBytesToKeep;
      this.maxRetries := maxRetries;
      this.retryBaseTimeout := retryBaseTimeout;
      this.isTransient := isTransient;
      position := 0;
      bytesWritten := 0;
      firstChunks := [];
      delays := [];
      destroyed := false;
    }

    /** `writeChunk(chunk, flushing)`: the retry loop. */
    method WriteChunk(chunk: Chunk, flushing: bool := false) returns (outcome: Outcome)
      modifies this`position, this`bytesWritten, this`delays, destination
      ensures Step(State(), outcome)
           == WriteChunkStep(old(State()), Config(), destination.attemptOutcome, chunk, flushing)
    {
      var retries: nat := 0;
      ghost var run := Retry(destination.attemptOutcome, isTransient, destination.attempts, 0, maxRetries);
      while true
        invariant retries <= maxRetries
        invariant bytesWritten == old(bytesWritten) && destination.written == old(destination.written)
        invariant delays == old(delays) + Backoffs(retryBaseTimeout, retries)
        invariant run == Retry(destination.attemptOutcome, isTransient, destination.attempts, retries, maxRetries)
        decreases maxRetries - retries
      {
        position := chunk.position;
        var attempt := destination.Write(chunk);
        if attempt == Written {
          assert run == RetryRun(destination.attempts, retries, Pass);
          if !flushing {
            position := position + |chunk.buffer|;
            bytesWritten := bytesWritten + |chunk.buffer|;
          }
          return Pass;
        }
        var error := attempt.error;
        if isTransient(error) {
          if retries < maxRetries {
            retries := retries + 1;
            delays := delays + [retryBaseTimeout * retries];
            continue;
          }
          error := error.(code := Unplugged);
        }
        assert run == RetryRun(destination.attempts, retries, Fail(error));
        return Fail(error);
      }
    }

    /** `_write(chunk)`: hold back what lies below `firstBytesToKeep`,
        write the rest. */
    method Write(chunk: Chunk) returns (outcome: Outcome)
      requires Valid()
      modifies this, destination
      ensures Valid()
      ensures Step(State(), outcome)
           == WriteStep(old(State()), Config(), destination.attemptOutcome, chunk)
    {
      WritePreservesHeldBelow(State(), Config(), destination.attemptOutcome, chunk);
      if chunk.position < firstBytesToKeep {
        var end := chunk.position + |chunk.buffer|;
        if end <= firstBytesToKeep {
          firstChunks := firstChunks + [chunk];
          position := chunk.position + |chunk.buffer|;
          bytesWritten := bytesWritten + |chunk.buffer|;
          outcome := Pass;
        } else {
          var difference := firstBytesToKeep - chunk.position;
          firstChunks := firstChunks + [Chunk(chunk.position, chunk.buffer[..difference])];
          position := firstBytesToKeep;
          bytesWritten := bytesWritten + difference;
          var remainingBuffer := chunk.buffer[difference..];
          outcome := WriteChunk(Chunk(firstBytesToKeep, remainingBuffer));
        }
      } else {
        outcome := WriteChunk(chunk);
      }
    }

    /** `_final()`: flush the held-back chunks in order; on a failure,
        destroy the stream and pass the error on. */
    method Final() returns (outcome: Outcome)
      requires Valid()
      modifies this, destination
      ensures Valid()
      ensures Step(State(), outcome) == FinalStep(old(State()), Config(), destination.attemptOutcome)
    {
      for i := 0 to |firstChunks|
        invariant firstChunks == old(firstChunks) && !destroyed == !old(destroyed)
        invariant Flush(old(State()), Config(), destination.attemptOutcome, firstChunks)
               == Flush(State(), Config(), destination.attemptOutcome, firstChunks[i..])
      {
        outcome := WriteChunk(firstChunks[i], true);
        if outcome.Fail? {
          destroyed := true;
          return;
        }
      }
      outcome := Pass;
    }
  }
}
