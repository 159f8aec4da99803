/** The sparse write engine of lib/sparse-stream/sparse-write-stream.ts as
    pure state transitions.

    A `Stream` value is everything a `SparseWriteStream` and its destination
    can be observed to hold: the progress counters, the chunks held back
    below `firstBytesToKeep`, the destination's log of successful writes,
    the number of write attempts made on the destination so far and the
    backoff delays awaited.  Whether an attempt succeeds is decided by an
    oracle `attempt: nat -> Attempt` indexed by that attempt count, so any
    pattern of transient and fatal failures can be expressed.  The class in
    sparse_write_stream.dfy is proved to follow these functions exactly. */
module SparseWriteSpec {
  import opened Basics

  /** `{position, buffer}`: a contiguous run of bytes destined for one offset. */
  datatype Chunk = Chunk(position: nat, buffer: seq<Byte>)

  /** The offset just past a chunk's last byte. */
  function End(c: Chunk): nat {
    c.position + |c.buffer|
  }

  /** What one call of the destination's `write` does: it lands the whole
      buffer at the chunk's position, or it throws. */
  datatype Attempt = Written | Failed(error: Error)

  /** The constructor's default for `maxRetries`. */
  const DefaultMaxRetries: nat := 5

  /** The code given to a transient error once retries are exhausted. */
  const Unplugged: string := "EUNPLUGGED"

  /** The stream's fixed parameters.  `retryBaseTimeout` is the imported
      `RETRY_BASE_TIMEOUT` constant and `isTransient` the imported
      `isTransientError` classifier, both passed in here. */
  datatype Settings = Settings(
    firstBytesToKeep: nat,
    maxRetries: nat,
    retryBaseTimeout: nat,
    isTransient: Error -> bool)

  /** The observable state of a stream and of its destination. */
  datatype Stream = Stream(
    position: nat,
    bytesWritten: nat,
    firstChunks: seq<Chunk>,
    written: seq<Chunk>,
    attempts: nat,
    delays: seq<nat>,
    destroyed: bool)

  /** A freshly constructed stream on a destination that has already seen
      `attempts` write calls. */
  function Fresh(attempts: nat): (s: Stream)
    ensures s.bytesWritten == 0 && s.firstChunks == [] && s.written == []
    ensures s.attempts == attempts && s.delays == [] && !s.destroyed
  {
    Stream(0, 0, [], [], attempts, [], false)
  }

  /** The state after an operation, and how the operation's promise settled. */
  datatype Step = Step(state: Stream, outcome: Outcome)

  /** Where the retry loop of `writeChunk` stops: the number of the next
      destination attempt, how many retries it made, and its outcome. */
  datatype RetryRun = RetryRun(nextAttempt: nat, retries: nat, outcome: Outcome)

  /** The `while (true)` retry loop of `writeChunk`, entered at destination
      attempt `next` with `retries` retries already made.  A success ends
      it; a transient error is retried while `retries < maxRetries`; a
      transient error after the last retry is relabelled `EUNPLUGGED`; any
      other error ends it unchanged.  The loop never makes more than
      `maxRetries + 1` attempts. */
  function Retry(attempt: nat -> Attempt, isTransient: Error -> bool,
                 next: nat, retries: nat, maxRetries: nat): (r: RetryRun)
    requires retries <= maxRetries
    ensures next < r.nextAttempt <= next + (maxRetries - retries) + 1
    ensures r.retries == retries + (r.nextAttempt - next - 1) <= maxRetries
    decreases maxRetries - retries
  {
    match attempt(next)
    case Written => RetryRun(next + 1, retries, Pass)
    case Failed(e) =>
      if isTransient(e) && retries < maxRetries then
        Retry(attempt, isTransient, next + 1, retries + 1, maxRetries)
      else
        RetryRun(next + 1, retries, Fail(if isTransient(e) then e.(code := Unplugged) else e))
  }

  /** The delays awaited before retries 1 to n: retry number i waits
      `base * i` (linear backoff). */
  function Backoffs(base: nat, n: nat): (ds: seq<nat>)
    ensures |ds| == n
    ensures forall i :: 0 <= i < n ==> ds[i] == base * (i + 1)
  {
    if n == 0 then [] else Backoffs(base, n - 1) + [base * n]
  }

  /** The retry loop's run, attempt by attempt: every attempt but the last
      failed transiently, the last one decides the outcome, a non-transient
      error is passed on as it is, and a transient one only ends the loop
      once all `maxRetries` retries are spent, relabelled `EUNPLUGGED`. */
  lemma {:induction false} RetryAttempts(attempt: nat -> Attempt, isTransient: Error -> bool,
                                         next: nat, retries: nat, maxRetries: nat)
    requires retries <= maxRetries
    ensures var r := Retry(attempt, isTransient, next, retries, maxRetries);
      && (forall k :: next <= k < r.nextAttempt - 1 ==>
            attempt(k).Failed? && isTransient(attempt(k).error))
      && (r.outcome == Pass <==> attempt(r.nextAttempt - 1) == Written)
      && (r.outcome.Fail? ==>
            && attempt(r.nextAttempt - 1).Failed?
            && var e := attempt(r.nextAttempt - 1).error;
               && r.outcome.error == (if isTransient(e) then e.(code := Unplugged) else e)
               && (isTransient(e) ==> r.retries == maxRetries))
    decreases maxRetries - retries
  {
    match attempt(next)
    case Written =>
    case Failed(e) =>
      if isTransient(e) && retries < maxRetries {
        RetryAttempts(attempt, isTransient, next + 1, retries + 1, maxRetries);
      }
  }

  /** Fewer transient failures than the retry budget allows, followed by a
      success: the chunk is written, after exactly that many retries. */
  lemma {:induction false} RetryRecovers(attempt: nat -> Attempt, isTransient: Error -> bool,
                                         next: nat, retries: nat, maxRetries: nat, failures: nat)
    requires retries + failures <= maxRetries
    requires forall k :: next <= k < next + failures ==>
               attempt(k).Failed? && isTransient(attempt(k).error)
    requires attempt(next + failures) == Written
    ensures Retry(attempt, isTransient, next, retries, maxRetries)
         == RetryRun(next + failures + 1, retries + failures, Pass)
    decreases failures
  {
    if failures > 0 {
      assert attempt(next).Failed? && isTransient(attempt(next).error);
      RetryRecovers(attempt, isTransient, next + 1, retries + 1, maxRetries, failures - 1);
    }
  }

  /** Transient failures on every attempt the budget allows: the loop
      makes exactly `maxRetries + 1` attempts in all and rethrows the last
      error with code `EUNPLUGGED`. */
  lemma {:induction false} RetryGivesUp(attempt: nat -> Attempt, isTransient: Error -> bool,
                                        next: nat, retries: nat, maxRetries: nat)
    requires retries <= maxRetries
    requires forall k :: next <= k <= next + (maxRetries - retries) ==>
               attempt(k).Failed? && isTransient(attempt(k).error)
    ensures var last := attempt(next + (maxRetries - retries)).error;
      Retry(attempt, isTransient, next, retries, maxRetries)
        == RetryRun(next + (maxRetries - retries) + 1, maxRetries, Fail(last.(code := Unplugged)))
    decreases maxRetries - retries
  {
    assert attempt(next).Failed? && isTransient(attempt(next).error);
    if retries < maxRetries {
      RetryGivesUp(attempt, isTransient, next + 1, retries + 1, maxRetries);
    }
  }

  /** `writeChunk(chunk, flushing)`: the retry loop, then on success the
      counters advance by the chunk's length unless the chunk is being
      flushed.  `position` is set to the chunk's position before every
      attempt.  The held-back chunks are never touched. */
  function WriteChunkStep(s: Stream, cfg: Settings, attempt: nat -> Attempt,
                          c: Chunk, flushing: bool): (r: Step)
    ensures r.state.firstChunks == s.firstChunks && r.state.destroyed == s.destroyed
    ensures s.attempts < r.state.attempts <= s.attempts + cfg.maxRetries + 1
    ensures r.state.delays
         == s.delays + Backoffs(cfg.retryBaseTimeout, r.state.attempts - s.attempts - 1)
    ensures r.outcome == Pass ==>
              && r.state.written == s.written + [c]
              && r.state.position == (if flushing then c.position else End(c))
              && r.state.bytesWritten == s.bytesWritten + (if flushing then 0 else |c.buffer|)
    ensures r.outcome.Fail? ==>
              && r.state.written == s.written
              && r.state.position == c.position
              && r.state.bytesWritten == s.bytesWritten
  {
    var run := Retry(attempt, cfg.isTransient, s.attempts, 0, cfg.maxRetries);
    var tried := s.(position := c.position, attempts := run.nextAttempt,
                    delays := s.delays + Backoffs(cfg.retryBaseTimeout, run.retries));
    match run.outcome
    case Fail(e) => Step(tried, Fail(e))
    case Pass =>
      if flushing then Step(tried.(written := s.written + [c]), Pass)
      else Step(tried.(written := s.written + [c], position := End(c),
                       bytesWritten := s.bytesWritten + |c.buffer|), Pass)
  }

  /** The part of a chunk that lies below `firstBytesToKeep`: the whole
      chunk when it ends at or before the boundary, its prefix when it
      straddles it, nothing when it starts at or beyond it. */
  function Held(c: Chunk, firstBytesToKeep: nat): (r: seq<Chunk>)
    ensures |r| <= 1
    ensures r != [] <==> c.position < firstBytesToKeep
    ensures forall h :: h in r ==> h.position == c.position && End(h) <= firstBytesToKeep
  {
    if c.position >= firstBytesToKeep then []
    else if End(c) <= firstBytesToKeep then [c]
    else [Chunk(c.position, c.buffer[..firstBytesToKeep - c.position])]
  }

  /** The part of a chunk that lies at or beyond `firstBytesToKeep`. */
  function Direct(c: Chunk, firstBytesToKeep: nat): (r: seq<Chunk>)
    ensures |r| <= 1
    ensures r != [] <==> firstBytesToKeep < End(c) || firstBytesToKeep <= c.position
    ensures forall d :: d in r ==> firstBytesToKeep <= d.position && End(d) == End(c)
  {
    if c.position >= firstBytesToKeep then [c]
    else if End(c) <= firstBytesToKeep then []
    else [Chunk(firstBytesToKeep, c.buffer[firstBytesToKeep - c.position..])]
  }

  /** The bytes of a sequence of chunks, one after the other. */
  function Bytes(cs: seq<Chunk>): (b: seq<Byte>)
    ensures |cs| == 1 ==> b == cs[0].buffer
  {
    if cs == [] then [] else cs[0].buffer + Bytes(cs[1..])
  }

  /** Splitting a chunk at the boundary loses and duplicates nothing: the
      held part and the direct part concatenate to the original buffer,
      the held part starts where the chunk starts and the direct part
      starts where the held part ends. */
  lemma SplitReassembles(c: Chunk, firstBytesToKeep: nat)
    ensures Bytes(Held(c, firstBytesToKeep)) + Bytes(Direct(c, firstBytesToKeep)) == c.buffer
    ensures Held(c, firstBytesToKeep) != [] && Direct(c, firstBytesToKeep) != [] ==>
              End(Held(c, firstBytesToKeep)[0]) == Direct(c, firstBytesToKeep)[0].position
  {
    var k := firstBytesToKeep;
    if c.position < k && k < End(c) {
      assert c.buffer[..k - c.position] + c.buffer[k - c.position..] == c.buffer;
    }
  }

  /** `__write(chunk)`: a chunk below `firstBytesToKeep` is held back (split
      at the boundary if it straddles it) and counted as written at once;
      everything at or beyond the boundary goes through `writeChunk`. */
  function WriteStep(s: Stream, cfg: Settings, attempt: nat -> Attempt, c: Chunk): (r: Step)
    ensures r.state.firstChunks == s.firstChunks + Held(c, cfg.firstBytesToKeep)
    ensures r.state.destroyed == s.destroyed
    ensures c.position < cfg.firstBytesToKeep && End(c) <= cfg.firstBytesToKeep ==>
              r == Step(s.(firstChunks := s.firstChunks + [c], position := End(c),
                           bytesWritten := s.bytesWritten + |c.buffer|), Pass)
    ensures r.outcome == Pass ==>
              && r.state.written == s.written + Direct(c, cfg.firstBytesToKeep)
              && r.state.bytesWritten == s.bytesWritten + |c.buffer|
              && r.state.position == End(c)
    ensures r.outcome.Fail? ==>
              && r.state.written == s.written
              && r.state.bytesWritten == s.bytesWritten + |Bytes(Held(c, cfg.firstBytesToKeep))|
  {
    var keep := cfg.firstBytesToKeep;
    if c.position < keep then
      if End(c) <= keep then
        Step(s.(firstChunks := s.firstChunks + [c], position := End(c),
                bytesWritten := s.bytesWritten + |c.buffer|), Pass)
      else
        var difference := keep - c.position;
        var held := s.(firstChunks := s.firstChunks + [Chunk(c.position, c.buffer[..difference])],
                       position := keep, bytesWritten := s.bytesWritten + difference);
        WriteChunkStep(held, cfg, attempt, Chunk(keep, c.buffer[difference..]), false)
    else
      WriteChunkStep(s, cfg, attempt, c, false)
  }

  /** The `for` loop of `__final`: each chunk through `writeChunk` with
      `flushing` set, in order, stopping at the first failure.  The
      counters are left alone, and the chunks that landed are a prefix of
      the list, all of it on success. */
  function Flush(s: Stream, cfg: Settings, attempt: nat -> Attempt, chunks: seq<Chunk>): (r: Step)
    ensures r.state.bytesWritten == s.bytesWritten
    ensures r.state.firstChunks == s.firstChunks && r.state.destroyed == s.destroyed
    ensures r.outcome == Pass ==> r.state.written == s.written + chunks
    ensures r.outcome.Fail? ==>
              && s.written <= r.state.written
              && |r.state.written| < |s.written| + |chunks|
              && r.state.written == s.written + chunks[..|r.state.written| - |s.written|]
    decreases |chunks|
  {
    if chunks == [] then Step(s, Pass)
    else
      var first := WriteChunkStep(s, cfg, attempt, chunks[0], true);
      if first.outcome.Fail? then first
      else
        var rest := Flush(first.state, cfg, attempt, chunks[1..]);
        assert chunks == [chunks[0]] + chunks[1..];
        rest
  }

  /** `__final()`: flush the held-back chunks in their original order; on
      a failure the stream is destroyed and the error propagates. */
  function FinalStep(s: Stream, cfg: Settings, attempt: nat -> Attempt): (r: Step)
    ensures r.state.bytesWritten == s.bytesWritten && r.state.firstChunks == s.firstChunks
    ensures r.outcome == Pass ==> r.state.written == s.written + s.firstChunks
    ensures r.state.destroyed == (s.destroyed || r.outcome.Fail?)
    ensures r.outcome.Fail? ==>
              && s.written <= r.state.written
              && |r.state.written| < |s.written| + |s.firstChunks|
              && r.state.written == s.written + s.firstChunks[..|r.state.written| - |s.written|]
  {
    var flushed := Flush(s, cfg, attempt, s.firstChunks);
    if flushed.outcome.Fail? then Step(flushed.state.(destroyed := true), flushed.outcome)
    else flushed
  }

  /** The total length of the chunks' buffers. */
  function TotalLength(cs: seq<Chunk>): nat {
    if cs == [] then 0 else |cs[0].buffer| + TotalLength(cs[1..])
  }

  /** The held parts of a sequence of chunks, in order. */
  function AllHeld(cs: seq<Chunk>, firstBytesToKeep: nat): seq<Chunk> {
    if cs == [] then [] else Held(cs[0], firstBytesToKeep) + AllHeld(cs[1..], firstBytesToKeep)
  }

  /** The direct parts of a sequence of chunks, in order. */
  function AllDirect(cs: seq<Chunk>, firstBytesToKeep: nat): seq<Chunk> {
    if cs == [] then [] else Direct(cs[0], firstBytesToKeep) + AllDirect(cs[1..], firstBytesToKeep)
  }

  /** The stream's `_write` called on each chunk in turn, as the writable
      side of a pipe does, stopping at the first rejected write. */
  function WriteAll(s: Stream, cfg: Settings, attempt: nat -> Attempt, cs: seq<Chunk>): (r: Step)
    ensures r.state.destroyed == s.destroyed
    decreases |cs|
  {
    if cs == [] then Step(s, Pass)
    else
      var first := WriteStep(s, cfg, attempt, cs[0]);
      if first.outcome.Fail? then first
      else WriteAll(first.state, cfg, attempt, cs[1..])
  }

  /** When every write succeeds, the counters have grown by the total
      length of the input, the held list has grown by the held parts, and
      the destination has received exactly the direct parts, in input
      order. */
  lemma {:induction false} WriteAllTotals(s: Stream, cfg: Settings, attempt: nat -> Attempt, cs: seq<Chunk>)
    requires WriteAll(s, cfg, attempt, cs).outcome == Pass
    ensures WriteAll(s, cfg, attempt, cs).state.bytesWritten == s.bytesWritten + TotalLength(cs)
    ensures WriteAll(s, cfg, attempt, cs).state.firstChunks == s.firstChunks + AllHeld(cs, cfg.firstBytesToKeep)
    ensures WriteAll(s, cfg, attempt, cs).state.written == s.written + AllDirect(cs, cfg.firstBytesToKeep)
    decreases |cs|
  {
    if cs != [] {
      var keep := cfg.firstBytesToKeep;
      var t := WriteStep(s, cfg, attempt, cs[0]).state;
      WriteAllUnfolds(s, cfg, attempt, cs);
      WriteAllTotals(t, cfg, attempt, cs[1..]);
      assert AllHeld(cs, keep) == Held(cs[0], keep) + AllHeld(cs[1..], keep);
      assert AllDirect(cs, keep) == Direct(cs[0], keep) + AllDirect(cs[1..], keep);
    }
  }

  /** One step of `WriteAll` after a successful write. */
  lemma WriteAllUnfolds(s: Stream, cfg: Settings, attempt: nat -> Attempt, cs: seq<Chunk>)
    requires cs != [] && WriteAll(s, cfg, attempt, cs).outcome == Pass
    ensures WriteStep(s, cfg, attempt, cs[0]).outcome == Pass
    ensures WriteAll(s, cfg, attempt, cs) == WriteAll(WriteStep(s, cfg, attempt, cs[0]).state, cfg, attempt, cs[1..])
  {
  }

  /** A whole pipe into a fresh stream: every chunk is written, then the
      stream is finalised. */
  function Session(cfg: Settings, attempt: nat -> Attempt, attempts: nat, cs: seq<Chunk>): (r: Step)
    ensures r.outcome == Pass ==> !r.state.destroyed
  {
    var wrote := WriteAll(Fresh(attempts), cfg, attempt, cs);
    if wrote.outcome.Fail? then wrote else FinalStep(wrote.state, cfg, attempt)
  }

  /** On a successful session the destination has received every byte at
      or beyond `firstBytesToKeep` first, in input order, and then every
      byte below it, in input order; `bytesWritten` is the total length of
      the input, each byte counted once. */
  lemma SessionOrderAndCount(cfg: Settings, attempt: nat -> Attempt, attempts: nat, cs: seq<Chunk>)
    requires Session(cfg, attempt, attempts, cs).outcome == Pass
    ensures Session(cfg, attempt, attempts, cs).state.written
         == AllDirect(cs, cfg.firstBytesToKeep) + AllHeld(cs, cfg.firstBytesToKeep)
    ensures Session(cfg, attempt, attempts, cs).state.bytesWritten == TotalLength(cs)
  {
    var wrote := WriteAll(Fresh(attempts), cfg, attempt, cs);
    WriteAllTotals(Fresh(attempts), cfg, attempt, cs);
    assert wrote.state.written == AllDirect(cs, cfg.firstBytesToKeep);
    assert wrote.state.firstChunks == AllHeld(cs, cfg.firstBytesToKeep);
    assert Session(cfg, attempt, attempts, cs) == FinalStep(wrote.state, cfg, attempt);
  }

  /** Every held-back chunk lies wholly inside `[0, firstBytesToKeep)`. */
  ghost predicate HeldBelow(chunks: seq<Chunk>, firstBytesToKeep: nat) {
    forall i :: 0 <= i < |chunks| ==> End(chunks[i]) <= firstBytesToKeep
  }

  /** Nothing `WriteAll` holds back reaches `firstBytesToKeep`, and nothing
      it writes directly starts below it. */
  lemma {:induction false} PartsOnTheirSide(cs: seq<Chunk>, firstBytesToKeep: nat)
    ensures HeldBelow(AllHeld(cs, firstBytesToKeep), firstBytesToKeep)
    ensures forall i :: 0 <= i < |AllDirect(cs, firstBytesToKeep)| ==>
              firstBytesToKeep <= AllDirect(cs, firstBytesToKeep)[i].position
  {
    if cs != [] {
      PartsOnTheirSide(cs[1..], firstBytesToKeep);
      var h, d := Held(cs[0], firstBytesToKeep), Direct(cs[0], firstBytesToKeep);
      assert forall i :: 0 <= i < |h| ==> h[i] in h;
      assert forall i :: 0 <= i < |d| ==> d[i] in d;
    }
  }

  /** `_write` keeps the held list inside `[0, firstBytesToKeep)` and only
      ever appends to it. */
  lemma WritePreservesHeldBelow(s: Stream, cfg: Settings, attempt: nat -> Attempt, c: Chunk)
    requires HeldBelow(s.firstChunks, cfg.firstBytesToKeep)
    ensures HeldBelow(WriteStep(s, cfg, attempt, c).state.firstChunks, cfg.firstBytesToKeep)
    ensures s.firstChunks <= WriteStep(s, cfg, attempt, c).state.firstChunks
  {
    var h := Held(c, cfg.firstBytesToKeep);
    assert forall i :: 0 <= i < |h| ==> h[i] in h;
  }

  /** With the default `firstBytesToKeep` of 0 nothing is held back and the
      destination receives the chunks exactly as they came. */
  lemma {:induction false} NothingHeldByDefault(cs: seq<Chunk>)
    ensures AllHeld(cs, 0) == [] && AllDirect(cs, 0) == cs
  {
    if cs != [] {
      NothingHeldByDefault(cs[1..]);
      assert cs == [cs[0]] + cs[1..];
    }
  }

  /** A destination that never fails: every write and the finalisation
      succeed, with no retry and no delay. */
  lemma {:induction false} FlawlessDestinationSucceeds(cfg: Settings, attempt: nat -> Attempt,
                                                      attempts: nat, cs: seq<Chunk>)
    requires forall k :: attempt(k) == Written
    ensures Session(cfg, attempt, attempts, cs).outcome == Pass
  {
    var wrote := WriteAll(Fresh(attempts), cfg, attempt, cs);
    WriteAllFlawless(Fresh(attempts), cfg, attempt, cs);
    FlushFlawless(wrote.state, cfg, attempt, wrote.state.firstChunks);
  }

  lemma {:induction false} WriteAllFlawless(s: Stream, cfg: Settings, attempt: nat -> Attempt, cs: seq<Chunk>)
    requires forall k :: attempt(k) == Written
    ensures WriteAll(s, cfg, attempt, cs).outcome == Pass
    decreases |cs|
  {
    if cs != [] {
      var c := cs[0];
      var keep := cfg.firstBytesToKeep;
      if c.position < keep && End(c) > keep {
        var difference := keep - c.position;
        var held := s.(firstChunks := s.firstChunks + [Chunk(c.position, c.buffer[..difference])],
                       position := keep, bytesWritten := s.bytesWritten + difference);
        WriteChunkFlawless(held, cfg, attempt, Chunk(keep, c.buffer[difference..]), false);
      } else if c.position >= keep {
        WriteChunkFlawless(s, cfg, attempt, c, false);
      }
      WriteAllFlawless(WriteStep(s, cfg, attempt, c).state, cfg, attempt, cs[1..]);
    }
  }

  lemma {:induction false} FlushFlawless(s: Stream, cfg: Settings, attempt: nat -> Attempt, cs: seq<Chunk>)
    requires forall k :: attempt(k) == Written
    ensures Flush(s, cfg, attempt, cs).outcome == Pass
    decreases |cs|
  {
    if cs != [] {
      WriteChunkFlawless(s, cfg, attempt, cs[0], true);
      FlushFlawless(WriteChunkStep(s, cfg, attempt, cs[0], true).state, cfg, attempt, cs[1..]);
    }
  }

  /** On a destination that never fails, `writeChunk` makes one attempt
      and waits for nothing. */
  lemma WriteChunkFlawless(s: Stream, cfg: Settings, attempt: nat -> Attempt, c: Chunk, flushing: bool)
    requires forall k :: attempt(k) == Written
    ensures WriteChunkStep(s, cfg, attempt, c, flushing).outcome == Pass
    ensures WriteChunkStep(s, cfg, attempt, c, flushing).state.attempts == s.attempts + 1
    ensures WriteChunkStep(s, cfg, attempt, c, flushing).state.delays == s.delays
  {
    assert attempt(s.attempts) == Written;
  }
}
