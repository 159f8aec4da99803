/** The `StreamLimiter` of lib/stream-limiter.ts: a transform stream that
    passes on at most `maxBytes` bytes of what its upstream produces and
    then ends its output and detaches from the upstream.

    `maxBytes` is a JavaScript number; the model takes it as an integer
    (negative values included, since nothing in the source excludes them). */
module StreamLimiters {
  import opened Basics

  /** One `push` into the readable side: a buffer, or `null` for the end. */
  datatype Push = Data(bytes: seq<Byte>) | Eof

  /** `Math.min`. */
  function Min(a: int, b: int): int {
    if a <= b then a else b
  }

  function Max(a: int, b: int): int {
    if a >= b then a else b
  }

  /** The bytes one `_transform` passes on with `m` bytes of budget left:
      the longest prefix of `buffer` the budget allows. */
  function Passed(m: int, buffer: seq<Byte>): (r: seq<Byte>)
    ensures |r| == Max(0, Min(|buffer|, m))
    ensures r <= buffer
  {
    var length := Min(|buffer|, m);
    if length > 0 then buffer[..length] else []
  }

  /** The budget after one `_transform` of `n` bytes: what is left of it,
      and never below zero, even when it started below zero. */
  function Remaining(m: int, n: nat): (r: int)
    ensures r >= 0
    ensures r == if m - n > 0 then m - n else 0
  {
    m - Min(n, m)
  }

  /** What one `_transform` pushes: the bytes passed on, if any, then the
      end of the output if the budget is now exhausted. */
  function Pushes(m: int, buffer: seq<Byte>): seq<Push> {
    var length := Min(|buffer|, m);
    (if length > 0 then [Data(buffer[..length])] else [])
      + (if m - length == 0 then [Eof] else [])
  }

  /** The bytes carried by a sequence of pushes. */
  function Bytes(ps: seq<Push>): seq<Byte> {
    if ps == [] then []
    else Bytes(ps[..|ps| - 1]) + (match ps[|ps| - 1] case Data(b) => b case Eof => [])
  }

  /** The input, as one byte sequence. */
  function Concat(buffers: seq<seq<Byte>>): seq<Byte> {
    if buffers == [] then [] else Concat(buffers[..|buffers| - 1]) + buffers[|buffers| - 1]
  }

  /** The pushes and the remaining budget after transforming `buffers` in
      order, starting with a budget of `m`. */
  datatype Run = Run(pushes: seq<Push>, remaining: int)

  function RunFrom(m: int, buffers: seq<seq<Byte>>): Run {
    if buffers == [] then Run([], m)
    else
      var r := RunFrom(m, buffers[..|buffers| - 1]);
      var b := buffers[|buffers| - 1];
      Run(r.pushes + Pushes(r.remaining, b), Remaining(r.remaining, |b|))
  }

  lemma {:induction false} BytesAppend(a: seq<Push>, b: seq<Push>)
    ensures Bytes(a + b) == Bytes(a) + Bytes(b)
    decreases |b|
  {
    if b == [] {
      assert a + b == a;
    } else {
      var n := |b| - 1;
      BytesAppend(a, b[..n]);
      assert (a + b)[..|a + b| - 1] == a + b[..n];
    }
  }

  /** One `_transform` pushes exactly `Passed`, however the budget ends. */
  lemma PushesCarry(m: int, buffer: seq<Byte>)
    ensures Bytes(Pushes(m, buffer)) == Passed(m, buffer)
  {
    var length := Min(|buffer|, m);
    var data: seq<Push> := if length > 0 then [Data(buffer[..length])] else [];
    var eof: seq<Push> := if m - length == 0 then [Eof] else [];
    BytesAppend(data, eof);
    if length > 0 {
      assert data[..0] == [];
    }
    if m - length == 0 {
      assert eof[..0] == [];
    }
  }

  /** The output ends exactly when a `_transform` leaves no budget. */
  lemma EndsWhenExhausted(m: int, buffer: seq<Byte>)
    ensures (Eof in Pushes(m, buffer)) <==> Remaining(m, |buffer|) == 0
  {
  }

  /** One more buffer extends a run by one `_transform`. */
  lemma RunStep(m: int, buffers: seq<seq<Byte>>, b: seq<Byte>)
    ensures RunFrom(m, buffers + [b])
         == Run(RunFrom(m, buffers).pushes + Pushes(RunFrom(m, buffers).remaining, b),
                Remaining(RunFrom(m, buffers).remaining, |b|))
  {
    assert (buffers + [b])[..|buffers|] == buffers;
  }

  /** The budget left after a run is what the input did not use, and never
      below zero once a buffer has been seen. */
  lemma {:induction false} RunRemaining(m: int, buffers: seq<seq<Byte>>)
    ensures RunFrom(m, buffers).remaining
         == if buffers == [] then m else Max(m - |Concat(buffers)|, 0)
  {
    if buffers != [] {
      var n := |buffers| - 1;
      RunRemaining(m, buffers[..n]);
    }
  }

  lemma TakeWithin(c: seq<Byte>, b: seq<Byte>, k: nat)
    requires k <= |c|
    ensures (c + b)[..k] == c[..k]
  {
  }

  lemma TakeBeyond(c: seq<Byte>, b: seq<Byte>, j: nat)
    requires j <= |b|
    ensures (c + b)[..|c| + j] == c + b[..j]
  {
  }

  /** One more buffer extends the budget-limited prefix of the input by
      what `_transform` passes on for it, given the budget left: none once
      the prefix is complete, the rest of the budget before that. */
  lemma ExtendPrefix(c: seq<Byte>, b: seq<Byte>, budget: nat, rem: int)
    requires budget <= |c| ==> rem <= 0
    requires budget > |c| ==> rem == budget - |c|
    ensures c[..Min(|c|, budget)] + Passed(rem, b) == (c + b)[..Min(|c + b|, budget)]
  {
    if budget <= |c| {
      TakeWithin(c, b, budget);
    } else {
      TakeBeyond(c, b, Min(|b|, rem));
    }
  }

  /** Over any run, the output is the first `max(m, 0)` bytes of the input,
      or all of it if the input is shorter. */
  lemma {:induction false} RunLimits(m: int, buffers: seq<seq<Byte>>)
    ensures Bytes(RunFrom(m, buffers).pushes)
         == Concat(buffers)[..Min(|Concat(buffers)|, Max(m, 0))]
  {
    if buffers != [] {
      var n := |buffers| - 1;
      var init := buffers[..n];
      var b := buffers[n];
      var r := RunFrom(m, init);
      RunLimits(m, init);
      RunRemaining(m, init);
      BytesAppend(r.pushes, Pushes(r.remaining, b));
      PushesCarry(r.remaining, b);
      ExtendPrefix(Concat(init), b, Max(m, 0), r.remaining);
    }
  }

  /** What the limiter passes on is a prefix of its input and never more
      than its initial budget. */
  lemma OutputBounded(m: int, buffers: seq<seq<Byte>>)
    ensures Bytes(RunFrom(m, buffers).pushes) <= Concat(buffers)
    ensures |Bytes(RunFrom(m, buffers).pushes)| <= Max(m, 0)
  {
    RunLimits(m, buffers);
  }

  /** The stream being limited, as the limiter sees it. */
  class Upstream {
    /** Whether the stream has a `destroy` method. */
    const hasDestroy: bool
    /** Whether the stream's constructor is `JSLzmaStream`. */
    const isJSLzma: bool
    /** Whether the stream is piped into the limiter. */
    var piped: bool
    var destroyed: bool
    /** `end` events emitted on the stream's root stream. */
    var rootEnds: nat

    constructor(hasDestroy: bool, isJSLzma: bool)
      ensures this.hasDestroy == hasDestroy && this.isJSLzma == isJSLzma
      ensures !piped && !destroyed && rootEnds == 0
    {
      this.hasDestroy := hasDestroy;
      this.isJSLzma := isJSLzma;
      piped := false;
      destroyed := false;
      rootEnds := 0;
    }
  }

  class StreamLimiter {
    const stream: Upstream
    /** The budget given to the constructor. */
    ghost const initialMaxBytes: int
    var maxBytes: int
    var pushes: seq<Push>
    /** `finish` events emitted by the limiter. */
    var finishes: nat
    /** The buffers transformed so far. */
    ghost var inputs: seq<seq<Byte>>

    /** The limiter has pushed exactly what a run over its inputs pushes,
        and has the budget that run leaves. */
    ghost predicate Valid()
      reads this
    {
      && pushes == RunFrom(initialMaxBytes, inputs).pushes
      && maxBytes == RunFrom(initialMaxBytes, inputs).remaining
    }

    /** `new StreamLimiter(stream, maxBytes)`: pipe the stream into the
        limiter. */
    constructor(stream: Upstream, maxBytes: int)
      modifies stream
      ensures Valid() && this.stream == stream && initialMaxBytes == maxBytes
      ensures inputs == [] && finishes == 0
      ensures stream.piped && stream.destroyed == old(stream.destroyed)
      ensures stream.rootEnds == old(stream.rootEnds)
    {
      this.stream := stream;
      initialMaxBytes := maxBytes;
      this.maxBytes := maxBytes;
      pushes := [];
      finishes := 0;
      inputs := [];
      new;
      stream.piped := true;
    }

    /** `_transform(buffer, encoding, callback)`; the value returned is what
        the callback is called with. */
    method Transform(buffer: seq<Byte>) returns (callbackError: Outcome)
      requires Valid()
      modifies this, stream
      ensures Valid() && inputs == old(inputs) + [buffer]
      ensures callbackError == Pass
      ensures pushes == old(pushes) + Pushes(old(maxBytes), buffer)
      ensures maxBytes == Remaining(old(maxBytes), |buffer|)
      ensures maxBytes != 0 ==> finishes == old(finishes) && unchanged(stream)
      ensures maxBytes == 0 ==>
                && finishes == old(finishes) + 1
                && !stream.piped
                && stream.rootEnds == old(stream.rootEnds) + 1
                && stream.destroyed == (old(stream.destroyed) || (stream.hasDestroy && !stream.isJSLzma))
    {
      ghost var before := maxBytes;
      var length := Min(|buffer|, maxBytes);
      var out: seq<Push> := if length > 0 then [Data(buffer[..length])] else [];
      maxBytes := maxBytes - length;
      if maxBytes == 0 {
        out := out + [Eof];
        End();
      }
      assert out == Pushes(before, buffer);
      RunStep(initialMaxBytes, inputs, buffer);
      pushes := pushes + out;
      inputs := inputs + [buffer];
      callbackError := Pass;
    }

    /** The budget is spent: unpipe the upstream, emit `finish`, end the
        upstream's root stream and destroy the upstream if it can be
        destroyed and is not a `JSLzmaStream`.  (The end of the output is
        pushed by the caller.) */
    method End()
      modifies this`finishes, stream
      ensures finishes == old(finishes) + 1
      ensures !stream.piped && stream.rootEnds == old(stream.rootEnds) + 1
      ensures stream.destroyed == (old(stream.destroyed) || (stream.hasDestroy && !stream.isJSLzma))
    {
      stream.piped := false;
      finishes := finishes + 1;
      stream.rootEnds := stream.rootEnds + 1;
      if stream.hasDestroy && !stream.isJSLzma {
        stream.destroyed := true;
      }
    }
  }
}
