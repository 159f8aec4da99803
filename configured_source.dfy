/** `SourceDisk` and `ConfiguredSource` of
    lib/source-destination/configured-source/configured-source.ts: a
    read-only virtual disk over a source, and a source that, when opened,
    opens the source it wraps, optionally configures the image on the
    virtual disk, and optionally trims its partitions.

    The libraries the file calls (the base `SourceDestination`, the wrapped
    source, `getPartitions`, `interact`, the configure functions and the
    disk's block map) are represented by their answers, gathered in a
    `World`; each call the model makes on them is recorded as a `Step`. */
module ConfiguredSources {
  import opened Basics

  /** `BLOCK_SIZE`: the block map's granularity. */
  const BlockSize: nat := 512

  datatype Metadata = Metadata(size: nat, blockmappedSize: Option<nat>)

  /** An inclusive range `[start, end]` of discarded bytes. */
  datatype DiscardChunk = DiscardChunk(start: int, end: int)

  datatype Partition = Partition(index: nat, extended: bool)

  /** What happens when the trim loop reaches a partition:
      `interact` fails (an unsupported filesystem), the filesystem has no
      `trimAsync`, `trimAsync` discards some ranges, or `trimAsync` discards
      some ranges and then fails; the disk keeps what was discarded either
      way. */
  datatype Access =
    | Unsupported(error: Error)
    | NoTrim
    | Trims(discards: seq<DiscardChunk>)
    | TrimFails(discards: seq<DiscardChunk>, error: Error)

  datatype ConfigureFunction = LegacyConfigure | CustomConfigure(name: string)

  /** The constructor's `configure` argument: absent, the string
      `'legacy'`, or a function. */
  datatype ConfigureArg = NoConfigure | LegacyName | Given(f: ConfigureFunction)

  /** A call on a collaborator. */
  datatype Step =
    | BaseOpen | SourceOpen | Configure(f: ConfigureFunction)
    | ListPartitions | Interact(index: nat) | TrimFs(index: nat)
    | SourceMetadata | GetBlockMap | SourceClose | BaseClose

  /** The answers of the collaborators. */
  datatype World = World(
    baseOpen: Outcome,
    sourceOpen: Outcome,
    configured: Outcome,
    sourceMetadata: Result<Metadata>,
    blockCount: Result<nat>,
    partitionTable: Result<seq<Partition>>,
    access: nat -> Access,
    sourceClose: Outcome,
    baseClose: Outcome)

  /** The error `Array.prototype.reduce` throws on an empty array with no
      initial value. */
  const EmptyReduce := Error("TypeError", "Reduce of empty array with no initial value")

  /** The error `SourceDisk._write` throws. */
  const NotWritable := Error("", "Can't write to a SourceDisk")

  /** The function the constructor stores for its `configure` argument. */
  function Resolve(arg: ConfigureArg): (r: Option<ConfigureFunction>)
    ensures arg == LegacyName ==> r == Some(LegacyConfigure)
    ensures arg.Given? ==> r == Some(arg.f)
    ensures r == None <==> arg == NoConfigure
  {
    match arg
    case NoConfigure => None
    case LegacyName => Some(LegacyConfigure)
    case Given(f) => Some(f)
  }

  // ---------------------------------------------------------------------
  // The discarded-byte count

  /** `d.end - d.start + 1`: the ranges are inclusive. */
  function ChunkLength(d: DiscardChunk): int {
    d.end - d.start + 1
  }

  /** `discards.map(...)`. */
  function Lengths(ds: seq<DiscardChunk>): (r: seq<int>)
    ensures |r| == |ds|
    ensures forall i :: 0 <= i < |ds| ==> r[i] == ChunkLength(ds[i])
  {
    if ds == [] then [] else [ChunkLength(ds[0])] + Lengths(ds[1..])
  }

  /** `reduce`'s left fold from an accumulator. */
  function FoldFrom(acc: int, xs: seq<int>): int
    decreases |xs|
  {
    if xs == [] then acc else FoldFrom(acc + xs[0], xs[1..])
  }

  /** `reduce((a, b) => a + b)` with no initial value: the first element
      starts the fold, and an empty array throws. */
  function Reduce(xs: seq<int>): Result<int> {
    if xs == [] then Err(EmptyReduce) else Ok(FoldFrom(xs[0], xs[1..]))
  }

  /** The sum of a sequence, as a reference. */
  function Sum(xs: seq<int>): int {
    if xs == [] then 0 else xs[0] + Sum(xs[1..])
  }

  /** The discarded-byte count of `trimPartitions`. */
  function DiscardedBytes(ds: seq<DiscardChunk>): Result<int> {
    Reduce(Lengths(ds))
  }

  lemma {:induction false} FoldIsSum(acc: int, xs: seq<int>)
    ensures FoldFrom(acc, xs) == acc + Sum(xs)
    decreases |xs|
  {
    if xs != [] {
      FoldIsSum(acc + xs[0], xs[1..]);
    }
  }

  /** The count is the sum of the inclusive range lengths, and an empty
      discard list is an error rather than zero. */
  lemma DiscardedBytesIsSum(ds: seq<DiscardChunk>)
    ensures DiscardedBytes(ds) == if ds == [] then Err(EmptyReduce) else Ok(Sum(Lengths(ds)))
  {
    if ds != [] {
      var xs := Lengths(ds);
      FoldIsSum(xs[0], xs[1..]);
    }
  }

  // ---------------------------------------------------------------------
  // Metadata

  /** `getMetadata()`: the wrapped source's metadata with
      `blockmappedSize` set from the 512-byte block map. */
  function MetadataOf(w: World): (r: Result<Metadata>)
    ensures r.Ok? <==> w.sourceMetadata.Ok? && w.blockCount.Ok?
    ensures r.Ok? ==> r.value.size == w.sourceMetadata.value.size
    ensures r.Ok? ==> r.value.blockmappedSize == Some(BlockSize * w.blockCount.value)
    ensures w.sourceMetadata.Err? ==> r == Err(w.sourceMetadata.error)
  {
    match w.sourceMetadata
    case Err(e) => Err(e)
    case Ok(m) =>
      match w.blockCount
      case Err(e) => Err(e)
      case Ok(n) => Ok(m.(blockmappedSize := Some(BlockSize * n)))
  }

  /** The calls `getMetadata()` makes: the block map is asked for only once
      the source's metadata has arrived. */
  function MetadataSteps(w: World): seq<Step> {
    if w.sourceMetadata.Ok? then [SourceMetadata, GetBlockMap] else [SourceMetadata]
  }

  // ---------------------------------------------------------------------
  // Trimming

  /** `getPartitions(disk, { includeExtended: false })`: the partitions
      the trim loop visits, in table order. */
  function NonExtended(ps: seq<Partition>): (r: seq<Partition>)
    ensures |r| <= |ps|
    ensures forall p :: p in r ==> p in ps && !p.extended
    ensures forall p :: p in ps && !p.extended ==> p in r
  {
    if ps == [] then []
    else (if ps[0].extended then [] else [ps[0]]) + NonExtended(ps[1..])
  }

  /** The calls made on one partition: `interact`, then `trimAsync` only
      if the filesystem has it. */
  function AttemptSteps(a: Access, index: nat): seq<Step> {
    [Interact(index)] + (if a.Trims? || a.TrimFails? then [TrimFs(index)] else [])
  }

  /** The ranges one partition adds to the disk's discard list. */
  function AttemptDiscards(a: Access): seq<DiscardChunk> {
    if a.Trims? || a.TrimFails? then a.discards else []
  }

  datatype Attempts = Attempts(steps: seq<Step>, discards: seq<DiscardChunk>)

  /** The loop over the partitions. */
  function AttemptAll(ps: seq<Partition>, access: nat -> Access): Attempts {
    if ps == [] then Attempts([], [])
    else
      var prev := AttemptAll(ps[..|ps| - 1], access);
      var p := ps[|ps| - 1];
      Attempts(prev.steps + AttemptSteps(access(p.index), p.index),
               prev.discards + AttemptDiscards(access(p.index)))
  }

  /** The partition indices `interact` was called with, in order. */
  function Interacted(steps: seq<Step>): seq<nat> {
    if steps == [] then []
    else Interacted(steps[..|steps| - 1])
         + (if steps[|steps| - 1].Interact? then [steps[|steps| - 1].index] else [])
  }

  function Indices(ps: seq<Partition>): (r: seq<nat>)
    ensures |r| == |ps|
    ensures forall i :: 0 <= i < |ps| ==> r[i] == ps[i].index
  {
    if ps == [] then [] else Indices(ps[..|ps| - 1]) + [ps[|ps| - 1].index]
  }

  lemma {:induction false} InteractedAppend(a: seq<Step>, b: seq<Step>)
    ensures Interacted(a + b) == Interacted(a) + Interacted(b)
    decreases |b|
  {
    if b == [] {
      assert a + b == a;
    } else {
      var n := |b| - 1;
      InteractedAppend(a, b[..n]);
      assert (a + b)[..|a + b| - 1] == a + b[..n];
    }
  }

  /** Every partition is attempted, in order, whatever happened to the
      partitions before it. */
  lemma {:induction false} EveryPartitionAttempted(ps: seq<Partition>, access: nat -> Access)
    ensures Interacted(AttemptAll(ps, access).steps) == Indices(ps)
  {
    if ps != [] {
      var n := |ps| - 1;
      var p := ps[n];
      var tail := AttemptSteps(access(p.index), p.index);
      EveryPartitionAttempted(ps[..n], access);
      InteractedAppend(AttemptAll(ps[..n], access).steps, tail);
      assert [Interact(p.index)][..0] == [];
      assert Interacted([Interact(p.index)]) == [p.index];
      if tail != [Interact(p.index)] {
        assert tail == [Interact(p.index), TrimFs(p.index)];
        assert tail[..1] == [Interact(p.index)];
      }
      assert Interacted(tail) == [p.index];
    }
  }

  /** `trimAsync` is called only on a filesystem that has it. */
  lemma {:induction false} TrimOnlyWhenDefined(ps: seq<Partition>, access: nat -> Access)
    ensures forall k :: 0 <= k < |AttemptAll(ps, access).steps| && AttemptAll(ps, access).steps[k].TrimFs? ==>
              var a := access(AttemptAll(ps, access).steps[k].index);
              a.Trims? || a.TrimFails?
  {
    if ps != [] {
      TrimOnlyWhenDefined(ps[..|ps| - 1], access);
    }
  }

  /** What `trimPartitions()` does, starting from the discards the disk
      already recorded. */
  datatype Run = Run(steps: seq<Step>, discarded: seq<DiscardChunk>, outcome: Outcome)

  function TrimRun(w: World, discarded: seq<DiscardChunk>): Run {
    match w.partitionTable
    case Err(e) => Run([ListPartitions], discarded, Fail(e))
    case Ok(table) =>
      var a := AttemptAll(NonExtended(table), w.access);
      var all := discarded + a.discards;
      var steps := [ListPartitions] + a.steps;
      match DiscardedBytes(all)
      case Err(e) => Run(steps, all, Fail(e))
      case Ok(_) =>
        Run(steps + MetadataSteps(w), all,
            match MetadataOf(w) case Ok(_) => Pass case Err(e) => Fail(e))
  }

  /** A partition whose filesystem is unsupported, or whose trim fails,
      never makes the trim fail: it fails only if the partition table
      cannot be read, no range was discarded at all, or the metadata cannot
      be read. */
  lemma TrimFailsOnlyOn(w: World, discarded: seq<DiscardChunk>)
    ensures TrimRun(w, discarded).outcome.Pass?
        <==> && w.partitionTable.Ok?
             && discarded + AttemptAll(NonExtended(w.partitionTable.value), w.access).discards != []
             && MetadataOf(w).Ok?
  {
    if w.partitionTable.Ok? {
      DiscardedBytesIsSum(discarded + AttemptAll(NonExtended(w.partitionTable.value), w.access).discards);
    }
  }

  // ---------------------------------------------------------------------
  // Opening and closing

  /** What `open()` does. */
  function OpenRun(w: World, configure: Option<ConfigureFunction>, shouldTrim: bool,
                   discarded: seq<DiscardChunk>): Run {
    if w.baseOpen.Fail? then Run([BaseOpen], discarded, w.baseOpen)
    else if w.sourceOpen.Fail? then Run([BaseOpen, SourceOpen], discarded, w.sourceOpen)
    else
      var started := [BaseOpen, SourceOpen] + (if configure.Some? then [Configure(configure.value)] else []);
      if configure.Some? && w.configured.Fail? then Run(started, discarded, w.configured)
      else if !shouldTrim then Run(started, discarded, Pass)
      else
        var t := TrimRun(w, discarded);
        Run(started + t.steps, t.discarded, t.outcome)
  }

  /** The order of `open()`: the base open, then the wrapped source, then
      the configure function if there is one, then the trim if asked for;
      each step only after the previous one succeeded. */
  lemma OpenOrder(w: World, configure: Option<ConfigureFunction>, shouldTrim: bool,
                  discarded: seq<DiscardChunk>)
    ensures var r := OpenRun(w, configure, shouldTrim, discarded);
            && |r.steps| >= 1 && r.steps[0] == BaseOpen
            && (|r.steps| >= 2 <==> w.baseOpen.Pass?)
            && (|r.steps| >= 2 ==> r.steps[1] == SourceOpen)
            && (|r.steps| >= 3 <==> w.baseOpen.Pass? && w.sourceOpen.Pass? && (configure.Some? || shouldTrim))
            && (|r.steps| >= 3 ==> r.steps[2] == if configure.Some? then Configure(configure.value) else ListPartitions)
            && (ListPartitions in r.steps <==>
                  w.baseOpen.Pass? && w.sourceOpen.Pass? && shouldTrim && (configure.None? || w.configured.Pass?))
  {
    var r := OpenRun(w, configure, shouldTrim, discarded);
    if w.baseOpen.Pass? && w.sourceOpen.Pass? {
      var started := [BaseOpen, SourceOpen] + (if configure.Some? then [Configure(configure.value)] else []);
      if !(configure.Some? && w.configured.Fail?) && shouldTrim {
        var t := TrimRun(w, discarded);
        assert t.steps[0] == ListPartitions;
        assert r.steps == started + t.steps;
        assert r.steps[|started|] == ListPartitions;
      } else {
        assert ListPartitions !in started;
      }
    }
  }

  /** Without a configure function and without trimming, opening is just
      the two opens. */
  lemma PlainOpen(w: World, discarded: seq<DiscardChunk>)
    requires w.baseOpen.Pass? && w.sourceOpen.Pass?
    ensures OpenRun(w, None, false, discarded) == Run([BaseOpen, SourceOpen], discarded, Pass)
  {
    assert [BaseOpen, SourceOpen] + [] == [BaseOpen, SourceOpen];
  }

  /** What `close()` does: the wrapped source first, then the base close,
      which is skipped if the first one fails. */
  function CloseRun(w: World): (r: Run)
    ensures |r.steps| >= 1 && r.steps[0] == SourceClose
    ensures BaseClose in r.steps <==> w.sourceClose.Pass?
    ensures r.outcome.Pass? <==> w.sourceClose.Pass? && w.baseClose.Pass?
  {
    if w.sourceClose.Fail? then Run([SourceClose], [], w.sourceClose)
    else Run([SourceClose, BaseClose], [], w.baseClose)
  }

  // ---------------------------------------------------------------------
  // The classes

  /** `SourceDisk`: a read-only disk that records reads, writes and
      discards, with discarded ranges reading as zeros. */
  class SourceDisk {
    const readOnly: bool
    const recordWrites: bool
    const recordReads: bool
    const discardIsZero: bool
    /** The discards recorded so far, in order. */
    var discarded: seq<DiscardChunk>

    constructor()
      ensures readOnly && recordWrites && recordReads && discardIsZero
      ensures discarded == []
    {
      readOnly := true;
      recordWrites := true;
      recordReads := true;
      discardIsZero := true;
      discarded := [];
    }

    /** `_getCapacity()`: the wrapped source's size. */
    method GetCapacity(w: World) returns (r: Result<nat>)
      ensures r.Ok? <==> w.sourceMetadata.Ok?
      ensures r.Ok? ==> r.value == w.sourceMetadata.value.size
    {
      match w.sourceMetadata
      case Err(e) => r := Err(e);
      case Ok(m) => r := Ok(m.size);
    }

    /** `_write(...)`: always rejects. */
    method Write(buffer: seq<Byte>, fileOffset: nat) returns (r: Outcome)
      ensures r == Fail(NotWritable)
    {
      r := Fail(NotWritable);
    }

    /** A filesystem's `trimAsync` discarding ranges through the disk. */
    method RecordDiscards(ds: seq<DiscardChunk>)
      modifies this`discarded
      ensures discarded == old(discarded) + ds
    {
      discarded := discarded + ds;
    }
  }

  class ConfiguredSource {
    const shouldTrimPartitions: bool
    const configure: Option<ConfigureFunction>
    const config: string
    const disk: SourceDisk
    /** The calls made on collaborators, in order. */
    var steps: seq<Step>

    /** `new ConfiguredSource(source, shouldTrimPartitions, configure,
        config)`; `config` stands for the object handed to `configure`. */
    constructor(shouldTrimPartitions: bool, configure: ConfigureArg, config: string)
      ensures this.shouldTrimPartitions == shouldTrimPartitions && this.config == config
      ensures this.configure == Resolve(configure)
      ensures fresh(disk) && disk.readOnly && disk.recordWrites && disk.recordReads && disk.discardIsZero
      ensures disk.discarded == [] && steps == []
    {
      this.shouldTrimPartitions := shouldTrimPartitions;
      this.config := config;
      disk := new SourceDisk();
      if configure == LegacyName {
        this.configure := Some(LegacyConfigure);
      } else {
        this.configure := if configure.Given? then Some(configure.f) else None;
      }
      steps := [];
    }

    /** `canRead()`. */
    method CanRead() returns (r: bool)
      ensures r
    {
      r := true;
    }

    /** `canCreateReadStream()`. */
    method CanCreateReadStream() returns (r: bool)
      ensures r
    {
      r := true;
    }

    /** `canCreateSparseReadStream()`. */
    method CanCreateSparseReadStream() returns (r: bool)
      ensures r
    {
      r := true;
    }

    /** `getMetadata()`. */
    method GetMetadata(w: World) returns (r: Result<Metadata>)
      modifies this`steps
      ensures r == MetadataOf(w)
      ensures steps == old(steps) + MetadataSteps(w)
    {
      steps := steps + [SourceMetadata];
      var metadata := w.sourceMetadata;
      if metadata.Err? {
        return Err(metadata.error);
      }
      steps := steps + [GetBlockMap];
      var blockCount := w.blockCount;
      if blockCount.Err? {
        return Err(blockCount.error);
      }
      r := Ok(metadata.value.(blockmappedSize := Some(BlockSize * blockCount.value)));
    }

    /** `trimPartitions()`. */
    method TrimPartitions(w: World) returns (outcome: Outcome)
      modifies this`steps, disk`discarded
      ensures steps == old(steps) + TrimRun(w, old(disk.discarded)).steps
      ensures disk.discarded == TrimRun(w, old(disk.discarded)).discarded
      ensures outcome == TrimRun(w, old(disk.discarded)).outcome
    {
      ghost var log := steps;
      steps := steps + [ListPartitions];
      var table := w.partitionTable;
      if table.Err? {
        return Fail(table.error);
      }
      AttemptPartitions(NonExtended(table.value), w);
      ghost var tried := AttemptAll(NonExtended(table.value), w.access).steps;
      assert steps == log + ([ListPartitions] + tried);
      var discardedBytes := DiscardedBytes(disk.discarded);
      if discardedBytes.Err? {
        return Fail(discardedBytes.error);
      }
      var metadata := GetMetadata(w);
      if metadata.Err? {
        return Fail(metadata.error);
      }
      outcome := Pass;
    }

    /** The loop of `trimPartitions()`: every partition is tried, and a
        failure is swallowed. */
    method AttemptPartitions(partitions: seq<Partition>, w: World)
      modifies this`steps, disk`discarded
      ensures steps == old(steps) + AttemptAll(partitions, w.access).steps
      ensures disk.discarded == old(disk.discarded) + AttemptAll(partitions, w.access).discards
    {
      ghost var log, before := steps, disk.discarded;
      for i := 0 to |partitions|
        invariant steps == log + AttemptAll(partitions[..i], w.access).steps
        invariant disk.discarded == before + AttemptAll(partitions[..i], w.access).discards
      {
        assert partitions[..i + 1][..i] == partitions[..i];
        AttemptPartition(partitions[i], w);
      }
      assert partitions[..|partitions|] == partitions;
    }

    /** One iteration: `interact`, then `trimAsync` if the filesystem has
        it; a throw from either is caught. */
    method AttemptPartition(p: Partition, w: World)
      modifies this`steps, disk`discarded
      ensures steps == old(steps) + AttemptSteps(w.access(p.index), p.index)
      ensures disk.discarded == old(disk.discarded) + AttemptDiscards(w.access(p.index))
    {
      steps := steps + [Interact(p.index)];
      match w.access(p.index)
      case Unsupported(_) =>
      case NoTrim =>
      case Trims(ds) =>
        steps := steps + [TrimFs(p.index)];
        disk.RecordDiscards(ds);
      case TrimFails(ds, _) =>
        steps := steps + [TrimFs(p.index)];
        disk.RecordDiscards(ds);
    }

    /** `open()`. */
    method Open(w: World) returns (outcome: Outcome)
      modifies this`steps, disk`discarded
      ensures steps == old(steps) + OpenRun(w, configure, shouldTrimPartitions, old(disk.discarded)).steps
      ensures disk.discarded == OpenRun(w, configure, shouldTrimPartitions, old(disk.discarded)).discarded
      ensures outcome == OpenRun(w, configure, shouldTrimPartitions, old(disk.discarded)).outcome
    {
      steps := steps + [BaseOpen];
      if w.baseOpen.Fail? {
        return w.baseOpen;
      }
      steps := steps + [SourceOpen];
      if w.sourceOpen.Fail? {
        return w.sourceOpen;
      }
      if configure.Some? {
        steps := steps + [Configure(configure.value)];
        if w.configured.Fail? {
          return w.configured;
        }
      }
      if shouldTrimPartitions {
        outcome := TrimPartitions(w);
        return;
      }
      outcome := Pass;
    }

    /** `close()`. */
    method Close(w: World) returns (outcome: Outcome)
      modifies this`steps
      ensures steps == old(steps) + CloseRun(w).steps
      ensures outcome == CloseRun(w).outcome
    {
      steps := steps + [SourceClose];
      if w.sourceClose.Fail? {
        return w.sourceClose;
      }
      steps := steps + [BaseClose];
      outcome := w.baseClose;
    }
  }
}
