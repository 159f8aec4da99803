# etcher-sdk core, modelled in Dafny

This project models the byte-placement and bookkeeping core of the etcher-sdk
image-flashing library. It has five parts.

- **`SparseWriteStream`** (`sparse_write_spec.dfy`, `sparse_write_stream.dfy`)
  writes `{position, buffer}` chunks to a destination.
  - Every byte below `firstBytesToKeep` is held back in memory, and a chunk
    that straddles the boundary is split.
  - Everything else is written at once. A transient error is retried with
    linear backoff, up to `maxRetries` times, and is then relabelled
    `EUNPLUGGED`.
  - On finalisation the held-back chunks are flushed in their original
    order, without counting their bytes a second time.
  - The behaviour is first given as pure step functions over a `Stream`
    value, with an oracle that decides each destination attempt. The class
    `SparseWriteStream` (fields, `while` retry loop, `for` flush loop) is
    proved to follow those functions exactly.
- **`DriverlessDeviceAdapter`** (`driverless.dfy`) keeps a registry of
  devices keyed by `did`.
  - A scan diffs the registry against the lister's answer. It emits `detach`
    for keys that went away, then `attach` for new keys.
  - `stop` empties the registry silently.
  - `ready` is emitted once per start/stop cycle.
  - The polling loop is one method call per iteration (`Tick`). The lister's
    answer is a parameter. The class invariant says that replaying the
    current cycle's events rebuilds the registry.
- **`StreamLimiter`** (`stream_limiter.dfy`) passes on at most `maxBytes`
  bytes of its input. When the budget is spent it ends the output, unpipes
  and (usually) destroys the upstream.
- **`SourceDisk` and `ConfiguredSource`** (`configured_source.dfy`) cover:
  - the order of steps in `open` and `close`;
  - the best-effort trim loop over partitions;
  - the discarded-byte count, a `reduce` with no initial value over inclusive
    ranges;
  - the metadata with `blockmappedSize`;
  - the constant capability probes;
  - the disk's failing `_write`.

  The collaborators' answers are gathered in a `World` value, and every call
  made on them is logged as a `Step`.
- **`Scanner`** (`scanner.dfy`) fans in the events of a fixed list of
  adapters.
  - It forwards only `attach`, `detach` and `error`, payload unchanged.
  - It starts and stops the adapters in array order.
  - Its invariant states that its log, restricted to the events from one
    adapter, is exactly the forwardable part of what that adapter emitted.

`basics.dfy` holds the shared value types: `Byte`, `Error`, `Result`,
`Option`, `Outcome`.

## Model

Source paths are relative to the repository root.

| member | source | states |
|---|---|---|
| SparseWriteSpec.Fresh | lib/sparse-stream/sparse-write-stream.ts:19-30 | A new stream has counted no bytes, holds no chunks, has written nothing, has made no delays and is not destroyed. |
| SparseWriteSpec.Retry | lib/sparse-stream/sparse-write-stream.ts:36-62 | The retry loop makes at least one and at most `maxRetries + 1` destination attempts, and its retry count never exceeds `maxRetries`. |
| SparseWriteSpec.Backoffs | lib/sparse-stream/sparse-write-stream.ts:53-55 | Retry number i waits `RETRY_BASE_TIMEOUT * i`, so the delays grow linearly. |
| SparseWriteSpec.RetryAttempts | lib/sparse-stream/sparse-write-stream.ts:37-61 | Every attempt but the last failed transiently. The loop succeeds iff its last attempt landed. A non-transient error is rethrown unchanged on first sight. A transient error ends the loop only after all `maxRetries` retries, and then with code `EUNPLUGGED`. |
| SparseWriteSpec.RetryRecovers | lib/sparse-stream/sparse-write-stream.ts:51-56 | Fewer transient failures than the budget, then a success: the chunk lands after exactly that many retries. |
| SparseWriteSpec.RetryGivesUp | lib/sparse-stream/sparse-write-stream.ts:52-60 | Transient failures on every allowed attempt: exactly `maxRetries + 1` attempts, and the last error is rethrown with code `EUNPLUGGED`. |
| SparseWriteSpec.WriteChunkStep | lib/sparse-stream/sparse-write-stream.ts:32-63 | Held chunks and the destroyed flag are untouched, and between 1 and `maxRetries + 1` attempts are made with linear backoff delays. On success the chunk is written once, at its own position, with its whole buffer. Unless flushing, `position` then becomes its end and `bytesWritten` grows by its length. On failure nothing is written and `bytesWritten` is unchanged. |
| SparseWriteSpec.Held | lib/sparse-stream/sparse-write-stream.ts:68-79 | The held part of a chunk is non-empty iff the chunk starts below `firstBytesToKeep`. It starts where the chunk starts and ends at or before the boundary. |
| SparseWriteSpec.Direct | lib/sparse-stream/sparse-write-stream.ts:82-89 | The directly written part is non-empty iff the chunk reaches past the boundary or starts at or beyond it. It starts at or beyond the boundary and ends where the chunk ends. |
| SparseWriteSpec.SplitReassembles | lib/sparse-stream/sparse-write-stream.ts:75-86 | The held prefix and the written remainder concatenate to the original buffer. The remainder starts exactly where the prefix ends. |
| SparseWriteSpec.WriteStep | lib/sparse-stream/sparse-write-stream.ts:65-91 | The held list only grows, by appending. A chunk lying wholly below the boundary is only appended, with `position` moved to its end and `bytesWritten` grown by its length, and it succeeds. On success the direct part is written, `bytesWritten` grows by the chunk's length and `position` is its end. On failure nothing is written and only the held prefix has been counted. |
| SparseWriteSpec.Flush | lib/sparse-stream/sparse-write-stream.ts:101-105 | Flushing leaves `bytesWritten` unchanged. On success it writes exactly the given chunks in order. On failure it writes a strict prefix of them. |
| SparseWriteSpec.FinalStep | lib/sparse-stream/sparse-write-stream.ts:101-110 | Finalisation writes the held chunks in order and leaves `bytesWritten` unchanged. The stream ends destroyed iff a write failed, and then only a strict prefix of the held chunks was written. |
| SparseWriteSpec.WriteAllTotals | lib/sparse-stream/sparse-write-stream.ts:65-91 | After successful `_write`s of a chunk sequence, `bytesWritten` has grown by the total input length. The held list has grown by the held parts, and the destination log by the direct parts, each in input order. |
| SparseWriteSpec.Session | lib/sparse-stream/sparse-write-stream.ts:101-110 | A session that succeeds leaves the stream undestroyed. |
| SparseWriteSpec.SessionOrderAndCount | lib/sparse-stream/sparse-write-stream.ts:65-110 | On a successful run from a fresh stream, the destination receives every direct part in input order, then every held part in input order. The final `bytesWritten` is the sum of the input lengths. |
| SparseWriteSpec.PartsOnTheirSide | lib/sparse-stream/sparse-write-stream.ts:68-89 | Every held-back chunk lies wholly below `firstBytesToKeep`, and every directly written chunk starts at or beyond it. |
| SparseWriteSpec.WritePreservesHeldBelow | lib/sparse-stream/sparse-write-stream.ts:68-79 | `_write` keeps every held chunk below the boundary and only appends to the held list. |
| SparseWriteSpec.NothingHeldByDefault | lib/sparse-stream/sparse-write-stream.ts:26 | With the default `firstBytesToKeep = 0`, nothing is held back and every chunk is written as it is. |
| SparseWriteSpec.FlawlessDestinationSucceeds | lib/sparse-stream/sparse-write-stream.ts:37-50 | If every destination attempt succeeds, the whole session succeeds. |
| SparseWriteSpec.WriteChunkFlawless | lib/sparse-stream/sparse-write-stream.ts:38-50 | If every attempt succeeds, `writeChunk` makes one attempt and no delay. |
| SparseWriteStreams.Destination.Write | lib/sparse-stream/sparse-write-stream.ts:40-45 | One destination write lands the whole chunk or throws and lands nothing. Either way it counts one attempt. |
| SparseWriteStreams.SparseWriteStream.constructor | lib/sparse-stream/sparse-write-stream.ts:19-30 | The stream starts in the `Fresh` state, with no held chunks, and stores `firstBytesToKeep` and `maxRetries` (defaults 0 and 5). |
| SparseWriteStreams.SparseWriteStream.WriteChunk | lib/sparse-stream/sparse-write-stream.ts:32-63 | The `while` retry loop changes the stream and destination exactly as `WriteChunkStep` says. |
| SparseWriteStreams.SparseWriteStream.Write | lib/sparse-stream/sparse-write-stream.ts:65-91 | `_write` changes the state exactly as `WriteStep` says and keeps every held chunk below the boundary. |
| SparseWriteStreams.SparseWriteStream.Final | lib/sparse-stream/sparse-write-stream.ts:101-110 | The flush loop changes the state exactly as `FinalStep` says. |
| Driverless.KeyedByDid | lib/scanner/adapters/driverless.ts:56-63 | The listing's keys are exactly the listed `did`s, and each key maps to a listed device with that `did`. When several share a `did`, the last one listed wins. |
| Driverless.NextRegistry | lib/scanner/adapters/driverless.ts:38-54 | After a scan the registry's keys are exactly the listed keys. A device present before and after keeps its handle, and a new key gets a fresh handle for the listed device. |
| Driverless.DetachesMeans | lib/scanner/adapters/driverless.ts:43-46 | The detaches of a scan are one per vanished key, with no key twice. Each carries the handle previously stored under its key, and every vanished key is detached. |
| Driverless.AttachesMeans | lib/scanner/adapters/driverless.ts:47-52 | The attaches of a scan are one per new key, with no key twice. Each carries a fresh handle for the listed device, and every new key is attached. |
| Driverless.ScanReplays | lib/scanner/adapters/driverless.ts:43-52 | Applying a scan's detaches then attaches to the old registry yields the new registry, so a listener tracking events stays in step. |
| Driverless.CycleReplays | lib/scanner/adapters/driverless.ts:16-54 | If the events since `start` rebuild the registry, they still do after one more scan. |
| Driverless.RescanIsQuiet | lib/scanner/adapters/driverless.ts:38-54 | A second scan with the same listing emits nothing and leaves the registry unchanged. |
| Driverless.ScanFromEmpty | lib/scanner/adapters/driverless.ts:16-25 | After `stop` (an empty registry), the next scan detaches nothing and attaches every listed device exactly once. |
| Driverless.SwapScenario | lib/scanner/adapters/driverless.ts:43-52 | Going from {a, b} to {b, c} emits exactly `detach(a)` and then `attach(c)`, and leaves {b, c}. |
| Driverless.DriverlessDeviceAdapter.constructor | lib/scanner/adapters/driverless.ts:12-14 | A new adapter has an empty registry, is neither running nor ready, and has emitted nothing. |
| Driverless.DriverlessDeviceAdapter.ListDrives | lib/scanner/adapters/driverless.ts:56-63 | The loop builds exactly the `did`-keyed map `Keyed`, where a later device with the same `did` overwrites an earlier one. |
| Driverless.DriverlessDeviceAdapter.Start | lib/scanner/adapters/driverless.ts:16-19 | `start` runs a first scan against the previous registry. It emits that scan's detaches and attaches, then `ready` if the adapter was not ready. Afterwards the adapter is running and ready. |
| Driverless.DriverlessDeviceAdapter.Stop | lib/scanner/adapters/driverless.ts:21-25 | `stop` clears `running`, `ready` and the registry and emits nothing. |
| Driverless.DriverlessDeviceAdapter.Tick | lib/scanner/adapters/driverless.ts:27-35 | A loop iteration on a stopped adapter changes nothing and emits nothing. On a running one it performs a scan. |
| Driverless.DriverlessDeviceAdapter.LoopIteration | lib/scanner/adapters/driverless.ts:28-33 | One iteration scans, then emits `ready` only the first time in the cycle. This keeps the invariant that each cycle has emitted exactly one `ready` once ready. |
| Driverless.DriverlessDeviceAdapter.Scan | lib/scanner/adapters/driverless.ts:38-54 | If the adapter was stopped while listing, nothing changes and nothing is emitted. Otherwise the registry becomes `NextRegistry`, with all detaches (vanished keys) emitted before all attaches (new keys), and keys in both produce no event. |
| Driverless.DriverlessDeviceAdapter.DetachGone | lib/scanner/adapters/driverless.ts:43-46 | The first loop removes exactly the vanished keys and emits one `detach` per key, with its stored handle. |
| Driverless.DriverlessDeviceAdapter.AttachAdded | lib/scanner/adapters/driverless.ts:47-52 | The second loop adds exactly the new keys with fresh handles, keeps the other entries, and emits one `attach` per key. |
| Scanners.ForwardMeans | lib/scanner.ts:12 | The scanner re-emits an event iff it is an `attach`, `detach` or `error`, with the payload unchanged. |
| Scanners.ReadyNotForwarded | lib/scanner.ts:12 | An adapter's `ready` is not re-emitted. |
| Scanners.ScanForwarded | lib/scanner.ts:16-20 | Everything a scan emits is re-emitted unchanged and in order. |
| Scanners.Calls | lib/scanner.ts:23-35 | `start` and `stop` make one call per adapter, in array order. |
| Scanners.Scanner.constructor | lib/scanner.ts:14-21 | The scanner takes a list of distinct, valid adapters. It starts with an empty log, remembers how many events each adapter has already emitted, and from there relays each one (the relay invariant holds from the start). |
| Scanners.Scanner.Relay | lib/scanner.ts:16-20 | The listeners re-emit exactly the forwardable part of what an adapter emitted. This keeps the invariant that the scanner's log, restricted to one adapter, equals that adapter's forwarded events. |
| Scanners.Scanner.Start | lib/scanner.ts:23-28 | `start` calls `start` on every adapter in array order, and all are running and ready afterwards. Each adapter's registry is its first scan's successor of the one it had. The scanner's log grows by each adapter's new events, forwarded, one adapter after another in array order. |
| Scanners.Scanner.StartStep | lib/scanner.ts:25-27 | One iteration of `start`'s loop: it takes the loop's invariant from the first `i` adapters to the first `i + 1`, appending adapter `i`'s forwarded events to the log. |
| Scanners.Scanner.StartOne | lib/scanner.ts:26 | `adapter.start()` for adapter `i`, with its events relayed as they are emitted: the call is logged, the adapter is running and ready, its registry follows the first scan, and the log grows by exactly its new events, forwarded. |
| Scanners.Scanner.Stop | lib/scanner.ts:30-35 | `stop` calls `stop` on every adapter in array order. All end stopped and not ready with empty registries, and the scanner emits nothing. |
| Scanners.Scanner.StopOne | lib/scanner.ts:33 | `adapter.stop()` for adapter `i`: the call is logged, the adapter ends stopped with an empty registry, and nothing is relayed. |
| Scanners.Scanner.Tick | lib/scanner.ts:16-20 | A scan by one adapter reaches the scanner's log unchanged: its detaches then its attaches. |
| StreamLimiters.Passed | lib/stream-limiter.ts:33-36 | One `_transform` passes on exactly the first `min(buffer.length, maxBytes)` bytes of the buffer, or nothing if that is not positive. |
| StreamLimiters.Remaining | lib/stream-limiter.ts:33-37 | The budget falls by exactly the bytes passed on and never below 0. |
| StreamLimiters.PushesCarry | lib/stream-limiter.ts:33-40 | The bytes a `_transform` pushes are exactly `Passed`. |
| StreamLimiters.EndsWhenExhausted | lib/stream-limiter.ts:38-40 | The output is ended exactly when the budget reaches 0. |
| StreamLimiters.RunRemaining | lib/stream-limiter.ts:22-37 | After any input, the budget left is what the input did not use, never below 0. |
| StreamLimiters.RunLimits | lib/stream-limiter.ts:28-55 | Over any run, the output is the first `max(maxBytes, 0)` bytes of the concatenated input, or all of it if the input is shorter. |
| StreamLimiters.OutputBounded | lib/stream-limiter.ts:22-37 | The output is a prefix of the input and never longer than the initial budget. |
| StreamLimiters.StreamLimiter.constructor | lib/stream-limiter.ts:22-26 | The limiter pipes the upstream into itself with the given budget. |
| StreamLimiters.StreamLimiter.Transform | lib/stream-limiter.ts:28-55 | Each `_transform` pushes `Pushes(maxBytes, buffer)` and lowers the budget to `Remaining`. At 0 it unpipes, ends the output, emits `finish`, ends the root stream, and destroys the upstream iff it has `destroy` and is not a `JSLzmaStream`. The callback always gets no error. |
| StreamLimiters.StreamLimiter.End | lib/stream-limiter.ts:38-53 | Spending the budget unpipes, emits `finish`, ends the root stream and destroys a destroyable non-`JSLzmaStream` upstream. |
| ConfiguredSources.Resolve | lib/source-destination/configured-source/configured-source.ts:58-62 | `'legacy'` maps to the legacy configure function. Any other value, including undefined, is stored as given. |
| ConfiguredSources.DiscardedBytesIsSum | lib/source-destination/configured-source/configured-source.ts:135-142 | The discarded count is the sum of `end - start + 1` over the inclusive ranges. An empty discard list is the `reduce` error, not zero. |
| ConfiguredSources.MetadataOf | lib/source-destination/configured-source/configured-source.ts:115-120 | `getMetadata` returns the source's metadata with `blockmappedSize = 512 * blockCount`. It fails iff the source's metadata or the block map fails, and a source failure wins. |
| ConfiguredSources.NonExtended | lib/source-destination/configured-source/configured-source.ts:123 | The partitions visited are exactly the non-extended ones of the table. |
| ConfiguredSources.EveryPartitionAttempted | lib/source-destination/configured-source/configured-source.ts:124-134 | `interact` is called on every visited partition in table order, whatever happened to earlier ones. |
| ConfiguredSources.TrimOnlyWhenDefined | lib/source-destination/configured-source/configured-source.ts:126-130 | `trimAsync` is called only on a filesystem that defines it. |
| ConfiguredSources.TrimFailsOnlyOn | lib/source-destination/configured-source/configured-source.ts:122-146 | `trimPartitions` succeeds iff the partition table is read, at least one range was discarded, and the metadata is read. Partition failures are swallowed. |
| ConfiguredSources.OpenOrder | lib/source-destination/configured-source/configured-source.ts:148-157 | `open` runs the base open, then `source.open`, then `configure` only if set, then the trim only if asked for. Each step runs only after the previous one succeeded. |
| ConfiguredSources.PlainOpen | lib/source-destination/configured-source/configured-source.ts:148-157 | Without `configure` and without trimming, `open` is just the two opens. |
| ConfiguredSources.CloseRun | lib/source-destination/configured-source/configured-source.ts:159-162 | `close` closes the wrapped source first. The base close happens iff that succeeds, and `close` succeeds iff both do. |
| ConfiguredSources.SourceDisk.constructor | lib/source-destination/configured-source/configured-source.ts:20-27 | The disk is read-only, records reads and writes, and reads discarded ranges as zero. |
| ConfiguredSources.SourceDisk.GetCapacity | lib/source-destination/configured-source/configured-source.ts:29-31 | The capacity is the source's size, and it fails iff the source's metadata does. |
| ConfiguredSources.SourceDisk.Write | lib/source-destination/configured-source/configured-source.ts:37-39 | `_write` always fails with "Can't write to a SourceDisk". |
| ConfiguredSources.ConfiguredSource.constructor | lib/source-destination/configured-source/configured-source.ts:49-63 | Stores `shouldTrimPartitions` and `config`, resolves `configure` as `Resolve` does, and builds a fresh read-only disk. |
| ConfiguredSources.ConfiguredSource.CanRead | lib/source-destination/configured-source/configured-source.ts:69-71 | Always true. |
| ConfiguredSources.ConfiguredSource.CanCreateReadStream | lib/source-destination/configured-source/configured-source.ts:73-75 | Always true. |
| ConfiguredSources.ConfiguredSource.CanCreateSparseReadStream | lib/source-destination/configured-source/configured-source.ts:77-79 | Always true. |
| ConfiguredSources.ConfiguredSource.GetMetadata | lib/source-destination/configured-source/configured-source.ts:115-120 | Returns `MetadataOf`, asking for the block map only after the source's metadata arrived. |
| ConfiguredSources.ConfiguredSource.TrimPartitions | lib/source-destination/configured-source/configured-source.ts:122-146 | Makes exactly the calls, records exactly the discards and settles exactly as `TrimRun` says. |
| ConfiguredSources.ConfiguredSource.AttemptPartitions | lib/source-destination/configured-source/configured-source.ts:124-134 | The `for` loop visits every partition in order and swallows each failure. |
| ConfiguredSources.ConfiguredSource.AttemptPartition | lib/source-destination/configured-source/configured-source.ts:125-133 | One partition: `interact`, then `trimAsync` if defined. The ranges `trimAsync` discarded stay recorded on the disk, even when it then throws. |
| ConfiguredSources.ConfiguredSource.Open | lib/source-destination/configured-source/configured-source.ts:148-157 | Makes exactly the calls, records exactly the discards and settles exactly as `OpenRun` says. |
| ConfiguredSources.ConfiguredSource.Close | lib/source-destination/configured-source/configured-source.ts:159-162 | Makes exactly the calls and settles exactly as `CloseRun` says. |

## Left out

- `position` starts `undefined` in `SparseWriteStream`. The model starts it at 0, because it is assigned before anything reads it.
- Stream machinery is not modelled:
  - `Writable`/`Transform`, `pipe`/`unpipe` beyond a flag, `asCallback`, `_final`'s callback wrapper;
  - progress events;
  - `getRootStream`, which is a counter of `end` events;
  - the limiter's forwarding of upstream `error` events.

  Each stream callback is a method call whose return value is what the callback receives.
- Timers are not modelled: `delay` in the backoff is recorded as a list of delay values, and the 1000 ms scan interval is left out.
- The async `scanLoop` is one `Tick` per loop iteration. Its interleavings are not modelled: two loops running at once after a double `start`, or a stop/start within one interval.
- Collaborators that are not part of this model are inputs or oracles:
  - `isTransientError` and `RETRY_BASE_TIMEOUT`;
  - `listDriverlessDevices`, which supplies the listed devices;
  - `getPartitions`, `interact`/`trimAsync`, `legacyConfigure` and custom configure functions, the base class's `open`/`close`, and the wrapped source's `open`/`close`/`getMetadata`, which are the `World`;
  - `file-disk`'s discard recording (including how it merges ranges) and `getBlockMap`, of which only the block count is used.
- JavaScript `Map`/`Set` iteration order is not modelled. Within a scan the order of the detaches, and of the attaches, is left open. Only "every detach before every attach, one per key" is stated.
- `Scanners.Scanner.constructor`: requires the adapters to be distinct. The source would register a duplicated adapter twice and forward its events twice.
- The scanner is modelled over driverless adapters only. The block-device and usbboot adapters are not part of this model.
- `maxBytes` is a JavaScript number. The model treats it as an integer: a fractional or non-finite budget is not modelled.
- `trimPartitions`' percentage (`Math.round`, floating point) and the `debug` output are not modelled.
- `read`, `_read`, `_flush`, `createReadStream` and `createSparseReadStream` only forward to collaborators and wire streams, and are not modelled.
- `using` disposers around `interact` are not modelled. Only the calls and their outcomes are.
- An empty discard list makes `trimPartitions` fail, because `reduce` has no initial value. The model follows the code. A reading where zero bytes were discarded would instead let `open` succeed.
- `main()` in lib/scanner.ts (lines 38-55) is console wiring and is not modelled.
- ConfiguredSources.MetadataOf: builds a new metadata value. The source sets `blockmappedSize` on the very object the wrapped source returned (configured-source.ts:118), so anyone else holding that object sees the change. That aliasing is not modelled.
- SparseWriteStreams.SparseWriteStream.constructor: `maxRetries` and `firstBytesToKeep` are natural numbers here. In the source they are JavaScript numbers: with `retries < this.maxRetries`, a negative `maxRetries` allows no retry and 2.5 allows three, and `firstBytesToKeep` may likewise be negative or fractional. Those values are not modelled.
