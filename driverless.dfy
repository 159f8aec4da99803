/** The `DriverlessDeviceAdapter` of lib/scanner/adapters/driverless.ts: a
    registry of devices keyed by their `did`, kept in step with the device
    lister by a polling loop that emits `detach` for devices that went away
    and `attach` for devices that appeared.

    The lister (`listDriverlessDevices`) is an input: each scan receives the
    devices it returned.  The timer-driven `scanLoop` becomes the method
    `Tick`, one loop iteration per call, and the events the adapter emits
    are appended to the log `events`. */
module Driverless {
  import opened Basics

  /** A device as the lister reports it; `did` identifies it and `details`
      stands for the fields this model does not look at. */
  datatype ListedDevice = ListedDevice(did: string, details: string)

  /** `new DriverlessDevice(drive)`: the handle built for a listed device. */
  datatype Device = DriverlessDevice(listed: ListedDevice)

  /** The registry key a device is stored under. */
  function Key(d: Device): string {
    d.listed.did
  }

  /** What an adapter emits. */
  datatype Event = Attach(device: Device) | Detach(device: Device) | Ready | ErrorEvent(error: Error)

  /** The number of `ready` events in a log. */
  function Readies(es: seq<Event>): nat {
    if es == [] then 0 else (if es[0] == Ready then 1 else 0) + Readies(es[1..])
  }

  lemma {:induction false} ReadiesAppend(a: seq<Event>, b: seq<Event>)
    ensures Readies(a + b) == Readies(a) + Readies(b)
  {
    if a == [] {
      assert a + b == b;
    } else {
      ReadiesAppend(a[1..], b);
      assert (a + b)[0] == a[0];
      assert (a + b)[1..] == a[1..] + b;
    }
  }

  /** Appending the events of a scan leaves the count of `ready` events
      alone. */
  lemma ReadiesNotEmitted(log: seq<Event>, detaches: seq<Event>, attaches: seq<Event>, from: nat)
    requires from <= |log|
    requires Readies(detaches) == 0 && Readies(attaches) == 0
    ensures Readies((log + detaches + attaches)[from..]) == Readies(log[from..])
  {
    assert (log + detaches + attaches)[from..] == log[from..] + (detaches + attaches);
    ReadiesAppend(log[from..], detaches + attaches);
    ReadiesAppend(detaches, attaches);
  }

  /** `listDrives`' map: each device under its `did`, a later device
      replacing an earlier one with the same `did`. */
  function Keyed(devices: seq<ListedDevice>): map<string, ListedDevice> {
    if devices == [] then map[]
    else Keyed(devices[..|devices| - 1])[devices[|devices| - 1].did := devices[|devices| - 1]]
  }

  /** The device listed last for a given `did` is the one stored under it. */
  ghost predicate LastWithDid(devices: seq<ListedDevice>, i: int)
    requires 0 <= i < |devices|
  {
    forall j :: i < j < |devices| ==> devices[j].did != devices[i].did
  }

  /** `Keyed` holds exactly the listed `did`s, each under its own key, and
      the entry under a `did` is the last device listed with it. */
  lemma {:induction false} KeyedByDid(devices: seq<ListedDevice>)
    ensures Keyed(devices).Keys == set d | d in devices :: d.did
    ensures forall k :: k in Keyed(devices) ==> Keyed(devices)[k].did == k && Keyed(devices)[k] in devices
    ensures forall i :: 0 <= i < |devices| && LastWithDid(devices, i) ==>
              Keyed(devices)[devices[i].did] == devices[i]
  {
    if devices != [] {
      var n := |devices| - 1;
      var init := devices[..n];
      KeyedByDid(init);
      assert devices == init + [devices[n]];
      forall i | 0 <= i < |devices| && LastWithDid(devices, i)
        ensures Keyed(devices)[devices[i].did] == devices[i]
      {
        if i < n {
          assert LastWithDid(init, i);
          assert devices[n].did != devices[i].did;
        }
      }
    }
  }

  /** Every entry of `Keyed` is stored under its own `did`. */
  lemma {:induction false} KeyedUnderDid(devices: seq<ListedDevice>)
    ensures forall k :: k in Keyed(devices) ==> Keyed(devices)[k].did == k
  {
    if devices != [] {
      KeyedUnderDid(devices[..|devices| - 1]);
    }
  }

  /** The registry after a scan that found `listed`: exactly the listed
      keys, a device that stayed keeping the handle it had, a new device
      getting a fresh handle. */
  function NextRegistry(before: map<string, Device>, listed: map<string, ListedDevice>): (after: map<string, Device>)
    ensures after.Keys == listed.Keys
    ensures forall k :: k in before && k in listed ==> after[k] == before[k]
    ensures forall k :: k in listed && k !in before ==> after[k] == DriverlessDevice(listed[k])
  {
    map k | k in listed :: if k in before then before[k] else DriverlessDevice(listed[k])
  }

  /** A registry that agrees with `NextRegistry` key by key is it. */
  lemma NextRegistryPointwise(before: map<string, Device>, listed: map<string, ListedDevice>,
                              after: map<string, Device>)
    requires after.Keys == (before.Keys - (before.Keys - listed.Keys)) + (listed.Keys - before.Keys)
    requires forall k :: k in before && k in after ==> after[k] == before[k]
    requires forall k :: k in listed && k !in before ==> after[k] == DriverlessDevice(listed[k])
    ensures after == NextRegistry(before, listed)
  {
  }

  /** The detach events of one scan: one per key in `keys`, each carrying
      the handle that was registered under it.  Defined from the last event
      back, so that each key is used once. */
  ghost predicate Detaches(es: seq<Event>, before: map<string, Device>, keys: set<string>)
    decreases |es|
  {
    if es == [] then keys == {}
    else
      var e := es[|es| - 1];
      && e.Detach?
      && Key(e.device) in keys && Key(e.device) in before
      && e.device == before[Key(e.device)]
      && Detaches(es[..|es| - 1], before, keys - {Key(e.device)})
  }

  /** The attach events of one scan: one per key in `keys`, each carrying a
      fresh handle for the listed device. */
  ghost predicate Attaches(es: seq<Event>, listed: map<string, ListedDevice>, keys: set<string>)
    decreases |es|
  {
    if es == [] then keys == {}
    else
      var e := es[|es| - 1];
      && e.Attach?
      && Key(e.device) in keys && Key(e.device) in listed
      && e.device == DriverlessDevice(listed[Key(e.device)])
      && Attaches(es[..|es| - 1], listed, keys - {Key(e.device)})
  }

  lemma DetachesAppend(es: seq<Event>, before: map<string, Device>, keys: set<string>, key: string)
    requires Detaches(es, before, keys)
    requires key in before && key !in keys && Key(before[key]) == key
    ensures Detaches(es + [Detach(before[key])], before, keys + {key})
  {
    assert (es + [Detach(before[key])])[..|es|] == es;
    assert (keys + {key}) - {key} == keys;
  }

  lemma AttachesAppend(es: seq<Event>, listed: map<string, ListedDevice>, keys: set<string>, key: string)
    requires Attaches(es, listed, keys)
    requires key in listed && key !in keys && listed[key].did == key
    ensures Attaches(es + [Attach(DriverlessDevice(listed[key]))], listed, keys + {key})
  {
    assert (es + [Attach(DriverlessDevice(listed[key]))])[..|es|] == es;
    assert (keys + {key}) - {key} == keys;
  }

  /** Read pointwise: there are as many detach events as keys, every event
      detaches the handle registered under one of the keys, and every key
      is detached. */
  lemma {:induction false} DetachesMeans(es: seq<Event>, before: map<string, Device>, keys: set<string>)
    requires Detaches(es, before, keys)
    ensures keys <= before.Keys && |es| == |keys|
    ensures forall i :: 0 <= i < |es| ==>
              es[i].Detach? && Key(es[i].device) in keys && es[i].device == before[Key(es[i].device)]
    ensures forall i, j :: 0 <= i < j < |es| ==> Key(es[i].device) != Key(es[j].device)
    ensures forall k :: k in keys ==> Detach(before[k]) in es
  {
    if es != [] {
      var n := |es| - 1;
      var k := Key(es[n].device);
      DetachesMeans(es[..n], before, keys - {k});
      assert es == es[..n] + [es[n]];
      assert keys == (keys - {k}) + {k};
    }
  }

  /** Read pointwise: one attach event per key, each with a fresh handle
      for the listed device. */
  lemma {:induction false} AttachesMeans(es: seq<Event>, listed: map<string, ListedDevice>, keys: set<string>)
    requires Attaches(es, listed, keys)
    ensures keys <= listed.Keys && |es| == |keys|
    ensures forall i :: 0 <= i < |es| ==>
              es[i].Attach? && Key(es[i].device) in keys && es[i].device == DriverlessDevice(listed[Key(es[i].device)])
    ensures forall i, j :: 0 <= i < j < |es| ==> Key(es[i].device) != Key(es[j].device)
    ensures forall k :: k in keys ==> Attach(DriverlessDevice(listed[k])) in es
  {
    if es != [] {
      var n := |es| - 1;
      var k := Key(es[n].device);
      AttachesMeans(es[..n], listed, keys - {k});
      assert es == es[..n] + [es[n]];
      assert keys == (keys - {k}) + {k};
    }
  }

  /** A scan's detach events contain no `ready`. */
  lemma {:induction false} DetachesNoReady(es: seq<Event>, before: map<string, Device>, keys: set<string>)
    requires Detaches(es, before, keys)
    ensures Readies(es) == 0
  {
    if es != [] {
      var n := |es| - 1;
      DetachesNoReady(es[..n], before, keys - {Key(es[n].device)});
      assert es == es[..n] + [es[n]];
      ReadiesAppend(es[..n], [es[n]]);
    }
  }

  /** A scan's attach events contain no `ready`. */
  lemma {:induction false} AttachesNoReady(es: seq<Event>, listed: map<string, ListedDevice>, keys: set<string>)
    requires Attaches(es, listed, keys)
    ensures Readies(es) == 0
  {
    if es != [] {
      var n := |es| - 1;
      AttachesNoReady(es[..n], listed, keys - {Key(es[n].device)});
      assert es == es[..n] + [es[n]];
      ReadiesAppend(es[..n], [es[n]]);
    }
  }

  /** What one scan emits: `detach` for every key that disappeared, then
      `attach` for every key that appeared, nothing for keys in both. */
  ghost predicate ScanEvents(before: map<string, Device>, listed: map<string, ListedDevice>,
                             detached: seq<Event>, attached: seq<Event>) {
    && Detaches(detached, before, before.Keys - listed.Keys)
    && Attaches(attached, listed, listed.Keys - before.Keys)
  }

  /** What a listener learns from one event: `attach` registers the
      device under its key, `detach` removes its key, the others change
      nothing. */
  function Apply(m: map<string, Device>, e: Event): map<string, Device> {
    match e
    case Attach(d) => m[Key(d) := d]
    case Detach(d) => m - {Key(d)}
    case _ => m
  }

  /** The registry a listener rebuilds by applying `es` to `m` in order. */
  function Replay(m: map<string, Device>, es: seq<Event>): map<string, Device> {
    if es == [] then m else Apply(Replay(m, es[..|es| - 1]), es[|es| - 1])
  }

  lemma {:induction false} ReplayAppend(m: map<string, Device>, a: seq<Event>, b: seq<Event>)
    ensures Replay(m, a + b) == Replay(Replay(m, a), b)
    decreases |b|
  {
    if b == [] {
      assert a + b == a;
    } else {
      var n := |b| - 1;
      ReplayAppend(m, a, b[..n]);
      assert (a + b)[..|a + b| - 1] == a + b[..n];
    }
  }

  /** Replaying a scan's detach events removes exactly the detached keys. */
  lemma {:induction false} DetachesReplay(es: seq<Event>, before: map<string, Device>, keys: set<string>)
    requires Detaches(es, before, keys)
    ensures Replay(before, es) == before - keys
  {
    if es != [] {
      var n := |es| - 1;
      var k := Key(es[n].device);
      DetachesReplay(es[..n], before, keys - {k});
      assert before - (keys - {k}) - {k} == before - keys;
    }
  }

  /** Replaying a scan's attach events registers a fresh handle under each
      attached key and leaves the other keys alone. */
  lemma {:induction false} AttachesReplay(es: seq<Event>, listed: map<string, ListedDevice>, keys: set<string>,
                                          m: map<string, Device>)
    requires Attaches(es, listed, keys)
    ensures keys <= listed.Keys
    ensures Replay(m, es).Keys == m.Keys + keys
    ensures forall k :: k in keys ==> Replay(m, es)[k] == DriverlessDevice(listed[k])
    ensures forall k :: k in m && k !in keys ==> Replay(m, es)[k] == m[k]
  {
    if es != [] {
      var n := |es| - 1;
      var k := Key(es[n].device);
      AttachesReplay(es[..n], listed, keys - {k}, m);
    }
  }

  /** The events of a scan tell a listener everything: replayed on the
      registry before the scan, they give the registry after it. */
  lemma ScanReplays(before: map<string, Device>, listed: map<string, ListedDevice>,
                    detached: seq<Event>, attached: seq<Event>)
    requires ScanEvents(before, listed, detached, attached)
    ensures Replay(before, detached + attached) == NextRegistry(before, listed)
  {
    var gone := before.Keys - listed.Keys;
    var added := listed.Keys - before.Keys;
    ReplayAppend(before, detached, attached);
    DetachesReplay(detached, before, gone);
    AttachesReplay(attached, listed, added, before - gone);
  }

  /** A scan keeps a cycle's log in step with the registry: if the log
      since `from` replays to the registry before the scan, the log with the
      scan's events replays to the registry after it. */
  lemma CycleReplays(log: seq<Event>, from: nat, before: map<string, Device>,
                     listed: map<string, ListedDevice>, detached: seq<Event>, attached: seq<Event>)
    requires from <= |log| && before == Replay(map[], log[from..])
    requires ScanEvents(before, listed, detached, attached)
    ensures Replay(map[], (log + detached + attached)[from..]) == NextRegistry(before, listed)
  {
    assert (log + detached + attached)[from..] == log[from..] + (detached + attached);
    ReplayAppend(map[], log[from..], detached + attached);
    ScanReplays(before, listed, detached, attached);
  }

  /** Scanning the same listing twice: the second scan keeps the registry
      and emits nothing. */
  lemma RescanIsQuiet(before: map<string, Device>, listed: map<string, ListedDevice>,
                      detached: seq<Event>, attached: seq<Event>)
    requires ScanEvents(NextRegistry(before, listed), listed, detached, attached)
    ensures NextRegistry(NextRegistry(before, listed), listed) == NextRegistry(before, listed)
    ensures detached == [] && attached == []
  {
    var after := NextRegistry(before, listed);
    DetachesMeans(detached, after, after.Keys - listed.Keys);
    AttachesMeans(attached, listed, listed.Keys - after.Keys);
  }

  /** A scan from an empty registry, as after `stop()`: nothing is
      detached, and every listed device is attached once. */
  lemma ScanFromEmpty(listed: map<string, ListedDevice>, detached: seq<Event>, attached: seq<Event>)
    requires ScanEvents(map[], listed, detached, attached)
    ensures detached == [] && |attached| == |listed|
    ensures forall k :: k in listed ==> Attach(DriverlessDevice(listed[k])) in attached
  {
    var empty: map<string, Device> := map[];
    assert listed.Keys - empty.Keys == listed.Keys;
    DetachesMeans(detached, empty, {});
    AttachesMeans(attached, listed, listed.Keys);
  }

  /** Registry {a, b}, listing {b, c}: `a` is detached with its old handle,
      `c` is attached with a fresh one, `b` keeps its handle and produces
      no event. */
  lemma SwapScenario(da: Device, db: Device, lb: ListedDevice, lc: ListedDevice,
                     detached: seq<Event>, attached: seq<Event>)
    requires Key(da) == "a" && Key(db) == "b" && lb.did == "b" && lc.did == "c"
    requires ScanEvents(map["a" := da, "b" := db], Keyed([lb, lc]), detached, attached)
    ensures detached == [Detach(da)] && attached == [Attach(DriverlessDevice(lc))]
    ensures NextRegistry(map["a" := da, "b" := db], Keyed([lb, lc])) == map["b" := db, "c" := DriverlessDevice(lc)]
  {
    var before := map["a" := da, "b" := db];
    var listed := Keyed([lb, lc]);
    assert [lb, lc][..1] == [lb];
    assert [lb][..0] == [];
    assert Keyed([lb]) == map["b" := lb];
    assert listed == map["b" := lb, "c" := lc];
    assert before.Keys - listed.Keys == {"a"};
    assert listed.Keys - before.Keys == {"c"};
    DetachesMeans(detached, before, {"a"});
    AttachesMeans(attached, listed, {"c"});
  }

  class DriverlessDeviceAdapter {
    var drives: map<string, Device>
    var running: bool
    var ready: bool
    var events: seq<Event>
    /** Where in `events` the current start/stop cycle began. */
    ghost var cycleStart: nat

    /** Every handle is stored under its own key; replaying the events of
        the current cycle rebuilds the registry; and the current cycle has
        emitted `ready` once if the adapter is ready, never otherwise. */
    ghost predicate Consistent()
      reads this
    {
      && (forall k :: k in drives ==> Key(drives[k]) == k)
      && cycleStart <= |events|
      && drives == Replay(map[], events[cycleStart..])
      && Readies(events[cycleStart..]) == (if ready then 1 else 0)
    }

    /** Between calls, the adapter is ready exactly when it is running,
        and a stopped adapter holds no drives. */
    ghost predicate Valid()
      reads this
    {
      Consistent() && running == ready && (!running ==> drives == map[])
    }

    constructor()
      ensures Valid()
      ensures drives == map[] && !running && !ready && events == []
    {
      drives := map[];
      running := false;
      ready := false;
      events := [];
      cycleStart := 0;
    }

    /** `listDrives()`: the listed devices keyed by `did`. */
    static method ListDrives(devices: seq<ListedDevice>) returns (result: map<string, ListedDevice>)
      ensures result == Keyed(devices)
    {
      result := map[];
      for i := 0 to |devices|
        invariant result == Keyed(devices[..i])
      {
        assert devices[..i + 1][..i] == devices[..i];
        result := result[devices[i].did := devices[i]];
      }
      assert devices[..|devices|] == devices;
    }

    /** `start()`: mark the adapter running and run the first iteration
        of `scanLoop()`, which happens before `start()` returns. */
    method Start(devices: seq<ListedDevice>) returns (ghost detached: seq<Event>, ghost attached: seq<Event>)
      requires Valid()
      modifies this
      ensures Valid() && running && ready
      ensures drives == NextRegistry(old(drives), Keyed(devices))
      ensures events == old(events) + detached + attached + (if old(ready) then [] else [Ready])
      ensures ScanEvents(old(drives), Keyed(devices), detached, attached)
    {
      running := true;
      detached, attached := LoopIteration(devices);
    }

    /** `stop()`: the loop ends at its next test, and the registry is
        emptied without any `detach`. */
    method Stop()
      requires Valid()
      modifies this
      ensures Valid() && !running && !ready
      ensures drives == map[] && events == old(events)
    {
      running := false;
      ready := false;
      drives := map[];
      cycleStart := |events|;
    }

    /** The end of `scanLoop()`'s delay: one more iteration if the adapter
        is still running, the loop's end otherwise. */
    method Tick(devices: seq<ListedDevice>) returns (ghost detached: seq<Event>, ghost attached: seq<Event>)
      requires Valid()
      modifies this
      ensures Valid() && running == old(running)
      ensures events == old(events) + detached + attached
      ensures !running ==> drives == old(drives) && detached == [] && attached == []
      ensures running ==>
                && drives == NextRegistry(old(drives), Keyed(devices))
                && ScanEvents(old(drives), Keyed(devices), detached, attached)
    {
      detached, attached := [], [];
      if running {
        detached, attached := LoopIteration(devices);
      }
    }

    /** One iteration of `scanLoop()`'s body: a scan, then `ready` the
        first time round. */
    method LoopIteration(devices: seq<ListedDevice>) returns (ghost detached: seq<Event>, ghost attached: seq<Event>)
      requires Consistent() && running && (!ready ==> drives == map[])
      modifies this
      ensures Valid() && running && ready
      ensures drives == NextRegistry(old(drives), Keyed(devices))
      ensures events == old(events) + detached + attached + (if old(ready) then [] else [Ready])
      ensures ScanEvents(old(drives), Keyed(devices), detached, attached)
    {
      detached, attached := Scan(devices);
      if !ready {
        ghost var log := events;
        ready := true;
        events := events + [Ready];
        assert events[cycleStart..] == log[cycleStart..] + [Ready];
        assert (log[cycleStart..] + [Ready])[..|log[cycleStart..]|] == log[cycleStart..];
        ReadiesAppend(log[cycleStart..], [Ready]);
      }
    }

    /** `scan()`: diff the listing against the registry.  If the adapter
        has been stopped meanwhile, nothing happens. */
    method Scan(devices: seq<ListedDevice>) returns (ghost detached: seq<Event>, ghost attached: seq<Event>)
      requires Consistent()
      modifies this`drives, this`events
      ensures Consistent()
      ensures events == old(events) + detached + attached
      ensures !running ==> drives == old(drives) && detached == [] && attached == []
      ensures running ==>
                && drives == NextRegistry(old(drives), Keyed(devices))
                && ScanEvents(old(drives), Keyed(devices), detached, attached)
    {
      detached, attached := [], [];
      var listed := ListDrives(devices);
      if running {
        assert forall k :: k in listed ==> listed[k].did == k by {
          KeyedUnderDid(devices);
        }
        var oldDevices := drives.Keys;
        var newDevices := listed.Keys;
        ghost var before, log := drives, events;
        detached := DetachGone(oldDevices - newDevices);
        attached := AttachAdded(newDevices - oldDevices, listed);
        assert drives == NextRegistry(before, listed) by {
          NextRegistryPointwise(before, listed, drives);
        }
        assert drives == Replay(map[], events[cycleStart..]) by {
          CycleReplays(log, cycleStart, before, listed, detached, attached);
        }
        assert Readies(events[cycleStart..]) == Readies(log[cycleStart..]) by {
          DetachesNoReady(detached, before, oldDevices - newDevices);
          AttachesNoReady(attached, listed, newDevices - oldDevices);
          ReadiesNotEmitted(log, detached, attached, cycleStart);
        }
      }
    }

    /** The first loop of `scan()`: for each key that disappeared, emit
        `detach` with its handle and delete it from the registry. */
    method DetachGone(gone: set<string>) returns (ghost emitted: seq<Event>)
      requires gone <= drives.Keys
      requires forall k :: k in drives ==> Key(drives[k]) == k
      modifies this`drives, this`events
      ensures drives == old(drives) - gone
      ensures events == old(events) + emitted
      ensures Detaches(emitted, old(drives), gone)
    {
      ghost var before, log := drives, events;
      emitted := [];
      ghost var done: set<string> := {};
      var removed := gone;
      while removed != {}
        invariant done + removed == gone && done !! removed
        invariant drives == before - done
        invariant events == log + emitted
        invariant Detaches(emitted, before, done)
        decreases removed
      {
        var key :| key in removed;
        var drive := drives[key];
        DetachesAppend(emitted, before, done, key);
        events := events + [Detach(drive)];
        emitted := emitted + [Detach(drive)];
        drives := drives - {key};
        removed := removed - {key};
        done := done + {key};
      }
    }

    /** The second loop of `scan()`: for each key that appeared, build a
        handle for the listed device, emit `attach` with it and register
        it. */
    method AttachAdded(added: set<string>, listed: map<string, ListedDevice>) returns (ghost emitted: seq<Event>)
      requires added <= listed.Keys && added !! drives.Keys
      requires forall k :: k in listed ==> listed[k].did == k
      modifies this`drives, this`events
      ensures drives.Keys == old(drives).Keys + added
      ensures forall k :: k in old(drives) ==> drives[k] == old(drives)[k]
      ensures forall k :: k in added ==> drives[k] == DriverlessDevice(listed[k])
      ensures events == old(events) + emitted
      ensures Attaches(emitted, listed, added)
    {
      ghost var before, log := drives, events;
      emitted := [];
      ghost var done: set<string> := {};
      var toAdd := added;
      while toAdd != {}
        invariant done + toAdd == added && done !! toAdd
        invariant drives.Keys == before.Keys + done
        invariant forall k :: k in before ==> drives[k] == before[k]
        invariant forall k :: k in done ==> drives[k] == DriverlessDevice(listed[k])
        invariant events == log + emitted
        invariant Attaches(emitted, listed, done)
        decreases toAdd
      {
        var key :| key in toAdd;
        var driverlessDevice := DriverlessDevice(listed[key]);
        AttachesAppend(emitted, listed, done, key);
        events := events + [Attach(driverlessDevice)];
        emitted := emitted + [Attach(driverlessDevice)];
        drives := drives[key := driverlessDevice];
        toAdd := toAdd - {key};
        done := done + {key};
      }
    }
  }
}
