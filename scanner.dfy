/** The `Scanner` of lib/scanner.ts: it listens to a fixed list of adapters
    and re-emits their `attach`, `detach` and `error` events as its own.

    Listeners run synchronously inside `emit`, so the events one adapter
    emits during one call reach the scanner in that order before the call
    returns; each method therefore calls the adapter and then relays the
    events the adapter appended to its log.  The adapters modelled are the
    driverless adapters of module Driverless. */
module Scanners {
  import opened Basics
  import opened Driverless

  /** `Scanner.events`: the event names the scanner forwards. */
  predicate Forwarded(e: Event) {
    e.Attach? || e.Detach? || e.ErrorEvent?
  }

  /** What the scanner re-emits of an adapter's events, in order. */
  function Forward(es: seq<Event>): (r: seq<Event>)
    ensures |r| <= |es|
  {
    if es == [] then []
    else Forward(es[..|es| - 1]) + (if Forwarded(es[|es| - 1]) then [es[|es| - 1]] else [])
  }

  /** Forwarding commutes with appending. */
  lemma {:induction false} ForwardAppend(a: seq<Event>, b: seq<Event>)
    ensures Forward(a + b) == Forward(a) + Forward(b)
    decreases |b|
  {
    if b == [] {
      assert a + b == a;
    } else {
      var n := |b| - 1;
      ForwardAppend(a, b[..n]);
      assert (a + b)[..|a + b| - 1] == a + b[..n];
    }
  }

  /** Every event kept is one of the forwarded kinds, taken from the input
      in order; every input event of those kinds is kept. */
  lemma {:induction false} ForwardMeans(es: seq<Event>)
    ensures forall e :: e in Forward(es) ==> e in es && Forwarded(e)
    ensures forall e :: e in es && Forwarded(e) ==> e in Forward(es)
  {
    if es != [] {
      var n := |es| - 1;
      ForwardMeans(es[..n]);
      assert es == es[..n] + [es[n]];
    }
  }

  /** `ready` is never forwarded. */
  lemma ReadyNotForwarded(es: seq<Event>)
    ensures Forward(es + [Ready]) == Forward(es)
  {
    ForwardAppend(es, [Ready]);
    assert [Ready][..0] == [];
  }

  /** A sequence of forwarded kinds passes through unchanged. */
  lemma {:induction false} ForwardKeeps(es: seq<Event>)
    requires forall i :: 0 <= i < |es| ==> Forwarded(es[i])
    ensures Forward(es) == es
  {
    if es != [] {
      var n := |es| - 1;
      ForwardKeeps(es[..n]);
      assert es == es[..n] + [es[n]];
    }
  }

  /** Every event of an adapter's scan reaches the scanner's listeners
      unchanged. */
  lemma ScanForwarded(before: map<string, Device>, listed: map<string, ListedDevice>,
                      detached: seq<Event>, attached: seq<Event>)
    requires ScanEvents(before, listed, detached, attached)
    ensures Forward(detached + attached) == detached + attached
  {
    DetachesMeans(detached, before, before.Keys - listed.Keys);
    AttachesMeans(attached, listed, listed.Keys - before.Keys);
    ForwardKeeps(detached + attached);
  }

  /** The events of the scanner's log that came from adapter `i`. */
  function Project(events: seq<Event>, origin: seq<nat>, i: nat): seq<Event>
    requires |origin| == |events|
  {
    if events == [] then []
    else
      var n := |events| - 1;
      Project(events[..n], origin[..n], i) + (if origin[n] == i then [events[n]] else [])
  }

  lemma {:induction false} ProjectAppend(events: seq<Event>, origin: seq<nat>, add: seq<Event>, k: nat, i: nat)
    requires |origin| == |events|
    ensures Project(events + add, origin + seq(|add|, _ => k), i)
         == Project(events, origin, i) + (if i == k then add else [])
    decreases |add|
  {
    var tags := seq(|add|, _ => k);
    if add == [] {
      assert events + add == events && origin + tags == origin;
    } else {
      var n := |add| - 1;
      ProjectAppend(events, origin, add[..n], k, i);
      assert (events + add)[..|events + add| - 1] == events + add[..n];
      assert (origin + tags)[..|origin + tags| - 1] == origin + seq(n, _ => k);
    }
  }

  /** Relaying what adapter `k` emitted after its first `n` events keeps
      every adapter's projection of the log equal to what it forwarded:
      adapter `k`'s grows by the relayed events, the others are unchanged. */
  lemma RelayKeeps(log: seq<Event>, tags: seq<nat>, add: seq<Event>, k: nat, j: nat,
                    es: seq<Event>, from: nat, n: nat)
    requires |tags| == |log| && from <= |es|
    requires j == k ==>
               && from <= n <= |es| && add == Forward(es[n..])
               && Project(log, tags, j) == Forward(es[from..n])
    requires j != k ==> Project(log, tags, j) == Forward(es[from..])
    ensures Project(log + add, tags + seq(|add|, _ => k), j) == Forward(es[from..])
  {
    ProjectAppend(log, tags, add, k, j);
    if j == k {
      assert es[from..] == es[from..n] + es[n..];
      ForwardAppend(es[from..n], es[n..]);
    }
  }

  /** The slices of a log that grew by `emitted`. */
  lemma Appended(prior: seq<Event>, emitted: seq<Event>, from: nat)
    requires from <= |prior|
    ensures (prior + emitted)[from..|prior|] == prior[from..]
    ensures (prior + emitted)[|prior|..] == emitted
  {
  }

  /** Several adapters' relayed events, one adapter after the other. */
  function Flatten(relayed: seq<seq<Event>>): seq<Event> {
    if relayed == [] then [] else Flatten(relayed[..|relayed| - 1]) + relayed[|relayed| - 1]
  }

  /** A log that held `before` and then each of `relayed`, growing by `r`,
      holds `before` and then each of `relayed + [r]`. */
  lemma FlattenGrows(before: seq<Event>, relayed: seq<seq<Event>>, r: seq<Event>, log: seq<Event>)
    requires log == before + Flatten(relayed)
    ensures log + r == before + Flatten(relayed + [r])
  {
    assert (relayed + [r])[..|relayed|] == relayed;
  }

  /** A call the scanner makes on one of its adapters. */
  datatype Call = StartCall(index: nat) | StopCall(index: nat)

  /** The calls `start()` or `stop()` makes: one per adapter, in array
      order. */
  function Calls(n: nat, start: bool): (r: seq<Call>)
    ensures |r| == n
    ensures forall i :: 0 <= i < n ==> r[i] == if start then StartCall(i) else StopCall(i)
  {
    if n == 0 then [] else Calls(n - 1, start) + [if start then StartCall(n - 1) else StopCall(n - 1)]
  }

  /** A log of `Calls(n, start)` after `before` that grows by the next call
      is a log of `Calls(n + 1, start)`. */
  lemma CallsGrow(before: seq<Call>, n: nat, start: bool, log: seq<Call>)
    requires log == before + Calls(n, start)
    ensures log + [if start then StartCall(n) else StopCall(n)] == before + Calls(n + 1, start)
  {
  }

  /** How many events each adapter has emitted. */
  ghost function EventCounts(adapters: seq<DriverlessDeviceAdapter>): (r: seq<nat>)
    reads adapters
    ensures |r| == |adapters|
    ensures forall i :: 0 <= i < |adapters| ==> r[i] == |adapters[i].events|
  {
    if adapters == [] then []
    else
      var n := |adapters| - 1;
      EventCounts(adapters[..n]) + [|adapters[n].events|]
  }

  /** Each adapter's registry. */
  ghost function Registries(adapters: seq<DriverlessDeviceAdapter>): (r: seq<map<string, Device>>)
    reads adapters
    ensures |r| == |adapters|
    ensures forall i :: 0 <= i < |adapters| ==> r[i] == adapters[i].drives
  {
    if adapters == [] then []
    else
      var n := |adapters| - 1;
      Registries(adapters[..n]) + [adapters[n].drives]
  }

  /** Each adapter's position in a sequence that lists none twice. */
  ghost function Positions(adapters: seq<DriverlessDeviceAdapter>): (m: map<DriverlessDeviceAdapter, nat>)
    requires forall i, j :: 0 <= i < j < |adapters| ==> adapters[i] != adapters[j]
    ensures forall i :: 0 <= i < |adapters| ==> adapters[i] in m && m[adapters[i]] == i
  {
    if adapters == [] then map[]
    else
      var n := |adapters| - 1;
      Positions(adapters[..n])[adapters[n] := n]
  }

  class Scanner {
    const adapters: seq<DriverlessDeviceAdapter>
    /** How many events each adapter had emitted when the scanner began
        listening. */
    ghost const base: seq<nat>
    /** Each adapter's position in `adapters`: no adapter is listed twice. */
    ghost const index: map<DriverlessDeviceAdapter, nat>
    var events: seq<Event>
    /** Which adapter each event of `events` came from. */
    ghost var origin: seq<nat>
    ghost var calls: seq<Call>

    /** The shape the invariant relies on: one listener per adapter, each
        adapter in its own valid state. */
    ghost predicate Wired()
      reads this`events, this`origin, adapters
    {
      Listening() && |origin| == |events|
    }

    /** Every adapter is listed once, is in a valid state, and has emitted
        at least what it had when the scanner began listening. */
    ghost predicate Listening()
      reads adapters
    {
      && |base| == |adapters|
      && (forall i :: 0 <= i < |adapters| ==> adapters[i] in index && index[adapters[i]] == i)
      && (forall i :: 0 <= i < |adapters| ==> adapters[i].Valid() && base[i] <= |adapters[i].events|)
    }

    /** The scanner's log, restricted to adapter `i`, is exactly what that
        adapter emitted since the scanner began listening, less the events
        that are not forwarded. */
    ghost predicate Relayed(i: nat)
      requires i < |adapters|
      reads this`events, this`origin, adapters[i]
    {
      && |origin| == |events| && i < |base| && base[i] <= |adapters[i].events|
      && Project(events, origin, i) == Forward(adapters[i].events[base[i]..])
    }

    ghost predicate Valid()
      reads this`events, this`origin, adapters
    {
      Wired() && forall i :: 0 <= i < |adapters| ==> Relayed(i)
    }

    /** `new Scanner(adapters)`: subscribe to every adapter. */
    constructor(adapters: seq<DriverlessDeviceAdapter>)
      requires forall i, j :: 0 <= i < j < |adapters| ==> adapters[i] != adapters[j]
      requires forall i :: 0 <= i < |adapters| ==> adapters[i].Valid()
      ensures Valid()
      ensures this.adapters == adapters && events == [] && calls == []
      ensures forall i :: 0 <= i < |adapters| ==> base[i] == |adapters[i].events|
    {
      this.adapters := adapters;
      base := EventCounts(adapters);
      index := Positions(adapters);
      events := [];
      origin := [];
      calls := [];
      new;
      forall i | 0 <= i < |adapters|
        ensures Relayed(i)
      {
        assert adapters[i].events[base[i]..] == [];
      }
    }

    /** The listener of adapter `i`: re-emit what it appended to its log
        since it had `n` events. */
    method Relay(i: nat, n: nat)
      requires Wired() && i < |adapters|
      requires base[i] <= n <= |adapters[i].events|
      requires forall j :: 0 <= j < |adapters| && j != i ==> Relayed(j)
      requires Project(events, origin, i) == Forward(adapters[i].events[base[i]..n])
      modifies this`events, this`origin
      ensures Valid()
      ensures events == old(events) + Forward(adapters[i].events[n..])
    {
      var add := Forward(adapters[i].events[n..]);
      ghost var log, tags := events, origin;
      events := events + add;
      origin := origin + seq(|add|, _ => i);
      forall j | 0 <= j < |adapters|
        ensures Relayed(j)
      {
        if j != i {
          assert old(Relayed(j));
        }
        RelayKeeps(log, tags, add, i, j, adapters[j].events, base[j], n);
      }
    }

    /** The first `i` adapters have been started, each from registry
        `drives[j]` and event count `counts[j]`, and `relayed[j]` is what
        adapter `j` emitted since then, forwarded; the others are as they
        were. */
    ghost predicate StartedUpTo(i: nat, listings: seq<seq<ListedDevice>>, drives: seq<map<string, Device>>,
                                counts: seq<nat>, relayed: seq<seq<Event>>)
      reads adapters
    {
      && i <= |adapters| && |listings| == |drives| == |counts| == |adapters| && |relayed| == i
      && (forall j :: 0 <= j < i ==>
            && adapters[j].running && adapters[j].ready
            && adapters[j].drives == NextRegistry(drives[j], Keyed(listings[j]))
            && counts[j] <= |adapters[j].events|
            && relayed[j] == Forward(adapters[j].events[counts[j]..]))
      && (forall j :: i <= j < |adapters| ==>
            adapters[j].drives == drives[j] && |adapters[j].events| == counts[j])
    }

    /** `start()`: start every adapter, in array order; adapter `i` lists
        `listings[i]` in its first scan.  Afterwards every adapter is running
        and ready, its registry is the first scan's successor of the one it
        had, and `relayed[i]` is what it emitted meanwhile, forwarded; the
        scanner's log grows by those, adapter after adapter, and the calls
        were made in array order. */
    method Start(listings: seq<seq<ListedDevice>>) returns (ghost relayed: seq<seq<Event>>)
      requires Valid() && |listings| == |adapters|
      modifies this, adapters
      ensures Valid()
      ensures StartedUpTo(|adapters|, listings, old(Registries(adapters)), old(EventCounts(adapters)), relayed)
      ensures events == old(events) + Flatten(relayed)
      ensures calls == old(calls) + Calls(|adapters|, true)
    {
      relayed := [];
      ghost var start, called := events, calls;
      ghost var drives, counts := Registries(adapters), EventCounts(adapters);
      for i := 0 to |adapters|
        invariant Valid() && StartedUpTo(i, listings, drives, counts, relayed)
        invariant events == start + Flatten(relayed)
        invariant calls == called + Calls(i, true)
      {
        ghost var log := calls;
        relayed := StartStep(i, listings, start, drives, counts, relayed);
        CallsGrow(called, i, true, log);
      }
    }

    /** One step of `start()`'s loop, as the loop sees it: adapter `i` is
        started and what it emitted is appended, forwarded, to the log. */
    method StartStep(i: nat, listings: seq<seq<ListedDevice>>, ghost start: seq<Event>,
                     ghost drives: seq<map<string, Device>>, ghost counts: seq<nat>,
                     ghost relayed: seq<seq<Event>>) returns (ghost grown: seq<seq<Event>>)
      requires Valid() && i < |adapters| && StartedUpTo(i, listings, drives, counts, relayed)
      requires events == start + Flatten(relayed)
      modifies this`events, this`origin, this`calls, adapters[i]
      ensures Valid() && StartedUpTo(i + 1, listings, drives, counts, grown)
      ensures events == start + Flatten(grown)
      ensures calls == old(calls) + [StartCall(i)]
    {
      forall j | 0 <= j < |adapters| && j != i
        ensures adapters[j] != adapters[i]
      {
        assert index[adapters[j]] == j;
      }
      ghost var log := events;
      StartOne(i, listings[i]);
      ghost var r := Forward(adapters[i].events[counts[i]..]);
      FlattenGrows(start, relayed, r, log);
      grown := relayed + [r];
    }

    /** The body of `start()`'s loop: `adapters[i].start()`, with the
        adapter's first scan listing `devices`; what it emits is relayed at
        once. */
    method StartOne(i: nat, devices: seq<ListedDevice>)
      requires Valid() && i < |adapters|
      modifies this`events, this`origin, this`calls, adapters[i]
      ensures Valid() && adapters[i].running && adapters[i].ready
      ensures adapters[i].drives == NextRegistry(old(adapters[i].drives), Keyed(devices))
      ensures old(|adapters[i].events|) <= |adapters[i].events|
      ensures events == old(events) + Forward(adapters[i].events[old(|adapters[i].events|)..])
      ensures calls == old(calls) + [StartCall(i)]
    {
      calls := calls + [StartCall(i)];
      var n := |adapters[i].events|;
      ghost var prior := adapters[i].events;
      assert Relayed(i);
      ghost var detached, attached := adapters[i].Start(devices);
      Appended(prior, adapters[i].events[n..], base[i]);
      assert adapters[i].events == prior + adapters[i].events[n..];
      Relay(i, n);
    }

    /** `stop()`: stop every adapter, in array order.  Stopping emits
        nothing, so nothing is relayed. */
    method Stop()
      requires Valid()
      modifies this, adapters
      ensures Valid() && events == old(events)
      ensures forall i :: 0 <= i < |adapters| ==> !adapters[i].running && !adapters[i].ready && adapters[i].drives == map[]
      ensures calls == old(calls) + Calls(|adapters|, false)
    {
      for i := 0 to |adapters|
        invariant Valid() && events == old(events)
        invariant forall j :: 0 <= j < i ==> !adapters[j].running && !adapters[j].ready && adapters[j].drives == map[]
        invariant calls == old(calls) + Calls(i, false)
      {
        StopOne(i);
      }
    }

    /** The body of `stop()`'s loop: `adapters[i].stop()`. */
    method StopOne(i: nat)
      requires Valid() && i < |adapters|
      modifies this`calls, adapters[i]
      ensures Valid() && !adapters[i].running && !adapters[i].ready && adapters[i].drives == map[]
      ensures calls == old(calls) + [StopCall(i)]
    {
      calls := calls + [StopCall(i)];
      assert Relayed(i);
      adapters[i].Stop();
      assert Relayed(i);
    }

    /** Adapter `i`'s scan timer fires, with `devices` listed: whatever the
        scan emits reaches the scanner's listeners unchanged. */
    method Tick(i: nat, devices: seq<ListedDevice>) returns (ghost detached: seq<Event>, ghost attached: seq<Event>)
      requires Valid() && i < |adapters|
      modifies this`events, this`origin, adapters[i]
      ensures Valid()
      ensures events == old(events) + detached + attached
      ensures !adapters[i].running ==> detached == [] && attached == []
      ensures adapters[i].running ==> ScanEvents(old(adapters[i].drives), Keyed(devices), detached, attached)
    {
      var n := |adapters[i].events|;
      ghost var prior, drives := adapters[i].events, adapters[i].drives;
      assert Relayed(i);
      detached, attached := adapters[i].Tick(devices);
      ghost var now := adapters[i].events;
      assert now[base[i]..n] == prior[base[i]..] && now[n..] == detached + attached by {
        Appended(prior, detached + attached, base[i]);
      }
      assert Forward(detached + attached) == detached + attached by {
        if adapters[i].running {
          ScanForwarded(drives, Keyed(devices), detached, attached);
        }
      }
      Relay(i, n);
    }
  }
}
