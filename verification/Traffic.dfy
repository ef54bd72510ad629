/** Traffic accounting that survives reboots of the measured host, and the archive of removed
    devices (utils/traffic_helpers.py). */
module Traffic {
  import opened Options

  /** The three entries kept with a server. */
  datatype Meter = Meter(cycle: Option<string>, lastRaw: Option<nat>, monthly: Option<nat>)

  function NonNegative(x: int): nat {
    if x < 0 then 0 else x
  }

  function RawTotal(tx: int, rx: int): nat {
    NonNegative(tx) + NonNegative(rx)
  }

  /** New bytes since the last reading: a smaller reading means the host has restarted from zero. */
  function Delta(raw: nat, last: nat): nat {
    if raw >= last then raw - last else raw
  }

  /** What a reading adds to the account. */
  function Credit(m: Meter, raw: nat): nat {
    if raw == 0 || m.lastRaw == None then 0 else Delta(raw, m.lastRaw.value)
  }

  function Read(m: Meter, raw: nat, cycle: string): Meter {
    if raw == 0 then m
    else if m.cycle != Some(cycle) then Meter(Some(cycle), Some(raw), Some(Credit(m, raw)))
    else if m.lastRaw == None then m.(lastRaw := Some(raw))
    else if Credit(m, raw) == 0 then m
    else Meter(m.cycle, Some(raw), Some((if m.monthly.Some? then m.monthly.value else 0) + Credit(m, raw)))
  }

  class HostTraffic {
    var cycle: Option<string>
    var lastRaw: Option<nat>
    var monthly: Option<nat>

    function Snapshot(): Meter
      reads this
    {
      Meter(cycle, lastRaw, monthly)
    }

    constructor ()
      ensures Snapshot() == Meter(None, None, None)
    {
      cycle, lastRaw, monthly := None, None, None;
    }

    /** The result tells whether anything has to be saved. */
    method AccumulateHostTrafficCycle(hostTx: int, hostRx: int, currentCycle: string) returns (modified: bool)
      modifies this
      ensures Snapshot() == Read(old(Snapshot()), RawTotal(hostTx, hostRx), currentCycle)
      ensures modified <==> Snapshot() != old(Snapshot())
    {
      var raw := NonNegative(hostTx) + NonNegative(hostRx);
      if raw == 0 {
        return false;
      }
      if cycle != Some(currentCycle) {
        cycle := Some(currentCycle);
        if lastRaw.Some? {
          var delta := if raw >= lastRaw.value then raw - lastRaw.value else raw;
          monthly := Some(delta);
        } else {
          monthly := Some(0);
        }
        lastRaw := Some(raw);
        return true;
      }
      if lastRaw == None {
        lastRaw := Some(raw);
        return true;
      }
      var delta := if raw >= lastRaw.value then raw - lastRaw.value else raw;
      if delta > 0 {
        monthly := Some((if monthly.Some? then monthly.value else 0) + delta);
        lastRaw := Some(raw);
        return true;
      }
      return false;
    }
  }

  // ----- against the true traffic

  /** `truth` counts every byte since the first reading that counted, `credited` everything ever
      added to the account, `inCycle` what was added since the cycle last changed. */
  datatype World = World(meter: Meter, tx: nat, rx: nat, truth: nat, credited: nat, inCycle: nat)

  datatype Event = Moved(tx: nat, rx: nat) | Reboot | Reading(cycle: string)

  const START := World(Meter(None, None, None), 0, 0, 0, 0, 0)

  function Step(w: World, ev: Event): World {
    match ev
    case Moved(tx, rx) =>
      w.(tx := w.tx + tx, rx := w.rx + rx, truth := if w.meter.lastRaw.Some? then w.truth + tx + rx else 0)
    case Reboot => w.(tx := 0, rx := 0)
    case Reading(c) =>
      var raw := RawTotal(w.tx, w.rx);
      var got := Credit(w.meter, raw);
      w.(meter := Read(w.meter, raw, c), credited := w.credited + got,
         inCycle := if raw > 0 && w.meter.cycle != Some(c) then got else w.inCycle + got)
  }

  function Run(evs: seq<Event>): World {
    if evs == [] then START else Step(Run(evs[..|evs| - 1]), evs[|evs| - 1])
  }

  /** What is credited and what the counter still shows beyond the last reading is real traffic. */
  predicate Honest(w: World) {
    && (w.meter.lastRaw == None ==> w.credited == 0 && w.truth == 0 && w.inCycle == 0 && w.meter.cycle == None)
    && (w.meter.lastRaw.Some? ==>
         && w.meter.lastRaw.value > 0
         && w.credited + Delta(w.tx + w.rx, w.meter.lastRaw.value) <= w.truth
         && (w.tx + w.rx < w.meter.lastRaw.value || w.credited + (w.tx + w.rx) - w.meter.lastRaw.value <= w.truth)
         && w.meter.cycle.Some?
         && w.meter.monthly == Some(w.inCycle) && w.inCycle <= w.credited)
  }

  /** A reading of `raw` bytes on the counter is credited within what is real. */
  lemma CreditIsReal(credited: nat, raw: nat, last: nat, truth: nat)
    requires credited + Delta(raw, last) <= truth
    ensures credited + Delta(raw, last) + Delta(raw, raw) <= truth
  {
  }

  lemma ReadingHonest(w: World, c: string)
    requires Honest(w) && w.meter.lastRaw.Some? && w.tx + w.rx > 0
    ensures Honest(Step(w, Reading(c)))
  {
    var raw, last := w.tx + w.rx, w.meter.lastRaw.value;
    assert RawTotal(w.tx, w.rx) == raw && Credit(w.meter, raw) == Delta(raw, last);
    CreditIsReal(w.credited, raw, last, w.truth);
    var w' := Step(w, Reading(c));
    assert w'.credited == w.credited + Delta(raw, last);
    assert w'.meter.lastRaw == Some(raw);
  }

  lemma FirstReadingHonest(w: World, c: string)
    requires Honest(w) && (w.meter.lastRaw == None || w.tx + w.rx == 0)
    ensures Honest(Step(w, Reading(c)))
  {
    assert RawTotal(w.tx, w.rx) == w.tx + w.rx;
  }

  lemma MovedHonest(w: World, tx: nat, rx: nat)
    requires Honest(w)
    ensures Honest(Step(w, Moved(tx, rx)))
  {
  }

  lemma RebootHonest(w: World)
    requires Honest(w)
    ensures Honest(Step(w, Reboot))
  {
  }

  lemma StepHonest(w: World, ev: Event)
    requires Honest(w)
    ensures Honest(Step(w, ev))
  {
    hide Honest, Step;
    match ev
    case Moved(tx, rx) => MovedHonest(w, tx, rx);
    case Reboot => RebootHonest(w);
    case Reading(c) =>
      if w.meter.lastRaw.Some? && w.tx + w.rx > 0 { ReadingHonest(w, c); } else { FirstReadingHonest(w, c); }
  }

  lemma StartHonest()
    ensures Honest(START)
  {
  }

  lemma HonestMeans(w: World)
    requires Honest(w)
    ensures w.credited <= w.truth
    ensures w.meter.monthly.Some? && w.meter.lastRaw.Some? ==> w.meter.monthly.value == w.inCycle <= w.credited
  {
  }

  /** On every run of traffic, reboots and readings in any cycles, the account never exceeds the
      true traffic since the first reading, and the monthly figure is what was added in its cycle. */
  lemma {:induction false} NeverOvercounts(evs: seq<Event>)
    ensures var w := Run(evs);
            && Honest(w) && w.credited <= w.truth
            && (w.meter.monthly.Some? && w.meter.lastRaw.Some? ==> w.meter.monthly.value == w.inCycle <= w.credited)
  {
    hide Honest, Step;
    if evs != [] {
      NeverOvercounts(evs[..|evs| - 1]);
      StepHonest(Run(evs[..|evs| - 1]), evs[|evs| - 1]);
    } else {
      StartHonest();
    }
    HonestMeans(Run(evs));
  }

  predicate NoReboot(evs: seq<Event>) {
    forall i :: 0 <= i < |evs| ==> !evs[i].Reboot?
  }

  predicate Exact(w: World) {
    if w.meter.lastRaw == None then w.credited == 0 && w.truth == 0
    else 0 < w.meter.lastRaw.value <= w.tx + w.rx && w.credited + (w.tx + w.rx - w.meter.lastRaw.value) == w.truth
  }

  /** Without reboots nothing is lost either: after every reading the account is the true traffic. */
  lemma {:induction false} ExactWithoutReboots(evs: seq<Event>)
    requires NoReboot(evs)
    ensures Exact(Run(evs))
    ensures evs != [] && evs[|evs| - 1].Reading? ==> Run(evs).credited == Run(evs).truth
  {
    hide Honest, Exact, Step;
    if evs != [] {
      var pre, ev := evs[..|evs| - 1], evs[|evs| - 1];
      ExactWithoutReboots(pre);
      ExactStep(Run(pre), ev);
    } else {
      ExactAtStart();
    }
  }

  lemma ExactAtStart()
    ensures Exact(START)
  {
  }

  lemma ExactStep(w: World, ev: Event)
    requires Exact(w) && !ev.Reboot?
    ensures Exact(Step(w, ev))
    ensures ev.Reading? ==> Step(w, ev).credited == Step(w, ev).truth
  {
    assert RawTotal(w.tx, w.rx) == w.tx + w.rx;
  }

  // ----- the archive of removed devices

  type Archive = map<string, int>

  ghost function Total(a: Archive): int
    decreases |a|
  {
    if a == map[] then 0
    else
      var k :| k in a;
      assert |a - {k}| < |a| by { SmallerWithout(a, k); }
      a[k] + Total(a - {k})
  }

  lemma SmallerWithout(a: Archive, k: string)
    requires k in a
    ensures |a - {k}| == |a| - 1
  {
    assert (a - {k}).Keys == a.Keys - {k};
    assert |a.Keys| == |a| && |(a - {k}).Keys| == |a - {k}|;
  }

  /** Any entry can be taken out of the sum first. */
  lemma {:induction false} TotalTakes(a: Archive, k: string)
    requires k in a
    ensures Total(a) == a[k] + Total(a - {k})
    decreases |a|
  {
    var x :| x in a && Total(a) == a[x] + Total(a - {x});
    if x != k {
      SmallerWithout(a, x);
      SmallerWithout(a, k);
      TotalTakes(a - {x}, k);
      TotalTakes(a - {k}, x);
      assert a - {x} - {k} == a - {k} - {x};
    }
  }

  lemma TotalPut(a: Archive, k: string, v: int)
    ensures Total(a[k := v]) == Total(a) - (if k in a then a[k] else 0) + v
  {
    TotalTakes(a[k := v], k);
    assert a[k := v] - {k} == a - {k};
    if k in a { TotalTakes(a, k); } else { assert a - {k} == a; }
  }

  function Value(a: Archive, k: string): int {
    if k in a then a[k] else 0
  }

  /** `slot` is the slot key of the device's name; an entry under the plain name is moved there. */
  class DeviceArchive {
    var entries: Archive

    method RecordDeviceTraffic(name: Option<string>, slot: string, bytes: int)
      modifies this
      ensures Total(entries) == Total(old(entries)) + NonNegative(bytes)
      ensures (bytes > 0 || Named(name)) ==>
                && slot in entries
                && entries[slot] == Value(old(entries), slot) + NonNegative(bytes)
                   + (if Named(name) && name.value != slot then Value(old(entries), name.value) else 0)
                && (Named(name) && name.value != slot ==> name.value !in entries)
      ensures forall k :: k != slot && name != Some(k) ==> Value(entries, k) == Value(old(entries), k)
      ensures !(bytes > 0 || Named(name)) ==> entries == old(entries)
    {
      if bytes <= 0 && !Named(name) {
        return;
      }
      var legacy := 0;
      if Named(name) && name.value in entries && name.value != slot {
        legacy := entries[name.value];
        TotalTakes(entries, name.value);
        entries := entries - {name.value};
      }
      TotalPut(entries, slot, Value(entries, slot) + legacy + NonNegative(bytes));
      entries := entries[slot := Value(entries, slot) + legacy + NonNegative(bytes)];
    }
  }

  predicate Named(name: Option<string>) {
    name.Some? && name.value != ""
  }
}
