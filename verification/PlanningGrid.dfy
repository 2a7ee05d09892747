/**
 The grid of planning starts: the current instant, every native tariff boundary ahead and a regular lattice
 anchored at the first native boundary. It leaves no gap longer than one interval, so slots built from it
 always pass the valuation's timing guard.
 */
module PlanningGrid {
  import opened Common
  import opened SiteEnergy

  const HOUR := 3_600_000_000
  const MINUTE := 60_000_000

  /** Some whole number of intervals away from `origin`. */
  predicate OnLattice(at: int, origin: int, interval: int)
    requires interval > 0
  {
    (at - origin) % interval == 0
  }

  /** The earliest native boundary anchors the lattice; without any, the present does. */
  ghost predicate IsOrigin(origin: int, now: int, native: seq<int>) {
    if |native| == 0 then origin == now
    else origin in native && forall at | at in native :: origin <= at
  }

  ghost predicate Wanted(at: int, now: int, end: int, interval: int, native: seq<int>, origin: int)
    requires interval > 0
  {
    at == now || (now < at < end && (at in native || OnLattice(at, origin, interval)))
  }

  ghost predicate Increasing(r: seq<int>) { forall i, j | 0 <= i < j < |r| :: r[i] < r[j] }

  method Earliest(native: seq<int>) returns (origin: int)
    requires |native| > 0
    ensures origin in native && forall at | at in native :: origin <= at
  {
    origin := native[0];
    for i := 1 to |native|
      invariant origin in native && forall k | 0 <= k < i :: origin <= native[k]
    {
      if native[i] < origin { origin := native[i]; }
    }
  }

  method Insert(sorted: seq<int>, at: int) returns (r: seq<int>)
    requires Increasing(sorted) && at !in sorted
    ensures Increasing(r) && forall x :: x in r <==> x in sorted || x == at
  {
    var i := 0;
    while i < |sorted| && sorted[i] < at
      invariant 0 <= i <= |sorted| && forall k | 0 <= k < i :: sorted[k] < at
    {
      i := i + 1;
    }
    if i < |sorted| { assert sorted[i] in sorted; }
    r := sorted[..i] + [at] + sorted[i..];
    hide Increasing;
    InsertedIncreasing(sorted, i, at);
    InsertedMembers(sorted, i, at);
  }

  lemma InsertedMembers(sorted: seq<int>, i: nat, at: int)
    requires i <= |sorted|
    ensures forall x :: x in sorted[..i] + [at] + sorted[i..] <==> x in sorted || x == at
  {
    var before, after := sorted[..i], sorted[i..];
    assert sorted == before + after;
    assert forall x :: x in before + after <==> x in before || x in after;
  }

  lemma InsertedIncreasing(sorted: seq<int>, i: nat, at: int)
    requires Increasing(sorted) && i <= |sorted|
    requires (forall k | 0 <= k < i :: sorted[k] < at) && (i < |sorted| ==> at < sorted[i])
    ensures Increasing(sorted[..i] + [at] + sorted[i..])
  {
    var r := sorted[..i] + [at] + sorted[i..];
    forall j, k | 0 <= j < k < |r| ensures r[j] < r[k] {
      assert r[j] == if j < i then sorted[j] else if j == i then at else sorted[j - 1];
      assert r[k] == if k < i then sorted[k] else if k == i then at else sorted[k - 1];
    }
  }

  method Any<T>(s: set<T>) returns (x: T)
    requires s != {}
    ensures x in s
  {
    x :| x in s;
  }

  method Sorted(s: set<int>) returns (r: seq<int>)
    ensures Increasing(r) && forall x :: x in r <==> x in s
  {
    var rest := s;
    r := [];
    while rest != {}
      invariant Increasing(r) && rest <= s && forall x :: x in r <==> x in s && x !in rest
      decreases |rest|
    {
      var x := Any(rest);
      r := Insert(r, x);
      rest := rest - {x};
    }
  }

  lemma NextLattice(now: int, origin: int, interval: int)
    requires interval > 0
    ensures var first := origin + ((now - origin) / interval + 1) * interval;
      now < first <= now + interval && OnLattice(first, origin, interval)
  {
    var q := (now - origin) / interval;
    assert now - origin == q * interval + (now - origin) % interval;
    assert (q + 1) * interval == q * interval + interval;
    LatticeMultiple(q + 1, interval);
  }

  lemma ProductBounds(k: int, interval: int)
    requires interval > 0
    ensures k >= 1 ==> k * interval >= interval
    ensures k >= 2 ==> k * interval >= 2 * interval
    ensures k <= 0 ==> k * interval <= 0
    ensures k <= -1 ==> k * interval <= -interval
  {}

  lemma LatticeMultiple(k: int, interval: int)
    requires interval > 0
    ensures (k * interval) % interval == 0
  {
    var r := (k * interval) % interval;
    var d := (k * interval) / interval;
    assert k * interval == d * interval + r;
    assert (k - d) * interval == r;
    ProductBounds(k - d, interval);
  }

  /** Two lattice points less than one interval apart coincide. */
  lemma LatticeGap(a: int, b: int, origin: int, interval: int)
    requires interval > 0 && OnLattice(a, origin, interval) && OnLattice(b, origin, interval) && a < b
    ensures a + interval <= b && OnLattice(a + interval, origin, interval)
  {
    var p, q := (a - origin) / interval, (b - origin) / interval;
    assert a - origin == p * interval && b - origin == q * interval;
    assert (q - p) * interval == b - a;
    ProductBounds(q - p, interval);
    OneFurther(p, interval);
    LatticeMultiple(p + 1, interval);
  }

  lemma OneFurther(p: int, interval: int)
    ensures (p + 1) * interval == p * interval + interval
  {}

  /** Add the lattice points from `first` on, one interval at a time. */
  method AddLattice(starts: set<int>, now: int, first: int, end: int, ghost origin: int, interval: int)
    returns (r: set<int>)
    requires interval > 0 && now < first <= now + interval && OnLattice(first, origin, interval)
    ensures forall x :: x in r <==> x in starts || (now < x < end && OnLattice(x, origin, interval))
  {
    hide OnLattice;
    r := starts;
    var at := first;
    assert forall x | now < x < at :: !OnLattice(x, origin, interval) by {
      forall x | now < x < at ensures !OnLattice(x, origin, interval) {
        if OnLattice(x, origin, interval) { LatticeGap(x, at, origin, interval); }
      }
    }
    while at < end
      invariant OnLattice(at, origin, interval) && now < at
      invariant forall x :: x in r <==> x in starts || (now < x < at && x < end && OnLattice(x, origin, interval))
      decreases end - at
    {
      ghost var before := r;
      r := r + {at};
      var next := at + interval;
      assert OnLattice(next, origin, interval) by { StepStaysOnLattice(at, origin, interval); }
      forall x | at < x < next ensures !OnLattice(x, origin, interval) {
        if OnLattice(x, origin, interval) { LatticeGap(at, x, origin, interval); }
      }
      at := next;
    }
  }

  lemma StepStaysOnLattice(at: int, origin: int, interval: int)
    requires interval > 0 && OnLattice(at, origin, interval)
    ensures OnLattice(at + interval, origin, interval)
  {
    var p := (at - origin) / interval;
    assert at - origin == p * interval;
    assert at + interval - origin == (p + 1) * interval;
    LatticeMultiple(p + 1, interval);
  }

  /** The planning starts, for a positive horizon and interval, are exactly the wanted instants in order. */
  method PlanningStarts(now: int, horizonHours: nat, intervalMinutes: int, native: seq<int>)
    returns (starts: seq<int>, ghost origin: int)
    requires intervalMinutes > 0
    ensures horizonHours == 0 && |native| == 0 ==> starts == []
    ensures horizonHours > 0 || |native| > 0 ==>
      IsGridFrom(starts, now, now + horizonHours * HOUR, intervalMinutes * MINUTE, native, origin)
  {
    var end, interval := now + horizonHours * HOUR, intervalMinutes * MINUTE;
    if |native| == 0 {
      starts := Offsets(now, end, interval);
      origin := now;
    } else {
      var anchor := Earliest(native);
      origin := anchor;
      NextLattice(now, anchor, interval);
      var first := anchor + ((now - anchor) / interval + 1) * interval;
      hide OnLattice;
      var ahead := (set at | at in native && now < at < end);
      var all := AddLattice({now} + ahead, now, first, end, anchor, interval);
      starts := Sorted(all);
      assert IsGridFrom(starts, now, end, interval, native, origin);
    }
  }

  lemma IncreasingAppend(r: seq<int>, at: int)
    requires Increasing(r) && forall x | x in r :: x < at
    ensures Increasing(r + [at])
  {
    assert forall k | 0 <= k < |r| :: r[k] in r;
  }

  /** Without tariffs: every interval from the present, before the end. */
  method Offsets(now: int, end: int, interval: int) returns (starts: seq<int>)
    requires interval > 0 && now <= end
    ensures Increasing(starts)
    ensures now == end ==> starts == []
    ensures forall x :: x in starts <==> now < end && Wanted(x, now, end, interval, [], now)
  {
    starts := [];
    var at := now;
    LatticeMultiple(0, interval);
    while at < end
      invariant OnLattice(at, now, interval) && now <= at
      invariant Increasing(starts) && forall x | x in starts :: x < at
      invariant forall x :: x in starts <==> now <= x < at && x < end && OnLattice(x, now, interval)
      decreases end - at
    {
      hide OnLattice;
      StepStaysOnLattice(at, now, interval);
      forall x | at < x < at + interval ensures !OnLattice(x, now, interval) {
        if OnLattice(x, now, interval) { LatticeGap(at, x, now, interval); }
      }
      IncreasingAppend(starts, at);
      starts := starts + [at];
      at := at + interval;
    }
    if |starts| > 0 { assert starts[0] in starts; }
  }

  // ---------------------------------------------------------------- no gap

  ghost predicate IsGrid(starts: seq<int>, now: int, end: int, interval: int, native: seq<int>, origin: int)
    requires interval > 0
  {
    Increasing(starts) && forall x :: x in starts <==> Wanted(x, now, end, interval, native, origin)
  }

  /** The grid anchored at a proper origin. */
  ghost predicate IsGridFrom(starts: seq<int>, now: int, end: int, interval: int, native: seq<int>, origin: int)
    requires interval > 0
  {
    IsOrigin(origin, now, native) && IsGrid(starts, now, end, interval, native, origin)
  }

  lemma GridStartsNow(starts: seq<int>, now: int, end: int, interval: int, native: seq<int>, origin: int)
    requires interval > 0 && IsGrid(starts, now, end, interval, native, origin)
    ensures |starts| > 0 && starts[0] == now
  {
    hide OnLattice;
    assert Wanted(now, now, end, interval, native, origin);
    assert now in starts;
    var z :| 0 <= z < |starts| && starts[z] == now;
    assert starts[0] in starts;
    assert Wanted(starts[0], now, end, interval, native, origin);
  }

  function NextStart(starts: seq<int>, end: int, i: nat): int
    requires i < |starts|
  {
    if i + 1 < |starts| then starts[i + 1] else end
  }

  lemma GridStep(starts: seq<int>, now: int, end: int, interval: int, native: seq<int>, origin: int, i: nat)
    requires interval > 0 && now < end && IsGrid(starts, now, end, interval, native, origin) && i < |starts|
    ensures now <= starts[i] < NextStart(starts, end, i) <= starts[i] + interval
  {
    assert starts[i] in starts;
    assert Wanted(starts[i], now, end, interval, native, origin);
    NextLattice(starts[i], origin, interval);
    var next := origin + ((starts[i] - origin) / interval + 1) * interval;
    hide OnLattice;
    if next < end {
      assert Wanted(next, now, end, interval, native, origin);
      assert next in starts;
      var k :| 0 <= k < |starts| && starts[k] == next;
      assert k > i;
      if k > i + 1 { assert starts[i + 1] < starts[k]; }
    }
    if i + 1 < |starts| {
      assert starts[i + 1] in starts;
      assert Wanted(starts[i + 1], now, end, interval, native, origin);
    }
  }

  /** A grid of wanted instants starts now, stays inside the horizon and never waits longer than one interval. */
  lemma WantedGridIsDense(starts: seq<int>, now: int, end: int, interval: int, native: seq<int>, origin: int)
    requires interval > 0 && now < end && IsGrid(starts, now, end, interval, native, origin)
    ensures |starts| > 0 && starts[0] == now
    ensures forall i: nat | i < |starts| :: now <= starts[i] < NextStart(starts, end, i) <= starts[i] + interval
    ensures forall at | at in native && now < at < end :: at in starts
  {
    GridStartsNow(starts, now, end, interval, native, origin);
    forall i: nat | i < |starts| ensures now <= starts[i] < NextStart(starts, end, i) <= starts[i] + interval {
      GridStep(starts, now, end, interval, native, origin, i);
    }
    forall at | at in native && now < at < end ensures at in starts {
      assert Wanted(at, now, end, interval, native, origin);
    }
  }

  // ---------------------------------------------------------------- acceptance by the valuation

  /** Slots built from the grid: each ends where the next starts, the last at the horizon's end. */
  ghost predicate BuiltFrom(site: Site, starts: seq<int>, end: int) {
    |site.slots| == |starts| && forall i: nat | i < |starts| :: SlotFrom(site.slots[i], starts, end, i)
  }

  ghost predicate SlotFrom(slot: Slot, starts: seq<int>, end: int, i: nat)
    requires i < |starts|
  {
    slot.validAt == starts[i] && slot.endAt == Some(NextStart(starts, end, i))
  }

  lemma HoursWithin(from: int, to: int, minutes: int)
    requires from < to <= from + minutes * MINUTE
    ensures 0.0 < Hours(from, to) && Hours(from, to) - minutes as real / 60.0 <= 0.0
  {
    assert 1.0 <= (to - from) as real <= minutes as real * 60000000.0;
  }

  /** Every slot built from the grid satisfies the timing guard of the valuation loop. */
  lemma GridPassesTimingGuard(site: Site, starts: seq<int>, now: int, horizonHours: nat, intervalMinutes: int,
                              native: seq<int>, origin: int, i: nat)
    requires intervalMinutes > 0 && horizonHours > 0 && i < |site.slots|
    requires IsGrid(starts, now, now + horizonHours * HOUR, intervalMinutes * MINUTE, native, origin)
    requires BuiltFrom(site, starts, now + horizonHours * HOUR) && site.intervalMinutes == intervalMinutes as real
    ensures site.SlotTimed(i)
  {
    GridStep(starts, now, now + horizonHours * HOUR, intervalMinutes * MINUTE, native, origin, i);
    assert SlotFrom(site.slots[i], starts, now + horizonHours * HOUR, i);
    if i + 1 < |starts| { assert SlotFrom(site.slots[i + 1], starts, now + horizonHours * HOUR, i + 1); }
    hide IsGrid, Hours, Increasing, BuiltFrom;
    HoursWithin(starts[i], site.SlotEnd(i), intervalMinutes);
  }
}
