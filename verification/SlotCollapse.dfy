/**
 Publishing a revalidated trajectory: the parts of each slot are found again by time, their power is averaged
 and the state at the slot's end is kept. No integrated energy is lost.
 */
module SlotCollapse {
  import opened Common
  import opened SiteEnergy
  import opened SlotSplit

  /** Slots of positive length, each ending where the next starts. */
  ghost predicate Ordered(site: Site) {
    forall i: nat | i < |site.slots| :: SlotOrdered(site, i)
  }

  predicate SlotOrdered(site: Site, i: nat)
    requires i < |site.slots|
  {
    && site.slots[i].validAt < site.SlotEnd(i)
    && (i + 1 < |site.slots| ==> site.SlotEnd(i) == site.slots[i + 1].validAt)
  }

  lemma PositiveHours(from: int, to: int)
    ensures Hours(from, to) > 0.0 <==> from < to
  {
    if from < to { assert (to - from) as real >= 1.0; } else { assert (to - from) as real <= 0.0; }
  }

  /**
   A split that was valued has found an ordered grid: this is what makes its parts recoverable by time.
   No assumption is made about the grid that was split.
   */
  lemma AcceptedSplitIsOrdered(site: Site, start: int, stop: int, release: int, powers: seq<real>, conservative: bool)
    requires site.battery.Valid() && start < stop < release
    requires Valuation(SplitSite(site, AllBoundaryPoints(site, start, stop, release)), powers, conservative).Some?
    ensures Ordered(site) && PointsValid(site, AllBoundaryPoints(site, start, stop, release))
  {
    var points := AllBoundaryPoints(site, start, stop, release);
    ValuedIsTimed(SplitSite(site, points), powers, conservative);
    FirstPoints(site, start, stop, release);
    hide Valuation, Battery.Valid, AllBoundaryPoints, Expanded, Site.SlotTimed;
    forall i: nat | i < |points| ensures SlotOrdered(site, i) {
      TimedSplitIsOrdered(site, points, i);
    }
    assert Ordered(site);
    OrderedIsPositive(site);
    BoundariesAreValid(site, start, stop, release);
  }

  lemma OrderedIsPositive(site: Site)
    requires Ordered(site)
    ensures forall i: nat | i < |site.slots| :: site.slots[i].validAt < site.SlotEnd(i)
  {
    hide Site.SlotEnd;
    forall i: nat | i < |site.slots| ensures site.slots[i].validAt < site.SlotEnd(i) {
      assert SlotOrdered(site, i);
    }
  }

  lemma FirstPoints(site: Site, start: int, stop: int, release: int)
    ensures var points := AllBoundaryPoints(site, start, stop, release);
      forall i: nat | i < |points| :: |points[i]| > 0 && points[i][0] == site.slots[i].validAt
  {}

  lemma ValuedIsTimed(site: Site, powers: seq<real>, conservative: bool)
    requires site.battery.Valid() && Valuation(site, powers, conservative).Some?
    ensures Timed(site)
  {
    hide Fold, Start, PieceAt, Battery.Valid, Site.SlotTimed;
    forall m: nat | m < |site.slots| ensures site.SlotTimed(m) {
      assert SlotAccepted(site, powers, conservative, m);
    }
  }

  lemma TimedSplitIsOrdered(site: Site, points: seq<seq<int>>, i: nat)
    requires |points| == |site.slots| && i < |points|
    requires forall k: nat | k < |points| :: |points[k]| > 0 && points[k][0] == site.slots[k].validAt
    requires Timed(SplitSite(site, points))
    ensures SlotOrdered(site, i)
  {
    var split, last, n := SplitSite(site, points), |points[i]| - 1, |points|;
    if last > 0 { assert points[i][0] == site.slots[i].validAt; }
    FirstToLast(site, points, i, last);
    ExpandedAt(site, points, n, i, last);
    var at := Offset(points, i) + last;
    assert Offset(points, i + 1) == at + 1;
    if i + 1 < n { ExpandedAt(site, points, n, i + 1, 0); }
    hide Expanded, Hours;
    assert split.SlotTimed(at);
    PositiveHours(points[i][last], site.SlotEnd(i));
  }

  /** A timed split's points rise. */
  lemma {:induction false} FirstToLast(site: Site, points: seq<seq<int>>, i: nat, j: nat)
    requires |points| == |site.slots| && i < |points| && j < |points[i]|
    requires Timed(SplitSite(site, points))
    ensures points[i][0] <= points[i][j]
  {
    if j > 0 {
      FirstToLast(site, points, i, j - 1);
      ExpandedAt(site, points, |points|, i, j - 1);
      hide Expanded, Hours;
      assert SplitSite(site, points).SlotTimed(Offset(points, i) + j - 1);
      PositiveHours(points[i][j - 1], points[i][j]);
    }
  }

  // ---------------------------------------------------------------- parts in time

  lemma {:induction false} StartOf(site: Site, points: seq<seq<int>>, m: nat) returns (i: nat, j: nat)
    requires |points| == |site.slots| && m < Offset(points, |points|)
    ensures i < |points| && j < |points[i]| && m == Offset(points, i) + j
    ensures Expanded(site, points, |points|)[m] == Part(site, points, i, j)
  {
    i, j := Locate(points, |points|, m);
    ExpandedAt(site, points, |points|, i, j);
  }

  lemma {:induction false} Locate(points: seq<seq<int>>, n: nat, m: nat) returns (i: nat, j: nat)
    requires n <= |points| && m < Offset(points, n)
    ensures i < n && j < |points[i]| && m == Offset(points, i) + j
  {
    if m >= Offset(points, n - 1) {
      i, j := n - 1, m - Offset(points, n - 1);
    } else {
      i, j := Locate(points, n - 1, m);
    }
  }

  lemma {:induction false} SlotsRise(site: Site, i: nat, k: nat)
    requires Ordered(site) && i < k < |site.slots|
    ensures site.SlotEnd(i) <= site.slots[k].validAt
    decreases k - i
  {
    assert SlotOrdered(site, i);
    if i + 1 < k {
      assert SlotOrdered(site, i + 1);
      SlotsRise(site, i + 1, k);
    }
  }

  /** A part starts inside slot `i` exactly when it is one of that slot's parts. */
  lemma PartInWindow(site: Site, points: seq<seq<int>>, i: nat, m: nat)
    requires PointsValid(site, points) && Ordered(site)
    requires i < |points| && m < Offset(points, |points|)
    ensures site.slots[i].validAt <= Expanded(site, points, |points|)[m].validAt < site.SlotEnd(i)
      <==> Offset(points, i) <= m < Offset(points, i + 1)
  {
    var k, j := StartOf(site, points, m);
    assert PointsAt(site, points, k) && SlotOrdered(site, i) && SlotOrdered(site, k);
    assert site.slots[k].validAt <= points[k][j] < site.SlotEnd(k);
    if k < i {
      SlotsRise(site, k, i);
      OffsetMonotone(points, k + 1, i);
    } else if i < k {
      SlotsRise(site, i, k);
      OffsetMonotone(points, i + 1, k);
    }
  }

  // ---------------------------------------------------------------- energy

  /** Energy of parts `a..b` of a trajectory. */
  ghost function PartEnergy(split: Site, powers: seq<real>, a: nat, b: nat): real
    requires a <= b <= |powers| == |split.slots|
  {
    if a == b then 0.0 else PartEnergy(split, powers, a, b - 1) + Energy(powers[b - 1], split.SlotHours(b - 1))
  }

  lemma {:induction false} PartEnergyAdds(split: Site, powers: seq<real>, a: nat, b: nat, c: nat)
    requires a <= b <= c <= |powers| == |split.slots|
    ensures PartEnergy(split, powers, a, c) == PartEnergy(split, powers, a, b) + PartEnergy(split, powers, b, c)
  {
    hide Energy, Site.SlotHours;
    if b < c { PartEnergyAdds(split, powers, a, b, c - 1); }
  }

  /** The published slot holds the average power of its parts and the state at its own end. */
  ghost predicate Published(site: Site, points: seq<seq<int>>, powers: seq<real>, states: seq<real>,
                            outPowers: seq<real>, outStates: seq<real>, i: nat)
    requires |points| == |site.slots| && |powers| == |states| == Offset(points, |points|)
    requires i < |outPowers| == |outStates| <= |points|
  {
    && Offset(points, i) < Offset(points, i + 1) <= |powers|
    && Energy(outPowers[i], site.SlotHours(i))
       == PartEnergy(SplitSite(site, points), powers, Offset(points, i), Offset(points, i + 1))
    && outStates[i] == states[Offset(points, i + 1) - 1]
    && SplitSite(site, points).slots[Offset(points, i + 1) - 1].endAt == Some(site.SlotEnd(i))
  }

  lemma GroupBounds(site: Site, points: seq<seq<int>>, i: nat)
    requires PointsValid(site, points) && i < |points|
    ensures Offset(points, i) < Offset(points, i + 1) <= Offset(points, |points|)
  {
    assert PointsAt(site, points, i);
    OffsetMonotone(points, i + 1, |points|);
  }

  lemma LastPartEnds(site: Site, points: seq<seq<int>>, i: nat)
    requires PointsValid(site, points) && i < |points|
    ensures 0 < Offset(points, i + 1) <= Offset(points, |points|)
    ensures SplitSite(site, points).slots[Offset(points, i + 1) - 1].endAt == Some(site.SlotEnd(i))
  {
    assert PointsAt(site, points, i);
    ExpandedAt(site, points, |points|, i, |points[i]| - 1);
  }

  /** Gather, by time, the parts of slot `i`. */
  method PartsByTime(site: Site, ghost points: seq<seq<int>>, split: Site, i: nat) returns (parts: seq<nat>)
    requires PointsValid(site, points) && Ordered(site) && split == SplitSite(site, points) && i < |site.slots|
    ensures |parts| == Offset(points, i + 1) - Offset(points, i) > 0
    ensures forall k: nat | k < |parts| :: parts[k] == Offset(points, i) + k
  {
    GroupBounds(site, points, i);
    assert |points| == |site.slots|;
    hide PointsValid, Ordered, Expanded, Site.SlotEnd;
    GroupBounds(site, points, i);
    ghost var a, b := Offset(points, i), Offset(points, i + 1);
    var from, to := site.slots[i].validAt, site.SlotEnd(i);
    parts := [];
    for m := 0 to |split.slots|
      invariant |parts| == if m <= a then 0 else if m <= b then m - a else b - a
      invariant forall k: nat | k < |parts| :: parts[k] == a + k
    {
      PartInWindow(site, points, i, m);
      if from <= split.slots[m].validAt < to { parts := parts + [m]; }
    }
  }

  /** Energy of consecutive parts, as the published average divides it. */
  method PartsEnergy(split: Site, powers: seq<real>, parts: seq<nat>, ghost a: nat) returns (total: real)
    requires |powers| == |split.slots| && a + |parts| <= |powers|
    requires forall k: nat | k < |parts| :: parts[k] == a + k
    ensures total == PartEnergy(split, powers, a, a + |parts|)
  {
    hide Energy, Site.SlotHours;
    total := 0.0;
    for k := 0 to |parts|
      invariant total == PartEnergy(split, powers, a, a + k)
    {
      total := total + Energy(powers[parts[k]], split.SlotHours(parts[k]));
    }
  }

  lemma AverageEnergy(total: real, hours: real)
    requires hours > 0.0
    ensures Energy(total / hours, hours) == total
  {}

  method Collapse(site: Site, ghost points: seq<seq<int>>, split: Site, powers: seq<real>, states: seq<real>)
    returns (outPowers: seq<real>, outStates: seq<real>)
    requires PointsValid(site, points) && Ordered(site) && split == SplitSite(site, points)
    requires |powers| == |states| == |split.slots|
    ensures |outPowers| == |outStates| == |site.slots|
    ensures forall i: nat | i < |site.slots| :: Published(site, points, powers, states, outPowers, outStates, i)
    ensures PartEnergy(site, outPowers, 0, |site.slots|) == PartEnergy(split, powers, 0, |split.slots|)
  {
    assert |points| == |site.slots|;
    hide PointsValid, Ordered, Energy, PartEnergy, Expanded, Offset;
    outPowers, outStates := [], [];
    for i := 0 to |site.slots|
      invariant |outPowers| == |outStates| == i
      invariant forall k: nat | k < i :: Published(site, points, powers, states, outPowers, outStates, k)
    {
      var parts := PartsByTime(site, points, split, i);
      GroupBounds(site, points, i);
      var total := PartsEnergy(split, powers, parts, Offset(points, i));
      AverageOf(site, points, powers, i, total);
      ghost var priorPowers, priorStates := outPowers, outStates;
      outPowers := outPowers + [total / site.SlotHours(i)];
      outStates := outStates + [states[parts[|parts| - 1]]];
      forall k: nat | k < i ensures Published(site, points, powers, states, outPowers, outStates, k) {
        assert Published(site, points, powers, states, priorPowers, priorStates, k);
      }
    }
    EnergyConserved(site, points, powers, states, outPowers, outStates, |site.slots|);
  }

  lemma AverageOf(site: Site, points: seq<seq<int>>, powers: seq<real>, i: nat, total: real)
    requires PointsValid(site, points) && Ordered(site) && i < |site.slots|
    requires |powers| == Offset(points, |points|)
    requires Offset(points, i) < Offset(points, i + 1) <= |powers|
    requires total == PartEnergy(SplitSite(site, points), powers, Offset(points, i), Offset(points, i + 1))
    ensures site.SlotHours(i) > 0.0
    ensures Energy(total / site.SlotHours(i), site.SlotHours(i)) == total
    ensures SplitSite(site, points).slots[Offset(points, i + 1) - 1].endAt == Some(site.SlotEnd(i))
  {
    assert |points| == |site.slots|;
    hide Energy, PartEnergy, Hours, PointsValid, Expanded;
    assert SlotOrdered(site, i);
    PositiveHours(site.slots[i].validAt, site.SlotEnd(i));
    AverageEnergy(total, site.SlotHours(i));
    LastPartEnds(site, points, i);
  }

  lemma {:induction false} EnergyConserved(site: Site, points: seq<seq<int>>, powers: seq<real>, states: seq<real>,
                                           outPowers: seq<real>, outStates: seq<real>, k: nat)
    requires |points| == |site.slots| == |outPowers| == |outStates| && k <= |points|
    requires |powers| == |states| == Offset(points, |points|)
    requires forall i: nat | i < |points| :: Published(site, points, powers, states, outPowers, outStates, i)
    ensures Offset(points, k) <= |powers|
    ensures PartEnergy(site, outPowers, 0, k) == PartEnergy(SplitSite(site, points), powers, 0, Offset(points, k))
  {
    hide Energy, Site.SlotHours, Expanded;
    if k > 0 {
      EnergyConserved(site, points, powers, states, outPowers, outStates, k - 1);
      assert Published(site, points, powers, states, outPowers, outStates, k - 1);
      PartEnergyAdds(SplitSite(site, points), powers, 0, Offset(points, k - 1), Offset(points, k));
    }
  }
}
