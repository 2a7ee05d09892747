/**
 The converse of subdivision. A battery only saturates while a load lasts, so the grid rate moves in one direction over
 the parts of a slot, and an accepted slot can be cut exactly when its outermost parts keep the grid limits.
 */
module SlotConverse {
  import opened Common
  import opened SiteEnergy
  import opened ConservativeBound
  import opened SlotSplit
  import SlotCollapse

  // ---------------------------------------------------------------- the grid rate over consecutive parts

  lemma MeanOf(kw: real, net: real, hours: real)
    requires hours > 0.0
    ensures net <= Energy(kw, hours) <==> MeanPower(net, hours) <= kw
    ensures net >= Energy(kw, hours) <==> MeanPower(net, hours) >= kw
  {
    MeanBelow(net, hours, kw);
    MeanBelow(-net, hours, -kw);
    assert MeanPower(-net, hours) == -MeanPower(net, hours);
    assert Energy(kw, hours) == kw * hours && -kw * hours == -(kw * hours);
  }

  /** Charging stops and never starts again: the rate falls towards the whole surplus. */
  lemma ChargingFades(site: Site, stored: real, kw: real, h1: real, h2: real)
    requires site.battery.Valid() && site.HasBattery() && kw < 0.0 && h1 > 0.0 && h2 > 0.0
    ensures var f1 := BatteryFlow(site, stored, Energy(kw, h1), h1);
      var f2 := BatteryFlow(site, f1.stored, Energy(kw, h2), h2);
      MeanPower(f2.net, h2) <= MeanPower(f1.net, h1)
  {
    var b := site.battery;
    var rate := Min(-kw, b.maxCharge);
    var f1 := BatteryFlow(site, stored, Energy(kw, h1), h1);
    var f2 := BatteryFlow(site, f1.stored, Energy(kw, h2), h2);
    ChargeLine(site, stored, kw, h1);
    ChargeLine(site, f1.stored, kw, h2);
    RateNonNegative(-kw, b.maxCharge, h1, b.oneWay);
    RateNonNegative(-kw, b.maxCharge, h2, b.oneWay);
    hide BatteryFlow, Energy, Drained, Banked, MeanPower, Min;
    var r1, r2 := Energy(rate, h1), Energy(rate, h2);
    ChargedFully(b, stored, f1.stored, r1, f2.stored, r2);
    RatesAdd(kw, rate, h1);
    RatesAdd(kw, rate, h2);
    if f1.stored == stored + Banked(r1, b.oneWay) {
      MeanOf(kw + rate, f1.net, h1);
      MeanOf(kw + rate, f2.net, h2);
    } else {
      MeanOf(kw, f1.net, h1);
      MeanOf(kw, f2.net, h2);
    }
  }

  lemma RatesAdd(kw: real, rate: real, hours: real)
    ensures Energy(kw + rate, hours) == Energy(kw, hours) + Energy(rate, hours)
  {}

  /** Either the first part charges at full rate, or the battery is full after it and the second charges nothing. */
  lemma ChargedFully(b: Battery, stored: real, s1: real, r1: real, s2: real, r2: real)
    requires b.Valid() && Banked(r1, b.oneWay) >= 0.0 && Banked(r2, b.oneWay) >= 0.0
    requires s1 == Min(stored + Banked(r1, b.oneWay), Max(b.capacity, stored))
    requires s2 == Min(s1 + Banked(r2, b.oneWay), Max(b.capacity, s1))
    ensures Drained(s2 - s1, b.oneWay) <= r2
    ensures s1 == stored + Banked(r1, b.oneWay) ==> Drained(s1 - stored, b.oneWay) == r1
    ensures s1 != stored + Banked(r1, b.oneWay) ==>
      Drained(s2 - s1, b.oneWay) == 0.0 && Drained(s1 - stored, b.oneWay) >= 0.0
  {
    hide Banked, Drained;
    Unbank(r1, b.oneWay);
    Unbank(r2, b.oneWay);
    Nothing(b.oneWay);
    BankedMonotone(s2 - s1, Banked(r2, b.oneWay), b.oneWay);
    BankedMonotone(0.0, s1 - stored, b.oneWay);
  }

  lemma Nothing(e: real)
    requires e > 0.0
    ensures Banked(0.0, e) == 0.0 && Drained(0.0, e) == 0.0
  {}

  /** Discharging stops and never starts again: the rate rises towards the whole demand. */
  lemma DischargingFades(site: Site, stored: real, kw: real, h1: real, h2: real)
    requires site.battery.Valid() && site.Discharges() && kw >= 0.0 && h1 > 0.0 && h2 > 0.0
    ensures var f1 := BatteryFlow(site, stored, Energy(kw, h1), h1);
      var f2 := BatteryFlow(site, f1.stored, Energy(kw, h2), h2);
      MeanPower(f1.net, h1) <= MeanPower(f2.net, h2)
  {
    var b := site.battery;
    var rate := Min(kw, b.maxDischarge);
    var f1 := BatteryFlow(site, stored, Energy(kw, h1), h1);
    var f2 := BatteryFlow(site, f1.stored, Energy(kw, h2), h2);
    DischargeLine(site, stored, kw, h1);
    DischargeLine(site, f1.stored, kw, h2);
    RateNonNegative(kw, b.maxDischarge, h1, b.oneWay);
    RateNonNegative(kw, b.maxDischarge, h2, b.oneWay);
    hide BatteryFlow, Energy, Drained, Banked, MeanPower, Min;
    var r1, r2 := Energy(rate, h1), Energy(rate, h2);
    DrainedFully(b, stored, f1.stored, r1, f2.stored, r2);
    RatesAdd(kw, -rate, h1);
    RatesAdd(kw, -rate, h2);
    EnergyAdds(rate, h1, h2);
    EnergyAdds(rate, h2, h1);
    if f1.stored == stored - Drained(r1, b.oneWay) {
      MeanOf(kw - rate, f1.net, h1);
      MeanOf(kw - rate, f2.net, h2);
    } else {
      MeanOf(kw, f1.net, h1);
      MeanOf(kw, f2.net, h2);
    }
  }

  lemma DrainedFully(b: Battery, stored: real, s1: real, r1: real, s2: real, r2: real)
    requires b.Valid() && Drained(r1, b.oneWay) >= 0.0 && Drained(r2, b.oneWay) >= 0.0
    requires s1 == Max(stored - Drained(r1, b.oneWay), Min(b.Floor(), stored))
    requires s2 == Max(s1 - Drained(r2, b.oneWay), Min(b.Floor(), s1))
    ensures Banked(s1 - s2, b.oneWay) <= r2
    ensures s1 == stored - Drained(r1, b.oneWay) ==> Banked(stored - s1, b.oneWay) == r1
    ensures s1 != stored - Drained(r1, b.oneWay) ==>
      Banked(s1 - s2, b.oneWay) == 0.0 && Banked(stored - s1, b.oneWay) >= 0.0
  {
    hide Battery.Floor, Banked, Drained;
    Unbank(r1, b.oneWay);
    Unbank(r2, b.oneWay);
    Nothing(b.oneWay);
    BankedMonotone(s1 - s2, Drained(r2, b.oneWay), b.oneWay);
    BankedMonotone(0.0, stored - s1, b.oneWay);
  }

  /** Two rates in the direction in which the rate moves under a load. */
  predicate Onward(kw: real, first: real, second: real) { if kw < 0.0 then second <= first else first <= second }

  /** While a load lasts, the grid rate moves in one direction only. */
  lemma RateMovesOneWay(site: Site, stored: real, kw: real, h1: real, h2: real)
    requires site.battery.Valid() && h1 > 0.0 && h2 > 0.0
    ensures var f1 := BatteryFlow(site, stored, Energy(kw, h1), h1);
      var f2 := BatteryFlow(site, f1.stored, Energy(kw, h2), h2);
      Onward(kw, MeanPower(f1.net, h1), MeanPower(f2.net, h2))
  {
    EnergyAdds(kw, h1, 0.0);
    EnergyAdds(kw, h2, 0.0);
    if site.HasBattery() && kw < 0.0 {
      ChargingFades(site, stored, kw, h1, h2);
    } else if site.Discharges() && kw >= 0.0 {
      DischargingFades(site, stored, kw, h1, h2);
    } else {
      hide Energy, MeanPower;
      MeanOf(kw, Energy(kw, h1), h1);
      MeanOf(kw, Energy(kw, h2), h2);
    }
  }

  // ---------------------------------------------------------------- the parts of one slot

  /** Energy left after some parts, whether or not they keep the grid limits. */
  ghost function StoredAfter(site: Site, stored: real, parts: seq<Piece>): real
    requires site.battery.oneWay > 0.0
  {
    if |parts| == 0 then stored
    else PieceFlow(site, parts[|parts| - 1], StoredAfter(site, stored, parts[..|parts| - 1])).stored
  }

  /** Mean grid power of part `j`. */
  ghost function Rate(site: Site, stored: real, parts: seq<Piece>, j: nat): real
    requires site.battery.oneWay > 0.0 && AllPositive(parts) && j < |parts|
  {
    MeanPower(PieceFlow(site, parts[j], StoredAfter(site, stored, parts[..j])).net, parts[j].hours)
  }

  predicate Within(site: Site, rate: real) { rate <= site.importLimit && -rate <= site.exportLimit }

  lemma WithinIs(site: Site, net: real, hours: real)
    requires hours > 0.0
    ensures WithinGrid(site, net, hours) <==> Within(site, MeanPower(net, hours))
  {
    assert MeanPower(-net, hours) == -MeanPower(net, hours);
  }

  /** The parts of one load. */
  ghost predicate OneLoad(parts: seq<Piece>, p: Piece) { forall k | 0 <= k < |parts| :: SameLoad(parts[k], p) }

  lemma {:induction false} RatesInOrder(site: Site, stored: real, parts: seq<Piece>, p: Piece, i: nat, j: nat)
    requires site.battery.Valid() && AllPositive(parts) && OneLoad(parts, p) && i <= j < |parts|
    ensures Onward(p.demand, Rate(site, stored, parts, i), Rate(site, stored, parts, j))
  {
    assert site.battery.oneWay > 0.0;
    hide BatteryFlow, Energy, MeanPower, Battery.Valid;
    if i < j {
      RatesInOrder(site, stored, parts, p, i, j - 1);
      assert parts[..j][..j - 1] == parts[..j - 1];
      RateMovesOneWay(site, StoredAfter(site, stored, parts[..j - 1]), p.demand, parts[j - 1].hours, parts[j].hours);
    }
  }

  /** The run over some parts is accepted when every one of them keeps the limits. */
  lemma {:induction false} PartsAccepted(site: Site, before: SiteCost, parts: seq<Piece>, n: nat)
    requires site.battery.oneWay > 0.0 && AllPositive(parts) && n <= |parts|
    ensures Fold(site, before, parts[..n]).Some? <==>
      forall j: nat | j < n :: Within(site, Rate(site, before.stored, parts, j))
    ensures Fold(site, before, parts[..n]).Some? ==>
      Fold(site, before, parts[..n]).value.stored == StoredAfter(site, before.stored, parts[..n])
  {
    hide BatteryFlow, Energy, MeanPower, Money, Within, WithinGrid;
    if n > 0 {
      PartsAccepted(site, before, parts, n - 1);
      assert parts[..n][..n - 1] == parts[..n - 1];
      var f := PieceFlow(site, parts[n - 1], StoredAfter(site, before.stored, parts[..n - 1]));
      WithinIs(site, f.net, parts[n - 1].hours);
      var prior := Fold(site, before, parts[..n - 1]);
      assert Fold(site, before, parts[..n]) == if prior.None? then None else Advance(site, prior.value, parts[n - 1]);
      assert Rate(site, before.stored, parts, n - 1) == MeanPower(f.net, parts[n - 1].hours);
      if forall j: nat | j < n :: Within(site, Rate(site, before.stored, parts, j)) {
        assert Within(site, Rate(site, before.stored, parts, n - 1));
      }
    }
  }

  /** The first and the last part of a slot keep the grid limits. */
  ghost predicate EndsWithin(site: Site, stored: real, parts: seq<Piece>)
    requires site.battery.oneWay > 0.0 && AllPositive(parts) && |parts| > 0
  {
    Within(site, Rate(site, stored, parts, 0)) && Within(site, Rate(site, stored, parts, |parts| - 1))
  }

  /** A slot can be cut into these parts exactly when its first and its last part keep the limits. */
  lemma SlotCuts(site: Site, before: SiteCost, parts: seq<Piece>, p: Piece)
    requires site.battery.Valid() && site.battery.oneWay > 0.0
    requires AllPositive(parts) && |parts| > 0 && OneLoad(parts, p)
    ensures Fold(site, before, parts).Some? <==> EndsWithin(site, before.stored, parts)
  {
    hide Rate, Fold, Battery.Valid;
    PartsAccepted(site, before, parts, |parts|);
    assert parts[..|parts|] == parts;
    if EndsWithin(site, before.stored, parts) {
      forall j: nat | j < |parts| ensures Within(site, Rate(site, before.stored, parts, j)) {
        RatesInOrder(site, before.stored, parts, p, 0, j);
        RatesInOrder(site, before.stored, parts, p, j, |parts| - 1);
      }
    }
  }

  /** Under limits that are not negative, the last part is the one that can break them. */
  lemma LastBoundsFirst(site: Site, stored: real, parts: seq<Piece>, p: Piece)
    requires site.battery.Valid() && site.battery.oneWay > 0.0 && AllPositive(parts) && |parts| > 0 && OneLoad(parts, p)
    requires site.importLimit >= 0.0 && site.exportLimit >= 0.0
    requires Within(site, Rate(site, stored, parts, |parts| - 1))
    ensures Within(site, Rate(site, stored, parts, 0))
  {
    hide Rate;
    RatesInOrder(site, stored, parts, p, 0, |parts| - 1);
    RateSign(site, stored, parts, p);
  }

  /** A surplus is never imported, and a demand never exported. */
  lemma RateSign(site: Site, stored: real, parts: seq<Piece>, p: Piece)
    requires site.battery.Valid() && site.battery.oneWay > 0.0 && AllPositive(parts) && |parts| > 0 && OneLoad(parts, p)
    ensures if p.demand < 0.0 then Rate(site, stored, parts, 0) <= 0.0 else Rate(site, stored, parts, 0) >= 0.0
  {
    var h := parts[0].hours;
    EnergyAdds(p.demand, h, 0.0);
    FlowBounds(site, stored, Energy(p.demand, h), h);
    hide BatteryFlow, Energy;
    var net := PieceFlow(site, parts[0], StoredAfter(site, stored, parts[..0])).net;
    MeanOf(0.0, net, h);
    ZeroEnergy(h);
  }

  lemma ZeroEnergy(hours: real)
    ensures Energy(0.0, hours) == 0.0
  {}

  // ---------------------------------------------------------------- the whole grid

  /** A part of an accepted slot passes every check that does not depend on the battery. */
  lemma PartIsEvidenced(site: Site, points: seq<seq<int>>, powers: seq<real>, conservative: bool, k: nat, j: nat)
    requires PointsValid(site, points) && |powers| == |points| && k < |points| && j < |points[k]|
    requires SlotAccepted(site, powers, conservative, k)
    ensures var m := Offset(points, k) + j;
      m < Offset(points, |points|)
      && SlotAccepted(SplitSite(site, points), Spread(points, powers, |points|), conservative, m)
  {
    hide Expanded, Spread, Offset, Site.SlotTimed, Part, PartEnd, PointsAt, Site.SlotHours;
    PartTimed(site, points, k, j);
    SpreadAt(points, powers, |points|, k, j);
    PartSees(site.slots[k], Part(site, points, k, j), site.SlotHours(k),
             SplitSite(site, points).SlotHours(Offset(points, k) + j), powers[k], conservative);
  }

  lemma PartTimed(site: Site, points: seq<seq<int>>, k: nat, j: nat)
    requires PointsValid(site, points) && k < |points| && j < |points[k]| && site.SlotTimed(k)
    ensures var split, m := SplitSite(site, points), Offset(points, k) + j;
      && m < Offset(points, |points|) && split.slots[m] == Part(site, points, k, j) && split.SlotTimed(m)
      && SameSight(site.slots[k], Part(site, points, k, j))
  {
    var n, m := |points|, Offset(points, k) + j;
    var split := SplitSite(site, points);
    ExpandedAt(site, points, n, k, j);
    if m + 1 < Offset(points, n) { NextPart(site, points, k, j); }
    PartHours(site, points, k, j);
    hide Expanded, Hours, Offset, PointsValid, PartEnd;
    assert split.slots[m] == Part(site, points, k, j);
    assert split.SlotEnd(m) == PartEnd(site, points, k, j);
  }

  /** Two slots with the same forecasts and prices. */
  ghost predicate SameSight(a: Slot, b: Slot) { b == a.(validAt := b.validAt, endAt := b.endAt) }

  lemma PartSees(slot: Slot, part: Slot, hours: real, partHours: real, power: real, conservative: bool)
    requires SameSight(slot, part)
    ensures Resolve(slot, hours, power, conservative).Some? <==> Resolve(part, partHours, power, conservative).Some?
  {}

  /** Parts follow each other without a gap. */
  lemma NextPart(site: Site, points: seq<seq<int>>, k: nat, j: nat)
    requires PointsValid(site, points) && k < |points| && j < |points[k]|
    requires site.SlotTimed(k) && Offset(points, k) + j + 1 < Offset(points, |points|)
    ensures SplitSite(site, points).slots[Offset(points, k) + j + 1].validAt == PartEnd(site, points, k, j)
  {
    var n := |points|;
    if j + 1 < |points[k]| {
      ExpandedAt(site, points, n, k, j + 1);
    } else {
      assert Offset(points, k + 1) == Offset(points, k) + j + 1;
      if k + 1 == n { assert false; }
      assert PointsAt(site, points, k + 1);
      ExpandedAt(site, points, n, k + 1, 0);
    }
  }

  /** A part is not longer than its slot. */
  lemma PartHours(site: Site, points: seq<seq<int>>, k: nat, j: nat)
    requires PointsValid(site, points) && k < |points| && j < |points[k]|
    ensures 0.0 < Hours(points[k][j], PartEnd(site, points, k, j)) <= site.SlotHours(k)
  {
    assert PointsAt(site, points, k);
    var from, to := points[k][j], PartEnd(site, points, k, j);
    assert site.slots[k].validAt <= from < to <= site.SlotEnd(k);
    hide Site.SlotEnd, PointsValid;
    HoursOrdered(site.slots[k].validAt, from, to, site.SlotEnd(k));
  }

  lemma HoursOrdered(a: int, from: int, to: int, b: int)
    requires a <= from < to <= b
    ensures 0.0 < Hours(from, to) <= Hours(a, b)
  {
    assert 1.0 <= (to - from) as real <= (b - a) as real;
  }

  /** The cut grid passes every check that does not depend on the battery. */
  lemma CutIsEvidenced(site: Site, points: seq<seq<int>>, powers: seq<real>, conservative: bool)
    requires PointsValid(site, points) && |powers| == |points| && Evidenced(site, powers, conservative)
    ensures Evidenced(SplitSite(site, points), Spread(points, powers, |points|), conservative)
  {
    assert |points| == |site.slots|;
    hide SlotAccepted, PointsValid, Expanded, Spread;
    forall m: nat | m < Offset(points, |points|)
      ensures SlotAccepted(SplitSite(site, points), Spread(points, powers, |points|), conservative, m)
    {
      var k, j := SlotCollapse.Locate(points, |points|, m);
      assert SlotAccepted(site, powers, conservative, k);
      PartIsEvidenced(site, points, powers, conservative, k, j);
    }
  }

  /** The parts of an accepted slot, each with its own length. */
  ghost function CutParts(site: Site, points: seq<seq<int>>, powers: seq<real>, conservative: bool, k: nat):
      (parts: seq<Piece>)
    requires PointsValid(site, points) && |powers| == |points| && k < |points|
    requires PieceAt(site, powers, conservative, k).Some?
    ensures |parts| == |points[k]| > 0 && AllPositive(parts)
    ensures OneLoad(parts, PieceAt(site, powers, conservative, k).value)
  {
    var p := PieceAt(site, powers, conservative, k).value;
    assert PointsAt(site, points, k);
    assert forall j: nat | j < |points[k]| :: Hours(points[k][j], PartEnd(site, points, k, j)) > 0.0 by {
      forall j: nat | j < |points[k]| ensures Hours(points[k][j], PartEnd(site, points, k, j)) > 0.0 {
        PartHours(site, points, k, j);
      }
    }
    seq(|points[k]|, j requires 0 <= j < |points[k]| => p.(hours := Hours(points[k][j], PartEnd(site, points, k, j))))
  }

  /** What the battery holds when slot `k` of the original grid begins. */
  ghost function StoredAt(site: Site, powers: seq<real>, conservative: bool, k: nat): real
    requires site.battery.oneWay > 0.0 && |powers| == |site.slots| && k <= |powers|
    requires Evidenced(site, powers, conservative)
  {
    StoredAfter(site, site.InitialStored(), Pieces(site, powers, conservative, k))
  }

  /** The first and the last part of slot `k` keep the grid limits. */
  ghost predicate SlotEndsWithin(site: Site, points: seq<seq<int>>, powers: seq<real>, conservative: bool, k: nat)
    requires site.battery.oneWay > 0.0 && PointsValid(site, points) && |powers| == |points| && k < |points|
    requires Evidenced(site, powers, conservative)
  {
    assert SlotAccepted(site, powers, conservative, k);
    EndsWithin(site, StoredAt(site, powers, conservative, k), CutParts(site, points, powers, conservative, k))
  }

  /** The last part of slot `k` keeps the grid limits. */
  ghost predicate SlotEndWithin(site: Site, points: seq<seq<int>>, powers: seq<real>, conservative: bool, k: nat)
    requires site.battery.oneWay > 0.0 && PointsValid(site, points) && |powers| == |points| && k < |points|
    requires Evidenced(site, powers, conservative)
  {
    assert SlotAccepted(site, powers, conservative, k);
    var parts := CutParts(site, points, powers, conservative, k);
    Within(site, Rate(site, StoredAt(site, powers, conservative, k), parts, |parts| - 1))
  }

  lemma GroupElement(site: Site, points: seq<seq<int>>, powers: seq<real>, conservative: bool, k: nat, j: nat)
    requires PointsValid(site, points) && |powers| == |points| && k < |points| && j < |points[k]|
    requires PieceAt(site, powers, conservative, k).Some?
    requires Evidenced(SplitSite(site, points), Spread(points, powers, |points|), conservative)
    ensures Offset(points, k) + j < Offset(points, |points|)
    ensures PieceAt(SplitSite(site, points), Spread(points, powers, |points|), conservative, Offset(points, k) + j)
            == Some(CutParts(site, points, powers, conservative, k)[j])
  {
    var n := |points|;
    assert PointsAt(site, points, k);
    ExpandedAt(site, points, n, k, j);
    SpreadAt(points, powers, n, k, j);
    assert SlotAccepted(SplitSite(site, points), Spread(points, powers, n), conservative, Offset(points, k) + j);
    hide Evidenced, SlotAccepted, Site.SlotEnd, Expanded, Spread, Hours, PointsValid;
    PartResolves(site, points, powers, conservative, k, j);
  }

  /** The pieces of the cut grid are the parts of the slots, in order. */
  lemma GroupIsCut(site: Site, points: seq<seq<int>>, powers: seq<real>, conservative: bool, k: nat)
    requires PointsValid(site, points) && |powers| == |points| && k < |points|
    requires Evidenced(site, powers, conservative)
    requires Evidenced(SplitSite(site, points), Spread(points, powers, |points|), conservative)
    ensures var n := |points|;
      var all := Pieces(SplitSite(site, points), Spread(points, powers, n), conservative, Offset(points, n));
      && SlotAccepted(site, powers, conservative, k)
      && Offset(points, k) < Offset(points, k + 1) <= |all|
      && all[Offset(points, k)..Offset(points, k + 1)] == CutParts(site, points, powers, conservative, k)
  {
    hide Evidenced, SlotAccepted, Site.SlotEnd, Expanded, Spread, Pieces, Hours, PointsAt, PieceAt, CutParts, Resolve;
    var n := |points|;
    var split, spread := SplitSite(site, points), Spread(points, powers, n);
    var all := Pieces(split, spread, conservative, Offset(points, n));
    IsAccepted(site, powers, conservative, k);
    HasParts(site, points, k);
    OffsetMonotone(points, k + 1, n);
    var parts := CutParts(site, points, powers, conservative, k);
    var group := all[Offset(points, k)..Offset(points, k + 1)];
    forall j: nat | j < |points[k]| ensures group[j] == parts[j] {
      assert Some(group[j]) == PieceAt(split, spread, conservative, Offset(points, k) + j);
      GroupElement(site, points, powers, conservative, k, j);
    }
  }

  lemma IsAccepted(site: Site, powers: seq<real>, conservative: bool, k: nat)
    requires k < |powers| == |site.slots| && Evidenced(site, powers, conservative)
    ensures SlotAccepted(site, powers, conservative, k) && PieceAt(site, powers, conservative, k).Some?
  {}

  lemma HasParts(site: Site, points: seq<seq<int>>, k: nat)
    requires PointsValid(site, points) && k < |points|
    ensures |points[k]| > 0 && Offset(points, k) + |points[k]| == Offset(points, k + 1)
  {
    assert PointsAt(site, points, k);
  }

  ghost function AllParts(site: Site, points: seq<seq<int>>, powers: seq<real>, conservative: bool): (all: seq<Piece>)
    requires |points| == |site.slots| == |powers|
    requires Evidenced(SplitSite(site, points), Spread(points, powers, |points|), conservative)
    ensures AllPositive(all) && |all| == Offset(points, |points|)
  {
    Pieces(SplitSite(site, points), Spread(points, powers, |points|), conservative, Offset(points, |points|))
  }

  /** Before slot `k` the accepted original run holds what the unlimited one does. */
  lemma OriginalBefore(site: Site, powers: seq<real>, conservative: bool, k: nat)
    requires site.battery.Valid() && site.battery.oneWay > 0.0 && |powers| == |site.slots| && k <= |powers|
    requires Evidenced(site, powers, conservative)
    requires Fold(site, Start(site), Pieces(site, powers, conservative, |powers|)).Some?
    ensures var before := Fold(site, Start(site), Pieces(site, powers, conservative, k));
      before.Some? && before.value.stored == StoredAt(site, powers, conservative, k)
  {
    hide Fold, PieceAt, Evidenced, Battery.Valid;
    var ps := Pieces(site, powers, conservative, |powers|);
    PiecesPrefix(site, powers, conservative, k, |powers|);
    if Fold(site, Start(site), ps[..k]).None? { FoldPrefixNone(site, Start(site), ps, k); }
    PartsAccepted(site, Start(site), ps, k);
  }

  lemma Sizes(site: Site, points: seq<seq<int>>)
    requires PointsValid(site, points)
    ensures |points| == |site.slots|
  {}

  /** The parts before slot `k`, its own parts, and what the original run knows of it. */
  ghost predicate CutsAt(site: Site, points: seq<seq<int>>, powers: seq<real>, conservative: bool, k: nat, all: seq<Piece>,
                         parts: seq<Piece>)
    requires |points| == |site.slots| == |powers| && k < |points|
  {
    && Offset(points, k) <= Offset(points, k + 1) <= |all|
    && all[Offset(points, k)..Offset(points, k + 1)] == parts
    && PieceAt(site, powers, conservative, k).Some? && |parts| > 0
    && OneLoad(parts, PieceAt(site, powers, conservative, k).value)
  }

  lemma CutIsAt(site: Site, points: seq<seq<int>>, powers: seq<real>, conservative: bool, k: nat)
    requires site.battery.oneWay > 0.0 && PointsValid(site, points) && |powers| == |points|
    requires Evidenced(site, powers, conservative) && k < |points|
    requires Evidenced(SplitSite(site, points), Spread(points, powers, |points|), conservative)
    ensures |points| == |site.slots| && PieceAt(site, powers, conservative, k).Some?
    ensures CutsAt(site, points, powers, conservative, k, AllParts(site, points, powers, conservative),
                   CutParts(site, points, powers, conservative, k))
    ensures SlotEndsWithin(site, points, powers, conservative, k) <==>
      EndsWithin(site, StoredAt(site, powers, conservative, k), CutParts(site, points, powers, conservative, k))
  {
    GroupIsCut(site, points, powers, conservative, k);
    Sizes(site, points);
    hide Rate, PieceAt, PointsValid, Spread, Evidenced, Site.SlotTimed, Offset, Pieces, StoredAt, EndsWithin;
  }

  /** If the parts before slot `k` are accepted, the battery is where the original run had it. */
  lemma StoredBefore(site: Site, points: seq<seq<int>>, powers: seq<real>, conservative: bool, k: nat)
    requires site.battery.Valid() && site.battery.oneWay > 0.0 && PointsValid(site, points) && |powers| == |points|
    requires Evidenced(site, powers, conservative) && k < |points|
    requires Evidenced(SplitSite(site, points), Spread(points, powers, |points|), conservative)
    requires Fold(site, Start(site), Pieces(site, powers, conservative, |powers|)).Some?
    requires Offset(points, k) <= |AllParts(site, points, powers, conservative)|
    ensures var before := Fold(site, Start(site), AllParts(site, points, powers, conservative)[..Offset(points, k)]);
      before.Some? ==> before.value.stored == StoredAt(site, powers, conservative, k)
  {
    Sizes(site, points);
    hide Fold, PieceAt, Battery.Valid, PointsValid, Spread, Evidenced, Pieces, Offset, StoredAt, Start;
    if Fold(site, Start(site), AllParts(site, points, powers, conservative)[..Offset(points, k)]).Some? {
      GroupsJoin(site, points, powers, conservative, k);
      OriginalBefore(site, powers, conservative, k);
    }
  }

  /** Passing one more slot. */
  lemma CutFold(site: Site, all: seq<Piece>, parts: seq<Piece>, p: Piece, a: nat, b: nat)
    requires site.battery.Valid() && site.battery.oneWay > 0.0 && AllPositive(all) && a <= b <= |all|
    requires all[a..b] == parts && |parts| > 0 && OneLoad(parts, p)
    ensures AllPositive(parts)
    ensures Fold(site, Start(site), all[..b]).Some? <==>
      && Fold(site, Start(site), all[..a]).Some?
      && EndsWithin(site, Fold(site, Start(site), all[..a]).value.stored, parts)
  {
    hide Fold, EndsWithin, Battery.Valid, Start;
    assert all[..a] + all[a..b] == all[..b];
    FoldConcat(site, Start(site), all[..a], all[a..b]);
    if Fold(site, Start(site), all[..a]).Some? { SlotCuts(site, Fold(site, Start(site), all[..a]).value, parts, p); }
  }

  /** A slot of the cut grid is passed exactly when its outer parts keep the limits. */
  lemma CutStep(site: Site, points: seq<seq<int>>, powers: seq<real>, conservative: bool, k: nat)
    requires site.battery.Valid() && site.battery.oneWay > 0.0 && PointsValid(site, points) && |powers| == |points|
    requires Evidenced(site, powers, conservative) && k < |points|
    requires Evidenced(SplitSite(site, points), Spread(points, powers, |points|), conservative)
    requires Fold(site, Start(site), Pieces(site, powers, conservative, |powers|)).Some?
    ensures var all := AllParts(site, points, powers, conservative);
      && Offset(points, k) <= Offset(points, k + 1) <= |all|
      && (Fold(site, Start(site), all[..Offset(points, k + 1)]).Some? <==>
            Fold(site, Start(site), all[..Offset(points, k)]).Some?
            && SlotEndsWithin(site, points, powers, conservative, k))
  {
    Sizes(site, points);
    CutIsAt(site, points, powers, conservative, k);
    var all, parts := AllParts(site, points, powers, conservative), CutParts(site, points, powers, conservative, k);
    var a, b, p := Offset(points, k), Offset(points, k + 1), PieceAt(site, powers, conservative, k).value;
    assert a <= b <= |all| && all[a..b] == parts && |parts| > 0 && OneLoad(parts, p);
    hide *;
    CutFold(site, all, parts, p, a, b);
    StoredBefore(site, points, powers, conservative, k);
  }

  lemma NoCut(site: Site, points: seq<seq<int>>, all: seq<Piece>)
    requires site.battery.oneWay > 0.0 && AllPositive(all)
    ensures Offset(points, 0) == 0 && Fold(site, Start(site), all[..0]).Some?
  {}

  lemma {:induction false} CutPrefix(site: Site, points: seq<seq<int>>, powers: seq<real>, conservative: bool, k: nat)
    requires site.battery.Valid() && site.battery.oneWay > 0.0 && PointsValid(site, points) && |powers| == |points|
    requires Evidenced(site, powers, conservative) && k <= |points|
    requires Evidenced(SplitSite(site, points), Spread(points, powers, |points|), conservative)
    requires Fold(site, Start(site), Pieces(site, powers, conservative, |powers|)).Some?
    ensures var all := AllParts(site, points, powers, conservative);
      && Offset(points, k) <= |all|
      && (Fold(site, Start(site), all[..Offset(points, k)]).Some? <==>
            forall i: nat | i < k :: SlotEndsWithin(site, points, powers, conservative, i))
  {
    hide *;
    Sizes(site, points);
    if k == 0 {
      NoCut(site, points, AllParts(site, points, powers, conservative));
    } else {
      CutPrefix(site, points, powers, conservative, k - 1);
      CutStep(site, points, powers, conservative, k - 1);
    }
  }

  lemma Accepted(site: Site, powers: seq<real>, conservative: bool)
    requires site.battery.Valid() && Valuation(site, powers, conservative).Some?
    ensures site.battery.oneWay > 0.0 && |powers| == |site.slots| && Evidenced(site, powers, conservative)
    ensures site.Admissible(|powers|) && Fold(site, Start(site), Pieces(site, powers, conservative, |powers|)).Some?
  {
    hide Evidenced, Fold, Pieces, Start;
  }

  /** The cut grid is valued by its parts. */
  lemma SplitValuation(site: Site, points: seq<seq<int>>, powers: seq<real>, conservative: bool)
    requires site.battery.Valid() && site.battery.oneWay > 0.0 && |points| == |site.slots| == |powers|
    requires PointsValid(site, points) && site.Admissible(|powers|)
    requires Evidenced(SplitSite(site, points), Spread(points, powers, |points|), conservative)
    ensures var all := AllParts(site, points, powers, conservative);
      && Offset(points, |points|) <= |all|
      && Valuation(SplitSite(site, points), Spread(points, powers, |points|), conservative)
         == Fold(site, Start(site), all[..Offset(points, |points|)])
  {
    hide Fold, PointsValid, Evidenced, Spread, PieceAt, Pieces;
    var all := AllParts(site, points, powers, conservative);
    assert all[..Offset(points, |points|)] == all;
    SameStart(site, points);
    SplitFold(site, points, Start(site), all);
  }

  /**
   When an accepted grid can be cut: exactly when, in every slot, the first and the last part keep the grid limits.
   What the battery holds at those parts is what the original run, continued through the slot, leaves in it.
   */
  lemma CutAcceptedExactly(site: Site, points: seq<seq<int>>, powers: seq<real>, conservative: bool)
    requires site.battery.Valid() && PointsValid(site, points) && |powers| == |points|
    requires Valuation(site, powers, conservative).Some?
    ensures Evidenced(site, powers, conservative)
    ensures Valuation(SplitSite(site, points), Spread(points, powers, |points|), conservative).Some? <==>
      forall k: nat | k < |points| :: SlotEndsWithin(site, points, powers, conservative, k)
  {
    Accepted(site, powers, conservative);
    Sizes(site, points);
    hide *;
    CutIsEvidenced(site, points, powers, conservative);
    CutPrefix(site, points, powers, conservative, |points|);
    SplitValuation(site, points, powers, conservative);
  }

  /** Under limits that are not negative, as the configuration demands, the last part of each slot decides. */
  lemma LastPartDecides(site: Site, points: seq<seq<int>>, powers: seq<real>, conservative: bool)
    requires site.battery.Valid() && PointsValid(site, points) && |powers| == |points|
    requires site.importLimit >= 0.0 && site.exportLimit >= 0.0
    requires Valuation(site, powers, conservative).Some?
    ensures Evidenced(site, powers, conservative)
    ensures Valuation(SplitSite(site, points), Spread(points, powers, |points|), conservative).Some? <==>
      forall k: nat | k < |points| :: SlotEndWithin(site, points, powers, conservative, k)
  {
    assert site.battery.oneWay > 0.0;
    hide *;
    CutAcceptedExactly(site, points, powers, conservative);
    forall k: nat | k < |points|
      ensures SlotEndsWithin(site, points, powers, conservative, k) <==> SlotEndWithin(site, points, powers, conservative, k)
    {
      OneEndDecides(site, points, powers, conservative, k);
    }
  }

  lemma OneEndDecides(site: Site, points: seq<seq<int>>, powers: seq<real>, conservative: bool, k: nat)
    requires site.battery.Valid() && site.battery.oneWay > 0.0 && PointsValid(site, points) && |powers| == |points|
    requires site.importLimit >= 0.0 && site.exportLimit >= 0.0
    requires Evidenced(site, powers, conservative) && k < |points|
    ensures SlotEndsWithin(site, points, powers, conservative, k) <==> SlotEndWithin(site, points, powers, conservative, k)
  {
    assert SlotAccepted(site, powers, conservative, k);
    hide Rate, PointsValid, Battery.Valid, Evidenced, PieceAt, StoredAt, CutParts, Pieces, Within;
    if SlotEndWithin(site, points, powers, conservative, k) {
      LastBoundsFirst(site, StoredAt(site, powers, conservative, k), CutParts(site, points, powers, conservative, k),
                      PieceAt(site, powers, conservative, k).value);
    }
  }

  // ---------------------------------------------------------------- a grid that cannot be cut

  const ONE_HOUR := 3_600_000_000

  /** An empty lossless battery of 1 kWh, and 2 kW of surplus for one hour against an export limit of 1.5 kW. */
  function FillingSite(): Site {
    Site([Slot(0, Some(ONE_HOUR), Some(0.0), Some(0.0), Some(2.0), None, Some(0.0), None, 0.0)], true, true, Some(0.0),
         Some("self"), Some("self"), Some("full"), Battery(1.0, 0.0, 1.0, 1.0, 2.0, 2.0), 60.0, 0.0, 1.5)
  }

  /** That site, cut in the middle of its slot. */
  predicate Filling(site: Site, points: seq<seq<int>>, powers: seq<real>) {
    site == FillingSite() && points == [[0, ONE_HOUR / 2]] && powers == [0.0]
  }

  lemma FillingData(site: Site, points: seq<seq<int>>, powers: seq<real>)
    requires Filling(site, points, powers)
    ensures site.battery.Valid() && site.battery.oneWay > 0.0 && site.importLimit >= 0.0 && site.exportLimit >= 0.0
    ensures |points| == |powers| == |site.slots| == 1 && site.Admissible(1)
  {}

  lemma FillingStart(site: Site, points: seq<seq<int>>, powers: seq<real>)
    requires Filling(site, points, powers)
    ensures Start(site) == SiteCost(0.0, 0.0, 0.0, 0.0, 0.0) && site.InitialStored() == 0.0
  {}

  lemma FillingCuts(site: Site, points: seq<seq<int>>, powers: seq<real>)
    requires Filling(site, points, powers)
    ensures PointsValid(site, points)
  {}

  lemma FillingSlot(site: Site, points: seq<seq<int>>, powers: seq<real>)
    requires Filling(site, points, powers)
    ensures |powers| == |site.slots| == 1 && SlotAccepted(site, powers, true, 0)
    ensures PieceAt(site, powers, true, 0) == Some(Piece(1.0, -2.0, 0.0, 0.0, 0.0))
  {
    assert Hours(0, ONE_HOUR) == 1.0;
  }

  lemma WholeIsAccepted(site: Site, points: seq<seq<int>>, powers: seq<real>, p: Piece)
    requires Filling(site, points, powers) && p == Piece(1.0, -2.0, 0.0, 0.0, 0.0)
    ensures site.battery.oneWay > 0.0
    ensures Advance(site, SiteCost(0.0, 0.0, 0.0, 0.0, 0.0), p).Some?
  {
    assert PieceFlow(site, p, 0.0) == Flow(1.0, -1.0);
    assert WithinGrid(site, -1.0, 1.0);
  }

  lemma HalfFills(site: Site, points: seq<seq<int>>, powers: seq<real>, half: Piece)
    requires Filling(site, points, powers) && half == Piece(0.5, -2.0, 0.0, 0.0, 0.0)
    ensures site.battery.oneWay > 0.0
    ensures PieceFlow(site, half, 0.0) == Flow(1.0, 0.0) && PieceFlow(site, half, 1.0) == Flow(1.0, -1.0)
    ensures !Within(site, MeanPower(-1.0, 0.5))
  {}

  /** One accepted slot is an accepted grid. */
  lemma OneSlot(site: Site, powers: seq<real>, p: Piece)
    requires site.battery.Valid() && |powers| == |site.slots| == 1 && site.Admissible(1)
    requires SlotAccepted(site, powers, true, 0) && PieceAt(site, powers, true, 0) == Some(p)
    requires p.hours > 0.0 && site.battery.oneWay > 0.0 && Advance(site, Start(site), p).Some?
    ensures Evidenced(site, powers, true) && Valuation(site, powers, true).Some?
  {
    hide Battery.Valid, Advance, Site.Admissible, SlotAccepted, PieceAt, Start;
    assert Evidenced(site, powers, true);
    var ps := Pieces(site, powers, true, 1);
    assert Some(ps[0]) == PieceAt(site, powers, true, 0);
    assert ps == [p] && ps[..0] == [];
    assert Fold(site, Start(site), ps[..0]) == Some(Start(site));
  }

  /** The grid is accepted, and cut at these points it is not. */
  ghost predicate RefusedWhenCut(site: Site, points: seq<seq<int>>, powers: seq<real>) {
    && site.battery.Valid() && PointsValid(site, points) && |powers| == |points|
    && Valuation(site, powers, true).Some?
    && Valuation(SplitSite(site, points), Spread(points, powers, |points|), true).None?
  }

  lemma RefusedBecause(site: Site, points: seq<seq<int>>, powers: seq<real>)
    requires site.battery.Valid() && site.importLimit >= 0.0 && site.exportLimit >= 0.0
    requires PointsValid(site, points) && |powers| == |points| > 0 && site.battery.oneWay > 0.0
    requires Valuation(site, powers, true).Some? && Evidenced(site, powers, true)
    requires !SlotEndWithin(site, points, powers, true, 0)
    ensures RefusedWhenCut(site, points, powers)
  {
    hide Valuation, SlotEndWithin, PointsValid, Battery.Valid, Evidenced, Spread;
    assert |points| == |site.slots| by { Sizes(site, points); }
    LastPartDecides(site, points, powers, true);
  }

  /** The whole slot is accepted and, cut in the middle, it is not: the battery is full by then. */
  lemma CuttingCanBeRefused(site: Site, points: seq<seq<int>>, powers: seq<real>)
    requires Filling(site, points, powers)
    ensures RefusedWhenCut(site, points, powers)
  {
    hide *;
    var p := Piece(1.0, -2.0, 0.0, 0.0, 0.0);
    FillingData(site, points, powers);
    FillingStart(site, points, powers);
    FillingCuts(site, points, powers);
    FillingSlot(site, points, powers);
    WholeIsAccepted(site, points, powers, p);
    OneSlot(site, powers, p);
    SecondHalfExports(site, points, powers);
    RefusedBecause(site, points, powers);
  }

  lemma SecondHalfExports(site: Site, points: seq<seq<int>>, powers: seq<real>)
    requires Filling(site, points, powers) && site.battery.oneWay > 0.0
    requires |powers| == |points| == |site.slots| == 1 && PointsValid(site, points) && Evidenced(site, powers, true)
    ensures !SlotEndWithin(site, points, powers, true, 0)
  {
    hide FillingSite, Filling, PieceFlow, PieceAt, PointsValid, Evidenced, SlotAccepted, CutParts, Within;
    var half := Piece(0.5, -2.0, 0.0, 0.0, 0.0);
    FillingStart(site, points, powers);
    FillingSlot(site, points, powers);
    HalfFills(site, points, powers, half);
    TwoHalves(site, points, powers, half);
    var parts := CutParts(site, points, powers, true, 0);
    assert Pieces(site, powers, true, 0) == [];
    assert parts[..1] == [half] && parts[..1][..0] == [];
    assert StoredAfter(site, 0.0, parts[..1]) == PieceFlow(site, half, 0.0).stored;
  }

  lemma TwoHalves(site: Site, points: seq<seq<int>>, powers: seq<real>, half: Piece)
    requires Filling(site, points, powers) && half == Piece(0.5, -2.0, 0.0, 0.0, 0.0)
    requires |powers| == |points| == |site.slots| == 1 && PointsValid(site, points)
    requires PieceAt(site, powers, true, 0) == Some(Piece(1.0, -2.0, 0.0, 0.0, 0.0))
    ensures CutParts(site, points, powers, true, 0) == [half, half]
  {
    hide PieceAt;
    assert Hours(0, ONE_HOUR / 2) == 0.5 && Hours(ONE_HOUR / 2, ONE_HOUR) == 0.5;
    assert PartEnd(site, points, 0, 0) == ONE_HOUR / 2 && PartEnd(site, points, 0, 1) == ONE_HOUR;
  }
}
