/**
 Cutting forecast slots at an incumbent's boundaries and rejoining them afterwards. Cutting never changes what
 the site is worth, even when the battery fills or empties inside a slot; rejoining never changes energy.
 */
module SlotSplit {
  import opened Common
  import opened SiteEnergy
  import opened ConservativeBound

  // ---------------------------------------------------------------- the cut grid

  /** `points[i]` are the instants at which the parts of slot `i` start. */
  ghost predicate PointsAt(site: Site, points: seq<seq<int>>, i: nat)
    requires i < |points| == |site.slots|
  {
    && |points[i]| > 0 && points[i][0] == site.slots[i].validAt
    && (forall j, k | 0 <= j < k < |points[i]| :: points[i][j] < points[i][k])
    && points[i][|points[i]| - 1] < site.SlotEnd(i)
  }

  ghost predicate PointsValid(site: Site, points: seq<seq<int>>) {
    |points| == |site.slots| && forall i: nat | i < |points| :: PointsAt(site, points, i)
  }

  /** The next point, and `to` after the last. */
  function Following(points: seq<int>, j: nat, to: int): int
    requires j < |points|
  {
    if j + 1 < |points| then points[j + 1] else to
  }

  function PartEnd(site: Site, points: seq<seq<int>>, i: nat, j: nat): int
    requires i < |points| == |site.slots| && j < |points[i]|
  {
    Following(points[i], j, site.SlotEnd(i))
  }

  /** A slot's forecasts and prices over another stretch of time. */
  function Between(slot: Slot, from: int, to: int): Slot { slot.(validAt := from, endAt := Some(to)) }

  function Part(site: Site, points: seq<seq<int>>, i: nat, j: nat): Slot
    requires i < |points| == |site.slots| && j < |points[i]|
  {
    Between(site.slots[i], points[i][j], PartEnd(site, points, i, j))
  }

  function PartsOf(site: Site, points: seq<seq<int>>, i: nat): (r: seq<Slot>)
    requires i < |points| == |site.slots|
    ensures |r| == |points[i]|
  {
    seq(|points[i]|, j requires 0 <= j < |points[i]| => Part(site, points, i, j))
  }

  function Expanded(site: Site, points: seq<seq<int>>, k: nat): (r: seq<Slot>)
    requires k <= |points| == |site.slots|
    ensures |r| == Offset(points, k)
  {
    if k == 0 then [] else Expanded(site, points, k - 1) + PartsOf(site, points, k - 1)
  }

  /** Number of parts before slot `k`. */
  function Offset(points: seq<seq<int>>, k: nat): nat
    requires k <= |points|
  {
    if k == 0 then 0 else Offset(points, k - 1) + |points[k - 1]|
  }

  function SplitSite(site: Site, points: seq<seq<int>>): Site
    requires |points| == |site.slots|
  {
    site.(slots := Expanded(site, points, |points|))
  }

  /** Every part carries its slot's power. */
  function Spread(points: seq<seq<int>>, powers: seq<real>, k: nat): (r: seq<real>)
    requires k <= |points| == |powers|
    ensures |r| == Offset(points, k)
  {
    if k == 0 then [] else Spread(points, powers, k - 1) + seq(|points[k - 1]|, _ => powers[k - 1])
  }

  lemma {:induction false} ExpandedAt(site: Site, points: seq<seq<int>>, n: nat, i: nat, j: nat)
    requires i < n <= |points| == |site.slots| && j < |points[i]|
    ensures Offset(points, i) + j < Offset(points, n)
    ensures Expanded(site, points, n)[Offset(points, i) + j] == Part(site, points, i, j)
  {
    if i < n - 1 { ExpandedAt(site, points, n - 1, i, j); }
  }

  lemma {:induction false} SpreadAt(points: seq<seq<int>>, powers: seq<real>, n: nat, i: nat, j: nat)
    requires i < n <= |points| == |powers| && j < |points[i]|
    ensures Offset(points, i) + j < Offset(points, n)
    ensures Spread(points, powers, n)[Offset(points, i) + j] == powers[i]
  {
    if i < n - 1 { SpreadAt(points, powers, n - 1, i, j); }
  }

  // ---------------------------------------------------------------- the split performed for an incumbent

  function Inside(at: int, from: int, to: int): seq<int> { if from < at < to then [at] else [] }

  function BoundaryPoints(site: Site, start: int, stop: int, release: int, i: nat): seq<int>
    requires i < |site.slots|
  {
    var from, to := site.slots[i].validAt, site.SlotEnd(i);
    [from] + Inside(start, from, to) + Inside(stop, from, to) + Inside(release, from, to)
  }

  ghost function AllBoundaryPoints(site: Site, start: int, stop: int, release: int): (r: seq<seq<int>>)
    ensures |r| == |site.slots|
  {
    seq(|site.slots|, i requires 0 <= i < |site.slots| => BoundaryPoints(site, start, stop, release, i))
  }

  /** The incumbent's boundaries cut the slots they fall inside, whatever the grid, if slots have positive length. */
  lemma BoundariesAreValid(site: Site, start: int, stop: int, release: int)
    requires start < stop < release
    requires forall i: nat | i < |site.slots| :: site.slots[i].validAt < site.SlotEnd(i)
    ensures PointsValid(site, AllBoundaryPoints(site, start, stop, release))
  {}

  /** The parts of one slot, starting at the given points and ending at `to`. */
  method CutSlot(slot: Slot, points: seq<int>, to: int) returns (parts: seq<Slot>)
    ensures |parts| == |points|
    ensures forall j: nat | j < |points| ::
      parts[j] == Between(slot, points[j], Following(points, j, to))
  {
    parts := [];
    for j := 0 to |points|
      invariant |parts| == j
      invariant forall k: nat | k < j ::
        parts[k] == Between(slot, points[k], Following(points, k, to))
    {
      parts := parts + [slot.(validAt := points[j], endAt := Some(if j + 1 < |points| then points[j + 1] else to))];
    }
  }

  lemma PartsAre(site: Site, all: seq<seq<int>>, i: nat, points: seq<int>, to: int, parts: seq<Slot>)
    requires i < |all| == |site.slots| && all[i] == points && to == site.SlotEnd(i) && |parts| == |points|
    requires forall j: nat | j < |points| ::
      parts[j] == Between(site.slots[i], points[j], Following(points, j, to))
    ensures Expanded(site, all, i) + parts == Expanded(site, all, i + 1)
  {
    hide Site.SlotEnd;
    forall j: nat | j < |parts| ensures parts[j] == PartsOf(site, all, i)[j] {
      assert PartEnd(site, all, i, j) == Following(points, j, to);
    }
  }

  lemma PointsAre(site: Site, start: int, stop: int, release: int, i: nat)
    requires i < |site.slots|
    ensures var from, to := site.slots[i].validAt, site.SlotEnd(i);
      AllBoundaryPoints(site, start, stop, release)[i]
      == [from] + Inside(start, from, to) + Inside(stop, from, to) + Inside(release, from, to)
  {
    hide Inside, Site.SlotEnd;
  }

  lemma NothingExpanded(site: Site, points: seq<seq<int>>)
    requires |points| == |site.slots|
    ensures Expanded(site, points, 0) == []
  {}

  /** The split loop of a revalidation. */
  method SplitAtBoundaries(site: Site, start: int, stop: int, release: int) returns (expanded: seq<Slot>)
    requires start < stop < release
    ensures expanded == SplitSite(site, AllBoundaryPoints(site, start, stop, release)).slots
    ensures GridCutAtBoundaries(site, start, stop, release, expanded)
  {
    hide Site.SlotEnd, GridCutAtBoundaries, PartsOf, Expanded, Inside, AllBoundaryPoints, Following, Between;
    SplitIsAtBoundaries(site, start, stop, release);
    ghost var all := AllBoundaryPoints(site, start, stop, release);
    NothingExpanded(site, all);
    expanded := [];
    for i := 0 to |site.slots|
      invariant expanded == Expanded(site, all, i)
    {
      var from, to := site.slots[i].validAt, site.SlotEnd(i);
      var points := [from] + Inside(start, from, to) + Inside(stop, from, to) + Inside(release, from, to);
      PointsAre(site, start, stop, release, i);
      var parts := CutSlot(site.slots[i], points, to);
      PartsAre(site, all, i, points, to, parts);
      expanded := expanded + parts;
    }
  }

  // ---------------------------------------------------------------- what the split is

  /** The three instants at which an incumbent changes what it does. */
  ghost predicate Boundary(at: int, start: int, stop: int, release: int) { at == start || at == stop || at == release }

  /** `parts` follow one another from the slot's start to `to`, cut exactly at the boundaries strictly inside. */
  ghost predicate CutsAtBoundaries(slot: Slot, to: int, start: int, stop: int, release: int, parts: seq<Slot>) {
    && |parts| > 0 && parts[0].validAt == slot.validAt && parts[|parts| - 1].endAt == Some(to)
    && (forall j: nat | j < |parts| ::
          && parts[j] == slot.(validAt := parts[j].validAt, endAt := parts[j].endAt)
          && (j + 1 < |parts| ==> parts[j].endAt == Some(parts[j + 1].validAt) && parts[j].validAt < parts[j + 1].validAt)
          && (j > 0 ==> slot.validAt < parts[j].validAt < to && Boundary(parts[j].validAt, start, stop, release)))
    && (forall at: int | Boundary(at, start, stop, release) && slot.validAt < at < to ::
          exists j: nat | 0 < j < |parts| :: parts[j].validAt == at)
  }

  function Flattened<T>(groups: seq<seq<T>>): seq<T> {
    if |groups| == 0 then [] else Flattened(groups[..|groups| - 1]) + groups[|groups| - 1]
  }

  /** The whole grid, slot by slot. */
  ghost predicate GridCutAtBoundaries(site: Site, start: int, stop: int, release: int, expanded: seq<Slot>) {
    exists groups: seq<seq<Slot>> ::
      && |groups| == |site.slots| && expanded == Flattened(groups)
      && forall i: nat | i < |groups| ::
           CutsAtBoundaries(site.slots[i], site.SlotEnd(i), start, stop, release, groups[i])
  }

  lemma PointsAreBoundaries(site: Site, start: int, stop: int, release: int, i: nat)
    requires start < stop < release && i < |site.slots|
    ensures CutsAtBoundaries(site.slots[i], site.SlotEnd(i), start, stop, release,
                             PartsOf(site, AllBoundaryPoints(site, start, stop, release), i))
  {
    hide Site.SlotEnd;
    var slot, from, to := site.slots[i], site.slots[i].validAt, site.SlotEnd(i);
    var all := AllBoundaryPoints(site, start, stop, release);
    var parts, points := PartsOf(site, all, i), all[i];
    assert points == [from] + Inside(start, from, to) + Inside(stop, from, to) + Inside(release, from, to);
    forall at: int | Boundary(at, start, stop, release) && from < at < to
      ensures exists j: nat | 0 < j < |parts| :: parts[j].validAt == at
    {
      var j: nat := 1 + (if at == start then 0
                         else if at == stop then |Inside(start, from, to)|
                         else |Inside(start, from, to)| + |Inside(stop, from, to)|);
      assert points[j] == at && parts[j].validAt == at;
    }
  }

  lemma {:induction false} ExpandedFlattens(site: Site, points: seq<seq<int>>, groups: seq<seq<Slot>>, k: nat)
    requires k <= |groups| == |points| == |site.slots|
    requires forall i: nat | i < |groups| :: groups[i] == PartsOf(site, points, i)
    ensures Expanded(site, points, k) == Flattened(groups[..k])
  {
    if k > 0 {
      ExpandedFlattens(site, points, groups, k - 1);
      assert groups[..k][..k - 1] == groups[..k - 1];
    }
  }

  /** The split cuts every slot exactly at the incumbent's boundaries strictly inside it, and nowhere else. */
  lemma SplitIsAtBoundaries(site: Site, start: int, stop: int, release: int)
    requires start < stop < release
    ensures GridCutAtBoundaries(site, start, stop, release,
                                SplitSite(site, AllBoundaryPoints(site, start, stop, release)).slots)
  {
    hide CutsAtBoundaries, PartsOf;
    var all := AllBoundaryPoints(site, start, stop, release);
    var groups := seq(|all|, i requires 0 <= i < |all| => PartsOf(site, all, i));
    forall i: nat | i < |groups|
      ensures CutsAtBoundaries(site.slots[i], site.SlotEnd(i), start, stop, release, groups[i])
    {
      PointsAreBoundaries(site, start, stop, release, i);
    }
    ExpandedFlattens(site, all, groups, |all|);
    assert groups[..|all|] == groups;
  }

  // ---------------------------------------------------------------- one cut inside one stretch

  lemma EnergyAdds(kw: real, h1: real, h2: real)
    ensures Energy(kw, h1 + h2) == Energy(kw, h1) + Energy(kw, h2)
    ensures h1 >= 0.0 && kw >= 0.0 ==> Energy(kw, h1) >= 0.0
    ensures h1 >= 0.0 && kw < 0.0 ==> Energy(kw, h1) <= 0.0
    ensures h1 > 0.0 && kw < 0.0 ==> Energy(kw, h1) < 0.0
    ensures Energy(-kw, h1) == -Energy(kw, h1)
  {}

  lemma EnergyMin(a: real, b: real, h: real)
    requires h >= 0.0
    ensures Min(Energy(a, h), Energy(b, h)) == Energy(Min(a, b), h)
  {
    if a <= b { ScaleMonotone(a, b, h); } else { ScaleMonotone(b, a, h); }
  }

  /** A charging stretch: the battery follows a straight line until it is full. */
  lemma ChargeLine(site: Site, stored: real, kw: real, hours: real)
    requires site.battery.Valid() && site.HasBattery() && kw < 0.0 && hours > 0.0
    ensures var f, b := BatteryFlow(site, stored, Energy(kw, hours), hours), site.battery;
      && f.stored == Min(stored + Banked(Energy(Min(-kw, b.maxCharge), hours), b.oneWay), Max(b.capacity, stored))
      && f.net == Energy(kw, hours) + Drained(f.stored - stored, b.oneWay)
  {
    hide Energy, Drained, Banked;
    var b := site.battery;
    EnergyAdds(kw, hours, 0.0);
    EnergyMin(-kw, b.maxCharge, hours);
    MinBanked(-Energy(kw, hours), Energy(b.maxCharge, hours), -Energy(kw, hours), b.oneWay);
    ChargeForm(b, stored, Energy(kw, hours), hours);
    Unbank(Charge(b, stored, Energy(kw, hours), hours), b.oneWay);
  }

  lemma Unbank(c: real, e: real)
    requires e > 0.0
    ensures Drained(Banked(c, e), e) == c && Banked(Drained(c, e), e) == c
  {}

  /** A discharging stretch: the battery follows a straight line until it reaches its reserve. */
  lemma DischargeLine(site: Site, stored: real, kw: real, hours: real)
    requires site.battery.Valid() && site.Discharges() && kw >= 0.0 && hours > 0.0
    ensures var f, b := BatteryFlow(site, stored, Energy(kw, hours), hours), site.battery;
      && f.stored == Max(stored - Drained(Energy(Min(kw, b.maxDischarge), hours), b.oneWay), Min(b.Floor(), stored))
      && f.net == Energy(kw, hours) - Banked(stored - f.stored, b.oneWay)
  {
    hide Energy, Drained, Banked;
    var b := site.battery;
    EnergyAdds(kw, hours, 0.0);
    EnergyMin(kw, b.maxDischarge, hours);
    MinBanked(Energy(kw, hours), Energy(b.maxDischarge, hours), Energy(kw, hours), b.oneWay);
    DischargeForm(b, stored, Energy(kw, hours), hours);
    Unbank(Discharge(b, stored, Energy(kw, hours), hours), b.oneWay);
  }

  lemma RateNonNegative(a: real, b: real, hours: real, e: real)
    requires a >= 0.0 && b >= 0.0 && hours > 0.0 && e > 0.0
    ensures Banked(Energy(Min(a, b), hours), e) >= 0.0 && Drained(Energy(Min(a, b), hours), e) >= 0.0
  {
    EnergyAdds(Min(a, b), hours, 0.0);
    DivideScale(Energy(Min(a, b), hours), e);
  }

  /** Two consecutive stretches of one constant load are one stretch: same battery, same grid energy. */
  lemma FlowJoins(site: Site, stored: real, kw: real, h1: real, h2: real)
    requires site.battery.Valid() && h1 > 0.0 && h2 > 0.0
    ensures var f1 := BatteryFlow(site, stored, Energy(kw, h1), h1);
      var f2 := BatteryFlow(site, f1.stored, Energy(kw, h2), h2);
      var f := BatteryFlow(site, stored, Energy(kw, h1 + h2), h1 + h2);
      && f.stored == f2.stored && f.net == f1.net + f2.net
      && ((f1.net <= 0.0 && f2.net <= 0.0) || (f1.net >= 0.0 && f2.net >= 0.0))
  {
    hide Energy, Drained, Banked, Charge, Discharge, Battery.Floor;
    var b := site.battery;
    var f1 := BatteryFlow(site, stored, Energy(kw, h1), h1);
    EnergyAdds(kw, h1, h2);
    EnergyAdds(kw, h2, h1);
    FlowBounds(site, stored, Energy(kw, h1), h1);
    FlowBounds(site, f1.stored, Energy(kw, h2), h2);
    if site.HasBattery() && kw < 0.0 {
      var rate := Min(-kw, b.maxCharge);
      ChargeLine(site, stored, kw, h1);
      ChargeLine(site, f1.stored, kw, h2);
      ChargeLine(site, stored, kw, h1 + h2);
      RateNonNegative(-kw, b.maxCharge, h1, b.oneWay);
      RateNonNegative(-kw, b.maxCharge, h2, b.oneWay);
      EnergyAdds(rate, h1, h2);
      ConversionAdds(Energy(rate, h1), Energy(rate, h2), b.oneWay);
      var f2 := BatteryFlow(site, f1.stored, Energy(kw, h2), h2);
      ConversionAdds(f1.stored - stored, f2.stored - f1.stored, b.oneWay);
    } else if site.Discharges() && kw >= 0.0 {
      var rate := Min(kw, b.maxDischarge);
      DischargeLine(site, stored, kw, h1);
      DischargeLine(site, f1.stored, kw, h2);
      DischargeLine(site, stored, kw, h1 + h2);
      RateNonNegative(kw, b.maxDischarge, h1, b.oneWay);
      RateNonNegative(kw, b.maxDischarge, h2, b.oneWay);
      EnergyAdds(rate, h1, h2);
      ConversionAdds(Energy(rate, h1), Energy(rate, h2), b.oneWay);
      var f2 := BatteryFlow(site, f1.stored, Energy(kw, h2), h2);
      ConversionAdds(stored - f1.stored, f1.stored - f2.stored, b.oneWay);
    }
  }

  /** The same stretch of load, over a different length of time. */
  ghost predicate SameLoad(p: Piece, q: Piece) {
    p.demand == q.demand && p.power == q.power && p.importPrice == q.importPrice && p.exportPrice == q.exportPrice
  }

  lemma GridJoins(site: Site, n1: real, n2: real, h1: real, h2: real)
    requires h1 > 0.0 && h2 > 0.0 && WithinGrid(site, n1, h1) && WithinGrid(site, n2, h2)
    ensures WithinGrid(site, n1 + n2, h1 + h2)
  {
    MeanJoins(n1, n2, h1, h2, site.importLimit);
    MeanJoins(-n1, -n2, h1, h2, site.exportLimit);
    assert -(n1 + n2) == -n1 + -n2;
  }

  lemma MeanBelow(n: real, h: real, limit: real)
    requires h > 0.0
    ensures MeanPower(n, h) <= limit <==> n <= limit * h
  {
    DivideScale(n, h);
    DivideScale(limit, h);
    if n / h <= limit { ScaleMonotone(n / h, limit, h); }
    if n <= limit * h { DivideMonotone(n, limit * h, h); }
  }

  lemma MeanJoins(n1: real, n2: real, h1: real, h2: real, limit: real)
    requires h1 > 0.0 && h2 > 0.0 && MeanPower(n1, h1) <= limit && MeanPower(n2, h2) <= limit
    ensures MeanPower(n1 + n2, h1 + h2) <= limit
  {
    hide MeanPower;
    MeanBelow(n1, h1, limit);
    MeanBelow(n2, h2, limit);
    MeanBelow(n1 + n2, h1 + h2, limit);
    assert limit * (h1 + h2) == limit * h1 + limit * h2;
  }

  lemma PricedAdds(a: real, b: real, price: real)
    ensures Priced(a + b, price) == Priced(a, price) + Priced(b, price)
  {}

  lemma MoneyJoins(p: Piece, q: Piece, n1: real, n2: real)
    requires SameLoad(p, q)
    requires (n1 <= 0.0 && n2 <= 0.0) || (n1 >= 0.0 && n2 >= 0.0)
    ensures Money(q, n1 + n2) == Money(p, n1) + Money(p, n2)
  {
    hide Priced;
    PricedAdds(Max(n1, 0.0), Max(n2, 0.0), p.importPrice);
    PricedAdds(Max(-n1, 0.0), Max(-n2, 0.0), p.exportPrice);
  }

  /** If both halves are accepted, the joined stretch is accepted with exactly their combined effect. */
  lemma AdvanceJoins(site: Site, before: SiteCost, p1: Piece, p2: Piece, p: Piece)
    requires site.battery.Valid() && p1.hours > 0.0 && p2.hours > 0.0 && p.hours == p1.hours + p2.hours
    requires SameLoad(p1, p) && SameLoad(p2, p)
    requires Advance(site, before, p1).Some? && Advance(site, Advance(site, before, p1).value, p2).Some?
    ensures Advance(site, before, p) == Advance(site, Advance(site, before, p1).value, p2)
  {
    assert site.battery.oneWay > 0.0;
    hide Energy, BatteryFlow, Money, MeanPower, WithinGrid, Battery.Valid;
    FlowJoins(site, before.stored, p.demand, p1.hours, p2.hours);
    var f1 := PieceFlow(site, p1, before.stored);
    var f2 := PieceFlow(site, p2, f1.stored);
    GridJoins(site, f1.net, f2.net, p1.hours, p2.hours);
    MoneyJoins(p1, p, f1.net, f2.net);
    MoneyJoins(p2, p2, f1.net, f2.net);
    MoneyJoins(p1, p1, f1.net, f2.net);
    SameMoney(p1, p2, f2.net);
    EnergyAdds(p.power, p1.hours, p2.hours);
  }

  // ---------------------------------------------------------------- many cuts

  function TotalHours(ps: seq<Piece>): real {
    if |ps| == 0 then 0.0 else TotalHours(ps[..|ps| - 1]) + ps[|ps| - 1].hours
  }

  lemma {:induction false} FoldGroup(site: Site, start: SiteCost, parts: seq<Piece>, p: Piece)
    requires site.battery.Valid() && AllPositive(parts) && |parts| > 0
    requires forall k | 0 <= k < |parts| :: SameLoad(parts[k], p)
    requires p.hours == TotalHours(parts) && Fold(site, start, parts).Some?
    ensures p.hours > 0.0 && Advance(site, start, p) == Fold(site, start, parts)
  {
    assert site.battery.oneWay > 0.0;
    hide Advance, Battery.Valid;
    var init, last := parts[..|parts| - 1], parts[|parts| - 1];
    assert TotalHours(parts) == TotalHours(init) + last.hours;
    assert Fold(site, start, parts) == Advance(site, Fold(site, start, init).value, last);
    if |init| == 0 {
      assert p == last;
    } else {
      var q := p.(hours := TotalHours(init));
      FoldGroup(site, start, init, q);
      AdvanceJoins(site, start, q, last, p);
    }
  }

  lemma {:induction false} FoldConcat(site: Site, start: SiteCost, ps: seq<Piece>, qs: seq<Piece>)
    requires site.battery.oneWay > 0.0 && AllPositive(ps) && AllPositive(qs)
    ensures AllPositive(ps + qs)
    ensures Fold(site, start, ps + qs) ==
      if Fold(site, start, ps).None? then None else Fold(site, Fold(site, start, ps).value, qs)
  {
    hide Advance;
    if |qs| == 0 {
      assert ps + qs == ps;
    } else {
      assert (ps + qs)[..|ps + qs| - 1] == ps + qs[..|qs| - 1];
      FoldConcat(site, start, ps, qs[..|qs| - 1]);
    }
  }

  lemma {:induction false} GroupHours(site: Site, points: seq<seq<int>>, i: nat, parts: seq<Piece>, n: nat)
    requires i < |points| == |site.slots| && PointsAt(site, points, i) && n <= |parts| == |points[i]|
    requires forall j: nat | j < |parts| :: parts[j].hours == Hours(points[i][j], PartEnd(site, points, i, j))
    ensures TotalHours(parts[..n]) ==
      Hours(site.slots[i].validAt, if n < |points[i]| then points[i][n] else site.SlotEnd(i))
  {
    hide Site.SlotEnd;
    if n > 0 {
      GroupHours(site, points, i, parts, n - 1);
      assert parts[..n][..n - 1] == parts[..n - 1];
      assert parts[..n][n - 1] == parts[n - 1];
    }
  }

  /** Part `j` of slot `k`, as valued on the split grid. */
  lemma SplitPart(site: Site, points: seq<seq<int>>, powers: seq<real>, conservative: bool, k: nat, j: nat)
    requires PointsValid(site, points) && |powers| == |points| && k < |points| && j < |points[k]|
    requires Evidenced(SplitSite(site, points), Spread(points, powers, |points|), conservative)
    ensures var all := Pieces(SplitSite(site, points), Spread(points, powers, |points|), conservative,
                              Offset(points, |points|));
      && Offset(points, k) + j < |all| && PieceAt(site, powers, conservative, k).Some?
      && SameLoad(all[Offset(points, k) + j], PieceAt(site, powers, conservative, k).value)
      && all[Offset(points, k) + j].hours == Hours(points[k][j], PartEnd(site, points, k, j))
  {
    var n, m := |points|, Offset(points, k) + j;
    var split, spread := SplitSite(site, points), Spread(points, powers, n);
    assert |points| == |site.slots|;
    hide Evidenced, Site.SlotTimed, Site.SlotEnd, Expanded, Spread, Pieces, Hours, PieceAt, PointsValid, Part, Offset;
    ExpandedAt(site, points, n, k, j);
    SpreadAt(points, powers, n, k, j);
    var all := Pieces(split, spread, conservative, Offset(points, n));
    assert Some(all[m]) == PieceAt(split, spread, conservative, m);
    PartResolves(site, points, powers, conservative, k, j);
  }

  lemma SlotPoints(site: Site, points: seq<seq<int>>, k: nat)
    requires PointsValid(site, points) && k < |points|
    ensures |points| == |site.slots| && PointsAt(site, points, k) && |points[k]| > 0
    ensures Offset(points, k + 1) == Offset(points, k) + |points[k]| <= Offset(points, |points|)
  {
    assert PointsAt(site, points, k);
    OffsetMonotone(points, k + 1, |points|);
  }

  lemma IsGroup(all: seq<Piece>, a: nat, b: nat, p: Piece)
    requires a < b <= |all| && p.hours == TotalHours(all[a..b])
    requires forall j | 0 <= j < |all[a..b]| :: SameLoad(all[a..b][j], p)
    ensures GroupOf(all, a, b, p)
  {
    hide TotalHours, SameLoad;
    forall k | a <= k < b ensures SameLoad(all[k], p) { assert all[k] == all[a..b][k - a]; }
  }

  lemma CutSizes(site: Site, points: seq<seq<int>>, powers: seq<real>)
    requires |points| == |site.slots| == |powers|
    ensures |SplitSite(site, points).slots| == |Spread(points, powers, |points|)| == Offset(points, |points|)
  {}

  /** The parts of slot `k` together, as valued on the split grid. */
  lemma SplitGroup(site: Site, points: seq<seq<int>>, powers: seq<real>, conservative: bool, k: nat)
    requires PointsValid(site, points) && |powers| == |points| && k < |points|
    requires Evidenced(SplitSite(site, points), Spread(points, powers, |points|), conservative)
    ensures var all := Pieces(SplitSite(site, points), Spread(points, powers, |points|), conservative,
                              Offset(points, |points|));
      && Offset(points, k) < Offset(points, k + 1) <= |all|
      && PieceAt(site, powers, conservative, k).Some?
      && GroupOf(all, Offset(points, k), Offset(points, k + 1), PieceAt(site, powers, conservative, k).value)
  {
    hide *;
    SlotPoints(site, points, k);
    CutSizes(site, points, powers);
    var all := Pieces(SplitSite(site, points), Spread(points, powers, |points|), conservative, Offset(points, |points|));
    var a, b := Offset(points, k), Offset(points, k + 1);
    var parts := all[a..b];
    SplitPart(site, points, powers, conservative, k, 0);
    forall j: nat | j < |parts|
      ensures SameLoad(parts[j], PieceAt(site, powers, conservative, k).value)
      ensures parts[j].hours == Hours(points[k][j], PartEnd(site, points, k, j))
    {
      SplitPart(site, points, powers, conservative, k, j);
    }
    GroupHours(site, points, k, parts, |parts|);
    assert parts[..|parts|] == parts;
    PieceHours(site, powers, conservative, k);
    IsGroup(all, a, b, PieceAt(site, powers, conservative, k).value);
  }

  lemma PieceHours(site: Site, powers: seq<real>, conservative: bool, k: nat)
    requires k < |powers| == |site.slots| && PieceAt(site, powers, conservative, k).Some?
    ensures PieceAt(site, powers, conservative, k).value.hours == Hours(site.slots[k].validAt, site.SlotEnd(k))
  {}

  lemma PartResolves(site: Site, points: seq<seq<int>>, powers: seq<real>, conservative: bool, k: nat, j: nat)
    requires |points| == |site.slots| == |powers| && k < |points| && j < |points[k]|
    requires Offset(points, k) + j < Offset(points, |points|)
    requires SplitSite(site, points).slots[Offset(points, k) + j] == Part(site, points, k, j)
    requires Spread(points, powers, |points|)[Offset(points, k) + j] == powers[k]
    requires PieceAt(SplitSite(site, points), Spread(points, powers, |points|), conservative, Offset(points, k) + j).Some?
    ensures PieceAt(site, powers, conservative, k).Some?
    ensures var q := PieceAt(SplitSite(site, points), Spread(points, powers, |points|), conservative,
                             Offset(points, k) + j).value;
      && SameLoad(q, PieceAt(site, powers, conservative, k).value)
      && q.hours == Hours(points[k][j], PartEnd(site, points, k, j))
  {
    hide Hours, Expanded, Spread;
  }

  lemma {:induction false} OffsetMonotone(points: seq<seq<int>>, a: nat, b: nat)
    requires a <= b <= |points|
    ensures Offset(points, a) <= Offset(points, b)
  {
    if a < b { OffsetMonotone(points, a, b - 1); }
  }

  /** Pieces `a..b` of the cut grid are the parts of `p`. */
  ghost predicate GroupOf(all: seq<Piece>, a: nat, b: nat, p: Piece) {
    && a < b <= |all| && p.hours == TotalHours(all[a..b])
    && forall k | a <= k < b :: SameLoad(all[k], p)
  }

  lemma SlicesPositive(all: seq<Piece>, a: nat, b: nat)
    requires AllPositive(all) && a <= b <= |all|
    ensures AllPositive(all[..a]) && AllPositive(all[a..b]) && AllPositive(all[..b]) && all[..a] + all[a..b] == all[..b]
  {}

  lemma GroupParts(all: seq<Piece>, a: nat, b: nat, p: Piece)
    requires GroupOf(all, a, b, p)
    ensures a < b <= |all| && p.hours == TotalHours(all[a..b])
    ensures forall k | 0 <= k < |all[a..b]| :: SameLoad(all[a..b][k], p)
  {
    hide TotalHours;
    forall k | 0 <= k < |all[a..b]| ensures SameLoad(all[a..b][k], p) { assert all[a..b][k] == all[a + k]; }
  }

  /** One slot more on the original grid is its group of parts more on the cut grid. */
  lemma FoldStep(site: Site, start: SiteCost, all: seq<Piece>, a: nat, b: nat, ps: seq<Piece>, p: Piece)
    requires site.battery.Valid() && AllPositive(all) && AllPositive(ps) && GroupOf(all, a, b, p)
    requires Fold(site, start, all[..b]).Some?
    requires Fold(site, start, all[..a]).Some? ==> Fold(site, start, ps) == Fold(site, start, all[..a])
    ensures p.hours > 0.0 && Fold(site, start, ps + [p]) == Fold(site, start, all[..b])
  {
    assert site.battery.oneWay > 0.0;
    hide *;
    GroupParts(all, a, b, p);
    SlicesPositive(all, a, b);
    FoldConcat(site, start, all[..a], all[a..b]);
    FoldGroup(site, Fold(site, start, all[..a]).value, all[a..b], p);
    FoldAppend(site, start, ps, p);
  }

  lemma {:induction false} FoldSplit(site: Site, start: SiteCost, points: seq<seq<int>>, all: seq<Piece>,
                                     ps: seq<Piece>,
                                     k: nat)
    requires site.battery.Valid() && AllPositive(all) && AllPositive(ps) && |ps| == |points| && k <= |ps|
    requires forall i: nat | i < |ps| :: GroupOf(all, Offset(points, i), Offset(points, i + 1), ps[i])
    requires Offset(points, k) <= |all| && Fold(site, start, all[..Offset(points, k)]).Some?
    ensures Fold(site, start, ps[..k]) == Fold(site, start, all[..Offset(points, k)])
  {
    if k > 0 {
      assert site.battery.oneWay > 0.0;
      hide Advance, Battery.Valid, TotalHours, SameLoad, Fold;
      var a, b := Offset(points, k - 1), Offset(points, k);
      assert GroupOf(all, a, b, ps[k - 1]);
      assert ps[..k] == ps[..k - 1] + [ps[k - 1]];
      if Fold(site, start, all[..a]).Some? { FoldSplit(site, start, points, all, ps, k - 1); }
      FoldStep(site, start, all, a, b, ps[..k - 1], ps[k - 1]);
    }
  }

  lemma SplitFold(site: Site, points: seq<seq<int>>, start: SiteCost, ps: seq<Piece>)
    requires site.battery.Valid() && |points| == |site.slots| && AllPositive(ps)
    ensures Fold(SplitSite(site, points), start, ps) == Fold(site, start, ps)
  {
    FoldIgnoresSlots(site, SplitSite(site, points), start, ps);
  }

  lemma {:induction false} FoldIgnoresSlots(site: Site, other: Site, start: SiteCost, ps: seq<Piece>)
    requires site.battery.oneWay > 0.0 && AllPositive(ps) && other == site.(slots := other.slots)
    ensures Fold(other, start, ps) == Fold(site, start, ps)
  {
    hide Charge, Discharge, MeanPower, Money, Energy, Banked, Drained;
    if |ps| > 0 { FoldIgnoresSlots(site, other, start, ps[..|ps| - 1]); }
  }

  /** The grid itself is well timed. */
  ghost predicate Timed(site: Site) { forall i: nat | i < |site.slots| :: site.SlotTimed(i) }

  lemma SplitEvidence(site: Site, points: seq<seq<int>>, powers: seq<real>, conservative: bool)
    requires PointsValid(site, points) && |powers| == |points| == |site.slots| && Timed(site)
    requires Evidenced(SplitSite(site, points), Spread(points, powers, |points|), conservative)
    ensures Evidenced(site, powers, conservative)
  {
    hide Site.SlotTimed, PieceAt, PointsValid, Spread, Pieces, GroupOf, Expanded, Offset;
    forall i: nat | i < |site.slots| ensures SlotAccepted(site, powers, conservative, i) {
      SplitGroup(site, points, powers, conservative, i);
    }
  }

  /** Up to slot `k`, a run over the parts is a run over the slots. */
  lemma GroupsJoin(site: Site, points: seq<seq<int>>, powers: seq<real>, conservative: bool, k: nat)
    requires site.battery.Valid() && site.battery.oneWay > 0.0
    requires PointsValid(site, points) && |powers| == |points| == |site.slots|
    requires Evidenced(site, powers, conservative) && k <= |points|
    requires Evidenced(SplitSite(site, points), Spread(points, powers, |points|), conservative)
    requires var all := Pieces(SplitSite(site, points), Spread(points, powers, |points|), conservative,
                               Offset(points, |points|));
      Offset(points, k) <= |all| && Fold(site, Start(site), all[..Offset(points, k)]).Some?
    ensures Fold(site, Start(site), Pieces(site, powers, conservative, k))
         == Fold(site, Start(site), Pieces(SplitSite(site, points), Spread(points, powers, |points|), conservative,
                                           Offset(points, |points|))[..Offset(points, k)])
  {
    hide PieceAt, Fold, Battery.Valid, Start, PointsValid, Spread, Site.SlotTimed, GroupOf, Offset;
    var n := |points|;
    var all := Pieces(SplitSite(site, points), Spread(points, powers, n), conservative, Offset(points, n));
    var ps := Pieces(site, powers, conservative, n);
    forall i: nat | i < n ensures GroupOf(all, Offset(points, i), Offset(points, i + 1), ps[i]) {
      SplitGroup(site, points, powers, conservative, i);
      assert Some(ps[i]) == PieceAt(site, powers, conservative, i);
    }
    FoldSplit(site, Start(site), points, all, ps, k);
    PiecesPrefix(site, powers, conservative, k, n);
  }

  /**
   Cutting any slots of a well-timed grid at any interior instants, with prices, loads and power copied, does
   not change the money: if the cut grid is accepted, so is the original, with the same cost, import, export,
   HVAC energy and terminal battery.
   */
  lemma SubdivisionKeepsValue(site: Site, points: seq<seq<int>>, powers: seq<real>, conservative: bool)
    requires site.battery.Valid() && PointsValid(site, points) && |powers| == |site.slots| && Timed(site)
    requires Valuation(SplitSite(site, points), Spread(points, powers, |points|), conservative).Some?
    ensures Valuation(site, powers, conservative)
         == Valuation(SplitSite(site, points), Spread(points, powers, |points|), conservative)
  {
    var n := |points|;
    assert n == |site.slots| && site.battery.oneWay > 0.0;
    hide PieceAt, Fold, Battery.Valid, Start, PointsValid, Spread, Timed, Evidenced, Pieces, Expanded, Offset;
    SplitEvidence(site, points, powers, conservative);
    var all := Pieces(SplitSite(site, points), Spread(points, powers, n), conservative, Offset(points, n));
    SameStart(site, points);
    SplitFold(site, points, Start(site), all);
    assert all[..Offset(points, n)] == all;
    GroupsJoin(site, points, powers, conservative, n);
  }

  lemma SameStart(site: Site, points: seq<seq<int>>)
    requires |points| == |site.slots|
    ensures Start(SplitSite(site, points)) == Start(site)
  {}
}
