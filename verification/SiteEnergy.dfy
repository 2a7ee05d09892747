/**
 Paired site-energy valuation: one forecast grid, a lossy and power-limited battery, grid limits and a
 two-sided tariff. `Evaluate` is the step loop; `Valuation` is the function it computes; the lemmas are
 about that function.
 */
module SiteEnergy {
  import opened Common

  /** Floating slack on a slot's length, in hours. */
  const DURATION_SLACK := 0.000001

  datatype Slot = Slot(
    validAt: int, endAt: Option<int>,
    importPrice: Option<real>, exportPrice: Option<real>,
    pv: Option<real>, pvLower: Option<real>,
    load: Option<real>, loadUpper: Option<real>, evLoad: real)

  /** Planning estimate of the battery; `oneWay` is the square root of the round-trip efficiency. */
  datatype Battery = Battery(
    capacity: real, reservePercent: real, roundTrip: real, oneWay: real, maxCharge: real, maxDischarge: real)
  {
    ghost predicate Valid() {
      && capacity >= 0.0 && reservePercent >= 0.0
      && 0.01 <= roundTrip <= 1.0
      && 0.0 < oneWay <= 1.0 && oneWay * oneWay == roundTrip
      && maxCharge >= 0.0 && maxDischarge >= 0.0
    }

    function Floor(): real { capacity * reservePercent / 100.0 }
  }

  datatype Site = Site(
    slots: seq<Slot>, loadExcludesHvac: bool, batteryConfigured: bool, soc: Option<real>,
    profile: Option<string>, selfConsumption: Option<string>, fullBackup: Option<string>,
    battery: Battery, intervalMinutes: real, importLimit: real, exportLimit: real)
  {
    predicate HasBattery() { soc.Some? }

    predicate Discharges() { HasBattery() && profile == selfConsumption }

    function InitialStored(): real {
      battery.capacity * (if soc.Some? then soc.value else 0.0) / 100.0
    }

    function SlotEnd(i: nat): int
      requires i < |slots|
    {
      if slots[i].endAt.Some? then slots[i].endAt.value
      else if i + 1 < |slots| then slots[i + 1].validAt
      else slots[i].validAt + (intervalMinutes * 60000000.0).Floor
    }

    function SlotHours(i: nat): real
      requires i < |slots|
    {
      Hours(slots[i].validAt, SlotEnd(i))
    }

    /** The per-slot guard on the grid: positive, not longer than one interval, and contiguous. */
    predicate SlotTimed(i: nat)
      requires i < |slots|
    {
      && SlotHours(i) > 0.0
      && SlotHours(i) - intervalMinutes / 60.0 <= DURATION_SLACK
      && (i + 1 < |slots| ==> SlotEnd(i) == slots[i + 1].validAt)
    }

    /** Checks made before any slot is valued. */
    predicate Admissible(count: nat) {
      && count == |slots| && loadExcludesHvac
      && (batteryConfigured ==> soc.Some?)
      && (HasBattery() ==>
            && (profile == selfConsumption || profile == fullBackup)
            && profile.Some? && profile.value != "" && battery.capacity > 0.0)
    }
  }

  datatype SiteCost = SiteCost(cost: real, imported: real, exported: real, hvac: real, stored: real)

  /** One valued stretch of time: everything the battery and the meter see of a slot. */
  datatype Piece = Piece(hours: real, demand: real, power: real, importPrice: real, exportPrice: real)

  /** Energy left in the battery and net energy drawn from the grid after one stretch. */
  datatype Flow = Flow(stored: real, net: real)

  function Energy(kw: real, hours: real): real { kw * hours }

  function MeanPower(kwh: real, hours: real): real
    requires hours > 0.0
  {
    kwh / hours
  }

  function Priced(kwh: real, price: real): real { kwh * price }

  /** Energy that reaches the battery when `kwh` is sent to it. */
  function Banked(kwh: real, oneWay: real): real { kwh * oneWay }

  /** Energy that leaves the battery when `kwh` is delivered from it. */
  function Drained(kwh: real, oneWay: real): real
    requires oneWay > 0.0
  {
    kwh / oneWay
  }

  lemma ConversionAdds(a: real, b: real, oneWay: real)
    requires oneWay > 0.0
    ensures Banked(a + b, oneWay) == Banked(a, oneWay) + Banked(b, oneWay)
    ensures Drained(a + b, oneWay) == Drained(a, oneWay) + Drained(b, oneWay)
  {}

  function Start(site: Site): SiteCost { SiteCost(0.0, 0.0, 0.0, 0.0, site.InitialStored()) }

  function ForecastPv(slot: Slot, conservative: bool): Option<real> {
    if conservative && slot.pvLower.Some? then slot.pvLower else slot.pv
  }

  function ForecastLoad(slot: Slot, conservative: bool): Option<real> {
    if conservative && slot.loadUpper.Some? then slot.loadUpper else slot.load
  }

  /** What a slot contributes, or nothing when its evidence is missing or negative. */
  function Resolve(slot: Slot, hours: real, power: real, conservative: bool): Option<Piece> {
    var pv, load := ForecastPv(slot, conservative), ForecastLoad(slot, conservative);
    if pv.None? || load.None? || slot.importPrice.None? || slot.exportPrice.None? then None
    else if pv.value < 0.0 || load.value < 0.0 || power < 0.0 then None
    else Some(Piece(hours, load.value + slot.evLoad + power - pv.value, power,
                    slot.importPrice.value, slot.exportPrice.value))
  }

  function Charge(b: Battery, stored: real, net: real, hours: real): real
    requires b.oneWay > 0.0
  {
    Min(Min(-net, Energy(b.maxCharge, hours)), Drained(Max(b.capacity - stored, 0.0), b.oneWay))
  }

  function Discharge(b: Battery, stored: real, net: real, hours: real): real {
    Min(Min(net, Energy(b.maxDischarge, hours)), Banked(Max(stored - b.Floor(), 0.0), b.oneWay))
  }

  function BatteryFlow(site: Site, stored: real, net: real, hours: real): Flow
    requires site.battery.oneWay > 0.0
  {
    if site.HasBattery() && net < 0.0 then
      var c := Charge(site.battery, stored, net, hours);
      Flow(stored + Banked(c, site.battery.oneWay), net + c)
    else if site.Discharges() then
      var d := Discharge(site.battery, stored, net, hours);
      Flow(stored - Drained(d, site.battery.oneWay), net - d)
    else
      Flow(stored, net)
  }

  function PieceFlow(site: Site, p: Piece, stored: real): Flow
    requires site.battery.oneWay > 0.0
  {
    BatteryFlow(site, stored, Energy(p.demand, p.hours), p.hours)
  }

  function Money(p: Piece, net: real): real {
    Priced(Max(net, 0.0), p.importPrice) - Priced(Max(-net, 0.0), p.exportPrice)
  }

  predicate WithinGrid(site: Site, net: real, hours: real)
    requires hours > 0.0
  {
    MeanPower(net, hours) <= site.importLimit && MeanPower(-net, hours) <= site.exportLimit
  }

  function Advance(site: Site, before: SiteCost, p: Piece): Option<SiteCost>
    requires site.battery.oneWay > 0.0 && p.hours > 0.0
  {
    var f := PieceFlow(site, p, before.stored);
    if !WithinGrid(site, f.net, p.hours) then None
    else Some(SiteCost(before.cost + Money(p, f.net), before.imported + Max(f.net, 0.0),
                       before.exported + Max(-f.net, 0.0), before.hvac + Energy(p.power, p.hours), f.stored))
  }

  ghost predicate AllPositive(ps: seq<Piece>) {
    forall k | 0 <= k < |ps| :: ps[k].hours > 0.0
  }

  ghost function Fold(site: Site, start: SiteCost, ps: seq<Piece>): Option<SiteCost>
    requires site.battery.oneWay > 0.0 && AllPositive(ps)
  {
    if |ps| == 0 then Some(start)
    else
      var prior := Fold(site, start, ps[..|ps| - 1]);
      if prior.None? then None else Advance(site, prior.value, ps[|ps| - 1])
  }

  /** Slot `i` as one valued stretch. */
  function PieceAt(site: Site, powers: seq<real>, conservative: bool, i: nat): Option<Piece>
    requires i < |powers| == |site.slots|
  {
    Resolve(site.slots[i], site.SlotHours(i), powers[i], conservative)
  }

  predicate SlotAccepted(site: Site, powers: seq<real>, conservative: bool, i: nat)
    requires i < |powers| == |site.slots|
  {
    site.SlotTimed(i) && PieceAt(site, powers, conservative, i).Some?
  }

  /** Every slot passes its own checks. */
  ghost predicate Evidenced(site: Site, powers: seq<real>, conservative: bool)
    requires |powers| == |site.slots|
  {
    forall i: nat | i < |site.slots| :: SlotAccepted(site, powers, conservative, i)
  }

  ghost function Pieces(site: Site, powers: seq<real>, conservative: bool, k: nat): (ps: seq<Piece>)
    requires |powers| == |site.slots| && k <= |powers|
    requires Evidenced(site, powers, conservative)
    ensures |ps| == k && AllPositive(ps)
    ensures forall i: nat | i < k :: Some(ps[i]) == PieceAt(site, powers, conservative, i)
  {
    if k == 0 then []
    else
      assert SlotAccepted(site, powers, conservative, k - 1);
      Pieces(site, powers, conservative, k - 1) + [PieceAt(site, powers, conservative, k - 1).value]
  }

  /** The whole valuation: nothing unless every guard of every slot holds. */
  ghost function Valuation(site: Site, powers: seq<real>, conservative: bool): Option<SiteCost>
    requires site.battery.Valid()
  {
    if !site.Admissible(|powers|) || !Evidenced(site, powers, conservative) then None
    else Fold(site, Start(site), Pieces(site, powers, conservative, |powers|))
  }

  lemma {:induction false} FoldPrefixNone(site: Site, start: SiteCost, ps: seq<Piece>, k: nat)
    requires site.battery.oneWay > 0.0 && AllPositive(ps) && k <= |ps|
    requires Fold(site, start, ps[..k]).None?
    ensures Fold(site, start, ps).None?
  {
    if k == |ps| {
      assert ps[..k] == ps;
    } else {
      assert ps[..|ps| - 1][..k] == ps[..k];
      FoldPrefixNone(site, start, ps[..|ps| - 1], k);
    }
  }

  lemma {:induction false} PiecesPrefix(site: Site, powers: seq<real>, conservative: bool, k: nat, n: nat)
    requires |powers| == |site.slots| && k <= n <= |powers|
    requires Evidenced(site, powers, conservative)
    ensures Pieces(site, powers, conservative, n)[..k] == Pieces(site, powers, conservative, k)
  {}

  /** The battery's share of one slot: charge from surplus, or discharge under self-consumption. */
  method UseBattery(site: Site, stored: real, net: real, hours: real) returns (kept: real, drawn: real)
    requires site.battery.Valid()
    ensures Flow(kept, drawn) == BatteryFlow(site, stored, net, hours)
  {
    kept, drawn := stored, net;
    if site.soc.Some? {
      if net < 0.0 {
        var charge := Charge(site.battery, stored, net, hours);
        kept := stored + Banked(charge, site.battery.oneWay);
        drawn := net + charge;
      } else if site.profile == site.selfConsumption {
        var discharge := Discharge(site.battery, stored, net, hours);
        kept := stored - Drained(discharge, site.battery.oneWay);
        drawn := net - discharge;
      }
    }
  }

  /** The valuation loop, with its early returns, computes `Valuation`. */
  method Evaluate(site: Site, powers: seq<real>, conservative: bool) returns (result: Option<SiteCost>)
    requires site.battery.Valid()
    ensures result == Valuation(site, powers, conservative)
  {
    hide Advance, Start;
    if |powers| != |site.slots| || !site.loadExcludesHvac { return None; }
    if site.batteryConfigured && site.soc.None? { return None; }
    var hasBattery := site.soc.Some?;
    if hasBattery && site.profile != site.selfConsumption && site.profile != site.fullBackup { return None; }
    if hasBattery && (site.profile.None? || site.profile.value == "" || site.battery.capacity <= 0.0) {
      return None;
    }
    var running := Start(site);
    ghost var seen: seq<Piece> := [];
    var i := 0;
    while i < |powers|
      invariant 0 <= i <= |powers| && |seen| == i && AllPositive(seen)
      invariant Seen(site, powers, conservative, seen)
      invariant Fold(site, Start(site), seen) == Some(running)
    {
      var slot, power, hours := site.slots[i], powers[i], site.SlotHours(i);
      assert SlotAccepted(site, powers, conservative, i)
        <==> site.SlotTimed(i) && Resolve(slot, hours, power, conservative).Some?;
      if hours <= 0.0 || hours - site.intervalMinutes / 60.0 > DURATION_SLACK { return None; }
      if i + 1 < |powers| && site.SlotEnd(i) != site.slots[i + 1].validAt { return None; }
      var resolved := Resolve(slot, hours, power, conservative);
      if resolved.None? { return None; }
      var p := resolved.value;
      var next := Value(site, running, p);
      FoldAppend(site, Start(site), seen, p);
      seen := seen + [p];
      if next.None? {
        RejectedHere(site, powers, conservative, seen);
        return None;
      }
      running := next.value;
      i := i + 1;
    }
    assert Evidenced(site, powers, conservative);
    assert seen == Pieces(site, powers, conservative, |powers|);
    result := Some(running);
  }

  ghost predicate Seen(site: Site, powers: seq<real>, conservative: bool, seen: seq<Piece>)
    requires |seen| <= |powers| == |site.slots|
  {
    forall k: nat | k < |seen| ::
      SlotAccepted(site, powers, conservative, k) && Some(seen[k]) == PieceAt(site, powers, conservative, k)
  }

  /** Battery, grid limits and running totals of one resolved slot. */
  method Value(site: Site, running: SiteCost, p: Piece) returns (result: Option<SiteCost>)
    requires site.battery.Valid() && p.hours > 0.0
    ensures result == Advance(site, running, p)
  {
    hide BatteryFlow, Energy, MeanPower, Priced;
    var stored, net := UseBattery(site, running.stored, Energy(p.demand, p.hours), p.hours);
    if MeanPower(net, p.hours) > site.importLimit || MeanPower(-net, p.hours) > site.exportLimit { return None; }
    var imported := running.imported + Max(net, 0.0);
    var exported := running.exported + Max(-net, 0.0);
    var hvac := running.hvac + Energy(p.power, p.hours);
    var total := running.cost + (Priced(Max(net, 0.0), p.importPrice) - Priced(Max(-net, 0.0), p.exportPrice));
    result := Some(SiteCost(total, imported, exported, hvac, stored));
  }

  lemma FoldAppend(site: Site, start: SiteCost, ps: seq<Piece>, p: Piece)
    requires site.battery.oneWay > 0.0 && AllPositive(ps) && p.hours > 0.0
    ensures AllPositive(ps + [p])
    ensures Fold(site, start, ps + [p]) ==
      if Fold(site, start, ps).None? then None else Advance(site, Fold(site, start, ps).value, p)
  {
    assert (ps + [p])[..|ps|] == ps;
  }

  lemma RejectedHere(site: Site, powers: seq<real>, conservative: bool, seen: seq<Piece>)
    requires site.battery.Valid() && |seen| <= |powers| == |site.slots| && AllPositive(seen)
    requires Seen(site, powers, conservative, seen)
    requires Fold(site, Start(site), seen).None?
    ensures Valuation(site, powers, conservative).None?
  {
    if Evidenced(site, powers, conservative) {
      var ps := Pieces(site, powers, conservative, |powers|);
      assert ps[..|seen|] == seen;
      FoldPrefixNone(site, Start(site), ps, |seen|);
    }
  }

  // ---------------------------------------------------------------- conservation and bounds

  lemma ChargeBounds(b: Battery, stored: real, net: real, hours: real)
    requires b.Valid() && hours > 0.0 && net < 0.0
    ensures var c := Charge(b, stored, net, hours);
      0.0 <= c <= -net && 0.0 <= Banked(c, b.oneWay) <= Max(b.capacity - stored, 0.0)
  {
    var room := Max(b.capacity - stored, 0.0);
    DivideScale(room, b.oneWay);
    ScaleMonotone(Charge(b, stored, net, hours), room / b.oneWay, b.oneWay);
    ScaleMonotone(0.0, hours, b.maxCharge);
  }

  lemma DischargeBounds(b: Battery, stored: real, net: real, hours: real)
    requires b.Valid() && hours > 0.0 && net >= 0.0
    ensures var d := Discharge(b, stored, net, hours);
      0.0 <= d <= net && 0.0 <= Drained(d, b.oneWay) <= Max(stored - b.Floor(), 0.0)
  {
    var spare := Max(stored - b.Floor(), 0.0);
    DivideScale(spare, b.oneWay);
    DivideMonotone(Discharge(b, stored, net, hours), spare * b.oneWay, b.oneWay);
    ScaleMonotone(0.0, hours, b.maxDischarge);
    DivideMonotone(0.0, Discharge(b, stored, net, hours), b.oneWay);
  }

  /** The battery stays in its band, and its change is what the meter did not see, less the conversion loss. */
  lemma FlowBounds(site: Site, stored: real, net: real, hours: real)
    requires site.battery.Valid() && hours > 0.0
    ensures var f, e := BatteryFlow(site, stored, net, hours), site.battery.oneWay;
      && Min(stored, site.battery.Floor()) <= f.stored <= Max(stored, site.battery.capacity)
      && (net < 0.0 ==> net <= f.net <= 0.0 && stored <= f.stored)
      && (net >= 0.0 ==> 0.0 <= f.net <= net && f.stored <= stored)
      && f.stored == stored + Banked(Max(f.net - net, 0.0), e) - Drained(Max(net - f.net, 0.0), e)
  {
    if net < 0.0 {
      ChargeBounds(site.battery, stored, net, hours);
    } else {
      DischargeBounds(site.battery, stored, net, hours);
    }
  }

  /** Net demand, charging and discharging summed over a run. */
  datatype Ledger = Ledger(demand: real, charge: real, discharge: real)

  ghost function LedgerOf(site: Site, start: SiteCost, ps: seq<Piece>): Ledger
    requires site.battery.oneWay > 0.0 && AllPositive(ps)
    requires Fold(site, start, ps).Some?
  {
    if |ps| == 0 then Ledger(0.0, 0.0, 0.0)
    else
      var last := ps[|ps| - 1];
      var prior := LedgerOf(site, start, ps[..|ps| - 1]);
      var drawn := Energy(last.demand, last.hours);
      var net := PieceFlow(site, last, Fold(site, start, ps[..|ps| - 1]).value.stored).net;
      Ledger(prior.demand + drawn, prior.charge + Max(net - drawn, 0.0), prior.discharge + Max(drawn - net, 0.0))
  }

  /** The invariant carried by every accepted run. */
  ghost predicate Balanced(site: Site, start: SiteCost, end: SiteCost, l: Ledger)
    requires site.battery.oneWay > 0.0
  {
    && Min(start.stored, site.battery.Floor()) <= end.stored <= Max(start.stored, site.battery.capacity)
    && (end.imported - start.imported) - (end.exported - start.exported) == l.demand + l.charge - l.discharge
    && end.stored == start.stored + Banked(l.charge, site.battery.oneWay) - Drained(l.discharge, site.battery.oneWay)
    && l.charge >= 0.0 && l.discharge >= 0.0
  }

  lemma BalancedAtStart(site: Site, start: SiteCost)
    requires site.battery.Valid()
    ensures Balanced(site, start, start, Ledger(0.0, 0.0, 0.0))
  {}

  lemma BalancedStep(site: Site, start: SiteCost, before: SiteCost, l: Ledger, f: Flow, drawn: real, hours: real)
    requires site.battery.Valid() && hours > 0.0
    requires Balanced(site, start, before, l) && f == BatteryFlow(site, before.stored, drawn, hours)
    ensures Balanced(site, start,
      SiteCost(0.0, before.imported + Max(f.net, 0.0), before.exported + Max(-f.net, 0.0), 0.0, f.stored),
      Ledger(l.demand + drawn, l.charge + Max(f.net - drawn, 0.0), l.discharge + Max(drawn - f.net, 0.0)))
  {
    hide BatteryFlow, Banked, Drained;
    var e := site.battery.oneWay;
    FlowBounds(site, before.stored, drawn, hours);
    ConversionAdds(l.charge, Max(f.net - drawn, 0.0), e);
    ConversionAdds(l.discharge, Max(drawn - f.net, 0.0), e);
  }

  /**
   Over any accepted run: the battery stays in its band, grid exchange balances demand and battery use, and
   the stored energy is the start plus the efficiency-weighted charge less the efficiency-weighted discharge.
   */
  lemma {:induction false} RunConserves(site: Site, start: SiteCost, ps: seq<Piece>)
    requires site.battery.Valid() && AllPositive(ps)
    requires Fold(site, start, ps).Some?
    ensures Balanced(site, start, Fold(site, start, ps).value, LedgerOf(site, start, ps))
  {
    hide BatteryFlow, Energy, MeanPower, Priced, Banked, Drained;
    if |ps| == 0 {
      BalancedAtStart(site, start);
    } else {
      var init, last := ps[..|ps| - 1], ps[|ps| - 1];
      RunConserves(site, start, init);
      var before := Fold(site, start, init).value;
      BalancedStep(site, start, before, LedgerOf(site, start, init), PieceFlow(site, last, before.stored),
                   Energy(last.demand, last.hours), last.hours);
    }
  }

  /** Main result for an accepted valuation started anywhere in [0, capacity]: it holds after every slot. */
  lemma ValuationConserves(site: Site, powers: seq<real>, conservative: bool, k: nat)
    requires site.battery.Valid() && k <= |powers|
    requires Valuation(site, powers, conservative).Some?
    requires 0.0 <= site.InitialStored() <= site.battery.capacity
    ensures var ps := Pieces(site, powers, conservative, k);
      && Fold(site, Start(site), ps).Some?
      && var at, l := Fold(site, Start(site), ps).value, LedgerOf(site, Start(site), ps);
      && Min(site.InitialStored(), site.battery.Floor()) <= at.stored <= site.battery.capacity
      && at.imported - at.exported == l.demand + l.charge - l.discharge
      && at.stored == site.InitialStored() + Banked(l.charge, site.battery.oneWay) - Drained(l.discharge, site.battery.oneWay)
  {
    hide Advance, Banked, Drained;
    var all := Pieces(site, powers, conservative, |powers|);
    var ps := Pieces(site, powers, conservative, k);
    PiecesPrefix(site, powers, conservative, k, |powers|);
    if Fold(site, Start(site), ps).None? { FoldPrefixNone(site, Start(site), all, k); }
    RunConserves(site, Start(site), ps);
  }
}
