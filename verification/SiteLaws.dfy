/**
 What a valuation promises, stated on the site's own fields and the meter alone: each slot settles its demand through
 a battery that takes all it can of a surplus and, under self-consumption only, gives all it can to a demand. The
 valuation loop returns a result exactly when the slots can be settled one after the other.
 */
module SiteLaws {
  import opened Common
  import opened SiteEnergy

  // ---------------------------------------------------------------- one slot, declaratively

  /** `c` sent to the battery fills it from `stored` to `left`: no more than the surplus, the rate and the room allow,
      and nothing less. */
  ghost predicate TakesAll(b: Battery, stored: real, left: real, demand: real, hours: real, c: real) {
    && 0.0 <= c <= -demand && c <= b.maxCharge * hours && left <= Max(b.capacity, stored)
    && (c == -demand || c == b.maxCharge * hours || left >= b.capacity)
  }

  /** `d` drawn from the battery empties it from `stored` to `left`: no more than the demand, the rate and the reserve
      allow, and nothing less. */
  ghost predicate GivesAll(b: Battery, stored: real, left: real, demand: real, hours: real, d: real) {
    var floor := b.capacity * b.reservePercent / 100.0;
    && 0.0 <= d <= demand && d <= b.maxDischarge * hours && left >= Min(floor, stored)
    && (d == demand || d == b.maxDischarge * hours || left <= floor)
  }

  /** The battery between two instants: `demand` before it, `net` at the meter, `stored` to `left` inside. */
  ghost predicate BatteryServes(site: Site, stored: real, left: real, demand: real, net: real, hours: real)
    requires site.battery.oneWay > 0.0
  {
    var b := site.battery;
    if site.soc.None? then
      left == stored && net == demand
    else if demand < 0.0 then
      left == stored + (net - demand) * b.oneWay && TakesAll(b, stored, left, demand, hours, net - demand)
    else if site.profile != site.selfConsumption then
      left == stored && net == demand
    else
      stored == left + (demand - net) / b.oneWay && GivesAll(b, stored, left, demand, hours, demand - net)
  }

  /** The meter between two instants, within the grid limits. */
  ghost predicate MeterShows(site: Site, s: SiteCost, t: SiteCost, net: real, power: real, hours: real, buy: real, sell: real)
  {
    && t.imported == s.imported + Max(net, 0.0) && t.exported == s.exported + Max(-net, 0.0)
    && t.hvac == s.hvac + power * hours
    && t.cost == s.cost + Max(net, 0.0) * buy - Max(-net, 0.0) * sell
    && net <= site.importLimit * hours && -net <= site.exportLimit * hours
  }

  /** A slot's end: its own, the next slot's start, or one interval on. */
  ghost function EndOf(site: Site, i: nat): int
    requires i < |site.slots|
  {
    var slot := site.slots[i];
    if slot.endAt.Some? then slot.endAt.value
    else if i + 1 < |site.slots| then site.slots[i + 1].validAt
    else slot.validAt + (site.intervalMinutes * 60_000_000.0).Floor
  }

  /** What a slot forecasts; a conservative run takes the lower solar and the upper load bound where there is one. */
  ghost predicate Forecasts(slot: Slot, conservative: bool, pv: Option<real>, load: Option<real>) {
    && pv == (if conservative && slot.pvLower.Some? then slot.pvLower else slot.pv)
    && load == (if conservative && slot.loadUpper.Some? then slot.loadUpper else slot.load)
  }

  /** Household, vehicle and intervention, less the sun, over `hours`. */
  ghost function Demanded(slot: Slot, load: real, pv: real, power: real, hours: real): real {
    (load + slot.evLoad + power - pv) * hours
  }

  /** Slot `i` under `power`, from `s` to `t`: timely, evidenced, and settled by battery and meter. */
  ghost predicate SlotSettles(site: Site, i: nat, power: real, conservative: bool, s: SiteCost, t: SiteCost)
    requires i < |site.slots| && site.battery.oneWay > 0.0
  {
    var slot := site.slots[i];
    var hours := (EndOf(site, i) - slot.validAt) as real / 3_600_000_000.0;
    && 0.0 < hours <= site.intervalMinutes / 60.0 + 0.000001
    && (i + 1 < |site.slots| ==> EndOf(site, i) == site.slots[i + 1].validAt)
    && exists pv: real, load: real ::
         && Forecasts(slot, conservative, Some(pv), Some(load)) && slot.importPrice.Some? && slot.exportPrice.Some?
         && pv >= 0.0 && load >= 0.0 && power >= 0.0
         && var demand := Demanded(slot, load, pv, power, hours);
            var net := (t.imported - s.imported) - (t.exported - s.exported);
            && BatteryServes(site, s.stored, t.stored, demand, net, hours)
            && MeterShows(site, s, t, net, power, hours, slot.importPrice.value, slot.exportPrice.value)
  }

  /** The site can be valued at all. */
  ghost predicate Eligible(site: Site, count: nat) {
    && count == |site.slots| && site.loadExcludesHvac && (site.batteryConfigured ==> site.soc.Some?)
    && (site.soc.Some? ==>
          && site.profile.Some? && site.profile.value != "" && site.battery.capacity > 0.0
          && site.profile in {site.selfConsumption, site.fullBackup})
  }

  /** States of meter and battery before the first slot and after each. */
  ghost predicate Settles(site: Site, powers: seq<real>, conservative: bool, states: seq<SiteCost>)
    requires |powers| == |site.slots| && site.battery.oneWay > 0.0
  {
    && |states| == |powers| + 1
    && states[0] == SiteCost(0.0, 0.0, 0.0, 0.0,
                             site.battery.capacity * (if site.soc.Some? then site.soc.value else 0.0) / 100.0)
    && forall i: nat | i < |powers| :: SlotSettles(site, i, powers[i], conservative, states[i], states[i + 1])
  }

  // ---------------------------------------------------------------- the battery is determined

  lemma ScaledBelow(c: real, room: real, e: real)
    requires e > 0.0
    ensures c <= room / e <==> c * e <= room
    ensures c == room / e <==> c * e == room
  {
    DivideScale(room, e);
    if c <= room / e { ScaleMonotone(c, room / e, e); }
    if c * e <= room { DivideMonotone(c * e, room, e); DivideScale(c, e); }
  }

  lemma ChargesExactly(b: Battery, stored: real, demand: real, hours: real, c: real)
    requires b.Valid() && hours > 0.0 && demand < 0.0
    ensures c == Charge(b, stored, demand, hours) <==> TakesAll(b, stored, stored + c * b.oneWay, demand, hours, c)
  {
    var room := Max(b.capacity - stored, 0.0);
    ScaledBelow(c, room, b.oneWay);
    ScaleMonotone(0.0, hours, b.maxCharge);
    DivideScale(room, b.oneWay);
    if 0.0 <= c { ScaleMonotone(0.0, c, b.oneWay); }
    hide Battery.Valid;
  }

  lemma DischargesExactly(b: Battery, stored: real, demand: real, hours: real, d: real)
    requires b.Valid() && hours > 0.0 && demand >= 0.0
    ensures d == Discharge(b, stored, demand, hours) <==> GivesAll(b, stored, stored - d / b.oneWay, demand, hours, d)
  {
    var spare := Max(stored - b.Floor(), 0.0);
    DrawnBelow(d, spare, b.oneWay);
    ScaleMonotone(0.0, hours, b.maxDischarge);
    DivideScale(spare, b.oneWay);
    hide Battery.Valid, Battery.Floor;
  }

  lemma DrawnBelow(d: real, spare: real, e: real)
    requires e > 0.0
    ensures d <= spare * e <==> d / e <= spare
    ensures d == spare * e <==> d / e == spare
    ensures d >= 0.0 ==> d / e >= 0.0
  {
    DivideScale(d, e);
    DivideScale(spare, e);
    if d <= spare * e { DivideMonotone(d, spare * e, e); }
    if d / e <= spare { ScaleMonotone(d / e, spare, e); }
    if d >= 0.0 { DivideMonotone(0.0, d, e); }
  }

  lemma ChargingServes(site: Site, stored: real, left: real, demand: real, net: real, hours: real)
    requires site.battery.Valid() && hours > 0.0 && site.soc.Some? && demand < 0.0
    ensures BatteryServes(site, stored, left, demand, net, hours) <==>
      BatteryFlow(site, stored, demand, hours) == Flow(left, net)
  {
    hide Charge, Banked, TakesAll;
    var b, c := site.battery, net - demand;
    Efficient(b);
    hide Battery.Valid;
    TakesExactly(b, stored, left, demand, hours, c);
    Multiplies(c, b.oneWay);
    assert net == demand + c;
  }

  lemma TakesExactly(b: Battery, stored: real, left: real, demand: real, hours: real, c: real)
    requires b.Valid() && hours > 0.0 && demand < 0.0
    ensures left == stored + Banked(c, b.oneWay) ==>
      (TakesAll(b, stored, left, demand, hours, c) <==> c == Charge(b, stored, demand, hours))
  {
    hide Charge, TakesAll, Battery.Valid, Banked;
    ChargesExactly(b, stored, demand, hours, c);
    Multiplies(c, b.oneWay);
    if left == stored + Banked(c, b.oneWay) { assert left == stored + c * b.oneWay; }
  }

  lemma Multiplies(c: real, e: real)
    ensures Banked(c, e) == c * e
  {}

  lemma DischargingServes(site: Site, stored: real, left: real, demand: real, net: real, hours: real)
    requires site.battery.Valid() && hours > 0.0 && site.soc.Some? && demand >= 0.0
    requires site.profile == site.selfConsumption
    ensures BatteryServes(site, stored, left, demand, net, hours) <==>
      BatteryFlow(site, stored, demand, hours) == Flow(left, net)
  {
    var b := site.battery;
    DischargesExactly(b, stored, demand, hours, demand - net);
    Divides(demand - net, b.oneWay);
    hide Battery.Valid, Discharge, Drained, GivesAll;
  }

  lemma Divides(d: real, e: real)
    requires e > 0.0
    ensures Drained(d, e) == d / e
  {}

  /** The declarative battery is the one of the flow function. */
  lemma FlowServes(site: Site, stored: real, left: real, demand: real, net: real, hours: real)
    requires site.battery.Valid() && hours > 0.0
    ensures BatteryServes(site, stored, left, demand, net, hours) <==>
      BatteryFlow(site, stored, demand, hours) == Flow(left, net)
  {
    if site.soc.Some? && demand < 0.0 {
      ChargingServes(site, stored, left, demand, net, hours);
    } else if site.soc.Some? && site.profile == site.selfConsumption {
      DischargingServes(site, stored, left, demand, net, hours);
    }
  }

  // ---------------------------------------------------------------- one slot is one step

  lemma LimitsHold(site: Site, net: real, hours: real)
    requires hours > 0.0
    ensures WithinGrid(site, net, hours) <==> net <= site.importLimit * hours && -net <= site.exportLimit * hours
  {
    PerHour(net, site.importLimit, hours);
    PerHour(-net, site.exportLimit, hours);
  }

  lemma PerHour(kwh: real, limit: real, hours: real)
    requires hours > 0.0
    ensures MeanPower(kwh, hours) <= limit <==> kwh <= limit * hours
  {
    DivideScale(kwh, hours);
    DivideScale(limit, hours);
    if kwh <= limit * hours { DivideMonotone(kwh, limit * hours, hours); }
    if kwh / hours <= limit { ScaleMonotone(kwh / hours, limit, hours); }
  }

  lemma NetOf(net: real)
    ensures Max(net, 0.0) - Max(-net, 0.0) == net
  {}

  /** Meter and totals after `net` was drawn during `p`. */
  ghost predicate Metered(site: Site, s: SiteCost, t: SiteCost, net: real, p: Piece)
    requires p.hours > 0.0
  {
    WithinGrid(site, net, p.hours)
    && t == SiteCost(s.cost + Money(p, net), s.imported + Max(net, 0.0), s.exported + Max(-net, 0.0),
                     s.hvac + Energy(p.power, p.hours), t.stored)
  }

  lemma MeterIs(site: Site, s: SiteCost, t: SiteCost, net: real, p: Piece)
    requires p.hours > 0.0
    ensures MeterShows(site, s, t, net, p.power, p.hours, p.importPrice, p.exportPrice) <==> Metered(site, s, t, net, p)
  {
    Products(p, net);
    LimitsHold(site, net, p.hours);
    hide WithinGrid, Energy, Money, Priced, Max;
  }

  lemma StepIs(site: Site, s: SiteCost, t: SiteCost, p: Piece)
    requires site.battery.oneWay > 0.0 && p.hours > 0.0
    ensures var net := (t.imported - s.imported) - (t.exported - s.exported);
      Advance(site, s, p) == Some(t) <==> PieceFlow(site, p, s.stored) == Flow(t.stored, net) && Metered(site, s, t, net, p)
  {
    hide PieceFlow, WithinGrid, Money, Energy, Max;
    NetOf(PieceFlow(site, p, s.stored).net);
  }

  /** One step by the meter's account of it. */
  lemma StepShows(site: Site, s: SiteCost, t: SiteCost, p: Piece)
    requires site.battery.Valid() && p.hours > 0.0
    ensures site.battery.oneWay > 0.0
    ensures var net := (t.imported - s.imported) - (t.exported - s.exported);
      Advance(site, s, p) == Some(t) <==>
        && BatteryServes(site, s.stored, t.stored, Energy(p.demand, p.hours), net, p.hours)
        && MeterShows(site, s, t, net, p.power, p.hours, p.importPrice, p.exportPrice)
  {
    Efficient(site.battery);
    var net := (t.imported - s.imported) - (t.exported - s.exported);
    hide Battery.Valid, BatteryFlow, BatteryServes, MeterShows, Metered, Energy, Advance;
    FlowServes(site, s.stored, t.stored, Energy(p.demand, p.hours), net, p.hours);
    MeterIs(site, s, t, net, p);
    StepIs(site, s, t, p);
  }

  lemma Products(p: Piece, net: real)
    ensures Money(p, net) == Max(net, 0.0) * p.importPrice - Max(-net, 0.0) * p.exportPrice
    ensures Energy(p.power, p.hours) == p.power * p.hours && Energy(p.demand, p.hours) == p.demand * p.hours
  {}

  lemma ResolvedIs(slot: Slot, hours: real, power: real, conservative: bool, pv: real, load: real)
    requires Forecasts(slot, conservative, Some(pv), Some(load))
    ensures var r := Resolve(slot, hours, power, conservative);
      && (r.Some? <==> slot.importPrice.Some? && slot.exportPrice.Some? && pv >= 0.0 && load >= 0.0 && power >= 0.0)
      && (r.Some? ==>
            && r.value.hours == hours && r.value.power == power && Some(r.value.importPrice) == slot.importPrice
            && Some(r.value.exportPrice) == slot.exportPrice
            && Energy(r.value.demand, hours) == Demanded(slot, load, pv, power, hours))
  {}

  lemma UnresolvedIs(slot: Slot, hours: real, power: real, conservative: bool)
    ensures Resolve(slot, hours, power, conservative).Some? ==>
      exists pv: real, load: real :: Forecasts(slot, conservative, Some(pv), Some(load))
  {
    var pv, load := ForecastPv(slot, conservative), ForecastLoad(slot, conservative);
    if pv.Some? && load.Some? { assert Forecasts(slot, conservative, Some(pv.value), Some(load.value)); }
  }

  lemma SlotIsStep(site: Site, powers: seq<real>, conservative: bool, i: nat, s: SiteCost, t: SiteCost)
    requires site.battery.Valid() && i < |powers| == |site.slots|
    ensures site.battery.oneWay > 0.0
    ensures SlotSettles(site, i, powers[i], conservative, s, t) <==>
      && SlotAccepted(site, powers, conservative, i)
      && site.SlotHours(i) > 0.0 && Advance(site, s, PieceAt(site, powers, conservative, i).value) == Some(t)
  {
    Efficient(site.battery);
    SlotTimes(site, i);
    var slot, hours := site.slots[i], site.SlotHours(i);
    hide Battery.Valid, Advance, BatteryServes, MeterShows, EndOf, Site.SlotEnd, Site.SlotTimed, Site.SlotHours, Energy;
    hide Resolve, Demanded;
    UnresolvedIs(slot, hours, powers[i], conservative);
    if pv: real, load: real :| Forecasts(slot, conservative, Some(pv), Some(load)) {
      ResolvedIs(slot, hours, powers[i], conservative, pv, load);
      if hours > 0.0 && PieceAt(site, powers, conservative, i).Some? {
        StepShows(site, s, t, PieceAt(site, powers, conservative, i).value);
      }
    }
  }

  lemma SlotTimes(site: Site, i: nat)
    requires i < |site.slots|
    ensures site.SlotHours(i) == (EndOf(site, i) - site.slots[i].validAt) as real / 3_600_000_000.0
    ensures site.SlotTimed(i) <==>
      && 0.0 < site.SlotHours(i) <= site.intervalMinutes / 60.0 + 0.000001
      && (i + 1 < |site.slots| ==> EndOf(site, i) == site.slots[i + 1].validAt)
  {}

  // ---------------------------------------------------------------- the whole valuation

  lemma EligibleIs(site: Site, count: nat)
    ensures site.Admissible(count) <==> Eligible(site, count)
  {}

  lemma {:induction false} SettledRun(site: Site, powers: seq<real>, conservative: bool, states: seq<SiteCost>, k: nat)
    requires site.battery.Valid() && |powers| == |site.slots| && k <= |powers|
    requires Evidenced(site, powers, conservative) && Settles(site, powers, conservative, states)
    ensures Fold(site, Start(site), Pieces(site, powers, conservative, k)) == Some(states[k])
  {
    Efficient(site.battery);
    hide Battery.Valid, SlotSettles, Advance, Fold, Pieces;
    if k == 0 {
      NothingYet(site, powers, conservative);
      assert states[k] == Start(site);
    } else {
      SettledRun(site, powers, conservative, states, k - 1);
      assert SlotSettles(site, k - 1, powers[k - 1], conservative, states[k - 1], states[k]);
      SlotIsStep(site, powers, conservative, k - 1, states[k - 1], states[k]);
      LastStep(site, powers, conservative, k);
    }
  }

  /** The last of some steps. */
  lemma LastStep(site: Site, powers: seq<real>, conservative: bool, k: nat)
    requires site.battery.oneWay > 0.0 && 0 < k <= |powers| == |site.slots| && Evidenced(site, powers, conservative)
    ensures SlotAccepted(site, powers, conservative, k - 1) && site.SlotHours(k - 1) > 0.0
    ensures PieceAt(site, powers, conservative, k - 1).Some? && PieceAt(site, powers, conservative, k - 1).value.hours > 0.0
    ensures var before := Fold(site, Start(site), Pieces(site, powers, conservative, k - 1));
      Fold(site, Start(site), Pieces(site, powers, conservative, k)) ==
        if before.None? then None else Advance(site, before.value, PieceAt(site, powers, conservative, k - 1).value)
  {
    hide Advance, Start;
    assert SlotAccepted(site, powers, conservative, k - 1);
    var ps := Pieces(site, powers, conservative, k);
    assert ps[..k - 1] == Pieces(site, powers, conservative, k - 1);
  }

  lemma SettledIsEvidenced(site: Site, powers: seq<real>, conservative: bool, states: seq<SiteCost>)
    requires site.battery.Valid() && |powers| == |site.slots| && Settles(site, powers, conservative, states)
    ensures Evidenced(site, powers, conservative)
  {
    hide Battery.Valid, SlotSettles, SlotAccepted, Advance;
    forall i: nat | i < |powers| ensures SlotAccepted(site, powers, conservative, i) {
      SlotIsStep(site, powers, conservative, i, states[i], states[i + 1]);
    }
  }

  /** The states through which an accepted valuation passes. */
  ghost function StatesOf(site: Site, powers: seq<real>, conservative: bool): (r: seq<SiteCost>)
    requires site.battery.Valid() && Valuation(site, powers, conservative).Some?
    ensures |r| == |powers| + 1
  {
    seq(|powers| + 1, k requires 0 <= k <= |powers| =>
      var at := Fold(site, Start(site), Pieces(site, powers, conservative, k));
      if at.Some? then at.value else Start(site))
  }

  lemma ValuedSettles(site: Site, powers: seq<real>, conservative: bool)
    requires site.battery.Valid() && Valuation(site, powers, conservative).Some?
    ensures |powers| == |site.slots| && Settles(site, powers, conservative, StatesOf(site, powers, conservative))
    ensures Some(StatesOf(site, powers, conservative)[|powers|]) == Valuation(site, powers, conservative)
  {
    hide Battery.Valid, SlotSettles, Advance, Fold, Pieces;
    assert site.battery.oneWay > 0.0 by { Efficient(site.battery); }
    var states := StatesOf(site, powers, conservative);
    forall k: nat | k <= |powers|
      ensures Fold(site, Start(site), Pieces(site, powers, conservative, k)) == Some(states[k])
    {
      PassedBefore(site, powers, conservative, k);
    }
    forall i: nat | i < |powers| ensures SlotSettles(site, i, powers[i], conservative, states[i], states[i + 1]) {
      LastStep(site, powers, conservative, i + 1);
      SlotIsStep(site, powers, conservative, i, states[i], states[i + 1]);
    }
    NothingYet(site, powers, conservative);
  }

  lemma Efficient(b: Battery)
    requires b.Valid()
    ensures b.oneWay > 0.0
  {}

  lemma NothingYet(site: Site, powers: seq<real>, conservative: bool)
    requires site.battery.oneWay > 0.0 && |powers| == |site.slots| && Evidenced(site, powers, conservative)
    ensures Fold(site, Start(site), Pieces(site, powers, conservative, 0)) == Some(Start(site))
    ensures Start(site) == SiteCost(0.0, 0.0, 0.0, 0.0,
                                    site.battery.capacity * (if site.soc.Some? then site.soc.value else 0.0) / 100.0)
  {}

  lemma PassedBefore(site: Site, powers: seq<real>, conservative: bool, k: nat)
    requires site.battery.Valid() && Valuation(site, powers, conservative).Some? && k <= |powers|
    ensures Fold(site, Start(site), Pieces(site, powers, conservative, k)).Some?
  {
    hide Fold, Start;
    var ps := Pieces(site, powers, conservative, |powers|);
    PiecesPrefix(site, powers, conservative, k, |powers|);
    if Fold(site, Start(site), ps[..k]).None? { FoldPrefixNone(site, Start(site), ps, k); }
  }

  ghost function Final(states: seq<SiteCost>): Option<SiteCost> {
    if |states| == 0 then None else Some(states[|states| - 1])
  }

  lemma Lengths(site: Site, powers: seq<real>, conservative: bool, states: seq<SiteCost>)
    requires |powers| == |site.slots| && site.battery.oneWay > 0.0 && Settles(site, powers, conservative, states)
    ensures |states| == |powers| + 1
  {}

  /** A valuation exists, with this result, exactly when the site is eligible and its slots settle to it. */
  lemma ValuedExactly(site: Site, powers: seq<real>, conservative: bool, r: SiteCost)
    requires site.battery.Valid()
    ensures Valuation(site, powers, conservative) == Some(r) <==>
      && Eligible(site, |powers|)
      && exists states: seq<SiteCost> :: Settles(site, powers, conservative, states) && Some(r) == Final(states)
  {
    hide Battery.Valid, Fold, Pieces, SlotSettles, Start, Settles;
    EligibleIs(site, |powers|);
    Efficient(site.battery);
    if Valuation(site, powers, conservative) == Some(r) {
      ValuedSettles(site, powers, conservative);
    } else if Eligible(site, |powers|) {
      if states: seq<SiteCost> :| Settles(site, powers, conservative, states) && Some(r) == Final(states) {
        Lengths(site, powers, conservative, states);
        SettledIsEvidenced(site, powers, conservative, states);
        SettledRun(site, powers, conservative, states, |powers|);
      }
    }
  }

  // ---------------------------------------------------------------- the two battery policies

  lemma SlotOf(site: Site, powers: seq<real>, conservative: bool, i: nat)
    requires site.battery.Valid() && Valuation(site, powers, conservative).Some? && i < |powers|
    ensures |powers| == |site.slots| && site.battery.oneWay > 0.0
    ensures var states := StatesOf(site, powers, conservative);
      SlotSettles(site, i, powers[i], conservative, states[i], states[i + 1])
  {
    Efficient(site.battery);
    hide SlotSettles, Battery.Valid, Valuation, StatesOf;
    ValuedSettles(site, powers, conservative);
  }

  lemma Retains(site: Site, stored: real, left: real, demand: real, net: real, hours: real)
    requires site.battery.oneWay > 0.0 && BatteryServes(site, stored, left, demand, net, hours)
    requires site.profile != site.selfConsumption
    ensures stored <= left
  {
    if site.soc.Some? && demand < 0.0 { Grows(stored, left, net - demand, site.battery.oneWay); }
  }

  lemma Grows(stored: real, left: real, c: real, e: real)
    requires left == stored + c * e && c >= 0.0 && e > 0.0
    ensures stored <= left
  {
    ScaleMonotone(0.0, c, e);
  }

  /** Full backup holds the battery: over any accepted valuation it is never discharged. */
  lemma {:induction false} BackupHolds(site: Site, powers: seq<real>, conservative: bool, j: nat, k: nat)
    requires site.battery.Valid() && Valuation(site, powers, conservative).Some? && j <= k <= |powers|
    requires site.profile == site.fullBackup && site.profile != site.selfConsumption
    ensures StatesOf(site, powers, conservative)[j].stored <= StatesOf(site, powers, conservative)[k].stored
  {
    hide Battery.Valid, Valuation, StatesOf, BatteryServes, MeterShows, EndOf, Forecasts, Demanded;
    if j < k {
      BackupHolds(site, powers, conservative, j, k - 1);
      SlotOf(site, powers, conservative, k - 1);
      SlotRetains(site, k - 1, powers[k - 1], conservative, StatesOf(site, powers, conservative)[k - 1],
                  StatesOf(site, powers, conservative)[k]);
    }
  }

  lemma SlotRetains(site: Site, i: nat, power: real, conservative: bool, s: SiteCost, t: SiteCost)
    requires i < |site.slots| && site.battery.oneWay > 0.0 && SlotSettles(site, i, power, conservative, s, t)
    requires site.profile != site.selfConsumption
    ensures s.stored <= t.stored
  {
    hide BatteryServes, MeterShows, EndOf;
    var slot := site.slots[i];
    var hours := (EndOf(site, i) - slot.validAt) as real / 3_600_000_000.0;
    var net := (t.imported - s.imported) - (t.exported - s.exported);
    var pv: real, load: real :|
      && Forecasts(slot, conservative, Some(pv), Some(load))
      && BatteryServes(site, s.stored, t.stored, Demanded(slot, load, pv, power, hours), net, hours);
    Retains(site, s.stored, t.stored, Demanded(slot, load, pv, power, hours), net, hours);
  }

  lemma Supplies(site: Site, stored: real, left: real, demand: real, net: real, hours: real)
    requires site.battery.Valid() && hours > 0.0 && BatteryServes(site, stored, left, demand, net, hours)
    requires site.soc.Some? && site.profile == site.selfConsumption && demand > 0.0
    requires site.battery.maxDischarge > 0.0 && stored > site.battery.capacity * site.battery.reservePercent / 100.0
    ensures 0.0 <= net < demand && left < stored
  {
    var d := demand - net;
    DrawnBelow(d, stored - left, site.battery.oneWay);
    DrawnBelow(0.0, 0.0, site.battery.oneWay);
    PositiveProduct(site.battery.maxDischarge, hours);
    if d > 0.0 { Quotients(d, site.battery.oneWay); }
  }

  lemma PositiveProduct(a: real, b: real)
    requires a > 0.0 && b > 0.0
    ensures a * b > 0.0
  {}

  lemma Quotients(a: real, b: real)
    requires a > 0.0 && b > 0.0
    ensures a / b > 0.0
  {}

  /** Self-consumption serves the house: with energy above the reserve, a demand is not drawn from the grid in full. */
  lemma SelfConsumptionSupplies(site: Site, powers: seq<real>, conservative: bool, i: nat, pv: real, load: real)
    requires site.battery.Valid() && Valuation(site, powers, conservative).Some? && i < |powers| == |site.slots|
    requires site.soc.Some? && site.profile == site.selfConsumption && site.battery.maxDischarge > 0.0
    requires Forecasts(site.slots[i], conservative, Some(pv), Some(load))
    requires load + site.slots[i].evLoad + powers[i] - pv > 0.0
    requires StatesOf(site, powers, conservative)[i].stored
      > site.battery.capacity * site.battery.reservePercent / 100.0
    ensures var s, t := StatesOf(site, powers, conservative)[i], StatesOf(site, powers, conservative)[i + 1];
      var hours := (EndOf(site, i) - site.slots[i].validAt) as real / 3_600_000_000.0;
      t.imported - s.imported < Demanded(site.slots[i], load, pv, powers[i], hours) && t.stored < s.stored
  {
    hide Valuation, StatesOf, BatteryServes, EndOf, Battery.Valid;
    SlotOf(site, powers, conservative, i);
    var s, t := StatesOf(site, powers, conservative)[i], StatesOf(site, powers, conservative)[i + 1];
    SlotSupplies(site, i, powers[i], conservative, s, t, pv, load);
  }

  lemma SlotSupplies(site: Site, i: nat, power: real, conservative: bool, s: SiteCost, t: SiteCost, pv: real, load: real)
    requires i < |site.slots| && site.battery.Valid() && site.battery.oneWay > 0.0
    requires SlotSettles(site, i, power, conservative, s, t)
    requires site.soc.Some? && site.profile == site.selfConsumption && site.battery.maxDischarge > 0.0
    requires Forecasts(site.slots[i], conservative, Some(pv), Some(load))
    requires load + site.slots[i].evLoad + power - pv > 0.0
    requires s.stored > site.battery.capacity * site.battery.reservePercent / 100.0
    ensures var hours := (EndOf(site, i) - site.slots[i].validAt) as real / 3_600_000_000.0;
      t.imported - s.imported < Demanded(site.slots[i], load, pv, power, hours) && t.stored < s.stored
  {
    hide BatteryServes, EndOf, Battery.Valid;
    var slot := site.slots[i];
    var hours := (EndOf(site, i) - slot.validAt) as real / 3_600_000_000.0;
    var net := (t.imported - s.imported) - (t.exported - s.exported);
    PositiveProduct(load + slot.evLoad + power - pv, hours);
    Supplies(site, s.stored, t.stored, Demanded(slot, load, pv, power, hours), net, hours);
  }
}
