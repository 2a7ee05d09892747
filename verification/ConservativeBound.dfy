/**
 The conservative comparison brackets a saving with four valuations. Demand is a monotone lever on the site:
 more of it never leaves more in the battery and never draws less from the grid. Hence any household that
 stays between the brackets is itself valued, keeps the battery promise, and - exactly for tariffs whose
 prices do not mix signs - saves at least the claimed amount.
 */
module ConservativeBound {
  import opened Common
  import opened SiteEnergy

  const TERMINAL_TOLERANCE := 0.01

  // ---------------------------------------------------------------- the comparison

  function LowerBaseline(powers: seq<real>, error: real): (r: seq<real>)
    ensures |r| == |powers|
  {
    seq(|powers|, i requires 0 <= i < |powers| => Energy(powers[i], Max(0.0, 1.0 - error)))
  }

  function UpperBaseline(powers: seq<real>, error: real): (r: seq<real>)
    ensures |r| == |powers|
  {
    seq(|powers|, i requires 0 <= i < |powers| => Energy(powers[i], 1.0 + error))
  }

  datatype Bound = Bound(saving: real, batteryKept: bool)

  ghost function Comparison(site: Site, baseline: seq<real>, error: real, high: seq<real>, low: seq<real>):
      Option<Bound>
    requires site.battery.Valid()
  {
    var b0, b1 := Valuation(site, LowerBaseline(baseline, error), true),
                  Valuation(site, UpperBaseline(baseline, error), true);
    var c0, c1 := Valuation(site, high, true), Valuation(site, low, true);
    if b0.None? || b1.None? || c0.None? || c1.None? then None
    else Some(Bound(Min(b0.value.cost, b1.value.cost) - Max(c0.value.cost, c1.value.cost),
                    Min(c0.value.stored, c1.value.stored) + TERMINAL_TOLERANCE
                      >= Max(b0.value.stored, b1.value.stored)))
  }

  method Compare(site: Site, baseline: seq<real>, error: real, high: seq<real>, low: seq<real>)
    returns (r: Option<Bound>)
    requires site.battery.Valid()
    ensures r == Comparison(site, baseline, error, high, low)
  {
    hide Valuation;
    var b0 := Evaluate(site, LowerBaseline(baseline, error), true);
    var b1 := Evaluate(site, UpperBaseline(baseline, error), true);
    var c0 := Evaluate(site, high, true);
    var c1 := Evaluate(site, low, true);
    if b0.None? || b1.None? || c0.None? || c1.None? { return None; }
    r := Some(Bound(Min(b0.value.cost, b1.value.cost) - Max(c0.value.cost, c1.value.cost),
                    Min(c0.value.stored, c1.value.stored) + TERMINAL_TOLERANCE
                      >= Max(b0.value.stored, b1.value.stored)));
  }

  /** `powers` lies slot by slot between two ordered vectors. */
  ghost predicate Between(low: seq<real>, powers: seq<real>, high: seq<real>) {
    |low| == |powers| == |high| && forall i | 0 <= i < |powers| :: low[i] <= powers[i] <= high[i]
  }

  // ---------------------------------------------------------------- one stretch is monotone in demand

  lemma BankedMonotone(a: real, b: real, e: real)
    requires a <= b && e > 0.0
    ensures Banked(a, e) <= Banked(b, e)
    ensures Drained(a, e) <= Drained(b, e)
  {
    ScaleMonotone(a, b, e);
    DivideMonotone(a, b, e);
  }

  /** Charging written as a race between surplus, rate and room. */
  lemma ChargeForm(b: Battery, stored: real, net: real, hours: real)
    requires b.Valid()
    ensures var c, e := Charge(b, stored, net, hours), b.oneWay;
      && stored + Banked(c, e) == Min(Min(stored + Banked(-net, e), stored + Banked(Energy(b.maxCharge, hours), e)),
                                      Max(b.capacity, stored))
      && net + c == Min(Min(0.0, net + Energy(b.maxCharge, hours)), net + Drained(Max(b.capacity - stored, 0.0), e))
  {
    hide Energy;
    var e, rate, room := b.oneWay, Energy(b.maxCharge, hours), Max(b.capacity - stored, 0.0);
    DivideScale(room, e);
    assert Banked(Drained(room, e), e) == room;
    MinBanked(-net, rate, Drained(room, e), e);
  }

  lemma MinBanked(a: real, b: real, c: real, e: real)
    requires e > 0.0
    ensures Banked(Min(Min(a, b), c), e) == Min(Min(Banked(a, e), Banked(b, e)), Banked(c, e))
    ensures Drained(Min(Min(a, b), c), e) == Min(Min(Drained(a, e), Drained(b, e)), Drained(c, e))
  {
    hide Banked, Drained;
    if a <= b { BankedMonotone(a, b, e); } else { BankedMonotone(b, a, e); }
    var m := Min(a, b);
    if m <= c { BankedMonotone(m, c, e); } else { BankedMonotone(c, m, e); }
  }

  /** Discharging written as a race between demand, rate and reserve. */
  lemma DischargeForm(b: Battery, stored: real, net: real, hours: real)
    requires b.Valid()
    ensures var d, e := Discharge(b, stored, net, hours), b.oneWay;
      && stored - Drained(d, e) == Max(Max(stored - Drained(net, e), stored - Drained(Energy(b.maxDischarge, hours), e)),
                                       Min(b.Floor(), stored))
      && net - d == Max(Max(0.0, net - Energy(b.maxDischarge, hours)), net - Banked(Max(stored - b.Floor(), 0.0), e))
  {
    hide Energy;
    var e, rate, spare := b.oneWay, Energy(b.maxDischarge, hours), Max(stored - b.Floor(), 0.0);
    DivideScale(spare, e);
    assert Drained(Banked(spare, e), e) == spare;
    MinBanked(net, rate, Banked(spare, e), e);
  }

  /** More demand on an emptier battery leaves it no fuller and draws no less. */
  lemma FlowMonotone(site: Site, s1: real, s2: real, n1: real, n2: real, hours: real)
    requires site.battery.Valid() && hours > 0.0
    requires s1 >= s2 && n1 <= n2
    ensures BatteryFlow(site, s1, n1, hours).stored >= BatteryFlow(site, s2, n2, hours).stored
    ensures BatteryFlow(site, s1, n1, hours).net <= BatteryFlow(site, s2, n2, hours).net
  {
    hide Energy, Banked, Drained, Charge, Discharge;
    var b := site.battery;
    FlowBounds(site, s1, n1, hours);
    FlowBounds(site, s2, n2, hours);
    if n2 < 0.0 {
      ChargeForm(b, s1, n1, hours);
      ChargeForm(b, s2, n2, hours);
      BankedMonotone(-n2, -n1, b.oneWay);
      BankedMonotone(Max(b.capacity - s1, 0.0), Max(b.capacity - s2, 0.0), b.oneWay);
    } else if n1 >= 0.0 {
      DischargeForm(b, s1, n1, hours);
      DischargeForm(b, s2, n2, hours);
      BankedMonotone(n1, n2, b.oneWay);
      BankedMonotone(Max(s2 - b.Floor(), 0.0), Max(s1 - b.Floor(), 0.0), b.oneWay);
    }
  }

  // ---------------------------------------------------------------- a whole run is monotone in demand

  /** The same stretch, with no more demand. */
  ghost predicate Lighter(p: Piece, q: Piece) {
    p.hours == q.hours && p.demand <= q.demand && p.importPrice == q.importPrice && p.exportPrice == q.exportPrice
  }

  ghost predicate AllLighter(ps: seq<Piece>, qs: seq<Piece>) {
    |ps| == |qs| && forall k | 0 <= k < |ps| :: Lighter(ps[k], qs[k])
  }

  predicate NonNegative(p: Piece) { p.importPrice >= 0.0 && p.exportPrice >= 0.0 }

  predicate NonPositive(p: Piece) { p.importPrice <= 0.0 && p.exportPrice <= 0.0 }

  lemma PieceMonotone(site: Site, p: Piece, q: Piece, s1: real, s2: real)
    requires site.battery.Valid() && p.hours > 0.0 && Lighter(p, q) && s1 >= s2
    ensures PieceFlow(site, p, s1).stored >= PieceFlow(site, q, s2).stored
    ensures PieceFlow(site, p, s1).net <= PieceFlow(site, q, s2).net
  {
    hide BatteryFlow;
    ScaleMonotone(p.demand, q.demand, p.hours);
    FlowMonotone(site, s1, s2, Energy(p.demand, p.hours), Energy(q.demand, p.hours), p.hours);
  }

  lemma PricedMonotone(a: real, b: real, price: real)
    requires a <= b
    ensures price >= 0.0 ==> Priced(a, price) <= Priced(b, price)
    ensures price <= 0.0 ==> Priced(a, price) >= Priced(b, price)
  {}

  lemma MoneyMonotone(p: Piece, n1: real, n2: real)
    requires n1 <= n2
    ensures NonNegative(p) ==> Money(p, n1) <= Money(p, n2)
    ensures NonPositive(p) ==> Money(p, n1) >= Money(p, n2)
  {
    hide Priced;
    PricedMonotone(Max(n1, 0.0), Max(n2, 0.0), p.importPrice);
    PricedMonotone(Max(-n2, 0.0), Max(-n1, 0.0), p.exportPrice);
  }

  lemma GridBetween(site: Site, n1: real, n: real, n2: real, hours: real)
    requires hours > 0.0 && n1 <= n <= n2
    requires WithinGrid(site, n1, hours) && WithinGrid(site, n2, hours)
    ensures WithinGrid(site, n, hours)
  {
    DivideMonotone(n, n2, hours);
    DivideMonotone(-n, -n1, hours);
  }

  /**
   Three runs over the same stretches with ordered demands: when the outer two are accepted so is the middle,
   its battery and (for one-signed prices) its cost lie between theirs.
   */
  lemma {:induction false} RunBetween(site: Site, start: SiteCost, ps: seq<Piece>, ms: seq<Piece>, qs: seq<Piece>)
    requires site.battery.Valid() && AllPositive(ps) && AllPositive(ms) && AllPositive(qs)
    requires AllLighter(ps, ms) && AllLighter(ms, qs)
    requires Fold(site, start, ps).Some? && Fold(site, start, qs).Some?
    ensures Fold(site, start, ms).Some?
    ensures var a, m, b := Fold(site, start, ps).value, Fold(site, start, ms).value, Fold(site, start, qs).value;
      && a.stored >= m.stored >= b.stored
      && ((forall k | 0 <= k < |ps| :: NonNegative(ps[k])) ==> a.cost <= m.cost <= b.cost)
      && ((forall k | 0 <= k < |ps| :: NonPositive(ps[k])) ==> a.cost >= m.cost >= b.cost)
  {
    if |ps| > 0 {
      hide BatteryFlow, Energy, MeanPower, Priced, Money, PieceFlow, WithinGrid;
      var n := |ps| - 1;
      RunBetween(site, start, ps[..n], ms[..n], qs[..n]);
      var a, m, b := Fold(site, start, ps[..n]).value, Fold(site, start, ms[..n]).value, Fold(site, start, qs[..n]).value;
      PieceMonotone(site, ps[n], ms[n], a.stored, m.stored);
      PieceMonotone(site, ms[n], qs[n], m.stored, b.stored);
      var f, g, h := PieceFlow(site, ps[n], a.stored), PieceFlow(site, ms[n], m.stored), PieceFlow(site, qs[n], b.stored);
      GridBetween(site, f.net, g.net, h.net, ps[n].hours);
      SameMoney(ps[n], ms[n], g.net);
      SameMoney(ms[n], qs[n], h.net);
      MoneyMonotone(ps[n], f.net, g.net);
      MoneyMonotone(ms[n], g.net, h.net);
    }
  }

  lemma SameMoney(p: Piece, q: Piece, net: real)
    requires p.importPrice == q.importPrice && p.exportPrice == q.exportPrice
    ensures Money(p, net) == Money(q, net)
  {}

  // ---------------------------------------------------------------- valuations between brackets

  /** Every known price is at least zero, or every known price is at most zero. */
  ghost predicate OneSign(site: Site) {
    || (forall i | 0 <= i < |site.slots| ::
          (site.slots[i].importPrice.Some? ==> site.slots[i].importPrice.value >= 0.0)
          && (site.slots[i].exportPrice.Some? ==> site.slots[i].exportPrice.value >= 0.0))
    || (forall i | 0 <= i < |site.slots| ::
          (site.slots[i].importPrice.Some? ==> site.slots[i].importPrice.value <= 0.0)
          && (site.slots[i].exportPrice.Some? ==> site.slots[i].exportPrice.value <= 0.0))
  }

  lemma EvidencedBetween(site: Site, low: seq<real>, powers: seq<real>, high: seq<real>)
    requires Between(low, powers, high) && |low| == |site.slots|
    requires Evidenced(site, low, true) && Evidenced(site, high, true)
    ensures Evidenced(site, powers, true)
    ensures AllLighter(Pieces(site, low, true, |powers|), Pieces(site, powers, true, |powers|))
  {
    hide Pieces, Site.SlotTimed, Site.SlotHours, ForecastPv, ForecastLoad;
    assert Evidenced(site, powers, true) by {
      forall i: nat | i < |site.slots| ensures SlotAccepted(site, powers, true, i) {
        assert SlotAccepted(site, low, true, i);
      }
    }
    var n := |powers|;
    var ps, ms := Pieces(site, low, true, n), Pieces(site, powers, true, n);
    forall k: nat | k < n ensures Lighter(ps[k], ms[k]) {
      assert Some(ps[k]) == PieceAt(site, low, true, k);
      assert Some(ms[k]) == PieceAt(site, powers, true, k);
    }
  }

  lemma PiecesKeepSign(site: Site, powers: seq<real>)
    requires |powers| == |site.slots| && Evidenced(site, powers, true) && OneSign(site)
    ensures var ps := Pieces(site, powers, true, |powers|);
      || (forall k | 0 <= k < |ps| :: NonNegative(ps[k]))
      || (forall k | 0 <= k < |ps| :: NonPositive(ps[k]))
  {
    hide Pieces, Site.SlotTimed, Site.SlotHours, ForecastPv, ForecastLoad;
    var ps := Pieces(site, powers, true, |powers|);
    forall k: nat | k < |powers|
      ensures Some(ps[k].importPrice) == site.slots[k].importPrice
      ensures Some(ps[k].exportPrice) == site.slots[k].exportPrice
    {
      assert Some(ps[k]) == PieceAt(site, powers, true, k);
    }
  }

  /**
   Feasibility is closed between brackets: a power vector between two valued vectors is valued, its battery
   ends between theirs, and with one-signed prices its cost is at least the smaller and at most the larger.
   */
  lemma ValuationBetween(site: Site, low: seq<real>, powers: seq<real>, high: seq<real>)
    requires site.battery.Valid() && Between(low, powers, high)
    requires Valuation(site, low, true).Some? && Valuation(site, high, true).Some?
    ensures Valuation(site, powers, true).Some?
    ensures var a, m, b := Valuation(site, low, true).value, Valuation(site, powers, true).value,
                           Valuation(site, high, true).value;
      && a.stored >= m.stored >= b.stored
      && (OneSign(site) ==> Min(a.cost, b.cost) <= m.cost <= Max(a.cost, b.cost))
  {
    hide Fold, Pieces, OneSign, Evidenced, Start, Battery.Valid, NonNegative, NonPositive;
    var n := |powers|;
    EvidencedBetween(site, low, powers, high);
    EvidencedBetween(site, powers, high, high);
    var ps, ms, qs := Pieces(site, low, true, n), Pieces(site, powers, true, n), Pieces(site, high, true, n);
    if OneSign(site) { PiecesKeepSign(site, low); }
    RunBetween(site, Start(site), ps, ms, qs);
  }

  /**
   What a returned bound promises about one household (`base`) and one intervention (`candidate`) that stay
   inside the brackets: both are valued and, when the battery check passed, the intervention ends with at
   least the household's charge. This half needs nothing of the tariff.
   */
  lemma BoundIsFeasible(site: Site, baseline: seq<real>, error: real, high: seq<real>, low: seq<real>,
                        base: seq<real>, candidate: seq<real>)
    requires site.battery.Valid() && Comparison(site, baseline, error, high, low).Some?
    requires Between(LowerBaseline(baseline, error), base, UpperBaseline(baseline, error))
    requires Between(low, candidate, high)
    ensures Valuation(site, base, true).Some? && Valuation(site, candidate, true).Some?
    ensures Comparison(site, baseline, error, high, low).value.batteryKept ==>
      Valuation(site, candidate, true).value.stored + TERMINAL_TOLERANCE >= Valuation(site, base, true).value.stored
  {
    hide Valuation;
    ValuationBetween(site, LowerBaseline(baseline, error), base, UpperBaseline(baseline, error));
    ValuationBetween(site, low, candidate, high);
  }

  /** The saving of a household and an intervention inside the brackets reaches the claimed bound. */
  ghost predicate SavingReaches(site: Site, baseline: seq<real>, error: real, high: seq<real>, low: seq<real>,
                                base: seq<real>, candidate: seq<real>)
    requires site.battery.Valid()
  {
    Comparison(site, baseline, error, high, low).Some?
    && Between(LowerBaseline(baseline, error), base, UpperBaseline(baseline, error))
    && Between(low, candidate, high)
    ==>
    && Valuation(site, base, true).Some? && Valuation(site, candidate, true).Some?
    && Valuation(site, base, true).value.cost - Valuation(site, candidate, true).value.cost
         >= Comparison(site, baseline, error, high, low).value.saving
  }

  lemma BoundHoldsForOneSign(site: Site, baseline: seq<real>, error: real, high: seq<real>, low: seq<real>,
                             base: seq<real>, candidate: seq<real>)
    requires site.battery.Valid() && OneSign(site)
    ensures SavingReaches(site, baseline, error, high, low, base, candidate)
  {
    hide Valuation, OneSign;
    if Comparison(site, baseline, error, high, low).Some?
       && Between(LowerBaseline(baseline, error), base, UpperBaseline(baseline, error))
       && Between(low, candidate, high) {
      ValuationBetween(site, LowerBaseline(baseline, error), base, UpperBaseline(baseline, error));
      ValuationBetween(site, low, candidate, high);
    }
  }

  // ---------------------------------------------------------------- the comparison is exact

  lemma Distributes(p: real, error: real)
    ensures Energy(p, 1.0 + error) == p + p * error && Energy(p, 1.0 - error) == p - p * error && Energy(p, 0.0) == 0.0
  {}

  lemma ErrorShare(p: real, error: real)
    requires p >= 0.0 && error >= 0.0
    ensures 0.0 <= p * error && (error <= 1.0 ==> p * error <= p) && (error > 1.0 ==> p <= p * error)
  {
    ScaleMonotone(0.0, error, p);
    if error > 1.0 { ScaleMonotone(1.0, error, p); } else { ScaleMonotone(error, 1.0, p); }
  }

  lemma BracketIs(p: real, error: real, v: real)
    requires p >= 0.0 && error >= 0.0
    ensures Energy(p, Max(0.0, 1.0 - error)) <= v <= Energy(p, 1.0 + error) <==> v >= 0.0 && Abs(v - p) <= p * error
    ensures Energy(p, Max(0.0, 1.0 - error)) <= Energy(p, 1.0 + error)
  {
    hide Energy;
    Distributes(p, error);
    ErrorShare(p, error);
  }

  /** A household lies between the brackets exactly when it stays within the relative error of the forecast. */
  lemma BracketsExactly(powers: seq<real>, error: real, v: seq<real>)
    requires error >= 0.0 && |v| == |powers| && forall i | 0 <= i < |powers| :: powers[i] >= 0.0
    ensures Between(LowerBaseline(powers, error), v, UpperBaseline(powers, error)) <==>
      forall i | 0 <= i < |powers| :: v[i] >= 0.0 && Abs(v[i] - powers[i]) <= powers[i] * error
  {
    hide Energy;
    var low, high := LowerBaseline(powers, error), UpperBaseline(powers, error);
    forall i | 0 <= i < |powers|
      ensures low[i] <= v[i] <= high[i] <==> v[i] >= 0.0 && Abs(v[i] - powers[i]) <= powers[i] * error
    {
      BracketIs(powers[i], error, v[i]);
    }
  }

  lemma EndsAreBetween(baseline: seq<real>, error: real)
    requires error >= 0.0 && forall i | 0 <= i < |baseline| :: baseline[i] >= 0.0
    ensures var low, high := LowerBaseline(baseline, error), UpperBaseline(baseline, error);
      Between(low, low, high) && Between(low, high, high)
  {
    hide Energy;
    forall i | 0 <= i < |baseline|
      ensures Energy(baseline[i], Max(0.0, 1.0 - error)) <= Energy(baseline[i], 1.0 + error)
    {
      BracketIs(baseline[i], error, 0.0);
    }
  }

  /** No household inside the brackets ends fuller than an intervention by more than the tolerance. */
  ghost predicate KeepsBattery(site: Site, baseline: seq<real>, error: real, high: seq<real>, low: seq<real>,
                               base: seq<real>, candidate: seq<real>)
    requires site.battery.Valid()
  {
    Between(LowerBaseline(baseline, error), base, UpperBaseline(baseline, error)) && Between(low, candidate, high) ==>
      && Valuation(site, base, true).Some? && Valuation(site, candidate, true).Some?
      && Valuation(site, candidate, true).value.stored + 0.01 >= Valuation(site, base, true).value.stored
  }

  /** The battery check is exact: it passes if and only if every intervention inside the brackets ends with the charge
      of every household inside them. */
  lemma BatteryKeptExactly(site: Site, baseline: seq<real>, error: real, high: seq<real>, low: seq<real>)
    requires site.battery.Valid() && Comparison(site, baseline, error, high, low).Some? && Between(low, low, high)
    requires error >= 0.0 && forall i | 0 <= i < |baseline| :: baseline[i] >= 0.0
    ensures Comparison(site, baseline, error, high, low).value.batteryKept <==>
      forall base: seq<real>, candidate: seq<real> :: KeepsBattery(site, baseline, error, high, low, base, candidate)
  {
    hide Valuation;
    if Comparison(site, baseline, error, high, low).value.batteryKept {
      forall base: seq<real>, candidate: seq<real>
        ensures KeepsBattery(site, baseline, error, high, low, base, candidate)
      {
        if Between(LowerBaseline(baseline, error), base, UpperBaseline(baseline, error)) && Between(low, candidate, high) {
          BoundIsFeasible(site, baseline, error, high, low, base, candidate);
        }
      }
    }
    if forall base: seq<real>, candidate: seq<real> :: KeepsBattery(site, baseline, error, high, low, base, candidate) {
      var b0, b1 := LowerBaseline(baseline, error), UpperBaseline(baseline, error);
      EndsAreBetween(baseline, error);
      assert Between(low, high, high);
      assert KeepsBattery(site, baseline, error, high, low, b0, high);
      assert KeepsBattery(site, baseline, error, high, low, b0, low);
      assert KeepsBattery(site, baseline, error, high, low, b1, high);
      assert KeepsBattery(site, baseline, error, high, low, b1, low);
    }
  }

  /** The claimed saving is one that some household and some intervention inside the brackets have. */
  lemma SavingIsAttained(site: Site, baseline: seq<real>, error: real, high: seq<real>, low: seq<real>)
    requires site.battery.Valid() && Comparison(site, baseline, error, high, low).Some? && Between(low, low, high)
    requires error >= 0.0 && forall i | 0 <= i < |baseline| :: baseline[i] >= 0.0
    ensures exists base: seq<real>, candidate: seq<real> ::
      && Between(LowerBaseline(baseline, error), base, UpperBaseline(baseline, error)) && Between(low, candidate, high)
      && Valuation(site, base, true).Some? && Valuation(site, candidate, true).Some?
      && Valuation(site, base, true).value.cost - Valuation(site, candidate, true).value.cost
           == Comparison(site, baseline, error, high, low).value.saving
  {
    hide Valuation;
    EndsAreBetween(baseline, error);
    assert Between(low, high, high);
    var b0, b1 := LowerBaseline(baseline, error), UpperBaseline(baseline, error);
    var base := if Valuation(site, b0, true).value.cost <= Valuation(site, b1, true).value.cost then b0 else b1;
    var candidate := if Valuation(site, high, true).value.cost >= Valuation(site, low, true).value.cost then high else low;
    assert Between(b0, base, b1) && Between(low, candidate, high);
  }
}
