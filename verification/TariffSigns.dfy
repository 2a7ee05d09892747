/**
 Which tariffs make the conservative saving bound sound? Exactly those whose prices never mix signs: a series
 with a positive and a negative price always admits a site, a household and an intervention inside the
 brackets whose saving falls short of the claim.
 */
module TariffSigns {
  import opened Common
  import opened SiteEnergy
  import opened ConservativeBound

  datatype Price = Price(buy: real, sell: real)

  ghost predicate HasPrices(site: Site, prices: seq<Price>) {
    |site.slots| == |prices| && forall i | 0 <= i < |prices| ::
      site.slots[i].importPrice == Some(prices[i].buy) && site.slots[i].exportPrice == Some(prices[i].sell)
  }

  predicate AllAtLeastZero(prices: seq<Price>) {
    forall i | 0 <= i < |prices| :: prices[i].buy >= 0.0 && prices[i].sell >= 0.0
  }

  predicate AllAtMostZero(prices: seq<Price>) {
    forall i | 0 <= i < |prices| :: prices[i].buy <= 0.0 && prices[i].sell <= 0.0
  }

  /** The bound holds for every site under these prices, every bracket and every household inside it. */
  ghost predicate SoundFor(prices: seq<Price>) {
    forall site: Site, baseline, error, high, low, base, candidate |
      site.battery.Valid() && HasPrices(site, prices) ::
      SavingReaches(site, baseline, error, high, low, base, candidate)
  }

  // ---------------------------------------------------------------- a site without a battery

  const ONE_HOUR := 3_600_000_000

  function Stamp(k: nat): int { k * ONE_HOUR }

  function HourSlot(from: int, price: Price, pv: real): Slot {
    Slot(from, Some(from + ONE_HOUR), Some(price.buy), Some(price.sell), Some(pv), None, Some(0.0), None, 0.0)
  }

  function PlainSite(prices: seq<Price>, pv: seq<real>, limit: real): (s: Site)
    requires |pv| == |prices|
    ensures |s.slots| == |prices| && s.battery.oneWay == 1.0
  {
    Site(seq(|prices|, k requires 0 <= k < |prices| => HourSlot(Stamp(k), prices[k], pv[k])), true, false, None,
         None, None, None, Battery(0.0, 0.0, 1.0, 1.0, 0.0, 0.0), 60.0, limit, limit)
  }

  lemma PlainBattery(prices: seq<Price>, pv: seq<real>, limit: real)
    requires |pv| == |prices|
    ensures PlainSite(prices, pv, limit).battery.Valid()
  {}

  lemma PlainPrices(prices: seq<Price>, pv: seq<real>, limit: real)
    requires |pv| == |prices|
    ensures HasPrices(PlainSite(prices, pv, limit), prices)
  {}

  function MoneyAt(price: Price, net: real): real {
    Max(net, 0.0) * price.buy - Max(-net, 0.0) * price.sell
  }

  function Moneys(prices: seq<Price>, pv: seq<real>, powers: seq<real>): (r: seq<real>)
    requires |pv| == |prices| == |powers|
    ensures |r| == |prices|
  {
    seq(|prices|, k requires 0 <= k < |prices| => MoneyAt(prices[k], powers[k] - pv[k]))
  }

  ghost predicate Fits(pv: seq<real>, powers: seq<real>, limit: real) {
    |pv| == |powers| && forall k | 0 <= k < |pv| ::
      pv[k] >= 0.0 && powers[k] >= 0.0 && -limit <= powers[k] - pv[k] <= limit
  }

  lemma StampNext(k: nat)
    ensures Stamp(k) + ONE_HOUR == Stamp(k + 1)
  {}

  lemma OneHour(from: int)
    ensures Hours(from, from + ONE_HOUR) == 1.0
  {
    assert from + ONE_HOUR - from == 3_600_000_000;
  }

  lemma HourAt(prices: seq<Price>, pv: seq<real>, limit: real, k: nat)
    requires |pv| == |prices| && k < |prices|
    ensures PlainSite(prices, pv, limit).SlotHours(k) == 1.0 && PlainSite(prices, pv, limit).SlotTimed(k)
  {
    hide Stamp, Hours;
    var site := PlainSite(prices, pv, limit);
    assert site.slots[k] == HourSlot(Stamp(k), prices[k], pv[k]);
    OneHour(Stamp(k));
    StampNext(k);
  }

  lemma PlainStep(site: Site, before: SiteCost, p: Piece, price: Price, limit: real)
    requires site.battery.oneWay > 0.0 && p.hours == 1.0
    requires site.soc.None? && site.importLimit == limit && site.exportLimit == limit
    requires p.importPrice == price.buy && p.exportPrice == price.sell && -limit <= p.demand <= limit
    ensures Advance(site, before, p).Some?
    ensures Advance(site, before, p).value.cost == before.cost + MoneyAt(price, p.demand)
    ensures Advance(site, before, p).value.stored == before.stored
  {
    assert PieceFlow(site, p, before.stored) == Flow(before.stored, p.demand);
  }

  lemma SumOfFirst(s: seq<real>, k: nat)
    requires 0 < k <= |s|
    ensures Sum(s[..k]) == Sum(s[..k - 1]) + s[k - 1]
  {
    assert s[..k][..k - 1] == s[..k - 1];
  }

  /** What the slot before `k` contributes. */
  lemma PlainPiece(prices: seq<Price>, pv: seq<real>, limit: real, powers: seq<real>, k: nat)
    requires |pv| == |prices| && Fits(pv, powers, limit) && 0 < k <= |prices|
    requires Evidenced(PlainSite(prices, pv, limit), powers, true)
    ensures var site := PlainSite(prices, pv, limit);
      var ps := Pieces(site, powers, true, k);
      && ps[..k - 1] == Pieces(site, powers, true, k - 1)
      && var p := ps[k - 1];
         && p.hours == 1.0 && p.demand == powers[k - 1] - pv[k - 1] && -limit <= p.demand <= limit
         && p.importPrice == prices[k - 1].buy && p.exportPrice == prices[k - 1].sell
  {
    HourAt(prices, pv, limit, k - 1);
    assert Some(Pieces(PlainSite(prices, pv, limit), powers, true, k)[k - 1])
        == PieceAt(PlainSite(prices, pv, limit), powers, true, k - 1);
  }

  lemma PlainNext(site: Site, ps: seq<Piece>, price: Price, limit: real)
    requires site.battery.oneWay > 0.0 && AllPositive(ps) && |ps| > 0 && ps[|ps| - 1].hours == 1.0
    requires site.soc.None? && site.importLimit == limit && site.exportLimit == limit
    requires var p := ps[|ps| - 1];
      p.importPrice == price.buy && p.exportPrice == price.sell && -limit <= p.demand <= limit
    requires Fold(site, Start(site), ps[..|ps| - 1]).Some?
    ensures var before := Fold(site, Start(site), ps[..|ps| - 1]).value;
      var r := Fold(site, Start(site), ps);
      && r.Some? && r.value.cost == before.cost + MoneyAt(price, ps[|ps| - 1].demand) && r.value.stored == before.stored
  {
    hide Advance, Money, MoneyAt, Start;
    PlainStep(site, Fold(site, Start(site), ps[..|ps| - 1]).value, ps[|ps| - 1], price, limit);
  }

  /** Without a battery the cost is the sum of the slots' own money. */
  lemma {:induction false} PlainFold(prices: seq<Price>, pv: seq<real>, limit: real, powers: seq<real>, k: nat)
    requires |pv| == |prices| && Fits(pv, powers, limit) && k <= |prices|
    requires Evidenced(PlainSite(prices, pv, limit), powers, true)
    ensures var site := PlainSite(prices, pv, limit);
      var r := Fold(site, Start(site), Pieces(site, powers, true, k));
      r.Some? && r.value.cost == Sum(Moneys(prices, pv, powers)[..k]) && r.value.stored == 0.0
  {
    hide Fold, Start, Money, MoneyAt, Sum, Pieces, Evidenced;
    var site := PlainSite(prices, pv, limit);
    if k == 0 {
      PlainStart(prices, pv, limit, powers);
    } else {
      PlainFold(prices, pv, limit, powers, k - 1);
      PlainPiece(prices, pv, limit, powers, k);
      SumOfFirst(Moneys(prices, pv, powers), k);
      PlainNext(site, Pieces(site, powers, true, k), prices[k - 1], limit);
    }
  }

  lemma PlainStart(prices: seq<Price>, pv: seq<real>, limit: real, powers: seq<real>)
    requires |pv| == |prices| && Fits(pv, powers, limit) && Evidenced(PlainSite(prices, pv, limit), powers, true)
    ensures var site := PlainSite(prices, pv, limit);
      Fold(site, Start(site), Pieces(site, powers, true, 0)) == Some(Start(site)) && Start(site).cost == 0.0 == Sum([])
      && Start(site).stored == 0.0
  {}

  lemma PlainValue(prices: seq<Price>, pv: seq<real>, limit: real, powers: seq<real>)
    requires |pv| == |prices| && Fits(pv, powers, limit)
    ensures PlainSite(prices, pv, limit).battery.Valid()
    ensures var r := Valuation(PlainSite(prices, pv, limit), powers, true);
      r.Some? && r.value.cost == Sum(Moneys(prices, pv, powers))
  {
    hide Advance, MoneyAt, Fold, Battery.Valid;
    var site := PlainSite(prices, pv, limit);
    PlainBattery(prices, pv, limit);
    forall i: nat | i < |site.slots| ensures SlotAccepted(site, powers, true, i) {
      HourAt(prices, pv, limit, i);
    }
    PlainFold(prices, pv, limit, powers, |powers|);
    assert Moneys(prices, pv, powers)[..|powers|] == Moneys(prices, pv, powers);
  }

  function Zeros(n: nat): (r: seq<real>) ensures |r| == n { seq(n, _ => 0.0) }

  // ---------------------------------------------------------------- the price at one edge of a slot

  /** One of a slot's two prices. */
  datatype Edge = Edge(slot: nat, buying: bool)

  function PriceOn(prices: seq<Price>, e: Edge): real
    requires e.slot < |prices|
  {
    if e.buying then prices[e.slot].buy else prices[e.slot].sell
  }

  /** Solar that puts the whole band [0, 2a] of demand on the edge's own side of zero. */
  function SolarFor(e: Edge, a: real): real { if e.buying then 0.0 else 2.0 * a }

  lemma EdgeMoney(prices: seq<Price>, e: Edge, a: real)
    requires e.slot < |prices| && a > 0.0
    ensures MoneyAt(prices[e.slot], 2.0 * a - SolarFor(e, a))
         == MoneyAt(prices[e.slot], 0.0 - SolarFor(e, a)) + 2.0 * (a * PriceOn(prices, e))
  {}

  lemma CostAtTwo(prices: seq<Price>, pv: seq<real>, powers: seq<real>, i: nat, j: nat)
    requires |pv| == |prices| == |powers| && i < |prices| && j < |prices| && i != j
    requires forall k | 0 <= k < |pv| && k != i && k != j :: pv[k] == 0.0 && powers[k] == 0.0
    ensures Sum(Moneys(prices, pv, powers)) == MoneyAt(prices[i], powers[i] - pv[i]) + MoneyAt(prices[j], powers[j] - pv[j])
  {
    SumTwo(Moneys(prices, pv, powers), i, j);
  }

  lemma CostAtOne(prices: seq<Price>, pv: seq<real>, powers: seq<real>, i: nat)
    requires |pv| == |prices| == |powers| && i < |prices|
    requires forall k | 0 <= k < |pv| && k != i :: pv[k] == 0.0 && powers[k] == 0.0
    ensures Sum(Moneys(prices, pv, powers)) == MoneyAt(prices[i], powers[i] - pv[i])
  {
    SumOne(Moneys(prices, pv, powers), i);
  }

  // ---------------------------------------------------------------- the failing households

  lemma FallsShort(site: Site, baseline: seq<real>, error: real, high: seq<real>, low: seq<real>,
                   base: seq<real>, candidate: seq<real>)
    requires site.battery.Valid() && Comparison(site, baseline, error, high, low).Some?
    requires Between(LowerBaseline(baseline, error), base, UpperBaseline(baseline, error))
    requires Between(low, candidate, high)
    requires Valuation(site, base, true).Some? && Valuation(site, candidate, true).Some?
    requires Valuation(site, base, true).value.cost - Valuation(site, candidate, true).value.cost
               < Comparison(site, baseline, error, high, low).value.saving
    ensures !SavingReaches(site, baseline, error, high, low, base, candidate)
  {}

  lemma BracketsOfOne(baseline: seq<real>)
    ensures LowerBaseline(baseline, 1.0) == Zeros(|baseline|)
    ensures UpperBaseline(baseline, 1.0) == seq(|baseline|, k requires 0 <= k < |baseline| => 2.0 * baseline[k])
  {}

  /** A positive price in one slot and a negative one in another: run low where dear, high where it pays. */
  lemma MixedSlotsFail(prices: seq<Price>, up: Edge, down: Edge)
    requires up.slot < |prices| && down.slot < |prices| && up.slot != down.slot
    requires PriceOn(prices, up) > 0.0 > PriceOn(prices, down)
    ensures !SoundFor(prices)
  {
    hide Valuation, MoneyAt, Comparison, Sum, Battery.Valid, PlainSite, Moneys;
    var n, i, j := |prices|, up.slot, down.slot;
    var a, b := -PriceOn(prices, down), PriceOn(prices, up);
    var pv := Zeros(n)[i := SolarFor(up, a)][j := SolarFor(down, b)];
    var baseline, top := Zeros(n)[i := a][j := b], Zeros(n)[i := 2.0 * a][j := 2.0 * b];
    var base := Zeros(n)[j := 2.0 * b];
    BracketsOfOne(baseline);
    assert UpperBaseline(baseline, 1.0) == top;
    CostAtTwo(prices, pv, Zeros(n), i, j);
    CostAtTwo(prices, pv, top, i, j);
    CostAtTwo(prices, pv, base, i, j);
    EdgeMoney(prices, up, a);
    EdgeMoney(prices, down, b);
    Opposed(a, b);
    Refuted(prices, pv, 2.0 * a + 2.0 * b, baseline, top, Zeros(n), Zeros(n), base, Zeros(n));
  }

  lemma Opposed(a: real, b: real)
    requires a > 0.0 && b > 0.0
    ensures a * b + b * (-a) == 0.0 && b * (-a) < 0.0
  {}

  /** A household that falls short on one of these sites refutes soundness. */
  lemma Refuted(prices: seq<Price>, pv: seq<real>, limit: real, baseline: seq<real>, top: seq<real>,
                high: seq<real>, low: seq<real>, base: seq<real>, candidate: seq<real>)
    requires |pv| == |prices| == |baseline|
    requires UpperBaseline(baseline, 1.0) == top && Between(Zeros(|baseline|), base, top) && Between(low, candidate, high)
    requires Fits(pv, Zeros(|baseline|), limit) && Fits(pv, top, limit) && Fits(pv, base, limit)
    requires Fits(pv, high, limit) && Fits(pv, low, limit) && Fits(pv, candidate, limit)
    requires Sum(Moneys(prices, pv, base)) - Sum(Moneys(prices, pv, candidate))
      < Min(Sum(Moneys(prices, pv, Zeros(|baseline|))), Sum(Moneys(prices, pv, top)))
        - Max(Sum(Moneys(prices, pv, high)), Sum(Moneys(prices, pv, low)))
    ensures !SoundFor(prices)
  {
    hide Valuation, MoneyAt, Comparison, Sum, Battery.Valid, PlainSite, Moneys;
    var site := PlainSite(prices, pv, limit);
    PlainBattery(prices, pv, limit);
    PlainPrices(prices, pv, limit);
    PlainValue(prices, pv, limit, Zeros(|baseline|));
    PlainValue(prices, pv, limit, top);
    PlainValue(prices, pv, limit, base);
    PlainValue(prices, pv, limit, high);
    PlainValue(prices, pv, limit, low);
    PlainValue(prices, pv, limit, candidate);
    BracketsOfOne(baseline);
    ComparedAt(site, baseline, top, high, low);
    FallsShort(site, baseline, 1.0, high, low, base, candidate);
  }

  lemma ComparedAt(site: Site, baseline: seq<real>, top: seq<real>, high: seq<real>, low: seq<real>)
    requires site.battery.Valid()
    requires UpperBaseline(baseline, 1.0) == top
    requires Valuation(site, Zeros(|baseline|), true).Some? && Valuation(site, top, true).Some?
    requires Valuation(site, high, true).Some? && Valuation(site, low, true).Some?
    ensures var r := Comparison(site, baseline, 1.0, high, low);
      r.Some? && r.value.saving ==
        Min(Valuation(site, Zeros(|baseline|), true).value.cost, Valuation(site, top, true).value.cost)
        - Max(Valuation(site, high, true).value.cost, Valuation(site, low, true).value.cost)
  {
    hide Valuation;
    BracketsOfOne(baseline);
  }

  /** Buying costs and selling is charged for: the cheapest household sits strictly inside the brackets. */
  lemma ValleyFails(prices: seq<Price>, i: nat)
    requires i < |prices| && prices[i].buy > 0.0 > prices[i].sell
    ensures !SoundFor(prices)
  {
    hide SoundFor, Sum, Moneys;
    var n := |prices|;
    var pv, one, top := Zeros(n)[i := 1.0], Zeros(n)[i := 1.0], Zeros(n)[i := 2.0];
    BracketsOfOne(one);
    assert UpperBaseline(one, 1.0) == top;
    CostAtOne(prices, pv, Zeros(n), i);
    CostAtOne(prices, pv, top, i);
    CostAtOne(prices, pv, one, i);
    Refuted(prices, pv, 1.0, one, top, one, one, one, one);
  }

  /** Buying pays and selling pays: the dearest intervention sits strictly inside the brackets. */
  lemma RidgeFails(prices: seq<Price>, i: nat)
    requires i < |prices| && prices[i].buy < 0.0 < prices[i].sell
    ensures !SoundFor(prices)
  {
    hide SoundFor, Sum, Moneys;
    var n := |prices|;
    var pv, one, top := Zeros(n)[i := 1.0], Zeros(n)[i := 1.0], Zeros(n)[i := 2.0];
    BracketsOfOne(Zeros(n));
    assert UpperBaseline(Zeros(n), 1.0) == Zeros(n);
    CostAtOne(prices, pv, Zeros(n), i);
    CostAtOne(prices, pv, top, i);
    CostAtOne(prices, pv, one, i);
    Refuted(prices, pv, 1.0, Zeros(n), Zeros(n), top, Zeros(n), Zeros(n), one);
  }

  lemma MixedEdgesFail(prices: seq<Price>, up: Edge, down: Edge)
    requires up.slot < |prices| && down.slot < |prices|
    requires PriceOn(prices, up) > 0.0 > PriceOn(prices, down)
    ensures !SoundFor(prices)
  {
    hide SoundFor;
    if up.slot != down.slot {
      MixedSlotsFail(prices, up, down);
    } else if up.buying {
      ValleyFails(prices, up.slot);
    } else {
      RidgeFails(prices, up.slot);
    }
  }

  /** The exact condition on a tariff series for the conservative bound to be sound at every site. */
  lemma SoundExactlyForOneSign(prices: seq<Price>)
    ensures SoundFor(prices) <==> AllAtLeastZero(prices) || AllAtMostZero(prices)
  {
    if AllAtLeastZero(prices) || AllAtMostZero(prices) {
      hide SavingReaches;
      forall site: Site, baseline, error, high, low, base, candidate |
        site.battery.Valid() && HasPrices(site, prices)
        ensures SavingReaches(site, baseline, error, high, low, base, candidate)
      {
        assert OneSign(site);
        BoundHoldsForOneSign(site, baseline, error, high, low, base, candidate);
      }
    } else {
      hide SoundFor;
      var i :| 0 <= i < |prices| && !(prices[i].buy >= 0.0 && prices[i].sell >= 0.0);
      var j :| 0 <= j < |prices| && !(prices[j].buy <= 0.0 && prices[j].sell <= 0.0);
      MixedEdgesFail(prices, Edge(j, prices[j].buy > 0.0), Edge(i, prices[i].buy < 0.0));
    }
  }
}
