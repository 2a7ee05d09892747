/**
 The bounded climate search: every near-term start and target is covered, durations and coasts are sampled evenly,
 and the work over all modes stays below a fixed number of slot evaluations.
 */
module CandidateSchedules {
  import opened Common

  const MAX_SEARCH_SLOT_EVALUATIONS := 500_000

  /** Three trajectories are simulated for every schedule. */
  const SIMULATIONS := 3

  datatype Schedule = Schedule(start: int, stop: int, release: int, target: real)

  function Least(a: int, b: int): int { if a <= b then a else b }

  function Most(a: int, b: int): int { if a >= b then a else b }

  // ---------------------------------------------------------------- stop and release pairs

  function Releases(stop: int, count: int): seq<(int, int)>
    requires stop < count
  {
    seq(count - 1 - stop, k requires 0 <= k < count - 1 - stop => (stop, stop + 1 + k))
  }

  /** All pairs with a stop in `from..last`, in order. */
  function PairsFrom(from: int, last: int, count: int): seq<(int, int)>
    requires last < count
    decreases last + 1 - from
  {
    if from > last then [] else Releases(from, count) + PairsFrom(from + 1, last, count)
  }

  function Pairs(start: int, lead: int, count: int): seq<(int, int)> {
    PairsFrom(start + 1, Least(start + lead, count - 2), count)
  }

  lemma {:induction false} PairsFromHas(from: int, last: int, count: int, p: (int, int))
    requires last < count
    ensures p in PairsFrom(from, last, count) <==> from <= p.0 <= last && p.0 < p.1 < count
    decreases last + 1 - from
  {
    if from <= last {
      PairsFromHas(from + 1, last, count, p);
      if p.0 == from && from < p.1 < count { assert Releases(from, count)[p.1 - from - 1] == p; }
    }
  }

  // ---------------------------------------------------------------- even sampling

  /** The nearest integer to `a / b`, ties to the even neighbour, as Python's round does. */
  function Round(a: nat, b: nat): nat
    requires b > 0
  {
    var q, r := a / b, a % b;
    if 2 * r < b || (2 * r == b && q % 2 == 0) then q else q + 1
  }

  lemma ProductsOrdered(x: int, y: int, c: int)
    requires c > 0
    ensures x <= y <==> x * c <= y * c
  {
    assert (y - x) * c == y * c - x * c;
  }

  lemma RoundIsNearest(a: nat, b: nat)
    requires b > 0
    ensures 2 * (Round(a, b) * b) <= 2 * a + b && 2 * a <= 2 * (Round(a, b) * b) + b
  {
    var q, r := a / b, a % b;
    assert a == q * b + r;
    assert (q + 1) * b == q * b + b;
  }

  /** Rounding never crosses an integer. */
  lemma RoundBetween(a: nat, b: nat, m: nat)
    requires b > 0
    ensures m * b <= a ==> m <= Round(a, b)
    ensures a <= m * b ==> Round(a, b) <= m
  {
    var q, r := a / b, a % b;
    assert a == q * b + r;
    ProductsOrdered(q + 1, m, b);
    ProductsOrdered(m, q, b);
    ProductsOrdered(m + 1, q, b);
    assert (q + 1) * b == q * b + b && (m + 1) * b == m * b + b;
  }

  /** Samples more than one apart round to different integers. */
  lemma RoundSeparates(a: nat, c: nat, b: nat)
    requires b > 0 && a + b < c
    ensures Round(a, b) < Round(c, b)
  {
    hide Round;
    RoundIsNearest(a, b);
    RoundIsNearest(c, b);
    ProductsOrdered(Round(c, b), Round(a, b), b);
  }

  /** Evenly spaced indices from the first to the last of `n` pairs; a sorted set of them is this same sequence. */
  function Sampled(n: nat, selected: nat): seq<nat>
    requires n > 0
  {
    seq(selected, k requires 0 <= k < selected => Round(k * (n - 1), Most(selected - 1, 1)))
  }

  lemma SampleGrows(k: nat, m: nat, d: nat)
    requires 0 < d <= m
    ensures Round(k * m, d) < Round((k + 1) * m, d)
  {
    hide Round;
    assert (k + 1) * m == k * m + m;
    if m == d {
      RoundBetween(k * m, d, k);
      RoundBetween((k + 1) * m, d, k + 1);
    } else {
      RoundSeparates(k * m, (k + 1) * m, d);
    }
  }

  lemma SampleBelow(k: nat, m: nat, d: nat)
    requires 0 < d && k <= d
    ensures Round(k * m, d) <= m && (k == d ==> Round(k * m, d) == m)
  {
    hide Round;
    RoundBetween(k * m, d, m);
    if m > 0 { ProductsOrdered(k, d, m); }
    assert m * d == d * m;
  }

  /** The sample is strictly increasing, so no alternative is lost to a coincidence of rounding, and it runs
      from the first pair to the last. */
  lemma SampleIsStrict(n: nat, selected: nat)
    requires 0 < selected <= n
    ensures |Sampled(n, selected)| == selected && Sampled(n, selected)[0] == 0
    ensures forall i, j | 0 <= i < j < selected :: Sampled(n, selected)[i] < Sampled(n, selected)[j]
    ensures forall i | 0 <= i < selected :: Sampled(n, selected)[i] < n
    ensures selected > 1 ==> Sampled(n, selected)[selected - 1] == n - 1
    ensures selected == n ==> forall i | 0 <= i < n :: Sampled(n, selected)[i] == i
  {
    hide Round;
    var d := Most(selected - 1, 1);
    SampleBelow(0, n - 1, d);
    RoundBetween(0, d, 0);
    assert 0 * (n - 1) == 0;
    if selected > 1 { SampleBelow(d, n - 1, d); }
    forall i | 0 <= i < selected ensures Sampled(n, selected)[i] < n && (selected == n ==> Sampled(n, selected)[i] == i) {
      SampleBelow(i, n - 1, d);
      if selected == n { RoundBetween(i * (n - 1), d, i); }
    }
    forall i, j | 0 <= i < j < selected ensures Sampled(n, selected)[i] < Sampled(n, selected)[j] {
      SampleOrdered(n - 1, d, i, j);
    }
  }

  /** Ties go to the even neighbour. */
  lemma RoundTies(a: nat, b: nat, m: nat)
    requires b > 0 && 2 * a == (2 * m + 1) * b
    ensures Round(a, b) == if m % 2 == 0 then m else m + 1
  {
    var q, r := a / b, a % b;
    assert a == q * b + r;
    assert (2 * m + 1) * b == 2 * (m * b) + b;
    assert (m + 1) * b == m * b + b && (q + 1) * b == q * b + b;
    ProductsOrdered(m + 1, q, b);
    ProductsOrdered(q + 1, m, b);
    assert q == m;
  }

  /** The sample is even: index `k` lies within one half of the exact position `k * (n - 1) / (selected - 1)`. */
  lemma SampleIsEven(n: nat, selected: nat, k: nat)
    requires 1 < selected <= n && k < selected
    ensures var exact := (k * (n - 1)) as real / (selected - 1) as real;
      exact - 0.5 <= Sampled(n, selected)[k] as real <= exact + 0.5
  {
    hide Round;
    RoundIsNearest(k * (n - 1), selected - 1);
    Halves(Sampled(n, selected)[k], k * (n - 1), selected - 1);
  }

  lemma Halves(index: nat, a: nat, b: nat)
    requires b > 0 && 2 * (index * b) <= 2 * a + b && 2 * a <= 2 * (index * b) + b
    ensures a as real / b as real - 0.5 <= index as real <= a as real / b as real + 0.5
  {
    var i, x, d := index as real, a as real, b as real;
    assert (index * b) as real == i * d;
    DivideScale(x, d);
    Near(i, x / d, x, d);
  }

  lemma Near(i: real, y: real, x: real, d: real)
    requires d > 0.0 && y * d == x && 2.0 * (i * d) <= 2.0 * x + d && 2.0 * x <= 2.0 * (i * d) + d
    ensures y - 0.5 <= i <= y + 0.5
  {
    Shifted(y, 0.5, d);
    Shifted(y, -0.5, d);
    NoFurther(i, y + 0.5, d, i * d, x + 0.5 * d);
    NoFurther(y + -0.5, i, d, x - 0.5 * d, i * d);
  }

  lemma Shifted(y: real, h: real, d: real)
    ensures (y + h) * d == y * d + h * d
  {}

  lemma NoFurther(a: real, b: real, d: real, p: real, q: real)
    requires d > 0.0 && a * d == p && b * d == q && p <= q
    ensures a <= b
  {
    DivideMonotone(p, q, d);
    DivideScale(a, d);
    DivideScale(b, d);
  }

  lemma {:induction false} SampleOrdered(m: nat, d: nat, i: nat, j: nat)
    requires 0 < d <= m && i < j
    ensures Round(i * m, d) < Round(j * m, d)
  {
    hide Round;
    SampleGrows(j - 1, m, d);
    if i < j - 1 { SampleOrdered(m, d, i, j - 1); }
  }

  // ---------------------------------------------------------------- the schedules

  function Starts(count: int, lead: int): nat { Most(Least(lead, count - 2), 0) }

  lemma PairsExist(count: int, lead: int, start: int)
    requires 0 <= start < Starts(count, lead)
    ensures |Pairs(start, lead, count)| > 0
  {
    PairsFromHas(start + 1, Least(start + lead, count - 2), count, (start + 1, start + 2));
  }

  function Picked(start: int, target: real, pairs: seq<(int, int)>, indices: seq<nat>): seq<Schedule>
    requires forall k | 0 <= k < |indices| :: indices[k] < |pairs|
  {
    seq(|indices|, k requires 0 <= k < |indices| => Schedule(start, pairs[indices[k]].0, pairs[indices[k]].1, target))
  }

  /** Indices of the sampled alternatives of one start. */
  function Sample(count: int, lead: int, start: int, perGroup: nat): (indices: seq<nat>)
    requires 0 <= start < Starts(count, lead) && perGroup > 0
    ensures forall k | 0 <= k < |indices| :: indices[k] < |Pairs(start, lead, count)|
  {
    PairsExist(count, lead, start);
    var n := |Pairs(start, lead, count)|;
    SampleIsStrict(n, Least(perGroup, n));
    Sampled(n, Least(perGroup, n))
  }

  /** The sampled alternatives of one start and target. */
  function Group(count: int, lead: int, start: int, target: real, perGroup: nat): seq<Schedule>
    requires 0 <= start < Starts(count, lead) && perGroup > 0
  {
    Picked(start, target, Pairs(start, lead, count), Sample(count, lead, start, perGroup))
  }

  function ForTargets(count: int, lead: int, start: int, targets: seq<real>, perGroup: nat): seq<Schedule>
    requires 0 <= start < Starts(count, lead) && perGroup > 0
  {
    if |targets| == 0 then []
    else ForTargets(count, lead, start, targets[..|targets| - 1], perGroup)
         + Group(count, lead, start, targets[|targets| - 1], perGroup)
  }

  function ForStarts(count: int, lead: int, starts: nat, targets: seq<real>, perGroup: nat): seq<Schedule>
    requires starts <= Starts(count, lead) && perGroup > 0
  {
    if starts == 0 then []
    else ForStarts(count, lead, starts - 1, targets, perGroup) + ForTargets(count, lead, starts - 1, targets, perGroup)
  }

  function Schedules(count: int, lead: int, targets: seq<real>, limit: nat): Option<seq<Schedule>> {
    var groups := Starts(count, lead) * |targets|;
    if groups == 0 then Some([])
    else if limit / groups < 1 then None
    else Some(ForStarts(count, lead, Starts(count, lead), targets, limit / groups))
  }

  method CandidateSchedules(count: int, lead: int, targets: seq<real>, limit: nat) returns (r: Option<seq<Schedule>>)
    ensures r == Schedules(count, lead, targets, limit)
  {
    hide Picked, Sampled, Pairs, Sample;
    var starts := Starts(count, lead);
    var groups := starts * |targets|;
    if groups == 0 { return Some([]); }
    var perGroup := limit / groups;
    if perGroup < 1 { return None; }
    var schedules := [];
    for start := 0 to starts
      invariant schedules == ForStarts(count, lead, start, targets, perGroup)
    {
      var sampled := SampleTargets(count, lead, start, targets, perGroup);
      schedules := schedules + sampled;
    }
    r := Some(schedules);
  }

  method SampleTargets(count: int, lead: int, start: int, targets: seq<real>, perGroup: nat) returns (r: seq<Schedule>)
    requires 0 <= start < Starts(count, lead) && perGroup > 0
    ensures r == ForTargets(count, lead, start, targets, perGroup)
  {
    hide Picked, Sampled, Pairs, Sample;
    var pairs, indices := Pairs(start, lead, count), Sample(count, lead, start, perGroup);
    r := [];
    for t := 0 to |targets|
      invariant r == ForTargets(count, lead, start, targets[..t], perGroup)
    {
      assert targets[..t + 1][..t] == targets[..t];
      r := r + Picked(start, targets[t], pairs, indices);
    }
    assert targets[..|targets|] == targets;
  }

  // ---------------------------------------------------------------- what the search covers

  /** Every schedule heats or cools before it coasts, within the lead, and releases inside the horizon. */
  predicate InBounds(x: Schedule, count: int, lead: int) {
    0 <= x.start < x.stop < x.release < count && x.stop - x.start <= lead
  }

  lemma GroupMember(count: int, lead: int, start: int, target: real, perGroup: nat, x: Schedule)
    requires 0 <= start < Starts(count, lead) && perGroup > 0
    requires x in Group(count, lead, start, target, perGroup)
    ensures x.start == start && x.target == target && InBounds(x, count, lead)
  {
    hide Sample;
    var pairs := Pairs(start, lead, count);
    var indices := Sample(count, lead, start, perGroup);
    var k :| 0 <= k < |indices| && x == Schedule(start, pairs[indices[k]].0, pairs[indices[k]].1, target);
    PairsFromHas(start + 1, Least(start + lead, count - 2), count, pairs[indices[k]]);
  }

  /** A start and target get as many different schedules as their budget and their alternatives allow. */
  lemma GroupSize(count: int, lead: int, start: int, target: real, perGroup: nat)
    requires 0 <= start < Starts(count, lead) && perGroup > 0
    ensures |Group(count, lead, start, target, perGroup)| == Least(perGroup, |Pairs(start, lead, count)|) > 0
  {
    PairsExist(count, lead, start);
  }

  /** With budget for all of them, every stop and release is tried. */
  lemma GroupCovers(count: int, lead: int, start: int, target: real, perGroup: nat, x: Schedule)
    requires 0 <= start < Starts(count, lead) && perGroup >= |Pairs(start, lead, count)|
    requires x.start == start && x.target == target && InBounds(x, count, lead) && x.stop <= count - 2 && perGroup > 0
    ensures x in Group(count, lead, start, target, perGroup)
  {
    var pairs := Pairs(start, lead, count);
    PairsFromHas(start + 1, Least(start + lead, count - 2), count, (x.stop, x.release));
    var k :| 0 <= k < |pairs| && pairs[k] == (x.stop, x.release);
    SampleIsStrict(|pairs|, |pairs|);
    assert Group(count, lead, start, target, perGroup)[k] == x;
  }

  lemma {:induction false} TargetsMember(count: int, lead: int, start: int, targets: seq<real>, perGroup: nat,
                                         x: Schedule)
    requires 0 <= start < Starts(count, lead) && perGroup > 0
    ensures x in ForTargets(count, lead, start, targets, perGroup) <==>
            exists t | 0 <= t < |targets| :: x in Group(count, lead, start, targets[t], perGroup)
  {
    hide Group;
    if |targets| > 0 {
      var n := |targets| - 1;
      TargetsMember(count, lead, start, targets[..n], perGroup, x);
      if x in ForTargets(count, lead, start, targets[..n], perGroup) {
        var t :| 0 <= t < n && x in Group(count, lead, start, targets[..n][t], perGroup);
        assert x in Group(count, lead, start, targets[t], perGroup);
      }
      if t :| 0 <= t < |targets| && x in Group(count, lead, start, targets[t], perGroup) {
        if t < n { assert x in Group(count, lead, start, targets[..n][t], perGroup); }
      }
    }
  }

  lemma {:induction false} StartsMember(count: int, lead: int, starts: nat, targets: seq<real>, perGroup: nat,
                                        x: Schedule)
    requires starts <= Starts(count, lead) && perGroup > 0
    ensures x in ForStarts(count, lead, starts, targets, perGroup) <==>
            exists s, t | 0 <= s < starts && 0 <= t < |targets| :: x in Group(count, lead, s, targets[t], perGroup)
  {
    hide Group, ForTargets;
    if starts > 0 {
      StartsMember(count, lead, starts - 1, targets, perGroup, x);
      TargetsMember(count, lead, starts - 1, targets, perGroup, x);
    }
  }

  lemma {:induction false} TargetsSize(count: int, lead: int, start: int, targets: seq<real>, perGroup: nat)
    requires 0 <= start < Starts(count, lead) && perGroup > 0
    ensures |ForTargets(count, lead, start, targets, perGroup)| <= |targets| * perGroup
  {
    hide Group, Pairs;
    if |targets| > 0 {
      var n := |targets| - 1;
      TargetsSize(count, lead, start, targets[..n], perGroup);
      GroupSize(count, lead, start, targets[n], perGroup);
      assert |targets| * perGroup == n * perGroup + perGroup;
    }
  }

  lemma {:induction false} StartsSize(count: int, lead: int, starts: nat, targets: seq<real>, perGroup: nat)
    requires starts <= Starts(count, lead) && perGroup > 0
    ensures |ForStarts(count, lead, starts, targets, perGroup)| <= starts * (|targets| * perGroup)
  {
    hide ForTargets;
    if starts > 0 {
      StartsSize(count, lead, starts - 1, targets, perGroup);
      TargetsSize(count, lead, starts - 1, targets, perGroup);
      assert starts * (|targets| * perGroup) == (starts - 1) * (|targets| * perGroup) + |targets| * perGroup;
    }
  }

  /** The search never exceeds its limit, and every schedule it tries is well ordered. */
  lemma SearchIsBounded(count: int, lead: int, targets: seq<real>, limit: nat)
    requires Schedules(count, lead, targets, limit).Some?
    ensures var r := Schedules(count, lead, targets, limit).value;
      |r| <= limit && forall x | x in r :: InBounds(x, count, lead) && x.target in targets
  {
    hide Group, ForStarts;
    var starts, groups := Starts(count, lead), Starts(count, lead) * |targets|;
    if groups > 0 {
      var perGroup := limit / groups;
      StartsSize(count, lead, starts, targets, perGroup);
      assert starts * (|targets| * perGroup) == groups * perGroup <= limit;
      var r := ForStarts(count, lead, starts, targets, perGroup);
      forall x | x in r ensures InBounds(x, count, lead) && x.target in targets {
        StartsMember(count, lead, starts, targets, perGroup, x);
        var s, t :| 0 <= s < starts && 0 <= t < |targets| && x in Group(count, lead, s, targets[t], perGroup);
        GroupMember(count, lead, s, targets[t], perGroup, x);
      }
    }
  }

  /** It is refused exactly when there are more starts and targets than schedules allowed. */
  lemma SearchIsRefused(count: int, lead: int, targets: seq<real>, limit: nat)
    ensures Schedules(count, lead, targets, limit).None? <==> limit < Starts(count, lead) * |targets|
  {
    var groups := Starts(count, lead) * |targets|;
    if groups > 0 && limit >= groups { ProductsOrdered(1, limit / groups, groups); }
    assert groups > 0 && limit < groups ==> limit / groups == 0;
  }

  /** Every near-term start is tried with every target, and with all its alternatives when the budget allows. */
  lemma SearchCovers(count: int, lead: int, targets: seq<real>, limit: nat, start: int, t: nat)
    requires Schedules(count, lead, targets, limit).Some?
    requires 0 <= start < Starts(count, lead) && t < |targets|
    ensures var r := Schedules(count, lead, targets, limit).value;
      && (exists x: Schedule :: x in r && x.start == start && x.target == targets[t])
      && (limit / (Starts(count, lead) * |targets|) >= |Pairs(start, lead, count)| ==>
            forall x: Schedule | x.start == start && x.target == targets[t] && InBounds(x, count, lead) :: x in r)
  {
    hide Group, ForStarts, Pairs;
    var starts := Starts(count, lead);
    assert starts * |targets| > 0 by { ProductsOrdered(1, starts, |targets|); }
    var perGroup := limit / (starts * |targets|);
    GroupSize(count, lead, start, targets[t], perGroup);
    var group := Group(count, lead, start, targets[t], perGroup);
    forall x | x in group ensures x in Schedules(count, lead, targets, limit).value {
      StartsMember(count, lead, starts, targets, perGroup, x);
    }
    GroupMember(count, lead, start, targets[t], perGroup, group[0]);
    assert group[0] in group;
    if perGroup >= |Pairs(start, lead, count)| {
      forall x: Schedule | x.start == start && x.target == targets[t] && InBounds(x, count, lead) && x.stop <= count - 2
        ensures x in group
      {
        GroupCovers(count, lead, start, targets[t], perGroup, x);
      }
    }
  }

  // ---------------------------------------------------------------- the work of one optimisation

  /** Schedules allowed to each ready mode. */
  function CandidateLimit(slots: nat, readyModes: nat): nat {
    MAX_SEARCH_SLOT_EVALUATIONS / Most(SIMULATIONS * slots * readyModes, 1)
  }

  function Total(lists: seq<seq<Schedule>>): nat {
    if |lists| == 0 then 0 else Total(lists[..|lists| - 1]) + |lists[|lists| - 1]|
  }

  lemma {:induction false} TotalBound(lists: seq<seq<Schedule>>, limit: nat)
    requires forall l | l in lists :: |l| <= limit
    ensures Total(lists) <= |lists| * limit
  {
    if |lists| > 0 {
      TotalBound(lists[..|lists| - 1], limit);
      assert |lists| * limit == (|lists| - 1) * limit + limit;
    }
  }

  /** Simulating every schedule of every ready mode three times over all slots stays within the fixed work limit. */
  lemma SearchWorkIsBounded(slots: nat, readyModes: nat, lead: seq<int>, targets: seq<real>, lists: seq<seq<Schedule>>)
    requires |lists| <= readyModes && |lead| == |lists|
    requires forall m | 0 <= m < |lists| ::
      Schedules(slots, lead[m], targets, CandidateLimit(slots, readyModes)) == Some(lists[m])
    ensures SIMULATIONS * slots * Total(lists) <= MAX_SEARCH_SLOT_EVALUATIONS
  {
    var limit := CandidateLimit(slots, readyModes);
    forall l | l in lists ensures |l| <= limit {
      var m :| 0 <= m < |lists| && lists[m] == l;
      SearchIsBounded(slots, lead[m], targets, limit);
    }
    TotalBound(lists, limit);
    WorkArithmetic(slots, readyModes, |lists|, Total(lists), limit);
  }

  lemma WorkArithmetic(slots: nat, readyModes: nat, modes: nat, total: nat, limit: nat)
    requires modes <= readyModes && total <= modes * limit && limit == CandidateLimit(slots, readyModes)
    ensures SIMULATIONS * slots * total <= MAX_SEARCH_SLOT_EVALUATIONS
  {
    var per := SIMULATIONS * slots;
    var all := per * readyModes;
    if slots > 0 && modes > 0 {
      ProductsOrdered(1, readyModes, per);
      assert readyModes * per == all;
      assert all * limit <= MAX_SEARCH_SLOT_EVALUATIONS;
      assert modes * limit <= readyModes * limit by { if limit > 0 { ProductsOrdered(modes, readyModes, limit); } }
      ProductsOrdered(total, readyModes * limit, per);
      assert (readyModes * limit) * per == all * limit;
    } else if slots > 0 {
      assert total <= 0 * limit == 0;
    }
  }
}
