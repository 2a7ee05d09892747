/**
 Rolling control-attempt accounting: the announced instant at which allowance returns is exact, and pruning the
 ledger never changes a later answer.
 */
module ActionLimits {
  import opened Common

  const WINDOW := 86_400 * MICROS_PER_SECOND

  /** One ledger row; `note` stands for the fields that pruning drops. */
  datatype Row = Row(asset: string, kind: Option<string>, result: Option<string>, reason: string, commandSent: Option<bool>,
                     at: Option<int>, note: string)

  const REJECTED := "export_limit_service_rejected"

  /** Applied and uncertain attempts count; no-ops, climate releases and undispatched safety stops do not. */
  predicate CountedAttempt(row: Row) {
    && row.asset in {"ev", "daikin", "enphase", "enphase_export_limit"}
    && (if row.asset == "enphase_export_limit" then row.result == Some("pending") || REJECTED <= row.reason
        else row.result in {Some("applied"), Some("failed"), Some("restored")}
             || (row.asset == "ev" && row.reason == "ev_vehicle_suspended" && row.commandSent == Some(true)))
    && row.reason !in {"already_in_desired_state", "already_in_desired_hvac_state"}
    && !(row.asset == "ev" && row.reason == "ev_control_unavailable" && row.commandSent != Some(true))
    && (row.asset == "daikin" ==> row.kind.None? || row.kind == Some("set_hvac"))
  }

  predicate Recent(row: Row, now: int) {
    CountedAttempt(row) && row.at.Some? && now - WINDOW < row.at.value <= now
  }

  function Compact(row: Row): Row { row.(note := "") }

  /** Pruned ledger: the recent counted attempts, compacted. */
  function RecentAttempts(rows: seq<Row>, now: int): seq<Row> {
    if |rows| == 0 then []
    else
      var init, row := RecentAttempts(rows[..|rows| - 1], now), rows[|rows| - 1];
      if Recent(row, now) then init + [Compact(row)] else init
  }

  /** Instants of one asset's recent attempts, in ledger order. */
  function Times(rows: seq<Row>, now: int, asset: string): seq<int> {
    if |rows| == 0 then []
    else
      var init, row := Times(rows[..|rows| - 1], now, asset), rows[|rows| - 1];
      if Recent(row, now) && row.asset == asset then init + [row.at.value] else init
  }

  function Itself(at: int): int { at }

  /** `limit` is zero when there is none. */
  datatype Budget = Budget(limit: nat, used: nat, remaining: Option<nat>, nextExpiry: Option<int>, availableAt: Option<int>)

  function ActionBudget(rows: seq<Row>, limit: nat, now: int, asset: string): Budget {
    var times := SortedBy(Times(rows, now, asset), Itself);
    Budget(limit, |times|,
           if limit == 0 then None else Some(if limit > |times| then limit - |times| else 0),
           if |times| == 0 then None else Some(times[0] + WINDOW),
           if 0 < limit <= |times| then Some(times[|times| - limit] + WINDOW) else None)
  }

  // ---------------------------------------------------------------- what uses allowance

  predicate StartsWith(text: string, prefix: string) { |prefix| <= |text| && text[..|prefix|] == prefix }

  /** The attempts that use an asset's allowance: everything applied, failed or restored by the charger, the heat pump's
      climate commands and the battery profile; a suspended vehicle that was sent a command; and every export limit that is
      pending or was rejected by its service. What was already in the desired state uses nothing, and neither does a
      charger without a target. */
  ghost predicate UsesAllowance(row: Row, asset: string) {
    && row.asset == asset
    && row.reason != "already_in_desired_state" && row.reason != "already_in_desired_hvac_state"
    && (var done := row.result == Some("applied") || row.result == Some("failed") || row.result == Some("restored");
        || (asset == "ev"
            && (done || (row.reason == "ev_vehicle_suspended" && row.commandSent == Some(true)))
            && (row.reason != "ev_control_unavailable" || row.commandSent == Some(true)))
        || (asset == "daikin" && done && (row.kind.None? || row.kind == Some("set_hvac")))
        || (asset == "enphase" && done)
        || (asset == "enphase_export_limit"
            && (row.result == Some("pending") || StartsWith(row.reason, "export_limit_service_rejected"))))
  }

  lemma CountedIs(row: Row)
    ensures CountedAttempt(row) <==> UsesAllowance(row, row.asset)
  {
    assert REJECTED <= row.reason <==> StartsWith(row.reason, "export_limit_service_rejected");
  }

  /** Attempts of the last twenty-four hours. */
  ghost function UsesIn(rows: seq<Row>, now: int, asset: string): nat {
    if |rows| == 0 then 0
    else
      var row := rows[|rows| - 1];
      UsesIn(rows[..|rows| - 1], now, asset)
      + (if UsesAllowance(row, asset) && row.at.Some? && now - 86_400_000_000 < row.at.value <= now then 1 else 0)
  }

  lemma {:induction false} TimesAreUses(rows: seq<Row>, now: int, asset: string)
    ensures |Times(rows, now, asset)| == UsesIn(rows, now, asset)
  {
    hide CountedAttempt, UsesAllowance;
    if |rows| > 0 {
      TimesAreUses(rows[..|rows| - 1], now, asset);
      CountedIs(rows[|rows| - 1]);
      OfAsset(rows[|rows| - 1], asset);
    }
  }

  lemma OfAsset(row: Row, asset: string)
    ensures UsesAllowance(row, asset) ==> row.asset == asset
  {}

  /** The announced use is the number of counted attempts of the last twenty-four hours, and what remains is the rest of
      the limit. */
  lemma UseIsExact(rows: seq<Row>, limit: nat, now: int, asset: string)
    ensures var b := ActionBudget(rows, limit, now, asset);
      && b.used == UsesIn(rows, now, asset)
      && b.remaining == if limit == 0 then None else Some(if limit > b.used then limit - b.used else 0)
  {
    TimesAreUses(rows, now, asset);
  }

  // ---------------------------------------------------------------- pruning

  predicate NotInFuture(rows: seq<Row>, now: int) {
    forall r | r in rows :: CountedAttempt(r) && r.at.Some? ==> r.at.value <= now
  }

  lemma {:induction false} PruningKeepsTimes(rows: seq<Row>, pruned: int, now: int, asset: string)
    requires NotInFuture(rows, pruned) && pruned <= now
    ensures Times(RecentAttempts(rows, pruned), now, asset) == Times(rows, now, asset)
  {
    if |rows| > 0 {
      var init, row := rows[..|rows| - 1], rows[|rows| - 1];
      assert row in rows && forall r | r in init :: r in rows;
      PruningKeepsTimes(init, pruned, now, asset);
      if Recent(row, pruned) {
        var kept := RecentAttempts(init, pruned);
        assert (kept + [Compact(row)])[..|kept|] == kept;
        assert Recent(Compact(row), now) <==> Recent(row, now);
      }
    }
  }

  /** A ledger pruned at one time answers every later question as the full ledger would. */
  lemma PruningIsInvisible(rows: seq<Row>, limit: nat, pruned: int, now: int, asset: string)
    requires NotInFuture(rows, pruned) && pruned <= now
    ensures ActionBudget(RecentAttempts(rows, pruned), limit, now, asset) == ActionBudget(rows, limit, now, asset)
  {
    hide Times, RecentAttempts, SortedBy;
    PruningKeepsTimes(rows, pruned, now, asset);
  }

  /** Pruning again at a later time leaves what pruning then would have left. */
  lemma {:induction false} PruningComposes(rows: seq<Row>, pruned: int, now: int)
    requires NotInFuture(rows, pruned) && pruned <= now
    ensures RecentAttempts(RecentAttempts(rows, pruned), now) == RecentAttempts(rows, now)
  {
    if |rows| > 0 {
      var init, row := rows[..|rows| - 1], rows[|rows| - 1];
      assert row in rows && forall r | r in init :: r in rows;
      PruningComposes(init, pruned, now);
      if Recent(row, pruned) {
        var kept := RecentAttempts(init, pruned);
        assert (kept + [Compact(row)])[..|kept|] == kept;
        assert Recent(Compact(row), now) <==> Recent(row, now);
      }
    }
  }

  // ---------------------------------------------------------------- expiry

  /** How many instants are later than `c`. */
  function After(s: seq<int>, c: int): nat {
    if |s| == 0 then 0 else After(s[..|s| - 1], c) + (if s[|s| - 1] > c then 1 else 0)
  }

  lemma {:induction false} AfterFirst(x: int, s: seq<int>, c: int)
    ensures After([x] + s, c) == (if x > c then 1 else 0) + After(s, c)
  {
    if |s| == 0 {
      assert [x] + s == [x] && [x][..0] == [];
    } else {
      var n := |s| - 1;
      assert ([x] + s)[..n + 1] == [x] + s[..n];
      AfterFirst(x, s[..n], c);
    }
  }

  lemma {:induction false} AfterInserted(s: seq<int>, x: int, c: int)
    requires Sorted(s, Itself)
    ensures After(Inserted(s, x, Itself), c) == After(s, c) + (if x > c then 1 else 0)
  {
    if |s| == 0 {
      AfterFirst(x, [], c);
      assert [x] + [] == [x];
    } else if s[0] <= x {
      AfterInserted(s[1..], x, c);
      AfterFirst(s[0], Inserted(s[1..], x, Itself), c);
      AfterFirst(s[0], s[1..], c);
      assert [s[0]] + s[1..] == s;
    } else {
      AfterFirst(x, s, c);
    }
  }

  lemma {:induction false} AfterSorted(s: seq<int>, c: int)
    ensures After(SortedBy(s, Itself), c) == After(s, c)
  {
    if |s| > 0 {
      AfterSorted(s[..|s| - 1], c);
      AfterInserted(SortedBy(s[..|s| - 1], Itself), s[|s| - 1], c);
    }
  }

  lemma {:induction false} AfterAtMost(s: seq<int>, c: int)
    ensures After(s, c) <= |s|
    ensures (forall k | 0 <= k < |s| :: s[k] > c) ==> After(s, c) == |s|
    ensures (forall k | 0 <= k < |s| :: s[k] <= c) ==> After(s, c) == 0
  {
    if |s| > 0 { AfterAtMost(s[..|s| - 1], c); }
  }

  lemma {:induction false} AfterSplit(s: seq<int>, t: seq<int>, c: int)
    ensures After(s + t, c) == After(s, c) + After(t, c)
  {
    if |t| == 0 {
      assert s + t == s;
    } else {
      assert (s + t)[..|s + t| - 1] == s + t[..|t| - 1];
      AfterSplit(s, t[..|t| - 1], c);
    }
  }

  /** Cut at `k`: everything before is `lo`, everything from there on is `hi`. */
  lemma AfterCut(s: seq<int>, k: nat, c: int)
    requires k <= |s|
    ensures (forall i | 0 <= i < k :: s[i] <= c) ==> After(s, c) <= |s| - k
    ensures (forall i | k <= i < |s| :: s[i] > c) ==> After(s, c) >= |s| - k
  {
    hide After;
    assert s == s[..k] + s[k..];
    AfterSplit(s[..k], s[k..], c);
    AfterAtMost(s[..k], c);
    AfterAtMost(s[k..], c);
  }

  /** In a sorted list, fewer than `n - k` instants are later than `c` exactly when the one at `k` is not. */
  lemma AfterAtIndex(s: seq<int>, k: nat, c: int)
    requires Sorted(s, Itself) && k < |s|
    ensures s[k] <= c <==> After(s, c) < |s| - k
  {
    hide After;
    AfterCut(s, k, c);
    AfterCut(s, k + 1, c);
  }

  lemma {:induction false} LaterTimes(rows: seq<Row>, now: int, t: int, asset: string)
    requires NotInFuture(rows, now) && now <= t
    ensures |Times(rows, t, asset)| == After(Times(rows, now, asset), t - WINDOW)
  {
    if |rows| > 0 {
      var init, row := rows[..|rows| - 1], rows[|rows| - 1];
      assert row in rows && forall r | r in init :: r in rows;
      LaterTimes(init, now, t, asset);
      if Recent(row, now) && row.asset == asset {
        var times := Times(init, now, asset);
        assert (times + [row.at.value])[..|times|] == times;
      }
    }
  }

  function Used(rows: seq<Row>, now: int, asset: string): nat { ActionBudget(rows, 0, now, asset).used }

  /** With no further attempts, there is allowance at a later instant exactly from `allowance_available_at` on. */
  lemma AllowanceIsExact(rows: seq<Row>, limit: nat, now: int, t: int, asset: string)
    requires NotInFuture(rows, now) && now <= t && limit > 0
    ensures var at := ActionBudget(rows, limit, now, asset).availableAt;
      && (Used(rows, t, asset) < limit <==> at.None? || at.value <= t)
      && (at.None? <==> Used(rows, now, asset) < limit)
      && (at.Some? ==> at.value > now && ActionBudget(rows, limit, now, asset).remaining == Some(0))
  {
    hide After, Times, SortedBy, NotInFuture;
    var times := SortedBy(Times(rows, now, asset), Itself);
    LaterTimes(rows, now, t, asset);
    AfterSorted(Times(rows, now, asset), t - WINDOW);
    LaterTimes(rows, now, now, asset);
    AfterSorted(Times(rows, now, asset), now - WINDOW);
    AfterAtMost(times, t - WINDOW);
    if limit <= |times| {
      AfterAtIndex(times, |times| - limit, t - WINDOW);
      AfterAtIndex(times, |times| - limit, now - WINDOW);
    }
  }

  /** The next expiry is the instant at which the used count first falls. */
  lemma NextExpiryIsExact(rows: seq<Row>, now: int, t: int, asset: string)
    requires NotInFuture(rows, now) && now <= t
    ensures var at := ActionBudget(rows, 0, now, asset).nextExpiry;
      Used(rows, t, asset) <= Used(rows, now, asset)
      && (Used(rows, t, asset) < Used(rows, now, asset) <==> at.Some? && at.value <= t)
  {
    hide After, Times, SortedBy, NotInFuture;
    var times := SortedBy(Times(rows, now, asset), Itself);
    LaterTimes(rows, now, t, asset);
    AfterSorted(Times(rows, now, asset), t - WINDOW);
    AfterAtMost(times, t - WINDOW);
    if |times| > 0 { AfterAtIndex(times, 0, t - WINDOW); }
  }
}
