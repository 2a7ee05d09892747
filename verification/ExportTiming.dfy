/** Timing records of upstream controls: how they are carried forward and repaired, and when a change may follow. */
module ExportTiming {
  import opened Common
  import opened ExportLog
  import opened ExportState

  function Interval(option: nat): nat { if option > MIN_CHANGE then option else MIN_CHANGE }

  predicate WellFormed(r: Record, now: nat) {
    && r.checkedAt <= now && AtMost(r.attemptedAt, now) && AtMost(r.confirmedAt, now) && AtMost(r.settledAt, now)
    && MIN_CHANGE <= r.interval <= MAX_SAVED_INTERVAL
  }

  /** Carry a record forward, start one, or repair one whose clock cannot be believed. */
  function Normalized(d: Data, control: string, now: nat): Record {
    if control !in d.limits then
      Record(now, if Baseline(d).Some? || PendingOf(d).Some? then Some(now) else None, None, None, None, None, MIN_CHANGE)
    else if WellFormed(d.limits[control], now) then
      d.limits[control].(checkedAt := now)
    else
      var saved := d.limits[control].interval;
      Record(now, Some(now), None, None, None, None,
             if MIN_CHANGE <= saved <= MAX_SAVED_INTERVAL then saved else MIN_CHANGE)
  }

  function Later(a: Option<nat>, b: nat): Option<nat> {
    if a.Some? && a.value >= b then a else Some(b)
  }

  /** The earliest instant at which the control may change again. */
  function NextEligible(r: Record, option: nat): (d: Option<nat>)
    ensures r.attemptedAt.Some? ==>
      && AtLeast(d, r.attemptedAt.value + MIN_CHANGE)
      && AtLeast(d, r.attemptedAt.value + Interval(option)) && AtLeast(d, r.attemptedAt.value + r.interval)
    ensures r.confirmedAt.Some? ==> AtLeast(d, r.confirmedAt.value + MIN_CHANGE)
    ensures r.settledAt.Some? ==> AtLeast(d, r.settledAt.value + MIN_CHANGE)
  {
    var hold := if Interval(option) > r.interval then Interval(option) else r.interval;
    var a := if r.attemptedAt.Some? then Some(r.attemptedAt.value + hold) else None;
    var b := if r.confirmedAt.Some? then Later(a, r.confirmedAt.value + MIN_CHANGE) else a;
    if r.settledAt.Some? then Later(b, r.settledAt.value + MIN_CHANGE) else b
  }

  /** Repair happens once: the result is believable, and later passes only note that they looked. */
  lemma NormalizationSettles(d: Data, control: string, now: nat, later: nat)
    requires now <= later
    ensures var r := Normalized(d, control, now);
      && WellFormed(r, now)
      && Normalized(d.(limits := d.limits[control := r]), control, later) == r.(checkedAt := later)
      && (control in d.limits && WellFormed(d.limits[control], now) ==>
            forall option :: NextEligible(r, option) == NextEligible(d.limits[control], option))
  {}

  /** An unbelievable record, or old ownership without one, starts one bounded wait: neither a fresh budget nor a
      wait for an accidentally distant date. */
  lemma RepairWaitsBounded(d: Data, control: string, now: nat, option: nat)
    requires if control in d.limits then !WellFormed(d.limits[control], now) else Baseline(d).Some? || PendingOf(d).Some?
    ensures var wait := NextEligible(Normalized(d, control, now), option);
      && AtLeast(wait, now + MIN_CHANGE) && AtLeast(wait, now + Interval(option))
      && AtMost(wait, now + if Interval(option) > MAX_SAVED_INTERVAL then Interval(option) else MAX_SAVED_INTERVAL)
  {}

  lemma NormalizedTimely(d: Data, control: string, log: seq<Event>, issued: nat, clock: nat)
    requires DataInv(d, log, issued, clock)
    ensures DataInv(d.(limits := d.limits[control := Normalized(d, control, clock)]), log, issued, clock)
  {
    hide CallTime, LastCall, Outstanding;
    var n := d.(limits := d.limits[control := Normalized(d, control, clock)]);
    if Steady(log) {
      assert ControlHeld(d, control, log);
      if control in d.limits { assert RecordTimely(d, control, log, clock); }
      assert RecordTimely(n, control, log, clock);
      assert ControlHeld(n, control, log);
    }
    LimitsRewritten(d, control, Normalized(d, control, clock), log, issued, clock);
  }

  // ---------------------------------------------------------------- timing records without a pending call

  /** No stamp of the record was made on behalf of a request sent at `sentAt`. */
  predicate Unclaimed(r: Record, sentAt: nat) {
    r.confirmationFor != Some(sentAt) && r.settlementFor != Some(sentAt)
  }

  lemma EligibleIsUnclaimed(r: Record, control: string, log: seq<Event>, clock: nat, option: nat, now: nat)
    requires TimingOk(r, control, log, clock) && AtMost(NextEligible(r, option), now)
    ensures Unclaimed(r, now)
  {}

  /** A record sound on its own: no stamp from the future, and the control's last call already anchored in it. */
  ghost predicate TimingOk(r: Record, control: string, log: seq<Event>, clock: nat) {
    && r.checkedAt <= clock && AtMost(r.attemptedAt, clock) && AtMost(r.confirmedAt, clock) && AtMost(r.settledAt, clock)
    && (r.confirmationFor.Some? ==> r.confirmedAt.Some? && r.confirmationFor.value <= r.confirmedAt.value)
    && (r.settlementFor.Some? ==> r.settledAt.Some? && r.settlementFor.value <= r.settledAt.value)
    && (LastCall(log, control).Some? ==> Anchored(r, LastCall(log, control).value.time))
  }

  lemma IdleTiming(d: Data, control: string, log: seq<Event>, issued: nat, clock: nat)
    requires DataInv(d, log, issued, clock) && Steady(log) && PendingOf(d).None? && control in d.limits
    ensures TimingOk(d.limits[control], control, log, clock)
  {
    hide LastCall, CallTime, Outstanding;
    assert RecordTimely(d, control, log, clock) && ControlHeld(d, control, log);
  }

  lemma TimingReserved(r: Record, control: string, log: seq<Event>, issued: nat, clock: nat, now: nat, option: nat)
    requires TimingOk(r, control, log, clock) && now == clock && TicketsBy(log, issued, clock)
    requires GoodLog(log) && Steady(log)
    ensures TimingOk(r.(attemptedAt := Some(now), checkedAt := now, interval := Interval(option)), control, log, clock)
  {
    hide CallTime, LastCall;
    if LastCall(log, control).Some? { LastCallHasTime(log, control); }
  }

  lemma TimingUsable(d: Data, control: string, r: Record, log: seq<Event>, issued: nat, clock: nat)
    requires DataInv(d, log, issued, clock) && (Steady(log) ==> TimingOk(r, control, log, clock))
    requires PendingOf(d).Some? ==> CallTime(log, PendingOf(d).value.ticket).None?
    ensures DataInv(d.(limits := d.limits[control := r]), log, issued, clock)
  {
    hide LastCall, CallTime, Outstanding;
    LimitsRewritten(d, control, r, log, issued, clock);
  }

  lemma AnsweredStays(d: Data, log: seq<Event>, e: Event)
    requires PendingOf(d).Some? && Answered(d, log) && !e.Call?
    ensures Answered(d, log + [e])
  {
    hide LastCall, CallTime;
    QuietTimes(log, e);
  }
}
