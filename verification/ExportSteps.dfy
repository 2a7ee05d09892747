/**
 The export-limit transaction as functions of its state and of the environment's answers: persist once, dispatch once,
 reconcile with later readings of the gateway. Every run of the transaction is a run of these functions, so statements
 about all environments and all continuations can be made about them.
 */
module ExportSteps {
  import opened Common
  import opened ExportLog
  import opened ExportState
  import opened ExportTiming

  /** Where an operation left off, and how it ended. */
  datatype After<+T> = After(state: State, outcome: Outcome<T>)
  {
    predicate IsFailure() { outcome.IsFailure() }

    function PropagateFailure<U>(): After<U>
      requires IsFailure()
    {
      After(state, outcome.PropagateFailure<U>())
    }

    function Extract(): (State, T)
      requires !IsFailure()
    {
      (state, outcome.value)
    }
  }

  datatype Feedback = Unusable(unsupported: bool) | Seen(read: Readback)

  datatype Verdict = Rejected | Skipped | Pending | Errored | Restored

  datatype Result = Result(verdict: Verdict, reason: Option<Reason>, sent: bool)

  /** A readback counts only when it is neither in the future nor older than ten minutes. */
  function Settled(look: Look, now: nat): Feedback {
    if look.raw.None? then Unusable(look.unsupported)
    else if look.raw.value.at > now || now - look.raw.value.at > READBACK_MAX_AGE then Unusable(false)
    else Seen(look.raw.value)
  }

  function IssueOf(unsupported: bool): Reason { if unsupported then Unsupported else Unavailable }

  function PauseOf(d: Data): Option<Reason> { if d.own.Some? then d.own.value.pause else None }

  /** Ownership after another writer took over: watch the new setting, keep only an unrelated pause. */
  function Adopted(own: Ownership, target: Identity, setting: Setting): Ownership {
    Ownership(target, Some(setting), None, None, if own.pause == Some(ExternalConflict) then None else own.pause, false)
  }

  /** An unbelievable request time moves to the present, and so does a missing or future earliest read. */
  function Reread(p: Request, now: nat): Request {
    var q := if p.sentAt > now then p.(sentAt := now) else p;
    if q.notBefore.None? || q.notBefore.value > now then q.(notBefore := Some(now)) else q
  }

  predicate ReadMatches(p: Request, read: Readback) {
    && !read.pending && read.setting.watts == p.watts
    && p.notBefore.Some? && read.at >= p.sentAt && read.at >= p.notBefore.value
    && (p.slew.None? || read.setting.slew == p.slew.value)
  }

  // ---------------------------------------------------------------- the store and the gateway

  function Ticked(s: State, now: nat): State { if now >= s.clock then s.(clock := now) else s.With(ClockBack) }

  /** The process ends; a new one starts from the disk. */
  function Restarted(s: State): State { s.With(Crash(s.disk)).(mem := s.disk) }

  /** Replace the in-memory copy; it may or may not reach the disk, unless a flush is demanded and succeeds. */
  function Persisted(s: State, d: Data, flush: bool): After<()> {
    var fate := if flush && s.world.Fate().Delayed? then Written else s.world.Fate();
    var reached := fate.Written? || fate.FailedWritten? || fate.DiedWritten?;
    var t := s.(mem := d, disk := if reached then d else s.disk, world := s.world.AfterSave());
    if fate.DiedUnwritten? || fate.DiedWritten? then After(Restarted(t), Died)
    else After(t, if fate.Written? || fate.Delayed? then Done(()) else Raised)
  }

  function OwnSaved(s: State, own: Option<Ownership>): After<()> { Persisted(s, s.mem.(own := own), false) }

  function TimingSaved(s: State, control: string, record: Record, flush: bool): After<()> {
    Persisted(s, s.mem.(limits := s.mem.limits[control := record]), flush)
  }

  /** Another part of the program saves the store, as writing an audit entry does. */
  function Audited(s: State): After<()> { Persisted(s, s.mem, false) }

  /** Whatever the gateway's sensor shows, seen through the freshness rule. */
  function Looked(s: State, now: nat, target: Option<Identity>): (r: (State, Feedback))
    ensures r.1.Seen? ==> target.Some?
  {
    if target.None? then (s, Unusable(false))
    else
      var f := Settled(s.world.Glimpse(), now);
      var t := s.(world := s.world.AfterLook());
      (if f.Seen? then t.With(Observed(f.read)) else t, f)
  }

  function Prepared(s: State, now: nat, target: Identity): After<Record> {
    var record := Normalized(s.mem, target.control, now);
    var (t, _) :- TimingSaved(s, target.control, record, false);
    After(t, Done(record))
  }

  // ---------------------------------------------------------------- reconciliation

  /** Start the separate safety wait of a request overtaken by another writer, once. */
  function SettledExternally(s: State, p: Request, now: nat, target: Identity): After<()> {
    var (t, record) :- Prepared(s, now, target);
    if record.settlementFor == Some(p.sentAt) then After(t, Done(()))
    else TimingSaved(t, target.control, record.(settledAt := Some(now), settlementFor := Some(p.sentAt)), true)
  }

  /** The overtaken request is superseded, never confirmed; the baseline goes; the new setting is expected. */
  function Abandoned(log: seq<Event>, own: Ownership, read: Readback, reference: Setting): seq<Event> {
    Overtaken(log, own, read)
    + (if own.baseline.Some? then [Dropped(own.baseline.value, External(read, reference))] else [])
    + [Watched(read.setting)]
  }

  function Overtaken(log: seq<Event>, own: Ownership, read: Readback): seq<Event> {
    if own.pending.Some? then log + [Superseded(own.pending.value, read)] else log
  }

  /** Give up ownership to another writer. */
  function GivenUp(s: State, own: Ownership, read: Readback, now: nat, target: Identity, reference: Setting): After<()> {
    var (t, _) :- if own.pending.Some? && own.pending.value.notBefore.Some?
                  then SettledExternally(s, own.pending.value, now, target) else After(s, Done(()));
    OwnSaved(t.(log := Abandoned(t.log, own, read, reference)), Some(Adopted(own, target, read.setting)))
  }

  /** After a crash or a clock jump, only reads from now on can confirm the pending request. */
  function Refreshed(s: State, own: Ownership, now: nat): After<Ownership> {
    if own.pending.None? then After(s, Done(own))
    else
      var p := own.pending.value;
      var q := if p.sentAt > now then p.(sentAt := now) else p;
      var (t, _) :- if p.sentAt > now then OwnSaved(s, Some(own.(pending := Some(q)))) else After(s, Done(()));
      var next := own.(pending := Some(Reread(p, now)));
      var (u, _) :- if Reread(p, now) == q then After(t, Done(())) else OwnSaved(t, Some(next));
      After(u, Done(next))
  }

  /** Pause once for a request that was never confirmed. */
  function Unconfirming(s: State, own: Ownership): After<()> {
    if own.pause == Some(Unconfirmed) then After(s, Done(()))
    else
      var (t, _) :- OwnSaved(s, Some(own.(pause := Some(Unconfirmed))));
      Audited(t)
  }

  /** The wait after a confirmation starts at its first observation, once per request. */
  function Stamped(s: State, p: Request, now: nat, target: Identity): After<()> {
    var (t, record) :- Prepared(s, now, target);
    if record.confirmationFor == Some(p.sentAt) then After(t, Done(()))
    else TimingSaved(t, target.control, record.(confirmedAt := Some(now), confirmationFor := Some(p.sentAt)), true)
  }

  /** The matched command: anchor the wait, audit, and only then forget the request. */
  function Settling(s: State, own: Ownership, p: Request, read: Readback, now: nat, target: Identity): After<()> {
    var (t, _) :- Stamped(s, p, now, target);
    var (u, _) :- Audited(t.With(Applied(p, read)));
    var v := u.With(Confirmed(p, read));
    if p.restore then OwnSaved(v.With(Dropped(read.setting, Matched(read))), None)
    else OwnSaved(v, Some(own.(pending := None, expected := Some(read.setting))))
  }

  /** Resolve the pending request against a usable readback of the controlled entity. */
  function PendingReconciled(s: State, own: Ownership, p: Request, read: Readback, now: nat, target: Identity):
      After<Option<Reason>>
  {
    if ReadMatches(p, read) && !p.restore && read.setting.slew != p.seen.setting.slew then
      var (t, _) :- Audited(s);
      var (u, _) :- GivenUp(t, own, read, now, target, p.seen.setting);
      After(u, Done(PauseOf(u.mem)))
    else if ReadMatches(p, read) then
      var (t, _) :- Settling(s, own, p, read, now, target);
      After(t, Done(PauseOf(t.mem)))
    else if now - p.sentAt >= READBACK_MAX_AGE then
      var (t, _) :- Unconfirming(s, own);
      After(t, Done(Some(Unconfirmed)))
    else After(s, Done(Some(ChangePending)))
  }

  /** Reconcile with a usable readback of this control. */
  function ReadReconciled(s: State, own: Ownership, read: Readback, now: nat, target: Identity): After<Option<Reason>> {
    if own.pause == Some(ExternalConflict) && own.pending.None? then
      if read.pending then After(s, Done(Some(ChangePending)))
      else
        var (t, _) :- GivenUp(s, own, read, now, target, read.setting);
        After(t, Done(None))
    else if own.pending.Some? then PendingReconciled(s, own, own.pending.value, read, now, target)
    else if read.pending then After(s, Done(Some(ChangePending)))
    else if own.expected.Some? && own.expected.value != read.setting then
      var (t, _) :- GivenUp(s, own, read, now, target, own.expected.value);
      After(t, Done(PauseOf(t.mem)))
    else After(s, Done(own.pause))
  }

  /** Follow an alias of the same control. */
  function Realiased(s: State, own: Ownership, target: Identity): After<Ownership> {
    if own.identity == target then After(s, Done(own))
    else
      var next := own.(identity := target);
      var (t, _) :- OwnSaved(s, Some(next));
      After(t, Done(next))
  }

  /** Without a usable readback only time can be judged. */
  function Blind(s: State, own: Ownership, unsupported: bool, now: nat): After<Option<Reason>> {
    if own.pending.Some? && now - own.pending.value.sentAt >= READBACK_MAX_AGE then
      var (t, _) :- Unconfirming(s, own);
      After(t, Done(Some(Unconfirmed)))
    else if unsupported && own.pending.None? then
      var (t, _) :- OwnSaved(s, Some(own.(pause := Some(Unsupported))));
      After(t, Done(Some(Unsupported)))
    else After(s, Done(Some(IssueOf(unsupported))))
  }

  function OwnReconciled(s: State, own: Ownership, now: nat, target: Option<Identity>): After<Option<Reason>> {
    var (t, kept) :- Refreshed(s, own, now);
    var (u, feedback) := Looked(t, now, target);
    match feedback
    case Unusable(unsupported) => Blind(u, kept, unsupported, now)
    case Seen(read) =>
      if kept.identity.control != target.value.control then After(u, Done(Some(TargetChanged)))
      else
        var (v, named) :- Realiased(u, kept, target.value);
        ReadReconciled(v, named, read, now, target.value)
  }

  /** Resolve durable commands and reconcile external changes. */
  function Reconciled(s: State, now: nat, target: Option<Identity>): After<Option<Reason>> {
    var (t, _) :- Readied(Ticked(s, now), now, target);
    if t.mem.own.None? then After(t, Done(None)) else OwnReconciled(t, t.mem.own.value, now, target)
  }

  function Readied(s: State, now: nat, target: Option<Identity>): After<()> {
    if target.None? then After(s, Done(()))
    else
      var (t, _) :- Prepared(s, now, target.value);
      After(t, Done(()))
  }

  /** A user resumes control: with a command still uncertain nothing changes, else the pause goes, and so does
      ownership that holds no baseline. */
  function Resumed(s: State): After<()> {
    if s.mem.own.None? then OwnSaved(s, None)
    else if PendingOf(s.mem).Some? then After(s, Done(()))
    else OwnSaved(s, if Baseline(s.mem).Some? then Some(s.mem.own.value.(pause := None)) else None)
  }

  /** While nothing is owned, remember what the gateway shows, or that it cannot be controlled. */
  function Watching(s: State, now: nat, target: Identity): After<()> {
    var (t, feedback) := Looked(s, now, Some(target));
    if t.mem.own.Some? then After(t, Done(()))
    else
      match feedback
      case Unusable(unsupported) =>
        if unsupported then OwnSaved(t, Some(Ownership(target, None, None, None, Some(Unsupported), false)))
        else After(t, Done(()))
      case Seen(read) =>
        if read.pending then After(t, Done(()))
        else
          OwnSaved(t.With(Watched(read.setting)), Some(Ownership(target, Some(read.setting), None, None, None, false)))
  }

  // ---------------------------------------------------------------- dispatch

  /** Back to the ownership before the reservation: a takeover of its own is withdrawn. */
  function Withdrawn(s: State, previous: Option<Ownership>, baseline: Setting, ticket: nat): After<()> {
    if previous.Some? && previous.value.baseline.Some? then OwnSaved(s, previous)
    else OwnSaved(s.With(Dropped(baseline, Unsent(ticket))), previous)
  }

  /** A command to be sent, with everything needed to take it back. */
  datatype Order = Order(own: Ownership, request: Request, baseline: Setting, target: Identity, timing: Record,
                         previous: Option<Ownership>, option: nat)
  {
    function Reservation(): Record {
      timing.(attemptedAt := Some(request.sentAt), checkedAt := request.sentAt, interval := Interval(option))
    }
  }

  /** Request, and with it a takeover if nothing is held yet, in memory and then on disk. */
  function ReservationSaved(s: State, o: Order): After<()> {
    var (t, _) :- OwnSaved(s, Some(o.own));
    TimingSaved(t, o.target.control, o.Reservation(), true)
  }

  function TakenOver(log: seq<Event>, d: Data, request: Request, baseline: Setting): seq<Event> {
    if Baseline(d).None? then log + [Reserved(request)] + [Acquired(baseline, request.seen)] else log + [Reserved(request)]
  }

  /** Make the reservation durable; any failure before the service boundary takes it all back. */
  function Reserving(s: State, o: Order): After<()> {
    var begun := s.(issued := s.issued + 1, log := TakenOver(s.log, s.mem, o.request, o.baseline));
    var saved := ReservationSaved(begun, o);
    if saved.outcome.Raised? then Unreserved(saved.state, o) else saved
  }

  function Unreserved(s: State, o: Order): After<()> {
    var (t, _) :- Withdrawn(s, o.previous, o.baseline, o.request.ticket);
    var (u, _) :- TimingSaved(t, o.target.control, o.timing, false);
    After(u, Raised)
  }

  /** The last look before the service boundary. */
  function Blocks(o: Order, m: Moment, latest: Feedback, window: (nat, nat)): Option<Reason> {
    var blocked :=
      if latest.Unusable? then Some(IssueOf(latest.unsupported))
      else if !AtMost(NextEligible(o.timing, o.option), m.now) then Some(RateLimited)
      else if m.target.None? || m.target.value.control != o.target.control then Some(TargetChanged)
      else if latest.read.pending then Some(ChangePending)
      else if latest.read.setting != o.request.seen.setting then Some(ExternalChanged)
      else None;
    if o.request.restore then blocked
    else if !(window.0 <= m.now < window.1) then Some(TariffExpired)
    else if blocked.None? && m.veto then Some(Vetoed)
    else blocked
  }

  /** A command that was not sent: timing and ownership go back, unless somebody else has changed the setting. */
  function BackedOut(s: State, o: Order, blocked: Reason, latest: Feedback, m: Moment): After<()> {
    var (t, _) :- TimingSaved(s, o.target.control, o.timing, false);
    var (u, _) :- if blocked == ExternalChanged && latest.Seen? && m.target.Some?
                  then GivenUp(t, o.own, latest.read, m.now, m.target.value, o.request.seen.setting)
                  else Withdrawn(t, o.previous, o.baseline, o.request.ticket);
    if o.request.restore then Audited(u) else After(u, Done(()))
  }

  /** The service call: the environment records it unless it provably never left, and answers. */
  function Called(s: State, control: string, request: Request, now: nat): (State, Response) {
    var t, answer := s.(world := s.world.AfterAnswer()), s.world.Answer();
    var e := Call(control, now, request, s.disk);
    match answer
    case TargetUnavailable => (t, answer)
    case DiedBefore => (Restarted(t), answer)
    case DiedAfter => (Restarted(t.With(e)), answer)
    case Invalid => (t.With(e).With(Declined(request.ticket)), answer)
    case _ => (t.With(e), answer)
  }

  /** A refusal by the service: the attempt keeps its reservation, nothing stays uncertain, control pauses. */
  function Refusing(s: State, o: Order): After<Result> {
    var m := s.Next(o.target);
    var begun := Ticked(s.(world := s.world.AfterMoment()), m.now);
    var again := o.Reservation().(attemptedAt := Some(m.now), checkedAt := m.now);
    var (t, _) :- TimingSaved(begun, o.target.control, again, true);
    var (u, _) :- OwnSaved(t.With(Refused(o.request.ticket)),
                           Some(o.own.(pending := None, pause := Some(ServiceRejected))));
    var (v, _) :- if o.request.restore then Audited(u) else After(u, Done(()));
    After(v, Done(Result(Errored, Some(ServiceRejected), true)))
  }

  /** An uncertain or accepted command stays pending, with the earliest read that can confirm it. */
  function Kept(s: State, o: Order, now: nat): After<()> {
    var (t, _) :- OwnSaved(s, Some(o.own.(pending := Some(o.request.(notBefore := Some(now))))));
    Audited(t)
  }

  /** What follows a command that did reach the service. */
  function Followed(s: State, o: Order, response: Response, now: nat): After<Result> {
    if response.Invalid? then Refusing(s, o)
    else
      var (t, _) :- Kept(s, o, now);
      if response.Cancelled? then After(t, Raised)
      else
        var m := t.Next(o.target);
        var (u, _) :- Reconciled(t.(world := t.world.AfterMoment()), m.now, m.target);
        After(u, Done(Result(Pending, Some(ChangePending), true)))
  }

  /** Cross the service boundary at most once with a durable reservation. */
  function Sending(s: State, o: Order, window: (nat, nat)): After<Result> {
    var m := s.Next(o.target);
    var (t, latest) := Looked(Ticked(s.(world := s.world.AfterMoment()), m.now), m.now, m.target);
    var blocked := Blocks(o, m, latest, window);
    if blocked.Some? then
      var (u, _) :- BackedOut(t, o, blocked.value, latest, m);
      After(u, Done(Result(Rejected, blocked, false)))
    else
      var (u, response) := Called(t, o.target.control, o.request, m.now);
      match response
      case DiedBefore | DiedAfter => After(u, Died)
      case TargetUnavailable =>
        var (v, _) :- BackedOut(u, o, Unavailable, latest, m);
        After(v, Done(Result(Rejected, Some(Unavailable), false)))
      case _ => Followed(u, o, response, m.now)
  }

  /** Send one command for `own`, which holds the baseline kept so far or, on a takeover, the setting just read. */
  function Dispatched(s: State, own: Ownership, baseline: Setting, watts: Option<int>, now: nat, read: Readback,
                      target: Identity, restore: bool, option: nat, window: (nat, nat)): After<Result>
  {
    var (t, timing) :- Prepared(s, now, target);
    if !AtMost(NextEligible(timing, option), now) then After(t, Done(Result(Rejected, Some(RateLimited), false)))
    else
      var request := Request(t.issued, watts, now, None, restore, read, if restore then Some(baseline.slew) else None);
      var o := Order(own.(baseline := Some(baseline), pending := Some(request)), request, baseline, target, timing,
                     t.mem.own, option);
      var (u, _) :- Reserving(t, o);
      Sending(u, o, window)
  }

  // ---------------------------------------------------------------- the operations

  /** Act on a tariff transition without waiting for confirmation. */
  function Executed(s: State, watts: Option<int>, now: nat, target: Option<Identity>, option: nat, window: (nat, nat)):
      After<Result>
  {
    var (t, issue) :- Reconciled(s, now, target);
    if issue.Some? then After(t, Done(Result(Rejected, issue, false)))
    else
      var (u, feedback) := Looked(t, now, target);
      match feedback
      case Unusable(unsupported) => After(u, Done(Result(Rejected, Some(IssueOf(unsupported)), false)))
      case Seen(read) =>
        if read.pending then After(u, Done(Result(Rejected, Some(ChangePending), false)))
        else if u.mem.own.Some? && u.mem.own.value.restoring then After(u, Done(Result(Rejected, Some(Restoring), false)))
        else if read.setting.watts == watts then After(u, Done(Result(Skipped, Some(AlreadyDesired), false)))
        else
          var own := if u.mem.own.Some? then u.mem.own.value else Ownership(target.value, None, None, None, None, false);
          var baseline := if own.baseline.Some? then own.baseline.value else read.setting;
          Dispatched(u, own, baseline, watts, now, read, target.value, false, option, window)
  }

  /** Give the setting found at takeover back; the baseline stays until the gateway shows it. */
  function Restoration(s: State, now: nat, target: Option<Identity>, option: nat): After<Result> {
    if Baseline(s.mem).None? then After(s, Done(Result(Skipped, Some(NotOwned), false)))
    else
      var (t, _) :- OwnSaved(s, Some(s.mem.own.value.(restoring := true)));
      var (u, issue) :- Reconciled(t, now, target);
      if u.mem.own.None? then After(u, Done(Result(Restored, Some(BaselineRestored), false)))
      else if issue.Some? then After(u, Done(Result(Pending, issue, false)))
      else if Baseline(u.mem).None? then After(u, Done(Result(Skipped, Some(NotOwned), false)))
      else GivenBack(u, u.mem.own.value, Baseline(u.mem).value, now, target, option)
  }

  /** Restore the held baseline of a reconciled control. */
  function GivenBack(s: State, own: Ownership, baseline: Setting, now: nat, target: Option<Identity>, option: nat):
      After<Result>
  {
    var (t, feedback) := Looked(s, now, target);
    match feedback
    case Unusable(unsupported) => After(t, Done(Result(Pending, Some(IssueOf(unsupported)), false)))
    case Seen(read) =>
      if read.setting == baseline then
        var (u, _) :- OwnSaved(t.With(Dropped(baseline, Matched(read))), None);
        After(u, Done(Result(Restored, Some(BaselineRestored), false)))
      else
        var (u, sent) :- Dispatched(t, own, baseline, baseline.watts, now, read, target.value, true, option,
                                    (now, now + READBACK_MAX_AGE));
        After(u, Done(
          if sent.verdict == Rejected then sent.(verdict := Pending)
          else if sent.verdict == Pending && u.mem.own.None? then
            sent.(verdict := Restored, reason := Some(BaselineRestored))
          else sent))
  }
}
