/**
 The Enphase profile transaction as functions of the stored state and of the environment's answers: what the entity
 shows, how saves end, what service calls lead to and whether a pause is cut short. Every run of the transaction is a
 run of these functions, so statements about all environments and all continuations can be made about them.
 */
module EnphaseSteps {
  import opened Common
  import opened EnphaseLog

  datatype Response = Accepted | TargetUnavailable | Failed | Cancelled | DiedBefore | DiedAfter

  datatype Pause = Slept | CutShort | DiedAsleep

  /** The environment's answers, taken from the front; beyond them nothing is shown, saves and calls succeed. */
  datatype World = World(shows: seq<Option<string>>, faults: seq<Fault>, responses: seq<Response>, pauses: seq<Pause>)
  {
    function Show(): Option<string> { if |shows| > 0 then shows[0] else None }

    function AfterShow(): World { if |shows| > 0 then this.(shows := shows[1..]) else this }

    function Fate(): Fault { if |faults| > 0 then faults[0] else Written }

    function AfterSave(): World { if |faults| > 0 then this.(faults := faults[1..]) else this }

    function Answer(): Response { if |responses| > 0 then responses[0] else Accepted }

    function AfterAnswer(): World { if |responses| > 0 then this.(responses := responses[1..]) else this }

    function Nap(): Pause { if |pauses| > 0 then pauses[0] else Slept }

    function AfterNap(): World { if |pauses| > 0 then this.(pauses := pauses[1..]) else this }
  }

  datatype State = State(mem: Ownership, disk: Ownership, log: seq<Event>, world: World)
  {
    function With(e: Event): State { this.(log := log + [e]) }
  }

  datatype Action = SetProfile(profile: string) | RestoreAi | Unsupported

  datatype Config = Config(entity: bool, service: Option<string>, ai: string, attempts: nat)

  datatype Reason =
    | ProfileMissing | UnsupportedAction | AiNotConfigured | EntityUnavailable | ControlNotConfigured | AlreadySelected
    | ControlInvalid | ServiceFailed | NotConfirmed | Applied

  datatype Result = Result(applied: bool, reason: Reason, saved: Option<string>, changed: bool, sent: bool,
                           rolledBack: Option<bool>)

  function NoCommand(applied: bool, reason: Reason, current: Option<string>): Result {
    Result(applied, reason, current, false, false, None)
  }

  /** What is recorded before a command: the baseline already held, else the profile selected now. */
  function Recorded(previous: Ownership, current: string, now: nat): Ownership {
    Ownership(if Held(previous).Some? then Held(previous) else Some(current), Some(now))
  }

  function Opened(log: seq<Event>, previous: Ownership, current: string): seq<Event> {
    if Held(previous).None? && current != "" then log + [Acquired(current)] else log
  }

  // ---------------------------------------------------------------- one step at a time

  function Restarted(s: State): State { s.(mem := s.disk, log := s.log + [Crash(s.disk)]) }

  function Looked(s: State): State {
    s.(log := s.log + [Observed(s.world.Show())], world := s.world.AfterShow())
  }

  function Saved(s: State, o: Ownership, flush: bool): (State, Outcome<()>) {
    var fate := if flush && s.world.Fate().Delayed? then Written else s.world.Fate();
    var reached := fate.Written? || fate.FailedWritten? || fate.DiedWritten?;
    var t := State(o, if reached then o else s.disk, s.log, s.world.AfterSave());
    if fate.DiedUnwritten? || fate.DiedWritten? then (Restarted(t), Died)
    else (t, if fate.Written? || fate.Delayed? then Done(()) else Raised)
  }

  function Called(s: State, e: Event): (State, Response) {
    var t, answer := s.(world := s.world.AfterAnswer()), s.world.Answer();
    match answer
    case TargetUnavailable => (t, answer)
    case DiedBefore => (Restarted(t), answer)
    case DiedAfter => (Restarted(t.With(e)), answer)
    case _ => (t.With(e), answer)
  }

  function Confirmed(s: State, desired: string, attempts: nat): (State, Outcome<bool>)
    decreases attempts
  {
    if attempts == 0 then (s, Done(false))
    else
      var t := Looked(s);
      if s.world.Show() == Some(desired) then (t, Done(true))
      else if attempts == 1 then (t, Done(false))
      else
        var u := t.(world := t.world.AfterNap());
        match t.world.Nap()
        case CutShort => (u, Raised)
        case DiedAsleep => (Restarted(u), Died)
        case Slept => Confirmed(u, desired, attempts - 1)
  }

  function Reverted(s: State, saved: string, attempts: nat): (State, Outcome<bool>) {
    var (t, answer) := Called(s, Compensated(saved));
    match answer
    case DiedBefore | DiedAfter => (t, Died)
    case Cancelled => (t, Raised)
    case TargetUnavailable | Failed => (t, Done(false))
    case Accepted => Confirmed(t, saved, attempts)
  }

  function Prepared(s: State, current: string, now: nat): (State, Outcome<()>) {
    var (t, r) := Saved(s.(log := Opened(s.log, s.mem, current)), Recorded(s.mem, current, now), true);
    (if r.Raised? then t.With(Interrupted) else t, r)
  }

  function Undone(s: State, seen: string, reason: Reason, attempts: nat): (State, Outcome<Result>) {
    var (t, undone) := Reverted(s, seen, attempts);
    match undone
    case Died => (t, Outcome<Result>.Died)
    case Raised => (t, Outcome<Result>.Raised)
    case Done(back) => (t, Done(Result(false, reason, Some(seen), false, true, Some(back))))
  }

  /** From the service call on. */
  function Dispatched(s: State, e: Event, desired: string, seen: string, attempts: nat): (State, Outcome<Result>) {
    var (t, answer) := Called(s, e);
    match answer
    case DiedBefore | DiedAfter => (t, Died)
    case Cancelled => (t, Raised)
    case TargetUnavailable => (t, Done(NoCommand(false, EntityUnavailable, Some(seen))))
    case Failed => Undone(t, seen, ServiceFailed, attempts)
    case Accepted =>
      var (u, confirmed) := Confirmed(t, desired, attempts);
      match confirmed
      case Died => (u, Outcome<Result>.Died)
      case Raised => (u, Outcome<Result>.Raised)
      case Done(yes) =>
        if yes then (u, Done(Result(true, Applied, Some(seen), true, true, None)))
        else Undone(u, seen, NotConfirmed, attempts)
  }

  /** Why nothing is sent at all, if so. */
  function Declined(config: Config, desired: string, current: Option<string>): Option<Result> {
    if current.None? || !config.entity then Some(NoCommand(false, EntityUnavailable, current))
    else if config.service.None? then Some(NoCommand(false, ControlNotConfigured, current))
    else if current == Some(desired) then Some(NoCommand(true, AlreadySelected, current))
    else if '.' !in config.service.value then Some(NoCommand(false, ControlInvalid, current))
    else None
  }

  /** Dispatch, confirm, compensate; a transaction first makes the selected profile durable. */
  function Changed(s: State, config: Config, desired: string, current: Option<string>, transaction: bool, now: nat):
      (State, Outcome<Result>)
  {
    if Declined(config, desired, current).Some? then (s, Done(Declined(config, desired, current).value))
    else
      var seen := current.value;
      if transaction then
        var (t, prepared) := Prepared(s, seen, now);
        match prepared
        case Died => (t, Outcome<Result>.Died)
        case Raised => (t, Outcome<Result>.Raised)
        case Done(_) => Dispatched(t, Sent(desired, seen, t.disk), desired, seen, config.attempts)
      else Dispatched(s, GaveBack(desired, seen), desired, seen, config.attempts)
  }

  /** End of a transaction: keep, hand back or clear the recorded baseline. */
  function Settled(s: State, o: Ownership, why: Why): (State, Outcome<()>) {
    Saved(if Held(s.mem).Some? && Held(o) != Held(s.mem) then s.With(Returned(Held(s.mem).value, why)) else s, o, false)
  }

  function Finished(s: State, o: Ownership, why: Why, result: Result): (State, Outcome<Result>) {
    var (t, r) := Settled(s, o, why);
    (t, match r case Done(_) => Done(result) case Raised => Outcome<Result>.Raised case Died => Outcome<Result>.Died)
  }

  /** What a transaction leaves recorded, given what was recorded before, after its commands, and its result. */
  function Outcomes(action: Action, previous: Ownership, after: Ownership, result: Result, now: nat): Ownership {
    if result.applied then
      if action.RestoreAi? then NOTHING
      else if result.changed && result.saved.Some? then Recorded(previous, result.saved.value, now)
      else after
    else if !result.sent || result.rolledBack == Some(true) then Read(previous)
    else if result.saved.Some? then Recorded(previous, result.saved.value, now)
    else after
  }

  function ReturnReason(config: Config, action: Action, result: Result): Why {
    if result.applied && action.RestoreAi? then AiSelected
    else if result.sent then Why.RolledBack
    else NotSent
  }

  /** Why an action is not attempted, if so. */
  function Refused(config: Config, action: Action): Option<Reason> {
    if action.Unsupported? then Some(UnsupportedAction)
    else if action.SetProfile? && action.profile == "" then Some(ProfileMissing)
    else if action.RestoreAi? && config.ai == "" then Some(AiNotConfigured)
    else None
  }

  function Wanted(config: Config, action: Action): string {
    if action.SetProfile? then action.profile else config.ai
  }

  /** A planned profile action as one transaction. */
  function Executed(s: State, config: Config, action: Action, now: nat): (State, Outcome<Result>) {
    var current, t := s.world.Show(), Looked(s);
    if Refused(config, action).Some? then
      Finished(t, Read(s.mem), NotSent, NoCommand(false, Refused(config, action).value, current))
    else
      var (u, done) := Changed(t, config, Wanted(config, action), current, true, now);
      match done
      case Died => (u, Outcome<Result>.Died)
      case Raised => (u, Outcome<Result>.Raised)
      case Done(result) =>
        Finished(u, Outcomes(action, s.mem, u.mem, result, now), ReturnReason(config, action, result), result)
  }

  /** Give the recorded profile back outside any transaction, or select AI control when none is recorded. */
  function GivenBack(s: State, config: Config): (State, Outcome<Result>) {
    var current, t := s.world.Show(), Looked(s);
    if s.mem.profile.None? && config.ai == "" then
      Finished(t, s.mem, SavedSelected, NoCommand(false, AiNotConfigured, current))
    else
      var desired := if s.mem.profile.Some? then s.mem.profile.value else config.ai;
      var (u, done) := Changed(t, config, desired, current, false, 0);
      match done
      case Died => (u, Outcome<Result>.Died)
      case Raised => (u, Outcome<Result>.Raised)
      case Done(result) => Finished(u, if result.applied then NOTHING else u.mem, SavedSelected, result)
  }

  // ---------------------------------------------------------------- the invariant

  ghost predicate Inv(ai: string, mem: Ownership, disk: Ownership, log: seq<Event>) {
    && GoodLog(ai, log) && HeldAfter(log) == Held(mem)
    && (Held(mem).Some? ==> WasAcquired(log, Held(mem).value))
    && (Held(disk).Some? ==> WasAcquired(log, Held(disk).value))
    && (Durable(log) ==> Held(disk) == HeldAfter(log))
  }

  ghost predicate Sound(ai: string, s: State) { Inv(ai, s.mem, s.disk, s.log) }

  /** No takeover is waiting for its command. */
  ghost predicate Idle(log: seq<Event>) { |log| > 0 ==> !log[|log| - 1].Acquired? }

  ghost predicate Ready(ai: string, s: State) { Sound(ai, s) && Idle(s.log) }

  lemma Last(log: seq<Event>, e: Event)
    ensures (log + [e])[..|log + [e]| - 1] == log && (log + [e])[|log + [e]| - 1] == e
    ensures Commands(log + [e]) == Commands(log) + (if IsCommand(e) then 1 else 0)
  {}

  /** A justified event, with memory following it. */
  lemma Appended(ai: string, mem: Ownership, disk: Ownership, log: seq<Event>, e: Event, next: Ownership)
    requires Inv(ai, mem, disk, log) && Justified(ai, log, e) && Held(next) == HeldAfter(log + [e])
    requires Held(next).Some? ==> e == Acquired(Held(next).value) || WasAcquired(log, Held(next).value)
    requires e.Sent? || e.Crash? ==> Held(disk) == Held(next)
    ensures Inv(ai, next, disk, log + [e])
  {
    var after := log + [e];
    Last(log, e);
    assert forall p | WasAcquired(log, p) :: WasAcquired(after, p);
    assert e in after;
  }

  /** An event that leaves the baseline alone. */
  lemma Noted(ai: string, s: State, e: Event)
    requires Sound(ai, s) && Justified(ai, s.log, e) && !e.Acquired? && !e.Returned? && !e.Crash?
    requires e.Sent? ==> Held(s.disk) == Held(s.mem)
    ensures Sound(ai, s.With(e)) && Idle(s.With(e).log)
  {
    hide GoodLog, Justified;
    Last(s.log, e);
    Appended(ai, s.mem, s.disk, s.log, e, s.mem);
  }

  lemma RestartKeeps(ai: string, s: State)
    requires Sound(ai, s)
    ensures Ready(ai, Restarted(s)) && Commands(Restarted(s).log) == Commands(s.log)
  {
    hide GoodLog;
    Last(s.log, Crash(s.disk));
    Appended(ai, s.mem, s.disk, s.log, Crash(s.disk), s.disk);
  }

  lemma LookKeeps(ai: string, s: State)
    requires Ready(ai, s)
    ensures Ready(ai, Looked(s)) && LastShown(Looked(s).log) == s.world.Show()
    ensures Commands(Looked(s).log) == Commands(s.log) && LastReplaced(Looked(s).log) == LastReplaced(s.log)
  {
    hide GoodLog;
    var e := Observed(s.world.Show());
    Last(s.log, e);
    Noted(ai, s, e);
    assert Looked(s).log == s.With(e).log;
  }

  // ---------------------------------------------------------------- every step keeps it

  lemma SaveKeeps(ai: string, s: State, o: Ownership, flush: bool)
    requires Inv(ai, o, s.disk, s.log)
    ensures var (t, r) := Saved(s, o, flush);
      && Sound(ai, t) && Commands(t.log) == Commands(s.log)
      && (r.Done? && flush ==> t.disk == o)
      && (!r.Died? ==> t.mem == o && t.log == s.log)
      && (r.Died? ==> Idle(t.log) && t.mem == t.disk && t.log == s.log + [Crash(t.disk)])
  {
    hide GoodLog, HeldAfter, Durable, Commands;
    var fate := if flush && s.world.Fate().Delayed? then Written else s.world.Fate();
    var reached := fate.Written? || fate.FailedWritten? || fate.DiedWritten?;
    var t := State(o, if reached then o else s.disk, s.log, s.world.AfterSave());
    assert Sound(ai, t);
    RestartKeeps(ai, t);
  }

  lemma CallKeeps(ai: string, s: State, e: Event)
    requires Sound(ai, s) && Justified(ai, s.log, e) && IsCommand(e) && (e.Sent? ==> Held(s.disk) == Held(s.mem))
    ensures var (t, answer) := Called(s, e);
      && Sound(ai, t) && t.disk == s.disk
      && (answer.TargetUnavailable? ==> t.mem == s.mem && t.log == s.log)
      && (answer.Accepted? || answer.Failed? || answer.Cancelled? ==>
            t.mem == s.mem && t.log == s.log + [e] && Idle(t.log) && Commands(t.log) == Commands(s.log) + 1)
      && (answer.DiedBefore? || answer.DiedAfter? ==> Idle(t.log) && Commands(t.log) <= Commands(s.log) + 1)
      && Commands(s.log) <= Commands(t.log)
  {
    hide GoodLog, Justified, Sound, Commands, Idle;
    var t := s.(world := s.world.AfterAnswer());
    SameSound(ai, s, t);
    Last(s.log, e);
    Noted(ai, t, e);
    RestartKeeps(ai, t);
    RestartKeeps(ai, t.With(e));
  }

  lemma SameSound(ai: string, s: State, t: State)
    requires Sound(ai, s) && t == s.(world := t.world)
    ensures Sound(ai, t) && (Idle(s.log) ==> Idle(t.log))
  {}

  /** Confirmation only looks: success rests on an observation of the profile since the last command. */
  lemma {:induction false} ConfirmKeeps(ai: string, s: State, desired: string, attempts: nat)
    requires Ready(ai, s)
    ensures var (t, r) := Confirmed(s, desired, attempts);
      && Ready(ai, t) && t.disk == s.disk && Commands(t.log) == Commands(s.log)
      && (!r.Died? ==> t.mem == s.mem && LastReplaced(t.log) == LastReplaced(s.log))
      && (r == Done(true) ==> LastShown(t.log) == Some(desired))
    decreases attempts
  {
    hide Sound, LastShown, LastReplaced, Commands, Idle;
    if attempts > 0 {
      LookKeeps(ai, s);
      var t := Looked(s);
      if s.world.Show() != Some(desired) && attempts > 1 {
        var u := t.(world := t.world.AfterNap());
        SameSound(ai, t, u);
        RestartKeeps(ai, u);
        if t.world.Nap().Slept? { ConfirmKeeps(ai, u, desired, attempts - 1); }
      }
    }
  }

  /** A bounded number of looks, the last of which decides. */
  lemma {:induction false} ConfirmReads(s: State, desired: string, attempts: nat)
    ensures var (t, r) := Confirmed(s, desired, attempts);
      && |s.log| <= |t.log| && t.log[..|s.log|] == s.log
      && (r == Done(true) ==> |s.log| < |t.log| && t.log[|t.log| - 1] == Observed(Some(desired)))
      && (r == Done(false) ==> |t.log| == |s.log| + attempts && Observed(Some(desired)) !in t.log[|s.log|..])
    decreases attempts
  {
    if attempts > 0 {
      var one := Looked(s);
      if s.world.Show() != Some(desired) && attempts > 1 && one.world.Nap().Slept? {
        var u := one.(world := one.world.AfterNap());
        ConfirmReads(u, desired, attempts - 1);
        var (t, r) := Confirmed(u, desired, attempts - 1);
        assert t.log[..|s.log|] == u.log[..|s.log|] == s.log;
        assert t.log[|s.log|] == u.log[|s.log|] == Observed(s.world.Show());
        assert t.log[|s.log|..] == [Observed(s.world.Show())] + t.log[|u.log|..];
      }
    }
  }

  lemma RollBackKeeps(ai: string, s: State, saved: string, attempts: nat)
    requires Ready(ai, s) && LastReplaced(s.log) == Some(saved)
    ensures var (t, r) := Reverted(s, saved, attempts);
      && Ready(ai, t) && t.disk == s.disk && Commands(s.log) <= Commands(t.log) <= Commands(s.log) + 1
      && (!r.Died? ==> t.mem == s.mem)
      && (r == Done(true) ==> LastShown(t.log) == Some(saved) && Commands(t.log) == Commands(s.log) + 1)
  {
    hide GoodLog, LastShown, LastReplaced, Commands, HeldAfter, Durable, Confirmed;
    CallKeeps(ai, s, Compensated(saved));
    var (t, answer) := Called(s, Compensated(saved));
    if answer.Accepted? { ConfirmKeeps(ai, t, saved, attempts); }
  }

  lemma OpeningKeeps(ai: string, s: State, current: string, now: nat)
    requires Ready(ai, s) && LastShown(s.log) == Some(current)
    ensures var log := Opened(s.log, s.mem, current);
      Inv(ai, Recorded(s.mem, current, now), s.disk, log) && Commands(log) == Commands(s.log)
  {
    hide GoodLog, Commands;
    Last(s.log, Acquired(current));
    if Held(s.mem).None? && current != "" {
      Appended(ai, s.mem, s.disk, s.log, Acquired(current), Recorded(s.mem, current, now));
    }
  }

  /** The first profile of a period is recorded, on disk, before anything is sent. */
  lemma PrepareKeeps(ai: string, s: State, current: string, now: nat)
    requires Ready(ai, s) && LastShown(s.log) == Some(current)
    ensures var (t, r) := Prepared(s, current, now);
      && Sound(ai, t) && Commands(t.log) == Commands(s.log)
      && (!r.Died? ==> t.mem == Recorded(s.mem, current, now))
      && (r.Done? ==> t.disk == t.mem && t.log == Opened(s.log, s.mem, current))
      && (!r.Done? ==> Idle(t.log))
  {
    hide GoodLog, Commands;
    var o := Recorded(s.mem, current, now);
    var begun := s.(log := Opened(s.log, s.mem, current));
    OpeningKeeps(ai, s, current, now);
    SaveKeeps(ai, begun, o, true);
    var (t, r) := Saved(begun, o, true);
    if r.Raised? {
      Last(t.log, Interrupted);
      Noted(ai, t, Interrupted);
    }
  }

  /** What a result may claim after `t`: applied means that the entity showed the desired profile since the last command,
      rolled back that it showed the old one. */
  ghost predicate Accounts(res: Result, t: State, desired: string, current: Option<string>) {
    && res.saved == current && res.changed == (res.applied && res.sent)
    && (res.rolledBack.Some? <==> res.sent && !res.applied)
    && (res.applied ==> LastShown(t.log) == Some(desired) && current.Some? && (res.sent || current == Some(desired)))
    && (res.rolledBack == Some(true) ==> current.Some? && LastShown(t.log) == current)
  }

  lemma UndoKeeps(ai: string, s: State, desired: string, seen: string, reason: Reason, attempts: nat)
    requires Ready(ai, s) && LastReplaced(s.log) == Some(seen)
    ensures var (t, r) := Undone(s, seen, reason, attempts);
      && Ready(ai, t) && t.disk == s.disk && Commands(s.log) <= Commands(t.log) <= Commands(s.log) + 1
      && (!r.Died? ==> t.mem == s.mem)
      && (r.Done? ==> r.value.sent && Accounts(r.value, t, desired, Some(seen)))
  {
    hide Sound, Idle, LastShown, LastReplaced, Commands, Reverted;
    RollBackKeeps(ai, s, seen, attempts);
  }

  /** The command `e` as a transaction or a restoration sends it. */
  ghost predicate Ordered(s: State, e: Event, desired: string, seen: string) {
    (e == Sent(desired, seen, s.disk) && Held(s.disk) == Held(s.mem)) || e == GaveBack(desired, seen)
  }

  lemma DispatchKeeps(ai: string, s: State, e: Event, desired: string, seen: string, attempts: nat)
    requires Sound(ai, s) && Justified(ai, s.log, e) && Ordered(s, e, desired, seen)
    ensures var (t, r) := Dispatched(s, e, desired, seen, attempts);
      && Sound(ai, t) && Commands(s.log) <= Commands(t.log) <= Commands(s.log) + 2
      && (!r.Done? ==> Idle(t.log))
      && (!r.Died? ==> t.mem == s.mem)
      && (r.Done? && r.value.sent ==> Idle(t.log) && Commands(t.log) > Commands(s.log))
      && (r.Done? && !r.value.sent ==> t.mem == s.mem && t.log == s.log && !r.value.applied)
      && (r.Done? ==> Accounts(r.value, t, desired, Some(seen)))
  {
    hide GoodLog, HeldAfter, Durable, LastShown, Commands, Justified, Confirmed, Undone;
    CallKeeps(ai, s, e);
    Last(s.log, e);
    var (t, answer) := Called(s, e);
    match answer {
      case Accepted =>
        assert LastReplaced(t.log) == Some(seen);
        ConfirmKeeps(ai, t, desired, attempts);
        var (u, confirmed) := Confirmed(t, desired, attempts);
        if confirmed == Done(false) { UndoKeeps(ai, u, desired, seen, NotConfirmed, attempts); }
      case Failed =>
        assert LastReplaced(t.log) == Some(seen);
        UndoKeeps(ai, t, desired, seen, ServiceFailed, attempts);
      case TargetUnavailable | Cancelled | DiedBefore | DiedAfter =>
    }
  }

  /** Everything a change of profile can lead to. */
  lemma ChangeKeeps(s: State, config: Config, desired: string, current: Option<string>, transaction: bool, now: nat)
    requires Ready(config.ai, s) && LastShown(s.log) == current
    ensures var (t, r) := Changed(s, config, desired, current, transaction, now);
      && Sound(config.ai, t) && Commands(s.log) <= Commands(t.log) <= Commands(s.log) + 2
      && (!r.Done? ==> Idle(t.log))
      && (r.Raised? ==> t.mem == s.mem || (transaction && current.Some? && t.mem == Recorded(s.mem, current.value, now)))
      && (r.Done? ==> Accounts(r.value, t, desired, current) && (r.value.sent <==> Commands(t.log) > Commands(s.log)))
      && (r.Done? && r.value.sent ==>
            && current.Some? && Idle(t.log)
            && t.mem == if transaction then Recorded(s.mem, current.value, now) else s.mem)
      && (r.Done? && !r.value.sent ==>
            || (t.mem == s.mem && t.log == s.log)
            || (transaction && !r.value.applied && current.Some? && t.mem == Recorded(s.mem, current.value, now)
                && t.log == Opened(s.log, s.mem, current.value)))
  {
    hide GoodLog, Durable, Commands, Dispatched, Prepared;
    if Declined(config, desired, current).None? {
      var seen := current.value;
      if transaction {
        PrepareKeeps(config.ai, s, seen, now);
        var (t, prepared) := Prepared(s, seen, now);
        if prepared.Done? {
          SendJustified(config.ai, s, t, desired, seen);
          DispatchKeeps(config.ai, t, Sent(desired, seen, t.disk), desired, seen, config.attempts);
        }
      } else {
        DispatchKeeps(config.ai, s, GaveBack(desired, seen), desired, seen, config.attempts);
      }
    }
  }

  lemma SendJustified(ai: string, s: State, t: State, desired: string, seen: string)
    requires Ready(ai, s) && LastShown(s.log) == Some(seen) && Sound(ai, t)
    requires t.disk == t.mem && t.log == Opened(s.log, s.mem, seen) && Held(t.mem) == Held(Recorded(s.mem, seen, 0))
    ensures Justified(ai, t.log, Sent(desired, seen, t.disk))
  {
    hide GoodLog, Durable;
    Last(s.log, Acquired(seen));
  }

  lemma SettleKeeps(ai: string, s: State, o: Ownership, why: Why)
    requires Sound(ai, s)
    requires Held(o) == Held(s.mem) ==> Idle(s.log)
    requires Held(o) == Held(s.mem) || (Held(o).None? && Justified(ai, s.log, Returned(Held(s.mem).value, why)))
    ensures var (t, r) := Settled(s, o, why);
      && Ready(ai, t) && Commands(t.log) == Commands(s.log)
      && (!r.Died? ==> t.mem == o && LastShown(t.log) == LastShown(s.log))
  {
    hide GoodLog, Durable, Commands, Justified, Saved;
    if Held(s.mem).Some? && Held(o) != Held(s.mem) {
      var e := Returned(Held(s.mem).value, why);
      Last(s.log, e);
      Appended(ai, s.mem, s.disk, s.log, e, o);
      SaveKeeps(ai, s.With(e), o, false);
    } else {
      SaveKeeps(ai, s, o, false);
    }
  }

  /** What a finished transaction accounts for: ownership and what the entity showed after its last command. */
  ghost predicate Closes(action: Action, config: Config, previous: Ownership, now: nat, t: State, res: Result) {
    && (res.applied && action.RestoreAi? ==> t.mem == NOTHING && LastShown(t.log) == Some(config.ai))
    && (res.applied && action.SetProfile? ==>
          && LastShown(t.log) == Some(action.profile) && res.saved.Some?
          && t.mem == if res.sent then Recorded(previous, res.saved.value, now) else previous)
    && (!res.applied && (!res.sent || res.rolledBack == Some(true)) ==> t.mem == Read(previous))
    && (res.rolledBack == Some(true) ==> res.saved.Some? && LastShown(t.log) == res.saved)
    && (!res.applied && res.sent && res.rolledBack != Some(true) ==>
          res.saved.Some? && t.mem == Recorded(previous, res.saved.value, now))
  }

  /** What a change led to, as `ChangeKeeps` tells it. */
  ghost predicate Carries(ai: string, previous: Ownership, desired: string, current: Option<string>, now: nat, t: State,
                          res: Result) {
    && Sound(ai, t) && Accounts(res, t, desired, current)
    && (res.sent ==> current.Some? && Idle(t.log) && t.mem == Recorded(previous, current.value, now))
    && (!res.sent ==>
          || (t.mem == previous && Idle(t.log))
          || (!res.applied && current.Some? && t.mem == Recorded(previous, current.value, now)
              && if Held(previous).None? && current != Some("") then Ends(t.log, current.value) else Idle(t.log)))
  }

  ghost predicate Ends(log: seq<Event>, p: string) { |log| > 0 && log[|log| - 1] == Acquired(p) }

  /** Whatever the change led to, its ending is justified by what was observed. */
  lemma EndJustified(config: Config, action: Action, previous: Ownership, current: Option<string>, now: nat, t: State,
                     res: Result)
    requires Refused(config, action).None? && Carries(config.ai, previous, Wanted(config, action), current, now, t, res)
    ensures var o := Outcomes(action, previous, t.mem, res, now);
      && (Held(o) == Held(t.mem) ==> Idle(t.log))
      && (Held(o) == Held(t.mem)
          || (Held(o).None? && Justified(config.ai, t.log, Returned(Held(t.mem).value, ReturnReason(config, action, res)))))
  {
    hide GoodLog, Durable, Commands, LastShown, WasAcquired;
  }

  /** A finished change accounts for ownership. */
  lemma OutcomeSettles(config: Config, action: Action, previous: Ownership, current: Option<string>, now: nat, t: State,
                       res: Result)
    requires Refused(config, action).None? && Carries(config.ai, previous, Wanted(config, action), current, now, t, res)
    ensures var o, why := Outcomes(action, previous, t.mem, res, now), ReturnReason(config, action, res);
      var (u, r) := Settled(t, o, why);
      && Ready(config.ai, u) && Commands(u.log) == Commands(t.log)
      && (r.Done? ==> Closes(action, config, previous, now, u, res))
      && (r.Raised? && action.SetProfile? && Held(previous).Some? ==> Held(u.mem) == Held(previous))
  {
    hide GoodLog, Durable, Commands, Settled, LastShown, WasAcquired, Justified;
    EndJustified(config, action, previous, current, now, t, res);
    SettleKeeps(config.ai, t, Outcomes(action, previous, t.mem, res, now), ReturnReason(config, action, res));
  }

  /** A planned action as a whole. */
  lemma ExecuteKeeps(s: State, config: Config, action: Action, now: nat)
    requires Ready(config.ai, s)
    ensures var (t, r) := Executed(s, config, action, now);
      && Ready(config.ai, t) && Commands(s.log) <= Commands(t.log) <= Commands(s.log) + 2
      && (r.Done? ==> (r.value.sent <==> Commands(t.log) > Commands(s.log)))
      && (r.Done? ==> Closes(action, config, s.mem, now, t, r.value))
      && (r.Raised? && action.SetProfile? && Held(s.mem).Some? ==> Held(t.mem) == Held(s.mem))
  {
    hide GoodLog, Durable, Commands, Changed, Settled, LastShown, WasAcquired, HeldAfter;
    LookKeeps(config.ai, s);
    var current, t := s.world.Show(), Looked(s);
    if Refused(config, action).Some? {
      SettleKeeps(config.ai, t, Read(s.mem), NotSent);
    } else {
      ChangeKeeps(t, config, Wanted(config, action), current, true, now);
      var (u, done) := Changed(t, config, Wanted(config, action), current, true, now);
      if done.Done? { OutcomeSettles(config, action, s.mem, current, now, u, done.value); }
    }
  }

  /** A restoration: ownership is cleared exactly when the recorded profile was shown after its last command. */
  lemma GiveBackKeeps(s: State, config: Config)
    requires Ready(config.ai, s)
    ensures var (t, r) := GivenBack(s, config);
      && Ready(config.ai, t) && Commands(s.log) <= Commands(t.log) <= Commands(s.log) + 2
      && (r.Done? ==> (r.value.sent <==> Commands(t.log) > Commands(s.log)))
      && (r.Done? ==> t.mem == if r.value.applied then NOTHING else s.mem)
      && (r.Done? && r.value.applied && Held(s.mem).Some? ==> LastShown(t.log) == Held(s.mem))
  {
    hide GoodLog, Durable, Commands, Changed, Settled, LastShown, WasAcquired, HeldAfter;
    LookKeeps(config.ai, s);
    var current, t := s.world.Show(), Looked(s);
    if s.mem.profile.None? && config.ai == "" {
      SettleKeeps(config.ai, t, s.mem, SavedSelected);
    } else {
      var desired := if s.mem.profile.Some? then s.mem.profile.value else config.ai;
      ChangeKeeps(t, config, desired, current, false, 0);
      var (u, done) := Changed(t, config, desired, current, false, 0);
      if done.Done? { RestoreSettles(config.ai, s.mem, desired, u, done.value); }
    }
  }

  lemma RestorationJustified(ai: string, t: State, applied: bool)
    requires Ready(ai, t) && (applied && Held(t.mem).Some? ==> LastShown(t.log) == Held(t.mem))
    ensures var o := if applied then NOTHING else t.mem;
      && (Held(o) == Held(t.mem)
          || (Held(o).None? && Justified(ai, t.log, Returned(Held(t.mem).value, SavedSelected))))
  {
    hide GoodLog, Durable;
  }

  lemma RestoreSettles(ai: string, previous: Ownership, desired: string, t: State, res: Result)
    requires Ready(ai, t) && t.mem == previous && (res.applied ==> LastShown(t.log) == Some(desired))
    requires previous.profile.Some? ==> desired == previous.profile.value
    ensures var (u, r) := Settled(t, if res.applied then NOTHING else t.mem, SavedSelected);
      && Ready(ai, u) && Commands(u.log) == Commands(t.log)
      && (r.Done? ==> u.mem == if res.applied then NOTHING else previous)
      && (r.Done? && res.applied && Held(previous).Some? ==> LastShown(u.log) == Held(previous))
  {
    hide GoodLog, Durable, Commands, Settled, LastShown, WasAcquired, Justified;
    RestorationJustified(ai, t, res.applied);
    SettleKeeps(ai, t, if res.applied then NOTHING else t.mem, SavedSelected);
  }
}
