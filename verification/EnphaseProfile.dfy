/**
 The Enphase profile transaction and its adapter: record the selected profile durably, dispatch, confirm for a
 bounded time, and compensate. Only the first profile of an ownership period is worth restoring, so it must
 survive repeated commands, rollbacks, cancellations and crashes. Each method is proved to do what its function in
 `EnphaseSteps` says, for every environment.
 */
module EnphaseProfile {
  import opened Common
  import opened EnphaseLog
  import opened EnphaseSteps
  import opened EnphaseRuns
  import opened EnphaseActs

  class EnphaseProfileControl {
    const config: Config
    var mem: Ownership
    var disk: Ownership
    var world: World // what the environment is going to answer
    ghost var log: seq<Event>

    ghost function Snapshot(): State
      reads this
    {
      State(mem, disk, log, world)
    }

    ghost predicate Valid()
      reads this
    {
      Sound(config.ai, Snapshot()) && config.attempts >= 1
    }

    constructor (config: Config)
      ensures Valid() && log == [] && mem == NOTHING && disk == NOTHING && world == World([], [], [], [])
      ensures this.config == config.(attempts := if config.attempts > 1 then config.attempts else 1)
    {
      this.config := config.(attempts := if config.attempts > 1 then config.attempts else 1);
      mem, disk, world := NOTHING, NOTHING, World([], [], [], []);
      log := [];
    }

    /** The process ends; a new one starts from the disk. */
    method Restart()
      requires Valid()
      modifies this`mem, this`log
      ensures Valid() && Idle(log) && Snapshot() == Restarted(old(Snapshot()))
    {
      RestartKeeps(config.ai, Snapshot());
      mem, log := disk, log + [Crash(disk)];
    }

    /** Replace the in-memory fields; a demanded and successful flush makes the disk agree. */
    method Save(o: Ownership, flush: bool) returns (r: Outcome<()>)
      requires Inv(config.ai, o, disk, log) && config.attempts >= 1
      modifies this`mem, this`disk, this`world, this`log
      ensures (Snapshot(), r) == Saved(old(Snapshot()), o, flush)
      ensures Valid() && (r.Done? && flush ==> disk == o)
      ensures !r.Died? ==> mem == o && log == old(log)
      ensures r.Died? ==> Idle(log)
    {
      hide GoodLog, HeldAfter, Durable;
      SaveKeeps(config.ai, Snapshot(), o, flush);
      mem := o;
      var fault := world.Fate();
      world := world.AfterSave();
      if flush && fault == Delayed { fault := Written; }
      if fault == Written || fault == FailedWritten || fault == DiedWritten { disk := mem; }
      if fault == DiedUnwritten || fault == DiedWritten {
        Restart();
        return Died;
      }
      r := if fault == Written || fault == Delayed then Done(()) else Raised;
    }

    /** The profile the entity shows just now, if it is available. */
    method Observe() returns (p: Option<string>)
      requires Valid() && Idle(log)
      modifies this`world, this`log
      ensures Valid() && Idle(log) && Snapshot() == Looked(old(Snapshot())) && log == old(log) + [Observed(p)]
      ensures p == old(world).Show() == LastShown(log)
    {
      LookKeeps(config.ai, Snapshot());
      p := world.Show();
      world, log := world.AfterShow(), log + [Observed(p)];
    }

    /** Wait a bounded time for the requested profile to be shown. */
    method ConfirmProfile(desired: string) returns (r: Outcome<bool>)
      requires Valid() && Idle(log)
      modifies this`mem, this`world, this`log
      ensures (Snapshot(), r) == Confirmed(old(Snapshot()), desired, config.attempts)
      ensures Valid() && Idle(log) && Commands(log) == old(Commands(log))
      ensures !r.Died? ==> mem == old(mem) && LastReplaced(log) == old(LastReplaced(log))
      ensures |old(log)| <= |log| && log[..|old(log)|] == old(log)
      ensures r == Done(true) ==> |old(log)| < |log| && log[|log| - 1] == Observed(Some(desired))
      ensures r == Done(false) ==> |log| == |old(log)| + config.attempts && Observed(Some(desired)) !in log[|old(log)|..]
    {
      hide Sound, Idle, LastShown, LastReplaced, Commands;
      ConfirmKeeps(config.ai, Snapshot(), desired, config.attempts);
      ConfirmReads(Snapshot(), desired, config.attempts);
      for attempt := 0 to config.attempts
        invariant Valid() && Idle(log) && mem == old(mem)
        invariant Confirmed(old(Snapshot()), desired, config.attempts)
                  == Confirmed(Snapshot(), desired, config.attempts - attempt)
      {
        var reading := Observe();
        if reading == Some(desired) { return Done(true); }
        if attempt + 1 < config.attempts {
          var pause := Sleep();
          if pause.CutShort? { return Raised; }
          if pause.DiedAsleep? {
            Restart();
            return Died;
          }
        }
      }
      r := Done(false);
    }

    method Sleep() returns (pause: Pause)
      requires Valid() && Idle(log)
      modifies this`world
      ensures Valid() && pause == old(world).Nap() && world == old(world).AfterNap()
    {
      pause, world := world.Nap(), world.AfterNap();
    }

    /** One service call; the event is recorded unless the call provably never left. */
    method CallService(ghost e: Event) returns (response: Response)
      requires Valid() && Justified(config.ai, log, e) && IsCommand(e)
      requires e.Sent? ==> Held(disk) == Held(mem)
      modifies this`mem, this`world, this`log
      ensures (Snapshot(), response) == Called(old(Snapshot()), e)
      ensures Valid() && disk == old(disk) && old(Commands(log)) <= Commands(log) <= old(Commands(log)) + 1
      ensures response.TargetUnavailable? ==> mem == old(mem) && log == old(log)
      ensures response.Accepted? || response.Failed? || response.Cancelled? ==>
        mem == old(mem) && log == old(log) + [e] && Commands(log) == old(Commands(log)) + 1
      ensures !response.TargetUnavailable? ==> Idle(log)
    {
      hide GoodLog, HeldAfter, Durable, Justified, Commands;
      CallKeeps(config.ai, Snapshot(), e);
      SameSound(config.ai, Snapshot(), Snapshot().(world := world.AfterAnswer()));
      response, world := world.Answer(), world.AfterAnswer();
      if response.TargetUnavailable? { return; }
      if response.DiedBefore? {
        Restart();
        return;
      }
      Noted(config.ai, Snapshot(), e);
      log := log + [e];
      if response.DiedAfter? { Restart(); }
    }

    /** Compensate an uncertain command and confirm that the saved profile is back. */
    method RollBack(saved: string) returns (r: Outcome<bool>)
      requires Valid() && Idle(log) && LastReplaced(log) == Some(saved)
      modifies this`mem, this`world, this`log
      ensures (Snapshot(), r) == Reverted(old(Snapshot()), saved, config.attempts)
      ensures Valid() && Idle(log) && old(Commands(log)) <= Commands(log) <= old(Commands(log)) + 1
      ensures !r.Died? ==> mem == old(mem)
      ensures r == Done(true) ==> LastShown(log) == Some(saved) && Commands(log) == old(Commands(log)) + 1
    {
      hide GoodLog, HeldAfter, Durable, LastShown, LastReplaced, Commands, Confirmed;
      RollBackKeeps(config.ai, Snapshot(), saved, config.attempts);
      CompensationJustified(config.ai, log, saved);
      var response := CallService(Compensated(saved));
      match response {
        case DiedBefore | DiedAfter => return Died;
        case Cancelled => return Raised;
        case TargetUnavailable | Failed => return Done(false);
        case Accepted =>
      }
      r := ConfirmProfile(saved);
    }

    /** Record the first profile of a period, on disk, before anything is sent. */
    method Prepare(current: string, now: nat) returns (r: Outcome<()>)
      requires Valid() && Idle(log) && LastShown(log) == Some(current)
      modifies this`mem, this`disk, this`world, this`log
      ensures (Snapshot(), r) == Prepared(old(Snapshot()), current, now)
      ensures Valid() && Commands(log) == old(Commands(log))
      ensures !r.Died? ==> mem == Recorded(old(mem), current, now)
      ensures r.Done? ==> disk == mem && log == Opened(old(log), old(mem), current)
      ensures !r.Done? ==> Idle(log)
    {
      hide GoodLog, LastShown, Durable, Commands;
      PrepareKeeps(config.ai, Snapshot(), current, now);
      var o := Recorded(mem, current, now);
      OpeningKeeps(config.ai, Snapshot(), current, now);
      log := Opened(log, mem, current);
      r := Save(o, true);
      if r.Raised? { log := log + [Interrupted]; }
    }

    /** Dispatch, confirm, compensate; a transaction first makes the selected profile durable. */
    method ChangeProfile(desired: string, current: Option<string>, transaction: bool, now: nat)
      returns (r: Outcome<Result>)
      requires Valid() && Idle(log) && LastShown(log) == current
      modifies this`mem, this`disk, this`world, this`log
      ensures (Snapshot(), r) == Changed(old(Snapshot()), config, desired, current, transaction, now)
      ensures Valid() && old(Commands(log)) <= Commands(log) <= old(Commands(log)) + 2 && (!r.Done? ==> Idle(log))
      ensures r.Raised? ==>
        mem == old(mem) || (transaction && current.Some? && mem == Recorded(old(mem), current.value, now))
      ensures r.Done? ==> Accounts(r.value, Snapshot(), desired, current)
      ensures r.Done? ==> (r.value.sent <==> Commands(log) > old(Commands(log)))
      ensures r.Done? && r.value.sent ==>
        current.Some? && Idle(log) && mem == if transaction then Recorded(old(mem), current.value, now) else old(mem)
      ensures r.Done? && !r.value.sent ==>
        || (mem == old(mem) && log == old(log))
        || (transaction && !r.value.applied && current.Some? && mem == Recorded(old(mem), current.value, now)
            && log == Opened(old(log), old(mem), current.value))
      ensures r.Done? && r.value.sent && !r.value.applied ==>
        CompensatesChange(old(Snapshot()), desired, current.value, transaction, now, config.attempts, log, r.value.rolledBack)
    {
      hide Sound, Idle, Accounts, LastShown, LastReplaced, Commands, Confirmed, Reverted, Saved, Justified;
      hide CompensatesChange, Prepared, Called, Opened;
      ChangeKeeps(Snapshot(), config, desired, current, transaction, now);
      ChangeActs(Snapshot(), config, desired, current, transaction, now);
      if current.None? || !config.entity { return Done(NoCommand(false, EntityUnavailable, current)); }
      if config.service.None? { return Done(NoCommand(false, ControlNotConfigured, current)); }
      if current == Some(desired) { return Done(NoCommand(true, AlreadySelected, current)); }
      if '.' !in config.service.value { return Done(NoCommand(false, ControlInvalid, current)); }
      var seen := current.value;
      if transaction {
        ghost var before := Snapshot();
        var prepared := Prepare(seen, now);
        if !prepared.Done? { return if prepared.Raised? then Raised else Died; }
        SendJustified(config.ai, before, Snapshot(), desired, seen);
      } else {
        GivingJustified(config.ai, log, desired, seen);
      }
      ghost var e := if transaction then Sent(desired, seen, disk) else GaveBack(desired, seen);
      Replaces(log, e, seen);
      var response := CallService(e);
      match response {
        case DiedBefore | DiedAfter => return Died;
        case Cancelled => return Raised;
        case TargetUnavailable => return Done(NoCommand(false, EntityUnavailable, current));
        case Failed =>
        case Accepted =>
          var confirmed := ConfirmProfile(desired);
          if !confirmed.Done? { return if confirmed.Raised? then Raised else Died; }
          if confirmed.value { return Done(Result(true, Applied, current, true, true, None)); }
      }
      var undone := RollBack(seen);
      if !undone.Done? { return if undone.Raised? then Raised else Died; }
      var reason := if response.Failed? then ServiceFailed else NotConfirmed;
      r := Done(Result(false, reason, current, false, true, Some(undone.value)));
    }

    /** End of a transaction: keep, hand back or clear the recorded baseline according to what was observed. */
    method Settle(o: Ownership, ghost why: Why) returns (r: Outcome<()>)
      requires Valid()
      requires Held(o) == Held(mem) ==> Idle(log)
      requires Held(o) == Held(mem) || (Held(o).None? && Justified(config.ai, log, Returned(Held(mem).value, why)))
      modifies this`mem, this`disk, this`world, this`log
      ensures (Snapshot(), r) == Settled(old(Snapshot()), o, why)
      ensures Valid() && Idle(log) && Commands(log) == old(Commands(log)) && (!r.Died? ==> mem == o)
    {
      hide GoodLog, Durable, Commands, Justified, Saved;
      SettleKeeps(config.ai, Snapshot(), o, why);
      if Held(o) != Held(mem) {
        ghost var e := Returned(Held(mem).value, why);
        Last(log, e);
        Appended(config.ai, mem, disk, log, e, o);
        log := log + [e];
      }
      r := Save(o, false);
    }

    /** A planned profile action as one transaction. */
    method Execute(action: Action, now: nat) returns (r: Outcome<Result>)
      requires Valid() && Idle(log)
      modifies this`mem, this`disk, this`world, this`log
      ensures (Snapshot(), r) == Executed(old(Snapshot()), config, action, now)
      ensures Valid() && Idle(log) && Commands(log) <= old(Commands(log)) + 2
      ensures r.Done? ==> (r.value.sent <==> Commands(log) > old(Commands(log)))
      ensures r.Done? && r.value.applied && action.RestoreAi? ==> mem == NOTHING && LastShown(log) == Some(config.ai)
      ensures r.Done? && r.value.applied && action.SetProfile? ==>
        && LastShown(log) == Some(action.profile) && r.value.saved.Some?
        && mem == if r.value.sent then Recorded(old(mem), r.value.saved.value, now) else old(mem)
      ensures r.Done? && !r.value.applied && (!r.value.sent || r.value.rolledBack == Some(true)) ==> mem == Read(old(mem))
      ensures r.Done? && r.value.rolledBack == Some(true) ==> r.value.saved.Some? && LastShown(log) == r.value.saved
      ensures r.Done? && !r.value.applied && r.value.sent && r.value.rolledBack != Some(true) ==>
        r.value.saved.Some? && mem == Recorded(old(mem), r.value.saved.value, now)
      ensures r.Raised? && action.SetProfile? && Held(old(mem)).Some? ==> Held(mem) == Held(old(mem))
    {
      hide GoodLog, HeldAfter, Durable, LastShown, LastReplaced, Commands, Changed, Saved, Justified, WasAcquired;
      ExecuteKeeps(Snapshot(), config, action, now);
      var previous := mem;
      var current := Observe();
      var result;
      if action.Unsupported? {
        result := NoCommand(false, UnsupportedAction, current);
      } else if action.SetProfile? && action.profile == "" {
        result := NoCommand(false, ProfileMissing, current);
      } else if action.RestoreAi? && config.ai == "" {
        result := NoCommand(false, AiNotConfigured, current);
      } else {
        var done := ChangeProfile(if action.SetProfile? then action.profile else config.ai, current, true, now);
        if !done.Done? { return if done.Raised? then Raised else Died; }
        result := done.value;
      }
      var o := mem;
      if result.applied {
        if action.RestoreAi? {
          o := NOTHING;
        } else if result.changed {
          o := Recorded(previous, result.saved.value, now);
        }
      } else if !result.sent || result.rolledBack == Some(true) {
        o := Read(previous);
      } else if result.saved.Some? {
        o := Recorded(previous, result.saved.value, now);
      }
      ghost var why := ReturnReason(config, action, result);
      if Refused(config, action).None? {
        EndJustified(config, action, previous, current, now, Snapshot(), result);
      }
      var saved := Settle(o, why);
      r := if saved.Done? then Done(result) else if saved.Raised? then Raised else Died;
    }

    /** Give the recorded profile back outside any transaction, or select AI control when none is recorded. */
    method RestoreSaved() returns (r: Outcome<Result>)
      requires Valid() && Idle(log)
      modifies this`mem, this`disk, this`world, this`log
      ensures (Snapshot(), r) == GivenBack(old(Snapshot()), config)
      ensures Valid() && Idle(log) && Commands(log) <= old(Commands(log)) + 2
      ensures r.Done? ==> (r.value.sent <==> Commands(log) > old(Commands(log)))
      ensures r.Done? ==> mem == if r.value.applied then NOTHING else old(mem)
      ensures r.Done? && r.value.applied && Held(old(mem)).Some? ==> LastShown(log) == Held(old(mem))
    {
      hide GoodLog, HeldAfter, Durable, LastShown, LastReplaced, Commands, Changed, Saved, Justified, WasAcquired;
      GiveBackKeeps(Snapshot(), config);
      var current := Observe();
      var result;
      if mem.profile.None? && config.ai == "" {
        result := NoCommand(false, AiNotConfigured, current);
      } else {
        var done := ChangeProfile(if mem.profile.Some? then mem.profile.value else config.ai, current, false, 0);
        if !done.Done? { return if done.Raised? then Raised else Died; }
        result := done.value;
      }
      RestorationJustified(config.ai, Snapshot(), result.applied);
      var saved := Settle(if result.applied then NOTHING else mem, SavedSelected);
      r := if saved.Done? then Done(result) else if saved.Raised? then Raised else Died;
    }
  }

  lemma CompensationJustified(ai: string, log: seq<Event>, saved: string)
    requires Idle(log) && LastReplaced(log) == Some(saved)
    ensures Justified(ai, log, Compensated(saved))
  {}

  lemma Replaces(log: seq<Event>, e: Event, seen: string)
    requires (e.Sent? || e.GaveBack?) && e.seen == seen
    ensures LastReplaced(log + [e]) == Some(seen)
  {}

  lemma GivingJustified(ai: string, log: seq<Event>, desired: string, seen: string)
    requires Idle(log) && LastShown(log) == Some(seen)
    ensures Justified(ai, log, GaveBack(desired, seen))
  {}

  /** One operation of a script, in the world it meets. */
  method Perform(c: EnphaseProfileControl, op: Operation)
    requires c.Valid() && Idle(c.log)
    modifies c
    ensures c.Valid() && Idle(c.log) && Commands(c.log) <= old(Commands(c.log)) + 2
    ensures c.Snapshot() == Stepped(old(c.Snapshot()), c.config, op)
  {
    match op {
      case Executes(action, now, world) =>
        c.world := world;
        var r := c.Execute(action, now);
      case Restores(world) =>
        c.world := world;
        var r := c.RestoreSaved();
      case Restarts => c.Restart();
    }
  }

  /** Any sequence of actions, restorations and crashes, in any environment, is a run of the functions, and leaves a
      history to which the theorems apply. */
  method Run(config: Config, script: seq<Operation>) returns (c: EnphaseProfileControl)
    ensures fresh(c) && c.Valid() && Idle(c.log) && GoodLog(config.ai, c.log)
    ensures Commands(c.log) <= 2 * |script|
    ensures c.log == Ran(State(NOTHING, NOTHING, [], World([], [], [], [])), c.config, script).log
  {
    hide Ran;
    c := new EnphaseProfileControl(config);
    ghost var start := c.Snapshot();
    RanNothing(start, c.config);
    for i := 0 to |script|
      invariant fresh(c) && c.Valid() && Idle(c.log) && Commands(c.log) <= 2 * i
      invariant c.Snapshot() == Ran(start, c.config, script[..i])
    {
      RanNext(start, c.config, script, i);
      Perform(c, script[i]);
    }
    assert script[..|script|] == script;
  }
}
