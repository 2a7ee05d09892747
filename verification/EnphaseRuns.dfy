/**
 Runs of the Enphase transaction, for every environment: whatever is done in whatever order, the history is one to
 which the theorems apply. Then exactly when a later command can be sent under the record of a takeover that it did
 not see: a takeover whose dispatch was prevented keeps its record, and so may one whose withdrawal was not yet saved.
 */
module EnphaseRuns {
  import opened Common
  import opened EnphaseLog
  import opened EnphaseSteps

  /** An operation, with what the environment answers meanwhile. */
  datatype Operation = Executes(action: Action, now: nat, world: World) | Restores(world: World) | Restarts

  function Stepped(s: State, config: Config, op: Operation): State {
    match op
    case Executes(action, now, world) => Executed(s.(world := world), config, action, now).0
    case Restores(world) => GivenBack(s.(world := world), config).0
    case Restarts => Restarted(s)
  }

  function Ran(s: State, config: Config, ops: seq<Operation>): State {
    if |ops| == 0 then s else Stepped(Ran(s, config, ops[..|ops| - 1]), config, ops[|ops| - 1])
  }

  lemma RanNothing(s: State, config: Config)
    ensures Ran(s, config, []) == s
  {}

  lemma RanNext(s: State, config: Config, ops: seq<Operation>, i: nat)
    requires i < |ops|
    ensures Ran(s, config, ops[..i + 1]) == Stepped(Ran(s, config, ops[..i]), config, ops[i])
  {
    assert ops[..i + 1][..i] == ops[..i];
  }

  lemma StepKeeps(s: State, config: Config, op: Operation)
    requires Ready(config.ai, s)
    ensures Ready(config.ai, Stepped(s, config, op))
    ensures Commands(s.log) <= Commands(Stepped(s, config, op).log) <= Commands(s.log) + 2
  {
    hide GoodLog, HeldAfter, Durable, Commands, Executed, GivenBack;
    match op {
      case Executes(action, now, world) => ExecuteKeeps(s.(world := world), config, action, now);
      case Restores(world) => GiveBackKeeps(s.(world := world), config);
      case Restarts => RestartKeeps(config.ai, s);
    }
  }

  /** Whatever is done, and whatever the environment answers, the history stays good, with two commands an operation. */
  lemma {:induction false} RunKeeps(s: State, config: Config, ops: seq<Operation>)
    requires Ready(config.ai, s)
    ensures Ready(config.ai, Ran(s, config, ops)) && Commands(Ran(s, config, ops).log) <= Commands(s.log) + 2 * |ops|
  {
    hide Ready, Commands, Stepped;
    if |ops| > 0 {
      RunKeeps(s, config, ops[..|ops| - 1]);
      StepKeeps(Ran(s, config, ops[..|ops| - 1]), config, ops[|ops| - 1]);
    }
  }

  // ---------------------------------------------------------------- where a recorded profile can come from

  ghost predicate Holds(s: State, p: string) {
    Held(s.mem) == Some(p) || Held(s.disk) == Some(p) || HeldAfter(s.log) == Some(p)
  }

  /** The history of `t` continues that of `s`, and `p` is held later only if it was before or a takeover recorded it. */
  ghost predicate Grew(s: State, t: State, p: string) {
    && |s.log| <= |t.log| && t.log[..|s.log|] == s.log
    && (forall k | |s.log| <= k <= |t.log| :: HeldAfter(t.log[..k]) == Some(p) ==>
          Holds(s, p) || Acquired(p) in t.log[|s.log|..k])
    && (Holds(t, p) ==> Holds(s, p) || Acquired(p) in t.log[|s.log|..])
  }

  lemma Same(s: State, t: State, p: string)
    requires s.log == t.log && (Holds(t, p) ==> Holds(s, p))
    ensures Grew(s, t, p)
  {
    assert t.log[..|s.log|] == s.log;
  }

  lemma Then(s: State, t: State, u: State, p: string)
    requires Grew(s, t, p) && Grew(t, u, p)
    ensures Grew(s, u, p)
  {
    hide Holds, HeldAfter;
    assert u.log[..|s.log|] == t.log[..|s.log|];
    forall k | |s.log| <= k <= |u.log| && HeldAfter(u.log[..k]) == Some(p)
      ensures Holds(s, p) || Acquired(p) in u.log[|s.log|..k]
    {
      if k < |t.log| {
        assert u.log[..k] == t.log[..k] && u.log[|s.log|..k] == t.log[|s.log|..k];
      } else {
        assert u.log[|s.log|..k] == t.log[|s.log|..] + u.log[|t.log|..k];
      }
    }
    assert u.log[|s.log|..] == t.log[|s.log|..] + u.log[|t.log|..];
  }

  lemma Adds(s: State, e: Event, p: string)
    requires e.Crash? ==> e.reloaded == s.disk
    ensures Grew(s, s.With(e), p)
  {
    var t := s.With(e);
    Last(s.log, e);
    assert t.log[..|s.log|] == s.log && t.log[..|t.log|] == t.log && t.log[|s.log|..] == [e];
  }

  lemma RestartGrows(s: State, p: string)
    ensures Grew(s, Restarted(s), p)
  {
    var t := Restarted(s);
    Last(s.log, Crash(s.disk));
    assert t.log[..|s.log|] == s.log && t.log[..|t.log|] == t.log && t.log[|s.log|..] == [Crash(s.disk)];
  }

  lemma LookGrows(s: State, p: string)
    ensures Grew(s, Looked(s), p)
  {
    hide Grew;
    var t := s.With(Observed(s.world.Show()));
    Adds(s, Observed(s.world.Show()), p);
    Same(t, Looked(s), p);
    Then(s, t, Looked(s), p);
  }

  lemma SaveGrows(s: State, o: Ownership, flush: bool, p: string)
    requires Held(o) == Some(p) ==> Holds(s, p)
    ensures Grew(s, Saved(s, o, flush).0, p)
  {
    hide Grew, HeldAfter;
    var fate := if flush && s.world.Fate().Delayed? then Written else s.world.Fate();
    var reached := fate.Written? || fate.FailedWritten? || fate.DiedWritten?;
    var t := State(o, if reached then o else s.disk, s.log, s.world.AfterSave());
    Same(s, t, p);
    RestartGrows(t, p);
    Then(s, t, Restarted(t), p);
  }

  lemma CallGrows(s: State, e: Event, p: string)
    requires !e.Crash?
    ensures Grew(s, Called(s, e).0, p)
  {
    hide Grew, HeldAfter;
    var t := s.(world := s.world.AfterAnswer());
    Same(s, t, p);
    Adds(t, e, p);
    Then(s, t, t.With(e), p);
    RestartGrows(t, p);
    Then(s, t, Restarted(t), p);
    RestartGrows(t.With(e), p);
    Then(s, t.With(e), Restarted(t.With(e)), p);
  }

  lemma {:induction false} ConfirmGrows(s: State, desired: string, attempts: nat, p: string)
    ensures Grew(s, Confirmed(s, desired, attempts).0, p)
    decreases attempts
  {
    hide Grew, HeldAfter;
    if attempts == 0 {
      Same(s, s, p);
    } else {
      LookGrows(s, p);
      var t := Looked(s);
      var u := t.(world := t.world.AfterNap());
      Same(t, u, p);
      Then(s, t, u, p);
      RestartGrows(u, p);
      Then(s, u, Restarted(u), p);
      ConfirmGrows(u, desired, attempts - 1, p);
      Then(s, u, Confirmed(u, desired, attempts - 1).0, p);
    }
  }

  lemma RollBackGrows(s: State, saved: string, attempts: nat, p: string)
    ensures Grew(s, Reverted(s, saved, attempts).0, p)
  {
    hide Grew, Called, Confirmed;
    var t := Called(s, Compensated(saved)).0;
    CallGrows(s, Compensated(saved), p);
    ConfirmGrows(t, saved, attempts, p);
    Then(s, t, Confirmed(t, saved, attempts).0, p);
  }

  lemma DispatchGrows(s: State, e: Event, desired: string, seen: string, attempts: nat, p: string)
    requires !e.Crash?
    ensures Grew(s, Dispatched(s, e, desired, seen, attempts).0, p)
  {
    hide Grew, Called, Confirmed, Reverted;
    var t := Called(s, e).0;
    var u := Confirmed(t, desired, attempts).0;
    CallGrows(s, e, p);
    ConfirmGrows(t, desired, attempts, p);
    Then(s, t, u, p);
    RollBackGrows(t, seen, attempts, p);
    Then(s, t, Reverted(t, seen, attempts).0, p);
    RollBackGrows(u, seen, attempts, p);
    Then(s, u, Reverted(u, seen, attempts).0, p);
  }

  lemma PrepareGrows(s: State, current: string, now: nat, p: string)
    ensures Grew(s, Prepared(s, current, now).0, p)
  {
    hide Grew, HeldAfter, Saved;
    var t := s.(log := Opened(s.log, s.mem, current));
    OpenGrows(s, current, p);
    SaveGrows(t, Recorded(s.mem, current, now), true, p);
    var u := Saved(t, Recorded(s.mem, current, now), true).0;
    Then(s, t, u, p);
    Adds(u, Interrupted, p);
    Then(s, u, u.With(Interrupted), p);
  }

  lemma OpenGrows(s: State, current: string, p: string)
    ensures var t := s.(log := Opened(s.log, s.mem, current));
      Grew(s, t, p) && (Held(Recorded(s.mem, current, 0)) == Some(p) ==> Holds(t, p))
  {
    hide Grew;
    if Held(s.mem).None? && current != "" {
      Adds(s, Acquired(current), p);
    } else {
      Same(s, s, p);
    }
  }

  lemma ChangeGrows(s: State, config: Config, desired: string, current: Option<string>, transaction: bool, now: nat,
                    p: string)
    ensures Grew(s, Changed(s, config, desired, current, transaction, now).0, p)
  {
    hide Grew, Prepared, Dispatched;
    Same(s, s, p);
    if current.Some? {
      var seen := current.value;
      var t := Prepared(s, seen, now).0;
      var e := Sent(desired, seen, t.disk);
      PrepareGrows(s, seen, now, p);
      DispatchGrows(t, e, desired, seen, config.attempts, p);
      Then(s, t, Dispatched(t, e, desired, seen, config.attempts).0, p);
      DispatchGrows(s, GaveBack(desired, seen), desired, seen, config.attempts, p);
    }
  }

  lemma Continues(s: State, t: State, u: State, p: string)
    requires Grew(s, t, p) && Holds(s, p) && |t.log| <= |u.log| && u.log[..|t.log|] == t.log
    ensures Grew(s, u, p)
  {
    assert u.log[..|s.log|] == t.log[..|s.log|];
  }

  /** The ending of an operation that began in `s` and has come to `t`. */
  lemma FinishGrows(s: State, t: State, o: Ownership, why: Why, result: Result, p: string)
    requires Grew(s, t, p) && (Held(o) == Some(p) ==> Holds(s, p) || Held(t.mem) == Some(p))
    ensures Grew(s, Finished(t, o, why, result).0, p)
  {
    hide Grew, HeldAfter;
    if Held(o) == Some(p) && Held(t.mem) != Some(p) {
      Continues(s, t, Finished(t, o, why, result).0, p);
    } else if Held(t.mem).Some? && Held(o) != Held(t.mem) {
      var returned := t.With(Returned(Held(t.mem).value, why));
      Adds(t, Returned(Held(t.mem).value, why), p);
      Then(s, t, returned, p);
      SaveGrows(returned, o, false, p);
      Then(s, returned, Saved(returned, o, false).0, p);
    } else {
      SaveGrows(t, o, false, p);
      Then(s, t, Saved(t, o, false).0, p);
    }
  }

  lemma ExecuteGrows(s: State, config: Config, action: Action, now: nat, p: string)
    requires Ready(config.ai, s)
    ensures Grew(s, Executed(s, config, action, now).0, p)
  {
    hide Grew, GoodLog, HeldAfter, Commands, LastShown, Changed, Finished;
    LookKeeps(config.ai, s);
    LookGrows(s, p);
    var current, t := s.world.Show(), Looked(s);
    if Refused(config, action).Some? {
      FinishGrows(s, t, Read(s.mem), NotSent, NoCommand(false, Refused(config, action).value, current), p);
    } else {
      ChangeKeeps(t, config, Wanted(config, action), current, true, now);
      ChangeGrows(t, config, Wanted(config, action), current, true, now, p);
      var (u, done) := Changed(t, config, Wanted(config, action), current, true, now);
      Then(s, t, u, p);
      if done.Done? {
        var res := done.value;
        FinishGrows(s, u, Outcomes(action, s.mem, u.mem, res, now), ReturnReason(config, action, res), res, p);
      }
    }
  }

  lemma GiveBackGrows(s: State, config: Config, p: string)
    ensures Grew(s, GivenBack(s, config).0, p)
  {
    hide Grew, HeldAfter, Changed, Finished;
    LookGrows(s, p);
    var current, t := s.world.Show(), Looked(s);
    if s.mem.profile.None? && config.ai == "" {
      FinishGrows(s, t, s.mem, SavedSelected, NoCommand(false, AiNotConfigured, current), p);
    } else {
      var desired := if s.mem.profile.Some? then s.mem.profile.value else config.ai;
      ChangeGrows(t, config, desired, current, false, 0, p);
      var (u, done) := Changed(t, config, desired, current, false, 0);
      Then(s, t, u, p);
      if done.Done? {
        FinishGrows(s, u, if done.value.applied then NOTHING else u.mem, SavedSelected, done.value, p);
      }
    }
  }

  lemma {:induction false} RunGrows(s: State, config: Config, ops: seq<Operation>, p: string)
    requires Ready(config.ai, s)
    ensures Grew(s, Ran(s, config, ops), p)
  {
    hide Grew, Ready, Executed, GivenBack;
    if |ops| == 0 {
      Same(s, s, p);
    } else {
      var t := Ran(s, config, ops[..|ops| - 1]);
      RunKeeps(s, config, ops[..|ops| - 1]);
      RunGrows(s, config, ops[..|ops| - 1], p);
      StepGrows(t, config, ops[|ops| - 1], p);
      Then(s, t, Stepped(t, config, ops[|ops| - 1]), p);
    }
  }

  lemma StepGrows(s: State, config: Config, op: Operation, p: string)
    requires Ready(config.ai, s)
    ensures Grew(s, Stepped(s, config, op), p)
  {
    hide Grew, HeldAfter, Executed, GivenBack;
    match op {
      case Executes(action, now, world) =>
        Same(s, s.(world := world), p);
        ExecuteGrows(s.(world := world), config, action, now, p);
        Then(s, s.(world := world), Stepped(s, config, op), p);
      case Restores(world) =>
        Same(s, s.(world := world), p);
        GiveBackGrows(s.(world := world), config, p);
        Then(s, s.(world := world), Stepped(s, config, op), p);
      case Restarts => RestartGrows(s, p);
    }
  }

  // ---------------------------------------------------------------- when the record of a takeover misleads

  ghost predicate Usable(config: Config) { config.entity && config.service.Some? && '.' in config.service.value }

  /** The events of a transaction up to its command, or up to what prevented it. */
  function Course(s: State, desired: string, seen: string, now: nat): seq<Event> {
    var o := Recorded(s.mem, seen, now);
    Opened(s.log + [Observed(Some(seen))], s.mem, seen) +
    match s.world.Fate()
    case FailedUnwritten | FailedWritten => [Interrupted]
    case DiedUnwritten => [Crash(s.disk)]
    case DiedWritten => [Crash(o)]
    case Written | Delayed =>
      match s.world.Answer()
      case DiedBefore => [Crash(o)]
      case TargetUnavailable => if Held(s.mem).None? && seen != "" then [Returned(seen, NotSent)] else []
      case _ => [Sent(desired, seen, o)]
  }

  /** The takeover was recorded, but neither its command nor its withdrawal followed. */
  predicate Prevented(s: State) {
    match s.world.Fate()
    case Written | Delayed => s.world.Answer().DiedBefore?
    case _ => true
  }

  ghost predicate Prefixes(a: seq<Event>, b: seq<Event>) { |a| <= |b| && b[..|a|] == a }

  lemma PrefixesChain(a: seq<Event>, b: seq<Event>, c: seq<Event>)
    requires Prefixes(a, b) && Prefixes(b, c)
    ensures Prefixes(a, c)
  {
    assert c[..|a|] == b[..|a|];
  }

  lemma DispatchCourse(s: State, e: Event, desired: string, seen: string, attempts: nat)
    ensures var (t, r) := Dispatched(s, e, desired, seen, attempts);
      match s.world.Answer()
      case DiedBefore => r.Died? && t.log == s.log + [Crash(s.disk)]
      case TargetUnavailable =>
        r == Done(NoCommand(false, EntityUnavailable, Some(seen))) && t.log == s.log && t.mem == s.mem
      case _ => Prefixes(s.log + [e], t.log)
  {
    hide Confirmed, Reverted;
    var t := Called(s, e).0;
    var u := Confirmed(t, desired, attempts).0;
    ConfirmGrows(t, desired, attempts, seen);
    RollBackGrows(t, seen, attempts, seen);
    RollBackGrows(u, seen, attempts, seen);
    if s.world.Answer().Accepted? { PrefixesChain(t.log, u.log, Reverted(u, seen, attempts).0.log); }
    Last(s.log, e);
  }

  lemma FinishPrefixes(s: State, o: Ownership, why: Why, result: Result)
    ensures Prefixes(s.log, Finished(s, o, why, result).0.log)
    ensures Held(s.mem).Some? && Held(o) != Held(s.mem) ==>
      Prefixes(s.log + [Returned(Held(s.mem).value, why)], Finished(s, o, why, result).0.log)
  {}

  lemma CourseIsRun(s: State, config: Config, action: Action, now: nat, seen: string)
    requires s.world.Show() == Some(seen) && Refused(config, action).None?
    requires Declined(config, Wanted(config, action), Some(seen)).None?
    ensures var t := Executed(s, config, action, now).0;
      && Prefixes(Course(s, Wanted(config, action), seen, now), t.log)
      && (Prevented(s) ==> t.log == Course(s, Wanted(config, action), seen, now))
  {
    hide Dispatched;
    var desired, t := Wanted(config, action), Looked(s);
    var (u, prepared) := Prepared(t, seen, now);
    if prepared.Done? {
      var (v, done) := Dispatched(u, Sent(desired, seen, u.disk), desired, seen, config.attempts);
      DispatchCourse(u, Sent(desired, seen, u.disk), desired, seen, config.attempts);
      if done.Done? {
        var o := Outcomes(action, s.mem, v.mem, done.value, now);
        var w := Finished(v, o, ReturnReason(config, action, done.value), done.value).0;
        FinishPrefixes(v, o, ReturnReason(config, action, done.value), done.value);
        if !s.world.Answer().TargetUnavailable? {
          PrefixesChain(Course(s, desired, seen, now), v.log, w.log);
        }
      }
    }
  }

  ghost predicate Pending(log: seq<Event>, i: nat) {
    i < |log| && log[i].Acquired? && forall m | i < m < |log| :: !log[m].Sent? && !log[m].Acquired?
  }

  /** While its record is held and no command has been sent under it, the next command can see another profile. */
  lemma NextMisleads(s: State, config: Config, i: nat) returns (op: Operation, k: nat)
    requires Ready(config.ai, s) && Usable(config) && Pending(s.log, i) && Held(s.mem) == Some(s.log[i].profile)
    ensures k == |s.log| + 1 && Prefixes(s.log, Stepped(s, config, op).log)
    ensures Misled(Stepped(s, config, op).log, i, k) && Stepped(s, config, op).log[|s.log|].Observed?
  {
    hide Sound, HeldAfter, Executed;
    var p := s.log[i].profile;
    PositiveName(config.ai, s, i);
    var q, x := p + p, p + p + p;
    assert |p| < |q| < |x|;
    var world := World([Some(q)], [], [], []);
    var action := SetProfile(x);
    var begun := s.(world := world);
    op, k := Executes(action, 0, world), |s.log| + 1;
    CourseIsRun(begun, config, action, 0, q);
    var o := Recorded(s.mem, q, 0);
    var course := Course(begun, x, q, 0);
    assert course == s.log + [Observed(Some(q))] + [Sent(x, q, o)];
    var after := Stepped(s, config, op).log;
    assert after[..|course|] == course;
    assert after[k] == course[k] && after[|s.log|] == course[|s.log|];
    assert forall m | 0 <= m < |s.log| :: after[m] == course[m] == s.log[m];
    assert after[..|s.log|] == s.log;
    assert after[..k] == s.log + [Observed(Some(q))];
    ObservedHeld(s.log, Some(q));
    SoundHeld(config.ai, s);
  }

  lemma PositiveName(ai: string, s: State, i: nat)
    requires Ready(ai, s) && i < |s.log| && s.log[i].Acquired?
    ensures s.log[i].profile != ""
  {
    GoodPrefix(ai, s.log, i);
  }

  lemma ObservedHeld(log: seq<Event>, shown: Option<string>)
    ensures HeldAfter(log + [Observed(shown)]) == HeldAfter(log)
  {
    Last(log, Observed(shown));
  }

  lemma SoundHeld(ai: string, s: State)
    requires Sound(ai, s)
    ensures HeldAfter(s.log) == Held(s.mem)
  {}

  ghost predicate MayMislead(s: State, config: Config, i: nat) {
    exists ops: seq<Operation>, k: nat :: Misled(Ran(s, config, ops).log, i, k)
  }

  lemma RanOne(s: State, config: Config, op: Operation)
    ensures Ran(s, config, [op]) == Stepped(s, config, op)
  {
    assert [op][..0] == [];
  }

  lemma RanTwo(s: State, config: Config, op: Operation, next: Operation)
    ensures Ran(s, config, [op, next]) == Stepped(Stepped(s, config, op), config, next)
  {
    RanOne(s, config, op);
    assert [op, next][..1] == [op];
  }

  /** A command under the record of a takeover can see another profile exactly if one already did, or if none has been
      sent since and memory or disk still names the profile. */
  lemma MisledExactly(s: State, config: Config, i: nat)
    requires Ready(config.ai, s) && Usable(config) && i < |s.log| && s.log[i].Acquired?
    ensures MayMislead(s, config, i) <==>
      || (exists k: nat :: Misled(s.log, i, k))
      || (Pending(s.log, i) && Some(s.log[i].profile) in {Held(s.mem), Held(s.disk)})
  {
    hide Ready, HeldAfter, Stepped;
    var p := s.log[i].profile;
    if k: nat :| Misled(s.log, i, k) {
      assert Ran(s, config, []) == s;
    } else if Pending(s.log, i) && Held(s.mem) == Some(p) {
      var op, k := NextMisleads(s, config, i);
      RanOne(s, config, op);
    } else if Pending(s.log, i) && Held(s.disk) == Some(p) {
      RestartedPending(s, config, i);
      var op, k := NextMisleads(Restarted(s), config, i);
      RanTwo(s, config, Restarts, op);
    } else if MayMislead(s, config, i) {
      var ops: seq<Operation>, k: nat :| Misled(Ran(s, config, ops).log, i, k);
      LaterMisled(s, config, i, ops, k);
    }
  }

  lemma RestartedPending(s: State, config: Config, i: nat)
    requires Ready(config.ai, s) && Pending(s.log, i)
    ensures Ready(config.ai, Restarted(s)) && Pending(Restarted(s).log, i) && Restarted(s).log[i] == s.log[i]
    ensures Stepped(s, config, Restarts) == Restarted(s)
  {
    RestartKeeps(config.ai, s);
  }

  lemma LaterMisled(s: State, config: Config, i: nat, ops: seq<Operation>, k: nat)
    requires Ready(config.ai, s) && i < |s.log| && s.log[i].Acquired? && Misled(Ran(s, config, ops).log, i, k)
    ensures k < |s.log| ==> Misled(s.log, i, k)
    ensures k >= |s.log| ==> Pending(s.log, i) && Some(s.log[i].profile) in {Held(s.mem), Held(s.disk)}
  {
    hide Ran;
    var p, t := s.log[i].profile, Ran(s, config, ops);
    RunGrows(s, config, ops, p);
    SoundHeld(config.ai, s);
    assert forall m | 0 <= m < |s.log| :: t.log[m] == t.log[..|s.log|][m] == s.log[m];
    if k < |s.log| {
      assert t.log[..k] == s.log[..k];
    } else {
      assert Acquired(p) !in t.log[|s.log|..k];
    }
  }

  ghost predicate MayMisleadInPeriod(s: State, config: Config, i: nat) {
    exists ops: seq<Operation>, k: nat :: Misled(Ran(s, config, ops).log, i, k) && Unreturned(Ran(s, config, ops).log, i, k)
  }

  /** A takeover is stranded by a failed save, by a death that leaves its record on disk, or by a death before the call. */
  ghost predicate Strands(s: State, seen: string) {
    Prevented(s) && (s.world.Fate().DiedUnwritten? ==> Held(s.disk) == Some(seen))
  }

  /** Every first command of the period that this takeover opens sees the recorded profile, in all continuations,
      exactly if neither a failed save nor the end of the process comes between recording and dispatch. */
  lemma TakeoverExactly(s: State, config: Config, action: Action, now: nat, seen: string)
    requires Ready(config.ai, s) && Held(s.mem).None? && s.world.Show() == Some(seen) && seen != ""
    requires Refused(config, action).None? && Declined(config, Wanted(config, action), Some(seen)).None?
    ensures var t, i := Executed(s, config, action, now).0, |s.log| + 1;
      && i + 1 < |t.log| && t.log[i] == Acquired(seen)
      && (MayMisleadInPeriod(t, config, i) <==> Strands(s, seen))
      && (Stranded(t.log, i) <==> Strands(s, seen))
  {
    hide Ready, HeldAfter, Executed, Stranded, Strands, Misled, Unreturned;
    var t, i := Executed(s, config, action, now).0, |s.log| + 1;
    ExecuteKeeps(s, config, action, now);
    StrandedByFate(s, config, action, now, seen);
    if Strands(s, seen) {
      StrandedMisleads(t, config, i);
    } else if MayMisleadInPeriod(t, config, i) {
      var ops: seq<Operation>, k: nat :|
        Misled(Ran(t, config, ops).log, i, k) && Unreturned(Ran(t, config, ops).log, i, k);
      SafeStays(t, config, i, ops, k);
    }
  }

  /** Whether the takeover is stranded is settled by the fate of its save and the answer of its call. */
  lemma StrandedByFate(s: State, config: Config, action: Action, now: nat, seen: string)
    requires Ready(config.ai, s) && Held(s.mem).None? && s.world.Show() == Some(seen) && seen != ""
    requires Refused(config, action).None? && Declined(config, Wanted(config, action), Some(seen)).None?
    ensures var t, i := Executed(s, config, action, now).0, |s.log| + 1;
      && i + 1 < |t.log| && t.log[i] == Acquired(seen) && (Stranded(t.log, i) <==> Strands(s, seen))
      && (Strands(s, seen) ==> |t.log| == i + 2)
  {
    hide Ready, HeldAfter, Executed;
    var t, i := Executed(s, config, action, now).0, |s.log| + 1;
    CourseIsRun(s, config, action, now, seen);
    var course := Course(s, Wanted(config, action), seen, now);
    assert |course| == |s.log| + 3 && course[i] == Acquired(seen);
    assert t.log[i] == course[i] && t.log[i + 1] == course[i + 1];
  }

  lemma StrandedMisleads(t: State, config: Config, i: nat)
    requires Ready(config.ai, t) && Usable(config) && Stranded(t.log, i) && |t.log| == i + 2
    ensures MayMisleadInPeriod(t, config, i)
  {
    hide Ready, HeldAfter, Executed, Misled;
    StrandedHolds(config.ai, t, i);
    var op, k := NextMisleads(t, config, i);
    RanOne(t, config, op);
    assert Misled(Ran(t, config, [op]).log, i, k);
  }

  lemma StrandedHolds(ai: string, t: State, i: nat)
    requires Ready(ai, t) && Stranded(t.log, i) && |t.log| == i + 2
    ensures Pending(t.log, i) && Held(t.mem) == Some(t.log[i].profile)
  {
    SoundHeld(ai, t);
    if t.log[i + 1].Interrupted? {
      assert t.log[..i + 1][i] == t.log[i];
    }
  }

  lemma SafeStays(t: State, config: Config, i: nat, ops: seq<Operation>, k: nat)
    requires Ready(config.ai, t) && i + 1 < |t.log| && t.log[i].Acquired? && !Stranded(t.log, i)
    requires Unreturned(Ran(t, config, ops).log, i, k)
    ensures !Misled(Ran(t, config, ops).log, i, k)
  {
    hide Ran, HeldAfter, GoodLog;
    var u := Ran(t, config, ops);
    RunKeeps(t, config, ops);
    RunGrows(t, config, ops, t.log[i].profile);
    assert u.log[i] == u.log[..|t.log|][i] && u.log[i + 1] == u.log[..|t.log|][i + 1];
    FirstCommandSawIt(config.ai, u.log, i, k);
  }

  /** A run that strands a takeover: `a` is recorded, its save fails, the profile changes to `b`, and the next action
      leaves `b` under the record of `a`. */
  lemma InterruptedTakeoverKeepsOlderProfile(config: Config, a: string, b: string, x: string, now: nat, later: nat)
    requires Usable(config) && a != "" && x != "" && a != b && x != a && x != b
    ensures var first := Executes(SetProfile(x), now, World([Some(a)], [FailedUnwritten], [], []));
      var second := Executes(SetProfile(x), later, World([Some(b)], [], [], []));
      var start := State(NOTHING, NOTHING, [], World([], [], [], []));
      var log := Ran(start, config, [first, second]).log;
      && Ready(config.ai, start) && |log| >= 5
      && log[..5] == [Observed(Some(a)), Acquired(a), Interrupted, Observed(Some(b)),
                      Sent(x, b, Ownership(Some(a), Some(later)))]
  {
    hide Executed;
    var first := Executes(SetProfile(x), now, World([Some(a)], [FailedUnwritten], [], []));
    var second := Executes(SetProfile(x), later, World([Some(b)], [], [], []));
    var start := State(NOTHING, NOTHING, [], World([], [], [], []));
    RanTwo(start, config, first, second);
    CourseIsRun(start.(world := first.world), config, SetProfile(x), now, a);
    var s := Stepped(start, config, first);
    assert s.log == [Observed(Some(a)), Acquired(a), Interrupted];
    ExecuteKeeps(start.(world := first.world), config, SetProfile(x), now);
    CourseIsRun(s.(world := second.world), config, SetProfile(x), later, b);
    assert HeldAfter(s.log) == Some(a) by { assert s.log[..2] == [Observed(Some(a)), Acquired(a)]; }
  }
}
