/**
 What the Enphase transaction does, not only what it avoids: it sends the command that was asked for, looks as often as
 it may, and compensates every command that it could not confirm. Everything is told by the history, the entity's
 readings and the environment's answers.
 */
module EnphaseActs {
  import opened Common
  import opened EnphaseLog
  import opened EnphaseSteps
  import opened EnphaseRuns

  ghost predicate OnlyLooks(log: seq<Event>, from: nat, to: nat) { forall k | from <= k < to && k < |log| :: log[k].Observed? }

  ghost predicate ShownIn(log: seq<Event>, from: nat, to: nat, profile: string) {
    exists k | from <= k < to && k < |log| :: log[k] == Observed(Some(profile))
  }

  /** Confirmation looks until the profile is shown, and at most as often as allowed; it uses up no answer of a call. */
  lemma {:induction false} ConfirmLooks(s: State, desired: string, attempts: nat)
    ensures var (t, r) := Confirmed(s, desired, attempts);
      r.Done? ==>
        && Prefixes(s.log, t.log) && OnlyLooks(t.log, |s.log|, |t.log|) && t.world.responses == s.world.responses
        && |t.log| <= |s.log| + attempts && t.mem == s.mem && t.disk == s.disk
        && (r.value <==> ShownIn(t.log, |s.log|, |t.log|, desired))
        && (!r.value ==> |t.log| == |s.log| + attempts)
    decreases attempts
  {
    if attempts > 0 {
      var one := Looked(s);
      assert one.log == s.log + [Observed(s.world.Show())];
      if s.world.Show() == Some(desired) {
        assert one.log[|s.log|] == Observed(Some(desired));
      } else if attempts > 1 && one.world.Nap().Slept? {
        var u := one.(world := one.world.AfterNap());
        ConfirmLooks(u, desired, attempts - 1);
        Behind(s.log, s.world.Show(), Confirmed(u, desired, attempts - 1).0.log, desired);
      }
    }
  }

  /** One more look in front. */
  lemma Behind(log: seq<Event>, shown: Option<string>, after: seq<Event>, desired: string)
    requires shown != Some(desired)
    ensures Prefixes(log + [Observed(shown)], after) ==>
      && Prefixes(log, after)
      && (OnlyLooks(after, |log| + 1, |after|) <==> OnlyLooks(after, |log|, |after|))
      && (ShownIn(after, |log| + 1, |after|, desired) <==> ShownIn(after, |log|, |after|, desired))
  {
    if Prefixes(log + [Observed(shown)], after) {
      assert after[|log|] == after[..|log| + 1][|log|] == Observed(shown);
      assert after[..|log|] == after[..|log| + 1][..|log|];
    }
  }

  // ---------------------------------------------------------------- compensation

  /** What a command that was sent and not confirmed leaves: all allowed looks without the profile, then the
      compensating command, unless it provably never left, and all its looks; and what is reported of it. */
  ghost predicate Compensates(before: seq<Event>, e: Event, desired: string, seen: string, attempts: nat, first: Response,
                              second: Response, log: seq<Event>, back: Option<bool>, k: nat)
  {
    && |before| < k <= |log| && Prefixes(before + [e], log) && OnlyLooks(log, |before| + 1, k)
    && !ShownIn(log, |before| + 1, k, desired)
    && (first.Accepted? || first.Failed?) && k == |before| + 1 + (if first.Accepted? then attempts else 0)
    && if second.TargetUnavailable? then k == |log| && back == Some(false)
       else
         && k < |log| && log[k] == Compensated(seen) && OnlyLooks(log, k + 1, |log|) && |log| <= k + 1 + attempts
         && back == Some(second.Accepted? && ShownIn(log, k + 1, |log|, seen))
         && (second.Accepted? && back == Some(false) ==> |log| == k + 1 + attempts)
  }

  lemma RevertsExactly(s: State, seen: string, attempts: nat)
    ensures var (t, r) := Reverted(s, seen, attempts);
      var second := s.world.Answer();
      r.Done? ==>
        && Prefixes(s.log, t.log) && |t.log| >= |s.log|
        && if second.TargetUnavailable? then t.log == s.log && !r.value
           else
             && |s.log| < |t.log| <= |s.log| + 1 + attempts && t.log[|s.log|] == Compensated(seen)
             && OnlyLooks(t.log, |s.log| + 1, |t.log|)
             && (r.value <==> second.Accepted? && ShownIn(t.log, |s.log| + 1, |t.log|, seen))
             && (second.Accepted? && !r.value ==> |t.log| == |s.log| + 1 + attempts)
  {
    hide Confirmed;
    var (u, answer) := Called(s, Compensated(seen));
    if answer.Accepted? {
      ConfirmLooks(u, seen, attempts);
      var (t, r) := Confirmed(u, seen, attempts);
      if r.Done? {
        assert u.log == s.log + [Compensated(seen)];
        assert t.log[|s.log|] == t.log[..|u.log|][|s.log|];
        assert t.log[..|s.log|] == t.log[..|u.log|][..|s.log|];
      }
    }
  }

  /** Looks after the command, then the way back. */
  lemma PutsTogether(s: State, e: Event, desired: string, seen: string, attempts: nat, u: State, t: State, back: bool)
    requires Prefixes(s.log + [e], u.log) && OnlyLooks(u.log, |s.log| + 1, |u.log|)
    requires !ShownIn(u.log, |s.log| + 1, |u.log|, desired)
    requires var first, second := s.world.Answer(), s.world.AfterAnswer().Answer();
      && (first.Accepted? || first.Failed?) && |u.log| == |s.log| + 1 + (if first.Accepted? then attempts else 0)
      && u.world.responses == s.world.AfterAnswer().responses
      && (t, Done(back)) == Reverted(u, seen, attempts)
    ensures Compensates(s.log, e, desired, seen, attempts, s.world.Answer(), s.world.AfterAnswer().Answer(), t.log,
                        Some(back), |u.log|)
  {
    hide Reverted;
    RevertsExactly(u, seen, attempts);
    assert forall m | 0 <= m < |u.log| :: t.log[m] == t.log[..|u.log|][m] == u.log[m];
    assert t.log[..|s.log| + 1] == u.log[..|s.log| + 1];
  }

  /** From the service call on: applied exactly if the call was accepted and an allowed look showed the profile; otherwise,
      if anything was sent, compensated. */
  lemma DispatchActs(s: State, e: Event, desired: string, seen: string, attempts: nat)
    requires IsCommand(e)
    ensures var (t, r) := Dispatched(s, e, desired, seen, attempts);
      var first, second := s.world.Answer(), s.world.AfterAnswer().Answer();
      r.Done? ==>
        && (r.value.sent <==> !first.TargetUnavailable?)
        && (r.value.applied ==>
              && first.Accepted? && Prefixes(s.log + [e], t.log) && OnlyLooks(t.log, |s.log| + 1, |t.log|)
              && ShownIn(t.log, |s.log| + 1, |t.log|, desired) && |t.log| <= |s.log| + 1 + attempts)
        && (r.value.sent && !r.value.applied ==>
              exists k: nat ::
                Compensates(s.log, e, desired, seen, attempts, first, second, t.log, r.value.rolledBack, k))
  {
    hide Confirmed, Reverted;
    var (u, answer) := Called(s, e);
    if answer.Failed? {
      RevertsExactly(u, seen, attempts);
      var (t, r) := Reverted(u, seen, attempts);
      if r.Done? {
        PutsTogether(s, e, desired, seen, attempts, u, t, r.value);
      }
    } else if answer.Accepted? {
      ConfirmLooks(u, desired, attempts);
      var (v, confirmed) := Confirmed(u, desired, attempts);
      if confirmed == Done(false) {
        RevertsExactly(v, seen, attempts);
        var (t, r) := Reverted(v, seen, attempts);
        if r.Done? {
          PutsTogether(s, e, desired, seen, attempts, v, t, r.value);
        }
      }
    }
  }

  /** The command of a change, and the history it is added to. */
  function CommandOf(s: State, desired: string, seen: string, transaction: bool, now: nat): Event {
    if transaction then Sent(desired, seen, Recorded(s.mem, seen, now)) else GaveBack(desired, seen)
  }

  function BegunWith(s: State, seen: string, transaction: bool): seq<Event> {
    if transaction then Opened(s.log, s.mem, seen) else s.log
  }

  /** A change of profile that was sent and not applied has been compensated. */
  ghost predicate CompensatesChange(s: State, desired: string, seen: string, transaction: bool, now: nat, attempts: nat,
                                    log: seq<Event>, back: Option<bool>)
  {
    exists k: nat ::
      Compensates(BegunWith(s, seen, transaction), CommandOf(s, desired, seen, transaction, now), desired, seen, attempts,
                  s.world.Answer(), s.world.AfterAnswer().Answer(), log, back, k)
  }

  lemma ChangeActs(s: State, config: Config, desired: string, current: Option<string>, transaction: bool, now: nat)
    ensures var (t, r) := Changed(s, config, desired, current, transaction, now);
      r.Done? && r.value.sent && !r.value.applied ==>
        && current.Some?
        && CompensatesChange(s, desired, current.value, transaction, now, config.attempts, t.log, r.value.rolledBack)
  {
    hide Dispatched, Prepared, Compensates;
    if Declined(config, desired, current).None? {
      var seen := current.value;
      PreparedIs(s, seen, now);
      var u := if transaction then Prepared(s, seen, now).0 else s;
      var e := if transaction then Sent(desired, seen, u.disk) else GaveBack(desired, seen);
      DispatchActs(u, e, desired, seen, config.attempts);
      var (t, r) := Changed(s, config, desired, current, transaction, now);
      if r.Done? && r.value.sent && !r.value.applied {
        assert (t, r) == Dispatched(u, e, desired, seen, config.attempts);
        var k: nat :| Compensates(u.log, e, desired, seen, config.attempts, u.world.Answer(),
                                  u.world.AfterAnswer().Answer(), t.log, r.value.rolledBack, k);
        assert u.log == BegunWith(s, seen, transaction) && e == CommandOf(s, desired, seen, transaction, now);
      }
    }
  }

  /** What a durable record leaves to be done. */
  lemma PreparedIs(s: State, seen: string, now: nat)
    ensures var (u, r) := Prepared(s, seen, now);
      r.Done? ==>
        && u.log == Opened(s.log, s.mem, seen) && u.disk == Recorded(s.mem, seen, now)
        && u.world.Answer() == s.world.Answer() && u.world.AfterAnswer().Answer() == s.world.AfterAnswer().Answer()
  {}

  // ---------------------------------------------------------------- the whole operations

  /** The configuration and the entity allow a command for `desired` while `seen` is selected. */
  ghost predicate Commandable(config: Config, desired: string, seen: string) {
    config.entity && config.service.Some? && '.' in config.service.value && desired != seen
  }

  /** The profile that an action asks for. */
  ghost predicate Asks(config: Config, action: Action, desired: string) {
    (action == SetProfile(desired) || (action == RestoreAi && desired == config.ai)) && desired != ""
  }

  predicate Saves(fate: Fault) { fate.Written? || fate.Delayed? }

  predicate Leaves(answer: Response) { !answer.TargetUnavailable? && !answer.DiedBefore? }

  /** What a planned action sends: once the baseline is on disk, the command for what it asks, replacing what was seen. */
  lemma ExecuteSends(s: State, config: Config, action: Action, now: nat, desired: string, seen: string)
    requires Asks(config, action, desired) && Commandable(config, desired, seen)
    requires s.world.Show() == Some(seen) && Saves(s.world.Fate()) && Leaves(s.world.Answer())
    ensures var t := Executed(s, config, action, now);
      && Prefixes(Opened(s.log + [Observed(Some(seen))], s.mem, seen) + [Sent(desired, seen, Recorded(s.mem, seen, now))],
                  t.0.log)
      && (t.1.Done? ==> t.1.value.sent)
  {
    hide Dispatched, Changed;
    CourseIsRun(s, config, action, now, seen);
    ExecuteIsDispatch(s, config, action, now, desired, seen);
    var u, e := Prepared(Looked(s), seen, now).0, Sent(desired, seen, Prepared(Looked(s), seen, now).0.disk);
    DispatchActs(u, e, desired, seen, config.attempts);
  }

  /** With a durable baseline a planned action is a dispatch, and then its ending. */
  lemma ExecuteIsDispatch(s: State, config: Config, action: Action, now: nat, desired: string, seen: string)
    requires Asks(config, action, desired) && Commandable(config, desired, seen)
    requires s.world.Show() == Some(seen) && Saves(s.world.Fate())
    ensures var u := Prepared(Looked(s), seen, now).0;
      var (v, done) := Dispatched(u, Sent(desired, seen, u.disk), desired, seen, config.attempts);
      var t := Executed(s, config, action, now);
      && u.log == Opened(s.log + [Observed(Some(seen))], s.mem, seen) && u.disk == Recorded(s.mem, seen, now)
      && u.world.responses == s.world.responses
      && (done.Done? ==>
            && Prefixes(v.log, t.0.log)
            && (t.1.Done? ==> t.1 == done))
      && (!done.Done? ==> !t.1.Done?)
  {
    hide Dispatched;
    var u := Prepared(Looked(s), seen, now).0;
    var (v, done) := Dispatched(u, Sent(desired, seen, u.disk), desired, seen, config.attempts);
    if done.Done? {
      FinishPrefixes(v, Outcomes(action, s.mem, v.mem, done.value, now), ReturnReason(config, action, done.value),
                     done.value);
    }
  }

  /** A planned action that was sent and not applied has been compensated: the history holds its command, the looks that
      did not show the profile, and the way back, and the result tells exactly whether that was confirmed. */
  lemma ExecuteCompensates(s: State, config: Config, action: Action, now: nat, desired: string, seen: string)
    requires Asks(config, action, desired) && Commandable(config, desired, seen)
    requires s.world.Show() == Some(seen) && Saves(s.world.Fate())
    ensures var (t, r) := Executed(s, config, action, now);
      var begun := Opened(s.log + [Observed(Some(seen))], s.mem, seen);
      var e := Sent(desired, seen, Recorded(s.mem, seen, now));
      var first, second := s.world.Answer(), s.world.AfterAnswer().Answer();
      r.Done? && r.value.sent && !r.value.applied ==>
        exists log: seq<Event>, k: nat ::
          Prefixes(log, t.log)
          && Compensates(begun, e, desired, seen, config.attempts, first, second, log, r.value.rolledBack, k)
  {
    hide Dispatched, Executed;
    ExecuteIsDispatch(s, config, action, now, desired, seen);
    var u := Prepared(Looked(s), seen, now).0;
    var e := Sent(desired, seen, u.disk);
    DispatchActs(u, e, desired, seen, config.attempts);
    var (v, done) := Dispatched(u, e, desired, seen, config.attempts);
    var (t, r) := Executed(s, config, action, now);
    if r.Done? && r.value.sent && !r.value.applied {
      var k: nat :| Compensates(u.log, e, desired, seen, config.attempts, s.world.Answer(), s.world.AfterAnswer().Answer(),
                                v.log, done.value.rolledBack, k);
    }
  }

  /** A restoration outside a transaction sends the recorded profile, or AI control when none is recorded. */
  lemma GiveBackSends(s: State, config: Config, desired: string, seen: string)
    requires s.mem.profile == Some(desired) || (s.mem.profile.None? && desired == config.ai != "")
    requires Commandable(config, desired, seen) && s.world.Show() == Some(seen) && Leaves(s.world.Answer())
    ensures var (t, r) := GivenBack(s, config);
      Prefixes(s.log + [Observed(Some(seen))] + [GaveBack(desired, seen)], t.log) && (r.Done? ==> r.value.sent)
  {
    hide Dispatched;
    var u, e := Looked(s), GaveBack(desired, seen);
    var (v, done) := Dispatched(u, e, desired, seen, config.attempts);
    DispatchActs(u, e, desired, seen, config.attempts);
    DispatchCourse(u, e, desired, seen, config.attempts);
    if done.Done? {
      var o := if done.value.applied then NOTHING else v.mem;
      FinishPrefixes(v, o, SavedSelected, done.value);
      PrefixesChain(u.log + [e], v.log, Finished(v, o, SavedSelected, done.value).0.log);
    }
  }
}
