/**
 Vocabulary and history of the Enphase profile transaction. The history records what the profile entity showed, what
 was sent to it, and how the recorded baseline came and went; the theorems are about every history whose events are
 justified.
 */
module EnphaseLog {
  import opened Common

  /** The stored Enphase fields; a missing field is `None`. */
  datatype Ownership = Ownership(profile: Option<string>, changedAt: Option<nat>)

  const NOTHING := Ownership(None, None)

  /** Fields as they are read back: an empty profile name is no baseline. */
  function Read(raw: Ownership): Ownership {
    if raw.profile == Some("") then raw.(profile := None) else raw
  }

  /** The baseline a restoration would use. */
  function Held(raw: Ownership): Option<string> { Read(raw).profile }

  datatype Why = NotSent | RolledBack | AiSelected | SavedSelected

  datatype Event =
    | Observed(shown: Option<string>)                      // what the entity showed
    | Acquired(profile: string)                            // recorded while selected and nothing was held
    | Sent(desired: string, seen: string, disk: Ownership) // a transaction's command
    | GaveBack(desired: string, seen: string)              // a restoration outside any transaction
    | Compensated(profile: string)
    | Returned(lost: string, why: Why)
    | Interrupted                                          // recorded, but dispatch was prevented
    | Crash(reloaded: Ownership)

  // ---------------------------------------------------------------- reading a history

  ghost function HeldAfter(log: seq<Event>): Option<string> {
    if |log| == 0 then None
    else
      match log[|log| - 1]
      case Acquired(p) => Some(p)
      case Returned(_, _) => None
      case Crash(d) => Held(d)
      case _ => HeldAfter(log[..|log| - 1])
  }

  /** What the entity showed last, if no command and no crash came after it. */
  ghost function LastShown(log: seq<Event>): Option<string> {
    if |log| == 0 then None
    else
      match log[|log| - 1]
      case Observed(shown) => shown
      case Sent(_, _, _) => None
      case GaveBack(_, _) => None
      case Compensated(_) => None
      case Crash(_) => None
      case _ => LastShown(log[..|log| - 1])
  }

  /** The profile that the last command replaced. */
  ghost function LastReplaced(log: seq<Event>): Option<string> {
    if |log| == 0 then None
    else
      match log[|log| - 1]
      case Sent(_, seen, _) => Some(seen)
      case GaveBack(_, seen) => Some(seen)
      case _ => LastReplaced(log[..|log| - 1])
  }

  /** Memory and disk agree on the baseline: it neither came nor went since the last command or crash. */
  ghost predicate Durable(log: seq<Event>) {
    |log| > 0 ==>
      match log[|log| - 1]
      case Sent(_, _, _) => true
      case Crash(_) => true
      case Acquired(_) => false
      case Returned(_, _) => false
      case _ => Durable(log[..|log| - 1])
  }

  predicate IsCommand(e: Event) { e.Sent? || e.GaveBack? || e.Compensated? }

  ghost function Commands(log: seq<Event>): nat {
    if |log| == 0 then 0 else Commands(log[..|log| - 1]) + (if IsCommand(log[|log| - 1]) then 1 else 0)
  }

  ghost predicate WasAcquired(log: seq<Event>, p: string) { Acquired(p) in log }

  /** After a takeover is recorded, only its own command, its withdrawal, or an interruption can follow. */
  ghost predicate FollowsTakeover(before: seq<Event>, e: Event) {
    |before| > 0 && before[|before| - 1].Acquired? ==>
      var p := before[|before| - 1].profile;
      || (e.Sent? && e.seen == p) || e.Interrupted? || e.Crash?
      || e == Returned(p, NotSent)
  }

  ghost predicate ReturnJustified(ai: string, before: seq<Event>, lost: string, why: Why) {
    && HeldAfter(before) == Some(lost)
    && match why
       case NotSent => |before| > 0 && before[|before| - 1] == Acquired(lost)
       case RolledBack => LastShown(before) == Some(lost)
       case AiSelected => LastShown(before) == Some(ai)
       case SavedSelected => LastShown(before) == Some(lost)
  }

  ghost predicate Justified(ai: string, before: seq<Event>, e: Event) {
    && FollowsTakeover(before, e)
    && match e
       case Acquired(p) => HeldAfter(before).None? && p != "" && LastShown(before) == Some(p)
       case Sent(_, seen, disk) =>
         LastShown(before) == Some(seen) && Held(disk) == HeldAfter(before) && (seen != "" ==> Held(disk).Some?)
       case GaveBack(_, seen) => LastShown(before) == Some(seen)
       case Compensated(p) => LastReplaced(before) == Some(p)
       case Returned(lost, why) => ReturnJustified(ai, before, lost, why)
       case Crash(d) =>
         && (Held(d).Some? ==> WasAcquired(before, Held(d).value))
         && (Durable(before) ==> Held(d) == HeldAfter(before))
       case _ => true
  }

  ghost predicate GoodLog(ai: string, log: seq<Event>) {
    |log| > 0 ==> GoodLog(ai, log[..|log| - 1]) && Justified(ai, log[..|log| - 1], log[|log| - 1])
  }

  lemma {:induction false} GoodPrefix(ai: string, log: seq<Event>, n: nat)
    requires GoodLog(ai, log) && n <= |log|
    ensures GoodLog(ai, log[..n]) && (n < |log| ==> Justified(ai, log[..n], log[n]))
  {
    if n == |log| {
      assert log[..n] == log;
    } else {
      if n < |log| - 1 { GoodPrefix(ai, log[..|log| - 1], n); }
      assert log[..|log| - 1][..n] == log[..n];
    }
  }

  // ---------------------------------------------------------------- observations

  /** What is taken as shown was shown, with no command and no crash since. */
  lemma {:induction false} ShownIsObserved(log: seq<Event>) returns (m: nat)
    requires LastShown(log).Some?
    ensures m < |log| && log[m] == Observed(LastShown(log))
    ensures forall k | m <= k < |log| :: !IsCommand(log[k]) && !log[k].Crash?
  {
    var n := |log| - 1;
    if log[n].Observed? { m := n; } else { m := ShownIsObserved(log[..n]); }
  }

  /** A takeover records the profile that the entity showed, with no command and no crash in between. */
  lemma TakeoverWasShown(ai: string, log: seq<Event>, i: nat) returns (m: nat)
    requires GoodLog(ai, log) && i < |log| && log[i].Acquired?
    ensures m < i && log[m] == Observed(Some(log[i].profile))
    ensures forall k | m <= k < i :: !IsCommand(log[k]) && !log[k].Crash?
  {
    GoodPrefix(ai, log, i);
    m := ShownIsObserved(log[..i]);
  }

  /** Whatever is held, also after a crash, was recorded by a takeover, while the entity showed it. */
  lemma {:induction false} HeldWasSelected(ai: string, log: seq<Event>)
    requires GoodLog(ai, log) && HeldAfter(log).Some?
    ensures exists i, m | 0 <= m < i < |log| ::
      log[i] == Acquired(HeldAfter(log).value) && log[m] == Observed(HeldAfter(log))
  {
    var p := HeldAfter(log).value;
    HeldWasAcquired(ai, log);
    var i :| 0 <= i < |log| && log[i] == Acquired(p);
    var m := TakeoverWasShown(ai, log, i);
    assert log[i] == Acquired(p) && log[m] == Observed(Some(p));
  }

  lemma {:induction false} HeldWasAcquired(ai: string, log: seq<Event>)
    requires GoodLog(ai, log) && HeldAfter(log).Some?
    ensures WasAcquired(log, HeldAfter(log).value)
  {
    var n := |log| - 1;
    if !log[n].Acquired? {
      if !log[n].Crash? { HeldWasAcquired(ai, log[..n]); }
      assert Acquired(HeldAfter(log).value) in log[..n];
    }
  }

  // ---------------------------------------------------------------- the first profile of a period

  /** Until a crash, no later command, failure or rollback replaces the profile that opened the period. */
  lemma {:induction false} FirstProfileKept(ai: string, log: seq<Event>, i: nat, n: nat)
    requires GoodLog(ai, log) && i < n <= |log| && log[i].Acquired?
    requires forall m | i < m < n :: !log[m].Returned? && !log[m].Crash?
    ensures HeldAfter(log[..n]) == Some(log[i].profile)
  {
    assert log[..n][..n - 1] == log[..n - 1];
    GoodPrefix(ai, log, n - 1);
    if i < n - 1 { FirstProfileKept(ai, log, i, n - 1); }
  }

  /** Once memory and disk agree, crashes change nothing until the baseline comes or goes. */
  lemma {:induction false} DurableStays(ai: string, log: seq<Event>, j: nat, n: nat)
    requires GoodLog(ai, log) && j <= n <= |log| && Durable(log[..j])
    requires forall m | j <= m < n :: !log[m].Returned? && !log[m].Acquired?
    ensures Durable(log[..n]) && HeldAfter(log[..n]) == HeldAfter(log[..j])
  {
    if j < n {
      assert log[..n][..n - 1] == log[..n - 1];
      GoodPrefix(ai, log, n - 1);
      DurableStays(ai, log, j, n - 1);
    }
  }

  /** While something is held, no takeover is recorded. */
  lemma {:induction false} HeldThroughCrashes(ai: string, log: seq<Event>, j: nat, n: nat)
    requires GoodLog(ai, log) && j <= n <= |log| && Durable(log[..j]) && HeldAfter(log[..j]).Some?
    requires forall m | j <= m < n :: !log[m].Returned?
    ensures Durable(log[..n]) && HeldAfter(log[..n]) == HeldAfter(log[..j])
  {
    if j < n {
      assert log[..n][..n - 1] == log[..n - 1];
      GoodPrefix(ai, log, n - 1);
      HeldThroughCrashes(ai, log, j, n - 1);
    }
  }

  /** From a command on, the baseline named on disk at that command stays the baseline through any crashes, until the
      period ends with evidence. */
  lemma ProfileSurvivesCrashes(ai: string, log: seq<Event>, j: nat, n: nat)
    requires GoodLog(ai, log) && j < n <= |log| && log[j].Sent? && log[j].seen != ""
    requires forall m | j < m < n :: !log[m].Returned?
    ensures Held(log[j].disk).Some? && HeldAfter(log[..n]) == Held(log[j].disk)
  {
    GoodPrefix(ai, log, j);
    assert log[..j + 1][..j] == log[..j];
    HeldThroughCrashes(ai, log, j + 1, n);
  }

  /** The first profile survives everything: once a command of the period was sent, the recorded profile is the one of
      the takeover, through repeated commands, rollbacks, cancellations and crashes, until the period ends. */
  lemma ProfileIsKept(ai: string, log: seq<Event>, i: nat, j: nat, n: nat)
    requires GoodLog(ai, log) && i < j < n <= |log| && log[i].Acquired? && log[j].Sent? && log[j].seen != ""
    requires forall m | i < m < n :: !log[m].Returned?
    requires forall m | i < m < j :: !log[m].Crash?
    ensures HeldAfter(log[..n]) == Some(log[i].profile)
  {
    GoodPrefix(ai, log, j);
    FirstProfileKept(ai, log, i, j);
    ProfileSurvivesCrashes(ai, log, j, n);
  }

  /** Every planner command is recoverable: before it is sent, the disk names a profile that a takeover recorded. */
  lemma CommandIsRecoverable(ai: string, log: seq<Event>, i: nat)
    requires GoodLog(ai, log) && i < |log| && log[i].Sent? && log[i].seen != ""
    ensures Held(log[i].disk).Some? && Held(log[i].disk) == HeldAfter(log[..i])
    ensures WasAcquired(log[..i], Held(log[i].disk).value)
  {
    GoodPrefix(ai, log, i);
    HeldWasAcquired(ai, log[..i]);
  }

  /** Ownership ends only when nothing was sent, when the entity showed the old profile after the last command, or when
      it showed the AI profile. */
  lemma PeriodEndsWithEvidence(ai: string, log: seq<Event>, i: nat)
    requires GoodLog(ai, log) && i < |log| && log[i].Returned?
    ensures WasAcquired(log[..i], log[i].lost)
    ensures log[i].why.NotSent? ==> i > 0 && log[i - 1] == Acquired(log[i].lost)
    ensures !log[i].why.NotSent? ==>
      exists m | 0 <= m < i ::
        && log[m] == Observed(Some(if log[i].why.AiSelected? then ai else log[i].lost))
        && forall k | m <= k < i :: !IsCommand(log[k]) && !log[k].Crash?
  {
    GoodPrefix(ai, log, i);
    HeldWasAcquired(ai, log[..i]);
    if !log[i].why.NotSent? {
      var m := ShownIsObserved(log[..i]);
      assert log[m] == Observed(Some(if log[i].why.AiSelected? then ai else log[i].lost));
    }
  }

  // ---------------------------------------------------------------- the first command of a period

  /** The first command after the takeover at `i`, sent under its record, saw another profile than the recorded one. */
  ghost predicate Misled(log: seq<Event>, i: nat, k: nat) {
    && i < k < |log| && log[i].Acquired? && log[k].Sent? && log[k].seen != log[i].profile
    && (forall m | i < m < k :: !log[m].Sent? && !log[m].Acquired?)
    && HeldAfter(log[..k]) == Some(log[i].profile)
  }

  ghost predicate Unreturned(log: seq<Event>, i: nat, k: nat) {
    forall m | i < m < k && m < |log| :: !log[m].Returned?
  }

  /** Dispatch was prevented after the takeover at `i`, and its record is still there. */
  ghost predicate Stranded(log: seq<Event>, i: nat) {
    && i + 1 < |log| && log[i].Acquired?
    && (log[i + 1].Interrupted? || (log[i + 1].Crash? && Held(log[i + 1].reloaded) == Some(log[i].profile)))
  }

  /** Unless the takeover is stranded, the first command of its period saw the recorded profile. */
  lemma FirstCommandSawIt(ai: string, log: seq<Event>, i: nat, k: nat)
    requires GoodLog(ai, log) && i + 1 < |log| && log[i].Acquired? && !Stranded(log, i) && Unreturned(log, i, k)
    ensures !Misled(log, i, k)
  {
    if Misled(log, i, k) {
      GoodPrefix(ai, log, i + 1);
      assert log[..i + 1][i] == log[i];
      if log[i + 1].Crash? {
        assert log[..i + 2][i + 1] == log[i + 1];
        DurableStays(ai, log, i + 2, k);
      }
    }
  }
}
