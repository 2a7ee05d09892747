/**
 Runs of the export-limit transaction, for every environment: whatever is done in whatever order, the history is one to
 which the theorems apply. Then two things that may go wrong, and exactly when they can: a command that is sent under a
 baseline which is not the setting it replaces, and a change reported as applied that was never sent.
 */
module ExportRuns {
  import opened Common
  import opened ExportLog
  import opened ExportState
  import opened ExportTiming
  import opened ExportSteps
  import opened ExportKeeps
  import opened ExportDispatch

  /** An operation, with what the environment answers meanwhile. */
  datatype Operation =
    | Reconciles(now: nat, target: Option<Identity>, world: World)
    | Executes(watts: Option<int>, now: nat, target: Option<Identity>, option: nat, window: (nat, nat), world: World)
    | Restores(now: nat, target: Option<Identity>, option: nat, world: World)
    | Resumes(world: World)
    | Watches(now: nat, shown: Identity, world: World)
    | Saves(flush: bool, world: World)
    | Restarts

  function Stepped(s: State, op: Operation): State {
    match op
    case Reconciles(now, target, world) => Reconciled(s.(world := world), now, target).state
    case Executes(watts, now, target, option, window, world) =>
      Executed(s.(world := world), watts, now, target, option, window).state
    case Restores(now, target, option, world) => Restoration(s.(world := world), now, target, option).state
    case Resumes(world) => Resumed(s.(world := world)).state
    case Watches(now, shown, world) => Watching(s.(world := world), now, shown).state
    case Saves(flush, world) => Persisted(s.(world := world), s.mem, flush).state
    case Restarts => Restarted(s)
  }

  function Ran(s: State, ops: seq<Operation>): State {
    if |ops| == 0 then s else Stepped(Ran(s, ops[..|ops| - 1]), ops[|ops| - 1])
  }

  lemma RanNothing(s: State)
    ensures Ran(s, []) == s
  {}

  lemma RanNext(s: State, ops: seq<Operation>, i: nat)
    requires i < |ops|
    ensures Ran(s, ops[..i + 1]) == Stepped(Ran(s, ops[..i]), ops[i])
  {
    assert ops[..i + 1][..i] == ops[..i];
  }

  lemma RanMore(s: State, op: Operation, ops: seq<Operation>)
    ensures Ran(s, ops + [op]) == Stepped(Ran(s, ops), op)
  {
    assert (ops + [op])[..|ops|] == ops;
  }

  /** No operation calls more than once. */
  lemma StepKeeps(s: State, op: Operation)
    requires Inv(s)
    ensures Inv(Stepped(s, op)) && CallCount(Stepped(s, op).log) <= CallCount(s.log) + 1
  {
    hide Inv, CallCount, Reconciled, Executed, Restoration, Resumed, Watching, Persisted, Accounts, Clear;
    hide EndedOnMatch, Steady;
    match op {
      case Reconciles(now, target, world) =>
        Unanswered(s, s.(world := world));
        ReconciledKeeps(s.(world := world), now, target);
      case Executes(watts, now, target, option, window, world) =>
        Unanswered(s, s.(world := world));
        ExecutedKeeps(s.(world := world), watts, now, target, option, window);
      case Restores(now, target, option, world) =>
        Unanswered(s, s.(world := world));
        RestorationKeeps(s.(world := world), now, target, option);
      case Resumes(world) =>
        Unanswered(s, s.(world := world));
        ResumedKeeps(s.(world := world));
      case Watches(now, shown, world) =>
        Unanswered(s, s.(world := world));
        WatchingKeeps(s.(world := world), now, shown);
      case Saves(flush, world) =>
        Unanswered(s, s.(world := world));
        assert s.(world := world).(mem := s.mem) == s.(world := world);
        PersistKeeps(s.(world := world), s.mem, flush);
      case Restarts => RestartKeeps(s);
    }
  }

  /** Whatever is done, and whatever the environment answers, the history stays good, with at most one call an
      operation. */
  lemma {:induction false} RunKeeps(s: State, ops: seq<Operation>)
    requires Inv(s)
    ensures Inv(Ran(s, ops)) && CallCount(Ran(s, ops).log) <= CallCount(s.log) + |ops|
  {
    hide Inv, CallCount, Stepped;
    if |ops| > 0 {
      RunKeeps(s, ops[..|ops| - 1]);
      StepKeeps(Ran(s, ops[..|ops| - 1]), ops[|ops| - 1]);
    }
  }

  /** A store without ownership, or with a conflict latched by an older version on a control it did not own. */
  function Start(latched: Option<Identity>, clock: nat): State {
    var own := if latched.None? then None
               else Some(Ownership(latched.value, None, None, None, Some(ExternalConflict), false));
    State(Data(own, map[]), Data(own, map[]), 0, [], clock, World([], [], [], []))
  }

  lemma StartKeeps(latched: Option<Identity>, clock: nat)
    ensures Inv(Start(latched, clock))
  {}

  /** An uncertain command is never lost: at any later time it is still pending, in memory and on disk, or it has been
      resolved on evidence. */
  lemma CommandIsNotLost(s: State, j: nat)
    requires Inv(s) && j < |s.log| && s.log[j].Call?
    ensures var t := s.log[j].request.ticket;
      || (PendingIs(s.mem, t) && PendingIs(s.disk, t))
      || exists m | j < m < |s.log| :: Resolves(s.log[m], t) && Evidence(s.log, j, m)
  {
    hide GoodLog, TicketsBy, Tracked, Timely, Known, Evidence, WellMade;
    var t := s.log[j].request.ticket;
    if m :| j < m < |s.log| && Resolves(s.log[m], t) {
      GoodOf(s);
      ResolutionHasEvidence(s.log, j, m);
    } else {
      assert s.log[..|s.log|] == s.log;
      UnresolvedStays(s.log, j, |s.log|);
    }
  }

  lemma Accounted(s: State, ticket: nat)
    requires Inv(s)
    ensures forall j: nat | j < |s.log| && s.log[j].Call? && s.log[j].request.ticket == ticket ::
      || (PendingIs(s.mem, ticket) && PendingIs(s.disk, ticket))
      || exists k | j < k < |s.log| :: Resolves(s.log[k], ticket) && Evidence(s.log, j, k)
  {
    hide Inv, Evidence, PendingIs;
    forall j: nat | j < |s.log| && s.log[j].Call? && s.log[j].request.ticket == ticket
      ensures (PendingIs(s.mem, ticket) && PendingIs(s.disk, ticket))
        || exists k | j < k < |s.log| :: Resolves(s.log[k], ticket) && Evidence(s.log, j, k)
    {
      CommandIsNotLost(s, j);
    }
  }
}
