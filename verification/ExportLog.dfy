/**
 Vocabulary of the durable export-limit transaction and its history. The history is the model's record of what
 happened at the gateway boundary and of what the transaction concluded from it; the theorems at the end are read
 off any history whose events are all justified.
 */
module ExportLog {
  import opened Common

  /** Five minutes between changes, and ten minutes of trust in a readback, in microseconds. */
  const MIN_CHANGE: nat := 300_000_000
  const READBACK_MAX_AGE: nat := 600_000_000
  const MAX_SAVED_INTERVAL: nat := 86_400_000_000

  /** A gateway setting: `None` watts is a disabled limit. */
  datatype Setting = Setting(watts: Option<int>, slew: int)

  /** A settled reading of the gateway, `at` being the completion time of the read. */
  datatype Readback = Readback(setting: Setting, pending: bool, at: nat)

  /** An entity and the upstream control it is an alias of. */
  datatype Identity = Identity(entity: string, control: string)

  /** A persisted command. `ticket` stands for its audit identity; `notBefore` is the earliest acceptable read. */
  datatype Request = Request(ticket: nat, watts: Option<int>, sentAt: nat, notBefore: Option<nat>, restore: bool,
                             seen: Readback, slew: Option<int>)

  datatype Reason =
    | Unavailable | Unsupported | TargetChanged | ChangePending | Unconfirmed | ExternalConflict | ExternalChanged
    | RateLimited | Restoring | TariffExpired | Vetoed | ServiceRejected | AlreadyDesired | NotOwned | BaselineRestored

  datatype Ownership = Ownership(identity: Identity, expected: Option<Setting>, pending: Option<Request>,
                                 baseline: Option<Setting>, pause: Option<Reason>, restoring: bool)

  /** Timing record of one upstream control. */
  datatype Record = Record(checkedAt: nat, attemptedAt: Option<nat>, confirmedAt: Option<nat>,
                           confirmationFor: Option<nat>, settledAt: Option<nat>, settlementFor: Option<nat>,
                           interval: nat)

  /** One copy of the store, in memory or on disk. */
  datatype Data = Data(own: Option<Ownership>, limits: map<string, Record>)

  /** Why a baseline is given up. */
  datatype Why = Matched(read: Readback) | External(read: Readback, reference: Setting) | Unsent(ticket: nat)

  datatype Event =
    | Observed(read: Readback)                   // the gateway showed a settled reading
    | Reserved(request: Request)
    | Acquired(baseline: Setting, read: Readback)
    | Call(control: string, time: nat, request: Request, disk: Data)
    | Declined(ticket: nat)                      // the service refused the call
    | Applied(request: Request, read: Readback)  // reported as applied or restored
    | Confirmed(request: Request, read: Readback)
    | Superseded(request: Request, read: Readback)
    | Refused(ticket: nat)
    | Watched(setting: Setting)                  // the setting expected from now on
    | Dropped(baseline: Setting, why: Why)
    | Crash(reloaded: Data)
    | ClockBack

  /** The latest reservation, and whether it took the baseline over. */
  datatype Booking = Booking(request: Request, takeover: bool)

  // ---------------------------------------------------------------- reading a history

  function Baseline(d: Data): Option<Setting> { if d.own.Some? then d.own.value.baseline else None }

  function PendingOf(d: Data): Option<Request> { if d.own.Some? then d.own.value.pending else None }

  function Expected(d: Data): Option<Setting> { if d.own.Some? then d.own.value.expected else None }

  /** The latest reading the gateway showed, none if a command or a crash came after it. */
  ghost function FreshShown(log: seq<Event>): Option<Readback> {
    if |log| == 0 then None
    else
      match log[|log| - 1]
      case Observed(read) => Some(read)
      case Call(_, _, _, _) => None
      case Crash(_) => None
      case _ => FreshShown(log[..|log| - 1])
  }

  ghost predicate ShownEver(log: seq<Event>, setting: Setting) {
    exists e | e in log :: e.Observed? && e.read.setting == setting
  }

  /** The setting that an external change would differ from. */
  ghost function ExpectedAfter(log: seq<Event>): Option<Setting> {
    if |log| == 0 then None
    else
      match log[|log| - 1]
      case Watched(setting) => Some(setting)
      case Confirmed(_, read) => Some(read.setting)
      case Crash(d) => Expected(d)
      case _ => ExpectedAfter(log[..|log| - 1])
  }

  /** The reservation whose command may still be sent, or proved unsent. */
  ghost function Booked(log: seq<Event>): Option<Booking> {
    if |log| == 0 then None
    else
      var before := log[..|log| - 1];
      match log[|log| - 1]
      case Reserved(r) => Some(Booking(r, false))
      case Acquired(_, _) => if Booked(before).Some? then Some(Booked(before).value.(takeover := true)) else None
      case Call(_, _, _, _) => None
      case Superseded(_, _) => None
      case Dropped(_, _) => None
      case Crash(_) => None
      case _ => Booked(before)
  }

  /** The same command, whatever became of its timing. */
  predicate SameCommand(a: Request, b: Request) { a == b.(sentAt := a.sentAt, notBefore := a.notBefore) }

  ghost predicate ReservedAs(log: seq<Event>, r: Request) {
    exists e | e in log :: e.Reserved? && SameCommand(e.request, r)
  }

  ghost predicate TicketReserved(log: seq<Event>, ticket: nat) {
    exists e | e in log :: e.Reserved? && e.request.ticket == ticket
  }

  /** Memory and disk agree on the baseline: neither a takeover nor its end came after the last command or crash. */
  ghost predicate Durable(log: seq<Event>) {
    |log| > 0 ==>
      match log[|log| - 1]
      case Call(_, _, _, _) => true
      case Crash(_) => true
      case Acquired(_, _) => false
      case Dropped(_, _) => false
      case _ => Durable(log[..|log| - 1])
  }

  ghost function CallCount(log: seq<Event>): nat {
    if |log| == 0 then 0 else CallCount(log[..|log| - 1]) + (if log[|log| - 1].Call? then 1 else 0)
  }

  predicate Resolves(e: Event, ticket: nat) {
    match e
    case Confirmed(r, _) => r.ticket == ticket
    case Superseded(r, _) => r.ticket == ticket
    case Refused(t) => t == ticket
    case _ => false
  }

  /** The request was resolved, and no crash has brought it back since. */
  ghost predicate Closed(log: seq<Event>, ticket: nat) {
    |log| > 0 && !log[|log| - 1].Crash? && (Resolves(log[|log| - 1], ticket) || Closed(log[..|log| - 1], ticket))
  }

  /** Commands that reached the gateway and have not been resolved. */
  ghost function Outstanding(log: seq<Event>): set<nat> {
    if |log| == 0 then {}
    else
      var before, e := Outstanding(log[..|log| - 1]), log[|log| - 1];
      match e
      case Call(_, _, r, _) => before + {r.ticket}
      case Confirmed(r, _) => before - {r.ticket}
      case Superseded(r, _) => before - {r.ticket}
      case Refused(t) => before - {t}
      case _ => before
  }

  ghost function BaselineAfter(log: seq<Event>): Option<Setting> {
    if |log| == 0 then None
    else
      match log[|log| - 1]
      case Acquired(b, _) => Some(b)
      case Dropped(_, _) => None
      case Crash(d) => Baseline(d)
      case _ => BaselineAfter(log[..|log| - 1])
  }

  /** The clock has never been seen to run backwards. */
  ghost predicate Steady(log: seq<Event>) { ClockBack !in log }

  ghost function CallTime(log: seq<Event>, ticket: nat): Option<nat> {
    if |log| == 0 then None
    else
      var e := log[|log| - 1];
      if e.Call? && e.request.ticket == ticket then Some(e.time) else CallTime(log[..|log| - 1], ticket)
  }

  datatype Last = Last(ticket: nat, time: nat)

  ghost function LastCall(log: seq<Event>, control: string): Option<Last> {
    if |log| == 0 then None
    else
      var e := log[|log| - 1];
      if e.Call? && e.control == control then Some(Last(e.request.ticket, e.time))
      else LastCall(log[..|log| - 1], control)
  }

  ghost predicate AcquiredEver(log: seq<Event>, b: Setting) {
    exists e | e in log :: e.Acquired? && e.baseline == b && e.read.setting == b
  }

  // ---------------------------------------------------------------- what may happen next

  /** A restoration commands the baseline, slew rate included; a change leaves the slew rate alone. */
  ghost predicate WellMade(r: Request, b: Setting) {
    if r.restore then r.watts == b.watts && r.slew == Some(b.slew) else r.slew.None?
  }

  ghost predicate Matches(r: Request, read: Readback) {
    && !read.pending && read.setting.watts == r.watts
    && (r.slew.Some? ==> read.setting.slew == r.slew.value)
    && (!r.restore ==> read.setting.slew == r.seen.setting.slew)
  }

  /** The commanded watts, but with another slew rate than before: somebody else has written as well. */
  ghost predicate Overwritten(r: Request, read: Readback) {
    && !r.restore && !read.pending && read.setting.watts == r.watts && read.setting.slew != r.seen.setting.slew
  }

  ghost predicate CallJustified(before: seq<Event>, e: Event)
    requires e.Call?
  {
    && Outstanding(before) == {} && CallTime(before, e.request.ticket).None?
    && Booked(before).Some? && Booked(before).value.request == e.request && ReservedAs(before, e.request)
    // the disk already holds the request, its baseline and the reservation
    && e.disk.own.Some? && e.disk.own.value.pending == Some(e.request) && e.disk.own.value.identity.control == e.control
    && e.request.notBefore.None? && (e.disk.own.value.restoring <==> e.request.restore)
    && e.disk.own.value.baseline.Some? && e.disk.own.value.baseline == BaselineAfter(before)
    && WellMade(e.request, e.disk.own.value.baseline.value)
    && e.control in e.disk.limits && e.disk.limits[e.control].attemptedAt == Some(e.request.sentAt)
    // timing, while the clock is steady
    && (Steady(before) ==>
          && e.request.sentAt <= e.time
          && (LastCall(before, e.control).Some? ==> LastCall(before, e.control).value.time + MIN_CHANGE <= e.time))
  }

  /** No earlier than the call, on a steady clock. */
  ghost predicate NotBeforeCall(before: seq<Event>, ticket: nat, read: Readback) {
    Steady(before) && CallTime(before, ticket).Some? ==> CallTime(before, ticket).value <= read.at
  }

  ghost predicate MatchJustified(before: seq<Event>, r: Request, read: Readback) {
    && ReservedAs(before, r) && !Closed(before, r.ticket)
    && FreshShown(before) == Some(read) && Matches(r, read) && NotBeforeCall(before, r.ticket, read)
    && (r.restore ==> BaselineAfter(before) == Some(read.setting))
  }

  /** Another setting is shown than the one the request saw; had it been sent, also its own watts are. */
  ghost predicate OvertakeJustified(before: seq<Event>, r: Request, read: Readback) {
    && ReservedAs(before, r) && !Closed(before, r.ticket)
    && FreshShown(before) == Some(read) && read.setting != r.seen.setting && NotBeforeCall(before, r.ticket, read)
    && (CallTime(before, r.ticket).Some? ==> Overwritten(r, read))
  }

  /** What the gateway was last known to show: the expected setting, or the one seen by the request just overtaken. */
  ghost predicate IsReference(before: seq<Event>, setting: Setting) {
    || ExpectedAfter(before) == Some(setting)
    || (|before| > 0 && before[|before| - 1].Superseded? && before[|before| - 1].request.seen.setting == setting)
  }

  ghost predicate DropJustified(before: seq<Event>, e: Event)
    requires e.Dropped?
  {
    && BaselineAfter(before) == Some(e.baseline) && Outstanding(before) == {}
    && match e.why
       case Matched(read) => FreshShown(before) == Some(read) && read.setting == e.baseline
       case External(read, reference) =>
         FreshShown(before) == Some(read) && read.setting != reference && IsReference(before, reference)
       case Unsent(t) =>
         Booked(before).Some? && Booked(before).value.takeover && Booked(before).value.request.ticket == t
  }

  /** What a crash may bring back. */
  ghost predicate ReloadJustified(before: seq<Event>, d: Data) {
    && (Baseline(d).Some? ==> AcquiredEver(before, Baseline(d).value))
    && (Expected(d).Some? ==> ShownEver(before, Expected(d).value))
    && (Durable(before) ==> Baseline(d) == BaselineAfter(before))
  }

  ghost predicate Justified(before: seq<Event>, e: Event) {
    match e
    case Reserved(r) => FreshShown(before) == Some(r.seen) && !TicketReserved(before, r.ticket)
    case Acquired(b, read) =>
      && BaselineAfter(before).None? && FreshShown(before) == Some(read) && read.setting == b
      && Booked(before).Some? && !Booked(before).value.takeover && Booked(before).value.request.seen == read
    case Call(_, _, _, _) => CallJustified(before, e)
    case Declined(t) => |before| > 0 && before[|before| - 1].Call? && before[|before| - 1].request.ticket == t
    case Applied(r, read) => MatchJustified(before, r, read)
    case Confirmed(r, read) => MatchJustified(before, r, read) && |before| > 0 && before[|before| - 1] == Applied(r, read)
    case Superseded(r, read) => OvertakeJustified(before, r, read)
    case Refused(t) => Declined(t) in before && !Closed(before, t)
    case Watched(setting) =>
      FreshShown(before).Some? && FreshShown(before).value.setting == setting && Outstanding(before) == {}
    case Dropped(_, _) => DropJustified(before, e)
    case Crash(d) => ReloadJustified(before, d)
    case _ => true
  }

  ghost predicate GoodLog(log: seq<Event>) {
    |log| > 0 ==> GoodLog(log[..|log| - 1]) && Justified(log[..|log| - 1], log[|log| - 1])
  }

  lemma {:induction false} GoodPrefix(log: seq<Event>, n: nat)
    requires GoodLog(log) && n <= |log|
    ensures GoodLog(log[..n])
    ensures n < |log| ==> Justified(log[..n], log[n])
  {
    if n == |log| {
      assert log[..n] == log;
    } else {
      if n < |log| - 1 { GoodPrefix(log[..|log| - 1], n); }
      assert log[..|log| - 1][..n] == log[..n];
    }
  }

  // ---------------------------------------------------------------- readings

  /** A fresh reading was shown by the gateway, and neither a command nor a crash came between. */
  lemma {:induction false} FreshWasShown(log: seq<Event>) returns (m: nat)
    requires FreshShown(log).Some?
    ensures m < |log| && log[m] == Observed(FreshShown(log).value)
    ensures forall k | m <= k < |log| :: !log[k].Call? && !log[k].Crash?
  {
    var n := |log| - 1;
    if log[n].Observed? { m := n; } else { m := FreshWasShown(log[..n]); }
  }

  lemma FreshIsShown(log: seq<Event>, n: nat)
    requires n <= |log| && FreshShown(log[..n]).Some?
    ensures ShownEver(log, FreshShown(log[..n]).value.setting)
  {
    var m := FreshWasShown(log[..n]);
    assert log[m] in log;
  }

  lemma ShownGrows(log: seq<Event>, n: nat, setting: Setting)
    requires n <= |log| && ShownEver(log[..n], setting)
    ensures ShownEver(log, setting)
  {
    var e :| e in log[..n] && e.Observed? && e.read.setting == setting;
    assert e in log;
  }

  lemma ConfirmedFresh(log: seq<Event>, n: nat)
    requires n < |log| && Justified(log[..n], log[n]) && log[n].Confirmed?
    ensures FreshShown(log[..n]) == Some(log[n].read)
  {}

  /** What is expected was shown by the gateway. */
  lemma {:induction false} ExpectedWasShown(log: seq<Event>)
    requires GoodLog(log) && ExpectedAfter(log).Some?
    ensures ShownEver(log, ExpectedAfter(log).value)
  {
    hide CallJustified, MatchJustified, OvertakeJustified, DropJustified, IsReference;
    var n := |log| - 1;
    if log[n].Watched? || log[n].Confirmed? {
      if log[n].Confirmed? { ConfirmedFresh(log, n); }
      FreshIsShown(log, n);
    } else {
      if !log[n].Crash? { ExpectedWasShown(log[..n]); }
      ShownGrows(log, n, ExpectedAfter(log).value);
    }
  }

  lemma ReferenceWasShown(log: seq<Event>, setting: Setting)
    requires GoodLog(log) && IsReference(log, setting)
    ensures ShownEver(log, setting)
  {
    if ExpectedAfter(log) == Some(setting) {
      ExpectedWasShown(log);
    } else {
      var n := |log| - 1;
      SeenWasShown(log[..n], log[n].request);
      ShownGrows(log, n, setting);
    }
  }

  /** What a reserved request had seen was shown by the gateway. */
  lemma SeenWasShown(log: seq<Event>, r: Request)
    requires GoodLog(log) && ReservedAs(log, r)
    ensures ShownEver(log, r.seen.setting)
  {
    var e :| e in log && e.Reserved? && SameCommand(e.request, r);
    var k :| 0 <= k < |log| && log[k] == e;
    GoodPrefix(log, k);
    FreshIsShown(log, k);
  }

  // ---------------------------------------------------------------- commands

  lemma TicketFound(log: seq<Event>, e: Event)
    requires e in log && e.Reserved?
    ensures TicketReserved(log, e.request.ticket)
  {}

  lemma {:induction false} OneRequestPerTicket(log: seq<Event>, a: Event, b: Event)
    requires GoodLog(log) && a in log && b in log && a.Reserved? && b.Reserved? && a.request.ticket == b.request.ticket
    ensures a == b
  {
    hide CallJustified, MatchJustified, OvertakeJustified, DropJustified, Booked;
    var n := |log| - 1;
    assert log == log[..n] + [log[n]];
    if a != b {
      if a == log[n] {
        TicketFound(log[..n], b);
      } else if b == log[n] {
        TicketFound(log[..n], a);
      } else {
        OneRequestPerTicket(log[..n], a, b);
      }
    }
  }

  /** Whatever is called or confirmed under one ticket is one command. */
  lemma OneCommandPerTicket(log: seq<Event>, a: Request, b: Request)
    requires GoodLog(log) && ReservedAs(log, a) && ReservedAs(log, b) && a.ticket == b.ticket
    ensures SameCommand(a, b)
  {
    hide GoodLog;
    var e :| e in log && e.Reserved? && SameCommand(e.request, a);
    var f :| f in log && f.Reserved? && SameCommand(f.request, b);
    OneRequestPerTicket(log, e, f);
  }

  lemma ReservedGrows(log: seq<Event>, n: nat, r: Request)
    requires n <= |log| && ReservedAs(log[..n], r)
    ensures ReservedAs(log, r)
  {
    var e :| e in log[..n] && e.Reserved? && SameCommand(e.request, r);
    assert e in log;
  }

  /** The booked request was reserved, and nothing has been called, given up or reloaded since. */
  lemma {:induction false} BookedWas(log: seq<Event>) returns (k: nat)
    requires Booked(log).Some?
    ensures k < |log| && log[k] == Reserved(Booked(log).value.request)
    ensures forall m | k < m < |log| ::
      !log[m].Call? && !log[m].Crash? && !log[m].Dropped? && !log[m].Superseded? && !log[m].Reserved?
  {
    var n := |log| - 1;
    if log[n].Reserved? { k := n; } else { k := BookedWas(log[..n]); }
  }

  /** A ticket is reserved once. */
  lemma ReservedOnce(log: seq<Event>, k: nat, m: nat)
    requires GoodLog(log) && k < |log| && m < |log| && log[k].Reserved? && log[m].Reserved?
    requires log[k].request.ticket == log[m].request.ticket
    ensures k == m
  {
    hide CallJustified, MatchJustified, OvertakeJustified, DropJustified, Booked;
    if k < m {
      GoodPrefix(log, m);
      TicketFound(log[..m], log[k]);
    } else if m < k {
      GoodPrefix(log, k);
      TicketFound(log[..k], log[m]);
    }
  }

  /** A command is sent on its own reservation, with nothing called, given up or reloaded in between. */
  lemma CallFollowsReservation(log: seq<Event>, j: nat) returns (k: nat)
    requires GoodLog(log) && j < |log| && log[j].Call?
    ensures k < j && log[k] == Reserved(log[j].request)
    ensures forall m | k < m < j :: !log[m].Call? && !log[m].Crash? && !log[m].Dropped? && !log[m].Superseded?
  {
    hide Outstanding, BaselineAfter, CallTime;
    GoodPrefix(log, j);
    k := BookedWas(log[..j]);
  }

  lemma {:induction false} CallHasTime(log: seq<Event>, j: nat, n: nat)
    requires j < n <= |log| && log[j].Call?
    ensures CallTime(log[..n], log[j].request.ticket).Some?
  {
    assert log[..n][..n - 1] == log[..n - 1];
    if j < n - 1 { CallHasTime(log, j, n - 1); }
  }

  /** A ticket that has been called is not called again. */
  lemma CalledOnce(log: seq<Event>, n: nat, ticket: nat)
    requires GoodLog(log) && 0 < n <= |log| && CallTime(log[..n - 1], ticket).Some?
    ensures CallTime(log[..n], ticket) == CallTime(log[..n - 1], ticket)
  {
    hide GoodLog, Outstanding, BaselineAfter, WellMade, ReservedAs, Booked;
    assert log[..n][..n - 1] == log[..n - 1];
    GoodPrefix(log, n - 1);
  }

  /** So the time of a call can be read back later. */
  lemma {:induction false} CallTimeIs(log: seq<Event>, j: nat, n: nat)
    requires GoodLog(log) && j < n <= |log| && log[j].Call?
    ensures CallTime(log[..n], log[j].request.ticket) == Some(log[j].time)
  {
    hide GoodLog;
    if j < n - 1 {
      CallTimeIs(log, j, n - 1);
      CalledOnce(log, n, log[j].request.ticket);
    } else {
      assert log[..n][n - 1] == log[j];
    }
  }

  /** The request that an event is about. */
  ghost predicate Concerns(e: Event, r: Request) {
    (e.Applied? || e.Confirmed? || e.Superseded?) && e.request == r
  }

  /** Applied, confirmed or superseded, it is the command that was called. */
  lemma SameAsCalled(log: seq<Event>, j: nat, i: nat, r: Request)
    requires GoodLog(log) && j < i < |log| && log[j].Call? && Concerns(log[i], r) && r.ticket == log[j].request.ticket
    ensures SameCommand(log[j].request, r)
  {
    hide CallTime, FreshShown, Outstanding, BaselineAfter, ReservedAs, Closed, Booked;
    GoodPrefix(log, j);
    GoodPrefix(log, i);
    assert log[..i][..j] == log[..j];
    ReservedGrows(log[..i], j, log[j].request);
    OneCommandPerTicket(log[..i], log[j].request, r);
  }

  lemma SameMatch(a: Request, b: Request, read: Readback)
    requires SameCommand(a, b)
    ensures Matches(a, read) <==> Matches(b, read)
    ensures Overwritten(a, read) <==> Overwritten(b, read)
  {}

  // ---------------------------------------------------------------- one uncertain command at a time

  ghost predicate ShownBetween(log: seq<Event>, j: nat, m: nat, read: Readback)
    requires m <= |log|
  {
    exists o | j < o < m :: log[o] == Observed(read)
  }

  /** What settles the command called at `j`, at `m`: a reading shown after the call that matches it, one with its
      watts and a slew rate of somebody else's, or the refusal of the service. */
  ghost predicate Evidence(log: seq<Event>, j: nat, m: nat)
    requires j < m < |log| && log[j].Call?
  {
    match log[m]
    case Confirmed(_, read) => ShownBetween(log, j, m, read) && Matches(log[j].request, read)
    case Superseded(_, read) => ShownBetween(log, j, m, read) && Overwritten(log[j].request, read)
    case Refused(t) => Declined(t) in log[..m]
    case _ => false
  }

  lemma ResolutionHasEvidence(log: seq<Event>, j: nat, m: nat)
    requires GoodLog(log) && j < m < |log| && log[j].Call? && Resolves(log[m], log[j].request.ticket)
    ensures Evidence(log, j, m)
  {
    hide CallTime, Outstanding, BaselineAfter, Closed, Booked, ReservedAs, Matches, Overwritten, CallJustified;
    GoodPrefix(log, m);
    CallTimeIs(log, j, m);
    if !log[m].Refused? {
      SameAsCalled(log, j, m, log[m].request);
      SameMatch(log[j].request, log[m].request, log[m].read);
      var o := FreshWasShown(log[..m]);
      assert log[o] == Observed(log[m].read) && o > j;
    }
  }

  lemma {:induction false} UnresolvedStays(log: seq<Event>, j: nat, n: nat)
    requires j < n <= |log| && log[j].Call?
    requires forall m | j < m < n :: !Resolves(log[m], log[j].request.ticket)
    ensures log[j].request.ticket in Outstanding(log[..n])
  {
    assert log[..n][..n - 1] == log[..n - 1];
    if j < n - 1 { UnresolvedStays(log, j, n - 1); }
  }

  /** No command is sent while an earlier one is uncertain: between two calls the first has been resolved, on a reading
      that the gateway showed after it or by the refusal of the service. */
  lemma AtMostOneUncertain(log: seq<Event>, j: nat, i: nat)
    requires GoodLog(log) && j < i < |log| && log[j].Call? && log[i].Call?
    ensures exists m | j < m < i :: Resolves(log[m], log[j].request.ticket) && Evidence(log, j, m)
  {
    hide Evidence;
    GoodPrefix(log, i);
    if forall m | j < m < i :: !Resolves(log[m], log[j].request.ticket) { UnresolvedStays(log, j, i); }
    var m :| j < m < i && Resolves(log[m], log[j].request.ticket);
    ResolutionHasEvidence(log, j, m);
  }

  // ---------------------------------------------------------------- the baseline

  /** At every call the disk can answer for it: request, pre-takeover baseline and reservation are durable. */
  lemma CallIsRecoverable(log: seq<Event>, i: nat)
    requires GoodLog(log) && i < |log| && log[i].Call?
    ensures var e := log[i];
      && e.disk.own.Some? && e.disk.own.value.pending == Some(e.request)
      && e.disk.own.value.baseline.Some? && AcquiredEver(log[..i], e.disk.own.value.baseline.value)
      && e.control in e.disk.limits && e.disk.limits[e.control].attemptedAt == Some(e.request.sentAt)
  {
    hide Booked;
    GoodPrefix(log, i);
    HeldBaselineWasRead(log[..i]);
  }

  lemma AcquiredGrows(log: seq<Event>, n: nat, b: Setting)
    requires n <= |log| && AcquiredEver(log[..n], b)
    ensures AcquiredEver(log, b)
  {
    var e :| e in log[..n] && e.Acquired? && e.baseline == b && e.read.setting == b;
    assert e in log;
  }

  /** A takeover records a reading that the gateway showed, with no command and no crash since. */
  lemma TakeoverWasRead(log: seq<Event>, i: nat) returns (m: nat)
    requires GoodLog(log) && i < |log| && log[i].Acquired?
    ensures m < i && log[m] == Observed(log[i].read) && log[m].read.setting == log[i].baseline
    ensures forall k | m <= k < i :: !log[k].Call? && !log[k].Crash?
  {
    GoodPrefix(log, i);
    m := FreshWasShown(log[..i]);
  }

  /** Whatever baseline is held, in whatever state a crash left it, was shown by the gateway before the takeover
      that recorded it. */
  lemma {:induction false} HeldBaselineWasRead(log: seq<Event>)
    requires GoodLog(log) && BaselineAfter(log).Some?
    ensures AcquiredEver(log, BaselineAfter(log).value) && ShownEver(log, BaselineAfter(log).value)
  {
    hide CallJustified, MatchJustified, OvertakeJustified, DropJustified, Booked;
    var n := |log| - 1;
    var e, b := log[n], BaselineAfter(log).value;
    if e.Acquired? {
      assert e in log;
    } else {
      if !e.Crash? { HeldBaselineWasRead(log[..n]); }
      AcquiredGrows(log, n, b);
    }
    var a :| a in log && a.Acquired? && a.baseline == b && a.read.setting == b;
    var i :| 0 <= i < |log| && log[i] == a;
    var m := TakeoverWasRead(log, i);
    assert log[m] in log;
  }

  /** Until a crash, the baseline is the reading that opened the ownership period; no later takeover replaces it. */
  lemma {:induction false} BaselineIsFirstReadback(log: seq<Event>, i: nat, n: nat)
    requires GoodLog(log) && i < n <= |log| && log[i].Acquired?
    requires forall m | i < m < n :: !log[m].Dropped? && !log[m].Crash?
    ensures BaselineAfter(log[..n]) == Some(log[i].read.setting)
  {
    hide CallJustified, MatchJustified, OvertakeJustified, DropJustified, Booked;
    assert log[..n][..n - 1] == log[..n - 1];
    GoodPrefix(log, n - 1);
    if i < n - 1 { BaselineIsFirstReadback(log, i, n - 1); }
  }

  /** From a command on, the baseline on disk at that command stays the baseline through any crashes, until it is
      dropped with evidence. */
  lemma {:induction false} BaselineSurvivesCrashes(log: seq<Event>, j: nat, n: nat)
    requires GoodLog(log) && j < n <= |log| && log[j].Call?
    requires forall m | j < m < n :: !log[m].Dropped?
    ensures log[j].disk.own.Some? && BaselineAfter(log[..n]) == log[j].disk.own.value.baseline
    ensures log[j].disk.own.value.baseline.Some? && Durable(log[..n])
  {
    hide MatchJustified, OvertakeJustified, Booked;
    assert log[..n][..n - 1] == log[..n - 1];
    GoodPrefix(log, n - 1);
    if j < n - 1 { BaselineSurvivesCrashes(log, j, n - 1); }
  }

  /** The request at `i` took the baseline over. */
  ghost predicate TookOver(log: seq<Event>, i: nat, ticket: nat) {
    i < |log| && log[i].Acquired? && Booked(log[..i]).Some? && Booked(log[..i]).value.request.ticket == ticket
  }

  /** The command of the takeover saw the baseline: what is going to be restored is what it replaced. */
  lemma TakeoverSawBaseline(log: seq<Event>, i: nat, j: nat)
    requires GoodLog(log) && i < j < |log| && log[j].Call? && TookOver(log, i, log[j].request.ticket)
    ensures log[j].request.seen.setting == log[i].baseline == log[i].read.setting
    ensures log[j].disk.own.Some? && log[j].disk.own.value.baseline == Some(log[i].baseline)
  {
    hide CallTime, Outstanding, MatchJustified, OvertakeJustified, DropJustified;
    GoodPrefix(log, i);
    var k := CallFollowsReservation(log, j);
    var m := BookedWas(log[..i]);
    ReservedOnce(log, k, m);
    BaselineIsFirstReadback(log, i, j);
    GoodPrefix(log, j);
  }

  /** Baseline fidelity: once the command of a takeover was sent, the baseline is the setting that this command saw, in
      spite of later commands, failures and crashes, until it is dropped with evidence. */
  lemma BaselineIsFirstSeen(log: seq<Event>, i: nat, j: nat, n: nat)
    requires GoodLog(log) && i < j < n <= |log| && log[j].Call? && TookOver(log, i, log[j].request.ticket)
    requires forall m | j < m < n :: !log[m].Dropped?
    ensures BaselineAfter(log[..n]) == Some(log[j].request.seen.setting)
  {
    hide BaselineAfter, Durable, TookOver;
    TakeoverSawBaseline(log, i, j);
    BaselineSurvivesCrashes(log, j, n);
  }

  /** A takeover whose command was not sent: its own reservation, and nothing called since. */
  ghost predicate UnsentTakeover(log: seq<Event>, i: nat, k: nat)
    requires i <= |log|
  {
    && k < i && log[k].Reserved? && (forall m | k < m < i :: !log[m].Crash? && !log[m].Dropped?)
    && (forall m | 0 <= m < i :: !(log[m].Call? && log[m].request.ticket == log[k].request.ticket))
  }

  lemma {:induction false} BookedTakeover(log: seq<Event>)
    requires GoodLog(log) && Booked(log).Some? && Booked(log).value.takeover
    ensures BaselineAfter(log) == Some(Booked(log).value.request.seen.setting)
  {
    hide CallJustified, MatchJustified, OvertakeJustified, DropJustified;
    var n := |log| - 1;
    if !log[n].Acquired? { BookedTakeover(log[..n]); }
  }

  lemma BookedUnsent(log: seq<Event>, i: nat) returns (k: nat)
    requires GoodLog(log) && i <= |log| && Booked(log[..i]).Some?
    ensures UnsentTakeover(log, i, k) && log[k].request == Booked(log[..i]).value.request
  {
    k := BookedWas(log[..i]);
    forall m | 0 <= m < i && log[m].Call? ensures log[m].request.ticket != log[k].request.ticket {
      var l := CallFollowsReservation(log, m);
      if log[m].request.ticket == log[k].request.ticket { ReservedOnce(log, k, l); }
    }
  }

  /** The gateway showed this before `i`, with no command and no crash since. */
  ghost predicate JustShown(log: seq<Event>, i: nat, read: Readback)
    requires i <= |log|
  {
    exists m | 0 <= m < i :: log[m] == Observed(read) && forall k | m <= k < i :: !log[k].Call? && !log[k].Crash?
  }

  lemma FreshIsJustShown(log: seq<Event>, i: nat, read: Readback)
    requires i <= |log| && FreshShown(log[..i]) == Some(read)
    ensures JustShown(log, i, read)
  {
    var m := FreshWasShown(log[..i]);
    assert log[m] == Observed(read);
  }

  /** What justifies giving up `baseline` at `i`. */
  ghost predicate LeavesWith(log: seq<Event>, i: nat, baseline: Setting, why: Why)
    requires i <= |log|
  {
    match why
    case Matched(read) => JustShown(log, i, read) && read.setting == baseline
    case External(read, reference) =>
      && JustShown(log, i, read) && read.setting != reference
      && IsReference(log[..i], reference) && ShownEver(log[..i], reference)
    case Unsent(ticket) =>
      exists k: nat ::
        UnsentTakeover(log, i, k) && log[k].request.ticket == ticket && log[k].request.seen.setting == baseline
  }

  lemma DropIs(log: seq<Event>, i: nat)
    requires GoodLog(log) && i < |log| && log[i].Dropped?
    ensures DropJustified(log[..i], log[i]) && GoodLog(log[..i])
  {
    hide DropJustified, CallJustified, MatchJustified, OvertakeJustified;
    GoodPrefix(log, i);
  }

  lemma UnsentLeaves(log: seq<Event>, i: nat, ticket: nat)
    requires GoodLog(log) && i < |log| && log[i].Dropped? && log[i].why == Unsent(ticket)
    ensures LeavesWith(log, i, log[i].baseline, log[i].why)
  {
    hide UnsentTakeover, Outstanding, GoodLog;
    DropIs(log, i);
    var k := BookedUnsent(log, i);
    BookedTakeover(log[..i]);
  }

  /** A baseline leaves only with evidence: a reading just shown that equals it, a reading just shown that differs from
      what the gateway was last known to show while no command is uncertain, or its own takeover never having been
      sent. */
  lemma BaselineLeavesWithEvidence(log: seq<Event>, i: nat)
    requires GoodLog(log) && i < |log| && log[i].Dropped?
    ensures AcquiredEver(log[..i], log[i].baseline) && Outstanding(log[..i]) == {}
    ensures LeavesWith(log, i, log[i].baseline, log[i].why)
  {
    hide IsReference, Outstanding, GoodLog, BaselineAfter, FreshShown, AcquiredEver, ShownEver, JustShown;
    hide UnsentTakeover, Booked;
    DropIs(log, i);
    HeldBaselineWasRead(log[..i]);
    match log[i].why {
      case Matched(read) => FreshIsJustShown(log, i, read);
      case External(read, reference) =>
        FreshIsJustShown(log, i, read);
        ReferenceWasShown(log[..i], reference);
      case Unsent(ticket) => UnsentLeaves(log, i, ticket);
    }
  }

  // ---------------------------------------------------------------- confirmation and timing

  /** On a steady clock, what is reported as applied or restored, if it was sent, rests on a reading that matches what
      was sent, completed no earlier than its dispatch, and shown by the gateway after it. */
  lemma NoStaleConfirmation(log: seq<Event>, j: nat, i: nat)
    requires GoodLog(log) && j < i < |log| && log[j].Call? && log[i].Applied?
    requires log[i].request.ticket == log[j].request.ticket && Steady(log[..i])
    ensures log[j].time <= log[i].read.at && Matches(log[j].request, log[i].read)
    ensures ShownBetween(log, j, i, log[i].read)
  {
    hide Outstanding, BaselineAfter, Matches, Closed, Booked, ReservedAs, CallTime;
    GoodPrefix(log, i);
    CallTimeIs(log, j, i);
    SameAsCalled(log, j, i, log[i].request);
    SameMatch(log[j].request, log[i].request, log[i].read);
    var m := FreshWasShown(log[..i]);
    assert log[m] == Observed(log[i].read) && m > j;
  }

  lemma {:induction false} LastCallIsLatest(log: seq<Event>, j: nat, n: nat)
    requires GoodLog(log) && j < n <= |log| && log[j].Call? && Steady(log[..n])
    ensures LastCall(log[..n], log[j].control).Some? && log[j].time <= LastCall(log[..n], log[j].control).value.time
  {
    hide MatchJustified, OvertakeJustified, DropJustified, Booked;
    assert log[..n][..n - 1] == log[..n - 1];
    if j < n - 1 {
      assert Steady(log[..n - 1]) by { assert forall e | e in log[..n - 1] :: e in log[..n]; }
      GoodPrefix(log, n - 1);
      LastCallIsLatest(log, j, n - 1);
    }
  }

  /** On a steady clock, two changes of one control are at least five minutes apart. */
  lemma ChangesAreSpaced(log: seq<Event>, j: nat, i: nat)
    requires GoodLog(log) && j < i < |log| && log[j].Call? && log[i].Call? && log[j].control == log[i].control
    requires Steady(log[..i])
    ensures log[j].time + MIN_CHANGE <= log[i].time
  {
    hide Booked;
    GoodPrefix(log, i);
    LastCallIsLatest(log, j, i);
  }

  // ---------------------------------------------------------------- where the history misleads

  /** The first command under the baseline recorded at `i` changes another setting than that baseline. */
  ghost predicate Misled(log: seq<Event>, i: nat, k: nat) {
    && i < k < |log| && log[i].Acquired? && log[k].Call? && !log[k].request.restore
    && log[k].request.seen.setting != log[i].baseline
    && (forall m | i < m < k :: !log[m].Call? && !log[m].Acquired?)
    && BaselineAfter(log[..k]) == Some(log[i].baseline)
  }

  /** A change is reported as applied or restored although its request was never sent. */
  ghost predicate UnsentApplied(log: seq<Event>, ticket: nat, k: nat) {
    k < |log| && log[k].Applied? && log[k].request.ticket == ticket && CallTime(log[..k], ticket).None?
  }
}
