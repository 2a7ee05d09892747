/**
 The coordinator's single-threaded protocol: refreshes compute plans, the newest committed plan is queued for one
 drain task, and a gate keeps plans from running that were computed while export state was being reconciled.
 Every method is one atomic step between two suspension points; steps of different tasks interleave freely,
 except that refreshes are serialised.
 */
module Coordinator {
  import opened Common

  /** A committed plan: the generation it was computed for, and whether it saw the export gate closed. */
  datatype Request = Request(serial: nat, generation: nat, sawGate: bool)

  /** Holder of the command lock. */
  datatype Owner = Free | DrainTask | ReconcileTask | RefreshTask | OperatorTask

  /** `begun` says that an action of the held plan has been evaluated. */
  datatype Drain = Dead | AtLoop | WaitingFor(request: Request) | Holding(request: Request, begun: bool)

  datatype Reconcile = NoTask | Queued | Running

  datatype Refresh =
    | Idle
    | AwaitingLock(wasPending: bool)
    | Admitted(wasPending: bool)
    | Admission                                          // admission is over, planning has not begun
    | Planning(started: nat, sawGate: Option<bool>)
    | Saving(plan: Request)
    | Flushing

  /** An executor evaluation, with what was true at that instant. */
  datatype Evaluation = Evaluation(request: Request, generation: nat, owner: Owner, further: bool, tearingDown: bool)

  /** The state of the protocol, with the evaluations so far. */
  datatype Protocol = Protocol(
    generation: nat, tearingDown: bool, pendingPlan: Option<Request>, deferredPlan: Option<Request>, drain: Drain,
    lock: Owner, gateClosed: bool, reconcile: Reconcile, refresh: Refresh, serial: nat, log: seq<Evaluation>)

  const START := Protocol(0, false, None, None, Dead, Free, false, NoTask, Idle, 0, [])

  class EnergyCoordinator {
    var generation: nat
    var tearingDown: bool
    var pendingPlan: Option<Request>
    var deferredPlan: Option<Request>
    var drain: Drain
    var lock: Owner
    var gateClosed: bool
    var reconcile: Reconcile
    var refresh: Refresh
    var serial: nat            // plans committed so far
    ghost var log: seq<Evaluation>
    ghost var taken: nat       // one more than the serial of the newest plan the drain has taken
    ghost var cancelled: bool  // the drain was cancelled, and none has been started since

    /** A plan that saw the gate closed is current only while the gate still is. */
    ghost predicate Guarded(r: Request)
      reads this`generation, this`gateClosed, this`refresh, this`serial
    {
      && r.generation <= generation && r.serial < serial
      && (r.sawGate && r.generation == generation ==> gateClosed && !Opening())
    }

    /** The running refresh will open the gate without moving the generation. */
    ghost predicate Opening()
      reads this`refresh
    {
      (refresh.AwaitingLock? || refresh.Admitted?) && !refresh.wasPending
    }

    ghost predicate LockHeld()
      reads this`lock, this`drain, this`reconcile, this`refresh
    {
      (drain.Holding? <==> lock.DrainTask?) && (reconcile.Running? <==> lock.ReconcileTask?)
      && (refresh.Admitted? <==> lock.RefreshTask?)
    }

    ghost predicate PlansGuarded()
      reads this
    {
      && (pendingPlan.Some? ==> Guarded(pendingPlan.value))
      && (deferredPlan.Some? ==> Guarded(deferredPlan.value))
      && (drain.WaitingFor? || drain.Holding? ==> Guarded(drain.request))
      && (refresh.Saving? ==> Guarded(refresh.plan))
      && (refresh.Planning? ==>
            refresh.started <= generation
            && (refresh.sawGate == Some(true) && refresh.started == generation ==> gateClosed))
      && (drain.Holding? ==> !drain.request.sawGate)
    }

    /** Newer plans wait behind older ones, in every place a plan can be. */
    ghost predicate InOrder()
      reads this`taken, this`serial, this`pendingPlan, this`deferredPlan, this`refresh, this`drain
    {
      && taken <= serial
      && (pendingPlan.Some? ==> taken <= pendingPlan.value.serial)
      && (deferredPlan.Some? ==>
            refresh.Flushing? && taken <= deferredPlan.value.serial
            && (pendingPlan.Some? ==> pendingPlan.value.serial < deferredPlan.value.serial))
      && (refresh.Saving? ==>
            deferredPlan.None? && taken <= refresh.plan.serial
            && (pendingPlan.Some? ==> pendingPlan.value.serial < refresh.plan.serial))
      && (drain.WaitingFor? || drain.Holding? ==> drain.request.serial + 1 == taken)
    }

    /** A queued plan has somebody to run it exactly when the drain was not cancelled since one was last started. */
    ghost predicate NoLostWakeUp()
      reads this`pendingPlan, this`drain, this`cancelled, this`tearingDown
    {
      && (pendingPlan.Some? ==> (drain.Dead? <==> cancelled))
      && (cancelled ==> drain.Dead?)
      && (tearingDown ==> pendingPlan.None?)
    }

    ghost predicate LogSound()
      reads this`log, this`taken
    {
      && (forall i | 0 <= i < |log| :: Sound(log[i]) && log[i].request.serial < taken)
      && (forall i, j | 0 <= i < j < |log| :: log[i].request.serial <= log[j].request.serial)
    }

    ghost predicate Valid()
      reads this
    {
      LockHeld() && PlansGuarded() && InOrder() && NoLostWakeUp() && LogSound()
      && (reconcile != NoTask ==> gateClosed)
      && (refresh.AwaitingLock? || refresh.Admitted? ==> gateClosed && reconcile == NoTask)
    }

    /** What the steps act on. */
    ghost function Snapshot(): Protocol
      reads this
    {
      Protocol(generation, tearingDown, pendingPlan, deferredPlan, drain, lock, gateClosed, reconcile, refresh, serial, log)
    }

    constructor ()
      ensures Snapshot() == START
      ensures Valid() && log == [] && !tearingDown && !gateClosed && refresh == Idle && reconcile == NoTask && drain == Dead
    {
      generation, tearingDown, pendingPlan, deferredPlan := 0, false, None, None;
      drain, lock, gateClosed, reconcile, refresh := Dead, Free, false, NoTask, Idle;
      log, serial, taken, cancelled := [], 0, 0, false;
    }

    /** While reconciliation is under way the gate is closed; a shutdown leaves nothing queued. */
    lemma GateAndQueue()
      requires Valid()
      ensures reconcile != NoTask || refresh.AwaitingLock? || refresh.Admitted? ==> gateClosed
      ensures tearingDown ==> pendingPlan.None?
    {
      hide LogSound, PlansGuarded, InOrder, LockHeld;
    }

    lemma HoldsLock()
      requires Valid() && drain.Holding?
      ensures lock == DrainTask
    {
      hide LogSound, PlansGuarded, InOrder, NoLostWakeUp;
    }

    // -------------------------------------------------------------- requests for a new plan

    /** Something changed: plans computed before now are obsolete. */
    method MarkReplanRequested()
      requires Valid()
      modifies this`generation
      ensures Valid() && generation == old(generation) + 1
    {
      generation := generation + 1;
    }

    // -------------------------------------------------------------- lifecycle

    method BeginShutdown()
      requires Valid()
      modifies this`tearingDown, this`pendingPlan, this`deferredPlan
      ensures Valid() && tearingDown && pendingPlan.None? && deferredPlan.None?
    {
      tearingDown, pendingPlan, deferredPlan := true, None, None;
    }

    /** A refused unload resumes the entry. */
    method StartListeners()
      requires Valid()
      modifies this`tearingDown
      ensures Valid() && !tearingDown
    {
      tearingDown := false;
    }

    // -------------------------------------------------------------- the command lock

    /** Operator work takes or returns the command lock. */
    method OperatorAcquires()
      requires Valid() && lock == Free
      modifies this`lock
      ensures Valid() && lock == OperatorTask
    {
      lock := OperatorTask;
    }

    method OperatorReleases()
      requires Valid() && lock == OperatorTask
      modifies this`lock
      ensures Valid() && lock == Free
    {
      lock := Free;
    }

    // -------------------------------------------------------------- export reconciliation

    /** Admission, up to its first suspension: the gate is closed before anything can yield. */
    method BeginRefresh(configured: bool)
      requires Valid() && refresh == Idle
      modifies this`refresh, this`gateClosed, this`generation, this`reconcile
      ensures Valid()
      ensures tearingDown || old(reconcile) != NoTask ==>
        refresh == Admission && gateClosed == old(gateClosed) && generation == old(generation) && reconcile == old(reconcile)
      ensures !tearingDown && old(reconcile) == NoTask && configured ==>
        && gateClosed && generation == old(generation)
        && (if lock == Free then refresh == AwaitingLock(old(gateClosed)) && reconcile == NoTask
            else refresh == Admission && reconcile == Queued)
      ensures !tearingDown && old(reconcile) == NoTask && !configured ==>
        && refresh == Admission && reconcile == NoTask
        && !gateClosed && generation == old(generation) + (if old(gateClosed) then 1 else 0)
    {
      hide LogSound;
      if tearingDown || reconcile != NoTask {
        refresh := Admission;
      } else if !configured {
        if gateClosed {
          generation := generation + 1;
          gateClosed := false;
        }
        refresh := Admission;
      } else {
        var wasPending := gateClosed;
        gateClosed := true;
        if lock == Free {
          refresh := AwaitingLock(wasPending);
        } else {
          reconcile, refresh := Queued, Admission;
        }
      }
    }

    /** The bounded acquisition succeeds in this turn. */
    method AdmissionAcquires()
      requires Valid() && refresh.AwaitingLock? && lock == Free
      modifies this`refresh, this`lock
      ensures Valid() && refresh == Admitted(old(refresh).wasPending) && lock == RefreshTask
    {
      refresh, lock := Admitted(refresh.wasPending), RefreshTask;
    }

    /** Or it times out behind an older waiter, and one background task is queued. */
    method AdmissionTimesOut()
      requires Valid() && refresh.AwaitingLock?
      modifies this`refresh, this`reconcile
      ensures Valid() && refresh == Admission && gateClosed
      ensures reconcile == if tearingDown then old(reconcile) else Queued
    {
      if !tearingDown { reconcile := Queued; }
      refresh := Admission;
    }

    /** Reconciliation under the refresh ends; only success opens the gate. */
    method AdmissionEnds(succeeded: bool)
      requires Valid() && refresh.Admitted?
      modifies this`refresh, this`lock, this`generation, this`gateClosed
      ensures Valid() && lock == Free && gateClosed == !succeeded
      ensures refresh == if succeeded then Admission else Idle
      ensures generation == old(generation) + (if succeeded && old(refresh).wasPending then 1 else 0)
    {
      if succeeded {
        if refresh.wasPending { generation := generation + 1; }
        gateClosed := false;
      }
      refresh, lock := if succeeded then Admission else Idle, Free;
    }

    /** The background reconciliation gets the lock, */
    method ReconcileAcquires()
      requires Valid() && reconcile == Queued && lock == Free
      modifies this`reconcile, this`lock
      ensures Valid() && reconcile == Running && lock == ReconcileTask
    {
      reconcile, lock := Running, ReconcileTask;
    }

    /** and ends; plans built against the closed gate are obsolete before it opens. */
    method ReconcileEnds(succeeded: bool)
      requires Valid() && reconcile != NoTask
      modifies this`reconcile, this`lock, this`generation, this`gateClosed
      ensures Valid() && reconcile == NoTask
      ensures lock == if old(reconcile) == Running then Free else old(lock)
      ensures gateClosed == (tearingDown || !succeeded)
      ensures generation == old(generation) + (if gateClosed then 0 else 1)
    {
      hide InOrder, NoLostWakeUp, LogSound;
      if reconcile == Running { lock := Free; }
      if succeeded && !tearingDown {
        generation := generation + 1;
        gateClosed := false;
      }
      reconcile := NoTask;
    }

    // -------------------------------------------------------------- planning

    method BeginPlanning()
      requires Valid() && refresh == Admission
      modifies this`refresh, this`deferredPlan
      ensures Valid() && deferredPlan == (if tearingDown then old(deferredPlan) else None)
      ensures refresh == if tearingDown then Idle else Planning(generation, None)
    {
      if tearingDown {
        refresh := Idle;
      } else {
        deferredPlan, refresh := None, Planning(generation, None);
      }
    }

    /** The plan's context reads the gate once, some time after the generation was captured. */
    method BuildContext()
      requires Valid() && refresh.Planning? && refresh.sawGate.None?
      modifies this`refresh
      ensures Valid() && refresh == old(refresh).(sawGate := Some(gateClosed))
    {
      refresh := refresh.(sawGate := Some(gateClosed));
    }

    /** Only the result of the current generation is persisted. */
    method CommitIfCurrent()
      requires Valid() && refresh.Planning? && refresh.sawGate.Some?
      modifies this`refresh, this`deferredPlan, this`serial
      ensures Valid() && deferredPlan.None?
      ensures tearingDown || old(refresh).started != generation ==> refresh == Idle && serial == old(serial)
      ensures !tearingDown && old(refresh).started == generation ==>
        refresh == Saving(Request(old(serial), generation, old(refresh).sawGate.value)) && serial == old(serial) + 1
    {
      if tearingDown || refresh.started != generation {
        deferredPlan, refresh := None, Idle;
      } else {
        var plan := Request(serial, generation, refresh.sawGate.value);
        serial := serial + 1;
        deferredPlan, refresh := None, Saving(plan);
      }
    }

    /** The plan is stored; recovery validation stops here, other refreshes ask for its execution. */
    method PlanStored(execute: bool)
      requires Valid() && refresh.Saving?
      modifies this`refresh, this`deferredPlan
      ensures Valid() && refresh == Flushing && deferredPlan == if execute then Some(old(refresh).plan) else None
    {
      deferredPlan, refresh := if execute then Some(refresh.plan) else None, Flushing;
    }

    /** The refresh captures its own execution request, unless a shutdown has withdrawn it, and queues it. */
    method FinishRefresh()
      requires Valid() && refresh == Flushing
      modifies this`refresh, this`deferredPlan, this`pendingPlan, this`drain, this`cancelled
      ensures Valid() && refresh == Idle && deferredPlan.None?
      ensures old(deferredPlan).Some? && !tearingDown ==>
        pendingPlan == old(deferredPlan) && drain == (if old(drain).Dead? then AtLoop else old(drain))
      ensures old(deferredPlan).None? || tearingDown ==> pendingPlan == old(pendingPlan) && drain == old(drain)
    {
      var request := deferredPlan;
      refresh, deferredPlan := Idle, None;
      if request.Some? { SchedulePlanExecution(request.value); }
    }

    /** Keep only the newest plan, and make sure that one task drains the queue. */
    method SchedulePlanExecution(plan: Request)
      requires Valid() && Guarded(plan) && taken <= plan.serial && deferredPlan.None? && refresh == Idle
      requires pendingPlan.Some? ==> pendingPlan.value.serial < plan.serial
      modifies this`pendingPlan, this`drain, this`cancelled
      ensures Valid()
      ensures tearingDown ==> pendingPlan == old(pendingPlan) && drain == old(drain)
      ensures !tearingDown ==> pendingPlan == Some(plan) && drain == (if old(drain).Dead? then AtLoop else old(drain))
    {
      if tearingDown { return; }
      pendingPlan := Some(plan);
      if drain.Dead? { drain, cancelled := AtLoop, false; }
    }

    /** A refresh fails at any point; the lock, if held, is released and the gate stays as it is. */
    method RefreshFails()
      requires Valid() && refresh != Idle
      modifies this`refresh, this`lock, this`deferredPlan
      ensures Valid() && refresh == Idle && deferredPlan.None?
      ensures lock == if old(lock) == RefreshTask then Free else old(lock)
    {
      if lock == RefreshTask { lock := Free; }
      refresh, deferredPlan := Idle, None;
    }

    // -------------------------------------------------------------- the drain task

    /** Head of the drain loop: take the newest plan, or end. */
    method DrainTakes()
      requires Valid() && drain == AtLoop
      modifies this`drain, this`pendingPlan, this`taken
      ensures Valid() && pendingPlan.None?
      ensures drain == if old(pendingPlan).Some? then WaitingFor(old(pendingPlan).value) else Dead
    {
      if tearingDown || pendingPlan.None? {
        drain := Dead;
      } else {
        taken := pendingPlan.value.serial + 1;
        drain, pendingPlan := WaitingFor(pendingPlan.value), None;
      }
    }

    /** The lock is acquired; an obsolete plan, or one in front of a closed gate, is skipped. */
    method DrainAcquires()
      requires Valid() && drain.WaitingFor? && lock == Free
      modifies this`drain, this`lock
      ensures Valid() && pendingPlan == old(pendingPlan)
      ensures drain == if tearingDown || old(drain).request.generation != generation || gateClosed
                       then AtLoop else Holding(old(drain).request, false)
      ensures lock == if drain.Holding? then DrainTask else Free
    {
      if tearingDown || drain.request.generation != generation || gateClosed {
        drain := AtLoop;
      } else {
        drain, lock := Holding(drain.request, false), DrainTask;
      }
    }

    /** One executor evaluation of the held plan starts, if the plan is still current and, for its further actions,
        the entry is not being torn down. */
    method DrainEvaluates()
      requires Valid() && drain.Holding?
      modifies this`drain, this`lock, this`log
      ensures Valid() && pendingPlan == old(pendingPlan)
      ensures var plan, begun := old(drain).request, old(drain).begun;
        if plan.generation == generation && !(begun && tearingDown) then
          && drain == Holding(plan, true) && lock == DrainTask
          && log == old(log) + [Evaluation(plan, generation, DrainTask, begun, tearingDown)]
        else drain == AtLoop && lock == Free && log == old(log)
    {
      var plan := drain.request;
      if plan.generation == generation && !(drain.begun && tearingDown) {
        log := log + [Evaluation(plan, generation, lock, drain.begun, tearingDown)];
        drain := Holding(plan, true);
      } else {
        drain, lock := AtLoop, Free;
      }
    }

    /** The plan's actions are done, teardown stops it, or its execution raised: the loop goes on. */
    method DrainFinishes()
      requires Valid() && drain.Holding?
      modifies this`drain, this`lock
      ensures Valid() && drain == AtLoop && lock == Free && pendingPlan == old(pendingPlan)
    {
      drain, lock := AtLoop, Free;
    }

    /** The drain itself is cancelled: this is the one way a queued plan can be left without a drain. */
    method DrainCancelled()
      requires Valid() && !drain.Dead?
      modifies this`drain, this`lock, this`cancelled
      ensures Valid() && drain.Dead? && pendingPlan == old(pendingPlan)
      ensures lock == if old(lock) == DrainTask then Free else old(lock)
    {
      if lock == DrainTask { lock := Free; }
      drain, cancelled := Dead, true;
    }

    /** The plan in hand gets the free lock: it is evaluated if it is current and the gate is open, else skipped. */
    method DrainsOne()
      requires Valid() && drain.WaitingFor? && lock == Free && !tearingDown
      modifies this`drain, this`lock, this`log
      ensures Valid() && drain == AtLoop && lock == Free && pendingPlan == old(pendingPlan)
      ensures log == if old(drain).request.generation == generation && !gateClosed
                     then old(log) + [Evaluation(old(drain).request, generation, DrainTask, false, false)] else old(log)
    {
      DrainAcquires();
      if drain.Holding? {
        DrainEvaluates();
        DrainFinishes();
      }
    }

    /** No wake-up is lost: left to itself, a live drain empties the queue, whatever became of the plan it was
        working on, and evaluates the newest plan if that is still current and the gate is open. */
    method DrainsAll()
      requires Valid() && !drain.Dead? && !tearingDown && (lock == Free || lock == DrainTask)
      modifies this`drain, this`lock, this`log, this`pendingPlan, this`taken
      ensures Valid() && drain.Dead? && pendingPlan.None? && lock == Free
      ensures old(pendingPlan).Some? && old(pendingPlan).value.generation == generation && !gateClosed ==>
        |log| > 0 && log[|log| - 1] == Evaluation(old(pendingPlan).value, generation, DrainTask, false, false)
    {
      hide PlansGuarded, InOrder, LogSound;
      if drain.Holding? { DrainFinishes(); }
      if drain.WaitingFor? { DrainsOne(); }
      DrainTakes();
      if drain.WaitingFor? {
        DrainsOne();
        DrainTakes();
      }
    }
  }

  /** The evaluation ran under the command lock, for the current generation, on a plan that never saw the gate
      closed; teardown lets no further action of a plan start. */
  predicate Sound(e: Evaluation) {
    && e.owner == DrainTask && e.request.generation == e.generation && !e.request.sawGate
    && (e.further ==> !e.tearingDown)
  }

  datatype Step =
    | Replan | Shutdown | Resume | OperatorIn | OperatorOut
    | Refreshing(configured: bool) | AdmissionIn | AdmissionTimeout | AdmissionOut(succeeded: bool)
    | ReconcileIn | ReconcileOut(succeeded: bool)
    | Plan | Context | Commit | Stored(execute: bool) | Finish | Fail
    | Take | Acquire | Evaluate | Next | Cancel

  // ---------------------------------------------------------------- one step as a function

  /** A step of a refresh's admission, if it is enabled. */
  function Enters(s: Protocol, step: Step): Protocol {
    match step
    case Refreshing(configured) =>
      if s.refresh != Idle then s
      else if s.tearingDown || s.reconcile != NoTask then s.(refresh := Admission)
      else if !configured then
        s.(refresh := Admission, gateClosed := false, generation := s.generation + (if s.gateClosed then 1 else 0))
      else if s.lock == Free then s.(refresh := AwaitingLock(s.gateClosed), gateClosed := true)
      else s.(refresh := Admission, reconcile := Queued, gateClosed := true)
    case AdmissionIn =>
      if s.refresh.AwaitingLock? && s.lock == Free then s.(refresh := Admitted(s.refresh.wasPending), lock := RefreshTask)
      else s
    case AdmissionTimeout =>
      if s.refresh.AwaitingLock? then
        s.(refresh := Admission, reconcile := if s.tearingDown then s.reconcile else Queued)
      else s
    case AdmissionOut(succeeded) =>
      if !s.refresh.Admitted? then s
      else if !succeeded then s.(refresh := Idle, lock := Free)
      else
        s.(refresh := Admission, lock := Free, gateClosed := false,
           generation := s.generation + (if s.refresh.wasPending then 1 else 0))
    case _ => s
  }

  /** A step of its planning, if it is enabled. */
  function Plans(s: Protocol, step: Step): Protocol {
    match step
    case Plan =>
      if s.refresh != Admission then s
      else if s.tearingDown then s.(refresh := Idle)
      else s.(refresh := Planning(s.generation, None), deferredPlan := None)
    case Context =>
      if s.refresh.Planning? && s.refresh.sawGate.None? then s.(refresh := s.refresh.(sawGate := Some(s.gateClosed))) else s
    case Commit =>
      if !(s.refresh.Planning? && s.refresh.sawGate.Some?) then s
      else if s.tearingDown || s.refresh.started != s.generation then s.(refresh := Idle, deferredPlan := None)
      else
        s.(refresh := Saving(Request(s.serial, s.generation, s.refresh.sawGate.value)), deferredPlan := None,
           serial := s.serial + 1)
    case Stored(execute) =>
      if s.refresh.Saving? then s.(refresh := Flushing, deferredPlan := if execute then Some(s.refresh.plan) else None)
      else s
    case Finish =>
      if s.refresh != Flushing then s
      else if s.deferredPlan.None? || s.tearingDown then s.(refresh := Idle, deferredPlan := None)
      else
        s.(refresh := Idle, deferredPlan := None, pendingPlan := s.deferredPlan,
           drain := if s.drain.Dead? then AtLoop else s.drain)
    case Fail =>
      if s.refresh == Idle then s
      else s.(refresh := Idle, deferredPlan := None, lock := if s.lock == RefreshTask then Free else s.lock)
    case _ => s
  }

  /** A step of the drain, if it is enabled. */
  function Drains(s: Protocol, step: Step): Protocol {
    match step
    case Take =>
      if s.drain != AtLoop then s
      else if s.tearingDown || s.pendingPlan.None? then s.(drain := Dead)
      else s.(drain := WaitingFor(s.pendingPlan.value), pendingPlan := None)
    case Acquire =>
      if !(s.drain.WaitingFor? && s.lock == Free) then s
      else if s.tearingDown || s.drain.request.generation != s.generation || s.gateClosed then s.(drain := AtLoop)
      else s.(drain := Holding(s.drain.request, false), lock := DrainTask)
    case Evaluate =>
      if !s.drain.Holding? then s
      else if s.drain.request.generation == s.generation && !(s.drain.begun && s.tearingDown) then
        s.(drain := Holding(s.drain.request, true),
           log := s.log + [Evaluation(s.drain.request, s.generation, s.lock, s.drain.begun, s.tearingDown)])
      else s.(drain := AtLoop, lock := Free)
    case Next => if s.drain.Holding? then s.(drain := AtLoop, lock := Free) else s
    case Cancel =>
      if s.drain.Dead? then s else s.(drain := Dead, lock := if s.lock == DrainTask then Free else s.lock)
    case _ => s
  }

  /** Anything else that may happen meanwhile. */
  function Happens(s: Protocol, step: Step): Protocol {
    match step
    case Replan => s.(generation := s.generation + 1)
    case Shutdown => s.(tearingDown := true, pendingPlan := None, deferredPlan := None)
    case Resume => s.(tearingDown := false)
    case OperatorIn => if s.lock == Free then s.(lock := OperatorTask) else s
    case OperatorOut => if s.lock == OperatorTask then s.(lock := Free) else s
    case ReconcileIn =>
      if s.reconcile == Queued && s.lock == Free then s.(reconcile := Running, lock := ReconcileTask) else s
    case ReconcileOut(succeeded) =>
      if s.reconcile == NoTask then s
      else
        var open := succeeded && !s.tearingDown;
        s.(reconcile := NoTask, lock := if s.reconcile == Running then Free else s.lock,
           generation := s.generation + (if open then 1 else 0), gateClosed := s.gateClosed && !open)
    case _ => s
  }

  predicate OfAdmission(step: Step) {
    step.Refreshing? || step.AdmissionIn? || step.AdmissionTimeout? || step.AdmissionOut?
  }

  predicate OfPlanning(step: Step) {
    step.Plan? || step.Context? || step.Commit? || step.Stored? || step.Finish? || step.Fail?
  }

  predicate OfDrain(step: Step) { step.Take? || step.Acquire? || step.Evaluate? || step.Next? || step.Cancel? }

  function Performed(s: Protocol, step: Step): Protocol {
    if OfAdmission(step) then Enters(s, step)
    else if OfPlanning(step) then Plans(s, step)
    else if OfDrain(step) then Drains(s, step)
    else Happens(s, step)
  }

  function After(s: Protocol, script: seq<Step>): Protocol {
    if |script| == 0 then s else Performed(After(s, script[..|script| - 1]), script[|script| - 1])
  }

  lemma AfterNext(s: Protocol, script: seq<Step>, i: nat)
    requires i < |script|
    ensures After(s, script[..i + 1]) == Performed(After(s, script[..i]), script[i])
  {
    assert script[..i + 1][..i] == script[..i];
  }

  /** Every interleaving of the steps, from the start of the coordinator. */
  method Run(script: seq<Step>) returns (c: EnergyCoordinator)
    ensures fresh(c) && c.Valid()
    ensures forall i | 0 <= i < |c.log| :: Sound(c.log[i])
    ensures forall i, j | 0 <= i < j < |c.log| :: c.log[i].request.serial <= c.log[j].request.serial
    ensures c.pendingPlan.Some? ==> !c.tearingDown && (c.drain.Dead? <==> c.cancelled)
    ensures c.Snapshot() == After(START, script)
  {
    hide Performed;
    c := new EnergyCoordinator();
    for i := 0 to |script|
      invariant fresh(c) && c.Valid() && c.Snapshot() == After(START, script[..i])
    {
      AfterNext(START, script, i);
      Perform(c, script[i]);
    }
    assert script[..|script|] == script;
  }

  /** One step, if it is enabled. */
  method Perform(c: EnergyCoordinator, step: Step)
    requires c.Valid()
    modifies c
    ensures c.Valid() && c.Snapshot() == Performed(old(c.Snapshot()), step)
  {
    hide EnergyCoordinator.Valid, EnergyCoordinator.Snapshot, Enters, Plans, Drains, Happens;
    if OfAdmission(step) {
      PerformAdmission(c, step);
    } else if OfPlanning(step) {
      PerformPlan(c, step);
    } else if OfDrain(step) {
      PerformDrain(c, step);
    } else {
      PerformOther(c, step);
    }
  }

  method PerformOther(c: EnergyCoordinator, step: Step)
    requires c.Valid()
    modifies c`generation, c`tearingDown, c`pendingPlan, c`deferredPlan, c`lock, c`reconcile, c`gateClosed
    ensures c.Valid() && c.Snapshot() == Happens(old(c.Snapshot()), step)
  {
    if step.ReconcileIn? || step.ReconcileOut? {
      PerformReconcile(c, step);
    } else {
      hide EnergyCoordinator.Valid;
      match step {
        case Replan => c.MarkReplanRequested();
        case Shutdown => c.BeginShutdown();
        case Resume => c.StartListeners();
        case OperatorIn => if c.lock == Free { c.OperatorAcquires(); }
        case OperatorOut => if c.lock == OperatorTask { c.OperatorReleases(); }
        case _ =>
      }
    }
  }

  method PerformReconcile(c: EnergyCoordinator, step: Step)
    requires c.Valid() && (step.ReconcileIn? || step.ReconcileOut?)
    modifies c`generation, c`lock, c`reconcile, c`gateClosed
    ensures c.Valid() && c.Snapshot() == Happens(old(c.Snapshot()), step)
  {
    c.GateAndQueue();
    hide EnergyCoordinator.Valid;
    match step {
      case ReconcileIn => if c.reconcile == Queued && c.lock == Free { c.ReconcileAcquires(); }
      case ReconcileOut(succeeded) => if c.reconcile != NoTask { c.ReconcileEnds(succeeded); }
      case _ =>
    }
  }

  method PerformAdmission(c: EnergyCoordinator, step: Step)
    requires c.Valid() && OfAdmission(step)
    modifies c`refresh, c`lock, c`gateClosed, c`generation, c`reconcile
    ensures c.Valid() && c.Snapshot() == Enters(old(c.Snapshot()), step)
  {
    c.GateAndQueue();
    hide EnergyCoordinator.Valid;
    match step {
      case Refreshing(configured) => if c.refresh == Idle { c.BeginRefresh(configured); }
      case AdmissionIn => if c.refresh.AwaitingLock? && c.lock == Free { c.AdmissionAcquires(); }
      case AdmissionTimeout => if c.refresh.AwaitingLock? { c.AdmissionTimesOut(); }
      case AdmissionOut(succeeded) => PerformAdmissionOut(c, succeeded);
      case _ =>
    }
  }

  method PerformAdmissionOut(c: EnergyCoordinator, succeeded: bool)
    requires c.Valid()
    modifies c`refresh, c`lock, c`gateClosed, c`generation
    ensures c.Valid() && c.Snapshot() == Enters(old(c.Snapshot()), AdmissionOut(succeeded))
  {
    c.GateAndQueue();
    hide EnergyCoordinator.Valid;
    if c.refresh.Admitted? { c.AdmissionEnds(succeeded); }
  }

  method PerformPlan(c: EnergyCoordinator, step: Step)
    requires c.Valid() && OfPlanning(step)
    modifies c`refresh, c`deferredPlan, c`serial, c`pendingPlan, c`drain, c`cancelled, c`lock
    ensures c.Valid() && c.Snapshot() == Plans(old(c.Snapshot()), step)
  {
    if step.Stored? || step.Finish? || step.Fail? {
      PerformStore(c, step);
    } else {
      hide EnergyCoordinator.Valid;
      match step {
        case Plan => if c.refresh == Admission { c.BeginPlanning(); }
        case Context => if c.refresh.Planning? && c.refresh.sawGate.None? { c.BuildContext(); }
        case Commit => if c.refresh.Planning? && c.refresh.sawGate.Some? { c.CommitIfCurrent(); }
        case _ =>
      }
    }
  }

  method PerformStore(c: EnergyCoordinator, step: Step)
    requires c.Valid() && (step.Stored? || step.Finish? || step.Fail?)
    modifies c`refresh, c`deferredPlan, c`pendingPlan, c`drain, c`cancelled, c`lock
    ensures c.Valid() && c.Snapshot() == Plans(old(c.Snapshot()), step)
  {
    hide EnergyCoordinator.Valid;
    match step {
      case Stored(execute) => if c.refresh.Saving? { c.PlanStored(execute); }
      case Finish => if c.refresh == Flushing { c.FinishRefresh(); }
      case Fail => if c.refresh != Idle { c.RefreshFails(); }
      case _ =>
    }
  }

  method PerformDrain(c: EnergyCoordinator, step: Step)
    requires c.Valid() && OfDrain(step)
    modifies c`drain, c`lock, c`log, c`pendingPlan, c`taken, c`cancelled
    ensures c.Valid() && c.Snapshot() == Drains(old(c.Snapshot()), step)
  {
    if step.Evaluate? {
      PerformEvaluate(c);
    } else if step.Take? {
      PerformTake(c);
    } else {
      hide EnergyCoordinator.Valid;
      match step {
        case Acquire => if c.drain.WaitingFor? && c.lock == Free { c.DrainAcquires(); }
        case Next => if c.drain.Holding? { c.DrainFinishes(); }
        case Cancel => if !c.drain.Dead? { c.DrainCancelled(); }
        case _ =>
      }
    }
  }

  method PerformEvaluate(c: EnergyCoordinator)
    requires c.Valid()
    modifies c`drain, c`lock, c`log
    ensures c.Valid() && c.Snapshot() == Drains(old(c.Snapshot()), Evaluate)
  {
    if c.drain.Holding? { c.HoldsLock(); }
    hide EnergyCoordinator.Valid;
    if c.drain.Holding? { c.DrainEvaluates(); }
  }

  method PerformTake(c: EnergyCoordinator)
    requires c.Valid()
    modifies c`drain, c`pendingPlan, c`taken
    ensures c.Valid() && c.Snapshot() == Drains(old(c.Snapshot()), Take)
  {
    c.GateAndQueue();
    hide EnergyCoordinator.Valid;
    if c.drain == AtLoop { c.DrainTakes(); }
  }

  /** Nothing is in hand, the gate is open and the lock is free. */
  ghost predicate Quiet(s: Protocol) {
    && s.refresh == Idle && s.reconcile == NoTask && s.drain.Dead? && s.lock == Free && !s.gateClosed && !s.tearingDown
    && s.pendingPlan.None? && s.deferredPlan.None?
  }

  /** A whole turn of the protocol: admission, with or without a configured export control, planning, storing, queueing and
      draining. */
  function Turn(configured: bool): seq<Step> {
    (if configured then [Refreshing(true), AdmissionIn, AdmissionOut(true)] else [Refreshing(false)])
    + [Plan, Context, Commit, Stored(true), Finish, Take, Acquire, Evaluate, Next, Take]
  }

  /** In a quiet state a whole turn commits one plan and evaluates it, once, under the lock, and ends quiet. */
  lemma TurnEvaluates(s: Protocol, configured: bool)
    requires Quiet(s)
    ensures var t, plan := After(s, Turn(configured)), Request(s.serial, s.generation, false);
      && Quiet(t) && t.serial == s.serial + 1 && t.generation == s.generation
      && t.log == s.log + [Evaluation(plan, s.generation, DrainTask, false, false)]
  {
    hide Performed, After, Turn;
    var script, n := Turn(configured), |Turn(configured)| - 10;
    TurnEnds(configured);
    var a := Admits(s, configured);
    Follows(s, script, n, [Plan, Context, Commit, Stored(true), Finish]);
    PlansNow(a);
    var b := After(s, script[..n + 5]);
    Follows(s, script, n + 5, [Take, Acquire, Evaluate, Next, Take]);
    DrainsNow(b);
    assert script[..n + 5 + 5] == script;
  }

  lemma TurnEnds(configured: bool)
    ensures var script := Turn(configured);
      && |script| >= 10
      && (forall k | 0 <= k < 5 :: script[|script| - 10 + k] == [Plan, Context, Commit, Stored(true), Finish][k])
      && (forall k | 0 <= k < 5 :: script[|script| - 5 + k] == [Take, Acquire, Evaluate, Next, Take][k])
  {}

  /** What five steps lead to. */
  lemma Follows(s: Protocol, script: seq<Step>, n: nat, x: seq<Step>)
    requires |x| == 5 && n + 5 <= |script| && forall k | 0 <= k < 5 :: script[n + k] == x[k]
    ensures After(s, script[..n + 5])
      == Performed(Performed(Performed(Performed(Performed(After(s, script[..n]), x[0]), x[1]), x[2]), x[3]), x[4])
  {
    hide Performed, After;
    AfterNext(s, script, n);
    AfterNext(s, script, n + 1);
    AfterNext(s, script, n + 2);
    AfterNext(s, script, n + 3);
    AfterNext(s, script, n + 4);
    assert script[n] == script[n + 0];
  }

  /** Admission ends with the gate open. */
  lemma Admits(s: Protocol, configured: bool) returns (a: Protocol)
    requires Quiet(s)
    ensures a == s.(refresh := Admission) && After(s, Turn(configured)[..|Turn(configured)| - 10]) == a
  {
    var script := Turn(configured);
    if configured {
      var first := Performed(s, Refreshing(true));
      a := Performed(Performed(first, AdmissionIn), AdmissionOut(true));
      AfterNext(s, script, 0);
      AfterNext(s, script, 1);
      AfterNext(s, script, 2);
      assert script[..0] == [];
    } else {
      a := Performed(s, Refreshing(false));
      AfterNext(s, script, 0);
      assert script[..0] == [];
    }
  }

  lemma PlansNow(a: Protocol)
    requires Quiet(a.(refresh := Idle)) && a.refresh == Admission
    ensures var b := Performed(Performed(Performed(Performed(Performed(a, Plan), Context), Commit), Stored(true)), Finish);
      b == a.(refresh := Idle, pendingPlan := Some(Request(a.serial, a.generation, false)), drain := AtLoop,
              serial := a.serial + 1)
  {}

  lemma DrainsNow(b: Protocol)
    requires b.drain == AtLoop && b.lock == Free && !b.gateClosed && !b.tearingDown
    requires b.pendingPlan.Some? && b.pendingPlan.value.generation == b.generation
    ensures var c := Performed(Performed(Performed(Performed(Performed(b, Take), Acquire), Evaluate), Next), Take);
      c == b.(drain := Dead, pendingPlan := None,
              log := b.log + [Evaluation(b.pendingPlan.value, b.generation, DrainTask, false, false)])
  {}

  /** One plan computed and queued, without export control. */
  method PlanOnce(c: EnergyCoordinator)
    requires c.Valid() && c.refresh == Idle && c.reconcile == NoTask && !c.tearingDown && !c.gateClosed
    modifies c
    ensures c.Valid() && c.refresh == Idle && c.reconcile == NoTask && !c.tearingDown && !c.gateClosed
    ensures c.pendingPlan.Some? && c.drain == (if old(c.drain).Dead? then AtLoop else old(c.drain))
  {
    c.BeginRefresh(false);
    c.BeginPlanning();
    c.BuildContext();
    c.CommitIfCurrent();
    c.PlanStored(true);
    c.FinishRefresh();
  }

  /** The exception is real: if the drain is cancelled while it works on an older plan, a newer one stays queued with
      nobody to run it, until the next plan is queued. */
  method CancellationStrandsPlan() returns (c: EnergyCoordinator)
    ensures fresh(c) && c.Valid() && c.pendingPlan.Some? && c.drain.Dead? && !c.tearingDown
  {
    c := new EnergyCoordinator();
    PlanOnce(c);
    c.DrainTakes();
    PlanOnce(c);
    c.DrainCancelled();
  }
}
