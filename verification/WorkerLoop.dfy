/**
 * The polling loop of one worker process (scan-worker.service.ts): the wake-up flags of
 * `kick` and `tick`, the accounting of running jobs and the adaptive concurrency limit.
 * JavaScript runs each stretch between two awaits without interruption, so every stretch is
 * one step here; the tick is suspended either on failStaleScans or on claimNext.
 */
module WorkerLoop {
  import opened Base

  datatype Await = Idle | OnSweep | OnClaim

  /** The worker's fields. `kicks` counts the kicks since the last pass began, `total` all successes so far. */
  datatype Worker = Worker(
    await: Await, requested: bool, down: bool, active: int, inFlight: set<nat>,
    limit: int, successes: nat, failures: nat, kicks: nat, total: nat)

  datatype Limits = Limits(base: nat, max: nat)

  datatype Event =
    | Kick
    | SweepDone
    | ClaimDone(claimed: Option<nat>)
    | TickFailed
    | JobSettled(job: nat)
    | Adapt(success: bool)
    | ShutDown

  /** maxAdaptiveConcurrency: an absent or zero setting means at least four. */
  function MaxAdaptive(configured: Option<nat>, base: nat): (m: nat)
    ensures base <= m
    ensures configured.GetOr(0) == 0 ==> 4 <= m && (m == base || m == 4)
    ensures configured.GetOr(0) > 0 ==> configured.value <= m && (m == base || m == configured.value)
  {
    if configured.GetOr(0) != 0 then Max(configured.value, base) else Max(base, 4)
  }

  function Initial(c: Limits): Worker {
    Worker(Idle, false, false, 0, {}, c.base, 0, 0, 0, 0)
  }

  function BeginPass(w: Worker): Worker {
    w.(await := OnSweep, requested := false, kicks := 0)
  }

  function Kicked(w: Worker): Worker {
    if w.down then w
    else if w.await.Idle? then BeginPass(w)
    else w.(requested := true, kicks := w.kicks + 1)
  }

  function EndPass(w: Worker): Worker {
    if w.requested && !w.down then BeginPass(w) else w.(await := Idle)
  }

  function TryClaim(w: Worker): Worker {
    if w.active < w.limit && !w.down then w.(await := OnClaim) else EndPass(w)
  }

  function Adapted(c: Limits, w: Worker, success: bool): Worker {
    if success then
      if w.successes + 1 >= 3 && w.limit < c.max
      then w.(limit := w.limit + 1, successes := 0, failures := 0, total := w.total + 1)
      else w.(successes := w.successes + 1, failures := 0, total := w.total + 1)
    else
      if w.failures + 1 >= 2 && w.limit > c.base
      then w.(limit := w.limit - 1, successes := 0, failures := 0)
      else w.(successes := 0, failures := w.failures + 1)
  }

  function Step(c: Limits, w: Worker, e: Event): Worker {
    match e
    case Kick => Kicked(w)
    case SweepDone => if w.await.OnSweep? then TryClaim(w) else w
    case ClaimDone(None) => if w.await.OnClaim? then EndPass(w) else w
    case ClaimDone(Some(j)) =>
      if w.await.OnClaim? && j !in w.inFlight
      then TryClaim(w.(active := w.active + 1, inFlight := w.inFlight + {j})) else w
    case TickFailed => w.(await := Idle)
    case JobSettled(j) =>
      if j in w.inFlight then Kicked(w.(active := w.active - 1, inFlight := w.inFlight - {j})) else w
    case Adapt(success) => Adapted(c, w, success)
    case ShutDown => w.(down := true)
  }

  function Run(c: Limits, es: seq<Event>): Worker {
    if es == [] then Initial(c) else Step(c, Run(c, es[..|es| - 1]), es[|es| - 1])
  }

  // ---------------------------------------------------------------- the fields in place

  class ScanWorker {
    const limits: Limits
    var active: int
    var ticking: bool
    var tickRequested: bool
    var shuttingDown: bool
    var inFlight: set<nat>
    var currentConcurrencyLimit: int
    var consecutiveSuccesses: nat
    var consecutiveFailures: nat
    var awaiting: Await
    ghost var kicks: nat
    ghost var total: nat

    ghost predicate Valid()
      reads this
    {
      ticking <==> !awaiting.Idle?
    }

    ghost function View(): Worker
      reads this
    {
      Worker(awaiting, tickRequested, shuttingDown, active, inFlight, currentConcurrencyLimit,
             consecutiveSuccesses, consecutiveFailures, kicks, total)
    }

    constructor (limits: Limits)
      ensures Valid() && View() == Initial(limits) && this.limits == limits
    {
      this.limits := limits;
      active, ticking, tickRequested, shuttingDown := 0, false, false, false;
      inFlight, currentConcurrencyLimit := {}, limits.base;
      consecutiveSuccesses, consecutiveFailures, awaiting := 0, 0, Idle;
      kicks, total := 0, 0;
    }

    method AdaptConcurrency(success: bool)
      requires Valid()
      modifies this
      ensures Valid() && View() == Step(limits, old(View()), Adapt(success))
      ensures var raised := success && old(consecutiveSuccesses) >= 2 && old(currentConcurrencyLimit) < limits.max;
        var lowered := !success && old(consecutiveFailures) >= 1 && old(currentConcurrencyLimit) > limits.base;
        && currentConcurrencyLimit == old(currentConcurrencyLimit) + (if raised then 1 else if lowered then -1 else 0)
        && consecutiveSuccesses == (if success && !raised then old(consecutiveSuccesses) + 1 else 0)
        && consecutiveFailures == (if !success && !lowered then old(consecutiveFailures) + 1 else 0)
    {
      if success {
        total := total + 1;
        consecutiveSuccesses := consecutiveSuccesses + 1;
        consecutiveFailures := 0;
        if consecutiveSuccesses >= 3 && currentConcurrencyLimit < limits.max {
          currentConcurrencyLimit := currentConcurrencyLimit + 1;
          consecutiveSuccesses := 0;
        }
      } else {
        consecutiveFailures := consecutiveFailures + 1;
        consecutiveSuccesses := 0;
        if consecutiveFailures >= 2 && currentConcurrencyLimit > limits.base {
          currentConcurrencyLimit := currentConcurrencyLimit - 1;
          consecutiveFailures := 0;
        }
      }
    }

    method Kick()
      requires Valid()
      modifies this
      ensures Valid() && View() == Kicked(old(View()))
      ensures !old(shuttingDown) && !old(ticking) ==> ticking && awaiting == OnSweep && !tickRequested
      ensures !old(shuttingDown) && old(ticking) ==> tickRequested && awaiting == old(awaiting)
      ensures old(shuttingDown) ==> View() == old(View())
    {
      if shuttingDown { return; }
      if ticking {
        kicks := kicks + 1;
        tickRequested := true;
        return;
      }
      ticking := true;
      StartPass();
    }

    /** The head of the do-while: clear the flag, then await failStaleScans. */
    method StartPass()
      requires ticking
      modifies this
      ensures Valid() && View() == BeginPass(old(View()))
    {
      tickRequested := false;
      kicks := 0;
      awaiting := OnSweep;
    }

    /** The inner while condition; when it fails, the do-while condition. */
    method Continue()
      requires ticking
      modifies this
      ensures Valid() && View() == TryClaim(old(View()))
    {
      if active < currentConcurrencyLimit && !shuttingDown {
        awaiting := OnClaim;
      } else {
        FinishPass();
      }
    }

    method FinishPass()
      requires ticking
      modifies this
      ensures Valid() && View() == EndPass(old(View()))
    {
      if tickRequested && !shuttingDown {
        StartPass();
      } else {
        ticking := false;
        awaiting := Idle;
      }
    }

    /** failStaleScans answered. */
    method OnSweepDone()
      requires Valid() && awaiting.OnSweep?
      modifies this
      ensures Valid() && View() == Step(limits, old(View()), SweepDone)
    {
      Continue();
    }

    /** claimNext answered: start the job and try for another one, or leave the inner loop. */
    method OnClaimDone(job: Option<nat>)
      requires Valid() && awaiting.OnClaim?
      requires job.Some? ==> job.value !in inFlight
      modifies this
      ensures Valid() && View() == Step(limits, old(View()), ClaimDone(job))
    {
      match job
      case None => FinishPass();
      case Some(j) =>
        active := active + 1;
        inFlight := inFlight + {j};
        Continue();
    }

    /** The catch and finally of the tick; the request flag keeps whatever it held. */
    method OnTickError()
      requires Valid()
      modifies this
      ensures Valid() && View() == Step(limits, old(View()), TickFailed)
    {
      ticking := false;
      awaiting := Idle;
    }

    /** The finally of a job. */
    method OnJobSettled(job: nat)
      requires Valid() && job in inFlight
      modifies this
      ensures Valid() && View() == Step(limits, old(View()), JobSettled(job))
    {
      active := active - 1;
      inFlight := inFlight - {job};
      Kick();
    }

    method OnShutdown()
      requires Valid()
      modifies this
      ensures Valid() && View() == Step(limits, old(View()), ShutDown) && shuttingDown
    {
      shuttingDown := true;
    }
  }

  // ---------------------------------------------------------------- invariants of every run

  predicate Inv(c: Limits, w: Worker) {
    && w.active == |w.inFlight| <= c.max
    && (w.await.OnClaim? ==> w.active < c.max)
    && c.base <= w.limit <= c.max
    && 3 * (w.limit - c.base) + w.successes <= w.total
    && (!w.await.Idle? ==> (w.requested <==> w.kicks > 0))
  }

  lemma AdaptKeepsInv(c: Limits, w: Worker, success: bool)
    requires Inv(c, w)
    ensures Inv(c, Adapted(c, w, success))
  {
  }

  lemma TryClaimKeepsInv(c: Limits, w: Worker)
    requires Inv(c, w.(await := OnSweep)) && !w.await.Idle?
    ensures Inv(c, TryClaim(w))
  {
  }

  lemma StepKeepsInv(c: Limits, w: Worker, e: Event)
    requires Inv(c, w)
    ensures Inv(c, Step(c, w, e))
  {
    match e
    case Adapt(success) => AdaptKeepsInv(c, w, success);
    case SweepDone => if w.await.OnSweep? { TryClaimKeepsInv(c, w); }
    case ClaimDone(Some(j)) =>
      if w.await.OnClaim? && j !in w.inFlight {
        TryClaimKeepsInv(c, w.(active := w.active + 1, inFlight := w.inFlight + {j}));
      }
    case JobSettled(j) =>
      if j in w.inFlight {
        assert |w.inFlight - {j}| == |w.inFlight| - 1;
      }
    case _ =>
  }

  lemma {:induction false} ReachableInv(c: Limits, es: seq<Event>)
    requires c.base <= c.max
    ensures Inv(c, Run(c, es))
  {
    if es != [] {
      ReachableInv(c, es[..|es| - 1]);
      StepKeepsInv(c, Run(c, es[..|es| - 1]), es[|es| - 1]);
    }
  }

  function Successes(es: seq<Event>): nat {
    if es == [] then 0 else Successes(es[..|es| - 1]) + if es[|es| - 1] == Adapt(true) then 1 else 0
  }

  lemma {:induction false} TotalCountsSuccesses(c: Limits, es: seq<Event>)
    ensures Run(c, es).total == Successes(es)
  {
    if es != [] {
      TotalCountsSuccesses(c, es[..|es| - 1]);
    }
  }

  /** Every extra slot was paid for with three successes, and the slots are never overrun. */
  lemma ConcurrencyIsEarned(c: Limits, es: seq<Event>)
    requires c.base <= c.max
    ensures var w := Run(c, es);
      && c.base <= w.limit <= c.max
      && 3 * (w.limit - c.base) <= Successes(es)
      && w.active == |w.inFlight| <= c.max
  {
    ReachableInv(c, es);
    TotalCountsSuccesses(c, es);
  }

  /**
   * When a tick ends, a kick has gone unheard since its last pass began if and only if one was
   * waiting and the tick ended by an error or a shutdown.
   */
  lemma WakeUpsLostOnlyByErrorOrShutdown(c: Limits, es: seq<Event>, e: Event)
    requires c.base <= c.max
    requires !Run(c, es).await.Idle? && Run(c, es + [e]).await.Idle?
    ensures Run(c, es + [e]).kicks > 0 <==> Run(c, es).requested && (e.TickFailed? || Run(c, es).down)
    ensures !e.TickFailed? && !Run(c, es).down ==>
      e == ClaimDone(None) || Run(c, es + [e]).active >= Run(c, es + [e]).limit
  {
    ReachableInv(c, es);
    assert (es + [e])[..|es|] == es;
  }

  /** After a shutdown no pass begins, and only a claim already under way can still start a job. */
  lemma AfterShutdown(c: Limits, w: Worker, e: Event)
    requires w.down || e.ShutDown?
    ensures var w' := Step(c, w, e);
      && w'.down
      && (w'.await == OnSweep ==> w.await == OnSweep) && (w'.await == OnClaim ==> w.await == OnClaim)
      && (w'.inFlight <= w.inFlight || (w.await == OnClaim && w'.await == Idle && e.ClaimDone?))
  {
  }

  /** How many jobs are started after the events `es`. */
  function JobsStarted(c: Limits, es: seq<Event>, more: seq<Event>): nat {
    if more == [] then 0
    else
      var front := more[..|more| - 1];
      JobsStarted(c, es, front) + if Run(c, es + more).inFlight <= Run(c, es + front).inFlight then 0 else 1
  }

  /** In all, at most one job is started after a shutdown: that of the claim under way when it came. */
  lemma {:induction false} OneJobAfterShutdown(c: Limits, es: seq<Event>, more: seq<Event>)
    requires Run(c, es).down
    ensures Run(c, es + more).down
    ensures JobsStarted(c, es, more) + (if Run(c, es + more).await == OnClaim then 1 else 0)
         <= if Run(c, es).await == OnClaim then 1 else 0
    decreases |more|
  {
    if more == [] {
      assert es + more == es;
    } else {
      var front, e := more[..|more| - 1], more[|more| - 1];
      OneJobAfterShutdown(c, es, front);
      assert es + more == (es + front) + [e];
      RunSnoc(c, es + front, e);
      AfterShutdown(c, Run(c, es + front), e);
    }
  }

  /** It does happen: a kick arrives during the first pass, whose sweep then fails. */
  lemma AnErrorLosesAWakeUp(c: Limits)
    ensures var w := Run(c, [Kick, Kick, TickFailed]); w.await.Idle? && !w.down && w.kicks == 1
  {
    RunSnoc(c, [], Kick);
    RunSnoc(c, [Kick], Kick);
    RunSnoc(c, [Kick, Kick], TickFailed);
    assert [] + [Kick] == [Kick] && [Kick] + [Kick] == [Kick, Kick];
    assert [Kick, Kick] + [TickFailed] == [Kick, Kick, TickFailed];
  }

  lemma StepKeepsHeard(c: Limits, w: Worker, e: Event)
    requires Inv(c, w) && !w.down && (w.await.Idle? ==> w.kicks == 0) && !e.TickFailed? && !e.ShutDown?
    ensures !Step(c, w, e).down && (Step(c, w, e).await.Idle? ==> Step(c, w, e).kicks == 0)
  {
    if e.Adapt? { assert Adapted(c, w, e.success).kicks == w.kicks; }
  }

  /** Without errors and shutdowns an idle worker has answered every kick with a later pass. */
  lemma {:induction false} IdleMeansHeard(c: Limits, es: seq<Event>)
    requires c.base <= c.max && TickFailed !in es && ShutDown !in es
    ensures !Run(c, es).down && (Run(c, es).await.Idle? ==> Run(c, es).kicks == 0)
  {
    if es != [] {
      var front := es[..|es| - 1];
      IdleMeansHeard(c, front);
      ReachableInv(c, front);
      assert es[|es| - 1] in es;
      StepKeepsHeard(c, Run(c, front), es[|es| - 1]);
    }
  }

  lemma RunSnoc(c: Limits, es: seq<Event>, e: Event)
    ensures Run(c, es + [e]) == Step(c, Run(c, es), e)
  {
    assert (es + [e])[..|es|] == es;
  }

  /** The limit may fall below the number of running jobs. */
  lemma LimitMayFallBelowActive()
    ensures exists es :: Run(Limits(1, 2), es).active > Run(Limits(1, 2), es).limit
  {
    var c := Limits(1, 2);
    var a := [Adapt(true)];
    RunSnoc(c, [], Adapt(true));
    RunSnoc(c, a, Adapt(true));
    var b := a + [Adapt(true)];
    RunSnoc(c, b, Adapt(true));
    var raised := b + [Adapt(true)];
    RunSnoc(c, raised, Kick);
    RunSnoc(c, raised + [Kick], SweepDone);
    RunSnoc(c, raised + [Kick] + [SweepDone], ClaimDone(Some(0)));
    var one := raised + [Kick] + [SweepDone] + [ClaimDone(Some(0))];
    assert Run(c, one) == Worker(OnClaim, false, false, 1, {0}, 2, 0, 0, 0, 3);
    RunSnoc(c, one, ClaimDone(Some(1)));
    RunSnoc(c, one + [ClaimDone(Some(1))], Adapt(false));
    RunSnoc(c, one + [ClaimDone(Some(1))] + [Adapt(false)], Adapt(false));
    var es := one + [ClaimDone(Some(1))] + [Adapt(false)] + [Adapt(false)];
    assert Run(c, es).active == 2 && Run(c, es).limit == 1;
  }
}
