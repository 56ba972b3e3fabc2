/** What the server is bound to do, over every run: the other half of the statements that say when it may. */
module RtspResponses {
  import opened Basics
  import opened AccessUnits
  import opened RtspSections
  import opened RtspSystem
  import opened RtspInvariants
  import opened RtspFeeder
  import opened RtspTheorems

  // ----- Feeder -----

  lemma ThirdFailureAsks(v: Server, g: nat, flow: Flow)
    requires ServerInv(v) && v.media.Some? && v.mediaGeneration == g
    ensures var v' := PushReported(v, g, flow);
      v'.failures >= 3 && flow == FlowError ==>
        && v'.recovery == Requested && v'.recoveryGeneration == v'.mediaGeneration && v'.token != 0
        && v'.token == if v.recovery == Idle then v.nextToken + 1 else v.token
  {
    FeederSectionKeeps(v, g, flow);
  }

  /** A result of the current media that leaves at least three charged failures in a row always asks for
      recovery of that media. */
  lemma ThreeFailuresAskForRecovery(steps: seq<Step>, flow: Flow)
    ensures var s := Run(CREATED, steps); var s' := Apply(s, OfFeeder(FeedReport(flow)));
      && s.feeder.pc.FeedPush? && s.v.media.Some? && s.feeder.pc.mediaGeneration == s.v.mediaGeneration
      && ChargedRun(s'.events) >= 3
      ==> s'.v.recovery == Requested && s'.v.recoveryGeneration == s'.v.mediaGeneration && s'.v.token != 0
  {
    EveryRunKeepsInv(steps);
    ReportAsks(Run(CREATED, steps), flow);
  }

  lemma ReportAsks(s: System, flow: Flow)
    requires ServerInv(s.v) && EventInv(s.events, s.v.failures, s.v.mediaGeneration)
    ensures var s' := ApplyFeeder(s, FeedReport(flow));
      && s.feeder.pc.FeedPush? && s.v.media.Some? && s.feeder.pc.mediaGeneration == s.v.mediaGeneration
      && ChargedRun(s'.events) >= 3
      ==> s'.v.recovery == Requested && s'.v.recoveryGeneration == s'.v.mediaGeneration && s'.v.token != 0
  {
    if s.feeder.pc.FeedPush? && s.v.media.Some? && s.feeder.pc.mediaGeneration == s.v.mediaGeneration {
      ReportCharges(s, flow);
      ThirdFailureAsks(s.v, s.v.mediaGeneration, flow);
    }
  }

  /** The feeder leaves only when the server is stopping. */
  lemma FeederStays(s: System, step: Step)
    requires LifeInv(s) && s.v.running && s.feeder.alive
    ensures Apply(s, step).feeder.alive
  {
    match step
    case OfTask(t, act) => TaskIsFramed(s, t, act);
    case OfWorker(w) => WorkerIsFramed(s, w);
    case OfStart(l) =>
    case OfStop(l) =>
    case OfFeeder(f) =>
    case Enter(_, _, _) =>
  }

  lemma ReportCharges(s: System, flow: Flow)
    requires EventInv(s.events, s.v.failures, s.v.mediaGeneration) && s.feeder.pc.FeedPush?
    requires s.v.media.Some? && s.feeder.pc.mediaGeneration == s.v.mediaGeneration
    ensures var s' := ApplyFeeder(s, FeedReport(flow));
      && s'.v == PushReported(s.v, s.v.mediaGeneration, flow)
      && ChargedRun(s'.events) == s'.v.failures && (flow != FlowError ==> s'.v.failures == 0)
  {
    ReportKeepsEvents(s.v, s.events, s.v.mediaGeneration, flow);
  }

  /** With a source bound, a unit is passed on exactly when a decoder could start with it or it continues the
      stream that the feeder is in; anything else is skipped. */
  lemma UnitsArePassedOn(s: System, unit: Unit, memory: bool)
    requires s.feeder.alive && s.feeder.pc == FeedIdle && s.v.appsrc.Some?
    ensures var a, a' := s.attempts, ApplySnapshot(s, unit, memory).attempts;
      var continues := !s.feeder.awaiting && s.feeder.observedGeneration == s.v.generation
        && s.feeder.observedEncoder == unit.generation;
      && (|a'| == |a| + 1 <==> unit.IndependentlyDecodable() || continues) && a'[..|a|] == a
      && (|a'| == |a| + 1 ==> a'[|a|].pushed == (memory && unit.SizeBytes() > 0))
  {
  }

  // ----- Watchdog -----

  /** Media that the watchdog has to have torn down: asked for, in error, or too long on its way. */
  predicate Overdue(v: Server, ageUs: nat) {
    && v.media.Some?
    && (v.recovery == Requested || v.status == Errored
        || (v.status == Unpreparing && ageUs >= 3_000_000) || (v.status == Preparing && ageUs >= 10_000_000))
  }

  /** A watchdog body that looks goes on to recover the current media exactly when it is overdue. */
  lemma WatchdogGoesAfterOverdue(steps: seq<Step>, t: nat, ageUs: nat)
    ensures var s := Run(CREATED, steps); var s' := Apply(s, OfTask(t, WatchLook(ageUs)));
      t in s.tasks && s.tasks[t].pc == AtLook ==>
        && s'.v == s.v && t in s'.tasks
        && s'.tasks[t].pc == if Overdue(s.v, ageUs) then AtRecover(s.v.mediaGeneration) else AtExit
  {
    var s := Run(CREATED, steps);
    EveryRunKeepsInv(steps);
    if t in s.tasks && s.tasks[t].pc == AtLook {
      TargetOfOverdue(s.v, ageUs);
      LookMoves(s, t, ageUs);
    }
  }

  lemma LookMoves(s: System, t: nat, ageUs: nat)
    requires t in s.tasks && s.tasks[t].pc == AtLook
    ensures var s' := ApplyTask(s, t, WatchLook(ageUs)); var target := WatchdogTarget(s.v, ageUs);
      && s'.v == s.v && t in s'.tasks
      && s'.tasks[t].pc == if target == 0 then AtExit else AtRecover(target)
  {
  }

  lemma TargetOfOverdue(v: Server, ageUs: nat)
    requires RecoveryInv(v)
    ensures WatchdogTarget(v, ageUs) == if Overdue(v, ageUs) then v.mediaGeneration else 0
    ensures Overdue(v, ageUs) ==> v.mediaGeneration > 0
  {
  }

  /** It then begins the teardown if the server runs, the media is still that one, no recovery is under way and
      the worker's slot is free. */
  lemma RecoveryBeginsExactly(s: System, t: nat, expected: nat)
    requires t in s.tasks && s.tasks[t].pc == AtRecover(expected)
    ensures var v, v' := s.v, Apply(s, OfTask(t, WatchRecover(true))).v;
      var begins := v.running && v.media.Some? && v.mediaGeneration == expected
        && (v.recovery == Idle || v.recovery == Requested)
        && v.worker.handle && !v.worker.stopping && v.worker.pending.None?;
      && (|v'.jobs| == |v.jobs| + 1 <==> begins) && (begins ==> v'.recovery == Running)
  {
  }

  /** A request that has become stale is withdrawn instead. */
  lemma StaleRequestIsWithdrawn(s: System, t: nat, expected: nat)
    requires t in s.tasks && s.tasks[t].pc == AtRecover(expected)
    requires !s.v.running || s.v.media.None? || s.v.mediaGeneration != expected
    ensures var v' := Apply(s, OfTask(t, WatchRecover(true))).v;
      !(v'.recovery == Requested && v'.recoveryGeneration == expected) && v'.appsrc == s.v.appsrc
  {
  }

  lemma FinishReadyExactly(v: Server)
    requires ServerInv(v)
    ensures FinishReady(v) <==>
      && v.running && v.recovery == Running && v.media.None? && forall j | 0 <= j < |v.jobs| :: v.jobs[j].done
    ensures forall created :: ResumeReady(v, created) <==> v.running && v.recovery == Completed && created
  {
  }

  /** Over every run a recovery is finished as soon as a watchdog body finds its media gone and every teardown
      done, and the listener opens as soon as one can be created after that. */
  lemma RecoveryFinishesExactly(steps: seq<Step>, t: nat, created: bool)
    ensures var s := Run(CREATED, steps); var v := s.v;
      && (t in s.tasks && s.tasks[t].pc == AtFinish && v.running && v.recovery == Running ==>
            (Apply(s, OfTask(t, WatchFinish)).v.recovery == Completed <==>
             v.media.None? && forall j | 0 <= j < |v.jobs| :: v.jobs[j].done))
      && (t in s.tasks && s.tasks[t].pc == AtResume && !v.accepting ==>
            (Apply(s, OfTask(t, WatchResume(created))).v.accepting <==>
             v.running && v.recovery == Completed && created))
  {
    EveryRunKeepsInv(steps);
    var s := Run(CREATED, steps);
    FinishReadyExactly(s.v);
    if t in s.tasks { FinishAndResumeMove(s, t, created); }
  }

  lemma FinishAndResumeMove(s: System, t: nat, created: bool)
    requires t in s.tasks
    ensures s.tasks[t].pc == AtFinish && s.v.running ==> ApplyTask(s, t, WatchFinish).v == Finished(s.v)
    ensures s.tasks[t].pc == AtResume ==> ApplyTask(s, t, WatchResume(created)).v == Resumed(s.v, created)
  {
  }

  /** When a teardown cannot be dispatched, the request is withdrawn so that it can be made again, and neither
      the source nor the listener is touched. */
  lemma FailedDispatchIsRetryable(s: System, t: nat, expected: nat)
    requires t in s.tasks && s.tasks[t].pc == AtCatch(expected)
    ensures var v, v' := s.v, Apply(s, OfTask(t, WatchCatch)).v;
      && !(v'.recovery == Requested && v'.recoveryGeneration == expected)
      && (v.recovery == Requested && v.recoveryGeneration == expected ==> v'.recovery == Idle)
      && v'.appsrc == v.appsrc && v'.accepting == v.accepting && v'.media == v.media
  {
  }

  // ----- Media callbacks -----

  /** What each notification leaves behind for the media that is current: a failed setup and a bus error ask for
      its recovery, a prepare and a target state of NULL are recorded as its status. */
  lemma NotificationsAreRecorded(s: System, t: nat, media: nat)
    requires ServerInv(s.v) && t in s.tasks && s.v.media == Some(media)
    ensures var v' := Apply(s, OfTask(t, FinishBind)).v;
      && (s.tasks[t].pc == AfterBind(media, false, ThenConfigured) ==>
            v'.recovery == Requested && v'.recoveryGeneration == v'.mediaGeneration && v'.token == s.v.nextToken + 1)
      && (s.tasks[t].pc == AfterBind(media, true, ThenPrepared) ==> v'.status == Prepared && v'.failures == 0)
    ensures var v' := Apply(s, OfTask(t, Notify)).v;
      && (s.tasks[t].pc == AtBusError(media) ==>
            v'.recovery == Requested && v'.recoveryGeneration == v'.mediaGeneration && v'.status == Errored
            && v'.token == if s.v.recovery == Idle then s.v.nextToken + 1 else s.v.token)
      && (s.tasks[t].pc == AtTargetNull(media) ==> v'.status == Unpreparing)
      && (s.tasks[t].pc == AtUnprepared(media) ==>
            v'.media.None? && v'.appsrc.None? && v'.status == Unprepared
            && v'.recovery == if s.v.recovery == Running then Running else Idle)
  {
  }

  /** A source is bound exactly when its media is current and not under recovery; one whose element is bound
      already changes nothing, and any other starts a new generation. */
  lemma BindsExactly(s: System, t: nat, media: nat, r: Ref, after: After)
    requires ServerInv(s.v) && t in s.tasks && s.tasks[t].pc == AtBind(media, r, after)
    ensures var v, v' := s.v, Apply(s, OfTask(t, Bind)).v;
      var binds := v.media == Some(media) && v.recovery != Requested && v.recovery != Running;
      var bound := v.appsrc.Some? && v.appsrc.value.element == r.element;
      v' == if binds && !bound then v.(appsrc := Some(r), generation := v.generation + 1) else v
  {
  }

  // ----- Stop -----

  /** The stop thread knows which teardown it has to wait for. */
  ghost predicate WaitInv(s: System) {
    s.life.ListenerTaken? && s.v.recovery == Running && s.v.jobs != [] && !s.v.jobs[|s.v.jobs| - 1].done ==>
      s.life.waitFor == Some(|s.v.jobs| - 1)
  }

  /** A recovery runs only once it is published. */
  lemma WatchRunsByPublication(s: System, t: nat, act: Act)
    requires t in s.tasks
    ensures var v, v' := s.v, ApplyWatch(s, t, s.tasks[t].pc, act).v;
      v'.recovery == Running && v.recovery != Running ==> |v'.jobs| > |v.jobs|
    ensures !s.v.running ==> ApplyWatch(s, t, s.tasks[t].pc, act).v.jobs == s.v.jobs
  {
  }

  lemma CallbackKeepsJobs(s: System, t: nat, act: Act)
    requires t in s.tasks && !OfWatchdog(s.tasks[t].pc)
    ensures ApplyTask(s, t, act).v.jobs == s.v.jobs
  {
    match act
    case Configure =>
    case Acquire(_, _) =>
    case Bind =>
    case FinishBind =>
    case Notify => NotifyKeepsJobs(s, t);
    case Unrefs =>
    case Leave =>
    case _ =>
  }

  lemma NotifyKeepsJobs(s: System, t: nat)
    requires t in s.tasks
    ensures ApplyNotify(s, t, s.tasks[t].pc).v.jobs == s.v.jobs
  {
  }

  lemma TaskRunsByPublication(s: System, t: nat, act: Act)
    requires !s.v.running
    ensures var v, v' := s.v, ApplyTask(s, t, act).v;
      v'.jobs == v.jobs && (v'.recovery == Running ==> v.recovery == Running)
  {
    TaskIsFramed(s, t, act);
    if t in s.tasks {
      if OfWatchdog(s.tasks[t].pc) {
        WatchRunsByPublication(s, t, act);
        assert ApplyTask(s, t, act) == s || ApplyTask(s, t, act) == ApplyWatch(s, t, s.tasks[t].pc, act);
      } else {
        CallbackKeepsJobs(s, t, act);
      }
    }
  }

  lemma TaskKeepsWait(s: System, t: nat, act: Act)
    requires LifeInv(s) && WaitInv(s)
    ensures WaitInv(ApplyTask(s, t, act))
  {
    TaskIsFramed(s, t, act);
    if s.life.ListenerTaken? { TaskRunsByPublication(s, t, act); }
  }

  lemma WorkerKeepsWait(s: System, step: WorkStep)
    requires WaitInv(s)
    ensures WaitInv(ApplyWorker(s, step))
  {
    WorkerIsFramed(s, step);
  }

  lemma StepKeepsWait(s: System, step: Step)
    requires Inv(s) && WaitInv(s)
    ensures WaitInv(Apply(s, step))
  {
    match step
    case OfTask(t, act) => TaskKeepsWait(s, t, act);
    case OfWorker(w) => WorkerKeepsWait(s, w);
    case OfFeeder(f) => FeederKeepsWait(s, f);
    case OfStart(l) => StartKeepsWait(s, l);
    case OfStop(l) => StopKeepsWait(s, l);
    case Enter(_, _, _) =>
  }

  lemma FeederKeepsWait(s: System, step: FeedStep)
    requires WaitInv(s)
    ensures WaitInv(ApplyFeeder(s, step))
  {
    FeederIsFramed(s, step);
    FeederKeepsJobs(s, step);
  }

  lemma FeederKeepsJobs(s: System, step: FeedStep)
    ensures ApplyFeeder(s, step).v.jobs == s.v.jobs
  {
  }

  lemma StartKeepsWait(s: System, step: StartStep)
    requires WaitInv(s)
    ensures WaitInv(ApplyStart(s, step))
  {
  }

  lemma StopKeepsWait(s: System, step: StopStep)
    requires ServerInv(s.v) && WaitInv(s)
    ensures WaitInv(ApplyStop(s, step))
  {
  }

  lemma {:induction false} EveryRunKeepsWait(steps: seq<Step>)
    ensures WaitInv(Run(CREATED, steps))
  {
    if steps != [] {
      EveryRunKeepsWait(steps[..|steps| - 1]);
      EveryRunKeepsInv(steps[..|steps| - 1]);
      StepKeepsWait(Run(CREATED, steps[..|steps| - 1]), steps[|steps| - 1]);
    }
  }

  lemma AskedWhenDone(s: System)
    requires ServerInv(s.v) && WaitInv(s) && s.life.ListenerTaken? && s.v.recovery == Running
    requires ApplyStop(s, AskWorkerStop).life == WorkerAsked
    ensures forall j | 0 <= j < |s.v.jobs| :: s.v.jobs[j].done
  {
    AllDoneWithLast(s.v);
  }

  /** Over every run stop asks the worker to leave only when no recovery has an unfinished teardown. */
  lemma StopWaitsForTeardown(steps: seq<Step>)
    ensures var s := Run(CREATED, steps);
      s.life.ListenerTaken? && Apply(s, OfStop(AskWorkerStop)).life == WorkerAsked && s.v.recovery == Running ==>
        forall j | 0 <= j < |s.v.jobs| :: s.v.jobs[j].done
  {
    var s := Run(CREATED, steps);
    EveryRunKeepsInv(steps);
    EveryRunKeepsWait(steps);
    if s.life.ListenerTaken? && ApplyStop(s, AskWorkerStop).life == WorkerAsked && s.v.recovery == Running {
      AskedWhenDone(s);
    }
  }

  lemma AllDoneWithLast(v: Server)
    requires ServerInv(v) && (v.jobs != [] ==> v.jobs[|v.jobs| - 1].done)
    ensures forall j | 0 <= j < |v.jobs| :: v.jobs[j].done
  {
  }

  // ----- Media that works -----

  predicate Healthy(v: Server, media: nat) {
    v.media == Some(media) && (v.status == Preparing || v.status == Prepared)
  }

  /** The steps that take media away: its own unprepare, and the end of stop. */
  predicate TakesAway(s: System, step: Step, media: nat) {
    || step == OfStop(Retire)
    || (step.OfTask? && step.act == Notify && step.task in s.tasks && s.tasks[step.task].pc == AtUnprepared(media))
  }

  lemma TaskKeepsHealthy(s: System, t: nat, act: Act, media: nat)
    requires Healthy(s.v, media) && !TakesAway(s, OfTask(t, act), media)
    ensures ApplyTask(s, t, act).v.media == Some(media)
  {
    if t in s.tasks {
      match act
      case Configure =>
      case Acquire(_, _) =>
      case Bind =>
      case FinishBind =>
      case Notify =>
      case Unrefs =>
      case Leave =>
      case _ => WatchKeepsMedia(s, t, act);
    }
  }

  lemma WatchKeepsMedia(s: System, t: nat, act: Act)
    requires t in s.tasks
    ensures ApplyWatch(s, t, s.tasks[t].pc, act).v.media == s.v.media
  {
  }

  lemma LifecycleKeepsHealthy(s: System, start: StartStep, stop: StopStep, media: nat)
    requires LifeInv(s) && Healthy(s.v, media) && stop != Retire
    ensures ApplyStart(s, start).v.media == Some(media) && ApplyStop(s, stop).v.media == Some(media)
  {
  }

  lemma StepKeepsHealthy(s: System, step: Step, media: nat)
    requires LifeInv(s) && Healthy(s.v, media) && !TakesAway(s, step, media)
    ensures Apply(s, step).v.media == Some(media)
  {
    match step
    case OfStart(l) => LifecycleKeepsHealthy(s, l, StopBegin, media);
    case OfStop(l) => LifecycleKeepsHealthy(s, Start, l, media);
    case Enter(_, _, _) =>
    case OfTask(t, act) => TaskKeepsHealthy(s, t, act, media);
    case OfWorker(w) => WorkerIsFramed(s, w);
    case OfFeeder(f) => FeederIsFramed(s, f);
  }

  /** Over every run media that is being prepared or is prepared stays the current one, whatever is configured
      meanwhile, until it is unprepared or stop retires it, or until it is in neither status any more. */
  lemma HealthyMediaStays(steps: seq<Step>, step: Step, media: nat)
    requires Healthy(Run(CREATED, steps).v, media)
    ensures var s := Run(CREATED, steps);
      TakesAway(s, step, media) || Apply(s, step).v.media == Some(media)
  {
    EveryRunKeepsInv(steps);
    if !TakesAway(Run(CREATED, steps), step, media) { StepKeepsHealthy(Run(CREATED, steps), step, media); }
  }
}
