/** What holds over every run of the RTSP server, for any number of start/stop cycles and any
    interleaving of callbacks, watchdog, worker and feeder. */
module RtspTheorems {
  import opened Basics
  import opened RtspSections
  import opened RtspSystem
  import opened RtspInvariants
  import opened RtspOwnership
  import opened RtspFeeder

  lemma StartKeepsInv(s: System, step: StartStep)
    requires Inv(s)
    ensures Inv(ApplyStart(s, step))
  {
    StartKeepsServer(s, step);
    StartKeepsLife(s, step);
    StartKeepsEpochs(s, step);
    StartOwns(s, step);
    StartFeedFrame(s, step);
    LifeFeeds(s, ApplyStart(s, step));
  }

  lemma StopKeepsInv(s: System, step: StopStep)
    requires Inv(s)
    ensures Inv(ApplyStop(s, step))
  {
    StopKeepsServer(s, step);
    StopKeepsLife(s, step);
    StopIsFramed(s, step);
    StopKeepsEpochs(s, ApplyStop(s, step));
    StopOwns(s, step);
    StopFeedFrame(s, step);
    LifeFeeds(s, ApplyStop(s, step));
  }

  lemma TaskKeepsInv(s: System, t: nat, act: Act)
    requires Inv(s)
    ensures Inv(ApplyTask(s, t, act))
  {
    var s' := ApplyTask(s, t, act);
    TaskIsFramed(s, t, act);
    if s' != s {
      TaskKeepsServer(s, t, act);
      TaskKeepsLife(s, t, s');
      TaskKeepsEpochs(s, t, s');
      TaskOwns(s, t, act);
      TaskFeeds(s, t, s');
    }
  }

  lemma WorkerKeepsInv(s: System, step: WorkStep)
    requires Inv(s)
    ensures Inv(ApplyWorker(s, step))
  {
    var s' := ApplyWorker(s, step);
    WorkerIsFramed(s, step);
    WorkerKeepsServer(s, step);
    WorkerKeepsLife(s, s');
    WorkerOwns(s, step);
    WorkerFeeds(s, s');
  }

  lemma FeederKeepsInv(s: System, step: FeedStep)
    requires Inv(s)
    ensures Inv(ApplyFeeder(s, step))
  {
    var s' := ApplyFeeder(s, step);
    FeederIsFramed(s, step);
    FeederKeepsServer(s, step);
    FeederKeepsLife(s, s');
    FeederOwns(s, step);
    FeederFeeds(s, step);
  }

  lemma EnterKeepsInv(s: System, t: nat, epoch: nat, pc: Pc)
    requires Inv(s)
    ensures Inv(ApplyEnter(s, t, epoch, pc))
  {
    EnterKeepsLife(s, t, epoch, pc);
    EnterKeepsEpochs(s, t, epoch, pc);
    EnterOwns(s, t, epoch, pc);
  }

  lemma ApplyKeepsInv(s: System, step: Step)
    requires Inv(s)
    ensures Inv(Apply(s, step))
  {
    match step
    case OfStart(l) => StartKeepsInv(s, l);
    case OfStop(l) => StopKeepsInv(s, l);
    case Enter(t, epoch, pc) => EnterKeepsInv(s, t, epoch, pc);
    case OfTask(t, act) => TaskKeepsInv(s, t, act);
    case OfWorker(w) => WorkerKeepsInv(s, w);
    case OfFeeder(f) => FeederKeepsInv(s, f);
  }

  lemma CreatedInv()
    ensures Inv(CREATED)
  {
    assert CREATED.tasks == map[];
  }

  lemma {:induction false} RunKeepsInv(s: System, steps: seq<Step>)
    requires Inv(s)
    ensures Inv(Run(s, steps))
  {
    if steps != [] {
      RunKeepsInv(s, steps[..|steps| - 1]);
      ApplyKeepsInv(Run(s, steps[..|steps| - 1]), steps[|steps| - 1]);
    }
  }

  lemma EveryRunKeepsInv(steps: seq<Step>)
    ensures Inv(Run(CREATED, steps))
  {
    CreatedInv();
    RunKeepsInv(CREATED, steps);
  }

  // ----- Recovery -----

  /** Running and Completed mean that the source is gone and the listener closed; a request stands
      for the media that is current; Completed means that no media is left. */
  lemma RecoveryStates(steps: seq<Step>)
    ensures var v := Run(CREATED, steps).v;
      && (v.recovery == Running || v.recovery == Completed ==> v.appsrc.None? && !v.listener && !v.accepting)
      && (v.recovery == Requested ==> v.media.Some? && v.recoveryGeneration == v.mediaGeneration && v.token != 0)
      && (v.recovery == Completed ==> v.media.None?)
  {
    EveryRunKeepsInv(steps);
  }

  /** Which steps publish a job or open the listener. */
  lemma NotableSteps(s: System, step: Step)
    requires s.epochs != []
    ensures |Apply(s, step).v.jobs| == |s.v.jobs|
            || exists expected :: RecoverWants(s.v, expected) && Apply(s, step).v == Recovering(s.v, expected)
    ensures (Apply(s, step).v.accepting ==> s.v.accepting) || s.life == WorkerUp
            || Apply(s, step).v == Resumed(s.v, true)
  {
    match step
    case OfTask(t, act) => TaskIsFramed(s, t, act);
    case OfStop(l) => StopIsFramed(s, l);
    case OfWorker(w) => WorkerIsFramed(s, w);
    case OfFeeder(f) => FeederIsFramed(s, f);
    case _ =>
  }

  /** No teardown is ever published for a generation other than the current one, nor in answer to a
      request made for another. */
  lemma JobsAreForTheCurrentMedia(steps: seq<Step>, step: Step)
    ensures var v, v' := Run(CREATED, steps).v, Apply(Run(CREATED, steps), step).v;
      |v'.jobs| != |v.jobs| ==>
        && |v'.jobs| == |v.jobs| + 1 && v.media.Some?
        && v'.jobs[|v.jobs|].generation == v.mediaGeneration
        && (v.recovery == Requested ==> v.recoveryGeneration == v'.jobs[|v.jobs|].generation)
  {
    var s := Run(CREATED, steps);
    EveryRunKeepsInv(steps);
    NotableSteps(s, step);
    if |Apply(s, step).v.jobs| != |s.v.jobs| {
      var expected :| RecoverWants(s.v, expected) && Apply(s, step).v == Recovering(s.v, expected);
      JobsMatchTheirGeneration(s.v, expected);
    }
  }

  /** Apart from the opening in start, before any recovery of that epoch can have begun, clients are
      accepted again only when no media is current, no source is bound and every teardown job
      published so far has finished. */
  lemma ReopensSafely(steps: seq<Step>, step: Step)
    ensures var s, v' := Run(CREATED, steps), Apply(Run(CREATED, steps), step).v;
      !s.v.accepting && v'.accepting ==>
      || (s.life == WorkerUp && !s.watchdog)
      || (v'.media.None? && v'.appsrc.None? && forall j :: 0 <= j < |v'.jobs| ==> v'.jobs[j].done)
  {
    var s := Run(CREATED, steps);
    EveryRunKeepsInv(steps);
    NotableSteps(s, step);
    if !s.v.accepting && Apply(s, step).v.accepting && s.life != WorkerUp { ResumeIsSafe(s.v, true); }
  }

  // ----- References -----

  /** At every moment each reference ever taken is in exactly one variable and not yet released, or
      in none and released exactly once. */
  lemma ReferencesAreLinear(steps: seq<Step>, id: nat)
    requires id < Run(CREATED, steps).ledger.taken
    ensures var s := Run(CREATED, steps); var h := HoldersOf(s);
      if id in s.ledger.released then
        (forall p :: id !in Held(h, p)) && multiset(s.ledger.released)[id] == 1
      else exists p :: id in Held(h, p) && forall q :: id in Held(h, q) ==> q == p
  {
    EveryRunKeepsInv(steps);
    var s := Run(CREATED, steps);
    if id in s.ledger.released {
      DistinctOnce(s.ledger.released, id);
    } else {
      assert id in Held(HoldersOf(s), s.ledger.place[id]);
    }
  }

  lemma {:induction false} DistinctOnce(s: seq<nat>, x: nat)
    requires x in s && forall i, j :: 0 <= i < j < |s| ==> s[i] != s[j]
    ensures multiset(s)[x] == 1
  {
    var n := |s| - 1;
    assert s == s[..n] + [s[n]];
    if s[n] == x {
      assert x !in s[..n];
    } else {
      assert x in s[..n];
      DistinctOnce(s[..n], x);
    }
  }

  /** When stop has returned, every reference ever taken has been released exactly once: the worker
      drained its slot before it was joined, and every callback let go of its locals. */
  lemma StopReleasesEverything(steps: seq<Step>, id: nat)
    requires Run(CREATED, steps).life == Stopped && id < Run(CREATED, steps).ledger.taken
    ensures multiset(Run(CREATED, steps).ledger.released)[id] == 1
    ensures forall p :: id !in Held(HoldersOf(Run(CREATED, steps)), p)
  {
    var s := Run(CREATED, steps);
    EveryRunKeepsInv(steps);
    forall p ensures Held(HoldersOf(s), p) == {} {
      match p
      case InJob(j) => if j < |s.v.jobs| { assert s.v.jobs[j].done; }
      case _ =>
    }
    ReferencesAreLinear(steps, id);
  }

  // ----- Callback epochs -----

  ghost predicate Quiet(s: System, e: nat) {
    && 0 < e < |s.epochs| && !s.epochs[e].enabled
    && forall t :: t in s.tasks ==> s.tasks[t].epoch != e
  }

  lemma LifecycleKeepsQuiet(s: System, start: StartStep, stop: StopStep, e: nat)
    requires Inv(s) && Quiet(s, e)
    ensures Quiet(ApplyStart(s, start), e) && Quiet(ApplyStop(s, stop), e)
  {
    StopIsFramed(s, stop);
  }

  lemma TaskKeepsQuiet(s: System, t: nat, s': System, e: nat)
    requires EpochInv(s.epochs, s.tasks, s.life) && Quiet(s, e) && TaskFrame(s, t, s')
    ensures Quiet(s', e)
  {
  }

  lemma EnterKeepsQuiet(s: System, t: nat, epoch: nat, pc: Pc, e: nat)
    requires Quiet(s, e)
    ensures Quiet(ApplyEnter(s, t, epoch, pc), e)
  {
  }

  lemma StepKeepsQuiet(s: System, step: Step, e: nat)
    requires Inv(s) && Quiet(s, e)
    ensures Quiet(Apply(s, step), e)
  {
    match step
    case OfStart(l) => LifecycleKeepsQuiet(s, l, StopBegin, e);
    case OfStop(l) => LifecycleKeepsQuiet(s, Start, l, e);
    case Enter(t, epoch, pc) => EnterKeepsQuiet(s, t, epoch, pc, e);
    case OfTask(t, act) =>
      TaskIsFramed(s, t, act);
      if ApplyTask(s, t, act) != s { TaskKeepsQuiet(s, t, ApplyTask(s, t, act), e); }
    case OfWorker(w) => WorkerIsFramed(s, w);
    case OfFeeder(f) => FeederIsFramed(s, f);
  }

  lemma {:induction false} QuietForever(s: System, steps: seq<Step>, e: nat)
    requires Inv(s) && Quiet(s, e)
    ensures Quiet(Run(s, steps), e)
  {
    if steps != [] {
      QuietForever(s, steps[..|steps| - 1], e);
      RunKeepsInv(s, steps[..|steps| - 1]);
      StepKeepsQuiet(Run(s, steps[..|steps| - 1]), steps[|steps| - 1], e);
    }
  }

  /** Once disableCallbacksAndWait has returned, no body of that epoch is running and none ever will,
      whatever happens next, including later starts with fresh epochs. */
  lemma EpochsQuiesce(before: seq<Step>, after: seq<Step>, e: nat)
    requires Run(CREATED, before).life == Drained && e + 1 == |Run(CREATED, before).epochs|
    ensures Quiet(Run(Run(CREATED, before), after), e)
  {
    EveryRunKeepsInv(before);
    QuietForever(Run(CREATED, before), after, e);
  }

  // ----- Feeder -----

  /** Whenever the source binding or the encoder generation differs from the previous attempt, the
      unit is decodable and its offset is 0; otherwise its offset follows on or the stream starts
      over. One value of generation_ always means one source. */
  lemma StreamsStartDecodable(steps: seq<Step>, k: nat)
    requires k < |Run(CREATED, steps).attempts|
    ensures var a := Run(CREATED, steps).attempts;
      && (k == 0 || a[k].generation != a[k - 1].generation || a[k].encoder != a[k - 1].encoder ==>
            a[k].decodable && a[k].offset == 0)
      && (a[k].offset > 0 ==> k > 0 && a[k].offset == a[k - 1].offset + 1)
      && (forall j :: 0 <= j < |a| && a[j].generation == a[k].generation ==> a[j].source == a[k].source)
  {
    var s := Run(CREATED, steps);
    EveryRunKeepsInv(steps);
    AttemptsStart(s.attempts, s.feeder, k);
    AttemptsShareSource(s.attempts, s.v.generation, s.v.appsrc, k);
  }

  lemma AttemptsStart(a: seq<Attempt>, f: Feeder, k: nat)
    requires k < |a| && ChainInv(a, f)
    ensures k == 0 || a[k].generation != a[k - 1].generation || a[k].encoder != a[k - 1].encoder ==>
              a[k].decodable && a[k].offset == 0
    ensures a[k].offset > 0 ==> k > 0 && a[k].offset == a[k - 1].offset + 1
  {
    assert Chained(a, k);
  }

  lemma AttemptsShareSource(a: seq<Attempt>, generation: nat, appsrc: Option<Ref>, k: nat)
    requires k < |a| && SourceInv(a, generation, appsrc)
    ensures forall j :: 0 <= j < |a| && a[j].generation == a[k].generation ==> a[j].source == a[k].source
  {
  }

  /** From position `i` on the log holds push results only, and every one that belongs to the media then
      current is a failure of generation `g`: no success, flush, configuration, re-prepare, unprepare,
      recovery start, start or stop among them. */
  ghost predicate Uninterrupted(ev: seq<FeedEvent>, i: nat, g: nat) {
    i <= |ev| && forall k | i <= k < |ev| ::
      ev[k].Reported? && (ev[k].current ==> ev[k].flow == FlowError && ev[k].mediaGeneration == g)
  }

  /** How many results from `i` on belong to the media then current. */
  function Charges(ev: seq<FeedEvent>, i: nat): nat {
    if |ev| <= i then 0
    else Charges(ev[..|ev| - 1], i) + if ev[|ev| - 1].Reported? && ev[|ev| - 1].current then 1 else 0
  }

  /** What the counter counts. */
  lemma {:induction false} ChargedSuffix(ev: seq<FeedEvent>, g: nat) returns (i: nat)
    requires ChargedTo(ev, g)
    ensures Uninterrupted(ev, i, g) && Charges(ev, i) == ChargedRun(ev)
  {
    i := |ev|;
    if ev != [] && ev[|ev| - 1].Reported? && (ev[|ev| - 1].current ==> ev[|ev| - 1].flow == FlowError) {
      i := ChargedSuffix(ev[..|ev| - 1], g);
    }
  }

  /** The feeder touches the recovery state only after three failures in a row charged to the media
      that is current, with nothing between them that would clear the account. */
  lemma FailuresAreAttributed(steps: seq<Step>, flow: Flow)
    ensures var s := Run(CREATED, steps); var s' := Apply(s, OfFeeder(FeedReport(flow)));
      (s'.v.recovery, s'.v.token, s'.v.recoveryGeneration) != (s.v.recovery, s.v.token, s.v.recoveryGeneration) ==>
        && s.v.media.Some?
        && exists i :: Uninterrupted(s'.events, i, s.v.mediaGeneration) && Charges(s'.events, i) >= 3
  {
    var s := Run(CREATED, steps);
    var s' := Apply(s, OfFeeder(FeedReport(flow)));
    EveryRunKeepsInv(steps);
    FeederKeepsInv(s, FeedReport(flow));
    if s.feeder.pc.FeedPush? { ReportThreshold(s.v, s.feeder.pc.mediaGeneration, flow); }
    var i := ChargedSuffix(s'.events, s'.v.mediaGeneration);
  }

  lemma ReportThreshold(v: Server, g: nat, flow: Flow)
    ensures var v' := PushReported(v, g, flow);
      && v'.mediaGeneration == v.mediaGeneration
      && ((v'.recovery, v'.token, v'.recoveryGeneration) != (v.recovery, v.token, v.recoveryGeneration) ==>
            v.media.Some? && v'.failures >= 3)
  {
  }

  /** A result that belongs to an older media changes nothing but the record of it. */
  lemma StaleResultIsIgnored(s: System, flow: Flow)
    requires s.feeder.pc.FeedPush? && s.feeder.pc.mediaGeneration != s.v.mediaGeneration
    ensures var s' := Apply(s, OfFeeder(FeedReport(flow)));
      s'.v == s.v && ChargedRun(s'.events) == ChargedRun(s.events)
  {
    var ev := s.events + [Reported(s.feeder.pc.mediaGeneration, flow, false)];
    assert ev[..|ev| - 1] == s.events;
  }
}
