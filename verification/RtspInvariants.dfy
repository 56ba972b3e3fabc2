/** What every interleaving of the RTSP server keeps. Each invariant is about a few components of
    the state, and each is shown to survive every step on its own. */
module RtspInvariants {
  import opened Basics
  import opened AccessUnits
  import opened RtspSections
  import opened RtspSystem

  // ----- Lifecycle -----

  ghost predicate NoWatchdogTask(tasks: map<nat, Task>) {
    forall t :: t in tasks ==> !OfWatchdog(tasks[t].pc)
  }

  ghost predicate LifeInv(s: System) {
    && (s.v.running <==> 1 <= Stage(s.life) <= 6)
    && (s.v.worker.alive ==> 3 <= Stage(s.life) <= 10)
    && (s.v.worker.handle ==> 3 <= Stage(s.life) <= 9)
    && (s.feeder.alive ==> 6 <= Stage(s.life) <= 7)
    && (!s.feeder.alive ==> s.feeder.pc == FeedIdle)
    && (Stage(s.life) == 0 || Stage(s.life) == 14 ==> s.v.appsrc.None? && s.v.media.None?)
    && (s.stopRef.Some? ==> s.life == Retiring)
    && (1 <= Stage(s.life) <= 4 ==> !s.watchdog)
    && (!s.watchdog ==> s.v.recovery != Running && s.v.recovery != Completed && NoWatchdogTask(s.tasks))
  }

  // ----- Callback epochs -----

  /** Only the newest epoch can have bodies inside, its counter counts them, and once stop has
      switched it off and waited there are none. */
  ghost predicate EpochInv(epochs: seq<Epoch>, tasks: map<nat, Task>, life: Life) {
    && |epochs| > 0
    && (forall e :: 0 <= e < |epochs| - 1 ==> epochs[e].active == 0 && (e > 0 ==> !epochs[e].enabled))
    && (forall t :: t in tasks ==> tasks[t].epoch == |epochs| - 1 > 0)
    && epochs[|epochs| - 1].active == |tasks|
    && ((Stage(life) >= 12 || Stage(life) == 0) && |epochs| > 1 ==> !epochs[|epochs| - 1].enabled)
    && (Stage(life) >= 13 || Stage(life) == 0 ==> tasks == map[])
    && (Stage(life) > 0 ==> |epochs| > 1)
  }

  // ----- References -----

  /** The program variables that can hold an appsrc reference. */
  datatype Holders = Holders(
    field: Option<Ref>, jobs: seq<Job>, tasks: map<nat, Task>, feeder: Option<Ref>, stop: Option<Ref>)

  function HoldersOf(s: System): Holders {
    Holders(s.v.appsrc, s.v.jobs, s.tasks, FeederRef(s.feeder), s.stopRef)
  }

  /** The references a callback body at `pc` has to let go of before it ends. */
  function Locals(pc: Pc): set<nat> {
    match pc
    case AtDropPrevious(_, previousSource) => Id(previousSource)
    case AtReject(_, source, _) => {source.id}
    case AtBind(_, source, _) => {source.id}
    case AtDropSource(_, source, _, changed, previous, _) => if changed then Id(previous) else {source.id}
    case AtDropBound(_, _, previous, _) => Id(previous)
    case AtDropRetired(retiredSource) => Id(retiredSource)
    case _ => {}
  }

  function Held(h: Holders, p: Place): set<nat> {
    match p
    case Field => Id(h.field)
    case InJob(j) => if j < |h.jobs| then Id(h.jobs[j].source) else {}
    case InTask(t) => if t in h.tasks then Locals(h.tasks[t].pc) else {}
    case InFeeder => Id(h.feeder)
    case InStop => Id(h.stop)
  }

  /** The variables and the ownership map say the same, in both directions. */
  ghost predicate HeldAs(h: Holders, place: map<nat, Place>) {
    && (forall p, id :: id in Held(h, p) ==> id in place && place[id] == p)
    && (forall id :: id in place ==> id in Held(h, place[id]))
  }

  /** Every reference taken is still placed or has been released, never both and never twice. */
  ghost predicate LedgerInv(l: Ledger) {
    && (forall id :: id in l.place ==> id < l.taken && id !in l.released)
    && (forall id :: 0 <= id < l.taken ==> id in l.place || id in l.released)
    && (forall id :: id in l.released ==> id < l.taken)
    && (forall i, j :: 0 <= i < j < |l.released| ==> l.released[i] != l.released[j])
  }

  /** So each is held by exactly one variable or has been released exactly once. */
  ghost predicate OwnInv(h: Holders, l: Ledger) { HeldAs(h, l.place) && LedgerInv(l) }

  /** A source that was bound had been accepted, and only then is there a previous one. */
  predicate BindResult(pc: Pc) {
    pc.AtDropSource? ==> (pc.changed ==> pc.accepted) && (!pc.changed ==> pc.previous.None?)
  }

  ghost predicate BindInv(tasks: map<nat, Task>) {
    forall t :: t in tasks ==> BindResult(tasks[t].pc)
  }

  // ----- Feeder -----

  /** An attempt starts a stream with a decodable unit at offset 0, or continues the one before. */
  ghost predicate Chained(a: seq<Attempt>, k: nat)
    requires k < |a|
  {
    || (a[k].offset == 0 && a[k].decodable)
    || (k > 0 && a[k].generation == a[k - 1].generation && a[k].encoder == a[k - 1].encoder
        && a[k].offset == a[k - 1].offset + 1)
  }

  ghost predicate ChainInv(a: seq<Attempt>, f: Feeder) {
    && (forall k :: 0 <= k < |a| ==> Chained(a, k))
    && (f.awaiting ==> f.frameIndex == 0)
    && (!f.awaiting ==>
          a != [] && a[|a| - 1].generation == f.observedGeneration && a[|a| - 1].encoder == f.observedEncoder
          && a[|a| - 1].offset + 1 == f.frameIndex)
  }

  /** A value of generation_ stands for one binding of appsrc_. */
  ghost predicate SourceInv(a: seq<Attempt>, generation: nat, appsrc: Option<Ref>) {
    && (forall k :: 0 <= k < |a| ==>
          a[k].generation <= generation && (a[k].generation == generation ==> appsrc == Some(a[k].source)))
    && (forall j, k :: 0 <= j < k < |a| && a[j].generation == a[k].generation ==> a[j].source == a[k].source)
  }

  // ----- Push failures -----

  /** Failures charged since a success, a flush or an event other than a push result; results of older
      media are skipped. */
  function ChargedRun(ev: seq<FeedEvent>): nat {
    if ev == [] then 0
    else
      var rest := ev[..|ev| - 1];
      match ev[|ev| - 1]
      case Reported(_, flow, current) =>
        if !current then ChargedRun(rest) else if flow == FlowError then ChargedRun(rest) + 1 else 0
      case _ => 0
  }

  /** All of those failures belong to media generation `g`. */
  predicate ChargedTo(ev: seq<FeedEvent>, g: nat) {
    if ev == [] then true
    else
      var rest := ev[..|ev| - 1];
      match ev[|ev| - 1]
      case Reported(m, flow, current) =>
        if !current then ChargedTo(rest, g) else if flow == FlowError then m == g && ChargedTo(rest, g) else true
      case _ => true
  }

  ghost predicate EventInv(ev: seq<FeedEvent>, failures: nat, mediaGeneration: nat) {
    failures == ChargedRun(ev) && ChargedTo(ev, mediaGeneration)
  }

  ghost predicate Inv(s: System) {
    && ServerInv(s.v)
    && LifeInv(s)
    && EpochInv(s.epochs, s.tasks, s.life)
    && OwnInv(HoldersOf(s), s.ledger)
    && BindInv(s.tasks)
    && ChainInv(s.attempts, s.feeder)
    && SourceInv(s.attempts, s.v.generation, s.v.appsrc)
    && EventInv(s.events, s.v.failures, s.v.mediaGeneration)
  }

  // ----- Server sections -----

  lemma WorkerTakes(job: Option<nat>, jobs: seq<Job>, w: Worker)
    requires JobInv(job, jobs, w) && w.alive && w.busy.None? && w.pending.Some?
    ensures JobInv(job, jobs, w.(busy := w.pending, pending := None))
  {
  }

  lemma WorkerLetsGo(job: Option<nat>, jobs: seq<Job>, w: Worker, j: nat)
    requires JobInv(job, jobs, w) && w.busy == Some(j) && j < |jobs|
    ensures JobInv(job, jobs[j := jobs[j].(source := None)], w)
  {
  }

  lemma WorkerFinishes(job: Option<nat>, jobs: seq<Job>, w: Worker, j: nat)
    requires JobInv(job, jobs, w) && w.busy == Some(j) && j < |jobs| && jobs[j].source.None?
    ensures JobInv(job, jobs[j := jobs[j].(done := true)], w.(busy := None))
  {
  }

  lemma WorkerExits(job: Option<nat>, jobs: seq<Job>, w: Worker)
    requires JobInv(job, jobs, w) && w.busy.None? && w.pending.None? && w.stopping
    ensures JobInv(job, jobs, w.(alive := false))
  {
  }

  ghost predicate Working(v: Server) { JobInv(v.job, v.jobs, v.worker) }

  lemma TakeKeepsJobs(s: System)
    requires Working(s.v)
    ensures Working(ApplyWorker(s, WorkerTake).v)
  {
    var w := s.v.worker;
    if w.alive && w.busy.None? && w.pending.Some? { WorkerTakes(s.v.job, s.v.jobs, w); }
  }

  lemma UnrefKeepsJobs(s: System)
    requires Working(s.v)
    ensures Working(ApplyWorker(s, WorkerUnref).v)
  {
    var w := s.v.worker;
    if w.busy.Some? && w.busy.value < |s.v.jobs| { WorkerLetsGo(s.v.job, s.v.jobs, w, w.busy.value); }
  }

  lemma DoneKeepsJobs(s: System)
    requires Working(s.v)
    ensures Working(ApplyWorker(s, WorkerDone).v)
  {
    var w := s.v.worker;
    if w.busy.Some? && w.busy.value < |s.v.jobs| && s.v.jobs[w.busy.value].source.None? {
      WorkerFinishes(s.v.job, s.v.jobs, w, w.busy.value);
    }
  }

  lemma ExitKeepsJobs(s: System)
    requires Working(s.v)
    ensures Working(ApplyWorker(s, WorkerExit).v)
  {
    var w := s.v.worker;
    if w.stopping && w.busy.None? && w.pending.None? { WorkerExits(s.v.job, s.v.jobs, w); }
  }

  lemma WorkerKeepsJobs(s: System, step: WorkStep)
    requires Working(s.v)
    ensures Working(ApplyWorker(s, step).v)
  {
    match step
    case WorkerTake => TakeKeepsJobs(s);
    case WorkerUnref => UnrefKeepsJobs(s);
    case WorkerDone => DoneKeepsJobs(s);
    case WorkerExit => ExitKeepsJobs(s);
  }

  lemma WorkerKeepsServer(s: System, step: WorkStep)
    requires ServerInv(s.v)
    ensures ServerInv(ApplyWorker(s, step).v)
  {
    WorkerKeepsJobs(s, step);
  }

  lemma StartKeepsServer(s: System, step: StartStep)
    requires ServerInv(s.v) && LifeInv(s)
    ensures ServerInv(ApplyStart(s, step).v)
  {
    if step.Start? { LifecycleSectionsKeep(s.v); }
  }

  lemma StopKeepsServer(s: System, step: StopStep)
    requires ServerInv(s.v)
    ensures ServerInv(ApplyStop(s, step).v)
  {
    LifecycleSectionsKeep(s.v);
  }

  lemma WatchKeepsServer(s: System, t: nat, pc: Pc, act: Act)
    requires ServerInv(s.v) && t in s.tasks
    ensures ServerInv(ApplyWatch(s, t, pc, act).v)
  {
    match act
    case WatchFinish => WatchdogSectionsKeep(s.v, 0, false);
    case WatchResume(created) => WatchdogSectionsKeep(s.v, 0, created);
    case WatchRecover(_) => if pc.AtRecover? { WatchdogSectionsKeep(s.v, pc.expected, false); }
    case WatchCatch => if pc.AtCatch? { WatchdogSectionsKeep(s.v, pc.expected, false); }
    case _ =>
  }

  lemma TaskKeepsServer(s: System, t: nat, act: Act)
    requires ServerInv(s.v)
    ensures ServerInv(ApplyTask(s, t, act).v)
  {
    if t in s.tasks {
      var pc := s.tasks[t].pc;
      match act
      case Configure => if pc.AtConfigure? { ConfiguredKeeps(s.v, pc.media); }
      case Bind => if pc.AtBind? && BindAccepts(s.v, pc.media) { BoundKeeps(s.v, pc.media, pc.source); }
      case FinishBind => if pc.AfterBind? { RequestsKeep(s.v, pc.media); StatusesKeep(s.v, pc.media); }
      case Notify =>
        if pc.AtUnprepared? { UnpreparedKeeps(s.v, pc.media); }
        if pc.AtBusError? { RequestsKeep(s.v, pc.media); }
        if pc.AtTargetNull? { StatusesKeep(s.v, pc.media); }
      case Acquire(_, _) =>
      case Unrefs =>
      case Leave =>
      case _ => WatchKeepsServer(s, t, pc, act);
    }
  }

  lemma FeederKeepsServer(s: System, step: FeedStep)
    requires ServerInv(s.v)
    ensures ServerInv(ApplyFeeder(s, step).v)
  {
    match step
    case FeedReport(flow) =>
      if s.feeder.pc.FeedPush? { FeederSectionKeeps(s.v, s.feeder.pc.mediaGeneration, flow); }
    case _ => assert ApplyFeeder(s, step).v == s.v;
  }

  // ----- What each kind of step can change -----

  /** appsrc_ never changes without generation_ growing. */
  predicate SourceStep(v: Server, v': Server) {
    v'.generation > v.generation || (v'.generation == v.generation && v'.appsrc == v.appsrc)
  }

  /** The failure counter stays, or starts again from 0. */
  predicate CounterStep(s: System, s': System) {
    || (s'.events == s.events && s'.v.failures == s.v.failures && s'.v.mediaGeneration == s.v.mediaGeneration)
    || (|s'.events| == |s.events| + 1 && s'.events[..|s.events|] == s.events
        && !s'.events[|s.events|].Reported? && s'.v.failures == 0)
  }

  predicate EpochStep(s: System, t: nat, s': System) {
    if t in s'.tasks then s'.epochs == s.epochs
    else
      t in s.tasks && s'.epochs == Exited(s.epochs, s.tasks[t].epoch)
  }

  /** Teardown jobs are only ever published by recoverMedia. */
  predicate PublishStep(v: Server, pc: Pc, v': Server) {
    |v'.jobs| == |v.jobs| || (pc.AtRecover? && RecoverWants(v, pc.expected) && v' == Recovering(v, pc.expected))
  }

  /** Clients are only ever accepted again by finishRecoveryIfReady. */
  predicate ReopenStep(v: Server, v': Server) {
    (v'.accepting ==> v.accepting) || v' == Resumed(v, true)
  }

  /** A callback step: its own body moves on, and only a watchdog body starts a recovery. */
  ghost predicate TaskFrame(s: System, t: nat, s': System) {
    && s'.life == s.life && s'.watchdog == s.watchdog && s'.feeder == s.feeder
    && s'.stopRef == s.stopRef && s'.attempts == s.attempts
    && s'.v.running == s.v.running
    && s'.v.worker.alive == s.v.worker.alive && s'.v.worker.handle == s.v.worker.handle
    && t in s.tasks
    && (t !in s'.tasks ==> s'.tasks == s.tasks - {t})
    && (t in s'.tasks ==>
          && s'.tasks == s.tasks[t := s'.tasks[t]]
          && s'.tasks[t].epoch == s.tasks[t].epoch
          && (OfWatchdog(s'.tasks[t].pc) ==> OfWatchdog(s.tasks[t].pc)))
    && (s'.v.recovery == Running || s'.v.recovery == Completed ==>
          s'.v.recovery == s.v.recovery || OfWatchdog(s.tasks[t].pc))
    && SourceStep(s.v, s'.v) && CounterStep(s, s') && EpochStep(s, t, s')
    && PublishStep(s.v, s.tasks[t].pc, s'.v) && ReopenStep(s.v, s'.v)
  }

  /** The shape of every callback step but the last: its body moves on, the server's fields become
      `v`, and references and the counter are accounted for. */
  lemma MoveFrame(s: System, t: nat, pc: Pc, v: Server, l: Ledger, events: seq<FeedEvent>)
    requires t in s.tasks
    requires OfWatchdog(pc) ==> OfWatchdog(s.tasks[t].pc)
    requires v.running == s.v.running
    requires v.worker.alive == s.v.worker.alive && v.worker.handle == s.v.worker.handle
    requires v.recovery == Running || v.recovery == Completed ==>
               v.recovery == s.v.recovery || OfWatchdog(s.tasks[t].pc)
    requires SourceStep(s.v, v) && PublishStep(s.v, s.tasks[t].pc, v) && ReopenStep(s.v, v)
    requires if events == s.events then v.failures == s.v.failures && v.mediaGeneration == s.v.mediaGeneration
             else |events| == |s.events| + 1 && events[..|s.events|] == s.events
                  && !events[|s.events|].Reported? && v.failures == 0
    ensures TaskFrame(s, t, s.(v := v, tasks := Moved(s, t, pc), ledger := l, events := events))
  {
  }

  lemma GotoFrame(s: System, t: nat, pc: Pc, v: Server)
    requires t in s.tasks && (OfWatchdog(pc) ==> OfWatchdog(s.tasks[t].pc))
    requires v.running == s.v.running && v.worker == s.v.worker
    requires v.generation == s.v.generation && v.appsrc == s.v.appsrc
    requires v.failures == s.v.failures && v.mediaGeneration == s.v.mediaGeneration
    requires v.jobs == s.v.jobs && ReopenStep(s.v, v)
    requires v.recovery == Running || v.recovery == Completed ==>
               v.recovery == s.v.recovery || OfWatchdog(s.tasks[t].pc)
    ensures TaskFrame(s, t, Goto(s, t, pc, v))
  {
    MoveFrame(s, t, pc, v, s.ledger, s.events);
  }

  lemma ConfigureFrame(s: System, t: nat, media: nat, factory: nat)
    requires t in s.tasks
    ensures TaskFrame(s, t, ApplyConfigure(s, t, media, factory))
  {
    if ConfigureAccepts(s.v, factory) {
      MoveFrame(s, t, AtDropPrevious(media, s.v.appsrc), Configured(s.v, media),
                MoveTo(s.ledger, s.v.appsrc, InTask(t)), s.events + [MediaConfigured]);
    } else {
      GotoFrame(s, t, AtExit, s.v);
    }
  }

  lemma AcquireFrame(s: System, t: nat, media: nat, after: After, element: Option<nat>, isAppsrc: bool)
    requires t in s.tasks
    ensures TaskFrame(s, t, ApplyAcquire(s, t, media, after, element, isAppsrc))
  {
    GotoFrame(s, t, AfterBind(media, false, after), s.v);
  }

  lemma BindFrame(s: System, t: nat, media: nat, r: Ref, after: After)
    requires t in s.tasks
    ensures TaskFrame(s, t, ApplyBind(s, t, media, r, after))
  {
    GotoFrame(s, t, AtDropSource(media, r, false, false, None, after), s.v);
    GotoFrame(s, t, AtDropSource(media, r, true, false, None, after), s.v);
  }

  lemma FinishBindFrame(s: System, t: nat, media: nat, accepted: bool, after: After)
    requires t in s.tasks
    ensures TaskFrame(s, t, ApplyFinishBind(s, t, media, accepted, after))
  {
    GotoFrame(s, t, AtExit, s.v);
    GotoFrame(s, t, AtExit, SetupFailed(s.v, media));
  }

  lemma UnpreparedFields(v: Server, media: nat)
    requires v.media == Some(media)
    ensures var v' := UnpreparedBy(v, media);
      && v'.running == v.running && v'.worker == v.worker && v'.jobs == v.jobs && v'.accepting == v.accepting
      && v'.generation == v.generation + 1 && v'.failures == 0
      && (v'.recovery == v.recovery || v'.recovery == Idle)
  {
  }

  lemma UnpreparedFrame(s: System, t: nat, media: nat)
    requires t in s.tasks
    ensures TaskFrame(s, t, ApplyUnprepared(s, t, media))
  {
    if s.v.media == Some(media) {
      UnpreparedFields(s.v, media);
      MoveFrame(s, t, AtDropRetired(s.v.appsrc), UnpreparedBy(s.v, media),
                MoveTo(s.ledger, s.v.appsrc, InTask(t)), s.events + [MediaUnprepared]);
    } else {
      GotoFrame(s, t, AtExit, s.v);
    }
  }

  lemma NotifyFrame(s: System, t: nat, media: nat)
    requires t in s.tasks
    ensures TaskFrame(s, t, ApplyUnprepared(s, t, media))
    ensures TaskFrame(s, t, Goto(s, t, AtExit, TargetNull(s.v, media)))
    ensures TaskFrame(s, t, Goto(s, t, AtExit, BusError(s.v, media)))
  {
    UnpreparedFrame(s, t, media);
    GotoFrame(s, t, AtExit, TargetNull(s.v, media));
    GotoFrame(s, t, AtExit, BusError(s.v, media));
  }

  lemma RecoverFrame(s: System, t: nat, expected: nat, memory: bool)
    requires t in s.tasks && s.tasks[t].pc == AtRecover(expected)
    ensures TaskFrame(s, t, ApplyRecover(s, t, expected, memory))
  {
    GotoFrame(s, t, AtCatch(expected), s.v);
    GotoFrame(s, t, AtExit, s.v);
    GotoFrame(s, t, AtExit, CancelRequest(s.v, expected));
  }

  lemma WatchFrame(s: System, t: nat, act: Act)
    requires t in s.tasks && OfWatchdog(s.tasks[t].pc)
    ensures ApplyWatch(s, t, s.tasks[t].pc, act) == s || TaskFrame(s, t, ApplyWatch(s, t, s.tasks[t].pc, act))
  {
    match act
    case WatchFinish =>
      GotoFrame(s, t, AtExit, s.v);
      GotoFrame(s, t, if FinishReady(s.v) then AtResume else AtLook, Finished(s.v));
    case WatchResume(created) => GotoFrame(s, t, AtLook, Resumed(s.v, created));
    case WatchLook(ageUs) =>
      var target := WatchdogTarget(s.v, ageUs);
      GotoFrame(s, t, if target == 0 then AtExit else AtRecover(target), s.v);
    case WatchRecover(memory) =>
      if s.tasks[t].pc.AtRecover? { RecoverFrame(s, t, s.tasks[t].pc.expected, memory); }
    case WatchCatch =>
      if s.tasks[t].pc.AtCatch? { GotoFrame(s, t, AtExit, CancelRequest(s.v, s.tasks[t].pc.expected)); }
    case _ =>
  }

  lemma UnrefsFrame(s: System, t: nat)
    requires t in s.tasks
    ensures ApplyUnrefs(s, t) == s || TaskFrame(s, t, ApplyUnrefs(s, t))
  {
    var s' := ApplyUnrefs(s, t);
    if s' != s {
      MoveFrame(s, t, s'.tasks[t].pc, s.v, s'.ledger, s.events);
    }
  }

  lemma LeaveFrame(s: System, t: nat)
    requires t in s.tasks
    ensures ApplyLeave(s, t) == s || TaskFrame(s, t, ApplyLeave(s, t))
  {
  }

  lemma TaskIsFramed(s: System, t: nat, act: Act)
    ensures ApplyTask(s, t, act) == s || TaskFrame(s, t, ApplyTask(s, t, act))
  {
    if t in s.tasks {
      var pc := s.tasks[t].pc;
      match act
      case Configure => if pc.AtConfigure? { ConfigureFrame(s, t, pc.media, pc.factory); }
      case Acquire(e, app) => if pc.AtBindCall? { AcquireFrame(s, t, pc.media, pc.after, e, app); }
      case Bind => if pc.AtBind? { BindFrame(s, t, pc.media, pc.source, pc.after); }
      case FinishBind => if pc.AfterBind? { FinishBindFrame(s, t, pc.media, pc.accepted, pc.after); }
      case Notify =>
        if pc.AtUnprepared? || pc.AtTargetNull? || pc.AtBusError? { NotifyFrame(s, t, pc.media); }
      case Unrefs => UnrefsFrame(s, t);
      case Leave => LeaveFrame(s, t);
      case _ => if OfWatchdog(pc) { WatchFrame(s, t, act); }
    }
  }

  /** The parts of the state that neither the worker nor the feeder writes. */
  predicate SameShape(s: System, s': System) {
    && s'.life == s.life && s'.watchdog == s.watchdog && s'.epochs == s.epochs && s'.tasks == s.tasks
    && s'.stopRef == s.stopRef
    && s'.v.running == s.v.running && s'.v.media == s.v.media && s'.v.appsrc == s.v.appsrc
    && s'.v.generation == s.v.generation && s'.v.mediaGeneration == s.v.mediaGeneration
    && s'.v.worker.handle == s.v.worker.handle
    && s'.v.accepting == s.v.accepting && |s'.v.jobs| == |s.v.jobs|
  }

  ghost predicate WorkerFrame(s: System, s': System) {
    && SameShape(s, s') && s'.feeder == s.feeder && s'.attempts == s.attempts && s'.events == s.events
    && s'.v.failures == s.v.failures && s'.v.recovery == s.v.recovery
    && (s'.v.worker.alive ==> s.v.worker.alive)
  }

  lemma WorkerIsFramed(s: System, step: WorkStep)
    ensures WorkerFrame(s, ApplyWorker(s, step))
  {
    match step
    case WorkerTake =>
    case _ =>
  }

  ghost predicate FeederFrame(s: System, s': System) {
    && SameShape(s, s') && s'.v.worker == s.v.worker
    && (s'.v.recovery == s.v.recovery || s'.v.recovery == Requested)
    && (s'.feeder.alive ==> s.feeder.alive)
    && (!s'.feeder.alive && (s.feeder.alive || s.feeder.pc == FeedIdle) ==> s'.feeder.pc == FeedIdle)
  }

  lemma ReportFrame(s: System, flow: Flow)
    ensures FeederFrame(s, ApplyFeeder(s, FeedReport(flow)))
  {
  }

  lemma SnapshotFrame(s: System, unit: Unit, memory: bool)
    ensures FeederFrame(s, ApplySnapshot(s, unit, memory))
  {
  }

  lemma FeederIsFramed(s: System, step: FeedStep)
    ensures FeederFrame(s, ApplyFeeder(s, step))
  {
    match step
    case FeedSnapshot(unit, memory) => SnapshotFrame(s, unit, memory);
    case FeedReport(flow) => ReportFrame(s, flow);
    case _ =>
  }

  // ----- Lifecycle -----

  lemma StartKeepsLife(s: System, step: StartStep)
    requires LifeInv(s) && EpochInv(s.epochs, s.tasks, s.life)
    ensures LifeInv(ApplyStart(s, step))
  {
    if s.life == Stopped { assert NoWatchdogTask(map[]); }
  }

  lemma StopKeepsLife(s: System, step: StopStep)
    requires LifeInv(s)
    ensures LifeInv(ApplyStop(s, step))
  {
    match step
    case Retire =>
    case StopRelease =>
    case _ =>
  }

  /** After the callbacks have drained there is no task left to step. */
  lemma TaskKeepsLife(s: System, t: nat, s': System)
    requires LifeInv(s) && EpochInv(s.epochs, s.tasks, s.life) && TaskFrame(s, t, s')
    ensures LifeInv(s')
  {
    assert Stage(s.life) != 0 && Stage(s.life) != 14;
  }

  lemma WorkerKeepsLife(s: System, s': System)
    requires LifeInv(s) && WorkerFrame(s, s')
    ensures LifeInv(s')
  {
  }

  lemma FeederKeepsLife(s: System, s': System)
    requires LifeInv(s) && FeederFrame(s, s')
    ensures LifeInv(s')
  {
  }

  lemma EnterKeepsLife(s: System, t: nat, epoch: nat, pc: Pc)
    requires LifeInv(s)
    ensures LifeInv(ApplyEnter(s, t, epoch, pc))
  {
  }

  // ----- Epochs -----

  lemma TasksAfterLeave(tasks: map<nat, Task>, t: nat)
    requires t in tasks
    ensures |tasks - {t}| == |tasks| - 1
  {
    assert (tasks - {t}).Keys == tasks.Keys - {t};
  }

  lemma TasksAfterMove(tasks: map<nat, Task>, t: nat, task: Task)
    ensures |tasks[t := task]| == |tasks| + (if t in tasks then 0 else 1)
  {
    assert tasks[t := task].Keys == tasks.Keys + {t};
  }

  lemma TaskKeepsEpochs(s: System, t: nat, s': System)
    requires EpochInv(s.epochs, s.tasks, s.life) && TaskFrame(s, t, s')
    ensures EpochInv(s'.epochs, s'.tasks, s'.life)
  {
    TasksAfterLeave(s.tasks, t);
    if t in s'.tasks { TasksAfterMove(s.tasks, t, s'.tasks[t]); }
  }

  lemma EnterKeepsEpochs(s: System, t: nat, epoch: nat, pc: Pc)
    requires EpochInv(s.epochs, s.tasks, s.life)
    ensures EpochInv(ApplyEnter(s, t, epoch, pc).epochs, ApplyEnter(s, t, epoch, pc).tasks, s.life)
  {
    TasksAfterMove(s.tasks, t, Task(epoch, pc));
  }

  lemma StartKeepsEpochs(s: System, step: StartStep)
    requires EpochInv(s.epochs, s.tasks, s.life)
    ensures var s' := ApplyStart(s, step); EpochInv(s'.epochs, s'.tasks, s'.life)
  {
    if step == Start && s.life == Stopped {
      var epochs := s.epochs + [Epoch(true, 0)];
      assert forall e :: 0 <= e < |s.epochs| ==> epochs[e] == s.epochs[e];
    }
  }

  /** Stop leaves the running bodies alone; it switches the newest epoch off and then waits for it. */
  ghost predicate StopFrame(s: System, s': System) {
    && s'.tasks == s.tasks && s'.v.jobs == s.v.jobs && (s'.v.accepting ==> s.v.accepting)
    && StopLifeStep(s.life, s.v.running, s'.life)
    && StopEpochStep(s.epochs, s.life, s'.epochs, s'.life)
  }

  predicate StopLifeStep(life: Life, running: bool, life': Life) {
    || life' == life || (Stage(life') == Stage(life) + 1 && life != Stopped)
    || (life' == Halting && running) || (life' == Stopped && life == Retiring)
  }

  ghost predicate StopEpochStep(epochs: seq<Epoch>, life: Life, epochs': seq<Epoch>, life': Life) {
    && (epochs' == epochs || (epochs != [] && life' == CallbacksOff
          && epochs' == epochs[|epochs| - 1 := epochs[|epochs| - 1].(enabled := false)]))
    && (life' == Drained && life != Drained ==> epochs != [] && epochs[|epochs| - 1].active == 0)
    && (life' == CallbacksOff && life != CallbacksOff ==>
          epochs != [] && epochs' != [] && !epochs'[|epochs'| - 1].enabled)
  }

  lemma StopMovesLife(s: System, step: StopStep)
    ensures StopLifeStep(s.life, s.v.running, ApplyStop(s, step).life)
  {
  }

  lemma StopMovesEpochs(s: System, step: StopStep)
    ensures StopEpochStep(s.epochs, s.life, ApplyStop(s, step).epochs, ApplyStop(s, step).life)
  {
  }

  lemma StopIsFramed(s: System, step: StopStep)
    ensures StopFrame(s, ApplyStop(s, step))
  {
    StopMovesLife(s, step);
    StopMovesEpochs(s, step);
  }

  lemma StopKeepsEpochs(s: System, s': System)
    requires EpochInv(s.epochs, s.tasks, s.life) && LifeInv(s) && StopFrame(s, s')
    ensures EpochInv(s'.epochs, s'.tasks, s'.life)
  {
    assert |s.tasks| == 0 ==> s.tasks == map[];
  }
}
