/** The whole RTSP server as interleaved atomic steps: the lifecycle thread, any number of media
    and watchdog callbacks, the recovery worker and the feeder. A step is one critical section of
    src/rtsp_server.cpp or one release of a reference outside the lock. */
module RtspSystem {
  import opened Basics
  import opened AccessUnits
  import opened RtspSections

  // ----- Who holds which reference -----

  datatype Place = Field | InJob(job: nat) | InTask(task: nat) | InFeeder | InStop

  /** Every reference ever taken, in the order of their ids; where each one is; and the unrefs. */
  datatype Ledger = Ledger(taken: nat, released: seq<nat>, place: map<nat, Place>)

  function TakeInto(l: Ledger, p: Place): Ledger {
    l.(taken := l.taken + 1, place := l.place[l.taken := p])
  }

  function MoveTo(l: Ledger, r: Option<Ref>, p: Place): Ledger {
    if r.None? then l else l.(place := l.place[r.value.id := p])
  }

  function Unref(l: Ledger, id: nat): Ledger {
    l.(released := l.released + [id], place := l.place - {id})
  }

  // ----- Callbacks -----

  datatype After = ThenConfigured | ThenPrepared | ThenNothing

  /** Where a body is, with the locals it still needs there. A Ref among them is a pointer; whether
      the body owns what it points to is for the ledger to say. */
  datatype Pc =
    | AtConfigure(media: nat, factory: nat)
    | AtDropPrevious(media: nat, previousSource: Option<Ref>)
    | AtBindCall(media: nat, after: After)
    | AtReject(media: nat, source: Ref, after: After)
    | AtBind(media: nat, source: Ref, after: After)
    | AtDropSource(media: nat, source: Ref, accepted: bool, changed: bool, previous: Option<Ref>, after: After)
    | AtDropBound(media: nat, accepted: bool, previous: Option<Ref>, after: After)
    | AfterBind(media: nat, accepted: bool, after: After)
    | AtUnprepared(media: nat)
    | AtDropRetired(retiredSource: Option<Ref>)
    | AtTargetNull(media: nat)
    | AtBusError(media: nat)
    | AtFinish
    | AtResume
    | AtLook
    | AtRecover(expected: nat)
    | AtCatch(expected: nat)
    | AtExit

  predicate OfWatchdog(pc: Pc) {
    pc.AtFinish? || pc.AtResume? || pc.AtLook? || pc.AtRecover? || pc.AtCatch?
  }

  predicate IsEntry(pc: Pc) {
    pc.AtConfigure? || (pc.AtBindCall? && pc.after != ThenConfigured) || pc.AtUnprepared?
    || pc.AtTargetNull? || pc.AtBusError? || pc.AtFinish?
  }

  /** A callback body in progress. */
  datatype Task = Task(epoch: nat, pc: Pc)

  /** CallbackState: `enabled` is its server pointer, `active` the bodies inside. */
  datatype Epoch = Epoch(enabled: bool, active: nat)

  // ----- Feeder -----

  datatype FeederPc = FeedIdle | FeedPush(ref: Ref, mediaGeneration: nat) | FeedDone(ref: Ref)

  datatype Feeder = Feeder(
    alive: bool, pc: FeederPc,
    observedGeneration: nat, observedEncoder: nat, frameIndex: nat, awaiting: bool)

  /** One unit passed to makeBuffer, and whether a buffer came out and was pushed. */
  datatype Attempt = Attempt(
    generation: nat, source: Ref, encoder: nat, decodable: bool, offset: nat, pushed: bool)

  /** What happened to the media: push results, and the steps that concern all of its pushes. */
  datatype FeedEvent =
    | Reported(mediaGeneration: nat, flow: Flow, current: bool)
    | ServerStarted | MediaConfigured | MediaPrepared | MediaUnprepared | RecoveryBegun | ServerRetired

  function FeederRef(f: Feeder): Option<Ref> {
    match f.pc
    case FeedIdle => None
    case FeedPush(r, _) => Some(r)
    case FeedDone(r) => Some(r)
  }

  // ----- Lifecycle -----

  datatype Life =
    | Stopped | Begun | FactoryUp | WorkerUp | ListenerUp | WatchdogUp | Serving
    | Halting | FeederJoined | ListenerTaken(waitFor: Option<nat>) | WorkerAsked | WorkerJoined
    | CallbacksOff | Drained | Retiring

  function Stage(life: Life): nat {
    match life
    case Stopped => 0 case Begun => 1 case FactoryUp => 2 case WorkerUp => 3 case ListenerUp => 4
    case WatchdogUp => 5 case Serving => 6 case Halting => 7 case FeederJoined => 8
    case ListenerTaken(_) => 9 case WorkerAsked => 10 case WorkerJoined => 11
    case CallbacksOff => 12 case Drained => 13 case Retiring => 14
  }

  datatype System = System(
    v: Server,
    life: Life,
    watchdog: bool,
    epochs: seq<Epoch>,
    tasks: map<nat, Task>,
    feeder: Feeder,
    stopRef: Option<Ref>,
    ledger: Ledger,
    attempts: seq<Attempt>,
    events: seq<FeedEvent>)

  /** Epoch 0 is the constructor's: nothing is ever connected with it. */
  const CREATED := System(
    FRESH, Stopped, false, [Epoch(true, 0)], map[], Feeder(false, FeedIdle, 0, 0, 0, true), None,
    Ledger(0, [], map[]), [], [])

  /** Steps of start, and of stop from its beginning to its return. */
  datatype StartStep =
    | Start | InstallFactory(factory: nat) | StartWorker | OpenListener | InstallWatchdog | StartFeeder

  datatype StopStep =
    | StopBegin | JoinFeeder | TakeListener | AskWorkerStop | JoinWorker | DisableCallbacks
    | CallbacksDrained | Retire | StopRelease

  /** Steps of a callback body. */
  datatype Act =
    | Configure | Acquire(element: Option<nat>, isAppsrc: bool) | Bind | FinishBind | Notify
    | WatchFinish | WatchResume(created: bool) | WatchLook(ageUs: nat)
    | WatchRecover(memory: bool) | WatchCatch
    | Unrefs | Leave

  datatype WorkStep = WorkerTake | WorkerUnref | WorkerDone | WorkerExit

  datatype FeedStep = FeedSnapshot(unit: Unit, memory: bool) | FeedReport(flow: Flow) | FeedRelease | FeedExit

  datatype Step =
    | OfStart(start: StartStep)
    | OfStop(stop: StopStep)
    | Enter(task: nat, epoch: nat, pc: Pc)
    | OfTask(task: nat, act: Act)
    | OfWorker(work: WorkStep)
    | OfFeeder(feed: FeedStep)

  // ----- Lifecycle steps -----

  function Current(s: System): int { |s.epochs| - 1 }

  function WithEpoch(s: System, e: Epoch): seq<Epoch> {
    if s.epochs == [] then [] else s.epochs[|s.epochs| - 1 := e]
  }

  function ApplyStart(s: System, step: StartStep): System {
    match step
    case Start =>
      if s.life != Stopped then s
      else s.(v := Initialised(s.v), life := Begun, watchdog := false,
              epochs := s.epochs + [Epoch(true, 0)], events := s.events + [ServerStarted])
    case InstallFactory(f) =>
      if s.life != Begun then s else s.(v := s.v.(factory := Some(f)), life := FactoryUp)
    case StartWorker =>
      if s.life != FactoryUp then s
      else s.(v := s.v.(worker := Worker(true, true, false, None, None)), life := WorkerUp)
    case OpenListener =>
      if s.life != WorkerUp then s
      else s.(v := s.v.(listener := true, accepting := true), life := ListenerUp)
    case InstallWatchdog =>
      if s.life != ListenerUp then s else s.(watchdog := true, life := WatchdogUp)
    case StartFeeder =>
      if s.life != WatchdogUp then s
      else s.(feeder := Feeder(true, FeedIdle, s.v.generation, 0, 0, true), life := Serving)
  }

  function ApplyStop(s: System, step: StopStep): System {
    match step
    case StopBegin =>
      if !s.v.running then s else s.(v := s.v.(running := false), life := Halting)
    case JoinFeeder =>
      if s.life != Halting || s.feeder.alive then s else s.(life := FeederJoined)
    case TakeListener =>
      if s.life != FeederJoined then s
      else s.(v := s.v.(listener := false, accepting := false), life := ListenerTaken(StopWaitsFor(s.v)))
    case AskWorkerStop =>
      if !s.life.ListenerTaken? || (s.life.waitFor.Some? && !JobDone(s.v, s.life.waitFor.value)) then s
      else s.(v := s.v.(worker := s.v.worker.(handle := false, stopping := true)), life := WorkerAsked)
    case JoinWorker =>
      if s.life != WorkerAsked || s.v.worker.alive then s else s.(life := WorkerJoined)
    case DisableCallbacks =>
      if s.life != WorkerJoined || s.epochs == [] then s
      else s.(epochs := WithEpoch(s, s.epochs[Current(s)].(enabled := false)), life := CallbacksOff)
    case CallbacksDrained =>
      if s.life != CallbacksOff || s.epochs == [] || s.epochs[Current(s)].active != 0 then s
      else s.(life := Drained)
    case Retire =>
      if s.life != Drained then s
      else s.(v := Retired(s.v), life := Retiring, stopRef := s.v.appsrc,
              ledger := MoveTo(s.ledger, s.v.appsrc, InStop), events := s.events + [ServerRetired])
    case StopRelease =>
      if s.life != Retiring then s
      else s.(life := Stopped, stopRef := None,
              ledger := if s.stopRef.None? then s.ledger else Unref(s.ledger, s.stopRef.value.id))
  }

  predicate JobDone(v: Server, j: nat) { j < |v.jobs| && v.jobs[j].done }

  // ----- Callback steps -----

  function Id(r: Option<Ref>): set<nat> { if r.None? then {} else {r.value.id} }

  function Moved(s: System, t: nat, pc: Pc): map<nat, Task>
    requires t in s.tasks
  {
    s.tasks[t := Task(s.tasks[t].epoch, pc)]
  }

  function Goto(s: System, t: nat, pc: Pc, v: Server): System
    requires t in s.tasks
  {
    s.(v := v, tasks := Moved(s, t, pc))
  }

  function ApplyEnter(s: System, t: nat, epoch: nat, pc: Pc): System {
    if t in s.tasks || epoch == 0 || epoch >= |s.epochs| || !s.epochs[epoch].enabled
       || !IsEntry(pc) || (OfWatchdog(pc) && !s.watchdog)
    then s
    else s.(tasks := s.tasks[t := Task(epoch, pc)],
            epochs := s.epochs[epoch := s.epochs[epoch].(active := s.epochs[epoch].active + 1)])
  }

  /** The old source passes into a local of the callback. */
  function ApplyConfigure(s: System, t: nat, media: nat, factory: nat): System
    requires t in s.tasks
  {
    if !ConfigureAccepts(s.v, factory) then Goto(s, t, AtExit, s.v)
    else s.(v := Configured(s.v, media),
            tasks := Moved(s, t, AtDropPrevious(media, s.v.appsrc)),
            ledger := MoveTo(s.ledger, s.v.appsrc, InTask(t)),
            events := s.events + [MediaConfigured])
  }

  /** gst_bin_get_by_name_recurse_up hands over a new reference, to an appsrc or to something else,
      unless there is no such element. */
  function ApplyAcquire(s: System, t: nat, media: nat, after: After, element: Option<nat>, isAppsrc: bool): System
    requires t in s.tasks
  {
    if element.None? then Goto(s, t, AfterBind(media, false, after), s.v)
    else
      var r := Ref(s.ledger.taken, element.value);
      s.(tasks := Moved(s, t, if isAppsrc then AtBind(media, r, after) else AtReject(media, r, after)),
         ledger := TakeInto(s.ledger, InTask(t)))
  }

  /** The previous reference comes into a local and the new one goes into the field. */
  function ApplyBind(s: System, t: nat, media: nat, r: Ref, after: After): System
    requires t in s.tasks
  {
    if !BindAccepts(s.v, media) then Goto(s, t, AtDropSource(media, r, false, false, None, after), s.v)
    else if !BindChanges(s.v, r) then Goto(s, t, AtDropSource(media, r, true, false, None, after), s.v)
    else s.(v := BoundTo(s.v, r),
            tasks := Moved(s, t, AtDropSource(media, r, true, true, s.v.appsrc, after)),
            ledger := MoveTo(MoveTo(s.ledger, s.v.appsrc, InTask(t)), Some(r), Field))
  }

  function ApplyFinishBind(s: System, t: nat, media: nat, accepted: bool, after: After): System
    requires t in s.tasks
  {
    if after == ThenConfigured && !accepted then Goto(s, t, AtExit, SetupFailed(s.v, media))
    else if after == ThenPrepared && accepted && s.v.media == Some(media) then
      s.(v := PreparedBy(s.v, media), tasks := Moved(s, t, AtExit),
         events := s.events + [MediaPrepared])
    else Goto(s, t, AtExit, s.v)
  }

  function ApplyUnprepared(s: System, t: nat, media: nat): System
    requires t in s.tasks
  {
    if s.v.media != Some(media) then Goto(s, t, AtExit, s.v)
    else s.(v := UnpreparedBy(s.v, media),
            tasks := Moved(s, t, AtDropRetired(s.v.appsrc)),
            ledger := MoveTo(s.ledger, s.v.appsrc, InTask(t)),
            events := s.events + [MediaUnprepared])
  }

  function ApplyNotify(s: System, t: nat, pc: Pc): System
    requires t in s.tasks
  {
    match pc
    case AtUnprepared(m) => ApplyUnprepared(s, t, m)
    case AtTargetNull(m) => Goto(s, t, AtExit, TargetNull(s.v, m))
    case AtBusError(m) => Goto(s, t, AtExit, BusError(s.v, m))
    case _ => s
  }

  function ApplyRecover(s: System, t: nat, expected: nat, memory: bool): System
    requires t in s.tasks
  {
    if !memory then Goto(s, t, AtCatch(expected), s.v)
    else if RecoverStale(s.v, expected) then Goto(s, t, AtExit, CancelRequest(s.v, expected))
    else if !RecoverWants(s.v, expected) then Goto(s, t, AtExit, s.v)
    else if !WorkerAccepts(s.v) then Goto(s, t, AtCatch(expected), s.v)
    else s.(v := Recovering(s.v, expected),
            tasks := Moved(s, t, AtExit),
            ledger := MoveTo(s.ledger, s.v.appsrc, InJob(|s.v.jobs|)),
            events := s.events + [RecoveryBegun])
  }

  function ApplyWatch(s: System, t: nat, pc: Pc, act: Act): System
    requires t in s.tasks
  {
    match act
    case WatchFinish =>
      if !pc.AtFinish? then s
      else if !s.v.running then Goto(s, t, AtExit, s.v)
      else Goto(s, t, if FinishReady(s.v) then AtResume else AtLook, Finished(s.v))
    case WatchResume(created) =>
      if !pc.AtResume? then s else Goto(s, t, AtLook, Resumed(s.v, created))
    case WatchLook(ageUs) =>
      if !pc.AtLook? then s
      else
        var target := WatchdogTarget(s.v, ageUs);
        Goto(s, t, if target == 0 then AtExit else AtRecover(target), s.v)
    case WatchRecover(memory) =>
      if !pc.AtRecover? then s else ApplyRecover(s, t, pc.expected, memory)
    case WatchCatch =>
      if !pc.AtCatch? then s else Goto(s, t, AtExit, CancelRequest(s.v, pc.expected))
    case _ => s
  }

  function UnrefIf(l: Ledger, condition: bool, r: Option<Ref>): Ledger {
    if condition && r.Some? then Unref(l, r.value.id) else l
  }

  /** The next unref outside the lock, under the condition the code tests before it. */
  function ApplyUnrefs(s: System, t: nat): System
    requires t in s.tasks
  {
    match s.tasks[t].pc
    case AtDropPrevious(media, previousSource) =>
      s.(tasks := Moved(s, t, AtBindCall(media, ThenConfigured)),
         ledger := UnrefIf(s.ledger, previousSource.Some?, previousSource))
    case AtReject(media, source, after) =>
      s.(tasks := Moved(s, t, AfterBind(media, false, after)), ledger := Unref(s.ledger, source.id))
    case AtDropSource(media, source, accepted, changed, previous, after) =>
      s.(tasks := Moved(s, t, AtDropBound(media, accepted, previous, after)),
         ledger := UnrefIf(s.ledger, !accepted || !changed, Some(source)))
    case AtDropBound(media, accepted, previous, after) =>
      s.(tasks := Moved(s, t, AfterBind(media, accepted, after)),
         ledger := UnrefIf(s.ledger, previous.Some?, previous))
    case AtDropRetired(retiredSource) =>
      s.(tasks := Moved(s, t, AtExit), ledger := UnrefIf(s.ledger, retiredSource.Some?, retiredSource))
    case _ => s
  }

  /** The guard's destructor: the body is over, whatever its locals still point to. */
  function ApplyLeave(s: System, t: nat): System
    requires t in s.tasks
  {
    if s.tasks[t].pc != AtExit then s
    else s.(tasks := s.tasks - {t}, epochs := Exited(s.epochs, s.tasks[t].epoch))
  }

  function Exited(epochs: seq<Epoch>, e: nat): seq<Epoch> {
    if e < |epochs| && epochs[e].active > 0 then epochs[e := epochs[e].(active := epochs[e].active - 1)] else epochs
  }

  function ApplyTask(s: System, t: nat, act: Act): System {
    if t !in s.tasks then s
    else
      var pc := s.tasks[t].pc;
      match act
      case Configure => if pc.AtConfigure? then ApplyConfigure(s, t, pc.media, pc.factory) else s
      case Acquire(element, isAppsrc) =>
        if pc.AtBindCall? then ApplyAcquire(s, t, pc.media, pc.after, element, isAppsrc) else s
      case Bind => if pc.AtBind? then ApplyBind(s, t, pc.media, pc.source, pc.after) else s
      case FinishBind => if pc.AfterBind? then ApplyFinishBind(s, t, pc.media, pc.accepted, pc.after) else s
      case Notify => ApplyNotify(s, t, pc)
      case Unrefs => ApplyUnrefs(s, t)
      case Leave => ApplyLeave(s, t)
      case _ => ApplyWatch(s, t, pc, act)
  }

  // ----- Worker steps -----

  function ApplyWorker(s: System, step: WorkStep): System {
    var w := s.v.worker;
    match step
    case WorkerTake =>
      if !w.alive || w.busy.Some? || w.pending.None? then s
      else s.(v := s.v.(worker := w.(busy := w.pending, pending := None)))
    case WorkerUnref =>
      if w.busy.None? || w.busy.value >= |s.v.jobs| || s.v.jobs[w.busy.value].source.None? then s
      else
        var j := w.busy.value;
        s.(v := s.v.(jobs := s.v.jobs[j := s.v.jobs[j].(source := None)]),
           ledger := Unref(s.ledger, s.v.jobs[j].source.value.id))
    case WorkerDone =>
      if w.busy.None? || w.busy.value >= |s.v.jobs| || s.v.jobs[w.busy.value].source.Some? then s
      else
        var j := w.busy.value;
        s.(v := s.v.(jobs := s.v.jobs[j := s.v.jobs[j].(done := true)], worker := w.(busy := None)))
    case WorkerExit =>
      if !w.alive || !w.stopping || w.busy.Some? || w.pending.Some? then s
      else s.(v := s.v.(worker := w.(alive := false)))
  }

  // ----- Feeder steps -----

  /** One iteration up to the push: the locked snapshot and the decisions that follow from it. */
  function ApplySnapshot(s: System, unit: Unit, memory: bool): System {
    var f := s.feeder;
    if !f.alive || f.pc != FeedIdle || s.v.appsrc.None? then s
    else
      var r := Ref(s.ledger.taken, s.v.appsrc.value.element);
      var changed := s.v.generation != f.observedGeneration || f.observedEncoder != unit.generation;
      var index := if changed then 0 else f.frameIndex;
      var taken := s.(ledger := TakeInto(s.ledger, InFeeder));
      if (changed || f.awaiting) && !unit.IndependentlyDecodable() then
        taken.(feeder := Feeder(true, FeedDone(r), s.v.generation, unit.generation, index, true))
      else
        var pushed := memory && unit.SizeBytes() > 0;
        taken.(feeder := Feeder(true, if pushed then FeedPush(r, s.v.mediaGeneration) else FeedDone(r),
                                s.v.generation, unit.generation, index + 1, false),
               attempts := s.attempts + [Attempt(s.v.generation, s.v.appsrc.value, unit.generation,
                                                 unit.IndependentlyDecodable(), index, pushed)])
  }

  function ApplyFeeder(s: System, step: FeedStep): System {
    match step
    case FeedSnapshot(unit, memory) => ApplySnapshot(s, unit, memory)
    case FeedReport(flow) =>
      if !s.feeder.pc.FeedPush? then s
      else
        var g := s.feeder.pc.mediaGeneration;
        s.(v := PushReported(s.v, g, flow), feeder := s.feeder.(pc := FeedDone(s.feeder.pc.ref)),
           events := s.events + [Reported(g, flow, ResultIsCurrent(s.v, g))])
    case FeedRelease =>
      if !s.feeder.pc.FeedDone? then s
      else s.(feeder := s.feeder.(pc := FeedIdle), ledger := Unref(s.ledger, s.feeder.pc.ref.id))
    case FeedExit =>
      if s.feeder.pc != FeedIdle || s.v.running then s else s.(feeder := s.feeder.(alive := false))
  }

  // ----- All steps -----

  function Apply(s: System, step: Step): System {
    match step
    case OfStart(l) => ApplyStart(s, l)
    case OfStop(l) => ApplyStop(s, l)
    case Enter(t, epoch, pc) => ApplyEnter(s, t, epoch, pc)
    case OfTask(t, act) => ApplyTask(s, t, act)
    case OfWorker(w) => ApplyWorker(s, w)
    case OfFeeder(f) => ApplyFeeder(s, f)
  }

  function Run(s: System, steps: seq<Step>): System {
    if steps == [] then s else Apply(Run(s, steps[..|steps| - 1]), steps[|steps| - 1])
  }
}
