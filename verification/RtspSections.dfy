/** The fields of RtspServer that source_mutex_ guards, together with the recovery worker's slot,
    and every critical section over them as a function (src/rtsp_server.cpp). */
module RtspSections {
  import opened Basics

  /** One counted reference to an appsrc element. Two references may name the same element. */
  datatype Ref = Ref(id: nat, element: nat)

  datatype RecoveryState = Idle | Requested | Running | Completed

  datatype MediaStatus = Unprepared | Preparing | Prepared | Unpreparing | Errored

  /** A teardown job; `generation` is the media generation it was published for. */
  datatype Job = Job(token: nat, generation: nat, source: Option<Ref>, done: bool)

  /** RecoveryWorkerState and its thread: `handle` is the server's pointer to the state, `pending`
      the single slot, `busy` the job the thread has taken out of it. */
  datatype Worker = Worker(handle: bool, alive: bool, stopping: bool, pending: Option<nat>, busy: Option<nat>)

  datatype Server = Server(
    running: bool,
    factory: Option<nat>,
    media: Option<nat>,
    appsrc: Option<Ref>,
    generation: nat,
    mediaGeneration: nat,
    failures: nat,
    recovery: RecoveryState,
    recoveryGeneration: nat,
    token: nat,
    nextToken: nat,
    mediaUnprepared: bool,
    job: Option<nat>,
    status: MediaStatus,
    listener: bool,
    accepting: bool,
    jobs: seq<Job>,
    worker: Worker)

  const NO_WORKER := Worker(false, false, false, None, None)

  const FRESH := Server(false, None, None, None, 0, 0, 0, Idle, 0, 0, 0, false, None, Unprepared, false, false, [],
                        NO_WORKER)

  /** Recovery intent withdrawn. */
  function Withdrawn(v: Server): Server {
    v.(recovery := Idle, recoveryGeneration := 0, token := 0)
  }

  // ----- Lifecycle -----

  function Initialised(v: Server): Server {
    Withdrawn(v).(running := true, listener := false, accepting := false, appsrc := None, media := None,
                  factory := None, mediaGeneration := v.mediaGeneration + 1, failures := 0, nextToken := 0,
                  mediaUnprepared := false, job := None, status := Unprepared)
  }

  /** The job stop has to wait for, if any. */
  function StopWaitsFor(v: Server): Option<nat> {
    if v.recovery == Running && JobMatches(v) && !v.jobs[v.job.value].done then v.job else None
  }

  /** The last section of stop; the appsrc reference passes to a local of stop. */
  function Retired(v: Server): Server {
    Withdrawn(v).(appsrc := None, media := None, factory := None, generation := v.generation + 1,
                  mediaGeneration := v.mediaGeneration + 1, failures := 0, mediaUnprepared := false,
                  job := None, status := Unprepared)
  }

  // ----- Media callbacks -----

  predicate ConfigureAccepts(v: Server, factory: nat) {
    v.running && v.factory == Some(factory)
    && (v.media.None? || v.status == Unpreparing || v.status == Errored)
  }

  /** The appsrc reference passes to a local of the callback. Neither recovery_job_ nor
      recovery_media_unprepared_ is touched. */
  function Configured(v: Server, media: nat): Server {
    Withdrawn(v).(media := Some(media), appsrc := None, generation := v.generation + 1,
                  mediaGeneration := v.mediaGeneration + 1, failures := 0, status := Preparing)
  }

  predicate BindAccepts(v: Server, media: nat) {
    v.media == Some(media)
    && !((v.recovery == Requested || v.recovery == Running) && v.recoveryGeneration == v.mediaGeneration)
  }

  predicate BindChanges(v: Server, ref: Ref) {
    v.appsrc.None? || v.appsrc.value.element != ref.element
  }

  function BoundTo(v: Server, ref: Ref): Server {
    v.(appsrc := Some(ref), generation := v.generation + 1)
  }

  function SetupFailed(v: Server, media: nat): Server {
    if v.media != Some(media) then v
    else v.(recovery := Requested, recoveryGeneration := v.mediaGeneration,
            token := v.nextToken + 1, nextToken := v.nextToken + 1)
  }

  function PreparedBy(v: Server, media: nat): Server {
    if v.media != Some(media) then v else v.(failures := 0, status := Prepared)
  }

  function UnpreparedBy(v: Server, media: nat): Server {
    if v.media != Some(media) then v
    else
      var recovered := v.recovery == Running && v.recoveryGeneration == v.mediaGeneration;
      var v1 := v.(media := None, appsrc := None, generation := v.generation + 1,
                   mediaGeneration := v.mediaGeneration + 1, failures := 0, status := Unprepared);
      if recovered then v1.(mediaUnprepared := true)
      else Withdrawn(v1).(mediaUnprepared := false, job := None)
  }

  function TargetNull(v: Server, media: nat): Server {
    if v.media != Some(media) then v else v.(status := Unpreparing)
  }

  function BusError(v: Server, media: nat): Server {
    if v.media != Some(media) then v
    else
      var first := v.recovery == Idle || v.recoveryGeneration != v.mediaGeneration;
      v.(recovery := Requested, recoveryGeneration := v.mediaGeneration, status := Errored,
         token := if first then v.nextToken + 1 else v.token,
         nextToken := if first then v.nextToken + 1 else v.nextToken)
  }

  // ----- Watchdog -----

  predicate JobMatches(v: Server) {
    v.job.Some? && v.job.value < |v.jobs| && v.jobs[v.job.value].token == v.token
  }

  predicate FinishReady(v: Server) {
    v.running && v.recovery == Running && v.recoveryGeneration != 0 && v.mediaUnprepared
    && JobMatches(v) && v.jobs[v.job.value].done
  }

  function Finished(v: Server): Server {
    if FinishReady(v) then v.(recovery := Completed) else v
  }

  predicate ResumeReady(v: Server, created: bool) {
    v.running && v.recovery == Completed && v.recoveryGeneration != 0 && v.mediaUnprepared
    && JobMatches(v) && v.jobs[v.job.value].done && !v.accepting && created
  }

  function Resumed(v: Server, created: bool): Server {
    if !ResumeReady(v, created) then v
    else Withdrawn(v).(listener := true, accepting := true, mediaUnprepared := false, job := None)
  }

  /** What the watchdog passes to recoverMedia: the generation of a pending request, or the current
      generation when its status is an error or has lasted too long, `ageUs` microseconds; 0 for nothing. */
  function WatchdogTarget(v: Server, ageUs: nat): nat {
    if v.media.None? then 0
    else if v.recovery == Requested && v.recoveryGeneration != 0 then v.recoveryGeneration
    else if v.status == Errored then v.mediaGeneration
    else if v.status == Unpreparing && ageUs >= 3_000_000 then v.mediaGeneration
    else if v.status == Preparing && ageUs >= 10_000_000 then v.mediaGeneration
    else 0
  }

  predicate RecoverStale(v: Server, expected: nat) {
    !v.running || v.media.None? || v.mediaGeneration != expected
  }

  predicate RecoverWants(v: Server, expected: nat) {
    !RecoverStale(v, expected) && (v.recovery == Requested || v.recovery == Idle)
  }

  predicate WorkerAccepts(v: Server) {
    v.worker.handle && !v.worker.stopping && v.worker.pending.None?
  }

  function CancelRequest(v: Server, expected: nat): Server {
    if v.recovery == Requested && v.recoveryGeneration == expected then Withdrawn(v) else v
  }

  /** Running is published, the source passes to the job and the job to the worker's slot, and the
      listener is taken down, all in one section. */
  function Recovering(v: Server, expected: nat): Server {
    var token := if v.token == 0 then v.nextToken + 1 else v.token;
    v.(appsrc := None, generation := v.generation + 1, failures := 0,
       recovery := Running, recoveryGeneration := expected, token := token,
       nextToken := if v.token == 0 then v.nextToken + 1 else v.nextToken,
       mediaUnprepared := false, job := Some(|v.jobs|), listener := false, accepting := false,
       jobs := v.jobs + [Job(token, expected, v.appsrc, false)],
       worker := v.worker.(pending := Some(|v.jobs|)))
  }

  // ----- Feeder -----

  datatype Flow = FlowOk | FlowFlushing | FlowError

  predicate ResultIsCurrent(v: Server, mediaGeneration: nat) {
    v.media.Some? && v.mediaGeneration == mediaGeneration
  }

  function PushReported(v: Server, mediaGeneration: nat, flow: Flow): Server {
    if !ResultIsCurrent(v, mediaGeneration) then v
    else if flow != FlowError then v.(failures := 0)
    else
      var v1 := v.(failures := v.failures + 1);
      if v1.failures < 3 then v1
      else
        var first := v.recovery == Idle || v.recoveryGeneration != mediaGeneration;
        v1.(recovery := Requested, recoveryGeneration := mediaGeneration,
            token := if first then v.nextToken + 1 else v.token,
            nextToken := if first then v.nextToken + 1 else v.nextToken)
  }

  // ----- What every section keeps -----

  /** The recovery-state invariant. */
  ghost predicate RecoveryInv(v: Server) {
    && (v.recovery == Running || v.recovery == Completed ==> v.appsrc.None? && !v.listener && !v.accepting)
    && (v.accepting <==> v.listener)
    && (v.recovery == Running || v.recovery == Completed ==> JobMatches(v))
    && (v.recovery == Requested ==> v.media.Some? && v.recoveryGeneration == v.mediaGeneration && v.token != 0)
    && (v.recovery == Running ==>
          && v.token != 0 && v.recoveryGeneration != 0 && v.job.Some?
          && (v.media.None? <==> v.mediaUnprepared)
          && (v.media.Some? ==> v.recoveryGeneration == v.mediaGeneration))
    && (v.recovery == Completed ==>
          && v.media.None? && v.mediaUnprepared && v.recoveryGeneration != 0
          && v.job.Some? && v.job.value < |v.jobs| && v.jobs[v.job.value].done)
    && (v.recovery == Idle ==> v.recoveryGeneration == 0 && v.token == 0)
    && (v.media.None? ==> v.appsrc.None?)
    && (v.running || v.media.Some? ==> v.mediaGeneration > 0)
  }

  /** The worker runs jobs in publication order: everything older than the job it is on is done,
      and anything newer is the one in the slot. */
  ghost predicate JobInv(job: Option<nat>, jobs: seq<Job>, w: Worker) {
    && (job.Some? ==> job.value + 1 == |jobs|)
    && (forall j :: 0 <= j < |jobs| ==> (jobs[j].done <==> w.pending != Some(j) && w.busy != Some(j)))
    && (forall j :: 0 <= j < |jobs| && jobs[j].done ==> jobs[j].source.None?)
    && (w.pending.Some? ==> w.pending.value + 1 == |jobs|)
    && (w.busy.Some? ==> w.busy.value + (if w.pending.Some? then 2 else 1) == |jobs|)
    && (!w.alive ==> w.pending.None? && w.busy.None?)
    && (w.handle ==> w.alive && !w.stopping)
  }

  ghost predicate ServerInv(v: Server) { RecoveryInv(v) && JobInv(v.job, v.jobs, v.worker) }

  lemma ConfiguredKeeps(v: Server, media: nat)
    requires ServerInv(v)
    ensures ServerInv(Configured(v, media))
  {
  }

  lemma BoundKeeps(v: Server, media: nat, ref: Ref)
    requires ServerInv(v) && BindAccepts(v, media)
    ensures ServerInv(BoundTo(v, ref))
  {
  }

  lemma UnpreparedKeeps(v: Server, media: nat)
    requires ServerInv(v)
    ensures ServerInv(UnpreparedBy(v, media))
  {
  }

  lemma RequestsKeep(v: Server, media: nat)
    requires ServerInv(v)
    ensures ServerInv(SetupFailed(v, media)) && ServerInv(BusError(v, media))
  {
  }

  lemma StatusesKeep(v: Server, media: nat)
    requires ServerInv(v)
    ensures ServerInv(PreparedBy(v, media)) && ServerInv(TargetNull(v, media))
  {
  }

  lemma WatchdogSectionsKeep(v: Server, expected: nat, created: bool)
    requires ServerInv(v)
    ensures ServerInv(Finished(v)) && ServerInv(Resumed(v, created)) && ServerInv(CancelRequest(v, expected))
    ensures RecoverWants(v, expected) && WorkerAccepts(v) ==> ServerInv(Recovering(v, expected))
  {
    if RecoverWants(v, expected) && WorkerAccepts(v) {
      var v' := Recovering(v, expected);
      assert forall j :: 0 <= j < |v.jobs| ==> v'.jobs[j] == v.jobs[j];
    }
  }

  lemma FeederSectionKeeps(v: Server, mediaGeneration: nat, flow: Flow)
    requires ServerInv(v)
    ensures ServerInv(PushReported(v, mediaGeneration, flow))
  {
  }

  lemma LifecycleSectionsKeep(v: Server)
    requires ServerInv(v)
    ensures ServerInv(Initialised(v)) && ServerInv(Retired(v))
    ensures ServerInv(v.(listener := false, accepting := false)) && ServerInv(v.(running := false))
    ensures ServerInv(v.(worker := v.worker.(handle := false, stopping := true)))
  {
  }

  /** A job is published for the generation that is current, and a request that led to it was made
      for that same generation. */
  lemma JobsMatchTheirGeneration(v: Server, expected: nat)
    requires ServerInv(v) && RecoverWants(v, expected)
    ensures var v' := Recovering(v, expected);
      && v'.jobs[|v.jobs|].generation == v.mediaGeneration == v'.recoveryGeneration
      && (v.recovery == Requested ==> v.recoveryGeneration == v'.jobs[|v.jobs|].generation
                                      && v'.jobs[|v.jobs|].token == v.token)
  {
  }

  /** Clients are accepted again only when nothing of the broken media is left. */
  lemma ResumeIsSafe(v: Server, created: bool)
    requires ServerInv(v) && !v.accepting && Resumed(v, created).accepting
    ensures v.media.None? && v.appsrc.None?
    ensures forall j :: 0 <= j < |v.jobs| ==> v.jobs[j].done
  {
  }
}
