/** RtspServer as the source has it: an object that each critical section changes in place. Each
    method is the body of one source_mutex_ section; what a section hands to its callback's locals
    is returned. The interleaving of the sections is in RtspSystem.dfy. */
module RtspServers {
  import opened Basics
  import opened RtspSections
  import opened RtspInvariants

  /** The fields about the current media. */
  datatype Source = Source(
    media: Option<nat>, appsrc: Option<Ref>, generation: nat, mediaGeneration: nat, failures: nat, status: MediaStatus)

  /** The fields about recovery. */
  datatype Recovery = Recovery(
    state: RecoveryState, generation: nat, token: nat, nextToken: nat, mediaUnprepared: bool, job: Option<nat>)

  const NO_RECOVERY := Recovery(Idle, 0, 0, 0, false, None)

  class RtspServer {
    var running: bool
    var factory: Option<nat>
    var source: Source
    var recovery: Recovery
    var listener: bool
    var accepting: bool
    var jobs: seq<Job>
    var worker: Worker

    ghost function View(): Server
      reads this
    {
      Server(running, factory, source.media, source.appsrc, source.generation, source.mediaGeneration,
             source.failures, recovery.state, recovery.generation, recovery.token, recovery.nextToken,
             recovery.mediaUnprepared, recovery.job, source.status, listener, accepting, jobs, worker)
    }

    /** The recovery-state and job invariants, kept by every section. */
    ghost predicate Valid()
      reads this
    {
      ServerInv(View())
    }

    constructor ()
      ensures Valid() && View() == FRESH
    {
      running, factory := false, None;
      source := Source(None, None, 0, 0, 0, Unprepared);
      recovery := NO_RECOVERY;
      listener, accepting, jobs, worker := false, false, [], NO_WORKER;
    }

    method Initialise()
      requires Valid()
      modifies this
      ensures Valid() && View() == Initialised(old(View()))
      ensures source.media.None? && source.appsrc.None? && recovery.state == Idle && !accepting
    {
      LifecycleSectionsKeep(View());
      running := true;
      listener := false;
      accepting := false;
      factory := None;
      source := Source(None, None, source.generation, source.mediaGeneration + 1, 0, Unprepared);
      recovery := NO_RECOVERY;
    }

    /** The factory whose media start() will serve. */
    method InstallFactory(installed: nat)
      requires Valid()
      modifies this
      ensures Valid() && View() == old(View()).(factory := Some(installed))
    {
      factory := Some(installed);
    }

    /** Every job of an earlier worker is done, since that worker is gone. */
    method StartWorker()
      requires Valid() && !worker.alive
      modifies this
      ensures Valid() && View() == old(View()).(worker := Worker(true, true, false, None, None))
      ensures forall j | 0 <= j < |jobs| :: jobs[j].done
    {
      worker := Worker(true, true, false, None, None);
    }

    /** start()'s own opening of the listener, before the watchdog can have begun a recovery. */
    method OpenListener()
      requires Valid() && recovery.state != Running && recovery.state != Completed
      modifies this
      ensures Valid() && View() == old(View()).(listener := true, accepting := true)
    {
      listener := true;
      accepting := true;
    }

    /** Media is taken over only from nothing or from media on its way out; any recovery is withdrawn. */
    method OnMediaConfigure(from: nat, configured: nat) returns (accepted: bool, previous: Option<Ref>)
      requires Valid()
      modifies this
      ensures Valid() && accepted == ConfigureAccepts(old(View()), from)
      ensures accepted <==>
        && running && factory == Some(from)
        && (old(source.media).None? || old(source.status) == Unpreparing || old(source.status) == Errored)
      ensures accepted ==> source.status == Preparing && source.failures == 0
      ensures accepted ==> source.media == Some(configured) && source.appsrc.None? && recovery.state == Idle
      ensures accepted ==> source.mediaGeneration > old(source.mediaGeneration) && accepting == old(accepting)
      ensures accepted ==> View() == Configured(old(View()), configured) && previous == old(source.appsrc)
      ensures !accepted ==> View() == old(View()) && previous == None
    {
      ConfiguredKeeps(View(), configured);
      var replacingRetired := source.media.Some? && (source.status == Unpreparing || source.status == Errored);
      if !(running && factory == Some(from) && (source.media.None? || replacingRetired)) {
        return false, None;
      }
      accepted, previous := true, source.appsrc;
      source := Source(Some(configured), None, source.generation + 1, source.mediaGeneration + 1, 0, Preparing);
      recovery := recovery.(state := Idle, generation := 0, token := 0);
    }

    /** An accepted media has `ref`'s element bound afterwards; a recovering one is left without. */
    method BindMediaSource(of: nat, ref: Ref) returns (accepted: bool, changed: bool, previous: Option<Ref>)
      requires Valid()
      modifies this
      ensures Valid() && accepted == BindAccepts(old(View()), of)
      ensures accepted <==> source.media == Some(of) && recovery.state != Running && recovery.state != Requested
      ensures accepted ==> source.appsrc.Some? && source.appsrc.value.element == ref.element
      ensures changed == (accepted && BindChanges(old(View()), ref))
      ensures View() == if changed then BoundTo(old(View()), ref) else old(View())
      ensures previous == if changed then old(source.appsrc) else None
    {
      ghost var v := View();
      if BindAccepts(v, of) { BoundKeeps(v, of, ref); }
      previous, changed, accepted := None, false, true;
      if source.media != Some(of)
         || ((recovery.state == Requested || recovery.state == Running)
             && recovery.generation == source.mediaGeneration)
      {
        accepted := false;
      } else if source.appsrc.None? || source.appsrc.value.element != ref.element {
        previous := source.appsrc;
        source := source.(appsrc := Some(ref), generation := source.generation + 1);
        changed := true;
      }
    }

    method OnSetupFailed(of: nat)
      requires Valid()
      modifies this
      ensures Valid() && View() == SetupFailed(old(View()), of)
      ensures source.media == Some(of) ==> recovery.state == Requested && recovery.generation == source.mediaGeneration
    {
      RequestsKeep(View(), of);
      if source.media == Some(of) {
        recovery := recovery.(state := Requested, generation := source.mediaGeneration,
                              nextToken := recovery.nextToken + 1, token := recovery.nextToken + 1);
      }
    }

    method OnMediaPrepared(of: nat)
      requires Valid()
      modifies this
      ensures Valid() && View() == PreparedBy(old(View()), of)
      ensures source.media == Some(of) ==> source.status == Prepared && source.failures == 0
      ensures recovery == old(recovery)
    {
      StatusesKeep(View(), of);
      if source.media == Some(of) {
        source := source.(failures := 0, status := Prepared);
      }
    }

    /** The media and its source go; a recovery of that generation goes on, any other is withdrawn. */
    method OnMediaUnprepared(of: nat) returns (retired: Option<Ref>)
      requires Valid()
      modifies this
      ensures Valid() && View() == UnpreparedBy(old(View()), of)
      ensures old(source.media) == Some(of) ==> source.media.None? && source.appsrc.None?
      ensures old(source.media) == Some(of) ==>
        recovery.state == if old(recovery.state) == Running then Running else Idle
      ensures retired == if old(source.media) == Some(of) then old(source.appsrc) else None
    {
      UnpreparedKeeps(View(), of);
      retired := None;
      if source.media == Some(of) {
        retired := source.appsrc;
        var recoveredFromError := recovery.state == Running && recovery.generation == source.mediaGeneration;
        source := Source(None, None, source.generation + 1, source.mediaGeneration + 1, 0, Unprepared);
        if recoveredFromError {
          recovery := recovery.(mediaUnprepared := true);
        } else {
          recovery := NO_RECOVERY.(nextToken := recovery.nextToken);
        }
      }
    }

    method OnMediaTargetNull(of: nat)
      requires Valid()
      modifies this
      ensures Valid() && View() == TargetNull(old(View()), of)
      ensures source.media == Some(of) ==> source.status == Unpreparing
      ensures recovery == old(recovery)
    {
      StatusesKeep(View(), of);
      if source.media == Some(of) {
        source := source.(status := Unpreparing);
      }
    }

    method OnMediaError(of: nat) returns (first: bool)
      requires Valid()
      modifies this
      ensures Valid() && View() == BusError(old(View()), of)
      ensures source.media == Some(of) ==>
        && recovery.state == Requested && recovery.generation == source.mediaGeneration && recovery.token != 0
        && source.status == Errored
      ensures first ==> recovery.token == old(recovery.nextToken) + 1
    {
      RequestsKeep(View(), of);
      first := false;
      if source.media != Some(of) {
        return;
      }
      first := recovery.state == Idle || recovery.generation != source.mediaGeneration;
      recovery := recovery.(state := Requested, generation := source.mediaGeneration);
      if first {
        recovery := recovery.(nextToken := recovery.nextToken + 1, token := recovery.nextToken + 1);
      }
      source := source.(status := Errored);
    }

    /** The watchdog's snapshot and the decision it makes from it. */
    method WatchdogTick(ageUs: nat) returns (target: nat)
      requires Valid()
      ensures target == WatchdogTarget(View(), ageUs)
      ensures target != 0 <==>
        && source.media.Some?
        && (recovery.state == Requested || source.status == Errored
            || (source.status == Unpreparing && ageUs >= 3_000_000)
            || (source.status == Preparing && ageUs >= 10_000_000))
      ensures target != 0 ==> target == source.mediaGeneration
    {
      var seenGeneration, seenRequest, seenStatus := 0, 0, Unprepared;
      if source.media.Some? {
        seenGeneration := source.mediaGeneration;
        seenRequest := if recovery.state == Requested then recovery.generation else 0;
        seenStatus := source.status;
      }
      if seenRequest != 0 {
        return seenRequest;
      }
      if seenGeneration == 0 {
        return 0;
      }
      if seenStatus == Errored {
        return seenGeneration;
      } else if seenStatus == Unpreparing && ageUs >= 3_000_000 {
        return seenGeneration;
      } else if seenStatus == Preparing && ageUs >= 10_000_000 {
        return seenGeneration;
      }
      target := 0;
    }

    /** A teardown that is begun is for the current media, under the token of the request if there was
        one, owns the source, and leaves neither a source nor a listener behind. */
    method RecoverMedia(expected: nat) returns (begun: bool, threw: bool)
      requires Valid()
      modifies this
      ensures Valid()
      ensures begun <==>
        && running && source.media.Some? && source.mediaGeneration == expected
        && (old(recovery.state) == Requested || old(recovery.state) == Idle)
        && old(worker).handle && !old(worker).stopping && old(worker).pending.None?
      ensures begun ==> recovery.state == Running
      ensures begun ==> jobs == old(jobs) + [Job(recovery.token, source.mediaGeneration, old(source.appsrc), false)]
      ensures begun ==> source.appsrc.None? && !accepting && recovery.token != 0
      ensures begun && old(recovery.state) == Requested ==> recovery.token == old(recovery.token)
      ensures !begun ==> jobs == old(jobs) && source == old(source)
      ensures begun == (RecoverWants(old(View()), expected) && WorkerAccepts(old(View())))
      ensures threw == (RecoverWants(old(View()), expected) && !WorkerAccepts(old(View())))
      ensures begun ==> View() == Recovering(old(View()), expected)
      ensures !begun ==> View() == if RecoverStale(old(View()), expected)
                                   then CancelRequest(old(View()), expected) else old(View())
    {
      WatchdogSectionsKeep(View(), expected, false);
      begun, threw := false, false;
      if !running || source.media.None? || source.mediaGeneration != expected {
        CancelRecovery(expected);
      } else if recovery.state == Requested || recovery.state == Idle {
        if !worker.handle || worker.stopping || worker.pending.Some? {
          return false, true;
        }
        BeginRecovery(expected);
        begun := true;
      }
    }

    /** Running is published, the source and the job change hands, and the listener goes. */
    method BeginRecovery(expected: nat)
      modifies this
      ensures View() == Recovering(old(View()), expected)
    {
      var appsrc := source.appsrc;
      source := source.(appsrc := None, generation := source.generation + 1, failures := 0);
      if recovery.token == 0 {
        recovery := recovery.(nextToken := recovery.nextToken + 1, token := recovery.nextToken + 1);
      }
      recovery := recovery.(state := Running, generation := expected, mediaUnprepared := false, job := Some(|jobs|));
      listener := false;
      accepting := false;
      worker := worker.(pending := Some(|jobs|));
      jobs := jobs + [Job(recovery.token, expected, appsrc, false)];
    }

    method CancelRecovery(expected: nat)
      modifies this
      ensures !(recovery.state == Requested && recovery.generation == expected)
      ensures View() == CancelRequest(old(View()), expected)
    {
      if recovery.state == Requested && recovery.generation == expected {
        recovery := recovery.(state := Idle, generation := 0, token := 0);
      }
    }

    /** Completed means that the media is gone and that every teardown ever published is done. */
    method FinishRecovery() returns (ready: bool)
      requires Valid()
      modifies this
      ensures Valid() && ready == FinishReady(old(View())) && View() == Finished(old(View()))
      ensures ready <==>
        && running && old(recovery.state) == Running && source.media.None?
        && forall j | 0 <= j < |jobs| :: jobs[j].done
      ensures ready ==> source.appsrc.None? && recovery.state == Completed
      ensures recovery.state == Completed && old(recovery.state) != Completed ==> ready
    {
      WatchdogSectionsKeep(View(), 0, false);
      ready := running && recovery.state == Running && recovery.generation != 0 && recovery.mediaUnprepared
        && recovery.job.Some? && recovery.job.value < |jobs|
        && jobs[recovery.job.value].token == recovery.token && jobs[recovery.job.value].done;
      if ready {
        recovery := recovery.(state := Completed);
      }
    }

    /** Clients are accepted again only with nothing of the broken media left. */
    method ResumeListener(created: bool) returns (resumed: bool)
      requires Valid()
      modifies this
      ensures Valid() && resumed == ResumeReady(old(View()), created) && View() == Resumed(old(View()), created)
      ensures resumed <==> running && old(recovery.state) == Completed && created
      ensures resumed ==> source.media.None? && source.appsrc.None? && forall j | 0 <= j < |jobs| :: jobs[j].done
      ensures resumed ==> recovery.state == Idle
      ensures accepting <==> old(accepting) || resumed
    {
      WatchdogSectionsKeep(View(), 0, created);
      resumed := running && recovery.state == Completed && recovery.generation != 0 && recovery.mediaUnprepared
        && recovery.job.Some? && recovery.job.value < |jobs|
        && jobs[recovery.job.value].token == recovery.token && jobs[recovery.job.value].done
        && !accepting && created;
      if resumed {
        listener := true;
        accepting := true;
        recovery := NO_RECOVERY.(nextToken := recovery.nextToken);
      }
    }

    /** Only results of the current media count, and only the third failure in a row asks for recovery,
        of that media. */
    method ReportPush(pushedGeneration: nat, flow: Flow)
      requires Valid()
      modifies this
      ensures Valid() && View() == PushReported(old(View()), pushedGeneration, flow)
      ensures recovery != old(recovery) ==>
        && flow == FlowError && old(source.failures) >= 2
        && recovery.state == Requested && recovery.generation == pushedGeneration == source.mediaGeneration
      ensures source.media.None? || pushedGeneration != source.mediaGeneration ==> View() == old(View())
      ensures source.media.Some? && pushedGeneration == source.mediaGeneration ==>
        && source.failures == (if flow == FlowError then old(source.failures) + 1 else 0)
        && (flow == FlowError && old(source.failures) >= 2 ==>
              recovery.state == Requested && recovery.generation == source.mediaGeneration && recovery.token != 0)
    {
      FeederSectionKeeps(View(), pushedGeneration, flow);
      if source.media.None? || source.mediaGeneration != pushedGeneration {
        return;
      }
      if flow != FlowError {
        source := source.(failures := 0);
        return;
      }
      source := source.(failures := source.failures + 1);
      if source.failures >= 3 {
        if recovery.state == Idle || recovery.generation != pushedGeneration {
          recovery := recovery.(nextToken := recovery.nextToken + 1, token := recovery.nextToken + 1);
        }
        recovery := recovery.(state := Requested, generation := pushedGeneration);
      }
    }

    // ----- The recovery worker -----

    method WorkerTake() returns (taken: nat)
      requires Valid() && worker.alive && worker.busy.None? && worker.pending.Some?
      modifies this
      ensures Valid() && old(worker.pending) == Some(taken) && taken < |jobs| && !jobs[taken].done
      ensures View() == old(View()).(worker := old(worker).(busy := Some(taken), pending := None))
    {
      WorkerTakes(recovery.job, jobs, worker);
      taken := worker.pending.value;
      worker := worker.(busy := worker.pending, pending := None);
    }

    /** A job's source is released by the worker, if it has one, and it has none afterwards. */
    method WorkerUnref(taken: nat) returns (released: Option<Ref>)
      requires Valid() && worker.busy == Some(taken) && taken < |jobs|
      modifies this
      ensures Valid() && released == old(jobs[taken].source)
      ensures View() == old(View()).(jobs := old(jobs)[taken := old(jobs[taken]).(source := None)])
    {
      ghost var v := View();
      WorkerLetsGo(recovery.job, jobs, worker, taken);
      released := jobs[taken].source;
      jobs := jobs[taken := jobs[taken].(source := None)];
      JobsOnly(v, View());
    }

    method WorkerDone(taken: nat)
      requires Valid() && worker.busy == Some(taken) && taken < |jobs| && jobs[taken].source.None?
      modifies this
      ensures Valid() && (worker.pending.None? ==> forall j | 0 <= j < |jobs| :: jobs[j].done)
      ensures View() == old(View()).(jobs := old(jobs)[taken := old(jobs[taken]).(done := true)],
                                     worker := old(worker).(busy := None))
    {
      ghost var v := View();
      WorkerFinishes(recovery.job, jobs, worker, taken);
      jobs := jobs[taken := jobs[taken].(done := true)];
      worker := worker.(busy := None);
      JobsOnly(v, View());
    }

    /** requestRecoveryWorkerStop up to its join. */
    method AskWorkerStop()
      requires Valid()
      modifies this
      ensures Valid() && View() == old(View()).(worker := old(worker).(handle := false, stopping := true))
    {
      LifecycleSectionsKeep(View());
      worker := worker.(handle := false, stopping := true);
    }

    /** recoveryWorkerLoop once a stop is asked for: what is still in the slot is dealt with first, so that the
        worker leaves no job undone and no source unreleased. */
    method WorkerLoop() returns (released: seq<Ref>)
      requires Valid() && worker.alive && worker.stopping && worker.busy.None?
      modifies this
      ensures Valid() && !worker.alive && worker.pending.None?
      ensures forall j | 0 <= j < |jobs| :: jobs[j].done && jobs[j].source.None?
      ensures released == if old(worker.pending).Some? && old(jobs[worker.pending.value].source).Some?
                          then [old(jobs[worker.pending.value].source).value] else []
    {
      released := [];
      while worker.pending.Some?
        invariant Valid() && worker.alive && worker.stopping && worker.busy.None?
        invariant worker.pending.Some? ==> released == [] && View() == old(View())
        invariant worker.pending.None? ==>
          released == if old(worker.pending).Some? && old(jobs[worker.pending.value].source).Some?
                      then [old(jobs[worker.pending.value].source).value] else []
        decreases worker.pending.Some?
      {
        var taken := WorkerTake();
        var source := WorkerUnref(taken);
        WorkerDone(taken);
        released := if source.Some? then [source.value] else [];
      }
      WorkerExits(recovery.job, jobs, worker);
      worker := worker.(alive := false);
    }

    // ----- Stop -----

    method StopBegin()
      requires Valid()
      modifies this
      ensures Valid() && View() == old(View()).(running := false)
    {
      LifecycleSectionsKeep(View());
      running := false;
    }

    method StopTakeListener() returns (waitFor: Option<nat>)
      requires Valid()
      modifies this
      ensures Valid() && (waitFor.Some? ==> waitFor.value + 1 == |jobs|)
      ensures waitFor.Some? <==> recovery.state == Running && !jobs[|jobs| - 1].done
      ensures View() == old(View()).(listener := false, accepting := false)
      ensures waitFor == StopWaitsFor(old(View()))
    {
      LifecycleSectionsKeep(View());
      listener := false;
      accepting := false;
      waitFor := None;
      if recovery.state == Running && recovery.job.Some? && recovery.job.value < |jobs|
         && jobs[recovery.job.value].token == recovery.token && !jobs[recovery.job.value].done
      {
        waitFor := recovery.job;
      }
    }

    method StopRetire() returns (appsrc: Option<Ref>)
      requires Valid()
      modifies this
      ensures Valid() && source.media.None? && source.appsrc.None? && recovery.state == Idle
      ensures View() == Retired(old(View())) && appsrc == old(source.appsrc)
    {
      LifecycleSectionsKeep(View());
      appsrc := source.appsrc;
      factory := None;
      source := Source(None, None, source.generation + 1, source.mediaGeneration + 1, 0, Unprepared);
      recovery := NO_RECOVERY.(nextToken := recovery.nextToken);
    }
  }

  /** The recovery-state invariant does not mind a job getting on. */
  lemma JobsOnly(v: Server, v': Server)
    requires RecoveryInv(v) && JobInv(v'.job, v'.jobs, v'.worker)
    requires v' == v.(jobs := v'.jobs, worker := v'.worker) && |v'.jobs| == |v.jobs|
    requires forall j | 0 <= j < |v.jobs| ::
      v'.jobs[j].token == v.jobs[j].token && (v.jobs[j].done ==> v'.jobs[j].done)
    ensures ServerInv(v')
  {
  }

  // ----- From a new object to a reopened listener -----

  /** What start() leaves behind: factory 1 installed and the listener open. */
  const SERVING := Server(true, Some(1), None, None, 0, 1, 0, Idle, 0, 0, 0, false, None, Unprepared, true, true, [],
                          Worker(true, true, false, None, None))

  method StartServing() returns (server: RtspServer)
    ensures fresh(server) && server.Valid() && server.View() == SERVING
  {
    server := new RtspServer();
    server.Initialise();
    server.InstallFactory(1);
    server.StartWorker();
    server.OpenListener();
  }

  /** Media with a bound source, an error on its bus, and the request that follows. */
  function Broken(media: nat, ref: Ref): Server {
    SERVING.(media := Some(media), appsrc := Some(ref), generation := 2, mediaGeneration := 2,
             recovery := Requested, recoveryGeneration := 2, token := 1, nextToken := 1, status := Errored)
  }

  method ServeAndBreak(media: nat, ref: Ref) returns (server: RtspServer)
    ensures fresh(server) && server.Valid() && server.View() == Broken(media, ref)
  {
    server := StartServing();
    var configured, none := server.OnMediaConfigure(1, media);
    var accepted, changed, previous := server.BindMediaSource(media, ref);
    var first := server.OnMediaError(media);
  }

  /** A whole recovery: the watchdog has the media torn down, the worker releases its source, the media is
      unprepared, and the listener opens again. */
  method RecoverOnce(media: nat, ref: Ref) returns (server: RtspServer, released: Option<Ref>)
    ensures fresh(server) && server.Valid() && server.accepting && server.recovery.state == Idle
    ensures released == Some(ref) && |server.jobs| == 1 && server.jobs[0].done
  {
    server := ServeAndBreak(media, ref);
    var target := server.WatchdogTick(0);
    var begun, threw := server.RecoverMedia(target);
    var taken := server.WorkerTake();
    released := server.WorkerUnref(taken);
    server.WorkerDone(taken);
    var retired := server.OnMediaUnprepared(media);
    var ready := server.FinishRecovery();
    var resumed := server.ResumeListener(true);
  }
}
