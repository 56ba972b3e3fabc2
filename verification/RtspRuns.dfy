/** Runs from creation that show what the server can do: a whole recovery, the two ways in which its
    listener stays closed, and a stream that starts with an undecodable unit. */
module RtspRuns {
  import opened Basics
  import opened AccessUnits
  import opened RtspSections
  import opened RtspSystem
  import opened RtspInvariants
  import opened RtspTheorems
  import opened RtspListener
  import opened RtspResponses
  import opened RtspFeederStart

  ghost predicate Reaches(s: System) {
    exists steps :: Run(CREATED, steps) == s
  }

  lemma Then(s: System, step: Step)
    requires Reaches(s)
    ensures Reaches(Apply(s, step))
  {
    var steps :| Run(CREATED, steps) == s;
    assert (steps + [step])[..|steps|] == steps;
    assert Run(CREATED, steps + [step]) == Apply(s, step);
  }

  const WORKER := Worker(true, true, false, None, None)

  /** Factory 1 is installed and no client has come yet. */
  const WAITING := FRESH.(
    running := true, factory := Some(1), mediaGeneration := 1, listener := true, accepting := true, worker := WORKER)

  /** Media 7 is current, with a reference to the appsrc element 3 bound. */
  const BOUND := WAITING.(
    media := Some(7), appsrc := Some(Ref(0, 3)), generation := 2, mediaGeneration := 2, status := Preparing)

  /** Its bus reported an error and recovery 1 is asked for. */
  const BROKEN := BOUND.(recovery := Requested, recoveryGeneration := 2, token := 1, nextToken := 1, status := Errored)

  /** The source is in the worker's hands and the listener closed. */
  const RECOVERING := BROKEN.(
    appsrc := None, generation := 3, recovery := Running, job := Some(0), listener := false, accepting := false,
    jobs := [Job(1, 2, Some(Ref(0, 3)), false)], worker := WORKER.(pending := Some(0)))

  const TORN_DOWN := RECOVERING.(jobs := [Job(1, 2, None, true)], worker := WORKER)

  const GONE := TORN_DOWN.(
    media := None, generation := 4, mediaGeneration := 3, mediaUnprepared := true, status := Unprepared)

  const REOPENED := GONE.(
    recovery := Idle, recoveryGeneration := 0, token := 0, mediaUnprepared := false, job := None,
    listener := true, accepting := true)

  const FEEDER := Feeder(true, FeedIdle, 0, 0, 0, true)

  /** A state that can be reached, with these fields; the names of callback bodies from `n` on are unused. */
  ghost predicate Point(s: System, v: Server, n: nat) {
    && Reaches(s) && s.v == v && s.life == Serving && s.watchdog && |s.epochs| == 2 && s.epochs[1].enabled
    && forall t: nat | t >= n :: t !in s.tasks
  }

  /** start() up to the named stage. */
  ghost predicate Starting(s: System, life: Life, v: Server) {
    Reaches(s) && s.life == life && s.v == v && s.epochs == [Epoch(true, 0), Epoch(true, 0)]
    && s.tasks == map[] && s.ledger.taken == 0
  }

  lemma Starts() returns (s: System)
    ensures Starting(s, FactoryUp, WAITING.(listener := false, accepting := false, worker := NO_WORKER))
  {
    assert Run(CREATED, []) == CREATED;
    Then(CREATED, OfStart(Start));
    var s1 := Apply(CREATED, OfStart(Start));
    Then(s1, OfStart(InstallFactory(1)));
    s := Apply(s1, OfStart(InstallFactory(1)));
  }

  lemma Listens() returns (s: System)
    ensures Starting(s, ListenerUp, WAITING)
  {
    var s2 := Starts();
    Then(s2, OfStart(StartWorker));
    var s3 := Apply(s2, OfStart(StartWorker));
    assert Starting(s3, WorkerUp, WAITING.(listener := false, accepting := false));
    Then(s3, OfStart(OpenListener));
    s := Apply(s3, OfStart(OpenListener));
  }

  lemma Serves() returns (s: System)
    ensures Point(s, WAITING, 0) && s.ledger.taken == 0 && NobodyResumes(s.tasks) && s.feeder == FEEDER
  {
    var s4 := Listens();
    Then(s4, OfStart(InstallWatchdog));
    var s5 := Apply(s4, OfStart(InstallWatchdog));
    assert Starting(s5, WatchdogUp, WAITING);
    Then(s5, OfStart(StartFeeder));
    s := Apply(s5, OfStart(StartFeeder));
  }

  lemma Enters(s: System, v: Server, n: nat, pc: Pc) returns (s': System)
    requires Point(s, v, n) && IsEntry(pc) && NobodyResumes(s.tasks)
    ensures Point(s', v, n + 1) && NobodyResumes(s'.tasks)
    ensures n in s'.tasks && s'.tasks[n].pc == pc && s'.ledger == s.ledger && s'.feeder == s.feeder
  {
    Then(s, Enter(n, 1, pc));
    s' := Apply(s, Enter(n, 1, pc));
  }

  lemma Acts(s: System, v: Server, n: nat, act: Act, v': Server, pc: Pc) returns (s': System)
    requires Point(s, v, n + 1) && n in s.tasks && pc != s.tasks[n].pc
    requires var next := ApplyTask(s, n, act);
      next.v == v' && n in next.tasks && next.tasks[n].pc == pc
    ensures s' == ApplyTask(s, n, act) && Point(s', v', n + 1) && n in s'.tasks && s'.tasks[n].pc == pc
    ensures forall t | t in s'.tasks && t != n :: t in s.tasks && s'.tasks[t] == s.tasks[t]
    ensures s'.feeder == s.feeder
  {
    Then(s, OfTask(n, act));
    TaskIsFramed(s, n, act);
    s' := ApplyTask(s, n, act);
  }

  const CONFIGURED := WAITING.(media := Some(7), generation := 1, mediaGeneration := 2, status := Preparing)

  lemma Configures(s: System) returns (s': System)
    requires Point(s, WAITING, 0) && s.ledger.taken == 0 && NobodyResumes(s.tasks)
    ensures Point(s', CONFIGURED, 1) && s'.ledger.taken == 0 && NobodyResumes(s'.tasks) && s'.feeder == s.feeder
    ensures 0 in s'.tasks && s'.tasks[0].pc == AtBindCall(7, ThenConfigured)
  {
    var s1 := Enters(s, WAITING, 0, AtConfigure(7, 1));
    var s2 := Acts(s1, WAITING, 0, Configure, CONFIGURED, AtDropPrevious(7, None));
    s' := Acts(s2, CONFIGURED, 0, Unrefs, CONFIGURED, AtBindCall(7, ThenConfigured));
  }

  lemma Binds(s: System) returns (s': System)
    requires Point(s, WAITING, 0) && s.ledger.taken == 0 && NobodyResumes(s.tasks)
    ensures Point(s', BOUND, 1) && NobodyResumes(s'.tasks) && s'.feeder == s.feeder
  {
    var s3 := Configures(s);
    var s4 := Acts(s3, CONFIGURED, 0, Acquire(Some(3), true), CONFIGURED, AtBind(7, Ref(0, 3), ThenConfigured));
    s' := Acts(s4, CONFIGURED, 0, Bind, BOUND, AtDropSource(7, Ref(0, 3), true, true, None, ThenConfigured));
  }

  lemma Breaks(s: System) returns (s': System)
    requires Point(s, BOUND, 1) && NobodyResumes(s.tasks)
    ensures Point(s', BROKEN, 2) && NobodyResumes(s'.tasks)
  {
    var s1 := Enters(s, BOUND, 1, AtBusError(7));
    s' := Acts(s1, BOUND, 1, Notify, BROKEN, AtExit);
  }

  lemma Looks(s: System) returns (s': System)
    requires Point(s, BROKEN, 2) && NobodyResumes(s.tasks)
    ensures Point(s', BROKEN, 3) && NobodyResumes(s'.tasks) && 2 in s'.tasks && s'.tasks[2].pc == AtRecover(2)
  {
    var s1 := Enters(s, BROKEN, 2, AtFinish);
    var s2 := Acts(s1, BROKEN, 2, WatchFinish, BROKEN, AtLook);
    s' := Acts(s2, BROKEN, 2, WatchLook(0), BROKEN, AtRecover(2));
  }

  lemma Recovers(s: System) returns (s': System)
    requires Point(s, BROKEN, 2) && NobodyResumes(s.tasks)
    ensures Point(s', RECOVERING, 3) && NobodyResumes(s'.tasks)
  {
    var s3 := Looks(s);
    s' := Acts(s3, BROKEN, 2, WatchRecover(true), RECOVERING, AtExit);
  }

  lemma TearsDown(s: System) returns (s': System)
    requires Point(s, RECOVERING, 3) && NobodyResumes(s.tasks)
    ensures Point(s', TORN_DOWN, 3) && NobodyResumes(s'.tasks)
  {
    Then(s, OfWorker(WorkerTake));
    var s1 := Apply(s, OfWorker(WorkerTake));
    assert s1.v == RECOVERING.(worker := WORKER.(busy := Some(0)));
    Then(s1, OfWorker(WorkerUnref));
    var s2 := Apply(s1, OfWorker(WorkerUnref));
    assert s2.v.jobs == [Job(1, 2, None, false)];
    Then(s2, OfWorker(WorkerDone));
    s' := Apply(s2, OfWorker(WorkerDone));
    assert s'.v.jobs == [Job(1, 2, None, true)];
  }

  lemma Unprepares(s: System) returns (s': System)
    requires Point(s, TORN_DOWN, 3) && NobodyResumes(s.tasks)
    ensures Point(s', GONE, 4) && NobodyResumes(s'.tasks)
  {
    var s1 := Enters(s, TORN_DOWN, 3, AtUnprepared(7));
    s' := Acts(s1, TORN_DOWN, 3, Notify, GONE, AtDropRetired(None));
  }

  /** The media of a recovery is torn down and gone. */
  lemma Finishes() returns (s: System)
    ensures Point(s, GONE.(recovery := Completed), 5) && 4 in s.tasks && s.tasks[4].pc == AtResume
    ensures forall t | t in s.tasks && t != 4 :: !s.tasks[t].pc.AtResume?
  {
    s := Serves();
    s := Binds(s);
    s := Breaks(s);
    s := Recovers(s);
    s := TearsDown(s);
    s := Unprepares(s);
    s := Enters(s, GONE, 4, AtFinish);
    s := Acts(s, GONE, 4, WatchFinish, GONE.(recovery := Completed), AtResume);
  }

  /** Some run takes a bound media through error, teardown, unprepare and completion to a listener
      that accepts clients again. */
  lemma RecoveryCanComplete() returns (steps: seq<Step>, step: Step)
    ensures var s, v' := Run(CREATED, steps), Apply(Run(CREATED, steps), step).v;
      s.v.recovery == Completed && !s.v.accepting && v'.accepting && v'.recovery == Idle && |v'.jobs| == 1
  {
    var s := Finishes();
    var s' := Acts(s, GONE.(recovery := Completed), 4, WatchResume(true), REOPENED, AtLook);
    steps :| Run(CREATED, steps) == s;
    step := OfTask(4, WatchResume(true));
  }

  /** Another fails to create the listener at that point, and stays without one. */
  lemma ListenerCanStayClosed() returns (steps: seq<Step>)
    ensures Stranded(Run(CREATED, steps))
  {
    var s := Finishes();
    var v := GONE.(recovery := Completed);
    var s' := Acts(s, v, 4, WatchResume(false), v, AtLook);
    steps :| Run(CREATED, steps) == s';
  }

  /** In another, media that is configured while the broken one is torn down withdraws the recovery,
      and the listener is closed with nothing under way to open it. */
  lemma RecoveryCanBeWithdrawn() returns (steps: seq<Step>, step: Step)
    ensures var s, s' := Run(CREATED, steps), Apply(Run(CREATED, steps), step);
      s.v.recovery == Running && !s.v.accepting && s'.v.recovery == Idle && Waiting(s')
  {
    var s := Serves();
    s := Binds(s);
    s := Breaks(s);
    s := Recovers(s);
    s := Enters(s, RECOVERING, 3, AtConfigure(8, 1));
    steps :| Run(CREATED, steps) == s;
    step := OfTask(3, Configure);
  }

  /** In another, no buffer can be made for the decodable unit that opens a stream, and the next unit,
      which no decoder can start from, is the stream's first push. */
  lemma StreamCanStartUndecodable() returns (steps: seq<Step>)
    ensures !Buffered(steps) && !StartsDecodable(Run(CREATED, steps).attempts)
  {
    var s := Serves();
    s := Binds(s);
    var before :| Run(CREATED, before) == s;
    var key := Unit(1, 1, true, true, true, Some([0]));
    var delta := Unit(2, 1, false, false, false, Some([0]));
    FailedOpenerStrands(before, key, false, delta);
    steps := before + [OfFeeder(FeedSnapshot(key, false))] + Follow(delta);
    assert steps[|before|] == OfFeeder(FeedSnapshot(key, false)) && steps[..|before|] == before;
    assert !BuffersOpener(Run(CREATED, steps[..|before|]), steps[|before|]);
  }

  // ----- Recoveries that no bus error starts -----

  lemma WatchdogLooks(s: System, v: Server, n: nat, ageUs: nat) returns (s': System)
    requires Point(s, v, n) && NobodyResumes(s.tasks) && ServerInv(v) && v.running && v.recovery != Running
    requires Overdue(v, ageUs)
    ensures Point(s', v, n + 1) && n in s'.tasks && s'.tasks[n].pc == AtRecover(v.mediaGeneration)
  {
    TargetOfOverdue(v, ageUs);
    var s1 := Enters(s, v, n, AtFinish);
    var s2 := Acts(s1, v, n, WatchFinish, v, AtLook);
    LookMoves(s2, n, ageUs);
    s' := Acts(s2, v, n, WatchLook(ageUs), v, AtRecover(v.mediaGeneration));
  }

  lemma RecoverMoves(s: System, t: nat, expected: nat)
    requires t in s.tasks && s.tasks[t].pc == AtRecover(expected)
    requires RecoverWants(s.v, expected) && WorkerAccepts(s.v)
    ensures var s' := ApplyTask(s, t, WatchRecover(true));
      s'.v == Recovering(s.v, expected) && t in s'.tasks && s'.tasks[t].pc == AtExit
  {
  }

  /** A watchdog body takes overdue media to a recovery. */
  lemma WatchdogRecovers(s: System, v: Server, n: nat, ageUs: nat) returns (s': System)
    requires Point(s, v, n) && NobodyResumes(s.tasks) && ServerInv(v)
    requires v.running && Overdue(v, ageUs) && (v.recovery == Idle || v.recovery == Requested) && WorkerAccepts(v)
    ensures Point(s', Recovering(v, v.mediaGeneration), n + 1)
  {
    var s3 := WatchdogLooks(s, v, n, ageUs);
    RecoverMoves(s3, n, v.mediaGeneration);
    s' := Acts(s3, v, n, WatchRecover(true), Recovering(v, v.mediaGeneration), AtExit);
  }

  /** Media that never gets prepared is torn down after ten seconds. */
  lemma HungMediaIsRecovered() returns (steps: seq<Step>)
    ensures Run(CREATED, steps).v.recovery == Running && |Run(CREATED, steps).v.jobs| == 1
  {
    var s := Serves();
    s := Binds(s);
    s := WatchdogRecovers(s, BOUND, 1, 10_000_000);
    steps :| Run(CREATED, steps) == s;
  }

  const KEYFRAME := Unit(1, 1, true, true, true, Some([0]))

  /** BOUND after `k` failed pushes. */
  function Failing(k: nat): Server {
    if k < 3 then BOUND.(failures := k)
    else BOUND.(failures := k, recovery := Requested, recoveryGeneration := 2, token := 1, nextToken := 1)
  }

  lemma PushFails(s: System, k: nat) returns (s': System)
    requires Point(s, Failing(k), 1) && k < 3 && NobodyResumes(s.tasks)
    requires s.feeder.alive && s.feeder.pc == FeedIdle
    ensures Point(s', Failing(k + 1), 1) && NobodyResumes(s'.tasks) && s'.feeder.alive && s'.feeder.pc == FeedIdle
  {
    Then(s, OfFeeder(FeedSnapshot(KEYFRAME, true)));
    var s1 := Apply(s, OfFeeder(FeedSnapshot(KEYFRAME, true)));
    Then(s1, OfFeeder(FeedReport(FlowError)));
    var s2 := Apply(s1, OfFeeder(FeedReport(FlowError)));
    Then(s2, OfFeeder(FeedRelease));
    s' := Apply(s2, OfFeeder(FeedRelease));
  }

  /** Media whose pushes fail three times in a row is torn down. */
  lemma FailedPushesAreRecovered() returns (steps: seq<Step>)
    ensures Run(CREATED, steps).v.recovery == Running && |Run(CREATED, steps).v.jobs| == 1
  {
    var s := Serves();
    s := Binds(s);
    s := PushFails(s, 0);
    s := PushFails(s, 1);
    s := PushFails(s, 2);
    s := WatchdogRecovers(s, Failing(3), 1, 0);
    steps :| Run(CREATED, steps) == s;
  }
}
