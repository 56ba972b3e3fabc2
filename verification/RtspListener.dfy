/** When a listener that recovery has closed stays closed. The code does not promise that it opens
    again; this says what it takes. */
module RtspListener {
  import opened Basics
  import opened RtspSections
  import opened RtspSystem
  import opened RtspInvariants
  import opened RtspTheorems

  /** The step is one of those that configure new media or begin a stop. */
  predicate ConfiguresOrStops(step: Step) {
    step.OfStop? || (step.OfTask? && step.act == Configure)
  }

  // ----- A listener that could not be created -----

  ghost predicate NobodyResumes(tasks: map<nat, Task>) {
    forall t :: t in tasks ==> !tasks[t].pc.AtResume?
  }

  predicate OverAndClosed(v: Server) {
    v.running && v.recovery == Completed && !v.accepting && v.media.None?
  }

  /** The recovery is over, the listener is not back, and no watchdog body is about to bring it back. */
  ghost predicate Stranded(s: System) {
    s.life == Serving && OverAndClosed(s.v) && NobodyResumes(s.tasks)
  }

  lemma WatchKeepsStranded(s: System, t: nat, act: Act)
    requires Stranded(s) && t in s.tasks
    ensures Stranded(ApplyWatch(s, t, s.tasks[t].pc, act))
  {
  }

  lemma TaskKeepsStranded(s: System, t: nat, act: Act)
    requires Stranded(s) && act != Configure
    ensures Stranded(ApplyTask(s, t, act))
  {
    if t in s.tasks {
      var pc := s.tasks[t].pc;
      match act
      case Acquire(_, _) =>
      case Bind =>
      case FinishBind =>
      case Notify =>
      case Unrefs =>
      case Leave =>
      case _ => WatchKeepsStranded(s, t, act);
    }
  }

  lemma FeederKeepsStranded(s: System, step: FeedStep)
    requires Stranded(s)
    ensures Stranded(ApplyFeeder(s, step))
  {
    FeederIsFramed(s, step);
    assert ApplyFeeder(s, step).v.recovery == s.v.recovery;
  }

  lemma StepKeepsStranded(s: System, step: Step)
    requires Stranded(s) && !ConfiguresOrStops(step)
    ensures Stranded(Apply(s, step))
  {
    match step
    case OfStart(l) =>
    case Enter(t, epoch, pc) =>
    case OfTask(t, act) => TaskKeepsStranded(s, t, act);
    case OfWorker(w) => WorkerIsFramed(s, w);
    case OfFeeder(f) => FeederKeepsStranded(s, f);
  }

  /** A listener that could not be created is not tried again: until new media is configured or the
      server stops, no continuation of any length opens it. */
  lemma {:induction false} FailedListenerIsFinal(s: System, steps: seq<Step>)
    requires Stranded(s) && forall i | 0 <= i < |steps| :: !ConfiguresOrStops(steps[i])
    ensures Stranded(Run(s, steps)) && !Run(s, steps).v.accepting
  {
    if steps != [] {
      FailedListenerIsFinal(s, steps[..|steps| - 1]);
      StepKeepsStranded(Run(s, steps[..|steps| - 1]), steps[|steps| - 1]);
    }
  }

  /** New media does end that state, and the listener is closed still. */
  lemma NewMediaKeepsItClosed(s: System, t: nat, media: nat, factory: nat)
    requires Stranded(s) && t in s.tasks && s.tasks[t].pc == AtConfigure(media, factory)
    ensures var s' := Apply(s, OfTask(t, Configure));
      && !s'.v.accepting
      && (s.v.factory == Some(factory) <==> s'.v.recovery == Idle)
      && (s.v.factory == Some(factory) ==> s'.v.media == Some(media) && Waiting(s'))
  {
  }

  // ----- A listener whose recovery was withdrawn -----

  /** Closed, with no recovery under way. */
  predicate Waiting(s: System) {
    s.life == Serving && !s.v.accepting && (s.v.recovery == Idle || s.v.recovery == Requested)
  }

  lemma WatchKeepsWaiting(s: System, t: nat, act: Act)
    requires Waiting(s) && t in s.tasks
    ensures var s' := ApplyWatch(s, t, s.tasks[t].pc, act);
      |s'.v.jobs| == |s.v.jobs| ==> Waiting(s')
  {
  }

  lemma TaskKeepsWaiting(s: System, t: nat, act: Act)
    requires Waiting(s)
    ensures var s' := ApplyTask(s, t, act);
      |s'.v.jobs| == |s.v.jobs| ==> Waiting(s')
  {
    TaskIsFramed(s, t, act);
    if t in s.tasks && OfWatchdog(s.tasks[t].pc) {
      WatchKeepsWaiting(s, t, act);
      assert ApplyTask(s, t, act) == s || ApplyTask(s, t, act) == ApplyWatch(s, t, s.tasks[t].pc, act);
    }
  }

  lemma StepKeepsWaiting(s: System, step: Step)
    requires Waiting(s) && !step.OfStop?
    ensures |Apply(s, step).v.jobs| == |s.v.jobs| ==> Waiting(Apply(s, step))
  {
    match step
    case OfStart(l) =>
    case Enter(t, epoch, pc) =>
    case OfTask(t, act) => TaskKeepsWaiting(s, t, act);
    case OfWorker(w) => WorkerIsFramed(s, w);
    case OfFeeder(f) => FeederIsFramed(s, f);
  }

  lemma JobsNeverShrink(s: System, step: Step)
    requires s.epochs != []
    ensures |Apply(s, step).v.jobs| >= |s.v.jobs|
  {
    NotableSteps(s, step);
  }

  /** With no recovery under way a closed listener stays closed until a teardown is published again. */
  lemma {:induction false} ClosedUntilNextRecovery(s: System, steps: seq<Step>)
    requires Inv(s) && Waiting(s) && forall i | 0 <= i < |steps| :: !steps[i].OfStop?
    ensures |Run(s, steps).v.jobs| >= |s.v.jobs|
    ensures |Run(s, steps).v.jobs| == |s.v.jobs| ==> Waiting(Run(s, steps)) && !Run(s, steps).v.accepting
  {
    if steps != [] {
      var before, step := steps[..|steps| - 1], steps[|steps| - 1];
      ClosedUntilNextRecovery(s, before);
      RunKeepsInv(s, before);
      JobsNeverShrink(Run(s, before), step);
      if |Run(s, steps).v.jobs| == |s.v.jobs| {
        StepKeepsWaiting(Run(s, before), step);
      }
    }
  }
}
