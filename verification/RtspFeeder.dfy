/** The feeder: which unit opens a stream, and which failures count. */
module RtspFeeder {
  import opened Basics
  import opened AccessUnits
  import opened RtspSections
  import opened RtspSystem
  import opened RtspInvariants

  lemma SourceKeeps(a: seq<Attempt>, v: Server, v': Server)
    requires SourceInv(a, v.generation, v.appsrc) && SourceStep(v, v')
    ensures SourceInv(a, v'.generation, v'.appsrc)
  {
  }

  /** A result of the current media is charged or clears the counter; any other changes nothing. */
  lemma ReportKeepsEvents(v: Server, ev: seq<FeedEvent>, g: nat, flow: Flow)
    requires EventInv(ev, v.failures, v.mediaGeneration)
    ensures EventInv(ev + [Reported(g, flow, ResultIsCurrent(v, g))],
                     PushReported(v, g, flow).failures, PushReported(v, g, flow).mediaGeneration)
  {
    var ev' := ev + [Reported(g, flow, ResultIsCurrent(v, g))];
    assert ev'[..|ev'| - 1] == ev;
  }

  lemma CounterKeepsEvents(s: System, s': System)
    requires EventInv(s.events, s.v.failures, s.v.mediaGeneration) && CounterStep(s, s')
    ensures EventInv(s'.events, s'.v.failures, s'.v.mediaGeneration)
  {
  }

  lemma SnapshotKeepsChain(s: System, unit: Unit, memory: bool)
    requires ChainInv(s.attempts, s.feeder)
    ensures var s' := ApplySnapshot(s, unit, memory); ChainInv(s'.attempts, s'.feeder)
  {
    var s' := ApplySnapshot(s, unit, memory);
    var a, a' := s.attempts, s'.attempts;
    assert forall k :: 0 <= k < |a| ==> Chained(a, k) && a'[k] == a[k];
    forall k | 0 <= k < |a'| ensures Chained(a', k) {
      if k < |a| { assert Chained(a, k); }
    }
  }

  lemma SnapshotKeepsSource(s: System, unit: Unit, memory: bool)
    requires SourceInv(s.attempts, s.v.generation, s.v.appsrc)
    ensures SourceInv(ApplySnapshot(s, unit, memory).attempts, s.v.generation, s.v.appsrc)
  {
  }

  ghost predicate Feeds(s: System) {
    && ChainInv(s.attempts, s.feeder)
    && SourceInv(s.attempts, s.v.generation, s.v.appsrc)
    && EventInv(s.events, s.v.failures, s.v.mediaGeneration)
  }

  lemma FeederFeeds(s: System, step: FeedStep)
    requires Feeds(s)
    ensures Feeds(ApplyFeeder(s, step))
  {
    match step
    case FeedSnapshot(unit, memory) =>
      SnapshotKeepsChain(s, unit, memory);
      SnapshotKeepsSource(s, unit, memory);
    case FeedReport(flow) =>
      if s.feeder.pc.FeedPush? { ReportKeepsEvents(s.v, s.events, s.feeder.pc.mediaGeneration, flow); }
    case _ =>
  }

  lemma TaskFeeds(s: System, t: nat, s': System)
    requires Feeds(s) && TaskFrame(s, t, s')
    ensures Feeds(s')
  {
    SourceKeeps(s.attempts, s.v, s'.v);
    CounterKeepsEvents(s, s');
  }

  lemma WorkerFeeds(s: System, s': System)
    requires Feeds(s) && WorkerFrame(s, s')
    ensures Feeds(s')
  {
  }

  /** start finds no source bound, so it need not count a new generation. */
  ghost predicate LifeFeedFrame(s: System, s': System) {
    && s'.attempts == s.attempts && SourceStep(s.v, s'.v) && CounterStep(s, s')
    && (s'.feeder == s.feeder || (s'.feeder.awaiting && s'.feeder.frameIndex == 0))
  }

  lemma StartFeedFrame(s: System, step: StartStep)
    requires LifeInv(s)
    ensures LifeFeedFrame(s, ApplyStart(s, step))
  {
    match step
    case Start =>
    case _ =>
  }

  lemma StopFeedFrame(s: System, step: StopStep)
    ensures LifeFeedFrame(s, ApplyStop(s, step))
  {
    match step
    case Retire =>
    case StopBegin =>
    case _ =>
  }

  lemma LifeFeeds(s: System, s': System)
    requires Feeds(s) && LifeFeedFrame(s, s')
    ensures Feeds(s')
  {
    SourceKeeps(s.attempts, s.v, s'.v);
    CounterKeepsEvents(s, s');
  }
}
