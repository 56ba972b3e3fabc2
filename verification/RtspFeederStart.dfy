/** Which unit reaches a new stream first. The feeder waits for a decodable unit once per stream; a
    stream's first push is decodable exactly as long as no buffer for such an opening unit fails. */
module RtspFeederStart {
  import opened Basics
  import opened AccessUnits
  import opened RtspSections
  import opened RtspSystem
  import opened RtspInvariants
  import opened RtspTheorems

  // ----- Streams and their first push -----

  /** Attempts `j` to `k` belong to one stream: none after `j` starts over. */
  predicate SameStream(a: seq<Attempt>, j: nat, k: nat)
    requires k < |a|
  {
    forall i | j < i <= k :: a[i].offset != 0
  }

  predicate FirstPush(a: seq<Attempt>, k: nat) {
    k < |a| && a[k].pushed && forall j | 0 <= j < k && SameStream(a, j, k) :: !a[j].pushed
  }

  predicate SameKey(a: seq<Attempt>, j: nat, k: nat)
    requires k < |a|
  {
    forall i | j <= i < k :: a[i].generation == a[k].generation && a[i].encoder == a[k].encoder
  }

  /** The first push for a source binding and an encoder generation within it. */
  predicate FirstPushOfBinding(a: seq<Attempt>, k: nat) {
    k < |a| && a[k].pushed && forall j | 0 <= j < k && SameKey(a, j, k) :: !a[j].pushed
  }

  /** Every stream's first push is a unit a decoder can start from. */
  predicate StartsDecodable(a: seq<Attempt>) {
    forall k | 0 <= k < |a| :: FirstPush(a, k) ==> a[k].decodable
  }

  // ----- The condition -----

  /** Passing `unit` on in this state would open a stream. */
  predicate Opens(s: System, unit: Unit) {
    && s.feeder.alive && s.feeder.pc == FeedIdle && s.v.appsrc.Some? && unit.IndependentlyDecodable()
    && (s.feeder.awaiting || s.v.generation != s.feeder.observedGeneration
        || s.feeder.observedEncoder != unit.generation)
  }

  /** The step does not fail to make the buffer of a unit that opens a stream. */
  predicate BuffersOpener(s: System, step: Step) {
    step.OfFeeder? && step.feed.FeedSnapshot? && Opens(s, step.feed.unit) ==>
      step.feed.memory && step.feed.unit.SizeBytes() > 0
  }

  ghost predicate Buffered(steps: seq<Step>) {
    forall i | 0 <= i < |steps| :: BuffersOpener(Run(CREATED, steps[..i]), steps[i])
  }

  // ----- It is enough -----

  predicate OpenersPushed(a: seq<Attempt>) {
    forall k | 0 <= k < |a| :: a[k].offset == 0 ==> a[k].pushed
  }

  lemma SnapshotPushesOpener(s: System, unit: Unit, memory: bool)
    requires ChainInv(s.attempts, s.feeder) && OpenersPushed(s.attempts)
    requires BuffersOpener(s, OfFeeder(FeedSnapshot(unit, memory)))
    ensures OpenersPushed(ApplySnapshot(s, unit, memory).attempts)
  {
  }

  lemma OtherStepsAttemptNothing(s: System, step: Step)
    requires !(step.OfFeeder? && step.feed.FeedSnapshot?)
    ensures Apply(s, step).attempts == s.attempts
  {
    match step
    case OfTask(t, act) => TaskIsFramed(s, t, act);
    case OfWorker(w) => WorkerIsFramed(s, w);
    case _ =>
  }

  lemma {:induction false} BufferedRun(steps: seq<Step>)
    requires Buffered(steps)
    ensures OpenersPushed(Run(CREATED, steps).attempts)
  {
    if steps != [] {
      var n := |steps| - 1;
      var before, step := steps[..n], steps[n];
      forall i | 0 <= i < n ensures BuffersOpener(Run(CREATED, before[..i]), before[i]) {
        assert before[..i] == steps[..i];
      }
      BufferedRun(before);
      EveryRunKeepsInv(before);
      var s := Run(CREATED, before);
      if step.OfFeeder? && step.feed.FeedSnapshot? {
        SnapshotPushesOpener(s, step.feed.unit, step.feed.memory);
      } else {
        OtherStepsAttemptNothing(s, step);
      }
    }
  }

  /** The attempt that opened the stream of attempt `k`. */
  lemma {:induction false} OpenerOf(a: seq<Attempt>, k: nat) returns (j: nat)
    requires k < |a| && forall i | 0 <= i < |a| :: Chained(a, i)
    ensures j <= k && a[j].offset == 0 && a[j].decodable && SameStream(a, j, k) && a[k].offset == k - j
  {
    assert Chained(a, k);
    if a[k].offset == 0 {
      j := k;
    } else {
      j := OpenerOf(a, k - 1);
    }
  }

  lemma {:induction false} StreamSharesKey(a: seq<Attempt>, j: nat, k: nat)
    requires j <= k < |a| && SameStream(a, j, k) && forall i | 0 <= i < |a| :: Chained(a, i)
    ensures SameKey(a, j, k)
    decreases k - j
  {
    if j < k {
      assert Chained(a, k);
      StreamSharesKey(a, j, k - 1);
    }
  }

  lemma PushedOpenersComeFirst(a: seq<Attempt>, k: nat)
    requires OpenersPushed(a) && forall i | 0 <= i < |a| :: Chained(a, i)
    ensures FirstPush(a, k) || FirstPushOfBinding(a, k) ==> a[k].decodable && a[k].offset == 0
  {
    if FirstPush(a, k) || FirstPushOfBinding(a, k) {
      var j := OpenerOf(a, k);
      StreamSharesKey(a, j, k);
    }
  }

  /** As long as every opening unit gets its buffer, the first unit handed to push of every stream, and
      so of every binding and every encoder generation in it, is decodable and has offset 0. */
  lemma FirstPushIsOpener(steps: seq<Step>, k: nat)
    requires Buffered(steps)
    ensures var a := Run(CREATED, steps).attempts;
      FirstPush(a, k) || FirstPushOfBinding(a, k) ==> a[k].decodable && a[k].offset == 0
  {
    EveryRunKeepsInv(steps);
    BufferedRun(steps);
    PushedOpenersComeFirst(Run(CREATED, steps).attempts, k);
  }

  // ----- It is needed -----

  predicate Undecodable(delta: Unit) {
    !delta.IndependentlyDecodable() && delta.SizeBytes() > 0
  }

  /** The feeder lets its reference go and then gets `delta`, for which a buffer can be made. */
  function Follow(delta: Unit): seq<Step> {
    [OfFeeder(FeedRelease), OfFeeder(FeedSnapshot(delta, true))]
  }

  lemma RunAppend(steps: seq<Step>, step: Step)
    ensures Run(CREATED, steps + [step]) == Apply(Run(CREATED, steps), step)
  {
    assert (steps + [step])[..|steps|] == steps;
  }

  lemma RunFollow(steps: seq<Step>, delta: Unit)
    ensures Run(CREATED, steps + Follow(delta))
         == ApplySnapshot(ApplyFeeder(Run(CREATED, steps), FeedRelease), delta, true)
  {
    RunAppend(steps, OfFeeder(FeedRelease));
    RunAppend(steps + [OfFeeder(FeedRelease)], OfFeeder(FeedSnapshot(delta, true)));
    assert steps + Follow(delta) == steps + [OfFeeder(FeedRelease)] + [OfFeeder(FeedSnapshot(delta, true))];
  }

  lemma StrandedPush(s: System, key: Unit, memory: bool, delta: Unit)
    requires ChainInv(s.attempts, s.feeder)
    requires Opens(s, key) && !(memory && key.SizeBytes() > 0)
    requires Undecodable(delta) && delta.generation == key.generation
    ensures var a := ApplySnapshot(ApplyFeeder(ApplySnapshot(s, key, memory), FeedRelease), delta, true).attempts;
      FirstPush(a, |s.attempts| + 1) && !a[|s.attempts| + 1].decodable
  {
    var s1 := ApplySnapshot(s, key, memory);
    var r := Ref(s.ledger.taken, s.v.appsrc.value.element);
    assert s1.feeder == Feeder(true, FeedDone(r), s.v.generation, key.generation, 1, false);
    var s2 := ApplyFeeder(s1, FeedRelease);
    assert s2.v == s.v && s2.attempts == s1.attempts && |s1.attempts| == |s.attempts| + 1;
    var a, n := ApplySnapshot(s2, delta, true).attempts, |s.attempts|;
    assert a[n].offset == 0 && !a[n].pushed && a[n + 1].pushed;
    OnlyAfterOpener(a, n);
  }

  /** A push right after an opening unit that was not pushed is the first of its stream. */
  lemma OnlyAfterOpener(a: seq<Attempt>, n: nat)
    requires n + 1 < |a| && a[n].offset == 0 && !a[n].pushed && a[n + 1].pushed
    ensures FirstPush(a, n + 1)
  {
    var k := n + 1;
    forall j | 0 <= j < n ensures !SameStream(a, j, k) {
    }
  }

  /** Whenever a run has an opening unit without a buffer, it goes on, in some way, to hand an
      undecodable unit to push first. */
  lemma FailedOpenerStrands(steps: seq<Step>, key: Unit, memory: bool, delta: Unit)
    requires Opens(Run(CREATED, steps), key) && !(memory && key.SizeBytes() > 0)
    requires Undecodable(delta) && delta.generation == key.generation
    ensures var a := Run(CREATED, steps + [OfFeeder(FeedSnapshot(key, memory))] + Follow(delta)).attempts;
      !StartsDecodable(a)
  {
    RunAppend(steps, OfFeeder(FeedSnapshot(key, memory)));
    RunFollow(steps + [OfFeeder(FeedSnapshot(key, memory))], delta);
    EveryRunKeepsInv(steps);
    StrandedPush(Run(CREATED, steps), key, memory, delta);
    var a := Run(CREATED, steps + [OfFeeder(FeedSnapshot(key, memory))] + Follow(delta)).attempts;
    var k := |Run(CREATED, steps).attempts| + 1;
    assert FirstPush(a, k) && !a[k].decodable;
  }

  // ----- Both ways -----

  lemma FollowIsBuffered(steps: seq<Step>, n: nat, delta: Unit)
    requires Buffered(steps) && n <= |steps| && Undecodable(delta)
    ensures Buffered(steps[..n] + Follow(delta))
  {
    var all := steps[..n] + Follow(delta);
    forall i | 0 <= i < |all| ensures BuffersOpener(Run(CREATED, all[..i]), all[i]) {
      if i < n {
        assert all[..i] == steps[..i];
      }
    }
  }

  ghost predicate StartsDecodableWhateverFollows(steps: seq<Step>) {
    forall n: nat, delta | n <= |steps| && Undecodable(delta) ::
      StartsDecodable(Run(CREATED, steps[..n] + Follow(delta)).attempts)
  }

  lemma BufferedIsEnough(steps: seq<Step>)
    requires Buffered(steps)
    ensures StartsDecodable(Run(CREATED, steps).attempts)
  {
    var a := Run(CREATED, steps).attempts;
    forall k: nat ensures FirstPush(a, k) ==> a[k].decodable {
      FirstPushIsOpener(steps, k);
    }
  }

  lemma BufferedIsNeeded(steps: seq<Step>, i: nat)
    requires i < |steps| && !BuffersOpener(Run(CREATED, steps[..i]), steps[i])
    ensures !StartsDecodableWhateverFollows(steps)
  {
    var key := steps[i].feed.unit;
    var delta := Unit(1, key.generation, false, false, false, Some([0]));
    FailedOpenerStrands(steps[..i], key, steps[i].feed.memory, delta);
    assert steps[..i + 1] == steps[..i] + [OfFeeder(FeedSnapshot(key, steps[i].feed.memory))];
    assert Undecodable(delta) && !StartsDecodable(Run(CREATED, steps[..i + 1] + Follow(delta)).attempts);
  }

  /** Whichever undecodable unit comes next, at any moment of the run, every stream so far starts
      decodable: if and only if no opening unit of the run was left without a buffer. */
  lemma OpenersDecide(steps: seq<Step>)
    ensures Buffered(steps) <==> StartsDecodableWhateverFollows(steps)
  {
    if Buffered(steps) {
      forall n: nat, delta | n <= |steps| && Undecodable(delta)
        ensures StartsDecodable(Run(CREATED, steps[..n] + Follow(delta)).attempts)
      {
        FollowIsBuffered(steps, n, delta);
        BufferedIsEnough(steps[..n] + Follow(delta));
      }
    } else {
      var i: nat :| i < |steps| && !BuffersOpener(Run(CREATED, steps[..i]), steps[i]);
      BufferedIsNeeded(steps, i);
    }
  }
}
