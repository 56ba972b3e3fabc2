/** Event clips over every interleaving. The encoder thread pushes a unit into the ring and then
    shows it to the recorder as two separately locked steps (app/main.cpp:225-238); the inference
    thread may trigger, the main thread may clear or stop, and the worker may run in between. */
module EventClips {
  import opened Basics
  import opened AccessUnits
  import opened RingSpec
  import opened EventSpec

  datatype Worker = Absent | Waiting | Writing(job: Event) | Exited

  /** `output` is everything the encoder has delivered; `pending` is the unit already pushed but
      not yet shown to the recorder; `written` is what the worker has dealt with. */
  datatype Pipeline = Pipeline(
    ring: Ring,
    output: seq<Unit>,
    pending: Option<Unit>,
    rec: Recorder,
    worker: Worker,
    written: seq<Event>)

  datatype Step =
    | StartRecorder(threadCreated: bool)
    | PushUnit(unit: Unit)
    | ObserveUnit
    | TriggerEvent(at: U64, sequence: nat, storage: bool)
    | ClearHistory
    | WorkerTake
    | WorkerWrite(io: Io)
    | WorkerExit
    | Stop
    | Join

  datatype World = World(lim: Limits, roll: Settings) {
    ghost predicate Valid() { lim.Valid() }
  }

  function Initial(cooldownNs: U64): Pipeline {
    Pipeline(EMPTY, [], None,
             Recorder(Gate(cooldownNs, 0, false), None, [], false, false, 0, Counters(0, 0, 0, 0, 0, 0), []),
             Absent, [])
  }

  /** What the encoder should deliver: units the ring accepts, with sensor time strictly increasing
      for as long as the generation stays the same. */
  predicate Deliverable(w: World, output: seq<Unit>, u: Unit) {
    && 0 < u.SizeBytes() <= w.lim.maxBytes
    && u.generation != 0 && u.sensorTs != 0
    && (output != [] && output[|output| - 1].generation == u.generation ==>
          output[|output| - 1].sensorTs < u.sensorTs)
  }

  /** One atomic step; a step that is not enabled changes nothing. */
  function Apply(s: Pipeline, w: World, step: Step): Pipeline {
    match step
    case StartRecorder(created) =>
      if s.rec.running then s.(rec := s.rec.(accepting := true))
      else if s.worker != Absent || !created then s
      else s.(rec := s.rec.(running := true, accepting := true), worker := Waiting)
    case PushUnit(u) =>
      if s.pending.Some? then s
      else s.(ring := Push(s.ring, w.lim, Some(u)), output := s.output + [u], pending := Some(u))
    case ObserveUnit =>
      if s.pending.None? then s
      else s.(rec := Observe(s.rec, s.pending.value), pending := None)
    case TriggerEvent(at, sequence, storage) =>
      if !storage then
        s.(rec := s.rec.(count := s.rec.count.(suppressed := s.rec.count.suppressed + 1)))
      else s.(rec := Trigger(s.rec, s.ring.units, w.roll, at, sequence))
    case ClearHistory => s.(ring := Clear(s.ring))
    case WorkerTake =>
      if s.worker != Waiting || s.rec.jobs == [] then s
      else s.(worker := Writing(s.rec.jobs[0]), rec := s.rec.(jobs := s.rec.jobs[1..]))
    case WorkerWrite(io) =>
      if !s.worker.Writing? then s
      else
        var c := s.rec.count;
        var c' := if Publishes(s.worker.job, io) then c.(completed := c.completed + 1)
                  else c.(failed := c.failed + 1);
        s.(worker := Waiting, written := s.written + [s.worker.job], rec := s.rec.(count := c'))
    case WorkerExit =>
      if s.worker == Waiting && s.rec.jobs == [] && !s.rec.running then s.(worker := Exited) else s
    case Stop => s.(rec := StopRequest(s.rec))
    case Join => if s.worker == Exited then s.(worker := Absent) else s
  }

  function Run(w: World, cooldownNs: U64, steps: seq<Step>): Pipeline {
    if steps == [] then Initial(cooldownNs)
    else Apply(Run(w, cooldownNs, steps[..|steps| - 1]), w, steps[|steps| - 1])
  }

  /** The step delivers nothing it should not. */
  predicate Delivers(s: Pipeline, w: World, step: Step) {
    step.PushUnit? && s.pending.None? ==> Deliverable(w, s.output, step.unit)
  }

  /** A run in which the encoder keeps to what it should deliver. */
  ghost predicate Orderly(w: World, cooldownNs: U64, steps: seq<Step>) {
    forall i | 0 <= i < |steps| :: Delivers(Run(w, cooldownNs, steps[..i]), w, steps[i])
  }

  // ----- What a good clip is -----

  ghost predicate SliceAt(units: seq<Unit>, output: seq<Unit>, i: nat) {
    i + |units| <= |output| && units == output[i..i + |units|]
  }

  /** A gap-free, duplicate-free run of one generation's output that starts decodable. */
  ghost predicate Contiguous(e: Event, output: seq<Unit>) {
    && (exists i: nat :: SliceAt(e.units, output, i))
    && OfGeneration(e.units, e.generation)
    && StrictlyOrdered(e.units)
    && (e.units != [] ==> e.units[0].IndependentlyDecodable())
    && (forall k :: 0 <= k < |e.units| ==> e.units[k].SizeBytes() > 0)
  }

  /** Whatever an end of the clip is reported to cover, it covers, and no more than needed. */
  ghost predicate CoversWindow(e: Event) {
    && (e.preRollComplete ==> e.units != [] && e.units[0].sensorTs <= e.requestedStart)
    && (e.postRollComplete ==> ReachesEnd(e.units, e.requestedEnd))
    && (forall k :: 0 <= k < |e.units| - 1 ==> e.units[k].sensorTs < e.requestedEnd)
    && (!e.postRollComplete ==> !ReachesEnd(e.units, e.requestedEnd))
  }

  ghost predicate FinishedWell(e: Event, output: seq<Unit>) {
    && Contiguous(e, output)
    && CoversWindow(e)
    && (e.units != [] ==> e.actualStart == e.units[0].sensorTs && e.actualEnd == e.units[|e.units| - 1].sensorTs)
  }

  /** An open event: its units end where the output ends, or just before the pending unit. */
  ghost predicate OpenWell(e: Event, output: seq<Unit>, pending: bool) {
    && e.units != [] && !e.postRollComplete
    && Contiguous(e, output)
    && CoversWindow(e)
    && EndsOutput(e.units, output, pending)
  }

  ghost predicate EndsOutput(units: seq<Unit>, output: seq<Unit>, pending: bool) {
    || IsSuffix(units, output)
    || (pending && output != [] && IsSuffix(units, output[..|output| - 1]))
  }

  // ----- The invariant -----

  /** Every delivered unit is usable, and time strictly increases inside a generation. */
  ghost predicate OutputInv(output: seq<Unit>) {
    && (forall i :: 0 <= i < |output| ==> output[i].SizeBytes() > 0 && output[i].generation != 0)
    && (forall i :: 0 < i < |output| && output[i - 1].generation == output[i].generation ==>
          output[i - 1].sensorTs < output[i].sensorTs)
  }

  ghost predicate StreamInv(lim: Limits, ring: Ring, output: seq<Unit>, pending: Option<Unit>) {
    && RingInv(ring, lim)
    && IsSuffix(ring.units, output)
    && OutputInv(output)
    && (pending.Some? ==> output != [] && output[|output| - 1] == pending.value)
  }

  ghost predicate Streaming(s: Pipeline, w: World) {
    StreamInv(w.lim, s.ring, s.output, s.pending)
  }

  ghost predicate ClipInv(s: Pipeline) {
    && (s.rec.active.Some? ==> OpenWell(s.rec.active.value, s.output, s.pending.Some?))
    && (forall k :: 0 <= k < |s.rec.jobs| ==> FinishedWell(s.rec.jobs[k], s.output))
    && (s.worker.Writing? ==> FinishedWell(s.worker.job, s.output))
    && (forall k :: 0 <= k < |s.written| ==> FinishedWell(s.written[k], s.output))
  }

  function InFlight(s: Pipeline): nat {
    |s.rec.jobs| + (if s.worker.Writing? then 1 else 0) + (if s.rec.active.Some? then 1 else 0)
  }

  /** No event is lost or counted twice. */
  ghost predicate CountInv(s: Pipeline) {
    && s.rec.count.triggered == s.rec.count.completed + s.rec.count.failed + InFlight(s)
    && |s.rec.jobs| <= QUEUE_CAPACITY
    && (s.rec.gate.collecting <==> s.rec.active.Some?)
    && (s.rec.accepting ==> s.rec.running)
    && (!s.rec.running ==> s.rec.active.None?)
    && (s.worker == Absent || s.worker == Exited ==> !s.rec.running && s.rec.jobs == [])
  }

  ghost predicate Inv(s: Pipeline, w: World) {
    Streaming(s, w) && ClipInv(s) && CountInv(s)
  }

  // ----- Counting -----

  lemma FinishCounts(r: Recorder, post: bool)
    requires |r.jobs| <= QUEUE_CAPACITY
    ensures var r' := Finish(r, post);
      && r'.active.None? && r'.count.triggered == r.count.triggered && r'.count.completed == r.count.completed
      && |r'.jobs| <= QUEUE_CAPACITY && r'.running == r.running && r'.accepting == r.accepting
      && r'.count.failed + |r'.jobs| == r.count.failed + |r.jobs| + (if r.active.Some? then 1 else 0)
      && (r.active.Some? ==> !r'.gate.collecting) && (r.active.None? ==> r' == r)
  {
  }

  lemma TriggerCounts(s: Pipeline, w: World, at: U64, sequence: nat)
    requires CountInv(s)
    ensures CountInv(s.(rec := Trigger(s.rec, s.ring.units, w.roll, at, sequence)))
  {
    var r2 := Opened(s.rec.(latestTs := Later(s.rec.latestTs, at)), NewEvent(s.ring.units, w.roll, at, sequence));
    FinishCounts(r2, false);
    FinishCounts(r2, true);
  }

  lemma ObserveCounts(s: Pipeline, u: Unit)
    requires CountInv(s)
    ensures CountInv(s.(rec := Observe(s.rec, u)))
  {
    if s.rec.active.Some? {
      var e := s.rec.active.value;
      var r1 := s.rec.(latestTs := Later(s.rec.latestTs, u.sensorTs));
      FinishCounts(r1, false);
      FinishCounts(r1.(active := Some(e.(units := e.units + [u]))), true);
    }
  }

  lemma ApplyCounts(s: Pipeline, w: World, step: Step)
    requires CountInv(s)
    ensures CountInv(Apply(s, w, step))
  {
    match step
    case TriggerEvent(at, sequence, storage) => if storage { TriggerCounts(s, w, at, sequence); }
    case ObserveUnit => if s.pending.Some? { ObserveCounts(s, s.pending.value); }
    case Stop => FinishCounts(s.rec.(accepting := false), false);
    case _ =>
  }

  // ----- Streams -----

  lemma PushStream(r: Ring, lim: Limits, output: seq<Unit>, u: Unit)
    requires IsSuffix(r.units, output) && !Rejects(Classify(r, lim, Some(u)))
    ensures IsSuffix(Push(r, lim, Some(u)).units, output + [u])
  {
    var base := Extended(r, u, Resets(Classify(r, lim, Some(u))));
    ExtendedOfOutput(r.units, output, u);
    PruneIsSuffix(base, lim);
    SuffixTransitive(Prune(base, lim), base, output + [u]);
  }

  lemma OutputAppend(w: World, output: seq<Unit>, u: Unit)
    requires OutputInv(output) && Deliverable(w, output, u)
    ensures OutputInv(output + [u])
  {
  }

  lemma PushKeepsStream(s: Pipeline, w: World, u: Unit, ring': Ring)
    requires w.Valid() && Streaming(s, w) && Deliverable(w, s.output, u)
    requires ring' == Push(s.ring, w.lim, Some(u))
    ensures StreamInv(w.lim, ring', s.output + [u], Some(u))
  {
    var r' := PushKeepsInvariant(s.ring, w.lim, Some(u));
    PushStream(s.ring, w.lim, s.output, u);
    OutputAppend(w, s.output, u);
  }

  lemma ClearKeepsStream(lim: Limits, ring: Ring, output: seq<Unit>, pending: Option<Unit>)
    requires StreamInv(lim, ring, output, pending)
    ensures StreamInv(lim, Clear(ring), output, pending)
  {
    assert output[|output|..] == [];
  }

  /** How a step moves the stream: not at all, by clearing the ring, or by one delivered unit. */
  ghost predicate StreamStep(s: Pipeline, w: World, step: Step, s': Pipeline) {
    || (s'.ring == s.ring && s'.output == s.output && (s'.pending == s.pending || s'.pending == None))
    || (s'.ring == Clear(s.ring) && s'.output == s.output && s'.pending == s.pending)
    || (step.PushUnit? && Deliverable(w, s.output, step.unit) && s'.ring == Push(s.ring, w.lim, Some(step.unit))
        && s'.output == s.output + [step.unit] && s'.pending == Some(step.unit))
  }

  lemma ApplyIsStreamStep(s: Pipeline, w: World, step: Step)
    requires Delivers(s, w, step)
    ensures StreamStep(s, w, step, Apply(s, w, step))
  {
  }

  lemma StreamStepKeeps(s: Pipeline, w: World, step: Step, s': Pipeline)
    requires w.Valid() && Streaming(s, w) && StreamStep(s, w, step, s')
    ensures Streaming(s', w)
  {
    if s'.output != s.output {
      PushKeepsStream(s, w, step.unit, s'.ring);
    } else if s'.ring != s.ring {
      ClearKeepsStream(w.lim, s.ring, s.output, s.pending);
    }
  }

  lemma ExtendedOfOutput(ring: seq<Unit>, output: seq<Unit>, u: Unit)
    requires IsSuffix(ring, output)
    ensures IsSuffix(ring + [u], output + [u]) && IsSuffix([u], output + [u])
  {
    assert ring + [u] == (output + [u])[|output| - |ring|..];
  }

  // ----- Clips -----

  /** One generation of delivered output is strictly ordered in time. */
  lemma {:induction false} SliceStrict(units: seq<Unit>, output: seq<Unit>, i: nat, g: nat)
    requires OutputInv(output) && SliceAt(units, output, i) && OfGeneration(units, g)
    ensures StrictlyOrdered(units)
    decreases |units|
  {
    if |units| > 1 {
      var n := |units| - 1;
      var front := units[..n];
      assert SliceAt(front, output, i);
      SliceStrict(front, output, i, g);
      assert output[i + n - 1] == units[n - 1] && output[i + n] == units[n];
      forall a, b | 0 <= a < b < |units| ensures units[a].sensorTs < units[b].sensorTs {
        if b == n && a < n - 1 { assert front[a].sensorTs < front[n - 1].sensorTs; }
        if b < n { assert front[a].sensorTs < front[b].sensorTs; }
      }
    }
  }

  lemma OutputGrows(e: Event, output: seq<Unit>, u: Unit)
    requires Contiguous(e, output)
    ensures Contiguous(e, output + [u])
  {
    var i: nat :| SliceAt(e.units, output, i);
    assert SliceAt(e.units, output + [u], i);
  }

  lemma OpenGrows(e: Event, output: seq<Unit>, u: Unit)
    requires OpenWell(e, output, false)
    ensures OpenWell(e, output + [u], true)
  {
    OutputGrows(e, output, u);
    assert (output + [u])[..|output|] == output;
  }

  lemma FinishedGrow(es: seq<Event>, output: seq<Unit>, u: Unit)
    requires forall k :: 0 <= k < |es| ==> FinishedWell(es[k], output)
    ensures forall k :: 0 <= k < |es| ==> FinishedWell(es[k], output + [u])
  {
    forall k | 0 <= k < |es| ensures FinishedWell(es[k], output + [u]) {
      OutputGrows(es[k], output, u);
    }
  }

  /** Sealing keeps a clip good, provided the post-roll is reported as it is. */
  lemma SealedWell(e: Event, output: seq<Unit>, post: bool)
    requires Contiguous(e, output) && CoversWindow(e.(postRollComplete := post))
    ensures FinishedWell(Sealed(e, post), output)
  {
    var i: nat :| SliceAt(e.units, output, i);
    assert SliceAt(Sealed(e, post).units, output, i);
  }

  lemma FinishKeepsClips(r: Recorder, output: seq<Unit>, post: bool)
    requires forall k :: 0 <= k < |r.jobs| ==> FinishedWell(r.jobs[k], output)
    requires r.active.Some? ==> Contiguous(r.active.value, output)
                                && CoversWindow(r.active.value.(postRollComplete := post))
    ensures var r' := Finish(r, post);
      r'.active.None? && forall k :: 0 <= k < |r'.jobs| ==> FinishedWell(r'.jobs[k], output)
  {
    if r.active.Some? {
      SealedWell(r.active.value, output, post);
    }
  }

  /** The part of a selection that a window keeps is a slice of the output. */
  lemma WindowOfRing(ring: seq<Unit>, output: seq<Unit>, k: nat, n: nat)
    requires IsSuffix(ring, output) && k <= |ring| && n <= |ring| - k
    ensures exists i: nat :: SliceAt(ring[k..][..n], output, i)
    ensures forall j :: 0 <= j < n ==> ring[k..][..n][j] in ring
    ensures n == |ring| - k ==> IsSuffix(ring[k..][..n], ring)
  {
    var d := |output| - |ring|;
    assert ring[k..][..n] == output[d + k..d + k + n];
    assert SliceAt(ring[k..][..n], output, d + k);
    forall j | 0 <= j < n ensures ring[k..][..n][j] in ring {
      assert ring[k..][..n][j] == ring[k + j];
    }
  }

  lemma NewEventCovers(ring: seq<Unit>, roll: Settings, at: U64, sequence: nat)
    requires ring != []
    ensures var e := NewEvent(ring, roll, at, sequence);
      && (e.units != [] ==> e.units[0].IndependentlyDecodable() && e.generation == ring[0].generation)
      && CoversWindow(e)
  {
    StartIndexIs(ring, at, roll.preRollNs);
    var selection := Select(ring, at, roll.preRollNs);
    WindowCuts(selection.units, SaturatingAdd(at, roll.postRollNs));
  }

  /** The units a trigger selects: a decodable end of the output, cut at the requested end. */
  lemma NewEventUnits(ring: seq<Unit>, output: seq<Unit>, roll: Settings, at: U64, sequence: nat)
    requires IsSuffix(ring, output) && ring != []
    ensures var e := NewEvent(ring, roll, at, sequence);
      && (exists i: nat :: SliceAt(e.units, output, i))
      && (e.units != [] && !e.postRollComplete ==> IsSuffix(e.units, ring))
      && (forall k :: 0 <= k < |e.units| ==> e.units[k] in ring)
  {
    var e := NewEvent(ring, roll, at, sequence);
    var k := StartIndex(ring, at, roll.preRollNs);
    var selected := Select(ring, at, roll.preRollNs).units;
    assert selected == ring[k..];
    WindowCuts(selected, e.requestedEnd);
    WindowOfRing(ring, output, k, |e.units|);
    assert e.units == ring[k..][..|e.units|];
  }

  lemma NewEventWell(s: Pipeline, w: World, at: U64, sequence: nat)
    requires Streaming(s, w)
    ensures var e := NewEvent(s.ring.units, w.roll, at, sequence);
      && Contiguous(e, s.output) && CoversWindow(e)
      && (e.units != [] && !e.postRollComplete ==> OpenWell(e, s.output, s.pending.Some?))
  {
    var e := NewEvent(s.ring.units, w.roll, at, sequence);
    if s.ring.units == [] {
      assert SliceAt(e.units, s.output, 0);
    } else {
      NewEventCovers(s.ring.units, w.roll, at, sequence);
      NewEventUnits(s.ring.units, s.output, w.roll, at, sequence);
      EventOfRing(e, s.ring.units, s.output);
      if IsSuffix(e.units, s.ring.units) {
        SuffixTransitive(e.units, s.ring.units, s.output);
      }
    }
  }

  lemma EventOfRing(e: Event, ring: seq<Unit>, output: seq<Unit>)
    requires ring != [] && OfGeneration(ring, ring[0].generation) && OutputInv(output)
    requires exists i: nat :: SliceAt(e.units, output, i)
    requires forall k :: 0 <= k < |e.units| ==> e.units[k] in ring
    requires e.units != [] ==> e.units[0].IndependentlyDecodable() && e.generation == ring[0].generation
    ensures Contiguous(e, output)
  {
    var i: nat :| SliceAt(e.units, output, i);
    assert OfGeneration(e.units, e.generation);
    SliceStrict(e.units, output, i, e.generation);
    assert forall k :: 0 <= k < |e.units| ==> e.units[k] == output[i + k];
  }

  lemma TriggerClips(s: Pipeline, w: World, at: U64, sequence: nat)
    requires Inv(s, w)
    ensures ClipInv(s.(rec := Trigger(s.rec, s.ring.units, w.roll, at, sequence)))
  {
    if s.rec.accepting && CanBegin(s.rec.gate, at) {
      var e := NewEvent(s.ring.units, w.roll, at, sequence);
      NewEventWell(s, w, at, sequence);
      var r2 := Opened(s.rec.(latestTs := Later(s.rec.latestTs, at)), e);
      if e.units == [] {
        FinishKeepsClips(r2, s.output, false);
      } else if e.postRollComplete {
        FinishKeepsClips(r2, s.output, true);
      }
    }
  }

  /** The pending unit continues the open clip unless the clip already ends with it. */
  lemma PendingFollows(units: seq<Unit>, output: seq<Unit>, u: Unit)
    requires units != [] && EndsOutput(units, output, true)
    requires output != [] && output[|output| - 1] == u
    ensures !IsSuffix(units, output) ==> IsSuffix(units + [u], output)
    ensures IsSuffix(units, output) ==> units[|units| - 1] == u
    ensures !IsSuffix(units, output) ==> |output| > 1 && output[|output| - 2] == units[|units| - 1]
  {
    if !IsSuffix(units, output) {
      var n := |output| - 1;
      ExtendedOfOutput(units, output[..n], u);
      assert output == output[..n] + [u];
      assert units[|units| - 1] == output[..n][n - 1];
    }
  }

  lemma AppendWell(e: Event, output: seq<Unit>, u: Unit)
    requires Contiguous(e, output) && OutputInv(output) && e.units != [] && u.SizeBytes() > 0
    requires IsSuffix(e.units + [u], output) && u.generation == e.generation
    ensures Contiguous(e.(units := e.units + [u]), output)
  {
    var more := e.units + [u];
    assert SliceAt(more, output, |output| - |more|);
    SliceStrict(more, output, |output| - |more|, e.generation);
  }

  lemma AppendCovers(e: Event, u: Unit)
    requires e.units != [] && !e.postRollComplete && CoversWindow(e)
    ensures CoversWindow(e.(units := e.units + [u], postRollComplete := u.sensorTs >= e.requestedEnd))
  {
    assert forall k :: 0 <= k < |e.units| ==> e.units[k].sensorTs < e.requestedEnd;
  }

  lemma ObserveSameGeneration(r: Recorder, output: seq<Unit>, u: Unit)
    requires r.active.Some? && OpenWell(r.active.value, output, true) && OutputInv(output)
    requires output != [] && output[|output| - 1] == u && u.generation == r.active.value.generation
    requires forall k :: 0 <= k < |r.jobs| ==> FinishedWell(r.jobs[k], output)
    ensures Observe(r, u).active.Some? ==> OpenWell(Observe(r, u).active.value, output, false)
    ensures forall k :: 0 <= k < |Observe(r, u).jobs| ==> FinishedWell(Observe(r, u).jobs[k], output)
  {
    var e := r.active.value;
    PendingFollows(e.units, output, u);
    if !IsSuffix(e.units, output) {
      LastsAscend(output, e.units[|e.units| - 1], u, e.generation, e.units);
      AppendWell(e, output, u);
      AppendCovers(e, u);
      if u.sensorTs >= e.requestedEnd {
        FinishKeepsClips(r.(latestTs := Later(r.latestTs, u.sensorTs), active := Some(e.(units := e.units + [u]))),
                         output, true);
      }
    }
  }

  /** The pending unit, and nothing else, is appended to the open clip, unless the clip already ends with
      it; a clip that then reaches its end is handed over with it. */
  lemma ObserveAppends(r: Recorder, output: seq<Unit>, u: Unit)
    requires r.active.Some? && OpenWell(r.active.value, output, true) && OutputInv(output)
    requires output != [] && output[|output| - 1] == u && u.generation == r.active.value.generation
    ensures var e, r' := r.active.value, Observe(r, u);
      if IsSuffix(e.units, output) then r'.active == r.active && r'.jobs == r.jobs
      else if u.sensorTs < e.requestedEnd then r'.active == Some(e.(units := e.units + [u])) && r'.jobs == r.jobs
      else r'.active.None? && (|r.jobs| < QUEUE_CAPACITY ==>
                                 r'.jobs == r.jobs + [Sealed(e.(units := e.units + [u]), true)])
  {
    var e := r.active.value;
    PendingFollows(e.units, output, u);
    if !IsSuffix(e.units, output) {
      LastsAscend(output, e.units[|e.units| - 1], u, e.generation, e.units);
    }
    ObserveByTime(r, u);
  }

  lemma ObserveByTime(r: Recorder, u: Unit)
    requires r.active.Some? && r.active.value.units != [] && u.generation == r.active.value.generation
    ensures var e, r' := r.active.value, Observe(r, u);
      if u.sensorTs <= e.units[|e.units| - 1].sensorTs then r'.active == r.active && r'.jobs == r.jobs
      else if u.sensorTs < e.requestedEnd then r'.active == Some(e.(units := e.units + [u])) && r'.jobs == r.jobs
      else r'.active.None? && (|r.jobs| < QUEUE_CAPACITY ==>
                                 r'.jobs == r.jobs + [Sealed(e.(units := e.units + [u]), true)])
  {
  }

  lemma LastsAscend(output: seq<Unit>, a: Unit, b: Unit, g: nat, units: seq<Unit>)
    requires OutputInv(output) && |output| > 1 && output[|output| - 2] == a && output[|output| - 1] == b
    requires units != [] && units[|units| - 1] == a && OfGeneration(units, g) && b.generation == g
    ensures a.sensorTs < b.sensorTs
  {
  }

  lemma ObserveClips(s: Pipeline, w: World)
    requires Inv(s, w) && s.pending.Some?
    ensures ClipInv(Apply(s, w, ObserveUnit))
  {
    var u := s.pending.value;
    if s.rec.active.Some? {
      if u.generation != s.rec.active.value.generation {
        FinishKeepsClips(s.rec.(latestTs := Later(s.rec.latestTs, u.sensorTs)), s.output, false);
      } else {
        ObserveSameGeneration(s.rec, s.output, u);
      }
    }
  }

  lemma ApplyClips(s: Pipeline, w: World, step: Step)
    requires Inv(s, w) && Delivers(s, w, step)
    ensures ClipInv(Apply(s, w, step))
  {
    match step
    case PushUnit(u) =>
      if s.pending.None? {
        FinishedGrow(s.rec.jobs, s.output, u);
        FinishedGrow(s.written, s.output, u);
        if s.worker.Writing? { OutputGrows(s.worker.job, s.output, u); }
        if s.rec.active.Some? { OpenGrows(s.rec.active.value, s.output, u); }
      }
    case ObserveUnit => if s.pending.Some? { ObserveClips(s, w); }
    case TriggerEvent(at, sequence, storage) => if storage { TriggerClips(s, w, at, sequence); }
    case Stop => FinishKeepsClips(s.rec.(accepting := false), s.output, false);
    case _ =>
  }

  // ----- Every run -----

  lemma OrderlyBefore(w: World, cooldownNs: U64, steps: seq<Step>)
    requires steps != [] && Orderly(w, cooldownNs, steps)
    ensures Orderly(w, cooldownNs, steps[..|steps| - 1])
    ensures Delivers(Run(w, cooldownNs, steps[..|steps| - 1]), w, steps[|steps| - 1])
  {
    var before := steps[..|steps| - 1];
    forall i | 0 <= i < |before| ensures Delivers(Run(w, cooldownNs, before[..i]), w, before[i]) {
      assert before[..i] == steps[..i];
    }
  }

  lemma {:induction false} EveryRunKeepsInv(w: World, cooldownNs: U64, steps: seq<Step>)
    requires w.Valid() && Orderly(w, cooldownNs, steps)
    ensures Inv(Run(w, cooldownNs, steps), w)
  {
    if steps != [] {
      var s, step := Run(w, cooldownNs, steps[..|steps| - 1]), steps[|steps| - 1];
      OrderlyBefore(w, cooldownNs, steps);
      EveryRunKeepsInv(w, cooldownNs, steps[..|steps| - 1]);
      ApplyIsStreamStep(s, w, step);
      StreamStepKeeps(s, w, step, Apply(s, w, step));
      ApplyClips(s, w, step);
      ApplyCounts(s, w, step);
    }
  }

  /** Every event the recorder has let go of: waiting, being written or already written. */
  function Released(s: Pipeline): seq<Event> {
    s.written + (if s.worker.Writing? then [s.worker.job] else []) + s.rec.jobs
  }

  /** Whatever the interleaving, every finished event is a gap-free and duplicate-free stretch of
      one generation's output that begins with a decodable unit and covers the ends of its window
      that it claims to cover, with nothing after the first unit at or past the requested end. */
  lemma FinishedClipsAreSlices(w: World, cooldownNs: U64, steps: seq<Step>)
    requires w.Valid() && Orderly(w, cooldownNs, steps)
    ensures var s := Run(w, cooldownNs, steps);
      forall e :: e in Released(s) ==> FinishedWell(e, s.output)
  {
    EveryRunKeepsInv(w, cooldownNs, steps);
  }

  lemma ReleasedIsFinished(w: World, cooldownNs: U64, steps: seq<Step>, e: Event)
    requires w.Valid() && Orderly(w, cooldownNs, steps) && e in Released(Run(w, cooldownNs, steps))
    ensures FinishedWell(e, Run(w, cooldownNs, steps).output)
  {
    FinishedClipsAreSlices(w, cooldownNs, steps);
  }

  lemma FinishedSpans(e: Event, output: seq<Unit>)
    requires FinishedWell(e, output) && e.preRollComplete && e.postRollComplete
    ensures e.units != [] && e.units[0].sensorTs <= e.requestedStart
    ensures e.units[|e.units| - 1].sensorTs >= e.requestedEnd
    ensures forall k :: 0 <= k < |e.units| - 1 ==> e.units[k].sensorTs < e.requestedEnd
    ensures e.actualStart == e.units[0].sensorTs && e.actualEnd == e.units[|e.units| - 1].sensorTs
  {
  }

  lemma FinishedIsMuxable(e: Event, output: seq<Unit>)
    requires FinishedWell(e, output)
    ensures CheckMux(e) == if e.units == [] then Unavailable else Muxable
  {
  }

  /** So the worker never meets a clip that muxVideo refuses: only clips without units stay
      without a video. */
  lemma MuxRejectionsUnreachable(w: World, cooldownNs: U64, steps: seq<Step>, e: Event)
    requires w.Valid() && Orderly(w, cooldownNs, steps) && e in Released(Run(w, cooldownNs, steps))
    ensures CheckMux(e) == if e.units == [] then Unavailable else Muxable
  {
    ReleasedIsFinished(w, cooldownNs, steps, e);
    FinishedIsMuxable(e, Run(w, cooldownNs, steps).output);
  }

  /** A clip reported complete at both ends spans its window and is cut right after it. */
  lemma CompleteClipSpansWindow(w: World, cooldownNs: U64, steps: seq<Step>, e: Event)
    requires w.Valid() && Orderly(w, cooldownNs, steps) && e in Released(Run(w, cooldownNs, steps))
    requires e.preRollComplete && e.postRollComplete
    ensures e.units != [] && e.units[0].sensorTs <= e.requestedStart
    ensures e.units[|e.units| - 1].sensorTs >= e.requestedEnd
    ensures forall k :: 0 <= k < |e.units| - 1 ==> e.units[k].sensorTs < e.requestedEnd
    ensures e.actualStart == e.units[0].sensorTs && e.actualEnd == e.units[|e.units| - 1].sensorTs
  {
    ReleasedIsFinished(w, cooldownNs, steps, e);
    FinishedSpans(e, Run(w, cooldownNs, steps).output);
  }

  /** Whatever the encoder delivers, at every moment each triggered event is completed, failed, queued,
      being written or open;
      once the worker has been joined, every one of them is completed or failed. */
  lemma EventsAreConserved(w: World, cooldownNs: U64, steps: seq<Step>)
    ensures var s := Run(w, cooldownNs, steps); var c := s.rec.count;
      && c.triggered == c.completed + c.failed + InFlight(s)
      && |s.rec.jobs| <= 2
      && (s.rec.gate.collecting <==> s.rec.active.Some?)
      && (s.worker == Absent || s.worker == Exited ==> c.triggered == c.completed + c.failed)
  {
    EveryRunCounts(w, cooldownNs, steps);
  }

  lemma {:induction false} EveryRunCounts(w: World, cooldownNs: U64, steps: seq<Step>)
    ensures CountInv(Run(w, cooldownNs, steps))
  {
    if steps != [] {
      EveryRunCounts(w, cooldownNs, steps[..|steps| - 1]);
      ApplyCounts(Run(w, cooldownNs, steps[..|steps| - 1]), w, steps[|steps| - 1]);
    }
  }

  // ----- One step more -----

  lemma Then(w: World, cooldownNs: U64, steps: seq<Step>, s: Pipeline, step: Step)
    requires Run(w, cooldownNs, steps) == s
    ensures Run(w, cooldownNs, steps + [step]) == Apply(s, w, step)
  {
    assert (steps + [step])[..|steps|] == steps;
  }
}
