/** Whether a clip with a complete pre-roll starts as late as it could. It does when it is opened; a unit
    that is observed later can spoil it only if the encoder lags behind the whole pre-roll. */
module EventFront {
  import opened Basics
  import opened AccessUnits
  import opened RingSpec
  import opened EventSpec
  import opened EventClips
  import opened EventGaps

  /** No unit after the first would do as a start for the requested window. */
  ghost predicate StartsLatest(e: Event) {
    e.preRollComplete ==> forall k | 0 < k < |e.units| ::
      e.units[k].sensorTs <= e.requestedStart ==> !e.units[k].IndependentlyDecodable()
  }

  lemma NewEventStartsLatest(ring: seq<Unit>, roll: Settings, at: U64, sequence: nat)
    ensures StartsLatest(NewEvent(ring, roll, at, sequence))
  {
    var requested := RequestedStart(at, roll.preRollNs);
    var e := NewEvent(ring, roll, at, sequence);
    var n := StartIndex(ring, at, roll.preRollNs);
    StartIndexIs(ring, at, roll.preRollNs);
    NewestStartIs(ring, requested);
    if e.preRollComplete {
      forall k | 0 < k < |e.units| ensures e.units[k].sensorTs <= requested ==> !e.units[k].IndependentlyDecodable() {
        assert e.units[k] == ring[n + k];
      }
    }
  }

  /** Exactly which observed unit spoils it. */
  lemma AppendStartsLatest(e: Event, u: Unit)
    requires e.units != []
    ensures StartsLatest(e.(units := e.units + [u])) <==>
      StartsLatest(e) && !(e.preRollComplete && u.IndependentlyDecodable() && u.sensorTs <= e.requestedStart)
  {
    var more := e.units + [u];
    assert more[|e.units|] == u;
    assert forall k | 0 <= k < |e.units| :: more[k] == e.units[k];
  }

  // ----- Every run in which no trigger finds the encoder behind its whole pre-roll -----

  /** The trigger opens an event with a complete pre-roll while the ring ends before the requested start. */
  predicate Lags(s: Pipeline, w: World, step: Step) {
    && step.TriggerEvent? && step.storage && s.rec.accepting && CanBegin(s.rec.gate, step.at)
    && Select(s.ring.units, step.at, w.roll.preRollNs).preRollComplete
    && s.ring.latestTs < RequestedStart(step.at, w.roll.preRollNs)
  }

  ghost predicate PromptRun(w: World, cooldownNs: U64, steps: seq<Step>) {
    forall i | 0 <= i < |steps| :: !Lags(Run(w, cooldownNs, steps[..i]), w, steps[i])
  }

  /** Every event there is, open or let go of. */
  ghost predicate AllStartLatest(s: Pipeline) {
    && (s.rec.active.Some? ==> StartsLatest(s.rec.active.value))
    && forall e :: e in Released(s) ==> StartsLatest(e)
  }

  ghost predicate OpenFront(e: Event) {
    && e.units != [] && StartsLatest(e)
    && (e.preRollComplete ==> e.units[|e.units| - 1].sensorTs >= e.requestedStart)
  }

  ghost predicate RecorderFront(r: Recorder) {
    && (r.active.Some? ==> OpenFront(r.active.value))
    && forall k | 0 <= k < |r.jobs| :: StartsLatest(r.jobs[k])
  }

  ghost predicate FrontInv(s: Pipeline, w: World) {
    && RingInv(s.ring, w.lim) && RecorderFront(s.rec)
    && (s.worker.Writing? ==> StartsLatest(s.worker.job))
    && forall k | 0 <= k < |s.written| :: StartsLatest(s.written[k])
  }

  lemma FinishFront(r: Recorder, post: bool)
    requires r.active.Some? ==> StartsLatest(r.active.value)
    requires forall k | 0 <= k < |r.jobs| :: StartsLatest(r.jobs[k])
    ensures RecorderFront(Finish(r, post))
  {
  }

  lemma NewEventReaches(ring: seq<Unit>, roll: Settings, at: U64, sequence: nat)
    ensures var e := NewEvent(ring, roll, at, sequence);
      && e.requestedStart == RequestedStart(at, roll.preRollNs)
      && (e.units != [] && !e.postRollComplete ==> ring != [] && e.units[|e.units| - 1] == ring[|ring| - 1])
  {
    WindowCuts(Select(ring, at, roll.preRollNs).units, SaturatingAdd(at, roll.postRollNs));
  }

  lemma TriggerFront(r: Recorder, ring: Ring, w: World, at: U64, sequence: nat)
    requires RecorderFront(r) && RingInv(ring, w.lim)
    requires r.accepting && CanBegin(r.gate, at) && Select(ring.units, at, w.roll.preRollNs).preRollComplete ==>
      ring.latestTs >= RequestedStart(at, w.roll.preRollNs)
    ensures RecorderFront(Trigger(r, ring.units, w.roll, at, sequence))
  {
    if r.accepting && CanBegin(r.gate, at) {
      var e := NewEvent(ring.units, w.roll, at, sequence);
      NewEventStartsLatest(ring.units, w.roll, at, sequence);
      NewEventReaches(ring.units, w.roll, at, sequence);
      var r2 := Opened(r.(latestTs := Later(r.latestTs, at)), e);
      FinishFront(r2, false);
      FinishFront(r2, true);
    }
  }

  lemma ObserveFront(r: Recorder, u: Unit)
    requires RecorderFront(r)
    ensures RecorderFront(Observe(r, u))
  {
    if r.active.Some? {
      var e := r.active.value;
      var r1 := r.(latestTs := Later(r.latestTs, u.sensorTs));
      if u.generation != e.generation {
        FinishFront(r1, false);
      } else if u.sensorTs > e.units[|e.units| - 1].sensorTs {
        AppendStartsLatest(e, u);
        FinishFront(r1.(active := Some(e.(units := e.units + [u]))), true);
      }
    }
  }

  lemma ApplyFront(s: Pipeline, w: World, step: Step)
    requires w.Valid() && FrontInv(s, w) && !Lags(s, w, step)
    ensures FrontInv(Apply(s, w, step), w)
  {
    match step
    case PushUnit(u) => var r' := PushKeepsInvariant(s.ring, w.lim, Some(u));
    case ObserveUnit => if s.pending.Some? { ObserveFront(s.rec, s.pending.value); }
    case TriggerEvent(at, sequence, storage) => if storage { TriggerFront(s.rec, s.ring, w, at, sequence); }
    case Stop => FinishFront(s.rec.(accepting := false), false);
    case _ =>
  }

  lemma {:induction false} PromptRunKeepsFront(w: World, cooldownNs: U64, steps: seq<Step>)
    requires w.Valid() && PromptRun(w, cooldownNs, steps)
    ensures FrontInv(Run(w, cooldownNs, steps), w)
  {
    if steps != [] {
      var before := steps[..|steps| - 1];
      forall i | 0 <= i < |before| ensures !Lags(Run(w, cooldownNs, before[..i]), w, before[i]) {
        assert before[..i] == steps[..i];
      }
      PromptRunKeepsFront(w, cooldownNs, before);
      ApplyFront(Run(w, cooldownNs, before), w, steps[|steps| - 1]);
    }
  }

  /** Whatever the encoder delivers: as long as no trigger finds it behind the whole pre-roll, a clip with a
      complete pre-roll starts at the newest decodable unit that covers its window. */
  lemma FrontIsMinimal(w: World, cooldownNs: U64, steps: seq<Step>)
    requires w.Valid() && PromptRun(w, cooldownNs, steps)
    ensures AllStartLatest(Run(w, cooldownNs, steps))
  {
    PromptRunKeepsFront(w, cooldownNs, steps);
  }

  // ----- And otherwise -----

  /** The recorder sees what is pending, and then `u` is delivered. */
  function Late(u: Unit): seq<Step> {
    [ObserveUnit, PushUnit(u), ObserveUnit]
  }

  lemma RunLate(w: World, cooldownNs: U64, steps: seq<Step>, u: Unit)
    ensures Run(w, cooldownNs, steps + Late(u))
         == AfterLate(Run(w, cooldownNs, steps), w, u)
  {
    var s := Run(w, cooldownNs, steps);
    Then(w, cooldownNs, steps, s, ObserveUnit);
    var s1 := Apply(s, w, ObserveUnit);
    Then(w, cooldownNs, steps + [ObserveUnit], s1, PushUnit(u));
    Then(w, cooldownNs, steps + [ObserveUnit] + [PushUnit(u)], Apply(s1, w, PushUnit(u)), ObserveUnit);
    assert steps + Late(u) == steps + [ObserveUnit] + [PushUnit(u)] + [ObserveUnit];
  }

  lemma TriggerOpens(r: Recorder, ring: seq<Unit>, roll: Settings, at: U64, sequence: nat)
    requires r.accepting && CanBegin(r.gate, at)
    ensures var e := NewEvent(ring, roll, at, sequence);
      e.units != [] && !e.postRollComplete ==> Trigger(r, ring, roll, at, sequence).active == Some(e)
  {
  }

  /** An event with a complete pre-roll on a ring that ends before its requested start is open, and ends
      where the ring ends. */
  lemma LaggingSelection(ring: Ring, lim: Limits, output: seq<Unit>, roll: Settings, at: U64, sequence: nat)
    requires RingInv(ring, lim) && IsSuffix(ring.units, output) && roll.preRollNs > 0
    requires Select(ring.units, at, roll.preRollNs).preRollComplete
    requires ring.latestTs < RequestedStart(at, roll.preRollNs)
    ensures var e := NewEvent(ring.units, roll, at, sequence);
      && e.preRollComplete && e.units != [] && !e.postRollComplete && e.generation == ring.generation
      && ring.units != [] && e.units[|e.units| - 1] == ring.units[|ring.units| - 1]
      && e.requestedStart == RequestedStart(at, roll.preRollNs) < e.requestedEnd
  {
    var e := NewEvent(ring.units, roll, at, sequence);
    NewEventCovers(ring.units, roll, at, sequence);
    NewEventUnits(ring.units, output, roll, at, sequence);
    NewEventReaches(ring.units, roll, at, sequence);
    assert e.units[|e.units| - 1] in ring.units;
  }

  lemma LaggingEvent(s: Pipeline, w: World, step: Step) returns (e: Event)
    requires Streaming(s, w) && Lags(s, w, step) && w.roll.preRollNs > 0
    ensures Apply(s, w, step) == s.(rec := Apply(s, w, step).rec) && Apply(s, w, step).rec.active == Some(e)
    ensures EndsWithRing(e, s.ring) && e.preRollComplete && s.ring.latestTs < e.requestedStart < e.requestedEnd
  {
    e := NewEvent(s.ring.units, w.roll, step.at, step.sequence);
    LaggingSelection(s.ring, w.lim, s.output, w.roll, step.at, step.sequence);
    TriggerOpens(s.rec, s.ring.units, w.roll, step.at, step.sequence);
  }

  predicate EndsWithRing(e: Event, ring: Ring) {
    && ring.units != [] && e.units != [] && e.generation == ring.generation
    && e.units[|e.units| - 1] == ring.units[|ring.units| - 1]
  }

  /** What is pending then is already the event's last unit. */
  lemma PendingIsIn(s: Pipeline, w: World, e: Event)
    requires Streaming(s, w) && s.rec.active == Some(e) && EndsWithRing(e, s.ring)
    ensures Apply(s, w, ObserveUnit).pending.None? && Apply(s, w, ObserveUnit).rec.active == Some(e)
  {
    if s.pending.Some? {
      assert s.ring.units[|s.ring.units| - 1] == s.output[|s.output| - 1] == s.pending.value;
    }
  }

  lemma LateKeyIsAppended(r: Recorder, e: Event, u: Unit)
    requires r.active == Some(e) && e.units != [] && e.preRollComplete && u.generation == e.generation
    requires e.units[|e.units| - 1].sensorTs < u.sensorTs == e.requestedStart < e.requestedEnd
    requires u.IndependentlyDecodable()
    ensures Observe(r, u).active.Some? && !StartsLatest(Observe(r, u).active.value)
  {
    ObserveByTime(r, u);
    AppendStartsLatest(e, u);
  }

  lemma LateSpoils(s: Pipeline, w: World, e: Event, u: Unit)
    requires Streaming(s, w) && s.rec.active == Some(e) && EndsWithRing(e, s.ring) && e.preRollComplete
    requires s.ring.latestTs < u.sensorTs == e.requestedStart < e.requestedEnd
    requires u.generation == e.generation && u.IndependentlyDecodable()
    ensures !AllStartLatest(AfterLate(s, w, u))
  {
    PendingIsIn(s, w, e);
    LateKeyIsAppended(Apply(s, w, ObserveUnit).rec, e, u);
  }

  function AfterLate(s: Pipeline, w: World, u: Unit): Pipeline {
    Apply(Apply(Apply(s, w, ObserveUnit), w, PushUnit(u)), w, ObserveUnit)
  }

  /** The unit that spoils it is one that an orderly encoder may deliver next. */
  lemma LagSpoilsFrom(s: Pipeline, w: World, step: Step) returns (u: Unit)
    requires w.Valid() && Streaming(s, w) && Lags(s, w, step) && w.roll.preRollNs > 0
    ensures Deliverable(w, s.output, u)
    ensures !AllStartLatest(AfterLate(Apply(s, w, step), w, u))
  {
    var e := LaggingEvent(s, w, step);
    u := Unit(e.requestedStart, e.generation, true, true, true, Some([0]));
    assert s.ring.units[|s.ring.units| - 1] == s.output[|s.output| - 1];
    LateSpoils(Apply(s, w, step), w, e, u);
  }

  lemma LagSpoils(w: World, cooldownNs: U64, steps: seq<Step>, i: nat) returns (u: Unit)
    requires w.Valid() && Orderly(w, cooldownNs, steps) && w.roll.preRollNs > 0
    requires i < |steps| && Lags(Run(w, cooldownNs, steps[..i]), w, steps[i])
    ensures Orderly(w, cooldownNs, steps[..i + 1] + Late(u))
    ensures !AllStartLatest(Run(w, cooldownNs, steps[..i + 1] + Late(u)))
  {
    OrderlyPrefix(w, cooldownNs, steps, i);
    EveryRunKeepsInv(w, cooldownNs, steps[..i]);
    u := LagSpoilsFrom(Run(w, cooldownNs, steps[..i]), w, steps[i]);
    RunLate(w, cooldownNs, steps[..i + 1], u);
    assert steps[..i + 1][..i] == steps[..i];
    OrderlyPrefix(w, cooldownNs, steps, i + 1);
    OrderlyLate(w, cooldownNs, steps[..i + 1], u);
  }

  lemma OrderlyPrefix(w: World, cooldownNs: U64, steps: seq<Step>, n: nat)
    requires n <= |steps| && Orderly(w, cooldownNs, steps)
    ensures Orderly(w, cooldownNs, steps[..n])
  {
    forall i | 0 <= i < n ensures Delivers(Run(w, cooldownNs, steps[..n][..i]), w, steps[..n][i]) {
      assert steps[..n][..i] == steps[..i];
    }
  }

  lemma DeliversAfterObserve(s: Pipeline, w: World, u: Unit)
    requires Deliverable(w, s.output, u)
    ensures Delivers(Apply(s, w, ObserveUnit), w, PushUnit(u))
  {
  }

  lemma OrderlyLate(w: World, cooldownNs: U64, steps: seq<Step>, u: Unit)
    requires Orderly(w, cooldownNs, steps) && Deliverable(w, Run(w, cooldownNs, steps).output, u)
    ensures Orderly(w, cooldownNs, steps + Late(u))
  {
    var all, n := steps + Late(u), |steps|;
    Then(w, cooldownNs, steps, Run(w, cooldownNs, steps), ObserveUnit);
    DeliversAfterObserve(Run(w, cooldownNs, steps), w, u);
    assert all[..n + 1] == steps + [ObserveUnit];
    forall i | 0 <= i < |all| ensures Delivers(Run(w, cooldownNs, all[..i]), w, all[i]) {
      if i < n {
        assert all[..i] == steps[..i] && all[i] == steps[i];
      } else {
        assert i != n + 1 ==> all[i] == ObserveUnit;
      }
    }
  }

  lemma LateStaysPrompt(w: World, cooldownNs: U64, steps: seq<Step>, n: nat, u: Unit)
    requires n <= |steps| && PromptRun(w, cooldownNs, steps)
    ensures PromptRun(w, cooldownNs, steps[..n] + Late(u))
  {
    var all := steps[..n] + Late(u);
    forall i | 0 <= i < |all| ensures !Lags(Run(w, cooldownNs, all[..i]), w, all[i]) {
      if i < n {
        assert all[..i] == steps[..i];
      }
    }
  }

  /** With a positive pre-roll and an encoder that stays orderly: whichever unit comes late, at any moment of
      the run, every clip starts as late as it could, if and only if no trigger of the run found the
      encoder behind its whole pre-roll. */
  lemma LagDecides(w: World, cooldownNs: U64, steps: seq<Step>)
    requires w.Valid() && Orderly(w, cooldownNs, steps) && w.roll.preRollNs > 0
    ensures PromptRun(w, cooldownNs, steps) <==>
      forall n: nat, u | n <= |steps| && Orderly(w, cooldownNs, steps[..n] + Late(u)) ::
        AllStartLatest(Run(w, cooldownNs, steps[..n] + Late(u)))
  {
    if PromptRun(w, cooldownNs, steps) {
      forall n: nat, u | n <= |steps| && Orderly(w, cooldownNs, steps[..n] + Late(u))
        ensures AllStartLatest(Run(w, cooldownNs, steps[..n] + Late(u)))
      {
        LateStaysPrompt(w, cooldownNs, steps, n, u);
        FrontIsMinimal(w, cooldownNs, steps[..n] + Late(u));
      }
    } else {
      var i: nat :| i < |steps| && Lags(Run(w, cooldownNs, steps[..i]), w, steps[i]);
      var u := LagSpoils(w, cooldownNs, steps, i);
    }
  }

  // ----- A run in which it happens -----

  const LAGGING: seq<Step> := [StartRecorder(true), PushUnit(KEY), TriggerEvent(100, 0, true)]

  lemma LaggingStates()
    ensures Run(SMALL, 0, LAGGING[..0]) == Initial(0)
    ensures var s := Run(SMALL, 0, LAGGING[..1]);
      s.output == [] && s.pending.None? && s.ring == EMPTY && s.rec == RECORDING
    ensures var s := Run(SMALL, 0, LAGGING[..2]);
      s.ring == KEPT && s.rec == RECORDING
  {
    var steps, s := Starts();
    assert LAGGING[..1] == steps && LAGGING[..2] == steps + [PushUnit(KEY)];
    Then(SMALL, 0, steps, s, PushUnit(KEY));
  }

  lemma KeyIsSelected()
    ensures Select([KEY], 100, 5).preRollComplete
  {
    assert NewestStart([KEY], 95) == 0;
  }

  /** An orderly run whose trigger finds the encoder behind the whole pre-roll, and an orderly continuation
      that leaves a clip with a complete pre-roll starting earlier than it need. */
  lemma ClipCanStartEarly() returns (u: Unit)
    ensures Orderly(SMALL, 0, LAGGING + Late(u)) && Lags(Run(SMALL, 0, LAGGING[..2]), SMALL, LAGGING[2])
    ensures !AllStartLatest(Run(SMALL, 0, LAGGING + Late(u)))
  {
    LaggingStates();
    KeyIsKept();
    KeyIsSelected();
    forall i | 0 <= i < |LAGGING| ensures Delivers(Run(SMALL, 0, LAGGING[..i]), SMALL, LAGGING[i]) {
    }
    u := LagSpoils(SMALL, 0, LAGGING, 2);
    assert LAGGING[..3] == LAGGING;
  }
}
