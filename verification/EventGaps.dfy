/** Why clips need the encoder to deliver what the ring accepts: the recorder observes what the ring
    refuses, so a clip opened afterwards skips it. */
module EventGaps {
  import opened Basics
  import opened AccessUnits
  import opened RingSpec
  import opened EventSpec
  import opened EventClips

  // ----- Whenever the clip takes the units on both sides -----

  lemma {:induction false} MemberFits(s: seq<Unit>, i: nat)
    requires i < |s|
    ensures s[i].SizeBytes() <= Bytes(s)
    decreases |s|
  {
    if i > 0 {
      MemberFits(s[1..], i - 1);
    }
  }

  /** An oversize unit, a unit the ring accepts, and a trigger. */
  function Around(heavy: Unit, next: Unit, at: U64, sequence: nat): seq<Step> {
    [PushUnit(heavy), ObserveUnit, PushUnit(next), ObserveUnit, TriggerEvent(at, sequence, true)]
  }

  /** The recorder is free to open an event, the ring ends with the newest unit, and the clip that a trigger
      opens after `next` ends with that unit and `next`. */
  ghost predicate TakesBothSides(s: Pipeline, w: World, next: Unit, at: U64, sequence: nat) {
    && s.pending.None? && s.rec.active.None? && s.rec.accepting && CanBegin(s.rec.gate, at)
    && |s.rec.jobs| < QUEUE_CAPACITY && s.ring.units != []
    && var clip := NewEvent(Push(s.ring, w.lim, Some(next)).units, w.roll, at, sequence).units;
      |clip| >= 2 && clip[|clip| - 2..] == [s.ring.units[|s.ring.units| - 1], next]
  }

  lemma Delivering(w: World, cooldownNs: U64, steps: seq<Step>, s: Pipeline, u: Unit) returns (s': Pipeline)
    requires Run(w, cooldownNs, steps) == s && s.pending.None? && s.rec.active.None?
    ensures Run(w, cooldownNs, steps + [PushUnit(u)] + [ObserveUnit]) == s'
    ensures s' == s.(ring := Push(s.ring, w.lim, Some(u)), output := s.output + [u],
                     rec := s.rec.(latestTs := Later(s.rec.latestTs, u.sensorTs)))
  {
    Then(w, cooldownNs, steps, s, PushUnit(u));
    var s1 := Apply(s, w, PushUnit(u));
    Then(w, cooldownNs, steps + [PushUnit(u)], s1, ObserveUnit);
    s' := Apply(s1, w, ObserveUnit);
  }

  lemma RefusedWhenHeavy(ring: Ring, lim: Limits, heavy: Unit)
    requires heavy.SizeBytes() > lim.maxBytes
    ensures Push(ring, lim, Some(heavy)) == ring
  {
  }

  lemma SkipsHeavyAt(clip: seq<Unit>, output: seq<Unit>, last: Unit, heavy: Unit, next: Unit, i: nat)
    requires |clip| >= 2 && clip[|clip| - 2] == last && clip[|clip| - 1] == next
    requires last != heavy && next !in output + [heavy]
    ensures !SliceAt(clip, output + [heavy, next], i)
  {
    var all, n := output + [heavy, next], |clip|;
    if i + n == |all| {
      assert all[i..i + n][n - 2] == heavy;
    } else if i + n < |all| {
      assert all[i..i + n][n - 1] == (output + [heavy])[i + n - 1];
    }
  }

  /** A sequence that ends with `last, next` is no slice of an output that ends with `last, heavy, next`. */
  lemma SkipsHeavy(clip: seq<Unit>, output: seq<Unit>, last: Unit, heavy: Unit, next: Unit)
    requires |clip| >= 2 && clip[|clip| - 2..] == [last, next] && last != heavy && next !in output + [heavy]
    ensures !exists i: nat :: SliceAt(clip, output + [heavy, next], i)
  {
    var n := |clip|;
    assert clip[n - 1] == clip[n - 2..][1] && clip[n - 2] == clip[n - 2..][0];
    forall i: nat ensures !SliceAt(clip, output + [heavy, next], i) {
      SkipsHeavyAt(clip, output, last, heavy, next, i);
    }
  }

  lemma OpenedOrQueued(r: Recorder, ring: seq<Unit>, roll: Settings, at: U64, sequence: nat)
    requires r.active.None? && r.accepting && CanBegin(r.gate, at) && |r.jobs| < QUEUE_CAPACITY
    ensures var e, r' := NewEvent(ring, roll, at, sequence), Trigger(r, ring, roll, at, sequence);
      e.units != [] ==> r'.active == Some(e) || r'.jobs == r.jobs + [Sealed(e, true)]
  {
  }

  lemma RunAround(w: World, cooldownNs: U64, steps: seq<Step>, s: Pipeline, heavy: Unit, next: Unit, at: U64,
                  sequence: nat)
    requires Run(w, cooldownNs, steps) == s && s.pending.None? && s.rec.active.None?
    requires heavy.SizeBytes() > w.lim.maxBytes
    ensures var s' := Run(w, cooldownNs, steps + Around(heavy, next, at, sequence));
      var ts := Later(Later(s.rec.latestTs, heavy.sensorTs), next.sensorTs);
      && s'.output == s.output + [heavy, next]
      && s'.rec == Trigger(s.rec.(latestTs := ts), Push(s.ring, w.lim, Some(next)).units, w.roll, at, sequence)
  {
    var s1 := Delivering(w, cooldownNs, steps, s, heavy);
    RefusedWhenHeavy(s.ring, w.lim, heavy);
    var steps1 := steps + [PushUnit(heavy)] + [ObserveUnit];
    var s2 := Delivering(w, cooldownNs, steps1, s1, next);
    var steps2 := steps1 + [PushUnit(next)] + [ObserveUnit];
    Then(w, cooldownNs, steps2, s2, TriggerEvent(at, sequence, true));
    assert steps + Around(heavy, next, at, sequence) == steps2 + [TriggerEvent(at, sequence, true)];
  }

  /** Over every orderly run: if the encoder then delivers an oversize unit, and the ring still lets the clip
      take the units on both sides of it, the clip has a gap there. */
  lemma OversizeLeavesGapBetween(w: World, cooldownNs: U64, steps: seq<Step>, heavy: Unit, next: Unit, at: U64,
                                 sequence: nat)
    returns (e: Event)
    requires w.Valid() && Orderly(w, cooldownNs, steps) && heavy.SizeBytes() > w.lim.maxBytes
    requires next !in Run(w, cooldownNs, steps).output + [heavy]
    requires TakesBothSides(Run(w, cooldownNs, steps), w, next, at, sequence)
    ensures var s := Run(w, cooldownNs, steps + Around(heavy, next, at, sequence));
      && (s.rec.active == Some(e) || e in s.rec.jobs)
      && !exists i: nat :: SliceAt(e.units, s.output, i)
  {
    EveryRunKeepsInv(w, cooldownNs, steps);
    var s := Run(w, cooldownNs, steps);
    RunAround(w, cooldownNs, steps, s, heavy, next, at, sequence);
    e := GapOpens(s, w, heavy, next, at, sequence);
  }

  lemma GapOpens(s: Pipeline, w: World, heavy: Unit, next: Unit, at: U64, sequence: nat) returns (e: Event)
    requires RingInv(s.ring, w.lim) && heavy.SizeBytes() > w.lim.maxBytes && next !in s.output + [heavy]
    requires TakesBothSides(s, w, next, at, sequence)
    ensures var ts := Later(Later(s.rec.latestTs, heavy.sensorTs), next.sensorTs);
      var r := Trigger(s.rec.(latestTs := ts), Push(s.ring, w.lim, Some(next)).units, w.roll, at, sequence);
      r.active == Some(e) || e in r.jobs
    ensures !exists i: nat :: SliceAt(e.units, s.output + [heavy, next], i)
  {
    var ring := Push(s.ring, w.lim, Some(next)).units;
    var ts := Later(Later(s.rec.latestTs, heavy.sensorTs), next.sensorTs);
    var r := s.rec.(latestTs := ts);
    var begun := NewEvent(ring, w.roll, at, sequence);
    MemberFits(s.ring.units, |s.ring.units| - 1);
    SkipsHeavy(begun.units, s.output, s.ring.units[|s.ring.units| - 1], heavy, next);
    OpenedOrQueued(r, ring, w.roll, at, sequence);
    e := if Trigger(r, ring, w.roll, at, sequence).active == Some(begun) then begun else Sealed(begun, true);
  }

  // ----- A run in which it happens -----

  const KEY := Unit(1, 1, true, true, true, Some([0]))
  const HEAVY := Unit(2, 1, false, false, false, Some([0, 0, 0]))
  const LIGHT := Unit(3, 1, false, false, false, Some([0]))
  const SMALL := World(Limits(100, 2), Settings(5, 0))

  const KEPT := Push(EMPTY, SMALL.lim, Some(KEY))

  lemma KeyIsKept()
    ensures KEPT.units == [KEY] && KEPT.generation == 1 && KEPT.latestTs == 1
  {
    assert Bytes([KEY]) == 1;
    assert Extended(EMPTY, KEY, false) == [KEY];
    assert PruneTime([KEY], 100) == [KEY] && DropHeavy([KEY], 2) == [KEY] && DropUndecodable([KEY]) == [KEY];
  }

  /** Both units the ring accepts fit it; the one between them does not. */
  lemma HeavyIsNotKept()
    ensures Push(KEPT, SMALL.lim, Some(HEAVY)) == KEPT
    ensures Push(KEPT, SMALL.lim, Some(LIGHT)).units == [KEY, LIGHT]
  {
    KeyIsKept();
    assert Bytes([LIGHT]) == 1;
    var s := [KEY, LIGHT];
    assert s[1..] == [LIGHT] && Bytes(s) == 2;
    assert Extended(KEPT, LIGHT, false) == s;
    assert PruneTime(s, 100) == s && DropHeavy(s, 2) == s && DropUndecodable(s) == s;
  }

  /** Push a unit and show it to the recorder, with no event open. */
  lemma Delivered(steps: seq<Step>, s: Pipeline, u: Unit) returns (steps': seq<Step>, s': Pipeline)
    requires Run(SMALL, 0, steps) == s && s.pending.None? && s.rec.active.None?
    ensures Run(SMALL, 0, steps') == s' && s'.pending.None?
    ensures s'.rec == s.rec.(latestTs := Later(s.rec.latestTs, u.sensorTs))
    ensures s'.ring == Push(s.ring, SMALL.lim, Some(u)) && s'.output == s.output + [u]
    ensures s'.worker == s.worker && s'.written == s.written
  {
    Then(SMALL, 0, steps, s, PushUnit(u));
    var s1 := Apply(s, SMALL, PushUnit(u));
    Then(SMALL, 0, steps + [PushUnit(u)], s1, ObserveUnit);
    steps', s' := steps + [PushUnit(u)] + [ObserveUnit], Apply(s1, SMALL, ObserveUnit);
  }

  lemma GapIsSelected()
    ensures NewEvent([KEY, LIGHT], SMALL.roll, 3, 0).units == [KEY, LIGHT]
    ensures NewEvent([KEY, LIGHT], SMALL.roll, 3, 0).postRollComplete
    ensures NewEvent([KEY, LIGHT], SMALL.roll, 3, 0).generation == 1
  {
    var s := [KEY, LIGHT];
    assert s[..1] == [KEY] && [KEY][..0] == [];
    assert NewestStart([KEY], 0) == 1 && NewestStart(s, 0) == 2;
    assert FirstStart(s, 3) == 0 && s[0..] == s;
    assert s[1..] == [LIGHT] && Cut([LIGHT], 3) == 1 && Cut(s, 3) == 2 && s[..2] == s;
  }

  const RECORDING := Recorder(Gate(0, 0, false), None, [], true, true, 0, Counters(0, 0, 0, 0, 0, 0), [])

  lemma Starts() returns (steps: seq<Step>, s: Pipeline)
    ensures steps == [StartRecorder(true)] && Run(SMALL, 0, steps) == s
    ensures s.ring == EMPTY && s.output == [] && s.pending.None? && s.rec == RECORDING
  {
    Then(SMALL, 0, [], Initial(0), StartRecorder(true));
    steps, s := [] + [StartRecorder(true)], Apply(Initial(0), SMALL, StartRecorder(true));
  }

  /** The ring has the units around the heavy one, and the recorder has seen all three. */
  lemma GapInRing() returns (steps: seq<Step>, s: Pipeline)
    ensures Run(SMALL, 0, steps) == s && s.ring.units == [KEY, LIGHT] && s.output == [KEY, HEAVY, LIGHT]
    ensures s.rec == RECORDING.(latestTs := 3)
  {
    var steps0, s0 := Starts();
    var steps1, s1 := Delivered(steps0, s0, KEY);
    assert s1.ring == KEPT;
    HeavyIsNotKept();
    var steps2, s2 := Delivered(steps1, s1, HEAVY);
    assert s2.ring == KEPT;
    steps, s := Delivered(steps2, s2, LIGHT);
    assert s.ring == Push(KEPT, SMALL.lim, Some(LIGHT));
  }

  lemma GapIsFinished(r: Recorder) returns (e: Event)
    requires r == RECORDING.(latestTs := 3)
    ensures Trigger(r, [KEY, LIGHT], SMALL.roll, 3, 0).jobs == [e]
    ensures e.units == [KEY, LIGHT] && CheckMux(e) == Muxable
  {
    GapIsSelected();
    e := Sealed(NewEvent([KEY, LIGHT], SMALL.roll, 3, 0), true);
  }

  /** The recorder observes what the ring refuses, so the premise on sizes is needed: here an oversize unit
      comes between two others, and the clip that is finished, and that muxVideo accepts, skips it. */
  lemma OversizeUnitLeavesGap() returns (steps: seq<Step>, e: Event)
    ensures var s := Run(SMALL, 0, steps);
      && SMALL.Valid() && !Orderly(SMALL, 0, steps)
      && e in Released(s) && CheckMux(e) == Muxable && !exists i: nat :: SliceAt(e.units, s.output, i)
  {
    var before, s := GapInRing();
    e := GapIsFinished(s.rec);
    Then(SMALL, 0, before, s, TriggerEvent(3, 0, true));
    steps := before + [TriggerEvent(3, 0, true)];
    GapInOutput(s.output);
    assert e in Released(Run(SMALL, 0, steps));
    if Orderly(SMALL, 0, steps) {
      ReleasedIsFinished(SMALL, 0, steps, e);
    }
  }

  lemma GapInOutput(output: seq<Unit>)
    requires output == [KEY, HEAVY, LIGHT]
    ensures !exists i: nat :: SliceAt([KEY, LIGHT], output, i)
  {
    assert output[0..2][1] == HEAVY && output[1..3][0] == HEAVY;
  }
}
