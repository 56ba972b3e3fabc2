/** Which triggers open an event, which window it asks for, and what becomes of it: over every run, in
    terms of the settings and of the triggers alone. */
module EventWindows {
  import opened Basics
  import opened AccessUnits
  import opened RingSpec
  import opened EventSpec
  import opened EventClips

  // ----- Every event there has been -----

  /** What an event was opened with. */
  datatype Asked = Asked(trigger: U64, sequence: nat, start: nat, end: nat)

  function AskedOf(e: Event): Asked {
    Asked(e.trigger, e.sequence, e.requestedStart, e.requestedEnd)
  }

  function Total(r: Recorder): nat {
    |r.ended| + if r.active.Some? then 1 else 0
  }

  /** The `k`th event of the recorder: over, or the open one. */
  function EventAt(r: Recorder, k: nat): Event
    requires k < Total(r)
  {
    if k < |r.ended| then r.ended[k].event else r.active.value
  }

  /** The window a trigger asks for: the pre-roll before it, the post-roll after it, within 64 bits. */
  function WindowOf(at: U64, sequence: nat, roll: Settings): Asked {
    Asked(at, sequence,
          if at > roll.preRollNs then at - roll.preRollNs else 0,
          if at + roll.postRollNs <= U64_MAX then at + roll.postRollNs else U64_MAX)
  }

  /** When the cooldown after an event that ended at `end` is over. */
  function Until(end: nat, cooldownNs: nat): nat {
    if end + cooldownNs <= U64_MAX then end + cooldownNs else U64_MAX
  }

  /** The events stay what they were asked to be. */
  ghost predicate SameAsked(r: Recorder, r': Recorder) {
    Total(r) <= Total(r') && forall k | 0 <= k < Total(r) :: AskedOf(EventAt(r', k)) == AskedOf(EventAt(r, k))
  }

  // ----- What holds of the recorder -----

  predicate EndIsLast(e: Event) {
    e.actualEnd == if e.units == [] then e.trigger else e.units[|e.units| - 1].sensorTs
  }

  function Partial(b: bool): nat {
    if b then 0 else 1
  }

  function PartialPost(ended: seq<Ended>): nat {
    if ended == [] then 0
    else PartialPost(ended[..|ended| - 1]) + Partial(ended[|ended| - 1].event.postRollComplete)
  }

  function PartialPre(ended: seq<Ended>): nat {
    if ended == [] then 0
    else PartialPre(ended[..|ended| - 1]) + Partial(ended[|ended| - 1].event.preRollComplete)
  }

  /** Every event waited for the cooldown after the one before it. */
  ghost predicate Spaced(r: Recorder, cooldownNs: nat) {
    forall k | 1 <= k < Total(r) :: EventAt(r, k).trigger >= Until(r.ended[k - 1].event.actualEnd, cooldownNs)
  }

  ghost predicate GateInv(r: Recorder, cooldownNs: nat) {
    && r.gate.cooldownNs == cooldownNs && (r.gate.collecting <==> r.active.Some?)
    && r.gate.cooldownUntil
       == (if r.ended == [] then 0 else Until(r.ended[|r.ended| - 1].event.actualEnd, cooldownNs))
    && Spaced(r, cooldownNs)
    && (forall k | 0 <= k < |r.ended| :: EndIsLast(r.ended[k].event))
  }

  predicate CountsInv(r: Recorder) {
    && r.count.triggered == Total(r)
    && r.count.partialPostRoll == PartialPost(r.ended)
    && r.count.partialPreRoll
       == PartialPre(r.ended) + if r.active.Some? then Partial(r.active.value.preRollComplete) else 0
  }

  // ----- Finishing -----

  lemma FinishAsked(r: Recorder, post: bool)
    ensures SameAsked(r, Finish(r, post)) && Total(Finish(r, post)) == Total(r)
  {
  }

  lemma FinishGate(r: Recorder, post: bool, cooldownNs: nat)
    requires GateInv(r, cooldownNs)
    ensures GateInv(Finish(r, post), cooldownNs)
  {
    var r' := Finish(r, post);
    FinishAsked(r, post);
    if r.active.Some? {
      forall k | 1 <= k < Total(r')
        ensures EventAt(r', k).trigger >= Until(r'.ended[k - 1].event.actualEnd, cooldownNs)
      {
        assert r'.ended[k - 1] == r.ended[k - 1];
        assert AskedOf(EventAt(r', k)) == AskedOf(EventAt(r, k));
      }
    }
  }

  lemma FinishCountsPartial(r: Recorder, post: bool)
    requires CountsInv(r)
    ensures CountsInv(Finish(r, post))
  {
    if r.active.Some? {
      var r' := Finish(r, post);
      assert r'.ended[..|r'.ended| - 1] == r.ended;
    }
  }

  /** The worker gets the event unless two jobs wait already. */
  lemma FinishQueues(r: Recorder, post: bool)
    ensures r.active.Some? ==>
      var r' := Finish(r, post); var last := r'.ended[|r.ended|];
      && r'.ended == r.ended + [last] && (last.queued <==> |r.jobs| < 2)
      && r'.jobs == if last.queued then r.jobs + [last.event] else r.jobs
  {
  }

  // ----- One step of the recorder -----

  ghost predicate RecorderInv(r: Recorder, cooldownNs: nat) {
    GateInv(r, cooldownNs) && CountsInv(r)
  }

  /** What neither the worker nor the lifecycle touches. */
  predicate Untouched(r: Recorder, r': Recorder) {
    && r'.gate == r.gate && r'.active == r.active && r'.ended == r.ended
    && r'.count.triggered == r.count.triggered && r'.count.partialPreRoll == r.count.partialPreRoll
    && r'.count.partialPostRoll == r.count.partialPostRoll
  }

  lemma UntouchedKeeps(r: Recorder, r': Recorder, cooldownNs: nat)
    requires RecorderInv(r, cooldownNs) && Untouched(r, r')
    ensures RecorderInv(r', cooldownNs) && SameAsked(r, r') && Total(r') == Total(r)
  {
    forall k | 0 <= k < Total(r) ensures EventAt(r', k) == EventAt(r, k) {
    }
  }

  lemma FinishKeeps(r: Recorder, post: bool, cooldownNs: nat)
    requires RecorderInv(r, cooldownNs)
    ensures RecorderInv(Finish(r, post), cooldownNs) && SameAsked(r, Finish(r, post))
    ensures Total(Finish(r, post)) == Total(r)
  {
    FinishAsked(r, post);
    FinishGate(r, post, cooldownNs);
    FinishCountsPartial(r, post);
  }

  lemma SameAskedOn(a: Recorder, b: Recorder, c: Recorder)
    requires SameAsked(a, b) && SameAsked(b, c)
    ensures SameAsked(a, c)
  {
    forall k | 0 <= k < Total(a) ensures AskedOf(EventAt(c, k)) == AskedOf(EventAt(a, k)) {
      assert AskedOf(EventAt(b, k)) == AskedOf(EventAt(a, k));
    }
  }

  lemma OpenedKeeps(r: Recorder, e: Event, cooldownNs: nat)
    requires RecorderInv(r, cooldownNs) && r.active.None? && e.trigger >= r.gate.cooldownUntil
    ensures var r' := Opened(r, e);
      && RecorderInv(r', cooldownNs) && SameAsked(r, r') && Total(r') == Total(r) + 1
      && AskedOf(EventAt(r', Total(r))) == AskedOf(e)
  {
    var r' := Opened(r, e);
    forall k | 1 <= k < Total(r') ensures EventAt(r', k).trigger >= Until(r'.ended[k - 1].event.actualEnd, cooldownNs) {
      if k < Total(r) { assert EventAt(r', k) == EventAt(r, k); }
    }
  }

  lemma SettleKeeps(r: Recorder, cooldownNs: nat)
    requires RecorderInv(r, cooldownNs)
    ensures RecorderInv(Settle(r), cooldownNs) && SameAsked(r, Settle(r)) && Total(Settle(r)) == Total(r)
  {
    FinishKeeps(r, false, cooldownNs);
    FinishKeeps(r, true, cooldownNs);
  }

  predicate OpensNow(r: Recorder, at: nat, cooldownNs: nat) {
    && r.accepting && r.active.None?
    && (r.ended == [] || at >= Until(r.ended[|r.ended| - 1].event.actualEnd, cooldownNs))
  }

  lemma OpeningKeeps(r: Recorder, ring: seq<Unit>, roll: Settings, at: U64, sequence: nat, cooldownNs: nat)
    requires RecorderInv(r, cooldownNs) && OpensNow(r, at, cooldownNs)
    ensures var r' := Settle(Opened(r, NewEvent(ring, roll, at, sequence)));
      && RecorderInv(r', cooldownNs) && SameAsked(r, r') && Total(r') == Total(r) + 1
      && r'.count.suppressed == r.count.suppressed
      && AskedOf(EventAt(r', Total(r))) == WindowOf(at, sequence, roll)
  {
    var e := NewEvent(ring, roll, at, sequence);
    OpenedKeeps(r, e, cooldownNs);
    SettleKeeps(Opened(r, e), cooldownNs);
    SameAskedOn(r, Opened(r, e), Settle(Opened(r, e)));
    SettleSuppresses(Opened(r, e));
  }

  /** A trigger opens an event for its window exactly when the recorder accepts, none is open and the cooldown
      after the last one is over. */
  lemma TriggerKeeps(r: Recorder, ring: seq<Unit>, roll: Settings, at: U64, sequence: nat, cooldownNs: nat)
    requires RecorderInv(r, cooldownNs)
    ensures var r' := Trigger(r, ring, roll, at, sequence);
      && RecorderInv(r', cooldownNs) && SameAsked(r, r')
      && Total(r') == Total(r) + (if OpensNow(r, at, cooldownNs) then 1 else 0)
      && r'.count.suppressed == r.count.suppressed + (if OpensNow(r, at, cooldownNs) then 0 else 1)
      && (OpensNow(r, at, cooldownNs) ==> AskedOf(EventAt(r', Total(r))) == WindowOf(at, sequence, roll))
  {
    var r1 := r.(latestTs := Later(r.latestTs, at));
    UntouchedKeeps(r, r1, cooldownNs);
    if OpensNow(r, at, cooldownNs) {
      OpeningKeeps(r1, ring, roll, at, sequence, cooldownNs);
      SameAskedOn(r, r1, Trigger(r, ring, roll, at, sequence));
    } else {
      UntouchedKeeps(r, Trigger(r, ring, roll, at, sequence), cooldownNs);
    }
  }

  lemma SettleSuppresses(r: Recorder)
    ensures Settle(r).count.suppressed == r.count.suppressed
  {
  }

  lemma ObserveKeeps(r: Recorder, u: Unit, cooldownNs: nat)
    requires RecorderInv(r, cooldownNs)
    ensures var r' := Observe(r, u);
      RecorderInv(r', cooldownNs) && SameAsked(r, r') && Total(r') == Total(r)
  {
    var r1 := r.(latestTs := Later(r.latestTs, u.sensorTs));
    UntouchedKeeps(r, r1, cooldownNs);
    if r.active.Some? {
      FinishKeeps(r1, false, cooldownNs);
      SameAskedOn(r, r1, Finish(r1, false));
      var r2 := r1.(active := Some(r.active.value.(units := r.active.value.units + [u])));
      AppendKeeps(r, r2, cooldownNs);
      FinishKeeps(r2, true, cooldownNs);
      SameAskedOn(r, r2, Finish(r2, true));
    }
  }

  lemma AppendKeeps(r: Recorder, r': Recorder, cooldownNs: nat)
    requires RecorderInv(r, cooldownNs) && r.active.Some? && r'.active.Some?
    requires r'.gate == r.gate && r'.ended == r.ended && r'.count == r.count
    requires AskedOf(r'.active.value) == AskedOf(r.active.value)
    requires r'.active.value.preRollComplete == r.active.value.preRollComplete
    ensures RecorderInv(r', cooldownNs) && SameAsked(r, r') && Total(r') == Total(r)
  {
    forall k | 0 <= k < Total(r) ensures AskedOf(EventAt(r', k)) == AskedOf(EventAt(r, k)) {
    }
    forall k | 1 <= k < Total(r') ensures EventAt(r', k).trigger >= Until(r'.ended[k - 1].event.actualEnd, cooldownNs) {
      assert AskedOf(EventAt(r', k)) == AskedOf(EventAt(r, k));
    }
  }

  lemma StopKeeps(r: Recorder, cooldownNs: nat)
    requires RecorderInv(r, cooldownNs)
    ensures var r' := StopRequest(r);
      RecorderInv(r', cooldownNs) && SameAsked(r, r') && Total(r') == Total(r)
  {
    var r1 := r.(accepting := false);
    UntouchedKeeps(r, r1, cooldownNs);
    FinishKeeps(r1, false, cooldownNs);
    UntouchedKeeps(Finish(r1, false), StopRequest(r), cooldownNs);
    SameAskedOn(r, r1, Finish(r1, false));
    SameAskedOn(r, Finish(r1, false), StopRequest(r));
  }

  // ----- One step of the pipeline -----

  predicate OpensBy(s: Pipeline, step: Step, cooldownNs: nat) {
    step.TriggerEvent? && step.storage && OpensNow(s.rec, step.at, cooldownNs)
  }

  lemma ApplyKeeps(s: Pipeline, w: World, step: Step, cooldownNs: nat)
    requires RecorderInv(s.rec, cooldownNs)
    ensures var r, r' := s.rec, Apply(s, w, step).rec;
      && RecorderInv(r', cooldownNs) && SameAsked(r, r')
      && Total(r') == Total(r) + (if OpensBy(s, step, cooldownNs) then 1 else 0)
      && (OpensBy(s, step, cooldownNs) ==> AskedOf(EventAt(r', Total(r))) == WindowOf(step.at, step.sequence, w.roll))
  {
    match step
    case TriggerEvent(at, sequence, storage) =>
      if storage {
        TriggerKeeps(s.rec, s.ring.units, w.roll, at, sequence, cooldownNs);
      } else {
        UntouchedKeeps(s.rec, Apply(s, w, step).rec, cooldownNs);
      }
    case ObserveUnit =>
      if s.pending.Some? {
        ObserveKeeps(s.rec, s.pending.value, cooldownNs);
      } else {
        UntouchedKeeps(s.rec, s.rec, cooldownNs);
      }
    case Stop => StopKeeps(s.rec, cooldownNs);
    case _ => UntouchedKeeps(s.rec, Apply(s, w, step).rec, cooldownNs);
  }

  // ----- Every run -----

  lemma {:induction false} EveryRunKeepsRecorder(w: World, cooldownNs: U64, steps: seq<Step>)
    ensures RecorderInv(Run(w, cooldownNs, steps).rec, cooldownNs)
  {
    if steps != [] {
      EveryRunKeepsRecorder(w, cooldownNs, steps[..|steps| - 1]);
      ApplyKeeps(Run(w, cooldownNs, steps[..|steps| - 1]), w, steps[|steps| - 1], cooldownNs);
    }
  }

  /** Step `i` is the trigger that opened event `k`, and it asks for the window around its own time. */
  ghost predicate OpenedBy(w: World, cooldownNs: U64, steps: seq<Step>, i: nat, k: nat)
    requires k < Total(Run(w, cooldownNs, steps).rec)
  {
    && i < |steps| && steps[i].TriggerEvent? && steps[i].storage
    && Run(w, cooldownNs, steps[..i]).rec.count.triggered == k
    && Run(w, cooldownNs, steps[..i + 1]).rec.count.triggered == k + 1
    && AskedOf(EventAt(Run(w, cooldownNs, steps).rec, k)) == WindowOf(steps[i].at, steps[i].sequence, w.roll)
  }

  /** Over every run each event, open or over, was opened by one trigger step and asks for the time from the
      pre-roll before that trigger to the post-roll after it. */
  lemma {:induction false} WindowsAreAsAsked(w: World, cooldownNs: U64, steps: seq<Step>, k: nat) returns (i: nat)
    requires k < Total(Run(w, cooldownNs, steps).rec)
    ensures OpenedBy(w, cooldownNs, steps, i, k)
  {
    var n := |steps| - 1;
    var before := steps[..n];
    var s := Run(w, cooldownNs, before);
    EveryRunKeepsRecorder(w, cooldownNs, before);
    EveryRunKeepsRecorder(w, cooldownNs, steps);
    ApplyKeeps(s, w, steps[n], cooldownNs);
    if k < Total(s.rec) {
      i := WindowsAreAsAsked(w, cooldownNs, before, k);
      assert before[..i] == steps[..i] && before[..i + 1] == steps[..i + 1];
    } else {
      i := n;
      assert steps[..n + 1] == steps;
    }
  }

  /** Written out for one event. */
  lemma WindowOfEvent(w: World, cooldownNs: U64, steps: seq<Step>, k: nat)
    requires k < Total(Run(w, cooldownNs, steps).rec)
    ensures var e := EventAt(Run(w, cooldownNs, steps).rec, k);
      && e.requestedStart == (if e.trigger > w.roll.preRollNs then e.trigger - w.roll.preRollNs else 0)
      && e.requestedEnd
         == (if e.trigger + w.roll.postRollNs <= U64_MAX then e.trigger + w.roll.postRollNs else U64_MAX)
      && TriggerEvent(e.trigger, e.sequence, true) in steps
  {
    var i := WindowsAreAsAsked(w, cooldownNs, steps, k);
    assert steps[i] == TriggerEvent(steps[i].at, steps[i].sequence, true);
  }

  /** Over every run an event waits for the cooldown after the event before it, whether or not the queue had
      room for that one; and where an event ended is its last unit, or its trigger if it has none. */
  lemma CooldownSeparates(w: World, cooldownNs: U64, steps: seq<Step>, k: nat)
    requires 1 <= k < Total(Run(w, cooldownNs, steps).rec)
    ensures var r := Run(w, cooldownNs, steps).rec; var earlier := r.ended[k - 1].event;
      && EventAt(r, k).trigger
         >= (if earlier.actualEnd + cooldownNs <= U64_MAX then earlier.actualEnd + cooldownNs else U64_MAX)
      && earlier.actualEnd
         == if earlier.units == [] then earlier.trigger else earlier.units[|earlier.units| - 1].sensorTs
  {
    EveryRunKeepsRecorder(w, cooldownNs, steps);
  }

  /** As long as the triggers that open events come in the order of their times, an event waits for the cooldown
      after every earlier one. */
  lemma {:induction false} CooldownOfAny(w: World, cooldownNs: U64, steps: seq<Step>, i: nat, j: nat)
    requires i < j < Total(Run(w, cooldownNs, steps).rec)
    requires var r := Run(w, cooldownNs, steps).rec;
      forall k | i < k < j :: EventAt(r, k).trigger <= EventAt(r, k + 1).trigger
    ensures var r := Run(w, cooldownNs, steps).rec;
      EventAt(r, j).trigger >= Until(r.ended[i].event.actualEnd, cooldownNs)
    decreases j
  {
    CooldownSeparates(w, cooldownNs, steps, i + 1);
    if i + 1 < j {
      CooldownOfAny(w, cooldownNs, steps, i, j - 1);
      assert EventAt(Run(w, cooldownNs, steps).rec, j - 1).trigger <= EventAt(Run(w, cooldownNs, steps).rec, j).trigger;
    }
  }

  lemma TriggerCountsOne(s: Pipeline, w: World, at: U64, sequence: nat, storage: bool, cooldownNs: nat)
    requires RecorderInv(s.rec, cooldownNs)
    ensures var c, c' := s.rec.count, Apply(s, w, TriggerEvent(at, sequence, storage)).rec.count;
      var opens := storage && OpensNow(s.rec, at, cooldownNs);
      && c'.triggered == c.triggered + (if opens then 1 else 0)
      && c'.suppressed == c.suppressed + (if opens then 0 else 1)
  {
    if storage {
      TriggerKeeps(s.rec, s.ring.units, w.roll, at, sequence, cooldownNs);
    }
  }

  /** And the other way round: with the recorder accepting, no event open and the cooldown after the last event
      over, a trigger does open one; otherwise it is suppressed. */
  lemma TriggerOpensExactly(w: World, cooldownNs: U64, steps: seq<Step>, at: U64, sequence: nat, storage: bool)
    ensures var s := Run(w, cooldownNs, steps);
      var c, c' := s.rec.count, Apply(s, w, TriggerEvent(at, sequence, storage)).rec.count;
      var opens := storage && s.rec.accepting && s.rec.active.None?
        && (s.rec.ended == [] || at >= Until(s.rec.ended[|s.rec.ended| - 1].event.actualEnd, cooldownNs));
      && c'.triggered == c.triggered + (if opens then 1 else 0)
      && c'.suppressed == c.suppressed + (if opens then 0 else 1)
  {
    EveryRunKeepsRecorder(w, cooldownNs, steps);
    TriggerCountsOne(Run(w, cooldownNs, steps), w, at, sequence, storage, cooldownNs);
  }

  /** At `at` the cooldown after every one of these events is over. */
  ghost predicate RestsFromAll(at: nat, ended: seq<Ended>, cooldownNs: nat) {
    forall i | 0 <= i < |ended| :: at >= Until(ended[i].event.actualEnd, cooldownNs)
  }

  /** So the next event waits for the cooldown after every earlier one, whenever its trigger comes, exactly when
      no earlier cooldown is over later than the last one. */
  lemma EarlierCooldowns(w: World, cooldownNs: U64, steps: seq<Step>)
    requires Run(w, cooldownNs, steps).rec.ended != []
    ensures var ended := Run(w, cooldownNs, steps).rec.ended; var last := ended[|ended| - 1].event.actualEnd;
      (forall at: U64 | at >= Until(last, cooldownNs) :: RestsFromAll(at, ended, cooldownNs))
      <==> forall i | 0 <= i < |ended| :: Until(ended[i].event.actualEnd, cooldownNs) <= Until(last, cooldownNs)
  {
    var ended := Run(w, cooldownNs, steps).rec.ended;
    var at: U64 := Until(ended[|ended| - 1].event.actualEnd, cooldownNs);
    if i :| 0 <= i < |ended| && Until(ended[i].event.actualEnd, cooldownNs) > at {
      assert !RestsFromAll(at, ended, cooldownNs);
    }
  }

  // ----- What becomes of an event -----

  function Queued(ended: seq<Ended>): seq<Event> {
    if ended == [] then []
    else Queued(ended[..|ended| - 1]) + if ended[|ended| - 1].queued then [ended[|ended| - 1].event] else []
  }

  lemma FinishReleases(r: Recorder, post: bool, front: seq<Event>)
    requires front + r.jobs == Queued(r.ended)
    ensures front + Finish(r, post).jobs == Queued(Finish(r, post).ended)
  {
    if r.active.Some? {
      FinishQueues(r, post);
      var r' := Finish(r, post);
      assert r'.ended[..|r'.ended| - 1] == r.ended;
    }
  }

  /** Over every run the worker gets the events that the queue had room for, in the order they ended, each
      once. */
  lemma {:induction false} ReleasedInOrder(w: World, cooldownNs: U64, steps: seq<Step>)
    ensures Released(Run(w, cooldownNs, steps)) == Queued(Run(w, cooldownNs, steps).rec.ended)
  {
    if steps != [] {
      ReleasedInOrder(w, cooldownNs, steps[..|steps| - 1]);
      ApplyReleases(Run(w, cooldownNs, steps[..|steps| - 1]), w, steps[|steps| - 1]);
    }
  }

  function AtWorker(s: Pipeline): seq<Event> {
    s.written + if s.worker.Writing? then [s.worker.job] else []
  }

  lemma TriggerReleases(r: Recorder, ring: seq<Unit>, roll: Settings, at: U64, sequence: nat, front: seq<Event>)
    requires front + r.jobs == Queued(r.ended)
    ensures var r' := Trigger(r, ring, roll, at, sequence);
      front + r'.jobs == Queued(r'.ended)
  {
    if r.accepting && CanBegin(r.gate, at) {
      var r2 := Opened(r.(latestTs := Later(r.latestTs, at)), NewEvent(ring, roll, at, sequence));
      FinishReleases(r2, false, front);
      FinishReleases(r2, true, front);
    }
  }

  lemma ObserveReleases(r: Recorder, u: Unit, front: seq<Event>)
    requires front + r.jobs == Queued(r.ended)
    ensures front + Observe(r, u).jobs == Queued(Observe(r, u).ended)
  {
    if r.active.Some? {
      var r1 := r.(latestTs := Later(r.latestTs, u.sensorTs));
      FinishReleases(r1, false, front);
      FinishReleases(r1.(active := Some(r.active.value.(units := r.active.value.units + [u]))), true, front);
    }
  }

  lemma StopReleases(r: Recorder, front: seq<Event>)
    requires front + r.jobs == Queued(r.ended)
    ensures front + StopRequest(r).jobs == Queued(StopRequest(r).ended)
  {
    FinishReleases(r.(accepting := false), false, front);
  }

  lemma WorkerReleases(s: Pipeline, w: World, step: Step)
    requires step.WorkerTake? || step.WorkerWrite?
    ensures Released(Apply(s, w, step)) == Released(s) && Apply(s, w, step).rec.ended == s.rec.ended
  {
    if step.WorkerTake? && s.rec.jobs != [] {
      assert s.rec.jobs == [s.rec.jobs[0]] + s.rec.jobs[1..];
    }
  }

  lemma ApplyReleases(s: Pipeline, w: World, step: Step)
    requires Released(s) == Queued(s.rec.ended)
    ensures Released(Apply(s, w, step)) == Queued(Apply(s, w, step).rec.ended)
  {
    var front := AtWorker(s);
    assert Released(s) == front + s.rec.jobs;
    match step
    case TriggerEvent(at, sequence, storage) =>
      TriggerReleases(s.rec, s.ring.units, w.roll, at, sequence, front);
    case ObserveUnit => if s.pending.Some? { ObserveReleases(s.rec, s.pending.value, front); }
    case Stop => StopReleases(s.rec, front);
    case WorkerTake => WorkerReleases(s, w, step);
    case WorkerWrite(_) => WorkerReleases(s, w, step);
    case _ =>
  }

  /** At most one event more is over, and it is queued unless `waiting` is two. */
  ghost predicate EndsOne(r: Recorder, r': Recorder, waiting: nat) {
    || r'.ended == r.ended
    || (|r'.ended| == |r.ended| + 1 && r'.ended[..|r.ended|] == r.ended
        && (r'.ended[|r.ended|].queued <==> waiting < 2))
  }

  lemma FinishEndsOne(r: Recorder, post: bool)
    ensures EndsOne(r, Finish(r, post), |r.jobs|)
  {
    FinishQueues(r, post);
  }

  lemma TriggerEndsOne(r: Recorder, ring: seq<Unit>, roll: Settings, at: U64, sequence: nat)
    ensures EndsOne(r, Trigger(r, ring, roll, at, sequence), |r.jobs|)
  {
    var r2 := Opened(r.(latestTs := Later(r.latestTs, at)), NewEvent(ring, roll, at, sequence));
    FinishEndsOne(r2, false);
    FinishEndsOne(r2, true);
  }

  lemma ObserveEndsOne(r: Recorder, u: Unit)
    ensures EndsOne(r, Observe(r, u), |r.jobs|)
  {
    if r.active.Some? {
      var r1 := r.(latestTs := Later(r.latestTs, u.sensorTs));
      FinishEndsOne(r1, false);
      FinishEndsOne(r1.(active := Some(r.active.value.(units := r.active.value.units + [u]))), true);
    }
  }

  /** An event is refused by the queue only when two jobs wait already. */
  lemma QueueHasRoomForTwo(s: Pipeline, w: World, step: Step)
    ensures EndsOne(s.rec, Apply(s, w, step).rec, |s.rec.jobs|)
  {
    match step
    case TriggerEvent(at, sequence, storage) => TriggerEndsOne(s.rec, s.ring.units, w.roll, at, sequence);
    case ObserveUnit => if s.pending.Some? { ObserveEndsOne(s.rec, s.pending.value); }
    case Stop => FinishEndsOne(s.rec.(accepting := false), false);
    case _ =>
  }

  /** What publishing an event takes, field by field. */
  predicate FilesOk(hasUnits: bool, io: Io) {
    io.directory && io.metadata && io.rename && if hasUnits then io.mux else io.snapshot
  }

  lemma PublishesExactly(e: Event, io: Io)
    requires CheckMux(e) == if e.units == [] then Unavailable else Muxable
    ensures Publishes(e, io) <==> FilesOk(e.units != [], io)
  {
  }

  lemma WriteCounts(s: Pipeline, w: World, io: Io)
    requires s.worker.Writing?
    ensures var c, c' := s.rec.count, Apply(s, w, WorkerWrite(io)).rec.count;
      && c'.completed == c.completed + (if Publishes(s.worker.job, io) then 1 else 0)
      && c'.failed == c.failed + (if Publishes(s.worker.job, io) then 0 else 1)
  {
  }

  /** Which outcomes complete an event: one with units needs its video, one without needs its snapshot, and
      both need their directory, their metadata and the final rename. */
  lemma CompletedExactly(w: World, cooldownNs: U64, steps: seq<Step>, io: Io)
    requires w.Valid() && Orderly(w, cooldownNs, steps) && Run(w, cooldownNs, steps).worker.Writing?
    ensures var s := Run(w, cooldownNs, steps); var c, c' := s.rec.count, Apply(s, w, WorkerWrite(io)).rec.count;
      && c'.completed == c.completed + (if FilesOk(s.worker.job.units != [], io) then 1 else 0)
      && c'.failed == c.failed + (if FilesOk(s.worker.job.units != [], io) then 0 else 1)
  {
    var s := Run(w, cooldownNs, steps);
    WriterIsReleased(s);
    MuxRejectionsUnreachable(w, cooldownNs, steps, s.worker.job);
    PublishesExactly(s.worker.job, io);
    WriteCounts(s, w, io);
  }

  lemma WriterIsReleased(s: Pipeline)
    requires s.worker.Writing?
    ensures s.worker.job in Released(s)
  {
    assert Released(s)[|s.written|] == s.worker.job;
  }

  /** Every clip of an orderly run starts with a key frame that carries its parameter sets. */
  lemma ClipsStartWithKeyFrames(w: World, cooldownNs: U64, steps: seq<Step>, e: Event)
    requires w.Valid() && Orderly(w, cooldownNs, steps) && e in Released(Run(w, cooldownNs, steps)) && e.units != []
    ensures e.units[0].keyframe && e.units[0].hasSps && e.units[0].hasPps
  {
    ReleasedIsFinished(w, cooldownNs, steps, e);
  }

  // ----- Triggers -----

  function TriggerSteps(steps: seq<Step>): nat {
    if steps == [] then 0
    else TriggerSteps(steps[..|steps| - 1]) + if steps[|steps| - 1].TriggerEvent? then 1 else 0
  }

  /** Every trigger opens an event or is counted as suppressed; events with a partial pre-roll or post-roll are
      counted as such. */
  lemma {:induction false} TriggersAreCounted(w: World, cooldownNs: U64, steps: seq<Step>)
    ensures var r := Run(w, cooldownNs, steps).rec;
      && r.count.triggered + r.count.suppressed == TriggerSteps(steps)
      && r.count.triggered == Total(r) && r.count.partialPostRoll == PartialPost(r.ended)
      && (r.active.None? ==> r.count.partialPreRoll == PartialPre(r.ended))
  {
    EveryRunKeepsRecorder(w, cooldownNs, steps);
    if steps != [] {
      var before, step := steps[..|steps| - 1], steps[|steps| - 1];
      TriggersAreCounted(w, cooldownNs, before);
      if step.TriggerEvent? {
        TriggerOpensExactly(w, cooldownNs, before, step.at, step.sequence, step.storage);
      } else {
        OthersSuppressNothing(Run(w, cooldownNs, before), w, step);
      }
    }
  }

  lemma OthersSuppressNothing(s: Pipeline, w: World, step: Step)
    requires !step.TriggerEvent?
    ensures Apply(s, w, step).rec.count.suppressed == s.rec.count.suppressed
    ensures Apply(s, w, step).rec.count.triggered == s.rec.count.triggered
  {
  }

  /** The latest time the recorder has seen, of triggers and of observed units. */
  function Newest(w: World, cooldownNs: U64, steps: seq<Step>): nat {
    if steps == [] then 0 else
    var before, step := steps[..|steps| - 1], steps[|steps| - 1];
    var seen, s := Newest(w, cooldownNs, before), Run(w, cooldownNs, before);
    var time := if step.TriggerEvent? && step.storage then step.at
                else if step.ObserveUnit? && s.pending.Some? then s.pending.value.sensorTs else 0;
    if time > seen then time else seen
  }

  lemma {:induction false} LatestIsNewest(w: World, cooldownNs: U64, steps: seq<Step>)
    ensures Run(w, cooldownNs, steps).rec.latestTs == Newest(w, cooldownNs, steps)
  {
    if steps != [] {
      LatestIsNewest(w, cooldownNs, steps[..|steps| - 1]);
      StepSees(Run(w, cooldownNs, steps[..|steps| - 1]), w, steps[|steps| - 1]);
    }
  }

  lemma ObserveSees(r: Recorder, u: Unit)
    ensures Observe(r, u).latestTs == if u.sensorTs > r.latestTs then u.sensorTs else r.latestTs
  {
  }

  lemma TriggerSees(r: Recorder, ring: seq<Unit>, roll: Settings, at: U64, sequence: nat)
    ensures Trigger(r, ring, roll, at, sequence).latestTs == if at > r.latestTs then at else r.latestTs
  {
  }

  lemma StepSees(s: Pipeline, w: World, step: Step)
    ensures var time := if step.TriggerEvent? && step.storage then step.at
                        else if step.ObserveUnit? && s.pending.Some? then s.pending.value.sensorTs else 0;
      Apply(s, w, step).rec.latestTs == if time > s.rec.latestTs then time else s.rec.latestTs
  {
    match step
    case TriggerEvent(at, sequence, storage) => TriggerSees(s.rec, s.ring.units, w.roll, at, sequence);
    case ObserveUnit => if s.pending.Some? { ObserveSees(s.rec, s.pending.value); }
    case _ =>
  }

  /** Once the history is cleared, no clip reaches back behind the clearing: a trigger that comes before the
      next unit opens an event without units, which is over at once. */
  lemma ClearForgets(w: World, cooldownNs: U64, steps: seq<Step>, at: U64, sequence: nat)
    ensures var s := Apply(Run(w, cooldownNs, steps), w, ClearHistory);
      var s' := Apply(s, w, TriggerEvent(at, sequence, true));
      && s.ring.units == []
      && (Total(s'.rec) > Total(s.rec) ==>
            s'.rec.active.None? && EventAt(s'.rec, Total(s.rec)).units == []
            && !EventAt(s'.rec, Total(s.rec)).preRollComplete)
  {
    EveryRunKeepsRecorder(w, cooldownNs, steps);
    EmptyTrigger(Run(w, cooldownNs, steps).rec, w.roll, at, sequence, cooldownNs);
  }

  lemma EmptyTrigger(r: Recorder, roll: Settings, at: U64, sequence: nat, cooldownNs: nat)
    requires RecorderInv(r, cooldownNs)
    ensures var r' := Trigger(r, [], roll, at, sequence);
      Total(r') > Total(r) ==>
        r'.active.None? && EventAt(r', Total(r)).units == [] && !EventAt(r', Total(r)).preRollComplete
  {
  }

  // ----- A cooldown that is forgotten -----

  function Key(ts: U64, generation: U64): Unit {
    Unit(ts, generation, true, true, true, Some([0]))
  }

  const ROOM := World(Limits(100, 2), Settings(5, 0))

  /** A key frame of a new generation is all the ring keeps. */
  lemma KeepsAlone(ring: Ring, ts: U64, generation: U64)
    requires ring.units == [] || ring.generation != generation
    requires ts != 0 && generation != 0
    ensures Push(ring, ROOM.lim, Some(Key(ts, generation))).units == [Key(ts, generation)]
    ensures Push(ring, ROOM.lim, Some(Key(ts, generation))).generation == generation
  {
    var key := Key(ts, generation);
    assert Bytes([key]) == 1;
    assert Extended(ring, key, true) == [key] && (ring.units == [] ==> Extended(ring, key, false) == [key]);
    assert PruneTime([key], 100) == [key] && DropHeavy([key], 2) == [key] && DropUndecodable([key]) == [key];
  }

  lemma OpensOnKey(ts: U64, generation: U64, at: U64)
    requires 0 < ts < at && at > 5 && ts <= at - 5
    ensures var e := NewEvent([Key(ts, generation)], ROOM.roll, at, 0);
      e.units == [Key(ts, generation)] && !e.postRollComplete && e.generation == generation && e.trigger == at
  {
    var s := [Key(ts, generation)];
    NewestStartIs(s, at - 5);
    assert s[0..] == s;
  }

  /** The recorder has ended events at these times, and the ring ends with one key frame. */
  ghost predicate Rested(s: Pipeline, ends: seq<nat>, ts: U64, generation: U64) {
    && s.pending.None? && s.rec.active.None? && s.rec.accepting && !s.rec.gate.collecting
    && s.ring.units == [Key(ts, generation)] && s.ring.generation == generation
    && s.rec.gate.cooldownNs == 10 && |s.rec.ended| == |ends|
    && (forall i | 0 <= i < |ends| :: s.rec.ended[i].event.actualEnd == ends[i])
    && s.rec.gate.cooldownUntil == if ends == [] then 0 else Until(ends[|ends| - 1], 10)
  }

  lemma RestsFirst() returns (steps: seq<Step>)
    ensures Rested(Run(ROOM, 10, steps), [], 50, 1)
  {
    Then(ROOM, 10, [], Initial(10), StartRecorder(true));
    var s1 := Apply(Initial(10), ROOM, StartRecorder(true));
    var steps1: seq<Step> := [] + [StartRecorder(true)];
    Then(ROOM, 10, steps1, s1, PushUnit(Key(50, 1)));
    KeepsAlone(EMPTY, 50, 1);
    var s2 := Apply(s1, ROOM, PushUnit(Key(50, 1)));
    Then(ROOM, 10, steps1 + [PushUnit(Key(50, 1))], s2, ObserveUnit);
    steps := steps1 + [PushUnit(Key(50, 1))] + [ObserveUnit];
  }

  /** A trigger opens an event on that key frame. */
  lemma RestedOpens(s: Pipeline, ends: seq<nat>, ts: U64, generation: U64, at: U64)
    requires Rested(s, ends, ts, generation) && 0 < ts < at && at > 5 && ts <= at - 5
    requires ends != [] ==> at >= Until(ends[|ends| - 1], 10)
    ensures var s' := Apply(s, ROOM, TriggerEvent(at, 0, true));
      && s' == s.(rec := s'.rec) && s'.rec.active == Some(NewEvent([Key(ts, generation)], ROOM.roll, at, 0))
      && s'.rec.ended == s.rec.ended && s'.rec.gate == s.rec.gate.(collecting := true) && s'.rec.accepting
  {
    OpensOnKey(ts, generation, at);
  }

  /** A key frame of another generation ends it where it began. */
  lemma OpenEnds(s: Pipeline, e: Event, ends: seq<nat>, ts: U64, u: Unit)
    requires s.rec.active == Some(e) && e.units != [] && e.units[|e.units| - 1].sensorTs == ts
    requires u.generation != e.generation && s.rec.gate.cooldownNs == 10 && s.rec.accepting
    requires |s.rec.ended| == |ends| && forall i | 0 <= i < |ends| :: s.rec.ended[i].event.actualEnd == ends[i]
    ensures var r' := Observe(s.rec, u);
      && r'.active.None? && r'.accepting && !r'.gate.collecting && r'.gate.cooldownNs == 10
      && |r'.ended| == |ends| + 1 && (forall i | 0 <= i < |ends| :: r'.ended[i].event.actualEnd == ends[i])
      && r'.ended[|ends|].event.actualEnd == ts && r'.gate.cooldownUntil == Until(ts, 10)
  {
  }

  lemma RestsAgain(steps: seq<Step>, ends: seq<nat>, ts: U64, generation: U64, at: U64, ts': U64)
    returns (steps': seq<Step>)
    requires Rested(Run(ROOM, 10, steps), ends, ts, generation) && 0 < ts < at && at > 5 && ts <= at - 5
    requires ends != [] ==> at >= Until(ends[|ends| - 1], 10)
    requires ts' != 0 && 0 < generation < 100
    ensures Rested(Run(ROOM, 10, steps'), ends + [ts], ts', generation + 1)
  {
    var s, u := Run(ROOM, 10, steps), Key(ts', generation + 1);
    RestedOpens(s, ends, ts, generation, at);
    Then(ROOM, 10, steps, s, TriggerEvent(at, 0, true));
    var steps1, s1 := steps + [TriggerEvent(at, 0, true)], Apply(s, ROOM, TriggerEvent(at, 0, true));
    Then(ROOM, 10, steps1, s1, PushUnit(u));
    var steps2, s2 := steps1 + [PushUnit(u)], Apply(s1, ROOM, PushUnit(u));
    KeepsAlone(s.ring, ts', generation + 1);
    Then(ROOM, 10, steps2, s2, ObserveUnit);
    OpensOnKey(ts, generation, at);
    OpenEnds(s2, NewEvent([Key(ts, generation)], ROOM.roll, at, 0), ends, ts, u);
    steps' := steps2 + [ObserveUnit];
  }

  /** When triggers do not come in the order of their times, an event can open inside the cooldown after an
      event before the last: here the third, although the second waited for the first. */
  lemma CooldownCanBeForgotten() returns (steps: seq<Step>)
    ensures var r := Run(ROOM, 10, steps).rec;
      Total(r) == 3 && EventAt(r, 2).trigger < Until(r.ended[0].event.actualEnd, 10)
  {
    var steps1 := RestsFirst();
    var steps2 := RestsAgain(steps1, [], 50, 1, 60, 5);
    var steps3 := RestsAgain(steps2, [50], 5, 2, 70, 6);
    assert [] + [50] == [50] && [50] + [5] == [50, 5];
    var s := Run(ROOM, 10, steps3);
    RestedOpens(s, [50, 5], 6, 3, 20);
    OpensOnKey(6, 3, 20);
    Then(ROOM, 10, steps3, s, TriggerEvent(20, 0, true));
    steps := steps3 + [TriggerEvent(20, 0, true)];
    assert s.rec.ended[0].event.actualEnd == 50;
  }
}
