/** The event gate and the event recorder's critical sections as functions
    (src/event_recorder.cpp). Times are sensor timestamps in nanoseconds. */
module EventSpec {
  import opened Basics
  import opened AccessUnits
  import opened RingSpec

  /** kWorkerQueueCapacity */
  const QUEUE_CAPACITY: nat := 2

  datatype Gate = Gate(cooldownNs: U64, cooldownUntil: U64, collecting: bool)

  predicate CanBegin(g: Gate, trigger: U64) {
    !g.collecting && trigger >= g.cooldownUntil
  }

  function Begin(g: Gate): Gate { g.(collecting := true) }

  function Complete(g: Gate, actualEnd: U64): Gate {
    g.(collecting := false, cooldownUntil := SaturatingAdd(actualEnd, g.cooldownNs))
  }

  datatype Settings = Settings(preRollNs: U64, postRollNs: U64)

  datatype Event = Event(
    sequence: nat,
    trigger: U64,
    requestedStart: nat,
    requestedEnd: U64,
    actualStart: U64,
    actualEnd: U64,
    generation: nat,
    preRollComplete: bool,
    postRollComplete: bool,
    units: seq<Unit>)

  datatype Counters = Counters(
    triggered: nat, completed: nat, failed: nat, suppressed: nat, partialPreRoll: nat, partialPostRoll: nat)

  /** An event that is over, and whether the worker's queue had room for it. */
  datatype Ended = Ended(event: Event, queued: bool)

  /** `ended` is a record of every event that is over, in order. */
  datatype Recorder = Recorder(
    gate: Gate,
    active: Option<Event>,
    jobs: seq<Event>,
    running: bool,
    accepting: bool,
    latestTs: U64,
    count: Counters,
    ended: seq<Ended>)

  /** How many selected units a clip takes: up to and including the first one at or after `end`. */
  function Cut(s: seq<Unit>, end: int): (n: nat)
    ensures n <= |s|
  {
    if s == [] then 0 else if s[0].sensorTs >= end then 1 else 1 + Cut(s[1..], end)
  }

  function Window(s: seq<Unit>, end: int): seq<Unit> { s[..Cut(s, end)] }

  lemma {:induction false} WindowCuts(s: seq<Unit>, end: int)
    ensures s != [] ==> Window(s, end) != []
    ensures forall i :: 0 <= i < |Window(s, end)| - 1 ==> s[i].sensorTs < end
    ensures Window(s, end) == s || ReachesEnd(Window(s, end), end)
    decreases |s|
  {
    if s != [] && s[0].sensorTs < end {
      WindowCuts(s[1..], end);
      assert forall i :: 1 <= i < |s| ==> s[i] == s[1..][i - 1];
      assert s[1..][..Cut(s[1..], end)] == s[1..Cut(s, end)];
    }
  }

  predicate ReachesEnd(s: seq<Unit>, end: int) {
    s != [] && s[|s| - 1].sensorTs >= end
  }

  function Later(a: U64, b: U64): U64 { if a < b then b else a }

  /** The event a trigger opens over the pre-roll selection it was given. */
  function EventFrom(selection: Selection, roll: Settings, trigger: U64, sequence: nat): Event {
    var end := SaturatingAdd(trigger, roll.postRollNs);
    var units := Window(selection.units, end);
    Event(sequence, trigger, RequestedStart(trigger, roll.preRollNs), end, 0, 0,
          selection.generation, selection.preRollComplete, ReachesEnd(units, end), units)
  }

  function NewEvent(ring: seq<Unit>, roll: Settings, trigger: U64, sequence: nat): Event {
    EventFrom(Select(ring, trigger, roll.preRollNs), roll, trigger, sequence)
  }

  function Sealed(e: Event, postComplete: bool): Event {
    if e.units == [] then e.(postRollComplete := postComplete, actualEnd := e.trigger)
    else e.(postRollComplete := postComplete, actualStart := e.units[0].sensorTs,
            actualEnd := e.units[|e.units| - 1].sensorTs)
  }

  /** finishLocked: seal the active event and hand it to the worker, or fail it when the worker
      already has its fill. */
  function Finish(r: Recorder, postComplete: bool): Recorder {
    if r.active.None? then r
    else
      var e := Sealed(r.active.value, postComplete);
      var c := if postComplete then r.count else r.count.(partialPostRoll := r.count.partialPostRoll + 1);
      var full := |r.jobs| >= QUEUE_CAPACITY;
      var r1 := r.(active := None, gate := Complete(r.gate, e.actualEnd), ended := r.ended + [Ended(e, !full)]);
      if full then r1.(count := c.(failed := c.failed + 1))
      else r1.(count := c, jobs := r.jobs + [e])
  }

  function Opened(r: Recorder, e: Event): Recorder {
    var c := r.count.(triggered := r.count.triggered + 1);
    r.(gate := Begin(r.gate), active := Some(e),
       count := if e.preRollComplete then c else c.(partialPreRoll := c.partialPreRoll + 1))
  }

  /** The locked part of trigger, for a frame with detections and storage available. */
  function Trigger(r: Recorder, ring: seq<Unit>, roll: Settings, trigger: U64, sequence: nat): Recorder {
    var r1 := r.(latestTs := Later(r.latestTs, trigger));
    if !r.accepting || !CanBegin(r.gate, trigger) then
      r1.(count := r.count.(suppressed := r.count.suppressed + 1))
    else
      Settle(Opened(r1, NewEvent(ring, roll, trigger, sequence)))
  }

  /** A new event without units, or one whose window has already passed, is finished at once. */
  function Settle(r: Recorder): Recorder {
    if r.active.None? then r
    else if r.active.value.units == [] then Finish(r, false)
    else if r.active.value.postRollComplete then Finish(r, true)
    else r
  }

  function Observe(r: Recorder, u: Unit): Recorder {
    var r1 := r.(latestTs := Later(r.latestTs, u.sensorTs));
    if r.active.None? then r1
    else
      var e := r.active.value;
      if u.generation != e.generation then Finish(r1, false)
      else if e.units != [] && u.sensorTs <= e.units[|e.units| - 1].sensorTs then r1
      else
        var r2 := r1.(active := Some(e.(units := e.units + [u])));
        if u.sensorTs >= e.requestedEnd then Finish(r2, true) else r2
  }

  function StopRequest(r: Recorder): Recorder {
    Finish(r.(accepting := false), false).(running := false)
  }

  /** The event a trigger leaves open asks for the pre-roll before it and the post-roll after it. */
  lemma TriggeredWindow(r: Recorder, ring: seq<Unit>, roll: Settings, at: U64, sequence: nat)
    requires r.active.None? && r.accepting && CanBegin(r.gate, at)
    ensures var open := Trigger(r, ring, roll, at, sequence).active;
      open.Some? ==>
        && open.value.trigger == at
        && open.value.requestedStart == (if at > roll.preRollNs then at - roll.preRollNs else 0)
        && open.value.requestedEnd == (if at + roll.postRollNs <= U64_MAX then at + roll.postRollNs else U64_MAX)
  {
  }

  /** An event that ends starts the cooldown where it ended. */
  lemma FinishedCooldown(r: Recorder, post: bool)
    requires r.active.Some?
    ensures var r' := Finish(r, post); var end := r'.ended[|r'.ended| - 1].event.actualEnd;
      r'.gate.cooldownUntil == if end + r.gate.cooldownNs <= U64_MAX then end + r.gate.cooldownNs else U64_MAX
  {
  }

  // ----- The worker's one counter per event -----

  datatype MuxCheck = Unavailable | NoIndependentStart | MixedGenerations | Muxable

  /** The rejections at the top of muxVideo. */
  function CheckMux(e: Event): MuxCheck {
    if e.units == [] then Unavailable
    else if !e.units[0].IndependentlyDecodable() then NoIndependentStart
    else if exists i :: 0 <= i < |e.units| && (e.units[i].SizeBytes() == 0 || e.units[i].generation != e.generation)
      then MixedGenerations
    else Muxable
  }

  /** Outcomes of the file system, the JPEG writer and the muxer. */
  datatype Io = Io(directory: bool, snapshot: bool, mux: bool, metadata: bool, rename: bool)

  /** Does writeEvent publish this event? It counts it as completed if so, as failed if not. */
  predicate Publishes(e: Event, io: Io) {
    var check := CheckMux(e);
    var video := check == Muxable && io.mux;
    var fatalMux := !video && check != Unavailable;
    io.directory && io.metadata && !fatalMux && (io.snapshot || video) && io.rename
  }
}
