/** EventRecorder as the source has it: fields under one mutex, changed in place. Every method
    below is one critical section. */
module EventRecorders {
  import opened Basics
  import opened AccessUnits
  import opened RingSpec
  import opened RingBuffer
  import opened EventSpec

  class EventRecorder {
    const history: EncodedRingBuffer
    const roll: Settings
    var gate: Gate
    var active: Option<Event>
    var jobs: seq<Event>
    var running: bool
    var accepting: bool
    var latestTs: U64
    var count: Counters

    /** Every event that is over. */
    ghost var ended: seq<Ended>

    /** How many jobs the worker has taken and not yet counted. */
    ghost var writing: nat

    ghost function View(): Recorder
      reads this
    {
      Recorder(gate, active, jobs, running, accepting, latestTs, count, ended)
    }

    /** No event is lost or counted twice, and the gate collects while an event is open. */
    ghost predicate Valid()
      reads this
    {
      && count.triggered == count.completed + count.failed + |jobs| + writing + (if active.Some? then 1 else 0)
      && |jobs| <= QUEUE_CAPACITY && (gate.collecting <==> active.Some?)
      && (accepting ==> running) && (!running ==> active.None?)
    }

    constructor (ring: EncodedRingBuffer, settings: Settings, cooldownNs: U64)
      ensures Valid() && writing == 0
      ensures history == ring && roll == settings
      ensures View()
           == Recorder(Gate(cooldownNs, 0, false), None, [], false, false, 0, Counters(0, 0, 0, 0, 0, 0), [])
    {
      history, roll := ring, settings;
      gate, active, jobs := Gate(cooldownNs, 0, false), None, [];
      running, accepting, latestTs, count := false, false, 0, Counters(0, 0, 0, 0, 0, 0);
      writing, ended := 0, [];
    }

    /** start() of an enabled recorder: without a worker thread it accepts nothing. */
    method Start(threadCreated: bool) returns (started: bool)
      requires Valid()
      modifies this
      ensures Valid() && writing == old(writing)
      ensures started <==> old(running) || threadCreated
      ensures View() == if started then old(View()).(running := true, accepting := true) else old(View())
    {
      if running {
        accepting := true;
        return true;
      }
      running := true;
      accepting := true;
      if !threadCreated {
        running := false;
        accepting := false;
        return false;
      }
      started := true;
    }

    method FinishLocked(postComplete: bool)
      requires Valid()
      modifies this
      ensures Valid() && writing == old(writing)
      ensures View() == Finish(old(View()), postComplete)
      ensures old(active).Some? ==>
        var end := ended[|ended| - 1].event.actualEnd;
        gate.cooldownUntil == if end + old(gate.cooldownNs) <= U64_MAX then end + old(gate.cooldownNs) else U64_MAX
    {
      if active.None? {
        return;
      }
      FinishedCooldown(View(), postComplete);
      if !postComplete {
        count := count.(partialPostRoll := count.partialPostRoll + 1);
      }
      HandOver(SealedCopy(active.value, postComplete));
    }

    /** The end of the event: where it actually starts and ends. */
    static function SealedCopy(e: Event, postComplete: bool): (sealed: Event)
      ensures sealed == Sealed(e, postComplete)
      ensures sealed.postRollComplete == postComplete && sealed.units == e.units
    {
      if e.units != [] then
        e.(postRollComplete := postComplete, actualStart := e.units[0].sensorTs,
           actualEnd := e.units[|e.units| - 1].sensorTs)
      else e.(postRollComplete := postComplete, actualEnd := e.trigger)
    }

    /** The event goes to the worker, or is counted as failed when two jobs wait. */
    method HandOver(e: Event)
      requires Valid() && active.Some?
      modifies this
      ensures Valid() && writing == old(writing)
      ensures var full := |old(jobs)| >= 2;
        View() == old(View()).(
          gate := Complete(old(gate), e.actualEnd), active := None, ended := old(ended) + [Ended(e, !full)],
          jobs := if full then old(jobs) else old(jobs) + [e],
          count := if full then old(count).(failed := old(count).failed + 1) else old(count))
    {
      gate := Complete(gate, e.actualEnd);
      ended := ended + [Ended(e, |jobs| < QUEUE_CAPACITY)];
      active := None;
      if |jobs| >= QUEUE_CAPACITY {
        count := count.(failed := count.failed + 1);
        return;
      }
      jobs := jobs + [e];
    }

    method TriggerLocked(at: U64, sequence: nat) returns (begun: bool)
      requires Valid() && history.Valid()
      modifies this
      ensures Valid() && writing == old(writing)
      ensures View() == Trigger(old(View()), history.units, roll, at, sequence)
      ensures begun <==> old(accepting) && CanBegin(old(gate), at)
      ensures begun && active.Some? ==>
        && active.value.trigger == at
        && active.value.requestedStart == (if at > roll.preRollNs then at - roll.preRollNs else 0)
        && active.value.requestedEnd == (if at + roll.postRollNs <= U64_MAX then at + roll.postRollNs else U64_MAX)
    {
      ghost var before := View();
      if accepting && CanBegin(gate, at) { TriggeredWindow(before, history.units, roll, at, sequence); }
      latestTs := if latestTs < at then at else latestTs;
      if !accepting || gate.collecting || at < gate.cooldownUntil {
        count := count.(suppressed := count.suppressed + 1);
        return false;
      }
      var selection := history.SelectPreRoll(at, roll.preRollNs);
      OpenLocked(selection, at, sequence);
      return true;
    }

    /** Build the event from the selected pre-roll, and finish it at once if it is already over. */
    method OpenLocked(selection: Selection, at: U64, sequence: nat)
      requires Valid() && running && active.None?
      requires !selection.hasIndependentStart ==> selection.units == []
      modifies this
      ensures Valid() && writing == old(writing)
      ensures View() == Settle(Opened(old(View()), EventFrom(selection, roll, at, sequence)))
    {
      gate := gate.(collecting := true);
      var end := SaturatingAdd(at, roll.postRollNs);
      var units, reached := CopyWindow(selection.units, end);
      active := Some(Event(sequence, at, RequestedStart(at, roll.preRollNs), end, 0, 0,
                           selection.generation, selection.preRollComplete, reached, units));
      if !selection.preRollComplete {
        count := count.(partialPreRoll := count.partialPreRoll + 1);
      }
      count := count.(triggered := count.triggered + 1);
      SettleLocked(selection.hasIndependentStart);
    }

    /** The end of trigger: decide whether the new event is already over. */
    method SettleLocked(hasStart: bool)
      requires Valid() && active.Some? && (!hasStart ==> active.value.units == [])
      modifies this
      ensures Valid() && writing == old(writing)
      ensures View() == Settle(old(View()))
    {
      if !hasStart || active.value.units == [] {
        FinishLocked(false);
      } else if active.value.postRollComplete {
        FinishLocked(true);
      }
    }

    /** The copy of the selected units into the event. */
    static method CopyWindow(selected: seq<Unit>, end: U64) returns (units: seq<Unit>, reached: bool)
      ensures units == Window(selected, end) && reached == ReachesEnd(units, end)
    {
      units, reached := [], false;
      var index := 0;
      while index < |selected|
        invariant 0 <= index <= |selected| && units == selected[..index]
        invariant Cut(selected, end) == index + Cut(selected[index..], end)
        invariant !ReachesEnd(units, end)
      {
        assert selected[index..][1..] == selected[index + 1..];
        units := units + [selected[index]];
        if selected[index].sensorTs >= end {
          return units, true;
        }
        index := index + 1;
      }
    }

    method ObserveEncoded(unit: Unit)
      requires Valid()
      modifies this
      ensures Valid() && writing == old(writing)
      ensures View() == Observe(old(View()), unit)
    {
      latestTs := if latestTs < unit.sensorTs then unit.sensorTs else latestTs;
      if active.None? {
        return;
      }
      if unit.generation != active.value.generation {
        FinishLocked(false);
        return;
      }
      var units := active.value.units;
      if units != [] && unit.sensorTs <= units[|units| - 1].sensorTs {
        return;
      }
      active := Some(active.value.(units := units + [unit]));
      if unit.sensorTs >= active.value.requestedEnd {
        FinishLocked(true);
      }
    }

    /** The worker's wait: a queued job goes first even when the recorder is stopping. */
    method TakeJob() returns (job: Option<Event>, exit: bool)
      requires Valid()
      modifies `jobs, `writing
      ensures Valid() && writing == old(writing) + (if job.Some? then 1 else 0)
      ensures old(jobs) != [] ==> job == Some(old(jobs)[0]) && jobs == old(jobs)[1..] && !exit
      ensures old(jobs) == [] ==> job == None && jobs == [] && exit == !running
    {
      if jobs == [] {
        return None, !running;
      }
      job := Some(jobs[0]);
      jobs := jobs[1..];
      writing := writing + 1;
      exit := false;
    }

    method CountWritten(job: Event, io: Io)
      requires Valid() && writing > 0
      modifies `count, `writing
      ensures Valid() && writing == old(writing) - 1
      ensures CheckMux(job) == Muxable ==>
        (count.completed == old(count).completed + 1 <==> io.directory && io.metadata && io.rename && io.mux)
      ensures job.units == [] ==>
        (count.completed == old(count).completed + 1 <==> io.directory && io.metadata && io.rename && io.snapshot)
      ensures count == if Publishes(job, io) then old(count).(completed := old(count).completed + 1)
                       else old(count).(failed := old(count).failed + 1)
    {
      writing := writing - 1;
      if !io.directory {
        count := count.(failed := count.failed + 1);
        return;
      }
      var check := CheckMux(job);
      var videoOk := check == Muxable && io.mux;
      var fatalMuxFailure := !videoOk && check != Unavailable;
      if !io.metadata || fatalMuxFailure || (!io.snapshot && !videoOk) || !io.rename {
        count := count.(failed := count.failed + 1);
        return;
      }
      count := count.(completed := count.completed + 1);
    }

    method StopLocked()
      requires Valid()
      modifies this
      ensures Valid() && writing == old(writing) && active.None? && !accepting
      ensures View() == StopRequest(old(View()))
    {
      accepting := false;
      if active.Some? {
        FinishLocked(false);
      }
      running := false;
    }
  }

  // ----- From a new object to a written clip -----

  /** A ring that is empty keeps the one decodable unit it is given. */
  lemma KeepsFirst(lim: Limits, key: Unit)
    requires lim.Valid() && key.IndependentlyDecodable() && 0 < key.SizeBytes() <= lim.maxBytes
    requires key.generation != 0 && key.sensorTs != 0
    ensures Push(EMPTY, lim, Some(key)).units == [key]
  {
    assert Bytes([key]) == key.SizeBytes();
    assert Extended(EMPTY, key, false) == [key];
    assert PruneTime([key], lim.retentionNs) == [key] && DropHeavy([key], lim.maxBytes) == [key];
    assert DropUndecodable([key]) == [key];
  }

  lemma OpensWithFirst(key: Unit, roll: Settings, at: U64, sequence: nat)
    requires key.IndependentlyDecodable() && key.sensorTs <= at && key.sensorTs < SaturatingAdd(at, roll.postRollNs)
    ensures var e := NewEvent([key], roll, at, sequence);
      e.units == [key] && !e.postRollComplete && e.generation == key.generation
  {
    NewestStartIs([key], RequestedStart(at, roll.preRollNs));
    assert FirstStart([key], at) == 0;
    assert [key][0..] == [key];
  }

  /** A new recorder on a new ring: a decodable unit is delivered and a trigger opens an event on it. */
  method OpenClip(lim: Limits, roll: Settings, key: Unit, at: U64) returns (recorder: EventRecorder)
    requires lim.Valid() && key.IndependentlyDecodable() && 0 < key.SizeBytes() <= lim.maxBytes
    requires key.generation != 0 && key.sensorTs != 0 && key.sensorTs <= at
    requires key.sensorTs < SaturatingAdd(at, roll.postRollNs)
    ensures fresh(recorder) && recorder.Valid() && recorder.writing == 0
    ensures recorder.active == Some(NewEvent([key], roll, at, 0)) && recorder.jobs == []
    ensures recorder.count.completed == 0
  {
    var ring := new EncodedRingBuffer(lim);
    recorder := new EventRecorder(ring, roll, 0);
    var started := recorder.Start(true);
    var result := ring.Push(Some(key));
    KeepsFirst(lim, key);
    recorder.ObserveEncoded(key);
    var begun := recorder.TriggerLocked(at, 0);
    OpensWithFirst(key, roll, at, 0);
  }

  /** From new objects to a clip: a unit past the window ends the event, and the worker takes the clip and
      counts it. */
  method RecordClip(lim: Limits, roll: Settings, key: Unit, next: Unit, at: U64, io: Io)
    returns (clip: Event, completed: bool)
    requires lim.Valid() && key.IndependentlyDecodable() && 0 < key.SizeBytes() <= lim.maxBytes
    requires key.generation != 0 && key.sensorTs != 0 && key.sensorTs <= at
    requires next.generation == key.generation && next.SizeBytes() > 0
    requires key.sensorTs < SaturatingAdd(at, roll.postRollNs) <= next.sensorTs
    ensures clip.units == [key, next] && clip.postRollComplete && CheckMux(clip) == Muxable
    ensures completed == Publishes(clip, io)
  {
    var recorder := OpenClip(lim, roll, key, at);
    OpensWithFirst(key, roll, at, 0);
    recorder.ObserveEncoded(next);
    var job, exit := recorder.TakeJob();
    clip := job.value;
    recorder.CountWritten(clip, io);
    completed := recorder.count.completed == 1;
  }
}
