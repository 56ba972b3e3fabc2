/** The bounded ring refines the unbounded history it stands for: over every run of pushes and
    clears the ring is a suffix of a reference log that never forgets, and its selections are
    the log's selections whenever they report a complete pre-roll. */
module RingHistory {
  import opened Basics
  import opened AccessUnits
  import opened RingSpec

  datatype Op = PushOp(unit: Option<Unit>) | ClearOp

  /** The ring, the log of every unit accepted since the stream last broke, and whether the
      byte limit has evicted anything from the ring since then. */
  datatype History = History(ring: Ring, log: seq<Unit>, evicted: bool)

  const START := History(EMPTY, [], false)

  /** The stream breaks on a new generation or on time moving backwards. */
  predicate Breaks(log: seq<Unit>, u: Unit) {
    log != [] && (log[|log| - 1].generation != u.generation || u.sensorTs < log[|log| - 1].sensorTs)
  }

  function LogPush(log: seq<Unit>, u: Unit): seq<Unit> {
    if Breaks(log, u) then [u] else log + [u]
  }

  /** Did the byte limit drop anything in this accepted push? */
  predicate EvictsBytes(r: Ring, lim: Limits, u: Unit) {
    Bytes(PruneTime(Extended(r, u, Resets(Classify(r, lim, Some(u)))), lim.retentionNs)) > lim.maxBytes
  }

  function Apply(h: History, lim: Limits, op: Op): History {
    match op
    case ClearOp => History(Clear(h.ring), [], false)
    case PushOp(unit) =>
      if Rejects(Classify(h.ring, lim, unit)) then h
      else
        History(Push(h.ring, lim, unit), LogPush(h.log, unit.value),
                (h.evicted && !Breaks(h.log, unit.value)) || EvictsBytes(h.ring, lim, unit.value))
  }

  function Run(lim: Limits, ops: seq<Op>): History {
    if ops == [] then START else Apply(Run(lim, ops[..|ops| - 1]), lim, ops[|ops| - 1])
  }

  /** What time pruning may have dropped: nothing decodable, or only units older than a kept
      decodable front that is itself at or before the cutoff. */
  ghost predicate OnlyStaleDropped(ring: seq<Unit>, log: seq<Unit>, retentionNs: nat) {
    && IsSuffix(ring, log)
    && forall i :: 0 <= i < |log| - |ring| && log[i].IndependentlyDecodable() ==>
         ring != [] && ring[0].IndependentlyDecodable()
         && ring[0].sensorTs + retentionNs <= ring[|ring| - 1].sensorTs
  }

  ghost predicate HistoryInv(h: History, lim: Limits) {
    && RingInv(h.ring, lim)
    && IsSuffix(h.ring.units, h.log)
    && Ordered(h.log)
    && (h.log != [] ==> OfGeneration(h.log, h.log[|h.log| - 1].generation))
    && (!h.evicted ==> OnlyStaleDropped(h.ring.units, h.log, lim.retentionNs))
  }

  // ----- One accepted push -----

  lemma LogPushInv(log: seq<Unit>, u: Unit)
    requires Ordered(log) && (log != [] ==> OfGeneration(log, log[|log| - 1].generation))
    ensures LogPush(log, u) != [] && Ordered(LogPush(log, u)) && OfGeneration(LogPush(log, u), u.generation)
  {
  }

  /** The ring starts afresh whenever the log does, and then only. */
  lemma ExtendedIsSuffix(h: History, lim: Limits, u: Unit)
    requires HistoryInv(h, lim) && !Rejects(Classify(h.ring, lim, Some(u)))
    ensures IsSuffix(Extended(h.ring, u, Resets(Classify(h.ring, lim, Some(u)))), LogPush(h.log, u))
    ensures Breaks(h.log, u) ==> Extended(h.ring, u, Resets(Classify(h.ring, lim, Some(u)))) == [u]
  {
    var d := |h.log| - |h.ring.units|;
    if h.ring.units != [] {
      assert h.ring.units[|h.ring.units| - 1] == h.log[|h.log| - 1];
    }
    assert h.ring.units + [u] == (h.log + [u])[d..];
  }

  /** Time pruning drops only what the cutoff allows. */
  lemma PruneTimeDropsStale(s: seq<Unit>, log: seq<Unit>, retentionNs: nat)
    requires s != [] && IsSuffix(s, log) && Ordered(log)
    requires OnlyStaleDropped(s, log, retentionNs)
    ensures OnlyStaleDropped(PruneTime(s, retentionNs), log, retentionNs)
  {
    var t := PruneTime(s, retentionNs);
    if |s| >= 2 && s[|s| - 1].sensorTs > retentionNs {
      var k := NewestStart(s, s[|s| - 1].sensorTs - retentionNs);
      NewestStartIs(s, s[|s| - 1].sensorTs - retentionNs);
      assert k < |s| ==> t == s[k..] && t[0] == s[k] && t[|t| - 1] == s[|s| - 1];
    }
  }

  lemma {:induction false} DropUndecodableDropsStale(s: seq<Unit>, log: seq<Unit>, retentionNs: nat)
    requires OnlyStaleDropped(s, log, retentionNs)
    ensures OnlyStaleDropped(DropUndecodable(s), log, retentionNs)
    decreases |s|
  {
    if s != [] && !s[0].IndependentlyDecodable() {
      assert s[1..] == log[|log| - |s| + 1..];
      DropUndecodableDropsStale(s[1..], log, retentionNs);
    }
  }

  /** Appending a unit only moves the cutoff forwards. */
  lemma AppendKeepsStale(ring: seq<Unit>, log: seq<Unit>, u: Unit, retentionNs: nat)
    requires OnlyStaleDropped(ring, log, retentionNs) && Ordered(log + [u])
    ensures OnlyStaleDropped(ring + [u], log + [u], retentionNs)
  {
    var d := |log| - |ring|;
    assert ring + [u] == (log + [u])[d..];
    if ring != [] {
      assert ring[|ring| - 1] == log[|log| - 1] == (log + [u])[|log| - 1];
      assert (log + [u])[|log|] == u;
    }
  }

  lemma ExtendedOnlyStale(h: History, lim: Limits, u: Unit)
    requires HistoryInv(h, lim) && !Rejects(Classify(h.ring, lim, Some(u)))
    requires !h.evicted || Breaks(h.log, u)
    ensures OnlyStaleDropped(Extended(h.ring, u, Resets(Classify(h.ring, lim, Some(u)))),
                             LogPush(h.log, u), lim.retentionNs)
  {
    ExtendedIsSuffix(h, lim, u);
    LogPushInv(h.log, u);
    if !Breaks(h.log, u) {
      if h.ring.units != [] {
        assert h.ring.units[|h.ring.units| - 1] == h.log[|h.log| - 1];
        assert h.ring.generation == h.ring.units[0].generation;
      }
      AppendKeepsStale(h.ring.units, h.log, u, lim.retentionNs);
    }
  }

  lemma PruneDropsStale(s: seq<Unit>, log: seq<Unit>, lim: Limits)
    requires s != [] && Ordered(log) && OnlyStaleDropped(s, log, lim.retentionNs)
    requires Bytes(PruneTime(s, lim.retentionNs)) <= lim.maxBytes
    ensures OnlyStaleDropped(Prune(s, lim), log, lim.retentionNs)
  {
    PruneTimeDropsStale(s, log, lim.retentionNs);
    DropUndecodableDropsStale(PruneTime(s, lim.retentionNs), log, lim.retentionNs);
  }

  lemma PushOnlyStale(h: History, lim: Limits, u: Unit)
    requires HistoryInv(h, lim) && !Rejects(Classify(h.ring, lim, Some(u)))
    requires !h.evicted || Breaks(h.log, u)
    requires !EvictsBytes(h.ring, lim, u)
    ensures OnlyStaleDropped(Push(h.ring, lim, Some(u)).units, LogPush(h.log, u), lim.retentionNs)
  {
    ExtendedOnlyStale(h, lim, u);
    LogPushInv(h.log, u);
    PruneDropsStale(Extended(h.ring, u, Resets(Classify(h.ring, lim, Some(u)))), LogPush(h.log, u), lim);
  }

  lemma PushIsSuffix(h: History, lim: Limits, u: Unit)
    requires HistoryInv(h, lim) && !Rejects(Classify(h.ring, lim, Some(u)))
    ensures IsSuffix(Push(h.ring, lim, Some(u)).units, LogPush(h.log, u))
  {
    var s := Extended(h.ring, u, Resets(Classify(h.ring, lim, Some(u))));
    ExtendedIsSuffix(h, lim, u);
    PruneIsSuffix(s, lim);
    SuffixTransitive(Prune(s, lim), s, LogPush(h.log, u));
  }

  lemma ApplyKeepsInv(h: History, lim: Limits, op: Op)
    requires lim.Valid() && HistoryInv(h, lim)
    ensures HistoryInv(Apply(h, lim, op), lim)
  {
    if op.PushOp? && !Rejects(Classify(h.ring, lim, op.unit)) {
      var u := op.unit.value;
      var r' := PushKeepsInvariant(h.ring, lim, op.unit);
      LogPushInv(h.log, u);
      PushIsSuffix(h, lim, u);
      if !Apply(h, lim, op).evicted {
        PushOnlyStale(h, lim, u);
      }
    }
  }

  // ----- Every run -----

  /** Over every run of pushes and clears the ring invariant holds and the ring is a suffix of
      the reference log, so a non-empty ring ends with the last unit it accepted. */
  lemma {:induction false} EveryRunKeepsInv(lim: Limits, ops: seq<Op>)
    requires lim.Valid()
    ensures HistoryInv(Run(lim, ops), lim)
  {
    if ops != [] {
      EveryRunKeepsInv(lim, ops[..|ops| - 1]);
      ApplyKeepsInv(Run(lim, ops[..|ops| - 1]), lim, ops[|ops| - 1]);
    }
  }

  /** Two answers that choose the same clip. The generation of an answer without a clip is the
      only thing left open: an empty ring reports 0 while the log may hold undecodable units. */
  ghost predicate SameClip(a: Selection, b: Selection) {
    && a.(generation := 0) == b.(generation := 0)
    && (a.hasIndependentStart ==> a == b)
  }

  lemma NewestStartInSuffix(ring: seq<Unit>, log: seq<Unit>, bound: int)
    requires IsSuffix(ring, log) && NewestStart(ring, bound) < |ring|
    ensures NewestStart(log, bound) == |log| - |ring| + NewestStart(ring, bound)
  {
    var d := |log| - |ring|;
    assert forall j :: d <= j < |log| ==> log[j] == ring[j - d];
    NewestStartIs(ring, bound);
    NewestStartUnique(log, bound, d + NewestStart(ring, bound));
  }

  /** A complete pre-roll taken from the ring is the one the unbounded history would give,
      whatever the byte limit has evicted. */
  lemma CompleteSelectionIsExact(lim: Limits, ops: seq<Op>, trigger: nat, preRoll: nat)
    requires lim.Valid()
    ensures var h := Run(lim, ops);
      Select(h.ring.units, trigger, preRoll).preRollComplete ==>
        Select(h.ring.units, trigger, preRoll) == Select(h.log, trigger, preRoll)
  {
    var h := Run(lim, ops);
    EveryRunKeepsInv(lim, ops);
    if h.log != [] {
      assert h.log[0].generation == h.log[|h.log| - 1].generation;
      CompleteInSuffix(h.ring.units, h.log, trigger, preRoll);
    }
  }

  lemma CompleteInSuffix(ring: seq<Unit>, log: seq<Unit>, trigger: nat, preRoll: nat)
    requires IsSuffix(ring, log) && log != []
    requires ring != [] ==> ring[0].generation == log[0].generation
    ensures Select(ring, trigger, preRoll).preRollComplete ==>
              Select(ring, trigger, preRoll) == Select(log, trigger, preRoll)
  {
    StartIndexIs(ring, trigger, preRoll);
    var requested := RequestedStart(trigger, preRoll);
    var n := NewestStart(ring, requested);
    if Select(ring, trigger, preRoll).preRollComplete {
      NewestStartInSuffix(ring, log, requested);
      assert ring[n..] == log[|log| - |ring| + n..];
    }
  }

  lemma {:induction false} FirstStartInSuffix(ring: seq<Unit>, log: seq<Unit>, bound: int)
    requires IsSuffix(ring, log)
    requires forall i :: 0 <= i < |log| - |ring| ==> !log[i].IndependentlyDecodable()
    ensures FirstStart(log, bound) == |log| - |ring| + FirstStart(ring, bound)
  {
    var d := |log| - |ring|;
    assert forall j :: d <= j < |log| ==> log[j] == ring[j - d];
    FirstStartIs(ring, bound);
    FirstStartUnique(log, bound, d + FirstStart(ring, bound));
  }

  /** Without byte evictions the ring and the unbounded history choose the same clip for every
      trigger whose requested start has not fallen behind the retention window. */
  lemma RetainedSelectionAgrees(lim: Limits, ops: seq<Op>, trigger: nat, preRoll: nat)
    requires lim.Valid() && !Run(lim, ops).evicted
    requires RequestedStart(trigger, preRoll) + lim.retentionNs >= Run(lim, ops).ring.latestTs
    ensures SameClip(Select(Run(lim, ops).ring.units, trigger, preRoll),
                     Select(Run(lim, ops).log, trigger, preRoll))
  {
    var h := Run(lim, ops);
    EveryRunKeepsInv(lim, ops);
    SelectionAgrees(h.ring.units, h.log, lim.retentionNs, trigger, preRoll);
  }

  lemma SelectionAgrees(ring: seq<Unit>, log: seq<Unit>, retentionNs: nat, trigger: nat, preRoll: nat)
    requires OnlyStaleDropped(ring, log, retentionNs)
    requires log != [] ==> OfGeneration(log, log[|log| - 1].generation)
    requires ring != [] ==> RequestedStart(trigger, preRoll) + retentionNs >= ring[|ring| - 1].sensorTs
    ensures SameClip(Select(ring, trigger, preRoll), Select(log, trigger, preRoll))
  {
    var requested := RequestedStart(trigger, preRoll);
    if log != [] && ring != [] {
      assert ring[0] == log[|log| - |ring|];
    }
    if NewestStart(ring, requested) < |ring| {
      NewestStartInSuffix(ring, log, requested);
      assert ring[NewestStart(ring, requested)..] == log[NewestStart(log, requested)..];
    } else {
      NewestStartIs(ring, requested);
      NothingDropped(ring, log, retentionNs, requested);
      NoNewestStart(ring, log, requested);
      FirstStartInSuffix(ring, log, trigger);
      assert ring[FirstStart(ring, trigger)..] == log[FirstStart(log, trigger)..];
    }
  }

  lemma NothingDropped(ring: seq<Unit>, log: seq<Unit>, retentionNs: nat, requested: nat)
    requires OnlyStaleDropped(ring, log, retentionNs) && IsNewestStart(ring, requested, |ring|)
    requires ring != [] ==> requested + retentionNs >= ring[|ring| - 1].sensorTs
    ensures forall i :: 0 <= i < |log| - |ring| ==> !log[i].IndependentlyDecodable()
  {
  }

  lemma NoNewestStart(ring: seq<Unit>, log: seq<Unit>, bound: nat)
    requires IsSuffix(ring, log) && IsNewestStart(ring, bound, |ring|)
    requires forall i :: 0 <= i < |log| - |ring| ==> !log[i].IndependentlyDecodable()
    ensures NewestStart(log, bound) == |log|
  {
    var d := |log| - |ring|;
    assert forall j :: d <= j < |log| ==> log[j] == ring[j - d];
    assert IsNewestStart(log, bound, |log|);
    NewestStartUnique(log, bound, |log|);
  }

  /** Hence, without byte evictions and inside the retention window, the ring reports a complete
      pre-roll exactly when the stream has produced a decodable unit at or before its start. */
  lemma PreRollCompleteIff(lim: Limits, ops: seq<Op>, trigger: nat, preRoll: nat)
    requires lim.Valid() && !Run(lim, ops).evicted
    requires RequestedStart(trigger, preRoll) + lim.retentionNs >= Run(lim, ops).ring.latestTs
    ensures Select(Run(lim, ops).ring.units, trigger, preRoll).preRollComplete <==>
            exists i :: 0 <= i < |Run(lim, ops).log| && Run(lim, ops).log[i].IndependentlyDecodable()
              && Run(lim, ops).log[i].sensorTs <= RequestedStart(trigger, preRoll)
  {
    RetainedSelectionAgrees(lim, ops, trigger, preRoll);
    NewestStartIs(Run(lim, ops).log, RequestedStart(trigger, preRoll));
    StartIndexIs(Run(lim, ops).log, trigger, preRoll);
  }

  // ----- What the ring holds, and what it was given -----

  /** Over every run the ring holds usable units only, and old ones do go: at most the front is at or before
      the retention cutoff. */
  lemma {:induction false} StaleUnitsGo(lim: Limits, ops: seq<Op>)
    requires lim.Valid()
    ensures var ring := Run(lim, ops).ring;
      && AllUsable(ring.units, lim)
      && forall i | 0 < i < |ring.units| && ring.units[i].IndependentlyDecodable() ::
           ring.units[i].sensorTs + lim.retentionNs > ring.latestTs
  {
    EveryRunStaysRecent(lim, ops);
    EveryRunKeepsInv(lim, ops);
  }

  lemma {:induction false} EveryRunStaysRecent(lim: Limits, ops: seq<Op>)
    requires lim.Valid()
    ensures AllUsable(Run(lim, ops).ring.units, lim) && Recent(Run(lim, ops).ring.units, lim.retentionNs)
  {
    if ops != [] {
      var before, op := ops[..|ops| - 1], ops[|ops| - 1];
      EveryRunStaysRecent(lim, before);
      EveryRunKeepsInv(lim, before);
      if op.PushOp? {
        PushKeepsRecent(Run(lim, before).ring, lim, op.unit);
      }
    }
  }

  /** The log by the operations alone: every usable unit since the last clear and the last break. */
  function Reference(lim: Limits, ops: seq<Op>): seq<Unit> {
    if ops == [] then [] else
    var before := Reference(lim, ops[..|ops| - 1]);
    match ops[|ops| - 1]
    case ClearOp => []
    case PushOp(unit) => if unit.Some? && Usable(unit.value, lim) then LogPush(before, unit.value) else before
  }

  /** What the ring rejects does not depend on what it holds, so the log is the reference. */
  lemma {:induction false} LogIsReference(lim: Limits, ops: seq<Op>)
    requires lim.Valid()
    ensures Run(lim, ops).log == Reference(lim, ops)
  {
    if ops != [] {
      var before, op := ops[..|ops| - 1], ops[|ops| - 1];
      LogIsReference(lim, before);
      EveryRunKeepsInv(lim, before);
      if op.PushOp? {
        ResultMeans(Run(lim, before).ring, lim, op.unit);
      }
    }
  }
}
