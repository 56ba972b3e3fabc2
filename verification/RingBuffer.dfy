/** EncodedRingBuffer as the source has it: a deque and its counters, changed in place by loops
    that discard from the front. Each method holds the ring's mutex for its whole body, so a
    method call is one atomic step. */
module RingBuffer {
  import opened Basics
  import opened AccessUnits
  import opened RingSpec

  class EncodedRingBuffer {
    const limits: Limits
    var units: seq<Unit>
    var bytes: nat
    var peakBytes: nat
    var resets: nat
    var generation: nat
    var latestTs: nat

    ghost function View(): Ring
      reads this
    {
      Ring(units, bytes, peakBytes, resets, generation, latestTs)
    }

    /** The ring invariant. */
    ghost predicate Sound()
      reads this
    {
      limits.Valid() && RingInv(View(), limits)
    }

    /** The ring invariant, with nothing unusable and, but for the front, nothing too old. */
    ghost predicate Valid()
      reads this
    {
      Sound() && AllUsable(units, limits) && Recent(units, limits.retentionNs)
    }

    constructor (lim: Limits)
      requires lim.Valid()
      ensures Valid() && limits == lim && View() == EMPTY
    {
      limits := lim;
      units, bytes, peakBytes, resets, generation, latestTs := [], 0, 0, 0, 0, 0;
    }

    /** The source's constructor, which throws when a limit is zero. */
    static method Make(lim: Limits) returns (ring: EncodedRingBuffer?)
      ensures ring == null <==> lim.retentionNs == 0 || lim.maxBytes == 0
      ensures ring != null ==> fresh(ring) && ring.Valid() && ring.limits == lim && ring.View() == EMPTY
    {
      if lim.retentionNs == 0 || lim.maxBytes == 0 {
        return null;
      }
      ring := new EncodedRingBuffer(lim);
    }

    method Push(unit: Option<Unit>) returns (result: PushResult)
      requires Valid()
      modifies this
      ensures Valid() && result == Classify(old(View()), limits, unit)
      ensures View() == RingSpec.Push(old(View()), limits, unit)
      ensures resets == old(resets) + (if Resets(result) then 1 else 0)
      ensures peakBytes == if old(peakBytes) < bytes then bytes else old(peakBytes)
    {
      PushKeepsRecent(View(), limits, unit);
      PushedStats(View(), limits, unit);
      result := Store(unit);
    }

    method Store(unit: Option<Unit>) returns (result: PushResult)
      requires Sound()
      modifies this
      ensures Sound() && result == Classify(old(View()), limits, unit)
      ensures View() == RingSpec.Push(old(View()), limits, unit)
    {
      ghost var after := PushKeepsInvariant(View(), limits, unit);
      if unit.None? || unit.value.payload.None? || |unit.value.payload.value| == 0
         || unit.value.generation == 0 || unit.value.sensorTs == 0
      {
        return RejectedInvalid;
      }
      if unit.value.SizeBytes() > limits.maxBytes {
        return RejectedOversize;
      }
      result := Accepted;
      if units != [] && unit.value.generation != generation {
        Reset();
        result := ResetForGeneration;
      } else if units != [] && unit.value.sensorTs < latestTs {
        Reset();
        result := ResetForTimestampRegression;
      }
      assert units + [unit.value] == Extended(old(View()), unit.value, Resets(result));
      Append(unit.value);
    }

    /** The last part of push: the unit is stored and the limits are enforced. */
    method Append(u: Unit)
      requires Sound()
      requires units != [] ==> u.generation == generation && u.sensorTs >= latestTs
      modifies this
      ensures View() == Holding(old(View()), Prune(old(units) + [u], limits), u, false)
    {
      BytesAppend(units, u);
      generation := u.generation;
      latestTs := u.sensorTs;
      bytes := bytes + u.SizeBytes();
      units := units + [u];
      PruneByTime();
      PruneByBytes();
      peakBytes := if peakBytes < bytes then bytes else peakBytes;
    }

    method SelectPreRoll(trigger: nat, preRoll: nat) returns (selection: Selection)
      requires Valid()
      ensures selection == Select(units, trigger, preRoll) && IsSelection(units, trigger, preRoll, selection)
    {
      SelectMeans(units, trigger, preRoll, generation);
      var requested := if trigger > preRoll then trigger - preRoll else 0;
      if units == [] {
        return Selection(0, requested, 0, false, false, []);
      }
      var start := ScanNewest(requested);
      if start == |units| {
        start := ScanFirst(trigger);
      }
      if start == |units| {
        return Selection(generation, requested, 0, false, false, []);
      }
      selection := Selection(generation, requested, units[start].sensorTs,
                             units[start].sensorTs <= requested, true, units[start..]);
    }

    /** The scan for the newest decodable unit, which stops at the first unit beyond the bound. */
    method ScanNewest(bound: int) returns (start: nat)
      requires Ordered(units)
      ensures start == NewestStart(units, bound)
    {
      start := |units|;
      var index := 0;
      while index < |units| && units[index].sensorTs <= bound
        invariant 0 <= index <= |units|
        invariant start == if NewestStart(units[..index], bound) < index
                           then NewestStart(units[..index], bound) else |units|
      {
        assert units[..index + 1][..index] == units[..index];
        if units[index].IndependentlyDecodable() {
          start := index;
        }
        index := index + 1;
      }
      NewestStartOfRun(units, bound, index);
    }

    method ScanFirst(bound: int) returns (start: nat)
      requires Ordered(units)
      ensures start == FirstStart(units, bound)
    {
      var index := 0;
      while index < |units| && units[index].sensorTs <= bound
        invariant 0 <= index <= |units|
        invariant forall j :: 0 <= j < index ==> !units[j].IndependentlyDecodable()
      {
        if units[index].IndependentlyDecodable() {
          FirstStartAt(units, bound, index);
          return index;
        }
        index := index + 1;
      }
      start := |units|;
      NoFirstStart(units, bound, index);
    }

    method Clear()
      requires Valid()
      modifies this
      ensures Valid() && View() == RingSpec.Clear(old(View()))
      ensures units == [] && bytes == 0 && peakBytes == old(peakBytes) && resets == old(resets) + 1
    {
      Reset();
    }

    method Reset()
      modifies this
      ensures View() == RingSpec.Clear(old(View()))
    {
      units := [];
      bytes := 0;
      generation := 0;
      latestTs := 0;
      resets := resets + 1;
    }

    /** Called with a just-appended unit; the contract shows that the loop for a missing keyframe
        discards nothing. */
    method PruneByTime()
      requires units != [] && bytes == Bytes(units) && Ordered(units)
      requires |units| >= 2 ==> units[0].IndependentlyDecodable()
      requires latestTs == units[|units| - 1].sensorTs
      modifies `units, `bytes, `generation, `latestTs
      ensures units == PruneTime(old(units), limits.retentionNs) && bytes == Bytes(units)
      ensures units != [] && generation == old(generation) && latestTs == old(latestTs)
    {
      if |units| < 2 || latestTs <= limits.retentionNs {
        return;
      }
      var cutoff := latestTs - limits.retentionNs;
      var keep := ScanNewest(cutoff);
      if keep == |units| {
        NewestStartIs(units, cutoff);
        DiscardOlder(cutoff);
        return;
      }
      ghost var s := units;
      var index := 0;
      while index < keep
        invariant 0 <= index <= keep < |s| && units == s[index..] && bytes == Bytes(units)
        invariant generation == old(generation) && latestTs == old(latestTs)
      {
        DiscardFront();
        index := index + 1;
      }
    }

    /** The pruning loop for a history without a keyframe before the cutoff. */
    method DiscardOlder(cutoff: int)
      requires units != [] && bytes == Bytes(units)
      modifies `units, `bytes, `generation, `latestTs
      ensures units == DropOlder(old(units), cutoff) && bytes == Bytes(units)
      ensures units != [] && generation == old(generation) && latestTs == old(latestTs)
    {
      while |units| > 1 && units[0].sensorTs < cutoff
        invariant units != [] && bytes == Bytes(units)
        invariant DropOlder(units, cutoff) == DropOlder(old(units), cutoff)
        invariant generation == old(generation) && latestTs == old(latestTs)
        decreases |units|
      {
        DiscardFront();
      }
    }

    method PruneByBytes()
      requires units != [] && bytes == Bytes(units)
      modifies `units, `bytes, `generation, `latestTs
      ensures units == DropUndecodable(DropHeavy(old(units), limits.maxBytes)) && bytes == Bytes(units)
      ensures generation == (if units == [] then 0 else old(generation))
      ensures latestTs == (if units == [] then 0 else old(latestTs))
    {
      while units != [] && bytes > limits.maxBytes
        invariant bytes == Bytes(units)
        invariant DropHeavy(units, limits.maxBytes) == DropHeavy(old(units), limits.maxBytes)
        invariant generation == (if units == [] then 0 else old(generation))
        invariant latestTs == (if units == [] then 0 else old(latestTs))
        decreases |units|
      {
        DiscardFront();
      }
      while units != [] && !units[0].IndependentlyDecodable()
        invariant bytes == Bytes(units)
        invariant DropUndecodable(units) == DropUndecodable(DropHeavy(old(units), limits.maxBytes))
        invariant generation == (if units == [] then 0 else old(generation))
        invariant latestTs == (if units == [] then 0 else old(latestTs))
        decreases |units|
      {
        DiscardFront();
      }
    }

    method DiscardFront()
      requires units != [] && bytes == Bytes(units)
      modifies `units, `bytes, `generation, `latestTs
      ensures units == old(units)[1..] && bytes == Bytes(units)
      ensures generation == (if units == [] then 0 else old(generation))
      ensures latestTs == (if units == [] then 0 else old(latestTs))
    {
      bytes := bytes - units[0].SizeBytes();
      units := units[1..];
      if units == [] {
        generation := 0;
        latestTs := 0;
      }
    }
  }

  lemma PushedStats(r: Ring, lim: Limits, unit: Option<Unit>)
    requires RingInv(r, lim)
    ensures var r' := Push(r, lim, unit);
      && r'.resets == r.resets + (if Resets(Classify(r, lim, unit)) then 1 else 0)
      && r'.peakBytes == if r.peakBytes < r'.bytes then r'.bytes else r.peakBytes
  {
  }

  function DropOlder(s: seq<Unit>, cutoff: int): seq<Unit> {
    if |s| > 1 && s[0].sensorTs < cutoff then DropOlder(s[1..], cutoff) else s
  }

  lemma {:induction false} BytesAppend(s: seq<Unit>, u: Unit)
    ensures Bytes(s + [u]) == Bytes(s) + u.SizeBytes()
  {
    if s == [] {
      assert s + [u] == [u];
    } else {
      BytesAppend(s[1..], u);
      assert (s + [u])[1..] == s[1..] + [u];
    }
  }

  /** In an ordered history the scan may stop at the first unit beyond the bound. */
  lemma NewestStartOfRun(s: seq<Unit>, bound: int, n: nat)
    requires n <= |s| && Ordered(s)
    requires n < |s| ==> s[n].sensorTs > bound
    ensures NewestStart(s, bound) == if NewestStart(s[..n], bound) < n then NewestStart(s[..n], bound) else |s|
  {
    NewestStartIs(s[..n], bound);
    var m := NewestStart(s[..n], bound);
    NewestStartUnique(s, bound, if m < n then m else |s|);
  }

  lemma NoFirstStart(s: seq<Unit>, bound: int, n: nat)
    requires n <= |s| && Ordered(s)
    requires n < |s| ==> s[n].sensorTs > bound
    requires forall j :: 0 <= j < n ==> !s[j].IndependentlyDecodable()
    ensures FirstStart(s, bound) == |s|
  {
    FirstStartUnique(s, bound, |s|);
  }

  lemma FirstStartAt(s: seq<Unit>, bound: int, k: nat)
    requires k < |s| && s[k].IndependentlyDecodable() && s[k].sensorTs <= bound
    requires forall j :: 0 <= j < k ==> !s[j].IndependentlyDecodable()
    ensures FirstStart(s, bound) == k
  {
    FirstStartUnique(s, bound, k);
  }
}
