/** What the bounded history of access units computes, as functions of sequences
    (src/encoded_ring_buffer.cpp). The class in RingBuffer.dfy is proved against these. */
module RingSpec {
  import opened Basics
  import opened AccessUnits

  datatype Limits = Limits(retentionNs: nat, maxBytes: nat) {
    ghost predicate Valid() { retentionNs > 0 && maxBytes > 0 }
  }

  datatype PushResult =
    | Accepted
    | ResetForGeneration
    | ResetForTimestampRegression
    | RejectedInvalid
    | RejectedOversize

  datatype Selection = Selection(
    generation: nat,
    requestedStart: nat,
    actualStart: nat,
    preRollComplete: bool,
    hasIndependentStart: bool,
    units: seq<Unit>)

  datatype Ring = Ring(
    units: seq<Unit>,
    bytes: nat,
    peakBytes: nat,
    resets: nat,
    generation: nat,
    latestTs: nat)

  const EMPTY := Ring([], 0, 0, 0, 0, 0)

  function Bytes(s: seq<Unit>): nat {
    if s == [] then 0 else s[0].SizeBytes() + Bytes(s[1..])
  }

  /** What every push and clear keeps: see PushKeepsInvariant. */
  ghost predicate RingInv(r: Ring, lim: Limits) {
    && r.bytes == Bytes(r.units) <= lim.maxBytes
    && r.bytes <= r.peakBytes <= lim.maxBytes
    && OfGeneration(r.units, r.generation)
    && Ordered(r.units)
    && (r.units != [] ==>
          r.units[0].IndependentlyDecodable() && r.latestTs == r.units[|r.units| - 1].sensorTs)
    && (r.units == [] ==> r.generation == 0 && r.latestTs == 0)
  }

  // ----- Choosing a start -----

  ghost predicate IsNewestStart(s: seq<Unit>, bound: int, k: nat) {
    && k <= |s|
    && (k < |s| ==> s[k].IndependentlyDecodable() && s[k].sensorTs <= bound)
    && (forall j :: 0 <= j < |s| && (k == |s| || k < j) && s[j].sensorTs <= bound ==>
          !s[j].IndependentlyDecodable())
  }

  /** The newest independently decodable unit at or before `bound`, or |s|. */
  function NewestStart(s: seq<Unit>, bound: int): (k: nat)
    ensures k <= |s|
  {
    if s == [] then 0
    else
      var n := |s| - 1;
      if s[n].IndependentlyDecodable() && s[n].sensorTs <= bound then n
      else
        var k := NewestStart(s[..n], bound);
        if k == n then |s| else k
  }

  lemma {:induction false} NewestStartIs(s: seq<Unit>, bound: int)
    ensures IsNewestStart(s, bound, NewestStart(s, bound))
    decreases |s|
  {
    if s != [] {
      var n := |s| - 1;
      NewestStartIs(s[..n], bound);
      assert forall j :: 0 <= j < n ==> s[j] == s[..n][j];
    }
  }

  lemma NewestStartUnique(s: seq<Unit>, bound: int, k: nat)
    requires IsNewestStart(s, bound, k)
    ensures NewestStart(s, bound) == k
  {
    NewestStartIs(s, bound);
  }

  ghost predicate IsFirstStart(s: seq<Unit>, bound: int, k: nat) {
    && k <= |s|
    && (k < |s| ==> s[k].IndependentlyDecodable() && s[k].sensorTs <= bound)
    && (forall j :: 0 <= j < k && s[j].sensorTs <= bound ==> !s[j].IndependentlyDecodable())
  }

  /** The oldest independently decodable unit at or before `bound`, or |s|. */
  function FirstStart(s: seq<Unit>, bound: int): (k: nat)
    ensures k <= |s|
  {
    if s == [] then 0
    else if s[0].IndependentlyDecodable() && s[0].sensorTs <= bound then 0
    else 1 + FirstStart(s[1..], bound)
  }

  lemma {:induction false} FirstStartIs(s: seq<Unit>, bound: int)
    ensures IsFirstStart(s, bound, FirstStart(s, bound))
    decreases |s|
  {
    if s != [] && !(s[0].IndependentlyDecodable() && s[0].sensorTs <= bound) {
      FirstStartIs(s[1..], bound);
      assert forall j :: 1 <= j < |s| ==> s[j] == s[1..][j - 1];
    }
  }

  lemma FirstStartUnique(s: seq<Unit>, bound: int, k: nat)
    requires IsFirstStart(s, bound, k)
    ensures FirstStart(s, bound) == k
  {
    FirstStartIs(s, bound);
  }

  function RequestedStart(trigger: nat, preRoll: nat): nat {
    if trigger > preRoll then trigger - preRoll else 0
  }

  function StartIndex(s: seq<Unit>, trigger: nat, preRoll: nat): (k: nat)
    ensures k <= |s|
  {
    var newest := NewestStart(s, RequestedStart(trigger, preRoll));
    if newest < |s| then newest else FirstStart(s, trigger)
  }

  lemma StartIndexIs(s: seq<Unit>, trigger: nat, preRoll: nat)
    ensures var k := StartIndex(s, trigger, preRoll);
      k < |s| ==> s[k].IndependentlyDecodable()
                  && (s[k].sensorTs <= RequestedStart(trigger, preRoll) ==>
                        k == NewestStart(s, RequestedStart(trigger, preRoll)))
  {
    NewestStartIs(s, RequestedStart(trigger, preRoll));
    FirstStartIs(s, trigger);
  }

  /** selectPreRoll on an arbitrary history of one generation. */
  function Select(s: seq<Unit>, trigger: nat, preRoll: nat): Selection {
    var requested := RequestedStart(trigger, preRoll);
    var k := StartIndex(s, trigger, preRoll);
    if k == |s| then
      Selection(if s == [] then 0 else s[0].generation, requested, 0, false, false, [])
    else
      Selection(s[0].generation, requested, s[k].sensorTs, s[k].sensorTs <= requested, true, s[k..])
  }

  // ----- Pruning -----

  /** Keep everything from the newest decodable unit at or before the retention cutoff. */
  function PruneTime(s: seq<Unit>, retentionNs: nat): seq<Unit> {
    if |s| < 2 || s[|s| - 1].sensorTs <= retentionNs then s
    else
      var k := NewestStart(s, s[|s| - 1].sensorTs - retentionNs);
      if k < |s| then s[k..] else s
  }

  function DropHeavy(s: seq<Unit>, maxBytes: nat): seq<Unit> {
    if Bytes(s) <= maxBytes then s else DropHeavy(s[1..], maxBytes)
  }

  function DropUndecodable(s: seq<Unit>): seq<Unit> {
    if s == [] || s[0].IndependentlyDecodable() then s else DropUndecodable(s[1..])
  }

  function Prune(s: seq<Unit>, lim: Limits): seq<Unit> {
    DropUndecodable(DropHeavy(PruneTime(s, lim.retentionNs), lim.maxBytes))
  }

  // ----- The operations -----

  function Classify(r: Ring, lim: Limits, unit: Option<Unit>): PushResult {
    if unit.None? || unit.value.SizeBytes() == 0 || unit.value.generation == 0 || unit.value.sensorTs == 0 then
      RejectedInvalid
    else if unit.value.SizeBytes() > lim.maxBytes then RejectedOversize
    else if r.units != [] && unit.value.generation != r.generation then ResetForGeneration
    else if r.units != [] && unit.value.sensorTs < r.latestTs then ResetForTimestampRegression
    else Accepted
  }

  predicate Rejects(p: PushResult) { p.RejectedInvalid? || p.RejectedOversize? }

  predicate Resets(p: PushResult) { p.ResetForGeneration? || p.ResetForTimestampRegression? }

  function Push(r: Ring, lim: Limits, unit: Option<Unit>): Ring {
    var result := Classify(r, lim, unit);
    if Rejects(result) then r
    else
      Holding(r, Prune(Extended(r, unit.value, Resets(result)), lim), unit.value, Resets(result))
  }

  function Extended(r: Ring, u: Unit, reset: bool): seq<Unit> {
    if reset then [u] else r.units + [u]
  }

  /** The ring after an accepted push of `u` that left `kept`. */
  function Holding(r: Ring, kept: seq<Unit>, u: Unit, reset: bool): Ring {
    Ring(kept, Bytes(kept), Max(r.peakBytes, Bytes(kept)), r.resets + if reset then 1 else 0,
         if kept == [] then 0 else u.generation, if kept == [] then 0 else u.sensorTs)
  }

  function Clear(r: Ring): Ring {
    Ring([], 0, r.peakBytes, r.resets + 1, 0, 0)
  }

  function Max(a: nat, b: nat): nat { if a < b then b else a }

  // ----- What pruning keeps -----

  lemma {:induction false} DropHeavyIsSuffix(s: seq<Unit>, maxBytes: nat)
    ensures IsSuffix(DropHeavy(s, maxBytes), s)
    ensures Bytes(DropHeavy(s, maxBytes)) <= maxBytes
    decreases |s|
  {
    if Bytes(s) > maxBytes {
      DropHeavyIsSuffix(s[1..], maxBytes);
    }
  }

  lemma {:induction false} DropUndecodableIsSuffix(s: seq<Unit>)
    ensures IsSuffix(DropUndecodable(s), s) && Bytes(DropUndecodable(s)) <= Bytes(s)
    ensures DropUndecodable(s) != [] ==> DropUndecodable(s)[0].IndependentlyDecodable()
    ensures forall i :: 0 <= i < |s| - |DropUndecodable(s)| ==> !s[i].IndependentlyDecodable()
    decreases |s|
  {
    if s != [] && !s[0].IndependentlyDecodable() {
      DropUndecodableIsSuffix(s[1..]);
      assert forall i :: 1 <= i < |s| ==> s[i] == s[1..][i - 1];
    }
  }

  lemma {:induction false} DropHeavyIsLongest(s: seq<Unit>, maxBytes: nat, t: seq<Unit>)
    requires IsSuffix(t, s) && Bytes(t) <= maxBytes
    ensures IsSuffix(t, DropHeavy(s, maxBytes))
    decreases |s|
  {
    if Bytes(s) > maxBytes {
      assert |t| < |s|;
      assert t == s[1..][|s| - 1 - |t|..];
      DropHeavyIsLongest(s[1..], maxBytes, t);
    }
  }

  lemma {:induction false} DropUndecodableIsLongest(s: seq<Unit>, t: seq<Unit>)
    requires IsSuffix(t, s) && (t == [] || t[0].IndependentlyDecodable())
    ensures IsSuffix(t, DropUndecodable(s))
    decreases |s|
  {
    if s != [] && !s[0].IndependentlyDecodable() {
      assert |t| < |s|;
      assert t == s[1..][|s| - 1 - |t|..];
      DropUndecodableIsLongest(s[1..], t);
    }
  }

  /** The byte limit costs no more than it must: any end of the history that fits and starts decodable is
      still there. */
  lemma ByteLimitKeepsLongest(s: seq<Unit>, maxBytes: nat, t: seq<Unit>)
    requires IsSuffix(t, s) && Bytes(t) <= maxBytes && (t == [] || t[0].IndependentlyDecodable())
    ensures IsSuffix(t, DropUndecodable(DropHeavy(s, maxBytes)))
  {
    DropHeavyIsLongest(s, maxBytes, t);
    DropUndecodableIsLongest(DropHeavy(s, maxBytes), t);
  }

  lemma PruneIsSuffix(s: seq<Unit>, lim: Limits)
    ensures IsSuffix(Prune(s, lim), s) && Bytes(Prune(s, lim)) <= lim.maxBytes
    ensures Prune(s, lim) != [] ==> Prune(s, lim)[0].IndependentlyDecodable()
  {
    var timed := PruneTime(s, lim.retentionNs);
    assert IsSuffix(timed, s);
    DropHeavyIsSuffix(timed, lim.maxBytes);
    DropUndecodableIsSuffix(DropHeavy(timed, lim.maxBytes));
  }

  lemma SuffixKeepsOrder(t: seq<Unit>, s: seq<Unit>, g: nat)
    requires IsSuffix(t, s) && Ordered(s) && OfGeneration(s, g)
    ensures Ordered(t) && OfGeneration(t, g)
    ensures t != [] ==> t[|t| - 1] == s[|s| - 1]
  {
    var d := |s| - |t|;
    assert forall i :: 0 <= i < |t| ==> t[i] == s[d + i];
  }

  lemma HoldingInv(r: Ring, lim: Limits, s: seq<Unit>, kept: seq<Unit>, u: Unit, reset: bool)
    requires RingInv(r, lim) && Ordered(s) && OfGeneration(s, u.generation)
    requires s != [] && s[|s| - 1] == u
    requires IsSuffix(kept, s) && Bytes(kept) <= lim.maxBytes
    requires kept != [] ==> kept[0].IndependentlyDecodable()
    ensures RingInv(Holding(r, kept, u, reset), lim)
    ensures kept != [] ==> kept[|kept| - 1] == u
  {
    SuffixKeepsOrder(kept, s, u.generation);
  }

  lemma ExtendedInv(r: Ring, lim: Limits, u: Unit)
    requires RingInv(r, lim) && !Rejects(Classify(r, lim, Some(u)))
    ensures var s := Extended(r, u, Resets(Classify(r, lim, Some(u))));
      Ordered(s) && OfGeneration(s, u.generation)
  {
  }

  /** Every push, accepted or not, keeps the ring invariant; the byte and peak bounds, the
      single generation, the order of time and the decodable front are its conjuncts. */
  lemma PushKeepsInvariant(r: Ring, lim: Limits, unit: Option<Unit>) returns (r': Ring)
    requires lim.Valid() && RingInv(r, lim)
    ensures r' == Push(r, lim, unit) && RingInv(r', lim)
    ensures !Rejects(Classify(r, lim, unit)) && r'.units != [] ==> r'.units[|r'.units| - 1] == unit.value
  {
    r' := Push(r, lim, unit);
    var result := Classify(r, lim, unit);
    if !Rejects(result) {
      var s := Extended(r, unit.value, Resets(result));
      ExtendedInv(r, lim, unit.value);
      PruneIsSuffix(s, lim);
      HoldingInv(r, lim, s, Prune(s, lim), unit.value, Resets(result));
    }
  }

  // ----- What a ring may hold -----

  /** What the ring accepts, whatever it holds. */
  predicate Usable(u: Unit, lim: Limits) {
    0 < u.SizeBytes() <= lim.maxBytes && u.generation != 0 && u.sensorTs != 0
  }

  ghost predicate AllUsable(s: seq<Unit>, lim: Limits) {
    forall i | 0 <= i < |s| :: Usable(s[i], lim)
  }

  /** Nothing but the front could be given up for its age: no later unit that a clip could start with is at
      or before the retention cutoff. */
  ghost predicate Recent(s: seq<Unit>, retentionNs: nat) {
    forall i | 0 < i < |s| && s[i].IndependentlyDecodable() :: s[i].sensorTs + retentionNs > s[|s| - 1].sensorTs
  }

  lemma PruneTimeIsRecent(s: seq<Unit>, lim: Limits)
    requires Ordered(s) && AllUsable(s, lim)
    ensures Recent(PruneTime(s, lim.retentionNs), lim.retentionNs)
  {
    if |s| >= 2 && s[|s| - 1].sensorTs > lim.retentionNs {
      var cutoff := s[|s| - 1].sensorTs - lim.retentionNs;
      var k := NewestStart(s, cutoff);
      NewestStartIs(s, cutoff);
      var t := PruneTime(s, lim.retentionNs);
      var d := |s| - |t|;
      forall i | 0 < i < |t| && t[i].IndependentlyDecodable()
        ensures t[i].sensorTs + lim.retentionNs > t[|t| - 1].sensorTs
      {
        assert t[i] == s[d + i] && t[|t| - 1] == s[|s| - 1];
      }
    }
  }

  lemma SuffixIsRecent(t: seq<Unit>, s: seq<Unit>, lim: Limits)
    requires IsSuffix(t, s) && Recent(s, lim.retentionNs) && AllUsable(s, lim)
    ensures Recent(t, lim.retentionNs) && AllUsable(t, lim)
  {
    var d := |s| - |t|;
    assert forall i | 0 <= i < |t| :: t[i] == s[d + i];
  }

  lemma SuffixIsUsable(t: seq<Unit>, s: seq<Unit>, lim: Limits)
    requires IsSuffix(t, s) && AllUsable(s, lim)
    ensures AllUsable(t, lim)
  {
    var d := |s| - |t|;
    assert forall i | 0 <= i < |t| :: t[i] == s[d + i];
  }

  lemma BytesPruneIsSuffix(s: seq<Unit>, maxBytes: nat)
    ensures IsSuffix(DropUndecodable(DropHeavy(s, maxBytes)), s)
  {
    DropHeavyIsSuffix(s, maxBytes);
    DropUndecodableIsSuffix(DropHeavy(s, maxBytes));
    SuffixTransitive(DropUndecodable(DropHeavy(s, maxBytes)), DropHeavy(s, maxBytes), s);
  }

  lemma PruneIsRecent(s: seq<Unit>, lim: Limits)
    requires Ordered(s) && AllUsable(s, lim)
    ensures Recent(Prune(s, lim), lim.retentionNs) && AllUsable(Prune(s, lim), lim)
  {
    var timed := PruneTime(s, lim.retentionNs);
    PruneTimeIsRecent(s, lim);
    SuffixIsUsable(timed, s, lim);
    BytesPruneIsSuffix(timed, lim.maxBytes);
    SuffixIsRecent(Prune(s, lim), timed, lim);
  }

  /** Old units do go: every push leaves a ring that is no longer than its retention asks for. */
  lemma PushKeepsRecent(r: Ring, lim: Limits, unit: Option<Unit>)
    requires RingInv(r, lim) && AllUsable(r.units, lim) && Recent(r.units, lim.retentionNs)
    ensures AllUsable(Push(r, lim, unit).units, lim) && Recent(Push(r, lim, unit).units, lim.retentionNs)
  {
    var result := Classify(r, lim, unit);
    if !Rejects(result) {
      ExtendedInv(r, lim, unit.value);
      PruneIsRecent(Extended(r, unit.value, Resets(result)), lim);
    }
  }

  // ----- What a push reports -----

  /** In terms of the unit and of the newest one held: rejected exactly when unusable, a reset exactly when
      the stream breaks, named for why it does. */
  lemma ResultMeans(r: Ring, lim: Limits, unit: Option<Unit>)
    requires RingInv(r, lim)
    ensures var result := Classify(r, lim, unit);
      && (Rejects(result) <==> unit.None? || !Usable(unit.value, lim))
      && (result.RejectedOversize? ==> unit.Some? && unit.value.SizeBytes() > lim.maxBytes)
      && Push(r, lim, unit).resets == r.resets + (if result == ResetForGeneration
                                                     || result == ResetForTimestampRegression then 1 else 0)
      && (!Rejects(result) && r.units == [] ==> result == Accepted)
      && (!Rejects(result) && r.units != [] ==>
            var last := r.units[|r.units| - 1];
            result == if unit.value.generation != last.generation then ResetForGeneration
                      else if unit.value.sensorTs < last.sensorTs then ResetForTimestampRegression else Accepted)
  {
  }

  // ----- What a selection is -----

  /** A start for a clip of `s` no later than `bound`. */
  ghost predicate HasStart(s: seq<Unit>, bound: int) {
    exists i | 0 <= i < |s| :: s[i].IndependentlyDecodable() && s[i].sensorTs <= bound
  }

  /** What selectPreRoll promises of a history of one generation, in terms of trigger and pre-roll. */
  ghost predicate IsSelection(s: seq<Unit>, trigger: nat, preRoll: nat, sel: Selection) {
    var requested := if trigger > preRoll then trigger - preRoll else 0;
    && sel.requestedStart == requested
    && (sel.units != [] <==> HasStart(s, trigger)) && sel.hasIndependentStart == (sel.units != [])
    && (sel.preRollComplete <==> HasStart(s, requested))
    && (sel.units != [] ==> FromStart(s, requested, trigger, sel))
  }

  /** The units from the newest start at or before the requested one, or else from the oldest at or before
      the trigger. */
  ghost predicate FromStart(s: seq<Unit>, requested: int, trigger: int, sel: Selection)
    requires sel.units != []
  {
    && IsSuffix(sel.units, s) && sel.units[0].IndependentlyDecodable()
    && sel.actualStart == sel.units[0].sensorTs <= trigger && sel.generation == sel.units[0].generation
    && (sel.preRollComplete ==> sel.actualStart <= requested && forall i | 0 < i < |sel.units| ::
          sel.units[i].sensorTs <= requested ==> !sel.units[i].IndependentlyDecodable())
    && (!sel.preRollComplete ==> !HasStart(s[..|s| - |sel.units|], trigger))
  }

  lemma SelectMeans(s: seq<Unit>, trigger: nat, preRoll: nat, g: nat)
    requires OfGeneration(s, g)
    ensures IsSelection(s, trigger, preRoll, Select(s, trigger, preRoll))
  {
    var requested := RequestedStart(trigger, preRoll);
    var sel, newest, first := Select(s, trigger, preRoll), NewestStart(s, requested), FirstStart(s, trigger);
    NewestStartIs(s, requested);
    FirstStartIs(s, trigger);
    if newest < |s| {
      assert sel.units == s[newest..];
      assert forall i | 0 <= i < |sel.units| :: sel.units[i] == s[newest + i];
      assert HasStart(s, requested) && HasStart(s, trigger);
    } else if first < |s| {
      assert sel.units == s[first..] && s[..|s| - |sel.units|] == s[..first];
      assert HasStart(s, trigger) && !HasStart(s[..first], trigger);
    }
  }
}
