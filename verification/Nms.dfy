/** Greedy non-maximum suppression (src/inference.cpp:156-176) over any intersection-over-union and
    comparable confidences. */
module Nms {
  datatype Box = Box(x: real, y: real, width: real, height: real)

  datatype Detection = Detection(classId: int, confidence: real, box: Box)

  /** The intersection-over-union and the threshold it is compared with. */
  datatype Rule = Rule(iou: (Box, Box) -> real, threshold: real)

  predicate Overlaps(rule: Rule, a: Detection, b: Detection) {
    a.classId == b.classId && rule.iou(a.box, b.box) > rule.threshold
  }

  // ----- Sorting -----

  predicate Descending(s: seq<Detection>) {
    forall i, j | 0 <= i < j < |s| :: s[i].confidence >= s[j].confidence
  }

  /** Every result std::sort may give. */
  predicate SortOf(s: seq<Detection>, ds: seq<Detection>) {
    Descending(s) && multiset(s) == multiset(ds)
  }

  method SortByConfidence(ds: seq<Detection>) returns (s: seq<Detection>)
    ensures SortOf(s, ds)
  {
    s := [];
    for i := 0 to |ds|
      invariant SortOf(s, ds[..i])
    {
      var k := |s|;
      while k > 0 && s[k - 1].confidence < ds[i].confidence
        invariant 0 <= k <= |s| && forall j | k <= j < |s| :: s[j].confidence < ds[i].confidence
      {
        k := k - 1;
      }
      InsertSorts(s, ds[..i], k, ds[i]);
      assert ds[..i + 1] == ds[..i] + [ds[i]];
      s := s[..k] + [ds[i]] + s[k..];
    }
    assert ds[..|ds|] == ds;
  }

  lemma InsertSorts(s: seq<Detection>, ds: seq<Detection>, k: nat, d: Detection)
    requires SortOf(s, ds) && k <= |s| && (k > 0 ==> s[k - 1].confidence >= d.confidence)
    requires forall j | k <= j < |s| :: s[j].confidence < d.confidence
    ensures SortOf(s[..k] + [d] + s[k..], ds + [d])
  {
    assert s == s[..k] + s[k..];
    InsertDescends(s, k, d);
  }

  lemma InsertDescends(s: seq<Detection>, k: nat, d: Detection)
    requires Descending(s) && k <= |s| && (k > 0 ==> s[k - 1].confidence >= d.confidence)
    requires forall j | k <= j < |s| :: s[j].confidence < d.confidence
    ensures Descending(s[..k] + [d] + s[k..])
  {
    var t := s[..k] + [d] + s[k..];
    forall i, j | 0 <= i < j < |t| ensures t[i].confidence >= t[j].confidence {
      assert i < k ==> t[i] == s[i] && s[i].confidence >= d.confidence;
      assert j > k ==> t[j] == s[j - 1];
    }
  }

  // ----- What is kept -----

  /** Position `i` survives when no survivor before it overlaps it. */
  predicate IsKept(rule: Rule, s: seq<Detection>, i: nat)
    requires i < |s|
  {
    forall j: nat | j < i :: !(IsKept(rule, s, j) && Overlaps(rule, s[j], s[i]))
  }

  function Survivors(rule: Rule, s: seq<Detection>, n: nat): seq<Detection>
    requires n <= |s|
  {
    if n == 0 then []
    else if IsKept(rule, s, n - 1) then Survivors(rule, s, n - 1) + [s[n - 1]]
    else Survivors(rule, s, n - 1)
  }

  /** Some survivor before `i` overlaps position `k`. */
  predicate SuppressedBy(rule: Rule, s: seq<Detection>, i: nat, k: nat)
    requires i <= |s| && k < |s|
  {
    exists j: nat | j < i && j < k :: IsKept(rule, s, j) && Overlaps(rule, s[j], s[k])
  }

  method NonMaximumSuppression(rule: Rule, detections: seq<Detection>)
    returns (result: seq<Detection>, ghost sorted: seq<Detection>)
    ensures SortOf(sorted, detections) && result == Survivors(rule, sorted, |sorted|)
    ensures Descending(result) && multiset(result) <= multiset(detections) && Separate(rule, result)
  {
    var s := SortByConfidence(detections);
    sorted := s;
    result := [];
    var suppressed := new bool[|s|](_ => false);
    for i := 0 to |s|
      invariant result == Survivors(rule, s, i)
      invariant forall k: nat | k < |s| :: suppressed[k] <==> SuppressedBy(rule, s, i, k)
    {
      assert suppressed[i] <==> !IsKept(rule, s, i);
      if suppressed[i] {
        continue;
      }
      result := result + [s[i]];
      for j := i + 1 to |s|
        invariant forall k: nat | k < |s| ::
          suppressed[k] <==> SuppressedBy(rule, s, i, k) || (i < k < j && Overlaps(rule, s[i], s[k]))
      {
        if !suppressed[j] && s[i].classId == s[j].classId && rule.iou(s[i].box, s[j].box) > rule.threshold {
          suppressed[j] := true;
        }
      }
    }
    ResultIsSeparate(rule, detections, s);
  }

  // ----- What the result promises -----

  /** The survivors are the kept positions, in order. */
  lemma {:induction false} SurvivorPositions(rule: Rule, s: seq<Detection>, n: nat) returns (at: seq<nat>)
    requires n <= |s|
    ensures |at| == |Survivors(rule, s, n)|
    ensures forall k | 0 <= k < |at| :: at[k] < n && IsKept(rule, s, at[k]) && Survivors(rule, s, n)[k] == s[at[k]]
    ensures forall j, k | 0 <= j < k < |at| :: at[j] < at[k]
    ensures forall i: nat | i < n && IsKept(rule, s, i) :: i in at
  {
    at := [];
    if n > 0 {
      at := SurvivorPositions(rule, s, n - 1);
      if IsKept(rule, s, n - 1) {
        at := at + [n - 1];
      }
    }
  }

  lemma {:induction false} SurvivorsAreInput(rule: Rule, s: seq<Detection>, n: nat)
    requires n <= |s|
    ensures multiset(Survivors(rule, s, n)) <= multiset(s[..n])
  {
    if n > 0 {
      SurvivorsAreInput(rule, s, n - 1);
      assert s[..n] == s[..n - 1] + [s[n - 1]];
    }
  }

  /** Sorted, part of the input, and no two kept boxes of one class over the threshold. */
  predicate Separate(rule: Rule, r: seq<Detection>) {
    forall i, j | 0 <= i < j < |r| :: !Overlaps(rule, r[i], r[j])
  }

  lemma ResultIsSeparate(rule: Rule, ds: seq<Detection>, s: seq<Detection>)
    requires SortOf(s, ds)
    ensures var r := Survivors(rule, s, |s|);
      && Descending(r) && multiset(r) <= multiset(ds) && Separate(rule, r)
      && forall i, j | 0 <= i < j < |r| && r[i].classId == r[j].classId ::
           rule.iou(r[i].box, r[j].box) <= rule.threshold
  {
    var at := SurvivorPositions(rule, s, |s|);
    SurvivorsAreInput(rule, s, |s|);
    assert s[..|s|] == s;
  }

  /** A kept detection of the same class, at least as confident, over the threshold with `d`. */
  predicate IsCovered(rule: Rule, d: Detection, r: seq<Detection>) {
    exists k | 0 <= k < |r| :: r[k].confidence >= d.confidence && Overlaps(rule, r[k], d)
  }

  /** Every position of the sorted input is either kept or covered by one that is. */
  lemma DroppedIsCovered(rule: Rule, s: seq<Detection>, i: nat)
    requires Descending(s) && i < |s|
    ensures IsKept(rule, s, i) != IsCovered(rule, s[i], Survivors(rule, s, i))
  {
    var at := SurvivorPositions(rule, s, i);
    var r := Survivors(rule, s, i);
    if !IsKept(rule, s, i) {
      var j: nat :| j < i && IsKept(rule, s, j) && Overlaps(rule, s[j], s[i]);
      var k :| 0 <= k < |at| && at[k] == j;
      assert r[k].confidence >= s[i].confidence;
    }
  }

  lemma {:induction false} SurvivorsGrow(rule: Rule, s: seq<Detection>, i: nat, n: nat)
    requires i <= n <= |s|
    ensures Survivors(rule, s, i) <= Survivors(rule, s, n)
  {
    if i < n {
      SurvivorsGrow(rule, s, i, n - 1);
    }
  }

  /** Whatever the input holds more copies of than the result is covered by the result. */
  lemma {:induction false} LostIsCovered(rule: Rule, s: seq<Detection>, n: nat, d: Detection)
    requires Descending(s) && n <= |s| && multiset(Survivors(rule, s, n))[d] < multiset(s[..n])[d]
    ensures IsCovered(rule, d, Survivors(rule, s, n))
  {
    if n > 0 {
      assert s[..n] == s[..n - 1] + [s[n - 1]];
      SurvivorsGrow(rule, s, n - 1, n);
      if s[n - 1] == d && !IsKept(rule, s, n - 1) {
        DroppedIsCovered(rule, s, n - 1);
      } else {
        LostIsCovered(rule, s, n - 1, d);
        assert IsCovered(rule, d, Survivors(rule, s, n - 1));
      }
    }
  }

  lemma EveryDroppedBoxIsCovered(rule: Rule, ds: seq<Detection>, s: seq<Detection>, d: Detection)
    requires SortOf(s, ds) && multiset(Survivors(rule, s, |s|))[d] < multiset(ds)[d]
    ensures var r := Survivors(rule, s, |s|);
      exists k | 0 <= k < |r| ::
        r[k].confidence >= d.confidence && r[k].classId == d.classId && rule.iou(r[k].box, d.box) > rule.threshold
  {
    assert s[..|s|] == s;
    LostIsCovered(rule, s, |s|, d);
    var r := Survivors(rule, s, |s|);
    var k :| 0 <= k < |r| && r[k].confidence >= d.confidence && Overlaps(rule, r[k], d);
  }

  // ----- Running it again -----

  lemma {:induction false} SeparateSurvives(rule: Rule, s: seq<Detection>, n: nat)
    requires Separate(rule, s) && n <= |s|
    ensures Survivors(rule, s, n) == s[..n]
  {
    if n > 0 {
      SeparateSurvives(rule, s, n - 1);
      assert IsKept(rule, s, n - 1);
    }
  }

  predicate DistinctConfidences(s: seq<Detection>) {
    forall i, j | 0 <= i < j < |s| :: s[i].confidence != s[j].confidence
  }

  lemma MemberOf(s: seq<Detection>, t: seq<Detection>, i: nat) returns (j: nat)
    requires multiset(s) == multiset(t) && i < |s|
    ensures j < |t| && t[j] == s[i]
  {
    assert s[i] in multiset(s);
    assert s[i] in t;
    j :| j < |t| && t[j] == s[i];
  }

  lemma SameFirst(s: seq<Detection>, t: seq<Detection>)
    requires s != [] && t != [] && multiset(s) == multiset(t)
    requires Descending(s) && Descending(t) && DistinctConfidences(s)
    ensures s[0] == t[0]
  {
    var j := MemberOf(s, t, 0);
    var i := MemberOf(t, s, 0);
    assert t[0].confidence >= t[j].confidence && s[0].confidence >= s[i].confidence;
  }

  lemma SameRest(s: seq<Detection>, t: seq<Detection>)
    requires s != [] && t != [] && multiset(s) == multiset(t) && s[0] == t[0]
    ensures multiset(s[1..]) == multiset(t[1..])
  {
    assert s == [s[0]] + s[1..] && t == [t[0]] + t[1..];
    assert multiset(s[1..]) == multiset(s) - multiset{s[0]};
    assert multiset(t[1..]) == multiset(t) - multiset{t[0]};
  }

  /** With distinct confidences there is one sorted order. */
  lemma {:induction false} OneSort(s: seq<Detection>, t: seq<Detection>)
    requires Descending(s) && Descending(t) && multiset(s) == multiset(t) && DistinctConfidences(s)
    ensures s == t
    decreases |s|
  {
    assert |s| == |multiset(s)| && |t| == |multiset(t)|;
    if s != [] {
      SameFirst(s, t);
      SameRest(s, t);
      OneSort(s[1..], t[1..]);
      assert s == [s[0]] + s[1..] && t == [t[0]] + t[1..];
    }
  }

  lemma DistinctSurvivors(rule: Rule, s: seq<Detection>)
    requires DistinctConfidences(s)
    ensures DistinctConfidences(Survivors(rule, s, |s|))
  {
    var at := SurvivorPositions(rule, s, |s|);
  }

  /** A second run on the result of a first changes nothing. */
  lemma SecondRunIsIdle(rule: Rule, ds: seq<Detection>, s: seq<Detection>, again: seq<Detection>)
    requires SortOf(s, ds) && DistinctConfidences(s) && SortOf(again, Survivors(rule, s, |s|))
    ensures Survivors(rule, again, |again|) == Survivors(rule, s, |s|)
  {
    var r := Survivors(rule, s, |s|);
    ResultIsSeparate(rule, ds, s);
    DistinctSurvivors(rule, s);
    OneSort(r, again);
    SeparateSurvives(rule, r, |r|);
    assert r[..|r|] == r;
  }

  /** With ties too a second run drops nothing, as long as overlap does not depend on the order. */
  lemma SecondRunDropsNothing(rule: Rule, ds: seq<Detection>, s: seq<Detection>, again: seq<Detection>)
    requires SortOf(s, ds) && SortOf(again, Survivors(rule, s, |s|))
    requires forall a, b :: rule.iou(a, b) == rule.iou(b, a)
    ensures Survivors(rule, again, |again|) == again
  {
    var r := Survivors(rule, s, |s|);
    ResultIsSeparate(rule, ds, s);
    forall i, j | 0 <= i < j < |again| ensures !Overlaps(rule, again[i], again[j]) {
      PairStaysSeparate(rule, r, again, i, j);
    }
    SeparateSurvives(rule, again, |again|);
    assert again[..|again|] == again;
  }

  lemma PairStaysSeparate(rule: Rule, r: seq<Detection>, again: seq<Detection>, i: nat, j: nat)
    requires Separate(rule, r) && multiset(again) == multiset(r) && i < j < |again|
    requires forall a, b :: rule.iou(a, b) == rule.iou(b, a)
    ensures !Overlaps(rule, again[i], again[j])
  {
    var a := MemberOf(again, r, i);
    var b := MemberOf(again, r, j);
    if a == b {
      TwiceInBoth(again, r, i, j, a);
    }
  }

  lemma TwiceInBoth(s: seq<Detection>, t: seq<Detection>, i: nat, j: nat, a: nat)
    requires i < j < |s| && multiset(s) == multiset(t) && a < |t| && s[i] == s[j] == t[a]
    ensures exists b: nat :: b < |t| && b != a && t[b] == t[a]
  {
    assert s == s[..i] + [s[i]] + s[i + 1..];
    assert s[j] in s[i + 1..];
    assert multiset(s)[s[i]] >= 2;
    assert t == t[..a] + [t[a]] + t[a + 1..];
    assert t[a] in multiset(t[..a] + t[a + 1..]);
    assert t[a] in t[..a] + t[a + 1..];
    var k :| 0 <= k < |t[..a] + t[a + 1..]| && (t[..a] + t[a + 1..])[k] == t[a];
    assert t[if k < a then k else k + 1] == t[a];
  }

  /** With distinct confidences the result does not depend on the order of the input. */
  lemma OrderDoesNotMatter(rule: Rule, ds: seq<Detection>, es: seq<Detection>, s: seq<Detection>, t: seq<Detection>)
    requires multiset(ds) == multiset(es) && SortOf(s, ds) && SortOf(t, es) && DistinctConfidences(s)
    ensures Survivors(rule, s, |s|) == Survivors(rule, t, |t|)
  {
    OneSort(s, t);
  }
}
