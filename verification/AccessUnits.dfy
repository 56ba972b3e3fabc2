/** Encoded H.264 access units, shared by the ring, the event recorder and the RTSP feeder
    (include/eggvision/encoded_access_unit.hpp). */
module AccessUnits {
  import opened Basics

  datatype Unit = Unit(
    sensorTs: U64,
    generation: U64,
    keyframe: bool,
    hasSps: bool,
    hasPps: bool,
    payload: Option<seq<Byte>>)
  {
    function SizeBytes(): nat {
      if payload.Some? then |payload.value| else 0
    }

    predicate IndependentlyDecodable() {
      keyframe && hasSps && hasPps
    }
  }

  /** Sensor timestamps never decrease. */
  ghost predicate Ordered(s: seq<Unit>) {
    forall i, j :: 0 <= i < j < |s| ==> s[i].sensorTs <= s[j].sensorTs
  }

  ghost predicate StrictlyOrdered(s: seq<Unit>) {
    forall i, j :: 0 <= i < j < |s| ==> s[i].sensorTs < s[j].sensorTs
  }

  /** All units come from encoder generation `g`. */
  ghost predicate OfGeneration(s: seq<Unit>, g: nat) {
    forall i :: 0 <= i < |s| ==> s[i].generation == g
  }

  ghost predicate IsSuffix(s: seq<Unit>, t: seq<Unit>) {
    |s| <= |t| && s == t[|t| - |s|..]
  }

  lemma SuffixTransitive(a: seq<Unit>, b: seq<Unit>, c: seq<Unit>)
    requires IsSuffix(a, b) && IsSuffix(b, c)
    ensures IsSuffix(a, c)
  {
  }
}
