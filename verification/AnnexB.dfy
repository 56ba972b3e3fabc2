/** The Annex B scanner (src/h264_bitstream.cpp) and the byte streams it reads. */
module AnnexB {
  import opened Basics

  datatype NalSummary = NalSummary(hasIdr: bool, hasSps: bool, hasPps: bool)

  // ----- What a byte stream says -----

  /** The three-byte start code, which also ends every four-byte one. */
  predicate CodeAt(d: seq<Byte>, o: nat) {
    o + 3 <= |d| && d[o] == 0 && d[o + 1] == 0 && d[o + 2] == 1
  }

  /** A start code followed by a header byte. */
  predicate StartsAt(d: seq<Byte>, o: nat) {
    o + 3 < |d| && CodeAt(d, o)
  }

  /** A start, unless its first byte is already the header of the start three bytes before. */
  predicate Recognised(d: seq<Byte>, o: nat) {
    StartsAt(d, o) && (o >= 3 ==> !Recognised(d, o - 3))
  }

  function TypeAt(d: seq<Byte>, o: nat): nat
    requires StartsAt(d, o)
  {
    d[o + 3] % 32
  }

  predicate Reports(d: seq<Byte>, kind: nat, before: int) {
    exists o: nat | o < before :: Recognised(d, o) && TypeAt(d, o) == kind
  }

  /** The scanner's flags name exactly the recognised types: none without a start code and a header. */
  predicate Summarises(d: seq<Byte>, s: NalSummary, before: int) {
    && (s.hasIdr <==> Reports(d, 5, before))
    && (s.hasSps <==> Reports(d, 7, before))
    && (s.hasPps <==> Reports(d, 8, before))
  }

  // ----- The scanner -----

  function StartCodeLength(d: seq<Byte>, offset: nat): nat {
    if offset + 3 <= |d| && d[offset] == 0 && d[offset + 1] == 0 && d[offset + 2] == 1 then 3
    else if offset + 4 <= |d| && d[offset] == 0 && d[offset + 1] == 0 && d[offset + 2] == 0 && d[offset + 3] == 1 then 4
    else 0
  }

  /** Every start recognised before `offset` lies with its header before it. */
  ghost predicate Behind(d: seq<Byte>, offset: nat) {
    forall o: nat | o < offset :: Recognised(d, o) ==> o + 4 <= offset
  }

  lemma SkipOne(d: seq<Byte>, offset: nat, s: NalSummary)
    requires Summarises(d, s, offset) && Behind(d, offset) && !CodeAt(d, offset)
    ensures Summarises(d, s, offset + 1) && Behind(d, offset + 1)
  {
    assert !Recognised(d, offset);
  }

  /** A start at `at`, not overlapped by an earlier one, and where the scan goes on after it. */
  lemma TakeStart(d: seq<Byte>, offset: nat, at: nat, s: NalSummary, s': NalSummary)
    requires Summarises(d, s, offset) && Behind(d, offset) && StartsAt(d, at)
    requires at == offset || (at == offset + 1 && !CodeAt(d, offset))
    requires s' == NalSummary(s.hasIdr || TypeAt(d, at) == 5, s.hasSps || TypeAt(d, at) == 7,
                              s.hasPps || TypeAt(d, at) == 8)
    ensures Summarises(d, s', at + 4) && Behind(d, at + 4)
  {
    assert Recognised(d, at) by {
      assert at >= 3 ==> !Recognised(d, at - 3);
    }
    forall o: nat | offset <= o < at + 4 && o != at ensures !Recognised(d, o) {
      if o == at + 3 {
        assert !Recognised(d, o);
      } else if o > at {
        assert !CodeAt(d, o);
      }
    }
    OneMore(d, 5, offset, at);
    OneMore(d, 7, offset, at);
    OneMore(d, 8, offset, at);
  }

  lemma OneMore(d: seq<Byte>, kind: nat, offset: nat, at: nat)
    requires offset <= at && Recognised(d, at)
    requires forall o: nat | offset <= o < at + 4 && o != at :: !Recognised(d, o)
    ensures Reports(d, kind, at + 4) <==> Reports(d, kind, offset) || TypeAt(d, at) == kind
  {
  }

  lemma NothingLeft(d: seq<Byte>, offset: nat, s: NalSummary)
    requires Summarises(d, s, offset)
    requires forall o: nat | o >= offset :: !Recognised(d, o)
    ensures Summarises(d, s, |d|)
  {
    forall kind: nat ensures Reports(d, kind, offset) <==> Reports(d, kind, |d|) {
    }
  }

  method InspectH264ByteStream(data: Option<seq<Byte>>) returns (summary: NalSummary)
    ensures data.None? ==> summary == NalSummary(false, false, false)
    ensures data.Some? ==> Summarises(data.value, summary, |data.value|)
  {
    summary := NalSummary(false, false, false);
    if data.None? {
      return;
    }
    var d := data.value;
    if |d| < 4 {
      return;
    }
    var offset := 0;
    while offset + 3 < |d|
      invariant Summarises(d, summary, offset) && Behind(d, offset)
      decreases |d| - offset
    {
      var prefix := StartCodeLength(d, offset);
      if prefix == 0 {
        SkipOne(d, offset, summary);
        offset := offset + 1;
        continue;
      }
      var header := offset + prefix;
      if header >= |d| {
        assert forall o: nat | o >= offset :: !StartsAt(d, o);
        break;
      }
      var kind := d[header] % 32;
      ghost var before := summary;
      summary := NalSummary(summary.hasIdr || kind == 5, summary.hasSps || kind == 7, summary.hasPps || kind == 8);
      TakeStart(d, offset, header - 3, before, summary);
      offset := header + 1;
    }
    assert forall o: nat | o >= offset :: !StartsAt(d, o);
    NothingLeft(d, offset, summary);
  }

  // ----- Serialisation -----

  /** A NAL unit and whether its start code is the four-byte one. */
  datatype NalUnit = NalUnit(bytes: seq<Byte>, long: bool)

  /** Emulation prevention keeps start codes out of a unit. */
  ghost predicate Clean(u: NalUnit) {
    forall o: nat :: !CodeAt(u.bytes, o)
  }

  ghost predicate AllClean(units: seq<NalUnit>) {
    forall k | 0 <= k < |units| :: Clean(units[k])
  }

  function Prefix(u: NalUnit): seq<Byte> {
    if u.long then [0, 0, 0, 1] else [0, 0, 1]
  }

  function Serialise(units: seq<NalUnit>): seq<Byte> {
    if units == [] then [] else Prefix(units[0]) + units[0].bytes + Serialise(units[1..])
  }

  /** Where the three-byte start code of unit `k` begins. */
  function Position(units: seq<NalUnit>, k: nat): nat
    requires k < |units|
  {
    if k == 0 then |Prefix(units[0])| - 3
    else |Prefix(units[0])| + |units[0].bytes| + Position(units[1..], k - 1)
  }

  // ----- The starts of a stream are those of its units -----

  predicate Leads(rest: seq<Byte>) {
    rest == [] || (|rest| >= 3 && rest[0] == 0 && rest[1] == 0)
  }

  lemma SerialiseLeads(units: seq<NalUnit>)
    ensures Leads(Serialise(units)) && (Serialise(units) == [] <==> units == [])
  {
  }

  lemma StartsOfFirst(u: NalUnit, rest: seq<Byte>, o: nat)
    requires Clean(u) && Leads(rest)
    ensures var n, d := |Prefix(u)| + |u.bytes|, Prefix(u) + u.bytes + rest;
      StartsAt(d, o) <==> (o == |Prefix(u)| - 3 && o + 3 < |d|) || (o >= n && StartsAt(rest, o - n))
  {
    var p := |Prefix(u)|;
    var d := Prefix(u) + u.bytes + rest;
    if p <= o && o + 3 <= p + |u.bytes| {
      assert !CodeAt(u.bytes, o - p);
      assert d[o] == u.bytes[o - p] && d[o + 1] == u.bytes[o - p + 1] && d[o + 2] == u.bytes[o - p + 2];
    }
  }

  /** Only a unit's own code is a start, and it is one unless the stream ends there. */
  lemma {:induction false} StartsAreUnits(units: seq<NalUnit>, o: nat)
    requires AllClean(units)
    ensures var d := Serialise(units);
      StartsAt(d, o) <==> o + 3 < |d| && SomeAt(units, o)
    decreases |units|
  {
    if units != [] {
      var u, rest := units[0], units[1..];
      var n := |Prefix(u)| + |u.bytes|;
      SerialiseLeads(rest);
      StartsOfFirst(u, Serialise(rest), o);
      if o >= n {
        StartsAreUnits(rest, o - n);
      }
      PositionsOfRest(units, o);
    }
  }

  predicate SomeAt(units: seq<NalUnit>, o: int) {
    exists k | 0 <= k < |units| :: Position(units, k) == o
  }

  lemma PositionsOfRest(units: seq<NalUnit>, o: nat)
    requires units != []
    ensures var n := |Prefix(units[0])| + |units[0].bytes|;
      SomeAt(units, o) <==> o == |Prefix(units[0])| - 3 || SomeAt(units[1..], o - n)
  {
    var n, rest := |Prefix(units[0])| + |units[0].bytes|, units[1..];
    if k :| 0 <= k < |units| && Position(units, k) == o {
      if k > 0 {
        assert Position(rest, k - 1) == o - n;
        assert SomeAt(rest, o - n);
      }
    }
    if o == |Prefix(units[0])| - 3 {
      assert Position(units, 0) == o;
    }
    if k :| 0 <= k < |rest| && Position(rest, k) == o - n {
      assert Position(units, k + 1) == o;
    }
  }

  /** What follows unit `k`'s start code: its header, or the next start code's first byte. */
  lemma {:induction false} HeaderOf(units: seq<NalUnit>, k: nat)
    requires k < |units|
    ensures var d, o := Serialise(units), Position(units, k) + 3;
      && (o < |d| <==> units[k].bytes != [] || k + 1 < |units|)
      && (o < |d| ==> d[o] == if units[k].bytes != [] then units[k].bytes[0] else 0)
    decreases |units|
  {
    var rest := units[1..];
    SerialiseLeads(rest);
    if k > 0 {
      HeaderOf(rest, k - 1);
    }
  }

  lemma {:induction false} NextPosition(units: seq<NalUnit>, k: nat)
    requires 0 < k < |units|
    ensures Position(units, k) == Position(units, k - 1) + |units[k - 1].bytes| + |Prefix(units[k])|
    decreases k
  {
    if k > 1 {
      NextPosition(units[1..], k - 1);
    }
  }

  /** Two starts are three bytes apart only around an empty unit, and never less. */
  lemma {:induction false} PositionsApart(units: seq<NalUnit>, j: nat, k: nat)
    requires j < k < |units|
    ensures Position(units, j) + 3 <= Position(units, k)
    ensures Position(units, j) + 3 == Position(units, k) <==> j + 1 == k && units[j].bytes == [] && !units[k].long
    decreases k
  {
    NextPosition(units, k);
    if j + 1 < k {
      PositionsApart(units, j, k - 1);
    }
  }

  // ----- What the scan makes of it -----

  /** After an empty unit that is not itself hidden, the first byte of a three-byte code is taken for the
      missing header. */
  predicate Hidden(units: seq<NalUnit>, k: nat)
    requires k < |units|
  {
    k > 0 && !units[k].long && units[k - 1].bytes == [] && !Hidden(units, k - 1)
  }

  lemma {:induction false} RecognisedUnless(units: seq<NalUnit>, k: nat)
    requires AllClean(units) && k < |units|
    ensures var d, o := Serialise(units), Position(units, k);
      Recognised(d, o) <==> o + 3 < |d| && !Hidden(units, k)
    decreases k
  {
    var d, o := Serialise(units), Position(units, k);
    StartsAreUnits(units, o);
    if o >= 3 {
      StartsAreUnits(units, o - 3);
      OnlyPredecessor(units, k);
    }
    if k > 0 {
      RecognisedUnless(units, k - 1);
      PositionsApart(units, k - 1, k);
    }
  }

  lemma OnlyPredecessor(units: seq<NalUnit>, k: nat)
    requires k < |units| && Position(units, k) >= 3
    ensures SomeAt(units, Position(units, k) - 3) <==> k > 0 && units[k - 1].bytes == [] && !units[k].long
  {
    var o := Position(units, k) - 3;
    if j :| 0 <= j < |units| && Position(units, j) == o {
      if j < k {
        PositionsApart(units, j, k);
      } else if k < j {
        PositionsApart(units, k, j);
      }
    }
    if k > 0 && units[k - 1].bytes == [] && !units[k].long {
      PositionsApart(units, k - 1, k);
      assert Position(units, k - 1) == o;
    }
  }

  /** Some unit of this type is there for the scan to see. */
  ghost predicate ShowsUnit(units: seq<NalUnit>, kind: nat) {
    exists k | 0 <= k < |units| :: units[k].bytes != [] && !Hidden(units, k) && units[k].bytes[0] % 32 == kind
  }

  lemma ReportedIsShown(units: seq<NalUnit>, kind: nat, o: nat)
    requires AllClean(units) && kind != 0
    requires Recognised(Serialise(units), o) && TypeAt(Serialise(units), o) == kind
    ensures ShowsUnit(units, kind)
  {
    StartsAreUnits(units, o);
    var k :| 0 <= k < |units| && Position(units, k) == o;
    RecognisedUnless(units, k);
    HeaderOf(units, k);
    assert units[k].bytes != [] && !Hidden(units, k) && units[k].bytes[0] % 32 == kind;
  }

  lemma ShownIsReported(units: seq<NalUnit>, k: nat)
    requires AllClean(units) && k < |units| && units[k].bytes != [] && !Hidden(units, k)
    ensures var d, o := Serialise(units), Position(units, k);
      o < |d| && Recognised(d, o) && TypeAt(d, o) == units[k].bytes[0] % 32
  {
    RecognisedUnless(units, k);
    HeaderOf(units, k);
  }

  lemma ReportsShown(units: seq<NalUnit>, kind: nat)
    requires AllClean(units) && kind != 0
    ensures var d := Serialise(units);
      Reports(d, kind, |d|) <==> ShowsUnit(units, kind)
  {
    var d := Serialise(units);
    if o: nat :| o < |d| && Recognised(d, o) && TypeAt(d, o) == kind {
      ReportedIsShown(units, kind, o);
    }
    if k :| 0 <= k < |units| && units[k].bytes != [] && !Hidden(units, k) && units[k].bytes[0] % 32 == kind {
      ShownIsReported(units, k);
    }
  }

  /** For any list of units without start codes inside, empty ones allowed, joined by any mix of three- and
      four-byte start codes, the flags say exactly which of types 5, 7 and 8 a unit that is not hidden has. */
  lemma ScanShowsUnits(units: seq<NalUnit>, s: NalSummary)
    requires AllClean(units) && Summarises(Serialise(units), s, |Serialise(units)|)
    ensures s == NalSummary(ShowsUnit(units, 5), ShowsUnit(units, 7), ShowsUnit(units, 8))
  {
    ReportsShown(units, 5);
    ReportsShown(units, 7);
    ReportsShown(units, 8);
  }

  ghost predicate HasUnit(units: seq<NalUnit>, kind: nat) {
    exists k | 0 <= k < |units| :: units[k].bytes != [] && units[k].bytes[0] % 32 == kind
  }

  /** The scan inverts serialisation: when every unit has a header, the flags say exactly which of types 5, 7
      and 8 occur. */
  lemma ScanInvertsSerialise(units: seq<NalUnit>, s: NalSummary)
    requires AllClean(units) && forall k | 0 <= k < |units| :: units[k].bytes != []
    requires Summarises(Serialise(units), s, |Serialise(units)|)
    ensures s == NalSummary(HasUnit(units, 5), HasUnit(units, 7), HasUnit(units, 8))
  {
    ScanShowsUnits(units, s);
    forall k | 0 <= k < |units| ensures !Hidden(units, k) {
    }
    NothingHidden(units, 5);
    NothingHidden(units, 7);
    NothingHidden(units, 8);
  }

  lemma NothingHidden(units: seq<NalUnit>, kind: nat)
    requires forall k | 0 <= k < |units| :: !Hidden(units, k)
    ensures ShowsUnit(units, kind) == HasUnit(units, kind)
  {
    if HasUnit(units, kind) {
      var k :| 0 <= k < |units| && units[k].bytes != [] && units[k].bytes[0] % 32 == kind;
      assert !Hidden(units, k);
    }
  }

  /** The shortest case: one empty unit hides a unit with a three-byte start code; two do not. */
  lemma EmptyUnitHidesTheNext(first: bool, second: bool, u: NalUnit, kind: nat)
    requires Clean(u) && u.bytes != [] && kind == u.bytes[0] % 32 && kind != 0
    ensures var d := Serialise([NalUnit([], first), u]);
      Reports(d, kind, |d|) <==> u.long
    ensures var d := Serialise([NalUnit([], first), NalUnit([], second), u]);
      Reports(d, kind, |d|) <==> u.long || !second
  {
    var one, two := [NalUnit([], first), u], [NalUnit([], first), NalUnit([], second), u];
    assert Clean(NalUnit([], first)) && Clean(NalUnit([], second));
    assert Hidden(one, 1) <==> !u.long;
    assert Hidden(two, 1) <==> !second;
    assert Hidden(two, 2) <==> !u.long && second;
    ReportsShown(one, kind);
    ReportsShown(two, kind);
    assert one[1] == u && two[2] == u;
  }
}
