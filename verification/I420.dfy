/** src/i420.cpp on a machine whose size_t holds values up to `max`. Every result the source computes
    in size_t goes through SizeT, whose precondition is that it does not wrap around. */
module I420 {
  import opened Basics
  import opened I420Layout

  const U32_MAX: nat := 0xFFFF_FFFF

  function SizeT(max: nat, x: int): nat
    requires 0 <= x <= max
  {
    x
  }

  // ----- Checked arithmetic -----

  lemma QuotientBound(left: nat, right: nat, max: nat)
    requires left > 0
    ensures right <= max / left <==> left * right <= max
  {
    var q := max / left;
    assert max == left * q + max % left;
    if right <= q {
      Monotone(right, q, left);
    } else {
      Monotone(q + 1, right, left);
    }
  }

  method CheckedMultiply(max: nat, left: nat, right: nat) returns (result: Option<nat>)
    ensures result.Some? <==> left * right <= max
    ensures result.Some? ==> result.value == left * right
  {
    if left != 0 {
      QuotientBound(left, right, max);
    }
    if left != 0 && right > max / left {
      return None;
    }
    result := Some(SizeT(max, left * right));
  }

  datatype Sizes = Sizes(y: nat, chroma: nat, total: nat)

  method CalculateSizes(max: nat, view: StreamView) returns (sizes: Option<Sizes>)
    ensures sizes.Some? <==> EvenSize(view) && FrameSize(view) <= max
    ensures sizes.Some? ==> sizes.value == Sizes(LumaSize(view), ChromaSize(view), FrameSize(view))
  {
    if view.width == 0 || view.height == 0 || view.width % 2 != 0 || view.height % 2 != 0 {
      return None;
    }
    QuarterIsChroma(view);
    var y := CheckedMultiply(max, view.width, view.height);
    if y.None? {
      return None;
    }
    var chroma := y.value / 4;
    if chroma > (max - y.value) / 2 {
      return None;
    }
    sizes := Some(Sizes(y.value, chroma, SizeT(max, y.value + SizeT(max, 2 * chroma))));
  }

  method RequiredRowSpan(max: nat, rows: U32, width: U32, stride: U32) returns (span: Option<nat>)
    ensures span.Some? <==> rows > 0 && width > 0 && stride >= width && RowSpan(rows, width, stride) <= max
    ensures span.Some? ==> span.value == RowSpan(rows, width, stride)
  {
    if rows == 0 || width == 0 || stride < width {
      return None;
    }
    var offset := CheckedMultiply(max, rows - 1, stride);
    if offset.None? || width > max - offset.value {
      return None;
    }
    span := Some(SizeT(max, offset.value + width));
  }

  method ContainsBytes(plane: PlaneView, required: nat) returns (inside: bool)
    ensures inside == Contains(plane, required)
  {
    if plane.data.None? || required > plane.length || required > plane.bytesUsed {
      return false;
    }
    if plane.mapping.None? {
      return true;
    }
    var base, data := plane.mapping.value, plane.data.value;
    if data < base || data - base > plane.mappedLength {
      return false;
    }
    var offset := data - base;
    inside := required <= plane.mappedLength - offset;
  }

  // ----- Zero copy -----

  datatype CompactStatus =
    | Compatible | InvalidDimensions | UnexpectedPlaneCount | UnexpectedStride | InvalidFileDescriptor
    | DifferentFileDescriptors | MissingMapping | InconsistentMapping | NonCompactOffsets
    | PlaneTooShort | PayloadTooShort | MappingTooShort

  /** The requirements in the order they are checked, numbered from 1. */
  predicate Requirement(view: StreamView, max: nat, k: nat) {
    if k <= 1 then EvenSize(view) && FrameSize(view) <= max
    else if k == 2 then |view.planes| == 3
    else if k == 3 then view.stride == view.width
    else |view.planes| == 3 && PlaneRequirement(view, view.planes[0], view.planes[1], view.planes[2], k)
  }

  predicate PlaneRequirement(view: StreamView, y: PlaneView, u: PlaneView, v: PlaneView, k: nat) {
    if k == 4 then y.fd >= 0 && u.fd >= 0 && v.fd >= 0
    else if k == 5 then u.fd == y.fd && v.fd == y.fd
    else if k == 6 then
      && y.data.Some? && u.data.Some? && v.data.Some?
      && y.mapping.Some? && u.mapping.Some? && v.mapping.Some?
    else if k == 7 then u.mapping == y.mapping == v.mapping && u.mappedLength == y.mappedLength == v.mappedLength
    else if k == 8 then y.offset == 0 && u.offset == LumaSize(view) && v.offset == LumaSize(view) + ChromaSize(view)
    else if k == 9 then y.length >= LumaSize(view) && u.length >= ChromaSize(view) && v.length >= ChromaSize(view)
    else if k == 10 then
      y.bytesUsed >= LumaSize(view) && u.bytesUsed >= ChromaSize(view) && v.bytesUsed >= ChromaSize(view)
    else if k == 11 then view.frameSize >= FrameSize(view) && y.mappedLength >= FrameSize(view)
    else
      y.mapping.Some? && y.data == y.mapping && u.data == Some(y.mapping.value + LumaSize(view))
      && v.data == Some(y.mapping.value + LumaSize(view) + ChromaSize(view))
  }

  /** What a view that fails requirement `k` first is told. */
  function StatusOf(k: nat): CompactStatus {
    if k == 0 then Compatible else if k == 1 then InvalidDimensions else if k == 2 then UnexpectedPlaneCount
    else if k == 3 then UnexpectedStride else if k == 4 then InvalidFileDescriptor
    else if k == 5 then DifferentFileDescriptors else if k == 6 then MissingMapping
    else if k == 7 then InconsistentMapping else if k == 8 then NonCompactOffsets else if k == 9 then PlaneTooShort
    else if k == 10 then PayloadTooShort else if k == 11 then MappingTooShort else InconsistentMapping
  }

  ghost predicate FailsFirst(view: StreamView, max: nat, k: nat) {
    k <= 12 && !Requirement(view, max, k) && forall j: nat | 1 <= j < k :: Requirement(view, max, j)
  }

  /** A status other than Compatible is that of the first requirement that fails. */
  ghost predicate Verdict(view: StreamView, max: nat, status: CompactStatus) {
    && (status.Compatible? <==> Compact(view))
    && (!status.Compatible? ==> exists k: nat | 1 <= k <= 12 :: FailsFirst(view, max, k) && status == StatusOf(k))
  }

  method InspectCompactI420(max: nat, view: StreamView)
    returns (status: CompactStatus, data: Option<nat>, size: nat)
    requires max >= U32_MAX
    ensures Verdict(view, max, status)
    ensures status.Compatible? ==> data == view.planes[0].data && size == FrameSize(view)
  {
    data, size := None, 0;
    var sizes := CalculateSizes(max, view);
    if sizes.None? {
      assert FailsFirst(view, max, 1);
      return InvalidDimensions, None, 0;
    }
    if |view.planes| != 3 {
      assert FailsFirst(view, max, 2);
      return UnexpectedPlaneCount, None, 0;
    }
    if view.stride != view.width {
      assert FailsFirst(view, max, 3);
      return UnexpectedStride, None, 0;
    }
    status := InspectPlanes(max, view, sizes.value);
    if status == Compatible {
      data, size := view.planes[0].data, sizes.value.total;
    }
  }

  /** The checks on the three planes. */
  method InspectPlanes(max: nat, view: StreamView, sizes: Sizes) returns (status: CompactStatus)
    requires EvenSize(view) && FrameSize(view) <= max && |view.planes| == 3 && view.stride == view.width
    requires sizes == Sizes(LumaSize(view), ChromaSize(view), FrameSize(view))
    ensures Verdict(view, max, status)
  {
    var y, u, v := view.planes[0], view.planes[1], view.planes[2];
    if y.fd < 0 || u.fd < 0 || v.fd < 0 {
      assert FailsFirst(view, max, 4);
      return InvalidFileDescriptor;
    }
    if y.fd != u.fd || y.fd != v.fd {
      assert FailsFirst(view, max, 5);
      return DifferentFileDescriptors;
    }
    if y.data.None? || u.data.None? || v.data.None? || y.mapping.None? || u.mapping.None? || v.mapping.None? {
      assert FailsFirst(view, max, 6);
      return MissingMapping;
    }
    if y.mapping != u.mapping || y.mapping != v.mapping
       || y.mappedLength != u.mappedLength || y.mappedLength != v.mappedLength
    {
      assert FailsFirst(view, max, 7);
      return InconsistentMapping;
    }
    var redOffset := SizeT(max, sizes.y + sizes.chroma);
    if y.offset != 0 || u.offset != sizes.y || v.offset != redOffset {
      assert FailsFirst(view, max, 8);
      return NonCompactOffsets;
    }
    if y.length < sizes.y || u.length < sizes.chroma || v.length < sizes.chroma {
      assert FailsFirst(view, max, 9);
      return PlaneTooShort;
    }
    if y.bytesUsed < sizes.y || u.bytesUsed < sizes.chroma || v.bytesUsed < sizes.chroma {
      assert FailsFirst(view, max, 10);
      return PayloadTooShort;
    }
    if view.frameSize < sizes.total || y.mappedLength < sizes.total {
      assert FailsFirst(view, max, 11);
      return MappingTooShort;
    }
    if y.data != y.mapping || u.data.value != y.mapping.value + sizes.y
       || v.data.value != y.mapping.value + sizes.y + sizes.chroma
    {
      assert FailsFirst(view, max, 12);
      return InconsistentMapping;
    }
    return Compatible;
  }

  // ----- Copy -----

  /** `s` with `t` written over it from `to` on. */
  function Written(s: seq<Byte>, to: nat, t: seq<Byte>): seq<Byte>
    requires to + |t| <= |s|
  {
    s[..to] + t + s[to + |t|..]
  }

  lemma WrittenOn(s: seq<Byte>, to: nat, a: seq<Byte>, b: seq<Byte>)
    requires to + |a| + |b| <= |s|
    ensures Written(Written(s, to, a), to + |a|, b) == Written(s, to, a + b)
  {
  }

  /** std::copy_n */
  method CopyRow(target: array<Byte>, to: nat, mem: Memory, from: nat, n: nat)
    requires to + n <= target.Length && Readable(mem, from, n)
    modifies target
    ensures target[..] == Written(old(target[..]), to, Span(mem, from, n))
  {
    forall i | 0 <= i < n {
      target[to + i] := mem[from + i];
    }
  }

  lemma RowFits(rows: nat, row: nat, width: nat, stride: nat)
    requires row < rows
    ensures 0 <= row * width && row * width + width == (row + 1) * width <= rows * width
    ensures 0 <= row * stride <= RowSpan(rows, width, stride)
  {
    Monotone(row + 1, rows, width);
    Monotone(row, rows - 1, stride);
  }

  /** One turn of copyRows: the rows written so far and the next one are the rows up to the next. */
  lemma OneMoreRow(was: seq<Byte>, to: nat, mem: Memory, from: nat, row: nat, width: nat, stride: nat,
                   start: nat, source: nat)
    requires RowsReadable(mem, from, row + 1, width, stride) && start + width <= |was|
    requires start == to + row * width && source == from + row * stride
    ensures RowsReadable(mem, from, row, width, stride) && Readable(mem, source, width)
    ensures to + (row + 1) * width <= |was|
    ensures Written(Written(was, to, Rows(mem, from, row, width, stride)), start, Span(mem, source, width))
         == Written(was, to, Rows(mem, from, row + 1, width, stride))
  {
    WrittenOn(was, to, Rows(mem, from, row, width, stride), Span(mem, source, width));
  }

  method CopyRows(max: nat, target: array<Byte>, to: nat, mem: Memory, from: nat, rows: U32, width: U32, stride: U32)
    requires RowsReadable(mem, from, rows, width, stride)
    requires to + rows * width <= target.Length <= max
    requires rows > 0 ==> RowSpan(rows, width, stride) <= max
    modifies target
    ensures target[..] == Written(old(target[..]), to, Rows(mem, from, rows, width, stride))
  {
    ghost var was := target[..];
    var row := 0;
    while row < rows
      invariant 0 <= row <= rows && to + row * width <= |was|
      invariant target[..] == Written(was, to, Rows(mem, from, row, width, stride))
    {
      RowFits(rows, row, width, stride);
      var source := from + SizeT(max, row * stride);
      var start := to + SizeT(max, row * width);
      OneMoreRow(was, to, mem, from, row, width, stride, start, source);
      CopyRow(target, start, mem, source, width);
      row := row + 1;
    }
  }

  datatype CopyError = InvalidLayout | RowSpanOverflow | PlaneSpanOverflow | ShortForStride | ShortForRows | PlaneCount

  predicate Shaped(max: nat, view: StreamView) {
    && EvenSize(view) && FrameSize(view) <= max && view.stride >= view.width && view.stride % 2 == 0
    && view.planes != []
  }

  predicate SpansFitSizeT(max: nat, view: StreamView)
    requires EvenSize(view)
  {
    && RowSpan(view.height, view.width, view.stride) <= max
    && RowSpan(view.height / 2, view.width / 2, view.stride / 2) <= max
  }

  function Block(view: StreamView): nat {
    LumaBlock(view) + 2 * ChromaBlock(view)
  }

  /** When each error is given; no two of these hold together. */
  predicate Explains(max: nat, view: StreamView, error: CopyError) {
    if error == InvalidLayout then !Shaped(max, view)
    else
      && Shaped(max, view)
      && if error == RowSpanOverflow then !SpansFitSizeT(max, view)
         else
           && SpansFitSizeT(max, view)
           && match error
              case PlaneSpanOverflow => |view.planes| == 1 && Block(view) > max
              case ShortForStride => |view.planes| == 1 && Block(view) <= max && !OnePlane(view)
              case ShortForRows => |view.planes| == 3 && !ThreePlanes(view)
              case _ => |view.planes| != 1 && |view.planes| != 3
  }

  datatype Origins = Origins(y: nat, u: nat, v: nat)

  /** copyMappedI420 up to its resize: where the three planes start, or why there is no copy. */
  method LocatePlanes(max: nat, view: StreamView, sizes: Option<Sizes>) returns (error: Option<CopyError>, at: Origins)
    requires max >= U32_MAX
    requires sizes.Some? <==> EvenSize(view) && FrameSize(view) <= max
    ensures error.None? <==> Copyable(view) && FrameSize(view) <= max
    ensures error.None? ==> at == Origins(LumaAt(view), BlueAt(view), RedAt(view))
    ensures error.Some? ==> Explains(max, view, error.value)
  {
    at := Origins(0, 0, 0);
    if sizes.None? || view.stride < view.width || view.stride % 2 != 0 || view.planes == [] {
      return Some(InvalidLayout), at;
    }
    var luma := RequiredRowSpan(max, view.height, view.width, view.stride);
    if luma.None? {
      SpanOverflows(max, view);
      return Some(RowSpanOverflow), at;
    }
    var chroma := RequiredRowSpan(max, view.height / 2, view.width / 2, view.stride / 2);
    if chroma.None? {
      SpanOverflows(max, view);
      return Some(RowSpanOverflow), at;
    }
    if |view.planes| == 1 {
      error, at := LocateInOne(max, view);
    } else if |view.planes| == 3 {
      var inside := ContainsBytes(view.planes[0], luma.value);
      var insideBlue := ContainsBytes(view.planes[1], chroma.value);
      var insideRed := ContainsBytes(view.planes[2], chroma.value);
      if !inside || !insideBlue || !insideRed {
        return Some(ShortForRows), at;
      }
      at := Origins(view.planes[0].data.value, view.planes[1].data.value, view.planes[2].data.value);
      error := None;
    } else {
      error := Some(PlaneCount);
    }
  }

  /** A span that overflows size_t does not fit a plane either, whose length is 32 bits. */
  lemma SpanOverflows(max: nat, view: StreamView)
    requires max >= U32_MAX && EvenSize(view) && view.stride >= view.width
    requires RowSpan(view.height, view.width, view.stride) > max
          || RowSpan(view.height / 2, view.width / 2, view.stride / 2) > max
    ensures !Copyable(view)
  {
    BlockHoldsRows(view.height, view.width, view.stride);
    BlockHoldsRows(view.height / 2, view.width / 2, view.stride / 2);
  }

  method LocateInOne(max: nat, view: StreamView) returns (error: Option<CopyError>, at: Origins)
    requires max >= U32_MAX && EvenSize(view) && view.stride >= view.width && view.stride % 2 == 0
    requires |view.planes| == 1
    ensures error.None? <==> Copyable(view)
    ensures error.None? ==> at == Origins(LumaAt(view), BlueAt(view), RedAt(view))
    ensures error.Some? ==> error.value == if Block(view) > max then PlaneSpanOverflow else ShortForStride
  {
    at := Origins(0, 0, 0);
    var lumaBlock := CheckedMultiply(max, view.stride, view.height);
    if lumaBlock.None? {
      return Some(PlaneSpanOverflow), at;
    }
    var chromaBlock := CheckedMultiply(max, view.stride / 2, view.height / 2);
    if chromaBlock.None? || chromaBlock.value > (max - lumaBlock.value) / 2 {
      return Some(PlaneSpanOverflow), at;
    }
    var required := SizeT(max, lumaBlock.value + SizeT(max, 2 * chromaBlock.value));
    var inside := ContainsBytes(view.planes[0], required);
    if !inside {
      return Some(ShortForStride), at;
    }
    var y := view.planes[0].data.value;
    at := Origins(y, y + lumaBlock.value, y + lumaBlock.value + chromaBlock.value);
    error := None;
  }

  method CopyMappedI420(max: nat, view: StreamView, mem: Memory)
    returns (error: Option<CopyError>, destination: array<Byte>)
    requires max >= U32_MAX && Backed(view, mem)
    ensures fresh(destination)
    ensures error.None? <==> Copyable(view) && FrameSize(view) <= max
    ensures error.None? ==> destination[..] == PackedFrame(view, mem)
    ensures error.Some? ==> destination[..] == [] && Explains(max, view, error.value)
  {
    var sizes := CalculateSizes(max, view);
    var at: Origins;
    error, at := LocatePlanes(max, view, sizes);
    if error.Some? {
      destination := new Byte[0];
      return;
    }
    CopyReadsInBounds(view, mem);
    SpansFit(view);
    QuarterIsChroma(view);
    destination := new Byte[sizes.value.total](_ => 0);
    CopyPlanes(max, view, mem, destination, at, sizes.value);
  }

  lemma SpansFit(view: StreamView)
    requires Copyable(view)
    ensures RowSpan(view.height, view.width, view.stride) <= U32_MAX
    ensures RowSpan(view.height / 2, view.width / 2, view.stride / 2) <= U32_MAX
  {
    BlockHoldsRows(view.height, view.width, view.stride);
    BlockHoldsRows(view.height / 2, view.width / 2, view.stride / 2);
  }

  lemma WrittenThree(s: seq<Byte>, a: seq<Byte>, b: seq<Byte>, c: seq<Byte>)
    requires |s| == |a| + |b| + |c|
    ensures Written(Written(Written(s, 0, a), |a|, b), |a| + |b|, c) == a + b + c
  {
    WrittenOn(s, 0, a, b);
    WrittenOn(s, 0, a + b, c);
    assert Written(s, 0, a + b + c) == a + b + c;
  }

  method CopyPlanes(max: nat, view: StreamView, mem: Memory, target: array<Byte>, at: Origins, sizes: Sizes)
    requires max >= U32_MAX && Copyable(view) && Backed(view, mem) && FrameSize(view) <= max
    requires sizes == Sizes(LumaSize(view), ChromaSize(view), FrameSize(view)) && target.Length == sizes.total
    requires at == Origins(LumaAt(view), BlueAt(view), RedAt(view))
    modifies target
    ensures target[..] == PackedFrame(view, mem)
  {
    CopyReadsInBounds(view, mem);
    SpansFit(view);
    QuarterIsChroma(view);
    ghost var a := Rows(mem, at.y, view.height, view.width, view.stride);
    ghost var b := Rows(mem, at.u, view.height / 2, view.width / 2, view.stride / 2);
    ghost var c := Rows(mem, at.v, view.height / 2, view.width / 2, view.stride / 2);
    WrittenThree(target[..], a, b, c);
    CopyRows(max, target, 0, mem, at.y, view.height, view.width, view.stride);
    CopyRows(max, target, sizes.y, mem, at.u, view.height / 2, view.width / 2, view.stride / 2);
    var red := SizeT(max, sizes.y + sizes.chroma);
    CopyRows(max, target, red, mem, at.v, view.height / 2, view.width / 2, view.stride / 2);
  }

  // ----- The two paths agree -----

  lemma HalfArea(w: nat, h: nat)
    ensures (w / 2) * (h / 2) * 4 <= w * h
  {
    Monotone(2 * (w / 2), w, 2 * (h / 2));
    Monotone(2 * (h / 2), h, w);
    assert (2 * (w / 2)) * (2 * (h / 2)) == (w / 2) * (h / 2) * 4;
  }

  /** Where size_t is wider than 33 bits the copy fails only for its layout, never for its sizes. */
  lemma WideSizesFit(view: StreamView)
    requires Copyable(view)
    ensures FrameSize(view) <= 2 * U32_MAX
  {
    SpansFit(view);
    Monotone(view.width, view.stride, view.height - 1);
    assert LumaSize(view) == (view.height - 1) * view.width + view.width;
    HalfArea(view.width, view.height);
  }

  /** Whenever inspectCompactI420 hands a view out without copying, copyMappedI420 on the same frame
      succeeds and makes exactly the bytes of that view. */
  method PathsAgree(max: nat, view: StreamView, mem: Memory)
    returns (status: CompactStatus, data: Option<nat>, size: nat, error: Option<CopyError>, copied: seq<Byte>)
    requires max >= U32_MAX && Backed(view, mem)
    ensures status.Compatible? ==>
      error.None? && data.Some? && Readable(mem, data.value, size) && copied == Span(mem, data.value, size)
    ensures error.None? ==> Copyable(view) && copied == PackedFrame(view, mem)
  {
    status, data, size := InspectCompactI420(max, view);
    var destination;
    error, destination := CopyMappedI420(max, view, mem);
    copied := destination[..];
    if status.Compatible? {
      ZeroCopyIsTheCopy(view, mem);
    }
  }
}
