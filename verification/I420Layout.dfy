/** Mapped I420 frames (include/eggvision/frame.hpp:13-30): what a layout means, without machine
    arithmetic. Addresses and sizes are naturals here; I420.dfy does the size_t arithmetic. */
module I420Layout {
  import opened Basics

  type U32 = x: int | 0 <= x <= 0xFFFF_FFFF

  /** `data` and `mapping` are addresses; a null pointer is None. */
  datatype PlaneView = PlaneView(
    fd: int, offset: U32, length: U32, bytesUsed: U32,
    data: Option<nat>, mapping: Option<nat>, mappedLength: nat)

  datatype StreamView = StreamView(width: U32, height: U32, stride: U32, frameSize: U32, planes: seq<PlaneView>)

  type Memory = map<nat, Byte>

  predicate Readable(mem: Memory, at: nat, n: nat) {
    forall a: nat | at <= a < at + n :: a in mem
  }

  /** The plane's data has `n` bytes: in its length, in its payload and, when known, in its mapping. */
  predicate Contains(p: PlaneView, n: nat) {
    && p.data.Some? && n <= p.length && n <= p.bytesUsed
    && (p.mapping.Some? ==> p.mapping.value <= p.data.value
                            && p.data.value + n <= p.mapping.value + p.mappedLength)
  }

  /** What the camera owes the callers: the bytes a plane claims to contain can be read. */
  ghost predicate Backed(view: StreamView, mem: Memory) {
    forall i, n: nat | 0 <= i < |view.planes| && Contains(view.planes[i], n) ::
      Readable(mem, view.planes[i].data.value, n)
  }

  // ----- Rows -----

  function RowSpan(rows: nat, width: nat, stride: nat): nat
    requires rows > 0
  {
    (rows - 1) * stride + width
  }

  function Span(mem: Memory, at: nat, n: nat): (s: seq<Byte>)
    requires Readable(mem, at, n)
    ensures |s| == n
  {
    seq(n, i requires 0 <= i < n => mem[at + i])
  }

  lemma Monotone(a: nat, b: nat, c: nat)
    requires a <= b
    ensures a * c <= b * c
  {
  }

  lemma RowInSpan(rows: nat, row: nat, width: nat, stride: nat)
    requires row < rows && width <= stride
    ensures row * stride + width <= RowSpan(rows, width, stride)
  {
    Monotone(row, rows - 1, stride);
  }

  predicate RowsReadable(mem: Memory, at: nat, rows: nat, width: nat, stride: nat) {
    forall row: nat | row < rows :: Readable(mem, at + row * stride, width)
  }

  lemma PartReadable(mem: Memory, at: nat, n: nat, skip: nat, m: nat)
    requires Readable(mem, at, n) && skip + m <= n
    ensures Readable(mem, at + skip, m)
  {
  }

  lemma SpanHoldsRows(mem: Memory, at: nat, rows: nat, width: nat, stride: nat)
    requires rows > 0 && width <= stride && Readable(mem, at, RowSpan(rows, width, stride))
    ensures RowsReadable(mem, at, rows, width, stride)
  {
    forall row: nat | row < rows ensures Readable(mem, at + row * stride, width) {
      RowInSpan(rows, row, width, stride);
      PartReadable(mem, at, RowSpan(rows, width, stride), row * stride, width);
    }
  }

  /** `rows` rows of `width` bytes, `stride` apart, one after the other. */
  function Rows(mem: Memory, at: nat, rows: nat, width: nat, stride: nat): (s: seq<Byte>)
    requires RowsReadable(mem, at, rows, width, stride)
    ensures |s| == rows * width
  {
    if rows == 0 then [] else
    Rows(mem, at, rows - 1, width, stride) + Span(mem, at + (rows - 1) * stride, width)
  }

  function PixelOffset(row: nat, col: nat, stride: nat): nat {
    row * stride + col
  }

  /** Byte `i` of `s` is the one at address `a`. */
  predicate IsByteAt(s: seq<Byte>, i: nat, mem: Memory, a: nat) {
    i < |s| && a in mem && s[i] == mem[a]
  }

  lemma {:induction false} PixelOfRows(mem: Memory, at: nat, rows: nat, width: nat, stride: nat, row: nat, col: nat)
    requires RowsReadable(mem, at, rows, width, stride) && row < rows && col < width
    ensures IsByteAt(Rows(mem, at, rows, width, stride), PixelOffset(row, col, width),
                     mem, at + PixelOffset(row, col, stride))
  {
    if row < rows - 1 {
      PixelOfRows(mem, at, rows - 1, width, stride, row, col);
    } else {
      var from := at + row * stride;
      assert Readable(mem, from, width);
      assert Span(mem, from, width)[col] == mem[from + col];
    }
  }

  /** Rows without padding are one run of bytes. */
  lemma {:induction false} PackedRows(mem: Memory, at: nat, rows: nat, width: nat)
    requires RowsReadable(mem, at, rows, width, width)
    ensures Readable(mem, at, rows * width)
    ensures Rows(mem, at, rows, width, width) == Span(mem, at, rows * width)
  {
    if rows > 0 {
      PackedRows(mem, at, rows - 1, width);
      assert Readable(mem, at + (rows - 1) * width, width);
      assert rows * width == (rows - 1) * width + width;
    }
  }

  // ----- Frames -----

  predicate EvenSize(view: StreamView) {
    view.width > 0 && view.height > 0 && view.width % 2 == 0 && view.height % 2 == 0
  }

  function LumaSize(view: StreamView): nat {
    view.width * view.height
  }

  function ChromaSize(view: StreamView): nat {
    (view.width / 2) * (view.height / 2)
  }

  function FrameSize(view: StreamView): nat {
    LumaSize(view) + 2 * ChromaSize(view)
  }

  /** A single plane holds whole strides of Y, then U, then V. */
  function LumaBlock(view: StreamView): nat {
    view.stride * view.height
  }

  function ChromaBlock(view: StreamView): nat {
    (view.stride / 2) * (view.height / 2)
  }

  predicate OnePlane(view: StreamView) {
    |view.planes| == 1 && Contains(view.planes[0], LumaBlock(view) + 2 * ChromaBlock(view))
  }

  predicate ThreePlanes(view: StreamView)
    requires EvenSize(view)
  {
    && |view.planes| == 3
    && Contains(view.planes[0], RowSpan(view.height, view.width, view.stride))
    && Contains(view.planes[1], RowSpan(view.height / 2, view.width / 2, view.stride / 2))
    && Contains(view.planes[2], RowSpan(view.height / 2, view.width / 2, view.stride / 2))
  }

  /** The layouts a packed copy can be made of. */
  predicate Copyable(view: StreamView) {
    && EvenSize(view) && view.stride >= view.width && view.stride % 2 == 0
    && (OnePlane(view) || ThreePlanes(view))
  }

  function LumaAt(view: StreamView): nat
    requires Copyable(view)
  {
    view.planes[0].data.value
  }

  function BlueAt(view: StreamView): nat
    requires Copyable(view)
  {
    if |view.planes| == 1 then LumaAt(view) + LumaBlock(view) else view.planes[1].data.value
  }

  function RedAt(view: StreamView): nat
    requires Copyable(view)
  {
    if |view.planes| == 1 then LumaAt(view) + LumaBlock(view) + ChromaBlock(view) else view.planes[2].data.value
  }

  lemma BlockHoldsRows(rows: nat, width: nat, stride: nat)
    requires rows > 0 && width <= stride
    ensures RowSpan(rows, width, stride) <= stride * rows
  {
  }

  lemma PlaneReadable(view: StreamView, mem: Memory, i: nat, n: nat, skip: nat, m: nat)
    requires Backed(view, mem) && i < |view.planes| && Contains(view.planes[i], n) && skip + m <= n
    ensures Readable(mem, view.planes[i].data.value + skip, m)
  {
    assert Readable(mem, view.planes[i].data.value, n);
  }

  /** Every byte the copy reads is in bounds of a plane. */
  lemma CopyReadsInBounds(view: StreamView, mem: Memory)
    requires Copyable(view) && Backed(view, mem)
    ensures RowsReadable(mem, LumaAt(view), view.height, view.width, view.stride)
    ensures RowsReadable(mem, BlueAt(view), view.height / 2, view.width / 2, view.stride / 2)
    ensures RowsReadable(mem, RedAt(view), view.height / 2, view.width / 2, view.stride / 2)
  {
    var y := RowSpan(view.height, view.width, view.stride);
    var c := RowSpan(view.height / 2, view.width / 2, view.stride / 2);
    if |view.planes| == 1 {
      var n := LumaBlock(view) + 2 * ChromaBlock(view);
      BlockHoldsRows(view.height, view.width, view.stride);
      BlockHoldsRows(view.height / 2, view.width / 2, view.stride / 2);
      PlaneReadable(view, mem, 0, n, 0, y);
      PlaneReadable(view, mem, 0, n, LumaBlock(view), c);
      PlaneReadable(view, mem, 0, n, LumaBlock(view) + ChromaBlock(view), c);
    } else {
      PlaneReadable(view, mem, 0, y, 0, y);
      PlaneReadable(view, mem, 1, c, 0, c);
      PlaneReadable(view, mem, 2, c, 0, c);
    }
    SpanHoldsRows(mem, LumaAt(view), view.height, view.width, view.stride);
    SpanHoldsRows(mem, BlueAt(view), view.height / 2, view.width / 2, view.stride / 2);
    SpanHoldsRows(mem, RedAt(view), view.height / 2, view.width / 2, view.stride / 2);
  }

  /** The three planes without padding, one after the other. */
  ghost function PackedFrame(view: StreamView, mem: Memory): seq<Byte>
    requires Copyable(view) && Backed(view, mem)
  {
    CopyReadsInBounds(view, mem);
    Rows(mem, LumaAt(view), view.height, view.width, view.stride)
    + Rows(mem, BlueAt(view), view.height / 2, view.width / 2, view.stride / 2)
    + Rows(mem, RedAt(view), view.height / 2, view.width / 2, view.stride / 2)
  }

  lemma QuarterIsChroma(view: StreamView)
    requires EvenSize(view)
    ensures LumaSize(view) / 4 == ChromaSize(view)
    ensures ChromaSize(view) == (view.height / 2) * (view.width / 2)
  {
    var w, h := view.width / 2, view.height / 2;
    assert view.width * view.height == (2 * w) * (2 * h) == 4 * (w * h);
  }

  lemma PackedSize(view: StreamView, mem: Memory)
    requires Copyable(view) && Backed(view, mem)
    ensures |PackedFrame(view, mem)| == FrameSize(view)
  {
    CopyReadsInBounds(view, mem);
    QuarterIsChroma(view);
  }

  lemma ByteOfJoin(a: seq<Byte>, b: seq<Byte>, c: seq<Byte>, i: nat, mem: Memory, at: nat)
    ensures IsByteAt(a, i, mem, at) ==> IsByteAt(a + b + c, i, mem, at)
    ensures IsByteAt(b, i, mem, at) ==> IsByteAt(a + b + c, |a| + i, mem, at)
    ensures IsByteAt(c, i, mem, at) ==> IsByteAt(a + b + c, |a| + |b| + i, mem, at)
  {
  }

  /** Where each output byte comes from: pixel (row, col) of Y. */
  lemma LumaPixel(view: StreamView, mem: Memory, row: nat, col: nat)
    requires Copyable(view) && Backed(view, mem) && row < view.height && col < view.width
    ensures IsByteAt(PackedFrame(view, mem), PixelOffset(row, col, view.width),
                     mem, LumaAt(view) + PixelOffset(row, col, view.stride))
  {
    CopyReadsInBounds(view, mem);
    var i, from := PixelOffset(row, col, view.width), LumaAt(view) + PixelOffset(row, col, view.stride);
    PixelOfRows(mem, LumaAt(view), view.height, view.width, view.stride, row, col);
    ByteOfJoin(Rows(mem, LumaAt(view), view.height, view.width, view.stride),
               Rows(mem, BlueAt(view), view.height / 2, view.width / 2, view.stride / 2),
               Rows(mem, RedAt(view), view.height / 2, view.width / 2, view.stride / 2), i, mem, from);
  }

  /** Pixel (row, col) of U and of V, at half resolution. */
  lemma ChromaPixels(view: StreamView, mem: Memory, row: nat, col: nat)
    requires Copyable(view) && Backed(view, mem) && row < view.height / 2 && col < view.width / 2
    ensures var i, from := PixelOffset(row, col, view.width / 2), PixelOffset(row, col, view.stride / 2);
      && IsByteAt(PackedFrame(view, mem), LumaSize(view) + i, mem, BlueAt(view) + from)
      && IsByteAt(PackedFrame(view, mem), LumaSize(view) + ChromaSize(view) + i, mem, RedAt(view) + from)
  {
    CopyReadsInBounds(view, mem);
    QuarterIsChroma(view);
    var w, h, s := view.width / 2, view.height / 2, view.stride / 2;
    var i, from := PixelOffset(row, col, w), PixelOffset(row, col, s);
    var a := Rows(mem, LumaAt(view), view.height, view.width, view.stride);
    var b := Rows(mem, BlueAt(view), h, w, s);
    var c := Rows(mem, RedAt(view), h, w, s);
    PixelOfRows(mem, BlueAt(view), h, w, s, row, col);
    PixelOfRows(mem, RedAt(view), h, w, s, row, col);
    ByteOfJoin(a, b, c, i, mem, BlueAt(view) + from);
    ByteOfJoin(a, b, c, i, mem, RedAt(view) + from);
  }

  // ----- Zero copy -----

  /** One mapping that already holds the packed frame: what Compatible promises. */
  predicate Compact(view: StreamView) {
    && EvenSize(view) && |view.planes| == 3 && view.stride == view.width
    && var y, u, v := view.planes[0], view.planes[1], view.planes[2];
      && y.fd >= 0 && u.fd == y.fd == v.fd
      && y.mapping.Some? && u.mapping == y.mapping == v.mapping
      && u.mappedLength == y.mappedLength == v.mappedLength
      && y.data == y.mapping
      && u.data == Some(y.mapping.value + LumaSize(view))
      && v.data == Some(y.mapping.value + LumaSize(view) + ChromaSize(view))
      && y.offset == 0 && u.offset == LumaSize(view) && v.offset == LumaSize(view) + ChromaSize(view)
      && LumaSize(view) <= y.length && LumaSize(view) <= y.bytesUsed
      && ChromaSize(view) <= u.length && ChromaSize(view) <= u.bytesUsed
      && ChromaSize(view) <= v.length && ChromaSize(view) <= v.bytesUsed
      && FrameSize(view) <= view.frameSize && FrameSize(view) <= y.mappedLength
  }

  lemma CompactIsCopyable(view: StreamView)
    requires Compact(view)
    ensures Copyable(view)
  {
    QuarterIsChroma(view);
    assert RowSpan(view.height, view.width, view.width) == LumaSize(view);
    assert RowSpan(view.height / 2, view.width / 2, view.width / 2) == ChromaSize(view);
  }

  lemma CompactOrigins(view: StreamView)
    requires Compact(view) && Copyable(view)
    ensures BlueAt(view) == LumaAt(view) + LumaSize(view)
    ensures RedAt(view) == LumaAt(view) + LumaSize(view) + ChromaSize(view)
  {
  }

  lemma JoinSpans(mem: Memory, at: nat, a: nat, b: nat)
    requires Readable(mem, at, a) && Readable(mem, at + a, b)
    ensures Readable(mem, at, a + b) && Span(mem, at, a) + Span(mem, at + a, b) == Span(mem, at, a + b)
  {
  }

  lemma PlanesInARow(mem: Memory, at: nat, h: nat, w: nat, ch: nat, cw: nat, y: nat, c: nat)
    requires y == h * w && c == ch * cw && RowsReadable(mem, at, h, w, w)
    requires RowsReadable(mem, at + y, ch, cw, cw) && RowsReadable(mem, at + y + c, ch, cw, cw)
    ensures Readable(mem, at, y + 2 * c)
    ensures Rows(mem, at, h, w, w) + Rows(mem, at + y, ch, cw, cw) + Rows(mem, at + y + c, ch, cw, cw)
         == Span(mem, at, y + 2 * c)
  {
    PackedRows(mem, at, h, w);
    PackedRows(mem, at + y, ch, cw);
    PackedRows(mem, at + y + c, ch, cw);
    JoinSpans(mem, at, y, c);
    JoinSpans(mem, at, y + c, c);
  }

  /** The zero-copy view is, byte for byte, the packed copy. */
  lemma ZeroCopyIsTheCopy(view: StreamView, mem: Memory)
    requires Backed(view, mem)
    ensures Compact(view) ==>
      && Copyable(view) && Readable(mem, view.planes[0].data.value, FrameSize(view))
      && PackedFrame(view, mem) == Span(mem, view.planes[0].data.value, FrameSize(view))
  {
    if Compact(view) {
      CompactIsCopyable(view);
      CompactOrigins(view);
      CopyReadsInBounds(view, mem);
      QuarterIsChroma(view);
      PlanesInARow(mem, LumaAt(view), view.height, view.width, view.height / 2, view.width / 2,
                   LumaSize(view), ChromaSize(view));
    }
  }
}
