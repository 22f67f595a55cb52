/** Geometry resolver: crop/placement windows, 8-pixel alignment and per-plane offsets. */
module Geometry {
  import opened CInt
  import opened Formats

  /** A crop or placement window: position and size, in pixels. */
  datatype Window = Window(x: int, y: int, w: int, h: int)

  /** Plane offsets: luma (or packed) offset and the two chroma offsets, the chroma
      ones relative to the start of the luma crop. */
  datatype Planes = Planes(off: int, uoff: int, voff: int)

  /** The value of offsets the library never computed (the handle starts zeroed). */
  const NoOffsets: Planes := Planes(0, 0, 0)

  /** The result of cropping one frame: the caller's window after clamping, the
      working width and height, and the plane offsets. */
  datatype Crop = Crop(win: Window, w: int, h: int, planes: Planes)

  /** A window is given when either of its sizes is positive. */
  predicate HasWindow(win: Window) {
    win.w > 0 || win.h > 0
  }

  /** Clamps a window so that it ends inside a width x height frame; never rejects. */
  function ClampWindow(win: Window, width: int, height: int): (r: Window)
    ensures r.x == win.x && r.y == win.y
    ensures r.w + r.x <= width && r.h + r.y <= height
    ensures win.w + win.x <= width ==> r.w == win.w
    ensures win.w + win.x > width ==> r.w + r.x == width
    ensures win.h + win.y <= height ==> r.h == win.h
    ensures win.h + win.y > height ==> r.h + r.y == height
  {
    var w := if win.w + win.x > width then width - win.x else win.w;
    var h := if win.h + win.y > height then height - win.y else win.h;
    Window(win.x, win.y, w, h)
  }

  /** _ipu_update_offset, evaluated in 32-bit unsigned arithmetic as the C code does,
      each result stored into an int. */
  function UpdateOffset(fmt: PixFmt, width: int, height: int, posX: int, posY: int): (p: Planes)
    ensures I32_MIN <= p.off <= I32_MAX && I32_MIN <= p.uoff <= I32_MAX && I32_MIN <= p.voff <= I32_MAX
    ensures !IsPlanar(fmt) ==> p.uoff == 0 && p.voff == 0
    ensures fmt.NV12? ==> p.voff == 0
  {
    var w, h, x, y := ToU32(width), ToU32(height), ToU32(posX), ToU32(posY);
    match fmt
    case YUV420P | YUV420P2 => Offsets420(w, h, x, y)
    case YVU422P => OffsetsYvu422(w, h, x, y)
    case YUV422P => OffsetsYuv422(w, h, x, y)
    case NV12 => OffsetsNv12(w, h, x, y)
    case _ => Planes(ToI32(UDiv(UMul(LumaU(w, x, y), Bpp(fmt)), 8)), 0, 0)
  }

  /** The planar 4:2:0 case of _ipu_update_offset, on unsigned operands. */
  function Offsets420(w: int, h: int, x: int, y: int): (p: Planes)
    requires 0 <= w < U32_MOD && 0 <= x < U32_MOD
    ensures I32_MIN <= p.off <= I32_MAX && I32_MIN <= p.uoff <= I32_MAX && I32_MIN <= p.voff <= I32_MAX
  {
    var u := UAdd(RestU(w, h, x, y), UAdd(UDiv(UMul(UDiv(w, 2), y), 2), UDiv(x, 2)));
    Planes(ToI32(LumaU(w, x, y)), ToI32(u), ToI32(UAdd(u, UDiv(UMul(UDiv(w, 2), h), 2))))
  }

  /** The YVU422P case: the V plane precedes the U plane. */
  function OffsetsYvu422(w: int, h: int, x: int, y: int): (p: Planes)
    requires 0 <= x < U32_MOD
    ensures I32_MIN <= p.off <= I32_MAX && I32_MIN <= p.uoff <= I32_MAX && I32_MIN <= p.voff <= I32_MAX
  {
    var v := UAdd(RestU(w, h, x, y), UAdd(UDiv(UMul(w, y), 2), UDiv(x, 2)));
    Planes(ToI32(LumaU(w, x, y)), ToI32(UAdd(v, UDiv(UMul(w, h), 2))), ToI32(v))
  }

  /** The YUV422P case. */
  function OffsetsYuv422(w: int, h: int, x: int, y: int): (p: Planes)
    requires 0 <= x < U32_MOD
    ensures I32_MIN <= p.off <= I32_MAX && I32_MIN <= p.uoff <= I32_MAX && I32_MIN <= p.voff <= I32_MAX
  {
    var u := UAdd(UAdd(RestU(w, h, x, y), UDiv(UMul(w, y), 2)), UDiv(x, 2));
    Planes(ToI32(LumaU(w, x, y)), ToI32(u), ToI32(UAdd(u, UDiv(UMul(w, h), 2))))
  }

  /** The NV12 case: one interleaved chroma plane; the V offset is left untouched. */
  function OffsetsNv12(w: int, h: int, x: int, y: int): (p: Planes)
    ensures I32_MIN <= p.off <= I32_MAX && I32_MIN <= p.uoff <= I32_MAX && p.voff == 0
  {
    var u := UAdd(UAdd(RestU(w, h, x, y), UDiv(UMul(w, y), 2)), x);
    Planes(ToI32(LumaU(w, x, y)), ToI32(u), 0)
  }

  /** `pos_y * width + pos_x` in unsigned arithmetic: the crop start in pixels. */
  function LumaU(w: int, x: int, y: int): (r: int)
    ensures 0 <= r < U32_MOD
  {
    UAdd(UMul(y, w), x)
  }

  /** `width * (height - pos_y) - pos_x` in unsigned arithmetic: the pixels from the crop
      start to the end of the luma plane. */
  function RestU(w: int, h: int, x: int, y: int): (r: int)
    ensures 0 <= r < U32_MOD
  {
    USub(UMul(w, USub(h, y)), x)
  }

  /** Offsets are computed only when the cropped size differs from the frame. */
  function OffsetsFor(fmt: PixFmt, width: int, height: int, win: Window, cw: int, ch: int): Planes
  {
    if cw != width || ch != height then UpdateOffset(fmt, width, height, win.x, win.y)
    else NoOffsets
  }

  /** The clamp-and-align steps _ipu_task_check applies to one frame: with a window, the
      window is clamped, its width aligned down to 8 and its height aligned when
      `alignWindowHeight`; without one, the frame width is aligned and the frame height is
      aligned when `alignFrameHeight`. Offsets are computed only for a window that crops. */
  function CropFrame(width: int, height: int, fmt: PixFmt, win: Window,
                     alignWindowHeight: bool, alignFrameHeight: bool): (r: Crop)
    ensures r.w % 8 == 0
    ensures HasWindow(win) ==> r.win == ClampWindow(win, width, height)
    ensures !HasWindow(win) ==> r.win == win && r.planes == NoOffsets
  {
    if HasWindow(win) then
      var c := ClampWindow(win, width, height);
      var cw := AlignDown8(c.w);
      var ch := if alignWindowHeight then AlignDown8(c.h) else c.h;
      Crop(c, cw, ch, OffsetsFor(fmt, width, height, c, cw, ch))
    else
      Crop(win, AlignDown8(width), if alignFrameHeight then AlignDown8(height) else height, NoOffsets)
  }

  /** The crop of an input or overlay frame in _ipu_task_check: the height of a window is
      aligned as well as its width; without a window the height is kept as given. */
  function CropInput(width: int, height: int, fmt: PixFmt, win: Window): Crop {
    CropFrame(width, height, fmt, win, true, false)
  }

  /** With a window, both sizes are clamped and aligned down to 8; without one, the width
      is aligned and the height is kept as given. Offsets are computed exactly when the
      working size differs from the frame. */
  lemma CropInputSizes(width: int, height: int, fmt: PixFmt, win: Window)
    ensures var r := CropInput(width, height, fmt, win);
      r.w % 8 == 0
      && (HasWindow(win) ==> r.win == ClampWindow(win, width, height) && r.h % 8 == 0)
      && (HasWindow(win) && r.win.w >= 0 ==> r.w <= r.win.w < r.w + 8 && r.w + r.win.x <= width)
      && (HasWindow(win) && r.win.h >= 0 ==> r.h <= r.win.h < r.h + 8 && r.h + r.win.y <= height)
      && (!HasWindow(win) ==> r.win == win && r.h == height && r.planes == NoOffsets)
      && (!HasWindow(win) && width >= 0 ==> r.w <= width < r.w + 8)
      && (HasWindow(win) && (r.w != width || r.h != height) ==>
            r.planes == UpdateOffset(fmt, width, height, win.x, win.y))
      && (r.w == width && r.h == height ==> r.planes == NoOffsets)
  {
  }

  /** The crop of the output frame: as for the input, except that the height is aligned
      only when the output goes to a framebuffer, with or without a window. */
  function CropOutput(width: int, height: int, fmt: PixFmt, win: Window, showToFb: bool): Crop {
    CropFrame(width, height, fmt, win, showToFb, showToFb)
  }

  /** The output crop: the width is always aligned, the height only for a framebuffer. */
  lemma CropOutputSizes(width: int, height: int, fmt: PixFmt, win: Window, showToFb: bool)
    ensures var r := CropOutput(width, height, fmt, win, showToFb);
      r.w % 8 == 0
      && (showToFb ==> r.h % 8 == 0)
      && (HasWindow(win) ==> r.win == ClampWindow(win, width, height))
      && (HasWindow(win) && !showToFb ==> r.h == r.win.h)
      && (HasWindow(win) && r.win.w >= 0 ==> r.w <= r.win.w < r.w + 8 && r.w + r.win.x <= width)
      && (!HasWindow(win) ==> r.win == win && r.planes == NoOffsets)
      && (!HasWindow(win) && !showToFb ==> r.h == height)
      && (HasWindow(win) && (r.w != width || r.h != height) ==>
            r.planes == UpdateOffset(fmt, width, height, win.x, win.y))
      && (r.w == width && r.h == height ==> r.planes == NoOffsets)
  {
  }

  /** Size of an internally allocated frame buffer: width/8*height*bpp, as in _ipu_mem_alloc. */
  function BufSize(width: int, height: int, fmt: PixFmt): (size: int)
    ensures width >= 0 && height >= 0 ==> size >= 0
  {
    CDiv8(width) * height * Bpp(fmt)
  }

  /** A crop start inside the frame and a frame small enough that no 32-bit expression of
      _ipu_update_offset wraps or leaves the int range. */
  predicate InFrame(width: int, height: int, x: int, y: int) {
    0 <= x <= width <= 0xffff && 0 <= y <= height <= 0xffff
    && y * width + x <= width * height && width * height <= 0x400_0000
  }

  lemma MulMono(a: int, b: int, c: int)
    requires a <= b && 0 <= c
    ensures a * c <= b * c
  {
  }

  /** In the frame, no conversion changes a value, and the two shared unsigned
      subexpressions equal their integer meaning. */
  lemma {:induction false} NoWrapBasics(w: int, h: int, x: int, y: int)
    requires InFrame(w, h, x, y)
    ensures ToU32(w) == w && ToU32(h) == h && ToU32(x) == x && ToU32(y) == y
    ensures 0 <= y * w + x <= w * h
    ensures LumaU(w, x, y) == y * w + x
    ensures RestU(w, h, x, y) == w * h - (y * w + x)
  {
    assert 0 <= y * w by { MulMono(0, y, w); }
    assert UMul(y, w) == y * w;
    assert USub(h, y) == h - y;
    assert w * (h - y) == w * h - y * w;
    assert 0 <= w * (h - y) by { MulMono(0, h - y, w); }
    assert UMul(w, h - y) == w * (h - y);
  }

  /** Bounds on the products the chroma formulas use. */
  lemma {:induction false} ChromaProductBounds(w: int, h: int, y: int)
    requires 0 <= w && 0 <= y <= h && w * h <= 0x400_0000
    ensures 0 <= (w / 2) * y <= (w / 2) * h && 2 * ((w / 2) * h) <= w * h
    ensures 0 <= w * y <= w * h
  {
    MulMono(0, y, w / 2);
    MulMono(y, h, w / 2);
    MulMono(2 * (w / 2), w, h);
    MulMono(0, y, w);
    MulMono(y, h, w);
  }

  /** Without wrap-around, the luma offset is the crop start in pixels for the planar
      layouts and in bytes for the packed ones. */
  lemma LumaOffsetNoWrap(fmt: PixFmt, w: int, h: int, x: int, y: int)
    requires InFrame(w, h, x, y)
    ensures IsPlanar(fmt) ==> UpdateOffset(fmt, w, h, x, y).off == y * w + x
    ensures !IsPlanar(fmt) ==> UpdateOffset(fmt, w, h, x, y).off == (y * w + x) * Bpp(fmt) / 8
  {
    NoWrapBasics(w, h, x, y);
    if IsPlanar(fmt) {
      PlanarLumaNoWrap(fmt, w, h, x, y);
    } else {
      PackedOffsetNoWrap(fmt, w, h, x, y);
    }
  }

  lemma PlanarLumaNoWrap(fmt: PixFmt, w: int, h: int, x: int, y: int)
    requires IsPlanar(fmt) && InFrame(w, h, x, y)
    requires LumaU(w, x, y) == y * w + x
    ensures UpdateOffset(fmt, w, h, x, y).off == y * w + x
  {
    assert ToU32(w) == w && ToU32(x) == x && ToU32(y) == y;
    assert ToI32(y * w + x) == y * w + x;
  }

  lemma {:induction false} PackedOffsetNoWrap(fmt: PixFmt, w: int, h: int, x: int, y: int)
    requires !IsPlanar(fmt) && InFrame(w, h, x, y)
    requires LumaU(w, x, y) == y * w + x && 0 <= y * w + x <= w * h
    ensures UpdateOffset(fmt, w, h, x, y).off == (y * w + x) * Bpp(fmt) / 8
  {
    var luma := y * w + x;
    var b := Bpp(fmt);
    assert 0 <= luma * b <= 0x400_0000 * 32 by {
      MulMono(luma, 0x400_0000, b);
      MulMono(0, luma, b);
    }
    assert UMul(luma, b) == luma * b;
    assert ToU32(w) == w && ToU32(x) == x && ToU32(y) == y;
    PackedParts(fmt, w, h, x, y, luma, luma * b);
  }

  /** The packed case of UpdateOffset in terms of its luma product, when nothing wraps. */
  lemma PackedParts(fmt: PixFmt, w: int, h: int, x: int, y: int, luma: int, m: int)
    requires !IsPlanar(fmt) && ToU32(w) == w && ToU32(x) == x && ToU32(y) == y
    requires LumaU(w, x, y) == luma && UMul(luma, Bpp(fmt)) == m && m / 8 <= I32_MAX
    ensures UpdateOffset(fmt, w, h, x, y).off == m / 8
  {
  }

  /** Without wrap-around, for planar 4:2:0 the U offset reaches from the luma crop start
      to the crop start inside the U plane (which begins at width*height), and the V
      offset is the U offset plus the size of the U plane. */
  lemma {:induction false} Planar420NoWrap(fmt: PixFmt, w: int, h: int, x: int, y: int)
    requires fmt.YUV420P? || fmt.YUV420P2?
    requires InFrame(w, h, x, y)
    ensures var p := UpdateOffset(fmt, w, h, x, y);
      p.off + p.uoff == w * h + (w / 2 * y) / 2 + x / 2
      && p.voff == p.uoff + (w / 2 * h) / 2
  {
    NoWrapBasics(w, h, x, y);
    ChromaProductBounds(w, h, y);
    assert UMul(w / 2, y) == w / 2 * y;
    assert UMul(w / 2, h) == w / 2 * h;
    Offsets420Parts(w, h, x, y, y * w + x, w * h - (y * w + x), w / 2 * y, w / 2 * h);
  }

  /** Offsets420 in terms of its luma, rest and chroma-row products, when nothing wraps. */
  lemma Offsets420Parts(w: int, h: int, x: int, y: int, luma: int, rest: int, a: int, b: int)
    requires 0 <= w < U32_MOD && 0 <= x < U32_MOD && 0 <= a && 0 <= b
    requires LumaU(w, x, y) == luma <= I32_MAX && RestU(w, h, x, y) == rest
    requires UMul(w / 2, y) == a && UMul(w / 2, h) == b
    requires rest + a / 2 + x / 2 + b / 2 <= I32_MAX
    ensures Offsets420(w, h, x, y)
      == Planes(luma, rest + (a / 2 + x / 2), rest + (a / 2 + x / 2) + b / 2)
  {
  }

  /** Without wrap-around, for YVU422P the V plane comes first: the V offset reaches the
      crop start inside the V plane and the U offset lies half a luma plane further. */
  lemma {:induction false} PlanarYvu422NoWrap(w: int, h: int, x: int, y: int)
    requires InFrame(w, h, x, y)
    ensures var p := UpdateOffset(YVU422P, w, h, x, y);
      p.off + p.voff == w * h + (w * y) / 2 + x / 2
      && p.uoff == p.voff + (w * h) / 2
  {
    NoWrapBasics(w, h, x, y);
    ChromaProductBounds(w, h, y);
    assert UMul(w, y) == w * y;
    assert UMul(w, h) == w * h;
    Yvu422Parts(w, h, x, y, y * w + x, w * h - (y * w + x), w * y, w * h);
  }

  /** OffsetsYvu422 in terms of its luma, rest and product terms, when nothing wraps. */
  lemma Yvu422Parts(w: int, h: int, x: int, y: int, luma: int, rest: int, a: int, b: int)
    requires 0 <= x < U32_MOD && 0 <= a && 0 <= b
    requires LumaU(w, x, y) == luma <= I32_MAX && RestU(w, h, x, y) == rest
    requires UMul(w, y) == a && UMul(w, h) == b
    requires rest + a / 2 + x / 2 + b / 2 <= I32_MAX
    ensures OffsetsYvu422(w, h, x, y)
      == Planes(luma, rest + (a / 2 + x / 2) + b / 2, rest + (a / 2 + x / 2))
  {
  }

  /** Without wrap-around, for YUV422P the U plane comes first and V follows it. */
  lemma {:induction false} PlanarYuv422NoWrap(w: int, h: int, x: int, y: int)
    requires InFrame(w, h, x, y)
    ensures var p := UpdateOffset(YUV422P, w, h, x, y);
      p.off + p.uoff == w * h + (w * y) / 2 + x / 2
      && p.voff == p.uoff + (w * h) / 2
  {
    NoWrapBasics(w, h, x, y);
    ChromaProductBounds(w, h, y);
    var rest := w * h - (y * w + x);
    assert UMul(w, y) == w * y;
    assert UAdd(rest, (w * y) / 2) == rest + (w * y) / 2;
    var u := rest + (w * y) / 2 + x / 2;
    assert UAdd(rest + (w * y) / 2, x / 2) == u;
    assert UMul(w, h) == w * h;
    assert UAdd(u, (w * h) / 2) == u + (w * h) / 2;
  }

  /** Without wrap-around, for NV12 the interleaved chroma offset reaches the crop start
      inside the chroma plane, whose rows are as wide as the luma rows. */
  lemma {:induction false} SemiPlanarNv12NoWrap(w: int, h: int, x: int, y: int)
    requires InFrame(w, h, x, y)
    ensures var p := UpdateOffset(NV12, w, h, x, y);
      p.off + p.uoff == w * h + (w * y) / 2 + x
  {
    NoWrapBasics(w, h, x, y);
    ChromaProductBounds(w, h, y);
    var rest := w * h - (y * w + x);
    assert UMul(w, y) == w * y;
    assert UAdd(rest, (w * y) / 2) == rest + (w * y) / 2;
    var u := rest + (w * y) / 2 + x;
    assert UAdd(rest + (w * y) / 2, x) == u;
  }

  /** For planar 4:2:0 with a 4:2:0-aligned crop start inside the frame, luma offset plus
      U offset lands inside the U plane, which follows the luma plane. */
  lemma {:induction false} ChromaUInsidePlane420(fmt: PixFmt, w: int, h: int, x: int, y: int)
    requires fmt.YUV420P? || fmt.YUV420P2?
    requires InFrame(w, h, x, y) && x < w && y < h
    requires w % 2 == 0 && h % 2 == 0 && x % 2 == 0 && y % 2 == 0
    ensures var p := UpdateOffset(fmt, w, h, x, y);
      w * h <= p.off + p.uoff < w * h + (w / 2) * (h / 2)
  {
    Offsets420Even(fmt, w, h, x, y);
    SubsampledStart(w / 2, h / 2, x / 2, y / 2);
  }

  /** Likewise luma offset plus V offset lands inside the V plane, the last of the three
      planes; BufSize420 shows that they make up the allocation exactly. */
  lemma {:induction false} ChromaVInsidePlane420(fmt: PixFmt, w: int, h: int, x: int, y: int)
    requires fmt.YUV420P? || fmt.YUV420P2?
    requires InFrame(w, h, x, y) && x < w && y < h
    requires w % 2 == 0 && h % 2 == 0 && x % 2 == 0 && y % 2 == 0
    ensures var p := UpdateOffset(fmt, w, h, x, y);
      w * h + (w / 2) * (h / 2) <= p.off + p.voff < w * h + 2 * ((w / 2) * (h / 2))
  {
    Offsets420Even(fmt, w, h, x, y);
    SubsampledStart(w / 2, h / 2, x / 2, y / 2);
  }

  /** Planar420NoWrap for even sizes and an even crop start, in plane-by-plane form. */
  lemma Offsets420Even(fmt: PixFmt, w: int, h: int, x: int, y: int)
    requires fmt.YUV420P? || fmt.YUV420P2?
    requires InFrame(w, h, x, y)
    requires w % 2 == 0 && h % 2 == 0 && y % 2 == 0
    ensures var p := UpdateOffset(fmt, w, h, x, y);
      p.off + p.uoff == w * h + (w / 2) * (y / 2) + x / 2
      && p.voff == p.uoff + (w / 2) * (h / 2)
  {
    Planar420NoWrap(fmt, w, h, x, y);
    HalfProduct(w / 2, y);
    HalfProduct(w / 2, h);
  }

  lemma HalfProduct(a: int, y: int)
    requires y % 2 == 0
    ensures (a * y) / 2 == a * (y / 2)
  {
    var c := y / 2;
    assert y == 2 * c;
    assert a * y == 2 * (a * c);
  }

  /** A start (d, c) inside an a x b plane lies before the plane's end. */
  lemma SubsampledStart(a: int, b: int, d: int, c: int)
    requires 0 <= d < a && 0 <= c < b
    ensures 0 <= a * c + d < a * b
  {
    MulMono(0, c, a);
    MulMono(c, b - 1, a);
    assert a * (b - 1) == a * b - a;
  }

  /** For a width that is a multiple of 8 and an even height, the 4:2:0 allocation is the
      luma plane plus two quarter-size chroma planes. */
  lemma BufSize420(w: int, h: int, fmt: PixFmt)
    requires fmt.YUV420P? || fmt.YUV420P2?
    requires 0 <= w && 0 <= h && w % 8 == 0 && h % 2 == 0
    ensures BufSize(w, h, fmt) == w * h + 2 * ((w / 2) * (h / 2))
  {
    var k, b := w / 8, h / 2;
    assert w == 8 * k && h == 2 * b && w / 2 == 4 * k;
    assert BufSize(w, h, fmt) == k * h * 12;
    calc {
      k * h * 12;
      24 * (k * b);
      { assert w * h == 16 * (k * b); assert (4 * k) * b == 4 * (k * b); }
      w * h + 2 * ((w / 2) * (h / 2));
    }
  }

  /** The crop of the 640x480 planar 4:2:0 frame with window (8, 8, 624, 464). */
  lemma CropScenario640x480()
    ensures var r := CropInput(640, 480, YUV420P, Window(8, 8, 624, 464));
      r.w == 624 && r.h == 464 && r.planes.off == 5128
      && r.planes.off + r.planes.uoff == 640 * 480 + 1284
  {
    ScenarioWindow();
    ScenarioOffsets();
  }

  lemma ScenarioWindow()
    ensures var r := CropInput(640, 480, YUV420P, Window(8, 8, 624, 464));
      r.w == 624 && r.h == 464 && r.planes == UpdateOffset(YUV420P, 640, 480, 8, 8)
  {
    assert AlignDown8(624) == 624 && AlignDown8(464) == 464;
    assert ClampWindow(Window(8, 8, 624, 464), 640, 480) == Window(8, 8, 624, 464);
  }

  lemma ScenarioOffsets()
    ensures var p := UpdateOffset(YUV420P, 640, 480, 8, 8);
      p.off == 5128 && p.off + p.uoff == 640 * 480 + 1284
  {
    assert UpdateOffset(YUV420P, 640, 480, 8, 8) == Offsets420(640, 480, 8, 8);
    Offsets420Parts(640, 480, 8, 8, 5128, 640 * 480 - 5128, 2560, 153600);
  }
}
