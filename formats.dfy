/** Pixel formats of the IPU high-level library: bits per pixel and colour-space class. */
module Formats {

  /** The pixel formats the library names; every other fourcc is `Other`. */
  datatype PixFmt =
    | RGB565 | BGR24 | RGB24 | BGR32 | BGRA32 | RGB32 | RGBA32 | ABGR32
    | YUYV | UYVY | YUV444 | YUV420P | YUV420P2 | YUV422P | YVU422P | NV12
    | Other(code: int)

  datatype ColorSpace = RgbCS | YuvCS | NullCS

  /** Reference tables: the formats each colour space recognises. */
  const RgbFormats: set<PixFmt> := {RGB565, BGR24, RGB24, BGRA32, BGR32, RGBA32, RGB32, ABGR32}
  const YuvFormats: set<PixFmt> := {UYVY, YUYV, YUV420P2, YUV420P, YVU422P, YUV422P, YUV444, NV12}

  /** The planar and semi-planar layouts whose luma offset is counted in pixels, not bytes. */
  predicate IsPlanar(f: PixFmt) {
    f.YUV420P? || f.YUV420P2? || f.YUV422P? || f.YVU422P? || f.NV12?
  }

  /** fmt_to_bpp: bits per pixel, 8 for any format the table does not list. */
  function Bpp(f: PixFmt): (bpp: nat)
    ensures bpp in {8, 12, 16, 24, 32}
    ensures f.Other? ==> bpp == 8
    ensures bpp == 12 <==> (f.YUV420P? || f.YUV420P2? || f.NV12?)
    ensures f in RgbFormats ==> bpp >= 16
  {
    match f
    case RGB565 | YUYV | UYVY | YUV422P | YVU422P => 16
    case BGR24 | RGB24 | YUV444 => 24
    case BGR32 | BGRA32 | RGB32 | RGBA32 | ABGR32 => 32
    case YUV420P | YUV420P2 | NV12 => 12
    case Other(_) => 8
  }

  /** colorspaceofpixel: the colour-space class of a format. */
  function ColorSpaceOf(f: PixFmt): (cs: ColorSpace)
    ensures cs == RgbCS <==> f in RgbFormats
    ensures cs == YuvCS <==> f in YuvFormats
    ensures cs == NullCS <==> f.Other?
  {
    match f
    case RGB565 | BGR24 | RGB24 | BGRA32 | BGR32 | RGBA32 | RGB32 | ABGR32 => RgbCS
    case UYVY | YUYV | YUV420P2 | YUV420P | YVU422P | YUV422P | YUV444 | NV12 => YuvCS
    case Other(_) => NullCS
  }

  /** need_csc: -1 when a side is unrecognised, 1 when the classes differ, 0 otherwise. */
  function NeedCsc(ifmt: PixFmt, ofmt: PixFmt): (r: int)
    ensures r == -1 <==> (ifmt.Other? || ofmt.Other?)
    ensures r == 1 <==> (!ifmt.Other? && !ofmt.Other? && ColorSpaceOf(ifmt) != ColorSpaceOf(ofmt))
    ensures r == 0 <==> (ColorSpaceOf(ifmt) == ColorSpaceOf(ofmt) != NullCS)
  {
    var ics := ColorSpaceOf(ifmt);
    var ocs := ColorSpaceOf(ofmt);
    if ics == NullCS || ocs == NullCS then -1
    else if ics != ocs then 1
    else 0
  }

  /** The two tables are disjoint and every listed format is in exactly one of them. */
  lemma ClassificationIsPartition(f: PixFmt)
    ensures !(f in RgbFormats && f in YuvFormats)
    ensures f in RgbFormats || f in YuvFormats || f.Other?
    ensures f.Other? ==> f !in RgbFormats && f !in YuvFormats
  {
    var _ := ColorSpaceOf(f);
  }

  /** need_csc does not depend on the direction of the conversion. */
  lemma NeedCscSymmetric(a: PixFmt, b: PixFmt)
    ensures NeedCsc(a, b) == NeedCsc(b, a)
  {
  }

  /** Every planar layout is a YUV layout. */
  lemma PlanarIsYuv(f: PixFmt)
    requires IsPlanar(f)
    ensures ColorSpaceOf(f) == YuvCS && f in YuvFormats
  {
  }
}
