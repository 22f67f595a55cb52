/** Framebuffer output: the fit test, the reconfiguration, the triple-buffer layout and
    the panning that shows one of the three buffers. */
module Display {
  import opened CInt
  import opened Formats

  /** Display channels a framebuffer can be driven by. */
  datatype FbChannel = MemBgSync | MemDcSync | MemFgSync | OtherFbChannel

  /** fb_var.nonstd: zero, or the fourcc of a pixel format. */
  datatype Nonstd = NoNonstd | NonstdFmt(fmt: PixFmt)

  /** The fields of fb_var_screeninfo the library reads or writes (32-bit unsigned in the
      driver's structure). */
  datatype FbVar = FbVar(xres: nat, yres: nat, xresVirtual: nat, yresVirtual: nat,
                         bitsPerPixel: nat, nonstd: Nonstd)

  /** Number of frame buffers the library lays out on a display. */
  const FbBufs: nat := 3

  /** The channel assumed when the driver does not report one: by framebuffer number. */
  function DefaultFbChannel(fbNum: int): (ch: FbChannel)
    ensures ch == MemBgSync <==> fbNum == 0
    ensures ch == MemDcSync <==> fbNum == 1
    ensures ch != OtherFbChannel
  {
    if fbNum == 0 then MemBgSync
    else if fbNum == 1 then MemDcSync
    else MemFgSync
  }

  /** The virtual screen holds `bufs` screens stacked vertically. */
  predicate StacksBuffers(v: FbVar, bufs: nat) {
    v.xresVirtual == v.xres && v.yresVirtual == UMul(bufs, v.yres)
  }

  /** The nonstd field agrees with the format: it must name a YUV format, and may be
      zero or name an RGB format. */
  predicate NonstdAgrees(v: FbVar, fmt: PixFmt) {
    !(ColorSpaceOf(fmt) == YuvCS && v.nonstd != NonstdFmt(fmt))
    && !(ColorSpaceOf(fmt) == RgbCS && v.nonstd != NoNonstd && v.nonstd != NonstdFmt(fmt))
  }

  /** fit_fb_setting; the int sizes are compared with the unsigned fields as unsigned. */
  predicate FitFbSetting(v: FbVar, width: int, height: int, fmt: PixFmt, ch: FbChannel, bufs: nat) {
    if ch == MemBgSync then StacksBuffers(v, bufs)
    else if !NonstdAgrees(v, fmt) then false
    else if ch == MemDcSync then StacksBuffers(v, bufs)
    else if ch == MemFgSync then
      v.xres == ToU32(width) && v.xresVirtual == ToU32(width) && v.yres == ToU32(height)
      && v.yresVirtual == ToU32(bufs * height) && v.bitsPerPixel == Bpp(fmt)
    else true
  }

  /** The settings _ipu_mem_alloc asks the driver for when the current ones do not fit:
      the overlay takes the output size and format; the DC display keeps its size and
      takes the format; the others only get the stacked virtual screen. */
  function ReconfigFb(v: FbVar, ow: int, oh: int, fmt: PixFmt, ch: FbChannel): (r: FbVar)
    ensures ch == MemFgSync ==> r.xres == ToU32(ow) && r.yres == ToU32(oh)
    ensures ch != MemFgSync ==> r.xres == v.xres && r.yres == v.yres
    ensures ch in {MemFgSync, MemDcSync} ==> r.nonstd == NonstdFmt(fmt) && r.bitsPerPixel == Bpp(fmt)
    ensures ch !in {MemFgSync, MemDcSync} ==> r.nonstd == v.nonstd && r.bitsPerPixel == v.bitsPerPixel
    ensures StacksBuffers(r, FbBufs)
  {
    if ch == MemFgSync then
      FbVar(ToU32(ow), ToU32(oh), ToU32(ow), UMul(ToU32(oh), FbBufs), Bpp(fmt), NonstdFmt(fmt))
    else if ch == MemDcSync then
      v.(xresVirtual := v.xres, yresVirtual := UMul(v.yres, FbBufs), nonstd := NonstdFmt(fmt), bitsPerPixel := Bpp(fmt))
    else
      v.(xresVirtual := v.xres, yresVirtual := UMul(v.yres, FbBufs))
  }

  /** The settings in force after the fit test: the ones first read when they fit;
      otherwise `after`, the settings the driver reports when read back once it has been
      asked for ReconfigFb. */
  function SettleFb(v: FbVar, after: FbVar, ow: int, oh: int, fmt: PixFmt, ch: FbChannel): FbVar {
    if FitFbSetting(v, ow, oh, fmt, ch, FbBufs) then v else after
  }

  /** Reconfiguration repairs what the fit test checks, on every known display channel,
      and on another channel whenever the format already agrees with nonstd. */
  lemma ReconfigFits(v: FbVar, ow: int, oh: int, fmt: PixFmt, ch: FbChannel)
    requires ch != OtherFbChannel || NonstdAgrees(v, fmt)
    ensures FitFbSetting(ReconfigFb(v, ow, oh, fmt, ch), ow, oh, fmt, ch, FbBufs)
  {
    if ch == MemFgSync {
      MulWraps(oh, FbBufs);
    }
  }

  /** Reducing before or after a multiplication gives the same 32-bit result. */
  lemma MulWraps(x: int, k: nat)
    ensures UMul(ToU32(x), k) == ToU32(k * x)
  {
    var q := x / U32_MOD;
    assert x == q * U32_MOD + ToU32(x);
    assert k * x == (k * q) * U32_MOD + ToU32(x) * k;
    ModOfShift(ToU32(x) * k, k * q);
  }

  lemma ModOfShift(a: int, j: int)
    ensures (j * U32_MOD + a) % U32_MOD == a % U32_MOD
  {
  }

  /** A setting that survives the fit test is used as it is; one that does not is replaced
      by what the driver reports after the reconfiguration. */
  lemma SettleKeepsFitting(v: FbVar, after: FbVar, ow: int, oh: int, fmt: PixFmt, ch: FbChannel)
    ensures FitFbSetting(v, ow, oh, fmt, ch, FbBufs) ==> SettleFb(v, after, ow, oh, fmt, ch) == v
    ensures !FitFbSetting(v, ow, oh, fmt, ch, FbBufs) ==> SettleFb(v, after, ow, oh, fmt, ch) == after
  {
  }

  /** The acceptance test after the fit: the output fits on the screen in the screen's
      depth (sizes compared as unsigned). */
  predicate FbAccepts(v: FbVar, ow: int, oh: int, fmt: PixFmt) {
    !(ToU32(ow) > v.xres || ToU32(oh) > v.yres || Bpp(fmt) != v.bitsPerPixel)
  }

  /** The settings requested for an overlay display are sized for the output and in its
      depth: they pass both the fit test and the acceptance test. */
  lemma OverlayAlwaysAccepts(v: FbVar, ow: int, oh: int, fmt: PixFmt)
    ensures FitFbSetting(ReconfigFb(v, ow, oh, fmt, MemFgSync), ow, oh, fmt, MemFgSync, FbBufs)
    ensures FbAccepts(ReconfigFb(v, ow, oh, fmt, MemFgSync), ow, oh, fmt)
  {
    ReconfigFits(v, ow, oh, fmt, MemFgSync);
  }

  /** An overlay display accepts the output exactly when the settings it ends up with hold
      the output in its depth: always when they already fit, or when the driver applies the
      request as asked; a driver that reports a narrower, shorter or shallower screen
      than the request makes the set-up fail. */
  lemma OverlayAcceptsIffDriverKeepsSize(v: FbVar, after: FbVar, ow: int, oh: int, fmt: PixFmt)
    ensures FitFbSetting(v, ow, oh, fmt, MemFgSync, FbBufs) ==> FbAccepts(SettleFb(v, after, ow, oh, fmt, MemFgSync), ow, oh, fmt)
    ensures after == ReconfigFb(v, ow, oh, fmt, MemFgSync) ==> FbAccepts(SettleFb(v, after, ow, oh, fmt, MemFgSync), ow, oh, fmt)
    ensures !FitFbSetting(v, ow, oh, fmt, MemFgSync, FbBufs) ==>
              (FbAccepts(SettleFb(v, after, ow, oh, fmt, MemFgSync), ow, oh, fmt)
               <==> ToU32(ow) <= after.xres && ToU32(oh) <= after.yres && Bpp(fmt) == after.bitsPerPixel)
  {
    if after == ReconfigFb(v, ow, oh, fmt, MemFgSync) {
      OverlayAlwaysAccepts(v, ow, oh, fmt);
    }
  }

  /** The fields of fb_fix_screeninfo the library reads: the start of the frame buffer
      memory and the bytes per screen row. */
  datatype FbFix = FbFix(smemStart: int, lineLength: nat)

  /** fb_disp.pos: the output window's position on the screen. */
  datatype Pos = Pos(x: nat, y: nat)

  /** fb_stride: bytes per screen row, computed in 32-bit unsigned arithmetic. */
  function FbStride(v: FbVar): (stride: nat)
    ensures v.xres * v.bitsPerPixel < U32_MOD ==> stride == v.xres * v.bitsPerPixel / 8
  {
    UDiv(UMul(v.xres, v.bitsPerPixel), 8)
  }

  /** Byte offset of the output window inside a screen; the overlay is placed by the
      driver instead, so it is drawn at offset zero. */
  function FbOffset(v: FbVar, pos: Pos, ch: FbChannel): (off: nat)
    ensures ch == MemFgSync ==> off == 0
  {
    if ch != MemFgSync then pos.y * FbStride(v) + pos.x * v.bitsPerPixel / 8 else 0
  }

  /** o_minfo[0..2].paddr for a display: screens 1, 0 and 2 of the virtual screen, in
      that order, each at the window offset. */
  function FbBuffers(smemStart: int, screenSize: int, off: int): (b: seq<int>)
    ensures |b| == 3
  {
    [smemStart + screenSize + off, smemStart + off, smemStart + 2 * screenSize + off]
  }

  /** pan_display's yoffset for output buffer idx. */
  function PanYOffset(idx: int, yres: nat): (y: nat)
    ensures 0 <= idx < 3 ==> y in {0, yres, 2 * yres}
  {
    if idx == 0 then yres else if idx == 1 then 0 else 2 * yres
  }

  /** Panning to buffer idx shows the screen that buffer idx was written to: the screen
      starting yoffset rows (of line_length bytes) into the frame buffer memory. */
  lemma PanShowsBuffer(smemStart: int, v: FbVar, lineLength: nat, off: int, idx: int)
    requires 0 <= idx < 3
    ensures FbBuffers(smemStart, v.yres * lineLength, off)[idx]
            == smemStart + PanYOffset(idx, v.yres) * lineLength + off
  {
  }

  /** The three buffers are whole screens apart, so with a non-empty screen they are
      distinct. */
  lemma FbBuffersDistinct(smemStart: int, screenSize: int, off: int, i: int, j: int)
    requires screenSize > 0 && 0 <= i < 3 && 0 <= j < 3 && i != j
    ensures FbBuffers(smemStart, screenSize, off)[i] != FbBuffers(smemStart, screenSize, off)[j]
  {
  }
}
