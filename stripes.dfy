/** Split mode: the two stripes a too-wide output is cut into, and the buffer addresses
    _ipu_split_mode_set_stripe programs for each. */
module Stripes {
  /** One stripe as ipu_calc_stripes_sizes reports it (columns in pixels until scaled). */
  datatype Stripe = Stripe(inputWidth: int, outputWidth: int, inputColumn: int, outputColumn: int, irr: int)

  datatype Side = LeftStripe | RightStripe

  /** The channel-setup step that turns stripe columns from pixels into bytes. */
  function ScaleColumns(s: Stripe, inBytesPerPixel: int, outBytesPerPixel: int): Stripe {
    s.(inputColumn := s.inputColumn * inBytesPerPixel, outputColumn := s.outputColumn * outBytesPerPixel)
  }

  /** What one call of _ipu_split_mode_set_stripe programs on the converter channel. */
  datatype StripeProgram = StripeProgram(bufIdx: int, outAddr: int, inAddr: int, outCol: int, inCol: int)

  function StripeOf(left: Stripe, right: Stripe, side: Side): Stripe {
    if side == LeftStripe then left else right
  }

  /** The left stripe goes to double-buffer slot 0, the right to slot 1; each address is the
      frame buffer plus the crop offset plus the stripe's column. */
  function ProgramStripe(left: Stripe, right: Stripe, side: Side, inBuf: int, outBuf: int,
                         iOff: int, oOff: int): (p: StripeProgram)
    ensures p.bufIdx == (if side == LeftStripe then 0 else 1)
    ensures p.inAddr - p.inCol == inBuf + iOff && p.outAddr - p.outCol == outBuf + oOff
  {
    var s := StripeOf(left, right, side);
    StripeProgram(if side == LeftStripe then 0 else 1,
                  outBuf + oOff + s.outputColumn, inBuf + iOff + s.inputColumn,
                  s.outputColumn, s.inputColumn)
  }

  /** After scaling, each stripe starts at its pixel column times the bytes per pixel of the
      side of the converter it is on, for every stripe and buffer. */
  lemma ScaledStripeStartsAtColumn(left: Stripe, right: Stripe, side: Side, inBpp: int, outBpp: int,
                                   inBuf: int, outBuf: int, iOff: int, oOff: int)
    ensures var p := ProgramStripe(ScaleColumns(left, inBpp, outBpp), ScaleColumns(right, inBpp, outBpp),
                                   side, inBuf, outBuf, iOff, oOff);
      p.inAddr == inBuf + iOff + StripeOf(left, right, side).inputColumn * inBpp
      && p.outAddr == outBuf + oOff + StripeOf(left, right, side).outputColumn * outBpp
  {
  }

  /** The two stripes of one frame are programmed into different slots. */
  lemma StripesUseBothSlots(left: Stripe, right: Stripe, inBuf: int, outBuf: int, iOff: int, oOff: int)
    ensures ProgramStripe(left, right, LeftStripe, inBuf, outBuf, iOff, oOff).bufIdx
            != ProgramStripe(left, right, RightStripe, inBuf, outBuf, iOff, oOff).bufIdx
  {
  }

  /** Scaling keeps column order: with a positive pixel size a stripe further right starts
      at a higher address. */
  lemma ScalingKeepsOrder(left: Stripe, right: Stripe, inBpp: int, outBpp: int,
                          inBuf: int, outBuf: int, iOff: int, oOff: int)
    requires inBpp > 0 && outBpp > 0
    requires left.inputColumn < right.inputColumn && left.outputColumn < right.outputColumn
    ensures var l := ScaleColumns(left, inBpp, outBpp);
      var r := ScaleColumns(right, inBpp, outBpp);
      ProgramStripe(l, r, LeftStripe, inBuf, outBuf, iOff, oOff).inAddr
        < ProgramStripe(l, r, RightStripe, inBuf, outBuf, iOff, oOff).inAddr
      && ProgramStripe(l, r, LeftStripe, inBuf, outBuf, iOff, oOff).outAddr
        < ProgramStripe(l, r, RightStripe, inBuf, outBuf, iOff, oOff).outAddr
  {
    MulStrict(left.inputColumn, right.inputColumn, inBpp);
    MulStrict(left.outputColumn, right.outputColumn, outBpp);
  }

  lemma MulStrict(a: int, b: int, k: int)
    requires a < b && k > 0
    ensures a * k < b * k
  {
    assert b * k - a * k == (b - a) * k;
  }
}
