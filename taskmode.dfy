/** The task-mode decision of __ipu_task_check: which engines a request needs. */
module TaskModes {
  import opened CInt
  import opened Formats

  /** Rotation codes of the driver that the decision compares against. */
  const ROTATE_NONE: int := 0
  const ROTATE_HORIZ_FLIP: int := 2
  const ROTATE_90_RIGHT: int := 4

  /** The task_mode bitset: IC_MODE (resize/convert), ROT_MODE, COPY_MODE. */
  datatype ModeBits = ModeBits(ic: bool, rot: bool, copy: bool) {
    predicate IsNull() { !ic && !rot && !copy }
    /** `task_mode & ~COPY_MODE`, the part the channel set-up looks at. */
    function Engines(): ModeBits { ModeBits(ic, rot, false) }
  }

  const NullMode: ModeBits := ModeBits(false, false, false)

  /** What __ipu_task_check returns and leaves in owidth/oheight. */
  datatype Decision = Decision(mode: ModeBits, owidth: int, oheight: int)

  /** The rotation needs the output swapped (a 90-degree class rotation). */
  predicate Swaps(rot: int, rotBegin: int) {
    rot >= rotBegin && rot >= ROTATE_90_RIGHT
  }

  /** __ipu_task_check as a value computation: swap the output for a 90-degree rotation,
      align the (rotated) output height for the rotator, compare with the input, then
      swap back. Only the alignment survives the two swaps. */
  function DecideMode(iw: int, ih: int, ow: int, oh: int, rot: int,
                      ifmt: PixFmt, ofmt: PixFmt, rotBegin: int): (d: Decision)
    ensures d.mode.rot <==> rot >= rotBegin
    ensures !d.mode.copy
    ensures d.owidth == (if Swaps(rot, rotBegin) then AlignDown8(ow) else ow)
    ensures d.oheight == (if rot >= rotBegin && !Swaps(rot, rotBegin) then AlignDown8(oh) else oh)
    ensures NeedCsc(ifmt, ofmt) != 0 ==> d.mode.ic
    ensures rot < rotBegin ==> (d.mode.ic <==> (iw != ow || ih != oh || NeedCsc(ifmt, ofmt) != 0
                                                || rot > ROTATE_NONE || ifmt != ofmt))
    ensures Swaps(rot, rotBegin) ==> (d.mode.ic <==> (iw != oh || ih != AlignDown8(ow) || NeedCsc(ifmt, ofmt) != 0))
    ensures rot >= rotBegin && !Swaps(rot, rotBegin) ==>
              (d.mode.ic <==> (iw != ow || ih != AlignDown8(oh) || NeedCsc(ifmt, ofmt) != 0))
  {
    var rotMode := rot >= rotBegin;
    var swap := rotMode && rot >= ROTATE_90_RIGHT;
    // first swap
    var w1 := if swap then oh else ow;
    var h1 := if swap then ow else oh;
    // 8-pixel alignment of the rotator's output height
    var h2 := if rotMode then AlignDown8(h1) else h1;
    var resize := iw != w1 || ih != h2 || NeedCsc(ifmt, ofmt) != 0;
    var flip := !rotMode && !resize && rot > ROTATE_NONE;
    var reformat := !rotMode && !resize && !flip && ifmt != ofmt;
    // second swap
    var w3 := if swap then h2 else w1;
    var h3 := if swap then w1 else h2;
    Decision(ModeBits(resize || flip || reformat, rotMode, false), w3, h3)
  }

  /** What _ipu_task_check makes of the decision: an overlay forces the converter, and a
      request needing no engine becomes a copy. */
  function FinalMode(m: ModeBits, overlay: bool): (r: ModeBits)
    requires !m.copy
    ensures r.rot == m.rot
    ensures r.ic <==> m.ic || overlay
    ensures r.copy <==> (!m.ic && !m.rot && !overlay)
    ensures r.copy ==> !r.ic && !r.rot
  {
    var m1 := if overlay then m.(ic := true) else m;
    if m1.IsNull() then ModeBits(false, false, true) else m1
  }

  /** The two swaps cancel: without alignment effects the output size is returned as given. */
  lemma SwapsCancel(iw: int, ih: int, ow: int, oh: int, rot: int, ifmt: PixFmt, ofmt: PixFmt, rotBegin: int)
    requires ow % 8 == 0 && oh % 8 == 0
    ensures var d := DecideMode(iw, ih, ow, oh, rot, ifmt, ofmt, rotBegin);
      d.owidth == ow && d.oheight == oh
  {
  }

  /** A flip or a format change alone, below the rotator's threshold, still needs the converter. */
  lemma FlipOrFormatNeedsConverter(iw: int, ih: int, rot: int, f: PixFmt, g: PixFmt, rotBegin: int)
    requires rot < rotBegin && (rot > ROTATE_NONE || f != g)
    ensures DecideMode(iw, ih, iw, ih, rot, f, g, rotBegin).mode.ic
  {
  }

  /** With equal geometry, the same format and no rotation, nothing is needed: a copy. */
  lemma IdentityIsCopy(w: int, h: int, f: PixFmt, rotBegin: int)
    requires !f.Other? && rotBegin > ROTATE_NONE
    ensures FinalMode(DecideMode(w, h, w, h, ROTATE_NONE, f, f, rotBegin).mode, false).copy
  {
  }
}
