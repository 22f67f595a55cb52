/** What _ipu_task_check and _ipu_copy_setup decide about a request, as values. */
module Setup {
  import opened Formats
  import opened Geometry
  import opened TaskModes
  import opened Arbiter
  import opened Channels

  /** _ipu_get_arch_ic_out_max_width: 1024 on every chip revision. */
  const IcOutMaxWidth: int := 1024

  /** _ipu_get_arch_rot_begin: on i.MX37 (arch 0x37) a horizontal flip already needs the
      rotator; elsewhere, and when the revision cannot be read, only 90-degree rotations. */
  function RotBegin(systemRev: Option<bv32>): (r: int)
    ensures r == ROTATE_HORIZ_FLIP || r == ROTATE_90_RIGHT
    ensures r == ROTATE_HORIZ_FLIP <==> systemRev.Some? && systemRev.value & 0xff000 == 0x37000
  {
    match systemRev
    case None => ROTATE_90_RIGHT
    case Some(rev) => if rev & 0xff000 == 0x37000 then ROTATE_HORIZ_FLIP else ROTATE_90_RIGHT
  }

  /** The fields of ipu_lib_input_param_t the check reads. */
  datatype InputParam = InputParam(width: int, height: int, fmt: PixFmt, cropWin: Window)

  /** The fields of ipu_lib_overlay_param_t the check reads. */
  datatype OverlayParam = OverlayParam(width: int, height: int, fmt: PixFmt, cropWin: Window,
                                       globalAlphaEn: bool, localAlphaEn: bool)

  /** The fields of ipu_lib_output_param_t the check reads. */
  datatype OutputParam = OutputParam(width: int, height: int, fmt: PixFmt, outputWin: Window,
                                     rot: int, showToFb: bool)

  /** Why the check refuses a request (the code returns -1 for each). */
  datatype Rejection = OverlayNeedsPpOrVf | OneAlphaOnly | OverlaySizeMismatch
                     | SplitWithRotation | SplitWithOverlay | TaskBusy

  /** What an accepted check leaves in the handle. */
  datatype Plan = Plan(input: Crop, overlay: Option<Crop>, ovAlphaOff: int, output: Crop,
                       owidth: int, oheight: int, split: bool, mode: ModeBits, task: set<Slot>)

  datatype CheckResult = Rejected(why: Rejection) | Accepted(plan: Plan)

  function OverlayCrop(ov: OverlayParam): Crop {
    CropInput(ov.width, ov.height, ov.fmt, ov.cropWin)
  }

  /** ov_alpha_off: the pixel index of the overlay window's corner in the local alpha
      plane, set only with local alpha and a window that crops. */
  function AlphaOffset(ov: OverlayParam): int {
    var c := OverlayCrop(ov);
    if HasWindow(ov.cropWin) && (c.w != ov.width || c.h != ov.height) && ov.localAlphaEn
    then ov.cropWin.y * ov.width + ov.cropWin.x
    else 0
  }

  /** _ipu_task_check: the parameter checks, the three crops, split mode, the task mode
      and, unless a copy, the ENC/PP/VF fallback. */
  function CheckTask(inp: InputParam, ov: Option<OverlayParam>, out: OutputParam, pref: Pref,
                     rotBegin: int, inUse: set<Slot>, hw: set<Slot>): CheckResult
  {
    if ov.Some? && pref.IsSet() && !pref.vf && !pref.pp then Rejected(OverlayNeedsPpOrVf)
    else if ov.Some? && ov.value.globalAlphaEn && ov.value.localAlphaEn then Rejected(OneAlphaOnly)
    else
      CheckCropped(inp.fmt, out, pref, rotBegin, inUse, hw,
                   CropInput(inp.width, inp.height, inp.fmt, inp.cropWin),
                   if ov.Some? then Some(OverlayCrop(ov.value)) else None,
                   if ov.Some? then AlphaOffset(ov.value) else 0,
                   CropOutput(out.width, out.height, out.fmt, out.outputWin, out.showToFb))
  }

  /** The part of _ipu_task_check after the crops `ic`, `ovc` and `oc`: split mode, the
      overlay size test, the task mode and the admission of the task. */
  function CheckCropped(ifmt: PixFmt, out: OutputParam, pref: Pref, rotBegin: int,
                        inUse: set<Slot>, hw: set<Slot>,
                        ic: Crop, ovc: Option<Crop>, alpha: int, oc: Crop): CheckResult
  {
    var split := oc.w > IcOutMaxWidth;
    if ovc.Some? && (ovc.value.w != oc.w || ovc.value.h != oc.h) then Rejected(OverlaySizeMismatch)
    else
      var d := DecideMode(ic.w, ic.h, oc.w, oc.h, out.rot, ifmt, out.fmt, rotBegin);
      var m := FinalMode(d.mode, ovc.Some?);
      match Admit(m, ovc.Some?, split, pref, inUse, hw)
      case Refused(why) => Rejected(why)
      case Admitted(t) => Accepted(Plan(ic, ovc, alpha, oc, d.owidth, d.oheight, split, m, t))
  }

  /** CheckCropped once the overlay size test has passed and the task mode is known. */
  lemma CheckCroppedAfterSizeTest(ifmt: PixFmt, out: OutputParam, pref: Pref, rotBegin: int,
                                  inUse: set<Slot>, hw: set<Slot>,
                                  ic: Crop, ovc: Option<Crop>, alpha: int, oc: Crop, d: Decision, a: Admission)
    requires !(ovc.Some? && (ovc.value.w != oc.w || ovc.value.h != oc.h))
    requires d == DecideMode(ic.w, ic.h, oc.w, oc.h, out.rot, ifmt, out.fmt, rotBegin)
    requires a == Admit(FinalMode(d.mode, ovc.Some?), ovc.Some?, oc.w > IcOutMaxWidth, pref, inUse, hw)
    ensures var r := CheckCropped(ifmt, out, pref, rotBegin, inUse, hw, ic, ovc, alpha, oc);
      (r.Accepted? <==> a.Admitted?)
      && (a.Admitted? ==> r.plan == Plan(ic, ovc, alpha, oc, d.owidth, d.oheight, oc.w > IcOutMaxWidth,
                                         FinalMode(d.mode, ovc.Some?), a.task))
  {
  }

  /** The outcome of the last tests of _ipu_task_check for the final mode `m`. */
  datatype Admission = Refused(why: Rejection) | Admitted(task: set<Slot>)

  /** Split mode refuses the rotator and an overlay; a copy takes no task yet; any other
      mode takes the first free task of the ENC/PP/VF fallback. */
  function Admit(m: ModeBits, overlay: bool, split: bool, pref: Pref, inUse: set<Slot>, hw: set<Slot>): Admission {
    if split && m.rot then Refused(SplitWithRotation)
    else if split && overlay then Refused(SplitWithOverlay)
    else if m.copy then Admitted({})
    else
      match Scan(NormalChain(m, overlay), pref, inUse, hw)
      case AllBusy => Refused(TaskBusy)
      case Chosen(t) => Admitted(t)
  }

  /** The parameter checks come first and are exact. */
  lemma CheckParameterRules(inp: InputParam, ov: Option<OverlayParam>, out: OutputParam, pref: Pref,
                            rotBegin: int, inUse: set<Slot>, hw: set<Slot>)
    ensures var r := CheckTask(inp, ov, out, pref, rotBegin, inUse, hw);
      (r == Rejected(OverlayNeedsPpOrVf) <==> ov.Some? && pref.IsSet() && !pref.vf && !pref.pp)
      && (r == Rejected(OneAlphaOnly) ==> ov.value.globalAlphaEn && ov.value.localAlphaEn)
      && (ov.Some? && ov.value.globalAlphaEn && ov.value.localAlphaEn ==> r.Rejected?)
  {
  }

  /** An accepted check never combines split mode with the rotator or an overlay, sizes the
      overlay to the output, and sends an overlay through the converter. */
  lemma CheckAcceptedShape(inp: InputParam, ov: Option<OverlayParam>, out: OutputParam, pref: Pref,
                           rotBegin: int, inUse: set<Slot>, hw: set<Slot>)
    requires CheckTask(inp, ov, out, pref, rotBegin, inUse, hw).Accepted?
    ensures var p := CheckTask(inp, ov, out, pref, rotBegin, inUse, hw).plan;
      p.split == (p.output.w > IcOutMaxWidth)
      && !(p.split && p.mode.rot) && !(p.split && ov.Some?)
      && (ov.Some? ==> p.mode.ic && !p.mode.copy && p.overlay.Some?
                       && p.overlay.value.w == p.output.w && p.overlay.value.h == p.output.h)
      && p.owidth % 8 == 0
      && (p.mode.rot <==> out.rot >= rotBegin)
  {
  }

  /** An accepted non-copy check holds a free task: the requested engines on one path the
      caller allows, never the encoder path for an overlay; a copy holds no task yet. */
  lemma CheckGrantsFreeTask(inp: InputParam, ov: Option<OverlayParam>, out: OutputParam, pref: Pref,
                            rotBegin: int, inUse: set<Slot>, hw: set<Slot>)
    requires CheckTask(inp, ov, out, pref, rotBegin, inUse, hw).Accepted?
    ensures var p := CheckTask(inp, ov, out, pref, rotBegin, inUse, hw).plan;
      (p.mode.copy ==> p.task == {} && !p.mode.ic && !p.mode.rot)
      && (!p.mode.copy ==>
            (!IsTaskBusy(inUse, p.task, hw)
             && exists q: Path :: p.task == TaskOn(q, p.mode) && pref.Allows(q) && (ov.Some? ==> q != Enc)))
  {
    var p := CheckTask(inp, ov, out, pref, rotBegin, inUse, hw).plan;
    if !p.mode.copy {
      NormalChoiceShape(p.mode, ov.Some?, pref, inUse, hw);
    }
  }

  /** Busy is reported exactly when every earlier test passes, the decided final mode needs
      an engine, and that mode's ENC/PP/VF fallback chain finds nothing free. */
  lemma CheckBusyIffChainExhausted(inp: InputParam, ov: Option<OverlayParam>, out: OutputParam, pref: Pref,
                                   rotBegin: int, inUse: set<Slot>, hw: set<Slot>)
    ensures var ic := CropInput(inp.width, inp.height, inp.fmt, inp.cropWin);
      var oc := CropOutput(out.width, out.height, out.fmt, out.outputWin, out.showToFb);
      var m := FinalMode(DecideMode(ic.w, ic.h, oc.w, oc.h, out.rot, inp.fmt, out.fmt, rotBegin).mode, ov.Some?);
      var split := oc.w > IcOutMaxWidth;
      CheckTask(inp, ov, out, pref, rotBegin, inUse, hw) == Rejected(TaskBusy)
      <==> !(ov.Some? && pref.IsSet() && !pref.vf && !pref.pp)
           && !(ov.Some? && ov.value.globalAlphaEn && ov.value.localAlphaEn)
           && !(ov.Some? && (OverlayCrop(ov.value).w != oc.w || OverlayCrop(ov.value).h != oc.h))
           && !(split && m.rot) && !(split && ov.Some?)
           && !m.copy && (m.ic || m.rot)
           && Scan(NormalChain(m, ov.Some?), pref, inUse, hw) == AllBusy
  {
    var ic := CropInput(inp.width, inp.height, inp.fmt, inp.cropWin);
    var oc := CropOutput(out.width, out.height, out.fmt, out.outputWin, out.showToFb);
    var d := DecideMode(ic.w, ic.h, oc.w, oc.h, out.rot, inp.fmt, out.fmt, rotBegin);
    var m := FinalMode(d.mode, ov.Some?);
    if Admit(m, ov.Some?, oc.w > IcOutMaxWidth, pref, inUse, hw) == Refused(TaskBusy) {
      AdmitBusy(m, ov.Some?, oc.w > IcOutMaxWidth, pref, inUse, hw);
    }
  }

  /** Admission reports busy only for a mode with engines whose chain is exhausted. */
  lemma AdmitBusy(m: ModeBits, overlay: bool, split: bool, pref: Pref, inUse: set<Slot>, hw: set<Slot>)
    requires Admit(m, overlay, split, pref, inUse, hw) == Refused(TaskBusy)
    requires m.copy <==> !m.ic && !m.rot
    ensures !m.copy && (m.ic || m.rot) && Scan(NormalChain(m, overlay), pref, inUse, hw) == AllBusy
  {
  }

  /** Why _ipu_copy_setup refuses a copy. */
  datatype CopyRejection = MissingUserBuffers | CopyBusy

  datatype CopyResult = CopyRejected(why: CopyRejection) | CopyGranted(task: set<Slot>)

  /** The user-buffer test of _ipu_copy_setup as the code writes it: in stream mode both
      input buffers and the first two output buffers must be given. */
  predicate CopyBuffersMissingAsWritten(stream: bool, inPaddr: seq<int>, outPaddr: seq<int>)
    requires |inPaddr| >= 2 && |outPaddr| >= 2
  {
    stream && (inPaddr[0] == 0 || inPaddr[1] == 0 || outPaddr[0] == 0 || outPaddr[1] == 0)
  }

  /** The user-buffer test a stream copy needs: the buffer update also writes into the third
      output buffer, so it must be given as well. */
  predicate CopyBuffersMissing(stream: bool, inPaddr: seq<int>, outPaddr: seq<int>)
    requires |inPaddr| >= 2 && |outPaddr| >= 3
  {
    CopyBuffersMissingAsWritten(stream, inPaddr, outPaddr) || (stream && outPaddr[2] == 0)
  }

  /** The output buffers a copy uses, as the code leaves them: the third stays zero. */
  function CopyOutputsAsWritten(outPaddr: seq<int>): (o: seq<int>)
    requires |outPaddr| >= 2
    ensures |o| == 3 && o[2] == 0
  {
    [outPaddr[0], outPaddr[1], 0]
  }

  /** The output buffers of a copy with the third one taken from the caller as well. */
  function CopyOutputs(outPaddr: seq<int>): (o: seq<int>)
    requires |outPaddr| >= 3
    ensures o == outPaddr[..3]
  {
    [outPaddr[0], outPaddr[1], outPaddr[2]]
  }

  /** A stream copy that passes the corrected test has all three output buffers. */
  lemma CopyOutputsPresent(stream: bool, inPaddr: seq<int>, outPaddr: seq<int>)
    requires |inPaddr| >= 2 && |outPaddr| >= 3
    requires stream && !CopyBuffersMissing(stream, inPaddr, outPaddr)
    ensures forall j :: 0 <= j < 3 ==> CopyOutputs(outPaddr)[j] != 0
  {
  }

  /** _ipu_copy_setup's decision: without the caller's buffers a stream copy is refused;
      then the copy chain picks one engine. */
  function CopyTask(stream: bool, pref: Pref, split: bool, inPaddr: seq<int>, outPaddr: seq<int>,
                    inUse: set<Slot>, hw: set<Slot>): (r: CopyResult)
    requires |inPaddr| >= 2 && |outPaddr| >= 3
    ensures r == CopyRejected(MissingUserBuffers) <==> CopyBuffersMissing(stream, inPaddr, outPaddr)
    ensures r == CopyRejected(CopyBusy) <==>
              !CopyBuffersMissing(stream, inPaddr, outPaddr) && Scan(CopyChain(split), pref, inUse, hw) == AllBusy
  {
    if CopyBuffersMissing(stream, inPaddr, outPaddr) then CopyRejected(MissingUserBuffers)
    else
      match Scan(CopyChain(split), pref, inUse, hw)
      case AllBusy => CopyRejected(CopyBusy)
      case Chosen(t) => CopyGranted(t)
  }

  /** _ipu_copy_setup's decision as the code writes it: the user-buffer test looks at two
      output buffers only. */
  function CopyTaskAsWritten(stream: bool, pref: Pref, split: bool, inPaddr: seq<int>, outPaddr: seq<int>,
                             inUse: set<Slot>, hw: set<Slot>): CopyResult
    requires |inPaddr| >= 2 && |outPaddr| >= 2
  {
    if CopyBuffersMissingAsWritten(stream, inPaddr, outPaddr) then CopyRejected(MissingUserBuffers)
    else
      match Scan(CopyChain(split), pref, inUse, hw)
      case AllBusy => CopyRejected(CopyBusy)
      case Chosen(t) => CopyGranted(t)
  }

  /** The corrected decision departs from the code's exactly for a stream copy that gives
      both inputs and the first two outputs but no third output, and then it refuses it. */
  lemma CopyCorrectionRefusesOnlyMissingThird(stream: bool, pref: Pref, split: bool, inPaddr: seq<int>,
                                              outPaddr: seq<int>, inUse: set<Slot>, hw: set<Slot>)
    requires |inPaddr| >= 2 && |outPaddr| >= 3
    ensures CopyTask(stream, pref, split, inPaddr, outPaddr, inUse, hw)
              != CopyTaskAsWritten(stream, pref, split, inPaddr, outPaddr, inUse, hw)
            <==> stream && outPaddr[2] == 0 && !CopyBuffersMissingAsWritten(stream, inPaddr, outPaddr)
    ensures CopyTask(stream, pref, split, inPaddr, outPaddr, inUse, hw)
              != CopyTaskAsWritten(stream, pref, split, inPaddr, outPaddr, inUse, hw)
            ==> CopyTask(stream, pref, split, inPaddr, outPaddr, inUse, hw) == CopyRejected(MissingUserBuffers)
  {
  }

  /** A granted copy holds one free engine, a converter when split, on an allowed path, and
      waits on that engine's interrupt. */
  lemma CopyGrantsOneEngine(stream: bool, pref: Pref, split: bool, inPaddr: seq<int>, outPaddr: seq<int>,
                            inUse: set<Slot>, hw: set<Slot>)
    requires |inPaddr| >= 2 && |outPaddr| >= 3
    requires CopyTask(stream, pref, split, inPaddr, outPaddr, inUse, hw).CopyGranted?
    ensures var t := CopyTask(stream, pref, split, inPaddr, outPaddr, inUse, hw).task;
      !IsTaskBusy(inUse, t, hw)
      && (exists s :: t == {s} && s in {IcEnc, IcPp, RotEnc, RotPp, RotVf} && pref.Allows(PathOf(s))
                      && EndIrq(CopyMode(t), t) == Some(IrqOf(ChannelOf(s))))
      && (split ==> t == {IcEnc} || t == {IcPp})
  {
    var cs := CopyChain(split);
    ScanPicks(cs, pref, inUse, hw);
    var i :| Picks(cs, i, pref, inUse, hw) && cs[i].task == Scan(cs, pref, inUse, hw).task;
    var s :| cs[i].task == {s};
    assert cs[i].path == PathOf(s);
    CopyTaskEndIrq(s);
  }
}
