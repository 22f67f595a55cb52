/** The private task handle (ipu_lib_priv_handle_t) as an object the library updates in
    place: the check records the geometry and the task, the set-up records the buffers and
    the interrupt, and each buffer update steps the pipeline indices. */
module Handle {
  import opened CInt
  import opened Formats
  import opened Geometry
  import opened TaskModes
  import opened Arbiter
  import opened Channels
  import opened Display
  import opened Stripes
  import opened Pipeline
  import opened Setup

  /** What the framebuffer driver reports during _ipu_mem_alloc: its number, the channel it
      names (None: the query failed), its settings and fixed information as first read,
      the same two as read back after a reconfiguration, the window position, and whether
      opening, the queries, the reconfiguration and the mapping work. */
  datatype FbEnv = FbEnv(fbNum: int, reportedChan: Option<FbChannel>, var0: FbVar, fix0: FbFix,
                         varAfter: FbVar, fixAfter: FbFix, pos: Pos, ioOk: bool)

  /** fb_chan: as reported, else by framebuffer number. */
  function FbChannelOf(env: FbEnv): (ch: FbChannel)
    ensures env.reportedChan.Some? ==> ch == env.reportedChan.value
    ensures env.reportedChan.None? ==> ch != OtherFbChannel
  {
    match env.reportedChan
    case Some(c) => c
    case None => DefaultFbChannel(env.fbNum)
  }

  /** The settings in force once the fit test (and, if needed, the reconfiguration and the
      read-back) is done. */
  function FbSettled(env: FbEnv, ow: int, oh: int, fmt: PixFmt): FbVar {
    SettleFb(env.var0, env.varAfter, ow, oh, fmt, FbChannelOf(env))
  }

  /** The fixed information in force at the same point: read back only after a
      reconfiguration. */
  function FbFixSettled(env: FbEnv, ow: int, oh: int, fmt: PixFmt): FbFix {
    if FitFbSetting(env.var0, ow, oh, fmt, FbChannelOf(env), FbBufs) then env.fix0 else env.fixAfter
  }

  /** The settings _ipu_mem_alloc writes with FBIOPUT_VSCREENINFO: none when the current
      ones fit; otherwise a request that passes the fit test on every known channel. */
  function FbRequest(env: FbEnv, ow: int, oh: int, fmt: PixFmt): (req: Option<FbVar>)
    ensures req.None? <==> FitFbSetting(env.var0, ow, oh, fmt, FbChannelOf(env), FbBufs)
    ensures req.Some? && (FbChannelOf(env) != OtherFbChannel || NonstdAgrees(env.var0, fmt))
            ==> FitFbSetting(req.value, ow, oh, fmt, FbChannelOf(env), FbBufs)
  {
    var ch := FbChannelOf(env);
    if FitFbSetting(env.var0, ow, oh, fmt, ch, FbBufs) then None
    else
      var req := ReconfigFb(env.var0, ow, oh, fmt, ch);
      assert ch != OtherFbChannel || NonstdAgrees(env.var0, fmt) ==> FitFbSetting(req, ow, oh, fmt, ch, FbBufs) by {
        if ch != OtherFbChannel || NonstdAgrees(env.var0, fmt) {
          ReconfigFits(env.var0, ow, oh, fmt, ch);
        }
      }
      Some(req)
  }

  /** The framebuffer part of the set-up succeeds: the driver cooperates and the output fits. */
  predicate FbWorks(env: FbEnv, ow: int, oh: int, fmt: PixFmt) {
    env.ioOk && FbAccepts(FbSettled(env, ow, oh, fmt), ow, oh, fmt)
  }

  /** The three output buffers on the display: o_minfo[0..2].paddr. */
  function FbLayout(env: FbEnv, ow: int, oh: int, fmt: PixFmt): (b: seq<int>)
    ensures |b| == 3
  {
    var v := FbSettled(env, ow, oh, fmt);
    var fix := FbFixSettled(env, ow, oh, fmt);
    FbBuffers(fix.smemStart, v.yres * fix.lineLength, FbOffset(v, env.pos, FbChannelOf(env)))
  }

  /** Input buffers used: two in stream mode, else one. */
  function BufCount(stream: bool): (n: nat)
    ensures n == 1 || n == 2
  {
    if stream then 2 else 1
  }

  /** Output buffer i is used: buffer 0 always, buffers 1 and 2 in stream mode. */
  predicate OutputUsed(stream: bool, i: int) {
    i == 0 || (stream && 0 <= i < 3)
  }

  /** Input buffer i is allocated by the library: it is used and the caller gave none. */
  predicate InputAllocated(stream: bool, user: seq<int>, i: int)
    requires 0 <= i < |user|
  {
    i < BufCount(stream) && user[i] == 0
  }

  /** Output buffer i is allocated by the library: used, no display, and none given. */
  predicate OutputAllocated(stream: bool, showToFb: bool, user: seq<int>, i: int)
    requires 0 <= i < |user|
  {
    OutputUsed(stream, i) && !showToFb && user[i] == 0
  }

  /** Every allocation _ipu_mem_alloc makes for input and output succeeds. */
  predicate AllocSucceeds(stream: bool, showToFb: bool, inUser: seq<int>, outUser: seq<int>,
                          allocIn: seq<Option<int>>, allocOut: seq<Option<int>>)
    requires |inUser| >= 2 && |outUser| >= 3 && |allocIn| >= 2 && |allocOut| >= 3
  {
    (forall i :: 0 <= i < 2 && InputAllocated(stream, inUser, i) ==> allocIn[i].Some?)
    && (forall i :: 0 <= i < 3 && OutputAllocated(stream, showToFb, outUser, i) ==> allocOut[i].Some?)
  }

  /** The address an allocation returned (0 if it failed). */
  function AddrOf(a: Option<int>): int {
    if a.Some? then a.value else 0
  }

  /** i_minfo[i].paddr after allocation: the caller's buffer, else an allocated one, for the
      buffers in use; the others keep the zero of the fresh handle. */
  function InputSlot(stream: bool, user: seq<int>, alloc: seq<Option<int>>, i: int): (a: int)
    requires 0 <= i < |user| && i < |alloc|
    ensures i >= BufCount(stream) ==> a == 0
    ensures i < BufCount(stream) && user[i] != 0 ==> a == user[i]
    ensures i < BufCount(stream) && user[i] == 0 ==> a == AddrOf(alloc[i])
  {
    if i >= BufCount(stream) then 0 else if user[i] != 0 then user[i] else AddrOf(alloc[i])
  }

  /** o_minfo[i].paddr after allocation: allocated without a display and a caller buffer,
      else the caller's buffer if any, else zero (a display fills it in afterwards). */
  function OutputSlot(stream: bool, showToFb: bool, user: seq<int>, alloc: seq<Option<int>>, i: int): (a: int)
    requires 0 <= i < |user| && i < |alloc|
    ensures !OutputUsed(stream, i) ==> a == 0
    ensures OutputUsed(stream, i) && user[i] != 0 ==> a == user[i]
    ensures OutputAllocated(stream, showToFb, user, i) ==> a == AddrOf(alloc[i])
  {
    if !OutputUsed(stream, i) then 0
    else if !showToFb && user[i] == 0 then AddrOf(alloc[i])
    else if user[i] != 0 then user[i]
    else 0
  }

  function InputBuffers(stream: bool, user: seq<int>, alloc: seq<Option<int>>): (b: seq<int>)
    requires |user| >= 2 && |alloc| >= 2
    ensures |b| == 2
  {
    [InputSlot(stream, user, alloc, 0), InputSlot(stream, user, alloc, 1)]
  }

  function OutputBuffers(stream: bool, showToFb: bool, user: seq<int>, alloc: seq<Option<int>>): (b: seq<int>)
    requires |user| >= 3 && |alloc| >= 3
    ensures |b| == 3
  {
    [OutputSlot(stream, showToFb, user, alloc, 0), OutputSlot(stream, showToFb, user, alloc, 1),
     OutputSlot(stream, showToFb, user, alloc, 2)]
  }

  /** The output half of one pass of _ipu_mem_alloc's loop, for buffer i of `op`. */
  method PickOutput(fb: bool, outUser: seq<int>, allocOut: seq<Option<int>>, i: int, op: seq<int>)
    returns (ok: bool, op': seq<int>)
    requires 0 <= i < 3 && |outUser| >= 3 && |allocOut| >= 3 && |op| == 3
    ensures |op'| == 3
    ensures ok <==> !(!fb && outUser[i] == 0 && allocOut[i].None?)
    ensures ok ==> op' == op[i := if !fb && outUser[i] == 0 then allocOut[i].value
                                  else if outUser[i] != 0 then outUser[i] else op[i]]
  {
    ok, op' := true, op;
    if !fb && outUser[i] == 0 {
      if allocOut[i].None? {
        return false, op';
      }
      op' := op'[i := allocOut[i].value];
    } else if outUser[i] != 0 {
      op' := op'[i := outUser[i]];
    }
  }

  /** The loop of _ipu_mem_alloc over the buffers in use, starting from a zeroed handle: the
      caller's buffer or an allocated one for each input, and for each output unless it goes
      to a display; in stream mode the second pass jumps back (`goto again`) to fill the
      third output buffer. */
  method ChooseBuffers(stream: bool, fb: bool, inUser: seq<int>, outUser: seq<int>,
                       allocIn: seq<Option<int>>, allocOut: seq<Option<int>>)
    returns (ok: bool, ip: seq<int>, op: seq<int>)
    requires |inUser| >= 2 && |outUser| >= 3 && |allocIn| >= 2 && |allocOut| >= 3
    ensures |ip| == 2 && |op| == 3
    ensures ok <==> AllocSucceeds(stream, fb, inUser, outUser, allocIn, allocOut)
    ensures ok ==> ip == InputBuffers(stream, inUser, allocIn) && op == OutputBuffers(stream, fb, outUser, allocOut)
  {
    var bufcnt := BufCount(stream);
    ip, op := [0, 0], [0, 0, 0];
    var i := 0;
    while i < bufcnt
      invariant i == 0 || i == 1 || (i == 3 && stream)
      invariant |ip| == 2 && |op| == 3
      invariant forall j :: 0 <= j < 2 ==> ip[j] == (if j < i then InputSlot(stream, inUser, allocIn, j) else 0)
      invariant forall j :: 0 <= j < 3 ==> op[j] == (if j < i then OutputSlot(stream, fb, outUser, allocOut, j) else 0)
      invariant forall j :: 0 <= j < 2 && j < i && InputAllocated(stream, inUser, j) ==> allocIn[j].Some?
      invariant forall j :: 0 <= j < 3 && j < i && OutputAllocated(stream, fb, outUser, j) ==> allocOut[j].Some?
      decreases 3 - i
    {
      if inUser[i] == 0 {
        if allocIn[i].None? {
          assert InputAllocated(stream, inUser, i);
          return false, ip, op;
        }
        ip := ip[i := allocIn[i].value];
      } else {
        ip := ip[i := inUser[i]];
      }
      ok, op := PickOutput(fb, outUser, allocOut, i, op);
      if !ok {
        assert OutputAllocated(stream, fb, outUser, i);
        return false, ip, op;
      }
      if i == 1 {
        i := 2;
        ok, op := PickOutput(fb, outUser, allocOut, i, op);
        if !ok {
          assert OutputAllocated(stream, fb, outUser, 2);
          return false, ip, op;
        }
      }
      i := i + 1;
    }
    ok := true;
  }

  /** One attempt to read the end-of-frame interrupt: _ipu_wait_for_irq(irq, 1) when the
      attempts so far have used the first k outcomes. */
  method WaitOnce(arr: seq<bool>, k: nat) returns (ok: bool)
    ensures ok == Arrived(arr, k)
  {
    var rest := if k <= |arr| then arr[k..] else [];
    var timedOut, used := WaitForIrq(1, rest);
    if Arrived(rest, 0) {
      assert exists i :: 0 <= i < 1 && Arrived(rest, i);
    }
    ok := !timedOut;
  }

  /** _ipu_update_offset writing into zeroed offsets: the luma offset always, the chroma
      offsets only for the planar formats that have them. */
  method WriteOffsets(fmt: PixFmt, width: int, height: int, x: int, y: int) returns (p: Planes)
    ensures p == UpdateOffset(fmt, width, height, x, y)
  {
    var q := UpdateOffset(fmt, width, height, x, y);
    p := NoOffsets.(off := q.off);
    if IsPlanar(fmt) {
      p := p.(uoff := q.uoff);
      if !fmt.NV12? {
        p := p.(voff := q.voff);
      }
    }
  }

  /** The clamp-and-align steps of _ipu_task_check for a frame with a crop window: the
      window clamped into the frame, its width (and, when `alignHeight`, its height) aligned
      down to 8, and the offsets of the window when it crops. */
  method ClampWindowed(width: int, height: int, fmt: PixFmt, cropWin: Window, alignHeight: bool)
    returns (win: Window, w: int, h: int, p: Planes)
    requires HasWindow(cropWin)
    ensures win == ClampWindow(cropWin, width, height)
    ensures w == AlignDown8(win.w) && h == (if alignHeight then AlignDown8(win.h) else win.h)
    ensures p == OffsetsFor(fmt, width, height, win, w, h)
  {
    win := cropWin;
    if win.w + win.x > width {
      win := win.(w := width - win.x);
    }
    if win.h + win.y > height {
      win := win.(h := height - win.y);
    }
    w := win.w;
    w := w - CRem8(w);
    h := win.h;
    if alignHeight {
      h := h - CRem8(h);
    }
    p := CropOffsets(fmt, width, height, win, w, h);
  }

  /** The offsets of a working area inside its frame: written only when the area crops. */
  method CropOffsets(fmt: PixFmt, width: int, height: int, win: Window, w: int, h: int)
    returns (p: Planes)
    ensures p == OffsetsFor(fmt, width, height, win, w, h)
  {
    p := NoOffsets;
    if w != width || h != height {
      p := WriteOffsets(fmt, width, height, win.x, win.y);
    }
  }

  /** The clamp-and-align steps of _ipu_task_check for one frame: the caller's window as the
      code leaves it, the working size, and the offsets written into a zeroed handle.
      `alignWindowHeight` and `alignFrameHeight` say whether the height is aligned with and
      without a window. */
  method ClampAndAlign(width: int, height: int, fmt: PixFmt, cropWin: Window,
                       alignWindowHeight: bool, alignFrameHeight: bool)
    returns (win: Window, w: int, h: int, p: Planes)
    ensures Crop(win, w, h, p) == CropFrame(width, height, fmt, cropWin, alignWindowHeight, alignFrameHeight)
  {
    if cropWin.w > 0 || cropWin.h > 0 {
      win, w, h, p := ClampWindowed(width, height, fmt, cropWin, alignWindowHeight);
    } else {
      win, p := cropWin, NoOffsets;
      w := width;
      w := w - CRem8(w);
      h := height;
      if alignFrameHeight {
        h := h - CRem8(h);
      }
    }
  }

  /** The end of _ipu_task_check for the mode `m` that __ipu_task_check chose: the overlay
      forces the converter, split mode refuses the rotator and an overlay, an empty mode
      becomes a copy, and otherwise the ENC/PP/VF fallback picks the task. Returns 0 or -1,
      the final mode, and the task as the code leaves it (the last one tried when busy). */
  method AdmitTask(m: ModeBits, overlay: bool, split: bool, pref: Pref, inUse: set<Slot>, hw: set<Slot>)
    returns (ret: int, mode: ModeBits, task: set<Slot>)
    requires !m.copy
    ensures mode == FinalMode(m, overlay)
    ensures ret == 0 || ret == -1
    ensures ret == 0 <==> Admit(mode, overlay, split, pref, inUse, hw).Admitted?
    ensures ret == 0 ==> task == Admit(mode, overlay, split, pref, inUse, hw).task
  {
    mode, task := m, {};
    if overlay {
      mode := mode.(ic := true);
    }
    if split {
      if mode.rot {
        return -1, mode, task;
      }
      if overlay {
        return -1, mode, task;
      }
    }
    if mode == NullMode {
      return 0, ModeBits(false, false, true), task;
    }
    var busy: bool;
    busy, task := SelectNormalTask(mode, overlay, pref, inUse, hw);
    ret := if busy then -1 else 0;
  }

  /** __ipu_task_check: with the rotator, a 90-degree rotation swaps the output size, whose
      height is then aligned down to 8; the mode needs the converter for a resize, a colour
      conversion, a flip or a format change; the swap is undone at the end. `ow` and `oh`
      are the handle's output size, and `owidth` and `oheight` what the code leaves there. */
  method TaskMode(iwidth: int, iheight: int, ow: int, oh: int, ifmt: PixFmt, ofmt: PixFmt,
                  rot: int, rotBegin: int) returns (mode: ModeBits, owidth: int, oheight: int)
    ensures Decision(mode, owidth, oheight) == DecideMode(iwidth, iheight, ow, oh, rot, ifmt, ofmt, rotBegin)
  {
    mode, owidth, oheight := NullMode, ow, oh;
    if rot >= rotBegin {
      if rot >= ROTATE_90_RIGHT {
        owidth, oheight := oheight, owidth;
      }
      mode := mode.(rot := true);
    }
    if mode.rot {
      oheight := oheight - CRem8(oheight);
    }
    if iwidth != owidth || iheight != oheight || NeedCsc(ifmt, ofmt) != 0 {
      mode := mode.(ic := true);
    }
    if mode == NullMode && rot > ROTATE_NONE {
      mode := mode.(ic := true);
    }
    if mode == NullMode && ifmt != ofmt {
      mode := mode.(ic := true);
    }
    if rot >= rotBegin {
      if rot >= ROTATE_90_RIGHT {
        owidth, oheight := oheight, owidth;
      }
    }
  }

  /** The end of _ipu_task_check once the frames are cropped to `ic`, `ovc` and `oc`: split
      mode from the output width, the overlay size test, __ipu_task_check and the admission
      of a task. Takes the handle's sizes and returns 0 or -1 with the output size, split
      flag, mode and task the code stores; on 0 they are what CheckCropped plans. */
  method DecideTask(ifmt: PixFmt, out: OutputParam, pref: Pref, rotBegin: int, inUse: set<Slot>, hw: set<Slot>,
                    iwidth: int, iheight: int, hasOverlay: bool, ovwidth: int, ovheight: int, ow: int, oh: int,
                    ghost ic: Crop, ghost ovc: Option<Crop>, ghost alpha: int, ghost oc: Crop)
    returns (ret: int, owidth: int, oheight: int, split: bool, mode: ModeBits, task: set<Slot>)
    requires ic.w == iwidth && ic.h == iheight && oc.w == ow && oc.h == oh && ovc.Some? == hasOverlay
    requires hasOverlay ==> ovc.value.w == ovwidth && ovc.value.h == ovheight
    ensures split == (ow > IcOutMaxWidth)
    ensures var r := CheckCropped(ifmt, out, pref, rotBegin, inUse, hw, ic, ovc, alpha, oc);
      (ret == 0 <==> r.Accepted?) && (ret == 0 || ret == -1)
      && (r.Accepted? ==> r.plan.input == ic && r.plan.overlay == ovc && r.plan.ovAlphaOff == alpha
                          && r.plan.output == oc
                          && owidth == r.plan.owidth && oheight == r.plan.oheight && split == r.plan.split
                          && mode == r.plan.mode && task == r.plan.task)
  {
    owidth, oheight, mode, task := ow, oh, NullMode, {};
    split := owidth > IcOutMaxWidth;
    if hasOverlay && (ovwidth != owidth || ovheight != oheight) {
      return -1, owidth, oheight, split, mode, task;
    }
    var m: ModeBits;
    m, owidth, oheight := TaskMode(iwidth, iheight, owidth, oheight, ifmt, out.fmt, out.rot, rotBegin);
    ret, mode, task := AdmitTask(m, hasOverlay, split, pref, inUse, hw);
    CheckCroppedAfterSizeTest(ifmt, out, pref, rotBegin, inUse, hw, ic, ovc, alpha, oc,
                              Decision(m, owidth, oheight), Admit(mode, hasOverlay, split, pref, inUse, hw));
  }

  /** The three clamp-and-align steps of _ipu_task_check, with the offset of the overlay
      window in the local alpha plane: returns the input, overlay and output crops. */
  method CropFrames(inp: InputParam, ov: Option<OverlayParam>, out: OutputParam)
    returns (ic: Crop, ovc: Option<Crop>, alpha: int, oc: Crop)
    ensures ic == CropInput(inp.width, inp.height, inp.fmt, inp.cropWin)
    ensures ovc == if ov.Some? then Some(OverlayCrop(ov.value)) else None
    ensures alpha == if ov.Some? then AlphaOffset(ov.value) else 0
    ensures oc == CropOutput(out.width, out.height, out.fmt, out.outputWin, out.showToFb)
  {
    var win: Window;
    var w, h: int;
    var p: Planes;
    win, w, h, p := ClampAndAlign(inp.width, inp.height, inp.fmt, inp.cropWin, true, false);
    ic := Crop(win, w, h, p);
    ovc, alpha := None, 0;
    if ov.Some? {
      var o := ov.value;
      win, w, h, p := ClampAndAlign(o.width, o.height, o.fmt, o.cropWin, true, false);
      ovc := Some(Crop(win, w, h, p));
      if HasWindow(o.cropWin) && (w != o.width || h != o.height) && o.localAlphaEn {
        alpha := o.cropWin.y * o.width + o.cropWin.x;
      }
    }
    win, w, h, p := ClampAndAlign(out.width, out.height, out.fmt, out.outputWin, out.showToFb, out.showToFb);
    oc := Crop(win, w, h, p);
  }

  /** The choices of _ipu_copy_setup, on the input buffers `ip0` and output state `o0` it
      starts from: the user buffers must be there, then the copy chain picks an engine,
      and the mode bit of that engine is added to the copy mode. */
  method CopySteps(stream: bool, pref: Pref, split: bool, inUser: seq<int>, outUser: seq<int>,
                   inUse: set<Slot>, hw: set<Slot>, ip0: seq<int>, o0: OutputState)
    returns (granted: bool, ip: seq<int>, o: OutputState)
    requires |inUser| >= 2 && |outUser| >= 3 && |ip0| == 2 && |o0.oPaddr| == 3
    requires o0.taskMode == ModeBits(false, false, true)
    ensures |ip| == 2 && |o.oPaddr| == 3
    ensures o.frame == o0.frame && o.crop == o0.crop
    ensures var r := CopyTask(stream, pref, split, inUser, outUser, inUse, hw);
      (granted <==> r.CopyGranted?)
      && (granted ==>
            o.ipuTask == r.task && o.taskMode == CopyMode(r.task) && !o.showToFb
            && ip == inUser[..2] && o.oPaddr == CopyOutputs(outUser)
            && EndIrq(o.taskMode, o.ipuTask).Some?)
  {
    ip, o := ip0, o0;
    if CopyBuffersMissing(stream, inUser, outUser) {
      return false, ip, o;
    }
    ip := [inUser[0], inUser[1]];
    var busy, task := SelectCopyTask(split, pref, inUse, hw);
    o := o.(showToFb := false, oPaddr := [outUser[0], outUser[1], outUser[2]], ipuTask := task);
    if busy {
      return false, ip, o;
    }
    if task == {IcEnc} || task == {IcPp} {
      o := o.(taskMode := o.taskMode.(ic := true));
    } else {
      o := o.(taskMode := o.taskMode.(rot := true));
    }
    assert CopyTask(stream, pref, split, inUser, outUser, inUse, hw) == CopyGranted(task);
    assert inUser[..2] == ip && CopyOutputs(outUser) == o.oPaddr;
    CopyGrantsOneEngine(stream, pref, split, inUser, outUser, inUse, hw);
    granted := true;
  }

  /** A frame as the caller describes it: input_width/height/fmt or output_width/height/fmt. */
  datatype Frame = Frame(width: int, height: int, fmt: PixFmt)

  /** A frame after cropping, as the handle keeps it: the working size and the plane offsets
      (iwidth, iheight, i_off, i_uoff, i_voff and their overlay and output counterparts). */
  datatype Cropped = Cropped(w: int, h: int, planes: Planes)

  function Stored(c: Crop): (k: Cropped)
    ensures k.w == c.w && k.h == c.h && k.planes == c.planes
  {
    Cropped(c.w, c.h, c.planes)
  }

  /** overlay_en, overlay_local_alpha_en, the overlay crop and ov_alpha_off. */
  datatype OverlayState = OverlayState(en: bool, localAlphaEn: bool, crop: Cropped, alphaOff: int)

  /** The `output` member of the handle: task_mode, ipu_task, o_minfo[0..2].paddr,
      show_to_fb, the caller's output frame and the output crop. */
  datatype OutputState = OutputState(taskMode: ModeBits, ipuTask: set<Slot>, oPaddr: seq<int>,
                                     showToFb: bool, frame: Frame, crop: Cropped)

  const NoCrop: Cropped := Cropped(0, 0, NoOffsets)
  const NoOverlay: OverlayState := OverlayState(false, false, NoCrop, 0)
  const NoOutput: OutputState := OutputState(NullMode, {}, [0, 0, 0], false, Frame(0, 0, Other(0)), NoCrop)

  /** The handle fields _ipu_task_check writes. */
  datatype CheckFields = CheckFields(input: Frame, inCrop: Cropped, overlay: OverlayState, splitMode: bool,
                                     leftStripe: Stripe, rightStripe: Stripe, output: OutputState)

  /** The fields an accepted check leaves, as its plan says. */
  predicate PlanHeld(f: CheckFields, p: Plan) {
    f.inCrop == Stored(p.input)
    && (p.overlay.Some? ==> f.overlay.crop == Stored(p.overlay.value))
    && f.overlay.alphaOff == p.ovAlphaOff && f.overlay.en == p.overlay.Some?
    && f.output.crop == Cropped(p.owidth, p.oheight, p.output.planes)
    && f.splitMode == p.split && f.output.taskMode == p.mode && f.output.ipuTask == p.task
  }

  /** What a check `r` leaves: 0 exactly on acceptance, and then the plan in the fields,
      the windows the plan cropped to, the alpha flag and, in split mode, the stripes. */
  predicate CheckReflected(f: CheckFields, r: CheckResult, ret: int, inWin: Window, ovWin: Option<Window>,
                           outWin: Window, hasOverlay: bool, localAlpha: bool, left: Stripe, right: Stripe)
  {
    (ret == 0 <==> r.Accepted?) && (ret == 0 || ret == -1)
    && (r.Accepted? ==>
          PlanHeld(f, r.plan) && inWin == r.plan.input.win && outWin == r.plan.output.win
          && (hasOverlay ==> r.plan.overlay.Some? && ovWin == Some(r.plan.overlay.value.win))
          && f.overlay.localAlphaEn == (hasOverlay && localAlpha)
          && (f.splitMode ==> f.leftStripe == left && f.rightStripe == right))
  }

  /** _ipu_task_check on the fields `f0` it starts from: returns 0 or -1, the three windows
      as the code leaves them in the caller's structures, and the fields it leaves; `left`
      and `right` are what ipu_calc_stripes_sizes reports. The output buffers and display
      flag are left alone. */
  method CheckSteps(inp: InputParam, ov: Option<OverlayParam>, out: OutputParam, pref: Pref, rotBegin: int,
                    inUse: set<Slot>, hw: set<Slot>, left: Stripe, right: Stripe, f0: CheckFields)
    returns (ret: int, inWin: Window, ovWin: Option<Window>, outWin: Window, f: CheckFields)
    ensures CheckReflected(f, CheckTask(inp, ov, out, pref, rotBegin, inUse, hw), ret, inWin, ovWin, outWin,
                           ov.Some?, ov.Some? && ov.value.localAlphaEn, left, right)
    ensures f.output.oPaddr == f0.output.oPaddr && f.output.showToFb == f0.output.showToFb
    ensures ret == 0 ==> f.input == Frame(inp.width, inp.height, inp.fmt)
                         && f.output.frame == Frame(out.width, out.height, out.fmt)
  {
    inWin, ovWin, outWin, f := inp.cropWin, None, out.outputWin, f0;
    if ov.Some? && pref.IsSet() && !pref.vf && !pref.pp {
      return -1, inWin, ovWin, outWin, f;
    }
    if ov.Some? && ov.value.globalAlphaEn && ov.value.localAlphaEn {
      return -1, inWin, ovWin, outWin, f;
    }
    var ic, ovc, alpha, oc := CropFrames(inp, ov, out);
    assert CheckTask(inp, ov, out, pref, rotBegin, inUse, hw)
           == CheckCropped(inp.fmt, out, pref, rotBegin, inUse, hw, ic, ovc, alpha, oc);
    var ow, oh, split, mode, task;
    ret, ow, oh, split, mode, task :=
      DecideTask(inp.fmt, out, pref, rotBegin, inUse, hw, ic.w, ic.h, ovc.Some?,
                 if ovc.Some? then ovc.value.w else 0, if ovc.Some? then ovc.value.h else 0, oc.w, oc.h,
                 ic, ovc, alpha, oc);
    inWin, outWin := ic.win, oc.win;
    ovWin := if ovc.Some? then Some(ovc.value.win) else None;
    var accepted := ret == 0;
    var o := f0.output.(frame := Frame(out.width, out.height, out.fmt), crop := Cropped(ow, oh, oc.planes));
    if accepted {
      o := o.(taskMode := mode, ipuTask := task);
    }
    f := CheckFields(Frame(inp.width, inp.height, inp.fmt), Stored(ic),
                     OverlayState(accepted && ov.Some?, accepted && ov.Some? && ov.value.localAlphaEn,
                                  if ovc.Some? then Stored(ovc.value) else f0.overlay.crop, alpha),
                     split,
                     if accepted && split then left else f0.leftStripe,
                     if accepted && split then right else f0.rightStripe,
                     o);
  }

  /** ipu_lib_priv_handle_t, restricted to the fields the modelled operations use. The
      buffer indices and frame counters are kept together as a PipeState. */
  class TaskHandle {
    // mode: OP_STREAM_MODE and the path preference bits
    var stream: bool
    var pref: Pref
    // enabled, update_bufnum, tri_output_bufnum, output_bufnum, input_fr_cnt, output_fr_cnt
    var pipe: PipeState
    var irq: Option<Irq>
    // i_minfo[0..1].paddr
    var iPaddr: seq<int>
    var input: Frame
    var inCrop: Cropped
    var overlay: OverlayState
    var splitMode: bool
    var leftStripe: Stripe
    var rightStripe: Stripe
    var output: OutputState
    // what the handle has programmed so far
    var events: seq<Event>

    /** The handle as malloc and memset leave it, with the caller's mode recorded. */
    predicate Pristine()
      reads this
    {
      pipe == InitialState && irq.None? && iPaddr == [0, 0] && inCrop == NoCrop
      && overlay == NoOverlay && !splitMode && output == NoOutput && events == []
    }

    predicate Valid()
      reads this
    {
      |iPaddr| == 2 && |output.oPaddr| == 3 && ValidState(pipe)
    }

    /** The fields a buffer update reads. */
    function Config(): (c: PipeConfig)
      reads this
      ensures Valid() ==> ValidConfig(c)
    {
      PipeConfig(stream, output.showToFb, splitMode, overlay.en, overlay.localAlphaEn, iPaddr, output.oPaddr,
                 inCrop.planes.off, output.crop.planes.off, overlay.crop.planes.off, overlay.alphaOff)
    }

    /** malloc and memset of the private handle, then `mode` is stored. */
    constructor (stream: bool, pref: Pref)
      ensures Pristine() && Valid()
      ensures this.stream == stream && this.pref == pref
    {
      this.stream, this.pref := stream, pref;
      pipe, irq, iPaddr := InitialState, None, [0, 0];
      input, inCrop, overlay := Frame(0, 0, Other(0)), NoCrop, NoOverlay;
      splitMode, leftStripe, rightStripe := false, Stripe(0, 0, 0, 0, 0), Stripe(0, 0, 0, 0, 0);
      output, events := NoOutput, [];
    }

    /** _ipu_task_check: the check on the current fields, then the fields it leaves. */
    method TaskCheck(inp: InputParam, ov: Option<OverlayParam>, out: OutputParam, rotBegin: int,
                     inUse: set<Slot>, hw: set<Slot>, left: Stripe, right: Stripe)
      returns (ret: int, inWin: Window, ovWin: Option<Window>, outWin: Window)
      modifies this`input, this`inCrop, this`overlay, this`splitMode, this`leftStripe, this`rightStripe,
               this`output
      ensures CheckReflected(CheckFields(input, inCrop, overlay, splitMode, leftStripe, rightStripe, output),
                             CheckTask(inp, ov, out, pref, rotBegin, inUse, hw), ret, inWin, ovWin, outWin,
                             ov.Some?, ov.Some? && ov.value.localAlphaEn, left, right)
      ensures output.oPaddr == old(output.oPaddr) && output.showToFb == old(output.showToFb)
      ensures ret == 0 ==> input == Frame(inp.width, inp.height, inp.fmt)
                           && output.frame == Frame(out.width, out.height, out.fmt)
    {
      var f;
      ret, inWin, ovWin, outWin, f := CheckSteps(inp, ov, out, pref, rotBegin, inUse, hw, left, right,
                   CheckFields(input, inCrop, overlay, splitMode, leftStripe, rightStripe, output));
      input, inCrop, overlay, splitMode, leftStripe, rightStripe, output :=
        f.input, f.inCrop, f.overlay, f.splitMode, f.leftStripe, f.rightStripe, f.output;
      assert CheckFields(input, inCrop, overlay, splitMode, leftStripe, rightStripe, output) == f;
    }

    /** The end of _ipu_channel_setup that the model keeps: a converter-only split task
        turns the stripe columns into bytes and programs the left stripe; then the
        interrupt is chosen by the end channel. `chanRet` is what the driver calls return. */
    method ChannelSetup(inBytes: int, outBytes: int, chanRet: int) returns (ret: int)
      requires |iPaddr| == 2 && |output.oPaddr| == 3
      modifies this`leftStripe, this`rightStripe, this`irq, this`events
      ensures ret == chanRet
      ensures chanRet < 0 ==> leftStripe == old(leftStripe) && rightStripe == old(rightStripe)
                              && irq == old(irq) && events == old(events)
      ensures chanRet >= 0 ==> irq == (if EndIrq(output.taskMode, output.ipuTask).Some?
                                       then EndIrq(output.taskMode, output.ipuTask) else old(irq))
      ensures var striped := chanRet >= 0 && splitMode && output.taskMode.Engines() == ModeBits(true, false, false);
        (striped ==> leftStripe == ScaleColumns(old(leftStripe), inBytes, outBytes)
                     && rightStripe == ScaleColumns(old(rightStripe), inBytes, outBytes)
                     && events == old(events) + [PrepareStripe(LeftStripe, iPaddr[0], output.oPaddr[0])])
        && (!striped ==> leftStripe == old(leftStripe) && rightStripe == old(rightStripe) && events == old(events))
    {
      ret := chanRet;
      if chanRet < 0 {
        return;
      }
      if output.taskMode.Engines() == ModeBits(true, false, false) && splitMode {
        leftStripe := ScaleColumns(leftStripe, inBytes, outBytes);
        rightStripe := ScaleColumns(rightStripe, inBytes, outBytes);
        events := events + [PrepareStripe(LeftStripe, iPaddr[0], output.oPaddr[0])];
      }
      var e := EndIrq(output.taskMode, output.ipuTask);
      if e.Some? {
        irq := e;
      }
    }

    /** _ipu_copy_setup after an accepted copy check, with the stream test corrected to
        cover the third output buffer. */
    method CopySetup(inUser: seq<int>, outUser: seq<int>, inUse: set<Slot>, hw: set<Slot>,
                     inBytes: int, outBytes: int, chanRet: int) returns (ret: int)
      requires |inUser| >= 2 && |outUser| >= 3 && |iPaddr| == 2 && |output.oPaddr| == 3
      requires output.taskMode == ModeBits(false, false, true)
      modifies this`iPaddr, this`output, this`leftStripe, this`rightStripe, this`irq, this`events
      ensures |iPaddr| == 2 && |output.oPaddr| == 3
      ensures output.frame == old(output.frame) && output.crop == old(output.crop)
      ensures var r := CopyTask(stream, pref, splitMode, inUser, outUser, inUse, hw);
        (r.CopyRejected? ==> ret == -1)
        && (r.CopyGranted? ==>
              ret == chanRet && output.ipuTask == r.task && output.taskMode == CopyMode(r.task)
              && !output.showToFb && iPaddr == inUser[..2] && output.oPaddr == CopyOutputs(outUser)
              && (chanRet >= 0 ==> irq == EndIrq(output.taskMode, output.ipuTask)))
    {
      var granted, ip, o := CopySteps(stream, pref, splitMode, inUser, outUser, inUse, hw, iPaddr, output);
      iPaddr, output := ip, o;
      if !granted {
        return -1;
      }
      ret := ChannelSetup(inBytes, outBytes, chanRet);
    }

    /** The input and output buffer choice of _ipu_mem_alloc, stored in the handle. */
    method AllocBuffers(fb: bool, inUser: seq<int>, outUser: seq<int>,
                        allocIn: seq<Option<int>>, allocOut: seq<Option<int>>) returns (ret: int)
      requires |inUser| >= 2 && |outUser| >= 3 && |allocIn| >= 2 && |allocOut| >= 3
      requires iPaddr == [0, 0] && output.oPaddr == [0, 0, 0]
      modifies this`iPaddr, this`output
      ensures output == old(output).(showToFb := fb, oPaddr := output.oPaddr)
      ensures |iPaddr| == 2 && |output.oPaddr| == 3
      ensures ret == 0 || ret == -1
      ensures ret == 0 <==> AllocSucceeds(stream, fb, inUser, outUser, allocIn, allocOut)
      ensures ret == 0 ==> iPaddr == InputBuffers(stream, inUser, allocIn)
                           && output.oPaddr == OutputBuffers(stream, fb, outUser, allocOut)
    {
      output := output.(showToFb := fb);
      var ok, ip, op := ChooseBuffers(stream, fb, inUser, outUser, allocIn, allocOut);
      iPaddr, output := ip, output.(oPaddr := op);
      ret := if ok then 0 else -1;
    }

    /** The display part of _ipu_mem_alloc: once the framebuffer is open, fitted (or
        reconfigured) and found large enough for the output, the three output buffers are
        three screens of it. */
    method ShowOnFb(env: FbEnv) returns (ret: int, asked: Option<FbVar>)
      requires |output.oPaddr| == 3
      modifies this`output
      ensures ret == 0 || ret == -1
      ensures ret == 0 <==> FbWorks(env, old(output.crop.w), old(output.crop.h), old(output.frame.fmt))
      ensures env.ioOk ==> asked == FbRequest(env, old(output.crop.w), old(output.crop.h), old(output.frame.fmt))
      ensures ret == 0 ==> output == old(output.(oPaddr := FbLayout(env, output.crop.w, output.crop.h, output.frame.fmt)))
      ensures ret != 0 ==> output == old(output)
    {
      var ow, oh, fmt := output.crop.w, output.crop.h, output.frame.fmt;
      asked := None;
      if !env.ioOk {
        return -1, asked;
      }
      var chan := FbChannelOf(env);
      var v, fix := env.var0, env.fix0;
      if !FitFbSetting(v, ow, oh, fmt, chan, FbBufs) {
        asked := Some(ReconfigFb(v, ow, oh, fmt, chan));
        v, fix := env.varAfter, env.fixAfter;
      }
      if ToU32(ow) > v.xres || ToU32(oh) > v.yres || Bpp(fmt) != v.bitsPerPixel {
        return -1, asked;
      }
      var offset := FbOffset(v, env.pos, chan);
      var screenSize := v.yres * fix.lineLength;
      output := output.(oPaddr := [fix.smemStart + screenSize + offset, fix.smemStart + offset,
                                   fix.smemStart + 2 * screenSize + offset]);
      ret := 0;
    }

    /** The part of mxc_ipu_lib_task_init between opening the device and claiming the
        task, on a fresh handle: the check, then the copy or the task set-up. */
    method Setup(inp: InputParam, ov: Option<OverlayParam>, out: OutputParam, inUser: seq<int>,
                 outUser: seq<int>, inUse: set<Slot>, d: Driver) returns (ret: int)
      requires |inUser| >= 2 && |outUser| >= 3 && |d.allocIn| >= 2 && |d.allocOut| >= 3
      requires ValidState(pipe) && !pipe.enabled && iPaddr == [0, 0] && output.oPaddr == [0, 0, 0]
      modifies this`input, this`inCrop, this`overlay, this`splitMode, this`leftStripe, this`rightStripe,
               this`output, this`iPaddr, this`irq, this`events
      ensures Valid()
      ensures ret >= 0 <==> SetupSucceeds(inp, ov, out, inUser, outUser, stream, pref, inUse, d)
      ensures ret >= 0 ==> output.ipuTask == InitTask(CheckTask(inp, ov, out, pref, d.rotBegin, inUse, d.hw),
                                                      stream, pref, inUser, outUser, inUse, d)
    {
      ghost var r := CheckTask(inp, ov, out, pref, d.rotBegin, inUse, d.hw);
      var inWin, ovWin, outWin;
      ret, inWin, ovWin, outWin := TaskCheck(inp, ov, out, d.rotBegin, inUse, d.hw, d.left, d.right);
      if ret < 0 {
        return;
      }
      CheckGrantsFreeTask(inp, ov, out, pref, d.rotBegin, inUse, d.hw);
      ret := SetupChecked(r, out, inUser, outUser, inUse, d);
    }

    /** The set-up after the check accepted the plan of `r`: _ipu_copy_setup for a copy,
        _ipu_task_setup otherwise. */
    method SetupChecked(ghost r: CheckResult, out: OutputParam, inUser: seq<int>, outUser: seq<int>,
                        inUse: set<Slot>, d: Driver) returns (ret: int)
      requires |inUser| >= 2 && |outUser| >= 3 && |d.allocIn| >= 2 && |d.allocOut| >= 3
      requires ValidState(pipe) && iPaddr == [0, 0] && output.oPaddr == [0, 0, 0]
      requires r.Accepted? && output.taskMode == r.plan.mode && output.ipuTask == r.plan.task
      requires splitMode == r.plan.split && output.frame.fmt == out.fmt
      requires output.crop.w == r.plan.owidth && output.crop.h == r.plan.oheight
      requires r.plan.mode.copy ==> r.plan.task == {} && !r.plan.mode.ic && !r.plan.mode.rot
      modifies this`output, this`iPaddr, this`leftStripe, this`rightStripe, this`irq, this`events
      ensures Valid()
      ensures ret >= 0 <==> Proceeds(r, out, inUser, outUser, stream, pref, inUse, d)
      ensures ret >= 0 ==> output.ipuTask == InitTask(r, stream, pref, inUser, outUser, inUse, d)
    {
      if output.taskMode.copy {
        ret := CopySetup(inUser, outUser, inUse, d.hw, d.inBytes, d.outBytes, d.chanRet);
      } else {
        ret := TaskSetup(out.showToFb, inUser, outUser, d);
      }
    }

    /** _ipu_task_setup: the buffers, then the display if the output goes to one, then the
        channels; any failure stops it. The task and mode stay as the check chose them. */
    method TaskSetup(fb: bool, inUser: seq<int>, outUser: seq<int>, d: Driver) returns (ret: int)
      requires |inUser| >= 2 && |outUser| >= 3 && |d.allocIn| >= 2 && |d.allocOut| >= 3
      requires iPaddr == [0, 0] && output.oPaddr == [0, 0, 0]
      modifies this`iPaddr, this`output, this`leftStripe, this`rightStripe, this`irq, this`events
      ensures |iPaddr| == 2 && |output.oPaddr| == 3
      ensures output == old(output).(showToFb := fb, oPaddr := output.oPaddr)
      ensures ret >= 0 <==> AllocSucceeds(stream, fb, inUser, outUser, d.allocIn, d.allocOut)
                            && (fb ==> FbWorks(d.fb, output.crop.w, output.crop.h, output.frame.fmt))
                            && d.chanRet >= 0
    {
      ret := AllocBuffers(fb, inUser, outUser, d.allocIn, d.allocOut);
      if ret == 0 && fb {
        var asked;
        ret, asked := ShowOnFb(d.fb);
      }
      if ret < 0 {
        return;
      }
      ret := ChannelSetup(d.inBytes, d.outBytes, d.chanRet);
    }

    /** mxc_ipu_lib_task_buf_update: returns the input buffer to fill next, or a negative
        error; the indices and the log move as BufUpdate says. */
    method TaskBufUpdate(req: Request, enableRet: int, arr: seq<bool>) returns (ret: int)
      requires Valid()
      modifies this`pipe, this`events
      ensures Valid()
      ensures var r := BufUpdate(Config(), old(pipe), req, enableRet, arr);
        ret == r.ret && pipe == r.state && events == old(events) + r.events
    {
      var c := Config();
      var r: Outcome;
      if !pipe.enabled {
        r := FirstSteps(c, pipe, req, enableRet, arr);
      } else {
        r := LaterSteps(c, pipe, req, arr);
      }
      pipe, events := r.state, events + r.events;
      ret := r.ret;
    }
  }

  /** Programs a stripe pair on buffers `inBuf` and `outBuf` as a later call does: the
      left stripe, a wait for it (attempt k), then the right stripe if it came. */
  method RunStripes(inBuf: int, outBuf: int, arr: seq<bool>, k: nat) returns (ok: bool, e: seq<Event>)
    ensures ok == Arrived(arr, k)
    ensures e == [SetStripe(LeftStripe, inBuf, outBuf), Wait(ok)]
                 + (if ok then [SetStripe(RightStripe, inBuf, outBuf)] else [])
  {
    e := [SetStripe(LeftStripe, inBuf, outBuf)];
    ok := WaitOnce(arr, k);
    e := e + [Wait(ok)];
    if ok {
      e := e + [SetStripe(RightStripe, inBuf, outBuf)];
    }
  }

  /** The output callback, if one is given, on buffer cbIdx, then on a display the pan to
      buffer panIdx. */
  method Report(c: PipeConfig, req: Request, cbIdx: int, panIdx: int) returns (e: seq<Event>)
    ensures e == Notify(c, req, cbIdx, panIdx)
  {
    e := [];
    if req.callback {
      e := e + [Callback(cbIdx)];
    }
    if c.showToFb {
      e := e + [Pan(panIdx)];
    }
  }

  /** The first mxc_ipu_lib_task_buf_update on a handle with settings `c` and indices `s`:
      enable the task (its result is `enableRet`), wait for the first frame (both stripes
      in split mode), report it, prime the second frame in stream-and-split mode, and set
      up the output ring. */
  method FirstSteps(c: PipeConfig, s: PipeState, req: Request, enableRet: int, arr: seq<bool>)
    returns (r: Outcome)
    requires ValidConfig(c)
    ensures r == FirstCall(c, s, req, enableRet, arr)
  {
    var e := [EnableTask];
    if enableRet < 0 {
      return Outcome(enableRet, s, e, 0);
    }
    var t := s.(inputFrCnt := if c.stream then 2 else 1);
    var ok := WaitOnce(arr, 0);
    e := e + [Wait(ok)];
    if !ok {
      return Outcome(-1, t, e, 1);
    }
    assert e == [EnableTask, Wait(true)];
    var k := 1;
    if c.split {
      e := e + [SetStripe(RightStripe, c.iPaddr[0], c.oPaddr[0])];
      ok := WaitOnce(arr, k);
      e := e + [Wait(ok)];
      k := k + 1;
      if !ok {
        return Outcome(-1, t, e, k);
      }
    }
    assert e == [EnableTask, Wait(true)] + (if c.split then [SetStripe(RightStripe, c.iPaddr[0], c.oPaddr[0]), Wait(true)] else []);
    var report := Report(c, req, s.outputBufnum, s.outputBufnum);
    e := e + report;
    ghost var e3 := e;
    if c.split && c.stream {
      e := e + [SetStripe(LeftStripe, c.iPaddr[1], c.oPaddr[1])];
      ok := WaitOnce(arr, k);
      e := e + [Wait(ok)];
      k := k + 1;
      if !ok {
        return Outcome(-1, t, e, k);
      }
      e := e + [SetStripe(RightStripe, c.iPaddr[1], c.oPaddr[1])];
      assert e == e3 + [SetStripe(LeftStripe, c.iPaddr[1], c.oPaddr[1]), Wait(true)] + [SetStripe(RightStripe, c.iPaddr[1], c.oPaddr[1])];
    }
    t := t.(triOutputBufnum := if c.stream then 2 else if c.showToFb then 1 else 0,
            outputFrCnt := 1, enabled := true);
    if c.stream {
      t := t.(outputBufnum := (t.outputBufnum + 1) % 3);
    }
    r := Outcome(t.updateBufnum, t, e, k);
  }

  /** The overlay part of a later buffer update: new overlay and alpha buffers if given
      and enabled, then their selection. */
  method OverlaySteps(c: PipeConfig, req: Request, u: int) returns (e: seq<Event>)
    ensures e == OverlayEvents(c, req, u)
  {
    e := [];
    if req.newOv != 0 && c.overlayEn {
      e := e + [UpdateBuf(GraphInBuf, u, req.newOv + c.ovOff)];
    }
    if req.newAlpha != 0 && c.overlayEn && c.localAlphaEn {
      e := e + [UpdateBuf(AlphaInBuf, u, req.newAlpha + c.ovAlphaOff)];
    }
    if c.overlayEn {
      e := e + [SelectBuf(GraphInBuf, u)];
      if c.localAlphaEn {
        e := e + [SelectBuf(AlphaInBuf, u)];
      }
    }
  }

  /** The end of a later buffer update once the input is in place: overlay and alpha
      buffers, the output buffer (without stripes), then either flip the input double
      buffer (stream mode) or wait for the frame and report it; `k` interrupt attempts
      are already used. */
  method QueueSteps(c: PipeConfig, s: PipeState, req: Request, arr: seq<bool>, k: nat) returns (r: Outcome)
    requires ValidConfig(c) && ValidState(s)
    ensures r == LaterTail(c, s, req, arr, k)
  {
    var u := s.updateBufnum;
    var e := OverlaySteps(c, req, u);
    if !c.split {
      e := e + [UpdateBuf(OutputBuf, u, c.oPaddr[s.triOutputBufnum] + c.oOff), SelectBuf(OutputBuf, u),
                SelectBuf(InputBuf, u)];
    }
    assert e == OverlayEvents(c, req, u) + QueueEvents(c, s);
    var t := s;
    var used := k;
    if c.stream {
      t := t.(updateBufnum := if u != 0 then 0 else 1);
    } else {
      var ok := WaitOnce(arr, k);
      e := e + [Wait(ok)];
      used := k + 1;
      if !ok {
        return Outcome(-1, s, e, used);
      }
      var report := Report(c, req, s.outputBufnum, s.triOutputBufnum);
      e := e + report;
    }
    if c.stream || c.showToFb {
      t := t.(triOutputBufnum := (t.triOutputBufnum + 1) % 3);
    }
    t := t.(inputFrCnt := t.inputFrCnt + 1, outputFrCnt := t.outputFrCnt + 1);
    if c.stream {
      t := t.(outputBufnum := (t.outputBufnum + 1) % 3);
    }
    r := Outcome(t.updateBufnum, t, e, used);
  }

  /** A later mxc_ipu_lib_task_buf_update: in stream mode collect and report the frame
      queued last time; then put the new input in place. */
  method LaterSteps(c: PipeConfig, s: PipeState, req: Request, arr: seq<bool>) returns (r: Outcome)
    requires ValidConfig(c) && ValidState(s)
    ensures r == LaterCall(c, s, req, arr)
  {
    if !c.stream {
      r := PlaceSteps(c, s, req, arr, 0);
      return;
    }
    var ok := WaitOnce(arr, 0);
    if !ok {
      return Outcome(-1, s, [Wait(false)], 1);
    }
    var report := Report(c, req, s.outputBufnum, s.outputBufnum);
    r := PlaceSteps(c, s, req, arr, 1);
    r := Prepend([Wait(true)] + report, r);
  }

  /** The input part of a later buffer update, `k` interrupt attempts already used: in
      split mode the two stripes of the new (or current) input, waiting for the left one;
      otherwise the new input queued in slot update_bufnum; then the rest of the frame. */
  method PlaceSteps(c: PipeConfig, s: PipeState, req: Request, arr: seq<bool>, k: nat) returns (r: Outcome)
    requires ValidConfig(c) && ValidState(s)
    ensures r == PlaceInput(c, s, req, arr, k)
  {
    var e: seq<Event> := [];
    var used := k;
    if c.split {
      var inBuf := if req.newIn != 0 then req.newIn else c.iPaddr[s.updateBufnum];
      var ok;
      ok, e := RunStripes(inBuf, c.oPaddr[s.triOutputBufnum], arr, k);
      used := k + 1;
      if !ok {
        return Outcome(-1, s, e, used);
      }
    } else if req.newIn != 0 {
      e := [UpdateBuf(InputBuf, s.updateBufnum, req.newIn + c.iOff)];
    }
    r := QueueSteps(c, s, req, arr, used);
    r := Prepend(e, r);
  }

  /** g_task_in_use: the IPU tasks that the handles of this process hold. */
  class Registry {
    var inUse: set<Slot>

    /** The encoder and viewfinder converters share the pre-processor, so no two handles
        hold them both. */
    predicate Valid()
      reads this
    {
      !(IcEnc in inUse && IcVf in inUse)
    }

    /** The registry as the library starts: nothing in use. */
    constructor ()
      ensures inUse == {} && Valid()
    {
      inUse := {};
    }

    /** `g_task_in_use |= ipu_task` for a task found free. */
    method Claim(task: set<Slot>)
      requires Valid() && !IsTaskBusy(inUse, task, {}) && !(IcEnc in task && IcVf in task)
      modifies this
      ensures Valid()
      ensures inUse == old(inUse) + task && old(inUse) * task == {}
    {
      inUse := inUse + task;
    }

    /** `g_task_in_use &= ~ipu_task`. */
    method Release(task: set<Slot>)
      requires Valid()
      modifies this
      ensures Valid()
      ensures inUse == old(inUse) - task
    {
      inUse := inUse - task;
    }
  }

  /** What the driver and the system answer during mxc_ipu_lib_task_init: ipu_open, the
      first rotation mode the chip's rotator takes, the tasks busy in hardware, the stripes
      ipu_calc_stripes_sizes reports, the buffer allocations, the framebuffer, the bytes
      per pixel of input and output, and what the channel calls return. */
  datatype Driver = Driver(openRet: int, rotBegin: int, hw: set<Slot>, left: Stripe, right: Stripe,
                           allocIn: seq<Option<int>>, allocOut: seq<Option<int>>, fb: FbEnv,
                           inBytes: int, outBytes: int, chanRet: int)

  /** The task an initialisation takes: the checked plan's, or in copy mode the one the
      copy fallback picks. */
  function InitTask(r: CheckResult, stream: bool, pref: Pref, inUser: seq<int>, outUser: seq<int>,
                    inUse: set<Slot>, d: Driver): (t: set<Slot>)
    requires |inUser| >= 2 && |outUser| >= 3
    requires r.Accepted?
    ensures !r.plan.mode.copy ==> t == r.plan.task
  {
    if r.plan.mode.copy then
      var c := CopyTask(stream, pref, r.plan.split, inUser, outUser, inUse, d.hw);
      if c.CopyGranted? then c.task else {}
    else r.plan.task
  }

  /** mxc_ipu_lib_task_init succeeds: the device opens and the rest succeeds. */
  predicate InitSucceeds(inp: InputParam, ov: Option<OverlayParam>, out: OutputParam, inUser: seq<int>,
                         outUser: seq<int>, stream: bool, pref: Pref, inUse: set<Slot>, d: Driver)
    requires |inUser| >= 2 && |outUser| >= 3 && |d.allocIn| >= 2 && |d.allocOut| >= 3
  {
    d.openRet >= 0 && SetupSucceeds(inp, ov, out, inUser, outUser, stream, pref, inUse, d)
  }

  /** The part after opening the device succeeds: the check accepts, and the copy set-up,
      or the buffers, the display and the channels, succeed. */
  predicate SetupSucceeds(inp: InputParam, ov: Option<OverlayParam>, out: OutputParam, inUser: seq<int>,
                          outUser: seq<int>, stream: bool, pref: Pref, inUse: set<Slot>, d: Driver)
    requires |inUser| >= 2 && |outUser| >= 3 && |d.allocIn| >= 2 && |d.allocOut| >= 3
  {
    Proceeds(CheckTask(inp, ov, out, pref, d.rotBegin, inUse, d.hw), out, inUser, outUser, stream, pref, inUse, d)
  }

  /** The set-up succeeds after the check `r`: the check accepts, and the copy set-up, or
      the buffers, the display and the channels, succeed. */
  predicate Proceeds(r: CheckResult, out: OutputParam, inUser: seq<int>, outUser: seq<int>, stream: bool,
                     pref: Pref, inUse: set<Slot>, d: Driver)
    requires |inUser| >= 2 && |outUser| >= 3 && |d.allocIn| >= 2 && |d.allocOut| >= 3
  {
    r.Accepted? && d.chanRet >= 0
    && if r.plan.mode.copy then CopyTask(stream, pref, r.plan.split, inUser, outUser, inUse, d.hw).CopyGranted?
       else AllocSucceeds(stream, out.showToFb, inUser, outUser, d.allocIn, d.allocOut)
            && (out.showToFb ==> FbWorks(d.fb, r.plan.owidth, r.plan.oheight, out.fmt))
  }

  /** The task an initialisation claims is free in the registry and in hardware, and holds
      at most one of the two pre-processor converters. */
  lemma InitTaskIsFree(inp: InputParam, ov: Option<OverlayParam>, out: OutputParam, inUser: seq<int>,
                       outUser: seq<int>, stream: bool, pref: Pref, inUse: set<Slot>, d: Driver)
    requires |inUser| >= 2 && |outUser| >= 3 && |d.allocIn| >= 2 && |d.allocOut| >= 3
    requires InitSucceeds(inp, ov, out, inUser, outUser, stream, pref, inUse, d)
    ensures var t := InitTask(CheckTask(inp, ov, out, pref, d.rotBegin, inUse, d.hw), stream, pref,
                              inUser, outUser, inUse, d);
      !IsTaskBusy(inUse, t, d.hw) && !(IcEnc in t && IcVf in t)
  {
    var r := CheckTask(inp, ov, out, pref, d.rotBegin, inUse, d.hw);
    CheckGrantsFreeTask(inp, ov, out, pref, d.rotBegin, inUse, d.hw);
    if r.plan.mode.copy {
      CopyGrantsOneEngine(stream, pref, r.plan.split, inUser, outUser, inUse, d.hw);
    } else {
      var q: Path :| r.plan.task == TaskOn(q, r.plan.mode) && pref.Allows(q) && (ov.Some? ==> q != Enc);
    }
  }

  /** mxc_ipu_lib_task_init: a fresh handle in `mode` (stream, pref), the check, then the
      copy or task set-up; only a handle that is fully set up adds its task to the
      registry, and that task was free. */
  method TaskInit(inp: InputParam, ov: Option<OverlayParam>, out: OutputParam, inUser: seq<int>,
                  outUser: seq<int>, stream: bool, pref: Pref, reg: Registry, d: Driver)
    returns (ret: int, h: TaskHandle?)
    requires |inUser| >= 2 && |outUser| >= 3 && |d.allocIn| >= 2 && |d.allocOut| >= 3
    requires reg.Valid()
    modifies reg
    ensures reg.Valid()
    ensures ret >= 0 <==> InitSucceeds(inp, ov, out, inUser, outUser, stream, pref, old(reg.inUse), d)
    ensures ret < 0 ==> reg.inUse == old(reg.inUse)
    ensures ret >= 0 ==>
      h != null && fresh(h) && h.Valid() && !h.pipe.enabled
      && h.output.ipuTask == InitTask(CheckTask(inp, ov, out, pref, d.rotBegin, old(reg.inUse), d.hw),
                                      stream, pref, inUser, outUser, old(reg.inUse), d)
      && reg.inUse == old(reg.inUse) + h.output.ipuTask && old(reg.inUse) * h.output.ipuTask == {}
  {
    ret, h := d.openRet, null;
    if ret < 0 {
      return;
    }
    var th := new TaskHandle(stream, pref);
    h := th;
    ret := th.Setup(inp, ov, out, inUser, outUser, reg.inUse, d);
    if ret < 0 {
      return;
    }
    InitTaskIsFree(inp, ov, out, inUser, outUser, stream, pref, reg.inUse, d);
    reg.Claim(th.output.ipuTask);
  }

  /** mxc_ipu_lib_task_uninit: in stream mode wait once for the last frame and count it if
      it comes; then the handle's task is given back to the registry. */
  method TaskUninit(reg: Registry, h: TaskHandle, arr: seq<bool>)
    requires reg.Valid()
    modifies reg, h`pipe
    ensures reg.Valid()
    ensures reg.inUse == old(reg.inUse) - h.output.ipuTask
    ensures h.pipe == old(h.pipe).(outputFrCnt := old(h.pipe.outputFrCnt)
                                                  + if h.stream && Arrived(arr, 0) then 1 else 0)
  {
    if h.stream {
      var ok := WaitOnce(arr, 0);
      if ok {
        h.pipe := h.pipe.(outputFrCnt := h.pipe.outputFrCnt + 1);
      }
    }
    reg.Release(h.output.ipuTask);
  }

  /** A stream copy without stripes, overlay or display, the output buffers `o` and no
      offsets: the handle as copy set-up leaves it. */
  function CopyStreamConfig(inUser: seq<int>, o: seq<int>): (c: PipeConfig)
    requires |inUser| >= 2 && |o| == 3
    ensures ValidConfig(c) && c.stream && !c.split && c.oPaddr == o
  {
    PipeConfig(true, false, false, false, false, inUser[..2], o, 0, 0, 0, 0)
  }

  /** The second buffer update of a stream copy queues output buffer 2: with the outputs as
      copy set-up stores them it programs physical address 0 although the caller gave a
      third buffer; and the user-buffer test lets a stream copy without a third buffer
      through. */
  lemma {:induction false} CopyAsWrittenQueuesNullOutput(inUser: seq<int>, outUser: seq<int>)
    requires |inUser| >= 2 && |outUser| >= 3 && outUser[2] != 0
    ensures !CopyBuffersMissingAsWritten(true, [1, 1], [1, 1, 0]) && CopyBuffersMissing(true, [1, 1], [1, 1, 0])
    ensures var c := CopyStreamConfig(inUser, CopyOutputsAsWritten(outUser));
      var s1 := Step(c, InitialState);
      UpdateBuf(OutputBuf, s1.updateBufnum, 0) in BufUpdate(c, s1, Request(0, 0, 0, false), 0, AlwaysArrives).events
  {
    SecondStreamCallQueuesThird(CopyStreamConfig(inUser, CopyOutputsAsWritten(outUser)));
  }

  /** With the corrected user-buffer test and stored outputs, the same update queues the
      caller's third buffer. */
  lemma {:induction false} CopyQueuesCallerOutput(inUser: seq<int>, outUser: seq<int>)
    requires |inUser| >= 2 && |outUser| >= 3
    ensures var c := CopyStreamConfig(inUser, CopyOutputs(outUser));
      var s1 := Step(c, InitialState);
      UpdateBuf(OutputBuf, s1.updateBufnum, outUser[2]) in BufUpdate(c, s1, Request(0, 0, 0, false), 0, AlwaysArrives).events
  {
    SecondStreamCallQueuesThird(CopyStreamConfig(inUser, CopyOutputs(outUser)));
  }

  /** In stream mode without stripes the second update from a fresh handle queues output
      buffer 2. */
  lemma SecondStreamCallQueuesThird(c: PipeConfig)
    requires ValidConfig(c) && c.stream && !c.split
    ensures var s1 := Step(c, InitialState);
      UpdateBuf(OutputBuf, s1.updateBufnum, c.oPaddr[2] + c.oOff) in BufUpdate(c, s1, Request(0, 0, 0, false), 0, AlwaysArrives).events
  {
    var req := Request(0, 0, 0, false);
    var s1 := Step(c, InitialState);
    FirstCallSetsUp(c, InitialState, req, 0, AlwaysArrives);
    assert s1.triOutputBufnum == 2 && s1.enabled;
    var tail := LaterTail(c, s1, req, AlwaysArrives, 1);
    assert QueueEvents(c, s1)[0] == UpdateBuf(OutputBuf, s1.updateBufnum, c.oPaddr[2] + c.oOff);
    assert QueueEvents(c, s1)[0] in tail.events;
    var e := BufUpdate(c, s1, req, 0, AlwaysArrives).events;
    assert e == [Wait(true)] + Notify(c, req, s1.outputBufnum, s1.outputBufnum) + tail.events;
  }
}
