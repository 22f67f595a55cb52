# i.MX IPU high-level library: task check, set-up and buffer update

This project is a Dafny model of the core of the i.MX Image Processing Unit's high-level
library, `ipu/mxc_ipu_hl_lib.c`. A task takes an input frame to an output frame. On the way
it can resize, convert colour space or format, rotate, and blend an overlay. The library
runs a task in three stages:

- **Task check** (`_ipu_task_check`, `__ipu_task_check`):
  - crops and aligns the input, overlay and output frames;
  - computes the plane offsets of each crop start (`_ipu_update_offset`, in 32-bit
    unsigned arithmetic);
  - decides the task mode, which is converter (IC), rotator (ROT) or plain copy;
  - switches to split mode when the output is wider than the converter allows;
  - picks a free ENC/PP/VF path through the fallback chain.
- **Set-up** (`mxc_ipu_lib_task_init` and what it calls):
  - the copy fallback chain and its user-buffer test;
  - the choice of input and output buffers;
  - fitting the framebuffer and laying out its three screens;
  - the end-of-frame interrupt that the last channel raises;
  - the process-wide registry of tasks in use (`g_task_in_use`).
- **Buffer update** (`mxc_ipu_lib_task_buf_update`): a state machine over the handle's
  buffer indices. It covers single-buffer, stream (double input, triple output) and
  display mode, with or without split-mode stripes. Interrupt waits are retried
  (`_ipu_wait_for_irq`). The display is panned to the screen just written (`pan_display`).

Code that computes values is modelled as functions over datatypes. The private handle,
which the library updates in place, is the class `Handle.TaskHandle`. Its methods are
proved against those functions. The `g_task_in_use` word is the class `Handle.Registry`.
Driver calls are not modelled; their results are parameters:

- `ioctl` and `mmap` results, including the framebuffer settings read back after a
  reconfiguration;
- `ipu_init_channel` and its family;
- `ipu_calc_stripes_sizes`;
- the chip revision;
- the outcome of each attempt to read an interrupt.

What is programmed on the IPU and the display is recorded as a log of events, in order.

Modules, each in its own file:

- `CInt`: C integer arithmetic.
- `Formats`: pixel-format tables.
- `Geometry`: cropping and offsets.
- `TaskModes`: the mode decision.
- `Arbiter`: busy tests and fallback chains.
- `Channels`: IPU channels and interrupts.
- `Display`: the framebuffer.
- `Stripes`: split-mode stripes.
- `Setup`: the check and copy decisions as values.
- `Pipeline`: the buffer-update machine.
- `Handle`: the handle, registry, init and uninit.

## Model

| member | source | states |
|---|---|---|
| Formats.Bpp | ipu/mxc_ipu_hl_lib.c:169-207 | bits per pixel is one of 8, 12, 16, 24 or 32. It is 12 exactly for the planar 4:2:0 formats and NV12. RGB formats have at least 16. An unknown format counts as 8. |
| Formats.ColorSpaceOf | ipu/mxc_ipu_hl_lib.c:209-236 | RGB exactly for the RGB formats, YUV exactly for the YUV formats, and the null space exactly for an unknown format |
| Formats.NeedCsc | ipu/mxc_ipu_hl_lib.c:238-252 | -1 exactly when either format is unknown. 1 exactly when both are known and their colour spaces differ. 0 exactly when both share a known colour space. |
| Formats.ClassificationIsPartition | ipu/mxc_ipu_hl_lib.c:209-236 | no format is both RGB and YUV, and every format is RGB, YUV or unknown |
| Formats.NeedCscSymmetric | ipu/mxc_ipu_hl_lib.c:238-252 | whether conversion is needed does not depend on which frame is input and which is output |
| Formats.PlanarIsYuv | ipu/mxc_ipu_hl_lib.c:209-236 | every format that `_ipu_update_offset` splits into planes is a YUV format |
| CInt.ToU32 | ipu/mxc_ipu_hl_lib.c:355-389 | conversion to `unsigned int` lands in [0, 2^32), is the identity on representable values, and is congruent modulo 2^32 |
| CInt.UAdd | ipu/mxc_ipu_hl_lib.c:355-389 | unsigned addition wraps into [0, 2^32) and equals the exact sum when that fits |
| CInt.USub | ipu/mxc_ipu_hl_lib.c:355-389 | unsigned subtraction wraps into [0, 2^32) and equals the exact difference when that fits |
| CInt.UMul | ipu/mxc_ipu_hl_lib.c:355-389 | unsigned multiplication wraps into [0, 2^32) and equals the exact product when that fits |
| CInt.UDiv | ipu/mxc_ipu_hl_lib.c:355-389 | unsigned division gives the floor quotient: r*b <= a < r*b + b |
| CInt.ToI32 | ipu/mxc_ipu_hl_lib.c:355-389 | storing an unsigned result into an `int` lands in the int range, keeps values below 2^31, and is congruent modulo 2^32 |
| CInt.CRem8 | ipu/mxc_ipu_hl_lib.c:530-533 | C's `% 8` takes the sign of the dividend, has magnitude below 8, and is congruent modulo 8 |
| CInt.CDiv8 | ipu/mxc_ipu_hl_lib.c:770-772 | C's `/ 8` truncates: quotient*8 + remainder == dividend |
| CInt.AlignDown8 | ipu/mxc_ipu_hl_lib.c:530-533 | `v -= v % 8` gives a multiple of 8 that is less than 8 below a non-negative v, or less than 8 above a negative v |
| CInt.AlignDown8Idempotent | ipu/mxc_ipu_hl_lib.c:530-533 | aligning twice is aligning once |
| Geometry.ClampWindow | ipu/mxc_ipu_hl_lib.c:526-529 | the corner is kept and the window ends inside the frame. A window that fits is unchanged; one that overflows ends exactly at the frame edge. |
| Geometry.UpdateOffset | ipu/mxc_ipu_hl_lib.c:355-389 | every stored offset is in the int range. Packed formats get no chroma offsets and NV12 gets no V offset. |
| Geometry.Offsets420 | ipu/mxc_ipu_hl_lib.c:361-366 | the planar 4:2:0 case on unsigned operands. Its three offsets are in the int range. |
| Geometry.OffsetsYvu422 | ipu/mxc_ipu_hl_lib.c:368-372 | the YVU422P case; offsets in the int range |
| Geometry.OffsetsYuv422 | ipu/mxc_ipu_hl_lib.c:374-378 | the YUV422P case; offsets in the int range |
| Geometry.OffsetsNv12 | ipu/mxc_ipu_hl_lib.c:380-383 | the NV12 case: offsets in the int range and no V offset |
| Geometry.OffsetsFor | ipu/mxc_ipu_hl_lib.c:537-542 | definition: the offsets of the window's corner, taken only when the cropped size differs from the frame |
| Geometry.CropInput | ipu/mxc_ipu_hl_lib.c:522-546 | definition: the input or overlay crop, with the height aligned only when a window is given |
| Geometry.CropOutput | ipu/mxc_ipu_hl_lib.c:577-605 | definition: the output crop, with the height aligned only on a display |
| Geometry.CropFrame | ipu/mxc_ipu_hl_lib.c:522-605 | the working width is a multiple of 8. A crop window is clamped to the frame. Without a window, the window is kept and there are no offsets. |
| Geometry.CropInputSizes | ipu/mxc_ipu_hl_lib.c:522-546 | input crop: width always aligned down to 8, height aligned only when a window is given. The working size is within 8 of the window and fits in the frame. Offsets are taken at the window corner exactly when the size changed. |
| Geometry.CropOutputSizes | ipu/mxc_ipu_hl_lib.c:577-605 | output crop: width always aligned. Height is aligned only on a display, otherwise it is the window's or the frame's. Offsets are taken exactly when the size changed. |
| Geometry.BufSize | ipu/mxc_ipu_hl_lib.c:770-772 | the allocation `width/8*height*bpp` is non-negative for non-negative sizes |
| Geometry.LumaOffsetNoWrap | ipu/mxc_ipu_hl_lib.c:355-389 | when nothing wraps, the luma offset is y*w+x for planar formats and (y*w+x)*bpp/8 for packed ones |
| Geometry.Planar420NoWrap | ipu/mxc_ipu_hl_lib.c:361-366 | without wrap-around, the planar 4:2:0 U offset reaches from the luma crop start to the crop start in the U plane. The V offset adds one U plane. |
| Geometry.PlanarYvu422NoWrap | ipu/mxc_ipu_hl_lib.c:368-372 | the same for YVU422P, where the V plane comes first and U is half a frame after it |
| Geometry.PlanarYuv422NoWrap | ipu/mxc_ipu_hl_lib.c:374-378 | the same for YUV422P, where V is half a frame after U |
| Geometry.SemiPlanarNv12NoWrap | ipu/mxc_ipu_hl_lib.c:380-383 | for NV12 the chroma offset reaches the crop start in the interleaved chroma plane, whose rows are as wide as the luma rows |
| Geometry.ChromaUInsidePlane420 | ipu/mxc_ipu_hl_lib.c:361-366 | for an even 4:2:0 crop start inside the frame, the U crop start lies inside the U plane |
| Geometry.ChromaVInsidePlane420 | ipu/mxc_ipu_hl_lib.c:361-366 | for an even 4:2:0 crop start inside the frame, the V crop start lies inside the V plane, the last of the three planes |
| Geometry.BufSize420 | ipu/mxc_ipu_hl_lib.c:770-772 | for a width that is a multiple of 8, the 4:2:0 allocation is exactly the luma plane plus two quarter-size chroma planes |
| Geometry.CropScenario640x480 | ipu/mxc_ipu_hl_lib.c:522-546 | a 640x480 YUV420P input with window (8, 8, 624, 464) crops to 624x464 with luma offset 5128. Its U crop start is 640*480+1284. |
| TaskModes.DecideMode | ipu/mxc_ipu_hl_lib.c:450-497 | ROT exactly from the chip's first rotator rotation onwards. The output size is swapped, aligned and swapped back for 90-degree rotations. IC is used exactly when size, colour space, flip or format differ, each condition stated per rotation case. A conversion always needs IC, and the result is never a copy. |
| TaskModes.FinalMode | ipu/mxc_ipu_hl_lib.c:619-654 | an overlay forces IC. A task without engines and without an overlay becomes a copy, and a copy uses no engine. |
| TaskModes.SwapsCancel | ipu/mxc_ipu_hl_lib.c:450-497 | output sizes already aligned to 8 leave the check unchanged |
| TaskModes.FlipOrFormatNeedsConverter | ipu/mxc_ipu_hl_lib.c:478-484 | below the rotator's range, a flip or a format change on an unscaled frame needs IC |
| TaskModes.IdentityIsCopy | ipu/mxc_ipu_hl_lib.c:450-497 | the same size and format, no rotation and no overlay make a copy |
| Arbiter.IsTaskBusy | ipu/mxc_ipu_hl_lib.c:340-353 | definition: a task is busy when one of its engines is in use in this process, when it would hold IC_ENC beside IC_VF, or when the hardware reports one of its engines busy |
| Arbiter.IcSlot | ipu/mxc_ipu_hl_lib.c:656-699 | each path's converter is one of IC_ENC, IC_VF or IC_PP |
| Arbiter.RotSlot | ipu/mxc_ipu_hl_lib.c:656-699 | each path's rotator is one of ROT_ENC, ROT_VF or ROT_PP |
| Arbiter.PathOf | ipu/mxc_ipu_hl_lib.c:656-699 | every engine belongs to the path whose converter or rotator it is |
| Arbiter.TaskOn | ipu/mxc_ipu_hl_lib.c:656-699 | a path's task holds its rotator exactly with ROT and its converter exactly with IC, nothing of another path, and is empty exactly without engines |
| Arbiter.ScanPicks | ipu/mxc_ipu_hl_lib.c:656-699 | a fallback chain returns the task of a candidate that it picks, and a candidate that it picks is what it returns |
| Arbiter.ScanChoiceIsSafe | ipu/mxc_ipu_hl_lib.c:656-699 | a task a chain chooses is free in the registry and in hardware, and was tried on an allowed path |
| Arbiter.NormalChain | ipu/mxc_ipu_hl_lib.c:656-699 | the normal chain tries three paths, each with that path's task for the mode |
| Arbiter.CopyChain | ipu/mxc_ipu_hl_lib.c:1739-1796 | every copy candidate uses one engine, and in split mode only a converter |
| Arbiter.PathTask | ipu/mxc_ipu_hl_lib.c:657-660 | the bits OR-ed into `ipu_task` for a path are that path's task |
| Arbiter.SelectNormalTask | ipu/mxc_ipu_hl_lib.c:656-699 | busy exactly when the normal chain finds nothing; otherwise returns the chain's choice |
| Arbiter.SelectCopyTask | ipu/mxc_ipu_hl_lib.c:1739-1796 | busy exactly when the copy chain finds nothing; otherwise returns the chain's choice |
| Arbiter.NormalChoiceShape | ipu/mxc_ipu_hl_lib.c:656-699 | the chosen task is free and is one path's task on an allowed path, never ENC with an overlay |
| Arbiter.NormalPrefersEncoder | ipu/mxc_ipu_hl_lib.c:656-663 | without an overlay, a free and allowed ENC task is taken |
| Arbiter.NormalInsistedEncoderBusy | ipu/mxc_ipu_hl_lib.c:665-669 | a caller who insists on ENC gets busy when ENC is busy, without falling back |
| Arbiter.NormalFailsOnlyWhenAllBusy | ipu/mxc_ipu_hl_lib.c:656-699 | with no preference, busy exactly when every path that may be tried is busy (ENC is skipped with an overlay) |
| Arbiter.CopyFallsToRotator | ipu/mxc_ipu_hl_lib.c:1752-1762 | a copy whose IC_ENC is busy in hardware falls back to a free ROT_ENC |
| Arbiter.SplitCopyUsesConverter | ipu/mxc_ipu_hl_lib.c:1739-1751 | a split-mode copy takes IC_ENC or IC_PP |
| Channels.ChannelOf | ipu/mxc_ipu_hl_lib.c:1268-1281 | converters map to the three IC channels and rotators to the rotator channels |
| Channels.IcChannel | ipu/mxc_ipu_hl_lib.c:1271-1281 | `ic_chan` is set exactly when the task holds a converter, and is that converter's channel |
| Channels.RotChannel | ipu/mxc_ipu_hl_lib.c:1418-1427 | `rot_chan` is set exactly when the task holds a rotator, and is that rotator's channel |
| Channels.EndChannel | ipu/mxc_ipu_hl_lib.c:1266-1505 | the last channel is the rotator's when ROT is used, otherwise the converter's, and there is none without engines |
| Channels.IrqOf | ipu/mxc_ipu_hl_lib.c:1687-1708 | rotator channels raise the rotator end-of-frame interrupts, converters the converter ones |
| Channels.EndIrq | ipu/mxc_ipu_hl_lib.c:1687-1708 | the handle waits on the last channel's interrupt, and has none exactly when there is no last channel |
| Channels.IrqOfInjective | ipu/mxc_ipu_hl_lib.c:1687-1708 | no two channels share an interrupt |
| Channels.NormalTaskEndIrq | ipu/mxc_ipu_hl_lib.c:1687-1708 | a path's task ends on its rotator's interrupt with ROT, otherwise on its converter's |
| Channels.CopyMode | ipu/mxc_ipu_hl_lib.c:1810-1814 | a copy runs on exactly one engine kind: IC exactly for IC_ENC or IC_PP, otherwise ROT |
| Channels.CopyTaskEndIrq | ipu/mxc_ipu_hl_lib.c:1810-1816 | a copy waits on the interrupt of the single engine it took |
| Display.DefaultFbChannel | ipu/mxc_ipu_hl_lib.c:937-946 | when the channel query fails: framebuffer 0 is the background, 1 the display controller, and any other the foreground overlay |
| Display.ReconfigFb | ipu/mxc_ipu_hl_lib.c:951-971 | the overlay takes the output size. The overlay and the display controller take the output format and depth. Every reconfiguration stacks three screens. |
| Display.ReconfigFits | ipu/mxc_ipu_hl_lib.c:725-751 | a reconfigured framebuffer passes `fit_fb_setting` |
| Display.FitFbSetting | ipu/mxc_ipu_hl_lib.c:725-751 | definition: the background display needs a virtual screen of three stacked screens; the others first need `nonstd` to agree with the format; the display controller then needs the stacked screens, the overlay exactly the output size and depth, and any other channel nothing more |
| Display.SettleFb | ipu/mxc_ipu_hl_lib.c:951-994 | definition: the settings first read when they fit, otherwise the settings read back after the reconfiguration |
| Display.SettleKeepsFitting | ipu/mxc_ipu_hl_lib.c:951-994 | a framebuffer that already fits is left as it is; one that does not is replaced by what the driver reports after `FBIOPUT_VSCREENINFO` |
| Display.FbAccepts | ipu/mxc_ipu_hl_lib.c:1007-1013 | definition: the output is no wider and no taller than the screen (compared as unsigned) and has the screen's depth |
| Display.OverlayAlwaysAccepts | ipu/mxc_ipu_hl_lib.c:955-962 | the settings requested for the overlay pass both `fit_fb_setting` and the final size and depth test |
| Display.OverlayAcceptsIffDriverKeepsSize | ipu/mxc_ipu_hl_lib.c:951-1013 | on the overlay the final test passes when the first settings fit or the driver applies the request. After a reconfiguration it passes exactly when the settings read back hold the output's size and depth. |
| Display.FbStride | ipu/mxc_ipu_hl_lib.c:1015 | the stride is xres*bpp/8 when it does not wrap |
| Display.FbOffset | ipu/mxc_ipu_hl_lib.c:1017-1019 | the overlay is written at offset 0 (it is positioned by the driver) |
| Display.FbBuffers | ipu/mxc_ipu_hl_lib.c:1021-1027 | three output buffers on the framebuffer |
| Display.PanYOffset | ipu/mxc_ipu_hl_lib.c:2158-2163 | buffers 0, 1 and 2 pan to y offsets yres, 0 and 2*yres |
| Display.PanShowsBuffer | ipu/mxc_ipu_hl_lib.c:2147-2173 | panning to buffer idx shows the screen whose address is output buffer idx |
| Display.FbBuffersDistinct | ipu/mxc_ipu_hl_lib.c:1021-1027 | the three screens start at different addresses |
| Stripes.ProgramStripe | ipu/mxc_ipu_hl_lib.c:391-448 | the left stripe uses buffer 0 and the right one buffer 1; each address is buffer plus crop offset plus the stripe's column |
| Stripes.ScaledStripeStartsAtColumn | ipu/mxc_ipu_hl_lib.c:1400-1409 | after the columns are pre-multiplied by bytes per pixel, each stripe starts at its pixel column times the bytes per pixel |
| Stripes.StripesUseBothSlots | ipu/mxc_ipu_hl_lib.c:391-448 | the two stripes never share a buffer slot |
| Stripes.ScalingKeepsOrder | ipu/mxc_ipu_hl_lib.c:1400-1409 | the left stripe starts before the right one in input and in output |
| Setup.AlphaOffset | ipu/mxc_ipu_hl_lib.c:548-569 | definition: `ov_alpha_off` is y*width+x of the overlay window, set only with local alpha and a window that crops |
| Setup.CheckTask | ipu/mxc_ipu_hl_lib.c:499-723 | definition: the parameter tests, the three crops, then the rest of the check |
| Setup.CheckCropped | ipu/mxc_ipu_hl_lib.c:606-699 | definition: split mode, the overlay size test, the task mode and the admission |
| Setup.Admit | ipu/mxc_ipu_hl_lib.c:627-699 | definition: split mode refuses the rotator and an overlay; a copy takes no task; otherwise the first free task of the fallback chain, or busy |
| Setup.RotBegin | ipu/mxc_ipu_hl_lib.c:291-304 | horizontal flip is the first rotator mode exactly on i.MX37; elsewhere, and when the revision is unknown, 90-degree rotation is |
| Setup.CheckCroppedAfterSizeTest | ipu/mxc_ipu_hl_lib.c:610-699 | after the overlay size test, the check accepts exactly when admission does, with a plan made of the crops, the decided sizes, split, final mode and admitted task |
| Setup.CheckParameterRules | ipu/mxc_ipu_hl_lib.c:508-520 | an overlay is refused exactly when the preference excludes both PP and VF. Global and local alpha together are always refused. |
| Setup.CheckAcceptedShape | ipu/mxc_ipu_hl_lib.c:606-654 | an accepted plan splits exactly above 1024 columns and never splits with rotation or an overlay. An overlay forces IC and matches the output size. The width is aligned, and ROT is used exactly from the first rotator mode. |
| Setup.CheckGrantsFreeTask | ipu/mxc_ipu_hl_lib.c:650-699 | a copy has no task yet. Otherwise the task is free and is one allowed path's task, not ENC with an overlay. |
| Setup.CheckBusyIffChainExhausted | ipu/mxc_ipu_hl_lib.c:499-722 | "busy" is reported exactly when the parameter, overlay-size and split tests pass, the decided final mode is not a copy, and that mode's fallback chain finds nothing free |
| Setup.CopyBuffersMissingAsWritten | ipu/mxc_ipu_hl_lib.c:1722-1731 | definition: in stream mode, one of both inputs and the first two outputs is 0 |
| Setup.CopyBuffersMissing | ipu/mxc_ipu_hl_lib.c:1722-1731 | definition: the corrected test, which also asks for the third output in stream mode |
| Setup.CopyTaskAsWritten | ipu/mxc_ipu_hl_lib.c:1722-1796 | definition: the copy decision with the code's two-output test |
| Setup.CopyCorrectionRefusesOnlyMissingThird | ipu/mxc_ipu_hl_lib.c:1722-1731 | the corrected copy decision differs from the code's exactly for a stream copy that gives both inputs and the first two outputs but no third output, and that copy it refuses |
| Setup.CopyOutputsAsWritten | ipu/mxc_ipu_hl_lib.c:1733-1737 | the copy set-up stores output buffers 0 and 1 only; the third stays 0 |
| Setup.CopyOutputs | ipu/mxc_ipu_hl_lib.c:1733-1737 | corrected: all three caller output buffers are stored |
| Setup.CopyOutputsPresent | ipu/mxc_ipu_hl_lib.c:1722-1737 | a stream copy that passes the corrected test has all three output buffers |
| Setup.CopyTask | ipu/mxc_ipu_hl_lib.c:1722-1796 | refused for missing user buffers exactly when the test fails, and busy exactly when the copy chain finds nothing |
| Setup.CopyGrantsOneEngine | ipu/mxc_ipu_hl_lib.c:1739-1816 | a granted copy holds one free engine on an allowed path, a converter in split mode, and waits on that engine's interrupt |
| Handle.FbChannelOf | ipu/mxc_ipu_hl_lib.c:937-946 | the reported channel, or the default when the query fails |
| Handle.FbSettled | ipu/mxc_ipu_hl_lib.c:951-994 | definition: the settings first read, or those read back after a reconfiguration |
| Handle.FbFixSettled | ipu/mxc_ipu_hl_lib.c:981-986 | definition: the fixed information first read, or that read back after a reconfiguration |
| Handle.FbRequest | ipu/mxc_ipu_hl_lib.c:951-978 | nothing is written to the driver when the settings fit; otherwise the request passes `fit_fb_setting` on every known channel |
| Handle.FbWorks | ipu/mxc_ipu_hl_lib.c:900-1013 | definition: the driver calls work and the settled settings accept the output |
| Handle.FbLayout | ipu/mxc_ipu_hl_lib.c:1015-1027 | three screen addresses on the framebuffer |
| Handle.BufCount | ipu/mxc_ipu_hl_lib.c:761-764 | two buffers per side in stream mode, one otherwise |
| Handle.InputSlot | ipu/mxc_ipu_hl_lib.c:768-790 | an input buffer in use is the caller's when given, otherwise the allocated one; unused slots stay 0 |
| Handle.OutputSlot | ipu/mxc_ipu_hl_lib.c:864-891 | an output buffer in use is the caller's when given, otherwise allocated when not on a display; unused slots stay 0 |
| Handle.PickOutput | ipu/mxc_ipu_hl_lib.c:864-891 | fails exactly when an output buffer must be allocated and allocation fails; otherwise stores the caller's or the allocated address |
| Handle.ChooseBuffers | ipu/mxc_ipu_hl_lib.c:768-897 | the loop, including the jump back for the third output buffer, succeeds exactly when every needed allocation does, and stores the buffers the slot rules give |
| Handle.WaitOnce | ipu/mxc_ipu_hl_lib.c:2128-2145 | one attempt (`times` = 1) succeeds exactly when that interrupt arrives |
| Handle.WriteOffsets | ipu/mxc_ipu_hl_lib.c:537-542 | writes the offsets `_ipu_update_offset` computes |
| Handle.ClampWindowed | ipu/mxc_ipu_hl_lib.c:525-542 | a given window is clamped, the size aligned, and offsets taken when the size changed |
| Handle.CropOffsets | ipu/mxc_ipu_hl_lib.c:537-542 | offsets are written only when the working size differs from the frame |
| Handle.ClampAndAlign | ipu/mxc_ipu_hl_lib.c:522-605 | the window, working size and offsets of one crop agree with the crop function |
| Handle.AdmitTask | ipu/mxc_ipu_hl_lib.c:619-699 | applies the overlay and copy rules to the mode and returns 0 exactly when admission grants a task, which it returns |
| Handle.TaskMode | ipu/mxc_ipu_hl_lib.c:450-497 | the step-by-step mode decision, with its in-place swaps, equals the mode function |
| Handle.DecideTask | ipu/mxc_ipu_hl_lib.c:606-699 | returns 0 exactly when the check accepts its crops; the sizes, split flag, mode and task are then the plan's |
| Handle.CropFrames | ipu/mxc_ipu_hl_lib.c:522-605 | the three crops and the alpha offset are those the check defines |
| Handle.CopySteps | ipu/mxc_ipu_hl_lib.c:1722-1814 | grants exactly when the copy decision does; then stores the task, its copy mode, the caller's buffers, no display, and an end interrupt |
| Handle.CheckSteps | ipu/mxc_ipu_hl_lib.c:499-723 | returns 0 exactly on acceptance. The fields and windows it leaves are the plan's, with the caller's stripes in split mode, and the output buffers are untouched. |
| Handle.TaskHandle.constructor | ipu/mxc_ipu_hl_lib.c:1903-1915 | a zeroed private handle that records the caller's mode |
| Handle.TaskHandle.TaskCheck | ipu/mxc_ipu_hl_lib.c:499-723 | `_ipu_task_check` on the handle: its return value and the fields it writes reflect the check's result |
| Handle.TaskHandle.ChannelSetup | ipu/mxc_ipu_hl_lib.c:1400-1708 | on success: sets the end-of-frame interrupt and, for an IC-only split task, pre-multiplies the stripe columns and prepares the left stripe. On failure it changes nothing. |
| Handle.TaskHandle.CopySetup | ipu/mxc_ipu_hl_lib.c:1713-1825 | -1 when the copy decision refuses. Otherwise: the chosen engine, copy mode, the caller's buffers, no display, and the channel result. |
| Handle.TaskHandle.AllocBuffers | ipu/mxc_ipu_hl_lib.c:753-897 | 0 exactly when allocation succeeds; then the stored buffers are those the slot rules give |
| Handle.TaskHandle.ShowOnFb | ipu/mxc_ipu_hl_lib.c:900-1063 | 0 exactly when the framebuffer works for the output, judged on the settings read back after any reconfiguration. It reports the settings it asked the driver for. On success the three screens become the output buffers; otherwise nothing changes. |
| Handle.TaskHandle.Setup | ipu/mxc_ipu_hl_lib.c:1917-1939 | succeeds exactly when the check and the rest of the set-up succeed, and then holds the task initialisation takes |
| Handle.TaskHandle.SetupChecked | ipu/mxc_ipu_hl_lib.c:1927-1939 | after an accepted check: the copy set-up or the task set-up, succeeding exactly when they do |
| Handle.TaskHandle.TaskSetup | ipu/mxc_ipu_hl_lib.c:1827-1845 | succeeds exactly when the buffers, the display (if used) and the channels do |
| Handle.TaskHandle.TaskBufUpdate | ipu/mxc_ipu_hl_lib.c:2210-2392 | one buffer update: the return value, new indices and appended events are the buffer-update function's |
| Handle.RunStripes | ipu/mxc_ipu_hl_lib.c:2310-2333 | left stripe, wait, then the right stripe of the same buffers only if the wait succeeded |
| Handle.Report | ipu/mxc_ipu_hl_lib.c:2374-2378 | the callback, then the pan, each when enabled |
| Handle.FirstSteps | ipu/mxc_ipu_hl_lib.c:2218-2285 | the first call, step by step, equals the first-call function |
| Handle.OverlaySteps | ipu/mxc_ipu_hl_lib.c:2337-2353 | overlay and alpha buffer updates and selections equal the overlay events |
| Handle.QueueSteps | ipu/mxc_ipu_hl_lib.c:2337-2386 | the rest of a later call equals its function |
| Handle.LaterSteps | ipu/mxc_ipu_hl_lib.c:2286-2392 | a later call equals the later-call function |
| Handle.PlaceSteps | ipu/mxc_ipu_hl_lib.c:2304-2335 | placing new input, with stripes or queued, equals its function |
| Handle.Registry.constructor | ipu/mxc_ipu_hl_lib.c:60 | no task in use |
| Handle.Registry.Claim | ipu/mxc_ipu_hl_lib.c:1941 | adds a free task and keeps IC_ENC and IC_VF exclusive |
| Handle.Registry.Release | ipu/mxc_ipu_hl_lib.c:2001 | removes exactly the task's engines |
| Handle.Proceeds | ipu/mxc_ipu_hl_lib.c:1917-1939 | definition: the check accepts, the channels can be set up, and either the copy gets an engine or the buffers can be allocated and the display, if used, works |
| Handle.InitTask | ipu/mxc_ipu_hl_lib.c:1927-1939 | a normal task is the one the check chose |
| Handle.InitTaskIsFree | ipu/mxc_ipu_hl_lib.c:1920-1941 | the task a successful initialisation claims is free in the registry and in hardware, and never holds both IC_ENC and IC_VF |
| Handle.TaskInit | ipu/mxc_ipu_hl_lib.c:1888-1949 | succeeds exactly when opening and set-up succeed. Only then does it claim the task, which was free. A failure leaves the registry unchanged. |
| Handle.TaskUninit | ipu/mxc_ipu_hl_lib.c:1959-2013 | counts the last stream frame when its interrupt arrives, and releases exactly the handle's task |
| Handle.CopyStreamConfig | ipu/mxc_ipu_hl_lib.c:1733-1737 | a stream copy's buffer-update view of the handle |
| Handle.CopyAsWrittenQueuesNullOutput | ipu/mxc_ipu_hl_lib.c:1722-1737 | as written, the test lets a stream copy without a third output buffer through, and the second update programs output address 0 |
| Handle.CopyQueuesCallerOutput | ipu/mxc_ipu_hl_lib.c:1722-1737 | corrected, the second update programs the caller's third output buffer |
| Handle.SecondStreamCallQueuesThird | ipu/mxc_ipu_hl_lib.c:2355-2364 | in stream mode without stripes, the second update from a fresh handle queues output buffer 2 |
| Pipeline.WaitForIrq | ipu/mxc_ipu_hl_lib.c:2128-2145 | success exactly when an interrupt arrives within `times` attempts. On success the last attempt is the first arrival; a timeout uses max(times, 1) attempts. |
| Pipeline.Notify | ipu/mxc_ipu_hl_lib.c:2258-2262 | at most a callback and a pan, naming the given buffers |
| Pipeline.BufUpdate | ipu/mxc_ipu_hl_lib.c:2210-2392 | indices stay in range. A success returns the next input slot and leaves the task enabled. A failure leaves every index and the enabled flag as they were. At most three interrupt attempts. |
| Pipeline.FirstCall | ipu/mxc_ipu_hl_lib.c:2218-2285 | definition: enable, wait for the first frame (both stripes in split mode), then in stream and split mode prepare the second frame |
| Pipeline.LaterCall | ipu/mxc_ipu_hl_lib.c:2286-2392 | definition: in stream mode collect and report the frame queued last time, then place the new input |
| Pipeline.PlaceInput | ipu/mxc_ipu_hl_lib.c:2304-2335 | definition: two stripes of the same buffers in split mode, waiting for the left one; otherwise queue the new input in slot `update_bufnum` |
| Pipeline.LaterTail | ipu/mxc_ipu_hl_lib.c:2337-2386 | definition: overlay, output, then either flip the double buffer or wait for the frame and report it |
| Pipeline.QueueEvents | ipu/mxc_ipu_hl_lib.c:2355-2364 | definition: without stripes, queue output buffer `tri_output_bufnum` in slot `update_bufnum` and select both buffers |
| Pipeline.OverlayEvents | ipu/mxc_ipu_hl_lib.c:2337-2353 | definition: the overlay and alpha buffers of a later call, then their selection |
| Pipeline.FirstCallSetsUp | ipu/mxc_ipu_hl_lib.c:2218-2285 | the first call enables the task and sets the next output to buffer 2 (stream), 1 (display) or 0, and counts 2 or 1 input frames |
| Pipeline.LaterCallAdvances | ipu/mxc_ipu_hl_lib.c:2381-2389 | a later call flips the input slot and moves both output indices (stream), or moves only the display buffer (single-buffer display), and counts one frame |
| Pipeline.NoTimeoutNoFailure | ipu/mxc_ipu_hl_lib.c:2210-2392 | when every interrupt arrives, a call fails exactly when enabling the task fails |
| Pipeline.FailureEndsAtTimeout | ipu/mxc_ipu_hl_lib.c:2210-2392 | a failed enable returns its error after logging only the enable. Any other failure returns -1 and stops at the wait that timed out. |
| Pipeline.NormalModeReturnsZero | ipu/mxc_ipu_hl_lib.c:2384-2391 | single-buffer mode always returns buffer 0 |
| Pipeline.StreamStartsTripleBuffered | ipu/mxc_ipu_hl_lib.c:2277-2285 | the first stream call puts the buffer being written one ahead of the one reported |
| Pipeline.StreamKeepsTripleBuffered | ipu/mxc_ipu_hl_lib.c:2381-2389 | stream calls keep that relation, so the buffer reported is never the one being written |
| Pipeline.LaterTailLog | ipu/mxc_ipu_hl_lib.c:2337-2386 | the tail of a later call reports nothing in stream mode, and queues no whole output buffer in split mode |
| Pipeline.PlaceInputLog | ipu/mxc_ipu_hl_lib.c:2304-2335 | placing the input reports nothing in stream mode, and queues no whole output buffer in split mode |
| Pipeline.StreamReportsCollectedFrame | ipu/mxc_ipu_hl_lib.c:2291-2302 | every callback and pan of a later stream call names the frame collected at its start |
| Pipeline.SingleBufferTail | ipu/mxc_ipu_hl_lib.c:2337-2379 | a single-buffer call without stripes logs overlay, output queue, the wait, then the report of the written buffer |
| Pipeline.DisplayShowsWhatWasWritten | ipu/mxc_ipu_hl_lib.c:2355-2379 | on a display in single-buffer mode, the screen panned to is the one queued earlier in the same call |
| Pipeline.SplitLaterLog | ipu/mxc_ipu_hl_lib.c:2304-2335 | a split later call logs the stream prologue, the two stripes around one wait, and a tail with no output queueing |
| Pipeline.PlacedStripes | ipu/mxc_ipu_hl_lib.c:2310-2333 | placing split input logs left stripe, wait, right stripe of the same buffers, then the tail |
| Pipeline.SplitStripesInOrder | ipu/mxc_ipu_hl_lib.c:2304-2364 | in split mode a later call programs the left stripe, waits for it, then programs the right stripe of the same buffers. It never queues a whole output buffer. |
| Pipeline.Step | ipu/mxc_ipu_hl_lib.c:2210-2392 | one call with every frame completing keeps the indices in range |
| Pipeline.StepAdvances | ipu/mxc_ipu_hl_lib.c:2381-2389 | one call advances each index that moves in the mode by one, modulo its period |
| Pipeline.Run | ipu/mxc_ipu_hl_lib.c:2210-2392 | n calls keep the indices in range |
| Pipeline.RunIndices | ipu/mxc_ipu_hl_lib.c:2381-2389 | after n frames each moving index has advanced by n modulo 2 (input) or 3 (outputs), and n frames are counted |
| Pipeline.RunPeriodSix | ipu/mxc_ipu_hl_lib.c:2381-2389 | after a multiple of six frames every index is back where it started |

## Left out

- Device I/O is not modelled; its results are parameters (`Handle.Driver`, `Handle.FbEnv`). This covers `open`, `ioctl`, `mmap`/`munmap`, `close`, and the `ipu_*` channel and buffer calls. A failed query, mapping or `FBIOPUT_VSCREENINFO` is folded into one `ioOk` flag. The settings and fixed information read back after a reconfiguration are parameters too (`varAfter`, `fixAfter`); the model does not say how the driver derives them from the request.
- `get_system_rev` is not modelled; its result enters as `Setup.RotBegin`'s argument or directly as `rotBegin`.
- `ipu_calc_stripes_sizes` is not modelled; its two stripes are parameters.
- Locking (`pthread_mutex_*`, `_ipu_lock`/`_ipu_unlock`) is not modelled, and neither is `g_task_in_use` shared across processes. The registry is one object used by one caller at a time.
- Debug printing (`dbg`) is not modelled.
- Allocation of overlay, alpha and rotation buffers is not modelled. Only input and output buffers are chosen.
- The `memcpy` that avoids flicker on display start-up is not modelled.
- The overlay position `ioctl` (`MXCFB_SET_OVERLAY_POS`) is not modelled; it only logs on failure.
- `_ipu_channel_setup` is modelled only where the rest of the library depends on it: the end-channel choice, the interrupt, and the split-mode column pre-multiply with the first stripe. The channel and IDMAC parameters it passes to the driver are not modelled.
- `_ipu_mem_free`, `_ipu_task_enable`, `_ipu_task_disable` and the device tear-down in uninit are not modelled. Enable's return value is a parameter of the buffer update.
- `Handle.TaskHandle.TaskCheck`: when the check rejects a request, the model does not state which handle fields the code has already written before it returns -1.
- `Handle.TaskInit` does not return the clamped crop windows; `Handle.CheckSteps` and `Handle.TaskHandle.TaskCheck` return them.
- `Handle.TaskHandle.TaskCheck`: the handle fields the check writes are grouped into records and committed together. Interleaving with other writers is not captured.
- `Handle.PlaceSteps`: in split mode the stripe input is the raw buffer; the stripe offsets are applied when each stripe is programmed (`Stripes.ProgramStripe`).
- `Formats.NeedCsc` returns -1 for an unknown format, and the check treats that as "needs conversion". The code does this, and the model follows it rather than treating it as an error.
- Pixel data and the IPU's image processing are not modelled, only the addresses and sizes the library programs.
- `TaskModes.DecideMode` takes the rotation constants `IPU_ROTATE_NONE`, `IPU_ROTATE_HORIZ_FLIP` and `IPU_ROTATE_90_RIGHT` to be 0, 2 and 4. They come from the IPU driver header, which is not part of this model.
- Signed overflow is not modelled. The crop sizes, the alignment, `ov_alpha_off` (`Setup.AlphaOffset`) and the screen offset (`Display.FbOffset`) are `int` arithmetic in the code and unbounded integers here. Only `_ipu_update_offset`, `fb_stride` and `yres * fbbufs` are computed with 32-bit wrap-around.
- Physical-address sums are not wrapped to 32 bits. This covers a buffer address plus its offset, `smem_start` plus a screen offset (`Display.FbBuffers`, `Handle.FbLayout`), and the stripe addresses (`Stripes.ProgramStripe`).
- Setup.CopyTask: decides with the corrected user-buffer test of the finding below. A stream copy whose third output buffer is 0 is refused here, while the code accepts it. `Setup.CopyTaskAsWritten` is the code's decision, and `Setup.CopyCorrectionRefusesOnlyMissingThird` states exactly where the two differ.
- Handle.CopySteps: uses `Setup.CopyTask` and stores the caller's third output buffer (`Setup.CopyOutputs`). The code leaves that buffer 0 (`Setup.CopyOutputsAsWritten`).
- Handle.TaskHandle.CopySetup: inherits the corrected copy test and third-buffer store from `Handle.CopySteps`.
- Handle.TaskHandle.Setup: its copy branch inherits the corrected copy test and third-buffer store from `Handle.CopySteps`.
- Handle.TaskHandle.SetupChecked: its copy branch inherits the corrected copy test and third-buffer store from `Handle.CopySteps`.
- Handle.TaskInit: a stream copy without a third output buffer fails here, while the code's init succeeds. The copy handle stores the caller's third output buffer.
- Handle.InitTask: in copy mode it is the engine `Setup.CopyTask` picks under the corrected test.
- Handle.Proceeds: in copy mode it asks for the corrected copy test to pass.

## Findings

The copy path of the set-up (`Setup.CopyTask`, `Handle.CopySteps` and the set-up and init methods built on them) uses the corrected half of this finding. Each of those members is listed under "## Left out".

| source | as written | input that shows it | evidently intended | confidence | as-written member | corrected member |
|---|---|---|---|---|---|---|
| ipu/mxc_ipu_hl_lib.c:1722-1737 | A stream-mode copy checks and stores only output buffers 0 and 1. The buffer update still queues output buffer `tri_output_bufnum`, which reaches 2 on the second call, and `o_minfo[2].paddr` is still 0 from the zeroed handle. | Stream-mode copy with `output->user_def_paddr = {a, b, c}`. The second `mxc_ipu_lib_task_buf_update` programs output address 0 + offset instead of c. With c == 0 the user-buffer test passes anyway. | Require and store all three output buffers in stream mode. | not executed | Handle.CopyAsWrittenQueuesNullOutput (with Setup.CopyBuffersMissingAsWritten, Setup.CopyOutputsAsWritten, Setup.CopyTaskAsWritten, Setup.CopyCorrectionRefusesOnlyMissingThird) | Handle.CopyQueuesCallerOutput (with Setup.CopyBuffersMissing, Setup.CopyOutputs, Setup.CopyOutputsPresent) |
