/** The IDMAC channels a granted task drives, and the end-of-frame interrupt waited on. */
module Channels {
  import opened TaskModes
  import opened Arbiter

  datatype Option<T> = None | Some(value: T)

  /** The memory-to-memory channels of the six task slots. */
  datatype Channel = MemPrpEncMem | MemPrpVfMem | MemPpMem | MemRotEncMem | MemRotVfMem | MemRotPpMem

  /** End-of-frame interrupts of those channels. */
  datatype Irq = PrpEncOutEof | PrpVfOutEof | PpOutEof | PrpEncRotOutEof | PrpVfRotOutEof | PpRotOutEof

  /** The channel each slot stands for. */
  function ChannelOf(s: Slot): (c: Channel)
    ensures s in {IcEnc, IcVf, IcPp} <==> c in {MemPrpEncMem, MemPrpVfMem, MemPpMem}
  {
    match s
    case IcEnc => MemPrpEncMem
    case IcVf => MemPrpVfMem
    case IcPp => MemPpMem
    case RotEnc => MemRotEncMem
    case RotVf => MemRotVfMem
    case RotPp => MemRotPpMem
  }

  /** ic_chan: the converter channel of the task, ENC before VF before PP. */
  function IcChannel(task: set<Slot>): (c: Option<Channel>)
    ensures c.None? <==> IcEnc !in task && IcVf !in task && IcPp !in task
    ensures c.Some? ==> exists s :: s in task && s in {IcEnc, IcVf, IcPp} && c.value == ChannelOf(s)
  {
    if IcEnc in task then Some(MemPrpEncMem)
    else if IcVf in task then Some(MemPrpVfMem)
    else if IcPp in task then Some(MemPpMem)
    else None
  }

  /** rot_chan: the rotator channel of the task, ENC before VF before PP. */
  function RotChannel(task: set<Slot>): (c: Option<Channel>)
    ensures c.None? <==> RotEnc !in task && RotVf !in task && RotPp !in task
    ensures c.Some? ==> exists s :: s in task && s in {RotEnc, RotVf, RotPp} && c.value == ChannelOf(s)
  {
    if RotEnc in task then Some(MemRotEncMem)
    else if RotVf in task then Some(MemRotVfMem)
    else if RotPp in task then Some(MemRotPpMem)
    else None
  }

  /** end_chan of _ipu_channel_setup: the rotator when one is used (it is last in the
      IC + ROT chain), else the converter; unset for any other mode. */
  function EndChannel(m: ModeBits, task: set<Slot>): (c: Option<Channel>)
    ensures m.rot ==> c == RotChannel(task)
    ensures m.ic && !m.rot ==> c == IcChannel(task)
    ensures !m.ic && !m.rot ==> c.None?
  {
    var engines := m.Engines();
    if engines == ModeBits(true, false, false) then IcChannel(task)
    else if engines == ModeBits(false, true, false) then RotChannel(task)
    else if engines == ModeBits(true, true, false) then RotChannel(task)
    else None
  }

  /** The end-of-frame interrupt of a channel (the switch on end_chan). */
  function IrqOf(c: Channel): (irq: Irq)
    ensures c in {MemRotEncMem, MemRotVfMem, MemRotPpMem} <==> irq in {PrpEncRotOutEof, PrpVfRotOutEof, PpRotOutEof}
  {
    match c
    case MemRotEncMem => PrpEncRotOutEof
    case MemRotVfMem => PrpVfRotOutEof
    case MemRotPpMem => PpRotOutEof
    case MemPrpEncMem => PrpEncOutEof
    case MemPrpVfMem => PrpVfOutEof
    case MemPpMem => PpOutEof
  }

  /** The interrupt the handle waits on; None where the switch falls to its default and
      leaves the field as it was. */
  function EndIrq(m: ModeBits, task: set<Slot>): (irq: Option<Irq>)
    ensures irq.None? <==> EndChannel(m, task).None?
    ensures irq.Some? ==> irq.value == IrqOf(EndChannel(m, task).value)
  {
    match EndChannel(m, task)
    case None => None
    case Some(c) => Some(IrqOf(c))
  }

  /** Every channel has an interrupt of its own. */
  lemma IrqOfInjective(c: Channel, d: Channel)
    ensures IrqOf(c) == IrqOf(d) ==> c == d
  {
  }

  /** A task granted by the normal chain ends on the last engine of its path. */
  lemma NormalTaskEndIrq(p: Path, m: ModeBits)
    requires m.ic || m.rot
    ensures EndIrq(m, TaskOn(p, m)) == Some(IrqOf(ChannelOf(if m.rot then RotSlot(p) else IcSlot(p))))
  {
    var t := TaskOn(p, m);
    assert forall s :: s in t ==> PathOf(s) == p;
    if m.rot {
      assert RotSlot(p) in t;
      assert RotChannel(t) == Some(ChannelOf(RotSlot(p))) by {
        match p
        case Enc =>
        case Vf => assert RotEnc !in t;
        case Pp => assert RotEnc !in t && RotVf !in t;
      }
    } else {
      assert IcSlot(p) in t;
      assert IcChannel(t) == Some(ChannelOf(IcSlot(p))) by {
        match p
        case Enc =>
        case Vf => assert IcEnc !in t;
        case Pp => assert IcEnc !in t && IcVf !in t;
      }
    }
  }

  /** _ipu_copy_setup's mode rule: the converter bit for IC_ENC or IC_PP, else the rotator bit. */
  function CopyMode(task: set<Slot>): (m: ModeBits)
    ensures m.copy && (m.ic != m.rot)
    ensures (task == {IcEnc} || task == {IcPp}) <==> m.ic
  {
    if task == {IcEnc} || task == {IcPp} then ModeBits(true, false, true)
    else ModeBits(false, true, true)
  }

  /** A copy waits on the interrupt of the one channel it was granted. */
  lemma CopyTaskEndIrq(s: Slot)
    requires s in {IcEnc, IcPp, RotEnc, RotPp, RotVf}
    ensures EndIrq(CopyMode({s}), {s}) == Some(IrqOf(ChannelOf(s)))
  {
    if s in {RotEnc, RotPp, RotVf} {
      assert {s} != {IcEnc} && {s} != {IcPp};
    }
  }
}
