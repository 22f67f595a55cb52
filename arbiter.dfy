/** The IPU task slots, the busy test and the fallback chains that pick a slot set. */
module Arbiter {
  import opened TaskModes

  /** The six task bits of g_task_in_use / ipu_task. */
  datatype Slot = IcEnc | IcVf | IcPp | RotEnc | RotVf | RotPp

  /** The three processing paths of the IPU. */
  datatype Path = Enc | Vf | Pp

  /** The caller's "hope" mask, `mode & 0x07`: which paths it accepts (none set: any path). */
  datatype Pref = Pref(enc: bool, vf: bool, pp: bool) {
    predicate IsSet() { enc || vf || pp }
    predicate Has(p: Path) {
      match p
      case Enc => enc
      case Vf => vf
      case Pp => pp
    }
    /** The mask does not rule this path out. */
    predicate Allows(p: Path) { !IsSet() || Has(p) }
  }

  function IcSlot(p: Path): (s: Slot)
    ensures s in {IcEnc, IcVf, IcPp}
  {
    match p
    case Enc => IcEnc
    case Vf => IcVf
    case Pp => IcPp
  }

  function RotSlot(p: Path): (s: Slot)
    ensures s in {RotEnc, RotVf, RotPp}
  {
    match p
    case Enc => RotEnc
    case Vf => RotVf
    case Pp => RotPp
  }

  /** The path a slot belongs to. */
  function PathOf(s: Slot): (p: Path)
    ensures s == IcSlot(p) || s == RotSlot(p)
  {
    match s
    case IcEnc => Enc
    case RotEnc => Enc
    case IcVf => Vf
    case RotVf => Vf
    case IcPp => Pp
    case RotPp => Pp
  }

  /** The slots a mode needs on one path: the rotator if ROT_MODE, the converter if IC_MODE. */
  function TaskOn(p: Path, m: ModeBits): (t: set<Slot>)
    ensures RotSlot(p) in t <==> m.rot
    ensures IcSlot(p) in t <==> m.ic
    ensures forall s :: s in t ==> PathOf(s) == p
    ensures t == {} <==> !m.ic && !m.rot
  {
    (if m.rot then {RotSlot(p)} else {}) + (if m.ic then {IcSlot(p)} else {})
  }

  /** _ipu_task_busy_in_hw: some requested channel is reported busy by the driver
      (the driver's answer is the set `hw` of busy slots). */
  predicate BusyInHw(task: set<Slot>, hw: set<Slot>) {
    task * hw != {}
  }

  /** _ipu_is_task_busy: taken in this process, an IC_ENC/IC_VF clash, or busy in hardware. */
  predicate IsTaskBusy(inUse: set<Slot>, task: set<Slot>, hw: set<Slot>) {
    inUse * task != {}
    || (IcEnc in inUse && IcVf in task)
    || (IcVf in inUse && IcEnc in task)
    || BusyInHw(task, hw)
  }

  /** One step of a fallback chain: try `task` on `path` (unless `tried` is false, which
      skips it), and if it cannot be used while the mask names `path`, stop when `halts`. */
  datatype Candidate = Candidate(task: set<Slot>, path: Path, tried: bool, halts: bool)

  datatype Choice = Chosen(task: set<Slot>) | AllBusy

  predicate Acceptable(c: Candidate, pref: Pref, inUse: set<Slot>, hw: set<Slot>) {
    c.tried && !IsTaskBusy(inUse, c.task, hw) && pref.Allows(c.path)
  }

  /** A rejected candidate that ends the chain: the caller insisted on its path. */
  predicate Halts(c: Candidate, pref: Pref) {
    c.halts && pref.IsSet() && pref.Has(c.path)
  }

  /** Reference semantics of a fallback chain: the first acceptable candidate, unless a
      halting one comes first. */
  function Scan(cs: seq<Candidate>, pref: Pref, inUse: set<Slot>, hw: set<Slot>): (r: Choice)
    decreases |cs|
  {
    if cs == [] then AllBusy
    else if Acceptable(cs[0], pref, inUse, hw) then Chosen(cs[0].task)
    else if Halts(cs[0], pref) then AllBusy
    else Scan(cs[1..], pref, inUse, hw)
  }

  /** Candidate i is the one the chain stops at with success. */
  predicate Picks(cs: seq<Candidate>, i: int, pref: Pref, inUse: set<Slot>, hw: set<Slot>) {
    0 <= i < |cs| && Acceptable(cs[i], pref, inUse, hw)
    && forall j :: 0 <= j < i ==> !Acceptable(cs[j], pref, inUse, hw) && !Halts(cs[j], pref)
  }

  /** Scan chooses exactly the task of the candidate it stops at. */
  lemma {:induction false} ScanPicks(cs: seq<Candidate>, pref: Pref, inUse: set<Slot>, hw: set<Slot>)
    ensures Scan(cs, pref, inUse, hw).Chosen? ==>
              exists i :: Picks(cs, i, pref, inUse, hw) && cs[i].task == Scan(cs, pref, inUse, hw).task
    ensures forall i :: Picks(cs, i, pref, inUse, hw) ==> Scan(cs, pref, inUse, hw) == Chosen(cs[i].task)
    decreases |cs|
  {
    if cs != [] && !Acceptable(cs[0], pref, inUse, hw) && !Halts(cs[0], pref) {
      var rest := cs[1..];
      ScanPicks(rest, pref, inUse, hw);
      if Scan(cs, pref, inUse, hw).Chosen? {
        var k :| Picks(rest, k, pref, inUse, hw) && rest[k].task == Scan(rest, pref, inUse, hw).task;
        assert Picks(cs, k + 1, pref, inUse, hw);
      }
      forall i | Picks(cs, i, pref, inUse, hw)
        ensures Scan(cs, pref, inUse, hw) == Chosen(cs[i].task)
      {
        assert i != 0;
        assert Picks(rest, i - 1, pref, inUse, hw);
      }
    }
  }

  /** Whatever a chain grants is free, on an allowed path, and one of its candidates. */
  lemma ScanChoiceIsSafe(cs: seq<Candidate>, pref: Pref, inUse: set<Slot>, hw: set<Slot>)
    requires Scan(cs, pref, inUse, hw).Chosen?
    ensures var t := Scan(cs, pref, inUse, hw).task;
      !IsTaskBusy(inUse, t, hw)
      && exists i :: 0 <= i < |cs| && cs[i].task == t && cs[i].tried && pref.Allows(cs[i].path)
  {
    ScanPicks(cs, pref, inUse, hw);
  }

  /** One step of Scan, for chains written out as displays. */
  lemma ScanStep(c: Candidate, rest: seq<Candidate>, pref: Pref, inUse: set<Slot>, hw: set<Slot>)
    ensures Scan([c] + rest, pref, inUse, hw) ==
      if Acceptable(c, pref, inUse, hw) then Chosen(c.task)
      else if Halts(c, pref) then AllBusy
      else Scan(rest, pref, inUse, hw)
  {
    assert ([c] + rest)[1..] == rest;
  }

  /** Scan over a chain ending in `last`, where the last candidate halts or not alike. */
  lemma ScanLast(c: Candidate, pref: Pref, inUse: set<Slot>, hw: set<Slot>)
    ensures Scan([c], pref, inUse, hw) ==
      if Acceptable(c, pref, inUse, hw) then Chosen(c.task) else AllBusy
  {
    ScanStep(c, [], pref, inUse, hw);
  }

  /** The chain of the normal (non-copy) path of _ipu_task_check: ENC (not with an overlay),
      then PP, then VF. */
  function NormalChain(m: ModeBits, overlay: bool): (cs: seq<Candidate>)
    ensures |cs| == 3
    ensures forall i :: 0 <= i < |cs| ==> cs[i].task == TaskOn(cs[i].path, m)
  {
    [Candidate(TaskOn(Enc, m), Enc, !overlay, !overlay),
     Candidate(TaskOn(Pp, m), Pp, true, true),
     Candidate(TaskOn(Vf, m), Vf, true, true)]
  }

  /** The chains of _ipu_copy_setup: a copy runs through one engine, the converter only
      when the picture is split in stripes. */
  function CopyChain(split: bool): (cs: seq<Candidate>)
    ensures forall i :: 0 <= i < |cs| ==> |cs[i].task| == 1
    ensures split ==> forall i :: 0 <= i < |cs| ==> cs[i].task == {IcSlot(cs[i].path)}
  {
    if split then
      [Candidate({IcEnc}, Enc, true, false),
       Candidate({IcPp}, Pp, true, false)]
    else
      [Candidate({IcEnc}, Enc, true, false),
       Candidate({RotEnc}, Enc, true, true),
       Candidate({IcPp}, Pp, true, false),
       Candidate({RotPp}, Pp, true, true),
       Candidate({RotVf}, Vf, true, true)]
  }

  /** The slots of one path the code ORs into ipu_task: the rotator, then the converter. */
  method PathTask(p: Path, m: ModeBits) returns (task: set<Slot>)
    ensures task == TaskOn(p, m)
  {
    task := {};
    if m.rot { task := task + {RotSlot(p)}; }
    if m.ic { task := task + {IcSlot(p)}; }
  }

  /** The ENC/PP/VF fallback of _ipu_task_check as the nested tests of the code. */
  method SelectNormalTask(m: ModeBits, overlay: bool, pref: Pref, inUse: set<Slot>, hw: set<Slot>)
    returns (busy: bool, task: set<Slot>)
    ensures busy <==> Scan(NormalChain(m, overlay), pref, inUse, hw) == AllBusy
    ensures !busy ==> Scan(NormalChain(m, overlay), pref, inUse, hw) == Chosen(task)
  {
    var cs := NormalChain(m, overlay);
    assert cs == [cs[0]] + ([cs[1]] + [cs[2]]);
    ScanStep(cs[0], [cs[1]] + [cs[2]], pref, inUse, hw);
    ScanStep(cs[1], [cs[2]], pref, inUse, hw);
    ScanLast(cs[2], pref, inUse, hw);
    busy := false;
    task := PathTask(Enc, m);
    if overlay || IsTaskBusy(inUse, task, hw) || (pref.IsSet() && !pref.enc) {
      if !overlay && pref.IsSet() && pref.enc {
        busy := true;
        return;
      }
      task := PathTask(Pp, m);
      if IsTaskBusy(inUse, task, hw) || (pref.IsSet() && !pref.pp) {
        if pref.IsSet() && pref.pp {
          busy := true;
          return;
        }
        task := PathTask(Vf, m);
        if IsTaskBusy(inUse, task, hw) || (pref.IsSet() && !pref.vf) {
          busy := true;
        }
      }
    }
  }

  /** The fallback of _ipu_copy_setup as the nested tests of the code. */
  method SelectCopyTask(split: bool, pref: Pref, inUse: set<Slot>, hw: set<Slot>)
    returns (busy: bool, task: set<Slot>)
    ensures busy <==> Scan(CopyChain(split), pref, inUse, hw) == AllBusy
    ensures !busy ==> Scan(CopyChain(split), pref, inUse, hw) == Chosen(task)
  {
    var cs := CopyChain(split);
    busy := false;
    if split {
      assert cs == [cs[0]] + [cs[1]];
      ScanStep(cs[0], [cs[1]], pref, inUse, hw);
      ScanLast(cs[1], pref, inUse, hw);
      task := {IcEnc};
      if IsTaskBusy(inUse, task, hw) || (pref.IsSet() && !pref.enc) {
        task := {IcPp};
        if IsTaskBusy(inUse, task, hw) || (pref.IsSet() && !pref.pp) {
          busy := true;
        }
      }
    } else {
      assert cs == [cs[0]] + ([cs[1]] + ([cs[2]] + ([cs[3]] + [cs[4]])));
      ScanStep(cs[0], [cs[1]] + ([cs[2]] + ([cs[3]] + [cs[4]])), pref, inUse, hw);
      ScanStep(cs[1], [cs[2]] + ([cs[3]] + [cs[4]]), pref, inUse, hw);
      ScanStep(cs[2], [cs[3]] + [cs[4]], pref, inUse, hw);
      ScanStep(cs[3], [cs[4]], pref, inUse, hw);
      ScanLast(cs[4], pref, inUse, hw);
      task := {IcEnc};
      if IsTaskBusy(inUse, task, hw) || (pref.IsSet() && !pref.enc) {
        task := {RotEnc};
        if IsTaskBusy(inUse, task, hw) || (pref.IsSet() && !pref.enc) {
          if pref.IsSet() && pref.enc {
            busy := true;
            return;
          }
          task := {IcPp};
          if IsTaskBusy(inUse, task, hw) || (pref.IsSet() && !pref.pp) {
            task := {RotPp};
            if IsTaskBusy(inUse, task, hw) || (pref.IsSet() && !pref.pp) {
              if pref.IsSet() && pref.pp {
                busy := true;
                return;
              }
              task := {RotVf};
              if IsTaskBusy(inUse, task, hw) || (pref.IsSet() && !pref.vf) {
                busy := true;
              }
            }
          }
        }
      }
    }
  }

  /** A granted normal task serves exactly the requested engines on one allowed path,
      and an overlay never gets the encoder path. */
  lemma NormalChoiceShape(m: ModeBits, overlay: bool, pref: Pref, inUse: set<Slot>, hw: set<Slot>)
    requires Scan(NormalChain(m, overlay), pref, inUse, hw).Chosen?
    ensures var t := Scan(NormalChain(m, overlay), pref, inUse, hw).task;
      !IsTaskBusy(inUse, t, hw)
      && exists p: Path :: t == TaskOn(p, m) && pref.Allows(p) && (overlay ==> p != Enc)
  {
    var cs := NormalChain(m, overlay);
    ScanPicks(cs, pref, inUse, hw);
    var i :| Picks(cs, i, pref, inUse, hw) && cs[i].task == Scan(cs, pref, inUse, hw).task;
    assert cs[i].task == TaskOn(cs[i].path, m);
  }

  /** Without an overlay, a free and allowed encoder path is always taken first. */
  lemma NormalPrefersEncoder(m: ModeBits, pref: Pref, inUse: set<Slot>, hw: set<Slot>)
    requires !IsTaskBusy(inUse, TaskOn(Enc, m), hw) && pref.Allows(Enc)
    ensures Scan(NormalChain(m, false), pref, inUse, hw) == Chosen(TaskOn(Enc, m))
  {
  }

  /** A caller that names the encoder path and finds it busy is refused, not moved. */
  lemma NormalInsistedEncoderBusy(m: ModeBits, pref: Pref, inUse: set<Slot>, hw: set<Slot>)
    requires pref.enc && IsTaskBusy(inUse, TaskOn(Enc, m), hw)
    ensures Scan(NormalChain(m, false), pref, inUse, hw) == AllBusy
  {
  }

  /** With no mask, the normal chain fails only when all three paths are busy. */
  lemma {:induction false} NormalFailsOnlyWhenAllBusy(m: ModeBits, overlay: bool, inUse: set<Slot>, hw: set<Slot>)
    ensures Scan(NormalChain(m, overlay), Pref(false, false, false), inUse, hw) == AllBusy <==>
              ((!overlay ==> IsTaskBusy(inUse, TaskOn(Enc, m), hw))
               && IsTaskBusy(inUse, TaskOn(Pp, m), hw) && IsTaskBusy(inUse, TaskOn(Vf, m), hw))
  {
    var cs := NormalChain(m, overlay);
    assert cs == [cs[0]] + ([cs[1]] + [cs[2]]);
    ScanStep(cs[0], [cs[1]] + [cs[2]], Pref(false, false, false), inUse, hw);
    ScanStep(cs[1], [cs[2]], Pref(false, false, false), inUse, hw);
    ScanLast(cs[2], Pref(false, false, false), inUse, hw);
  }

  /** A copy without stripes through a busy converter falls over to the encoder's rotator. */
  lemma CopyFallsToRotator(pref: Pref, inUse: set<Slot>, hw: set<Slot>)
    requires IcEnc in hw && !IsTaskBusy(inUse, {RotEnc}, hw) && !pref.IsSet()
    ensures Scan(CopyChain(false), pref, inUse, hw) == Chosen({RotEnc})
  {
  }

  /** A split copy never uses a rotator. */
  lemma SplitCopyUsesConverter(pref: Pref, inUse: set<Slot>, hw: set<Slot>)
    requires Scan(CopyChain(true), pref, inUse, hw).Chosen?
    ensures Scan(CopyChain(true), pref, inUse, hw).task in {{IcEnc}, {IcPp}}
  {
  }
}
