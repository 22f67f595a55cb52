/** mxc_ipu_lib_task_buf_update as a state machine over the handle's buffer indices,
    with the interrupt wait and an abstract log of what is programmed on the IPU. */
module Pipeline {
  import opened Stripes

  /** Outcome of each attempt to read the end-of-frame interrupt, in order; attempts past
      the end of the sequence fail. */
  predicate Arrived(arrivals: seq<bool>, k: int) {
    0 <= k < |arrivals| && arrivals[k]
  }

  /** _ipu_wait_for_irq: retry reading the interrupt until it comes or `times` attempts
      have failed; `used` counts the attempts made. */
  method WaitForIrq(times: int, arrivals: seq<bool>) returns (timedOut: bool, used: nat)
    ensures !timedOut <==> exists i :: 0 <= i < times && Arrived(arrivals, i)
    ensures !timedOut ==> Arrived(arrivals, used - 1) && forall j :: 0 <= j < used - 1 ==> !Arrived(arrivals, j)
    ensures timedOut ==> used == (if times < 1 then 1 else times)
    ensures 1 <= used
  {
    var wait := 0;
    used := 1;
    var got := Arrived(arrivals, 0);
    while !got
      invariant used == wait + 1
      invariant wait == 0 || wait < times
      invariant got == Arrived(arrivals, wait)
      invariant forall j :: 0 <= j < wait ==> !Arrived(arrivals, j)
      decreases times - wait
    {
      wait := wait + 1;
      if wait >= times {
        break;
      }
      got := Arrived(arrivals, wait);
      used := used + 1;
    }
    timedOut := !(wait < times);
  }

  /** The buffers of a channel that the library programs. */
  datatype BufKind = InputBuf | OutputBuf | GraphInBuf | AlphaInBuf

  /** What the library does to the IPU and the display, in order. SetStripe programs a
      stripe's buffers and selects them; PrepareStripe (channel set-up) only programs them. */
  datatype Event =
    | EnableTask
    | Wait(arrived: bool)
    | SetStripe(side: Side, inBuf: int, outBuf: int)
    | PrepareStripe(side: Side, inBuf: int, outBuf: int)
    | UpdateBuf(kind: BufKind, idx: int, addr: int)
    | SelectBuf(kind: BufKind, idx: int)
    | Callback(idx: int)
    | Pan(idx: int)

  /** The parts of the handle that a buffer update reads but does not change. */
  datatype PipeConfig = PipeConfig(stream: bool, showToFb: bool, split: bool,
                                   overlayEn: bool, localAlphaEn: bool,
                                   iPaddr: seq<int>, oPaddr: seq<int>,
                                   iOff: int, oOff: int, ovOff: int, ovAlphaOff: int)

  /** Two input buffers; three output buffers (a display has three screens). */
  predicate ValidConfig(c: PipeConfig) {
    |c.iPaddr| == 2 && |c.oPaddr| == 3
  }

  /** The index fields the buffer update steps. */
  datatype PipeState = PipeState(enabled: bool, updateBufnum: int, triOutputBufnum: int,
                                 outputBufnum: int, inputFrCnt: int, outputFrCnt: int)

  predicate ValidState(s: PipeState) {
    0 <= s.updateBufnum < 2 && 0 <= s.triOutputBufnum < 3 && 0 <= s.outputBufnum < 3
  }

  /** The handle as mxc_ipu_lib_task_init leaves it (the private handle is zeroed). */
  const InitialState: PipeState := PipeState(false, 0, 0, 0, 0, 0)

  /** The arguments of one call: new input, overlay and alpha addresses (0: none) and
      whether an output callback is given. */
  datatype Request = Request(newIn: int, newOv: int, newAlpha: int, callback: bool)

  /** Result of one call: the return value, the new indices, the log and the number of
      interrupt attempts consumed. */
  datatype Outcome = Outcome(ret: int, state: PipeState, events: seq<Event>, waits: nat)

  /** The output callback (if any) and the pan to the shown buffer (if on a display). */
  function Notify(c: PipeConfig, req: Request, cbIdx: int, panIdx: int): (e: seq<Event>)
    ensures |e| <= 2
    ensures forall i :: 0 <= i < |e| ==> e[i] == Callback(cbIdx) || e[i] == Pan(panIdx)
  {
    (if req.callback then [Callback(cbIdx)] else []) + (if c.showToFb then [Pan(panIdx)] else [])
  }

  /** The common tail: stream mode moves on to the next output buffer; the next buffer to
      update is returned. */
  function Finish(c: PipeConfig, s: PipeState, e: seq<Event>, k: nat): Outcome {
    var s1 := if c.stream then s.(outputBufnum := (s.outputBufnum + 1) % 3) else s;
    Outcome(s1.updateBufnum, s1, e, k)
  }

  /** First call: enable the task and wait for the first frame (both stripes of it in
      split mode), then in stream-and-split mode prepare the second frame. */
  function FirstCall(c: PipeConfig, s: PipeState, req: Request, enableRet: int, arr: seq<bool>): Outcome
    requires ValidConfig(c)
  {
    if enableRet < 0 then Outcome(enableRet, s, [EnableTask], 0)
    else
      var s1 := s.(inputFrCnt := if c.stream then 2 else 1);
      var e1 := [EnableTask, Wait(Arrived(arr, 0))];
      if !Arrived(arr, 0) then Outcome(-1, s1, e1, 1)
      else
        var e2 := e1 + (if c.split then [SetStripe(RightStripe, c.iPaddr[0], c.oPaddr[0]), Wait(Arrived(arr, 1))] else []);
        var k := if c.split then 2 else 1;
        if c.split && !Arrived(arr, 1) then Outcome(-1, s1, e2, k)
        else
          var e3 := e2 + Notify(c, req, s.outputBufnum, s.outputBufnum);
          var s2 := s1.(triOutputBufnum := if c.stream then 2 else if c.showToFb then 1 else 0,
                        outputFrCnt := 1, enabled := true);
          if c.split && c.stream then
            var e4 := e3 + [SetStripe(LeftStripe, c.iPaddr[1], c.oPaddr[1]), Wait(Arrived(arr, k))];
            if !Arrived(arr, k) then Outcome(-1, s1, e4, k + 1)
            else Finish(c, s2, e4 + [SetStripe(RightStripe, c.iPaddr[1], c.oPaddr[1])], k + 1)
          else Finish(c, s2, e3, k)
  }

  /** Overlay and alpha buffers of a later call, then their selection. */
  function OverlayEvents(c: PipeConfig, req: Request, u: int): seq<Event> {
    (if req.newOv != 0 && c.overlayEn then [UpdateBuf(GraphInBuf, u, req.newOv + c.ovOff)] else [])
    + (if req.newAlpha != 0 && c.overlayEn && c.localAlphaEn then [UpdateBuf(AlphaInBuf, u, req.newAlpha + c.ovAlphaOff)] else [])
    + (if c.overlayEn then [SelectBuf(GraphInBuf, u)] + (if c.localAlphaEn then [SelectBuf(AlphaInBuf, u)] else []) else [])
  }

  /** Output programming of a later call without stripes: queue output buffer tri in slot u
      and start the frame. */
  function QueueEvents(c: PipeConfig, s: PipeState): seq<Event>
    requires ValidConfig(c) && ValidState(s)
  {
    var u := s.updateBufnum;
    if c.split then []
    else [UpdateBuf(OutputBuf, u, c.oPaddr[s.triOutputBufnum] + c.oOff), SelectBuf(OutputBuf, u), SelectBuf(InputBuf, u)]
  }

  /** A later call after the input is in place: overlay, output, then (stream) flip the
      double buffer or (single buffer) wait for the frame and report it. */
  function LaterTail(c: PipeConfig, s: PipeState, req: Request, arr: seq<bool>, k: nat): Outcome
    requires ValidConfig(c) && ValidState(s)
  {
    var u := s.updateBufnum;
    var e1 := OverlayEvents(c, req, u) + QueueEvents(c, s);
    var advance := s.(triOutputBufnum := if c.stream || c.showToFb then (s.triOutputBufnum + 1) % 3 else s.triOutputBufnum,
                      inputFrCnt := s.inputFrCnt + 1, outputFrCnt := s.outputFrCnt + 1);
    if c.stream then
      Finish(c, advance.(updateBufnum := if u != 0 then 0 else 1), e1, k)
    else
      var e2 := e1 + [Wait(Arrived(arr, k))];
      if !Arrived(arr, k) then Outcome(-1, s, e2, k + 1)
      else Finish(c, advance, e2 + Notify(c, req, s.outputBufnum, s.triOutputBufnum), k + 1)
  }

  /** The outcome `o` with the events `e` logged before it. */
  function Prepend(e: seq<Event>, o: Outcome): (r: Outcome)
    ensures r.ret == o.ret && r.state == o.state && r.waits == o.waits && |r.events| == |e| + |o.events|
  {
    o.(events := e + o.events)
  }

  /** A later call: in stream mode first collect the frame queued last time and report
      it; then put the new input in place. */
  function LaterCall(c: PipeConfig, s: PipeState, req: Request, arr: seq<bool>): Outcome
    requires ValidConfig(c) && ValidState(s)
  {
    if !c.stream then PlaceInput(c, s, req, arr, 0)
    else if !Arrived(arr, 0) then Outcome(-1, s, [Wait(false)], 1)
    else Prepend([Wait(true)] + Notify(c, req, s.outputBufnum, s.outputBufnum), PlaceInput(c, s, req, arr, 1))
  }

  /** The new input of a later call, `k` interrupt attempts already used: as two stripes
      of the same buffers in split mode, waiting for the left one; otherwise queued in slot
      update_bufnum when given. */
  function PlaceInput(c: PipeConfig, s: PipeState, req: Request, arr: seq<bool>, k: nat): Outcome
    requires ValidConfig(c) && ValidState(s)
  {
    if c.split then
      var inBuf := if req.newIn != 0 then req.newIn else c.iPaddr[s.updateBufnum];
      var outBuf := c.oPaddr[s.triOutputBufnum];
      var left := [SetStripe(LeftStripe, inBuf, outBuf), Wait(Arrived(arr, k))];
      if !Arrived(arr, k) then Outcome(-1, s, left, k + 1)
      else Prepend(left + [SetStripe(RightStripe, inBuf, outBuf)], LaterTail(c, s, req, arr, k + 1))
    else
      var queued := if req.newIn != 0 then [UpdateBuf(InputBuf, s.updateBufnum, req.newIn + c.iOff)] else [];
      Prepend(queued, LaterTail(c, s, req, arr, k))
  }

  /** One call of mxc_ipu_lib_task_buf_update. `enableRet` is what enabling the task
      returns on a first call; `arr` are the interrupt attempts this call will see. */
  function BufUpdate(c: PipeConfig, s: PipeState, req: Request, enableRet: int, arr: seq<bool>): (r: Outcome)
    requires ValidConfig(c) && ValidState(s)
    ensures ValidState(r.state)
    ensures r.ret >= 0 ==> r.ret == r.state.updateBufnum && r.state.enabled
    ensures r.ret < 0 ==> r.state.updateBufnum == s.updateBufnum && r.state.triOutputBufnum == s.triOutputBufnum
                          && r.state.outputBufnum == s.outputBufnum && r.state.enabled == s.enabled
    ensures r.waits <= 3
  {
    if !s.enabled then FirstCall(c, s, req, enableRet, arr) else LaterCall(c, s, req, arr)
  }

  /** A successful first call sets up the triple buffer: the next output goes to buffer 2
      in stream mode, 1 on a display and 0 otherwise. */
  lemma FirstCallSetsUp(c: PipeConfig, s: PipeState, req: Request, enableRet: int, arr: seq<bool>)
    requires ValidConfig(c) && ValidState(s) && !s.enabled
    requires BufUpdate(c, s, req, enableRet, arr).ret >= 0
    ensures var t := BufUpdate(c, s, req, enableRet, arr).state;
      t.enabled
      && t.triOutputBufnum == (if c.stream then 2 else if c.showToFb then 1 else 0)
      && t.inputFrCnt == (if c.stream then 2 else 1) && t.outputFrCnt == 1
      && t.updateBufnum == s.updateBufnum
      && t.outputBufnum == (if c.stream then (s.outputBufnum + 1) % 3 else s.outputBufnum)
  {
  }

  /** A successful later call flips the input double buffer and moves both output indices
      (stream mode), or moves only the display buffer (single-buffer display mode). */
  lemma LaterCallAdvances(c: PipeConfig, s: PipeState, req: Request, enableRet: int, arr: seq<bool>)
    requires ValidConfig(c) && ValidState(s) && s.enabled
    requires BufUpdate(c, s, req, enableRet, arr).ret >= 0
    ensures var t := BufUpdate(c, s, req, enableRet, arr).state;
      t.enabled
      && t.updateBufnum == (if c.stream then 1 - s.updateBufnum else s.updateBufnum)
      && t.triOutputBufnum == (if c.stream || c.showToFb then (s.triOutputBufnum + 1) % 3 else s.triOutputBufnum)
      && t.outputBufnum == (if c.stream then (s.outputBufnum + 1) % 3 else s.outputBufnum)
      && t.inputFrCnt == s.inputFrCnt + 1 && t.outputFrCnt == s.outputFrCnt + 1
  {
  }

  /** Every interrupt arriving: a call fails only when enabling the task fails. */
  lemma NoTimeoutNoFailure(c: PipeConfig, s: PipeState, req: Request, enableRet: int, arr: seq<bool>)
    requires ValidConfig(c) && ValidState(s)
    requires Arrived(arr, 0) && Arrived(arr, 1) && Arrived(arr, 2)
    ensures BufUpdate(c, s, req, enableRet, arr).ret < 0 <==> !s.enabled && enableRet < 0
  {
  }

  /** A call that fails after enabling stops at the wait that timed out. */
  lemma FailureEndsAtTimeout(c: PipeConfig, s: PipeState, req: Request, enableRet: int, arr: seq<bool>)
    requires ValidConfig(c) && ValidState(s)
    requires BufUpdate(c, s, req, enableRet, arr).ret < 0
    ensures var r := BufUpdate(c, s, req, enableRet, arr);
      if !s.enabled && enableRet < 0 then r.ret == enableRet && r.events == [EnableTask]
      else r.ret == -1 && |r.events| > 0 && r.events[|r.events| - 1] == Wait(false)
  {
  }

  /** Single-buffer mode always returns buffer 0 on success. */
  lemma NormalModeReturnsZero(c: PipeConfig, s: PipeState, req: Request, enableRet: int, arr: seq<bool>)
    requires ValidConfig(c) && ValidState(s) && !c.stream && s.updateBufnum == 0
    ensures var r := BufUpdate(c, s, req, enableRet, arr);
      r.ret >= 0 ==> r.ret == 0 && r.state.updateBufnum == 0
  {
  }

  /** In stream mode the output buffer being written is one ahead of the one reported. */
  predicate TripleBuffered(s: PipeState) {
    s.triOutputBufnum == (s.outputBufnum + 1) % 3
  }

  /** The first stream call from a fresh handle establishes the triple-buffer relation. */
  lemma StreamStartsTripleBuffered(c: PipeConfig, s: PipeState, req: Request, enableRet: int, arr: seq<bool>)
    requires ValidConfig(c) && ValidState(s) && c.stream && !s.enabled && s.outputBufnum == 0
    requires BufUpdate(c, s, req, enableRet, arr).ret >= 0
    ensures TripleBuffered(BufUpdate(c, s, req, enableRet, arr).state)
  {
  }

  /** No callback and no pan in a stretch of the log. */
  predicate NoReports(e: seq<Event>) {
    forall i :: 0 <= i < |e| ==> !e[i].Pan? && !e[i].Callback?
  }

  /** Every callback and pan in a stretch of the log names buffer idx. */
  predicate ReportsOnly(e: seq<Event>, idx: int) {
    forall i :: 0 <= i < |e| && (e[i].Pan? || e[i].Callback?) ==> e[i].idx == idx
  }

  /** No whole output buffer is queued in a stretch of the log. */
  predicate NoOutputQueue(e: seq<Event>) {
    forall i :: 0 <= i < |e| ==> !(e[i].UpdateBuf? && e[i].kind == OutputBuf)
  }

  /** What the tail of a later call logs: in stream mode no report; in split mode no output
      queue. */
  lemma LaterTailLog(c: PipeConfig, s: PipeState, req: Request, arr: seq<bool>, k: nat)
    requires ValidConfig(c) && ValidState(s)
    ensures var t := LaterTail(c, s, req, arr, k).events;
      (c.stream ==> NoReports(t))
      && (c.split ==> NoOutputQueue(t))
  {
    var u := s.updateBufnum;
    var ov := OverlayEvents(c, req, u);
    assert NoReports(ov) && NoOutputQueue(ov);
    var e1 := ov + QueueEvents(c, s);
    if c.stream {
      assert NoReports(QueueEvents(c, s));
      assert NoReports(e1);
    } else if c.split {
      assert QueueEvents(c, s) == [];
      var e2 := e1 + [Wait(Arrived(arr, k))];
      assert NoOutputQueue(e2);
      assert NoOutputQueue(e2 + Notify(c, req, s.outputBufnum, s.triOutputBufnum));
    }
  }

  /** Stream mode keeps the triple-buffer relation, so the buffer reported is never the
      one being written. */
  lemma StreamKeepsTripleBuffered(c: PipeConfig, s: PipeState, req: Request, enableRet: int, arr: seq<bool>)
    requires ValidConfig(c) && ValidState(s) && c.stream && s.enabled && TripleBuffered(s)
    ensures BufUpdate(c, s, req, enableRet, arr).ret >= 0 ==> TripleBuffered(BufUpdate(c, s, req, enableRet, arr).state)
    ensures s.outputBufnum != s.triOutputBufnum
  {
    if BufUpdate(c, s, req, enableRet, arr).ret >= 0 {
      LaterCallAdvances(c, s, req, enableRet, arr);
    }
  }

  lemma ReportsOnlyConcat(a: seq<Event>, b: seq<Event>, idx: int)
    requires ReportsOnly(a, idx) && NoReports(b)
    ensures ReportsOnly(a + b, idx)
  {
  }

  /** Placing the input logs no report in stream mode and queues no whole output buffer
      in split mode. */
  lemma PlaceInputLog(c: PipeConfig, s: PipeState, req: Request, arr: seq<bool>, k: nat)
    requires ValidConfig(c) && ValidState(s)
    ensures var e := PlaceInput(c, s, req, arr, k).events;
      (c.stream ==> NoReports(e)) && (c.split ==> NoOutputQueue(e))
  {
    if c.split {
      var inBuf := if req.newIn != 0 then req.newIn else c.iPaddr[s.updateBufnum];
      var outBuf := c.oPaddr[s.triOutputBufnum];
      var left := [SetStripe(LeftStripe, inBuf, outBuf), Wait(Arrived(arr, k))];
      if Arrived(arr, k) {
        LaterTailLog(c, s, req, arr, k + 1);
        var stripes := left + [SetStripe(RightStripe, inBuf, outBuf)];
        assert NoReports(stripes) && NoOutputQueue(stripes);
      }
    } else {
      LaterTailLog(c, s, req, arr, k);
    }
  }

  /** Every callback and pan of a later stream call reports the frame collected at its
      start, buffer output_bufnum. */
  lemma StreamReportsCollectedFrame(c: PipeConfig, s: PipeState, req: Request, enableRet: int, arr: seq<bool>)
    requires ValidConfig(c) && ValidState(s) && c.stream && s.enabled
    ensures ReportsOnly(BufUpdate(c, s, req, enableRet, arr).events, s.outputBufnum)
  {
    var e := LaterCall(c, s, req, arr).events;
    assert BufUpdate(c, s, req, enableRet, arr).events == e;
    if Arrived(arr, 0) {
      var e2 := [Wait(true)] + Notify(c, req, s.outputBufnum, s.outputBufnum);
      assert ReportsOnly(e2, s.outputBufnum);
      var placed := PlaceInput(c, s, req, arr, 1).events;
      assert e == e2 + placed;
      PlaceInputLog(c, s, req, arr, 1);
      ReportsOnlyConcat(e2, placed, s.outputBufnum);
    } else {
      assert e == [Wait(false)];
    }
  }

  /** The tail of a later single-buffer call without stripes whose frame completed: overlay,
      output queueing, the wait, then the report of buffer tri_output_bufnum. */
  lemma SingleBufferTail(c: PipeConfig, s: PipeState, req: Request, arr: seq<bool>, k: nat)
    requires ValidConfig(c) && ValidState(s) && !c.stream && !c.split && Arrived(arr, k)
    ensures LaterTail(c, s, req, arr, k).events
      == OverlayEvents(c, req, s.updateBufnum) + QueueEvents(c, s) + [Wait(true)]
         + Notify(c, req, s.outputBufnum, s.triOutputBufnum)
  {
  }

  /** On a display in single-buffer mode, the screen panned to is the one just written. */
  lemma DisplayShowsWhatWasWritten(c: PipeConfig, s: PipeState, req: Request, enableRet: int, arr: seq<bool>)
    requires ValidConfig(c) && ValidState(s) && !c.stream && c.showToFb && !c.split && s.enabled
    requires BufUpdate(c, s, req, enableRet, arr).ret >= 0
    ensures var e := BufUpdate(c, s, req, enableRet, arr).events;
      exists i, j :: 0 <= i < j < |e| && e[i] == UpdateBuf(OutputBuf, s.updateBufnum, c.oPaddr[s.triOutputBufnum] + c.oOff)
                     && e[j] == Pan(s.triOutputBufnum)
  {
    var e := BufUpdate(c, s, req, enableRet, arr).events;
    var queued := if req.newIn != 0 then [UpdateBuf(InputBuf, s.updateBufnum, req.newIn + c.iOff)] else [];
    assert BufUpdate(c, s, req, enableRet, arr) == LaterCall(c, s, req, arr);
    assert LaterCall(c, s, req, arr) == Prepend(queued, LaterTail(c, s, req, arr, 0));
    assert Arrived(arr, 0);
    SingleBufferTail(c, s, req, arr, 0);
    var ov := OverlayEvents(c, req, s.updateBufnum);
    var q := QueueEvents(c, s);
    var n := Notify(c, req, s.outputBufnum, s.triOutputBufnum);
    assert e == queued + (ov + q + [Wait(true)] + n);
    var i := |queued + ov|;
    var j := |e| - 1;
    assert e[i] == q[0];
    assert n[|n| - 1] == Pan(s.triOutputBufnum);
    assert e[j] == n[|n| - 1];
  }

  /** The log of a successful later call in split mode: the stream prologue, the two
      stripes around one wait, then a tail without output queueing. */
  lemma SplitLaterLog(c: PipeConfig, s: PipeState, req: Request, arr: seq<bool>)
    requires ValidConfig(c) && ValidState(s) && c.split
    requires LaterCall(c, s, req, arr).ret >= 0
    ensures var inBuf := if req.newIn != 0 then req.newIn else c.iPaddr[s.updateBufnum];
      var outBuf := c.oPaddr[s.triOutputBufnum];
      exists pre, t :: (NoOutputQueue(pre) && NoOutputQueue(t) &&
        LaterCall(c, s, req, arr).events
          == pre + [SetStripe(LeftStripe, inBuf, outBuf), Wait(true), SetStripe(RightStripe, inBuf, outBuf)] + t)
  {
    var inBuf := if req.newIn != 0 then req.newIn else c.iPaddr[s.updateBufnum];
    var outBuf := c.oPaddr[s.triOutputBufnum];
    var k := if c.stream then 1 else 0;
    var pre := (if c.stream then [Wait(true)] + Notify(c, req, s.outputBufnum, s.outputBufnum) else []);
    var stripes := [SetStripe(LeftStripe, inBuf, outBuf), Wait(true), SetStripe(RightStripe, inBuf, outBuf)];
    assert LaterCall(c, s, req, arr).events == pre + PlaceInput(c, s, req, arr, k).events;
    PlacedStripes(c, s, req, arr, k);
    var t := LaterTail(c, s, req, arr, k + 1).events;
    assert pre + (stripes + t) == pre + stripes + t;
    assert NoOutputQueue(pre);
  }

  /** Placing the input in split mode after the left stripe's interrupt arrived: the two
      stripes around the wait, then the tail, which queues no whole output buffer. */
  lemma PlacedStripes(c: PipeConfig, s: PipeState, req: Request, arr: seq<bool>, k: nat)
    requires ValidConfig(c) && ValidState(s) && c.split
    requires PlaceInput(c, s, req, arr, k).ret >= 0
    ensures var inBuf := if req.newIn != 0 then req.newIn else c.iPaddr[s.updateBufnum];
      var outBuf := c.oPaddr[s.triOutputBufnum];
      var t := LaterTail(c, s, req, arr, k + 1).events;
      PlaceInput(c, s, req, arr, k).events
        == [SetStripe(LeftStripe, inBuf, outBuf), Wait(true), SetStripe(RightStripe, inBuf, outBuf)] + t
      && NoOutputQueue(t)
  {
    var inBuf := if req.newIn != 0 then req.newIn else c.iPaddr[s.updateBufnum];
    var outBuf := c.oPaddr[s.triOutputBufnum];
    assert Arrived(arr, k);
    assert [SetStripe(LeftStripe, inBuf, outBuf), Wait(true)] + [SetStripe(RightStripe, inBuf, outBuf)]
           == [SetStripe(LeftStripe, inBuf, outBuf), Wait(true), SetStripe(RightStripe, inBuf, outBuf)];
    LaterTailLog(c, s, req, arr, k + 1);
  }

  lemma StripesAt(pre: seq<Event>, stripes: seq<Event>, t: seq<Event>)
    requires |stripes| == 3
    ensures var e := pre + stripes + t;
      |pre| + 2 < |e| && e[|pre|] == stripes[0] && e[|pre| + 1] == stripes[1] && e[|pre| + 2] == stripes[2]
  {
  }

  lemma NoOutputQueueConcat(a: seq<Event>, b: seq<Event>, t: seq<Event>)
    requires NoOutputQueue(a) && NoOutputQueue(b) && NoOutputQueue(t)
    ensures NoOutputQueue(a + b + t)
  {
  }

  /** In split mode a later call programs the left stripe, waits for it, then programs the
      right stripe of the same buffers, and never queues a whole output buffer. */
  lemma SplitStripesInOrder(c: PipeConfig, s: PipeState, req: Request, enableRet: int, arr: seq<bool>)
    requires ValidConfig(c) && ValidState(s) && c.split && s.enabled
    requires BufUpdate(c, s, req, enableRet, arr).ret >= 0
    ensures var e := BufUpdate(c, s, req, enableRet, arr).events;
      var inBuf := if req.newIn != 0 then req.newIn else c.iPaddr[s.updateBufnum];
      var outBuf := c.oPaddr[s.triOutputBufnum];
      (exists i :: (0 <= i && i + 2 < |e| && e[i] == SetStripe(LeftStripe, inBuf, outBuf)
                    && e[i + 1] == Wait(true) && e[i + 2] == SetStripe(RightStripe, inBuf, outBuf)))
      && NoOutputQueue(e)
  {
    var e := BufUpdate(c, s, req, enableRet, arr).events;
    var inBuf := if req.newIn != 0 then req.newIn else c.iPaddr[s.updateBufnum];
    var outBuf := c.oPaddr[s.triOutputBufnum];
    var stripes := [SetStripe(LeftStripe, inBuf, outBuf), Wait(true), SetStripe(RightStripe, inBuf, outBuf)];
    assert BufUpdate(c, s, req, enableRet, arr) == LaterCall(c, s, req, arr);
    SplitLaterLog(c, s, req, arr);
    var pre, t :| NoOutputQueue(pre) && NoOutputQueue(t) && e == pre + stripes + t;
    StripesAt(pre, stripes, t);
    NoOutputQueueConcat(pre, stripes, t);
  }

  /** Every interrupt arrives at every call. */
  const AlwaysArrives: seq<bool> := [true, true, true]

  /** One call with no new addresses and every frame completing. */
  function Step(c: PipeConfig, s: PipeState): (t: PipeState)
    requires ValidConfig(c) && ValidState(s)
    ensures ValidState(t)
  {
    BufUpdate(c, s, Request(0, 0, 0, false), 0, AlwaysArrives).state
  }

  /** t is where n frames from s leave the indices: each counted modulo its period when
      it moves in this mode, and the frame count advanced by n. */
  predicate IndicesAfter(c: PipeConfig, s: PipeState, t: PipeState, n: nat) {
    t.enabled
    && t.updateBufnum == (if c.stream then (s.updateBufnum + n) % 2 else s.updateBufnum)
    && t.triOutputBufnum == (if c.stream || c.showToFb then (s.triOutputBufnum + n) % 3 else s.triOutputBufnum)
    && t.outputBufnum == (if c.stream then (s.outputBufnum + n) % 3 else s.outputBufnum)
    && t.outputFrCnt == s.outputFrCnt + n
  }

  /** An enabled handle advances every index by one step modulo its period. */
  lemma StepAdvances(c: PipeConfig, s: PipeState)
    requires ValidConfig(c) && ValidState(s) && s.enabled
    ensures IndicesAfter(c, s, Step(c, s), 1)
  {
    var req := Request(0, 0, 0, false);
    NoTimeoutNoFailure(c, s, req, 0, AlwaysArrives);
    LaterCallAdvances(c, s, req, 0, AlwaysArrives);
  }

  /** One step modulo m followed by n - 1 more is n steps. */
  lemma ModStep(a: int, b: int, t: int, n: nat, m: int)
    requires m == 2 || m == 3
    requires 0 <= a < m && n >= 1
    requires b == (a + 1) % m && t == (b + (n - 1)) % m
    ensures t == (a + n) % m
  {
    if a + 1 == m {
      if m == 2 {
        assert (2 + (n - 1)) % 2 == (n - 1) % 2;
      } else {
        assert (3 + (n - 1)) % 3 == (n - 1) % 3;
      }
    }
  }

  lemma ModOfMultiple(a: int, n: nat, m: int)
    requires m == 2 || m == 3
    requires 0 <= a < m && n % 6 == 0
    ensures (a + n) % m == a
  {
    if m == 2 {
      TwoDividesSix(a, n);
    } else {
      ThreeDividesSix(a, n);
    }
  }

  lemma TwoDividesSix(a: int, n: nat)
    requires 0 <= a < 2 && n % 6 == 0
    ensures (a + n) % 2 == a
  {
    assert n == 2 * (3 * (n / 6));
    ParityShift(a, 3 * (n / 6));
  }

  lemma ParityShift(a: int, j: int)
    requires 0 <= a < 2
    ensures (a + 2 * j) % 2 == a
  {
  }

  lemma ThreeDividesSix(a: int, n: nat)
    requires 0 <= a < 3 && n % 6 == 0
    ensures (a + n) % 3 == a
  {
  }

  /** n calls with no new addresses and every frame completing. */
  function Run(c: PipeConfig, s: PipeState, n: nat): (t: PipeState)
    requires ValidConfig(c) && ValidState(s)
    ensures ValidState(t)
    decreases n
  {
    if n == 0 then s
    else Run(c, Step(c, s), n - 1)
  }

  /** After n frames the indices are where counting n steps modulo 2 and 3 puts them. */
  lemma {:induction false} RunIndices(c: PipeConfig, s: PipeState, n: nat)
    requires ValidConfig(c) && ValidState(s) && s.enabled
    ensures IndicesAfter(c, s, Run(c, s, n), n)
    decreases n
  {
    if n > 0 {
      var s1 := Step(c, s);
      StepAdvances(c, s);
      RunIndices(c, s1, n - 1);
      IndicesCompose(c, s, s1, Run(c, s1, n - 1), n);
    }
  }

  /** One frame followed by n - 1 more is n frames. */
  lemma IndicesCompose(c: PipeConfig, s: PipeState, s1: PipeState, t: PipeState, n: nat)
    requires ValidState(s) && n >= 1
    requires IndicesAfter(c, s, s1, 1) && IndicesAfter(c, s1, t, n - 1)
    ensures IndicesAfter(c, s, t, n)
  {
    if c.stream {
      ModStep(s.updateBufnum, s1.updateBufnum, t.updateBufnum, n, 2);
      ModStep(s.outputBufnum, s1.outputBufnum, t.outputBufnum, n, 3);
    }
    if c.stream || c.showToFb {
      ModStep(s.triOutputBufnum, s1.triOutputBufnum, t.triOutputBufnum, n, 3);
    }
  }

  /** Six frames (a multiple of both periods) bring every index back to where it started. */
  lemma RunPeriodSix(c: PipeConfig, s: PipeState, n: nat)
    requires ValidConfig(c) && ValidState(s) && s.enabled && n % 6 == 0
    ensures var t := Run(c, s, n);
      t.updateBufnum == s.updateBufnum && t.triOutputBufnum == s.triOutputBufnum
      && t.outputBufnum == s.outputBufnum
  {
    RunIndices(c, s, n);
    ModOfMultiple(s.updateBufnum, n, 2);
    ModOfMultiple(s.triOutputBufnum, n, 3);
    ModOfMultiple(s.outputBufnum, n, 3);
  }
}
