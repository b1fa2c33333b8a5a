/** The alpha combiner (gst/codecalpha/gstalphacombine.c): format negotiation over
    its format table, and the one-buffer hand-off of alpha buffers between the alpha
    pad and the sink pad, guarded by a counted flushing state.

    The two pads run on different threads in the source and wait on a condition
    variable; here every call is sequential and each wait becomes a precondition
    (the slot is empty or the element is flushing, or the slot is full or the
    element is flushing). Buffers are identified values with a GAP flag; their
    memory is not modelled. */
module AlphaCombine {
  import opened Wrappers
  import opened Video

  /** One row of format_map. */
  datatype FormatMapping = FormatMapping(sink: VideoFormat, alpha: VideoFormat, src: VideoFormat)

  /** format_map: an I420 stream combined with an I420, GRAY8 or NV12 alpha stream
      gives A420. */
  const FormatMap: seq<FormatMapping> := [
    FormatMapping(I420, I420, A420),
    FormatMapping(I420, GRAY8, A420),
    FormatMapping(I420, NV12, A420)]

  /** The output format of the first row matching the pair, or Unknown. */
  function LookupFormat(table: seq<FormatMapping>, sink: VideoFormat, alpha: VideoFormat): VideoFormat
  {
    if |table| == 0 then Unknown
    else if table[0].sink == sink && table[0].alpha == alpha then table[0].src
    else LookupFormat(table[1..], sink, alpha)
  }

  /** What the element is documented to produce: A420 from I420 with an I420, GRAY8
      or NV12 alpha stream, nothing otherwise. */
  function CombinedFormat(sink: VideoFormat, alpha: VideoFormat): VideoFormat {
    if sink == I420 && (alpha == I420 || alpha == GRAY8 || alpha == NV12) then A420 else Unknown
  }

  /** Some row of the table is for the pair. */
  predicate InFormatMap(sink: VideoFormat, alpha: VideoFormat) {
    exists i :: 0 <= i < |FormatMap| && FormatMap[i].sink == sink && FormatMap[i].alpha == alpha
  }

  /** The table gives exactly the documented combinations. */
  lemma {:induction false} FormatMapIsCombinedFormat(sink: VideoFormat, alpha: VideoFormat)
    ensures LookupFormat(FormatMap, sink, alpha) == CombinedFormat(sink, alpha)
  {
    var t1, t2, t3 := FormatMap[1..], FormatMap[1..][1..], FormatMap[1..][1..][1..];
    assert t3 == [];
    assert LookupFormat(t3, sink, alpha) == Unknown;
    assert LookupFormat(t2, sink, alpha) == if sink == I420 && alpha == NV12 then A420 else Unknown;
    assert LookupFormat(t1, sink, alpha) == if sink == I420 && (alpha == GRAY8 || alpha == NV12) then A420 else Unknown;
  }

  /** The table has a row for exactly the documented pairs. */
  lemma FormatMapRows(sink: VideoFormat, alpha: VideoFormat)
    ensures InFormatMap(sink, alpha) <==> CombinedFormat(sink, alpha) != Unknown
  {
    if InFormatMap(sink, alpha) {
      var i :| 0 <= i < |FormatMap| && FormatMap[i].sink == sink && FormatMap[i].alpha == alpha;
      assert i == 0 || i == 1 || i == 2;
    }
    if CombinedFormat(sink, alpha) != Unknown {
      var i := if alpha == I420 then 0 else if alpha == GRAY8 then 1 else 2;
      assert FormatMap[i].sink == sink && FormatMap[i].alpha == alpha;
    }
  }

  /** The scan in gst_alpha_combine_negotiate: the first matching row's output
      format, or Unknown when no row matches. */
  method FindSrcFormat(sink: VideoFormat, alpha: VideoFormat) returns (src: VideoFormat)
    ensures src == CombinedFormat(sink, alpha)
    ensures src != Unknown <==> InFormatMap(sink, alpha)
  {
    FormatMapIsCombinedFormat(sink, alpha);
    FormatMapRows(sink, alpha);
    src := Unknown;
    var i := 0;
    while i < |FormatMap|
      invariant 0 <= i <= |FormatMap|
      invariant src == Unknown
      invariant LookupFormat(FormatMap[i..], sink, alpha) == LookupFormat(FormatMap, sink, alpha)
    {
      if FormatMap[i].sink == sink && FormatMap[i].alpha == alpha {
        src := FormatMap[i].src;
        break;
      }
      assert FormatMap[i..][1..] == FormatMap[i + 1..];
      i := i + 1;
    }
  }

  /** The output format gst_alpha_combine_negotiate leaves: a known one is kept;
      otherwise the table's format when the pair is in the table and both streams
      have the same colour range, else Unknown. */
  function Negotiated(srcFormat: VideoFormat, sinkInfo: VideoInfo, alphaInfo: VideoInfo): VideoFormat {
    if srcFormat != Unknown then srcFormat
    else if LookupFormat(FormatMap, sinkInfo.format, alphaInfo.format) == Unknown then Unknown
    else if sinkInfo.colorimetry.range != alphaInfo.colorimetry.range then Unknown
    else LookupFormat(FormatMap, sinkInfo.format, alphaInfo.format)
  }

  /** Negotiation succeeds for a fresh element exactly for the documented format
      pairs with equal colour ranges, and then gives A420; once it has succeeded,
      it keeps its result. */
  lemma {:induction false} NegotiatedSpec(srcFormat: VideoFormat, sinkInfo: VideoInfo, alphaInfo: VideoInfo)
    ensures srcFormat == Unknown ==>
      (Negotiated(srcFormat, sinkInfo, alphaInfo) != Unknown <==>
         CombinedFormat(sinkInfo.format, alphaInfo.format) != Unknown
         && sinkInfo.colorimetry.range == alphaInfo.colorimetry.range)
    ensures srcFormat == Unknown && Negotiated(srcFormat, sinkInfo, alphaInfo) != Unknown ==>
      Negotiated(srcFormat, sinkInfo, alphaInfo) == A420
    ensures var n := Negotiated(srcFormat, sinkInfo, alphaInfo);
      n != Unknown ==> Negotiated(n, sinkInfo, alphaInfo) == n
  {
    FormatMapIsCombinedFormat(sinkInfo.format, alphaInfo.format);
  }

  /** GstFlowReturn. */
  datatype FlowReturn = Ok | NotLinked | Flushing | Eos | NotNegotiated | Error | NotSupported | CustomFlow(code: int)

  /** A buffer, identified by id, with its GAP flag. */
  datatype Buffer = Buffer(id: nat, gap: bool)

  /** The state shared by the two pads: the one-buffer alpha slot, the last alpha
      buffer combined, the last flow return of the source pad, and the flushing
      count. */
  datatype Handoff = Handoff(
    alphaBuffer: Option<Buffer>,
    lastAlphaBuffer: Option<Buffer>,
    lastFlowRet: FlowReturn,
    flushing: nat)

  /** The hand-off state gst_alpha_combine_init leaves: empty, and flushing until the
      element goes to PAUSED. */
  const InitialHandoff := Handoff(None, None, Ok, 1)

  /** The last alpha buffer, when there is one, carries data: a GAP buffer is never
      kept. */
  predicate KeepsDataOnly(h: Handoff) {
    h.lastAlphaBuffer.Some? ==> !h.lastAlphaBuffer.value.gap
  }

  /** gst_alpha_combine_unlock. */
  function Unlocked(h: Handoff): (r: Handoff)
    ensures r.flushing > 0
  {
    h.(flushing := h.flushing + 1)
  }

  /** gst_alpha_combine_unlock_stop: its g_assert requires a positive count. */
  function UnlockStopped(h: Handoff): (r: Handoff)
    requires h.flushing > 0
  {
    h.(flushing := h.flushing - 1)
  }

  /** gst_alpha_combine_reset. */
  function Cleared(h: Handoff): (r: Handoff)
    ensures KeepsDataOnly(r)
  {
    h.(alphaBuffer := None, lastAlphaBuffer := None, lastFlowRet := Ok)
  }

  /** A stop undoes an unlock, and an unlock undoes a stop. */
  lemma {:induction false} UnlockStopUndoesUnlock(h: Handoff)
    ensures UnlockStopped(Unlocked(h)) == h
    ensures h.flushing > 0 ==> Unlocked(UnlockStopped(h)) == h
  {
  }

  /** gst_alpha_combine_push_alpha_buffer once its wait is over: while flushing the
      buffer is dropped and FLUSHING returned; otherwise the buffer fills the slot
      and the flow return of the previous combination is returned. */
  function Pushed(h: Handoff, buffer: Buffer): (r: (Handoff, FlowReturn))
    requires h.alphaBuffer.None? || h.flushing > 0
    ensures h.flushing > 0 ==> r.0 == h
    ensures r.0.flushing == h.flushing
  {
    if h.flushing > 0 then (h, Flushing)
    else (h.(alphaBuffer := Some(buffer)), h.lastFlowRet)
  }

  /** gst_alpha_combine_pop_alpha_buffer. */
  function Popped(h: Handoff, flowRet: FlowReturn): (r: Handoff)
    ensures r.alphaBuffer.None?
  {
    h.(lastFlowRet := flowRet, alphaBuffer := None)
  }

  /** gst_alpha_combine_peek_alpha_buffer once its wait is over, given whether
      negotiation succeeds: FLUSHING while flushing; NOT_NEGOTIATED when negotiation
      fails; for a GAP buffer, the last alpha buffer or ERROR when there is none;
      otherwise the buffer in the slot. The slot is left as it is. */
  function Peeked(h: Handoff, negotiated: bool): (r: (FlowReturn, Option<Buffer>))
    requires h.alphaBuffer.Some? || h.flushing > 0
  {
    if h.flushing > 0 then (Flushing, None)
    else if !negotiated then (NotNegotiated, None)
    else if h.alphaBuffer.value.gap then
      if h.lastAlphaBuffer.None? then (Error, None) else (Ok, h.lastAlphaBuffer)
    else (Ok, h.alphaBuffer)
  }

  /** Peek hands out a buffer exactly when it returns OK, and the buffer it hands out
      carries data: the one in the slot, or for a GAP the last one combined. */
  lemma {:induction false} PeekedYieldsData(h: Handoff, negotiated: bool)
    requires h.alphaBuffer.Some? || h.flushing > 0
    requires KeepsDataOnly(h)
    ensures var (ret, buffer) := Peeked(h, negotiated);
      && (ret == Ok <==> buffer.Some?)
      && (buffer.Some? ==> !buffer.value.gap)
      && (buffer.Some? ==> buffer == h.alphaBuffer || (h.alphaBuffer.value.gap && buffer == h.lastAlphaBuffer))
      && (ret == Ok <==> h.flushing == 0 && negotiated && (!h.alphaBuffer.value.gap || h.lastAlphaBuffer.Some?))
  {
  }

  /** Pushing into an empty slot and then popping it leaves the slot empty with the
      new flow return recorded; the push itself reported the previous one. While
      flushing, a push changes nothing. */
  lemma {:induction false} PushThenPop(h: Handoff, buffer: Buffer, flowRet: FlowReturn)
    requires h.alphaBuffer.None?
    ensures h.flushing == 0 ==>
      && Pushed(h, buffer).0.alphaBuffer == Some(buffer)
      && Pushed(h, buffer).1 == h.lastFlowRet
      && Popped(Pushed(h, buffer).0, flowRet) == h.(lastFlowRet := flowRet)
    ensures h.flushing > 0 ==> Pushed(h, buffer) == (h, Flushing)
  {
  }

  /** The events that change the flushing count: flush-start on either pad, flush-stop
      on the sink pad or on the alpha pad (which also resets), and the READY to
      PAUSED and PAUSED to READY transitions (the latter also resets). */
  datatype FlushEvent = FlushStart | SinkFlushStop | AlphaFlushStop | ReadyToPaused | PausedToReady

  /** gst_alpha_combine_sink_event, alpha_event and change_state on the hand-off
      state; None when a stop meets a zero count (the g_assert in unlock_stop). */
  function OnFlushEvent(h: Handoff, e: FlushEvent): (r: Option<Handoff>)
    ensures r.None? <==> h.flushing == 0 && (e.SinkFlushStop? || e.AlphaFlushStop? || e.ReadyToPaused?)
  {
    match e
    case FlushStart => Some(Unlocked(h))
    case SinkFlushStop => if h.flushing == 0 then None else Some(UnlockStopped(h))
    case AlphaFlushStop => if h.flushing == 0 then None else Some(Cleared(UnlockStopped(h)))
    case ReadyToPaused => if h.flushing == 0 then None else Some(UnlockStopped(h))
    case PausedToReady => Some(Cleared(Unlocked(h)))
  }

  /** The state after a sequence of events, or None if a stop met a zero count. */
  function RunEvents(h: Handoff, events: seq<FlushEvent>): Option<Handoff>
  {
    if |events| == 0 then Some(h)
    else match RunEvents(h, events[..|events| - 1])
      case None => None
      case Some(h') => OnFlushEvent(h', events[|events| - 1])
  }

  /** The number of unlocks minus the number of stops in a sequence of events. */
  function Balance(events: seq<FlushEvent>): int
  {
    if |events| == 0 then 0
    else Balance(events[..|events| - 1])
         + (if events[|events| - 1].FlushStart? || events[|events| - 1].PausedToReady? then 1 else -1)
  }

  /** The flushing count is a reference count: a sequence of events runs without
      tripping the assertion exactly when no prefix has more stops than the starting
      count plus its unlocks, and it then ends at the starting count plus the
      balance. */
  lemma {:induction false} FlushingCountsUnlocks(h: Handoff, events: seq<FlushEvent>)
    ensures RunEvents(h, events).Some? <==>
      forall k :: 0 <= k <= |events| ==> h.flushing + Balance(events[..k]) >= 0
    ensures RunEvents(h, events).Some? ==>
      RunEvents(h, events).value.flushing == h.flushing + Balance(events)
    decreases |events|
  {
    if |events| == 0 {
      assert events[..0] == events;
    } else {
      var n := |events| - 1;
      var init := events[..n];
      FlushingCountsUnlocks(h, init);
      assert events[..|events|] == events;
      assert forall k :: 0 <= k <= n ==> init[..k] == events[..k];
      if RunEvents(h, events).Some? {
        assert forall k :: 0 <= k <= |events| ==> h.flushing + Balance(events[..k]) >= 0 by {
          forall k | 0 <= k <= |events|
            ensures h.flushing + Balance(events[..k]) >= 0
          {
            if k <= n {
              assert init[..k] == events[..k];
            }
          }
        }
      } else if RunEvents(h, init).Some? {
        assert h.flushing + Balance(events[..|events|]) < 0;
      } else {
        var k :| 0 <= k <= n && h.flushing + Balance(init[..k]) < 0;
        assert init[..k] == events[..k];
      }
    }
  }

  /** From gst_alpha_combine_init, data flows (the count is zero) after a run exactly
      when it holds one more stop than unlocks: the READY to PAUSED transition
      releases the count that init starts with. */
  lemma {:induction false} DataFlowsWhenBalanced(events: seq<FlushEvent>)
    requires RunEvents(InitialHandoff, events).Some?
    ensures RunEvents(InitialHandoff, events).value.flushing == 0 <==> Balance(events) == -1
  {
    FlushingCountsUnlocks(InitialHandoff, events);
  }

  /** The A420 parts of a GstVideoMeta: format, plane count, and per-plane offsets and
      strides. */
  datatype VideoMeta = VideoMeta(format: VideoFormat, width: int, height: int, nPlanes: nat,
                                 offset: seq<int>, stride: seq<int>)

  /** GST_VIDEO_COMP_A. */
  const CompA: nat := 3

  /** Where the alpha stream's luma lives: its skip into the memory found and the
      luma stride. */
  datatype AlphaPlane = AlphaPlane(skip: nat, stride: int)

  /** The video meta of the combined buffer: the colour buffer's meta with the alpha
      memory appended after its bytes as plane 3, made A420 with four planes. */
  function CombinedMeta(meta: VideoMeta, copySize: nat, alpha: AlphaPlane): (r: VideoMeta)
    requires |meta.offset| == MaxPlanes && |meta.stride| == MaxPlanes
    ensures r.format == A420 && r.nPlanes == 4
    ensures r.width == meta.width && r.height == meta.height
    ensures |r.offset| == MaxPlanes && |r.stride| == MaxPlanes
    ensures r.offset[CompA] >= copySize && r.offset[CompA] - copySize == alpha.skip
    ensures r.stride[CompA] == alpha.stride
    ensures forall p :: 0 <= p < CompA ==> r.offset[p] == meta.offset[p] && r.stride[p] == meta.stride[p]
  {
    meta.(offset := meta.offset[CompA := alpha.skip + copySize],
          stride := meta.stride[CompA := alpha.stride],
          format := A420,
          nPlanes := 4)
  }

  /** The state transitions change_state handles. */
  datatype StateChange = ReadyToPausedChange | PausedToReadyChange | OtherChange

  class AlphaCombiner {
    var sinkInfo: VideoInfo
    var alphaInfo: VideoInfo
    var srcFormat: VideoFormat
    var alphaBuffer: Option<Buffer>
    var lastAlphaBuffer: Option<Buffer>
    var lastFlowRet: FlowReturn
    var flushing: nat

    /** The hand-off part of the state. */
    function State(): Handoff
      reads this
    {
      Handoff(alphaBuffer, lastAlphaBuffer, lastFlowRet, flushing)
    }

    ghost predicate Valid()
      reads this
    {
      KeepsDataOnly(State())
    }

    /** gst_alpha_combine_init. */
    constructor ()
      ensures Valid()
      ensures State() == InitialHandoff
      ensures srcFormat == Unknown && sinkInfo == EmptyInfo && alphaInfo == EmptyInfo
    {
      sinkInfo := EmptyInfo;
      alphaInfo := EmptyInfo;
      srcFormat := Unknown;
      alphaBuffer := None;
      lastAlphaBuffer := None;
      lastFlowRet := Ok;
      flushing := 1;
    }

    /** gst_alpha_combine_unlock. */
    method Unlock()
      modifies this
      ensures State() == Unlocked(old(State()))
      ensures srcFormat == old(srcFormat) && sinkInfo == old(sinkInfo) && alphaInfo == old(alphaInfo)
    {
      flushing := flushing + 1;
    }

    /** gst_alpha_combine_unlock_stop. */
    method UnlockStop()
      requires flushing > 0
      modifies this
      ensures State() == UnlockStopped(old(State()))
      ensures srcFormat == old(srcFormat) && sinkInfo == old(sinkInfo) && alphaInfo == old(alphaInfo)
    {
      flushing := flushing - 1;
    }

    /** gst_alpha_combine_reset. */
    method Reset()
      modifies this
      ensures Valid()
      ensures State() == Cleared(old(State()))
      ensures srcFormat == old(srcFormat) && sinkInfo == old(sinkInfo) && alphaInfo == old(alphaInfo)
    {
      alphaBuffer := None;
      lastAlphaBuffer := None;
      lastFlowRet := Ok;
    }

    /** gst_alpha_combine_negotiate: succeeds exactly when an output format is known
        afterwards. */
    method Negotiate() returns (ok: bool)
      modifies this
      ensures srcFormat == Negotiated(old(srcFormat), sinkInfo, alphaInfo)
      ensures ok <==> srcFormat != Unknown
      ensures State() == old(State()) && sinkInfo == old(sinkInfo) && alphaInfo == old(alphaInfo)
    {
      if srcFormat != Unknown {
        return true;
      }
      FormatMapIsCombinedFormat(sinkInfo.format, alphaInfo.format);
      var found := FindSrcFormat(sinkInfo.format, alphaInfo.format);
      if found == Unknown {
        return false;
      }
      if sinkInfo.colorimetry.range != alphaInfo.colorimetry.range {
        return false;
      }
      srcFormat := found;
      return true;
    }

    /** gst_alpha_combine_peek_alpha_buffer once the slot is full or the element is
        flushing. Negotiation runs only when not flushing. */
    method PeekAlphaBuffer() returns (ret: FlowReturn, buffer: Option<Buffer>)
      requires alphaBuffer.Some? || flushing > 0
      modifies this
      ensures old(flushing) > 0 ==> srcFormat == old(srcFormat)
      ensures old(flushing) == 0 ==> srcFormat == Negotiated(old(srcFormat), sinkInfo, alphaInfo)
      ensures (ret, buffer) == Peeked(old(State()), srcFormat != Unknown)
      ensures State() == old(State()) && sinkInfo == old(sinkInfo) && alphaInfo == old(alphaInfo)
    {
      if flushing > 0 {
        return Flushing, None;
      }
      var negotiated := Negotiate();
      if !negotiated {
        return NotNegotiated, None;
      }
      buffer := alphaBuffer;
      if buffer.value.gap {
        if lastAlphaBuffer.None? {
          return Error, None;
        }
        buffer := lastAlphaBuffer;
      }
      ret := Ok;
    }

    /** gst_alpha_combine_pop_alpha_buffer. */
    method PopAlphaBuffer(flowRet: FlowReturn)
      modifies this
      ensures State() == Popped(old(State()), flowRet)
      ensures srcFormat == old(srcFormat) && sinkInfo == old(sinkInfo) && alphaInfo == old(alphaInfo)
    {
      lastFlowRet := flowRet;
      alphaBuffer := None;
    }

    /** gst_alpha_combine_push_alpha_buffer (the alpha pad's chain function) once the
        slot is empty or the element is flushing. */
    method PushAlphaBuffer(buffer: Buffer) returns (ret: FlowReturn)
      requires alphaBuffer.None? || flushing > 0
      modifies this
      ensures (State(), ret) == Pushed(old(State()), buffer)
      ensures srcFormat == old(srcFormat) && sinkInfo == old(sinkInfo) && alphaInfo == old(alphaInfo)
    {
      if flushing > 0 {
        return Flushing;
      }
      alphaBuffer := Some(buffer);
      ret := lastFlowRet;
    }

    /** gst_alpha_combine_set_alpha_format once the slot is empty or the element is
        flushing: while flushing the new alpha info is not taken; an info that cannot
        be parsed (None) fails. */
    method SetAlphaFormat(info: Option<VideoInfo>) returns (ok: bool)
      requires alphaBuffer.None? || flushing > 0
      modifies this
      ensures flushing == 0 && info.Some? ==> alphaInfo == info.value
      ensures flushing > 0 || info.None? ==> alphaInfo == old(alphaInfo)
      ensures ok <==> flushing > 0 || info.Some?
      ensures State() == old(State()) && srcFormat == old(srcFormat) && sinkInfo == old(sinkInfo)
    {
      if flushing > 0 {
        return true;
      }
      if info.None? {
        return false;
      }
      alphaInfo := info.value;
      return true;
    }

    /** The flush events of gst_alpha_combine_sink_event and alpha_event. */
    method FlushEventOnPad(e: FlushEvent)
      requires e.FlushStart? || e.SinkFlushStop? || e.AlphaFlushStop?
      requires OnFlushEvent(State(), e).Some?
      modifies this
      ensures State() == OnFlushEvent(old(State()), e).value
      ensures old(Valid()) ==> Valid()
      ensures srcFormat == old(srcFormat) && sinkInfo == old(sinkInfo) && alphaInfo == old(alphaInfo)
    {
      match e {
        case FlushStart =>
          Unlock();
        case SinkFlushStop =>
          UnlockStop();
        case AlphaFlushStop =>
          UnlockStop();
          Reset();
      }
    }

    /** gst_alpha_combine_change_state: READY to PAUSED releases the initial flushing
        count; PAUSED to READY unlocks, resets the hand-off and forgets the negotiated
        format and both video infos. */
    method ChangeState(transition: StateChange)
      requires transition.ReadyToPausedChange? ==> flushing > 0
      modifies this
      ensures transition.ReadyToPausedChange? ==>
        && State() == OnFlushEvent(old(State()), ReadyToPaused).value
        && srcFormat == old(srcFormat) && sinkInfo == old(sinkInfo) && alphaInfo == old(alphaInfo)
      ensures transition.PausedToReadyChange? ==>
        && State() == OnFlushEvent(old(State()), PausedToReady).value
        && srcFormat == Unknown && sinkInfo == EmptyInfo && alphaInfo == EmptyInfo
      ensures transition.OtherChange? ==>
        State() == old(State()) && srcFormat == old(srcFormat) && sinkInfo == old(sinkInfo) && alphaInfo == old(alphaInfo)
      ensures old(Valid()) ==> Valid()
    {
      match transition {
        case ReadyToPausedChange =>
          UnlockStop();
        case PausedToReadyChange =>
          Unlock();
          Reset();
          srcFormat := Unknown;
          sinkInfo := EmptyInfo;
          alphaInfo := EmptyInfo;
        case OtherChange =>
      }
    }

    /** gst_alpha_combine_sink_chain once the slot is full or the element is flushing.
        srcMeta is the copied colour buffer's video meta (the one it has, or the one
        added for the sink info), copySize its size, alphaPlane where the alpha luma
        was found (None when no memory holds it), and pushRet what the source pad's
        push returns. When peeking fails, or the alpha plane is missing (ERROR), the
        slot is left full. Otherwise the combined buffer is pushed, the alpha buffer
        used becomes the last one, and the slot is popped with the push's result. */
    method SinkChain(srcMeta: VideoMeta, copySize: nat, alphaPlane: Option<AlphaPlane>, pushRet: FlowReturn)
      returns (ret: FlowReturn, out: Option<VideoMeta>)
      requires Valid()
      requires alphaBuffer.Some? || flushing > 0
      requires |srcMeta.offset| == MaxPlanes && |srcMeta.stride| == MaxPlanes
      modifies this
      ensures Valid()
      ensures old(flushing) == 0 ==> srcFormat == Negotiated(old(srcFormat), sinkInfo, alphaInfo)
      ensures old(flushing) > 0 ==> srcFormat == old(srcFormat)
      ensures sinkInfo == old(sinkInfo) && alphaInfo == old(alphaInfo)
      ensures var (peekRet, used) := Peeked(old(State()), srcFormat != Unknown);
        && (peekRet != Ok ==> ret == peekRet && out.None? && State() == old(State()))
        && (peekRet == Ok && alphaPlane.None? ==> ret == Error && out.None? && State() == old(State()))
        && (peekRet == Ok && alphaPlane.Some? ==>
              && ret == pushRet
              && out == Some(CombinedMeta(srcMeta, copySize, alphaPlane.value))
              && State() == Popped(old(State()).(lastAlphaBuffer := used), pushRet))
    {
      ghost var h := State();
      var used;
      ret, used := PeekAlphaBuffer();
      PeekedYieldsData(h, srcFormat != Unknown);
      if ret != Ok {
        return ret, None;
      }
      if alphaPlane.None? {
        return Error, None;
      }
      out := Some(CombinedMeta(srcMeta, copySize, alphaPlane.value));
      lastAlphaBuffer := used;
      PopAlphaBuffer(pushRet);
      ret := pushRet;
    }
  }
}
