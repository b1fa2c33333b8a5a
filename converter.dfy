/** A live Direct3D 11 converter (GstD3D11Converter in
    sys/d3d11/gstd3d11converter.cpp): its construction checks, the colour transform
    and viewports it starts with, and the geometry state that the update calls and
    convert_unlocked change.

    Direct3D work (shader and buffer creation, Map, the draw calls) is not modelled;
    each of its outcomes is a boolean parameter, and a draw is recorded as the
    arguments convert_unlocked passes to it. */
module D3D11Converter {
  import opened Wrappers
  import opened Video
  import opened ColorMatrix
  import opened ConvertPlan

  /** RECT. */
  datatype Rect = Rect(left: int, top: int, right: int, bottom: int)

  /** D3D11_VIEWPORT. */
  datatype Viewport = Viewport(topLeftX: real, topLeftY: real, width: real, height: real,
                               minDepth: real, maxDepth: real)

  /** A zero-filled viewport, as g_new0 leaves one. */
  const ZeroViewport := Viewport(0.0, 0.0, 0.0, 0.0, 0.0, 0.0)

  /** VertexData: clip-space position (x, y, z) and texture coordinate (u, v). */
  datatype Vertex = Vertex(x: real, y: real, z: real, u: real, v: real)

  /** The arguments of one gst_d3d11_draw_quad_unlocked call: the quad, the range of
      viewports, the range of render-target views and the number of shader-resource
      views. Counts are guint in the source; they are ints here so that a zero-view
      draw shows as 0. */
  datatype DrawCall = DrawCall(quad: nat, firstViewport: nat, numViewports: int,
                               firstTarget: nat, numTargets: int, numInputs: nat)

  /** The vertex buffer written by gst_d3d11_color_convert_setup_shader: the whole
      clip space, sampling the whole texture, corners in the order bottom-left,
      top-left, top-right, bottom-right. */
  const UnitQuad: seq<Vertex> := [
    Vertex(-1.0, -1.0, 0.0, 0.0, 1.0),
    Vertex(-1.0, 1.0, 0.0, 0.0, 0.0),
    Vertex(1.0, 1.0, 0.0, 1.0, 0.0),
    Vertex(1.0, -1.0, 0.0, 1.0, 1.0)]

  /** The vertices gst_d3d11_converter_update_vertex_buffer writes: dest is mapped to
      clip space over the output frame, src to texture space over the input texture,
      shifted by half a texel toward the origin on both axes. */
  function QuadVertices(src: Rect, dest: Rect, texWidth: int, texHeight: int,
                        outWidth: int, outHeight: int): (r: seq<Vertex>)
    requires texWidth > 0 && texHeight > 0 && outWidth > 0 && outHeight > 0
    ensures |r| == 4
    ensures r[0].x == r[1].x && r[2].x == r[3].x && r[0].y == r[3].y && r[1].y == r[2].y
    ensures r[0].u == r[1].u && r[2].u == r[3].u && r[0].v == r[3].v && r[1].v == r[2].v
    ensures (r[0].x + 1.0) * (outWidth as real) == 2.0 * (dest.left as real)
    ensures (r[2].x + 1.0) * (outWidth as real) == 2.0 * (dest.right as real)
    ensures (1.0 - r[0].y) * (outHeight as real) == 2.0 * (dest.bottom as real)
    ensures (1.0 - r[2].y) * (outHeight as real) == 2.0 * (dest.top as real)
    ensures r[0].u * (texWidth as real) + 0.5 == src.left as real
    ensures r[2].u * (texWidth as real) + 0.5 == src.right as real
    ensures r[0].v * (texHeight as real) + 0.5 == src.bottom as real
    ensures r[2].v * (texHeight as real) + 0.5 == src.top as real
    ensures forall k :: 0 <= k < 4 ==> r[k].z == 0.0
  {
    var tw, th := texWidth as real, texHeight as real;
    var x1 := (dest.left as real / outWidth as real) * 2.0 - 1.0;
    var y1 := (dest.bottom as real / outHeight as real) * -2.0 + 1.0;
    var x2 := (dest.right as real / outWidth as real) * 2.0 - 1.0;
    var y2 := (dest.top as real / outHeight as real) * -2.0 + 1.0;
    var uLeft := src.left as real / tw - 0.5 / tw;
    var uRight := src.right as real / tw - 0.5 / tw;
    var vBottom := src.bottom as real / th - 0.5 / th;
    var vTop := src.top as real / th - 0.5 / th;
    [Vertex(x1, y1, 0.0, uLeft, vBottom),
     Vertex(x1, y2, 0.0, uLeft, vTop),
     Vertex(x2, y2, 0.0, uRight, vTop),
     Vertex(x2, y1, 0.0, uRight, vBottom)]
  }

  /** The full-frame rectangle of a video info. */
  function FullFrame(info: VideoInfo): Rect {
    Rect(0, 0, info.width, info.height)
  }

  /** The vertex buffer a new converter holds covers the same clip-space quad as the
      one the first rebuild computes from the initial rectangles; its texture
      coordinates are the rebuilt ones shifted by half a texel away from the origin on
      both axes, since a rebuild shifts the sampled rectangle by half a texel toward it. */
  lemma InitialQuadMatchesFullFrame(inInfo: VideoInfo, outInfo: VideoInfo)
    requires ValidInfo(inInfo) && ValidInfo(outInfo)
    ensures var q := QuadVertices(FullFrame(inInfo), FullFrame(outInfo), inInfo.width, inInfo.height,
                                  outInfo.width, outInfo.height);
      forall k :: 0 <= k < 4 ==>
        && q[k].x == UnitQuad[k].x && q[k].y == UnitQuad[k].y && q[k].z == UnitQuad[k].z
        && (UnitQuad[k].u - q[k].u) * (inInfo.width as real) == 0.5
        && (UnitQuad[k].v - q[k].v) * (inInfo.height as real) == 0.5
  {
    var q := QuadVertices(FullFrame(inInfo), FullFrame(outInfo), inInfo.width, inInfo.height,
                          outInfo.width, outInfo.height);
    var w, h := inInfo.width as real, inInfo.height as real;
    assert q[0].u * w == -0.5 && q[2].u * w == w - 0.5;
    assert q[0].v * h == h - 0.5 && q[2].v * h == -0.5;
    assert (0.0 - q[0].u) * w == 0.5;
    assert (1.0 - q[2].u) * w == 0.5 by {
      assert (1.0 - q[2].u) * w == w - q[2].u * w;
    }
    assert (1.0 - q[0].v) * h == 0.5 by {
      assert (1.0 - q[0].v) * h == h - q[0].v * h;
    }
    assert (0.0 - q[2].v) * h == 0.5;
  }

  /** The draws convert_unlocked issues for a plan: quad 0 into viewport 0 and render
      target 0; then, when there is a second quad, quad 1 into viewports and render
      targets 1 .. numOutputView - 1. Every draw reads all input views. */
  function DrawPlan(p: Plan, numInputView: nat, numOutputView: nat): (r: seq<DrawCall>)
    requires ValidPlan(p)
    ensures |r| == |p.stages|
    ensures forall k :: 0 <= k < |r| ==> r[k].quad == k && r[k].numInputs == numInputView
    ensures forall k :: 0 <= k < |r| ==> r[k].firstViewport == r[k].firstTarget && r[k].numViewports == r[k].numTargets
    ensures r[0].firstTarget == 0 && r[0].numTargets == 1
    ensures |r| == 2 ==>
      r[1].firstTarget == r[0].firstTarget + r[0].numTargets && r[1].firstTarget + r[1].numTargets == numOutputView
  {
    [DrawCall(0, 0, 1, 0, 1, numInputView)]
    + if |p.stages| == 2 then [DrawCall(1, 1, numOutputView - 1, 1, numOutputView - 1, numInputView)] else []
  }

  /** With two quads, each draw binds exactly as many render targets as its shader
      body writes if and only if the output has as many views as the plan's bodies
      write in total. */
  lemma {:induction false} DrawTargetsMatchBodies(p: Plan, numInputView: nat, numOutputView: nat)
    requires ValidPlan(p) && |p.stages| == 2
    ensures (forall k :: 0 <= k < 2 ==> DrawPlan(p, numInputView, numOutputView)[k].numTargets == p.stages[k].targets)
        <==> numOutputView == TotalTargets(p)
  {
    var r := DrawPlan(p, numInputView, numOutputView);
    assert r[1].numTargets == numOutputView - 1;
    if numOutputView == TotalTargets(p) {
      assert forall k :: 0 <= k < 2 ==> r[k].numTargets == p.stages[k].targets by {
        assert r[0].numTargets == p.stages[0].targets;
      }
    }
  }

  /** For every supported pair whose output is RGB, VUYA, planar or semi-planar, the
      render targets are split between the quads exactly as their bodies declare and
      together cover every output plane once. */
  lemma {:induction false} DrawsCoverOutputPlanes(device: Device, alpha: real, inInfo: VideoInfo, outInfo: VideoInfo)
    requires ValidInfo(outInfo)
    requires inInfo.format in device
    requires Classify(device, alpha, inInfo.format, outInfo.format).Some?
    requires TargetsMatchPlanes(outInfo.format)
    ensures var p := Classify(device, alpha, inInfo.format, outInfo.format).value;
      var draws := DrawPlan(p, inInfo.nPlanes, outInfo.nPlanes);
      && (forall k :: 0 <= k < |draws| ==> draws[k].numTargets == p.stages[k].targets)
      && draws[|draws| - 1].firstTarget + draws[|draws| - 1].numTargets == outInfo.nPlanes
  {
    var p := Classify(device, alpha, inInfo.format, outInfo.format).value;
    TargetsCoverOutputPlanes(device, alpha, inInfo.format, outInfo.format);
    if |p.stages| == 2 {
      DrawTargetsMatchBodies(p, inInfo.nPlanes, outInfo.nPlanes);
    }
  }

  /** The chroma viewport of a subsampled output: origin and size halved, depth
      range kept from the previous chroma viewport. */
  function HalfViewport(vp: Viewport, previous: Viewport): (r: Viewport)
    ensures 2.0 * r.topLeftX == vp.topLeftX && 2.0 * r.topLeftY == vp.topLeftY
    ensures 2.0 * r.width == vp.width && 2.0 * r.height == vp.height
    ensures r.minDepth == previous.minDepth && r.maxDepth == previous.maxDepth
  {
    previous.(topLeftX := vp.topLeftX / 2.0, topLeftY := vp.topLeftY / 2.0,
              width := vp.width / 2.0, height := vp.height / 2.0)
  }

  /** The output formats whose chroma planes are half the luma plane's size. */
  predicate IsSubsampled(f: VideoFormat) {
    IsPlanarYuv(f) || IsSemiPlanarYuv(f)
  }

  /** The trans_matrix of a converter whose transform is not needed (g_new0). */
  const ZeroTransform: seq<real> := seq(12, _ => 0.0)

  /** The trans_matrix gst_d3d11_converter_new_internal fills in: the packed
      conversion matrix when the colour matrices differ, zeros otherwise. */
  method ComputeTransform(inInfo: VideoInfo, outInfo: VideoInfo) returns (t: seq<real>)
    requires ValidInfo(inInfo) && ValidInfo(outInfo)
    ensures |t| == 12
    ensures inInfo.colorimetry.matrix != outInfo.colorimetry.matrix ==>
              t == PackTransform(ConversionMatrix(inInfo, outInfo))
    ensures inInfo.colorimetry.matrix == outInfo.colorimetry.matrix ==> t == ZeroTransform
  {
    var matrix := new real[4, 4];
    var needed := GetMatrix(matrix, inInfo, outInfo);
    t := if needed then PackTransform(Contents(matrix)) else ZeroTransform;
  }

  /** The viewports gst_d3d11_converter_new_internal sets up: one per output plane,
      covering that plane's component size with depth range [0, 1]; the rest stay
      zero-filled. */
  method InitialViewports(outInfo: VideoInfo) returns (vps: array<Viewport>)
    requires ValidInfo(outInfo)
    ensures fresh(vps) && vps.Length == MaxPlanes
    ensures forall i :: 0 <= i < outInfo.nPlanes ==>
              vps[i] == Viewport(0.0, 0.0, outInfo.compWidth[i] as real, outInfo.compHeight[i] as real, 0.0, 1.0)
    ensures forall i :: outInfo.nPlanes <= i < MaxPlanes ==> vps[i] == ZeroViewport
  {
    vps := new Viewport[MaxPlanes](_ => ZeroViewport);
    for i := 0 to outInfo.nPlanes
      invariant forall j :: 0 <= j < i ==>
        vps[j] == Viewport(0.0, 0.0, outInfo.compWidth[j] as real, outInfo.compHeight[j] as real, 0.0, 1.0)
      invariant forall j :: outInfo.nPlanes <= j < MaxPlanes ==> vps[j] == ZeroViewport
    {
      vps[i] := Viewport(0.0, 0.0, outInfo.compWidth[i] as real, outInfo.compHeight[i] as real, 0.0, 1.0);
    }
  }

  class Converter {
    const inInfo: VideoInfo
    const outInfo: VideoInfo
    const alpha: real
    const plan: Plan
    /** convert_info.transform.trans_matrix. */
    const transform: seq<real>
    const numInputView: nat
    const numOutputView: nat
    /** viewport[GST_VIDEO_MAX_PLANES]. */
    const viewport: array<Viewport>

    var srcRect: Rect
    var destRect: Rect
    var inputTextureWidth: int
    var inputTextureHeight: int
    /** Set when a rectangle changed and the vertex buffer is stale. */
    var updateVertex: bool
    /** The contents of the vertex buffer. */
    var vertices: seq<Vertex>

    ghost predicate Valid()
      reads this
    {
      && ValidInfo(inInfo) && ValidInfo(outInfo)
      && ValidPlan(plan)
      && viewport.Length == MaxPlanes
      && numInputView == inInfo.nPlanes
      && numOutputView == outInfo.nPlanes
      && |transform| == 12
      && |vertices| == 4
    }

    /** The state gst_d3d11_converter_new_internal leaves a converter in once its
        checks have passed and the shader resources have been made: the colour
        transform, the viewports, the rectangles and the vertex buffer it starts with. */
    ghost predicate StartsAs(device: Device, inInfo: VideoInfo, outInfo: VideoInfo, alpha: real)
      reads this, viewport
    {
      && ValidInfo(inInfo) && ValidInfo(outInfo)
      && Prepare(device, alpha, inInfo.format, outInfo.format).Success?
      && this.inInfo == inInfo && this.outInfo == outInfo && this.alpha == alpha
      && plan == Prepare(device, alpha, inInfo.format, outInfo.format).value
      && (inInfo.colorimetry.matrix != outInfo.colorimetry.matrix ==>
            transform == PackTransform(ConversionMatrix(inInfo, outInfo)))
      && (inInfo.colorimetry.matrix == outInfo.colorimetry.matrix ==> transform == ZeroTransform)
      && viewport.Length == MaxPlanes
      && (forall i :: 0 <= i < outInfo.nPlanes ==>
            viewport[i] == Viewport(0.0, 0.0, outInfo.compWidth[i] as real, outInfo.compHeight[i] as real, 0.0, 1.0))
      && (forall i :: outInfo.nPlanes <= i < MaxPlanes ==> viewport[i] == ZeroViewport)
      && srcRect == FullFrame(inInfo) && destRect == FullFrame(outInfo)
      && inputTextureWidth == inInfo.width && inputTextureHeight == inInfo.height
      && !updateVertex && vertices == UnitQuad
    }

    /** gst_d3d11_converter_new_internal once its checks have passed and the shader
        resources have been made. */
    constructor (device: Device, inInfo: VideoInfo, outInfo: VideoInfo, alpha: real)
      requires ValidInfo(inInfo) && ValidInfo(outInfo)
      requires Prepare(device, alpha, inInfo.format, outInfo.format).Success?
      ensures Valid() && fresh(viewport)
      ensures StartsAs(device, inInfo, outInfo, alpha)
    {
      var t := ComputeTransform(inInfo, outInfo);
      var vps := InitialViewports(outInfo);
      this.inInfo := inInfo;
      this.outInfo := outInfo;
      this.alpha := alpha;
      plan := Prepare(device, alpha, inInfo.format, outInfo.format).value;
      transform := t;
      numInputView := inInfo.nPlanes;
      numOutputView := outInfo.nPlanes;
      viewport := vps;
      srcRect := FullFrame(inInfo);
      destRect := FullFrame(outInfo);
      inputTextureWidth := inInfo.width;
      inputTextureHeight := inInfo.height;
      updateVertex := false;
      vertices := UnitQuad;
    }

    /** gst_d3d11_converter_new_with_alpha: alpha outside [0, 1] is refused first; then
        the device must know the input format, then the output format, and the pair
        must be supported; last, making the shader resources (shaderOk) must succeed. */
    static method NewWithAlpha(device: Device, inInfo: VideoInfo, outInfo: VideoInfo, alpha: real, shaderOk: bool)
      returns (c: Converter?, err: Option<CreateError>)
      requires ValidInfo(inInfo) && ValidInfo(outInfo)
      ensures c == null <==> err.Some?
      ensures alpha < 0.0 || alpha > 1.0 ==> err == Some(InvalidAlpha)
      ensures 0.0 <= alpha <= 1.0 && Prepare(device, alpha, inInfo.format, outInfo.format).Failure? ==>
                err == Some(Prepare(device, alpha, inInfo.format, outInfo.format).error)
      ensures 0.0 <= alpha <= 1.0 && Prepare(device, alpha, inInfo.format, outInfo.format).Success? ==>
                err == (if shaderOk then None else Some(SetupFailed))
      ensures c != null ==> fresh(c) && c.Valid() && c.StartsAs(device, inInfo, outInfo, alpha)
    {
      if alpha < 0.0 || alpha > 1.0 {
        return null, Some(InvalidAlpha);
      }
      var prepared := Prepare(device, alpha, inInfo.format, outInfo.format);
      if prepared.Failure? {
        return null, Some(prepared.error);
      }
      if !shaderOk {
        return null, Some(SetupFailed);
      }
      c := new Converter(device, inInfo, outInfo, alpha);
      err := None;
    }

    /** gst_d3d11_converter_new: the same with an opaque alpha of 1. */
    static method New(device: Device, inInfo: VideoInfo, outInfo: VideoInfo, shaderOk: bool)
      returns (c: Converter?, err: Option<CreateError>)
      requires ValidInfo(inInfo) && ValidInfo(outInfo)
      ensures c == null <==> err.Some?
      ensures Prepare(device, 1.0, inInfo.format, outInfo.format).Failure? ==>
                err == Some(Prepare(device, 1.0, inInfo.format, outInfo.format).error)
      ensures Prepare(device, 1.0, inInfo.format, outInfo.format).Success? ==>
                err == (if shaderOk then None else Some(SetupFailed))
      ensures c != null ==> fresh(c) && c.Valid() && c.StartsAs(device, inInfo, outInfo, 1.0)
    {
      c, err := NewWithAlpha(device, inInfo, outInfo, 1.0, shaderOk);
    }

    /** gst_d3d11_converter_update_src_rect: a rectangle that differs in any field
        replaces the old one and marks the vertex buffer stale; an equal one changes
        nothing. */
    method UpdateSrcRect(rect: Rect) returns (ok: bool)
      modifies this
      ensures ok
      ensures srcRect == rect
      ensures updateVertex == (old(updateVertex) || old(srcRect) != rect)
      ensures destRect == old(destRect) && vertices == old(vertices)
      ensures inputTextureWidth == old(inputTextureWidth) && inputTextureHeight == old(inputTextureHeight)
    {
      if srcRect.left != rect.left || srcRect.top != rect.top
        || srcRect.right != rect.right || srcRect.bottom != rect.bottom
      {
        srcRect := rect;
        updateVertex := true;
      }
      return true;
    }

    /** gst_d3d11_converter_update_dest_rect: as UpdateSrcRect, for the destination. */
    method UpdateDestRect(rect: Rect) returns (ok: bool)
      modifies this
      ensures ok
      ensures destRect == rect
      ensures updateVertex == (old(updateVertex) || old(destRect) != rect)
      ensures srcRect == old(srcRect) && vertices == old(vertices)
      ensures inputTextureWidth == old(inputTextureWidth) && inputTextureHeight == old(inputTextureHeight)
    {
      if destRect.left != rect.left || destRect.top != rect.top
        || destRect.right != rect.right || destRect.bottom != rect.bottom
      {
        destRect := rect;
        updateVertex := true;
      }
      return true;
    }

    /** gst_d3d11_converter_update_viewport: viewport 0 becomes vp; for a subsampled
        output every chroma viewport becomes vp halved. Any other output with more
        than one view is unreachable in the source. The vertex buffer is not marked
        stale. */
    method UpdateViewport(vp: Viewport) returns (ok: bool)
      requires Valid()
      requires IsSubsampled(outInfo.format) || numOutputView <= 1
      modifies viewport
      ensures ok
      ensures viewport[0] == vp
      ensures IsSubsampled(outInfo.format) ==>
                && viewport[1] == HalfViewport(vp, old(viewport[1]))
                && (forall i :: 2 <= i < numOutputView ==> viewport[i] == viewport[1])
                && (forall i :: numOutputView <= i < MaxPlanes ==> viewport[i] == old(viewport[i]))
      ensures !IsSubsampled(outInfo.format) ==> forall i :: 1 <= i < MaxPlanes ==> viewport[i] == old(viewport[i])
    {
      viewport[0] := vp;
      if IsSubsampled(outInfo.format) {
        viewport[1] := HalfViewport(viewport[0], viewport[1]);
        for i := 2 to numOutputView
          invariant viewport[0] == vp && viewport[1] == HalfViewport(vp, old(viewport[1]))
          invariant forall j :: 2 <= j < i ==> viewport[j] == viewport[1]
          invariant forall j :: i <= j < MaxPlanes ==> viewport[j] == old(viewport[j])
        {
          viewport[i] := viewport[1];
        }
      }
      return true;
    }

    /** gst_d3d11_converter_update_vertex_buffer: when mapping the buffer succeeds
        (mapOk), writes the quad for the current rectangles and texture size and
        clears the stale mark; otherwise changes nothing. */
    method UpdateVertexBuffer(mapOk: bool) returns (ok: bool)
      requires Valid()
      requires inputTextureWidth > 0 && inputTextureHeight > 0
      modifies this
      ensures Valid()
      ensures inputTextureWidth == old(inputTextureWidth) && inputTextureHeight == old(inputTextureHeight)
      ensures ok == mapOk
      ensures ok ==> && vertices == QuadVertices(srcRect, destRect, inputTextureWidth, inputTextureHeight,
                                                 outInfo.width, outInfo.height)
                     && !updateVertex
      ensures !ok ==> vertices == old(vertices) && updateVertex == old(updateVertex)
      ensures srcRect == old(srcRect) && destRect == old(destRect)
    {
      if !mapOk {
        return false;
      }
      vertices := QuadVertices(srcRect, destRect, inputTextureWidth, inputTextureHeight,
                               outInfo.width, outInfo.height);
      updateVertex := false;
      return true;
    }

    /** gst_d3d11_converter_convert_unlocked for an input texture of the given size.
        The vertex buffer is rebuilt when it is stale or the texture size differs
        from the cached one; the cached size is overwritten before the rebuild, so
        it stays overwritten when the rebuild fails. Then quad 0 is drawn, and quad 1
        when the plan has one; the first failure ends the call. */
    method ConvertUnlocked(texWidth: int, texHeight: int, mapOk: bool, draw0Ok: bool, draw1Ok: bool)
      returns (ok: bool, rebuilt: bool, draws: seq<DrawCall>)
      requires Valid()
      requires texWidth > 0 && texHeight > 0
      modifies this
      ensures Valid()
      ensures rebuilt == (old(updateVertex) || texWidth != old(inputTextureWidth) || texHeight != old(inputTextureHeight))
      ensures rebuilt ==> inputTextureWidth == texWidth && inputTextureHeight == texHeight
      ensures !rebuilt ==> inputTextureWidth == old(inputTextureWidth) && inputTextureHeight == old(inputTextureHeight)
      ensures rebuilt && mapOk ==>
                && vertices == QuadVertices(srcRect, destRect, texWidth, texHeight, outInfo.width, outInfo.height)
                && !updateVertex
      ensures !(rebuilt && mapOk) ==> vertices == old(vertices) && updateVertex == old(updateVertex)
      ensures srcRect == old(srcRect) && destRect == old(destRect)
      ensures var all := DrawPlan(plan, numInputView, numOutputView);
        draws == if rebuilt && !mapOk then []
                 else if !draw0Ok || |all| == 1 then all[..1]
                 else all
      ensures ok == ((!rebuilt || mapOk) && draw0Ok && (|plan.stages| == 1 || draw1Ok))
    ensures RebuildState(updateVertex, inputTextureWidth, inputTextureHeight)
         == AfterConvert(RebuildState(old(updateVertex), old(inputTextureWidth), old(inputTextureHeight)),
                         texWidth, texHeight, mapOk)
    {
      var all := DrawPlan(plan, numInputView, numOutputView);
      rebuilt := updateVertex || texWidth != inputTextureWidth || texHeight != inputTextureHeight;
      if rebuilt {
        inputTextureWidth := texWidth;
        inputTextureHeight := texHeight;
        var updated := UpdateVertexBuffer(mapOk);
        if !updated {
          return false, rebuilt, [];
        }
      }
      draws := [DrawCall(0, 0, 1, 0, 1, numInputView)];
      if !draw0Ok {
        return false, rebuilt, draws;
      }
      if |plan.stages| == 2 {
        draws := draws + [DrawCall(1, 1, numOutputView - 1, 1, numOutputView - 1, numInputView)];
        if !draw1Ok {
          return false, rebuilt, draws;
        }
      }
      ok := true;
    }
  }

  /** The state of the rebuild decision: the stale mark and the cached texture size. */
  datatype RebuildState = RebuildState(updateVertex: bool, cachedWidth: int, cachedHeight: int)

  /** Whether convert_unlocked rebuilds the vertex buffer for a texture of this size. */
  predicate NeedsRebuild(s: RebuildState, texWidth: int, texHeight: int) {
    s.updateVertex || texWidth != s.cachedWidth || texHeight != s.cachedHeight
  }

  /** The rebuild state convert_unlocked leaves, given whether mapping succeeded. */
  function AfterConvert(s: RebuildState, texWidth: int, texHeight: int, mapOk: bool): (r: RebuildState)
    ensures NeedsRebuild(s, texWidth, texHeight) ==> r.cachedWidth == texWidth && r.cachedHeight == texHeight
    ensures !NeedsRebuild(s, texWidth, texHeight) ==> r == s
    ensures r.updateVertex == (s.updateVertex && !mapOk)
  {
    if NeedsRebuild(s, texWidth, texHeight) then
      RebuildState(s.updateVertex && !mapOk, texWidth, texHeight)
    else s
  }

  /** A rebuild is retried on the next call with the same texture only when the
      rectangles had changed: a rebuild caused by a texture-size change alone that
      fails to map is not retried, since the cached size was already updated. */
  lemma {:induction false} FailedRebuildRetried(s: RebuildState, texWidth: int, texHeight: int)
    requires NeedsRebuild(s, texWidth, texHeight)
    ensures NeedsRebuild(AfterConvert(s, texWidth, texHeight, false), texWidth, texHeight) <==> s.updateVertex
    ensures !NeedsRebuild(AfterConvert(s, texWidth, texHeight, true), texWidth, texHeight)
  {
  }
}
