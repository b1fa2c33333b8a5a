/** How the Direct3D 11 converter classifies a format pair into a conversion plan
    (the setup_convert_info_* routines and the dispatch of
    gst_d3d11_converter_new_internal in sys/d3d11/gstd3d11converter.cpp).

    A plan names the pixel-shader template, and for each of at most two quads the
    shader body (a kind with the values the HLSL template is printed with) and the
    number of render targets that body writes. */
module ConvertPlan {
  import opened Wrappers
  import opened Video

  /** CONVERTER_MAX_QUADS. */
  const MaxQuads: nat := 2

  /** templ_REORDER, templ_YUV_to_RGB and templ_RGB_to_YUV. */
  datatype Template = Reorder | YuvToRgb | RgbToYuv

  /** Only the two colour-space templates declare the trans_matrix constant buffer. */
  predicate HasColorTransform(t: Template) {
    t != Reorder
  }

  /** A component selector of an HLSL swizzle. */
  datatype Channel = X | Y | Z | A | R | G | B

  /** The vector lane a selector reads: x and r are lane 0, y and g 1, z and b 2, a 3. */
  function Lane(c: Channel): nat {
    match c
    case X | R => 0
    case Y | G => 1
    case Z | B => 2
    case A => 3
  }

  /** Where the Y, U and V samples of a packed format sit in its texel. */
  datatype Swizzle = Swizzle(y: Channel, u: Channel, v: Channel)

  /** resource_format[0] of a device format. */
  datatype DxgiFormat = R8G8B8A8_UNORM | G8R8_G8B8_UNORM | OtherDxgi(id: nat)

  /** gst_d3d11_device_format_from_gst: the formats the device can hold, with the
      texture format of their first resource. */
  type Device = map<VideoFormat, DxgiFormat>

  /** get_packed_yuv_components: the swizzle of a packed format. The layout of YUY2
      depends on the texture format the device stores it in; an unexpected one, or a
      format that is not packed, is a failure. */
  function PackedComponents(device: Device, f: VideoFormat): (r: Option<Swizzle>)
    requires f.YUY2? ==> f in device
    ensures r.Some? <==> IsPackedYuv(f) && (f.YUY2? ==> device[f] == R8G8B8A8_UNORM || device[f] == G8R8_G8B8_UNORM)
    ensures r.Some? ==> Lane(r.value.y) != Lane(r.value.u) && Lane(r.value.y) != Lane(r.value.v)
                        && Lane(r.value.u) != Lane(r.value.v)
    ensures r.Some? ==> Lane(r.value.y) <= 1
  {
    match f
    case YUY2 =>
      if device[f] == R8G8B8A8_UNORM then Some(Swizzle(X, Y, A))
      else if device[f] == G8R8_G8B8_UNORM then Some(Swizzle(Y, X, Z))
      else None
    case UYVY => Some(Swizzle(Y, X, Z))
    case VYUY => Some(Swizzle(Y, Z, X))
    case Y210 => Some(Swizzle(R, G, A))
    case Y410 => Some(Swizzle(G, R, B))
    case _ => None
  }

  /** The pixel-shader bodies, with the values their templates are printed with:
      `mul` rescales 10-bit-in-16 samples on input, `div` on output (1 or 64). */
  datatype Body =
    | ReorderBody(alpha: real)
    | VuyaToRgbBody
    | PackedYuvToRgbBody(sw: Swizzle)
    | PlanarYuvToRgbBody(mul: nat)
    | SemiPlanarToRgbBody
    | RgbToVuyaBody
    | RgbToLumaBody(div: nat)
    | RgbToSemiPlanarChromaBody
    | RgbToPlanarChromaBody(div: nat)
    | LumaToLumaBody(mul: nat, div: nat)
    | PlanarToPlanarChromaBody(mul: nat, div: nat)
    | PlanarToSemiPlanarChromaBody(mul: nat)
    | SemiPlanarToPlanarChromaBody(div: nat)
    | SemiPlanarToSemiPlanarChromaBody
    | VuyaToLumaBody(div: nat)
    | VuyaToPlanarChromaBody(div: nat)
    | VuyaToSemiPlanarChromaBody
    | PlanarToVuyaBody(mul: nat)
    | PackedYuvToVuyaBody(sw: Swizzle)
    | SemiPlanarToVuyaBody
    | PackedYuvToLumaBody(y: Channel, div: nat)
    | PackedYuvToPlanarChromaBody(u: Channel, v: Channel, div: nat)
    | PackedYuvToSemiPlanarChromaBody(u: Channel, v: Channel)

  /** The input rescale factor a body applies (1 when it has none). */
  function InFactor(b: Body): nat {
    match b
    case PlanarYuvToRgbBody(mul) => mul
    case LumaToLumaBody(mul, _) => mul
    case PlanarToPlanarChromaBody(mul, _) => mul
    case PlanarToSemiPlanarChromaBody(mul) => mul
    case PlanarToVuyaBody(mul) => mul
    case _ => 1
  }

  /** The output rescale factor a body applies (1 when it has none). */
  function OutFactor(b: Body): nat {
    match b
    case RgbToLumaBody(div) => div
    case RgbToPlanarChromaBody(div) => div
    case LumaToLumaBody(_, div) => div
    case PlanarToPlanarChromaBody(_, div) => div
    case SemiPlanarToPlanarChromaBody(div) => div
    case VuyaToLumaBody(div) => div
    case VuyaToPlanarChromaBody(div) => div
    case PackedYuvToLumaBody(_, div) => div
    case PackedYuvToPlanarChromaBody(_, _, div) => div
    case _ => 1
  }

  /** Whether a body samples a packed-YUV texture through a swizzle that agrees with sw. */
  predicate SamplesPacked(b: Body, sw: Swizzle) {
    match b
    case PackedYuvToRgbBody(s) => s == sw
    case PackedYuvToVuyaBody(s) => s == sw
    case PackedYuvToLumaBody(y, _) => y == sw.y
    case PackedYuvToPlanarChromaBody(u, v, _) => u == sw.u && v == sw.v
    case PackedYuvToSemiPlanarChromaBody(u, v) => u == sw.u && v == sw.v
    case _ => false
  }

  /** Every quad of p samples its packed input through sw. */
  predicate SamplesThrough(p: Plan, sw: Swizzle) {
    forall s <- p.stages :: SamplesPacked(s.body, sw)
  }

  /** One quad: its body and how many render targets its output struct declares
      (HLSL_PS_OUTPUT_ONE_PLANE_BODY or HLSL_PS_OUTPUT_TWO_PLANES_BODY). */
  datatype Stage = Stage(body: Body, targets: nat)

  /** ConvertInfo without its strings and its colour transform. */
  datatype Plan = Plan(templ: Template, stages: seq<Stage>)

  predicate ValidPlan(p: Plan) {
    && 1 <= |p.stages| <= MaxQuads
    && p.stages[0].targets == 1
    && (|p.stages| == 2 ==> 1 <= p.stages[1].targets <= 2)
  }

  /** The number of render targets all quads of a plan write. */
  function TotalTargets(p: Plan): nat
    requires ValidPlan(p)
  {
    if |p.stages| == 1 then p.stages[0].targets else p.stages[0].targets + p.stages[1].targets
  }

  /** Every quad of p rescales its input by mul and its output by div. */
  predicate RescalesAs(p: Plan, mul: nat, div: nat) {
    forall s <- p.stages :: InFactor(s.body) == mul && OutFactor(s.body) == div
  }

  /** The rescale factor of a 10-bit planar format. */
  function TenBitFactor(f: VideoFormat): nat {
    if f == I420_10LE then 64 else 1
  }

  /** setup_convert_info_rgb_to_rgb: one reorder body that scales alpha. */
  function SetupRgbToRgb(alpha: real): (r: Plan)
    ensures ValidPlan(r) && r.templ == Reorder && TotalTargets(r) == 1
    ensures |r.stages| == 1 && r.stages[0].body.ReorderBody? && r.stages[0].body.alpha == alpha
  {
    Plan(Reorder, [Stage(ReorderBody(alpha), 1)])
  }

  /** setup_convert_info_yuv_to_rgb: one body that samples the input layout and
      applies the YUV -> RGB transform. */
  function SetupYuvToRgb(device: Device, inFormat: VideoFormat): (r: Option<Plan>)
    requires inFormat in device
    ensures r.Some? <==> inFormat.VUYA? || IsPlanarYuv(inFormat) || IsSemiPlanarYuv(inFormat)
                         || (IsPackedYuv(inFormat) && PackedComponents(device, inFormat).Some?)
    ensures r.Some? ==> ValidPlan(r.value) && r.value.templ == YuvToRgb && |r.value.stages| == 1
                        && TotalTargets(r.value) == 1
    ensures r.Some? ==> RescalesAs(r.value, TenBitFactor(inFormat), 1)
    ensures r.Some? && IsPackedYuv(inFormat) ==>
              SamplesPacked(r.value.stages[0].body, PackedComponents(device, inFormat).value)
  {
    var body: Option<Body> :=
      match inFormat
      case VUYA => Some(VuyaToRgbBody)
      case YUY2 | UYVY | VYUY | Y210 | Y410 =>
        (match PackedComponents(device, inFormat)
         case Some(sw) => Some(PackedYuvToRgbBody(sw))
         case None => None)
      case I420 => Some(PlanarYuvToRgbBody(1))
      case I420_10LE => Some(PlanarYuvToRgbBody(64))
      case NV12 | P010_10LE | P016_LE => Some(SemiPlanarToRgbBody)
      case _ => None;
    match body
    case Some(b) => Some(Plan(YuvToRgb, [Stage(b, 1)]))
    case None => None
  }

  /** setup_convert_info_rgb_to_yuv: one body for VUYA, otherwise a luma body and a
      chroma body that writes one interleaved plane or two separate ones. */
  function SetupRgbToYuv(outFormat: VideoFormat): (r: Option<Plan>)
    ensures r.Some? <==> outFormat.VUYA? || IsPlanarYuv(outFormat) || IsSemiPlanarYuv(outFormat)
    ensures r.Some? ==> ValidPlan(r.value) && r.value.templ == RgbToYuv
    ensures r.Some? ==> (|r.value.stages| == 1 <==> outFormat.VUYA?)
    ensures r.Some? && |r.value.stages| == 2 ==> (r.value.stages[1].targets == 2 <==> IsPlanarYuv(outFormat))
    ensures r.Some? ==> RescalesAs(r.value, 1, TenBitFactor(outFormat))
  {
    match outFormat
    case VUYA => Some(Plan(RgbToYuv, [Stage(RgbToVuyaBody, 1)]))
    case NV12 | P010_10LE | P016_LE =>
      Some(Plan(RgbToYuv, [Stage(RgbToLumaBody(1), 1), Stage(RgbToSemiPlanarChromaBody, 1)]))
    case I420 =>
      Some(Plan(RgbToYuv, [Stage(RgbToLumaBody(1), 1), Stage(RgbToPlanarChromaBody(1), 2)]))
    case I420_10LE =>
      Some(Plan(RgbToYuv, [Stage(RgbToLumaBody(64), 1), Stage(RgbToPlanarChromaBody(64), 2)]))
    case _ => None
  }

  // The fourteen YUV -> YUV routines; `mul` and `div` are TenBitFactor of the input
  // and of the output format.

  /** setup_convert_info_vuya_to_vuya. */
  function VuyaToVuya(alpha: real): (r: Plan)
    ensures RescalesAs(r, 1, 1)
  {
    Plan(Reorder, [Stage(ReorderBody(alpha), 1)])
  }

  /** setup_convert_info_vuya_to_planar. */
  function VuyaToPlanar(div: nat): (r: Plan)
    ensures RescalesAs(r, 1, div)
  {
    Plan(Reorder, [Stage(VuyaToLumaBody(div), 1), Stage(VuyaToPlanarChromaBody(div), 2)])
  }

  /** setup_convert_info_vuya_to_semi_planar. */
  function VuyaToSemiPlanar(): (r: Plan)
    ensures RescalesAs(r, 1, 1)
  {
    Plan(Reorder, [Stage(VuyaToLumaBody(1), 1), Stage(VuyaToSemiPlanarChromaBody, 1)])
  }

  /** setup_convert_info_planar_to_vuya. */
  function PlanarToVuya(mul: nat): (r: Plan)
    ensures RescalesAs(r, mul, 1)
  {
    Plan(Reorder, [Stage(PlanarToVuyaBody(mul), 1)])
  }

  /** setup_convert_info_packed_yuv_to_vuya. */
  function PackedToVuya(sw: Swizzle): (r: Plan)
    ensures RescalesAs(r, 1, 1) && SamplesThrough(r, sw)
  {
    Plan(Reorder, [Stage(PackedYuvToVuyaBody(sw), 1)])
  }

  /** setup_convert_info_semi_planar_to_vuya. */
  function SemiPlanarToVuya(): (r: Plan)
    ensures RescalesAs(r, 1, 1)
  {
    Plan(Reorder, [Stage(SemiPlanarToVuyaBody, 1)])
  }

  /** setup_convert_info_planar_to_planar. */
  function PlanarToPlanar(mul: nat, div: nat): (r: Plan)
    ensures RescalesAs(r, mul, div)
  {
    Plan(Reorder, [Stage(LumaToLumaBody(mul, div), 1), Stage(PlanarToPlanarChromaBody(mul, div), 2)])
  }

  /** setup_convert_info_planar_to_semi_planar. */
  function PlanarToSemiPlanar(mul: nat): (r: Plan)
    ensures RescalesAs(r, mul, 1)
  {
    Plan(Reorder, [Stage(LumaToLumaBody(mul, 1), 1), Stage(PlanarToSemiPlanarChromaBody(mul), 1)])
  }

  /** setup_convert_info_packed_yuv_to_planar. */
  function PackedToPlanar(sw: Swizzle, div: nat): (r: Plan)
    ensures RescalesAs(r, 1, div) && SamplesThrough(r, sw)
  {
    Plan(Reorder, [Stage(PackedYuvToLumaBody(sw.y, div), 1), Stage(PackedYuvToPlanarChromaBody(sw.u, sw.v, div), 2)])
  }

  /** setup_convert_info_packed_yuv_to_semi_planar. */
  function PackedToSemiPlanar(sw: Swizzle): (r: Plan)
    ensures RescalesAs(r, 1, 1) && SamplesThrough(r, sw)
  {
    Plan(Reorder, [Stage(PackedYuvToLumaBody(sw.y, 1), 1), Stage(PackedYuvToSemiPlanarChromaBody(sw.u, sw.v), 1)])
  }

  /** setup_convert_info_semi_planar_to_planar. */
  function SemiPlanarToPlanar(div: nat): (r: Plan)
    ensures RescalesAs(r, 1, div)
  {
    Plan(Reorder, [Stage(LumaToLumaBody(1, div), 1), Stage(SemiPlanarToPlanarChromaBody(div), 2)])
  }

  /** setup_convert_info_semi_planar_to_semi_planar. */
  function SemiPlanarToSemiPlanar(): (r: Plan)
    ensures RescalesAs(r, 1, 1)
  {
    Plan(Reorder, [Stage(LumaToLumaBody(1, 1), 1), Stage(SemiPlanarToSemiPlanarChromaBody, 1)])
  }

  /** setup_convert_info_yuv_to_yuv. VUYA is checked on both sides first, then a
      planar input, then a packed one; every other input is handled as semi-planar,
      and every output that is neither VUYA nor planar as semi-planar as well. Only
      a packed input whose swizzle is unknown fails. */
  function SetupYuvToYuv(device: Device, alpha: real, inFormat: VideoFormat, outFormat: VideoFormat): (r: Option<Plan>)
    requires inFormat in device
    ensures r.None? <==> IsPackedYuv(inFormat) && PackedComponents(device, inFormat).None?
    ensures r.Some? ==> ValidPlan(r.value) && r.value.templ == Reorder
    ensures r.Some? ==> (|r.value.stages| == 1 <==> outFormat.VUYA?)
    ensures r.Some? && |r.value.stages| == 2 ==> (r.value.stages[1].targets == 2 <==> IsPlanarYuv(outFormat))
    ensures r.Some? && inFormat.VUYA? && outFormat.VUYA? ==> r.value.stages == [Stage(ReorderBody(alpha), 1)]
    ensures r.Some? ==> RescalesAs(r.value, TenBitFactor(inFormat), TenBitFactor(outFormat))
    ensures r.Some? && IsPackedYuv(inFormat) ==> SamplesThrough(r.value, PackedComponents(device, inFormat).value)
  {
    var inVuya, outVuya := inFormat.VUYA?, outFormat.VUYA?;
    var inPlanar, outPlanar := IsPlanarYuv(inFormat), IsPlanarYuv(outFormat);
    var inPacked := IsPackedYuv(inFormat);
    var mul, div := TenBitFactor(inFormat), TenBitFactor(outFormat);
    if inVuya && outVuya then
      Some(VuyaToVuya(alpha))
    else if inVuya then
      if outPlanar then Some(VuyaToPlanar(div)) else Some(VuyaToSemiPlanar())
    else if outVuya then
      if inPlanar then Some(PlanarToVuya(mul))
      else if inPacked then
        match PackedComponents(device, inFormat)
        case Some(sw) => Some(PackedToVuya(sw))
        case None => None
      else Some(SemiPlanarToVuya())
    else if inPlanar then
      if outPlanar then Some(PlanarToPlanar(mul, div)) else Some(PlanarToSemiPlanar(mul))
    else if inPacked then
      match PackedComponents(device, inFormat)
      case Some(sw) => if outPlanar then Some(PackedToPlanar(sw, div)) else Some(PackedToSemiPlanar(sw))
      case None => None
    else if outPlanar then
      Some(SemiPlanarToPlanar(div))
    else
      Some(SemiPlanarToSemiPlanar())
  }

  /** The RGB/YUV dispatch of gst_d3d11_converter_new_internal: a pair is supported
      only when each side is RGB or YUV and the chosen routine accepts it. */
  function Classify(device: Device, alpha: real, inFormat: VideoFormat, outFormat: VideoFormat): (r: Option<Plan>)
    requires inFormat in device
    ensures !(IsRgb(inFormat) || IsYuv(inFormat)) || !(IsRgb(outFormat) || IsYuv(outFormat)) ==> r.None?
    ensures r.Some? ==> ValidPlan(r.value)
    ensures r.Some? ==> (HasColorTransform(r.value.templ) <==> IsRgb(inFormat) != IsRgb(outFormat))
    ensures r.Some? ==> r.value.templ == (if IsRgb(inFormat) == IsRgb(outFormat) then Reorder
                                          else if IsRgb(inFormat) then RgbToYuv else YuvToRgb)
    ensures IsRgb(inFormat) && IsRgb(outFormat) ==> r == Some(SetupRgbToRgb(alpha))
    ensures IsRgb(inFormat) && IsYuv(outFormat) ==> r == SetupRgbToYuv(outFormat)
    ensures IsYuv(inFormat) && IsRgb(outFormat) ==> r == SetupYuvToRgb(device, inFormat)
    ensures IsYuv(inFormat) && IsYuv(outFormat) ==> r == SetupYuvToYuv(device, alpha, inFormat, outFormat)
  {
    if IsRgb(inFormat) then
      if IsRgb(outFormat) then Some(SetupRgbToRgb(alpha))
      else if IsYuv(outFormat) then SetupRgbToYuv(outFormat)
      else None
    else if IsYuv(inFormat) then
      if IsRgb(outFormat) then SetupYuvToRgb(device, inFormat)
      else if IsYuv(outFormat) then SetupYuvToYuv(device, alpha, inFormat, outFormat)
      else None
    else
      None
  }

  /** Why constructing a converter failed. */
  datatype CreateError =
    | InvalidAlpha
    | FormatUnknown(format: VideoFormat)
    | ConversionNotSupported(inFormat: VideoFormat, outFormat: VideoFormat)
    | SetupFailed

  /** The checks of gst_d3d11_converter_new_internal before any resource is made: the
      input format must be known to the device, then the output format, then the pair
      must be classified as supported. */
  function Prepare(device: Device, alpha: real, inFormat: VideoFormat, outFormat: VideoFormat): (r: Result<Plan, CreateError>)
    ensures inFormat !in device ==> r == Failure(FormatUnknown(inFormat))
    ensures inFormat in device && outFormat !in device ==> r == Failure(FormatUnknown(outFormat))
    ensures r.Success? ==> inFormat in device && outFormat in device && ValidPlan(r.value)
    ensures r.Failure? && inFormat in device && outFormat in device ==>
              r.error == ConversionNotSupported(inFormat, outFormat)
    ensures r.Failure? ==> r.error != InvalidAlpha && r.error != SetupFailed
  {
    if inFormat !in device then Failure(FormatUnknown(inFormat))
    else if outFormat !in device then Failure(FormatUnknown(outFormat))
    else
      match Classify(device, alpha, inFormat, outFormat)
      case Some(p) => Success(p)
      case None => Failure(ConversionNotSupported(inFormat, outFormat))
  }

  /** The output formats for which the quads' render targets match the planes one to one. */
  predicate TargetsMatchPlanes(f: VideoFormat) {
    (IsRgb(f) && !f.OtherRgb?) || f.VUYA? || IsPlanarYuv(f) || IsSemiPlanarYuv(f)
  }

  /** For an RGB, VUYA, planar or semi-planar output, every accepted plan writes exactly
      one render target per output plane. */
  lemma {:induction false} TargetsCoverOutputPlanes(device: Device, alpha: real, inFormat: VideoFormat, outFormat: VideoFormat)
    requires inFormat in device
    requires Classify(device, alpha, inFormat, outFormat).Some?
    requires TargetsMatchPlanes(outFormat)
    ensures TotalTargets(Classify(device, alpha, inFormat, outFormat).value) == KnownPlaneCount(outFormat).value
  {
    var p := Classify(device, alpha, inFormat, outFormat).value;
    if IsRgb(outFormat) {
      if IsRgb(inFormat) {
        assert p == SetupRgbToRgb(alpha);
      } else {
        assert |p.stages| == 1;
      }
    } else if outFormat.VUYA? {
      assert |p.stages| == 1;
    } else {
      assert |p.stages| == 2;
    }
  }

  /** A YUV to packed-YUV pair is not rejected: the output is handled as semi-planar,
      so the plan has a second quad although the output has a single plane. */
  lemma {:induction false} PackedOutputGetsChromaQuad(device: Device, alpha: real, inFormat: VideoFormat, outFormat: VideoFormat)
    requires inFormat in device
    requires IsYuv(inFormat) && !IsPackedYuv(inFormat) && !inFormat.VUYA?
    requires IsPackedYuv(outFormat)
    ensures Classify(device, alpha, inFormat, outFormat).Some?
    ensures TotalTargets(Classify(device, alpha, inFormat, outFormat).value) == 2
    ensures KnownPlaneCount(outFormat) == Some(1)
  {
    var p := Classify(device, alpha, inFormat, outFormat).value;
    assert |p.stages| == 2;
  }
}
