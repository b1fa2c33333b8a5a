/** The parts of GStreamer's video-format vocabulary that the two cores read:
    the format enumeration, its RGB/YUV classes and layouts, and the fields of a
    video info that the converter and the alpha combiner consult.

    Values that GStreamer's video library derives from a format or a colorimetry
    (component widths, range offsets and scales, luma coefficients Kr/Kb, the
    component depth) are carried here as fields: they are inputs to the model. */
module Video {
  import opened Wrappers

  /** GST_VIDEO_MAX_PLANES. */
  const MaxPlanes: nat := 4

  /** The video formats the cores name, plus open classes for the others. */
  datatype VideoFormat =
    | Unknown
    | BGRA | RGBA | RGB10A2_LE | OtherRgb(id: nat)
    | VUYA
    | YUY2 | UYVY | VYUY | Y210 | Y410
    | I420 | I420_10LE
    | NV12 | P010_10LE | P016_LE
    | A420 | OtherYuv(id: nat)
    | GRAY8

  /** GST_VIDEO_FORMAT_INFO_IS_RGB. */
  predicate IsRgb(f: VideoFormat) {
    f.BGRA? || f.RGBA? || f.RGB10A2_LE? || f.OtherRgb?
  }

  /** Packed 4:2:2 / 4:4:4 YUV formats that the converter samples from one texture. */
  predicate IsPackedYuv(f: VideoFormat) {
    f.YUY2? || f.UYVY? || f.VYUY? || f.Y210? || f.Y410?
  }

  /** Three-plane 4:2:0 formats. */
  predicate IsPlanarYuv(f: VideoFormat) {
    f.I420? || f.I420_10LE?
  }

  /** Luma plane plus one interleaved chroma plane, 4:2:0. */
  predicate IsSemiPlanarYuv(f: VideoFormat) {
    f.NV12? || f.P010_10LE? || f.P016_LE?
  }

  /** GST_VIDEO_FORMAT_INFO_IS_YUV. */
  predicate IsYuv(f: VideoFormat) {
    f.VUYA? || IsPackedYuv(f) || IsPlanarYuv(f) || IsSemiPlanarYuv(f) || f.A420? || f.OtherYuv?
  }

  /** The number of planes of the formats whose layout the model knows. */
  function KnownPlaneCount(f: VideoFormat): (r: Option<nat>)
    ensures IsPlanarYuv(f) ==> r == Some(3)
    ensures IsSemiPlanarYuv(f) ==> r == Some(2)
    ensures IsPackedYuv(f) || f.VUYA? || (IsRgb(f) && !f.OtherRgb?) ==> r == Some(1)
  {
    match f
    case BGRA | RGBA | RGB10A2_LE | VUYA | YUY2 | UYVY | VYUY | Y210 | Y410 | GRAY8 => Some(1)
    case I420 | I420_10LE => Some(3)
    case NV12 | P010_10LE | P016_LE => Some(2)
    case A420 => Some(4)
    case _ => None
  }

  /** GstVideoColorRange. */
  datatype ColorRange = RangeUnknown | Range0To255 | Range16To235

  /** The luma coefficients that gst_video_color_matrix_get_Kr_Kb gives for a
      colour matrix, when it knows them. */
  datatype LumaCoefficients = LumaCoefficients(kr: real, kb: real)

  /** Every known matrix has positive Kr and Kb whose sum stays below 1, so that
      Kg = 1 - Kr - Kb is positive as well. */
  predicate ValidLuma(l: LumaCoefficients) {
    0.0 < l.kr && 0.0 < l.kb && l.kr + l.kb < 1.0
  }

  /** The colorimetry of a video info.
      matrix: the GstVideoColorMatrix value; offsets and scales: what
      gst_video_color_range_offsets gives for the range and format; luma: what
      gst_video_color_matrix_get_Kr_Kb gives for the matrix. */
  datatype Colorimetry = Colorimetry(
    matrix: nat,
    range: ColorRange,
    offsets: seq<int>,
    scales: seq<int>,
    luma: Option<LumaCoefficients>)

  /** The subset of GstVideoInfo the cores read. depth is GST_VIDEO_INFO_COMP_DEPTH
      of component 0; compWidth/compHeight are GST_VIDEO_INFO_COMP_WIDTH/HEIGHT. */
  datatype VideoInfo = VideoInfo(
    format: VideoFormat,
    width: int,
    height: int,
    nPlanes: nat,
    compWidth: seq<int>,
    compHeight: seq<int>,
    depth: nat,
    colorimetry: Colorimetry)

  /** What gst_video_info_init leaves behind: an unknown format and nothing else. */
  const EmptyInfo: VideoInfo :=
    VideoInfo(Unknown, 0, 0, 0, [], [], 0, Colorimetry(0, RangeUnknown, [], [], None))

  /** A video info as GStreamer fills it in from negotiated caps. */
  predicate ValidInfo(info: VideoInfo) {
    && info.width > 0
    && info.height > 0
    && 1 <= info.nPlanes <= MaxPlanes
    && (KnownPlaneCount(info.format).Some? ==> info.nPlanes == KnownPlaneCount(info.format).value)
    && |info.compWidth| == info.nPlanes
    && |info.compHeight| == info.nPlanes
    && |info.colorimetry.offsets| == 4
    && |info.colorimetry.scales| == 4
    && info.colorimetry.scales[0] > 0
    && info.colorimetry.scales[1] > 0
    && info.colorimetry.scales[2] > 0
    && (info.colorimetry.luma.Some? ==> ValidLuma(info.colorimetry.luma.value))
  }
}
