# Direct3D 11 colour converter and alpha combiner, in Dafny

This project models two pieces of GStreamer's plugins and proves properties of them.

**The Direct3D 11 colour-space converter** (`GstD3D11Converter`, `sys/d3d11/gstd3d11converter.cpp`). Four parts are modelled:

- **The 4×4 colour-matrix routines** (`ColorMatrix`, `color_matrix.dfy`).
  - The routines work in place on `MatrixData` and are modelled as methods on a 4×4 `array2<real>`.
  - Each method is proved against a pure matrix algebra over `seq<seq<real>>`: product, identity, the offset and scale matrices, and the two Y'CbCr rotations.
  - The algebra carries the lemmas: associativity, identity laws, offsets and scales cancelling, the two rotations inverse to each other, and to-YUV undoing to-RGB.
  - `converter_get_matrix` is specified by `ConversionMatrix`.
  - The constant-buffer layout is `PackTransform`.
- **The classification of a format pair into a conversion plan** (`ConvertPlan`, `convert_plan.dfy`).
  - The `setup_convert_info_*` routines and the dispatch of `gst_d3d11_converter_new_internal` are pure functions.
  - The result is a `Plan`: the shader template, plus for each of at most two quads a shader-body kind with its parameters and its number of render targets.
  - `get_packed_yuv_components` is the function `PackedComponents`.
- **The live converter** (class `D3D11Converter.Converter`, `converter.dfy`).
  - Construction: its checks, failures and initial state (the colour transform, viewports, rectangles and vertex buffer).
  - `update_src_rect`, `update_dest_rect` and `update_viewport`.
  - The vertex-buffer rebuild decision.
  - How `convert_unlocked` splits render targets between its two draw calls.

**The alpha combiner** (`GstAlphaCombine`, `gst/codecalpha/gstalphacombine.c`), in class `AlphaCombine.AlphaCombiner` (`alpha_combine.dfy`):

- Negotiation over `format_map`: a scanning loop, the colour-range check, and the cached result.
- The one-buffer alpha slot, with `last_alpha_buffer` reuse for GAP buffers and `last_flow_ret`.
- The counted `flushing` state, driven by flush events and state changes.
- The A420 video-meta update of `sink_chain`.
- Every state change of the slot is a pure step function on a `Handoff` value. Each method's postcondition ties the object's new state to that step function, and the lemmas are stated about the step functions.

`video.dfy` holds the shared vocabulary: video formats, their RGB/YUV classes and layouts, and the fields of `GstVideoInfo` the two cores read. `wrappers.dfy` holds `Option` and `Result`.

## Model

| member | source | states |
|---|---|---|
| ColorMatrix.Identity | sys/d3d11/gstd3d11converter.cpp:362-372 | entry (i, j) is 1 when i = j and 0 otherwise |
| ColorMatrix.SetIdentity | sys/d3d11/gstd3d11converter.cpp:362-372 | afterwards the array holds the identity, entry by entry |
| ColorMatrix.Copy | sys/d3d11/gstd3d11converter.cpp:374-382 | the destination holds what the source held |
| ColorMatrix.Product | sys/d3d11/gstd3d11converter.cpp:388-404 | entry (i, j) of a·b is row i of a times column j of b |
| ColorMatrix.DotProduct | sys/d3d11/gstd3d11converter.cpp:396-399 | the inner k-loop accumulates exactly the (i, j) entry of the product |
| ColorMatrix.MultiplyInto | sys/d3d11/gstd3d11converter.cpp:394-402 | the scratch matrix receives the product of the two inputs |
| ColorMatrix.Multiply | sys/d3d11/gstd3d11converter.cpp:384-404 | dst becomes old(a)·old(b), also when dst is a or b, because the product goes through a scratch copy |
| ColorMatrix.ProductIdentityLeft | sys/d3d11/gstd3d11converter.cpp:362-404 | the identity is a left unit of multiply |
| ColorMatrix.ProductIdentityRight | sys/d3d11/gstd3d11converter.cpp:362-404 | the identity is a right unit of multiply |
| ColorMatrix.DotAssociative | sys/d3d11/gstd3d11converter.cpp:388-404 | each entry of a·(b·c) equals the same entry of (a·b)·c |
| ColorMatrix.ProductAssociative | sys/d3d11/gstd3d11converter.cpp:388-404 | multiply is associative, so successive in-place premultiplications compose |
| ColorMatrix.OffsetMatrix | sys/d3d11/gstd3d11converter.cpp:406-416 | the identity with rows 0-2 of column 3 set to a1, a2, a3 |
| ColorMatrix.NewOffsetMatrix | sys/d3d11/gstd3d11converter.cpp:409-414 | the array set to the identity and then written holds OffsetMatrix(a1, a2, a3) |
| ColorMatrix.OffsetComponents | sys/d3d11/gstd3d11converter.cpp:406-416 | m becomes OffsetMatrix(a1, a2, a3)·old(m) |
| ColorMatrix.OffsetTranslates | sys/d3d11/gstd3d11converter.cpp:406-416 | an offset adds a_i times row 3 to row i (i < 3) and leaves row 3 alone |
| ColorMatrix.OffsetCancels | sys/d3d11/gstd3d11converter.cpp:406-416 | offsets by a and by -a cancel, in either order |
| ColorMatrix.ScaleMatrix | sys/d3d11/gstd3d11converter.cpp:418-428 | diag(a1, a2, a3, 1) |
| ColorMatrix.NewScaleMatrix | sys/d3d11/gstd3d11converter.cpp:421-426 | the array set to the identity and then written holds ScaleMatrix(a1, a2, a3) |
| ColorMatrix.ScaleComponents | sys/d3d11/gstd3d11converter.cpp:418-428 | m becomes ScaleMatrix(a1, a2, a3)·old(m) |
| ColorMatrix.ScaleMultipliesRows | sys/d3d11/gstd3d11converter.cpp:418-428 | a scale multiplies row i (i < 3) by a_i and leaves row 3 alone |
| ColorMatrix.ScaleCancels | sys/d3d11/gstd3d11converter.cpp:418-428 | scaling by s and then by 1/s leaves the matrix as it was |
| ColorMatrix.Load | sys/d3d11/gstd3d11converter.cpp:447-454 | a fresh array holding the given constant matrix |
| ColorMatrix.YcbcrToRgb | sys/d3d11/gstd3d11converter.cpp:443-457 | m becomes YcbcrToRgbMatrix(Kr, Kb)·old(m) |
| ColorMatrix.RgbToYcbcr | sys/d3d11/gstd3d11converter.cpp:459-489 | m becomes RgbToYcbcrMatrix(Kr, Kb)·old(m) |
| ColorMatrix.RgbToYcbcrUndoesYcbcrToRgb | sys/d3d11/gstd3d11converter.cpp:443-489 | RGB→Y'CbCr after Y'CbCr→RGB is the identity for every valid Kr, Kb |
| ColorMatrix.YcbcrToRgbUndoesRgbToYcbcr | sys/d3d11/gstd3d11converter.cpp:443-489 | Y'CbCr→RGB after RGB→Y'CbCr is the identity for every valid Kr, Kb |
| ColorMatrix.RotationsInverse | sys/d3d11/gstd3d11converter.cpp:443-489 | the two rotation matrices are inverse to each other, in both orders |
| ColorMatrix.GreenWeights | sys/d3d11/gstd3d11converter.cpp:446-450 | the green-row coefficients -2·Kb(1-Kb)/Kg and -2·Kr(1-Kr)/Kg weight the chroma axes by -Kb/Kg and -Kr/Kg |
| ColorMatrix.ComputeMatrixToRgb | sys/d3d11/gstd3d11converter.cpp:491-512 | data becomes ToRgb(info, old(data)): the coded range is mapped to [0, 1], then a YUV format with known Kr/Kb is rotated to R'G'B' |
| ColorMatrix.ComputeMatrixToYuv | sys/d3d11/gstd3d11converter.cpp:514-536 | data becomes ToYuv(info, old(data)): the rotation to Y'CbCr for YUV with known Kr/Kb, then [0, 1] is mapped to the coded range |
| ColorMatrix.ToYuvUndoesToRgb | sys/d3d11/gstd3d11converter.cpp:491-536 | with the same colorimetry and the same RGB/YUV class, converting to YUV undoes converting to RGB |
| ColorMatrix.DepthFactor | sys/d3d11/gstd3d11converter.cpp:560-580 | the pre-scale times 2^(out-in) is 1 when in < out; the post-scale is 2^(in-out) otherwise |
| ColorMatrix.GetMatrix | sys/d3d11/gstd3d11converter.cpp:538-586 | returns false and leaves the identity exactly when the colour matrices are equal; otherwise returns true and leaves ConversionMatrix(in, out) |
| ColorMatrix.ComputeConversion | sys/d3d11/gstd3d11converter.cpp:560-580 | starting from the identity: pre-scale only when in_bits < out_bits, to RGB, to YUV, post-scale only when in_bits > out_bits |
| ColorMatrix.SameColorimetryIsDepthRescale | sys/d3d11/gstd3d11converter.cpp:538-586 | with the same colorimetry, the full computation is only the uniform depth rescale, and the identity for equal depths |
| ColorMatrix.PackTransform | sys/d3d11/gstd3d11converter.cpp:1361-1377 | trans_matrix[4i+j] is entry (i, j) for i, j < 3; entries 3, 7 and 11 are 0 |
| ColorMatrix.PackKeepsLinearPart | sys/d3d11/gstd3d11converter.cpp:1361-1377 | two matrices pack alike if and only if their upper-left 3×3 blocks agree |
| ConvertPlan.PackedComponents | sys/d3d11/gstd3d11converter.cpp:601-655 | defined exactly for the packed formats, with YUY2 only on an RGBA or G8R8_G8B8 texture; y, u and v read three different lanes, y lane 0 or 1 |
| ConvertPlan.SetupRgbToRgb | sys/d3d11/gstd3d11converter.cpp:588-599 | one reorder body, carrying alpha, with one target |
| ConvertPlan.SetupYuvToRgb | sys/d3d11/gstd3d11converter.cpp:657-707 | succeeds exactly for VUYA, planar, semi-planar and packed formats with a known swizzle; one body, one target; input factor 64 only for I420_10LE; a packed body samples through the format's swizzle |
| ConvertPlan.SetupRgbToYuv | sys/d3d11/gstd3d11converter.cpp:709-749 | succeeds exactly for VUYA, planar and semi-planar outputs; one body only for VUYA; the second body has 2 targets exactly for planar; output factor 64 only for I420_10LE |
| ConvertPlan.VuyaToVuya | sys/d3d11/gstd3d11converter.cpp:839-851 | rescales neither side |
| ConvertPlan.VuyaToPlanar | sys/d3d11/gstd3d11converter.cpp:853-872 | both bodies rescale the output by div |
| ConvertPlan.VuyaToSemiPlanar | sys/d3d11/gstd3d11converter.cpp:874-889 | rescales neither side |
| ConvertPlan.PlanarToVuya | sys/d3d11/gstd3d11converter.cpp:891-907 | rescales the input by mul |
| ConvertPlan.PackedToVuya | sys/d3d11/gstd3d11converter.cpp:909-927 | rescales neither side and samples through the given swizzle |
| ConvertPlan.SemiPlanarToVuya | sys/d3d11/gstd3d11converter.cpp:929-941 | rescales neither side |
| ConvertPlan.PlanarToPlanar | sys/d3d11/gstd3d11converter.cpp:751-774 | both bodies rescale the input by mul and the output by div |
| ConvertPlan.PlanarToSemiPlanar | sys/d3d11/gstd3d11converter.cpp:776-796 | both bodies rescale the input by mul, the output by 1 |
| ConvertPlan.PackedToPlanar | sys/d3d11/gstd3d11converter.cpp:943-968 | both bodies rescale the output by div and sample through the swizzle |
| ConvertPlan.PackedToSemiPlanar | sys/d3d11/gstd3d11converter.cpp:970-992 | rescales neither side and samples through the swizzle |
| ConvertPlan.SemiPlanarToPlanar | sys/d3d11/gstd3d11converter.cpp:798-818 | both bodies rescale the output by div |
| ConvertPlan.SemiPlanarToSemiPlanar | sys/d3d11/gstd3d11converter.cpp:820-837 | rescales neither side |
| ConvertPlan.SetupYuvToYuv | sys/d3d11/gstd3d11converter.cpp:994-1051 | fails only for a packed input with no swizzle; one body exactly for a VUYA output; the second body has 2 targets exactly for a planar output; mul is 64 exactly for an I420_10LE input and div exactly for an I420_10LE output; a packed input is sampled through its swizzle; VUYA→VUYA is a single reorder body |
| ConvertPlan.Classify | sys/d3d11/gstd3d11converter.cpp:1339-1359 | rejects any side that is neither RGB nor YUV; the template is reorder for same-class pairs and a colour template otherwise; RGB→RGB, RGB→YUV, YUV→RGB and YUV→YUV are exactly the plans of SetupRgbToRgb, SetupRgbToYuv, SetupYuvToRgb and SetupYuvToYuv, so a mixed pair is accepted exactly when that routine accepts it |
| ConvertPlan.Prepare | sys/d3d11/gstd3d11converter.cpp:1319-1359 | an unknown input format is reported first, then an unknown output format, then an unsupported pair; success gives a valid plan |
| ConvertPlan.TargetsCoverOutputPlanes | sys/d3d11/gstd3d11converter.cpp:588-1051 | for an RGB, VUYA, planar or semi-planar output, the bodies write one render target per output plane |
| ConvertPlan.PackedOutputGetsChromaQuad | sys/d3d11/gstd3d11converter.cpp:1031-1048 | a planar or semi-planar input with a packed-YUV output is accepted with a second quad, so the plan has 2 targets for a 1-plane output |
| D3D11Converter.QuadVertices | sys/d3d11/gstd3d11converter.cpp:1458-1547 | the corners map back to dest in output pixels and to src in texels, shifted by half a texel toward the origin on both axes; z is 0 |
| D3D11Converter.InitialQuadMatchesFullFrame | sys/d3d11/gstd3d11converter.cpp:1224-1248 | the initial vertex buffer has the positions a rebuild for the full frames would write, and its texture coordinates are those shifted back by exactly half a texel on both axes |
| D3D11Converter.ComputeTransform | sys/d3d11/gstd3d11converter.cpp:1361-1377 | trans_matrix is the packed conversion matrix when the colour matrices differ, and all zeros otherwise |
| D3D11Converter.InitialViewports | sys/d3d11/gstd3d11converter.cpp:1379-1386 | one viewport per output plane, covering that plane's component size with depth range [0, 1]; the rest stay zero |
| D3D11Converter.Converter.constructor | sys/d3d11/gstd3d11converter.cpp:1276-1293 | StartsAs: the plan, transform and viewports; full-frame rectangles; the cached texture size is the input size; the vertex buffer is the unit quad and not stale |
| D3D11Converter.Converter.NewWithAlpha | sys/d3d11/gstd3d11converter.cpp:1298-1434 | no converter exactly when there is an error: alpha outside [0, 1], then a Prepare failure, then a shader-setup failure, in that order; a returned converter is in the StartsAs starting state |
| D3D11Converter.Converter.New | sys/d3d11/gstd3d11converter.cpp:1419-1424 | with alpha 1: a Prepare failure is reported as its error, otherwise the result fails exactly on a shader-setup failure; a returned converter is in the StartsAs starting state |
| D3D11Converter.Converter.UpdateSrcRect | sys/d3d11/gstd3d11converter.cpp:1660-1678 | stores the rectangle; marks the vertex buffer stale only when the rectangle differs; always returns true |
| D3D11Converter.Converter.UpdateDestRect | sys/d3d11/gstd3d11converter.cpp:1680-1698 | as UpdateSrcRect, for the destination rectangle |
| D3D11Converter.HalfViewport | sys/d3d11/gstd3d11converter.cpp:1641-1644 | origin and size are halved; the depth range is the previous chroma viewport's |
| D3D11Converter.Converter.UpdateViewport | sys/d3d11/gstd3d11converter.cpp:1625-1658 | viewport 0 is the argument; for a subsampled output viewport 1 is its half and planes from 2 on copy viewport 1; nothing else changes; returns true |
| D3D11Converter.Converter.UpdateVertexBuffer | sys/d3d11/gstd3d11converter.cpp:1458-1547 | on a successful map the vertices are QuadVertices of the current rectangles and texture size, and the stale mark is cleared; on failure nothing changes |
| D3D11Converter.Converter.ConvertUnlocked | sys/d3d11/gstd3d11converter.cpp:1569-1623 | rebuilds exactly when the buffer is stale or the texture size changed; stores the size before mapping; draws quad 0, then quad 1 if present; stops at the first failure; the new stale mark and cached size are AfterConvert of the old ones |
| D3D11Converter.DrawPlan | sys/d3d11/gstd3d11converter.cpp:1606-1620 | quad 0 takes viewport 0 and target 0; quad 1 takes the rest from index 1 up to the number of output views; every draw reads all input views |
| D3D11Converter.DrawTargetsMatchBodies | sys/d3d11/gstd3d11converter.cpp:1606-1620 | with two quads, each draw writes as many targets as its body declares if and only if the output has TotalTargets planes |
| D3D11Converter.DrawsCoverOutputPlanes | sys/d3d11/gstd3d11converter.cpp:1339-1359 | for an RGB, VUYA, planar or semi-planar output, the draws write each body's targets and end at the last output plane |
| D3D11Converter.AfterConvert | sys/d3d11/gstd3d11converter.cpp:1591-1604 | a rebuild stores the texture size; without a rebuild the state is unchanged; the stale mark survives only a failed map |
| D3D11Converter.FailedRebuildRetried | sys/d3d11/gstd3d11converter.cpp:1591-1604 | after a failed map, the next call with the same texture rebuilds again if and only if the rectangles had changed; after a successful one it does not |
| AlphaCombine.FormatMapIsCombinedFormat | gst/codecalpha/gstalphacombine.c:55-73 | the first-match lookup in format_map gives A420 exactly for I420 with an I420, GRAY8 or NV12 alpha stream |
| AlphaCombine.FormatMapRows | gst/codecalpha/gstalphacombine.c:55-73 | the table has a row for a pair if and only if the pair is documented |
| AlphaCombine.FindSrcFormat | gst/codecalpha/gstalphacombine.c:178-184 | the scanning loop with its break finds the documented output format, and finds one if and only if some row matches |
| AlphaCombine.NegotiatedSpec | gst/codecalpha/gstalphacombine.c:167-203 | from UNKNOWN, negotiation succeeds exactly for a documented pair with equal colour ranges, giving A420; a known result is kept |
| AlphaCombine.AlphaCombiner.Negotiate | gst/codecalpha/gstalphacombine.c:167-203 | src_format becomes Negotiated of the old one; returns true exactly when it is known; nothing else changes |
| AlphaCombine.Unlocked | gst/codecalpha/gstalphacombine.c:132-139 | the flushing count becomes positive |
| AlphaCombine.UnlockStopUndoesUnlock | gst/codecalpha/gstalphacombine.c:132-148 | unlock_stop undoes unlock, and unlock undoes unlock_stop on a positive count |
| AlphaCombine.AlphaCombiner.Unlock | gst/codecalpha/gstalphacombine.c:132-139 | the state becomes Unlocked of the old state |
| AlphaCombine.AlphaCombiner.UnlockStop | gst/codecalpha/gstalphacombine.c:141-148 | requires a positive count; the state becomes UnlockStopped of the old state |
| AlphaCombine.Cleared | gst/codecalpha/gstalphacombine.c:150-156 | a reset state keeps no GAP buffer as the last alpha buffer |
| AlphaCombine.AlphaCombiner.Reset | gst/codecalpha/gstalphacombine.c:150-156 | both buffers cleared and last_flow_ret OK; flushing and the formats unchanged |
| AlphaCombine.Pushed | gst/codecalpha/gstalphacombine.c:255-280 | while flushing nothing changes; the count never changes |
| AlphaCombine.AlphaCombiner.PushAlphaBuffer | gst/codecalpha/gstalphacombine.c:255-280 | state and return are Pushed of the old state |
| AlphaCombine.Popped | gst/codecalpha/gstalphacombine.c:244-253 | the slot is empty afterwards |
| AlphaCombine.AlphaCombiner.PopAlphaBuffer | gst/codecalpha/gstalphacombine.c:244-253 | the state becomes Popped of the old state with the given flow return |
| AlphaCombine.PushThenPop | gst/codecalpha/gstalphacombine.c:244-280 | a push fills an empty slot and reports the previous flow return; a pop then empties it and records the new one; while flushing a push returns FLUSHING and changes nothing |
| AlphaCombine.PeekedYieldsData | gst/codecalpha/gstalphacombine.c:205-242 | peek hands out a buffer exactly when it returns OK; that buffer is never GAP and is the slot's buffer or, for a GAP, the last alpha buffer; OK exactly when not flushing, negotiated, and not a GAP without a last buffer |
| AlphaCombine.AlphaCombiner.PeekAlphaBuffer | gst/codecalpha/gstalphacombine.c:205-242 | negotiates only when not flushing; the result is Peeked of the old state; the slot is left as it is |
| AlphaCombine.AlphaCombiner.SetAlphaFormat | gst/codecalpha/gstalphacombine.c:382-408 | stores the alpha info only when not flushing and the caps parse; true when flushing or parsed |
| AlphaCombine.OnFlushEvent | gst/codecalpha/gstalphacombine.c:410-469 | a flush-stop or READY→PAUSED on a zero count is the only failure |
| AlphaCombine.FlushingCountsUnlocks | gst/codecalpha/gstalphacombine.c:132-148 | a run of flush and state events never trips the assertion if and only if no prefix holds more stops than the starting count plus its unlocks; the count then ends at the start plus the balance |
| AlphaCombine.DataFlowsWhenBalanced | gst/codecalpha/gstalphacombine.c:570-595 | from init (count 1), the count is zero after a run exactly when the run holds one stop more than unlocks |
| AlphaCombine.AlphaCombiner.constructor | gst/codecalpha/gstalphacombine.c:570-595 | empty slot, no last buffer, last_flow_ret OK, flushing 1, UNKNOWN format, empty infos |
| AlphaCombine.AlphaCombiner.FlushEventOnPad | gst/codecalpha/gstalphacombine.c:410-469 | the state becomes OnFlushEvent of the old state |
| AlphaCombine.AlphaCombiner.ChangeState | gst/codecalpha/gstalphacombine.c:489-520 | READY→PAUSED releases one count; PAUSED→READY adds one, resets the slot, and clears src_format and both infos; other transitions change nothing |
| AlphaCombine.CombinedMeta | gst/codecalpha/gstalphacombine.c:333-338 | A420 with 4 planes; the alpha offset is the alpha skip plus the copied buffer's size; the alpha stride is the alpha luma stride; planes 0-2 unchanged |
| AlphaCombine.AlphaCombiner.SinkChain | gst/codecalpha/gstalphacombine.c:282-352 | a failed peek is returned with nothing changed; a missing alpha plane gives ERROR with the slot still full; otherwise the combined meta is pushed, the used buffer becomes the last alpha buffer, and the slot is popped with the push result |

## How the code differs from its description

Where the code and its description differ, the model follows the code.

- `update_viewport` does not mark the vertex buffer stale. Only the two rectangle updates do.
- In `setup_convert_info_yuv_to_yuv`, an output that is neither VUYA nor planar is handled as semi-planar. A YUV→packed-YUV pair is therefore accepted, with a second quad whose draw covers zero targets (`PackedOutputGetsChromaQuad`).
- When both colour matrices are equal, `converter_get_matrix` returns false and the constant buffer stays zero-filled (`g_new0`), not the identity.
- `convert_unlocked` stores the new texture size before it maps the vertex buffer. A rebuild caused only by a size change whose map fails is therefore not retried on the next call (`FailedRebuildRetried`).
- `set_alpha_format` returns `GST_FLOW_FLUSHING` from a `gboolean` function while flushing. That value is non-zero, so it reads as TRUE, and the model returns true. The alpha pad ignores the result anyway.
- `sink_chain` leaves the alpha slot full when the peek fails and when the alpha plane cannot be found. It pops the slot only after a push.
- `get_packed_yuv_components` asserts that its default case is unreachable and otherwise returns FALSE. It is modelled as failure (`None`).
- The `g_assert_not_reached` in `update_viewport` is modelled as a precondition: the output is subsampled or has at most one view.
- The `g_assert` in `unlock_stop` is modelled as a precondition (`flushing > 0`), and as the `None` result of `OnFlushEvent`.

## Left out

- The HLSL source text and its printf substitution. Bodies are enumerated kinds with their parameters.
- All Direct3D 11 work: shader, sampler and buffer creation, `Map`/`Unmap`, texture descriptions, quad creation and drawing, and releasing COM objects. Each outcome is a boolean parameter: `shaderOk`, `mapOk`, `draw0Ok`, `draw1Ok`.
- The device lock around `convert_unlocked`. The model is sequential.
- The alpha combiner's mutex and condition variable. Each wait becomes a precondition: the slot is empty or the element is flushing, or the slot is full or the element is flushing.
- Floating-point rounding. Matrices, viewports and vertices are over `real`, and the float and integer casts of the source are exact here.
- GStreamer library functions whose results the two cores only read:
  - range offsets and scales, Kr/Kb, and component depth, widths and heights are input fields of `VideoInfo` and `Colorimetry`;
  - the RGB/YUV classes and the plane counts are fixed per `VideoFormat` (`IsRgb`, `IsYuv`, `KnownPlaneCount`);
  - the device's format table is the `Device` parameter.
- `GstBuffer` memory handling in `sink_chain`:
  - finding the alpha memory, copying, appending and ref-counting;
  - parent-buffer metas;
  - adding a video meta when the colour buffer has none.
  - The model takes the colour buffer's meta, the copied size and the alpha plane (or its absence) as inputs.
- `set_sink_format`, the caps and query handling, the pad pushes (the push result is an input) and `alpha_chain`. `alpha_chain` only forwards to `push_alpha_buffer`, which is modelled.
- `color_matrix_debug` and the other debug logging.
- `ext/gtk/gstgtksink.h`, `gst-libs/gst/va/gstvadisplay_wrapped.h` and `sys/wasapi2/gstwasapi2util.h` are not part of this model. They declare types and functions only.
