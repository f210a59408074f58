/**
 * The Grounded-SAM wrapper (class GroundedSAM in backend/grounded_sam.py): one mask per box,
 * the one-shot detect-then-segment composition, and the fixed layering of the rendered result.
 *
 * The text-conditioned detector and the promptable segmenter are inference services; they
 * are parameters of type Detector and Segmenter. The segmenter's `set_image` followed by
 * `predict(box)` is one application `segmenter(image, box)`.
 */
module Vision {
  import opened Geometry

  /** A decoded image. Only its pixel size matters here; `source` names the file it came from. */
  datatype Image = Image(source: string, width: nat, height: nat)

  /** A binary mask, one row of booleans per pixel row. */
  type Mask = seq<seq<bool>>

  /** The detector's output: boxes in normalized centre form, scores and phrases. */
  datatype Detection = Detection(boxes: seq<Box>, logits: seq<real>, phrases: seq<string>)

  /** A detection whose three columns are parallel, which is what the detector always returns. */
  type DetectionResult = d: Detection | |d.boxes| == |d.logits| == |d.phrases|
    witness Detection([], [], [])

  /** The text-conditioned detector: image, prompt, box threshold, text threshold. */
  type Detector = (Image, string, real, real) -> DetectionResult

  /** The promptable segmenter: image and a pixel-corner box to the first predicted mask. */
  type Segmenter = (Image, Box) -> Mask

  /** The thresholds every caller in the repository passes to the detector. */
  const BoxThreshold: real := 0.35
  const TextThreshold: real := 0.25

  /**
   * The box handed to the segmenter for one input box: with `boxes_normalized` a centre box is
   * converted to pixel corners on the image's width and height, otherwise it is passed unchanged.
   */
  function PromptBox(b: Box, normalized: bool, image: Image): Box
  {
    if normalized then ToCorners(b, image.width as real, image.height as real) else b
  }

  /** The masks `segment_with_sam` produces, as a function of its inputs. */
  function Segmented(segmenter: Segmenter, image: Image, boxes: seq<Box>, normalized: bool): (masks: seq<Mask>)
    ensures |masks| == |boxes|
    ensures forall i :: 0 <= i < |boxes| ==> masks[i] == segmenter(image, PromptBox(boxes[i], normalized, image))
  {
    if boxes == [] then []
    else
      var n := |boxes| - 1;
      Segmented(segmenter, image, boxes[..n], normalized) + [segmenter(image, PromptBox(boxes[n], normalized, image))]
  }

  /** `GroundedSAM.segment_with_sam`: one segmenter call per box, masks appended in box order. */
  method SegmentWithSam(segmenter: Segmenter, image: Image, boxes: seq<Box>, normalized: bool)
    returns (masks: seq<Mask>)
    ensures masks == Segmented(segmenter, image, boxes, normalized)
  {
    masks := [];
    for i := 0 to |boxes|
      invariant masks == Segmented(segmenter, image, boxes[..i], normalized)
    {
      assert boxes[..i + 1][..i] == boxes[..i];
      var prompt := PromptBox(boxes[i], normalized, image);
      masks := masks + [segmenter(image, prompt)];
    }
    assert boxes[..|boxes|] == boxes;
  }

  /** What `GroundedSAM.predict` returns. */
  datatype Prediction = Prediction(boxes: seq<Box>, masks: seq<Mask>, logits: seq<real>, phrases: seq<string>)

  /**
   * `GroundedSAM.predict`: detect, then return early with empty columns when nothing was found,
   * otherwise segment every detected box. The boxes are passed to `segment_with_sam` with its
   * default `boxes_normalized=False`, so the segmenter receives the detector's boxes unchanged.
   */
  function Predict(detector: Detector, segmenter: Segmenter, image: Image, prompt: string,
                   boxThreshold: real, textThreshold: real): (r: Prediction)
    ensures var d := detector(image, prompt, boxThreshold, textThreshold);
      r.boxes == d.boxes && r.logits == d.logits && r.phrases == d.phrases
    ensures |r.masks| == |r.boxes|
    ensures forall i :: 0 <= i < |r.boxes| ==> r.masks[i] == segmenter(image, r.boxes[i])
  {
    var d := detector(image, prompt, boxThreshold, textThreshold);
    if |d.boxes| == 0 then
      Prediction([], [], [], [])
    else
      Prediction(d.boxes, Segmented(segmenter, image, d.boxes, false), d.logits, d.phrases)
  }

  /** With no detections the prediction is empty whatever the segmenter would answer: it is never consulted. */
  lemma PredictEmptySkipsSegmenter(detector: Detector, s1: Segmenter, s2: Segmenter, image: Image,
                                   prompt: string, boxThreshold: real, textThreshold: real)
    requires |detector(image, prompt, boxThreshold, textThreshold).boxes| == 0
    ensures Predict(detector, s1, image, prompt, boxThreshold, textThreshold) == Prediction([], [], [], [])
    ensures Predict(detector, s1, image, prompt, boxThreshold, textThreshold)
         == Predict(detector, s2, image, prompt, boxThreshold, textThreshold)
  {
  }

  /**
   * The one-shot path hands the detector's normalized centre box to the segmenter as if it were
   * pixel corners: on a 400 x 300 image the box [0.5, 0.5, 0.2, 0.4] reaches the segmenter as
   * itself, not as the pixel box [160, 90, 240, 210] the confirm path would use.
   */
  lemma PredictPassesRawBoxes(detector: Detector, segmenter: Segmenter, prompt: string, logit: real, phrase: string)
    requires var image := Image("flag.jpg", 400, 300);
      detector(image, prompt, BoxThreshold, TextThreshold) == Detection([Box(0.5, 0.5, 0.2, 0.4)], [logit], [phrase])
    ensures var image := Image("flag.jpg", 400, 300);
      Predict(detector, segmenter, image, prompt, BoxThreshold, TextThreshold).masks
        == [segmenter(image, Box(0.5, 0.5, 0.2, 0.4))]
    ensures PromptBox(Box(0.5, 0.5, 0.2, 0.4), true, Image("flag.jpg", 400, 300)) == Box(160.0, 90.0, 240.0, 210.0)
  {
    FlagExample();
  }

  // ---------------------------------------------------------------------------------------
  // Rendering (`GroundedSAM.annotate`)

  type Channel = c: int | 0 <= c < 256

  /** An OpenCV colour, channels in blue-green-red order. */
  datatype Color = Color(blue: Channel, green: Channel, red: Channel)

  /** The fixed mask colour [0, 255, 0]. */
  const Green: Color := Color(0, 255, 0)

  /** Blend weights of the mask fill: 0.7 for the image, 0.3 for the coloured overlay. */
  const ImageWeight: real := 0.7
  const OverlayWeight: real := 0.3

  /** Thickness of the mask outline. */
  const ContourThickness: nat := 2

  /** One drawing operation; a rendered picture is the sequence of its layers, bottom first. */
  datatype Layer =
    | Source(path: string)
    | MaskFill(mask: Mask, color: Color, imageWeight: real, overlayWeight: real)
    | MaskContour(mask: Mask, color: Color, thickness: nat)
    | BoxLabels(boxes: seq<Box>, logits: seq<real>, phrases: seq<string>)

  /** The keyword options of `annotate`. */
  datatype RenderOptions = RenderOptions(drawBoxes: bool, drawMasks: bool, randomColor: bool)

  /** The defaults, which is how every caller in the repository renders. */
  const DefaultOptions: RenderOptions := RenderOptions(true, true, false)

  /** The colour of mask i: the i-th random draw when `random_color`, green otherwise. */
  function MaskColor(randomColor: bool, draws: nat -> Color, i: nat): Color
  {
    if randomColor then draws(i) else Green
  }

  /** The two layers of every mask, fill then outline, mask by mask. */
  function MaskLayers(masks: seq<Mask>, randomColor: bool, draws: nat -> Color): (r: seq<Layer>)
    ensures |r| == 2 * |masks|
    ensures forall k :: 0 <= k < |r| ==> r[k].MaskFill? || r[k].MaskContour?
  {
    if masks == [] then []
    else
      var n := |masks| - 1;
      var c := MaskColor(randomColor, draws, n);
      MaskLayers(masks[..n], randomColor, draws)
        + [MaskFill(masks[n], c, ImageWeight, OverlayWeight), MaskContour(masks[n], c, ContourThickness)]
  }

  /** Mask i is drawn at positions 2i (its fill) and 2i + 1 (its outline), in its own colour. */
  lemma {:induction false} MaskLayersAt(masks: seq<Mask>, randomColor: bool, draws: nat -> Color)
    ensures var r := MaskLayers(masks, randomColor, draws);
      forall i :: 0 <= i < |masks| ==>
        r[2 * i] == MaskFill(masks[i], MaskColor(randomColor, draws, i), ImageWeight, OverlayWeight)
        && r[2 * i + 1] == MaskContour(masks[i], MaskColor(randomColor, draws, i), ContourThickness)
  {
    if masks != [] {
      var n := |masks| - 1;
      var r, p := MaskLayers(masks, randomColor, draws), MaskLayers(masks[..n], randomColor, draws);
      MaskLayersAt(masks[..n], randomColor, draws);
      forall i | 0 <= i < |masks|
        ensures r[2 * i] == MaskFill(masks[i], MaskColor(randomColor, draws, i), ImageWeight, OverlayWeight)
        ensures r[2 * i + 1] == MaskContour(masks[i], MaskColor(randomColor, draws, i), ContourThickness)
      {
        if i < n {
          assert masks[..n][i] == masks[i];
          assert r[2 * i] == p[2 * i] && r[2 * i + 1] == p[2 * i + 1];
        }
      }
    }
  }

  /**
   * The picture `annotate` writes: the source image, then (when `draw_masks`) each mask's fill and
   * outline, then (when `draw_boxes`) the boxes and labels on top of everything.
   */
  function Rendered(imagePath: string, boxes: seq<Box>, masks: seq<Mask>, logits: seq<real>, phrases: seq<string>,
                    opts: RenderOptions, draws: nat -> Color): (r: seq<Layer>)
    ensures |r| == 1 + (if opts.drawMasks then 2 * |masks| else 0) + (if opts.drawBoxes then 1 else 0)
    ensures r[0] == Source(imagePath)
    ensures opts.drawBoxes ==> r[|r| - 1] == BoxLabels(boxes, logits, phrases)
    ensures forall k :: 0 <= k < |r| && r[k].BoxLabels? ==> opts.drawBoxes && k == |r| - 1
    ensures forall k :: 0 <= k < |r| && (r[k].MaskFill? || r[k].MaskContour?) ==> opts.drawMasks
  {
    var masked := if opts.drawMasks then MaskLayers(masks, opts.randomColor, draws) else [];
    [Source(imagePath)] + masked + (if opts.drawBoxes then [BoxLabels(boxes, logits, phrases)] else [])
  }

  /**
   * With `draw_masks`, mask i is blended at position 1 + 2i and outlined at 2 + 2i: every mask is
   * filled and then outlined, in mask order, after the source image and before the boxes.
   */
  lemma RenderedMasks(imagePath: string, boxes: seq<Box>, masks: seq<Mask>, logits: seq<real>, phrases: seq<string>,
                      opts: RenderOptions, draws: nat -> Color)
    requires opts.drawMasks
    ensures var r := Rendered(imagePath, boxes, masks, logits, phrases, opts, draws);
      forall i :: 0 <= i < |masks| ==>
        r[1 + 2 * i] == MaskFill(masks[i], MaskColor(opts.randomColor, draws, i), ImageWeight, OverlayWeight)
        && r[2 + 2 * i] == MaskContour(masks[i], MaskColor(opts.randomColor, draws, i), ContourThickness)
  {
    var r := Rendered(imagePath, boxes, masks, logits, phrases, opts, draws);
    var m := MaskLayers(masks, opts.randomColor, draws);
    MaskLayersAt(masks, opts.randomColor, draws);
    forall i | 0 <= i < |masks|
      ensures r[1 + 2 * i] == m[2 * i] && r[2 + 2 * i] == m[2 * i + 1]
    {
    }
  }

  /** Drawing one more mask appends its fill and then its outline. */
  lemma MaskLayersStep(masks: seq<Mask>, i: nat, randomColor: bool, draws: nat -> Color)
    requires i < |masks|
    ensures var c := MaskColor(randomColor, draws, i);
      MaskLayers(masks[..i + 1], randomColor, draws)
        == MaskLayers(masks[..i], randomColor, draws)
           + [MaskFill(masks[i], c, ImageWeight, OverlayWeight), MaskContour(masks[i], c, ContourThickness)]
  {
    assert masks[..i + 1][..i] == masks[..i];
  }

  /** The mask loop of `annotate`: blend each mask's fill into the picture, then outline it. */
  method DrawMasks(picture: seq<Layer>, masks: seq<Mask>, randomColor: bool, draws: nat -> Color)
    returns (drawn: seq<Layer>)
    ensures drawn == picture + MaskLayers(masks, randomColor, draws)
  {
    drawn := picture;
    for i := 0 to |masks|
      invariant drawn == picture + MaskLayers(masks[..i], randomColor, draws)
    {
      var color := MaskColor(randomColor, draws, i);
      drawn := drawn + [MaskFill(masks[i], color, ImageWeight, OverlayWeight)];
      drawn := drawn + [MaskContour(masks[i], color, ContourThickness)];
      MaskLayersStep(masks, i, randomColor, draws);
    }
    assert masks[..|masks|] == masks;
  }

  /**
   * `GroundedSAM.annotate`: read the image, blend and outline each mask, then draw boxes and labels.
   * The returned picture is what the method writes to its output path.
   */
  method Annotate(imagePath: string, boxes: seq<Box>, masks: seq<Mask>, logits: seq<real>, phrases: seq<string>,
                  opts: RenderOptions, draws: nat -> Color) returns (picture: seq<Layer>)
    ensures picture == Rendered(imagePath, boxes, masks, logits, phrases, opts, draws)
  {
    picture := [Source(imagePath)];
    if opts.drawMasks {
      picture := DrawMasks(picture, masks, opts.randomColor, draws);
    }
    if opts.drawBoxes {
      picture := picture + [BoxLabels(boxes, logits, phrases)];
    }
  }
}
