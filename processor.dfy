/**
 * The frame-processing state machine of Processor (`processFrame`): each video frame runs the
 * injected stages in turn and overwrites the processor's fields stage by stage. A failed
 * detection clears the overlay geometry; a stage that throws stops the run with the fields
 * assigned so far kept, and the busy flag is cleared on every path that passes the guard.
 */
module AugmentedReality {
  import opened Wrappers
  import opened Geometry
  import opened ImageProcessing
  import opened CornerCheck
  import opened GridGeometry

  /** The processor's fields as values (images by their pixels). */
  datatype ProcessorState = ProcessorState(
    isProcessing: bool,
    corners: Option<Quad>,
    greyscale: Option<Raster>,
    thresholded: Option<Raster>,
    extractedImageThresholded: Option<Raster>,
    boxes: seq<PuzzleBox>,
    gridLines: Option<seq<GridLine>>)

  /** The field initialisers of a new Processor. */
  const Initial := ProcessorState(false, None, None, None, None, [], None)

  /** The acceptance window for the puzzle's connected component, relative to the frame size. */
  function PuzzleComponentOptions(img: Frame): ComponentOptions
  {
    var shorter := if img.width < img.height then img.width else img.height;
    var longer := if img.width < img.height then img.height else img.width;
    ComponentOptions(0.5, 1.5, shorter as real * 0.1, longer as real)
  }

  /** The thresholded image: the clone of the captured image after the stage has overwritten its pixels. */
  function Thresholded(image: Raster, pixels: seq<int>): Raster
  {
    Raster(image.width, image.height, pixels)
  }

  /**
   * The effect of the try block on the fields: each stage that returns assigns its field and
   * the next stage runs; a stage that throws leaves the state as it is at that point.
   */
  function TryBlock(s: ProcessorState, img: Frame, st: Stages): ProcessorState
  {
    match st.captureImage(img)
    case Throws => s
    case Ok(image) =>
      var s := s.(greyscale := Some(image));
      match st.adaptiveThreshold(image, 8, 20)
      case Throws => s
      case Ok(pixels) =>
        var thresholded := Thresholded(image, pixels);
        var s := s.(thresholded := Some(thresholded));
        match st.getLargestConnectedComponent(thresholded, PuzzleComponentOptions(img))
        case Throws => s
        case Ok(None) => s.(corners := None, gridLines := None)
        case Ok(Some(component)) => AfterComponent(s, image, thresholded, component, st)
  }

  /** The part of the try block that runs once a candidate component was found. */
  function AfterComponent(s: ProcessorState, image: Raster, thresholded: Raster, component: seq<Point>, st: Stages)
    : ProcessorState
  {
    match st.getCornerPoints(component)
    case Throws => s
    case Ok(potentialCorners) =>
      if !SanityCheckCorners(potentialCorners) then s.(corners := None, gridLines := None)
      else
        var s := s.(corners := Some(potentialCorners));
        match st.findHomographicTransform(ProcessingSize, potentialCorners)
        case Throws => s
        case Ok(transform) => AfterTransform(s, image, thresholded, transform, st)
  }

  /** The part of the try block that runs once the homography is known. */
  function AfterTransform(s: ProcessorState, image: Raster, thresholded: Raster, transform: Transform, st: Stages)
    : ProcessorState
  {
    var s := s.(gridLines := Some(GridLines(st.transformPoint, transform)));
    match st.extractSquareFromRegion(image, ProcessingSize, transform)
    case Throws => s
    case Ok(extractedImageGreyScale) =>
      match st.extractSquareFromRegion(thresholded, ProcessingSize, transform)
      case Throws => s
      case Ok(extractedImageThresholded) =>
        var s := s.(extractedImageThresholded := Some(extractedImageThresholded));
        match st.extractBoxes(extractedImageGreyScale, extractedImageThresholded)
        case Throws => s
        case Ok(boxes) =>
          var s := s.(boxes := boxes);
          match st.fillInPrediction(boxes)
          case Throws => s
          case Ok(predictions) => s.(boxes := WithPredictions(boxes, predictions))
  }

  /** processFrame: nothing happens while busy; otherwise the try block runs and the flag is cleared. */
  function RunFrame(s: ProcessorState, img: Frame, st: Stages): ProcessorState
  {
    if s.isProcessing then s else TryBlock(s, img, st).(isProcessing := false)
  }

  /** A sequence of frames processed one after another. */
  function RunFrames(s: ProcessorState, frames: seq<Frame>, st: Stages): (r: ProcessorState)
    ensures !s.isProcessing ==> !r.isProcessing
    decreases |frames|
  {
    if frames == [] then s else RunFrames(RunFrame(s, frames[0], st), frames[1..], st)
  }

  /** The same frames with the busy guard dropped: the try block runs on every frame. */
  function RunFramesUnguarded(s: ProcessorState, frames: seq<Frame>, st: Stages): ProcessorState
    decreases |frames|
  {
    if frames == [] then s
    else RunFramesUnguarded(TryBlock(s, frames[0], st).(isProcessing := false), frames[1..], st)
  }

  /** While busy a frame is dropped and nothing changes. */
  lemma BusyFrameIgnored(s: ProcessorState, img: Frame, st: Stages)
    requires s.isProcessing
    ensures RunFrame(s, img, st) == s
  {
  }

  /**
   * Nothing sets the busy flag, so from an idle processor the early return never fires: a run of
   * frames is the try block applied to each frame in turn, ending idle.
   */
  lemma {:induction false} GuardNeverFires(s: ProcessorState, frames: seq<Frame>, st: Stages)
    requires !s.isProcessing
    ensures RunFrames(s, frames, st) == RunFramesUnguarded(s, frames, st)
    ensures !RunFrames(s, frames, st).isProcessing
    decreases |frames|
  {
    if frames != [] {
      GuardNeverFires(TryBlock(s, frames[0], st).(isProcessing := false), frames[1..], st);
    }
  }

  /** A new processor handles every frame of a sequence. */
  lemma NewProcessorNeverBusy(frames: seq<Frame>, st: Stages)
    ensures RunFrames(Initial, frames, st) == RunFramesUnguarded(Initial, frames, st)
  {
    GuardNeverFires(Initial, frames, st);
  }

  /** A capture that throws changes nothing but the busy flag. */
  lemma CaptureThrows(s: ProcessorState, img: Frame, st: Stages)
    requires !s.isProcessing
    requires st.captureImage(img).Throws?
    ensures RunFrame(s, img, st) == s.(isProcessing := false)
  {
  }

  /** A threshold that throws leaves only the new captured image behind. */
  lemma ThresholdThrows(s: ProcessorState, img: Frame, st: Stages, image: Raster)
    requires !s.isProcessing
    requires st.captureImage(img) == Ok(image)
    requires st.adaptiveThreshold(image, 8, 20).Throws?
    ensures RunFrame(s, img, st) == s.(isProcessing := false, greyscale := Some(image))
  {
  }

  /** Whatever the later stages do, a captured frame always becomes the greyscale image, unthresholded. */
  lemma GreyscaleIsCapture(s: ProcessorState, img: Frame, st: Stages, image: Raster)
    requires !s.isProcessing
    requires st.captureImage(img) == Ok(image)
    ensures RunFrame(s, img, st).greyscale == Some(image)
  {
  }

  /** No qualifying component: corners and grid lines are cleared, the boxes and extracted image stay stale. */
  lemma NoComponentClearsGeometry(s: ProcessorState, img: Frame, st: Stages, image: Raster, pixels: seq<int>)
    requires !s.isProcessing
    requires st.captureImage(img) == Ok(image)
    requires st.adaptiveThreshold(image, 8, 20) == Ok(pixels)
    requires st.getLargestConnectedComponent(Thresholded(image, pixels), PuzzleComponentOptions(img)) == Ok(None)
    ensures RunFrame(s, img, st) == s.(isProcessing := false, greyscale := Some(image),
      thresholded := Some(Thresholded(image, pixels)), corners := None, gridLines := None)
  {
  }

  /** Corners that fail the sanity check: the same outcome as finding no component. */
  lemma RejectedCornersClearGeometry(s: ProcessorState, img: Frame, st: Stages, image: Raster, pixels: seq<int>,
                                     component: seq<Point>, q: Quad)
    requires !s.isProcessing
    requires st.captureImage(img) == Ok(image)
    requires st.adaptiveThreshold(image, 8, 20) == Ok(pixels)
    requires st.getLargestConnectedComponent(Thresholded(image, pixels), PuzzleComponentOptions(img))
      == Ok(Some(component))
    requires st.getCornerPoints(component) == Ok(q)
    requires !SanityCheckCorners(q)
    ensures RunFrame(s, img, st) == s.(isProcessing := false, greyscale := Some(image),
      thresholded := Some(Thresholded(image, pixels)), corners := None, gridLines := None)
  {
  }

  /** A homography that throws: the corners are already the new ones, the grid lines still the old ones. */
  lemma HomographyThrows(s: ProcessorState, img: Frame, st: Stages, image: Raster, pixels: seq<int>,
                         component: seq<Point>, q: Quad)
    requires !s.isProcessing
    requires st.captureImage(img) == Ok(image)
    requires st.adaptiveThreshold(image, 8, 20) == Ok(pixels)
    requires st.getLargestConnectedComponent(Thresholded(image, pixels), PuzzleComponentOptions(img))
      == Ok(Some(component))
    requires st.getCornerPoints(component) == Ok(q)
    requires SanityCheckCorners(q)
    requires st.findHomographicTransform(ProcessingSize, q).Throws?
    ensures RunFrame(s, img, st) == s.(isProcessing := false, greyscale := Some(image),
      thresholded := Some(Thresholded(image, pixels)), corners := Some(q))
  {
  }

  /** The component search throws: both images are new, while corners and grid lines keep the previous frame's values. */
  lemma ComponentThrows(s: ProcessorState, img: Frame, st: Stages, image: Raster, pixels: seq<int>)
    requires !s.isProcessing
    requires st.captureImage(img) == Ok(image)
    requires st.adaptiveThreshold(image, 8, 20) == Ok(pixels)
    requires st.getLargestConnectedComponent(Thresholded(image, pixels), PuzzleComponentOptions(img)).Throws?
    ensures RunFrame(s, img, st) == s.(isProcessing := false, greyscale := Some(image),
      thresholded := Some(Thresholded(image, pixels)))
  {
  }

  /** The corner estimate throws: as for the component search, the old corners and grid lines stay. */
  lemma CornerPointsThrow(s: ProcessorState, img: Frame, st: Stages, image: Raster, pixels: seq<int>,
                          component: seq<Point>)
    requires !s.isProcessing
    requires st.captureImage(img) == Ok(image)
    requires st.adaptiveThreshold(image, 8, 20) == Ok(pixels)
    requires st.getLargestConnectedComponent(Thresholded(image, pixels), PuzzleComponentOptions(img))
      == Ok(Some(component))
    requires st.getCornerPoints(component).Throws?
    ensures RunFrame(s, img, st) == s.(isProcessing := false, greyscale := Some(image),
      thresholded := Some(Thresholded(image, pixels)))
  {
  }

  /** Rectifying the grey image throws: corners and grid lines are new, the extracted image and boxes stale. */
  lemma GreyExtractionThrows(s: ProcessorState, img: Frame, st: Stages, image: Raster, pixels: seq<int>,
                             component: seq<Point>, q: Quad, transform: Transform)
    requires !s.isProcessing
    requires st.captureImage(img) == Ok(image)
    requires st.adaptiveThreshold(image, 8, 20) == Ok(pixels)
    requires st.getLargestConnectedComponent(Thresholded(image, pixels), PuzzleComponentOptions(img))
      == Ok(Some(component))
    requires st.getCornerPoints(component) == Ok(q)
    requires SanityCheckCorners(q)
    requires st.findHomographicTransform(ProcessingSize, q) == Ok(transform)
    requires st.extractSquareFromRegion(image, ProcessingSize, transform).Throws?
    ensures RunFrame(s, img, st) == s.(isProcessing := false, greyscale := Some(image),
      thresholded := Some(Thresholded(image, pixels)), corners := Some(q),
      gridLines := Some(GridLines(st.transformPoint, transform)))
  {
  }

  /** Rectifying the thresholded image throws: the same fields as when the grey rectification throws. */
  lemma ThresholdedExtractionThrows(s: ProcessorState, img: Frame, st: Stages, image: Raster, pixels: seq<int>,
                                    component: seq<Point>, q: Quad, transform: Transform, extractedGrey: Raster)
    requires !s.isProcessing
    requires st.captureImage(img) == Ok(image)
    requires st.adaptiveThreshold(image, 8, 20) == Ok(pixels)
    requires st.getLargestConnectedComponent(Thresholded(image, pixels), PuzzleComponentOptions(img))
      == Ok(Some(component))
    requires st.getCornerPoints(component) == Ok(q)
    requires SanityCheckCorners(q)
    requires st.findHomographicTransform(ProcessingSize, q) == Ok(transform)
    requires st.extractSquareFromRegion(image, ProcessingSize, transform) == Ok(extractedGrey)
    requires st.extractSquareFromRegion(Thresholded(image, pixels), ProcessingSize, transform).Throws?
    ensures RunFrame(s, img, st) == s.(isProcessing := false, greyscale := Some(image),
      thresholded := Some(Thresholded(image, pixels)), corners := Some(q),
      gridLines := Some(GridLines(st.transformPoint, transform)))
  {
  }

  /** Box extraction throws: the extracted thresholded image is new, the boxes are the previous frame's. */
  lemma ExtractBoxesThrows(s: ProcessorState, img: Frame, st: Stages, image: Raster, pixels: seq<int>,
                           component: seq<Point>, q: Quad, transform: Transform,
                           extractedGrey: Raster, extractedThresholded: Raster)
    requires !s.isProcessing
    requires st.captureImage(img) == Ok(image)
    requires st.adaptiveThreshold(image, 8, 20) == Ok(pixels)
    requires st.getLargestConnectedComponent(Thresholded(image, pixels), PuzzleComponentOptions(img))
      == Ok(Some(component))
    requires st.getCornerPoints(component) == Ok(q)
    requires SanityCheckCorners(q)
    requires st.findHomographicTransform(ProcessingSize, q) == Ok(transform)
    requires st.extractSquareFromRegion(image, ProcessingSize, transform) == Ok(extractedGrey)
    requires st.extractSquareFromRegion(Thresholded(image, pixels), ProcessingSize, transform)
      == Ok(extractedThresholded)
    requires st.extractBoxes(extractedGrey, extractedThresholded).Throws?
    ensures RunFrame(s, img, st) == s.(isProcessing := false, greyscale := Some(image),
      thresholded := Some(Thresholded(image, pixels)), corners := Some(q),
      extractedImageThresholded := Some(extractedThresholded),
      gridLines := Some(GridLines(st.transformPoint, transform)))
  {
  }

  /** The classifier throws: every field is new, and the boxes are the extracted ones without predictions. */
  lemma ClassifierThrows(s: ProcessorState, img: Frame, st: Stages, image: Raster, pixels: seq<int>,
                         component: seq<Point>, q: Quad, transform: Transform,
                         extractedGrey: Raster, extractedThresholded: Raster, boxes: seq<PuzzleBox>)
    requires !s.isProcessing
    requires st.captureImage(img) == Ok(image)
    requires st.adaptiveThreshold(image, 8, 20) == Ok(pixels)
    requires st.getLargestConnectedComponent(Thresholded(image, pixels), PuzzleComponentOptions(img))
      == Ok(Some(component))
    requires st.getCornerPoints(component) == Ok(q)
    requires SanityCheckCorners(q)
    requires st.findHomographicTransform(ProcessingSize, q) == Ok(transform)
    requires st.extractSquareFromRegion(image, ProcessingSize, transform) == Ok(extractedGrey)
    requires st.extractSquareFromRegion(Thresholded(image, pixels), ProcessingSize, transform)
      == Ok(extractedThresholded)
    requires st.extractBoxes(extractedGrey, extractedThresholded) == Ok(boxes)
    requires st.fillInPrediction(boxes).Throws?
    ensures RunFrame(s, img, st) == ProcessorState(
      false, Some(q), Some(image), Some(Thresholded(image, pixels)), Some(extractedThresholded),
      boxes, Some(GridLines(st.transformPoint, transform)))
  {
  }

  /**
   * A run in which every stage returns: every field is overwritten. The boxes come from both
   * images rectified by the one transform that also placed the grid lines, and carry the predictions.
   */
  lemma SuccessfulRun(s: ProcessorState, img: Frame, st: Stages, image: Raster, pixels: seq<int>,
                      component: seq<Point>, q: Quad, transform: Transform,
                      extractedGrey: Raster, extractedThresholded: Raster,
                      boxes: seq<PuzzleBox>, predictions: seq<Option<int>>)
    requires !s.isProcessing
    requires st.captureImage(img) == Ok(image)
    requires st.adaptiveThreshold(image, 8, 20) == Ok(pixels)
    requires st.getLargestConnectedComponent(Thresholded(image, pixels), PuzzleComponentOptions(img))
      == Ok(Some(component))
    requires st.getCornerPoints(component) == Ok(q)
    requires SanityCheckCorners(q)
    requires st.findHomographicTransform(ProcessingSize, q) == Ok(transform)
    requires st.extractSquareFromRegion(image, ProcessingSize, transform) == Ok(extractedGrey)
    requires st.extractSquareFromRegion(Thresholded(image, pixels), ProcessingSize, transform)
      == Ok(extractedThresholded)
    requires st.extractBoxes(extractedGrey, extractedThresholded) == Ok(boxes)
    requires st.fillInPrediction(boxes) == Ok(predictions)
    ensures RunFrame(s, img, st) == ProcessorState(
      false, Some(q), Some(image), Some(Thresholded(image, pixels)), Some(extractedThresholded),
      WithPredictions(boxes, predictions), Some(GridLines(st.transformPoint, transform)))
  {
  }

  class Processor {
    var isProcessing: bool
    var corners: Option<Quad>
    var greyscale: GreyImage?
    var thresholded: GreyImage?
    var extractedImageThresholded: Option<Raster>
    var boxes: seq<PuzzleBox>
    var gridLines: Option<seq<GridLine>>

    /** The thresholded image is never the captured image object itself. */
    predicate Valid()
      reads this
    {
      greyscale == null || greyscale != thresholded
    }

    function Model(): ProcessorState
      reads this, greyscale, thresholded
    {
      ProcessorState(
        isProcessing, corners,
        if greyscale == null then None else Some(greyscale.View()),
        if thresholded == null then None else Some(thresholded.View()),
        extractedImageThresholded, boxes, gridLines)
    }

    constructor ()
      ensures Valid() && Model() == Initial
    {
      isProcessing, corners, greyscale, thresholded := false, None, null, null;
      extractedImageThresholded, boxes, gridLines := None, [], None;
    }

    /** processFrame, with the labelled block standing for the try block and its catch-all. */
    method ProcessFrame(img: Frame, st: Stages)
      requires Valid()
      modifies this
      ensures Valid()
      ensures Model() == RunFrame(old(Model()), img, st)
      ensures greyscale != old(greyscale) ==> fresh(greyscale)
      ensures thresholded != old(thresholded) ==> fresh(thresholded)
    {
      if isProcessing {
        return;
      }
      ghost var s0 := Model();
      label try: {
        var captured := st.captureImage(img);
        if captured.Throws? {
          break try;
        }
        var image := new GreyImage(captured.value);
        greyscale := image;
        var copy := image.Clone();
        var thresholdedPixels := st.adaptiveThreshold(copy.View(), 8, 20);
        if thresholdedPixels.Throws? {
          break try;
        }
        copy.Overwrite(thresholdedPixels.value);
        thresholded := copy;
        var largestConnectedComponent :=
          st.getLargestConnectedComponent(thresholded.View(), PuzzleComponentOptions(img));
        if largestConnectedComponent.Throws? {
          break try;
        }
        if largestConnectedComponent.value.None? {
          corners, gridLines := None, None;
          break try;
        }
        var potentialCorners := st.getCornerPoints(largestConnectedComponent.value.value);
        if potentialCorners.Throws? {
          break try;
        }
        if !SanityCheckCorners(potentialCorners.value) {
          corners, gridLines := None, None;
          break try;
        }
        corners := Some(potentialCorners.value);
        var transform := st.findHomographicTransform(ProcessingSize, potentialCorners.value);
        if transform.Throws? {
          break try;
        }
        var lines := CreateGridLines(transform.value, st.transformPoint);
        gridLines := Some(lines);
        var extractedImageGreyScale := st.extractSquareFromRegion(image.View(), ProcessingSize, transform.value);
        if extractedImageGreyScale.Throws? {
          break try;
        }
        var extracted := st.extractSquareFromRegion(thresholded.View(), ProcessingSize, transform.value);
        if extracted.Throws? {
          break try;
        }
        extractedImageThresholded := Some(extracted.value);
        var found := st.extractBoxes(extractedImageGreyScale.value, extracted.value);
        if found.Throws? {
          break try;
        }
        boxes := found.value;
        var predictions := st.fillInPrediction(found.value);
        if predictions.Throws? {
          break try;
        }
        boxes := WithPredictions(found.value, predictions.value);
      }
      isProcessing := false;
    }
  }
}
