/**
 * The image-processing and recognition stages that Processor imports
 * (captureImage, adaptiveThreshold, getLargestConnectedComponent, getCornerPoints,
 * findHomographicTransform, transformPoint, extractSquareFromRegion, extractBoxes,
 * fillInPrediction) and the values they exchange.
 *
 * Their implementations are not part of this model. Each stage is a field of `Stages`, a
 * function value the caller supplies. The model fixes no result of any stage; each stage either
 * returns a value or throws (`Attempt`), except `transformPoint`, which always returns a point.
 * Stages receive images as values, so none but the thresholding changes an image in place.
 */
module ImageProcessing {
  import opened Wrappers
  import opened Geometry

  /** The pixels of a greyscale image, one byte per pixel, row by row. */
  datatype Raster = Raster(width: nat, height: nat, bytes: seq<int>)

  /** The HTML image element a frame is captured from (its size is read by processFrame). */
  datatype Frame = Frame(width: nat, height: nat, rgba: seq<int>)

  /** The acceptance window handed to getLargestConnectedComponent. */
  datatype ComponentOptions = ComponentOptions(
    minAspectRatio: real, maxAspectRatio: real, minSize: real, maxSize: real)

  /** The projective transform from the canonical square to the frame; its coefficients are opaque here. */
  datatype Transform = Transform(coefficients: seq<real>)

  /** One detected cell: its column x, its row y and the recognised digit, absent until classified. */
  datatype PuzzleBox = PuzzleBox(x: int, y: int, contents: Option<int>)

  /** The injected stages, in the order processFrame calls them. */
  datatype Stages = Stages(
    captureImage: Frame -> Attempt<Raster>,
    // thresholds the image it is given in place; the result is the new pixel buffer
    adaptiveThreshold: (Raster, int, int) -> Attempt<seq<int>>,
    // None: no component qualified
    getLargestConnectedComponent: (Raster, ComponentOptions) -> Attempt<Option<seq<Point>>>,
    getCornerPoints: seq<Point> -> Attempt<Quad>,
    findHomographicTransform: (int, Quad) -> Attempt<Transform>,
    // assumed never to throw
    transformPoint: (Point, Transform) -> Point,
    extractSquareFromRegion: (Raster, int, Transform) -> Attempt<Raster>,
    extractBoxes: (Raster, Raster) -> Attempt<seq<PuzzleBox>>,
    // one prediction per box, in box order
    fillInPrediction: seq<PuzzleBox> -> Attempt<seq<Option<int>>>)

  /**
   * A greyscale image object (Image). Its buffer can be changed in place, which is why
   * processFrame thresholds a clone and not the captured image itself.
   */
  class GreyImage {
    const width: nat
    const height: nat
    var bytes: seq<int>

    constructor (r: Raster)
      ensures View() == r
    {
      width, height, bytes := r.width, r.height, r.bytes;
    }

    /** The current pixels of this image, as a value. */
    function View(): (r: Raster)
      reads this
      ensures r.width == width && r.height == height && r.bytes == bytes
    {
      Raster(width, height, bytes)
    }

    /** A fresh image with the same pixels: changing one never changes the other. */
    method Clone() returns (c: GreyImage)
      ensures fresh(c) && c.View() == View()
    {
      c := new GreyImage(View());
    }

    /** Replaces the pixels, keeping the size (what an in-place stage does to its argument). */
    method Overwrite(pixels: seq<int>)
      modifies this
      ensures View() == Raster(width, height, pixels)
    {
      bytes := pixels;
    }
  }

  /** The box list after fillInPrediction has written prediction i into box i; positions are untouched. */
  function WithPredictions(boxes: seq<PuzzleBox>, predictions: seq<Option<int>>): (r: seq<PuzzleBox>)
    ensures |r| == |boxes|
    ensures forall i :: 0 <= i < |r| ==> r[i].x == boxes[i].x && r[i].y == boxes[i].y
    ensures forall i :: 0 <= i < |r| && i < |predictions| ==> r[i].contents == predictions[i]
    ensures forall i :: |predictions| <= i < |r| ==> r[i] == boxes[i]
  {
    if boxes == [] then []
    else if predictions == [] then boxes
    else [boxes[0].(contents := predictions[0])] + WithPredictions(boxes[1..], predictions[1..])
  }
}
