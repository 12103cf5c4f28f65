/**
 * Points and shapes shared by the augmented-reality pipeline
 * (`Point` of getLargestConnectedComponent, the corner record and grid lines of Processor).
 * Coordinates are exact reals: the floating-point rounding, NaN and Infinity of the source are not modelled.
 */
module Geometry {

  /** A point in source-image space or in the canonical puzzle square. */
  datatype Point = Point(x: real, y: real)

  /** The four detected corners of the puzzle, in source-image space. */
  datatype Quad = Quad(topLeft: Point, topRight: Point, bottomLeft: Point, bottomRight: Point)

  /** A grid line of the overlay, from `p1` to `p2`. */
  datatype GridLine = GridLine(p1: Point, p2: Point)

  /** Side of the rectified square image, in pixels (PROCESSING_SIZE). */
  const ProcessingSize: int := 900

  /** Side of one of the 9 x 9 cells of the rectified square (PROCESSING_SIZE / 9). */
  const BoxSize: real := ProcessingSize as real / 9.0

  /** The division is exact: a cell is 100 pixels wide, the value the grid and text positions use. */
  lemma BoxSizeIsHundred()
    ensures BoxSize == 100.0
  {
  }

  /** The squared Euclidean distance between two points (the square of `length` in Processor). */
  function SquaredDistance(p: Point, q: Point): (d: real)
    ensures d >= 0.0
  {
    var dx := p.x - q.x;
    var dy := p.y - q.y;
    SquareNonNegative(dx);
    SquareNonNegative(dy);
    dx * dx + dy * dy
  }

  lemma SquareNonNegative(v: real)
    ensures v * v >= 0.0
  {
  }
}
