/**
 * The overlay geometry of Processor: the grid lines (`createGridLines`) and the place of a
 * digit in a cell (`getTextDetailsForBox`), both taken in the canonical 900 x 900 puzzle square
 * and mapped to the frame by the homography's `transformPoint`.
 */
module GridGeometry {
  import opened Geometry
  import opened ImageProcessing

  /** Maps both ends of a canonical line to the frame. */
  function MapLine(line: GridLine, transformPoint: (Point, Transform) -> Point, transform: Transform): GridLine
  {
    GridLine(transformPoint(line.p1, transform), transformPoint(line.p2, transform))
  }

  /**
   * The i-th grid line in canonical coordinates, 0 <= i < 16: for l = i / 2 + 1 the
   * even entries are the horizontal line y = 100 l and the odd ones the vertical line x = 100 l,
   * each spanning the whole square. The square's own border (l = 0 and l = 9) is not drawn.
   */
  function CanonicalGridLine(i: nat): GridLine
  {
    var offset := 100.0 * (i / 2 + 1) as real;
    if i % 2 == 0 then GridLine(Point(0.0, offset), Point(900.0, offset))
    else GridLine(Point(offset, 0.0), Point(offset, 900.0))
  }

  /** The 16 grid lines in frame space, in the order createGridLines pushes them. */
  function GridLines(transformPoint: (Point, Transform) -> Point, transform: Transform): (r: seq<GridLine>)
  {
    seq(16, i requires 0 <= i < 16 => MapLine(CanonicalGridLine(i), transformPoint, transform))
  }

  /** createGridLines: for l = 1 .. 8, push the horizontal line at l boxes, then the vertical one. */
  method CreateGridLines(transform: Transform, transformPoint: (Point, Transform) -> Point)
    returns (gridLines: seq<GridLine>)
    ensures |gridLines| == 16
    ensures forall i :: 0 <= i < 16 ==>
      gridLines[i] == MapLine(CanonicalGridLine(i), transformPoint, transform)
    ensures gridLines == GridLines(transformPoint, transform)
  {
    var boxSize := BoxSize;
    BoxSizeIsHundred();
    gridLines := [];
    var l := 1;
    while l < 9
      invariant 1 <= l <= 9
      invariant boxSize == 100.0
      invariant |gridLines| == 2 * (l - 1)
      invariant forall i :: 0 <= i < |gridLines| ==>
        gridLines[i] == MapLine(CanonicalGridLine(i), transformPoint, transform)
    {
      GridLinePair(l);
      assert l as real * boxSize == 100.0 * l as real;
      // horizontal line
      gridLines := gridLines + [GridLine(
        transformPoint(Point(0.0, l as real * boxSize), transform),
        transformPoint(Point(ProcessingSize as real, l as real * boxSize), transform))];
      // vertical line
      gridLines := gridLines + [GridLine(
        transformPoint(Point(l as real * boxSize, 0.0), transform),
        transformPoint(Point(l as real * boxSize, ProcessingSize as real), transform))];
      l := l + 1;
    }
  }

  /** Grid line l (1 <= l <= 8) as the pair of entries 2(l - 1) and 2(l - 1) + 1. */
  lemma GridLinePair(l: int)
    requires 1 <= l <= 8
    ensures CanonicalGridLine(2 * (l - 1)) == GridLine(Point(0.0, 100.0 * l as real), Point(900.0, 100.0 * l as real))
    ensures CanonicalGridLine(2 * (l - 1) + 1) == GridLine(Point(100.0 * l as real, 0.0), Point(100.0 * l as real, 900.0))
  {
  }

  /** Every grid line crosses the square from border to border, strictly inside it, along an axis. */
  lemma CanonicalGridLinesInside(i: nat)
    requires i < 16
    ensures var line := CanonicalGridLine(i);
      if i % 2 == 0 then line.p1.y == line.p2.y && 0.0 < line.p1.y < 900.0 && line.p1.x == 0.0 && line.p2.x == 900.0
      else line.p1.x == line.p2.x && 0.0 < line.p1.x < 900.0 && line.p1.y == 0.0 && line.p2.y == 900.0
  {
  }

  /** With the identity transform the overlay is the canonical grid itself. */
  lemma GridLinesUnderIdentity(transform: Transform)
    ensures forall i :: 0 <= i < 16 ==> GridLines((p: Point, t: Transform) => p, transform)[i] == CanonicalGridLine(i)
  {
  }

  /**
   * The position/digit part of a SolvedBox (getTextDetailsForBox). digitRotation and digitHeight
   * are atan2 and sqrt of the axis vector (axisDx, axisDy) and are not computed here.
   */
  datatype SolvedBox = SolvedBox(isKnown: bool, digit: int, position: Point, axisDx: real, axisDy: real)

  /** The centre of cell (x, y) in canonical coordinates. */
  function CellCentre(x: int, y: int): Point
  {
    Point((x as real + 0.5) * 100.0, (y as real + 0.5) * 100.0)
  }

  function GetTextDetailsForBox(x: int, y: int, digit: int, isKnown: bool, transform: Transform,
                                transformPoint: (Point, Transform) -> Point): (r: SolvedBox)
    ensures r.digit == digit && r.isKnown == isKnown
    ensures r.position == transformPoint(CellCentre(x, y), transform)
    // the vertical line through the cell, from its top edge to its bottom edge, mapped to the frame
    ensures var top := transformPoint(Point((x as real + 0.5) * 100.0, y as real * 100.0), transform);
            var bottom := transformPoint(Point((x as real + 0.5) * 100.0, (y + 1) as real * 100.0), transform);
            r.axisDx == top.x - bottom.x && r.axisDy == top.y - bottom.y
  {
    var boxSize := BoxSize;
    BoxSizeIsHundred();
    var p1 := transformPoint(Point((x as real + 0.5) * boxSize, y as real * boxSize), transform);
    var p2 := transformPoint(Point((x as real + 0.5) * boxSize, (y as real + 1.0) * boxSize), transform);
    var centre := Point((x as real + 0.5) * boxSize, (y as real + 0.5) * boxSize);
    assert centre == CellCentre(x, y);
    var textPosition := transformPoint(centre, transform);
    SolvedBox(isKnown, digit, textPosition, p1.x - p2.x, p1.y - p2.y)
  }

  /** With the identity transform a digit sits upright at its cell centre, one box tall. */
  lemma TextDetailsUnderIdentity(x: int, y: int, digit: int, isKnown: bool, transform: Transform)
    ensures var r := GetTextDetailsForBox(x, y, digit, isKnown, transform, (p: Point, t: Transform) => p);
      r.position == Point(100.0 * x as real + 50.0, 100.0 * y as real + 50.0) && r.axisDx == 0.0 && r.axisDy == -100.0
  {
  }
}
