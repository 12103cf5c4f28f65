/**
 * `getDigits` of the DrawSudoku component: the 9 x 9 digit grid handed to the solver, built
 * from the detected PuzzleBox list by looking each cell up with `Array.prototype.find`.
 */
module DrawSudoku {
  import opened Wrappers
  import opened ImageProcessing

  /** A grid of digits; `None` is the source's `null`. */
  type DigitGrid = seq<seq<Option<int>>>

  predicate IsGrid(g: DigitGrid)
  {
    |g| == 9 && forall r :: 0 <= r < 9 ==> |g[r]| == 9
  }

  /** The find predicate `pb.y === rowIndex && pb.x == colIndex`. */
  predicate At(b: PuzzleBox, row: int, col: int)
  {
    b.y == row && b.x == col
  }

  /** JavaScript truthiness of `contents`: an absent digit and 0 are falsy. */
  predicate Truthy(contents: Option<int>)
  {
    contents.Some? && contents.value != 0
  }

  /** Box i is the first box of the list at (row, col). */
  predicate FirstAt(boxes: seq<PuzzleBox>, i: int, row: int, col: int)
  {
    0 <= i < |boxes| && At(boxes[i], row, col) && forall j :: 0 <= j < i ==> !At(boxes[j], row, col)
  }

  predicate NoBoxAt(boxes: seq<PuzzleBox>, row: int, col: int)
  {
    forall i :: 0 <= i < |boxes| ==> !At(boxes[i], row, col)
  }

  /** `puzzleBoxes.find(...)`: the first box at (row, col) in list order, if any. */
  function Find(boxes: seq<PuzzleBox>, row: int, col: int): (found: Option<PuzzleBox>)
    ensures found.None? <==> NoBoxAt(boxes, row, col)
    ensures found.Some? ==> exists i :: FirstAt(boxes, i, row, col) && boxes[i] == found.value
  {
    if boxes == [] then None
    else if At(boxes[0], row, col) then Some(boxes[0])
    else
      var rest := Find(boxes[1..], row, col);
      assert rest.Some? ==> exists i :: FirstAt(boxes[1..], i, row, col) && boxes[1..][i] == rest.value;
      assert forall i :: FirstAt(boxes[1..], i, row, col) ==> FirstAt(boxes, i + 1, row, col);
      rest
  }

  /** `detectedDigit?.contents || null` for the cell (row, col). */
  function Cell(boxes: seq<PuzzleBox>, row: int, col: int): (d: Option<int>)
    ensures d.Some? ==> Truthy(d) && exists i :: FirstAt(boxes, i, row, col) && boxes[i].contents == d
    ensures d.None? ==>
      NoBoxAt(boxes, row, col) || exists i :: FirstAt(boxes, i, row, col) && !Truthy(boxes[i].contents)
  {
    var found := Find(boxes, row, col);
    var contents := if found.Some? then found.value.contents else None;
    if Truthy(contents) then contents else None
  }

  /** The grid getDigits builds: rows are y, columns are x. */
  function Grid(boxes: seq<PuzzleBox>): (g: DigitGrid)
    ensures IsGrid(g)
  {
    seq(9, r => seq(9, c => Cell(boxes, r, c)))
  }

  /** getDigits: nested loops pushing one looked-up entry per cell. */
  method GetDigits(puzzleBoxes: seq<PuzzleBox>) returns (rows: DigitGrid)
    ensures |rows| == 9 && forall r :: 0 <= r < 9 ==> |rows[r]| == 9
    ensures forall r, c :: 0 <= r < 9 && 0 <= c < 9 ==> rows[r][c] == Cell(puzzleBoxes, r, c)
    ensures rows == Grid(puzzleBoxes)
  {
    rows := [];
    for rowIndex := 0 to 9
      invariant |rows| == rowIndex
      invariant forall r :: 0 <= r < rowIndex ==> rows[r] == Grid(puzzleBoxes)[r]
    {
      var row: seq<Option<int>> := [];
      for colIndex := 0 to 9
        invariant |row| == colIndex
        invariant forall c :: 0 <= c < colIndex ==> row[c] == Cell(puzzleBoxes, rowIndex, c)
      {
        var detectedDigit := Find(puzzleBoxes, rowIndex, colIndex);
        var contents := if detectedDigit.Some? then detectedDigit.value.contents else None;
        row := row + [if Truthy(contents) then contents else None];
      }
      rows := rows + [row];
    }
  }

  /** The entry of a cell is decided by the first box at that cell, whatever follows it. */
  lemma FirstMatchDecides(boxes: seq<PuzzleBox>, row: int, col: int, i: int)
    requires FirstAt(boxes, i, row, col)
    ensures Cell(boxes, row, col) == if Truthy(boxes[i].contents) then boxes[i].contents else None
  {
  }

  /** A cell is null exactly when no box is at it or the first box there has a falsy digit. */
  lemma CellNullIff(boxes: seq<PuzzleBox>, row: int, col: int)
    ensures Cell(boxes, row, col).None? <==>
      NoBoxAt(boxes, row, col) || exists i :: FirstAt(boxes, i, row, col) && !Truthy(boxes[i].contents)
  {
  }

  /** Looking up in a list with one more box at the end: the old first match, else the new box. */
  lemma {:induction false} FindAppend(boxes: seq<PuzzleBox>, b: PuzzleBox, row: int, col: int)
    ensures Find(boxes + [b], row, col) ==
      if Find(boxes, row, col).Some? then Find(boxes, row, col)
      else if At(b, row, col) then Some(b) else None
  {
    if boxes != [] {
      assert (boxes + [b])[1..] == boxes[1..] + [b];
      FindAppend(boxes[1..], b, row, col);
    }
  }

  /** Appending a box at a cell that already has one leaves the grid unchanged: the first match wins. */
  lemma DuplicateAppendIgnored(boxes: seq<PuzzleBox>, b: PuzzleBox)
    requires exists i :: 0 <= i < |boxes| && boxes[i].x == b.x && boxes[i].y == b.y
    ensures Grid(boxes + [b]) == Grid(boxes)
  {
    forall r, c | 0 <= r < 9 && 0 <= c < 9
      ensures Cell(boxes + [b], r, c) == Cell(boxes, r, c)
    {
      FindAppend(boxes, b, r, c);
    }
    SameCellsSameGrid(boxes + [b], boxes);
  }

  /** Grids built from two box lists are equal when every cell is. */
  lemma SameCellsSameGrid(a: seq<PuzzleBox>, b: seq<PuzzleBox>)
    requires forall r, c :: 0 <= r < 9 && 0 <= c < 9 ==> Cell(a, r, c) == Cell(b, r, c)
    ensures Grid(a) == Grid(b)
  {
    forall r | 0 <= r < 9
      ensures Grid(a)[r] == Grid(b)[r]
    {
      assert forall c :: 0 <= c < 9 ==> Grid(a)[r][c] == Cell(a, r, c);
    }
  }

  predicate InGrid(b: PuzzleBox)
  {
    0 <= b.x < 9 && 0 <= b.y < 9
  }

  /** The boxes whose position lies on the 9 x 9 grid, in their original order. */
  function OnGrid(boxes: seq<PuzzleBox>): (r: seq<PuzzleBox>)
    ensures forall i :: 0 <= i < |r| ==> InGrid(r[i])
  {
    if boxes == [] then []
    else if InGrid(boxes[0]) then [boxes[0]] + OnGrid(boxes[1..])
    else OnGrid(boxes[1..])
  }

  lemma {:induction false} FindOnGrid(boxes: seq<PuzzleBox>, row: int, col: int)
    requires 0 <= row < 9 && 0 <= col < 9
    ensures Find(OnGrid(boxes), row, col) == Find(boxes, row, col)
  {
    if boxes != [] {
      FindOnGrid(boxes[1..], row, col);
      if InGrid(boxes[0]) {
        assert ([boxes[0]] + OnGrid(boxes[1..]))[1..] == OnGrid(boxes[1..]);
      }
    }
  }

  /** Boxes with x or y outside 0..8 never affect the grid. */
  lemma OffGridBoxesIgnored(boxes: seq<PuzzleBox>)
    ensures Grid(OnGrid(boxes)) == Grid(boxes)
  {
    forall r, c | 0 <= r < 9 && 0 <= c < 9
      ensures Cell(OnGrid(boxes), r, c) == Cell(boxes, r, c)
    {
      FindOnGrid(boxes, r, c);
    }
    SameCellsSameGrid(OnGrid(boxes), boxes);
  }

  /** The number of boxes whose digit is truthy. */
  function TruthyCount(boxes: seq<PuzzleBox>): nat
  {
    if boxes == [] then 0
    else TruthyCount(boxes[..|boxes| - 1]) + (if Truthy(boxes[|boxes| - 1].contents) then 1 else 0)
  }

  /** The number of non-null entries among the first k cells, in row-major order. */
  function CountBefore(g: DigitGrid, k: nat): nat
    requires IsGrid(g) && k <= 81
  {
    if k == 0 then 0
    else CountBefore(g, k - 1) + (if g[(k - 1) / 9][(k - 1) % 9].Some? then 1 else 0)
  }

  function NonNullCount(g: DigitGrid): nat
    requires IsGrid(g)
  {
    CountBefore(g, 81)
  }

  /** Two grids that agree everywhere except at cell (r0, c0) differ in count by that cell only. */
  lemma {:induction false} CountOneCellChange(g: DigitGrid, h: DigitGrid, r0: int, c0: int, k: nat)
    requires IsGrid(g) && IsGrid(h) && k <= 81
    requires 0 <= r0 < 9 && 0 <= c0 < 9
    requires forall r, c :: 0 <= r < 9 && 0 <= c < 9 && (r, c) != (r0, c0) ==> h[r][c] == g[r][c]
    ensures CountBefore(h, k) + (if 9 * r0 + c0 < k && g[r0][c0].Some? then 1 else 0)
         == CountBefore(g, k) + (if 9 * r0 + c0 < k && h[r0][c0].Some? then 1 else 0)
  {
    if k > 0 {
      CountOneCellChange(g, h, r0, c0, k - 1);
      var r, c := (k - 1) / 9, (k - 1) % 9;
      assert 9 * r + c == k - 1;
      if (r, c) != (r0, c0) {
        assert h[r][c] == g[r][c];
      }
    }
  }

  lemma {:induction false} CountSameGrid(g: DigitGrid, h: DigitGrid, k: nat)
    requires IsGrid(g) && IsGrid(h) && k <= 81
    requires forall r, c :: 0 <= r < 9 && 0 <= c < 9 ==> h[r][c] == g[r][c]
    ensures CountBefore(h, k) == CountBefore(g, k)
  {
    if k > 0 {
      CountSameGrid(g, h, k - 1);
    }
  }

  /** Adding one box adds at most one non-null entry, and only when its digit is truthy. */
  lemma AppendCount(boxes: seq<PuzzleBox>, b: PuzzleBox)
    ensures NonNullCount(Grid(boxes + [b])) <= NonNullCount(Grid(boxes)) + (if Truthy(b.contents) then 1 else 0)
  {
    var g, h := Grid(boxes), Grid(boxes + [b]);
    forall r, c | 0 <= r < 9 && 0 <= c < 9
      ensures h[r][c] == (if At(b, r, c) && Find(boxes, r, c).None? && Truthy(b.contents) then b.contents else g[r][c])
    {
      FindAppend(boxes, b, r, c);
    }
    if InGrid(b) {
      CountOneCellChange(g, h, b.y, b.x, 81);
    } else {
      CountSameGrid(g, h, 81);
    }
  }

  /** The grid has at most as many digits as there are boxes with a truthy digit. */
  lemma {:induction false} NonNullAtMostTruthy(boxes: seq<PuzzleBox>)
    ensures NonNullCount(Grid(boxes)) <= TruthyCount(boxes)
  {
    if boxes == [] {
      EmptyGridCount(81);
    } else {
      var init, b := boxes[..|boxes| - 1], boxes[|boxes| - 1];
      assert boxes == init + [b];
      NonNullAtMostTruthy(init);
      AppendCount(init, b);
    }
  }

  lemma {:induction false} EmptyGridCount(k: nat)
    requires k <= 81
    ensures CountBefore(Grid([]), k) == 0
  {
    if k > 0 {
      EmptyGridCount(k - 1);
    }
  }
}
