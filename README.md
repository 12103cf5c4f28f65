# auto-sudoku: the augmented-reality processor and the digit grid, in Dafny

This project models the decision and orchestration logic of auto-sudoku's in-browser
augmented-reality pipeline, and the function that turns detected puzzle boxes into the grid sent to
the solver:

- **Corner sanity check** (`sanityCheckCorners`). A detected quad is rejected when its top side is
  outside [0.5, 1.5] times its bottom side, its left side is outside [0.7, 1.3] times its right side,
  or its left side is outside [0.5, 1.5] times its bottom side. The rule is stated on the four side
  lengths (`CornerCheck.SideLengthsPlausible`). It is decided on a quad by comparing squared lengths
  (`CornerCheck.SanityCheckCorners`). A lemma proves the two agree whenever the lengths are the
  square roots of the squared sides.
- **Frame processing** (`Processor.processFrame`). The image-processing and recognition stages the
  processor calls are injected as function values (`ImageProcessing.Stages`). Capture, adaptive
  threshold, connected component, corner points, homography, rectification, box extraction and the
  digit classifier each either return or throw. `transformPoint` always returns a point.
  - `AugmentedReality.Processor` is a class with the source's fields.
  - Its `ProcessFrame` runs the stages in order, with a labelled block standing for the try/catch.
    It thresholds a clone of the captured image (`ImageProcessing.GreyImage.Clone`).
  - `ProcessFrame` is proved to leave exactly the state given by the functional specification
    `AugmentedReality.RunFrame`. Lemmas about `RunFrame` state what each path leaves behind: the busy
    guard; a throw at each of the nine stage calls that can throw; no component found; corners rejected;
    and a full run.
  - Nothing ever sets the busy flag. So from an idle processor the early return never fires, and
    every frame runs the full try block.
- **Overlay geometry** (`createGridLines`, and the position, digit and known-flag part of
  `getTextDetailsForBox`). Canonical coordinates in the 900 x 900 square (a box is 100 wide) are
  pushed through the abstract `transformPoint`.
- **Digit grid** (`getDigits` in DrawSudoku). The 9 x 9 grid is built by a first-match lookup of each
  cell in the box list. JavaScript truthiness makes a 0 digit, like an absent one, come out as `null`
  (`None`).

Files:
- `wrappers.dfy`: `Option` for nullable values, `Attempt` for a stage that returns or throws.
- `geometry.dfy`: points, quads, grid lines and the processing size.
- `image_processing.dfy`: the values the stages exchange, the `Stages` record, the `GreyImage` class
  and the prediction write-back.
- `corner_check.dfy`: the sanity check.
- `grid_geometry.dfy`: grid lines and text placement.
- `processor.dfy`: the processor state machine.
- `draw_sudoku.dfy`: `getDigits`.

## Model

| member | source | states |
|---|---|---|
| Geometry.SquaredDistance | auto-sudoku/src/augmentedReality/Processor.ts:247-251 | the square of the `length` helper's distance is never negative |
| CornerCheck.SideLengthsPlausible | auto-sudoku/src/augmentedReality/Processor.ts:255-270 | the three rejection tests accept exactly when top is in [0.5b, 1.5b], left is in [0.7r, 1.3r] and left is in [0.5b, 1.5b]; the bounds are inclusive because the rejections use strict comparisons |
| CornerCheck.SanityCheckCorners | auto-sudoku/src/augmentedReality/Processor.ts:235-271 | on a quad, accepts exactly when the squared sides satisfy the squared bounds (0.25/2.25, 0.49/1.69, 0.25/2.25) |
| CornerCheck.RatioTestBySquares | auto-sudoku/src/augmentedReality/Processor.ts:255-270 | for non-negative a and b and positive k, `a < k*b` holds iff `a*a < k*k*b*b`, and likewise for `>`; this is what lets the check be decided without square roots |
| CornerCheck.SanityCheckCornersOnLengths | auto-sudoku/src/augmentedReality/Processor.ts:247-270 | given side lengths whose squares are the squared sides, the check on squares decides exactly as the source's check on lengths |
| CornerCheck.EqualSidesAccepted | auto-sudoku/src/augmentedReality/Processor.ts:255-270 | a quad whose four sides have equal length passes all three tests |
| CornerCheck.AxisAlignedSquareAccepted | auto-sudoku/src/augmentedReality/Processor.ts:255-270 | an axis-aligned square of any side is accepted |
| CornerCheck.TopThreeTimesBottomRejected | auto-sudoku/src/augmentedReality/Processor.ts:255-259 | a top side three times a positive bottom side fails the first test, whatever the other sides are |
| CornerCheck.TopThreeTimesBottomQuadRejected | auto-sudoku/src/augmentedReality/Processor.ts:255-259 | a quad whose squared top is nine times its positive squared bottom is rejected |
| CornerCheck.CollapsedQuadAccepted | auto-sudoku/src/augmentedReality/Processor.ts:255-270 | the tests are ratios only, so four identical corners (all sides 0) are accepted |
| ImageProcessing.GreyImage.constructor | auto-sudoku/src/augmentedReality/Processor.ts:70-71 | the new image holds the captured pixels |
| ImageProcessing.GreyImage.Clone | auto-sudoku/src/augmentedReality/Processor.ts:77 | `image.clone()` is a fresh object with the same pixels |
| ImageProcessing.GreyImage.Overwrite | auto-sudoku/src/augmentedReality/Processor.ts:77 | thresholding in place replaces the pixels of the image it is given and keeps its size |
| ImageProcessing.WithPredictions | auto-sudoku/src/augmentedReality/Processor.ts:139-149 | after the classifier fills in the boxes, box i carries prediction i, the list length and every box position are unchanged, and boxes without a prediction are untouched |
| GridGeometry.CreateGridLines | auto-sudoku/src/augmentedReality/Processor.ts:170-186 | returns exactly 16 lines; entry i is the canonical line i mapped by the transform (the loop is proved against `GridLines`) |
| GridGeometry.GridLinePair | auto-sudoku/src/augmentedReality/Processor.ts:173-183 | for l = 1..8, entry 2(l-1) is (0, 100l)-(900, 100l) and entry 2(l-1)+1 is (100l, 0)-(100l, 900) |
| GridGeometry.CanonicalGridLinesInside | auto-sudoku/src/augmentedReality/Processor.ts:170-186 | each canonical line is axis-parallel, spans the square border to border and lies strictly inside it |
| GridGeometry.GridLinesUnderIdentity | auto-sudoku/src/augmentedReality/Processor.ts:170-186 | under the identity map the overlay is the canonical grid |
| GridGeometry.GetTextDetailsForBox | auto-sudoku/src/augmentedReality/Processor.ts:196-233 | digit and isKnown are copied unchanged; the position is the transform of the cell centre ((x+0.5)·100, (y+0.5)·100); the axis is the mapped top-edge midpoint minus the mapped bottom-edge midpoint |
| GridGeometry.TextDetailsUnderIdentity | auto-sudoku/src/augmentedReality/Processor.ts:203-221 | under the identity map the text sits at (100x+50, 100y+50) and the axis points straight up, one box long |
| AugmentedReality.RunFrames | auto-sudoku/src/augmentedReality/Processor.ts:62-164 | processing frames one after another from an idle state always ends idle |
| AugmentedReality.Processor.constructor | auto-sudoku/src/augmentedReality/Processor.ts:33-49 | a new processor is idle, with no images, no corners, no grid lines and no boxes |
| AugmentedReality.Processor.ProcessFrame | auto-sudoku/src/augmentedReality/Processor.ts:62-164 | the fields after the call are exactly `RunFrame` of the fields before; the thresholded image stays a different object from the greyscale one; any new image object is fresh |
| AugmentedReality.BusyFrameIgnored | auto-sudoku/src/augmentedReality/Processor.ts:63-66 | while the busy flag is set, a frame changes nothing |
| AugmentedReality.GuardNeverFires | auto-sudoku/src/augmentedReality/Processor.ts:63-163 | from an idle state, a run of frames equals the try block applied to every frame with the flag cleared after each, and ends idle |
| AugmentedReality.NewProcessorNeverBusy | auto-sudoku/src/augmentedReality/Processor.ts:32-164 | a new processor never drops a frame at the guard |
| AugmentedReality.CaptureThrows | auto-sudoku/src/augmentedReality/Processor.ts:67-163 | when capture throws, only the busy flag is (re)set to false |
| AugmentedReality.ThresholdThrows | auto-sudoku/src/augmentedReality/Processor.ts:70-78 | when thresholding throws, the captured image is already stored and every other field keeps its old value |
| AugmentedReality.GreyscaleIsCapture | auto-sudoku/src/augmentedReality/Processor.ts:70-78 | once capture returns, the greyscale field is the captured image, not thresholded, whatever the later stages do |
| AugmentedReality.NoComponentClearsGeometry | auto-sudoku/src/augmentedReality/Processor.ts:99-159 | no qualifying component: corners and grid lines become null; both images are the new ones; boxes and the extracted image keep their old values |
| AugmentedReality.RejectedCornersClearGeometry | auto-sudoku/src/augmentedReality/Processor.ts:103-155 | corners that fail the sanity check give the same outcome as finding no component |
| AugmentedReality.HomographyThrows | auto-sudoku/src/augmentedReality/Processor.ts:107-118 | when the homography throws after the check, corners are the new ones while grid lines, boxes and the extracted image are stale |
| AugmentedReality.ComponentThrows | auto-sudoku/src/augmentedReality/Processor.ts:84-97 | when the component search throws, both images are new; corners and grid lines keep the previous frame's values and are not nulled; boxes and the extracted image are stale |
| AugmentedReality.CornerPointsThrow | auto-sudoku/src/augmentedReality/Processor.ts:103-105 | when the corner estimate throws, the state is as when the component search throws: old corners and grid lines stay |
| AugmentedReality.GreyExtractionThrows | auto-sudoku/src/augmentedReality/Processor.ts:118-125 | when rectifying the grey image throws, corners and grid lines are new while the extracted image and boxes are stale |
| AugmentedReality.ThresholdedExtractionThrows | auto-sudoku/src/augmentedReality/Processor.ts:127-131 | when rectifying the thresholded image throws, the same fields as for the grey rectification are new, and the extracted image and boxes are stale |
| AugmentedReality.ExtractBoxesThrows | auto-sudoku/src/augmentedReality/Processor.ts:132-142 | when box extraction throws, the extracted thresholded image is new and the boxes are the previous frame's |
| AugmentedReality.ClassifierThrows | auto-sudoku/src/augmentedReality/Processor.ts:143-149 | when the classifier throws, every field is new and the boxes are the extracted list without predictions |
| AugmentedReality.SuccessfulRun | auto-sudoku/src/augmentedReality/Processor.ts:67-163 | when every stage returns, every field is overwritten: corners; both images; the extracted thresholded image; grid lines from the transform; and boxes extracted from both images rectified by that same transform, carrying the predictions |
| DrawSudoku.Find | auto-sudoku/src/components/DrawSudoku.tsx:47 | `find` returns nothing iff no box is at the cell, and otherwise the box at the first index at that cell |
| DrawSudoku.Cell | auto-sudoku/src/components/DrawSudoku.tsx:47-48 | a non-null entry is a truthy digit of the first box at the cell; a null entry means no box or a falsy first box |
| DrawSudoku.Grid | auto-sudoku/src/components/DrawSudoku.tsx:42-53 | the grid has 9 rows of 9 entries |
| DrawSudoku.GetDigits | auto-sudoku/src/components/DrawSudoku.tsx:42-53 | returns exactly 9 rows of 9 entries, and entry [r][c] is the lookup of row r (y) and column c (x) |
| DrawSudoku.FirstMatchDecides | auto-sudoku/src/components/DrawSudoku.tsx:47-48 | the entry of a cell is the contents of the first box at it if truthy, else null, whatever boxes follow |
| DrawSudoku.CellNullIff | auto-sudoku/src/components/DrawSudoku.tsx:48 | an entry is null exactly when no box is at the cell or the first box there has absent or 0 contents |
| DrawSudoku.FindAppend | auto-sudoku/src/components/DrawSudoku.tsx:47 | appending a box changes a lookup only where the old list had no box at that cell |
| DrawSudoku.DuplicateAppendIgnored | auto-sudoku/src/components/DrawSudoku.tsx:47 | appending a box whose (x, y) already occurs leaves the grid unchanged |
| DrawSudoku.OffGridBoxesIgnored | auto-sudoku/src/components/DrawSudoku.tsx:44-47 | dropping every box with x or y outside 0..8 leaves the grid unchanged |
| DrawSudoku.AppendCount | auto-sudoku/src/components/DrawSudoku.tsx:44-51 | appending one box adds at most one non-null entry, and none when its contents are falsy |
| DrawSudoku.NonNullAtMostTruthy | auto-sudoku/src/components/DrawSudoku.tsx:44-51 | the number of non-null entries is at most the number of boxes with truthy contents |

## Left out

- The image-processing and recognition stages are not modelled (Processor.ts:1-14 imports them, and
  their modules are not part of this model): captureImage, adaptiveThreshold,
  getLargestConnectedComponent, getCornerPoints, findHomographicTransform, transformPoint,
  extractSquareFromRegion, extractBoxes and the TensorFlow classifier fillInPrediction. Each is a
  caller-supplied function value. The model fixes no result of any stage. It does rest on the three
  assumptions below.
- transformPoint is assumed always to return. A throw from it inside createGridLines (Processor.ts:118)
  is not modelled. On that path corners would already be new, gridLines would stay stale, and
  extraction and boxes would be skipped.
- adaptiveThreshold is assumed to keep the captured image's width and height: the thresholded image
  is the captured size with the stage's new pixels (`AugmentedReality.Thresholded`).
- No stage other than adaptiveThreshold is assumed to change an image in place. (The classifier does
  write into the box list it is given, as `ImageProcessing.WithPredictions` models.) The source hands
  the objects held in `greyscale` and `thresholded` to getLargestConnectedComponent and
  extractSquareFromRegion (Processor.ts:84, 121, 127). The model passes them as values, so an in-place
  change there could not reach those fields.
- The thresholded field holds the clone after the stage overwrote its pixels. Whether the real
  adaptiveThreshold returns that same clone or a new image is not visible, and either way the pixels
  are the same.
- ImageProcessing.WithPredictions: the classifier is taken to return one prediction per box in box
  order, written into the boxes only if it returns. A classifier that fails after filling some
  boxes is not modelled; the boxes then stay as extracted.
- `extractedImageThresholded` is held as a value, not an image object: nothing in the processor
  changes it in place.
- `digitRotation` (`Math.atan2`) and `digitHeight` (`Math.sqrt`) of getTextDetailsForBox are
  floating-point trigonometry. GetTextDetailsForBox returns the axis vector they are computed from.
- Floating-point rounding: points and lengths are exact reals, so PROCESSING_SIZE / 9 is exactly 100.
  Exact reals also have no NaN or Infinity. Under JavaScript semantics a NaN side makes
  every test it takes part in pass (Processor.ts:256-267), because every comparison with NaN is
  false. A NaN at topLeft, bottomLeft or bottomRight reaches all three tests, so that quad is
  accepted. A NaN only at topRight leaves the third test (left against bottom) able to reject. The
  model cannot show any of this.
- The per-stage timing averages (captureTime, thresholdTime, …) are wall-clock diagnostics from
  `performance.now()`.
- The `await` on the classifier and `console.error` in the catch block: runs are sequential, and
  logging has no effect on the fields.
- calculateCanvasPath, animate and the DrawSudoku React component are canvas animation and UI.
- App.tsx, SolveSudoku.tsx and GetPhoto.tsx are UI, webcam/file plumbing and an HTTP call. App.tsx's
  own grid construction duplicates getDigits.
- The C# backend (the Azure Functions trigger and the OR-Tools CP model) is a separate service. Its
  solver is not part of this model.
