# Shape & Contour Analyzer — verified model of the contour loop

The analyzer takes the contours of an uploaded image. For each contour it does
three things in the order the contours were found:

1. It drops the contour as noise when its area is below 500.
2. It labels the contour from the vertex count of its polygon approximation:
   3 gives Triangle. 4 gives Square when the bounding-box aspect ratio `w / h`
   is in [0.95, 1.05], and Rectangle otherwise. More than 4 gives Circle.
   Fewer than 3 leaves the initial label Unknown.
3. It increments the shape count and appends one row (shape, area, perimeter)
   to the results.

The model has two modules:

- `Classifier` (`classifier.dfy`) holds the label datatype and the contour
  measurements. `Classify` is the decision rule as a pure function.
- `Analyzer` (`analyzer.dfy`) holds the loop step `Process` and the
  specification function `Report`. `Report` gives the results after a prefix
  of the contours. `Analyze` is the loop itself, a method with a `for` loop
  whose invariants are `shapeCount == |results|` and
  `results == Report(contours[..i])`.

The geometry library's results are inputs: the contour area, the closed arc
length (perimeter), the number of vertices of the polygon approximation, and
the bounding rectangle's width and height. Each contour is a `Contour` value
holding these five numbers. Area and perimeter are Dafny `real`s. These are
exact and are not IEEE doubles.

The aspect-ratio test is modelled as exact real division, `w / h`, compared
with 0.95 and 1.05. `AspectBandIsIntegerBand` proves this is the same as the
integer test `95*h <= 100*w <= 105*h`.

The preconditions ask only what the measured contours always satisfy. A
contour that passed the noise filter has a polygon with at least one vertex.
The analyzer reads that polygon's first vertex to place the label. If the
polygon has four vertices, its height is at least 1, because the bounding
rectangle of a non-empty point set always is. The aspect ratio divides by
that height.

The classifier works as follows:

- Squares and rectangles are told apart by the axis-aligned bounding-box
  aspect ratio. There is no side-length comparison and no Quadrilateral label.
- A contour whose polygon has one or two vertices is not discarded. It is
  labelled Unknown and is counted and reported like any other.
- The code assigns no sequence number to a row. The row's position in
  `results` is its only order.

`Analyzer.Process` is the definition of one loop iteration. `Analyzer.ToRecord`
is the definition of the row an iteration appends. The lemmas in the table
below are about these definitions.

## Model

| member | source | states |
|---|---|---|
| Classifier.Classify | app.py:45-57 | Triangle iff exactly 3 vertices; Square iff 4 vertices and 95h <= 100w <= 105h; Rectangle iff 4 vertices and outside that band; Circle iff more than 4; Unknown iff fewer than 3. So four vertices never give Unknown or Circle |
| Classifier.AspectBandIsIntegerBand | app.py:50-53 | for every width and every height >= 1, the real test 0.95 <= w/h <= 1.05 holds iff 95h <= 100w <= 105h |
| Classifier.BandEdges | app.py:52-53 | the band is inclusive at both ends (ratios 19/20 and 21/20 are in it at every scale), and the nearest integer boxes just outside it on either side are not |
| Classifier.AspectBandScaleInvariant | app.py:50-52 | scaling a bounding box by any factor k >= 1 does not change whether it is in the square band |
| Classifier.NamesDistinct | app.py:45-57 | the five label strings are pairwise distinct, so the stored name identifies the label |
| Classifier.Label.Name | app.py:45-57 | the source's five label strings; each is non-empty (that they are distinct is `NamesDistinct`) |
| Analyzer.ToRecord | app.py:74-78 | definition of the appended row: the label `Classify` gives, with the contour's area and perimeter (no proved property beyond the construction; rounding is left out) |
| Analyzer.ReportStep | app.py:38-59 | visiting one more contour appends its record unless its area is below 500; area exactly 500 is kept, whatever its label |
| Analyzer.Report | app.py:37-78 | the results never have more rows than there are contours, and every row's area is at least 500 |
| Analyzer.KeptIndices | app.py:37-40 | the strictly increasing list of exactly those positions whose contour has area >= 500 |
| Analyzer.ReportFollowsKeptIndices | app.py:74-78 | row k of the results is the record of the k-th kept contour in input order; there are as many rows as kept contours (no reordering, no deduplication) |
| Analyzer.ReportCountsKept | app.py:37-59 | the number of rows equals the number of input positions whose contour has area >= 500 |
| Analyzer.ReportAppend | app.py:37-78 | the results for two consecutive runs of contours are the results of the first followed by those of the second |
| Analyzer.NoiseContributesNothing | app.py:38-40 | wherever a contour stands, if its area is below 500 the results are the same as without it; otherwise it adds exactly its own record in its own place |
| Analyzer.ReportedLabels | app.py:45-59 | every reported row comes from a contour with area >= 500, and its label follows that contour's vertex count and bounding box as the decision rule says |
| Analyzer.MixedScene | app.py:37-78 | on a concrete list (triangle, noise at 499.5, box at the band's upper edge, 2-vertex sliver at area 500, wide box) the rows are Triangle, Square, Unknown, Rectangle in input order |
| Analyzer.Analyze | app.py:34-78 | the loop ends with shape_count equal to the number of rows, the rows equal to Report of the input, the count equal to the number of contours with area >= 500, and never above the number of contours |

## Left out

- The Streamlit page is not modelled: page setup, uploader, columns, images, banner and table (app.py:7-16, 84-100). It is user interface.
- Image decoding and colour conversion are not modelled (app.py:20-24, 27, 81). They are I/O and foreign library code.
- Gaussian blur, Canny edge detection and contour finding are not modelled (app.py:28-32). The model takes the list of contours as its input.
- `contourArea`, `arcLength`, `approxPolyDP` and `boundingRect` are not modelled (app.py:38, 42-43, 50). They are foreign calls. Their results are fields of `Contour`.
- Classifier.AspectInBand: uses exact real division, not IEEE double division against the doubles nearest 0.95 and 1.05. The two agree unless the rounding error of the double quotient exceeds its distance from a band end. That distance is at least 1/(20h), so only heights far larger than any image are affected. This is not proved.
- Analyzer.ToRecord: stores the area and perimeter unrounded. The source rounds both to two decimals (app.py:76-77), which is float formatting.
- The label text drawn on the image and the drawn contour are not modelled (app.py:62-72). They are rendering. `Label.Name` gives the text that would be drawn and stored.
- The division by a zero height is excluded by a precondition, not modelled as an error. It happens only in the source's ZeroDivisionError path, and the bounding rectangle the source measures never has zero height.
- A kept contour whose polygon has no vertex is excluded by a precondition. The source would fail with an IndexError when it reads the polygon's first vertex (app.py:63). The polygon approximation of a non-empty contour always has at least one point, so this cannot happen.
- Running the analysis twice gives the same result. This is not stated as a lemma: `Report` is a function, so it holds by construction.
