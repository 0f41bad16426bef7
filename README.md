# SVG art generator, modelled in Dafny

The generator writes three HTML files, `art_piece1.html`, `art_piece2.html`
and `art_piece3.html`, each holding one SVG drawing box filled with random
circles, rectangles and ellipses. This project models its core:

- **Random shape generation.** `RandomShape.make_random_shape` draws a kind
  from `[0, 1, 3]` and then every geometry, colour and opacity field from the
  `PyArtConfig` class ranges. `gen_rand_shape_data` builds a list of fresh
  shapes with a running index `cnt`. `RandomShapes.RandomShape` is a class
  whose methods draw its fields in the source's order and store them in it.
  The random module is an injected `RandomSource` object. Its contracts
  promise only that each draw lands in the range asked for.
- **Rendering.** `drawCircleLine`, `drawRectangle` and `drawEllipse` become
  pure string functions (`Shapes`). Each element is the source's f-string:
  literal pieces with the fields interpolated between them (`Text.Interpolate`).
  A line is the indentation `"   " * tab_num`, the element and a newline.
- **Per-artwork policy and the canvas.** `SvgCanvas.genArt` picks the shape
  count and the suppressed colour channel from the output file name
  (`ArtPolicy`). It then writes one line per drawn shape. The canvas is a
  class whose `out` field holds every string written to the file, in order
  (`SvgCanvasModule.SvgCanvas`).

What is proved, in short:

- Each element has the source's exact attribute layout.
- The element text determines every field it shows (injectivity), so the
  layout lemmas say everything the text carries.
- Lines are 3·tab_num spaces, one element and a single trailing newline.
- Every drawn field is in its range.
- The shape list has the requested length and indices `0..n-1`.
- The file name gives 1000, 300 or 500 shapes, and no count for any other name.
- Suppression zeroes exactly green (art_piece3) or blue plus the rectangle's
  rx/ry (art_piece2) and copies everything else.
- The suppression shows in the output exactly when it changes a value.
- genArt writes one line per shape, in list order, and skips none.

Modules: `Text` (integer and opacity text, indentation, f-strings),
`ArtConfig` (ranges and the record of one draw), `Shapes` (the three
elements), `RandomShapes` (the random source and `RandomShape`), `ArtPolicy`
(file name to artwork, suppression, dispatch) and `SvgCanvasModule` (the
canvas and its output buffer).

Three behaviours of the code that the model keeps:

- A negative shape count gives an empty list (`range` is empty). It does not
  fail.
- All fields are drawn whatever the kind, so the number of draws per shape
  is fixed.
- An unknown file name is not rejected up front. genArt writes its comment
  and draws one throw-away shape, and only then fails.

## Model

| member | source | states |
|---|---|---|
| Text.Tabs | svg_art_generator.py:69 | the indentation is 3·tab_num spaces, and empty for tab_num ≤ 0 |
| Text.DecimalRoundTrip | svg_art_generator.py:70 | the decimal digits of a natural number read back as that number |
| Text.IntToDecimalInjective | svg_art_generator.py:70 | two integers have the same `str` text exactly when they are equal |
| Text.IntToDecimal | svg_art_generator.py:70 | `str` of an integer field: non-empty, made of number characters, and led by `-` exactly when the integer is negative (its value is pinned by DecimalRoundTrip) |
| Text.OneDecimalOfUnitInterval | svg_art_generator.py:71 | an opacity in [0, 1) renders as three characters, "0.d" or "1.0", denoting the opacity rounded to tenths |
| Text.OneDecimalInjective | svg_art_generator.py:71 | two non-negative opacities render the same exactly when they round to the same tenths |
| Text.OneDecimal | svg_art_generator.py:71 | the `:.1f` text of the opacity: number characters with the decimal point second to last |
| Text.OpacityExamples | svg_art_generator.py:71 | 0.0 renders "0.0", 0.96 renders "1.0", 0.04 renders "0.0", 0.73 renders "0.7" |
| Text.InterpolateInjective | svg_art_generator.py:70-71 | an f-string whose pieces end in a non-number character determines every interpolated number: same text exactly when same values |
| Text.InterpolateStartsWith | svg_art_generator.py:70 | an f-string's text begins with its first literal piece |
| Text.InterpolateExcludes | svg_art_generator.py:70-71 | a character absent from every piece and from every number is absent from the f-string's text |
| Shapes.CircleLayout | svg_art_generator.py:70-71 | the circle element is `<circle cx cy r fill="rgb(red, green, blue)" fill-opacity></circle>` with the fields in that order |
| Shapes.RectangleLayout | svg_art_generator.py:93-94 | the rectangle element is `<rect width height x y rx ry fill fill-opacity></rect>` with the fields in that order |
| Shapes.EllipseLayout | svg_art_generator.py:114-115 | the ellipse element is `<ellipse rx ry cx cy fill fill-opacity></ellipse>` with the fields in that order |
| Shapes.CircleElementInjective | svg_art_generator.py:70-71 | two circles give the same element exactly when cx, cy, r, the colour and the opacity text agree |
| Shapes.RectangleElementInjective | svg_art_generator.py:93-94 | two rectangles give the same element exactly when all ten shown fields agree |
| Shapes.EllipseElementInjective | svg_art_generator.py:114-115 | two ellipses give the same element exactly when all eight shown fields agree |
| Shapes.CircleFramed | svg_art_generator.py:70-71 | the circle element opens with `<circle ` and holds no newline |
| Shapes.RectangleFramed | svg_art_generator.py:93-94 | the rectangle element opens with `<rect ` and holds no newline |
| Shapes.EllipseFramed | svg_art_generator.py:114-115 | the ellipse element opens with `<ellipse ` and holds no newline |
| Shapes.DrawCircleLine | svg_art_generator.py:67-72 | the line drawCircleLine writes: the indentation, the circle element, a newline |
| Shapes.DrawRectangle | svg_art_generator.py:90-95 | the line drawRectangle writes: the indentation, the rectangle element, a newline |
| Shapes.DrawEllipse | svg_art_generator.py:111-116 | the line drawEllipse writes: the indentation, the ellipse element, a newline |
| Shapes.CircleLineFramed | svg_art_generator.py:67-72 | the circle line is the indentation, then `<circle `, and its single newline ends it |
| Shapes.RectangleLineFramed | svg_art_generator.py:90-95 | the rectangle line is the indentation, then `<rect `, and its single newline ends it |
| Shapes.EllipseLineFramed | svg_art_generator.py:111-116 | the ellipse line is the indentation, then `<ellipse `, and its single newline ends it |
| Shapes.FramedLineChars | svg_art_generator.py:69-72 | a framed line character by character: 3·tab_num spaces, the tag, a final newline and no other |
| Shapes.LineLayout | svg_art_generator.py:69-72 | a line is 3·tab_num spaces, the element, and one newline at the end that is its only newline |
| Shapes.LineInjective | svg_art_generator.py:69-72 | two lines of tag elements are equal exactly when their indentations and their elements are |
| Shapes.SameIndentLines | svg_art_generator.py:69-72 | at one indentation, two draws give the same line exactly when their elements are equal |
| Shapes.KindsDistinct | svg_art_generator.py:67-116 | a circle line, a rectangle line and an ellipse line are never equal, at any indentations |
| RandomShapes.RandomSource.Choice | svg_art_generator.py:166 | `random.choice` returns one of the given values |
| RandomShapes.RandomSource.RandInt | svg_art_generator.py:169 | `random.randint(lo, hi)` returns a value in the inclusive range |
| RandomShapes.RandomSource.Random | svg_art_generator.py:195 | `random.random()` returns a value in [0, 1) |
| ArtConfig.InRange | svg_art_generator.py:124-132 | what a draw guarantees: kind in [0, 1, 3] and every field within its inclusive `PyArtConfig` range, opacity in [0, 1) |
| RandomShapes.RandomShape.constructor | svg_art_generator.py:155-160 | a new shape keeps the given index and has every field drawn in range |
| RandomShapes.RandomShape.MakeRandomShape | svg_art_generator.py:162-195 | the kind is 0, 1 or 3 and every geometry, colour and opacity field lies in its `PyArtConfig` range; the index is unchanged |
| RandomShapes.RandomShape.GenRandShapeData | svg_art_generator.py:197-218 | the list has num_shapes fresh shapes (none when num_shapes ≤ 0); the i-th has index i and fields in range |
| ArtPolicy.ArtworkOf | svg_art_generator.py:251-256 | a file name selects the artwork whose file name it is, and selects none when no artwork has that name |
| ArtPolicy.ArtworkOfFileName | svg_art_generator.py:251-256 | each artwork's own file name selects that artwork |
| ArtPolicy.NumShapes | svg_art_generator.py:251-256 | the shape count of each artwork: 1000 for art_piece1, 300 for art_piece2, 500 for art_piece3 |
| ArtPolicy.ShapeCountByFileName | svg_art_generator.py:250-259 | art_piece1 gives 1000 shapes, art_piece2 300, art_piece3 500; any other name gives no count |
| ArtPolicy.SuppressionByArtwork | svg_art_generator.py:268-304 | green is zeroed for art_piece3, blue for art_piece2 (and the rectangle's rx, ry), nothing for art_piece1; every other field, red included, is copied |
| ArtPolicy.CircleFor | svg_art_generator.py:268-274 | the circle built for a drawn shape carries the circle fields of the shape as the artwork masks it |
| ArtPolicy.RectangleFor | svg_art_generator.py:283-289 | the rectangle built for a drawn rectangle carries its fields as the artwork masks them (rx, ry and blue zeroed for art_piece2) |
| ArtPolicy.EllipseFor | svg_art_generator.py:298-304 | the ellipse built for a drawn ellipse carries its fields as the artwork masks them |
| ArtPolicy.RenderShape | svg_art_generator.py:264-307 | the dispatch on the kind: exactly one line for kinds 0, 1 and 3, none for any other kind |
| ArtPolicy.RenderedAsMasked | svg_art_generator.py:268-307 | an artwork renders a shape exactly as art_piece1 renders the masked copy, so suppression is a rendering-time view |
| ArtPolicy.CircleSuppressionVisible | svg_art_generator.py:268-277 | the suppressed circle line equals art_piece1's exactly when the zeroed channel was already 0 |
| ArtPolicy.RectangleSuppressionVisible | svg_art_generator.py:283-292 | the suppressed rectangle line equals art_piece1's exactly when the zeroed fields were already 0 |
| ArtPolicy.EllipseSuppressionVisible | svg_art_generator.py:298-307 | the suppressed ellipse line equals art_piece1's exactly when the zeroed channel was already 0 |
| ArtPolicy.SuppressionVisible | svg_art_generator.py:264-307 | for a drawn shape, an artwork's line differs from art_piece1's exactly when its suppression changes a value (never equal for an art_piece2 rectangle) |
| ArtPolicy.RenderShapesAppend | svg_art_generator.py:261 | one more shape appends exactly that shape's lines after the others |
| ArtPolicy.RenderAllOneForOne | svg_art_generator.py:261 | a renderer writing one line per shape writes the i-th shape's line at position i |
| ArtPolicy.OneLinePerShape | svg_art_generator.py:261-307 | for drawn kinds, the rendered lines are one per shape, the i-th being the i-th shape's line |
| ArtPolicy.RenderedLineLayout | svg_art_generator.py:264-307 | every rendered line is 3·tab_num spaces, then `<circle ` for kind 0, `<rect ` for kind 1 or `<ellipse ` for kind 3, and a single trailing newline |
| SvgCanvasModule.SvgCanvas.constructor | svg_art_generator.py:224-226 | a new canvas remembers its file name and has written nothing |
| SvgCanvasModule.SvgCanvas.WriteHtmlComment | svg_art_generator.py:228-231 | appends the indented `<!--comment-->` line |
| SvgCanvasModule.SvgCanvas.OpenSvgCanvas | svg_art_generator.py:233-238 | appends the comment line and the `<svg width height>` line |
| SvgCanvasModule.SvgCanvas.GenArt | svg_art_generator.py:240-307 | succeeds exactly for the three file names; then writes the comment and one line per drawn shape in order, NumShapes shapes with indices 0..n-1 in range; otherwise writes only the comment |
| SvgCanvasModule.SvgCanvas.DrawShapes | svg_art_generator.py:261-307 | appends the rendered lines of the given shapes, in list order |
| SvgCanvasModule.SvgCanvas.ShapeLines | svg_art_generator.py:264-307 | the lines for one shape are those of its kind, with the file's colour switch applied |
| SvgCanvasModule.SvgCanvas.CloseSvgCanvas | svg_art_generator.py:310-313 | appends the indented `</svg>` line |

## Left out

- File handling is not modelled: `HtmlComponent` (svg_art_generator.py:6-51), `HtmlDocument` (316-334) and `main` (337-357). The file is the canvas's `out` buffer, and the canvas is built from the file name alone.
- `HtmlDocument.generate_svg_content`, which opens a 1000×700 box, runs genArt and closes the box, is not modelled. It belongs to the document wrapper; the three canvas methods it calls are modelled.
- `SvgCanvas.__init__` does not call `super().__init__`, and the file handle is name-mangled. Both matter only to Python attribute lookup.
- Text.OneDecimal: the `:.1f` format is modelled on exact reals, rounding ties up. Python rounds the nearest binary double, ties to even, so the two can differ on a tie such as 0.25. The opacity is a `real` throughout.
- RandomShapes.RandomSource: the random module is modelled as a linear congruential generator. Only the ranges of its draws are specified. Uniformity and the exact values of Python's generator are not modelled.
- RandomShapes.RandomShape.MakeRandomShape: does not state which value each field receives, only that it lies in range, because the values come from the random source.
- The per-instance fields of `PyArtConfig` (all zeros at svg_art_generator.py:247) and `OP_RANGE` (133) are never read for generation and are not modelled.
- SvgCanvasModule.SvgCanvas.GenArt: for an unknown file name the source raises an unbound-variable error after writing its comment and drawing one shape. The model returns `ok == false` with the same output and does not state what the random source was left at.
- SvgCanvasModule.SvgCanvas.GenArt: the drawn shapes are returned as a ghost value so the contract can name them; the source does not return them.
- `EllipseShape.drawEllipse` reads its own fields while the circle and rectangle draws read their argument. Every call site passes the object itself, so one function per kind covers both.
- `EllipseShape.opacity` is annotated `int` but always holds the drawn float. It is modelled as a `real`, like the other kinds.
