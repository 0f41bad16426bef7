/**
 * The per-artwork policy of SvgCanvas.genArt: the output file name picks
 * the shape count and the colour channel that is zeroed, and each drawn
 * shape is dispatched on its kind to exactly one element line.
 */
module ArtPolicy {
  import opened ArtConfig
  import opened Shapes

  datatype Option<T> = None | Some(value: T)

  datatype Artwork = ArtPiece1 | ArtPiece2 | ArtPiece3

  function FileName(art: Artwork): string {
    match art
    case ArtPiece1 => "art_piece1.html"
    case ArtPiece2 => "art_piece2.html"
    case ArtPiece3 => "art_piece3.html"
  }

  /**
   * The artwork a file name selects. Any other name selects none: in the
   * source `num_shapes` is then never bound and genArt fails.
   */
  function ArtworkOf(fileName: string): (r: Option<Artwork>)
    ensures r.Some? ==> FileName(r.value) == fileName
    ensures r.None? ==> forall art :: FileName(art) != fileName
  {
    if fileName == "art_piece3.html" then Some(ArtPiece3)
    else if fileName == "art_piece2.html" then Some(ArtPiece2)
    else if fileName == "art_piece1.html" then Some(ArtPiece1)
    else None
  }

  lemma ArtworkOfFileName(art: Artwork)
    ensures ArtworkOf(FileName(art)) == Some(art)
  {
  }

  function NumShapes(art: Artwork): nat {
    match art
    case ArtPiece1 => 1000
    case ArtPiece2 => 300
    case ArtPiece3 => 500
  }

  lemma ShapeCountByFileName(fileName: string)
    ensures fileName == "art_piece1.html" ==> ArtworkOf(fileName) == Some(ArtPiece1) && NumShapes(ArtPiece1) == 1000
    ensures fileName == "art_piece2.html" ==> ArtworkOf(fileName) == Some(ArtPiece2) && NumShapes(ArtPiece2) == 300
    ensures fileName == "art_piece3.html" ==> ArtworkOf(fileName) == Some(ArtPiece3) && NumShapes(ArtPiece3) == 500
    ensures fileName !in {"art_piece1.html", "art_piece2.html", "art_piece3.html"} ==> ArtworkOf(fileName) == None
  {
  }

  // ---- the shape each kind is drawn as, with the artwork's colour switch ----

  /** The circle genArt builds: the circle fields of the drawn shape as the artwork masks it. */
  function CircleFor(art: Artwork, s: ShapeSample): (c: CircleShape)
    ensures var m := Masked(art, s);
      c == CircleShape(m.x, m.y, m.rad, m.red, m.green, m.blue, m.op)
  {
    match art
    case ArtPiece3 => CircleShape(s.x, s.y, s.rad, s.red, 0, s.blue, s.op)
    case ArtPiece2 => CircleShape(s.x, s.y, s.rad, s.red, s.green, 0, s.op)
    case ArtPiece1 => CircleShape(s.x, s.y, s.rad, s.red, s.green, s.blue, s.op)
  }

  /** The rectangle genArt builds for a rectangle: its fields as the artwork masks them. */
  function RectangleFor(art: Artwork, s: ShapeSample): (r: RectangleShape)
    ensures s.sha == Rectangle ==> var m := Masked(art, s);
      r == RectangleShape(m.w, m.h, m.x, m.y, m.rx, m.ry, m.red, m.green, m.blue, m.op)
  {
    match art
    case ArtPiece3 => RectangleShape(s.w, s.h, s.x, s.y, s.rx, s.ry, s.red, 0, s.blue, s.op)
    case ArtPiece2 => RectangleShape(s.w, s.h, s.x, s.y, 0, 0, s.red, s.green, 0, s.op)
    case ArtPiece1 => RectangleShape(s.w, s.h, s.x, s.y, s.rx, s.ry, s.red, s.green, s.blue, s.op)
  }

  /** The ellipse genArt builds for an ellipse: its fields as the artwork masks them. */
  function EllipseFor(art: Artwork, s: ShapeSample): (e: EllipseShape)
    ensures s.sha == Ellipse ==> var m := Masked(art, s);
      e == EllipseShape(m.rx, m.ry, m.x, m.y, m.red, m.green, m.blue, m.op)
  {
    match art
    case ArtPiece3 => EllipseShape(s.rx, s.ry, s.x, s.y, s.red, 0, s.blue, s.op)
    case ArtPiece2 => EllipseShape(s.rx, s.ry, s.x, s.y, s.red, s.green, 0, s.op)
    case ArtPiece1 => EllipseShape(s.rx, s.ry, s.x, s.y, s.red, s.green, s.blue, s.op)
  }

  /**
   * The lines genArt writes for one shape: one line for kinds 0, 1 and 3,
   * nothing for any other kind (no branch of the source matches it).
   */
  function RenderShape(art: Artwork, s: ShapeSample, tabNum: int): (r: seq<string>)
    ensures |r| == if s.sha in ShapeValues then 1 else 0
  {
    if s.sha == Circle then [DrawCircleLine(tabNum, CircleFor(art, s))]
    else if s.sha == Rectangle then [DrawRectangle(tabNum, RectangleFor(art, s))]
    else if s.sha == Ellipse then [DrawEllipse(tabNum, EllipseFor(art, s))]
    else []
  }

  /** The one-shape renderer of an artwork at an indentation. */
  function Renderer(art: Artwork, tabNum: int): ShapeSample -> seq<string> {
    s => RenderShape(art, s, tabNum)
  }

  /** The lines a renderer writes for a list of shapes, in list order. */
  function RenderAll(render: ShapeSample -> seq<string>, shapes: seq<ShapeSample>): seq<string>
    decreases |shapes|
  {
    if shapes == [] then []
    else RenderAll(render, shapes[..|shapes| - 1]) + render(shapes[|shapes| - 1])
  }

  /** The lines genArt writes for a list of shapes. */
  function RenderShapes(art: Artwork, shapes: seq<ShapeSample>, tabNum: int): seq<string> {
    RenderAll(Renderer(art, tabNum), shapes)
  }

  // ---- what the policy promises ----

  /**
   * Every field is copied from the drawn shape except the suppressed ones:
   * green is zeroed for art_piece3, blue for art_piece2, which also zeroes
   * the rectangle's rx and ry; red is never touched.
   */
  lemma SuppressionByArtwork(art: Artwork, s: ShapeSample)
    ensures var c := CircleFor(art, s);
      && c.cx == s.x && c.cy == s.y && c.rad == s.rad && c.red == s.red && c.opacity == s.op
      && c.green == (if art == ArtPiece3 then 0 else s.green)
      && c.blue == (if art == ArtPiece2 then 0 else s.blue)
    ensures var r := RectangleFor(art, s);
      && r.w == s.w && r.h == s.h && r.x == s.x && r.y == s.y && r.red == s.red && r.opacity == s.op
      && r.rx == (if art == ArtPiece2 then 0 else s.rx)
      && r.ry == (if art == ArtPiece2 then 0 else s.ry)
      && r.green == (if art == ArtPiece3 then 0 else s.green)
      && r.blue == (if art == ArtPiece2 then 0 else s.blue)
    ensures var e := EllipseFor(art, s);
      && e.rx == s.rx && e.ry == s.ry && e.cx == s.x && e.cy == s.y && e.red == s.red && e.opacity == s.op
      && e.green == (if art == ArtPiece3 then 0 else s.green)
      && e.blue == (if art == ArtPiece2 then 0 else s.blue)
  {
  }

  /** The drawn shape as the artwork's suppression shows it, as a value of its own. */
  function Masked(art: Artwork, s: ShapeSample): ShapeSample {
    match art
    case ArtPiece1 => s
    case ArtPiece2 => if s.sha == Rectangle then s.(blue := 0, rx := 0, ry := 0) else s.(blue := 0)
    case ArtPiece3 => s.(green := 0)
  }

  /**
   * Suppression is a view: an artwork renders a shape exactly as art_piece1
   * renders the masked copy of it, and the drawn shape itself is unchanged.
   */
  lemma RenderedAsMasked(art: Artwork, s: ShapeSample, tabNum: int)
    ensures RenderShape(art, s, tabNum) == RenderShape(ArtPiece1, Masked(art, s), tabNum)
  {
  }

  lemma CircleSuppressionVisible(art: Artwork, s: ShapeSample, tabNum: int)
    ensures DrawCircleLine(tabNum, CircleFor(art, s)) == DrawCircleLine(tabNum, CircleFor(ArtPiece1, s))
        <==> (art == ArtPiece3 ==> s.green == 0) && (art == ArtPiece2 ==> s.blue == 0)
  {
    var a, b := CircleFor(art, s), CircleFor(ArtPiece1, s);
    CircleOpensTag(a);
    CircleOpensTag(b);
    SameIndentLines(tabNum, CircleElement(a), CircleElement(b));
    CircleElementInjective(a, b);
  }

  lemma RectangleSuppressionVisible(art: Artwork, s: ShapeSample, tabNum: int)
    ensures DrawRectangle(tabNum, RectangleFor(art, s)) == DrawRectangle(tabNum, RectangleFor(ArtPiece1, s))
        <==> (art == ArtPiece3 ==> s.green == 0) && (art == ArtPiece2 ==> s.blue == 0 && s.rx == 0 && s.ry == 0)
  {
    var a, b := RectangleFor(art, s), RectangleFor(ArtPiece1, s);
    RectangleOpensTag(a);
    RectangleOpensTag(b);
    SameIndentLines(tabNum, RectangleElement(a), RectangleElement(b));
    RectangleElementInjective(a, b);
  }

  lemma EllipseSuppressionVisible(art: Artwork, s: ShapeSample, tabNum: int)
    ensures DrawEllipse(tabNum, EllipseFor(art, s)) == DrawEllipse(tabNum, EllipseFor(ArtPiece1, s))
        <==> (art == ArtPiece3 ==> s.green == 0) && (art == ArtPiece2 ==> s.blue == 0)
  {
    var a, b := EllipseFor(art, s), EllipseFor(ArtPiece1, s);
    EllipseOpensTag(a);
    EllipseOpensTag(b);
    SameIndentLines(tabNum, EllipseElement(a), EllipseElement(b));
    EllipseElementInjective(a, b);
  }

  /**
   * An artwork's line for a shape differs from art_piece1's exactly when
   * the suppression changes a value: for a drawn shape, art_piece3 changes
   * it unless green is 0, art_piece2 unless blue is 0 and the shape is not
   * a rectangle (whose rx is at least 10).
   */
  lemma SuppressionVisible(art: Artwork, s: ShapeSample, tabNum: int)
    requires InRange(s)
    ensures RenderShape(art, s, tabNum) == RenderShape(ArtPiece1, s, tabNum)
        <==> (art == ArtPiece3 ==> s.green == 0) && (art == ArtPiece2 ==> s.blue == 0 && s.sha != Rectangle)
  {
    if s.sha == Circle {
      CircleSuppressionVisible(art, s, tabNum);
    } else if s.sha == Rectangle {
      RectangleSuppressionVisible(art, s, tabNum);
    } else {
      EllipseSuppressionVisible(art, s, tabNum);
    }
  }

  /** Appending a shape appends its lines. */
  lemma RenderShapesAppend(art: Artwork, shapes: seq<ShapeSample>, s: ShapeSample, tabNum: int)
    ensures RenderShapes(art, shapes + [s], tabNum) == RenderShapes(art, shapes, tabNum) + RenderShape(art, s, tabNum)
  {
    assert (shapes + [s])[..|shapes|] == shapes;
  }

  /** A renderer that writes one line per shape writes the lines one for one, in order. */
  lemma {:induction false} RenderAllOneForOne(render: ShapeSample -> seq<string>, shapes: seq<ShapeSample>)
    requires forall i :: 0 <= i < |shapes| ==> |render(shapes[i])| == 1
    ensures |RenderAll(render, shapes)| == |shapes|
    ensures forall i :: 0 <= i < |shapes| ==> [RenderAll(render, shapes)[i]] == render(shapes[i])
    decreases |shapes|
  {
    if shapes != [] {
      var n := |shapes| - 1;
      var front, last := RenderAll(render, shapes[..n]), render(shapes[n]);
      RenderAllOneForOne(render, shapes[..n]);
      var all := RenderAll(render, shapes);
      assert all == front + last;
      forall i | 0 <= i < |shapes|
        ensures [all[i]] == render(shapes[i])
      {
        if i < n {
          assert shapes[..n][i] == shapes[i];
          assert all[i] == front[i];
        } else {
          assert all[i] == last[0];
        }
      }
    }
  }

  /**
   * Exactly one line per drawn shape, in list order, of the shape's own
   * kind: no shape is skipped because every kind is 0, 1 or 3.
   */
  lemma OneLinePerShape(art: Artwork, shapes: seq<ShapeSample>, tabNum: int)
    requires forall i :: 0 <= i < |shapes| ==> shapes[i].sha in ShapeValues
    ensures |RenderShapes(art, shapes, tabNum)| == |shapes|
    ensures forall i :: 0 <= i < |shapes| ==> [RenderShapes(art, shapes, tabNum)[i]] == RenderShape(art, shapes[i], tabNum)
  {
    forall i | 0 <= i < |shapes| ensures |Renderer(art, tabNum)(shapes[i])| == 1 {
    }
    RenderAllOneForOne(Renderer(art, tabNum), shapes);
  }

  /**
   * Every rendered line is the indentation, the element of the shape's own
   * kind (circle for 0, rectangle for 1, ellipse for 3), and one closing newline.
   */
  lemma RenderedLineLayout(art: Artwork, s: ShapeSample, tabNum: int)
    requires s.sha in ShapeValues
    ensures var r, k := RenderShape(art, s, tabNum)[0], if tabNum > 0 then 3 * tabNum else 0;
      && |r| > k + 1
      && (forall i :: 0 <= i < k ==> r[i] == ' ')
      && (s.sha == Circle ==> |r| > k + 8 && r[k..k + 8] == "<circle ")
      && (s.sha == Rectangle ==> |r| > k + 6 && r[k..k + 6] == "<rect ")
      && (s.sha == Ellipse ==> |r| > k + 9 && r[k..k + 9] == "<ellipse ")
      && r[|r| - 1] == '\n'
      && (forall i :: 0 <= i < |r| - 1 ==> r[i] != '\n')
  {
    if s.sha == Circle {
      CircleLineFramed(tabNum, CircleFor(art, s));
      FramedLineChars(tabNum, "<circle ", DrawCircleLine(tabNum, CircleFor(art, s)));
    } else if s.sha == Rectangle {
      RectangleLineFramed(tabNum, RectangleFor(art, s));
      FramedLineChars(tabNum, "<rect ", DrawRectangle(tabNum, RectangleFor(art, s)));
    } else {
      EllipseLineFramed(tabNum, EllipseFor(art, s));
      FramedLineChars(tabNum, "<ellipse ", DrawEllipse(tabNum, EllipseFor(art, s)));
    }
  }
}
