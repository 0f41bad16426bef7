/**
 * CircleShape, RectangleShape and EllipseShape and the element line each
 * one's draw method writes: the indentation, one SVG element with a fixed
 * attribute order, and a newline.
 */
module Shapes {
  import opened Text

  datatype CircleShape = CircleShape(
    cx: int, cy: int, rad: int, red: int, green: int, blue: int, opacity: real)

  datatype RectangleShape = RectangleShape(
    w: int, h: int, x: int, y: int, rx: int, ry: int, red: int, green: int, blue: int, opacity: real)

  datatype EllipseShape = EllipseShape(
    rx: int, ry: int, cx: int, cy: int, red: int, green: int, blue: int, opacity: real)

  // ---- the elements: each source f-string as its literal pieces and interpolated fields ----

  const CirclePieces: seq<string> :=
    ["<circle cx=\"", "\" cy=\"", "\" r=\"", "\" fill=\"rgb(", ", ", ", ",
     ")\" fill-opacity=\"", "\"></circle>"]

  const RectanglePieces: seq<string> :=
    ["<rect width=\"", "\" height=\"", "\" x=\"", "\" y=\"", "\" rx=\"", "\" ry=\"",
     "\" fill=\"rgb(", ", ", ", ", ")\" fill-opacity=\"", "\"></rect>"]

  const EllipsePieces: seq<string> :=
    ["<ellipse rx=\"", "\" ry=\"", "\" cx=\"", "\" cy=\"", "\" fill=\"rgb(", ", ", ", ",
     ")\" fill-opacity=\"", "\"></ellipse>"]

  function CircleValues(c: CircleShape): seq<string> {
    [IntToDecimal(c.cx), IntToDecimal(c.cy), IntToDecimal(c.rad),
     IntToDecimal(c.red), IntToDecimal(c.green), IntToDecimal(c.blue), OneDecimal(c.opacity)]
  }

  function RectangleValues(r: RectangleShape): seq<string> {
    [IntToDecimal(r.w), IntToDecimal(r.h), IntToDecimal(r.x), IntToDecimal(r.y),
     IntToDecimal(r.rx), IntToDecimal(r.ry),
     IntToDecimal(r.red), IntToDecimal(r.green), IntToDecimal(r.blue), OneDecimal(r.opacity)]
  }

  function EllipseValues(e: EllipseShape): seq<string> {
    [IntToDecimal(e.rx), IntToDecimal(e.ry), IntToDecimal(e.cx), IntToDecimal(e.cy),
     IntToDecimal(e.red), IntToDecimal(e.green), IntToDecimal(e.blue), OneDecimal(e.opacity)]
  }

  function CircleElement(c: CircleShape): string {
    Interpolate(CirclePieces, CircleValues(c))
  }

  function RectangleElement(r: RectangleShape): string {
    Interpolate(RectanglePieces, RectangleValues(r))
  }

  function EllipseElement(e: EllipseShape): string {
    Interpolate(EllipsePieces, EllipseValues(e))
  }

  /** What every draw method writes: indentation, the element, a newline. */
  function Line(tabNum: int, element: string): string {
    Tabs(tabNum) + element + "\n"
  }

  /**
   * A written shape line: the indentation, an element opening with `tag`,
   * and a newline that ends the line and is its only newline.
   */
  predicate FramedLine(tabNum: int, tag: string, r: string) {
    var k := |Tabs(tabNum)|;
    && |r| > k + |tag| + 1
    && r[..k] == Tabs(tabNum)
    && r[k..k + |tag|] == tag
    && r[|r| - 1] == '\n'
    && '\n' !in r[..|r| - 1]
  }

  function DrawCircleLine(tabNum: int, c: CircleShape): string {
    Line(tabNum, CircleElement(c))
  }

  function DrawRectangle(tabNum: int, r: RectangleShape): string {
    Line(tabNum, RectangleElement(r))
  }

  function DrawEllipse(tabNum: int, e: EllipseShape): string {
    Line(tabNum, EllipseElement(e))
  }

  lemma InterpolateExtend(pieces: seq<string>, values: seq<string>, i: nat, prefix: string)
    requires |pieces| == |values| + 1 && 0 < i <= |values|
    requires Interpolate(pieces[..i], values[..i - 1]) == prefix
    ensures Interpolate(pieces[..i + 1], values[..i]) == prefix + values[i - 1] + pieces[i]
  {
    assert pieces[..i + 1][..i] == pieces[..i];
    assert values[..i][..i - 1] == values[..i - 1];
  }

  lemma InterpolateFirst(pieces: seq<string>, values: seq<string>)
    requires |pieces| == |values| + 1
    ensures Interpolate(pieces[..1], values[..0]) == pieces[0]
  {
  }

  lemma CirclePiecesInterpolated(cx: string, cy: string, rad: string, red: string, green: string,
      blue: string, opacity: string)
    ensures Interpolate(CirclePieces, [cx, cy, rad, red, green, blue, opacity])
      == "<circle cx=\"" + cx + "\" cy=\"" + cy + "\" r=\"" + rad
       + "\" fill=\"rgb(" + red + ", " + green + ", " + blue
       + ")\" fill-opacity=\"" + opacity + "\"></circle>"
  {
    var p, v := CirclePieces, [cx, cy, rad, red, green, blue, opacity];
    InterpolateFirst(p, v);
    var s := "<circle cx=\"";
    InterpolateExtend(p, v, 1, s); s := s + cx + "\" cy=\"";
    InterpolateExtend(p, v, 2, s); s := s + cy + "\" r=\"";
    InterpolateExtend(p, v, 3, s); s := s + rad + "\" fill=\"rgb(";
    InterpolateExtend(p, v, 4, s); s := s + red + ", ";
    InterpolateExtend(p, v, 5, s); s := s + green + ", ";
    InterpolateExtend(p, v, 6, s); s := s + blue + ")\" fill-opacity=\"";
    InterpolateExtend(p, v, 7, s); s := s + opacity + "\"></circle>";
    assert p[..8] == p && v[..7] == v;
  }

  /** The circle element, attribute by attribute, in the source's order. */
  lemma CircleLayout(c: CircleShape)
    ensures CircleElement(c)
      == "<circle cx=\"" + IntToDecimal(c.cx) + "\" cy=\"" + IntToDecimal(c.cy)
       + "\" r=\"" + IntToDecimal(c.rad)
       + "\" fill=\"rgb(" + IntToDecimal(c.red) + ", " + IntToDecimal(c.green) + ", " + IntToDecimal(c.blue)
       + ")\" fill-opacity=\"" + OneDecimal(c.opacity) + "\"></circle>"
  {
    CirclePiecesInterpolated(IntToDecimal(c.cx), IntToDecimal(c.cy), IntToDecimal(c.rad),
      IntToDecimal(c.red), IntToDecimal(c.green), IntToDecimal(c.blue), OneDecimal(c.opacity));
  }

  lemma RectanglePiecesInterpolated(w: string, h: string, x: string, y: string, rx: string,
      ry: string, red: string, green: string, blue: string, opacity: string)
    ensures Interpolate(RectanglePieces, [w, h, x, y, rx, ry, red, green, blue, opacity])
      == "<rect width=\"" + w + "\" height=\"" + h + "\" x=\"" + x + "\" y=\"" + y + "\" rx=\"" + rx
       + "\" ry=\"" + ry
       + "\" fill=\"rgb(" + red + ", " + green + ", " + blue
       + ")\" fill-opacity=\"" + opacity + "\"></rect>"
  {
    var p, v := RectanglePieces, [w, h, x, y, rx, ry, red, green, blue, opacity];
    InterpolateFirst(p, v);
    var s := "<rect width=\"";
    InterpolateExtend(p, v, 1, s); s := s + w + "\" height=\"";
    InterpolateExtend(p, v, 2, s); s := s + h + "\" x=\"";
    InterpolateExtend(p, v, 3, s); s := s + x + "\" y=\"";
    InterpolateExtend(p, v, 4, s); s := s + y + "\" rx=\"";
    InterpolateExtend(p, v, 5, s); s := s + rx + "\" ry=\"";
    InterpolateExtend(p, v, 6, s); s := s + ry + "\" fill=\"rgb(";
    InterpolateExtend(p, v, 7, s); s := s + red + ", ";
    InterpolateExtend(p, v, 8, s); s := s + green + ", ";
    InterpolateExtend(p, v, 9, s); s := s + blue + ")\" fill-opacity=\"";
    InterpolateExtend(p, v, 10, s); s := s + opacity + "\"></rect>";
    assert p[..11] == p && v[..10] == v;
  }

  /** The rectangle element, attribute by attribute, in the source's order. */
  lemma RectangleLayout(r: RectangleShape)
    ensures RectangleElement(r)
      == "<rect width=\"" + IntToDecimal(r.w) + "\" height=\"" + IntToDecimal(r.h)
       + "\" x=\"" + IntToDecimal(r.x) + "\" y=\"" + IntToDecimal(r.y)
       + "\" rx=\"" + IntToDecimal(r.rx) + "\" ry=\"" + IntToDecimal(r.ry)
       + "\" fill=\"rgb(" + IntToDecimal(r.red) + ", " + IntToDecimal(r.green) + ", " + IntToDecimal(r.blue)
       + ")\" fill-opacity=\"" + OneDecimal(r.opacity) + "\"></rect>"
  {
    RectanglePiecesInterpolated(IntToDecimal(r.w), IntToDecimal(r.h), IntToDecimal(r.x),
      IntToDecimal(r.y), IntToDecimal(r.rx), IntToDecimal(r.ry), IntToDecimal(r.red),
      IntToDecimal(r.green), IntToDecimal(r.blue), OneDecimal(r.opacity));
  }

  lemma EllipsePiecesInterpolated(rx: string, ry: string, cx: string, cy: string, red: string,
      green: string, blue: string, opacity: string)
    ensures Interpolate(EllipsePieces, [rx, ry, cx, cy, red, green, blue, opacity])
      == "<ellipse rx=\"" + rx + "\" ry=\"" + ry + "\" cx=\"" + cx + "\" cy=\"" + cy
       + "\" fill=\"rgb(" + red + ", " + green + ", " + blue
       + ")\" fill-opacity=\"" + opacity + "\"></ellipse>"
  {
    var p, v := EllipsePieces, [rx, ry, cx, cy, red, green, blue, opacity];
    InterpolateFirst(p, v);
    var s := "<ellipse rx=\"";
    InterpolateExtend(p, v, 1, s); s := s + rx + "\" ry=\"";
    InterpolateExtend(p, v, 2, s); s := s + ry + "\" cx=\"";
    InterpolateExtend(p, v, 3, s); s := s + cx + "\" cy=\"";
    InterpolateExtend(p, v, 4, s); s := s + cy + "\" fill=\"rgb(";
    InterpolateExtend(p, v, 5, s); s := s + red + ", ";
    InterpolateExtend(p, v, 6, s); s := s + green + ", ";
    InterpolateExtend(p, v, 7, s); s := s + blue + ")\" fill-opacity=\"";
    InterpolateExtend(p, v, 8, s); s := s + opacity + "\"></ellipse>";
    assert p[..9] == p && v[..8] == v;
  }

  /** The ellipse element, attribute by attribute, in the source's order. */
  lemma EllipseLayout(e: EllipseShape)
    ensures EllipseElement(e)
      == "<ellipse rx=\"" + IntToDecimal(e.rx) + "\" ry=\"" + IntToDecimal(e.ry)
       + "\" cx=\"" + IntToDecimal(e.cx) + "\" cy=\"" + IntToDecimal(e.cy)
       + "\" fill=\"rgb(" + IntToDecimal(e.red) + ", " + IntToDecimal(e.green) + ", " + IntToDecimal(e.blue)
       + ")\" fill-opacity=\"" + OneDecimal(e.opacity) + "\"></ellipse>"
  {
    EllipsePiecesInterpolated(IntToDecimal(e.rx), IntToDecimal(e.ry), IntToDecimal(e.cx),
      IntToDecimal(e.cy), IntToDecimal(e.red), IntToDecimal(e.green), IntToDecimal(e.blue),
      OneDecimal(e.opacity));
  }

  // ---- what the layouts promise ----

  lemma CircleValuesAreNumbers(c: CircleShape)
    ensures forall i :: 0 <= i < |CircleValues(c)| ==> AllNumberChars(CircleValues(c)[i])
  {
    var v := CircleValues(c);
    forall i | 0 <= i < |v| ensures AllNumberChars(v[i]) {
    }
  }

  lemma RectangleValuesAreNumbers(r: RectangleShape)
    ensures forall i :: 0 <= i < |RectangleValues(r)| ==> AllNumberChars(RectangleValues(r)[i])
  {
    var v := RectangleValues(r);
    forall i | 0 <= i < |v| ensures AllNumberChars(v[i]) {
    }
  }

  lemma EllipseValuesAreNumbers(e: EllipseShape)
    ensures forall i :: 0 <= i < |EllipseValues(e)| ==> AllNumberChars(EllipseValues(e)[i])
  {
    var v := EllipseValues(e);
    forall i | 0 <= i < |v| ensures AllNumberChars(v[i]) {
    }
  }

  /** Every piece followed by a value ends in a quote, a parenthesis or a space. */
  lemma PiecesDelimiting()
    ensures Delimiting(CirclePieces) && Delimiting(RectanglePieces) && Delimiting(EllipsePieces)
  {
  }

  /**
   * The circle element carries cx, cy, r, the colour and the opacity so that
   * two circles give the same element exactly when those fields agree.
   */
  lemma CircleElementInjective(a: CircleShape, b: CircleShape)
    ensures CircleElement(a) == CircleElement(b) <==>
      && a.cx == b.cx && a.cy == b.cy && a.rad == b.rad
      && a.red == b.red && a.green == b.green && a.blue == b.blue
      && OneDecimal(a.opacity) == OneDecimal(b.opacity)
  {
    CircleValuesAreNumbers(a);
    CircleValuesAreNumbers(b);
    PiecesDelimiting();
    InterpolateInjective(CirclePieces, CircleValues(a), CircleValues(b));
    IntToDecimalInjective(a.cx, b.cx);
    IntToDecimalInjective(a.cy, b.cy);
    IntToDecimalInjective(a.rad, b.rad);
    IntToDecimalInjective(a.red, b.red);
    IntToDecimalInjective(a.green, b.green);
    IntToDecimalInjective(a.blue, b.blue);
  }

  lemma RectangleElementInjective(a: RectangleShape, b: RectangleShape)
    ensures RectangleElement(a) == RectangleElement(b) <==>
      && a.w == b.w && a.h == b.h && a.x == b.x && a.y == b.y && a.rx == b.rx && a.ry == b.ry
      && a.red == b.red && a.green == b.green && a.blue == b.blue
      && OneDecimal(a.opacity) == OneDecimal(b.opacity)
  {
    RectangleValuesAreNumbers(a);
    RectangleValuesAreNumbers(b);
    PiecesDelimiting();
    InterpolateInjective(RectanglePieces, RectangleValues(a), RectangleValues(b));
    IntToDecimalInjective(a.w, b.w);
    IntToDecimalInjective(a.h, b.h);
    IntToDecimalInjective(a.x, b.x);
    IntToDecimalInjective(a.y, b.y);
    IntToDecimalInjective(a.rx, b.rx);
    IntToDecimalInjective(a.ry, b.ry);
    IntToDecimalInjective(a.red, b.red);
    IntToDecimalInjective(a.green, b.green);
    IntToDecimalInjective(a.blue, b.blue);
  }

  lemma EllipseElementInjective(a: EllipseShape, b: EllipseShape)
    ensures EllipseElement(a) == EllipseElement(b) <==>
      && a.rx == b.rx && a.ry == b.ry && a.cx == b.cx && a.cy == b.cy
      && a.red == b.red && a.green == b.green && a.blue == b.blue
      && OneDecimal(a.opacity) == OneDecimal(b.opacity)
  {
    EllipseValuesAreNumbers(a);
    EllipseValuesAreNumbers(b);
    PiecesDelimiting();
    InterpolateInjective(EllipsePieces, EllipseValues(a), EllipseValues(b));
    IntToDecimalInjective(a.rx, b.rx);
    IntToDecimalInjective(a.ry, b.ry);
    IntToDecimalInjective(a.cx, b.cx);
    IntToDecimalInjective(a.cy, b.cy);
    IntToDecimalInjective(a.red, b.red);
    IntToDecimalInjective(a.green, b.green);
    IntToDecimalInjective(a.blue, b.blue);
  }

  /** Indentation, then the element, then one newline, the only one on the line. */
  lemma LineLayout(tabNum: int, element: string)
    requires '\n' !in element
    ensures var r, k := Line(tabNum, element), if tabNum > 0 then 3 * tabNum else 0;
      && |r| == k + |element| + 1
      && (forall i :: 0 <= i < k ==> r[i] == ' ')
      && r[k..|r| - 1] == element
      && r[|r| - 1] == '\n'
      && (forall i :: 0 <= i < |r| - 1 ==> r[i] != '\n')
  {
    var r, k := Line(tabNum, element), |Tabs(tabNum)|;
    assert r[k..|r| - 1] == element;
    forall i | 0 <= i < |r| - 1 ensures r[i] != '\n' {
      if i >= k {
        assert r[i] == element[i - k];
      }
    }
  }

  lemma LineFramed(tabNum: int, element: string, tag: string)
    requires |element| > |tag| && element[..|tag|] == tag && '\n' !in element
    ensures FramedLine(tabNum, tag, Line(tabNum, element))
  {
    var r, k := Line(tabNum, element), |Tabs(tabNum)|;
    assert r[..k] == Tabs(tabNum);
    assert r[k..k + |tag|] == element[..|tag|];
    assert r[..|r| - 1] == Tabs(tabNum) + element;
  }

  lemma IndentPosition(tabNum: int, element: string, k: nat)
    requires |element| > 0 && element[0] == '<'
    requires k <= |Tabs(tabNum)|
    ensures (Tabs(tabNum) + element)[k] == ' ' <==> k < |Tabs(tabNum)|
  {
  }

  /** Lines of elements that open with a tag determine their indentation and their element. */
  lemma LineInjective(t1: int, e1: string, t2: int, e2: string)
    requires |e1| > 0 && e1[0] == '<' && |e2| > 0 && e2[0] == '<'
    ensures Line(t1, e1) == Line(t2, e2) <==> Tabs(t1) == Tabs(t2) && e1 == e2
  {
    if Line(t1, e1) == Line(t2, e2) {
      var s1, s2 := Tabs(t1) + e1, Tabs(t2) + e2;
      assert s1 == Line(t1, e1)[..|s1|];
      assert s2 == Line(t2, e2)[..|s2|];
      var k1, k2 := |Tabs(t1)|, |Tabs(t2)|;
      var k := if k1 < k2 then k1 else k2;
      IndentPosition(t1, e1, k);
      IndentPosition(t2, e2, k);
      assert Tabs(t1) == s1[..k1] && Tabs(t2) == s2[..k2];
      assert e1 == s1[k1..] && e2 == s2[k2..];
    }
  }

  /**
   * An element interpolated into pieces none of which holds a newline, and
   * whose first piece opens with `tag`, opens with `tag` and holds no newline.
   */
  lemma InterpolatedFramed(pieces: seq<string>, values: seq<string>, tag: string)
    requires |pieces| == |values| + 1
    requires |pieces[0]| > |tag| && pieces[0][..|tag|] == tag
    requires forall i :: 0 <= i < |pieces| ==> '\n' !in pieces[i]
    requires forall i :: 0 <= i < |values| ==> AllNumberChars(values[i])
    ensures |Interpolate(pieces, values)| > |tag| && Interpolate(pieces, values)[..|tag|] == tag
    ensures '\n' !in Interpolate(pieces, values)
  {
    InterpolateStartsWith(pieces, values);
    assert Interpolate(pieces, values)[..|tag|] == Interpolate(pieces, values)[..|pieces[0]|][..|tag|];
    InterpolateExcludes(pieces, values, '\n');
  }

  /** Each element opens with its own tag and holds no newline. */
  lemma CircleFramed(c: CircleShape)
    ensures |CircleElement(c)| > 8 && CircleElement(c)[..8] == "<circle "
    ensures '\n' !in CircleElement(c)
  {
    CircleValuesAreNumbers(c);
    assert forall i :: 0 <= i < |CirclePieces| ==> '\n' !in CirclePieces[i];
    InterpolatedFramed(CirclePieces, CircleValues(c), "<circle ");
  }

  lemma RectangleFramed(r: RectangleShape)
    ensures |RectangleElement(r)| > 6 && RectangleElement(r)[..6] == "<rect "
    ensures '\n' !in RectangleElement(r)
  {
    RectangleValuesAreNumbers(r);
    assert forall i :: 0 <= i < |RectanglePieces| ==> '\n' !in RectanglePieces[i];
    InterpolatedFramed(RectanglePieces, RectangleValues(r), "<rect ");
  }

  lemma EllipseFramed(e: EllipseShape)
    ensures |EllipseElement(e)| > 9 && EllipseElement(e)[..9] == "<ellipse "
    ensures '\n' !in EllipseElement(e)
  {
    EllipseValuesAreNumbers(e);
    assert forall i :: 0 <= i < |EllipsePieces| ==> '\n' !in EllipsePieces[i];
    InterpolatedFramed(EllipsePieces, EllipseValues(e), "<ellipse ");
  }

  /** A framed line character by character: spaces, the tag, and a single newline at the end. */
  lemma FramedLineChars(tabNum: int, tag: string, r: string)
    requires FramedLine(tabNum, tag, r)
    ensures var k := if tabNum > 0 then 3 * tabNum else 0;
      && |r| > k + |tag| + 1
      && (forall i :: 0 <= i < k ==> r[i] == ' ')
      && r[k..k + |tag|] == tag
      && r[|r| - 1] == '\n'
      && (forall i :: 0 <= i < |r| - 1 ==> r[i] != '\n')
  {
    var k := |Tabs(tabNum)|;
    forall i | 0 <= i < k ensures r[i] == ' ' {
      assert r[..k][i] == r[i];
    }
    forall i | 0 <= i < |r| - 1 ensures r[i] != '\n' {
      assert r[..|r| - 1][i] == r[i];
    }
  }

  /** Each draw writes the indentation, its own tag, and one closing newline. */
  lemma CircleLineFramed(tabNum: int, c: CircleShape)
    ensures FramedLine(tabNum, "<circle ", DrawCircleLine(tabNum, c))
  {
    CircleFramed(c);
    LineFramed(tabNum, CircleElement(c), "<circle ");
  }

  lemma RectangleLineFramed(tabNum: int, r: RectangleShape)
    ensures FramedLine(tabNum, "<rect ", DrawRectangle(tabNum, r))
  {
    RectangleFramed(r);
    LineFramed(tabNum, RectangleElement(r), "<rect ");
  }

  lemma EllipseLineFramed(tabNum: int, e: EllipseShape)
    ensures FramedLine(tabNum, "<ellipse ", DrawEllipse(tabNum, e))
  {
    EllipseFramed(e);
    LineFramed(tabNum, EllipseElement(e), "<ellipse ");
  }

  lemma DifferentTagsDifferentLines(t1: int, e1: string, t2: int, e2: string)
    requires |e1| > 1 && e1[0] == '<' && |e2| > 1 && e2[0] == '<' && e1[1] != e2[1]
    ensures Line(t1, e1) != Line(t2, e2)
  {
    LineInjective(t1, e1, t2, e2);
  }

  /** A circle line, a rectangle line and an ellipse line are never the same text. */
  lemma KindsDistinct(t1: int, t2: int, c: CircleShape, r: RectangleShape, e: EllipseShape)
    ensures DrawCircleLine(t1, c) != DrawRectangle(t2, r)
    ensures DrawCircleLine(t1, c) != DrawEllipse(t2, e)
    ensures DrawRectangle(t1, r) != DrawEllipse(t2, e)
  {
    CircleOpensTag(c);
    RectangleOpensTag(r);
    EllipseOpensTag(e);
    DifferentTagsDifferentLines(t1, CircleElement(c), t2, RectangleElement(r));
    DifferentTagsDifferentLines(t1, CircleElement(c), t2, EllipseElement(e));
    DifferentTagsDifferentLines(t1, RectangleElement(r), t2, EllipseElement(e));
  }

  /** Two draws at the same indentation give the same line exactly when the elements agree. */
  lemma SameIndentLines(tabNum: int, e1: string, e2: string)
    requires |e1| > 0 && e1[0] == '<' && |e2| > 0 && e2[0] == '<'
    ensures Line(tabNum, e1) == Line(tabNum, e2) <==> e1 == e2
  {
    LineInjective(tabNum, e1, tabNum, e2);
  }

  lemma CircleOpensTag(c: CircleShape)
    ensures |CircleElement(c)| > 1 && CircleElement(c)[0] == '<' && CircleElement(c)[1] == 'c'
  {
    CircleFramed(c);
    var el := CircleElement(c);
    assert el[..8][0] == el[0] && el[..8][1] == el[1];
  }

  lemma RectangleOpensTag(r: RectangleShape)
    ensures |RectangleElement(r)| > 1 && RectangleElement(r)[0] == '<' && RectangleElement(r)[1] == 'r'
  {
    RectangleFramed(r);
    var el := RectangleElement(r);
    assert el[..6][0] == el[0] && el[..6][1] == el[1];
  }

  lemma EllipseOpensTag(e: EllipseShape)
    ensures |EllipseElement(e)| > 1 && EllipseElement(e)[0] == '<' && EllipseElement(e)[1] == 'e'
  {
    EllipseFramed(e);
    var el := EllipseElement(e);
    assert el[..9][0] == el[0] && el[..9][1] == el[1];
  }
}
