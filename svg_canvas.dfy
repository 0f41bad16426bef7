/**
 * SvgCanvas: the writer of the drawing box. The file it writes to is
 * modelled as `out`, the sequence of strings written so far, in order.
 */
module SvgCanvasModule {
  import opened Text
  import opened ArtConfig
  import opened Shapes
  import opened RandomShapes
  import opened ArtPolicy

  function CommentLine(tabNum: int, comment: string): string {
    Tabs(tabNum) + "<!--" + comment + "-->\n"
  }

  class SvgCanvas {
    /** The name of the file being written, which selects the artwork. */
    const fileName: string
    /** Everything written to the file by this canvas, one write per entry. */
    var out: seq<string>

    constructor (fileName: string)
      ensures this.fileName == fileName && out == []
    {
      this.fileName := fileName;
      out := [];
    }

    method WriteHtmlComment(tabNum: int, comment: string)
      modifies this
      ensures out == old(out) + [CommentLine(tabNum, comment)]
    {
      out := out + [CommentLine(tabNum, comment)];
    }

    /** Opens the drawing box of the given width and height. */
    method OpenSvgCanvas(tabNum: int, canvas: (int, int))
      modifies this
      ensures out == old(out) + [CommentLine(tabNum, "Define SVG drawing box"),
        Tabs(tabNum) + "<svg width=\"" + IntToDecimal(canvas.0) + "\" height=\"" + IntToDecimal(canvas.1) + "\">\n"]
    {
      WriteHtmlComment(tabNum, "Define SVG drawing box");
      out := out + [Tabs(tabNum) + "<svg width=\"" + IntToDecimal(canvas.0) + "\" height=\"" + IntToDecimal(canvas.1) + "\">\n"];
    }

    /**
     * Writes the artwork: a comment, then one element line per random shape,
     * in the order drawn. `ok` is false when the file name selects no
     * artwork; the source then fails after writing the comment.
     * `shapes` are the drawn shapes, which the source does not return.
     */
    method GenArt(tabNum: int, rng: RandomSource) returns (ok: bool, ghost shapes: seq<ShapeSample>)
      modifies this, rng
      ensures ok <==> ArtworkOf(fileName).Some?
      ensures !ok ==> out == old(out) + [CommentLine(tabNum, "Generate art here")]
      ensures ok ==> var art := ArtworkOf(fileName).value;
        && |shapes| == NumShapes(art)
        && (forall i :: 0 <= i < |shapes| ==> shapes[i].cnt == i && InRange(shapes[i]))
        && out == old(out) + [CommentLine(tabNum, "Generate art here")] + RenderShapes(art, shapes, tabNum)
        && |out| == |old(out)| + 1 + NumShapes(art)
    {
      WriteHtmlComment(tabNum, "Generate art here");
      shapes := [];
      var randomShape := new RandomShape(0, rng);

      var numShapes: int;
      var art: Artwork;
      if fileName == "art_piece3.html" {
        numShapes, art := 500, ArtPiece3;
      } else if fileName == "art_piece2.html" {
        numShapes, art := 300, ArtPiece2;
      } else if fileName == "art_piece1.html" {
        numShapes, art := 1000, ArtPiece1;
      } else {
        ok := false;
        return;
      }
      ok := true;
      assert ArtworkOf(fileName) == Some(art) && numShapes == NumShapes(art);

      var shapeData := randomShape.GenRandShapeData(numShapes, rng);
      shapes := DrawShapes(shapeData, tabNum);
      OneLinePerShape(art, shapes, tabNum);
    }

    /** The loop of genArt over the drawn shapes: each shape's line, in order. */
    method DrawShapes(shapeData: seq<RandomShape>, tabNum: int) returns (ghost shapes: seq<ShapeSample>)
      requires ArtworkOf(fileName).Some?
      modifies this
      ensures |shapes| == |shapeData|
      ensures forall j :: 0 <= j < |shapeData| ==> shapes[j] == shapeData[j].Sample()
      ensures out == old(out) + RenderShapes(ArtworkOf(fileName).value, shapes, tabNum)
    {
      var art := ArtworkOf(fileName).value;
      ghost var start := out;
      shapes := [];
      var i := 0;
      while i < |shapeData|
        invariant 0 <= i <= |shapeData| && |shapes| == i
        invariant forall j :: 0 <= j < i ==> shapes[j] == shapeData[j].Sample()
        invariant out == start + RenderShapes(art, shapes, tabNum)
      {
        var shape := shapeData[i];
        ghost var sample := shape.Sample();
        var lines := ShapeLines(shape, tabNum);
        RenderShapesAppend(art, shapes, sample, tabNum);
        out := out + lines;
        shapes := shapes + [sample];
        i := i + 1;
      }
    }

    /**
     * The element line genArt writes for one shape: the shape built for its
     * kind, with this file's colour switch, drawn at the indentation.
     */
    method ShapeLines(shape: RandomShape, tabNum: int) returns (lines: seq<string>)
      requires ArtworkOf(fileName).Some?
      ensures lines == RenderShape(ArtworkOf(fileName).value, shape.Sample(), tabNum)
    {
      if shape.sha == Circle {
        var circle := CircleShape(shape.x, shape.y, shape.rad, shape.red, shape.green, shape.blue, shape.op);
        if fileName == "art_piece3.html" {
          circle := CircleShape(shape.x, shape.y, shape.rad, shape.red, 0, shape.blue, shape.op);
        } else if fileName == "art_piece2.html" {
          circle := CircleShape(shape.x, shape.y, shape.rad, shape.red, shape.green, 0, shape.op);
        }
        lines := [DrawCircleLine(tabNum, circle)];
      } else if shape.sha == Rectangle {
        var rectangle := RectangleShape(shape.w, shape.h, shape.x, shape.y, shape.rx, shape.ry,
                                        shape.red, shape.green, shape.blue, shape.op);
        if fileName == "art_piece3.html" {
          rectangle := RectangleShape(shape.w, shape.h, shape.x, shape.y, shape.rx, shape.ry,
                                      shape.red, 0, shape.blue, shape.op);
        } else if fileName == "art_piece2.html" {
          rectangle := RectangleShape(shape.w, shape.h, shape.x, shape.y, 0, 0,
                                      shape.red, shape.green, 0, shape.op);
        }
        lines := [DrawRectangle(tabNum, rectangle)];
      } else if shape.sha == Ellipse {
        var ellipse := EllipseShape(shape.rx, shape.ry, shape.x, shape.y, shape.red, shape.green, shape.blue, shape.op);
        if fileName == "art_piece3.html" {
          ellipse := EllipseShape(shape.rx, shape.ry, shape.x, shape.y, shape.red, 0, shape.blue, shape.op);
        } else if fileName == "art_piece2.html" {
          ellipse := EllipseShape(shape.rx, shape.ry, shape.x, shape.y, shape.red, shape.green, 0, shape.op);
        }
        lines := [DrawEllipse(tabNum, ellipse)];
      } else {
        lines := [];
      }
    }

    /** Closes the drawing box. */
    method CloseSvgCanvas(tabNum: int)
      modifies this
      ensures out == old(out) + [Tabs(tabNum) + "</svg>\n"]
    {
      out := out + [Tabs(tabNum) + "</svg>\n"];
    }
  }
}
