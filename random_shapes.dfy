/**
 * RandomShape: one shape's fields, drawn by make_random_shape from the
 * configured ranges, and gen_rand_shape_data, which draws a list of them.
 * The random source is passed in; all the model relies on is that each
 * draw lands in the range it was asked for.
 */
module RandomShapes {
  import opened ArtConfig

  /**
   * The random source (Python's `random` module). Its draws come from a
   * linear congruential generator over `state`, so a seed fixes the
   * sequence; callers may rely only on the ranges the contracts state.
   */
  class RandomSource {
    var state: nat

    constructor (seed: nat)
      ensures state == seed
    {
      state := seed;
    }

    method Next()
      modifies this
    {
      state := (state * 1103515245 + 12345) % 2147483648;
    }

    /** `random.randint(lo, hi)`: an integer in the inclusive range. */
    method RandInt(lo: int, hi: int) returns (v: int)
      requires lo <= hi
      modifies this
      ensures lo <= v <= hi
    {
      Next();
      v := lo + state % (hi - lo + 1);
    }

    /** `random.choice(values)`: one of the values. */
    method Choice(values: seq<int>) returns (v: int)
      requires |values| > 0
      modifies this
      ensures v in values
    {
      Next();
      v := values[state % |values|];
    }

    /** `random.random()`: a value in [0.0, 1.0). */
    method Random() returns (v: real)
      modifies this
      ensures 0.0 <= v < 1.0
    {
      Next();
      v := (state % 1000) as real / 1000.0;
    }
  }

  class RandomShape {
    var cnt: int
    var sha: int
    var x: int
    var y: int
    var rad: int
    var w: int
    var h: int
    var rx: int
    var ry: int
    var red: int
    var green: int
    var blue: int
    var op: real

    /** The shape's fields as a value. */
    function Sample(): ShapeSample
      reads this
    {
      ShapeSample(cnt, sha, x, y, rad, w, h, rx, ry, red, green, blue, op)
    }

    /** A new shape with index `cnt` whose fields are freshly drawn. */
    constructor (cnt: int, rng: RandomSource)
      modifies rng
      ensures this.cnt == cnt
      ensures InRange(Sample())
    {
      this.cnt := cnt;
      new;
      MakeRandomShape(rng);
    }

    /** Draws the kind and every geometry, colour and opacity field from its range. */
    method MakeRandomShape(rng: RandomSource)
      modifies this, rng
      ensures cnt == old(cnt)
      ensures InRange(Sample())
    {
      var sha' := rng.Choice(ShapeValues);
      var x' := rng.RandInt(XRange.lo, XRange.hi);
      var y' := rng.RandInt(YRange.lo, YRange.hi);
      var rad' := rng.RandInt(RadRange.lo, RadRange.hi);
      var w' := rng.RandInt(WRange.lo, WRange.hi);
      var h' := rng.RandInt(HRange.lo, HRange.hi);
      var rx' := rng.RandInt(RxRange.lo, RxRange.hi);
      var ry' := rng.RandInt(RyRange.lo, RyRange.hi);
      var red' := rng.RandInt(RgbRange.lo, RgbRange.hi);
      var green' := rng.RandInt(RgbRange.lo, RgbRange.hi);
      var blue' := rng.RandInt(RgbRange.lo, RgbRange.hi);
      var op' := rng.Random();
      sha, x, y, rad, w, h, rx, ry := sha', x', y', rad', w', h', rx', ry';
      red, green, blue, op := red', green', blue', op';
    }

    /**
     * `num_shapes` new shapes, in order, the i-th with index i; none when
     * `num_shapes` is zero or negative (an empty `range`).
     */
    method GenRandShapeData(numShapes: int, rng: RandomSource) returns (shapeData: seq<RandomShape>)
      modifies rng
      ensures |shapeData| == if numShapes > 0 then numShapes else 0
      ensures forall i :: 0 <= i < |shapeData| ==> fresh(shapeData[i])
      ensures forall i :: 0 <= i < |shapeData| ==> shapeData[i].cnt == i && InRange(shapeData[i].Sample())
    {
      shapeData := [];
      var cnt := 0;
      var i := 0;
      while i < numShapes
        invariant 0 <= i <= if numShapes > 0 then numShapes else 0
        invariant cnt == i && |shapeData| == i
        invariant forall j :: 0 <= j < i ==> fresh(shapeData[j])
        invariant forall j :: 0 <= j < i ==> shapeData[j].cnt == j && InRange(shapeData[j].Sample())
      {
        var randomShape := new RandomShape(cnt, rng);
        shapeData := shapeData + [randomShape];
        cnt := cnt + 1;
        i := i + 1;
      }
    }
  }
}
