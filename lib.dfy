/** The factory functions of src/lib.rs. */
module Lib {
  import opened Tuples
  import opened Colors
  import opened Canvases

  /** `tuple`. */
  function MakeTuple(x: real, y: real, z: real, w: real): (t: Tuple)
    ensures t.x == x && t.y == y && t.z == z && t.w == w
  {
    New(x, y, z, w)
  }

  /** `point`. */
  function MakePoint(x: real, y: real, z: real): (p: Tuple)
    ensures p == MakeTuple(x, y, z, 1.0)
    ensures IsPoint(p) && !IsVector(p)
  {
    Point(x, y, z)
  }

  /** `vector`. */
  function MakeVector(x: real, y: real, z: real): (v: Tuple)
    ensures v == MakeTuple(x, y, z, 0.0)
    ensures IsVector(v) && !IsPoint(v)
  {
    Vector(x, y, z)
  }

  /** `color`: a colour is built as a point, so its w is 1. */
  function MakeColor(r: real, g: real, b: real): (c: Color)
    ensures c == MakePoint(r, g, b) && IsPoint(c) && c.w == 1.0
    ensures Red(c) == r && Green(c) == g && Blue(c) == b
  {
    MakePoint(r, g, b)
  }

  /** The buffer `vec!(color(0.0, 0.0, 0.0); n)`. */
  function Blank(n: nat): (ps: seq<Color>)
    ensures |ps| == n
    ensures forall i :: 0 <= i < n ==> ps[i] == MakeColor(0.0, 0.0, 0.0)
  {
    seq(n, _ => MakeColor(0.0, 0.0, 0.0))
  }

  /** `canvas`: width * height black pixels. The new canvas is sized, so
      every write inside the picture passes the checks of `write_pixel`. */
  method NewCanvas(width: nat, height: nat) returns (c: Canvas)
    ensures fresh(c) && fresh(c.pixels)
    ensures c.width == width && c.height == height
    ensures c.Sized() && c.pixels[..] == Blank(width * height)
  {
    c := new Canvas(width, height, Blank(width * height));
  }

  /** The factories as the tests of the source use them: a point is the
      tuple with w = 1 and a vector the tuple with w = 0; a colour's
      channels read back as given. */
  lemma FactoryExamples()
    ensures MakePoint(4.0, -4.0, 3.0) == MakeTuple(4.0, -4.0, 3.0, 1.0)
    ensures MakeVector(4.0, -4.0, 3.0) == MakeTuple(4.0, -4.0, 3.0, 0.0)
    ensures var c := MakeColor(-0.5, 0.4, 1.7);
      Red(c) == -0.5 && Green(c) == 0.4 && Blue(c) == 1.7
    ensures MakeColor(0.0, 0.0, 0.0) == Tuple(0.0, 0.0, 0.0, 1.0)
  {
  }
}
