/** Colours (src/color.rs): a tuple reread as red/green/blue, with the
    Hadamard product and the clamped PPM text of one pixel. */
module Colors {
  import opened Tuples
  import opened Strings

  /** In the source `Color` is a type alias of `Tuple`. */
  type Color = Tuple

  function Red(c: Color): real { c.x }

  function Green(c: Color): real { c.y }

  function Blue(c: Color): real { c.z }

  /** The channels are the tuple's x, y and z: a colour is rebuilt from its
      three channels and its w. */
  lemma Channels(c: Color)
    ensures Red(c) == c.x && Green(c) == c.y && Blue(c) == c.z
    ensures c == Tuple(Red(c), Green(c), Blue(c), c.w)
  {
  }

  /** `f32::round`: the nearest integer, halves rounded away from zero. */
  function Round(v: real): (n: int)
    ensures v >= 0.0 ==> n >= 0 && n as real - 0.5 <= v < n as real + 0.5
    ensures v <= 0.0 ==> n <= 0 && n as real - 0.5 < v <= n as real + 0.5
  {
    if v >= 0.0 then (v + 0.5).Floor else -((-v + 0.5).Floor)
  }

  /** Rust's saturating `as u8` cast of an integral value. */
  function ToByte(n: int): (b: nat)
    ensures b <= 255
    ensures 0 <= n <= 255 ==> b == n
  {
    if n < 0 then 0 else if n > 255 then 255 else n
  }

  /** `clamped(part, scale)`: the part limited to [0, 1], scaled, rounded,
      and cast to u8. */
  function Clamped(part: real, scale: real): (b: nat)
    ensures b <= 255
  {
    var n := if part > 1.0 then 1.0 else if part < 0.0 then 0.0 else part;
    ToByte(Round(n * scale))
  }

  /** The channel encoding proper: above 1 is 255, below 0 is 0, and in
      between the byte is the integer nearest to part * 255, halves going
      up; so 0.5, 0.8 and 0.6 become 128, 204 and 153. */
  lemma ClampedChannel(part: real)
    ensures part > 1.0 ==> Clamped(part, 255.0) == 255
    ensures part < 0.0 ==> Clamped(part, 255.0) == 0
    ensures 0.0 <= part <= 1.0 ==>
      var b := Clamped(part, 255.0) as real;
      b - 0.5 <= part * 255.0 < b + 0.5
    ensures Clamped(0.5, 255.0) == 128
    ensures Clamped(0.8, 255.0) == 204
    ensures Clamped(0.6, 255.0) == 153
  {
  }

  /** `ppm_str`: the three clamped channels in decimal, separated by single
      spaces. */
  function PpmStr(c: Color): string
  {
    Dec(Clamped(Red(c), 255.0)) + " " + Dec(Clamped(Green(c), 255.0)) + " " + Dec(Clamped(Blue(c), 255.0))
  }

  /** The shape of a pixel's text: digits and exactly two spaces, no space
      at either end, no line feed, and between 5 and 11 characters. */
  lemma PpmStrShape(c: Color)
    ensures 5 <= |PpmStr(c)| <= 11
    ensures PpmStr(c)[0] != ' ' && PpmStr(c)[|PpmStr(c)| - 1] != ' '
    ensures Trimmed(PpmStr(c))
    ensures Count(PpmStr(c), ' ') == 2
    ensures '\n' !in PpmStr(c)
    ensures forall i :: 0 <= i < |PpmStr(c)| ==> IsDigit(PpmStr(c)[i]) || PpmStr(c)[i] == ' '
  {
    DecLength(Clamped(Red(c), 255.0));
    DecLength(Clamped(Green(c), 255.0));
    DecLength(Clamped(Blue(c), 255.0));
    TripleShape(Dec(Clamped(Red(c), 255.0)), Dec(Clamped(Green(c), 255.0)), Dec(Clamped(Blue(c), 255.0)));
  }

  lemma TripleShape(r: string, g: string, b: string)
    requires 1 <= |r| <= 3 && 1 <= |g| <= 3 && 1 <= |b| <= 3
    requires AllDigits(r) && AllDigits(g) && AllDigits(b)
    ensures var s := r + " " + g + " " + b;
      && 5 <= |s| <= 11
      && s[0] != ' ' && s[|s| - 1] != ' ' && Trimmed(s)
      && Count(s, ' ') == 2
      && '\n' !in s
      && forall i :: 0 <= i < |s| ==> IsDigit(s[i]) || s[i] == ' '
  {
    var s := r + " " + g + " " + b;
    assert s[0] == r[0] && s[|s| - 1] == b[|b| - 1];
    CountAbsent(r, ' ');
    CountAbsent(g, ' ');
    CountAbsent(b, ' ');
    CountAppend(r, " ", ' ');
    CountAppend(r + " ", g, ' ');
    CountAppend(r + " " + g, " ", ' ');
    CountAppend(r + " " + g + " ", b, ' ');
    forall i | 0 <= i < |s| ensures IsDigit(s[i]) || s[i] == ' ' {
      if i < |r| { assert s[i] == r[i]; }
      else if i == |r| { }
      else if i < |r| + 1 + |g| { assert s[i] == g[i - |r| - 1]; }
      else if i == |r| + 1 + |g| { }
      else { assert s[i] == b[i - |r| - 2 - |g|]; }
    }
  }

  /** The index of the first space of a pixel's text is at most 3. */
  lemma PpmStrFirstSpace(c: Color)
    ensures exists k :: 0 <= k <= 3 && k < |PpmStr(c)| && PpmStr(c)[k] == ' '
  {
    var r := Dec(Clamped(Red(c), 255.0));
    DecLength(Clamped(Red(c), 255.0));
    assert PpmStr(c)[|r|] == ' ';
  }

  /** Reads the three numbers back from text written as `ppm_str` writes
      it: a number, one separator, a number, one separator, a number. */
  function ReadPpmStr(s: string): (nat, nat, nat)
  {
    var (r, s1) := ReadDec(s);
    var (g, s2) := ReadDec(Tail(s1));
    (r, g, ReadDec(Tail(s2)).0)
  }

  function Tail(s: string): string { if s == [] then [] else s[1..] }

  /** Reading three numbers back from their `ppm_str` text gives them. */
  lemma ReadTriple(r: nat, g: nat, b: nat)
    ensures ReadPpmStr(Dec(r) + " " + Dec(g) + " " + Dec(b)) == (r, g, b)
  {
    var t2 := Dec(g) + " " + Dec(b);
    assert Dec(r) + " " + Dec(g) + " " + Dec(b) == Dec(r) + " " + t2;
    ReadDecThen(r, ' ', t2);
    assert Tail(" " + t2) == t2;
    ReadDecThen(g, ' ', Dec(b));
    ReadDecOf(b, []);
    assert Tail(" " + Dec(b)) == Dec(b) + [];
  }

  /** Reading a pixel's text back gives its three clamped channels. */
  lemma ReadPpmStrRoundTrip(c: Color)
    ensures ReadPpmStr(PpmStr(c)) == (Clamped(Red(c), 255.0), Clamped(Green(c), 255.0), Clamped(Blue(c), 255.0))
  {
    ReadTriple(Clamped(Red(c), 255.0), Clamped(Green(c), 255.0), Clamped(Blue(c), 255.0));
  }

  /** A pixel's text depends on the three clamped channels and on nothing
      else: neither on w nor on how far a channel lies beyond [0, 1]. */
  lemma PpmStrInjective(c: Color, d: Color)
    ensures PpmStr(c) == PpmStr(d) <==>
      Clamped(Red(c), 255.0) == Clamped(Red(d), 255.0) &&
      Clamped(Green(c), 255.0) == Clamped(Green(d), 255.0) &&
      Clamped(Blue(c), 255.0) == Clamped(Blue(d), 255.0)
  {
    ReadPpmStrRoundTrip(c);
    ReadPpmStrRoundTrip(d);
  }

  /** `impl Mul for Color`: the Hadamard (Schur) product, with w = 0. */
  function Hadamard(a: Color, b: Color): Color
  {
    Tuple(Red(a) * Red(b), Green(a) * Green(b), Blue(a) * Blue(b), 0.0)
  }

  /** The Hadamard product multiplies channel by channel, is a vector by
      `is_vector`, is commutative, has white as unit on the channels, and
      (1,0.2,0.4) * (0.9,1,0.1) = (0.9,0.2,0.04). */
  lemma HadamardSpec(a: Color, b: Color)
    ensures Red(Hadamard(a, b)) == Red(a) * Red(b)
    ensures Green(Hadamard(a, b)) == Green(a) * Green(b)
    ensures Blue(Hadamard(a, b)) == Blue(a) * Blue(b)
    ensures IsVector(Hadamard(a, b)) && Hadamard(a, b).w == 0.0
    ensures Hadamard(a, b) == Hadamard(b, a)
    ensures Hadamard(a, Point(1.0, 1.0, 1.0)) == a.(w := 0.0)
    ensures Hadamard(Point(1.0, 0.2, 0.4), Point(0.9, 1.0, 0.1)) == Vector(0.9, 0.2, 0.04)
  {
  }
}
