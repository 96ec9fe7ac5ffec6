/** The three edge filters (Canny, Sobel, Laplacian) and the decisions they
    make around the image-processing operators they call: kernel-size
    normalisation, the optional pre-blur, the gradient direction, and the
    saturating conversion back to 8-bit samples. */
module Edges {
  import opened Raster

  // ------------------------------------------------------------------
  // Kernel sizes
  // ------------------------------------------------------------------

  predicate IsOdd(n: int) {
    n % 2 == 1
  }

  /** The kernel size actually used for a requested size `v`: the least odd
      integer not below `v`. Defined for every integer, zero and negative
      ones included (`%` by 2 yields 0 or 1 here exactly as in Python). */
  function Odd(v: int): (k: int)
    ensures IsOdd(k)
    ensures v <= k <= v + 1
    ensures k == v <==> IsOdd(v)
    ensures forall o :: IsOdd(o) && v <= o ==> k <= o
  {
    if v % 2 == 1 then v else v + 1
  }

  /** Normalising a kernel size twice is the same as normalising it once. */
  lemma OddIdempotent(v: int)
    ensures Odd(Odd(v)) == Odd(v)
  {
  }

  // ------------------------------------------------------------------
  // Direction names: Python's str.capitalize on ASCII text
  // ------------------------------------------------------------------

  predicate IsLowerLetter(c: char) {
    'a' <= c <= 'z'
  }

  predicate IsUpperLetter(c: char) {
    'A' <= c <= 'Z'
  }

  function ToUpper(c: char): (u: char)
    ensures !IsLowerLetter(u)
    ensures !IsLowerLetter(c) ==> u == c
  {
    if IsLowerLetter(c) then (c as int - 32) as char else c
  }

  function ToLower(c: char): (l: char)
    ensures !IsUpperLetter(l)
    ensures !IsUpperLetter(c) ==> l == c
  {
    if IsUpperLetter(c) then (c as int + 32) as char else c
  }

  /** Two characters have the same upper-case form exactly when they have the
      same lower-case form: both mappings identify a letter with its other
      case and nothing else. */
  lemma SameCaseFold(a: char, b: char)
    ensures ToUpper(a) == ToUpper(b) <==> ToLower(a) == ToLower(b)
    ensures ToLower(ToUpper(a)) == ToLower(a)
    ensures ToLower(ToLower(a)) == ToLower(a)
  {
  }

  /** The case-folded form of a string. */
  function LowerAll(s: string): (l: string)
    ensures |l| == |s|
  {
    MapSeq(ToLower, s)
  }

  /** Python's `str.capitalize`: the first character upper-cased, all the
      others lower-cased. */
  function Capitalize(s: string): (r: string)
    ensures |r| == |s|
    ensures s != [] ==> !IsLowerLetter(r[0])
    ensures forall i :: 0 < i < |r| ==> !IsUpperLetter(r[i])
  {
    if s == [] then [] else [ToUpper(s[0])] + LowerAll(s[1..])
  }

  /** Capitalising changes the case of letters and nothing else. */
  lemma CapitalizeOnlyChangesCase(s: string)
    ensures LowerAll(Capitalize(s)) == LowerAll(s)
  {
  }

  /** Two strings capitalise to the same string exactly when they are equal
      ignoring case. */
  lemma CapitalizeCaseInsensitive(d: string, t: string)
    ensures Capitalize(d) == Capitalize(t) <==> LowerAll(d) == LowerAll(t)
  {
    if Capitalize(d) == Capitalize(t) {
      CapitalizeOnlyChangesCase(d);
      CapitalizeOnlyChangesCase(t);
    }
    if LowerAll(d) == LowerAll(t) && d != [] {
      assert ToLower(d[0]) == ToLower(t[0]) by {
        assert LowerAll(d)[0] == LowerAll(t)[0];
      }
      SameCaseFold(d[0], t[0]);
      assert LowerAll(d[1..]) == LowerAll(t[1..]) by {
        forall i | 0 <= i < |d| - 1
          ensures LowerAll(d[1..])[i] == LowerAll(t[1..])[i]
        {
          assert LowerAll(d)[i + 1] == LowerAll(t)[i + 1];
        }
      }
    }
  }

  /** The normalised Sobel direction: an empty name means "Both", any other
      name is capitalised. */
  function Direction(direction: string): (d: string)
    ensures direction == "" ==> d == "Both"
    ensures direction != "" ==> |d| == |direction|
  {
    Capitalize(if direction == "" then "Both" else direction)
  }

  /** The recognised directions are matched without regard to case; the
      empty name selects "Both". */
  lemma DirectionMatches(direction: string)
    ensures Direction(direction) == "X" <==> LowerAll(direction) == "x"
    ensures Direction(direction) == "Y" <==> LowerAll(direction) == "y"
    ensures Direction(direction) == "Both" <==> direction == "" || LowerAll(direction) == "both"
  {
    assert Capitalize("x") == "X" && LowerAll("x") == "x";
    assert Capitalize("y") == "Y" && LowerAll("y") == "y";
    assert Capitalize("both") == "Both" && LowerAll("both") == "both";
    if direction != "" {
      CapitalizeCaseInsensitive(direction, "x");
      CapitalizeCaseInsensitive(direction, "y");
      CapitalizeCaseInsensitive(direction, "both");
    }
  }

  /** A few concrete normalisations. */
  lemma DirectionExamples()
    ensures Direction("x") == "X" && Direction("y") == "Y"
    ensures Direction("BOTH") == "Both" && Direction("both") == "Both"
    ensures Direction("xy") == "Xy"
  {
  }

  // ------------------------------------------------------------------
  // Operators of the image-processing library
  // ------------------------------------------------------------------

  /** The library operators the filters call, taken as given functions:
      colour to gray, Gaussian blur (image, kernel width and height, sigma X
      and Y), Canny (image, first and second threshold), Sobel (image, x and
      y derivative order, kernel size), Laplacian (image, kernel size), and
      the magnitude-plus-min-max-rescale step of the two-axis Sobel. */
  datatype CvOps = CvOps(
    bgrToGray: Grid<Pixel> -> Grid<Byte>,
    gaussianBlur: (Grid<Byte>, int, int, real, real) -> Grid<Byte>,
    canny: (Grid<Byte>, int, int) -> Grid<Byte>,
    sobel: (Grid<Byte>, int, int, int) -> Grid<int>,
    laplacian: (Grid<Byte>, int) -> Grid<int>,
    magnitudeMinMax: (Grid<int>, Grid<int>) -> Grid<Byte>)

  /** Every operator returns a raster of the shape of its input. */
  ghost predicate ShapePreserving(ops: CvOps) {
    && (forall img :: SameShape(ops.bgrToGray(img), img))
    && (forall g, kw, kh, sx, sy :: SameShape(ops.gaussianBlur(g, kw, kh, sx, sy), g))
    && (forall g, low, high :: SameShape(ops.canny(g, low, high), g))
    && (forall g, dx, dy, k :: SameShape(ops.sobel(g, dx, dy, k), g))
    && (forall g, k :: SameShape(ops.laplacian(g, k), g))
    && (forall gx, gy :: SameShape(gx, gy) ==> SameShape(ops.magnitudeMinMax(gx, gy), gx))
  }

  // ------------------------------------------------------------------
  // Conversion of gradients to 8-bit samples
  // ------------------------------------------------------------------

  function Abs(x: int): nat {
    if x < 0 then -x else x
  }

  function SaturateAbs(g: int): Byte {
    if Abs(g) > 255 then 255 else Abs(g)
  }

  /** The library's absolute-value conversion with unit scale and zero
      offset: every sample becomes its magnitude, saturated at 255. */
  function ConvertScaleAbs(g: Grid<int>): (r: Grid<Byte>)
    ensures SameShape(r, g)
    ensures forall i, j :: 0 <= i < |g| && 0 <= j < |g[i]| ==>
      (Abs(g[i][j]) <= 255 ==> r[i][j] == Abs(g[i][j])) &&
      (Abs(g[i][j]) > 255 ==> r[i][j] == 255)
    ensures Uniform(g, 0) ==> Uniform(r, 0)
  {
    MapGrid(SaturateAbs, g)
  }

  /** An all-zero gradient of the shape of `gray`. */
  function ZerosLike(gray: Grid<Byte>): (z: Grid<int>)
    ensures SameShape(z, gray) && Uniform(z, 0)
  {
    MapGrid((_: Byte) => 0, gray)
  }

  // ------------------------------------------------------------------
  // The filters
  // ------------------------------------------------------------------

  /** The pre-blur: a square kernel of the normalised (odd) size and the same
      sigma along both axes. */
  function GaussianBlur(ops: CvOps, gray: Grid<Byte>, ksize: int, sigma: real): (blurred: Grid<Byte>)
    ensures blurred == ops.gaussianBlur(gray, Odd(ksize), Odd(ksize), sigma, sigma)
    ensures ShapePreserving(ops) ==> SameShape(blurred, gray)
  {
    var k := Odd(ksize);
    ops.gaussianBlur(gray, k, k, sigma, sigma)
  }

  /** Canny: blur first exactly when the kernel size exceeds 1 or sigma is
      positive, with a square odd kernel and equal sigmas; the thresholds
      reach the operator as given, in order. */
  function RunCanny(ops: CvOps, img: Grid<Pixel>, low: int, high: int, ksize: int, sigma: real): (edges: Grid<Byte>)
    ensures ksize > 1 || sigma > 0.0 ==>
      edges == ops.canny(ops.gaussianBlur(ops.bgrToGray(img), Odd(ksize), Odd(ksize), sigma, sigma), low, high)
    ensures !(ksize > 1 || sigma > 0.0) ==>
      edges == ops.canny(ops.bgrToGray(img), low, high)
  {
    var gray := ops.bgrToGray(img);
    var gray := if ksize > 1 || sigma > 0.0 then GaussianBlur(ops, gray, ksize, sigma) else gray;
    ops.canny(gray, low, high)
  }

  /** Sobel: the normalised direction picks the derivatives. "Both" combines
      the x and y gradients; "X" and "Y" convert that one gradient; any other
      name computes neither and yields an all-zero image. */
  function RunSobel(ops: CvOps, img: Grid<Pixel>, ksize: int, direction: string): (r: Grid<Byte>)
    ensures var gray, k := ops.bgrToGray(img), Odd(ksize);
      Direction(direction) == "Both" ==>
        r == ops.magnitudeMinMax(ops.sobel(gray, 1, 0, k), ops.sobel(gray, 0, 1, k))
    ensures var gray, k := ops.bgrToGray(img), Odd(ksize);
      Direction(direction) == "X" ==> r == ConvertScaleAbs(ops.sobel(gray, 1, 0, k))
    ensures var gray, k := ops.bgrToGray(img), Odd(ksize);
      Direction(direction) == "Y" ==> r == ConvertScaleAbs(ops.sobel(gray, 0, 1, k))
    ensures Direction(direction) !in {"X", "Y", "Both"} ==>
      SameShape(r, ops.bgrToGray(img)) && Uniform(r, 0)
  {
    var gray := ops.bgrToGray(img);
    var k := Odd(ksize);
    var direction := Direction(direction);
    var dx := if direction == "X" || direction == "Both" then 1 else 0;
    var dy := if direction == "Y" || direction == "Both" then 1 else 0;
    var gx := if dx != 0 then ops.sobel(gray, 1, 0, k) else ZerosLike(gray);
    var gy := if dy != 0 then ops.sobel(gray, 0, 1, k) else ZerosLike(gray);
    if direction == "Both" then
      ops.magnitudeMinMax(gx, gy)
    else
      ConvertScaleAbs(if dx != 0 then gx else gy)
  }

  /** A direction that is neither empty nor "x", "y" or "both" in any
      letter case gives an all-zero image, not the two-axis result. */
  lemma SobelUnrecognisedDirectionIsBlack(ops: CvOps, img: Grid<Pixel>, ksize: int, direction: string)
    requires direction != ""
    requires LowerAll(direction) != "x" && LowerAll(direction) != "y" && LowerAll(direction) != "both"
    ensures SameShape(RunSobel(ops, img, ksize, direction), ops.bgrToGray(img))
    ensures Uniform(RunSobel(ops, img, ksize, direction), 0)
  {
    DirectionMatches(direction);
  }

  /** Laplacian: every output sample is the magnitude of the second
      derivative at an odd kernel size, saturated at 255. */
  function RunLaplacian(ops: CvOps, img: Grid<Pixel>, ksize: int): (r: Grid<Byte>)
    ensures var lap := ops.laplacian(ops.bgrToGray(img), Odd(ksize));
      SameShape(r, lap) &&
      forall i, j :: 0 <= i < |lap| && 0 <= j < |lap[i]| ==>
        (Abs(lap[i][j]) <= 255 ==> r[i][j] == Abs(lap[i][j])) &&
        (Abs(lap[i][j]) > 255 ==> r[i][j] == 255)
  {
    var gray := ops.bgrToGray(img);
    var k := Odd(ksize);
    var lap := ops.laplacian(gray, k);
    ConvertScaleAbs(lap)
  }

  /** With shape-preserving operators, every filter returns a raster of the
      input's height and row widths. */
  lemma FiltersKeepShape(ops: CvOps, img: Grid<Pixel>, low: int, high: int, ksize: int, sigma: real, direction: string)
    requires ShapePreserving(ops)
    ensures SameShape(RunCanny(ops, img, low, high, ksize, sigma), img)
    ensures SameShape(RunSobel(ops, img, ksize, direction), img)
    ensures SameShape(RunLaplacian(ops, img, ksize), img)
  {
  }

  /** An even kernel request behaves exactly like the odd size above it, in
      every filter and for every integer, the pre-blur gate of Canny
      included. */
  lemma EvenSizeActsAsNextOdd(ops: CvOps, img: Grid<Pixel>, low: int, high: int, m: int, sigma: real, direction: string)
    ensures RunCanny(ops, img, low, high, 2 * m, sigma) == RunCanny(ops, img, low, high, 2 * m + 1, sigma)
    ensures RunSobel(ops, img, 2 * m, direction) == RunSobel(ops, img, 2 * m + 1, direction)
    ensures RunLaplacian(ops, img, 2 * m) == RunLaplacian(ops, img, 2 * m + 1)
  {
  }
}
