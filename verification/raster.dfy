/** Rasters as the edge-detection pipeline sees them: rows of 8-bit samples
    (single-channel) or rows of three-channel pixels, plus the element-wise
    map every per-pixel conversion in the pipeline is built from. */
module Raster {

  /** An unsigned 8-bit sample. */
  type Byte = x: int | 0 <= x < 256

  /** A three-channel pixel; the channels are named by position because the
      same triple is read as (R,G,B) on one side of a conversion and as
      (B,G,R) on the other. */
  datatype Pixel = Pixel(c0: Byte, c1: Byte, c2: Byte)

  /** A raster is a sequence of rows. */
  type Grid<T> = seq<seq<T>>

  /** Two rasters have the same shape: the same number of rows, and row by
      row the same number of samples. */
  ghost predicate SameShape<A, B>(a: Grid<A>, b: Grid<B>) {
    |a| == |b| && forall i :: 0 <= i < |a| ==> |a[i]| == |b[i]|
  }

  /** Every sample of `m` equals `v`. */
  ghost predicate Uniform<T>(m: Grid<T>, v: T) {
    forall i, j :: 0 <= i < |m| && 0 <= j < |m[i]| ==> m[i][j] == v
  }

  /** Applies `f` to every element of a row. */
  function MapSeq<A, B>(f: A -> B, s: seq<A>): (r: seq<B>)
    ensures |r| == |s|
    ensures forall j :: 0 <= j < |s| ==> r[j] == f(s[j])
  {
    if s == [] then [] else [f(s[0])] + MapSeq(f, s[1..])
  }

  /** Applies `f` to every sample of a raster, keeping its shape. */
  function MapGrid<A, B>(f: A -> B, m: Grid<A>): (r: Grid<B>)
    ensures SameShape(r, m)
    ensures forall i, j :: 0 <= i < |m| && 0 <= j < |m[i]| ==> r[i][j] == f(m[i][j])
  {
    if m == [] then [] else [MapSeq(f, m[0])] + MapGrid(f, m[1..])
  }

  /** Mapping `f` and then its left inverse `g` gives back the raster. */
  lemma {:induction false} MapGridInverse<A, B>(f: A -> B, g: B -> A, m: Grid<A>)
    requires forall x :: g(f(x)) == x
    ensures MapGrid(g, MapGrid(f, m)) == m
  {
    if m != [] {
      MapSeqInverse(f, g, m[0]);
      MapGridInverse(f, g, m[1..]);
    }
  }

  lemma MapSeqInverse<A, B>(f: A -> B, g: B -> A, s: seq<A>)
    requires forall x :: g(f(x)) == x
    ensures MapSeq(g, MapSeq(f, s)) == s
  {
  }
}
