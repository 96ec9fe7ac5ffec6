/** The colour-order adapters between the image-loading side (pixels in
    R,G,B order) and the processing side (pixels in B,G,R order, or a
    single gray plane). */
module ImageIO {
  import opened Raster

  /** An array as the processing side holds it: two-dimensional (one gray
      sample per position) or three-dimensional (three channels per
      position). */
  datatype Mat = Gray(plane: Grid<Byte>) | Color(pixels: Grid<Pixel>) {
    /** The number of array dimensions. */
    function Ndim(): (n: nat)
      ensures n == 2 <==> Gray?
    {
      match this
      case Gray(_) => 2
      case Color(_) => 3
    }
  }

  /** Exchanges the first and third channel of a pixel; the middle one stays. */
  function SwapRedBlue(p: Pixel): (q: Pixel)
    ensures q.c0 == p.c2 && q.c1 == p.c1 && q.c2 == p.c0
  {
    Pixel(p.c2, p.c1, p.c0)
  }

  /** A gray sample shown as a pixel with three equal channels. */
  function GrayToPixel(v: Byte): (p: Pixel)
    ensures p.c0 == v && p.c1 == v && p.c2 == v
  {
    Pixel(v, v, v)
  }

  /** Decoded (R,G,B) raster to the (B,G,R) order used for processing. */
  function PilToCv2(img: Grid<Pixel>): (bgr: Grid<Pixel>)
    ensures SameShape(bgr, img)
    ensures forall i, j :: 0 <= i < |img| && 0 <= j < |img[i]| ==>
      bgr[i][j] == Pixel(img[i][j].c2, img[i][j].c1, img[i][j].c0)
  {
    MapGrid(SwapRedBlue, img)
  }

  /** Processing-side array to an (R,G,B) raster: a gray plane is
      replicated into three equal channels, anything else has its first and
      third channels exchanged. */
  function Cv2ToPil(img: Mat): (rgb: Grid<Pixel>)
    ensures img.Gray? ==> SameShape(rgb, img.plane)
    ensures img.Gray? ==> forall i, j :: 0 <= i < |img.plane| && 0 <= j < |img.plane[i]| ==>
      var v := img.plane[i][j]; rgb[i][j] == Pixel(v, v, v)
    ensures img.Color? ==> SameShape(rgb, img.pixels)
    ensures img.Color? ==> forall i, j :: 0 <= i < |img.pixels| && 0 <= j < |img.pixels[i]| ==>
      var p := img.pixels[i][j]; rgb[i][j] == Pixel(p.c2, p.c1, p.c0)
  {
    if img.Ndim() == 2 then MapGrid(GrayToPixel, img.plane)
    else MapGrid(SwapRedBlue, img.pixels)
  }

  /** Converting a decoded raster for processing and straight back is the
      identity. */
  lemma RoundTripFromPil(img: Grid<Pixel>)
    ensures Cv2ToPil(Color(PilToCv2(img))) == img
  {
    MapGridInverse(SwapRedBlue, SwapRedBlue, img);
  }

  /** Converting a three-channel processing-side array for display and back
      is the identity. */
  lemma RoundTripFromCv2(bgr: Grid<Pixel>)
    ensures PilToCv2(Cv2ToPil(Color(bgr))) == bgr
  {
    MapGridInverse(SwapRedBlue, SwapRedBlue, bgr);
  }
}
