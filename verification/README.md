# Edge-detection pipeline: a Dafny model

The repository is a small interactive edge-detection tool. An uploaded
colour image is converted from the image library's (R,G,B) pixel order to
the (B,G,R) order of the image-processing library. One of three filters
(Canny, Sobel, Laplacian) then turns it into a single-channel 8-bit edge
map. The edge map is displayed as it is, and converted to (R,G,B) pixels
for download.

Almost all pixel arithmetic happens inside the image-processing library's
operators: gray conversion, Gaussian blur, Canny, Sobel, Laplacian, gradient
magnitude and min-max rescaling. The model takes them as given functions,
collected in the datatype `Edges.CvOps`. It proves facts about the logic the
repository writes itself:

- kernel-size normalisation (`_odd`);
- the pre-blur decision of the Canny filter and the arguments it forwards;
- direction normalisation with Python's `str.capitalize`, and the choice of
  derivatives in the Sobel filter;
- the saturating conversion of gradients to 8-bit samples;
- the two colour-order adapters and their round-trip laws.

Modules:

- `Raster` (`raster.dfy`): 8-bit samples, three-channel pixels, rasters as
  sequences of rows, shape equality, and the element-wise map every
  per-pixel conversion is built from.
- `ImageIO` (`image_io.dfy`): `pil_to_cv2` and `cv2_to_pil`.
- `Edges` (`edges.dfy`): `_odd`, `_gaussian_blur`, `run_canny`, `run_sobel`,
  `run_laplacian`.

Two facts about the code that are easy to miss:

- An unrecognised Sobel direction computes neither derivative and yields an
  all-zero image, not the two-axis result
  (`Edges.SobelUnrecognisedDirectionIsBlack`).
- Kernel normalisation is defined for every integer: 0 becomes 1 and -4
  becomes -3 (`Edges.Odd`).

## Model

| member | source | states |
|---|---|---|
| `Edges.Odd` | processors/edges.py:15-21 | the result is the least odd integer not below the request: odd, between `v` and `v + 1`, equal to `v` exactly when `v` is odd, and not above any odd integer `>= v`; holds for zero and negative sizes too |
| `Edges.OddIdempotent` | processors/edges.py:21 | normalising an already normalised size changes nothing |
| `Edges.Capitalize` | processors/edges.py:73 | Python `capitalize` keeps the length, leaves no lower-case letter first and no upper-case letter after the first character |
| `Edges.CapitalizeOnlyChangesCase` | processors/edges.py:73 | capitalising changes letter case only: the case-folded string is unchanged |
| `Edges.CapitalizeCaseInsensitive` | processors/edges.py:73 | two names capitalise to the same string exactly when they are equal ignoring case |
| `Edges.Direction` | processors/edges.py:73 | an empty direction becomes "Both"; any other name keeps its length |
| `Edges.DirectionMatches` | processors/edges.py:73-77 | the normalised direction is "X" iff the name case-folds to "x", "Y" iff it folds to "y", and "Both" iff it is empty or folds to "both" |
| `Edges.DirectionExamples` | processors/edges.py:72-73 | "x" gives "X", "y" gives "Y", "BOTH" and "both" give "Both", "xy" gives "Xy" |
| `Edges.ConvertScaleAbs` | processors/edges.py:90-92 | every sample becomes its magnitude saturated at 255, so it lies in [0,255]; the shape is kept; an all-zero gradient gives an all-zero image |
| `Edges.ZerosLike` | processors/edges.py:80-81 | a derivative that is not computed is an all-zero array of the gray image's shape |
| `Edges.GaussianBlur` | processors/edges.py:24-31 | the blur runs with the square kernel `(Odd(ksize), Odd(ksize))` and the same sigma for X and Y; with shape-preserving operators the blurred image has the gray image's shape |
| `Edges.RunCanny` | processors/edges.py:24-55 | the gray image is blurred exactly when `ksize > 1` or `sigma > 0`, with kernel `(Odd(ksize), Odd(ksize))` and the same sigma for X and Y; otherwise it reaches Canny untouched; `low` and `high` reach Canny unswapped as first and second threshold |
| `Edges.RunSobel` | processors/edges.py:61-92 | "Both" rescales the magnitude of the x and y first derivatives at kernel `Odd(ksize)`; "X" (resp. "Y") is the saturated magnitude of the x (resp. y) derivative alone; any other normalised name gives an all-zero image of the gray image's shape |
| `Edges.SobelUnrecognisedDirectionIsBlack` | processors/edges.py:73-92 | a non-empty direction that is not "x", "y" or "both" in any letter case yields an all-zero image, not the two-axis result |
| `Edges.RunLaplacian` | processors/edges.py:98-113 | each output sample is the magnitude of the Laplacian at kernel `Odd(ksize)`, saturated at 255, with the Laplacian's shape |
| `Edges.FiltersKeepShape` | processors/edges.py:37-113 | when every operator preserves shape, all three filters return a raster with the input's height and row widths |
| `Edges.EvenSizeActsAsNextOdd` | processors/edges.py:21-110 | for every integer `m`, requesting kernel size `2m` gives the same Canny, Sobel and Laplacian output as requesting `2m + 1`, the Canny pre-blur gate included |
| `ImageIO.SwapRedBlue` | utils/image_io.py:29 | the first and third channels are exchanged and the middle (green) channel stays |
| `ImageIO.GrayToPixel` | utils/image_io.py:42-43 | a gray sample becomes a pixel with three equal channels |
| `ImageIO.PilToCv2` | utils/image_io.py:20-29 | each pixel (r,g,b) becomes (b,g,r); height and every row width are kept |
| `ImageIO.Mat.Ndim` | utils/image_io.py:42 | an array has two dimensions exactly when it is a single gray plane |
| `ImageIO.Cv2ToPil` | utils/image_io.py:35-49 | a two-dimensional array gives (v,v,v) at every position; any other array has each pixel (b,g,r) turned into (r,g,b); the shape is kept in both cases |
| `ImageIO.RoundTripFromPil` | utils/image_io.py:20-46 | converting a decoded raster for processing and back returns it unchanged |
| `ImageIO.RoundTripFromCv2` | utils/image_io.py:29-46 | converting a three-channel array for display and back returns it unchanged |

## Left out

- `app.py` as a whole: page setup, upload, sliders, layout, PNG encoding and the download button are user-interface and I/O plumbing.
- The internals of the image-processing operators (BGR-to-gray weights and rounding, Gaussian blur, Sobel, Laplacian, Canny with non-maximum suppression and hysteresis). They are library code and are fields of `Edges.CvOps`; shape preservation is the hypothesis `Edges.ShapePreserving`, not a proved fact.
- That Canny output holds only 0 and 255 is a property of the library operator and is not stated.
- Edges.RunSobel: the two-axis branch (float magnitude, min-max rescaling to [0,255], cast to 8 bits, and the flat-image case) is one opaque operator, `magnitudeMinMax`, because it is floating-point library arithmetic; only which gradients it receives is modelled.
- Edges.ConvertScaleAbs: gradients are integers, which they are for 8-bit input and the integer Sobel and Laplacian kernels; the rounding of fractional values is not modelled.
- Edges.Capitalize: only ASCII letters change case; Python also title-cases or lower-cases other Unicode letters.
- Edges.Direction: Python also treats `None` as a missing direction; the model takes a string, so only the empty string stands for it.
- The `int(...)` and `float(...)` coercions of arguments: the model takes integers and reals directly, so NaN and fractional thresholds do not arise.
- PIL `Image` objects, `convert("RGB")` decoding and `Image.fromarray`: the input is an already decoded three-channel raster and the output a raster of pixels.
- Four-channel arrays are not represented by `ImageIO.Mat`; for them the library's BGR-to-RGB conversion swaps the first three channels and drops the fourth. Three-dimensional arrays with another channel count, which that conversion rejects, are not represented either.
- ImageIO.PilToCv2: the library's colour conversion raises an error on an empty array; the model returns an empty raster instead.
- ImageIO.Cv2ToPil: likewise, an empty gray plane or empty colour array gives an empty raster here, where the library raises an error.
- Edges.RunCanny, Edges.RunSobel, Edges.RunLaplacian: the library operators are total functions here, so each filter returns a raster where the program raises an error: for an empty image (the gray conversion rejects it) and for kernel sizes the library rejects (Sobel and Laplacian above 31). The unrecognised-direction branch of Sobel calls no Sobel operator, so any kernel size gives zeros there, as in the program; an empty image still raises in the program at its gray conversion.
