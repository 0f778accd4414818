/**
 * `read_file_as_image`: decode the upload, scale every intensity into [0, 1],
 * drop a fourth channel, and add the batch axis the classifier expects.
 */
module Imaging {
  import opened Wrappers
  import opened Http

  newtype byte = x: int | 0 <= x < 256

  /** An 8-bit pixel intensity as NumPy reads it out of a decoded image. */
  type Intensity = v: nat | v <= 255

  /** The side length the decoder resizes every image to. */
  const Side: nat := 224

  /**
   * A NumPy array converted from a PIL image: two-dimensional for single-band
   * images (height x width), three-dimensional otherwise (height x width x bands).
   * The extents are stored, so the shape is known even when an axis is empty.
   */
  datatype Array<T> =
    | Matrix(rows: seq<seq<T>>, width: nat)
    | Cube(pixels: seq<seq<seq<T>>>, width: nat, depth: nat)
  {
    /** Every row has `width` entries and every pixel `depth` of them. */
    predicate WellFormed() {
      match this
      case Matrix(rows, width) =>
        forall i :: 0 <= i < |rows| ==> |rows[i]| == width
      case Cube(pixels, width, depth) =>
        forall i :: 0 <= i < |pixels| ==>
          |pixels[i]| == width && forall j :: 0 <= j < width ==> |pixels[i][j]| == depth
    }

    function Height(): nat {
      match this
      case Matrix(rows, _) => |rows|
      case Cube(pixels, _, _) => |pixels|
    }

    /** NumPy's `shape`. */
    function Shape(): (s: seq<nat>)
      ensures |s| >= 2 && s[0] == Height() && s[1] == width
    {
      match this
      case Matrix(rows, width) => [|rows|, width]
      case Cube(pixels, width, depth) => [|pixels|, width, depth]
    }

    /** NumPy's `shape[-1]`. */
    function LastAxis(): (n: nat)
      ensures n == Shape()[|Shape()| - 1]
    {
      match this
      case Matrix(_, width) => width
      case Cube(_, _, depth) => depth
    }
  }

  /** A decoded image: a well-formed array of 8-bit intensities. */
  type Image = a: Array<Intensity> | a.WellFormed() witness Matrix([], 0)

  /**
   * `Image.open(BytesIO(data)).resize((224, 224))` followed by `np.array`:
   * fails with the exception's text, or yields the pixel array.
   */
  type Decoder = seq<byte> -> Result<Image, string>

  /** The resize contract of the decoder: both spatial extents are 224. */
  predicate ResizedTo224(a: Array<Intensity>) {
    a.Height() == Side && a.width == Side
  }

  /** Every entry of the array lies in [0, 1]. */
  predicate InUnitInterval(a: Array<real>) {
    match a
    case Matrix(rows, _) =>
      forall i, j :: 0 <= i < |rows| && 0 <= j < |rows[i]| ==> 0.0 <= rows[i][j] <= 1.0
    case Cube(pixels, _, _) =>
      forall i, j, k :: 0 <= i < |pixels| && 0 <= j < |pixels[i]| && 0 <= k < |pixels[i][j]| ==>
        0.0 <= pixels[i][j][k] <= 1.0
  }

  /**
   * `r` has the same kind, height and width as `a`, at most as many entries on the
   * last axis, and each of its entries is the entry of `a` at the same position
   * divided by 255.
   */
  ghost predicate ScaledFrom(a: Image, r: Array<real>) {
    match (a, r)
    case (Matrix(rows, width), Matrix(rows', width')) =>
      r.WellFormed() && |rows'| == |rows| && width' <= width &&
      forall i, j :: 0 <= i < |rows'| && 0 <= j < width' ==> rows'[i][j] == rows[i][j] as real / 255.0
    case (Cube(pixels, width, depth), Cube(pixels', width', depth')) =>
      r.WellFormed() && |pixels'| == |pixels| && width' == width && depth' <= depth &&
      forall i, j, k :: 0 <= i < |pixels'| && 0 <= j < width' && 0 <= k < depth' ==>
        pixels'[i][j][k] == pixels[i][j][k] as real / 255.0
    case _ => false
  }

  /** `np.array(image) / 255.0`: every intensity v becomes v / 255, the shape is kept. */
  function Scale(a: Image): (r: Array<real>)
    ensures r.WellFormed() && r.Shape() == a.Shape()
    ensures ScaledFrom(a, r)
    ensures InUnitInterval(r)
  {
    match a
    case Matrix(rows, width) =>
      Matrix(seq(|rows|, i requires 0 <= i < |rows| =>
               seq(width, j requires 0 <= j < width => rows[i][j] as real / 255.0)), width)
    case Cube(pixels, width, depth) =>
      Cube(seq(|pixels|, i requires 0 <= i < |pixels| =>
             seq(width, j requires 0 <= j < width =>
               seq(depth, k requires 0 <= k < depth => pixels[i][j][k] as real / 255.0))), width, depth)
  }

  /** `image[..., :3]`: the first three entries of the last axis, everything else kept. */
  function KeepFirst3<T>(a: Array<T>): (r: Array<T>)
    requires a.WellFormed() && a.LastAxis() >= 3
    ensures r.WellFormed() && r.Height() == a.Height() && r.LastAxis() == 3
    ensures r.Shape() == a.Shape()[..|a.Shape()| - 1] + [3]
    ensures r.Matrix? ==> a.Matrix? && forall i :: 0 <= i < |r.rows| ==> r.rows[i] == a.rows[i][..3]
    ensures r.Cube? ==> a.Cube? && forall i, j :: 0 <= i < |r.pixels| && 0 <= j < r.width ==>
              r.pixels[i][j] == a.pixels[i][j][..3]
  {
    match a
    case Matrix(rows, width) =>
      Matrix(seq(|rows|, i requires 0 <= i < |rows| => rows[i][..3]), 3)
    case Cube(pixels, width, depth) =>
      Cube(seq(|pixels|, i requires 0 <= i < |pixels| =>
             seq(width, j requires 0 <= j < width => pixels[i][j][..3])), width, 3)
  }

  /** `if image.shape[-1] == 4: image = image[..., :3]`. */
  function DropAlpha<T>(a: Array<T>): (r: Array<T>)
    requires a.WellFormed()
    ensures r.WellFormed() && r.Height() == a.Height() && r.Matrix? == a.Matrix?
    ensures a.LastAxis() == 4 ==> r == KeepFirst3(a) && r.Shape() == a.Shape()[..|a.Shape()| - 1] + [3]
    ensures a.LastAxis() != 4 ==> r == a
  {
    if a.LastAxis() == 4 then KeepFirst3(a) else a
  }

  /** The arithmetic part of `read_file_as_image`: scale, then drop a fourth channel. */
  function Preprocess(a: Image): (r: Array<real>)
    ensures r.WellFormed() && InUnitInterval(r) && ScaledFrom(a, r)
    ensures r.Shape() == if a.LastAxis() == 4 then a.Shape()[..|a.Shape()| - 1] + [3] else a.Shape()
    ensures r.LastAxis() != 4
  {
    DropAlpha(Scale(a))
  }

  /**
   * `read_file_as_image`: a decoder failure becomes a 400 HTTPException whose detail
   * carries the decoder's message; otherwise the decoded image is preprocessed.
   */
  function ReadFileAsImage(data: seq<byte>, decode: Decoder): (r: Result<Array<real>, Exception>)
    ensures r.Failure? <==> decode(data).Failure?
    ensures r.Failure? ==> r.error == HTTPException(400, "Invalid image file: " + decode(data).error)
    ensures r.Success? ==> r.value == Preprocess(decode(data).value)
    ensures r.Success? ==> r.value.WellFormed() && InUnitInterval(r.value) && ScaledFrom(decode(data).value, r.value)
  {
    match decode(data)
    case Failure(cause) => Failure(HTTPException(400, "Invalid image file: " + cause))
    case Success(image) => Success(Preprocess(image))
  }

  /** A batch of images: NumPy's array with a leading batch axis. */
  datatype Batch = Batch(items: seq<Array<real>>) {
    function Shape(): seq<nat>
      requires |items| > 0
    {
      [|items|] + items[0].Shape()
    }
  }

  /** `np.expand_dims(image, axis=0)`: a batch of exactly one image. */
  function ExpandDims(image: Array<real>): (b: Batch)
    ensures |b.items| == 1 && b.items[0] == image
    ensures b.Shape() == [1] + image.Shape()
  {
    Batch([image])
  }

  /**
   * A 224 x 224 image with three or four bands comes out as a 224 x 224 x 3
   * array with every entry in [0, 1].
   */
  lemma PreprocessRgbShape(a: Image)
    requires ResizedTo224(a) && a.Cube? && (a.depth == 3 || a.depth == 4)
    ensures Preprocess(a).Shape() == [Side, Side, 3]
    ensures InUnitInterval(Preprocess(a))
  {
  }

  /**
   * Scaling and cutting to three channels commute, so an RGBA image is
   * preprocessed exactly like the same image with its alpha channel removed first.
   */
  lemma {:induction false} AlphaDroppedLikeFlattened(a: Image)
    requires a.LastAxis() == 4
    ensures KeepFirst3(a).WellFormed()
    ensures Preprocess(a) == Preprocess(KeepFirst3(a))
  {
    var flat: Image := KeepFirst3(a);
    var lhs := Preprocess(a);
    var rhs := Preprocess(flat);
    assert rhs == Scale(flat);
    assert lhs == KeepFirst3(Scale(a));
    match a
    case Matrix(rows, width) =>
      assert |lhs.rows| == |rhs.rows|;
      forall i | 0 <= i < |lhs.rows|
        ensures lhs.rows[i] == rhs.rows[i]
      {
        assert |lhs.rows[i]| == 3 == |rhs.rows[i]|;
      }
    case Cube(pixels, width, depth) =>
      assert |lhs.pixels| == |rhs.pixels|;
      forall i | 0 <= i < |lhs.pixels|
        ensures lhs.pixels[i] == rhs.pixels[i]
      {
        forall j | 0 <= j < width
          ensures lhs.pixels[i][j] == rhs.pixels[i][j]
        {
          assert |lhs.pixels[i][j]| == 3 == |rhs.pixels[i][j]|;
        }
      }
  }

  /** Single-band and two-band images are not converted: only the scaling applies. */
  lemma OtherShapesOnlyScaled(a: Image)
    requires a.LastAxis() != 4
    ensures Preprocess(a) == Scale(a)
  {
  }
}
