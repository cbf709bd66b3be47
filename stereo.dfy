/**
 * The stereo operator: fetching and validating the left/right images from the
 * registry, the disparity-count rescaling, and the control flow of one cycle.
 * The stereo matching itself, image resizing and colour conversion are external
 * library calls; only the decisions around them are modelled.
 */
module Stereo {
  import opened Registry

  /** An image: its size, its pixel type code, and an opaque token for its pixels. */
  datatype Mat = Mat(width: int, height: int, kind: int, pixels: nat)

  /** OpenCV's type codes for 8-bit one- and three-channel images. */
  const CV_8UC1: int := 0
  const CV_8UC3: int := 16

  /** OpenCV's type codes of the matchers' 16-bit disparity output and of its float conversion. */
  const CV_16S: int := 3
  const CV_32FC1: int := 5

  /** A default-constructed image: empty, with type code 0. */
  const EmptyMat: Mat := Mat(0, 0, CV_8UC1, 0)

  /** The type tags the stereo operator publishes and looks up. */
  const MatTag: TypeTag := "cv::Mat"
  const MatVectorTag: TypeTag := "CMatVector"

  /** Well-known names and ids. */
  const ScalerName: string := "Stereo Image Scaler"
  const DefaultName: string := "OpenCV Stereo"
  const ImagesId: string := "Images"
  const FloatPrefix: string := "Float "

  /** Bounds of the downscale factor. */
  const MinDownscale: int := 1
  const MaxDownscale: int := 6

  /** The stereo algorithm selector: exactly two values. */
  datatype Algorithm = SGBM | BM

  /** A published image object (the target of a `cv::Mat *` in a box). */
  class MatCell {
    var mat: Mat
    constructor (m: Mat)
      ensures mat == m
    {
      mat := m;
    }
  }

  /** A published image vector (the target of a `CMatVector *` in a box). */
  class MatVectorCell {
    var mats: seq<Mat>
    constructor (ms: seq<Mat>)
      ensures mats == ms
    {
      mats := ms;
    }
  }

  /** The image behind a reference; the empty image when it is not an image object. */
  function MatOf(p: object?): Mat
    reads p
  {
    if p != null && p is MatCell then (p as MatCell).mat else EmptyMat
  }

  /** A usable stereo pair: the left image is non-empty and both agree in size and type. */
  predicate ValidateImages(left: Mat, right: Mat)
    ensures ValidateImages(left, right) ==> right.width > 0 && right.height > 0
  {
    && left.width > 0
    && left.height > 0
    && left.width == right.width
    && left.height == right.height
    && left.kind == right.kind
  }

  /** Validity looks at sizes and types only, never at the pixels, and does not depend on which image is left. */
  lemma ValidityIgnoresPixelsAndSides(left: Mat, right: Mat, pixelsL: nat, pixelsR: nat)
    ensures ValidateImages(left, right) ==> ValidateImages(right, left)
    ensures ValidateImages(left, right) ==
      ValidateImages(left.(pixels := pixelsL), right.(pixels := pixelsR))
  {
  }

  /**
   * The pair the operator settles on: the pair read by id when it is valid,
   * otherwise entries 0 and 1 of the image vector when it has at least two,
   * otherwise the pair read by id.
   */
  function SelectInputs(left: Mat, right: Mat, images: object?): (pair: (Mat, Mat))
    reads images
    ensures ValidateImages(left, right) ==> pair == (left, right)
    ensures (!ValidateImages(left, right) && images != null && images is MatVectorCell &&
             |(images as MatVectorCell).mats| >= 2) ==>
        pair == ((images as MatVectorCell).mats[0], (images as MatVectorCell).mats[1])
    ensures (!ValidateImages(left, right) && !(images != null && images is MatVectorCell &&
             |(images as MatVectorCell).mats| >= 2)) ==> pair == (left, right)
  {
    if ValidateImages(left, right) then (left, right)
    else if images != null && images is MatVectorCell && |(images as MatVectorCell).mats| >= 2 then
      ((images as MatVectorCell).mats[0], (images as MatVectorCell).mats[1])
    else (left, right)
  }

  // ------------------------------------------------------------------ disparity count

  /** The least `q` with `n <= d * q`, for a positive divisor `d`. */
  function CeilDiv(n: int, d: int): (q: int)
    requires d > 0
    ensures d * (q - 1) < n <= d * q
  {
    var f := (-n) / d;
    assert -n == d * f + (-n) % d;
    -f
  }

  /**
   * The disparity count after one cycle: `n` divided by `16 * scale`, rounded
   * up, times 16.
   */
  function ScaledDisparities(n: int, scale: int): (r: int)
    requires scale >= 1
    ensures r % 16 == 0
    ensures 16 * scale * (r / 16 - 1) < n <= 16 * scale * (r / 16)
  {
    var q := CeilDiv(n, 16 * scale);
    assert (q * 16) / 16 == q;
    q * 16
  }

  /** A positive count becomes at least 16. */
  lemma {:induction false} ScaledDisparitiesPositive(n: int, scale: int)
    requires scale >= 1 && n >= 1
    ensures ScaledDisparities(n, scale) >= 16
  {
    var r := ScaledDisparities(n, scale);
    var q := r / 16;
    assert r == 16 * q;
  }

  /** With scale 1 a count is rounded up to a multiple of 16, and a second rounding changes nothing. */
  lemma {:induction false} ScaleOneIdempotent(n: int)
    ensures ScaledDisparities(n, 1) >= n
    ensures ScaledDisparities(ScaledDisparities(n, 1), 1) == ScaledDisparities(n, 1)
  {
    var r := ScaledDisparities(n, 1);
    var r2 := ScaledDisparities(r, 1);
    assert r == 16 * (r / 16);
    assert r2 == 16 * (r2 / 16);
    // 16 * (q2 - 1) < 16 * q <= 16 * q2 pins q2 to q.
    assert r / 16 == r2 / 16;
  }

  /** 16 is a fixed point for every scale. */
  lemma {:induction false} SixteenIsFixed(scale: int)
    requires scale >= 1
    ensures ScaledDisparities(16, scale) == 16
  {
    var r := ScaledDisparities(16, scale);
    var q := r / 16;
    assert r == 16 * q;
    assert 16 * scale * (q - 1) < 16;
    assert 16 <= 16 * scale * q;
  }

  lemma MulNonNeg(a: int, b: int)
    requires a >= 0 && b >= 0
    ensures a * b >= 0
  {
  }

  /**
   * Since the rescaled count is written back into the algorithm's own setting,
   * every further cycle with a scale of 2 or more shrinks a count above 16
   * again, down to 16 (e.g. 64, 32, 16, 16, ... at scale 2).
   */
  lemma {:induction false} RepeatedCyclesShrinkToSixteen(n: int, scale: int)
    requires scale >= 2 && n > 16
    ensures 16 <= ScaledDisparities(n, scale) < n
  {
    ScaledDisparitiesPositive(n, scale);
    var r := ScaledDisparities(n, scale);
    var q := r / 16;
    assert r == 16 * q && q >= 1;
    assert 16 * scale * (q - 1) < n;
    MulNonNeg(16 * (q - 1), scale - 2);
    assert 16 * scale * (q - 1) == 32 * (q - 1) + 16 * (q - 1) * (scale - 2);
    assert 32 * (q - 1) < n;
  }

  lemma DefaultCountsDecay()
    ensures ScaledDisparities(64, 2) == 32
    ensures ScaledDisparities(32, 2) == 16
    ensures ScaledDisparities(16, 2) == 16
  {
    SixteenIsFixed(2);
    var a := ScaledDisparities(64, 2);
    assert 32 * (a / 16 - 1) < 64 <= 32 * (a / 16);
    var b := ScaledDisparities(32, 2);
    assert 32 * (b / 16 - 1) < 32 <= 32 * (b / 16);
  }

  // ------------------------------------------------------------------ the operator

  class StereoOp {
    /** The operator part: registry, name, parent and children. */
    const op: Operator
    /** The image scaler child. */
    const scaler: Operator
    /** The disparity image and its float version, published by reference. */
    const dispImg: MatCell
    const dispImgFloat: MatCell

    var compute: bool
    var leftImgId: string
    var rightImgId: string
    var dispImgId: string
    var alg: Algorithm
    /** The number of disparities of the SGBM and of the BM matcher. */
    var sgbmDisparities: int
    var bmDisparities: int
    var leftImg: Mat
    var rightImg: Mat
    var scale: int
    var convert2Float: bool

    ghost predicate Valid()
      reads this
    {
      && op.Valid()
      && scaler.parent == op
      && dispImg != dispImgFloat
      && MinDownscale <= scale <= MaxDownscale
    }

    /** The constructor's defaults and its single scaler child. */
    constructor (parent: Operator? := null, name: string := DefaultName)
      requires parent != null ==> parent.Valid()
      ensures Valid()
      ensures op.parent == parent && op.name == name && op.ios == map[]
      ensures compute
      ensures leftImgId == "Image 0" && rightImgId == "Image 1" && dispImgId == "Disparity Image"
      ensures alg == BM && scale == 2 && !convert2Float
      ensures leftImg == EmptyMat && rightImg == EmptyMat
      ensures op.children == [scaler] && scaler.name == ScalerName && scaler.parent == op
      ensures fresh(op) && fresh(scaler) && fresh(dispImg) && fresh(dispImgFloat)
    {
      var o := new Operator(parent, name);
      var s := new Operator(o, ScalerName);
      o.children := o.children + [s];
      op := o;
      scaler := s;
      dispImg := new MatCell(EmptyMat);
      dispImgFloat := new MatCell(EmptyMat);
      compute := true;
      leftImgId := "Image 0";
      rightImgId := "Image 1";
      dispImgId := "Disparity Image";
      alg := BM;
      leftImg := EmptyMat;
      rightImg := EmptyMat;
      scale := 2;
      convert2Float := false;
    }

    // -------------------------------------------------------------- accessors

    method SetLeftImageId(id: string)
      modifies this`leftImgId
      ensures leftImgId == id
    {
      leftImgId := id;
    }

    method SetRightImageId(id: string)
      modifies this`rightImgId
      ensures rightImgId == id
    {
      rightImgId := id;
    }

    method SetDisparityImageId(id: string)
      modifies this`dispImgId
      ensures dispImgId == id
    {
      dispImgId := id;
    }

    method SetStereoAlgorithm(a: Algorithm)
      modifies this`alg
      ensures alg == a
    {
      alg := a;
    }

    method SetCompute(b: bool)
      modifies this`compute
      ensures compute == b
    {
      compute := b;
    }

    method SetConvertDispImg2Float(b: bool)
      modifies this`convert2Float
      ensures convert2Float == b
    {
      convert2Float := b;
    }

    /** The bounded accessor: a value in [1, 6] is taken; the factor never leaves [1, 6]. */
    method SetDownscale(s: int)
      requires Valid()
      modifies this`scale
      ensures Valid()
      ensures MinDownscale <= s <= MaxDownscale ==> scale == s
    {
      scale := if s < MinDownscale then MinDownscale else if s > MaxDownscale then MaxDownscale else s;
    }

    // -------------------------------------------------------------- input

    /** The pair read by id, each defaulting to the empty image. */
    ghost function InputsById(): (Mat, Mat)
      reads *
      requires Valid()
    {
      (MatOf(op.GetInputOr(leftImgId, MatTag, null)), MatOf(op.GetInputOr(rightImgId, MatTag, null)))
    }

    /** The pair `FetchInput` settles on in the current state. */
    ghost function FetchedInputs(): (Mat, Mat)
      reads *
      requires Valid()
    {
      var (l, r) := InputsById();
      SelectInputs(l, r, op.GetInput(ImagesId, MatVectorTag))
    }

    /** Reads the two images by id, falls back to the "Images" vector, and reports validity. */
    method FetchInput() returns (ok: bool)
      requires Valid()
      modifies this`leftImg, this`rightImg
      ensures (leftImg, rightImg) == old(FetchedInputs())
      ensures ok == ValidateImages(leftImg, rightImg)
    {
      leftImg := MatOf(op.GetInputOr(leftImgId, MatTag, null));
      rightImg := MatOf(op.GetInputOr(rightImgId, MatTag, null));
      if !ValidateImages(leftImg, rightImg) {
        var vec: object? := op.GetInput(ImagesId, MatVectorTag);
        if vec != null && vec is MatVectorCell && |(vec as MatVectorCell).mats| >= 2 {
          leftImg := (vec as MatVectorCell).mats[0];
          rightImg := (vec as MatVectorCell).mats[1];
        }
        return ValidateImages(leftImg, rightImg);
      }
      return true;
    }

    /** Takes entries 0 and 1 of `images`; fewer than two images is refused and changes nothing. */
    method SetInput(images: seq<Mat>) returns (ok: bool)
      modifies this`leftImg, this`rightImg
      ensures ok == (|images| >= 2)
      ensures ok ==> leftImg == images[0] && rightImg == images[1]
      ensures !ok ==> leftImg == old(leftImg) && rightImg == old(rightImg)
    {
      if |images| < 2 {
        return false;
      }
      leftImg := images[0];
      rightImg := images[1];
      return true;
    }

    // -------------------------------------------------------------- cycle

    /** A BM cycle needs 8-bit one- or three-channel input. */
    static predicate BmAccepts(kind: int)
    {
      kind == CV_8UC1 || kind == CV_8UC3
    }

    /**
     * One processing step. Disabled: false, nothing read. Invalid input: true,
     * nothing published. Otherwise both disparity counts are rescaled; BM on an
     * unsupported type fails; else the disparity image and its float version are
     * recomputed and published (here and in the parent), whatever the float flag
     * says. The scaler child's output for the left image, the matcher's pixels
     * and their float conversion come from code outside this model and are
     * passed in as `scaledLeft`, `matched` and `converted`.
     */
    method Cycle(scaledLeft: Mat, matched: nat, converted: nat) returns (ok: bool)
      requires Valid()
      modifies this`leftImg, this`rightImg, this`sgbmDisparities, this`bmDisparities, op, op.parent
      modifies dispImg, dispImgFloat
      ensures Valid()
      ensures var (l, r) := old(FetchedInputs());
        var valid := ValidateImages(l, r);
        var published := old(compute) && valid && !(old(alg) == BM && !BmAccepts(scaledLeft.kind));
        && (!old(compute) ==> !ok && leftImg == old(leftImg) && rightImg == old(rightImg))
        && (old(compute) ==> (leftImg, rightImg) == (l, r))
        && (old(compute) && !valid ==> ok)
        && (old(compute) && valid ==>
              && sgbmDisparities == ScaledDisparities(old(sgbmDisparities), scale)
              && bmDisparities == ScaledDisparities(old(bmDisparities), scale))
        && (!(old(compute) && valid) ==>
              sgbmDisparities == old(sgbmDisparities) && bmDisparities == old(bmDisparities))
        && (old(compute) && valid && old(alg) == BM && !BmAccepts(scaledLeft.kind) ==> !ok)
        && (published ==> ok)
        && (published ==> op.ios == old(op.ios)
              [dispImgId := Box(MatTag, dispImg)][FloatPrefix + dispImgId := Box(MatTag, dispImgFloat)])
        && (published && op.parent != null ==> op.parent.ios == old(op.parent.ios)
              [dispImgId := Box(MatTag, dispImg)][FloatPrefix + dispImgId := Box(MatTag, dispImgFloat)])
        && (!published ==> op.ios == old(op.ios))
        && (!published && op.parent != null ==> op.parent.ios == old(op.parent.ios))
        && (published ==> dispImg.mat == Mat(scaledLeft.width, scaledLeft.height, CV_16S, matched))
        && (published ==> dispImgFloat.mat == Mat(scaledLeft.width, scaledLeft.height, CV_32FC1, converted))
        && (!published ==> dispImg.mat == old(dispImg.mat) && dispImgFloat.mat == old(dispImgFloat.mat))
      ensures op.children == old(op.children)
      ensures op.parent != null ==> op.parent.children == old(op.parent.children)
    {
      if !compute {
        return false;
      }
      var valid := FetchInput();
      if !valid {
        return true;
      }
      // The scaler child resizes the pair in place; `scaledLeft` is its left image.
      sgbmDisparities := ScaledDisparities(sgbmDisparities, scale);
      bmDisparities := ScaledDisparities(bmDisparities, scale);
      if alg == BM && !BmAccepts(scaledLeft.kind) {
        return false;
      }
      // The matcher's 16-bit output, at the size of the scaled left image, then its float copy.
      dispImg.mat := Mat(scaledLeft.width, scaledLeft.height, CV_16S, matched);
      dispImgFloat.mat := Mat(dispImg.mat.width, dispImg.mat.height, CV_32FC1, converted);
      op.RegisterOutput(dispImgId, MatTag, dispImg);
      op.RegisterOutput(FloatPrefix + dispImgId, MatTag, dispImgFloat);
      return true;
    }
  }

  /**
   * A newly built stereo operator at the root, with nothing published to read,
   * cycles successfully and publishes nothing: both images fall back to the
   * empty image, which is not a valid pair.
   */
  method NewOperatorWithoutInputsCycles(scaledLeft: Mat, matched: nat, converted: nat)
    returns (ok: bool, published: map<string, Box>)
    ensures ok && published == map[]
  {
    var s := new StereoOp();
    ok := s.Cycle(scaledLeft, matched, converted);
    published := s.op.ios;
  }
}
