/** The pure geometry of the interactive cropper: the 3:4 crop box, the
    cover-fit scale, the translation clamp and the pinch range. */
module CropGeometry {
  import opened Common

  /** A pinch that proposes a scale outside [MinPinchScale, MaxPinchScale] is ignored. */
  const MinPinchScale: real := 0.5
  const MaxPinchScale: real := 5.0

  /** The crop box is as wide as the container and 4/3 as tall. */
  function CropHeightFor(containerWidth: real): (h: real)
    ensures h * 3.0 == containerWidth * 4.0
    ensures containerWidth > 0.0 ==> h > containerWidth
  {
    (containerWidth * 4.0) / 3.0
  }

  /** Scale at which the image just covers the crop box ("cover", not "contain"). */
  function FitScale(cropWidth: real, cropHeight: real, imageWidth: real, imageHeight: real): (s: real)
    requires imageWidth > 0.0 && imageHeight > 0.0
    ensures imageWidth * s >= cropWidth && imageHeight * s >= cropHeight
    ensures imageWidth * s == cropWidth || imageHeight * s == cropHeight
  {
    var sx := cropWidth / imageWidth;
    var sy := cropHeight / imageHeight;
    assert imageWidth * sx == cropWidth && imageHeight * sy == cropHeight;
    Max(sx, sy)
  }

  /** No smaller scale covers the crop box. */
  lemma FitScaleIsLeast(cropWidth: real, cropHeight: real, imageWidth: real, imageHeight: real, t: real)
    requires imageWidth > 0.0 && imageHeight > 0.0
    requires imageWidth * t >= cropWidth && imageHeight * t >= cropHeight
    ensures t >= FitScale(cropWidth, cropHeight, imageWidth, imageHeight)
  {
    var s := FitScale(cropWidth, cropHeight, imageWidth, imageHeight);
    if imageWidth * s == cropWidth {
      assert imageWidth * t >= imageWidth * s;
    } else {
      assert imageHeight * t >= imageHeight * s;
    }
  }

  /** Largest distance the image centre may move from the box centre along one axis. */
  function MaxOffset(imageSide: real, scale: real, cropSide: real): (m: real)
    ensures m >= 0.0
    ensures m >= (imageSide * scale - cropSide) / 2.0
    ensures m == 0.0 <==> imageSide * scale <= cropSide
    ensures imageSide * scale > cropSide ==> m == (imageSide * scale - cropSide) / 2.0
  {
    Max(0.0, (imageSide * scale - cropSide) / 2.0)
  }

  /** `Math.max(-bound, Math.min(bound, v))`: the point of [-bound, bound] nearest to v. */
  function Clamp(v: real, bound: real): (r: real)
    requires bound >= 0.0
    ensures -bound <= r <= bound
    ensures -bound <= v <= bound ==> r == v
    ensures v > bound ==> r == bound
    ensures v < -bound ==> r == -bound
  {
    Max(-bound, Min(bound, v))
  }

  datatype Translation = Translation(x: real, y: real)

  /** Neither edge of the scaled image leaves a gap inside the crop box on an axis
      where the image is larger than the box, and the image stays centred on an
      axis where it is not. */
  predicate WithinBounds(t: Translation, scale: real, imageWidth: real, imageHeight: real,
                         cropWidth: real, cropHeight: real)
  {
    Abs(t.x) <= MaxOffset(imageWidth, scale, cropWidth) &&
    Abs(t.y) <= MaxOffset(imageHeight, scale, cropHeight)
  }

  /** `constrainTranslation`: before the image dimensions are known it returns
      the input unchanged; afterwards it clamps each axis independently. */
  function ConstrainTranslation(x: real, y: real, scale: real, imageWidth: real, imageHeight: real,
                                cropWidth: real, cropHeight: real): (t: Translation)
    ensures imageWidth == 0.0 || imageHeight == 0.0 ==> t == Translation(x, y)
    ensures imageWidth != 0.0 && imageHeight != 0.0 ==>
              WithinBounds(t, scale, imageWidth, imageHeight, cropWidth, cropHeight)
    ensures WithinBounds(Translation(x, y), scale, imageWidth, imageHeight, cropWidth, cropHeight) ==>
              t == Translation(x, y)
    ensures t.x == x || Abs(t.x) == MaxOffset(imageWidth, scale, cropWidth)
    ensures t.y == y || Abs(t.y) == MaxOffset(imageHeight, scale, cropHeight)
    ensures imageWidth != 0.0 && imageHeight != 0.0 ==>
              t.x == Clamp(x, MaxOffset(imageWidth, scale, cropWidth)) &&
              t.y == Clamp(y, MaxOffset(imageHeight, scale, cropHeight))
    ensures imageWidth != 0.0 && imageHeight != 0.0 && x > MaxOffset(imageWidth, scale, cropWidth) ==>
              t.x == MaxOffset(imageWidth, scale, cropWidth)
    ensures imageWidth != 0.0 && imageHeight != 0.0 && x < -MaxOffset(imageWidth, scale, cropWidth) ==>
              t.x == -MaxOffset(imageWidth, scale, cropWidth)
    ensures imageWidth != 0.0 && imageHeight != 0.0 && y > MaxOffset(imageHeight, scale, cropHeight) ==>
              t.y == MaxOffset(imageHeight, scale, cropHeight)
    ensures imageWidth != 0.0 && imageHeight != 0.0 && y < -MaxOffset(imageHeight, scale, cropHeight) ==>
              t.y == -MaxOffset(imageHeight, scale, cropHeight)
    ensures imageWidth != 0.0 && imageHeight != 0.0 && imageWidth * scale <= cropWidth ==> t.x == 0.0
    ensures imageWidth != 0.0 && imageHeight != 0.0 && imageHeight * scale <= cropHeight ==> t.y == 0.0
  {
    if imageWidth == 0.0 || imageHeight == 0.0 then
      Translation(x, y)
    else
      Translation(Clamp(x, MaxOffset(imageWidth, scale, cropWidth)),
                  Clamp(y, MaxOffset(imageHeight, scale, cropHeight)))
  }

  /** Settling twice is settling once. */
  lemma ConstrainTranslationIdempotent(x: real, y: real, scale: real, imageWidth: real, imageHeight: real,
                                       cropWidth: real, cropHeight: real)
    ensures var t := ConstrainTranslation(x, y, scale, imageWidth, imageHeight, cropWidth, cropHeight);
            ConstrainTranslation(t.x, t.y, scale, imageWidth, imageHeight, cropWidth, cropHeight) == t
  {
  }

  /** The pinch rule: the proposed scale is adopted only inside [0.5, 5]. */
  function PinchedScale(current: real, saved: real, factor: real): (s: real)
    ensures MinPinchScale <= saved * factor <= MaxPinchScale ==> s == saved * factor
    ensures !(MinPinchScale <= saved * factor <= MaxPinchScale) ==> s == current
    ensures MinPinchScale <= current <= MaxPinchScale ==> MinPinchScale <= s <= MaxPinchScale
  {
    var proposed := saved * factor;
    if proposed >= MinPinchScale && proposed <= MaxPinchScale then proposed else current
  }
}
