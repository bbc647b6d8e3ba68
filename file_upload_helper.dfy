/** `convertToThreeFourRatioRN`: the largest centred 3:4 rectangle inside a
    `width` x `height` image, and the name and type of the cropped file. The
    size query and the resizer are native calls; their answers are parameters. */
module FileUploadHelper {
  import opened Common

  const TargetRatio: real := 3.0 / 4.0
  const JpegQuality: int := 80

  datatype CropBox = CropBox(width: real, height: real, offsetX: real, offsetY: real)

  /** Start from the full width; if the 3:4 height does not fit, use the full
      height instead. */
  function ThreeFourBox(width: real, height: real): (b: CropBox)
    ensures b.width * 4.0 == b.height * 3.0
    ensures b.offsetX + b.width + b.offsetX == width && b.offsetY + b.height + b.offsetY == height
    ensures b.width == width || b.height == height
    ensures width * 4.0 <= height * 3.0 ==> b.width == width
    ensures width * 4.0 > height * 3.0 ==> b.height == height
    ensures width >= 0.0 && height >= 0.0 ==>
              0.0 <= b.width <= width && 0.0 <= b.height <= height && b.offsetX >= 0.0 && b.offsetY >= 0.0
  {
    var cropWidth := width;
    var cropHeight := cropWidth / TargetRatio;
    var (w, h) := if cropHeight > height then (height * TargetRatio, height) else (cropWidth, cropHeight);
    CropBox(w, h, (width - w) / 2.0, (height - h) / 2.0)
  }

  /** For a positive image the box is exactly 3:4. */
  lemma ThreeFourBoxRatio(width: real, height: real)
    requires width > 0.0 && height > 0.0
    ensures ThreeFourBox(width, height).height > 0.0
    ensures ThreeFourBox(width, height).width / ThreeFourBox(width, height).height == 3.0 / 4.0
  {
    var b := ThreeFourBox(width, height);
    assert b.height > 0.0;
    assert b.width == b.height * (3.0 / 4.0);
    QuotientOfMultiple(b.width, b.height, 3.0 / 4.0);
  }

  lemma QuotientOfMultiple(x: real, y: real, c: real)
    requires y != 0.0 && x == y * c
    ensures x / y == c
  {
  }

  /** No 3:4 rectangle that fits inside the image is wider than the box. */
  lemma ThreeFourBoxIsLargest(width: real, height: real, w: real, h: real)
    requires w * 4.0 == h * 3.0 && 0.0 <= w <= width && 0.0 <= h <= height
    ensures w <= ThreeFourBox(width, height).width
    ensures h <= ThreeFourBox(width, height).height
  {
  }

  /** Reads decimal digits back as a number. */
  function DecimalValue(s: string): nat
    requires forall i :: 0 <= i < |s| ==> '0' <= s[i] <= '9'
  {
    if s == [] then 0 else DecimalValue(s[..|s| - 1]) * 10 + (s[|s| - 1] as int - '0' as int)
  }

  /** Decimal digits of a natural number, as `String(n)` writes them: they
      read back as the same number. */
  function Decimal(n: nat): (s: string)
    ensures |s| > 0
    ensures forall i :: 0 <= i < |s| ==> '0' <= s[i] <= '9'
    ensures DecimalValue(s) == n
    ensures s[0] == '0' ==> n == 0
  {
    if n < 10 then
      [('0' as int + n) as char]
    else
      var prefix := Decimal(n / 10);
      var s := prefix + [('0' as int + n % 10) as char];
      assert s[..|s| - 1] == prefix;
      s
  }

  /** `cropped_${file.name || Date.now()}.jpg`. */
  function CroppedName(name: Option<string>, now: nat): (r: string)
    ensures |r| > 12
    ensures r[..8] == "cropped_" && r[|r| - 4..] == ".jpg"
    ensures name.Some? && name.value != "" ==> r[8..|r| - 4] == name.value
    ensures name.None? || name.value == "" ==> r[8..|r| - 4] == Decimal(now)
  {
    var stem := if name.Some? && name.value != "" then name.value else Decimal(now);
    var r := "cropped_" + stem + ".jpg";
    assert r[8..|r| - 4] == stem;
    r
  }

  datatype UploadFile = UploadFile(uri: string, name: Option<string>)

  /** What the resizer is asked for: the source uri, the box's size as the
      output size, a JPEG at quality 80, no rotation, cover mode, cut at the box. */
  datatype ResizeRequest = ResizeRequest(sourceUri: string, format: string, quality: int, rotation: int,
                                         mode: string, onlyScaleDown: bool, box: CropBox)

  /** Answer of a native call: a value, or the error the promise is rejected with. */
  datatype Native<T> = Done(value: T) | Failed(error: string)

  datatype CroppedFile = CroppedFile(uri: string, name: string, mimeType: string)

  /** One run of the promise: the request sent to the resizer (none when the
      size query failed) and the outcome. */
  datatype Conversion = Conversion(request: Option<ResizeRequest>, result: Native<CroppedFile>)

  /** `convertToThreeFourRatioRN`: measure the image, ask the resizer for the
      3:4 box of the measured size, and name the result. `size` is the answer
      of the size query and `resize` stands for the native resizer. */
  function ConvertToThreeFourRatio(file: UploadFile, size: Native<(real, real)>,
                                   resize: ResizeRequest -> Native<string>, now: nat): (c: Conversion)
    ensures size.Failed? ==> c.request.None? && c.result == Failed(size.error)
    ensures size.Done? ==>
              c.request.Some? && c.request.value.sourceUri == file.uri &&
              c.request.value.box == ThreeFourBox(size.value.0, size.value.1) &&
              c.request.value.format == "JPEG" && c.request.value.quality == JpegQuality &&
              c.request.value.rotation == 0 && c.request.value.mode == "cover" && !c.request.value.onlyScaleDown
    ensures size.Done? && resize(c.request.value).Failed? ==> c.result == Failed(resize(c.request.value).error)
    ensures size.Done? && resize(c.request.value).Done? ==>
              c.result.Done? && c.result.value.uri == resize(c.request.value).value &&
              c.result.value.mimeType == "image/jpeg" && c.result.value.name == CroppedName(file.name, now)
    ensures c.result.Done? && file.name.Some? && file.name.value != "" ==>
              c.result.value.name == "cropped_" + file.name.value + ".jpg"
  {
    match size
    case Failed(e) => Conversion(None, Failed(e))
    case Done((width, height)) =>
      var request := ResizeRequest(file.uri, "JPEG", JpegQuality, 0, "cover", false, ThreeFourBox(width, height));
      match resize(request)
      case Failed(e) => Conversion(Some(request), Failed(e))
      case Done(uri) => Conversion(Some(request), Done(CroppedFile(uri, CroppedName(file.name, now), "image/jpeg")))
  }

  /** The request always asks for a 3:4 JPEG box that fits the measured image. */
  lemma RequestIsThreeFourInside(file: UploadFile, width: real, height: real,
                                 resize: ResizeRequest -> Native<string>, now: nat)
    requires width > 0.0 && height > 0.0
    ensures var c := ConvertToThreeFourRatio(file, Done((width, height)), resize, now);
            c.request.Some? && c.request.value.box.width / c.request.value.box.height == 3.0 / 4.0 &&
            c.request.value.box.width <= width && c.request.value.box.height <= height
  {
    ThreeFourBoxRatio(width, height);
  }
}
