/** The interactive crop component: six live/saved transform values, the
    per-file `cropData` map, the loading/initialised flags and the gesture and
    effect callbacks that update them. Every callback is an explicit method;
    a spring animation is the assignment of its target value. */
module ImageCropper {
  import opened Common
  import opened CropGeometry

  datatype Point = Point(x: real, y: real)

  /** One value of the `cropData` map. A stored entry is parsed JSON, so any
      field may be missing; `crop`, `zoom` and `minZoom` are carried along but
      never read. */
  datatype CropEntry = CropEntry(crop: Option<Point>, zoom: Option<real>, minZoom: Option<real>,
                                 translateX: Option<real>, translateY: Option<real>,
                                 scale: Option<real>)

  /** The entry inserted the first time a file id is seen. */
  const DefaultEntry: CropEntry :=
    CropEntry(Some(Point(0.0, 0.0)), Some(1.0), Some(1.0), Some(0.0), Some(0.0), Some(1.0))

  function Lookup(m: map<string, CropEntry>, fileId: string): (e: Option<CropEntry>)
    ensures e.Some? <==> fileId in m
    ensures e.Some? ==> e.value == m[fileId]
  {
    if fileId in m then Some(m[fileId]) else None
  }

  /** JavaScript `v || fallback` on a number: a missing or zero value falls back. */
  function OrElse(v: Option<real>, fallback: real): (r: real)
    ensures v.Some? && v.value != 0.0 ==> r == v.value
    ensures v.None? || v.value == 0.0 ==> r == fallback
    ensures r != 0.0 || fallback == 0.0
  {
    if v.Some? && v.value != 0.0 then v.value else fallback
  }

  /** `{...prev, scale, translateX, translateY}`: the three transform fields are
      overwritten and whatever else the previous entry held is kept. */
  function WithTransform(prev: Option<CropEntry>, scale: real, tx: real, ty: real): (e: CropEntry)
    ensures e.scale == Some(scale) && e.translateX == Some(tx) && e.translateY == Some(ty)
    ensures prev.Some? ==> e.crop == prev.value.crop && e.zoom == prev.value.zoom &&
                           e.minZoom == prev.value.minZoom
    ensures prev.None? ==> e.crop.None? && e.zoom.None? && e.minZoom.None?
  {
    match prev
    case None => CropEntry(None, None, None, Some(tx), Some(ty), Some(scale))
    case Some(p) => p.(scale := Some(scale), translateX := Some(tx), translateY := Some(ty))
  }

  /** The map after recording a transform under `fileId`. */
  function Recorded(m: map<string, CropEntry>, fileId: string, scale: real, tx: real, ty: real)
    : (r: map<string, CropEntry>)
    ensures r.Keys == m.Keys + {fileId}
    ensures r[fileId].scale == Some(scale) && r[fileId].translateX == Some(tx) &&
            r[fileId].translateY == Some(ty)
    ensures fileId in m ==> r[fileId].crop == m[fileId].crop && r[fileId].zoom == m[fileId].zoom &&
                            r[fileId].minZoom == m[fileId].minZoom
    ensures fileId !in m ==> r[fileId].crop.None? && r[fileId].zoom.None? && r[fileId].minZoom.None?
    ensures forall k :: k in m && k != fileId ==> r[k] == m[k]
  {
    m[fileId := WithTransform(Lookup(m, fileId), scale, tx, ty)]
  }

  /** `saveCropState`: with an empty file id nothing is recorded. */
  function Saved(m: map<string, CropEntry>, fileId: string, scale: real, tx: real, ty: real)
    : (r: map<string, CropEntry>)
    ensures fileId == "" ==> r == m
    ensures fileId != "" ==> r.Keys == m.Keys + {fileId} &&
                             Lookup(r, fileId) == Some(WithTransform(Lookup(m, fileId), scale, tx, ty))
    ensures forall k :: k in m && k != fileId ==> k in r && r[k] == m[k]
  {
    if fileId == "" then m else Recorded(m, fileId, scale, tx, ty)
  }

  /** The map after the new-file effect: a default entry appears for a file
      id that has none; an existing entry is never overwritten. */
  function Seeded(m: map<string, CropEntry>, imageUri: string, fileId: string): (r: map<string, CropEntry>)
    ensures fileId in m ==> r == m
    ensures imageUri == "" || fileId == "" ==> r == m
    ensures imageUri != "" && fileId != "" ==> fileId in r
    ensures fileId in r && fileId !in m ==> r[fileId] == DefaultEntry
    ensures forall k :: k in m ==> k in r && r[k] == m[k]
    ensures forall k :: k in r && k != fileId ==> k in m
  {
    if imageUri != "" && fileId != "" && fileId !in m then m[fileId := DefaultEntry] else m
  }

  datatype Transform = Transform(scale: real, translateX: real, translateY: real)

  /** What `applySavedCropState` adopts: a stored entry (with `|| 1` / `|| 0`
      fallbacks) if there is one, else the fit scale centred. */
  function RestoredTransform(entry: Option<CropEntry>, fit: real): (t: Transform)
    ensures entry.None? ==> t == Transform(fit, 0.0, 0.0)
    ensures entry.Some? ==> t.scale != 0.0
    ensures entry.Some? && entry.value.scale.Some? && entry.value.scale.value != 0.0 ==>
              t.scale == entry.value.scale.value
    ensures entry.Some? && (entry.value.scale.None? || entry.value.scale.value == 0.0) ==> t.scale == 1.0
    ensures entry.Some? && entry.value.translateX.Some? ==> t.translateX == entry.value.translateX.value
    ensures entry.Some? && entry.value.translateX.None? ==> t.translateX == 0.0
    ensures entry.Some? && entry.value.translateY.Some? ==> t.translateY == entry.value.translateY.value
    ensures entry.Some? && entry.value.translateY.None? ==> t.translateY == 0.0
  {
    match entry
    case None => Transform(fit, 0.0, 0.0)
    case Some(e) => Transform(OrElse(e.scale, 1.0), OrElse(e.translateX, 0.0), OrElse(e.translateY, 0.0))
  }

  /** Saving and then restoring gives back the saved transform, unless the
      saved scale was 0, which restores as 1. */
  lemma SaveRestoreRoundTrip(prev: Option<CropEntry>, scale: real, tx: real, ty: real, fit: real)
    ensures RestoredTransform(Some(WithTransform(prev, scale, tx, ty)), fit) ==
            Transform(if scale == 0.0 then 1.0 else scale, tx, ty)
  {
  }

  /** The default entry restores to scale 1 with no translation, whatever the fit scale. */
  lemma DefaultEntryRestoresUnitScale(fit: real)
    ensures RestoredTransform(Some(DefaultEntry), fit) == Transform(1.0, 0.0, 0.0)
  {
  }

  /** How `generateCroppedImageUrl` ends. */
  datatype GenerateOutcome = ImageNotLoaded | ViewNotReady | CaptureFailed(error: string) | Generated(uri: string)

  class Cropper {
    const cropWidth: real
    const cropHeight: real
    /** Whether the caller passed an `onCropComplete` callback. */
    const hasCompletionCallback: bool

    var imageUri: string
    var fileId: string

    var scale: real
    var savedScale: real
    var translateX: real
    var translateY: real
    var savedTranslateX: real
    var savedTranslateY: real

    var imageWidth: real
    var imageHeight: real
    var isGenerating: bool
    var isImageLoading: bool
    var isInitialized: bool
    var cropData: map<string, CropEntry>

    /** The `cropData` item of the device's key-value store; None when it was never written. */
    var stored: Option<map<string, CropEntry>>
    /** The `(fileId, uri)` pairs handed to `onCropComplete`, oldest first. */
    var completions: seq<(string, string)>

    ghost predicate Valid()
      reads this
    {
      cropWidth > 0.0 && cropHeight == CropHeightFor(cropWidth) &&
      imageWidth >= 0.0 && imageHeight >= 0.0
    }

    /** Translation agrees with the clamp for the current scale. */
    predicate Settled()
      reads this
    {
      ConstrainTranslation(translateX, translateY, scale, imageWidth, imageHeight, cropWidth, cropHeight)
        == Translation(translateX, translateY)
    }

    /** Reset and Generate are disabled. */
    predicate ControlsDisabled()
      reads this
      ensures isGenerating ==> ControlsDisabled()
      ensures LoadingOverlayShown() ==> ControlsDisabled()
      ensures !ControlsDisabled() ==> isInitialized && !isImageLoading && !isGenerating
    {
      isGenerating || isImageLoading || !isInitialized
    }

    /** The spinner covers the image and the image is transparent. */
    predicate LoadingOverlayShown()
      reads this
      ensures !isInitialized ==> LoadingOverlayShown()
      ensures !LoadingOverlayShown() ==> isInitialized && !isImageLoading
    {
      isImageLoading || !isInitialized
    }

    /** Mounting the component: the store is the device's persisted item. */
    constructor (containerWidth: real, imageUri: string, fileId: string, hasCompletionCallback: bool,
                 stored: Option<map<string, CropEntry>>)
      requires containerWidth > 0.0
      ensures Valid()
      ensures cropWidth == containerWidth && cropHeight == CropHeightFor(containerWidth)
      ensures this.imageUri == imageUri && this.fileId == fileId
      ensures this.hasCompletionCallback == hasCompletionCallback && this.stored == stored
      ensures scale == 1.0 && savedScale == 1.0
      ensures translateX == 0.0 && translateY == 0.0 && savedTranslateX == 0.0 && savedTranslateY == 0.0
      ensures imageWidth == 0.0 && imageHeight == 0.0
      ensures !isGenerating && isImageLoading && !isInitialized
      ensures cropData == map[] && completions == []
    {
      cropWidth := containerWidth;
      cropHeight := CropHeightFor(containerWidth);
      this.hasCompletionCallback := hasCompletionCallback;
      this.imageUri := imageUri;
      this.fileId := fileId;
      scale, savedScale := 1.0, 1.0;
      translateX, translateY, savedTranslateX, savedTranslateY := 0.0, 0.0, 0.0, 0.0;
      imageWidth, imageHeight := 0.0, 0.0;
      isGenerating, isImageLoading, isInitialized := false, true, false;
      cropData := map[];
      this.stored := stored;
      completions := [];
    }

    /** Load effect: a stored item replaces the whole in-memory map. */
    method LoadCropData()
      modifies this`cropData
      ensures cropData == if stored.Some? then stored.value else old(cropData)
    {
      if stored.Some? {
        cropData := stored.value;
      }
    }

    /** Save effect: the map is written back only when it is non-empty. */
    method PersistCropData()
      modifies this`stored
      ensures |cropData| > 0 ==> stored == Some(cropData)
      ensures |cropData| == 0 ==> stored == old(stored)
    {
      if |cropData| > 0 {
        stored := Some(cropData);
      }
    }

    /** New-file effect. */
    method InitializeNewFile()
      modifies this`cropData
      ensures cropData == Seeded(old(cropData), imageUri, fileId)
    {
      if imageUri != "" && fileId != "" && fileId !in cropData {
        cropData := cropData[fileId := DefaultEntry];
      }
    }

    /** New props; the reset effect runs when either prop changed and the uri is set.
        The image dimensions of the previous image are kept. */
    method SetSource(uri: string, id: string)
      modifies this`imageUri, this`fileId, this`isImageLoading, this`isInitialized
      ensures imageUri == uri && fileId == id
      ensures (uri != old(imageUri) || id != old(fileId)) && uri != "" ==> isImageLoading && !isInitialized
      ensures !((uri != old(imageUri) || id != old(fileId)) && uri != "") ==>
                isImageLoading == old(isImageLoading) && isInitialized == old(isInitialized)
    {
      var changed := uri != imageUri || id != fileId;
      imageUri, fileId := uri, id;
      if changed && uri != "" {
        isImageLoading := true;
        isInitialized := false;
      }
    }

    /** `onLoad`: the natural size of the image is known. */
    method HandleImageLoad(width: real, height: real)
      requires Valid()
      requires width >= 0.0 && height >= 0.0
      modifies this`imageWidth, this`imageHeight, this`isImageLoading
      ensures Valid()
      ensures imageWidth == width && imageHeight == height && !isImageLoading
    {
      imageWidth, imageHeight := width, height;
      isImageLoading := false;
    }

    /** `onError`: loading stops, the dimensions stay as they were. */
    method HandleImageError()
      modifies this`isImageLoading
      ensures !isImageLoading
    {
      isImageLoading := false;
    }

    /** Adopt the saved transform (or the fit scale) into live and saved values. */
    method ApplySavedCropState()
      requires Valid()
      requires imageWidth > 0.0 && imageHeight > 0.0
      modifies this`scale, this`savedScale, this`translateX, this`translateY,
               this`savedTranslateX, this`savedTranslateY, this`isInitialized
      ensures Valid() && isInitialized
      ensures Transform(scale, translateX, translateY) ==
              RestoredTransform(Lookup(cropData, fileId), FitScale(cropWidth, cropHeight, imageWidth, imageHeight))
      ensures savedScale == scale && savedTranslateX == translateX && savedTranslateY == translateY
    {
      if fileId in cropData {
        var entry := cropData[fileId];
        scale := OrElse(entry.scale, 1.0);
        savedScale := OrElse(entry.scale, 1.0);
        translateX := OrElse(entry.translateX, 0.0);
        translateY := OrElse(entry.translateY, 0.0);
        savedTranslateX := OrElse(entry.translateX, 0.0);
        savedTranslateY := OrElse(entry.translateY, 0.0);
      } else {
        var initialScale := FitScale(cropWidth, cropHeight, imageWidth, imageHeight);
        scale := initialScale;
        savedScale := initialScale;
        translateX, translateY := 0.0, 0.0;
        savedTranslateX, savedTranslateY := 0.0, 0.0;
      }
      isInitialized := true;
    }

    /** The effect that triggers `applySavedCropState` once loading has finished. */
    method ApplySavedCropStateEffect()
      requires Valid()
      modifies this`scale, this`savedScale, this`translateX, this`translateY,
               this`savedTranslateX, this`savedTranslateY, this`isInitialized
      ensures Valid()
      ensures isInitialized == (old(isInitialized) ||
                                (!isImageLoading && imageWidth != 0.0 && imageHeight != 0.0))
      ensures old(isInitialized) || isImageLoading || imageWidth == 0.0 || imageHeight == 0.0 ==>
                scale == old(scale) && savedScale == old(savedScale) &&
                translateX == old(translateX) && translateY == old(translateY) &&
                savedTranslateX == old(savedTranslateX) && savedTranslateY == old(savedTranslateY)
      ensures !old(isInitialized) && !isImageLoading && imageWidth != 0.0 && imageHeight != 0.0 ==>
                Transform(scale, translateX, translateY) ==
                RestoredTransform(Lookup(cropData, fileId), FitScale(cropWidth, cropHeight, imageWidth, imageHeight))
    {
      if !isImageLoading && imageWidth != 0.0 && imageHeight != 0.0 && !isInitialized {
        ApplySavedCropState();
      }
    }

    /** `saveCropState`. */
    method SaveCropState()
      modifies this`cropData
      ensures cropData == Saved(old(cropData), fileId, scale, translateX, translateY)
    {
      if fileId != "" {
        cropData := Recorded(cropData, fileId, scale, translateX, translateY);
      }
    }

    method PanStart()
      modifies this`savedTranslateX, this`savedTranslateY
      ensures savedTranslateX == translateX && savedTranslateY == translateY
    {
      savedTranslateX := translateX;
      savedTranslateY := translateY;
    }

    /** The event carries the translation accumulated since the gesture began. */
    method PanUpdate(translationX: real, translationY: real)
      modifies this`translateX, this`translateY
      ensures translateX == savedTranslateX + translationX
      ensures translateY == savedTranslateY + translationY
    {
      translateX := savedTranslateX + translationX;
      translateY := savedTranslateY + translationY;
    }

    /** Clamp against the current scale, then save. */
    method PanEnd()
      requires Valid()
      modifies this`translateX, this`translateY, this`cropData
      ensures Valid() && Settled()
      ensures Translation(translateX, translateY) ==
              ConstrainTranslation(old(translateX), old(translateY), scale, imageWidth, imageHeight,
                                   cropWidth, cropHeight)
      ensures cropData == Saved(old(cropData), fileId, scale, translateX, translateY)
    {
      var constrained := ConstrainTranslation(translateX, translateY, scale, imageWidth, imageHeight,
                                              cropWidth, cropHeight);
      translateX := constrained.x;
      translateY := constrained.y;
      ConstrainTranslationIdempotent(old(translateX), old(translateY), scale, imageWidth, imageHeight,
                                     cropWidth, cropHeight);
      SaveCropState();
    }

    method PinchStart()
      modifies this`savedScale
      ensures savedScale == scale
    {
      savedScale := scale;
    }

    /** The event carries the scale factor accumulated since the gesture began. */
    method PinchUpdate(factor: real)
      modifies this`scale
      ensures scale == PinchedScale(old(scale), savedScale, factor)
    {
      var newScale := savedScale * factor;
      if newScale >= MinPinchScale && newScale <= MaxPinchScale {
        scale := newScale;
      }
    }

    /** Clamp the translation against the new scale, then save. The spring of
        the scale towards its own value changes nothing. */
    method PinchEnd()
      requires Valid()
      modifies this`translateX, this`translateY, this`cropData
      ensures Valid() && Settled()
      ensures Translation(translateX, translateY) ==
              ConstrainTranslation(old(translateX), old(translateY), scale, imageWidth, imageHeight,
                                   cropWidth, cropHeight)
      ensures cropData == Saved(old(cropData), fileId, scale, translateX, translateY)
    {
      var constrained := ConstrainTranslation(translateX, translateY, scale, imageWidth, imageHeight,
                                              cropWidth, cropHeight);
      translateX := constrained.x;
      translateY := constrained.y;
      ConstrainTranslationIdempotent(old(translateX), old(translateY), scale, imageWidth, imageHeight,
                                     cropWidth, cropHeight);
      SaveCropState();
    }

    /** The Reset button: fit scale, centred, recorded under the file id
        (without the empty-id check of `saveCropState`). */
    method ResetTransform()
      requires Valid()
      modifies this`scale, this`savedScale, this`translateX, this`translateY,
               this`savedTranslateX, this`savedTranslateY, this`cropData
      ensures Valid()
      ensures imageWidth == 0.0 || imageHeight == 0.0 ==>
                scale == old(scale) && savedScale == old(savedScale) &&
                translateX == old(translateX) && translateY == old(translateY) &&
                savedTranslateX == old(savedTranslateX) && savedTranslateY == old(savedTranslateY) &&
                cropData == old(cropData)
      ensures imageWidth != 0.0 && imageHeight != 0.0 ==>
                scale == FitScale(cropWidth, cropHeight, imageWidth, imageHeight) && savedScale == scale &&
                translateX == 0.0 && translateY == 0.0 && savedTranslateX == 0.0 && savedTranslateY == 0.0 &&
                Settled() &&
                cropData == Recorded(old(cropData), fileId, scale, 0.0, 0.0)
    {
      if imageWidth == 0.0 || imageHeight == 0.0 {
        return;
      }
      var initialScale := FitScale(cropWidth, cropHeight, imageWidth, imageHeight);
      scale := initialScale;
      savedScale := initialScale;
      translateX, translateY := 0.0, 0.0;
      savedTranslateX, savedTranslateY := 0.0, 0.0;
      cropData := Recorded(cropData, fileId, initialScale, 0.0, 0.0);
    }

    /** The Generate button. `viewLaidOut` is whether the crop view has a
        native handle; `capture` is what the view-shot capture produced. */
    method GenerateCroppedImage(viewLaidOut: bool, capture: Option<string>) returns (outcome: GenerateOutcome)
      modifies this`isGenerating, this`cropData, this`completions
      ensures imageWidth == 0.0 || imageHeight == 0.0 ==>
                outcome == ImageNotLoaded && isGenerating == old(isGenerating) &&
                cropData == old(cropData) && completions == old(completions)
      ensures imageWidth != 0.0 && imageHeight != 0.0 && !viewLaidOut ==>
                outcome == ViewNotReady && isGenerating == old(isGenerating) &&
                cropData == old(cropData) && completions == old(completions)
      ensures imageWidth != 0.0 && imageHeight != 0.0 && viewLaidOut ==>
                !isGenerating && cropData == Saved(old(cropData), fileId, scale, translateX, translateY)
      ensures imageWidth != 0.0 && imageHeight != 0.0 && viewLaidOut && capture.None? ==>
                outcome.CaptureFailed? && completions == old(completions)
      ensures imageWidth != 0.0 && imageHeight != 0.0 && viewLaidOut && capture.Some? ==>
                outcome == Generated(capture.value) &&
                completions == old(completions) + if hasCompletionCallback then [(fileId, capture.value)] else []
    {
      if imageWidth == 0.0 || imageHeight == 0.0 {
        return ImageNotLoaded;
      }
      if !viewLaidOut {
        return ViewNotReady;
      }
      isGenerating := true;
      SaveCropState();
      match capture {
        case None =>
          outcome := CaptureFailed("Failed to generate cropped image");
        case Some(uri) =>
          if hasCompletionCallback {
            completions := completions + [(fileId, uri)];
          }
          outcome := Generated(uri);
      }
      isGenerating := false;
    }
  }

  /** On a fresh mount, an image that fails to load leaves the dimensions at 0,
      so the cropper never initialises and Reset/Generate stay disabled. */
  method ImageErrorKeepsControlsDisabled(containerWidth: real, imageUri: string, fileId: string)
    returns (disabled: bool, overlay: bool)
    requires containerWidth > 0.0
    ensures disabled && overlay
  {
    var c := new Cropper(containerWidth, imageUri, fileId, true, None);
    c.InitializeNewFile();
    c.HandleImageError();
    c.ApplySavedCropStateEffect();
    disabled := c.ControlsDisabled();
    overlay := c.LoadingOverlayShown();
  }

  /** A file seen for the first time gets the default entry before its image
      has loaded, so it is restored at scale 1 rather than at the fit scale. */
  method NewFileStartsAtUnitScale(containerWidth: real, imageUri: string, fileId: string,
                                  width: real, height: real)
    returns (scale: real, fit: real)
    requires containerWidth > 0.0 && width > 0.0 && height > 0.0
    requires imageUri != "" && fileId != ""
    ensures scale == 1.0
    ensures fit == FitScale(containerWidth, CropHeightFor(containerWidth), width, height)
  {
    var c := new Cropper(containerWidth, imageUri, fileId, true, None);
    c.InitializeNewFile();
    c.HandleImageLoad(width, height);
    c.ApplySavedCropStateEffect();
    DefaultEntryRestoresUnitScale(FitScale(c.cropWidth, c.cropHeight, width, height));
    scale := c.scale;
    fit := FitScale(c.cropWidth, c.cropHeight, width, height);
  }

  /** The reset effect keeps the previous image's dimensions. After a first
      image has loaded, a second one that fails to load is still initialised
      (with the old dimensions), so Reset/Generate are enabled and the
      loading overlay is gone. */
  method ErrorAfterSwitchEnablesControls(containerWidth: real, firstUri: string, firstId: string,
                                         width: real, height: real, nextUri: string, nextId: string)
    returns (disabled: bool, overlay: bool, keptWidth: real, keptHeight: real)
    requires containerWidth > 0.0 && width > 0.0 && height > 0.0
    requires nextUri != "" && (nextUri != firstUri || nextId != firstId)
    ensures !disabled && !overlay
    ensures keptWidth == width && keptHeight == height
  {
    var c := new Cropper(containerWidth, firstUri, firstId, true, None);
    c.InitializeNewFile();
    c.HandleImageLoad(width, height);
    c.ApplySavedCropStateEffect();
    c.SetSource(nextUri, nextId);
    c.InitializeNewFile();
    c.HandleImageError();
    c.ApplySavedCropStateEffect();
    disabled := c.ControlsDisabled();
    overlay := c.LoadingOverlayShown();
    keptWidth, keptHeight := c.imageWidth, c.imageHeight;
  }

  /** The save effect followed by a remount and the load effect gives back the
      same map: here, the default entry of a new file. */
  method RemountRestoresCropData(containerWidth: real, imageUri: string, fileId: string)
    returns (saved: map<string, CropEntry>, loaded: map<string, CropEntry>)
    requires containerWidth > 0.0 && imageUri != "" && fileId != ""
    ensures loaded == saved
    ensures fileId in loaded && loaded[fileId] == DefaultEntry
  {
    var c := new Cropper(containerWidth, imageUri, fileId, true, None);
    c.InitializeNewFile();
    c.PersistCropData();
    saved := c.cropData;
    var remounted := new Cropper(containerWidth, imageUri, fileId, true, c.stored);
    remounted.LoadCropData();
    loaded := remounted.cropData;
  }
}
