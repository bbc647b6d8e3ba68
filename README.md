# Traveltor mobile app: crop, feed and carousel rules in Dafny

This project models the few pieces of the Traveltor React Native app that carry rules rather than layout:

- **Interactive image cropper** (`ImageCropper`, `CropGeometry`). It keeps a live and a "saved" (gesture-start) scale and translation. It computes the cover-fit scale and clamps the translation so that, on an axis where the scaled image is larger than the 3:4 crop box, no gap opens inside the box, while on an axis where it is smaller (a pinch may go down to 0.5, below the fit scale) the image is centred. A pinch proposal is accepted only inside [0.5, 5]. A per-`fileId` `cropData` map is seeded, merged, persisted and restored. The `isImageLoading` / `isInitialized` flags gate when a saved transform is applied and when the Reset/Generate buttons are enabled. Effects and gesture callbacks are plain methods, called explicitly. A spring animation is the assignment of its target value.
- **3:4 centre crop of an upload** (`FileUploadHelper`). It computes the largest centred 3:4 box inside a `width × height` image and the name and type of the cropped file.
- **My Feeds screen** (`MyFeeds`). It covers the like/dislike counter update on one entry, the reset-or-append merge of a fetched page with `hasMore`, the infinite-scroll trigger and the page-number effect, and the upload-status banner rule.
- **Feed card** (`FeedsContainer`). It covers the 50-character review preview and its toggle, the 300 ms double-tap detector, the disabled rules of the reaction buttons, the route rule for showing the trekscape name, and the carousel page index.
- **Hero carousel** (`HeroSection`). An interval tick advances a ring counter over the doubled slide list. The active slide is the counter modulo the slide count. The scroll offset is the left edge of the target slide.

JavaScript numbers are `real`. Times and counters are `int`. A value that may be `undefined` is an `Option`. The device's key-value store, native image calls, network answers and the clock are parameters or fields.

Some behaviour of the code differs from what a reader of the component might expect. The model follows the code:

- A file id seen for the first time gets the default entry (scale 1) from the new-file effect, before its image has loaded. So `applySavedCropState` restores scale 1, not the cover-fit scale. The fit branch is reached only when no entry exists, for example with an empty `fileId` (`NewFileStartsAtUnitScale`, `DefaultEntryRestoresUnitScale`).
- Pan and pinch callbacks are not gated on readiness. Only the Reset and Generate buttons are disabled while loading or uninitialised.
- Pinch rejects proposals outside [0.5, 5]. There is no lower bound at the fit scale.
- `generateCroppedImageUrl` has no "capture in progress" check of its own. Only the disabled button prevents a second capture.
- `resetTransform` writes `cropData[fileId]` even when `fileId` is empty, unlike `saveCropState`.
- The reset effect keeps the previous image's dimensions. After a first image has loaded, a second image that fails to load is still initialised with the old dimensions, so Reset and Generate become enabled (`ErrorAfterSwitchEnablesControls`). Only on a fresh mount does a load error keep them disabled.
- The screen mounts the upload banner only while `isPending`. The banner's own 5-second window after publishing therefore never makes it visible (`BannerVisible`, `PublishedBannerNeverShown`).
- The Like button's disabled rule is case-sensitive, while the Dislike rule and both highlights lower-case the reaction (`LikeRuleIsCaseSensitive`).

## Model

| member | source | states |
|---|---|---|
| CropGeometry.CropHeightFor | app/components/Crop/ImageCropperComponent.js:33-34 | the crop box height is 4/3 of the container width (3·h = 4·w) |
| CropGeometry.FitScale | app/components/Crop/ImageCropperComponent.js:124-126 | at the fit scale the image covers the box on both axes and exactly matches it on at least one |
| CropGeometry.FitScaleIsLeast | app/components/Crop/ImageCropperComponent.js:124-126 | every scale that covers the box is at least the fit scale |
| CropGeometry.MaxOffset | app/components/Crop/ImageCropperComponent.js:187-191 | the allowed offset is exactly half the overhang when the scaled image is larger than the box, and zero exactly when it is not |
| CropGeometry.Clamp | app/components/Crop/ImageCropperComponent.js:193-194 | the result lies in [-bound, bound], equals an in-range input, and is the nearest bound otherwise |
| CropGeometry.ConstrainTranslation | app/components/Crop/ImageCropperComponent.js:182-199 | input returned unchanged when a dimension is 0; otherwise each axis is `Clamp`ed to its own bound, so a value beyond +bound lands on +bound and one beyond −bound on −bound; the result is within bounds; an in-bounds point is a fixpoint; an axis where the scaled image fits is centred (0) |
| CropGeometry.ConstrainTranslationIdempotent | app/components/Crop/ImageCropperComponent.js:185-196 | clamping a clamped translation changes nothing (settling twice equals settling once) |
| CropGeometry.PinchedScale | app/components/Crop/ImageCropperComponent.js:232-239 | the proposal saved·factor is adopted only inside [0.5, 5] inclusive, else the scale is kept; an in-range scale stays in range |
| ImageCropper.OrElse | app/components/Crop/ImageCropperComponent.js:114-119 | JavaScript `v \|\| d`: a missing or zero number falls back; the result is non-zero whenever the fallback is |
| ImageCropper.WithTransform | app/components/Crop/ImageCropperComponent.js:169-177 | the spread entry has the new scale/translateX/translateY and keeps crop/zoom/minZoom of the previous entry (absent when there was none) |
| ImageCropper.Recorded | app/components/Crop/ImageCropperComponent.js:328-336 | writing an entry adds only that key and sets its three transform fields; an existing entry keeps its crop/zoom/minZoom, a new one has none; every other entry is kept |
| ImageCropper.Saved | app/components/Crop/ImageCropperComponent.js:167-179 | `saveCropState`: empty file id leaves the map as it is; otherwise only `cropData[fileId]`'s transform fields change, all other entries are kept |
| ImageCropper.Seeded | app/components/Crop/ImageCropperComponent.js:84-98 | with uri and id set, the id gets an entry, and a new entry is the default one; an empty uri or id leaves the map as it is; existing entries are never overwritten; no other key appears |
| ImageCropper.RestoredTransform | app/components/Crop/ImageCropperComponent.js:109-137 | no entry gives the fit scale with zero translation; for an entry, a present non-zero scale is copied and a missing or zero scale restores as 1; a present translation is copied and a missing one restores as 0 |
| ImageCropper.SaveRestoreRoundTrip | app/components/Crop/ImageCropperComponent.js:110-119 | restoring a saved entry gives back the saved transform, except that scale 0 comes back as 1 |
| ImageCropper.DefaultEntryRestoresUnitScale | app/components/Crop/ImageCropperComponent.js:88-95 | the default entry restores as scale 1 with no translation, whatever the fit scale |
| ImageCropper.Cropper.constructor | app/components/Crop/ImageCropperComponent.js:26-52 | crop box is containerWidth × containerWidth·4/3; scale 1, translation 0, dimensions 0, loading, not initialised, empty map |
| ImageCropper.Cropper.LoadCropData | app/components/Crop/ImageCropperComponent.js:55-67 | a stored item replaces the whole in-memory map; no item leaves it as it is |
| ImageCropper.Cropper.PersistCropData | app/components/Crop/ImageCropperComponent.js:70-81 | the map is written to the store only when non-empty, so a later load gives it back |
| ImageCropper.Cropper.InitializeNewFile | app/components/Crop/ImageCropperComponent.js:84-98 | the map becomes `Seeded` of the old map |
| ImageCropper.Cropper.SetSource | app/components/Crop/ImageCropperComponent.js:101-106 | when uri or id changes and the uri is set, loading restarts and initialisation is cleared; otherwise the flags are kept |
| ImageCropper.Cropper.HandleImageLoad | app/components/Crop/ImageCropperComponent.js:140-146 | the dimensions become the image's natural size and loading ends |
| ImageCropper.Cropper.HandleImageError | app/components/Crop/ImageCropperComponent.js:161-164 | loading ends and nothing else changes (dimensions stay as they were) |
| ImageCropper.Cropper.ApplySavedCropState | app/components/Crop/ImageCropperComponent.js:109-137 | live and saved scale/translation both become `RestoredTransform` of the entry (or fit scale), and the state is initialised |
| ImageCropper.Cropper.ApplySavedCropStateEffect | app/components/Crop/ImageCropperComponent.js:149-158 | initialises exactly when loading has finished, both dimensions are non-zero and it was not initialised; otherwise the transform is untouched |
| ImageCropper.Cropper.SaveCropState | app/components/Crop/ImageCropperComponent.js:167-179 | the map becomes `Saved` of the old map with the current scale and translation; nothing else changes |
| ImageCropper.Cropper.PanStart | app/components/Crop/ImageCropperComponent.js:203-206 | the saved translation snapshots the live one |
| ImageCropper.Cropper.PanUpdate | app/components/Crop/ImageCropperComponent.js:207-213 | translation = snapshot + the event's cumulative translation (no incremental accumulation) |
| ImageCropper.Cropper.PanEnd | app/components/Crop/ImageCropperComponent.js:214-225 | translation becomes the clamp of the old one at the current scale, the state is settled, and the result is saved under the file id |
| ImageCropper.Cropper.PinchStart | app/components/Crop/ImageCropperComponent.js:229-231 | the saved scale snapshots the live one |
| ImageCropper.Cropper.PinchUpdate | app/components/Crop/ImageCropperComponent.js:232-239 | the scale becomes `PinchedScale`: saved·factor inside [0.5, 5], else unchanged |
| ImageCropper.Cropper.PinchEnd | app/components/Crop/ImageCropperComponent.js:240-253 | scale is kept, translation is clamped against it, the state is settled and saved |
| ImageCropper.Cropper.ResetTransform | app/components/Crop/ImageCropperComponent.js:313-337 | no-op when a dimension is 0; otherwise live and saved values become fit scale and zero translation (settled), and the same values are recorded in `cropData[fileId]` |
| ImageCropper.Cropper.GenerateCroppedImage | app/components/Crop/ImageCropperComponent.js:270-310 | rejects before any change when the image is not loaded or the view is not laid out; otherwise saves the crop state, reports the captured uri once to the callback, and ends with `isGenerating` false |
| ImageCropper.ImageErrorKeepsControlsDisabled | app/components/Crop/ImageCropperComponent.js:386-402 | on a freshly mounted cropper, after an image error the cropper never initialises: Reset/Generate stay disabled and the loading overlay stays up |
| ImageCropper.ErrorAfterSwitchEnablesControls | app/components/Crop/ImageCropperComponent.js:101-106 | after a first image loaded, switching to a new source whose image fails to load still initialises with the kept dimensions: Reset/Generate are enabled and the overlay is gone |
| ImageCropper.RemountRestoresCropData | app/components/Crop/ImageCropperComponent.js:55-81 | the save effect, a remount and the load effect give back the same map, holding the new file's default entry |
| ImageCropper.Cropper.ControlsDisabled | app/components/Crop/ImageCropperComponent.js:386-402 | Reset/Generate are disabled while generating and whenever the loading overlay is shown; enabled only once initialised, loaded and idle |
| ImageCropper.Cropper.LoadingOverlayShown | app/components/Crop/ImageCropperComponent.js:345-362 | the spinner shows (and the image is transparent) until the cropper is initialised; hidden only when initialised and not loading |
| ImageCropper.NewFileStartsAtUnitScale | app/components/Crop/ImageCropperComponent.js:84-137 | a file id seen for the first time is restored at scale 1 once its image loads, not at the fit scale |
| FileUploadHelper.ThreeFourBox | app/components/Helpers/fileUploadHelper.js:15-25 | width:height is 3:4; the box is centred (equal margins); it spans the full width when width·4/3 ≤ height, else the full height; for a non-negative image it fits inside with non-negative offsets |
| FileUploadHelper.ThreeFourBoxRatio | app/components/Helpers/fileUploadHelper.js:15-22 | for a positive image, cropWidth / cropHeight = 3/4 exactly |
| FileUploadHelper.ThreeFourBoxIsLargest | app/components/Helpers/fileUploadHelper.js:16-22 | no 3:4 rectangle inside the image is wider or taller than the box |
| FileUploadHelper.Decimal | app/components/Helpers/fileUploadHelper.js:47 | the decimal digits of the timestamp are digits, have no leading zero (except for 0 itself) and read back as the same number |
| FileUploadHelper.CroppedName | app/components/Helpers/fileUploadHelper.js:47 | the name is `cropped_` + stem + `.jpg`; the stem is the file name when non-empty, else the decimal timestamp |
| FileUploadHelper.ConvertToThreeFourRatio | app/components/Helpers/fileUploadHelper.js:7-60 | a size failure rejects with its error and sends no request; otherwise the resizer is asked for a cover-mode JPEG at quality 80 of the source uri, cut at `ThreeFourBox` of the measured size; its failure rejects with that error, and its success gives the resized uri, type `image/jpeg` and the cropped name |
| FileUploadHelper.RequestIsThreeFourInside | app/components/Helpers/fileUploadHelper.js:15-43 | for a positive measured size the box sent to the resizer is exactly 3:4 and fits inside the image |
| FeedsContainer.ReviewText | app/components/Mobile/FeedsContainer.js:55 | a missing review counts as the empty string |
| FeedsContainer.DisplayText | app/components/Mobile/FeedsContainer.js:55-56 | expanded shows the whole review; collapsed shows a prefix of length min(50, length) |
| FeedsContainer.ShowsMoreLink | app/components/Mobile/FeedsContainer.js:407-410 | the "...more/less" link appears exactly when the collapsed text differs from the full text |
| FeedsContainer.IsDoubleTap | app/components/Mobile/FeedsContainer.js:124-126 | a double tap needs a gap strictly between 0 and 300 ms; a simultaneous, earlier or 300 ms late tap is not one |
| FeedsContainer.LikeDisabled | app/components/Mobile/FeedsContainer.js:321-323 | disabled while a reaction is in flight or for the exact reaction 'Like'; a disabling reaction is always a highlighted one; otherwise enabled |
| FeedsContainer.DislikeDisabled | app/components/Mobile/FeedsContainer.js:352-356 | disabled exactly while a reaction is in flight or when the reaction spells "dislike" letter by letter ignoring ASCII case; such a reaction never highlights Like |
| FeedsContainer.LikeHighlighted | app/components/Mobile/FeedsContainer.js:324-327 | highlighted exactly when the reaction spells "like" letter by letter ignoring ASCII case ('Like', 'like', 'LIKE', ...) |
| FeedsContainer.DislikeDisabledIgnoresCase | app/components/Mobile/FeedsContainer.js:352-356 | the Dislike rule gives the same answer for a reaction and its lower-cased form; 'Dislike' and 'DISLIKE' both disable |
| FeedsContainer.LikeRuleIsCaseSensitive | app/components/Mobile/FeedsContainer.js:321-328 | a reaction 'like' highlights the Like button but leaves it enabled; 'Like' highlights and disables it |
| FeedsContainer.IsTrekscapeNameShow | app/components/Mobile/FeedsContainer.js:72-75 | true exactly on MyFeeds, on TrekscapeFeed (the slug is compared with itself) and on a Profile route whose id equals the user's id |
| FeedsContainer.Round | app/components/Mobile/FeedsContainer.js:148-150 | `Math.round`: the integer n with x − ½ < n ≤ x + ½ |
| FeedsContainer.CarouselIndex | app/components/Mobile/FeedsContainer.js:146-151 | the page whose left edge n·width is nearest the offset (within half a width); non-negative for a non-negative offset |
| FeedsContainer.CarouselIndexAtPage | app/components/Mobile/FeedsContainer.js:147-151 | an offset of exactly k widths selects page k |
| FeedsContainer.FeedCard.constructor | app/components/Mobile/FeedsContainer.js:54-64 | the card starts collapsed with last tap time 0 |
| FeedsContainer.FeedCard.ToggleReview | app/components/Mobile/FeedsContainer.js:77-79 | `expanded` flips |
| FeedsContainer.FeedCard.HandleDoubleTap | app/components/Mobile/FeedsContainer.js:122-134 | the heart animates iff the gap to the last tap is strictly between 0 and 300 ms; Like is called iff also the reaction is not 'Like'; the last tap time always becomes now |
| FeedsContainer.TripleTap | app/components/Mobile/FeedsContainer.js:122-133 | three taps 100 ms apart give two double taps, since every tap resets the reference time |
| FeedsContainer.ToggleTwice | app/components/Mobile/FeedsContainer.js:77-79 | two toggles restore the collapsed text |
| MyFeeds.ApplyReaction | app/containers/MobilePages/MyFeeds.js:230-242 | Like: likes+1, reaction 'Like', dislikes−1 iff the previous reaction was 'Dislike'; any other kind symmetric with 'Dislike'; id and review kept |
| MyFeeds.SwitchingKeepsTotal | app/containers/MobilePages/MyFeeds.js:230-242 | switching an existing vote keeps likes + dislikes |
| MyFeeds.SwitchBackRestores | app/containers/MobilePages/MyFeeds.js:230-242 | Like then Dislike on a disliked entry restores it exactly |
| MyFeeds.RepeatedLikeCountsTwice | app/containers/MobilePages/MyFeeds.js:229-235 | a repeated Like is not guarded: it adds a second like |
| MyFeeds.LikedFeedDisablesLike | app/containers/MobilePages/MyFeeds.js:230-235 | after a Like the card's Like button is disabled and its Dislike button is not |
| MyFeeds.ReactedFeeds | app/containers/MobilePages/MyFeeds.js:229-244 | the length is kept, entry i is the reacted entry and every other entry is unchanged |
| MyFeeds.MergePage | app/containers/MobilePages/MyFeeds.js:133-135 | reset replaces the list by the page; otherwise the old items come first, followed by the page |
| MyFeeds.CloseToBottom | app/containers/MobilePages/MyFeeds.js:209-210 | near the bottom exactly when the viewport's bottom edge is at most 20 points short of the content's end (an edge past the end counts) |
| MyFeeds.ShowStatus | app/containers/MobilePages/MyFeeds.js:445-450 | shown iff pending, or a non-zero publish time lies less than 5000 ms before now |
| MyFeeds.BannerVisible | app/containers/MobilePages/MyFeeds.js:390 | the mounted banner is visible exactly while the upload is pending |
| MyFeeds.PublishedBannerNeverShown | app/containers/MobilePages/MyFeeds.js:447-448 | within 5 s of publishing, the banner's own rule says show but the screen does not show it |
| MyFeeds.FeedScreen.constructor | app/containers/MobilePages/MyFeeds.js:34-56 | page 0, no more pages, no loaders, reactions enabled, first render pending, no popups |
| MyFeeds.FeedScreen.HandleLikeDislike | app/containers/MobilePages/MyFeeds.js:223-272 | logged out: only a login popup; accepted: only entry i changes; no status, a thrown error or a missing entry: feeds unchanged and an error popup; after any logged-in attempt reactions are enabled again |
| MyFeeds.FeedScreen.StartFetch | app/containers/MobilePages/MyFeeds.js:127-129 | the bottom loader is on, and the full loader too when `loader` is false |
| MyFeeds.FeedScreen.FinishFetch | app/containers/MobilePages/MyFeeds.js:131-148 | a page is merged by `MergePage` and `hasMore` becomes "the page had exactly 5 items"; no data leaves both; all loaders end off |
| MyFeeds.FeedScreen.HandleScroll | app/containers/MobilePages/MyFeeds.js:205-221 | the page number grows by exactly 1 iff near the bottom (within 20), more pages exist, no fetch is running and the first render is over; otherwise it is unchanged |
| MyFeeds.FeedScreen.PageNumberEffect | app/containers/MobilePages/MyFeeds.js:153-171 | the first run only ends the first render; later scroll-driven runs fetch the page, with reset when the refresh flag is absent and appending when it is present and the page is non-zero |
| MyFeeds.ScrollLoadsNextPage | app/containers/MobilePages/MyFeeds.js:205-221 | after a full first page, scrolling to the bottom fetches page 1 and appends it after the first page |
| HeroSection.Cloned | app/Home/HeroSection.js:23 | the doubled list has length 2n and position i shows slide i mod n |
| HeroSection.TickIndex | app/Home/HeroSection.js:29-34 | a tick either wraps to 0 or adds one, and from [0, 2n) it stays in [0, 2n) |
| HeroSection.TickIndexIsSuccessorMod | app/Home/HeroSection.js:29-34 | on [0, 2n) a tick is the successor modulo 2n |
| HeroSection.TickLands | app/Home/HeroSection.js:36-41 | every counter value in [0, 2n) is scrolled to the left edge of that position, and that position shows the active slide |
| HeroSection.TicksBeforeWrap | app/Home/HeroSection.js:29-34 | before the end of the doubled list each tick adds one |
| HeroSection.TicksCompose | app/Home/HeroSection.js:28-45 | a + b ticks equal a ticks followed by b ticks |
| HeroSection.FullCycleReturns | app/Home/HeroSection.js:29-34 | after 2n ticks the counter is back at its start |
| HeroSection.ActiveIndex | app/Home/HeroSection.js:41 | with slides the active index lies in [0, n); with none it is NaN (None) |
| HeroSection.SlideMargin | app/Home/HeroSection.js:111 | every slide but the last has a 16-point right margin |
| HeroSection.SlideStart | app/Home/HeroSection.js:106-112 | the left edge of a slide in the row is never negative, and after the first slide it is at least one slide width |
| HeroSection.SlideStartIsStep | app/Home/HeroSection.js:36 | the left edge of slide k is k·(itemWidth + 16), so the tick's offset step matches the margins |
| HeroSection.BackgroundFor | app/Home/HeroSection.js:53-55 | the background is the active slide's image when it has one, else the default hero image |
| HeroSection.HeroCarousel.constructor | app/Home/HeroSection.js:16-24 | counter 0, active slide 0, item width screenWidth/5.75 |
| HeroSection.HeroCarousel.Tick | app/Home/HeroSection.js:28-45 | counter advances by `TickIndex`, staying in [0, 2n); at wrap it scrolls to 0 unanimated, else animated to the target slide's left edge; the active index is the counter mod n and shows the same slide as the scrolled-to position |
| HeroSection.HeroCarousel.Background | app/Home/HeroSection.js:52-56 | with slides, an active slide with a non-empty image sets the background and one without falls back to the default; with no slides the default is shown |

## Left out

- Image capture (`captureRef`), `Alert` dialogs, `withSpring` and the gesture-handler/worklet runtime are foreign rendering calls. The capture result is a parameter. A spring is the assignment of its target. So `saveCropState` after a gesture records the target values, whereas on the device it reads the shared values while the spring is still running.
- ImageCropper.Cropper.GenerateCroppedImage: the failure's message is not tied to the capture error's text, and the success/failure alerts are not modelled.
- The device's key-value store (AsyncStorage) is modelled as one field holding the `cropData` map. JSON (de)serialisation, read/write failures (caught and logged) and the stored `pageNumber`, `hasMore`, `refresh`, `reloaded` and scroll position are async I/O and are left out. Entries read from the store are modelled as records whose numeric fields may be missing. `NaN` is not modelled.
- React effect order and batching are not modelled. Each effect is a method, and the caller chooses the order. The race between the store load and the new-file effect is therefore represented only by the order of calls.
- `Image.getSize` and `ImageResizer.createResizedImage` are native calls. The size answer is a parameter. The resizer is a function from the request to its answer, so the model assumes it answers the same request the same way. Date.now() is a parameter.
- The location permission and geolocation code in the upload helper is platform code and is not part of this model. The commented-out `handleFileChange` is not part of it either.
- Network calls (`getMyFeed`, `FeedReactionAction`, `getAuthReq`, `postAuthReq`), `EventRegister` listeners, navigation, `FastImage` cache clearing and `moment().fromNow()` formatting are I/O or library wrappers. Redux error dispatches are recorded as a list of popups.
- `setInterval`/`setTimeout` scheduling: a tick is a method call. The 500 ms delay before `setActiveIndex` is not modelled, so the active index updates within the tick.
- MyFeeds.FeedScreen.HandleLikeDislike: the JavaScript handler copies the array but mutates the shared entry objects, and it closes over the `feeds` of its render. The model builds a new list from the current one, so neither the aliasing nor a stale list is captured.
- MyFeeds.FeedScreen.FinishFetch: a response whose `data` lacks the inner list (which sets `noData`) is not modelled.
- Pull-to-refresh (`handleRefresh`), the scroll-to-top request, view check-ins, the comment and reaction-list modals and the trekscape carousel screen are outside the modelled core. The app registration and the foreground notification listener are outside it too.
- FeedsContainer.ToLower: only ASCII letters are lower-cased. JavaScript's `toLowerCase` also maps other Unicode letters. String lengths count characters, not UTF-16 code units.
- IEEE-754 rounding of JavaScript numbers is not modelled. All arithmetic, including `Math.round` and the divisions of the crop and fit computations, is exact.
- Image natural sizes are taken to be non-negative (`HandleImageLoad` requires it).
