# ImageCarousel canvas: placement and gesture model

ImageCarousel is an Android app with two parts. A horizontal carousel shows thumbnails loaded from a repository. A square canvas holds images the user drags out of the carousel. Each image on the canvas sits in a fixed frame. The frame is sized once from the bitmap and the canvas. The user moves a frame by dragging its 16dp border. A pinch zooms and pans the image inside its frame, and the pan is kept clamped so the image always covers the frame. A long press on a canvas item drags it through a shared overlay. On the carousel screen, releasing it inside the canvas re-centres it under the finger and brings it to the front. On the home screen, release only clears the overlay and the lifted id, and the item stays where it was.

This project models that core in Dafny:

- `Models`: the value types. These are offsets, sizes, integer rectangles, bitmaps, canvas items, the data-state wrapper and the UI state.
- `Extensions`: `IntRect.contains`, which rounds the point half-up and is inclusive on all four edges.
- `Geometry`: the shared arithmetic. It covers the frame fit (60% of the canvas, never upscaled, at least 1px), the offset clamp, the pan clamp, the pinch about the centroid, the border hit test and the centred drop.
- `ImageMappers` and `GetImagesUseCase`: the DTO-to-domain mapping, and the two-emission load flow.
- `ViewModel`: the canvas item store (`CarouselViewModel`). It appends items with fresh ids and updates the first item with a given id.
- `CarouselScreen`, `HomeScreen`, `CanvasImageComposable` and `UiComposables`: the gesture callbacks of the two screens, the per-item composable and the carousel strip. Each is a class whose methods change the screen's drag state and the store.

The per-item remembered frame offset, zoom and translation are kept in step with the store by effects. The model stores them in the store item itself, looked up by id. Item ids are UUIDs in the app. Here they are serial numbers drawn from a counter, which makes freshness provable.

## Model

| member | source | states |
|---|---|---|
| Extensions.RoundToInt | app/src/main/java/com/example/imagecarousel/presentation/Extensions.kt:9-10 | the rounded value is the integer within half a unit of the input, ties going up |
| Extensions.RoundToIntUnique | app/src/main/java/com/example/imagecarousel/presentation/Extensions.kt:9-10 | that integer is unique: any n with n-0.5 <= v < n+0.5 is the rounding |
| Extensions.ContainsCharacterisation | app/src/main/java/com/example/imagecarousel/presentation/Extensions.kt:8-12 | a point is contained iff left-0.5 <= x < right+0.5 and top-0.5 <= y < bottom+0.5 |
| Extensions.ContainsInclusiveEdges | app/src/main/java/com/example/imagecarousel/presentation/Extensions.kt:11 | integer points on every edge, right and bottom included, are contained |
| Extensions.ContainsRejectsEitherAxis | app/src/main/java/com/example/imagecarousel/presentation/Extensions.kt:11 | a point whose rounded x or rounded y is out of range is not contained |
| Extensions.ContainsExamples | app/src/main/java/com/example/imagecarousel/presentation/UiComposables.kt:92-96 | concrete points: 150 and 100.5 are outside [0,100], while 100.4 and -0.5 are inside |
| Geometry.CoerceAtLeast | app/src/main/java/com/example/imagecarousel/presentation/CanvasImageComposable.kt:76-77 | the result is the larger of the value and the floor |
| Geometry.CoerceIn | app/src/main/java/com/example/imagecarousel/presentation/CanvasImageComposable.kt:81 | the result lies in [lo, hi]; an in-range value is unchanged; a value below lo gives lo and one above hi gives hi |
| Geometry.FitScale | app/src/main/java/com/example/imagecarousel/presentation/CanvasImageComposable.kt:74-75 | the scale is at most 0.6, and scaled sides are at most 60% of the canvas sides |
| Geometry.FrameSize | app/src/main/java/com/example/imagecarousel/presentation/CanvasImageComposable.kt:74-77 | both sides are at least 1px and at most max(0.6·bitmap side, 1); each fits the canvas side when that side is at least 1px |
| Geometry.FrameSizeKeepsAspect | app/src/main/java/com/example/imagecarousel/presentation/CarouselScreen.kt:167-170 | unless a side hits the 1px floor, the frame has the bitmap's aspect ratio |
| Geometry.MaxOffset | app/src/main/java/com/example/imagecarousel/presentation/CanvasImageComposable.kt:147-148 | the largest frame offset on an axis is never negative |
| Geometry.ClampOffset | app/src/main/java/com/example/imagecarousel/presentation/CanvasImageComposable.kt:146-152 | the clamped offset is in the canvas; an offset already inside is unchanged; each axis saturates at 0 or at its maximum |
| Geometry.ClampOffsetIdempotent | app/src/main/java/com/example/imagecarousel/presentation/CarouselScreen.kt:280-286 | clamping twice equals clamping once |
| Geometry.OffsetInCanvasMeansFrameInside | app/src/main/java/com/example/imagecarousel/presentation/CarouselScreen.kt:281-286 | when the frame fits the canvas, a clamped offset keeps the whole frame inside |
| Geometry.MaxPan | app/src/main/java/com/example/imagecarousel/presentation/CanvasImageComposable.kt:86-87 | the pan bound is never negative |
| Geometry.ClampPan | app/src/main/java/com/example/imagecarousel/presentation/CanvasImageComposable.kt:83-92 | the clamped pan is within bounds, and a pan already within bounds is unchanged |
| Geometry.ClampPanAtRestIsZero | app/src/main/java/com/example/imagecarousel/presentation/CarouselScreen.kt:178-189 | at zoom 1 or below no pan is possible: the clamp gives zero |
| Geometry.ClampPanIdempotent | app/src/main/java/com/example/imagecarousel/presentation/CarouselScreen.kt:192 | re-clamping on every composition does not change an already clamped pan |
| Geometry.WithinPanIffCovers | app/src/main/java/com/example/imagecarousel/presentation/CarouselScreen.kt:177-189 | at zoom >= 1 a translation is within the pan bound iff the zoomed content still covers the frame on that axis (both directions) |
| Geometry.ClampPanCoversFrame | app/src/main/java/com/example/imagecarousel/presentation/CarouselScreen.kt:177-189 | after the clamp, no blank space shows at any zoom >= 1 |
| Geometry.Pinch | app/src/main/java/com/example/imagecarousel/presentation/CanvasImageComposable.kt:163-176 | the new zoom is old·factor coerced into [1, 8], and the new translation is within the pan bound for the new zoom |
| Geometry.CentroidAxisFixed | app/src/main/java/com/example/imagecarousel/presentation/CanvasImageComposable.kt:168-171 | on one axis, the centroid-anchored translation keeps the content point under the centroid fixed |
| Geometry.CentroidStaysUnderFinger | app/src/main/java/com/example/imagecarousel/presentation/CanvasImageComposable.kt:164-172 | with no pan, the translation `CentroidTranslation` computes for ratio new/old keeps the content point under the centroid at the same place after the zoom |
| Geometry.PinchUnclamped | app/src/main/java/com/example/imagecarousel/presentation/CanvasImageComposable.kt:164-175 | when the centroid-anchored translation is already within the pan bound, `Pinch` stores exactly that translation |
| Geometry.PinchKeepsCentroid | app/src/main/java/com/example/imagecarousel/presentation/CanvasImageComposable.kt:164-176 | a pan-free pinch that the clamp does not bind leaves the content point under the centroid in place |
| Geometry.CentroidTranslationAtUnitRatio | app/src/main/java/com/example/imagecarousel/presentation/CanvasImageComposable.kt:168-171 | at ratio 1 with no pan the centroid formula returns the old translation |
| Geometry.PinchIdentity | app/src/main/java/com/example/imagecarousel/presentation/CarouselScreen.kt:298-311 | a pinch with factor 1 and no pan leaves a valid transform unchanged |
| Geometry.BorderIffNotInner | app/src/main/java/com/example/imagecarousel/presentation/CanvasImageComposable.kt:140-142 | a drag starts on the border iff its start is not strictly inside the inner rectangle |
| Geometry.DropOffset | app/src/main/java/com/example/imagecarousel/presentation/HomeScreen.kt:180-195 | a dropped frame's offset always lies within the canvas |
| Geometry.DropCentresFrame | app/src/main/java/com/example/imagecarousel/presentation/CarouselScreen.kt:356-371 | when no clamping is needed, the frame centre is exactly the canvas-local drop point |
| Geometry.DropExample | app/src/main/java/com/example/imagecarousel/presentation/CarouselScreen.kt:353-375 | a 200×100 bitmap dropped at (50,50) on a 100×100 canvas gets a 60×30 frame at (20,35) |
| ImageMappers.ImageToDomain | app/src/main/java/com/example/imagecarousel/data/mappers/ImageMappers.kt:8-10 | the domain image carries the DTO's bitmap |
| ImageMappers.MapToDomain | app/src/main/java/com/example/imagecarousel/data/mappers/ImageMappers.kt:13 | the mapping keeps length and maps each element in place |
| ImageMappers.ResponseToDomain | app/src/main/java/com/example/imagecarousel/data/mappers/ImageMappers.kt:12-14 | the response keeps its length, and image i has the bitmap of DTO i |
| ImageMappers.MappedImagesHaveBitmaps | app/src/main/java/com/example/imagecarousel/data/mappers/ImageMappers.kt:8-14 | every mapped image has a bitmap, so the carousel's non-null assertions hold on mapped data |
| ImageMappers.MapToDomainAppend | app/src/main/java/com/example/imagecarousel/data/mappers/ImageMappers.kt:13 | mapping distributes over concatenation |
| ImageMappers.EmptyResponseMapsToEmpty | app/src/main/java/com/example/imagecarousel/data/mappers/ImageMappers.kt:12-14 | an empty response maps to an empty one |
| GetImagesUseCase.GetImages | app/src/main/java/com/example/imagecarousel/domain/usecases/GetImagesUseCase.kt:14-22 | exactly two emissions: Loading first, then Success iff the repository returned (with its data), else Error with the exception's message or the fixed fallback |
| GetImagesUseCase.GetImagesTestScenarios | app/src/test/java/com/example/imagecarousel/domain/usecases/GettImageUseCaseTest.kt:28-53 | the test's success and failure flows: [Loading, Success(data)] and [Loading, Error(message)] |
| ViewModel.FirstIndex | app/src/main/java/com/example/imagecarousel/presentation/CarouselViewModel.kt:40 | the result is -1 iff no item has the id; otherwise it is the position of the first item with the id |
| ViewModel.Lookup | app/src/main/java/com/example/imagecarousel/presentation/CarouselViewModel.kt:40-42 | the item found is in the list and has the id |
| ViewModel.IndexOfFirst | app/src/main/java/com/example/imagecarousel/presentation/CarouselViewModel.kt:40 | the linear search returns the first matching index, or -1 |
| ViewModel.FirstIndexIsFirstMatch | app/src/main/java/com/example/imagecarousel/presentation/CarouselViewModel.kt:40 | an index that matches with no earlier match is the search's result |
| ViewModel.Apply | app/src/main/java/com/example/imagecarousel/presentation/CarouselViewModel.kt:42 | a copy changes only the patched field and keeps id and bitmap |
| ViewModel.UpdateFirst | app/src/main/java/com/example/imagecarousel/presentation/CarouselViewModel.kt:39-58 | an update keeps the length and every item's id and bitmap |
| ViewModel.UpdateFirstIsIndexedWrite | app/src/main/java/com/example/imagecarousel/presentation/CarouselViewModel.kt:39-44 | an update is a single write at the first matching index, or no change when there is none |
| ViewModel.UpdateUnknownIdIsNoop | app/src/main/java/com/example/imagecarousel/presentation/CarouselViewModel.kt:41 | updating an absent id leaves the list unchanged |
| ViewModel.UpdateTouchesOnlyTarget | app/src/main/java/com/example/imagecarousel/presentation/CarouselViewModel.kt:46-51 | every position other than the first match keeps its item |
| ViewModel.LookupAfterUpdate | app/src/main/java/com/example/imagecarousel/presentation/CarouselViewModel.kt:53-58 | after an update every id is found at the same index; the target shows the patch and the others are unchanged |
| ViewModel.MovedToEndProperties | app/src/main/java/com/example/imagecarousel/presentation/CarouselScreen.kt:246-250 | remove-then-append is a permutation that puts the moved item last and keeps the others in order |
| ViewModel.MovedToEndIndex | app/src/main/java/com/example/imagecarousel/presentation/CarouselScreen.kt:248-249 | every position of the reordered list holds the item from a computed source position |
| ViewModel.UpdateKeepsIds | app/src/main/java/com/example/imagecarousel/presentation/CarouselViewModel.kt:39-58 | updates keep ids distinct and all below the next fresh id |
| ViewModel.MovedToEndKeepsIds | app/src/main/java/com/example/imagecarousel/presentation/CarouselScreen.kt:246-250 | bringing an item to the front keeps ids distinct and all issued |
| ViewModel.UpdateKeepsScales | app/src/main/java/com/example/imagecarousel/presentation/CanvasImageComposable.kt:165-176 | an update whose scale, if any, is a zoom in [1, 8] keeps every stored scale in [1, 8] |
| ViewModel.MovedToEndKeepsScales | app/src/main/java/com/example/imagecarousel/presentation/CarouselScreen.kt:246-250 | bringing an item to the front keeps every stored scale in [1, 8] |
| ViewModel.UiStateFor | app/src/main/java/com/example/imagecarousel/presentation/CarouselViewModel.kt:67-77 | Success shows the images without error; Error shows the message, not loading; Loading shows only the spinner |
| ViewModel.LoadSettles | app/src/main/java/com/example/imagecarousel/presentation/CarouselViewModel.kt:60-78 | after a load the state is not loading; it shows an error iff the repository threw |
| ViewModel.CarouselViewModel.constructor | app/src/main/java/com/example/imagecarousel/presentation/CarouselViewModel.kt:24-28 | a new store is empty and the UI state is the initial one |
| ViewModel.CarouselViewModel.AddCanvasImage | app/src/main/java/com/example/imagecarousel/presentation/CarouselViewModel.kt:30-37 | exactly one item is appended, with a fresh id, the given bitmap, offset and scale, and zero translation; ids stay distinct and every stored scale stays in [1, 8] |
| ViewModel.CarouselViewModel.Update | app/src/main/java/com/example/imagecarousel/presentation/CarouselViewModel.kt:39-58 | the loop-based update equals the reference `UpdateFirst` and keeps the id and scale invariants |
| ViewModel.CarouselViewModel.UpdateOffset | app/src/main/java/com/example/imagecarousel/presentation/CarouselViewModel.kt:39-44 | the first item with the id gets the offset and nothing else changes |
| ViewModel.CarouselViewModel.UpdateUserScale | app/src/main/java/com/example/imagecarousel/presentation/CarouselViewModel.kt:46-51 | the first item with the id gets the scale and nothing else changes |
| ViewModel.CarouselViewModel.UpdateImageTranslation | app/src/main/java/com/example/imagecarousel/presentation/CarouselViewModel.kt:53-58 | the first item with the id gets the translation and nothing else changes |
| ViewModel.CarouselViewModel.LoadImages | app/src/main/java/com/example/imagecarousel/presentation/CarouselViewModel.kt:60-78 | after collecting both emissions the UI state is the one for the final emission |
| CarouselScreen.CarouselScreenState.constructor | app/src/main/java/com/example/imagecarousel/presentation/CarouselScreen.kt:63-70 | the screen starts with empty bounds, no drag in progress and no item lifted |
| CarouselScreen.CarouselScreenState.OnItemRecompose | app/src/main/java/com/example/imagecarousel/presentation/CarouselScreen.kt:175-192 | the stored translation is re-clamped for the coerced zoom, and afterwards it is within the pan bound |
| CarouselScreen.CarouselScreenState.OnFrameDragStart | app/src/main/java/com/example/imagecarousel/presentation/CarouselScreen.kt:269-277 | unless the item is lifted, its border flag records whether the start hit the 16dp border |
| CarouselScreen.CarouselScreenState.OnFrameDrag | app/src/main/java/com/example/imagecarousel/presentation/CarouselScreen.kt:278-289 | a border drag moves the item by the clamped delta and leaves it inside the canvas; otherwise the store is unchanged |
| CarouselScreen.CarouselScreenState.OnFrameDragStop | app/src/main/java/com/example/imagecarousel/presentation/CarouselScreen.kt:290-291 | end and cancel clear only this item's border flag |
| CarouselScreen.CarouselScreenState.OnPinch | app/src/main/java/com/example/imagecarousel/presentation/CarouselScreen.kt:296-311 | unless the item is lifted, translation then zoom are stored from `Pinch`; the zoom ends in [1, 8] with the pan in bounds |
| CarouselScreen.CarouselScreenState.OnLongPressStart | app/src/main/java/com/example/imagecarousel/presentation/CarouselScreen.kt:206-214 | the item is lifted and the overlay gets its bitmap and the pointer in window coordinates |
| CarouselScreen.CarouselScreenState.OnLongPressDrag | app/src/main/java/com/example/imagecarousel/presentation/CarouselScreen.kt:215-219 | the pointer follows the touch |
| CarouselScreen.CarouselScreenState.BringToFront | app/src/main/java/com/example/imagecarousel/presentation/CarouselScreen.kt:246-250 | the first item with the id is moved to the end of the list, unless it is already last or absent |
| CarouselScreen.CarouselScreenState.OnLongPressEnd | app/src/main/java/com/example/imagecarousel/presentation/CarouselScreen.kt:220-257 | inside the canvas the item gets the centred, clamped drop offset and moves to the end of the list; outside the list is unchanged; flags are cleared |
| CarouselScreen.CarouselScreenState.OnLongPressCancel | app/src/main/java/com/example/imagecarousel/presentation/CarouselScreen.kt:258-262 | cancel clears the three drag flags |
| CarouselScreen.CarouselScreenState.OnCarouselStartDrag | app/src/main/java/com/example/imagecarousel/presentation/CarouselScreen.kt:344-348 | the overlay tracks the bitmap and the start pointer |
| CarouselScreen.CarouselScreenState.OnCarouselDrag | app/src/main/java/com/example/imagecarousel/presentation/CarouselScreen.kt:349-351 | the pointer follows the touch |
| CarouselScreen.CarouselScreenState.OnCarouselEndDrag | app/src/main/java/com/example/imagecarousel/presentation/CarouselScreen.kt:352-379 | a drop inside the canvas appends exactly one item at a clamped, in-canvas offset; a drop outside adds nothing |
| CarouselScreen.RelocateProperties | app/src/main/java/com/example/imagecarousel/presentation/CarouselScreen.kt:238-251 | the relocated item ends last with the drop offset, and the other items keep their relative order |
| HomeScreen.FallbackPreviewSize | app/src/main/java/com/example/imagecarousel/presentation/HomeScreen.kt:214-222 | the corrected fallback overlay has the fixed height and the bitmap's aspect ratio |
| HomeScreen.FallbackPreviewAsWrittenScalesByDensity | app/src/main/java/com/example/imagecarousel/presentation/HomeScreen.kt:219-221 | the width as written is the intended width times the display density |
| HomeScreen.FallbackPreviewAsWrittenCounterexample | app/src/main/java/com/example/imagecarousel/presentation/CarouselScreen.kt:388-390 | a square bitmap at density 2 gets a 160×80dp overlay as written, versus 80×80dp as intended |
| HomeScreen.HomeScreenState.constructor | app/src/main/java/com/example/imagecarousel/presentation/HomeScreen.kt:69-87 | the screen starts with empty bounds, no drag, no preview size and no captured orientation |
| HomeScreen.HomeScreenState.OnFirstComposition | app/src/main/java/com/example/imagecarousel/presentation/HomeScreen.kt:90-103 | the orientation is captured once and never overwritten; the UI state ends as the load's final state |
| HomeScreen.HomeScreenState.OnStartDrag | app/src/main/java/com/example/imagecarousel/presentation/HomeScreen.kt:157-172 | the overlay tracks bitmap and pointer, and the preview is the frame a drop would create, in dp |
| HomeScreen.HomeScreenState.OnDrag | app/src/main/java/com/example/imagecarousel/presentation/HomeScreen.kt:173-175 | the pointer follows the touch |
| HomeScreen.HomeScreenState.OnEndDrag | app/src/main/java/com/example/imagecarousel/presentation/HomeScreen.kt:176-205 | a drop inside appends exactly one centred, clamped item; every flag and preview size is cleared |
| HomeScreen.HomeScreenState.PreviewSizeDp | app/src/main/java/com/example/imagecarousel/presentation/HomeScreen.kt:213-222 | the exact preview size when both sides are set; otherwise the fallback as written: the fixed height, and a width equal to density times the aspect-keeping width |
| HomeScreen.PreviewMatchesDropFrame | app/src/main/java/com/example/imagecarousel/presentation/HomeScreen.kt:161-171 | the dp preview converted back to pixels is the drop frame |
| CanvasImageComposable.CanvasImageGestures.constructor | app/src/main/java/com/example/imagecarousel/presentation/CanvasImageComposable.kt:42-58 | a new item composable is bound to its screen and id, with no border drag in progress |
| CanvasImageComposable.CanvasImageGestures.Recompose | app/src/main/java/com/example/imagecarousel/presentation/CanvasImageComposable.kt:81-94 | the stored translation is re-clamped for the coerced zoom and ends within the pan bound |
| CanvasImageComposable.CanvasImageGestures.OnLongPressStart | app/src/main/java/com/example/imagecarousel/presentation/CanvasImageComposable.kt:107-117 | the item is lifted; the overlay gets its bitmap, the window pointer and its frame size in dp |
| CanvasImageComposable.CanvasImageGestures.OnLongPressDrag | app/src/main/java/com/example/imagecarousel/presentation/CanvasImageComposable.kt:118-121 | the pointer follows the touch |
| CanvasImageComposable.CanvasImageGestures.OnLongPressEnd | app/src/main/java/com/example/imagecarousel/presentation/CanvasImageComposable.kt:122-127 | release clears the lifted id, the flag, the bitmap and the preview sizes, and does not touch the store |
| CanvasImageComposable.CanvasImageGestures.OnLongPressCancel | app/src/main/java/com/example/imagecarousel/presentation/CanvasImageComposable.kt:105-128 | the corrected cancel releases the item exactly like `onDragEnd` |
| CanvasImageComposable.CanvasImageGestures.OnFrameDragStart | app/src/main/java/com/example/imagecarousel/presentation/CanvasImageComposable.kt:134-143 | unless lifted, the border flag records whether the start hit the 16dp border |
| CanvasImageComposable.CanvasImageGestures.OnFrameDrag | app/src/main/java/com/example/imagecarousel/presentation/CanvasImageComposable.kt:144-155 | a border drag stores the clamped offset, which lies in the canvas; otherwise the store is unchanged |
| CanvasImageComposable.CanvasImageGestures.OnFrameDragEnd | app/src/main/java/com/example/imagecarousel/presentation/CanvasImageComposable.kt:156 | the border flag is cleared |
| CanvasImageComposable.CanvasImageGestures.OnPinch | app/src/main/java/com/example/imagecarousel/presentation/CanvasImageComposable.kt:161-178 | unless lifted, translation then zoom are stored from `Pinch`; the zoom ends in [1, 8] with the pan in bounds |
| CanvasImageComposable.CancelledLongPressAsWritten | app/src/main/java/com/example/imagecarousel/presentation/CanvasImageComposable.kt:105-159 | as written, for any bitmap, canvas and gestures, a cancelled long press leaves the item lifted, and a later border drag leaves it at the origin |
| CanvasImageComposable.CancelledLongPress | app/src/main/java/com/example/imagecarousel/presentation/CanvasImageComposable.kt:105-159 | with the corrected cancel the item is released, and a border drag from its corner moves it to the delta clamped into the canvas |
| UiComposables.ThumbnailAspect | app/src/main/java/com/example/imagecarousel/presentation/UiComposables.kt:55 | the aspect is positive; it is 1 without a bitmap, else width over height |
| UiComposables.Carousel.constructor | app/src/main/java/com/example/imagecarousel/presentation/UiComposables.kt:43 | the last pointer starts at zero |
| UiComposables.Carousel.OnDragStart | app/src/main/java/com/example/imagecarousel/presentation/UiComposables.kt:67-70 | the pointer is the thumbnail origin plus the touch; the screen starts a drag with the thumbnail's bitmap and frame-sized preview |
| UiComposables.Carousel.OnDrag | app/src/main/java/com/example/imagecarousel/presentation/UiComposables.kt:71-74 | the pointer is the thumbnail origin plus the touch position, and the screen tracks it |
| UiComposables.Carousel.OnDragEnd | app/src/main/java/com/example/imagecarousel/presentation/UiComposables.kt:75 | release hands over to the screen: one item is appended iff the drop is inside the canvas; the overlay and both preview sizes are cleared |
| UiComposables.Carousel.OnDragCancel | app/src/main/java/com/example/imagecarousel/presentation/UiComposables.kt:76 | cancel behaves exactly as release, so a cancelled drag inside the canvas still drops; the overlay and both preview sizes are cleared |
| UiComposables.DragThumbnailOntoCanvas | app/src/main/java/com/example/imagecarousel/presentation/UiComposables.kt:66-76 | a full carousel drag onto an empty 100×100 canvas adds exactly one item, centred at (20,35) with scale 1 |

## Left out

- Rendering, layout and the gesture detectors themselves are left out. Each callback is a method, and the caller decides the order of events.
- The two-way effect sync between an item's remembered state and the store is left out. The model writes the store directly, so the effects' extra re-emissions and their ordering are not modelled.
- Haptic feedback, the orientation lock on the activity, and the canvas measuring its own bounds are left out. The bounds are a field that callers set.
- Float precision is not modelled. Coordinates are exact reals, and `roundToInt` is modelled without its saturation at the Int range or its NaN case.
- Density and the `drag_preview_height` resource are constructor parameters, because resources and `LocalDensity` are platform lookups.
- Coroutines, dispatchers and the flow's `.catch` for throwables other than `Exception` are left out. The load is the sequence of its two emissions.
- The repositories, MediaStore and dependency injection are left out. The repository's result is a parameter (`RepositoryOutcome`).
- UUID generation is a counter of issued serial numbers. Real UUIDs are random and only probably unique.
- Geometry.Pinch: requires a positive old zoom. The source divides by it, and a zero zoom would be a float division by zero, which the model does not reproduce. The screens meet this requirement through the store invariant that every stored scale is in [1, 8].
- ViewModel.CarouselViewModel.AddCanvasImage: requires the scale to be in [1, 8], which the source does not check. Every caller passes the default 1, and the invariant that all stored scales are in [1, 8] depends on it.
- ViewModel.CarouselViewModel.UpdateUserScale: requires the scale to be in [1, 8], which the source does not check. Its only callers store a zoom already coerced into [1, 8] (CanvasImageComposable.kt:165, CarouselScreen.kt:301).
- CarouselScreen.CarouselScreenState.OnLongPressEnd: takes the store's list to be the mutable list the cast at CarouselScreen.kt:243 expects. The model does not cover the branch where the cast fails and the item is not moved.
- UiComposables.Carousel.OnDragStart: requires the thumbnail to have a bitmap. The source's `!!` throws otherwise; `ImageMappers.MappedImagesHaveBitmaps` shows that mapped images always have one.
- The duplicate `IntRect.contains` in UiComposables.kt:92-96 is the same as the one in Extensions.kt and is modelled once, by `Extensions.Contains`.
- `HomeScreen` uses an `ImageCarouselViewModel`, and that class is not part of this model. The model takes it to behave like `CarouselViewModel` for the four members HomeScreen uses: `uiState` (HomeScreen.kt:67), `canvasImages` (HomeScreen.kt:70), `loadImages(8)` (HomeScreen.kt:102) and `addCanvasImage` (HomeScreen.kt:196). The `count` argument of `loadImages` is dropped together with the repository, whose result is a parameter.
- Its call to `CanvasComposable` omits the drag callbacks. The model wires the callbacks to `HomeScreenState`'s own drag fields, the only state they can mean.
- `CanvasImage` has an `imageTranslation` field here although UiModels.kt does not declare one. The view model copies it, so the field is taken to exist with a zero default.

## Findings

| source | as written | input that shows it | evidently intended | confidence | as-written member | corrected member |
|---|---|---|---|---|---|---|
| app/src/main/java/com/example/imagecarousel/presentation/HomeScreen.kt:219-221 (also CarouselScreen.kt:389-390) | the fallback overlay width is the height in pixels times the aspect, read as dp | 100×100 bitmap, 80dp fallback height, density 2: overlay 160×80dp | width = height in dp times the aspect, so 80×80dp | high (not executed) | HomeScreen.FallbackPreviewAsWrittenCounterexample | HomeScreen.FallbackPreviewSize |
| app/src/main/java/com/example/imagecarousel/presentation/CanvasImageComposable.kt:106-128 | the long-press detector has no `onDragCancel`, so a cancelled long press never clears the lifted id | long press on an item, then cancel: the id stays lifted, the item is drawn at alpha 0, and a border drag by any delta does not move it | cancel clears the drag state as in CarouselScreen.kt:258-262 | high (not executed) | CanvasImageComposable.CancelledLongPressAsWritten | CanvasImageComposable.CanvasImageGestures.OnLongPressCancel |
