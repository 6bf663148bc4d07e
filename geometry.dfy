/** The frame geometry shared by every gesture callback: fit-to-canvas frame
    size, offset clamp, pan clamp, pinch update, border classification and
    drop placement. The source writes these formulas inline in three screens;
    here each is defined once. */
module Geometry {
  import opened Models

  /** The initial frame occupies 60% of the largest non-upscaling fit. */
  const FitFraction: real := 0.6
  const MinZoom: real := 1.0
  const MaxZoom: real := 8.0
  /** Width of the draggable frame border, in density-independent pixels. */
  const BorderDp: real := 16.0

  function Min(a: real, b: real): real { if a <= b then a else b }

  /** Kotlin's `coerceAtLeast`. */
  function CoerceAtLeast(v: real, lo: real): (r: real)
    ensures r >= lo && r >= v && (r == v || r == lo)
  {
    if v < lo then lo else v
  }

  /** Kotlin's `coerceIn`; it throws when `lo > hi`, which no caller allows. */
  function CoerceIn(v: real, lo: real, hi: real): (r: real)
    requires lo <= hi
    ensures lo <= r <= hi
    ensures lo <= v <= hi ==> r == v
    ensures v < lo ==> r == lo
    ensures v > hi ==> r == hi
  {
    if v < lo then lo else if v > hi then hi else v
  }

  // ---------------------------------------------------------------- frame fit

  /** `minOf(canvasW / bmpW, canvasH / bmpH, 1f) * initialFitFraction`. */
  function FitScale(bmp: Bitmap, canvasW: real, canvasH: real): (s: real)
    ensures s <= FitFraction
    ensures s * (bmp.width as real) <= FitFraction * canvasW
    ensures s * (bmp.height as real) <= FitFraction * canvasH
  {
    var w, h := bmp.width as real, bmp.height as real;
    ScaleBelowRatio(canvasW, w, Min(Min(canvasW / w, canvasH / h), 1.0));
    ScaleBelowRatio(canvasH, h, Min(Min(canvasW / w, canvasH / h), 1.0));
    Min(Min(canvasW / w, canvasH / h), 1.0) * FitFraction
  }

  lemma ScaleBelowRatio(c: real, d: real, m: real)
    requires d > 0.0 && m <= c / d
    ensures m * FitFraction * d <= FitFraction * c
  {
    assert m * d <= (c / d) * d;
  }

  /** The frame of a bitmap on a canvas: the bitmap scaled by `FitScale`,
      each side floored at one pixel. */
  function FrameSize(bmp: Bitmap, canvasW: real, canvasH: real): (f: Size)
    ensures f.width >= 1.0 && f.height >= 1.0
    ensures f.width <= CoerceAtLeast(FitFraction * bmp.width as real, 1.0)
    ensures f.height <= CoerceAtLeast(FitFraction * bmp.height as real, 1.0)
    ensures canvasW >= 1.0 ==> f.width <= canvasW
    ensures canvasH >= 1.0 ==> f.height <= canvasH
  {
    var s := FitScale(bmp, canvasW, canvasH);
    var w, h := bmp.width as real, bmp.height as real;
    ScaledSideBounds(w, s, canvasW);
    ScaledSideBounds(h, s, canvasH);
    Size(CoerceAtLeast(w * s, 1.0), CoerceAtLeast(h * s, 1.0))
  }

  lemma ScaledSideBounds(side: real, s: real, canvasLen: real)
    requires side > 0.0 && s <= FitFraction && s * side <= FitFraction * canvasLen
    ensures CoerceAtLeast(side * s, 1.0) >= 1.0
    ensures CoerceAtLeast(side * s, 1.0) <= CoerceAtLeast(FitFraction * side, 1.0)
    ensures canvasLen >= 1.0 ==> CoerceAtLeast(side * s, 1.0) <= canvasLen
  {
    assert side * s <= side * FitFraction;
  }

  /** Unless a side hits the one-pixel floor, the frame has the bitmap's
      aspect ratio exactly. */
  lemma FrameSizeKeepsAspect(bmp: Bitmap, canvasW: real, canvasH: real)
    requires FitScale(bmp, canvasW, canvasH) * (bmp.width as real) >= 1.0
    requires FitScale(bmp, canvasW, canvasH) * (bmp.height as real) >= 1.0
    ensures FrameSize(bmp, canvasW, canvasH).width * (bmp.height as real)
         == FrameSize(bmp, canvasW, canvasH).height * (bmp.width as real)
  {
  }

  /** The frame for a bitmap on the live canvas rectangle. */
  function CanvasFrame(bmp: Bitmap, bounds: IntRect): Size
  {
    FrameSize(bmp, bounds.Width() as real, bounds.Height() as real)
  }

  // ------------------------------------------------------------ offset clamp

  /** The largest top-left coordinate that keeps a frame side inside a canvas
      side; zero when the frame is larger than the canvas. */
  function MaxOffset(canvasLen: real, frameLen: real): (m: real)
    ensures m >= 0.0
  {
    CoerceAtLeast(canvasLen - frameLen, 0.0)
  }

  /** Both coordinates of `o` lie in `[0, max(0, canvas - frame)]`. */
  predicate OffsetInCanvas(o: Offset, frame: Size, canvasW: real, canvasH: real)
  {
    0.0 <= o.x <= MaxOffset(canvasW, frame.width) && 0.0 <= o.y <= MaxOffset(canvasH, frame.height)
  }

  /** Clamp a frame's top-left corner into the canvas, per axis. */
  function ClampOffset(o: Offset, frame: Size, canvasW: real, canvasH: real): (r: Offset)
    ensures OffsetInCanvas(r, frame, canvasW, canvasH)
    ensures OffsetInCanvas(o, frame, canvasW, canvasH) ==> r == o
    ensures o.x < 0.0 ==> r.x == 0.0
    ensures o.y < 0.0 ==> r.y == 0.0
    ensures o.x > MaxOffset(canvasW, frame.width) ==> r.x == MaxOffset(canvasW, frame.width)
    ensures o.y > MaxOffset(canvasH, frame.height) ==> r.y == MaxOffset(canvasH, frame.height)
  {
    Offset(CoerceIn(o.x, 0.0, MaxOffset(canvasW, frame.width)),
           CoerceIn(o.y, 0.0, MaxOffset(canvasH, frame.height)))
  }

  /** Clamping twice is clamping once. */
  lemma ClampOffsetIdempotent(o: Offset, frame: Size, canvasW: real, canvasH: real)
    ensures ClampOffset(ClampOffset(o, frame, canvasW, canvasH), frame, canvasW, canvasH)
         == ClampOffset(o, frame, canvasW, canvasH)
  {
  }

  /** A clamped frame that fits the canvas lies entirely inside it. */
  lemma OffsetInCanvasMeansFrameInside(o: Offset, frame: Size, canvasW: real, canvasH: real)
    requires OffsetInCanvas(o, frame, canvasW, canvasH)
    requires frame.width <= canvasW && frame.height <= canvasH
    ensures 0.0 <= o.x && o.x + frame.width <= canvasW
    ensures 0.0 <= o.y && o.y + frame.height <= canvasH
  {
  }

  // --------------------------------------------------------------- pan clamp

  /** Half of the content overflow at a zoom: `max(0, (frame * zoom - frame) / 2)`. */
  function MaxPan(frameLen: real, zoom: real): (m: real)
    ensures m >= 0.0
  {
    CoerceAtLeast((frameLen * zoom - frameLen) / 2.0, 0.0)
  }

  predicate WithinPan(t: Offset, frame: Size, zoom: real)
  {
    -MaxPan(frame.width, zoom) <= t.x <= MaxPan(frame.width, zoom) &&
    -MaxPan(frame.height, zoom) <= t.y <= MaxPan(frame.height, zoom)
  }

  /** `clampPanWithZoom`: clamp a content translation so that the zoomed
      content never uncovers the frame. */
  function ClampPan(p: Offset, frame: Size, zoom: real): (r: Offset)
    ensures WithinPan(r, frame, zoom)
    ensures WithinPan(p, frame, zoom) ==> r == p
  {
    Offset(CoerceIn(p.x, -MaxPan(frame.width, zoom), MaxPan(frame.width, zoom)),
           CoerceIn(p.y, -MaxPan(frame.height, zoom), MaxPan(frame.height, zoom)))
  }

  /** At zoom 1 or less there is no overflow, so the pan is forced to zero. */
  lemma ClampPanAtRestIsZero(p: Offset, frame: Size, zoom: real)
    requires frame.width >= 0.0 && frame.height >= 0.0 && zoom <= 1.0
    ensures ClampPan(p, frame, zoom) == Zero
  {
    assert frame.width * zoom <= frame.width * 1.0;
    assert frame.height * zoom <= frame.height * 1.0;
  }

  lemma ClampPanIdempotent(p: Offset, frame: Size, zoom: real)
    ensures ClampPan(ClampPan(p, frame, zoom), frame, zoom) == ClampPan(p, frame, zoom)
  {
  }

  /** The content (the frame scaled by `zoom` about its centre and shifted by
      `t`) covers the whole frame side `[0, frameLen]`. */
  predicate CoversSide(frameLen: real, zoom: real, t: real)
  {
    frameLen / 2.0 - frameLen * zoom / 2.0 + t <= 0.0 &&
    frameLen <= frameLen / 2.0 + frameLen * zoom / 2.0 + t
  }

  /** The pan bound is exactly the no-empty-space condition, in both directions. */
  lemma WithinPanIffCovers(frameLen: real, zoom: real, t: real)
    requires frameLen >= 0.0 && zoom >= 1.0
    ensures (-MaxPan(frameLen, zoom) <= t <= MaxPan(frameLen, zoom)) <==> CoversSide(frameLen, zoom, t)
  {
    assert frameLen * zoom >= frameLen * 1.0;
    assert MaxPan(frameLen, zoom) == (frameLen * zoom - frameLen) / 2.0;
  }

  /** Whatever translation comes in, the clamped one never reveals empty space. */
  lemma ClampPanCoversFrame(p: Offset, frame: Size, zoom: real)
    requires frame.width >= 0.0 && frame.height >= 0.0 && zoom >= 1.0
    ensures CoversSide(frame.width, zoom, ClampPan(p, frame, zoom).x)
    ensures CoversSide(frame.height, zoom, ClampPan(p, frame, zoom).y)
  {
    var r := ClampPan(p, frame, zoom);
    WithinPanIffCovers(frame.width, zoom, r.x);
    WithinPanIffCovers(frame.height, zoom, r.y);
  }

  // ------------------------------------------------------------------- pinch

  /** The zoom and pan of the content inside a fixed frame. */
  datatype Transform = Transform(zoom: real, translation: Offset)

  /** The translation that keeps the content point under the centroid fixed
      when the zoom changes by ratio `k`, plus the gesture's pan. */
  function CentroidTranslation(k: real, t: Offset, centroid: Offset, center: Offset, pan: Offset): Offset
  {
    Offset(k * t.x - (k - 1.0) * (centroid.x - center.x) + pan.x,
           k * t.y - (k - 1.0) * (centroid.y - center.y) + pan.y)
  }

  /** One transform-gesture event: zoom clamped to [1, 8], translation from the
      centroid formula, then clamped for the new zoom. */
  function Pinch(oldZoom: real, t: Offset, frame: Size, centroid: Offset, pan: Offset, factor: real): (r: Transform)
    requires oldZoom > 0.0
    ensures MinZoom <= r.zoom <= MaxZoom
    ensures MinZoom <= oldZoom * factor <= MaxZoom ==> r.zoom == oldZoom * factor
    ensures oldZoom * factor < MinZoom ==> r.zoom == MinZoom
    ensures oldZoom * factor > MaxZoom ==> r.zoom == MaxZoom
    ensures WithinPan(r.translation, frame, r.zoom)
  {
    var newZoom := CoerceIn(oldZoom * factor, MinZoom, MaxZoom);
    var center := Offset(frame.width / 2.0, frame.height / 2.0);
    Transform(newZoom, ClampPan(CentroidTranslation(newZoom / oldZoom, t, centroid, center, pan), frame, newZoom))
  }

  /** One axis of the centroid formula: the content coordinate under the
      centroid is the same at the old and the new zoom. */
  lemma CentroidAxisFixed(oldZoom: real, newZoom: real, t: real, c: real, center: real)
    requires oldZoom > 0.0 && newZoom > 0.0
    ensures var k := newZoom / oldZoom;
            (c - center - (k * t - (k - 1.0) * (c - center) + 0.0)) / newZoom == (c - center - t) / oldZoom
  {
    var k := newZoom / oldZoom;
    var t' := k * t - (k - 1.0) * (c - center) + 0.0;
    assert k * oldZoom == newZoom;
    assert c - center - t' == k * (c - center - t);
    calc {
      (c - center - t') / newZoom;
      (k * (c - center - t)) / (k * oldZoom);
      (c - center - t) / oldZoom;
    }
  }

  /** With no pan, `CentroidTranslation` keeps the content point under the
      centroid fixed on both axes when the zoom goes from `oldZoom` to `newZoom`. */
  lemma CentroidStaysUnderFinger(oldZoom: real, newZoom: real, t: Offset, centroid: Offset, center: Offset)
    requires oldZoom > 0.0 && newZoom > 0.0
    ensures var u := CentroidTranslation(newZoom / oldZoom, t, centroid, center, Zero);
            (centroid.x - center.x - u.x) / newZoom == (centroid.x - center.x - t.x) / oldZoom &&
            (centroid.y - center.y - u.y) / newZoom == (centroid.y - center.y - t.y) / oldZoom
  {
    CentroidAxisFixed(oldZoom, newZoom, t.x, centroid.x, center.x);
    CentroidAxisFixed(oldZoom, newZoom, t.y, centroid.y, center.y);
  }

  /** When the pan clamp does not bind, a pinch's translation is exactly the
      centroid formula at the clamped zoom ratio. */
  lemma PinchUnclamped(oldZoom: real, t: Offset, frame: Size, centroid: Offset, pan: Offset, factor: real)
    requires oldZoom > 0.0
    requires var newZoom := CoerceIn(oldZoom * factor, MinZoom, MaxZoom);
             WithinPan(CentroidTranslation(newZoom / oldZoom, t, centroid, Offset(frame.width / 2.0, frame.height / 2.0), pan),
                       frame, newZoom)
    ensures var newZoom := CoerceIn(oldZoom * factor, MinZoom, MaxZoom);
            Pinch(oldZoom, t, frame, centroid, pan, factor).translation
              == CentroidTranslation(newZoom / oldZoom, t, centroid, Offset(frame.width / 2.0, frame.height / 2.0), pan)
  {
  }

  /** The pinch as the screens run it keeps the content point under the
      fingers' centroid in place, whenever no pan and no clamping intervene. */
  lemma PinchKeepsCentroid(oldZoom: real, t: Offset, frame: Size, centroid: Offset, factor: real)
    requires oldZoom > 0.0
    requires var newZoom := CoerceIn(oldZoom * factor, MinZoom, MaxZoom);
             WithinPan(CentroidTranslation(newZoom / oldZoom, t, centroid, Offset(frame.width / 2.0, frame.height / 2.0), Zero),
                       frame, newZoom)
    ensures var r := Pinch(oldZoom, t, frame, centroid, Zero, factor);
            (centroid.x - frame.width / 2.0 - r.translation.x) / r.zoom == (centroid.x - frame.width / 2.0 - t.x) / oldZoom &&
            (centroid.y - frame.height / 2.0 - r.translation.y) / r.zoom == (centroid.y - frame.height / 2.0 - t.y) / oldZoom
  {
    var newZoom := CoerceIn(oldZoom * factor, MinZoom, MaxZoom);
    var center := Offset(frame.width / 2.0, frame.height / 2.0);
    PinchUnclamped(oldZoom, t, frame, centroid, Zero, factor);
    CentroidStaysUnderFinger(oldZoom, newZoom, t, centroid, center);
  }

  /** A ratio of 1 with no pan leaves the translation as it is. */
  lemma CentroidTranslationAtUnitRatio(t: Offset, centroid: Offset, center: Offset)
    ensures CentroidTranslation(1.0, t, centroid, center, Zero) == t
  {
  }

  /** A pinch with factor 1 and no pan at a zoom already in [1, 8] leaves an
      already-clamped translation and the zoom unchanged. */
  lemma PinchIdentity(oldZoom: real, t: Offset, frame: Size, centroid: Offset)
    requires MinZoom <= oldZoom <= MaxZoom
    requires WithinPan(t, frame, oldZoom)
    ensures Pinch(oldZoom, t, frame, centroid, Zero, 1.0) == Transform(oldZoom, t)
  {
    var center := Offset(frame.width / 2.0, frame.height / 2.0);
    assert CoerceIn(oldZoom * 1.0, MinZoom, MaxZoom) == oldZoom;
    assert oldZoom / oldZoom == 1.0;
    CentroidTranslationAtUnitRatio(t, centroid, center);
  }

  // -------------------------------------------------------- border and drop

  /** The border width in pixels at a display density. */
  function BorderPx(density: real): real { BorderDp * density }

  /** A drag that starts within `b` pixels of any frame edge moves the frame. */
  predicate IsBorderStart(start: Offset, frame: Size, b: real)
  {
    start.x <= b || start.y <= b || start.x >= frame.width - b || start.y >= frame.height - b
  }

  /** The border test rejects exactly the points strictly inside the inner
      rectangle `(b, b) .. (w - b, h - b)`. */
  lemma BorderIffNotInner(start: Offset, frame: Size, b: real)
    ensures IsBorderStart(start, frame, b) <==>
      !(b < start.x < frame.width - b && b < start.y < frame.height - b)
  {
  }

  /** Where a dropped bitmap lands: the pointer converted to canvas-local
      coordinates, the frame centred under it, then clamped into the canvas. */
  function DropOffset(pointer: Offset, bounds: IntRect, bmp: Bitmap): (r: Offset)
    ensures OffsetInCanvas(r, CanvasFrame(bmp, bounds), bounds.Width() as real, bounds.Height() as real)
  {
    var frame := CanvasFrame(bmp, bounds);
    var local := Offset(pointer.x - bounds.left as real, pointer.y - bounds.top as real);
    ClampOffset(Offset(local.x - frame.width / 2.0, local.y - frame.height / 2.0),
                frame, bounds.Width() as real, bounds.Height() as real)
  }

  /** When centring needs no clamping, the frame's centre is exactly the
      canvas-local drop point. */
  lemma DropCentresFrame(pointer: Offset, bounds: IntRect, bmp: Bitmap)
    requires var f := CanvasFrame(bmp, bounds);
             OffsetInCanvas(Offset(pointer.x - bounds.left as real - f.width / 2.0,
                                   pointer.y - bounds.top as real - f.height / 2.0),
                            f, bounds.Width() as real, bounds.Height() as real)
    ensures var r := DropOffset(pointer, bounds, bmp);
            var f := CanvasFrame(bmp, bounds);
            r.x + f.width / 2.0 == pointer.x - bounds.left as real &&
            r.y + f.height / 2.0 == pointer.y - bounds.top as real
  {
  }

  /** Canvas {0, 0, 100, 100}, a 200 x 100 bitmap and a drop at (50, 50):
      frame (60, 30), centred corner (20, 35), already inside [0, 40] x [0, 70]. */
  lemma DropExample()
    ensures CanvasFrame(Bitmap(0, 200, 100), IntRect(0, 0, 100, 100)) == Size(60.0, 30.0)
    ensures DropOffset(Offset(50.0, 50.0), IntRect(0, 0, 100, 100), Bitmap(0, 200, 100)) == Offset(20.0, 35.0)
  {
    assert FitScale(Bitmap(0, 200, 100), 100.0, 100.0) == 0.3;
  }
}
