/** The state and callbacks of `HomeScreen`: the carousel drag-to-drop with a
    preview sized like the eventual frame, the drag overlay's size, and the
    orientation captured once. */
module HomeScreen {
  import opened Models
  import opened Geometry
  import opened Extensions
  import opened ViewModel
  import opened GetImagesUseCase

  /** The aspect ratio of a bitmap, width over height. */
  function Aspect(bmp: Bitmap): real
  {
    (bmp.width as real) / (bmp.height as real)
  }

  /** The overlay size without an exact preview size, as the source computes
      it: the fallback height converted to pixels, times the aspect, then read
      back as a dp value. */
  function FallbackPreviewSizeAsWritten(bmp: Bitmap, fallbackHeightDp: real, density: real): Size
  {
    Size(fallbackHeightDp * density * Aspect(bmp), fallbackHeightDp)
  }

  /** The evidently intended fallback: the fixed height, and the width that
      keeps the bitmap's aspect ratio, both in dp. */
  function FallbackPreviewSize(bmp: Bitmap, fallbackHeightDp: real): (r: Size)
    ensures r.height == fallbackHeightDp
    ensures r.width * (bmp.height as real) == r.height * (bmp.width as real)
  {
    Size(fallbackHeightDp * Aspect(bmp), fallbackHeightDp)
  }

  /** As written, the fallback width is off by the display density. */
  lemma FallbackPreviewAsWrittenScalesByDensity(bmp: Bitmap, fallbackHeightDp: real, density: real)
    ensures FallbackPreviewSizeAsWritten(bmp, fallbackHeightDp, density).width
         == density * FallbackPreviewSize(bmp, fallbackHeightDp).width
  {
  }

  /** A square bitmap with an 80dp fallback at density 2 gets a 160dp-wide,
      80dp-high overlay instead of a square one. */
  lemma FallbackPreviewAsWrittenCounterexample()
    ensures FallbackPreviewSizeAsWritten(Bitmap(0, 100, 100), 80.0, 2.0) == Size(160.0, 80.0)
    ensures FallbackPreviewSize(Bitmap(0, 100, 100), 80.0) == Size(80.0, 80.0)
  {
  }

  class HomeScreenState {
    const vm: CarouselViewModel
    /** Pixels per density-independent pixel. */
    const density: real
    /** The `drag_preview_height` dimension resource, in dp. */
    const fallbackHeightDp: real
    var canvasBounds: IntRect
    var isDragging: bool
    var dragBitmap: Option<Bitmap>
    var dragOffset: Offset
    var draggingCanvasItemId: Option<Id>
    var dragPreviewWidthDp: Option<real>
    var dragPreviewHeightDp: Option<real>
    var initialOrientation: Option<int>

    ghost predicate Valid()
      reads vm
    {
      vm.Valid() && density > 0.0 && fallbackHeightDp > 0.0
    }

    constructor (vm: CarouselViewModel, density: real, fallbackHeightDp: real)
      requires vm.Valid() && density > 0.0 && fallbackHeightDp > 0.0
      ensures Valid() && this.vm == vm && this.density == density && this.fallbackHeightDp == fallbackHeightDp
      ensures canvasBounds == IntRect(0, 0, 0, 0)
      ensures !isDragging && dragBitmap == None && dragOffset == Zero && draggingCanvasItemId == None
      ensures dragPreviewWidthDp == None && dragPreviewHeightDp == None && initialOrientation == None
    {
      this.vm := vm;
      this.density := density;
      this.fallbackHeightDp := fallbackHeightDp;
      canvasBounds := IntRect(0, 0, 0, 0);
      isDragging := false;
      dragBitmap := None;
      dragOffset := Zero;
      draggingCanvasItemId := None;
      dragPreviewWidthDp := None;
      dragPreviewHeightDp := None;
      initialOrientation := None;
    }

    /** The first-composition effect: capture the orientation if none was
        captured yet, then load eight images. */
    method OnFirstComposition(currentOrientation: int, outcome: RepositoryOutcome)
      requires Valid()
      modifies this`initialOrientation, vm`uiState
      ensures Valid()
      ensures old(initialOrientation).Some? ==> initialOrientation == old(initialOrientation)
      ensures old(initialOrientation).None? ==> initialOrientation == Some(currentOrientation)
      ensures vm.uiState == UiStateFor(GetImages(outcome)[1])
    {
      if initialOrientation.None? {
        initialOrientation := Some(currentOrientation);
      }
      vm.LoadImages(outcome);
    }

    /** Carousel `onStartDrag`: track the bitmap and pointer, and size the
        preview exactly like the frame a drop would create. */
    method OnStartDrag(bmp: Bitmap, startOffset: Offset)
      requires Valid()
      modifies this`dragBitmap, this`dragOffset, this`isDragging, this`dragPreviewWidthDp, this`dragPreviewHeightDp
      ensures Valid()
      ensures dragBitmap == Some(bmp) && dragOffset == startOffset && isDragging
      ensures dragPreviewWidthDp == Some(CanvasFrame(bmp, canvasBounds).width / density)
      ensures dragPreviewHeightDp == Some(CanvasFrame(bmp, canvasBounds).height / density)
    {
      dragBitmap := Some(bmp);
      dragOffset := startOffset;
      isDragging := true;
      var frame := CanvasFrame(bmp, canvasBounds);
      dragPreviewWidthDp := Some(frame.width / density);
      dragPreviewHeightDp := Some(frame.height / density);
    }

    /** Carousel `onDrag`: only the tracked pointer moves. */
    method OnDrag(pointerInWindow: Offset)
      modifies this`dragOffset
      ensures dragOffset == pointerInWindow
    {
      dragOffset := pointerInWindow;
    }

    /** Carousel `onEndDrag`: a pointer inside the canvas adds exactly one item,
        centred under the pointer and clamped; outside, nothing is added. Every
        drag flag and preview size is cleared either way. */
    method OnEndDrag()
      requires Valid()
      modifies this`isDragging, this`dragBitmap, this`dragPreviewWidthDp, this`dragPreviewHeightDp,
               vm`canvasImages, vm`issued
      ensures Valid()
      ensures !isDragging && dragBitmap == None && dragPreviewWidthDp == None && dragPreviewHeightDp == None
      ensures var dropped := old(dragBitmap).Some? && Contains(canvasBounds, dragOffset);
              vm.canvasImages == if dropped
                then old(vm.canvasImages) + [CanvasImage(Uuid(old(vm.issued)), old(dragBitmap).value,
                       DropOffset(dragOffset, canvasBounds, old(dragBitmap).value), 1.0, Zero)]
                else old(vm.canvasImages)
    {
      var bmp := dragBitmap;
      if bmp.Some? && Contains(canvasBounds, dragOffset) {
        vm.AddCanvasImage(bmp.value, DropOffset(dragOffset, canvasBounds, bmp.value));
      }
      isDragging := false;
      dragBitmap := None;
      dragPreviewWidthDp := None;
      dragPreviewHeightDp := None;
    }

    /** The drag overlay's size in dp: the exact preview size when both sides
        are known; otherwise the fallback as the source computes it, whose
        width is the aspect-keeping width times the density. */
    function PreviewSizeDp(): (r: Size)
      reads this
      requires dragBitmap.Some?
      ensures dragPreviewWidthDp.Some? && dragPreviewHeightDp.Some? ==>
              r == Size(dragPreviewWidthDp.value, dragPreviewHeightDp.value)
      ensures dragPreviewWidthDp.None? || dragPreviewHeightDp.None? ==>
              r.height == fallbackHeightDp &&
              r.width * (dragBitmap.value.height as real) == density * fallbackHeightDp * (dragBitmap.value.width as real)
    {
      if dragPreviewWidthDp.Some? && dragPreviewHeightDp.Some? then
        Size(dragPreviewWidthDp.value, dragPreviewHeightDp.value)
      else
        FallbackPreviewAsWrittenScalesByDensity(dragBitmap.value, fallbackHeightDp, density);
        FallbackPreviewSizeAsWritten(dragBitmap.value, fallbackHeightDp, density)
    }
  }

  /** The preview set at drag start, converted back to pixels, is the frame a
      drop on the same canvas creates. */
  lemma PreviewMatchesDropFrame(bmp: Bitmap, bounds: IntRect, density: real)
    requires density > 0.0
    ensures (CanvasFrame(bmp, bounds).width / density) * density == CanvasFrame(bmp, bounds).width
    ensures (CanvasFrame(bmp, bounds).height / density) * density == CanvasFrame(bmp, bounds).height
  {
  }
}
