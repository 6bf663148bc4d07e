/** The carousel strip of `UiComposables`: each thumbnail's long-press drag
    reports the pointer in window coordinates to the hosting screen. */
module UiComposables {
  import opened Models
  import opened Extensions
  import opened Geometry
  import opened ViewModel
  import opened HomeScreen

  /** A thumbnail's aspect ratio: the bitmap's width over its height, with a
      missing bitmap counting as 1 by 1. */
  function ThumbnailAspect(image: Image): (r: real)
    ensures r > 0.0
    ensures image.bitmap.None? ==> r == 1.0
    ensures image.bitmap.Some? ==> r * (image.bitmap.value.height as real) == image.bitmap.value.width as real
  {
    var w := if image.bitmap.Some? then image.bitmap.value.width else 1;
    var h := if image.bitmap.Some? then image.bitmap.value.height else 1;
    (w as real) / (h as real)
  }

  class Carousel {
    const host: HomeScreenState
    /** The last pointer position reported, in window coordinates. */
    var lastPointerInWindow: Offset

    ghost predicate Valid()
      reads host.vm
    {
      host.Valid()
    }

    constructor (host: HomeScreenState)
      requires host.Valid()
      ensures Valid() && this.host == host && lastPointerInWindow == Zero
    {
      this.host := host;
      lastPointerInWindow := Zero;
    }

    /** A thumbnail's `onDragStart`: the pointer is the thumbnail's window
        origin plus the touch point, and the drag starts with its bitmap. */
    method OnDragStart(itemOriginInWindow: Offset, start: Offset, image: Image)
      requires Valid() && image.bitmap.Some?
      modifies this`lastPointerInWindow,
               host`dragBitmap, host`dragOffset, host`isDragging, host`dragPreviewWidthDp, host`dragPreviewHeightDp
      ensures Valid()
      ensures lastPointerInWindow == itemOriginInWindow.Plus(start)
      ensures host.dragBitmap == image.bitmap && host.dragOffset == lastPointerInWindow && host.isDragging
      ensures var frame := CanvasFrame(image.bitmap.value, host.canvasBounds);
              host.dragPreviewWidthDp == Some(frame.width / host.density) &&
              host.dragPreviewHeightDp == Some(frame.height / host.density)
    {
      lastPointerInWindow := itemOriginInWindow.Plus(start);
      host.OnStartDrag(image.bitmap.value, lastPointerInWindow);
    }

    /** A thumbnail's `onDrag`: the pointer follows the touch. */
    method OnDrag(itemOriginInWindow: Offset, position: Offset)
      modifies this`lastPointerInWindow, host`dragOffset
      ensures lastPointerInWindow == itemOriginInWindow.Plus(position)
      ensures host.dragOffset == lastPointerInWindow
    {
      lastPointerInWindow := itemOriginInWindow.Plus(position);
      host.OnDrag(lastPointerInWindow);
    }

    /** A thumbnail's `onDragEnd`: the screen decides whether to drop. */
    method OnDragEnd()
      requires Valid()
      modifies host`isDragging, host`dragBitmap, host`dragPreviewWidthDp, host`dragPreviewHeightDp,
               host.vm`canvasImages, host.vm`issued
      ensures Valid()
      ensures !host.isDragging && host.dragBitmap == None
      ensures host.dragPreviewWidthDp == None && host.dragPreviewHeightDp == None
      ensures var dropped := old(host.dragBitmap).Some? && Contains(host.canvasBounds, host.dragOffset);
              host.vm.canvasImages == if dropped
                then old(host.vm.canvasImages) + [CanvasImage(Uuid(old(host.vm.issued)), old(host.dragBitmap).value,
                       DropOffset(host.dragOffset, host.canvasBounds, old(host.dragBitmap).value), 1.0, Zero)]
                else old(host.vm.canvasImages)
    {
      host.OnEndDrag();
    }

    /** A thumbnail's `onDragCancel` is the same callback as `onDragEnd`: a
        cancelled drag whose last pointer lies inside the canvas still drops. */
    method OnDragCancel()
      requires Valid()
      modifies host`isDragging, host`dragBitmap, host`dragPreviewWidthDp, host`dragPreviewHeightDp,
               host.vm`canvasImages, host.vm`issued
      ensures Valid()
      ensures !host.isDragging && host.dragBitmap == None
      ensures host.dragPreviewWidthDp == None && host.dragPreviewHeightDp == None
      ensures var dropped := old(host.dragBitmap).Some? && Contains(host.canvasBounds, host.dragOffset);
              host.vm.canvasImages == if dropped
                then old(host.vm.canvasImages) + [CanvasImage(Uuid(old(host.vm.issued)), old(host.dragBitmap).value,
                       DropOffset(host.dragOffset, host.canvasBounds, old(host.dragBitmap).value), 1.0, Zero)]
                else old(host.vm.canvasImages)
    {
      host.OnEndDrag();
    }
  }

  /** A whole carousel drag: long-press a thumbnail, move into the canvas and
      release. Exactly one item is added, centred under the pointer. */
  method DragThumbnailOntoCanvas() returns (added: seq<CanvasImage>)
    ensures |added| == 1 && added[0].offset == Offset(20.0, 35.0) && added[0].userScale == 1.0
  {
    var vm := new CarouselViewModel();
    var host := new HomeScreenState(vm, 1.0, 80.0);
    host.canvasBounds := IntRect(0, 0, 100, 100);
    var strip := new Carousel(host);
    strip.OnDragStart(Zero, Offset(10.0, 10.0), Image(Some(Bitmap(0, 200, 100))));
    strip.OnDrag(Zero, Offset(50.0, 50.0));
    strip.OnDragEnd();
    DropExample();
    added := vm.canvasImages;
  }
}
