/** The per-item gesture callbacks of `CanvasImageComposable`: border drag,
    pinch, and a long-press drag that only drives the shared overlay. The
    item's frame offset, zoom and translation are its store fields; the drag
    overlay state belongs to the hosting `HomeScreenState`. */
module CanvasImageComposable {
  import opened Models
  import opened Geometry
  import opened ViewModel
  import opened HomeScreen

  class CanvasImageGestures {
    const host: HomeScreenState
    const id: Id
    /** Whether the current one-finger drag started on the border. */
    var dragFrame: bool

    ghost predicate Valid()
      reads host.vm
    {
      host.Valid()
    }

    constructor (host: HomeScreenState, id: Id)
      requires host.Valid()
      ensures Valid() && this.host == host && this.id == id && !dragFrame
    {
      this.host := host;
      this.id := id;
      dragFrame := false;
    }

    /** The fixed frame of an item on the host's current canvas. */
    function FrameOf(item: CanvasImage): Size
      reads host
    {
      CanvasFrame(item.bitmap, host.canvasBounds)
    }

    /** True while this item is the one being long-press dragged: it is drawn
        transparent and its drag and pinch detectors are not installed. */
    predicate Lifted()
      reads host
    {
      host.draggingCanvasItemId == Some(id)
    }

    /** Every composition re-clamps the stored translation to the displayed
        zoom, `userScale` coerced into [1, 8]. */
    method Recompose()
      requires Valid() && Present(host.vm.canvasImages, id)
      modifies host.vm`canvasImages
      ensures Valid()
      ensures var item := Lookup(old(host.vm.canvasImages), id);
              host.vm.canvasImages == UpdateFirst(old(host.vm.canvasImages), id, SetTranslation(
                ClampPan(item.imageTranslation, FrameOf(item), CoerceIn(item.userScale, MinZoom, MaxZoom))))
      ensures Present(host.vm.canvasImages, id)
      ensures var item := Lookup(host.vm.canvasImages, id);
              WithinPan(item.imageTranslation, FrameOf(item), CoerceIn(item.userScale, MinZoom, MaxZoom))
    {
      var k := IndexOfFirst(host.vm.canvasImages, id);
      var item := host.vm.canvasImages[k];
      var t := ClampPan(item.imageTranslation, FrameOf(item), CoerceIn(item.userScale, MinZoom, MaxZoom));
      host.vm.UpdateImageTranslation(id, t);
      LookupAfterUpdate(old(host.vm.canvasImages), id, SetTranslation(t), id);
    }

    /** Long-press start: this item becomes the dragged one, and the overlay
        gets its bitmap, the pointer in window coordinates and its frame size in dp. */
    method OnLongPressStart(frameOriginInWindow: Offset, start: Offset)
      requires Valid() && Present(host.vm.canvasImages, id)
      modifies host`draggingCanvasItemId, host`dragBitmap, host`isDragging, host`dragOffset,
               host`dragPreviewWidthDp, host`dragPreviewHeightDp
      ensures Valid() && Lifted() && host.isDragging
      ensures host.dragBitmap == Some(Lookup(host.vm.canvasImages, id).bitmap)
      ensures host.dragOffset == frameOriginInWindow.Plus(start)
      ensures var frame := FrameOf(Lookup(host.vm.canvasImages, id));
              host.dragPreviewWidthDp == Some(frame.width / host.density) &&
              host.dragPreviewHeightDp == Some(frame.height / host.density)
    {
      var k := IndexOfFirst(host.vm.canvasImages, id);
      var item := host.vm.canvasImages[k];
      var frame := FrameOf(item);
      host.draggingCanvasItemId := Some(id);
      host.dragBitmap := Some(item.bitmap);
      host.isDragging := true;
      host.dragOffset := frameOriginInWindow.Plus(start);
      host.dragPreviewWidthDp := Some(frame.width / host.density);
      host.dragPreviewHeightDp := Some(frame.height / host.density);
    }

    method OnLongPressDrag(frameOriginInWindow: Offset, position: Offset)
      modifies host`dragOffset
      ensures host.dragOffset == frameOriginInWindow.Plus(position)
    {
      host.dragOffset := frameOriginInWindow.Plus(position);
    }

    /** Long-press release: every overlay flag is cleared. The item's offset
        and the list order are not touched (the store is not in the frame). */
    method OnLongPressEnd()
      modifies host`draggingCanvasItemId, host`isDragging, host`dragBitmap,
               host`dragPreviewWidthDp, host`dragPreviewHeightDp
      ensures !Lifted() && host.draggingCanvasItemId == None && !host.isDragging && host.dragBitmap == None
      ensures host.dragPreviewWidthDp == None && host.dragPreviewHeightDp == None
    {
      host.draggingCanvasItemId := None;
      host.isDragging := false;
      host.dragBitmap := None;
      host.dragPreviewWidthDp := None;
      host.dragPreviewHeightDp := None;
    }

    /** Long-press cancel as the source has it: no `onDragCancel` is passed,
        so the detector's default, which does nothing, runs. */
    method OnLongPressCancelAsWritten()
    {
    }

    /** Long-press cancel as evidently intended: clear the overlay flags
        exactly as a release does. */
    method OnLongPressCancel()
      modifies host`draggingCanvasItemId, host`isDragging, host`dragBitmap,
               host`dragPreviewWidthDp, host`dragPreviewHeightDp
      ensures !Lifted() && host.draggingCanvasItemId == None && !host.isDragging && host.dragBitmap == None
      ensures host.dragPreviewWidthDp == None && host.dragPreviewHeightDp == None
    {
      OnLongPressEnd();
    }

    /** Border drag, `onDragStart`: classify the start point against the 16dp border. */
    method OnFrameDragStart(start: Offset)
      requires Valid() && Present(host.vm.canvasImages, id)
      modifies this`dragFrame
      ensures Lifted() ==> dragFrame == old(dragFrame)
      ensures !Lifted() ==>
        dragFrame == IsBorderStart(start, FrameOf(Lookup(host.vm.canvasImages, id)), BorderPx(host.density))
    {
      if !Lifted() {
        var k := IndexOfFirst(host.vm.canvasImages, id);
        dragFrame := IsBorderStart(start, FrameOf(host.vm.canvasImages[k]), BorderPx(host.density));
      }
    }

    /** Border drag, `onDrag`: add the delta and clamp into the canvas; a
        drag that did not start on the border leaves the offset alone. */
    method OnFrameDrag(delta: Offset)
      requires Valid() && Present(host.vm.canvasImages, id)
      modifies host.vm`canvasImages
      ensures Valid()
      ensures var item := Lookup(old(host.vm.canvasImages), id);
              var w, h := host.canvasBounds.Width() as real, host.canvasBounds.Height() as real;
              host.vm.canvasImages == if !Lifted() && dragFrame
                then UpdateFirst(old(host.vm.canvasImages), id, SetOffset(ClampOffset(item.offset.Plus(delta), FrameOf(item), w, h)))
                else old(host.vm.canvasImages)
      ensures Present(host.vm.canvasImages, id)
      ensures !Lifted() && dragFrame ==>
              var item := Lookup(host.vm.canvasImages, id);
              OffsetInCanvas(item.offset, FrameOf(item), host.canvasBounds.Width() as real, host.canvasBounds.Height() as real)
    {
      if !Lifted() && dragFrame {
        var k := IndexOfFirst(host.vm.canvasImages, id);
        var item := host.vm.canvasImages[k];
        var o := ClampOffset(item.offset.Plus(delta), FrameOf(item),
                             host.canvasBounds.Width() as real, host.canvasBounds.Height() as real);
        host.vm.UpdateOffset(id, o);
        LookupAfterUpdate(old(host.vm.canvasImages), id, SetOffset(o), id);
      }
    }

    /** Border drag, `onDragEnd`. */
    method OnFrameDragEnd()
      modifies this`dragFrame
      ensures !dragFrame
    {
      dragFrame := false;
    }

    /** One transform-gesture event: zoom and clamped translation from `Pinch`. */
    method OnPinch(centroid: Offset, pan: Offset, factor: real)
      requires Valid() && Present(host.vm.canvasImages, id)
      modifies host.vm`canvasImages
      ensures Valid()
      ensures var item := Lookup(old(host.vm.canvasImages), id);
              var r := Pinch(item.userScale, item.imageTranslation, FrameOf(item), centroid, pan, factor);
              host.vm.canvasImages == if Lifted() then old(host.vm.canvasImages)
                else UpdateFirst(UpdateFirst(old(host.vm.canvasImages), id, SetTranslation(r.translation)), id, SetUserScale(r.zoom))
      ensures Present(host.vm.canvasImages, id)
      ensures !Lifted() ==>
              var item := Lookup(host.vm.canvasImages, id);
              MinZoom <= item.userScale <= MaxZoom && WithinPan(item.imageTranslation, FrameOf(item), item.userScale)
    {
      if !Lifted() {
        var k := IndexOfFirst(host.vm.canvasImages, id);
        var item := host.vm.canvasImages[k];
        var r := Pinch(item.userScale, item.imageTranslation, FrameOf(item), centroid, pan, factor);
        host.vm.UpdateImageTranslation(id, r.translation);
        ghost var mid := host.vm.canvasImages;
        LookupAfterUpdate(old(host.vm.canvasImages), id, SetTranslation(r.translation), id);
        host.vm.UpdateUserScale(id, r.zoom);
        LookupAfterUpdate(mid, id, SetUserScale(r.zoom), id);
      }
    }
  }

  /** The setting of the scenarios below: a fresh screen at density 1 whose
      canvas has the given bounds, holding one item with the given bitmap at
      the origin. */
  method PlaceItem(bmp: Bitmap, bounds: IntRect) returns (item: CanvasImageGestures)
    ensures fresh(item) && fresh(item.host) && fresh(item.host.vm)
    ensures item.Valid() && !item.Lifted()
    ensures item.host.canvasBounds == bounds && item.host.density == 1.0
    ensures item.host.vm.canvasImages == [CanvasImage(item.id, bmp, Zero, 1.0, Zero)]
    ensures FirstIndex(item.host.vm.canvasImages, item.id) == 0
  {
    var vm := new CarouselViewModel();
    var host := new HomeScreenState(vm, 1.0, 80.0);
    host.canvasBounds := bounds;
    vm.AddCanvasImage(bmp, Zero);
    var id := vm.canvasImages[0].id;
    FirstIndexIsFirstMatch(vm.canvasImages, id, 0);
    item := new CanvasImageGestures(host, id);
  }

  /** A long press on a placed item that is then cancelled, with the handlers
      as written: whatever the bitmap, the canvas and the gestures, the item
      stays marked as dragged (so it is drawn transparent), and a border drag
      that follows leaves it where it was. */
  method CancelledLongPressAsWritten(bmp: Bitmap, bounds: IntRect, press: Offset, start: Offset, delta: Offset)
    returns (stillLifted: bool, offsetAfterwards: Offset)
    ensures stillLifted && offsetAfterwards == Zero
  {
    var item := PlaceItem(bmp, bounds);
    var vm := item.host.vm;
    item.OnLongPressStart(Zero, press);
    item.OnLongPressCancelAsWritten();
    stillLifted := item.Lifted();
    item.OnFrameDragStart(start);
    item.OnFrameDrag(delta);
    offsetAfterwards := vm.canvasImages[0].offset;
  }

  /** The same sequence with the corrected cancel handler: the item is
      released, and a border drag from its top-left corner moves it by the
      delta, clamped into the canvas. */
  method CancelledLongPress(bmp: Bitmap, bounds: IntRect, press: Offset, delta: Offset)
    returns (stillLifted: bool, offsetAfterwards: Offset)
    ensures !stillLifted
    ensures offsetAfterwards == ClampOffset(delta, CanvasFrame(bmp, bounds), bounds.Width() as real, bounds.Height() as real)
  {
    var item := PlaceItem(bmp, bounds);
    var vm := item.host.vm;
    ghost var placed := vm.canvasImages;
    item.OnLongPressStart(Zero, press);
    item.OnLongPressCancel();
    stillLifted := item.Lifted();
    item.OnFrameDragStart(Zero);
    item.OnFrameDrag(delta);
    assert Zero.Plus(delta) == delta;
    UpdateTouchesOnlyTarget(placed, item.id, SetOffset(ClampOffset(delta, item.FrameOf(placed[0]), bounds.Width() as real, bounds.Height() as real)), 0);
    offsetAfterwards := vm.canvasImages[0].offset;
  }
}
