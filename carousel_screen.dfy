/** The gesture callbacks of `CarouselScreen`: per-item border drag, pinch and
    long-press relocation, and the carousel drag-to-drop. The per-item
    remembered frame offset, zoom and translation are the store item's own
    fields, updated directly. */
module CarouselScreen {
  import opened Models
  import opened Geometry
  import opened Extensions
  import opened ViewModel

  class CarouselScreenState {
    const vm: CarouselViewModel
    /** Pixels per density-independent pixel. */
    const density: real
    var canvasBounds: IntRect
    var isDragging: bool
    var dragBitmap: Option<Bitmap>
    var dragOffset: Offset
    var draggingCanvasItemId: Option<Id>
    /** Per item: whether its current one-finger drag started on the border. */
    var dragFrame: map<Id, bool>

    ghost predicate Valid()
      reads vm
    {
      vm.Valid() && density > 0.0
    }

    constructor (vm: CarouselViewModel, density: real)
      requires vm.Valid() && density > 0.0
      ensures Valid() && this.vm == vm && this.density == density
      ensures canvasBounds == IntRect(0, 0, 0, 0)
      ensures !isDragging && dragBitmap == None && dragOffset == Zero
      ensures draggingCanvasItemId == None && dragFrame == map[]
    {
      this.vm := vm;
      this.density := density;
      canvasBounds := IntRect(0, 0, 0, 0);
      isDragging := false;
      dragBitmap := None;
      dragOffset := Zero;
      draggingCanvasItemId := None;
      dragFrame := map[];
    }

    /** The fixed frame of an item on the current canvas. */
    function FrameOf(item: CanvasImage): Size
      reads this
    {
      CanvasFrame(item.bitmap, canvasBounds)
    }

    /** Every composition re-clamps the stored translation to the displayed
        zoom, `userScale` coerced into [1, 8]. */
    method OnItemRecompose(id: Id)
      requires Valid() && Present(vm.canvasImages, id)
      modifies vm`canvasImages
      ensures Valid()
      ensures var item := Lookup(old(vm.canvasImages), id);
              vm.canvasImages == UpdateFirst(old(vm.canvasImages), id, SetTranslation(
                ClampPan(item.imageTranslation, FrameOf(item), CoerceIn(item.userScale, MinZoom, MaxZoom))))
      ensures Present(vm.canvasImages, id)
      ensures var item := Lookup(vm.canvasImages, id);
              WithinPan(item.imageTranslation, FrameOf(item), CoerceIn(item.userScale, MinZoom, MaxZoom))
    {
      var k := IndexOfFirst(vm.canvasImages, id);
      var item := vm.canvasImages[k];
      var zoom := CoerceIn(item.userScale, MinZoom, MaxZoom);
      var t := ClampPan(item.imageTranslation, FrameOf(item), zoom);
      vm.UpdateImageTranslation(id, t);
      LookupAfterUpdate(old(vm.canvasImages), id, SetTranslation(t), id);
    }

    /** Border drag, `onDragStart`: the drag moves the frame only if it starts
        within 16dp of an edge. No detector runs while the item is long-press dragged. */
    method OnFrameDragStart(id: Id, start: Offset)
      requires Valid() && Present(vm.canvasImages, id)
      modifies this`dragFrame
      ensures draggingCanvasItemId == Some(id) ==> dragFrame == old(dragFrame)
      ensures draggingCanvasItemId != Some(id) ==>
        dragFrame == old(dragFrame)[id := IsBorderStart(start, FrameOf(Lookup(vm.canvasImages, id)), BorderPx(density))]
    {
      if draggingCanvasItemId != Some(id) {
        var k := IndexOfFirst(vm.canvasImages, id);
        var frame := FrameOf(vm.canvasImages[k]);
        dragFrame := dragFrame[id := IsBorderStart(start, frame, BorderPx(density))];
      }
    }

    /** Border drag, `onDrag`: add the delta to the frame offset and clamp it
        into the canvas; a drag that did not start on the border does nothing. */
    method OnFrameDrag(id: Id, delta: Offset)
      requires Valid() && Present(vm.canvasImages, id)
      modifies vm`canvasImages
      ensures Valid()
      ensures var moves := draggingCanvasItemId != Some(id) && id in dragFrame && dragFrame[id];
              var item := Lookup(old(vm.canvasImages), id);
              var w, h := canvasBounds.Width() as real, canvasBounds.Height() as real;
              vm.canvasImages == if moves
                then UpdateFirst(old(vm.canvasImages), id, SetOffset(ClampOffset(item.offset.Plus(delta), FrameOf(item), w, h)))
                else old(vm.canvasImages)
      ensures Present(vm.canvasImages, id)
      ensures draggingCanvasItemId != Some(id) && id in dragFrame && dragFrame[id] ==>
              var item := Lookup(vm.canvasImages, id);
              OffsetInCanvas(item.offset, FrameOf(item), canvasBounds.Width() as real, canvasBounds.Height() as real)
    {
      if draggingCanvasItemId != Some(id) && id in dragFrame && dragFrame[id] {
        var k := IndexOfFirst(vm.canvasImages, id);
        var item := vm.canvasImages[k];
        var o := ClampOffset(item.offset.Plus(delta), FrameOf(item), canvasBounds.Width() as real, canvasBounds.Height() as real);
        vm.UpdateOffset(id, o);
        LookupAfterUpdate(old(vm.canvasImages), id, SetOffset(o), id);
      }
    }

    /** Border drag, `onDragEnd` and `onDragCancel`. */
    method OnFrameDragStop(id: Id)
      modifies this`dragFrame
      ensures dragFrame == old(dragFrame)[id := false]
    {
      dragFrame := dragFrame[id := false];
    }

    /** One transform-gesture event on an item: new zoom and clamped
        translation from `Pinch`, written back to the store. */
    method OnPinch(id: Id, centroid: Offset, pan: Offset, factor: real)
      requires Valid() && Present(vm.canvasImages, id)
      modifies vm`canvasImages
      ensures Valid()
      ensures var item := Lookup(old(vm.canvasImages), id);
              var r := Pinch(item.userScale, item.imageTranslation, FrameOf(item), centroid, pan, factor);
              vm.canvasImages == if draggingCanvasItemId == Some(id) then old(vm.canvasImages)
                else UpdateFirst(UpdateFirst(old(vm.canvasImages), id, SetTranslation(r.translation)), id, SetUserScale(r.zoom))
      ensures Present(vm.canvasImages, id)
      ensures draggingCanvasItemId != Some(id) ==>
              var item := Lookup(vm.canvasImages, id);
              MinZoom <= item.userScale <= MaxZoom && WithinPan(item.imageTranslation, FrameOf(item), item.userScale)
    {
      if draggingCanvasItemId != Some(id) {
        var k := IndexOfFirst(vm.canvasImages, id);
        var item := vm.canvasImages[k];
        var r := Pinch(item.userScale, item.imageTranslation, FrameOf(item), centroid, pan, factor);
        vm.UpdateImageTranslation(id, r.translation);
        ghost var mid := vm.canvasImages;
        LookupAfterUpdate(old(vm.canvasImages), id, SetTranslation(r.translation), id);
        vm.UpdateUserScale(id, r.zoom);
        LookupAfterUpdate(mid, id, SetUserScale(r.zoom), id);
      }
    }

    /** Long-press on a placed item: it becomes the dragged item and the
        overlay follows the pointer, given in window coordinates. */
    method OnLongPressStart(id: Id, frameOriginInWindow: Offset, start: Offset)
      requires Valid() && Present(vm.canvasImages, id)
      modifies this`draggingCanvasItemId, this`dragBitmap, this`isDragging, this`dragOffset
      ensures draggingCanvasItemId == Some(id) && isDragging
      ensures dragBitmap == Some(Lookup(vm.canvasImages, id).bitmap)
      ensures dragOffset == frameOriginInWindow.Plus(start)
    {
      var k := IndexOfFirst(vm.canvasImages, id);
      draggingCanvasItemId := Some(id);
      dragBitmap := Some(vm.canvasImages[k].bitmap);
      isDragging := true;
      dragOffset := frameOriginInWindow.Plus(start);
    }

    method OnLongPressDrag(frameOriginInWindow: Offset, position: Offset)
      modifies this`dragOffset
      ensures dragOffset == frameOriginInWindow.Plus(position)
    {
      dragOffset := frameOriginInWindow.Plus(position);
    }

    /** The reorder after a drop: the first item with the id is removed and
        appended, so it is drawn last; an item already last, or an unknown id,
        leaves the list as it is. */
    method BringToFront(id: Id)
      requires Valid()
      modifies vm`canvasImages
      ensures Valid()
      ensures vm.canvasImages == BroughtToFront(old(vm.canvasImages), id)
    {
      var idx := IndexOfFirst(vm.canvasImages, id);
      if idx >= 0 && idx < |vm.canvasImages| - 1 {
        MovedToEndKeepsIds(vm.canvasImages, idx, vm.issued);
        MovedToEndKeepsScales(vm.canvasImages, idx);
        var moved := vm.canvasImages[idx];
        var rest := vm.canvasImages[..idx] + vm.canvasImages[idx + 1..];
        vm.canvasImages := rest + [moved];
      }
    }

    /** Long-press release: inside the canvas the item gets the centred,
        clamped drop offset and is brought to the front; outside only the drag
        flags are reset. */
    method OnLongPressEnd(id: Id)
      requires Valid()
      modifies this`draggingCanvasItemId, this`isDragging, this`dragBitmap, vm`canvasImages
      ensures Valid()
      ensures draggingCanvasItemId == None && !isDragging && dragBitmap == None
      ensures var dropped := old(dragBitmap).Some? && Contains(canvasBounds, dragOffset);
              vm.canvasImages == if dropped
                then BroughtToFront(UpdateFirst(old(vm.canvasImages), id,
                       SetOffset(DropOffset(dragOffset, canvasBounds, old(dragBitmap).value))), id)
                else old(vm.canvasImages)
    {
      var bmp := dragBitmap;
      if bmp.Some? && Contains(canvasBounds, dragOffset) {
        var o := DropOffset(dragOffset, canvasBounds, bmp.value);
        vm.UpdateOffset(id, o);
        BringToFront(id);
      }
      draggingCanvasItemId := None;
      isDragging := false;
      dragBitmap := None;
    }

    /** Long-press cancel: only the drag flags change. */
    method OnLongPressCancel()
      modifies this`draggingCanvasItemId, this`isDragging, this`dragBitmap
      ensures draggingCanvasItemId == None && !isDragging && dragBitmap == None
    {
      draggingCanvasItemId := None;
      isDragging := false;
      dragBitmap := None;
    }

    /** Carousel `onStartDrag`. */
    method OnCarouselStartDrag(bmp: Bitmap, startOffset: Offset)
      modifies this`dragBitmap, this`dragOffset, this`isDragging
      ensures dragBitmap == Some(bmp) && dragOffset == startOffset && isDragging
    {
      dragBitmap := Some(bmp);
      dragOffset := startOffset;
      isDragging := true;
    }

    /** Carousel `onDrag`: only the tracked pointer moves. */
    method OnCarouselDrag(pointerInWindow: Offset)
      modifies this`dragOffset
      ensures dragOffset == pointerInWindow
    {
      dragOffset := pointerInWindow;
    }

    /** Carousel `onEndDrag`: a drop inside the canvas adds exactly one item
        at the centred, clamped offset; a drop outside adds nothing. */
    method OnCarouselEndDrag()
      requires Valid()
      modifies this`isDragging, this`dragBitmap, vm`canvasImages, vm`issued
      ensures Valid()
      ensures !isDragging && dragBitmap == None
      ensures var dropped := old(dragBitmap).Some? && Contains(canvasBounds, dragOffset);
              vm.canvasImages == if dropped
                then old(vm.canvasImages) + [CanvasImage(Uuid(old(vm.issued)), old(dragBitmap).value,
                       DropOffset(dragOffset, canvasBounds, old(dragBitmap).value), 1.0, Zero)]
                else old(vm.canvasImages)
      ensures old(dragBitmap).Some? && Contains(canvasBounds, dragOffset) ==>
              OffsetInCanvas(vm.canvasImages[|vm.canvasImages| - 1].offset, CanvasFrame(old(dragBitmap).value, canvasBounds),
                             canvasBounds.Width() as real, canvasBounds.Height() as real)
    {
      var bmp := dragBitmap;
      if bmp.Some? && Contains(canvasBounds, dragOffset) {
        vm.AddCanvasImage(bmp.value, DropOffset(dragOffset, canvasBounds, bmp.value));
      }
      isDragging := false;
      dragBitmap := None;
    }
  }

  /** The relocation of a long-press drop, as a list transformation: the
      dropped item ends up last with the drop offset, everything else keeps its
      fields and relative order. */
  lemma RelocateProperties(items: seq<CanvasImage>, id: Id, o: Offset)
    requires Present(items, id)
    ensures var r := BroughtToFront(UpdateFirst(items, id, SetOffset(o)), id);
            |r| == |items| &&
            r[|r| - 1] == Apply(Lookup(items, id), SetOffset(o)) &&
            r[..|r| - 1] == items[..FirstIndex(items, id)] + items[FirstIndex(items, id) + 1..]
  {
    var k := FirstIndex(items, id);
    var u := UpdateFirst(items, id, SetOffset(o));
    UpdateFirstIsIndexedWrite(items, id, SetOffset(o));
    FirstIndexIsFirstMatch(u, id, k);
    if k < |items| - 1 {
      MovedToEndProperties(u, k);
      assert u[..k] == items[..k];
      assert u[k + 1..] == items[k + 1..];
    } else {
      assert u[..|u| - 1] == items[..k];
      assert items[k + 1..] == [];
    }
  }
}
