/** The canvas item store and the load-state mapping of `CarouselViewModel`. */
module ViewModel {
  import opened Models
  import opened Geometry
  import opened GetImagesUseCase

  // ------------------------------------------------------ searching by id

  /** `indexOfFirst { it.id == id }`, as a specification: the position of the
      first item with that id, or -1. */
  function FirstIndex(items: seq<CanvasImage>, id: Id): (r: int)
    ensures -1 <= r < |items|
    ensures r >= 0 ==> items[r].id == id && forall j :: 0 <= j < r ==> items[j].id != id
    ensures r < 0 ==> forall j :: 0 <= j < |items| ==> items[j].id != id
  {
    if items == [] then -1
    else if items[0].id == id then 0
    else
      var k := FirstIndex(items[1..], id);
      if k < 0 then -1 else k + 1
  }

  predicate Present(items: seq<CanvasImage>, id: Id)
  {
    FirstIndex(items, id) >= 0
  }

  /** The first item with the given id. */
  function Lookup(items: seq<CanvasImage>, id: Id): (item: CanvasImage)
    requires Present(items, id)
    ensures item in items && item.id == id
  {
    items[FirstIndex(items, id)]
  }

  /** The linear search the store runs before each update. */
  method IndexOfFirst(items: seq<CanvasImage>, id: Id) returns (r: int)
    ensures r == FirstIndex(items, id)
  {
    var i := 0;
    while i < |items|
      invariant 0 <= i <= |items|
      invariant forall j :: 0 <= j < i ==> items[j].id != id
    {
      if items[i].id == id {
        FirstIndexIsFirstMatch(items, id, i);
        return i;
      }
      i := i + 1;
    }
    r := -1;
  }

  /** `FirstIndex` is determined by its contract: a match with no earlier match. */
  lemma FirstIndexIsFirstMatch(items: seq<CanvasImage>, id: Id, i: int)
    requires 0 <= i < |items| && items[i].id == id
    requires forall j :: 0 <= j < i ==> items[j].id != id
    ensures FirstIndex(items, id) == i
  {
  }

  // ------------------------------------------------------- field updates

  /** Which field an update rewrites, and its new value. */
  datatype Patch = SetOffset(offset: Offset) | SetUserScale(userScale: real) | SetTranslation(translation: Offset)

  /** `copy(field = value)`: one field replaced, all others kept. */
  function Apply(item: CanvasImage, p: Patch): (r: CanvasImage)
    ensures r.id == item.id && r.bitmap == item.bitmap
    ensures r.offset == (if p.SetOffset? then p.offset else item.offset)
    ensures r.userScale == (if p.SetUserScale? then p.userScale else item.userScale)
    ensures r.imageTranslation == (if p.SetTranslation? then p.translation else item.imageTranslation)
  {
    match p
    case SetOffset(o) => item.(offset := o)
    case SetUserScale(s) => item.(userScale := s)
    case SetTranslation(t) => item.(imageTranslation := t)
  }

  /** Reference definition of an update by id: walk the list and patch the
      first item whose id matches; later duplicates and a missing id are left alone. */
  function UpdateFirst(items: seq<CanvasImage>, id: Id, p: Patch): (r: seq<CanvasImage>)
    ensures |r| == |items|
    ensures forall i :: 0 <= i < |items| ==> r[i].id == items[i].id && r[i].bitmap == items[i].bitmap
  {
    if items == [] then []
    else if items[0].id == id then [Apply(items[0], p)] + items[1..]
    else [items[0]] + UpdateFirst(items[1..], id, p)
  }

  /** The store's search-then-overwrite implements the reference definition. */
  lemma {:induction false} UpdateFirstIsIndexedWrite(items: seq<CanvasImage>, id: Id, p: Patch)
    ensures var k := FirstIndex(items, id);
            UpdateFirst(items, id, p) == if k < 0 then items else items[k := Apply(items[k], p)]
  {
    if items == [] {
    } else if items[0].id == id {
      ConsThenWrite(items[0], items[1..], -1, Apply(items[0], p));
    } else {
      var rest := items[1..];
      UpdateFirstIsIndexedWrite(rest, id, p);
      var k := FirstIndex(rest, id);
      if k >= 0 {
        ConsThenWrite(items[0], rest, k, Apply(rest[k], p));
      } else {
        assert [items[0]] + rest == items;
      }
    }
  }

  /** Writing into a non-empty list at index `k + 1` writes into its tail at
      `k`; at index 0 it replaces the head. */
  lemma ConsThenWrite(x: CanvasImage, rest: seq<CanvasImage>, k: int, v: CanvasImage)
    requires -1 <= k < |rest|
    ensures k >= 0 ==> [x] + rest[k := v] == ([x] + rest)[k + 1 := v]
    ensures k == -1 ==> [v] + rest == ([x] + rest)[0 := v]
  {
  }

  /** An update by an unknown id changes nothing. */
  lemma UpdateUnknownIdIsNoop(items: seq<CanvasImage>, id: Id, p: Patch)
    requires !Present(items, id)
    ensures UpdateFirst(items, id, p) == items
  {
    UpdateFirstIsIndexedWrite(items, id, p);
  }

  /** An update by a present id rewrites exactly one field of exactly one
      item, the first one with that id; length and order are kept. */
  lemma UpdateTouchesOnlyTarget(items: seq<CanvasImage>, id: Id, p: Patch, i: int)
    requires 0 <= i < |items|
    ensures UpdateFirst(items, id, p)[i] ==
            if i == FirstIndex(items, id) then Apply(items[i], p) else items[i]
  {
    UpdateFirstIsIndexedWrite(items, id, p);
  }

  /** Updates keep the set of ids, so what is present stays present and the
      item found by id afterwards is the patched one. */
  lemma LookupAfterUpdate(items: seq<CanvasImage>, id: Id, p: Patch, other: Id)
    requires Present(items, other)
    ensures FirstIndex(UpdateFirst(items, id, p), other) == FirstIndex(items, other)
    ensures Lookup(UpdateFirst(items, id, p), other) ==
            if other == id then Apply(Lookup(items, other), p) else Lookup(items, other)
  {
    var r := UpdateFirst(items, id, p);
    var k := FirstIndex(items, other);
    FirstIndexIsFirstMatch(r, other, k);
    UpdateTouchesOnlyTarget(items, id, p, k);
    if other == id {
      assert FirstIndex(items, id) == k;
    } else {
      assert k != FirstIndex(items, id);
    }
  }

  // ------------------------------------------------------- bring to front

  /** `removeAt(i)` followed by `add(moved)`. */
  function MovedToEnd(items: seq<CanvasImage>, i: int): seq<CanvasImage>
    requires 0 <= i < |items|
  {
    items[..i] + items[i + 1..] + [items[i]]
  }

  /** Moving an item to the end keeps the same items, puts the moved one last
      and keeps the relative order of the others. */
  lemma MovedToEndProperties(items: seq<CanvasImage>, i: int)
    requires 0 <= i < |items|
    ensures |MovedToEnd(items, i)| == |items|
    ensures multiset(MovedToEnd(items, i)) == multiset(items)
    ensures MovedToEnd(items, i)[|items| - 1] == items[i]
    ensures MovedToEnd(items, i)[..|items| - 1] == items[..i] + items[i + 1..]
  {
    var r := MovedToEnd(items, i);
    assert items == items[..i] + [items[i]] + items[i + 1..];
    calc {
      multiset(items);
      multiset(items[..i] + [items[i]] + items[i + 1..]);
      multiset(items[..i]) + multiset([items[i]]) + multiset(items[i + 1..]);
      multiset(r);
    }
  }

  /** Every position of the moved list reads an item of the original list, and
      distinct positions read distinct original positions. */
  function MovedSource(n: int, i: int, j: int): int
  {
    if j < i then j else if j < n - 1 then j + 1 else i
  }

  lemma MovedToEndIndex(items: seq<CanvasImage>, i: int, j: int)
    requires 0 <= i < |items| && 0 <= j < |items|
    ensures 0 <= MovedSource(|items|, i, j) < |items|
    ensures MovedToEnd(items, i)[j] == items[MovedSource(|items|, i, j)]
  {
  }

  // ------------------------------------------------------- store invariant

  /** No two items share an id. */
  predicate IdsDistinct(items: seq<CanvasImage>)
  {
    forall i, j :: 0 <= i < j < |items| ==> items[i].id != items[j].id
  }

  /** Every id was handed out before `issued`. */
  predicate IssuedBefore(items: seq<CanvasImage>, issued: nat)
  {
    forall i :: 0 <= i < |items| ==> items[i].id.serial < issued
  }

  /** Every stored zoom lies in [1, 8]: items start at 1 and every later
      zoom comes out of `coerceIn(1f, 8f)`. */
  predicate ScalesInRange(items: seq<CanvasImage>)
  {
    forall i :: 0 <= i < |items| ==> MinZoom <= items[i].userScale <= MaxZoom
  }

  /** A patch that writes a zoom writes one in [1, 8]. */
  predicate PatchInRange(p: Patch)
  {
    p.SetUserScale? ==> MinZoom <= p.userScale <= MaxZoom
  }

  lemma UpdateKeepsScales(items: seq<CanvasImage>, id: Id, p: Patch)
    requires ScalesInRange(items) && PatchInRange(p)
    ensures ScalesInRange(UpdateFirst(items, id, p))
  {
    forall i | 0 <= i < |items|
      ensures MinZoom <= UpdateFirst(items, id, p)[i].userScale <= MaxZoom
    {
      UpdateTouchesOnlyTarget(items, id, p, i);
    }
  }

  lemma MovedToEndKeepsScales(items: seq<CanvasImage>, i: int)
    requires 0 <= i < |items| && ScalesInRange(items)
    ensures ScalesInRange(MovedToEnd(items, i))
  {
    forall j | 0 <= j < |items|
      ensures MinZoom <= MovedToEnd(items, i)[j].userScale <= MaxZoom
    {
      MovedToEndIndex(items, i, j);
    }
  }

  lemma UpdateKeepsIds(items: seq<CanvasImage>, id: Id, p: Patch, issued: nat)
    requires IdsDistinct(items) && IssuedBefore(items, issued)
    ensures IdsDistinct(UpdateFirst(items, id, p)) && IssuedBefore(UpdateFirst(items, id, p), issued)
  {
  }

  lemma {:induction false} MovedToEndKeepsIds(items: seq<CanvasImage>, i: int, issued: nat)
    requires 0 <= i < |items|
    requires IdsDistinct(items) && IssuedBefore(items, issued)
    ensures IdsDistinct(MovedToEnd(items, i)) && IssuedBefore(MovedToEnd(items, i), issued)
  {
    var r := MovedToEnd(items, i);
    var n := |items|;
    forall a, b | 0 <= a < b < n ensures r[a].id != r[b].id {
      MovedToEndIndex(items, i, a);
      MovedToEndIndex(items, i, b);
      var sa, sb := MovedSource(n, i, a), MovedSource(n, i, b);
      assert sa != sb;
      if sa < sb { assert items[sa].id != items[sb].id; } else { assert items[sb].id != items[sa].id; }
    }
    forall a | 0 <= a < n ensures r[a].id.serial < issued {
      MovedToEndIndex(items, i, a);
    }
  }

  /** `bringToFront`: move the first item with the id to the end unless it is
      already last (or absent). */
  function BroughtToFront(items: seq<CanvasImage>, id: Id): seq<CanvasImage>
  {
    var k := FirstIndex(items, id);
    if 0 <= k < |items| - 1 then MovedToEnd(items, k) else items
  }

  // ------------------------------------------------------- load states

  /** The UI state for one emission of the load pipeline. */
  function UiStateFor(ds: DataState): (s: CarouselUiState)
    ensures ds.Success? ==> s == CarouselUiState(false, ds.data.images, None)
    ensures ds.Error? ==> !s.loading && s.error == Some(ds.message) && s.images == []
    ensures ds.Loading? ==> s.loading && s.images == [] && s.error == None
  {
    match ds
    case Success(data) => InitialUiState.(images := data.images)
    case Error(message) => InitialUiState.(loading := false, error := Some(message))
    case Loading => InitialUiState.(loading := true)
  }

  /** The state shown once the whole pipeline has been collected: the images
      after a successful repository call, otherwise its error, never loading. */
  lemma LoadSettles(outcome: RepositoryOutcome)
    ensures var s := UiStateFor(GetImages(outcome)[1]);
            !s.loading &&
            (outcome.Returned? ==> s.images == outcome.response.images && s.error == None) &&
            (outcome.Threw? ==> s.error.Some? && s.images == [])
  {
  }

  // ------------------------------------------------------- the store

  class CarouselViewModel {
    var canvasImages: seq<CanvasImage>
    var uiState: CarouselUiState
    /** Fresh-id oracle standing for UUID generation: the serials handed out so far. */
    var issued: nat

    ghost predicate Valid()
      reads this
    {
      IdsDistinct(canvasImages) && IssuedBefore(canvasImages, issued) && ScalesInRange(canvasImages)
    }

    constructor ()
      ensures Valid()
      ensures canvasImages == [] && uiState == InitialUiState
    {
      canvasImages := [];
      uiState := InitialUiState;
      issued := 0;
    }

    /** `addCanvasImage`: append a new item with a fresh id. */
    method AddCanvasImage(bm: Bitmap, offset: Offset, userScale: real := 1.0)
      requires Valid() && MinZoom <= userScale <= MaxZoom
      modifies this`canvasImages, this`issued
      ensures Valid()
      ensures canvasImages == old(canvasImages) + [CanvasImage(Uuid(old(issued)), bm, offset, userScale, Zero)]
      ensures forall i :: 0 <= i < |old(canvasImages)| ==> old(canvasImages)[i].id != Uuid(old(issued))
    {
      var id := Uuid(issued);
      issued := issued + 1;
      canvasImages := canvasImages + [CanvasImage(id, bm, offset, userScale, Zero)];
    }

    /** The shared body of the three `update*` operations. */
    method Update(id: Id, p: Patch)
      requires Valid() && PatchInRange(p)
      modifies this`canvasImages
      ensures Valid()
      ensures canvasImages == UpdateFirst(old(canvasImages), id, p)
    {
      var idx := IndexOfFirst(canvasImages, id);
      UpdateFirstIsIndexedWrite(canvasImages, id, p);
      UpdateKeepsIds(canvasImages, id, p, issued);
      UpdateKeepsScales(canvasImages, id, p);
      if idx >= 0 {
        canvasImages := canvasImages[idx := Apply(canvasImages[idx], p)];
      }
    }

    method UpdateOffset(id: Id, offset: Offset)
      requires Valid()
      modifies this`canvasImages
      ensures Valid()
      ensures canvasImages == UpdateFirst(old(canvasImages), id, SetOffset(offset))
    {
      Update(id, SetOffset(offset));
    }

    method UpdateUserScale(id: Id, userScale: real)
      requires Valid() && MinZoom <= userScale <= MaxZoom
      modifies this`canvasImages
      ensures Valid()
      ensures canvasImages == UpdateFirst(old(canvasImages), id, SetUserScale(userScale))
    {
      Update(id, SetUserScale(userScale));
    }

    method UpdateImageTranslation(id: Id, translation: Offset)
      requires Valid()
      modifies this`canvasImages
      ensures Valid()
      ensures canvasImages == UpdateFirst(old(canvasImages), id, SetTranslation(translation))
    {
      Update(id, SetTranslation(translation));
    }

    /** `loadImages`: `onStart` shows loading, then every emission of the
        pipeline replaces the UI state through `UiStateFor`. */
    method LoadImages(outcome: RepositoryOutcome)
      modifies this`uiState
      ensures uiState == UiStateFor(GetImages(outcome)[1])
    {
      uiState := InitialUiState.(loading := true);
      var emissions := GetImages(outcome);
      for i := 0 to |emissions|
        invariant i > 0 ==> uiState == UiStateFor(emissions[i - 1])
      {
        uiState := UiStateFor(emissions[i]);
      }
    }
  }
}
