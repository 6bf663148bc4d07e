/** The point-in-rectangle test used to decide whether a drop lands on the canvas. */
module Extensions {
  import opened Models

  /** Kotlin's `Float.roundToInt()`: the nearest integer, ties towards
      positive infinity (Java's `Math.round`). */
  function RoundToInt(v: real): (r: int)
    ensures r as real - 0.5 <= v < r as real + 0.5
  {
    (v + 0.5).Floor
  }

  /** The rounded integer is the only one within half a pixel (ties upwards). */
  lemma RoundToIntUnique(v: real, n: int)
    requires n as real - 0.5 <= v < n as real + 0.5
    ensures RoundToInt(v) == n
  {
  }

  /** `IntRect.contains(Offset)`: round the point, then test both ranges
      with all four edges inclusive. */
  predicate Contains(rect: IntRect, p: Offset)
  {
    var x := RoundToInt(p.x);
    var y := RoundToInt(p.y);
    rect.left <= x <= rect.right && rect.top <= y <= rect.bottom
  }

  /** The same test stated on the unrounded point: the accepted region is the
      rectangle grown by half a pixel, closed on the left/top, open on the
      right/bottom. */
  lemma ContainsCharacterisation(rect: IntRect, p: Offset)
    ensures Contains(rect, p) <==>
      (rect.left as real - 0.5 <= p.x < rect.right as real + 0.5 &&
       rect.top as real - 0.5 <= p.y < rect.bottom as real + 0.5)
  {
    var x, y := RoundToInt(p.x), RoundToInt(p.y);
    assert rect.left <= x <==> rect.left as real - 0.5 <= p.x;
    assert x <= rect.right <==> p.x < rect.right as real + 0.5;
    assert rect.top <= y <==> rect.top as real - 0.5 <= p.y;
    assert y <= rect.bottom <==> p.y < rect.bottom as real + 0.5;
  }

  /** All four edges and corners of the rectangle are inside. */
  lemma ContainsInclusiveEdges(rect: IntRect, x: int, y: int)
    requires rect.left <= x <= rect.right && rect.top <= y <= rect.bottom
    ensures Contains(rect, Offset(x as real, y as real))
    ensures Contains(rect, Offset(rect.left as real, y as real))
    ensures Contains(rect, Offset(rect.right as real, y as real))
    ensures Contains(rect, Offset(x as real, rect.top as real))
    ensures Contains(rect, Offset(x as real, rect.bottom as real))
  {
    RoundToIntUnique(x as real, x);
    RoundToIntUnique(y as real, y);
    RoundToIntUnique(rect.left as real, rect.left);
    RoundToIntUnique(rect.right as real, rect.right);
    RoundToIntUnique(rect.top as real, rect.top);
    RoundToIntUnique(rect.bottom as real, rect.bottom);
  }

  /** One rounded coordinate outside its range is enough to reject the point. */
  lemma ContainsRejectsEitherAxis(rect: IntRect, p: Offset)
    requires RoundToInt(p.x) < rect.left || RoundToInt(p.x) > rect.right ||
             RoundToInt(p.y) < rect.top || RoundToInt(p.y) > rect.bottom
    ensures !Contains(rect, p)
  {
  }

  /** A drop at (150, 50) is outside the canvas {0, 0, 100, 100}; half a pixel
      beyond the right edge is outside, just under half a pixel is inside. */
  lemma ContainsExamples()
    ensures !Contains(IntRect(0, 0, 100, 100), Offset(150.0, 50.0))
    ensures !Contains(IntRect(0, 0, 100, 100), Offset(100.5, 50.0))
    ensures Contains(IntRect(0, 0, 100, 100), Offset(100.4, 50.0))
    ensures Contains(IntRect(0, 0, 100, 100), Offset(-0.5, 0.0))
  {
    ContainsCharacterisation(IntRect(0, 0, 100, 100), Offset(150.0, 50.0));
    ContainsCharacterisation(IntRect(0, 0, 100, 100), Offset(100.5, 50.0));
    ContainsCharacterisation(IntRect(0, 0, 100, 100), Offset(100.4, 50.0));
    ContainsCharacterisation(IntRect(0, 0, 100, 100), Offset(-0.5, 0.0));
  }
}
