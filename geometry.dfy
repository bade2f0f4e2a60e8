/** Axis-aligned rectangles, the collision test every minigame uses, and the
    clamping helpers used for screen and level bounds. Coordinates are reals
    (pixels), with no floating-point rounding. */
module Geometry {

  /** A rectangle with its top-left corner at (x, y). */
  datatype Rect = Rect(x: real, y: real, width: real, height: real)

  /** Strict overlap: rectangles that only share an edge do not collide. */
  predicate Overlaps(a: Rect, b: Rect)
  {
    a.x < b.x + b.width && a.x + a.width > b.x &&
    a.y < b.y + b.height && a.y + a.height > b.y
  }

  /** For rectangles of positive size, the collision test holds exactly
      when the two horizontal spans and the two vertical spans each share a
      stretch of positive length. */
  lemma OverlapsMeansSpansMeet(a: Rect, b: Rect)
    requires a.width > 0.0 && a.height > 0.0 && b.width > 0.0 && b.height > 0.0
    ensures Overlaps(a, b) <==> Max(a.x, b.x) < Min(a.x + a.width, b.x + b.width) &&
                                Max(a.y, b.y) < Min(a.y + a.height, b.y + b.height)
  {
  }

  /** The collision test does not depend on the order of its arguments. */
  lemma OverlapsSymmetric(a: Rect, b: Rect)
    ensures Overlaps(a, b) <==> Overlaps(b, a)
  {
  }

  /** Two rectangles that touch along a vertical or a horizontal edge, one
      lying entirely to the left of (or above) the other, never collide. */
  lemma TouchingEdgesDoNotOverlap(a: Rect, b: Rect)
    requires a.x + a.width == b.x || a.y + a.height == b.y
    ensures !Overlaps(a, b) && !Overlaps(b, a)
  {
  }

  /** Overlap of rectangles with positive size means they share an interior
      point: the midpoint of the intersection lies strictly inside both. */
  lemma OverlapWitness(a: Rect, b: Rect)
    requires a.width > 0.0 && a.height > 0.0 && b.width > 0.0 && b.height > 0.0
    requires Overlaps(a, b)
    ensures var px := (Max(a.x, b.x) + Min(a.x + a.width, b.x + b.width)) / 2.0;
            var py := (Max(a.y, b.y) + Min(a.y + a.height, b.y + b.height)) / 2.0;
            a.x < px < a.x + a.width && b.x < px < b.x + b.width &&
            a.y < py < a.y + a.height && b.y < py < b.y + b.height
  {
  }

  /** A random draw r in [0, 1) scales a non-negative width w to a point
      of [0, w]. */
  lemma ScaleWithin(r: real, w: real)
    requires 0.0 <= r < 1.0 && w >= 0.0
    ensures 0.0 <= r * w <= w
  {
    assert w - r * w == (1.0 - r) * w;
  }

  lemma ProductNonNegative(a: real, b: real)
    requires a >= 0.0 && b >= 0.0
    ensures a * b >= 0.0
  {
  }

  function Max(a: real, b: real): (r: real)
    ensures r >= a && r >= b && (r == a || r == b)
  {
    if a >= b then a else b
  }

  function Min(a: real, b: real): (r: real)
    ensures r <= a && r <= b && (r == a || r == b)
  {
    if a <= b then a else b
  }

  /** `Math.max(lo, Math.min(hi, v))`: the value is brought into [lo, hi]
      when that interval is non-empty, and it is `lo` otherwise. */
  function Clamp(v: real, lo: real, hi: real): (r: real)
    ensures lo <= r
    ensures lo <= hi ==> r <= hi
    ensures lo <= v <= hi ==> r == v
    ensures lo <= hi && v < lo ==> r == lo
    ensures lo <= hi && v > hi ==> r == hi
  {
    Max(lo, Min(hi, v))
  }

  function Abs(v: real): (r: real)
    ensures r >= 0.0 && (r == v || r == -v)
  {
    if v < 0.0 then -v else v
  }

  /** Squared Euclidean distance; the source compares `Math.sqrt` of this
      against thresholds, which is the same as comparing the squares. */
  function Dist2(x1: real, y1: real, x2: real, y2: real): (r: real)
    ensures r >= 0.0
  {
    (x1 - x2) * (x1 - x2) + (y1 - y2) * (y1 - y2)
  }
}

/** The keyboard codes (`KeyboardEvent.code`) the games read. A held-key map
    `keysRef.current` is modelled as the set of codes currently held. */
module Keys {
  datatype Key =
    | ArrowLeft | ArrowRight | ArrowUp | ArrowDown
    | KeyA | KeyD | KeyW | KeyS | KeyF | KeyR | KeyH
    | Space | Enter
    | OtherKey(code: string)

  predicate LeftHeld(keys: set<Key>) { ArrowLeft in keys || KeyA in keys }
  predicate RightHeld(keys: set<Key>) { ArrowRight in keys || KeyD in keys }
  predicate UpHeld(keys: set<Key>) { ArrowUp in keys || KeyW in keys }
  predicate DownHeld(keys: set<Key>) { ArrowDown in keys || KeyS in keys }
}

/** A value that may be absent (`null` / `undefined` in the source). */
module Options {
  datatype Option<T> = None | Some(value: T)
}
