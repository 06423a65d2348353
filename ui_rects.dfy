/** The rectangle intersection of ui_macros.h, over microui's integer rectangles. */
module UiRects {

  /** `mu_Rect`: the corner at (x, y), w wide and h high. */
  datatype Rect = Rect(x: int, y: int, w: int, h: int)

  function Max(a: int, b: int): int { if a > b then a else b }
  function Min(a: int, b: int): int { if a < b then a else b }

  /** `intersect_rects`: the larger of the two left and top edges, and the smaller of
      the two right and bottom edges, pulled back to the left or top edge when they
      would lie before it. */
  function Intersect(r1: Rect, r2: Rect): (r: Rect)
    ensures r.x == Max(r1.x, r2.x) && r.y == Max(r1.y, r2.y)
    ensures r.w == Max(0, Min(r1.x + r1.w, r2.x + r2.w) - r.x)
    ensures r.h == Max(0, Min(r1.y + r1.h, r2.y + r2.h) - r.y)
    ensures r.w >= 0 && r.h >= 0
  {
    var x1 := Max(r1.x, r2.x);
    var y1 := Max(r1.y, r2.y);
    var x2 := Min(r1.x + r1.w, r2.x + r2.w);
    var y2 := Min(r1.y + r1.h, r2.y + r2.h);
    var x2' := if x2 < x1 then x1 else x2;
    var y2' := if y2 < y1 then y1 else y2;
    Rect(x1, y1, x2' - x1, y2' - y1)
  }

  /** A point lies in a rectangle when it is on or after its left and top edges and
      before its right and bottom edges. */
  predicate Contains(r: Rect, px: int, py: int)
  {
    r.x <= px < r.x + r.w && r.y <= py < r.y + r.h
  }

  /** The order of the arguments does not matter. */
  lemma IntersectCommutes(r1: Rect, r2: Rect)
    ensures Intersect(r1, r2) == Intersect(r2, r1)
  {
  }

  /** A rectangle with no negative extent intersected with itself is itself. */
  lemma IntersectSelf(r: Rect)
    requires r.w >= 0 && r.h >= 0
    ensures Intersect(r, r) == r
  {
  }

  /** The points of the intersection are exactly the points of both rectangles; in
      particular a non-empty intersection lies inside each of them. */
  lemma IntersectContains(r1: Rect, r2: Rect, px: int, py: int)
    ensures Contains(Intersect(r1, r2), px, py) <==> Contains(r1, px, py) && Contains(r2, px, py)
  {
  }

  /** A non-empty intersection has its corners inside both rectangles' bounds. */
  lemma IntersectInside(r1: Rect, r2: Rect)
    requires Intersect(r1, r2).w > 0 && Intersect(r1, r2).h > 0
    ensures var r := Intersect(r1, r2);
      r1.x <= r.x && r.x + r.w <= r1.x + r1.w && r1.y <= r.y && r.y + r.h <= r1.y + r1.h
      && r2.x <= r.x && r.x + r.w <= r2.x + r2.w && r2.y <= r.y && r.y + r.h <= r2.y + r2.h
  {
  }
}
