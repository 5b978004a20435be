/** Points on the panel and the bounds checks that decide whether a cursor
    position, a rectangle or a triangle may be drawn. Coordinates grow to the
    right and downwards from the top-left corner (0,0). */
module Geometry {
  import opened TextUtil

  datatype Point = Point(x: int, y: int)

  /** The size of the drawing panel (Panel.Width and Panel.Height). */
  datatype Panel = Panel(width: nat, height: nat)

  /** A panel whose size is an Int32, as a Windows Forms panel's is. */
  predicate IsPanel(panel: Panel) {
    panel.width <= Int32Max && panel.height <= Int32Max
  }

  /** IsInsidePanel: both coordinates within the panel, edges included. */
  predicate IsInsidePanel(p: Point, panel: Panel) {
    p.x >= 0 && p.y >= 0 && p.x <= panel.width && p.y <= panel.height
  }

  // ---------------------------------------------------------------------------
  // Integer square root, for the triangle's height

  /** The integer square root, by halving: the root of n is twice the root
      of n/4, or one more. */
  function ISqrt(n: nat): nat
    decreases n
  {
    if n < 4 then (if n == 0 then 0 else 1)
    else
      var r0 := ISqrt(n / 4);
      if (2 * r0 + 1) * (2 * r0 + 1) <= n then 2 * r0 + 1 else 2 * r0
  }

  /** ISqrt(n) is the largest r with r*r <= n. */
  lemma {:induction false} ISqrtBounds(n: nat)
    ensures var r := ISqrt(n); r * r <= n < (r + 1) * (r + 1)
    decreases n
  {
    if n >= 4 {
      ISqrtBounds(n / 4);
      ISqrtStep(n, ISqrt(n / 4));
    }
  }

  /** The root of n lies between twice the root of n/4 and one more than that. */
  lemma ISqrtStep(n: nat, r0: nat)
    requires r0 * r0 <= n / 4 < (r0 + 1) * (r0 + 1)
    ensures (2 * r0) * (2 * r0) <= n < (2 * r0 + 2) * (2 * r0 + 2)
  {
    var q := n / 4;
    assert (2 * r0) * (2 * r0) == 4 * (r0 * r0);
    assert (2 * r0 + 2) * (2 * r0 + 2) == 4 * ((r0 + 1) * (r0 + 1));
    assert q + 1 <= (r0 + 1) * (r0 + 1);
    assert n <= 4 * q + 3;
  }

  /** The root is unique: any r with r*r <= n < (r+1)*(r+1) is ISqrt(n). */
  lemma ISqrtUnique(n: nat, r: nat)
    requires r * r <= n < (r + 1) * (r + 1)
    ensures r == ISqrt(n)
  {
    var s := ISqrt(n);
    ISqrtBounds(n);
    if r < s {
      MonotoneSquare(r + 1, s);
      assert false;
    } else if s < r {
      MonotoneSquare(s + 1, r);
      assert false;
    }
  }

  lemma MonotoneSquare(a: nat, b: nat)
    requires a <= b
    ensures a * a <= b * b
  {
    assert a * a <= a * b <= b * b;
  }

  // ---------------------------------------------------------------------------
  // The triangle command's geometry

  /** (int)(Math.Sqrt(3) / 2 * size): the height of the equilateral triangle,
      computed exactly as half the integer root of 3*size*size. */
  function TriangleHeight(size: nat): nat {
    ISqrt(3 * size * size) / 2
  }

  /** (int)(height / 2): half the height, rounded down. */
  function TriangleHalfHeight(size: nat): nat {
    ISqrt(3 * size * size) / 4
  }

  /** (int)(size / 2.0): half the side, rounded down. */
  function HalfSide(size: nat): nat {
    size / 2
  }

  /** The top, bottom-left and bottom-right vertices of the triangle drawn
      with its anchor at cursor `c`. */
  function TriangleVertices(c: Point, size: nat): (v: seq<Point>) {
    [Point(c.x, c.y - TriangleHeight(size)),
     Point(c.x - HalfSide(size), c.y + TriangleHalfHeight(size)),
     Point(c.x + HalfSide(size), c.y + TriangleHalfHeight(size))]
  }

  /** The triangle check: every vertex lies inside the panel. */
  predicate TriangleFits(c: Point, size: nat, panel: Panel) {
    var v := TriangleVertices(c, size);
    IsInsidePanel(v[0], panel) && IsInsidePanel(v[1], panel) && IsInsidePanel(v[2], panel)
  }

  /** The computed height is the floor of the real height sqrt(3)/2 * size:
      2h <= sqrt(3)*size < 2h + 2, squared. */
  lemma TriangleHeightIsFloor(size: nat)
    ensures var h := TriangleHeight(size);
      4 * (h * h) <= 3 * size * size < 4 * ((h + 1) * (h + 1))
  {
    ISqrtBounds(3 * size * size);
    HalfOfRoot(3 * size * size, ISqrt(3 * size * size));
  }

  /** If r is the floor of sqrt(n), then r/2 is the floor of sqrt(n)/2. */
  lemma HalfOfRoot(n: int, r: nat)
    requires r * r <= n < (r + 1) * (r + 1)
    ensures var h := r / 2; 4 * (h * h) <= n < 4 * ((h + 1) * (h + 1))
  {
    var h := r / 2;
    MonotoneSquare(2 * h, r);
    MonotoneSquare(r + 1, 2 * h + 2);
    assert (2 * h) * (2 * h) == 4 * (h * h);
    assert (2 * h + 2) * (2 * h + 2) == 4 * ((h + 1) * (h + 1));
  }

  /** The half height is the floor of sqrt(3)/4 * size. */
  lemma TriangleHalfHeightIsFloor(size: nat)
    ensures var q := TriangleHalfHeight(size);
      16 * (q * q) <= 3 * size * size < 16 * ((q + 1) * (q + 1))
  {
    TriangleHeightIsFloor(size);
    HalfOfTriangleHeight(size);
    HalfOfFloor(3 * size * size, TriangleHeight(size));
  }

  /** If h is the floor of sqrt(n)/2, then h/2 is the floor of sqrt(n)/4. */
  lemma HalfOfFloor(n: int, h: nat)
    requires 4 * (h * h) <= n < 4 * ((h + 1) * (h + 1))
    ensures var q := h / 2; 16 * (q * q) <= n < 16 * ((q + 1) * (q + 1))
  {
    var q := h / 2;
    MonotoneSquare(2 * q, h);
    MonotoneSquare(h + 1, 2 * q + 2);
    assert 4 * ((2 * q) * (2 * q)) == 16 * (q * q);
    assert 4 * ((2 * q + 2) * (2 * q + 2)) == 16 * ((q + 1) * (q + 1));
  }

  /** Half the height, rounded down, is the half height the code computes. */
  lemma HalfOfTriangleHeight(size: nat)
    ensures TriangleHalfHeight(size) == TriangleHeight(size) / 2
  {
  }

  /** For a cursor inside the panel, the triangle fits exactly when its top
      stays at or below the top edge, its bottom at or above the bottom edge
      and its half side within both side edges. */
  lemma TriangleFitsIff(c: Point, size: nat, panel: Panel)
    requires IsInsidePanel(c, panel)
    ensures TriangleFits(c, size, panel) <==>
      TriangleHeight(size) <= c.y && c.y + TriangleHalfHeight(size) <= panel.height &&
      HalfSide(size) <= c.x && c.x + HalfSide(size) <= panel.width
  {
  }

  // ---------------------------------------------------------------------------
  // The rectangle command's bounds check

  /** The rectangle check as the interpreter states it: the cursor plus the
      WIDTH must stay within the panel on both axes; the height is never
      compared with anything. */
  predicate RectangleFits(c: Point, width: int, panel: Panel) {
    c.x + width <= panel.width && c.y + width <= panel.height
  }

  /** A rectangle that passes the check starts inside the panel and ends
      within it horizontally. */
  lemma RectangleFitsHorizontally(c: Point, width: int, panel: Panel)
    requires IsInsidePanel(c, panel) && width > 0 && RectangleFits(c, width, panel)
    ensures 0 <= c.x < c.x + width <= panel.width
  {
  }

  /** Unchecked Int32 addition as C# performs it: the sum wraps modulo 2^32
      into [Int32Min, Int32Max]. */
  function Wrap32(v: int): (r: int)
    ensures Int32Min <= r <= Int32Max
    ensures Int32Min <= v <= Int32Max ==> r == v
  {
    (v - Int32Min) % 0x1_0000_0000 + Int32Min
  }

  /** The rectangle check as the code evaluates it, with `currentX + width`
      and `currentY + width` computed in 32-bit arithmetic. */
  predicate RectangleFitsAsWritten(c: Point, width: int, panel: Panel) {
    !(Wrap32(c.x + width) > panel.width) && !(Wrap32(c.y + width) > panel.height)
  }

  /** Without overflow the two readings agree. */
  lemma RectangleFitsAgree(c: Point, width: int, panel: Panel)
    requires Int32Min <= c.x + width <= Int32Max && Int32Min <= c.y + width <= Int32Max
    ensures RectangleFitsAsWritten(c, width, panel) == RectangleFits(c, width, panel)
  {
  }

  /** With the cursor at (1,1) on an 800x600 panel, a width of Int32Max wraps
      `currentX + width` to Int32Min, so the check as written lets through a
      rectangle that reaches far beyond the panel. */
  lemma RectangleOverflowSlipsThrough()
    ensures RectangleFitsAsWritten(Point(1, 1), Int32Max, Panel(800, 600))
    ensures !RectangleFits(Point(1, 1), Int32Max, Panel(800, 600))
  {
    assert Wrap32(1 + Int32Max) == Int32Min;
  }
}
