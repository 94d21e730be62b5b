/**
 * Bresenham/line.py: draw_line, the integer Bresenham rasteriser that sets
 * the traced cells of a 2D image to 1. The model states the pixels it
 * writes in closed form: after normalisation the t-th pixel lies t steps
 * along the major axis and Rise(t) steps along the minor one.
 */
module BresenhamLine {

  function Abs(a: int): nat { if a < 0 then -a else a }

  function Max(a: int, b: int): int { if a < b then b else a }

  function Min(a: int, b: int): int { if a < b then a else b }

  /**
   * The line after draw_line's two swaps: steep when the y extent exceeds the
   * x extent (the coordinates are then transposed), and ordered so that the
   * major coordinate runs from ax up to ex.
   */
  datatype Norm = Norm(steep: bool, ax: int, ay: int, ex: int, ey: int)

  function Normalize(x1: int, y1: int, x2: int, y2: int): Norm
  {
    var steep := Abs(y2 - y1) > Abs(x2 - x1);
    var a1, b1, a2, b2 := if steep then y1 else x1, if steep then x1 else y1,
                          if steep then y2 else x2, if steep then x2 else y2;
    if a1 > a2 then Norm(steep, a2, b2, a1, b1) else Norm(steep, a1, b1, a2, b2)
  }

  /** The recomputed dx and dy. */
  function DX(n: Norm): int { n.ex - n.ax }

  function DY(n: Norm): nat { Abs(n.ey - n.ay) }

  /** What normalisation guarantees: the major coordinate increases and dominates. */
  predicate Normalized(n: Norm)
  {
    n.ax <= n.ex && DY(n) <= DX(n)
  }

  /** The image index (row, column) a normalised point is written to: transposed back when steep. */
  function Cell(n: Norm, x: int, y: int): (int, int)
  {
    if n.steep then (y, x) else (x, y)
  }

  /** After the swaps x1 <= x2 and dy <= dx, and the endpoints are the caller's, possibly exchanged. */
  lemma NormalizeFacts(x1: int, y1: int, x2: int, y2: int)
    ensures Normalized(Normalize(x1, y1, x2, y2))
    ensures var n := Normalize(x1, y1, x2, y2);
      (Cell(n, n.ax, n.ay) == (x1, y1) && Cell(n, n.ex, n.ey) == (x2, y2)) ||
      (Cell(n, n.ax, n.ay) == (x2, y2) && Cell(n, n.ex, n.ey) == (x1, y1))
  {
  }

  /** Giving the endpoints in the other order normalises to the same line. */
  lemma NormalizeSymmetric(x1: int, y1: int, x2: int, y2: int)
    ensures Normalize(x1, y1, x2, y2) == Normalize(x2, y2, x1, y1)
  {
  }

  /** y_step. */
  function YStep(n: Norm): int { if n.ay < n.ey then 1 else -1 }

  /** The initial error, int(dx / 2). */
  function E0(n: Norm): int { DX(n) / 2 }

  /** How many times the error has gone negative in the first t iterations: ceil((t * dy - e0) / dx). */
  function Rise(n: Norm, t: int): int
  {
    if DX(n) == 0 then 0 else (t * DY(n) - E0(n) + DX(n) - 1) / DX(n)
  }

  /** The error at the top of iteration t. */
  function ErrorAt(n: Norm, t: int): int
  {
    E0(n) - t * DY(n) + Rise(n, t) * DX(n)
  }

  /** A nonzero multiple of b is at least b away from 0. */
  lemma MulGap(d: int, b: int)
    requires b > 0
    ensures d == 0 || d * b >= b || d * b <= -b
  {
    if d > 0 {
      MulAtLeast(d, b);
    } else if d < 0 {
      MulAtLeast(-d, b);
    }
  }

  lemma {:induction false} MulAtLeast(d: int, b: int)
    requires d >= 1 && b > 0
    ensures d * b >= b
    decreases d
  {
    if d > 1 {
      MulAtLeast(d - 1, b);
      assert d * b == (d - 1) * b + b;
    }
  }

  /** Euclidean division is determined by any quotient and remainder in range. */
  lemma DivUnique(a: int, b: int, q: int, r: int)
    requires b > 0 && 0 <= r < b && a == q * b + r
    ensures a / b == q && a % b == r
  {
    var q', r' := a / b, a % b;
    assert (q - q') * b == r' - r;
    MulGap(q - q', b);
  }

  /** The error stays in [0, max(dx, 1)), and one iteration updates the error and the rise as draw_line does. */
  lemma ErrorStep(n: Norm, t: int)
    requires Normalized(n) && 0 <= t
    ensures 0 <= ErrorAt(n, t) < Max(DX(n), 1)
    ensures var e := ErrorAt(n, t) - DY(n);
      if e < 0 then Rise(n, t + 1) == Rise(n, t) + 1 && ErrorAt(n, t + 1) == e + DX(n)
      else Rise(n, t + 1) == Rise(n, t) && ErrorAt(n, t + 1) == e
  {
    var dx, dy := DX(n), DY(n);
    if dx > 0 {
      var a := t * dy - E0(n) + dx - 1;
      var q, r := a / dx, a % dx;
      assert a == q * dx + r;
      assert ErrorAt(n, t) == dx - 1 - r;
      var a' := (t + 1) * dy - E0(n) + dx - 1;
      assert a' == a + dy;
      if r + dy >= dx {
        DivUnique(a', dx, q + 1, r + dy - dx);
      } else {
        DivUnique(a', dx, q, r + dy);
      }
    }
  }

  /** Rise starts at 0, ends at dy, and moves by 0 or 1 per step. */
  lemma RiseSteps(n: Norm, t: int)
    requires Normalized(n) && 0 <= t
    ensures Rise(n, 0) == 0 && Rise(n, DX(n)) == DY(n)
    ensures Rise(n, t) <= Rise(n, t + 1) <= Rise(n, t) + 1
  {
    ErrorStep(n, t);
    var dx, dy := DX(n), DY(n);
    if dx > 0 {
      DivUnique(dx - 1 - E0(n), dx, 0, dx - 1 - E0(n));
      assert dx * dy - E0(n) + dx - 1 == dy * dx + (dx - 1 - E0(n));
      DivUnique(dx * dy - E0(n) + dx - 1, dx, dy, dx - 1 - E0(n));
    }
  }

  /** The rise is never negative. */
  lemma RiseNonnegative(n: Norm, t: int)
    requires Normalized(n) && 0 <= t
    ensures 0 <= Rise(n, t)
  {
    if DX(n) > 0 {
      var a := t * DY(n) - E0(n) + DX(n) - 1;
      assert 0 <= t * DY(n);
      assert 0 <= a;
    }
  }

  /** Between the endpoints the rise stays within [0, dy], and it can still reach dy. */
  lemma {:induction false} RiseBounds(n: Norm, t: int)
    requires Normalized(n) && 0 <= t <= DX(n)
    ensures 0 <= Rise(n, t) <= DY(n)
    ensures DY(n) - Rise(n, t) <= DX(n) - t
    decreases DX(n) - t
  {
    RiseNonnegative(n, t);
    RiseSteps(n, t);
    if t < DX(n) {
      RiseBounds(n, t + 1);
    }
  }

  /** The t-th pixel in normalised coordinates. */
  function Point(n: Norm, t: int): (int, int)
  {
    (n.ax + t, n.ay + YStep(n) * Rise(n, t))
  }

  /** The loop's variables at the top of an iteration. */
  datatype LineState = LineState(error: int, y: int)

  /** One iteration: error -= dy, and when it drops below 0, y += y_step and error += dx. */
  function Step(n: Norm, s: LineState): LineState
  {
    var e := s.error - DY(n);
    if e < 0 then LineState(e + DX(n), s.y + YStep(n)) else LineState(e, s.y)
  }

  /** The state at the top of iteration t, starting from error = int(dx / 2) and y = y1. */
  function StateAt(n: Norm, t: nat): LineState
  {
    if t == 0 then LineState(E0(n), n.ay) else Step(n, StateAt(n, t - 1))
  }

  /** The loop's state agrees with the closed form: its error is ErrorAt(t) and its y is ay + y_step * Rise(t). */
  lemma {:induction false} StateClosedForm(n: Norm, t: nat)
    requires Normalized(n)
    ensures StateAt(n, t) == LineState(ErrorAt(n, t), Point(n, t).1)
  {
    if t == 0 {
      RiseSteps(n, 0);
    } else {
      StateClosedForm(n, t - 1);
      ErrorStep(n, t - 1);
      var e := ErrorAt(n, t - 1) - DY(n);
      assert StateAt(n, t) == Step(n, LineState(ErrorAt(n, t - 1), Point(n, t - 1).1));
      if e < 0 {
        assert YStep(n) * (Rise(n, t - 1) + 1) == YStep(n) * Rise(n, t - 1) + YStep(n);
        assert Point(n, t).1 == Point(n, t - 1).1 + YStep(n);
      } else {
        assert Point(n, t).1 == Point(n, t - 1).1;
      }
    }
  }

  /** At the top of every iteration 0 <= error < max(dx, 1). */
  lemma StateErrorBounds(n: Norm, t: nat)
    requires Normalized(n)
    ensures 0 <= StateAt(n, t).error < Max(DX(n), 1)
  {
    StateClosedForm(n, t);
    ErrorStep(n, t);
  }

  /** The cell the loop sets in iteration t. */
  function Pixel(n: Norm, t: nat): (int, int)
  {
    Cell(n, n.ax + t, StateAt(n, t).y)
  }

  /** The cells the first k iterations set, in order. */
  function Traced(n: Norm, k: nat): (ps: seq<(int, int)>)
    ensures |ps| == k
    ensures forall t :: 0 <= t < k ==> ps[t] == Pixel(n, t)
  {
    if k == 0 then [] else Traced(n, k - 1) + [Pixel(n, k - 1)]
  }

  /** The same cells as a set: what the image ends up marked with. */
  function TracedSet(n: Norm, k: nat): set<(int, int)>
  {
    if k == 0 then {} else TracedSet(n, k - 1) + {Pixel(n, k - 1)}
  }

  lemma {:induction false} TracedSetMembers(n: Norm, k: nat)
    ensures forall p :: p in TracedSet(n, k) <==> p in Traced(n, k)
  {
    if k > 0 {
      TracedSetMembers(n, k - 1);
    }
  }

  /** The cells the loop sets for a normalised line: one per major value ax .. ex. */
  function NormPixels(n: Norm): (ps: seq<(int, int)>)
    requires Normalized(n)
    ensures |ps| == DX(n) + 1
  {
    Traced(n, DX(n) + 1)
  }

  /** The cells draw_line(x1, y1, x2, y2, image) sets. */
  function LinePixels(x1: int, y1: int, x2: int, y2: int): (ps: seq<(int, int)>)
    ensures |ps| == DX(Normalize(x1, y1, x2, y2)) + 1
  {
    NormalizeFacts(x1, y1, x2, y2);
    NormPixels(Normalize(x1, y1, x2, y2))
  }

  /** The t-th traced pixel is the closed-form point t, transposed back when steep. */
  lemma LinePixelsClosedForm(x1: int, y1: int, x2: int, y2: int)
    ensures var n, ps := Normalize(x1, y1, x2, y2), LinePixels(x1, y1, x2, y2);
      forall t :: 0 <= t < |ps| ==> ps[t] == Cell(n, Point(n, t).0, Point(n, t).1)
  {
    NormalizeFacts(x1, y1, x2, y2);
    var n, ps := Normalize(x1, y1, x2, y2), LinePixels(x1, y1, x2, y2);
    forall t | 0 <= t < |ps| ensures ps[t] == Cell(n, Point(n, t).0, Point(n, t).1) {
      StateClosedForm(n, t);
    }
  }

  /**
   * dx + 1 pixels, one for each major value in turn; the minor coordinate
   * moves by 0 or y_step per pixel and runs from the first endpoint's to the
   * last's.
   */
  lemma LinePixelsShape(x1: int, y1: int, x2: int, y2: int)
    ensures |LinePixels(x1, y1, x2, y2)| == Max(Abs(x2 - x1), Abs(y2 - y1)) + 1
    ensures var n := Normalize(x1, y1, x2, y2);
      forall t :: 0 <= t < DX(n) ==>
        Point(n, t + 1).0 == Point(n, t).0 + 1 &&
        (Point(n, t + 1).1 == Point(n, t).1 || Point(n, t + 1).1 == Point(n, t).1 + YStep(n))
    ensures var n := Normalize(x1, y1, x2, y2);
      Point(n, 0) == (n.ax, n.ay) && Point(n, DX(n)) == (n.ex, n.ey)
  {
    NormalizeFacts(x1, y1, x2, y2);
    var n := Normalize(x1, y1, x2, y2);
    RiseSteps(n, 0);
    forall t | 0 <= t < DX(n)
      ensures Point(n, t + 1).1 == Point(n, t).1 || Point(n, t + 1).1 == Point(n, t).1 + YStep(n)
    {
      RiseSteps(n, t);
    }
    assert n.ay + YStep(n) * DY(n) == n.ey;
  }

  /** Both endpoints are written: the first pixel is one endpoint and the last the other. */
  lemma LineEndpoints(x1: int, y1: int, x2: int, y2: int)
    ensures var ps := LinePixels(x1, y1, x2, y2);
      (ps[0] == (x1, y1) && ps[|ps| - 1] == (x2, y2)) || (ps[0] == (x2, y2) && ps[|ps| - 1] == (x1, y1))
    ensures (x1, y1) in LinePixels(x1, y1, x2, y2) && (x2, y2) in LinePixels(x1, y1, x2, y2)
  {
    NormalizeFacts(x1, y1, x2, y2);
    LinePixelsShape(x1, y1, x2, y2);
    LinePixelsClosedForm(x1, y1, x2, y2);
  }

  /** The traced pixels are the same whichever endpoint is given first. */
  lemma LineSymmetric(x1: int, y1: int, x2: int, y2: int)
    ensures LinePixels(x1, y1, x2, y2) == LinePixels(x2, y2, x1, y1)
  {
    NormalizeSymmetric(x1, y1, x2, y2);
  }

  /** Every traced pixel lies in the bounding box of the two endpoints. */
  lemma LineInBox(x1: int, y1: int, x2: int, y2: int)
    ensures forall p :: p in LinePixels(x1, y1, x2, y2) ==>
      Min(x1, x2) <= p.0 <= Max(x1, x2) && Min(y1, y2) <= p.1 <= Max(y1, y2)
  {
    NormalizeFacts(x1, y1, x2, y2);
    var n := Normalize(x1, y1, x2, y2);
    var ps := LinePixels(x1, y1, x2, y2);
    LinePixelsClosedForm(x1, y1, x2, y2);
    forall t | 0 <= t < |ps|
      ensures Min(x1, x2) <= ps[t].0 <= Max(x1, x2) && Min(y1, y2) <= ps[t].1 <= Max(y1, y2)
    {
      CellInBox(n, t);
    }
  }

  /** The t-th cell of a normalised line lies in the box of its two end cells. */
  lemma CellInBox(n: Norm, t: int)
    requires Normalized(n) && 0 <= t <= DX(n)
    ensures var p, a, e := Cell(n, Point(n, t).0, Point(n, t).1), Cell(n, n.ax, n.ay), Cell(n, n.ex, n.ey);
      Min(a.0, e.0) <= p.0 <= Max(a.0, e.0) && Min(a.1, e.1) <= p.1 <= Max(a.1, e.1)
  {
    RiseBounds(n, t);
  }

  /**
   * The loop of draw_line over a normalised line: for x in ax .. ex, set
   * the cell of (x, y), then update the error and y.
   */
  method TraceLine(n: Norm, image: array2<int>)
    requires Normalized(n)
    requires forall t: nat :: t <= DX(n) ==> 0 <= Pixel(n, t).0 < image.Length0 && 0 <= Pixel(n, t).1 < image.Length1
    modifies image
    ensures forall r, c :: 0 <= r < image.Length0 && 0 <= c < image.Length1 ==>
      image[r, c] == (if (r, c) in TracedSet(n, DX(n) + 1) then 1 else old(image[r, c]))
  {
    var dx: int := Abs(n.ex - n.ax);
    var dy: int := Abs(n.ey - n.ay);
    var error: int := dx / 2;
    var yStep := if n.ay < n.ey then 1 else -1;
    var y := n.ay;
    ghost var t: nat := 0;
    for x := n.ax to n.ex + 1
      invariant t == x - n.ax
      invariant StateAt(n, t) == LineState(error, y)
      invariant forall r, c :: 0 <= r < image.Length0 && 0 <= c < image.Length1 ==>
        image[r, c] == (if (r, c) in TracedSet(n, t) then 1 else old(image[r, c]))
    {
      var coord := if n.steep then (y, x) else (x, y);
      assert coord == Pixel(n, t);
      image[coord.0, coord.1] := 1;
      ghost var next := Step(n, LineState(error, y));
      error := error - dy;
      if error < 0 {
        y := y + yStep;
        error := error + dx;
      }
      assert LineState(error, y) == next;
      t := t + 1;
    }
  }

  /**
   * draw_line(x1, y1, x2, y2, image): the steep swap and the endpoint swap,
   * then the loop; image[coord] = 1 for every traced pixel and every other
   * cell is unchanged. The caller's endpoints lie inside the image.
   */
  method DrawLine(x1: int, y1: int, x2: int, y2: int, image: array2<int>)
    requires 0 <= x1 < image.Length0 && 0 <= x2 < image.Length0
    requires 0 <= y1 < image.Length1 && 0 <= y2 < image.Length1
    modifies image
    ensures forall r, c :: 0 <= r < image.Length0 && 0 <= c < image.Length1 ==>
      image[r, c] == (if (r, c) in LinePixels(x1, y1, x2, y2) then 1 else old(image[r, c]))
  {
    var ax, ay, ex, ey := x1, y1, x2, y2;
    var dx: int := Abs(ex - ax);
    var dy: int := Abs(ey - ay);
    var steep := dy > dx;
    if steep {
      ax, ay := ay, ax;
      ex, ey := ey, ex;
    }
    if ax > ex {
      ax, ex := ex, ax;
      ay, ey := ey, ay;
    }
    var n := Norm(steep, ax, ay, ex, ey);
    assert n == Normalize(x1, y1, x2, y2);
    NormalizeFacts(x1, y1, x2, y2);
    LineInBox(x1, y1, x2, y2);
    forall t: nat | t <= DX(n)
      ensures 0 <= Pixel(n, t).0 < image.Length0 && 0 <= Pixel(n, t).1 < image.Length1
    {
      assert Pixel(n, t) == LinePixels(x1, y1, x2, y2)[t];
    }
    TraceLine(n, image);
    TracedSetMembers(n, DX(n) + 1);
  }
}
