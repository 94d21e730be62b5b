/**
 * Bresenham/circle.py: the midpoint circle loop of draw_bresenham_circle
 * and the eight symmetric points of draw_circle. Plotting is recorded as
 * the list of points that would be plotted, in plotting order.
 */
module BresenhamCircle {

  /** draw_circle(xc, yc, x, y): the eight points it plots, in the order it plots them. */
  function Octants(xc: int, yc: int, x: int, y: int): (ps: seq<(int, int)>)
    ensures |ps| == 8
    ensures forall k :: 0 <= k < 8 ==>
      (ps[k].0 - xc) * (ps[k].0 - xc) + (ps[k].1 - yc) * (ps[k].1 - yc) == x * x + y * y
  {
    [(xc + x, yc + y), (xc - x, yc + y), (xc + x, yc - y), (xc - x, yc - y),
     (xc + y, yc + x), (xc - y, yc + x), (xc + y, yc - x), (xc - y, yc - x)]
  }

  /**
   * The eight points are closed under the symmetries of the circle about
   * (xc, yc): mirroring in either axis and in the diagonal.
   */
  lemma OctantsSymmetric(xc: int, yc: int, x: int, y: int)
    ensures forall p :: p in Octants(xc, yc, x, y) ==>
      (2 * xc - p.0, p.1) in Octants(xc, yc, x, y) &&
      (p.0, 2 * yc - p.1) in Octants(xc, yc, x, y) &&
      (xc + (p.1 - yc), yc + (p.0 - xc)) in Octants(xc, yc, x, y)
  {
    var ps := Octants(xc, yc, x, y);
    forall p | p in ps
      ensures (2 * xc - p.0, p.1) in ps && (p.0, 2 * yc - p.1) in ps && (xc + (p.1 - yc), yc + (p.0 - xc)) in ps
    {
      if p == ps[0] {
        assert (2 * xc - p.0, p.1) == ps[1] && (p.0, 2 * yc - p.1) == ps[2] && (xc + (p.1 - yc), yc + (p.0 - xc)) == ps[4];
      } else if p == ps[1] {
        assert (2 * xc - p.0, p.1) == ps[0] && (p.0, 2 * yc - p.1) == ps[3] && (xc + (p.1 - yc), yc + (p.0 - xc)) == ps[6];
      } else if p == ps[2] {
        assert (2 * xc - p.0, p.1) == ps[3] && (p.0, 2 * yc - p.1) == ps[0] && (xc + (p.1 - yc), yc + (p.0 - xc)) == ps[5];
      } else if p == ps[3] {
        assert (2 * xc - p.0, p.1) == ps[2] && (p.0, 2 * yc - p.1) == ps[1] && (xc + (p.1 - yc), yc + (p.0 - xc)) == ps[7];
      } else if p == ps[4] {
        assert (2 * xc - p.0, p.1) == ps[5] && (p.0, 2 * yc - p.1) == ps[6] && (xc + (p.1 - yc), yc + (p.0 - xc)) == ps[0];
      } else if p == ps[5] {
        assert (2 * xc - p.0, p.1) == ps[4] && (p.0, 2 * yc - p.1) == ps[7] && (xc + (p.1 - yc), yc + (p.0 - xc)) == ps[2];
      } else if p == ps[6] {
        assert (2 * xc - p.0, p.1) == ps[7] && (p.0, 2 * yc - p.1) == ps[4] && (xc + (p.1 - yc), yc + (p.0 - xc)) == ps[1];
      } else {
        assert p == ps[7];
        assert (2 * xc - p.0, p.1) == ps[6] && (p.0, 2 * yc - p.1) == ps[5] && (xc + (p.1 - yc), yc + (p.0 - xc)) == ps[3];
      }
    }
  }

  /** The loop's variables x, y and the decision variable d. */
  datatype CircleState = CircleState(x: int, y: int, d: int)

  /** x = 0, y = r, d = 3 - 2r. */
  function Start(r: int): CircleState
  {
    CircleState(0, r, 3 - 2 * r)
  }

  /** One iteration: x += 1, then y -= 1 with d += 4(x - y) + 10 when d > 0, else d += 4x + 6. */
  function Step(s: CircleState): CircleState
  {
    var x := s.x + 1;
    if s.d > 0 then CircleState(x, s.y - 1, s.d + 4 * (x - (s.y - 1)) + 10)
    else CircleState(x, s.y, s.d + 4 * x + 6)
  }

  /** The loop runs while y >= x; y - x falls by at least one per iteration. */
  function Measure(s: CircleState): nat
  {
    if s.y >= s.x then s.y - s.x + 1 else 0
  }

  /** The states the loop plots after s, one per iteration, until y < x. */
  function Run(s: CircleState): seq<CircleState>
    decreases Measure(s)
  {
    if s.y >= s.x then [Step(s)] + Run(Step(s)) else []
  }

  /** Every state draw_bresenham_circle(xc, yc, r) plots: the start, then one per iteration. */
  function CircleStates(r: int): (ss: seq<CircleState>)
    ensures |ss| >= 1 && ss[0] == Start(r)
  {
    [Start(r)] + Run(Start(r))
  }

  /** The eight points of each state, in order. */
  function PointsOf(xc: int, yc: int, ss: seq<CircleState>): (ps: seq<(int, int)>)
    ensures |ps| == 8 * |ss|
  {
    if ss == [] then [] else Octants(xc, yc, ss[0].x, ss[0].y) + PointsOf(xc, yc, ss[1..])
  }

  /** All points draw_bresenham_circle(xc, yc, r) plots, in order. */
  function CirclePoints(xc: int, yc: int, r: int): (ps: seq<(int, int)>)
    ensures |ps| == 8 * |CircleStates(r)|
  {
    PointsOf(xc, yc, CircleStates(r))
  }

  /** The closed form of the decision variable. */
  function Decision(x: int, y: int, r: int): int
  {
    2 * (x + 2) * (x + 2) + 2 * y * y - 6 * y - 2 * r * r + 4 * r - 5
  }

  /** d agrees with its closed form at this state. */
  predicate OnClosedForm(s: CircleState, r: int)
  {
    s.d == Decision(s.x, s.y, r)
  }

  /** Both update rules keep d equal to its closed form; x grows by one, and y falls by one exactly when d > 0. */
  lemma StepKeepsDecision(s: CircleState, r: int)
    requires OnClosedForm(s, r)
    ensures OnClosedForm(Step(s), r)
    ensures Step(s).x == s.x + 1
    ensures Step(s).y == (if s.d > 0 then s.y - 1 else s.y)
  {
    var x, y := s.x, s.y;
    if s.d > 0 {
      assert Decision(x + 1, y - 1, r) - Decision(x, y, r) == 4 * ((x + 1) - (y - 1)) + 10;
    } else {
      assert Decision(x + 1, y, r) - Decision(x, y, r) == 4 * (x + 1) + 6;
    }
  }

  /** The start satisfies the closed form: 3 - 2r == Decision(0, r, r). */
  lemma StartDecision(r: int)
    ensures OnClosedForm(Start(r), r)
  {
  }

  /**
   * The run from s: each state is one Step of the one before, the loop
   * condition held before each, it fails after the last, and there are at
   * most Measure(s) iterations.
   */
  lemma {:induction false} RunShape(s: CircleState)
    ensures var ss := Run(s);
      (|ss| > 0 ==> ss[0] == Step(s) && s.y >= s.x) &&
      (forall k :: 0 <= k < |ss| - 1 ==> ss[k + 1] == Step(ss[k]) && ss[k].y >= ss[k].x) &&
      (|ss| > 0 ==> ss[|ss| - 1].y < ss[|ss| - 1].x) &&
      |ss| <= Measure(s)
    decreases Measure(s)
  {
    if s.y >= s.x {
      RunShape(Step(s));
      var ss := Run(s);
      assert ss == [Step(s)] + Run(Step(s));
    }
  }

  /** Every state of the run from a state on the closed form is on the closed form. */
  lemma {:induction false} RunDecision(s: CircleState, r: int)
    requires OnClosedForm(s, r)
    ensures forall k :: 0 <= k < |Run(s)| ==> OnClosedForm(Run(s)[k], r)
    decreases Measure(s)
  {
    if s.y >= s.x {
      StepKeepsDecision(s, r);
      RunDecision(Step(s), r);
      assert Run(s) == [Step(s)] + Run(Step(s));
    }
  }

  /**
   * What the loop promises: it starts at (0, r) with d = 3 - 2r; each
   * iteration advances x by one and lowers y by one exactly when d > 0;
   * d keeps its closed form; it stops with y < x, after at most r + 1
   * iterations (none when r < 0).
   */
  lemma CircleStatesFacts(r: int)
    ensures var ss := CircleStates(r);
      ss[0] == CircleState(0, r, 3 - 2 * r) &&
      (forall k :: 0 <= k < |ss| ==> ss[k].d == Decision(ss[k].x, ss[k].y, r)) &&
      (forall k :: 0 <= k < |ss| - 1 ==>
        ss[k + 1].x == ss[k].x + 1 && ss[k].y >= ss[k].x &&
        ss[k + 1].y == (if ss[k].d > 0 then ss[k].y - 1 else ss[k].y)) &&
      ss[|ss| - 1].y < ss[|ss| - 1].x &&
      |ss| - 1 <= (if r >= 0 then r + 1 else 0)
  {
    var s := Start(r);
    StartDecision(r);
    RunShape(s);
    RunDecision(s, r);
    var ss := CircleStates(r);
    forall k | 0 <= k < |ss| ensures OnClosedForm(ss[k], r) {
      if k > 0 {
        assert ss[k] == Run(s)[k - 1];
      }
    }
    forall k | 0 <= k < |ss| - 1
      ensures ss[k + 1].x == ss[k].x + 1 && ss[k].y >= ss[k].x
      ensures ss[k + 1].y == (if ss[k].d > 0 then ss[k].y - 1 else ss[k].y)
    {
      assert ss[k + 1] == Step(ss[k]);
    }
  }

  /** The points of a list of states are the eight points of each, state by state. */
  lemma {:induction false} PointsOfAppend(xc: int, yc: int, ss: seq<CircleState>, tt: seq<CircleState>)
    ensures PointsOf(xc, yc, ss + tt) == PointsOf(xc, yc, ss) + PointsOf(xc, yc, tt)
    decreases |ss|
  {
    if ss != [] {
      assert (ss + tt)[1..] == ss[1..] + tt;
      PointsOfAppend(xc, yc, ss[1..], tt);
    } else {
      assert ss + tt == tt;
    }
  }

  /** The eight points of state k sit at positions 8k .. 8k + 7 of the plotted list. */
  lemma {:induction false} PointsOfIndex(xc: int, yc: int, ss: seq<CircleState>, k: int)
    requires 0 <= k < |ss|
    ensures PointsOf(xc, yc, ss)[8 * k .. 8 * k + 8] == Octants(xc, yc, ss[k].x, ss[k].y)
    decreases k
  {
    if k > 0 {
      PointsOfIndex(xc, yc, ss[1..], k - 1);
      assert PointsOf(xc, yc, ss)[8 * k .. 8 * k + 8] == PointsOf(xc, yc, ss[1..])[8 * (k - 1) .. 8 * (k - 1) + 8];
    }
  }

  /**
   * draw_bresenham_circle(xc, yc, r): the points plotted for the start,
   * then for the state after each iteration while y >= x.
   */
  method DrawBresenhamCircle(xc: int, yc: int, r: int) returns (points: seq<(int, int)>)
    ensures points == CirclePoints(xc, yc, r)
  {
    var x := 0;
    var y := r;
    var d := 3 - 2 * r;
    points := Octants(xc, yc, x, y);
    while y >= x
      invariant points + PointsOf(xc, yc, Run(CircleState(x, y, d))) == CirclePoints(xc, yc, r)
      decreases Measure(CircleState(x, y, d))
    {
      ghost var s := CircleState(x, y, d);
      assert Run(s) == [Step(s)] + Run(Step(s));
      PointsOfAppend(xc, yc, [Step(s)], Run(Step(s)));
      x := x + 1;
      if d > 0 {
        y := y - 1;
        d := d + 4 * (x - y) + 10;
      } else {
        d := d + 4 * x + 6;
      }
      assert CircleState(x, y, d) == Step(s);
      points := points + Octants(xc, yc, x, y);
    }
  }
}
