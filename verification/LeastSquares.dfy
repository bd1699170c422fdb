/** The quadratic least-squares fit of bench/cold_prefill_curve.py, over exact reals.

    `FitQuadratic` builds the normal equations and solves them by Gauss-Jordan elimination with
    partial pivoting on a mutable 3x4 matrix.  A Python ZeroDivisionError is the result `None`. */
module LeastSquares {
  import opened Base

  datatype Point = Point(n: real, t: real)

  datatype Quadratic = Quadratic(a: real, b: real, c: real) {
    function At(n: real): real { a + b * n + c * (n * n) }
    function Minus(q: Quadratic): Quadratic { Quadratic(a - q.a, b - q.b, c - q.c) }
  }

  const ZERO := Quadratic(0.0, 0.0, 0.0)

  // ---- the problem: squared residuals and distinct abscissae ----------------

  function Square(x: real): (s: real)
    ensures s >= 0.0
  {
    x * x
  }

  lemma SquarePositive(x: real)
    requires x != 0.0
    ensures Square(x) > 0.0
  {
    var i := 1.0 / x;
    assert x * i == 1.0;
    assert (x * x) * i == x * (x * i);
  }

  lemma SquareZero(x: real)
    requires Square(x) <= 0.0
    ensures x == 0.0
  {
    if x != 0.0 { SquarePositive(x); }
  }

  function Sum(xs: seq<real>): real {
    if xs == [] then 0.0 else xs[0] + Sum(xs[1..])
  }

  /** The squared residuals of `q`, point by point. */
  function Errors(points: seq<Point>, q: Quadratic): (s: seq<real>)
    ensures |s| == |points|
    ensures forall k :: 0 <= k < |s| ==> s[k] == Square(q.At(points[k].n) - points[k].t)
  {
    seq(|points|, k requires 0 <= k < |points| => Square(q.At(points[k].n) - points[k].t))
  }

  /** Sum of squared residuals of `q` on the points. */
  function Residual(points: seq<Point>, q: Quadratic): real { Sum(Errors(points, q)) }

  ghost predicate ThreeAbscissae(points: seq<Point>) {
    exists i, j, k :: 0 <= i < |points| && 0 <= j < |points| && 0 <= k < |points|
      && points[i].n != points[j].n && points[i].n != points[k].n && points[j].n != points[k].n
  }

  // ---- normal equations -----------------------------------------------------

  /** One equation x*a + y*b + z*c = w of a linear system. */
  datatype Row = Row(x: real, y: real, z: real, w: real) {
    function Entry(i: nat): real
      requires i < 4
    {
      if i == 0 then x else if i == 1 then y else if i == 2 then z else w
    }

    function Coef(col: nat): real
      requires col < 3
    {
      if col == 0 then x else if col == 1 then y else z
    }

    function Dot(q: Quadratic): real { q.a * x + q.b * y + q.c * z }

    predicate Holds(q: Quadratic, h: real) { Dot(q) == h * w }

    /** Row minus `f` times `p`, entry by entry. */
    function Less(f: real, p: Row): Row { Row(x - f * p.x, y - f * p.y, z - f * p.z, w - f * p.w) }
  }

  /** The design rows (1, n, n*n, t), one a point. */
  function Design(points: seq<Point>): (rows: seq<Row>)
    ensures |rows| == |points|
    ensures forall i :: 0 <= i < |points| ==> rows[i] == Row(1.0, points[i].n, points[i].n * points[i].n, points[i].t)
  {
    seq(|points|, i requires 0 <= i < |points| =>
      Row(1.0, points[i].n, points[i].n * points[i].n, points[i].t))
  }

  function Products(rows: seq<Row>, i: nat, j: nat): (s: seq<real>)
    requires i < 4 && j < 4
    ensures |s| == |rows|
    ensures forall k :: 0 <= k < |s| ==> s[k] == rows[k].Entry(i) * rows[k].Entry(j)
  {
    seq(|rows|, k requires 0 <= k < |rows| => rows[k].Entry(i) * rows[k].Entry(j))
  }

  function Moment(rows: seq<Row>, i: nat, j: nat): real
    requires i < 4 && j < 4
  {
    Sum(Products(rows, i, j))
  }

  function NormalRow(rows: seq<Row>, i: nat): Row
    requires i < 3
  {
    Row(Moment(rows, i, 0), Moment(rows, i, 1), Moment(rows, i, 2), Moment(rows, i, 3))
  }

  function NormalSystem(points: seq<Point>): seq<Row> {
    var rows := Design(points);
    [NormalRow(rows, 0), NormalRow(rows, 1), NormalRow(rows, 2)]
  }

  /** `q` solves the system with its right-hand side scaled by `h`: h = 1 is the system itself,
      h = 0 its homogeneous form, whose solutions are the kernel of the matrix. */
  ghost predicate Solves(m: seq<Row>, q: Quadratic, h: real)
    requires |m| == 3
  {
    m[0].Holds(q, h) && m[1].Holds(q, h) && m[2].Holds(q, h)
  }

  /** Column `col` is zero off the diagonal and non-zero on it. */
  ghost predicate Cleared(m: seq<Row>, col: nat)
    requires |m| == 3 && col < 3
  {
    m[col].Coef(col) != 0.0 && forall r :: 0 <= r < 3 && r != col ==> m[r].Coef(col) == 0.0
  }

  // ---- elimination preserves the solutions ----------------------------------

  /** Clear column `col` with the row that stands on the diagonal. */
  function Eliminate(m: seq<Row>, col: nat): (e: seq<Row>)
    requires |m| == 3 && col < 3 && m[col].Coef(col) != 0.0
    ensures |e| == 3
  {
    seq(3, r requires 0 <= r < 3 =>
      if r == col then m[r] else m[r].Less(m[r].Coef(col) / m[col].Coef(col), m[col]))
  }

  function Swap(m: seq<Row>, i: nat, j: nat): (s: seq<Row>)
    requires i < |m| && j < |m|
    ensures |s| == |m|
  {
    m[i := m[j]][j := m[i]]
  }

  lemma LessDot(r: Row, f: real, p: Row, q: Quadratic)
    ensures r.Less(f, p).Dot(q) == r.Dot(q) - f * p.Dot(q)
  {
    assert (r.x - f * p.x) * q.a == r.x * q.a - f * (p.x * q.a);
    assert (r.y - f * p.y) * q.b == r.y * q.b - f * (p.y * q.b);
    assert (r.z - f * p.z) * q.c == r.z * q.c - f * (p.z * q.c);
    assert f * p.Dot(q) == f * (p.x * q.a) + f * (p.y * q.b) + f * (p.z * q.c);
  }

  lemma LessKeeps(r: Row, f: real, p: Row, q: Quadratic, h: real)
    requires p.Holds(q, h)
    ensures r.Less(f, p).Holds(q, h) <==> r.Holds(q, h)
  {
    LessDot(r, f, p, q);
    assert h * (r.w - f * p.w) == h * r.w - f * (h * p.w);
  }

  lemma EliminateKeeps(m: seq<Row>, col: nat, q: Quadratic, h: real)
    requires |m| == 3 && col < 3 && m[col].Coef(col) != 0.0
    ensures Solves(Eliminate(m, col), q, h) <==> Solves(m, q, h)
  {
    var e := Eliminate(m, col);
    assert e[col] == m[col];
    if m[col].Holds(q, h) {
      RowKeeps(m, col, 0, q, h);
      RowKeeps(m, col, 1, q, h);
      RowKeeps(m, col, 2, q, h);
    } else {
      assert !e[col].Holds(q, h);
    }
  }

  lemma RowKeeps(m: seq<Row>, col: nat, r: nat, q: Quadratic, h: real)
    requires |m| == 3 && col < 3 && m[col].Coef(col) != 0.0 && r < 3
    requires m[col].Holds(q, h)
    ensures Eliminate(m, col)[r].Holds(q, h) <==> m[r].Holds(q, h)
  {
    if r != col { LessKeeps(m[r], m[r].Coef(col) / m[col].Coef(col), m[col], q, h); }
  }

  /** Clearing column `col` keeps the columns cleared before it and clears `col`. */
  lemma EliminateClears(m: seq<Row>, col: nat, c: nat)
    requires |m| == 3 && c <= col < 3 && m[col].Coef(col) != 0.0
    requires c < col ==> Cleared(m, c)
    ensures Cleared(Eliminate(m, col), c)
  {
    var e, p := Eliminate(m, col), m[col];
    forall r: nat | r < 3 && r != col
      ensures e[r].Coef(c) == if c == col then 0.0 else m[r].Coef(c)
    {
      LessCoef(m[r], m[r].Coef(col) / p.Coef(col), p, c);
      if c < col { assert p.Coef(c) == 0.0; }
    }
  }

  lemma LessCoef(r: Row, f: real, p: Row, c: nat)
    requires c < 3
    ensures r.Less(f, p).Coef(c) == r.Coef(c) - f * p.Coef(c)
  {
  }

  /** When every candidate pivot of column `col` is zero the matrix has a non-zero kernel. */
  lemma NoPivot(m: seq<Row>, col: nat) returns (q: Quadratic)
    requires |m| == 3 && col < 3
    requires forall j :: 0 <= j < col ==> Cleared(m, j)
    requires forall r :: col <= r < 3 ==> m[r].Coef(col) == 0.0
    ensures q != ZERO && Solves(m, q, 0.0)
  {
    if col == 0 {
      q := Quadratic(1.0, 0.0, 0.0);
    } else if col == 1 {
      assert Cleared(m, 0);
      var u := -m[0].y / m[0].x;
      assert m[0].x * u == -m[0].y;
      q := Quadratic(u, 1.0, 0.0);
    } else {
      assert Cleared(m, 0) && Cleared(m, 1);
      var u, v := -m[0].z / m[0].x, -m[1].z / m[1].y;
      assert m[0].x * u == -m[0].z && m[1].y * v == -m[1].z;
      q := Quadratic(u, v, 1.0);
    }
  }

  /** A matrix that is diagonal has only the solution read off its diagonal. */
  lemma DiagonalSolution(m: seq<Row>, q: Quadratic, h: real)
    requires |m| == 3 && Cleared(m, 0) && Cleared(m, 1) && Cleared(m, 2)
    ensures Solves(m, q, h) <==>
            q == Quadratic(h * m[0].w / m[0].x, h * m[1].w / m[1].y, h * m[2].w / m[2].z)
  {
    assert Cleared(m, 0) && Cleared(m, 1) && Cleared(m, 2);
    assert m[0].Dot(q) == m[0].x * q.a && m[1].Dot(q) == m[1].y * q.b && m[2].Dot(q) == m[2].z * q.c;
    Quotient(m[0].x, q.a, h * m[0].w);
    Quotient(m[1].y, q.b, h * m[1].w);
    Quotient(m[2].z, q.c, h * m[2].w);
  }

  lemma Quotient(d: real, q: real, w: real)
    requires d != 0.0
    ensures d * q == w <==> q == w / d
  {
    assert d * (w / d) == w;
    if d * q == w { assert d * (q - w / d) == 0.0; }
  }

  // ---- the normal equations and the residual --------------------------------

  /** `s` is the combination of `x`, `y` and `z` with the coefficients of `q`. */
  ghost predicate Combines(s: seq<real>, x: seq<real>, y: seq<real>, z: seq<real>, q: Quadratic) {
    && |s| == |x| == |y| == |z|
    && forall k :: 0 <= k < |s| ==> s[k] == q.a * x[k] + q.b * y[k] + q.c * z[k]
  }

  /** A row whose coefficients are sums, applied to `q`, is the sum of the combination. */
  lemma {:induction false} SumLinear(s: seq<real>, x: seq<real>, y: seq<real>, z: seq<real>, r: Row, q: Quadratic)
    requires Combines(s, x, y, z, q)
    requires r.x == Sum(x) && r.y == Sum(y) && r.z == Sum(z)
    ensures r.Dot(q) == Sum(s)
  {
    if s != [] {
      CombinesTail(s, x, y, z, q);
      var tail := Row(Sum(x[1..]), Sum(y[1..]), Sum(z[1..]), 0.0);
      SumLinear(s[1..], x[1..], y[1..], z[1..], tail, q);
      AddDot(Row(x[0], y[0], z[0], 0.0), tail, r, q);
    }
  }

  lemma CombinesTail(s: seq<real>, x: seq<real>, y: seq<real>, z: seq<real>, q: Quadratic)
    requires Combines(s, x, y, z, q) && s != []
    ensures s[0] == Row(x[0], y[0], z[0], 0.0).Dot(q)
    ensures Combines(s[1..], x[1..], y[1..], z[1..], q)
  {
  }

  lemma AddDot(r: Row, s: Row, t: Row, q: Quadratic)
    requires t.x == r.x + s.x && t.y == r.y + s.y && t.z == r.z + s.z
    ensures t.Dot(q) == r.Dot(q) + s.Dot(q)
  {
  }

  lemma {:induction false} SumNonNegative(s: seq<real>)
    requires forall k :: 0 <= k < |s| ==> s[k] >= 0.0
    ensures Sum(s) >= 0.0
    ensures forall k :: 0 <= k < |s| ==> s[k] <= Sum(s)
  {
    if s != [] { SumNonNegative(s[1..]); }
  }

  lemma {:induction false} SumZeros(s: seq<real>)
    requires forall k :: 0 <= k < |s| ==> s[k] == 0.0
    ensures Sum(s) == 0.0
  {
    if s != [] { SumZeros(s[1..]); }
  }

  /** Entry `i` of each design row times the row's value at `q`. */
  ghost function Projected(rows: seq<Row>, i: nat, q: Quadratic): (s: seq<real>)
    requires i < 3
    ensures |s| == |rows|
    ensures forall k :: 0 <= k < |s| ==> s[k] == rows[k].Entry(i) * rows[k].Dot(q)
  {
    seq(|rows|, k requires 0 <= k < |rows| => rows[k].Entry(i) * rows[k].Dot(q))
  }

  ghost function Squares(rows: seq<Row>, q: Quadratic): (s: seq<real>)
    ensures |s| == |rows|
    ensures forall k :: 0 <= k < |s| ==> s[k] == Square(rows[k].Dot(q))
  {
    seq(|rows|, k requires 0 <= k < |rows| => Square(rows[k].Dot(q)))
  }

  ghost function Energy(rows: seq<Row>, q: Quadratic): real { Sum(Squares(rows, q)) }

  lemma Scale(f: real, r: Row, q: Quadratic)
    ensures f * r.Dot(q) == q.a * (f * r.x) + q.b * (f * r.y) + q.c * (f * r.z)
  {
    var u, v, w := r.x * q.a, r.y * q.b, r.z * q.c;
    assert f * (u + v + w) == f * u + f * v + f * w;
    assert f * u == q.a * (f * r.x) && f * v == q.b * (f * r.y) && f * w == q.c * (f * r.z);
  }

  lemma ProjectedCombines(rows: seq<Row>, i: nat, q: Quadratic)
    requires i < 3
    ensures Combines(Projected(rows, i, q), Products(rows, i, 0), Products(rows, i, 1), Products(rows, i, 2), q)
  {
    forall k | 0 <= k < |rows|
      ensures Projected(rows, i, q)[k]
          == q.a * Products(rows, i, 0)[k] + q.b * Products(rows, i, 1)[k] + q.c * Products(rows, i, 2)[k]
    {
      ScaleEntry(rows[k], i, q);
    }
  }

  lemma ScaleEntry(p: Row, i: nat, q: Quadratic)
    requires i < 3
    ensures p.Entry(i) * p.Dot(q)
         == q.a * (p.Entry(i) * p.Entry(0)) + q.b * (p.Entry(i) * p.Entry(1)) + q.c * (p.Entry(i) * p.Entry(2))
  {
    Scale(p.Entry(i), p, q);
  }

  /** Row `i` of the normal equations applied to `q` sums the values of `q` weighted by entry `i`. */
  lemma NormalRowDot(rows: seq<Row>, i: nat, q: Quadratic)
    requires i < 3
    ensures NormalRow(rows, i).Dot(q) == Sum(Projected(rows, i, q))
  {
    ProjectedCombines(rows, i, q);
    SumLinear(Projected(rows, i, q), Products(rows, i, 0), Products(rows, i, 1), Products(rows, i, 2),
        NormalRow(rows, i), q);
  }

  lemma SquaresCombine(rows: seq<Row>, q: Quadratic)
    ensures Combines(Squares(rows, q), Projected(rows, 0, q), Projected(rows, 1, q), Projected(rows, 2, q), q)
  {
    forall k | 0 <= k < |rows|
      ensures Squares(rows, q)[k]
          == q.a * Projected(rows, 0, q)[k] + q.b * Projected(rows, 1, q)[k] + q.c * Projected(rows, 2, q)[k]
    {
      ScaleValue(rows[k].Dot(q), rows[k], q);
    }
  }

  lemma ScaleValue(v: real, p: Row, q: Quadratic)
    ensures v * p.Dot(q) == q.a * (p.Entry(0) * v) + q.b * (p.Entry(1) * v) + q.c * (p.Entry(2) * v)
  {
    Scale(v, p, q);
  }

  lemma EnergyIsProjected(rows: seq<Row>, q: Quadratic)
    ensures Energy(rows, q)
         == Row(Sum(Projected(rows, 0, q)), Sum(Projected(rows, 1, q)), Sum(Projected(rows, 2, q)), 0.0).Dot(q)
  {
    SquaresCombine(rows, q);
    SumLinear(Squares(rows, q), Projected(rows, 0, q), Projected(rows, 1, q), Projected(rows, 2, q),
              Row(Sum(Projected(rows, 0, q)), Sum(Projected(rows, 1, q)), Sum(Projected(rows, 2, q)), 0.0), q);
  }

  /** A quadratic that vanishes at three distinct abscissae is zero. */
  lemma ThreeRoots(q: Quadratic, u: real, v: real, w: real)
    requires u != v && u != w && v != w
    requires q.At(u) == 0.0 && q.At(v) == 0.0 && q.At(w) == 0.0
    ensures q == ZERO
  {
    Slope(q, u, v);
    Slope(q, u, w);
    assert q.c * (u + v) - q.c * (u + w) == q.c * (v - w);
    assert q.c == 0.0;
    assert q.c * (u + v) == 0.0;
  }

  lemma Slope(q: Quadratic, u: real, v: real)
    requires u != v && q.At(u) == q.At(v)
    ensures q.b + q.c * (u + v) == 0.0
  {
    assert (u - v) * (u + v) == u * u - v * v;
    assert q.c * (u * u) - q.c * (v * v) == q.c * (u * u - v * v) == q.c * ((u + v) * (u - v))
        == (q.c * (u + v)) * (u - v);
    assert (q.b + q.c * (u + v)) * (u - v) == q.b * (u - v) + (q.c * (u + v)) * (u - v);
    assert (q.b + q.c * (u + v)) * (u - v) == 0.0;
  }

  ghost predicate Vanishes(points: seq<Point>, q: Quadratic) {
    forall i :: 0 <= i < |points| ==> q.At(points[i].n) == 0.0
  }

  lemma VanishesEverywhere(points: seq<Point>, q: Quadratic)
    requires ThreeAbscissae(points) && Vanishes(points, q)
    ensures q == ZERO
  {
    var i, j, k :| 0 <= i < |points| && 0 <= j < |points| && 0 <= k < |points|
      && points[i].n != points[j].n && points[i].n != points[k].n && points[j].n != points[k].n;
    ThreeRoots(q, points[i].n, points[j].n, points[k].n);
  }

  lemma NoEnergyVanishes(points: seq<Point>, q: Quadratic)
    requires Energy(Design(points), q) <= 0.0
    ensures Vanishes(points, q)
  {
    var rows := Design(points);
    SumNonNegative(Squares(rows, q));
    forall i | 0 <= i < |points|
      ensures q.At(points[i].n) == 0.0
    {
      assert Squares(rows, q)[i] == Square(rows[i].Dot(q));
      SquareZero(rows[i].Dot(q));
      DesignDot(points, i, q);
    }
  }

  lemma DesignDot(points: seq<Point>, i: nat, q: Quadratic)
    requires i < |points|
    ensures Design(points)[i].Dot(q) == q.At(points[i].n)
  {
  }

  /** The normal matrix is singular exactly when there are fewer than three distinct abscissae. */
  lemma SingularIff(points: seq<Point>)
    ensures (exists q :: q != ZERO && Solves(NormalSystem(points), q, 0.0)) <==> !ThreeAbscissae(points)
  {
    var rows := Design(points);
    if ThreeAbscissae(points) {
      forall q | Solves(NormalSystem(points), q, 0.0)
        ensures q == ZERO
      {
        KernelHasNoEnergy(rows, q);
        NoEnergyVanishes(points, q);
        VanishesEverywhere(points, q);
      }
    } else {
      var q := CommonRoots(points);
      forall i: nat | i < 3
        ensures NormalRow(rows, i).Dot(q) == 0.0
      {
        NormalRowDot(rows, i, q);
        VanishingProjected(points, i, q);
      }
      assert q != ZERO && Solves(NormalSystem(points), q, 0.0);
    }
  }

  lemma KernelHasNoEnergy(rows: seq<Row>, q: Quadratic)
    requires NormalRow(rows, 0).Dot(q) == NormalRow(rows, 1).Dot(q) == NormalRow(rows, 2).Dot(q) == 0.0
    ensures Energy(rows, q) == 0.0
  {
    NormalRowDot(rows, 0, q);
    NormalRowDot(rows, 1, q);
    NormalRowDot(rows, 2, q);
    EnergyIsProjected(rows, q);
  }

  lemma CommonRoots(points: seq<Point>) returns (q: Quadratic)
    requires !ThreeAbscissae(points)
    ensures q != ZERO && Vanishes(points, q)
  {
    if points == [] {
      q := Quadratic(1.0, 0.0, 0.0);
    } else if k :| 0 <= k < |points| && points[k].n != points[0].n {
      var u, v := points[0].n, points[k].n;
      q := Quadratic(u * v, -(u + v), 1.0);
      forall i | 0 <= i < |points|
        ensures q.At(points[i].n) == 0.0
      {
        var n := points[i].n;
        assert n == u || n == v;
        assert (u + v) * n == u * n + v * n;
      }
    } else {
      q := Quadratic(-points[0].n, 1.0, 0.0);
    }
  }

  lemma VanishingProjected(points: seq<Point>, i: nat, q: Quadratic)
    requires i < 3 && Vanishes(points, q)
    ensures Sum(Projected(Design(points), i, q)) == 0.0
  {
    forall k | 0 <= k < |points|
      ensures Projected(Design(points), i, q)[k] == 0.0
    {
      DesignDot(points, k, q);
      assert q.At(points[k].n) == 0.0;
    }
    SumZeros(Projected(Design(points), i, q));
  }

  /** Entry `i` of each design row times the residual of `q` there. */
  ghost function Slack(rows: seq<Row>, i: nat, q: Quadratic): (s: seq<real>)
    requires i < 3
    ensures |s| == |rows|
    ensures forall k :: 0 <= k < |s| ==> s[k] == rows[k].Entry(i) * (rows[k].Dot(q) - rows[k].w)
  {
    seq(|rows|, k requires 0 <= k < |rows| => rows[k].Entry(i) * (rows[k].Dot(q) - rows[k].w))
  }

  lemma SlackCombines(rows: seq<Row>, i: nat, q: Quadratic)
    requires i < 3
    ensures Combines(Slack(rows, i, q), Projected(rows, i, q), Products(rows, i, 3), Products(rows, i, 3),
        Quadratic(1.0, -1.0, 0.0))
  {
    forall k | 0 <= k < |rows|
      ensures Slack(rows, i, q)[k]
          == 1.0 * Projected(rows, i, q)[k] + -1.0 * Products(rows, i, 3)[k] + 0.0 * Products(rows, i, 3)[k]
    {
      Subtract(rows[k].Entry(i), rows[k].Dot(q), rows[k].Entry(3));
    }
  }

  lemma Subtract(f: real, u: real, v: real)
    ensures f * (u - v) == f * u - f * v
  {
  }

  /** The normal equations say that the residuals are orthogonal to the design. */
  lemma NormalIsOrthogonal(rows: seq<Row>, i: nat, q: Quadratic)
    requires i < 3 && NormalRow(rows, i).Holds(q, 1.0)
    ensures Sum(Slack(rows, i, q)) == 0.0
  {
    NormalRowDot(rows, i, q);
    SlackCombines(rows, i, q);
    var p, m := Sum(Projected(rows, i, q)), Moment(rows, i, 3);
    SumLinear(Slack(rows, i, q), Projected(rows, i, q), Products(rows, i, 3), Products(rows, i, 3),
              Row(p, m, m, 0.0), Quadratic(1.0, -1.0, 0.0));
  }

  /** Residual times the change from `q` to `r`, point by point. */
  ghost function Cross(rows: seq<Row>, q: Quadratic, d: Quadratic): (s: seq<real>)
    ensures |s| == |rows|
    ensures forall k :: 0 <= k < |s| ==> s[k] == (rows[k].Dot(q) - rows[k].w) * rows[k].Dot(d)
  {
    seq(|rows|, k requires 0 <= k < |rows| => (rows[k].Dot(q) - rows[k].w) * rows[k].Dot(d))
  }

  lemma CrossCombines(rows: seq<Row>, q: Quadratic, d: Quadratic)
    ensures Combines(Cross(rows, q, d), Slack(rows, 0, q), Slack(rows, 1, q), Slack(rows, 2, q), d)
  {
    forall k | 0 <= k < |rows|
      ensures Cross(rows, q, d)[k]
          == d.a * Slack(rows, 0, q)[k] + d.b * Slack(rows, 1, q)[k] + d.c * Slack(rows, 2, q)[k]
    {
      ScaleValue(rows[k].Dot(q) - rows[k].w, rows[k], d);
    }
  }

  lemma CrossVanishes(rows: seq<Row>, q: Quadratic, d: Quadratic)
    requires NormalRow(rows, 0).Holds(q, 1.0) && NormalRow(rows, 1).Holds(q, 1.0) && NormalRow(rows, 2).Holds(q, 1.0)
    ensures Sum(Cross(rows, q, d)) == 0.0
  {
    NormalIsOrthogonal(rows, 0, q);
    NormalIsOrthogonal(rows, 1, q);
    NormalIsOrthogonal(rows, 2, q);
    CrossCombines(rows, q, d);
    SumLinear(Cross(rows, q, d), Slack(rows, 0, q), Slack(rows, 1, q), Slack(rows, 2, q), Row(0.0, 0.0, 0.0, 0.0), d);
  }

  lemma ErrorsCombine(points: seq<Point>, q: Quadratic, r: Quadratic)
    ensures Combines(Errors(points, r), Errors(points, q), Squares(Design(points), r.Minus(q)),
                     Cross(Design(points), q, r.Minus(q)), Quadratic(1.0, 1.0, 2.0))
  {
    forall k | 0 <= k < |points| { PointShift(points, q, r, k); }
  }

  /** The squared residual of one point after a move. */
  lemma PointShift(points: seq<Point>, q: Quadratic, r: Quadratic, k: nat)
    requires k < |points|
    ensures Errors(points, r)[k]
         == 1.0 * Errors(points, q)[k] + 1.0 * Squares(Design(points), r.Minus(q))[k]
            + 2.0 * Cross(Design(points), q, r.Minus(q))[k]
  {
    DesignDot(points, k, q);
    DesignDot(points, k, r);
    ShiftOne(Design(points)[k], q, r);
  }

  lemma ShiftOne(p: Row, q: Quadratic, r: Quadratic)
    ensures Square(p.Dot(r) - p.w) == Square(p.Dot(q) - p.w) + Square(p.Dot(r.Minus(q)))
                                      + 2.0 * ((p.Dot(q) - p.w) * p.Dot(r.Minus(q)))
  {
    DotMinus(p, q, r);
    BinomialSquare(p.Dot(q) - p.w, p.Dot(r.Minus(q)));
  }

  /** Moving away from a solution of the normal equations adds the energy of the move. */
  lemma ResidualShift(points: seq<Point>, q: Quadratic, r: Quadratic)
    requires Solves(NormalSystem(points), q, 1.0)
    ensures Residual(points, r) == Residual(points, q) + Energy(Design(points), r.Minus(q))
  {
    var rows, d := Design(points), r.Minus(q);
    CrossVanishes(rows, q, d);
    ErrorsCombine(points, q, r);
    SumLinear(Errors(points, r), Errors(points, q), Squares(rows, d), Cross(rows, q, d),
              Row(Residual(points, q), Energy(rows, d), 0.0, 0.0), Quadratic(1.0, 1.0, 2.0));
  }

  lemma DotMinus(p: Row, q: Quadratic, r: Quadratic)
    ensures p.Dot(r) == p.Dot(q) + p.Dot(r.Minus(q))
  {
  }

  lemma BinomialSquare(e: real, v: real)
    ensures Square(e + v) == Square(e) + Square(v) + 2.0 * (e * v)
  {
  }

  /** A solution of the normal equations has the least residual, and is the only one that has it
      when there are three distinct abscissae. */
  lemma NormalMinimises(points: seq<Point>, q: Quadratic, r: Quadratic)
    requires Solves(NormalSystem(points), q, 1.0)
    ensures Residual(points, q) <= Residual(points, r)
    ensures ThreeAbscissae(points) && r != q ==> Residual(points, q) < Residual(points, r)
  {
    var rows, d := Design(points), r.Minus(q);
    ResidualShift(points, q, r);
    SumNonNegative(Squares(rows, d));
    if ThreeAbscissae(points) && r != q && Energy(rows, d) <= 0.0 {
      NoEnergyVanishes(points, d);
      VanishesEverywhere(points, d);
    }
  }

  /** Every point lies on `q`. */
  ghost predicate OnCurve(points: seq<Point>, q: Quadratic) {
    forall i :: 0 <= i < |points| ==> points[i].t == q.At(points[i].n)
  }

  lemma ExactHasNoResidual(points: seq<Point>, q: Quadratic)
    requires OnCurve(points, q)
    ensures Residual(points, q) == 0.0
  {
    SumZeros(Errors(points, q));
  }

  // ---- the solver -----------------------------------------------------------

  function Abs(x: real): real { if x < 0.0 then -x else x }

  /** First row at or below `col` whose entry in column `col` is largest in absolute value. */
  method Pivot(m: array<Row>, col: nat) returns (pivot: nat)
    requires m.Length == 3 && col < 3
    ensures col <= pivot < 3
    ensures forall r :: col <= r < 3 ==> Abs(m[r].Coef(col)) <= Abs(m[pivot].Coef(col))
    ensures forall r :: col <= r < pivot ==> Abs(m[r].Coef(col)) < Abs(m[pivot].Coef(col))
  {
    pivot := col;
    for r := col + 1 to 3
      invariant col <= pivot < r
      invariant forall k :: col <= k < r ==> Abs(m[k].Coef(col)) <= Abs(m[pivot].Coef(col))
      invariant forall k :: col <= k < pivot ==> Abs(m[k].Coef(col)) < Abs(m[pivot].Coef(col))
    {
      if Abs(m[r].Coef(col)) > Abs(m[pivot].Coef(col)) { pivot := r; }
    }
  }

  /** The inner loop: subtract multiples of the diagonal row from the other two. */
  method ClearColumn(m: array<Row>, col: nat)
    requires m.Length == 3 && col < 3 && m[col].Coef(col) != 0.0
    modifies m
    ensures m[..] == Eliminate(old(m[..]), col)
  {
    ghost var base := m[..];
    for r := 0 to 3
      invariant forall k :: r <= k < 3 ==> m[k] == base[k]
      invariant m[col] == base[col]
      invariant forall k :: 0 <= k < r ==> m[k] == Eliminate(base, col)[k]
    {
      if r != col {
        var factor := m[r].Coef(col) / m[col].Coef(col);
        m[r] := m[r].Less(factor, m[col]);
      }
    }
  }

  /** The fit succeeds exactly on points with three distinct abscissae; it then returns the only
      solution of the normal equations, which has the strictly least sum of squared residuals. */
  method FitQuadratic(points: seq<Point>) returns (fit: Option<Quadratic>)
    ensures fit.Some? <==> ThreeAbscissae(points)
    ensures fit.Some? ==> Solves(NormalSystem(points), fit.value, 1.0)
    ensures fit.Some? ==>
              forall r :: r != fit.value ==> Residual(points, fit.value) < Residual(points, r)
    ensures forall q :: ThreeAbscissae(points) && OnCurve(points, q) ==> fit == Some(q)
  {
    ghost var base := NormalSystem(points);
    SingularIff(points);
    var rows := Design(points);
    var m := new Row[3](i requires 0 <= i < 3 => NormalRow(rows, i));
    assert m[..] == base;
    for col := 0 to 3
      invariant forall j :: 0 <= j < col ==> Cleared(m[..], j)
      invariant SameSolutions(m[..], base)
    {
      var pivot := Pivot(m, col);
      ghost var before := m[..];
      m[col], m[pivot] := m[pivot], m[col];
      ghost var swapped := m[..];
      SwapKeeps(before, col, pivot, base);
      if m[col].Coef(col) == 0.0 {
        ghost var q := NoPivot(before, col);
        assert Solves(before, q, 0.0);
        return None;
      }
      StepKeeps(swapped, col, base);
      ClearColumn(m, col);
    }
    Unique(m[..], base);
    var q := Quadratic(m[0].w / m[0].x, m[1].w / m[1].y, m[2].w / m[2].z);
    DiagonalSolution(m[..], q, 1.0);
    assert Solves(m[..], q, 1.0);
    Least(points, q);
    fit := Some(q);
  }

  ghost predicate SameSolutions(m: seq<Row>, base: seq<Row>)
    requires |m| == |base| == 3
  {
    forall q, h :: Solves(m, q, h) <==> Solves(base, q, h)
  }

  lemma SwapKeeps(m: seq<Row>, col: nat, pivot: nat, base: seq<Row>)
    requires |m| == |base| == 3 && col <= pivot < 3 && SameSolutions(m, base)
    requires forall j :: 0 <= j < col ==> Cleared(m, j)
    ensures SameSolutions(Swap(m, col, pivot), base)
    ensures forall j :: 0 <= j < col ==> Cleared(Swap(m, col, pivot), j)
  {
    var s := Swap(m, col, pivot);
    forall q, h
      ensures Solves(s, q, h) <==> Solves(m, q, h)
    {
      assert s[col] == m[pivot] && s[pivot] == m[col];
    }
    forall j | 0 <= j < col
      ensures Cleared(s, j)
    {
      assert Cleared(m, j);
    }
  }

  lemma StepKeeps(m: seq<Row>, col: nat, base: seq<Row>)
    requires |m| == |base| == 3 && col < 3 && m[col].Coef(col) != 0.0 && SameSolutions(m, base)
    requires forall j :: 0 <= j < col ==> Cleared(m, j)
    ensures SameSolutions(Eliminate(m, col), base)
    ensures forall j :: 0 <= j <= col ==> Cleared(Eliminate(m, col), j)
  {
    forall q, h
      ensures Solves(Eliminate(m, col), q, h) <==> Solves(m, q, h)
    {
      EliminateKeeps(m, col, q, h);
    }
    forall j | 0 <= j <= col
      ensures Cleared(Eliminate(m, col), j)
    {
      EliminateClears(m, col, j);
    }
  }

  lemma Unique(m: seq<Row>, base: seq<Row>)
    requires |m| == |base| == 3 && SameSolutions(m, base)
    requires Cleared(m, 0) && Cleared(m, 1) && Cleared(m, 2)
    ensures !exists q :: q != ZERO && Solves(base, q, 0.0)
  {
    forall q | Solves(base, q, 0.0)
      ensures q == ZERO
    {
      DiagonalSolution(m, q, 0.0);
    }
  }

  lemma Least(points: seq<Point>, q: Quadratic)
    requires ThreeAbscissae(points) && Solves(NormalSystem(points), q, 1.0)
    ensures forall r :: r != q ==> Residual(points, q) < Residual(points, r)
    ensures forall r :: OnCurve(points, r) ==> r == q
  {
    forall r: Quadratic | r != q
      ensures Residual(points, q) < Residual(points, r)
      ensures !OnCurve(points, r)
    {
      NormalMinimises(points, q, r);
      SumNonNegative(Errors(points, q));
      if OnCurve(points, r) { ExactHasNoResidual(points, r); }
    }
  }
}
