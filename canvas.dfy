/** Drawing abstractions shared by every canvas renderer of the UI: the
    surface a renderer draws on, the grid of character cells an overlay
    visits, the columns of a `for (v = from; v < bound; v += step)` loop,
    and JavaScript's truncating remainder. */
module Canvas {

  datatype Option<T> = None | Some(value: T)

  /** A canvas element that exists, with its pixel size. */
  datatype Surface = Surface(width: nat, height: nat)

  /** The top-left corner of one character cell of an overlay. */
  datatype Cell = Cell(x: int, y: int)

  /** The ASCII overlay of a frame: grid step, candidate cells and fill alpha.
      Which candidates get a glyph, and which glyph, is random. */
  datatype Overlay = Overlay(step: nat, cells: seq<Cell>, alpha: real)

  /** JavaScript's `a % m` on integers: the remainder truncates toward zero,
      so it takes the sign of `a`. This is the unique value congruent to `a`
      that lies strictly between `-m` and `m` and has the sign of `a`. */
  function JsRem(a: int, m: int): (r: int)
    requires m > 0
    ensures -m < r < m
    ensures a >= 0 ==> r >= 0
    ensures a <= 0 ==> r <= 0
    ensures (a - r) % m == 0
  {
    if a >= 0 then
      DivModUnique(a - a % m, m, a / m, 0);
      a % m
    else
      var b := -a;
      assert a + b % m == m * -(b / m);
      DivModUnique(a + b % m, m, -(b / m), 0);
      -(b % m)
  }

  /** How many values a loop `for (v = from; v < bound; v += step)` visits. */
  function StepCount(from: int, step: nat, bound: int): nat
    requires step > 0
  {
    if bound <= from then 0 else (bound - from - 1) / step + 1
  }

  /** The values that loop visits, in order: `from`, `from + step`, ... */
  function StepsFrom(from: int, step: nat, bound: int): seq<int>
    requires step > 0
  {
    seq(StepCount(from, step, bound), k requires 0 <= k => from + k * step)
  }

  lemma DivModUnique(a: int, step: nat, q: int, r: int)
    requires step > 0 && 0 <= r < step && a == step * q + r
    ensures a / step == q && a % step == r
  {
    var q', r' := a / step, a % step;
    assert a == step * q' + r';
    assert step * (q - q') == r' - r;
    if q > q' {
      MulAtLeast(step, q - q');
    } else if q < q' {
      MulAtLeast(step, q' - q);
    }
  }

  lemma {:induction false} MulAtLeast(s: nat, d: int)
    requires d >= 1
    ensures s * d >= s
    decreases d
  {
    if d > 1 {
      MulAtLeast(s, d - 1);
      assert s * d == s * (d - 1) + s;
    }
  }

  /** The loop runs its `n`-th iteration (counting from 0) exactly when
      `from + n * step` is still below the bound. */
  lemma StepCountBound(from: int, step: nat, bound: int, n: nat)
    requires step > 0
    ensures n < StepCount(from, step, bound) <==> from + n * step < bound
  {
    if bound <= from {
      MulMonotone(step, 0, n);
    } else {
      var m := (bound - from - 1) / step;
      assert bound - from - 1 == step * m + (bound - from - 1) % step;
      if n <= m {
        MulMonotone(step, n, m);
      } else {
        MulMonotone(step, m + 1, n);
      }
    }
  }

  /** The loop visits exactly the values from `from` up to `bound` (exclusive)
      that lie a whole number of steps above `from`. */
  lemma StepsFromMembers(from: int, step: nat, bound: int, v: int)
    requires step > 0
    ensures v in StepsFrom(from, step, bound) <==> from <= v < bound && (v - from) % step == 0
  {
    var s := StepsFrom(from, step, bound);
    if from <= v < bound && (v - from) % step == 0 {
      var k := (v - from) / step;
      assert v - from == step * k;
      StepCountBound(from, step, bound, k);
      assert s[k] == v;
    }
    if v in s {
      var k :| 0 <= k < |s| && s[k] == v;
      DivModUnique(v - from, step, k, 0);
      StepCountBound(from, step, bound, k);
    }
  }

  lemma MulMonotone(s: nat, a: int, b: int)
    requires a <= b
    ensures s * a <= s * b
  {
    if a < b {
      MulAtLeast(s, b - a);
      assert s * b == s * a + s * (b - a);
    }
  }

  /** One row of cells at height `y`, one cell per column in `xs`: its
      cells are exactly the points at that height over those columns. */
  function Row(y: int, xs: seq<int>): (r: seq<Cell>)
    ensures |r| == |xs|
    ensures forall k :: 0 <= k < |xs| ==> r[k] == Cell(xs[k], y)
    ensures forall c :: c in r <==> c.y == y && c.x in xs
  {
    var r := seq(|xs|, k requires 0 <= k < |xs| => Cell(xs[k], y));
    assert forall c: Cell :: c in r <==> c.y == y && c.x in xs by {
      forall c: Cell | c.y == y && c.x in xs
        ensures c in r
      {
        var k :| 0 <= k < |xs| && xs[k] == c.x;
        assert r[k] == c;
      }
    }
    r
  }

  /** Row-major cells: every row in `ys`, top to bottom, each left to right. */
  function Rows(ys: seq<int>, xs: seq<int>): seq<Cell>
  {
    if ys == [] then [] else Rows(ys[..|ys| - 1], xs) + Row(ys[|ys| - 1], xs)
  }

  lemma {:induction false} RowsMembers(ys: seq<int>, xs: seq<int>, c: Cell)
    ensures c in Rows(ys, xs) <==> c.y in ys && c.x in xs
  {
    if ys != [] {
      var init, last := ys[..|ys| - 1], ys[|ys| - 1];
      RowsMembers(init, xs, c);
      assert ys == init + [last];
    }
  }

  /** The cells of a grid with step `step` are exactly its points on
      multiples of the step from 0 up to but not including the width and
      the height. */
  lemma GridMembers(step: nat, width: int, height: int, c: Cell)
    requires step > 0
    ensures c in Rows(StepsFrom(0, step, height), StepsFrom(0, step, width)) <==>
      0 <= c.x < width && c.x % step == 0 && 0 <= c.y < height && c.y % step == 0
  {
    RowsMembers(StepsFrom(0, step, height), StepsFrom(0, step, width), c);
    StepsFromMembers(0, step, width, c.x);
    StepsFromMembers(0, step, height, c.y);
  }

  /** The columns of a loop `for (x = 0; x < width; x += step)`. */
  method Columns(step: nat, width: int) returns (xs: seq<int>)
    requires step > 0
    ensures xs == StepsFrom(0, step, width)
  {
    xs := [];
    var x := 0;
    while x < width
      invariant x == |xs| * step && |xs| <= StepCount(0, step, width)
      invariant forall k :: 0 <= k < |xs| ==> xs[k] == k * step
      decreases width - x
    {
      StepCountBound(0, step, width, |xs|);
      assert x + step == (|xs| + 1) * step;
      xs := xs + [x];
      x := x + step;
    }
    StepCountBound(0, step, width, |xs|);
  }

  /** The cells the inner loop `for (x = 0; x < width; x += step)` visits
      on row `y`: one per column from left to right. */
  method RowCells(step: nat, width: int, y: int) returns (row: seq<Cell>)
    requires step > 0
    ensures row == Row(y, StepsFrom(0, step, width))
  {
    row := [];
    var x := 0;
    while x < width
      invariant x == |row| * step && |row| <= StepCount(0, step, width)
      invariant forall k :: 0 <= k < |row| ==> row[k] == Cell(k * step, y)
      decreases width - x
    {
      StepCountBound(0, step, width, |row|);
      assert x + step == (|row| + 1) * step;
      row := row + [Cell(x, y)];
      x := x + step;
    }
    StepCountBound(0, step, width, |row|);
  }

  /** The cells that the nested loops `for (y = 0; y < height; y += step)`
      `for (x = 0; x < width; x += step)` visit, row by row: exactly the
      multiples of `step` strictly below the width and the height. */
  method GridCells(step: nat, width: int, height: int) returns (cells: seq<Cell>)
    requires step > 0
    ensures cells == Rows(StepsFrom(0, step, height), StepsFrom(0, step, width))
    ensures forall c :: c in cells <==>
      0 <= c.x < width && c.x % step == 0 && 0 <= c.y < height && c.y % step == 0
  {
    cells := [];
    ghost var ys: seq<int> := [];
    var y := 0;
    while y < height
      invariant y == |ys| * step && |ys| <= StepCount(0, step, height)
      invariant ys == StepsFrom(0, step, height)[..|ys|]
      invariant cells == Rows(ys, StepsFrom(0, step, width))
      decreases height - y
    {
      StepCountBound(0, step, height, |ys|);
      assert y + step == (|ys| + 1) * step;
      var row := RowCells(step, width, y);
      assert (ys + [y])[..|ys|] == ys;
      cells := cells + row;
      ys := ys + [y];
      y := y + step;
    }
    StepCountBound(0, step, height, |ys|);
    assert ys == StepsFrom(0, step, height);
    forall c ensures c in cells <==>
      0 <= c.x < width && c.x % step == 0 && 0 <= c.y < height && c.y % step == 0
    {
      GridMembers(step, width, height, c);
    }
  }
}
