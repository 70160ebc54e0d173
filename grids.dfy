/** Dense 2-D and 3-D arrays as nested sequences, and the whole-array statistics
    the slicers use: minimum, maximum, `any` and the population standard deviation.
    A 3-D array `v` of shape (n0, n1, n2) is indexed `v[i][j][k]`, as numpy's
    `v[i, j, k]`. */
module Grids {

  /** numpy's `shape` of a 3-D array. */
  datatype Shape = Shape(n0: nat, n1: nat, n2: nat) {
    function Size(): nat { n0 * n1 * n2 }

    /** `size == 0` exactly when some dimension is zero. */
    lemma SizePositive()
      ensures Size() > 0 <==> n0 > 0 && n1 > 0 && n2 > 0
    {
      if n0 > 0 && n1 > 0 && n2 > 0 {
        assert n0 * n1 > 0;
      }
    }

    /** `shape[axis]` for axis 0 and 1; every other axis reads as axis 2, the way
        the `else` branch of the slicers' `extract_slice` treats it. */
    function Dim(axis: int): nat {
      if axis == 0 then n0 else if axis == 1 then n1 else n2
    }
  }

  predicate IsGrid<T>(g: seq<seq<T>>, rows: nat, cols: nat) {
    |g| == rows && forall r | 0 <= r < rows :: |g[r]| == cols
  }

  predicate HasShape<T>(v: seq<seq<seq<T>>>, s: Shape) {
    |v| == s.n0 && forall i | 0 <= i < s.n0 :: IsGrid(v[i], s.n1, s.n2)
  }

  /** All cells of a grid, row by row (numpy's C order). */
  function FlattenGrid<T>(g: seq<seq<T>>): seq<T> {
    if |g| == 0 then [] else g[0] + FlattenGrid(g[1..])
  }

  /** All cells of a 3-D array in C order. */
  function Flatten<T>(v: seq<seq<seq<T>>>): seq<T> {
    if |v| == 0 then [] else FlattenGrid(v[0]) + Flatten(v[1..])
  }

  /** A grid has cells exactly when one of its rows is non-empty. */
  lemma {:induction false} FlattenGridNonEmpty<T>(g: seq<seq<T>>)
    ensures |FlattenGrid(g)| > 0 <==> exists r | 0 <= r < |g| :: |g[r]| > 0
  {
    if |g| > 0 {
      FlattenGridNonEmpty(g[1..]);
      if exists r | 0 <= r < |g[1..]| :: |g[1..][r]| > 0 {
        var r :| 0 <= r < |g[1..]| && |g[1..][r]| > 0;
        assert |g[r + 1]| > 0;
      }
      if exists r | 0 <= r < |g| :: |g[r]| > 0 {
        var r :| 0 <= r < |g| && |g[r]| > 0;
        if r > 0 {
          assert |g[1..][r - 1]| > 0;
        }
      }
    }
  }

  lemma {:induction false} InFlattenGrid<T>(g: seq<seq<T>>, r: nat, c: nat)
    requires r < |g| && c < |g[r]|
    ensures g[r][c] in FlattenGrid(g)
    decreases r
  {
    if r > 0 {
      InFlattenGrid(g[1..], r - 1, c);
    }
  }

  lemma {:induction false} FlattenGridHas<T>(g: seq<seq<T>>, x: T)
    requires x in FlattenGrid(g)
    ensures exists r, c | 0 <= r < |g| && 0 <= c < |g[r]| :: g[r][c] == x
    decreases |g|
  {
    if x in g[0] {
      var c :| 0 <= c < |g[0]| && g[0][c] == x;
      assert g[0][c] == x;
    } else {
      FlattenGridHas(g[1..], x);
      var r, c :| 0 <= r < |g[1..]| && 0 <= c < |g[1..][r]| && g[1..][r][c] == x;
      assert g[r + 1][c] == x;
    }
  }

  lemma {:induction false} InFlatten<T>(v: seq<seq<seq<T>>>, i: nat, j: nat, k: nat)
    requires i < |v| && j < |v[i]| && k < |v[i][j]|
    ensures v[i][j][k] in Flatten(v)
    decreases i
  {
    if i == 0 {
      InFlattenGrid(v[0], j, k);
    } else {
      InFlatten(v[1..], i - 1, j, k);
    }
  }

  lemma {:induction false} FlattenHas<T>(v: seq<seq<seq<T>>>, x: T)
    requires x in Flatten(v)
    ensures exists i, j, k | 0 <= i < |v| && 0 <= j < |v[i]| && 0 <= k < |v[i][j]| :: v[i][j][k] == x
    decreases |v|
  {
    if x in FlattenGrid(v[0]) {
      FlattenGridHas(v[0], x);
      var j, k :| 0 <= j < |v[0]| && 0 <= k < |v[0][j]| && v[0][j][k] == x;
      assert v[0][j][k] == x;
    } else {
      FlattenHas(v[1..], x);
      var i, j, k :| 0 <= i < |v[1..]| && 0 <= j < |v[1..][i]| && 0 <= k < |v[1..][i][j]|
        && v[1..][i][j][k] == x;
      assert v[i + 1][j][k] == x;
    }
  }

  /** A volume with no zero dimension has at least one cell. */
  lemma FlattenNonEmpty<T>(v: seq<seq<seq<T>>>, s: Shape)
    requires HasShape(v, s) && s.Size() > 0
    ensures |Flatten(v)| > 0
  {
    s.SizePositive();
    InFlatten(v, 0, 0, 0);
  }

  // ---------------------------------------------------------------- minimum and maximum

  /** `array.min()`. */
  function SeqMin(s: seq<real>): (m: real)
    requires |s| > 0
    ensures m in s
    ensures forall i | 0 <= i < |s| :: m <= s[i]
  {
    if |s| == 1 then s[0]
    else
      var rest := SeqMin(s[1..]);
      if s[0] <= rest then s[0] else rest
  }

  /** `array.max()`. */
  function SeqMax(s: seq<real>): (m: real)
    requires |s| > 0
    ensures m in s
    ensures forall i | 0 <= i < |s| :: s[i] <= m
  {
    if |s| == 1 then s[0]
    else
      var rest := SeqMax(s[1..]);
      if s[0] >= rest then s[0] else rest
  }

  // ---------------------------------------------------------------- any and standard deviation

  /** `np.any(a)`: some cell is non-zero. */
  predicate AnyNonZero(s: seq<int>) {
    exists i | 0 <= i < |s| :: s[i] != 0
  }

  function Sum(s: seq<int>): int {
    if |s| == 0 then 0 else s[0] + Sum(s[1..])
  }

  /** The sum of `(n * x - t)^2` over the cells x of s. */
  function ScaledDeviations(s: seq<int>, n: int, t: int): (r: int)
    ensures r >= 0
  {
    if |s| == 0 then 0 else (n * s[0] - t) * (n * s[0] - t) + ScaledDeviations(s[1..], n, t)
  }

  /** n^3 times the population variance of s (n = |s|). With mean m = Sum(s)/n the
      variance is the sum of (x - m)^2 over the cells divided by n, which is the sum
      of (n*x - Sum(s))^2 divided by n^3; keeping the n^3 factor leaves integers. */
  function CubedVariance(s: seq<int>): int {
    ScaledDeviations(s, |s|, Sum(s))
  }

  function Cube(n: nat): nat { n * n * n }

  /** `np.std(a) > 1`, i.e. variance > 1, for a non-empty array. */
  predicate StdAboveOne(s: seq<int>) {
    |s| > 0 && CubedVariance(s) > Cube(|s|)
  }

  /** `np.std(a) < 1` for a non-empty array (the std of an empty array is NaN,
      and NaN < 1 is false). */
  predicate StdBelowOne(s: seq<int>) {
    |s| > 0 && CubedVariance(s) < Cube(|s|)
  }

  lemma {:induction false} ConstantSum(s: seq<int>, c: int)
    requires forall i | 0 <= i < |s| :: s[i] == c
    ensures Sum(s) == |s| * c
  {
    if s != [] {
      ConstantSum(s[1..], c);
      assert Sum(s) == c + (|s| - 1) * c;
    }
  }

  lemma {:induction false} ConstantTail(s: seq<int>, c: int, n: int)
    requires forall i | 0 <= i < |s| :: s[i] == c
    ensures ScaledDeviations(s, n, n * c) == 0
  {
    if s != [] {
      ConstantTail(s[1..], c, n);
    }
  }

  /** A constant array has zero variance. */
  lemma ConstantVariance(s: seq<int>, c: int)
    requires forall i | 0 <= i < |s| :: s[i] == c
    ensures CubedVariance(s) == 0
  {
    ConstantSum(s, c);
    ConstantTail(s, c, |s|);
  }
}
