/** Interpolated percentile curves over backtest trajectories (`compute_percentiles`). */
module Percentiles {
  import opened Mixes
  import opened Wrappers
  import Sorting

  // ---------- sorting ----------

  ghost predicate Sorted(s: seq<real>) {
    forall i, j :: 0 <= i < j < |s| ==> s[i] <= s[j]
  }

  function Itself(x: real): real {
    x
  }

  /** Python's `sorted`. */
  function Sort(s: seq<real>): seq<real> {
    Sorting.SortBy(s, Itself)
  }

  lemma {:induction false} SortSorts(s: seq<real>)
    ensures Sorted(Sort(s)) && multiset(Sort(s)) == multiset(s) && |Sort(s)| == |s|
  {
    Sorting.SortSorts(s, Itself);
    assert forall i :: 0 <= i < |Sort(s)| ==> Itself(Sort(s)[i]) == Sort(s)[i];
  }

  lemma {:induction false} SameLength<T>(s: seq<T>, t: seq<T>)
    requires multiset(s) == multiset(t)
    ensures |s| == |t|
  {
    assert |multiset(s)| == |s| && |multiset(t)| == |t|;
  }

  lemma {:induction false} LastIsGreatest(s: seq<real>, t: seq<real>)
    requires Sorted(s) && s != [] && t != [] && multiset(s) == multiset(t)
    ensures t[|t| - 1] <= s[|s| - 1]
  {
    assert t[|t| - 1] in multiset(s);
    var i :| 0 <= i < |s| && s[i] == t[|t| - 1];
  }

  lemma {:induction false} FrontIsSorted(s: seq<real>)
    requires Sorted(s) && s != []
    ensures Sorted(s[..|s| - 1])
  {
  }

  lemma {:induction false} DropLast(s: seq<real>)
    requires s != []
    ensures multiset(s[..|s| - 1]) == multiset(s) - multiset{s[|s| - 1]}
  {
    assert s == s[..|s| - 1] + [s[|s| - 1]];
  }

  lemma {:induction false} SortedIsUnique(s: seq<real>, t: seq<real>)
    requires Sorted(s) && Sorted(t) && multiset(s) == multiset(t)
    ensures s == t
  {
    SameLength(s, t);
    if s != [] {
      hide Sorted;
      LastIsGreatest(s, t);
      LastIsGreatest(t, s);
      DropLast(s);
      DropLast(t);
      FrontIsSorted(s);
      FrontIsSorted(t);
      SortedIsUnique(s[..|s| - 1], t[..|t| - 1]);
      assert s == s[..|s| - 1] + [s[|s| - 1]] && t == t[..|t| - 1] + [t[|t| - 1]];
    }
  }

  // ---------- one interpolated value ----------

  /** `int(x)`: truncation towards zero. */
  function Truncate(x: real): int {
    if 0.0 <= x then x.Floor else -((-x).Floor)
  }

  /** Array indexing: a negative index counts from the end. */
  function At<T>(values: seq<T>, i: int): Result<T> {
    if 0 <= i < |values| then Ok(values[i])
    else if -|values| <= i < 0 then Ok(values[|values| + i])
    else Raised(IndexError)
  }

  /** The fractional position of a percentile among `n` samples. */
  function Position(n: nat, p: real): real {
    (n - 1) as real * p
  }

  /** The cell below a position and the weight of the cell above it. */
  function CellAt(frac: real): (int, real) {
    (Truncate(frac), frac - Truncate(frac) as real)
  }

  function Cell(n: nat, p: real): (int, real) {
    CellAt(Position(n, p))
  }

  function InCell(values: seq<real>, cell: (int, real)): Result<real> {
    var low, high := At(values, cell.0), At(values, cell.0 + 1);
    if low.Raised? || high.Raised? then Raised(IndexError) else Ok(Mix(cell.1, low.value, high.value))
  }

  /** The interpolated percentile of sorted values. */
  function Percentile(values: seq<real>, p: real): Result<real> {
    InCell(values, Cell(|values|, p))
  }

  lemma {:induction false} PositionsAscend(n: nat, p: real, q: real)
    requires 2 <= n
    ensures p <= q <==> Position(n, p) <= Position(n, q)
    ensures Position(n, 0.0) == 0.0 && Position(n, 1.0) == (n - 1) as real
  {
  }

  /** Truncation keeps both neighbours in range exactly for positions in this interval. */
  lemma {:induction false} TruncateRange(n: nat, frac: real)
    requires 2 <= n
    ensures 0 <= Truncate(frac) + n && Truncate(frac) < n - 1 <==> -(n + 1) as real < frac < (n - 1) as real
    ensures 0.0 <= frac ==> 0 <= Truncate(frac) && 0.0 <= CellAt(frac).1 < 1.0
  {
  }

  /** Both indices of a cell are in range among `n` values. */
  predicate CellFits(n: nat, cell: (int, real)) {
    0 <= cell.0 + n && cell.0 < n - 1
  }

  /** The percentiles whose two indices stay in range: below one, and not far below zero. */
  predicate InRange(n: nat, p: real) {
    -(n + 1) as real < Position(n, p) && p < 1.0
  }

  lemma {:induction false} PercentileOkIff(values: seq<real>, p: real)
    requires 2 <= |values|
    ensures Percentile(values, p).Ok? <==> InRange(|values|, p)
    ensures CellFits(|values|, Cell(|values|, p)) <==> InRange(|values|, p)
    ensures Percentile(values, p).Raised? ==> Percentile(values, p).error == IndexError
  {
    hide Position;
    PositionsAscend(|values|, 1.0, p);
    TruncateRange(|values|, Position(|values|, p));
  }

  /** For percentiles from zero up to one the cell is in range with a weight from zero up to one. */
  lemma {:induction false} CellInRange(n: nat, p: real)
    requires 2 <= n && 0.0 <= p < 1.0
    ensures 0 <= Cell(n, p).0 < n - 1 && 0.0 <= Cell(n, p).1 < 1.0
  {
    hide Position;
    PositionsAscend(n, 0.0, p);
    PositionsAscend(n, 1.0, p);
    TruncateRange(n, Position(n, p));
  }

  lemma {:induction false} CellsAscend(x: real, y: real)
    requires 0.0 <= x <= y
    ensures CellAt(x).0 <= CellAt(y).0
    ensures CellAt(x).0 == CellAt(y).0 ==> CellAt(x).1 <= CellAt(y).1
  {
  }

  /** A percentile value lies between its two neighbouring order statistics. */
  lemma {:induction false} PercentileBetween(values: seq<real>, p: real)
    requires 2 <= |values| && Sorted(values) && 0.0 <= p < 1.0
    ensures var lower := Cell(|values|, p).0;
            && 0 <= lower < |values| - 1 && Percentile(values, p).Ok?
            && values[lower] <= Percentile(values, p).value <= values[lower + 1]
  {
    CellInRange(|values|, p);
    var (lower, l) := Cell(|values|, p);
    MixIsConvex(l, values[lower], values[lower + 1], values[lower], values[lower + 1]);
  }

  /** A larger percentile never has a smaller value, within a cell or across cells. */
  lemma {:induction false} PercentilesAscend(values: seq<real>, p: real, q: real)
    requires 2 <= |values| && Sorted(values) && 0.0 <= p <= q < 1.0
    ensures Percentile(values, p).Ok? && Percentile(values, q).Ok?
    ensures Percentile(values, p).value <= Percentile(values, q).value
  {
    var n := |values|;
    PercentileBetween(values, p);
    PercentileBetween(values, q);
    hide Position, CellAt, Mix;
    CellInRange(n, p);
    CellInRange(n, q);
    PositionsAscend(n, 0.0, p);
    PositionsAscend(n, p, q);
    CellsAscend(Position(n, p), Position(n, q));
    var (i, l) := Cell(n, p);
    var (j, m) := Cell(n, q);
    if i == j {
      MixGrows(l, m, values[i], values[i + 1]);
    } else {
      assert values[i + 1] <= values[j];
    }
  }

  // ---------- linear interpolation ----------

  /** Percentile `p` falls between sample `k` and the next, the first of `n` samples standing for 0 and the last
      for 1. */
  predicate FallsAfter(n: nat, p: real, k: nat) {
    k as real <= (n as real - 1.0) * p < (k + 1) as real
  }

  /** How far percentile `p` lies beyond sample `k`. */
  function Beyond(n: nat, p: real, k: nat): real {
    (n as real - 1.0) * p - k as real
  }

  /** The straight line from `x` to `y`. */
  function Line(x: real, y: real, w: real): real {
    x + w * (y - x)
  }

  /** The value at that place on the straight line from sample `k` to the next. */
  function OnLine(values: seq<real>, p: real, k: nat): real
    requires k + 1 < |values|
  {
    Line(values[k], values[k + 1], Beyond(|values|, p, k))
  }

  lemma {:induction false} Interpolates(l: real, x: real, y: real)
    ensures Mix(l, x, y) == Line(x, y, l)
  {
  }

  lemma {:induction false} PlaceOf(n: nat, p: real, k: nat)
    requires 2 <= n && 0.0 <= p < 1.0 && FallsAfter(n, p, k)
    ensures k < n - 1 && Cell(n, p) == (k as int, Beyond(n, p, k))
  {
    CellInRange(n, p);
    var x := Position(n, p);
    assert x == (n as real - 1.0) * p;
    hide Position;
    assert Truncate(x) == k;
  }

  /** A percentile is the linear interpolation between its two neighbouring samples. */
  lemma {:induction false} PercentileIsOnLine(values: seq<real>, p: real, k: nat)
    requires 2 <= |values| && 0.0 <= p < 1.0 && FallsAfter(|values|, p, k)
    ensures k + 1 < |values| && Percentile(values, p) == Ok(OnLine(values, p, k))
  {
    hide Mix, Cell, FallsAfter, Line, Beyond;
    PlaceOf(|values|, p, k);
    Interpolates(Beyond(|values|, p, k), values[k], values[k + 1]);
  }

  // ---------- the curves ----------

  /** Element `it` of every list: of trajectories, the values at one time step (`None` for a NaN); of runs, the
      trajectories of one account. */
  function Column<T>(lists: seq<seq<T>>, it: nat): (r: seq<T>)
    requires forall i :: 0 <= i < |lists| ==> it < |lists[i]|
    ensures |r| == |lists| && forall i :: 0 <= i < |r| ==> r[i] == lists[i][it]
  {
    seq(|lists|, i requires 0 <= i < |lists| => lists[i][it])
  }

  /** Every trajectory has `steps` time steps. */
  ghost predicate Aligned(trajectories: seq<seq<Option<real>>>, steps: nat) {
    forall i :: 0 <= i < |trajectories| ==> |trajectories[i]| == steps
  }

  predicate AllNumbers(column: seq<Option<real>>) {
    forall i :: 0 <= i < |column| ==> column[i].Some?
  }

  function Numbers(column: seq<Option<real>>): (r: seq<real>)
    requires AllNumbers(column)
    ensures |r| == |column| && forall i :: 0 <= i < |r| ==> column[i] == Some(r[i])
  {
    seq(|column|, i requires 0 <= i < |column| => column[i].value)
  }

  function MixValues(lambda: real, x: Option<real>, y: Option<real>): Option<real> {
    if x.Some? && y.Some? then Some(Mix(lambda, x.value, y.value)) else None
  }

  /** `sorted(column)`. A NaN compares as false with everything, so with one in the column all that can be
      said is that the values are rearranged. */
  method SortColumn(column: seq<Option<real>>) returns (values: seq<Option<real>>)
    ensures multiset(values) == multiset(column) && |values| == |column|
    ensures AllNumbers(column) ==> AllNumbers(values) && Numbers(values) == Sort(Numbers(column))
  {
    hide Sort;
    if !AllNumbers(column) {
      return column;
    }
    var sorted := Sort(Numbers(column));
    SortSorts(Numbers(column));
    values := seq(|sorted|, i requires 0 <= i < |sorted| => Some(sorted[i]));
    assert Numbers(values) == sorted;
    forall x: Option<real>
      ensures multiset(values)[x] == multiset(column)[x]
    {
      NumbersCount(values, x);
      NumbersCount(column, x);
    }
    assert |multiset(values)| == |multiset(column)|;
  }

  lemma {:induction false} NumbersCount(column: seq<Option<real>>, x: Option<real>)
    requires AllNumbers(column)
    ensures multiset(column)[x] == if x.Some? then multiset(Numbers(column))[x.value] else 0
  {
    if column != [] {
      var front, last := column[..|column| - 1], column[|column| - 1];
      NumbersCount(front, x);
      assert column == front + [last];
      assert Numbers(column) == Numbers(front) + [last.value];
    }
  }

  /** The inner loop: one value for every cached cell. */
  method OneStep(values: seq<Option<real>>, cached: seq<(int, real)>) returns (r: Result<seq<Option<real>>>)
    ensures r.Raised? <==> exists j :: 0 <= j < |cached| && !CellFits(|values|, cached[j])
    ensures r.Raised? ==> r.error == IndexError
    ensures r.Ok? ==> |r.value| == |cached|
                      && forall j :: 0 <= j < |cached| ==> InCellOf(values, cached[j]) == Ok(r.value[j])
  {
    var step: seq<Option<real>> := [];
    for j := 0 to |cached|
      invariant |step| == j && forall k :: 0 <= k < j ==> InCellOf(values, cached[k]) == Ok(step[k])
      invariant forall k :: 0 <= k < j ==> CellFits(|values|, cached[k])
    {
      var low, high := At(values, cached[j].0), At(values, cached[j].0 + 1);
      if low.Raised? || high.Raised? {
        return Raised(IndexError);
      }
      step := step + [MixValues(cached[j].1, low.value, high.value)];
    }
    return Ok(step);
  }

  function InCellOf(values: seq<Option<real>>, cell: (int, real)): Result<Option<real>> {
    var low, high := At(values, cell.0), At(values, cell.0 + 1);
    if low.Raised? || high.Raised? then Raised(IndexError) else Ok(MixValues(cell.1, low.value, high.value))
  }

  lemma {:induction false} InCellOfNumbers(values: seq<Option<real>>, cell: (int, real))
    requires AllNumbers(values) && InCellOf(values, cell).Ok?
    ensures InCellOf(values, cell).value.Some?
    ensures InCell(Numbers(values), cell) == Ok(InCellOf(values, cell).value.value)
  {
  }

  /** At step `it`, when all trajectories are numbers there, the curve holds the value of its cell among the
      sorted ones. */
  ghost predicate CurveAt(curve: seq<Option<real>>, trajectories: seq<seq<Option<real>>>, cell: (int, real), it: nat)
    requires it < |curve| && forall i :: 0 <= i < |trajectories| ==> it < |trajectories[i]|
  {
    var column := Column(trajectories, it);
    AllNumbers(column) ==> curve[it].Some? && InCell(Sort(Numbers(column)), cell) == Ok(curve[it].value)
  }

  /** The first `steps` values of the curves, with positions counted among `samples` runs. */
  ghost predicate PartialCurves(curves: seq<seq<Option<real>>>, trajectories: seq<seq<Option<real>>>, samples: nat,
                                percentiles: seq<real>, steps: nat)
  {
    && trajectories != [] && steps <= |trajectories[0]| && Aligned(trajectories, |trajectories[0]|)
    && |curves| == |percentiles|
    && forall j :: 0 <= j < |curves| ==>
         && |curves[j]| == steps
         && forall it :: 0 <= it < steps ==> CurveAt(curves[j], trajectories, Cell(samples, percentiles[j]), it)
  }

  ghost predicate AreCurves(curves: seq<seq<Option<real>>>, trajectories: seq<seq<Option<real>>>, samples: nat,
                            percentiles: seq<real>)
  {
    trajectories != [] && PartialCurves(curves, trajectories, samples, percentiles, |trajectories[0]|)
  }

  /** One step more of the curves. */
  lemma {:induction false} CurvesGrow(curves: seq<seq<Option<real>>>, trajectories: seq<seq<Option<real>>>,
                                  samples: nat,
                                      percentiles: seq<real>, it: nat, values: seq<Option<real>>,
                                      step: seq<Option<real>>)
    requires PartialCurves(curves, trajectories, samples, percentiles, it) && it < |trajectories[0]|
    requires |values| == |trajectories| && |step| == |percentiles|
    requires var column := Column(trajectories, it);
             AllNumbers(column) ==> AllNumbers(values) && Numbers(values) == Sort(Numbers(column))
    requires forall j :: 0 <= j < |step| ==> InCellOf(values, Cell(samples, percentiles[j])) == Ok(step[j])
    ensures var more := seq(|curves|, j requires 0 <= j < |curves| => curves[j] + [step[j]]);
            PartialCurves(more, trajectories, samples, percentiles, it + 1)
  {
    hide Cell, InCellOf, InCell, Sort;
    var more := seq(|curves|, j requires 0 <= j < |curves| => curves[j] + [step[j]]);
    forall j, t | 0 <= j < |more| && 0 <= t < it + 1
      ensures CurveAt(more[j], trajectories, Cell(samples, percentiles[j]), t)
    {
      if t == it {
        if AllNumbers(values) {
          InCellOfNumbers(values, Cell(samples, percentiles[j]));
        }
      } else {
        assert CurveAt(curves[j], trajectories, Cell(samples, percentiles[j]), t);
      }
    }
  }

  /** Percentile curves never cross: the curve of the smaller percentile is at or below the other's at every
      time step at which the trajectories are numbers. */
  lemma {:induction false} CurvesNeverCross(curves: seq<seq<Option<real>>>, trajectories: seq<seq<Option<real>>>,
                                            percentiles: seq<real>, j: nat, k: nat, it: nat)
    requires AreCurves(curves, trajectories, |trajectories|, percentiles) && 2 <= |trajectories|
    requires j < |curves| && k < |curves| && it < |trajectories[0]| && AllNumbers(Column(trajectories, it))
    requires 0.0 <= percentiles[j] <= percentiles[k] < 1.0
    ensures |curves[j]| == |curves[k]| == |trajectories[0]|
    ensures curves[j][it].Some? && curves[k][it].Some? && curves[j][it].value <= curves[k][it].value
  {
    hide Sort, Cell, InCell, Mix;
    var column := Numbers(Column(trajectories, it));
    SortSorts(column);
    PercentilesAscend(Sort(column), percentiles[j], percentiles[k]);
    assert CurveAt(curves[j], trajectories, Cell(|trajectories|, percentiles[j]), it);
    assert CurveAt(curves[k], trajectories, Cell(|trajectories|, percentiles[k]), it);
  }

  /** At every step at which the trajectories are numbers, every curve is the linear interpolation of their
      sorted values. */
  ghost predicate CurvesInterpolate(curves: seq<seq<Option<real>>>, trajectories: seq<seq<Option<real>>>,
                                    percentiles: seq<real>)
    requires trajectories != [] && Aligned(trajectories, |trajectories[0]|)
  {
    && |curves| == |percentiles|
    && forall j :: 0 <= j < |curves| ==>
         && |curves[j]| == |trajectories[0]|
         && forall it: nat :: it < |curves[j]| && 0.0 <= percentiles[j] < 1.0 ==>
              IsInterpolated(curves[j][it], Column(trajectories, it), percentiles[j])
  }

  ghost predicate IsInterpolated(value: Option<real>, column: seq<Option<real>>, p: real) {
    forall values, k: nat :: AreSortedNumbers(values, column) && FallsAfter(|values|, p, k) ==>
      k + 1 < |values| && value == Some(OnLine(values, p, k))
  }

  /** `values` are the numbers of the column in increasing order. */
  ghost predicate AreSortedNumbers(values: seq<real>, column: seq<Option<real>>) {
    && |values| == |column| && (forall i, j :: 0 <= i < j < |values| ==> values[i] <= values[j])
    && AllNumbers(column) && multiset(values) == multiset(Numbers(column))
  }

  lemma {:induction false} CurvesAreInterpolated(curves: seq<seq<Option<real>>>, trajectories: seq<seq<Option<real>>>,
                                                 percentiles: seq<real>)
    requires AreCurves(curves, trajectories, |trajectories|, percentiles) && 2 <= |trajectories|
    ensures CurvesInterpolate(curves, trajectories, percentiles)
  {
    hide Sort, Cell, InCell, OnLine, FallsAfter;
    forall j, it: nat | 0 <= j < |curves| && it < |curves[j]| && 0.0 <= percentiles[j] < 1.0
      ensures IsInterpolated(curves[j][it], Column(trajectories, it), percentiles[j])
    {
      var column := Column(trajectories, it);
      assert CurveAt(curves[j], trajectories, Cell(|trajectories|, percentiles[j]), it);
      forall values, k: nat | AreSortedNumbers(values, column) && FallsAfter(|values|, percentiles[j], k)
        ensures k + 1 < |values| && curves[j][it] == Some(OnLine(values, percentiles[j], k))
      {
        SortSorts(Numbers(column));
        SortedIsUnique(values, Sort(Numbers(column)));
        PercentileIsOnLine(values, percentiles[j], k);
      }
    }
  }

  function Without<T>(xs: seq<T>, k: nat): (r: seq<T>)
    requires k < |xs|
    ensures |r| == |xs| - 1 && forall x :: x in r ==> x in xs
  {
    xs[..k] + xs[k + 1..]
  }

  lemma {:induction false} RemoveOne<T>(xs: seq<T>, k: nat)
    requires k < |xs|
    ensures multiset(Without(xs, k)) == multiset(xs) - multiset{xs[k]}
  {
    assert xs == xs[..k] + [xs[k]] + xs[k + 1..];
  }

  lemma {:induction false} PositionOf<T>(xs: seq<T>, x: T) returns (k: nat)
    requires x in multiset(xs)
    ensures k < |xs| && xs[k] == x
  {
    k :| 0 <= k < |xs| && xs[k] == x;
  }

  /** Every trajectory has a step `it`. */
  ghost predicate Reach(trajectories: seq<seq<Option<real>>>, it: nat) {
    forall x :: x in trajectories ==> it < |x|
  }

  lemma {:induction false} ColumnWithout(xs: seq<seq<Option<real>>>, k: nat, it: nat)
    requires k < |xs| && Reach(xs, it)
    ensures multiset(Column(xs, it)) == multiset(Column(Without(xs, k), it)) + multiset{xs[k][it]}
  {
    var c := Column(xs, it);
    assert c == c[..k] + [c[k]] + c[k + 1..];
    assert Column(Without(xs, k), it) == c[..k] + c[k + 1..];
  }

  lemma {:induction false} ColumnPermutes(xs: seq<seq<Option<real>>>, ys: seq<seq<Option<real>>>, it: nat)
    requires multiset(xs) == multiset(ys) && Reach(xs, it) && Reach(ys, it)
    ensures multiset(Column(xs, it)) == multiset(Column(ys, it))
    decreases |xs|
  {
    SameLength(xs, ys);
    if xs != [] {
      hide Without;
      assert xs[0] in multiset(ys);
      var k := PositionOf(ys, xs[0]);
      RemoveOne(xs, 0);
      RemoveOne(ys, k);
      ColumnPermutes(Without(xs, 0), Without(ys, k), it);
      ColumnWithout(xs, 0, it);
      ColumnWithout(ys, k, it);
    }
  }

  /** Rearranged columns sort alike. */
  lemma {:induction false} NumbersPermute(xs: seq<Option<real>>, ys: seq<Option<real>>)
    requires multiset(xs) == multiset(ys) && AllNumbers(xs)
    ensures AllNumbers(ys) && Sort(Numbers(xs)) == Sort(Numbers(ys))
  {
    hide Sort;
    forall i | 0 <= i < |ys|
      ensures ys[i].Some?
    {
      assert ys[i] in multiset(xs);
    }
    forall v: real
      ensures multiset(Numbers(xs))[v] == multiset(Numbers(ys))[v]
    {
      NumbersCount(xs, Some(v));
      NumbersCount(ys, Some(v));
    }
    assert multiset(Numbers(xs)) == multiset(Numbers(ys));
    SortSorts(Numbers(xs));
    SortSorts(Numbers(ys));
    SortedIsUnique(Sort(Numbers(xs)), Sort(Numbers(ys)));
  }

  /** Permuting the trajectories changes no curve, wherever they are numbers. */
  lemma {:induction false} CurvesIgnoreOrder(a: seq<seq<Option<real>>>, b: seq<seq<Option<real>>>,
                                             xs: seq<seq<Option<real>>>, ys: seq<seq<Option<real>>>, samples: nat,
                                             percentiles: seq<real>)
    requires multiset(xs) == multiset(ys)
    requires AreCurves(a, xs, samples, percentiles) && AreCurves(b, ys, samples, percentiles)
    ensures |a| == |b| == |percentiles| && |xs[0]| == |ys[0]|
    ensures forall j, it :: 0 <= j < |a| && 0 <= it < |xs[0]| && AllNumbers(Column(xs, it)) ==>
              |a[j]| == |b[j]| == |xs[0]| && a[j][it] == b[j][it]
  {
    hide Sort, Cell, InCell;
    assert xs[0] in multiset(ys);
    forall j, it: nat | 0 <= j < |a| && it < |xs[0]| && AllNumbers(Column(xs, it))
      ensures |a[j]| == |b[j]| == |xs[0]| && a[j][it] == b[j][it]
    {
      ColumnPermutes(xs, ys, it);
      NumbersPermute(Column(xs, it), Column(ys, it));
      assert CurveAt(a[j], xs, Cell(samples, percentiles[j]), it);
      assert CurveAt(b[j], ys, Cell(samples, percentiles[j]), it);
    }
  }
}
