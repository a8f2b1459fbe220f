/**
 The greedy masonry rule: every item goes to the leftmost shortest column.

 Heights are real numbers in units of the column width; columns and items are values here, and the
 widget tree that shows them is in `MasonryGallery`.
 */
module Masonry {

  // ---------------------------------------------------------------- item costs

  /** What a provider may pass as an aspect ratio, infinities and not-a-number included. */
  datatype Aspect = Missing | NotANumberType | NaN | PosInf | NegInf | Num(r: real)

  const DEFAULT_ASPECT_RATIO := 0.72
  const MIN_ASPECT_RATIO := 0.4
  const MAX_ASPECT_RATIO := 2.0
  const SPACING_REFERENCE_WIDTH := 200.0

  function SafeAspectRatio(a: Aspect): (ratio: real)
    ensures MIN_ASPECT_RATIO <= ratio <= MAX_ASPECT_RATIO
    ensures a.Num? && 0.4 <= a.r <= 2.0 ==> ratio == a.r
    ensures a.Num? && 0.0 < a.r < 0.4 ==> ratio == 0.4
    ensures (a.Num? && a.r > 2.0) || a.PosInf? || a.NaN? ==> ratio == 2.0
    ensures (a.Num? && a.r <= 0.0) || a.NegInf? || a.Missing? || a.NotANumberType? ==> ratio == 0.72
  {
    match a
    case Num(r) =>
      var ratio := if r <= 0.0 then DEFAULT_ASPECT_RATIO else r;
      if ratio < MIN_ASPECT_RATIO then MIN_ASPECT_RATIO
      else if ratio > MAX_ASPECT_RATIO then MAX_ASPECT_RATIO else ratio
    case NaN => MAX_ASPECT_RATIO    // neither comparison with not-a-number holds, so `min` keeps its first argument
    case PosInf => MAX_ASPECT_RATIO
    case _ => DEFAULT_ASPECT_RATIO
  }

  datatype Item = Item(control: int, aspect: Aspect)

  function Cost(item: Item, spacing: real): (c: real)
    requires spacing >= 0.0
    ensures c >= 1.0 / MAX_ASPECT_RATIO
  {
    var ratio := SafeAspectRatio(item.aspect);
    assert 1.0 / ratio >= 1.0 / MAX_ASPECT_RATIO by { Reciprocal(ratio); }
    1.0 / ratio + spacing / SPACING_REFERENCE_WIDTH
  }

  /** The cost of an item is its height at column width 1, and its share of the spacing at a width of 200. */
  lemma CostIsHeightAndSpacing(item: Item, spacing: real)
    requires spacing >= 0.0
    ensures (Cost(item, spacing) - spacing / 200.0) * SafeAspectRatio(item.aspect) == 1.0
    ensures item.aspect.Num? && 0.4 <= item.aspect.r <= 2.0 ==> (Cost(item, spacing) - spacing / 200.0) * item.aspect.r == 1.0
  {
    var ratio := SafeAspectRatio(item.aspect);
    assert (1.0 / ratio) * ratio == 1.0;
    assert Cost(item, spacing) - spacing / 200.0 == 1.0 / ratio;
  }

  lemma MulMono(a: real, b: real, c: real)
    requires a <= b && 0.0 <= c
    ensures c * a <= c * b
  {
  }

  lemma Reciprocal(ratio: real)
    requires 0.0 < ratio <= MAX_ASPECT_RATIO
    ensures 1.0 / ratio >= 1.0 / MAX_ASPECT_RATIO
  {
    var x := 1.0 / ratio;
    assert x * ratio == 1.0;
    MulMono(ratio, MAX_ASPECT_RATIO, x);
  }

  function Costs(items: seq<Item>, spacing: real): (cs: seq<real>)
    requires spacing >= 0.0
    ensures |cs| == |items|
    ensures forall i :: 0 <= i < |items| ==> cs[i] == Cost(items[i], spacing)
  {
    seq(|items|, i requires 0 <= i < |items| => Cost(items[i], spacing))
  }

  // ---------------------------------------------------------------- greedy placement

  predicate IsLeftmostMin(hs: seq<real>, c: nat) {
    && c < |hs|
    && (forall i :: 0 <= i < |hs| ==> hs[c] <= hs[i])
    && (forall i :: 0 <= i < c ==> hs[c] < hs[i])
  }

  /** Python's `min(range(n), key=heights.__getitem__)`. */
  function ArgMin(hs: seq<real>): (c: nat)
    requires |hs| > 0
    ensures IsLeftmostMin(hs, c)
  {
    if |hs| == 1 then 0
    else
      var c := ArgMin(hs[..|hs| - 1]);
      if hs[|hs| - 1] < hs[c] then |hs| - 1 else c
  }

  function AddTo(hs: seq<real>, c: nat, p: real): seq<real>
    requires c < |hs|
  {
    hs[c := hs[c] + p]
  }

  /** The column every item of a list goes to, starting from the heights `hs`. */
  function Greedy(hs: seq<real>, ps: seq<real>): (cols: seq<nat>)
    requires |hs| > 0
    ensures |cols| == |ps|
    ensures forall i :: 0 <= i < |cols| ==> cols[i] < |hs|
    decreases |ps|
  {
    if ps == [] then []
    else
      var c := ArgMin(hs);
      [c] + Greedy(AddTo(hs, c, ps[0]), ps[1..])
  }

  /** The heights any assignment of items to columns leads to. */
  function Heights(hs: seq<real>, ps: seq<real>, cols: seq<nat>): (r: seq<real>)
    requires |ps| == |cols|
    requires forall i :: 0 <= i < |cols| ==> cols[i] < |hs|
    ensures |r| == |hs|
    decreases |ps|
  {
    if ps == [] then hs else Heights(AddTo(hs, cols[0], ps[0]), ps[1..], cols[1..])
  }

  function Zeros(m: nat): (hs: seq<real>)
    ensures |hs| == m
    ensures forall i :: 0 <= i < m ==> hs[i] == 0.0
  {
    seq(m, _ => 0.0)
  }

  /** `n * x`, by repeated addition. */
  function Times(n: nat, x: real): real {
    if n == 0 then 0.0 else Times(n - 1, x) + x
  }

  function Sum(xs: seq<real>): real {
    if xs == [] then 0.0 else Sum(xs[..|xs| - 1]) + xs[|xs| - 1]
  }

  function Tallest(xs: seq<real>): (t: real)
    requires |xs| > 0
    ensures t in xs && forall i :: 0 <= i < |xs| ==> xs[i] <= t
  {
    if |xs| == 1 then xs[0]
    else
      var t := Tallest(xs[..|xs| - 1]);
      if xs[|xs| - 1] > t then xs[|xs| - 1] else t
  }

  // ---------------------------------------------------------------- sums of columns

  lemma {:induction false} SumAddTo(hs: seq<real>, c: nat, p: real)
    requires c < |hs|
    ensures Sum(AddTo(hs, c, p)) == Sum(hs) + p
  {
    var r := AddTo(hs, c, p);
    var n := |hs| - 1;
    if c == n {
      assert r[..n] == hs[..n];
    } else {
      SumAddTo(hs[..n], c, p);
      assert r[..n] == AddTo(hs[..n], c, p);
    }
  }

  lemma {:induction false} TimesMono(n: nat, x: real, y: real)
    requires x <= y
    ensures Times(n, x) <= Times(n, y)
  {
    if n > 0 {
      TimesMono(n - 1, x, y);
    }
  }

  lemma {:induction false} TimesAdd(n: nat, x: real, y: real)
    ensures Times(n, x + y) == Times(n, x) + Times(n, y)
  {
    if n > 0 {
      TimesAdd(n - 1, x, y);
    }
  }

  lemma {:induction false} TimesIsMultiplication(n: nat, x: real)
    ensures Times(n, x) == (n as real) * x
  {
    if n > 0 {
      TimesIsMultiplication(n - 1, x);
      assert (n as real) * x == ((n - 1) as real) * x + x;
    }
  }

  lemma {:induction false} SumBetween(xs: seq<real>, low: real, high: real)
    requires forall i :: 0 <= i < |xs| ==> low <= xs[i] <= high
    ensures Times(|xs|, low) <= Sum(xs) <= Times(|xs|, high)
  {
    if xs != [] {
      SumBetween(xs[..|xs| - 1], low, high);
    }
  }

  lemma {:induction false} SumOfZeros(m: nat)
    ensures Sum(Zeros(m)) == 0.0
  {
    if m > 0 {
      SumOfZeros(m - 1);
      assert Zeros(m)[..m - 1] == Zeros(m - 1);
    }
  }

  lemma {:induction false} SumFromFront(xs: seq<real>)
    requires |xs| > 0
    ensures Sum(xs) == xs[0] + Sum(xs[1..])
  {
    if |xs| > 1 {
      var n := |xs| - 1;
      SumFromFront(xs[..n]);
      assert xs[..n][1..] == xs[1..][..n - 1];
    }
  }

  /** No assignment creates or loses height. */
  lemma {:induction false} HeightsConserveCost(hs: seq<real>, ps: seq<real>, cols: seq<nat>)
    requires |ps| == |cols|
    requires forall i :: 0 <= i < |cols| ==> cols[i] < |hs|
    ensures Sum(Heights(hs, ps, cols)) == Sum(hs) + Sum(ps)
    decreases |ps|
  {
    if ps != [] {
      SumAddTo(hs, cols[0], ps[0]);
      HeightsConserveCost(AddTo(hs, cols[0], ps[0]), ps[1..], cols[1..]);
      SumFromFront(ps);
    }
  }

  // ---------------------------------------------------------------- Graham's bound

  predicate NonNegative(ps: seq<real>) {
    forall i :: 0 <= i < |ps| ==> ps[i] >= 0.0
  }

  /** Heights only grow, and a column that takes an item is at least that tall. */
  lemma {:induction false} HeightsGrow(hs: seq<real>, ps: seq<real>, cols: seq<nat>)
    requires |ps| == |cols| && NonNegative(ps)
    requires forall i :: 0 <= i < |cols| ==> cols[i] < |hs|
    requires forall c :: 0 <= c < |hs| ==> hs[c] >= 0.0
    ensures forall c :: 0 <= c < |hs| ==> Heights(hs, ps, cols)[c] >= hs[c]
    ensures forall i :: 0 <= i < |ps| ==> Heights(hs, ps, cols)[cols[i]] >= ps[i]
    decreases |ps|
  {
    if ps != [] {
      var r := AddTo(hs, cols[0], ps[0]);
      HeightsGrow(r, ps[1..], cols[1..]);
      assert Heights(hs, ps, cols) == Heights(r, ps[1..], cols[1..]);
      forall i | 0 <= i < |ps|
        ensures Heights(hs, ps, cols)[cols[i]] >= ps[i]
      {
        if i > 0 {
          assert ps[1..][i - 1] == ps[i] && cols[1..][i - 1] == cols[i];
        }
      }
    }
  }

  /** Every column is within `m - 1` times the largest item of the average. */
  predicate Balanced(hs: seq<real>, biggest: real) {
    |hs| > 0 && forall c :: 0 <= c < |hs| ==> Times(|hs|, hs[c]) <= Sum(hs) + Times(|hs| - 1, biggest)
  }

  /** No two columns differ by more than the largest item. */
  predicate Level(hs: seq<real>, biggest: real) {
    forall c, e :: 0 <= c < |hs| && 0 <= e < |hs| ==> hs[c] - hs[e] <= biggest
  }

  lemma GreedyStepStaysLevel(hs: seq<real>, p: real, biggest: real)
    requires 0.0 <= p <= biggest && |hs| > 0 && Level(hs, biggest)
    ensures Level(AddTo(hs, ArgMin(hs), p), biggest)
  {
    var t := ArgMin(hs);
    var r := AddTo(hs, t, p);
    forall c, e | 0 <= c < |r| && 0 <= e < |r|
      ensures r[c] - r[e] <= biggest
    {
      assert hs[t] <= hs[e] && hs[c] - hs[e] <= biggest;
    }
  }

  /** The column that takes the item was at most the average. */
  lemma ShortestIsBelowAverage(hs: seq<real>)
    requires |hs| > 0
    ensures Times(|hs|, hs[ArgMin(hs)]) <= Sum(hs)
  {
    SumBetween(hs, hs[ArgMin(hs)], Tallest(hs));
  }

  lemma GreedyStepBalances(hs: seq<real>, p: real, biggest: real)
    requires 0.0 <= p <= biggest && Balanced(hs, biggest) && Level(hs, biggest)
    ensures Balanced(AddTo(hs, ArgMin(hs), p), biggest) && Level(AddTo(hs, ArgMin(hs), p), biggest)
  {
    var t := ArgMin(hs);
    GreedyStepStaysLevel(hs, p, biggest);
    ShortestIsBelowAverage(hs);
    SumAddTo(hs, t, p);
    TimesAdd(|hs|, hs[t], p);
    TimesMono(|hs| - 1, p, biggest);
    var r := AddTo(hs, t, p);
    assert forall c :: 0 <= c < |hs| && c != t ==> r[c] == hs[c];
    assert Times(|hs|, r[t]) <= Sum(r) + Times(|hs| - 1, biggest);
  }

  lemma ZerosAreBalanced(m: nat, biggest: real)
    requires m > 0 && biggest >= 0.0
    ensures Balanced(Zeros(m), biggest) && Level(Zeros(m), biggest)
  {
    SumOfZeros(m);
    TimesIsMultiplication(m, 0.0);
    TimesIsMultiplication(m - 1, 0.0);
    TimesMono(m - 1, 0.0, biggest);
  }

  lemma {:induction false} GreedyBalances(hs: seq<real>, ps: seq<real>, biggest: real)
    requires NonNegative(ps)
    requires forall i :: 0 <= i < |ps| ==> ps[i] <= biggest
    requires Balanced(hs, biggest) && Level(hs, biggest)
    ensures Balanced(Heights(hs, ps, Greedy(hs, ps)), biggest)
    ensures Level(Heights(hs, ps, Greedy(hs, ps)), biggest)
    decreases |ps|
  {
    if ps != [] {
      GreedyStepBalances(hs, ps[0], biggest);
      GreedyBalances(AddTo(hs, ArgMin(hs), ps[0]), ps[1..], biggest);
      assert Greedy(hs, ps)[1..] == Greedy(AddTo(hs, ArgMin(hs), ps[0]), ps[1..]);
    }
  }

  function GreedyHeights(m: nat, ps: seq<real>): (hs: seq<real>)
    requires m > 0
    ensures |hs| == m
  {
    Heights(Zeros(m), ps, Greedy(Zeros(m), ps))
  }

  /** No assignment does better than the average column or the largest item. */
  lemma LowerBounds(m: nat, ps: seq<real>, cols: seq<nat>)
    requires m > 0 && NonNegative(ps)
    requires |cols| == |ps| && forall i :: 0 <= i < |cols| ==> cols[i] < m
    ensures Sum(ps) <= Times(m, Tallest(Heights(Zeros(m), ps, cols)))
    ensures 0.0 <= Tallest(Heights(Zeros(m), ps, cols))
    ensures forall i :: 0 <= i < |ps| ==> ps[i] <= Tallest(Heights(Zeros(m), ps, cols))
  {
    var r := Heights(Zeros(m), ps, cols);
    SumOfZeros(m);
    HeightsConserveCost(Zeros(m), ps, cols);
    HeightsGrow(Zeros(m), ps, cols);
    SumBetween(r, 0.0, Tallest(r));
    assert r[0] >= Zeros(m)[0];
  }

  /** The tallest greedy column is at most the average plus `(m - 1)/m` of the largest item. */
  lemma GreedyUpperBound(m: nat, ps: seq<real>, biggest: real)
    requires m > 0 && NonNegative(ps) && 0.0 <= biggest
    requires forall i :: 0 <= i < |ps| ==> ps[i] <= biggest
    ensures Times(m, Tallest(GreedyHeights(m, ps))) <= Sum(ps) + Times(m - 1, biggest)
  {
    ZerosAreBalanced(m, biggest);
    GreedyBalances(Zeros(m), ps, biggest);
    SumOfZeros(m);
    HeightsConserveCost(Zeros(m), ps, Greedy(Zeros(m), ps));
  }

  lemma MulPositive(a: real, b: real)
    requires a > 0.0 && b > 0.0
    ensures a * b > 0.0
  {
  }

  lemma ScaleDown(t: real, best: real, n: real)
    requires n >= 1.0 && n * t <= n * best + (n - 1.0) * best
    ensures t <= (2.0 - 1.0 / n) * best
  {
    var bound := (2.0 - 1.0 / n) * best;
    assert n * (1.0 / n) == 1.0;
    assert n * (2.0 - 1.0 / n) == 2.0 * n - 1.0;
    assert n * bound == (n * (2.0 - 1.0 / n)) * best;
    assert n * (t - bound) == n * t - n * bound;
    if t > bound {
      MulPositive(n, t - bound);
    }
  }

  /** `t` is at most `2 - 1/m` times `best`. */
  predicate WithinGraham(m: nat, t: real, best: real)
    requires m > 0
  {
    t <= (2.0 - 1.0 / (m as real)) * best
  }

  lemma TimesBound(m: nat, t: real, best: real)
    requires m > 0 && Times(m, t) <= Times(m, best) + Times(m - 1, best)
    ensures WithinGraham(m, t, best)
  {
    TimesIsMultiplication(m, t);
    TimesIsMultiplication(m, best);
    TimesIsMultiplication(m - 1, best);
    ScaleDown(t, best, m as real);
  }

  lemma GrahamTimes(m: nat, ps: seq<real>, other: seq<nat>)
    requires m > 0 && NonNegative(ps)
    requires |other| == |ps| && forall i :: 0 <= i < |other| ==> other[i] < m
    ensures var best := Tallest(Heights(Zeros(m), ps, other));
            Times(m, Tallest(GreedyHeights(m, ps))) <= Times(m, best) + Times(m - 1, best)
  {
    LowerBounds(m, ps, other);
    GreedyUpperBound(m, ps, Tallest(Heights(Zeros(m), ps, other)));
  }

  /** The tallest greedy column is at most `2 - 1/m` times the tallest column of any other assignment. */
  lemma GrahamBound(m: nat, ps: seq<real>, other: seq<nat>)
    requires m > 0 && NonNegative(ps)
    requires |other| == |ps| && forall i :: 0 <= i < |other| ==> other[i] < m
    ensures WithinGraham(m, Tallest(GreedyHeights(m, ps)), Tallest(Heights(Zeros(m), ps, other)))
  {
    GrahamTimes(m, ps, other);
    TimesBound(m, Tallest(GreedyHeights(m, ps)), Tallest(Heights(Zeros(m), ps, other)));
  }

  /** Any two greedy columns differ by at most the largest single item. */
  lemma ColumnsStayLevel(m: nat, ps: seq<real>, c: nat, e: nat)
    requires m > 0 && NonNegative(ps) && |ps| > 0 && c < m && e < m
    ensures GreedyHeights(m, ps)[c] - GreedyHeights(m, ps)[e] <= Tallest(ps)
  {
    var biggest := Tallest(ps);
    assert ps[0] >= 0.0 && ps[0] <= biggest;
    ZerosAreBalanced(m, biggest);
    GreedyBalances(Zeros(m), ps, biggest);
  }

  // ---------------------------------------------------------------- columns of items

  /** What the gallery shows: the height of every column and the items in it, top to bottom. */
  datatype Layout = Layout(heights: seq<real>, columns: seq<seq<Item>>)

  predicate Wide(l: Layout, m: nat) {
    m > 0 && |l.heights| == m && |l.columns| == m
  }

  function Empty(m: nat): Layout {
    Layout(Zeros(m), seq(m, _ => []))
  }

  /** One item goes to the leftmost shortest column. */
  function PlaceOne(l: Layout, item: Item, spacing: real): (r: Layout)
    requires spacing >= 0.0 && Wide(l, |l.heights|)
    ensures Wide(r, |l.heights|)
  {
    var c := ArgMin(l.heights);
    Layout(AddTo(l.heights, c, Cost(item, spacing)), l.columns[c := l.columns[c] + [item]])
  }

  function Place(l: Layout, items: seq<Item>, spacing: real): (r: Layout)
    requires spacing >= 0.0 && Wide(l, |l.heights|)
    ensures Wide(r, |l.heights|)
    decreases |items|
  {
    if items == [] then l else Place(PlaceOne(l, items[0], spacing), items[1..], spacing)
  }

  /** The items an assignment sends to column `c`, in their order. */
  function Pick(items: seq<Item>, cols: seq<nat>, c: nat): seq<Item>
    requires |items| == |cols|
  {
    if items == [] then []
    else (if cols[0] == c then [items[0]] else []) + Pick(items[1..], cols[1..], c)
  }

  /** Placing a list in two batches is placing it at once. */
  lemma {:induction false} PlaceConcat(l: Layout, xs: seq<Item>, ys: seq<Item>, spacing: real)
    requires spacing >= 0.0 && Wide(l, |l.heights|)
    ensures Place(l, xs + ys, spacing) == Place(Place(l, xs, spacing), ys, spacing)
    decreases |xs|
  {
    if xs == [] {
      assert xs + ys == ys;
    } else {
      assert (xs + ys)[1..] == xs[1..] + ys;
      PlaceConcat(PlaceOne(l, xs[0], spacing), xs[1..], ys, spacing);
    }
  }

  lemma CostsTail(items: seq<Item>, spacing: real)
    requires spacing >= 0.0 && items != []
    ensures Costs(items, spacing)[1..] == Costs(items[1..], spacing)
  {
  }

  /** The layout is the greedy assignment: its heights, and each column the items assigned to it. */
  lemma {:induction false} PlaceIsGreedy(l: Layout, items: seq<Item>, spacing: real)
    requires spacing >= 0.0 && Wide(l, |l.heights|)
    ensures var ps := Costs(items, spacing);
            var cols := Greedy(l.heights, ps);
            var r := Place(l, items, spacing);
            && r.heights == Heights(l.heights, ps, cols)
            && forall c :: 0 <= c < |l.columns| ==> r.columns[c] == l.columns[c] + Pick(items, cols, c)
    decreases |items|
  {
    if items != [] {
      var q := PlaceOne(l, items[0], spacing);
      CostsTail(items, spacing);
      PlaceIsGreedy(q, items[1..], spacing);
      var cols := Greedy(l.heights, Costs(items, spacing));
      assert cols[1..] == Greedy(q.heights, Costs(items[1..], spacing));
      var r := Place(l, items, spacing);
      forall c | 0 <= c < |l.columns|
        ensures r.columns[c] == l.columns[c] + Pick(items, cols, c)
      {
        assert q.columns[c] == l.columns[c] + if cols[0] == c then [items[0]] else [];
        assert r.columns[c] == q.columns[c] + Pick(items[1..], cols[1..], c);
      }
    }
  }

  /** Everything a gallery shows, in whichever column. */
  function Shown(columns: seq<seq<Item>>): multiset<Item> {
    if columns == [] then multiset{}
    else Shown(columns[..|columns| - 1]) + multiset(columns[|columns| - 1])
  }

  lemma {:induction false} ShownAfterAppend(columns: seq<seq<Item>>, c: nat, item: Item)
    requires c < |columns|
    ensures Shown(columns[c := columns[c] + [item]]) == Shown(columns) + multiset{item}
  {
    var n := |columns| - 1;
    var r := columns[c := columns[c] + [item]];
    if c == n {
      assert r[..n] == columns[..n];
    } else {
      ShownAfterAppend(columns[..n], c, item);
      assert r[..n] == columns[..n][c := columns[..n][c] + [item]];
    }
  }

  /** Every placed item is shown exactly as often as it is listed, and nothing else is. */
  lemma {:induction false} PlaceShowsEveryItemOnce(l: Layout, items: seq<Item>, spacing: real)
    requires spacing >= 0.0 && Wide(l, |l.heights|)
    ensures Shown(Place(l, items, spacing).columns) == Shown(l.columns) + multiset(items)
    decreases |items|
  {
    if items != [] {
      ShownAfterAppend(l.columns, ArgMin(l.heights), items[0]);
      PlaceShowsEveryItemOnce(PlaceOne(l, items[0], spacing), items[1..], spacing);
      assert items == [items[0]] + items[1..];
    }
  }

  /** Appending works from the heights alone: what it distributes is what a layout from scratch would add. */
  lemma AppendIsRebuild(m: nat, items: seq<Item>, batch: seq<Item>, spacing: real)
    requires m > 0 && spacing >= 0.0
    ensures var before, after := Place(Empty(m), items, spacing), Place(Empty(m), items + batch, spacing);
            var b := Place(Layout(before.heights, Empty(m).columns), batch, spacing);
            && after.heights == b.heights
            && forall c :: 0 <= c < m ==> after.columns[c] == before.columns[c] + b.columns[c]
  {
    var before := Place(Empty(m), items, spacing);
    PlaceConcat(Empty(m), items, batch, spacing);
    PlaceIsGreedy(before, batch, spacing);
    PlaceIsGreedy(Layout(before.heights, Empty(m).columns), batch, spacing);
  }

  /** What a gallery of any items shows is within Graham's bound of any other way to fill its columns. */
  lemma GalleryWithinGraham(m: nat, items: seq<Item>, spacing: real, other: seq<nat>)
    requires m > 0 && spacing >= 0.0
    requires |other| == |items| && forall i :: 0 <= i < |other| ==> other[i] < m
    ensures WithinGraham(m, Tallest(Place(Empty(m), items, spacing).heights),
                         Tallest(Heights(Zeros(m), Costs(items, spacing), other)))
  {
    PlaceIsGreedy(Empty(m), items, spacing);
    GrahamBound(m, Costs(items, spacing), other);
  }
}
