/** The mesh table of the simulator: one record per finite element, the
    column arithmetic (sums and means) used by the analysis and the
    comparison, and the assembly of a table from its drawn columns. */
module MeshData {

  /** One row of the table: Element_ID and the four quality attributes. */
  datatype Element = Element(id: int, aspectRatio: real, jacobian: real, skewness: real, quality: real)

  /** A mesh table, rows in Element_ID order. */
  type Table = seq<Element>

  /** The four quality columns of the table. */
  datatype Attribute = AspectRatio | Jacobian | Skewness | Quality

  function Get(e: Element, c: Attribute): real
  {
    match c
    case AspectRatio => e.aspectRatio
    case Jacobian => e.jacobian
    case Skewness => e.skewness
    case Quality => e.quality
  }

  /** `e` with column `c` set to `v`; the id and the other columns are kept. */
  function With(e: Element, c: Attribute, v: real): (r: Element)
    ensures r.id == e.id && Get(r, c) == v
    ensures forall d :: d != c ==> Get(r, d) == Get(e, d)
  {
    match c
    case AspectRatio => e.(aspectRatio := v)
    case Jacobian => e.(jacobian := v)
    case Skewness => e.(skewness := v)
    case Quality => e.(quality := v)
  }

  /** Column `c` of the table, row by row. */
  function Column(t: Table, c: Attribute): (col: seq<real>)
    ensures |col| == |t|
    ensures forall i :: 0 <= i < |t| ==> col[i] == Get(t[i], c)
  {
    seq(|t|, i requires 0 <= i < |t| => Get(t[i], c))
  }

  function Sum(xs: seq<real>): real
  {
    if xs == [] then 0.0 else xs[0] + Sum(xs[1..])
  }

  /** The arithmetic mean of a non-empty column, as a table's `.mean()`. */
  function Mean(xs: seq<real>): real
    requires |xs| > 0
  {
    Sum(xs) / (|xs| as real)
  }

  /** A column that is pointwise no larger than another has no larger sum. */
  lemma {:induction false} SumMonotone(xs: seq<real>, ys: seq<real>)
    requires |xs| == |ys|
    requires forall i :: 0 <= i < |xs| ==> xs[i] <= ys[i]
    ensures Sum(xs) <= Sum(ys)
  {
    if xs != [] {
      assert forall i :: 0 <= i < |xs[1..]| ==> xs[1..][i] == xs[i + 1] && ys[1..][i] == ys[i + 1];
      SumMonotone(xs[1..], ys[1..]);
    }
  }

  /** A column whose values lie in [lo, hi] has a sum between n * lo and n * hi. */
  lemma {:induction false} SumWithin(xs: seq<real>, lo: real, hi: real)
    requires forall i :: 0 <= i < |xs| ==> lo <= xs[i] <= hi
    ensures (|xs| as real) * lo <= Sum(xs) <= (|xs| as real) * hi
  {
    if xs != [] {
      assert forall i :: 0 <= i < |xs[1..]| ==> xs[1..][i] == xs[i + 1];
      SumWithin(xs[1..], lo, hi);
      var m := |xs[1..]| as real;
      assert (|xs| as real) * lo == m * lo + lo;
      assert (|xs| as real) * hi == m * hi + hi;
    }
  }

  /** The mean of a column whose values lie in [lo, hi] lies in [lo, hi]. */
  lemma MeanWithin(xs: seq<real>, lo: real, hi: real)
    requires |xs| > 0
    requires forall i :: 0 <= i < |xs| ==> lo <= xs[i] <= hi
    ensures lo <= Mean(xs) <= hi
  {
    SumWithin(xs, lo, hi);
    var n := |xs| as real;
    assert Sum(xs) / n >= (n * lo) / n;
    assert Sum(xs) / n <= (n * hi) / n;
  }

  /** A column that is pointwise no larger than another has no larger mean. */
  lemma MeanMonotone(xs: seq<real>, ys: seq<real>)
    requires |xs| == |ys| > 0
    requires forall i :: 0 <= i < |xs| ==> xs[i] <= ys[i]
    ensures Mean(xs) <= Mean(ys)
  {
    SumMonotone(xs, ys);
    var n := |xs| as real;
    assert Sum(ys) / n - Sum(xs) / n == (Sum(ys) - Sum(xs)) / n;
  }

  /** The values the seeded generator draws, one sequence per column. */
  datatype Draws = Draws(aspectRatios: seq<real>, jacobians: seq<real>, skewness: seq<real>, qualities: seq<real>)
  {
    /** Every column holds exactly `n` draws. */
    predicate Fits(n: nat)
    {
      |aspectRatios| == n && |jacobians| == n && |skewness| == n && |qualities| == n
    }

    /** Every draw lies in the half-open range [low, high) of its uniform distribution. */
    predicate InUniformRanges()
    {
      (forall i :: 0 <= i < |aspectRatios| ==> 1.0 <= aspectRatios[i] < 5.0) &&
      (forall i :: 0 <= i < |jacobians| ==> 0.3 <= jacobians[i] < 1.0) &&
      (forall i :: 0 <= i < |skewness| ==> 0.0 <= skewness[i] < 0.8) &&
      (forall i :: 0 <= i < |qualities| ==> 0.4 <= qualities[i] < 1.0)
    }
  }

  /** The table of `n` elements built from the drawn columns, numbered 1..n. */
  function GeneratedTable(n: nat, d: Draws): (t: Table)
    requires d.Fits(n)
    ensures |t| == n
    ensures forall i :: 0 <= i < n ==> t[i].id == i + 1
    ensures forall i, j :: 0 <= i < j < n ==> t[i].id < t[j].id
    ensures Column(t, AspectRatio) == d.aspectRatios && Column(t, Jacobian) == d.jacobians
    ensures Column(t, Skewness) == d.skewness && Column(t, Quality) == d.qualities
  {
    seq(n, i requires 0 <= i < n =>
      Element(i + 1, d.aspectRatios[i], d.jacobians[i], d.skewness[i], d.qualities[i]))
  }
}
