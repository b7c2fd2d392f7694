/** The quality classifier: the fixed thresholds that make an element poor,
    the order-preserving filter of the poor rows and the analysis summary. */
module MeshQuality {
  import opened MeshData

  /** True when value `v` of column `c` breaks that column's threshold. */
  predicate Breaks(c: Attribute, v: real)
  {
    match c
    case AspectRatio => v > 3.5
    case Jacobian => v < 0.5
    case Skewness => v > 0.6
    case Quality => v < 0.6
  }

  /** A poor element breaks at least one of the four thresholds. */
  predicate IsPoor(e: Element)
  {
    Breaks(AspectRatio, e.aspectRatio) || Breaks(Jacobian, e.jacobian) ||
    Breaks(Skewness, e.skewness) || Breaks(Quality, e.quality)
  }

  /** The rows of `t` that are poor, as the boolean-mask selection yields them. */
  function PoorElements(t: Table): (r: Table)
    ensures |r| <= |t|
    ensures forall e :: e in r ==> e in t && IsPoor(e)
    ensures forall e :: e in t && IsPoor(e) ==> e in r
  {
    if t == [] then [] else (if IsPoor(t[0]) then [t[0]] else []) + PoorElements(t[1..])
  }

  /** The positions k, k+1, ... of `t` whose rows are poor, in increasing order. */
  function PoorIndicesFrom(t: Table, k: nat): seq<nat>
    requires k <= |t|
    decreases |t| - k
  {
    if k == |t| then [] else (if IsPoor(t[k]) then [k] else []) + PoorIndicesFrom(t, k + 1)
  }

  predicate Increasing(s: seq<nat>)
  {
    forall j, j' :: 0 <= j < j' < |s| ==> s[j] < s[j']
  }

  function PoorIndices(t: Table): seq<nat>
  {
    PoorIndicesFrom(t, 0)
  }

  /** Unfolds one step of PoorIndicesFrom. */
  lemma PoorIndicesStep(t: Table, k: nat)
    requires k < |t|
    ensures IsPoor(t[k]) ==> PoorIndicesFrom(t, k) == [k] + PoorIndicesFrom(t, k + 1)
    ensures !IsPoor(t[k]) ==> PoorIndicesFrom(t, k) == PoorIndicesFrom(t, k + 1)
  {
  }

  lemma {:induction false} PoorIndicesBounded(t: Table, k: nat)
    requires k <= |t|
    ensures forall j :: 0 <= j < |PoorIndicesFrom(t, k)| ==> k <= PoorIndicesFrom(t, k)[j] < |t|
    decreases |t| - k
  {
    if k < |t| {
      PoorIndicesBounded(t, k + 1);
      PoorIndicesStep(t, k);
    }
  }

  lemma {:induction false} PoorIndicesIncrease(t: Table, k: nat)
    requires k <= |t|
    ensures Increasing(PoorIndicesFrom(t, k))
    decreases |t| - k
  {
    if k < |t| {
      PoorIndicesIncrease(t, k + 1);
      PoorIndicesBounded(t, k + 1);
      PoorIndicesStep(t, k);
      var rest := PoorIndicesFrom(t, k + 1);
      if IsPoor(t[k]) {
        var idx := [k] + rest;
        forall j, j' | 0 <= j < j' < |idx|
          ensures idx[j] < idx[j']
        {
          assert idx[j'] == rest[j' - 1];
          if j > 0 { assert idx[j] == rest[j - 1]; }
        }
      }
    }
  }

  lemma {:induction false} PoorIndicesExact(t: Table, k: nat)
    requires k <= |t|
    ensures forall i :: k <= i < |t| ==> (IsPoor(t[i]) <==> i in PoorIndicesFrom(t, k))
    decreases |t| - k
  {
    if k < |t| {
      PoorIndicesExact(t, k + 1);
      PoorIndicesBounded(t, k + 1);
      PoorIndicesStep(t, k);
      assert k !in PoorIndicesFrom(t, k + 1);
    }
  }

  lemma {:induction false} PoorElementsFrom(t: Table, k: nat)
    requires k <= |t|
    ensures |PoorIndicesFrom(t, k)| == |PoorElements(t[k..])|
    ensures forall j :: 0 <= j < |PoorIndicesFrom(t, k)| ==>
      PoorIndicesFrom(t, k)[j] < |t| && PoorElements(t[k..])[j] == t[PoorIndicesFrom(t, k)[j]]
    decreases |t| - k
  {
    PoorIndicesBounded(t, k);
    if k < |t| {
      PoorElementsFrom(t, k + 1);
      PoorIndicesStep(t, k);
      var tail := PoorElements(t[k + 1..]);
      assert t[k..][1..] == t[k + 1..];
      if IsPoor(t[k]) {
        assert PoorElements(t[k..]) == [t[k]] + tail;
      } else {
        assert PoorElements(t[k..]) == tail;
      }
    }
  }

  /** The poor rows are exactly the rows of `t` at the strictly increasing
      list of positions whose rows break a threshold: the filter keeps
      every poor row, no other row, and the original relative order. */
  lemma PoorElementsKeepOrder(t: Table)
    ensures |PoorIndices(t)| == |PoorElements(t)|
    ensures forall j :: 0 <= j < |PoorIndices(t)| ==>
      PoorIndices(t)[j] < |t| && PoorElements(t)[j] == t[PoorIndices(t)[j]]
    ensures Increasing(PoorIndices(t))
    ensures forall i :: 0 <= i < |t| ==> (IsPoor(t[i]) <==> i in PoorIndices(t))
  {
    PoorIndicesBounded(t, 0);
    PoorIndicesIncrease(t, 0);
    PoorIndicesExact(t, 0);
    PoorElementsFrom(t, 0);
    assert t[0..] == t;
  }

  /** Every row is poor exactly when the filter keeps all of them, and no
      row is poor exactly when it keeps none. */
  lemma {:induction false} PoorCountExtremes(t: Table)
    ensures |PoorElements(t)| == |t| <==> forall i :: 0 <= i < |t| ==> IsPoor(t[i])
    ensures |PoorElements(t)| == 0 <==> forall i :: 0 <= i < |t| ==> !IsPoor(t[i])
  {
    if t != [] {
      PoorCountExtremes(t[1..]);
      assert forall i :: 1 <= i < |t| ==> t[1..][i - 1] == t[i];
    }
  }

  /** The analysis summary, field for field as the report dictionary. */
  datatype Report = Report(
    totalElements: nat,
    poorQualityElements: nat,
    percentagePoor: real,
    avgAspectRatio: real,
    avgJacobian: real,
    avgSkewness: real,
    avgElementQuality: real)

  /** The share `part / whole` as a percentage. */
  function Percentage(part: nat, whole: nat): (p: real)
    requires 0 < whole && part <= whole
    ensures 0.0 <= p <= 100.0
    ensures p == 100.0 <==> part == whole
    ensures p == 0.0 <==> part == 0
  {
    var q := (part as real) / (whole as real);
    assert q <= 1.0 by {
      assert (part as real) <= (whole as real);
    }
    assert q == 1.0 ==> part == whole by {
      assert q * (whole as real) == part as real;
    }
    q * 100.0
  }

  /** The summary of a non-empty table. */
  function Summary(t: Table): (r: Report)
    requires |t| > 0
    ensures r.totalElements == |t| && r.poorQualityElements == |PoorElements(t)| <= |t|
    ensures 0.0 <= r.percentagePoor <= 100.0
    ensures r.percentagePoor == 100.0 <==> forall i :: 0 <= i < |t| ==> IsPoor(t[i])
    ensures r.percentagePoor == 0.0 <==> forall i :: 0 <= i < |t| ==> !IsPoor(t[i])
    ensures r.avgAspectRatio == Mean(Column(t, AspectRatio)) && r.avgJacobian == Mean(Column(t, Jacobian))
    ensures r.avgSkewness == Mean(Column(t, Skewness)) && r.avgElementQuality == Mean(Column(t, Quality))
  {
    var poor := |PoorElements(t)|;
    PoorCountExtremes(t);
    Report(
      |t|,
      poor,
      Percentage(poor, |t|),
      Mean(Column(t, AspectRatio)),
      Mean(Column(t, Jacobian)),
      Mean(Column(t, Skewness)),
      Mean(Column(t, Quality)))
  }
}
