/** The adjuster: a masked multiplicative rescale of every value that breaks
    its column's threshold, then an unconditional clamp of every column. */
module MeshAdjust {
  import opened MeshData
  import opened MeshQuality

  /** The factor a value that breaks its threshold is multiplied by. */
  function Factor(c: Attribute): real
  {
    match c
    case AspectRatio => 0.7
    case Jacobian => 1.3
    case Skewness => 0.6
    case Quality => 1.25
  }

  /** The clamp range [Lower(c), Upper(c)] of each column. */
  function Lower(c: Attribute): real
  {
    match c
    case AspectRatio => 1.0
    case Jacobian => 0.3
    case Skewness => 0.0
    case Quality => 0.5
  }

  function Upper(c: Attribute): real
  {
    match c
    case AspectRatio => 4.0
    case Jacobian => 1.0
    case Skewness => 0.7
    case Quality => 1.0
  }

  predicate Within(c: Attribute, v: real)
  {
    Lower(c) <= v <= Upper(c)
  }

  predicate InClampRanges(e: Element)
  {
    Within(AspectRatio, e.aspectRatio) && Within(Jacobian, e.jacobian) &&
    Within(Skewness, e.skewness) && Within(Quality, e.quality)
  }

  /** Values below `lo` become `lo`, values above `hi` become `hi`. */
  function Clamp(v: real, lo: real, hi: real): (r: real)
    requires lo <= hi
    ensures lo <= r <= hi
    ensures lo <= v <= hi ==> r == v
    ensures v < lo ==> r == lo
    ensures v > hi ==> r == hi
  {
    if v < lo then lo else if v > hi then hi else v
  }

  /** Column `c` is one where a larger value is worse (aspect ratio, skewness). */
  predicate HigherIsWorse(c: Attribute)
  {
    c == AspectRatio || c == Skewness
  }

  /** `v` is not beyond the clamp bound on the good side of column `c`:
      aspect ratio at least 1.0, skewness at least 0.0, and Jacobian and
      element quality at most 1.0. */
  predicate OnGoodSideBound(c: Attribute, v: real)
  {
    if HigherIsWorse(c) then Lower(c) <= v else v <= Upper(c)
  }

  /** The adjusted value of one attribute: rescaled when it breaks the
      threshold, then clamped. It depends on that attribute's input only. */
  function AdjustValue(c: Attribute, v: real): (r: real)
    ensures Within(c, r)
    ensures !Breaks(c, v) && Within(c, v) ==> r == v
    ensures OnGoodSideBound(c, v) ==> if HigherIsWorse(c) then r <= v else r >= v
  {
    Clamp(if Breaks(c, v) then v * Factor(c) else v, Lower(c), Upper(c))
  }

  /** The adjusted row: the id kept, each attribute adjusted on its own. */
  function AdjustElement(e: Element): (r: Element)
    ensures r.id == e.id && InClampRanges(r)
    ensures forall c :: Get(r, c) == AdjustValue(c, Get(e, c))
  {
    Element(e.id, AdjustValue(AspectRatio, e.aspectRatio), AdjustValue(Jacobian, e.jacobian),
      AdjustValue(Skewness, e.skewness), AdjustValue(Quality, e.quality))
  }

  /** One row after the masked rescale of column `c`. */
  function Scaled(c: Attribute, e: Element): Element
  {
    var v := Get(e, c);
    if Breaks(c, v) then With(e, c, v * Factor(c)) else e
  }

  /** One row after clamping column `c`. */
  function Clipped(c: Attribute, e: Element): Element
  {
    With(e, c, Clamp(Get(e, c), Lower(c), Upper(c)))
  }

  function ScaledColumn(t: Table, c: Attribute): (r: Table)
    ensures |r| == |t| && forall i :: 0 <= i < |t| ==> r[i] == Scaled(c, t[i])
  {
    seq(|t|, i requires 0 <= i < |t| => Scaled(c, t[i]))
  }

  function ClippedColumn(t: Table, c: Attribute): (r: Table)
    ensures |r| == |t| && forall i :: 0 <= i < |t| ==> r[i] == Clipped(c, t[i])
  {
    seq(|t|, i requires 0 <= i < |t| => Clipped(c, t[i]))
  }

  /** The optimized table: the four column rescales in turn, then the four clamps. */
  function Optimized(t: Table): (r: Table)
    ensures |r| == |t|
  {
    var scaled := ScaledColumn(ScaledColumn(ScaledColumn(ScaledColumn(t, AspectRatio), Jacobian), Skewness), Quality);
    ClippedColumn(ClippedColumn(ClippedColumn(ClippedColumn(scaled, AspectRatio), Jacobian), Skewness), Quality)
  }

  /** The eight column passes, applied to a single row, give the row-wise adjustment. */
  lemma PassesOnRow(e: Element)
    ensures Clipped(Quality, Clipped(Skewness, Clipped(Jacobian, Clipped(AspectRatio,
      Scaled(Quality, Scaled(Skewness, Scaled(Jacobian, Scaled(AspectRatio, e)))))))) == AdjustElement(e)
  {
  }

  /** The column-wise passes of the optimizer keep the number of rows and
      every Element_ID in place, and turn each row into its row-wise
      adjustment, so every output row lies in the clamp ranges. */
  lemma OptimizedRowwise(t: Table)
    ensures |Optimized(t)| == |t|
    ensures forall i :: 0 <= i < |t| ==> Optimized(t)[i] == AdjustElement(t[i])
    ensures forall i :: 0 <= i < |t| ==> Optimized(t)[i].id == t[i].id && InClampRanges(Optimized(t)[i])
  {
    forall i | 0 <= i < |t|
      ensures Optimized(t)[i] == AdjustElement(t[i])
    {
      PassesOnRow(t[i]);
    }
  }

  /** For inputs on the good side of their bounds, the optimizer never makes
      aspect ratio or skewness larger, nor Jacobian or element quality smaller. */
  lemma OptimizedTowardGood(t: Table, i: nat)
    requires i < |t|
    requires t[i].aspectRatio >= 1.0 && t[i].skewness >= 0.0
    requires t[i].jacobian <= 1.0 && t[i].quality <= 1.0
    ensures Optimized(t)[i].aspectRatio <= t[i].aspectRatio
    ensures Optimized(t)[i].skewness <= t[i].skewness
    ensures Optimized(t)[i].jacobian >= t[i].jacobian
    ensures Optimized(t)[i].quality >= t[i].quality
  {
    OptimizedRowwise(t);
  }

  /** The adjuster is not idempotent, and its output is not free of poor
      elements: a generator-range row whose Jacobian is 0.3 becomes 0.39,
      which still breaks the 0.5 threshold and is rescaled again on a second pass. */
  lemma AdjustedCanStayPoor()
    ensures exists e: Element :: IsPoor(AdjustElement(e)) && AdjustElement(AdjustElement(e)) != AdjustElement(e)
  {
    var e := Element(1, 2.0, 0.3, 0.3, 0.8);
    assert AdjustElement(e).jacobian == 0.39;
    assert AdjustElement(AdjustElement(e)).jacobian == 0.507;
  }

  /** The masked in-place rescale `.loc[mask, c] *= Factor(c)` of one column. */
  method ScaleColumn(a: array<Element>, c: Attribute)
    modifies a
    ensures a[..] == ScaledColumn(old(a[..]), c)
  {
    for i := 0 to a.Length
      invariant forall j :: 0 <= j < i ==> a[j] == Scaled(c, old(a[j]))
      invariant forall j :: i <= j < a.Length ==> a[j] == old(a[j])
    {
      var v := Get(a[i], c);
      if Breaks(c, v) {
        a[i] := With(a[i], c, v * Factor(c));
      }
    }
  }

  /** The reassignment of column `c` with its clamped values. */
  method ClipColumn(a: array<Element>, c: Attribute)
    modifies a
    ensures a[..] == ClippedColumn(old(a[..]), c)
  {
    for i := 0 to a.Length
      invariant forall j :: 0 <= j < i ==> a[j] == Clipped(c, old(a[j]))
      invariant forall j :: i <= j < a.Length ==> a[j] == old(a[j])
    {
      a[i] := With(a[i], c, Clamp(Get(a[i], c), Lower(c), Upper(c)));
    }
  }
}
