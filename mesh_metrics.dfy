/** The comparator: mean element quality before and after optimization and
    the percentage improvement between them. */
module MeshMetrics {
  import opened MeshData
  import opened MeshAdjust

  datatype Result<T, E> = Success(value: T) | Failure(error: E)

  datatype MetricsError =
    | NoMeshData            // no table has been generated yet
    | ZeroOriginalQuality   // the original mean quality is zero, so the ratio is undefined

  /** The comparison figures, field for field as the metrics dictionary. */
  datatype Metrics = Metrics(originalAvgQuality: real, optimizedAvgQuality: real, improvementPercentage: real)

  /** The change from `before` to `after` as a percentage of `before`. */
  function Improvement(before: real, after: real): (r: real)
    requires before != 0.0
    ensures after == before + before * r / 100.0
    ensures before > 0.0 ==> (r >= 0.0 <==> after >= before)
    ensures before > 0.0 ==> (r == 0.0 <==> after == before)
  {
    (after - before) / before * 100.0
  }

  /** The comparison of an original table with an optimized one. */
  function Compare(original: Table, optimized: Table): (r: Result<Metrics, MetricsError>)
    requires |original| > 0 && |optimized| > 0
    ensures r.Failure? <==> Mean(Column(original, Quality)) == 0.0
    ensures r.Failure? ==> r.error == ZeroOriginalQuality
    ensures r.Success? ==>
      r.value.originalAvgQuality == Mean(Column(original, Quality)) &&
      r.value.optimizedAvgQuality == Mean(Column(optimized, Quality)) &&
      r.value.optimizedAvgQuality == r.value.originalAvgQuality * (1.0 + r.value.improvementPercentage / 100.0)
  {
    var before, after := Mean(Column(original, Quality)), Mean(Column(optimized, Quality));
    if before == 0.0 then Failure(ZeroOriginalQuality)
    else Success(Metrics(before, after, Improvement(before, after)))
  }

  /** When every original quality is at most 1.0 and the original mean is
      positive, optimizing never lowers the mean quality: the improvement
      percentage is non-negative. */
  lemma OptimizationNeverWorsensQuality(t: Table)
    requires |t| > 0
    requires forall i :: 0 <= i < |t| ==> t[i].quality <= 1.0
    requires Mean(Column(t, Quality)) > 0.0
    ensures Compare(t, Optimized(t)).Success?
    ensures Compare(t, Optimized(t)).value.improvementPercentage >= 0.0
  {
    var opt := Optimized(t);
    OptimizedRowwise(t);
    forall i | 0 <= i < |t|
      ensures Column(t, Quality)[i] <= Column(opt, Quality)[i]
    {
      assert OnGoodSideBound(Quality, t[i].quality);
      assert Get(opt[i], Quality) == AdjustValue(Quality, Get(t[i], Quality));
    }
    MeanMonotone(Column(t, Quality), Column(opt, Quality));
  }

  /** A table generated from draws in their uniform ranges has a positive
      mean quality, so its comparison with its optimized table succeeds
      with a non-negative improvement. */
  lemma GeneratedMeshImproves(n: nat, d: Draws)
    requires n > 0 && d.Fits(n) && d.InUniformRanges()
    ensures Compare(GeneratedTable(n, d), Optimized(GeneratedTable(n, d))).Success?
    ensures Compare(GeneratedTable(n, d), Optimized(GeneratedTable(n, d))).value.improvementPercentage >= 0.0
  {
    var t := GeneratedTable(n, d);
    MeanWithin(Column(t, Quality), 0.4, 1.0);
    OptimizationNeverWorsensQuality(t);
  }
}
