/** The mesh quality analyzer and optimizer object: it caches the generated
    table and runs the analysis, the optimization and the comparison on it. */
module MeshAutomation {
  import opened MeshData
  import opened MeshQuality
  import opened MeshAdjust
  import opened MeshMetrics

  class MeshOptimizer {
    const numElements: nat
    /** The values the generator yields after it is seeded with 42. The seed
        is reset on every generation, so every generation draws these. */
    const draws: Draws
    /** The cached table; null until the first generation. */
    var meshData: array?<Element>

    ghost predicate Valid()
      reads this
    {
      draws.Fits(numElements) && (meshData != null ==> meshData.Length == numElements)
    }

    constructor (numElements: nat, draws: Draws)
      requires draws.Fits(numElements)
      ensures Valid()
      ensures this.numElements == numElements && this.draws == draws && meshData == null
    {
      this.numElements := numElements;
      this.draws := draws;
      meshData := null;
    }

    /** Builds a fresh table of elements 1..numElements, caches and returns it. */
    method GenerateMesh() returns (t: array<Element>)
      requires Valid()
      modifies this
      ensures Valid()
      ensures fresh(t) && meshData == t
      ensures t[..] == GeneratedTable(numElements, draws)
    {
      var rows := GeneratedTable(numElements, draws);
      t := new Element[|rows|](i requires 0 <= i < |rows| => rows[i]);
      assert t[..] == rows;
      meshData := t;
    }

    /** Summarises the cached table, generating it first if there is none. */
    method AnalyzeMeshQuality() returns (report: Report, poor: Table)
      requires Valid() && numElements > 0
      modifies this
      ensures Valid() && meshData != null
      ensures old(meshData) != null ==> meshData == old(meshData) && meshData[..] == old(meshData[..])
      ensures old(meshData) == null ==> fresh(meshData) && meshData[..] == GeneratedTable(numElements, draws)
      ensures report == Summary(meshData[..]) && poor == PoorElements(meshData[..])
    {
      if meshData == null {
        var generated := GenerateMesh();
      }
      var t := meshData[..];
      poor := PoorElements(t);
      report := Summary(t);
    }

    /** Returns an optimized copy of the cached table, generating it first if
        there is none; the cached table itself is left as it was. */
    method OptimizeMesh() returns (optimized: array<Element>)
      requires Valid()
      modifies this
      ensures Valid() && meshData != null
      ensures old(meshData) != null ==> meshData == old(meshData) && meshData[..] == old(meshData[..])
      ensures old(meshData) == null ==> fresh(meshData) && meshData[..] == GeneratedTable(numElements, draws)
      ensures fresh(optimized) && optimized != meshData && optimized.Length == meshData.Length
      ensures optimized[..] == Optimized(meshData[..])
      ensures forall i :: 0 <= i < optimized.Length ==>
        optimized[i].id == meshData[i].id && InClampRanges(optimized[i])
    {
      if meshData == null {
        var generated := GenerateMesh();
      }
      var source := meshData;
      optimized := new Element[source.Length](i requires 0 <= i < source.Length reads source => source[i]);
      ghost var t := optimized[..];
      assert t == source[..];

      ScaleColumn(optimized, AspectRatio);
      ScaleColumn(optimized, Jacobian);
      ScaleColumn(optimized, Skewness);
      ScaleColumn(optimized, Quality);

      ClipColumn(optimized, AspectRatio);
      ClipColumn(optimized, Jacobian);
      ClipColumn(optimized, Skewness);
      ClipColumn(optimized, Quality);

      OptimizedRowwise(t);
    }

    /** Compares the mean quality of the cached table with that of `optimized`. */
    method ComputeOptimizationMetrics(optimized: array<Element>) returns (r: Result<Metrics, MetricsError>)
      requires Valid() && optimized.Length > 0
      requires meshData != null ==> meshData.Length > 0
      ensures meshData == null ==> r == Failure(NoMeshData)
      ensures meshData != null ==> r == Compare(meshData[..], optimized[..])
    {
      if meshData == null {
        r := Failure(NoMeshData);
      } else {
        r := Compare(meshData[..], optimized[..]);
      }
    }
  }

  /** The sequence of steps the program's entry point runs, without its
      console output and file export: generate, analyze, optimize, compare. */
  method RunPipeline(numElements: nat, draws: Draws)
    returns (analysis: Report, poor: Table, optimized: seq<Element>, metrics: Result<Metrics, MetricsError>)
    requires numElements > 0 && draws.Fits(numElements) && draws.InUniformRanges()
    ensures analysis == Summary(GeneratedTable(numElements, draws))
    ensures poor == PoorElements(GeneratedTable(numElements, draws))
    ensures optimized == Optimized(GeneratedTable(numElements, draws))
    ensures metrics == Compare(GeneratedTable(numElements, draws), Optimized(GeneratedTable(numElements, draws)))
    ensures metrics.Success? && metrics.value.improvementPercentage >= 0.0
  {
    var optimizer := new MeshOptimizer(numElements, draws);
    var mesh := optimizer.GenerateMesh();
    analysis, poor := optimizer.AnalyzeMeshQuality();
    var table := optimizer.OptimizeMesh();
    metrics := optimizer.ComputeOptimizationMetrics(table);
    optimized := table[..];
    GeneratedMeshImproves(numElements, draws);
  }
}
