# CAE mesh automation — a Dafny model

This project models the `MeshOptimizer` class of `CAE_mesh_automation.py`. The class simulates finite-element mesh quality. It builds a table with one row per element: `Element_ID`, `Aspect_Ratio`, `Jacobian`, `Skewness` and `Element_Quality`. It can then do three things with that table:

- flag the poor elements with fixed thresholds;
- build an "optimized" copy by rescaling every value that breaks its threshold and then clamping every column;
- compare the mean element quality before and after.

Attribute values are exact `real`s. The seeded random draws are a parameter of the object.

Modules, one file each:

- `MeshData` (`mesh_data.dfy`): the `Element` row and the `Table`. It also holds column access, `Sum`/`Mean` with their bound and monotonicity lemmas, the drawn columns (`Draws`), and `GeneratedTable`, which numbers the rows 1..N.
- `MeshQuality` (`mesh_quality.dfy`): the thresholds (`Breaks`, `IsPoor`) and the order-preserving filter `PoorElements` with its index characterisation. It also holds `Percentage` and the analysis `Summary`.
- `MeshAdjust` (`mesh_adjust.dfy`): the rescale factors and clamp ranges, and the per-row adjustment (`AdjustValue`, `AdjustElement`). It also holds the column passes as functions (`ScaledColumn`, `ClippedColumn`, `Optimized`) and as in-place array methods (`ScaleColumn`, `ClipColumn`), plus the lemmas that link the two views.
- `MeshMetrics` (`mesh_metrics.dfy`): the comparator (`Improvement`, `Compare`) and the lemmas that optimization never lowers mean quality.
- `MeshAutomation` (`mesh_automation.dfy`): the class `MeshOptimizer`, whose field `meshData` is the lazily filled cache. `null` stands for Python's `None`. The file also holds `RunPipeline`, the step sequence of the entry point without its I/O.

Two behaviours of the code are worth knowing. First, `optimize_mesh` is not idempotent, and its output can still contain poor elements. A Jacobian of 0.3 becomes 0.39, which still breaks the 0.5 threshold, and a second pass rescales it again (`AdjustedCanStayPoor`). The model keeps this as written. Second, a table of zero elements is generated without error. On such a table the poor percentage raises a division by zero (line 46), and the column means and the improvement figure come out as NaN (lines 76-79); the analysis means at lines 47-50 are never reached because line 46 raises first. The model therefore demands a non-empty table only for the analysis and the comparison.

## Model

| member | source | states |
|---|---|---|
| `MeshData.GeneratedTable` | CAE_mesh_automation.py:15-27 | the generated table has N rows, `Element_ID` i+1 at position i (strictly increasing), and reading each column back gives exactly the drawn values |
| `MeshData.MeanWithin` | CAE_mesh_automation.py:47-50 | the mean of a non-empty column whose values lie in [lo, hi] lies in [lo, hi] |
| `MeshData.MeanMonotone` | CAE_mesh_automation.py:76-77 | a column pointwise no larger than another of the same length has no larger mean |
| `MeshData.SumMonotone` | CAE_mesh_automation.py:76-77 | a column pointwise no larger than another has no larger sum |
| `MeshData.SumWithin` | CAE_mesh_automation.py:47-50 | a column with values in [lo, hi] has a sum between n*lo and n*hi |
| `MeshQuality.PoorElements` | CAE_mesh_automation.py:36-41 | the selection is no longer than the table, and a row is in it exactly when it is in the table and breaks one of the four thresholds (AR > 3.5, J < 0.5, S > 0.6, Q < 0.6) |
| `MeshQuality.PoorElementsKeepOrder` | CAE_mesh_automation.py:36-41 | the selection is the table read at a strictly increasing list of positions, and a position is in that list exactly when its row is poor: original relative order is kept |
| `MeshQuality.PoorCountExtremes` | CAE_mesh_automation.py:36-45 | the poor count equals the row count exactly when every row is poor, and is zero exactly when no row is poor |
| `MeshQuality.Percentage` | CAE_mesh_automation.py:46 | poor/total*100 lies in [0, 100], is 100 exactly when poor = total and 0 exactly when poor = 0 |
| `MeshQuality.Summary` | CAE_mesh_automation.py:43-51 | total = row count; poor count = length of the selection, at most the total; percentage in [0, 100], 100 iff every row is poor and 0 iff none is; the four averages are the column means |
| `MeshAdjust.Clamp` | CAE_mesh_automation.py:67-70 | the clipped value lies in [lo, hi], equals lo below the range, hi above it, and the value itself inside it |
| `MeshAdjust.AdjustValue` | CAE_mesh_automation.py:62-70 | the adjusted attribute lies in its clamp range; an attribute that breaks no threshold and already lies in its range passes through unchanged; a value on the good side of its bound never gets worse (AR and S never increase, J and Q never decrease) |
| `MeshAdjust.AdjustElement` | CAE_mesh_automation.py:62-70 | the adjusted row keeps its `Element_ID`, lies in all four clamp ranges, and each attribute is the adjustment of its own input value only |
| `MeshAdjust.PassesOnRow` | CAE_mesh_automation.py:62-70 | the four masked rescales followed by the four clamps, applied to one row, give the row-wise adjustment |
| `MeshAdjust.OptimizedRowwise` | CAE_mesh_automation.py:60-70 | the optimized table has as many rows as the original, each row is the row-wise adjustment of the original row, keeps its `Element_ID` in the same position and lies in the clamp ranges |
| `MeshAdjust.OptimizedTowardGood` | CAE_mesh_automation.py:62-70 | for AR ≥ 1.0, S ≥ 0.0, J ≤ 1.0, Q ≤ 1.0 the optimizer never increases AR or S and never decreases J or Q |
| `MeshAdjust.AdjustedCanStayPoor` | CAE_mesh_automation.py:62-70 | some row is still poor after adjustment and is changed again by a second adjustment: the adjuster is not idempotent |
| `MeshAdjust.ScaleColumn` | CAE_mesh_automation.py:62-65 | the in-place masked rescale of one column leaves the array equal to `ScaledColumn` of its old contents |
| `MeshAdjust.ClipColumn` | CAE_mesh_automation.py:67-70 | the in-place clamp of one column leaves the array equal to `ClippedColumn` of its old contents |
| `MeshMetrics.Improvement` | CAE_mesh_automation.py:79 | the percentage recovers the new mean from the old one (after = before + before*r/100); for a positive original mean it is non-negative exactly when the mean did not drop, and zero exactly when it is unchanged |
| `MeshMetrics.Compare` | CAE_mesh_automation.py:76-84 | it fails exactly when the original mean quality is zero; otherwise it reports the two mean qualities and optimized = original * (1 + improvement/100) |
| `MeshMetrics.OptimizationNeverWorsensQuality` | CAE_mesh_automation.py:76-79 | when every original quality is ≤ 1.0 and the original mean is positive, comparing a table with its optimized table succeeds with an improvement ≥ 0 |
| `MeshMetrics.GeneratedMeshImproves` | CAE_mesh_automation.py:76-79 | for draws in their uniform ranges, the generated table's comparison with its optimized table succeeds with an improvement ≥ 0 |
| `MeshAutomation.MeshOptimizer.constructor` | CAE_mesh_automation.py:7-9 | a new optimizer records the element count and has no cached table |
| `MeshAutomation.MeshOptimizer.GenerateMesh` | CAE_mesh_automation.py:11-29 | a fresh table built from the seeded draws is cached and the cached object itself is returned |
| `MeshAutomation.MeshOptimizer.AnalyzeMeshQuality` | CAE_mesh_automation.py:31-53 | the table is generated only when none is cached, an existing one is neither replaced nor changed, and the result is the summary and the poor selection of the cached table |
| `MeshAutomation.MeshOptimizer.OptimizeMesh` | CAE_mesh_automation.py:55-72 | the table is generated only when none is cached; the result is a fresh array distinct from the cached one, so the cached table keeps its contents; the result has the same length and `Element_ID`s in the same order, lies in the clamp ranges and equals `Optimized` of the cached table |
| `MeshAutomation.MeshOptimizer.ComputeOptimizationMetrics` | CAE_mesh_automation.py:74-86 | with no cached table it fails with `NoMeshData`; otherwise it is the comparison of the cached table with the given one |
| `MeshAutomation.RunPipeline` | CAE_mesh_automation.py:98-114 | generate, analyze, optimize and compare, in this order, give the summary and selection of the generated table, its optimized table, and exactly the comparison of the generated table with its optimized table, which succeeds with a non-negative improvement |

## Left out

- Random number generation (`np.random.seed(42)` and the uniform draws, lines 13 and 16-19). The values drawn after seeding are the constructor parameter `draws`. The seed is reset on every call, so every generation uses the same values. `Draws.InUniformRanges` states the half-open ranges [low, high) as an assumption used by `GeneratedMeshImproves` and required by `RunPipeline`. The distribution itself is not modelled.
- `Computational_Time_Reduction` (line 85). It is a placeholder drawn from the generator seeded at line 13, with no computational basis, so `Metrics` has no such field.
- IEEE-754 floating point. The values are exact reals, so the rounding of the products at lines 62-65 and the float division at lines 46 and 79 are not modelled.
- Empty tables. `AnalyzeMeshQuality` requires `numElements > 0` because the percentage divides by the row count. `ComputeOptimizationMetrics` requires non-empty tables because pandas returns NaN for the mean of an empty column. NaN and infinities are not modelled.
- Negative element counts. The count is a `nat`. numpy raises on a negative size, and that raise is not modelled.
- Division by a zero original mean (line 79). numpy would yield inf or NaN. The model returns `Failure(ZeroOriginalQuality)` instead.
- DataFrame index labels. The poor selection keeps pandas' index labels, but the model keeps only the rows. The labels are never exported (`index=False`).
- Reshaping or rebinding the cached table. `GenerateMesh` returns the cached array itself, as the source does at line 29. Writes through that array change the cache, and later results are stated over the cache's current contents. pandas also lets a caller change the table's row count through the alias, or rebind `mesh_data` to another table. The model allows neither: `Valid()` fixes the length at `numElements`.
- The default argument `num_elements=1000` (line 7). Dafny constructors have no default arguments, so the count is always passed explicitly, as the entry point does at line 98.
- `main()` (lines 89-131). Console printing and CSV export are I/O. Only its sequence of calls is modelled, in `RunPipeline`.
