# Terrain splat synthesis from masks

A Dafny model of the terrain editor command *Apply Splat From Masks* of the
Gta-RTS Unity project. The command reads up to four optional grayscale masks
(grass, dirt, sand, soil). It fills the terrain's alphamap grid of `h × w`
cells and `numLayers` layers with blend weights, cell by cell.

- Cell `(y, x)` is sampled at `u = x/(w-1)`, `v = y/(h-1)`.
- Each mask sample is clamped to [0,1]. A missing mask reads as 0.
- Mask k feeds layer k for k < min(numLayers, 4). Any later layer starts at 0.
- The raw weights are summed. At or below `Epsilon = 0.0001` only layer 0 is reset to 1 and the sum is taken as 1.
- Every layer is then divided by the sum.

The project has two modules:

- `RealSeqs` (`real_seqs.dfy`) holds `Sum`, the left-to-right sum that the accumulator computes, and the facts about it.
- `TerrainSetupEditor` (`terrain_setup_editor.dfy`) holds the rest:
  - the masks and `SampleGray`;
  - the specification functions `RawWeights`, `NormaliseCell` and `CellWeights`, which give one cell's raw and written weights;
  - the lemmas about those functions;
  - the imperative synthesis, where `SynthesizeSplat` allocates an `array3<real>` and fills it with nested `for y` / `for x` loops.

The body of the x loop is split into `FillCell`. That method computes the coordinates, takes the weight array from `CollectWeights` and the sum from the `SumWeights` loop, and applies the fallback. It then hands the weights and the sum to `WriteCell`, the third loop, which writes every layer of the cell. The methods are proved against different functions:

- `CollectWeights` against `RawWeights`;
- `SumWeights` against `Sum`;
- `WriteCell` against the division `weights[i] / sum`;
- `FillCell` against `CellWeights`;
- `SynthesizeSplat` against `IsSplatOf`, which says that every cell `(y, x)` holds `CellWeights` at `(Coord(x, w), Coord(y, h))`.

The grid lemmas follow from `IsSplatOf`.

## Behaviour worth noting

- Fallback. The comment at Assets/Editor/TerrainSetupEditor.cs:98 says all weight defaults to the first layer. The warning at line 64 says painting will default to layer 0. Both promise the cell [1, 0, …, 0], but line 99 overwrites only `weights[0]`.
  - Layers 1.. keep their raw values, each at most `Epsilon`.
  - Such a cell therefore sums to `1 + (raw sum − raw₀)`, a value in [1, 1 + Epsilon].
  - The cell is exactly [1, 0, …, 0] only when every layer other than 0 had raw weight 0 (`CellIsDefaultIff`).
  - The model keeps this behaviour as written.
- Single source. A single source on a layer k ≥ 1 collapses to weight 1 on that layer only when its sample is above `Epsilon` (`SingleSourceCollapses`). A smaller sample takes the fallback path and stays as it is. A single source on layer 0 always gives [1, 0, …, 0], because the fallback also puts all weight on layer 0 (`OthersZeroGiveDefault`).
- One-wide grids. When w == 1, line 78 divides 0 by 0, and line 79 does the same when h == 1. The model requires w ≥ 2 and h ≥ 2 whenever there are layers.

## Model

| member | source | states |
|---|---|---|
| `TerrainSetupEditor.IsReadable` | Assets/Editor/TerrainSetupEditor.cs:114-126 | a missing texture is readable; a present one is unreadable exactly when its read probe fails |
| `TerrainSetupEditor.Clamp01` | Assets/Editor/TerrainSetupEditor.cs:132 | result in [0,1]; identity on [0,1]; negatives go to 0, values above 1 go to 1 |
| `TerrainSetupEditor.AnyMask` | Assets/Editor/TerrainSetupEditor.cs:61 | true exactly when at least one of the four mask slots holds a texture |
| `TerrainSetupEditor.AllReadable` | Assets/Editor/TerrainSetupEditor.cs:67 | true exactly when every one of the four mask slots passes `IsReadable` |
| `TerrainSetupEditor.SampleGray` | Assets/Editor/TerrainSetupEditor.cs:128-133 | a missing mask samples 0; every sample lies in [0,1]; a grayscale value already in [0,1] is returned unchanged |
| `TerrainSetupEditor.Coord` | Assets/Editor/TerrainSetupEditor.cs:78-79 | the normalised coordinate lies in [0,1]; it is 0 exactly at the first index and 1 exactly at the last |
| `TerrainSetupEditor.CoordStrictlyIncreasing` | Assets/Editor/TerrainSetupEditor.cs:78-79 | distinct columns (rows) sample at distinct, increasing u (v) |
| `TerrainSetupEditor.RawWeights` | Assets/Editor/TerrainSetupEditor.cs:81-92 | its own contract gives only the length, numLayers; the content is stated by `RawWeightsLayerMapping` and `NoMasksNoSignal` |
| `TerrainSetupEditor.NormaliseCell` | Assets/Editor/TerrainSetupEditor.cs:94-104 | its own contract gives only the length, that of the raw weights; the content is stated by `CellNormalised`, `CellFallback`, `CellBounds`, `CellIsDefaultIff`, `SingleLayerIsFull`, `SingleSourceCollapses`, `NormalisedRawUnchanged` and `CellPreservesOrder` |
| `TerrainSetupEditor.CellWeights` | Assets/Editor/TerrainSetupEditor.cs:78-104 | its own contract gives only the length, numLayers; the content is stated by `SampledCellBounds`, `NoMasksGiveDefaultCell` and `ConstantMasksExample` |
| `TerrainSetupEditor.RawWeightsLayerMapping` | Assets/Editor/TerrainSetupEditor.cs:81-92 | raw weight i is the sample of mask i for i < min(numLayers, 4); it is 0 for 4 ≤ i < numLayers; every raw weight lies in [0,1] |
| `TerrainSetupEditor.NoMasksNoSignal` | Assets/Editor/TerrainSetupEditor.cs:82-92 | with every mask missing, every raw weight and the raw sum are 0 |
| `TerrainSetupEditor.CellNormalised` | Assets/Editor/TerrainSetupEditor.cs:94-104 | above the threshold each written weight is raw_i / sum and lies in [0,1]; the cell sums to exactly 1 |
| `TerrainSetupEditor.CellFallback` | Assets/Editor/TerrainSetupEditor.cs:96-104 | at or below the threshold layer 0 is 1; layer i ≥ 1 keeps raw_i, which is in [0, Epsilon]; the cell sums to 1 + sum − raw_0, which lies in [1, 1 + Epsilon] |
| `TerrainSetupEditor.CellBounds` | Assets/Editor/TerrainSetupEditor.cs:94-104 | in every cell each weight lies in [0,1] and the weights sum to between 1 and 1 + Epsilon |
| `TerrainSetupEditor.CellIsDefaultIff` | Assets/Editor/TerrainSetupEditor.cs:94-104 | a cell is exactly [1, 0, …, 0] if and only if every layer other than 0 has raw weight 0 |
| `TerrainSetupEditor.OthersZeroGiveDefault` | Assets/Editor/TerrainSetupEditor.cs:94-104 | if layers 1.. have raw weight 0, the cell is [1, 0, …, 0] in either branch |
| `TerrainSetupEditor.DefaultHasOthersZero` | Assets/Editor/TerrainSetupEditor.cs:94-104 | if the cell is [1, 0, …, 0], layers 1.. had raw weight 0 |
| `TerrainSetupEditor.SingleLayerIsFull` | Assets/Editor/TerrainSetupEditor.cs:94-104 | with one layer every cell is exactly [1] |
| `TerrainSetupEditor.SingleSourceCollapses` | Assets/Editor/TerrainSetupEditor.cs:94-104 | if only layer k has weight and it is above the threshold, the cell is all weight on layer k |
| `TerrainSetupEditor.NormalisedRawUnchanged` | Assets/Editor/TerrainSetupEditor.cs:103-104 | raw weights that already sum to 1 are written unchanged |
| `TerrainSetupEditor.CellPreservesOrder` | Assets/Editor/TerrainSetupEditor.cs:103-104 | above the threshold, layer i weighs at most layer j after normalisation exactly when it did before |
| `TerrainSetupEditor.SampledCellBounds` | Assets/Editor/TerrainSetupEditor.cs:78-104 | every cell sampled from any masks has weights in [0,1] that sum to between 1 and 1 + Epsilon |
| `TerrainSetupEditor.NoMasksGiveDefaultCell` | Assets/Editor/TerrainSetupEditor.cs:96-101 | with every mask missing, a cell is exactly [1, 0, …, 0] |
| `TerrainSetupEditor.ConstantMasksExample` | Assets/Editor/TerrainSetupEditor.cs:81-104 | with two layers, constant grass 0.3 and constant dirt 0.7, every cell is [0.3, 0.7] |
| `TerrainSetupEditor.SplatBounds` | Assets/Editor/TerrainSetupEditor.cs:72-106 | every weight of a synthesised grid lies in [0,1]; every cell sums to between 1 and 1 + Epsilon, and to exactly 1 where its raw sum exceeds the threshold |
| `TerrainSetupEditor.SplatWithoutMasks` | Assets/Editor/TerrainSetupEditor.cs:61-64 | with every mask missing, painting defaults to layer 0: every cell of the grid is exactly [1, 0, …, 0] |
| `TerrainSetupEditor.SplatCorners` | Assets/Editor/TerrainSetupEditor.cs:74-79 | the four corner cells are the cells sampled at (0,0), (1,0), (0,1) and (1,1) |
| `TerrainSetupEditor.SumWeights` | Assets/Editor/TerrainSetupEditor.cs:94-95 | the accumulated sum equals `Sum` of the whole weight array |
| `TerrainSetupEditor.CollectWeights` | Assets/Editor/TerrainSetupEditor.cs:81-92 | returns a fresh array that holds exactly the raw weights (mask k at layer k below four, zero elsewhere) |
| `TerrainSetupEditor.FillCell` | Assets/Editor/TerrainSetupEditor.cs:78-104 | writes `CellWeights` at (Coord(x), Coord(y)) into every layer of cell (y, x) and leaves every other cell unchanged |
| `TerrainSetupEditor.WriteCell` | Assets/Editor/TerrainSetupEditor.cs:103-104 | layer i of cell (y, x) becomes weights[i] / sum; every other cell is unchanged |
| `TerrainSetupEditor.SynthesizeSplat` | Assets/Editor/TerrainSetupEditor.cs:72-106 | returns a fresh h × w × numLayers grid in which every cell holds the weights of its own (u, v) |
| `TerrainSetupEditor.ApplySplatFromMasks` | Assets/Editor/TerrainSetupEditor.cs:45-111 | with no layers nothing is produced; otherwise the grid is h × w × numLayers and satisfies `IsSplatOf`; the no-mask warning is raised exactly when every mask is missing; the unreadable warning is raised exactly when some mask is unreadable |

## Left out

- Finding the terrain in the scene (Assets/Editor/TerrainSetupEditor.cs:38-43) is an engine scene query. The model starts from the alphamap dimensions and layer count.
- Loading the masks with `Resources.Load` is asset I/O. The four optional masks are parameters.
- `Undo.RecordObject`, `SetAlphamaps`, `EditorUtility.SetDirty` and the `Debug.Log*` calls are engine I/O. When every present mask is readable, `ApplySplatFromMasks` returns the grid that would be handed to `SetAlphamaps`, plus the two warning conditions as booleans.
- `Texture2D.GetPixelBilinear` followed by `Color.grayscale` is a foreign call. It is an uninterpreted total function `gray(u, v)` of each texture, so bilinear interpolation is not modelled. The engine raising an error when an unreadable texture is sampled (line 131) is not modelled either: for a present but unreadable mask the source stops on the first cell and never reaches line 109, while the model still returns `Applied` with a full grid.
- The readability probe in `IsReadable` (a pixel read inside try/catch) is foreign. Its outcome is the texture's `readable` field. Only the missing-texture case is logic of the source.
- Floating point is modelled as `real`. "Sums to exactly 1" holds over the reals, and float rounding of the division and the accumulator is not modelled.
- The one-wide or one-high grid, where `x/(w-1)` is a float 0/0, is excluded by the requirement w ≥ 2 and h ≥ 2 whenever there are layers.
- `AssignDefaultTerrainLayers` is pure asset assignment and is left out.
- The game manager, the map metadata extractor and the minimap are not part of this model. They are engine glue, asset I/O and UI.
