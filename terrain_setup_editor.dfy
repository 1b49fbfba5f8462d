/** The splat-weight synthesis of the terrain setup editor: four optional
    grayscale masks (grass, dirt, sand, soil) are sampled over the alphamap
    grid and turned into per-cell, per-layer blend weights. */
module TerrainSetupEditor {
  import opened RealSeqs

  /** A cell whose raw weights sum to at most this has "no mask signal". */
  const Epsilon: real := 0.0001

  datatype Option<T> = None | Some(value: T)

  /** A mask texture. `gray(u, v)` stands for the engine's bilinear lookup
      followed by its grayscale conversion (any real, not yet clamped);
      `readable` is the outcome of the engine's pixel-read probe. */
  datatype Texture = Texture(gray: (real, real) -> real, readable: bool)

  /** The four optional masks; slot k feeds layer k. */
  datatype Masks = Masks(grass: Option<Texture>, dirt: Option<Texture>,
                         sand: Option<Texture>, soil: Option<Texture>)
  {
    function Slot(k: nat): Option<Texture>
      requires k < 4
    {
      if k == 0 then grass else if k == 1 then dirt else if k == 2 then sand else soil
    }
  }

  /** Engine truthiness of the four optional textures. */
  predicate AnyMask(masks: Masks)
    ensures AnyMask(masks) <==> exists k :: 0 <= k < 4 && masks.Slot(k).Some?
  {
    assert masks.Slot(0) == masks.grass && masks.Slot(1) == masks.dirt;
    assert masks.Slot(2) == masks.sand && masks.Slot(3) == masks.soil;
    masks.grass.Some? || masks.dirt.Some? || masks.sand.Some? || masks.soil.Some?
  }

  /** The readability check: a missing texture counts as readable. */
  function IsReadable(tex: Option<Texture>): (r: bool)
    ensures tex.None? ==> r
    ensures !r <==> tex.Some? && !tex.value.readable
  {
    match tex
    case None => true
    case Some(t) => t.readable
  }

  /** Every one of the four masks passes the readability check. */
  predicate AllReadable(masks: Masks)
    ensures AllReadable(masks) <==> forall k :: 0 <= k < 4 ==> IsReadable(masks.Slot(k))
  {
    assert masks.Slot(0) == masks.grass && masks.Slot(1) == masks.dirt;
    assert masks.Slot(2) == masks.sand && masks.Slot(3) == masks.soil;
    IsReadable(masks.grass) && IsReadable(masks.dirt) && IsReadable(masks.sand) && IsReadable(masks.soil)
  }

  /** The engine's clamp to the unit interval. */
  function Clamp01(x: real): (r: real)
    ensures 0.0 <= r <= 1.0
    ensures 0.0 <= x <= 1.0 ==> r == x
    ensures x < 0.0 ==> r == 0.0
    ensures x > 1.0 ==> r == 1.0
  {
    if x < 0.0 then 0.0 else if x > 1.0 then 1.0 else x
  }

  /** A grayscale sample: a missing mask reads as 0, a present one is clamped to [0,1]. */
  function SampleGray(tex: Option<Texture>, u: real, v: real): (r: real)
    ensures 0.0 <= r <= 1.0
    ensures tex.None? ==> r == 0.0
    ensures tex.Some? && 0.0 <= tex.value.gray(u, v) <= 1.0 ==> r == tex.value.gray(u, v)
  {
    match tex
    case None => 0.0
    case Some(t) => Clamp01(t.gray(u, v))
  }

  /** Normalised coordinate of index `i` on an axis of `n >= 2` cells. */
  function Coord(i: nat, n: nat): (c: real)
    requires 2 <= n && i < n
    ensures 0.0 <= c <= 1.0
    ensures c == 0.0 <==> i == 0
    ensures c == 1.0 <==> i == n - 1
  {
    IndexRatio(i, n - 1);
    i as real / (n - 1) as real
  }

  /** Distinct grid indices sample at distinct, ordered coordinates. */
  lemma CoordStrictlyIncreasing(i: nat, j: nat, n: nat)
    requires 2 <= n && i < j < n
    ensures Coord(i, n) < Coord(j, n)
  {
    var d := (n - 1) as real;
    DivStrictlyMonotone(i as real, j as real, d);
  }

  /** The raw weights of a cell sampled at (u, v): layer k < 4 takes mask k,
      every further layer takes 0. */
  function RawWeights(masks: Masks, numLayers: nat, u: real, v: real): (raw: seq<real>)
    ensures |raw| == numLayers
  {
    seq(numLayers, i requires 0 <= i < numLayers =>
      if i < 4 then SampleGray(masks.Slot(i), u, v) else 0.0)
  }

  /** The weights of one cell as the editor writes them from its raw weights:
      normalised by the raw sum, or, when that sum is at most Epsilon, with
      layer 0 forced to 1 and the other raw weights kept (divided by 1). */
  function NormaliseCell(raw: seq<real>): (w: seq<real>)
    requires |raw| > 0
    ensures |w| == |raw|
  {
    var sum := Sum(raw);
    if sum <= Epsilon then raw[0 := 1.0] else Scale(raw, sum)
  }

  /** The weights written for a cell sampled at (u, v). */
  function CellWeights(masks: Masks, numLayers: nat, u: real, v: real): (w: seq<real>)
    requires numLayers > 0
    ensures |w| == numLayers
  {
    NormaliseCell(RawWeights(masks, numLayers, u, v))
  }

  /** The cell [1, 0, ..., 0]: all weight on layer 0. */
  function DefaultCell(numLayers: nat): (w: seq<real>)
  {
    seq(numLayers, i requires 0 <= i < numLayers => if i == 0 then 1.0 else 0.0)
  }

  /** The cell with all weight on layer k. */
  function UnitCell(numLayers: nat, k: nat): (w: seq<real>)
  {
    seq(numLayers, i requires 0 <= i < numLayers => if i == k then 1.0 else 0.0)
  }

  // ----- Properties of the raw weights -----

  /** Mask k goes to layer k for k < min(numLayers, 4); later layers are 0;
      every raw weight lies in [0,1]. */
  lemma RawWeightsLayerMapping(masks: Masks, numLayers: nat, u: real, v: real)
    ensures forall i :: 0 <= i < numLayers && i < 4 ==>
      RawWeights(masks, numLayers, u, v)[i] == SampleGray(masks.Slot(i), u, v)
    ensures forall i :: 4 <= i < numLayers ==> RawWeights(masks, numLayers, u, v)[i] == 0.0
    ensures forall i :: 0 <= i < numLayers ==> 0.0 <= RawWeights(masks, numLayers, u, v)[i] <= 1.0
  {
  }

  /** With every mask missing, every raw weight is 0. */
  lemma NoMasksNoSignal(masks: Masks, numLayers: nat, u: real, v: real)
    requires !AnyMask(masks)
    ensures forall i :: 0 <= i < numLayers ==> RawWeights(masks, numLayers, u, v)[i] == 0.0
    ensures Sum(RawWeights(masks, numLayers, u, v)) == 0.0
  {
    SumZeros(RawWeights(masks, numLayers, u, v));
  }

  // ----- Properties of one cell -----

  /** Above the threshold each output is raw_i / sum, lies in [0,1], and the
      cell sums to exactly 1. */
  lemma CellNormalised(raw: seq<real>)
    requires |raw| > 0 && NonNegative(raw)
    requires Sum(raw) > Epsilon
    ensures forall i :: 0 <= i < |raw| ==> NormaliseCell(raw)[i] == raw[i] / Sum(raw)
    ensures forall i :: 0 <= i < |raw| ==> 0.0 <= NormaliseCell(raw)[i] <= 1.0
    ensures Sum(NormaliseCell(raw)) == 1.0
  {
    var sum := Sum(raw);
    var w := NormaliseCell(raw);
    assert w == Scale(raw, sum);
    SumScale(raw, sum);
    DivSelf(sum);
    forall i | 0 <= i < |raw|
      ensures 0.0 <= w[i] <= 1.0
    {
      ElementAtMostSum(raw, i);
      DivAtMostOne(raw[i], sum);
    }
  }

  /** At or below the threshold layer 0 becomes 1, every other layer keeps its
      raw weight (each at most Epsilon), and the cell sums to 1 plus the
      residue of layers 1.., which is at most Epsilon. */
  lemma CellFallback(raw: seq<real>)
    requires |raw| > 0 && NonNegative(raw)
    requires Sum(raw) <= Epsilon
    ensures NormaliseCell(raw)[0] == 1.0
    ensures forall i :: 1 <= i < |raw| ==> NormaliseCell(raw)[i] == raw[i]
    ensures forall i :: 1 <= i < |raw| ==> 0.0 <= NormaliseCell(raw)[i] <= Epsilon
    ensures Sum(NormaliseCell(raw)) == 1.0 + Sum(raw) - raw[0]
    ensures 1.0 <= Sum(NormaliseCell(raw)) <= 1.0 + Epsilon
  {
    forall i | 1 <= i < |raw|
      ensures raw[i] <= Epsilon
    {
      ElementAtMostSum(raw, i);
    }
    SumUpdate(raw, 0, 1.0);
    ElementAtMostSum(raw, 0);
  }

  /** In every cell each weight lies in [0,1] and the weights sum to between
      1 and 1 + Epsilon. */
  lemma CellBounds(raw: seq<real>)
    requires |raw| > 0 && NonNegative(raw)
    ensures forall i :: 0 <= i < |raw| ==> 0.0 <= NormaliseCell(raw)[i] <= 1.0
    ensures 1.0 <= Sum(NormaliseCell(raw)) <= 1.0 + Epsilon
  {
    if Sum(raw) <= Epsilon {
      CellFallback(raw);
    } else {
      CellNormalised(raw);
    }
  }

  /** A cell is exactly [1, 0, ..., 0] if and only if no layer other than 0
      has a nonzero raw weight. */
  lemma CellIsDefaultIff(raw: seq<real>)
    requires |raw| > 0 && NonNegative(raw)
    ensures NormaliseCell(raw) == DefaultCell(|raw|) <==> forall i :: 1 <= i < |raw| ==> raw[i] == 0.0
  {
    if forall i :: 1 <= i < |raw| ==> raw[i] == 0.0 {
      OthersZeroGiveDefault(raw);
    }
    if NormaliseCell(raw) == DefaultCell(|raw|) {
      DefaultHasOthersZero(raw);
    }
  }

  lemma OthersZeroGiveDefault(raw: seq<real>)
    requires |raw| > 0 && NonNegative(raw)
    requires forall i :: 1 <= i < |raw| ==> raw[i] == 0.0
    ensures NormaliseCell(raw) == DefaultCell(|raw|)
  {
    var w := NormaliseCell(raw);
    if Sum(raw) <= Epsilon {
      CellFallback(raw);
    } else {
      assert Sum(raw) == raw[0] by {
        SumUpdate(raw, 0, 0.0);
        SumZeros(raw[0 := 0.0]);
      }
      CellNormalised(raw);
      DivSelf(raw[0]);
    }
    forall i | 0 <= i < |raw|
      ensures w[i] == DefaultCell(|raw|)[i]
    {
      if i == 0 {
        assert w[0] == 1.0;
      } else {
        assert raw[i] == 0.0;
      }
    }
  }

  lemma DefaultHasOthersZero(raw: seq<real>)
    requires |raw| > 0 && NonNegative(raw)
    requires NormaliseCell(raw) == DefaultCell(|raw|)
    ensures forall i :: 1 <= i < |raw| ==> raw[i] == 0.0
  {
    var w := NormaliseCell(raw);
    if Sum(raw) <= Epsilon {
      CellFallback(raw);
    } else {
      CellNormalised(raw);
    }
    forall i | 1 <= i < |raw|
      ensures raw[i] == 0.0
    {
      assert w[i] == DefaultCell(|raw|)[i] == 0.0;
    }
  }

  /** With a single layer every cell is exactly [1]. */
  lemma SingleLayerIsFull(raw: seq<real>)
    requires |raw| == 1
    ensures NormaliseCell(raw) == [1.0]
  {
    assert Sum(raw) == raw[0] by {
      assert raw[..0] == [];
    }
    if raw[0] > Epsilon {
      DivSelf(raw[0]);
      assert NormaliseCell(raw) == [raw[0] / raw[0]];
    }
  }

  /** When only layer k carries weight and that weight is above the threshold,
      normalisation puts all weight on layer k, whatever the sample's value. */
  lemma SingleSourceCollapses(raw: seq<real>, k: nat)
    requires k < |raw| && raw[k] > Epsilon
    requires forall j :: 0 <= j < |raw| && j != k ==> raw[j] == 0.0
    ensures NormaliseCell(raw) == UnitCell(|raw|, k)
  {
    assert Sum(raw) == raw[k] by {
      SumUpdate(raw, k, 0.0);
      SumZeros(raw[k := 0.0]);
    }
    assert NonNegative(raw);
    var w := NormaliseCell(raw);
    assert w == Scale(raw, raw[k]);
    DivSelf(raw[k]);
    forall i | 0 <= i < |raw|
      ensures w[i] == UnitCell(|raw|, k)[i]
    {
    }
  }

  /** Raw weights that already sum to 1 are written unchanged. */
  lemma NormalisedRawUnchanged(raw: seq<real>)
    requires |raw| > 0 && NonNegative(raw)
    requires Sum(raw) == 1.0
    ensures NormaliseCell(raw) == raw
  {
    CellNormalised(raw);
  }

  /** Above the threshold, normalisation keeps the layers' order of weight. */
  lemma CellPreservesOrder(raw: seq<real>, i: nat, j: nat)
    requires i < |raw| && j < |raw| && NonNegative(raw)
    requires Sum(raw) > Epsilon
    ensures NormaliseCell(raw)[i] <= NormaliseCell(raw)[j] <==> raw[i] <= raw[j]
  {
    CellNormalised(raw);
    DivMonotone(raw[i], raw[j], Sum(raw));
  }

  // ----- Properties of cells sampled from masks -----

  /** Every cell sampled from the masks lies in [0,1] per layer and sums to
      between 1 and 1 + Epsilon. */
  lemma SampledCellBounds(masks: Masks, numLayers: nat, u: real, v: real)
    requires numLayers > 0
    ensures forall i :: 0 <= i < numLayers ==> 0.0 <= CellWeights(masks, numLayers, u, v)[i] <= 1.0
    ensures 1.0 <= Sum(CellWeights(masks, numLayers, u, v)) <= 1.0 + Epsilon
  {
    RawWeightsLayerMapping(masks, numLayers, u, v);
    CellBounds(RawWeights(masks, numLayers, u, v));
  }

  /** With every mask missing the cell is exactly [1, 0, ..., 0]. */
  lemma NoMasksGiveDefaultCell(masks: Masks, numLayers: nat, u: real, v: real)
    requires numLayers > 0 && !AnyMask(masks)
    ensures CellWeights(masks, numLayers, u, v) == DefaultCell(numLayers)
  {
    NoMasksNoSignal(masks, numLayers, u, v);
    RawWeightsLayerMapping(masks, numLayers, u, v);
    CellIsDefaultIff(RawWeights(masks, numLayers, u, v));
  }

  /** Two layers fed by constant grass 0.3 and dirt 0.7 masks: every cell is [0.3, 0.7]. */
  lemma ConstantMasksExample(u: real, v: real)
    ensures CellWeights(Masks(Some(Texture((_, _) => 0.3, true)), Some(Texture((_, _) => 0.7, true)), None, None), 2, u, v)
      == [0.3, 0.7]
  {
    var masks := Masks(Some(Texture((_, _) => 0.3, true)), Some(Texture((_, _) => 0.7, true)), None, None);
    var raw := RawWeights(masks, 2, u, v);
    assert raw == [0.3, 0.7];
    assert Sum(raw) == 1.0 by {
      assert raw[..1] == [0.3];
      assert [0.3][..0] == [];
      assert Sum([0.3]) == 0.3;
    }
    NormalisedRawUnchanged(raw);
  }

  // ----- The weight grid -----

  /** The weights of cell (y, x) of `splat`, layer by layer. */
  ghost function CellAt(splat: array3<real>, y: nat, x: nat): (w: seq<real>)
    reads splat
    requires y < splat.Length0 && x < splat.Length1
  {
    seq(splat.Length2, i requires 0 <= i < splat.Length2 reads splat => splat[y, x, i])
  }

  /** Every cell (y, x) of `splat` holds the weights of (Coord(x), Coord(y)). */
  ghost predicate IsSplatOf(splat: array3<real>, masks: Masks)
    reads splat
  {
    2 <= splat.Length0 && 2 <= splat.Length1 && 0 < splat.Length2 &&
    forall y, x, i :: 0 <= y < splat.Length0 && 0 <= x < splat.Length1 && 0 <= i < splat.Length2 ==>
      splat[y, x, i] == CellWeights(masks, splat.Length2, Coord(x, splat.Length1), Coord(y, splat.Length0))[i]
  }

  lemma CellAtIsCellWeights(splat: array3<real>, masks: Masks, y: nat, x: nat)
    requires IsSplatOf(splat, masks) && y < splat.Length0 && x < splat.Length1
    ensures CellAt(splat, y, x) == CellWeights(masks, splat.Length2, Coord(x, splat.Length1), Coord(y, splat.Length0))
  {
  }

  /** Every weight of the grid lies in [0,1]; every cell sums to between 1 and
      1 + Epsilon, and to exactly 1 where its raw sum is above the threshold. */
  lemma SplatBounds(splat: array3<real>, masks: Masks)
    requires IsSplatOf(splat, masks)
    ensures forall y, x, i :: 0 <= y < splat.Length0 && 0 <= x < splat.Length1 && 0 <= i < splat.Length2 ==>
      0.0 <= splat[y, x, i] <= 1.0
    ensures forall y, x :: 0 <= y < splat.Length0 && 0 <= x < splat.Length1 ==>
      1.0 <= Sum(CellAt(splat, y, x)) <= 1.0 + Epsilon
    ensures forall y, x ::
      (0 <= y < splat.Length0 && 0 <= x < splat.Length1 &&
       Sum(RawWeights(masks, splat.Length2, Coord(x, splat.Length1), Coord(y, splat.Length0))) > Epsilon) ==>
      Sum(CellAt(splat, y, x)) == 1.0
  {
    var h, w, n := splat.Length0, splat.Length1, splat.Length2;
    forall y, x | 0 <= y < h && 0 <= x < w
      ensures forall i :: 0 <= i < n ==> 0.0 <= splat[y, x, i] <= 1.0
      ensures 1.0 <= Sum(CellAt(splat, y, x)) <= 1.0 + Epsilon
      ensures Sum(RawWeights(masks, n, Coord(x, w), Coord(y, h))) > Epsilon ==> Sum(CellAt(splat, y, x)) == 1.0
    {
      var raw := RawWeights(masks, n, Coord(x, w), Coord(y, h));
      CellAtIsCellWeights(splat, masks, y, x);
      SampledCellBounds(masks, n, Coord(x, w), Coord(y, h));
      if Sum(raw) > Epsilon {
        RawWeightsLayerMapping(masks, n, Coord(x, w), Coord(y, h));
        CellNormalised(raw);
      }
    }
  }

  /** With every mask missing, every cell of the grid is exactly [1, 0, ..., 0]. */
  lemma SplatWithoutMasks(splat: array3<real>, masks: Masks)
    requires IsSplatOf(splat, masks) && !AnyMask(masks)
    ensures forall y, x, i :: 0 <= y < splat.Length0 && 0 <= x < splat.Length1 && 0 <= i < splat.Length2 ==>
      splat[y, x, i] == if i == 0 then 1.0 else 0.0
  {
    var h, w, n := splat.Length0, splat.Length1, splat.Length2;
    forall y, x, i | 0 <= y < h && 0 <= x < w && 0 <= i < n
      ensures splat[y, x, i] == if i == 0 then 1.0 else 0.0
    {
      NoMasksGiveDefaultCell(masks, n, Coord(x, w), Coord(y, h));
      assert DefaultCell(n)[i] == if i == 0 then 1.0 else 0.0;
    }
  }

  /** The four corner cells sample the masks at the corners of the unit square. */
  lemma SplatCorners(splat: array3<real>, masks: Masks)
    requires IsSplatOf(splat, masks)
    ensures CellAt(splat, 0, 0) == CellWeights(masks, splat.Length2, 0.0, 0.0)
    ensures CellAt(splat, 0, splat.Length1 - 1) == CellWeights(masks, splat.Length2, 1.0, 0.0)
    ensures CellAt(splat, splat.Length0 - 1, 0) == CellWeights(masks, splat.Length2, 0.0, 1.0)
    ensures CellAt(splat, splat.Length0 - 1, splat.Length1 - 1) == CellWeights(masks, splat.Length2, 1.0, 1.0)
  {
    var h, w := splat.Length0, splat.Length1;
    CellAtIsCellWeights(splat, masks, 0, 0);
    CellAtIsCellWeights(splat, masks, 0, w - 1);
    CellAtIsCellWeights(splat, masks, h - 1, 0);
    CellAtIsCellWeights(splat, masks, h - 1, w - 1);
  }

  // ----- The synthesis itself -----

  /** The running sum of a cell's weights. */
  method SumWeights(weights: array<real>) returns (sum: real)
    ensures sum == Sum(weights[..])
  {
    sum := 0.0;
    for i := 0 to weights.Length
      invariant sum == Sum(weights[..i])
    {
      assert weights[..i + 1][..i] == weights[..i];
      sum := sum + weights[i];
    }
    assert weights[..] == weights[..weights.Length];
  }

  /** Samples the four masks at (u, v) and lays the samples out over a fresh
      zero-initialised weight array, one per layer, for the first four layers. */
  method CollectWeights(masks: Masks, numLayers: nat, u: real, v: real) returns (weights: array<real>)
    ensures fresh(weights)
    ensures weights[..] == RawWeights(masks, numLayers, u, v)
  {
    var g := SampleGray(masks.grass, u, v);
    var d := SampleGray(masks.dirt, u, v);
    var s := SampleGray(masks.sand, u, v);
    var o := SampleGray(masks.soil, u, v);

    weights := new real[numLayers](_ => 0.0);
    if numLayers > 0 { weights[0] := g; }
    if numLayers > 1 { weights[1] := d; }
    if numLayers > 2 { weights[2] := s; }
    if numLayers > 3 { weights[3] := o; }
  }

  /** Computes and writes the weights of cell (y, x), leaving every other cell as it was. */
  method FillCell(splat: array3<real>, masks: Masks, y: nat, x: nat)
    requires y < splat.Length0 && x < splat.Length1
    requires 2 <= splat.Length0 && 2 <= splat.Length1 && 0 < splat.Length2
    modifies splat
    ensures forall i :: 0 <= i < splat.Length2 ==>
      splat[y, x, i] == CellWeights(masks, splat.Length2, Coord(x, splat.Length1), Coord(y, splat.Length0))[i]
    ensures forall a, b, c ::
      (0 <= a < splat.Length0 && 0 <= b < splat.Length1 && 0 <= c < splat.Length2 && (a != y || b != x)) ==>
      splat[a, b, c] == old(splat[a, b, c])
  {
    var h, w, numLayers := splat.Length0, splat.Length1, splat.Length2;
    var u := Coord(x, w);
    var v := Coord(y, h);

    var weights := CollectWeights(masks, numLayers, u, v);
    ghost var raw := RawWeights(masks, numLayers, u, v);

    var sum := SumWeights(weights);
    ghost var cell := CellWeights(masks, numLayers, u, v);
    if sum <= Epsilon {
      weights[0] := 1.0;
      sum := 1.0;
      assert forall i :: 0 <= i < numLayers ==> weights[i] / sum == cell[i] by {
        assert cell == raw[0 := 1.0];
        assert weights[..] == raw[0 := 1.0];
      }
    } else {
      assert forall i :: 0 <= i < numLayers ==> weights[i] / sum == cell[i] by {
        assert cell == Scale(raw, sum);
      }
    }

    WriteCell(splat, y, x, weights, sum);
  }

  /** Writes weights[i] / sum into every layer i of cell (y, x), leaving every
      other cell as it was. */
  method WriteCell(splat: array3<real>, y: nat, x: nat, weights: array<real>, sum: real)
    requires y < splat.Length0 && x < splat.Length1
    requires weights.Length == splat.Length2 && sum != 0.0
    modifies splat
    ensures forall i :: 0 <= i < splat.Length2 ==> splat[y, x, i] == old(weights[i]) / sum
    ensures forall a, b, c ::
      (0 <= a < splat.Length0 && 0 <= b < splat.Length1 && 0 <= c < splat.Length2 && (a != y || b != x)) ==>
      splat[a, b, c] == old(splat[a, b, c])
  {
    ghost var quotients := seq(weights.Length, j requires 0 <= j < weights.Length reads weights => weights[j] / sum);
    for i := 0 to splat.Length2
      invariant forall j :: 0 <= j < weights.Length ==> weights[j] / sum == quotients[j]
      invariant forall j :: 0 <= j < i ==> splat[y, x, j] == quotients[j]
      invariant forall a, b, c ::
        (0 <= a < splat.Length0 && 0 <= b < splat.Length1 && 0 <= c < splat.Length2 && (a != y || b != x || i <= c)) ==>
        splat[a, b, c] == old(splat[a, b, c])
    {
      splat[y, x, i] := weights[i] / sum;
    }
  }

  /** Allocates the h x w x numLayers grid and fills it cell by cell. */
  method SynthesizeSplat(w: nat, h: nat, numLayers: nat, masks: Masks) returns (splat: array3<real>)
    requires 2 <= w && 2 <= h && 0 < numLayers
    ensures fresh(splat)
    ensures splat.Length0 == h && splat.Length1 == w && splat.Length2 == numLayers
    ensures IsSplatOf(splat, masks)
  {
    splat := new real[h, w, numLayers]((_, _, _) => 0.0);
    for y := 0 to h
      invariant forall a, b, c :: 0 <= a < y && 0 <= b < w && 0 <= c < numLayers ==>
        splat[a, b, c] == CellWeights(masks, numLayers, Coord(b, w), Coord(a, h))[c]
    {
      for x := 0 to w
        invariant forall a, b, c :: 0 <= a < y && 0 <= b < w && 0 <= c < numLayers ==>
          splat[a, b, c] == CellWeights(masks, numLayers, Coord(b, w), Coord(a, h))[c]
        invariant forall b, c :: 0 <= b < x && 0 <= c < numLayers ==>
          splat[y, b, c] == CellWeights(masks, numLayers, Coord(b, w), Coord(y, h))[c]
      {
        FillCell(splat, masks, y, x);
      }
    }
  }

  /** What a run of the editor command produces: nothing when the terrain has
      no layers, otherwise the grid handed to the terrain together with the two
      warnings it may have issued. */
  datatype Outcome =
    | NoLayers
    | Applied(splat: array3<real>, warnedNoMasks: bool, warnedUnreadable: bool)

  /** The editor command on a terrain whose alphamap is w x h with numLayers layers. */
  method ApplySplatFromMasks(w: nat, h: nat, numLayers: nat, masks: Masks) returns (out: Outcome)
    requires 0 < numLayers ==> 2 <= w && 2 <= h
    ensures out.NoLayers? <==> numLayers == 0
    ensures out.Applied? ==> fresh(out.splat)
    ensures out.Applied? ==>
      out.splat.Length0 == h && out.splat.Length1 == w && out.splat.Length2 == numLayers &&
      IsSplatOf(out.splat, masks)
    ensures out.Applied? ==> out.warnedNoMasks == !AnyMask(masks) && out.warnedUnreadable == !AllReadable(masks)
  {
    if numLayers == 0 {
      return NoLayers;
    }
    var anyMask := AnyMask(masks);
    var unreadable := !AllReadable(masks);
    var splat := SynthesizeSplat(w, h, numLayers, masks);
    out := Applied(splat, !anyMask, unreadable);
  }
}
