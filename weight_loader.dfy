/**
 * `WeightReader`: walks the flat float32 stream of a Darknet weight file with a
 * cursor and assigns consecutive runs to the network's parameter tensors, layer
 * by layer, in a fixed per-layer order, optionally jumping over detector heads.
 *
 * The specification is a PLAN: the list of reads the loader performs, which
 * depends only on the network's per-layer schema and the skip setting, and
 * `Run`, which executes a plan against the stream. The imperative reader is
 * proved to end in exactly the state `Run` describes.
 */
module WeightLoader {
  import opened Wrappers
  import opened KernelLayout
  import opened WeightFile

  // ---------------------------------------------------------------------------
  // The network's parameters, as the loader sees them

  /** The one-dimensional parameters of a layer (batch-norm statistics and the convolution bias). */
  datatype VectorName = Beta | Gamma | MovingMean | MovingVariance | Bias

  /** The order in which the file stores a layer's one-dimensional parameters. */
  const VectorOrder: seq<VectorName> := [Beta, Gamma, MovingMean, MovingVariance, Bias]

  datatype VarKey = Vector(layer: nat, name: VectorName) | KernelOf(layer: nat)

  /** The tensors one layer exposes: the length of each vector it has, and its kernel's declared shape if it has one. */
  datatype LayerSchema = LayerSchema(vectors: map<VectorName, nat>, kernel: Option<KernelShape>)

  /** Layer i of the network is described by entry i; layers past the end expose nothing. */
  type Schema = seq<LayerSchema>

  /** `model.get_variables(layer_idx=i, suffix=name)` for a one-dimensional name: its length, if present. */
  function VectorLen(schema: Schema, i: nat, name: VectorName): Option<nat>
  {
    if i < |schema| && name in schema[i].vectors then Some(schema[i].vectors[name]) else None
  }

  /** `model.get_variables(layer_idx=i, suffix="kernel")`: its declared shape, if present. */
  function KernelOfLayer(schema: Schema, i: nat): Option<KernelShape>
  {
    if i < |schema| then schema[i].kernel else None
  }

  // ---------------------------------------------------------------------------
  // Skip policy

  /** Layers `load_origin_weights` may skip: the three detection heads of the full network. */
  const FullSkipLayers: seq<nat> := [81, 93, 105]

  /** The layer `load_bodynet` may skip. */
  const BodySkipLayers: seq<nat> := [53]

  /** `_skip`: how far the cursor jumps over a skipped layer. */
  function SkipSize(i: nat): nat
  {
    if i == 81 then 255 + 1024 * 255
    else if i == 93 then 255 + 512 * 255
    else if i == 105 then 255 + 256 * 255
    else 0
  }

  /** Input channels of the 1x1 detection convolution at each head. */
  function HeadInputs(i: nat): nat
  {
    if i == 81 then 1024 else if i == 93 then 512 else 256
  }

  // ---------------------------------------------------------------------------
  // The plan of reads

  datatype Step =
    | SkipRun(layer: nat, size: nat)
    | LoadVector(layer: nat, name: VectorName, len: nat)
    | LoadKernel(layer: nat, shape: KernelShape)

  /** Values a step consumes from the stream. */
  function Size(s: Step): nat
  {
    match s
    case SkipRun(_, n) => n
    case LoadVector(_, _, n) => n
    case LoadKernel(_, k) => Volume(k)
  }

  function TotalSize(p: seq<Step>): nat
  {
    if p == [] then 0 else TotalSize(p[..|p| - 1]) + Size(p[|p| - 1])
  }

  /** Position of a step's tensor in the per-layer order: the five vectors, then the kernel. */
  function Rank(s: Step): nat
  {
    match s
    case SkipRun(_, _) => 6
    case LoadVector(_, name, _) => VectorRank(name)
    case LoadKernel(_, _) => 5
  }

  function VectorRank(name: VectorName): nat
  {
    match name
    case Beta => 0
    case Gamma => 1
    case MovingMean => 2
    case MovingVariance => 3
    case Bias => 4
  }

  /** The read for one vector name: none when the layer does not expose it. */
  function VectorStep(schema: Schema, i: nat, name: VectorName): seq<Step>
  {
    match VectorLen(schema, i, name)
    case None => []
    case Some(n) => [LoadVector(i, name, n)]
  }

  function VectorSteps(schema: Schema, i: nat, names: seq<VectorName>): seq<Step>
  {
    if names == [] then []
    else VectorSteps(schema, i, names[..|names| - 1]) + VectorStep(schema, i, names[|names| - 1])
  }

  function KernelSteps(schema: Schema, i: nat): seq<Step>
  {
    match KernelOfLayer(schema, i)
    case None => []
    case Some(k) => [LoadKernel(i, k)]
  }

  /** The reads for layer i: a single jump when it is skipped, else its vectors in file order and then its kernel. */
  function LayerPlan(schema: Schema, i: nat, skipped: bool): seq<Step>
  {
    if skipped then [SkipRun(i, SkipSize(i))]
    else VectorSteps(schema, i, VectorOrder) + KernelSteps(schema, i)
  }

  /** The reads of layers lo .. hi-1, in that order, layer i contributing `plan(i)`. */
  function LayerPlans(plan: nat -> seq<Step>, lo: nat, hi: nat): seq<Step>
    decreases hi
  {
    if hi <= lo then [] else LayerPlans(plan, lo, hi - 1) + plan(hi - 1)
  }

  /** Layer i's reads for a loader that may skip `skipLayers`. */
  function LoaderLayer(schema: Schema, skipLayers: seq<nat>, skip: bool): nat -> seq<Step>
  {
    (i: nat) => LayerPlan(schema, i, skip && i in skipLayers)
  }

  /** The reads of a loader over layers 0 .. count-1. */
  function LoaderPlan(schema: Schema, count: nat, skipLayers: seq<nat>, skip: bool): seq<Step>
  {
    LayerPlans(LoaderLayer(schema, skipLayers, skip), 0, count)
  }

  // ---------------------------------------------------------------------------
  // Executing a plan

  /** What `variable.assign` receives: a run as is, or a kernel array. */
  datatype TensorValue<T> = Flat(values: seq<T>) | Dense4(cells: Array4<T>)

  datatype LoadError =
    | ShortRead(key: VarKey)       // the truncated slice does not fill the tensor: assign or reshape raises
    | KernelNotSquare(layer: nat)  // the transposed kernel (s1, s0, s2, s3) does not fit the declared (s0, s1, s2, s3)

  /** The reader's cursor, what has been assigned so far, and the error that aborted the load, if any. */
  datatype Cursor<T> = Cursor(offset: nat, written: map<VarKey, TensorValue<T>>, failure: Option<LoadError>)

  /** The numpy slice `w[from:to]`, which stops silently at the end of `w`. */
  function Slice<T>(w: seq<T>, from: nat, to: nat): (r: seq<T>)
    requires from <= to
    ensures |r| <= to - from
    ensures |r| == to - from <==> to <= |w| || from == to
    ensures to <= |w| ==> r == w[from..to]
  {
    var a := if from <= |w| then from else |w|;
    var b := if to <= |w| then to else |w|;
    w[a..b]
  }

  /** One step: the cursor always advances by the step's size; a failed load performs no further step. */
  function Exec<T>(w: seq<T>, c: Cursor<T>, s: Step): Cursor<T>
  {
    if c.failure.Some? then c
    else
      var next := c.offset + Size(s);
      var value := Slice(w, c.offset, next);
      match s
      case SkipRun(_, _) => c.(offset := next)
      case LoadVector(i, name, n) =>
        if |value| != n then Cursor(next, c.written, Some(ShortRead(Vector(i, name))))
        else Cursor(next, c.written[Vector(i, name) := Flat(value)], None)
      case LoadKernel(i, k) =>
        if |value| != Volume(k) then Cursor(next, c.written, Some(ShortRead(KernelOf(i))))
        else if k.s0 != k.s1 then Cursor(next, c.written, Some(KernelNotSquare(i)))
        else Cursor(next, c.written[KernelOf(i) := Dense4(KernelArray(value, k))], None)
  }

  function Run<T>(w: seq<T>, c: Cursor<T>, p: seq<Step>): Cursor<T>
  {
    if p == [] then c else Exec(w, Run(w, c, p[..|p| - 1]), p[|p| - 1])
  }

  // ---------------------------------------------------------------------------
  // Properties of plans and runs

  lemma {:induction false} RunAppend<T>(w: seq<T>, c: Cursor<T>, p: seq<Step>, q: seq<Step>)
    ensures Run(w, c, p + q) == Run(w, Run(w, c, p), q)
  {
    if q != [] {
      assert (p + q)[..|p + q| - 1] == p + q[..|q| - 1];
      RunAppend(w, c, p, q[..|q| - 1]);
    } else {
      assert p + q == p;
    }
  }

  lemma {:induction false} RunAfterFailure<T>(w: seq<T>, c: Cursor<T>, p: seq<Step>)
    requires c.failure.Some?
    ensures Run(w, c, p) == c
  {
    if p != [] {
      RunAfterFailure(w, c, p[..|p| - 1]);
    }
  }

  /** Once a load has failed, the rest of the plan changes nothing. */
  lemma RunFailedPrefix<T>(w: seq<T>, c: Cursor<T>, p: seq<Step>, q: seq<Step>)
    requires Run(w, c, p).failure.Some?
    ensures Run(w, c, p + q) == Run(w, c, p)
  {
    RunAppend(w, c, p, q);
    RunAfterFailure(w, Run(w, c, p), q);
  }

  lemma RunSnoc<T>(w: seq<T>, c: Cursor<T>, p: seq<Step>, s: Step)
    ensures Run(w, c, p + [s]) == Exec(w, Run(w, c, p), s)
  {
    assert (p + [s])[..|p|] == p;
  }

  /**
   * The cursor never moves back, and after a run without error it stands
   * exactly the sum of the steps' sizes past where it started.
   */
  lemma {:induction false} RunOffset<T>(w: seq<T>, c: Cursor<T>, p: seq<Step>)
    requires c.failure.None?
    ensures Run(w, c, p).offset >= c.offset
    ensures Run(w, c, p).failure.None? ==> Run(w, c, p).offset == c.offset + TotalSize(p)
  {
    if p != [] {
      RunOffset(w, c, p[..|p| - 1]);
      var before := Run(w, c, p[..|p| - 1]);
      if before.failure.Some? {
        RunAfterFailure(w, before, [p[|p| - 1]]);
        assert Run(w, before, [p[|p| - 1]]) == Exec(w, before, p[|p| - 1]);
      }
    }
  }

  /** A vector takes exactly `len` consecutive values from the cursor, unchanged; it fails iff the stream is too short. */
  lemma LoadVectorReadsRun<T>(w: seq<T>, c: Cursor<T>, i: nat, name: VectorName, len: nat)
    requires c.failure.None?
    ensures var r := Run(w, c, [LoadVector(i, name, len)]);
      r.offset == c.offset + len &&
      (r.failure.None? <==> c.offset + len <= |w| || len == 0) &&
      (r.failure.None? ==> r.written == c.written[Vector(i, name) := Flat(Slice(w, c.offset, c.offset + len))]) &&
      (c.offset + len <= |w| ==> r.written[Vector(i, name)] == Flat(w[c.offset .. c.offset + len])) &&
      (r.failure.Some? ==> r.written == c.written && r.failure == Some(ShortRead(Vector(i, name))))
  {
    assert [LoadVector(i, name, len)][..0] == [];
  }

  /**
   * A kernel of declared shape (s0, s1, s2, s3) takes Volume values; it is
   * assigned iff they are all there and s0 == s1, and then element
   * [a, b, d, e] is the run's value at ((e*s2 + d)*s1 + a)*s0 + b.
   */
  lemma LoadKernelReadsRun<T>(w: seq<T>, c: Cursor<T>, i: nat, k: KernelShape)
    requires c.failure.None?
    ensures var r := Run(w, c, [LoadKernel(i, k)]);
      r.offset == c.offset + Volume(k) &&
      (r.failure.None? <==> (c.offset + Volume(k) <= |w| || Volume(k) == 0) && k.s0 == k.s1) &&
      (r.failure.None? ==>
         r.written == c.written[KernelOf(i) := Dense4(KernelArray(Slice(w, c.offset, c.offset + Volume(k)), k))]) &&
      (r.failure.Some? ==> r.written == c.written)
  {
    assert [LoadKernel(i, k)][..0] == [];
  }

  /** A skipped layer assigns nothing; its only effect is to move the cursor by `SkipSize(i)`, even past the end. */
  lemma SkippedLayerWritesNothing<T>(w: seq<T>, c: Cursor<T>, schema: Schema, i: nat)
    requires c.failure.None?
    ensures Run(w, c, LayerPlan(schema, i, true)) == c.(offset := c.offset + SkipSize(i))
  {
    assert LayerPlan(schema, i, true)[..0] == [];
  }

  /** `load_bodynet` skipping layer 53 moves the cursor by nothing and assigns nothing. */
  lemma BodySkipIsNoOp<T>(w: seq<T>, c: Cursor<T>, schema: Schema)
    requires c.failure.None?
    ensures Run(w, c, LayerPlan(schema, 53, true)) == c
  {
    SkippedLayerWritesNothing(w, c, schema, 53);
  }

  lemma {:induction false} VectorStepsAppend(schema: Schema, i: nat, a: seq<VectorName>, b: seq<VectorName>)
    ensures VectorSteps(schema, i, a + b) == VectorSteps(schema, i, a) + VectorSteps(schema, i, b)
  {
    if b == [] {
      assert a + b == a;
    } else {
      assert (a + b)[..|a + b| - 1] == a + b[..|b| - 1];
      VectorStepsAppend(schema, i, a, b[..|b| - 1]);
    }
  }

  lemma VectorStepsSnoc(schema: Schema, i: nat, names: seq<VectorName>, name: VectorName)
    ensures VectorSteps(schema, i, names + [name]) == VectorSteps(schema, i, names) + VectorStep(schema, i, name)
  {
    assert (names + [name])[..|names|] == names;
  }

  /** The vector reads of a layer, one optional read per name in file order. */
  lemma VectorStepsOfOrder(schema: Schema, i: nat)
    ensures VectorSteps(schema, i, VectorOrder)
            == VectorStep(schema, i, Beta) + VectorStep(schema, i, Gamma) + VectorStep(schema, i, MovingMean)
               + VectorStep(schema, i, MovingVariance) + VectorStep(schema, i, Bias)
  {
    var e: seq<VectorName> := [];
    assert e + [Beta] == [Beta];
    VectorStepsSnoc(schema, i, e, Beta);
    assert [Beta] + [Gamma] == [Beta, Gamma];
    VectorStepsSnoc(schema, i, [Beta], Gamma);
    assert [Beta, Gamma] + [MovingMean] == [Beta, Gamma, MovingMean];
    VectorStepsSnoc(schema, i, [Beta, Gamma], MovingMean);
    assert [Beta, Gamma, MovingMean] + [MovingVariance] == [Beta, Gamma, MovingMean, MovingVariance];
    VectorStepsSnoc(schema, i, [Beta, Gamma, MovingMean], MovingVariance);
    assert [Beta, Gamma, MovingMean, MovingVariance] + [Bias] == VectorOrder;
    VectorStepsSnoc(schema, i, [Beta, Gamma, MovingMean, MovingVariance], Bias);
  }

  ghost predicate RanksIncrease(names: seq<VectorName>)
  {
    forall a, b :: 0 <= a < b < |names| ==> VectorRank(names[a]) < VectorRank(names[b])
  }

  /** Each vector read is of a name in `names` that the layer exposes, with that tensor's length. */
  lemma {:induction false} VectorStepsReads(schema: Schema, i: nat, names: seq<VectorName>)
    ensures forall j :: 0 <= j < |VectorSteps(schema, i, names)| ==>
              var s := VectorSteps(schema, i, names)[j];
              s.LoadVector? && s.layer == i && s.name in names && VectorLen(schema, i, s.name) == Some(s.len)
  {
    if names != [] {
      var init := names[..|names| - 1];
      VectorStepsReads(schema, i, init);
      assert forall name :: name in init ==> name in names;
    }
  }

  /** Each name in `names` that the layer exposes is read. */
  lemma {:induction false} VectorStepsComplete(schema: Schema, i: nat, names: seq<VectorName>)
    ensures forall name, n: nat :: name in names && VectorLen(schema, i, name) == Some(n) ==>
              LoadVector(i, name, n) in VectorSteps(schema, i, names)
  {
    if names != [] {
      var init := names[..|names| - 1];
      var last := names[|names| - 1];
      assert names == init + [last];
      VectorStepsComplete(schema, i, init);
    }
  }

  /** The reads follow the order of `names`. */
  lemma {:induction false} VectorStepsRanked(schema: Schema, i: nat, names: seq<VectorName>)
    requires RanksIncrease(names)
    ensures forall j, k :: 0 <= j < k < |VectorSteps(schema, i, names)| ==>
              Rank(VectorSteps(schema, i, names)[j]) < Rank(VectorSteps(schema, i, names)[k])
  {
    if names != [] {
      var init := names[..|names| - 1];
      var last := names[|names| - 1];
      VectorStepsRanked(schema, i, init);
      VectorStepsReads(schema, i, init);
      var before := VectorSteps(schema, i, init);
      forall j | 0 <= j < |before|
        ensures Rank(before[j]) < VectorRank(last)
      {
        var x :| 0 <= x < |init| && init[x] == before[j].name;
        assert names[x] == init[x];
      }
    }
  }

  /**
   * Within a loaded layer, reads come in the fixed order beta, gamma,
   * moving_mean, moving_variance, bias, kernel, all of them for that layer.
   */
  lemma LayerPlanOrder(schema: Schema, i: nat)
    ensures forall j, k :: 0 <= j < k < |LayerPlan(schema, i, false)| ==>
              Rank(LayerPlan(schema, i, false)[j]) < Rank(LayerPlan(schema, i, false)[k])
    ensures forall j :: 0 <= j < |LayerPlan(schema, i, false)| ==>
              LayerPlan(schema, i, false)[j].layer == i && !LayerPlan(schema, i, false)[j].SkipRun?
  {
    var v := VectorSteps(schema, i, VectorOrder);
    var p := LayerPlan(schema, i, false);
    assert RanksIncrease(VectorOrder);
    VectorStepsReads(schema, i, VectorOrder);
    VectorStepsRanked(schema, i, VectorOrder);
    assert p == v + KernelSteps(schema, i);
    forall j | 0 <= j < |p|
      ensures p[j].layer == i && !p[j].SkipRun?
      ensures j < |v| ==> p[j] == v[j] && Rank(p[j]) < 5
      ensures j >= |v| ==> Rank(p[j]) == 5
    {
      if j < |v| {
        assert p[j] == v[j];
      }
    }
  }

  /**
   * Each tensor a loaded layer exposes is read once, with its own size, and a
   * tensor it does not expose is not read at all.
   */
  lemma LayerPlanReadsExactly(schema: Schema, i: nat)
    ensures forall name, n: nat :: VectorLen(schema, i, name) == Some(n) <==> LoadVector(i, name, n) in LayerPlan(schema, i, false)
    ensures forall k :: KernelOfLayer(schema, i) == Some(k) <==> LoadKernel(i, k) in LayerPlan(schema, i, false)
  {
    var v := VectorSteps(schema, i, VectorOrder);
    var p := LayerPlan(schema, i, false);
    VectorStepsReads(schema, i, VectorOrder);
    VectorStepsComplete(schema, i, VectorOrder);
    forall name: VectorName
      ensures name in VectorOrder
    {
      assert VectorOrder[VectorRank(name)] == name;
    }
    assert p == v + KernelSteps(schema, i);
    forall name, n: nat | LoadVector(i, name, n) in p
      ensures VectorLen(schema, i, name) == Some(n)
    {
      var j :| 0 <= j < |p| && p[j] == LoadVector(i, name, n);
      assert j < |v|;
    }
    forall k | LoadKernel(i, k) in p
      ensures KernelOfLayer(schema, i) == Some(k)
    {
      var j :| 0 <= j < |p| && p[j] == LoadKernel(i, k);
      assert j >= |v|;
    }
  }

  lemma LayerPlanLayer(schema: Schema, i: nat, skipped: bool)
    ensures forall j :: 0 <= j < |LayerPlan(schema, i, skipped)| ==> LayerPlan(schema, i, skipped)[j].layer == i
  {
    VectorStepsReads(schema, i, VectorOrder);
  }

  ghost predicate LayersBelow(p: seq<Step>, n: nat)
  {
    forall j :: 0 <= j < |p| ==> p[j].layer < n
  }

  ghost predicate LayersSorted(p: seq<Step>)
  {
    forall j, k :: 0 <= j <= k < |p| ==> p[j].layer <= p[k].layer
  }

  lemma ConcatLayers(before: seq<Step>, layer: seq<Step>, i: nat)
    requires LayersBelow(before, i) && LayersSorted(before)
    requires forall j :: 0 <= j < |layer| ==> layer[j].layer == i
    ensures LayersBelow(before + layer, i + 1) && LayersSorted(before + layer)
  {
    var p := before + layer;
    forall j | 0 <= j < |p|
      ensures j < |before| ==> p[j].layer < i
      ensures j >= |before| ==> p[j].layer == i
    {
      if j < |before| {
        assert p[j] == before[j];
      } else {
        assert p[j] == layer[j - |before|];
      }
    }
  }

  /** Every read of a loader over `count` layers belongs to a layer below `count`, and layers are visited in increasing order. */
  lemma {:induction false} LoaderPlanLayers(schema: Schema, count: nat, skipLayers: seq<nat>, skip: bool)
    ensures LayersBelow(LoaderPlan(schema, count, skipLayers, skip), count)
    ensures LayersSorted(LoaderPlan(schema, count, skipLayers, skip))
  {
    if count > 0 {
      var i := count - 1;
      LoaderPlanLayers(schema, i, skipLayers, skip);
      LayerPlanLayer(schema, i, skip && i in skipLayers);
      assert LoaderPlan(schema, count, skipLayers, skip)
             == LoaderPlan(schema, i, skipLayers, skip) + LayerPlan(schema, i, skip && i in skipLayers);
      ConcatLayers(LoaderPlan(schema, i, skipLayers, skip), LayerPlan(schema, i, skip && i in skipLayers), i);
    }
  }

  /** A detection head: a 255-long bias and a 1x1 kernel with 255 outputs over `HeadInputs(i)` channels, nothing else. */
  ghost predicate IsDetectionHead(schema: Schema, i: nat)
  {
    i < |schema| && schema[i] == LayerSchema(map[Bias := 255], Some(KernelShape(1, 1, HeadInputs(i), 255)))
  }

  lemma HeadLayerPlan(schema: Schema, i: nat)
    requires IsDetectionHead(schema, i)
    ensures LayerPlan(schema, i, false) == [LoadVector(i, Bias, 255), LoadKernel(i, KernelShape(1, 1, HeadInputs(i), 255))]
  {
    VectorStepsOfOrder(schema, i);
    assert VectorStep(schema, i, Beta) == [];
    assert VectorStep(schema, i, Gamma) == [];
    assert VectorStep(schema, i, MovingMean) == [];
    assert VectorStep(schema, i, MovingVariance) == [];
    assert VectorStep(schema, i, Bias) == [LoadVector(i, Bias, 255)];
  }

  lemma TotalSizePair(a: Step, b: Step)
    ensures TotalSize([a, b]) == Size(a) + Size(b)
  {
    assert [a][..0] == [];
    assert TotalSize([a]) == Size(a);
    assert [a, b][..1] == [a];
  }

  /** The jump over a detection head is exactly what loading that head would have consumed. */
  lemma SkipSizeMatchesDetectionHead(schema: Schema, i: nat)
    requires i in FullSkipLayers && IsDetectionHead(schema, i)
    ensures TotalSize(LayerPlan(schema, i, false)) == SkipSize(i)
  {
    var k := KernelShape(1, 1, HeadInputs(i), 255);
    HeadLayerPlan(schema, i);
    TotalSizePair(LoadVector(i, Bias, 255), LoadKernel(i, k));
    assert Size(LoadKernel(i, k)) == HeadInputs(i) * 255;
    assert i == 81 || i == 93 || i == 105;
    assert SkipSize(i) == 255 + HeadInputs(i) * 255;
  }

  /** So the cursor stands in the same place after a detection head whether it was loaded or skipped. */
  lemma SkipKeepsCursorInStep<T>(w: seq<T>, c: Cursor<T>, schema: Schema, i: nat)
    requires i in FullSkipLayers && IsDetectionHead(schema, i)
    requires c.failure.None?
    requires Run(w, c, LayerPlan(schema, i, false)).failure.None?
    ensures Run(w, c, LayerPlan(schema, i, false)).offset == Run(w, c, LayerPlan(schema, i, true)).offset
  {
    SkipSizeMatchesDetectionHead(schema, i);
    RunOffset(w, c, LayerPlan(schema, i, false));
    SkippedLayerWritesNothing(w, c, schema, i);
  }

  // ---------------------------------------------------------------------------
  // The network and the reader

  /** The target model: its layer counts, its per-layer schema, and the values assigned to its tensors. */
  class Network {
    const numLayers: nat
    const numBody: nat
    const schema: Schema
    var values: map<VarKey, TensorValue<Word>>

    constructor (numLayers: nat, numBody: nat, schema: Schema)
      ensures this.numLayers == numLayers && this.numBody == numBody && this.schema == schema
      ensures values == map[]
    {
      this.numLayers := numLayers;
      this.numBody := numBody;
      this.schema := schema;
      values := map[];
    }

    function GetVector(i: nat, name: VectorName): Option<nat>
    {
      VectorLen(schema, i, name)
    }

    function GetKernel(i: nat): Option<KernelShape>
    {
      KernelOfLayer(schema, i)
    }

    /** `variable.assign(value)` for a value whose shape fits. */
    method Assign(key: VarKey, value: TensorValue<Word>)
      modifies this
      ensures values == old(values)[key := value]
    {
      values := values[key := value];
    }
  }

  class WeightReader {
    const allWeights: seq<Word>
    var offset: nat

    constructor FromWords(ws: seq<Word>)
      ensures allWeights == ws && offset == 0
    {
      allWeights := ws;
      offset := 0;
    }

    /** `WeightReader(weight_file)`: fails where the header or the payload cannot be unpacked. */
    static method Open(file: seq<Byte>) returns (r: Result<WeightReader, FileError>)
      ensures r.Success? <==> ParseWeightFile(file).Success?
      ensures r.Success? ==> fresh(r.value) && r.value.allWeights == ParseWeightFile(file).value && r.value.offset == 0
      ensures r.Failure? ==> r.error == ParseWeightFile(file).error
    {
      var parsed := ParseWeightFile(file);
      if parsed.Failure? {
        return Failure(parsed.error);
      }
      var reader := new WeightReader.FromWords(parsed.value);
      return Success(reader);
    }

    /** `_read_bytes(size)`: advances the cursor by `size` and returns the (possibly truncated) slice it passed over. */
    method ReadBytes(size: nat) returns (value: seq<Word>)
      modifies this
      ensures offset == old(offset) + size
      ensures value == Slice(allWeights, old(offset), offset)
    {
      offset := offset + size;
      value := Slice(allWeights, offset - size, offset);
    }

    /** `_load_1d_var`: reads `len` values and assigns them unchanged to the vector. */
    method Load1dVar(net: Network, i: nat, name: VectorName, len: nat) returns (failure: Option<LoadError>)
      modifies this, net
      ensures Cursor(offset, net.values, failure)
              == Exec(allWeights, Cursor(old(offset), old(net.values), None), LoadVector(i, name, len))
    {
      var value := ReadBytes(len);
      if |value| != len {
        return Some(ShortRead(Vector(i, name)));
      }
      net.Assign(Vector(i, name), Flat(value));
      failure := None;
    }

    /** `_load_4d_var`: reads `Volume(k)` values, reshapes them to the reversed shape, permutes the axes and assigns. */
    method Load4dVar(net: Network, i: nat, k: KernelShape) returns (failure: Option<LoadError>)
      modifies this, net
      ensures Cursor(offset, net.values, failure)
              == Exec(allWeights, Cursor(old(offset), old(net.values), None), LoadKernel(i, k))
    {
      var value := ReadBytes(Volume(k));
      if |value| != Volume(k) {
        return Some(ShortRead(KernelOf(i)));
      }
      var cells := KernelArray(value, k);
      if k.s0 != k.s1 {
        return Some(KernelNotSquare(i));
      }
      net.Assign(KernelOf(i), Dense4(cells));
      failure := None;
    }

    /** The inner loop over the vector suffixes: each vector of layer i the network exposes is loaded, in the order of `names`. */
    method LoadVectors(net: Network, i: nat, names: seq<VectorName>) returns (failure: Option<LoadError>)
      modifies this, net
      ensures Cursor(offset, net.values, failure)
              == Run(allWeights, Cursor(old(offset), old(net.values), None), VectorSteps(net.schema, i, names))
    {
      ghost var c0 := Cursor(offset, net.values, None);
      var k := 0;
      while k < |names|
        invariant 0 <= k <= |names|
        invariant Run(allWeights, c0, VectorSteps(net.schema, i, names[..k])) == Cursor(offset, net.values, None)
      {
        var name := names[k];
        ghost var done := VectorSteps(net.schema, i, names[..k]);
        VectorPrefixStep(net.schema, i, names, k);
        var len := net.GetVector(i, name);
        if len.Some? {
          RunSnoc(allWeights, c0, done, LoadVector(i, name, len.value));
          failure := Load1dVar(net, i, name, len.value);
          if failure.Some? {
            VectorStepsFailed(allWeights, c0, net.schema, i, names, k + 1);
            return;
          }
        } else {
          assert done + [] == done;
        }
        k := k + 1;
      }
      assert names[..k] == names;
      failure := None;
    }

    /** The body of the per-layer loop for a layer that is not skipped. */
    method LoadLayer(net: Network, i: nat) returns (failure: Option<LoadError>)
      modifies this, net
      ensures Cursor(offset, net.values, failure)
              == Run(allWeights, Cursor(old(offset), old(net.values), None), LayerPlan(net.schema, i, false))
    {
      ghost var c0 := Cursor(offset, net.values, None);
      ghost var vectors := VectorSteps(net.schema, i, VectorOrder);
      ghost var kernel := KernelSteps(net.schema, i);
      failure := LoadVectors(net, i, VectorOrder);
      if failure.Some? {
        RunFailedPrefix(allWeights, c0, vectors, kernel);
        return;
      }
      var shape := net.GetKernel(i);
      if shape.Some? {
        RunSnoc(allWeights, c0, vectors, LoadKernel(i, shape.value));
        failure := Load4dVar(net, i, shape.value);
      } else {
        assert vectors + kernel == vectors;
      }
    }

    /** The loop shared by both loaders: layers 0 .. count-1, jumping over `skipLayers` when `skip` is set. */
    method LoadLayers(net: Network, count: nat, skipLayers: seq<nat>, skip: bool) returns (failure: Option<LoadError>)
      modifies this, net
      ensures Cursor(offset, net.values, failure)
              == Run(allWeights, Cursor(old(offset), old(net.values), None), LoaderPlan(net.schema, count, skipLayers, skip))
    {
      ghost var c0 := Cursor(offset, net.values, None);
      var i := 0;
      while i < count
        invariant 0 <= i <= count
        invariant Run(allWeights, c0, LoaderPlan(net.schema, i, skipLayers, skip)) == Cursor(offset, net.values, None)
      {
        ghost var done := LoaderPlan(net.schema, i, skipLayers, skip);
        ghost var before := Cursor(offset, net.values, None);
        ghost var layer := LayerPlan(net.schema, i, skip && i in skipLayers);
        LoaderPlanStep(net.schema, i, skipLayers, skip);
        RunAppend(allWeights, c0, done, layer);
        if skip && i in skipLayers {
          var skipSize := SkipSize(i);
          var _ := ReadBytes(skipSize);
          SkippedLayerWritesNothing(allWeights, before, net.schema, i);
        } else {
          failure := LoadLayer(net, i);
          if failure.Some? {
            LoaderPlanFailed(allWeights, c0, net.schema, i + 1, count, skipLayers, skip);
            return;
          }
        }
        i := i + 1;
      }
      failure := None;
    }

    /** `load_origin_weights(model, skip_detect_layer)`. */
    method LoadOriginWeights(net: Network, skipDetectLayer: bool) returns (failure: Option<LoadError>)
      modifies this, net
      ensures Cursor(offset, net.values, failure)
              == Run(allWeights, Cursor(old(offset), old(net.values), None),
                     LoaderPlan(net.schema, net.numLayers, FullSkipLayers, skipDetectLayer))
    {
      failure := LoadLayers(net, net.numLayers, FullSkipLayers, skipDetectLayer);
    }

    /** `load_bodynet(model, skip_detect_layer)`. */
    method LoadBodynet(net: Network, skipDetectLayer: bool) returns (failure: Option<LoadError>)
      modifies this, net
      ensures Cursor(offset, net.values, failure)
              == Run(allWeights, Cursor(old(offset), old(net.values), None),
                     LoaderPlan(net.schema, net.numBody, BodySkipLayers, skipDetectLayer))
    {
      failure := LoadLayers(net, net.numBody, BodySkipLayers, skipDetectLayer);
    }
  }

  lemma {:induction false} LayerPlansSplit(plan: nat -> seq<Step>, lo: nat, mid: nat, hi: nat)
    requires lo <= mid <= hi
    ensures LayerPlans(plan, lo, hi) == LayerPlans(plan, lo, mid) + LayerPlans(plan, mid, hi)
    decreases hi
  {
    if mid < hi {
      LayerPlansSplit(plan, lo, mid, hi - 1);
    } else {
      assert LayerPlans(plan, lo, mid) + [] == LayerPlans(plan, lo, mid);
    }
  }

  lemma LoaderPlanStep(schema: Schema, i: nat, skipLayers: seq<nat>, skip: bool)
    ensures LoaderPlan(schema, i + 1, skipLayers, skip)
            == LoaderPlan(schema, i, skipLayers, skip) + LayerPlan(schema, i, skip && i in skipLayers)
  {
  }

  lemma VectorPrefixStep(schema: Schema, i: nat, names: seq<VectorName>, k: nat)
    requires k < |names|
    ensures VectorSteps(schema, i, names[..k + 1]) == VectorSteps(schema, i, names[..k]) + VectorStep(schema, i, names[k])
  {
    assert names[..k + 1][..k] == names[..k];
  }

  lemma VectorStepsSplitAt(schema: Schema, i: nat, names: seq<VectorName>, k: nat)
    requires k <= |names|
    ensures VectorSteps(schema, i, names) == VectorSteps(schema, i, names[..k]) + VectorSteps(schema, i, names[k..])
  {
    VectorStepsAppend(schema, i, names[..k], names[k..]);
    assert names[..k] + names[k..] == names;
  }

  /** A load that failed among the first k vectors ends in that failure. */
  lemma VectorStepsFailed<T>(w: seq<T>, c: Cursor<T>, schema: Schema, i: nat, names: seq<VectorName>, k: nat)
    requires k <= |names|
    requires Run(w, c, VectorSteps(schema, i, names[..k])).failure.Some?
    ensures Run(w, c, VectorSteps(schema, i, names)) == Run(w, c, VectorSteps(schema, i, names[..k]))
  {
    VectorStepsSplitAt(schema, i, names, k);
    RunFailedPrefix(w, c, VectorSteps(schema, i, names[..k]), VectorSteps(schema, i, names[k..]));
  }

  /** A load that failed within the first `i` layers ends in that failure, whatever the remaining layers are. */
  lemma LoaderPlanFailed<T>(w: seq<T>, c: Cursor<T>, schema: Schema, i: nat, count: nat, skipLayers: seq<nat>, skip: bool)
    requires i <= count
    requires Run(w, c, LoaderPlan(schema, i, skipLayers, skip)).failure.Some?
    ensures Run(w, c, LoaderPlan(schema, count, skipLayers, skip)) == Run(w, c, LoaderPlan(schema, i, skipLayers, skip))
  {
    var plan := LoaderLayer(schema, skipLayers, skip);
    LayerPlansSplit(plan, 0, i, count);
    RunFailedPrefix(w, c, LayerPlans(plan, 0, i), LayerPlans(plan, i, count));
  }
}
