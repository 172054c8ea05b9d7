/**
 * The evaluator-driven trainer: every training batch bumps the global step
 * counter and updates three running loss means; whenever the counter reaches
 * a multiple of `log_iter` (after every batch when it is 0) a validation-and-logging cycle runs (two
 * validation passes of at most five batches, per-class AP and mAP scalars,
 * the three loss means, annotated images) and the accumulators are reset;
 * every epoch ends with one checkpoint keyed by the epoch number.
 *
 * The network, the optimizer, the loss and the VOC evaluation are opaque:
 * a training batch carries the three loss components it produces, the
 * evaluator's results are a given function of the batches appended to it,
 * and its annotated images a given function of each appended batch.
 */
module TrainerVoc {

  // ---------------------------------------------------------------------------
  // Accumulators and records

  /** `keras.metrics.Mean`: a running total and count; its result is 0 before any update. */
  datatype MeanMetric = MeanMetric(total: real, count: nat)
  {
    function Update(x: real): MeanMetric
    {
      MeanMetric(total + x, count + 1)
    }

    function Result(): real
    {
      if count == 0 then 0.0 else total / count as real
    }
  }

  const EmptyMean := MeanMetric(0.0, 0)

  /** The three loss components `loss_yolo` reports for a training batch. */
  datatype TrainBatch = TrainBatch(lossBox: real, lossConf: real, lossClass: real)

  /** A validation batch (images, paths, scales, shapes, labels), kept abstract. */
  datatype TestBatch = TestBatch(id: nat)

  /** An annotated detection image produced by the evaluator. */
  datatype Image = Image(id: nat)

  /** The evaluator's state: batches appended since its last reset, their annotated images, and the number of resets. */
  datatype Evaluator = Evaluator(appended: seq<TestBatch>, visual: seq<Image>, resets: nat)

  /** What an image summary is built from. */
  datatype Payload = Results(values: seq<real>) | Images(images: seq<Image>) | Picture(image: Image)

  /** One record written to the training summary writer. */
  datatype Summary =
    | Scalar(tag: string, value: real, step: nat)
    | ImageSummary(tag: string, payload: Payload, step: nat)

  /** The trainer's fixed configuration and its opaque collaborators. */
  datatype Config = Config(
    logIter: nat,
    labels: seq<string>,
    testLoader: seq<TestBatch>,
    evaluate: seq<TestBatch> -> seq<real>,
    annotate: TestBatch -> seq<Image>)

  /** Everything `_train_epoch` reads or changes. */
  datatype TrainerState = TrainerState(
    globalIter: nat,
    globalEpoch: nat,
    lossBox: MeanMetric,
    lossConf: MeanMetric,
    lossClass: MeanMetric,
    evaluator: Evaluator,
    summaries: seq<Summary>,
    checkpoints: seq<nat>)

  /** `args.valid_batch`, forced before every validation batch. */
  const ValidBatch: nat := 5

  // ---------------------------------------------------------------------------
  // Tags

  function DigitChar(d: nat): char
    requires d < 10
  {
    "0123456789"[d]
  }

  ghost predicate AllDigits(s: string)
  {
    forall k :: 0 <= k < |s| ==> '0' <= s[k] <= '9'
  }

  /** Python's `str(n)` for a natural number. */
  function NatToString(n: nat): (s: string)
    ensures |s| > 0 && AllDigits(s)
  {
    if n < 10 then [DigitChar(n)] else NatToString(n / 10) + [DigitChar(n % 10)]
  }

  /** The number a string of decimal digits denotes. */
  function DigitsValue(s: string): nat
    requires AllDigits(s)
  {
    if s == [] then 0 else DigitsValue(s[..|s| - 1]) * 10 + (s[|s| - 1] as int - '0' as int)
  }

  lemma {:induction false} NatToStringRoundTrip(n: nat)
    ensures DigitsValue(NatToString(n)) == n
  {
    var s := NatToString(n);
    if n < 10 {
      assert s[..0] == [];
    } else {
      NatToStringRoundTrip(n / 10);
      assert s[..|s| - 1] == NatToString(n / 10);
    }
  }

  /** The tag of the i-th image record. */
  function DetectionTag(i: nat): string
  {
    "detections_" + NatToString(i)
  }

  /** Different image indices get different tags, so no image record overwrites another. */
  lemma DetectionTagsDistinct(i: nat, j: nat)
    requires i != j
    ensures DetectionTag(i) != DetectionTag(j)
  {
    var p := "detections_";
    if DetectionTag(i) == DetectionTag(j) {
      assert NatToString(i) == DetectionTag(i)[|p|..];
      assert NatToString(j) == DetectionTag(j)[|p|..];
      NatToStringRoundTrip(i);
      NatToStringRoundTrip(j);
    }
  }

  /** `logger_voc`: one `AP@<label>` name per label, in label order, then `mAP`. */
  function LoggerVoc(labels: seq<string>): (names: seq<string>)
    ensures |names| == |labels| + 1
  {
    seq(|labels|, k requires 0 <= k < |labels| => "AP@" + labels[k]) + ["mAP"]
  }

  /** Distinct labels give distinct metric names, none of them `mAP`. */
  lemma LoggerVocDistinct(labels: seq<string>)
    requires forall a, b :: 0 <= a < b < |labels| ==> labels[a] != labels[b]
    ensures forall a, b :: 0 <= a < b < |LoggerVoc(labels)| ==> LoggerVoc(labels)[a] != LoggerVoc(labels)[b]
    ensures LoggerVoc(labels)[|labels|] == "mAP"
    ensures forall k :: 0 <= k < |labels| ==> LoggerVoc(labels)[k] == "AP@" + labels[k]
  {
    var names := LoggerVoc(labels);
    forall a, b | 0 <= a < b < |names|
      ensures names[a] != names[b]
    {
      if b < |labels| {
        assert names[a][3..] == labels[a] && names[b][3..] == labels[b];
      } else {
        assert names[a][0] == 'A' && names[b][0] == 'm';
      }
    }
  }

  // ---------------------------------------------------------------------------
  // Specification of one cycle

  /** The annotated images the evaluator produces for `batches`, in order. */
  function Annotations(annotate: TestBatch -> seq<Image>, batches: seq<TestBatch>): seq<Image>
  {
    if batches == [] then [] else Annotations(annotate, batches[..|batches| - 1]) + annotate(batches[|batches| - 1])
  }

  datatype ValidOutcome = ValidOutcome(evaluator: Evaluator, results: seq<real>, images: seq<Image>)

  /** The batches a validation pass feeds: the first `ValidBatch` of the loader, or all of a shorter one. */
  function ValidBatches(testLoader: seq<TestBatch>): seq<TestBatch>
  {
    if |testLoader| <= ValidBatch then testLoader else testLoader[..ValidBatch]
  }

  /**
   * `_valid_epoch`: append the fed batches to the evaluator (which is NOT
   * reset first), then evaluate everything appended so far and return the
   * results and all annotated images so far.
   */
  function ValidPass(cfg: Config, ev: Evaluator): ValidOutcome
  {
    var fed := ValidBatches(cfg.testLoader);
    var ev' := ev.(appended := ev.appended + fed, visual := ev.visual + Annotations(cfg.annotate, fed));
    ValidOutcome(ev', cfg.evaluate(ev'.appended), ev'.visual)
  }

  /** A pass feeds at most five batches: all of a loader of five or fewer, else its first five. */
  lemma ValidPassCap(cfg: Config, ev: Evaluator)
    ensures var fed := |ValidPass(cfg, ev).evaluator.appended| - |ev.appended|;
      fed <= ValidBatch && (fed == ValidBatch || fed == |cfg.testLoader|) && fed <= |cfg.testLoader|
    ensures ValidPass(cfg, ev).evaluator.appended[..|ev.appended|] == ev.appended
    ensures forall k :: |ev.appended| <= k < |ValidPass(cfg, ev).evaluator.appended| ==>
              ValidPass(cfg, ev).evaluator.appended[k] == cfg.testLoader[k - |ev.appended|]
    ensures ValidPass(cfg, ev).evaluator.resets == ev.resets
  {
  }

  /** zip(logger_voc, results): one scalar per pair, stopping at the shorter. */
  function VocScalars(names: seq<string>, results: seq<real>, step: nat): (r: seq<Summary>)
  {
    var n := if |names| <= |results| then |names| else |results|;
    seq(n, k requires 0 <= k < n => Scalar(names[k], results[k], step))
  }

  /** The three loss means, in the insertion order of `logger_losses`. */
  function LossScalars(s: TrainerState, step: nat): seq<Summary>
  {
    [Scalar("lossBox", s.lossBox.Result(), step),
     Scalar("lossConf", s.lossConf.Result(), step),
     Scalar("lossClass", s.lossClass.Result(), step)]
  }

  /** One image record per annotated image, the i-th tagged `detections_<i>`. */
  function ImageSummaries(images: seq<Image>, step: nat): seq<Summary>
  {
    seq(|images|, i requires 0 <= i < |images| => ImageSummary(DetectionTag(i), Picture(images[i]), step))
  }

  /** `_reset_loggers`: the evaluator and the three loss means start over. */
  function Reset(s: TrainerState): TrainerState
  {
    s.(evaluator := Evaluator([], [], s.evaluator.resets + 1),
       lossBox := EmptyMean, lossConf := EmptyMean, lossClass := EmptyMean)
  }

  /**
   * A validation-and-logging cycle with the image loop over the images of
   * the second pass (the source's line 84 unpacks nothing; see the
   * as-written version below).
   */
  function Cycle(cfg: Config, s: TrainerState): TrainerState
  {
    var step := s.globalIter;
    var first := ValidPass(cfg, s.evaluator);
    var second := ValidPass(cfg, first.evaluator);
    var logged := s.summaries + VocScalars(LoggerVoc(cfg.labels), first.results, step) + LossScalars(s, step)
                  + ImageSummaries(second.images, step);
    Reset(s.(evaluator := second.evaluator, summaries := logged))
  }

  /** What the image loop did: the records it wrote, and whether `tf.summary.image` raised and cut it short. */
  datatype ImageLoopOutcome = ImageLoopOutcome(records: seq<Summary>, raised: bool)

  /**
   * `for i in range(len(xs)): tf.summary.image("detections_<i>", expand_dims(xs[i], 0))`.
   * `tf.summary.image` takes a rank-4 batch of images, and `expand_dims(x, 0)`
   * makes one only when x is a single image, so any other element raises;
   * the records written before it stay written.
   */
  function ImageLoop(payloads: seq<Payload>, step: nat): (r: ImageLoopOutcome)
    ensures |r.records| <= |payloads|
    ensures forall k :: 0 <= k < |r.records| ==>
              payloads[k].Picture? && r.records[k] == ImageSummary(DetectionTag(k), payloads[k], step)
    ensures r.raised <==> exists k :: 0 <= k < |payloads| && !payloads[k].Picture?
    ensures r.raised ==> !payloads[|r.records|].Picture?
    ensures !r.raised ==> |r.records| == |payloads|
  {
    if payloads == [] then ImageLoopOutcome([], false)
    else
      var prev := ImageLoop(payloads[..|payloads| - 1], step);
      var i := |payloads| - 1;
      if prev.raised then
        assert payloads[..i][|prev.records|] == payloads[|prev.records|];
        prev
      else if payloads[i].Picture? then
        ImageLoopOutcome(prev.records + [ImageSummary(DetectionTag(i), payloads[i], step)], false)
      else
        ImageLoopOutcome(prev.records, true)
  }

  /** Over single images the loop never raises and writes exactly one record per image. */
  lemma PicturesImageLoop(images: seq<Image>, step: nat)
    ensures ImageLoop(seq(|images|, i requires 0 <= i < |images| => Picture(images[i])), step)
            == ImageLoopOutcome(ImageSummaries(images, step), false)
  {
    var payloads := seq(|images|, i requires 0 <= i < |images| => Picture(images[i]));
    var r := ImageLoop(payloads, step);
    assert r.records == ImageSummaries(images, step);
  }

  /** As written, `imgs = self._valid_epoch()` binds the pair (results, images), so the image loop runs over that pair. */
  function AsWrittenPayloads(second: ValidOutcome): seq<Payload>
  {
    [Results(second.results), Images(second.images)]
  }

  /** How a cycle ends: with the reset, or with the exception that escapes `_train_epoch`. */
  datatype CycleOutcome = Completed(state: TrainerState) | Raised(state: TrainerState)

  /**
   * The cycle as written: the image loop runs over the pair, and the reset
   * only happens if the loop gets through it.
   */
  function CycleAsWritten(cfg: Config, s: TrainerState): CycleOutcome
  {
    var step := s.globalIter;
    var first := ValidPass(cfg, s.evaluator);
    var second := ValidPass(cfg, first.evaluator);
    var loop := ImageLoop(AsWrittenPayloads(second), step);
    var logged := s.summaries + VocScalars(LoggerVoc(cfg.labels), first.results, step) + LossScalars(s, step)
                  + loop.records;
    var t := s.(evaluator := second.evaluator, summaries := logged);
    if loop.raised then Raised(t) else Completed(Reset(t))
  }

  /** `train_step`'s effect on the trainer: each loss mean takes in the batch's component. */
  function Trained(s: TrainerState, b: TrainBatch): TrainerState
  {
    s.(lossBox := s.lossBox.Update(b.lossBox),
       lossConf := s.lossConf.Update(b.lossConf),
       lossClass := s.lossClass.Update(b.lossClass))
  }

  /**
   * Whether `global_iter.numpy() % log_iter == 0` holds at count g. The
   * counter is a numpy integer, and numpy's `%` by zero yields 0 (with a
   * warning) instead of raising, so `log_iter == 0` logs after every batch.
   */
  predicate CycleDue(g: nat, logIter: nat)
  {
    logIter == 0 || g % logIter == 0
  }

  /** One iteration of `_train_epoch`: bump the counter, train, and log when a cycle is due at the new count. */
  function Batch(cfg: Config, s: TrainerState, b: TrainBatch): TrainerState
  {
    var trained := Trained(s.(globalIter := s.globalIter + 1), b);
    if CycleDue(trained.globalIter, cfg.logIter) then Cycle(cfg, trained) else trained
  }

  function Batches(cfg: Config, s: TrainerState, loader: seq<TrainBatch>): TrainerState
  {
    if loader == [] then s else Batch(cfg, Batches(cfg, s, loader[..|loader| - 1]), loader[|loader| - 1])
  }

  /** `_train_epoch`: all the batches, then one checkpoint keyed by the epoch. */
  function Epoch(cfg: Config, s: TrainerState, loader: seq<TrainBatch>): TrainerState
  {
    var t := Batches(cfg, s, loader);
    t.(checkpoints := t.checkpoints + [t.globalEpoch])
  }

  // ---------------------------------------------------------------------------
  // Properties

  /** A cycle writes the AP/mAP scalars, then the three loss means, then one record per image, all at the current step. */
  lemma LogCycleRecords(cfg: Config, s: TrainerState)
    ensures var first := ValidPass(cfg, s.evaluator);
      var second := ValidPass(cfg, first.evaluator);
      var n := if |cfg.labels| + 1 <= |first.results| then |cfg.labels| + 1 else |first.results|;
      var added := Cycle(cfg, s).summaries[|s.summaries|..];
      Cycle(cfg, s).summaries[..|s.summaries|] == s.summaries &&
      |added| == n + 3 + |second.images| &&
      (forall k :: 0 <= k < |added| ==> added[k].step == s.globalIter) &&
      (forall k :: 0 <= k < n ==> added[k] == Scalar(LoggerVoc(cfg.labels)[k], first.results[k], s.globalIter)) &&
      added[n] == Scalar("lossBox", s.lossBox.Result(), s.globalIter) &&
      added[n + 1] == Scalar("lossConf", s.lossConf.Result(), s.globalIter) &&
      added[n + 2] == Scalar("lossClass", s.lossClass.Result(), s.globalIter) &&
      (forall i :: 0 <= i < |second.images| ==>
         added[n + 3 + i] == ImageSummary(DetectionTag(i), Picture(second.images[i]), s.globalIter))
  {
  }

  /** After a cycle the three means and the evaluator are empty, and the evaluator has been reset exactly once. */
  lemma LogCycleResets(cfg: Config, s: TrainerState)
    ensures var t := Cycle(cfg, s);
      t.lossBox.count == 0 && t.lossConf.count == 0 && t.lossClass.count == 0 &&
      t.lossBox.Result() == 0.0 && t.evaluator.appended == [] && t.evaluator.visual == [] &&
      t.evaluator.resets == s.evaluator.resets + 1
    ensures Cycle(cfg, s).globalIter == s.globalIter && Cycle(cfg, s).checkpoints == s.checkpoints
    ensures Cycle(cfg, s).globalEpoch == s.globalEpoch
  {
  }

  /** The two validation passes of a cycle feed the same batches twice: the second evaluation sees them in duplicate. */
  lemma CycleFeedsTwice(cfg: Config, ev: Evaluator)
    ensures var fed := ValidBatches(cfg.testLoader);
      ValidPass(cfg, ValidPass(cfg, ev).evaluator).evaluator.appended == ev.appended + fed + fed
  {
  }

  /** The only multiple of l strictly between -l and l is 0. */
  lemma SmallMultiple(k: int, l: int)
    requires l > 0 && -l < k * l < l
    ensures k == 0
  {
  }

  /** Quotient and remainder are the only decomposition with the remainder below the divisor. */
  lemma DivModUnique(n: nat, l: nat, q: nat, r: nat)
    requires l > 0 && r < l && n == q * l + r
    ensures n / l == q && n % l == r
  {
    var q0 := n / l;
    var r0 := n % l;
    assert (q - q0) * l == r0 - r;
    SmallMultiple(q - q0, l);
  }

  /** Counting one more: the quotient grows exactly when the new value is a multiple, and the remainder otherwise. */
  lemma DivStep(g: nat, l: nat)
    requires l > 0
    ensures (g + 1) / l - g / l == (if (g + 1) % l == 0 then 1 else 0)
    ensures (g + 1) % l != 0 ==> (g + 1) % l == g % l + 1
  {
    var q := g / l;
    var r := g % l;
    DivModUnique(g, l, q, r);
    if r + 1 == l {
      assert g + 1 == (q + 1) * l + 0;
      DivModUnique(g + 1, l, q + 1, 0);
    } else {
      DivModUnique(g + 1, l, q, r + 1);
    }
  }

  /** How many of the counts g+1 .. g+n have a cycle due under cadence l. */
  function MultiplesAfter(g: nat, n: nat, l: nat): nat
  {
    if n == 0 then 0 else MultiplesAfter(g, n - 1, l) + (if CycleDue(g + n, l) then 1 else 0)
  }

  /** With `log_iter == 0` every batch runs a cycle. */
  lemma {:induction false} MultiplesAfterZero(g: nat, n: nat)
    ensures MultiplesAfter(g, n, 0) == n
  {
    if n > 0 {
      MultiplesAfterZero(g, n - 1);
    }
  }

  /** Counting the multiples one by one gives the difference of quotients. */
  lemma {:induction false} MultiplesAfterIs(g: nat, n: nat, l: nat)
    requires l > 0
    ensures MultiplesAfter(g, n, l) == (g + n) / l - g / l
  {
    if n > 0 {
      MultiplesAfterIs(g, n - 1, l);
      DivStep(g + n - 1, l);
    }
  }

  /** A batch advances the counter by one, and runs a cycle (one evaluator reset) exactly when one is due at the new count. */
  lemma BatchCounters(cfg: Config, s: TrainerState, b: TrainBatch)
    ensures Batch(cfg, s, b).globalIter == s.globalIter + 1
    ensures Batch(cfg, s, b).globalEpoch == s.globalEpoch && Batch(cfg, s, b).checkpoints == s.checkpoints
    ensures Batch(cfg, s, b).evaluator.resets
            == s.evaluator.resets + (if CycleDue(s.globalIter + 1, cfg.logIter) then 1 else 0)
  {
  }

  /** A cycle only appends records, at least the three loss scalars, all stamped with the current step. */
  lemma CycleAppendsAtStep(cfg: Config, s: TrainerState)
    ensures |Cycle(cfg, s).summaries| >= |s.summaries| + 3
    ensures Cycle(cfg, s).summaries[..|s.summaries|] == s.summaries
    ensures forall k :: |s.summaries| <= k < |Cycle(cfg, s).summaries| ==> Cycle(cfg, s).summaries[k].step == s.globalIter
  {
    var first := ValidPass(cfg, s.evaluator);
    var second := ValidPass(cfg, first.evaluator);
    var added := VocScalars(LoggerVoc(cfg.labels), first.results, s.globalIter) + LossScalars(s, s.globalIter)
                 + ImageSummaries(second.images, s.globalIter);
    assert Cycle(cfg, s).summaries == s.summaries + added;
    assert forall k :: 0 <= k < |added| ==> added[k].step == s.globalIter;
  }

  /**
   * A batch writes summaries iff a cycle is due at its incremented counter,
   * and then every record carries that incremented counter.
   */
  lemma BatchLogs(cfg: Config, s: TrainerState, b: TrainBatch)
    ensures Batch(cfg, s, b).summaries[..|s.summaries|] == s.summaries
    ensures |Batch(cfg, s, b).summaries| > |s.summaries| <==> CycleDue(s.globalIter + 1, cfg.logIter)
    ensures forall k :: |s.summaries| <= k < |Batch(cfg, s, b).summaries| ==>
              Batch(cfg, s, b).summaries[k].step == s.globalIter + 1
  {
    var trained := Trained(s.(globalIter := s.globalIter + 1), b);
    if CycleDue(trained.globalIter, cfg.logIter) {
      CycleAppendsAtStep(cfg, trained);
    }
  }

  /**
   * Over a run of batches the counter advances by their number, and a cycle
   * runs once for every count at which one is due, however the epoch
   * boundaries fall.
   */
  lemma {:induction false} BatchesCounters(cfg: Config, s: TrainerState, loader: seq<TrainBatch>)
    ensures Batches(cfg, s, loader).globalIter == s.globalIter + |loader|
    ensures Batches(cfg, s, loader).globalEpoch == s.globalEpoch
    ensures Batches(cfg, s, loader).checkpoints == s.checkpoints
    ensures Batches(cfg, s, loader).evaluator.resets
            == s.evaluator.resets + MultiplesAfter(s.globalIter, |loader|, cfg.logIter)
  {
    if loader != [] {
      var init := loader[..|loader| - 1];
      BatchesCounters(cfg, s, init);
      BatchCounters(cfg, Batches(cfg, s, init), loader[|loader| - 1]);
    }
  }

  /**
   * Every epoch ends with exactly one more checkpoint, keyed by the epoch,
   * whatever the cadence; one cycle runs per multiple of `log_iter` passed,
   * or per batch when `log_iter` is 0.
   */
  lemma EpochCheckpoint(cfg: Config, s: TrainerState, loader: seq<TrainBatch>)
    ensures Epoch(cfg, s, loader).checkpoints == s.checkpoints + [s.globalEpoch]
    ensures Epoch(cfg, s, loader).globalIter == s.globalIter + |loader|
    ensures cfg.logIter > 0 ==>
              Epoch(cfg, s, loader).evaluator.resets
              == s.evaluator.resets + (s.globalIter + |loader|) / cfg.logIter - s.globalIter / cfg.logIter
    ensures cfg.logIter == 0 ==> Epoch(cfg, s, loader).evaluator.resets == s.evaluator.resets + |loader|
  {
    BatchesCounters(cfg, s, loader);
    if cfg.logIter > 0 {
      MultiplesAfterIs(s.globalIter, |loader|, cfg.logIter);
    } else {
      MultiplesAfterZero(s.globalIter, |loader|);
    }
  }

  /** The loss means hold exactly the batches since the last cycle: none when every batch cycles. */
  ghost predicate MeansInPhase(cfg: Config, s: TrainerState)
  {
    var since := if cfg.logIter == 0 then 0 else s.globalIter % cfg.logIter;
    s.lossBox.count == since && s.lossConf.count == since && s.lossClass.count == since
  }

  lemma BatchKeepsPhase(cfg: Config, s: TrainerState, b: TrainBatch)
    requires MeansInPhase(cfg, s)
    ensures MeansInPhase(cfg, Batch(cfg, s, b))
  {
    if cfg.logIter > 0 {
      DivStep(s.globalIter, cfg.logIter);
    }
  }

  /** So the means stay in phase across whole epochs: they never hold batches from before the last cycle. */
  lemma {:induction false} EpochKeepsPhase(cfg: Config, s: TrainerState, loader: seq<TrainBatch>)
    requires MeansInPhase(cfg, s)
    ensures MeansInPhase(cfg, Epoch(cfg, s, loader))
  {
    BatchesKeepPhase(cfg, s, loader);
  }

  lemma {:induction false} BatchesKeepPhase(cfg: Config, s: TrainerState, loader: seq<TrainBatch>)
    requires MeansInPhase(cfg, s)
    ensures MeansInPhase(cfg, Batches(cfg, s, loader))
  {
    if loader != [] {
      BatchesKeepPhase(cfg, s, loader[..|loader| - 1]);
      BatchKeepsPhase(cfg, Batches(cfg, s, loader[..|loader| - 1]), loader[|loader| - 1]);
    }
  }

  /**
   * As written, every cycle raises at its first image record: the AP/mAP and
   * loss scalars are already written, no image record is, and neither the
   * evaluator (which holds both passes' batches) nor the loss means are reset.
   */
  lemma AsWrittenCycleRaises(cfg: Config, s: TrainerState)
    ensures var first := ValidPass(cfg, s.evaluator);
      var second := ValidPass(cfg, first.evaluator);
      var step := s.globalIter;
      CycleAsWritten(cfg, s).Raised? &&
      CycleAsWritten(cfg, s).state.summaries
        == s.summaries + VocScalars(LoggerVoc(cfg.labels), first.results, step) + LossScalars(s, step) &&
      CycleAsWritten(cfg, s).state.evaluator == second.evaluator &&
      CycleAsWritten(cfg, s).state.evaluator.resets == s.evaluator.resets &&
      CycleAsWritten(cfg, s).state.lossBox == s.lossBox &&
      CycleAsWritten(cfg, s).state.lossConf == s.lossConf &&
      CycleAsWritten(cfg, s).state.lossClass == s.lossClass
  {
    var second := ValidPass(cfg, ValidPass(cfg, s.evaluator).evaluator);
    var loop := ImageLoop(AsWrittenPayloads(second), s.globalIter);
    assert !AsWrittenPayloads(second)[0].Picture?;
    assert loop.records == [];
  }

  /**
   * A concrete case: three validation batches of one image each. The second
   * pass holds six images; the corrected cycle writes two AP scalars, three
   * loss scalars and six image records and resets, while the cycle as written
   * raises after the five scalars.
   */
  lemma AsWrittenDropsImages()
    ensures var cfg := Config(1, ["cat"], [TestBatch(0), TestBatch(1), TestBatch(2)],
                              (bs: seq<TestBatch>) => [0.5, 0.5], (b: TestBatch) => [Image(b.id)]);
      var s := TrainerState(1, 0, EmptyMean, EmptyMean, EmptyMean, Evaluator([], [], 0), [], []);
      |ValidPass(cfg, ValidPass(cfg, s.evaluator).evaluator).images| == 6 &&
      CycleAsWritten(cfg, s).Raised? && |CycleAsWritten(cfg, s).state.summaries| == 2 + 3 &&
      |Cycle(cfg, s).summaries| == 2 + 3 + 6
  {
    var cfg := Config(1, ["cat"], [TestBatch(0), TestBatch(1), TestBatch(2)],
                      (bs: seq<TestBatch>) => [0.5, 0.5], (b: TestBatch) => [Image(b.id)]);
    var s := TrainerState(1, 0, EmptyMean, EmptyMean, EmptyMean, Evaluator([], [], 0), [], []);
    var fed := cfg.testLoader;
    assert ValidBatches(cfg.testLoader) == fed;
    assert fed[..1][..0] == [];
    assert Annotations(cfg.annotate, fed[..1]) == [Image(0)];
    assert fed[..2][..1] == fed[..1];
    assert Annotations(cfg.annotate, fed[..2]) == [Image(0), Image(1)];
    assert fed[..|fed| - 1] == fed[..2];
    assert Annotations(cfg.annotate, fed) == [Image(0), Image(1), Image(2)];
    AsWrittenCycleRaises(cfg, s);
  }

  // ---------------------------------------------------------------------------
  // The trainer

  class Trainer {
    const logIter: nat
    const labels: seq<string>
    const testLoader: seq<TestBatch>
    const evaluate: seq<TestBatch> -> seq<real>
    const annotate: TestBatch -> seq<Image>
    var globalIter: nat
    var globalEpoch: nat
    var lossBox: MeanMetric
    var lossConf: MeanMetric
    var lossClass: MeanMetric
    var evaluator: Evaluator
    var summaries: seq<Summary>
    var checkpoints: seq<nat>

    /** `_get_loggers` on a fresh trainer: empty means, an empty evaluator, nothing written yet. */
    constructor (cfg: Config, globalIter: nat, globalEpoch: nat)
      ensures Cfg() == cfg
      ensures State() == TrainerState(globalIter, globalEpoch, EmptyMean, EmptyMean, EmptyMean, Evaluator([], [], 0), [], [])
    {
      logIter := cfg.logIter;
      labels := cfg.labels;
      testLoader := cfg.testLoader;
      evaluate := cfg.evaluate;
      annotate := cfg.annotate;
      this.globalIter := globalIter;
      this.globalEpoch := globalEpoch;
      lossBox := EmptyMean;
      lossConf := EmptyMean;
      lossClass := EmptyMean;
      evaluator := Evaluator([], [], 0);
      summaries := [];
      checkpoints := [];
    }

    function Cfg(): Config
    {
      Config(logIter, labels, testLoader, evaluate, annotate)
    }

    ghost function State(): TrainerState
      reads this
    {
      TrainerState(globalIter, globalEpoch, lossBox, lossConf, lossClass, evaluator, summaries, checkpoints)
    }

    /** `_reset_loggers`. */
    method ResetLoggers()
      modifies this
      ensures State() == Reset(old(State()))
    {
      evaluator := Evaluator([], [], evaluator.resets + 1);
      lossClass := EmptyMean;
      lossConf := EmptyMean;
      lossBox := EmptyMean;
    }

    /** The bookkeeping of `train_step`: the three means take in the batch's loss components. */
    method TrainStep(b: TrainBatch)
      modifies this
      ensures State() == Trained(old(State()), b)
    {
      lossBox := lossBox.Update(b.lossBox);
      lossConf := lossConf.Update(b.lossConf);
      lossClass := lossClass.Update(b.lossClass);
    }

    /** `_valid_epoch`: feed batches until index 5, then evaluate. */
    method ValidEpoch() returns (results: seq<real>, imgs: seq<Image>)
      modifies this
      ensures State() == old(State()).(evaluator := ValidPass(Cfg(), old(evaluator)).evaluator)
      ensures results == ValidPass(Cfg(), old(evaluator)).results
      ensures imgs == ValidPass(Cfg(), old(evaluator)).images
    {
      var idxBatch := 0;
      while idxBatch < |testLoader|
        invariant 0 <= idxBatch <= |testLoader| && idxBatch <= ValidBatch
        invariant evaluator == old(evaluator).(appended := old(evaluator).appended + testLoader[..idxBatch],
                                               visual := old(evaluator).visual + Annotations(annotate, testLoader[..idxBatch]))
        invariant State() == old(State()).(evaluator := evaluator)
      {
        if idxBatch == ValidBatch {
          break;
        }
        var batch := testLoader[idxBatch];
        assert testLoader[..idxBatch + 1][..idxBatch] == testLoader[..idxBatch];
        evaluator := evaluator.(appended := evaluator.appended + [batch], visual := evaluator.visual + annotate(batch));
        idxBatch := idxBatch + 1;
      }
      assert testLoader[..idxBatch] == ValidBatches(testLoader);
      results := evaluate(evaluator.appended);
      imgs := evaluator.visual;
    }

    /** `for k, v in zip(logger_voc, results)`: one scalar per metric name, stopping at the shorter. */
    method LogVocScalars(results: seq<real>, step: nat)
      modifies this
      ensures State() == old(State()).(summaries := old(summaries) + VocScalars(LoggerVoc(labels), results, step))
    {
      var names := LoggerVoc(labels);
      var n := if |names| <= |results| then |names| else |results|;
      var k := 0;
      while k < n
        invariant 0 <= k <= n
        invariant State() == old(State()).(summaries := old(summaries) + VocScalars(names, results, step)[..k])
      {
        assert VocScalars(names, results, step)[..k + 1] == VocScalars(names, results, step)[..k] + [Scalar(names[k], results[k], step)];
        summaries := summaries + [Scalar(names[k], results[k], step)];
        k := k + 1;
      }
      assert VocScalars(names, results, step)[..k] == VocScalars(names, results, step);
    }

    /** `for i in range(len(imgs))`: one image record per annotated image. */
    method LogImages(imgs: seq<Image>, step: nat)
      modifies this
      ensures State() == old(State()).(summaries := old(summaries) + ImageSummaries(imgs, step))
    {
      var i := 0;
      while i < |imgs|
        invariant 0 <= i <= |imgs|
        invariant State() == old(State()).(summaries := old(summaries) + ImageSummaries(imgs, step)[..i])
      {
        assert ImageSummaries(imgs, step)[..i + 1] == ImageSummaries(imgs, step)[..i] + [ImageSummary(DetectionTag(i), Picture(imgs[i]), step)];
        summaries := summaries + [ImageSummary(DetectionTag(i), Picture(imgs[i]), step)];
        i := i + 1;
      }
      assert ImageSummaries(imgs, step)[..i] == ImageSummaries(imgs, step);
    }

    /** The logging block of `_train_epoch`, run when a cycle is due. */
    method LogCycle()
      modifies this
      ensures State() == Cycle(Cfg(), old(State()))
    {
      var step := globalIter;
      var results, _ := ValidEpoch();
      LogVocScalars(results, step);
      summaries := summaries + [Scalar("lossBox", lossBox.Result(), step),
                                Scalar("lossConf", lossConf.Result(), step),
                                Scalar("lossClass", lossClass.Result(), step)];
      var _, imgs := ValidEpoch();
      LogImages(imgs, step);
      ResetLoggers();
    }

    /** One iteration of the batch loop: count, train, and log when a cycle is due. */
    method RunBatch(b: TrainBatch)
      modifies this
      ensures State() == Batch(Cfg(), old(State()), b)
    {
      globalIter := globalIter + 1;
      TrainStep(b);
      if logIter == 0 || globalIter % logIter == 0 {
        LogCycle();
      }
    }

    /** `_train_epoch` over `loader`, ending with `ckpt_manager.save(global_epoch)`. */
    method TrainEpoch(loader: seq<TrainBatch>)
      modifies this
      ensures State() == Epoch(Cfg(), old(State()), loader)
    {
      var i := 0;
      while i < |loader|
        invariant 0 <= i <= |loader|
        invariant State() == Batches(Cfg(), old(State()), loader[..i])
      {
        assert loader[..i + 1][..i] == loader[..i];
        RunBatch(loader[i]);
        i := i + 1;
      }
      assert loader[..i] == loader;
      checkpoints := checkpoints + [globalEpoch];
    }
  }
}
