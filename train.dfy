/**
 * The best-weights training driver: `train_fn` runs a number of epochs, each
 * producing a mean loss (the validation mean when a validation generator is
 * given, the training mean otherwise), appends it to the history, and saves
 * the weights whenever that loss equals the minimum of the history so far.
 * Gradient steps and the loss mathematics are abstracted into a per-batch
 * loss that each generator yields.
 */
module Train {
  import opened Wrappers

  // ---------------------------------------------------------------------------
  // Where the weights go

  /** POSIX `os.path.join(dir, name)` for two components. */
  function Join(dir: string, name: string): (p: string)
    ensures |name| > 0 && name[0] == '/' ==> p == name
    ensures !(|name| > 0 && name[0] == '/') ==>
              |dir| + |name| <= |p| <= |dir| + |name| + 1 && p[..|dir|] == dir && p[|p| - |name|..] == name
    ensures !(|name| > 0 && name[0] == '/') && dir != [] ==> p[|p| - |name| - 1] == '/'
  {
    if |name| > 0 && name[0] == '/' then name
    else if dir == [] || dir[|dir| - 1] == '/' then dir + name
    else dir + "/" + name
  }

  /**
   * `_setup(save_dname)`: a missing or empty directory name (both falsy in
   * Python) disables saving; otherwise the weights are saved under
   * `<save_dname>/weights`. Creating the directory is left out.
   */
  function Setup(saveDname: Option<string>): (saveFname: Option<string>)
    ensures saveFname.Some? <==> saveDname.Some? && saveDname.value != ""
    ensures saveFname.Some? ==> saveFname.value == Join(saveDname.value, "weights")
  {
    if saveDname.Some? && saveDname.value != "" then Some(Join(saveDname.value, "weights")) else None
  }

  /** The file `model.save_weights` writes for a save name. */
  function SaveFile(saveFname: string): (file: string)
    ensures |file| == |saveFname| + 3 && file[..|saveFname|] == saveFname && file[|saveFname|..] == ".h5"
  {
    saveFname + ".h5"
  }

  /** With a directory set, every save writes `<dir>/weights.h5` (no extra slash after a trailing one). */
  lemma SavePath(dir: string)
    requires dir != ""
    ensures Setup(Some(dir)).Some?
    ensures dir[|dir| - 1] == '/' ==> SaveFile(Setup(Some(dir)).value) == dir + "weights.h5"
    ensures dir[|dir| - 1] != '/' ==> SaveFile(Setup(Some(dir)).value) == dir + "/weights.h5"
  {
    if dir[|dir| - 1] == '/' {
      assert dir + "weights" + ".h5" == dir + "weights.h5";
    } else {
      assert dir + "/" + "weights" + ".h5" == dir + "/weights.h5";
    }
  }

  // ---------------------------------------------------------------------------
  // Mean loss over an epoch

  /** Sum of the losses of batches from .. from+n-1. */
  function SumLosses(batchLoss: nat -> real, from: nat, n: nat): real
  {
    if n == 0 then 0.0 else SumLosses(batchLoss, from, n - 1) + batchLoss(from + n - 1)
  }

  /** The mean loss of the `steps` batches starting at draw `from`. */
  function Mean(batchLoss: nat -> real, from: nat, steps: nat): real
    requires steps > 0
  {
    SumLosses(batchLoss, from, steps) / steps as real
  }

  lemma {:induction false} SumBounds(batchLoss: nat -> real, from: nat, n: nat, lo: real, hi: real)
    requires forall k: nat :: from <= k < from + n ==> lo <= batchLoss(k) <= hi
    ensures n as real * lo <= SumLosses(batchLoss, from, n) <= n as real * hi
  {
    if n > 0 {
      SumBounds(batchLoss, from, n - 1, lo, hi);
      assert (n - 1) as real * lo + lo == n as real * lo;
      assert (n - 1) as real * hi + hi == n as real * hi;
    }
  }

  /** The mean lies between the smallest and the largest batch loss; constant losses give that constant. */
  lemma MeanBounds(batchLoss: nat -> real, from: nat, steps: nat, lo: real, hi: real)
    requires steps > 0
    requires forall k: nat :: from <= k < from + steps ==> lo <= batchLoss(k) <= hi
    ensures lo <= Mean(batchLoss, from, steps) <= hi
  {
    SumBounds(batchLoss, from, steps, lo, hi);
    var n := steps as real;
    var s := SumLosses(batchLoss, from, steps);
    assert s / n * n == s;
    if s / n < lo {
      assert s / n * n < lo * n;
    }
    if s / n > hi {
      assert s / n * n > hi * n;
    }
  }

  /** The generator's draw count after `n` epochs of `steps` batches, starting from `start`. */
  function DrawsAfter(start: nat, steps: nat, n: nat): nat
  {
    if n == 0 then start else DrawsAfter(start, steps, n - 1) + steps
  }

  lemma {:induction false} DrawsAfterIs(start: nat, steps: nat, n: nat)
    ensures DrawsAfter(start, steps, n) == start + n * steps
  {
    if n > 0 {
      DrawsAfterIs(start, steps, n - 1);
      assert (n - 1) * steps + steps == n * steps;
    }
  }

  /** The losses of `n` epochs of `steps` batches, the first drawing at `start`: one mean per epoch, in epoch order. */
  function EpochLosses(batchLoss: nat -> real, start: nat, steps: nat, n: nat): (h: seq<real>)
    requires n > 0 ==> steps > 0
    ensures |h| == n
  {
    if n == 0 then [] else EpochLosses(batchLoss, start, steps, n - 1) + [Mean(batchLoss, DrawsAfter(start, steps, n - 1), steps)]
  }

  /** Epoch e's recorded loss is the mean over draws start + e*steps .. start + (e+1)*steps - 1. */
  lemma {:induction false} EpochLossesAt(batchLoss: nat -> real, start: nat, steps: nat, n: nat, e: nat)
    requires n > 0 ==> steps > 0
    requires e < n
    ensures EpochLosses(batchLoss, start, steps, n)[e] == Mean(batchLoss, start + e * steps, steps)
  {
    if e == n - 1 {
      DrawsAfterIs(start, steps, e);
    } else {
      EpochLossesAt(batchLoss, start, steps, n - 1, e);
    }
  }

  // ---------------------------------------------------------------------------
  // The save rule

  /** Python's `min(history)`. */
  function Min(h: seq<real>): (m: real)
    requires |h| > 0
    ensures m in h
    ensures forall j :: 0 <= j < |h| ==> m <= h[j]
  {
    if |h| == 1 then h[0]
    else
      var rest := Min(h[..|h| - 1]);
      assert rest in h by {
        var k :| 0 <= k < |h| - 1 && h[..|h| - 1][k] == rest;
        assert h[k] == rest;
      }
      assert forall j :: 0 <= j < |h| - 1 ==> h[j] == h[..|h| - 1][j];
      if h[|h| - 1] < rest then h[|h| - 1] else rest
  }

  /** The epochs after which the code saves: those whose loss equals the minimum of the history up to them. */
  function SavedEpochs(h: seq<real>): (saved: seq<nat>)
    ensures forall k :: 0 <= k < |saved| ==> saved[k] < |h|
  {
    if h == [] then []
    else SavedEpochs(h[..|h| - 1]) + (if h[|h| - 1] == Min(h) then [|h| - 1] else [])
  }

  /** Epoch e's loss is no larger than any earlier one (ties included). */
  ghost predicate IsBest(h: seq<real>, e: nat)
  {
    e < |h| && forall j :: 0 <= j <= e ==> h[e] <= h[j]
  }

  /** A save happens at epoch e exactly when e's loss is a (possibly tied) best so far. */
  lemma {:induction false} SavedEpochsExactly(h: seq<real>)
    ensures forall e: nat :: e in SavedEpochs(h) <==> IsBest(h, e)
  {
    if h != [] {
      var n := |h| - 1;
      var init := h[..n];
      SavedEpochsExactly(init);
      forall e: nat
        ensures e in SavedEpochs(h) <==> IsBest(h, e)
      {
        if e < n {
          assert forall j :: 0 <= j <= e ==> init[j] == h[j];
          assert IsBest(h, e) <==> IsBest(init, e);
        } else if e == n {
          assert e !in SavedEpochs(init);
          if IsBest(h, e) {
            var k :| 0 <= k < |h| && h[k] == Min(h);
          }
        }
      }
    }
  }

  /** Saves are reported in increasing epoch order, each epoch at most once. */
  lemma {:induction false} SavedEpochsIncrease(h: seq<real>)
    ensures forall a, b :: 0 <= a < b < |SavedEpochs(h)| ==> SavedEpochs(h)[a] < SavedEpochs(h)[b]
  {
    if h != [] {
      SavedEpochsIncrease(h[..|h| - 1]);
    }
  }

  /** The first epoch always saves, and so does any epoch reaching a new minimum. */
  lemma FirstEpochSaves(h: seq<real>)
    requires |h| > 0
    ensures |SavedEpochs(h)| > 0 && SavedEpochs(h)[0] == 0
  {
    SavedEpochsExactly(h);
    SavedEpochsIncrease(h);
    assert IsBest(h, 0);
  }

  /** The last save holds a loss equal to the minimum of the whole history: the file left on disk is a best epoch. */
  lemma {:induction false} LastSaveIsBest(h: seq<real>)
    requires |h| > 0
    ensures |SavedEpochs(h)| > 0
    ensures h[SavedEpochs(h)[|SavedEpochs(h)| - 1]] == Min(h)
  {
    var n := |h| - 1;
    if h[n] != Min(h) {
      var init := h[..n];
      LastSaveIsBest(init);
      assert Min(h) == Min(init);
      var s := SavedEpochs(init);
      assert SavedEpochs(h) == s;
      assert h[s[|s| - 1]] == init[s[|s| - 1]];
    }
  }

  /** For the losses [5, 3, 4, 2, 2] saves happen after epochs 0, 1, 3 and 4: the tie at epoch 4 re-saves. */
  lemma SavedExample()
    ensures SavedEpochs([5.0, 3.0, 4.0, 2.0, 2.0]) == [0, 1, 3, 4]
  {
    var h := [5.0, 3.0, 4.0, 2.0, 2.0];
    assert h[..1] == [5.0] && [5.0][..0] == [];
    assert SavedEpochs(h[..1]) == [0];
    assert h[..2][..1] == h[..1] && Min(h[..2]) == 3.0;
    assert SavedEpochs(h[..2]) == [0, 1];
    assert h[..3][..2] == h[..2] && Min(h[..3]) == 3.0;
    assert SavedEpochs(h[..3]) == [0, 1];
    assert h[..4][..3] == h[..3] && Min(h[..4]) == 2.0;
    assert SavedEpochs(h[..4]) == [0, 1, 3];
    assert h[..4] == h[..|h| - 1] && Min(h) == 2.0;
  }

  /** One save: the epoch and the file written. */
  datatype SaveEvent = SaveEvent(epoch: nat, file: string)

  /** One save event per epoch listed, all writing `file`. */
  function SaveEvents(epochs: seq<nat>, file: string): (log: seq<SaveEvent>)
    ensures |log| == |epochs|
    ensures forall k :: 0 <= k < |log| ==> log[k] == SaveEvent(epochs[k], file)
  {
    if epochs == [] then [] else SaveEvents(epochs[..|epochs| - 1], file) + [SaveEvent(epochs[|epochs| - 1], file)]
  }

  /** The saves for a history: none without a save name, else one per saved epoch, always to the same file. */
  function SaveLog(h: seq<real>, saveFname: Option<string>): (log: seq<SaveEvent>)
  {
    if saveFname.None? then [] else SaveEvents(SavedEpochs(h), SaveFile(saveFname.value))
  }

  lemma SavedEpochsSnoc(h: seq<real>, x: real)
    ensures SavedEpochs(h + [x]) == SavedEpochs(h) + (if x == Min(h + [x]) then [|h|] else [])
  {
    assert (h + [x])[..|h|] == h;
  }

  lemma SaveLogSnoc(h: seq<real>, x: real, saveFname: Option<string>)
    ensures SaveLog(h + [x], saveFname)
            == SaveLog(h, saveFname)
               + (if saveFname.Some? && x == Min(h + [x]) then [SaveEvent(|h|, SaveFile(saveFname.value))] else [])
  {
    if saveFname.Some? {
      var before := SavedEpochs(h);
      SavedEpochsSnoc(h, x);
      if x == Min(h + [x]) {
        assert (before + [|h|])[..|before|] == before;
      } else {
        assert before + [] == before;
      }
    }
  }

  /** A missing or empty save directory means no save at all, whatever the losses. */
  lemma NoSaveWithoutDirectory(h: seq<real>, saveDname: Option<string>)
    requires saveDname.None? || saveDname.value == ""
    ensures SaveLog(h, Setup(saveDname)) == []
  {
  }

  // ---------------------------------------------------------------------------
  // The driver

  /**
   * A batch source: each draw yields the next batch and, once the model has
   * been run on it, that batch's loss. The loss of the k-th draw is
   * `batchLoss(k)`.
   */
  class BatchGenerator {
    const stepsPerEpoch: nat
    const batchLoss: nat -> real
    var drawn: nat

    constructor (stepsPerEpoch: nat, batchLoss: nat -> real)
      ensures this.stepsPerEpoch == stepsPerEpoch && this.batchLoss == batchLoss && drawn == 0
    {
      this.stepsPerEpoch := stepsPerEpoch;
      this.batchLoss := batchLoss;
      drawn := 0;
    }

    /** `next_batch()` followed by the loss computation on that batch. */
    method NextBatch() returns (loss: real)
      modifies this
      ensures drawn == old(drawn) + 1
      ensures loss == batchLoss(old(drawn))
    {
      loss := batchLoss(drawn);
      drawn := drawn + 1;
    }
  }

  /** `_loop_train` / `_loop_validation`: draws `steps_per_epoch` batches and returns their mean loss. */
  method MeanLoss(gen: BatchGenerator) returns (loss: real)
    requires gen.stepsPerEpoch > 0
    modifies gen
    ensures gen.drawn == old(gen.drawn) + gen.stepsPerEpoch
    ensures loss == Mean(gen.batchLoss, old(gen.drawn), gen.stepsPerEpoch)
  {
    var nSteps := gen.stepsPerEpoch;
    var total := 0.0;
    var k := 0;
    while k < nSteps
      invariant 0 <= k <= nSteps
      invariant gen.drawn == old(gen.drawn) + k
      invariant total == SumLosses(gen.batchLoss, old(gen.drawn), k)
    {
      var batchLoss := gen.NextBatch();
      total := total + batchLoss;
      k := k + 1;
    }
    loss := total / nSteps as real;
  }

  /** Steps 1 and 2 of an epoch: train, then take the validation mean if there is a validator, else the training mean. */
  method EpochLoss(train: BatchGenerator, valid: Option<BatchGenerator>) returns (lossValue: real)
    requires train.stepsPerEpoch > 0
    requires valid.Some? ==> valid.value != train && valid.value.stepsPerEpoch > 0
    modifies {train} + (if valid.Some? then {valid.value} else {})
    ensures train.drawn == old(train.drawn) + train.stepsPerEpoch
    ensures valid.Some? ==> valid.value.drawn == old(valid.value.drawn) + valid.value.stepsPerEpoch
    ensures valid.Some? ==> lossValue == Mean(valid.value.batchLoss, old(valid.value.drawn), valid.value.stepsPerEpoch)
    ensures valid.None? ==> lossValue == Mean(train.batchLoss, old(train.drawn), train.stepsPerEpoch)
  {
    var trainLoss := MeanLoss(train);
    lossValue := trainLoss;
    if valid.Some? {
      lossValue := MeanLoss(valid.value);
    }
  }

  /** Step 3 of an epoch: append the loss to the history and save if it equals the minimum of the history. */
  method RecordLoss(history: seq<real>, saves: seq<SaveEvent>, lossValue: real, saveFname: Option<string>)
    returns (history': seq<real>, saves': seq<SaveEvent>)
    requires saves == SaveLog(history, saveFname)
    ensures history' == history + [lossValue]
    ensures saves' == SaveLog(history', saveFname)
  {
    SaveLogSnoc(history, lossValue, saveFname);
    history' := history + [lossValue];
    saves' := saves;
    if saveFname.Some? && lossValue == Min(history') {
      saves' := saves + [SaveEvent(|history|, SaveFile(saveFname.value))];
    }
  }

  /**
   * `train_fn`: one mean loss per epoch, taken from the validation generator
   * when there is one, and a save whenever that loss equals the minimum of
   * the history so far.
   */
  method TrainFn(train: BatchGenerator, valid: Option<BatchGenerator>, numEpochs: nat, saveDname: Option<string>)
    returns (history: seq<real>, saves: seq<SaveEvent>)
    requires numEpochs > 0 ==> train.stepsPerEpoch > 0
    requires valid.Some? ==> valid.value != train && (numEpochs > 0 ==> valid.value.stepsPerEpoch > 0)
    modifies {train} + (if valid.Some? then {valid.value} else {})
    ensures train.drawn == old(train.drawn) + numEpochs * train.stepsPerEpoch
    ensures valid.Some? ==> valid.value.drawn == old(valid.value.drawn) + numEpochs * valid.value.stepsPerEpoch
    ensures valid.Some? ==>
              history == EpochLosses(valid.value.batchLoss, old(valid.value.drawn), valid.value.stepsPerEpoch, numEpochs)
    ensures valid.None? ==> history == EpochLosses(train.batchLoss, old(train.drawn), train.stepsPerEpoch, numEpochs)
    ensures saves == SaveLog(history, Setup(saveDname))
  {
    var saveFname := Setup(saveDname);
    ghost var monitored := if valid.Some? then valid.value else train;
    ghost var t0 := train.drawn;
    ghost var m0 := monitored.drawn;
    history := [];
    saves := [];
    var i := 0;
    while i < numEpochs
      invariant 0 <= i <= numEpochs
      invariant train.drawn == DrawsAfter(t0, train.stepsPerEpoch, i)
      invariant monitored.drawn == DrawsAfter(m0, monitored.stepsPerEpoch, i)
      invariant history == EpochLosses(monitored.batchLoss, m0, monitored.stepsPerEpoch, i)
      invariant saves == SaveLog(history, saveFname)
    {
      var lossValue := EpochLoss(train, valid);
      history, saves := RecordLoss(history, saves, lossValue, saveFname);
      i := i + 1;
    }
    DrawsAfterIs(t0, train.stepsPerEpoch, numEpochs);
    DrawsAfterIs(m0, monitored.stepsPerEpoch, numEpochs);
  }
}
