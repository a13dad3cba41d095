/**
 * One DPO training step of `dpo_training_main.py`, without the model: the
 * filter that drops candidates flagged with the -1 sentinel, the inputs
 * handed to the HF-style models, the masked per-sequence log-probability of
 * `gather_log_probs`, and the pairing of chosen and rejected rows into the
 * averaged DPO loss.  Log-probabilities of a token under a logits vector and
 * `logsigmoid` are taken as given functions over reals.
 */
module DpoStep {
  import opened Wrappers

  /** A failed shape assertion, a failed elementwise product, a list index out of range, or the final division by zero pairs. */
  datatype StepError = ShapeMismatch | BroadcastFailure | IndexError | ZeroDivision

  /** A processed image as the collator stacks it. */
  type ImageTensor = seq<real>

  /** The vocabulary scores the model produces at one position. */
  type Logits = seq<real>

  /** The fields of a training batch the step reads, one row per candidate. */
  datatype Batch = Batch(image: seq<ImageTensor>, inputIds: seq<seq<int>>, attentionMask: seq<seq<int>>,
                         labels: seq<seq<int>>)

  /** The first-token value that flags a truncated or invalid candidate. */
  const Missing := -1

  /** The rows among the first k whose first id is not the sentinel, in order. */
  function KeptPrefix(rows: seq<seq<int>>, k: nat): seq<nat>
    requires k <= |rows|
    requires forall i :: 0 <= i < k ==> rows[i] != []
  {
    if k == 0 then []
    else KeptPrefix(rows, k - 1) + (if rows[k - 1][0] != Missing then [k - 1] else [])
  }

  /** The kept indices are strictly increasing and are exactly the rows below k whose first id is not the sentinel. */
  lemma {:induction false} KeptPrefixSpec(rows: seq<seq<int>>, k: nat)
    requires k <= |rows|
    requires forall i :: 0 <= i < k ==> rows[i] != []
    ensures var idx := KeptPrefix(rows, k);
            (forall a, b :: 0 <= a < b < |idx| ==> idx[a] < idx[b])
            && (forall i :: 0 <= i < |idx| ==> idx[i] < k)
            && (forall i :: 0 <= i < k ==> (i in idx <==> rows[i][0] != Missing))
  {
    if k > 0 {
      KeptPrefixSpec(rows, k - 1);
    }
  }

  /** Python's `[xs[i] for i in idx]`: an index past the end raises. */
  function Select<T>(xs: seq<T>, idx: seq<nat>): (r: Result<seq<T>, StepError>)
    ensures r.Ok? <==> forall k :: 0 <= k < |idx| ==> idx[k] < |xs|
  {
    if forall k :: 0 <= k < |idx| ==> idx[k] < |xs| then Ok(seq(|idx|, k requires 0 <= k < |idx| => xs[idx[k]]))
    else Err(IndexError)
  }

  /**
   * Filtering twice keeps everything the first filter kept: every selected
   * row starts with a real token.
   */
  lemma FilterIdempotent(rows: seq<seq<int>>)
    requires forall i :: 0 <= i < |rows| ==> rows[i] != []
    ensures var sel := Select(rows, KeptPrefix(rows, |rows|));
            sel.Ok?
            && (forall k :: 0 <= k < |sel.value| ==> sel.value[k] != [] && sel.value[k][0] != Missing)
            && KeptPrefix(sel.value, |sel.value|) == seq(|sel.value|, k requires 0 <= k < |sel.value| => k)
  {
    var idx := KeptPrefix(rows, |rows|);
    KeptPrefixSpec(rows, |rows|);
    var kept := Select(rows, idx).value;
    KeepAll(kept, |kept|);
  }

  /** When no row carries the sentinel, the filter keeps every row. */
  lemma {:induction false} KeepAll(rows: seq<seq<int>>, k: nat)
    requires k <= |rows|
    requires forall i :: 0 <= i < |rows| ==> rows[i] != [] && rows[i][0] != Missing
    ensures KeptPrefix(rows, k) == seq(k, i requires 0 <= i < k => i)
  {
    if k > 0 {
      KeepAll(rows, k - 1);
    }
  }

  /** `chosen_idx`: the comprehension over the rows, which raises on an empty row. */
  method ChosenIdx(inputIds: seq<seq<int>>) returns (r: Result<seq<nat>, StepError>)
    ensures r.Err? <==> exists i :: 0 <= i < |inputIds| && inputIds[i] == []
    ensures r.Err? ==> r.error == IndexError
    ensures r.Ok? ==> r.value == KeptPrefix(inputIds, |inputIds|)
  {
    var chosen: seq<nat> := [];
    for i := 0 to |inputIds|
      invariant forall k :: 0 <= k < i ==> inputIds[k] != []
      invariant chosen == KeptPrefix(inputIds, i)
    {
      if inputIds[i] == [] {
        return Err(IndexError);
      }
      if inputIds[i][0] != Missing {
        chosen := chosen + [i];
      }
    }
    return Ok(chosen);
  }

  /**
   * The candidate filter of the training loop: the same kept indices select
   * the images, ids, masks and labels, so the four lists stay row-aligned.
   */
  method FilterCandidates(batch: Batch) returns (r: Result<Batch, StepError>)
    ensures (forall i :: 0 <= i < |batch.inputIds| ==> batch.inputIds[i] != []) ==>
              var idx := KeptPrefix(batch.inputIds, |batch.inputIds|);
              var image := Select(batch.image, idx);
              var ids := Select(batch.inputIds, idx);
              var mask := Select(batch.attentionMask, idx);
              var labels := Select(batch.labels, idx);
              if image.Ok? && ids.Ok? && mask.Ok? && labels.Ok?
              then r == Ok(Batch(image.value, ids.value, mask.value, labels.value))
              else r == Err(IndexError)
    ensures (exists i :: 0 <= i < |batch.inputIds| && batch.inputIds[i] == []) ==> r == Err(IndexError)
  {
    var chosenIdx := ChosenIdx(batch.inputIds);
    if chosenIdx.Err? {
      return Err(chosenIdx.error);
    }
    var image := Select(batch.image, chosenIdx.value);
    if image.Err? {
      return Err(image.error);
    }
    var inputIds := Select(batch.inputIds, chosenIdx.value);
    if inputIds.Err? {
      return Err(inputIds.error);
    }
    var attentionMask := Select(batch.attentionMask, chosenIdx.value);
    if attentionMask.Err? {
      return Err(attentionMask.error);
    }
    var labels := Select(batch.labels, chosenIdx.value);
    if labels.Err? {
      return Err(labels.error);
    }
    return Ok(Batch(image.value, inputIds.value, attentionMask.value, labels.value));
  }

  /**
   * `labels_tmp` and `attention_mask_tmp`: a copy of the ids, and a copy of
   * the mask in which every 0 has been overwritten with 1 in place.
   */
  method TrainingInputs(inputIds: array2<int>, attentionMask: array2<int>)
    returns (labelsTmp: array2<int>, attentionMaskTmp: array2<int>)
    ensures fresh(labelsTmp) && fresh(attentionMaskTmp)
    ensures labelsTmp.Length0 == inputIds.Length0 && labelsTmp.Length1 == inputIds.Length1
    ensures attentionMaskTmp.Length0 == attentionMask.Length0 && attentionMaskTmp.Length1 == attentionMask.Length1
    ensures forall i, j :: 0 <= i < inputIds.Length0 && 0 <= j < inputIds.Length1 ==> labelsTmp[i, j] == inputIds[i, j]
    ensures forall i, j :: 0 <= i < attentionMask.Length0 && 0 <= j < attentionMask.Length1 ==>
              attentionMaskTmp[i, j] == if attentionMask[i, j] == 0 then 1 else attentionMask[i, j]
    ensures (forall i, j :: 0 <= i < attentionMask.Length0 && 0 <= j < attentionMask.Length1 ==>
               0 <= attentionMask[i, j] <= 1)
            ==> forall i, j :: 0 <= i < attentionMask.Length0 && 0 <= j < attentionMask.Length1 ==>
                  attentionMaskTmp[i, j] == 1
  {
    labelsTmp := new int[inputIds.Length0, inputIds.Length1]((i, j) reads inputIds
                   requires 0 <= i < inputIds.Length0 && 0 <= j < inputIds.Length1 => inputIds[i, j]);
    attentionMaskTmp := new int[attentionMask.Length0, attentionMask.Length1]((i, j) reads attentionMask
                   requires 0 <= i < attentionMask.Length0 && 0 <= j < attentionMask.Length1 => attentionMask[i, j]);
    forall i, j | 0 <= i < attentionMaskTmp.Length0 && 0 <= j < attentionMaskTmp.Length1 && attentionMaskTmp[i, j] == 0 {
      attentionMaskTmp[i, j] := 1;
    }
  }

  /** The sum of the values whose flag is set. */
  function MaskedSum(values: seq<real>, keep: seq<bool>): real
    requires |values| == |keep|
  {
    if values == [] then 0.0
    else MaskedSum(values[..|values| - 1], keep[..|keep| - 1])
         + (if keep[|keep| - 1] then values[|values| - 1] else 0.0)
  }

  /** Values at masked-out positions never matter. */
  lemma {:induction false} MaskedSumIgnoresMasked(values: seq<real>, other: seq<real>, keep: seq<bool>)
    requires |values| == |keep| == |other|
    requires forall t :: 0 <= t < |keep| && keep[t] ==> values[t] == other[t]
    ensures MaskedSum(values, keep) == MaskedSum(other, keep)
  {
    if values != [] {
      MaskedSumIgnoresMasked(values[..|values| - 1], other[..|other| - 1], keep[..|keep| - 1]);
    }
  }

  /** With every position masked out the sum is 0. */
  lemma {:induction false} MaskedSumAllMasked(values: seq<real>, keep: seq<bool>)
    requires |values| == |keep|
    requires forall t :: 0 <= t < |keep| ==> !keep[t]
    ensures MaskedSum(values, keep) == 0.0
  {
    if values != [] {
      MaskedSumAllMasked(values[..|values| - 1], keep[..|keep| - 1]);
    }
  }

  /** The row's log-probability terms: the given token scored under the scores at its position. */
  function TokenLogProbs(logits: seq<Logits>, labels: seq<int>, logProb: (Logits, int) -> real): (r: seq<real>)
    requires |logits| == |labels|
    ensures |r| == |labels|
  {
    seq(|labels|, t requires 0 <= t < |labels| => logProb(logits[t], labels[t]))
  }

  /** Which positions count: the mask row without its first column, compared with the label PAD. */
  function KeepFlags(maskRow: seq<int>, labelPad: int): (r: seq<bool>)
    ensures |r| == if maskRow == [] then 0 else |maskRow| - 1
  {
    if maskRow == [] then [] else seq(|maskRow| - 1, t requires 0 <= t < |maskRow| - 1 => maskRow[t + 1] != labelPad)
  }

  /** The assertion of `gather_log_probs`: scores and tokens agree in batch size and in every row's length. */
  predicate SameShape(logits: seq<seq<Logits>>, labels: seq<seq<int>>)
  {
    |logits| == |labels| && forall b :: 0 <= b < |labels| ==> |logits[b]| == |labels[b]|
  }

  /**
   * The mask without its first column multiplies the token log-probabilities
   * element by element: each mask row is one longer than its token row, or
   * both are empty.
   */
  predicate MaskFits(labelMask: seq<seq<int>>, labels: seq<seq<int>>)
  {
    |labelMask| == |labels|
    && forall b :: 0 <= b < |labels| ==> |labelMask[b]| == |labels[b]| + 1 || (labelMask[b] == [] && labels[b] == [])
  }

  /**
   * `gather_log_probs`: the scores and the tokens must have the same batch
   * and sequence shape, and the mask without its first column must have
   * the tokens' shape for the product; each row's result is the sum of the
   * token log-probabilities at the positions kept by the mask.
   */
  function GatherLogProbs(logits: seq<seq<Logits>>, labels: seq<seq<int>>, labelMask: seq<seq<int>>, labelPad: int,
                          logProb: (Logits, int) -> real): (r: Result<seq<real>, StepError>)
    ensures r == Err(ShapeMismatch) <==> !SameShape(logits, labels)
    ensures r == Err(BroadcastFailure) <==> SameShape(logits, labels) && !MaskFits(labelMask, labels)
    ensures r.Err? ==> r == Err(ShapeMismatch) || r == Err(BroadcastFailure)
    ensures r.Ok? ==> |r.value| == |labels|
  {
    if |logits| != |labels| || exists b :: 0 <= b < |labels| && |logits[b]| != |labels[b]| then Err(ShapeMismatch)
    else if |labelMask| != |labels| || exists b :: 0 <= b < |labels| && |KeepFlags(labelMask[b], labelPad)| != |labels[b]|
    then Err(BroadcastFailure)
    else Ok(seq(|labels|, b requires 0 <= b < |labels| =>
              MaskedSum(TokenLogProbs(logits[b], labels[b], logProb), KeepFlags(labelMask[b], labelPad))))
  }

  /**
   * The call sites: the scores without the last position, the ids without
   * the first, and the full labels as the mask.
   */
  function SequenceLogProbs(logits: seq<seq<Logits>>, inputIds: seq<seq<int>>, labels: seq<seq<int>>, labelPad: int,
                            logProb: (Logits, int) -> real): Result<seq<real>, StepError>
  {
    GatherLogProbs(seq(|logits|, b requires 0 <= b < |logits| => DropLastRow(logits[b])),
                   seq(|inputIds|, b requires 0 <= b < |inputIds| => DropFirstRow(inputIds[b])),
                   labels, labelPad, logProb)
  }

  /** Python's `row[:-1]` and `row[1:]`. */
  function DropLastRow<T>(row: seq<T>): (r: seq<T>)
    ensures |r| == if row == [] then 0 else |row| - 1
  {
    if row == [] then [] else row[..|row| - 1]
  }

  function DropFirstRow<T>(row: seq<T>): (r: seq<T>)
    ensures |r| == if row == [] then 0 else |row| - 1
  {
    if row == [] then [] else row[1..]
  }

  /**
   * Next-token alignment: for scores, ids and labels of one shape, the
   * call sites never fail, and row b's result sums, over every position t
   * whose successor's label is not PAD, the log-probability that the scores
   * at t give to the token at t + 1.
   */
  lemma SequenceLogProbsNextToken(logits: seq<seq<Logits>>, inputIds: seq<seq<int>>, labels: seq<seq<int>>,
                                  labelPad: int, logProb: (Logits, int) -> real, b: nat)
    requires |logits| == |inputIds| == |labels|
    requires forall k :: 0 <= k < |labels| ==> |logits[k]| == |inputIds[k]| == |labels[k]|
    requires b < |labels| && labels[b] != []
    ensures var r := SequenceLogProbs(logits, inputIds, labels, labelPad, logProb);
            var n := |labels[b]| - 1;
            r.Ok? && |r.value| == |labels|
            && r.value[b] == MaskedSum(seq(n, t requires 0 <= t < n => logProb(logits[b][t], inputIds[b][t + 1])),
                                       seq(n, t requires 0 <= t < n => labels[b][t + 1] != labelPad))
  {
    var n := |labels[b]| - 1;
    var scores := seq(|logits|, k requires 0 <= k < |logits| => DropLastRow(logits[k]));
    var tokens := seq(|inputIds|, k requires 0 <= k < |inputIds| => DropFirstRow(inputIds[k]));
    assert TokenLogProbs(scores[b], tokens[b], logProb)
           == seq(n, t requires 0 <= t < n => logProb(logits[b][t], inputIds[b][t + 1]));
    assert KeepFlags(labels[b], labelPad) == seq(n, t requires 0 <= t < n => labels[b][t + 1] != labelPad);
  }

  /** The DPO logit: β times the policy's margin of chosen over rejected, less the reference's margin. */
  function DpoLogit(beta: real, chosen: real, refChosen: real, rejected: real, refRejected: real): real
  {
    beta * ((chosen - refChosen) - (rejected - refRejected))
  }

  /**
   * The logit is linear in the margins: it is β times the policy margin
   * minus β times the reference margin, swapping chosen and rejected
   * negates it, and a policy equal to the reference gives 0.
   */
  lemma DpoLogitMargins(beta: real, chosen: real, refChosen: real, rejected: real, refRejected: real)
    ensures DpoLogit(beta, chosen, refChosen, rejected, refRejected)
            == beta * (chosen - rejected) - beta * (refChosen - refRejected)
    ensures DpoLogit(beta, rejected, refRejected, chosen, refChosen)
            == -DpoLogit(beta, chosen, refChosen, rejected, refRejected)
    ensures DpoLogit(beta, chosen, chosen, rejected, rejected) == 0.0
  {
  }

  /** The loss of one pair with label smoothing ε: −logσ(z)(1−ε) − logσ(−z)ε. */
  function PairLoss(z: real, smoothing: real, logSigmoid: real -> real): real
  {
    -logSigmoid(z) * (1.0 - smoothing) - logSigmoid(-z) * smoothing
  }

  /** ε = 0 is the plain DPO loss, and smoothing ε on z is smoothing 1 − ε on −z. */
  lemma PairLossSmoothing(z: real, smoothing: real, logSigmoid: real -> real)
    ensures PairLoss(z, 0.0, logSigmoid) == -logSigmoid(z)
    ensures PairLoss(z, smoothing, logSigmoid) == PairLoss(-z, 1.0 - smoothing, logSigmoid)
  {
    assert - -z == z;
  }

  /** Scaling by a non-negative factor keeps the order of two reals. */
  lemma ScaleMonotone(beta: real, x: real, y: real)
    requires beta >= 0.0 && x <= y
    ensures beta * x <= beta * y
  {
    assert beta * y - beta * x == beta * (y - x);
  }

  /**
   * With a non-decreasing `logsigmoid`, the unsmoothed pair loss never
   * grows as the logit grows, and for β ≥ 0 the logit never falls when the
   * policy's chosen log-probability rises or its rejected one falls: the
   * loss rewards preferring the chosen answer.
   */
  lemma PairLossMonotone(beta: real, chosen: real, chosen': real, refChosen: real,
                         rejected: real, rejected': real, refRejected: real, logSigmoid: real -> real)
    requires forall x, y :: x <= y ==> logSigmoid(x) <= logSigmoid(y)
    requires beta >= 0.0 && chosen <= chosen' && rejected' <= rejected
    ensures DpoLogit(beta, chosen, refChosen, rejected, refRejected)
            <= DpoLogit(beta, chosen', refChosen, rejected', refRejected)
    ensures PairLoss(DpoLogit(beta, chosen', refChosen, rejected', refRejected), 0.0, logSigmoid)
            <= PairLoss(DpoLogit(beta, chosen, refChosen, rejected, refRejected), 0.0, logSigmoid)
  {
    ScaleMonotone(beta, (chosen - refChosen) - (rejected - refRejected), (chosen' - refChosen) - (rejected' - refRejected));
    var z := DpoLogit(beta, chosen, refChosen, rejected, refRejected);
    var z' := DpoLogit(beta, chosen', refChosen, rejected', refRejected);
    assert logSigmoid(z) <= logSigmoid(z');
  }

  /** The summed loss of the first k pairs: pair i is row 2i (chosen) against row 2i + 1 (rejected). */
  function LossSum(logprobs: seq<real>, refLogprobs: seq<real>, k: nat, beta: real, smoothing: real,
                   logSigmoid: real -> real): real
    requires 2 * k <= |logprobs| && 2 * k <= |refLogprobs|
  {
    if k == 0 then 0.0
    else LossSum(logprobs, refLogprobs, k - 1, beta, smoothing, logSigmoid)
         + PairLoss(DpoLogit(beta, logprobs[2 * k - 2], refLogprobs[2 * k - 2],
                             logprobs[2 * k - 1], refLogprobs[2 * k - 1]), smoothing, logSigmoid)
  }

  lemma LossSumNext(logprobs: seq<real>, refLogprobs: seq<real>, k: nat, beta: real, smoothing: real,
                    logSigmoid: real -> real)
    requires 2 * k + 2 <= |logprobs| && 2 * k + 2 <= |refLogprobs|
    ensures LossSum(logprobs, refLogprobs, k + 1, beta, smoothing, logSigmoid)
            == LossSum(logprobs, refLogprobs, k, beta, smoothing, logSigmoid)
               + PairLoss(DpoLogit(beta, logprobs[2 * k], refLogprobs[2 * k], logprobs[2 * k + 1], refLogprobs[2 * k + 1]),
                          smoothing, logSigmoid)
  {
    assert 2 * (k + 1) - 2 == 2 * k && 2 * (k + 1) - 1 == 2 * k + 1;
  }

  /** The batch loss: the pair sum over `len(logprobs) // 2` pairs, divided by that count. */
  function MeanLoss(logprobs: seq<real>, refLogprobs: seq<real>, beta: real, smoothing: real,
                    logSigmoid: real -> real): (r: Result<real, StepError>)
    requires |refLogprobs| == |logprobs|
    ensures r.Err? <==> |logprobs| < 2
  {
    var sampleNum := |logprobs| / 2;
    if sampleNum == 0 then Err(ZeroDivision)
    else Ok(LossSum(logprobs, refLogprobs, sampleNum, beta, smoothing, logSigmoid) / sampleNum as real)
  }

  /** Rows past the first 2k never enter the first k pairs. */
  lemma {:induction false} LossSumPrefix(logprobs: seq<real>, refLogprobs: seq<real>, more: seq<real>,
                                         refMore: seq<real>, k: nat, beta: real, smoothing: real,
                                         logSigmoid: real -> real)
    requires 2 * k <= |logprobs| && 2 * k <= |refLogprobs|
    ensures LossSum(logprobs + more, refLogprobs + refMore, k, beta, smoothing, logSigmoid)
            == LossSum(logprobs, refLogprobs, k, beta, smoothing, logSigmoid)
  {
    if k > 0 {
      LossSumPrefix(logprobs, refLogprobs, more, refMore, k - 1, beta, smoothing, logSigmoid);
    }
  }

  /** An odd trailing row has no partner and leaves the loss unchanged. */
  lemma OddTrailingIgnored(logprobs: seq<real>, refLogprobs: seq<real>, x: real, refX: real, beta: real,
                           smoothing: real, logSigmoid: real -> real)
    requires |refLogprobs| == |logprobs| && |logprobs| % 2 == 0
    ensures MeanLoss(logprobs + [x], refLogprobs + [refX], beta, smoothing, logSigmoid)
            == MeanLoss(logprobs, refLogprobs, beta, smoothing, logSigmoid)
  {
    LossSumPrefix(logprobs, refLogprobs, [x], [refX], |logprobs| / 2, beta, smoothing, logSigmoid);
  }

  /** The pairing loop of the training step, then the division by the number of pairs. */
  method DpoLoss(logprobs: seq<real>, refLogprobs: seq<real>, beta: real, labelSmoothing: real,
                 logSigmoid: real -> real) returns (r: Result<real, StepError>)
    requires |refLogprobs| == |logprobs|
    ensures r == MeanLoss(logprobs, refLogprobs, beta, labelSmoothing, logSigmoid)
  {
    var sampleNum := |logprobs| / 2;
    var loss := 0.0;
    for batchIndex := 0 to sampleNum
      invariant loss == LossSum(logprobs, refLogprobs, batchIndex, beta, labelSmoothing, logSigmoid)
    {
      var chosenLogps := logprobs[batchIndex * 2];
      var rejectedLogps := logprobs[batchIndex * 2 + 1];
      var refChosenLogps := refLogprobs[batchIndex * 2];
      var refRejectedLogps := refLogprobs[batchIndex * 2 + 1];
      var logits := DpoLogit(beta, chosenLogps, refChosenLogps, rejectedLogps, refRejectedLogps);
      LossSumNext(logprobs, refLogprobs, batchIndex, beta, labelSmoothing, logSigmoid);
      loss := loss + PairLoss(logits, labelSmoothing, logSigmoid);
    }
    if sampleNum == 0 {
      return Err(ZeroDivision);
    }
    return Ok(loss / sampleNum as real);
  }
}
