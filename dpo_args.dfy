/**
 * The argument normalisation of the DPO trainer: the post-processing at the
 * end of `parse_args`, the broadcasting of the per-dataset sample lists and
 * the write-back of the resolved warmup length in `main`.
 */
module DpoArgs {
  import opened Wrappers
  import opened Text
  import opened Schedule

  /** A value of a `nargs='*'` option: the integer default, or a string typed on the command line. */
  datatype CliValue = IntValue(n: int) | StrValue(s: string)

  /** A failed `assert` of the trainer (with its message) or Python's `ValueError` from `int`. */
  datatype ArgError = AssertionFailed(message: string) | InvalidInt(text: string)

  /** The vision tower is a Qwen model: `'qwen'` occurs in its lower-cased path. */
  predicate IsQwen(visionModelNameOrPath: string)
  {
    Contains(Lower(visionModelNameOrPath), "qwen")
  }

  /**
   * The test ignores case: a path in which "qwen" occurs in any mix of
   * upper and lower case names a Qwen tower.
   */
  lemma IsQwenAnyCase(visionModelNameOrPath: string, word: string)
    requires Contains(visionModelNameOrPath, word) && Lower(word) == "qwen"
    ensures IsQwen(visionModelNameOrPath)
  {
    var s := visionModelNameOrPath;
    var i :| 0 <= i <= |s| - |word| && OccursAt(s, word, i);
    assert Lower(s)[i..i + |word|] == Lower(word) by {
      forall t | 0 <= t < |word|
        ensures Lower(s)[i..i + |word|][t] == Lower(word)[t]
      {
        assert s[i + t] == word[t];
      }
    }
    assert OccursAt(Lower(s), "qwen", i);
  }

  /**
   * `[xs[0]] * n` when the list is shorter than the `n` dataset names (a
   * failed assertion, naming the option, unless it has exactly one
   * element); otherwise the list itself.
   */
  function Broadcast<T>(xs: seq<T>, n: nat, option: string): (r: Result<seq<T>, ArgError>)
  {
    if |xs| < n then
      if |xs| == 1 then Ok(seq(n, _ => xs[0]))
      else Err(AssertionFailed("when args." + option
                               + " is not the same length as args.dataset_names, it should be only one number"))
    else Ok(xs)
  }

  /**
   * Broadcasting fails exactly for a list shorter than the names with other
   * than one element; a successful result covers every name, repeats the
   * single value when it was short, is the list itself otherwise, and is
   * left alone by a second broadcast.
   */
  lemma BroadcastCovers<T>(xs: seq<T>, n: nat, option: string)
    ensures var r := Broadcast(xs, n, option);
            (r.Err? <==> |xs| < n && |xs| != 1)
            && (r.Ok? ==> |r.value| >= n && Broadcast(r.value, n, option) == r)
            && (r.Ok? && |xs| < n ==> |r.value| == n && forall i :: 0 <= i < n ==> r.value[i] == xs[0])
            && (|xs| >= n ==> r == Ok(xs))
  {
  }

  /** Python's `int(v)`: an integer stays, a string is parsed. */
  function ToInt(v: CliValue): (r: Result<int, ArgError>)
    ensures v.IntValue? ==> r == Ok(v.n)
  {
    match v
    case IntValue(n) => Ok(n)
    case StrValue(s) =>
      match ParseInt(s)
      case Ok(n) => Ok(n)
      case Err(_) => Err(InvalidInt(s))
  }

  /** `[int(i) for i in xs]`: the first value that does not parse raises. */
  function ToInts(xs: seq<CliValue>): (r: Result<seq<int>, ArgError>)
    ensures r.Ok? <==> forall i :: 0 <= i < |xs| ==> ToInt(xs[i]).Ok?
    ensures r.Ok? ==> |r.value| == |xs| && forall i :: 0 <= i < |xs| ==> r.value[i] == ToInt(xs[i]).value
  {
    if xs == [] then Ok([])
    else
      match ToInts(xs[..|xs| - 1])
      case Err(err) => Err(err)
      case Ok(init) =>
        match ToInt(xs[|xs| - 1])
        case Err(err) => Err(err)
        case Ok(n) => Ok(init + [n])
  }

  /** Converting already-converted counts again changes nothing, and `str(n)` typed on the command line reads as n. */
  lemma {:induction false} ToIntsIdempotent(ns: seq<int>)
    ensures ToInts(seq(|ns|, i requires 0 <= i < |ns| => IntValue(ns[i]))) == Ok(ns)
            && ToInts(seq(|ns|, i requires 0 <= i < |ns| => StrValue(NatToString(if ns[i] < 0 then 0 else ns[i]))))
               .Ok?
  {
    var ints := seq(|ns|, i requires 0 <= i < |ns| => IntValue(ns[i]));
    var strs := seq(|ns|, i requires 0 <= i < |ns| => StrValue(NatToString(if ns[i] < 0 then 0 else ns[i])));
    forall i | 0 <= i < |ns|
      ensures ToInt(strs[i]).Ok?
    {
      ParseNatToString(if ns[i] < 0 then 0 else ns[i]);
    }
    assert ToInts(ints).value == ns;
  }

  class Args {
    const learningRate: real
    var learningRatePretrainingComponents: real
    var numWarmupSteps: real
    const visionModelNameOrPath: string
    const visProj: string
    const datasetNames: seq<string>
    var datasetSamples: seq<CliValue>
    var datasetConcatenateSamples: seq<CliValue>

    constructor (learningRate: real, learningRatePretrainingComponents: real, numWarmupSteps: real,
                 visionModelNameOrPath: string, visProj: string, datasetNames: seq<string>,
                 datasetSamples: seq<CliValue>, datasetConcatenateSamples: seq<CliValue>)
      ensures this.learningRate == learningRate
      ensures this.learningRatePretrainingComponents == learningRatePretrainingComponents
      ensures this.numWarmupSteps == numWarmupSteps
      ensures this.visionModelNameOrPath == visionModelNameOrPath && this.visProj == visProj
      ensures this.datasetNames == datasetNames && this.datasetSamples == datasetSamples
      ensures this.datasetConcatenateSamples == datasetConcatenateSamples
    {
      this.learningRate := learningRate;
      this.learningRatePretrainingComponents := learningRatePretrainingComponents;
      this.numWarmupSteps := numWarmupSteps;
      this.visionModelNameOrPath := visionModelNameOrPath;
      this.visProj := visProj;
      this.datasetNames := datasetNames;
      this.datasetSamples := datasetSamples;
      this.datasetConcatenateSamples := datasetConcatenateSamples;
    }

    /**
     * The end of `parse_args`: a pre-trained-components learning rate of 0
     * falls back to the main learning rate (before either check runs); a
     * negative warmup fails, and so does a Qwen vision tower with any
     * projection other than `baseline`.
     */
    method PostProcess() returns (err: Option<ArgError>)
      modifies this`learningRatePretrainingComponents
      ensures learningRatePretrainingComponents
              == if old(learningRatePretrainingComponents) == 0.0 then learningRate
                 else old(learningRatePretrainingComponents)
      ensures err.None? <==> numWarmupSteps >= 0.0 && (IsQwen(visionModelNameOrPath) ==> visProj == "baseline")
      ensures numWarmupSteps < 0.0 ==> err == Some(AssertionFailed("--num_warmup_steps must be >= 0"))
    {
      if learningRatePretrainingComponents == 0.0 {
        learningRatePretrainingComponents := learningRate;
      }
      if !(numWarmupSteps >= 0.0) {
        return Some(AssertionFailed("--num_warmup_steps must be >= 0"));
      }
      if IsQwen(visionModelNameOrPath) {
        if visProj != "baseline" {
          return Some(AssertionFailed("qwen's model only support baseline vis_proj as it has the perceiver module inside"));
        }
      }
      return None;
    }

    /**
     * The data preparation in `main`: both per-dataset lists are broadcast
     * to the number of dataset names, then the concatenation counts become
     * integers.  A failure leaves the lists as far as they had got.
     */
    method BroadcastDatasetLists() returns (err: Option<ArgError>)
      modifies this`datasetSamples, this`datasetConcatenateSamples
      ensures var samples := Broadcast(old(datasetSamples), |datasetNames|, "dataset_samples");
              var concat := Broadcast(old(datasetConcatenateSamples), |datasetNames|, "dataset_concatenate_samples");
              if samples.Err? then err == Some(samples.error) && unchanged(this)
              else if concat.Err? then err == Some(concat.error) && datasetSamples == samples.value
                                       && datasetConcatenateSamples == old(datasetConcatenateSamples)
              else if ToInts(concat.value).Err? then err == Some(ToInts(concat.value).error)
                                                 && datasetSamples == samples.value
                                                 && datasetConcatenateSamples == concat.value
              else err == None && datasetSamples == samples.value
                   && datasetConcatenateSamples == seq(|concat.value|, i requires 0 <= i < |concat.value| =>
                                                         IntValue(ToInts(concat.value).value[i]))
    {
      var samples := Broadcast(datasetSamples, |datasetNames|, "dataset_samples");
      if samples.Err? {
        return Some(samples.error);
      }
      datasetSamples := samples.value;
      var concat := Broadcast(datasetConcatenateSamples, |datasetNames|, "dataset_concatenate_samples");
      if concat.Err? {
        return Some(concat.error);
      }
      datasetConcatenateSamples := concat.value;
      var ints := ToInts(datasetConcatenateSamples);
      if ints.Err? {
        return Some(ints.error);
      }
      datasetConcatenateSamples := seq(|ints.value|, i requires 0 <= i < |ints.value| => IntValue(ints.value[i]));
      return None;
    }

    /**
     * The warmup write-back of `main`: `num_warmup_steps` becomes the
     * resolved step count; the scheduler's total is epochs times the
     * updates per epoch.
     */
    method ResolveWarmupSteps(numBatches: int, numTrainEpochs: int, gradientAccumulationSteps: int)
      returns (numTrainingSteps: int)
      requires gradientAccumulationSteps != 0
      modifies this`numWarmupSteps
      ensures var stepsPerEpoch := StepsPerEpoch(numBatches, gradientAccumulationSteps);
              numWarmupSteps == ResolveWarmup(old(numWarmupSteps), numTrainEpochs, stepsPerEpoch) as real
              && numTrainingSteps == numTrainEpochs * stepsPerEpoch
    {
      var numUpdateStepsPerEpoch := StepsPerEpoch(numBatches, gradientAccumulationSteps);
      var w := numWarmupSteps;
      if w <= 1.0 {
        var steps := Trunc(w * numTrainEpochs as real * numUpdateStepsPerEpoch as real);
        assert steps == ResolveWarmup(w, numTrainEpochs, numUpdateStepsPerEpoch);
        numWarmupSteps := steps as real;
      } else {
        numWarmupSteps := Trunc(w) as real;
      }
      numTrainingSteps := numTrainEpochs * numUpdateStepsPerEpoch;
    }
  }
}
