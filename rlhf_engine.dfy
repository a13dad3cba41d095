/**
 * `DeepSpeedRLHFEngine`: the four models of RLHF training (actor,
 * reference, reward, critic) are set up in that order from one shared
 * argument object.  The model builders, checkpoint loading and the DeepSpeed
 * engine itself are outside the model; what remains is the configuration
 * each role is given, the warmup length that the actor and then the critic
 * write back into the shared arguments, and the tokenizer flags set at the
 * end.
 */
module RlhfEngine {
  import opened Wrappers
  import opened Schedule

  /** A value of a DeepSpeed configuration entry. */
  datatype ConfigValue = IntEntry(n: int) | StrEntry(s: string)

  /**
   * A DeepSpeed configuration as `get_train_ds_config(offload, stage)` makes
   * it, with the entries this engine sets on top of it.
   */
  datatype DsConfig = DsConfig(offload: bool, stage: int, entries: map<string, ConfigValue>)

  /** AdamW over the grouped parameters, with its learning rate and betas. */
  datatype Optimizer = AdamW(lr: real, beta1: real, beta2: real)

  /** The learning-rate scheduler: warmup length and total number of updates. */
  datatype Scheduler = Scheduler(numWarmupSteps: int, numTrainingSteps: int)

  /**
   * What one role is initialised with: the configuration the model builder
   * sees, the configuration of the DeepSpeed engine, and the optimizer and
   * scheduler if the role trains.
   */
  datatype Role = Role(buildConfig: DsConfig, engineConfig: DsConfig, optimizer: Option<Optimizer>,
                       scheduler: Option<Scheduler>)

  /** The ZeRO stage that partitions the parameters themselves (used for frozen roles). */
  const ParameterPartitionStage := 3

  /** The shared argument object; only the warmup length is written to. */
  class RlhfArgs {
    const perDeviceTrainBatchSize: int
    const gradientAccumulationSteps: int
    const numTrainEpochs: int
    const actorLearningRate: real
    const criticLearningRate: real
    const actorZeroStage: int
    const criticZeroStage: int
    const offloadActorModel: bool
    const offloadCriticModel: bool
    var numWarmupSteps: real

    constructor (perDeviceTrainBatchSize: int, gradientAccumulationSteps: int, numTrainEpochs: int,
                 actorLearningRate: real, criticLearningRate: real, actorZeroStage: int, criticZeroStage: int,
                 offloadActorModel: bool, offloadCriticModel: bool, numWarmupSteps: real)
      ensures this.perDeviceTrainBatchSize == perDeviceTrainBatchSize
      ensures this.gradientAccumulationSteps == gradientAccumulationSteps
      ensures this.numTrainEpochs == numTrainEpochs
      ensures this.actorLearningRate == actorLearningRate && this.criticLearningRate == criticLearningRate
      ensures this.actorZeroStage == actorZeroStage && this.criticZeroStage == criticZeroStage
      ensures this.offloadActorModel == offloadActorModel && this.offloadCriticModel == offloadCriticModel
      ensures this.numWarmupSteps == numWarmupSteps
    {
      this.perDeviceTrainBatchSize := perDeviceTrainBatchSize;
      this.gradientAccumulationSteps := gradientAccumulationSteps;
      this.numTrainEpochs := numTrainEpochs;
      this.actorLearningRate := actorLearningRate;
      this.criticLearningRate := criticLearningRate;
      this.actorZeroStage := actorZeroStage;
      this.criticZeroStage := criticZeroStage;
      this.offloadActorModel := offloadActorModel;
      this.offloadCriticModel := offloadCriticModel;
      this.numWarmupSteps := numWarmupSteps;
    }
  }

  /** The tokenizer flags the engine sets. */
  class Tokenizer {
    var paddingSide: string
    var addBosToken: bool
    var addEosToken: bool

    constructor (paddingSide: string, addBosToken: bool, addEosToken: bool)
      ensures this.paddingSide == paddingSide && this.addBosToken == addBosToken && this.addEosToken == addEosToken
    {
      this.paddingSide := paddingSide;
      this.addBosToken := addBosToken;
      this.addEosToken := addEosToken;
    }
  }

  /**
   * The stage-2 configuration a trained role's model is built with: the
   * per-device micro batch, the global batch of micro batch times world
   * size times accumulation steps, the standard launcher and the
   * accumulation steps.
   */
  function TrainingBuildConfig(offload: bool, perDevice: int, worldSize: int, accumulation: int): (c: DsConfig)
    ensures c.stage == 2 && c.offload == offload
    ensures TrainBatchSize(c) == Some(perDevice * worldSize * accumulation)
  {
    DsConfig(offload, 2, map["train_micro_batch_size_per_gpu" := IntEntry(perDevice),
                             "train_batch_size" := IntEntry(perDevice * worldSize * accumulation),
                             "deepspeed_multinode_launcher" := StrEntry("standard"),
                             "gradient_accumulation_steps" := IntEntry(accumulation)])
  }

  /** The global batch size of a configuration, when it has one. */
  function TrainBatchSize(c: DsConfig): Option<int>
  {
    if "train_batch_size" in c.entries && c.entries["train_batch_size"].IntEntry? then Some(c.entries["train_batch_size"].n)
    else None
  }

  class DeepSpeedRlhfEngine {
    const args: RlhfArgs
    const numberDataset: int
    const worldSize: int
    /** The tokenizers the reward and critic builders hand back (possibly one object). */
    const rewardTokenizerNew: Tokenizer
    const criticTokenizerNew: Tokenizer
    var actor: Role
    var ref: Role
    var reward: Role
    var critic: Role

    /**
     * `_init_actor`: a trained role with the actor's learning rate and
     * ZeRO stage; the warmup length is resolved against the updates per
     * epoch and written back into the shared arguments before the
     * scheduler reads it.
     */
    method InitActor() returns (role: Role)
      requires args.gradientAccumulationSteps != 0
      modifies args`numWarmupSteps
      ensures var steps := StepsPerEpoch(numberDataset, args.gradientAccumulationSteps);
              var warmup := ResolveWarmup(old(args.numWarmupSteps), args.numTrainEpochs, steps);
              args.numWarmupSteps == warmup as real
              && role == Role(TrainingBuildConfig(args.offloadActorModel, args.perDeviceTrainBatchSize, worldSize,
                                                  args.gradientAccumulationSteps),
                              DsConfig(args.offloadActorModel, args.actorZeroStage, map[]),
                              Some(AdamW(args.actorLearningRate, 0.9, 0.95)),
                              Some(Scheduler(warmup, args.numTrainEpochs * steps)))
    {
      var buildConfig := TrainingBuildConfig(args.offloadActorModel, args.perDeviceTrainBatchSize, worldSize,
                                             args.gradientAccumulationSteps);
      var optimizer := AdamW(args.actorLearningRate, 0.9, 0.95);
      var numUpdateStepsPerEpoch := StepsPerEpoch(numberDataset, args.gradientAccumulationSteps);
      var scheduler := ResolveWarmupInPlace(numUpdateStepsPerEpoch);
      var engineConfig := DsConfig(args.offloadActorModel, args.actorZeroStage, map[]);
      role := Role(buildConfig, engineConfig, Some(optimizer), Some(scheduler));
    }

    /**
     * The warmup write-back shared by `_init_actor` and `_init_critic`, and
     * the scheduler built from the value written.
     */
    method ResolveWarmupInPlace(numUpdateStepsPerEpoch: int) returns (scheduler: Scheduler)
      modifies args`numWarmupSteps
      ensures var warmup := ResolveWarmup(old(args.numWarmupSteps), args.numTrainEpochs, numUpdateStepsPerEpoch);
              args.numWarmupSteps == warmup as real
              && scheduler == Scheduler(warmup, args.numTrainEpochs * numUpdateStepsPerEpoch)
    {
      var w := args.numWarmupSteps;
      var warmup: int;
      if w <= 1.0 {
        warmup := Trunc(w * args.numTrainEpochs as real * numUpdateStepsPerEpoch as real);
        assert warmup == ResolveWarmup(w, args.numTrainEpochs, numUpdateStepsPerEpoch);
      } else {
        warmup := Trunc(w);
      }
      args.numWarmupSteps := warmup as real;
      scheduler := Scheduler(warmup, args.numTrainEpochs * numUpdateStepsPerEpoch);
    }

    /** `_init_ref`: a frozen copy of the actor, with no optimizer, in a stage-3 engine. */
    method InitRef() returns (role: Role)
      ensures role.optimizer.None? && role.scheduler.None?
      ensures role.buildConfig == DsConfig(args.offloadActorModel, 2, map[])
      ensures role.engineConfig.stage == ParameterPartitionStage && role.engineConfig.offload == args.offloadActorModel
    {
      var buildConfig := DsConfig(args.offloadActorModel, 2, map[]);
      var engineConfig := DsConfig(args.offloadActorModel, 3, map[]);
      role := Role(buildConfig, engineConfig, None, None);
    }

    /**
     * `_init_reward`: a frozen reward model built with the training batch
     * configuration, with no optimizer, in a stage-3 engine.
     */
    method InitReward() returns (role: Role)
      ensures role.optimizer.None? && role.scheduler.None?
      ensures TrainBatchSize(role.buildConfig)
              == Some(args.perDeviceTrainBatchSize * worldSize * args.gradientAccumulationSteps)
      ensures role.engineConfig.stage == ParameterPartitionStage && role.engineConfig.offload == args.offloadCriticModel
    {
      var buildConfig := TrainingBuildConfig(args.offloadCriticModel, args.perDeviceTrainBatchSize, worldSize,
                                             args.gradientAccumulationSteps);
      var engineConfig := DsConfig(args.offloadCriticModel, 3, map[]);
      role := Role(buildConfig, engineConfig, None, None);
    }

    /**
     * `_init_critic`: a trained role with the critic's learning rate and
     * ZeRO stage, which resolves whatever warmup value the shared
     * arguments hold by now and writes it back.
     */
    method InitCritic() returns (role: Role)
      requires args.gradientAccumulationSteps != 0
      modifies args`numWarmupSteps
      ensures var steps := StepsPerEpoch(numberDataset, args.gradientAccumulationSteps);
              var warmup := ResolveWarmup(old(args.numWarmupSteps), args.numTrainEpochs, steps);
              args.numWarmupSteps == warmup as real
              && role == Role(TrainingBuildConfig(args.offloadCriticModel, args.perDeviceTrainBatchSize, worldSize,
                                                  args.gradientAccumulationSteps),
                              DsConfig(args.offloadCriticModel, args.criticZeroStage, map[]),
                              Some(AdamW(args.criticLearningRate, 0.9, 0.95)),
                              Some(Scheduler(warmup, args.numTrainEpochs * steps)))
    {
      var buildConfig := TrainingBuildConfig(args.offloadCriticModel, args.perDeviceTrainBatchSize, worldSize,
                                             args.gradientAccumulationSteps);
      var optimizer := AdamW(args.criticLearningRate, 0.9, 0.95);
      var numUpdateStepsPerEpoch := StepsPerEpoch(numberDataset, args.gradientAccumulationSteps);
      var scheduler := ResolveWarmupInPlace(numUpdateStepsPerEpoch);
      var engineConfig := DsConfig(args.offloadCriticModel, args.criticZeroStage, map[]);
      role := Role(buildConfig, engineConfig, Some(optimizer), Some(scheduler));
    }

    /**
     * `__init__`: actor, reference, reward, critic, in that order; the
     * reward and the critic tokenizer are then set to pad on the right and
     * to add BOS and EOS.  The critic resolves the value the actor wrote
     * back, so the warmup is resolved twice.
     */
    constructor (args: RlhfArgs, numberDataset: int, worldSize: int, rewardTokenizerNew: Tokenizer,
                 criticTokenizerNew: Tokenizer)
      requires args.gradientAccumulationSteps != 0
      modifies args`numWarmupSteps, rewardTokenizerNew, criticTokenizerNew
      ensures this.args == args && this.numberDataset == numberDataset && this.worldSize == worldSize
      ensures var steps := StepsPerEpoch(numberDataset, args.gradientAccumulationSteps);
              var once := ResolveWarmup(old(args.numWarmupSteps), args.numTrainEpochs, steps);
              var twice := ResolveWarmup(once as real, args.numTrainEpochs, steps);
              args.numWarmupSteps == twice as real
              && actor.scheduler == Some(Scheduler(once, args.numTrainEpochs * steps))
              && critic.scheduler == Some(Scheduler(twice, args.numTrainEpochs * steps))
      ensures actor.optimizer == Some(AdamW(args.actorLearningRate, 0.9, 0.95))
              && critic.optimizer == Some(AdamW(args.criticLearningRate, 0.9, 0.95))
              && ref.optimizer.None? && reward.optimizer.None?
      ensures actor.engineConfig.stage == args.actorZeroStage && critic.engineConfig.stage == args.criticZeroStage
              && ref.engineConfig.stage == ParameterPartitionStage
              && reward.engineConfig.stage == ParameterPartitionStage
      ensures var batch := Some(args.perDeviceTrainBatchSize * worldSize * args.gradientAccumulationSteps);
              TrainBatchSize(actor.buildConfig) == batch && TrainBatchSize(critic.buildConfig) == batch
              && TrainBatchSize(reward.buildConfig) == batch
      ensures rewardTokenizerNew.paddingSide == "right" && rewardTokenizerNew.addBosToken
              && rewardTokenizerNew.addEosToken
      ensures criticTokenizerNew.paddingSide == "right" && criticTokenizerNew.addBosToken
              && criticTokenizerNew.addEosToken
    {
      this.args := args;
      this.numberDataset := numberDataset;
      this.worldSize := worldSize;
      this.rewardTokenizerNew := rewardTokenizerNew;
      this.criticTokenizerNew := criticTokenizerNew;
      new;
      actor := InitActor();
      ref := InitRef();
      reward := InitReward();
      rewardTokenizerNew.paddingSide := "right";
      rewardTokenizerNew.addBosToken := true;
      rewardTokenizerNew.addEosToken := true;
      critic := InitCritic();
      criticTokenizerNew.paddingSide := "right";
      criticTokenizerNew.addBosToken := true;
      criticTokenizerNew.addEosToken := true;
    }
  }

  /**
   * The critic schedules the same warmup as the actor exactly when the
   * actor's resolved count is 0 or at least 2, or the run has a single
   * update; a resolved count of 1 (or a negative one) is rescaled by the
   * number of updates.
   */
  lemma {:induction false} CriticAgreesWithActor(w: real, epochs: int, stepsPerEpoch: int)
    ensures var once := ResolveWarmup(w, epochs, stepsPerEpoch);
            var twice := ResolveWarmup(once as real, epochs, stepsPerEpoch);
            twice == once <==> once == 0 || once >= 2 || epochs * stepsPerEpoch == 1
  {
    var once := ResolveWarmup(w, epochs, stepsPerEpoch);
    var total := epochs * stepsPerEpoch;
    ResolveResolved(once, epochs, stepsPerEpoch);
    assert once * epochs * stepsPerEpoch == once * total;
    if once != 0 {
      ProductFixed(once, total);
    }
  }

  /** A non-zero count is left unchanged by a factor exactly when the factor is 1. */
  lemma ProductFixed(a: int, b: int)
    requires a != 0
    ensures a * b == a <==> b == 1
  {
    assert a * b - a == a * (b - 1);
  }
}
