/**
 * Model of the promotion script in deployment_runner.py (its `__main__`
 * block) and of the two runner methods it calls.
 *
 * The script fetches the current champion's config from the bucket, compares
 * its metric with the best config of the latest tuning run and, on a strict
 * improvement, uploads the winning trial's model, deploys it to the endpoint
 * and copies the best config over the current one. Every call into the cloud
 * SDK or the gcloud CLI is an abstract effect whose outcome is a parameter
 * (Env); the effects are recorded, in order, in a trace.
 */
module Deployment {
  import opened Results
  import opened Floats

  /** A config JSON file: the two keys the script reads; a key the file lacks is None. */
  datatype ConfigFile = ConfigFile(trialId: Option<string>, metricValue: Option<Float>)

  const DISPLAY_NAME := "prediction"

  /** `f"{BUCKET}/aiplatform-custom-job/{trial_id}/model"` */
  function ArtifactUri(bucket: string, trialId: string): (uri: string)
    ensures |uri| == |bucket| + |trialId| + 29
    ensures uri[..|bucket|] == bucket
    ensures uri[|uri| - 6..] == "/model"
  {
    bucket + "/aiplatform-custom-job/" + trialId + "/model"
  }

  /** Different trials of one bucket get different artifact URIs. */
  lemma ArtifactUriInjective(bucket: string, id1: string, id2: string)
    requires ArtifactUri(bucket, id1) == ArtifactUri(bucket, id2)
    ensures id1 == id2
  {
    var u := ArtifactUri(bucket, id1);
    var start := |bucket| + 23;
    assert u[start..start + |id1|] == id1;
    assert ArtifactUri(bucket, id2)[start..start + |id2|] == id2;
  }

  /** What `aiplatform.Model.upload` does: return a model with a resource name, or raise. */
  datatype UploadOutcome = Uploaded(modelName: string) | UploadRaised

  /**
   * What `check_call(['gcloud', 'ai', 'endpoints', 'deploy-model', ...])`
   * does: exit 0, exit non-zero (CalledProcessError, which
   * deploy_model_to_endpoint catches and logs) or raise anything else (such
   * as a missing gcloud binary), which propagates.
   */
  datatype DeployOutcome = DeployExitOk | DeployExitNonZero | DeployRaised

  /** The outcomes of the foreign calls of one run of the script. */
  datatype Env = Env(
    initOk: bool,                  // aiplatform.init in Deployment_runner()
    fetchOk: bool,                 // gcloud storage cp of the current config, when it exists
    bestFile: Option<ConfigFile>,  // the local best config, None when it cannot be read
    upload: UploadOutcome,
    deploy: DeployOutcome,
    copyOk: bool)                  // gcloud storage cp of the best config over the current one

  datatype Effect =
    | InitPlatform
    | FetchCurrentConfig
    | UploadModel(displayName: string, image: string, artifactUri: string)
    | DeployModel(modelName: string)
    | LogDeployError
    | CopyBestConfig

  /** Where an exception leaves the script. */
  datatype Stage = Init | Fetch | ReadBest | Compare | ReadTrialId | Upload | Deploy | Copy

  datatype Outcome = Finished(promoted: bool) | Raised(stage: Stage)

  /** One run: the effects in the order they were attempted, how it ended, the bucket's current config afterwards. */
  datatype Run = Run(trace: seq<Effect>, outcome: Outcome, current: Option<ConfigFile>)

  /** Line 70: `best_config["metric_value"] < current_config["metric_value"]`, or the KeyError. */
  function ShouldPromote(best: ConfigFile, current: ConfigFile): (r: Result<bool, Stage>)
    ensures r.Err? <==> best.metricValue.None? || current.metricValue.None?
    ensures r.Err? ==> r.error == Compare
    ensures r == Ok(true) ==>
      && best.metricValue != current.metricValue
      && !best.metricValue.value.NaN? && !current.metricValue.value.NaN?
  {
    if best.metricValue.None? || current.metricValue.None? then Err(Compare)
    else
      var b, c := best.metricValue.value, current.metricValue.value;
      LessIsStrictOrder(b, c, c);
      NaNIsUnordered(b);
      NaNIsUnordered(c);
      Ok(Less(b, c))
  }

  /** deploy_model_to_endpoint: the deploy call, and the error log when it exits non-zero. */
  function DeployEffects(modelName: string, outcome: DeployOutcome): (effects: seq<Effect>)
    ensures |effects| >= 1 && effects[0] == DeployModel(modelName)
    ensures LogDeployError in effects <==> outcome == DeployExitNonZero
    ensures forall e | e in effects :: e == DeployModel(modelName) || e == LogDeployError
  {
    [DeployModel(modelName)] + (if outcome == DeployExitNonZero then [LogDeployError] else [])
  }

  const PREFIX := [InitPlatform, FetchCurrentConfig]

  /** The script run against the bucket's current config `remote` (None when the bucket has none). */
  function MainRun(remote: Option<ConfigFile>, env: Env, bucket: string, image: string): (run: Run)
    ensures |run.trace| >= 1 && run.trace[0] == InitPlatform
    ensures run.outcome.Finished? ==> ReachesComparison(remote, env)
    ensures run.outcome == Finished(false) ==> run.trace == PREFIX && run.current == remote
    ensures run.current != remote ==> run.outcome == Finished(true) && run.current == env.bestFile
    ensures run.outcome == Finished(true) ==> run.trace[|run.trace| - 1] == CopyBestConfig && run.current == env.bestFile
  {
    if !env.initOk then Run([InitPlatform], Raised(Init), remote)
    else if !env.fetchOk || remote.None? then Run(PREFIX, Raised(Fetch), remote)
    else if env.bestFile.None? then Run(PREFIX, Raised(ReadBest), remote)
    else
      var best := env.bestFile.value;
      match ShouldPromote(best, remote.value)
      case Err(stage) => Run(PREFIX, Raised(stage), remote)
      case Ok(promote) =>
        if !promote then Run(PREFIX, Finished(false), remote)
        else if best.trialId.None? then Run(PREFIX, Raised(ReadTrialId), remote)
        else
          var upload := UploadModel(DISPLAY_NAME, image, ArtifactUri(bucket, best.trialId.value));
          match env.upload
          case UploadRaised => Run(PREFIX + [upload], Raised(Upload), remote)
          case Uploaded(name) =>
            var deployed := PREFIX + [upload] + DeployEffects(name, env.deploy);
            if env.deploy == DeployRaised then Run(deployed, Raised(Deploy), remote)
            else if !env.copyOk then Run(deployed + [CopyBestConfig], Raised(Copy), remote)
            else Run(deployed + [CopyBestConfig], Finished(true), Some(best))
  }

  /** The run gets as far as the comparison on line 70 with both metric values present. */
  predicate ReachesComparison(remote: Option<ConfigFile>, env: Env) {
    && env.initOk && env.fetchOk && remote.Some? && env.bestFile.Some?
    && env.bestFile.value.metricValue.Some? && remote.value.metricValue.Some?
  }

  /**
   * The run ends without promoting exactly when the best metric is not
   * strictly below the current one, and then nothing is uploaded, deployed
   * or copied.
   */
  lemma PromotesIffStrictlyBetter(remote: Option<ConfigFile>, env: Env, bucket: string, image: string)
    requires ReachesComparison(remote, env)
    ensures var run := MainRun(remote, env, bucket, image);
      run.outcome == Finished(false) <==> !Less(env.bestFile.value.metricValue.value, remote.value.metricValue.value)
    ensures !Less(env.bestFile.value.metricValue.value, remote.value.metricValue.value) ==>
      MainRun(remote, env, bucket, image) == Run(PREFIX, Finished(false), remote)
  {
  }

  /** Equal metrics, or a NaN on either side, never promote. */
  lemma TiesAndNaNDoNotPromote(remote: Option<ConfigFile>, env: Env, bucket: string, image: string)
    requires ReachesComparison(remote, env)
    requires env.bestFile.value.metricValue == remote.value.metricValue
      || env.bestFile.value.metricValue == Some(NaN) || remote.value.metricValue == Some(NaN)
    ensures MainRun(remote, env, bucket, image) == Run(PREFIX, Finished(false), remote)
  {
  }

  /** A failed fetch of the current config aborts before any comparison or promotion. */
  lemma FetchFailureAborts(remote: Option<ConfigFile>, env: Env, bucket: string, image: string)
    requires env.initOk && (!env.fetchOk || remote.None?)
    ensures MainRun(remote, env, bucket, image) == Run(PREFIX, Raised(Fetch), remote)
  {
  }

  /**
   * On promotion the effects come in the order upload (of the best trial's
   * artifact), deploy, copy; a deploy that exits non-zero is only logged, so
   * the copy still runs and, when it succeeds, the current config becomes the
   * best one.
   */
  lemma PromotionEffectOrder(remote: Option<ConfigFile>, env: Env, bucket: string, image: string)
    requires ReachesComparison(remote, env)
    requires Less(env.bestFile.value.metricValue.value, remote.value.metricValue.value)
    requires env.bestFile.value.trialId.Some? && env.upload.Uploaded? && env.deploy != DeployRaised
    ensures var run := MainRun(remote, env, bucket, image);
      var best := env.bestFile.value;
      && run.trace == PREFIX
        + [UploadModel(DISPLAY_NAME, image, ArtifactUri(bucket, best.trialId.value))]
        + DeployEffects(env.upload.modelName, env.deploy)
        + [CopyBestConfig]
      && run.current == (if env.copyOk then Some(best) else remote)
      && run.outcome == (if env.copyOk then Finished(true) else Raised(Copy))
  {
  }

  /** The deploy error is swallowed: the best config still overwrites the current one. */
  lemma FailedDeployStillOverwrites(remote: Option<ConfigFile>, env: Env, bucket: string, image: string)
    requires ReachesComparison(remote, env)
    requires Less(env.bestFile.value.metricValue.value, remote.value.metricValue.value)
    requires env.bestFile.value.trialId.Some? && env.upload.Uploaded?
    requires env.deploy == DeployExitNonZero && env.copyOk
    ensures MainRun(remote, env, bucket, image).current == env.bestFile
    ensures LogDeployError in MainRun(remote, env, bucket, image).trace
  {
    var run := MainRun(remote, env, bucket, image);
    assert run.trace[4] == LogDeployError;
  }

  /**
   * The current config changes only through a completed promotion: to the
   * best config, whose metric is strictly below the one it replaces, after an
   * upload and a deploy attempt, with the copy as the last effect.
   */
  lemma CurrentChangesOnlyOnImprovement(remote: Option<ConfigFile>, env: Env, bucket: string, image: string)
    requires MainRun(remote, env, bucket, image).current != remote
    ensures var run := MainRun(remote, env, bucket, image);
      && ReachesComparison(remote, env)
      && run.current == env.bestFile
      && Less(env.bestFile.value.metricValue.value, remote.value.metricValue.value)
      && run.outcome == Finished(true)
      && |run.trace| >= 5 && run.trace[2].UploadModel? && run.trace[3].DeployModel?
      && run.trace[|run.trace| - 1] == CopyBestConfig
  {
  }

  /** The bucket and the endpoint as the script sees them. */
  class Cloud {
    /** The bucket's CURRENT_CONFIG_FILE, None when there is none. */
    var currentConfig: Option<ConfigFile>
    /** The foreign calls made so far, in order. */
    var effects: seq<Effect>

    constructor (currentConfig: Option<ConfigFile>)
      ensures this.currentConfig == currentConfig && effects == []
    {
      this.currentConfig := currentConfig;
      effects := [];
    }

    /** upload_model_sample: the model's resource name, or None when the upload raised. */
    method UploadModelSample(displayName: string, image: string, artifactUri: string, outcome: UploadOutcome)
      returns (modelName: Option<string>)
      modifies this`effects
      ensures effects == old(effects) + [UploadModel(displayName, image, artifactUri)]
      ensures modelName == if outcome.Uploaded? then Some(outcome.modelName) else None
    {
      effects := effects + [UploadModel(displayName, image, artifactUri)];
      modelName := if outcome.Uploaded? then Some(outcome.modelName) else None;
    }

    /** deploy_model_to_endpoint: reports whether an exception escaped its try/except. */
    method DeployModelToEndpoint(modelName: string, outcome: DeployOutcome) returns (raised: bool)
      modifies this`effects
      ensures effects == old(effects) + DeployEffects(modelName, outcome)
      ensures raised <==> outcome == DeployRaised
    {
      effects := effects + [DeployModel(modelName)];
      if outcome == DeployExitNonZero {
        effects := effects + [LogDeployError];
      }
      raised := outcome == DeployRaised;
    }

    /** The `__main__` block, step by step. */
    method RunMain(env: Env, bucket: string, image: string) returns (outcome: Outcome)
      modifies this
      ensures var run := MainRun(old(currentConfig), env, bucket, image);
        outcome == run.outcome && effects == old(effects) + run.trace && currentConfig == run.current
    {
      effects := effects + [InitPlatform];
      if !env.initOk {
        return Raised(Init);
      }
      effects := effects + [FetchCurrentConfig];
      if !env.fetchOk || currentConfig.None? {
        return Raised(Fetch);
      }
      if env.bestFile.None? {
        return Raised(ReadBest);
      }
      var best := env.bestFile.value;
      var current := currentConfig.value;
      if best.metricValue.None? || current.metricValue.None? {
        return Raised(Compare);
      }
      if Less(best.metricValue.value, current.metricValue.value) {
        if best.trialId.None? {
          return Raised(ReadTrialId);
        }
        var trialId := best.trialId.value;
        var model := UploadModelSample(DISPLAY_NAME, image, ArtifactUri(bucket, trialId), env.upload);
        if model.None? {
          return Raised(Upload);
        }
        var raised := DeployModelToEndpoint(model.value, env.deploy);
        if raised {
          return Raised(Deploy);
        }
        effects := effects + [CopyBestConfig];
        if !env.copyOk {
          return Raised(Copy);
        }
        currentConfig := Some(best);
        return Finished(true);
      }
      return Finished(false);
    }
  }
}
