# Verified model of the ml-coding tuning, promotion and artifact-path logic

This project is a Dafny model of the three pieces of real logic in a small
Vertex AI training pipeline. The rest of the pipeline is cloud SDK and CLI
orchestration. The project proves properties of each piece.

- **Hyperparameter tuning** (`hp_tunning_runner.py`).
  - `parse_parameter_settings` turns the `parameter_spec` dictionary into tuning specs. A `"linear"` scale gives an integer spec and a `"log"` scale gives a double spec. Any other scale is dropped. A missing `min`, `max` or `scale` raises `KeyError`.
  - `create_and_run_hp_tuning_job` scans the finished trials from a `+inf` sentinel. It keeps the first trial with the strictly smallest metric and returns its id, or `None`.
  - Both loops are methods (`HpTuning.ParseParameterSettings`, `HpTuning.CreateAndRunHpTuningJob`). Each is proved equal to a specification function, and the properties are proved about those functions.
- **Promotion** (`deployment_runner.py`).
  - The `__main__` block fetches the current champion config and compares its metric with the best config of the last tuning run.
  - On a strict improvement it uploads the winning trial's model, deploys it to the endpoint and copies the best config over the current one.
  - `Deployment.MainRun` is the pure decision. It returns the ordered trace of abstract effects, how the run ended and the bucket's config afterwards.
  - The class `Deployment.Cloud` runs the same steps imperatively and is proved to match `MainRun`.
- **Artifact paths** (`custom/trainer/task.py`).
  - When the trainer does not run locally, a `gs://` model directory is rewritten to its Cloud Storage FUSE path with `str.replace`.
  - The head of `os.path.split` of the rewritten path is created when it is not a directory. For a path without a trailing slash, that head is the model directory's parent, not the model directory.
  - `model.bst` and `loss.json` are then written into the model directory itself. Creating the directory and writing either file can raise, and the model says when: a write raises when the file's directory does not exist or the path is a directory.
  - `PyStr` and `PosixPath` model the Python string and `posixpath` operations involved.
  - `Trainer.Args` and `Trainer.FileSystem` are classes whose fields the methods update. `Trainer.Save` states the same block as a value.

Python floats are modelled in `Floats`. A metric is `-inf`, a finite real, `+inf` or NaN. The comparisons `<` and `<=` are modelled, and any comparison involving NaN is false. Foreign calls, such as the SDK, `gcloud` and the file reads, appear only through their outcomes. Those outcomes are parameters (`HpTuning.JobOutcome`, `Deployment.Env`).

A failed deploy does not stop the promotion: `deploy_model_to_endpoint` catches `CalledProcessError` (deployment_runner.py:52-53), and the copy of the best config over the current one still runs (`Deployment.FailedDeployStillOverwrites`).

## Model

| member | source | states |
|---|---|---|
| Floats.Less | hp_tunning_runner.py:60 | Python `<` on floats holds only between two non-NaN, different values, with the left one not `+inf` and the right one not `-inf` |
| Floats.NaNIsUnordered | hp_tunning_runner.py:60 | a NaN metric is neither below nor above any value, itself included, so a NaN trial never wins |
| Floats.LessIsStrictOrder | deployment_runner.py:70 | Python `<` on floats is irreflexive, asymmetric and transitive |
| Floats.LessIsTotal | hp_tunning_runner.py:60 | two non-NaN floats are equal or one is below the other |
| HpTuning.SpecOf | hp_tunning_runner.py:90-93 | a "linear" entry gives an integer spec and a "log" entry a double spec, each with that entry's own min, max and scale |
| HpTuning.ParseSettings | hp_tunning_runner.py:83-94 | the settings dictionary, built entry by entry from an empty one, has only names of the configuration as keys |
| HpTuning.ParseParameterSettings | hp_tunning_runner.py:83-94 | the dictionary-filling loop returns exactly the specification result, and its keys are names of the configuration |
| HpTuning.ParseSettingsErrors | hp_tunning_runner.py:85-88 | parsing succeeds iff every entry has min, max and scale; otherwise the KeyError names the first incomplete entry and its first missing key in the order min, max, scale |
| HpTuning.ParseSettingsKeys | hp_tunning_runner.py:90-93 | a name is in the output iff some entry of that name has scale "linear" or "log"; every other entry is dropped |
| HpTuning.ParseSettingsSpecs | hp_tunning_runner.py:86-93 | with distinct names, every kept entry maps to the spec built from its own fields |
| HpTuning.Step | hp_tunning_runner.py:60-68 | one iteration raises IndexError iff the trial has no metric, or beats the best with fewer than four parameters; otherwise it keeps the best iff the trial's metric is not strictly smaller, and else records that trial's id, four parameters and metric |
| HpTuning.Scan | hp_tunning_runner.py:55-68 | the loop from the `+inf` sentinel ends, when it raises nothing, with a metric that is at most `+inf` and never NaN |
| HpTuning.ScanSelectsFirstMinimum | hp_tunning_runner.py:55-74 | a successful scan returns None iff no metric is below +inf (the sentinel record unchanged); otherwise the id of the first trial whose metric is below +inf and at most every non-NaN metric, with its four parameters and its metric |
| HpTuning.FirstMinimumIsUnique | hp_tunning_runner.py:60 | ties keep the earliest trial: at most one trial is the first minimum |
| HpTuning.ScanFromNeverIncreases | hp_tunning_runner.py:60-67 | the running best metric never increases over the loop |
| HpTuning.ScanFromSucceeds | hp_tunning_runner.py:57-68 | when every trial has a metric and four parameters, the scan raises nothing |
| HpTuning.TuningJobResult | hp_tunning_runner.py:25-74 | the function returns only after the tuning job completed and the configuration parsed, and an id it returns belongs to one of the trials, which has a metric and four parameters |
| HpTuning.ScanWinnerIsATrial | hp_tunning_runner.py:68-74 | the id a successful scan selects is the id of a trial that has a metric and four parameters |
| HpTuning.CreateAndRunHpTuningJob | hp_tunning_runner.py:25-74 | the job's result equals the specification: SDK failure, the configuration's KeyError, the scan's IndexError, or the id of the first minimum trial (None when no metric is below +inf) |
| PyStr.StartsWith | custom/trainer/task.py:82 | `str.startswith`: the prefix is no longer than the string and equals its first characters; it has no contract of its own, and FuseRewrite, FuseRewriteLeavesNoPrefix and the Save lemmas use it |
| PyStr.Find | custom/trainer/task.py:83 | `str.find` returns -1 or an index where the pattern occurs, and the pattern occurs nowhere before it |
| PyStr.ReplaceAll | custom/trainer/task.py:83 | `str.replace` with a replacement of the pattern's length keeps the length, and keeps the last character when pattern and replacement end alike |
| PyStr.Split | custom/trainer/task.py:83 | `str.split` returns at least one piece, and no piece contains the separator |
| PyStr.Join | custom/trainer/task.py:83 | `r.join(parts)` of at least one piece starts with the first piece and ends with the last |
| PyStr.ReplaceAllIsSplitJoin | custom/trainer/task.py:83 | `s.replace(p, r)` equals `r.join(s.split(p))`: every non-overlapping occurrence is replaced |
| PyStr.SplitJoinRoundTrip | custom/trainer/task.py:83 | joining the pieces of `s.split(p)` with `p` gives `s` back |
| PosixPath.Split | custom/trainer/task.py:84 | os.path.split as the head with trailing slashes stripped (unless all slashes) and the tail after the last '/'; it has no contract of its own, and SplitSpec, SplitJoin, SplitSlashEnded and SplitUnslashed describe it |
| PosixPath.SplitSpec | custom/trainer/task.py:84 | os.path.split returns as tail everything after the last '/', as head a prefix of the path followed only by slashes up to the tail; the head ends in '/' only when it is all slashes, and then it keeps every slash before the tail |
| PosixPath.Join | custom/trainer/task.py:89 | os.path.join returns the name itself when it starts with '/'; otherwise it starts with the directory, ends with the name, puts exactly one '/' between them unless the directory is empty or ends in '/', and has the matching length |
| PosixPath.SplitJoin | custom/trainer/task.py:103 | splitting `join(dir, name)` gives back the directory (trailing slashes stripped unless it is all slashes) and the name |
| PosixPath.SplitSlashEnded | custom/trainer/task.py:84 | a path ending in '/' splits into the trimmed path and an empty name |
| PosixPath.SplitUnslashed | custom/trainer/task.py:84 | a path not ending in '/' splits into a head shorter than the path |
| Trainer.FuseRewrite | custom/trainer/task.py:82-83 | a `gs://` directory is rewritten to one starting with `/gcs/`; any other directory is unchanged |
| Trainer.FuseRewriteReplacesEvery | custom/trainer/task.py:83 | the rewrite replaces every occurrence of `gs://`, not only the leading one |
| Trainer.FuseRewriteInnerOccurrence | custom/trainer/task.py:83 | `gs://b/gs://x` becomes `/gcs/b//gcs/x` |
| Trainer.FuseRewriteLeavesNoPrefix | custom/trainer/task.py:94-95 | after the rewrite the directory no longer starts with `gs://`, so the second block's test fails |
| Trainer.FuseRewriteIdempotent | custom/trainer/task.py:94-100 | rewriting twice equals rewriting once, so the second conversion block changes nothing |
| Trainer.FuseDir | custom/trainer/task.py:84 | `dirpath` is a prefix of the rewritten model directory |
| Trainer.FuseDirUnderMount | custom/trainer/task.py:84-86 | the directory created for a `gs://` model directory is `/gcs` itself or starts with `/gcs/` |
| Trainer.ModelPath | custom/trainer/task.py:89 | `gcs_model_path` starts with the model directory, ends with `model.bst` and is longer than the directory |
| Trainer.MetricsPath | custom/trainer/task.py:108 | `gcs_metrics_path` starts with the model directory, ends with `loss.json` and is longer than the directory |
| Trainer.ArtifactsShareDirectory | custom/trainer/task.py:103-108 | model.bst and loss.json are distinct paths whose directory is the model directory and whose names are the two file names |
| Trainer.WritesLandInCreatedDir | custom/trainer/task.py:84-108 | both files sit in one directory, and it is the created `dirpath` iff the `gs://` model directory ends in '/' |
| Trainer.MetricsText | custom/trainer/task.py:110 | the metrics file holds "loss: " followed by the loss as text |
| Trainer.MetricsTextInjective | custom/trainer/task.py:110 | two losses that produce the same metrics file are the same loss text |
| Trainer.Convert | custom/trainer/task.py:80-86 | one conversion block as a value; it has no contract of its own, and ConvertResult and ConvertWithoutPrefix describe it |
| Trainer.ConvertResult | custom/trainer/task.py:80-86 | one conversion block rewrites the directory, adds at most `dirpath` to the directories, changes no file, and raises iff `dirpath` is missing as a directory but present as a file; when a `gs://` block raises nothing, the directories are the old ones plus `dirpath` |
| Trainer.WriteError | custom/trainer/task.py:105-109 | the rule for save_model and open(..., "w"): a missing directory raises first, then a path that is a directory; it has no contract of its own, and FileSystem.Write and WritePairResult use it |
| Trainer.WritePair | custom/trainer/task.py:105-110 | save_model, then the metrics file, stopping at the first write that raises; it has no contract of its own, and WritePairResult describes it |
| Trainer.WriteArtifacts | custom/trainer/task.py:103-110 | WritePair at the joined model.bst and loss.json paths; it has no contract of its own, and WriteArtifactsResult describes it |
| Trainer.WritePairResult | custom/trainer/task.py:103-110 | two files in one directory are both written iff the directory exists and neither path is a directory; a missing directory raises and writes nothing |
| Trainer.WriteArtifactsResult | custom/trainer/task.py:103-110 | the same for model.bst and loss.json in the model directory |
| Trainer.Save | custom/trainer/task.py:78-110 | the whole block as a value: nothing when running locally, else the conversion, then the writes unless it raised; it has no contract of its own, and SaveIsConvertThenWrite, SaveSucceeded, SaveFailsWithoutTrailingSlash and SaveSucceedsWithTrailingSlash describe it |
| Trainer.SaveLocallyChangesNothing | custom/trainer/task.py:78 | when the trainer runs locally the block is skipped: the model directory, directories and files are unchanged and nothing raises |
| Trainer.SaveSucceeded | custom/trainer/task.py:78-110 | a save that raised nothing rewrote the directory, created at most `dirpath`, wrote both files into an existing directory and changed no other file |
| Trainer.SaveFailsWithoutTrailingSlash | custom/trainer/task.py:84-105 | for `gs://b/m` (no trailing slash, `/gcs/b/m` not yet a directory) the directories afterwards are the old ones plus `dirpath` (`/gcs/b`), save_model raises for the missing `/gcs/b/m`, and no file is written |
| Trainer.SaveSucceedsWithTrailingSlash | custom/trainer/task.py:84-110 | for a `gs://` directory ending in '/', both files are written unless a file blocks `dirpath` or a file path is a directory |
| Trainer.FileSystem.MakeDirsIfMissing | custom/trainer/task.py:85-86 | a missing directory is created, an existing one left alone, and a file at the path raises FileExistsError without creating anything |
| Trainer.FileSystem.Write | custom/trainer/task.py:105-110 | the write raises iff the path's directory is missing or the path is a directory; otherwise the path holds the content and no other file changes |
| Trainer.ConvertToFuse | custom/trainer/task.py:80-86 | the model directory, directories and error after the block are those of the conversion function |
| Trainer.WriteArtifactFiles | custom/trainer/task.py:103-110 | the two writes leave the files and the error of the write function, stopping at the first write that raises |
| Trainer.SaveArtifacts | custom/trainer/task.py:78-110 | the state after the block, or at the exception that ends it, equals the save function: nothing when running locally, otherwise one rewrite, `dirpath` created, then the two writes |
| Deployment.ArtifactUri | deployment_runner.py:75 | the artifact URI starts with the bucket and ends with "/model" |
| Deployment.ArtifactUriInjective | deployment_runner.py:75 | different trial ids of one bucket give different artifact URIs |
| Deployment.ShouldPromote | deployment_runner.py:70 | the comparison raises KeyError iff either config lacks `metric_value`, and promotes only for two different, non-NaN metrics |
| Deployment.DeployEffects | deployment_runner.py:41-53 | the deploy call comes first, and the error is logged iff gcloud exits non-zero; nothing else happens |
| Deployment.MainRun | deployment_runner.py:57-80 | every run starts with the platform init; a finished run got as far as the comparison; a run that does not promote changes nothing after the fetch; the current config changes only in a promoting run, to the best config, with the copy last |
| Deployment.PromotesIffStrictlyBetter | deployment_runner.py:70-80 | once both metrics are read, the run ends without promoting iff the best metric is not strictly below the current one, and then nothing is uploaded, deployed or copied |
| Deployment.TiesAndNaNDoNotPromote | deployment_runner.py:70 | equal metrics, or a NaN on either side, never promote |
| Deployment.FetchFailureAborts | deployment_runner.py:61 | a failed fetch of the current config, or a bucket without one, aborts before any comparison or promotion |
| Deployment.PromotionEffectOrder | deployment_runner.py:71-79 | on promotion the effects come in the order upload of the best trial's artifact URI, deploy, copy; the current config becomes the best one iff the copy succeeds |
| Deployment.FailedDeployStillOverwrites | deployment_runner.py:78-79 | a deploy that exits non-zero is logged and the best config still overwrites the current one |
| Deployment.CurrentChangesOnlyOnImprovement | deployment_runner.py:70-79 | the current config changes only to the best config, with a strictly smaller metric, after an upload and a deploy, with the copy as the last effect |
| Deployment.Cloud.UploadModelSample | deployment_runner.py:20-36 | records the upload with its display name, image and artifact URI, and returns the model name unless the upload raised |
| Deployment.Cloud.DeployModelToEndpoint | deployment_runner.py:38-53 | records the deploy, logs a non-zero exit, and lets only other exceptions escape |
| Deployment.Cloud.RunMain | deployment_runner.py:57-80 | the step-by-step script produces exactly the outcome, effect trace and final current config of the decision function |

## Left out

- XGBoost training, the validation mean squared error and the hypertune metric report (custom/trainer/task.py:39-74) call external numeric libraries. The loss enters the model only as the text `str(val_loss)` prints.
- IEEE-754 arithmetic is not modelled. Only the ordering of floats and the behaviour of comparisons with NaN are kept.
- The YAML loading in `parse_hyperparameter_config`, the `metric_spec`, trial-count settings and argparse in `get_args` are file and command-line input. They are not modelled.
- The configuration dictionary is modelled as a sequence of (name, entry) pairs in dictionary order. `min` and `max` are reals. A value of another type is not modelled.
- The order of the output dictionary's keys is not modelled: the output is a `map`.
- `print` and `logging` output is not modelled, apart from the deploy error log, which is an effect.
- The cloud SDK calls (`aiplatform.init`, `CustomJob`, `HyperparameterTuningJob.run`, `Model.upload`) and the `gcloud` subprocess calls are abstract effects. Only their success or failure is modelled, as parameters.
- Of the two JSON reads, only the read of the best config (deployment_runner.py:63-65) may fail in the model. The read of the fetched current config (deployment_runner.py:67-68) is taken to succeed, so a malformed or missing local file after a successful fetch is not modelled. Only the `trial_id` and `metric_value` keys are kept, and a `metric_value` that is not a number (a TypeError on `<`) is not modelled.
- A current config left locally by an earlier run is not modelled. The fetch either brings the bucket's config or aborts.
- `HpTuning.CreateAndRunHpTuningJob`: `float(...)` of the trial values is taken as already done. Trial metrics and parameters are floats in the model.
- `Trainer.FileSystem.MakeDirsIfMissing` records only the directory itself, not the intermediate directories `os.makedirs` also creates, and does not model it raising because an intermediate component is a file.
- `Trainer.FileSystem.Write`: directories and files are keyed by the path as spelled. Path normalisation (`//`, `.`, `..`), permissions, a full disk and the implicit directories of a Cloud Storage FUSE mount are not modelled.
- `model_dir` is always a string in the model. An unset `AIP_MODEL_DIR` (None) is not modelled.
- `PyStr.ReplaceAll`, `PyStr.Split` and `PyStr.Find` require a non-empty pattern. `str.replace` with an empty pattern is not modelled because the code only replaces `"gs://"`.
- run.py (tar, gzip and upload orchestration), config.py (constants, taken as opaque strings), test_endpoint_prediction.py (network prediction) and custom/setup.py (packaging) are not part of this model.
