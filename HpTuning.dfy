/**
 * Model of hp_tunning_runner.py: the mapping of the YAML `parameter_spec`
 * configuration to tuning parameter specs (parse_parameter_settings), and the
 * scan over the finished trials of a tuning job that picks the trial with the
 * lowest metric (create_and_run_hp_tuning_job).
 *
 * The cloud SDK calls (CustomJob, HyperparameterTuningJob, run) are foreign:
 * their outcome is a parameter of type JobOutcome.
 */
module HpTuning {
  import opened Results
  import opened Floats

  // ---------------------------------------------------------------------
  // parse_parameter_settings

  /** One entry of `parameter_spec`; a key the YAML entry lacks is None. */
  datatype RawParam = RawParam(min: Option<real>, max: Option<real>, scale: Option<string>)

  /** hpt.IntegerParameterSpec / hpt.DoubleParameterSpec as constructed: (min, max, scale). */
  datatype ParamSpec =
    | IntegerSpec(min: real, max: real, scale: string)
    | DoubleSpec(min: real, max: real, scale: string)

  /** The KeyError raised when an entry lacks `min`, `max` or `scale`. */
  datatype ConfigError = MissingKey(param: string, key: string)

  /** A (parameter name, entry) pair of the configuration dictionary, in its order. */
  type ParamEntry = (string, RawParam)

  predicate Complete(p: RawParam) {
    p.min.Some? && p.max.Some? && p.scale.Some?
  }

  /** The two scales that yield a spec; an entry with any other scale is dropped. */
  predicate Kept(p: RawParam) {
    p.scale == Some("linear") || p.scale == Some("log")
  }

  /** The first key the loop body looks up and does not find: min, then max, then scale. */
  function MissingKeyOf(e: ParamEntry): ConfigError
    requires !Complete(e.1)
  {
    if e.1.min.None? then MissingKey(e.0, "min")
    else if e.1.max.None? then MissingKey(e.0, "max")
    else MissingKey(e.0, "scale")
  }

  /** The spec a kept entry yields: integer for "linear", double for "log", from its own fields. */
  function SpecOf(p: RawParam): (s: ParamSpec)
    requires Complete(p) && Kept(p)
    ensures s.IntegerSpec? <==> p.scale == Some("linear")
    ensures s.DoubleSpec? <==> p.scale == Some("log")
    ensures s.min == p.min.value && s.max == p.max.value && Some(s.scale) == p.scale
  {
    if p.scale.value == "linear" then IntegerSpec(p.min.value, p.max.value, p.scale.value)
    else DoubleSpec(p.min.value, p.max.value, p.scale.value)
  }

  /** The settings dictionary the loop returns, having filled `acc` from entries[..i]. */
  function ParseFrom(entries: seq<ParamEntry>, i: nat, acc: map<string, ParamSpec>)
    : Result<map<string, ParamSpec>, ConfigError>
    requires i <= |entries|
    decreases |entries| - i
  {
    if i == |entries| then Ok(acc)
    else if !Complete(entries[i].1) then Err(MissingKeyOf(entries[i]))
    else if Kept(entries[i].1) then ParseFrom(entries, i + 1, acc[entries[i].0 := SpecOf(entries[i].1)])
    else ParseFrom(entries, i + 1, acc)
  }

  /** parse_parameter_settings as a value: every name of the settings is a name of the configuration. */
  function ParseSettings(entries: seq<ParamEntry>): (r: Result<map<string, ParamSpec>, ConfigError>)
    ensures r.Ok? ==> r.value.Keys <= set e | e in entries :: e.0
  {
    var r := ParseFrom(entries, 0, map[]);
    if r.Ok? then
      ParseFromKeys(entries, 0, map[]);
      assert forall k | k in r.value :: exists j :: 0 <= j < |entries| && entries[j].0 == k && entries[j] in entries;
      r
    else r
  }

  /** parse_parameter_settings: fills the settings dictionary entry by entry. */
  method ParseParameterSettings(parameterConfig: seq<ParamEntry>)
    returns (r: Result<map<string, ParamSpec>, ConfigError>)
    ensures r == ParseSettings(parameterConfig)
    ensures r.Ok? ==> r.value.Keys <= set e | e in parameterConfig :: e.0
  {
    var settings: map<string, ParamSpec> := map[];
    for i := 0 to |parameterConfig|
      invariant ParseFrom(parameterConfig, i, settings) == ParseSettings(parameterConfig)
    {
      var (name, p) := parameterConfig[i];
      if p.min.None? {
        return Err(MissingKey(name, "min"));
      }
      if p.max.None? {
        return Err(MissingKey(name, "max"));
      }
      if p.scale.None? {
        return Err(MissingKey(name, "scale"));
      }
      if p.scale.value == "linear" {
        settings := settings[name := IntegerSpec(p.min.value, p.max.value, p.scale.value)];
      }
      if p.scale.value == "log" {
        settings := settings[name := DoubleSpec(p.min.value, p.max.value, p.scale.value)];
      }
    }
    r := Ok(settings);
  }

  ghost predicate AllComplete(entries: seq<ParamEntry>, i: nat) {
    forall j :: i <= j < |entries| ==> Complete(entries[j].1)
  }

  lemma {:induction false} ParseFromErrors(entries: seq<ParamEntry>, i: nat, acc: map<string, ParamSpec>)
    requires i <= |entries|
    ensures ParseFrom(entries, i, acc).Ok? <==> AllComplete(entries, i)
    ensures ParseFrom(entries, i, acc).Err? ==>
      exists j :: i <= j < |entries| && !Complete(entries[j].1) && AllComplete(entries[..j], i)
        && ParseFrom(entries, i, acc).error == MissingKeyOf(entries[j])
    decreases |entries| - i
  {
    if i < |entries| {
      if !Complete(entries[i].1) {
        assert AllComplete(entries[..i], i);
      } else {
        var acc' := if Kept(entries[i].1) then acc[entries[i].0 := SpecOf(entries[i].1)] else acc;
        assert ParseFrom(entries, i, acc) == ParseFrom(entries, i + 1, acc');
        ParseFromErrors(entries, i + 1, acc');
        if ParseFrom(entries, i, acc).Err? {
          var j :| i + 1 <= j < |entries| && !Complete(entries[j].1) && AllComplete(entries[..j], i + 1)
            && ParseFrom(entries, i + 1, acc').error == MissingKeyOf(entries[j]);
          assert AllComplete(entries[..j], i);
        }
      }
    }
  }

  /**
   * The configuration parses exactly when every entry has min, max and scale;
   * otherwise the KeyError names the first incomplete entry and its first
   * missing key.
   */
  lemma ParseSettingsErrors(entries: seq<ParamEntry>)
    ensures ParseSettings(entries).Ok? <==> AllComplete(entries, 0)
    ensures ParseSettings(entries).Err? ==>
      exists j :: 0 <= j < |entries| && !Complete(entries[j].1) && AllComplete(entries[..j], 0)
        && ParseSettings(entries).error == MissingKeyOf(entries[j])
  {
    ParseFromErrors(entries, 0, map[]);
  }

  lemma {:induction false} ParseFromKeys(entries: seq<ParamEntry>, i: nat, acc: map<string, ParamSpec>)
    requires i <= |entries|
    requires ParseFrom(entries, i, acc).Ok?
    ensures forall k :: k in ParseFrom(entries, i, acc).value <==>
      k in acc || exists j :: i <= j < |entries| && entries[j].0 == k && Kept(entries[j].1)
    decreases |entries| - i
  {
    if i < |entries| {
      if Kept(entries[i].1) {
        ParseFromKeys(entries, i + 1, acc[entries[i].0 := SpecOf(entries[i].1)]);
      } else {
        ParseFromKeys(entries, i + 1, acc);
      }
    }
  }

  /** The output holds a key exactly when some entry of that name has scale "linear" or "log". */
  lemma ParseSettingsKeys(entries: seq<ParamEntry>)
    requires ParseSettings(entries).Ok?
    ensures forall k :: k in ParseSettings(entries).value <==>
      exists j :: 0 <= j < |entries| && entries[j].0 == k && Kept(entries[j].1)
  {
    ParseFromKeys(entries, 0, map[]);
  }

  /** Dictionary keys are unique. */
  ghost predicate DistinctNames(entries: seq<ParamEntry>) {
    forall j, l :: 0 <= j < l < |entries| ==> entries[j].0 != entries[l].0
  }

  lemma {:induction false} ParseFromSpecs(entries: seq<ParamEntry>, i: nat, acc: map<string, ParamSpec>)
    requires i <= |entries| && DistinctNames(entries)
    requires ParseFrom(entries, i, acc).Ok?
    ensures AllComplete(entries, i)
    ensures forall j :: i <= j < |entries| && Kept(entries[j].1) ==>
      entries[j].0 in ParseFrom(entries, i, acc).value
      && ParseFrom(entries, i, acc).value[entries[j].0] == SpecOf(entries[j].1)
    decreases |entries| - i
  {
    ParseFromErrors(entries, i, acc);
    if i < |entries| {
      var e := entries[i];
      if Kept(e.1) {
        var acc' := acc[e.0 := SpecOf(e.1)];
        ParseFromSpecs(entries, i + 1, acc');
        ParseFromKeeps(entries, i + 1, acc', e.0);
      } else {
        ParseFromSpecs(entries, i + 1, acc);
      }
    }
  }

  /** A key that no later entry names keeps the value it has in the accumulator. */
  lemma {:induction false} ParseFromKeeps(entries: seq<ParamEntry>, i: nat, acc: map<string, ParamSpec>, k: string)
    requires i <= |entries|
    requires ParseFrom(entries, i, acc).Ok?
    requires k in acc && forall j :: i <= j < |entries| ==> entries[j].0 != k
    ensures k in ParseFrom(entries, i, acc).value && ParseFrom(entries, i, acc).value[k] == acc[k]
    decreases |entries| - i
  {
    if i < |entries| {
      if Kept(entries[i].1) {
        ParseFromKeeps(entries, i + 1, acc[entries[i].0 := SpecOf(entries[i].1)], k);
      } else {
        ParseFromKeeps(entries, i + 1, acc, k);
      }
    }
  }

  /** Each kept parameter maps to the spec built from its own min, max and scale. */
  lemma ParseSettingsSpecs(entries: seq<ParamEntry>)
    requires DistinctNames(entries)
    requires ParseSettings(entries).Ok?
    ensures forall j :: 0 <= j < |entries| && Kept(entries[j].1) ==>
      Complete(entries[j].1)
      && entries[j].0 in ParseSettings(entries).value
      && ParseSettings(entries).value[entries[j].0] == SpecOf(entries[j].1)
  {
    ParseFromSpecs(entries, 0, map[]);
  }

  // ---------------------------------------------------------------------
  // The best-trial scan of create_and_run_hp_tuning_job

  type TrialId = string

  /** A finished trial: its id, its parameter values in schema order, the metrics of its final measurement. */
  datatype Trial = Trial(id: TrialId, parameters: seq<Float>, metrics: seq<Float>)

  /** The running `best` tuple: (trial id, four parameter values, metric). */
  datatype Best = Best(
    trialId: Option<TrialId>,
    p0: Option<Float>, p1: Option<Float>, p2: Option<Float>, p3: Option<Float>,
    metric: Float)

  /** The initial tuple: five Nones and +inf. */
  const SENTINEL := Best(None, None, None, None, None, PosInf)

  /** The IndexError raised on a trial without a metric or with fewer than four parameters. */
  datatype ScanError = MissingMetric(trial: TrialId) | MissingParameter(trial: TrialId)

  function MetricOf(t: Trial): Float
    requires t.metrics != []
  {
    t.metrics[0]
  }

  /** The tuple recorded for a winning trial. */
  function RecordOf(t: Trial): Best
    requires |t.parameters| >= 4 && t.metrics != []
  {
    Best(Some(t.id), Some(t.parameters[0]), Some(t.parameters[1]), Some(t.parameters[2]),
      Some(t.parameters[3]), t.metrics[0])
  }

  /** One pass of the loop body: replace the best only on a strictly smaller metric. */
  function Step(best: Best, t: Trial): (r: Result<Best, ScanError>)
    ensures r.Err? <==> t.metrics == [] || (Less(MetricOf(t), best.metric) && |t.parameters| < 4)
    ensures r.Ok? ==> (r.value == best <==> !Less(MetricOf(t), best.metric))
    ensures r.Ok? && Less(MetricOf(t), best.metric) ==> r.value == RecordOf(t)
  {
    if t.metrics == [] then Err(MissingMetric(t.id))
    else if !Less(t.metrics[0], best.metric) then Ok(best)
    else if |t.parameters| < 4 then Err(MissingParameter(t.id))
    else Ok(RecordOf(t))
  }

  /** The tuple the loop ends with when it holds `best` before trials[i]. */
  function ScanFrom(trials: seq<Trial>, i: nat, best: Best): Result<Best, ScanError>
    requires i <= |trials|
    decreases |trials| - i
  {
    if i == |trials| then Ok(best)
    else match Step(best, trials[i])
      case Err(e) => Err(e)
      case Ok(b) => ScanFrom(trials, i + 1, b)
  }

  /** The whole loop, from the `+inf` sentinel: the best metric it ends with is never NaN. */
  function Scan(trials: seq<Trial>): (r: Result<Best, ScanError>)
    ensures r.Ok? ==> LessEq(r.value.metric, PosInf) && !r.value.metric.NaN?
  {
    var r := ScanFrom(trials, 0, SENTINEL);
    if r.Ok? then ScanFromNeverIncreases(trials, 0, SENTINEL); r else r
  }

  ghost predicate Measured(trials: seq<Trial>, n: nat)
    requires n <= |trials|
  {
    forall j :: 0 <= j < n ==> trials[j].metrics != []
  }

  /**
   * Trial k wins among the first n trials: its metric is below +inf, no
   * trial's metric is below it, and every earlier trial's metric is NaN or
   * above it (ties keep the earliest trial).
   */
  ghost predicate IsFirstMinimum(trials: seq<Trial>, n: nat, k: int)
    requires n <= |trials| && Measured(trials, n)
  {
    && 0 <= k < n
    && Less(MetricOf(trials[k]), PosInf)
    && (forall j :: 0 <= j < n ==> !Less(MetricOf(trials[j]), MetricOf(trials[k])))
    && (forall j :: 0 <= j < k ==> MetricOf(trials[j]).NaN? || Less(MetricOf(trials[k]), MetricOf(trials[j])))
  }

  /** No metric among the first n trials is strictly below +inf (each is NaN or +inf). */
  ghost predicate NoneBelowInf(trials: seq<Trial>, n: nat)
    requires n <= |trials| && Measured(trials, n)
  {
    forall j :: 0 <= j < n ==> !Less(MetricOf(trials[j]), PosInf)
  }

  /** `b` is the tuple the first n trials should leave behind. */
  ghost predicate Summarises(trials: seq<Trial>, n: nat, b: Best)
    requires n <= |trials|
  {
    && Measured(trials, n)
    && (b.trialId.None? ==> b == SENTINEL && NoneBelowInf(trials, n))
    && (b.trialId.Some? ==>
          exists k :: IsFirstMinimum(trials, n, k) && |trials[k].parameters| >= 4 && b == RecordOf(trials[k]))
  }

  lemma StepSummarises(trials: seq<Trial>, i: nat, b: Best)
    requires i < |trials| && Summarises(trials, i, b)
    requires Step(b, trials[i]).Ok?
    ensures Summarises(trials, i + 1, Step(b, trials[i]).value)
  {
    assert Measured(trials, i + 1);
    if !Less(MetricOf(trials[i]), b.metric) {
      StepKeeps(trials, i, b);
    } else {
      StepReplaces(trials, i, b);
    }
  }

  /** A trial that does not beat the running best leaves it the winner. */
  lemma StepKeeps(trials: seq<Trial>, i: nat, b: Best)
    requires i < |trials| && Summarises(trials, i, b) && Measured(trials, i + 1)
    requires !Less(MetricOf(trials[i]), b.metric)
    ensures Summarises(trials, i + 1, b)
  {
    if b.trialId.Some? {
      var k :| IsFirstMinimum(trials, i, k) && |trials[k].parameters| >= 4 && b == RecordOf(trials[k]);
      assert IsFirstMinimum(trials, i + 1, k);
    }
  }

  /** A trial that beats the running best is the new winner. */
  lemma StepReplaces(trials: seq<Trial>, i: nat, b: Best)
    requires i < |trials| && Summarises(trials, i, b) && Measured(trials, i + 1)
    requires Less(MetricOf(trials[i]), b.metric)
    ensures IsFirstMinimum(trials, i + 1, i)
  {
    var m := MetricOf(trials[i]);
    var bound := b.metric;
    assert Less(bound, PosInf) || bound == PosInf by {
      if b.trialId.Some? {
        var k :| IsFirstMinimum(trials, i, k) && |trials[k].parameters| >= 4 && b == RecordOf(trials[k]);
      }
    }
    // every earlier metric is NaN or not below `bound`
    assert forall j :: 0 <= j < i ==> !Less(MetricOf(trials[j]), bound) by {
      if b.trialId.Some? {
        var k :| IsFirstMinimum(trials, i, k) && |trials[k].parameters| >= 4 && b == RecordOf(trials[k]);
      }
    }
    LessIsStrictOrder(m, bound, PosInf);
    forall j | 0 <= j < i
      ensures MetricOf(trials[j]).NaN? || Less(m, MetricOf(trials[j]))
    {
      if !MetricOf(trials[j]).NaN? {
        LessIsTotal(MetricOf(trials[j]), bound);
        LessIsStrictOrder(m, bound, MetricOf(trials[j]));
      }
    }
    forall j | 0 <= j < i + 1
      ensures !Less(MetricOf(trials[j]), m)
    {
      LessIsStrictOrder(MetricOf(trials[j]), m, bound);
    }
  }

  lemma {:induction false} ScanFromSummarises(trials: seq<Trial>, i: nat, b: Best)
    requires i <= |trials| && Summarises(trials, i, b)
    requires ScanFrom(trials, i, b).Ok?
    ensures Summarises(trials, |trials|, ScanFrom(trials, i, b).value)
    decreases |trials| - i
  {
    if i < |trials| {
      StepSummarises(trials, i, b);
      ScanFromSummarises(trials, i + 1, Step(b, trials[i]).value);
    }
  }

  /**
   * When the scan raises nothing: every trial was measured; the result is the
   * sentinel (id None) exactly when no metric is strictly below +inf (this
   * covers no trials at all and all-NaN or all-inf metrics); otherwise it is
   * the tuple of the earliest trial with the least metric.
   */
  lemma ScanSelectsFirstMinimum(trials: seq<Trial>)
    requires Scan(trials).Ok?
    ensures Measured(trials, |trials|)
    ensures Scan(trials).value.trialId.None? <==> NoneBelowInf(trials, |trials|)
    ensures Scan(trials).value.trialId.None? ==> Scan(trials).value == SENTINEL
    ensures Scan(trials).value.trialId.Some? ==>
      exists k :: IsFirstMinimum(trials, |trials|, k) && |trials[k].parameters| >= 4
        && Scan(trials).value == RecordOf(trials[k])
  {
    ScanFromSummarises(trials, 0, SENTINEL);
    var b := Scan(trials).value;
    if b.trialId.Some? {
      var k :| IsFirstMinimum(trials, |trials|, k) && |trials[k].parameters| >= 4 && b == RecordOf(trials[k]);
      assert !NoneBelowInf(trials, |trials|);
    }
  }

  /** At most one trial satisfies IsFirstMinimum: the selection is deterministic. */
  lemma FirstMinimumIsUnique(trials: seq<Trial>, n: nat, k1: int, k2: int)
    requires n <= |trials| && Measured(trials, n)
    requires IsFirstMinimum(trials, n, k1) && IsFirstMinimum(trials, n, k2)
    ensures k1 == k2
  {
  }

  /** From any point of the loop on, the best metric can only go down. */
  lemma {:induction false} ScanFromNeverIncreases(trials: seq<Trial>, i: nat, b: Best)
    requires i <= |trials| && !b.metric.NaN?
    requires ScanFrom(trials, i, b).Ok?
    ensures LessEq(ScanFrom(trials, i, b).value.metric, b.metric)
    decreases |trials| - i
  {
    if i < |trials| {
      var b' := Step(b, trials[i]).value;
      ScanFromNeverIncreases(trials, i + 1, b');
      LessIsStrictOrder(ScanFrom(trials, i, b).value.metric, b'.metric, b.metric);
    }
  }

  /** With every trial measured and carrying four parameters, the scan raises nothing. */
  lemma {:induction false} ScanFromSucceeds(trials: seq<Trial>, i: nat, b: Best)
    requires i <= |trials|
    requires forall j :: i <= j < |trials| ==> trials[j].metrics != [] && |trials[j].parameters| >= 4
    ensures ScanFrom(trials, i, b).Ok?
    decreases |trials| - i
  {
    if i < |trials| {
      ScanFromSucceeds(trials, i + 1, Step(b, trials[i]).value);
    }
  }

  // ---------------------------------------------------------------------
  // create_and_run_hp_tuning_job

  /** What the foreign tuning SDK does: raise while building the custom job, raise building or running the tuning job, or finish with trials. */
  datatype JobOutcome = CustomJobRaised | TuningJobRaised | TuningJobCompleted(trials: seq<Trial>)

  datatype TuningError = SdkRaised | BadConfig(configError: ConfigError) | BadTrial(scanError: ScanError)

  /** The id create_and_run_hp_tuning_job returns (best[0]), or the exception it raises. */
  function TuningJobResult(parameterConfig: seq<ParamEntry>, job: JobOutcome): (r: Result<Option<TrialId>, TuningError>)
    ensures r.Ok? ==> job.TuningJobCompleted? && ParseSettings(parameterConfig).Ok?
    ensures r.Ok? && r.value.Some? ==>
      exists t :: t in job.trials && t.id == r.value.value && |t.parameters| >= 4 && t.metrics != []
  {
    if job.CustomJobRaised? then Err(SdkRaised)
    else match ParseSettings(parameterConfig)
      case Err(e) => Err(BadConfig(e))
      case Ok(_) =>
        if job.TuningJobRaised? then Err(SdkRaised)
        else match Scan(job.trials)
          case Err(e) => Err(BadTrial(e))
          case Ok(best) =>
            if best.trialId.Some? then ScanWinnerIsATrial(job.trials); Ok(best.trialId)
            else Ok(best.trialId)
  }

  /** The id the scan returns is the id of one of the trials, which has a metric and four parameters. */
  lemma ScanWinnerIsATrial(trials: seq<Trial>)
    requires Scan(trials).Ok? && Scan(trials).value.trialId.Some?
    ensures exists t :: t in trials && t.id == Scan(trials).value.trialId.value && |t.parameters| >= 4 && t.metrics != []
  {
    ScanSelectsFirstMinimum(trials);
    var k :| IsFirstMinimum(trials, |trials|, k) && |trials[k].parameters| >= 4 && Scan(trials).value == RecordOf(trials[k]);
    assert trials[k] in trials;
  }

  method CreateAndRunHpTuningJob(parameterConfig: seq<ParamEntry>, job: JobOutcome)
    returns (r: Result<Option<TrialId>, TuningError>)
    ensures r == TuningJobResult(parameterConfig, job)
    ensures r.Ok? ==> job.TuningJobCompleted? && Measured(job.trials, |job.trials|)
    ensures r.Ok? ==> (r.value.None? <==> NoneBelowInf(job.trials, |job.trials|))
    ensures r.Ok? && r.value.Some? ==>
      exists k :: IsFirstMinimum(job.trials, |job.trials|, k) && job.trials[k].id == r.value.value
  {
    if job.CustomJobRaised? {
      return Err(SdkRaised);
    }
    var settings := ParseParameterSettings(parameterConfig);
    if settings.Err? {
      return Err(BadConfig(settings.error));
    }
    if job.TuningJobRaised? {
      return Err(SdkRaised);
    }
    var trials := job.trials;
    var best := SENTINEL;
    for i := 0 to |trials|
      invariant ScanFrom(trials, i, best) == Scan(trials)
    {
      var trial := trials[i];
      if trial.metrics == [] {
        return Err(BadTrial(MissingMetric(trial.id)));
      }
      if Less(trial.metrics[0], best.metric) {
        if |trial.parameters| < 4 {
          return Err(BadTrial(MissingParameter(trial.id)));
        }
        best := Best(Some(trial.id), Some(trial.parameters[0]), Some(trial.parameters[1]),
          Some(trial.parameters[2]), Some(trial.parameters[3]), trial.metrics[0]);
      }
    }
    ScanSelectsFirstMinimum(trials);
    r := Ok(best.trialId);
  }
}
