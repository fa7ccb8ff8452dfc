/**
  The sweep launcher's helpers (run-sweeps.py): the copy-then-update of a YAML mapping,
  the one-letter flag names, the Chinchilla step count, the run name and the flattening
  of the job-submission dictionary into an argument list.
*/
module Sweeps {
  import opened Wrappers
  import opened PyDicts

  /** The Python values that appear in the sweep configurations and YAML files. */
  datatype PyValue = PyBool(b: bool) | PyInt(i: int) | PyStr(s: string)

  /** The exceptions the helpers can raise. */
  datatype PyError = KeyError(key: string) | TypeError | ZeroDivisionError | AssertionError(message: string)

  // ---------------------------------------------------------------------------
  // update_yaml_fields

  /**
    The mapping `update_yaml_fields` returns: the update items are assigned in order into
    a copy of the input, each only if new keys are allowed or the key is already there.
    The input is a value, so the deep copy leaves it untouched by construction.
  */
  function UpdatedFields<K, V>(yamlData: map<K, V>, updateDict: seq<(K, V)>, allowNewKeys: bool): map<K, V>
  {
    if updateDict == [] then yamlData
    else
      var before := UpdatedFields(yamlData, updateDict[..|updateDict| - 1], allowNewKeys);
      var item := updateDict[|updateDict| - 1];
      if allowNewKeys || item.0 in before then before[item.0 := item.1] else before
  }

  /**
    With new keys allowed the result has the input's keys and the update's; otherwise
    exactly the input's. Every key the update names holds the update's value, every
    other key keeps the input's value.
  */
  lemma {:induction false} UpdatedFieldsMeaning<K, V>(yamlData: map<K, V>, updateDict: seq<(K, V)>, allowNewKeys: bool)
    ensures var r := UpdatedFields(yamlData, updateDict, allowNewKeys);
      && (allowNewKeys ==> r.Keys == yamlData.Keys + KeysOf(updateDict))
      && (!allowNewKeys ==> r.Keys == yamlData.Keys)
      && (forall k :: k in r && k in KeysOf(updateDict) ==> k in DictOf(updateDict) && r[k] == DictOf(updateDict)[k])
      && (forall k :: k in r && k !in KeysOf(updateDict) ==> k in yamlData && r[k] == yamlData[k])
  {
    DictOfKeys(updateDict);
    if updateDict != [] {
      var init := updateDict[..|updateDict| - 1];
      var item := updateDict[|updateDict| - 1];
      UpdatedFieldsMeaning(yamlData, init, allowNewKeys);
      DictOfKeys(init);
      assert DictOf(updateDict) == DictOf(init)[item.0 := item.1];
    }
  }

  /** `update_yaml_fields(yaml_data, update_dict, allow_new_keys)`. */
  method UpdateYamlFields<K, V>(yamlData: map<K, V>, updateDict: seq<(K, V)>, allowNewKeys: bool)
    returns (yamlCopy: map<K, V>)
    ensures yamlCopy == UpdatedFields(yamlData, updateDict, allowNewKeys)
  {
    yamlCopy := yamlData;
    var i := 0;
    assert updateDict[..0] == [];
    while i < |updateDict|
      invariant 0 <= i <= |updateDict|
      invariant yamlCopy == UpdatedFields(yamlData, updateDict[..i], allowNewKeys)
    {
      var key, value := updateDict[i].0, updateDict[i].1;
      assert updateDict[..i + 1][..i] == updateDict[..i];
      if allowNewKeys || key in yamlCopy {
        yamlCopy := yamlCopy[key := value];
      }
      i := i + 1;
    }
    assert updateDict[..i] == updateDict;
  }

  /** Applying the same update twice is applying it once. */
  lemma UpdatedFieldsIdempotent<K, V>(yamlData: map<K, V>, updateDict: seq<(K, V)>, allowNewKeys: bool)
    ensures var once := UpdatedFields(yamlData, updateDict, allowNewKeys);
      UpdatedFields(once, updateDict, allowNewKeys) == once
  {
    var once := UpdatedFields(yamlData, updateDict, allowNewKeys);
    var twice := UpdatedFields(once, updateDict, allowNewKeys);
    UpdatedFieldsMeaning(yamlData, updateDict, allowNewKeys);
    UpdatedFieldsMeaning(once, updateDict, allowNewKeys);
    assert twice.Keys == once.Keys;
  }

  // ---------------------------------------------------------------------------
  // Python's str() and == on the values above

  function DigitChar(d: nat): (c: char)
    requires d < 10
    ensures '0' <= c <= '9' && (c == '0' <==> d == 0)
  {
    "0123456789"[d]
  }

  /** A string made only of decimal digits. */
  predicate AllDigits(s: string)
  {
    forall k :: 0 <= k < |s| ==> '0' <= s[k] <= '9'
  }

  /** The decimal digits of a natural number, most significant first. */
  function Digits(n: nat): (r: string)
    ensures |r| >= 1 && AllDigits(r)
    ensures n == 0 ==> r == "0"
    ensures n > 0 ==> r[0] != '0'
  {
    if n < 10 then [DigitChar(n)] else Digits(n / 10) + [DigitChar(n % 10)]
  }

  /** `str(i)` for a Python int. */
  function DecimalString(i: int): (r: string)
    ensures |r| >= 1
    ensures i >= 0 ==> AllDigits(r) && DigitsValue(r) == i
    ensures i == 0 ==> r == "0"
    ensures i > 0 ==> r[0] != '0'
    ensures i < 0 ==> r[0] == '-' && AllDigits(r[1..]) && DigitsValue(r[1..]) == -i
    ensures i < 0 ==> |r| >= 2 && r[1] != '0'
  {
    var ds := Digits(Abs(i));
    DigitsRoundTrip(Abs(i));
    if i < 0 then SignedDigits(ds); "-" + ds else ds
  }

  /** A minus sign followed by digits: the sign, then the digits again after it. */
  lemma SignedDigits(ds: string)
    ensures ("-" + ds)[0] == '-' && ("-" + ds)[1..] == ds
  {
  }

  /** The value a string of decimal digits denotes. */
  function DigitsValue(s: string): nat
    requires AllDigits(s)
  {
    if s == [] then 0 else DigitsValue(s[..|s| - 1]) * 10 + ((s[|s| - 1] as int) - ('0' as int))
  }

  /** Reading back the decimal digits of `n` gives `n`. */
  lemma {:induction false} DigitsRoundTrip(n: nat)
    ensures DigitsValue(Digits(n)) == n
  {
    if n >= 10 {
      var s := Digits(n);
      assert s[..|s| - 1] == Digits(n / 10);
      DigitsRoundTrip(n / 10);
    }
  }

  /** `str(v)`. */
  function PyStrOf(v: PyValue): string
  {
    match v
    case PyBool(b) => if b then "True" else "False"
    case PyInt(i) => DecimalString(i)
    case PyStr(s) => s
  }

  /** `v == b` for a Python bool `b`: a bool is the int 0 or 1, a string is never equal. */
  predicate PyEqualsBool(v: PyValue, b: bool)
  {
    match v
    case PyBool(c) => c == b
    case PyInt(i) => i == (if b then 1 else 0)
    case PyStr(_) => false
  }

  // ---------------------------------------------------------------------------
  // bname

  /**
    `bname(b)` as written: `assert b == True or b == False`, then the first character of
    `str(b)`. The assertion compares by value, so the ints 0 and 1 pass it.
  */
  function BnameAsWritten(v: PyValue): Result<string, PyError>
  {
    if PyEqualsBool(v, true) || PyEqualsBool(v, false) then Success(PyStrOf(v)[..1])
    else Failure(AssertionError(NotBoolMessage(v)))
  }

  /** The assertion's message, `not bool: "<str of the value>"`. */
  function NotBoolMessage(v: PyValue): string
  {
    "not bool: \"" + PyStrOf(v) + "\""
  }

  /** The ints 1 and 0 get through the check and come out as "1" and "0", not a letter. */
  lemma BnameAsWrittenAdmitsInts()
    ensures BnameAsWritten(PyInt(1)) == Success("1")
    ensures BnameAsWritten(PyInt(0)) == Success("0")
  {
    assert DigitChar(1) == '1' && DigitChar(0) == '0';
    assert PyStrOf(PyInt(1)) == "1" && "1"[..1] == "1";
    assert PyStrOf(PyInt(0)) == "0" && "0"[..1] == "0";
  }

  /** `bname` as its assertion message intends: a bool's initial, anything else rejected. */
  function Bname(v: PyValue): (r: Result<string, PyError>)
    ensures r.Success? <==> v.PyBool?
    ensures v.PyBool? ==> r.value == (if v.b then "T" else "F")
    ensures !v.PyBool? ==> r == Failure(AssertionError("not bool: \"" + PyStrOf(v) + "\""))
  {
    if v.PyBool? then Success(PyStrOf(v)[..1]) else Failure(AssertionError(NotBoolMessage(v)))
  }

  /** On a real bool the intended and the written `bname` agree. */
  lemma BnameAgreesOnBools(b: bool)
    ensures Bname(PyBool(b)) == BnameAsWritten(PyBool(b))
  {
  }

  // ---------------------------------------------------------------------------
  // calc_chinchilla_step_count

  /** `2 ** 30`, the "billion" of the step count. */
  const Billion: int := 0x4000_0000
  const ChipsPerSlice: int := 256
  const TokensPerParameter: int := 20

  function Abs(x: int): nat
  {
    if x < 0 then -x else x
  }

  /** `int(a / b)`: the exact quotient truncated toward zero. */
  function TruncDiv(a: int, b: int): (r: int)
    requires b != 0
    ensures r != 0 ==> ((r > 0) <==> ((a > 0) == (b > 0)))
  {
    var q := NatDiv(Abs(a), Abs(b));
    if (a >= 0) == (b > 0) then q else -q
  }

  /** Division of a natural number by a positive one, with its defining bounds. */
  function NatDiv(a: nat, b: nat): (q: int)
    requires b > 0
    ensures 0 <= q && q * b <= a < (q + 1) * b
  {
    DivBounds(a, b);
    a / b
  }

  /** The truncated quotient is the largest multiple of `b` in magnitude that fits in `a`. */
  lemma TruncDivBounds(a: int, b: int)
    requires b != 0
    ensures Abs(TruncDiv(a, b)) * Abs(b) <= Abs(a) < (Abs(TruncDiv(a, b)) + 1) * Abs(b)
  {
    var q := NatDiv(Abs(a), Abs(b));
    assert Abs(TruncDiv(a, b)) == q;
  }

  lemma DivBounds(a: nat, b: nat)
    requires b > 0
    ensures 0 <= a / b && (a / b) * b <= a < (a / b + 1) * b
  {
    var q, m := a / b, a % b;
    assert a == q * b + m && 0 <= m < b;
    assert (q + 1) * b == q * b + b;
  }

  /** A value used in arithmetic: a bool counts as 0 or 1, a string cannot be divided by. */
  function AsNumber(v: PyValue): Option<int>
  {
    match v
    case PyBool(b) => Some(if b then 1 else 0)
    case PyInt(i) => Some(i)
    case PyStr(_) => None
  }

  /** `calc_chinchilla_step_count(num_params_billions, num_slice, seqs_per_chip, tokens_per_seq)`. */
  function ChinchillaSteps(numParamsBillions: int, numSlice: PyValue, seqsPerChip: PyValue, tokensPerSeq: PyValue)
    : Result<int, PyError>
  {
    var neededTokens := numParamsBillions * Billion * TokensPerParameter;
    match (AsNumber(tokensPerSeq), AsNumber(seqsPerChip), AsNumber(numSlice))
    case (Some(t), Some(s), Some(n)) =>
      var tokensPerStep := t * s * ChipsPerSlice * n;
      if tokensPerStep == 0 then Failure(ZeroDivisionError) else Success(TruncDiv(neededTokens, tokensPerStep))
    case _ => Failure(TypeError)
  }

  /**
    For positive integers the step count is the floor of the needed tokens over the
    tokens of one step: the largest number of whole steps that do not exceed the budget.
  */
  lemma ChinchillaStepsPositive(numParamsBillions: int, numSlice: int, seqsPerChip: int, tokensPerSeq: int)
    requires numParamsBillions > 0 && numSlice > 0 && seqsPerChip > 0 && tokensPerSeq > 0
    ensures var needed := numParamsBillions * 0x4000_0000 * 20;
      var perStep := tokensPerSeq * seqsPerChip * 256 * numSlice;
      && perStep > 0
      && ChinchillaSteps(numParamsBillions, PyInt(numSlice), PyInt(seqsPerChip), PyInt(tokensPerSeq)) == Success(needed / perStep)
      && (needed / perStep) * perStep <= needed < (needed / perStep + 1) * perStep
  {
    var needed := numParamsBillions * 0x4000_0000 * 20;
    var perStep := tokensPerSeq * seqsPerChip * 256 * numSlice;
    assert needed > 0 by { PositiveProduct3(numParamsBillions, 0x4000_0000, 20); }
    assert perStep > 0 by {
      PositiveProduct3(tokensPerSeq, seqsPerChip, 256);
      assert perStep == (tokensPerSeq * seqsPerChip * 256) * numSlice;
    }
  }

  /**
    Whatever the signs, a computed step count is the truncated quotient: its magnitude
    is the number of whole steps' worth of tokens that fit in the budget's magnitude.
  */
  lemma ChinchillaStepsBounds(numParamsBillions: int, numSlice: PyValue, seqsPerChip: PyValue, tokensPerSeq: PyValue)
    requires ChinchillaSteps(numParamsBillions, numSlice, seqsPerChip, tokensPerSeq).Success?
    ensures var needed := numParamsBillions * Billion * TokensPerParameter;
      var perStep := AsNumber(tokensPerSeq).value * AsNumber(seqsPerChip).value * ChipsPerSlice * AsNumber(numSlice).value;
      var steps := ChinchillaSteps(numParamsBillions, numSlice, seqsPerChip, tokensPerSeq).value;
      && perStep != 0
      && steps == TruncDiv(needed, perStep)
      && Abs(steps) * Abs(perStep) <= Abs(needed) < (Abs(steps) + 1) * Abs(perStep)
  {
    var needed := numParamsBillions * Billion * TokensPerParameter;
    var perStep := AsNumber(tokensPerSeq).value * AsNumber(seqsPerChip).value * ChipsPerSlice * AsNumber(numSlice).value;
    TruncDivBounds(needed, perStep);
  }

  lemma PositiveProduct3(a: int, b: int, c: int)
    requires a > 0 && b > 0 && c > 0
    ensures a * b * c > 0
  {
    assert a * b > 0;
  }

  /** A string in the arithmetic raises a TypeError; a zero factor raises a ZeroDivisionError. */
  lemma ChinchillaStepsErrors(numParamsBillions: int, numSlice: PyValue, seqsPerChip: PyValue, tokensPerSeq: PyValue)
    ensures (numSlice.PyStr? || seqsPerChip.PyStr? || tokensPerSeq.PyStr?) ==>
      ChinchillaSteps(numParamsBillions, numSlice, seqsPerChip, tokensPerSeq) == Failure(TypeError)
    ensures (!numSlice.PyStr? && !seqsPerChip.PyStr? && !tokensPerSeq.PyStr?) ==>
      (ChinchillaSteps(numParamsBillions, numSlice, seqsPerChip, tokensPerSeq) == Failure(ZeroDivisionError) <==>
       (AsNumber(numSlice).value == 0 || AsNumber(seqsPerChip).value == 0 || AsNumber(tokensPerSeq).value == 0))
  {
    if !numSlice.PyStr? && !seqsPerChip.PyStr? && !tokensPerSeq.PyStr? {
      var t, s, n := AsNumber(tokensPerSeq).value, AsNumber(seqsPerChip).value, AsNumber(numSlice).value;
      assert t * s * ChipsPerSlice * n == 0 <==> (t == 0 || s == 0 || n == 0) by {
        ProductZero(t, s, n);
      }
    }
  }

  lemma ProductZero(t: int, s: int, n: int)
    ensures t * s * 256 * n == 0 <==> (t == 0 || s == 0 || n == 0)
  {
    if t != 0 && s != 0 {
      assert t * s != 0;
      assert t * s * 256 != 0;
    }
  }

  // ---------------------------------------------------------------------------
  // run names and the job plan of run_job

  /** `f'int8-{sweep_name}-a{attempt}-{run_name}'`. */
  function RunName(sweep: string, attempt: string, runName: string): string
  {
    "int8-" + sweep + "-a" + attempt + "-" + runName
  }

  /**
    Within one sweep and attempt the full name determines the experiment's run name:
    it is the full name with a fixed-length prefix removed.
  */
  lemma RunNameRecoversRunName(sweep: string, attempt: string, runName: string)
    ensures var full := RunName(sweep, attempt, runName);
      var prefix := |sweep| + |attempt| + 8;
      |full| == prefix + |runName| && full[..5] == "int8-" && full[prefix..] == runName
      && full[5..5 + |sweep|] == sweep && full[|sweep| + 7..prefix - 1] == attempt
  {
    var full := RunName(sweep, attempt, runName);
    assert full == "int8-" + sweep + "-a" + attempt + "-" + runName;
  }

  /** Two runs of one sweep and attempt have the same full name only if they have the same run name. */
  lemma RunNameInjective(sweep: string, attempt: string, a: string, b: string)
    requires RunName(sweep, attempt, a) == RunName(sweep, attempt, b)
    ensures a == b
  {
    RunNameRecoversRunName(sweep, attempt, a);
    RunNameRecoversRunName(sweep, attempt, b);
  }

  /** `f"MaxText/configs/{run_name}.yml"`. */
  function ExperimentYmlFile(runName: string): string
  {
    "MaxText/configs/" + runName + ".yml"
  }

  /** What `run_job` computes before it writes the YAML file and submits the job. */
  datatype JobPlan = JobPlan(yml: map<string, PyValue>, runName: string, ymlFile: string, steps: int, numSlice: PyValue)

  /**
    `run_job(run_name, maxtext_config, model_size=...)` with the base YAML already read
    and `args['sweep']`, `args['attempt']` given (lines 41-65).
  */
  function PlanJob(baseYml: map<string, PyValue>, maxtextConfig: seq<(string, PyValue)>, modelSize: int,
                   sweep: string, attempt: string, runName: string): Result<JobPlan, PyError>
  {
    var yml := UpdatedFields(baseYml, maxtextConfig, true);
    if "num_slice" !in yml then Failure(KeyError("num_slice"))
    else if "max_target_length" !in yml then Failure(KeyError("max_target_length"))
    else if "per_device_batch_size" !in yml then Failure(KeyError("per_device_batch_size"))
    else
      var lrSteps :- ChinchillaSteps(modelSize, yml["num_slice"], yml["per_device_batch_size"], yml["max_target_length"]);
      var fullName := RunName(sweep, attempt, runName);
      Success(JobPlan(JobYml(yml, modelSize, lrSteps, fullName), fullName, ExperimentYmlFile(fullName), lrSteps, yml["num_slice"]))
  }

  /** The two updates `run_job` makes after the sweep's own: scale and steps, then the run name. */
  function JobYml(yml: map<string, PyValue>, modelSize: int, lrSteps: int, fullName: string): map<string, PyValue>
  {
    var scaled := UpdatedFields(yml, [("global_parameter_scale", PyInt(modelSize)), ("steps", PyInt(lrSteps)),
                                      ("learning_rate_schedule_steps", PyInt(lrSteps))], true);
    UpdatedFields(scaled, [("run_name", PyStr(fullName))], true)
  }

  /** The four keys `run_job` sets itself. */
  const JobKeys: set<string> := {"global_parameter_scale", "steps", "learning_rate_schedule_steps", "run_name"}

  /**
    The written YAML has the base keys, the sweep's keys and the four job keys; the job
    keys hold the model size, the step count (twice) and the full run name; every other
    key holds the sweep's value if the sweep sets it and the base value otherwise.
  */
  lemma PlanJobContents(baseYml: map<string, PyValue>, maxtextConfig: seq<(string, PyValue)>, modelSize: int,
                        sweep: string, attempt: string, runName: string, plan: JobPlan)
    requires PlanJob(baseYml, maxtextConfig, modelSize, sweep, attempt, runName) == Success(plan)
    ensures plan.runName == RunName(sweep, attempt, runName)
    ensures plan.ymlFile == ExperimentYmlFile(plan.runName)
    ensures plan.yml.Keys == baseYml.Keys + DictOf(maxtextConfig).Keys + JobKeys
    ensures plan.yml["run_name"] == PyStr(plan.runName)
    ensures plan.yml["steps"] == PyInt(plan.steps) && plan.yml["learning_rate_schedule_steps"] == PyInt(plan.steps)
    ensures plan.yml["global_parameter_scale"] == PyInt(modelSize)
    ensures forall k :: k in DictOf(maxtextConfig) && k !in JobKeys ==> plan.yml[k] == DictOf(maxtextConfig)[k]
    ensures forall k :: k in baseYml && k !in DictOf(maxtextConfig) && k !in JobKeys ==> plan.yml[k] == baseYml[k]
    ensures var merged := UpdatedFields(baseYml, maxtextConfig, true);
      && "num_slice" in merged && "max_target_length" in merged && "per_device_batch_size" in merged
      && ChinchillaSteps(modelSize, merged["num_slice"], merged["per_device_batch_size"], merged["max_target_length"])
         == Success(plan.steps)
      && plan.numSlice == merged["num_slice"]
  {
    PlanJobShape(baseYml, maxtextConfig, modelSize, sweep, attempt, runName);
    MergedJobYmlContents(baseYml, maxtextConfig, modelSize, plan.steps, plan.runName);
  }

  /** The YAML of a job: the sweep's update over the base, then the job's own keys. */
  lemma MergedJobYmlContents(baseYml: map<string, PyValue>, maxtextConfig: seq<(string, PyValue)>, modelSize: int,
                             lrSteps: int, fullName: string)
    ensures var r := JobYml(UpdatedFields(baseYml, maxtextConfig, true), modelSize, lrSteps, fullName);
      && r.Keys == baseYml.Keys + DictOf(maxtextConfig).Keys + JobKeys
      && r["run_name"] == PyStr(fullName)
      && r["steps"] == PyInt(lrSteps) && r["learning_rate_schedule_steps"] == PyInt(lrSteps)
      && r["global_parameter_scale"] == PyInt(modelSize)
      && (forall k :: k in DictOf(maxtextConfig) && k !in JobKeys ==> r[k] == DictOf(maxtextConfig)[k])
      && (forall k :: k in baseYml && k !in DictOf(maxtextConfig) && k !in JobKeys ==> r[k] == baseYml[k])
  {
    var yml := UpdatedFields(baseYml, maxtextConfig, true);
    UpdatedFieldsMeaning(baseYml, maxtextConfig, true);
    DictOfKeys(maxtextConfig);
    JobYmlContents(yml, modelSize, lrSteps, fullName);
  }

  /** A successful plan is made of the merged YAML, its step count and the full run name. */
  lemma PlanJobShape(baseYml: map<string, PyValue>, maxtextConfig: seq<(string, PyValue)>, modelSize: int,
                     sweep: string, attempt: string, runName: string)
    requires PlanJob(baseYml, maxtextConfig, modelSize, sweep, attempt, runName).Success?
    ensures var plan := PlanJob(baseYml, maxtextConfig, modelSize, sweep, attempt, runName).value;
      && plan.runName == RunName(sweep, attempt, runName)
      && plan.ymlFile == ExperimentYmlFile(plan.runName)
      && plan.yml == JobYml(UpdatedFields(baseYml, maxtextConfig, true), modelSize, plan.steps, plan.runName)
    ensures var plan := PlanJob(baseYml, maxtextConfig, modelSize, sweep, attempt, runName).value;
      var merged := UpdatedFields(baseYml, maxtextConfig, true);
      && "num_slice" in merged && "max_target_length" in merged && "per_device_batch_size" in merged
      && ChinchillaSteps(modelSize, merged["num_slice"], merged["per_device_batch_size"], merged["max_target_length"])
         == Success(plan.steps)
      && plan.numSlice == merged["num_slice"]
  {
  }

  /** The base YAML or the sweep sets `key`. */
  predicate KeySet(baseYml: map<string, PyValue>, maxtextConfig: seq<(string, PyValue)>, key: string)
  {
    key in baseYml || key in KeysOf(maxtextConfig)
  }

  /**
    How `run_job` fails: a KeyError for the first of `num_slice`, `max_target_length` and
    `per_device_batch_size` that neither the base YAML nor the sweep sets, and otherwise
    whatever error the step count raises.
  */
  lemma PlanJobErrors(baseYml: map<string, PyValue>, maxtextConfig: seq<(string, PyValue)>, modelSize: int,
                      sweep: string, attempt: string, runName: string)
    ensures !KeySet(baseYml, maxtextConfig, "num_slice") ==>
      PlanJob(baseYml, maxtextConfig, modelSize, sweep, attempt, runName) == Failure(KeyError("num_slice"))
    ensures (KeySet(baseYml, maxtextConfig, "num_slice") && !KeySet(baseYml, maxtextConfig, "max_target_length")) ==>
      PlanJob(baseYml, maxtextConfig, modelSize, sweep, attempt, runName) == Failure(KeyError("max_target_length"))
    ensures (&& KeySet(baseYml, maxtextConfig, "num_slice") && KeySet(baseYml, maxtextConfig, "max_target_length")
             && !KeySet(baseYml, maxtextConfig, "per_device_batch_size")) ==>
      PlanJob(baseYml, maxtextConfig, modelSize, sweep, attempt, runName) == Failure(KeyError("per_device_batch_size"))
    ensures var merged := UpdatedFields(baseYml, maxtextConfig, true);
      ("num_slice" in merged && "max_target_length" in merged && "per_device_batch_size" in merged
       && ChinchillaSteps(modelSize, merged["num_slice"], merged["per_device_batch_size"], merged["max_target_length"]).Failure?) ==>
      PlanJob(baseYml, maxtextConfig, modelSize, sweep, attempt, runName)
        == Failure(ChinchillaSteps(modelSize, merged["num_slice"], merged["per_device_batch_size"], merged["max_target_length"]).error)
  {
    UpdatedFieldsMeaning(baseYml, maxtextConfig, true);
  }

  lemma JobYmlContents(yml: map<string, PyValue>, modelSize: int, lrSteps: int, fullName: string)
    ensures var r := JobYml(yml, modelSize, lrSteps, fullName);
      && r.Keys == yml.Keys + JobKeys
      && r["run_name"] == PyStr(fullName)
      && r["steps"] == PyInt(lrSteps) && r["learning_rate_schedule_steps"] == PyInt(lrSteps)
      && r["global_parameter_scale"] == PyInt(modelSize)
      && (forall k :: k in yml && k !in JobKeys ==> r[k] == yml[k])
  {
    var scaledUpdate := [("global_parameter_scale", PyInt(modelSize)), ("steps", PyInt(lrSteps)),
                         ("learning_rate_schedule_steps", PyInt(lrSteps))];
    var nameUpdate := [("run_name", PyStr(fullName))];
    var scaled := UpdatedFields(yml, scaledUpdate, true);
    assert DictOf(scaledUpdate) == map["global_parameter_scale" := PyInt(modelSize), "steps" := PyInt(lrSteps),
                                       "learning_rate_schedule_steps" := PyInt(lrSteps)] by {
      assert scaledUpdate[..1][..0] == [];
      assert DictOf(scaledUpdate[..1]) == map["global_parameter_scale" := PyInt(modelSize)];
      assert scaledUpdate[..2][..1] == scaledUpdate[..1];
      assert DictOf(scaledUpdate[..2]) == DictOf(scaledUpdate[..1])["steps" := PyInt(lrSteps)];
      assert DictOf(scaledUpdate) == DictOf(scaledUpdate[..2])["learning_rate_schedule_steps" := PyInt(lrSteps)];
    }
    assert DictOf(nameUpdate) == map["run_name" := PyStr(fullName)] by {
      assert nameUpdate[..0] == [];
    }
    UpdatedFieldsMeaning(yml, scaledUpdate, true);
    UpdatedFieldsMeaning(scaled, nameUpdate, true);
    DictOfKeys(scaledUpdate);
    DictOfKeys(nameUpdate);
  }

  // ---------------------------------------------------------------------------
  // the job-submission arguments

  /**
    The job-submission dictionary of `run_job`, in insertion order. `baseMhjCmd` is the
    fixed shell prefix of the training command.
  */
  function ExperimentMhj(runName: string, numSlice: PyValue, baseMhjCmd: string, ymlFile: string)
    : (d: seq<(string, PyValue)>)
    ensures DistinctKeys(d) && |d| == 8 && d[0] == ("--RUN_NAME", PyStr(runName))
  {
    [("--RUN_NAME", PyStr(runName)),
     ("--BUCKET_NAME", PyStr("mattdavidow-maxtext-br")),
     ("--NUM_SLICE", numSlice),
     ("--TPU_TYPE", PyStr("v5litepod-256")),
     ("--VERSION", PyStr("v2-alpha-tpuv5-lite")),
     ("--PROJECT", PyStr("tpu-prod-env-multipod")),
     ("--ZONE", PyStr("us-east5-b")),
     ("--COMMAND", PyStr(baseMhjCmd + ymlFile))]
  }

  /** Reads an argument list back as (flag, value) pairs. */
  function ArgPairs(args: seq<string>): (r: seq<(string, string)>)
    requires |args| % 2 == 0
    ensures |r| == |args| / 2
    ensures forall i :: 0 <= i < |r| ==> r[i] == (args[2 * i], args[2 * i + 1])
  {
    seq(|args| / 2, i requires 0 <= i < |args| / 2 => (args[2 * i], args[2 * i + 1]))
  }

  /**
    The `mhj_args` loop: for each key in insertion order, the key and then `str` of its
    value looked up in the dictionary; reading the list back as pairs gives the items.
  */
  method MhjArgs(experimentMhj: seq<(string, PyValue)>) returns (mhjArgs: seq<string>)
    requires DistinctKeys(experimentMhj)
    ensures |mhjArgs| == 2 * |experimentMhj|
    ensures forall i :: 0 <= i < |experimentMhj| ==>
      mhjArgs[2 * i] == experimentMhj[i].0 && mhjArgs[2 * i + 1] == PyStrOf(experimentMhj[i].1)
    ensures ArgPairs(mhjArgs) == seq(|experimentMhj|, i requires 0 <= i < |experimentMhj| =>
                                       (experimentMhj[i].0, PyStrOf(experimentMhj[i].1)))
  {
    var d := DictOf(experimentMhj);
    mhjArgs := [];
    var i := 0;
    while i < |experimentMhj|
      invariant 0 <= i <= |experimentMhj|
      invariant |mhjArgs| == 2 * i
      invariant forall j :: 0 <= j < i ==>
        mhjArgs[2 * j] == experimentMhj[j].0 && mhjArgs[2 * j + 1] == PyStrOf(experimentMhj[j].1)
    {
      var key := experimentMhj[i].0;
      DictOfLastWins(experimentMhj, i);
      mhjArgs := mhjArgs + [key];
      mhjArgs := mhjArgs + [PyStrOf(d[key])];
      i := i + 1;
    }
  }

  /** The launcher's full argument list, flag by flag, for a run name, slice count and command. */
  function LauncherArgs(runName: string, numSlice: string, command: string): seq<string>
  {
    ["--RUN_NAME", runName,
     "--BUCKET_NAME", "mattdavidow-maxtext-br",
     "--NUM_SLICE", numSlice,
     "--TPU_TYPE", "v5litepod-256",
     "--VERSION", "v2-alpha-tpuv5-lite",
     "--PROJECT", "tpu-prod-env-multipod",
     "--ZONE", "us-east5-b",
     "--COMMAND", command]
  }

  /**
    The argument list `run_job` hands to the job launcher for a plan: its dictionary has
    eight entries, and the list is each flag followed by `str` of its value, in the
    dictionary's insertion order.
  */
  method RunJobArgs(plan: JobPlan, baseMhjCmd: string) returns (mhjArgs: seq<string>)
    ensures |DictOf(ExperimentMhj(plan.runName, plan.numSlice, baseMhjCmd, plan.ymlFile))| == 8
    ensures mhjArgs == LauncherArgs(plan.runName, PyStrOf(plan.numSlice), baseMhjCmd + plan.ymlFile)
  {
    var experimentMhj := ExperimentMhj(plan.runName, plan.numSlice, baseMhjCmd, plan.ymlFile);
    DictOfSizeDistinct(experimentMhj);
    mhjArgs := MhjArgs(experimentMhj);
    assert mhjArgs[2 * 0] == experimentMhj[0].0 && mhjArgs[2 * 0 + 1] == PyStrOf(experimentMhj[0].1);
    assert mhjArgs[2 * 1] == experimentMhj[1].0 && mhjArgs[2 * 1 + 1] == PyStrOf(experimentMhj[1].1);
    assert mhjArgs[2 * 2] == experimentMhj[2].0 && mhjArgs[2 * 2 + 1] == PyStrOf(experimentMhj[2].1);
    assert mhjArgs[2 * 3] == experimentMhj[3].0 && mhjArgs[2 * 3 + 1] == PyStrOf(experimentMhj[3].1);
    assert mhjArgs[2 * 4] == experimentMhj[4].0 && mhjArgs[2 * 4 + 1] == PyStrOf(experimentMhj[4].1);
    assert mhjArgs[2 * 5] == experimentMhj[5].0 && mhjArgs[2 * 5 + 1] == PyStrOf(experimentMhj[5].1);
    assert mhjArgs[2 * 6] == experimentMhj[6].0 && mhjArgs[2 * 6 + 1] == PyStrOf(experimentMhj[6].1);
    assert mhjArgs[2 * 7] == experimentMhj[7].0 && mhjArgs[2 * 7 + 1] == PyStrOf(experimentMhj[7].1);
  }

  /**
    `run_job` from the base YAML to the launcher's arguments: it fails as the plan fails;
    otherwise the arguments are the launcher's eight flags with the full run name, `str` of
    the merged `num_slice` and the training command for `MaxText/configs/<full name>.yml`.
  */
  method RunJob(baseYml: map<string, PyValue>, maxtextConfig: seq<(string, PyValue)>, modelSize: int,
                sweep: string, attempt: string, runName: string, baseMhjCmd: string)
    returns (r: Result<seq<string>, PyError>)
    ensures PlanJob(baseYml, maxtextConfig, modelSize, sweep, attempt, runName).Failure? ==>
      r == Failure(PlanJob(baseYml, maxtextConfig, modelSize, sweep, attempt, runName).error)
    ensures PlanJob(baseYml, maxtextConfig, modelSize, sweep, attempt, runName).Success? ==>
      var merged := UpdatedFields(baseYml, maxtextConfig, true);
      var fullName := RunName(sweep, attempt, runName);
      && "num_slice" in merged
      && r == Success(LauncherArgs(fullName, PyStrOf(merged["num_slice"]), baseMhjCmd + ExperimentYmlFile(fullName)))
  {
    var planned := PlanJob(baseYml, maxtextConfig, modelSize, sweep, attempt, runName);
    if planned.Failure? {
      return Failure(planned.error);
    }
    var plan := planned.value;
    PlanJobContents(baseYml, maxtextConfig, modelSize, sweep, attempt, runName, plan);
    var mhjArgs := RunJobArgs(plan, baseMhjCmd);
    return Success(mhjArgs);
  }
}
