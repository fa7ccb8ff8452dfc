/**
  The MaxText-to-HuggingFace export driver (MaxText/utils/ckpt_conversion/to_huggingface.py):
  a fail-closed lookup of the per-architecture mapping triple, the checks `main` makes
  before touching any weight, the accumulation of the per-leaf outputs and the
  last-one-wins dictionary that is handed to the bundle writer unless it is empty.
*/
module HuggingFaceExport {
  import opened Wrappers
  import opened PyTree
  import opened PyDicts

  /**
    The three registration tables, keyed by model name. Each entry builds that model's
    table from the HuggingFace config dictionary `C` (and the stacked-layers flag; the
    hook builder also takes `saving_to_hf`).
  */
  datatype Registry<!C, PM, SM, HM> = Registry(
    paramMapping: map<string, (C, bool) -> PM>,
    shapeMapping: map<string, C -> SM>,
    hookFns: map<string, (C, bool, bool) -> HM>)

  /** The dictionary `_get_model_mappings` returns, with its three entries. */
  datatype Mappings<PM, SM, HM> = Mappings(paramMapping: PM, shapeMapping: SM, hookFnMapping: HM)

  /** The exceptions the driver raises, one per check. */
  datatype ExportError =
    | FullStateGiven                     // the assertion on `load_full_state_path`
    | HfConfigNotFound(modelKey: string)
    | TokenizerIdNotFound(modelKey: string)
    | MappingsNotFound(modelName: string)
    | MissingParamsKey
    | LeafFailed(reason: string)         // raised inside `process_leaf_param`

  /** The parsed configuration values the driver reads. */
  datatype ExportConfig = ExportConfig(
    loadFullStatePath: string, baseOutputDirectory: string, modelName: string, scanLayers: bool)

  /**
    Everything the driver calls but does not define: the config objects `HF_MODEL_CONFIGS`
    (with their `to_dict`), the tokenizer ids `HF_IDS`, the mapping registry, and
    `process_leaf_param`, which turns one leaf into named output arrays or raises.
  */
  datatype ExportEnv<!P, W, !HC, !C, !PM, !SM, !HM> = ExportEnv(
    hfModelConfigs: map<string, HC>,
    toDict: HC -> C,
    hfIds: map<string, string>,
    registry: Registry<C, PM, SM, HM>,
    processLeaf: (Path, Tensor<P>, PM, SM, HM, ExportConfig) -> Result<seq<(string, W)>, string>)

  /** `_get_model_mappings(model_name, scan_layers, config_dict)`. */
  function GetModelMappings<C, PM, SM, HM>(registry: Registry<C, PM, SM, HM>, modelName: string, scanLayers: bool, configDict: C)
    : (r: Result<Mappings<PM, SM, HM>, ExportError>)
    ensures r.Success? <==>
      modelName in registry.paramMapping && modelName in registry.shapeMapping && modelName in registry.hookFns
    ensures r.Failure? ==> r.error == MappingsNotFound(modelName)
    ensures r.Success? ==>
      && r.value.paramMapping == registry.paramMapping[modelName](configDict, scanLayers)
      && r.value.shapeMapping == registry.shapeMapping[modelName](configDict)
      && r.value.hookFnMapping == registry.hookFns[modelName](configDict, scanLayers, true)
  {
    if modelName !in registry.paramMapping || modelName !in registry.shapeMapping || modelName !in registry.hookFns then
      Failure(MappingsNotFound(modelName))
    else
      Success(Mappings(
        registry.paramMapping[modelName](configDict, scanLayers),
        registry.shapeMapping[modelName](configDict),
        registry.hookFns[modelName](configDict, scanLayers, true)))
  }

  /** `s.rstrip('/')`. */
  function RStripSlashes(s: string): (r: string)
    ensures |r| <= |s| && r == s[..|r|]
    ensures r == [] || r[|r| - 1] != '/'
    ensures forall k :: |r| <= k < |s| ==> s[k] == '/'
  {
    if s != [] && s[|s| - 1] == '/' then RStripSlashes(s[..|s| - 1]) else s
  }

  /** `os.path.expanduser("~/.hf_output/")` with the home directory `home`. */
  function DefaultOutputDirectory(home: string): (r: string)
    ensures |r| >= 12 && r[|r| - 12..] == "/.hf_output/"
    ensures var base := r[..|r| - 12]; base == RStripSlashes(home) && (base == [] || base[|base| - 1] != '/')
  {
    RStripSlashes(home) + "/.hf_output/"
  }

  /** The output directory: the configured one, or the default when it is empty. */
  function OutputDirectory(baseOutputDirectory: string, home: string): string
  {
    if baseOutputDirectory == "" then DefaultOutputDirectory(home) else baseOutputDirectory
  }

  /**
    The `for` loop over the leaves: each leaf's outputs are appended in turn; the first
    leaf whose processing raises ends the run with that error.
  */
  function ProcessLeaves<P, W, HC, C, PM, SM, HM>(
    env: ExportEnv<P, W, HC, C, PM, SM, HM>, leaves: seq<(Path, Tensor<P>)>, m: Mappings<PM, SM, HM>, config: ExportConfig)
    : Result<seq<(string, W)>, ExportError>
  {
    if leaves == [] then Success([])
    else
      match ProcessLeaves(env, leaves[..|leaves| - 1], m, config)
      case Failure(e) => Failure(e)
      case Success(acc) =>
        var last := leaves[|leaves| - 1];
        match env.processLeaf(last.0, last.1, m.paramMapping, m.shapeMapping, m.hookFnMapping, config)
        case Failure(reason) => Failure(LeafFailed(reason))
        case Success(out) => Success(acc + out)
  }

  /** How the driver ends. */
  datatype ExportOutcome<HC, W> =
    | SaveModelFiles(weights: map<string, W>, hfConfig: HC, tokenizerId: string, outputDirectory: string)
    | NothingTransformed   // prints an error and returns without writing
    | Failed(error: ExportError)

  /** What `main` does, from the parsed config and the loaded parameters (lines 63-126). */
  function ExportPlan<P, W, HC, C, PM, SM, HM>(
    env: ExportEnv<P, W, HC, C, PM, SM, HM>, config: ExportConfig, loaded: map<string, Tree<P>>, home: string)
    : ExportOutcome<HC, W>
  {
    if config.loadFullStatePath != "" then Failed(FullStateGiven)
    else
      var outputDirectory := OutputDirectory(config.baseOutputDirectory, home);
      var modelKey := config.modelName;
      if modelKey !in env.hfModelConfigs then Failed(HfConfigNotFound(modelKey))
      else
        var hfConfig := env.hfModelConfigs[modelKey];
        if modelKey !in env.hfIds then Failed(TokenizerIdNotFound(modelKey))
        else
          var tokenizerId := env.hfIds[modelKey];
          match GetModelMappings(env.registry, modelKey, config.scanLayers, env.toDict(hfConfig))
          case Failure(e) => Failed(e)
          case Success(m) =>
            if "params" !in loaded then Failed(MissingParamsKey)
            else
              match ProcessLeaves(env, Leaves(loaded["params"]), m, config)
              case Failure(e) => Failed(e)
              case Success(processed) =>
                var weights := DictOf(processed);
                if weights == map[] then NothingTransformed
                else SaveModelFiles(weights, hfConfig, tokenizerId, outputDirectory)
  }

  /** Once a prefix of the leaves fails, the whole loop fails with the same error. */
  lemma {:induction false} ProcessLeavesFailureSticks<P, W, HC, C, PM, SM, HM>(
    env: ExportEnv<P, W, HC, C, PM, SM, HM>, leaves: seq<(Path, Tensor<P>)>, k: nat, m: Mappings<PM, SM, HM>, config: ExportConfig)
    requires k <= |leaves| && ProcessLeaves(env, leaves[..k], m, config).Failure?
    ensures ProcessLeaves(env, leaves, m, config) == ProcessLeaves(env, leaves[..k], m, config)
  {
    if k < |leaves| {
      var init := leaves[..|leaves| - 1];
      assert init[..k] == leaves[..k];
      ProcessLeavesFailureSticks(env, init, k, m, config);
    } else {
      assert leaves[..k] == leaves;
    }
  }

  /** The per-leaf results, assuming none raises. */
  function LeafOutputs<P, W, HC, C, PM, SM, HM>(
    env: ExportEnv<P, W, HC, C, PM, SM, HM>, leaves: seq<(Path, Tensor<P>)>, m: Mappings<PM, SM, HM>, config: ExportConfig)
    : seq<seq<(string, W)>>
    requires forall i :: 0 <= i < |leaves| ==>
      env.processLeaf(leaves[i].0, leaves[i].1, m.paramMapping, m.shapeMapping, m.hookFnMapping, config).Success?
  {
    seq(|leaves|, i requires 0 <= i < |leaves| =>
      env.processLeaf(leaves[i].0, leaves[i].1, m.paramMapping, m.shapeMapping, m.hookFnMapping, config).value)
  }

  /**
    The loop succeeds iff no leaf raises, and then its list is the in-order concatenation
    of the leaves' outputs.
  */
  lemma {:induction false} ProcessLeavesConcatenates<P, W, HC, C, PM, SM, HM>(
    env: ExportEnv<P, W, HC, C, PM, SM, HM>, leaves: seq<(Path, Tensor<P>)>, m: Mappings<PM, SM, HM>, config: ExportConfig)
    ensures ProcessLeaves(env, leaves, m, config).Success? <==>
      forall i :: 0 <= i < |leaves| ==>
        env.processLeaf(leaves[i].0, leaves[i].1, m.paramMapping, m.shapeMapping, m.hookFnMapping, config).Success?
    ensures ProcessLeaves(env, leaves, m, config).Success? ==>
      ProcessLeaves(env, leaves, m, config).value == Concat(LeafOutputs(env, leaves, m, config))
  {
    if leaves != [] {
      var init := leaves[..|leaves| - 1];
      ProcessLeavesConcatenates(env, init, m, config);
      forall i | 0 <= i < |init| ensures init[i] == leaves[i] { }
      if ProcessLeaves(env, leaves, m, config).Success? {
        assert LeafOutputs(env, leaves, m, config)[..|init|] == LeafOutputs(env, init, m, config);
      }
    }
  }

  /**
    The checks run in the source's order and each fails before anything after it is
    looked at: the result depends only on the inputs checked so far.
  */
  lemma ExportFailsClosed<P, W, HC, C, PM, SM, HM>(
    env: ExportEnv<P, W, HC, C, PM, SM, HM>, config: ExportConfig, loaded: map<string, Tree<P>>, home: string)
    ensures config.loadFullStatePath != "" ==> ExportPlan(env, config, loaded, home) == Failed(FullStateGiven)
    ensures config.loadFullStatePath == "" && config.modelName !in env.hfModelConfigs ==>
      ExportPlan(env, config, loaded, home) == Failed(HfConfigNotFound(config.modelName))
    ensures config.loadFullStatePath == "" && config.modelName in env.hfModelConfigs && config.modelName !in env.hfIds ==>
      ExportPlan(env, config, loaded, home) == Failed(TokenizerIdNotFound(config.modelName))
    ensures (&& config.loadFullStatePath == "" && config.modelName in env.hfModelConfigs && config.modelName in env.hfIds
             && GetModelMappings(env.registry, config.modelName, config.scanLayers, env.toDict(env.hfModelConfigs[config.modelName])).Failure?) ==>
      ExportPlan(env, config, loaded, home) == Failed(MappingsNotFound(config.modelName))
    ensures (&& config.loadFullStatePath == "" && config.modelName in env.hfModelConfigs && config.modelName in env.hfIds
             && GetModelMappings(env.registry, config.modelName, config.scanLayers, env.toDict(env.hfModelConfigs[config.modelName])).Success?
             && "params" !in loaded) ==>
      ExportPlan(env, config, loaded, home) == Failed(MissingParamsKey)
  {
  }

  /** The first leaf whose processing raises ends the loop, with that leaf's reason. */
  lemma {:induction false} ProcessLeavesFirstFailure<P, W, HC, C, PM, SM, HM>(
    env: ExportEnv<P, W, HC, C, PM, SM, HM>, leaves: seq<(Path, Tensor<P>)>, m: Mappings<PM, SM, HM>, config: ExportConfig)
    requires ProcessLeaves(env, leaves, m, config).Failure?
    ensures exists i ::
      && 0 <= i < |leaves|
      && env.processLeaf(leaves[i].0, leaves[i].1, m.paramMapping, m.shapeMapping, m.hookFnMapping, config).Failure?
      && (forall j :: 0 <= j < i ==>
            env.processLeaf(leaves[j].0, leaves[j].1, m.paramMapping, m.shapeMapping, m.hookFnMapping, config).Success?)
      && ProcessLeaves(env, leaves, m, config).error
         == LeafFailed(env.processLeaf(leaves[i].0, leaves[i].1, m.paramMapping, m.shapeMapping, m.hookFnMapping, config).error)
  {
    var init := leaves[..|leaves| - 1];
    forall j | 0 <= j < |init| ensures init[j] == leaves[j] { }
    if ProcessLeaves(env, init, m, config).Failure? {
      ProcessLeavesFirstFailure(env, init, m, config);
    } else {
      ProcessLeavesConcatenates(env, init, m, config);
      var i := |leaves| - 1;
      assert env.processLeaf(leaves[i].0, leaves[i].1, m.paramMapping, m.shapeMapping, m.hookFnMapping, config).Failure?;
    }
  }

  /** The driver got past every check on its inputs and reached the leaf loop. */
  ghost predicate InputChecksPass<P, W, HC, C, PM, SM, HM>(
    env: ExportEnv<P, W, HC, C, PM, SM, HM>, config: ExportConfig, loaded: map<string, Tree<P>>)
  {
    && config.loadFullStatePath == ""
    && config.modelName in env.hfModelConfigs && config.modelName in env.hfIds
    && GetModelMappings(env.registry, config.modelName, config.scanLayers, env.toDict(env.hfModelConfigs[config.modelName])).Success?
    && "params" in loaded
  }

  /** What the leaf loop yields on the loaded parameters, once the input checks passed. */
  ghost function LeafLoop<P, W, HC, C, PM, SM, HM>(
    env: ExportEnv<P, W, HC, C, PM, SM, HM>, config: ExportConfig, loaded: map<string, Tree<P>>)
    : Result<seq<(string, W)>, ExportError>
    requires InputChecksPass(env, config, loaded)
  {
    var mappings := GetModelMappings(env.registry, config.modelName, config.scanLayers, env.toDict(env.hfModelConfigs[config.modelName]));
    ProcessLeaves(env, Leaves(loaded["params"]), mappings.value, config)
  }

  /** Past the input checks, a leaf that raises ends the driver with that leaf's error. */
  lemma ExportLeafFailure<P, W, HC, C, PM, SM, HM>(
    env: ExportEnv<P, W, HC, C, PM, SM, HM>, config: ExportConfig, loaded: map<string, Tree<P>>, home: string)
    requires InputChecksPass(env, config, loaded) && LeafLoop(env, config, loaded).Failure?
    ensures ExportPlan(env, config, loaded, home) == Failed(LeafLoop(env, config, loaded).error)
    ensures LeafLoop(env, config, loaded).error.LeafFailed?
  {
    var mappings := GetModelMappings(env.registry, config.modelName, config.scanLayers, env.toDict(env.hfModelConfigs[config.modelName]));
    ProcessLeavesFirstFailure(env, Leaves(loaded["params"]), mappings.value, config);
  }

  /** The driver got past every check and every leaf was processed without raising. */
  ghost predicate AllChecksPass<P, W, HC, C, PM, SM, HM>(
    env: ExportEnv<P, W, HC, C, PM, SM, HM>, config: ExportConfig, loaded: map<string, Tree<P>>)
  {
    InputChecksPass(env, config, loaded) && LeafLoop(env, config, loaded).Success?
  }

  /** The list the loop built, when every check passed. */
  ghost function ProcessedList<P, W, HC, C, PM, SM, HM>(
    env: ExportEnv<P, W, HC, C, PM, SM, HM>, config: ExportConfig, loaded: map<string, Tree<P>>)
    : seq<(string, W)>
    requires AllChecksPass(env, config, loaded)
  {
    LeafLoop(env, config, loaded).value
  }

  /**
    Past the checks, the writer is called iff the list is non-empty, with the dictionary of
    the list (exactly the list's names, no more of them than list entries), the model's
    config object and tokenizer id, and the output directory; otherwise nothing is written.
  */
  lemma ExportWritesLastWinsDictionary<P, W, HC, C, PM, SM, HM>(
    env: ExportEnv<P, W, HC, C, PM, SM, HM>, config: ExportConfig, loaded: map<string, Tree<P>>, home: string)
    requires AllChecksPass(env, config, loaded)
    ensures var processed := ProcessedList(env, config, loaded);
      var outcome := ExportPlan(env, config, loaded, home);
      && (outcome.NothingTransformed? <==> processed == [])
      && (outcome.SaveModelFiles? <==> processed != [])
      && (outcome.SaveModelFiles? ==>
            && outcome.weights == DictOf(processed)
            && outcome.weights.Keys == KeysOf(processed)
            && |outcome.weights| <= |processed|
            && outcome.hfConfig == env.hfModelConfigs[config.modelName]
            && outcome.tokenizerId == env.hfIds[config.modelName]
            && outcome.outputDirectory == OutputDirectory(config.baseOutputDirectory, home))
  {
    var processed := ProcessedList(env, config, loaded);
    DictOfEmpty(processed);
    DictOfKeys(processed);
    DictOfSize(processed);
  }

  /** Every exported name carries the array of its last occurrence in the accumulated list. */
  lemma ExportedValueIsLastOccurrence<P, W, HC, C, PM, SM, HM>(
    env: ExportEnv<P, W, HC, C, PM, SM, HM>, config: ExportConfig, loaded: map<string, Tree<P>>, home: string, i: int)
    requires AllChecksPass(env, config, loaded)
    requires 0 <= i < |ProcessedList(env, config, loaded)| && IsLastOccurrence(ProcessedList(env, config, loaded), i)
    ensures var processed := ProcessedList(env, config, loaded);
      var outcome := ExportPlan(env, config, loaded, home);
      outcome.SaveModelFiles? && processed[i].0 in outcome.weights && outcome.weights[processed[i].0] == processed[i].1
  {
    var processed := ProcessedList(env, config, loaded);
    DictOfLastWins(processed, i);
    DictOfEmpty(processed);
  }

  /** Conversely, every exported name and array come from the last entry with that name. */
  lemma ExportedValueHasSource<P, W, HC, C, PM, SM, HM>(
    env: ExportEnv<P, W, HC, C, PM, SM, HM>, config: ExportConfig, loaded: map<string, Tree<P>>, home: string, name: string)
    requires AllChecksPass(env, config, loaded)
    requires ExportPlan(env, config, loaded, home).SaveModelFiles? && name in ExportPlan(env, config, loaded, home).weights
    ensures var processed := ProcessedList(env, config, loaded);
      exists i :: 0 <= i < |processed| && processed[i].0 == name && IsLastOccurrence(processed, i)
                  && ExportPlan(env, config, loaded, home).weights[name] == processed[i].1
  {
    DictOfValueSource(ProcessedList(env, config, loaded), name);
  }

  /**
    The `for` loop of `main`: `processed_params_list.extend(...)` with each leaf's outputs,
    stopping at the first leaf whose processing raises.
  */
  method AccumulateLeaves<P, W, HC, C, PM, SM, HM>(
    env: ExportEnv<P, W, HC, C, PM, SM, HM>, leaves: seq<(Path, Tensor<P>)>, m: Mappings<PM, SM, HM>, config: ExportConfig)
    returns (r: Result<seq<(string, W)>, ExportError>)
    ensures r == ProcessLeaves(env, leaves, m, config)
  {
    var processed: seq<(string, W)> := [];
    var i := 0;
    while i < |leaves|
      invariant 0 <= i <= |leaves|
      invariant ProcessLeaves(env, leaves[..i], m, config) == Success(processed)
    {
      var out := env.processLeaf(leaves[i].0, leaves[i].1, m.paramMapping, m.shapeMapping, m.hookFnMapping, config);
      assert leaves[..i + 1][..i] == leaves[..i];
      if out.Failure? {
        ProcessLeavesFailureSticks(env, leaves, i + 1, m, config);
        return Failure(LeafFailed(out.error));
      }
      processed := processed + out.value;
      i := i + 1;
    }
    assert leaves[..i] == leaves;
    return Success(processed);
  }

  /** `main` itself: the checks, the leaf loop, then the dictionary and the empty check. */
  method Export<P, W, HC, C, PM, SM, HM>(
    env: ExportEnv<P, W, HC, C, PM, SM, HM>, config: ExportConfig, loaded: map<string, Tree<P>>, home: string)
    returns (outcome: ExportOutcome<HC, W>)
    ensures outcome == ExportPlan(env, config, loaded, home)
  {
    if config.loadFullStatePath != "" {
      return Failed(FullStateGiven);
    }
    var outputDirectory := if config.baseOutputDirectory == "" then DefaultOutputDirectory(home)
                           else config.baseOutputDirectory;
    var modelKey := config.modelName;
    if modelKey !in env.hfModelConfigs {
      return Failed(HfConfigNotFound(modelKey));
    }
    var hfConfig := env.hfModelConfigs[modelKey];
    if modelKey !in env.hfIds {
      return Failed(TokenizerIdNotFound(modelKey));
    }
    var tokenizerId := env.hfIds[modelKey];
    var mappings := GetModelMappings(env.registry, modelKey, config.scanLayers, env.toDict(hfConfig));
    if mappings.Failure? {
      return Failed(mappings.error);
    }
    var m := mappings.value;
    if "params" !in loaded {
      return Failed(MissingParamsKey);
    }
    var accumulated := AccumulateLeaves(env, Leaves(loaded["params"]), m, config);
    if accumulated.Failure? {
      return Failed(accumulated.error);
    }
    var weights := DictOf(accumulated.value);
    if weights == map[] {
      return NothingTransformed;
    }
    return SaveModelFiles(weights, hfConfig, tokenizerId, outputDirectory);
  }
}
