# Checkpoint conversion core, modelled in Dafny

This project models the three sequential pieces of a model-checkpoint conversion tool and proves properties about them.

- **Precision narrowing and the parameter count** (`MaxText/convert_checkpoint.py`).
  - A parameter pytree is a recursive datatype. Its leaves are tensors carrying a dtype tag, an element count and an abstract payload.
  - `to_int8` retags every float32 leaf as int8 and leaves every other leaf alone.
  - `calculate_num_params_from_pytree` folds the leaf sizes with `+`.
- **The inference-checkpoint protocol** (`convert_checkpoint`).
  - It builds a step-0 train state with no optimizer and an empty optimizer state.
  - It then saves that state through a checkpoint manager. When preemption is reported, it drains the manager and exits.
  - The manager is a class with its own state (its save policy, its synchronous or asynchronous mode, in-flight and durable checkpoints, the preemption signal) and a ghost trace of the calls made on it.
- **The HuggingFace export driver** (`MaxText/utils/ckpt_conversion/to_huggingface.py`).
  - `_get_model_mappings` and the fail-closed checks of `main`.
  - The loop that concatenates the per-leaf outputs of `process_leaf_param`.
  - The last-wins `dict(...)` of that list, and the early return when the result is empty.
  - The mapping tables, the HF config table, the tokenizer-id table and `process_leaf_param` are parameters.
- **The sweep helpers of `run-sweeps.py`**.
  - `update_yaml_fields`, `bname` and `calc_chinchilla_step_count`.
  - The job YAML and run name that `run_job` builds.
  - The `mhj_args` flattening loop.

Files:

- `wrappers.dfy`: `Option` and `Result`.
- `dicts.dfy`: Python's `dict(list_of_pairs)`, in which the last duplicate wins. Both `update_yaml_fields` and the export driver use it.
- `pytree.dfy`: the tree, its leaf walk (`tree_leaves_with_path` order), `to_int8` and the parameter count.
- `checkpoint.dfy`: the train state, the checkpoint manager and `convert_checkpoint`.
- `hf_export.dfy`: the export driver.
- `sweeps.dfy`: the sweep helpers.

Notes on the code:

- `jax.tree_util.tree_reduce` is called without an initial value, so it raises on a tree with no leaves. `NumParams` is therefore `None` there, and `convert_checkpoint` stops before any save, preemption query or drain.
- `convert_checkpoint` calls directly only `save` and `reached_preemption` (both at step 0) and `wait_until_finished` on the checkpoint manager, and that is what the model covers. Line 106 also hands the manager to `setup_initial_state`, which is not part of this model.

## Model

| member | source | states |
|---|---|---|
| PyTree.Leaves | MaxText/utils/ckpt_conversion/to_huggingface.py:106 | `tree_leaves_with_path`: the leaves in depth-first, key order, each with its path of keys; its properties are stated by the lemmas below |
| PyTree.ToInt8 | MaxText/convert_checkpoint.py:69-70 | `to_int8` as `tree_map` of the leaf rule; its properties are stated by the `ToInt8…` lemmas below |
| PyTree.NarrowTensor | MaxText/convert_checkpoint.py:70 | the per-leaf rule: a float32 tensor becomes an int8 tensor of the same size with a cast payload; any other tensor is returned unchanged; the result is never float32 |
| PyTree.ToInt8PreservesStructure | MaxText/convert_checkpoint.py:69-70 | `to_int8` keeps the tree's shape: the same nodes, the same child keys in the same order, and leaves where the input has leaves |
| PyTree.ToInt8Leaves | MaxText/convert_checkpoint.py:69-70 | the leaves of `to_int8(t)` are the leaves of `t`, at the same paths and in the same order, each narrowed by the per-leaf rule |
| PyTree.ToInt8LeafRule | MaxText/convert_checkpoint.py:69-70 | the same leaf count and the same paths; each float32 leaf becomes int8 with its size kept, and every other leaf is returned unchanged |
| PyTree.ToInt8NoFloat32 | MaxText/convert_checkpoint.py:70 | no leaf of `to_int8(t)` has dtype float32 |
| PyTree.ToInt8Idempotent | MaxText/convert_checkpoint.py:70 | `to_int8(to_int8(t)) == to_int8(t)` |
| PyTree.FoldLeftAddIsSum | MaxText/convert_checkpoint.py:65 | the left fold of `+` over a non-empty list of sizes is their sum |
| PyTree.SumOfLeafSizes | MaxText/convert_checkpoint.py:64-65 | the sum of the sizes of the walked leaves equals the tree's structural total size |
| PyTree.NumParams | MaxText/convert_checkpoint.py:63-66 | the count raises (None) exactly when the tree has no leaves |
| PyTree.NumParamsIsTotalSize | MaxText/convert_checkpoint.py:63-66 | the count raises (None) exactly when the tree has no leaves; otherwise it is the sum of all leaf sizes |
| PyTree.NumParamsUnchangedByToInt8 | MaxText/convert_checkpoint.py:63-70 | narrowing does not change the parameter count, because `astype` keeps sizes |
| CheckpointConversion.InferenceState | MaxText/convert_checkpoint.py:111-128 | the state built for inference; `InferenceStateProperties` states what it is |
| CheckpointConversion.InferenceStateProperties | MaxText/convert_checkpoint.py:111-128 | step 0, `tx` None, an empty optimizer state with no leaves, the same apply function; the params are exactly the input's without the flag and `to_int8` of them with it (then no float32 leaf); same structure and same parameter count either way |
| CheckpointConversion.SameStructureReflexive | MaxText/convert_checkpoint.py:125 | the unconverted params trivially have the input's structure |
| CheckpointConversion.CheckpointManager.constructor | MaxText/convert_checkpoint.py:80-85 | a manager made with checkpointing enabled keeps the given save policy, `async_checkpointing` mode and preemption signal; the checkpoints already in the directory are durable, nothing is in flight and the call trace is empty |
| CheckpointConversion.CheckpointManager.Save | MaxText/convert_checkpoint.py:132 | returns whether the backend accepts the step; an accepted save is put in flight at that step when writes are asynchronous and made durable at once when they are synchronous; either way the saved checkpoints gain that step; the call is recorded |
| CheckpointConversion.CheckpointManager.ReachedPreemption | MaxText/convert_checkpoint.py:135 | returns the host's preemption signal and changes nothing but the trace |
| CheckpointConversion.CheckpointManager.WaitUntilFinished | MaxText/convert_checkpoint.py:136 | every in-flight save becomes durable, and the set of saved checkpoints is unchanged |
| CheckpointConversion.ConvertCheckpoint | MaxText/convert_checkpoint.py:108-139 | a tree with no leaves fails at the count, before any save, preemption query or drain; with a null manager, the inference state is returned; otherwise the trace is exactly save(0), reached_preemption(0) and, only when preemption was reported, wait_until_finished; the state is saved at step 0 iff the backend accepts it; the run exits iff preemption was reported, and then everything in flight, step 0 included if accepted, is durable and nothing is left in flight; otherwise the inference state is returned and step 0, if accepted, is in flight with asynchronous writes and durable with synchronous ones, nothing else changing; a leafless tree leaves the manager's state untouched; every preemption report in the new calls is directly followed by a drain |
| HuggingFaceExport.GetModelMappings | MaxText/utils/ckpt_conversion/to_huggingface.py:42-51 | succeeds iff the model name is in all three tables, else fails naming the model; on success the three entries are the table builders applied to the config dict, with `scan_layers` for the param and hook builders and `saving_to_hf=True` for the hook builder |
| HuggingFaceExport.RStripSlashes | MaxText/utils/ckpt_conversion/to_huggingface.py:75 | the result is a prefix of the input, does not end in `/`, and only slashes were removed |
| HuggingFaceExport.DefaultOutputDirectory | MaxText/utils/ckpt_conversion/to_huggingface.py:74-75 | the default directory ends in `/.hf_output/` and begins with the home directory without its trailing slashes |
| HuggingFaceExport.OutputDirectory | MaxText/utils/ckpt_conversion/to_huggingface.py:74-77 | the configured directory, or the default one when it is empty; `ExportWritesLastWinsDictionary` states that the writer gets it |
| HuggingFaceExport.ProcessLeaves | MaxText/utils/ckpt_conversion/to_huggingface.py:109-113 | the leaf loop as a fold; `ProcessLeavesConcatenates` and `ProcessLeavesFailureSticks` state what it computes |
| HuggingFaceExport.ProcessLeavesFailureSticks | MaxText/utils/ckpt_conversion/to_huggingface.py:110-113 | once a leaf raises, the loop's outcome is that failure, whatever follows |
| HuggingFaceExport.ProcessLeavesConcatenates | MaxText/utils/ckpt_conversion/to_huggingface.py:109-113 | the loop succeeds iff no leaf raises, and then its list is the in-order concatenation of the per-leaf outputs |
| HuggingFaceExport.AccumulateLeaves | MaxText/utils/ckpt_conversion/to_huggingface.py:109-113 | the imperative `extend` loop computes the same result as the leaf fold, stopping at the first raising leaf |
| HuggingFaceExport.ProcessLeavesFirstFailure | MaxText/utils/ckpt_conversion/to_huggingface.py:110-113 | when the loop fails, its error is `LeafFailed` with the reason of a leaf that raised, and every leaf before that one succeeded |
| HuggingFaceExport.ExportLeafFailure | MaxText/utils/ckpt_conversion/to_huggingface.py:106-114 | once the input checks pass, a raising leaf ends the driver with the loop's error, a `LeafFailed`, and nothing is written |
| HuggingFaceExport.ExportFailsClosed | MaxText/utils/ckpt_conversion/to_huggingface.py:63-104 | the full-state assertion, the HF config lookup, the tokenizer-id lookup, the mappings lookup and the `params` key are checked in that order, and each failure is reported before anything later is looked at |
| HuggingFaceExport.ExportWritesLastWinsDictionary | MaxText/utils/ckpt_conversion/to_huggingface.py:114-126 | past the checks, nothing is written iff the list is empty; otherwise the writer gets the list's dictionary (exactly its names, at most as many as list entries), the model's HF config, its tokenizer id and the output directory |
| HuggingFaceExport.ExportedValueIsLastOccurrence | MaxText/utils/ckpt_conversion/to_huggingface.py:114 | every written name carries the array of its last occurrence in the list |
| HuggingFaceExport.ExportedValueHasSource | MaxText/utils/ckpt_conversion/to_huggingface.py:114 | conversely, every written name and its array come from the last list entry with that name |
| HuggingFaceExport.ExportPlan | MaxText/utils/ckpt_conversion/to_huggingface.py:63-126 | `main` as a function of its inputs; `ExportFailsClosed`, `ExportLeafFailure`, `ExportWritesLastWinsDictionary` and the two lemmas above state how it ends |
| HuggingFaceExport.Export | MaxText/utils/ckpt_conversion/to_huggingface.py:63-127 | the imperative driver computes exactly the outcome of the functional plan that the lemmas above describe |
| PyDicts.DictOf | MaxText/utils/ckpt_conversion/to_huggingface.py:114 | `dict(pairs)`, inserting left to right; the `DictOf…` lemmas state what it contains |
| PyDicts.DictOfKeys | MaxText/utils/ckpt_conversion/to_huggingface.py:114 | `dict(pairs)` has exactly the pairs' keys |
| PyDicts.DictOfLastWins | MaxText/utils/ckpt_conversion/to_huggingface.py:114 | `dict(pairs)` maps a key to the value of its last occurrence |
| PyDicts.DictOfValueSource | MaxText/utils/ckpt_conversion/to_huggingface.py:114 | every value of `dict(pairs)` comes from the last pair with that key |
| PyDicts.DictOfSize | MaxText/utils/ckpt_conversion/to_huggingface.py:114 | `dict(pairs)` has at most as many keys as there are pairs |
| PyDicts.DictOfSizeDistinct | run-sweeps.py:69-79 | with distinct keys, `dict(pairs)` has exactly one key per pair (so the job dictionary has eight entries) |
| PyDicts.DictOfEmpty | MaxText/utils/ckpt_conversion/to_huggingface.py:114-117 | `dict(pairs)` is empty iff the list is |
| Sweeps.UpdatedFields | run-sweeps.py:15-20 | the update as a fold over the items, gated by `allow_new_keys`; `UpdatedFieldsMeaning` states its result |
| Sweeps.UpdatedFieldsMeaning | run-sweeps.py:15-20 | with new keys allowed, the result has the input's keys plus the update's; without, exactly the input's; an updated key holds the update's (last) value and every other key keeps its original value |
| Sweeps.UpdateYamlFields | run-sweeps.py:15-20 | the copy-then-assign loop computes the update function, and the input map (a value) is left as it was |
| Sweeps.UpdatedFieldsIdempotent | run-sweeps.py:15-20 | applying the same update twice equals applying it once |
| Sweeps.Digits | run-sweeps.py:98 | `str` of a natural number is a non-empty string of decimal digits with no leading zero: "0" for 0, a non-zero first digit otherwise |
| Sweeps.DecimalString | run-sweeps.py:98 | `str` of a non-negative int is the string of decimal digits denoting it, "0" for 0 and without a leading zero otherwise; of a negative int, `-` followed by the digits of its magnitude, the first of them non-zero |
| Sweeps.DigitsRoundTrip | run-sweeps.py:98 | reading back the decimal digits of `n` gives `n` |
| Sweeps.PyStrOf | run-sweeps.py:30 | `str` of a bool, an int or a string; `DecimalString` states the int case |
| Sweeps.BnameAsWritten | run-sweeps.py:28-30 | `bname` as written: the value-equality check and then the first character of `str`; see "## Findings" |
| Sweeps.BnameAsWrittenAdmitsInts | run-sweeps.py:28-30 | the assertion as written lets the ints 1 and 0 through, and `bname` then returns "1" and "0" |
| Sweeps.Bname | run-sweeps.py:28-30 | succeeds iff the value is a bool, with "T" for True and "F" for False; anything else raises the assertion with the message `not bool: "<str of the value>"` |
| Sweeps.BnameAgreesOnBools | run-sweeps.py:28-30 | on bools the corrected and the written `bname` agree |
| Sweeps.TruncDiv | run-sweeps.py:51 | `int(a / b)` truncates toward zero: a non-zero result is positive iff the operands have the same sign |
| Sweeps.NatDiv | run-sweeps.py:51 | the quotient of naturals is the largest multiple that fits |
| Sweeps.TruncDivBounds | run-sweeps.py:51 | the truncated quotient's magnitude is the floor of the magnitudes' quotient |
| Sweeps.ChinchillaSteps | run-sweeps.py:46-53 | the step count with Python's errors; the three lemmas below state its value and its errors |
| Sweeps.ChinchillaStepsBounds | run-sweeps.py:46-52 | whatever the signs, a computed step count is the truncated quotient of the needed tokens by the tokens per step, with its magnitude bounds |
| Sweeps.ChinchillaStepsPositive | run-sweeps.py:46-52 | for positive integers the step count is `(model_size * 2^30 * 20) div (tokens_per_seq * seqs_per_chip * 256 * num_slice)`, the largest number of whole steps within the token budget |
| Sweeps.ChinchillaStepsErrors | run-sweeps.py:46-52 | a string operand raises a TypeError; otherwise a ZeroDivisionError is raised iff some per-step factor is zero |
| Sweeps.RunName | run-sweeps.py:63 | the f-string of the full run name; the two lemmas below state how it is laid out |
| Sweeps.RunNameRecoversRunName | run-sweeps.py:63 | the full run name is `int8-` then the sweep, `-a`, the attempt, `-` and the run name, each at its computed position |
| Sweeps.RunNameInjective | run-sweeps.py:63 | within one sweep and attempt, distinct run names give distinct full names |
| Sweeps.PlanJob | run-sweeps.py:39-65 | `run_job` up to the YAML dump; `PlanJobErrors` and `PlanJobContents` state how it fails and what it builds |
| Sweeps.PlanJobErrors | run-sweeps.py:41-53 | a KeyError for the first of `num_slice`, `max_target_length`, `per_device_batch_size` that neither the base YAML nor the sweep sets, in that order; with all three set, any error of the step count on the merged values |
| Sweeps.JobYml | run-sweeps.py:55-64 | the two updates after the sweep's own; `JobYmlContents` states its result |
| Sweeps.PlanJobContents | run-sweeps.py:39-65 | the written YAML has the base keys, the sweep's keys and the four job keys; the job keys hold the model size, the step count twice and the full run name; every other key holds the sweep's value if the sweep sets it, else the base value; the step count is the Chinchilla count of the merged `num_slice`, `per_device_batch_size` and `max_target_length`, and the slice count is the merged `num_slice` |
| Sweeps.MergedJobYmlContents | run-sweeps.py:41-64 | the same key and value description for any step count and run name |
| Sweeps.JobYmlContents | run-sweeps.py:55-64 | the two job updates add exactly the four job keys and leave every other key alone |
| Sweeps.ExperimentMhj | run-sweeps.py:69-79 | the job dictionary has eight distinct keys, `--RUN_NAME` first |
| Sweeps.MhjArgs | run-sweeps.py:95-98 | `mhj_args` has twice as many entries as the dictionary; position 2i holds the i-th key and 2i+1 holds `str` of its value, in insertion order; read back as pairs it gives the dictionary's items |
| Sweeps.RunJobArgs | run-sweeps.py:69-98 | the launcher's argument list for a plan is exactly the eight flags in insertion order, each followed by its value: the plan's full run name, the bucket, `str` of the plan's slice count, the TPU type, the runtime version, the project, the zone and the training command for the plan's YAML file |
| Sweeps.RunJob | run-sweeps.py:39-98 | `run_job` from the base YAML to the launcher's arguments: it fails exactly as the plan fails; otherwise the arguments are exactly the launcher's list for `int8-<sweep>-a<attempt>-<run name>`, `str` of the merged `num_slice` and the command for `MaxText/configs/<full name>.yml` |

## Left out

- JAX setup is not modelled: `pyconfig`, the compilation cache, the PRNG keys, the device mesh, `spmd_mode`, the `Transformer` model, the `optax` optimizer and `setup_initial_state` (MaxText/convert_checkpoint.py:86-106 and 142). These are foreign runtime calls. `ConvertCheckpoint` starts from the state they produce.
- The numeric effect of `astype(jnp.int8)` on float values is the `cast` parameter. Only the dtype tag and the size are specified.
- Orbax internals are not modelled: the directory handling, real preemption signalling and I/O errors raised by `save` or `wait_until_finished`. The manager's save policy (`acceptsStep`, standing for `save_period`), its `async_checkpointing` mode, the checkpoints already in the directory and its preemption signal are parameters of its constructor.
- CheckpointConversion.CheckpointManager.constructor: models a manager that exists; `create_orbax_checkpoint_manager` itself is not part of this model, and a manager it does not create (`checkpoint_manager is None`, line 131) is the null manager of `ConvertCheckpoint`.
- `sys.exit()` is the `Exited` outcome, and logging is omitted.
- `process_leaf_param`, `save_model_files`, `HF_IDS`, `PARAM_MAPPING`, `SHAPE_MAPPING`, `HOOK_FNS` and `HF_MODEL_CONFIGS` come from files that are not part of this model. They are uninterpreted functions and maps, and layer expansion and shape checks are not modelled.
- `save_model_files` is not performed. The `SaveModelFiles` outcome records its arguments.
- HuggingFaceExport.ExportPlan: the weights are a `map`, so the insertion order that `dict(processed_params_list)` keeps, and that `save_model_files` receives, is not modelled. Only the names and their last values are.
- The start of `main` in to_huggingface.py is not modelled (`jax.config`, the environment write, `pyconfig.initialize`, `print_system_information`, `MaxEngine` construction, the PRNG split and `engine.load_params`, lines 59-72). The `loaded` parameter of `ExportPlan` stands for what `engine.load_params` returns.
- `AutoTokenizer.from_pretrained` and the `HF_AUTH_TOKEN` environment variable are network and environment concerns. The tokenizer is represented by its id.
- `os.path.expanduser` is modelled only for a `~/` prefix with the home directory given as a parameter.
- `loaded_params_from_engine.get("params")` is modelled as a missing key. A `params` entry whose value is `None` in the original is not represented.
- The YAML file read, write and deletion are not modelled: the base YAML is a parameter and the written YAML is part of the plan.
- Also left out of `run_job`: `multihost_job_main`, `pprint`, the `dryrun`/`delyml` branches, the `globals()` dispatch in `main` and the `run_sNN` sweep tables.
- The literal text of `BASE_MHJ_CMD` (run-sweeps.py:23-25) is the `baseMhjCmd` parameter of `ExperimentMhj`.
- Sweeps.ChinchillaSteps: computes `int(a / b)` on exact rationals and does not model float rounding of the true division. It also does not model float `model_size` or float YAML values; values are bools, ints or strings only.
- Sweeps.PyValue: YAML floats, lists, nested mappings and null (`None`) are not represented, so `str()` of them is not either, nor the TypeError a null operand raises in the step count (run-sweeps.py:50).

## Findings

| source | as written | input that shows it | evidently intended | confidence | as-written member | corrected member |
|---|---|---|---|---|---|---|
| run-sweeps.py:28-30 | `assert b == True or b == False` compares by value, so the ints 1 and 0 pass, and `str(b)[0]` then yields a digit | `bname(1)` returns "1" rather than failing the "not bool" assertion | only bools accepted, giving "T" or "F" | not executed | Sweeps.BnameAsWritten (shown by Sweeps.BnameAsWrittenAdmitsInts) | Sweeps.Bname |
