# convert2hf_vit in Dafny

This project models the checkpoint converter `InternLM/tools/convert2hf_vit.py`, which turns a
checkpoint sharded over tensor-parallel ranks and pipeline stages into a single Hugging Face
state dict and configuration. It proves properties of the model. There are three parts:

- **`merge_pp`** (`merge_pp.dfy`, module `MergePp`). For every tensor-parallel rank it folds the
  pipeline stages, in order, into one insertion-ordered dict. The leftmost `.<digits>.` layer token
  of every tensor name is shifted by the running `layer_shift`, and each stage then advances that
  shift by its largest local layer number plus one. Finally a leading `model.` is stripped from
  every name. A rank with fewer stages than rank 0 raises `IndexError`. The search for the layer
  token (`re.search`), the dict with its insertion order (`Dict`) and the decimal numerals of
  `int`/`str` (`decimal.dfy`) are modelled on ASCII digits.
- **`convert2hf`** (`convert_spec.dfy`, `convert2hf.dfy` and `convert_props.dfy`). It consumes the
  merged state of rank 0 with `pop`:
  - the codebook product and the top-level tensors are moved first;
  - for each of `num_layers` layers, the fused QKV weight and bias are split into query, key and
    value thirds, and the output projection, MLP and norm tensors are renamed;
  - the MLP biases are copied when the block has an fc1 bias, which also sets the `mlp_bias` flag;
  - a rotary table is stored for every layer;
  - the target configuration is built at the end.

  `ConvertSpec` states all of this as functions. `Expected` is the target dict after `n` layers,
  and `Succeeds` says when no error is raised. Which error is raised otherwise is fixed by the
  order of the program. Every check the code makes is a `Step`, listed in program order:
  - a pop that finds its name;
  - a reshape that fits;
  - the product `codebook.mm(proj.T)`, whose shapes must multiply.

  `FirstFailure` gives the error of the first step that fails, and `FirstFault` gives the one error
  the whole conversion raises.

  The methods of `ConvertHf` mirror the procedure statement by statement and are proved against those
  functions. `ConvertProps` proves what the target dict holds: every layer key carries exactly the
  per-target reference value `LayerValue` of its own block, the top-level tensors survive the
  loop, and `mlp_bias` is set exactly when some layer's bias tensor was saved.
- **Rank discovery** (`shard_names.dfy`, module `ShardNames`). These are the two loops of the main
  block:
  - the first keeps the names starting with `model_t` and not ending with `md5`;
  - the second splits each kept name's stem on `_` into exactly three parts and takes one more
    than the largest number after the `tp`/`pp` prefix.

  `os.path.splitext`, `str.split` and `int` are modelled as functions.

Tensor values are opaque. A tensor is its shape and its row-major element sequence over an
element type `E`. The codebook product and the rotary table are symbolic target values
(`EmbedProduct`, `RotaryInvFreq`). Source tensor names are a parameter of the conversion (`Naming`)
that must give each tensor its own name. `HfDistinct` proves that the converter's own f-string
naming does.

Three behaviours of the code are easy to miss:

- `intermediate_size` is `int(hidden_size * mlp_ratio)`, which truncates toward zero rather than
  rounding (`ConvertSpec.Truncate`).
- A counted shard file name that does not have the `model_tp<T>_pp<P>.<ext>` shape is not skipped.
  The three-way unpacking or `int` raises `ValueError`, and the whole scan raises with it
  (`ShardNames.StrayNameRaises`).
- A stage without any layer token still advances the layer shift by one
  (`MergePp.UnindexedStageAdvances`).

## Model

| member | source | states |
|---|---|---|
| Decimal.Value | InternLM/tools/convert2hf_vit.py:111 | `int` of a string of ASCII digits; leading zeros add nothing. It has no contract of its own; `NatToString` and `NatToStringOfValue` state its round trip with `str`. |
| Decimal.NatToString | InternLM/tools/convert2hf_vit.py:113 | The numeral `str` writes for a layer number has no leading zero and reads back as that number. |
| Decimal.NatToStringOfValue | InternLM/tools/convert2hf_vit.py:111-113 | Formatting the value of a digit string gives back that string exactly when it has no leading zero. |
| Decimal.NatToStringInjective | InternLM/tools/convert2hf_vit.py:113 | Distinct layer numbers are written as distinct numerals. |
| Decimal.IndexedNameInjective | InternLM/tools/convert2hf_vit.py:33-70 | Two names `prefix + str(i) + "." + suffix` are equal only for equal index and equal suffix. |
| MergePp.Search | InternLM/tools/convert2hf_vit.py:108 | A match of `\.\d+\.` is a dot, a run of digits and a dot, and its span covers exactly the whole digit run. |
| MergePp.SearchSpec | InternLM/tools/convert2hf_vit.py:108 | The match found is the leftmost one; when there is none, no position of the name holds a layer token. |
| MergePp.DigitRunSpec | InternLM/tools/convert2hf_vit.py:108 | The greedy `\d+` takes every digit of the run and stops at the first non-digit or at the end. |
| MergePp.TokenDigits | InternLM/tools/convert2hf_vit.py:111 | The text between the two dots of a match is a non-empty string of digits. |
| MergePp.ShiftKey | InternLM/tools/convert2hf_vit.py:108-113 | The renaming of one name: the leftmost token `.<n>.` becomes `.<n + shift>.`, written by `str`. It has no contract of its own; `ShiftKeyIndex`, `RetokenedSearch`, `ShiftKeyCompose` and `ShiftKeyZero` state what it does. |
| MergePp.Dict.Insert | InternLM/tools/convert2hf_vit.py:114-116 | `tp_states[name] = value`: the mapping gains or overwrites that one key, and the insertion order stays free of duplicates. |
| MergePp.StageMax | InternLM/tools/convert2hf_vit.py:112 | `_layer_shift` after one stage. It has no contract of its own; `StageMaxSpec` states that it is the largest local layer number, or 0. |
| MergePp.Shift | InternLM/tools/convert2hf_vit.py:117 | `layer_shift` after the stages so far; every stage advances it by at least one, so it is at least the number of stages. |
| MergePp.StripName | InternLM/tools/convert2hf_vit.py:118 | `key[6:] if key.startswith("model.") else key`: the name is kept, or it is the key without a leading `model.`. |
| MergePp.Strip | InternLM/tools/convert2hf_vit.py:118 | The comprehension that strips `model.` from every name, in insertion order. It has no contract of its own; `StripSpec` and `StripAllLast` state its keys and values. |
| MergePp.MergeStage | InternLM/tools/convert2hf_vit.py:104-116 | The stage loop body leaves `tp_states` as the old dict with every pair of the stage assigned under its shifted name, in order; `_layer_shift` becomes the stage's largest local layer number. |
| MergePp.MergeRank | InternLM/tools/convert2hf_vit.py:99-118 | One rank succeeds exactly when it has at least `max_pp` stages and otherwise raises IndexError; its result is the stripped merge of its first `max_pp` stages. |
| MergePp.MergePP | InternLM/tools/convert2hf_vit.py:94-119 | `merge_pp` raises IndexError exactly when there is no rank or some rank has fewer stages than rank 0; otherwise rank `t` of the result is the merged state of rank `t`'s first `len(states_tp_pp[0])` stages. |
| MergePp.MergeStagesStep | InternLM/tools/convert2hf_vit.py:103-117 | After one more stage, the shift grows by that stage's largest local index plus one, and the dict is the previous dict with the stage's renamed pairs assigned. |
| MergePp.StageMaxSpec | InternLM/tools/convert2hf_vit.py:112 | `_layer_shift` bounds every local layer number of the stage and equals one of them, or is 0 when there is none. |
| MergePp.ShiftKeyIndex | InternLM/tools/convert2hf_vit.py:108-113 | Renaming adds the shift to the layer number; the token stays where it was; the text before it and after it is unchanged; a name without a token is kept as it is. |
| MergePp.RetokenedSearch | InternLM/tools/convert2hf_vit.py:108-113 | After the token's digits are replaced by any numeral, the leftmost match is the new token at the same position, and it holds exactly that numeral. |
| MergePp.ShiftKeyCompose | InternLM/tools/convert2hf_vit.py:111-113 | Shifting by `a` and then by `b` is shifting by `a + b`. |
| MergePp.ShiftKeyZero | InternLM/tools/convert2hf_vit.py:111-113 | A shift of 0 keeps the name exactly when it has no token or the token has no leading zero. |
| MergePp.LeadingZeroExample | InternLM/tools/convert2hf_vit.py:111-113 | Even the first stage rewrites `blocks.01.x` as `blocks.1.x`. |
| MergePp.LeadingZeroSearch | InternLM/tools/convert2hf_vit.py:108 | The match in `blocks.01.x` is `.01.`, the span 6 to 10. |
| MergePp.SecondStageExample | InternLM/tools/convert2hf_vit.py:111-117 | After a first stage of two layers, `blocks.0.norm1` of the second stage becomes `blocks.2.norm1`. |
| MergePp.SecondStageSearch | InternLM/tools/convert2hf_vit.py:108 | The match in `blocks.0.norm1` is `.0.`, the span 6 to 9. |
| MergePp.ToMapSpec | InternLM/tools/convert2hf_vit.py:114-116 | A sequence of dict assignments defines exactly the keys it assigns, and each key holds the value of its last assignment. |
| MergePp.InsertAllEntries | InternLM/tools/convert2hf_vit.py:114-116 | Assigning the pairs of a stage into a dict gives the old mapping overridden by the stage's pairs. |
| MergePp.LaterStageWins | InternLM/tools/convert2hf_vit.py:103-116 | The merged mapping is that of the earlier stages, overridden by the renamed pairs of the last stage. |
| MergePp.MergeKeys | InternLM/tools/convert2hf_vit.py:103-116 | The merged names are exactly the shifted names of all stages. |
| MergePp.RenamedKeysMember | InternLM/tools/convert2hf_vit.py:113-114 | Every tensor of stage `p` is present under its name shifted by the layers of the stages before `p`. |
| MergePp.StripAllKeys | InternLM/tools/convert2hf_vit.py:118 | The comprehension's keys are exactly the stripped names. |
| MergePp.StripAllLast | InternLM/tools/convert2hf_vit.py:118 | A stripped name holds the value of the last name, in insertion order, that strips to it. |
| MergePp.StripSpec | InternLM/tools/convert2hf_vit.py:118 | The stripped dict's keys are the stripped names; a name whose stripped form no other name shares keeps its value. |
| MergePp.UnindexedKeyKept | InternLM/tools/convert2hf_vit.py:115-118 | A name without a layer token survives the merge, stripped of `model.`. |
| MergePp.MergeIsUnion | InternLM/tools/convert2hf_vit.py:103-116 | When no name carries a layer token, the merge is the plain dict union of the stages, later stages overriding earlier ones. |
| MergePp.UnindexedStageAdvances | InternLM/tools/convert2hf_vit.py:112-117 | A stage without any layer token still advances the shift by one. |
| MergePp.StageMaxOfRange | InternLM/tools/convert2hf_vit.py:112-117 | A stage holding local layers `0 .. c-1` advances the shift by exactly `c`. |
| MergePp.RenamedIndices | InternLM/tools/convert2hf_vit.py:111-113 | The layer numbers of a renamed stage are exactly its local numbers plus the shift. |
| MergePp.RenamedIndexBack | InternLM/tools/convert2hf_vit.py:111-113 | Every layer number after renaming is the shift plus a local layer number of the stage. |
| MergePp.RenamedIndexForth | InternLM/tools/convert2hf_vit.py:111-113 | Every local layer number plus the shift appears after renaming. |
| MergePp.ShiftOfContiguous | InternLM/tools/convert2hf_vit.py:100-117 | When each stage holds local layers `0 .. counts[p]-1`, the final shift is the total layer count. |
| MergePp.StageLayersAfterMerge | InternLM/tools/convert2hf_vit.py:100-117 | Stage `p` then occupies exactly the global layers from the sum of the earlier counts up to, but not including, that sum plus its own count: stage order is kept, with no gap and no overlap. |
| MergePp.MergedLayers | InternLM/tools/convert2hf_vit.py:99-117 | In `tp_states`, before the `model.` strip, the layer numbers are then exactly `0 .. sum(counts)-1`. |
| ConvertSpec.LayerValue | InternLM/tools/convert2hf_vit.py:35-70 | The reference value of each layer target, computed from its own source block: a third of a fused tensor, the rotary table, or the renamed part. It has no contract of its own; `ExpectedLayer` and `LayerSaved` state that the conversion writes exactly these values. |
| ConvertSpec.Truncate | InternLM/tools/convert2hf_vit.py:74 | `int` of a float truncates toward zero. |
| ConvertSpec.TargetConfigOf | InternLM/tools/convert2hf_vit.py:72-83 | The `InternLMConfig` built after the loop: truncated `intermediate_size`, `norm_eps` 1e-06, `bias` true, the `mlp_bias` flag, and `vocab_size` only when it is not -1. It has no contract of its own; `Remap` states that the conversion returns it with the flag of `MlpBiasBelow`. |
| ConvertSpec.MlpBiasStep | InternLM/tools/convert2hf_vit.py:31-64 | After layer `i`, the loop's `mlp_bias` flag says whether some block up to `i` has an fc1 bias. |
| ConvertSpec.BlockUnchanged | InternLM/tools/convert2hf_vit.py:33-69 | Removing names that are not block `j`'s leaves block `j` as it was. |
| ConvertSpec.TopUntouched | InternLM/tools/convert2hf_vit.py:24-29 | Popping the five top-level tensors leaves every block intact. |
| ConvertSpec.LayerUntouched | InternLM/tools/convert2hf_vit.py:33-69 | The pops of layer `i` leave every later block as it was in the merged state. |
| ConvertSpec.NotConsumedElsewhere | InternLM/tools/convert2hf_vit.py:33-69 | Layer `i` never pops a tensor of another block. |
| ConvertSpec.PartNameInjective | InternLM/tools/convert2hf_vit.py:33-69 | Distinct source parts have distinct names. |
| ConvertSpec.TargetNameInjective | InternLM/tools/convert2hf_vit.py:40-70 | Distinct target tensors of a layer have distinct names. |
| ConvertSpec.SourceNameInjective | InternLM/tools/convert2hf_vit.py:24-69 | Every source tensor the converter reads has its own name. |
| ConvertSpec.TargetKeyNameInjective | InternLM/tools/convert2hf_vit.py:26-70 | Every target tensor the converter writes has its own name. |
| ConvertSpec.Saved | InternLM/tools/convert2hf_vit.py:86 | The dict saved by name holds every target tensor under its name with its value, and no other name. |
| ConvertSpec.HfDistinct | InternLM/tools/convert2hf_vit.py:24-69 | The converter's naming gives each tensor its own name. |
| ConvertSpec.ThirdsConcat | InternLM/tools/convert2hf_vit.py:35-51 | The three thirds of the leading axis, in order, make up the whole fused tensor, each a third of it. |
| ConvertSpec.QkvWeightSplit | InternLM/tools/convert2hf_vit.py:35-50 | The query, key and value weights, concatenated, are the fused weight; each is a third of it, shaped as a matrix of `hidden_size` columns. |
| ConvertSpec.QkvBiasSplit | InternLM/tools/convert2hf_vit.py:38-51 | The query, key and value biases, concatenated, are the fused bias; each is a one-dimensional third of it. |
| ConvertSpec.FirstFailure | InternLM/tools/convert2hf_vit.py:24-70 | The error of the first check that fails; none exactly when every check passes, and otherwise one of the failing checks' errors. |
| ConvertSpec.FirstFailureAt | InternLM/tools/convert2hf_vit.py:24-70 | When check `k` fails and every check before it passes, its error is the one raised. |
| ConvertSpec.FirstFailureAppend | InternLM/tools/convert2hf_vit.py:31-70 | Two pieces of code in a row raise the first piece's error, or the second's when the first passes. |
| ConvertSpec.TopStepsSpec | InternLM/tools/convert2hf_vit.py:24-29 | The checks before the loop pass exactly when the five top-level tensors are present and `codebook.mm(proj.T)` multiplies. A failure is a missing top-level name or the product of mismatched shapes. |
| ConvertSpec.AttentionStepsSpec | InternLM/tools/convert2hf_vit.py:35-56 | The attention checks pass exactly when the attention tensors are present and reshape; a failure is a fault of the block. |
| ConvertSpec.MlpStepsSpec | InternLM/tools/convert2hf_vit.py:58-64 | The MLP pops pass exactly when the MLP tensors are present, the fc2 bias too when there is an fc1 bias; a failure is a missing one. |
| ConvertSpec.NormStepsSpec | InternLM/tools/convert2hf_vit.py:66-69 | The norm pops pass exactly when the four norm tensors are present; a failure is a missing one. |
| ConvertSpec.LayerStepsSpec | InternLM/tools/convert2hf_vit.py:33-70 | A layer's checks pass exactly when the layer is ready; a failure is one its block exhibits. |
| ConvertSpec.FirstFaultIsFault | InternLM/tools/convert2hf_vit.py:16-70 | The error the conversion raises is one the inputs exhibit. |
| ConvertSpec.FirstFaultUnique | InternLM/tools/convert2hf_vit.py:16-70 | At most one error is the first fault, so the raised error is determined by the inputs. |
| ConvertSpec.FirstFaultExists | InternLM/tools/convert2hf_vit.py:16-70 | The conversion fails exactly when there is a first fault. |
| ConvertHf.ConvertAttention | InternLM/tools/convert2hf_vit.py:35-56 | Succeeds exactly when the four attention tensors are present and the fused ones reshape. Otherwise it raises the error of the first failing pop or reshape, in program order. On success the eight attention targets are assigned. |
| ConvertHf.ConvertMlp | InternLM/tools/convert2hf_vit.py:58-64 | Succeeds exactly when both MLP weights are present, and also both biases when there is an fc1 bias. Otherwise it raises the KeyError of the first absent name in pop order. The flag becomes `mlp_bias or` "this block has an fc1 bias". |
| ConvertHf.ConvertNorms | InternLM/tools/convert2hf_vit.py:66-70 | Succeeds exactly when the four norm tensors are present; otherwise it raises the KeyError of the first absent one in pop order. It assigns the norms and the shared rotary table. |
| ConvertHf.ConvertLayer | InternLM/tools/convert2hf_vit.py:33-70 | One layer succeeds exactly when its block is ready. On success it removes exactly the names the layer pops (the stale rotary table included) and adds the layer's targets. Otherwise it raises the error of its first failing check. |
| ConvertHf.RemapLayer | InternLM/tools/convert2hf_vit.py:32-70 | One loop iteration keeps the loop invariant: remaining blocks untouched, target dict = `Expected` so far, flag = some block so far has an fc1 bias. On failure, the error of the layer's first failing check. |
| ConvertHf.RemapLayers | InternLM/tools/convert2hf_vit.py:31-70 | The layer loop ends in the invariant for all `num_layers` layers. Otherwise it fails with the first failing check of the first layer that is not ready. |
| ConvertHf.RemapTop | InternLM/tools/convert2hf_vit.py:24-29 | Succeeds exactly when the five top-level tensors are present and `codebook.mm(proj.T)` multiplies, and then gives the four top-level targets. Otherwise it raises the error of the first failing pop or product, in program order. |
| ConvertHf.Remap | InternLM/tools/convert2hf_vit.py:18-83 | The conversion of a merged state succeeds exactly when `Succeeds` holds. It then yields `Expected` for `num_layers` layers and the configuration with `mlp_bias` set iff some layer has an fc1 bias. Otherwise it raises exactly the `FirstFault`: ZeroDivisionError with no heads, then the top-level checks, then the first layer that is not ready. |
| ConvertHf.Convert2Hf | InternLM/tools/convert2hf_vit.py:14-91 | IndexError when `merge_pp` fails. Otherwise, on rank 0's merged state, what `Remap` states. |
| ConvertProps.AttentionWrites | InternLM/tools/convert2hf_vit.py:40-56 | Every attention target of layer `i` holds its reference value. |
| ConvertProps.AttentionKeeps | InternLM/tools/convert2hf_vit.py:40-56 | The attention assignments change no other key. |
| ConvertProps.MlpWrites | InternLM/tools/convert2hf_vit.py:58-64 | Every MLP target with a reference value holds it; the biases of a block without fc1 bias are left alone. |
| ConvertProps.MlpKeeps | InternLM/tools/convert2hf_vit.py:58-64 | The MLP assignments change no other key. |
| ConvertProps.NormsWrites | InternLM/tools/convert2hf_vit.py:66-70 | Every norm target and the rotary table of layer `i` hold their reference values. |
| ConvertProps.NormsKeeps | InternLM/tools/convert2hf_vit.py:66-70 | The norm assignments change no other key. |
| ConvertProps.ReadyValues | InternLM/tools/convert2hf_vit.py:35-70 | For a ready block, every target has a reference value except the MLP biases of a block without fc1 bias. |
| ConvertProps.AddLayerWrites | InternLM/tools/convert2hf_vit.py:35-70 | A ready layer writes every target that has a reference value and leaves the others as they were. |
| ConvertProps.AddLayerKeeps | InternLM/tools/convert2hf_vit.py:35-70 | Layer `i` changes no key outside layer `i`. |
| ConvertProps.LoopStep | InternLM/tools/convert2hf_vit.py:32-70 | An iteration keeps every key outside its layer. |
| ConvertProps.NoLaterLayers | InternLM/tools/convert2hf_vit.py:32 | After `n` iterations there is no key of a layer `n` or above. |
| ConvertProps.LaterLayersKeep | InternLM/tools/convert2hf_vit.py:32-70 | Iterations `m .. n-1` change no key of the top level or of a layer below `m`. |
| ConvertProps.LayerSaved | InternLM/tools/convert2hf_vit.py:32-70 | After `n` ready layers, each layer's target holds its reference value, or is absent when there is none. |
| ConvertProps.LoopKeys | InternLM/tools/convert2hf_vit.py:22-70 | After `n` ready layers the keys are the top-level ones plus the layer targets below `n` that have reference values. |
| ConvertProps.TopParamsKeys | InternLM/tools/convert2hf_vit.py:24-29 | Before the loop the target dict holds exactly the four top-level tensors. |
| ConvertProps.ExpectedTop | InternLM/tools/convert2hf_vit.py:24-70 | The top-level tensors survive the layer loop unchanged. |
| ConvertProps.ExpectedLayer | InternLM/tools/convert2hf_vit.py:32-70 | In the converted dict, each layer target holds the reference value computed from its own source block, or is absent when that block has none. |
| ConvertProps.ExpectedKeys | InternLM/tools/convert2hf_vit.py:22-70 | The converted dict's keys are exactly the top-level ones plus the layer targets below `num_layers` that have reference values. |
| ConvertProps.MlpBiasSaved | InternLM/tools/convert2hf_vit.py:61-64 | `mlp_bias` is set exactly when some layer's fc1 bias was saved. |
| ShardNames.LastDot | InternLM/tools/convert2hf_vit.py:148 | The position found is a dot with no dot after it; none is found only when the name has no dot. |
| ShardNames.Stem | InternLM/tools/convert2hf_vit.py:148 | `splitext(fn)[0]` is a prefix of the name, and what it drops is empty or a single dot-led extension. |
| ShardNames.Split | InternLM/tools/convert2hf_vit.py:148 | `split("_")` yields at least one piece and no piece contains `_`. |
| ShardNames.JoinSplit | InternLM/tools/convert2hf_vit.py:148 | Joining the pieces of a split with `_` gives back the name. |
| ShardNames.SplitJoin | InternLM/tools/convert2hf_vit.py:148 | Splitting a join gives back the pieces when none holds `_`. |
| ShardNames.SplitAppend | InternLM/tools/convert2hf_vit.py:148 | A leading piece without `_` becomes the start of the first piece of the split. |
| ShardNames.StemOf | InternLM/tools/convert2hf_vit.py:148 | The stem of a name with a single extension is the name without it. |
| ShardNames.ParseInt | InternLM/tools/convert2hf_vit.py:149-150 | `int` of a part after its prefix: an optional sign and ASCII digits, anything else `ValueError`. It has no contract of its own; `ParseIntOfString` states that it reads back every `str(n)`. |
| ShardNames.ParseIntOfString | InternLM/tools/convert2hf_vit.py:149-150 | `int(str(n)) == n` for every integer. |
| ShardNames.NameRanks | InternLM/tools/convert2hf_vit.py:148-150 | A counted name that does not parse raises ValueError naming that file. |
| ShardNames.IsModelFile | InternLM/tools/convert2hf_vit.py:143 | The filter of the first loop: the name starts with `model_t` and does not end with `md5`. It has no contract of its own; `SelectModelFiles` and `ModelFilesMembers` state what it keeps. |
| ShardNames.SelectModelFiles | InternLM/tools/convert2hf_vit.py:141-144 | The first loop keeps, in order, exactly the names starting with `model_t` and not ending with `md5`. |
| ShardNames.ModelFilesMembers | InternLM/tools/convert2hf_vit.py:141-144 | A name is kept exactly when it is in the folder and counted. |
| ShardNames.CountRanks | InternLM/tools/convert2hf_vit.py:146-150 | The second loop computes the scan of the counted names with `NameRanks`. |
| ShardNames.DiscoverRanks | InternLM/tools/convert2hf_vit.py:139-150 | Both loops together compute that scan over the counted names of the folder listing. |
| ShardNames.Scan | InternLM/tools/convert2hf_vit.py:146-150 | The count loop as a fold: one more than the largest `tp` and `pp`, starting from -1, stopped by the first name that raises. It has no contract of its own; `ScanOk`, `ScanError` and `ScanMax` state what it computes. |
| ShardNames.ScanStops | InternLM/tools/convert2hf_vit.py:147-150 | Once a name has raised, the names after it do not matter. |
| ShardNames.ScanOk | InternLM/tools/convert2hf_vit.py:147-150 | The scan succeeds exactly when every counted name parses. |
| ShardNames.ScanError | InternLM/tools/convert2hf_vit.py:147-150 | A failing scan raises the error of the first name that does not parse. |
| ShardNames.ScanMax | InternLM/tools/convert2hf_vit.py:146-150 | `max_tp` and `max_pp` are at least -1 and at least every name's rank plus one. Each equals some name's rank plus one, or -1 when there is none. |
| ShardNames.ScanReaches | InternLM/tools/convert2hf_vit.py:146-150 | Names with ranks below `T` and `P`, one of them carrying `T-1` and `P-1`, give exactly `T` and `P`. |
| ShardNames.ShardStem | InternLM/tools/convert2hf_vit.py:148 | The stem of `model_tp<T>_pp<P>.pt` drops only `.pt`. |
| ShardNames.ShardParts | InternLM/tools/convert2hf_vit.py:148 | That stem splits into `model`, `tp<T>` and `pp<P>`. |
| ShardNames.ShardNameRanks | InternLM/tools/convert2hf_vit.py:143-150 | `model_tp<T>_pp<P>.pt` is counted and parses back to `T` and `P`. |
| ShardNames.FolderCounts | InternLM/tools/convert2hf_vit.py:139-150 | A folder whose counted files are shards below `T` and `P`, shard `(T-1, P-1)` among them, gives exactly `max_tp = T` and `max_pp = P`; checksums and other files play no part. |
| ShardNames.ChecksumNotCounted | InternLM/tools/convert2hf_vit.py:143 | `model_tp0_pp1.pt.md5` is not counted. |
| ShardNames.StrayStem | InternLM/tools/convert2hf_vit.py:148 | The stem of `model_tp<T>_pp<P>_<x>.pt` drops only `.pt`. |
| ShardNames.StrayNameRanks | InternLM/tools/convert2hf_vit.py:143-148 | `model_tp<T>_pp<P>_<x>.pt` is counted, and unpacking its four parts raises ValueError. |
| ShardNames.StrayNameRaises | InternLM/tools/convert2hf_vit.py:141-150 | A folder holding such a name makes the scan raise instead of skipping the name. |

## Left out

- Tensor numerics are not modelled. Element values are opaque. The codebook product `mm(.T)` and
  the rotary frequency table are kept as symbolic values (`EmbedProduct`, `RotaryInvFreq`), so
  their floating-point contents are not stated. The product's shape check is modelled
  (`ConvertSpec.MatmulFits`, raising `MatmulError`). Errors `mm` raises for other reasons, such as
  mismatched dtypes or devices, are not modelled, because element types are opaque.
- `mlp_ratio` is a mathematical real. `intermediate_size` truncates it exactly, with no
  floating-point rounding of the product.
- The temporary directory, `config.save_pretrained`, `torch.save`, `from_pretrained` with its
  float16 cast and the deletion of `_name_or_path` are not modelled. They are file I/O and
  foreign code; `ConvertSpec.Saved` states only the name-keyed dict that is written.
- Argument parsing, `os.listdir`, `torch.load` and the JSON `auto_map` rewrite are not modelled.
  They are I/O glue. The folder listing is a parameter of `ShardNames.DiscoverRanks`.
- The main block loads only the `model_tp0_pp{pp}` shards for `pp < max_pp`, so `convert2hf`
  receives a single rank. `max_tp` is computed but never used. `MergePp.MergePP` is modelled for
  any number of ranks.
- `hidden_size` and `num_attention_heads` are natural numbers. Negative sizes, and the reshape
  behaviour they would cause, are not modelled.
- A reshape failure is an abstract `ReshapeError` naming the fused tensor, not torch's error text.
  Likewise, `MatmulError` stands for the RuntimeError of `mm`.
- ShardNames.NameRanks raises `ValueError` carrying the file name. Python's ValueError carries the
  message of the failed unpacking or of `int` instead.
- MergePp.Search, Decimal.Value and Decimal.IsDigit model `\d` and `int` on the ASCII digits `0`
  to `9` only. Python's `\d` and `int` also accept every other Unicode decimal digit, so a name
  such as `blocks.<Arabic-Indic three>.x` is renamed by the program but kept unchanged by the
  model.
- The layer tensors are popped one at a time, and all of them have distinct names. Each pop is
  therefore modelled as a read of the state the layer started with, and the popped names are
  removed together when the layer ends (`ConvertHf.ConvertLayer`).
- `current_states` is keyed by `TargetKey`, not by string. `ConvertSpec.Saved` gives the
  string-keyed dict, but the insertion order of `current_states` is not kept.
- `ConvertSpec.AddLayer` returns the state unchanged for a block that is not ready. The
  conversion raises before using that value, so this choice is never observed.
- ShardNames.ParseInt accepts an optional sign followed by ASCII digits. Python's `int` also
  strips surrounding whitespace and accepts `_` between digits and non-ASCII digits; names using
  those are treated as malformed here.
- ShardNames.Stem models `os.path.splitext` for a bare file name, as `os.listdir` returns, with no
  directory separator.
