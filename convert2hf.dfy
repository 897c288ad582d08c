/**
 * `convert2hf` as a procedure: the merged state of tensor-parallel rank 0 is
 * consumed with `pop`, tensor by tensor, while the Hugging Face state dict is
 * filled under fixed names. Every method is proved against the functions of
 * `ConvertSpec`.
 *
 * A layer pops its tensors one by one; since they all have distinct names,
 * popping one never removes another, so each pop is written as a read of
 * the state the layer started with, and the names popped are removed from
 * the state together once the layer is done.
 */
module ConvertHf {
  import opened Wrappers
  import opened ConvertSpec
  import MergePp

  /** What the layer loop carries from one layer to the next. */
  datatype LayerState<E> = LayerState(states: State<E>, current: HfState<E>, mlpBias: bool)

  /**
   * The first half of an iteration of the layer loop: pops the fused
   * attention projection, splits it into the query, key and value
   * projections, then moves the output projection. Every `pop(name)` raises
   * KeyError when the name is absent, and a reshape that does not fit
   * raises before the next pop.
   */
  method ConvertAttention<E>(cfg: ModelConfig, nm: Naming, i: nat, states: State<E>, current: HfState<E>)
    returns (r: Result<HfState<E>>)
    ensures r.Ok? <==> AttentionReady(cfg, BlockOf(states, nm, i))
    ensures r.Err? ==> FirstFailure(AttentionSteps(cfg, nm, i, BlockOf(states, nm, i))) == Some(r.error)
    ensures r.Ok? ==> r.value == AttentionAssigned(cfg, BlockOf(states, nm, i), i, current)
  {
    ghost var steps := AttentionSteps(cfg, nm, i, BlockOf(states, nm, i));
    if BlockName(nm, i, WqkvWeight) !in states {
      FirstFailureAt(steps, 0);
      return Err(KeyError(BlockName(nm, i, WqkvWeight)));
    }
    var wqkv := states[BlockName(nm, i, WqkvWeight)];
    if !WeightReshapes(cfg, wqkv) {
      FirstFailureAt(steps, 1);
      return Err(ReshapeError(BlockName(nm, i, WqkvWeight)));
    }
    if BlockName(nm, i, WqkvBias) !in states {
      FirstFailureAt(steps, 2);
      return Err(KeyError(BlockName(nm, i, WqkvBias)));
    }
    var bqkv := states[BlockName(nm, i, WqkvBias)];
    if !BiasReshapes(cfg, bqkv) {
      FirstFailureAt(steps, 3);
      return Err(ReshapeError(BlockName(nm, i, WqkvBias)));
    }
    var c := current;
    c := c[LayerKey(i, QProjWeight) := Stored(QkvWeight(cfg, wqkv, 0))];
    c := c[LayerKey(i, QProjBias) := Stored(QkvBias(cfg, bqkv, 0))];
    c := c[LayerKey(i, KProjWeight) := Stored(QkvWeight(cfg, wqkv, 1))];
    c := c[LayerKey(i, KProjBias) := Stored(QkvBias(cfg, bqkv, 1))];
    c := c[LayerKey(i, VProjWeight) := Stored(QkvWeight(cfg, wqkv, 2))];
    c := c[LayerKey(i, VProjBias) := Stored(QkvBias(cfg, bqkv, 2))];
    if BlockName(nm, i, OutProjWeight) !in states {
      FirstFailureAt(steps, 4);
      return Err(KeyError(BlockName(nm, i, OutProjWeight)));
    }
    c := c[LayerKey(i, OProjWeight) := Stored(states[BlockName(nm, i, OutProjWeight)])];
    if BlockName(nm, i, OutProjBias) !in states {
      FirstFailureAt(steps, 5);
      return Err(KeyError(BlockName(nm, i, OutProjBias)));
    }
    c := c[LayerKey(i, OProjBias) := Stored(states[BlockName(nm, i, OutProjBias)])];
    return Ok(c);
  }

  /**
   * The MLP part of an iteration of the layer loop: moves the MLP weights,
   * and the MLP biases when the block has an fc1 bias, which also sets the
   * `mlp_bias` flag.
   */
  method ConvertMlp<E>(nm: Naming, i: nat, states: State<E>, current: HfState<E>, mlpBias: bool)
    returns (r: Result<(HfState<E>, bool)>)
    ensures r.Ok? <==> MlpReady(BlockOf(states, nm, i))
    ensures r.Err? ==> FirstFailure(MlpSteps(nm, i, BlockOf(states, nm, i))) == Some(r.error)
    ensures r.Ok? ==> r.value.0 == MlpAssigned(BlockOf(states, nm, i), i, current)
    ensures r.Ok? ==> r.value.1 == (mlpBias || HasMlpBias(BlockOf(states, nm, i)))
  {
    ghost var steps := MlpSteps(nm, i, BlockOf(states, nm, i));
    var c := current;
    if BlockName(nm, i, Fc1Weight) !in states {
      FirstFailureAt(steps, 0);
      return Err(KeyError(BlockName(nm, i, Fc1Weight)));
    }
    c := c[LayerKey(i, MlpFc1Weight) := Stored(states[BlockName(nm, i, Fc1Weight)])];
    if BlockName(nm, i, Fc2Weight) !in states {
      FirstFailureAt(steps, 1);
      return Err(KeyError(BlockName(nm, i, Fc2Weight)));
    }
    c := c[LayerKey(i, MlpFc2Weight) := Stored(states[BlockName(nm, i, Fc2Weight)])];
    var bias := mlpBias;
    if BlockName(nm, i, Fc1Bias) in states {
      bias := true;
      c := c[LayerKey(i, MlpFc1Bias) := Stored(states[BlockName(nm, i, Fc1Bias)])];
      if BlockName(nm, i, Fc2Bias) !in states {
        FirstFailureAt(steps, 3);
        return Err(KeyError(BlockName(nm, i, Fc2Bias)));
      }
      c := c[LayerKey(i, MlpFc2Bias) := Stored(states[BlockName(nm, i, Fc2Bias)])];
    }
    return Ok((c, bias));
  }

  /**
   * The last part of an iteration of the layer loop: moves the norms and
   * stores the rotary table.
   */
  method ConvertNorms<E>(cfg: ModelConfig, nm: Naming, i: nat, states: State<E>, invFreq: Param<E>,
                         current: HfState<E>)
    returns (r: Result<HfState<E>>)
    requires cfg.numAttentionHeads > 0 && invFreq == InvFreqTable(cfg)
    ensures r.Ok? <==> NormsReady(BlockOf(states, nm, i))
    ensures r.Err? ==> FirstFailure(NormSteps(nm, i, BlockOf(states, nm, i))) == Some(r.error)
    ensures r.Ok? ==> r.value == NormsAssigned(cfg, BlockOf(states, nm, i), i, current)
  {
    ghost var steps := NormSteps(nm, i, BlockOf(states, nm, i));
    var c := current;
    if BlockName(nm, i, Norm1Weight) !in states {
      FirstFailureAt(steps, 0);
      return Err(KeyError(BlockName(nm, i, Norm1Weight)));
    }
    c := c[LayerKey(i, InputNormWeight) := Stored(states[BlockName(nm, i, Norm1Weight)])];
    if BlockName(nm, i, Norm1Bias) !in states {
      FirstFailureAt(steps, 1);
      return Err(KeyError(BlockName(nm, i, Norm1Bias)));
    }
    c := c[LayerKey(i, InputNormBias) := Stored(states[BlockName(nm, i, Norm1Bias)])];
    if BlockName(nm, i, Norm2Weight) !in states {
      FirstFailureAt(steps, 2);
      return Err(KeyError(BlockName(nm, i, Norm2Weight)));
    }
    c := c[LayerKey(i, PostNormWeight) := Stored(states[BlockName(nm, i, Norm2Weight)])];
    if BlockName(nm, i, Norm2Bias) !in states {
      FirstFailureAt(steps, 3);
      return Err(KeyError(BlockName(nm, i, Norm2Bias)));
    }
    c := c[LayerKey(i, PostNormBias) := Stored(states[BlockName(nm, i, Norm2Bias)])];
    c := c[LayerKey(i, RotaryTable) := invFreq];
    return Ok(c);
  }

  /**
   * One iteration of the layer loop: drops the stale rotary table with
   * `pop(name, None)`, converts block `i` into layer `i` and removes every
   * name the layer popped.
   */
  method ConvertLayer<E>(cfg: ModelConfig, nm: Naming, i: nat, invFreq: Param<E>, states: State<E>,
                         current: HfState<E>, mlpBias: bool)
    returns (r: Result<LayerState<E>>)
    requires cfg.numAttentionHeads > 0 && invFreq == InvFreqTable(cfg)
    ensures r.Ok? <==> LayerReady(cfg, BlockOf(states, nm, i))
    ensures r.Err? ==> FirstFailure(LayerSteps(cfg, nm, i, BlockOf(states, nm, i))) == Some(r.error)
    ensures r.Ok? ==> r.value.states == states - ConsumedNames(nm, i, BlockOf(states, nm, i))
    ensures r.Ok? ==> r.value.current == AddLayer(cfg, BlockOf(states, nm, i), i, current)
    ensures r.Ok? ==> r.value.mlpBias == (mlpBias || HasMlpBias(BlockOf(states, nm, i)))
  {
    ghost var v := BlockOf(states, nm, i);
    AttentionStepsSpec(cfg, nm, i, v, IndexError);
    MlpStepsSpec(cfg, nm, i, v, IndexError);
    FirstFailureAppend(AttentionSteps(cfg, nm, i, v), MlpSteps(nm, i, v));
    FirstFailureAppend(AttentionSteps(cfg, nm, i, v) + MlpSteps(nm, i, v), NormSteps(nm, i, v));
    var attention :- ConvertAttention(cfg, nm, i, states, current);
    var mlp := ConvertMlp(nm, i, states, attention, mlpBias);
    if mlp.Err? {
      return Err(mlp.error);
    }
    var norms := ConvertNorms(cfg, nm, i, states, invFreq, mlp.value.0);
    if norms.Err? {
      return Err(norms.error);
    }
    // `pop(f"blocks.{i}.mixer.rotary_emb.inv_freq", None)` and the pops above
    var popped := ConsumedNames(nm, i, BlockOf(states, nm, i));
    return Ok(LayerState(states - popped, norms.value, mlp.value.1));
  }

  /**
   * What holds after the top-level pops and `i` layers: the blocks from `i`
   * on are still there, the layers before `i` were ready, and the target
   * state and the flag are those of `i` layers.
   */
  ghost predicate Progress<E>(cfg: ModelConfig, src: State<E>, nm: Naming, i: nat, st: LayerState<E>) {
    && TopNames(nm) <= src.Keys
    && Untouched(st.states, src, nm, i)
    && ReadyBelow(cfg, src, nm, i)
    && st.current == Expected(cfg, src, nm, i)
    && st.mlpBias == MlpBiasBelow(src, nm, i)
  }

  /**
   * Iteration `i` of the layer loop, on the state the top-level pops and the
   * layers before `i` left: converts block `i` into layer `i`.
   */
  method RemapLayer<E>(cfg: ModelConfig, nm: Naming, ghost src: State<E>, i: nat, invFreq: Param<E>, st: LayerState<E>)
    returns (r: Result<LayerState<E>>)
    requires Distinct(nm) && cfg.numAttentionHeads > 0 && invFreq == InvFreqTable(cfg)
    requires Progress(cfg, src, nm, i, st)
    ensures r.Ok? <==> LayerReady(cfg, BlockOf(src, nm, i))
    ensures r.Err? ==> FirstFailure(LayerSteps(cfg, nm, i, BlockOf(src, nm, i))) == Some(r.error)
    ensures r.Ok? ==> Progress(cfg, src, nm, i + 1, r.value)
  {
    assert BlockOf(st.states, nm, i) == BlockOf(src, nm, i);
    r := ConvertLayer(cfg, nm, i, invFreq, st.states, st.current, st.mlpBias);
    if r.Ok? {
      LayerUntouched(st.states, src, nm, i);
      MlpBiasStep(src, nm, i);
    }
  }

  /**
   * The body of `convert2hf` after the merge: the top-level tensors, then
   * the layer loop, then the configuration.
   */
  method Remap<E>(cfg: ModelConfig, nm: Naming, src: State<E>) returns (r: Result<Converted<E>>)
    requires Distinct(nm)
    ensures r.Ok? <==> Succeeds(cfg, src, nm)
    ensures r.Err? ==> FirstFault(cfg, src, nm, r.error)
    ensures r.Ok? ==> r.value.params == Expected(cfg, src, nm, LayerCount(cfg))
    ensures r.Ok? ==> r.value.config == TargetConfigOf(cfg, MlpBiasBelow(src, nm, LayerCount(cfg)))
  {
    if cfg.numAttentionHeads == 0 {
      return Err(ZeroDivisionError);
    }
    var current :- RemapTop(nm, src);
    TopStepsSpec(src, nm, ZeroDivisionError);
    TopUntouched(src, nm);
    var layers :- RemapLayers(cfg, nm, src, current);
    return Ok(Converted(TargetConfigOf(cfg, layers.mlpBias), layers.current));
  }

  /** The layer loop of `convert2hf`, on the state the top-level pops left. */
  method RemapLayers<E>(cfg: ModelConfig, nm: Naming, src: State<E>, current: HfState<E>)
    returns (r: Result<LayerState<E>>)
    requires Distinct(nm) && cfg.numAttentionHeads > 0
    requires Progress(cfg, src, nm, 0, LayerState(src - TopNames(nm), current, false))
    ensures r.Ok? ==> Progress(cfg, src, nm, LayerCount(cfg), r.value)
    ensures r.Err? ==> !ReadyBelow(cfg, src, nm, LayerCount(cfg))
    ensures r.Err? ==> exists i: nat :: (i < LayerCount(cfg) && ReadyBelow(cfg, src, nm, i)
                                         && FirstFailure(LayerSteps(cfg, nm, i, BlockOf(src, nm, i))) == Some(r.error))
  {
    var invFreq: Param<E> := RotaryInvFreq(cfg.hiddenSize / cfg.numAttentionHeads);
    var st := LayerState(src - TopNames(nm), current, false);
    for i := 0 to LayerCount(cfg)
      invariant Progress(cfg, src, nm, i, st)
    {
      var layer := RemapLayer(cfg, nm, src, i, invFreq, st);
      if layer.Err? {
        return Err(layer.error);
      }
      st := layer.value;
    }
    return Ok(st);
  }

  /**
   * The pops before the layer loop: the codebook and the projection, whose
   * product is the token embedding, then the final norm and the head.
   */
  method RemapTop<E>(nm: Naming, src: State<E>) returns (r: Result<HfState<E>>)
    ensures r.Ok? <==> TopReady(src, nm)
    ensures r.Err? ==> FirstFailure(TopSteps(src, nm)) == Some(r.error)
    ensures r.Ok? ==> r.value == TopParams(src, nm)
  {
    ghost var steps := TopSteps(src, nm);
    if nm.source(Codebook) !in src {
      FirstFailureAt(steps, 0);
      return Err(KeyError(nm.source(Codebook)));
    }
    var codebook := src[nm.source(Codebook)];
    if nm.source(EmbedProj) !in src {
      FirstFailureAt(steps, 1);
      return Err(KeyError(nm.source(EmbedProj)));
    }
    var proj := src[nm.source(EmbedProj)];
    if !MatmulFits(codebook, proj) {
      FirstFailureAt(steps, 2);
      return Err(MatmulError);
    }
    var current := map[EmbedTokens := EmbedProduct(codebook, proj)];
    if nm.source(NormWeight) !in src {
      FirstFailureAt(steps, 3);
      return Err(KeyError(nm.source(NormWeight)));
    }
    current := current[ModelNormWeight := Stored(src[nm.source(NormWeight)])];
    if nm.source(NormBias) !in src {
      FirstFailureAt(steps, 4);
      return Err(KeyError(nm.source(NormBias)));
    }
    current := current[ModelNormBias := Stored(src[nm.source(NormBias)])];
    if nm.source(HeadWeight) !in src {
      FirstFailureAt(steps, 5);
      return Err(KeyError(nm.source(HeadWeight)));
    }
    current := current[LmHeadWeight := Stored(src[nm.source(HeadWeight)])];
    return Ok(current);
  }

  /**
   * `convert2hf`: merges the pipeline stages of every tensor-parallel rank,
   * keeps rank 0, and remaps it. Loading the result back as a model is not
   * part of this model.
   */
  method Convert2Hf<E>(cfg: ModelConfig, grid: seq<seq<MergePp.Shard<Tensor<E>>>>) returns (r: Result<Converted<E>>)
    ensures MergePp.MergeFails(grid) ==> r == Err(IndexError)
    ensures !MergePp.MergeFails(grid) ==>
      var src, nm := MergePp.MergedRank(grid[0]), HfNaming();
      && (r.Ok? <==> Succeeds(cfg, src, nm))
      && (r.Err? ==> FirstFault(cfg, src, nm, r.error))
      && (r.Ok? ==> r.value.params == Expected(cfg, src, nm, LayerCount(cfg)))
      && (r.Ok? ==> r.value.config == TargetConfigOf(cfg, MlpBiasBelow(src, nm, LayerCount(cfg))))
  {
    var merged :- MergePp.MergePP(grid);
    forall t | 0 <= t < |grid| ensures |grid[0]| <= |grid[t]| {
      if |grid[t]| < |grid[0]| { assert MergePp.MergeFails(grid); }
    }
    assert grid[0][..|grid[0]|] == grid[0];
    HfDistinct();
    r := Remap(cfg, HfNaming(), merged[0]);
  }
}
