/**
 * What the target state of `convert2hf` holds, proved against the
 * per-target reference `LayerValue`: every layer writes under its own keys
 * exactly the tensors the renaming table and the QKV split give, leaves
 * every other key alone, and the top-level tensors survive the layer loop.
 */
module ConvertProps {
  import opened Wrappers
  import opened ConvertSpec

  /** The block of the loop body that assigns a target. */
  datatype Section = AttentionSection | MlpSection | NormsSection

  function SectionOf(t: Target): Section {
    match t
    case QProjWeight | QProjBias | KProjWeight | KProjBias | VProjWeight | VProjBias | OProjWeight | OProjBias =>
      AttentionSection
    case MlpFc1Weight | MlpFc2Weight | MlpFc1Bias | MlpFc2Bias => MlpSection
    case _ => NormsSection
  }

  /** `k` is the key of a target of layer `i` that section `s` assigns. */
  predicate AssignedBy(k: TargetKey, i: nat, s: Section) {
    k.LayerKey? && k.layer == i && SectionOf(k.target) == s
  }

  // ---------------------------------------------------------------------
  // One section of the loop body
  // ---------------------------------------------------------------------

  /** The attention section writes the value of each of its targets under the target's key. */
  lemma AttentionWrites<E>(cfg: ModelConfig, v: Block<E>, i: nat, current: HfState<E>, t: Target)
    requires AttentionReady(cfg, v) && SectionOf(t) == AttentionSection
    ensures LayerKey(i, t) in AttentionAssigned(cfg, v, i, current)
    ensures LayerValue(cfg, v, t) == Some(AttentionAssigned(cfg, v, i, current)[LayerKey(i, t)])
  {
  }

  /** The attention section leaves every other key alone. */
  lemma AttentionKeeps<E>(cfg: ModelConfig, v: Block<E>, i: nat, current: HfState<E>, k: TargetKey)
    requires AttentionReady(cfg, v) && !AssignedBy(k, i, AttentionSection)
    ensures k in AttentionAssigned(cfg, v, i, current) <==> k in current
    ensures k in current ==> AttentionAssigned(cfg, v, i, current)[k] == current[k]
  {
  }

  /** The MLP section writes the value of each of its targets that has one, and leaves the others alone. */
  lemma MlpWrites<E>(cfg: ModelConfig, v: Block<E>, i: nat, current: HfState<E>, t: Target)
    requires MlpReady(v) && SectionOf(t) == MlpSection
    ensures LayerValue(cfg, v, t).Some? ==>
              LayerKey(i, t) in MlpAssigned(v, i, current)
              && LayerValue(cfg, v, t) == Some(MlpAssigned(v, i, current)[LayerKey(i, t)])
    ensures LayerValue(cfg, v, t).None? ==>
              (LayerKey(i, t) in MlpAssigned(v, i, current) <==> LayerKey(i, t) in current)
              && (LayerKey(i, t) in current ==> MlpAssigned(v, i, current)[LayerKey(i, t)] == current[LayerKey(i, t)])
  {
  }

  /** The MLP section leaves every other key alone. */
  lemma MlpKeeps<E>(v: Block<E>, i: nat, current: HfState<E>, k: TargetKey)
    requires MlpReady(v) && !AssignedBy(k, i, MlpSection)
    ensures k in MlpAssigned(v, i, current) <==> k in current
    ensures k in current ==> MlpAssigned(v, i, current)[k] == current[k]
  {
  }

  /** The norms section writes the value of each of its targets under the target's key. */
  lemma NormsWrites<E>(cfg: ModelConfig, v: Block<E>, i: nat, current: HfState<E>, t: Target)
    requires cfg.numAttentionHeads > 0 && NormsReady(v) && SectionOf(t) == NormsSection
    ensures LayerKey(i, t) in NormsAssigned(cfg, v, i, current)
    ensures LayerValue(cfg, v, t) == Some(NormsAssigned(cfg, v, i, current)[LayerKey(i, t)])
  {
  }

  /** The norms section leaves every other key alone. */
  lemma NormsKeeps<E>(cfg: ModelConfig, v: Block<E>, i: nat, current: HfState<E>, k: TargetKey)
    requires cfg.numAttentionHeads > 0 && NormsReady(v) && !AssignedBy(k, i, NormsSection)
    ensures k in NormsAssigned(cfg, v, i, current) <==> k in current
    ensures k in current ==> NormsAssigned(cfg, v, i, current)[k] == current[k]
  {
  }

  // ---------------------------------------------------------------------
  // One layer
  // ---------------------------------------------------------------------

  /**
   * A layer that converts writes every target except, without an fc1 bias,
   * the two MLP biases.
   */
  lemma ReadyValues<E>(cfg: ModelConfig, v: Block<E>, t: Target)
    requires cfg.numAttentionHeads > 0 && LayerReady(cfg, v)
    ensures LayerValue(cfg, v, t).Some? <==> (HasMlpBias(v) || (t != MlpFc1Bias && t != MlpFc2Bias))
  {
  }

  /**
   * Layer `i` stores under `LayerKey(i, t)` what `LayerValue` gives for
   * `t`, and leaves the key alone when that is nothing.
   */
  lemma AddLayerWrites<E>(cfg: ModelConfig, v: Block<E>, i: nat, current: HfState<E>, t: Target)
    requires cfg.numAttentionHeads > 0 && LayerReady(cfg, v)
    ensures LayerValue(cfg, v, t).Some? ==>
              LayerKey(i, t) in AddLayer(cfg, v, i, current)
              && LayerValue(cfg, v, t) == Some(AddLayer(cfg, v, i, current)[LayerKey(i, t)])
    ensures LayerValue(cfg, v, t).None? ==>
              (LayerKey(i, t) in AddLayer(cfg, v, i, current) <==> LayerKey(i, t) in current)
              && (LayerKey(i, t) in current ==> AddLayer(cfg, v, i, current)[LayerKey(i, t)] == current[LayerKey(i, t)])
  {
    var attention := AttentionAssigned(cfg, v, i, current);
    var mlp := MlpAssigned(v, i, attention);
    var k := LayerKey(i, t);
    match SectionOf(t)
    case AttentionSection =>
      AttentionWrites(cfg, v, i, current, t);
      MlpKeeps(v, i, attention, k);
      NormsKeeps(cfg, v, i, mlp, k);
    case MlpSection =>
      AttentionKeeps(cfg, v, i, current, k);
      MlpWrites(cfg, v, i, attention, t);
      NormsKeeps(cfg, v, i, mlp, k);
    case NormsSection =>
      AttentionKeeps(cfg, v, i, current, k);
      MlpKeeps(v, i, attention, k);
      NormsWrites(cfg, v, i, mlp, t);
  }

  /** Layer `i` leaves every key that is not one of its own alone. */
  lemma AddLayerKeeps<E>(cfg: ModelConfig, v: Block<E>, i: nat, current: HfState<E>, k: TargetKey)
    requires !(k.LayerKey? && k.layer == i)
    ensures k in AddLayer(cfg, v, i, current) <==> k in current
    ensures k in current ==> AddLayer(cfg, v, i, current)[k] == current[k]
  {
    if cfg.numAttentionHeads > 0 && LayerReady(cfg, v) {
      var attention := AttentionAssigned(cfg, v, i, current);
      AttentionKeeps(cfg, v, i, current, k);
      MlpKeeps(v, i, attention, k);
      NormsKeeps(cfg, v, i, MlpAssigned(v, i, attention), k);
    }
  }

  // ---------------------------------------------------------------------
  // The whole layer loop, over any top-level state and any blocks
  // ---------------------------------------------------------------------

  /** `after` holds `k` exactly when `before` does, with the same value. */
  ghost predicate Kept<E>(after: HfState<E>, before: HfState<E>, k: TargetKey) {
    (k in after <==> k in before) && (k in before ==> after[k] == before[k])
  }

  /** The first `n` blocks convert. */
  predicate AllReady<E>(cfg: ModelConfig, blocks: nat -> Block<E>, n: nat) {
    forall i: nat :: i < n ==> LayerReady(cfg, blocks(i))
  }

  /** A state holding only top-level keys. */
  predicate TopOnly<E>(top: HfState<E>) {
    forall k :: k in top ==> !k.LayerKey?
  }

  /** Layer `m` leaves every key that is not its own alone. */
  lemma LoopStep<E>(cfg: ModelConfig, top: HfState<E>, blocks: nat -> Block<E>, m: nat, k: TargetKey)
    requires !(k.LayerKey? && k.layer == m)
    ensures Kept(AfterLayers(cfg, top, blocks, m + 1), AfterLayers(cfg, top, blocks, m), k)
  {
    AddLayerKeeps(cfg, blocks(m), m, AfterLayers(cfg, top, blocks, m), k);
  }

  /** After `n` layers, no key of a later layer is present. */
  lemma {:induction false} NoLaterLayers<E>(cfg: ModelConfig, top: HfState<E>, blocks: nat -> Block<E>, n: nat, k: TargetKey)
    requires TopOnly(top) && k.LayerKey? && k.layer >= n
    ensures k !in AfterLayers(cfg, top, blocks, n)
  {
    if n > 0 {
      var m := n - 1;
      NoLaterLayers(cfg, top, blocks, m, k);
      LoopStep(cfg, top, blocks, m, k);
    }
  }

  /** Layers `m` and later leave every key of an earlier layer, and every top-level key, alone. */
  lemma {:induction false} LaterLayersKeep<E>(cfg: ModelConfig, top: HfState<E>, blocks: nat -> Block<E>, m: nat, n: nat, k: TargetKey)
    requires m <= n && !(k.LayerKey? && k.layer >= m)
    ensures Kept(AfterLayers(cfg, top, blocks, n), AfterLayers(cfg, top, blocks, m), k)
  {
    if m < n {
      var l := n - 1;
      LaterLayersKeep(cfg, top, blocks, m, l, k);
      LoopStep(cfg, top, blocks, l, k);
    }
  }

  /**
   * When the first `n` blocks convert, layer `j < n` holds under
   * `LayerKey(j, t)` exactly what `LayerValue` gives for block `j`; later
   * layers do not overwrite it.
   */
  lemma LayerSaved<E>(cfg: ModelConfig, top: HfState<E>, blocks: nat -> Block<E>, n: nat, j: nat, t: Target)
    requires cfg.numAttentionHeads > 0 && TopOnly(top) && AllReady(cfg, blocks, n) && j < n
    ensures LayerValue(cfg, blocks(j), t).Some? ==>
              LayerKey(j, t) in AfterLayers(cfg, top, blocks, n)
              && LayerValue(cfg, blocks(j), t) == Some(AfterLayers(cfg, top, blocks, n)[LayerKey(j, t)])
    ensures LayerValue(cfg, blocks(j), t).None? ==> LayerKey(j, t) !in AfterLayers(cfg, top, blocks, n)
  {
    NoLaterLayers(cfg, top, blocks, j, LayerKey(j, t));
    AddLayerWrites(cfg, blocks(j), j, AfterLayers(cfg, top, blocks, j), t);
    LaterLayersKeep(cfg, top, blocks, j + 1, n, LayerKey(j, t));
  }

  /**
   * The keys after the loop: those of `top`, and for each converted layer
   * the targets `LayerValue` gives something for.
   */
  lemma LoopKeys<E>(cfg: ModelConfig, top: HfState<E>, blocks: nat -> Block<E>, n: nat, k: TargetKey)
    requires cfg.numAttentionHeads > 0 && TopOnly(top) && AllReady(cfg, blocks, n)
    ensures k in AfterLayers(cfg, top, blocks, n) <==>
              if k.LayerKey? then k.layer < n && LayerValue(cfg, blocks(k.layer), k.target).Some? else k in top
  {
    if !k.LayerKey? {
      LaterLayersKeep(cfg, top, blocks, 0, n, k);
    } else if k.layer < n {
      LayerSaved(cfg, top, blocks, n, k.layer, k.target);
    } else {
      NoLaterLayers(cfg, top, blocks, n, k);
    }
  }

  // ---------------------------------------------------------------------
  // The state `convert2hf` saves
  // ---------------------------------------------------------------------

  /** The top-level assignments write exactly the four top-level keys. */
  lemma TopParamsKeys<E>(src: State<E>, nm: Naming)
    requires TopNames(nm) <= src.Keys
    ensures TopOnly(TopParams(src, nm))
    ensures forall k: TargetKey :: !k.LayerKey? ==> k in TopParams(src, nm)
  {
  }

  /** `ReadyBelow` is `AllReady` of the blocks of the state dict. */
  lemma ReadyBlocks<E>(cfg: ModelConfig, src: State<E>, nm: Naming, n: nat)
    requires ReadyBelow(cfg, src, nm, n)
    ensures AllReady(cfg, Blocks(src, nm), n)
  {
    forall i: nat | i < n ensures LayerReady(cfg, Blocks(src, nm)(i)) {
      assert Blocks(src, nm)(i) == BlockOf(src, nm, i);
    }
  }

  /**
   * The saved state keeps the top-level tensors as the assignments before
   * the loop made them.
   */
  lemma ExpectedTop<E>(cfg: ModelConfig, src: State<E>, nm: Naming, n: nat, k: TargetKey)
    requires TopNames(nm) <= src.Keys && !k.LayerKey?
    ensures k in Expected(cfg, src, nm, n) && Expected(cfg, src, nm, n)[k] == TopParams(src, nm)[k]
  {
    LaterLayersKeep(cfg, TopParams(src, nm), Blocks(src, nm), 0, n, k);
  }

  /**
   * When the first `n` layers convert, the saved state holds under
   * `LayerKey(j, t)` exactly what `LayerValue` gives for block `j`.
   */
  lemma ExpectedLayer<E>(cfg: ModelConfig, src: State<E>, nm: Naming, n: nat, j: nat, t: Target)
    requires cfg.numAttentionHeads > 0 && TopNames(nm) <= src.Keys
    requires ReadyBelow(cfg, src, nm, n) && j < n
    ensures LayerValue(cfg, BlockOf(src, nm, j), t).Some? ==>
              LayerKey(j, t) in Expected(cfg, src, nm, n)
              && LayerValue(cfg, BlockOf(src, nm, j), t) == Some(Expected(cfg, src, nm, n)[LayerKey(j, t)])
    ensures LayerValue(cfg, BlockOf(src, nm, j), t).None? ==> LayerKey(j, t) !in Expected(cfg, src, nm, n)
  {
    ReadyBlocks(cfg, src, nm, n);
    TopParamsKeys(src, nm);
    LayerSaved(cfg, TopParams(src, nm), Blocks(src, nm), n, j, t);
  }

  /**
   * The keys of the saved state: the four top-level tensors, and for each
   * converted layer the targets `LayerValue` gives something for.
   */
  lemma ExpectedKeys<E>(cfg: ModelConfig, src: State<E>, nm: Naming, n: nat, k: TargetKey)
    requires cfg.numAttentionHeads > 0 && TopNames(nm) <= src.Keys && ReadyBelow(cfg, src, nm, n)
    ensures k in Expected(cfg, src, nm, n) <==>
              (k.LayerKey? ==> k.layer < n && LayerValue(cfg, BlockOf(src, nm, k.layer), k.target).Some?)
  {
    ReadyBlocks(cfg, src, nm, n);
    TopParamsKeys(src, nm);
    LoopKeys(cfg, TopParams(src, nm), Blocks(src, nm), n, k);
  }

  /**
   * `mlp_bias` of the configuration is set exactly when the saved state
   * holds an fc1 bias of some layer.
   */
  lemma MlpBiasSaved<E>(cfg: ModelConfig, src: State<E>, nm: Naming, n: nat)
    requires cfg.numAttentionHeads > 0 && TopNames(nm) <= src.Keys && ReadyBelow(cfg, src, nm, n)
    ensures MlpBiasBelow(src, nm, n) <==> exists j: nat :: j < n && LayerKey(j, MlpFc1Bias) in Expected(cfg, src, nm, n)
  {
    forall j: nat | j < n
      ensures LayerKey(j, MlpFc1Bias) in Expected(cfg, src, nm, n) <==> HasMlpBias(BlockOf(src, nm, j))
    {
      ExpectedLayer(cfg, src, nm, n, j, MlpFc1Bias);
    }
  }
}
