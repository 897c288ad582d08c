/**
 * What `convert2hf` computes, as functions: the names it reads and writes,
 * the tensors each layer needs and consumes, when it fails and why, and the
 * Hugging Face state dict and configuration it produces. The fused attention
 * projection is split into its query, key and value thirds; the target
 * configuration is derived from the model configuration and from the
 * tensors present.
 *
 * The source tensor names are a parameter, a `Naming`: the conversion is
 * stated for every naming that gives each tensor its own name, and
 * `HfNaming`, the naming `convert2hf` spells out with its f-strings, is one
 * of them. The target state dict is keyed by `TargetKey`; `TargetKeyName`
 * spells a key out as `convert2hf` does, and gives every key its own name
 * (`TargetKeyNameInjective`), so `Saved` renames the dict without losing
 * an entry.
 */
module ConvertSpec {
  import opened Wrappers
  import opened Decimal

  // ---------------------------------------------------------------------
  // Data
  // ---------------------------------------------------------------------

  /** A tensor: its shape and its elements in row-major order. Elements are opaque. */
  datatype Tensor<E> = Tensor(shape: seq<int>, data: seq<E>)

  /** A tensor of the target state; the two floating-point results stay symbolic. */
  datatype Param<E> =
    | Stored(tensor: Tensor<E>)                           // a source tensor, or a slice of one
    | EmbedProduct(codebook: Tensor<E>, proj: Tensor<E>)  // codebook.mm(proj.T)
    | RotaryInvFreq(dimsPerHead: nat)                     // the inverse-frequency table of a head

  /** The fields of `model_config` the conversion reads. */
  datatype ModelConfig = ModelConfig(
    hiddenSize: nat,
    numAttentionHeads: nat,
    numLayers: int,
    mlpRatio: real,
    vocabSize: int)

  /** The target configuration; `vocabSize == None` keeps the configuration class's default. */
  datatype TargetConfig = TargetConfig(
    hiddenSize: nat,
    intermediateSize: int,
    numAttentionHeads: nat,
    numHiddenLayers: int,
    normEps: real,
    bias: bool,
    mlpBias: bool,
    vocabSize: Option<int>)

  /** A source state dict. */
  type State<E> = map<string, Tensor<E>>

  // ---------------------------------------------------------------------
  // Names
  // ---------------------------------------------------------------------

  /** The tensors of a source block, named by what follows `blocks.{i}.`. */
  datatype Part =
    | WqkvWeight | WqkvBias | OutProjWeight | OutProjBias
    | Fc1Weight | Fc2Weight | Fc1Bias | Fc2Bias
    | Norm1Weight | Norm1Bias | Norm2Weight | Norm2Bias
    | InvFreq

  function PartName(p: Part): string {
    match p
    case WqkvWeight => "mixer.Wqkv.weight"
    case WqkvBias => "mixer.Wqkv.bias"
    case OutProjWeight => "mixer.out_proj.weight"
    case OutProjBias => "mixer.out_proj.bias"
    case Fc1Weight => "mlp.fc1.weight"
    case Fc2Weight => "mlp.fc2.weight"
    case Fc1Bias => "mlp.fc1.bias"
    case Fc2Bias => "mlp.fc2.bias"
    case Norm1Weight => "norm1.weight"
    case Norm1Bias => "norm1.bias"
    case Norm2Weight => "norm2.weight"
    case Norm2Bias => "norm2.bias"
    case InvFreq => "mixer.rotary_emb.inv_freq"
  }

  /** The tensors of a target layer, named by what follows `model.layers.{i}.`. */
  datatype Target =
    | QProjWeight | QProjBias | KProjWeight | KProjBias | VProjWeight | VProjBias
    | OProjWeight | OProjBias
    | MlpFc1Weight | MlpFc2Weight | MlpFc1Bias | MlpFc2Bias
    | InputNormWeight | InputNormBias | PostNormWeight | PostNormBias
    | RotaryTable

  function TargetName(t: Target): string {
    match t
    case QProjWeight => "self_attn.q_proj.weight"
    case QProjBias => "self_attn.q_proj.bias"
    case KProjWeight => "self_attn.k_proj.weight"
    case KProjBias => "self_attn.k_proj.bias"
    case VProjWeight => "self_attn.v_proj.weight"
    case VProjBias => "self_attn.v_proj.bias"
    case OProjWeight => "self_attn.o_proj.weight"
    case OProjBias => "self_attn.o_proj.bias"
    case MlpFc1Weight => "mlp.fc1.weight"
    case MlpFc2Weight => "mlp.fc2.weight"
    case MlpFc1Bias => "mlp.fc1.bias"
    case MlpFc2Bias => "mlp.fc2.bias"
    case InputNormWeight => "input_layernorm.weight"
    case InputNormBias => "input_layernorm.bias"
    case PostNormWeight => "post_attention_layernorm.weight"
    case PostNormBias => "post_attention_layernorm.bias"
    case RotaryTable => "self_attn.rotary_emb.inv_freq"
  }

  /** A tensor of the source state dict: five top-level tensors and the parts of the blocks. */
  datatype SourceKey =
    | Codebook | EmbedProj | NormWeight | NormBias | HeadWeight
    | BlockKey(block: nat, part: Part)

  /** A tensor of the target state dict: four top-level tensors and the tensors of the layers. */
  datatype TargetKey =
    | EmbedTokens | ModelNormWeight | ModelNormBias | LmHeadWeight
    | LayerKey(layer: nat, target: Target)

  /** The source names; a block part is `f"blocks.{i}.{part}"`. */
  function SourceName(k: SourceKey): string {
    match k
    case Codebook => "embedding.vq_model.quantize.embedding.weight"
    case EmbedProj => "embedding.embed_proj.weight"
    case NormWeight => "norm.weight"
    case NormBias => "norm.bias"
    case HeadWeight => "head.weight"
    case BlockKey(i, p) => "blocks." + NatToString(i) + "." + PartName(p)
  }

  /** `current_states`, the target state dict, by key. */
  type HfState<E> = map<TargetKey, Param<E>>

  datatype Converted<E> = Converted(config: TargetConfig, params: HfState<E>)

  /** The target names; a layer tensor is `f"model.layers.{i}.{target}"`. */
  function TargetKeyName(k: TargetKey): string {
    match k
    case EmbedTokens => "model.embed_tokens.weight"
    case ModelNormWeight => "model.norm.weight"
    case ModelNormBias => "model.norm.bias"
    case LmHeadWeight => "lm_head.weight"
    case LayerKey(i, t) => "model.layers." + NatToString(i) + "." + TargetName(t)
  }

  /** How the tensors of the source state dict are named. */
  datatype Naming = Naming(source: SourceKey -> string)

  /** The naming of `convert2hf`. */
  function HfNaming(): Naming {
    Naming(SourceName)
  }

  /** The key that `f` gives the name `s`, if there is one. */
  ghost function SourceKeyOf(f: SourceKey -> string, s: string): SourceKey {
    if exists k :: f(k) == s then var k :| f(k) == s; k else Codebook
  }

  /** `decode` gives every source name its key back. */
  ghost predicate DecodesSource(nm: Naming, decode: string -> SourceKey) {
    forall k :: decode(nm.source(k)) == k
  }

  /** Every tensor has its own name: some decoder leads from each name back to its key. */
  ghost predicate Distinct(nm: Naming) {
    exists decode :: DecodesSource(nm, decode)
  }

  /** The name of part `p` of source block `i`. */
  function BlockName(nm: Naming, i: nat, p: Part): string {
    nm.source(BlockKey(i, p))
  }

  /** The five top-level source tensors, all of them popped before the layer loop. */
  function TopNames(nm: Naming): set<string> {
    {nm.source(Codebook), nm.source(EmbedProj), nm.source(NormWeight), nm.source(NormBias), nm.source(HeadWeight)}
  }

  /**
   * The renaming table: the source tensor of the same block that a target
   * tensor copies unchanged. The attention projections are cut from the
   * fused tensor instead and the rotary table is computed.
   */
  function CopiedFrom(t: Target): Option<Part> {
    match t
    case OProjWeight => Some(OutProjWeight)
    case OProjBias => Some(OutProjBias)
    case MlpFc1Weight => Some(Fc1Weight)
    case MlpFc2Weight => Some(Fc2Weight)
    case MlpFc1Bias => Some(Fc1Bias)
    case MlpFc2Bias => Some(Fc2Bias)
    case InputNormWeight => Some(Norm1Weight)
    case InputNormBias => Some(Norm1Bias)
    case PostNormWeight => Some(Norm2Weight)
    case PostNormBias => Some(Norm2Bias)
    case _ => None
  }

  // ---------------------------------------------------------------------
  // What a layer needs and consumes
  // ---------------------------------------------------------------------

  /** The tensors of one source block, by part. */
  type Block<E> = map<Part, Tensor<E>>

  /** Block `i` of a state dict. */
  function BlockOf<E>(s: State<E>, nm: Naming, i: nat): Block<E> {
    map p: Part | BlockName(nm, i, p) in s :: s[BlockName(nm, i, p)]
  }

  /** The layer carries MLP biases: the test of `blocks.{i}.mlp.fc1.bias`. */
  predicate HasMlpBias<E>(v: Block<E>) {
    Fc1Bias in v
  }

  /** The attention tensors a layer pops with `pop(name)`, which fails when they are absent. */
  const AttentionParts: set<Part> := {WqkvWeight, WqkvBias, OutProjWeight, OutProjBias}

  /** The MLP tensors a layer pops; with an fc1 bias the fc2 bias is required too. */
  function MlpParts<E>(v: Block<E>): set<Part> {
    {Fc1Weight, Fc2Weight} + (if HasMlpBias(v) then {Fc1Bias, Fc2Bias} else {})
  }

  /** The norm tensors a layer pops. */
  const NormParts: set<Part> := {Norm1Weight, Norm1Bias, Norm2Weight, Norm2Bias}

  /** Every part a layer pops without a default. */
  function RequiredParts<E>(v: Block<E>): set<Part> {
    AttentionParts + MlpParts(v) + NormParts
  }

  /**
   * The names one layer removes from the state: a stale rotary table, the
   * attention, MLP and norm tensors, and the MLP biases when there are some.
   */
  function ConsumedNames<E>(nm: Naming, i: nat, v: Block<E>): set<string> {
    set p | p in {InvFreq} + RequiredParts(v) :: BlockName(nm, i, p)
  }

  /** `range(num_layers)` is empty for a negative count. */
  function LayerCount(cfg: ModelConfig): nat {
    if cfg.numLayers < 0 then 0 else cfg.numLayers
  }

  // ---------------------------------------------------------------------
  // Reshapes and the QKV split
  // ---------------------------------------------------------------------

  /**
   * `reshape` with one `-1` dimension succeeds when the product `known` of
   * the other dimensions is non-zero and divides the element count.
   */
  predicate Reshapes(numel: int, known: int) {
    known > 0 && numel % known == 0
  }

  /** `fused.reshape(3, heads, -1, hidden)` succeeds. */
  predicate WeightReshapes<E>(cfg: ModelConfig, fused: Tensor<E>) {
    Reshapes(|fused.data|, 3 * cfg.numAttentionHeads * cfg.hiddenSize)
  }

  /** `fused.reshape(3, heads, -1)` succeeds. */
  predicate BiasReshapes<E>(cfg: ModelConfig, fused: Tensor<E>) {
    Reshapes(|fused.data|, 3 * cfg.numAttentionHeads)
  }

  /** Part `k` (0 = query, 1 = key, 2 = value) of three equal consecutive parts. */
  function Third<E>(data: seq<E>, k: nat): seq<E>
    requires k < 3 && |data| % 3 == 0
  {
    var m := |data| / 3;
    if k == 0 then data[..m] else if k == 1 then data[m..2 * m] else data[2 * m..]
  }

  /**
   * `wqkv[k].reshape(-1, hidden)` where `wqkv = fused.reshape(3, heads, -1, hidden)`:
   * a matrix of `hidden` columns holding the `k`-th third of the fused weight
   * (`QkvWeightSplit` states its size).
   */
  function QkvWeight<E>(cfg: ModelConfig, fused: Tensor<E>, k: nat): Tensor<E>
    requires k < 3 && WeightReshapes(cfg, fused)
  {
    var h, d := cfg.numAttentionHeads, cfg.hiddenSize;
    DivisibleByFactor(|fused.data|, 3, h * d);
    Tensor([h * (|fused.data| / (3 * h * d)), d], Third(fused.data, k))
  }

  /** `bqkv[k].reshape(-1)` where `bqkv = fused.reshape(3, heads, -1)`: the `k`-th third of the fused bias. */
  function QkvBias<E>(cfg: ModelConfig, fused: Tensor<E>, k: nat): Tensor<E>
    requires k < 3 && BiasReshapes(cfg, fused)
  {
    var h := cfg.numAttentionHeads;
    DivisibleByFactor(|fused.data|, 3, h);
    Tensor([h * (|fused.data| / (3 * h))], Third(fused.data, k))
  }

  /** The fused tensors that are present have sizes the reshapes accept. */
  predicate QkvShapes<E>(cfg: ModelConfig, v: Block<E>) {
    && (WqkvWeight in v ==> WeightReshapes(cfg, v[WqkvWeight]))
    && (WqkvBias in v ==> BiasReshapes(cfg, v[WqkvBias]))
  }

  // ---------------------------------------------------------------------
  // When the conversion succeeds, and why it fails
  // ---------------------------------------------------------------------

  /** The attention tensors are present and the fused ones reshape. */
  predicate AttentionReady<E>(cfg: ModelConfig, v: Block<E>) {
    AttentionParts <= v.Keys && QkvShapes(cfg, v)
  }

  /** The MLP tensors are present, the fc2 bias whenever there is an fc1 bias. */
  predicate MlpReady<E>(v: Block<E>) {
    MlpParts(v) <= v.Keys
  }

  /** The norm tensors are present. */
  predicate NormsReady<E>(v: Block<E>) {
    NormParts <= v.Keys
  }

  /** The layer converts without error. */
  predicate LayerReady<E>(cfg: ModelConfig, v: Block<E>) {
    AttentionReady(cfg, v) && MlpReady(v) && NormsReady(v)
  }

  /** The first `n` layers convert without error. */
  predicate ReadyBelow<E>(cfg: ModelConfig, src: State<E>, nm: Naming, n: nat) {
    forall i: nat :: i < n ==> LayerReady(cfg, BlockOf(src, nm, i))
  }

  /** `codebook.mm(proj.T)` multiplies: two matrices whose rows have the same length. */
  predicate MatmulFits<E>(codebook: Tensor<E>, proj: Tensor<E>) {
    |codebook.shape| == 2 && |proj.shape| == 2 && codebook.shape[1] == proj.shape[1]
  }

  /** The top-level tensors are present and the token embedding can be computed from them. */
  predicate TopReady<E>(src: State<E>, nm: Naming) {
    TopNames(nm) <= src.Keys && MatmulFits(src[nm.source(Codebook)], src[nm.source(EmbedProj)])
  }

  /** The whole conversion succeeds. */
  predicate Succeeds<E>(cfg: ModelConfig, src: State<E>, nm: Naming) {
    && cfg.numAttentionHeads > 0
    && TopReady(src, nm)
    && ReadyBelow(cfg, src, nm, LayerCount(cfg))
  }

  /** `e` is the KeyError of a part in `parts` that block `i` lacks. */
  predicate Missing<E>(nm: Naming, i: nat, v: Block<E>, parts: set<Part>, e: Exception) {
    exists p :: p in parts && p !in v && e == KeyError(BlockName(nm, i, p))
  }

  /** `e` is an error layer `i` raises for a reason its block exhibits. */
  predicate LayerFault<E>(cfg: ModelConfig, nm: Naming, i: nat, v: Block<E>, e: Exception) {
    || Missing(nm, i, v, RequiredParts(v), e)
    || (WqkvWeight in v && !WeightReshapes(cfg, v[WqkvWeight]) && e == ReshapeError(BlockName(nm, i, WqkvWeight)))
    || (WqkvBias in v && !BiasReshapes(cfg, v[WqkvBias]) && e == ReshapeError(BlockName(nm, i, WqkvBias)))
  }

  /** `e` is an error the pops and the product before the layer loop raise for a reason `src` exhibits. */
  predicate TopFault<E>(src: State<E>, nm: Naming, e: Exception) {
    || (e.KeyError? && e.key in TopNames(nm) && e.key !in src)
    || (&& nm.source(Codebook) in src && nm.source(EmbedProj) in src
        && !MatmulFits(src[nm.source(Codebook)], src[nm.source(EmbedProj)]) && e == MatmulError)
  }

  /** `e` is an error the conversion raises for a reason the inputs exhibit. */
  predicate Fault<E>(cfg: ModelConfig, src: State<E>, nm: Naming, e: Exception) {
    if cfg.numAttentionHeads == 0 then e == ZeroDivisionError
    else
      || TopFault(src, nm, e)
      || exists i: nat :: i < LayerCount(cfg) && LayerFault(cfg, nm, i, BlockOf(src, nm, i), e)
  }

  // ---------------------------------------------------------------------
  // Which error is raised: the first check that fails, in program order
  // ---------------------------------------------------------------------

  /** A check the program makes, and the error it raises when the check fails. */
  datatype Step = Step(passes: bool, error: Exception)

  /**
   * The error of the first step that fails; `None` when every step passes.
   * A run of `pop(name)` calls raises the KeyError of the first absent name
   * (`FirstFailureAt` shows that the step found is the first failing one).
   */
  function FirstFailure(steps: seq<Step>): (r: Option<Exception>)
    ensures r.None? <==> forall k :: 0 <= k < |steps| ==> steps[k].passes
    ensures r.Some? ==> exists k :: 0 <= k < |steps| && !steps[k].passes && r.value == steps[k].error
  {
    if |steps| == 0 then None
    else if !steps[0].passes then Some(steps[0].error)
    else FirstFailure(steps[1..])
  }

  /** `states.pop(name)` of part `p` of block `i`. */
  function Pop<E>(nm: Naming, i: nat, v: Block<E>, p: Part): Step {
    Step(p in v, KeyError(BlockName(nm, i, p)))
  }

  /** The checks before the layer loop: two pops, the product, three pops. */
  function TopSteps<E>(src: State<E>, nm: Naming): seq<Step> {
    var codebook, proj := nm.source(Codebook), nm.source(EmbedProj);
    [ Step(codebook in src, KeyError(codebook)),
      Step(proj in src, KeyError(proj)),
      Step(codebook !in src || proj !in src || MatmulFits(src[codebook], src[proj]), MatmulError),
      Step(nm.source(NormWeight) in src, KeyError(nm.source(NormWeight))),
      Step(nm.source(NormBias) in src, KeyError(nm.source(NormBias))),
      Step(nm.source(HeadWeight) in src, KeyError(nm.source(HeadWeight))) ]
  }

  /** The attention checks of layer `i`: each fused tensor is reshaped right after its pop. */
  function AttentionSteps<E>(cfg: ModelConfig, nm: Naming, i: nat, v: Block<E>): seq<Step> {
    [ Pop(nm, i, v, WqkvWeight),
      Step(WqkvWeight !in v || WeightReshapes(cfg, v[WqkvWeight]), ReshapeError(BlockName(nm, i, WqkvWeight))),
      Pop(nm, i, v, WqkvBias),
      Step(WqkvBias !in v || BiasReshapes(cfg, v[WqkvBias]), ReshapeError(BlockName(nm, i, WqkvBias))),
      Pop(nm, i, v, OutProjWeight),
      Pop(nm, i, v, OutProjBias) ]
  }

  /** The MLP pops of layer `i`; the biases are popped only after the fc1 bias was found. */
  function MlpSteps<E>(nm: Naming, i: nat, v: Block<E>): seq<Step> {
    [Pop(nm, i, v, Fc1Weight), Pop(nm, i, v, Fc2Weight)]
      + (if HasMlpBias(v) then [Pop(nm, i, v, Fc1Bias), Pop(nm, i, v, Fc2Bias)] else [])
  }

  /** The norm pops of layer `i`. */
  function NormSteps<E>(nm: Naming, i: nat, v: Block<E>): seq<Step> {
    [Pop(nm, i, v, Norm1Weight), Pop(nm, i, v, Norm1Bias), Pop(nm, i, v, Norm2Weight), Pop(nm, i, v, Norm2Bias)]
  }

  /** Every check of layer `i`, in program order. */
  function LayerSteps<E>(cfg: ModelConfig, nm: Naming, i: nat, v: Block<E>): seq<Step> {
    AttentionSteps(cfg, nm, i, v) + MlpSteps(nm, i, v) + NormSteps(nm, i, v)
  }

  /**
   * `e` is the error the conversion raises: `hidden_size // num_attention_heads`
   * comes first, then the checks before the layer loop, then the first check
   * that fails in the first layer that is not ready.
   */
  predicate FirstFault<E>(cfg: ModelConfig, src: State<E>, nm: Naming, e: Exception) {
    if cfg.numAttentionHeads == 0 then e == ZeroDivisionError
    else if FirstFailure(TopSteps(src, nm)).Some? then FirstFailure(TopSteps(src, nm)) == Some(e)
    else exists i: nat :: i < LayerCount(cfg) && ReadyBelow(cfg, src, nm, i)
                          && FirstFailure(LayerSteps(cfg, nm, i, BlockOf(src, nm, i))) == Some(e)
  }

  // ---------------------------------------------------------------------
  // The target state
  // ---------------------------------------------------------------------

  /** `current_states` after the four assignments before the layer loop. */
  function TopParams<E>(src: State<E>, nm: Naming): HfState<E>
    requires TopNames(nm) <= src.Keys
  {
    map[EmbedTokens := EmbedProduct(src[nm.source(Codebook)], src[nm.source(EmbedProj)])]
      [ModelNormWeight := Stored(src[nm.source(NormWeight)])]
      [ModelNormBias := Stored(src[nm.source(NormBias)])]
      [LmHeadWeight := Stored(src[nm.source(HeadWeight)])]
  }

  /** Part `p` of a block, moved unchanged. */
  function Moved<E>(v: Block<E>, p: Part): Option<Param<E>> {
    if p in v then Some(Stored(v[p])) else None
  }

  /** Third `k` of the fused weight, when the reshape accepts it. */
  function SplitWeight<E>(cfg: ModelConfig, v: Block<E>, k: nat): Option<Param<E>>
    requires k < 3
  {
    if WqkvWeight in v && WeightReshapes(cfg, v[WqkvWeight]) then Some(Stored(QkvWeight(cfg, v[WqkvWeight], k))) else None
  }

  /** Third `k` of the fused bias, when the reshape accepts it. */
  function SplitBias<E>(cfg: ModelConfig, v: Block<E>, k: nat): Option<Param<E>>
    requires k < 3
  {
    if WqkvBias in v && BiasReshapes(cfg, v[WqkvBias]) then Some(Stored(QkvBias(cfg, v[WqkvBias], k))) else None
  }

  /**
   * What a layer writes under target `t`, computed from its source block
   * `v`: a third of a fused projection, the rotary table, or the part the
   * renaming table names; `None` when the layer writes nothing there.
   */
  function LayerValue<E>(cfg: ModelConfig, v: Block<E>, t: Target): Option<Param<E>> {
    match t
    case QProjWeight => SplitWeight(cfg, v, 0)
    case KProjWeight => SplitWeight(cfg, v, 1)
    case VProjWeight => SplitWeight(cfg, v, 2)
    case QProjBias => SplitBias(cfg, v, 0)
    case KProjBias => SplitBias(cfg, v, 1)
    case VProjBias => SplitBias(cfg, v, 2)
    case RotaryTable => if cfg.numAttentionHeads > 0 then Some(InvFreqTable(cfg)) else None
    case MlpFc2Bias => if HasMlpBias(v) then Moved(v, Fc2Bias) else None
    case _ => Moved(v, CopiedFrom(t).value)
  }

  /** The rotary table every layer gets, computed once from `hidden_size // num_attention_heads`. */
  function InvFreqTable<E>(cfg: ModelConfig): Param<E>
    requires cfg.numAttentionHeads > 0
  {
    RotaryInvFreq(cfg.hiddenSize / cfg.numAttentionHeads)
  }

  /** The assignments of the attention projections: three thirds of each fused tensor, then the output projection. */
  function AttentionAssigned<E>(cfg: ModelConfig, v: Block<E>, i: nat, current: HfState<E>): HfState<E>
    requires AttentionReady(cfg, v)
  {
    var w, b := v[WqkvWeight], v[WqkvBias];
    current[LayerKey(i, QProjWeight) := Stored(QkvWeight(cfg, w, 0))]
           [LayerKey(i, QProjBias) := Stored(QkvBias(cfg, b, 0))]
           [LayerKey(i, KProjWeight) := Stored(QkvWeight(cfg, w, 1))]
           [LayerKey(i, KProjBias) := Stored(QkvBias(cfg, b, 1))]
           [LayerKey(i, VProjWeight) := Stored(QkvWeight(cfg, w, 2))]
           [LayerKey(i, VProjBias) := Stored(QkvBias(cfg, b, 2))]
           [LayerKey(i, OProjWeight) := Stored(v[OutProjWeight])]
           [LayerKey(i, OProjBias) := Stored(v[OutProjBias])]
  }

  /** The assignments of the MLP tensors; the biases only when the block has an fc1 bias. */
  function MlpAssigned<E>(v: Block<E>, i: nat, current: HfState<E>): HfState<E>
    requires MlpReady(v)
  {
    var weights := current[LayerKey(i, MlpFc1Weight) := Stored(v[Fc1Weight])]
                          [LayerKey(i, MlpFc2Weight) := Stored(v[Fc2Weight])];
    if HasMlpBias(v) then
      weights[LayerKey(i, MlpFc1Bias) := Stored(v[Fc1Bias])]
             [LayerKey(i, MlpFc2Bias) := Stored(v[Fc2Bias])]
    else weights
  }

  /** The assignments of the two norms and of the rotary table. */
  function NormsAssigned<E>(cfg: ModelConfig, v: Block<E>, i: nat, current: HfState<E>): HfState<E>
    requires cfg.numAttentionHeads > 0 && NormsReady(v)
  {
    current[LayerKey(i, InputNormWeight) := Stored(v[Norm1Weight])]
           [LayerKey(i, InputNormBias) := Stored(v[Norm1Bias])]
           [LayerKey(i, PostNormWeight) := Stored(v[Norm2Weight])]
           [LayerKey(i, PostNormBias) := Stored(v[Norm2Bias])]
           [LayerKey(i, RotaryTable) := InvFreqTable(cfg)]
  }

  /**
   * `current_states` after layer `i`. A block that is not ready makes the
   * conversion raise, so what this gives for one is never looked at.
   */
  function AddLayer<E>(cfg: ModelConfig, v: Block<E>, i: nat, current: HfState<E>): HfState<E>
  {
    if cfg.numAttentionHeads > 0 && LayerReady(cfg, v) then
      NormsAssigned(cfg, v, i, MlpAssigned(v, i, AttentionAssigned(cfg, v, i, current)))
    else current
  }

  /** `current_states` after `top` and the layers made of the first `n` blocks of `blocks`. */
  function AfterLayers<E>(cfg: ModelConfig, top: HfState<E>, blocks: nat -> Block<E>, n: nat): HfState<E> {
    if n == 0 then top
    else AddLayer(cfg, blocks(n - 1), n - 1, AfterLayers(cfg, top, blocks, n - 1))
  }

  /** The blocks of a state dict, by index. */
  function Blocks<E>(src: State<E>, nm: Naming): nat -> Block<E> {
    (i: nat) => BlockOf(src, nm, i)
  }

  /** `current_states` after the top-level tensors and the first `n` layers. */
  function Expected<E>(cfg: ModelConfig, src: State<E>, nm: Naming, n: nat): HfState<E>
    requires TopNames(nm) <= src.Keys
  {
    AfterLayers(cfg, TopParams(src, nm), Blocks(src, nm), n)
  }

  // ---------------------------------------------------------------------
  // The target configuration
  // ---------------------------------------------------------------------

  /** Python's `int` of a float: truncation toward zero. */
  function Truncate(x: real): (n: int)
    ensures x >= 0.0 ==> 0 <= n && n as real <= x < n as real + 1.0
    ensures x < 0.0 ==> n <= 0 && n as real - 1.0 < x <= n as real
  {
    if x >= 0.0 then x.Floor else -((-x).Floor)
  }

  /** Some block below `n` carries MLP biases. */
  predicate MlpBiasBelow<E>(src: State<E>, nm: Naming, n: nat) {
    exists i: nat :: i < n && HasMlpBias(BlockOf(src, nm, i))
  }

  /** One more layer: the flag the layer loop keeps. */
  lemma MlpBiasStep<E>(src: State<E>, nm: Naming, i: nat)
    ensures MlpBiasBelow(src, nm, i + 1) == (MlpBiasBelow(src, nm, i) || HasMlpBias(BlockOf(src, nm, i)))
  {
    if MlpBiasBelow(src, nm, i + 1) && !HasMlpBias(BlockOf(src, nm, i)) {
      var j: nat :| j < i + 1 && HasMlpBias(BlockOf(src, nm, j));
      assert j < i;
    }
  }

  /** The configuration built after the layer loop; `vocab_size == -1` keeps the class default. */
  function TargetConfigOf(cfg: ModelConfig, mlpBias: bool): TargetConfig {
    TargetConfig(
      hiddenSize := cfg.hiddenSize,
      intermediateSize := Truncate(cfg.hiddenSize as real * cfg.mlpRatio),
      numAttentionHeads := cfg.numAttentionHeads,
      numHiddenLayers := cfg.numLayers,
      normEps := 0.000001,
      bias := true,
      mlpBias := mlpBias,
      vocabSize := if cfg.vocabSize != -1 then Some(cfg.vocabSize) else None)
  }

  // ---------------------------------------------------------------------
  // Lemmas: what the pops leave of the source state
  // ---------------------------------------------------------------------

  /** Every block from `i` on holds in `s` what it holds in `src`. */
  ghost predicate Untouched<E>(s: State<E>, src: State<E>, nm: Naming, i: nat) {
    forall j: nat :: i <= j ==> BlockOf(s, nm, j) == BlockOf(src, nm, j)
  }

  /** Removing names that are not block `j`'s leaves block `j` as it is. */
  lemma BlockUnchanged<E>(s: State<E>, removed: set<string>, nm: Naming, j: nat)
    requires forall p :: BlockName(nm, j, p) !in removed
    ensures BlockOf(s - removed, nm, j) == BlockOf(s, nm, j)
  {
  }

  /** The top-level pops leave every block untouched. */
  lemma TopUntouched<E>(src: State<E>, nm: Naming)
    requires Distinct(nm)
    ensures Untouched(src - TopNames(nm), src, nm, 0)
  {
    forall j: nat ensures BlockOf(src - TopNames(nm), nm, j) == BlockOf(src, nm, j) {
      var decode :| DecodesSource(nm, decode);
      assert forall p :: decode(BlockName(nm, j, p)) == BlockKey(j, p);
      BlockUnchanged(src, TopNames(nm), nm, j);
    }
  }

  /** Layer `i` leaves the blocks after it untouched. */
  lemma LayerUntouched<E>(s: State<E>, src: State<E>, nm: Naming, i: nat)
    requires Distinct(nm) && Untouched(s, src, nm, i)
    ensures Untouched(s - ConsumedNames(nm, i, BlockOf(s, nm, i)), src, nm, i + 1)
  {
    var removed := ConsumedNames(nm, i, BlockOf(s, nm, i));
    forall j: nat | i + 1 <= j ensures BlockOf(s - removed, nm, j) == BlockOf(src, nm, j) {
      forall p ensures BlockName(nm, j, p) !in removed {
        NotConsumedElsewhere(nm, i, BlockOf(s, nm, i), j, p);
      }
      BlockUnchanged(s, removed, nm, j);
    }
  }

  /** Layer `i` consumes only names of block `i`. */
  lemma NotConsumedElsewhere<E>(nm: Naming, i: nat, v: Block<E>, j: nat, p: Part)
    requires Distinct(nm) && i != j
    ensures BlockName(nm, j, p) !in ConsumedNames(nm, i, v)
  {
    var decode :| DecodesSource(nm, decode);
    forall q ensures BlockName(nm, i, q) != BlockName(nm, j, p) {
      assert decode(BlockName(nm, i, q)) == BlockKey(i, q);
    }
  }

  // ---------------------------------------------------------------------
  // Lemmas: the names of convert2hf are distinct
  // ---------------------------------------------------------------------

  /** A length and two characters that already tell the part names apart. */
  function PartSig(p: Part): (int, char, char) {
    var s := PartName(p);
    (|s|, s[4], s[6])
  }

  /** A length and two characters that already tell the target names apart. */
  function TargetSig(t: Target): (int, char, char) {
    var s := TargetName(t);
    (|s|, s[6], s[10])
  }

  /** Every part has its own name. */
  lemma PartNameInjective(p: Part, q: Part)
    ensures PartName(p) == PartName(q) ==> p == q
  {
    if PartName(p) == PartName(q) {
      assert PartSig(p) == PartSig(q);
    }
  }

  /** Every target has its own name. */
  lemma TargetNameInjective(t: Target, u: Target)
    ensures TargetName(t) == TargetName(u) ==> t == u
  {
    if TargetName(t) == TargetName(u) {
      assert TargetSig(t) == TargetSig(u);
    }
  }

  /** The length and first character of a name. */
  function Head(s: string): (int, char)
    requires |s| > 0
  {
    (|s|, s[0])
  }

  /** No top-level source name starts like a block name. */
  lemma TopInitial(k: SourceKey)
    requires !k.BlockKey?
    ensures |SourceName(k)| > 0 && SourceName(k)[0] != 'b'
  {
    match k
    case Codebook =>
      var name := "embedding.vq_model.quantize.embedding.weight";
      assert name[0] == 'e';
    case EmbedProj => assert SourceName(k)[0] == 'e';
    case NormWeight => assert SourceName(k)[0] == 'n';
    case NormBias => assert SourceName(k)[0] == 'n';
    case HeadWeight => assert SourceName(k)[0] == 'h';
  }

  /** Every source tensor has its own name. */
  lemma SourceNameInjective(k: SourceKey, l: SourceKey)
    ensures SourceName(k) == SourceName(l) ==> k == l
  {
    if SourceName(k) == SourceName(l) {
      if k.BlockKey? && l.BlockKey? {
        IndexedNameInjective("blocks.", k.block, PartName(k.part), l.block, PartName(l.part));
        PartNameInjective(k.part, l.part);
      } else if k.BlockKey? {
        TopInitial(l);
      } else if l.BlockKey? {
        TopInitial(k);
      } else {
        assert Head(SourceName(k)) == Head(SourceName(l));
      }
    }
  }

  /** Three characters that tell the target names apart, except two names of layers. */
  function Marks(s: string): (char, char, char)
    requires |s| > 11
  {
    (s[1], s[6], s[11])
  }

  /** Every target tensor has its own name. */
  lemma TargetKeyNameInjective(k: TargetKey, l: TargetKey)
    ensures TargetKeyName(k) == TargetKeyName(l) ==> k == l
  {
    if TargetKeyName(k) == TargetKeyName(l) {
      if k.LayerKey? && l.LayerKey? {
        IndexedNameInjective("model.layers.", k.layer, TargetName(k.target), l.layer, TargetName(l.target));
        TargetNameInjective(k.target, l.target);
      } else {
        assert Marks(TargetKeyName(k)) == Marks(TargetKeyName(l));
      }
    }
  }

  /**
   * The state dict as `save_pretrained` writes it, keyed by name. Since
   * names are distinct, every entry keeps its value and no other name appears.
   */
  function Saved<E>(hf: HfState<E>): (r: map<string, Param<E>>)
    ensures forall k :: k in hf ==> TargetKeyName(k) in r && r[TargetKeyName(k)] == hf[k]
    ensures forall name :: name in r ==> exists k :: k in hf && TargetKeyName(k) == name
  {
    forall k, l ensures TargetKeyName(k) == TargetKeyName(l) ==> k == l {
      TargetKeyNameInjective(k, l);
    }
    map k | k in hf :: TargetKeyName(k) := hf[k]
  }

  /** The naming of `convert2hf` gives every tensor its own name. */
  lemma HfDistinct()
    ensures Distinct(HfNaming())
  {
    var decodeSource := s => SourceKeyOf(SourceName, s);
    forall k ensures decodeSource(SourceName(k)) == k {
      SourceNameInjective(k, SourceKeyOf(SourceName, SourceName(k)));
    }
    assert DecodesSource(HfNaming(), decodeSource);
  }

  // ---------------------------------------------------------------------
  // Lemmas: the QKV split
  // ---------------------------------------------------------------------

  /** The three thirds, in order, make up the whole sequence, each a third of it. */
  lemma ThirdsConcat<E>(data: seq<E>)
    requires |data| % 3 == 0
    ensures Third(data, 0) + Third(data, 1) + Third(data, 2) == data
    ensures forall k :: 0 <= k < 3 ==> 3 * |Third(data, k)| == |data|
  {
    var m := |data| / 3;
    assert data[..m] + data[m..2 * m] + data[2 * m..] == data;
  }

  /**
   * Query, key and value weights, put back one after the other, are the
   * fused weight; each is a matrix of `hidden` columns holding a third of it.
   */
  lemma QkvWeightSplit<E>(cfg: ModelConfig, fused: Tensor<E>)
    requires WeightReshapes(cfg, fused)
    ensures QkvWeight(cfg, fused, 0).data + QkvWeight(cfg, fused, 1).data + QkvWeight(cfg, fused, 2).data == fused.data
    ensures forall k :: 0 <= k < 3 ==>
      var w := QkvWeight(cfg, fused, k);
      && 3 * |w.data| == |fused.data|
      && |w.shape| == 2 && w.shape[1] == cfg.hiddenSize && w.shape[0] * w.shape[1] == |w.data|
  {
    var h, d := cfg.numAttentionHeads, cfg.hiddenSize;
    DivisibleByFactor(|fused.data|, 3, h * d);
    ThirdsConcat(fused.data);
    var perHead := |fused.data| / (3 * h * d);
    RowsTimesColumns(h, perHead, d);
  }

  /**
   * Query, key and value biases, put back one after the other, are the
   * fused bias; each is a vector holding a third of it.
   */
  lemma QkvBiasSplit<E>(cfg: ModelConfig, fused: Tensor<E>)
    requires BiasReshapes(cfg, fused)
    ensures QkvBias(cfg, fused, 0).data + QkvBias(cfg, fused, 1).data + QkvBias(cfg, fused, 2).data == fused.data
    ensures forall k :: 0 <= k < 3 ==>
      var b := QkvBias(cfg, fused, k);
      3 * |b.data| == |fused.data| && b.shape == [|b.data|]
  {
    var h := cfg.numAttentionHeads;
    DivisibleByFactor(|fused.data|, 3, h);
    ThirdsConcat(fused.data);
  }

  // ---------------------------------------------------------------------
  // Lemmas: arithmetic of the reshapes
  // ---------------------------------------------------------------------

  lemma MulBounds(a: int, d: int)
    requires a > 0
    ensures d >= 1 ==> a * d >= a
    ensures d <= -1 ==> a * d <= -a
  {
  }

  /** `(a * m) / a == m` exactly. */
  lemma {:induction false} MulDiv(a: nat, m: nat)
    requires a > 0
    ensures (a * m) % a == 0 && (a * m) / a == m
  {
    var n := a * m;
    var q, r := n / a, n % a;
    assert n == a * q + r && 0 <= r < a;
    assert a * (m - q) == r;
    MulBounds(a, m - q);
  }

  /** `h * perHead` rows of `d` columns hold a third of `3 * h * d * perHead` elements. */
  lemma RowsTimesColumns(h: nat, perHead: nat, d: nat)
    ensures (h * perHead) * d == (h * d) * perHead
  {
  }

  /** A multiple of `a * b` is a multiple of `a`, by `b` times as much. */
  lemma DivisibleByFactor(n: nat, a: nat, b: nat)
    requires a * b > 0 && n % (a * b) == 0
    ensures n % a == 0 && n / a == b * (n / (a * b))
  {
    var q := n / (a * b);
    assert n == (a * b) * q;
    assert n == a * (b * q);
    MulDiv(a, b * q);
  }

  // ---------------------------------------------------------------------
  // The error raised is the first check that fails
  // ---------------------------------------------------------------------

  /** When step `k` fails and every step before it passes, its error is the one raised. */
  lemma {:induction false} FirstFailureAt(steps: seq<Step>, k: nat)
    requires k < |steps| && !steps[k].passes
    requires forall j :: 0 <= j < k ==> steps[j].passes
    ensures FirstFailure(steps) == Some(steps[k].error)
  {
    if k > 0 {
      assert steps[0].passes;
      forall j | 0 <= j < k - 1
        ensures steps[1..][j].passes
      {
        assert steps[1..][j] == steps[j + 1];
      }
      FirstFailureAt(steps[1..], k - 1);
    }
  }

  /** The checks of two pieces of code in a row: the second piece runs only when the first passes. */
  lemma {:induction false} FirstFailureAppend(a: seq<Step>, b: seq<Step>)
    ensures FirstFailure(a + b) == if FirstFailure(a).Some? then FirstFailure(a) else FirstFailure(b)
  {
    if |a| == 0 {
      assert a + b == b;
    } else {
      assert (a + b)[1..] == a[1..] + b;
      FirstFailureAppend(a[1..], b);
    }
  }

  /** The checks before the layer loop pass exactly when the top-level tensors are ready, and fail only for a genuine fault. */
  lemma TopStepsSpec<E>(src: State<E>, nm: Naming, e: Exception)
    ensures FirstFailure(TopSteps(src, nm)).None? <==> TopReady(src, nm)
    ensures FirstFailure(TopSteps(src, nm)) == Some(e) ==> TopFault(src, nm, e)
  {
    var steps := TopSteps(src, nm);
    if FirstFailure(steps).None? {
      assert steps[0].passes && steps[1].passes && steps[2].passes;
      assert steps[3].passes && steps[4].passes && steps[5].passes;
    }
  }

  /** The attention checks pass exactly when the attention tensors are ready, and fail only for a genuine fault. */
  lemma AttentionStepsSpec<E>(cfg: ModelConfig, nm: Naming, i: nat, v: Block<E>, e: Exception)
    ensures FirstFailure(AttentionSteps(cfg, nm, i, v)).None? <==> AttentionReady(cfg, v)
    ensures FirstFailure(AttentionSteps(cfg, nm, i, v)) == Some(e) ==> LayerFault(cfg, nm, i, v, e)
  {
    var a := AttentionSteps(cfg, nm, i, v);
    if FirstFailure(a).None? {
      assert a[0].passes && a[1].passes && a[2].passes && a[3].passes && a[4].passes && a[5].passes;
    }
  }

  /** The MLP checks pass exactly when the MLP tensors are ready, and fail only for a genuine fault. */
  lemma MlpStepsSpec<E>(cfg: ModelConfig, nm: Naming, i: nat, v: Block<E>, e: Exception)
    ensures FirstFailure(MlpSteps(nm, i, v)).None? <==> MlpReady(v)
    ensures FirstFailure(MlpSteps(nm, i, v)) == Some(e) ==> LayerFault(cfg, nm, i, v, e)
  {
    var m := MlpSteps(nm, i, v);
    if FirstFailure(m).None? {
      assert m[0].passes && m[1].passes;
      if HasMlpBias(v) {
        assert m[3].passes;
      }
    }
  }

  /** The norm checks pass exactly when the norm tensors are present, and fail only for a missing one. */
  lemma NormStepsSpec<E>(cfg: ModelConfig, nm: Naming, i: nat, v: Block<E>, e: Exception)
    ensures FirstFailure(NormSteps(nm, i, v)).None? <==> NormsReady(v)
    ensures FirstFailure(NormSteps(nm, i, v)) == Some(e) ==> LayerFault(cfg, nm, i, v, e)
  {
    var n := NormSteps(nm, i, v);
    if FirstFailure(n).None? {
      assert n[0].passes && n[1].passes && n[2].passes && n[3].passes;
    }
  }

  /** A layer passes its checks exactly when it is ready, and fails only for a reason its block exhibits. */
  lemma LayerStepsSpec<E>(cfg: ModelConfig, nm: Naming, i: nat, v: Block<E>, e: Exception)
    ensures FirstFailure(LayerSteps(cfg, nm, i, v)).None? <==> LayerReady(cfg, v)
    ensures FirstFailure(LayerSteps(cfg, nm, i, v)) == Some(e) ==> LayerFault(cfg, nm, i, v, e)
  {
    var a, m, n := AttentionSteps(cfg, nm, i, v), MlpSteps(nm, i, v), NormSteps(nm, i, v);
    AttentionStepsSpec(cfg, nm, i, v, e);
    MlpStepsSpec(cfg, nm, i, v, e);
    NormStepsSpec(cfg, nm, i, v, e);
    FirstFailureAppend(a, m);
    FirstFailureAppend(a + m, n);
  }

  /** The error the conversion raises is one the inputs exhibit. */
  lemma FirstFaultIsFault<E>(cfg: ModelConfig, src: State<E>, nm: Naming, e: Exception)
    requires FirstFault(cfg, src, nm, e)
    ensures Fault(cfg, src, nm, e)
  {
    if cfg.numAttentionHeads > 0 {
      if FirstFailure(TopSteps(src, nm)).Some? {
        TopStepsSpec(src, nm, e);
      } else {
        var i: nat :| i < LayerCount(cfg) && ReadyBelow(cfg, src, nm, i)
                      && FirstFailure(LayerSteps(cfg, nm, i, BlockOf(src, nm, i))) == Some(e);
        LayerStepsSpec(cfg, nm, i, BlockOf(src, nm, i), e);
      }
    }
  }

  /** There is at most one first fault: the conversion's error is determined by its inputs. */
  lemma FirstFaultUnique<E>(cfg: ModelConfig, src: State<E>, nm: Naming, e: Exception, e': Exception)
    requires FirstFault(cfg, src, nm, e) && FirstFault(cfg, src, nm, e')
    ensures e == e'
  {
    if cfg.numAttentionHeads > 0 && FirstFailure(TopSteps(src, nm)).None? {
      var i: nat :| i < LayerCount(cfg) && ReadyBelow(cfg, src, nm, i)
                    && FirstFailure(LayerSteps(cfg, nm, i, BlockOf(src, nm, i))) == Some(e);
      var j: nat :| j < LayerCount(cfg) && ReadyBelow(cfg, src, nm, j)
                    && FirstFailure(LayerSteps(cfg, nm, j, BlockOf(src, nm, j))) == Some(e');
      LayerStepsSpec(cfg, nm, i, BlockOf(src, nm, i), e);
      LayerStepsSpec(cfg, nm, j, BlockOf(src, nm, j), e');
      assert i == j;
    }
  }

  /** Some layer below `n` is not ready, so there is a first one. */
  lemma {:induction false} FirstNotReady<E>(cfg: ModelConfig, src: State<E>, nm: Naming, n: nat)
    requires !ReadyBelow(cfg, src, nm, n)
    ensures exists i: nat :: i < n && ReadyBelow(cfg, src, nm, i) && !LayerReady(cfg, BlockOf(src, nm, i))
  {
    var m := n - 1;
    if ReadyBelow(cfg, src, nm, m) {
      assert !LayerReady(cfg, BlockOf(src, nm, m));
    } else {
      FirstNotReady(cfg, src, nm, m);
    }
  }

  /** The conversion fails exactly when there is a first fault. */
  lemma FirstFaultExists<E>(cfg: ModelConfig, src: State<E>, nm: Naming)
    ensures !Succeeds(cfg, src, nm) <==> exists e :: FirstFault(cfg, src, nm, e)
  {
    TopStepsSpec(src, nm, ZeroDivisionError);
    if cfg.numAttentionHeads == 0 {
      assert FirstFault(cfg, src, nm, ZeroDivisionError);
    } else if FirstFailure(TopSteps(src, nm)).Some? {
      assert FirstFault(cfg, src, nm, FirstFailure(TopSteps(src, nm)).value);
    } else if !Succeeds(cfg, src, nm) {
      FirstNotReady(cfg, src, nm, LayerCount(cfg));
      var i: nat :| i < LayerCount(cfg) && ReadyBelow(cfg, src, nm, i) && !LayerReady(cfg, BlockOf(src, nm, i));
      LayerStepsSpec(cfg, nm, i, BlockOf(src, nm, i), ZeroDivisionError);
      var e := FirstFailure(LayerSteps(cfg, nm, i, BlockOf(src, nm, i))).value;
      assert FirstFault(cfg, src, nm, e);
    }
    if Succeeds(cfg, src, nm) {
      forall e | FirstFault(cfg, src, nm, e)
        ensures false
      {
        var i: nat :| i < LayerCount(cfg) && ReadyBelow(cfg, src, nm, i)
                      && FirstFailure(LayerSteps(cfg, nm, i, BlockOf(src, nm, i))) == Some(e);
        LayerStepsSpec(cfg, nm, i, BlockOf(src, nm, i), ZeroDivisionError);
      }
    }
  }
}
