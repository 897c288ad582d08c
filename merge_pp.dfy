/**
 * The pipeline-stage merge of `merge_pp`: for every tensor-parallel rank the
 * shards of its pipeline stages are folded, in stage order, into one ordered
 * dict; the leftmost `.<digits>.` layer token of every tensor name is shifted
 * by the number of layers the earlier stages held, and finally a leading
 * `model.` is stripped from every name. Tensor values are opaque (`V`).
 */
module MergePp {
  import opened Wrappers
  import opened Decimal

  /** A shard as loaded: tensor names with their tensors, in insertion order. */
  type Shard<V> = seq<(string, V)>

  // ---------------------------------------------------------------------
  // The layer token: `re.search("\.\d+\.", key)`
  // ---------------------------------------------------------------------

  /** The span `[start, end)` of a match, both dots included. */
  datatype Span = Span(start: nat, end: nat)

  /** Length of the run of ASCII digits that begins at `i`. */
  function DigitRun(s: string, i: nat): (n: nat)
    requires i <= |s|
    ensures i + n <= |s|
    decreases |s| - i
  {
    if i < |s| && IsDigit(s[i]) then 1 + DigitRun(s, i + 1) else 0
  }

  /**
   * The pattern `\.\d+\.` matches at `j`. A greedy `\d+` can only be followed
   * by the closing dot when it takes the whole digit run, so backtracking to a
   * shorter run never yields another match at the same position.
   */
  predicate TokenAt(s: string, j: nat) {
    j < |s| && s[j] == '.' &&
    var n := DigitRun(s, j + 1);
    n >= 1 && j + 1 + n < |s| && s[j + 1 + n] == '.'
  }

  function SearchFrom(s: string, j: nat): (r: Option<Span>)
    requires j <= |s|
    ensures r.Some? ==> j <= r.value.start && TokenAt(s, r.value.start)
    ensures r.Some? ==> r.value.end == r.value.start + 2 + DigitRun(s, r.value.start + 1)
    decreases |s| - j
  {
    if j == |s| then None
    else if TokenAt(s, j) then Some(Span(j, j + 2 + DigitRun(s, j + 1)))
    else SearchFrom(s, j + 1)
  }

  /** `re.search("\.\d+\.", s).span()`: the leftmost match, if there is one. */
  function Search(s: string): (r: Option<Span>)
    ensures r.Some? ==> TokenAt(s, r.value.start)
    ensures r.Some? ==> r.value.end == r.value.start + 2 + DigitRun(s, r.value.start + 1)
  {
    SearchFrom(s, 0)
  }

  /** The digits between the two dots of a match. */
  function TokenDigits(s: string, sp: Span): (d: string)
    requires Search(s) == Some(sp)
    ensures IsDigits(d) && |d| >= 1
  {
    DigitRunSpec(s, sp.start + 1);
    s[sp.start + 1..sp.end - 1]
  }

  /** `int(...)` of the leftmost layer token of `key`, if it has one. */
  function LocalIndex(key: string): Option<nat> {
    match Search(key)
    case None => None
    case Some(sp) => Some(Value(TokenDigits(key, sp)))
  }

  /**
   * The name `key` takes in the merged state of a stage whose layers start at
   * `shift`: the leftmost token `.<n>.` becomes `.<n + shift>.` (formatted by
   * `str`, so leading zeros disappear); a name without token is kept.
   */
  function ShiftKey(key: string, shift: nat): string {
    match Search(key)
    case None => key
    case Some(sp) =>
      key[..sp.start] + "." + NatToString(Value(TokenDigits(key, sp)) + shift) + "." + key[sp.end..]
  }

  // ---------------------------------------------------------------------
  // The ordered dict `tp_states`
  // ---------------------------------------------------------------------

  /** A Python dict: its keys in first-insertion order and its mapping. */
  datatype Dict<V> = Dict(order: seq<string>, entries: map<string, V>) {

    ghost predicate Valid() {
      && (forall k :: k in entries <==> k in order)
      && (forall i, j :: 0 <= i < j < |order| ==> order[i] != order[j])
    }

    /** `d[k] = v`: a new key goes last, an existing key keeps its place. */
    function Insert(k: string, v: V): (r: Dict<V>)
      requires Valid()
      ensures r.Valid()
      ensures r.entries == entries[k := v]
    {
      if k in entries then Dict(order, entries[k := v]) else Dict(order + [k], entries[k := v])
    }
  }

  function EmptyDict<V>(): (d: Dict<V>)
    ensures d.Valid() && d.entries == map[]
  {
    Dict([], map[])
  }

  /** Assigns the pairs of `kvs` into `d`, one after the other. */
  function InsertAll<V>(d: Dict<V>, kvs: seq<(string, V)>): (r: Dict<V>)
    requires d.Valid()
    ensures r.Valid()
  {
    if |kvs| == 0 then d
    else InsertAll(d, kvs[..|kvs| - 1]).Insert(kvs[|kvs| - 1].0, kvs[|kvs| - 1].1)
  }

  /** `dict(kvs)`: the reference meaning of a sequence of assignments, last one wins. */
  function ToMap<V>(kvs: seq<(string, V)>): map<string, V> {
    if |kvs| == 0 then map[]
    else ToMap(kvs[..|kvs| - 1])[kvs[|kvs| - 1].0 := kvs[|kvs| - 1].1]
  }

  // ---------------------------------------------------------------------
  // One rank: stages in order, the running layer shift, the prefix strip
  // ---------------------------------------------------------------------

  /** A stage's pairs under their shifted names. */
  function Renamed<V>(stage: Shard<V>, shift: nat): (r: Shard<V>)
    ensures |r| == |stage|
    ensures forall i :: 0 <= i < |stage| ==> r[i] == (ShiftKey(stage[i].0, shift), stage[i].1)
  {
    seq(|stage|, i requires 0 <= i < |stage| => (ShiftKey(stage[i].0, shift), stage[i].1))
  }

  /** `_layer_shift` after a stage: the largest local layer index, 0 when there is none. */
  function StageMax<V>(stage: Shard<V>): nat {
    if |stage| == 0 then 0
    else
      var m := StageMax(stage[..|stage| - 1]);
      var last := LocalIndex(stage[|stage| - 1].0);
      if last.Some? && last.value > m then last.value else m
  }

  /** `layer_shift` after the given stages: each adds its largest local index plus one. */
  function Shift<V>(stages: seq<Shard<V>>): (shift: nat)
    ensures shift >= |stages|
  {
    if |stages| == 0 then 0
    else Shift(stages[..|stages| - 1]) + StageMax(stages[|stages| - 1]) + 1
  }

  /** `tp_states` after the given stages. */
  function MergeStages<V>(stages: seq<Shard<V>>): (d: Dict<V>)
    ensures d.Valid()
  {
    if |stages| == 0 then EmptyDict()
    else
      var init := stages[..|stages| - 1];
      InsertAll(MergeStages(init), Renamed(stages[|stages| - 1], Shift(init)))
  }

  /** One more stage: the fold step of `MergeStages` and `Shift` on a prefix. */
  lemma MergeStagesStep<V>(stages: seq<Shard<V>>, k: nat)
    requires k < |stages|
    ensures Shift(stages[..k + 1]) == Shift(stages[..k]) + StageMax(stages[k]) + 1
    ensures MergeStages(stages[..k + 1]) == InsertAll(MergeStages(stages[..k]), Renamed(stages[k], Shift(stages[..k])))
  {
    assert stages[..k + 1][..k] == stages[..k];
  }

  /** `key[6:] if key.startswith("model.") else key` */
  function StripName(key: string): (name: string)
    ensures name == key || "model." + name == key
  {
    if |key| >= 6 && key[..6] == "model." then key[6..] else key
  }

  function StripAll<V>(order: seq<string>, entries: map<string, V>): map<string, V>
    requires forall k :: k in order ==> k in entries
  {
    if |order| == 0 then map[]
    else StripAll(order[..|order| - 1], entries)[StripName(order[|order| - 1]) := entries[order[|order| - 1]]]
  }

  /** The dict comprehension that strips the prefix, in insertion order. */
  function Strip<V>(d: Dict<V>): map<string, V>
    requires d.Valid()
  {
    StripAll(d.order, d.entries)
  }

  /** The merged state of one tensor-parallel rank. */
  function MergedRank<V>(stages: seq<Shard<V>>): map<string, V> {
    Strip(MergeStages(stages))
  }

  /** The merged states of the given ranks, each cut to its first `maxPp` stages. */
  function MergedRanks<V>(grid: seq<seq<Shard<V>>>, maxPp: nat): seq<map<string, V>>
    requires forall t :: 0 <= t < |grid| ==> maxPp <= |grid[t]|
  {
    seq(|grid|, t requires 0 <= t < |grid| => MergedRank(grid[t][..maxPp]))
  }

  /** `merge_pp` raises IndexError: no rank at all, or a rank with fewer stages than rank 0. */
  predicate MergeFails<V>(grid: seq<seq<Shard<V>>>) {
    |grid| == 0 || exists t :: 0 <= t < |grid| && |grid[t]| < |grid[0]|
  }

  // ---------------------------------------------------------------------
  // merge_pp
  // ---------------------------------------------------------------------

  /**
   * The body of the stage loop of `merge_pp`: assigns every tensor of one
   * stage into `tp_states` under its shifted name and computes `_layer_shift`.
   */
  method MergeStage<V>(tpStates: Dict<V>, states: Shard<V>, layerShift: nat)
      returns (merged: Dict<V>, layerMax: nat)
    requires tpStates.Valid()
    ensures merged == InsertAll(tpStates, Renamed(states, layerShift))
    ensures layerMax == StageMax(states)
  {
    merged, layerMax := tpStates, 0;
    for i := 0 to |states|
      invariant layerMax == StageMax(states[..i])
      invariant merged == InsertAll(tpStates, Renamed(states, layerShift)[..i])
    {
      var (key, value) := states[i];
      match Search(key) {
        case Some(sp) =>
          var local := Value(TokenDigits(key, sp));
          var layerIdx := local + layerShift;
          layerMax := if local > layerMax then local else layerMax;
          var name := key[..sp.start] + "." + NatToString(layerIdx) + "." + key[sp.end..];
          merged := merged.Insert(name, value);
        case None =>
          merged := merged.Insert(key, value);
      }
      assert states[..i + 1][..i] == states[..i];
      assert Renamed(states, layerShift)[..i + 1][..i] == Renamed(states, layerShift)[..i];
    }
    assert states[..|states|] == states;
    assert Renamed(states, layerShift)[..|states|] == Renamed(states, layerShift);
  }

  /**
   * The body of the rank loop of `merge_pp`: folds the first `maxPp` stages
   * of one rank into `tp_states`, then strips the `model.` prefix.
   */
  method MergeRank<V>(stages: seq<Shard<V>>, maxPp: nat) returns (r: Result<map<string, V>>)
    ensures r.Ok? <==> maxPp <= |stages|
    ensures r.Err? ==> r.error == IndexError
    ensures r.Ok? ==> r.value == MergedRank(stages[..maxPp])
  {
    var layerShift: nat := 0;
    var tpStates: Dict<V> := EmptyDict();
    for pp := 0 to maxPp
      invariant pp <= |stages|
      invariant layerShift == Shift(stages[..pp])
      invariant tpStates == MergeStages(stages[..pp])
    {
      if pp >= |stages| {
        return Err(IndexError);
      }
      var layerMax;
      tpStates, layerMax := MergeStage(tpStates, stages[pp], layerShift);
      MergeStagesStep(stages, pp);
      layerShift := layerShift + layerMax + 1;
    }
    return Ok(Strip(tpStates));
  }

  /**
   * `merge_pp(states_tp_pp)`: one merged state per tensor-parallel rank, each
   * over as many stages as rank 0 has.
   */
  method MergePP<V>(grid: seq<seq<Shard<V>>>) returns (r: Result<seq<map<string, V>>>)
    ensures r.Ok? <==> !MergeFails(grid)
    ensures r.Err? ==> r.error == IndexError
    ensures r.Ok? ==> r.value == MergedRanks(grid, |grid[0]|)
  {
    if |grid| == 0 {
      return Err(IndexError);
    }
    var maxTp, maxPp := |grid|, |grid[0]|;
    var fullStates: seq<map<string, V>> := [];
    for tp := 0 to maxTp
      invariant forall t :: 0 <= t < tp ==> |grid[t]| >= maxPp
      invariant fullStates == MergedRanks(grid[..tp], maxPp)
    {
      var merged := MergeRank(grid[tp], maxPp);
      if merged.Err? {
        assert |grid[tp]| < |grid[0]|;
        return Err(IndexError);
      }
      fullStates := fullStates + [merged.value];
    }
    assert grid[..maxTp] == grid;
    return Ok(fullStates);
  }

  // ---------------------------------------------------------------------
  // The token search
  // ---------------------------------------------------------------------

  /** The run is made of digits and is maximal. */
  lemma {:induction false} DigitRunSpec(s: string, i: nat)
    requires i <= |s|
    ensures forall j :: i <= j < i + DigitRun(s, i) ==> IsDigit(s[j])
    ensures i + DigitRun(s, i) == |s| || !IsDigit(s[i + DigitRun(s, i)])
    decreases |s| - i
  {
    if i < |s| && IsDigit(s[i]) {
      DigitRunSpec(s, i + 1);
    }
  }

  /** `Search` finds the leftmost match, and finds none only when there is none. */
  lemma {:induction false} SearchFromSpec(s: string, j: nat)
    requires j <= |s|
    ensures SearchFrom(s, j).Some? ==> forall m :: j <= m < SearchFrom(s, j).value.start ==> !TokenAt(s, m)
    ensures SearchFrom(s, j).None? ==> forall m :: j <= m < |s| ==> !TokenAt(s, m)
    decreases |s| - j
  {
    if j < |s| && !TokenAt(s, j) {
      SearchFromSpec(s, j + 1);
    }
  }

  lemma SearchSpec(s: string)
    ensures Search(s).Some? ==> forall m :: 0 <= m < Search(s).value.start ==> !TokenAt(s, m)
    ensures Search(s).None? ==> forall m :: 0 <= m < |s| ==> !TokenAt(s, m)
  {
    SearchFromSpec(s, 0);
  }

  // ---------------------------------------------------------------------
  // The layer shift
  // ---------------------------------------------------------------------

  /**
   * `_layer_shift` is the largest local layer index of the stage, or 0 when
   * the stage has no indexed name (so the shift still advances by one).
   */
  lemma {:induction false} StageMaxSpec<V>(stage: Shard<V>)
    ensures forall i :: 0 <= i < |stage| && LocalIndex(stage[i].0).Some? ==> LocalIndex(stage[i].0).value <= StageMax(stage)
    ensures StageMax(stage) == 0 || exists i :: 0 <= i < |stage| && LocalIndex(stage[i].0) == Some(StageMax(stage))
  {
    if |stage| > 0 {
      var init := stage[..|stage| - 1];
      StageMaxSpec(init);
      assert forall i :: 0 <= i < |init| ==> init[i] == stage[i];
    }
  }

  // ---------------------------------------------------------------------
  // Renaming one name
  // ---------------------------------------------------------------------

  /** Two strings that agree up to a non-digit at `s` have the same digit runs before it. */
  lemma {:induction false} DigitRunAgree(a: string, b: string, i: nat, s: nat)
    requires i <= s < |a| && s < |b| && a[..s + 1] == b[..s + 1] && !IsDigit(a[s])
    ensures DigitRun(a, i) == DigitRun(b, i)
    decreases s - i
  {
    assert a[i] == a[..s + 1][i] == b[..s + 1][i] == b[i];
    if i < s && IsDigit(a[i]) {
      DigitRunAgree(a, b, i + 1, s);
    }
  }

  /** ... and so the same matches before it. */
  lemma TokenAtAgree(a: string, b: string, m: nat, s: nat)
    requires m < s < |a| && s < |b| && a[..s + 1] == b[..s + 1] && a[s] == '.'
    ensures TokenAt(a, m) == TokenAt(b, m)
  {
    DigitRunAgree(a, b, m + 1, s);
    DigitRunSpec(a, m + 1);
    var n := DigitRun(a, m + 1);
    assert m + 1 + n <= s;
    assert a[m] == a[..s + 1][m] == b[..s + 1][m] == b[m];
    assert a[m + 1 + n] == a[..s + 1][m + 1 + n] == b[..s + 1][m + 1 + n] == b[m + 1 + n];
  }

  /** A run of `n` digits followed by a non-digit has length `n`. */
  lemma {:induction false} DigitRunOf(x: string, i: nat, n: nat)
    requires i + n < |x| && !IsDigit(x[i + n])
    requires forall j :: i <= j < i + n ==> IsDigit(x[j])
    ensures DigitRun(x, i) == n
    decreases n
  {
    if n > 0 {
      DigitRunOf(x, i + 1, n - 1);
    }
  }

  /**
   * Renaming rewrites only the leftmost token: the text before and after it is
   * kept, the renamed name has its leftmost token at the same place, and that
   * token reads `local + shift`. A name without token is kept as it is.
   */
  lemma ShiftKeyIndex(key: string, shift: nat)
    ensures LocalIndex(key).None? ==> ShiftKey(key, shift) == key && LocalIndex(key) == None
    ensures LocalIndex(key).Some? ==> LocalIndex(ShiftKey(key, shift)) == Some(LocalIndex(key).value + shift)
    ensures Search(key).Some? ==>
      var sp := Search(key).value;
      var r := ShiftKey(key, shift);
      && Search(r).Some? && Search(r).value.start == sp.start
      && r[..sp.start] == key[..sp.start]
      && |key| - sp.end <= |r| && r[|r| - (|key| - sp.end)..] == key[sp.end..]
  {
    match Search(key) {
      case None =>
      case Some(sp) =>
        var num := NatToString(Value(TokenDigits(key, sp)) + shift);
        RetokenedSearch(key, sp, num);
        var r := ShiftKey(key, shift);
        assert r == key[..sp.start] + "." + num + "." + key[sp.end..];
        assert r[|r| - (|key| - sp.end)..] == key[sp.end..];
    }
  }

  /** Writing any numeral into the leftmost token keeps it the leftmost token. */
  lemma RetokenedSearch(key: string, sp: Span, num: string)
    requires Search(key) == Some(sp) && IsDigits(num) && |num| >= 1
    ensures
      var r := key[..sp.start] + "." + num + "." + key[sp.end..];
      var rsp := Span(sp.start, sp.start + 2 + |num|);
      Search(r) == Some(rsp) && TokenDigits(r, rsp) == num
  {
    var s := sp.start;
    var r := key[..s] + "." + num + "." + key[sp.end..];
    assert r[..s + 1] == key[..s + 1];
    forall m: nat | m < s
      ensures !TokenAt(r, m)
    {
      SearchSpec(key);
      TokenAtAgree(key, r, m, s);
    }
    assert r[s + 1..s + 1 + |num|] == num;
    DigitRunOf(r, s + 1, |num|);
    assert TokenAt(r, s);
    SearchSpec(r);
  }

  /** Shifting twice is shifting by the sum. */
  lemma ShiftKeyCompose(key: string, a: nat, b: nat)
    ensures ShiftKey(ShiftKey(key, a), b) == ShiftKey(key, a + b)
  {
    match Search(key) {
      case None =>
      case Some(sp) =>
        var v := Value(TokenDigits(key, sp));
        var num := NatToString(v + a);
        var r := key[..sp.start] + "." + num + "." + key[sp.end..];
        var rsp := Span(sp.start, sp.start + 2 + |num|);
        assert ShiftKey(key, a) == r;
        RetokenedSearch(key, sp, num);
        assert Value(TokenDigits(r, rsp)) == v + a;
        assert r[..rsp.start] == key[..sp.start];
        assert r[rsp.end..] == key[sp.end..];
        assert ShiftKey(r, b) == key[..sp.start] + "." + NatToString(v + a + b) + "." + key[sp.end..];
    }
  }

  /**
   * A shift of zero leaves a name alone exactly when its token is already
   * written as `str` would write it: `blocks.01.x` becomes `blocks.1.x`.
   */
  lemma ShiftKeyZero(key: string)
    ensures ShiftKey(key, 0) == key <==> Search(key).None? || IsCanonical(TokenDigits(key, Search(key).value))
  {
    match Search(key) {
      case None =>
      case Some(sp) =>
        var d := TokenDigits(key, sp);
        var num := NatToString(Value(d));
        NatToStringOfValue(d);
        var pre, post := key[..sp.start] + ".", "." + key[sp.end..];
        assert key == pre + d + post;
        assert ShiftKey(key, 0) == pre + num + post;
        if pre + num + post == pre + d + post {
          assert num == (pre + num + post)[|pre|..|pre| + |num|];
        }
    }
  }

  // ---------------------------------------------------------------------
  // Dict assignment: last write wins
  // ---------------------------------------------------------------------

  /** The names assigned by a sequence of pairs. */
  function KeysOf<V>(kvs: seq<(string, V)>): set<string> {
    set i | 0 <= i < |kvs| :: kvs[i].0
  }

  /** `dict(kvs)` has the names of `kvs`, each with the value of its last pair. */
  lemma {:induction false} ToMapSpec<V>(kvs: seq<(string, V)>)
    ensures ToMap(kvs).Keys == KeysOf(kvs)
    ensures forall i :: 0 <= i < |kvs| && (forall j :: i < j < |kvs| ==> kvs[j].0 != kvs[i].0) ==>
      kvs[i].0 in ToMap(kvs) && ToMap(kvs)[kvs[i].0] == kvs[i].1
  {
    if |kvs| > 0 {
      var n := |kvs| - 1;
      var init, last := kvs[..n], kvs[n];
      ToMapSpec(init);
      assert forall i :: 0 <= i < |init| ==> init[i] == kvs[i];
      assert ToMap(kvs) == ToMap(init)[last.0 := last.1];
      assert KeysOf(kvs) == KeysOf(init) + {last.0};
      forall i | 0 <= i < |kvs| && (forall j :: i < j < |kvs| ==> kvs[j].0 != kvs[i].0)
        ensures kvs[i].0 in ToMap(kvs) && ToMap(kvs)[kvs[i].0] == kvs[i].1
      {
        if i < n {
          assert last.0 != kvs[i].0;
          assert forall j :: i < j < |init| ==> init[j].0 != init[i].0;
        }
      }
    }
  }

  /** Assigning pairs into a dict overrides it with `dict(kvs)`. */
  lemma {:induction false} InsertAllEntries<V>(d: Dict<V>, kvs: seq<(string, V)>)
    requires d.Valid()
    ensures InsertAll(d, kvs).entries == d.entries + ToMap(kvs)
  {
    if |kvs| > 0 {
      var init, last := kvs[..|kvs| - 1], kvs[|kvs| - 1];
      InsertAllEntries(d, init);
      assert InsertAll(d, kvs).entries == InsertAll(d, init).entries[last.0 := last.1];
      OverrideUpdate(d.entries, ToMap(init), last.0, last.1);
    }
  }

  /** Assigning after an override is assigning into the overriding map. */
  lemma OverrideUpdate<V>(a: map<string, V>, b: map<string, V>, k: string, v: V)
    ensures (a + b)[k := v] == a + b[k := v]
  {
  }

  /**
   * A rank's state after one more stage: the earlier stages' state
   * overridden by the new stage's renamed tensors, so on a name collision the
   * later stage wins.
   */
  lemma LaterStageWins<V>(stages: seq<Shard<V>>)
    requires |stages| > 0
    ensures
      var init := stages[..|stages| - 1];
      MergeStages(stages).entries == MergeStages(init).entries + ToMap(Renamed(stages[|stages| - 1], Shift(init)))
  {
    var init := stages[..|stages| - 1];
    InsertAllEntries(MergeStages(init), Renamed(stages[|stages| - 1], Shift(init)));
  }

  // ---------------------------------------------------------------------
  // Names of the merged state
  // ---------------------------------------------------------------------

  /** The renamed names of all stages. */
  function RenamedKeys<V>(stages: seq<Shard<V>>): set<string> {
    if |stages| == 0 then {}
    else
      var init := stages[..|stages| - 1];
      RenamedKeys(init) + KeysOf(Renamed(stages[|stages| - 1], Shift(init)))
  }

  /** The merged state holds exactly the renamed names of all stages. */
  lemma {:induction false} MergeKeys<V>(stages: seq<Shard<V>>)
    ensures MergeStages(stages).entries.Keys == RenamedKeys(stages)
  {
    if |stages| > 0 {
      var init := stages[..|stages| - 1];
      MergeKeys(init);
      LaterStageWins(stages);
      ToMapSpec(Renamed(stages[|stages| - 1], Shift(init)));
    }
  }

  /** Every tensor of every stage is there under its name shifted by the stages before it. */
  lemma {:induction false} RenamedKeysMember<V>(stages: seq<Shard<V>>, p: nat, i: nat)
    requires p < |stages| && i < |stages[p]|
    ensures ShiftKey(stages[p][i].0, Shift(stages[..p])) in RenamedKeys(stages)
  {
    var init := stages[..|stages| - 1];
    if p == |stages| - 1 {
      assert init == stages[..p];
      var renamed := Renamed(stages[p], Shift(init));
      assert renamed[i].0 == ShiftKey(stages[p][i].0, Shift(stages[..p]));
    } else {
      RenamedKeysMember(init, p, i);
      assert init[..p] == stages[..p];
    }
  }

  /** The names that the prefix strip produces. */
  lemma {:induction false} StripAllKeys<V>(order: seq<string>, entries: map<string, V>)
    requires forall k :: k in order ==> k in entries
    ensures StripAll(order, entries).Keys == set k | k in order :: StripName(k)
  {
    if |order| > 0 {
      var init := order[..|order| - 1];
      StripAllKeys(init, entries);
      assert forall k :: k in order <==> k in init || k == order[|order| - 1];
    }
  }

  /** The tensor a stripped name gets is that of the last name that strips to it. */
  lemma {:induction false} StripAllLast<V>(order: seq<string>, entries: map<string, V>, i: nat)
    requires forall k :: k in order ==> k in entries
    requires i < |order| && forall j :: i < j < |order| ==> StripName(order[j]) != StripName(order[i])
    ensures StripName(order[i]) in StripAll(order, entries)
    ensures StripAll(order, entries)[StripName(order[i])] == entries[order[i]]
  {
    var n := |order| - 1;
    if i < n {
      var init := order[..n];
      StripAllLast(init, entries, i);
    }
  }

  /**
   * After the strip, a name is there exactly when some merged name strips to
   * it; when no other merged name strips to the same name, it keeps its tensor.
   */
  lemma StripSpec<V>(d: Dict<V>)
    requires d.Valid()
    ensures Strip(d).Keys == set k | k in d.entries :: StripName(k)
    ensures forall k :: k in d.entries && (forall k' :: k' in d.entries && k' != k ==> StripName(k') != StripName(k)) ==>
      StripName(k) in Strip(d) && Strip(d)[StripName(k)] == d.entries[k]
  {
    StripAllKeys(d.order, d.entries);
    assert (set k | k in d.order :: StripName(k)) == (set k | k in d.entries :: StripName(k));
    forall k | k in d.entries && (forall k' :: k' in d.entries && k' != k ==> StripName(k') != StripName(k))
      ensures StripName(k) in Strip(d) && Strip(d)[StripName(k)] == d.entries[k]
    {
      var i :| 0 <= i < |d.order| && d.order[i] == k;
      StripAllLast(d.order, d.entries, i);
    }
  }

  /**
   * A tensor whose name has no layer token keeps its name in the merged
   * state, except for a leading `model.`.
   */
  lemma UnindexedKeyKept<V>(stages: seq<Shard<V>>, p: nat, i: nat)
    requires p < |stages| && i < |stages[p]| && LocalIndex(stages[p][i].0).None?
    ensures StripName(stages[p][i].0) in MergedRank(stages)
  {
    ShiftKeyIndex(stages[p][i].0, Shift(stages[..p]));
    RenamedKeysMember(stages, p, i);
    MergeKeys(stages);
    StripSpec(MergeStages(stages));
  }

  // ---------------------------------------------------------------------
  // Without layer tokens the merge is a dict union
  // ---------------------------------------------------------------------

  /** `{**s0, **s1, ...}`: later stages override earlier ones. */
  function Union<V>(stages: seq<Shard<V>>): map<string, V> {
    if |stages| == 0 then map[] else Union(stages[..|stages| - 1]) + ToMap(stages[|stages| - 1])
  }

  predicate Unindexed<V>(stages: seq<Shard<V>>) {
    forall p, i :: 0 <= p < |stages| && 0 <= i < |stages[p]| ==> Search(stages[p][i].0).None?
  }

  /** When no name carries a layer token, merging the stages is their dict union. */
  lemma {:induction false} MergeIsUnion<V>(stages: seq<Shard<V>>)
    requires Unindexed(stages)
    ensures MergeStages(stages).entries == Union(stages)
  {
    if |stages| > 0 {
      var init, last := stages[..|stages| - 1], stages[|stages| - 1];
      assert forall p :: 0 <= p < |init| ==> init[p] == stages[p];
      MergeIsUnion(init);
      LaterStageWins(stages);
      assert Renamed(last, Shift(init)) == last;
    }
  }

  // ---------------------------------------------------------------------
  // Layer numbering across stages
  // ---------------------------------------------------------------------

  /** The layer numbers written in a set of names. */
  function LayerIndices(keys: set<string>): set<nat> {
    set k | k in keys && LocalIndex(k).Some? :: LocalIndex(k).value
  }

  /** `s` is exactly the numbers `lo .. hi-1`. */
  ghost predicate IsRange(s: set<nat>, lo: nat, hi: nat) {
    forall x: nat :: x in s <==> lo <= x < hi
  }

  function Sum(xs: seq<nat>): nat {
    if |xs| == 0 then 0 else Sum(xs[..|xs| - 1]) + xs[|xs| - 1]
  }

  /** Each stage holds local layers `0 .. counts[p]-1`, at least one of them. */
  ghost predicate ContiguousStages<V>(stages: seq<Shard<V>>, counts: seq<nat>) {
    |counts| == |stages| &&
    forall p :: 0 <= p < |stages| ==> counts[p] >= 1 && IsRange(LayerIndices(KeysOf(stages[p])), 0, counts[p])
  }

  /** A stage holding local layers `0 .. count-1` advances the shift by `count`. */
  lemma StageMaxOfRange<V>(stage: Shard<V>, count: nat)
    requires count >= 1 && IsRange(LayerIndices(KeysOf(stage)), 0, count)
    ensures StageMax(stage) == count - 1
  {
    StageMaxSpec(stage);
    assert count - 1 in LayerIndices(KeysOf(stage));
    var m := StageMax(stage);
    if m != 0 {
      var i :| 0 <= i < |stage| && LocalIndex(stage[i].0) == Some(m);
      assert m in LayerIndices(KeysOf(stage));
    }
  }

  /** Renaming adds the shift to every layer number of a stage. */
  lemma RenamedIndices<V>(stage: Shard<V>, shift: nat)
    ensures forall x: nat :: x in LayerIndices(KeysOf(Renamed(stage, shift))) <==> x >= shift && x - shift in LayerIndices(KeysOf(stage))
  {
    forall x: nat
      ensures x in LayerIndices(KeysOf(Renamed(stage, shift))) <==> x >= shift && x - shift in LayerIndices(KeysOf(stage))
    {
      if x in LayerIndices(KeysOf(Renamed(stage, shift))) {
        RenamedIndexBack(stage, shift, x);
      }
      if x >= shift && x - shift in LayerIndices(KeysOf(stage)) {
        RenamedIndexForth(stage, shift, x);
      }
    }
  }

  lemma RenamedIndexBack<V>(stage: Shard<V>, shift: nat, x: nat)
    requires x in LayerIndices(KeysOf(Renamed(stage, shift)))
    ensures x >= shift && x - shift in LayerIndices(KeysOf(stage))
  {
    var renamed := Renamed(stage, shift);
    var k :| k in KeysOf(renamed) && LocalIndex(k) == Some(x);
    var i :| 0 <= i < |renamed| && renamed[i].0 == k;
    var a := stage[i].0;
    assert k == ShiftKey(a, shift);
    ShiftKeyLocal(a, shift);
    assert LocalIndex(ShiftKey(a, shift)) == Some(x);
    assert LocalIndex(a).Some?;
    assert LocalIndex(a).value + shift == x;
    assert a in KeysOf(stage);
    LayerIndicesMember(KeysOf(stage), a);
  }

  lemma RenamedIndexForth<V>(stage: Shard<V>, shift: nat, x: nat)
    requires x >= shift && x - shift in LayerIndices(KeysOf(stage))
    ensures x in LayerIndices(KeysOf(Renamed(stage, shift)))
  {
    var renamed := Renamed(stage, shift);
    var k :| k in KeysOf(stage) && LocalIndex(k) == Some(x - shift);
    var i :| 0 <= i < |stage| && stage[i].0 == k;
    var b := renamed[i].0;
    assert b == ShiftKey(k, shift);
    ShiftKeyLocal(k, shift);
    assert LocalIndex(k).value + shift == x;
    assert LocalIndex(b) == Some(LocalIndex(k).value + shift);
    assert b in KeysOf(renamed);
    LayerIndicesMember(KeysOf(renamed), b);
  }

  lemma LayerIndicesMember(keys: set<string>, k: string)
    requires k in keys && LocalIndex(k).Some?
    ensures LocalIndex(k).value in LayerIndices(keys)
  {
  }

  /** The layer number part of `ShiftKeyIndex`. */
  lemma ShiftKeyLocal(key: string, shift: nat)
    ensures LocalIndex(ShiftKey(key, shift)) == if LocalIndex(key).Some? then Some(LocalIndex(key).value + shift) else None
  {
    ShiftKeyIndex(key, shift);
  }

  lemma {:induction false} ShiftOfContiguous<V>(stages: seq<Shard<V>>, counts: seq<nat>)
    requires ContiguousStages(stages, counts)
    ensures Shift(stages) == Sum(counts)
  {
    if |stages| > 0 {
      var n := |stages| - 1;
      assert ContiguousStages(stages[..n], counts[..n]);
      ShiftOfContiguous(stages[..n], counts[..n]);
      StageMaxOfRange(stages[n], counts[n]);
    }
  }

  /**
   * When every stage holds local layers `0 .. counts[p]-1`, stage `p`'s layers
   * are renamed to exactly the global layers `Sum(counts[..p]) ..
   * Sum(counts[..p+1])-1`: stage order is kept and no number is skipped.
   */
  lemma StageLayersAfterMerge<V>(stages: seq<Shard<V>>, counts: seq<nat>, p: nat)
    requires ContiguousStages(stages, counts) && p < |stages|
    ensures IsRange(LayerIndices(KeysOf(Renamed(stages[p], Shift(stages[..p])))), Sum(counts[..p]), Sum(counts[..p + 1]))
  {
    assert ContiguousStages(stages[..p], counts[..p]);
    ShiftOfContiguous(stages[..p], counts[..p]);
    RenamedIndices(stages[p], Shift(stages[..p]));
    assert counts[..p + 1][..p] == counts[..p];
  }

  /** ... and the merged state's layer numbers are exactly `0 .. Sum(counts)-1`. */
  lemma {:induction false} MergedLayers<V>(stages: seq<Shard<V>>, counts: seq<nat>)
    requires ContiguousStages(stages, counts)
    ensures IsRange(LayerIndices(MergeStages(stages).entries.Keys), 0, Sum(counts))
  {
    MergeKeys(stages);
    if |stages| > 0 {
      var n := |stages| - 1;
      var init := stages[..n];
      assert ContiguousStages(init, counts[..n]);
      MergedLayers(init, counts[..n]);
      MergeKeys(init);
      StageLayersAfterMerge(stages, counts, n);
      assert counts[..n + 1] == counts;
      var before, added := RenamedKeys(init), KeysOf(Renamed(stages[n], Shift(init)));
      assert RenamedKeys(stages) == before + added;
      assert LayerIndices(before + added) == LayerIndices(before) + LayerIndices(added);
      RangeUnion(LayerIndices(before), LayerIndices(added), 0, Sum(counts[..n]), Sum(counts));
    }
  }

  /** Two adjacent ranges make one. */
  lemma RangeUnion(a: set<nat>, b: set<nat>, lo: nat, mid: nat, hi: nat)
    requires lo <= mid <= hi && IsRange(a, lo, mid) && IsRange(b, mid, hi)
    ensures IsRange(a + b, lo, hi)
  {
  }

  // ---------------------------------------------------------------------
  // Worked examples
  // ---------------------------------------------------------------------

  /** The leftmost layer token of `blocks.0.norm1` is `.0.`. */
  lemma SecondStageSearch()
    ensures Search("blocks.0.norm1") == Some(Span(6, 9))
  {
    var s := "blocks.0.norm1";
    assert DigitRun(s, 8) == 0;
    assert DigitRun(s, 7) == 1;
    assert TokenAt(s, 6);
    assert forall j :: 0 <= j < 6 ==> s[j] != '.';
    assert SearchFrom(s, 6) == Some(Span(6, 9));
    assert SearchFrom(s, 5) == SearchFrom(s, 6);
    assert SearchFrom(s, 4) == SearchFrom(s, 5);
    assert SearchFrom(s, 3) == SearchFrom(s, 4);
    assert SearchFrom(s, 2) == SearchFrom(s, 3);
    assert SearchFrom(s, 1) == SearchFrom(s, 2);
    assert SearchFrom(s, 0) == SearchFrom(s, 1);
  }

  /** With two stages of two layers each, stage 1's local layer 0 is global layer 2. */
  lemma SecondStageExample()
    ensures ShiftKey("blocks.0.norm1", 2) == "blocks.2.norm1"
  {
    SecondStageSearch();
    assert TokenDigits("blocks.0.norm1", Span(6, 9)) == "0";
    assert NatToString(2) == "2";
  }

  /** The leftmost layer token of `blocks.01.x` is `.01.`. */
  lemma LeadingZeroSearch()
    ensures Search("blocks.01.x") == Some(Span(6, 10))
  {
    var s := "blocks.01.x";
    assert DigitRun(s, 9) == 0;
    assert DigitRun(s, 8) == 1;
    assert DigitRun(s, 7) == 2;
    assert TokenAt(s, 6);
    assert forall j :: 0 <= j < 6 ==> s[j] != '.';
    assert SearchFrom(s, 6) == Some(Span(6, 10));
    assert SearchFrom(s, 5) == SearchFrom(s, 6);
    assert SearchFrom(s, 4) == SearchFrom(s, 5);
    assert SearchFrom(s, 3) == SearchFrom(s, 4);
    assert SearchFrom(s, 2) == SearchFrom(s, 3);
    assert SearchFrom(s, 1) == SearchFrom(s, 2);
    assert SearchFrom(s, 0) == SearchFrom(s, 1);
  }

  /** `int` drops leading zeros, so even the first stage rewrites `.01.` as `.1.`. */
  lemma LeadingZeroExample()
    ensures ShiftKey("blocks.01.x", 0) == "blocks.1.x"
  {
    LeadingZeroSearch();
    assert TokenDigits("blocks.01.x", Span(6, 10)) == "01";
    assert Value("01") == 1;
    assert NatToString(1) == "1";
  }

  /** A stage without any layer token still advances the shift by one. */
  lemma UnindexedStageAdvances<V>(stages: seq<Shard<V>>, stage: Shard<V>)
    requires forall i :: 0 <= i < |stage| ==> LocalIndex(stage[i].0).None?
    ensures Shift(stages + [stage]) == Shift(stages) + 1
  {
    StageMaxSpec(stage);
    assert (stages + [stage])[..|stages|] == stages;
  }
}
