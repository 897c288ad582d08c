/**
 * Discovering the checkpoint's parallel sizes from its file names: the shard
 * of tensor-parallel rank `T` and pipeline stage `P` is `model_tp<T>_pp<P>.pt`,
 * and the sizes are one more than the largest `T` and `P` found in the folder.
 * `os.path.splitext`, `str.split` and `int` are modelled as functions on
 * names; the two loops of the scan are methods proved against `ModelFiles`
 * and `Scan`.
 */
module ShardNames {
  import opened Wrappers
  import opened Decimal

  // ---------------------------------------------------------------------
  // Library functions on names
  // ---------------------------------------------------------------------

  /** The position of the last `.` in `s`, if there is one. */
  function LastDot(s: string): (r: Option<nat>)
    ensures r.Some? ==> r.value < |s| && s[r.value] == '.'
    ensures r.Some? ==> forall j :: r.value < j < |s| ==> s[j] != '.'
    ensures r.None? ==> forall j :: 0 <= j < |s| ==> s[j] != '.'
  {
    if |s| == 0 then None
    else if s[|s| - 1] == '.' then Some(|s| - 1)
    else LastDot(s[..|s| - 1])
  }

  /**
   * `os.path.splitext(fn)[0]` for a bare file name: the name without its
   * extension, the extension being the last `.` and what follows it, unless
   * only dots come before that `.` (a name like `.bashrc` has no extension).
   */
  function Stem(fn: string): (stem: string)
    ensures stem <= fn
    ensures var ext := fn[|stem|..]; ext == [] || (ext[0] == '.' && forall j :: 0 < j < |ext| ==> ext[j] != '.')
  {
    match LastDot(fn)
    case None => fn
    case Some(d) => if exists j :: 0 <= j < d && fn[j] != '.' then fn[..d] else fn
  }

  /** `s.split(sep)`: the pieces between the separators, empty ones included. */
  function Split(s: string, sep: char): (parts: seq<string>)
    ensures |parts| >= 1
    ensures forall i :: 0 <= i < |parts| ==> sep !in parts[i]
  {
    if |s| == 0 then [""]
    else
      var rest := Split(s[1..], sep);
      if s[0] == sep then [""] + rest else [[s[0]] + rest[0]] + rest[1..]
  }

  /** `sep.join(parts)`, the inverse of `Split`. */
  function Join(parts: seq<string>, sep: char): string
    requires |parts| >= 1
  {
    if |parts| == 1 then parts[0] else parts[0] + [sep] + Join(parts[1..], sep)
  }

  /**
   * `int(s)` on a numeral: an optional sign and at least one ASCII digit.
   * Anything else raises `ValueError`, here `None`.
   */
  function ParseInt(s: string): (r: Option<int>)
  {
    if |s| > 0 && (s[0] == '+' || s[0] == '-') then
      if |s| > 1 && IsDigits(s[1..]) then
        var v: int := Value(s[1..]);
        Some(if s[0] == '-' then -v else v)
      else None
    else if |s| > 0 && IsDigits(s) then Some(Value(s))
    else None
  }

  /** `str(n)`. */
  function IntToString(n: int): string {
    if n < 0 then "-" + NatToString(-n) else NatToString(n)
  }

  /** `part[2:]`: the number after a two-letter prefix such as `tp` or `pp`. */
  function AfterPrefix(part: string): string {
    if |part| >= 2 then part[2..] else ""
  }

  // ---------------------------------------------------------------------
  // Shard names
  // ---------------------------------------------------------------------

  /** A file that takes part in the count: it starts with `model_t` and is not an `md5` checksum. */
  predicate IsModelFile(fn: string) {
    |fn| >= 7 && fn[..7] == "model_t" && !(|fn| >= 3 && fn[|fn| - 3..] == "md5")
  }

  /** The name the training system gives the shard of ranks `tp` and `pp`. */
  function ShardFileName(tp: nat, pp: nat): string {
    "model_tp" + NatToString(tp) + "_pp" + NatToString(pp) + ".pt"
  }

  datatype Ranks = Ranks(tp: int, pp: int)

  /**
   * The ranks one counted name carries: its stem must split on `_` into
   * exactly three parts, and the second and third parts must hold a number
   * after two letters; otherwise the unpacking or `int` raises `ValueError`.
   */
  function NameRanks(fn: string): (r: Result<Ranks>)
    ensures r.Err? ==> r.error == ValueError(fn)
  {
    var parts := Split(Stem(fn), '_');
    if |parts| != 3 then Err(ValueError(fn))
    else
      match (ParseInt(AfterPrefix(parts[1])), ParseInt(AfterPrefix(parts[2])))
      case (Some(tp), Some(pp)) => Ok(Ranks(tp, pp))
      case _ => Err(ValueError(fn))
  }

  /** The counted names, in folder order. */
  function ModelFiles(fns: seq<string>): seq<string> {
    if |fns| == 0 then []
    else ModelFiles(fns[..|fns| - 1]) + (if IsModelFile(fns[|fns| - 1]) then [fns[|fns| - 1]] else [])
  }

  /** `max_tp` and `max_pp`: one more than the largest rank seen, -1 when there is none. */
  datatype Counts = Counts(maxTp: int, maxPp: int)

  /**
   * The scan over the counted names, each read by `ranks` (`NameRanks` in
   * the converter), stopped by the first name that does not parse.
   */
  function Scan(fns: seq<string>, ranks: string -> Result<Ranks>): Result<Counts> {
    if |fns| == 0 then Ok(Counts(-1, -1))
    else
      var prev, rk := Scan(fns[..|fns| - 1], ranks), ranks(fns[|fns| - 1]);
      if prev.Err? then prev
      else if rk.Err? then Err(rk.error)
      else Ok(Counts(Max(prev.value.maxTp, rk.value.tp + 1), Max(prev.value.maxPp, rk.value.pp + 1)))
  }

  function Max(a: int, b: int): int {
    if a >= b then a else b
  }

  // ---------------------------------------------------------------------
  // The scan
  // ---------------------------------------------------------------------

  /** The first loop of the scan: keep the names that are counted. */
  method SelectModelFiles(fns: seq<string>) returns (modelFns: seq<string>)
    ensures modelFns == ModelFiles(fns)
    ensures forall fn :: fn in modelFns <==> fn in fns && IsModelFile(fn)
  {
    modelFns := [];
    for i := 0 to |fns|
      invariant modelFns == ModelFiles(fns[..i])
    {
      assert fns[..i + 1][..i] == fns[..i];
      if IsModelFile(fns[i]) {
        modelFns := modelFns + [fns[i]];
      }
    }
    assert fns[..|fns|] == fns;
    ModelFilesMembers(fns);
  }

  /**
   * The second loop: `max_pp` and `max_tp` start at -1 and take the maximum
   * with each name's ranks plus one; a name that does not parse raises.
   */
  method CountRanks(modelFns: seq<string>) returns (r: Result<Counts>)
    ensures r == Scan(modelFns, NameRanks)
  {
    var maxTp, maxPp := -1, -1;
    for i := 0 to |modelFns|
      invariant Scan(modelFns[..i], NameRanks) == Ok(Counts(maxTp, maxPp))
    {
      var fn := modelFns[i];
      assert modelFns[..i + 1][..i] == modelFns[..i];
      var parts := Split(Stem(fn), '_');
      if |parts| != 3 {
        ScanStops(modelFns, NameRanks, i + 1);
        return Err(ValueError(fn));
      }
      var pp := ParseInt(AfterPrefix(parts[2]));
      if pp.None? {
        ScanStops(modelFns, NameRanks, i + 1);
        return Err(ValueError(fn));
      }
      maxPp := Max(maxPp, pp.value + 1);
      var tp := ParseInt(AfterPrefix(parts[1]));
      if tp.None? {
        ScanStops(modelFns, NameRanks, i + 1);
        return Err(ValueError(fn));
      }
      maxTp := Max(maxTp, tp.value + 1);
    }
    assert modelFns[..|modelFns|] == modelFns;
    return Ok(Counts(maxTp, maxPp));
  }

  /** Both loops: the sizes `convert2hf_vit.py` infers from a folder listing. */
  method DiscoverRanks(fns: seq<string>) returns (r: Result<Counts>)
    ensures r == Scan(ModelFiles(fns), NameRanks)
  {
    var modelFns := SelectModelFiles(fns);
    r := CountRanks(modelFns);
  }

  // ---------------------------------------------------------------------
  // Lemmas
  // ---------------------------------------------------------------------

  /** Exactly the counted names are kept. */
  lemma {:induction false} ModelFilesMembers(fns: seq<string>)
    ensures forall fn :: fn in ModelFiles(fns) <==> fn in fns && IsModelFile(fn)
  {
    if |fns| > 0 {
      var init := fns[..|fns| - 1];
      ModelFilesMembers(init);
      assert fns == init + [fns[|fns| - 1]];
    }
  }

  /** Once the scan has failed on a prefix, the rest of the names do not matter. */
  lemma {:induction false} ScanStops(fns: seq<string>, ranks: string -> Result<Ranks>, n: nat)
    requires n <= |fns| && Scan(fns[..n], ranks).Err?
    ensures Scan(fns, ranks) == Scan(fns[..n], ranks)
  {
    if n < |fns| {
      var init := fns[..|fns| - 1];
      assert init[..n] == fns[..n];
      ScanStops(init, ranks, n);
    } else {
      assert fns[..n] == fns;
    }
  }

  /** Joining the pieces of a split gives back the name. */
  lemma {:induction false} JoinSplit(s: string, sep: char)
    ensures Join(Split(s, sep), sep) == s
  {
    if |s| > 0 {
      JoinSplit(s[1..], sep);
      var rest := Split(s[1..], sep);
      if s[0] == sep {
        assert Split(s, sep)[1..] == rest;
      } else if |rest| > 1 {
        assert Split(s, sep)[1..] == rest[1..];
      }
    }
  }

  /** Splitting a name that starts with a piece free of the separator. */
  lemma {:induction false} SplitAppend(a: string, t: string, sep: char)
    requires sep !in a
    ensures Split(a + t, sep) == [a + Split(t, sep)[0]] + Split(t, sep)[1..]
  {
    if |a| > 0 {
      SplitAppend(a[1..], t, sep);
      assert (a + t)[1..] == a[1..] + t;
      assert [a[0]] + (a[1..] + Split(t, sep)[0]) == a + Split(t, sep)[0];
    } else {
      var st := Split(t, sep);
      assert a + t == t;
      assert a + st[0] == st[0];
      assert st == [st[0]] + st[1..];
    }
  }

  /** Splitting a join gives back the pieces, when no piece holds the separator. */
  lemma {:induction false} SplitJoin(parts: seq<string>, sep: char)
    requires |parts| >= 1 && forall i :: 0 <= i < |parts| ==> sep !in parts[i]
    ensures Split(Join(parts, sep), sep) == parts
  {
    if |parts| == 1 {
      SplitAppend(parts[0], "", sep);
      assert parts[0] + "" == parts[0];
    } else {
      SplitJoin(parts[1..], sep);
      var rest := Join(parts[1..], sep);
      assert Join(parts, sep) == parts[0] + ([sep] + rest);
      SplitAppend(parts[0], [sep] + rest, sep);
      assert ([sep] + rest)[1..] == rest;
      assert parts[0] + "" == parts[0];
      assert parts == [parts[0]] + parts[1..];
    }
  }

  /** `int(str(n)) == n`. */
  lemma ParseIntOfString(n: int)
    ensures ParseInt(IntToString(n)) == Some(n)
  {
    if n < 0 {
      var digits := NatToString(-n);
      assert IntToString(n)[1..] == digits;
    }
  }

  /** A digit string holds no `_` or `.`. */
  lemma NumeralChars(s: string)
    requires IsDigits(s)
    ensures '_' !in s && '.' !in s
  {
    assert forall i :: 0 <= i < |s| ==> IsDigit(s[i]);
  }

  /** The stem of a name with one extension and no other dot is the name without it. */
  lemma StemOf(x: string, ext: string)
    requires |x| > 0 && x[0] != '.' && '.' !in x && '.' !in ext
    ensures Stem(x + "." + ext) == x
  {
    var fn := x + "." + ext;
    assert fn[|x|] == '.';
    assert forall j :: |x| < j < |fn| ==> fn[j] == ext[j - |x| - 1];
    assert LastDot(fn) == Some(|x|);
    assert fn[0] != '.';
    assert fn[..|x|] == x;
  }

  /** The stem of a shard name is the name without `.pt`. */
  lemma ShardStem(t: string, p: string)
    requires IsDigits(t) && IsDigits(p)
    ensures Stem("model_tp" + t + "_pp" + p + ".pt") == "model_tp" + t + "_pp" + p
  {
    var x := "model_tp" + t + "_pp" + p;
    NumeralChars(t);
    NumeralChars(p);
    assert x + ".pt" == x + "." + "pt";
    assert '.' !in x by {
      forall j | 0 <= j < |x| ensures x[j] != '.' {
        if j < 8 {
        } else if j < 8 + |t| {
          assert x[j] == t[j - 8];
        } else if j < 11 + |t| {
        } else {
          assert x[j] == p[j - 11 - |t|];
        }
      }
    }
    StemOf(x, "pt");
  }

  /** The stem of a shard name splits into `model`, `tp<T>` and `pp<P>`. */
  lemma ShardParts(t: string, p: string)
    requires IsDigits(t) && IsDigits(p)
    ensures Split(Stem("model_tp" + t + "_pp" + p + ".pt"), '_') == ["model", "tp" + t, "pp" + p]
  {
    ShardStem(t, p);
    NumeralChars(t);
    NumeralChars(p);
    var parts := ["model", "tp" + t, "pp" + p];
    assert '_' !in "model" && '_' !in "tp" + t && '_' !in "pp" + p;
    assert parts[2..] == ["pp" + p];
    assert Join(parts[1..], '_') == "tp" + t + "_" + ("pp" + p);
    assert Join(parts, '_') == "model_tp" + t + "_pp" + p;
    SplitJoin(parts, '_');
  }

  /** A shard name is counted, and gives back the ranks it was made from. */
  lemma ShardNameRanks(tp: nat, pp: nat)
    ensures IsModelFile(ShardFileName(tp, pp))
    ensures NameRanks(ShardFileName(tp, pp)) == Ok(Ranks(tp, pp))
  {
    var t, p := NatToString(tp), NatToString(pp);
    var fn := ShardFileName(tp, pp);
    assert fn[..7] == "model_t";
    assert fn[|fn| - 3..] == ".pt";
    ShardParts(t, p);
    assert AfterPrefix("tp" + t) == t;
    assert AfterPrefix("pp" + p) == p;
    ParseIntOfString(tp);
    ParseIntOfString(pp);
  }

  /** The scan succeeds exactly when every counted name parses. */
  lemma {:induction false} ScanOk(fns: seq<string>, ranks: string -> Result<Ranks>)
    ensures Scan(fns, ranks).Ok? <==> forall i :: 0 <= i < |fns| ==> ranks(fns[i]).Ok?
  {
    if |fns| > 0 {
      var init, last := fns[..|fns| - 1], fns[|fns| - 1];
      ScanOk(init, ranks);
      if Scan(fns, ranks).Ok? {
        assert Scan(init, ranks).Ok? && ranks(last).Ok?;
        forall i | 0 <= i < |fns| ensures ranks(fns[i]).Ok? {
          if i < |init| {
            assert init[i] == fns[i];
          }
        }
      } else if Scan(init, ranks).Ok? {
        assert ranks(fns[|fns| - 1]).Err?;
      } else {
        var i :| 0 <= i < |init| && ranks(init[i]).Err?;
        assert init[i] == fns[i];
      }
    }
  }

  /** A failing scan reports the first name that does not parse. */
  lemma {:induction false} ScanError(fns: seq<string>, ranks: string -> Result<Ranks>)
    requires Scan(fns, ranks).Err?
    ensures exists i :: (0 <= i < |fns| && ranks(fns[i]).Err? && Scan(fns, ranks).error == ranks(fns[i]).error &&
      forall j :: 0 <= j < i ==> ranks(fns[j]).Ok?)
  {
    var init := fns[..|fns| - 1];
    assert forall i :: 0 <= i < |init| ==> init[i] == fns[i];
    if Scan(init, ranks).Err? {
      ScanError(init, ranks);
    } else {
      ScanOk(init, ranks);
      var i := |fns| - 1;
      assert ranks(fns[i]).Err?;
    }
  }

  /**
   * A successful scan yields, for each rank, one more than the largest value
   * of any counted name, or -1 when no name was counted.
   */
  lemma {:induction false} ScanMax(fns: seq<string>, ranks: string -> Result<Ranks>)
    requires Scan(fns, ranks).Ok?
    ensures forall i :: 0 <= i < |fns| ==> (ranks(fns[i]).Ok? &&
      ranks(fns[i]).value.tp + 1 <= Scan(fns, ranks).value.maxTp &&
      ranks(fns[i]).value.pp + 1 <= Scan(fns, ranks).value.maxPp)
    ensures Scan(fns, ranks).value.maxTp >= -1 && Scan(fns, ranks).value.maxPp >= -1
    ensures Scan(fns, ranks).value.maxTp == -1 || exists i :: 0 <= i < |fns| && Scan(fns, ranks).value.maxTp == ranks(fns[i]).value.tp + 1
    ensures Scan(fns, ranks).value.maxPp == -1 || exists i :: 0 <= i < |fns| && Scan(fns, ranks).value.maxPp == ranks(fns[i]).value.pp + 1
  {
    if |fns| > 0 {
      var init := fns[..|fns| - 1];
      var last := |fns| - 1;
      ScanMax(init, ranks);
      ScanOk(fns, ranks);
      assert forall i :: 0 <= i < |init| ==> init[i] == fns[i];
      var prev := Scan(init, ranks).value;
      var rk := ranks(fns[last]).value;
      if prev.maxTp < rk.tp + 1 {
        assert Scan(fns, ranks).value.maxTp == ranks(fns[last]).value.tp + 1;
      }
      if prev.maxPp < rk.pp + 1 {
        assert Scan(fns, ranks).value.maxPp == ranks(fns[last]).value.pp + 1;
      }
    }
  }

  /**
   * A scan over names whose ranks all lie below `tp` and `pp`, one of them
   * carrying both `tp - 1` and `pp - 1`, yields exactly `tp` and `pp`.
   */
  lemma ScanReaches(fns: seq<string>, ranks: string -> Result<Ranks>, tp: nat, pp: nat, k: nat)
    requires forall i :: 0 <= i < |fns| ==> ranks(fns[i]).Ok? && ranks(fns[i]).value.tp < tp && ranks(fns[i]).value.pp < pp
    requires k < |fns| && ranks(fns[k]) == Ok(Ranks(tp - 1, pp - 1))
    ensures Scan(fns, ranks) == Ok(Counts(tp, pp))
  {
    ScanOk(fns, ranks);
    ScanMax(fns, ranks);
    var c := Scan(fns, ranks).value;
    assert tp <= c.maxTp && pp <= c.maxPp;
    var i :| 0 <= i < |fns| && c.maxTp == ranks(fns[i]).value.tp + 1;
    var j :| 0 <= j < |fns| && c.maxPp == ranks(fns[j]).value.pp + 1;
    assert c == Counts(tp, pp);
  }

  /**
   * A folder whose counted files are all shards of ranks below `tp` and
   * `pp`, the last shard among them, yields exactly `tp` and `pp`; other
   * files, the checksums included, play no part.
   */
  lemma FolderCounts(fns: seq<string>, tp: nat, pp: nat)
    requires tp >= 1 && pp >= 1
    requires ShardFileName(tp - 1, pp - 1) in fns
    requires forall fn :: fn in fns && IsModelFile(fn) ==> exists t: nat, p: nat :: t < tp && p < pp && fn == ShardFileName(t, p)
    ensures Scan(ModelFiles(fns), NameRanks) == Ok(Counts(tp, pp))
  {
    var mf := ModelFiles(fns);
    ModelFilesMembers(fns);
    forall i | 0 <= i < |mf|
      ensures NameRanks(mf[i]).Ok? && NameRanks(mf[i]).value.tp < tp && NameRanks(mf[i]).value.pp < pp
    {
      assert mf[i] in mf;
      var t: nat, p: nat :| t < tp && p < pp && mf[i] == ShardFileName(t, p);
      ShardNameRanks(t, p);
    }
    ShardNameRanks(tp - 1, pp - 1);
    var k :| 0 <= k < |mf| && mf[k] == ShardFileName(tp - 1, pp - 1);
    ScanReaches(mf, NameRanks, tp, pp, k);
  }

  // ---------------------------------------------------------------------
  // Worked examples
  // ---------------------------------------------------------------------

  /** A checksum file is not counted. */
  lemma ChecksumNotCounted()
    ensures !IsModelFile("model_tp0_pp1.pt.md5")
  {
    assert "model_tp0_pp1.pt.md5"[17..] == "md5";
  }

  /** The stem of a shard name with an extra `_` part is the name without `.pt`. */
  lemma StrayStem(t: string, p: string, extra: string)
    requires IsDigits(t) && IsDigits(p) && '.' !in extra
    ensures Stem("model_tp" + t + "_pp" + p + "_" + extra + ".pt") == "model_tp" + t + "_pp" + p + "_" + extra
  {
    var x := "model_tp" + t + "_pp" + p + "_" + extra;
    NumeralChars(t);
    NumeralChars(p);
    assert x + ".pt" == x + "." + "pt";
    assert '.' !in x by {
      forall j | 0 <= j < |x| ensures x[j] != '.' {
        if j < 8 {
        } else if j < 8 + |t| {
          assert x[j] == t[j - 8];
        } else if j < 11 + |t| {
        } else if j < 11 + |t| + |p| {
          assert x[j] == p[j - 11 - |t|];
        } else if j > 11 + |t| + |p| {
          assert x[j] == extra[j - 12 - |t| - |p|];
        }
      }
    }
    StemOf(x, "pt");
  }

  /** A shard name with an extra `_` part is counted, and does not parse. */
  lemma StrayNameRanks(t: string, p: string, extra: string)
    requires IsDigits(t) && IsDigits(p) && '.' !in extra && '_' !in extra
    ensures var fn := "model_tp" + t + "_pp" + p + "_" + extra + ".pt";
      IsModelFile(fn) && NameRanks(fn) == Err(ValueError(fn))
  {
    var fn := "model_tp" + t + "_pp" + p + "_" + extra + ".pt";
    StrayStem(t, p, extra);
    NumeralChars(t);
    NumeralChars(p);
    var parts := ["model", "tp" + t, "pp" + p, extra];
    assert parts[3..] == [extra];
    assert parts[2..] == ["pp" + p, extra];
    assert Join(parts[2..], '_') == "pp" + p + "_" + extra;
    assert Join(parts[1..], '_') == "tp" + t + "_" + ("pp" + p + "_" + extra);
    assert Join(parts, '_') == "model_tp" + t + "_pp" + p + "_" + extra;
    assert '_' !in "model" && '_' !in "tp" + t && '_' !in "pp" + p;
    SplitJoin(parts, '_');
    assert fn[..7] == "model_t";
    assert fn[|fn| - 3..] == ".pt";
  }

  /**
   * A stray counted name with a fourth `_` part, such as
   * `model_tp0_pp0_old.pt`, is not skipped: unpacking its parts raises, and
   * with it the scan of any folder that holds it.
   */
  lemma StrayNameRaises(fns: seq<string>, tp: nat, pp: nat, extra: string)
    requires '.' !in extra && '_' !in extra
    requires "model_tp" + NatToString(tp) + "_pp" + NatToString(pp) + "_" + extra + ".pt" in fns
    ensures Scan(ModelFiles(fns), NameRanks).Err?
  {
    var fn := "model_tp" + NatToString(tp) + "_pp" + NatToString(pp) + "_" + extra + ".pt";
    StrayNameRanks(NatToString(tp), NatToString(pp), extra);
    ModelFilesMembers(fns);
    var mf := ModelFiles(fns);
    var k :| 0 <= k < |mf| && mf[k] == fn;
    ScanOk(mf, NameRanks);
  }
}
