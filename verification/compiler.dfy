/** The compiler: turns the list into text and fills the placeholders of the script stub. */
module Compiler {
  import opened Php

  /** An associative PHP array with string keys, in insertion order. */
  type Pairs = seq<(string, string)>

  /** The four spaces that indent every list entry. */
  const Indent: string := "    "

  // ---------------------------------------------------------------------------
  // implode / explode

  /** `implode($glue, $pieces)`. */
  function Implode(glue: string, pieces: seq<string>): (r: string)
    ensures pieces != [] ==> pieces[0] <= r
    ensures |pieces| >= 2 ==> pieces[0] + glue <= r
  {
    if pieces == [] then ""
    else if |pieces| == 1 then pieces[0]
    else pieces[0] + glue + Implode(glue, pieces[1..])
  }

  /** One list entry: the path between single quotes, copied verbatim, indented. */
  function Entry(path: string): string
  {
    Indent + "'" + path + "'"
  }

  /** The glue `parseList()` implodes with: closing quote, comma, line break, indent, opening quote. */
  function Glue(eol: string): string
  {
    "'," + eol + Indent + "'"
  }

  /** The entries after the first, each introduced by a comma and a line break. */
  function LaterEntries(list: seq<string>, eol: string): string
  {
    if list == [] then "" else "," + eol + Entry(list[0]) + LaterEntries(list[1..], eol)
  }

  /** `parseList()`: the list as the body of a PHP array literal. `eol` is `PHP_EOL`. */
  function ParseList(list: seq<string>, eol: string): (text: string)
    ensures eol <= text
    ensures |text| >= 2 * |eol| + |Indent| + 2 && text[|text| - |eol|..] == eol
  {
    eol + Entry(Implode(Glue(eol), list)) + eol
  }

  lemma EntryGlue(first: string, rest: string, eol: string)
    ensures Entry(first + Glue(eol) + rest) == Entry(first) + "," + eol + Entry(rest)
  {
    var lhs := Entry(first + Glue(eol) + rest);
    var rhs := Entry(first) + "," + eol + Entry(rest);
    assert lhs == Indent + "'" + first + "'" + "," + eol + Indent + "'" + rest + "'";
    assert rhs == Indent + "'" + first + "'" + "," + eol + Indent + "'" + rest + "'";
  }

  lemma {:induction false} QuotedImplode(list: seq<string>, eol: string)
    requires list != []
    ensures Entry(Implode(Glue(eol), list)) == Entry(list[0]) + LaterEntries(list[1..], eol)
  {
    if |list| > 1 {
      var tail := list[1..];
      var g := Glue(eol);
      QuotedImplode(tail, eol);
      assert Implode(g, list) == list[0] + g + Implode(g, tail);
      EntryGlue(list[0], Implode(g, tail), eol);
      var e := Entry(Implode(g, tail));
      var later := LaterEntries(tail[1..], eol);
      assert LaterEntries(tail, eol) == "," + eol + e by {
        assert LaterEntries(tail, eol) == "," + eol + Entry(tail[0]) + later;
        assert e == Entry(tail[0]) + later;
      }
      assert Entry(list[0]) + "," + eol + e == Entry(list[0]) + ("," + eol + e);
    }
  }

  /** A non-empty list becomes a line break, the first entry, every later entry after a comma
      and a line break, and a final line break; order and contents are kept. */
  lemma ParseListLayout(list: seq<string>, eol: string)
    requires list != []
    ensures ParseList(list, eol) == eol + Entry(list[0]) + LaterEntries(list[1..], eol) + eol
  {
    QuotedImplode(list, eol);
  }

  /** An empty list still yields one (empty) quoted entry. */
  lemma ParseListEmpty(eol: string)
    ensures ParseList([], eol) == eol + Indent + "''" + eol
  {
  }

  // ---------------------------------------------------------------------------
  // str_replace

  /** `search` occurs somewhere in `s` (an empty search string never does). */
  ghost predicate Occurs(search: string, s: string)
  {
    search != [] && exists i :: 0 <= i <= |s| && OccursAt(search, s, i)
  }

  /** `search` occurs in `s` starting at position `i`. */
  ghost predicate OccursAt(search: string, s: string, i: nat)
  {
    i + |search| <= |s| && s[i..i + |search|] == search
  }

  /** `str_replace($search, $replace, $s)` for one pair: scans left to right and replaces
      every non-overlapping occurrence; an empty search string leaves `s` as it is. */
  function ReplaceAll(s: string, search: string, replace: string): (r: string)
    ensures search == [] ==> r == s
    ensures |replace| == |search| ==> |r| == |s|
    decreases |s|
  {
    if search == [] || |s| < |search| then s
    else if s[..|search|] == search then replace + ReplaceAll(s[|search|..], search, replace)
    else [s[0]] + ReplaceAll(s[1..], search, replace)
  }

  /** `explode($search, $s)`: the pieces between the occurrences `ReplaceAll` finds. */
  function Explode(s: string, search: string): (pieces: seq<string>)
    requires search != []
    ensures pieces != []
    decreases |s|
  {
    if |s| < |search| then [s]
    else if s[..|search|] == search then [""] + Explode(s[|search|..], search)
    else
      var rest := Explode(s[1..], search);
      [[s[0]] + rest[0]] + rest[1..]
  }

  /** Replacing is exploding at the search string and imploding with the replacement. */
  lemma {:induction false} ReplaceAllIsImplodeExplode(s: string, search: string, replace: string)
    requires search != []
    ensures ReplaceAll(s, search, replace) == Implode(replace, Explode(s, search))
    decreases |s|
  {
    if |s| < |search| {
    } else if s[..|search|] == search {
      ReplaceAllIsImplodeExplode(s[|search|..], search, replace);
      var rest := Explode(s[|search|..], search);
      assert ([""] + rest)[1..] == rest;
    } else {
      ReplaceAllIsImplodeExplode(s[1..], search, replace);
      var rest := Explode(s[1..], search);
      var pieces := [[s[0]] + rest[0]] + rest[1..];
      if |rest| > 1 {
        assert pieces[1..] == rest[1..];
      }
    }
  }

  /** The first piece of `explode` is a prefix of the subject. */
  lemma {:induction false} ExplodeFirstPrefix(s: string, search: string)
    requires search != []
    ensures Explode(s, search)[0] <= s
    decreases |s|
  {
    if |s| >= |search| && s[..|search|] != search {
      ExplodeFirstPrefix(s[1..], search);
      assert s == [s[0]] + s[1..];
    }
  }

  /** No piece of `explode` contains the search string: the scan cuts out every occurrence it
      meets, so with `ReplaceAllIsImplodeExplode` every non-overlapping occurrence is replaced. */
  lemma {:induction false} ExplodePiecesFree(s: string, search: string)
    requires search != []
    ensures forall p :: p in Explode(s, search) ==> !Occurs(search, p)
    decreases |s|
  {
    if |s| < |search| {
      assert Explode(s, search) == [s];
    } else if s[..|search|] == search {
      ExplodePiecesFree(s[|search|..], search);
      assert !Occurs(search, "");
    } else {
      var rest := Explode(s[1..], search);
      ExplodePiecesFree(s[1..], search);
      ExplodeFirstPrefix(s[1..], search);
      FirstPieceFree(s, search, rest[0]);
      assert Explode(s, search) == [[s[0]] + rest[0]] + rest[1..];
    }
  }

  /** A first piece that begins where no occurrence starts, and continues with a piece free of
      the search string, is itself free of it. */
  lemma FirstPieceFree(s: string, search: string, piece: string)
    requires search != [] && |s| >= |search| && s[..|search|] != search
    requires piece <= s[1..] && !Occurs(search, piece)
    ensures !Occurs(search, [s[0]] + piece)
  {
    var first := [s[0]] + piece;
    forall i: nat | OccursAt(search, first, i) ensures false {
      if i != 0 {
        assert first[1..] == piece;
        assert first[i..i + |search|] == first[1..][i - 1..i - 1 + |search|];
        assert OccursAt(search, piece, i - 1);
      }
    }
  }

  /** Replacing a string by itself changes nothing. */
  lemma {:induction false} ReplaceBySelf(s: string, search: string)
    ensures ReplaceAll(s, search, search) == s
    decreases |s|
  {
    if search == [] || |s| < |search| {
    } else if s[..|search|] == search {
      ReplaceBySelf(s[|search|..], search);
      assert s == s[..|search|] + s[|search|..];
    } else {
      ReplaceBySelf(s[1..], search);
      assert s == [s[0]] + s[1..];
    }
  }

  /** Round trip: imploding the pieces of `explode` with the separator gives the string back. */
  lemma ExplodeImplodeRoundTrip(s: string, search: string)
    requires search != []
    ensures Implode(search, Explode(s, search)) == s
  {
    ReplaceAllIsImplodeExplode(s, search, search);
    ReplaceBySelf(s, search);
  }

  /** A string in which the search string does not occur is returned unchanged. */
  lemma {:induction false} ReplaceAbsent(s: string, search: string, replace: string)
    requires !Occurs(search, s)
    ensures ReplaceAll(s, search, replace) == s
    decreases |s|
  {
    if search != [] && |s| >= |search| {
      assert !OccursAt(search, s, 0);
      assert !Occurs(search, s[1..]) by {
        forall i: nat | OccursAt(search, s[1..], i) ensures OccursAt(search, s, i + 1) {
          assert s[1..][i..i + |search|] == s[i + 1..i + 1 + |search|];
        }
      }
      ReplaceAbsent(s[1..], search, replace);
      assert s == [s[0]] + s[1..];
    }
  }

  /** `str_replace(array_keys($pairs), $pairs, $s)`: each pair in turn, on the result of the previous. */
  function StrReplace(pairs: Pairs, s: string): (r: string)
    ensures (forall p :: p in pairs ==> |p.1| == |p.0|) ==> |r| == |s|
  {
    if pairs == [] then s else StrReplace(pairs[1..], ReplaceAll(s, pairs[0].0, pairs[0].1))
  }

  /** A subject containing none of the keys is returned unchanged. */
  lemma {:induction false} StrReplaceAbsent(pairs: Pairs, s: string)
    ensures (forall p :: p in pairs ==> !Occurs(p.0, s)) ==> StrReplace(pairs, s) == s
  {
    if pairs != [] && forall p :: p in pairs ==> !Occurs(p.0, s) {
      ReplaceAbsent(s, pairs[0].0, pairs[0].1);
      StrReplaceAbsent(pairs[1..], s);
    }
  }

  /** The substitution is sequential: the first pair is applied to the subject, the rest to its result. */
  lemma StrReplaceAppend(first: Pairs, second: Pairs, s: string)
    ensures StrReplace(first + second, s) == StrReplace(second, StrReplace(first, s))
    decreases |first|
  {
    if first == [] {
      assert first + second == second;
    } else {
      var s' := ReplaceAll(s, first[0].0, first[0].1);
      assert (first + second)[1..] == first[1..] + second;
      assert (first + second)[0] == first[0];
      StrReplaceAppend(first[1..], second, s');
      calc {
        StrReplace(first + second, s);
        StrReplace(first[1..] + second, s');
        StrReplace(second, StrReplace(first[1..], s'));
        StrReplace(second, StrReplace(first, s));
      }
    }
  }

  // ---------------------------------------------------------------------------
  // array_merge on string keys

  function Keys(m: Pairs): (r: seq<string>)
    ensures |r| == |m|
    ensures forall i :: 0 <= i < |m| ==> r[i] == m[i].0
  {
    seq(|m|, i requires 0 <= i < |m| => m[i].0)
  }

  /** `$m[$k] = $v` on an array with string keys: an existing key keeps its place and takes the
      new value; a new key goes at the end. */
  function Put(m: Pairs, k: string, v: string): (r: Pairs)
    ensures k in Keys(m) ==> Keys(r) == Keys(m)
    ensures k !in Keys(m) ==> Keys(r) == Keys(m) + [k]
  {
    if m == [] then [(k, v)]
    else
      KeysUncons(m);
      if m[0].0 == k then
        KeysUncons([(k, v)] + m[1..]);
        [(k, v)] + m[1..]
      else
        var rest := Put(m[1..], k, v);
        KeysUncons([m[0]] + rest);
        assert ([m[0]] + rest)[1..] == rest;
        [m[0]] + rest
  }

  /** After `Put`, the pair `(k, v)` is present and every other pair was already there. */
  lemma {:induction false} PutMembers(m: Pairs, k: string, v: string)
    ensures (k, v) in Put(m, k, v)
    ensures forall p :: p in Put(m, k, v) ==> p == (k, v) || p in m
  {
    if m != [] && m[0].0 != k {
      PutMembers(m[1..], k, v);
    }
  }

  lemma KeysUncons(m: Pairs)
    requires m != []
    ensures Keys(m) == [m[0].0] + Keys(m[1..])
  {
  }

  /** `array_merge($a, $b)` for string keys: later values win, first positions are kept. */
  function Merge(a: Pairs, b: Pairs): (r: Pairs)
    ensures Keys(a) <= Keys(r)
    ensures |r| <= |a| + |b|
    decreases |b|
  {
    if b == [] then a else Merge(Put(a, b[0].0, b[0].1), b[1..])
  }

  /** When no key of `b` is already a key, and `b`'s keys are distinct, merging concatenates. */
  lemma {:induction false} MergeDisjoint(a: Pairs, b: Pairs)
    requires forall k :: k in Keys(b) ==> k !in Keys(a)
    requires NoDuplicates(Keys(b))
    ensures Merge(a, b) == a + b
    decreases |b|
  {
    if b != [] {
      assert Keys(b)[0] == b[0].0;
      PutFresh(a, b[0].0, b[0].1);
      var a' := a + [b[0]];
      KeysTail(b);
      assert Keys(a') == Keys(a) + [b[0].0];
      forall k | k in Keys(b[1..]) ensures k !in Keys(a') {
        assert k in Keys(b);
      }
      MergeDisjoint(a', b[1..]);
      assert a' + b[1..] == a + b;
    }
  }

  lemma KeysTail(b: Pairs)
    requires b != [] && NoDuplicates(Keys(b))
    ensures Keys(b[1..]) == Keys(b)[1..]
    ensures NoDuplicates(Keys(b[1..]))
    ensures b[0].0 !in Keys(b[1..])
  {
    assert Keys(b[1..]) == Keys(b)[1..];
  }

  lemma {:induction false} PutFresh(m: Pairs, k: string, v: string)
    requires k !in Keys(m)
    ensures Put(m, k, v) == m + [(k, v)]
  {
    if m != [] {
      assert m[0].0 == Keys(m)[0];
      assert k !in Keys(m[1..]) by {
        forall i | 0 <= i < |m[1..]| ensures Keys(m[1..])[i] != k {
          assert Keys(m[1..])[i] == Keys(m)[i + 1];
        }
      }
      PutFresh(m[1..], k, v);
      assert m == [m[0]] + m[1..];
    }
  }

  // ---------------------------------------------------------------------------
  // The compiler object

  /** The `@mechanism` text: how each listed file is loaded. */
  function Mechanism(useRequire: bool): (m: string)
    ensures useRequire ==> m == "require_once $file"
    ensures !useRequire ==> m == "opcache_compile_file($file)"
  {
    if useRequire then "require_once $file" else "opcache_compile_file($file)"
  }

  class PreloaderCompiler {
    var contents: string
    var preloaderConfig: Pairs
    var opcacheConfig: Pairs
    var useRequire: bool
    var list: seq<string>
    var autoload: Option<string>
    var output: string

    constructor ()
      ensures useRequire && autoload == None
      ensures contents == "" && preloaderConfig == [] && opcacheConfig == [] && list == [] && output == ""
    {
      contents := "";
      preloaderConfig := [];
      opcacheConfig := [];
      useRequire := true;
      list := [];
      autoload := None;
      output := "";
    }

    /** The five placeholders `compile()` adds after the two configuration arrays. The real
        path of the output, the date and the real path of the autoload file are parameters. */
    function Placeholders(outputPath: string, generatedAt: string, autoloadPath: string, eol: string): Pairs
      reads this
    {
      [("@output", outputPath), ("@generated_at", generatedAt), ("@autoload", autoloadPath),
       ("@list", ParseList(list, eol)), ("@mechanism", Mechanism(useRequire))]
    }

    /** The placeholders and their values, in replacement order. */
    function Replacing(outputPath: string, generatedAt: string, autoloadPath: string, eol: string): Pairs
      reads this
    {
      Merge(Merge(preloaderConfig, opcacheConfig), Placeholders(outputPath, generatedAt, autoloadPath, eol))
    }

    /** `compile()`: the stub with every placeholder replaced, one key after another. A stub
        containing none of the keys comes back unchanged. */
    function Compile(outputPath: string, generatedAt: string, autoloadPath: string, eol: string): (script: string)
      reads this
      ensures (forall p :: p in Replacing(outputPath, generatedAt, autoloadPath, eol) ==> !Occurs(p.0, contents))
              ==> script == contents
    {
      var pairs := Replacing(outputPath, generatedAt, autoloadPath, eol);
      StrReplaceAbsent(pairs, contents);
      StrReplace(pairs, contents)
    }

    /** With distinct keys, `compile()` replaces the preloader keys first, then the Opcache keys,
        then `@output`, `@generated_at`, `@autoload`, `@list` and `@mechanism`, each on the
        result of the previous replacement. */
    lemma CompileOrder(outputPath: string, generatedAt: string, autoloadPath: string, eol: string)
      requires NoDuplicates(Keys(preloaderConfig) + Keys(opcacheConfig)
                            + ["@output", "@generated_at", "@autoload", "@list", "@mechanism"])
      ensures var fixed := Placeholders(outputPath, generatedAt, autoloadPath, eol);
              Compile(outputPath, generatedAt, autoloadPath, eol)
                == StrReplace(fixed, StrReplace(opcacheConfig, StrReplace(preloaderConfig, contents)))
    {
      var fixed := Placeholders(outputPath, generatedAt, autoloadPath, eol);
      var all := Keys(preloaderConfig) + Keys(opcacheConfig) + Keys(fixed);
      assert Keys(fixed) == ["@output", "@generated_at", "@autoload", "@list", "@mechanism"];
      DistinctParts(Keys(preloaderConfig), Keys(opcacheConfig), Keys(fixed));
      MergeDisjoint(preloaderConfig, opcacheConfig);
      assert Keys(preloaderConfig + opcacheConfig) == Keys(preloaderConfig) + Keys(opcacheConfig);
      MergeDisjoint(preloaderConfig + opcacheConfig, fixed);
      StrReplaceAppend(preloaderConfig + opcacheConfig, fixed, contents);
      StrReplaceAppend(preloaderConfig, opcacheConfig, contents);
    }
  }

  /** Facts about the three parts of a list without duplicates. */
  lemma DistinctParts(a: seq<string>, b: seq<string>, c: seq<string>)
    requires NoDuplicates(a + b + c)
    ensures NoDuplicates(b) && NoDuplicates(c)
    ensures forall k :: k in b ==> k !in a
    ensures forall k :: k in c ==> k !in a + b
  {
    var all := a + b + c;
    forall i, j | 0 <= i < j < |b| ensures b[i] != b[j] {
      assert all[|a| + i] == b[i] && all[|a| + j] == b[j];
    }
    forall i, j | 0 <= i < j < |c| ensures c[i] != c[j] {
      assert all[|a| + |b| + i] == c[i] && all[|a| + |b| + j] == c[j];
    }
    forall k | k in b ensures k !in a {
      var j :| 0 <= j < |b| && b[j] == k;
      assert all[|a| + j] == k;
      forall i | 0 <= i < |a| ensures a[i] != k {
        assert all[i] == a[i];
      }
    }
    forall k | k in c ensures k !in a + b {
      var j :| 0 <= j < |c| && c[j] == k;
      assert all[|a| + |b| + j] == k;
      forall i | 0 <= i < |a + b| ensures (a + b)[i] != k {
        assert all[i] == (a + b)[i];
      }
    }
  }
}
