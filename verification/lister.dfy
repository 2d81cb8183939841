/** The preload-list engine: `PreloaderLister` and the list operations it composes. */
module Lister {
  import opened Php

  /** `$memory * 1024**2`: the lister's `memory` field counts megabytes. */
  function LimitBytes(memory: int): int
  {
    memory * 1048576
  }

  /** The usage record Opcache keeps per script, with its fields in PHP key order. */
  datatype Record = Record(hits: nat, memoryConsumption: nat, lastUsedTimestamp: int)

  /** One entry of the `scripts` array: its key (the path) and its record. */
  datatype Script = Script(path: string, record: Record)

  /** The memoised result of `opcache_get_status()` that the lister and the facade read. */
  datatype OpcacheStatus = OpcacheStatus(enabled: bool, cachedScripts: int, hits: int, scripts: seq<Script>)

  /** A PHP array has unique keys: no path occurs twice in a snapshot. */
  predicate UniquePaths(s: seq<Script>)
  {
    forall i, j :: 0 <= i < j < |s| ==> s[i].path != s[j].path
  }

  /** `array_keys`: the paths of the entries, in order. */
  function Paths(s: seq<Script>): (r: seq<string>)
    ensures |r| == |s|
    ensures forall i :: 0 <= i < |s| ==> r[i] == s[i].path
  {
    seq(|s|, i requires 0 <= i < |s| => s[i].path)
  }

  lemma PathsPrefix(s: seq<Script>, k: nat)
    requires k <= |s|
    ensures Paths(s[..k]) == Paths(s)[..k]
  {
  }

  lemma UniquePathsNoDuplicates(s: seq<Script>)
    requires UniquePaths(s)
    ensures NoDuplicates(Paths(s))
  {
  }

  // ---------------------------------------------------------------------------
  // Exclusion

  /** `excludedPackageFiles()`: the package's own files unless `includePreloader` is set.
      `packageFiles` stands for the result of the `glob`/`realpath` scan. */
  function ExcludedPackageFiles(includePreloader: bool, packageFiles: seq<string>): (r: seq<string>)
    ensures includePreloader ==> r == []
    ensures !includePreloader ==> Elems(r) == Elems(packageFiles)
  {
    if includePreloader then [] else packageFiles
  }

  /** `array_diff_key($scripts, array_flip($excluded))`: drops every entry whose key is
      (exactly) one of the excluded paths and keeps the others in their order. */
  function Exclude(scripts: seq<Script>, excluded: set<string>): (r: seq<Script>)
    ensures |r| <= |scripts|
  {
    if scripts == [] then []
    else
      var rest := Exclude(scripts[1..], excluded);
      if scripts[0].path in excluded then rest else [scripts[0]] + rest
  }

  /** An entry survives exactly when it is in the snapshot and its path is not excluded;
      distinct keys stay distinct. */
  lemma {:induction false} ExcludeMembers(scripts: seq<Script>, excluded: set<string>)
    ensures forall x :: x in Exclude(scripts, excluded) <==> x in scripts && x.path !in excluded
    ensures UniquePaths(scripts) ==> UniquePaths(Exclude(scripts, excluded))
  {
    if scripts != [] {
      ExcludeMembers(scripts[1..], excluded);
      assert scripts == [scripts[0]] + scripts[1..];
    }
  }

  /** `array_diff_key` filters entry by entry: excluding from a joined snapshot joins what is
      kept of each part, so the survivors keep their relative order. */
  lemma {:induction false} ExcludeAppend(a: seq<Script>, b: seq<Script>, excluded: set<string>)
    ensures Exclude(a + b, excluded) == Exclude(a, excluded) + Exclude(b, excluded)
  {
    if a == [] {
      assert a + b == b;
    } else {
      var ab := a + b;
      assert ab[0] == a[0];
      assert ab[1..] == a[1..] + b;
      var x := Exclude(a[1..], excluded);
      var y := Exclude(b, excluded);
      ExcludeAppend(a[1..], b, excluded);
      assert Exclude(ab[1..], excluded) == x + y;
      if a[0].path in excluded {
        assert Exclude(ab, excluded) == x + y;
        assert Exclude(a, excluded) == x;
      } else {
        assert Exclude(ab, excluded) == [a[0]] + (x + y);
        assert Exclude(a, excluded) == [a[0]] + x;
        assert [a[0]] + (x + y) == ([a[0]] + x) + y;
      }
    }
  }

  /** Adding a path that is not a key of the snapshot to the excluded set changes nothing. */
  lemma {:induction false} ExcludeAbsentPath(scripts: seq<Script>, excluded: set<string>, p: string)
    requires p !in Paths(scripts)
    ensures Exclude(scripts, excluded + {p}) == Exclude(scripts, excluded)
  {
    if scripts != [] {
      assert scripts[0].path != p;
      assert p !in Paths(scripts[1..]);
      ExcludeAbsentPath(scripts[1..], excluded, p);
    }
  }

  // ---------------------------------------------------------------------------
  // Ranking

  /** PHP's comparison of two records as arrays (ascending): field by field, in key order
      hits, memory_consumption, last_used_timestamp. */
  predicate RecordAtMost(a: Record, b: Record)
  {
    a.hits < b.hits
    || (a.hits == b.hits && (a.memoryConsumption < b.memoryConsumption
        || (a.memoryConsumption == b.memoryConsumption && a.lastUsedTimestamp <= b.lastUsedTimestamp)))
  }

  /** The order `array_multisort` establishes: hits descending, then last use descending,
      then the record itself ascending. `a` may be placed before `b`. */
  predicate RanksBefore(a: Record, b: Record)
  {
    a.hits > b.hits
    || (a.hits == b.hits && (a.lastUsedTimestamp > b.lastUsedTimestamp
        || (a.lastUsedTimestamp == b.lastUsedTimestamp && RecordAtMost(a, b))))
  }

  predicate Ranked(s: seq<Script>)
  {
    forall i, j :: 0 <= i < j < |s| ==> RanksBefore(s[i].record, s[j].record)
  }

  /** The ranking is a total order on records: two records that may each precede the other are equal. */
  lemma RanksBeforeTotal(a: Record, b: Record)
    ensures RanksBefore(a, b) || RanksBefore(b, a)
    ensures RanksBefore(a, b) && RanksBefore(b, a) ==> a == b
  {
  }

  lemma RanksBeforeTransitive(a: Record, b: Record, c: Record)
    requires RanksBefore(a, b) && RanksBefore(b, c)
    ensures RanksBefore(a, c)
  {
  }

  /** Inserts `x` before the first entry it may precede: ahead of every entry with an equal record. */
  function Insert(x: Script, t: seq<Script>): (r: seq<Script>)
    ensures |r| == |t| + 1
  {
    if t == [] || RanksBefore(x.record, t[0].record) then [x] + t
    else [t[0]] + Insert(x, t[1..])
  }

  /** Inserting adds exactly `x` to the entries of `t`. */
  lemma {:induction false} InsertPermutes(x: Script, t: seq<Script>)
    ensures multiset(Insert(x, t)) == multiset(t) + multiset{x}
  {
    if t != [] && !RanksBefore(x.record, t[0].record) {
      InsertPermutes(x, t[1..]);
      assert t == [t[0]] + t[1..];
    }
  }

  lemma InsertMembers(x: Script, t: seq<Script>)
    ensures forall y :: y in Insert(x, t) <==> y == x || y in t
  {
    var r := Insert(x, t);
    InsertPermutes(x, t);
    assert forall y :: y in r <==> y in multiset(r);
    assert forall y :: y in t <==> y in multiset(t);
  }

  lemma {:induction false} InsertRanked(x: Script, t: seq<Script>)
    requires Ranked(t)
    ensures Ranked(Insert(x, t))
  {
    if t == [] {
    } else if RanksBefore(x.record, t[0].record) {
      var r := [x] + t;
      forall i, j | 0 <= i < j < |r| ensures RanksBefore(r[i].record, r[j].record) {
        if i == 0 && j > 1 {
          RanksBeforeTransitive(x.record, t[0].record, t[j - 1].record);
        }
      }
    } else {
      RanksBeforeTotal(x.record, t[0].record);
      InsertRanked(x, t[1..]);
      var rest := Insert(x, t[1..]);
      InsertMembers(x, t[1..]);
      var r := [t[0]] + rest;
      forall j | 0 < j < |r| ensures RanksBefore(t[0].record, r[j].record) {
        assert r[j] in rest;
      }
    }
  }

  lemma {:induction false} InsertUnique(x: Script, t: seq<Script>)
    requires UniquePaths(t) && x.path !in Paths(t)
    ensures UniquePaths(Insert(x, t))
  {
    if t != [] && !RanksBefore(x.record, t[0].record) {
      InsertUnique(x, t[1..]);
      var rest := Insert(x, t[1..]);
      InsertMembers(x, t[1..]);
      forall y | y in rest ensures y.path != t[0].path {
        if y != x {
          var k :| 0 <= k < |t[1..]| && t[1..][k] == y;
          assert t[k + 1] == y;
        }
      }
    }
  }

  /** `sortScripts()`: the scripts in ranked order. */
  function SortScripts(scripts: seq<Script>): (r: seq<Script>)
    ensures |r| == |scripts|
  {
    if scripts == [] then []
    else Insert(scripts[0], SortScripts(scripts[1..]))
  }

  /** The sort ranks its input, is a permutation of it, and keeps keys distinct. */
  lemma {:induction false} SortScriptsSpec(scripts: seq<Script>)
    ensures Ranked(SortScripts(scripts))
    ensures multiset(SortScripts(scripts)) == multiset(scripts)
    ensures UniquePaths(scripts) ==> UniquePaths(SortScripts(scripts))
  {
    if scripts != [] {
      SortScriptsSpec(scripts[1..]);
      SortScriptsStep(scripts, SortScripts(scripts[1..]));
    }
  }

  lemma SortScriptsStep(scripts: seq<Script>, rest: seq<Script>)
    requires scripts != []
    requires Ranked(rest) && multiset(rest) == multiset(scripts[1..])
    requires UniquePaths(scripts[1..]) ==> UniquePaths(rest)
    ensures Ranked(Insert(scripts[0], rest))
    ensures multiset(Insert(scripts[0], rest)) == multiset(scripts)
    ensures UniquePaths(scripts) ==> UniquePaths(Insert(scripts[0], rest))
  {
    InsertRanked(scripts[0], rest);
    InsertPermutes(scripts[0], rest);
    assert scripts == [scripts[0]] + scripts[1..];
    if UniquePaths(scripts) {
      forall k | 0 <= k < |rest| ensures rest[k].path != scripts[0].path {
        assert rest[k] in multiset(scripts[1..]);
        var m :| 0 <= m < |scripts[1..]| && scripts[1..][m] == rest[k];
        assert scripts[m + 1] == rest[k];
      }
      InsertUnique(scripts[0], rest);
    }
  }

  /** The entries whose record equals `rec`, in order. */
  function WithRecord(s: seq<Script>, rec: Record): seq<Script>
  {
    if s == [] then []
    else (if s[0].record == rec then [s[0]] else []) + WithRecord(s[1..], rec)
  }

  lemma {:induction false} InsertStable(x: Script, t: seq<Script>, rec: Record)
    ensures WithRecord(Insert(x, t), rec) == (if x.record == rec then [x] else []) + WithRecord(t, rec)
  {
    if t == [] || RanksBefore(x.record, t[0].record) {
      assert ([x] + t)[1..] == t;
    } else {
      InsertStable(x, t[1..], rec);
      assert (t[0].record == rec) ==> t[0].record != x.record;
      assert ([t[0]] + Insert(x, t[1..]))[1..] == Insert(x, t[1..]);
    }
  }

  /** A list that is already ranked is left as it is. */
  lemma {:induction false} SortRanked(scripts: seq<Script>)
    requires Ranked(scripts)
    ensures SortScripts(scripts) == scripts
  {
    if scripts != [] {
      SortRanked(scripts[1..]);
      assert scripts == [scripts[0]] + scripts[1..];
    }
  }

  /** Sorting twice gives the order of sorting once. */
  lemma SortScriptsIdempotent(scripts: seq<Script>)
    ensures SortScripts(SortScripts(scripts)) == SortScripts(scripts)
  {
    SortScriptsSpec(scripts);
    SortRanked(SortScripts(scripts));
  }

  /** The sort is stable: entries with identical records keep their input order. */
  lemma {:induction false} SortScriptsStable(scripts: seq<Script>, rec: Record)
    ensures WithRecord(SortScripts(scripts), rec) == WithRecord(scripts, rec)
  {
    if scripts != [] {
      SortScriptsStable(scripts[1..], rec);
      InsertStable(scripts[0], SortScripts(scripts[1..]), rec);
    }
  }

  /** What the ranking means for two entries of a sorted list: more hits first; on equal hits
      the more recent first; when both tie, the smaller memory consumption first. */
  lemma RankedOrder(s: seq<Script>, i: nat, j: nat)
    requires Ranked(s) && i < j < |s|
    ensures s[i].record.hits >= s[j].record.hits
    ensures s[i].record.hits == s[j].record.hits ==> s[i].record.lastUsedTimestamp >= s[j].record.lastUsedTimestamp
    ensures s[i].record.hits == s[j].record.hits && s[i].record.lastUsedTimestamp == s[j].record.lastUsedTimestamp
            ==> s[i].record.memoryConsumption <= s[j].record.memoryConsumption
  {
    assert RanksBefore(s[i].record, s[j].record);
  }

  // ---------------------------------------------------------------------------
  // Budget truncation

  /** Total memory consumption of a list of scripts. */
  function Spent(s: seq<Script>): int
  {
    if s == [] then 0 else s[0].record.memoryConsumption + Spent(s[1..])
  }

  lemma {:induction false} SpentFirst(s: seq<Script>, k: nat)
    requires 0 < k <= |s|
    ensures Spent(s[..k]) == s[0].record.memoryConsumption + Spent(s[1..][..k - 1])
  {
    assert s[..k][1..] == s[1..][..k - 1];
  }

  /** The paths of the longest prefix of `files` every one of whose running totals stays within
      `limit`: the file whose running total first exceeds the limit, and all after it, are dropped. */
  function Cut(files: seq<Script>, limit: int): (kept: seq<string>)
    ensures |kept| <= |files|
  {
    if files == [] then []
    else if files[0].record.memoryConsumption > limit then []
    else [files[0].path] + Cut(files[1..], limit - files[0].record.memoryConsumption)
  }

  /** `Cut` keeps the longest prefix whose running total stays within the limit: every kept
      prefix fits, and adding the next script would exceed the limit. */
  lemma {:induction false} CutSpec(files: seq<Script>, limit: int)
    ensures var kept := Cut(files, limit);
            && kept == Paths(files[..|kept|])
            && (forall k :: 0 < k <= |kept| ==> Spent(files[..k]) <= limit)
            && (|kept| < |files| ==> Spent(files[..|kept| + 1]) > limit)
  {
    if files == [] {
    } else if files[0].record.memoryConsumption > limit {
      SpentFirst(files, 1);
    } else {
      var m := files[0].record.memoryConsumption;
      CutSpec(files[1..], limit - m);
      CutStep(files, limit, Cut(files[1..], limit - m));
    }
  }

  lemma CutStep(files: seq<Script>, limit: int, rest: seq<string>)
    requires files != [] && files[0].record.memoryConsumption <= limit
    requires |rest| <= |files| - 1
    requires rest == Paths(files[1..][..|rest|])
    requires forall k :: 0 < k <= |rest| ==> Spent(files[1..][..k]) <= limit - files[0].record.memoryConsumption
    requires |rest| < |files| - 1 ==> Spent(files[1..][..|rest| + 1]) > limit - files[0].record.memoryConsumption
    ensures [files[0].path] + rest == Paths(files[..|rest| + 1])
    ensures forall k :: 0 < k <= |rest| + 1 ==> Spent(files[..k]) <= limit
    ensures |rest| + 1 < |files| ==> Spent(files[..|rest| + 2]) > limit
  {
    forall k | 0 < k <= |rest| + 1
      ensures Spent(files[..k]) <= limit
    {
      SpentFirst(files, k);
    }
    if |rest| + 1 < |files| {
      SpentFirst(files, |rest| + 2);
    }
  }

  /** One step of `Cut` from position `i`: the script there is kept exactly when it fits. */
  lemma CutFrom(files: seq<Script>, i: nat, limit: int)
    requires i < |files|
    ensures Cut(files[i..], limit)
         == if files[i].record.memoryConsumption > limit then []
            else [files[i].path] + Cut(files[i + 1..], limit - files[i].record.memoryConsumption)
  {
    assert files[i..][0] == files[i] && files[i..][1..] == files[i + 1..];
  }

  /** `cutByMemoryLimit()` as a function of the byte limit: 0 disables truncation. */
  function Truncate(files: seq<Script>, limit: int): (kept: seq<string>)
    ensures |kept| <= |files|
    ensures limit == 0 ==> |kept| == |files|
  {
    if limit == 0 then Paths(files) else Cut(files, limit)
  }

  /** Whatever the limit, the truncated list is the paths of a prefix of the files. */
  lemma TruncatePrefix(files: seq<Script>, limit: int)
    ensures var kept := Truncate(files, limit);
            |kept| <= |files| && kept == Paths(files[..|kept|])
  {
    if limit != 0 {
      CutSpec(files, limit);
    } else {
      assert files[..|files|] == files;
    }
  }

  /** Budget monotonicity: a larger limit keeps an extension of what a smaller one keeps. */
  lemma {:induction false} CutMonotonic(files: seq<Script>, small: int, large: int)
    requires small <= large
    ensures |Cut(files, small)| <= |Cut(files, large)|
    ensures Cut(files, small) == Cut(files, large)[..|Cut(files, small)|]
  {
    if files != [] && files[0].record.memoryConsumption <= small {
      var m := files[0].record.memoryConsumption;
      CutMonotonic(files[1..], small - m, large - m);
    }
  }

  // ---------------------------------------------------------------------------
  // Merging appended paths and removing duplicates

  /** `array_unique`: keeps the first occurrence of every path, in order. */
  function Unique(s: seq<string>): (r: seq<string>)
    ensures |r| <= |s|
  {
    if s == [] then []
    else
      var init := Unique(s[..|s| - 1]);
      var last := s[|s| - 1];
      if last in s[..|s| - 1] then init else init + [last]
  }

  /** `Unique` keeps every value of its input, and each only once. */
  lemma {:induction false} UniqueSpec(s: seq<string>)
    ensures NoDuplicates(Unique(s))
    ensures forall x :: x in Unique(s) <==> x in s
  {
    if s != [] {
      UniqueSpec(s[..|s| - 1]);
      assert s == s[..|s| - 1] + [s[|s| - 1]];
    }
  }

  /** The elements of `s` that are not in `a`, in order. */
  function Without(s: seq<string>, a: seq<string>): (r: seq<string>)
    ensures forall x :: x in r <==> x in s && x !in a
  {
    if s == [] then []
    else
      var init := Without(s[..|s| - 1], a);
      var last := s[|s| - 1];
      assert s == s[..|s| - 1] + [last];
      if last in a then init else init + [last]
  }

  /** The dedupe law: when `a` has no duplicates, `array_unique(a + b)` is `a` followed by
      the first occurrences of the elements of `b` that are not in `a`. */
  lemma {:induction false} UniqueAppend(a: seq<string>, b: seq<string>)
    requires NoDuplicates(a)
    ensures Unique(a + b) == a + Unique(Without(b, a))
  {
    if b == [] {
      assert a + b == a;
      UniqueOfDistinct(a);
    } else {
      var b' := b[..|b| - 1];
      var x := b[|b| - 1];
      UniqueAppend(a, b');
      UniqueSpec(a + b');
      assert (a + b)[..|a + b| - 1] == a + b';
      assert (a + b)[|a + b| - 1] == x;
      var w := Without(b, a);
      if x in a {
        assert w == Without(b', a);
      } else {
        assert w == Without(b', a) + [x];
        assert w[..|w| - 1] == Without(b', a);
      }
    }
  }

  lemma {:induction false} UniqueOfDistinct(a: seq<string>)
    requires NoDuplicates(a)
    ensures Unique(a) == a
  {
    if a != [] {
      var init := a[..|a| - 1];
      UniqueOfDistinct(init);
      assert a[|a| - 1] !in init;
      assert a == init + [a[|a| - 1]];
    }
  }

  /** Values none of which is in `a` all stay, in place. */
  lemma {:induction false} WithoutDisjoint(s: seq<string>, a: seq<string>)
    requires forall x :: x in s ==> x !in a
    ensures Without(s, a) == s
  {
    if s != [] {
      WithoutDisjoint(s[..|s| - 1], a);
      assert s == s[..|s| - 1] + [s[|s| - 1]];
    }
  }

  /** `Without` keeps the values it keeps in the order of their first occurrences. */
  lemma {:induction false} WithoutOrder(s: seq<string>, a: seq<string>, x: string, y: string)
    requires x in s && y in s && x !in a && y !in a
    requires FirstIndex(s, x) < FirstIndex(s, y)
    ensures x in Without(s, a) && y in Without(s, a)
    ensures FirstIndex(Without(s, a), x) < FirstIndex(Without(s, a), y)
  {
    var init := s[..|s| - 1];
    var last := s[|s| - 1];
    assert s == init + [last];
    var w := Without(init, a);
    assert x in init by {
      assert init[FirstIndex(s, x)] == x;
    }
    if y in init {
      FirstIndexAppendLeft(init, [last], x);
      FirstIndexAppendLeft(init, [last], y);
      WithoutOrder(init, a, x, y);
      if last !in a {
        FirstIndexAppendLeft(w, [last], x);
        FirstIndexAppendLeft(w, [last], y);
      }
    } else {
      assert y == last;
      FirstIndexAppendRight(w, [y], y);
      FirstIndexAppendLeft(w, [y], x);
    }
  }

  /** Of two values of `s`, the one that occurs first in `s` comes first in `Unique(s)`. */
  lemma {:induction false} UniqueOrder(s: seq<string>, x: string, y: string)
    requires x in s && y in s
    requires FirstIndex(s, x) < FirstIndex(s, y)
    ensures x in Unique(s) && y in Unique(s)
    ensures FirstIndex(Unique(s), x) < FirstIndex(Unique(s), y)
  {
    var init := s[..|s| - 1];
    var last := s[|s| - 1];
    assert s == init + [last];
    var u := Unique(init);
    UniqueSpec(init);
    assert x in init by {
      assert init[FirstIndex(s, x)] == x;
    }
    if y in init {
      FirstIndexAppendLeft(init, [last], x);
      FirstIndexAppendLeft(init, [last], y);
      UniqueOrder(init, x, y);
      if last !in init {
        FirstIndexAppendLeft(u, [last], x);
        FirstIndexAppendLeft(u, [last], y);
      }
    } else {
      assert y == last;
      FirstIndexAppendRight(u, [y], y);
      FirstIndexAppendLeft(u, [y], x);
    }
  }

  /** `array_unique` keeps first occurrences in order: two values come in the same order in
      `Unique(s)` as their first occurrences in `s`. With `UniqueSpec` this pins `Unique` down. */
  lemma UniqueFirstOccurrences(s: seq<string>, x: string, y: string)
    requires x in s && y in s
    ensures x in Unique(s) && y in Unique(s)
    ensures FirstIndex(Unique(s), x) < FirstIndex(Unique(s), y) <==> FirstIndex(s, x) < FirstIndex(s, y)
  {
    UniqueSpec(s);
    if FirstIndex(s, x) < FirstIndex(s, y) {
      UniqueOrder(s, x, y);
    } else if FirstIndex(s, y) < FirstIndex(s, x) {
      UniqueOrder(s, y, x);
    }
  }

  // ---------------------------------------------------------------------------
  // The whole pipeline

  /** The set handed to `array_flip`: user exclusions plus, optionally, the package's files. */
  function ExcludedSet(exclude: seq<string>, includePreloader: bool, packageFiles: seq<string>): set<string>
  {
    Elems(exclude) + Elems(ExcludedPackageFiles(includePreloader, packageFiles))
  }

  /** Steps 1-3 of `build()`: exclusion, ranking, truncation. */
  function RankedPortion(scripts: seq<Script>, exclude: seq<string>, includePreloader: bool,
                         packageFiles: seq<string>, memory: int): (ranked: seq<string>)
    ensures |ranked| <= |scripts|
  {
    Truncate(SortScripts(Exclude(scripts, ExcludedSet(exclude, includePreloader, packageFiles))), LimitBytes(memory))
  }

  /** `build()`: the ranked portion followed by the appended paths, without duplicates. */
  function BuildList(scripts: seq<Script>, exclude: seq<string>, includePreloader: bool,
                     packageFiles: seq<string>, memory: int, append: seq<string>): (list: seq<string>)
    ensures |list| <= |scripts| + |append|
  {
    Unique(RankedPortion(scripts, exclude, includePreloader, packageFiles, memory) + append)
  }

  /** The list has no duplicates, and every appended path is in it, whatever the limit. */
  lemma BuildListSpec(scripts: seq<Script>, exclude: seq<string>, includePreloader: bool,
                      packageFiles: seq<string>, memory: int, append: seq<string>)
    ensures var list := BuildList(scripts, exclude, includePreloader, packageFiles, memory, append);
            NoDuplicates(list) && forall p :: p in append ==> p in list
  {
    UniqueSpec(RankedPortion(scripts, exclude, includePreloader, packageFiles, memory) + append);
  }

  /** The ranked portion has no duplicate paths and is a prefix of the sorted candidates. */
  lemma RankedPortionShape(scripts: seq<Script>, exclude: seq<string>, includePreloader: bool,
                           packageFiles: seq<string>, memory: int)
    requires UniquePaths(scripts)
    ensures var candidates := SortScripts(Exclude(scripts, ExcludedSet(exclude, includePreloader, packageFiles)));
            var ranked := RankedPortion(scripts, exclude, includePreloader, packageFiles, memory);
            && NoDuplicates(ranked)
            && |ranked| <= |candidates|
            && ranked == Paths(candidates[..|ranked|])
            && (memory == 0 ==> ranked == Paths(candidates))
  {
    var candidates := SortScripts(Exclude(scripts, ExcludedSet(exclude, includePreloader, packageFiles)));
    var ranked := RankedPortion(scripts, exclude, includePreloader, packageFiles, memory);
    ExcludeMembers(scripts, ExcludedSet(exclude, includePreloader, packageFiles));
    SortScriptsSpec(Exclude(scripts, ExcludedSet(exclude, includePreloader, packageFiles)));
    TruncatePrefix(candidates, LimitBytes(memory));
    assert ranked == Paths(candidates[..|ranked|]);
    assert UniquePaths(candidates[..|ranked|]);
    UniquePathsNoDuplicates(candidates[..|ranked|]);
  }

  /** `build()` as a whole: the ranked portion comes first, unchanged, and the appended paths
      follow in their order, each once, minus those already ranked. A path both ranked and
      appended therefore appears once, at its ranked position. */
  lemma BuildListLayout(scripts: seq<Script>, exclude: seq<string>, includePreloader: bool,
                        packageFiles: seq<string>, memory: int, append: seq<string>)
    requires UniquePaths(scripts)
    ensures var ranked := RankedPortion(scripts, exclude, includePreloader, packageFiles, memory);
            BuildList(scripts, exclude, includePreloader, packageFiles, memory, append)
              == ranked + Unique(Without(append, ranked))
  {
    RankedPortionShape(scripts, exclude, includePreloader, packageFiles, memory);
    UniqueAppend(RankedPortion(scripts, exclude, includePreloader, packageFiles, memory), append);
  }

  /** Appended paths that are not ranked come after the ranked portion, in the order of their
      first occurrences in the appended list. */
  lemma BuildListAppendOrder(scripts: seq<Script>, exclude: seq<string>, includePreloader: bool,
                             packageFiles: seq<string>, memory: int, append: seq<string>, x: string, y: string)
    requires UniquePaths(scripts)
    requires x in append && y in append
    requires x !in RankedPortion(scripts, exclude, includePreloader, packageFiles, memory)
    requires y !in RankedPortion(scripts, exclude, includePreloader, packageFiles, memory)
    requires FirstIndex(append, x) < FirstIndex(append, y)
    ensures var list := BuildList(scripts, exclude, includePreloader, packageFiles, memory, append);
            x in list && y in list
    ensures var list := BuildList(scripts, exclude, includePreloader, packageFiles, memory, append);
            |RankedPortion(scripts, exclude, includePreloader, packageFiles, memory)| <= FirstIndex(list, x)
              < FirstIndex(list, y)
  {
    var ranked := RankedPortion(scripts, exclude, includePreloader, packageFiles, memory);
    var w := Without(append, ranked);
    BuildListLayout(scripts, exclude, includePreloader, packageFiles, memory, append);
    WithoutOrder(append, ranked, x, y);
    UniqueOrder(w, x, y);
    FirstIndexAppendRight(ranked, Unique(w), x);
    FirstIndexAppendRight(ranked, Unique(w), y);
  }

  /** Distinct appended paths, none of them ranked, follow the ranked portion exactly as given. */
  lemma BuildListFreshAppend(scripts: seq<Script>, exclude: seq<string>, includePreloader: bool,
                             packageFiles: seq<string>, memory: int, append: seq<string>)
    requires UniquePaths(scripts)
    requires NoDuplicates(append)
    requires forall p :: p in append ==> p !in RankedPortion(scripts, exclude, includePreloader, packageFiles, memory)
    ensures BuildList(scripts, exclude, includePreloader, packageFiles, memory, append)
         == RankedPortion(scripts, exclude, includePreloader, packageFiles, memory) + append
  {
    BuildListLayout(scripts, exclude, includePreloader, packageFiles, memory, append);
    WithoutDisjoint(append, RankedPortion(scripts, exclude, includePreloader, packageFiles, memory));
    UniqueOfDistinct(append);
  }

  lemma CandidatesNotExcluded(scripts: seq<Script>, excluded: set<string>)
    ensures forall x :: x in SortScripts(Exclude(scripts, excluded)) ==> x.path !in excluded
  {
    var candidates := Exclude(scripts, excluded);
    ExcludeMembers(scripts, excluded);
    SortScriptsSpec(candidates);
    forall x | x in SortScripts(candidates)
      ensures x.path !in excluded
    {
      assert x in multiset(SortScripts(candidates));
      assert x in multiset(candidates);
    }
  }

  /** Excluded paths, and the package's files when `includePreloader` is false, never reach the
      ranked portion; unless appended, they are not in the result at all. */
  lemma ExcludedNeverRanked(scripts: seq<Script>, exclude: seq<string>, includePreloader: bool,
                            packageFiles: seq<string>, memory: int, append: seq<string>, p: string)
    requires p in exclude || (!includePreloader && p in packageFiles)
    ensures p !in RankedPortion(scripts, exclude, includePreloader, packageFiles, memory)
    ensures p !in append ==> p !in BuildList(scripts, exclude, includePreloader, packageFiles, memory, append)
  {
    var excluded := ExcludedSet(exclude, includePreloader, packageFiles);
    assert p in excluded;
    var candidates := SortScripts(Exclude(scripts, excluded));
    var ranked := RankedPortion(scripts, exclude, includePreloader, packageFiles, memory);
    CandidatesNotExcluded(scripts, excluded);
    UniqueSpec(ranked + append);
    TruncatePrefix(candidates, LimitBytes(memory));
    assert forall i :: 0 <= i < |ranked| ==> ranked[i] == candidates[i].path;
  }

  /** Excluding a path that is not a key of the snapshot leaves the result unchanged. */
  lemma ExcludeAbsentKeyIsNoOp(scripts: seq<Script>, exclude: seq<string>, includePreloader: bool,
                               packageFiles: seq<string>, memory: int, append: seq<string>, p: string)
    requires p !in Paths(scripts)
    ensures BuildList(scripts, exclude + [p], includePreloader, packageFiles, memory, append)
         == BuildList(scripts, exclude, includePreloader, packageFiles, memory, append)
  {
    var pkg := Elems(ExcludedPackageFiles(includePreloader, packageFiles));
    assert ExcludedSet(exclude + [p], includePreloader, packageFiles) == (Elems(exclude) + pkg) + {p};
    ExcludeAbsentPath(scripts, Elems(exclude) + pkg, p);
  }

  /** A larger nonzero memory limit never keeps fewer files, and keeps the same ones first. */
  lemma BudgetMonotonic(scripts: seq<Script>, exclude: seq<string>, includePreloader: bool,
                        packageFiles: seq<string>, small: int, large: int)
    requires 0 < small <= large
    ensures var r1 := RankedPortion(scripts, exclude, includePreloader, packageFiles, small);
            var r2 := RankedPortion(scripts, exclude, includePreloader, packageFiles, large);
            |r1| <= |r2| && r1 == r2[..|r1|]
  {
    var candidates := SortScripts(Exclude(scripts, ExcludedSet(exclude, includePreloader, packageFiles)));
    assert LimitBytes(small) <= LimitBytes(large);
    CutMonotonic(candidates, LimitBytes(small), LimitBytes(large));
  }

  // ---------------------------------------------------------------------------
  // The lister object

  class PreloaderLister {
    /** Memory limit in MB; 0 disables truncation. */
    var memory: int
    var append: seq<string>
    var exclude: seq<string>
    var includePreloader: bool
    const opcache: OpcacheStatus

    constructor (opcache: OpcacheStatus)
      ensures memory == 32 && append == [] && exclude == [] && !includePreloader
      ensures this.opcache == opcache
    {
      this.opcache := opcache;
      memory := 32;
      append := [];
      exclude := [];
      includePreloader := false;
    }

    /** The list `build()` returns for the current fields. */
    function List(packageFiles: seq<string>): (list: seq<string>)
      reads this
      ensures NoDuplicates(list)
      ensures forall p :: p in append ==> p in list
    {
      BuildListSpec(opcache.scripts, exclude, includePreloader, packageFiles, memory, append);
      BuildList(opcache.scripts, exclude, includePreloader, packageFiles, memory, append)
    }

    /** `cutByMemoryLimit()`: scans the ranked files, adding each one's memory to a running
        total, and stops at the first file that takes the total over `memory` megabytes. */
    method CutByMemoryLimit(files: seq<Script>) returns (resulting: seq<string>)
      ensures resulting == Truncate(files, LimitBytes(memory))
    {
      var limit := LimitBytes(memory);
      if limit == 0 {
        return Paths(files);
      }
      var cumulative := 0;
      resulting := [];
      var i := 0;
      while i < |files|
        invariant 0 <= i <= |files|
        invariant Cut(files, limit) == resulting + Cut(files[i..], limit - cumulative)
      {
        CutFrom(files, i, limit - cumulative);
        cumulative := cumulative + files[i].record.memoryConsumption;
        if cumulative > limit {
          return resulting;
        }
        assert resulting + ([files[i].path] + Cut(files[i + 1..], limit - cumulative))
            == (resulting + [files[i].path]) + Cut(files[i + 1..], limit - cumulative);
        resulting := resulting + [files[i].path];
        i := i + 1;
      }
    }

    /** `build()`: exclude, sort, cut by the memory limit, append, remove duplicates.
        `packageFiles` stands for the package's own files found by `glob`. */
    method Build(packageFiles: seq<string>) returns (list: seq<string>)
      ensures list == List(packageFiles)
    {
      var excluded := Elems(exclude) + Elems(ExcludedPackageFiles(includePreloader, packageFiles));
      var scripts := Exclude(opcache.scripts, excluded);
      scripts := SortScripts(scripts);
      var kept := CutByMemoryLimit(scripts);
      list := Unique(kept + append);
    }
  }
}
