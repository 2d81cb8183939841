# Preloader: a Dafny model of the preload-list engine

Preloader is a PHP package that writes an Opcache preload script. It reads the statistics Opcache keeps for every cached
script (hits, memory consumption, last use). It drops the excluded files and ranks the rest by hits, then by how recently
they were used. It keeps the longest ranked prefix that fits a memory budget in MB, then adds the appended files, removes
duplicates, and substitutes the list into a script template.

The model has five modules:

- `Php` (`php.dfy`): `Option`, `Result`, and PHP's truthiness of scalars and nullable strings.
- `Lister` (`lister.dfy`): `PreloaderLister`.
  - `exclude()`, `excludedPackageFiles()`, `sortScripts()`, `cutByMemoryLimit()` and `build()` are functions on a snapshot.
    A snapshot is the ordered map Opcache reports: a list of `Script(path, record)` with distinct paths.
  - Its properties are proved as lemmas.
  - The class `PreloaderLister` keeps the four public fields. Its `CutByMemoryLimit` method is the source's `foreach`
    loop, proved equal to the specification function `Truncate`. `Build` is proved equal to `BuildList`.
- `Compiler` (`compiler.dfy`): `PreloaderCompiler`.
  - `parseList()`, PHP's `str_replace` with arrays (each pair in turn, left to right, non-overlapping occurrences),
    `array_merge` on string keys, and the `@mechanism` choice.
  - The class keeps the compiler's public fields. `Compile` reads them.
- `Facade` (`facade.dfy`): the `Preloader` class.
  - The traits `Conditions`, `ManagesFiles` and `LimitsList` are members of the class here.
  - Every fluent setter changes only the fields it names and returns the same object.
  - `CanGenerate` throws on the first failing check, in the source's order.
  - `Generate` fills the compiler and computes the script text.
  - Everything `generate()` reads from the outside world is passed in as one `Environment` value: `file_exists`,
    `shouldWrite()`, the stub, the two configuration arrays, the package's own files, `realpath`, `date`, `PHP_EOL`, and
    the result of `file_put_contents`.
- `Examples` (`examples.dfy`): the five-script fixture of `tests/PrepareWorkDir.php`.
  - The ranking, truncation, exclusion and append results for that fixture, proved step by step.
  - Client methods that replay the facade tests (hit thresholds, `when()` callables, the failing checks, replacing
    setters) against the class contracts.

Ranking follows `array_multisort` with the whole record as its third key. PHP compares two records as arrays, field by
field in key order: `hits`, `memory_consumption`, `last_used_timestamp`. With hits and last use tied, the smaller memory
consumption therefore comes first. Records that are equal in every field keep their input order: `SortScripts` is a stable
insertion sort, and PHP 8's sort is stable.

## Model

| member | source | states |
|---|---|---|
| Lister.Paths | src/PreloaderLister.php:103 | `array_keys`: one path per script, in the snapshot's order |
| Lister.ExcludedPackageFiles | src/PreloaderLister.php:141-146 | with `includePreloader` nothing is excluded; otherwise exactly the package's own files |
| Lister.Exclude | src/PreloaderLister.php:131-134 | `array_diff_key` never lengthens the snapshot |
| Lister.ExcludeMembers | src/PreloaderLister.php:131-134 | an entry survives exactly when it is in the snapshot and its path is not excluded (exact string match); distinct keys stay distinct |
| Lister.ExcludeAppend | src/PreloaderLister.php:133 | exclusion works entry by entry: excluding from `a + b` gives what is kept of `a` followed by what is kept of `b`, so the survivors keep their snapshot order |
| Lister.ExcludeAbsentPath | src/PreloaderLister.php:133 | adding a path that is not a key of the snapshot to the excluded set changes nothing |
| Lister.RanksBeforeTotal | src/PreloaderLister.php:84-88 | the three-key order is total, and two records that may each precede the other are equal |
| Lister.RanksBeforeTransitive | src/PreloaderLister.php:84-88 | the three-key order is transitive |
| Lister.Insert | src/PreloaderLister.php:84-88 | one insertion step adds exactly one entry |
| Lister.InsertPermutes | src/PreloaderLister.php:84-88 | an insertion adds `x` to the entries of the list and loses nothing |
| Lister.InsertMembers | src/PreloaderLister.php:84-88 | after an insertion, the members are `x` and the members of the list |
| Lister.InsertRanked | src/PreloaderLister.php:84-88 | inserting into a ranked list gives a ranked list |
| Lister.InsertUnique | src/PreloaderLister.php:84-88 | inserting a script with a new path keeps the paths distinct |
| Lister.SortScripts | src/PreloaderLister.php:81-91 | the sort keeps the length of the snapshot |
| Lister.SortScriptsSpec | src/PreloaderLister.php:81-91 | the sorted list is ranked (hits descending, then last use descending, then the record ascending), is a permutation of its input, and keeps keys distinct |
| Lister.InsertStable | src/PreloaderLister.php:84-88 | an insertion places `x` ahead of every entry with the same record |
| Lister.SortScriptsStable | src/PreloaderLister.php:84-88 | entries with equal records keep their snapshot order |
| Lister.SortRanked | src/PreloaderLister.php:81-91 | a list that is already ranked comes back unchanged |
| Lister.SortScriptsIdempotent | src/PreloaderLister.php:81-91 | sorting twice gives the same order as sorting once |
| Lister.RankedOrder | src/PreloaderLister.php:84-88 | in a ranked list, hits never increase; on equal hits, last use never increases; on both equal, memory consumption never decreases |
| Lister.Cut | src/PreloaderLister.php:106-123 | the greedy scan keeps at most as many paths as there are files |
| Lister.CutSpec | src/PreloaderLister.php:106-123 | the kept paths are the paths of a prefix. Every running total of that prefix is at most the limit, so a total equal to the limit is kept. The file whose running total first exceeds the limit is dropped, and so is everything after it |
| Lister.TruncatePrefix | src/PreloaderLister.php:99-124 | with or without a limit, the result is the paths of a prefix of the ranked files |
| Lister.CutMonotonic | src/PreloaderLister.php:106-123 | a larger limit keeps a list that extends the list kept under a smaller one |
| Lister.Truncate | src/PreloaderLister.php:99-124 | never more paths than files, and every file's path with limit 0 (the prefix shape is `TruncatePrefix` and `CutSpec`) |
| Lister.Unique | src/PreloaderLister.php:72 | `array_unique` never lengthens the list |
| Lister.UniqueSpec | src/PreloaderLister.php:72 | `array_unique` leaves no duplicates and keeps every value of its input |
| Lister.Without | src/PreloaderLister.php:69-72 | exactly the values of the first list that are not in the second |
| Lister.WithoutDisjoint | src/PreloaderLister.php:69-72 | when no value of the list is in the second list, the list comes back unchanged |
| Lister.WithoutOrder | src/PreloaderLister.php:69-72 | two kept values come in the order of their first occurrences in the input |
| Lister.UniqueAppend | src/PreloaderLister.php:69-72 | deduplicating a duplicate-free list `a` followed by more paths `b` gives `a` unchanged, followed by the deduplicated values of `b` that are not in `a` |
| Lister.UniqueOfDistinct | src/PreloaderLister.php:72 | `array_unique` leaves a duplicate-free list unchanged |
| Lister.UniqueOrder | src/PreloaderLister.php:72 | of two values, the one whose first occurrence comes earlier in the input comes earlier in the result |
| Lister.UniqueFirstOccurrences | src/PreloaderLister.php:72 | two values come in the same order in the result as their first occurrences in the input, in both directions. With `UniqueSpec` this fixes the result: the first occurrences, in order |
| Lister.RankedPortion | src/PreloaderLister.php:60-66 | exclusion, ranking and truncation never give more paths than the snapshot has scripts |
| Lister.BuildList | src/PreloaderLister.php:57-73 | at most one path per script plus one per appended path |
| Lister.BuildListSpec | src/PreloaderLister.php:57-73 | the built list has no duplicates, and every appended path is in it whatever the budget |
| Lister.RankedPortionShape | src/PreloaderLister.php:60-66 | the ranked portion has no duplicates and is the paths of a prefix of the sorted candidates. With memory 0 it is all of them |
| Lister.BuildListLayout | src/PreloaderLister.php:57-73 | the result is the ranked portion, unchanged, followed by the deduplicated appended paths that are not ranked. A path that is both ranked and appended appears once, at its ranked position |
| Lister.BuildListAppendOrder | src/PreloaderLister.php:69-72 | appended paths that are not ranked come after the whole ranked portion, in the order of their first occurrences in the appended list |
| Lister.BuildListFreshAppend | src/PreloaderLister.php:69-72 | distinct appended paths, none of them ranked, follow the ranked portion exactly as given |
| Lister.CandidatesNotExcluded | src/PreloaderLister.php:60-63 | no sorted candidate has an excluded path |
| Lister.ExcludedNeverRanked | src/PreloaderLister.php:131-146 | excluded paths, and the package's own files when `includePreloader` is false, never reach the ranked portion. Unless appended, they are not in the result |
| Lister.ExcludeAbsentKeyIsNoOp | src/PreloaderLister.php:133 | excluding a path that is not a key of the snapshot leaves the built list unchanged |
| Lister.BudgetMonotonic | src/PreloaderLister.php:99-124 | for nonzero budgets, the ranked portion under the smaller budget is a prefix of the one under the larger |
| Lister.PreloaderLister.constructor | src/PreloaderLister.php:12-50 | defaults: 32 MB, nothing appended, nothing excluded, the package's own files excluded |
| Lister.PreloaderLister.List | src/PreloaderLister.php:57-73 | the list `build()` returns for the current fields has no duplicates and holds every appended path |
| Lister.PreloaderLister.CutByMemoryLimit | src/PreloaderLister.php:99-124 | the loop returns `Truncate(files, memory * 1024²)`: every path when the limit is 0, otherwise the greedy prefix of `CutSpec` |
| Lister.PreloaderLister.Build | src/PreloaderLister.php:57-73 | exclude, sort, truncate, append and deduplicate give `BuildList` over the lister's fields |
| Compiler.Implode | src/PreloaderCompiler.php:110 | the result starts with the first piece, and with the first piece and the glue when there are two or more |
| Compiler.ParseList | src/PreloaderCompiler.php:108-111 | the text starts and ends with the line break, around at least four spaces and two quotes |
| Compiler.QuotedImplode | src/PreloaderCompiler.php:110 | quoting the imploded list gives the first entry followed by each later entry after a comma and a line break |
| Compiler.ParseListLayout | src/PreloaderCompiler.php:108-111 | for a nonempty list, the result is EOL, then four spaces and `'a1'`, then `,` EOL four spaces `'ai'` for each later item, then EOL. Items are copied verbatim, in order |
| Compiler.ParseListEmpty | src/PreloaderCompiler.php:110 | an empty list gives EOL, four spaces, `''`, EOL |
| Compiler.ReplaceAll | src/PreloaderCompiler.php:73 | an empty search string leaves the subject as it is; a replacement as long as the search string keeps the length |
| Compiler.ReplaceAllIsImplodeExplode | src/PreloaderCompiler.php:73 | replacing one search string equals exploding at it and imploding with the replacement |
| Compiler.ReplaceBySelf | src/PreloaderCompiler.php:73 | replacing a string by itself changes nothing |
| Compiler.ExplodeImplodeRoundTrip | src/PreloaderCompiler.php:73 | imploding the pieces with the separator gives the subject back |
| Compiler.ExplodePiecesFree | src/PreloaderCompiler.php:73 | no piece between the cut occurrences contains the search string. With `ReplaceAllIsImplodeExplode` this means every occurrence met in the left-to-right scan is replaced |
| Compiler.ReplaceAbsent | src/PreloaderCompiler.php:73 | a subject that does not contain the search string is unchanged |
| Compiler.StrReplace | src/PreloaderCompiler.php:73 | when every replacement is as long as its key, the length of the subject is kept |
| Compiler.StrReplaceAbsent | src/PreloaderCompiler.php:73 | a subject that contains none of the keys is unchanged |
| Compiler.StrReplaceAppend | src/PreloaderCompiler.php:73 | pairs are applied one after another, each on the result of the previous |
| Compiler.Put | src/PreloaderCompiler.php:65 | an existing key keeps its position and no key is added; a new key goes at the end |
| Compiler.PutMembers | src/PreloaderCompiler.php:65 | the written pair is present afterwards, and every other pair was already there |
| Compiler.Merge | src/PreloaderCompiler.php:65-71 | the keys of the first array keep their positions at the front, and the result has at most one entry per key of either array |
| Compiler.MergeDisjoint | src/PreloaderCompiler.php:65 | `array_merge` of arrays with disjoint string keys is their concatenation |
| Compiler.Mechanism | src/PreloaderCompiler.php:70 | `require_once $file` when `useRequire`, `opcache_compile_file($file)` otherwise |
| Compiler.PreloaderCompiler.constructor | src/PreloaderCompiler.php:35-49 | `useRequire` starts true and `autoload` starts null |
| Compiler.PreloaderCompiler.Compile | src/PreloaderCompiler.php:63-74 | a stub that contains none of the keys is returned unchanged (the replacement order is `CompileOrder`) |
| Compiler.PreloaderCompiler.CompileOrder | src/PreloaderCompiler.php:65-73 | with distinct keys, the keys are replaced in this order: the preloader configuration, then the Opcache configuration, then `@output`, `@generated_at`, `@autoload`, `@list`, `@mechanism`. Each replacement works on the previous result |
| Facade.Message | src/Preloader.php:163 | the `RuntimeException` message is the fixed text, then the output path, then `].`, so it names the path exactly; the five `LogicException` texts of src/Preloader.php:178-196 are the literals in the body |
| Facade.AsArray | src/ManagesFiles.php:15 | `(array)`: null gives `[]`, a string gives a one-element list, a list stays as it is |
| Facade.Preloader.constructor | src/Preloader.php:64-69 | keeps the three collaborators; `overwrite` false, no output, `shouldRun` true |
| Facade.Preloader.Make | src/Preloader.php:207-210 | a fresh compiler and a fresh lister that share the Opcache status, with their defaults |
| Facade.Preloader.When | src/Conditions.php:42-47 | `shouldRun` becomes the truthiness of the value, or of what the callable returns; the last call wins |
| Facade.Preloader.WhenHits | src/Conditions.php:20-23 | `shouldRun` becomes `hits > current hits`; the default threshold is 200000 |
| Facade.Preloader.WhenOneIn | src/Conditions.php:31-34 | `shouldRun` becomes `draw == floor(chances / 2)`, so it is always false for one chance. A chance below 1 is the `random_int` error |
| Facade.Preloader.Append | src/ManagesFiles.php:13-18 | the lister's appended list is replaced by the cast argument; the same object is returned |
| Facade.Preloader.Exclude | src/ManagesFiles.php:26-31 | the lister's excluded list is replaced by the cast argument; the same object is returned |
| Facade.Preloader.Memory | src/LimitsList.php:15-20 | the lister's memory limit becomes the given MB value |
| Facade.Preloader.Overwrite | src/Preloader.php:77-82 | `overwrite` becomes the argument, true by default |
| Facade.Preloader.Autoload | src/Preloader.php:90-95 | the compiler's autoload path is set |
| Facade.Preloader.Output | src/Preloader.php:103-108 | the facade's output and the compiler's output both become the path |
| Facade.Preloader.UseCompile | src/Preloader.php:125-130 | the compiler's `useRequire` becomes false |
| Facade.Preloader.UseRequire | src/Preloader.php:137-142 | the compiler's `useRequire` becomes true |
| Facade.Preloader.List | src/Preloader.php:115-118 | the list the lister builds |
| Facade.Preloader.CanGenerate | src/Preloader.php:176-200 | a failure is the first failing check among output missing, autoload missing, autoload file absent, cache disabled and zero cached scripts. It succeeds exactly when all pass, and then returns `shouldRun && shouldWrite` |
| Facade.Preloader.Generate | src/Preloader.php:150-168 | when the checks do not return true: the same outcome, nothing written, compiler untouched. Otherwise the compiler gets the stub, both configurations and the built list; the script is its compiled text; a write of false or 0 bytes is the `RuntimeException` |
| Examples.FixtureRanked | tests/PrepareWorkDir.php:11-37 | the fixture ranks as bar, quz, foo, qux, baz |
| Examples.MemoryBreaksTie | tests/PreloaderTest.php:151-160 | on equal hits and last use, the smaller memory consumption ranks first |
| Examples.FixtureNoLimit | src/PreloaderLister.php:102-104 | with memory 0 the whole fixture is listed, in ranked order |
| Examples.FixtureTenMegabytes | tests/PreloaderTest.php:237-253 | 10 MB keeps bar, quz, foo (3 + 5 + 1 MB; qux would make 14) |
| Examples.FixtureExcludeQuz | tests/PreloaderTest.php:451-470 | excluding quz before truncation lets qux in: bar, foo, qux |
| Examples.FixtureExcludeQuzNoLimit | src/PreloaderLister.php:131-134 | excluding quz with no limit keeps bar, foo, qux, baz |
| Examples.FixtureAppend | tests/PreloaderTest.php:396-416 | two appended files follow the ranked 10 MB portion and do not count against it |
| Examples.FixtureAppendRanked | src/PreloaderLister.php:69-72 | a path both ranked and appended appears once, at its ranked position |

## Left out

- `src/Opcache.php` is not part of this model. The Opcache status is a value: enabled flag, cached-script count, hits, and
  the scripts map.
- The file system, the clock and randomness are parameters. This covers `file_exists`, `file_get_contents`,
  `file_put_contents`, `realpath`, `touch` and `unlink` in `scriptRealPath()`, `date()`, the package-file `glob()`, and
  `random_int`. The model states what is done with their results, not how they are obtained.
- `shouldWrite()` is not defined in the modelled files; its value is a parameter. So the overwrite test (an existing
  output file without `overwrite()` makes `generate()` return false) is not reproduced.
- Records carry only `hits`, `memory_consumption` and `last_used_timestamp`. Real Opcache records have more fields, such
  as `full_path`, and those would take part in the third sort key. Only PHP 8's stable sort is modelled.
- Facade.Preloader.Memory: takes an integer number of MB. The `(float)` cast into the lister's int property is not
  modelled, so fractional limits are not covered. Floats in `when()` are left out for the same reason.
- Facade.Preloader.Generate: the `LogicException`s and the `RuntimeException` are `Failure` values, not exceptions. The
  script text is returned rather than written.
- Typed properties that PHP leaves uninitialised start from empty values: `contents`, `preloaderConfig`,
  `opcacheConfig`, `list` and `output` of the compiler.
- `array_unique` keeps the original keys. Only the order of values is modelled, since `implode` reads nothing else.
- `parseList()` uses `PHP_EOL`; the model takes the line break as a parameter.
- The script statistics from `src/GeneratesScript.php` and `src/GeneratesScriptTrait.php` are not part of this model.
  These are the configuration arrays, with their float formatting, and the "Files appended / excluded" counters. The
  configuration arrays enter as parameters.
- Also outside this model:
  - the Symfony Finder wrapper in `src/ManagesFilesTrait.php`;
  - `src/ConditionsScript.php` and `src/ConditionsScriptTrait.php`;
  - `helpers/safe_preloader.php` and `benchmarks.php`.
- The shown lister has no sentinel-entry filtering or path normalisation, so the model has none either.
- The worked examples use the keys of `tests/PrepareWorkDir.php` (`foo.php`, …), with memory in MB as written there.
  - The tests' expected texts name the same files without the extension, and `testExcludesFilesAffectingLimits`
    excludes `quz`. The model excludes exactly `quz.php`, since `array_diff_key` matches keys exactly.
  - The memory-limit test writes `1024 ^ 2`, which is XOR in PHP (1026); `MemoryBreaksTie` uses those values.
- The test for a missing autoload expects the message "an Composer Autoload". `Facade.Message` follows the code:
  "Cannot proceed without a Composer Autoload."
- Lister.Exclude: its own `ensures` states only the length. Membership is `ExcludeMembers`, order is `ExcludeAppend`.
  Keeping those properties out of the functions keeps the literal fixture computations small; the same holds for the
  lines below.
- Lister.Insert: its own `ensures` states only the length. `InsertPermutes`, `InsertRanked` and `InsertStable` state the
  rest.
- Lister.SortScripts: its own `ensures` states only the length. `SortScriptsSpec` and `SortScriptsStable` state the rest.
- Lister.Cut: its own `ensures` states only the length. `CutSpec` states the greedy prefix.
- Lister.Unique: its own `ensures` states only the length. `UniqueSpec` and `UniqueFirstOccurrences` state the rest.
- Lister.Truncate: its own `ensures` states only lengths. `TruncatePrefix` and `CutSpec` state the prefix shape.
- Lister.RankedPortion: its own `ensures` bounds the length. `RankedPortionShape` and `ExcludedNeverRanked` state the
  rest.
- Lister.BuildList: its own `ensures` bounds the length. `BuildListSpec`, `BuildListLayout`, `BuildListAppendOrder` and
  `BuildListFreshAppend` state the rest.
- Compiler.Implode: its own `ensures` states only how the result starts. `QuotedImplode` and
  `ExplodeImplodeRoundTrip` state the rest.
- Compiler.ParseList: its own `ensures` states only the surrounding line breaks. `ParseListLayout` and `ParseListEmpty`
  give the whole text.
- Compiler.ReplaceAll: its own `ensures` covers the empty search string and the length. `ReplaceAllIsImplodeExplode`,
  `ExplodePiecesFree`, `ReplaceAbsent` and `ReplaceBySelf` state the rest.
- Compiler.StrReplace: its own `ensures` covers only the length. `StrReplaceAbsent` and `StrReplaceAppend` state the
  rest.
- Compiler.Merge: its own `ensures` covers the first array's keys and the size. `MergeDisjoint` states the result for
  disjoint keys.
- Facade.Message: its own `ensures` covers only the write failure. The five check messages are literals; that they
  differ from one another is not stated.
