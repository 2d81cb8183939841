/** Worked examples on the fixture of tests/PrepareWorkDir.php, and client scenarios that
    replay the facade's tests against the contracts of the model. */
module Examples {
  import opened Php
  import opened Lister
  import opened Compiler
  import opened Facade

  function Mb(n: nat): nat
  {
    n * 1048576
  }

  const Foo: Script := Script("foo.php", Record(10, Mb(1), 1400000000))
  const Bar: Script := Script("bar.php", Record(20, Mb(3), 1400000002))
  const Quz: Script := Script("quz.php", Record(20, Mb(5), 1400000001))
  const Qux: Script := Script("qux.php", Record(5, Mb(5), 1400000010))
  const Baz: Script := Script("baz.php", Record(5, Mb(6), 1400000010))

  /** The five scripts of the fixture, in the order Opcache reports them. */
  function Fixture(): seq<Script>
  {
    [Foo, Bar, Quz, Qux, Baz]
  }

  // Ranking, one insertion at a time. qux and baz tie on hits and last use, and the
  // smaller memory consumption (qux) comes first.

  lemma InsertQux()
    ensures Insert(Qux, [Baz]) == [Qux, Baz]
  {
    assert RanksBefore(Qux.record, Baz.record);
  }

  lemma InsertQuz()
    ensures Insert(Quz, [Qux, Baz]) == [Quz, Qux, Baz]
  {
  }

  lemma InsertBar()
    ensures Insert(Bar, [Quz, Qux, Baz]) == [Bar, Quz, Qux, Baz]
    ensures Insert(Bar, [Qux, Baz]) == [Bar, Qux, Baz]
  {
  }

  lemma InsertFooTail()
    ensures Insert(Foo, [Qux, Baz]) == [Foo, Qux, Baz]
  {
  }

  lemma InsertFooAfterQuz()
    ensures Insert(Foo, [Quz, Qux, Baz]) == [Quz, Foo, Qux, Baz]
  {
    assert [Quz, Qux, Baz][1..] == [Qux, Baz];
    InsertFooTail();
  }

  lemma InsertFoo()
    ensures Insert(Foo, [Bar, Quz, Qux, Baz]) == [Bar, Quz, Foo, Qux, Baz]
  {
    assert [Bar, Quz, Qux, Baz][1..] == [Quz, Qux, Baz];
    InsertFooAfterQuz();
  }

  lemma InsertFooAfterBar()
    ensures Insert(Foo, [Bar, Qux, Baz]) == [Bar, Foo, Qux, Baz]
  {
    assert [Bar, Qux, Baz][1..] == [Qux, Baz];
    InsertFooTail();
  }

  lemma SortTail()
    ensures SortScripts([Qux, Baz]) == [Qux, Baz]
  {
    assert [Qux, Baz][1..] == [Baz];
    assert SortScripts([Baz]) == [Baz];
    InsertQux();
  }

  lemma SortFromQuz()
    ensures SortScripts([Quz, Qux, Baz]) == [Quz, Qux, Baz]
  {
    assert [Quz, Qux, Baz][1..] == [Qux, Baz];
    SortTail();
    InsertQuz();
  }

  lemma SortFromBar()
    ensures SortScripts([Bar, Quz, Qux, Baz]) == [Bar, Quz, Qux, Baz]
  {
    assert [Bar, Quz, Qux, Baz][1..] == [Quz, Qux, Baz];
    SortFromQuz();
    InsertBar();
  }

  /** Ranking: hits first, then the most recent, then the smaller record. */
  lemma FixtureRanked()
    ensures SortScripts(Fixture()) == [Bar, Quz, Foo, Qux, Baz]
  {
    assert Fixture()[1..] == [Bar, Quz, Qux, Baz];
    SortFromBar();
    InsertFoo();
  }

  /** The fixture without quz, ranked. */
  lemma FixtureRankedWithoutQuz()
    ensures SortScripts([Foo, Bar, Qux, Baz]) == [Bar, Foo, Qux, Baz]
  {
    assert [Foo, Bar, Qux, Baz][1..] == [Bar, Qux, Baz];
    assert [Bar, Qux, Baz][1..] == [Qux, Baz];
    SortTail();
    InsertBar();
    InsertFooAfterBar();
  }

  /** In the memory-limit test the two hits-5 records differ only in their memory
      consumption, and the smaller one is ranked first. */
  lemma MemoryBreaksTie()
    ensures var qux := Script("qux", Record(5, 11 * 1026, 1400000010));
            var baz := Script("baz", Record(5, 10 * 1026, 1400000010));
            SortScripts([qux, baz]) == [baz, qux]
  {
    var qux := Script("qux", Record(5, 11 * 1026, 1400000010));
    var baz := Script("baz", Record(5, 10 * 1026, 1400000010));
    assert [qux, baz][1..] == [baz];
    assert SortScripts([baz]) == [baz];
    assert !RanksBefore(qux.record, baz.record);
    assert Insert(qux, [baz]) == [baz] + Insert(qux, []);
  }

  // Exclusion.

  lemma FixtureExcludeNothing()
    ensures Exclude(Fixture(), {}) == Fixture()
  {
    ExcludeNothing(Fixture());
  }

  lemma {:induction false} ExcludeNothing(s: seq<Script>)
    ensures Exclude(s, {}) == s
  {
    if s != [] {
      ExcludeNothing(s[1..]);
      assert s == [s[0]] + s[1..];
    }
  }

  lemma ExcludeQuzTail()
    ensures Exclude([Qux, Baz], {"quz.php"}) == [Qux, Baz]
  {
    assert [Qux, Baz][1..] == [Baz];
    assert Exclude([Baz], {"quz.php"}) == [Baz];
  }

  lemma ExcludeQuzItself()
    ensures Exclude([Quz, Qux, Baz], {"quz.php"}) == [Qux, Baz]
  {
    assert [Quz, Qux, Baz][1..] == [Qux, Baz];
    ExcludeQuzTail();
  }

  lemma ExcludeQuzFromBar()
    ensures Exclude([Bar, Quz, Qux, Baz], {"quz.php"}) == [Bar, Qux, Baz]
  {
    assert [Bar, Quz, Qux, Baz][1..] == [Quz, Qux, Baz];
    ExcludeQuzItself();
  }

  lemma FixtureExcludeQuzOnly()
    ensures Exclude(Fixture(), {"quz.php"}) == [Foo, Bar, Qux, Baz]
  {
    assert Fixture()[1..] == [Bar, Quz, Qux, Baz];
    ExcludeQuzFromBar();
    KeepHead(Fixture(), {"quz.php"});
  }

  lemma KeepHead(s: seq<Script>, excluded: set<string>)
    requires s != [] && s[0].path !in excluded
    ensures Exclude(s, excluded) == [s[0]] + Exclude(s[1..], excluded)
  {
  }

  // Truncation, one script at a time (sizes in MB: bar 3, quz 5, foo 1, qux 5, baz 6).

  lemma CutRankedTail()
    ensures Cut([Qux, Baz], LimitBytes(10) - Mb(9)) == []
    ensures Cut([Foo, Qux, Baz], LimitBytes(10) - Mb(8)) == ["foo.php"]
  {
    assert [Foo, Qux, Baz][1..] == [Qux, Baz];
  }

  /** 10 MB over the ranked fixture: bar 3, quz 8, foo 9, then qux would make 14 > 10. */
  lemma FixtureCutTen()
    ensures Cut([Bar, Quz, Foo, Qux, Baz], LimitBytes(10)) == ["bar.php", "quz.php", "foo.php"]
  {
    assert [Bar, Quz, Foo, Qux, Baz][1..] == [Quz, Foo, Qux, Baz];
    assert [Quz, Foo, Qux, Baz][1..] == [Foo, Qux, Baz];
    CutRankedTail();
    assert Cut([Quz, Foo, Qux, Baz], LimitBytes(10) - Mb(3)) == ["quz.php", "foo.php"];
  }

  lemma CutWithoutQuzTail()
    ensures Cut([Baz], LimitBytes(10) - Mb(9)) == []
    ensures Cut([Qux, Baz], LimitBytes(10) - Mb(4)) == ["qux.php"]
  {
    assert [Qux, Baz][1..] == [Baz];
  }

  /** Without quz: bar 3, foo 4, qux 9, then baz would make 15 > 10. */
  lemma FixtureCutTenWithoutQuz()
    ensures Cut([Bar, Foo, Qux, Baz], LimitBytes(10)) == ["bar.php", "foo.php", "qux.php"]
  {
    assert [Bar, Foo, Qux, Baz][1..] == [Foo, Qux, Baz];
    assert [Foo, Qux, Baz][1..] == [Qux, Baz];
    CutWithoutQuzTail();
    assert Cut([Foo, Qux, Baz], LimitBytes(10) - Mb(3)) == ["foo.php", "qux.php"];
  }

  // The ranked portion, then the list.

  lemma RankedPaths()
    ensures Paths([Bar, Quz, Foo, Qux, Baz]) == ["bar.php", "quz.php", "foo.php", "qux.php", "baz.php"]
  {
  }

  lemma PortionNoLimit()
    ensures RankedPortion(Fixture(), [], false, [], 0) == ["bar.php", "quz.php", "foo.php", "qux.php", "baz.php"]
  {
    assert ExcludedSet([], false, []) == {};
    assert LimitBytes(0) == 0;
    FixtureExcludeNothing();
    FixtureRanked();
    RankedPaths();
  }

  lemma PortionTen()
    ensures RankedPortion(Fixture(), [], false, [], 10) == ["bar.php", "quz.php", "foo.php"]
  {
    assert ExcludedSet([], false, []) == {};
    FixtureExcludeNothing();
    FixtureRanked();
    FixtureCutTen();
  }

  lemma PortionTenWithoutQuz()
    ensures RankedPortion(Fixture(), ["quz.php"], false, [], 10) == ["bar.php", "foo.php", "qux.php"]
  {
    assert ExcludedSet(["quz.php"], false, []) == {"quz.php"};
    FixtureExcludeQuzOnly();
    FixtureRankedWithoutQuz();
    FixtureCutTenWithoutQuz();
  }

  lemma FixtureBuild(exclude: seq<string>, memory: int, append: seq<string>)
    ensures var ranked := RankedPortion(Fixture(), exclude, false, [], memory);
            BuildList(Fixture(), exclude, false, [], memory, append) == ranked + Unique(Without(append, ranked))
  {
    assert UniquePaths(Fixture());
    BuildListLayout(Fixture(), exclude, false, [], memory, append);
  }

  lemma AddedAfterRanked()
    ensures Without(["foo.php", "test_a"], ["bar.php", "quz.php", "foo.php"]) == ["test_a"]
  {
    assert ["foo.php", "test_a"][..1] == ["foo.php"];
    assert ["foo.php"][..0] == [];
  }

  lemma FixtureBuildFrom(exclude: seq<string>, memory: int, append: seq<string>, ranked: seq<string>, added: seq<string>)
    requires RankedPortion(Fixture(), exclude, false, [], memory) == ranked
    requires Without(append, ranked) == added && NoDuplicates(added)
    ensures BuildList(Fixture(), exclude, false, [], memory, append) == ranked + added
  {
    FixtureBuild(exclude, memory, append);
    UniqueOfDistinct(added);
  }

  /** A memory limit of 0 keeps every script, in ranked order. */
  lemma FixtureNoLimit()
    ensures BuildList(Fixture(), [], false, [], 0, []) == ["bar.php", "quz.php", "foo.php", "qux.php", "baz.php"]
  {
    var ranked := ["bar.php", "quz.php", "foo.php", "qux.php", "baz.php"];
    PortionNoLimit();
    FixtureBuildFrom([], 0, [], ranked, []);
    assert ranked + [] == ranked;
  }

  /** 10 MB keeps bar, quz and foo. */
  lemma FixtureTenMegabytes()
    ensures BuildList(Fixture(), [], false, [], 10, []) == ["bar.php", "quz.php", "foo.php"]
  {
    var ranked := ["bar.php", "quz.php", "foo.php"];
    PortionTen();
    FixtureBuildFrom([], 10, [], ranked, []);
    assert ranked + [] == ranked;
  }

  /** Excluding quz before truncation lets qux in. */
  lemma FixtureExcludeQuz()
    ensures BuildList(Fixture(), ["quz.php"], false, [], 10, []) == ["bar.php", "foo.php", "qux.php"]
  {
    var ranked := ["bar.php", "foo.php", "qux.php"];
    PortionTenWithoutQuz();
    FixtureBuildFrom(["quz.php"], 10, [], ranked, []);
    assert ranked + [] == ranked;
  }

  /** Excluding quz with no limit keeps the other four, in ranked order. */
  lemma FixtureExcludeQuzNoLimit()
    ensures BuildList(Fixture(), ["quz.php"], false, [], 0, []) == ["bar.php", "foo.php", "qux.php", "baz.php"]
  {
    var ranked := ["bar.php", "foo.php", "qux.php", "baz.php"];
    PortionNoLimitWithoutQuz();
    FixtureBuildFrom(["quz.php"], 0, [], ranked, []);
    assert ranked + [] == ranked;
  }

  lemma PortionNoLimitWithoutQuz()
    ensures RankedPortion(Fixture(), ["quz.php"], false, [], 0) == ["bar.php", "foo.php", "qux.php", "baz.php"]
  {
    assert ExcludedSet(["quz.php"], false, []) == {"quz.php"};
    assert LimitBytes(0) == 0;
    FixtureExcludeQuzOnly();
    FixtureRankedWithoutQuz();
    RankedPathsWithoutQuz();
  }

  lemma RankedPathsWithoutQuz()
    ensures Paths([Bar, Foo, Qux, Baz]) == ["bar.php", "foo.php", "qux.php", "baz.php"]
  {
  }

  /** Appended paths follow the ranked portion and do not count against the limit. */
  lemma FixtureAppend()
    ensures BuildList(Fixture(), [], false, [], 10, ["test_a", "test_b"])
         == ["bar.php", "quz.php", "foo.php", "test_a", "test_b"]
  {
    PortionTen();
    AddedTwo();
    FixtureBuildFrom([], 10, ["test_a", "test_b"], ["bar.php", "quz.php", "foo.php"], ["test_a", "test_b"]);
  }

  lemma AddedTwo()
    ensures Without(["test_a", "test_b"], ["bar.php", "quz.php", "foo.php"]) == ["test_a", "test_b"]
  {
    assert ["test_a", "test_b"][..1] == ["test_a"];
    assert ["test_a"][..0] == [];
  }

  /** A path both ranked and appended appears once, at its ranked position. */
  lemma FixtureAppendRanked()
    ensures BuildList(Fixture(), [], false, [], 10, ["foo.php", "test_a"]) == ["bar.php", "quz.php", "foo.php", "test_a"]
  {
    PortionTen();
    AddedAfterRanked();
    FixtureBuildFrom([], 10, ["foo.php", "test_a"], ["bar.php", "quz.php", "foo.php"], ["test_a"]);
  }

  // ---------------------------------------------------------------------------
  // Client scenarios

  function TestStatus(): OpcacheStatus
  {
    OpcacheStatus(true, 1000, 1001, Fixture())
  }

  function TestEnvironment(): Environment
  {
    Environment(true, true, "$files = [@list];", [], [], [], "/w/preload.php", "2020-01-01 00:00:00 UTC",
                "/w/autoload.php", "\n", Some(100))
  }

  /** With 1001 hits, thresholds 1000 and 1001 do not run; 1002 does. */
  method WhenHitsScenario()
  {
    var p := Preloader.Make(TestStatus());
    var _ := p.Autoload("/w/autoload.php");
    var _ := p.Output("/w/preload.php");
    var _ := p.WhenHits(1000);
    var r, s := p.Generate(TestEnvironment());
    assert r == Success(false);
    var _ := p.WhenHits(1001);
    r, s := p.Generate(TestEnvironment());
    assert r == Success(false);
    var _ := p.WhenHits(1002);
    r, s := p.Generate(TestEnvironment());
    assert r == Success(true);
  }

  /** `when()`: callables returning false or null, or nothing, stop the run; true lets it run. */
  method WhenScenario()
  {
    var p := Preloader.Make(TestStatus());
    var _ := p.Autoload("/w/autoload.php");
    var _ := p.Output("/w/preload.php");
    var _ := p.When(Callable(Bool(false)));
    var r, s := p.Generate(TestEnvironment());
    assert r == Success(false);
    var _ := p.When(Callable(Null));
    r, s := p.Generate(TestEnvironment());
    assert r == Success(false);
    var _ := p.When(Callable(Bool(true)));
    r, s := p.Generate(TestEnvironment());
    assert r == Success(true);
  }

  /** Without an output path the first check fails, whatever else is missing. */
  method NoOutputScenario()
  {
    var p := Preloader.Make(TestStatus());
    var _ := p.Autoload("/w/autoload.php");
    var r, s := p.Generate(TestEnvironment());
    assert r == Failure(OutputMissing) && s == None;
  }

  /** Without an autoload path the second check fails, with the code's message. */
  method NoAutoloadScenario()
  {
    var p := Preloader.Make(TestStatus());
    var _ := p.Output("/w/preload.php");
    var r, s := p.Generate(TestEnvironment());
    assert r == Failure(AutoloadMissing);
    assert Message(r.error) == "Cannot proceed without a Composer Autoload.";
  }

  /** An autoload path that does not exist fails the third check. */
  method AutoloadNotFoundScenario()
  {
    var p := Preloader.Make(TestStatus());
    var _ := p.Output("/w/preload.php");
    var _ := p.Autoload("/w/invalid_autoload.php");
    var r, s := p.Generate(TestEnvironment().(autoloadExists := false));
    assert r == Failure(AutoloadNotFound);
  }

  /** A disabled cache fails the fourth check. */
  method OpcacheDisabledScenario()
  {
    var p := Preloader.Make(OpcacheStatus(false, 0, 0, []));
    var _ := p.Output("/w/preload.php");
    var _ := p.Autoload("/w/autoload.php");
    var r, s := p.Generate(TestEnvironment());
    assert r == Failure(OpcacheDisabled);
  }

  /** An enabled cache with no cached scripts fails the fifth check. */
  method NoCachedScriptsScenario()
  {
    var p := Preloader.Make(OpcacheStatus(true, 0, 0, []));
    var _ := p.Output("/w/preload.php");
    var _ := p.Autoload("/w/autoload.php");
    var r, s := p.Generate(TestEnvironment());
    assert r == Failure(NoCachedScripts);
  }

  /** Setters replace, they do not extend: the last `exclude()` and `append()` win. */
  method FilesScenario()
  {
    var p := Preloader.Make(TestStatus());
    var _ := p.Exclude(OneFile("quz.php"));
    var _ := p.Exclude(NoFiles);
    var _ := p.Append(FileList(["test_a", "test_b"]));
    var _ := p.Append(FileList(["foo.php", "test_a"]));
    var _ := p.Memory(10);
    assert p.lister.exclude == [] && p.lister.append == ["foo.php", "test_a"];
    var list := p.List([]);
    FixtureAppendRanked();
    assert list == ["bar.php", "quz.php", "foo.php", "test_a"];
  }
}
