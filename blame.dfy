/**
 The attribution and classification engine of the `npmblame` package:
 resolving the npm package that owns a walked path, classifying each walked
 entry into hygiene-issue categories, and accumulating per-package,
 per-category counters in an `NpmPackages` store.
 */
module NpmBlame {
  import opened GoStrings
  import opened GoFilepath
  import opened GoOs
  import opened Counters

  /** The closed set of issue categories (PackageError). */
  datatype PackageError = ExecError | TestError | BenchError | ImageError | CIError | DotfileError

  /** The store's value: package name -> category -> count. */
  type Store = map<string, map<PackageError, nat>>

  /** The directory name that marks a level of installed dependencies. */
  const NodeModules := "node_modules"

  /** The directory of generated executable shims, never a package. */
  const BinDir := ".bin"

  /**
   The package owning `path`: the '/'-separated piece that follows the last
   occurrence of "node_modules" in the directory of `path`, when a '/'
   follows that occurrence; otherwise the first piece of the directory, or
   its second piece when the first is empty.
   */
  function ExtractPackageName(path: string): (name: string)
    ensures '/' !in name
  {
    var dir := Dir(path);
    var subPkgIndex := LastIndex(dir, NodeModules);
    if subPkgIndex != -1 && |Split(dir[subPkgIndex..])| > 1 then
      Split(dir[subPkgIndex..])[1]
    else
      var pieces := Split(dir);
      if |pieces[0]| > 0 then pieces[0] else pieces[1]
  }

  /** The directory of `path` has no "node_modules" occurrence followed by a '/'. */
  predicate NoNestedMarker(dir: string)
  {
    var i := LastIndex(dir, NodeModules);
    i == -1 || '/' !in dir[i..]
  }

  /** The marker occurs at the end of `pre`, and the second piece of what starts there is `seg`. */
  lemma MarkerTail(dir: string, pre: string, glued: string, seg: string, rest: string)
    requires dir == pre + NodeModules + glued + "/" + seg + rest
    requires '/' !in glued && '/' !in seg
    requires rest == "" || rest[0] == '/'
    ensures OccursAt(dir, NodeModules, |pre|)
    ensures |Split(dir[|pre|..])| > 1 && Split(dir[|pre|..])[1] == seg
  {
    assert dir[|pre|..|pre| + |NodeModules|] == NodeModules;
    assert dir[|pre|..] == (NodeModules + glued) + "/" + seg + rest;
    SplitFirstTwo(NodeModules + glued, seg, rest);
  }

  /**
   Depth-aware resolution: when the directory is `pre` + "node_modules" +
   `glued` + "/" + `seg` + `rest` and no "node_modules" occurs after `pre`,
   the owner is `seg`. The marker is a substring, so `glued` may extend it.
   */
  lemma NestedPackageName(path: string, pre: string, glued: string, seg: string, rest: string)
    requires Dir(path) == pre + NodeModules + glued + "/" + seg + rest
    requires '/' !in glued && '/' !in seg
    requires rest == "" || rest[0] == '/'
    requires forall j :: |pre| < j ==> !OccursAt(Dir(path), NodeModules, j)
    ensures ExtractPackageName(path) == seg
  {
    var dir := Dir(path);
    MarkerTail(dir, pre, glued, seg, rest);
    LastIndexAt(dir, NodeModules, |pre|);
  }

  /** Without a nested marker, the owner is the first non-empty of the first two pieces of the directory. */
  lemma ExtractWithoutMarker(path: string)
    requires NoNestedMarker(Dir(path))
    ensures var pieces := Split(Dir(path));
      ExtractPackageName(path) == if |pieces[0]| > 0 then pieces[0] else pieces[1]
  {
    var dir := Dir(path);
    var i := LastIndex(dir, NodeModules);
    if i != -1 {
      assert '/' !in dir[i..];
      assert |Split(dir[i..])| == 1;
    }
  }

  /** Without a nested marker, a relative directory is owned by its first piece. */
  lemma TopLevelPackageName(path: string, first: string, rest: string)
    requires Dir(path) == first + rest
    requires first != "" && '/' !in first
    requires rest == "" || rest[0] == '/'
    requires NoNestedMarker(Dir(path))
    ensures ExtractPackageName(path) == first
  {
    ExtractWithoutMarker(path);
    SplitFirst(first, rest);
  }

  /**
   Without a nested marker, a rooted directory "/" + `second` + `rest` is
   owned by its second piece; for the root itself that piece is "".
   */
  lemma RootedPackageName(path: string, second: string, rest: string)
    requires Dir(path) == "/" + second + rest
    requires '/' !in second
    requires rest == "" || rest[0] == '/'
    requires NoNestedMarker(Dir(path))
    ensures ExtractPackageName(path) == second
  {
    ExtractWithoutMarker(path);
    SplitFirstTwo("", second, rest);
    assert "" + "/" == "/";
  }

  /** A relative path resolves to its first piece: "test/regular/path" gives "test". */
  lemma RegularPackageExample()
    ensures ExtractPackageName("test/regular/path") == "test"
  {
    var dir := "test" + "/regular";
    var path := dir + "/" + "path";
    assert path == "test/regular/path";
    assert dir[0] != NodeModules[0];
    assert !OccursAt(dir, NodeModules, 0);
    DirOfChild(dir, "path");
    TopLevelPackageName(path, "test", "/regular");
  }

  /** A rooted path resolves to its second piece: "/test/root/path" gives "test". */
  lemma RootedPackageExample()
    ensures ExtractPackageName("/test/root/path") == "test"
  {
    var dir := "/" + "test" + "/root";
    var path := dir + "/" + "path";
    assert path == "/test/root/path";
    DirOfChild(dir, "path");
    RootedPackageName(path, "test", "/root");
  }

  /** The root resolves to the empty name. */
  lemma RootPackageExample()
    ensures ExtractPackageName("/") == ""
  {
    assert "/" + "" == "/";
    DirOfRootChild("");
    assert "/" + "" + "" == "/";
    RootedPackageName("/", "", "");
  }

  /** In "/test/node_modules/nested" the marker occurs at index 6 and nowhere later. */
  lemma NestedMarkerIsLast()
    ensures forall j :: 6 < j ==> !OccursAt("/test/node_modules/nested", NodeModules, j)
  {
    var dir := "/test/node_modules/nested";
    assert forall k :: 6 < k <= 13 ==> dir[k] != 'n';
    forall j | 6 < j
      ensures !OccursAt(dir, NodeModules, j)
    {
      if j + |NodeModules| <= |dir| {
        assert dir[j..j + |NodeModules|][0] == dir[j];
      }
    }
  }

  /** The directory of "/test/node_modules/nested/path", in the pieces `NestedPackageName` expects. */
  lemma NestedExampleDir()
    ensures Dir("/test/node_modules/nested/path") == "/test/" + NodeModules + "" + "/" + "nested" + ""
    ensures forall j :: |"/test/"| < j ==> !OccursAt(Dir("/test/node_modules/nested/path"), NodeModules, j)
  {
    var dir := "/test/" + NodeModules + "" + "/" + "nested" + "";
    assert "/test/node_modules/nested/path" == dir + "/" + "path";
    assert dir == "/test/node_modules/nested";
    NestedMarkerIsLast();
    DirOfChild(dir, "path");
  }

  /** A nested dependency resolves past the marker: "/test/node_modules/nested/path" gives "nested". */
  lemma NestedPackageExample()
    ensures ExtractPackageName("/test/node_modules/nested/path") == "nested"
  {
    NestedExampleDir();
    NestedPackageName("/test/node_modules/nested/path", "/test/", "", "nested", "");
  }

  /** Owners that are never recorded: the root and the shim directory. */
  predicate Excluded(pkg: string)
  {
    pkg == "" || pkg == BinDir
  }

  /** checkTests: test, coverage and coverage-service files. */
  predicate IsTestPath(path: string)
  {
    Contains(path, "test") ||
    Contains(path, "tests") ||
    Contains(path, ".zuul.yml") ||
    Contains(path, "coverage") ||
    Contains(path, ".coveralls.yml")
  }

  /** checkDotFiles: linter and editor configuration files. */
  predicate IsDotfilePath(path: string)
  {
    Contains(path, ".editorconfig") ||
    Contains(path, ".eslintrc") ||
    Contains(path, ".sass-lint.yml") ||
    Contains(path, ".jshintrc")
  }

  /** checkImages: raster image extensions. */
  predicate IsImagePath(path: string)
  {
    Ext(path) == ".png" || Ext(path) == ".jpg" || Ext(path) == ".ico"
  }

  /** Benchmark content. */
  predicate IsBenchPath(path: string)
  {
    Contains(path, "bench")
  }

  /** Travis CI configuration. */
  predicate IsCIPath(path: string)
  {
    Contains(path, ".travis.yml")
  }

  /** Whether a walked entry falls into category `e`. */
  predicate Matches(e: PackageError, path: string, info: FileInfo)
  {
    match e
    case ExecError => IsExecutable(info)
    case TestError => IsTestPath(path)
    case BenchError => IsBenchPath(path)
    case ImageError => IsImagePath(path)
    case CIError => IsCIPath(path)
    case DotfileError => IsDotfilePath(path)
  }

  /** The first three checks of Blame, in its order: executables, tests, dotfiles. */
  function EarlyChecks(s: Store, pkg: string, exec: bool, test: bool, dot: bool): Store
  {
    var s1 := BumpIf(s, pkg, ExecError, exec);
    var s2 := BumpIf(s1, pkg, TestError, test);
    BumpIf(s2, pkg, DotfileError, dot)
  }

  /** The last three checks of Blame, in its order: images, benchmarks, CI. */
  function LateChecks(s: Store, pkg: string, image: bool, bench: bool, ci: bool): Store
  {
    var s1 := BumpIf(s, pkg, ImageError, image);
    var s2 := BumpIf(s1, pkg, BenchError, bench);
    BumpIf(s2, pkg, CIError, ci)
  }

  /** The six checks of Blame, in its order, applied to `pkg` with their outcomes given. */
  function Checks(s: Store, pkg: string, exec: bool, test: bool, dot: bool, image: bool, bench: bool, ci: bool): Store
  {
    LateChecks(EarlyChecks(s, pkg, exec, test, dot), pkg, image, bench, ci)
  }

  /** Which of the first three outcomes decides category `e` (none for the last three categories). */
  predicate EarlyFlag(e: PackageError, exec: bool, test: bool, dot: bool)
  {
    match e
    case ExecError => exec
    case TestError => test
    case DotfileError => dot
    case _ => false
  }

  /** Which of the last three outcomes decides category `e` (none for the first three categories). */
  predicate LateFlag(e: PackageError, image: bool, bench: bool, ci: bool)
  {
    match e
    case ImageError => image
    case BenchError => bench
    case CIError => ci
    case _ => false
  }

  /** Which check outcome decides category `e`. */
  predicate Flagged(e: PackageError, exec: bool, test: bool, dot: bool, image: bool, bench: bool, ci: bool)
  {
    EarlyFlag(e, exec, test, dot) || LateFlag(e, image, bench, ci)
  }

  /** Each of the first three checks raises its own category of `pkg` when its outcome holds, and nothing else. */
  lemma EarlyChecksCount(s: Store, pkg: string, exec: bool, test: bool, dot: bool, e: PackageError)
    ensures CountIn(EarlyChecks(s, pkg, exec, test, dot), pkg, e)
            == CountIn(s, pkg, e) + (if EarlyFlag(e, exec, test, dot) then 1 else 0)
  {
    var s1 := BumpIf(s, pkg, ExecError, exec);
    var s2 := BumpIf(s1, pkg, TestError, test);
    if e == ExecError {
      assert CountIn(s2, pkg, e) == CountIn(s1, pkg, e);
    } else if e != TestError && e != DotfileError {
      assert CountIn(s2, pkg, e) == CountIn(s, pkg, e);
    }
  }

  /** Each of the last three checks raises its own category of `pkg` when its outcome holds, and nothing else. */
  lemma LateChecksCount(s: Store, pkg: string, image: bool, bench: bool, ci: bool, e: PackageError)
    ensures CountIn(LateChecks(s, pkg, image, bench, ci), pkg, e)
            == CountIn(s, pkg, e) + (if LateFlag(e, image, bench, ci) then 1 else 0)
  {
    var s1 := BumpIf(s, pkg, ImageError, image);
    var s2 := BumpIf(s1, pkg, BenchError, bench);
    if e == ImageError {
      assert CountIn(s2, pkg, e) == CountIn(s1, pkg, e);
    } else if e != BenchError && e != CIError {
      assert CountIn(s2, pkg, e) == CountIn(s, pkg, e);
    }
  }

  /** The checks touch only `pkg`, whose record already exists. */
  lemma ChecksFrame(s: Store, pkg: string, exec: bool, test: bool, dot: bool, image: bool, bench: bool, ci: bool)
    requires pkg in s
    ensures Checks(s, pkg, exec, test, dot, image, bench, ci).Keys == s.Keys
    ensures Checks(s, pkg, exec, test, dot, image, bench, ci) - {pkg} == s - {pkg}
  {
  }

  /** The checks are independent: category `e` of `pkg` rises by one exactly when its own check holds. */
  lemma ChecksCount(s: Store, pkg: string, exec: bool, test: bool, dot: bool, image: bool, bench: bool, ci: bool, e: PackageError)
    ensures CountIn(Checks(s, pkg, exec, test, dot, image, bench, ci), pkg, e)
            == CountIn(s, pkg, e) + (if Flagged(e, exec, test, dot, image, bench, ci) then 1 else 0)
  {
    EarlyChecksCount(s, pkg, exec, test, dot, e);
    LateChecksCount(EarlyChecks(s, pkg, exec, test, dot), pkg, image, bench, ci, e);
  }

  /** The store after one successful visit of `path`, an entry owned by `pkg`. */
  function VisitOwned(s: Store, pkg: string, path: string, info: FileInfo): Store
  {
    if Excluded(pkg) then s
    else
      Checks(Touch(s, pkg), pkg, IsExecutable(info), IsTestPath(path), IsDotfilePath(path),
             IsImagePath(path), IsBenchPath(path), IsCIPath(path))
  }

  /** The store after one successful visit of `path`. */
  function Visit(s: Store, path: string, info: FileInfo): Store
  {
    VisitOwned(s, ExtractPackageName(path), path, info)
  }

  /** The outcomes of one entry's checks decide exactly the categories the entry matches. */
  lemma FlaggedMatches(e: PackageError, path: string, info: FileInfo)
    ensures Flagged(e, IsExecutable(info), IsTestPath(path), IsDotfilePath(path),
                    IsImagePath(path), IsBenchPath(path), IsCIPath(path))
            == Matches(e, path, info)
  {
  }

  /** The checks with the outcomes of one entry raise category `e` of `pkg` exactly when the entry matches `e`. */
  lemma ChecksMatch(t: Store, pkg: string, path: string, info: FileInfo, e: PackageError)
    ensures CountIn(Checks(t, pkg, IsExecutable(info), IsTestPath(path), IsDotfilePath(path),
                           IsImagePath(path), IsBenchPath(path), IsCIPath(path)), pkg, e)
            == CountIn(t, pkg, e) + (if Matches(e, path, info) then 1 else 0)
  {
    ChecksCount(t, pkg, IsExecutable(info), IsTestPath(path), IsDotfilePath(path),
                IsImagePath(path), IsBenchPath(path), IsCIPath(path), e);
    FlaggedMatches(e, path, info);
  }

  /**
   One successful visit of an entry owned by `pkg`: nothing changes for an
   excluded owner; otherwise the owner has a record, each of its categories
   rose by one exactly when the entry matches it, and every other package is
   as it was.
   */
  lemma VisitOwnedEffect(s: Store, pkg: string, path: string, info: FileInfo)
    ensures Excluded(pkg) ==> VisitOwned(s, pkg, path, info) == s
    ensures !Excluded(pkg) ==>
            && VisitOwned(s, pkg, path, info).Keys == s.Keys + {pkg}
            && VisitOwned(s, pkg, path, info) - {pkg} == s - {pkg}
            && forall e :: CountIn(VisitOwned(s, pkg, path, info), pkg, e)
                           == CountIn(s, pkg, e) + (if Matches(e, path, info) then 1 else 0)
  {
    if !Excluded(pkg) {
      var t := Touch(s, pkg);
      ChecksFrame(t, pkg, IsExecutable(info), IsTestPath(path), IsDotfilePath(path),
                  IsImagePath(path), IsBenchPath(path), IsCIPath(path));
      forall e
        ensures CountIn(VisitOwned(s, pkg, path, info), pkg, e) == CountIn(s, pkg, e) + (if Matches(e, path, info) then 1 else 0)
      {
        ChecksMatch(t, pkg, path, info, e);
        assert CountIn(t, pkg, e) == CountIn(s, pkg, e);
      }
    }
  }

  /** `VisitOwnedEffect` for the owner that ExtractPackageName finds. */
  lemma VisitEffect(s: Store, path: string, info: FileInfo)
    ensures var owner := ExtractPackageName(path);
      && (Excluded(owner) ==> Visit(s, path, info) == s)
      && (!Excluded(owner) ==>
            && Visit(s, path, info).Keys == s.Keys + {owner}
            && Visit(s, path, info) - {owner} == s - {owner}
            && forall e :: CountIn(Visit(s, path, info), owner, e)
                           == CountIn(s, owner, e) + (if Matches(e, path, info) then 1 else 0))
  {
    VisitOwnedEffect(s, ExtractPackageName(path), path, info);
  }

  /** One walked entry, as the walk hands it to the callback without error. */
  datatype Entry = Entry(path: string, info: FileInfo)

  /** The store after visiting `entries` in order. */
  function VisitAll(s: Store, entries: seq<Entry>): Store
    decreases |entries|
  {
    if entries == [] then s
    else VisitAll(Visit(s, entries[0].path, entries[0].info), entries[1..])
  }

  /** Whether `entry` is attributed to `p` and falls into category `e`. */
  predicate Hit(entry: Entry, p: string, e: PackageError)
  {
    ExtractPackageName(entry.path) == p && !Excluded(p) && Matches(e, entry.path, entry.info)
  }

  /** How many of `entries` are attributed to `p` and fall into category `e`. */
  function Hits(entries: seq<Entry>, p: string, e: PackageError): nat
    decreases |entries|
  {
    if entries == [] then 0
    else (if Hit(entries[0], p, e) then 1 else 0) + Hits(entries[1..], p, e)
  }

  /** Whether one of `entries` is attributed to `p`. */
  predicate Touches(entries: seq<Entry>, p: string)
  {
    exists i :: 0 <= i < |entries| && ExtractPackageName(entries[i].path) == p && !Excluded(p)
  }

  /** One visit as seen from package `p` and category `e`. */
  lemma VisitStep(s: Store, entry: Entry, p: string, e: PackageError)
    ensures CountIn(Visit(s, entry.path, entry.info), p, e)
            == CountIn(s, p, e)
               + (if ExtractPackageName(entry.path) == p && !Excluded(p) && Matches(e, entry.path, entry.info) then 1 else 0)
    ensures p in Visit(s, entry.path, entry.info)
            <==> p in s || (ExtractPackageName(entry.path) == p && !Excluded(p))
  {
    var t := Visit(s, entry.path, entry.info);
    var owner := ExtractPackageName(entry.path);
    VisitEffect(s, entry.path, entry.info);
    if owner != p && !Excluded(owner) {
      assert p in t <==> p in t - {owner};
      assert p in s <==> p in s - {owner};
      if p in s {
        assert t[p] == (t - {owner})[p];
        assert s[p] == (s - {owner})[p];
      }
    }
  }

  /**
   Linear accumulation: after a walk, each counter has grown by exactly the
   number of walked entries of that package in that category.
   */
  lemma {:induction false} VisitAllCounts(s: Store, entries: seq<Entry>, p: string, e: PackageError)
    ensures CountIn(VisitAll(s, entries), p, e) == CountIn(s, p, e) + Hits(entries, p, e)
    decreases |entries|
  {
    if entries != [] {
      VisitStep(s, entries[0], p, e);
      VisitAllCounts(Visit(s, entries[0].path, entries[0].info), entries[1..], p, e);
    }
  }

  /**
   Lazy creation: after a walk, the packages with a record are those that
   had one before and those that owned a walked entry.
   */
  lemma {:induction false} VisitAllKeys(s: Store, entries: seq<Entry>, p: string)
    ensures p in VisitAll(s, entries) <==> p in s || Touches(entries, p)
    decreases |entries|
  {
    if entries != [] {
      VisitStep(s, entries[0], p, ExecError);
      VisitAllKeys(Visit(s, entries[0].path, entries[0].info), entries[1..], p);
      if Touches(entries, p) {
        var i :| 0 <= i < |entries| && ExtractPackageName(entries[i].path) == p && !Excluded(p);
        if i > 0 {
          assert entries[1..][i - 1] == entries[i];
        }
      }
      if Touches(entries[1..], p) {
        var i :| 0 <= i < |entries| - 1 && ExtractPackageName(entries[1..][i].path) == p && !Excluded(p);
        assert entries[i + 1] == entries[1..][i];
      }
    }
  }

  /** A hitting first entry counts once more than the rest of the walk. */
  lemma HitsHead(entries: seq<Entry>, p: string, e: PackageError)
    requires entries != [] && Hit(entries[0], p, e)
    ensures Hits(entries, p, e) == 1 + Hits(entries[1..], p, e)
  {
  }

  /** A walk counts at least what its tail counts. */
  lemma HitsTail(entries: seq<Entry>, p: string, e: PackageError)
    requires entries != []
    ensures Hits(entries[1..], p, e) <= Hits(entries, p, e)
  {
  }

  /** A walk counts at least what any of its suffixes counts. */
  lemma {:induction false} HitsSuffix(entries: seq<Entry>, k: int, p: string, e: PackageError)
    requires 0 <= k <= |entries|
    ensures Hits(entries[k..], p, e) <= Hits(entries, p, e)
    decreases k
  {
    if k > 0 {
      HitsTail(entries, p, e);
      HitsSuffix(entries[1..], k - 1, p, e);
      assert entries[1..][k - 1..] == entries[k..];
    }
  }

  /** One hitting entry anywhere in a walk makes its count positive. */
  lemma HitsAt(entries: seq<Entry>, k: int, p: string, e: PackageError)
    requires 0 <= k < |entries| && Hit(entries[k], p, e)
    ensures Hits(entries, p, e) > 0
  {
    HitsSuffix(entries, k, p, e);
    assert entries[k..][0] == entries[k];
    HitsHead(entries[k..], p, e);
  }

  /** A text lacking a character of `sub` does not contain `sub`. */
  lemma MissingChar(s: string, sub: string, c: char)
    requires c in sub && c !in s
    ensures !Contains(s, sub)
  {
    var k :| 0 <= k < |sub| && sub[k] == c;
    forall i | 0 <= i
      ensures !OccursAt(s, sub, i)
    {
      if i + |sub| <= |s| {
        assert s[i..i + |sub|][k] == s[i + k];
      }
    }
    ContainsOccurs(s, sub);
  }

  /** A path without '.', or without 'e', '-' and 'h', is no linter or editor configuration. */
  lemma NotDotfile(path: string)
    requires '.' !in path || ('e' !in path && '-' !in path && 'h' !in path)
    ensures !IsDotfilePath(path)
  {
    if '.' !in path {
      MissingChar(path, ".editorconfig", '.');
      MissingChar(path, ".eslintrc", '.');
      MissingChar(path, ".sass-lint.yml", '.');
      MissingChar(path, ".jshintrc", '.');
    } else {
      MissingChar(path, ".editorconfig", 'e');
      MissingChar(path, ".eslintrc", 'e');
      MissingChar(path, ".sass-lint.yml", '-');
      MissingChar(path, ".jshintrc", 'h');
    }
  }

  /** An entry of "/pkg" whose name has no '.' is no linter or editor configuration. */
  lemma NoDotNotDotfile(name: string)
    requires '.' !in name
    ensures !IsDotfilePath("/pkg/" + name)
  {
    NotDotfile("/pkg/" + name);
  }

  /** An entry of "/pkg" whose name has none of 'e', '-' and 'h' is no linter or editor configuration. */
  lemma NoEditorNotDotfile(name: string)
    requires 'e' !in name && '-' !in name && 'h' !in name
    ensures !IsDotfilePath("/pkg/" + name)
  {
    NotDotfile("/pkg/" + name);
  }

  /** A path ending in neither "ng", "pg" nor "co" is no image. */
  lemma NotImageByEnding(path: string)
    requires |path| >= 2 && (path[|path| - 1] !in "go" || path[|path| - 2] !in "npc")
    ensures !IsImagePath(path)
  {
    var ext := Ext(path);
    ExtSuffix(path);
    if |ext| == 4 {
      assert ext[3] == path[|path| - 1] && ext[2] == path[|path| - 2];
    }
  }

  /** A text ending in `sub` contains it. */
  lemma ContainsSuffix(pre: string, sub: string)
    ensures Contains(pre + sub, sub)
  {
    assert (pre + sub)[|pre|..|pre| + |sub|] == sub;
    assert OccursAt(pre + sub, sub, |pre|);
    ContainsOccurs(pre + sub, sub);
  }

  /** A top-level entry "/" + `name` is attributed to the root, whose name is empty. */
  lemma RootEntryOwner(name: string)
    requires '/' !in name
    ensures ExtractPackageName("/" + name) == ""
  {
    DirOfRootChild(name);
    assert Dir("/" + name) == "/" + "" + "";
    LastIndexSpec("/", NodeModules);
    RootedPackageName("/" + name, "", "");
  }

  /** An entry "/" + `top` + "/" + `name` of a short top-level directory `top` belongs to `top`. */
  lemma TopLevelEntryOwner(top: string, name: string)
    requires top != "" && '/' !in top && |top| < |NodeModules|
    requires '/' !in name
    ensures ExtractPackageName("/" + top + "/" + name) == top
  {
    var dir := "/" + top;
    DirOfChild(dir, name);
    assert Dir(dir + "/" + name) == "/" + top + "";
    LastIndexSpec(dir, NodeModules);
    RootedPackageName(dir + "/" + name, top, "");
  }

  /**
   The entries TestBlame's walk visits above the package: the root, the shim
   directory, its shim and the package directory, in the walk's lexical order.
   */
  const TestTreeRoots: seq<string> := ["/", "/.bin", "/.bin/bin", "/pkg"]

  /**
   The names of the entries in "/pkg", in the walk's lexical order: four
   dotfiles, a Travis file, a bench directory, an executable, three images
   and a test file.
   */
  const TestTreeNames: seq<string> :=
    [".editorconfig", ".eslintrc", ".jshintrc", ".sass-lint.yml",
     ".travis.yml", "bench", "exec",
     "favicon.ico", "icon.jpg", "icon.png", "test"]

  /** `entries` are the entries of the test tree, in walk order, with whatever FileInfo the walk reports. */
  predicate IsTestTreeWalk(entries: seq<Entry>)
  {
    && |entries| == |TestTreeRoots| + |TestTreeNames|
    && (forall i :: 0 <= i < |TestTreeRoots| ==> entries[i].path == TestTreeRoots[i])
    && (forall i :: |TestTreeRoots| <= i < |entries| ==> entries[i].path == "/pkg/" + TestTreeNames[i - |TestTreeRoots|])
  }

  /** The entries above the package are attributed to the root or to the shim directory. */
  lemma TreeRoots(entries: seq<Entry>)
    requires IsTestTreeWalk(entries)
    ensures forall i :: 0 <= i < |TestTreeRoots| ==> Excluded(ExtractPackageName(entries[i].path))
  {
    forall i | 0 <= i < |TestTreeRoots|
      ensures Excluded(ExtractPackageName(entries[i].path))
    {
      var path := entries[i].path;
      if i == 0 {
        assert path == "/" + "";
        RootEntryOwner("");
      } else if i == 1 {
        assert path == "/" + BinDir;
        RootEntryOwner(BinDir);
      } else if i == 2 {
        assert path == "/" + BinDir + "/" + "bin";
        TopLevelEntryOwner(BinDir, "bin");
      } else {
        assert path == "/" + "pkg";
        RootEntryOwner("pkg");
      }
    }
  }

  /** The names below "/pkg" are single path elements. */
  lemma TreeNamesPlain()
    ensures forall j :: 0 <= j < |TestTreeNames| ==> '/' !in TestTreeNames[j]
  {
    forall j | 0 <= j < |TestTreeNames|
      ensures '/' !in TestTreeNames[j]
    {
    }
  }

  /** The entries below "/pkg" belong to "pkg". */
  lemma TreePkgOwners(entries: seq<Entry>)
    requires IsTestTreeWalk(entries)
    ensures forall i :: |TestTreeRoots| <= i < |entries| ==> ExtractPackageName(entries[i].path) == "pkg"
  {
    TreeNamesPlain();
    forall i | |TestTreeRoots| <= i < |entries|
      ensures ExtractPackageName(entries[i].path) == "pkg"
    {
      var name := TestTreeNames[i - 4];
      assert entries[i].path == "/" + "pkg" + "/" + name;
      TopLevelEntryOwner("pkg", name);
    }
  }

  /** The first four entries below "/pkg" are linter or editor configurations. */
  lemma TreeDotfiles(entries: seq<Entry>)
    requires IsTestTreeWalk(entries)
    ensures forall i :: |TestTreeRoots| <= i < 8 ==> IsDotfilePath(entries[i].path)
  {
    forall i | |TestTreeRoots| <= i < 8
      ensures IsDotfilePath(entries[i].path)
    {
      var name := TestTreeNames[i - 4];
      assert entries[i].path == "/pkg/" + name;
      ContainsSuffix("/pkg/", name);
    }
  }

  /** The other entries below "/pkg" are no linter or editor configurations. */
  lemma TreeNonDotfiles(entries: seq<Entry>)
    requires IsTestTreeWalk(entries)
    ensures forall i :: 8 <= i < |entries| ==> !IsDotfilePath(entries[i].path)
  {
    forall i | 8 <= i < |entries|
      ensures !IsDotfilePath(entries[i].path)
    {
      var name := TestTreeNames[i - 4];
      assert entries[i].path == "/pkg/" + name;
      if 9 <= i <= 10 || i == 14 {
        assert name in ["bench", "exec", "test"];
        NoDotNotDotfile(name);
      } else {
        assert name in [".travis.yml", "favicon.ico", "icon.jpg", "icon.png"];
        NoEditorNotDotfile(name);
      }
    }
  }

  /** "favicon.ico", "icon.jpg" and "icon.png" are images. */
  lemma TreeImages(entries: seq<Entry>)
    requires IsTestTreeWalk(entries)
    ensures forall i :: 11 <= i < 14 ==> IsImagePath(entries[i].path)
  {
    forall i | 11 <= i < 14
      ensures IsImagePath(entries[i].path)
    {
      var path := entries[i].path;
      if i == 11 {
        assert path == "/pkg/favicon" + ".ico";
        ExtOfName("/pkg/favicon", ".ico");
      } else if i == 12 {
        assert path == "/pkg/icon" + ".jpg";
        ExtOfName("/pkg/icon", ".jpg");
      } else {
        assert path == "/pkg/icon" + ".png";
        ExtOfName("/pkg/icon", ".png");
      }
    }
  }

  /** The entries below "/pkg" other than the three images are no images. */
  lemma TreeNonImages(entries: seq<Entry>)
    requires IsTestTreeWalk(entries)
    ensures forall i :: |TestTreeRoots| <= i < |entries| && !(11 <= i < 14) ==> !IsImagePath(entries[i].path)
  {
    forall i | |TestTreeRoots| <= i < |entries| && !(11 <= i < 14)
      ensures !IsImagePath(entries[i].path)
    {
      var name := TestTreeNames[i - 4];
      assert entries[i].path == "/pkg/" + name;
      assert name[|name| - 1] !in "go" || name[|name| - 2] !in "npc";
      NotImageByEnding("/pkg/" + name);
    }
  }

  /** The Travis file, the bench directory and the test file fall into their categories. */
  lemma TreeOtherCategories(entries: seq<Entry>)
    requires IsTestTreeWalk(entries)
    ensures IsCIPath(entries[8].path) && IsBenchPath(entries[9].path) && IsTestPath(entries[14].path)
  {
    ContainsSuffix("/pkg/", ".travis.yml");
    ContainsSuffix("/pkg/", "bench");
    ContainsSuffix("/pkg/", "test");
  }

  /** An excluded owner without a record never gets one, whatever is walked. */
  lemma VisitAllExcluded(s: Store, entries: seq<Entry>, p: string)
    requires Excluded(p) && p !in s
    ensures p !in VisitAll(s, entries)
  {
    VisitAllKeys(s, entries, p);
  }

  /** The executable, the test file, the bench directory and the Travis file each count for "pkg". */
  lemma TreeHitsPresent(entries: seq<Entry>)
    requires |entries| == |TestTreeRoots| + |TestTreeNames|
    requires forall i :: |TestTreeRoots| <= i < |entries| ==> ExtractPackageName(entries[i].path) == "pkg"
    requires IsCIPath(entries[8].path) && IsBenchPath(entries[9].path)
    requires IsExecutable(entries[10].info) && IsTestPath(entries[14].path)
    ensures Hits(entries, "pkg", ExecError) > 0 && Hits(entries, "pkg", TestError) > 0
    ensures Hits(entries, "pkg", BenchError) > 0 && Hits(entries, "pkg", CIError) > 0
  {
    HitsAt(entries, 10, "pkg", ExecError);
    HitsAt(entries, 14, "pkg", TestError);
    HitsAt(entries, 9, "pkg", BenchError);
    HitsAt(entries, 8, "pkg", CIError);
  }

  /** Exactly the three images below "/pkg" count as image errors of "pkg". */
  lemma TreeImageHits(entries: seq<Entry>)
    requires |entries| == |TestTreeRoots| + |TestTreeNames|
    requires forall i :: 0 <= i < |TestTreeRoots| ==> Excluded(ExtractPackageName(entries[i].path))
    requires forall i :: |TestTreeRoots| <= i < |entries| ==> ExtractPackageName(entries[i].path) == "pkg"
    requires forall i :: |TestTreeRoots| <= i < |entries| ==> (IsImagePath(entries[i].path) <==> 11 <= i < 14)
    ensures Hits(entries, "pkg", ImageError) == 3
  {
    forall i | 0 <= i < |entries|
      ensures Hit(entries[i], "pkg", ImageError) <==> 11 <= i < 14
    {
    }
    CountSplit(entries, 11, 14, "pkg", ImageError);
  }

  /** Exactly the four dotfiles below "/pkg" count as dotfile errors of "pkg". */
  lemma TreeDotfileHits(entries: seq<Entry>)
    requires |entries| == |TestTreeRoots| + |TestTreeNames|
    requires forall i :: 0 <= i < |TestTreeRoots| ==> Excluded(ExtractPackageName(entries[i].path))
    requires forall i :: |TestTreeRoots| <= i < |entries| ==> ExtractPackageName(entries[i].path) == "pkg"
    requires forall i :: |TestTreeRoots| <= i < |entries| ==> (IsDotfilePath(entries[i].path) <==> i < 8)
    ensures Hits(entries, "pkg", DotfileError) == 4
  {
    forall i | 0 <= i < |entries|
      ensures Hit(entries[i], "pkg", DotfileError) <==> 4 <= i < 8
    {
    }
    CountSplit(entries, 4, 8, "pkg", DotfileError);
  }

  /** What each category of "pkg" counts over the test tree's walk. */
  lemma TestTreeHits(entries: seq<Entry>)
    requires IsTestTreeWalk(entries)
    requires IsExecutable(entries[10].info)
    ensures Hits(entries, "pkg", ExecError) > 0 && Hits(entries, "pkg", TestError) > 0
    ensures Hits(entries, "pkg", BenchError) > 0 && Hits(entries, "pkg", CIError) > 0
    ensures Hits(entries, "pkg", ImageError) == 3 && Hits(entries, "pkg", DotfileError) == 4
  {
    TreeRoots(entries);
    TreePkgOwners(entries);
    TreeDotfiles(entries);
    TreeNonDotfiles(entries);
    TreeImages(entries);
    TreeNonImages(entries);
    TreeOtherCategories(entries);
    TreeHitsPresent(entries);
    TreeImageHits(entries);
    TreeDotfileHits(entries);
  }

  /**
   The TestBlame walk: whatever FileInfo the walk reports for its entries,
   provided "/pkg/exec" is executable, no record is kept for the root or the
   shim directory, and "pkg" has execution, test, bench and CI errors,
   exactly three image errors and exactly four dotfile errors.
   */
  lemma TestBlameWalk(entries: seq<Entry>)
    requires IsTestTreeWalk(entries)
    requires IsExecutable(entries[10].info)
    ensures var s := VisitAll(map[], entries);
      && "" !in s && BinDir !in s
      && CountIn(s, "pkg", ExecError) > 0 && CountIn(s, "pkg", TestError) > 0
      && CountIn(s, "pkg", BenchError) > 0 && CountIn(s, "pkg", CIError) > 0
      && CountIn(s, "pkg", ImageError) == 3 && CountIn(s, "pkg", DotfileError) == 4
  {
    TestTreeHits(entries);
    var s0: Store := map[];
    VisitAllExcluded(s0, entries, "");
    VisitAllExcluded(s0, entries, BinDir);
    VisitAllCounts(s0, entries, "pkg", ExecError);
    VisitAllCounts(s0, entries, "pkg", TestError);
    VisitAllCounts(s0, entries, "pkg", BenchError);
    VisitAllCounts(s0, entries, "pkg", CIError);
    VisitAllCounts(s0, entries, "pkg", ImageError);
    VisitAllCounts(s0, entries, "pkg", DotfileError);
  }

  /** A walk whose hits for `p` and `e` are exactly the entries in [lo, hi) counts hi - lo. */
  lemma {:induction false} CountSplit(entries: seq<Entry>, lo: int, hi: int, p: string, e: PackageError)
    requires 0 <= lo <= hi <= |entries|
    requires forall i :: 0 <= i < |entries| ==> (Hit(entries[i], p, e) <==> lo <= i < hi)
    ensures Hits(entries, p, e) == hi - lo
    decreases |entries|
  {
    if entries != [] {
      var lo', hi' := if lo > 0 then lo - 1 else 0, if hi > 0 then hi - 1 else 0;
      forall i | 0 <= i < |entries| - 1
        ensures Hit(entries[1..][i], p, e) <==> lo' <= i < hi'
      {
        assert entries[1..][i] == entries[i + 1];
      }
      CountSplit(entries[1..], lo', hi', p, e);
    }
  }

  /**
   The package's TotalErrors test: after ExecError for "test", BenchError for
   "test1" and ImageError twice for "test2", "test2" totals 2.
   */
  lemma TotalErrorsExample()
    ensures var s := Bump(Bump(Bump(Bump(map[], "test", ExecError), "test1", BenchError), "test2", ImageError), "test2", ImageError);
            SumValues(Record(s, "test2")) == 2
  {
    var s0: Store := map[];
    var s1 := Bump(s0, "test", ExecError);
    var s2 := Bump(s1, "test1", BenchError);
    var s3 := Bump(s2, "test2", ImageError);
    var s4 := Bump(s3, "test2", ImageError);
    assert SumValues(Record(s0, "test2")) == 0;
    BumpTotal(s0, "test", ExecError, "test2");
    BumpTotal(s1, "test1", BenchError, "test2");
    BumpTotal(s2, "test2", ImageError, "test2");
    BumpTotal(s3, "test2", ImageError, "test2");
  }

  /** The mutable store: Go's NpmPackages map, shared by every receiver copy. */
  class NpmPackages {
    var packages: Store

    /** NewNpmPackages: an empty, independent store. */
    constructor ()
      ensures packages == map[]
    {
      packages := map[];
    }

    /** AppendError: one more occurrence of `err` for `pkgName`. */
    method AppendError(pkgName: string, err: PackageError)
      modifies this
      ensures packages == Bump(old(packages), pkgName, err)
    {
      if |Record(packages, pkgName)| == 0 {
        assert Record(packages, pkgName).Keys == {};
        BumpEmpty(packages, pkgName, err);
        packages := packages[pkgName := map[]];
      }
      var errors := packages[pkgName];
      packages := packages[pkgName := errors[err := Get(errors, err) + 1]];
    }

    /** checkTests: one TestError when the path names test or coverage content. */
    method CheckTests(path: string, pkg: string)
      modifies this
      ensures packages == BumpIf(old(packages), pkg, TestError, IsTestPath(path))
    {
      if Contains(path, "test") ||
         Contains(path, "tests") ||
         Contains(path, ".zuul.yml") ||
         Contains(path, "coverage") ||
         Contains(path, ".coveralls.yml")
      {
        AppendError(pkg, TestError);
      }
    }

    /** checkDotFiles: one DotfileError when the path names a linter or editor configuration file. */
    method CheckDotFiles(path: string, pkg: string)
      modifies this
      ensures packages == BumpIf(old(packages), pkg, DotfileError, IsDotfilePath(path))
    {
      if Contains(path, ".editorconfig") ||
         Contains(path, ".eslintrc") ||
         Contains(path, ".sass-lint.yml") ||
         Contains(path, ".jshintrc")
      {
        AppendError(pkg, DotfileError);
      }
    }

    /** checkExecutables: one ExecError for an executable non-directory entry. */
    method CheckExecutables(info: FileInfo, pkg: string)
      modifies this
      ensures packages == BumpIf(old(packages), pkg, ExecError, IsExecutable(info))
    {
      if !info.IsDir() && info.mode & ExecuteBits != 0 {
        AppendError(pkg, ExecError);
      }
    }

    /** checkImages: one ImageError for a .png, .jpg or .ico extension. */
    method CheckImages(path: string, pkg: string)
      modifies this
      ensures packages == BumpIf(old(packages), pkg, ImageError, IsImagePath(path))
    {
      if Ext(path) == ".png" || Ext(path) == ".jpg" || Ext(path) == ".ico" {
        AppendError(pkg, ImageError);
      }
    }

    /** The six checks of Blame, in its order, on the entry owned by `pkg`. */
    method Classify(path: string, info: FileInfo, pkg: string)
      modifies this
      ensures packages == Checks(old(packages), pkg, IsExecutable(info), IsTestPath(path), IsDotfilePath(path),
                                 IsImagePath(path), IsBenchPath(path), IsCIPath(path))
    {
      CheckExecutables(info, pkg);
      CheckTests(path, pkg);
      CheckDotFiles(path, pkg);
      CheckImages(path, pkg);
      if Contains(path, "bench") {
        AppendError(pkg, BenchError);
      }
      if Contains(path, ".travis.yml") {
        AppendError(pkg, CIError);
      }
    }

    /**
     Blame, the walk callback: a traversal error is returned unchanged and
     the store is left alone; otherwise the entry is attributed and
     classified as `Visit` describes, and nil is returned.
     */
    method Blame(path: string, info: FileInfo, err: Option<Error>) returns (result: Option<Error>)
      modifies this
      ensures err.Some? ==> result == err && packages == old(packages)
      ensures err.None? ==> result.None? && packages == Visit(old(packages), path, info)
    {
      if err.Some? {
        return err;
      }
      var pkg := ExtractPackageName(path);
      if pkg == "" || pkg == BinDir {
        return None;
      }
      if pkg !in packages {
        packages := packages[pkg := map[]];
      }
      assert packages == Touch(old(packages), pkg);
      Classify(path, info, pkg);
      return None;
    }

    /** TotalErrors: the sum of the package's counters, whatever the map order. */
    method TotalErrors(pkgName: string) returns (total: nat)
      ensures total == SumValues(Record(packages, pkgName))
      ensures pkgName !in packages ==> total == 0
    {
      var errors := Record(packages, pkgName);
      var rest := errors;
      total := 0;
      while rest != map[]
        invariant total + SumValues(rest) == SumValues(errors)
        decreases |rest|
      {
        var e :| e in rest;
        SumValuesRemove(rest, e);
        assert (rest - {e}).Keys == rest.Keys - {e};
        total := total + rest[e];
        rest := rest - {e};
      }
    }
  }
}
