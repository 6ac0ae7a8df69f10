/**
 The single-file predecessor of the engine (the `main` package): the owner
 is always the first piece of the walked path's directory, the shim
 directory is excluded by substring, the root is not excluded, JSX and
 TypeScript files are categories of their own, and the counters live in one
 process-wide map.
 */
module LegacyBlame {
  import opened GoStrings
  import opened GoFilepath
  import opened GoOs
  import opened Counters

  /** The category constants EXEC_ERROR .. EDITOR_LINT_ERROR. */
  datatype Category = ExecError | TestError | BenchError | JsxError | TsError | ImgError | TravisError | EditorLintError

  /** The store's value: package name -> category -> count. */
  type Store = map<string, map<Category, nat>>

  /** packageName: the first '/'-separated piece of the directory of `path`. */
  function PackageName(path: string): (name: string)
    ensures '/' !in name
  {
    Split(Dir(path))[0]
  }

  /** Every absolute path is attributed to the empty name. */
  lemma AbsolutePackageName(path: string)
    requires path != "" && path[0] == '/'
    ensures PackageName(path) == ""
  {
  }

  /** A directory `first` + `rest`, with `rest` empty or starting at a '/', is attributed to `first`. */
  lemma RelativePackageName(path: string, first: string, rest: string)
    requires Dir(path) == first + rest
    requires '/' !in first
    requires rest == "" || rest[0] == '/'
    ensures PackageName(path) == first
  {
    SplitFirst(first, rest);
  }

  /** A top-level entry "name" lies in the directory ".", which becomes its owner. */
  lemma TopLevelEntryName(name: string)
    requires '/' !in name
    ensures PackageName(name) == "."
  {
    SplitFirst(".", "");
    assert "." + "" == ".";
  }

  /** Owners that are skipped: any name containing ".bin". */
  predicate Excluded(pkg: string)
  {
    Contains(pkg, ".bin")
  }

  /** The test-file check: one of five markers occurs anywhere in the path. */
  predicate IsTestPath(path: string)
  {
    Contains(path, "test") || Contains(path, "tests") || Contains(path, ".zuul.yml") ||
    Contains(path, "coverage") || Contains(path, ".coveralls.yml")
  }

  /** The benchmark check. */
  predicate IsBenchPath(path: string)
  {
    Contains(path, "bench")
  }

  /** The JSX check: the extension is exactly ".jsx". */
  predicate IsJsxPath(path: string)
  {
    Ext(path) == ".jsx"
  }

  /** The TypeScript check: the extension is exactly ".ts". */
  predicate IsTsPath(path: string)
  {
    Ext(path) == ".ts"
  }

  /** The image check: only ".png" counts. */
  predicate IsImagePath(path: string)
  {
    Ext(path) == ".png"
  }

  /** The Travis CI check. */
  predicate IsTravisPath(path: string)
  {
    Contains(path, ".travis.yml")
  }

  /** The editor and linter configuration check. */
  predicate IsEditorLintPath(path: string)
  {
    Contains(path, ".editorconfig") || Contains(path, ".eslintrc") ||
    Contains(path, ".sass-lint.yml") || Contains(path, ".jshintrc")
  }

  /** Whether a walked entry falls into category `c`. */
  predicate Matches(c: Category, path: string, info: FileInfo)
  {
    match c
    case ExecError => IsExecutable(info)
    case TestError => IsTestPath(path)
    case BenchError => IsBenchPath(path)
    case JsxError => IsJsxPath(path)
    case TsError => IsTsPath(path)
    case ImgError => IsImagePath(path)
    case TravisError => IsTravisPath(path)
    case EditorLintError => IsEditorLintPath(path)
  }

  /** The first four checks of blame, in its order, applied to `pkg` with their outcomes given. */
  function EarlyChecks(s: Store, pkg: string, exec: bool, test: bool, bench: bool, jsx: bool): Store
  {
    var s1 := BumpIf(s, pkg, ExecError, exec);
    var s2 := BumpIf(s1, pkg, TestError, test);
    var s3 := BumpIf(s2, pkg, BenchError, bench);
    BumpIf(s3, pkg, JsxError, jsx)
  }

  /** The last four checks of blame, in its order. */
  function LateChecks(s: Store, pkg: string, ts: bool, image: bool, travis: bool, lint: bool): Store
  {
    var s1 := BumpIf(s, pkg, TsError, ts);
    var s2 := BumpIf(s1, pkg, ImgError, image);
    var s3 := BumpIf(s2, pkg, TravisError, travis);
    BumpIf(s3, pkg, EditorLintError, lint)
  }

  /** The eight checks of blame, in its order. */
  function Checks(s: Store, pkg: string, exec: bool, test: bool, bench: bool, jsx: bool,
                  ts: bool, image: bool, travis: bool, lint: bool): Store
  {
    LateChecks(EarlyChecks(s, pkg, exec, test, bench, jsx), pkg, ts, image, travis, lint)
  }

  /** Which of the first four outcomes decides category `c` (none for the last four categories). */
  predicate EarlyFlag(c: Category, exec: bool, test: bool, bench: bool, jsx: bool)
  {
    match c
    case ExecError => exec
    case TestError => test
    case BenchError => bench
    case JsxError => jsx
    case _ => false
  }

  /** Which of the last four outcomes decides category `c` (none for the first four categories). */
  predicate LateFlag(c: Category, ts: bool, image: bool, travis: bool, lint: bool)
  {
    match c
    case TsError => ts
    case ImgError => image
    case TravisError => travis
    case EditorLintError => lint
    case _ => false
  }

  /** Each of the first four checks raises its own category of `pkg` when its outcome holds, and nothing else. */
  lemma EarlyChecksCount(s: Store, pkg: string, exec: bool, test: bool, bench: bool, jsx: bool, c: Category)
    ensures CountIn(EarlyChecks(s, pkg, exec, test, bench, jsx), pkg, c)
            == CountIn(s, pkg, c) + (if EarlyFlag(c, exec, test, bench, jsx) then 1 else 0)
  {
    var s1 := BumpIf(s, pkg, ExecError, exec);
    var s2 := BumpIf(s1, pkg, TestError, test);
    var s3 := BumpIf(s2, pkg, BenchError, bench);
    if c == ExecError {
      assert CountIn(s3, pkg, c) == CountIn(s1, pkg, c);
    } else if c == TestError {
      assert CountIn(s3, pkg, c) == CountIn(s2, pkg, c);
    } else if c != BenchError {
      assert CountIn(s3, pkg, c) == CountIn(s, pkg, c);
    }
  }

  /** Each of the last four checks raises its own category of `pkg` when its outcome holds, and nothing else. */
  lemma LateChecksCount(s: Store, pkg: string, ts: bool, image: bool, travis: bool, lint: bool, c: Category)
    ensures CountIn(LateChecks(s, pkg, ts, image, travis, lint), pkg, c)
            == CountIn(s, pkg, c) + (if LateFlag(c, ts, image, travis, lint) then 1 else 0)
  {
    var s1 := BumpIf(s, pkg, TsError, ts);
    var s2 := BumpIf(s1, pkg, ImgError, image);
    var s3 := BumpIf(s2, pkg, TravisError, travis);
    if c == TsError {
      assert CountIn(s3, pkg, c) == CountIn(s1, pkg, c);
    } else if c == ImgError {
      assert CountIn(s3, pkg, c) == CountIn(s2, pkg, c);
    } else if c != TravisError {
      assert CountIn(s3, pkg, c) == CountIn(s, pkg, c);
    }
  }

  /** The checks touch only `pkg`, whose record already exists. */
  lemma ChecksFrame(s: Store, pkg: string, exec: bool, test: bool, bench: bool, jsx: bool,
                    ts: bool, image: bool, travis: bool, lint: bool)
    requires pkg in s
    ensures Checks(s, pkg, exec, test, bench, jsx, ts, image, travis, lint).Keys == s.Keys
    ensures Checks(s, pkg, exec, test, bench, jsx, ts, image, travis, lint) - {pkg} == s - {pkg}
  {
  }

  /** Which outcome decides category `c`. */
  predicate Flagged(c: Category, exec: bool, test: bool, bench: bool, jsx: bool,
                    ts: bool, image: bool, travis: bool, lint: bool)
  {
    EarlyFlag(c, exec, test, bench, jsx) || LateFlag(c, ts, image, travis, lint)
  }

  /** The checks are independent: category `c` of `pkg` rises by one exactly when its own check holds. */
  lemma ChecksCount(s: Store, pkg: string, exec: bool, test: bool, bench: bool, jsx: bool,
                    ts: bool, image: bool, travis: bool, lint: bool, c: Category)
    ensures CountIn(Checks(s, pkg, exec, test, bench, jsx, ts, image, travis, lint), pkg, c)
            == CountIn(s, pkg, c) + (if Flagged(c, exec, test, bench, jsx, ts, image, travis, lint) then 1 else 0)
  {
    EarlyChecksCount(s, pkg, exec, test, bench, jsx, c);
    LateChecksCount(EarlyChecks(s, pkg, exec, test, bench, jsx), pkg, ts, image, travis, lint, c);
  }

  /** The checks taken one at a time, as blame performs them, make up `Checks`. */
  lemma ChecksInSteps(s0: Store, s1: Store, s2: Store, s3: Store, s4: Store, s5: Store, s6: Store, s7: Store, s8: Store,
                      pkg: string, exec: bool, test: bool, bench: bool, jsx: bool,
                      ts: bool, image: bool, travis: bool, lint: bool)
    requires s1 == BumpIf(s0, pkg, ExecError, exec) && s2 == BumpIf(s1, pkg, TestError, test)
    requires s3 == BumpIf(s2, pkg, BenchError, bench) && s4 == BumpIf(s3, pkg, JsxError, jsx)
    requires s5 == BumpIf(s4, pkg, TsError, ts) && s6 == BumpIf(s5, pkg, ImgError, image)
    requires s7 == BumpIf(s6, pkg, TravisError, travis) && s8 == BumpIf(s7, pkg, EditorLintError, lint)
    ensures s8 == Checks(s0, pkg, exec, test, bench, jsx, ts, image, travis, lint)
  {
    assert s4 == EarlyChecks(s0, pkg, exec, test, bench, jsx);
  }

  /** The store after one successful visit of `path`, an entry owned by `pkg`. */
  function VisitOwned(s: Store, pkg: string, path: string, info: FileInfo): Store
  {
    if Excluded(pkg) then s
    else
      Checks(Touch(s, pkg), pkg, IsExecutable(info), IsTestPath(path), IsBenchPath(path), IsJsxPath(path),
             IsTsPath(path), IsImagePath(path), IsTravisPath(path), IsEditorLintPath(path))
  }

  /** The store after one successful visit of `path`. */
  function Visit(s: Store, path: string, info: FileInfo): Store
  {
    VisitOwned(s, PackageName(path), path, info)
  }

  /** The outcomes Visit passes to the checks decide exactly the categories the entry matches. */
  lemma FlaggedMatches(c: Category, path: string, info: FileInfo)
    ensures Flagged(c, IsExecutable(info), IsTestPath(path), IsBenchPath(path), IsJsxPath(path),
                    IsTsPath(path), IsImagePath(path), IsTravisPath(path), IsEditorLintPath(path))
            == Matches(c, path, info)
  {
  }

  /** The checks with the outcomes of one entry raise category `c` of `pkg` exactly when the entry matches `c`. */
  lemma ChecksMatch(t: Store, pkg: string, path: string, info: FileInfo, c: Category)
    ensures CountIn(Checks(t, pkg, IsExecutable(info), IsTestPath(path), IsBenchPath(path), IsJsxPath(path),
                           IsTsPath(path), IsImagePath(path), IsTravisPath(path), IsEditorLintPath(path)), pkg, c)
            == CountIn(t, pkg, c) + (if Matches(c, path, info) then 1 else 0)
  {
    ChecksCount(t, pkg, IsExecutable(info), IsTestPath(path), IsBenchPath(path), IsJsxPath(path),
                IsTsPath(path), IsImagePath(path), IsTravisPath(path), IsEditorLintPath(path), c);
    FlaggedMatches(c, path, info);
  }

  /**
   One successful visit of an entry owned by `pkg`: nothing changes for an
   owner containing ".bin"; any other owner, the empty one included, has a
   record afterwards, each of its categories rose by one exactly when the
   entry matches it, and every other package is as it was.
   */
  lemma VisitOwnedEffect(s: Store, pkg: string, path: string, info: FileInfo)
    ensures Excluded(pkg) ==> VisitOwned(s, pkg, path, info) == s
    ensures !Excluded(pkg) ==>
            && VisitOwned(s, pkg, path, info).Keys == s.Keys + {pkg}
            && VisitOwned(s, pkg, path, info) - {pkg} == s - {pkg}
            && forall c :: CountIn(VisitOwned(s, pkg, path, info), pkg, c)
                           == CountIn(s, pkg, c) + (if Matches(c, path, info) then 1 else 0)
  {
    if !Excluded(pkg) {
      var t := Touch(s, pkg);
      ChecksFrame(t, pkg, IsExecutable(info), IsTestPath(path), IsBenchPath(path), IsJsxPath(path),
                  IsTsPath(path), IsImagePath(path), IsTravisPath(path), IsEditorLintPath(path));
      forall c
        ensures CountIn(VisitOwned(s, pkg, path, info), pkg, c) == CountIn(s, pkg, c) + (if Matches(c, path, info) then 1 else 0)
      {
        ChecksMatch(t, pkg, path, info, c);
        assert CountIn(t, pkg, c) == CountIn(s, pkg, c);
      }
    }
  }

  /** `VisitOwnedEffect` for the owner that packageName finds. */
  lemma VisitEffect(s: Store, path: string, info: FileInfo)
    ensures var owner := PackageName(path);
      && (Excluded(owner) ==> Visit(s, path, info) == s)
      && (!Excluded(owner) ==>
            && Visit(s, path, info).Keys == s.Keys + {owner}
            && Visit(s, path, info) - {owner} == s - {owner}
            && forall c :: CountIn(Visit(s, path, info), owner, c)
                           == CountIn(s, owner, c) + (if Matches(c, path, info) then 1 else 0))
  {
    VisitOwnedEffect(s, PackageName(path), path, info);
  }

  /** The extension categories are exclusive: at most one of JSX, TS and image is counted per entry. */
  lemma ExtensionCategoriesExclusive(path: string, info: FileInfo)
    ensures (if Matches(JsxError, path, info) then 1 else 0)
          + (if Matches(TsError, path, info) then 1 else 0)
          + (if Matches(ImgError, path, info) then 1 else 0) <= 1
  {
  }

  /** The process-wide `packages` map; one object stands for the one global. */
  class Packages {
    var packages: Store

    /** The map as the program starts: empty. */
    constructor ()
      ensures packages == map[]
    {
      packages := map[];
    }

    /** addError: one more occurrence of `err`; Go panics unless `pkgName` has a record. */
    method AddError(pkgName: string, err: Category)
      requires pkgName in packages
      modifies this
      ensures packages == Bump(old(packages), pkgName, err)
    {
      var errors := packages[pkgName];
      packages := packages[pkgName := errors[err := Get(errors, err) + 1]];
    }

    /** One of blame's checks: `addError(pkgName, err)` when the check's condition `hit` holds. */
    method AddErrorIf(pkgName: string, err: Category, hit: bool)
      requires pkgName in packages
      modifies this
      ensures packages == BumpIf(old(packages), pkgName, err, hit)
      ensures pkgName in packages
    {
      if hit {
        AddError(pkgName, err);
      }
    }

    /** blame's eight checks, in its order, on the walked entry `path` owned by `pkg`. */
    method Classify(pkg: string, path: string, info: FileInfo)
      requires pkg in packages
      modifies this
      ensures packages == Checks(old(packages), pkg, IsExecutable(info), IsTestPath(path), IsBenchPath(path),
                                 IsJsxPath(path), IsTsPath(path), IsImagePath(path), IsTravisPath(path),
                                 IsEditorLintPath(path))
    {
      ghost var s0 := packages;
      AddErrorIf(pkg, ExecError, IsExecutable(info));
      ghost var s1 := packages;
      AddErrorIf(pkg, TestError, IsTestPath(path));
      ghost var s2 := packages;
      AddErrorIf(pkg, BenchError, IsBenchPath(path));
      ghost var s3 := packages;
      AddErrorIf(pkg, JsxError, IsJsxPath(path));
      ghost var s4 := packages;
      AddErrorIf(pkg, TsError, IsTsPath(path));
      ghost var s5 := packages;
      AddErrorIf(pkg, ImgError, IsImagePath(path));
      ghost var s6 := packages;
      AddErrorIf(pkg, TravisError, IsTravisPath(path));
      ghost var s7 := packages;
      AddErrorIf(pkg, EditorLintError, IsEditorLintPath(path));
      ChecksInSteps(s0, s1, s2, s3, s4, s5, s6, s7, packages, pkg,
                    IsExecutable(info), IsTestPath(path), IsBenchPath(path), IsJsxPath(path),
                    IsTsPath(path), IsImagePath(path), IsTravisPath(path), IsEditorLintPath(path));
    }

    /**
     blame, the walk callback: a traversal error is returned unchanged and
     the map is left alone; otherwise the entry is attributed and classified
     as `Visit` describes, and nil is returned.
     */
    method Blame(path: string, info: FileInfo, err: Option<Error>) returns (result: Option<Error>)
      modifies this
      ensures err.Some? ==> result == err && packages == old(packages)
      ensures err.None? ==> result.None? && packages == Visit(old(packages), path, info)
    {
      if err.Some? {
        return err;
      }
      var pkg := PackageName(path);
      if Contains(pkg, ".bin") {
        return None;
      }
      if |Record(packages, pkg)| == 0 {
        packages := packages[pkg := map[]];
      }
      assert packages == Touch(old(packages), pkg);
      Classify(pkg, path, info);
      return None;
    }
  }

  /** totalErrors: the sum of one package's counters, whatever order the map is ranged in. */
  method TotalErrors(errors: map<Category, nat>) returns (total: nat)
    ensures total == SumValues(errors)
  {
    var rest := errors;
    total := 0;
    while rest != map[]
      invariant total + SumValues(rest) == SumValues(errors)
      decreases |rest|
    {
      var c :| c in rest;
      SumValuesRemove(rest, c);
      assert (rest - {c}).Keys == rest.Keys - {c};
      total := total + rest[c];
      rest := rest - {c};
    }
  }
}
