# npm-blame: the attribution and classification engine, in Dafny

npm-blame walks a `node_modules` tree and counts hygiene issues per npm
package. These issues are shipped executables, tests, benchmarks, images, CI
files and editor or lint dotfiles. This project models the engine that does
the work:

- **Owner resolution.** `ExtractPackageName` finds the package that owns a
  walked path. It takes the directory of the path and looks for the *last*
  occurrence of the substring `node_modules`. The owner is the piece after
  that occurrence, or else the first piece of the directory, or its second
  piece when the first is empty.
- **The counter store.** `NpmPackages` maps each package to a per-category
  count. `AppendError` bumps one counter. The four `check*` functions and the
  `Blame` walk callback classify one entry. `TotalErrors` sums one package's
  counters.
- **The legacy program** in `main.go`, modelled as a second, separate
  variant. The owner is always the first piece of the directory. Owners
  containing `.bin` are skipped, and the root is not. JSX and TypeScript
  files have their own categories. The counters live in one process-wide map.

Files:

- `go_strings.dfy` models `strings.Contains`, `strings.LastIndex` and
  `strings.Split(s, "/")` on `seq<char>`, with `Join` as the inverse of
  `Split`.
- `go_filepath.dfy` models `filepath.Dir` and `filepath.Ext` for
  slash-separated paths.
- `go_os.dfy` models the part of `os.FileInfo` that is read, its `FileMode`
  as a `bv32`. It also holds the nil-able `error` of the walk.
- `counters.dfy` holds the store operations both variants share. A missing
  package or category reads as 0. It also defines the sum of a map's values,
  which does not depend on traversal order.
- `blame.dfy` models `blame.go`. `ExtractPackageName`, `Visit` and `Checks`
  are functions. `NpmPackages` is a class whose `packages` field its methods
  update in place. A Go map is a reference, so every value receiver shares
  it.
- `legacy.dfy` models `main.go`. The global `packages` map is the field of a
  `Packages` object.

Each method is proved against a function. `Blame` ends in
`Visit(old(packages), path, info)`. `AppendError` and `addError` end in
`Bump`, and each check ends in `BumpIf`. Both `TotalErrors` end in
`SumValues` for any order of map iteration. The properties of those
functions are then proved as lemmas:

- the resolution rules;
- the cases of the package's own tests: the four ExtractPackageName
  tests, the TestBlame walk over its test tree (`TestBlameWalk`) and
  TestTotalErrors;
- that each category rises by exactly one when its check holds;
- that nothing else changes;
- that a whole walk accumulates linearly.

## Model

| member | source | states |
|---|---|---|
| GoStrings.ContainsOccurs | blame.go:82-86 | `strings.Contains(s, sub)` holds exactly when `sub` occurs at some index of `s` (both directions) |
| GoStrings.Contains | main.go:56 | `strings.Contains(s, sub)`: scans `s` from the left for an occurrence of `sub`; `ContainsOccurs` states what it computes |
| GoStrings.LastIndex | blame.go:53 | `strings.LastIndex` returns -1 or an index within `s` |
| GoStrings.LastIndexSpec | blame.go:53 | a non-negative result of `LastIndex` is an occurrence, and no occurrence lies after it |
| GoStrings.LastIndexAt | blame.go:53 | an occurrence with no later occurrence is what `LastIndex` returns |
| GoStrings.Split | blame.go:56-65 | `strings.Split(s, "/")` yields at least one piece and no piece holds a '/'; there are two or more pieces exactly when `s` has a '/'; the first piece is empty exactly when `s` is empty or starts with '/' |
| GoStrings.JoinSplit | blame.go:56-65 | joining the pieces of `s` with '/' gives `s` back |
| GoStrings.SplitJoin | blame.go:56-65 | splitting slash-free pieces joined by '/' gives the same pieces back |
| GoStrings.SplitFirstTwo | blame.go:56-58 | the first two pieces of `a/b…` are `a` and `b` |
| GoStrings.SplitFirst | main.go:40-41 | the first piece of `a` followed by nothing or by a '/' is `a` |
| GoFilepath.Dir | blame.go:51 | `filepath.Dir` is never empty; it is "." for a path without '/'; it is rooted when the path is rooted; otherwise it is "/" or a proper prefix of the path with no trailing '/' |
| GoFilepath.DirOfChild | main.go:39 | the directory of `d/name` is `d` |
| GoFilepath.DirOfRootChild | main.go:39 | the directory of `/name` is "/" |
| GoFilepath.ExtSuffix | blame.go:107-109 | `filepath.Ext` is a suffix of the path that starts with its '.' and holds no other '.' and no '/'; it is empty only when the last element has no '.' |
| GoFilepath.Ext | blame.go:107-109 | `filepath.Ext(path)`: the suffix from the last '.' of the final element, or "" when that element has none; `ExtSuffix` states it |
| GoOs.FileInfo.IsDir | blame.go:101 | `FileMode.IsDir()`: the directory bit 1<<31 of the mode is set |
| GoOs.IsExecutable | blame.go:101 | the executable test of both variants: not a directory, and `mode & 0111 != 0` |
| GoFilepath.ExtOfName | main.go:76-86 | a name ending in `.xyz` (no further '.' or '/') has extension `.xyz` |
| Counters.Touch | blame.go:124-127 | ensuring a record adds the package to the keys, keeps an existing record, and changes no count |
| Counters.Bump | blame.go:74-79 | one more occurrence raises exactly that package's count for that category by 1; the keys gain the package; other packages and categories are unchanged |
| Counters.BumpIf | blame.go:81-112 | a conditional bump: +1 on that one counter when the condition holds, nothing otherwise |
| Counters.BumpEmpty | blame.go:75-77 | replacing an empty record by a fresh map does not change the result of the increment |
| Counters.SumValuesRemove | blame.go:148-150 | the sum of a map's values may start from any key, so it does not depend on iteration order |
| Counters.SumValuesBump | blame.go:78 | one increment raises the record's sum by 1 |
| Counters.BumpTotal | blame.go:146-152 | one increment for `p` raises `p`'s total by 1 and leaves every other total alone |
| NpmBlame.ExtractPackageName | blame.go:50-66 | the resolved owner never contains '/' |
| NpmBlame.MarkerTail | blame.go:53-58 | the marker occurs right after `pre`, and the second piece from there on is the segment that follows it |
| NpmBlame.NestedPackageName | blame.go:53-59 | when the directory has its last "node_modules" (possibly glued to more text) followed by `/seg`, the owner is `seg` |
| NpmBlame.ExtractWithoutMarker | blame.go:61-65 | without a marker followed by '/', the owner is the directory's first piece when it is non-empty, otherwise its second piece |
| NpmBlame.TopLevelPackageName | blame.go:61-64 | without a usable marker, a relative directory `first/…` is owned by `first` |
| NpmBlame.RootedPackageName | blame.go:61-65 | without a usable marker, a rooted directory `/second/…` is owned by `second`, and the root by "" |
| NpmBlame.RegularPackageExample | blame_test.go:21-26 | "test/regular/path" resolves to "test" |
| NpmBlame.RootedPackageExample | blame_test.go:28-33 | "/test/root/path" resolves to "test" |
| NpmBlame.RootPackageExample | blame_test.go:35-40 | "/" resolves to "" |
| NpmBlame.NestedMarkerIsLast | blame_test.go:42-46 | in "/test/node_modules/nested" no "node_modules" occurs after index 6 |
| NpmBlame.NestedExampleDir | blame_test.go:42-46 | the directory of the nested test path splits as "/test/" + "node_modules" + "/nested", with no later marker |
| NpmBlame.NestedPackageExample | blame_test.go:42-46 | "/test/node_modules/nested/path" resolves to "nested" |
| NpmBlame.Excluded | blame.go:121-123 | the owners Blame skips: "" and ".bin" |
| NpmBlame.IsTestPath | blame.go:82-86 | the path contains test, tests, .zuul.yml, coverage or .coveralls.yml |
| NpmBlame.IsDotfilePath | blame.go:92-95 | the path contains .editorconfig, .eslintrc, .sass-lint.yml or .jshintrc |
| NpmBlame.IsImagePath | blame.go:107-109 | the extension is .png, .jpg or .ico |
| NpmBlame.IsBenchPath | blame.go:134 | the path contains "bench" |
| NpmBlame.IsCIPath | blame.go:138 | the path contains ".travis.yml" |
| NpmBlame.Matches | blame.go:81-140 | whether a walked entry falls into a category, one check per category |
| NpmBlame.EarlyChecksCount | blame.go:129-131 | the executable, test and dotfile checks each raise only their own category, by 1 exactly when their outcome holds |
| NpmBlame.LateChecksCount | blame.go:132-140 | the image, bench and CI checks each raise only their own category, by 1 exactly when their outcome holds |
| NpmBlame.ChecksFrame | blame.go:129-140 | the six checks change no package but the owner and add no key once the owner has a record |
| NpmBlame.ChecksCount | blame.go:129-140 | the checks are independent: each category of the owner rises by 1 exactly when its own check holds |
| NpmBlame.FlaggedMatches | blame.go:81-112 | the outcomes Blame computes decide exactly the categories the entry matches |
| NpmBlame.ChecksMatch | blame.go:129-140 | with one entry's outcomes, category `e` of the owner rises by 1 exactly when the entry matches `e` |
| NpmBlame.VisitOwned | blame.go:121-140 | the store after one successful visit of an entry owned by `pkg`: unchanged for an excluded owner, otherwise the owner's record ensured and the six checks applied in Blame's order |
| NpmBlame.Visit | blame.go:115-143 | the store after one successful Blame call: `VisitOwned` for the owner `ExtractPackageName` resolves |
| NpmBlame.VisitOwnedEffect | blame.go:120-142 | an excluded owner ("" or ".bin") leaves the store unchanged; any other owner gets a record, each of its categories rises by 1 exactly when the entry matches, and no other package changes |
| NpmBlame.VisitEffect | blame.go:115-143 | the same, for the owner that `ExtractPackageName` resolves |
| NpmBlame.VisitStep | blame.go:115-143 | one visit as seen from any package and category: the count rises by 1 exactly for the owner's matching categories; a package has a record afterwards exactly when it had one or owns the entry |
| NpmBlame.VisitAll | blame_test.go:129 | the store after a walk hands the entries to Blame one after the other |
| NpmBlame.VisitAllCounts | blame_test.go:129-179 | after a walk, every counter has risen by exactly the number of walked entries of that package in that category |
| NpmBlame.VisitAllKeys | blame_test.go:133-143 | after a walk, the packages with a record are those that had one or owned a walked entry, so "" and ".bin" never get one |
| NpmBlame.HitsAt | blame_test.go:145-173 | one entry of a walk that is attributed to `p` and matches `e` makes the walk's count for `p` and `e` positive |
| NpmBlame.CountSplit | blame_test.go:161-179 | a walk whose hits for `p` and `e` are exactly the entries at positions [lo, hi) counts hi - lo |
| NpmBlame.VisitAllExcluded | blame_test.go:133-143 | an excluded owner ("" or ".bin") without a record has none after any walk |
| NpmBlame.RootEntryOwner | blame_test.go:83-88 | a top-level entry "/name" is attributed to the root "" |
| NpmBlame.TopLevelEntryOwner | blame_test.go:83-88 | an entry "/top/name" of a top-level directory shorter than "node_modules" belongs to `top` |
| NpmBlame.MissingChar | blame.go:91-98 | a text lacking some character of `sub` does not contain `sub` |
| NpmBlame.NotDotfile | blame.go:91-98 | a path without '.', or without 'e', '-' and 'h', matches none of the four lint or editor names |
| NpmBlame.NotImageByEnding | blame.go:106-112 | a path whose last two characters cannot end ".png", ".jpg" or ".ico" is no image |
| NpmBlame.ContainsSuffix | blame.go:81-98 | a path ending in a name contains that name |
| NpmBlame.TreeRoots | blame_test.go:133-143 | in the test tree's walk, "/", "/.bin", "/.bin/bin" and "/pkg" are attributed to "" or ".bin" |
| NpmBlame.TreePkgOwners | blame_test.go:90-112 | in the test tree's walk, every entry below "/pkg" belongs to "pkg" |
| NpmBlame.TreeDotfiles | blame_test.go:107-111 | ".editorconfig", ".eslintrc", ".jshintrc" and ".sass-lint.yml" below "/pkg" are dotfiles |
| NpmBlame.TreeNonDotfiles | blame_test.go:90-106 | the other entries below "/pkg" are not dotfiles |
| NpmBlame.TreeImages | blame_test.go:100-103 | "favicon.ico", "icon.jpg" and "icon.png" below "/pkg" are images |
| NpmBlame.TreeNonImages | blame_test.go:90-111 | the other entries below "/pkg" are not images |
| NpmBlame.TreeOtherCategories | blame_test.go:94-106 | ".travis.yml" is a CI file, "bench" a bench entry and "test" a test entry |
| NpmBlame.TreeHitsPresent | blame_test.go:145-173 | the executable, the test file, the bench directory and the Travis file each count for "pkg" |
| NpmBlame.TreeImageHits | blame_test.go:163-167 | exactly three entries of the walk are image errors of "pkg" |
| NpmBlame.TreeDotfileHits | blame_test.go:175-179 | exactly four entries of the walk are dotfile errors of "pkg" |
| NpmBlame.TestTreeHits | blame_test.go:145-179 | over the test tree's walk, "pkg" has execution, test, bench and CI hits, three image hits and four dotfile hits |
| NpmBlame.TestBlameWalk | blame_test.go:83-179 | after Blame over the test tree's walk, with "/pkg/exec" executable and any other FileInfo, "" and ".bin" have no record, "pkg" has execution, test, bench and CI errors, exactly three image errors and exactly four dotfile errors |
| NpmBlame.TotalErrorsExample | blame_test.go:195-207 | after the test's four AppendError calls, "test2" totals 2 |
| NpmBlame.NpmPackages.constructor | blame.go:44-46 | NewNpmPackages is an empty store |
| NpmBlame.NpmPackages.AppendError | blame.go:74-79 | the new store is `Bump` of the old: one more `err` for `pkgName`, with a record created if it had none or an empty one |
| NpmBlame.NpmPackages.CheckTests | blame.go:81-89 | one TestError exactly when the path contains test, tests, .zuul.yml, coverage or .coveralls.yml |
| NpmBlame.NpmPackages.CheckDotFiles | blame.go:91-98 | one DotfileError exactly when the path contains one of the four lint or editor names |
| NpmBlame.NpmPackages.CheckExecutables | blame.go:100-104 | one ExecError exactly for a non-directory with an execute bit set |
| NpmBlame.NpmPackages.CheckImages | blame.go:106-112 | one ImageError exactly for the extensions .png, .jpg and .ico |
| NpmBlame.NpmPackages.Classify | blame.go:129-140 | the six checks, in Blame's order, leave the store as `Checks` describes |
| NpmBlame.NpmPackages.Blame | blame.go:115-143 | a traversal error is returned unchanged and the store is untouched; otherwise nil is returned and the store becomes `Visit` of the old one |
| NpmBlame.NpmPackages.TotalErrors | blame.go:146-152 | the result is the sum of the package's counters, for any iteration order, and 0 for an unknown package |
| LegacyBlame.PackageName | main.go:38-42 | the legacy owner never contains '/' |
| LegacyBlame.AbsolutePackageName | main.go:38-42 | every absolute path is attributed to "" |
| LegacyBlame.RelativePackageName | main.go:38-42 | a directory `first/…` is attributed to `first`, whatever "node_modules" markers it holds |
| LegacyBlame.TopLevelEntryName | main.go:38-42 | a top-level entry lies in "." and is attributed to "." |
| LegacyBlame.Excluded | main.go:56-58 | the owners blame skips: any name containing ".bin" |
| LegacyBlame.IsTestPath | main.go:68 | the path contains test, tests, .zuul.yml, coverage or .coveralls.yml |
| LegacyBlame.IsBenchPath | main.go:72 | the path contains "bench" |
| LegacyBlame.IsJsxPath | main.go:76 | the extension is exactly ".jsx" |
| LegacyBlame.IsTsPath | main.go:80 | the extension is exactly ".ts" |
| LegacyBlame.IsImagePath | main.go:84 | the extension is exactly ".png" |
| LegacyBlame.IsTravisPath | main.go:88 | the path contains ".travis.yml" |
| LegacyBlame.IsEditorLintPath | main.go:92 | the path contains .editorconfig, .eslintrc, .sass-lint.yml or .jshintrc |
| LegacyBlame.Matches | main.go:64-94 | whether a walked entry falls into a category, one check per category |
| LegacyBlame.EarlyChecksCount | main.go:64-78 | the exec, test, bench and JSX checks each raise only their own category, by 1 exactly when their outcome holds |
| LegacyBlame.LateChecksCount | main.go:80-94 | the TS, image, Travis and lint checks each raise only their own category, by 1 exactly when their outcome holds |
| LegacyBlame.ChecksFrame | main.go:64-94 | the eight checks change no package but the owner and add no key once the owner has a record |
| LegacyBlame.ChecksCount | main.go:64-94 | the eight checks are independent: each category rises by 1 exactly when its own check holds |
| LegacyBlame.ChecksInSteps | main.go:64-94 | the checks taken one at a time, in blame's order, make up `Checks` |
| LegacyBlame.FlaggedMatches | main.go:64-94 | the outcomes blame computes decide exactly the categories the entry matches |
| LegacyBlame.ChecksMatch | main.go:64-94 | with one entry's outcomes, category `c` of the owner rises by 1 exactly when the entry matches `c` |
| LegacyBlame.VisitOwned | main.go:56-94 | the map after one successful visit of an entry owned by `pkg`: unchanged for an owner containing ".bin", otherwise the owner's record ensured and the eight checks applied in blame's order |
| LegacyBlame.Visit | main.go:49-97 | the map after one successful blame call: `VisitOwned` for the owner `packageName` resolves |
| LegacyBlame.VisitOwnedEffect | main.go:55-94 | an owner containing ".bin" leaves the map unchanged; any other owner, "" included, gets a record, each category rises by 1 exactly when the entry matches, and no other package changes |
| LegacyBlame.VisitEffect | main.go:49-97 | the same, for the owner that `packageName` resolves |
| LegacyBlame.ExtensionCategoriesExclusive | main.go:76-86 | JSX, TS and IMG are decided by one extension, so at most one of them is counted per entry |
| LegacyBlame.Packages.constructor | main.go:34 | the global map starts empty |
| LegacyBlame.Packages.AddError | main.go:45-47 | given an existing record, the new map is `Bump` of the old: one more `err` for `pkgName` |
| LegacyBlame.Packages.AddErrorIf | main.go:64-94 | one of blame's guarded `addError` calls: `BumpIf` of the old map, and the record stays |
| LegacyBlame.Packages.Classify | main.go:64-94 | the eight checks, in blame's order, leave the map as `Checks` describes |
| LegacyBlame.Packages.Blame | main.go:49-97 | a traversal error is returned unchanged and the map is untouched; otherwise nil is returned and the map becomes `Visit` of the old one |
| LegacyBlame.TotalErrors | main.go:100-106 | the result is the sum of the map's values, for any iteration order |

## Left out

- `NpmPackages.String` (blame.go:155-185) and the table printing in `main()` (main.go:108-131) are left out. They are output formatting through the `uitable` library.
- The `filepath.Walk` and `afero.Walk` traversal is filesystem I/O and is left out. The callback is modelled with explicit path, FileInfo and error values. `VisitAll` models a walk as a sequence of entries, and does not model the traversal order or `SkipDir`.
- `cmd/npm-blame/main.go` and `report.go` are not part of this model. They are CLI and network plumbing, and stubs.
- `ExtractPackageInformations` (blame.go:69-71) and the `NpmPackage` struct (blame.go:34-38) are a stub and dead code.
- GoFilepath.Dir: does not model `filepath.Clean`'s removal of `.` and `..` elements and of doubled slashes inside the directory. Only clean slash-separated paths are modelled faithfully.
- Strings are `seq<char>`, while Go strings are bytes. Every searched text ('/', '.', "node_modules" and the check literals) is ASCII, so results agree on valid UTF-8 names; file names that are not valid UTF-8 cannot be represented.
- Counters are Go `int`s modelled as `nat`. The overflow of a 64-bit counter is not modelled.
- The legacy category constants are `int`s in Go and an enumeration here. Only the eight constants are ever used as keys.
- TestBlameWalk: takes the walk's entries in lexical order, as afero.Walk visits them, and fixes only the mode of "/pkg/exec"; the in-memory file system (afero.MemMapFs) that builds the tree is not part of this model.
- A nil `os.FileInfo` with a nil error makes the Go callbacks panic unless the owner is skipped (blame.go:120-123, main.go:56-58); the walkers never pass that combination. Here FileInfo is a value, so that case does not arise. With a non-nil error, the callbacks never read FileInfo, and the model agrees.
- LegacyBlame.Packages.AddError: requires that the package has a record, because Go panics when it writes to a nil inner map. `blame` always creates the record first.
- The checks inside the legacy `blame` and the two trailing `if`s of `Blame` run through `Classify`, a helper method. `Classify` performs the same guarded calls in the same order.

Behaviour of the code worth knowing:

- `node_modules` is found as a substring (blame.go:53-58). A directory like `node_modules_x/foo` therefore resolves to `foo`.
- A marker with nothing after it falls back to the first or second piece of the directory (blame.go:61-65).
- A path directly under the root, such as `/file`, resolves to "" just as the root does (blame.go:51, 61-65).
- The legacy program records the owners "" and "." rather than excluding them (main.go:55-62).
