/**
 `filepath.Dir` and `filepath.Ext` of Go's `path/filepath` package, for
 slash-separated paths (Unix: no volume name, '/' is the only separator).
 */
module GoFilepath {

  /** Index of the last '/' in `path`, or -1 when there is none. */
  function LastSlash(path: string): (i: int)
    ensures -1 <= i < |path|
    ensures i >= 0 ==> path[i] == '/'
    ensures forall k :: i < k < |path| ==> path[k] != '/'
    ensures i == -1 <==> '/' !in path
  {
    if path == "" then -1
    else if path[|path| - 1] == '/' then |path| - 1
    else
      var i := LastSlash(path[..|path| - 1]);
      assert path == path[..|path| - 1] + [path[|path| - 1]];
      i
  }

  /** `s` without its trailing slashes. */
  function TrimTrailingSlashes(s: string): (r: string)
    ensures |r| <= |s| && r == s[..|r|]
    ensures r == "" || r[|r| - 1] != '/'
    ensures forall k :: |r| <= k < |s| ==> s[k] == '/'
  {
    if s == "" || s[|s| - 1] != '/' then s
    else TrimTrailingSlashes(s[..|s| - 1])
  }

  /**
   filepath.Dir(path): everything up to the last separator, with the trailing
   separators removed; "." when the path has no separator, and "/" when only
   separators precede the last element.
   */
  function Dir(path: string): (d: string)
    ensures d != ""
    ensures '/' !in path ==> d == "."
    ensures path != "" && path[0] == '/' ==> d[0] == '/'
    ensures d == "." || d == "/" || (|d| < |path| && d == path[..|d|] && d[|d| - 1] != '/')
  {
    var i := LastSlash(path);
    if i < 0 then "."
    else
      var d := TrimTrailingSlashes(path[..i]);
      if d == "" then "/" else d
  }

  /** The directory of `d/name` is `d`, for a directory `d` not ending in a slash. */
  lemma DirOfChild(d: string, name: string)
    requires d != "" && d[|d| - 1] != '/'
    requires '/' !in name
    ensures Dir(d + "/" + name) == d
  {
    var path := d + "/" + name;
    assert path[|d|] == '/';
    assert forall k :: |d| < k < |path| ==> path[k] == name[k - |d| - 1];
    assert LastSlash(path) == |d|;
    assert path[..|d|] == d;
  }

  /** The directory of `/name` is the root "/". */
  lemma DirOfRootChild(name: string)
    requires '/' !in name
    ensures Dir("/" + name) == "/"
  {
    var path := "/" + name;
    assert forall k :: 0 < k < |path| ==> path[k] == name[k - 1];
    assert LastSlash(path) == 0;
  }

  /**
   filepath.Ext(path): the suffix that starts at the last '.' of the final
   element, or "" when the final element has no '.'; `ExtSuffix` says so.
   */
  function Ext(path: string): string
  {
    if path == "" || path[|path| - 1] == '/' then
      ""
    else if path[|path| - 1] == '.' then
      path[|path| - 1..]
    else
      var e := Ext(path[..|path| - 1]);
      if e == "" then "" else e + [path[|path| - 1]]
  }

  /**
   The extension is a suffix of the path, starts with its '.', holds no other
   '.' and no '/', and is empty only when the final element has no '.'.
   */
  lemma {:induction false} ExtSuffix(path: string)
    ensures |Ext(path)| <= |path| && Ext(path) == path[|path| - |Ext(path)|..]
    ensures '/' !in Ext(path)
    ensures Ext(path) == "" || (Ext(path)[0] == '.' && '.' !in Ext(path)[1..])
    ensures Ext(path) == "" ==> forall k :: 0 <= k < |path| && '/' !in path[k..] ==> path[k] != '.'
  {
    if path != "" && path[|path| - 1] != '/' && path[|path| - 1] != '.' {
      var init := path[..|path| - 1];
      var last := path[|path| - 1];
      ExtSuffix(init);
      var e := Ext(init);
      if e != "" {
        assert path[|path| - |e| - 1..] == e + [last];
        assert (e + [last])[1..] == e[1..] + [last];
      } else {
        forall k | 0 <= k < |path| && '/' !in path[k..]
          ensures path[k] != '.'
        {
          if k < |init| {
            assert path[k..] == init[k..] + [last];
          }
        }
      }
    }
  }

  /** A name ending in `ext` (a '.' followed by no '.' and no '/') has extension `ext`. */
  lemma {:induction false} ExtOfName(base: string, ext: string)
    requires ext != "" && ext[0] == '.'
    requires '/' !in ext && '.' !in ext[1..]
    ensures Ext(base + ext) == ext
    decreases |ext|
  {
    var path := base + ext;
    var last := ext[|ext| - 1];
    if |ext| == 1 {
      assert path[|path| - 1..] == ext;
    } else {
      var init := ext[..|ext| - 1];
      assert last in ext[1..];
      assert init[1..] == ext[1..|ext| - 1];
      ExtOfName(base, init);
      assert path[..|path| - 1] == base + init;
      assert init + [last] == ext;
    }
  }
}
