/**
 The three functions of Go's `strings` package that the attribution engine
 uses (`Contains`, `LastIndex`, and `Split` with the separator "/"), modelled
 on `seq<char>`, together with `Join`, the inverse of `Split`.
 */
module GoStrings {

  /** `sub` occurs in `s` starting at index `i`. */
  predicate OccursAt(s: string, sub: string, i: int)
  {
    0 <= i && i + |sub| <= |s| && s[i..i + |sub|] == sub
  }

  /** strings.Contains(s, sub), scanning `s` from the left; `ContainsOccurs` says what it computes. */
  function Contains(s: string, sub: string): bool
    decreases |s|
  {
    if |sub| > |s| then false
    else if s[..|sub|] == sub then true
    else Contains(s[1..], sub)
  }

  /** Contains(s, sub) holds exactly when `sub` occurs somewhere in `s`. */
  lemma {:induction false} ContainsOccurs(s: string, sub: string)
    ensures Contains(s, sub) <==> exists i :: OccursAt(s, sub, i)
    decreases |s|
  {
    if |sub| > |s| {
    } else if s[..|sub|] == sub {
      assert OccursAt(s, sub, 0);
    } else {
      ContainsOccurs(s[1..], sub);
      OccursShift(s, sub);
      assert !OccursAt(s, sub, 0);
      assert (exists i :: OccursAt(s, sub, i)) ==> exists i :: OccursAt(s[1..], sub, i) by {
        forall i | OccursAt(s, sub, i) ensures OccursAt(s[1..], sub, i - 1) { }
      }
    }
  }

  /** Occurrences in `s[1..]` are the occurrences in `s` past index 0. */
  lemma OccursShift(s: string, sub: string)
    requires |s| > 0
    ensures forall i :: 0 <= i ==> (OccursAt(s[1..], sub, i) <==> OccursAt(s, sub, i + 1))
  {
    forall i | 0 <= i
      ensures OccursAt(s[1..], sub, i) <==> OccursAt(s, sub, i + 1)
    {
      if 0 <= i && i + |sub| <= |s| - 1 {
        assert s[1..][i..i + |sub|] == s[i + 1..i + 1 + |sub|];
      }
    }
  }

  /** The largest occurrence index of `sub` in `s` that is at most `k`, or -1. */
  function LastIndexAtMost(s: string, sub: string, k: int): (r: int)
    requires -1 <= k <= |s|
    ensures -1 <= r <= k
    ensures r >= 0 ==> OccursAt(s, sub, r)
    ensures forall j :: r < j <= k ==> !OccursAt(s, sub, j)
    decreases k + 1
  {
    if k < 0 then -1
    else if OccursAt(s, sub, k) then k
    else LastIndexAtMost(s, sub, k - 1)
  }

  /** strings.LastIndex(s, sub): the last index at which `sub` occurs, or -1; `LastIndexSpec` says so. */
  function LastIndex(s: string, sub: string): (r: int)
    ensures -1 <= r <= |s|
  {
    LastIndexAtMost(s, sub, |s|)
  }

  /** The result of `LastIndex` is an occurrence, and no occurrence lies past it. */
  lemma LastIndexSpec(s: string, sub: string)
    ensures var r := LastIndex(s, sub);
      && (r >= 0 ==> OccursAt(s, sub, r))
      && (forall j :: r < j ==> !OccursAt(s, sub, j))
  {
  }

  /** An occurrence with none past it is the one `LastIndex` finds. */
  lemma LastIndexAt(s: string, sub: string, i: int)
    requires 0 <= i && OccursAt(s, sub, i)
    requires forall j :: i < j ==> !OccursAt(s, sub, j)
    ensures LastIndex(s, sub) == i
  {
  }

  /** strings.Split(s, "/"): the pieces of `s` between its slashes. */
  function Split(s: string): (parts: seq<string>)
    ensures |parts| >= 1
    ensures forall i :: 0 <= i < |parts| ==> '/' !in parts[i]
    ensures |parts| >= 2 <==> '/' in s
    ensures parts[0] == "" <==> (s == "" || s[0] == '/')
    decreases |s|
  {
    if s == "" then
      [""]
    else
      var rest := Split(s[1..]);
      assert s == [s[0]] + s[1..];
      if s[0] == '/' then [""] + rest
      else [[s[0]] + rest[0]] + rest[1..]
  }

  /** strings.Join(parts, "/"). */
  function Join(parts: seq<string>): (s: string)
    requires |parts| >= 1
    ensures |s| >= |parts[0]| && s[..|parts[0]|] == parts[0]
  {
    if |parts| == 1 then parts[0] else parts[0] + "/" + Join(parts[1..])
  }

  /** Prepending slash-free text glues it onto the first piece. */
  lemma {:induction false} SplitAppend(a: string, t: string)
    requires '/' !in a
    ensures Split(a + t) == [a + Split(t)[0]] + Split(t)[1..]
    decreases |a|
  {
    if a != "" {
      assert (a + t)[1..] == a[1..] + t;
      SplitAppend(a[1..], t);
      assert [a[0]] + (a[1..] + Split(t)[0]) == a + Split(t)[0];
    } else {
      assert a + t == t;
      assert a + Split(t)[0] == Split(t)[0];
      assert [Split(t)[0]] + Split(t)[1..] == Split(t);
    }
  }

  /** A leading slash starts a new, empty, first piece. */
  lemma SplitSlash(t: string)
    ensures Split("/" + t) == [""] + Split(t)
  {
    assert ("/" + t)[1..] == t;
  }

  /** Joining the pieces of `s` gives `s` back. */
  lemma {:induction false} JoinSplit(s: string)
    ensures Join(Split(s)) == s
    decreases |s|
  {
    if s != "" {
      JoinSplit(s[1..]);
      var rest := Split(s[1..]);
      if s[0] == '/' {
        assert Split(s) == [""] + rest;
        assert ([""] + rest)[1..] == rest;
      } else {
        JoinConsHead([s[0]], rest[0], rest[1..]);
        assert [rest[0]] + rest[1..] == rest;
        assert s == [s[0]] + s[1..];
      }
    }
  }

  /** Gluing `a` onto the first piece glues it onto the joined text. */
  lemma JoinConsHead(a: string, x: string, tail: seq<string>)
    ensures Join([a + x] + tail) == a + Join([x] + tail)
  {
    if tail != [] {
      assert ([a + x] + tail)[1..] == tail;
      assert ([x] + tail)[1..] == tail;
    }
  }

  /** Splitting slash-free pieces joined by slashes gives the pieces back. */
  lemma {:induction false} SplitJoin(parts: seq<string>)
    requires |parts| >= 1
    requires forall i :: 0 <= i < |parts| ==> '/' !in parts[i]
    ensures Split(Join(parts)) == parts
    decreases |parts|
  {
    if |parts| == 1 {
      SplitAppend(parts[0], "");
      assert parts[0] + "" == parts[0];
    } else {
      var tail := Join(parts[1..]);
      SplitJoin(parts[1..]);
      assert Join(parts) == parts[0] + ("/" + tail);
      SplitAppend(parts[0], "/" + tail);
      SplitSlash(tail);
      assert Split("/" + tail)[0] == "";
      assert Split("/" + tail)[1..] == parts[1..];
      assert parts[0] + "" == parts[0];
      assert [parts[0]] + parts[1..] == parts;
    }
  }

  /** The pieces of `a + "/" + b + rest`, with `a` and `b` slash-free and
      `rest` empty or starting at a slash, begin with `a` and `b`. */
  lemma SplitFirstTwo(a: string, b: string, rest: string)
    requires '/' !in a && '/' !in b
    requires rest == "" || rest[0] == '/'
    ensures |Split(a + "/" + b + rest)| >= 2
    ensures Split(a + "/" + b + rest)[0] == a && Split(a + "/" + b + rest)[1] == b
  {
    var t := b + rest;
    assert a + "/" + b + rest == a + ("/" + t);
    SplitAppend(a, "/" + t);
    SplitSlash(t);
    SplitAppend(b, rest);
    assert a + "" == a;
    assert b + "" == b;
  }

  /** The first piece of `a + rest`, with `a` slash-free and `rest` empty or
      starting at a slash, is `a`. */
  lemma SplitFirst(a: string, rest: string)
    requires '/' !in a
    requires rest == "" || rest[0] == '/'
    ensures Split(a + rest)[0] == a
  {
    SplitAppend(a, rest);
    assert a + "" == a;
  }
}
