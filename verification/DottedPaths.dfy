/**
 Dotted paths such as `upstreams.github.enabled`: joining keys with dots and splitting at dots.
 The configuration composer compares dotted strings; the projection splits them.
 */
module DottedPaths {

  predicate DotFree(key: string) {
    '.' !in key
  }

  /** `".".join(path)` */
  function Join(path: seq<string>): string {
    if path == [] then "" else if |path| == 1 then path[0] else path[0] + "." + Join(path[1..])
  }

  /** The index of the first dot, or the length. */
  function FirstDot(s: string): (n: nat)
    ensures n <= |s| && '.' !in s[..n] && (n < |s| ==> s[n] == '.')
  {
    if s == "" || s[0] == '.' then 0 else
      var n := FirstDot(s[1..]);
      assert s[..n + 1] == [s[0]] + s[1..][..n];
      n + 1
  }

  /** `s.split(".")` */
  function Split(s: string): (parts: seq<string>)
    ensures parts != []
    decreases |s|
  {
    var n := FirstDot(s);
    if n == |s| then [s] else [s[..n]] + Split(s[n + 1..])
  }

  lemma {:induction false} FirstDotIs(key: string, rest: string)
    requires DotFree(key) && (rest == "" || rest[0] == '.')
    ensures FirstDot(key + rest) == |key|
  {
    if key == "" {
      assert key + rest == rest;
    } else {
      assert key[0] in key;
      assert (key + rest)[1..] == key[1..] + rest;
      FirstDotIs(key[1..], rest);
    }
  }

  /** Splitting undoes joining when no key contains a dot. */
  lemma {:induction false} SplitJoin(path: seq<string>)
    requires path != [] && forall k :: k in path ==> DotFree(k)
    ensures Split(Join(path)) == path
  {
    if |path| == 1 {
      FirstDotIs(path[0], "");
      assert path[0] + "" == path[0];
    } else {
      var rest := "." + Join(path[1..]);
      assert Join(path) == path[0] + rest;
      FirstDotIs(path[0], rest);
      SplitJoin(path[1..]);
      assert Join(path)[|path[0]| + 1..] == Join(path[1..]);
    }
  }

  /** Joining undoes splitting, whatever the string. */
  lemma {:induction false} JoinSplit(s: string)
    ensures Join(Split(s)) == s
    ensures forall k :: k in Split(s) ==> DotFree(k)
    decreases |s|
  {
    var n := FirstDot(s);
    if n < |s| {
      JoinSplit(s[n + 1..]);
      assert Split(s)[1..] == Split(s[n + 1..]);
      assert s == s[..n] + "." + s[n + 1..];
    }
  }

  lemma {:induction false} JoinAppend(p: seq<string>, r: seq<string>)
    requires p != [] && r != []
    ensures Join(p + r) == Join(p) + "." + Join(r)
  {
    if |p| == 1 {
      assert (p + r)[1..] == r;
    } else {
      JoinAppend(p[1..], r);
      assert (p + r)[1..] == p[1..] + r;
      assert (p[0] + ".") + (Join(p[1..]) + "." + Join(r)) == (p[0] + "." + Join(p[1..])) + "." + Join(r);
    }
  }

  lemma SplitFirst(key: string, rest: string)
    requires DotFree(key)
    ensures Split(key) == [key] && Split(key + ("." + rest)) == [key] + Split(rest)
  {
    var whole := key + ("." + rest);
    FirstDotIs(key, "." + rest);
    FirstDotIs(key, "");
    assert key + "" == key;
    assert whole[..|key|] == key && whole[|key| + 1..] == rest;
  }

  /** Splitting around a dot splits both sides. */
  lemma {:induction false} SplitAppend(s: string, r: string)
    ensures Split(s + ("." + r)) == Split(s) + Split(r)
    decreases |s|
  {
    hide Split;
    var n := FirstDot(s);
    var key := s[..n];
    if n == |s| {
      assert key == s;
      SplitFirst(s, r);
    } else {
      var rest := s[n + 1..];
      assert s == key + ("." + rest);
      SplitFirst(key, rest);
      assert s + ("." + r) == key + ("." + (rest + ("." + r)));
      SplitFirst(key, rest + ("." + r));
      SplitAppend(rest, r);
    }
  }

  lemma DottedPrefixSplits(p: seq<string>, q: seq<string>)
    requires p != [] && q != [] && (forall k :: k in p ==> DotFree(k)) && (forall k :: k in q ==> DotFree(k))
    requires Join(p) + "." <= Join(q)
    ensures p < q
  {
    hide Split, Join, DotFree;
    var r := Join(q)[|Join(p)| + 1..];
    assert Join(q) == Join(p) + ("." + r);
    SplitAppend(Join(p), r);
    SplitJoin(p);
    SplitJoin(q);
  }

  /**
   The composer's test "equal to the dotted path, or starting with the dotted path and a dot" is
   the prefix order on key sequences, for keys without dots.
   */
  lemma DottedTestIsPrefix(p: seq<string>, q: seq<string>)
    requires p != [] && q != [] && (forall k :: k in p + q ==> DotFree(k))
    ensures Join(q) == Join(p) || Join(p) + "." <= Join(q) <==> p <= q
  {
    hide Split, DotFree;
    if p < q {
      JoinAppend(p, q[|p|..]);
      assert p + q[|p|..] == q;
      assert Join(p) + "." <= Join(q);
    } else if Join(q) == Join(p) {
      SplitJoin(p);
      SplitJoin(q);
    } else if Join(p) + "." <= Join(q) {
      DottedPrefixSplits(p, q);
    }
  }
}
