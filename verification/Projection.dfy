/**
 Response projection (src/mcp_broker/catalog.py): dotted paths become a trie, and the trie and an
 array cap prune a JSON value.

 The independent reading of a JSON value is the table of what is visible at each location; a
 projection is characterised by that table, and every law about projections follows from it.
 */
module Projection {
  import opened Prelude
  import opened DottedPaths

  datatype Json =
    | Scalar(text: string)
    | Arr(items: seq<Json>)
    | Obj(fields: map<string, Json>)

  datatype Tree = Node(kids: map<string, Tree>)

  /** No selector: the source passes `None` or an empty dictionary, and tests only for falsiness. */
  const ALL := Node(map[])

  // ---------------------------------------------------------------------------------------
  // The source's functions
  // ---------------------------------------------------------------------------------------

  function Capped(items: seq<Json>, cap: Option<nat>): seq<Json> {
    if cap.Some? && cap.value < |items| then items[..cap.value] else items
  }

  /** `_project` */
  function Project(v: Json, tree: Tree, cap: Option<nat>): Json
    decreases v
  {
    match v
    case Scalar(_) => v
    case Arr(items) =>
      Arr(Capped(seq(|items|, i requires 0 <= i < |items| => Project(items[i], tree, cap)), cap))
    case Obj(fields) =>
      if tree.kids == map[] then Obj(map k | k in fields :: Project(fields[k], ALL, cap))
      else Obj(map k | k in tree.kids && k in fields :: Project(fields[k], tree.kids[k], cap))
  }

  /** Walking one path with `setdefault`, from the node `t`. */
  function Insert(t: Tree, parts: seq<string>): Tree
    decreases |parts|
  {
    if parts == [] then t else
      Node(t.kids[parts[0] := Insert(if parts[0] in t.kids then t.kids[parts[0]] else ALL, parts[1..])])
  }

  function PathTree(paths: seq<string>): Tree {
    if paths == [] then ALL else Insert(PathTree(paths[..|paths| - 1]), Split(paths[|paths| - 1]))
  }

  /** `project_value` */
  function ProjectValue(v: Json, paths: seq<string>, cap: Option<nat>): Json {
    Project(v, PathTree(paths), cap)
  }

  /** `node.setdefault(part, {})` for the node that `at` leads to. */
  function SetDefault(t: Tree, at: seq<string>, part: string): Tree
    requires NodeIn(t, at)
    decreases |at|
  {
    if at == [] then (if part in t.kids then t else Node(t.kids[part := ALL]))
    else Node(t.kids[at[0] := SetDefault(t.kids[at[0]], at[1..], part)])
  }

  /** `_build_path_tree`: the reference `node` is represented by the keys that lead to it. */
  method BuildPathTree(paths: seq<string>) returns (tree: Tree)
    ensures tree == PathTree(paths)
  {
    tree := ALL;
    for i := 0 to |paths|
      invariant tree == PathTree(paths[..i])
    {
      ghost var before := tree;
      var parts := Split(paths[i]);
      var node: seq<string> := [];
      for j := 0 to |parts|
        invariant node == parts[..j]
        invariant NodeIn(tree, node) && tree == Insert(before, node)
      {
        SetDefaultExtends(before, node, parts[j]);
        tree := SetDefault(tree, node, parts[j]);
        node := node + [parts[j]];
      }
      assert parts[..|parts|] == parts;
      assert paths[..i + 1][..i] == paths[..i];
    }
    assert paths[..|paths|] == paths;
  }

  lemma {:induction false} SetDefaultExtends(t: Tree, at: seq<string>, part: string)
    requires NodeIn(Insert(t, at), at)
    ensures SetDefault(Insert(t, at), at, part) == Insert(t, at + [part])
    ensures NodeIn(Insert(t, at + [part]), at + [part])
    decreases |at|
  {
    if at == [] {
      assert [part][1..] == [];
      if part in t.kids {
        assert t.kids[part := t.kids[part]] == t.kids;
      }
    } else {
      assert (at + [part])[1..] == at[1..] + [part];
      SetDefaultExtends(if at[0] in t.kids then t.kids[at[0]] else ALL, at[1..], part);
      var inner := Insert(t, at).kids[at[0]];
      assert Insert(t, at).kids[at[0] := SetDefault(inner, at[1..], part)] ==
             t.kids[at[0] := SetDefault(inner, at[1..], part)];
    }
  }

  // ---------------------------------------------------------------------------------------
  // The trie is the prefix closure of the set of paths
  // ---------------------------------------------------------------------------------------

  predicate NodeIn(t: Tree, p: seq<string>)
    decreases |p|
  {
    p == [] || (p[0] in t.kids && NodeIn(t.kids[p[0]], p[1..]))
  }

  function Sub(t: Tree, p: seq<string>): Tree
    requires NodeIn(t, p)
    decreases |p|
  {
    if p == [] then t else Sub(t.kids[p[0]], p[1..])
  }

  lemma {:induction false} InsertNodes(t: Tree, parts: seq<string>, p: seq<string>)
    ensures NodeIn(Insert(t, parts), p) <==> NodeIn(t, p) || p <= parts
    decreases |parts|
  {
    if parts != [] && p != [] && p[0] == parts[0] {
      var kid := if parts[0] in t.kids then t.kids[parts[0]] else ALL;
      InsertNodes(kid, parts[1..], p[1..]);
      assert parts == [parts[0]] + parts[1..] && p == [p[0]] + p[1..];
      if p <= parts { assert p[1..] <= parts[1..]; }
      if p[1..] <= parts[1..] { assert p <= parts; }
      if parts[0] !in t.kids { assert NodeIn(ALL, p[1..]) <==> p[1..] == []; }
    }
  }

  /** The nodes of the trie are exactly the prefixes of the given paths. */
  lemma {:induction false} TrieIsPrefixClosure(paths: seq<string>, p: seq<string>)
    ensures NodeIn(PathTree(paths), p) <==> p == [] || exists s :: s in paths && p <= Split(s)
  {
    if paths != [] {
      var init, last := paths[..|paths| - 1], paths[|paths| - 1];
      TrieIsPrefixClosure(init, p);
      InsertNodes(PathTree(init), Split(last), p);
      assert forall s :: s in paths <==> s in init || s == last;
      assert PathTree(paths) == Insert(PathTree(init), Split(last));
      if p <= Split(last) { assert last in paths; }
    }
  }

  lemma {:induction false} TreeExtensional(a: Tree, b: Tree)
    requires forall p :: NodeIn(a, p) <==> NodeIn(b, p)
    ensures a == b
  {
    forall k ensures k in a.kids <==> k in b.kids {
      assert NodeIn(a, [k]) <==> k in a.kids;
      assert NodeIn(b, [k]) <==> k in b.kids;
    }
    forall k | k in a.kids ensures a.kids[k] == b.kids[k] {
      forall p ensures NodeIn(a.kids[k], p) <==> NodeIn(b.kids[k], p) {
        assert ([k] + p)[1..] == p;
        assert NodeIn(a, [k] + p) <==> NodeIn(b, [k] + p);
      }
      TreeExtensional(a.kids[k], b.kids[k]);
    }
    assert a.kids == b.kids;
  }

  /** Order and repetition of the paths do not matter. */
  lemma TrieDependsOnSetOnly(a: seq<string>, b: seq<string>)
    requires forall s :: s in a <==> s in b
    ensures PathTree(a) == PathTree(b)
  {
    forall p ensures NodeIn(PathTree(a), p) <==> NodeIn(PathTree(b), p) {
      TrieIsPrefixClosure(a, p);
      TrieIsPrefixClosure(b, p);
    }
    TreeExtensional(PathTree(a), PathTree(b));
  }

  /** A given path that no other given path properly extends. */
  ghost predicate Maximal(paths: seq<string>, m: seq<string>) {
    (exists s :: s in paths && Split(s) == m) &&
    forall s :: s in paths && m <= Split(s) ==> Split(s) == m
  }

  lemma {:induction false} ChildExtends(t: Tree, p: seq<string>)
    requires NodeIn(t, p)
    ensures forall k :: NodeIn(t, p + [k]) <==> k in Sub(t, p).kids
    decreases |p|
  {
    if p != [] { ChildExtends(t.kids[p[0]], p[1..]); }
    forall k ensures NodeIn(t, p + [k]) <==> k in Sub(t, p).kids {
      if p != [] { assert (p + [k])[1..] == p[1..] + [k]; } else { assert NodeIn(t, [k]) <==> k in t.kids; }
    }
  }

  /** The leaves of the trie are exactly the maximal paths. */
  lemma LeavesAreMaximalPaths(paths: seq<string>, m: seq<string>)
    requires paths != []
    ensures Maximal(paths, m) <==> m != [] && NodeIn(PathTree(paths), m) && Sub(PathTree(paths), m) == ALL
  {
    hide PathTree, Split, Sub;
    var t := PathTree(paths);
    TrieIsPrefixClosure(paths, m);
    if m != [] && NodeIn(t, m) {
      ChildExtends(t, m);
      forall s | s in paths && m < Split(s) ensures Sub(t, m) != ALL {
        var k := Split(s)[|m|];
        TrieIsPrefixClosure(paths, m + [k]);
        assert NodeIn(t, m + [k]);
      }
      if Sub(t, m) != ALL {
        var k :| k in Sub(t, m).kids;
        TrieIsPrefixClosure(paths, m + [k]);
        var s :| s in paths && m + [k] <= Split(s);
        assert m < Split(s);
      }
    }
  }

  // ---------------------------------------------------------------------------------------
  // What is visible where
  // ---------------------------------------------------------------------------------------

  datatype Step = Key(key: string) | Index(n: nat)
  type Location = seq<Step>

  /** What one sees at a location without looking further down. */
  datatype Tip = Leaf(text: string) | List(length: nat) | Record

  function Visible(v: Json, at: Location): Option<Tip>
    decreases |at|
  {
    if at == [] then
      Some(match v case Scalar(s) => Leaf(s) case Arr(items) => List(|items|) case Obj(_) => Record)
    else match v
      case Scalar(_) => None
      case Arr(items) =>
        if at[0].Index? && at[0].n < |items| then Visible(items[at[0].n], at[1..]) else None
      case Obj(fields) =>
        if at[0].Key? && at[0].key in fields then Visible(fields[at[0].key], at[1..]) else None
  }

  /** The key path of a location: its list indices dropped. */
  function Keys(at: Location): seq<string> {
    if at == [] then [] else (if at[0].Key? then [at[0].key] else []) + Keys(at[1..])
  }

  /** `p` follows the trie until it ends, or until `p` ends. */
  predicate Selected(t: Tree, p: seq<string>)
    decreases |p|
  {
    p == [] || t.kids == map[] || (p[0] in t.kids && Selected(t.kids[p[0]], p[1..]))
  }

  predicate Within(at: Location, cap: Option<nat>) {
    cap.Some? ==> forall i :: 0 <= i < |at| && at[i].Index? ==> at[i].n < cap.value
  }

  function Min(a: nat, b: nat): nat { if a < b then a else b }

  function CapTip(tip: Option<Tip>, cap: Option<nat>): Option<Tip> {
    if cap.Some? && tip.Some? && tip.value.List? then Some(List(Min(tip.value.length, cap.value))) else tip
  }

  predicate StepWithin(step: Step, cap: Option<nat>) {
    step.Index? && cap.Some? ==> step.n < cap.value
  }

  lemma WithinCons(at: Location, cap: Option<nat>)
    ensures Within(at, cap) <==> at == [] || (StepWithin(at[0], cap) && Within(at[1..], cap))
  {
    if at != [] && cap.Some? {
      var rest := at[1..];
      assert forall i :: 1 <= i < |at| ==> at[i] == rest[i - 1];
      assert forall i :: 0 <= i < |rest| ==> rest[i] == at[i + 1];
    }
  }

  lemma ItemShows(items: seq<Json>, t: Tree, cap: Option<nat>, at: Location)
    requires at != [] && at[0].Index?
    ensures Visible(Project(Arr(items), t, cap), at) ==
      if at[0].n < |items| && StepWithin(at[0], cap) then Visible(Project(items[at[0].n], t, cap), at[1..]) else None
  {
    var all := seq(|items|, i requires 0 <= i < |items| => Project(items[i], t, cap));
    assert Project(Arr(items), t, cap) == Arr(Capped(all, cap));
  }

  /** What follows a key in the trie. */
  function Kid(t: Tree, key: string): Option<Tree> {
    if t.kids == map[] then Some(ALL) else if key in t.kids then Some(t.kids[key]) else None
  }

  lemma FieldShows(fields: map<string, Json>, t: Tree, cap: Option<nat>, at: Location)
    requires at != [] && at[0].Key?
    ensures Visible(Project(Obj(fields), t, cap), at) ==
      if at[0].key in fields && Kid(t, at[0].key).Some?
      then Visible(Project(fields[at[0].key], Kid(t, at[0].key).value, cap), at[1..]) else None
  {
  }

  /**
   The whole meaning of a projection: at every location one sees what the input shows there, list
   lengths capped, exactly when the location's key path is selected and its indices are below the cap.
   */
  lemma {:induction false} ProjectShows(v: Json, t: Tree, cap: Option<nat>, at: Location)
    ensures Visible(Project(v, t, cap), at) ==
      if Selected(t, Keys(at)) && Within(at, cap) then CapTip(Visible(v, at), cap) else None
    decreases |at|
  {
    WithinCons(at, cap);
    if at != [] {
      hide Project, Within;
      var step, rest := at[0], at[1..];
      if v.Arr? && step.Index? {
        ItemShows(v.items, t, cap, at);
        if step.n < |v.items| { ProjectShows(v.items[step.n], t, cap, rest); }
        assert Keys(at) == Keys(rest);
      } else if v.Obj? && step.Key? {
        FieldShows(v.fields, t, cap, at);
        if step.key in v.fields && Kid(t, step.key).Some? {
          ProjectShows(v.fields[step.key], Kid(t, step.key).value, cap, rest);
        }
        assert Keys(at)[1..] == Keys(rest);
      } else {
        ProjectKeepsKind(v, t, cap);
      }
    }
  }

  lemma ProjectKeepsKind(v: Json, t: Tree, cap: Option<nat>)
    ensures var r := Project(v, t, cap); (r.Scalar? <==> v.Scalar?) && (r.Arr? <==> v.Arr?) && (r.Obj? <==> v.Obj?)
  {
  }

  /** Two values that show the same everywhere are equal. */
  lemma {:induction false} JsonExtensional(a: Json, b: Json)
    requires forall at :: Visible(a, at) == Visible(b, at)
    ensures a == b
  {
    assert Visible(a, []) == Visible(b, []);
    match a
    case Scalar(_) =>
    case Arr(items) =>
      forall i | 0 <= i < |items| ensures items[i] == b.items[i] {
        SameBelow(a, b, Index(i), items[i], b.items[i]);
        JsonExtensional(items[i], b.items[i]);
      }
    case Obj(fields) =>
      forall k ensures k in fields <==> k in b.fields {
        assert Visible(a, [Key(k)]).Some? <==> k in fields;
        assert Visible(b, [Key(k)]).Some? <==> k in b.fields;
      }
      forall k | k in fields ensures fields[k] == b.fields[k] {
        SameBelow(a, b, Key(k), fields[k], b.fields[k]);
        JsonExtensional(fields[k], b.fields[k]);
      }
      assert fields == b.fields;
  }

  lemma SameBelow(a: Json, b: Json, step: Step, x: Json, y: Json)
    requires forall at :: Visible(a, at) == Visible(b, at)
    requires forall at :: at != [] && at[0] == step ==> Visible(a, at) == Visible(x, at[1..])
    requires forall at :: at != [] && at[0] == step ==> Visible(b, at) == Visible(y, at[1..])
    ensures forall at :: Visible(x, at) == Visible(y, at)
  {
    forall at ensures Visible(x, at) == Visible(y, at) {
      assert ([step] + at)[1..] == at;
      assert Visible(a, [step] + at) == Visible(b, [step] + at);
    }
  }

  // ---------------------------------------------------------------------------------------
  // Laws
  // ---------------------------------------------------------------------------------------

  function MinCap(a: Option<nat>, b: Option<nat>): Option<nat> {
    if a.None? then b else if b.None? then a else Some(Min(a.value, b.value))
  }

  lemma WithinBoth(at: Location, a: Option<nat>, b: Option<nat>)
    ensures Within(at, a) && Within(at, b) <==> Within(at, MinCap(a, b))
  {
  }

  /** Projecting twice with one trie is projecting once with the smaller cap. */
  lemma {:induction false} ProjectTwice(v: Json, t: Tree, a: Option<nat>, b: Option<nat>)
    ensures Project(Project(v, t, a), t, b) == Project(v, t, MinCap(a, b))
  {
    hide Project, Within, Selected, Visible;
    forall at ensures Visible(Project(Project(v, t, a), t, b), at) == Visible(Project(v, t, MinCap(a, b)), at) {
      ProjectShows(Project(v, t, a), t, b, at);
      ProjectShows(v, t, a, at);
      ProjectShows(v, t, MinCap(a, b), at);
      WithinBoth(at, a, b);
    }
    JsonExtensional(Project(Project(v, t, a), t, b), Project(v, t, MinCap(a, b)));
  }

  lemma {:induction false} ProjectIdempotent(v: Json, t: Tree, cap: Option<nat>)
    ensures Project(Project(v, t, cap), t, cap) == Project(v, t, cap)
  {
    ProjectTwice(v, t, cap, cap);
  }

  /** Selecting and capping are independent: select with the trie, then truncate every list. */
  lemma {:induction false} ProjectIsSelectThenTruncate(v: Json, t: Tree, cap: Option<nat>)
    ensures Project(v, t, cap) == Project(Project(v, t, None), ALL, cap)
    ensures Project(v, t, cap) == Project(Project(v, ALL, cap), t, None)
  {
    forall at
      ensures Visible(Project(v, t, cap), at) == Visible(Project(Project(v, t, None), ALL, cap), at)
      ensures Visible(Project(v, t, cap), at) == Visible(Project(Project(v, ALL, cap), t, None), at)
    {
      ProjectShows(v, t, cap, at);
      ProjectShows(v, t, None, at);
      ProjectShows(Project(v, t, None), ALL, cap, at);
      ProjectShows(v, ALL, cap, at);
      ProjectShows(Project(v, ALL, cap), t, None, at);
    }
    JsonExtensional(Project(v, t, cap), Project(Project(v, t, None), ALL, cap));
    JsonExtensional(Project(v, t, cap), Project(Project(v, ALL, cap), t, None));
  }

  /** With nothing selected and no cap the value is returned unchanged. */
  lemma ProjectAllUncapped(v: Json)
    ensures ProjectValue(v, [], None) == v
  {
    forall at ensures Visible(Project(v, ALL, None), at) == Visible(v, at) { ProjectShows(v, ALL, None, at); }
    JsonExtensional(Project(v, ALL, None), v);
  }

  /** Every list, at every depth of a capped projection, has at most `cap` items. */
  lemma ListsBounded(v: Json, paths: seq<string>, cap: nat, at: Location)
    ensures var tip := Visible(ProjectValue(v, paths, Some(cap)), at);
      tip.Some? && tip.value.List? ==> tip.value.length <= cap
  {
    ProjectShows(v, PathTree(paths), Some(cap), at);
  }

  lemma {:induction false} NearLeafIsSelected(t: Tree, p: seq<string>, m: seq<string>)
    requires NodeIn(t, m) && Sub(t, m) == ALL && (p <= m || m <= p)
    ensures Selected(t, p)
    decreases |p|
  {
    if p != [] && m != [] {
      if p <= m { assert p[1..] <= m[1..]; } else { assert m[1..] <= p[1..]; }
      NearLeafIsSelected(t.kids[p[0]], p[1..], m[1..]);
    }
  }

  lemma {:induction false} SelectedIsNearLeaf(t: Tree, p: seq<string>) returns (m: seq<string>)
    requires Selected(t, p)
    ensures NodeIn(t, m) && Sub(t, m) == ALL && (p <= m || m <= p)
    decreases |p|
  {
    if p == [] || t.kids == map[] {
      m := SomeLeaf(t);
    } else {
      var r := SelectedIsNearLeaf(t.kids[p[0]], p[1..]);
      m := [p[0]] + r;
      assert m[1..] == r && p == [p[0]] + p[1..];
      if p[1..] <= r { assert p <= m; } else { assert m <= p; }
    }
  }

  lemma {:induction false} SomeLeaf(t: Tree) returns (m: seq<string>)
    ensures NodeIn(t, m) && Sub(t, m) == ALL
  {
    m := [];
    if t.kids != map[] {
      var k :| k in t.kids;
      var r := SomeLeaf(t.kids[k]);
      m := [k] + r;
      assert m[1..] == r;
    }
  }

  /**
   What survives a selection: the locations whose key path is a prefix of, or extends, a maximal
   requested path. A path that another requested path extends selects nothing by itself.
   */
  lemma SurvivesIffNearMaximalPath(v: Json, paths: seq<string>, at: Location)
    requires paths != []
    ensures Visible(ProjectValue(v, paths, None), at).Some? <==>
      Visible(v, at).Some? && exists m :: Maximal(paths, m) && (Keys(at) <= m || m <= Keys(at))
    ensures var shown := Visible(ProjectValue(v, paths, None), at); shown.Some? ==> shown == Visible(v, at)
  {
    var t, p := PathTree(paths), Keys(at);
    ProjectShows(v, t, None, at);
    assert t.kids != map[] by {
      var parts := Split(paths[|paths| - 1]);
      assert t == Insert(PathTree(paths[..|paths| - 1]), parts) && parts[0] in t.kids;
    }
    if Selected(t, p) {
      var m := SelectedIsNearLeaf(t, p);
      assert m != [];
      LeavesAreMaximalPaths(paths, m);
    }
    forall m | Maximal(paths, m) && (p <= m || m <= p) ensures Selected(t, p) {
      LeavesAreMaximalPaths(paths, m);
      NearLeafIsSelected(t, p, m);
    }
  }

  lemma {:induction false} FreshKey(keys: set<string>) returns (k: string)
    ensures forall o :: o in keys ==> |o| < |k|
  {
    if keys == {} { k := ""; } else {
      var o :| o in keys;
      var r := FreshKey(keys - {o});
      k := if |o| < |r| then r else o + "x";
    }
  }

  lemma {:induction false} SelectedBelow(t: Tree, m: seq<string>, k: string)
    requires NodeIn(t, m)
    ensures Selected(t, m + [k]) ==> Sub(t, m) == ALL || k in Sub(t, m).kids
    decreases |m|
  {
    if m != [] {
      assert (m + [k])[1..] == m[1..] + [k];
      SelectedBelow(t.kids[m[0]], m[1..], k);
    }
  }

  /** A chain of records down the given keys, and the location of its end. */
  function Chain(keys: seq<string>): Json {
    if keys == [] then Scalar("") else Obj(map[keys[0] := Chain(keys[1..])])
  }

  function Down(keys: seq<string>): Location {
    if keys == [] then [] else [Key(keys[0])] + Down(keys[1..])
  }

  lemma {:induction false} ChainShows(keys: seq<string>)
    ensures Keys(Down(keys)) == keys && Visible(Chain(keys), Down(keys)) == Some(Leaf(""))
  {
    if keys != [] {
      ChainShows(keys[1..]);
      assert Down(keys)[1..] == Down(keys[1..]);
    }
  }

  /** Whatever the value, all that it holds at and below `m` survives. */
  ghost predicate KeepsSubtree(paths: seq<string>, m: seq<string>) {
    forall v, at :: m <= Keys(at) ==> Visible(ProjectValue(v, paths, None), at) == Visible(v, at)
  }

  /**
   The docstring's "a fully consumed path keeps the whole subtree below it" holds of a requested
   path exactly when no other requested path extends it.
   */
  lemma KeepsSubtreeIffMaximal(paths: seq<string>, s: string)
    requires s in paths
    ensures KeepsSubtree(paths, Split(s)) <==> Maximal(paths, Split(s))
  {
    var t, m := PathTree(paths), Split(s);
    LeavesAreMaximalPaths(paths, m);
    TrieIsPrefixClosure(paths, m);
    if Maximal(paths, m) {
      forall v, at | m <= Keys(at) ensures Visible(ProjectValue(v, paths, None), at) == Visible(v, at) {
        NearLeafIsSelected(t, Keys(at), m);
        ProjectShows(v, t, None, at);
      }
    } else {
      var k := FreshKey(Sub(t, m).kids.Keys);
      SelectedBelow(t, m, k);
      var lost := m + [k];
      assert m <= lost;
      ChainShows(lost);
      ProjectShows(Chain(lost), t, None, Down(lost));
      assert Visible(ProjectValue(Chain(lost), paths, None), Down(lost)) != Visible(Chain(lost), Down(lost));
    }
  }

  lemma LongerPathTrees()
    ensures PathTree(["a"]) == Node(map["a" := ALL])
    ensures PathTree(["a", "a.b"]) == Node(map["a" := Node(map["b" := ALL])])
  {
    SplitFirst("a", "b");
    SplitFirst("b", "");
    assert "a" + ("." + "b") == "a.b";
    var one: seq<string>, two: seq<string> := ["a"], ["a", "a.b"];
    assert one[..0] == [] && two[..1] == one;
    assert Split("a") == ["a"] && Split("a.b") == ["a", "b"];
    assert ["a"][1..] == [] && ["a", "b"][1..] == ["b"] && ["b"][1..] == [];
    assert Insert(ALL, ["a"]) == Node(map["a" := ALL]);
    assert Insert(ALL, ["b"]) == Node(map["b" := ALL]);
  }

  lemma ProjectAt(fields: map<string, Json>, kids: map<string, Tree>, key: string)
    requires key in fields && kids.Keys == {key}
    ensures Project(Obj(fields), Node(kids), None) == Obj(map[key := Project(fields[key], kids[key], None)])
  {
    assert kids != map[];
    assert Project(Obj(fields), Node(kids), None).fields == map[key := Project(fields[key], kids[key], None)];
  }

  /** Asking for more shows less: `a` alone keeps all of `a`, and `a` together with `a.b` loses `a.c`. */
  lemma LongerPathNarrows()
    ensures var v := Obj(map["a" := Obj(map["b" := Scalar("1"), "c" := Scalar("2")])]);
      && ProjectValue(v, ["a"], None) == v
      && ProjectValue(v, ["a", "a.b"], None) == Obj(map["a" := Obj(map["b" := Scalar("1")])])
  {
    LongerPathTrees();
    assert PathTree([]) == ALL;
    hide PathTree, Project;
    ProjectAllUncapped(Scalar("1"));
    var a := Obj(map["b" := Scalar("1"), "c" := Scalar("2")]);
    ProjectAllUncapped(a);
    ProjectAt(map["a" := a], map["a" := ALL], "a");
    ProjectAt(a.fields, map["b" := ALL], "b");
    ProjectAt(map["a" := a], map["a" := Node(map["b" := ALL])], "a");
  }
}
