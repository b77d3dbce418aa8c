/**
 Layered config composition (src/mcp_broker/config_layers.py): a recursive deep merge that keeps
 three structures in step, the effective tree, the layer each leaf came from, and the conflicts.

 Here a path is the sequence of keys from the root, and entries and conflicts are found by it. In the
 source they are found by dotted strings: `LayeredConfig` has that form, and says when the two agree.
 */
module ConfigLayers {
  import opened Prelude

  type Key = string
  type Path = seq<Key>
  type Entries = map<Key, Value>

  datatype Value =
    | Scalar(text: string)
    | Items(items: seq<Value>)
    | Mapping(entries: Entries)

  /** What a provenance entry records: the layer's name and its source file. */
  datatype Tag = Tag(layer: string, source: string)
  datatype Layer = Layer(tag: Tag, data: Entries)
  datatype Conflict = Conflict(path: Path, previousLayer: string, newLayer: string)

  /** The three structures the merge updates together. */
  datatype State = State(target: Entries, prov: map<Path, Tag>, conflicts: seq<Conflict>)

  const EMPTY := State(map[], map[], [])

  predicate IsSecretRef(v: Value) {
    v.Mapping? && v.entries.Keys == {"secret_ref"}
  }

  /** A mapping the merge descends into; a secret reference is a leaf. */
  predicate IsPlain(v: Value) {
    v.Mapping? && !IsSecretRef(v)
  }

  /** The test in `_merge_mapping` that decides between descending and replacing. */
  predicate Descends(before: Value, incoming: Value) {
    before.Mapping? && IsPlain(incoming)
  }

  // ---------------------------------------------------------------------------------------
  // The merge as the source performs it
  // ---------------------------------------------------------------------------------------

  /** `_previous_layer_for_path`; `None` is the "missing provenance" failure. */
  function PreviousLayer(prov: map<Path, Tag>, path: Path): Option<string> {
    if path in prov then Some(prov[path].layer) else
      var layers := set q | q in prov && path < q :: prov[q].layer;
      if |layers| == 1 then
        Single(layers);
        var l :| l in layers; Some(l)
      else if layers != {} then Some("mixed") else None
  }

  lemma Single(s: set<string>)
    requires |s| == 1
    ensures exists x :: x in s
    ensures forall x, y :: x in s && y in s ==> x == y
  {
    var x :| x in s;
    assert |s - {x}| == 0;
  }

  /** `_clear_provenance`. */
  function Clear(prov: map<Path, Tag>, path: Path): map<Path, Tag> {
    map q | q in prov && !(path <= q) :: prov[q]
  }

  /** The paths `_record_provenance` writes for a value placed at `path`. */
  function LeavesFrom(v: Value, path: Path): set<Path>
    decreases v, 1
  {
    if IsPlain(v) then LeavesUnder(v, v.entries.Keys, path) else {path}
  }

  function LeavesUnder(v: Value, keys: set<Key>, path: Path): set<Path>
    requires v.Mapping? && keys <= v.entries.Keys
    decreases v, 0
  {
    set k, p | k in keys && p in LeavesFrom(v.entries[k], path + [k]) :: p
  }

  function Record(prov: map<Path, Tag>, v: Value, tag: Tag, path: Path): map<Path, Tag> {
    Stamp(prov, LeavesFrom(v, path), tag)
  }

  function Stamp(prov: map<Path, Tag>, leaves: set<Path>, tag: Tag): map<Path, Tag> {
    prov + map q | q in leaves :: tag
  }

  /** One iteration of the loop in `_merge_mapping`. */
  function MergeKey(k: Key, st: State, incoming: Entries, tag: Tag, path: Path): Option<State>
    requires k in incoming
    decreases Mapping(incoming), 0
  {
    var child := path + [k];
    if k in st.target && Descends(st.target[k], incoming[k]) then
      assert incoming[k] == Mapping(incoming[k].entries);
      match Merge(st.(target := st.target[k].entries), incoming[k].entries, tag, child)
      case None => None
      case Some(sub) => Some(sub.(target := st.target[k := Mapping(sub.target)]))
    else if k in st.target && st.target[k] != incoming[k] then
      match PreviousLayer(st.prov, child)
      case None => None
      case Some(previous) =>
        Some(State(st.target[k := incoming[k]],
                   Record(Clear(st.prov, child), incoming[k], tag, child),
                   st.conflicts + [Conflict(child, previous, tag.layer)]))
    else
      Some(st.(target := st.target[k := incoming[k]],
               prov := Record(st.prov, incoming[k], tag, child)))
  }

  function MergeKeys(keys: seq<Key>, st: State, incoming: Entries, tag: Tag, path: Path): Option<State>
    requires forall k :: k in keys ==> k in incoming
    decreases Mapping(incoming), 1, |keys|
  {
    if keys == [] then Some(st) else
      match MergeKey(keys[0], st, incoming, tag, path)
      case None => None
      case Some(next) => MergeKeys(keys[1..], next, incoming, tag, path)
  }

  /** `_merge_mapping`: `st.target` is the sub-tree at `path`, `st.prov` the whole provenance. */
  function Merge(st: State, incoming: Entries, tag: Tag, path: Path): Option<State>
    decreases Mapping(incoming), 2
  {
    MergeKeys(Sorted(incoming.Keys), st, incoming, tag, path)
  }

  /** The fold of `compose_layered_config` after validation; `None` when a merge fails. */
  function Compose(layers: seq<Layer>): Option<State> {
    if layers == [] then Some(EMPTY) else MergeOnto(Compose(layers[..|layers| - 1]), layers[|layers| - 1])
  }

  function MergeOnto(before: Option<State>, layer: Layer): Option<State> {
    if before.None? then None else Merge(before.value, layer.data, layer.tag, [])
  }

  // ---------------------------------------------------------------------------------------
  // Trees alone
  // ---------------------------------------------------------------------------------------

  /** `r` leads from `v` through plain mappings to a leaf: a scalar, a list or a secret reference. */
  predicate LeafBelow(v: Value, r: Path)
    decreases |r|
  {
    if IsPlain(v) then r != [] && r[0] in v.entries && LeafBelow(v.entries[r[0]], r[1..])
    else r == []
  }

  /** `p` is a leaf path of a configuration document. */
  predicate LeafIn(m: Entries, p: Path) {
    p != [] && p[0] in m && LeafBelow(m[p[0]], p[1..])
  }

  function Lookup(m: Entries, p: Path): Option<Value>
    decreases |p|
  {
    if p == [] || p[0] !in m then None
    else if |p| == 1 then Some(m[p[0]])
    else if m[p[0]].Mapping? then Lookup(m[p[0]].entries, p[1..])
    else None
  }

  /** "Maps merge recursively. Lists and scalar values are replaced by the later layer." */
  function Override(t: Entries, i: Entries): Entries
    decreases Mapping(i)
  {
    map k | k in t.Keys + i.Keys :: OverrideAt(t, i, k)
  }

  function OverrideAt(t: Entries, i: Entries, k: Key): Value
    requires k in t.Keys + i.Keys
    decreases Mapping(i), 0
  {
    if k !in i then t[k]
    else if k in t && Descends(t[k], i[k]) then
      assert i[k] == Mapping(i[k].entries);
      Mapping(Override(t[k].entries, i[k].entries))
    else i[k]
  }

  /** `i` replaces the value `t` has at `q` by a different one. */
  predicate Replaces(t: Entries, i: Entries, q: Path)
    decreases |q|
  {
    q != [] && q[0] in t && q[0] in i &&
    if Descends(t[q[0]], i[q[0]]) then Replaces(t[q[0]].entries, i[q[0]].entries, q[1..])
    else |q| == 1 && t[q[0]] != i[q[0]]
  }

  // ---------------------------------------------------------------------------------------
  // Leaves and paths
  // ---------------------------------------------------------------------------------------

  lemma {:induction false} LeavesFromAreLeaves(v: Value, path: Path, p: Path)
    ensures p in LeavesFrom(v, path) <==> path <= p && LeafBelow(v, p[|path|..])
  {
    if IsPlain(v) {
      forall k | k in v.entries
        ensures p in LeavesFrom(v.entries[k], path + [k]) <==>
                path < p && p[|path|] == k && LeafBelow(v.entries[k], p[|path|..][1..])
      {
        LeavesFromAreLeaves(v.entries[k], path + [k], p);
        if path + [k] <= p { assert p[|path|..][1..] == p[|path + [k]|..]; }
        if path < p && p[|path|] == k {
          assert path + [k] <= p;
          assert p[|path|..][1..] == p[|path + [k]|..];
        }
      }
    } else {
      assert path <= p ==> p == path + p[|path|..];
      assert p == path ==> p[|path|..] == [];
    }
  }

  lemma SplitPath(path: Path, q: Path)
    requires q != []
    ensures path + q == (path + [q[0]]) + q[1..]
    ensures path + [q[0]] <= path + q
    ensures (path + q)[|path| + 1..] == q[1..]
  {
  }

  // ---------------------------------------------------------------------------------------
  // One merge, from any state
  // ---------------------------------------------------------------------------------------

  /** `b` has the same entries as `a` except possibly at or below `root`. */
  ghost predicate SameOutside(a: map<Path, Tag>, b: map<Path, Tag>, root: Path) {
    forall p :: !(root <= p) ==> (p in a <==> p in b) && (p in a ==> a[p] == b[p])
  }

  /** As `SameOutside`, and the entry at `root` itself is untouched too. */
  ghost predicate SameNotBelow(a: map<Path, Tag>, b: map<Path, Tag>, root: Path) {
    forall p :: !(root < p) ==> (p in a <==> p in b) && (p in a ==> a[p] == b[p])
  }

  lemma {:induction false} MergeKeyFrame(k: Key, st: State, incoming: Entries, tag: Tag, path: Path)
    requires k in incoming && MergeKey(k, st, incoming, tag, path).Some?
    ensures var s := MergeKey(k, st, incoming, tag, path).value;
      && s.target == st.target[k := OverrideAt(st.target, incoming, k)]
      && SameOutside(st.prov, s.prov, path + [k])
    decreases Mapping(incoming), 0
  {
    if k in st.target && Descends(st.target[k], incoming[k]) {
      assert incoming[k] == Mapping(incoming[k].entries);
      MergeFrame(st.(target := st.target[k].entries), incoming[k].entries, tag, path + [k]);
    } else {
      ReplaceFrame(k, st, incoming, tag, path);
    }
  }

  lemma ReplaceFrame(k: Key, st: State, incoming: Entries, tag: Tag, path: Path)
    requires k in incoming && (k in st.target ==> !Descends(st.target[k], incoming[k]))
    requires MergeKey(k, st, incoming, tag, path).Some?
    ensures var s := MergeKey(k, st, incoming, tag, path).value;
      && s.target == st.target[k := OverrideAt(st.target, incoming, k)]
      && SameOutside(st.prov, s.prov, path + [k])
  {
    RecordFrame(st.prov, incoming[k], tag, path + [k]);
  }

  lemma RecordFrame(prov: map<Path, Tag>, v: Value, tag: Tag, path: Path)
    ensures SameOutside(prov, Record(prov, v, tag, path), path)
    ensures SameOutside(prov, Record(Clear(prov, path), v, tag, path), path)
  {
    forall p ensures p in LeavesFrom(v, path) ==> path <= p { LeavesFromAreLeaves(v, path, p); }
  }

  lemma {:induction false} MergeKeysFrame(keys: seq<Key>, st: State, incoming: Entries, tag: Tag, path: Path)
    requires forall k :: k in keys ==> k in incoming
    requires forall i, j :: 0 <= i < j < |keys| ==> keys[i] != keys[j]
    requires MergeKeys(keys, st, incoming, tag, path).Some?
    ensures var s := MergeKeys(keys, st, incoming, tag, path).value;
      && s.target.Keys == st.target.Keys + (set k | k in keys)
      && (forall k :: k in s.target ==>
           s.target[k] == if k in keys then OverrideAt(st.target, incoming, k) else st.target[k])
      && SameNotBelow(st.prov, s.prov, path)
    decreases Mapping(incoming), 1, |keys|
  {
    hide MergeKey;
    if keys != [] {
      var next := MergeKey(keys[0], st, incoming, tag, path).value;
      MergeKeyFrame(keys[0], st, incoming, tag, path);
      MergeKeysFrame(keys[1..], next, incoming, tag, path);
    }
  }

  lemma KeptAt(t: Entries, i: Entries, k: Key)
    requires k in t && k !in i
    ensures OverrideAt(t, i, k) == t[k]
  {
  }

  lemma OverrideIs(t: Entries, i: Entries, m: Entries)
    requires m.Keys == t.Keys + i.Keys
    requires forall k :: k in m ==> m[k] == if k in i then OverrideAt(t, i, k) else t[k]
    ensures m == Override(t, i)
  {
    hide OverrideAt;
    forall k | k in m ensures m[k] == OverrideAt(t, i, k) {
      if k !in i { KeptAt(t, i, k); }
    }
    var o := Override(t, i);
    assert o.Keys == m.Keys;
  }

  lemma {:induction false} MergeAllKeysFrame(keys: seq<Key>, st: State, incoming: Entries, tag: Tag, path: Path)
    requires forall k :: k in keys <==> k in incoming
    requires forall i, j :: 0 <= i < j < |keys| ==> keys[i] != keys[j]
    requires MergeKeys(keys, st, incoming, tag, path).Some?
    ensures var s := MergeKeys(keys, st, incoming, tag, path).value;
      s.target == Override(st.target, incoming) && SameNotBelow(st.prov, s.prov, path)
    decreases Mapping(incoming), 1, |keys| + 1
  {
    MergeKeysFrame(keys, st, incoming, tag, path);
    OverrideIs(st.target, incoming, MergeKeys(keys, st, incoming, tag, path).value.target);
  }

  /** From any state, a successful merge computes the right-biased override and stays below `path`. */
  lemma {:induction false} MergeFrame(st: State, incoming: Entries, tag: Tag, path: Path)
    requires Merge(st, incoming, tag, path).Some?
    ensures var s := Merge(st, incoming, tag, path).value;
      s.target == Override(st.target, incoming) && SameNotBelow(st.prov, s.prov, path)
    decreases Mapping(incoming), 2
  {
    MergeAllKeysFrame(Sorted(incoming.Keys), st, incoming, tag, path);
  }

  /** What a merge of many keys does at one of them: `m` and `s'` frame the turn of key `k`. */
  lemma {:induction false} MergeKeysLocal(keys: seq<Key>, st: State, incoming: Entries, tag: Tag, path: Path, k: Key)
    returns (m: State)
    requires forall x :: x in keys ==> x in incoming
    requires forall i, j :: 0 <= i < j < |keys| ==> keys[i] != keys[j]
    requires MergeKeys(keys, st, incoming, tag, path).Some? && k in keys
    ensures MergeKey(k, m, incoming, tag, path).Some?
    ensures (k in m.target <==> k in st.target) && (k in st.target ==> m.target[k] == st.target[k])
    ensures SameBelow(st.prov, m.prov, path + [k])
    ensures var s, s' := MergeKeys(keys, st, incoming, tag, path).value, MergeKey(k, m, incoming, tag, path).value;
      SameBelow(s'.prov, s.prov, path + [k]) && k in s.target && k in s'.target && s.target[k] == s'.target[k]
  {
    var next := MergeKey(keys[0], st, incoming, tag, path).value;
    MergeKeyFrame(keys[0], st, incoming, tag, path);
    if k == keys[0] {
      m := st;
      MergeKeysElsewhere(keys[1..], next, incoming, tag, path, k);
    } else {
      m := MergeKeysLocal(keys[1..], next, incoming, tag, path, k);
      SiblingsDisjoint(st.prov, next.prov, path, keys[0], k);
    }
  }

  lemma SiblingsDisjoint(a: map<Path, Tag>, b: map<Path, Tag>, path: Path, k: Key, o: Key)
    requires k != o && SameOutside(a, b, path + [k])
    ensures SameBelow(a, b, path + [o])
  {
    forall p | path + [o] <= p
      ensures (p in a <==> p in b) && (p in a ==> a[p] == b[p])
    {
      assert p[|path|] == o;
      assert !(path + [k] <= p);
    }
  }

  ghost predicate SameBelow(a: map<Path, Tag>, b: map<Path, Tag>, root: Path) {
    forall p :: root <= p ==> (p in a <==> p in b) && (p in a ==> a[p] == b[p])
  }

  lemma {:induction false} MergeKeysElsewhere(keys: seq<Key>, st: State, incoming: Entries, tag: Tag,
                                             path: Path, k: Key)
    requires forall x :: x in keys ==> x in incoming
    requires MergeKeys(keys, st, incoming, tag, path).Some? && k !in keys
    ensures var s := MergeKeys(keys, st, incoming, tag, path).value;
      SameBelow(st.prov, s.prov, path + [k]) &&
      (k in st.target ==> k in s.target && s.target[k] == st.target[k])
  {
    if keys != [] {
      var next := MergeKey(keys[0], st, incoming, tag, path).value;
      MergeKeyFrame(keys[0], st, incoming, tag, path);
      SiblingsDisjoint(st.prov, next.prov, path, keys[0], k);
      MergeKeysElsewhere(keys[1..], next, incoming, tag, path, k);
    }
  }

  lemma PreviousLayerLocal(a: map<Path, Tag>, b: map<Path, Tag>, root: Path, p: Path)
    requires SameBelow(a, b, root) && root <= p
    ensures PreviousLayer(a, p) == PreviousLayer(b, p)
  {
    var la := set q | q in a && p < q :: a[q].layer;
    var lb := set q | q in b && p < q :: b[q].layer;
    assert forall q :: (q in a || q in b) && p < q ==> root <= q;
    assert la == lb;
    if |la| == 1 { Single(la); }
  }

  lemma PreviousLayerElsewhere(a: map<Path, Tag>, b: map<Path, Tag>, path: Path, k: Key, p: Path)
    requires SameOutside(a, b, path + [k]) && path < p && p[|path|] != k
    ensures PreviousLayer(a, p) == PreviousLayer(b, p)
  {
    var o := p[|path|];
    assert path + [o] <= p;
    SiblingsDisjoint(a, b, path, k, o);
    PreviousLayerLocal(a, b, path + [o], p);
  }

  // ---------------------------------------------------------------------------------------
  // The entries after a merge, and when it fails, from any state
  // ---------------------------------------------------------------------------------------

  /** `i` replaces the value that `t` has at `q` or above it, so an entry at `q` is cleared. */
  predicate Cuts(t: Entries, i: Entries, q: Path)
    decreases |q|
  {
    q != [] && q[0] in t && q[0] in i &&
    if Descends(t[q[0]], i[q[0]]) then Cuts(t[q[0]].entries, i[q[0]].entries, q[1..]) else t[q[0]] != i[q[0]]
  }

  /** An entry is there afterwards if the layer has the leaf, and then it names the layer, or if it survived. */
  ghost predicate EntryAfter(st: State, i: Entries, tag: Tag, path: Path, s: State, q: Path) {
    && (path + q in s.prov <==> LeafIn(i, q) || (path + q in st.prov && !Cuts(st.target, i, q)))
    && (path + q in s.prov ==> s.prov[path + q] == if LeafIn(i, q) then tag else st.prov[path + q])
  }

  /** From any state: what became of the entry at any path below `path`. */
  lemma {:induction false} MergeEntry(st: State, incoming: Entries, tag: Tag, path: Path, q: Path)
    requires q != [] && Merge(st, incoming, tag, path).Some?
    ensures EntryAfter(st, incoming, tag, path, Merge(st, incoming, tag, path).value, q)
    decreases |q|, 1
  {
    var keys := Sorted(incoming.Keys);
    SplitPath(path, q);
    if q[0] in incoming {
      var m := MergeKeysLocal(keys, st, incoming, tag, path, q[0]);
      MergeKeyEntry(m, incoming, tag, path, q);
      SameCuts(st.target, m.target, incoming, q);
    } else {
      MergeKeysElsewhere(keys, st, incoming, tag, path, q[0]);
    }
  }

  lemma SameCuts(t: Entries, u: Entries, i: Entries, q: Path)
    requires q != [] && (q[0] in t <==> q[0] in u) && (q[0] in t ==> t[q[0]] == u[q[0]])
    ensures Cuts(t, i, q) == Cuts(u, i, q)
  {
  }

  lemma {:induction false} MergeKeyEntry(m: State, incoming: Entries, tag: Tag, path: Path, q: Path)
    requires q != [] && q[0] in incoming && MergeKey(q[0], m, incoming, tag, path).Some?
    ensures EntryAfter(m, incoming, tag, path, MergeKey(q[0], m, incoming, tag, path).value, q)
    decreases |q|, 0
  {
    var k, child := q[0], path + [q[0]];
    SplitPath(path, q);
    if k in m.target && Descends(m.target[k], incoming[k]) {
      assert incoming[k] == Mapping(incoming[k].entries);
      var sub := m.(target := m.target[k].entries);
      if q[1..] == [] {
        assert path + q == child;
        MergeFrame(sub, incoming[k].entries, tag, child);
      } else {
        MergeEntry(sub, incoming[k].entries, tag, child, q[1..]);
      }
    } else {
      LeavesFromAreLeaves(incoming[k], child, path + q);
    }
  }

  /** `i` replaces the value at `q`, and nothing at or below `q` has an entry. */
  ghost predicate Unaccounted(prov: map<Path, Tag>, path: Path, t: Entries, i: Entries, q: Path) {
    Replaces(t, i, q) && forall p :: p in prov ==> !(path + q <= p)
  }

  lemma PreviousLayerNoneIff(prov: map<Path, Tag>, q: Path)
    ensures PreviousLayer(prov, q).None? <==> forall p :: p in prov ==> !(q <= p)
  {
    var layers := set p | p in prov && q < p :: prov[p].layer;
    if p :| p in prov && q <= p {
      if p != q { assert prov[p].layer in layers; }
    } else {
      assert layers == {};
    }
  }

  /** From any state, a merge fails exactly when it replaces a value that has no entry at or below it. */
  lemma {:induction false} MergeFailsIff(st: State, incoming: Entries, tag: Tag, path: Path)
    ensures Merge(st, incoming, tag, path).None? <==> exists q :: Unaccounted(st.prov, path, st.target, incoming, q)
    decreases Mapping(incoming), 2
  {
    var keys := Sorted(incoming.Keys);
    MergeKeysFailIff(keys, st, incoming, tag, path);
    if q :| Unaccounted(st.prov, path, st.target, incoming, q) { assert q[0] in keys; }
  }

  ghost predicate UnaccountedUnder(prov: map<Path, Tag>, path: Path, t: Entries, i: Entries, keys: seq<Key>) {
    exists q :: Unaccounted(prov, path, t, i, q) && q[0] in keys
  }

  lemma {:induction false} MergeKeysFailIff(keys: seq<Key>, st: State, incoming: Entries, tag: Tag, path: Path)
    requires forall k :: k in keys ==> k in incoming
    requires forall i, j :: 0 <= i < j < |keys| ==> keys[i] != keys[j]
    ensures MergeKeys(keys, st, incoming, tag, path).None? <==>
              UnaccountedUnder(st.prov, path, st.target, incoming, keys)
    decreases Mapping(incoming), 1, |keys|
  {
    if keys != [] {
      var k, rest := keys[0], keys[1..];
      MergeKeyFailsIff(k, st, incoming, tag, path);
      var r := MergeKey(k, st, incoming, tag, path);
      if r.Some? {
        MergeKeyFrame(k, st, incoming, tag, path);
        MergeKeysFailIff(rest, r.value, incoming, tag, path);
        UnaccountedLater(st, r.value, incoming, keys, path);
      } else {
        var q :| Unaccounted(st.prov, path, st.target, incoming, q) && q[0] in [k];
        assert q[0] in keys;
      }
    }
  }

  /** Once the first key is merged without failure, what is unaccounted under the rest was so before. */
  lemma UnaccountedLater(st: State, next: State, i: Entries, keys: seq<Key>, path: Path)
    requires keys != [] && keys[0] !in keys[1..] && keys[0] in i
    requires next.target == st.target[keys[0] := OverrideAt(st.target, i, keys[0])]
    requires SameOutside(st.prov, next.prov, path + [keys[0]])
    requires !UnaccountedUnder(st.prov, path, st.target, i, [keys[0]])
    ensures UnaccountedUnder(st.prov, path, st.target, i, keys) <==>
              UnaccountedUnder(next.prov, path, next.target, i, keys[1..])
  {
    var k, rest := keys[0], keys[1..];
    forall q: Path | q != [] && q[0] != k
      ensures Unaccounted(st.prov, path, st.target, i, q) <==> Unaccounted(next.prov, path, next.target, i, q)
    {
      SplitPath(path, q);
      SiblingsDisjoint(st.prov, next.prov, path, k, q[0]);
      assert Replaces(st.target, i, q) <==> Replaces(next.target, i, q);
      forall p | path + q <= p ensures p in st.prov <==> p in next.prov { assert path + [q[0]] <= p; }
    }
    if q :| Unaccounted(st.prov, path, st.target, i, q) && q[0] in keys {
      assert q[0] != k && q[0] in rest;
    }
    if q :| Unaccounted(next.prov, path, next.target, i, q) && q[0] in rest {
      assert q[0] in keys;
    }
  }

  lemma {:induction false} MergeKeyFailsIff(k: Key, st: State, incoming: Entries, tag: Tag, path: Path)
    requires k in incoming
    ensures MergeKey(k, st, incoming, tag, path).None? <==>
              UnaccountedUnder(st.prov, path, st.target, incoming, [k])
    decreases Mapping(incoming), 0
  {
    var child := path + [k];
    if k in st.target && Descends(st.target[k], incoming[k]) {
      assert incoming[k] == Mapping(incoming[k].entries);
      var t, i := st.target[k].entries, incoming[k].entries;
      MergeFailsIff(st.(target := t), i, tag, child);
      UnaccountedBelow(st.prov, path, st.target, incoming, k);
    } else {
      PreviousLayerNoneIff(st.prov, child);
      UnaccountedHere(st.prov, path, st.target, incoming, k);
    }
  }

  lemma UnaccountedBelow(prov: map<Path, Tag>, path: Path, t: Entries, i: Entries, k: Key)
    requires k in t && k in i && Descends(t[k], i[k])
    ensures UnaccountedUnder(prov, path, t, i, [k]) <==>
              exists q :: Unaccounted(prov, path + [k], t[k].entries, i[k].entries, q)
  {
    if r :| Unaccounted(prov, path + [k], t[k].entries, i[k].entries, r) {
      assert ([k] + r)[1..] == r && path + ([k] + r) == (path + [k]) + r;
      assert Unaccounted(prov, path, t, i, [k] + r) && ([k] + r)[0] in [k];
    }
    if q :| Unaccounted(prov, path, t, i, q) && q[0] in [k] {
      SplitPath(path, q);
      assert Unaccounted(prov, path + [k], t[k].entries, i[k].entries, q[1..]);
    }
  }

  lemma UnaccountedHere(prov: map<Path, Tag>, path: Path, t: Entries, i: Entries, k: Key)
    requires k in i && (k in t ==> !Descends(t[k], i[k]))
    ensures UnaccountedUnder(prov, path, t, i, [k]) <==>
              k in t && t[k] != i[k] && forall p :: p in prov ==> !(path + [k] <= p)
  {
    if k in t && t[k] != i[k] && forall p :: p in prov ==> !(path + [k] <= p) {
      assert Unaccounted(prov, path, t, i, [k]) && [k][0] in [k];
    }
    if q :| Unaccounted(prov, path, t, i, q) && q[0] in [k] { assert q == [k]; }
  }

  /** From any state, a merge that replaces nothing succeeds. */
  lemma MergeSucceeds(st: State, incoming: Entries, tag: Tag, path: Path)
    requires forall q :: !Replaces(st.target, incoming, q)
    ensures Merge(st, incoming, tag, path).Some?
  {
    MergeFailsIff(st, incoming, tag, path);
  }

  // ---------------------------------------------------------------------------------------
  // The conflict report
  // ---------------------------------------------------------------------------------------

  /** `c` reports the replacement at its own path, naming the layer that held it before the merge. */
  ghost predicate Reports(c: Conflict, prov: map<Path, Tag>, path: Path, t: Entries, i: Entries, layer: string) {
    path < c.path && Replaces(t, i, c.path[|path|..]) &&
    PreviousLayer(prov, c.path) == Some(c.previousLayer) && c.newLayer == layer
  }

  /** `log` reports every replacement below the given keys, once each, and nothing else. */
  ghost predicate ReportsAll(log: seq<Conflict>, prov: map<Path, Tag>, path: Path, t: Entries, i: Entries,
                             keys: seq<Key>, layer: string) {
    && (forall c :: c in log ==> Reports(c, prov, path, t, i, layer) && c.path[|path|] in keys)
    && (forall q :: q != [] && q[0] in keys && Replaces(t, i, q) ==> Logged(log, path + q))
    && OnceEach(log)
  }

  predicate Logged(log: seq<Conflict>, path: Path) {
    exists c :: c in log && c.path == path
  }

  predicate OnceEach(log: seq<Conflict>) {
    forall x, y :: 0 <= x < y < |log| ==> log[x].path != log[y].path
  }

  lemma {:induction false} MergeKeyReports(k: Key, st: State, incoming: Entries, tag: Tag, path: Path)
    returns (log: seq<Conflict>)
    requires k in incoming && MergeKey(k, st, incoming, tag, path).Some?
    ensures MergeKey(k, st, incoming, tag, path).value.conflicts == st.conflicts + log
    ensures ReportsAll(log, st.prov, path, st.target, incoming, [k], tag.layer)
    decreases Mapping(incoming), 0
  {
    var child := path + [k];
    if k in st.target && Descends(st.target[k], incoming[k]) {
      assert incoming[k] == Mapping(incoming[k].entries);
      log := MergeReports(st.(target := st.target[k].entries), incoming[k].entries, tag, child);
      ReportsFromBelow(log, st, incoming, k, path, tag.layer);
    } else if k in st.target && st.target[k] != incoming[k] {
      log := [Conflict(child, PreviousLayer(st.prov, child).value, tag.layer)];
      assert child[|path|..] == [k];
      forall q: Path | q != [] && q[0] in [k] && Replaces(st.target, incoming, q)
        ensures Logged(log, path + q)
      {
        assert log[0] in log && log[0].path == path + q;
      }
    } else {
      log := [];
    }
  }

  lemma ReportsLift(c: Conflict, st: State, i: Entries, k: Key, path: Path, layer: string)
    requires k in i && k in st.target && Descends(st.target[k], i[k])
    requires Reports(c, st.prov, path + [k], st.target[k].entries, i[k].entries, layer)
    ensures Reports(c, st.prov, path, st.target, i, layer) && c.path[|path|] == k
  {
    var q := c.path[|path|..];
    assert q[0] == k && q[1..] == c.path[|path + [k]|..];
  }

  lemma ReportsFromBelow(log: seq<Conflict>, st: State, i: Entries, k: Key, path: Path, layer: string)
    requires k in i && k in st.target && Descends(st.target[k], i[k])
    requires ReportsAll(log, st.prov, path + [k], st.target[k].entries, i[k].entries, Sorted(i[k].entries.Keys), layer)
    ensures ReportsAll(log, st.prov, path, st.target, i, [k], layer)
  {
    forall c | c in log ensures Reports(c, st.prov, path, st.target, i, layer) && c.path[|path|] in [k] {
      ReportsLift(c, st, i, k, path, layer);
    }
    forall q: Path | q != [] && q[0] in [k] && Replaces(st.target, i, q)
      ensures Logged(log, path + q)
    {
      CoveredFromBelow(log, st, i, k, path, layer, q);
    }
  }

  lemma CoveredFromBelow(log: seq<Conflict>, st: State, i: Entries, k: Key, path: Path, layer: string, q: Path)
    requires k in i && k in st.target && Descends(st.target[k], i[k])
    requires ReportsAll(log, st.prov, path + [k], st.target[k].entries, i[k].entries, Sorted(i[k].entries.Keys), layer)
    requires q != [] && q[0] == k && Replaces(st.target, i, q)
    ensures Logged(log, path + q)
  {
    var r := q[1..];
    assert Replaces(st.target[k].entries, i[k].entries, r);
    ReplacesStarts(st.target[k].entries, i[k].entries, r);
    var c :| c in log && c.path == (path + [k]) + r;
    SplitPath(path, q);
    assert (path + [k]) + r == path + q;
  }

  lemma ReplacesStarts(t: Entries, i: Entries, r: Path)
    requires Replaces(t, i, r)
    ensures r != [] && r[0] in Sorted(i.Keys)
  {
  }

  lemma {:induction false} MergeKeysReports(keys: seq<Key>, st: State, incoming: Entries, tag: Tag, path: Path)
    returns (log: seq<Conflict>)
    requires forall k :: k in keys ==> k in incoming
    requires forall i, j :: 0 <= i < j < |keys| ==> keys[i] != keys[j]
    requires MergeKeys(keys, st, incoming, tag, path).Some?
    ensures MergeKeys(keys, st, incoming, tag, path).value.conflicts == st.conflicts + log
    ensures ReportsAll(log, st.prov, path, st.target, incoming, keys, tag.layer)
    decreases Mapping(incoming), 1, |keys|
  {
    if keys == [] {
      log := [];
    } else {
      var k, rest := keys[0], keys[1..];
      var next := MergeKey(k, st, incoming, tag, path).value;
      MergeKeyFrame(k, st, incoming, tag, path);
      var first := MergeKeyReports(k, st, incoming, tag, path);
      var later := MergeKeysReports(rest, next, incoming, tag, path);
      ReportsJoin(first, later, st, next, incoming, keys, path, tag.layer);
      AppendTwice(st.conflicts, first, later);
      log := first + later;
    }
  }

  lemma AppendTwice(a: seq<Conflict>, b: seq<Conflict>, c: seq<Conflict>)
    ensures (a + b) + c == a + (b + c)
  {
  }

  /** What is reported later lies under another key, where nothing had changed. */
  lemma LaterReports(c: Conflict, st: State, next: State, i: Entries, k: Key, path: Path, layer: string)
    requires k in i && next.target == st.target[k := OverrideAt(st.target, i, k)]
    requires SameOutside(st.prov, next.prov, path + [k])
    requires Reports(c, next.prov, path, next.target, i, layer) && c.path[|path|] != k
    ensures Reports(c, st.prov, path, st.target, i, layer)
  {
    PreviousLayerElsewhere(st.prov, next.prov, path, k, c.path);
    var q := c.path[|path|..];
    assert q[0] != k && Replaces(next.target, i, q);
  }

  lemma ReportsJoin(first: seq<Conflict>, later: seq<Conflict>, st: State, next: State, i: Entries,
                    keys: seq<Key>, path: Path, layer: string)
    requires keys != [] && keys[0] !in keys[1..] && keys[0] in i
    requires next.target == st.target[keys[0] := OverrideAt(st.target, i, keys[0])]
    requires SameOutside(st.prov, next.prov, path + [keys[0]])
    requires ReportsAll(first, st.prov, path, st.target, i, [keys[0]], layer)
    requires ReportsAll(later, next.prov, path, next.target, i, keys[1..], layer)
    ensures ReportsAll(first + later, st.prov, path, st.target, i, keys, layer)
  {
    var k, rest := keys[0], keys[1..];
    assert forall x :: x in keys <==> x == k || x in rest;
    forall c | c in later ensures Reports(c, st.prov, path, st.target, i, layer) {
      LaterReports(c, st, next, i, k, path, layer);
    }
    forall q: Path | q != [] && q[0] in keys && Replaces(st.target, i, q)
      ensures Logged(first + later, path + q)
    {
      if q[0] == k {
        var c :| c in first && c.path == path + q;
        assert c in first + later;
      } else {
        assert Replaces(next.target, i, q);
        var c :| c in later && c.path == path + q;
        assert c in first + later;
      }
    }
    forall x, y | 0 <= x < |first| && 0 <= y < |later| ensures first[x].path != later[y].path {
      assert first[x] in first && later[y] in later;
    }
  }

  /** A merge logs exactly the replacements it makes, each with the layer named before the merge. */
  lemma {:induction false} MergeReports(st: State, incoming: Entries, tag: Tag, path: Path)
    returns (log: seq<Conflict>)
    requires Merge(st, incoming, tag, path).Some?
    ensures Merge(st, incoming, tag, path).value.conflicts == st.conflicts + log
    ensures ReportsAll(log, st.prov, path, st.target, incoming, Sorted(incoming.Keys), tag.layer)
    decreases Mapping(incoming), 2
  {
    log := MergeKeysReports(Sorted(incoming.Keys), st, incoming, tag, path);
  }

  /** Some entry strictly below `path` names this layer. */
  ghost predicate Beneath(prov: map<Path, Tag>, path: Path, layer: string) {
    exists q :: q in prov && path < q && prov[q].layer == layer
  }

  ghost predicate MixedBeneath(prov: map<Path, Tag>, path: Path) {
    exists a, b :: a != b && Beneath(prov, path, a) && Beneath(prov, path, b)
  }

  /** The layer reported for a value is its own; of a mapping, the one that all it holds is from, or "mixed". */
  lemma PreviousNames(prov: map<Path, Tag>, path: Path)
    requires PreviousLayer(prov, path).Some?
    ensures var layer := PreviousLayer(prov, path).value;
      if path in prov then layer == prov[path].layer
      else if MixedBeneath(prov, path) then layer == "mixed" else Beneath(prov, path, layer)
  {
    if path !in prov {
      var layers := set q | q in prov && path < q :: prov[q].layer;
      assert forall x :: x in layers <==> Beneath(prov, path, x);
      if |layers| == 1 {
        Single(layers);
      } else {
        var a :| a in layers;
        assert layers != {a};
        var b :| b in layers && b != a;
      }
    }
  }

  // ---------------------------------------------------------------------------------------
  // Merging the same layer twice
  // ---------------------------------------------------------------------------------------

  /** `t` already contains everything `i` would put there. */
  predicate Absorbed(t: Entries, i: Entries)
    decreases Mapping(i), 1
  {
    forall k :: k in i ==> AbsorbedAt(t, i, k)
  }

  predicate AbsorbedAt(t: Entries, i: Entries, k: Key)
    requires k in i
    decreases Mapping(i), 0
  {
    k in t &&
    if Descends(t[k], i[k]) then
      assert i[k] == Mapping(i[k].entries);
      Absorbed(t[k].entries, i[k].entries)
    else t[k] == i[k]
  }

  ghost predicate Carries(prov: map<Path, Tag>, path: Path, i: Entries, tag: Tag) {
    forall q :: LeafIn(i, q) ==> path + q in prov && prov[path + q] == tag
  }

  lemma {:induction false} AbsorbsSelf(i: Entries)
    ensures Absorbed(i, i)
    decreases Mapping(i)
  {
    forall k | k in i ensures AbsorbedAt(i, i, k) {
      if IsPlain(i[k]) {
        assert i[k] == Mapping(i[k].entries);
        AbsorbsSelf(i[k].entries);
      }
    }
  }

  lemma {:induction false} OverrideAbsorbs(t: Entries, i: Entries)
    ensures Absorbed(Override(t, i), i)
    decreases Mapping(i)
  {
    forall k | k in i ensures AbsorbedAt(Override(t, i), i, k) {
      if IsPlain(i[k]) {
        assert i[k] == Mapping(i[k].entries);
        if k in t && t[k].Mapping? { OverrideAbsorbs(t[k].entries, i[k].entries); } else { AbsorbsSelf(i[k].entries); }
      }
    }
  }

  lemma CarriesBelow(prov: map<Path, Tag>, path: Path, i: Entries, tag: Tag, k: Key)
    requires Carries(prov, path, i, tag) && k in i && IsPlain(i[k])
    ensures Carries(prov, path + [k], i[k].entries, tag)
  {
    forall q | LeafIn(i[k].entries, q)
      ensures (path + [k]) + q in prov && prov[(path + [k]) + q] == tag
    {
      assert (path + [k]) + q == path + ([k] + q);
      assert ([k] + q)[1..] == q;
      assert LeafIn(i, [k] + q);
    }
  }

  lemma RecordAgain(prov: map<Path, Tag>, path: Path, i: Entries, tag: Tag, k: Key)
    requires Carries(prov, path, i, tag) && k in i
    ensures Record(prov, i[k], tag, path + [k]) == prov
  {
    var child := path + [k];
    forall p | p in LeavesFrom(i[k], child) ensures p in prov && prov[p] == tag {
      LeavesFromAreLeaves(i[k], child, p);
      var q := p[|path|..];
      assert p == path + q && q[0] == k && q[1..] == p[|child|..];
      assert LeafIn(i, q);
    }
  }

  lemma {:induction false} MergeAbsorbed(st: State, incoming: Entries, tag: Tag, path: Path)
    requires Absorbed(st.target, incoming) && Carries(st.prov, path, incoming, tag)
    ensures Merge(st, incoming, tag, path) == Some(st)
    decreases Mapping(incoming), 1
  {
    MergeKeysAbsorbed(Sorted(incoming.Keys), st, incoming, tag, path);
  }

  lemma {:induction false} MergeKeysAbsorbed(keys: seq<Key>, st: State, incoming: Entries, tag: Tag, path: Path)
    requires forall k :: k in keys ==> k in incoming
    requires Absorbed(st.target, incoming) && Carries(st.prov, path, incoming, tag)
    ensures MergeKeys(keys, st, incoming, tag, path) == Some(st)
    decreases Mapping(incoming), 0, |keys|
  {
    if keys != [] {
      var k := keys[0];
      assert AbsorbedAt(st.target, incoming, k);
      assert st.target[k := st.target[k]] == st.target;
      if Descends(st.target[k], incoming[k]) {
        assert incoming[k] == Mapping(incoming[k].entries);
        CarriesBelow(st.prov, path, incoming, tag, k);
        MergeAbsorbed(st.(target := st.target[k].entries), incoming[k].entries, tag, path + [k]);
      } else {
        RecordAgain(st.prov, path, incoming, tag, k);
      }
      MergeKeysAbsorbed(keys[1..], st, incoming, tag, path);
    }
  }

  lemma MergeCarries(st: State, incoming: Entries, tag: Tag, path: Path)
    requires Merge(st, incoming, tag, path).Some?
    ensures Carries(Merge(st, incoming, tag, path).value.prov, path, incoming, tag)
  {
    forall q | LeafIn(incoming, q)
      ensures EntryAfter(st, incoming, tag, path, Merge(st, incoming, tag, path).value, q)
    {
      MergeEntry(st, incoming, tag, path, q);
    }
  }

  /** Merging a layer a second time succeeds and changes nothing: no value, no entry, no conflict. */
  lemma MergeTwiceIsOnce(st: State, incoming: Entries, tag: Tag)
    requires Merge(st, incoming, tag, []).Some?
    ensures var s := Merge(st, incoming, tag, []).value; Merge(s, incoming, tag, []) == Some(s)
  {
    MergeFrame(st, incoming, tag, []);
    OverrideAbsorbs(st.target, incoming);
    MergeCarries(st, incoming, tag, []);
    MergeAbsorbed(Merge(st, incoming, tag, []).value, incoming, tag, []);
  }

  lemma ComposeUnfold(layers: seq<Layer>, last: Layer)
    ensures Compose(layers + [last]) == MergeOnto(Compose(layers), last)
  {
    assert (layers + [last])[..|layers|] == layers;
  }
}
