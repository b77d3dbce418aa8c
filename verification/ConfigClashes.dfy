/**
 When dotted strings are as good as paths (src/mcp_broker/config_layers.py): keys may contain dots, and
 then one dotted string can stand for two places of the configuration, or lie below a place that is
 elsewhere. The composer with dotted strings refines the one with paths exactly where that cannot happen.
 */
module ConfigClashes {
  import opened Prelude
  import opened DottedPaths
  import opened ConfigLayers
  import opened ConfigComposition
  import opened LayeredConfig

  /** The composer takes `p` for a place at or below `q`, and it is not. */
  predicate Clash(q: Path, p: Path) {
    AtOrUnder(Join(q), Join(p)) && !(q <= p)
  }

  /** What is at or below a path is so for its dotted strings too. */
  lemma BelowIsUnder(q: Path, p: Path)
    requires q != [] && q <= p
    ensures AtOrUnder(Join(q), Join(p)) && (q != p ==> Join(q) != Join(p))
  {
    if q != p {
      JoinAppend(q, p[|q|..]);
      assert q + p[|q|..] == p;
      assert Join(p) == (Join(q) + ".") + Join(p[|q|..]);
    }
  }

  lemma DottedOrderIsPrefix(q: Path, p: Path)
    requires q != [] && !Clash(q, p)
    ensures AtOrUnder(Join(q), Join(p)) <==> q <= p
    ensures Join(q) + "." <= Join(p) <==> q < p
  {
    if q <= p { BelowIsUnder(q, p); }
  }

  /** Keys without dots never clash. */
  lemma DotFreeNeverClash(q: Path, p: Path)
    requires q != [] && p != [] && (forall k :: k in q + p ==> DotFree(k))
    ensures !Clash(q, p)
  {
    DottedTestIsPrefix(q, p);
  }

  // ---------------------------------------------------------------------------------------
  // The paths a merge meets
  // ---------------------------------------------------------------------------------------

  /** `p` leads through plain mappings to a value. */
  predicate NodeIn(m: Entries, p: Path)
    decreases |p|
  {
    p != [] && p[0] in m && (|p| == 1 || (IsPlain(m[p[0]]) && NodeIn(m[p[0]].entries, p[1..])))
  }

  lemma {:induction false} LeafIsNode(m: Entries, p: Path)
    requires LeafIn(m, p)
    ensures NodeIn(m, p)
    decreases |p|
  {
    if |p| > 1 { LeafIsNode(m[p[0]].entries, p[1..]); }
  }

  /** No place among `nodes` clashes with a leaf. */
  ghost predicate Apart(nodes: iset<Path>, leaves: iset<Path>) {
    [] !in nodes && leaves <= nodes && forall q, p :: q in nodes && p in leaves ==> !Clash(q, p)
  }

  /** The places and the leaves of `m`, seen from the root, are among these. */
  ghost predicate Fits(m: Entries, path: Path, nodes: iset<Path>, leaves: iset<Path>) {
    forall q :: (NodeIn(m, q) ==> path + q in nodes) && (LeafIn(m, q) ==> path + q in leaves)
  }

  lemma FitsAt(m: Entries, path: Path, k: Key, nodes: iset<Path>, leaves: iset<Path>)
    requires k in m && Fits(m, path, nodes, leaves)
    ensures path + [k] in nodes
    ensures IsPlain(m[k]) ==> Fits(m[k].entries, path + [k], nodes, leaves)
    ensures forall p :: p in LeavesFrom(m[k], path + [k]) ==> p in leaves
  {
    assert NodeIn(m, [k]);
    if IsPlain(m[k]) {
      forall q
        ensures (NodeIn(m[k].entries, q) ==> (path + [k]) + q in nodes)
        ensures (LeafIn(m[k].entries, q) ==> (path + [k]) + q in leaves)
      {
        assert (path + [k]) + q == path + ([k] + q) && ([k] + q)[1..] == q;
        assert NodeIn(m[k].entries, q) ==> NodeIn(m, [k] + q);
        assert LeafIn(m[k].entries, q) ==> LeafIn(m, [k] + q);
      }
    }
    forall p | p in LeavesFrom(m[k], path + [k]) ensures p in leaves {
      LeavesFromAreLeaves(m[k], path + [k], p);
      var q := [k] + p[|path| + 1..];
      assert q[1..] == p[|path + [k]|..] && p == path + q;
      assert LeafIn(m, q);
    }
  }

  // ---------------------------------------------------------------------------------------
  // Apart, the two composers do the same
  // ---------------------------------------------------------------------------------------

  function Named(c: Conflict): Report {
    Report(Join(c.path), c.previousLayer, c.newLayer)
  }

  function AllNamed(cs: seq<Conflict>): seq<Report> {
    seq(|cs|, i requires 0 <= i < |cs| => Named(cs[i]))
  }

  /** Each entry is found under the dotted string of its path, and there are no others. */
  ghost predicate MirrorsEntries(d: map<string, Tag>, prov: map<Path, Tag>) {
    && (forall p :: p in prov ==> Join(p) in d && d[Join(p)] == prov[p])
    && (forall s :: s in d ==> exists p :: p in prov && Join(p) == s)
  }

  ghost predicate Mirrors(b: Books, st: State) {
    b.target == st.target && MirrorsEntries(b.provenance, st.prov) && b.conflicts == AllNamed(st.conflicts)
  }

  ghost predicate Among(prov: map<Path, Tag>, leaves: iset<Path>) {
    forall p :: p in prov ==> p in leaves
  }

  lemma ClearMirrors(d: map<string, Tag>, prov: map<Path, Tag>, q: Path, nodes: iset<Path>, leaves: iset<Path>)
    requires MirrorsEntries(d, prov) && Among(prov, leaves) && Apart(nodes, leaves) && q in nodes
    ensures MirrorsEntries(ClearDotted(d, Join(q)), Clear(prov, q))
  {
    var d', prov' := ClearDotted(d, Join(q)), Clear(prov, q);
    forall p | p in prov ensures AtOrUnder(Join(q), Join(p)) <==> q <= p { DottedOrderIsPrefix(q, p); }
    forall s | s in d' ensures exists p :: p in prov' && Join(p) == s {
      var p :| p in prov && Join(p) == s;
      assert p in prov';
    }
  }

  lemma SameNameSamePlace(p: Path, q: Path, nodes: iset<Path>, leaves: iset<Path>)
    requires Apart(nodes, leaves) && p in leaves && q in leaves && Join(p) == Join(q)
    ensures p == q
  {
    assert p in nodes && q in nodes;
    DottedOrderIsPrefix(p, q);
    DottedOrderIsPrefix(q, p);
  }

  lemma StampMirrors(d: map<string, Tag>, prov: map<Path, Tag>, paths: set<Path>, tag: Tag,
                     nodes: iset<Path>, leaves: iset<Path>)
    requires MirrorsEntries(d, prov) && Among(prov, leaves) && Apart(nodes, leaves)
    requires forall p :: p in paths ==> p in leaves
    ensures MirrorsEntries(StampDotted(d, paths, tag), Stamp(prov, paths, tag))
    ensures Among(Stamp(prov, paths, tag), leaves)
  {
    var d', prov' := StampDotted(d, paths, tag), Stamp(prov, paths, tag);
    forall p | p in prov' ensures Join(p) in d' && d'[Join(p)] == prov'[p] {
      if p in paths {
        assert Join(p) in Dotted(paths);
      } else if Join(p) in Dotted(paths) {
        var q :| q in paths && Join(q) == Join(p);
        SameNameSamePlace(p, q, nodes, leaves);
      }
    }
    forall s | s in d' ensures exists p :: p in prov' && Join(p) == s {
      if s in Dotted(paths) {
        var p :| p in paths && Join(p) == s;
        assert p in prov';
      } else {
        var p :| p in prov && Join(p) == s;
        assert p in prov';
      }
    }
  }

  lemma PreviousMirrors(d: map<string, Tag>, prov: map<Path, Tag>, q: Path, nodes: iset<Path>, leaves: iset<Path>)
    requires MirrorsEntries(d, prov) && Among(prov, leaves) && Apart(nodes, leaves) && q in nodes
    ensures PreviousDotted(d, Join(q)) == PreviousLayer(prov, q)
  {
    forall p | p in prov
      ensures (Join(p) == Join(q) <==> p == q) && (Join(q) + "." <= Join(p) <==> q < p)
    {
      DottedOrderIsPrefix(q, p);
      if Join(p) == Join(q) && p != q { BelowIsUnder(q, p); }
    }
    var named := set s | s in d && Join(q) + "." <= s :: d[s].layer;
    var layers := set p | p in prov && q < p :: prov[p].layer;
    forall l | l in named ensures l in layers {
      var s :| s in d && Join(q) + "." <= s && d[s].layer == l;
      var p :| p in prov && Join(p) == s;
    }
    forall l | l in layers ensures l in named {
      var p :| p in prov && q < p && prov[p].layer == l;
      assert Join(p) in d;
    }
    assert named == layers;
    if |layers| == 1 { Single(layers); }
  }

  /** Both fail, or both succeed and agree. */
  ghost predicate SameOutcome(b: Option<Books>, st: Option<State>, leaves: iset<Path>) {
    (b.None? <==> st.None?) && (st.Some? ==> Mirrors(b.value, st.value) && Among(st.value.prov, leaves))
  }

  lemma {:induction false} MergeKeyMirrors(k: Key, b: Books, st: State, incoming: Entries, tag: Tag, path: Path,
                                          nodes: iset<Path>, leaves: iset<Path>)
    requires k in incoming && Mirrors(b, st) && Among(st.prov, leaves)
    requires Apart(nodes, leaves) && Fits(incoming, path, nodes, leaves)
    ensures SameOutcome(MergeKeyDotted(k, b, incoming, tag, path), MergeKey(k, st, incoming, tag, path), leaves)
    decreases Mapping(incoming), 0
  {
    FitsAt(incoming, path, k, nodes, leaves);
    if k in st.target && Descends(st.target[k], incoming[k]) {
      assert incoming[k] == Mapping(incoming[k].entries);
      var below := st.target[k].entries;
      MergeMirrors(b.(target := below), st.(target := below), incoming[k].entries, tag, path + [k], nodes, leaves);
    } else {
      ReplaceMirrors(k, b, st, incoming, tag, path, nodes, leaves);
    }
  }

  lemma AllNamedAppend(cs: seq<Conflict>, c: Conflict)
    ensures AllNamed(cs + [c]) == AllNamed(cs) + [Named(c)]
  {
  }

  lemma ClearedAmong(prov: map<Path, Tag>, q: Path, leaves: iset<Path>)
    requires Among(prov, leaves)
    ensures Among(Clear(prov, q), leaves)
  {
  }

  lemma ReplaceMirrors(k: Key, b: Books, st: State, incoming: Entries, tag: Tag, path: Path,
                       nodes: iset<Path>, leaves: iset<Path>)
    requires k in incoming && Mirrors(b, st) && Among(st.prov, leaves) && Apart(nodes, leaves)
    requires path + [k] in nodes && forall p :: p in LeavesFrom(incoming[k], path + [k]) ==> p in leaves
    requires k in st.target ==> !Descends(st.target[k], incoming[k])
    ensures SameOutcome(MergeKeyDotted(k, b, incoming, tag, path), MergeKey(k, st, incoming, tag, path), leaves)
  {
    hide MirrorsEntries, Apart, PreviousDotted, PreviousLayer, StampDotted, Stamp, LeavesFrom, ClearDotted, Clear;
    hide Join, Descends, AllNamed;
    var child := path + [k];
    var placed := LeavesFrom(incoming[k], child);
    if k in st.target && st.target[k] != incoming[k] {
      PreviousMirrors(b.provenance, st.prov, child, nodes, leaves);
      ClearMirrors(b.provenance, st.prov, child, nodes, leaves);
      ClearedAmong(st.prov, child, leaves);
      StampMirrors(ClearDotted(b.provenance, Join(child)), Clear(st.prov, child), placed, tag, nodes, leaves);
      if PreviousLayer(st.prov, child).Some? {
        AllNamedAppend(st.conflicts, Conflict(child, PreviousLayer(st.prov, child).value, tag.layer));
      }
    } else {
      StampMirrors(b.provenance, st.prov, placed, tag, nodes, leaves);
    }
  }

  lemma {:induction false} MergeKeysMirrors(keys: seq<Key>, b: Books, st: State, incoming: Entries, tag: Tag,
                                           path: Path, nodes: iset<Path>, leaves: iset<Path>)
    requires (forall k :: k in keys ==> k in incoming) && Mirrors(b, st) && Among(st.prov, leaves)
    requires Apart(nodes, leaves) && Fits(incoming, path, nodes, leaves)
    ensures SameOutcome(MergeKeysDotted(keys, b, incoming, tag, path), MergeKeys(keys, st, incoming, tag, path), leaves)
    decreases Mapping(incoming), 1, |keys|
  {
    hide Mirrors, Apart, Fits, Among;
    if keys != [] {
      MergeKeyMirrors(keys[0], b, st, incoming, tag, path, nodes, leaves);
      var d, m := MergeKeyDotted(keys[0], b, incoming, tag, path), MergeKey(keys[0], st, incoming, tag, path);
      if m.Some? { MergeKeysMirrors(keys[1..], d.value, m.value, incoming, tag, path, nodes, leaves); }
    }
  }

  lemma {:induction false} MergeMirrors(b: Books, st: State, incoming: Entries, tag: Tag, path: Path,
                                       nodes: iset<Path>, leaves: iset<Path>)
    requires Mirrors(b, st) && Among(st.prov, leaves)
    requires Apart(nodes, leaves) && Fits(incoming, path, nodes, leaves)
    ensures SameOutcome(MergeDotted(b, incoming, tag, path), Merge(st, incoming, tag, path), leaves)
    decreases Mapping(incoming), 2
  {
    MergeKeysMirrors(Sorted(incoming.Keys), b, st, incoming, tag, path, nodes, leaves);
  }

  ghost predicate PlaceOf(layers: seq<Layer>, p: Path) {
    exists i :: 0 <= i < |layers| && NodeIn(layers[i].data, p)
  }

  ghost predicate LeafOf(layers: seq<Layer>, p: Path) {
    exists i :: 0 <= i < |layers| && LeafIn(layers[i].data, p)
  }

  /** No place of any layer clashes with a leaf of any layer. */
  ghost predicate NoneClash(layers: seq<Layer>) {
    forall q, p :: PlaceOf(layers, q) && LeafOf(layers, p) ==> !Clash(q, p)
  }

  ghost predicate AllFit(layers: seq<Layer>, nodes: iset<Path>, leaves: iset<Path>) {
    forall i :: 0 <= i < |layers| ==> Fits(layers[i].data, [], nodes, leaves)
  }

  lemma {:induction false} ComposeMirrors(layers: seq<Layer>, nodes: iset<Path>, leaves: iset<Path>)
    requires Apart(nodes, leaves) && AllFit(layers, nodes, leaves)
    ensures SameOutcome(ComposeDotted(layers), Compose(layers), leaves)
  {
    hide Apart, Fits;
    if layers != [] {
      var init, last := layers[..|layers| - 1], layers[|layers| - 1];
      ComposeMirrors(init, nodes, leaves);
      if Compose(init).Some? {
        MergeMirrors(ComposeDotted(init).value, Compose(init).value, last.data, last.tag, [], nodes, leaves);
      }
    }
  }

  /** Both composers fail, or both succeed with the same document and the same entries and conflicts. */
  ghost predicate Matches(layers: seq<Layer>) {
    && (ComposeDotted(layers).None? <==> Compose(layers).None?)
    && (Compose(layers).Some? ==> Mirrors(ComposeDotted(layers).value, Compose(layers).value))
  }

  ghost function Places(layers: seq<Layer>): iset<Path> {
    iset p | PlaceOf(layers, p)
  }

  ghost function Leaves(layers: seq<Layer>): iset<Path> {
    iset p | LeafOf(layers, p)
  }

  lemma LayerFits(layers: seq<Layer>, i: nat)
    requires i < |layers|
    ensures Fits(layers[i].data, [], Places(layers), Leaves(layers))
  {
    hide NodeIn, LeafIn;
    forall q
      ensures (NodeIn(layers[i].data, q) ==> [] + q in Places(layers))
      ensures (LeafIn(layers[i].data, q) ==> [] + q in Leaves(layers))
    {
      assert [] + q == q;
    }
  }

  lemma LeafOfIsPlace(layers: seq<Layer>, p: Path)
    requires LeafOf(layers, p)
    ensures PlaceOf(layers, p)
  {
    var i :| 0 <= i < |layers| && LeafIn(layers[i].data, p);
    LeafIsNode(layers[i].data, p);
  }

  lemma LayersFit(layers: seq<Layer>)
    requires NoneClash(layers)
    ensures Apart(Places(layers), Leaves(layers)) && AllFit(layers, Places(layers), Leaves(layers))
  {
    hide Clash, LeafOf, Fits;
    forall p | LeafOf(layers, p) ensures PlaceOf(layers, p) { LeafOfIsPlace(layers, p); }
    forall i | 0 <= i < |layers| ensures Fits(layers[i].data, [], Places(layers), Leaves(layers)) {
      LayerFits(layers, i);
    }
  }

  /** Where no places clash, the composer with dotted strings does what the one with paths does. */
  lemma DottedRefinesPaths(layers: seq<Layer>)
    requires NoneClash(layers)
    ensures Matches(layers)
    ensures ComposeDotted(layers).Some? ==> forall p :: p in Compose(layers).value.prov ==> LeafOf(layers, p)
  {
    LayersFit(layers);
    ComposeMirrors(layers, Places(layers), Leaves(layers));
  }

  // ---------------------------------------------------------------------------------------
  // The promise, of dotted strings
  // ---------------------------------------------------------------------------------------

  /** `docs/governance-bundles.md`: an entry for each leaf path, naming the layer of its value, and no other. */
  ghost predicate Promised(layers: seq<Layer>, b: Books) {
    && b.target == Overlay(layers)
    && (forall p :: LeafIn(b.target, p) ==> EntryOf(layers, b, p))
    && (forall s :: s in b.provenance ==> exists p :: LeafIn(b.target, p) && Join(p) == s)
  }

  ghost predicate EntryOf(layers: seq<Layer>, b: Books, p: Path) {
    var n := LastDefining(layers, p);
    && 0 <= n && Lookup(b.target, p) == Lookup(layers[n].data, p)
    && Join(p) in b.provenance && b.provenance[Join(p)] == layers[n].tag
  }

  lemma SameLeaf(layers: seq<Layer>, p: Path, q: Path)
    requires NoneClash(layers) && LeafOf(layers, p) && LeafOf(layers, q) && Join(p) == Join(q)
    ensures p == q
  {
    LayersFit(layers);
    SameNameSamePlace(p, q, Places(layers), Leaves(layers));
  }

  lemma PromisedIfComposed(layers: seq<Layer>, b: Books, st: State)
    requires Mirrors(b, st) && Composed(layers, st)
    ensures Promised(layers, b)
  {
    forall p | LeafIn(b.target, p) ensures EntryOf(layers, b, p) { assert Attributed(layers, st, p); }
    forall s | s in b.provenance ensures exists p :: LeafIn(b.target, p) && Join(p) == s {
      var p :| p in st.prov && Join(p) == s;
      assert Attributed(layers, st, p);
    }
  }

  lemma ComposedIfPromised(layers: seq<Layer>, b: Books, st: State)
    requires Mirrors(b, st) && Promised(layers, b) && NoneClash(layers)
    requires forall p :: p in st.prov ==> LeafOf(layers, p)
    ensures Composed(layers, st)
  {
    forall p ensures Attributed(layers, st, p) {
      if LeafIn(st.target, p) {
        assert EntryOf(layers, b, p) && LeafOf(layers, p);
        var q :| q in st.prov && Join(q) == Join(p);
        SameLeaf(layers, p, q);
      } else if p in st.prov {
        var q :| LeafIn(b.target, q) && Join(q) == Join(p);
        assert EntryOf(layers, b, q) && LeafOf(layers, q);
        SameLeaf(layers, p, q);
      }
    }
  }

  /**
   Layers whose places do not clash, dots in their keys or not: a composition that succeeds is what the
   documentation promises if and only if no extension of a secret reference is outgrown.
   */
  lemma PromisedIffNoneOutgrown(layers: seq<Layer>)
    requires NoneClash(layers) && ComposeDotted(layers).Some?
    ensures Promised(layers, ComposeDotted(layers).value) <==> NoneOutgrown(layers)
  {
    DottedRefinesPaths(layers);
    ComposedIffNoneOutgrown(layers);
    var b, st := ComposeDotted(layers).value, Compose(layers).value;
    if Composed(layers, st) { PromisedIfComposed(layers, b, st); }
    if Promised(layers, b) { ComposedIfPromised(layers, b, st); }
  }

  // ---------------------------------------------------------------------------------------
  // The document, clashes or not
  // ---------------------------------------------------------------------------------------

  lemma {:induction false} MergeKeyTree(k: Key, b: Books, incoming: Entries, tag: Tag, path: Path)
    requires k in incoming && MergeKeyDotted(k, b, incoming, tag, path).Some?
    ensures MergeKeyDotted(k, b, incoming, tag, path).value.target ==
              b.target[k := OverrideAt(b.target, incoming, k)]
    decreases Mapping(incoming), 0
  {
    if k in b.target && Descends(b.target[k], incoming[k]) {
      assert incoming[k] == Mapping(incoming[k].entries);
      MergeTree(b.(target := b.target[k].entries), incoming[k].entries, tag, path + [k]);
    }
  }

  lemma {:induction false} MergeKeysTree(keys: seq<Key>, b: Books, incoming: Entries, tag: Tag, path: Path)
    requires forall k :: k in keys ==> k in incoming
    requires forall i, j :: 0 <= i < j < |keys| ==> keys[i] != keys[j]
    requires MergeKeysDotted(keys, b, incoming, tag, path).Some?
    ensures var t := MergeKeysDotted(keys, b, incoming, tag, path).value.target;
      && t.Keys == b.target.Keys + (set k | k in keys)
      && forall k :: k in t ==> t[k] == if k in keys then OverrideAt(b.target, incoming, k) else b.target[k]
    decreases Mapping(incoming), 1, |keys|
  {
    if keys != [] {
      hide MergeKeyDotted, OverrideAt;
      MergeKeyTree(keys[0], b, incoming, tag, path);
      MergeKeysTree(keys[1..], MergeKeyDotted(keys[0], b, incoming, tag, path).value, incoming, tag, path);
    }
  }

  lemma {:induction false} MergeAllKeysTree(keys: seq<Key>, b: Books, incoming: Entries, tag: Tag, path: Path)
    requires forall k :: k in keys <==> k in incoming
    requires forall i, j :: 0 <= i < j < |keys| ==> keys[i] != keys[j]
    requires MergeKeysDotted(keys, b, incoming, tag, path).Some?
    ensures MergeKeysDotted(keys, b, incoming, tag, path).value.target == Override(b.target, incoming)
    decreases Mapping(incoming), 1, |keys| + 1
  {
    MergeKeysTree(keys, b, incoming, tag, path);
    OverrideIs(b.target, incoming, MergeKeysDotted(keys, b, incoming, tag, path).value.target);
  }

  lemma {:induction false} MergeTree(b: Books, incoming: Entries, tag: Tag, path: Path)
    requires MergeDotted(b, incoming, tag, path).Some?
    ensures MergeDotted(b, incoming, tag, path).value.target == Override(b.target, incoming)
    decreases Mapping(incoming), 2
  {
    MergeAllKeysTree(Sorted(incoming.Keys), b, incoming, tag, path);
  }

  /** The composed document is the overlay of the layers whatever their keys; only the record can be wrong. */
  lemma {:induction false} DocumentIsOverlay(layers: seq<Layer>)
    requires ComposeDotted(layers).Some?
    ensures ComposeDotted(layers).value.target == Overlay(layers)
  {
    if layers != [] {
      var init, last := layers[..|layers| - 1], layers[|layers| - 1];
      DocumentIsOverlay(init);
      MergeTree(ComposeDotted(init).value, last.data, last.tag, []);
    }
  }

  /**
   What the document says at a path is what the layers' own `Lookup` says: a scalar, a list or a secret
   reference is there exactly if some layer holds it and the later ones spare it, and anything at all
   exactly if some layer reaches so far and no later one cuts it off.
   */
  lemma DocumentHoldsIff(layers: seq<Layer>, p: Path, v: Value)
    requires ComposeDotted(layers).Some? && p != []
    ensures var d := ComposeDotted(layers).value.target;
      && (!IsPlain(v) ==> (Lookup(d, p) == Some(v) <==> Held(layers, p, v)))
      && (Lookup(d, p).Some? <==> Reached(layers, p))
  {
    DocumentIsOverlay(layers);
    OverlayReachesIff(layers, p);
    if !IsPlain(v) { OverlayHoldsIff(layers, p, v); }
  }

  /** And its leaves are those values that lie in no secret reference. */
  lemma DocumentLeafIff(layers: seq<Layer>, p: Path, v: Value)
    requires ComposeDotted(layers).Some?
    ensures var d := ComposeDotted(layers).value.target;
      LeafIn(d, p) && Lookup(d, p) == Some(v) <==>
      p != [] && !IsPlain(v) && Held(layers, p, v) && !InSecret(layers, p)
  {
    DocumentIsOverlay(layers);
    OverlayLeafIff(layers, p, v);
  }

  // ---------------------------------------------------------------------------------------
  // Every clash does harm
  // ---------------------------------------------------------------------------------------

  /** The result of a merge holds nothing but what was there and the layer's own entries. */
  ghost predicate OldOrNew(before: map<string, Tag>, after: map<string, Tag>, tag: Tag) {
    forall s :: s in after ==> after[s] == tag || (s in before && after[s] == before[s])
  }

  lemma {:induction false} MergeKeyOldOrNew(k: Key, b: Books, incoming: Entries, tag: Tag, path: Path)
    requires k in incoming && MergeKeyDotted(k, b, incoming, tag, path).Some?
    ensures OldOrNew(b.provenance, MergeKeyDotted(k, b, incoming, tag, path).value.provenance, tag)
    decreases Mapping(incoming), 0
  {
    if k in b.target && Descends(b.target[k], incoming[k]) {
      assert incoming[k] == Mapping(incoming[k].entries);
      MergeOldOrNew(b.(target := b.target[k].entries), incoming[k].entries, tag, path + [k]);
    }
  }

  lemma {:induction false} MergeKeysOldOrNew(keys: seq<Key>, b: Books, incoming: Entries, tag: Tag, path: Path)
    requires forall k :: k in keys ==> k in incoming
    requires MergeKeysDotted(keys, b, incoming, tag, path).Some?
    ensures OldOrNew(b.provenance, MergeKeysDotted(keys, b, incoming, tag, path).value.provenance, tag)
    decreases Mapping(incoming), 1, |keys|
  {
    if keys != [] {
      MergeKeyOldOrNew(keys[0], b, incoming, tag, path);
      MergeKeysOldOrNew(keys[1..], MergeKeyDotted(keys[0], b, incoming, tag, path).value, incoming, tag, path);
    }
  }

  lemma {:induction false} MergeOldOrNew(b: Books, incoming: Entries, tag: Tag, path: Path)
    requires MergeDotted(b, incoming, tag, path).Some?
    ensures OldOrNew(b.provenance, MergeDotted(b, incoming, tag, path).value.provenance, tag)
    decreases Mapping(incoming), 2
  {
    MergeKeysOldOrNew(Sorted(incoming.Keys), b, incoming, tag, path);
  }

  /** Nothing at or under the dotted string names an earlier layer. */
  ghost predicate OnlyNew(prov: map<string, Tag>, dotted: string, tag: Tag) {
    forall s :: s in prov && AtOrUnder(dotted, s) ==> prov[s] == tag
  }

  lemma StampedOnlyNew(prov: map<string, Tag>, dotted: string, paths: set<Path>, tag: Tag)
    ensures OnlyNew(StampDotted(ClearDotted(prov, dotted), paths, tag), dotted, tag)
  {
  }

  lemma ReplacesWhere(t: Entries, i: Entries, r: Path)
    requires Replaces(t, i, r)
    ensures r != [] && r[0] in t && r[0] in i
    ensures if Descends(t[r[0]], i[r[0]])
            then t[r[0]].Mapping? && i[r[0]] == Mapping(i[r[0]].entries) &&
                 Replaces(t[r[0]].entries, i[r[0]].entries, r[1..]) && r[1..] != []
            else r == [r[0]] && t[r[0]] != i[r[0]]
  {
  }

  lemma ReplaceForgets(k: Key, b: Books, incoming: Entries, tag: Tag, path: Path)
    requires k in incoming && k in b.target && !Descends(b.target[k], incoming[k]) && b.target[k] != incoming[k]
    requires MergeKeyDotted(k, b, incoming, tag, path).Some?
    ensures OnlyNew(MergeKeyDotted(k, b, incoming, tag, path).value.provenance, Join(path + [k]), tag)
  {
    hide Join, AtOrUnder, OnlyNew, StampDotted, ClearDotted, LeavesFrom, PreviousDotted, Descends;
    StampedOnlyNew(b.provenance, Join(path + [k]), LeavesFrom(incoming[k], path + [k]), tag);
  }

  lemma DescendsToMerge(k: Key, b: Books, incoming: Entries, tag: Tag, path: Path)
    requires k in incoming && k in b.target && Descends(b.target[k], incoming[k])
    requires MergeKeyDotted(k, b, incoming, tag, path).Some?
    ensures var sub := MergeDotted(b.(target := b.target[k].entries), incoming[k].entries, tag, path + [k]);
      sub.Some? && MergeKeyDotted(k, b, incoming, tag, path).value.provenance == sub.value.provenance
  {
  }

  lemma {:induction false} MergeKeyForgets(b: Books, incoming: Entries, tag: Tag, path: Path, r: Path)
    requires r != [] && r[0] in incoming && MergeKeyDotted(r[0], b, incoming, tag, path).Some?
    requires Replaces(b.target, incoming, r)
    ensures OnlyNew(MergeKeyDotted(r[0], b, incoming, tag, path).value.provenance, Join(path + r), tag)
    decreases |r|, 0
  {
    ReplacesWhere(b.target, incoming, r);
    hide OnlyNew, Descends, MergeKeyDotted, MergeKeysDotted, MergeDotted, Replaces, Join;
    var k := r[0];
    if Descends(b.target[k], incoming[k]) {
      DescendsToMerge(k, b, incoming, tag, path);
      SplitPath(path, r);
      MergeForgets(b.(target := b.target[k].entries), incoming[k].entries, tag, path + [k], r[1..]);
    } else {
      ReplaceForgets(k, b, incoming, tag, path);
    }
  }

  lemma {:induction false} MergeKeysForget(keys: seq<Key>, b: Books, incoming: Entries, tag: Tag, path: Path, r: Path)
    requires forall k :: k in keys ==> k in incoming
    requires forall i, j :: 0 <= i < j < |keys| ==> keys[i] != keys[j]
    requires MergeKeysDotted(keys, b, incoming, tag, path).Some?
    requires r != [] && r[0] in keys && Replaces(b.target, incoming, r)
    ensures OnlyNew(MergeKeysDotted(keys, b, incoming, tag, path).value.provenance, Join(path + r), tag)
    decreases |r|, 1, |keys|
  {
    var next := MergeKeyDotted(keys[0], b, incoming, tag, path).value;
    if keys[0] == r[0] {
      MergeKeyForgets(b, incoming, tag, path, r);
      MergeKeysOldOrNew(keys[1..], next, incoming, tag, path);
    } else {
      assert r[0] in keys[1..];
      SameReplaces(b.target, next.target, incoming, r);
      MergeKeysForget(keys[1..], next, incoming, tag, path, r);
    }
  }

  lemma SameReplaces(t: Entries, u: Entries, i: Entries, r: Path)
    requires r != [] && (r[0] in t <==> r[0] in u) && (r[0] in t ==> t[r[0]] == u[r[0]])
    ensures Replaces(t, i, r) == Replaces(u, i, r)
  {
  }

  /** A merge that replaces the value at `r` drops every entry at or under its dotted string. */
  lemma {:induction false} MergeForgets(b: Books, incoming: Entries, tag: Tag, path: Path, r: Path)
    requires r != [] && MergeDotted(b, incoming, tag, path).Some? && Replaces(b.target, incoming, r)
    ensures OnlyNew(MergeDotted(b, incoming, tag, path).value.provenance, Join(path + r), tag)
    decreases |r|, 2
  {
    MergeKeysForget(Sorted(incoming.Keys), b, incoming, tag, path, r);
  }

  // ---------------------------------------------------------------------------------------
  // Which keys are safe
  // ---------------------------------------------------------------------------------------

  ghost predicate Over(p: Path, keys: iset<Key>) {
    p != [] && forall k :: k in p ==> k in keys
  }

  /** The composer meets no other keys in these layers. */
  ghost predicate UsesKeys(layers: seq<Layer>, keys: iset<Key>) {
    forall p :: PlaceOf(layers, p) ==> Over(p, keys)
  }

  /** No two paths made of these keys clash. */
  ghost predicate Unambiguous(keys: iset<Key>) {
    forall q, p :: Over(q, keys) && Over(p, keys) ==> !Clash(q, p)
  }

  /** Whatever layers are made of these keys, dotted strings serve as well as paths. */
  ghost predicate Safe(keys: iset<Key>) {
    forall layers :: UsesKeys(layers, keys) ==> Matches(layers)
  }

  /** Two clashing paths clash from where they part. */
  lemma {:induction false} ClashWherePaths(q: Path, p: Path, keys: iset<Key>) returns (r: Path, o: Path)
    requires Over(q, keys) && Over(p, keys) && Clash(q, p)
    ensures Over(r, keys) && Over(o, keys) && Clash(r, o) && r[0] != o[0]
    decreases |q|
  {
    if q[0] != p[0] {
      r, o := q, p;
    } else {
      ClashHasMore(q, p);
      assert (forall k :: k in q[1..] ==> k in q) && (forall k :: k in p[1..] ==> k in p);
      r, o := ClashWherePaths(q[1..], p[1..], keys);
    }
  }

  lemma ClashHasMore(q: Path, p: Path)
    requires q != [] && p != [] && q[0] == p[0] && Clash(q, p)
    ensures q[1..] != [] && p[1..] != [] && Clash(q[1..], p[1..])
  {
    assert q == [q[0]] + q[1..] && p == [p[0]] + p[1..];
    assert q[1..] == [] ==> q <= p;
    var head := q[0] + ".";
    assert Join(q) == head + Join(q[1..]);
    if p[1..] != [] {
      assert Join(p) == head + Join(p[1..]);
      CancelHead(head, Join(q[1..]), Join(p[1..]));
      assert q[1..] <= p[1..] ==> q <= p;
    }
  }

  lemma CancelHead(head: string, a: string, b: string)
    requires AtOrUnder(head + a, head + b)
    ensures AtOrUnder(a, b)
  {
    assert (head + b)[|head|..] == b && (head + a)[|head|..] == a;
    if head + a + "." <= head + b {
      assert (head + b)[..|head + a + "."|] == head + (a + ".");
      assert b[..|a| + 1] == a + ".";
    }
  }

  /** A value with one leaf, at `r`; an empty mapping beside each key keeps it from being a secret reference. */
  function Chain(r: Path, leaf: string, a: Key, b: Key): Value {
    if r == [] then Scalar(leaf) else
      Mapping(map[(if r[0] == a then b else a) := Mapping(map[]), r[0] := Chain(r[1..], leaf, a, b)])
  }

  function OneLeaf(p: Path, leaf: string, a: Key, b: Key): Entries
    requires p != []
  {
    map[p[0] := Chain(p[1..], leaf, a, b)]
  }

  lemma ChainIsPlain(r: Path, leaf: string, a: Key, b: Key)
    requires a != b && r != []
    ensures IsPlain(Chain(r, leaf, a, b))
  {
    var other := if r[0] == a then b else a;
    assert other in Chain(r, leaf, a, b).entries && r[0] in Chain(r, leaf, a, b).entries;
  }

  lemma {:induction false} ChainLeaf(r: Path, leaf: string, a: Key, b: Key, x: Path)
    requires a != b
    ensures LeafBelow(Chain(r, leaf, a, b), x) <==> x == r
    decreases |r|
  {
    if r != [] {
      ChainIsPlain(r, leaf, a, b);
      if x != [] && x[0] == r[0] {
        ChainLeaf(r[1..], leaf, a, b, x[1..]);
        assert x == [x[0]] + x[1..] && r == [r[0]] + r[1..];
      }
    }
  }

  lemma {:induction false} ChainKeys(r: Path, leaf: string, a: Key, b: Key, x: Path)
    requires a != b && IsPlain(Chain(r, leaf, a, b)) && NodeIn(Chain(r, leaf, a, b).entries, x)
    ensures forall k :: k in x ==> k in r || k == a || k == b
    decreases |r|
  {
    assert x == [x[0]] + x[1..] && r == [r[0]] + r[1..];
    if |x| > 1 && x[0] == r[0] { ChainKeys(r[1..], leaf, a, b, x[1..]); }
  }

  /** Chains that differ in their leaf replace each other there and nowhere else. */
  lemma {:induction false} ChainReplaces(r: Path, a: Key, b: Key, x: Path)
    requires a != b && r != []
    ensures Replaces(Chain(r, "1", a, b).entries, Chain(r, "2", a, b).entries, x) <==> x == r
    decreases |r|
  {
    ChainIsPlain(r, "1", a, b);
    ChainIsPlain(r, "2", a, b);
    var s, t := Chain(r[1..], "1", a, b), Chain(r[1..], "2", a, b);
    if x != [] && x[0] == r[0] {
      assert x == [x[0]] + x[1..] && r == [r[0]] + r[1..];
      if r[1..] != [] {
        ChainIsPlain(r[1..], "2", a, b);
        ChainReplaces(r[1..], a, b, x[1..]);
      }
    }
  }

  lemma OneLeafIs(p: Path, leaf: string, a: Key, b: Key)
    requires a != b && p != []
    ensures forall x :: LeafIn(OneLeaf(p, leaf, a, b), x) <==> x == p
    ensures forall x :: NodeIn(OneLeaf(p, leaf, a, b), x) ==> forall k :: k in x ==> k in p || k == a || k == b
  {
    forall x
      ensures LeafIn(OneLeaf(p, leaf, a, b), x) <==> x == p
      ensures NodeIn(OneLeaf(p, leaf, a, b), x) ==> forall k :: k in x ==> k in p || k == a || k == b
    {
      assert p == [p[0]] + p[1..] && (x != [] ==> x == [x[0]] + x[1..]);
      if x != [] { ChainLeaf(p[1..], leaf, a, b, x[1..]); }
      if |x| > 1 && NodeIn(OneLeaf(p, leaf, a, b), x) { ChainKeys(p[1..], leaf, a, b, x[1..]); }
    }
  }

  const FIRST := Tag("org", "org.yaml")
  const SECOND := Tag("team", "team.yaml")
  const THIRD := Tag("user", "user.yaml")

  /** A leaf at `p`, then one at `q`, then another value at `q`. */
  function Misleading(q: Path, p: Path): (layers: seq<Layer>)
    requires q != [] && p != []
    ensures |layers| == 3
  {
    [Layer(FIRST, OneLeaf(p, "1", q[0], p[0])), Layer(SECOND, OneLeaf(q, "1", q[0], p[0])),
     Layer(THIRD, OneLeaf(q, "2", q[0], p[0]))]
  }

  lemma OverlayNext(layers: seq<Layer>, n: nat)
    requires n < |layers|
    ensures Overlay(layers[..n + 1]) == Override(Overlay(layers[..n]), layers[n].data)
  {
    assert layers[..n + 1][..n] == layers[..n];
  }

  /** Their overlays: nothing of `p` is touched, and `q` alone is replaced. */
  lemma MisleadingOverlays(q: Path, p: Path)
    requires q != [] && p != [] && q[0] != p[0]
    ensures var layers := Misleading(q, p); var two := Overlay(layers[..2]);
      && (forall x :: !Replaces(map[], layers[0].data, x))
      && Overlay(layers[..1]) == layers[0].data
      && (forall x :: !Replaces(layers[0].data, layers[1].data, x))
      && !Cuts(layers[0].data, layers[1].data, p)
      && (forall x :: Replaces(two, layers[2].data, x) <==> x == q)
      && !Cuts(two, layers[2].data, p)
  {
    var layers := Misleading(q, p);
    OverlayNext(layers, 0);
    OverlayNext(layers, 1);
    assert layers[..0] == [] && Overlay([]) == map[];
    assert Override(map[], layers[0].data) == layers[0].data;
    var two := Overlay(layers[..2]);
    assert two[q[0]] == OverrideAt(layers[0].data, layers[1].data, q[0]);
    forall x ensures Replaces(two, layers[2].data, x) <==> x == q {
      assert q == [q[0]] + q[1..] && (x != [] ==> x == [x[0]] + x[1..]);
      if x != [] && x[0] == q[0] && q[1..] != [] {
        ChainIsPlain(q[1..], "2", q[0], p[0]);
        ChainReplaces(q[1..], q[0], p[0], x[1..]);
      }
    }
  }

  /** With paths they compose, and the entry at `p` names the first layer. */
  lemma MisleadingCompose(q: Path, p: Path)
    requires q != [] && p != [] && q[0] != p[0]
    ensures var r := Compose(Misleading(q, p)); r.Some? && p in r.value.prov && r.value.prov[p] == FIRST
  {
    hide Replaces, Cuts, OneLeaf, LeafIn, Compose, Overlay;
    var layers := Misleading(q, p);
    MisleadingOverlays(q, p);
    OneLeafIs(p, "1", q[0], p[0]);
    OneLeafIs(q, "1", q[0], p[0]);
    OneLeafIs(q, "2", q[0], p[0]);
    var one, two := layers[..1], layers[..2];
    assert layers[..|layers| - 1] == two && two[..|two| - 1] == one && one[..|one| - 1] == [];
    assert Overlay([]) == map[] by { EmptyOverlay(); }
    assert Recorded(one, p) && Recorded(two, p) && Recorded(layers, p);
    assert Recorded(two, q);
    assert !SomeUnaccounted([]) && !SomeUnaccounted(one);
    forall x ensures !UnaccountedAt(one, layers[1].data, x) {}
    assert !SomeUnaccounted(two);
    ComposeExact(layers);
    assert ExactAt(layers, Compose(layers).value, p);
  }

  lemma EmptyOverlay()
    ensures Overlay([]) == map[]
  {
  }

  /** With dotted strings they do not: the last layer takes the entry at `p` away. */
  lemma ClashesMislead(q: Path, p: Path)
    requires q != [] && p != [] && q[0] != p[0] && Clash(q, p)
    ensures !Matches(Misleading(q, p))
  {
    hide Replaces, Cuts, OneLeaf, Compose, Overlay, MergeDotted, Join, AtOrUnder;
    var layers := Misleading(q, p);
    MisleadingCompose(q, p);
    if ComposeDotted(layers).Some? {
      var two := layers[..2];
      assert layers[..|layers| - 1] == two && [] + q == q;
      var b := ComposeDotted(two).value;
      DocumentIsOverlay(two);
      MisleadingOverlays(q, p);
      MergeForgets(b, layers[2].data, THIRD, [], q);
    }
  }

  lemma MisleadingUsesKeys(q: Path, p: Path, keys: iset<Key>)
    requires Over(q, keys) && Over(p, keys) && q[0] != p[0]
    ensures UsesKeys(Misleading(q, p), keys)
  {
    hide OneLeaf, NodeIn;
    OneLeafIs(p, "1", q[0], p[0]);
    OneLeafIs(q, "1", q[0], p[0]);
    OneLeafIs(q, "2", q[0], p[0]);
    var layers := Misleading(q, p);
    forall x | PlaceOf(layers, x) ensures Over(x, keys) {
      var i :| 0 <= i < |layers| && NodeIn(layers[i].data, x);
      PlacesAreNotEmpty(layers[i].data, x);
    }
  }

  lemma PlacesAreNotEmpty(m: Entries, p: Path)
    requires NodeIn(m, p)
    ensures p != []
  {
  }

  /**
   Dotted strings serve as well as paths for every list of layers made of some keys if and only if no two
   paths made of those keys clash.
   */
  lemma SafeIffUnambiguous(keys: iset<Key>)
    ensures Safe(keys) <==> Unambiguous(keys)
  {
    if Unambiguous(keys) {
      forall layers | UsesKeys(layers, keys) ensures Matches(layers) {
        forall p | LeafOf(layers, p) ensures PlaceOf(layers, p) { LeafOfIsPlace(layers, p); }
        DottedRefinesPaths(layers);
      }
    } else {
      var q, p :| Over(q, keys) && Over(p, keys) && Clash(q, p);
      var r, o := ClashWherePaths(q, p, keys);
      MisleadingUsesKeys(r, o, keys);
      ClashesMislead(r, o);
    }
  }

  /** Keys without dots are safe. */
  lemma DotFreeKeysAreSafe()
    ensures Safe(iset k | DotFree(k))
  {
    var keys := iset k | DotFree(k);
    forall q, p | Over(q, keys) && Over(p, keys) ensures !Clash(q, p) { DotFreeNeverClash(q, p); }
    SafeIffUnambiguous(keys);
  }

  // ---------------------------------------------------------------------------------------
  // A dotted key that loses its entry
  // ---------------------------------------------------------------------------------------

  const NUMBERED := [
    Layer(FIRST, map["a.b" := Scalar("1")]), Layer(SECOND, map["a" := Scalar("2")]),
    Layer(THIRD, map["a" := Scalar("3")])]

  lemma MergeOneKey(b: Books, k: Key, v: Value, tag: Tag)
    ensures MergeDotted(b, map[k := v], tag, []) == MergeKeyDotted(k, b, map[k := v], tag, [])
  {
    hide MergeKeyDotted;
    var m := map[k := v];
    var keys := Sorted(m.Keys);
    assert m.Keys == {k} && |keys| == 1 && keys[0] in keys;
    assert keys == [k] && [k][1..] == [];
    var r := MergeKeyDotted(k, b, m, tag, []);
    if r.Some? { assert MergeKeysDotted([], r.value, m, tag, []) == r; }
  }

  lemma RecordScalar(prov: map<string, Tag>, k: Key, text: string, tag: Tag)
    ensures RecordDotted(prov, Scalar(text), tag, [] + [k]) == prov[k := tag] && Join([] + [k]) == k
  {
    assert [] + [k] == [k] && LeavesFrom(Scalar(text), [k]) == {[k]} && Dotted({[k]}) == {k};
  }

  lemma PlaceScalar(b: Books, k: Key, text: string, tag: Tag)
    requires k !in b.target
    ensures MergeDotted(b, map[k := Scalar(text)], tag, []) ==
              Some(b.(target := b.target[k := Scalar(text)], provenance := b.provenance[k := tag]))
  {
    hide MergeDotted, RecordDotted;
    MergeOneKey(b, k, Scalar(text), tag);
    RecordScalar(b.provenance, k, text, tag);
  }

  lemma ReplaceScalar(b: Books, k: Key, text: string, tag: Tag)
    requires k in b.target && b.target[k].Scalar? && b.target[k] != Scalar(text) && k in b.provenance
    ensures var r := MergeDotted(b, map[k := Scalar(text)], tag, []);
      && r.Some? && r.value.target == b.target[k := Scalar(text)]
      && r.value.provenance == ClearDotted(b.provenance, k)[k := tag]
  {
    hide MergeDotted, RecordDotted, ClearDotted;
    MergeOneKey(b, k, Scalar(text), tag);
    RecordScalar(ClearDotted(b.provenance, k), k, text, tag);
  }

  /** A second value for `a` takes away the entry of its sibling `a.b`, although nothing is outgrown. */
  lemma SiblingLosesItsEntry()
    ensures Clash(["a"], ["a.b"])
    ensures var r := ComposeDotted(NUMBERED);
      r.Some? && LeafIn(r.value.target, ["a.b"]) && "a.b" !in r.value.provenance
    ensures NoneOutgrown(NUMBERED)
  {
    hide MergeDotted, ComposeDotted;
    var one, two := NUMBERED[..1], NUMBERED[..2];
    NumberedStarts();
    PlaceScalar(Books(map[], map[], []), "a.b", "1", FIRST);
    PlaceScalar(ComposeDotted(one).value, "a", "2", SECOND);
    ReplaceScalar(ComposeDotted(two).value, "a", "3", THIRD);
    assert ["a.b"][1..] == [] && "a" + "." <= "a.b";
    ScalarsExtendNothing();
  }

  lemma NumberedStarts()
    ensures ComposeDotted(NUMBERED[..1]) == MergeDotted(Books(map[], map[], []), NUMBERED[0].data, FIRST, [])
    ensures ComposeDotted(NUMBERED[..2]) == MergeOntoDotted(ComposeDotted(NUMBERED[..1]), NUMBERED[1])
    ensures ComposeDotted(NUMBERED) == MergeOntoDotted(ComposeDotted(NUMBERED[..2]), NUMBERED[2])
  {
    hide MergeDotted;
    ComposeNext(NUMBERED, 0);
    ComposeNext(NUMBERED, 1);
    ComposeNext(NUMBERED, 2);
    assert NUMBERED[..3] == NUMBERED && NUMBERED[..0] == [];
  }

  lemma ScalarsExtendNothing()
    ensures NoneOutgrown(NUMBERED)
  {
    forall n: nat, p | n < |NUMBERED| ensures !Extends(Overlay(NUMBERED[..n]), NUMBERED[n].data, p) {}
  }
}
