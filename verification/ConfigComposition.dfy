/**
 What composing a list of layers (src/mcp_broker/config_layers.py) amounts to, stated on the layers'
 trees alone: which paths have an entry, which layer it names, when composition fails, and exactly when
 the entries are the leaves of the composed document, as docs/governance-bundles.md promises.
 */
module ConfigComposition {
  import opened Prelude
  import opened ConfigLayers

  function Overlay(layers: seq<Layer>): Entries {
    if layers == [] then map[] else
      Override(Overlay(layers[..|layers| - 1]), layers[|layers| - 1].data)
  }

  /** The index of the last layer in which `p` is a leaf, or -1. */
  function LastDefining(layers: seq<Layer>, p: Path): (n: int)
    ensures -1 <= n < |layers|
    ensures 0 <= n ==> LeafIn(layers[n].data, p)
    ensures forall j :: n < j < |layers| ==> !LeafIn(layers[j].data, p)
  {
    if layers == [] then -1
    else if LeafIn(layers[|layers| - 1].data, p) then |layers| - 1
    else LastDefining(layers[..|layers| - 1], p)
  }

  /** The entry at `p` after all layers: the last layer that cuts or has the leaf decides. */
  ghost predicate Recorded(layers: seq<Layer>, p: Path) {
    layers != [] &&
    var init, last := layers[..|layers| - 1], layers[|layers| - 1].data;
    LeafIn(last, p) || (Recorded(init, p) && !Cuts(Overlay(init), last, p))
  }

  /** Some layer replaces a value of the layers before it that has no entry at or below its path. */
  ghost predicate SomeUnaccounted(layers: seq<Layer>) {
    layers != [] &&
    var init, last := layers[..|layers| - 1], layers[|layers| - 1].data;
    SomeUnaccounted(init) || exists q :: UnaccountedAt(init, last, q)
  }

  ghost predicate UnaccountedAt(init: seq<Layer>, last: Entries, q: Path) {
    Replaces(Overlay(init), last, q) && forall p :: q <= p ==> !Recorded(init, p)
  }

  /** The entries strictly below `path` are exactly the leaves of `m`. */
  ghost predicate Agrees(prov: map<Path, Tag>, path: Path, m: Entries) {
    forall q: Path :: q != [] ==> (path + q in prov <==> LeafIn(m, q))
  }

  // ---------------------------------------------------------------------------------------
  // Trees under an override
  // ---------------------------------------------------------------------------------------

  lemma PlainStaysPlain(t: Value, i: Value)
    requires IsPlain(t) && IsPlain(i)
    ensures IsPlain(Mapping(Override(t.entries, i.entries)))
  {
    assert Override(t.entries, i.entries).Keys == t.entries.Keys + i.entries.Keys;
    assert forall k :: k in t.entries ==> k in Override(t.entries, i.entries);
    assert forall k :: k in i.entries ==> k in Override(t.entries, i.entries);
    if "secret_ref" in t.entries {
      var k :| k in t.entries && k != "secret_ref";
    } else if "secret_ref" in i.entries {
      var k :| k in i.entries && k != "secret_ref";
    }
  }

  lemma {:induction false} LeafPathsPrefixFree(m: Entries, p: Path, q: Path)
    requires LeafIn(m, p) && LeafIn(m, q) && p <= q
    ensures p == q
    decreases |p|
  {
    if IsPlain(m[p[0]]) {
      LeafPathsPrefixFree(m[p[0]].entries, p[1..], q[1..]);
      assert p == [p[0]] + p[1..] && q == [q[0]] + q[1..];
    }
  }

  /** `i` descends to the secret reference that `t` has at `p` and adds to it. */
  predicate Extends(t: Entries, i: Entries, p: Path)
    decreases |p|
  {
    p != [] && p[0] in t && p[0] in i && Descends(t[p[0]], i[p[0]]) &&
    if |p| == 1 then IsSecretRef(t[p[0]]) && i[p[0]].entries != map[]
    else Extends(t[p[0]].entries, i[p[0]].entries, p[1..])
  }

  /** `p` leads through plain mappings to a plain mapping. */
  predicate PlainAt(m: Entries, p: Path)
    decreases |p|
  {
    p != [] && p[0] in m && IsPlain(m[p[0]]) && (|p| == 1 || PlainAt(m[p[0]].entries, p[1..]))
  }

  lemma {:induction false} PlainIsNoLeaf(m: Entries, p: Path)
    requires PlainAt(m, p)
    ensures !LeafIn(m, p)
    decreases |p|
  {
    if |p| > 1 { PlainIsNoLeaf(m[p[0]].entries, p[1..]); }
  }

  /** A mapping extended by a non-empty plain one is plain, a secret reference included. */
  lemma ExtendedIsPlain(t: Entries, i: Entries)
    requires IsPlain(Mapping(i)) && i != map[]
    ensures IsPlain(Mapping(Override(t, i)))
  {
    assert Override(t, i).Keys == t.Keys + i.Keys;
    var k :| k in i;
    if k == "secret_ref" { var o :| o in i && o != "secret_ref"; }
  }

  /** A leaf of the later tree is a leaf of the override, with its value, whatever was there before. */
  lemma {:induction false} LaterLeafStays(t: Entries, i: Entries, p: Path)
    requires LeafIn(i, p)
    ensures LeafIn(Override(t, i), p) && Lookup(Override(t, i), p) == Lookup(i, p)
    decreases |p|
  {
    var k := p[0];
    assert Override(t, i)[k] == OverrideAt(t, i, k);
    if k in t && Descends(t[k], i[k]) {
      assert i[k] == Mapping(i[k].entries);
      ExtendedIsPlain(t[k].entries, i[k].entries);
      LaterLeafStays(t[k].entries, i[k].entries, p[1..]);
    }
  }

  /** An earlier leaf that is not cut stays a leaf, with its value, unless it is a secret reference being extended. */
  lemma {:induction false} EarlierLeaf(t: Entries, i: Entries, p: Path)
    requires LeafIn(t, p) && !Cuts(t, i, p)
    ensures LeafIn(Override(t, i), p) || Extends(t, i, p)
    ensures LeafIn(Override(t, i), p) && !LeafIn(i, p) ==> Lookup(Override(t, i), p) == Lookup(t, p)
    decreases |p|
  {
    var k := p[0];
    assert Override(t, i)[k] == OverrideAt(t, i, k);
    if k in i && Descends(t[k], i[k]) {
      assert i[k] == Mapping(i[k].entries);
      if IsSecretRef(t[k]) {
        if i[k].entries == map[] { assert Override(t[k].entries, i[k].entries) == t[k].entries; }
        else { ExtendedIsPlain(t[k].entries, i[k].entries); }
      } else {
        PlainStaysPlain(t[k], i[k]);
        EarlierLeaf(t[k].entries, i[k].entries, p[1..]);
      }
    }
  }

  /** A leaf of the override is the later tree's, an earlier one not cut, or below an extended secret reference. */
  lemma {:induction false} LeafComesFrom(t: Entries, i: Entries, p: Path) returns (e: Path)
    requires LeafIn(Override(t, i), p)
    ensures LeafIn(i, p) || (LeafIn(t, p) && !Cuts(t, i, p)) || (e < p && Extends(t, i, e))
    decreases |p|
  {
    var k := p[0];
    e := [];
    assert Override(t, i)[k] == OverrideAt(t, i, k);
    if k in t && k in i && Descends(t[k], i[k]) {
      assert i[k] == Mapping(i[k].entries);
      if i[k].entries == map[] {
        assert Override(t[k].entries, i[k].entries) == t[k].entries;
        NothingCuts(t[k].entries, p[1..]);
      } else {
        ExtendedIsPlain(t[k].entries, i[k].entries);
        var rest := LeafComesFrom(t[k].entries, i[k].entries, p[1..]);
        e := if IsSecretRef(t[k]) then [k] else [k] + rest;
        assert p == [k] + p[1..] && ([k] + rest)[1..] == rest;
      }
    }
  }

  lemma NothingCuts(t: Entries, p: Path)
    ensures !Cuts(t, map[], p)
  {
  }

  /** A plain mapping stays one unless it or something above it is replaced. */
  lemma {:induction false} PlainSurvives(t: Entries, i: Entries, p: Path)
    requires PlainAt(t, p) && !Cuts(t, i, p)
    ensures PlainAt(Override(t, i), p)
    decreases |p|
  {
    var k := p[0];
    assert Override(t, i)[k] == OverrideAt(t, i, k);
    if k in i && Descends(t[k], i[k]) {
      assert i[k] == Mapping(i[k].entries);
      PlainStaysPlain(t[k], i[k]);
      if |p| > 1 { PlainSurvives(t[k].entries, i[k].entries, p[1..]); }
    }
  }

  /** An extended secret reference has become a plain mapping; nothing on the way to it was replaced. */
  lemma {:induction false} ExtendedBecomesPlain(t: Entries, i: Entries, p: Path)
    requires Extends(t, i, p)
    ensures PlainAt(Override(t, i), p) && !Cuts(t, i, p)
    decreases |p|
  {
    var k := p[0];
    assert Override(t, i)[k] == OverrideAt(t, i, k);
    assert i[k] == Mapping(i[k].entries);
    ExtendedIsPlain(t[k].entries, i[k].entries);
    if |p| > 1 { ExtendedBecomesPlain(t[k].entries, i[k].entries, p[1..]); }
  }

  /** The outermost secret reference that is extended on the way was a leaf. */
  lemma {:induction false} OutermostExtended(t: Entries, i: Entries, p: Path) returns (e: Path)
    requires Extends(t, i, p)
    ensures e <= p && Extends(t, i, e) && LeafIn(t, e)
    decreases |p|
  {
    var k := p[0];
    if IsSecretRef(t[k]) {
      e := [k];
    } else {
      var rest := OutermostExtended(t[k].entries, i[k].entries, p[1..]);
      e := [k] + rest;
      assert e[1..] == rest && p == [k] + p[1..];
    }
  }

  lemma {:induction false} CutsBelow(t: Entries, i: Entries, e: Path, p: Path)
    requires Cuts(t, i, e) && e <= p
    ensures Cuts(t, i, p)
    decreases |e|
  {
    if Descends(t[e[0]], i[e[0]]) { CutsBelow(t[e[0]].entries, i[e[0]].entries, e[1..], p[1..]); }
  }

  // ---------------------------------------------------------------------------------------
  // The document, read off the layers
  // ---------------------------------------------------------------------------------------

  predicate PlainOrAbsent(v: Option<Value>) {
    v.Some? ==> IsPlain(v.value)
  }

  /** `i` holds nothing above `p` but plain mappings. */
  ghost predicate OpenAbove(i: Entries, p: Path) {
    forall n :: 0 < n < |p| ==> PlainOrAbsent(Lookup(i, p[..n]))
  }

  /** And nothing at `p`, except an empty mapping where `v` is a secret reference. */
  ghost predicate Spares(i: Entries, p: Path, v: Value) {
    OpenAbove(i, p) && (Lookup(i, p).Some? ==> IsSecretRef(v) && Lookup(i, p) == Some(Mapping(map[])))
  }

  /** One step down: the paths above `p` are the first key and those above the rest. */
  lemma OpenAboveNext(i: Entries, p: Path)
    requires |p| > 1
    ensures OpenAbove(i, p) <==>
              p[0] !in i || (IsPlain(i[p[0]]) && OpenAbove(i[p[0]].entries, p[1..]))
  {
    var k, r := p[0], p[1..];
    assert p[..1] == [k];
    if k in i && IsPlain(i[k]) {
      forall n | 1 < n < |p| ensures Lookup(i, p[..n]) == Lookup(i[k].entries, r[..n - 1]) {
        assert p[..n][1..] == r[..n - 1];
      }
      forall n | 0 < n < |r| ensures Lookup(i, p[..n + 1]) == Lookup(i[k].entries, r[..n]) {
        assert p[..n + 1][1..] == r[..n];
      }
    } else if k !in i {
      forall n | 0 < n < |p| ensures Lookup(i, p[..n]).None? {}
    } else {
      assert !PlainOrAbsent(Lookup(i, p[..1]));
    }
  }

  /** One layer over a tree: a value that is no plain mapping is the layer's, or it was there and is spared. */
  lemma {:induction false} OverrideHolds(t: Entries, i: Entries, p: Path, v: Value)
    requires p != [] && !IsPlain(v)
    ensures Lookup(Override(t, i), p) == Some(v) <==>
              Lookup(i, p) == Some(v) || (Lookup(t, p) == Some(v) && Spares(i, p, v))
    decreases |p|
  {
    var k := p[0];
    if k in t || k in i { assert Override(t, i)[k] == OverrideAt(t, i, k); }
    if |p| > 1 {
      OpenAboveNext(i, p);
      if k in t && k in i && Descends(t[k], i[k]) {
        assert i[k] == Mapping(i[k].entries);
        OverrideHolds(t[k].entries, i[k].entries, p[1..], v);
      }
    } else if k in t && k in i && Descends(t[k], i[k]) {
      MergedIsSecretIff(t[k], i[k]);
    }
  }

  lemma MergedIsSecretIff(t: Value, i: Value)
    requires t.Mapping? && IsPlain(i)
    ensures var m := Mapping(Override(t.entries, i.entries));
      (IsSecretRef(m) <==> IsSecretRef(t) && i.entries == map[]) && (IsSecretRef(m) ==> m == t)
  {
    var m := Override(t.entries, i.entries);
    assert m.Keys == t.entries.Keys + i.entries.Keys;
    if i.entries == map[] {
      forall k | k in m ensures m[k] == t.entries[k] {
        assert m[k] == OverrideAt(t.entries, i.entries, k);
        KeptAt(t.entries, i.entries, k);
      }
      assert m == t.entries;
    } else {
      ExtendedIsPlain(t.entries, i.entries);
    }
  }

  /** One layer over a tree: a path is there if the layer has it, or if it was there and nothing above it is cut off. */
  lemma {:induction false} OverrideReaches(t: Entries, i: Entries, p: Path)
    requires p != []
    ensures Lookup(Override(t, i), p).Some? <==> Lookup(i, p).Some? || (Lookup(t, p).Some? && OpenAbove(i, p))
    decreases |p|
  {
    var k := p[0];
    if k in t || k in i { assert Override(t, i)[k] == OverrideAt(t, i, k); }
    if |p| > 1 {
      OpenAboveNext(i, p);
      if k in t && k in i && Descends(t[k], i[k]) {
        assert i[k] == Mapping(i[k].entries);
        OverrideReaches(t[k].entries, i[k].entries, p[1..]);
      }
    }
  }

  /** Some layer holds `v` at `p`, and every later layer spares it. */
  ghost predicate Held(layers: seq<Layer>, p: Path, v: Value) {
    exists n :: HeldSince(layers, n, p, v)
  }

  ghost predicate HeldSince(layers: seq<Layer>, n: int, p: Path, v: Value) {
    && 0 <= n < |layers| && Lookup(layers[n].data, p) == Some(v)
    && forall m :: n < m < |layers| ==> Spares(layers[m].data, p, v)
  }

  /** Some layer has something at `p`, and no later layer cuts off what is above. */
  ghost predicate Reached(layers: seq<Layer>, p: Path) {
    exists n :: ReachedSince(layers, n, p)
  }

  ghost predicate ReachedSince(layers: seq<Layer>, n: int, p: Path) {
    && 0 <= n < |layers| && Lookup(layers[n].data, p).Some?
    && forall m :: n < m < |layers| ==> OpenAbove(layers[m].data, p)
  }

  lemma HeldStep(init: seq<Layer>, last: Layer, p: Path, v: Value)
    ensures Held(init + [last], p, v) <==>
              Lookup(last.data, p) == Some(v) || (Held(init, p, v) && Spares(last.data, p, v))
  {
    var all := init + [last];
    if Lookup(last.data, p) == Some(v) { assert HeldSince(all, |init|, p, v); }
    if n :| HeldSince(init, n, p, v) {
      if Spares(last.data, p, v) { assert HeldSince(all, n, p, v); }
    }
    if n :| HeldSince(all, n, p, v) {
      if n < |init| {
        assert forall m :: n < m < |init| ==> all[m] == init[m];
        assert HeldSince(init, n, p, v) && all[|init|] == last;
      }
    }
  }

  lemma ReachedStep(init: seq<Layer>, last: Layer, p: Path)
    ensures Reached(init + [last], p) <==>
              Lookup(last.data, p).Some? || (Reached(init, p) && OpenAbove(last.data, p))
  {
    var all := init + [last];
    if Lookup(last.data, p).Some? { assert ReachedSince(all, |init|, p); }
    if n :| ReachedSince(init, n, p) {
      if OpenAbove(last.data, p) { assert ReachedSince(all, n, p); }
    }
    if n :| ReachedSince(all, n, p) {
      if n < |init| {
        assert forall m :: n < m < |init| ==> all[m] == init[m];
        assert ReachedSince(init, n, p) && all[|init|] == last;
      }
    }
  }

  /**
   Scalars, lists and secret references of the overlay: one is at `p` exactly if some layer holds it there
   and no later layer holds anything at `p`, or anything but a plain mapping above it; an empty mapping over
   a secret reference changes nothing.
   */
  lemma {:induction false} OverlayHoldsIff(layers: seq<Layer>, p: Path, v: Value)
    requires p != [] && !IsPlain(v)
    ensures Lookup(Overlay(layers), p) == Some(v) <==> Held(layers, p, v)
  {
    if layers != [] {
      var init, last := layers[..|layers| - 1], layers[|layers| - 1];
      assert init + [last] == layers;
      OverlayHoldsIff(init, p, v);
      HeldStep(init, last, p, v);
      OverrideHolds(Overlay(init), last.data, p, v);
    }
  }

  /** Whatever is at `p` in the overlay, plain mappings included, is there exactly if some layer reaches so far. */
  lemma {:induction false} OverlayReachesIff(layers: seq<Layer>, p: Path)
    requires p != []
    ensures Lookup(Overlay(layers), p).Some? <==> Reached(layers, p)
  {
    if layers != [] {
      var init, last := layers[..|layers| - 1], layers[|layers| - 1];
      assert init + [last] == layers;
      OverlayReachesIff(init, p);
      ReachedStep(init, last, p);
      OverrideReaches(Overlay(init), last.data, p);
    }
  }

  /** A leaf is a value that is no plain mapping and lies in no secret reference. */
  lemma {:induction false} LeafInIff(m: Entries, p: Path)
    ensures LeafIn(m, p) <==>
              && p != [] && Lookup(m, p).Some? && !IsPlain(Lookup(m, p).value)
              && forall n :: 0 < n < |p| ==> PlainOrAbsent(Lookup(m, p[..n]))
    decreases |p|
  {
    if |p| > 1 {
      OpenAboveNext(m, p);
      assert OpenAbove(m, p) <==> forall n :: 0 < n < |p| ==> PlainOrAbsent(Lookup(m, p[..n]));
      if p[0] in m && IsPlain(m[p[0]]) {
        LeafInIff(m[p[0]].entries, p[1..]);
      }
    }
  }

  lemma {:induction false} LookupInside(m: Entries, p: Path, n: nat)
    requires 0 < n < |p| && Lookup(m, p).Some?
    ensures Lookup(m, p[..n]).Some? && Lookup(m, p[..n]).value.Mapping?
    decreases |p|
  {
    if n > 1 {
      assert p[..n][1..] == p[1..][..n - 1];
      LookupInside(m[p[0]].entries, p[1..], n - 1);
    }
  }

  /** Some layer's secret reference is in force above `p`. */
  ghost predicate InSecret(layers: seq<Layer>, p: Path) {
    exists n, s :: 0 < n < |p| && IsSecretRef(s) && Held(layers, p[..n], s)
  }

  /** The leaves of the overlay and their values, on the layers alone. */
  lemma OverlayLeafIff(layers: seq<Layer>, p: Path, v: Value)
    ensures LeafIn(Overlay(layers), p) && Lookup(Overlay(layers), p) == Some(v) <==>
              p != [] && !IsPlain(v) && Held(layers, p, v) && !InSecret(layers, p)
  {
    var o := Overlay(layers);
    LeafInIff(o, p);
    if p != [] && !IsPlain(v) {
      OverlayHoldsIff(layers, p, v);
      if Lookup(o, p) == Some(v) {
        forall n | 0 < n < |p|
          ensures PlainOrAbsent(Lookup(o, p[..n])) <==> forall s :: IsSecretRef(s) ==> !Held(layers, p[..n], s)
        {
          LookupInside(o, p, n);
          forall s | IsSecretRef(s) ensures Lookup(o, p[..n]) == Some(s) <==> Held(layers, p[..n], s) {
            OverlayHoldsIff(layers, p[..n], s);
          }
        }
      }
    }
  }

  // ---------------------------------------------------------------------------------------
  // Any list of layers
  // ---------------------------------------------------------------------------------------

  /** The secret reference at `p` was extended by some layer, and no later layer replaced the value at or above `p`. */
  ghost predicate Outgrown(layers: seq<Layer>, p: Path) {
    exists n: nat :: OutgrownSince(layers, n, p)
  }

  ghost predicate OutgrownSince(layers: seq<Layer>, n: nat, p: Path) {
    && n < |layers| && Extends(Overlay(layers[..n]), layers[n].data, p)
    && forall m: nat :: n < m < |layers| ==> !CutsAt(layers, m, p)
  }

  ghost predicate CutsAt(layers: seq<Layer>, m: nat, p: Path)
    requires m < |layers|
  {
    Cuts(Overlay(layers[..m]), layers[m].data, p)
  }

  lemma OutgrownStep(init: seq<Layer>, last: Layer, p: Path)
    ensures Outgrown(init + [last], p) <==>
              Extends(Overlay(init), last.data, p) || (Outgrown(init, p) && !Cuts(Overlay(init), last.data, p))
  {
    var all := init + [last];
    assert all[..|init|] == init;
    forall m | 0 <= m < |init| ensures all[..m] == init[..m] && all[m] == init[m] {}
    if Extends(Overlay(init), last.data, p) { assert OutgrownSince(all, |init|, p); }
    if n: nat :| OutgrownSince(init, n, p) {
      if !Cuts(Overlay(init), last.data, p) {
        forall m: nat | n < m < |all| ensures !CutsAt(all, m, p) {
          if m < |init| { assert !CutsAt(init, m, p); }
        }
        assert OutgrownSince(all, n, p);
      }
    }
    if n: nat :| OutgrownSince(all, n, p) {
      if n < |init| {
        forall m: nat | n < m < |init| ensures !CutsAt(init, m, p) { assert !CutsAt(all, m, p); }
        assert !CutsAt(all, |init|, p);
        assert OutgrownSince(init, n, p);
      }
    }
  }

  /** How entries, leaves and outgrown secret references relate, at one path. */
  ghost predicate Related(layers: seq<Layer>, p: Path) {
    && (Recorded(layers, p) ==> LeafIn(Overlay(layers), p) || Outgrown(layers, p))
    && (LeafIn(Overlay(layers), p) ==> Recorded(layers, p) || exists e :: e < p && Outgrown(layers, e))
    && (Outgrown(layers, p) ==> PlainAt(Overlay(layers), p) && StaleAbove(layers, p))
  }

  /** An outgrown secret reference at or above `p` still has its entry. */
  ghost predicate StaleAbove(layers: seq<Layer>, p: Path) {
    exists e :: e <= p && Outgrown(layers, e) && Recorded(layers, e)
  }

  lemma {:induction false} AllRelated(layers: seq<Layer>)
    ensures forall p :: Related(layers, p)
  {
    if layers != [] {
      var init, last := layers[..|layers| - 1], layers[|layers| - 1];
      assert init + [last] == layers;
      AllRelated(init);
      forall p ensures Related(layers, p) {
        EntryRelated(init, last, p);
        LeafRelated(init, last, p);
        OutgrownRelated(init, last, p);
      }
    }
  }

  lemma RecordedStep(init: seq<Layer>, last: Layer, p: Path)
    ensures Recorded(init + [last], p) <==>
              LeafIn(last.data, p) || (Recorded(init, p) && !Cuts(Overlay(init), last.data, p))
    ensures Overlay(init + [last]) == Override(Overlay(init), last.data)
  {
    assert (init + [last])[..|init|] == init;
  }

  lemma EntryRelated(init: seq<Layer>, last: Layer, p: Path)
    requires Related(init, p)
    ensures Recorded(init + [last], p) ==> LeafIn(Overlay(init + [last]), p) || Outgrown(init + [last], p)
  {
    RecordedStep(init, last, p);
    OutgrownStep(init, last, p);
    if LeafIn(last.data, p) {
      LaterLeafStays(Overlay(init), last.data, p);
    } else if Recorded(init + [last], p) && LeafIn(Overlay(init), p) {
      EarlierLeaf(Overlay(init), last.data, p);
    }
  }

  lemma LeafRelated(init: seq<Layer>, last: Layer, p: Path)
    requires Related(init, p)
    ensures LeafIn(Overlay(init + [last]), p) ==>
              Recorded(init + [last], p) || exists e :: e < p && Outgrown(init + [last], e)
  {
    RecordedStep(init, last, p);
    if LeafIn(Overlay(init + [last]), p) && !Recorded(init + [last], p) {
      var t, i := Overlay(init), last.data;
      var e := LeafComesFrom(t, i, p);
      if LeafIn(t, p) && !Cuts(t, i, p) {
        e :| e < p && Outgrown(init, e);
        if Cuts(t, i, e) { CutsBelow(t, i, e, p); }
      }
      OutgrownStep(init, last, e);
    }
  }

  lemma OutgrownRelated(init: seq<Layer>, last: Layer, p: Path)
    requires forall q :: Related(init, q)
    ensures Outgrown(init + [last], p) ==> PlainAt(Overlay(init + [last]), p) && StaleAbove(init + [last], p)
  {
    var t, i := Overlay(init), last.data;
    RecordedStep(init, last, p);
    OutgrownStep(init, last, p);
    if Extends(t, i, p) {
      ExtendedBecomesPlain(t, i, p);
      var e := OutermostExtended(t, i, p);
      OutgrownStep(init, last, e);
      ExtendedBecomesPlain(t, i, e);
      RecordedStep(init, last, e);
      assert Related(init, e);
      if !Recorded(init, e) {
        var o :| o < e && Outgrown(init, o);
        StaleStays(init, last, o, p);
      }
    } else if Outgrown(init + [last], p) {
      assert Related(init, p);
      PlainSurvives(t, i, p);
      StaleStays(init, last, p, p);
    }
  }

  lemma StaleStays(init: seq<Layer>, last: Layer, o: Path, p: Path)
    requires o <= p && Outgrown(init, o) && Related(init, o) && !Cuts(Overlay(init), last.data, p)
    ensures StaleAbove(init + [last], p)
  {
    var e :| e <= o && Outgrown(init, e) && Recorded(init, e);
    if Cuts(Overlay(init), last.data, e) { CutsBelow(Overlay(init), last.data, e, p); }
    OutgrownStep(init, last, e);
    RecordedStep(init, last, e);
  }

  /** No extension of a secret reference is left standing. */
  ghost predicate NoneOutgrown(layers: seq<Layer>) {
    forall p :: !Outgrown(layers, p)
  }

  ghost predicate RecordedLeaves(layers: seq<Layer>) {
    forall p :: RecordedLeaf(layers, p)
  }

  ghost predicate RecordedLeaf(layers: seq<Layer>, p: Path) {
    Recorded(layers, p) <==> LeafIn(Overlay(layers), p)
  }

  /** On the layers alone: every path has an entry exactly when it is a leaf, if and only if nothing is outgrown. */
  lemma RecordedLeavesIff(layers: seq<Layer>)
    ensures RecordedLeaves(layers) <==> NoneOutgrown(layers)
  {
    AllRelated(layers);
    if p :| Outgrown(layers, p) {
      OutgrownHasNoLeaf(layers, p);
    } else {
      forall p ensures RecordedLeaf(layers, p) { assert Related(layers, p); }
    }
  }

  lemma OutgrownHasNoLeaf(layers: seq<Layer>, p: Path)
    requires Outgrown(layers, p) && forall q :: Related(layers, q)
    ensures !RecordedLeaves(layers)
  {
    assert Related(layers, p);
    var e :| e <= p && Outgrown(layers, e) && Recorded(layers, e);
    assert Related(layers, e);
    PlainIsNoLeaf(Overlay(layers), e);
    assert !RecordedLeaf(layers, e);
  }

  // ---------------------------------------------------------------------------------------
  // Composition
  // ---------------------------------------------------------------------------------------

  /** The tree is the overlay; the entries are the recorded paths, each naming the last layer with that leaf. */
  ghost predicate Exact(layers: seq<Layer>, st: State) {
    st.target == Overlay(layers) && forall p :: ExactAt(layers, st, p)
  }

  ghost predicate ExactAt(layers: seq<Layer>, st: State, p: Path) {
    && (p in st.prov <==> Recorded(layers, p))
    && (p in st.prov ==> 0 <= LastDefining(layers, p) && st.prov[p] == layers[LastDefining(layers, p)].tag)
  }

  lemma ExactStepAt(init: seq<Layer>, last: Layer, st: State, s: State, p: Path)
    requires Exact(init, st) && SameNotBelow(st.prov, s.prov, [])
    requires p != [] ==> EntryAfter(st, last.data, last.tag, [], s, p)
    ensures ExactAt(init + [last], s, p)
  {
    assert ExactAt(init, st, p) && [] + p == p;
    assert (init + [last])[..|init|] == init;
    RecordedStep(init, last, p);
  }

  lemma ExactFailure(init: seq<Layer>, last: Layer, st: State)
    requires Exact(init, st)
    ensures Merge(st, last.data, last.tag, []).None? <==> exists q :: UnaccountedAt(init, last.data, q)
  {
    MergeFailsIff(st, last.data, last.tag, []);
    forall p ensures p in st.prov <==> Recorded(init, p) { assert ExactAt(init, st, p); }
    forall q ensures Unaccounted(st.prov, [], st.target, last.data, q) <==> UnaccountedAt(init, last.data, q) {
      assert [] + q == q;
    }
  }

  lemma ExactStep(init: seq<Layer>, last: Layer, st: State)
    requires Exact(init, st) && Merge(st, last.data, last.tag, []).Some?
    ensures Exact(init + [last], Merge(st, last.data, last.tag, []).value)
  {
    var s := Merge(st, last.data, last.tag, []).value;
    MergeFrame(st, last.data, last.tag, []);
    RecordedStep(init, last, []);
    forall p ensures ExactAt(init + [last], s, p) {
      if p != [] { MergeEntry(st, last.data, last.tag, [], p); }
      ExactStepAt(init, last, st, s, p);
    }
  }

  /**
   For every list of layers: composition fails exactly when some layer replaces a value that has no
   entry at or below it; otherwise the tree is the overlay of the layers, and which paths have an entry,
   and which layer it names, is read off the layers.
   */
  lemma {:induction false} ComposeExact(layers: seq<Layer>)
    ensures Compose(layers).None? <==> SomeUnaccounted(layers)
    ensures Compose(layers).Some? ==> Exact(layers, Compose(layers).value)
  {
    if layers == [] {
      forall p ensures ExactAt([], EMPTY, p) {}
    } else {
      var init, last := layers[..|layers| - 1], layers[|layers| - 1];
      ComposeExact(init);
      assert init + [last] == layers;
      if Compose(init).Some? {
        ExactFailure(init, last, Compose(init).value);
        if Compose(layers).Some? { ExactStep(init, last, Compose(init).value); }
      }
    }
  }

  /** A leaf with an entry has the value it has in the layer the entry names. */
  lemma {:induction false} RecordedValue(layers: seq<Layer>, p: Path)
    requires Recorded(layers, p) && LeafIn(Overlay(layers), p)
    ensures 0 <= LastDefining(layers, p)
    ensures Lookup(Overlay(layers), p) == Lookup(layers[LastDefining(layers, p)].data, p)
  {
    var init, last := layers[..|layers| - 1], layers[|layers| - 1];
    assert init + [last] == layers;
    RecordedStep(init, last, p);
    if LeafIn(last.data, p) {
      LaterLeafStays(Overlay(init), last.data, p);
    } else {
      AllRelated(init);
      assert Related(init, p);
      if Outgrown(init, p) {
        PlainSurvives(Overlay(init), last.data, p);
        PlainIsNoLeaf(Overlay(layers), p);
      }
      EarlierLeaf(Overlay(init), last.data, p);
      RecordedValue(init, p);
    }
  }

  /** What `docs/governance-bundles.md` promises of the composed document and its provenance. */
  ghost predicate Composed(layers: seq<Layer>, st: State) {
    st.target == Overlay(layers) && forall p :: Attributed(layers, st, p)
  }

  /** The path has an entry exactly when it is a leaf; the entry names the last layer with that leaf and value. */
  ghost predicate Attributed(layers: seq<Layer>, st: State, p: Path) {
    && (p in st.prov <==> LeafIn(st.target, p))
    && (p in st.prov ==>
          var n := LastDefining(layers, p);
          0 <= n && st.prov[p] == layers[n].tag && Lookup(st.target, p) == Lookup(layers[n].data, p))
  }

  /**
   Whenever composition succeeds, its result is what the documentation promises if and only if every
   extension of a secret reference was followed by a later layer that replaces the value there or above.
   */
  lemma ComposedIffNoneOutgrown(layers: seq<Layer>)
    requires Compose(layers).Some?
    ensures Composed(layers, Compose(layers).value) <==> NoneOutgrown(layers)
  {
    ComposeExact(layers);
    RecordedLeavesIff(layers);
    var st := Compose(layers).value;
    if RecordedLeaves(layers) {
      forall p ensures Attributed(layers, st, p) {
        assert ExactAt(layers, st, p) && RecordedLeaf(layers, p);
        if p in st.prov { RecordedValue(layers, p); }
      }
    } else {
      var p :| !RecordedLeaf(layers, p);
      assert ExactAt(layers, st, p) && !Attributed(layers, st, p);
    }
  }

  /** The last of these layers with the recorded leaf `p` has this name. */
  ghost predicate LastNamed(layers: seq<Layer>, p: Path, name: string) {
    Recorded(layers, p) && 0 <= LastDefining(layers, p) && layers[LastDefining(layers, p)].tag.layer == name
  }

  ghost predicate LastNamedBelow(layers: seq<Layer>, p: Path, name: string) {
    exists q :: p < q && LastNamed(layers, q, name)
  }

  /** A conflict at `p` names the layer of the leaf there, or the one of all leaves below, or says they are mixed. */
  ghost predicate NamesHolder(layers: seq<Layer>, p: Path, name: string) {
    if Recorded(layers, p) then LastNamed(layers, p, name)
    else if exists a, b :: a != b && LastNamedBelow(layers, p, a) && LastNamedBelow(layers, p, b) then name == "mixed"
    else LastNamedBelow(layers, p, name)
  }

  lemma HolderIsNamed(layers: seq<Layer>, st: State, p: Path)
    requires Exact(layers, st) && PreviousLayer(st.prov, p).Some?
    ensures NamesHolder(layers, p, PreviousLayer(st.prov, p).value)
  {
    hide PreviousLayer, Recorded, LastDefining;
    PreviousNames(st.prov, p);
    assert ExactAt(layers, st, p);
    forall name ensures Beneath(st.prov, p, name) <==> LastNamedBelow(layers, p, name) {
      if Beneath(st.prov, p, name) {
        var q :| q in st.prov && p < q && st.prov[q].layer == name;
        assert ExactAt(layers, st, q) && LastNamed(layers, q, name);
      }
      if LastNamedBelow(layers, p, name) {
        var q :| p < q && LastNamed(layers, q, name);
        assert ExactAt(layers, st, q) && q in st.prov;
      }
    }
  }

  /**
   The conflict report of a composition: each layer adds one conflict for each value it replaces, and no
   other, with its own name and that of the layer that held the value.
   */
  lemma ConflictsExact(init: seq<Layer>, last: Layer) returns (log: seq<Conflict>)
    requires Compose(init + [last]).Some?
    ensures Compose(init).Some? && Compose(init + [last]).value.conflicts == Compose(init).value.conflicts + log
    ensures forall c :: c in log ==>
      && Replaces(Overlay(init), last.data, c.path)
      && c.newLayer == last.tag.layer && NamesHolder(init, c.path, c.previousLayer)
    ensures forall p :: Replaces(Overlay(init), last.data, p) ==> Logged(log, p)
    ensures OnceEach(log)
  {
    hide Exact, NamesHolder, Replaces, Merge;
    ComposeUnfold(init, last);
    ComposeExact(init);
    var st := Compose(init).value;
    TreeIsOverlay(init, st);
    log := MergeReports(st, last.data, last.tag, []);
    forall c | c in log
      ensures Replaces(Overlay(init), last.data, c.path)
      ensures c.newLayer == last.tag.layer && NamesHolder(init, c.path, c.previousLayer)
    {
      assert c.path[0..] == c.path;
      HolderIsNamed(init, st, c.path);
    }
    forall p | Replaces(Overlay(init), last.data, p) ensures Logged(log, p) {
      ReplacesStarts(Overlay(init), last.data, p);
      assert [] + p == p;
    }
  }

  lemma TreeIsOverlay(layers: seq<Layer>, st: State)
    requires Exact(layers, st)
    ensures st.target == Overlay(layers)
  {
  }

  /** Every leaf of the last layer is in the composed document, unchanged and attributed to it. */
  lemma LastLayerSurvives(layers: seq<Layer>, p: Path)
    requires layers != [] && Compose(layers).Some? && LeafIn(layers[|layers| - 1].data, p)
    ensures var st, last := Compose(layers).value, layers[|layers| - 1];
      && LeafIn(st.target, p) && Lookup(st.target, p) == Lookup(last.data, p)
      && p in st.prov && st.prov[p] == last.tag
  {
    ComposeExact(layers);
    assert ExactAt(layers, Compose(layers).value, p);
    LaterLeafStays(Overlay(layers[..|layers| - 1]), layers[|layers| - 1].data, p);
  }

  // ---------------------------------------------------------------------------------------
  // Layers that never extend a secret reference
  // ---------------------------------------------------------------------------------------

  /** No non-empty plain mapping of `i` meets a secret reference of `t`. */
  predicate SecretsKept(t: Entries, i: Entries)
    decreases Mapping(i), 1
  {
    forall k :: k in i ==> SecretKeptAt(t, i, k)
  }

  predicate SecretKeptAt(t: Entries, i: Entries, k: Key)
    requires k in i
    decreases Mapping(i), 0
  {
    k in t && Descends(t[k], i[k]) ==>
      assert i[k] == Mapping(i[k].entries);
      if IsSecretRef(t[k]) then i[k].entries == map[] else SecretsKept(t[k].entries, i[k].entries)
  }

  predicate AllSecretsKept(layers: seq<Layer>) {
    layers == [] ||
    (AllSecretsKept(layers[..|layers| - 1]) &&
     SecretsKept(Overlay(layers[..|layers| - 1]), layers[|layers| - 1].data))
  }

  /** A plain mapping without a single leaf below it, such as `{}` or `{a: {}}`. */
  predicate Leafless(v: Value) {
    IsPlain(v) && forall k :: k in v.entries ==> Leafless(v.entries[k])
  }

  /** `i` puts a leaf where `t` has a leafless mapping. */
  predicate Clashes(t: Entries, i: Entries)
    decreases Mapping(i), 1
  {
    exists k :: k in i && ClashesAt(t, i, k)
  }

  predicate ClashesAt(t: Entries, i: Entries, k: Key)
    requires k in i
    decreases Mapping(i), 0
  {
    k in t &&
    if Descends(t[k], i[k]) then
      assert i[k] == Mapping(i[k].entries);
      Clashes(t[k].entries, i[k].entries)
    else t[k] != i[k] && Leafless(t[k])
  }

  lemma {:induction false} LeaflessHasNoLeaf(v: Value, r: Path)
    requires Leafless(v)
    ensures !LeafBelow(v, r)
    decreases |r|
  {
    if r != [] && r[0] in v.entries { LeaflessHasNoLeaf(v.entries[r[0]], r[1..]); }
  }

  lemma {:induction false} OtherwiseHasLeaf(v: Value) returns (r: Path)
    requires !Leafless(v)
    ensures LeafBelow(v, r)
  {
    r := [];
    if IsPlain(v) {
      var k :| k in v.entries && !Leafless(v.entries[k]);
      var rest := OtherwiseHasLeaf(v.entries[k]);
      r := [k] + rest;
      assert r[1..] == rest;
    }
  }

  /** `i` extends no secret reference of `t`. */
  ghost predicate ExtendsNothing(t: Entries, i: Entries) {
    forall p :: !Extends(t, i, p)
  }

  ghost predicate ExtendsNothingUnder(t: Entries, i: Entries, k: Key) {
    forall p: Path :: p != [] && p[0] == k ==> !Extends(t, i, p)
  }

  lemma {:induction false} SecretsKeptIff(t: Entries, i: Entries)
    ensures SecretsKept(t, i) <==> ExtendsNothing(t, i)
    decreases Mapping(i)
  {
    forall k | k in i ensures SecretKeptAt(t, i, k) <==> ExtendsNothingUnder(t, i, k) { SecretKeptAtIff(t, i, k); }
    if !ExtendsNothing(t, i) {
      var p :| Extends(t, i, p);
      assert p[0] in i && !ExtendsNothingUnder(t, i, p[0]);
    }
  }

  lemma {:induction false} SecretKeptAtIff(t: Entries, i: Entries, k: Key)
    requires k in i
    ensures SecretKeptAt(t, i, k) <==> ExtendsNothingUnder(t, i, k)
    decreases Mapping(i), 0
  {
    if k in t && Descends(t[k], i[k]) {
      assert i[k] == Mapping(i[k].entries);
      SecretsKeptIff(t[k].entries, i[k].entries);
      if IsSecretRef(t[k]) {
        if i[k].entries != map[] { assert Extends(t, i, [k]); }
        forall p: Path | p != [] && p[0] == k && i[k].entries == map[] ensures !Extends(t, i, p) {}
      } else {
        if !ExtendsNothing(t[k].entries, i[k].entries) {
          var r :| Extends(t[k].entries, i[k].entries, r);
          assert ([k] + r)[1..] == r;
          assert Extends(t, i, [k] + r);
        }
        forall p: Path | p != [] && p[0] == k && ExtendsNothing(t[k].entries, i[k].entries) ensures !Extends(t, i, p) {
          assert !Extends(t[k].entries, i[k].entries, p[1..]);
        }
      }
    }
  }

  lemma AgreesBelow(prov: map<Path, Tag>, path: Path, m: Entries, k: Key)
    requires Agrees(prov, path, m) && k in m && IsPlain(m[k])
    ensures Agrees(prov, path + [k], m[k].entries)
  {
    forall q: Path | q != [] ensures (path + [k]) + q in prov <==> LeafIn(m[k].entries, q) {
      assert (path + [k]) + q == path + ([k] + q);
      assert ([k] + q)[1..] == q;
      assert LeafIn(m, [k] + q) <==> LeafBelow(m[k], q);
    }
  }

  lemma MissingIffLeafless(prov: map<Path, Tag>, path: Path, t: Entries, k: Key)
    requires Agrees(prov, path, t) && k in t
    ensures PreviousLayer(prov, path + [k]).None? <==> Leafless(t[k])
  {
    PreviousLayerNoneIff(prov, path + [k]);
    if Leafless(t[k]) {
      forall p | p in prov ensures !(path + [k] <= p) {
        var q := if path + [k] <= p then p[|path|..] else [k];
        if path + [k] <= p { assert p == path + q && q[0] == k; }
        LeaflessHasNoLeaf(t[k], q[1..]);
      }
    } else {
      var r := OtherwiseHasLeaf(t[k]);
      assert ([k] + r)[1..] == r && LeafIn(t, [k] + r);
      assert path + ([k] + r) == (path + [k]) + r && path + [k] <= (path + [k]) + r;
    }
  }

  /** With entries and leaves in step, the values replaced without an entry are the leafless ones. */
  lemma {:induction false} ClashesIffUnaccounted(prov: map<Path, Tag>, path: Path, t: Entries, i: Entries)
    requires Agrees(prov, path, t) && SecretsKept(t, i)
    ensures Clashes(t, i) <==> exists q :: Unaccounted(prov, path, t, i, q)
    decreases Mapping(i), 1
  {
    forall k | k in i ensures ClashesAt(t, i, k) <==> UnaccountedUnder(prov, path, t, i, [k]) {
      ClashesAtIffUnaccounted(prov, path, t, i, k);
    }
    if q :| Unaccounted(prov, path, t, i, q) {
      assert q[0] in [q[0]] && UnaccountedUnder(prov, path, t, i, [q[0]]);
    }
  }

  lemma {:induction false} ClashesAtIffUnaccounted(prov: map<Path, Tag>, path: Path, t: Entries, i: Entries, k: Key)
    requires Agrees(prov, path, t) && SecretsKept(t, i) && k in i
    ensures ClashesAt(t, i, k) <==> UnaccountedUnder(prov, path, t, i, [k])
    decreases Mapping(i), 0
  {
    assert SecretKeptAt(t, i, k);
    if k in t && Descends(t[k], i[k]) {
      assert i[k] == Mapping(i[k].entries);
      UnaccountedBelow(prov, path, t, i, k);
      if !IsSecretRef(t[k]) {
        AgreesBelow(prov, path, t, k);
        ClashesIffUnaccounted(prov, path + [k], t[k].entries, i[k].entries);
      }
    } else {
      UnaccountedHere(prov, path, t, i, k);
      if k in t {
        MissingIffLeafless(prov, path, t, k);
        PreviousLayerNoneIff(prov, path + [k]);
      }
    }
  }

  /** A merge from a state in step that extends no secret reference: it fails on a clash only, and stays in step. */
  lemma MergeCorrect(st: State, incoming: Entries, tag: Tag, path: Path)
    requires Agrees(st.prov, path, st.target) && SecretsKept(st.target, incoming)
    ensures Merge(st, incoming, tag, path).None? <==> Clashes(st.target, incoming)
    ensures var r := Merge(st, incoming, tag, path); r.Some? ==>
      Agrees(r.value.prov, path, r.value.target) &&
      forall q :: q != [] ==> EntryAfter(st, incoming, tag, path, r.value, q)
  {
    MergeFailsIff(st, incoming, tag, path);
    ClashesIffUnaccounted(st.prov, path, st.target, incoming);
    var r := Merge(st, incoming, tag, path);
    if r.Some? {
      MergeFrame(st, incoming, tag, path);
      SecretsKeptIff(st.target, incoming);
      forall q: Path | q != []
        ensures EntryAfter(st, incoming, tag, path, r.value, q)
        ensures path + q in r.value.prov <==> LeafIn(r.value.target, q)
      {
        MergeEntry(st, incoming, tag, path, q);
        LeafAfter(st.target, incoming, q);
      }
    }
  }

  /** Under an override that extends nothing: the later leaves, and the earlier ones not cut. */
  lemma LeafAfter(t: Entries, i: Entries, q: Path)
    requires ExtendsNothing(t, i)
    ensures LeafIn(Override(t, i), q) <==> LeafIn(i, q) || (LeafIn(t, q) && !Cuts(t, i, q))
  {
    if LeafIn(i, q) { LaterLeafStays(t, i, q); }
    if LeafIn(t, q) && !Cuts(t, i, q) { EarlierLeaf(t, i, q); }
    if LeafIn(Override(t, i), q) { var e := LeafComesFrom(t, i, q); }
  }

  /** One merge: the entries are exactly the leaves afterwards iff no secret reference was extended. */
  lemma AgreementExactlyWhenSecretsKept(st: State, incoming: Entries, tag: Tag)
    requires Agrees(st.prov, [], st.target) && Merge(st, incoming, tag, []).Some?
    ensures var s := Merge(st, incoming, tag, []).value;
      Agrees(s.prov, [], s.target) <==> SecretsKept(st.target, incoming)
  {
    SecretsKeptIff(st.target, incoming);
    if SecretsKept(st.target, incoming) {
      MergeCorrect(st, incoming, tag, []);
    } else {
      var p :| Extends(st.target, incoming, p);
      ExtensionLeavesEntry(st, incoming, tag, p);
    }
  }

  lemma ExtensionLeavesEntry(st: State, incoming: Entries, tag: Tag, p: Path)
    requires Agrees(st.prov, [], st.target) && Merge(st, incoming, tag, []).Some? && Extends(st.target, incoming, p)
    ensures var s := Merge(st, incoming, tag, []).value; !Agrees(s.prov, [], s.target)
  {
    var s := Merge(st, incoming, tag, []).value;
    var e := OutermostExtended(st.target, incoming, p);
    MergeFrame(st, incoming, tag, []);
    MergeEntry(st, incoming, tag, [], e);
    ExtendedBecomesPlain(st.target, incoming, e);
    PlainIsNoLeaf(s.target, e);
    assert [] + e == e && e in s.prov;
  }

  lemma {:induction false} KeptSecretsAreNotOutgrown(layers: seq<Layer>)
    requires AllSecretsKept(layers)
    ensures NoneOutgrown(layers)
  {
    if layers != [] {
      var init, last := layers[..|layers| - 1], layers[|layers| - 1];
      assert init + [last] == layers;
      KeptSecretsAreNotOutgrown(init);
      SecretsKeptIff(Overlay(init), last.data);
      forall p ensures !Outgrown(layers, p) { OutgrownStep(init, last, p); }
    }
  }

  /** Some layer puts a leaf on a leafless mapping of the layers before it. */
  predicate SomeClash(layers: seq<Layer>) {
    layers != [] &&
    (SomeClash(layers[..|layers| - 1]) || Clashes(Overlay(layers[..|layers| - 1]), layers[|layers| - 1].data))
  }

  /**
   For layers that never extend a secret reference, composition fails exactly when some layer puts
   a leaf on a leafless mapping of the layers before it; otherwise the tree is the overlay of the
   layers and the entries are its leaves, each naming the last layer that has that leaf.
   */
  lemma {:induction false} ComposeCorrect(layers: seq<Layer>)
    requires AllSecretsKept(layers)
    ensures Compose(layers).None? <==> SomeClash(layers)
    ensures Compose(layers).Some? ==> Composed(layers, Compose(layers).value)
  {
    if layers != [] {
      var init, last := layers[..|layers| - 1], layers[|layers| - 1];
      ComposeCorrect(init);
      if Compose(init).Some? {
        ComposedAgrees(init, Compose(init).value);
        MergeCorrect(Compose(init).value, last.data, last.tag, []);
      }
    }
    KeptSecretsAreNotOutgrown(layers);
    if Compose(layers).Some? { ComposedIffNoneOutgrown(layers); }
  }

  lemma ComposedAgrees(layers: seq<Layer>, st: State)
    requires Composed(layers, st)
    ensures Agrees(st.prov, [], st.target)
  {
    forall q: Path | q != [] ensures [] + q in st.prov <==> LeafIn(st.target, q) {
      assert [] + q == q && Attributed(layers, st, q);
    }
  }

  // ---------------------------------------------------------------------------------------
  // Examples
  // ---------------------------------------------------------------------------------------

  const SECRET := Mapping(map["secret_ref" := Scalar("T")])
  const ORG := Layer(Tag("org", "o"), map["a" := SECRET])
  const TEAM := Layer(Tag("team", "t"), map["a" := Mapping(map["b" := Scalar("1")])])
  const USER := Layer(Tag("user", "u"), map["a" := Scalar("5")])

  lemma OverlaysOfExamples()
    ensures Overlay([ORG]) == ORG.data
    ensures Overlay([ORG, TEAM]) == map["a" := Mapping(map["secret_ref" := Scalar("T"), "b" := Scalar("1")])]
  {
    assert [ORG][..0] == [] && [ORG, TEAM][..1] == [ORG];
    assert Override(map[], ORG.data) == ORG.data;
    var inner := Override(SECRET.entries, TEAM.data["a"].entries);
    assert inner == map["secret_ref" := Scalar("T"), "b" := Scalar("1")];
    assert Override(ORG.data, TEAM.data) == map["a" := Mapping(inner)];
  }

  lemma ExtendsOfExamples()
    ensures Extends(ORG.data, TEAM.data, ["a"])
    ensures forall p :: Extends(ORG.data, TEAM.data, p) ==> p == ["a"]
  {
    assert "b" in TEAM.data["a"].entries;
    forall p | Extends(ORG.data, TEAM.data, p) ensures p == ["a"] {
      if |p| > 1 { assert !Extends(SECRET.entries, TEAM.data["a"].entries, p[1..]); }
    }
  }

  lemma ExampleComposes()
    ensures Compose([ORG, TEAM]).Some?
  {
    var layers := [ORG, TEAM];
    OverlaysOfExamples();
    assert layers[..1] == [ORG] && [ORG][..0] == [];
    ComposeExact(layers);
    assert !SomeUnaccounted([ORG]);
    forall q ensures !UnaccountedAt([ORG], TEAM.data, q) {
      if q != [] && q[0] in TEAM.data { assert !Replaces(SECRET.entries, TEAM.data["a"].entries, q[1..]); }
    }
  }

  lemma ExampleOutgrown(p: Path)
    ensures Outgrown([ORG, TEAM], p) <==> p == ["a"]
  {
    OverlaysOfExamples();
    ExtendsOfExamples();
    assert [ORG] + [TEAM] == [ORG, TEAM] && [] + [ORG] == [ORG];
    OutgrownStep([ORG], TEAM, p);
    OutgrownStep([], ORG, p);
    assert !Extends(map[], ORG.data, p) && !Outgrown([], p);
  }

  /** Two layers that compose, but not into what is promised. */
  lemma ExtendedSecretExample()
    ensures Compose([ORG, TEAM]).Some? && !Composed([ORG, TEAM], Compose([ORG, TEAM]).value)
  {
    ExampleComposes();
    ExampleOutgrown(["a"]);
    ComposedIffNoneOutgrown([ORG, TEAM]);
  }

  /** A third layer that replaces the extended value puts it right again. */
  lemma RepairedSecretExample()
    ensures !AllSecretsKept([ORG, TEAM, USER])
    ensures Compose([ORG, TEAM, USER]).Some? && Composed([ORG, TEAM, USER], Compose([ORG, TEAM, USER]).value)
  {
    hide Compose, Composed, NoneOutgrown, AllSecretsKept;
    RepairedExtends();
    RepairedComposes();
    RepairedIsNotOutgrown();
    ComposedIffNoneOutgrown([ORG, TEAM, USER]);
  }

  lemma RepairedExtends()
    ensures !AllSecretsKept([ORG, TEAM, USER])
  {
    assert [ORG, TEAM, USER][..2] == [ORG, TEAM] && [ORG, TEAM][..1] == [ORG];
    OverlaysOfExamples();
    ExtendsOfExamples();
    SecretsKeptIff(Overlay([ORG]), TEAM.data);
    assert !AllSecretsKept([ORG, TEAM]);
  }

  lemma RepairedComposes()
    ensures Compose([ORG, TEAM, USER]).Some?
  {
    hide Compose, SomeUnaccounted, UnaccountedAt, Overlay;
    ExampleComposes();
    ComposeExact([ORG, TEAM]);
    ExactFailure([ORG, TEAM], USER, Compose([ORG, TEAM]).value);
    NothingUnaccounted();
    ComposeUnfold([ORG, TEAM], USER);
    assert [ORG, TEAM] + [USER] == [ORG, TEAM, USER];
  }

  lemma NothingUnaccounted()
    ensures forall q :: !UnaccountedAt([ORG, TEAM], USER.data, q)
  {
    OverlaysOfExamples();
    ExampleRecords();
    forall q ensures !UnaccountedAt([ORG, TEAM], USER.data, q) {
      if Replaces(Overlay([ORG, TEAM]), USER.data, q) { assert q == ["a"] && q <= ["a", "b"]; }
    }
  }

  lemma ExampleRecords()
    ensures Recorded([ORG, TEAM], ["a", "b"])
  {
    assert ["a", "b"][1..] == ["b"] && LeafIn(TEAM.data, ["a", "b"]);
    assert [ORG] + [TEAM] == [ORG, TEAM];
    RecordedStep([ORG], TEAM, ["a", "b"]);
  }

  lemma RepairedIsNotOutgrown()
    ensures NoneOutgrown([ORG, TEAM, USER])
  {
    assert [ORG, TEAM] + [USER] == [ORG, TEAM, USER];
    OverlaysOfExamples();
    forall p ensures !Outgrown([ORG, TEAM, USER], p) {
      OutgrownStep([ORG, TEAM], USER, p);
      ExampleOutgrown(p);
      assert !Extends(Overlay([ORG, TEAM]), USER.data, p) && Cuts(Overlay([ORG, TEAM]), USER.data, ["a"]);
    }
  }
}
