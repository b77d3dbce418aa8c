/**
 The composer of layered configuration (src/mcp_broker/config_layers.py) with provenance and conflicts
 kept under dotted strings, as the source keeps them. It refines the composer of `ConfigLayers`, which
 keeps them under sequences of keys, exactly as long as no dotted string stands for two places.
 */
module LayeredConfig {
  import opened Prelude
  import opened DottedPaths
  import opened ConfigLayers
  import opened ConfigComposition

  datatype Report = Report(path: string, previousLayer: string, newLayer: string)

  /** The three structures the merge updates together. */
  datatype Books = Books(target: Entries, provenance: map<string, Tag>, conflicts: seq<Report>)

  // ---------------------------------------------------------------------------------------
  // The merge as the source performs it
  // ---------------------------------------------------------------------------------------

  /** The path is the dotted one or starts with it and a dot. */
  predicate AtOrUnder(dotted: string, path: string) {
    path == dotted || dotted + "." <= path
  }

  /** `_previous_layer_for_path`; `None` is the "missing provenance" failure. */
  function PreviousDotted(prov: map<string, Tag>, dotted: string): Option<string> {
    if dotted in prov then Some(prov[dotted].layer) else
      var layers := set s | s in prov && dotted + "." <= s :: prov[s].layer;
      if |layers| == 1 then
        Single(layers);
        var l :| l in layers; Some(l)
      else if layers != {} then Some("mixed") else None
  }

  /** `_clear_provenance` */
  function ClearDotted(prov: map<string, Tag>, dotted: string): map<string, Tag> {
    map s | s in prov && !AtOrUnder(dotted, s) :: prov[s]
  }

  function Dotted(paths: set<Path>): set<string> {
    set p | p in paths :: Join(p)
  }

  function StampDotted(prov: map<string, Tag>, paths: set<Path>, tag: Tag): map<string, Tag> {
    prov + map s | s in Dotted(paths) :: tag
  }

  /** `_record_provenance` */
  function RecordDotted(prov: map<string, Tag>, v: Value, tag: Tag, path: Path): map<string, Tag> {
    StampDotted(prov, LeavesFrom(v, path), tag)
  }

  /** One iteration of the loop in `_merge_mapping`. */
  function MergeKeyDotted(k: Key, b: Books, incoming: Entries, tag: Tag, path: Path): Option<Books>
    requires k in incoming
    decreases Mapping(incoming), 0
  {
    var child := path + [k];
    var dotted := Join(child);
    if k in b.target && Descends(b.target[k], incoming[k]) then
      assert incoming[k] == Mapping(incoming[k].entries);
      match MergeDotted(b.(target := b.target[k].entries), incoming[k].entries, tag, child)
      case None => None
      case Some(sub) => Some(sub.(target := b.target[k := Mapping(sub.target)]))
    else if k in b.target && b.target[k] != incoming[k] then
      match PreviousDotted(b.provenance, dotted)
      case None => None
      case Some(previous) =>
        Some(Books(b.target[k := incoming[k]],
                   RecordDotted(ClearDotted(b.provenance, dotted), incoming[k], tag, child),
                   b.conflicts + [Report(dotted, previous, tag.layer)]))
    else
      Some(b.(target := b.target[k := incoming[k]],
              provenance := RecordDotted(b.provenance, incoming[k], tag, child)))
  }

  function MergeKeysDotted(keys: seq<Key>, b: Books, incoming: Entries, tag: Tag, path: Path): Option<Books>
    requires forall k :: k in keys ==> k in incoming
    decreases Mapping(incoming), 1, |keys|
  {
    if keys == [] then Some(b) else
      match MergeKeyDotted(keys[0], b, incoming, tag, path)
      case None => None
      case Some(next) => MergeKeysDotted(keys[1..], next, incoming, tag, path)
  }

  /** `_merge_mapping`: `b.target` is the sub-tree at `path`, `b.provenance` the whole provenance. */
  function MergeDotted(b: Books, incoming: Entries, tag: Tag, path: Path): Option<Books>
    decreases Mapping(incoming), 2
  {
    MergeKeysDotted(Sorted(incoming.Keys), b, incoming, tag, path)
  }

  /** The fold of `compose_layered_config` after validation; `None` when a merge fails. */
  function ComposeDotted(layers: seq<Layer>): Option<Books> {
    if layers == [] then Some(Books(map[], map[], [])) else
      MergeOntoDotted(ComposeDotted(layers[..|layers| - 1]), layers[|layers| - 1])
  }

  function MergeOntoDotted(before: Option<Books>, layer: Layer): Option<Books> {
    if before.None? then None else MergeDotted(before.value, layer.data, layer.tag, [])
  }

  // ---------------------------------------------------------------------------------------
  // The composer itself: loops over sorted keys that update provenance and conflicts in place
  // ---------------------------------------------------------------------------------------

  function KeySet(keys: seq<Key>): set<Key> {
    set k | k in keys
  }

  lemma NextKey(keys: seq<Key>, i: nat)
    requires i < |keys|
    ensures KeySet(keys[..i + 1]) == KeySet(keys[..i]) + {keys[i]}
  {
    assert keys[..i + 1] == keys[..i] + [keys[i]];
  }

  lemma StampDottedNone(prov: map<string, Tag>, v: Value, path: Path, tag: Tag)
    requires v.Mapping?
    ensures StampDotted(prov, LeavesUnder(v, {}, path), tag) == prov
  {
    assert Dotted(LeavesUnder(v, {}, path)) == {};
  }

  /** Recording one more entry of a mapping after some of them. */
  lemma StampDottedNext(prov: map<string, Tag>, v: Value, keys: set<Key>, k: Key, path: Path, tag: Tag)
    requires v.Mapping? && keys <= v.entries.Keys && k in v.entries
    ensures RecordDotted(StampDotted(prov, LeavesUnder(v, keys, path), tag), v.entries[k], tag, path + [k]) ==
              StampDotted(prov, LeavesUnder(v, keys + {k}, path), tag)
  {
    var done, more := LeavesUnder(v, keys, path), LeavesFrom(v.entries[k], path + [k]);
    assert LeavesUnder(v, keys + {k}, path) == done + more;
    StampDottedTwice(prov, done, more, tag);
  }

  lemma StampDottedTwice(prov: map<string, Tag>, a: set<Path>, b: set<Path>, tag: Tag)
    ensures StampDotted(StampDotted(prov, a, tag), b, tag) == StampDotted(prov, a + b, tag)
  {
    assert Dotted(a + b) == Dotted(a) + Dotted(b);
  }

  datatype Composition = NoLayers | MissingProvenance | Effective(books: Books)

  class Composer {
    var provenance: map<string, Tag>
    var conflicts: seq<Report>

    constructor ()
      ensures provenance == map[] && conflicts == []
    {
      provenance, conflicts := map[], [];
    }

    method RecordProvenance(value: Value, tag: Tag, path: Path)
      modifies this`provenance
      ensures provenance == RecordDotted(old(provenance), value, tag, path)
      decreases value, 1
    {
      if !IsPlain(value) {
        assert Dotted({path}) == {Join(path)};
        provenance := provenance[Join(path) := tag];
        return;
      }
      RecordEntries(value, Sorted(value.entries.Keys), tag, path);
      assert KeySet(Sorted(value.entries.Keys)) == value.entries.Keys;
    }

    /** The loop of `_record_provenance` */
    method RecordEntries(value: Value, keys: seq<Key>, tag: Tag, path: Path)
      requires value.Mapping? && KeySet(keys) <= value.entries.Keys
      modifies this`provenance
      ensures provenance == StampDotted(old(provenance), LeavesUnder(value, KeySet(keys), path), tag)
      decreases value, 0
    {
      ghost var before := provenance;
      StampDottedNone(before, value, path, tag);
      assert KeySet(keys[..0]) == {};
      for i := 0 to |keys|
        invariant KeySet(keys[..i]) <= value.entries.Keys
        invariant provenance == StampDotted(before, LeavesUnder(value, KeySet(keys[..i]), path), tag)
      {
        NextKey(keys, i);
        assert keys[i] in KeySet(keys);
        StampDottedNext(before, value, KeySet(keys[..i]), keys[i], path, tag);
        RecordProvenance(value.entries[keys[i]], tag, path + [keys[i]]);
      }
      assert keys[..|keys|] == keys;
    }

    method ClearProvenance(dotted: string)
      modifies this`provenance
      ensures provenance == ClearDotted(old(provenance), dotted)
    {
      var listed := provenance.Keys;
      var todo := listed;
      while todo != {}
        invariant todo <= listed
        invariant provenance ==
                  map s | s in old(provenance) && (s in todo || !AtOrUnder(dotted, s)) :: old(provenance)[s]
        decreases todo
      {
        var s :| s in todo;
        if s == dotted || dotted + "." <= s { provenance := provenance - {s}; }
        todo := todo - {s};
      }
    }

    /** One turn of the loop in `_merge_mapping`. */
    method MergeEntry(k: Key, target: Entries, incoming: Entries, tag: Tag, path: Path)
      returns (ok: bool, merged: Entries)
      requires k in incoming
      modifies this
      ensures var m := MergeKeyDotted(k, Books(target, old(provenance), old(conflicts)), incoming, tag, path);
        (ok <==> m.Some?) && (ok ==> m == Some(Books(merged, provenance, conflicts)))
      decreases Mapping(incoming), 0
    {
      ok, merged := true, target;
      var child := path + [k];
      var dotted := Join(child);
      if k in target && Descends(target[k], incoming[k]) {
        assert incoming[k] == Mapping(incoming[k].entries);
        var inner;
        ok, inner := MergeMapping(target[k].entries, incoming[k].entries, tag, child);
        if ok { merged := target[k := Mapping(inner)]; }
      } else {
        if k in target && target[k] != incoming[k] {
          var previous := PreviousDotted(provenance, dotted);
          if previous.None? { return false, target; }
          conflicts := conflicts + [Report(dotted, previous.value, tag.layer)];
          ClearProvenance(dotted);
        }
        merged := target[k := incoming[k]];
        RecordProvenance(incoming[k], tag, child);
      }
    }

    method MergeMapping(target: Entries, incoming: Entries, tag: Tag, path: Path)
      returns (ok: bool, merged: Entries)
      modifies this
      ensures var m := MergeDotted(Books(target, old(provenance), old(conflicts)), incoming, tag, path);
        (ok <==> m.Some?) && (ok ==> m == Some(Books(merged, provenance, conflicts)))
      decreases Mapping(incoming), 1
    {
      hide MergeKeyDotted;
      ok, merged := true, target;
      var keys := Sorted(incoming.Keys);
      for i := 0 to |keys|
        invariant ok
        invariant MergeDotted(Books(target, old(provenance), old(conflicts)), incoming, tag, path) ==
                  MergeKeysDotted(keys[i..], Books(merged, provenance, conflicts), incoming, tag, path)
      {
        assert keys[i..][0] == keys[i] && keys[i..][1..] == keys[i + 1..];
        ok, merged := MergeEntry(keys[i], merged, incoming, tag, path);
        if !ok { return; }
      }
      assert keys[|keys|..] == [];
    }
  }

  method ComposeLayeredConfig(layers: seq<Layer>) returns (r: Composition)
    ensures r == if layers == [] then NoLayers else
      match ComposeDotted(layers) case None => MissingProvenance case Some(b) => Effective(b)
  {
    if layers == [] { return NoLayers; }
    var composer := new Composer();
    var effective: Entries := map[];
    assert layers[..0] == [];
    for i := 0 to |layers|
      invariant ComposeDotted(layers[..i]) == Some(Books(effective, composer.provenance, composer.conflicts))
    {
      var ok;
      ComposeNext(layers, i);
      ok, effective := composer.MergeMapping(effective, layers[i].data, layers[i].tag, []);
      if !ok {
        ComposeStaysFailed(layers, i + 1);
        return MissingProvenance;
      }
    }
    assert layers[..|layers|] == layers;
    r := Effective(Books(effective, composer.provenance, composer.conflicts));
  }

  lemma ComposeNext(layers: seq<Layer>, i: nat)
    requires i < |layers|
    ensures ComposeDotted(layers[..i + 1]) == MergeOntoDotted(ComposeDotted(layers[..i]), layers[i])
  {
    var upTo := layers[..i + 1];
    assert upTo[..|upTo| - 1] == layers[..i] && upTo[|upTo| - 1] == layers[i];
  }

  lemma {:induction false} ComposeStaysFailed(layers: seq<Layer>, n: nat)
    requires n <= |layers| && ComposeDotted(layers[..n]).None?
    ensures ComposeDotted(layers).None?
    decreases |layers| - n
  {
    if n < |layers| {
      ComposeNext(layers, n);
      ComposeStaysFailed(layers, n + 1);
    } else {
      assert layers[..n] == layers;
    }
  }
}
