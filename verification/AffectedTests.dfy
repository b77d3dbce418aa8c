/**
 Affected-test selection (scripts/select_affected_tests.py): a multi-pass worklist over the import
 graph, proved to compute exactly what is reachable from the changed module.
 */
module AffectedTests {

  /** A scanned file: its path relative to the root, its own name, its module and what it imports. */
  datatype File = File(relative: string, name: string, moduleName: string, imports: set<string>)

  predicate IsTest(f: File) {
    "tests/" <= f.relative && "test_" <= f.name
  }

  predicate Hits(f: File, affected: set<string>) {
    f.imports * affected != {}
  }

  /**
   One imports the next, and the last imports the changed module; the files in between are none that pytest collects,
   that is, none below `tests/` named `test_` and more.
   */
  ghost predicate Chain(files: seq<File>, changed: string, chain: seq<File>)
    decreases |chain|
  {
    if chain == [] then false
    else if |chain| == 1 then changed in chain[0].imports
    else
      var next := chain[1];
      && next in files && !("tests/" <= next.relative && "test_" <= next.name)
      && next.moduleName in chain[0].imports && Chain(files, changed, chain[1..])
  }

  /** `f` imports the changed module, directly or through non-test modules. */
  ghost predicate Reaches(files: seq<File>, changed: string, f: File) {
    exists chain :: chain != [] && chain[0] == f && Chain(files, changed, chain)
  }

  /** The modules through which a change spreads. */
  ghost predicate Spreads(files: seq<File>, changed: string, m: string) {
    m == changed || exists f :: f in files && !IsTest(f) && f.moduleName == m && Reaches(files, changed, f)
  }

  lemma ReachesOne(files: seq<File>, changed: string, f: File, m: string)
    requires m in f.imports && Spreads(files, changed, m)
    ensures Reaches(files, changed, f)
  {
    if m == changed {
      assert Chain(files, changed, [f]) && [f][0] == f;
    } else {
      var g :| g in files && !IsTest(g) && g.moduleName == m && Reaches(files, changed, g);
      var chain :| chain != [] && chain[0] == g && Chain(files, changed, chain);
      var longer := [f] + chain;
      assert longer[1..] == chain;
      assert Chain(files, changed, longer) && longer[0] == f;
    }
  }

  /** A set of modules closed under the rule contains everything a change reaches. */
  lemma {:induction false} ClosedCoversChains(files: seq<File>, changed: string, affected: set<string>,
                                              chain: seq<File>)
    requires changed in affected
    requires forall f :: f in files && !IsTest(f) && Hits(f, affected) ==> f.moduleName in affected
    requires Chain(files, changed, chain)
    ensures chain != [] && Hits(chain[0], affected)
    decreases |chain|
  {
    if |chain| == 1 {
      assert changed in chain[0].imports * affected;
    } else {
      ClosedCoversChains(files, changed, affected, chain[1..]);
      assert chain[1].moduleName in chain[0].imports * affected;
    }
  }

  /** The test files below `tests/` that reach the changed module. */
  ghost predicate Selection(files: seq<File>, changed: string, selected: set<string>) {
    forall path :: path in selected <==>
      exists f :: f in files && "tests/" <= f.relative && "test_" <= f.name && f.relative == path
                  && Reaches(files, changed, f)
  }

  /** The selection is determined by the set of files: neither order nor repetition matters. */
  lemma SelectionIgnoresOrder(a: seq<File>, b: seq<File>, changed: string, sa: set<string>, sb: set<string>)
    requires forall f :: f in a <==> f in b
    requires Selection(a, changed, sa) && Selection(b, changed, sb)
    ensures sa == sb
  {
    forall f ensures Reaches(a, changed, f) <==> Reaches(b, changed, f) {
      forall chain ensures Chain(a, changed, chain) <==> Chain(b, changed, chain) {
        SameChains(a, b, changed, chain);
      }
    }
    forall path ensures path in sa <==> path in sb {
      if path in sa {
        var f :| f in a && IsTest(f) && f.relative == path && Reaches(a, changed, f);
        assert f in b && Reaches(b, changed, f);
      }
      if path in sb {
        var f :| f in b && IsTest(f) && f.relative == path && Reaches(b, changed, f);
        assert f in a && Reaches(a, changed, f);
      }
    }
  }

  lemma {:induction false} SameChains(a: seq<File>, b: seq<File>, changed: string, chain: seq<File>)
    requires forall f :: f in a <==> f in b
    ensures Chain(a, changed, chain) <==> Chain(b, changed, chain)
    decreases |chain|
  {
    if |chain| > 1 { SameChains(a, b, changed, chain[1..]); }
  }

  /** `_transitive_dependency_tests` from the scanned files onwards. */
  method TransitiveDependencyTests(files: seq<File>, changed: string) returns (selected: set<string>)
    ensures Selection(files, changed, selected)
  {
    var affected := {changed};
    selected := {};
    var pending := files;
    var stable := false;
    while pending != [] && !stable
      invariant changed in affected && forall m :: m in affected ==> Spreads(files, changed, m)
      invariant forall f :: f in pending ==> f in files
      invariant forall f :: f in files && f !in pending ==>
        (if IsTest(f) then f.relative in selected else f.moduleName in affected)
      invariant forall path :: path in selected ==>
        exists f :: f in files && IsTest(f) && f.relative == path && Reaches(files, changed, f)
      invariant stable ==> forall f :: f in pending ==>
        if IsTest(f) then Hits(f, affected) ==> f.relative in selected else !Hits(f, affected)
      decreases !stable, |pending|
    {
      var next: seq<File> := [];
      var changedGraph := false;
      ghost var atStart := affected;
      for i := 0 to |pending|
        invariant changed in affected && forall m :: m in affected ==> Spreads(files, changed, m)
        invariant |next| <= i && (changedGraph ==> |next| < i)
        invariant !changedGraph ==> affected == atStart
        invariant forall f :: f in next ==> f in pending[..i]
        invariant forall f :: f in pending[..i] && f !in next ==>
          (if IsTest(f) then f.relative in selected else f.moduleName in affected)
        invariant forall f :: f in files && f !in pending ==>
          (if IsTest(f) then f.relative in selected else f.moduleName in affected)
        invariant forall path :: path in selected ==>
          exists f :: f in files && IsTest(f) && f.relative == path && Reaches(files, changed, f)
        invariant !changedGraph ==> forall f :: f in pending[..i] ==>
          if IsTest(f) then Hits(f, affected) ==> f.relative in selected else !Hits(f, affected)
      {
        var f := pending[i];
        assert f in pending;
        assert pending[..i + 1] == pending[..i] + [f];
        if !Hits(f, affected) {
          next := next + [f];
        } else {
          var m :| m in f.imports * affected;
          ReachesOne(files, changed, f, m);
          if IsTest(f) {
            selected := selected + {f.relative};
          } else {
            affected := affected + {f.moduleName};
            changedGraph := true;
          }
        }
      }
      assert pending[..|pending|] == pending;
      if !changedGraph { stable := true; } else { pending := next; }
    }
    forall f | f in files && IsTest(f) && Reaches(files, changed, f) ensures f.relative in selected {
      var chain :| chain != [] && chain[0] == f && Chain(files, changed, chain);
      ClosedCoversChains(files, changed, affected, chain);
    }
  }
}
