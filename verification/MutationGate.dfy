/**
 The mutation release gate (src/mcp_broker/mutation_stats.py) and the registry of adjudicated
 survivors it honours (src/mcp_broker/mutation_carveouts.py).

 The callable that a mutant's name denotes and the matching of name patterns are functions the caller
 supplies; file hashes are a map from the existing paths; scores are reals.
 */
module MutationGate {
  import opened Prelude

  datatype Status =
    | Killed | CaughtByTypeCheck | Survived | NoTests | Skipped
    | Suspicious | Timeout | Interrupted | Segfault | NotChecked

  const ALL_STATUSES := [Killed, CaughtByTypeCheck, Survived, NoTests, Skipped,
                         Suspicious, Timeout, Interrupted, Segfault, NotChecked]

  const EVERY_STATUS := set s | s in ALL_STATUSES

  datatype Mutant = Mutant(path: string, status: Status, name: string)

  datatype Carveout = Carveout(path: string, sha256: string, equivalence: bool, callables: set<string>)

  datatype Problem = MissingFile(path: string) | StaleRows(path: string, count: nat)

  type Naming = string -> Option<string>

  /** What the registry says, and the current hashes it is held against. */
  datatype Registry = Registry(rows: seq<Carveout>, hashes: map<string, string>)

  predicate Passed(m: Mutant) {
    m.status.Killed? || m.status.CaughtByTypeCheck?
  }

  /** The row is an equivalence bound to the file's current hash that names the survivor's callable. */
  predicate Excuses(row: Carveout, g: Registry, callableOf: Naming, m: Mutant) {
    && m.status.Survived? && row.path == m.path
    && m.path in g.hashes && g.hashes[m.path] == row.sha256
    && row.equivalence && callableOf(m.name).Some? && callableOf(m.name).value in row.callables
  }

  predicate ExcusedItself(g: Registry, callableOf: Naming, m: Mutant) {
    exists row :: row in g.rows && Excuses(row, g, callableOf, m)
  }

  /** The names the gate excuses. */
  ghost function ExcusedNames(ms: seq<Mutant>, g: Registry, callableOf: Naming): set<string> {
    set m | m in ms && ExcusedItself(g, callableOf, m) :: m.name
  }

  // ---------------------------------------------------------------------------------------
  // Counting
  // ---------------------------------------------------------------------------------------

  function One(b: bool): nat { if b then 1 else 0 }

  function Count(ms: seq<Mutant>, s: Status): nat {
    if ms == [] then 0 else Count(ms[..|ms| - 1], s) + One(ms[|ms| - 1].status == s)
  }

  /** Results of this status whose name is excused. */
  function CountExcused(ms: seq<Mutant>, s: Status, names: set<string>): nat {
    if ms == [] then 0 else
      var last := ms[|ms| - 1];
      CountExcused(ms[..|ms| - 1], s, names) + One(last.status == s && last.name in names)
  }

  /** Results of this file that the summary counts: of a failing status, not excused by name. */
  function CountBlocked(ms: seq<Mutant>, path: string, fails: set<Status>, names: set<string>): nat {
    if ms == [] then 0 else
      var last := ms[|ms| - 1];
      CountBlocked(ms[..|ms| - 1], path, fails, names) + One(Blocks(last, fails, names) && last.path == path)
  }

  /** Results of this file that the summary looks at: all that are not excused by name. */
  function CountUnexcused(ms: seq<Mutant>, path: string, names: set<string>): nat {
    if ms == [] then 0 else
      var last := ms[|ms| - 1];
      CountUnexcused(ms[..|ms| - 1], path, names) + One(last.path == path && last.name !in names)
  }

  predicate Blocks(m: Mutant, fails: set<Status>, names: set<string>) {
    m.status in fails && m.name !in names
  }

  function CountPassed(ms: seq<Mutant>): nat {
    Count(ms, Killed) + Count(ms, CaughtByTypeCheck)
  }

  function SumCounts(counts: map<Status, nat>, statuses: seq<Status>): nat
    requires forall s :: s in statuses ==> s in counts
  {
    if statuses == [] then 0 else SumCounts(counts, statuses[..|statuses| - 1]) + counts[statuses[|statuses| - 1]]
  }

  lemma CountAppend(ms: seq<Mutant>, m: Mutant, s: Status, names: set<string>)
    ensures Count(ms + [m], s) == Count(ms, s) + One(m.status == s)
    ensures CountExcused(ms + [m], s, names) == CountExcused(ms, s, names) + One(m.status == s && m.name in names)
  {
    assert (ms + [m])[..|ms|] == ms;
  }

  lemma {:induction false} CountsCoverAll(ms: seq<Mutant>)
    ensures |ms| == Count(ms, Killed) + Count(ms, CaughtByTypeCheck) + Count(ms, Survived) + Count(ms, NoTests) +
                    Count(ms, Skipped) + Count(ms, Suspicious) + Count(ms, Timeout) + Count(ms, Interrupted) +
                    Count(ms, Segfault) + Count(ms, NotChecked)
  {
    if ms != [] { CountsCoverAll(ms[..|ms| - 1]); }
  }

  /** Every result of this status has an excused name. */
  predicate AllExcused(ms: seq<Mutant>, s: Status, names: set<string>) {
    forall m :: m in ms && m.status == s ==> m.name in names
  }

  lemma {:induction false} FreeCount(ms: seq<Mutant>, s: Status, names: set<string>)
    ensures CountExcused(ms, s, names) <= Count(ms, s)
    ensures CountExcused(ms, s, names) == Count(ms, s) <==> AllExcused(ms, s, names)
  {
    if ms != [] {
      var init, last := ms[..|ms| - 1], ms[|ms| - 1];
      FreeCount(init, s, names);
      assert ms == init + [last];
    }
  }

  lemma {:induction false} NoBlockedIff(ms: seq<Mutant>, path: string, fails: set<Status>, names: set<string>)
    ensures CountBlocked(ms, path, fails, names) == 0 <==>
              forall m :: m in ms && m.path == path ==> !Blocks(m, fails, names)
  {
    if ms != [] {
      var init, last := ms[..|ms| - 1], ms[|ms| - 1];
      NoBlockedIff(init, path, fails, names);
      assert ms == init + [last];
    }
  }

  // ---------------------------------------------------------------------------------------
  // The registry
  // ---------------------------------------------------------------------------------------

  function RowsFor(rows: seq<Carveout>, path: string): (r: seq<Carveout>)
    ensures forall row :: row in r <==> row in rows && row.path == path
  {
    if rows == [] then [] else
      var last := rows[|rows| - 1];
      RowsFor(rows[..|rows| - 1], path) + if last.path == path then [last] else []
  }

  function WithHash(rows: seq<Carveout>, hash: string, same: bool): (r: seq<Carveout>)
    ensures forall row :: row in r <==> row in rows && (row.sha256 == hash) == same
  {
    if rows == [] then [] else
      var last := rows[|rows| - 1];
      WithHash(rows[..|rows| - 1], hash, same) + if (last.sha256 == hash) == same then [last] else []
  }

  /** The complaints about one file's rows. */
  function ProblemsAt(g: Registry, path: string): seq<Problem> {
    if path !in g.hashes then [MissingFile(path)] else
      var stale := WithHash(RowsFor(g.rows, path), g.hashes[path], false);
      if stale == [] then [] else [StaleRows(path, |stale|)]
  }

  function Problems(g: Registry, paths: seq<string>): seq<Problem> {
    if paths == [] then [] else Problems(g, paths[..|paths| - 1]) + ProblemsAt(g, paths[|paths| - 1])
  }

  function Paths(rows: seq<Carveout>): set<string> {
    set row | row in rows :: row.path
  }

  /** Every row's file exists with the hash of the row. */
  ghost predicate RowsCurrent(g: Registry) {
    forall row :: row in g.rows ==> row.path in g.hashes && g.hashes[row.path] == row.sha256
  }

  ghost predicate PathCurrent(g: Registry, path: string) {
    path in g.hashes && forall row :: row in g.rows && row.path == path ==> row.sha256 == g.hashes[path]
  }

  lemma ProblemsAtIff(g: Registry, path: string)
    ensures ProblemsAt(g, path) == [] <==> PathCurrent(g, path)
  {
    if path in g.hashes {
      var stale := WithHash(RowsFor(g.rows, path), g.hashes[path], false);
      if stale != [] { assert stale[0] in stale; }
    }
  }

  /** No complaint exactly when every row's file exists with the hash of the row. */
  lemma NoProblemsIff(g: Registry)
    ensures Problems(g, Sorted(Paths(g.rows))) == [] <==> RowsCurrent(g)
  {
    var paths := Sorted(Paths(g.rows));
    NoProblemsAmong(g, paths);
    forall path | path in paths ensures ProblemsAt(g, path) == [] <==> PathCurrent(g, path) { ProblemsAtIff(g, path); }
    PathsCurrentIff(g, paths);
  }

  lemma PathsCurrentIff(g: Registry, paths: seq<string>)
    requires forall path :: path in paths <==> path in Paths(g.rows)
    ensures (forall path :: path in paths ==> PathCurrent(g, path)) <==> RowsCurrent(g)
  {
    if RowsCurrent(g) {
      forall path | path in paths ensures PathCurrent(g, path) {
        var row :| row in g.rows && row.path == path;
      }
    } else {
      var row :| row in g.rows && !(row.path in g.hashes && g.hashes[row.path] == row.sha256);
      assert row.path in paths && !PathCurrent(g, row.path);
    }
  }

  lemma {:induction false} NoProblemsAmong(g: Registry, paths: seq<string>)
    ensures Problems(g, paths) == [] <==> forall path :: path in paths ==> ProblemsAt(g, path) == []
  {
    if paths != [] {
      hide ProblemsAt;
      var init, last := paths[..|paths| - 1], paths[|paths| - 1];
      NoProblemsAmong(g, init);
      assert forall path :: path in paths <==> path in init || path == last by { assert paths == init + [last]; }
      BothEmpty(Problems(g, init), ProblemsAt(g, last));
    }
  }

  lemma BothEmpty(a: seq<Problem>, b: seq<Problem>)
    ensures a + b == [] <==> a == [] && b == []
  {
    assert |a + b| == |a| + |b|;
  }

  /** The rows of this file that were written for other contents than these. */
  function StaleAt(rows: seq<Carveout>, path: string, hash: string): set<nat> {
    set i: nat | i < |rows| && rows[i].path == path && rows[i].sha256 != hash
  }

  lemma StaleGrows(rows: seq<Carveout>, row: Carveout, path: string, hash: string)
    ensures |StaleAt(rows + [row], path, hash)| ==
              |StaleAt(rows, path, hash)| + One(row.path == path && row.sha256 != hash)
  {
    var more := if row.path == path && row.sha256 != hash then {|rows|} else {};
    assert StaleAt(rows + [row], path, hash) == StaleAt(rows, path, hash) + more;
  }

  lemma WithHashGrows(rows: seq<Carveout>, row: Carveout, hash: string)
    ensures |WithHash(rows + [row], hash, false)| == |WithHash(rows, hash, false)| + One(row.sha256 != hash)
  {
    assert (rows + [row])[..|rows|] == rows;
  }

  lemma {:induction false} StaleCount(rows: seq<Carveout>, path: string, hash: string)
    ensures |WithHash(RowsFor(rows, path), hash, false)| == |StaleAt(rows, path, hash)|
  {
    if rows == [] {
      assert StaleAt(rows, path, hash) == {};
    } else {
      hide StaleAt, WithHash;
      var init, last := rows[..|rows| - 1], rows[|rows| - 1];
      assert rows == init + [last];
      StaleCount(init, path, hash);
      StaleGrows(init, last, path, hash);
      WithHashGrows(RowsFor(init, path), last, hash);
      assert RowsFor(init, path) + [] == RowsFor(init, path);
    }
  }

  lemma {:induction false} ProblemsAmong(g: Registry, paths: seq<string>, q: Problem)
    ensures q in Problems(g, paths) <==> exists path :: path in paths && q in ProblemsAt(g, path)
  {
    if paths != [] {
      hide ProblemsAt;
      var init, last := paths[..|paths| - 1], paths[|paths| - 1];
      assert paths == init + [last];
      ProblemsAmong(g, init, q);
    }
  }

  /** Rows for this file that the problem tells right: the file is gone, or its contents changed and so many miss. */
  ghost predicate Tells(g: Registry, q: Problem) {
    if q.MissingFile? then q.path !in g.hashes
    else q.path in g.hashes && q.count == |StaleAt(g.rows, q.path, g.hashes[q.path])| > 0
  }

  lemma ProblemsAtAre(g: Registry, path: string, q: Problem)
    ensures q in ProblemsAt(g, path) <==> q.path == path && Tells(g, q)
  {
    if path in g.hashes {
      StaleCount(g.rows, path, g.hashes[path]);
      hide WithHash, RowsFor, StaleAt;
    }
  }

  /** One complaint for each file with rows that is gone, or whose contents changed, with how many rows miss. */
  lemma ProblemsAre(g: Registry, q: Problem)
    ensures q in Problems(g, Sorted(Paths(g.rows))) <==>
              Tells(g, q) && exists row :: row in g.rows && row.path == q.path
  {
    ProblemsAmong(g, Sorted(Paths(g.rows)), q);
    hide ProblemsAt, Tells, Problems;
    forall path ensures q in ProblemsAt(g, path) <==> q.path == path && Tells(g, q) { ProblemsAtAre(g, path, q); }
    assert q.path in Paths(g.rows) <==> exists row :: row in g.rows && row.path == q.path;
  }

  function CurrentRows(g: Registry, path: string): seq<Carveout> {
    if path in g.hashes then WithHash(RowsFor(g.rows, path), g.hashes[path], true) else []
  }

  function RowsAt(verified: map<string, seq<Carveout>>, path: string): seq<Carveout> {
    if path in verified then verified[path] else []
  }

  /** Rows grouped by path. */
  ghost predicate Grouped(byPath: map<string, seq<Carveout>>, rows: seq<Carveout>) {
    byPath.Keys == Paths(rows) && forall path :: RowsAt(byPath, path) == RowsFor(rows, path)
  }

  lemma GroupGrows(byPath: map<string, seq<Carveout>>, rows: seq<Carveout>, row: Carveout)
    requires Grouped(byPath, rows)
    ensures Grouped(byPath[row.path := RowsAt(byPath, row.path) + [row]], rows + [row])
  {
    hide Paths, RowsFor;
    RowsGrow(rows, row);
    var next := byPath[row.path := RowsAt(byPath, row.path) + [row]];
    forall path ensures RowsAt(next, path) == RowsAt(byPath, path) + if row.path == path then [row] else [] {
      assert RowsAt(byPath, path) + [] == RowsAt(byPath, path);
    }
    assert next.Keys == byPath.Keys + {row.path};
  }

  method GroupRows(rows: seq<Carveout>) returns (byPath: map<string, seq<Carveout>>)
    ensures Grouped(byPath, rows)
  {
    byPath := map[];
    for i := 0 to |rows|
      invariant Grouped(byPath, rows[..i])
    {
      GroupGrows(byPath, rows[..i], rows[i]);
      assert rows[..i + 1] == rows[..i] + [rows[i]];
      byPath := byPath[rows[i].path := RowsAt(byPath, rows[i].path) + [rows[i]]];
    }
    assert rows[..|rows|] == rows;
  }

  /** The current rows of every path in the list, and of no other. */
  ghost predicate Verified(verified: map<string, seq<Carveout>>, g: Registry, paths: seq<string>) {
    forall path :: RowsAt(verified, path) == if path in paths then CurrentRows(g, path) else []
  }

  /** The two loops of `excusable_survivors` before the results are looked at. */
  method VerifiedRows(g: Registry) returns (verified: map<string, seq<Carveout>>, invalid: seq<Problem>)
    ensures Verified(verified, g, Sorted(Paths(g.rows)))
    ensures invalid == Problems(g, Sorted(Paths(g.rows)))
  {
    var byPath := GroupRows(g.rows);
    verified, invalid := VerifyPaths(g, byPath, Sorted(byPath.Keys));
  }

  method VerifyPaths(g: Registry, byPath: map<string, seq<Carveout>>, paths: seq<string>)
    returns (verified: map<string, seq<Carveout>>, invalid: seq<Problem>)
    requires Grouped(byPath, g.rows)
    requires forall i, j :: 0 <= i < j < |paths| ==> paths[i] != paths[j]
    ensures Verified(verified, g, paths) && invalid == Problems(g, paths)
  {
    verified, invalid := map[], [];
    for i := 0 to |paths|
      invariant invalid == Problems(g, paths[..i]) && Verified(verified, g, paths[..i])
    {
      ghost var before := verified;
      verified, invalid := VerifyPath(g, paths[i], RowsAt(byPath, paths[i]), verified, invalid);
      VerifiedNext(before, verified, g, paths, i);
    }
    assert paths[..|paths|] == paths;
  }

  lemma VerifiedNext(before: map<string, seq<Carveout>>, after: map<string, seq<Carveout>>, g: Registry,
                     paths: seq<string>, i: nat)
    requires i < |paths| && Verified(before, g, paths[..i])
    requires forall o :: RowsAt(after, o) == if o == paths[i] then CurrentRows(g, paths[i]) else RowsAt(before, o)
    ensures Verified(after, g, paths[..i + 1])
    ensures Problems(g, paths[..i + 1]) == Problems(g, paths[..i]) + ProblemsAt(g, paths[i])
  {
    var upTo := paths[..i + 1];
    assert upTo[..|upTo| - 1] == paths[..i] && upTo[|upTo| - 1] == paths[i];
    assert upTo == paths[..i] + [paths[i]];
  }

  lemma SomeRow(rows: seq<Carveout>)
    requires rows != []
    ensures exists row :: row in rows
  {
    assert rows[0] in rows;
  }

  lemma NoRowsElsewhere(g: Registry, path: string)
    requires path !in Paths(g.rows)
    ensures CurrentRows(g, path) == []
  {
    if CurrentRows(g, path) != [] { SomeRow(CurrentRows(g, path)); }
  }

  /** One turn of the loop over the paths. */
  method VerifyPath(g: Registry, path: string, rows: seq<Carveout>, verified: map<string, seq<Carveout>>,
                    invalid: seq<Problem>)
    returns (v: map<string, seq<Carveout>>, p: seq<Problem>)
    requires rows == RowsFor(g.rows, path) && RowsAt(verified, path) == []
    ensures forall o :: RowsAt(v, o) == if o == path then CurrentRows(g, path) else RowsAt(verified, o)
    ensures p == invalid + ProblemsAt(g, path)
  {
    v, p := verified, invalid;
    if path !in g.hashes { return v, p + [MissingFile(path)]; }
    var current := g.hashes[path];
    var matching, stale := WithHash(rows, current, true), WithHash(rows, current, false);
    if stale != [] { p := p + [StaleRows(path, |stale|)]; }
    if matching != [] { v := v[path := matching]; }
  }

  lemma RowsGrow(rows: seq<Carveout>, row: Carveout)
    ensures Paths(rows + [row]) == Paths(rows) + {row.path}
    ensures forall path :: RowsFor(rows + [row], path) == RowsFor(rows, path) + if row.path == path then [row] else []
    ensures row.path !in Paths(rows) ==> RowsFor(rows, row.path) == []
  {
    assert (rows + [row])[..|rows|] == rows;
    assert row in rows + [row];
    forall path | path in Paths(rows + [row]) ensures path in Paths(rows) + {row.path} {
      var r :| r in rows + [row] && r.path == path;
    }
    forall path | path in Paths(rows) ensures path in Paths(rows + [row]) {
      var r :| r in rows && r.path == path;
      assert r in rows + [row];
    }
    var own := RowsFor(rows, row.path);
    assert own != [] ==> own[0] in own && own[0].path in Paths(rows);
  }

  /** `excusable_survivors` */
  method ExcusableSurvivors(ms: seq<Mutant>, g: Registry, callableOf: Naming)
    returns (excused: set<string>, invalid: seq<Problem>)
    ensures excused == ExcusedNames(ms, g, callableOf)
    ensures invalid == Problems(g, Sorted(Paths(g.rows)))
  {
    var verified;
    verified, invalid := VerifiedRows(g);
    forall path ensures RowsAt(verified, path) == CurrentRows(g, path) {
      if path !in Paths(g.rows) { NoRowsElsewhere(g, path); }
    }
    excused := ExcuseAll(ms, g, callableOf, verified);
  }

  method ExcuseAll(ms: seq<Mutant>, g: Registry, callableOf: Naming, verified: map<string, seq<Carveout>>)
    returns (excused: set<string>)
    requires forall path :: RowsAt(verified, path) == CurrentRows(g, path)
    ensures excused == ExcusedNames(ms, g, callableOf)
  {
    excused := {};
    for i := 0 to |ms|
      invariant excused == ExcusedNames(ms[..i], g, callableOf)
    {
      assert ms[..i + 1] == ms[..i] + [ms[i]];
      ExcusedGrow(ms[..i], ms[i], g, callableOf);
      var found := FindExcuse(RowsAt(verified, ms[i].path), g, callableOf, ms[i]);
      if found { excused := excused + {ms[i].name}; }
    }
    assert ms[..|ms|] == ms;
  }

  /** The search of one result among the verified rows of its file. */
  method FindExcuse(rows: seq<Carveout>, g: Registry, callableOf: Naming, m: Mutant) returns (found: bool)
    requires rows == CurrentRows(g, m.path)
    ensures found <==> ExcusedItself(g, callableOf, m)
  {
    var callable := callableOf(m.name);
    if !m.status.Survived? || rows == [] || callable.None? { return false; }
    for i := 0 to |rows|
      invariant forall k :: 0 <= k < i ==> !(rows[k].equivalence && callable.value in rows[k].callables)
    {
      if rows[i].equivalence && callable.value in rows[i].callables {
        assert Excuses(rows[i], g, callableOf, m);
        return true;
      }
    }
    found := false;
  }

  lemma ExcusedGrow(ms: seq<Mutant>, m: Mutant, g: Registry, callableOf: Naming)
    ensures ExcusedNames(ms + [m], g, callableOf) ==
              ExcusedNames(ms, g, callableOf) + if ExcusedItself(g, callableOf, m) then {m.name} else {}
  {
    var all := ms + [m];
    assert m in all;
    forall name | name in ExcusedNames(ms, g, callableOf) ensures name in ExcusedNames(all, g, callableOf) {
      var n :| n in ms && ExcusedItself(g, callableOf, n) && n.name == name;
      assert n in all;
    }
  }

  /** This row of the registry excuses the survivor. */
  ghost predicate RowExcuses(g: Registry, callableOf: Naming, m: Mutant, row: Carveout) {
    && row in g.rows && row.path == m.path && row.equivalence
    && m.path in g.hashes && row.sha256 == g.hashes[m.path]
    && exists callable :: callable in row.callables && callableOf(m.name) == Some(callable)
  }

  /** The names excused are those of the survivors that some row excuses. */
  lemma ExcusedNamesAre(ms: seq<Mutant>, g: Registry, callableOf: Naming, name: string)
    ensures name in ExcusedNames(ms, g, callableOf) <==>
              exists m, row :: m in ms && m.name == name && m.status == Survived && RowExcuses(g, callableOf, m, row)
  {
    if name in ExcusedNames(ms, g, callableOf) {
      var m :| m in ms && ExcusedItself(g, callableOf, m) && m.name == name;
      var row :| row in g.rows && Excuses(row, g, callableOf, m);
      assert RowExcuses(g, callableOf, m, row);
    }
    if m, row :| m in ms && m.name == name && m.status == Survived && RowExcuses(g, callableOf, m, row) {
      assert Excuses(row, g, callableOf, m);
    }
  }

  // ---------------------------------------------------------------------------------------
  // The report
  // ---------------------------------------------------------------------------------------

  datatype FileEntry = FileEntry(total: nat, blocked: nat)

  datatype Report = Report(
    counts: map<Status, nat>, total: nat, passed: nat, excusedCount: nat, invalid: seq<Problem>,
    excusedByStatus: map<Status, nat>, blockedByFile: map<string, FileEntry>, missing: seq<string>)

  function At(counts: map<Status, nat>, s: Status): nat {
    if s in counts then counts[s] else 0
  }

  function ExcusedOf(r: Report, s: Status): nat {
    At(r.excusedByStatus, s)
  }

  /** `blocking_counts` */
  function BlockingCount(r: Report, s: Status): int
    requires s in r.counts
  {
    r.counts[s] - ExcusedOf(r, s)
  }

  function Score(good: nat, total: nat): real {
    if total == 0 then 0.0 else good as real / total as real * 100.0
  }

  /** `effective_score` */
  function EffectiveScore(r: Report): real {
    Score(r.passed + r.excusedCount, r.total)
  }

  predicate NoneBlock(r: Report, fails: set<Status>) {
    forall s :: s in r.counts && s in fails ==> BlockingCount(r, s) <= 0
  }

  /** `failure_exit_code` returns nothing. */
  predicate Passes(r: Report, fails: set<Status>, minScore: real) {
    && r.invalid == [] && r.missing == [] && r.total > 0
    && NoneBlock(r, fails)
    && EffectiveScore(r) >= minScore
  }

  /** What a report on these results says, field by field. */
  ghost predicate Reports(r: Report, ms: seq<Mutant>, g: Registry, callableOf: Naming, fails: set<Status>) {
    var names := ExcusedNames(ms, g, callableOf);
    && CountsReported(r.counts, r.excusedByStatus, ms, names)
    && r.total == |ms| && r.passed == CountPassed(ms) && r.excusedCount == |names|
    && r.invalid == Problems(g, Sorted(Paths(g.rows)))
    && BlockedReported(r.blockedByFile, ms, fails, names)
  }

  ghost predicate CountsReported(counts: map<Status, nat>, excused: map<Status, nat>, ms: seq<Mutant>,
                                 names: set<string>) {
    forall s :: s in counts && counts[s] == Count(ms, s) && At(excused, s) == CountExcused(ms, s, names)
  }

  ghost predicate BlockedReported(byFile: map<string, FileEntry>, ms: seq<Mutant>, fails: set<Status>,
                                  names: set<string>) {
    && (forall path :: path in byFile <==> CountBlocked(ms, path, fails, names) > 0)
    && (forall path :: path in byFile ==> byFile[path] == EntryOf(ms, path, fails, names))
  }

  function EntryOf(ms: seq<Mutant>, path: string, fails: set<Status>, names: set<string>): FileEntry {
    FileEntry(CountUnexcused(ms, path, names), CountBlocked(ms, path, fails, names))
  }

  /** `filter_mutant_results` */
  method FilterMutantResults(ms: seq<Mutant>, patterns: Option<seq<string>>, matches: (string, string) -> bool)
    returns (kept: seq<Mutant>, missing: seq<string>)
    ensures patterns.None? ==> kept == ms && missing == []
    ensures patterns.Some? ==> kept == Selected(ms, patterns.value, matches)
    ensures patterns.Some? ==>
      forall q :: q in missing <==> q in patterns.value && forall m :: m in ms ==> !matches(m.name, q)
  {
    if patterns.None? { return ms, []; }
    kept := [];
    for i := 0 to |ms|
      invariant kept == Selected(ms[..i], patterns.value, matches)
    {
      assert ms[..i + 1][..i] == ms[..i];
      if exists q :: q in patterns.value && matches(ms[i].name, q) { kept := kept + [ms[i]]; }
    }
    assert ms[..|ms|] == ms;
    missing := Sorted(set q | q in patterns.value && forall m :: m in ms ==> !matches(m.name, q));
  }

  /** The results some pattern selects, in order. */
  function Selected(ms: seq<Mutant>, patterns: seq<string>, matches: (string, string) -> bool): (r: seq<Mutant>)
    ensures forall m :: m in r <==> m in ms && exists q :: q in patterns && matches(m.name, q)
  {
    if ms == [] then [] else
      var last := ms[|ms| - 1];
      Selected(ms[..|ms| - 1], patterns, matches) +
        if exists q :: q in patterns && matches(last.name, q) then [last] else []
  }

  /** `counts`, one turn per result */
  method CountStatuses(ms: seq<Mutant>) returns (counts: map<Status, nat>)
    ensures forall s :: s in counts && counts[s] == Count(ms, s)
  {
    counts := map s | s in ALL_STATUSES :: 0;
    forall s: Status ensures s in ALL_STATUSES { StatusListed(s); }
    for i := 0 to |ms|
      invariant forall s :: s in counts && counts[s] == Count(ms[..i], s)
    {
      assert ms[..i + 1] == ms[..i] + [ms[i]];
      forall s ensures Count(ms[..i + 1], s) == Count(ms[..i], s) + One(ms[i].status == s) {
        CountAppend(ms[..i], ms[i], s, {});
      }
      counts := counts[ms[i].status := counts[ms[i].status] + 1];
    }
    assert ms[..|ms|] == ms;
  }

  /** `excused_by_status`, one turn per result */
  method CountExcusedStatuses(ms: seq<Mutant>, names: set<string>) returns (excused: map<Status, nat>)
    ensures forall s :: At(excused, s) == CountExcused(ms, s, names)
  {
    excused := map[];
    for i := 0 to |ms|
      invariant forall s :: At(excused, s) == CountExcused(ms[..i], s, names)
    {
      assert ms[..i + 1] == ms[..i] + [ms[i]];
      forall s ensures CountExcused(ms[..i + 1], s, names) ==
                         CountExcused(ms[..i], s, names) + One(ms[i].status == s && ms[i].name in names) {
        CountAppend(ms[..i], ms[i], s, names);
      }
      if ms[i].name in names {
        excused := excused[ms[i].status := At(excused, ms[i].status) + 1];
      }
    }
    assert ms[..|ms|] == ms;
  }

  /** The counting loops of `build_report`. */
  method Tally(ms: seq<Mutant>, names: set<string>)
    returns (counts: map<Status, nat>, total: nat, excusedByStatus: map<Status, nat>)
    ensures CountsReported(counts, excusedByStatus, ms, names)
    ensures total == |ms|
  {
    counts := CountStatuses(ms);
    total := SumOf(counts, ms);
    excusedByStatus := CountExcusedStatuses(ms, names);
  }

  lemma StatusListed(s: Status)
    ensures s in ALL_STATUSES
  {
    match s {
      case Killed => assert ALL_STATUSES[0] == s;
      case CaughtByTypeCheck => assert ALL_STATUSES[1] == s;
      case Survived => assert ALL_STATUSES[2] == s;
      case NoTests => assert ALL_STATUSES[3] == s;
      case Skipped => assert ALL_STATUSES[4] == s;
      case Suspicious => assert ALL_STATUSES[5] == s;
      case Timeout => assert ALL_STATUSES[6] == s;
      case Interrupted => assert ALL_STATUSES[7] == s;
      case Segfault => assert ALL_STATUSES[8] == s;
      case NotChecked => assert ALL_STATUSES[9] == s;
    }
  }

  /** `sum(counts.values())` */
  method SumOf(counts: map<Status, nat>, ghost ms: seq<Mutant>) returns (total: nat)
    requires forall s :: s in counts && counts[s] == Count(ms, s)
    ensures total == |ms|
  {
    total := 0;
    for i := 0 to |ALL_STATUSES|
      invariant total == SumCounts(counts, ALL_STATUSES[..i])
    {
      assert ALL_STATUSES[..i + 1][..i] == ALL_STATUSES[..i];
      total := total + counts[ALL_STATUSES[i]];
    }
    CountsCoverAll(ms);
    assert ALL_STATUSES[..|ALL_STATUSES|] == ALL_STATUSES;
    SumOfAll(counts);
  }

  lemma SumOfAll(c: map<Status, nat>)
    requires forall s :: s in c
    ensures SumCounts(c, ALL_STATUSES) == c[Killed] + c[CaughtByTypeCheck] + c[Survived] + c[NoTests] + c[Skipped] +
              c[Suspicious] + c[Timeout] + c[Interrupted] + c[Segfault] + c[NotChecked]
  {
    hide SumCounts;
    SumOfHalf(c);
    assert ALL_STATUSES[..10] == ALL_STATUSES;
    SumNext(c, 5, Suspicious);
    SumNext(c, 6, Timeout);
    SumNext(c, 7, Interrupted);
    SumNext(c, 8, Segfault);
    SumNext(c, 9, NotChecked);
  }

  lemma SumOfHalf(c: map<Status, nat>)
    requires forall s :: s in c
    ensures SumCounts(c, ALL_STATUSES[..5]) == c[Killed] + c[CaughtByTypeCheck] + c[Survived] + c[NoTests] + c[Skipped]
  {
    assert ALL_STATUSES[..0] == [] && SumCounts(c, []) == 0;
    hide SumCounts;
    SumNext(c, 0, Killed);
    SumNext(c, 1, CaughtByTypeCheck);
    SumNext(c, 2, Survived);
    SumNext(c, 3, NoTests);
    SumNext(c, 4, Skipped);
  }

  lemma SumNext(c: map<Status, nat>, n: nat, s: Status)
    requires n < |ALL_STATUSES| && ALL_STATUSES[n] == s && forall o :: o in c
    ensures SumCounts(c, ALL_STATUSES[..n + 1]) == SumCounts(c, ALL_STATUSES[..n]) + c[s]
  {
    assert ALL_STATUSES[..n + 1][..n] == ALL_STATUSES[..n];
  }

  /** `blocked_file_summary`, its examples and its order apart */
  method BlockedFileSummary(ms: seq<Mutant>, fails: set<Status>, names: set<string>) returns (r: map<string, FileEntry>)
    ensures BlockedReported(r, ms, fails, names)
  {
    var byFile: map<string, FileEntry> := map[];
    for i := 0 to |ms|
      invariant forall path ::
        EntryOf(ms[..i], path, fails, names) == if path in byFile then byFile[path] else FileEntry(0, 0)
    {
      var m := ms[i];
      assert ms[..i + 1][..i] == ms[..i];
      if m.name in names { continue; }
      var entry := if m.path in byFile then byFile[m.path] else FileEntry(0, 0);
      byFile := byFile[m.path := FileEntry(entry.total + 1, entry.blocked + if m.status in fails then 1 else 0)];
    }
    assert ms[..|ms|] == ms;
    r := map path | path in byFile && byFile[path].blocked > 0 :: byFile[path];
  }

  /** `build_report` on the results selected, a registry and a root given */
  method BuildReport(ms: seq<Mutant>, missing: seq<string>, g: Registry, callableOf: Naming, fails: set<Status>)
    returns (r: Report)
    ensures Reports(r, ms, g, callableOf, fails) && r.missing == missing
  {
    var excused, invalid := ExcusableSurvivors(ms, g, callableOf);
    var counts, total, excusedByStatus := Tally(ms, excused);
    var blocked := BlockedFileSummary(ms, fails, excused);
    var passed := counts[Killed] + counts[CaughtByTypeCheck];
    r := Report(counts, total, passed, |excused|, invalid, excusedByStatus, blocked, missing);
  }

  // ---------------------------------------------------------------------------------------
  // What a pass means
  // ---------------------------------------------------------------------------------------

  lemma ScoreMonotone(a: nat, b: nat, total: nat)
    requires a <= b
    ensures Score(a, total) <= Score(b, total)
  {
    if total > 0 {
      assert a as real / total as real <= b as real / total as real;
    }
  }

  lemma ScoreShort(good: nat, total: nat)
    requires good < total
    ensures Score(good, total) < 100.0
  {
    assert good as real / total as real < 1.0;
  }

  lemma ScoreBounds(good: nat, total: nat)
    requires good <= total
    ensures 0.0 <= Score(good, total) <= 100.0
    ensures Score(good, total) == 100.0 ==> good == total
  {
    ScoreMonotone(0, good, total);
    if good < total { ScoreShort(good, total); }
  }

  /** The gate said directly of the results. */
  ghost predicate GatePasses(ms: seq<Mutant>, g: Registry, callableOf: Naming, fails: set<Status>, minScore: real) {
    RowsCurrent(g) && ms != [] && ResultsPass(ms, ExcusedNames(ms, g, callableOf), fails, minScore)
  }

  predicate ResultsPass(ms: seq<Mutant>, names: set<string>, fails: set<Status>, minScore: real) {
    NoneFail(ms, fails, names) && Score(CountPassed(ms) + |names|, |ms|) >= minScore
  }

  predicate NoneFail(ms: seq<Mutant>, fails: set<Status>, names: set<string>) {
    forall s :: s in fails ==> AllExcused(ms, s, names)
  }

  lemma NoneBlockIff(r: Report, ms: seq<Mutant>, names: set<string>, fails: set<Status>)
    requires CountsReported(r.counts, r.excusedByStatus, ms, names)
    ensures NoneBlock(r, fails) <==> NoneFail(ms, fails, names)
  {
    forall s
      ensures s in r.counts && BlockingCount(r, s) >= 0 && (BlockingCount(r, s) == 0 <==> AllExcused(ms, s, names))
    {
      FreeCount(ms, s, names);
    }
  }

  lemma ResultsPassIff(r: Report, ms: seq<Mutant>, names: set<string>, fails: set<Status>, minScore: real)
    requires CountsReported(r.counts, r.excusedByStatus, ms, names)
    requires r.total == |ms| && r.passed == CountPassed(ms) && r.excusedCount == |names|
    ensures NoneBlock(r, fails) && EffectiveScore(r) >= minScore <==> ResultsPass(ms, names, fails, minScore)
  {
    NoneBlockIff(r, ms, names, fails);
  }

  /** The exit code of the gate, from a report that is right: it passes exactly if all patterns match and this holds. */
  lemma PassesIff(r: Report, ms: seq<Mutant>, g: Registry, callableOf: Naming, fails: set<Status>, minScore: real)
    requires Reports(r, ms, g, callableOf, fails)
    ensures Passes(r, fails, minScore) <==> r.missing == [] && GatePasses(ms, g, callableOf, fails, minScore)
  {
    NoProblemsIff(g);
    ResultsPassIff(r, ms, ExcusedNames(ms, g, callableOf), fails, minScore);
  }

  /** The results with one of these statuses. */
  function With(ms: seq<Mutant>, statuses: set<Status>): set<nat> {
    set i: nat | i < |ms| && ms[i].status in statuses
  }

  lemma {:induction false} PassedCount(ms: seq<Mutant>)
    ensures CountPassed(ms) == |With(ms, {Killed, CaughtByTypeCheck})|
  {
    var good := {Killed, CaughtByTypeCheck};
    if ms == [] {
      assert With(ms, good) == {};
    } else {
      var init, last := ms[..|ms| - 1], ms[|ms| - 1];
      PassedCount(init);
      assert With(ms, good) == With(init, good) + if last.status in good then {|init|} else {};
    }
  }

  /** The share of `good` in `total`, in percent, is at least this. */
  ghost predicate Reaches(good: nat, total: nat, minScore: real) {
    100.0 * good as real >= minScore * total as real
  }

  lemma ScoreReaches(good: nat, total: nat, minScore: real)
    requires total > 0
    ensures Score(good, total) >= minScore <==> Reaches(good, total, minScore)
  {
    var share := good as real / total as real;
    assert share * total as real == good as real;
    assert 100.0 * good as real == (share * 100.0) * total as real;
  }

  /**
   The same in plain terms: all patterns match, every row's file has the contents it was written for, there are
   results, each of a failing status shares its name with an excused survivor, and those killed, caught or excused
   make up the share asked for.
   */
  lemma PassesInPlainTerms(r: Report, ms: seq<Mutant>, g: Registry, callableOf: Naming, fails: set<Status>,
                           minScore: real)
    requires Reports(r, ms, g, callableOf, fails)
    ensures Passes(r, fails, minScore) <==>
      && r.missing == [] && ms != []
      && (forall row :: row in g.rows ==> row.path in g.hashes && g.hashes[row.path] == row.sha256)
      && (forall m :: m in ms && m.status in fails ==> m.name in ExcusedNames(ms, g, callableOf))
      && Reaches(|With(ms, {Killed, CaughtByTypeCheck})| + |ExcusedNames(ms, g, callableOf)|, |ms|, minScore)
  {
    hide Passes, Reports, Score, Reaches, CountPassed, ExcusedNames, With;
    PassesIff(r, ms, g, callableOf, fails, minScore);
    PassedCount(ms);
    if ms != [] { ScoreReaches(CountPassed(ms) + |ExcusedNames(ms, g, callableOf)|, |ms|, minScore); }
  }

  /** The results of a file that no excuse covers, of these statuses. */
  function UnexcusedAt(ms: seq<Mutant>, path: string, statuses: set<Status>, names: set<string>): set<nat> {
    set i: nat | i < |ms| && ms[i].path == path && ms[i].status in statuses && ms[i].name !in names
  }

  lemma UnexcusedGrow(ms: seq<Mutant>, last: Mutant, path: string, statuses: set<Status>, names: set<string>)
    ensures |UnexcusedAt(ms + [last], path, statuses, names)| ==
              |UnexcusedAt(ms, path, statuses, names)| +
              One(last.path == path && last.status in statuses && last.name !in names)
  {
    var more := if last.path == path && last.status in statuses && last.name !in names then {|ms|} else {};
    assert UnexcusedAt(ms + [last], path, statuses, names) == UnexcusedAt(ms, path, statuses, names) + more;
  }

  lemma {:induction false} EntryCounts(ms: seq<Mutant>, path: string, fails: set<Status>, names: set<string>)
    ensures CountUnexcused(ms, path, names) == |UnexcusedAt(ms, path, EVERY_STATUS, names)|
    ensures CountBlocked(ms, path, fails, names) == |UnexcusedAt(ms, path, fails, names)|
  {
    if ms == [] {
      assert UnexcusedAt(ms, path, EVERY_STATUS, names) == {} == UnexcusedAt(ms, path, fails, names);
    } else {
      hide UnexcusedAt;
      var init, last := ms[..|ms| - 1], ms[|ms| - 1];
      assert ms == init + [last];
      EntryCounts(init, path, fails, names);
      StatusListed(last.status);
      UnexcusedGrow(init, last, path, EVERY_STATUS, names);
      UnexcusedGrow(init, last, path, fails, names);
    }
  }

  /** The files listed are those with unexcused failing results, each with how many, and how many unexcused in all. */
  lemma BlockedFilesAre(r: Report, ms: seq<Mutant>, g: Registry, callableOf: Naming, fails: set<Status>, path: string)
    requires Reports(r, ms, g, callableOf, fails)
    ensures var names := ExcusedNames(ms, g, callableOf);
      && (path in r.blockedByFile <==> UnexcusedAt(ms, path, fails, names) != {})
      && (path in r.blockedByFile ==>
            && r.blockedByFile[path].blocked == |UnexcusedAt(ms, path, fails, names)|
            && r.blockedByFile[path].total == |UnexcusedAt(ms, path, EVERY_STATUS, names)|)
  {
    hide UnexcusedAt;
    EntryCounts(ms, path, fails, ExcusedNames(ms, g, callableOf));
  }

  /** Blocking counts are never negative, and all of them are zero exactly when no file is listed as blocked. */
  lemma BlockingCountsMatchFiles(r: Report, ms: seq<Mutant>, g: Registry, callableOf: Naming, fails: set<Status>)
    requires Reports(r, ms, g, callableOf, fails)
    ensures forall s :: s in r.counts && BlockingCount(r, s) >= 0
    ensures (forall s :: s in fails ==> BlockingCount(r, s) == 0) <==> r.blockedByFile == map[]
  {
    var names := ExcusedNames(ms, g, callableOf);
    forall s
      ensures s in r.counts && BlockingCount(r, s) >= 0 && (BlockingCount(r, s) == 0 <==> AllExcused(ms, s, names))
    {
      FreeCount(ms, s, names);
    }
    forall path ensures path in r.blockedByFile <==> exists m :: m in ms && m.path == path && Blocks(m, fails, names) {
      NoBlockedIff(ms, path, fails, names);
    }
    if r.blockedByFile == map[] {
      forall s | s in fails ensures BlockingCount(r, s) == 0 {
        forall m | m in ms && m.status == s ensures m.name in names {
          assert m.path !in r.blockedByFile;
        }
      }
    }
    if forall s :: s in fails ==> BlockingCount(r, s) == 0 {
      forall path ensures path !in r.blockedByFile {
        forall m | m in ms && m.path == path ensures !Blocks(m, fails, names) {
          assert m.status in fails ==> AllExcused(ms, m.status, names);
        }
      }
    }
  }

  /** Results excused by a row of their own. */
  ghost function CountOwn(ms: seq<Mutant>, g: Registry, callableOf: Naming): nat {
    if ms == [] then 0 else
      CountOwn(ms[..|ms| - 1], g, callableOf) + One(ExcusedItself(g, callableOf, ms[|ms| - 1]))
  }

  /** Every result was killed, caught by the type check, or is excused by a current row of its own. */
  ghost predicate Sound(ms: seq<Mutant>, g: Registry, callableOf: Naming) {
    forall m :: m in ms ==> Passed(m) || ExcusedItself(g, callableOf, m)
  }

  lemma {:induction false} OwnBounds(ms: seq<Mutant>, g: Registry, callableOf: Naming)
    ensures |ExcusedNames(ms, g, callableOf)| <= CountOwn(ms, g, callableOf)
    ensures CountPassed(ms) + CountOwn(ms, g, callableOf) <= |ms|
    ensures CountPassed(ms) + CountOwn(ms, g, callableOf) == |ms| <==> Sound(ms, g, callableOf)
  {
    if ms == [] {
      assert ExcusedNames(ms, g, callableOf) == {};
    } else {
      var init, last := ms[..|ms| - 1], ms[|ms| - 1];
      assert ms == init + [last];
      OwnBounds(init, g, callableOf);
      ExcusedGrow(init, last, g, callableOf);
      assert Sound(ms, g, callableOf) <==>
             Sound(init, g, callableOf) && (Passed(last) || ExcusedItself(g, callableOf, last));
    }
  }

  predicate Twins(ms: seq<Mutant>, i: int, j: int) {
    0 <= i < j < |ms| && ms[i].name == ms[j].name
  }

  /** No two results that a row of their own excuses share a name. */
  ghost predicate ExcusedApart(ms: seq<Mutant>, g: Registry, callableOf: Naming) {
    forall i, j :: Twins(ms, i, j) ==> !(ExcusedItself(g, callableOf, ms[i]) && ExcusedItself(g, callableOf, ms[j]))
  }

  lemma {:induction false} OwnNamesIff(ms: seq<Mutant>, g: Registry, callableOf: Naming)
    ensures |ExcusedNames(ms, g, callableOf)| == CountOwn(ms, g, callableOf) <==> ExcusedApart(ms, g, callableOf)
  {
    if ms == [] {
      assert ExcusedNames(ms, g, callableOf) == {};
    } else {
      var init, last := ms[..|ms| - 1], ms[|ms| - 1];
      assert ms == init + [last];
      OwnNamesIff(init, g, callableOf);
      OwnBounds(init, g, callableOf);
      ExcusedGrow(init, last, g, callableOf);
      ApartGrows(init, last, g, callableOf);
    }
  }

  lemma ApartGrows(ms: seq<Mutant>, last: Mutant, g: Registry, callableOf: Naming)
    ensures ExcusedApart(ms + [last], g, callableOf) <==>
              && ExcusedApart(ms, g, callableOf)
              && !(ExcusedItself(g, callableOf, last) && last.name in ExcusedNames(ms, g, callableOf))
  {
    hide ExcusedItself;
    var all := ms + [last];
    assert forall i, j :: Twins(ms, i, j) ==> Twins(all, i, j) && all[i] == ms[i] && all[j] == ms[j];
    if ExcusedItself(g, callableOf, last) && last.name in ExcusedNames(ms, g, callableOf) {
      var m :| m in ms && ExcusedItself(g, callableOf, m) && m.name == last.name;
      var i :| 0 <= i < |ms| && ms[i] == m;
      assert Twins(all, i, |ms|);
    } else if ExcusedApart(ms, g, callableOf) {
      forall i, j | Twins(all, i, j)
        ensures !(ExcusedItself(g, callableOf, all[i]) && ExcusedItself(g, callableOf, all[j]))
      {
        if j < |ms| { assert Twins(ms, i, j); } else { assert all[i] == ms[i] && ms[i] in ms; }
      }
    }
  }

  lemma FullScore(good: nat, total: nat)
    requires total > 0
    ensures Score(good, total) >= 100.0 <==> good >= total
  {
    ScoreReaches(good, total, 100.0);
  }

  /**
   With the default settings the gate passes exactly if all patterns match, all rows are current, and every result
   is killed, caught, or excused by a row of its own under a name that no other excused result has.
   */
  lemma PassesAtHundredIff(r: Report, ms: seq<Mutant>, g: Registry, callableOf: Naming)
    requires Reports(r, ms, g, callableOf, DEFAULT_FAILS)
    ensures Passes(r, DEFAULT_FAILS, 100.0) <==>
              && r.missing == [] && RowsCurrent(g) && ms != []
              && Sound(ms, g, callableOf) && ExcusedApart(ms, g, callableOf)
  {
    hide Passes, Reports, Score, CountPassed, ExcusedNames, CountOwn, Sound, ExcusedApart, RowsCurrent;
    PassesIff(r, ms, g, callableOf, DEFAULT_FAILS, 100.0);
    OwnBounds(ms, g, callableOf);
    OwnNamesIff(ms, g, callableOf);
    var good := CountPassed(ms) + |ExcusedNames(ms, g, callableOf)|;
    if ms != [] { FullScore(good, |ms|); }
    if Sound(ms, g, callableOf) { SoundNoneFail(ms, g, callableOf); }
  }

  lemma SoundNoneFail(ms: seq<Mutant>, g: Registry, callableOf: Naming)
    requires Sound(ms, g, callableOf)
    ensures NoneFail(ms, DEFAULT_FAILS, ExcusedNames(ms, g, callableOf))
  {
    forall m | m in ms && m.status in DEFAULT_FAILS ensures m.name in ExcusedNames(ms, g, callableOf) {
      assert ExcusedItself(g, callableOf, m);
    }
  }

  /** The effective score never exceeds 100, and reaches it only when every result is accounted for. */
  lemma EffectiveScoreBounded(r: Report, ms: seq<Mutant>, g: Registry, callableOf: Naming, fails: set<Status>)
    requires Reports(r, ms, g, callableOf, fails)
    ensures 0.0 <= EffectiveScore(r) <= 100.0
    ensures EffectiveScore(r) == 100.0 ==> Sound(ms, g, callableOf)
  {
    hide Score;
    OwnBounds(ms, g, callableOf);
    var good, total := r.passed + r.excusedCount, r.total;
    assert good <= total && (good == total ==> Sound(ms, g, callableOf));
    ScoreBounds(good, total);
  }

  /** With the default minimum score a pass is sound, whichever statuses fail and whatever names are shared. */
  lemma PerfectScoreIsSound(ms: seq<Mutant>, g: Registry, callableOf: Naming, fails: set<Status>, minScore: real)
    requires GatePasses(ms, g, callableOf, fails, minScore) && minScore >= 100.0
    ensures Sound(ms, g, callableOf)
  {
    hide Score, CountPassed, CountOwn;
    OwnBounds(ms, g, callableOf);
    var good := CountPassed(ms) + |ExcusedNames(ms, g, callableOf)|;
    if good < |ms| { ScoreShort(good, |ms|); }
  }

  // ---------------------------------------------------------------------------------------
  // Exactly when a pass can be trusted
  // ---------------------------------------------------------------------------------------

  const DEFAULT_FAILS := {Survived, NoTests, Skipped, Suspicious, Timeout, Interrupted, Segfault, NotChecked}

  datatype Named = Named(path: string, name: string)

  /** The results are some outcome for these mutants. */
  ghost predicate OutcomeOf(ms: seq<Mutant>, all: seq<Named>) {
    |ms| == |all| && forall i :: 0 <= i < |ms| ==> ms[i].path == all[i].path && ms[i].name == all[i].name
  }

  predicate SharedAt(all: seq<Named>, callableOf: Naming, i: int, j: int) {
    0 <= i < j < |all| && all[i].name == all[j].name && callableOf(all[i].name).Some?
  }

  /** Two mutants share a name that denotes a callable. */
  ghost predicate SharesNames(all: seq<Named>, callableOf: Naming) {
    exists i, j :: SharedAt(all, callableOf, i, j)
  }

  lemma UnsharedNameIsOwn(ms: seq<Mutant>, all: seq<Named>, g: Registry, callableOf: Naming, i: nat)
    requires OutcomeOf(ms, all) && !SharesNames(all, callableOf)
    requires i < |ms| && ms[i].name in ExcusedNames(ms, g, callableOf)
    ensures ExcusedItself(g, callableOf, ms[i])
  {
    var n :| n in ms && ExcusedItself(g, callableOf, n) && n.name == ms[i].name;
    var j :| 0 <= j < |ms| && ms[j] == n;
    assert callableOf(n.name).Some?;
    assert !SharedAt(all, callableOf, i, j) && !SharedAt(all, callableOf, j, i);
  }

  lemma UnsharedNamesAreSound(ms: seq<Mutant>, all: seq<Named>, g: Registry, callableOf: Naming, minScore: real)
    requires OutcomeOf(ms, all) && !SharesNames(all, callableOf)
    requires GatePasses(ms, g, callableOf, DEFAULT_FAILS, minScore)
    ensures Sound(ms, g, callableOf)
  {
    hide Score, CountPassed, RowsCurrent, ExcusedNames, SharesNames, OutcomeOf, ExcusedItself;
    forall m | m in ms && !Passed(m) ensures ExcusedItself(g, callableOf, m) {
      var i :| 0 <= i < |ms| && ms[i] == m;
      assert m.status in DEFAULT_FAILS && AllExcused(ms, m.status, ExcusedNames(ms, g, callableOf));
      UnsharedNameIsOwn(ms, all, g, callableOf, i);
    }
  }

  lemma UnsoundScore(ms: seq<Mutant>, g: Registry, callableOf: Naming, fails: set<Status>, minScore: real)
    requires GatePasses(ms, g, callableOf, fails, minScore) && !Sound(ms, g, callableOf)
    ensures minScore <= Score(|ms| - 1, |ms|)
  {
    hide Score;
    OwnBounds(ms, g, callableOf);
    ScoreMonotone(CountPassed(ms) + |ExcusedNames(ms, g, callableOf)|, |ms| - 1, |ms|);
  }

  /** All killed but the mutant at `i`, which survived, and the one at `j`, which no test covers. */
  function Fooling(all: seq<Named>, i: int, j: int): (ms: seq<Mutant>)
    ensures |ms| == |all|
    ensures forall k :: 0 <= k < |ms| ==>
              ms[k] == Mutant(all[k].path, if k == i then Survived else if k == j then NoTests else Killed, all[k].name)
  {
    seq(|all|, k requires 0 <= k < |all| =>
      Mutant(all[k].path, if k == i then Survived else if k == j then NoTests else Killed, all[k].name))
  }

  lemma {:induction false} FoolingCounts(all: seq<Named>, i: int, j: int, n: nat)
    requires 0 <= i < j < |all| && n <= |all|
    ensures CountPassed(Fooling(all, i, j)[..n]) == n - One(i < n) - One(j < n)
  {
    var ms := Fooling(all, i, j);
    if n > 0 {
      FoolingCounts(all, i, j, n - 1);
      assert ms[..n][..n - 1] == ms[..n - 1];
    }
  }

  /** A registry with one row, for the callable of `m`. */
  function OneRow(m: Named, callable: string): Registry {
    Registry([Carveout(m.path, "", true, {callable})], map[m.path := ""])
  }

  lemma FoolingExcuses(all: seq<Named>, callableOf: Naming, i: int, j: int)
    requires SharedAt(all, callableOf, i, j)
    ensures var g := OneRow(all[i], callableOf(all[i].name).value);
      && RowsCurrent(g) && ExcusedNames(Fooling(all, i, j), g, callableOf) == {all[i].name}
      && !ExcusedItself(g, callableOf, Fooling(all, i, j)[j])
  {
    var ms, g := Fooling(all, i, j), OneRow(all[i], callableOf(all[i].name).value);
    assert Excuses(g.rows[0], g, callableOf, ms[i]) && ms[i] in ms;
    forall m | m in ms && ExcusedItself(g, callableOf, m) ensures m.name == all[i].name {
      var k :| 0 <= k < |ms| && ms[k] == m;
      assert m.status.Survived? ==> k == i;
    }
    assert ms[i].name in ExcusedNames(ms, g, callableOf);
  }

  lemma FoolingFailsByName(all: seq<Named>, i: int, j: int)
    requires 0 <= i < j < |all| && all[i].name == all[j].name
    ensures NoneFail(Fooling(all, i, j), DEFAULT_FAILS, {all[i].name})
  {
    var ms := Fooling(all, i, j);
    forall s | s in DEFAULT_FAILS ensures AllExcused(ms, s, {all[i].name}) {
      forall m | m in ms && m.status == s ensures m.name == all[i].name {
        var k :| 0 <= k < |ms| && ms[k] == m;
      }
    }
  }

  lemma SharedNamesCanFool(all: seq<Named>, callableOf: Naming, i: int, j: int, minScore: real)
    requires SharedAt(all, callableOf, i, j) && minScore <= Score(|all| - 1, |all|)
    ensures exists ms, g ::
      OutcomeOf(ms, all) && GatePasses(ms, g, callableOf, DEFAULT_FAILS, minScore) && !Sound(ms, g, callableOf)
  {
    var ms, g := Fooling(all, i, j), OneRow(all[i], callableOf(all[i].name).value);
    FoolingCounts(all, i, j, |all|);
    assert ms[..|all|] == ms;
    FoolingExcuses(all, callableOf, i, j);
    FoolingFailsByName(all, i, j);
    assert GatePasses(ms, g, callableOf, DEFAULT_FAILS, minScore);
    assert ms[j] in ms && !Passed(ms[j]);
    assert OutcomeOf(ms, all) && !Sound(ms, g, callableOf);
  }

  ghost predicate Trustworthy(all: seq<Named>, callableOf: Naming, minScore: real) {
    forall ms, g ::
      OutcomeOf(ms, all) && GatePasses(ms, g, callableOf, DEFAULT_FAILS, minScore) ==> Sound(ms, g, callableOf)
  }

  /**
   With the default fail statuses, a pass can be trusted for every outcome and every registry exactly
   when no two selected mutants share a name that denotes a callable, or the minimum score leaves no
   room for a single unaccounted result.
   */
  lemma TrustworthyIff(all: seq<Named>, callableOf: Naming, minScore: real)
    requires all != []
    ensures Trustworthy(all, callableOf, minScore) <==>
              !SharesNames(all, callableOf) || minScore > Score(|all| - 1, |all|)
  {
    if !SharesNames(all, callableOf) || minScore > Score(|all| - 1, |all|) {
      forall ms, g | OutcomeOf(ms, all) && GatePasses(ms, g, callableOf, DEFAULT_FAILS, minScore)
        ensures Sound(ms, g, callableOf)
      {
        OutcomeIsSound(ms, all, g, callableOf, minScore);
      }
    } else {
      var i, j :| SharedAt(all, callableOf, i, j);
      SharedNamesCanFool(all, callableOf, i, j, minScore);
    }
  }

  lemma OutcomeIsSound(ms: seq<Mutant>, all: seq<Named>, g: Registry, callableOf: Naming, minScore: real)
    requires OutcomeOf(ms, all) && GatePasses(ms, g, callableOf, DEFAULT_FAILS, minScore)
    requires !SharesNames(all, callableOf) || minScore > Score(|all| - 1, |all|)
    ensures Sound(ms, g, callableOf)
  {
    hide Score, GatePasses, SharesNames, Sound;
    if !SharesNames(all, callableOf) {
      UnsharedNamesAreSound(ms, all, g, callableOf, minScore);
    } else if !Sound(ms, g, callableOf) {
      UnsoundScore(ms, g, callableOf, DEFAULT_FAILS, minScore);
    }
  }
}
