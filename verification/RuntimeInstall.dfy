/**
 Installed runtimes (src/mcp_broker/runtime_install.py): manifest, then the previous pointer, then the
 active one. That entrypoint and digest are not blank is already checked.
 */
module RuntimeInstall {
  import opened Prelude
  import opened Pointers

  /** An attempt to install, which crashes after at most `writes` steps. */
  datatype Install = Install(version: string, digest: string, writes: nat)

  const EMPTY := Disk([], None, None, {}, [])

  predicate Alphanumeric(c: char) {
    'A' <= c <= 'Z' || 'a' <= c <= 'z' || '0' <= c <= '9'
  }

  predicate SafeChar(c: char) {
    Alphanumeric(c) || c == '.' || c == '_' || c == '-'
  }

  /** `_SAFE_VERSION_PATTERN`, the condition of `_require_safe_version`: a path component, and none of `.` and `..` */
  predicate SafeVersion(s: string) {
    s != "" && Alphanumeric(s[0]) && forall c :: c in s ==> SafeChar(c)
  }

  /** Every run of other characters becomes one dash; `inRun` says that such a run is being read. */
  function Sanitized(s: string, inRun: bool): (r: string)
    ensures forall c :: c in r ==> SafeChar(c)
  {
    if s == "" then ""
    else if SafeChar(s[0]) then [s[0]] + Sanitized(s[1..], false)
    else (if inRun then "" else "-") + Sanitized(s[1..], true)
  }

  /** `lstrip("-")` */
  function StrippedLeft(s: string): string {
    if s != "" && s[0] == '-' then StrippedLeft(s[1..]) else s
  }

  /** `rstrip("-")` */
  function StrippedRight(s: string): (r: string)
    ensures r <= s && (s != "" && s[0] != '-' ==> r != "")
  {
    if s != "" && s[|s| - 1] == '-' then StrippedRight(s[..|s| - 1]) else s
  }

  function LastTwelve(digest: string): string {
    if |digest| < 12 then digest else digest[|digest| - 12..]
  }

  /** `_runtime_id` */
  function RuntimeId(version: string, digest: string): string {
    StrippedRight(StrippedLeft(Sanitized(version + "-" + LastTwelve(digest), false)))
  }

  /** Whatever the digest, the id of a safe version is itself a safe path component. */
  lemma RuntimeIdIsSafe(version: string, digest: string)
    requires SafeVersion(version)
    ensures SafeVersion(RuntimeId(version, digest))
  {
    var raw := version + "-" + LastTwelve(digest);
    var clean := Sanitized(raw, false);
    assert clean[0] == raw[0] == version[0];
    assert StrippedLeft(clean) == clean;
    var id := StrippedRight(clean);
    assert id[0] == clean[0];
    forall c | c in id ensures SafeChar(c) { assert c in clean; }
  }

  lemma {:induction false} SafeIsKept(s: string, inRun: bool)
    requires forall c :: c in s ==> SafeChar(c)
    ensures Sanitized(s, inRun) == s
  {
    if s != "" {
      SafeIsKept(s[1..], false);
      assert [s[0]] + s[1..] == s;
    }
  }

  lemma {:induction false} RunIsPassed(run: string, rest: string)
    requires (forall c :: c in run ==> !SafeChar(c)) && (rest != "" ==> SafeChar(rest[0]))
    ensures Sanitized(run + rest, true) == Sanitized(rest, false)
  {
    if run == "" {
      assert run + rest == rest;
    } else {
      assert run[0] in run && (run + rest)[1..] == run[1..] + rest;
      RunIsPassed(run[1..], rest);
    }
  }

  lemma RunBecomesDash(run: string, after: string)
    requires run != "" && (forall c :: c in run ==> !SafeChar(c)) && (after != "" ==> SafeChar(after[0]))
    ensures Sanitized(run + after, false) == "-" + Sanitized(after, false)
  {
    assert run[0] in run && (run + after)[1..] == run[1..] + after;
    RunIsPassed(run[1..], after);
  }

  /** Each maximal run of unsafe characters becomes one dash, and what is before and after it does not matter. */
  lemma {:induction false} UnsafeRunIsOneDash(before: string, inRun: bool, run: string, after: string)
    requires run != "" && (forall c :: c in run ==> !SafeChar(c)) && (after != "" ==> SafeChar(after[0]))
    requires if before == "" then !inRun else SafeChar(before[|before| - 1])
    ensures Sanitized(before + (run + after), inRun) == Sanitized(before, inRun) + ("-" + Sanitized(after, false))
  {
    var rest := run + after;
    if before == "" {
      assert before + rest == rest;
      RunBecomesDash(run, after);
    } else {
      hide SafeChar;
      var all, tail := before + rest, before[1..];
      assert all[0] == before[0] && all[1..] == tail + rest;
      UnsafeRunIsOneDash(tail, !SafeChar(before[0]), run, after);
      var head := if SafeChar(before[0]) then [before[0]] else if inRun then "" else "-";
      var a, b := Sanitized(tail, !SafeChar(before[0])), "-" + Sanitized(after, false);
      assert head + (a + b) == (head + a) + b;
    }
  }

  lemma {:induction false} StrippedRightIs(s: string)
    ensures var r := StrippedRight(s);
      && r <= s && (forall c :: c in s[|r|..] ==> c == '-') && (r != "" ==> r[|r| - 1] != '-')
  {
    if s != "" && s[|s| - 1] == '-' {
      var init := s[..|s| - 1];
      StrippedRightIs(init);
      assert s[|StrippedRight(s)|..] == init[|StrippedRight(s)|..] + "-";
    }
  }

  /** The id is what comes of version, dash and the digest's last twelve characters, less the dashes at its end. */
  lemma RuntimeIdEndsInNoDash(version: string, digest: string)
    requires SafeVersion(version)
    ensures var raw := version + "-" + (if |digest| <= 12 then digest else digest[|digest| - 12..]);
      var clean, id := Sanitized(raw, false), RuntimeId(version, digest);
      && id <= clean && (forall c :: c in clean[|id|..] ==> c == '-') && id != "" && id[|id| - 1] != '-'
  {
    RuntimeIdIsSafe(version, digest);
    var raw := version + "-" + LastTwelve(digest);
    assert |digest| == 12 ==> digest[0..] == digest;
    assert Sanitized(raw, false)[0] == raw[0] == version[0];
    StrippedRightIs(Sanitized(raw, false));
  }

  /** A digest in letters and digits shows in the id: the version, a dash, and the digest's last twelve characters. */
  lemma RuntimeIdShowsDigest(version: string, digest: string)
    requires SafeVersion(version) && |digest| >= 12 && forall c :: c in digest ==> Alphanumeric(c)
    ensures RuntimeId(version, digest) == version + "-" + digest[|digest| - 12..]
  {
    var tail := digest[|digest| - 12..];
    var raw := version + "-" + tail;
    forall c | c in raw ensures SafeChar(c) { assert c in tail ==> c in digest; }
    SafeIsKept(raw, false);
    assert raw[0] == version[0] && raw[|raw| - 1] == tail[11] && tail[11] in digest;
  }

  /** Two such ids are equal exactly when the versions and the last twelve characters are. */
  lemma RuntimeIdsEqualIff(v: string, d: string, w: string, e: string)
    requires SafeVersion(v) && |d| >= 12 && forall c :: c in d ==> Alphanumeric(c)
    requires SafeVersion(w) && |e| >= 12 && forall c :: c in e ==> Alphanumeric(c)
    ensures RuntimeId(v, d) == RuntimeId(w, e) <==> v == w && d[|d| - 12..] == e[|e| - 12..]
  {
    RuntimeIdShowsDigest(v, d);
    RuntimeIdShowsDigest(w, e);
    var a, b := v + "-" + d[|d| - 12..], w + "-" + e[|e| - 12..];
    if a == b {
      assert a[..|a| - 13] == v && b[..|b| - 13] == w;
      assert a[|a| - 12..] == d[|d| - 12..] && b[|b| - 12..] == e[|e| - 12..];
    }
  }

  function PathOf(version: string, id: string): string {
    "versions/" + version + "/" + id + "/runtime-manifest.json"
  }

  function NewPointer(i: Install): Pointer {
    Pointer(RuntimeId(i.version, i.digest), PathOf(i.version, RuntimeId(i.version, i.digest)))
  }

  function Plan(d: Disk, i: Install): seq<Write> {
    RecordWrite(NewPointer(i)) +
    ((if d.active.Some? then PreviousWrite(d.active.value) else []) + ActiveWrite(NewPointer(i)))
  }

  /** A version that is not a safe path component raises before any write. */
  function After(d: Disk, i: Install): Disk {
    if SafeVersion(i.version) then DoAll(d, Prefix(Plan(d, i), i.writes)) else d
  }

  function Run(all: seq<Install>): Disk {
    if all == [] then EMPTY else After(Run(all[..|all| - 1]), all[|all| - 1])
  }

  predicate Completes(d: Disk, i: Install) {
    i.writes >= |Plan(d, i)|
  }

  /** How many steps an install that is cut short may do without the active pointer changing. */
  function Commit(d: Disk): nat {
    if d.active.Some? then 6 else 4
  }

  function Bare(d: Disk): Disk {
    d.(partials := {}, journal := [])
  }

  lemma InstallCut(d: Disk, i: Install)
    requires SafeVersion(i.version)
    ensures var p := NewPointer(i);
      Bare(After(d, i)) ==
        Disk(if i.writes >= 2 then Without(d.records, p.path) + [p] else d.records,
             if i.writes >= Commit(d) then Some(p) else d.active,
             if i.writes >= 4 && d.active.Some? then d.active else d.previous, {}, [])
  {
    var p, n := NewPointer(i), i.writes;
    var middle := if d.active.Some? then PreviousWrite(d.active.value) else [];
    CutConcat(d, RecordWrite(p), middle + ActiveWrite(p), n);
    CutPair(d, Begin(p.path), PutRecord(p), n);
    CutPair(d, Begin(p.path), PutRecord(p), 2);
    if n >= 2 {
      var mid := DoAll(d, RecordWrite(p));
      CutConcat(mid, middle, ActiveWrite(p), n - 2);
      if d.active.Some? {
        CutPair(mid, Begin(PREVIOUS_FILE), PutPrevious(d.active.value), n - 2);
        CutPair(mid, Begin(PREVIOUS_FILE), PutPrevious(d.active.value), 2);
        if n >= 4 { CutPair(DoAll(mid, middle), Begin(ACTIVE_FILE), PutActive(p), n - 4); }
      } else {
        CutPair(mid, Begin(ACTIVE_FILE), PutActive(p), n - 2);
      }
    }
  }

  /** The formerly active runtime stays named by one of the two pointers at every intermediate step. */
  lemma FormerStaysNamed(d: Disk, i: Install)
    requires d.active.Some?
    ensures Named(After(d, i), d.active.value)
  {
    if SafeVersion(i.version) { InstallCut(d, i); }
  }

  /** An install cut before its last step leaves the active runtime alone, and can be repeated as if never tried. */
  lemma RepeatedInstallMatches(d: Disk, i: Install, full: nat, again: nat)
    requires SafeVersion(i.version) && i.writes < |Plan(d, i)|
    requires Completes(d, i.(writes := full)) && Completes(After(d, i), i.(writes := again))
    ensures After(d, i).active == d.active
    ensures var once := After(d, i.(writes := full)); var twice := After(After(d, i), i.(writes := again));
      twice.active == once.active && twice.previous == once.previous &&
      (forall p :: p in twice.records <==> p in once.records)
  {
    InstallCut(d, i);
    InstallCut(d, i.(writes := full));
    InstallCut(After(d, i), i.(writes := again));
  }

  // ---------------------------------------------------------------------------------------
  // Every run
  // ---------------------------------------------------------------------------------------

  lemma SeparatorInside(v: string, w: string, s: string)
    requires |v| < |w| && v + "/" <= s && w <= s
    ensures !SafeVersion(w)
  {
    assert w[|v|] == s[|v|] == (v + "/")[|v|] == '/';
    assert w[|v|] in w;
  }

  /** The path of a manifest determines its version and id, as neither holds a separator. */
  lemma SplitsOnce(v: string, i: string, w: string, j: string)
    requires SafeVersion(v) && SafeVersion(w) && v + "/" + i == w + "/" + j
    ensures v == w && i == j
  {
    var s := v + "/" + i;
    assert v + "/" <= s && v <= s && w + "/" <= s && w <= s;
    if |v| < |w| { SeparatorInside(v, w, s); }
    if |w| < |v| { SeparatorInside(w, v, s); }
    assert v == s[..|v|] && w == s[..|w|];
    assert i == s[|v| + 1..] && j == s[|w| + 1..];
  }

  ghost predicate Placed(p: Pointer) {
    exists v :: SafeVersion(v) && SafeVersion(p.id) && p.path == PathOf(v, p.id)
  }

  lemma PathMiddle(version: string, id: string)
    ensures var path := PathOf(version, id); |path| >= 31 && path[9..|path| - 22] == version + "/" + id
  {
    assert PathOf(version, id) == "versions/" + (version + "/" + id) + "/runtime-manifest.json";
  }

  lemma PlacedSamePath(p: Pointer, q: Pointer)
    requires Placed(p) && Placed(q) && p.path == q.path
    ensures p == q
  {
    hide PathOf, SafeVersion;
    var v :| SafeVersion(v) && p.path == PathOf(v, p.id);
    var w :| SafeVersion(w) && q.path == PathOf(w, q.id);
    PathMiddle(v, p.id);
    PathMiddle(w, q.id);
    SplitsOnce(v, p.id, w, q.id);
  }

  ghost predicate Sound(d: Disk) {
    && (forall p :: p in d.records ==> Placed(p))
    && (d.active.Some? ==> Placed(d.active.value)) && (d.previous.Some? ==> Placed(d.previous.value))
    && BothLinked(d)
  }

  lemma InstallKeepsSound(d: Disk, i: Install)
    requires Sound(d)
    ensures Sound(After(d, i))
  {
    if SafeVersion(i.version) {
      InstallCut(d, i);
      var p := NewPointer(i);
      RuntimeIdIsSafe(i.version, i.digest);
      assert Placed(p);
      forall q | q in d.records && q.path == p.path ensures q == p { PlacedSamePath(p, q); }
      var r := Bare(After(d, i));
      assert Sound(r);
    }
  }

  /** In every run, whatever was cut short, both pointers name an existing manifest with their id. */
  lemma {:induction false} RunsStayLinked(all: seq<Install>)
    ensures Sound(Run(all)) && BothLinked(Run(all))
  {
    if all != [] {
      var init, last := all[..|all| - 1], all[|all| - 1];
      RunsStayLinked(init);
      InstallKeepsSound(Run(init), last);
    }
  }

  /** `record_installed_runtime`; raised for an unsafe version. */
  method RecordInstalledRuntime(store: Store, version: string, digest: string) returns (alive: bool)
    modifies store
    ensures store.Files() == After(old(store.Files()), Install(version, digest, old(store.budget)))
    ensures alive <==>
      SafeVersion(version) && Completes(old(store.Files()), Install(version, digest, old(store.budget)))
  {
    if !SafeVersion(version) { return false; }
    var id := RuntimeId(version, digest);
    var manifest := Pointer(id, PathOf(version, id));
    ghost var d := store.Files();
    var currentActive := store.active;
    ghost var middle := if d.active.Some? then PreviousWrite(d.active.value) else [];
    CutConcat(d, RecordWrite(manifest), middle + ActiveWrite(manifest), store.budget);
    WholePrefix(RecordWrite(manifest), store.budget);
    alive := store.WriteJsonAtomic(Begin(manifest.path), PutRecord(manifest));
    if !alive { return; }
    if currentActive.Some? {
      CutConcat(store.Files(), middle, ActiveWrite(manifest), store.budget);
      WholePrefix(middle, store.budget);
      alive := store.WriteJsonAtomic(Begin(PREVIOUS_FILE), PutPrevious(currentActive.value));
      if !alive { return; }
    } else {
      assert middle + ActiveWrite(manifest) == ActiveWrite(manifest);
    }
    alive := store.WriteJsonAtomic(Begin(ACTIVE_FILE), PutActive(manifest));
  }
}
