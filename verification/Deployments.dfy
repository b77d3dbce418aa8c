/**
 Crash-ordered deployment state (src/mcp_broker/deployments.py): stage, rollback and recover.
 Bundles are already validated; modification times of records are all different.
 */
module Deployments {
  import opened Prelude
  import opened Pointers

  datatype Op =
    | Stage(id: string)
    | Rollback
    | Recover
    | LoseActive | LosePrevious | LoseRecord(path: string)  // the environment deletes a file

  datatype Event = Event(op: Op, writes: nat)

  const EMPTY := Disk([], None, None, {}, [])

  function PathOf(id: string): string {
    "records/" + id + ".json"
  }

  lemma PathOfInjective(a: string, b: string)
    requires PathOf(a) == PathOf(b)
    ensures a == b
  {
    assert PathOf(a)[8..8 + |a|] == a;
    assert PathOf(b)[8..8 + |b|] == b;
  }

  function NewPointer(id: string): Pointer {
    Pointer(id, PathOf(id))
  }

  function Id(p: Option<Pointer>): Option<string> {
    if p.Some? then Some(p.value.id) else None
  }

  /** `_latest_record_pointer` */
  function LatestRecord(d: Disk): Option<Pointer> {
    if d.records == [] then None else Some(d.records[|d.records| - 1])
  }

  predicate NeedsReplacement(d: Disk) {
    d.active.None? || !IsRecordFile(d, d.active.value.path)
  }

  /** What `recover` leaves in force. */
  function RecoveredActive(d: Disk): Option<Pointer> {
    if NeedsReplacement(d) then LatestRecord(d) else d.active
  }

  function Unlinks(paths: seq<string>): (ws: seq<Write>)
    ensures |ws| == |paths| && forall i :: 0 <= i < |ws| ==> ws[i] == Unlink(paths[i])
  {
    if paths == [] then [] else [Unlink(paths[0])] + Unlinks(paths[1..])
  }

  /** The call raises: rollback before any write, recover after the partial files are gone. */
  predicate Refused(d: Disk, op: Op) {
    if op.Rollback? then d.active.None? || d.previous.None? || !IsRecordFile(d, d.previous.value.path)
    else op.Recover? && d.active.Some? && NeedsReplacement(d) && d.records == []
  }

  function StageHead(d: Disk, id: string): seq<Write> {
    RecordWrite(NewPointer(id)) + ActiveWrite(NewPointer(id))
  }

  function StageTail(former: Option<Pointer>, id: string): seq<Write> {
    (if former.Some? then PreviousWrite(former.value) else []) + [Append(Activated(id, Id(former)))]
  }

  function RecoverTail(d: Disk): seq<Write> {
    var target := RecoveredActive(d);
    if target.None? && d.active.Some? then []
    else
      var recovered := NeedsReplacement(d) && target.Some?;
      (if recovered then ActiveWrite(target.value) else []) +
      (if recovered || d.partials != {} then [Append(Recovered(Id(target), Sorted(d.partials)))] else [])
  }

  /** The writes of a call in order. */
  function Plan(d: Disk, op: Op): seq<Write> {
    match op
    case Stage(id) => StageHead(d, id) + StageTail(d.active, id)
    case Rollback =>
      if Refused(d, op) then [] else
        ActiveWrite(d.previous.value) +
        (PreviousWrite(d.active.value) + [Append(RolledBack(d.previous.value.id, d.active.value.id))])
    case Recover => Unlinks(Sorted(d.partials)) + RecoverTail(d)
    case LoseActive => [DropActive]
    case LosePrevious => [DropPrevious]
    case LoseRecord(path) => [DropRecord(path)]
  }

  function After(d: Disk, e: Event): Disk {
    DoAll(d, Prefix(Plan(d, e.op), e.writes))
  }

  function Run(es: seq<Event>): Disk {
    if es == [] then EMPTY else After(Run(es[..|es| - 1]), es[|es| - 1])
  }

  predicate Completes(d: Disk, e: Event) {
    e.writes >= |Plan(d, e.op)|
  }

  // ---------------------------------------------------------------------------------------
  // The three calls, cut short after any number of writes
  // ---------------------------------------------------------------------------------------

  /** The pointers and records once a stage was cut after `n` writes; the other files apart. */
  function StageCutAt(d: Disk, id: string, n: nat): Disk {
    var p := NewPointer(id);
    Disk(if n >= 2 then Without(d.records, p.path) + [p] else d.records,
         if n >= 4 then Some(p) else d.active,
         if n >= 6 && d.active.Some? then d.active else d.previous,
         {}, [])
  }

  /** Records and pointers alone. */
  function Bare(d: Disk): Disk {
    d.(partials := {}, journal := [])
  }

  lemma StageCut(d: Disk, id: string, n: nat)
    ensures Bare(After(d, Event(Stage(id), n))) == StageCutAt(d, id, n)
  {
    var p := NewPointer(id);
    CutConcat(d, StageHead(d, id), StageTail(d.active, id), n);
    StageHeadCut(d, id, n);
    var mid := DoAll(d, StageHead(d, id));
    StageHeadCut(d, id, 4);
    assert Prefix(StageHead(d, id), 4) == StageHead(d, id);
    if n >= 4 { StageTailCut(mid, d.active, id, n - 4); }
  }

  lemma StageHeadCut(d: Disk, id: string, n: nat)
    ensures Bare(DoAll(d, Prefix(StageHead(d, id), n))) == StageCutAt(d, id, if n < 4 then n else 4)
  {
    var p := NewPointer(id);
    CutConcat(d, RecordWrite(p), ActiveWrite(p), n);
    CutPair(d, Begin(p.path), PutRecord(p), n);
    var mid := DoAll(d, RecordWrite(p));
    CutPair(d, Begin(p.path), PutRecord(p), 2);
    if n >= 2 { CutPair(mid, Begin(ACTIVE_FILE), PutActive(p), n - 2); }
  }

  lemma StageTailCut(d: Disk, former: Option<Pointer>, id: string, n: nat)
    ensures Bare(DoAll(d, Prefix(StageTail(former, id), n))) ==
              if n >= 2 && former.Some? then Bare(d).(previous := former) else Bare(d)
  {
    var last := [Append(Activated(id, Id(former)))];
    if former.Some? {
      CutConcat(d, PreviousWrite(former.value), last, n);
      CutPair(d, Begin(PREVIOUS_FILE), PutPrevious(former.value), n);
      CutPair(d, Begin(PREVIOUS_FILE), PutPrevious(former.value), 2);
      if n >= 2 { CutSingle(DoAll(d, PreviousWrite(former.value)), last[0], n - 2); }
    } else {
      assert StageTail(former, id) == last;
      CutSingle(d, last[0], n);
    }
  }

  lemma RollbackCut(d: Disk, n: nat)
    requires !Refused(d, Rollback)
    ensures Bare(After(d, Event(Rollback, n))) ==
              Bare(d).(active := if n >= 2 then d.previous else d.active,
                       previous := if n >= 4 then d.active else d.previous)
  {
    var head, last := PreviousWrite(d.active.value), [Append(RolledBack(d.previous.value.id, d.active.value.id))];
    CutConcat(d, ActiveWrite(d.previous.value), head + last, n);
    CutPair(d, Begin(ACTIVE_FILE), PutActive(d.previous.value), n);
    CutPair(d, Begin(ACTIVE_FILE), PutActive(d.previous.value), 2);
    var mid := DoAll(d, ActiveWrite(d.previous.value));
    if n >= 2 {
      CutConcat(mid, head, last, n - 2);
      CutPair(mid, Begin(PREVIOUS_FILE), PutPrevious(d.active.value), n - 2);
      CutPair(mid, Begin(PREVIOUS_FILE), PutPrevious(d.active.value), 2);
      if n >= 4 { CutSingle(DoAll(mid, head), last[0], n - 4); }
    }
  }

  lemma {:induction false} UnlinksCut(d: Disk, paths: seq<string>, n: nat)
    ensures DoAll(d, Prefix(Unlinks(paths), n)) == d.(partials := d.partials - Elements(Prefix(paths, n)))
    decreases |paths|
  {
    var ws := Unlinks(paths);
    if paths == [] || n == 0 {
      assert Prefix(ws, n) == [] && Prefix(paths, n) == [];
      assert d.partials - Elements([]) == d.partials;
    } else {
      var next, rest := Do(d, ws[0]), paths[1..];
      assert ws[1..] == Unlinks(rest) && Prefix(ws, n)[1..] == Prefix(ws[1..], n - 1);
      UnlinksCut(next, rest, n - 1);
      ElementsOfPrefix(paths, n);
      assert next.partials - Elements(Prefix(rest, n - 1)) == d.partials - Elements(Prefix(paths, n));
    }
  }

  lemma ElementsOfPrefix(paths: seq<string>, n: nat)
    requires paths != [] && n > 0
    ensures Elements(Prefix(paths, n)) == {paths[0]} + Elements(Prefix(paths[1..], n - 1))
  {
    assert Prefix(paths, n) == [paths[0]] + Prefix(paths[1..], n - 1);
  }

  function Elements(s: seq<string>): set<string> {
    set x | x in s
  }

  /** What a recover that is not cut short leaves. */
  function RecoverEffect(d: Disk): Disk {
    if Refused(d, Recover) then d.(partials := {}) else
      Disk(d.records, RecoveredActive(d), d.previous, {},
           d.journal + if (NeedsReplacement(d) && d.records != []) || d.partials != {}
                       then [Appended(d)] else [])
  }

  function Appended(d: Disk): Entry {
    Recovered(Id(RecoveredActive(d)), Sorted(d.partials))
  }

  lemma RecoverHeadCut(d: Disk, n: nat)
    ensures Bare(DoAll(d, Prefix(Unlinks(Sorted(d.partials)), n))) == Bare(d)
    ensures DoAll(d, Unlinks(Sorted(d.partials))) == d.(partials := {})
  {
    var paths := Sorted(d.partials);
    UnlinksCut(d, paths, n);
    UnlinksCut(d, paths, |paths|);
    assert Prefix(paths, |paths|) == paths && Prefix(Unlinks(paths), |paths|) == Unlinks(paths);
    assert d.partials - Elements(paths) == {};
  }

  lemma RecoverCut(d: Disk, n: nat)
    ensures var r := After(d, Event(Recover, n));
      Bare(r) == Bare(d).(
        active := if n >= |d.partials| + 2 && !Refused(d, Recover) then RecoveredActive(d) else d.active)
    ensures Completes(d, Event(Recover, n)) ==> After(d, Event(Recover, n)) == RecoverEffect(d)
  {
    var head, tail := Unlinks(Sorted(d.partials)), RecoverTail(d);
    assert Plan(d, Recover) == head + tail && |head| == |d.partials|;
    CutConcat(d, head, tail, n);
    RecoverHeadCut(d, n);
    if n >= |head| { RecoverTailCut(d, d.(partials := {}), n - |head|); }
  }

  lemma ReplaceCut(clean: Disk, p: Pointer, e: Entry, n: nat)
    requires clean.partials == {}
    ensures var r := DoAll(clean, Prefix(ActiveWrite(p) + [Append(e)], n));
      && Bare(r) == Bare(clean).(active := if n >= 2 then Some(p) else clean.active)
      && (n >= 3 ==> r == clean.(active := Some(p), journal := clean.journal + [e]))
  {
    CutConcat(clean, ActiveWrite(p), [Append(e)], n);
    CutPair(clean, Begin(ACTIVE_FILE), PutActive(p), n);
    CutPair(clean, Begin(ACTIVE_FILE), PutActive(p), 2);
    var mid := DoAll(clean, ActiveWrite(p));
    assert mid == clean.(active := Some(p)) by { assert {ACTIVE_FILE} - {ACTIVE_FILE} == {}; }
    if n >= 2 { CutSingle(mid, Append(e), n - 2); }
  }

  lemma RecoverTailCut(d: Disk, clean: Disk, n: nat)
    requires clean == d.(partials := {})
    ensures Bare(DoAll(clean, Prefix(RecoverTail(d), n))) ==
              Bare(d).(active := if n >= 2 && !Refused(d, Recover) then RecoveredActive(d) else d.active)
    ensures n >= |RecoverTail(d)| ==> DoAll(clean, Prefix(RecoverTail(d), n)) == RecoverEffect(d)
  {
    assert Prefix<Write>([], n) == [] && DoAll(clean, []) == clean;
    hide Prefix, DoAll, ActiveWrite, Sorted;
    var target := RecoveredActive(d);
    var recovered := NeedsReplacement(d) && target.Some?;
    if recovered {
      assert RecoverTail(d) == ActiveWrite(target.value) + [Append(Appended(d))];
      ReplaceCut(clean, target.value, Appended(d), n);
    } else if !(target.None? && d.active.Some?) && d.partials != {} {
      assert RecoverTail(d) == [Append(Appended(d))];
      CutSingle(clean, Append(Appended(d)), n);
    } else {
      assert RecoverTail(d) == [];
    }
  }

  // ---------------------------------------------------------------------------------------
  // What a cut call leaves of partial files, and a whole one in the journal
  // ---------------------------------------------------------------------------------------

  /** The write replaces this file. */
  predicate Puts(w: Write, file: string) {
    match w
    case PutRecord(r) => r.path == file
    case PutActive(_) => file == ACTIVE_FILE
    case PutPrevious(_) => file == PREVIOUS_FILE
    case _ => false
  }

  /** Each file is begun and replaced in turn; then the entry is appended. */
  predicate ReplacesInTurn(ws: seq<Write>, files: seq<string>, e: Entry)
    decreases |files|
  {
    if files == [] then ws == [Append(e)]
    else |ws| >= 2 && ws[0] == Begin(files[0]) && Puts(ws[1], files[0]) && ReplacesInTurn(ws[2..], files[1..], e)
  }

  /** Replacing files in turn, cut after `n` steps: the one begun is partial, and those finished are not. */
  function PartialAt(partials: set<string>, files: seq<string>, n: nat): set<string>
    decreases |files|
  {
    if files == [] || n == 0 then partials
    else if n == 1 then partials + {files[0]}
    else PartialAt(partials - {files[0]}, files[1..], n - 2)
  }

  lemma {:induction false} CutInTurn(d: Disk, ws: seq<Write>, files: seq<string>, e: Entry, n: nat)
    requires ReplacesInTurn(ws, files, e)
    ensures var r := DoAll(d, Prefix(ws, n));
      && r.partials == PartialAt(d.partials, files, n)
      && r.journal == d.journal + if n > 2 * |files| then [e] else []
    decreases |files|
  {
    if files == [] {
      CutSingle(d, Append(e), n);
    } else if n < 2 {
      assert n == 1 ==> Prefix(ws, n)[1..] == [];
    } else {
      var next := Do(Do(d, ws[0]), ws[1]);
      var cut := Prefix(ws, n);
      assert cut[1..][1..] == Prefix(ws[2..], n - 2) && cut[1..][0] == ws[1];
      assert next.partials == d.partials - {files[0]};
      CutInTurn(next, ws[2..], files[1..], e, n - 2);
    }
  }

  /**
   At every crash point of a stage or an accepted rollback: which file is partial, and that the journal gains
   its entry, with the deployment that was active before, exactly when nothing is cut.
   */
  lemma CutLeavesOnePartial(d: Disk, e: Event)
    requires e.op.Stage? || (e.op.Rollback? && !Refused(d, Rollback))
    ensures var files :=
        if e.op.Rollback? then [ACTIVE_FILE, PREVIOUS_FILE]
        else [PathOf(e.op.id), ACTIVE_FILE] + if d.active.Some? then [PREVIOUS_FILE] else [];
      var entry :=
        if e.op.Rollback? then RolledBack(d.previous.value.id, d.active.value.id)
        else Activated(e.op.id, if d.active.Some? then Some(d.active.value.id) else None);
      && After(d, e).partials == PartialAt(d.partials, files, e.writes)
      && After(d, e).journal == d.journal + if e.writes > 2 * |files| then [entry] else []
  {
    var ws := Plan(d, e.op);
    if e.op.Rollback? {
      var entry := RolledBack(d.previous.value.id, d.active.value.id);
      assert ws[2..] == PreviousWrite(d.active.value) + [Append(entry)] && ws[2..][2..] == [Append(entry)];
      assert [ACTIVE_FILE, PREVIOUS_FILE][1..] == [PREVIOUS_FILE] && [PREVIOUS_FILE][1..] == [];
      CutInTurn(d, ws, [ACTIVE_FILE, PREVIOUS_FILE], entry, e.writes);
    } else {
      StageInTurn(d, e.op.id, e.writes);
    }
  }

  lemma StageInTurn(d: Disk, id: string, n: nat)
    ensures var files := [PathOf(id), ACTIVE_FILE] + if d.active.Some? then [PREVIOUS_FILE] else [];
      var entry := Activated(id, if d.active.Some? then Some(d.active.value.id) else None);
      && After(d, Event(Stage(id), n)).partials == PartialAt(d.partials, files, n)
      && After(d, Event(Stage(id), n)).journal == d.journal + if n > 2 * |files| then [entry] else []
  {
    var ws, p := Plan(d, Stage(id)), NewPointer(id);
    var tail := if d.active.Some? then [PREVIOUS_FILE] else [];
    var files := [PathOf(id), ACTIVE_FILE] + tail;
    var entry := Activated(id, if d.active.Some? then Some(d.active.value.id) else None);
    assert ws[2..] == ActiveWrite(p) + StageTail(d.active, id) && ws[2..][2..] == StageTail(d.active, id);
    assert files[1..] == [ACTIVE_FILE] + tail && files[1..][1..] == tail;
    if d.active.Some? {
      assert StageTail(d.active, id)[2..] == [Append(entry)] && [PREVIOUS_FILE][1..] == [];
    } else {
      assert StageTail(d.active, id) == [Append(entry)];
    }
    assert ReplacesInTurn(StageTail(d.active, id), tail, entry);
    CutInTurn(d, ws, files, entry, n);
  }

  // ---------------------------------------------------------------------------------------
  // Every run, crashes and losses included
  // ---------------------------------------------------------------------------------------

  /** Records and pointers carry the path of their id. */
  predicate Sound(d: Disk) {
    && (forall p :: p in d.records ==> p.path == PathOf(p.id))
    && (d.active.Some? ==> d.active.value.path == PathOf(d.active.value.id))
    && (d.previous.Some? ==> d.previous.value.path == PathOf(d.previous.value.id))
  }

  lemma EventEffects(d: Disk, e: Event)
    ensures e.op.LoseActive? ==> After(d, e) == if e.writes == 0 then d else d.(active := None)
    ensures e.op.LosePrevious? ==> After(d, e) == if e.writes == 0 then d else d.(previous := None)
    ensures e.op.LoseRecord? ==>
              After(d, e) == if e.writes == 0 then d else d.(records := Without(d.records, e.op.path))
    ensures Refused(d, e.op) && e.op.Rollback? ==> After(d, e) == d
  {
    match e.op {
      case LoseActive => CutSingle(d, DropActive, e.writes);
      case LosePrevious => CutSingle(d, DropPrevious, e.writes);
      case LoseRecord(path) => CutSingle(d, DropRecord(path), e.writes);
      case _ =>
    }
  }

  lemma EventKeepsSound(d: Disk, e: Event)
    requires Sound(d)
    ensures Sound(After(d, e))
  {
    EventEffects(d, e);
    match e.op {
      case Stage(id) => StageCut(d, id, e.writes);
      case Rollback => if !Refused(d, Rollback) { RollbackCut(d, e.writes); }
      case Recover => RecoverCut(d, e.writes);
      case _ =>
    }
    SoundOfBare(After(d, e));
  }

  lemma SoundOfBare(d: Disk)
    ensures Sound(d) == Sound(Bare(d)) && BothLinked(d) == BothLinked(Bare(d))
  {
  }

  /** At every crash point of stage, rollback and recover, each pointer names an existing record. */
  lemma EventKeepsLinks(d: Disk, e: Event)
    requires Sound(d) && BothLinked(d) && !e.op.LoseRecord?
    ensures BothLinked(After(d, e))
  {
    EventEffects(d, e);
    match e.op {
      case Stage(id) =>
        StageCut(d, id, e.writes);
        if d.active.Some? && d.active.value.path == PathOf(id) { PathOfInjective(d.active.value.id, id); }
        if d.previous.Some? && d.previous.value.path == PathOf(id) { PathOfInjective(d.previous.value.id, id); }
      case Rollback => if !Refused(d, Rollback) { RollbackCut(d, e.writes); }
      case Recover => RecoverCut(d, e.writes);
      case _ =>
    }
    SoundOfBare(After(d, e));
  }

  lemma {:induction false} RunsStayLinked(es: seq<Event>)
    ensures Sound(Run(es))
    ensures (forall e :: e in es ==> !e.op.LoseRecord?) ==> BothLinked(Run(es))
  {
    if es != [] {
      var init, last := es[..|es| - 1], es[|es| - 1];
      RunsStayLinked(init);
      EventKeepsSound(Run(init), last);
      if forall e :: e in es ==> !e.op.LoseRecord? {
        assert last in es && forall e :: e in init ==> e in es;
        EventKeepsLinks(Run(init), last);
      }
    }
  }

  /**
   Even after records were lost, a pointer never misleads: the file at its path, if there is one, is
   the record with its id.
   */
  lemma PointersNeverMislead(es: seq<Event>, p: Pointer)
    requires Named(Run(es), p)
    ensures IsRecordFile(Run(es), p.path) <==> p in Run(es).records
  {
    RunsStayLinked(es);
    var d := Run(es);
    if IsRecordFile(d, p.path) {
      var r :| r in d.records && r.path == p.path;
      PathOfInjective(r.id, p.id);
    }
  }

  // ---------------------------------------------------------------------------------------
  // Recover
  // ---------------------------------------------------------------------------------------

  /**
   Recover raises exactly when the active record is gone and no record is left; otherwise the active
   pointer names an existing record, the latest one if it had to be replaced, and a second recover
   writes nothing.
   */
  lemma RecoverRepairs(es: seq<Event>, n: nat)
    requires Completes(Run(es), Event(Recover, n))
    ensures var d := Run(es); var r := After(d, Event(Recover, n));
      && r.partials == {} && r.records == d.records && r.previous == d.previous
      && (Refused(d, Recover) <==> d.active.Some? && d.records == [])
      && (!Refused(d, Recover) ==>
            && Linked(r, r.active) && (r.active.None? <==> d.records == [])
            && (Linked(d, d.active) && d.active.Some? ==> r.active == d.active)
            && (!(Linked(d, d.active) && d.active.Some?) ==> r.active == LatestRecord(d))
            && Plan(r, Recover) == [] && !Refused(r, Recover))
  {
    var d := Run(es);
    RecoverCut(d, n);
    RunsStayLinked(es);
    if d.active.Some? { PointersNeverMislead(es, d.active.value); }
    if !Refused(d, Recover) { RecoveredNeedsNothing(d); }
  }

  lemma RecoveredNeedsNothing(d: Disk)
    requires !Refused(d, Recover)
    ensures var r := RecoverEffect(d); Plan(r, Recover) == [] && !Refused(r, Recover)
  {
    var r := RecoverEffect(d);
    if r.active.Some? && NeedsReplacement(d) {
      assert r.active.value in r.records;
    }
    if r.active.Some? && !NeedsReplacement(d) {
      var p :| p in d.records && p.path == d.active.value.path;
      assert p in r.records;
    }
    assert Sorted(r.partials) == [] && Unlinks([]) == [];
  }

  /** A recover cut short and run again ends with the pointers of one that was not. */
  lemma CutRecoverCanBeRepeated(d: Disk, n: nat, m: nat, k: nat)
    requires Completes(d, Event(Recover, m)) && Completes(After(d, Event(Recover, n)), Event(Recover, k))
    ensures Bare(After(After(d, Event(Recover, n)), Event(Recover, k))) == Bare(After(d, Event(Recover, m)))
  {
    var cut := After(d, Event(Recover, n));
    RecoverCut(d, n);
    RecoverCut(d, m);
    RecoverCut(cut, k);
    assert cut.records == d.records;
    if cut.active != d.active {
      assert cut.active == LatestRecord(d) && cut.active.value in cut.records;
    } else {
      assert IsRecordFile(cut, "") == IsRecordFile(d, "");
      SameRecordsSameNeed(d, cut);
    }
  }

  lemma SameRecordsSameNeed(d: Disk, c: Disk)
    requires d.records == c.records && d.active == c.active
    ensures NeedsReplacement(d) == NeedsReplacement(c) && RecoveredActive(d) == RecoveredActive(c)
    ensures Refused(d, Recover) == Refused(c, Recover)
  {
    if d.active.Some? {
      assert IsRecordFile(d, d.active.value.path) == IsRecordFile(c, d.active.value.path);
    }
  }

  // ---------------------------------------------------------------------------------------
  // Stage and rollback
  // ---------------------------------------------------------------------------------------

  /**
   After a completed stage over an active deployment, rollback is accepted exactly when the former
   record is there, and then it puts the former deployment back and remembers the staged one.
   */
  lemma RollbackUndoesStage(es: seq<Event>, id: string, n: nat, m: nat)
    requires Run(es).active.Some? && Completes(Run(es), Event(Stage(id), n))
    requires Completes(After(Run(es), Event(Stage(id), n)), Event(Rollback, m))
    ensures var d := Run(es); var s := After(d, Event(Stage(id), n)); var r := After(s, Event(Rollback, m));
      && s.active == Some(NewPointer(id)) && s.previous == d.active
      && (Refused(s, Rollback) <==> d.active.value !in d.records && d.active != Some(NewPointer(id)))
      && (!Refused(s, Rollback) ==>
            r.active == d.active && r.previous == Some(NewPointer(id)) && r.records == s.records)
  {
    var d := Run(es);
    var s := After(d, Event(Stage(id), n));
    StageCut(d, id, n);
    assert s == Run(es + [Event(Stage(id), n)]) by {
      assert (es + [Event(Stage(id), n)])[..|es|] == es;
    }
    PointersNeverMislead(es + [Event(Stage(id), n)], d.active.value);
    RunsStayLinked(es);
    if d.active.value.path == PathOf(id) { PathOfInjective(d.active.value.id, id); }
    if !Refused(s, Rollback) { RollbackCut(s, m); }
  }

  lemma TwoRollbacksRestore(d: Disk, n: nat, m: nat)
    requires !Refused(d, Rollback) && Completes(d, Event(Rollback, n))
    requires var r := After(d, Event(Rollback, n)); !Refused(r, Rollback) && Completes(r, Event(Rollback, m))
    ensures Bare(After(After(d, Event(Rollback, n)), Event(Rollback, m))) == Bare(d)
  {
    RollbackCut(d, n);
    RollbackCut(After(d, Event(Rollback, n)), m);
  }

  /**
   Where the formerly active deployment can be lost: a stage writes the active pointer before the
   previous one, so no pointer names it between those two writes, unless one named it anyway.
   */
  lemma StageDropsFormerBetweenWrites(d: Disk, id: string, n: nat)
    requires d.active.Some?
    ensures Named(After(d, Event(Stage(id), n)), d.active.value) <==>
              n < 4 || n >= 6 || d.previous == d.active || d.active.value == NewPointer(id)
  {
    StageCut(d, id, n);
    assert Named(After(d, Event(Stage(id), n)), d.active.value) == Named(StageCutAt(d, id, n), d.active.value);
  }

  lemma RollbackDropsFormerBetweenWrites(d: Disk, n: nat)
    requires !Refused(d, Rollback)
    ensures Named(After(d, Event(Rollback, n)), d.active.value) <==> n < 2 || n >= 4 || d.previous == d.active
  {
    RollbackCut(d, n);
  }

  /** A stage cut short and then recovered: the write of `active.json` decides, or the record if nothing was active. */
  lemma StageIsDecidedByItsPointer(es: seq<Event>, id: string, n: nat, m: nat)
    requires Linked(Run(es), Run(es).active)
    requires Completes(After(Run(es), Event(Stage(id), n)), Event(Recover, m))
    ensures var d := Run(es); var s := After(d, Event(Stage(id), n)); var r := After(s, Event(Recover, m));
      && !Refused(s, Recover)
      && r.active == if n >= 4 || (n >= 2 && d.active.None?) then Some(NewPointer(id))
                     else if d.active.Some? then d.active else LatestRecord(d)
  {
    var d := Run(es);
    var e := Event(Stage(id), n);
    var s := After(d, e);
    StageCut(d, id, n);
    assert Run(es + [e]) == s by { assert (es + [e])[..|es|] == es; }
    RunsStayLinked(es);
    if d.active.Some? && d.active.value.path == PathOf(id) { PathOfInjective(d.active.value.id, id); }
    assert Linked(s, s.active);
    RecoverRepairs(es + [e], m);
  }

  /** Repeating a stage that was cut short ends like one that was not, exactly when its pointer was not yet written. */
  lemma RepeatedStageMatchesIff(d: Disk, id: string, n: nat, m: nat, k: nat)
    requires Completes(d, Event(Stage(id), m)) && Completes(After(d, Event(Stage(id), n)), Event(Stage(id), k))
    ensures var whole := After(d, Event(Stage(id), m));
      var again := After(After(d, Event(Stage(id), n)), Event(Stage(id), k));
      (again.active == whole.active && again.previous == whole.previous) <==>
      (n < 4 || whole.previous == Some(NewPointer(id)))
  {
    StageCut(d, id, m);
    StageCut(d, id, n);
    StageCut(After(d, Event(Stage(id), n)), id, k);
  }

  // ---------------------------------------------------------------------------------------
  // The calls
  // ---------------------------------------------------------------------------------------

  /** `record_deployment`, past the validation of the bundle. */
  method RecordDeployment(store: Store, id: string) returns (alive: bool)
    modifies store
    ensures store.Files() == After(old(store.Files()), Event(Stage(id), old(store.budget)))
    ensures alive <==> Completes(old(store.Files()), Event(Stage(id), old(store.budget)))
  {
    ghost var d, n := store.Files(), store.budget;
    var currentActive := store.active;
    var record := NewPointer(id);
    CutConcat(d, StageHead(d, id), StageTail(d.active, id), n);
    CutConcat(d, RecordWrite(record), ActiveWrite(record), n);
    WholePrefix(RecordWrite(record), n);
    alive := store.WriteJsonAtomic(Begin(record.path), PutRecord(record));
    if !alive { return; }
    DoAllConcat(d, RecordWrite(record), ActiveWrite(record));
    WholePrefix(ActiveWrite(record), store.budget);
    alive := store.WriteJsonAtomic(Begin(ACTIVE_FILE), PutActive(record));
    if !alive { return; }
    alive := FinishStage(store, currentActive, id);
  }

  /** The previous pointer, if something was active, and the journal line. */
  method FinishStage(store: Store, former: Option<Pointer>, id: string) returns (alive: bool)
    modifies store
    ensures store.Files() == DoAll(old(store.Files()), Prefix(StageTail(former, id), old(store.budget)))
    ensures alive <==> old(store.budget) >= |StageTail(former, id)|
  {
    ghost var d, n := store.Files(), store.budget;
    ghost var last := [Append(Activated(id, Id(former)))];
    alive := true;
    if former.Some? {
      CutConcat(d, PreviousWrite(former.value), last, n);
      WholePrefix(PreviousWrite(former.value), n);
      alive := store.WriteJsonAtomic(Begin(PREVIOUS_FILE), PutPrevious(former.value));
      if !alive { return; }
    } else {
      assert StageTail(former, id) == last;
    }
    alive := store.Put(Append(Activated(id, Id(former))));
  }

  datatype Outcome = Done | Raised | Crashed

  /** `rollback` */
  method RollBack(store: Store) returns (r: Outcome)
    modifies store
    ensures store.Files() == After(old(store.Files()), Event(Rollback, old(store.budget)))
    ensures r.Raised? <==> Refused(old(store.Files()), Rollback)
    ensures r.Done? <==>
      !Refused(old(store.Files()), Rollback) && Completes(old(store.Files()), Event(Rollback, old(store.budget)))
  {
    ghost var d, n := store.Files(), store.budget;
    if store.active.None? || store.previous.None? || !IsRecordFile(store.Files(), store.previous.value.path) {
      return Raised;
    }
    var a, p := store.active.value, store.previous.value;
    ghost var last := [Append(RolledBack(p.id, a.id))];
    CutConcat(d, ActiveWrite(p), PreviousWrite(a) + last, n);
    WholePrefix(ActiveWrite(p), n);
    var alive := store.WriteJsonAtomic(Begin(ACTIVE_FILE), PutActive(p));
    if !alive { return Crashed; }
    CutConcat(store.Files(), PreviousWrite(a), last, store.budget);
    WholePrefix(PreviousWrite(a), store.budget);
    alive := store.WriteJsonAtomic(Begin(PREVIOUS_FILE), PutPrevious(a));
    if !alive { return Crashed; }
    alive := store.Put(Append(RolledBack(p.id, a.id)));
    r := if alive then Done else Crashed;
  }

  /** `_remove_partial_files` */
  method RemovePartialFiles(store: Store) returns (removed: seq<string>, alive: bool)
    modifies store
    ensures store.Files() == DoAll(old(store.Files()), Prefix(Unlinks(Sorted(old(store.partials))), old(store.budget)))
    ensures removed == Sorted(old(store.partials))
    ensures alive <==> old(store.budget) >= |removed|
    ensures store.budget == old(store.Left(|Sorted(store.partials)|))
  {
    removed := Sorted(store.partials);
    alive := UnlinkAll(store, removed);
  }

  method UnlinkAll(store: Store, paths: seq<string>) returns (alive: bool)
    modifies store
    ensures store.Files() == DoAll(old(store.Files()), Prefix(Unlinks(paths), old(store.budget)))
    ensures alive <==> old(store.budget) >= |paths|
    ensures store.budget == old(store.Left(|paths|))
  {
    ghost var d, n, ws := store.Files(), store.budget, Unlinks(paths);
    WholePrefix(ws, n);
    alive := true;
    for i := 0 to |paths|
      invariant alive && store.budget + i == n
      invariant store.Files() == DoAll(d, ws[..i])
    {
      NextUnlink(d, ws, i);
      CutSingle(store.Files(), ws[i], store.budget);
      alive := store.Put(Unlink(paths[i]));
      if !alive { return; }
    }
    assert ws[..|paths|] == ws;
  }

  lemma NextUnlink(d: Disk, ws: seq<Write>, i: nat)
    requires i < |ws|
    ensures DoAll(d, ws[..i + 1]) == Do(DoAll(d, ws[..i]), ws[i])
  {
    assert ws[..i + 1] == ws[..i] + [ws[i]];
    DoAllConcat(d, ws[..i], [ws[i]]);
    assert [ws[i]][1..] == [];
  }

  /** A recover is its unlinks and then its tail, which looks at files that differ in the temporary ones only. */
  lemma RecoverInTwo(d: Disk, n: nat)
    ensures var head, clean, after := Unlinks(Sorted(d.partials)), d.(partials := {}), After(d, Event(Recover, n));
      && |Sorted(d.partials)| == |d.partials|
      && (n < |d.partials| ==> after == DoAll(d, Prefix(head, n)))
      && (n >= |d.partials| ==>
            && DoAll(d, Prefix(head, n)) == clean
            && after == DoAll(clean, Prefix(RecoverTail(d), n - |d.partials|)))
      && (Completes(d, Event(Recover, n)) <==> n >= |d.partials| + |RecoverTail(d)|)
  {
    var head, tail := Unlinks(Sorted(d.partials)), RecoverTail(d);
    assert Plan(d, Recover) == head + tail;
    CutConcat(d, head, tail, n);
    RecoverHeadCut(d, n);
    WholePrefix(head, n);
    hide DoAll, RecoverTail, Unlinks, Bare;
  }

  lemma RefusedTailIsEmpty(d: Disk, f: Disk, k: nat)
    requires Refused(d, Recover)
    ensures DoAll(f, Prefix(RecoverTail(d), k)) == f && RecoverTail(d) == []
  {
  }

  lemma CleanNeedsTheSame(d: Disk)
    ensures NeedsReplacement(d.(partials := {})) == NeedsReplacement(d)
  {
    if d.active.Some? {
      assert IsRecordFile(d.(partials := {}), d.active.value.path) == IsRecordFile(d, d.active.value.path);
    }
  }

  /** `recover` */
  method RecoverFiles(store: Store) returns (r: Outcome)
    modifies store
    ensures store.Files() == After(old(store.Files()), Event(Recover, old(store.budget)))
    ensures r.Raised? <==> Refused(old(store.Files()), Recover) && old(store.budget) >= |old(store.partials)|
    ensures r.Done? <==>
      !Refused(old(store.Files()), Recover) && Completes(old(store.Files()), Event(Recover, old(store.budget)))
  {
    hide DoAll, Plan, After, Completes, RecoverTail, Unlinks, Prefix;
    ghost var d, n := store.Files(), store.budget;
    RecoverInTwo(d, n);
    CleanNeedsTheSame(d);
    var removed, alive := RemovePartialFiles(store);
    if !alive { return Crashed; }
    var active, recovered := store.active, false;
    var replacement := LatestRecord(store.Files());
    if active.Some? && !IsRecordFile(store.Files(), active.value.path) {
      if replacement.None? {
        RefusedTailIsEmpty(d, store.Files(), store.budget);
        return Raised;
      }
      active, recovered := replacement, true;
    } else if active.None? && replacement.Some? {
      active, recovered := replacement, true;
    }
    alive := FinishRecover(store, d, active, recovered, removed);
    r := if alive then Done else Crashed;
  }

  /** The replacement pointer, if one was chosen, and the journal line, if anything was done. */
  method FinishRecover(store: Store, ghost d: Disk, active: Option<Pointer>, recovered: bool, removed: seq<string>)
    returns (alive: bool)
    requires removed == Sorted(d.partials) && active == RecoveredActive(d)
    requires recovered <==> NeedsReplacement(d) && active.Some?
    requires !Refused(d, Recover)
    modifies store
    ensures store.Files() == DoAll(old(store.Files()), Prefix(RecoverTail(d), old(store.budget)))
    ensures alive <==> old(store.budget) >= |RecoverTail(d)|
  {
    ghost var f, n := store.Files(), store.budget;
    ghost var entry := Append(Appended(d));
    alive := true;
    if recovered {
      assert RecoverTail(d) == ActiveWrite(active.value) + [entry];
      CutConcat(f, ActiveWrite(active.value), [entry], n);
      WholePrefix(ActiveWrite(active.value), n);
      alive := store.WriteJsonAtomic(Begin(ACTIVE_FILE), PutActive(active.value));
      if !alive { return; }
    }
    if recovered || removed != [] {
      if !recovered { assert RecoverTail(d) == [entry]; }
      alive := store.Put(Append(Recovered(Id(active), removed)));
    } else {
      assert RecoverTail(d) == [] == Prefix(RecoverTail(d), n);
    }
  }
}
