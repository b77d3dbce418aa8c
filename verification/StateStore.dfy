/**
 The shared-runtime state store (src/mcp_broker/distributed_state.py): fencing tokens, optimistic
 revisions, rollback, and recovery by journal replay.

 Every call is a guard followed by a list of file writes; a crash keeps a prefix of that list.
 Calls are serial. Times are integers, lock tokens are the numbers the source formats.
 */
module StateStore {
  import opened Prelude

  type Payload = map<string, string>

  datatype Record = Record(revision: int, state: Payload)
  datatype Lock = Lock(owner: string, token: nat, acquiredAt: int, expiresAt: int)
  /** The two fields of the caller's lock that a mutation is checked against. */
  datatype Claim = Claim(owner: string, token: nat)

  datatype Entry =
    | Applied(record: Record, was: Option<Record>)
    | RolledBack(activeRecord: Record, previousRecord: Record)

  /** The files under `shared-runtime`. */
  datatype Disk = Disk(
    lock: Option<Lock>, counter: Option<nat>,
    active: Option<Record>, previous: Option<Record>, journal: seq<Entry>)

  datatype Op =
    | Acquire(owner: string, now: int, ttl: int)
    | Apply(claim: Claim, state: Payload, expected: Option<int>)
    | Rollback(claim: Claim)
    | Recover
    | LoseActive  // the environment deletes the active file

  datatype Write =
    | PutCounter(value: nat)
    | PutLock(lock: Lock)
    | PutActive(record: Record)
    | PutPrevious(record: Record)
    | Append(entry: Entry)
    | DropActive

  const EMPTY := Disk(None, None, None, None, [])

  function Do(d: Disk, w: Write): Disk {
    match w
    case PutCounter(n) => d.(counter := Some(n))
    case PutLock(l) => d.(lock := Some(l))
    case PutActive(r) => d.(active := Some(r))
    case PutPrevious(r) => d.(previous := Some(r))
    case Append(e) => d.(journal := d.journal + [e])
    case DropActive => d.(active := None)
  }

  function DoAll(d: Disk, ws: seq<Write>): Disk
    decreases |ws|
  {
    if ws == [] then d else DoAll(Do(d, ws[0]), ws[1..])
  }

  // ---------------------------------------------------------------------------------------
  // What the source computes from the files
  // ---------------------------------------------------------------------------------------

  /** One turn of the loop in `_replay_journal`, on its variables `active` and `previous`. */
  function ReplayStep(at: (Option<Record>, Option<Record>), e: Entry): (Option<Record>, Option<Record>) {
    if e.Applied? then (Some(e.record), at.0) else (Some(e.activeRecord), Some(e.previousRecord))
  }

  /** `_replay_journal`: the active and the previous record after all entries. */
  function Replay(j: seq<Entry>): (Option<Record>, Option<Record>) {
    if j == [] then (None, None) else ReplayStep(Replay(j[..|j| - 1]), j[|j| - 1])
  }

  function Max(a: int, b: int): int { if a < b then b else a }

  function LatestStep(latest: int, e: Entry): int {
    if e.Applied? then Max(latest, e.record.revision)
    else Max(Max(latest, e.activeRecord.revision), e.previousRecord.revision)
  }

  /** The greatest revision the journal names, or 0. */
  function Latest(j: seq<Entry>): (n: int)
    ensures 0 <= n
  {
    if j == [] then 0 else LatestStep(Latest(j[..|j| - 1]), j[|j| - 1])
  }

  /** `_next_revision` */
  function NextRevision(d: Disk): int {
    if d.active.Some? then d.active.value.revision + 1 else Latest(d.journal) + 1
  }

  /** `_require_matching_lock` */
  predicate Holds(d: Disk, c: Claim) {
    d.lock.Some? && d.lock.value.owner == c.owner && d.lock.value.token == c.token
  }

  function NextToken(d: Disk): nat {
    if d.counter.Some? then d.counter.value + 1 else 1
  }

  function NewLock(d: Disk, op: Op): Lock
    requires op.Acquire?
  {
    Lock(op.owner, NextToken(d), op.now, op.now + op.ttl)
  }

  function Revision(r: Option<Record>): Option<int> {
    if r.Some? then Some(r.value.revision) else None
  }

  /** The writes of a call in order, or `None` when the call is refused before any of them. */
  function Plan(d: Disk, op: Op): Option<seq<Write>> {
    match op
    case Acquire(owner, now, ttl) =>
      if ttl <= 0 || (d.lock.Some? && d.lock.value.expiresAt > now) then None else
        Some([PutCounter(NextToken(d)), PutLock(NewLock(d, op))])
    case Apply(claim, state, expected) =>
      if !Holds(d, claim) || Revision(d.active) != expected then None else
        var record := Record(NextRevision(d), state);
        Some((if d.active.Some? then [PutPrevious(d.active.value)] else []) +
             [PutActive(record), Append(Applied(record, d.active))])
    case Rollback(claim) =>
      if !Holds(d, claim) || d.active.None? || d.previous.None? then None else
        Some([PutActive(d.previous.value), PutPrevious(d.active.value),
              Append(RolledBack(d.previous.value, d.active.value))])
    case Recover =>
      if d.active.Some? then Some([]) else
        var (active, previous) := Replay(d.journal);
        if active.None? then None else
          Some([PutActive(active.value)] + if previous.Some? then [PutPrevious(previous.value)] else [])
    case LoseActive => Some([DropActive])
  }

  // ---------------------------------------------------------------------------------------
  // Runs
  // ---------------------------------------------------------------------------------------

  /** A call that crashes after at most `writes` file writes. */
  datatype Event = Event(op: Op, writes: nat)

  /** The files together with every lock ever written. */
  datatype World = World(disk: Disk, issued: seq<Lock>)

  const START := World(EMPTY, [])

  function After(d: Disk, e: Event): Disk {
    match Plan(d, e.op) case None => d case Some(ws) => DoAll(d, Prefix(ws, e.writes))
  }

  function Step(w: World, e: Event): World {
    World(After(w.disk, e),
          if e.op.Acquire? && Plan(w.disk, e.op).Some? && e.writes >= 2
          then w.issued + [NewLock(w.disk, e.op)] else w.issued)
  }

  function Run(es: seq<Event>): World {
    if es == [] then START else Step(Run(es[..|es| - 1]), es[|es| - 1])
  }

  predicate Completes(d: Disk, e: Event) {
    Plan(d, e.op).Some? ==> e.writes >= |Plan(d, e.op).value|
  }

  /** No call of the run was cut short. */
  predicate CrashFree(es: seq<Event>) {
    es == [] || (CrashFree(es[..|es| - 1]) && Completes(Run(es[..|es| - 1]).disk, es[|es| - 1]))
  }

  /** No apply of the run went ahead while a journaled state was missing its active file. */
  predicate NoBlindApply(es: seq<Event>) {
    es == [] ||
    (NoBlindApply(es[..|es| - 1]) && !BlindApply(Run(es[..|es| - 1]).disk, es[|es| - 1].op))
  }

  predicate BlindApply(d: Disk, op: Op) {
    op.Apply? && Plan(d, op).Some? && d.active.None? && d.journal != []
  }

  predicate NoRollback(es: seq<Event>) {
    es == [] ||
    (NoRollback(es[..|es| - 1]) &&
     !(es[|es| - 1].op.Rollback? && Plan(Run(es[..|es| - 1]).disk, es[|es| - 1].op).Some?))
  }

  // ---------------------------------------------------------------------------------------
  // One call
  // ---------------------------------------------------------------------------------------

  ghost predicate ActiveAgrees(d: Disk) {
    d.active.Some? ==> d.active == Replay(d.journal).0
  }

  /** Both files say what the journal says, except that the active file may be missing. */
  ghost predicate FullyAgrees(d: Disk) {
    ActiveAgrees(d) && d.previous == Replay(d.journal).1
  }

  lemma ReplayAppend(j: seq<Entry>, e: Entry)
    ensures Replay(j + [e]) == ReplayStep(Replay(j), e) && Latest(j + [e]) == LatestStep(Latest(j), e)
  {
    assert (j + [e])[..|j|] == j;
  }

  /** The files after a call that was allowed and not cut short. */
  function Effect(d: Disk, op: Op): Disk
    requires Plan(d, op).Some?
  {
    match op
    case Acquire(_, _, _) => d.(counter := Some(NextToken(d)), lock := Some(NewLock(d, op)))
    case Apply(_, state, _) =>
      var r := Record(NextRevision(d), state);
      d.(active := Some(r), previous := if d.active.Some? then d.active else d.previous,
         journal := d.journal + [Applied(r, d.active)])
    case Rollback(_) =>
      d.(active := d.previous, previous := d.active,
         journal := d.journal + [RolledBack(d.previous.value, d.active.value)])
    case Recover =>
      if d.active.Some? then d else
        d.(active := Replay(d.journal).0,
           previous := if Replay(d.journal).1.Some? then Replay(d.journal).1 else d.previous)
    case LoseActive => d.(active := None)
  }

  lemma CompletedCall(d: Disk, e: Event)
    requires Plan(d, e.op).Some? && Completes(d, e)
    ensures After(d, e) == Effect(d, e.op)
  {
    var ws := Plan(d, e.op).value;
    assert Prefix(ws, e.writes) == ws;
    Unfold3(d, ws);
  }

  lemma Unfold3(d: Disk, ws: seq<Write>)
    requires |ws| <= 3
    ensures DoAll(d, ws) ==
      if |ws| == 0 then d else if |ws| == 1 then Do(d, ws[0])
      else if |ws| == 2 then Do(Do(d, ws[0]), ws[1]) else Do(Do(Do(d, ws[0]), ws[1]), ws[2])
  {
    if |ws| > 0 {
      var ws1 := ws[1..];
      assert DoAll(d, ws) == DoAll(Do(d, ws[0]), ws1);
      Unfold2(Do(d, ws[0]), ws1);
    }
  }

  lemma Unfold2(d: Disk, ws: seq<Write>)
    requires |ws| <= 2
    ensures DoAll(d, ws) == if |ws| == 0 then d else if |ws| == 1 then Do(d, ws[0]) else Do(Do(d, ws[0]), ws[1])
  {
    if |ws| > 0 {
      var d1, ws1 := Do(d, ws[0]), ws[1..];
      assert DoAll(d, ws) == DoAll(d1, ws1);
      if |ws| == 2 {
        assert ws1[0] == ws[1] && ws1[1..] == [];
        assert DoAll(d1, ws1) == DoAll(Do(d1, ws[1]), []);
      }
    }
  }

  /** From any files, even after crashes, a completed apply or rollback makes the active file and the journal agree. */
  lemma MutationRestoresAgreement(d: Disk, e: Event)
    requires (e.op.Apply? || e.op.Rollback?) && Plan(d, e.op).Some? && Completes(d, e)
    ensures var d' := After(d, e); d'.active.Some? && ActiveAgrees(d')
    ensures e.op.Rollback? ==> FullyAgrees(After(d, e))
  {
    CompletedCall(d, e);
    if e.op.Apply? {
      ReplayAppend(d.journal, Applied(Record(NextRevision(d), e.op.state), d.active));
    } else {
      ReplayAppend(d.journal, RolledBack(d.previous.value, d.active.value));
    }
  }

  /** Two rollbacks in a row restore both files, and the journal then replays to exactly them. */
  lemma TwoRollbacksRestore(d: Disk, claim: Claim)
    requires Plan(d, Rollback(claim)).Some?
    ensures var once := After(d, Event(Rollback(claim), 3));
      Plan(once, Rollback(claim)).Some? &&
      var twice := After(once, Event(Rollback(claim), 3));
      twice.active == d.active && twice.previous == d.previous &&
      Replay(twice.journal) == (d.active, d.previous)
  {
    var e := Event(Rollback(claim), 3);
    CompletedCall(d, e);
    var once := After(d, e);
    CompletedCall(once, e);
    ReplayAppend(once.journal, RolledBack(once.previous.value, once.active.value));
  }

  predicate Names(e: Entry, revision: int) {
    if e.Applied? then e.record.revision == revision
    else e.activeRecord.revision == revision || e.previousRecord.revision == revision
  }

  lemma {:induction false} LatestCovers(j: seq<Entry>, i: nat, revision: int)
    requires i < |j| && Names(j[i], revision)
    ensures revision <= Latest(j)
  {
    if i < |j| - 1 { LatestCovers(j[..|j| - 1], i, revision); }
  }

  ghost predicate Journaled(j: seq<Entry>, revision: int) {
    exists i :: 0 <= i < |j| && Names(j[i], revision)
  }

  /** An apply while the active file is missing takes a revision above every journaled one. */
  lemma BlindApplyExceedsJournal(d: Disk, revision: int)
    requires d.active.None? && Journaled(d.journal, revision)
    ensures revision < NextRevision(d)
  {
    var i :| 0 <= i < |d.journal| && Names(d.journal[i], revision);
    LatestCovers(d.journal, i, revision);
  }

  // ---------------------------------------------------------------------------------------
  // Where a crash leaves the active file ahead of the journal
  // ---------------------------------------------------------------------------------------

  lemma ApplyCutAt(d: Disk, e: Event)
    requires e.op.Apply? && Plan(d, e.op).Some?
    ensures var next, n := Effect(d, e.op), |Plan(d, e.op).value|;
      After(d, e) == if e.writes >= n then next
                     else if e.writes == n - 1 then next.(journal := d.journal)
                     else if e.writes == 1 then next.(journal := d.journal, active := d.active) else d
  {
    Unfold3(d, Prefix(Plan(d, e.op).value, e.writes));
  }

  /** A cut-short apply leaves the active file ahead of the journal exactly when only the append is missing. */
  lemma ApplyCutShort(d: Disk, e: Event)
    requires e.op.Apply? && Plan(d, e.op).Some? && ActiveAgrees(d)
    ensures ActiveAgrees(After(d, e)) <==> e.writes != |Plan(d, e.op).value| - 1
  {
    ApplyCutAt(d, e);
    ReplayAppend(d.journal, Applied(Record(NextRevision(d), e.op.state), d.active));
    if d.active.None? { ReplayBounded(d.journal); }
  }

  lemma {:induction false} ReplayBounded(j: seq<Entry>)
    ensures var (a, p) := Replay(j);
      (a.Some? ==> a.value.revision <= Latest(j)) && (p.Some? ==> p.value.revision <= Latest(j))
  {
    if j != [] { ReplayBounded(j[..|j| - 1]); }
  }

  lemma RollbackCutShort(d: Disk, e: Event)
    requires e.op.Rollback? && Plan(d, e.op).Some? && ActiveAgrees(d)
    ensures ActiveAgrees(After(d, e)) <==> e.writes == 0 || e.writes >= 3 || d.active == d.previous
  {
    var ws := Plan(d, e.op).value;
    Unfold3(d, Prefix(ws, e.writes));
    ReplayAppend(d.journal, RolledBack(d.previous.value, d.active.value));
  }

  // ---------------------------------------------------------------------------------------
  // Whole runs
  // ---------------------------------------------------------------------------------------

  /** Every revision up to the latest is named by some entry. */
  ghost predicate AllJournaled(j: seq<Entry>) {
    forall r :: 1 <= r <= Latest(j) ==> Journaled(j, r)
  }

  /** What every crash-free run keeps. */
  ghost predicate Sound(d: Disk) {
    var (a, p) := Replay(d.journal);
    && ActiveAgrees(d)
    && (a.Some? <==> d.journal != []) && (p.Some? <==> |d.journal| >= 2)
    && (d.previous.Some? ==> |d.journal| >= 2 && d.previous.value.revision <= Latest(d.journal))
    && (p.Some? ==> a.value.revision != p.value.revision)
    && (d.previous.Some? ==> a.Some? && a.value.revision != d.previous.value.revision)
    && AllJournaled(d.journal)
    && (d.active.Some? ==> d.active.value.revision >= 1) && (d.previous.Some? ==> d.previous.value.revision >= 1)
    && (a.Some? ==> a.value.revision >= 1) && (p.Some? ==> p.value.revision >= 1)
  }

  lemma JournaledAppend(j: seq<Entry>, e: Entry, r: int)
    ensures Journaled(j + [e], r) <==> Journaled(j, r) || Names(e, r)
  {
    if Journaled(j, r) {
      var i :| 0 <= i < |j| && Names(j[i], r);
      assert Names((j + [e])[i], r);
    }
    if Names(e, r) { assert Names((j + [e])[|j|], r); }
    if Journaled(j + [e], r) {
      var i :| 0 <= i < |j + [e]| && Names((j + [e])[i], r);
      if i < |j| { assert Names(j[i], r); }
    }
  }

  lemma AllJournaledAppend(j: seq<Entry>, e: Entry)
    requires AllJournaled(j)
    requires forall r :: Latest(j) < r <= LatestStep(Latest(j), e) ==> Names(e, r)
    ensures AllJournaled(j + [e])
  {
    ReplayAppend(j, e);
    forall r | 1 <= r <= Latest(j + [e]) ensures Journaled(j + [e], r) {
      JournaledAppend(j, e, r);
    }
  }

  lemma SoundApply(d: Disk, op: Op)
    requires op.Apply? && Sound(d) && Plan(d, op).Some?
    ensures Sound(Effect(d, op))
  {
    var e := Applied(Record(NextRevision(d), op.state), d.active);
    ReplayBounded(d.journal);
    ReplayAppend(d.journal, e);
    AllJournaledAppend(d.journal, e);
  }

  lemma SoundRollback(d: Disk, op: Op)
    requires op.Rollback? && Sound(d) && Plan(d, op).Some?
    ensures Sound(Effect(d, op))
  {
    var e := RolledBack(d.previous.value, d.active.value);
    ReplayBounded(d.journal);
    ReplayAppend(d.journal, e);
    AllJournaledAppend(d.journal, e);
  }

  lemma SoundStep(d: Disk, op: Op)
    requires Sound(d) && Plan(d, op).Some?
    ensures Sound(Effect(d, op))
  {
    ReplayBounded(d.journal);
    match op {
      case Apply(_, _, _) => SoundApply(d, op);
      case Rollback(_) => SoundRollback(d, op);
      case _ =>
    }
  }

  /** In every crash-free run, losses included, a present active file is what the journal replays to. */
  lemma {:induction false} CrashFreeRunsAreSound(es: seq<Event>)
    requires CrashFree(es)
    ensures Sound(Run(es).disk)
  {
    if es != [] {
      var init, e := es[..|es| - 1], es[|es| - 1];
      CrashFreeRunsAreSound(init);
      var d := Run(init).disk;
      if Plan(d, e.op).Some? {
        CompletedCall(d, e);
        SoundStep(d, e.op);
      }
    }
  }

  /** After a completed apply both files agree with the journal exactly if it is not blind, whatever was before. */
  lemma ApplyAgreesIffNotBlind(d: Disk, op: Op)
    requires Sound(d) && op.Apply? && Plan(d, op).Some?
    ensures FullyAgrees(Effect(d, op)) <==> !BlindApply(d, op)
  {
    ReplayAppend(d.journal, Applied(Record(NextRevision(d), op.state), d.active));
  }

  /** Whether a call that is not refused leaves the files parted from the journal. */
  predicate Parts(d: Disk, op: Op, before: bool) {
    match op
    case Apply(_, _, _) => BlindApply(d, op)
    case Rollback(_) => false
    case Recover => d.active.Some? && before
    case _ => before
  }

  /** An apply of the run was blind, and no apply, rollback or recovery of a lost file mended that. */
  predicate Parted(es: seq<Event>) {
    es != [] &&
    var init, e := es[..|es| - 1], es[|es| - 1];
    var d := Run(init).disk;
    if Plan(d, e.op).None? then Parted(init) else Parts(d, e.op, Parted(init))
  }

  lemma StepAgreesIff(d: Disk, op: Op, before: bool)
    requires Sound(d) && Plan(d, op).Some? && (FullyAgrees(d) <==> !before)
    ensures FullyAgrees(Effect(d, op)) <==> !Parts(d, op, before)
  {
    match op {
      case Apply(_, _, _) => ApplyAgreesIffNotBlind(d, op);
      case Rollback(_) => ReplayAppend(d.journal, RolledBack(d.previous.value, d.active.value));
      case _ =>
    }
  }

  /**
   At the end of a crash-free run, losses of the active file included, both files are what the journal
   replays to if and only if no blind apply was left unmended.
   */
  lemma {:induction false} RunsAgreeIffNotParted(es: seq<Event>)
    requires CrashFree(es)
    ensures FullyAgrees(Run(es).disk) <==> !Parted(es)
  {
    if es != [] {
      var init, e := es[..|es| - 1], es[|es| - 1];
      RunsAgreeIffNotParted(init);
      CrashFreeRunsAreSound(init);
      var d := Run(init).disk;
      if Plan(d, e.op).Some? {
        CompletedCall(d, e);
        StepAgreesIff(d, e.op, Parted(init));
      }
    }
  }

  lemma {:induction false} NeverBlindIsNotParted(es: seq<Event>)
    requires NoBlindApply(es)
    ensures !Parted(es)
  {
    if es != [] { NeverBlindIsNotParted(es[..|es| - 1]); }
  }

  /** In particular, when every loss is recovered before the next apply, they are so throughout. */
  lemma RecoveredRunsAgreeFully(es: seq<Event>)
    requires CrashFree(es) && NoBlindApply(es)
    ensures FullyAgrees(Run(es).disk)
  {
    NeverBlindIsNotParted(es);
    RunsAgreeIffNotParted(es);
  }

  /** Losing the active file of such a run and recovering gives back the very same files. */
  lemma RecoveryRestoresLoss(es: seq<Event>)
    requires CrashFree(es) && NoBlindApply(es) && Run(es).disk.active.Some?
    ensures var d := Run(es).disk;
      var lost := Effect(d, LoseActive);
      Plan(lost, Recover).Some? && Effect(lost, Recover) == d
  {
    RecoveredRunsAgreeFully(es);
    CrashFreeRunsAreSound(es);
  }

  /** A new revision is already in the journal exactly when the active record is not the newest one. */
  lemma RevisionReusedIffBehind(es: seq<Event>)
    requires CrashFree(es)
    ensures var d := Run(es).disk;
      Journaled(d.journal, NextRevision(d)) <==>
      d.active.Some? && d.active.value.revision < Latest(d.journal)
  {
    CrashFreeRunsAreSound(es);
    var d := Run(es).disk;
    if Journaled(d.journal, NextRevision(d)) {
      var i :| 0 <= i < |d.journal| && Names(d.journal[i], NextRevision(d));
      LatestCovers(d.journal, i, NextRevision(d));
    }
  }

  // Two runs of one owner, in which every call completes.

  const OWNER := Claim("host", 1)
  const HELD := EMPTY.(counter := Some(1), lock := Some(Lock("host", 1, 0, 60)))

  function Saved(state: string): Payload { map["state" := state] }

  function Applying(state: string, expected: Option<int>): Event { Event(Apply(OWNER, Saved(state), expected), 3) }

  const BLIND := [
    Event(Acquire("host", 0, 60), 3), Applying("first", None), Event(LoseActive, 3), Applying("second", None)]

  const REUSING := [
    Event(Acquire("host", 0, 60), 3), Applying("first", None), Applying("second", Some(1)),
    Event(Rollback(OWNER), 3), Applying("third", Some(1))]

  lemma CompletedNext(es: seq<Event>, n: nat)
    requires n < |es| && CrashFree(es[..n]) && es[n].writes == 3 && Plan(Run(es[..n]).disk, es[n].op).Some?
    ensures Run(es[..n + 1]).disk == Effect(Run(es[..n]).disk, es[n].op) && CrashFree(es[..n + 1])
    ensures NoBlindApply(es[..n + 1]) <==> NoBlindApply(es[..n]) && !BlindApply(Run(es[..n]).disk, es[n].op)
  {
    assert es[..n + 1][..n] == es[..n];
    CompletedCall(Run(es[..n]).disk, es[n]);
  }

  lemma FirstIsApplied(es: seq<Event>)
    requires |es| >= 2 && es[0] == Event(Acquire("host", 0, 60), 3) && es[1] == Applying("first", None)
    ensures var first := Record(1, Saved("first"));
      Run(es[..2]).disk == HELD.(active := Some(first), journal := [Applied(first, None)])
    ensures CrashFree(es[..2]) && NoBlindApply(es[..2])
  {
    CompletedNext(es, 0);
    assert Run(es[..1]).disk == HELD;
    CompletedNext(es, 1);
  }

  /** Where `BLIND` ends. */
  const LEFT_BEHIND := HELD.(
    active := Some(Record(2, Saved("second"))),
    journal := [Applied(Record(1, Saved("first")), None), Applied(Record(2, Saved("second")), None)])

  lemma BlindEndsLeftBehind()
    ensures CrashFree(BLIND) && !NoBlindApply(BLIND) && Run(BLIND).disk == LEFT_BEHIND
  {
    hide Run, CrashFree, NoBlindApply;
    var first := Record(1, Saved("first"));
    FirstIsApplied(BLIND);
    CompletedNext(BLIND, 2);
    var d := Run(BLIND[..3]).disk;
    assert d == HELD.(journal := [Applied(first, None)]);
    ReplayAppend([], Applied(first, None));
    assert [] + [Applied(first, None)] == d.journal;
    CompletedNext(BLIND, 3);
    assert BLIND[..4] == BLIND && BlindApply(d, BLIND[3].op);
  }

  /**
   The documented recovery can fail after a loss that nobody repaired: an apply over the missing active file
   leaves the previous file behind the journal, and the rollback the journal allows is refused.
   */
  lemma BlindApplyLosesThePrevious()
    ensures CrashFree(BLIND) && !NoBlindApply(BLIND)
    ensures var d := Run(BLIND).disk;
      d.previous == None && Replay(d.journal).1 == Some(Record(1, Saved("first"))) && Plan(d, Rollback(OWNER)).None?
  {
    hide Run, CrashFree, NoBlindApply;
    BlindEndsLeftBehind();
    var first, second := Applied(Record(1, Saved("first")), None), Applied(Record(2, Saved("second")), None);
    ReplayAppend([], first);
    ReplayAppend([first], second);
    assert [] + [first] == [first] && [first] + [second] == LEFT_BEHIND.journal;
  }

  const MENDED := BLIND + [Applying("third", Some(2))]

  /** The next apply mends it. */
  lemma NextApplyMends()
    ensures CrashFree(MENDED) && !NoBlindApply(MENDED) && FullyAgrees(Run(MENDED).disk)
  {
    hide Run, CrashFree, NoBlindApply;
    BlindEndsLeftBehind();
    assert MENDED[..4] == BLIND && MENDED[..5] == MENDED && MENDED[..|MENDED| - 1] == BLIND;
    CompletedNext(MENDED, 4);
    RunsAgreeIffNotParted(MENDED);
  }

  /** Where `REUSING` is after its rollback. */
  const RETURNED := HELD.(
    active := Some(Record(1, Saved("first"))), previous := Some(Record(2, Saved("second"))),
    journal := [Applied(Record(1, Saved("first")), None),
                Applied(Record(2, Saved("second")), Some(Record(1, Saved("first")))),
                RolledBack(Record(1, Saved("first")), Record(2, Saved("second")))])

  lemma FirstIsReturnedTo()
    ensures Run(REUSING[..4]).disk == RETURNED && CrashFree(REUSING[..4]) && NoBlindApply(REUSING[..4])
  {
    hide Run, CrashFree, NoBlindApply;
    var first, second := Record(1, Saved("first")), Record(2, Saved("second"));
    FirstIsApplied(REUSING);
    CompletedNext(REUSING, 2);
    assert Run(REUSING[..3]).disk == HELD.(active := Some(second), previous := Some(first),
      journal := [Applied(first, None), Applied(second, Some(first))]);
    CompletedNext(REUSING, 3);
  }

  /** After a rollback the next apply takes a revision that an earlier entry holds already, with another state. */
  lemma RollbackReusesARevision()
    ensures CrashFree(REUSING) && NoBlindApply(REUSING)
    ensures var j := Run(REUSING).disk.journal;
      && |j| == 4 && j[1].Applied? && j[3].Applied?
      && j[1].record == Record(2, Saved("second")) && j[3].record == Record(2, Saved("third"))
  {
    hide Run, CrashFree, NoBlindApply;
    FirstIsReturnedTo();
    CompletedNext(REUSING, 4);
    assert REUSING[..5] == REUSING;
  }

  /** Without rollbacks the journaled revisions are 1, 2, .., n, also across losses of the active file. */
  lemma {:induction false} RevisionsCountApplies(es: seq<Event>)
    requires CrashFree(es) && NoRollback(es)
    ensures var j := Run(es).disk.journal;
      Latest(j) == |j| && forall i :: 0 <= i < |j| ==> j[i].Applied? && j[i].record.revision == i + 1
    ensures var d := Run(es).disk; d.active.Some? ==> d.active.value.revision == |d.journal|
  {
    if es != [] {
      var init, e := es[..|es| - 1], es[|es| - 1];
      RevisionsCountApplies(init);
      CrashFreeRunsAreSound(init);
      var d := Run(init).disk;
      if Plan(d, e.op).Some? {
        CompletedCall(d, e);
        if e.op.Apply? { ReplayAppend(d.journal, Applied(Record(NextRevision(d), e.op.state), d.active)); }
        if e.op.Recover? && d.journal != [] {
          assert Replay(d.journal).0 == Some(d.journal[|d.journal| - 1].record);
        }
      }
    }
  }

  // ---------------------------------------------------------------------------------------
  // Locks
  // ---------------------------------------------------------------------------------------

  /** What every run keeps about locks, crashes included. */
  ghost predicate LocksSound(w: World) {
    && (forall i :: 0 <= i < |w.issued| ==> w.disk.counter.Some? && w.issued[i].token <= w.disk.counter.value)
    && (forall i, j :: 0 <= i < j < |w.issued| ==>
         w.issued[i].token < w.issued[j].token && w.issued[i].expiresAt <= w.issued[j].acquiredAt)
    && (forall i :: 0 <= i < |w.issued| ==> w.issued[i].acquiredAt < w.issued[i].expiresAt)
    && w.disk.lock == if w.issued == [] then None else Some(w.issued[|w.issued| - 1])
  }

  lemma LockWrites(d: Disk, e: Event)
    requires Plan(d, e.op).Some?
    ensures var d' := After(d, e);
      if !e.op.Acquire? || e.writes == 0 then d'.lock == d.lock && d'.counter == d.counter
      else d'.counter == Some(NextToken(d)) &&
           d'.lock == if e.writes == 1 then d.lock else Some(NewLock(d, e.op))
  {
    Unfold3(d, Prefix(Plan(d, e.op).value, e.writes));
  }

  /**
   In every run, however calls are cut short: tokens strictly increase and none is issued twice, the
   lock file holds the last issued lock, and the validity intervals of any two locks are disjoint.
   */
  lemma {:induction false} LocksAreFenced(es: seq<Event>)
    ensures LocksSound(Run(es))
  {
    if es != [] {
      LocksAreFenced(es[..|es| - 1]);
      LocksStep(Run(es[..|es| - 1]), es[|es| - 1]);
    }
  }

  lemma LocksStep(w: World, e: Event)
    requires LocksSound(w)
    ensures LocksSound(Step(w, e))
  {
    if Plan(w.disk, e.op).Some? {
      LockWrites(w.disk, e);
      if e.op.Acquire? && e.writes >= 2 { LocksGrow(w, After(w.disk, e), NewLock(w.disk, e.op)); }
    }
  }

  lemma LocksGrow(w: World, d: Disk, l: Lock)
    requires LocksSound(w) && d.counter == Some(l.token) && d.lock == Some(l) && l.token == NextToken(w.disk)
    requires l.acquiredAt < l.expiresAt && (w.disk.lock.Some? ==> w.disk.lock.value.expiresAt <= l.acquiredAt)
    ensures LocksSound(World(d, w.issued + [l]))
  {
    forall i | 0 <= i < |w.issued| ensures w.issued[i].token < l.token && w.issued[i].expiresAt <= l.acquiredAt {
      var last := |w.issued| - 1;
      assert w.issued[last].expiresAt <= l.acquiredAt;
      if i < last { assert w.issued[i].expiresAt <= w.issued[last].acquiredAt; }
    }
  }

  lemma {:induction false} IssuedGrows(es: seq<Event>, more: seq<Event>)
    ensures Run(es).issued <= Run(es + more).issued
    decreases |more|
  {
    if more == [] { assert es + more == es; } else {
      assert (es + more)[..|es + more| - 1] == es + more[..|more| - 1];
      IssuedGrows(es, more[..|more| - 1]);
    }
  }

  /** In every run, exactly the holder of the lock issued last passes the mutation check, expired or not. */
  lemma LastHolderPasses(es: seq<Event>, c: Claim)
    ensures var w := Run(es);
      Holds(w.disk, c) <==>
      w.issued != [] && var last := w.issued[|w.issued| - 1]; c == Claim(last.owner, last.token)
  {
    LocksAreFenced(es);
  }

  /** Once another lock was issued, the former holder is refused in every later state. */
  lemma SupersededHolderStaysOut(es: seq<Event>, more: seq<Event>, i: nat)
    requires i < |Run(es).issued| - 1
    ensures var l := Run(es).issued[i]; !Holds(Run(es + more).disk, Claim(l.owner, l.token))
  {
    IssuedGrows(es, more);
    LocksAreFenced(es + more);
  }

  // ---------------------------------------------------------------------------------------
  // Who may change what
  // ---------------------------------------------------------------------------------------

  /** The claim of the lock issued last. */
  predicate Newest(issued: seq<Lock>, c: Claim) {
    issued != [] && c.owner == issued[|issued| - 1].owner && c.token == issued[|issued| - 1].token
  }

  lemma RunSnoc(es: seq<Event>, e: Event)
    ensures Run(es + [e]) == Step(Run(es), e)
  {
    assert (es + [e])[..|es|] == es;
  }

  /**
   Optimistic concurrency, over every run: an apply that is not cut short changes the files if and only if
   its claim is that of the lock issued last and the revision it expects is the one in the active file; and
   one that may not changes nothing however far it gets. The record applied carries the caller's state, and
   the journal gains it together with the record it replaces.
   */
  lemma ApplyChangesIff(es: seq<Event>, e: Event)
    requires e.op.Apply?
    ensures var w, d' := Run(es), Run(es + [e]).disk; var d := w.disk;
      var allowed := Newest(w.issued, e.op.claim) &&
                     e.op.expected == if d.active.Some? then Some(d.active.value.revision) else None;
      && (e.writes >= 3 ==> (d' != d <==> allowed))
      && (!allowed ==> d' == d)
      && (e.writes >= 3 && allowed ==>
            && d'.active.Some? && d'.active.value.state == e.op.state
            && d'.previous == (if d.active.Some? then d.active else d.previous)
            && d'.journal == d.journal + [Applied(d'.active.value, d.active)]
            && d'.lock == d.lock && d'.counter == d.counter)
  {
    var d := Run(es).disk;
    RunSnoc(es, e);
    LastHolderPasses(es, e.op.claim);
    if Plan(d, e.op).Some? && e.writes >= 3 {
      CompletedCall(d, e);
      assert |Effect(d, e.op).journal| == |d.journal| + 1;
    }
  }

  /** The same for a rollback, whose guards are the lock and that both files are there; it swaps them. */
  lemma RollbackChangesIff(es: seq<Event>, e: Event)
    requires e.op.Rollback?
    ensures var w, d' := Run(es), Run(es + [e]).disk; var d := w.disk;
      var allowed := Newest(w.issued, e.op.claim) && d.active.Some? && d.previous.Some?;
      && (e.writes >= 3 ==> (d' != d <==> allowed))
      && (!allowed ==> d' == d)
      && (e.writes >= 3 && allowed ==>
            && d'.active == d.previous && d'.previous == d.active
            && d'.journal == d.journal + [RolledBack(d.previous.value, d.active.value)]
            && d'.lock == d.lock && d'.counter == d.counter)
  {
    var d := Run(es).disk;
    RunSnoc(es, e);
    LastHolderPasses(es, e.op.claim);
    if Plan(d, e.op).Some? && e.writes >= 3 {
      CompletedCall(d, e);
      assert |Effect(d, e.op).journal| == |d.journal| + 1;
    }
  }

  /**
   Over every run: an acquire that is not cut short issues a lock if and only if the lifetime is positive
   and the lock issued last has expired; the lock is the caller's, from now on for that long, under a new
   token, and the state files stay as they are.
   */
  lemma AcquireIssuesIff(es: seq<Event>, e: Event)
    requires e.op.Acquire? && e.writes >= 2
    ensures var w, w' := Run(es), Run(es + [e]);
      var allowed := e.op.ttl > 0 && (w.issued == [] || w.issued[|w.issued| - 1].expiresAt <= e.op.now);
      && (w' != w <==> allowed)
      && (allowed ==>
            && |w'.issued| == |w.issued| + 1 && w'.issued[..|w.issued|] == w.issued
            && var lock := w'.issued[|w.issued|];
               && lock.owner == e.op.owner && lock.acquiredAt == e.op.now && lock.expiresAt == e.op.now + e.op.ttl
               && (forall i :: 0 <= i < |w.issued| ==> w.issued[i].token < lock.token)
               && lock.token == 1 + (if w.disk.counter.Some? then w.disk.counter.value else 0)
               && w'.disk == w.disk.(lock := Some(lock), counter := Some(lock.token)))
  {
    hide Step, LocksSound;
    RunSnoc(es, e);
    LocksAreFenced(es);
    AcquireStep(Run(es), e);
  }

  lemma AcquireStep(w: World, e: Event)
    requires LocksSound(w) && e.op.Acquire? && e.writes >= 2
    ensures var w' := Step(w, e); var lock := NewLock(w.disk, e.op);
      if e.op.ttl > 0 && (w.issued == [] || w.issued[|w.issued| - 1].expiresAt <= e.op.now) then
        && w'.issued == w.issued + [lock] && w'.disk == w.disk.(lock := Some(lock), counter := Some(lock.token))
        && forall i :: 0 <= i < |w.issued| ==> w.issued[i].token < lock.token
      else w' == w
  {
    hide LatestStep, Replay, ReplayStep, DoAll;
    if Plan(w.disk, e.op).Some? { CompletedCall(w.disk, e); }
  }

  /** A whole recover changes the files exactly if the active one is missing and the journal is not empty. */
  lemma RecoverChangesIff(es: seq<Event>, e: Event)
    requires e.op.Recover? && e.writes >= 2
    ensures var d, d' := Run(es).disk, Run(es + [e]).disk;
      && (d' != d <==> d.active.None? && d.journal != [])
      && (d' != d ==>
            var last := d.journal[|d.journal| - 1];
            && d'.active == Some(if last.Applied? then last.record else last.activeRecord)
            && d'.journal == d.journal && d'.lock == d.lock && d'.counter == d.counter)
  {
    var d := Run(es).disk;
    RunSnoc(es, e);
    if Plan(d, e.op).Some? { CompletedCall(d, e); }
  }

  // ---------------------------------------------------------------------------------------
  // The store
  // ---------------------------------------------------------------------------------------

  datatype Outcome =
    | Refused
    | Crashed
    | Locked(lock: Lock)
    | Accepted(record: Record)
    | Swapped(activeRevision: int, previousRevision: int)
    | Recovered(activeRevision: int, replayed: bool)

  /** The store's files; `budget` is the number of file writes left before the process dies. */
  class Store {
    var lock: Option<Lock>
    var counter: Option<nat>
    var active: Option<Record>
    var previous: Option<Record>
    var journal: seq<Entry>
    var budget: nat

    constructor (budget: nat)
      ensures Files() == EMPTY && this.budget == budget
    {
      lock, counter, active, previous, journal := None, None, None, None, [];
      this.budget := budget;
    }

    function Files(): Disk
      reads this
    {
      Disk(lock, counter, active, previous, journal)
    }

    /** `_write_json_atomic` and `_append_journal`: one write, done whole or not at all. */
    method Put(w: Write) returns (alive: bool)
      modifies this
      ensures alive <==> old(budget) > 0
      ensures alive ==> budget == old(budget) - 1 && Files() == Do(old(Files()), w)
      ensures !alive ==> budget == 0 && Files() == old(Files())
    {
      if budget == 0 { return false; }
      budget, alive := budget - 1, true;
      match w
      case PutCounter(n) => counter := Some(n);
      case PutLock(l) => lock := Some(l);
      case PutActive(r) => active := Some(r);
      case PutPrevious(r) => previous := Some(r);
      case Append(e) => journal := journal + [e];
      case DropActive => active := None;
    }

    method ReplayJournal() returns (a: Option<Record>, p: Option<Record>)
      ensures (a, p) == Replay(journal)
    {
      a, p := None, None;
      for i := 0 to |journal|
        invariant (a, p) == Replay(journal[..i])
      {
        ReplayAppend(journal[..i], journal[i]);
        assert journal[..i + 1] == journal[..i] + [journal[i]];
        match journal[i] {
          case Applied(record, _) => p := a; a := Some(record);
          case RolledBack(x, y) => a, p := Some(x), Some(y);
        }
      }
      assert journal[..|journal|] == journal;
    }

    method NextRevisionOf(activeRevision: Option<int>) returns (r: int)
      requires activeRevision == Revision(active)
      ensures r == NextRevision(Files())
    {
      if activeRevision.Some? { return activeRevision.value + 1; }
      var latest := 0;
      for i := 0 to |journal|
        invariant latest == Latest(journal[..i])
      {
        ReplayAppend(journal[..i], journal[i]);
        assert journal[..i + 1] == journal[..i] + [journal[i]];
        match journal[i] {
          case Applied(record, _) => latest := Max(latest, record.revision);
          case RolledBack(x, y) => latest := Max(latest, x.revision); latest := Max(latest, y.revision);
        }
      }
      assert journal[..|journal|] == journal;
      r := latest + 1;
    }

    method AcquireLock(owner: string, now: int, ttl: int) returns (r: Outcome)
      modifies this
      ensures Files() == After(old(Files()), Event(Acquire(owner, now, ttl), old(budget)))
      ensures r == if Plan(old(Files()), Acquire(owner, now, ttl)).None? then Refused
                   else if old(budget) < 2 then Crashed
                   else Locked(NewLock(old(Files()), Acquire(owner, now, ttl)))
    {
      if ttl <= 0 { return Refused; }
      if lock.Some? && lock.value.expiresAt > now { return Refused; }
      ghost var ws := Plan(Files(), Acquire(owner, now, ttl)).value;
      Unfold3(Files(), Prefix(ws, budget));
      var token := if counter.Some? then counter.value + 1 else 1;
      var alive := Put(PutCounter(token));
      if !alive { return Crashed; }
      var granted := Lock(owner, token, now, now + ttl);
      alive := Put(PutLock(granted));
      if !alive { return Crashed; }
      r := Locked(granted);
    }

    method ApplyState(claim: Claim, state: Payload, expected: Option<int>) returns (r: Outcome)
      modifies this
      ensures Files() == After(old(Files()), Event(Apply(claim, state, expected), old(budget)))
      ensures var plan := Plan(old(Files()), Apply(claim, state, expected));
        r == if plan.None? then Refused else if old(budget) < |plan.value| then Crashed
             else Accepted(Record(NextRevision(old(Files())), state))
    {
      if !Holds(Files(), claim) { return Refused; }
      var current := active;
      if Revision(current) != expected { return Refused; }
      ghost var ws := Plan(Files(), Apply(claim, state, expected)).value;
      Unfold3(Files(), Prefix(ws, budget));
      var revision := NextRevisionOf(Revision(current));
      var record := Record(revision, state);
      var alive := true;
      if current.Some? {
        alive := Put(PutPrevious(current.value));
        if !alive { return Crashed; }
      }
      alive := Put(PutActive(record));
      if !alive { return Crashed; }
      alive := Put(Append(Applied(record, current)));
      if !alive { return Crashed; }
      r := Accepted(record);
    }

    method RollBack(claim: Claim) returns (r: Outcome)
      modifies this
      ensures Files() == After(old(Files()), Event(Rollback(claim), old(budget)))
      ensures r == if Plan(old(Files()), Rollback(claim)).None? then Refused
                   else if old(budget) < 3 then Crashed
                   else Swapped(old(previous).value.revision, old(active).value.revision)
    {
      if !Holds(Files(), claim) || active.None? || previous.None? { return Refused; }
      ghost var ws := Plan(Files(), Rollback(claim)).value;
      Unfold3(Files(), Prefix(ws, budget));
      var a, p := active.value, previous.value;
      var alive := Put(PutActive(p));
      if !alive { return Crashed; }
      alive := Put(PutPrevious(a));
      if !alive { return Crashed; }
      alive := Put(Append(RolledBack(p, a)));
      if !alive { return Crashed; }
      r := Swapped(p.revision, a.revision);
    }

    method RecoverFiles() returns (r: Outcome)
      modifies this
      ensures Files() == After(old(Files()), Event(Recover, old(budget)))
      ensures var plan := Plan(old(Files()), Recover);
        r == if plan.None? then Refused else if old(budget) < |plan.value| then Crashed
             else Recovered(Effect(old(Files()), Recover).active.value.revision, old(active).None?)
    {
      if active.Some? { return Recovered(active.value.revision, false); }
      var a, p := ReplayJournal();
      if a.None? { return Refused; }
      ghost var ws := Plan(Files(), Recover).value;
      Unfold3(Files(), Prefix(ws, budget));
      var alive := Put(PutActive(a.value));
      if !alive { return Crashed; }
      if p.Some? {
        alive := Put(PutPrevious(p.value));
        if !alive { return Crashed; }
      }
      r := Recovered(a.value.revision, true);
    }
  }
}
