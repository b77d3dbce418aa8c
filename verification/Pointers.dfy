/**
 Records and the two pointer files that name them, as both the deployment store
 (src/mcp_broker/deployments.py) and the runtime store (src/mcp_broker/runtime_install.py) keep them.
 An atomic write is two steps, the temporary file and its replacement; a crash keeps a prefix of the
 steps of a call.
 */
module Pointers {
  import opened Prelude

  /** What a pointer file says, and what a record file holds: an id and the record's own path. */
  datatype Pointer = Pointer(id: string, path: string)

  datatype Entry =
    | Activated(id: string, formerId: Option<string>)
    | RolledBack(activeId: string, previousId: string)
    | Recovered(inForce: Option<string>, removed: seq<string>)

  /** Records oldest first by modification time; `partials` are the paths with a temporary file. */
  datatype Disk = Disk(
    records: seq<Pointer>, active: Option<Pointer>, previous: Option<Pointer>,
    partials: set<string>, journal: seq<Entry>)

  datatype Write =
    | Begin(path: string)
    | PutRecord(record: Pointer)
    | PutActive(pointer: Pointer)
    | PutPrevious(pointer: Pointer)
    | Append(entry: Entry)
    | Unlink(path: string)
    | DropActive
    | DropPrevious
    | DropRecord(path: string)

  const ACTIVE_FILE := "active.json"
  const PREVIOUS_FILE := "previous.json"

  /** The records other than the one at `path`. */
  function Without(records: seq<Pointer>, path: string): (r: seq<Pointer>)
    ensures forall p :: p in r <==> p in records && p.path != path
  {
    if records == [] then [] else
      var last := records[|records| - 1];
      Without(records[..|records| - 1], path) + if last.path == path then [] else [last]
  }

  function Do(d: Disk, w: Write): Disk {
    match w
    case Begin(path) => d.(partials := d.partials + {path})
    case PutRecord(r) => d.(records := Without(d.records, r.path) + [r], partials := d.partials - {r.path})
    case PutActive(p) => d.(active := Some(p), partials := d.partials - {ACTIVE_FILE})
    case PutPrevious(p) => d.(previous := Some(p), partials := d.partials - {PREVIOUS_FILE})
    case Append(e) => d.(journal := d.journal + [e])
    case Unlink(path) => d.(partials := d.partials - {path})
    case DropActive => d.(active := None)
    case DropPrevious => d.(previous := None)
    case DropRecord(path) => d.(records := Without(d.records, path))
  }

  function DoAll(d: Disk, ws: seq<Write>): Disk
    decreases |ws|
  {
    if ws == [] then d else DoAll(Do(d, ws[0]), ws[1..])
  }

  /** `_write_json_atomic` */
  function RecordWrite(p: Pointer): seq<Write> { [Begin(p.path), PutRecord(p)] }
  function ActiveWrite(p: Pointer): seq<Write> { [Begin(ACTIVE_FILE), PutActive(p)] }
  function PreviousWrite(p: Pointer): seq<Write> { [Begin(PREVIOUS_FILE), PutPrevious(p)] }

  /** `is_file` of a record path */
  predicate IsRecordFile(d: Disk, path: string) {
    exists p :: p in d.records && p.path == path
  }

  /** What the file says is an existing record, with the same id. */
  predicate Linked(d: Disk, p: Option<Pointer>) {
    p.Some? ==> p.value in d.records
  }

  predicate BothLinked(d: Disk) {
    Linked(d, d.active) && Linked(d, d.previous)
  }

  /** One of the two pointers still leads to `p`. */
  predicate Named(d: Disk, p: Pointer) {
    d.active == Some(p) || d.previous == Some(p)
  }

  // ---------------------------------------------------------------------------------------
  // Cut short
  // ---------------------------------------------------------------------------------------

  lemma {:induction false} DoAllConcat(d: Disk, a: seq<Write>, b: seq<Write>)
    ensures DoAll(d, a + b) == DoAll(DoAll(d, a), b)
    decreases |a|
  {
    if a == [] {
      assert a + b == b;
    } else {
      assert (a + b)[1..] == a[1..] + b;
      DoAllConcat(Do(d, a[0]), a[1..], b);
    }
  }

  /** A crash strikes in the first list or in the second. */
  lemma CutConcat(d: Disk, a: seq<Write>, b: seq<Write>, n: nat)
    ensures DoAll(d, Prefix(a + b, n)) ==
              if n < |a| then DoAll(d, Prefix(a, n)) else DoAll(DoAll(d, a), Prefix(b, n - |a|))
  {
    if n < |a| {
      assert Prefix(a + b, n) == Prefix(a, n);
    } else {
      assert Prefix(a + b, n) == a + Prefix(b, n - |a|);
      DoAllConcat(d, a, Prefix(b, n - |a|));
    }
  }

  lemma WholePrefix<T>(s: seq<T>, n: nat)
    ensures n >= |s| ==> Prefix(s, n) == s
  {
  }

  lemma CutPair(d: Disk, v: Write, w: Write, n: nat)
    ensures DoAll(d, Prefix([v, w], n)) == if n == 0 then d else if n == 1 then Do(d, v) else Do(Do(d, v), w)
  {
    if n == 0 {
      assert Prefix([v, w], n) == [];
    } else if n == 1 {
      assert Prefix([v, w], n) == [v];
      assert [v][1..] == [] && DoAll(d, [v]) == DoAll(Do(d, v), []);
    } else {
      assert [v, w][1..] == [w] && [w][1..] == [];
      assert DoAll(d, [v, w]) == DoAll(Do(d, v), [w]) == DoAll(Do(Do(d, v), w), []);
    }
  }

  lemma CutSingle(d: Disk, w: Write, n: nat)
    ensures DoAll(d, Prefix([w], n)) == if n == 0 then d else Do(d, w)
  {
    if n == 0 { assert Prefix([w], n) == []; }
  }

  // ---------------------------------------------------------------------------------------
  // The files themselves
  // ---------------------------------------------------------------------------------------

  /** The state directory; `budget` is how many steps remain before the crash. */
  class Store {
    var records: seq<Pointer>
    var active: Option<Pointer>
    var previous: Option<Pointer>
    var partials: set<string>
    var journal: seq<Entry>
    var budget: nat

    constructor (budget: nat)
      ensures Files() == Disk([], None, None, {}, []) && this.budget == budget
    {
      records, active, previous, partials, journal := [], None, None, {}, [];
      this.budget := budget;
    }

    function Files(): Disk
      reads this
    {
      Disk(records, active, previous, partials, journal)
    }

    function Left(steps: nat): nat
      reads this
    {
      if budget < steps then 0 else budget - steps
    }

    /** One step, done whole or not at all. */
    method Put(w: Write) returns (alive: bool)
      modifies this
      ensures alive <==> old(budget) > 0
      ensures budget == old(Left(1)) && Files() == DoAll(old(Files()), Prefix([w], old(budget)))
    {
      CutSingle(Files(), w, budget);
      alive := budget > 0;
      if !alive { return; }
      budget := budget - 1;
      match w {
        case Begin(path) => partials := partials + {path};
        case PutRecord(r) => records, partials := Without(records, r.path) + [r], partials - {r.path};
        case PutActive(p) => active, partials := Some(p), partials - {ACTIVE_FILE};
        case PutPrevious(p) => previous, partials := Some(p), partials - {PREVIOUS_FILE};
        case Append(e) => journal := journal + [e];
        case Unlink(path) => partials := partials - {path};
        case DropActive => active := None;
        case DropPrevious => previous := None;
        case DropRecord(path) => records := Without(records, path);
      }
    }

    /** `_write_json_atomic`: the temporary file, then its replacement. */
    method WriteJsonAtomic(v: Write, w: Write) returns (alive: bool)
      modifies this
      ensures alive <==> old(budget) >= 2
      ensures budget == old(Left(2)) && Files() == DoAll(old(Files()), Prefix([v, w], old(budget)))
    {
      CutConcat(Files(), [v], [w], budget);
      assert [v] + [w] == [v, w];
      CutSingle(Files(), v, 1);
      assert Prefix([v], 1) == [v];
      alive := Put(v);
      if alive { alive := Put(w); }
    }
  }
}
