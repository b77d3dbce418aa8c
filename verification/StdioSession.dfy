/**
 The JSON-RPC session with an upstream process (src/mcp_broker/upstream_stdio.py): byte framing,
 request ids and the initialization handshake, across restarts and concurrent stops.

 The world is a script of happenings: what a read returns, whether a write or a spawn works, and
 where another thread's `stop()`, which takes no lock, strikes. A script that has run out reads as a
 timeout.
 */
module StdioSession {
  import opened Prelude

  // ---------------------------------------------------------------------------------------
  // Framing
  // ---------------------------------------------------------------------------------------

  predicate LineFree(s: string) {
    '\n' !in s
  }

  /** The bytes a list of delivered lines stands for. */
  function Framed(lines: seq<string>): string {
    if lines == [] then "" else Framed(lines[..|lines| - 1]) + lines[|lines| - 1] + "\n"
  }

  function FirstNewline(s: string): (n: nat)
    ensures n <= |s| && LineFree(s[..n]) && (n < |s| ==> s[n] == '\n')
  {
    if s == "" || s[0] == '\n' then 0 else
      var n := FirstNewline(s[1..]);
      assert s[..n + 1] == [s[0]] + s[1..][..n];
      n + 1
  }

  /** The complete lines of a byte stream: the independent reading of what was sent. */
  function Lines(s: string): seq<string>
    decreases |s|
  {
    var n := FirstNewline(s);
    if n == |s| then [] else [s[..n]] + Lines(s[n + 1..])
  }

  lemma {:induction false} FirstNewlineIs(line: string, rest: string)
    requires LineFree(line) && rest != "" && rest[0] == '\n'
    ensures FirstNewline(line + rest) == |line|
  {
    if line == "" {
      assert line + rest == rest;
    } else {
      assert line[0] in line;
      assert (line + rest)[1..] == line[1..] + rest;
      FirstNewlineIs(line[1..], rest);
    }
  }

  lemma {:induction false} FramedCons(line: string, lines: seq<string>)
    ensures Framed([line] + lines) == line + "\n" + Framed(lines)
  {
    var all := [line] + lines;
    if lines == [] {
      assert all[..0] == [] && Framed([]) == "";
      assert all == [line];
    } else {
      var init, last := lines[..|lines| - 1], lines[|lines| - 1];
      assert all[..|all| - 1] == [line] + init;
      FramedCons(line, init);
      assert (line + "\n" + Framed(init)) + last + "\n" == line + "\n" + (Framed(init) + last + "\n");
    }
  }

  lemma FramedSnoc(lines: seq<string>, line: string, rest: string)
    ensures Framed(lines + [line]) + rest == Framed(lines) + (line + ("\n" + rest))
  {
    assert (lines + [line])[..|lines|] == lines;
    assert (Framed(lines) + line + "\n") + rest == Framed(lines) + (line + ("\n" + rest));
  }

  lemma LineKeepsFraming(stream: string, delivered: seq<string>, buffer: string, n: nat)
    requires stream == Framed(delivered) + buffer && n < |buffer| && buffer[n] == '\n'
    ensures stream == Framed(delivered + [buffer[..n]]) + buffer[n + 1..]
  {
    FramedSnoc(delivered, buffer[..n], buffer[n + 1..]);
    assert buffer == buffer[..n] + ("\n" + buffer[n + 1..]);
  }

  lemma ChunkKeepsFraming(inherited: string, bytes: string, delivered: seq<string>, buffer: string, data: string)
    requires inherited + bytes == Framed(delivered) + buffer
    ensures inherited + (bytes + data) == Framed(delivered) + (buffer + data)
  {
    assert inherited + (bytes + data) == (inherited + bytes) + data;
    assert Framed(delivered) + (buffer + data) == (Framed(delivered) + buffer) + data;
  }

  /**
   Whatever the chunks were: if the lines delivered so far, each with its newline, and the buffer
   make up the bytes read, then those lines are the first lines of the stream, and all of them when
   the buffer holds no newline.
   */
  lemma {:induction false} DeliveredLinesAreTheStream(lines: seq<string>, buffer: string)
    requires forall l :: l in lines ==> LineFree(l)
    ensures lines <= Lines(Framed(lines) + buffer)
    ensures LineFree(buffer) ==> lines == Lines(Framed(lines) + buffer)
    decreases |lines|
  {
    if lines == [] {
      assert Framed(lines) + buffer == buffer;
      assert FirstNewline(buffer) < |buffer| ==> '\n' in buffer;
    } else {
      var line, rest := lines[0], lines[1..];
      assert lines == [line] + rest;
      FramedCons(line, rest);
      var stream := Framed(lines) + buffer;
      assert stream == line + ("\n" + Framed(rest) + buffer);
      FirstNewlineIs(line, "\n" + Framed(rest) + buffer);
      assert stream[|line| + 1..] == Framed(rest) + buffer;
      assert stream[..|line|] == line;
      DeliveredLinesAreTheStream(rest, buffer);
      assert Lines(stream) == [line] + Lines(stream[|line| + 1..]);
    }
  }

  // ---------------------------------------------------------------------------------------
  // Messages and the record of what was done
  // ---------------------------------------------------------------------------------------

  type Capabilities = map<string, string>
  type Process = nat

  /** What a line decodes to, as far as the session looks at it. */
  datatype Message = Message(
    id: Option<int>,                // the integer it compares equal to, if any
    hasId: bool, hasMethod: bool, methodIsString: bool,
    error: Option<bool>,            // an error object, with "not initialized" read off it
    result: Option<string>)         // a result dictionary

  datatype Decoded = Malformed | NotAnObject | Object(message: Message)

  datatype Happening =
    | Chunk(data: string)           // a read returned these bytes; none at all is the end of the stream
    | Silence(exited: bool)         // nothing readable before the deadline
    | Works
    | Breaks
    | StopStrikes

  datatype Kind = Initialize(capabilities: Capabilities) | InitializedNotice | Call | Reply

  datatype Act =
    | Wrote(process: Process, id: Option<int>, kind: Kind, heard: nat)  // after `heard` lines were delivered
    | Accepted(process: Process, answered: int)

  predicate IsNotification(m: Message) {
    !m.hasId && m.methodIsString
  }

  predicate IsRequest(m: Message) {
    m.hasMethod && m.hasId
  }

  predicate NotInitialized(m: Message) {
    m.error == Some(true)
  }

  predicate IsRequestAct(a: Act) {
    a.Wrote? && a.id.Some?
  }

  /** The last request written; notifications and replies carry no id of ours. */
  function LastRequest(log: seq<Act>): Option<Act> {
    if log == [] then None
    else if IsRequestAct(log[|log| - 1]) then Some(log[|log| - 1])
    else LastRequest(log[..|log| - 1])
  }

  lemma LastRequestOfAppend(log: seq<Act>, a: Act)
    ensures LastRequest(log + [a]) == if IsRequestAct(a) then Some(a) else LastRequest(log)
  {
    assert (log + [a])[..|log|] == log;
  }

  predicate Said(a: Act, p: Process, id: Option<int>, kind: Kind) {
    a.Wrote? && a.process == p && a.id == id && a.kind == kind
  }

  ghost predicate HandshakeAt(log: seq<Act>, p: Process, c: Capabilities, i: int, j: int, k: int, id: int) {
    && 0 <= i < j < k < |log|
    && Said(log[i], p, Some(id), Initialize(c))
    && log[j] == Accepted(p, id)
    && Said(log[k], p, None, InitializedNotice)
  }

  /** A completed handshake: initialize written, its result accepted, the notification written. */
  ghost predicate Handshaken(log: seq<Act>, p: Process, c: Capabilities) {
    exists i, j, k, id :: HandshakeAt(log, p, c, i, j, k, id)
  }

  lemma HandshakeLasts(log: seq<Act>, longer: seq<Act>, p: Process, c: Capabilities)
    requires log <= longer && Handshaken(log, p, c)
    ensures Handshaken(longer, p, c)
  {
    var i, j, k, id :| HandshakeAt(log, p, c, i, j, k, id);
    assert HandshakeAt(longer, p, c, i, j, k, id);
  }

  predicate Greets(a: Act, p: Process) {
    a.Wrote? && a.process == p && a.kind.Initialize?
  }

  /** No initialize was ever written to `p`. */
  ghost predicate NeverGreeted(log: seq<Act>, p: Process) {
    forall i :: 0 <= i < |log| ==> !Greets(log[i], p)
  }

  lemma NeverGreetedIsNotHandshaken(log: seq<Act>, p: Process, c: Capabilities)
    requires NeverGreeted(log, p)
    ensures !Handshaken(log, p, c)
  {
    forall i, j, k, id ensures !HandshakeAt(log, p, c, i, j, k, id) {
      if 0 <= i < |log| { assert !Greets(log[i], p); }
    }
  }

  /** Request ids only grow, so none is used twice, whatever was restarted in between. */
  ghost predicate IdsGrow(log: seq<Act>, next: int) {
    && (forall i :: 0 <= i < |log| && IsRequestAct(log[i]) ==> log[i].id.value < next)
    && (forall i, j :: 0 <= i < j < |log| && IsRequestAct(log[i]) && IsRequestAct(log[j]) ==>
         log[i].id.value < log[j].id.value)
  }

  /** Every act concerns one of the first `n` processes. */
  ghost predicate Concerns(log: seq<Act>, n: nat) {
    forall i :: 0 <= i < |log| ==> log[i].process < n
  }

  datatype Line = Got(line: string) | LineTimeout | LineFailed
  datatype Response = Received(message: Message) | ResponseTimeout | ResponseFailed
  datatype Outcome = Result(id: int, value: string) | TimedOut | Failed

  /** `_result_from_response` */
  function ResultFromResponse(m: Message, request: int): (r: Outcome)
    ensures r.Result? ==> m.id == Some(request) == Some(r.id) && m.error == None && m.result == Some(r.value)
    ensures !r.TimedOut?
  {
    if m.id != Some(request) || m.error.Some? || m.result.None? then Failed else Result(request, m.result.value)
  }

  // ---------------------------------------------------------------------------------------
  // The session as a value
  // ---------------------------------------------------------------------------------------

  /**
   The fields of a session and the script ahead of it, together with a record of what happened: what
   was written and accepted; of the stream of the process spawned last what was read, what was delivered,
   and what the buffer held before it; and of the processes whose metadata file could not be written,
   whether the initialized flag was up when they were spawned.
   */
  datatype State = State(
    process: Option<Process>, initialized: bool, clientCapabilities: Capabilities,
    buffer: string, nextId: int, restarts: nat, spawned: nat, world: seq<Happening>,
    log: seq<Act>, bytes: string, delivered: seq<string>, inherited: string, unrecorded: map<Process, bool>)

  type Decoder = string -> Decoded

  function Fresh(world: seq<Happening>): State {
    State(None, false, map[], "", 0, 0, 0, world, [], "", [], "", map[])
  }

  /** The next happening, after every `stop()` that struck before it. */
  function Next(s: State): (r: (State, Happening))
    ensures |r.0.world| <= |s.world| && (s.world != [] ==> |r.0.world| < |s.world|)
    ensures (s.world == [] ==> r.1 == Silence(false)) && !r.1.StopStrikes?
    ensures r.0 == s.(world := r.0.world, process := r.0.process) && (r.0.process == s.process || r.0.process == None)
    decreases |s.world|
  {
    if s.world == [] then (s, Silence(false))
    else if s.world[0].StopStrikes? then Next(s.(world := s.world[1..], process := None))
    else (s.(world := s.world[1..]), s.world[0])
  }

  /** `stop` */
  function Stopped(s: State): State {
    s.(process := None)
  }

  /** A chunk joins the buffer. */
  function Filled(s: State, data: string): State {
    s.(buffer := s.buffer + data, bytes := s.bytes + data)
  }

  /** `_read_stdout_line` */
  function ReadLine(s: State): (r: (State, Line))
    ensures |r.0.world| <= |s.world|
    ensures r.1.Got? && |r.0.world| == |s.world| ==> |r.0.buffer| < |s.buffer|
    decreases |s.world|
  {
    var n := FirstNewline(s.buffer);
    if n < |s.buffer| then
      (s.(buffer := s.buffer[n + 1..], delivered := s.delivered + [s.buffer[..n]]), Got(s.buffer[..n]))
    else
      var (t, h) := Next(s);
      if h.Chunk? && h.data != "" then ReadLine(Filled(t, h.data))
      else (t, if h == Silence(false) then LineTimeout else LineFailed)
  }

  /** `_write_request`, of a request, a notification or a reply; the log records the attempt. */
  function Write(s: State, p: Process, id: Option<int>, kind: Kind): (r: (State, bool))
    ensures |r.0.world| <= |s.world|
  {
    var (t, h) := Next(s.(log := s.log + [Wrote(p, id, kind, |s.delivered|)]));
    (t, !h.Breaks?)
  }

  /** An upstream's own request: relayed, its reply written; the failure that ends the call, if any. */
  function AnswerUpstream(s: State, p: Process): (r: (State, Option<Response>))
    ensures |r.0.world| <= |s.world| && r.0.buffer == s.buffer
    ensures r.1.Some? ==> !r.1.value.Received?
  {
    var (t, h) := Next(s);
    if h.Breaks? then (t, Some(ResponseTimeout)) else
      var (u, ok) := Write(t, p, None, Reply);
      (u, if ok then None else Some(ResponseFailed))
  }

  /** `_read_response`: notifications are skipped, the upstream's own requests answered. */
  function ReadResponse(s: State, decode: Decoder, p: Process): (State, Response)
    decreases |s.world|, |s.buffer|
  {
    var (t, line) := ReadLine(s);
    if !line.Got? then (t, if line.LineTimeout? then ResponseTimeout else ResponseFailed)
    else if !decode(line.line).Object? then (t, ResponseFailed)
    else
      var m := decode(line.line).message;
      if IsNotification(m) then ReadResponse(t, decode, p)
      else if IsRequest(m) then
        var (u, failed) := AnswerUpstream(t, p);
        if failed.Some? then (u, failed.value) else ReadResponse(u, decode, p)
      else (t, Received(m))
  }

  /** `_jsonrpc_payload` and `_roundtrip`, whose request takes the id `s.nextId` */
  function Roundtrip(s: State, decode: Decoder, p: Process, kind: Kind): (State, Response) {
    var (t, ok) := Write(s.(nextId := s.nextId + 1), p, Some(s.nextId), kind);
    if ok then ReadResponse(t, decode, p) else (t, ResponseFailed)
  }

  function Unanswered(r: Response): Outcome {
    if r.ResponseTimeout? then TimedOut else Failed
  }

  /** `_initialize_upstream`: the outcome that ends the call, or nothing. */
  function Initialized(s: State, decode: Decoder, p: Process, c: Capabilities): (State, Option<Outcome>) {
    var (t, response) := Roundtrip(s, decode, p, Initialize(c));
    if !response.Received? then (t, Some(Unanswered(response)))
    else if !ResultFromResponse(response.message, s.nextId).Result? then (t, Some(Failed))
    else
      var (u, ok) := Write(t.(log := t.log + [Accepted(p, s.nextId)]), p, None, InitializedNotice);
      if ok then (u.(initialized := true, clientCapabilities := c), None) else (u, Some(Failed))
  }

  /** The poll at the head of `_start`: does the process still run? */
  function Polled(s: State): (State, bool) {
    if s.process.None? then (s, false) else
      var (t, h) := Next(s);
      if t.process.None? then (t, false)
      else if h.Breaks? then (t.(restarts := t.restarts + 1), false)
      else (t, true)
  }

  /** `Popen`: the new process; its stream starts here, behind whatever the buffer still holds. */
  function Forked(s: State): State {
    s.(process := Some(s.spawned), spawned := s.spawned + 1, inherited := s.buffer, bytes := "", delivered := [])
  }

  /** The metadata file of the process just spawned, and what is reset once it is written. */
  function Recorded(s: State): (State, bool) {
    var (t, h) := Next(s);
    if t.process.Some? && h.Breaks? then
      (t.(unrecorded := t.unrecorded[t.process.value := t.initialized]), false)
    else
      var u := t.(initialized := false, buffer := "", inherited := "", bytes := "");
      if u.process.None? then (u, false) else
        var (v, h') := Next(u);
        (v, !h'.Breaks?)
  }

  function Spawned(s: State): (State, bool) {
    var (t, h) := Next(s);
    if h.Breaks? then (t, false) else Recorded(Forked(t))
  }

  /** `_start`: a running process is kept; otherwise another one is spawned. */
  function Started(s: State): (State, bool) {
    var (t, running) := Polled(s);
    if running then (t, true) else Spawned(t)
  }

  datatype Link = Linked(process: Process) | Dropped(outcome: Outcome)

  /** Before the request: initialize now for a listing or when strict. */
  function Prepared(s: State, decode: Decoder, strict: bool, listing: bool, p: Process, c: Capabilities)
    : (State, Link)
  {
    if s.initialized || !(listing || strict) then (s, Linked(p)) else
      var (t, failed) := Initialized(s, decode, p, c);
      (t, if failed.Some? then Dropped(failed.value) else Linked(p))
  }

  /** A cached process must not retain another host's capabilities. */
  function WithCapabilities(s: State, c: Capabilities): State {
    if s.initialized && s.clientCapabilities != c then Stopped(s) else s
  }

  /** The head of `_jsonrpc_request_locked`: the process the request goes to, initialized if it must be. */
  function Connected(s: State, decode: Decoder, strict: bool, listing: bool, c: Capabilities): (State, Link) {
    var (t, ok) := Started(WithCapabilities(s, c));
    if !ok || t.process.None? then (t, Dropped(Failed))
    else Prepared(t, decode, strict, listing, t.process.value, c)
  }

  /** One request and its answer, checked; and whether the upstream said it is not initialized. */
  function Asked(s: State, decode: Decoder, p: Process): (State, Outcome, bool) {
    var (t, response) := Roundtrip(s, decode, p, Call);
    if !response.Received? then (t, Unanswered(response), false)
    else (t, ResultFromResponse(response.message, s.nextId), NotInitialized(response.message))
  }

  /** The upstream refused for want of a handshake: initialize and ask once more. */
  function Retried(s: State, decode: Decoder, p: Process, c: Capabilities): (State, Outcome) {
    var (t, failed) := Initialized(s, decode, p, c);
    if failed.Some? then (t, failed.value) else
      var (u, r, _) := Asked(t, decode, p);
      (u, r)
  }

  /** The request proper, asked again after a late initialization if it was refused. */
  function Exchanged(s: State, decode: Decoder, p: Process, c: Capabilities): (State, Outcome) {
    var (t, r, refused) := Asked(s, decode, p);
    if refused && !t.initialized then Retried(t, decode, p, c) else (t, r)
  }

  /** `_jsonrpc_request_locked` */
  function JsonrpcRequest(s: State, decode: Decoder, strict: bool, listing: bool, c: Capabilities): (State, Outcome) {
    var (t, link) := Connected(s, decode, strict, listing, c);
    if link.Dropped? then (t, link.outcome) else Exchanged(t, decode, link.process, c)
  }

  /** `_reset_after_timeout_locked` */
  function Reset(s: State): State {
    s.(process := None, initialized := false, buffer := "", restarts := s.restarts + 1,
       inherited := "", bytes := "", delivered := [])
  }

  /** `call_tool` and `list_tools`: a timeout resets the session. */
  function Requested(s: State, decode: Decoder, strict: bool, listing: bool, c: Capabilities): (State, Outcome) {
    var (t, r) := JsonrpcRequest(s, decode, strict, listing, c);
    (if r.TimedOut? then Reset(t) else t, r)
  }

  // ---------------------------------------------------------------------------------------
  // What every call keeps
  // ---------------------------------------------------------------------------------------

  /** Delivered lines, each with its newline, and the buffer are what was left over and what was read since. */
  ghost predicate StreamKept(s: State) {
    s.inherited + s.bytes == Framed(s.delivered) + s.buffer && forall l :: l in s.delivered ==> LineFree(l)
  }

  /** The flag was up when `p` was spawned, and stayed up as its metadata file could not be written. */
  predicate Orphan(s: State, p: Process) {
    p in s.unrecorded && s.unrecorded[p]
  }

  /** The initialized flag of `p` stands for a handshake, or for that of a predecessor. */
  ghost predicate FlagStands(s: State, p: Process) {
    Orphan(s, p) || Handshaken(s.log, p, s.clientCapabilities)
  }

  ghost predicate OrphansKnown(s: State) {
    && (forall p :: p in s.unrecorded ==> p < s.spawned)
    && (forall p :: Orphan(s, p) ==> NeverGreeted(s.log, p))
  }

  ghost predicate ProcessKnown(s: State) {
    s.process.Some? ==>
      && s.process.value + 1 == s.spawned
      && (s.initialized ==> FlagStands(s, s.process.value))
      && (Orphan(s, s.process.value) ==> s.initialized)
  }

  /** Ids only grow; flags and processes are as recorded; only an unrecorded process inherits a buffer. */
  ghost predicate Settled(s: State) {
    && IdsGrow(s.log, s.nextId) && Concerns(s.log, s.spawned)
    && OrphansKnown(s) && ProcessKnown(s)
    && (s.inherited != "" ==> s.spawned > 0 && s.spawned - 1 in s.unrecorded)
  }

  ghost predicate Valid(s: State) {
    StreamKept(s) && Settled(s)
  }

  /** Nothing in the buffer was read from an earlier process. */
  predicate NoneStale(s: State) {
    |s.buffer| <= |s.bytes|
  }

  /** The last line delivered, and all that is in the buffer, was read from the process spawned last. */
  predicate OwnLine(s: State) {
    s.delivered != [] && |s.delivered[|s.delivered| - 1]| + 1 + |s.buffer| <= |s.bytes|
  }

  predicate EndsWith(s: string, tail: string) {
    |tail| <= |s| && s[|s| - |tail|..] == tail
  }

  /** Only the stream and the log moved on, and perhaps another thread stopped the process. */
  ghost predicate OnlyTalked(s: State, t: State) {
    && (t.process == s.process || t.process == None) && t.initialized == s.initialized
    && t.clientCapabilities == s.clientCapabilities && t.restarts == s.restarts && t.spawned == s.spawned
    && t.inherited == s.inherited && t.unrecorded == s.unrecorded
    && s.log <= t.log && s.delivered <= t.delivered && (NoneStale(s) ==> NoneStale(t))
  }

  /** Counting bytes is enough: a line is the process's own exactly if what it wrote ends in it and the buffer. */
  lemma OwnLineIff(s: State)
    requires StreamKept(s) && s.delivered != []
    ensures OwnLine(s) <==> EndsWith(s.bytes, s.delivered[|s.delivered| - 1] + "\n" + s.buffer)
  {
    var line, init := s.delivered[|s.delivered| - 1], s.delivered[..|s.delivered| - 1];
    var tail, all := line + "\n" + s.buffer, s.inherited + s.bytes;
    assert all == Framed(init) + tail;
    if |tail| <= |s.bytes| {
      assert s.bytes[|s.bytes| - |tail|..] == all[|all| - |tail|..] == tail;
    }
  }

  lemma TalkedTwice(s: State, t: State, u: State)
    requires OnlyTalked(s, t) && OnlyTalked(t, u)
    ensures OnlyTalked(s, u)
  {
  }

  /** A session that lost its process, and its script, is as good as before. */
  lemma MovedKeeps(s: State, t: State)
    requires Valid(s) && t == s.(world := t.world, process := t.process, restarts := t.restarts)
    requires t.process == s.process || t.process == None
    ensures Valid(t)
  {
  }

  /** The process of a session is the one spawned last, its flag is right for it, and the next one is unknown. */
  lemma ProcessFlagged(s: State)
    requires Valid(s)
    ensures s.spawned !in s.unrecorded
    ensures s.process.Some? ==> var p := s.process.value;
      p + 1 == s.spawned && (s.initialized ==> FlagStands(s, p)) && (Orphan(s, p) ==> s.initialized)
  {
  }

  lemma RecordedInheritsNothing(s: State)
    requires Settled(s) && s.spawned > 0 && s.spawned - 1 !in s.unrecorded
    ensures s.inherited + s.bytes == s.bytes
  {
    hide IdsGrow, Concerns, OrphansKnown, ProcessKnown;
    assert s.inherited == "";
  }

  lemma StreamMovedKeeps(s: State, t: State)
    requires Settled(s) && t == s.(buffer := t.buffer, bytes := t.bytes, delivered := t.delivered)
    ensures Settled(t)
  {
  }

  lemma ChunkKeeps(s: State, data: string)
    requires Valid(s)
    ensures Valid(Filled(s, data)) && OnlyTalked(s, Filled(s, data))
  {
    hide Settled;
    StreamMovedKeeps(s, Filled(s, data));
    ChunkKeepsFraming(s.inherited, s.bytes, s.delivered, s.buffer, data);
  }

  /** The first line leaves the buffer; it was read from this process if nothing in the buffer was stale. */
  lemma TakeKeeps(s: State)
    requires Valid(s) && FirstNewline(s.buffer) < |s.buffer|
    ensures var t := ReadLine(s).0; Valid(t) && OnlyTalked(s, t) && (NoneStale(s) ==> OwnLine(t))
  {
    hide Settled;
    StreamMovedKeeps(s, ReadLine(s).0);
    LineKeepsFraming(s.inherited + s.bytes, s.delivered, s.buffer, FirstNewline(s.buffer));
  }

  /** What one `ReadLine` does to the record. */
  ghost predicate LineRead(s: State, t: State, r: Line) {
    && OnlyTalked(s, t) && t.log == s.log && t.nextId == s.nextId
    && t.delivered == (if r.Got? then s.delivered + [r.line] else s.delivered)
    && (r.Got? && NoneStale(s) ==> OwnLine(t))
  }

  lemma {:induction false} ReadLineKeeps(s: State)
    requires Valid(s)
    ensures Valid(ReadLine(s).0) && LineRead(s, ReadLine(s).0, ReadLine(s).1)
    decreases |s.world|
  {
    hide Valid, OwnLine;
    if FirstNewline(s.buffer) < |s.buffer| {
      TakeKeeps(s);
    } else {
      var (t, h) := Next(s);
      MovedKeeps(s, t);
      if h.Chunk? && h.data != "" {
        ChunkKeeps(t, h.data);
        ReadLineKeeps(Filled(t, h.data));
        LineReadLater(s, t, h.data, ReadLine(s).0, ReadLine(s).1);
      }
    }
  }

  lemma LineReadLater(s: State, t: State, data: string, u: State, r: Line)
    requires t == s.(world := t.world, process := t.process) && (t.process == s.process || t.process == None)
    requires LineRead(Filled(t, data), u, r)
    ensures LineRead(s, u, r)
  {
    assert OnlyTalked(s, Filled(t, data));
    TalkedTwice(s, Filled(t, data), u);
  }

  /** An act about a known process; initialize is written to none that is orphaned. */
  predicate Proper(s: State, a: Act) {
    && a.process < s.spawned
    && (a.Wrote? && a.kind.Initialize? ==> !Orphan(s, a.process))
  }

  lemma LogGrows(s: State, a: Act)
    requires Settled(s) && Proper(s, a) && (IsRequestAct(a) ==> a.id.value < s.nextId && IdsGrow(s.log, a.id.value))
    ensures Settled(s.(log := s.log + [a]))
  {
    var t := s.(log := s.log + [a]);
    if s.process.Some? && s.initialized && !Orphan(s, s.process.value) {
      HandshakeLasts(s.log, t.log, s.process.value, s.clientCapabilities);
    }
    forall p | Orphan(t, p) ensures NeverGreeted(t.log, p) { assert NeverGreeted(s.log, p); }
  }

  lemma WriteKeeps(s: State, p: Process, id: Option<int>, kind: Kind)
    requires Valid(s) && Proper(s, Wrote(p, id, kind, |s.delivered|))
    requires id.Some? ==> id.value < s.nextId && IdsGrow(s.log, id.value)
    ensures var t := Write(s, p, id, kind).0;
      && Valid(t) && OnlyTalked(s, t) && t.log == s.log + [Wrote(p, id, kind, |s.delivered|)]
      && t.nextId == s.nextId && t.delivered == s.delivered
  {
    LogGrows(s, Wrote(p, id, kind, |s.delivered|));
  }

  lemma AnswerKeeps(s: State, p: Process)
    requires Valid(s) && p < s.spawned
    ensures var t := AnswerUpstream(s, p).0;
      && Valid(t) && OnlyTalked(s, t) && LastRequest(t.log) == LastRequest(s.log)
      && t.nextId == s.nextId && t.delivered == s.delivered
  {
    var (t, h) := Next(s);
    if !h.Breaks? {
      WriteKeeps(t, p, None, Reply);
      LastRequestOfAppend(t.log, Wrote(p, None, Reply, |t.delivered|));
    }
  }

  /** `m` is what the last line delivered decodes to. */
  ghost predicate JustDelivered(s: State, decode: Decoder, m: Message) {
    s.delivered != [] && decode(s.delivered[|s.delivered| - 1]) == Object(m)
  }

  /** From `s` to `t` a line was delivered that decodes to `m`, from this process if nothing was stale. */
  ghost predicate Heard(s: State, t: State, decode: Decoder, m: Message) {
    |t.delivered| > |s.delivered| && JustDelivered(t, decode, m) && (NoneStale(s) ==> OwnLine(t))
  }

  lemma {:induction false} ReadResponseKeeps(s: State, decode: Decoder, p: Process)
    requires Valid(s) && p < s.spawned
    ensures var (t, r) := ReadResponse(s, decode, p);
      && Valid(t) && OnlyTalked(s, t) && LastRequest(t.log) == LastRequest(s.log) && t.nextId == s.nextId
      && (r.Received? ==> Heard(s, t, decode, r.message))
    decreases |s.world|, |s.buffer|
  {
    hide Valid, OwnLine, NoneStale, AnswerUpstream, ReadLine;
    var (t, line) := ReadLine(s);
    ReadLineKeeps(s);
    if line.Got? && decode(line.line).Object? {
      var m := decode(line.line).message;
      if IsNotification(m) {
        ReadResponseKeeps(t, decode, p);
      } else if IsRequest(m) {
        AnswerKeeps(t, p);
        var (u, failed) := AnswerUpstream(t, p);
        if failed.None? { ReadResponseKeeps(u, decode, p); }
      }
    }
  }

  lemma RequestWritten(s: State, p: Process, kind: Kind)
    requires Valid(s) && Proper(s, Wrote(p, Some(s.nextId), kind, |s.delivered|))
    ensures var request := Wrote(p, Some(s.nextId), kind, |s.delivered|);
      var t := Write(s.(nextId := s.nextId + 1), p, Some(s.nextId), kind).0;
      && Valid(t) && OnlyTalked(s, t) && t.nextId == s.nextId + 1 && t.delivered == s.delivered
      && t.log == s.log + [request] && LastRequest(t.log) == Some(request)
  {
    WriteKeeps(s.(nextId := s.nextId + 1), p, Some(s.nextId), kind);
    LastRequestOfAppend(s.log, Wrote(p, Some(s.nextId), kind, |s.delivered|));
  }

  lemma RoundtripKeeps(s: State, decode: Decoder, p: Process, kind: Kind)
    requires Valid(s) && Proper(s, Wrote(p, Some(s.nextId), kind, |s.delivered|))
    ensures var (t, r) := Roundtrip(s, decode, p, kind); var request := Wrote(p, Some(s.nextId), kind, |s.delivered|);
      && Valid(t) && OnlyTalked(s, t) && t.nextId == s.nextId + 1
      && s.log + [request] <= t.log && LastRequest(t.log) == Some(request)
      && (r.Received? ==> Heard(s, t, decode, r.message))
  {
    hide Valid, JustDelivered, OwnLine, NoneStale, ReadResponse;
    RequestWritten(s, p, kind);
    var (w, ok) := Write(s.(nextId := s.nextId + 1), p, Some(s.nextId), kind);
    if ok {
      ReadResponseKeeps(w, decode, p);
      TalkedTwice(s, w, ReadResponse(w, decode, p).0);
    }
  }

  /** A session that comes out initialized was handshaken, with this process and these capabilities. */
  lemma InitializedKeeps(s: State, decode: Decoder, p: Process, c: Capabilities)
    requires Valid(s) && p + 1 == s.spawned && !Orphan(s, p)
    ensures var (t, failed) := Initialized(s, decode, p, c);
      && Valid(t) && Same(s, t) && t.nextId == s.nextId + 1
      && s.log + [Wrote(p, Some(s.nextId), Initialize(c), |s.delivered|)] <= t.log
      && (failed.None? ==> t.initialized && t.clientCapabilities == c && Handshaken(t.log, p, c))
      && (failed.Some? ==> t.initialized == s.initialized && !failed.value.Result?)
  {
    hide Valid;
    RoundtripKeeps(s, decode, p, Initialize(c));
    var (t, response) := Roundtrip(s, decode, p, Initialize(c));
    if response.Received? && ResultFromResponse(response.message, s.nextId).Result? {
      HandshakeKeeps(s, t, p, c);
    }
  }

  /** No start happened, and stale bytes did not come in. */
  ghost predicate Same(s: State, t: State) {
    && s.log <= t.log && t.spawned == s.spawned && t.restarts == s.restarts && t.unrecorded == s.unrecorded
    && (t.process == s.process || t.process == None) && (NoneStale(s) ==> NoneStale(t))
  }

  lemma HandshakeKeeps(s: State, t: State, p: Process, c: Capabilities)
    requires Valid(t) && p + 1 == t.spawned
    requires s.log + [Wrote(p, Some(s.nextId), Initialize(c), |s.delivered|)] <= t.log
    ensures var (u, ok) := Write(t.(log := t.log + [Accepted(p, s.nextId)]), p, None, InitializedNotice);
      && Valid(u) && OnlyTalked(t, u) && u.nextId == t.nextId
      && Handshaken(u.log, p, c)
      && Valid(u.(initialized := true, clientCapabilities := c))
  {
    LogGrows(t, Accepted(p, s.nextId));
    var a := t.(log := t.log + [Accepted(p, s.nextId)]);
    WriteKeeps(a, p, None, InitializedNotice);
    var u := Write(a, p, None, InitializedNotice).0;
    assert HandshakeAt(u.log, p, c, |s.log|, |t.log|, |t.log| + 1, s.nextId);
  }

  /** Ids and processes only grow, and at most one start happened. */
  ghost predicate Onward(s: State, t: State) {
    && s.log <= t.log && s.nextId <= t.nextId && s.spawned <= t.spawned <= s.spawned + 1
    && s.restarts <= t.restarts <= s.restarts + 1
  }

  /** A process spawned and recorded: the flag is down and the buffer empty. */
  ghost predicate Clean(s: State) {
    !s.initialized && s.buffer == s.bytes == s.inherited == "" && s.delivered == []
  }

  /** A start keeps the running process as it is, or spawns one that starts clean. */
  lemma StartedKeeps(s: State)
    requires Valid(s)
    ensures var (t, ok) := Started(s);
      && Valid(t) && Onward(s, t) && t.nextId == s.nextId && t.clientCapabilities == s.clientCapabilities
      && (ok && t.spawned == s.spawned ==> s.process.Some? && OnlyTalked(s, t.(restarts := s.restarts)))
      && (ok && t.spawned > s.spawned ==> Clean(t) && t.log == s.log && t.unrecorded == s.unrecorded)
  {
    hide Valid, Polled, Recorded;
    PolledKeeps(s);
    var (t, running) := Polled(s);
    if !running {
      var (u, h) := Next(t);
      MovedKeeps(t, u);
      if !h.Breaks? { RecordedKeeps(u); }
    }
  }

  lemma PolledKeeps(s: State)
    requires Valid(s)
    ensures var (t, running) := Polled(s);
      && Valid(t) && t == s.(world := t.world, process := t.process, restarts := t.restarts)
      && (t.process == s.process || t.process == None) && s.restarts <= t.restarts <= s.restarts + 1
      && (running ==> t.process.Some? && t.restarts == s.restarts)
  {
    hide Valid;
    MovedKeeps(s, Polled(s).0);
  }

  lemma RecordedKeeps(s: State)
    requires Valid(s)
    ensures var (t, ok) := Recorded(Forked(s));
      && Valid(t) && s.log == t.log && t.nextId == s.nextId && t.clientCapabilities == s.clientCapabilities
      && t.restarts == s.restarts && t.spawned == s.spawned + 1
      && (ok ==> Clean(t) && t.unrecorded == s.unrecorded)
  {
    hide IdsGrow, Handshaken;
    assert s.buffer + "" == "" + s.buffer;
    assert NeverGreeted(s.log, s.spawned);
  }

  /** If `p` was orphaned the flag is still up, so nobody greets it. */
  predicate FlagUpIfOrphan(s: State, p: Process) {
    Orphan(s, p) ==> s.initialized
  }

  /** Initialized with these capabilities, and the process spawned last was told of them, unless it was orphaned. */
  ghost predicate Ready(s: State, c: Capabilities) {
    && s.initialized && s.clientCapabilities == c && s.spawned > 0 && FlagStands(s, s.spawned - 1)
  }

  lemma ReadyIff(s: State, c: Capabilities)
    requires Valid(s) && Ready(s, c)
    ensures Handshaken(s.log, s.spawned - 1, c) <==> !Orphan(s, s.spawned - 1)
  {
    if Orphan(s, s.spawned - 1) { NeverGreetedIsNotHandshaken(s.log, s.spawned - 1, c); }
  }

  lemma PreparedKeeps(s: State, decode: Decoder, strict: bool, listing: bool, p: Process, c: Capabilities)
    requires Valid(s) && p + 1 == s.spawned && (s.initialized ==> Ready(s, c)) && FlagUpIfOrphan(s, p)
    ensures var (t, link) := Prepared(s, decode, strict, listing, p, c);
      && Valid(t) && Same(s, t) && s.nextId <= t.nextId && FlagUpIfOrphan(t, p)
      && (link.Dropped? ==> !link.outcome.Result?)
      && (link.Linked? ==> link.process == p)
      && (link.Linked? && (t.initialized || listing || strict) ==> Ready(t, c))
  {
    hide Valid, Handshaken, Ready;
    if !s.initialized && (listing || strict) { InitializedReady(s, decode, p, c); }
  }

  lemma StartedReady(s: State, c: Capabilities)
    requires Valid(s)
    ensures var (t, ok) := Started(WithCapabilities(s, c));
      && Valid(t) && Onward(s, t) && (ok && t.process.Some? ==> StartedWell(s, t, c))
  {
    hide Valid, Started, Handshaken;
    MovedKeeps(s, WithCapabilities(s, c));
    StartedKeeps(WithCapabilities(s, c));
    ProcessFlagged(s);
    ProcessFlagged(Started(WithCapabilities(s, c)).0);
  }

  /** A process is there, the flag is right for it, and nothing is stale that was not before. */
  ghost predicate StartedWell(s: State, t: State, c: Capabilities) {
    && t.process.Some? && t.process.value + 1 == t.spawned
    && (t.initialized ==> Ready(t, c)) && FlagUpIfOrphan(t, t.process.value)
    && (NoneStale(s) || t.spawned > s.spawned ==> NoneStale(t))
    && Replaced(s, t, c)
  }

  /** Another process was spawned if need be, and one that was is recorded. */
  ghost predicate Replaced(s: State, t: State, c: Capabilities) {
    && (!WillStay(s, c) ==> t.spawned > s.spawned)
    && (t.spawned > s.spawned ==> !Orphan(t, t.spawned - 1))
  }

  /** The request may find the running process fit for it. */
  predicate WillStay(s: State, c: Capabilities) {
    s.process.Some? && (s.initialized ==> s.clientCapabilities == c)
  }

  lemma ConnectedKeeps(s: State, decode: Decoder, strict: bool, listing: bool, c: Capabilities)
    requires Valid(s)
    ensures var (t, link) := Connected(s, decode, strict, listing, c);
      && Valid(t) && Onward(s, t)
      && (link.Dropped? ==> !link.outcome.Result?)
      && (link.Linked? ==> link.process + 1 == t.spawned && FlagUpIfOrphan(t, link.process))
      && (link.Linked? && (t.initialized || listing || strict) ==> Ready(t, c))
      && (link.Linked? && (NoneStale(s) || t.spawned > s.spawned) ==> NoneStale(t))
      && (link.Linked? ==> Replaced(s, t, c))
  {
    hide Valid, Started, Prepared, Ready, NoneStale, FlagUpIfOrphan, WithCapabilities;
    StartedReady(s, c);
    var (t, ok) := Started(WithCapabilities(s, c));
    if ok && t.process.Some? { PreparedKeeps(t, decode, strict, listing, t.process.value, c); }
  }

  /**
   `r` answers the last request written, to the process spawned last: a line delivered after that
   request was written decodes to it.
   */
  ghost predicate Answered(s: State, decode: Decoder, r: Outcome, next: int)
    requires r.Result?
  {
    && r.id >= next && s.spawned > 0
    && LastRequest(s.log).Some? && Said(LastRequest(s.log).value, s.spawned - 1, Some(r.id), Call)
    && LastRequest(s.log).value.heard < |s.delivered|
    && exists m :: JustDelivered(s, decode, m) && ResultFromResponse(m, r.id) == r
  }

  lemma AskedKeeps(s: State, decode: Decoder, p: Process)
    requires Valid(s) && p + 1 == s.spawned
    ensures var (t, r, refused) := Asked(s, decode, p);
      && Valid(t) && OnlyTalked(s, t) && t.nextId == s.nextId + 1
      && (r.Result? ==> Answered(t, decode, r, s.nextId) && (NoneStale(s) ==> OwnLine(t)))
      && (refused ==> r == Failed)
      && (forall c :: Ready(s, c) ==> Ready(t, c))
  {
    hide Valid, Handshaken, NoneStale, Roundtrip;
    RoundtripKeeps(s, decode, p, Call);
    var t := Roundtrip(s, decode, p, Call).0;
    forall c | Ready(s, c) ensures Ready(t, c) {
      if !Orphan(s, p) { HandshakeLasts(s.log, t.log, p, c); }
    }
  }

  lemma RetriedKeeps(s: State, decode: Decoder, p: Process, c: Capabilities)
    requires Valid(s) && p + 1 == s.spawned && !Orphan(s, p)
    ensures var (t, r) := Retried(s, decode, p, c);
      && Valid(t) && Same(s, t) && s.nextId <= t.nextId
      && (r.Result? ==> Answered(t, decode, r, s.nextId) && Ready(t, c) && (NoneStale(s) ==> OwnLine(t)))
  {
    hide Valid;
    InitializedReady(s, decode, p, c);
    var (t, failed) := Initialized(s, decode, p, c);
    if failed.None? { AskedKeeps(t, decode, p); }
  }

  lemma InitializedReady(s: State, decode: Decoder, p: Process, c: Capabilities)
    requires Valid(s) && p + 1 == s.spawned && !Orphan(s, p)
    ensures var (t, failed) := Initialized(s, decode, p, c);
      && Valid(t) && Same(s, t) && s.nextId <= t.nextId
      && (failed.None? ==> Ready(t, c)) && (failed.Some? ==> !failed.value.Result?)
  {
    hide Valid;
    InitializedKeeps(s, decode, p, c);
  }

  lemma ExchangedKeeps(s: State, decode: Decoder, p: Process, c: Capabilities)
    requires Valid(s) && p + 1 == s.spawned && FlagUpIfOrphan(s, p) && (s.initialized ==> Ready(s, c))
    ensures var (t, r) := Exchanged(s, decode, p, c);
      && Valid(t) && Same(s, t) && s.nextId <= t.nextId
      && (r.Result? ==> Answered(t, decode, r, s.nextId) && (NoneStale(s) ==> OwnLine(t)))
      && (r.Result? && (s.initialized || t.initialized) ==> Ready(t, c))
  {
    hide Valid;
    AskedKeeps(s, decode, p);
    var (t, r, refused) := Asked(s, decode, p);
    if refused && !t.initialized { RetriedKeeps(t, decode, p, c); }
  }

  lemma RequestKeeps(s: State, decode: Decoder, strict: bool, listing: bool, c: Capabilities)
    requires Valid(s)
    ensures var (t, r) := JsonrpcRequest(s, decode, strict, listing, c);
      && Valid(t) && Onward(s, t)
      && (r.Result? ==> Answered(t, decode, r, s.nextId) && Replaced(s, t, c))
      && (r.Result? && (t.initialized || listing || strict) ==> Ready(t, c))
      && (r.Result? && (NoneStale(s) || !WillStay(s, c) || t.spawned > s.spawned) ==> OwnLine(t))
  {
    hide Valid, Answered, Connected, Exchanged, OwnLine, NoneStale, WillStay, FlagUpIfOrphan, FlagStands;
    ConnectedKeeps(s, decode, strict, listing, c);
    var (t, link) := Connected(s, decode, strict, listing, c);
    if link.Linked? {
      ExchangedKeeps(t, decode, link.process, c);
      var (u, r) := Exchanged(t, decode, link.process, c);
      AnsweredSince(u, decode, r, t.nextId, s.nextId);
    }
  }

  lemma AnsweredSince(s: State, decode: Decoder, r: Outcome, next: int, earlier: int)
    requires earlier <= next
    ensures r.Result? && Answered(s, decode, r, next) ==> Answered(s, decode, r, earlier)
  {
  }

  /**
   A result answers the last request written, to the process spawned last, with a line delivered after
   it. That line was read from that process unless the buffer held stale bytes before the request and no
   other process was spawned for it. Under strict initialization, for a listing, and whenever the session
   is initialized, the process was handshaken with these capabilities exactly if it is no orphan.
   */
  lemma JsonrpcRequestKeeps(s: State, decode: Decoder, strict: bool, listing: bool, c: Capabilities)
    requires Valid(s)
    ensures var (t, r) := JsonrpcRequest(s, decode, strict, listing, c);
      && Valid(t) && Onward(s, t)
      && (r.Result? ==> Answered(t, decode, r, s.nextId))
      && (r.Result? && (NoneStale(s) || !WillStay(s, c) || t.spawned > s.spawned) ==> OwnLine(t))
      && (r.Result? && (t.initialized || listing || strict) ==>
            && t.initialized && t.clientCapabilities == c
            && (Handshaken(t.log, t.spawned - 1, c) <==> !Orphan(t, t.spawned - 1)))
  {
    hide Valid;
    RequestKeeps(s, decode, strict, listing, c);
    var (t, r) := JsonrpcRequest(s, decode, strict, listing, c);
    if r.Result? && (t.initialized || listing || strict) { ReadyIff(t, c); }
  }

  // ---------------------------------------------------------------------------------------
  // Whose answer a result is
  // ---------------------------------------------------------------------------------------

  /** Whatever happens and whatever lines mean, a result of this request is read from the process it went to. */
  ghost predicate ResultsAreOwn(s: State, c: Capabilities) {
    forall world, decode, strict, listing :: ResultIsOwn(s.(world := world), decode, strict, listing, c)
  }

  ghost predicate ResultIsOwn(s: State, decode: Decoder, strict: bool, listing: bool, c: Capabilities) {
    var (t, r) := Requested(s, decode, strict, listing, c); r.Result? ==> OwnLine(t)
  }

  /**
   A result can only be the process's own answer if, and only if, the request has to start another
   process or the buffer holds nothing that was read before this one was spawned.
   */
  lemma ResultsAreOwnIff(s: State, c: Capabilities)
    requires Valid(s)
    ensures ResultsAreOwn(s, c) <==> NoneStale(s) || !WillStay(s, c)
  {
    if NoneStale(s) || !WillStay(s, c) {
      forall world, decode, strict, listing ensures ResultIsOwn(s.(world := world), decode, strict, listing, c) {
        RequestKeeps(s.(world := world), decode, strict, listing, c);
      }
    } else {
      StaleAnswer(s, c);
    }
  }

  /** A response with an empty result. */
  function Answering(id: int): Message {
    Message(Some(id), true, false, false, None, Some(""))
  }

  lemma StaleAnswer(s: State, c: Capabilities)
    requires Valid(s) && !NoneStale(s) && WillStay(s, c)
    ensures !ResultsAreOwn(s, c)
  {
    hide Valid, Roundtrip;
    var decode := (line: string) => Object(Answering(s.nextId));
    var chunk := if FirstNewline(s.buffer) < |s.buffer| then [] else [Chunk("\n")];
    var start := s.(world := [Works, Works] + chunk);
    var t := s.(world := [Works] + chunk);
    assert start.world[1..] == t.world;
    MovedKeeps(s, start);
    MovedKeeps(s, t);
    assert Connected(start, decode, false, false, c) == (t, Linked(s.process.value));
    StaleRoundtrip(t, decode, s.process.value, Answering(s.nextId));
    var (u, r) := Requested(start, decode, false, false, c);
    assert r == Result(s.nextId, "");
    RequestKeeps(start, decode, false, false, c);
    assert !ResultIsOwn(start, decode, false, false, c);
  }

  lemma StaleRoundtrip(s: State, decode: Decoder, p: Process, m: Message)
    requires Valid(s) && !NoneStale(s) && (forall line :: decode(line) == Object(m))
    requires !IsNotification(m) && !IsRequest(m)
    requires s.world == [Works] + if FirstNewline(s.buffer) < |s.buffer| then [] else [Chunk("\n")]
    ensures var (t, r) := Roundtrip(s, decode, p, Call);
      && r == Received(m) && t.delivered != []
      && |t.delivered[|t.delivered| - 1]| + 1 + |t.buffer| > |t.bytes|
  {
    var w := Write(s.(nextId := s.nextId + 1), p, Some(s.nextId), Call).0;
    assert w.buffer == s.buffer && w.bytes == s.bytes && w.world == s.world[1..];
    if FirstNewline(s.buffer) == |s.buffer| {
      var filled := Filled(Next(w).0, "\n");
      assert s.buffer[..|s.buffer|] == s.buffer;
      FirstNewlineIs(s.buffer, "\n");
      assert ReadLine(w) == ReadLine(filled);
    }
  }

  // ---------------------------------------------------------------------------------------
  // Runs
  // ---------------------------------------------------------------------------------------

  datatype Event = Ask(listing: bool, capabilities: Capabilities) | EnsureRunning | Stop

  function Step(s: State, decode: Decoder, strict: bool, e: Event): State {
    match e
    case Ask(listing, c) => Requested(s, decode, strict, listing, c).0
    case EnsureRunning => Started(s).0
    case Stop => Stopped(s)
  }

  function Run(world: seq<Happening>, decode: Decoder, strict: bool, es: seq<Event>): State {
    if es == [] then Fresh(world) else Step(Run(world, decode, strict, es[..|es| - 1]), decode, strict, es[|es| - 1])
  }

  lemma StepKeepsValid(s: State, decode: Decoder, strict: bool, e: Event)
    requires Valid(s)
    ensures Valid(Step(s, decode, strict, e)) && s.log <= Step(s, decode, strict, e).log
  {
    match e {
      case Ask(listing, c) => RequestKeeps(s, decode, strict, listing, c);
      case EnsureRunning => StartedKeeps(s);
      case Stop =>
    }
  }

  /** In every run, under every script: framing is kept and ids are never used twice, restarts included. */
  lemma {:induction false} RunsKeepValid(world: seq<Happening>, decode: Decoder, strict: bool, es: seq<Event>)
    ensures Valid(Run(world, decode, strict, es))
  {
    if es != [] {
      RunsKeepValid(world, decode, strict, es[..|es| - 1]);
      StepKeepsValid(Run(world, decode, strict, es[..|es| - 1]), decode, strict, es[|es| - 1]);
    }
  }

  /**
   In every run the initialized flag of a running process means a completed handshake with that very
   process, unless, and exactly unless, the process was spawned with the flag up and its metadata file
   could not be written.
   */
  lemma FlagMeansHandshakeIff(world: seq<Happening>, decode: Decoder, strict: bool, es: seq<Event>)
    ensures var s := Run(world, decode, strict, es);
      s.initialized && s.process.Some? ==>
        (Handshaken(s.log, s.process.value, s.clientCapabilities) <==> !Orphan(s, s.process.value))
  {
    hide Run;
    RunsKeepValid(world, decode, strict, es);
    var s := Run(world, decode, strict, es);
    if s.initialized && s.process.Some? { ReadyIff(s, s.clientCapabilities); }
  }

  /**
   In every run the delivered lines are the first lines of what was left over from before the spawn and
   what was read since, however it was chunked; of a process that was recorded nothing was left over.
   */
  lemma RunsDeliverTheStream(world: seq<Happening>, decode: Decoder, strict: bool, es: seq<Event>)
    ensures var s := Run(world, decode, strict, es); var stream := s.inherited + s.bytes;
      && s.delivered <= Lines(stream) && (LineFree(s.buffer) ==> s.delivered == Lines(stream))
      && (s.spawned > 0 && s.spawned - 1 !in s.unrecorded ==> stream == s.bytes)
  {
    hide Run, IdsGrow, Concerns, OrphansKnown, ProcessKnown, Framed, Lines;
    RunsKeepValid(world, decode, strict, es);
    var s := Run(world, decode, strict, es);
    DeliveredLinesAreTheStream(s.delivered, s.buffer);
    if s.spawned > 0 && s.spawned - 1 !in s.unrecorded { RecordedInheritsNothing(s); }
  }

  /**
   After a timeout the session forgets its process: the next result comes from another one, read from
   it alone, and if the session is initialized then, after a handshake with it.
   */
  lemma TimeoutMakesAFreshStart(s: State, decode: Decoder, strict: bool, listing: bool, c: Capabilities,
                                world: seq<Happening>, listing': bool, c': Capabilities)
    requires Valid(s) && Requested(s, decode, strict, listing, c).1.TimedOut?
    ensures var t := Requested(s, decode, strict, listing, c).0;
      var (u, r) := Requested(t.(world := world), decode, strict, listing', c');
      && t.process == None && !t.initialized && t.buffer == "" && t.restarts > s.restarts
      && (r.Result? ==>
            && u.spawned == t.spawned + 1 && OwnLine(u) && Answered(u, decode, r, t.nextId)
            && (u.initialized ==> Handshaken(u.log, u.spawned - 1, c')))
  {
    hide Requested, Valid;
    TimeoutResets(s, decode, strict, listing, c);
    var t := Requested(s, decode, strict, listing, c).0;
    ValidElsewhere(t, world);
    StoppedStartsAfresh(t.(world := world), decode, strict, listing', c');
  }

  lemma TimeoutResets(s: State, decode: Decoder, strict: bool, listing: bool, c: Capabilities)
    requires Valid(s) && Requested(s, decode, strict, listing, c).1.TimedOut?
    ensures var t := Requested(s, decode, strict, listing, c).0;
      Valid(t) && t.process == None && !t.initialized && t.buffer == "" && t.restarts > s.restarts
  {
    RequestKeeps(s, decode, strict, listing, c);
  }

  lemma ValidElsewhere(s: State, world: seq<Happening>)
    requires Valid(s)
    ensures Valid(s.(world := world))
  {
  }

  lemma StoppedStartsAfresh(s: State, decode: Decoder, strict: bool, listing: bool, c: Capabilities)
    requires Valid(s) && s.process == None
    ensures var (u, r) := Requested(s, decode, strict, listing, c);
      r.Result? ==>
        && u.spawned == s.spawned + 1 && OwnLine(u) && Answered(u, decode, r, s.nextId)
        && (u.initialized ==> Handshaken(u.log, u.spawned - 1, c))
  {
    RequestKeeps(s, decode, strict, listing, c);
    var (u, r) := Requested(s, decode, strict, listing, c);
    if r.Result? && u.initialized { ReadyIff(u, c); }
  }

  // ---------------------------------------------------------------------------------------
  // A run in which a dead process answers for its successor
  // ---------------------------------------------------------------------------------------

  /**
   A listing of a healthy process, which sends a line too much; it dies, and the metadata file of its
   successor cannot be written; one more listing.
   */
  const ADOPTION := [Works, Works, Works] + ([Works, Chunk("i" + "\n" + "")] + AFTER_GREETING)
  const AFTER_GREETING := [Works] + ([Works, Chunk("c" + "\n" + "x\n")] + AFTER_LISTING)
  const AFTER_LISTING := [Breaks, Works, Breaks, Works, Works]

  const LISTINGS := [Ask(true, map[]), EnsureRunning, Ask(true, map[])]

  function Numbered(line: string): Decoded {
    Object(Answering(if line == "i" then 0 else if line == "c" then 1 else 2))
  }

  const SERVED := State(
    Some(0), true, map[], "x\n", 2, 0, 1, AFTER_LISTING,
    [Wrote(0, Some(0), Initialize(map[]), 0), Accepted(0, 0), Wrote(0, None, InitializedNotice, 1),
     Wrote(0, Some(1), Call, 1)],
    "i\nc\nx\n", ["i", "c"], "", map[])

  const ADOPTED := SERVED.(
    process := Some(1), restarts := 1, spawned := 2, world := [Works, Works],
    bytes := "", delivered := [], inherited := "x\n", unrecorded := map[1 := true])

  /** A request works and its response arrives, with more behind it. */
  lemma Arrives(s: State, decode: Decoder, p: Process, kind: Kind, line: string, rest: string, tail: seq<Happening>,
                m: Message)
    requires s.buffer == "" && s.world == [Works, Chunk(line + "\n" + rest)] + tail && LineFree(line)
    requires decode(line) == Object(m) && !IsNotification(m) && !IsRequest(m)
    ensures Roundtrip(s, decode, p, kind) == (s.(
      nextId := s.nextId + 1, world := tail, log := s.log + [Wrote(p, Some(s.nextId), kind, |s.delivered|)],
      buffer := rest, bytes := s.bytes + (line + "\n" + rest), delivered := s.delivered + [line]), Received(m))
  {
    var w := Write(s.(nextId := s.nextId + 1), p, Some(s.nextId), kind).0;
    assert s.world[1..] == [Chunk(line + "\n" + rest)] + tail && s.world[2..] == tail;
    var data := line + "\n" + rest;
    assert data == line + ("\n" + rest);
    FirstNewlineIs(line, "\n" + rest);
    assert data[..|line|] == line && data[|line| + 1..] == rest;
    assert w.buffer + data == data;
    assert ReadLine(w) == ReadLine(Filled(Next(w).0, data));
  }

  /** The first process is up, and not yet spoken to. */
  const STARTED := Fresh([Works, Chunk("i" + "\n" + "")] + AFTER_GREETING).(process := Some(0), spawned := 1)

  const GREETED := STARTED.(
    world := [Works, Chunk("c" + "\n" + "x\n")] + AFTER_LISTING, nextId := 1, initialized := true,
    bytes := "i\n", delivered := ["i"],
    log := [Wrote(0, Some(0), Initialize(map[]), 0), Accepted(0, 0), Wrote(0, None, InitializedNotice, 1)])

  lemma FirstIsStarted()
    ensures Started(Fresh(ADOPTION)) == (STARTED, true)
  {
    assert ADOPTION[1..][1..][1..] == STARTED.world;
  }

  lemma FirstIsGreeted()
    ensures Initialized(STARTED, Numbered, 0, map[]) == (GREETED, None)
  {
    hide Roundtrip;
    Arrives(STARTED, Numbered, 0, Initialize(map[]), "i", "", AFTER_GREETING, Answering(0));
    assert AFTER_GREETING[1..] == GREETED.world;
    var t := Roundtrip(STARTED, Numbered, 0, Initialize(map[])).0;
    assert t.bytes == "i\n" && t.delivered == ["i"] && t.log == GREETED.log[..1];
    var u := Write(t.(log := t.log + [Accepted(0, 0)]), 0, None, InitializedNotice).0;
    assert u.log == GREETED.log && u.world == GREETED.world;
    assert u.(initialized := true) == GREETED;
  }

  lemma ListingIsServed()
    ensures Requested(Fresh(ADOPTION), Numbered, false, true, map[]) == (SERVED, Result(1, ""))
  {
    hide Started, Initialized, Roundtrip;
    FirstIsStarted();
    FirstIsGreeted();
    Arrives(GREETED, Numbered, 0, Call, "c", "x\n", AFTER_LISTING, Answering(1));
    var t := Roundtrip(GREETED, Numbered, 0, Call).0;
    assert t.bytes == SERVED.bytes && t.delivered == SERVED.delivered && t.log == SERVED.log;
    assert Connected(Fresh(ADOPTION), Numbered, false, true, map[]) == (GREETED, Linked(0));
  }

  lemma SuccessorIsAdopted()
    ensures Started(SERVED).0 == ADOPTED
  {
  }

  lemma SuccessorIsNeverGreeted()
    ensures !Handshaken(ADOPTED.log, 1, ADOPTED.clientCapabilities)
  {
    NeverGreetedIsNotHandshaken(ADOPTED.log, 1, map[]);
  }

  lemma LeftoverIsServed()
    ensures var (t, r) := Requested(ADOPTED, Numbered, false, true, map[]);
      r == Result(2, "") && t.spawned == 2 && t.bytes == "" && t.delivered == ["x"]
  {
    var t := Write(ADOPTED.(nextId := 3, world := [Works]), 1, Some(2), Call).0;
    FirstNewlineIs("x", "\n");
    assert t.buffer == "x" + "\n";
  }

  /**
   The promises about the handshake and about answers both fail in a run: the successor counts as
   initialized although nothing was ever said to it, and what it is asked is answered by a line that its
   predecessor left in the buffer, while it wrote nothing itself.
   */
  lemma PredecessorAnswersForItsSuccessor()
    ensures var s := Run(ADOPTION, Numbered, false, LISTINGS[..2]);
      && s.process == Some(1) && s.initialized && Orphan(s, 1) && !Handshaken(s.log, 1, s.clientCapabilities)
      && Requested(s, Numbered, false, true, map[]).1 == Result(2, "")
    ensures var t := Run(ADOPTION, Numbered, false, LISTINGS);
      t.spawned == 2 && t.bytes == "" && t.delivered == ["x"] && !OwnLine(t)
  {
    hide Requested, Started, Handshaken, NeverGreeted;
    var es := LISTINGS;
    assert es[..1] == [es[0]] && es[..2][..1] == es[..1] && es[..1][..0] == [] && es[..3] == es;
    assert Run(ADOPTION, Numbered, false, es) == Step(Run(ADOPTION, Numbered, false, es[..2]), Numbered, false, es[2]);
    ListingIsServed();
    assert Run(ADOPTION, Numbered, false, es[..1]) == SERVED;
    SuccessorIsAdopted();
    assert Run(ADOPTION, Numbered, false, es[..2]) == ADOPTED;
    LeftoverIsServed();
    SuccessorIsNeverGreeted();
  }

  function Concat(chunks: seq<string>): string {
    if chunks == [] then "" else chunks[0] + Concat(chunks[1..])
  }

  /** A line comes out the same however the bytes that hold it were cut into chunks. */
  lemma {:induction false} ChunkingDoesNotMatter(s: State, chunks: seq<string>)
    requires |s.world| == |chunks|
    requires forall i :: 0 <= i < |chunks| ==> s.world[i] == Chunk(chunks[i]) && chunks[i] != ""
    requires '\n' in s.buffer + Concat(chunks)
    ensures var all := s.buffer + Concat(chunks); ReadLine(s).1 == Got(all[..FirstNewline(all)])
    decreases |chunks|
  {
    var all, n := s.buffer + Concat(chunks), FirstNewline(s.buffer);
    if n < |s.buffer| {
      var rest := s.buffer[n..] + Concat(chunks);
      assert all == s.buffer[..n] + rest && rest[0] == '\n';
      FirstNewlineIs(s.buffer[..n], rest);
    } else {
      assert s.buffer[..n] == s.buffer;
      assert s.buffer + "" == s.buffer;
      var t := Next(s).0;
      var next := Filled(t, chunks[0]);
      assert next.buffer + Concat(chunks[1..]) == all;
      ChunkingDoesNotMatter(next, chunks[1..]);
    }
  }

  /** Of a whole line in one chunk, a response is what it decodes to. */
  lemma HealthyRead(s: State, decode: Decoder, p: Process, line: string, m: Message)
    requires s.buffer == "" && s.world == [Chunk(line + "\n")] && LineFree(line)
    requires decode(line) == Object(m) && !IsNotification(m) && !IsRequest(m)
    ensures ReadResponse(s, decode, p).1 == Received(m)
  {
    var all := line + "\n";
    var chunks: seq<string> := [all];
    assert chunks[1..] == [] && Concat(chunks) == all && s.buffer + all == all;
    assert all[|line|] == '\n';
    ChunkingDoesNotMatter(s, chunks);
    FirstNewlineIs(line, "\n");
    assert all[..|line|] == line;
  }

  /** An initialized session over a healthy process: one request, one matching response, its result. */
  lemma HealthyCallReturns(s: State, decode: Decoder, strict: bool, listing: bool, line: string, m: Message)
    requires s.process.Some? && s.initialized && s.buffer == ""
    requires s.world == [Works, Works, Chunk(line + "\n")] && LineFree(line)
    requires decode(line) == Object(m) && !IsNotification(m) && !IsRequest(m)
    requires m.id == Some(s.nextId) && m.error == None && m.result.Some?
    ensures Requested(s, decode, strict, listing, s.clientCapabilities).1 == Result(s.nextId, m.result.value)
  {
    var c, p := s.clientCapabilities, s.process.value;
    var t := s.(world := s.world[1..]);
    assert Connected(s, decode, strict, listing, c) == (t, Linked(p));
    HealthyRoundtrip(t, decode, p, line, m);
  }

  lemma HealthyRoundtrip(s: State, decode: Decoder, p: Process, line: string, m: Message)
    requires s.buffer == "" && s.world == [Works, Chunk(line + "\n")] && LineFree(line)
    requires decode(line) == Object(m) && !IsNotification(m) && !IsRequest(m)
    ensures Roundtrip(s, decode, p, Call).1 == Received(m)
  {
    var u := Write(s.(nextId := s.nextId + 1), p, Some(s.nextId), Call).0;
    assert s.world[1..] == [Chunk(line + "\n")];
    HealthyRead(u, decode, p, line, m);
  }

  // ---------------------------------------------------------------------------------------
  // Whole exchanges
  // ---------------------------------------------------------------------------------------

  /** A response to `id` that carries the result `value`. */
  predicate Grants(m: Message, id: int, value: string) {
    m.hasId && !m.hasMethod && !m.methodIsString && m.id == Some(id) && m.error == None && m.result == Some(value)
  }

  /** A response with an error that says the upstream is not initialized. */
  predicate Refuses(m: Message) {
    m.hasId && !m.hasMethod && !m.methodIsString && m.error == Some(true)
  }

  /** The script of a request that is written and answered by one line. */
  function Answer(line: string): seq<Happening> {
    [Works, Chunk(line + "\n")]
  }

  lemma LineArrives(s: State, decode: Decoder, p: Process, kind: Kind, line: string, tail: seq<Happening>, m: Message)
    requires s.buffer == "" && s.world == Answer(line) + tail && LineFree(line)
    requires decode(line) == Object(m) && !m.hasMethod && !m.methodIsString
    ensures Roundtrip(s, decode, p, kind) == (s.(
      nextId := s.nextId + 1, world := tail, log := s.log + [Wrote(p, Some(s.nextId), kind, |s.delivered|)],
      bytes := s.bytes + (line + "\n"), delivered := s.delivered + [line]), Received(m))
  {
    assert line + "\n" + "" == line + "\n";
    Arrives(s, decode, p, kind, line, "", tail, m);
  }

  lemma GreetingArrives(s: State, decode: Decoder, p: Process, c: Capabilities, line: string, tail: seq<Happening>,
                        m: Message)
    requires s.buffer == "" && s.world == Answer(line) + ([Works] + tail) && LineFree(line)
    requires decode(line) == Object(m) && m.result.Some? && Grants(m, s.nextId, m.result.value)
    ensures Initialized(s, decode, p, c) == (s.(
      nextId := s.nextId + 1, world := tail, initialized := true, clientCapabilities := c,
      log := s.log + Handshake(p, s.nextId, c, |s.delivered|),
      bytes := s.bytes + (line + "\n"), delivered := s.delivered + [line]), None)
  {
    hide Roundtrip;
    LineArrives(s, decode, p, Initialize(c), line, [Works] + tail, m);
    var t := Roundtrip(s, decode, p, Initialize(c)).0;
    var u := Write(t.(log := t.log + [Accepted(p, s.nextId)]), p, None, InitializedNotice).0;
    assert ([Works] + tail)[1..] == tail;
    assert u.log == s.log + Handshake(p, s.nextId, c, |s.delivered|);
  }

  /** What a handshake leaves in the log. */
  function Handshake(p: Process, id: int, c: Capabilities, heard: nat): seq<Act> {
    [Wrote(p, Some(id), Initialize(c), heard), Accepted(p, id), Wrote(p, None, InitializedNotice, heard + 1)]
  }

  lemma HandshakeInside(before: seq<Act>, p: Process, id: int, c: Capabilities, heard: nat, after: seq<Act>)
    ensures Handshaken(before + Handshake(p, id, c, heard) + after, p, c)
  {
    var n := |before|;
    assert HandshakeAt(before + Handshake(p, id, c, heard) + after, p, c, n, n + 1, n + 2, id);
  }

  /**
   A call of an uninitialized session that the upstream refuses for want of a handshake: the session
   initializes, asks once more and returns the second answer, as its third request.
   */
  lemma LateInitializationReturns(s: State, decode: Decoder, c: Capabilities, refusal: string, greeting: string,
                                  line: string, m0: Message, m1: Message, m2: Message)
    requires s.process.Some? && !s.initialized && s.buffer == ""
    requires LineFree(refusal) && LineFree(greeting) && LineFree(line)
    requires s.world == [Works] + (Answer(refusal) + (Answer(greeting) + ([Works] + Answer(line))))
    requires decode(refusal) == Object(m0) && Refuses(m0)
    requires decode(greeting) == Object(m1) && m1.result.Some? && Grants(m1, s.nextId + 1, m1.result.value)
    requires decode(line) == Object(m2) && m2.result.Some? && Grants(m2, s.nextId + 2, m2.result.value)
    ensures var p := s.process.value; var (t, r) := Requested(s, decode, false, false, c);
      && r == Result(s.nextId + 2, m2.result.value)
      && t.initialized && t.clientCapabilities == c && t.process == s.process && Handshaken(t.log, p, c)
  {
    hide Initialized, Roundtrip, Handshaken;
    var p := s.process.value;
    var rest := Answer(greeting) + ([Works] + Answer(line));
    var t := s.(world := Answer(refusal) + rest);
    assert s.world[1..] == t.world;
    assert Connected(s, decode, false, false, c) == (t, Linked(p));
    LineArrives(t, decode, p, Call, refusal, rest, m0);
    var (u, r, refused) := Asked(t, decode, p);
    assert refused && !u.initialized && u.world == rest;
    GreetingArrives(u, decode, p, c, greeting, Answer(line), m1);
    var v := Initialized(u, decode, p, c).0;
    assert v.world == Answer(line) + [];
    LineArrives(v, decode, p, Call, line, [], m2);
    HandshakeInside(u.log, p, u.nextId, c, |u.delivered|, [Wrote(p, Some(v.nextId), Call, |v.delivered|)]);
  }

  /** A listing, or a call under strict initialization: the handshake comes first, the request is the second. */
  lemma EarlyInitializationReturns(s: State, decode: Decoder, strict: bool, listing: bool, c: Capabilities,
                                   greeting: string, line: string, m1: Message, m2: Message)
    requires s.process.Some? && !s.initialized && s.buffer == "" && (strict || listing)
    requires LineFree(greeting) && LineFree(line)
    requires s.world == [Works] + (Answer(greeting) + ([Works] + Answer(line)))
    requires decode(greeting) == Object(m1) && m1.result.Some? && Grants(m1, s.nextId, m1.result.value)
    requires decode(line) == Object(m2) && m2.result.Some? && Grants(m2, s.nextId + 1, m2.result.value)
    ensures var p := s.process.value; var (t, r) := Requested(s, decode, strict, listing, c);
      && r == Result(s.nextId + 1, m2.result.value)
      && t.initialized && t.clientCapabilities == c && t.process == s.process && Handshaken(t.log, p, c)
  {
    hide Initialized, Roundtrip, Handshaken;
    var p := s.process.value;
    var t := s.(world := Answer(greeting) + ([Works] + Answer(line)));
    assert s.world[1..] == t.world;
    GreetingArrives(t, decode, p, c, greeting, Answer(line), m1);
    var v := Initialized(t, decode, p, c).0;
    assert Connected(s, decode, strict, listing, c) == (v, Linked(p));
    assert v.world == Answer(line) + [];
    LineArrives(v, decode, p, Call, line, [], m2);
    HandshakeInside(t.log, p, t.nextId, c, |t.delivered|, [Wrote(p, Some(v.nextId), Call, |v.delivered|)]);
  }

  /**
   From every state: what follows the answer to the request is an initialize to the same process, exactly
   if the answer says it is not initialized and the session is not; after any other answer, an error
   included, nothing more is written.
   */
  lemma RefusalIsFollowedByInitialize(s: State, decode: Decoder, strict: bool, listing: bool, c: Capabilities)
    requires Valid(s) && Connected(s, decode, strict, listing, c).1.Linked?
    ensures var (t, link) := Connected(s, decode, strict, listing, c);
      var (u, answer) := Roundtrip(t, decode, link.process, Call);
      var w := Requested(s, decode, strict, listing, c).0;
      if answer.Received? && answer.message.error == Some(true) && !u.initialized
      then u.log + [Wrote(link.process, Some(u.nextId), Initialize(c), |u.delivered|)] <= w.log
      else w.log == u.log
  {
    hide Valid, Initialized, Connected;
    ConnectedKeeps(s, decode, strict, listing, c);
    var (t, link) := Connected(s, decode, strict, listing, c);
    AskedKeeps(t, decode, link.process);
    var (u, r, refused) := Asked(t, decode, link.process);
    if refused && !u.initialized {
      InitializedKeeps(u, decode, link.process, c);
      var (v, failed) := Initialized(u, decode, link.process, c);
      if failed.None? { AskedKeeps(v, decode, link.process); }
    }
  }

  // ---------------------------------------------------------------------------------------
  // What is read for a response
  // ---------------------------------------------------------------------------------------

  /** A line as it arrives: a notification, a request of the upstream's own, or anything else. */
  datatype Incoming = Notice(line: string) | Demand(line: string)

  /** Notifications come alone; after a demand it is relayed and its reply written. */
  function Interlude(before: seq<Incoming>): seq<Happening> {
    if before == [] then [] else
      (if before[0].Notice? then [Chunk(before[0].line + "\n")] else [Chunk(before[0].line + "\n"), Works, Works]) +
      Interlude(before[1..])
  }

  predicate Meant(decode: Decoder, i: Incoming) {
    && LineFree(i.line) && decode(i.line).Object?
    && var m := decode(i.line).message;
       if i.Notice? then !m.hasId && m.methodIsString else m.hasId && m.hasMethod
  }

  function Demands(before: seq<Incoming>): nat {
    if before == [] then 0 else (if before[0].Demand? then 1 else 0) + Demands(before[1..])
  }

  function Replies(log: seq<Act>, p: Process): nat {
    if log == [] then 0 else
      Replies(log[..|log| - 1], p) + if Said(log[|log| - 1], p, None, Reply) then 1 else 0
  }

  lemma TakesLine(s: State, line: string, tail: seq<Happening>)
    requires s.buffer == "" && s.world == [Chunk(line + "\n")] + tail && LineFree(line)
    ensures ReadLine(s) == (s.(
      world := tail, bytes := s.bytes + (line + "\n"), delivered := s.delivered + [line]), Got(line))
  {
    var data := line + "\n";
    FirstNewlineIs(line, "\n");
    assert data[..|line|] == line && data[|line| + 1..] == "" && s.buffer + data == data;
    assert s.world[1..] == tail;
    assert ReadLine(s) == ReadLine(Filled(Next(s).0, data));
  }

  /** The state after a line was taken. */
  function Took(s: State, line: string, tail: seq<Happening>): State {
    s.(world := tail, bytes := s.bytes + (line + "\n"), delivered := s.delivered + [line])
  }

  lemma SkipsNotice(s: State, decode: Decoder, p: Process, line: string, tail: seq<Happening>)
    requires s.buffer == "" && s.world == [Chunk(line + "\n")] + tail && Meant(decode, Notice(line))
    ensures ReadResponse(s, decode, p) == ReadResponse(Took(s, line, tail), decode, p)
  {
    hide ReadLine;
    TakesLine(s, line, tail);
  }

  lemma AnswersDemand(s: State, decode: Decoder, p: Process, line: string, tail: seq<Happening>)
    requires s.buffer == "" && s.world == [Chunk(line + "\n"), Works, Works] + tail && Meant(decode, Demand(line))
    ensures var t := Took(s, line, tail).(log := s.log + [Wrote(p, None, Reply, |s.delivered| + 1)]);
      ReadResponse(s, decode, p) == ReadResponse(t, decode, p)
  {
    hide ReadLine;
    assert s.world == [Chunk(line + "\n")] + ([Works, Works] + tail);
    TakesLine(s, line, [Works, Works] + tail);
    var t := Took(s, line, [Works, Works] + tail);
    assert t.world[1..] == [Works] + tail && ([Works] + tail)[1..] == tail;
    assert AnswerUpstream(t, p) ==
           (Took(s, line, tail).(log := s.log + [Wrote(p, None, Reply, |s.delivered| + 1)]), None);
  }

  lemma RepliesGrow(log: seq<Act>, p: Process, heard: nat)
    ensures Replies(log + [Wrote(p, None, Reply, heard)], p) == Replies(log, p) + 1
  {
    assert (log + [Wrote(p, None, Reply, heard)])[..|log|] == log;
  }

  /**
   However many notifications and requests of its own the upstream sends first, the response is the first
   line that is neither, and every such request got one reply.
   */
  lemma {:induction false} ResponseAfterInterlude(s: State, decode: Decoder, p: Process, before: seq<Incoming>,
                                                 line: string, m: Message)
    requires s.buffer == "" && s.world == Interlude(before) + [Chunk(line + "\n")] && LineFree(line)
    requires forall i :: i in before ==> Meant(decode, i)
    requires decode(line) == Object(m) && !(!m.hasId && m.methodIsString) && !(m.hasId && m.hasMethod)
    ensures var (t, r) := ReadResponse(s, decode, p);
      r == Received(m) && Replies(t.log, p) == Replies(s.log, p) + Demands(before)
    decreases |before|
  {
    var last := [Chunk(line + "\n")];
    if before == [] {
      assert s.world == last + [];
      TakesLine(s, line, []);
    } else {
      hide ReadResponse, Meant;
      var first, rest := before[0], before[1..];
      var tail := Interlude(rest) + last;
      assert Meant(decode, first);
      if first.Notice? {
        assert s.world == [Chunk(first.line + "\n")] + tail;
        SkipsNotice(s, decode, p, first.line, tail);
        ResponseAfterInterlude(Took(s, first.line, tail), decode, p, rest, line, m);
      } else {
        assert s.world == [Chunk(first.line + "\n"), Works, Works] + tail;
        AnswersDemand(s, decode, p, first.line, tail);
        RepliesGrow(s.log, p, |s.delivered| + 1);
        var t := Took(s, first.line, tail).(log := s.log + [Wrote(p, None, Reply, |s.delivered| + 1)]);
        ResponseAfterInterlude(t, decode, p, rest, line, m);
      }
    }
  }

  /**
   What ends a request of a running, initialized session whose upstream sends no line first, whatever would
   come after.
   */
  lemma WhatTimesOut(s: State, decode: Decoder, strict: bool, listing: bool, h: Happening, tail: seq<Happening>)
    requires s.process.Some? && s.initialized && s.buffer == "" && s.world == [Works, Works] + ([h] + tail)
    requires h.Silence? || h == Chunk("") || h.Breaks?
    ensures var (t, r) := Requested(s, decode, strict, listing, s.clientCapabilities);
      if h == Silence(false)
      then r == TimedOut && t.process == None && !t.initialized && t.restarts == s.restarts + 1
      else r == Failed && t.process == s.process && t.initialized && t.restarts == s.restarts
  {
    hide Connected;
    var p := s.process.value;
    RunningIsKept(s, decode, strict, listing);
    var t := s.(world := s.world[1..]);
    assert t.world == [Works] + ([h] + tail);
    var u := Write(t.(nextId := t.nextId + 1), p, Some(t.nextId), Call).0;
    assert u.world == [h] + tail;
  }

  lemma RunningIsKept(s: State, decode: Decoder, strict: bool, listing: bool)
    requires s.process.Some? && s.initialized && s.world != [] && s.world[0] == Works
    ensures Connected(s, decode, strict, listing, s.clientCapabilities) ==
              (s.(world := s.world[1..]), Linked(s.process.value))
  {
  }

  lemma DemandTimesOut(s: State, decode: Decoder, p: Process, line: string, tail: seq<Happening>)
    requires s.buffer == "" && s.world == [Chunk(line + "\n")] + ([Breaks] + tail) && Meant(decode, Demand(line))
    ensures ReadResponse(s, decode, p).1 == ResponseTimeout
  {
    TakesLine(s, line, [Breaks] + tail);
    hide ReadLine;
    assert ([Breaks] + tail)[1..] == tail;
  }

  /** And a prompt of the upstream's that the host does not answer in time, though the response be on its way. */
  lemma UnansweredDemandTimesOut(s: State, decode: Decoder, strict: bool, listing: bool, line: string,
                                 tail: seq<Happening>)
    requires s.process.Some? && s.initialized && s.buffer == "" && Meant(decode, Demand(line))
    requires s.world == [Works, Works] + ([Chunk(line + "\n")] + ([Breaks] + tail))
    ensures Requested(s, decode, strict, listing, s.clientCapabilities).1 == TimedOut
  {
    hide Connected;
    var p := s.process.value;
    RunningIsKept(s, decode, strict, listing);
    var t := s.(world := s.world[1..]);
    assert t.world == [Works] + ([Chunk(line + "\n")] + ([Breaks] + tail));
    var u := Write(t.(nextId := t.nextId + 1), p, Some(t.nextId), Call).0;
    assert u.world == [Chunk(line + "\n")] + ([Breaks] + tail);
    DemandTimesOut(u, decode, p, line, tail);
  }

  /** A write that fails ends the request: of the request itself, */
  lemma BrokenRequestFails(s: State, decode: Decoder, strict: bool, listing: bool, tail: seq<Happening>)
    requires s.process.Some? && s.initialized && s.world == [Works, Breaks] + tail
    ensures Requested(s, decode, strict, listing, s.clientCapabilities).1 == Failed
  {
    RunningIsKept(s, decode, strict, listing);
  }

  /** of the notification that would complete the handshake, and then the session is not initialized, */
  lemma BrokenHandshakeFails(s: State, decode: Decoder, c: Capabilities, greeting: string, m: Message,
                             tail: seq<Happening>)
    requires s.process.Some? && !s.initialized && s.buffer == "" && LineFree(greeting)
    requires s.world == [Works] + (Answer(greeting) + ([Breaks] + tail))
    requires decode(greeting) == Object(m) && m.result.Some? && Grants(m, s.nextId, m.result.value)
    ensures var (t, r) := Requested(s, decode, true, false, c); r == Failed && !t.initialized
  {
    hide Roundtrip;
    var p := s.process.value;
    var t := s.(world := Answer(greeting) + ([Breaks] + tail));
    assert s.world[1..] == t.world;
    LineArrives(t, decode, p, Initialize(c), greeting, [Breaks] + tail, m);
  }

  /** and of the reply to a demand. */
  lemma BrokenReplyFails(s: State, decode: Decoder, p: Process, line: string, tail: seq<Happening>)
    requires s.buffer == "" && s.world == [Chunk(line + "\n")] + ([Works, Breaks] + tail)
    requires Meant(decode, Demand(line))
    ensures ReadResponse(s, decode, p).1 == ResponseFailed
  {
    TakesLine(s, line, [Works, Breaks] + tail);
    hide ReadLine;
    assert ([Works, Breaks] + tail)[1..] == [Breaks] + tail && ([Breaks] + tail)[1..] == tail;
  }

  // ---------------------------------------------------------------------------------------
  // The session itself
  // ---------------------------------------------------------------------------------------

  class Session {
    const decode: Decoder
    const strict: bool

    var process: Option<Process>
    var initialized: bool
    var clientCapabilities: Capabilities
    var buffer: string
    var nextId: int
    var restarts: nat
    var spawned: nat
    var world: seq<Happening>

    ghost var log: seq<Act>
    ghost var bytes: string
    ghost var delivered: seq<string>
    ghost var inherited: string
    ghost var unrecorded: map<Process, bool>

    constructor (decode: Decoder, strict: bool, world: seq<Happening>)
      ensures Now() == Fresh(world) && this.decode == decode && this.strict == strict
    {
      this.decode, this.strict, this.world := decode, strict, world;
      process, initialized, clientCapabilities := None, false, map[];
      buffer, nextId, restarts, spawned := "", 0, 0, 0;
      log, bytes, delivered, inherited, unrecorded := [], "", [], "", map[];
    }

    ghost function Now(): State
      reads this
    {
      State(process, initialized, clientCapabilities, buffer, nextId, restarts, spawned, world,
            log, bytes, delivered, inherited, unrecorded)
    }

    method TakeNext() returns (h: Happening)
      modifies this
      ensures (Now(), h) == Next(old(Now()))
    {
      while world != [] && world[0].StopStrikes?
        invariant Next(Now()) == Next(old(Now()))
        decreases |world|
      {
        process, world := None, world[1..];
      }
      if world == [] { return Silence(false); }
      h, world := world[0], world[1..];
    }

    method StopProcess()
      modifies this
      ensures Now() == Stopped(old(Now()))
    {
      process := None;
    }

    method ReadStdoutLine() returns (r: Line)
      modifies this
      ensures (Now(), r) == ReadLine(old(Now()))
    {
      hide FirstNewline, Next;
      while FirstNewline(buffer) == |buffer|
        invariant ReadLine(Now()) == ReadLine(old(Now()))
        decreases |world|
      {
        var h := TakeNext();
        match h {
          case Silence(exited) => return if exited then LineFailed else LineTimeout;
          case Chunk(data) =>
            if data == "" { return LineFailed; }
            buffer, bytes := buffer + data, bytes + data;
          case _ => return LineFailed;
        }
      }
      var n := FirstNewline(buffer);
      r := Got(buffer[..n]);
      delivered, buffer := delivered + [buffer[..n]], buffer[n + 1..];
    }

    method WriteRequest(p: Process, id: Option<int>, kind: Kind) returns (ok: bool)
      modifies this
      ensures (Now(), ok) == Write(old(Now()), p, id, kind)
    {
      log := log + [Wrote(p, id, kind, |delivered|)];
      var h := TakeNext();
      ok := !h.Breaks?;
    }

    method ReadResponseFrom(p: Process) returns (r: Response)
      modifies this
      ensures (Now(), r) == ReadResponse(old(Now()), decode, p)
    {
      while true
        invariant ReadResponse(Now(), decode, p) == ReadResponse(old(Now()), decode, p)
        decreases |world|, |buffer|
      {
        var line := ReadStdoutLine();
        if !line.Got? { return if line.LineTimeout? then ResponseTimeout else ResponseFailed; }
        var loaded := decode(line.line);
        if !loaded.Object? { return ResponseFailed; }
        if IsNotification(loaded.message) { continue; }
        if !IsRequest(loaded.message) { return Received(loaded.message); }
        var failed := RelayRequest(p);
        if failed.Some? { return failed.value; }
      }
    }

    method RelayRequest(p: Process) returns (failed: Option<Response>)
      modifies this
      ensures (Now(), failed) == AnswerUpstream(old(Now()), p)
    {
      var h := TakeNext();
      if h.Breaks? { return Some(ResponseTimeout); }
      var ok := WriteRequest(p, None, Reply);
      failed := if ok then None else Some(ResponseFailed);
    }

    method SendAndReceive(p: Process, kind: Kind) returns (id: int, r: Response)
      modifies this
      ensures (Now(), r) == Roundtrip(old(Now()), decode, p, kind) && id == old(nextId)
    {
      id, nextId := nextId, nextId + 1;
      var ok := WriteRequest(p, Some(id), kind);
      if !ok { return id, ResponseFailed; }
      r := ReadResponseFrom(p);
    }

    method InitializeUpstream(p: Process, c: Capabilities) returns (failed: Option<Outcome>)
      modifies this
      ensures (Now(), failed) == Initialized(old(Now()), decode, p, c)
    {
      var id, response := SendAndReceive(p, Initialize(c));
      if !response.Received? { return Some(Unanswered(response)); }
      if !ResultFromResponse(response.message, id).Result? { return Some(Failed); }
      log := log + [Accepted(p, id)];
      var ok := WriteRequest(p, None, InitializedNotice);
      if !ok { return Some(Failed); }
      initialized, clientCapabilities, failed := true, c, None;
    }

    method Start() returns (ok: bool)
      modifies this
      ensures (Now(), ok) == Started(old(Now()))
    {
      var running := Poll();
      if running { return true; }
      ok := Spawn();
    }

    method Poll() returns (running: bool)
      modifies this
      ensures (Now(), running) == Polled(old(Now()))
    {
      if process.None? { return false; }
      var polled := TakeNext();
      if process.None? { return false; }
      running := !polled.Breaks?;
      if !running { restarts := restarts + 1; }
    }

    method Spawn() returns (ok: bool)
      modifies this
      ensures (Now(), ok) == Spawned(old(Now()))
    {
      var h := TakeNext();
      if h.Breaks? { return false; }
      process, spawned := Some(spawned), spawned + 1;
      inherited, bytes, delivered := buffer, "", [];
      ok := RecordProcess();
    }

    /** The rest of `_start`, from the metadata file on. */
    method RecordProcess() returns (ok: bool)
      modifies this
      ensures (Now(), ok) == Recorded(old(Now()))
    {
      var h := TakeNext();
      if process.Some? && h.Breaks? {
        unrecorded := unrecorded[process.value := initialized];
        return false;
      }
      initialized, buffer, inherited, bytes := false, "", "", "";
      if process.None? { return false; }
      h := TakeNext();
      ok := !h.Breaks?;
    }

    method Connect(listing: bool, c: Capabilities) returns (link: Link)
      modifies this
      ensures (Now(), link) == Connected(old(Now()), decode, strict, listing, c)
    {
      if initialized && clientCapabilities != c { StopProcess(); }
      var ok := Start();
      if !ok || process.None? { return Dropped(Failed); }
      var p := process.value;
      if !initialized && (listing || strict) {
        var failed := InitializeUpstream(p, c);
        if failed.Some? { return Dropped(failed.value); }
      }
      link := Linked(p);
    }

    method AskOnce(p: Process) returns (r: Outcome, refused: bool)
      modifies this
      ensures (Now(), r, refused) == Asked(old(Now()), decode, p)
    {
      var id, response := SendAndReceive(p, Call);
      if !response.Received? { return Unanswered(response), false; }
      r, refused := ResultFromResponse(response.message, id), NotInitialized(response.message);
    }

    method Exchange(p: Process, c: Capabilities) returns (r: Outcome)
      modifies this
      ensures (Now(), r) == Exchanged(old(Now()), decode, p, c)
    {
      var refused;
      r, refused := AskOnce(p);
      if refused && !initialized {
        var failed := InitializeUpstream(p, c);
        if failed.Some? { return failed.value; }
        r, refused := AskOnce(p);
      }
    }

    method JsonrpcRequestLocked(listing: bool, c: Capabilities) returns (r: Outcome)
      modifies this
      ensures (Now(), r) == JsonrpcRequest(old(Now()), decode, strict, listing, c)
    {
      var link := Connect(listing, c);
      if link.Dropped? { return link.outcome; }
      r := Exchange(link.process, c);
    }

    /** `call_tool`, and `list_tools` when `listing` */
    method Request(listing: bool, c: Capabilities) returns (r: Outcome)
      modifies this
      ensures (Now(), r) == Requested(old(Now()), decode, strict, listing, c)
    {
      r := JsonrpcRequestLocked(listing, c);
      if r.TimedOut? { ResetAfterTimeout(); }
    }

    method ResetAfterTimeout()
      modifies this
      ensures Now() == Reset(old(Now()))
    {
      StopProcess();
      initialized, buffer, restarts := false, "", restarts + 1;
      inherited, bytes, delivered := "", "", [];
    }
  }
}
