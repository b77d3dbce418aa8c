/**
 The elicitation relay (src/mcp_broker/client_relay.py, src/mcp_broker/elicitation.py): an upstream's
 approval prompt travels through its call's connection to the host and the answer travels back.

 Two hops translate ids: the daemon gives every prompt a fresh relay id, the client keeps a locked
 map from relay ids to connections. Each locked region is one step; calls, the reader of the host's
 input and the daemon interleave freely.
 */
module Relay {
  import opened Prelude

  datatype Json =
    | Null | Bool(b: bool) | Int(n: int) | Str(s: string) | List(items: seq<Json>)
    | Object(fields: map<string, Json>)

  type Conn = nat

  // ---------------------------------------------------------------------------------------
  // Messages
  // ---------------------------------------------------------------------------------------

  function Get(m: Json, key: string): Option<Json> {
    if m.Object? && key in m.fields then Some(m.fields[key]) else None
  }

  predicate Has(m: Json, key: string) {
    Get(m, key).Some?
  }

  /** The test `run` applies before handing a host message to `_reply`. */
  predicate IsReply(m: Json) {
    (Get(m, "method").None? || Get(m, "method") == Some(Null)) && Has(m, "id") && (Has(m, "result") || Has(m, "error"))
  }

  function ReplyId(m: Json): Option<string> {
    match Get(m, "id") case Some(Str(id)) => Some(id) case _ => None
  }

  /** `_valid_reply` */
  predicate ValidReply(m: Json, relayId: string) {
    Get(m, "jsonrpc") == Some(Str("2.0")) && Get(m, "id") == Some(Str(relayId)) && !Has(m, "method") &&
    Has(m, "result") != Has(m, "error") &&
    if Has(m, "error") then
      var error := m.fields["error"];
      error.Object? && (match Get(error, "code") case Some(Int(_)) => true case _ => false) &&
      (match Get(error, "message") case Some(Str(_)) => true case _ => false)
    else
      var result := m.fields["result"];
      result.Object? &&
      Get(result, "action") in {Some(Str("accept")), Some(Str("decline")), Some(Str("cancel"))} &&
      (Has(result, "content") ==> result.fields["content"].Object?)
  }

  /** The notice `_send_closed` writes for a prompt that can no longer be answered. */
  function Closed(relayId: string): Json {
    Object(map["jsonrpc" := Str("2.0"), "id" := Str(relayId),
               "error" := Object(map["code" := Int(-32000),
                                     "message" := Str("Host input closed during elicitation")])])
  }

  // ---------------------------------------------------------------------------------------
  // The client's half
  // ---------------------------------------------------------------------------------------

  /** A message written to a connection. */
  datatype Sent = Sent(conn: Conn, relayId: string, message: Json)
  datatype Client = Client(pending: map<string, Conn>, eof: bool)

  /** `_reply` */
  function OnReply(c: Client, m: Json): (Client, seq<Sent>) {
    var id := ReplyId(m);
    if IsReply(m) && id.Some? && id.value in c.pending then
      (c.(pending := c.pending - {id.value}), [Sent(c.pending[id.value], id.value, m)])
    else (c, [])
  }

  /** The branch of `_receive` for a prompt read from `conn`. */
  function OnPrompt(c: Client, conn: Conn, relayId: string): (Client, seq<Sent>) {
    if c.eof then (c, [Sent(conn, relayId, Closed(relayId))])
    else (c.(pending := c.pending[relayId := conn]), [])
  }

  /** The clean-up of `_exchange` when the call's connection is left. */
  function OnLeave(c: Client, conn: Conn): Client {
    c.(pending := map id | id in c.pending && c.pending[id] != conn :: c.pending[id])
  }

  function ClosedAll(pending: map<string, Conn>, ids: seq<string>): seq<Sent>
    requires forall id :: id in ids ==> id in pending
  {
    if ids == [] then [] else [Sent(pending[ids[0]], ids[0], Closed(ids[0]))] + ClosedAll(pending, ids[1..])
  }

  /** The end of the host's input, in `run`. */
  function OnEof(c: Client): (Client, seq<Sent>) {
    (Client(map[], true), ClosedAll(c.pending, Sorted(c.pending.Keys)))
  }

  class ClientRelay {
    var pending: map<string, Conn>
    var eof: bool
    /** Everything written to connections, oldest first. */
    var sent: seq<Sent>

    constructor ()
      ensures Half() == Client(map[], false) && sent == []
    {
      pending, eof, sent := map[], false, [];
    }

    function Half(): Client
      reads this
    {
      Client(pending, eof)
    }

    method Reply(m: Json)
      requires IsReply(m)
      modifies this
      ensures Half() == OnReply(old(Half()), m).0 && sent == old(sent) + OnReply(old(Half()), m).1
    {
      assert sent + [] == sent;
      var id := ReplyId(m);
      if id.None? { return; }
      if id.value in pending {
        var connection := pending[id.value];
        pending := pending - {id.value};
        sent := sent + [Sent(connection, id.value, m)];
      }
    }

    method ReceivePrompt(conn: Conn, relayId: string)
      modifies this
      ensures Half() == OnPrompt(old(Half()), conn, relayId).0
      ensures sent == old(sent) + OnPrompt(old(Half()), conn, relayId).1
    {
      assert sent + [] == sent;
      if eof {
        sent := sent + [Sent(conn, relayId, Closed(relayId))];
      } else {
        pending := pending[relayId := conn];
      }
    }

    method LeaveCall(conn: Conn)
      modifies this`pending
      ensures Half() == OnLeave(old(Half()), conn)
    {
      pending := map id | id in pending && pending[id] != conn :: pending[id];
    }

    method EndOfInput()
      modifies this
      ensures Half() == OnEof(old(Half())).0 && sent == old(sent) + OnEof(old(Half())).1
    {
      eof := true;
      var ids := Sorted(pending.Keys);
      SendClosed(ids);
      pending := map[];
    }

    method SendClosed(ids: seq<string>)
      requires forall id :: id in ids ==> id in pending
      modifies this`sent
      ensures sent == old(sent) + ClosedAll(pending, ids)
    {
      for i := 0 to |ids|
        invariant sent + ClosedAll(pending, ids[i..]) == old(sent) + ClosedAll(pending, ids)
      {
        var next := Sent(pending[ids[i]], ids[i], Closed(ids[i]));
        assert ids[i..][0] == ids[i] && ids[i..][1..] == ids[i + 1..];
        assert (sent + [next]) + ClosedAll(pending, ids[i + 1..]) == sent + ClosedAll(pending, ids[i..]);
        sent := sent + [next];
      }
      assert ids[|ids|..] == [] && ClosedAll(pending, []) == [];
      assert sent + [] == sent;
    }
  }

  // ---------------------------------------------------------------------------------------
  // Both hops together
  // ---------------------------------------------------------------------------------------

  /** The prompt a call's daemon thread is blocked on. */
  datatype Waiting = Waiting(upstreamId: Json, relayId: string)

  /**
   The daemon's end of one call: the prompt it waits on, the answers on their way to it, and
   whether an elicitation of this call has failed.
   */
  datatype Call = Call(waiting: Option<Waiting>, replies: seq<Json>, failed: bool)

  datatype Origin = Origin(conn: Conn, upstreamId: Json)
  datatype Delivery = Delivery(relayId: string, conn: Conn, reply: Json)

  /**
   `inFlight` holds the prompts written by the daemon and not yet read by the client, `left` the
   calls whose connection the client has left. `origins`, `answers` and `deliveries` record what
   happened; no step reads them except for the freshness of relay ids.
   */
  datatype System = System(
    calls: map<Conn, Call>, inFlight: map<string, Conn>, left: set<Conn>, client: Client,
    origins: map<string, Origin>, answers: seq<Sent>, deliveries: seq<Delivery>)

  datatype Event =
    | Connect(conn: Conn)
    | Raise(conn: Conn, upstreamId: Json, relayId: string)
    | ClientReads(relayId: string)
    | HostReplies(message: Json, delivered: bool)
    | DaemonReads(conn: Conn, count: nat)
    | TimesOut(conn: Conn)
    | Leaves(conn: Conn)
    | HostEof

  const START := System(map[], map[], {}, Client(map[], false), map[], [], [])

  /** Appends each message to the answers of its connection. */
  function Deposit(calls: map<Conn, Call>, sent: seq<Sent>): map<Conn, Call> {
    map c | c in calls :: calls[c].(replies := calls[c].replies + MessagesFor(sent, c))
  }

  function MessagesFor(sent: seq<Sent>, c: Conn): seq<Json> {
    if sent == [] then [] else
      (if sent[0].conn == c then [sent[0].message] else []) + MessagesFor(sent[1..], c)
  }

  /** The reply handed to the upstream: the host's message under the upstream's own id. */
  function Translate(m: Json, upstreamId: Json): Json
    requires m.Object?
  {
    Object(m.fields["id" := upstreamId])
  }

  /** `SocketElicitationRelay.request` up to the send; relay ids are fresh (`uuid4`). */
  function Raised(s: System, c: Conn, upstreamId: Json, rid: string): System {
    if c !in s.calls || c in s.left || s.calls[c].waiting.Some? || rid in s.origins then s else
      s.(calls := s.calls[c := s.calls[c].(waiting := Some(Waiting(upstreamId, rid)))],
         inFlight := s.inFlight[rid := c], origins := s.origins[rid := Origin(c, upstreamId)])
  }

  function ReadByClient(s: System, rid: string): System {
    if rid !in s.inFlight then s else
      var (client, sent) := OnPrompt(s.client, s.inFlight[rid], rid);
      s.(client := client, answers := s.answers + sent, inFlight := s.inFlight - {rid}, calls := Deposit(s.calls, sent))
  }

  /** `delivered` is false when the daemon's end is gone and the write fails. */
  function RepliedByHost(s: System, m: Json, delivered: bool): System {
    var (client, sent) := OnReply(s.client, m);
    s.(client := client, answers := s.answers + sent, calls := if delivered then Deposit(s.calls, sent) else s.calls)
  }

  /** `_read_reply` finds `n` messages in its buffer; only a buffer of one message parses. */
  function ReadByDaemon(s: System, c: Conn, n: nat): System {
    if c !in s.calls || s.calls[c].waiting.None? || n == 0 || n > |s.calls[c].replies| then s else
      var call := s.calls[c];
      var w, rest := call.waiting.value, call.(waiting := None, replies := call.replies[n..]);
      if n == 1 && ValidReply(call.replies[0], w.relayId) then
        s.(calls := s.calls[c := rest],
           deliveries := s.deliveries + [Delivery(w.relayId, c, Translate(call.replies[0], w.upstreamId))])
      else s.(calls := s.calls[c := rest.(failed := true)])
  }

  function TimedOut(s: System, c: Conn): System {
    if c !in s.calls || s.calls[c].waiting.None? then s else
      s.(calls := s.calls[c := s.calls[c].(waiting := None, failed := true)])
  }

  function Left(s: System, c: Conn): System {
    s.(client := OnLeave(s.client, c), left := s.left + {c},
       inFlight := map rid | rid in s.inFlight && s.inFlight[rid] != c :: s.inFlight[rid])
  }

  function InputEnded(s: System): System {
    var (client, sent) := OnEof(s.client);
    s.(client := client, answers := s.answers + sent, calls := Deposit(s.calls, sent))
  }

  /** A step that is not enabled leaves the system as it is. */
  function Step(s: System, e: Event): System {
    match e
    case Connect(c) => if c in s.calls then s else s.(calls := s.calls[c := Call(None, [], false)])
    case Raise(c, upstreamId, rid) => Raised(s, c, upstreamId, rid)
    case ClientReads(rid) => ReadByClient(s, rid)
    case HostReplies(m, delivered) => RepliedByHost(s, m, delivered)
    case DaemonReads(c, n) => ReadByDaemon(s, c, n)
    case TimesOut(c) => TimedOut(s, c)
    case Leaves(c) => Left(s, c)
    case HostEof => InputEnded(s)
  }

  function Run(es: seq<Event>): System {
    if es == [] then START else Step(Run(es[..|es| - 1]), es[|es| - 1])
  }

  // ---------------------------------------------------------------------------------------
  // Where a prompt is
  // ---------------------------------------------------------------------------------------

  function Ids(sent: seq<Sent>): set<string> {
    set i | 0 <= i < |sent| :: sent[i].relayId
  }

  predicate InFlight(s: System, rid: string) { rid in s.inFlight }

  predicate Pending(s: System, rid: string) { rid in s.client.pending }

  predicate Answered(s: System, rid: string) { rid in Ids(s.answers) }

  /** Its call was left while the prompt was unanswered. */
  predicate Dropped(s: System, rid: string) {
    rid in s.origins && s.origins[rid].conn in s.left && !Answered(s, rid)
  }

  /** A prompt held at `conn` was raised there, the call goes on, and it has no answer yet. */
  predicate Live(s: System, rid: string, conn: Conn) {
    rid in s.origins && s.origins[rid].conn == conn && conn !in s.left && !Answered(s, rid)
  }

  ghost predicate Inv(s: System) {
    && (forall rid :: rid in s.inFlight ==> Live(s, rid, s.inFlight[rid]) && rid !in s.client.pending)
    && (forall rid :: rid in s.client.pending ==> Live(s, rid, s.client.pending[rid]))
    && (forall rid :: rid in s.origins ==>
         rid in s.inFlight || rid in s.client.pending || Answered(s, rid) || s.origins[rid].conn in s.left)
    && (s.client.eof ==> s.client.pending == map[])
    && AnswersHome(s.origins, s.answers)
  }

  /** Every answer went to the connection that raised its prompt, once, under the prompt's relay id. */
  ghost predicate AnswersHome(origins: map<string, Origin>, answers: seq<Sent>) {
    && (forall i :: 0 <= i < |answers| ==> AnswerHome(origins, answers[i]))
    && (forall i, j :: 0 <= i < j < |answers| ==> answers[i].relayId != answers[j].relayId)
  }

  predicate AnswerHome(origins: map<string, Origin>, a: Sent) {
    a.relayId in origins && origins[a.relayId].conn == a.conn && ReplyId(a.message) == Some(a.relayId)
  }

  // ---------------------------------------------------------------------------------------
  // Every interleaving
  // ---------------------------------------------------------------------------------------

  lemma {:induction false} ClosedAllAre(pending: map<string, Conn>, ids: seq<string>)
    requires forall id :: id in ids ==> id in pending
    ensures |ClosedAll(pending, ids)| == |ids|
    ensures forall i :: 0 <= i < |ids| ==> ClosedAll(pending, ids)[i] == Sent(pending[ids[i]], ids[i], Closed(ids[i]))
  {
    if ids != [] { ClosedAllAre(pending, ids[1..]); }
  }

  lemma IdsAppend(a: seq<Sent>, b: seq<Sent>)
    ensures Ids(a + b) == Ids(a) + Ids(b)
  {
    forall rid | rid in Ids(b) ensures rid in Ids(a + b) {
      var i :| 0 <= i < |b| && b[i].relayId == rid;
      assert (a + b)[|a| + i].relayId == rid;
    }
    forall rid | rid in Ids(a) ensures rid in Ids(a + b) {
      var i :| 0 <= i < |a| && a[i].relayId == rid;
      assert (a + b)[i].relayId == rid;
    }
  }

  lemma AnswersHomeAppend(origins: map<string, Origin>, answers: seq<Sent>, sent: seq<Sent>)
    requires AnswersHome(origins, answers)
    requires forall i :: 0 <= i < |sent| ==> AnswerHome(origins, sent[i]) && sent[i].relayId !in Ids(answers)
    requires forall i, j :: 0 <= i < j < |sent| ==> sent[i].relayId != sent[j].relayId
    ensures AnswersHome(origins, answers + sent)
  {
    forall i, j | 0 <= i < j < |answers + sent| ensures (answers + sent)[i].relayId != (answers + sent)[j].relayId {
      if i < |answers| <= j { assert answers[i].relayId in Ids(answers); }
    }
  }

  lemma RaiseKeeps(s: System, c: Conn, upstreamId: Json, rid: string)
    requires Inv(s)
    ensures Inv(Raised(s, c, upstreamId, rid))
  {
    forall id | Answered(s, id) ensures id in s.origins {
      var i :| 0 <= i < |s.answers| && s.answers[i].relayId == id;
      assert AnswerHome(s.origins, s.answers[i]);
    }
  }

  lemma ClientReadsKeeps(s: System, rid: string)
    requires Inv(s)
    ensures Inv(ReadByClient(s, rid))
  {
    if rid in s.inFlight {
      var sent := OnPrompt(s.client, s.inFlight[rid], rid).1;
      IdsAppend(s.answers, sent);
      AnswersHomeAppend(s.origins, s.answers, sent);
      if s.client.eof { OneId(sent[0]); }
    }
  }

  lemma OneId(a: Sent)
    ensures Ids([a]) == {a.relayId}
  {
    assert [a][0].relayId in Ids([a]);
  }

  lemma HostRepliesKeeps(s: System, m: Json, delivered: bool)
    requires Inv(s)
    ensures Inv(RepliedByHost(s, m, delivered))
  {
    var sent := OnReply(s.client, m).1;
    IdsAppend(s.answers, sent);
    AnswersHomeAppend(s.origins, s.answers, sent);
    if sent != [] { OneId(sent[0]); }
  }

  /** `sent` closes everything in `pending`, each prompt once, at the connection that holds it. */
  ghost predicate Drains(sent: seq<Sent>, pending: map<string, Conn>) {
    && Ids(sent) == pending.Keys
    && (forall i :: 0 <= i < |sent| ==> Closes(sent[i], pending))
    && (forall i, j :: 0 <= i < j < |sent| ==> sent[i].relayId != sent[j].relayId)
  }

  predicate Closes(a: Sent, pending: map<string, Conn>) {
    a.relayId in pending && a.conn == pending[a.relayId] &&
    a.message == Closed(a.relayId) && ReplyId(a.message) == Some(a.relayId)
  }

  lemma ClosedAllDrains(pending: map<string, Conn>, ids: seq<string>)
    requires forall id :: id in ids <==> id in pending
    requires forall i, j :: 0 <= i < j < |ids| ==> ids[i] != ids[j]
    ensures Drains(ClosedAll(pending, ids), pending)
  {
    hide ClosedAll;
    var sent := ClosedAll(pending, ids);
    ClosedAllAre(pending, ids);
    forall r | r in pending ensures r in Ids(sent) {
      var i :| 0 <= i < |ids| && ids[i] == r;
      assert sent[i].relayId == r;
    }
    forall i | 0 <= i < |sent| ensures Closes(sent[i], pending) { assert ids[i] in ids; }
  }

  /** Answering everything pending at once keeps the invariant. */
  lemma DrainKeeps(s: System, sent: seq<Sent>, calls: map<Conn, Call>)
    requires Inv(s) && Drains(sent, s.client.pending)
    ensures Inv(s.(client := Client(map[], true), answers := s.answers + sent, calls := calls))
  {
    IdsAppend(s.answers, sent);
    forall i | 0 <= i < |sent| ensures AnswerHome(s.origins, sent[i]) && sent[i].relayId !in Ids(s.answers) {
      assert Closes(sent[i], s.client.pending);
    }
    AnswersHomeAppend(s.origins, s.answers, sent);
  }

  lemma EofKeeps(s: System)
    requires Inv(s)
    ensures Inv(InputEnded(s))
  {
    ClosedAllDrains(s.client.pending, Sorted(s.client.pending.Keys));
    var sent := OnEof(s.client).1;
    DrainKeeps(s, sent, Deposit(s.calls, sent));
  }

  lemma LeavesKeeps(s: System, c: Conn)
    requires Inv(s)
    ensures Inv(Left(s, c))
  {
  }

  lemma DaemonKeeps(s: System, e: Event)
    requires Inv(s) && (e.Connect? || e.DaemonReads? || e.TimesOut?)
    ensures Inv(Step(s, e))
  {
  }

  lemma StepKeepsInv(s: System, e: Event)
    requires Inv(s)
    ensures Inv(Step(s, e))
  {
    hide Inv;
    match e {
      case Raise(c, upstreamId, rid) => RaiseKeeps(s, c, upstreamId, rid);
      case ClientReads(rid) => ClientReadsKeeps(s, rid);
      case HostReplies(m, delivered) => HostRepliesKeeps(s, m, delivered);
      case HostEof => EofKeeps(s);
      case Leaves(c) => LeavesKeeps(s, c);
      case _ => DaemonKeeps(s, e);
    }
  }

  lemma {:induction false} RunsKeepInv(es: seq<Event>)
    ensures Inv(Run(es))
  {
    if es != [] {
      RunsKeepInv(es[..|es| - 1]);
      StepKeepsInv(Run(es[..|es| - 1]), es[|es| - 1]);
    }
  }

  /** Every prompt is always in exactly one place: in flight, pending, answered, or dropped with its call. */
  lemma EachPromptInOnePlace(es: seq<Event>, rid: string)
    requires rid in Run(es).origins
    ensures var s := Run(es);
      && (InFlight(s, rid) || Pending(s, rid) || Answered(s, rid) || Dropped(s, rid))
      && !(InFlight(s, rid) && Pending(s, rid)) && !(InFlight(s, rid) && Answered(s, rid))
      && !(InFlight(s, rid) && Dropped(s, rid)) && !(Pending(s, rid) && Answered(s, rid))
      && !(Pending(s, rid) && Dropped(s, rid)) && !(Answered(s, rid) && Dropped(s, rid))
  {
    RunsKeepInv(es);
  }

  /** An answer goes to the connection that raised the prompt, and each prompt has at most one. */
  lemma AnswersGoHomeOnce(es: seq<Event>, i: nat, j: nat)
    requires i < |Run(es).answers| && j < |Run(es).answers|
    ensures var s := Run(es);
      AnswerHome(s.origins, s.answers[i]) && (s.answers[i].relayId == s.answers[j].relayId ==> i == j)
  {
    RunsKeepInv(es);
  }

  lemma RunSnoc(es: seq<Event>, e: Event)
    ensures Run(es + [e]) == Step(Run(es), e)
  {
    assert (es + [e])[..|es|] == es;
  }

  lemma StepKeepsEof(s: System, e: Event)
    requires s.client.eof
    ensures Step(s, e).client.eof
  {
    match e {
      case ClientReads(rid) => assert ReadByClient(s, rid).client.eof;
      case HostReplies(m, delivered) => assert RepliedByHost(s, m, delivered).client.eof;
      case _ =>
    }
  }

  lemma {:induction false} EofLasts(es: seq<Event>, n: nat)
    requires n <= |es| && Run(es[..n]).client.eof
    ensures Run(es).client.eof
  {
    if n == |es| {
      assert es[..n] == es;
    } else {
      var init := es[..|es| - 1];
      assert init[..n] == es[..n];
      EofLasts(init, n);
      StepKeepsEof(Run(init), es[|es| - 1]);
    }
  }

  /** After the host's input ended, nothing is pending in any later state. */
  lemma NothingPendingAfterEof(es: seq<Event>, more: seq<Event>)
    ensures Run(es + [HostEof] + more).client.pending == map[]
  {
    RunSnoc(es, HostEof);
    assert (es + [HostEof] + more)[..|es| + 1] == es + [HostEof];
    EofLasts(es + [HostEof] + more, |es| + 1);
    RunsKeepInv(es + [HostEof] + more);
  }

  // ---------------------------------------------------------------------------------------
  // What an upstream receives
  // ---------------------------------------------------------------------------------------

  ghost predicate Deposited(answers: seq<Sent>, c: Conn, m: Json) {
    exists i :: 0 <= i < |answers| && answers[i].conn == c && answers[i].message == m
  }

  /** The delivery carries a valid answer to its own prompt, under the upstream's own id. */
  ghost predicate Faithful(origins: map<string, Origin>, answers: seq<Sent>, d: Delivery) {
    d.relayId in origins && origins[d.relayId].conn == d.conn &&
    exists m :: Deposited(answers, d.conn, m) && ValidReply(m, d.relayId) &&
                d.reply == Translate(m, origins[d.relayId].upstreamId)
  }

  /** The prompt waited for was raised on this connection under this upstream id and has not been delivered to. */
  ghost predicate Awaited(origins: map<string, Origin>, deliveries: seq<Delivery>, c: Conn, w: Waiting) {
    && w.relayId in origins && origins[w.relayId] == Origin(c, w.upstreamId)
    && forall i :: 0 <= i < |deliveries| ==> deliveries[i].relayId != w.relayId
  }

  ghost predicate DeliveredOnce(deliveries: seq<Delivery>) {
    forall i, j :: 0 <= i < j < |deliveries| ==> deliveries[i].relayId != deliveries[j].relayId
  }

  ghost predicate Traced(s: System) {
    && (forall c, m :: c in s.calls && m in s.calls[c].replies ==> Deposited(s.answers, c, m))
    && (forall c :: c in s.calls && s.calls[c].waiting.Some? ==>
          Awaited(s.origins, s.deliveries, c, s.calls[c].waiting.value))
    && (forall i :: 0 <= i < |s.deliveries| ==> Faithful(s.origins, s.answers, s.deliveries[i]))
    && DeliveredOnce(s.deliveries)
  }

  lemma {:induction false} MessagesForSent(sent: seq<Sent>, c: Conn, m: Json)
    requires m in MessagesFor(sent, c)
    ensures Deposited(sent, c, m)
  {
    if sent[0].conn == c && sent[0].message == m {
    } else {
      MessagesForSent(sent[1..], c, m);
      var i :| 0 <= i < |sent[1..]| && sent[1..][i].conn == c && sent[1..][i].message == m;
      assert sent[i + 1].message == m;
    }
  }

  lemma DepositedGrows(a: seq<Sent>, b: seq<Sent>)
    ensures forall c, m :: Deposited(a, c, m) || Deposited(b, c, m) ==> Deposited(a + b, c, m)
  {
    forall c, m | Deposited(a, c, m) || Deposited(b, c, m) ensures Deposited(a + b, c, m) {
      if i :| 0 <= i < |a| && a[i].conn == c && a[i].message == m {
        assert (a + b)[i].message == m;
      } else {
        var i :| 0 <= i < |b| && b[i].conn == c && b[i].message == m;
        assert (a + b)[|a| + i].message == m;
      }
    }
  }

  /** Recording and depositing new answers keeps every trace. */
  lemma DepositTraced(s: System, s': System, sent: seq<Sent>)
    requires Traced(s) && s'.answers == s.answers + sent
    requires s'.origins == s.origins && s'.deliveries == s.deliveries
    requires s'.calls == s.calls || s'.calls == Deposit(s.calls, sent)
    ensures Traced(s')
  {
    DepositedGrows(s.answers, sent);
    forall c, m | c in s'.calls && m in s'.calls[c].replies ensures Deposited(s'.answers, c, m) {
      if m !in s.calls[c].replies { MessagesForSent(sent, c, m); }
    }
    forall i | 0 <= i < |s.deliveries| ensures Faithful(s'.origins, s'.answers, s.deliveries[i]) {
      assert Faithful(s.origins, s.answers, s.deliveries[i]);
    }
  }

  lemma RaiseTraced(s: System, c: Conn, upstreamId: Json, rid: string)
    requires Traced(s)
    ensures Traced(Raised(s, c, upstreamId, rid))
  {
    var s' := Raised(s, c, upstreamId, rid);
    forall i | 0 <= i < |s.deliveries| ensures Faithful(s'.origins, s'.answers, s.deliveries[i]) {
      assert Faithful(s.origins, s.answers, s.deliveries[i]);
    }
    if s' != s {
      forall i | 0 <= i < |s.deliveries| ensures s.deliveries[i].relayId != rid {
        assert Faithful(s.origins, s.answers, s.deliveries[i]);
      }
    }
  }

  /** The daemon's end stops waiting; it may record a faithful delivery for what it waited on. */
  lemma StopsWaitingTraced(s: System, s': System, c: Conn, added: seq<Delivery>)
    requires Traced(s) && c in s.calls && s.calls[c].waiting.Some?
    requires s'.origins == s.origins && s'.answers == s.answers && s'.deliveries == s.deliveries + added
    requires s'.calls.Keys == s.calls.Keys && s'.calls[c].waiting.None?
    requires forall m :: m in s'.calls[c].replies ==> m in s.calls[c].replies
    requires forall o :: o in s.calls && o != c ==> s'.calls[o] == s.calls[o]
    requires added == [] || (|added| == 1 && added[0].relayId == s.calls[c].waiting.value.relayId &&
                           Faithful(s.origins, s.answers, added[0]))
    ensures Traced(s')
  {
    forall o | o in s'.calls && s'.calls[o].waiting.Some?
      ensures Awaited(s'.origins, s'.deliveries, o, s'.calls[o].waiting.value)
    {
      assert s'.calls[o] == s.calls[o] && Awaited(s.origins, s.deliveries, o, s.calls[o].waiting.value);
    }
    assert Awaited(s.origins, s.deliveries, c, s.calls[c].waiting.value);
  }

  lemma DaemonReadsTraced(s: System, c: Conn, n: nat)
    requires Traced(s)
    ensures Traced(ReadByDaemon(s, c, n))
  {
    var s' := ReadByDaemon(s, c, n);
    if s' != s {
      var w, m := s.calls[c].waiting.value, s.calls[c].replies[0];
      assert s.deliveries + [] == s.deliveries;
      if n == 1 && ValidReply(m, w.relayId) {
        assert m in s.calls[c].replies;
        assert Faithful(s.origins, s.answers, Delivery(w.relayId, c, Translate(m, w.upstreamId)));
        StopsWaitingTraced(s, s', c, [Delivery(w.relayId, c, Translate(m, w.upstreamId))]);
      } else {
        StopsWaitingTraced(s, s', c, []);
      }
    }
  }

  lemma StepKeepsTraces(s: System, e: Event)
    requires Traced(s)
    ensures Traced(Step(s, e))
  {
    match e {
      case Raise(c, upstreamId, rid) => RaiseTraced(s, c, upstreamId, rid);
      case ClientReads(rid) =>
        if rid in s.inFlight {
          DepositTraced(s, ReadByClient(s, rid), OnPrompt(s.client, s.inFlight[rid], rid).1);
        }
      case HostReplies(m, delivered) => DepositTraced(s, RepliedByHost(s, m, delivered), OnReply(s.client, m).1);
      case HostEof => DepositTraced(s, InputEnded(s), OnEof(s.client).1);
      case DaemonReads(c, n) => DaemonReadsTraced(s, c, n);
      case Leaves(_) =>
      case Connect(_) =>
      case TimesOut(_) =>
    }
  }

  lemma {:induction false} RunsKeepTraces(es: seq<Event>)
    ensures Traced(Run(es))
  {
    if es != [] {
      RunsKeepTraces(es[..|es| - 1]);
      StepKeepsTraces(Run(es[..|es| - 1]), es[|es| - 1]);
    }
  }

  /**
   Whatever an upstream receives is the one answer given to its own prompt, field by field, under its own
   original id, and it receives at most one; upstream ids may repeat across calls.
   */
  lemma UpstreamReceivesItsOwnAnswer(es: seq<Event>, i: nat, j: nat)
    requires i < |Run(es).deliveries| && j < |Run(es).deliveries|
    ensures var s := Run(es);
      var d := s.deliveries[i];
      && d.relayId in s.origins && s.origins[d.relayId].conn == d.conn
      && (exists k :: IsItsAnswer(s, d, k))
      && (s.deliveries[j].relayId == d.relayId ==> i == j)
  {
    RunsKeepTraces(es);
    RunsKeepInv(es);
    FaithfulAnswer(Run(es), Run(es).deliveries[i]);
  }

  /** The answer at `k` was given to the prompt of the delivery, is valid, and is what was delivered. */
  ghost predicate IsItsAnswer(s: System, d: Delivery, k: int)
    requires d.relayId in s.origins
  {
    && 0 <= k < |s.answers| && s.answers[k].relayId == d.relayId && s.answers[k].conn == d.conn
    && ValidReply(s.answers[k].message, d.relayId)
    && d.reply.Object? && Get(d.reply, "id") == Some(s.origins[d.relayId].upstreamId)
    && (forall key :: key != "id" ==> Get(d.reply, key) == Get(s.answers[k].message, key))
  }

  lemma FaithfulAnswer(s: System, d: Delivery)
    requires AnswersHome(s.origins, s.answers) && Faithful(s.origins, s.answers, d)
    ensures exists k :: IsItsAnswer(s, d, k)
  {
    var m :| Deposited(s.answers, d.conn, m) && ValidReply(m, d.relayId) &&
             d.reply == Translate(m, s.origins[d.relayId].upstreamId);
    var k :| 0 <= k < |s.answers| && s.answers[k].conn == d.conn && s.answers[k].message == m;
    assert AnswerHome(s.origins, s.answers[k]);
    assert IsItsAnswer(s, d, k);
  }

  lemma StepAnswers(s: System, e: Event, i: nat)
    requires |s.answers| <= i < |Step(s, e).answers|
    ensures var a := Step(s, e).answers[i];
      (e.HostReplies? && a.message == e.message) || (a.message == Closed(a.relayId) && Step(s, e).client.eof)
  {
    match e {
      case ClientReads(rid) => assert s.client.eof;
      case HostEof =>
        ClosedAllDrains(s.client.pending, Sorted(s.client.pending.Keys));
        assert Closes(OnEof(s.client).1[i - |s.answers|], s.client.pending);
      case _ =>
    }
  }

  lemma StepKeepsAnswers(s: System, e: Event)
    ensures s.answers <= Step(s, e).answers
  {
  }

  /** Every answer is something the host said, or the closing notice after the host's input ended. */
  lemma {:induction false} AnswersComeFromTheHost(es: seq<Event>, i: nat)
    requires i < |Run(es).answers|
    ensures var a := Run(es).answers[i];
      (exists e :: e in es && e.HostReplies? && e.message == a.message) ||
      (a.message == Closed(a.relayId) && Run(es).client.eof)
  {
    var init, e := es[..|es| - 1], es[|es| - 1];
    var s := Run(init);
    StepKeepsAnswers(s, e);
    if i < |s.answers| {
      AnswersComeFromTheHost(init, i);
      if s.client.eof { StepKeepsEof(s, e); }
      assert forall o :: o in init ==> o in es;
    } else {
      StepAnswers(s, e, i);
    }
  }

  // ---------------------------------------------------------------------------------------
  // One answer at a time
  // ---------------------------------------------------------------------------------------

  /** `rid` is all that is under way on connection `c`. */
  ghost predicate Alone(s: System, c: Conn, rid: string) {
    && c in s.calls && s.calls[c].replies == []
    && (forall o :: o in s.inFlight && s.inFlight[o] == c ==> o == rid)
    && (forall o :: o in s.client.pending && s.client.pending[o] == c ==> o == rid)
    && Awaits(s.calls[c], rid)
  }

  predicate Awaits(call: Call, rid: string) {
    if call.waiting.Some? then call.waiting.value.relayId == rid else call.failed
  }

  ghost predicate Quiet(s: System) {
    && (forall rid :: rid in s.inFlight ==> Alone(s, s.inFlight[rid], rid))
    && (forall rid :: rid in s.client.pending ==> Alone(s, s.client.pending[rid], rid))
    && (forall c :: c in s.calls ==> SingleReply(s.calls[c]))
  }

  predicate SingleReply(call: Call) {
    && |call.replies| <= 1
    && (call.replies != [] ==> ReplyId(call.replies[0]).Some? && Awaits(call, ReplyId(call.replies[0]).value))
  }

  lemma MessagesForOne(a: Sent, c: Conn)
    ensures MessagesFor([a], c) == if a.conn == c then [a.message] else []
  {
    assert MessagesFor([a][1..], c) == [];
  }

  /** Nothing of an earlier prompt is under way on the connection. */
  ghost predicate Clear(s: System, c: Conn) {
    && c in s.calls && s.calls[c].replies == []
    && (forall o :: o in s.inFlight ==> s.inFlight[o] != c)
    && (forall o :: o in s.client.pending ==> s.client.pending[o] != c)
  }

  lemma RaiseQuiet(s: System, c: Conn, upstreamId: Json, rid: string)
    requires Inv(s) && Quiet(s) && (Raised(s, c, upstreamId, rid) != s ==> Clear(s, c))
    ensures Quiet(Raised(s, c, upstreamId, rid))
  {
    var s' := Raised(s, c, upstreamId, rid);
    if s' != s {
      forall o | o in s'.inFlight ensures Alone(s', s'.inFlight[o], o) {
        if o != rid { assert Alone(s, s.inFlight[o], o); }
      }
      forall o | o in s'.client.pending ensures Alone(s', s'.client.pending[o], o) {
        assert Alone(s, s.client.pending[o], o);
      }
    }
  }

  /** An answer already in the buffer is to an earlier prompt. */
  lemma OldAnswerStrands(s: System, c: Conn, rid: string)
    requires Inv(s) && Traced(s) && c in s.calls && s.calls[c].replies != [] && rid !in s.origins
    ensures ReplyId(s.calls[c].replies[0]) != Some(rid)
  {
    var m := s.calls[c].replies[0];
    assert m in s.calls[c].replies && Deposited(s.answers, c, m);
    var i :| 0 <= i < |s.answers| && s.answers[i].conn == c && s.answers[i].message == m;
    assert AnswerHome(s.origins, s.answers[i]);
  }

  /** Moving the one prompt of a connection into its answers leaves every connection quiet. */
  lemma AnswerQuiet(s: System, s': System, a: Sent)
    requires Quiet(s) && ReplyId(a.message) == Some(a.relayId) && Alone(s, a.conn, a.relayId)
    requires s'.calls == s.calls || s'.calls == Deposit(s.calls, [a])
    requires s'.inFlight == s.inFlight - {a.relayId} && s'.client.pending == s.client.pending - {a.relayId}
    ensures Quiet(s')
  {
    forall c | c in s'.calls ensures SingleReply(s'.calls[c]) {
      MessagesForOne(a, c);
      assert SingleReply(s.calls[c]);
    }
    forall o | o in s'.inFlight ensures Alone(s', s'.inFlight[o], o) {
      assert Alone(s, s.inFlight[o], o);
      MessagesForOne(a, s.inFlight[o]);
    }
    forall o | o in s'.client.pending ensures Alone(s', s'.client.pending[o], o) {
      assert Alone(s, s.client.pending[o], o);
      MessagesForOne(a, s.client.pending[o]);
    }
  }

  lemma RegisterQuiet(s: System, s': System, rid: string)
    requires Inv(s) && Quiet(s) && rid in s.inFlight && s'.calls == s.calls
    requires s'.inFlight == s.inFlight - {rid} && s'.client.pending == s.client.pending[rid := s.inFlight[rid]]
    ensures Quiet(s')
  {
    assert Alone(s, s.inFlight[rid], rid);
    forall o | o in s'.inFlight ensures Alone(s', s'.inFlight[o], o) { assert Alone(s, s.inFlight[o], o); }
    forall o | o in s'.client.pending ensures Alone(s', s'.client.pending[o], o) {
      if o != rid { assert Alone(s, s.client.pending[o], o); }
    }
  }

  lemma ClientReadsQuiet(s: System, rid: string)
    requires Inv(s) && Quiet(s) && rid in s.inFlight
    ensures Quiet(ReadByClient(s, rid))
  {
    var s' := ReadByClient(s, rid);
    if s.client.eof {
      ClosedQuiet(s, rid);
    } else {
      DepositNothing(s.calls);
      RegisterQuiet(s, s', rid);
    }
  }

  lemma ClosedQuiet(s: System, rid: string)
    requires Inv(s) && Quiet(s) && rid in s.inFlight && s.client.eof
    ensures Quiet(ReadByClient(s, rid))
  {
    assert Alone(s, s.inFlight[rid], rid);
    assert s.client.pending - {rid} == s.client.pending;
    AnswerQuiet(s, ReadByClient(s, rid), Sent(s.inFlight[rid], rid, Closed(rid)));
  }

  lemma DepositNothing(calls: map<Conn, Call>)
    ensures Deposit(calls, []) == calls
  {
    forall o | o in calls ensures Deposit(calls, [])[o] == calls[o] {
      assert calls[o].replies + [] == calls[o].replies;
    }
  }

  lemma HostRepliesQuiet(s: System, m: Json, delivered: bool)
    requires Inv(s) && Quiet(s)
    ensures Quiet(RepliedByHost(s, m, delivered))
  {
    var s', sent := RepliedByHost(s, m, delivered), OnReply(s.client, m).1;
    if sent == [] {
      assert forall o :: o in s.calls ==> s'.calls[o] == s.calls[o];
      forall o | o in s'.inFlight ensures Alone(s', s'.inFlight[o], o) { assert Alone(s, s.inFlight[o], o); }
      forall o | o in s'.client.pending ensures Alone(s', s'.client.pending[o], o) {
        assert Alone(s, s.client.pending[o], o);
      }
    } else {
      assert s.inFlight - {sent[0].relayId} == s.inFlight;
      AnswerQuiet(s, s', sent[0]);
    }
  }

  lemma {:induction false} MessagesForNone(sent: seq<Sent>, c: Conn)
    requires forall i :: 0 <= i < |sent| ==> sent[i].conn != c
    ensures MessagesFor(sent, c) == []
  {
    if sent != [] { MessagesForNone(sent[1..], c); }
  }

  lemma {:induction false} MessagesForAtMostOne(sent: seq<Sent>, c: Conn)
    requires forall i, j :: 0 <= i < j < |sent| ==> !(sent[i].conn == c && sent[j].conn == c)
    ensures |MessagesFor(sent, c)| <= 1
  {
    if sent != [] {
      if sent[0].conn == c { MessagesForNone(sent[1..], c); } else { MessagesForAtMostOne(sent[1..], c); }
    }
  }

  lemma DrainOne(s: System, sent: seq<Sent>, c: Conn)
    requires Quiet(s) && Drains(sent, s.client.pending) && c in s.calls
    ensures var given := MessagesFor(sent, c);
      given == [] || (|given| == 1 && s.calls[c].replies == [] && ReplyId(given[0]).Some? &&
                    Awaits(s.calls[c], ReplyId(given[0]).value))
  {
    if i :| 0 <= i < |sent| && sent[i].conn == c {
      assert Closes(sent[i], s.client.pending) && Alone(s, c, sent[i].relayId);
      forall x, y | 0 <= x < y < |sent| ensures !(sent[x].conn == c && sent[y].conn == c) {
        assert Closes(sent[x], s.client.pending) && Closes(sent[y], s.client.pending);
      }
      MessagesForAtMostOne(sent, c);
      if MessagesFor(sent, c) != [] {
        var m := MessagesFor(sent, c)[0];
        MessagesForSent(sent, c, m);
        var k :| 0 <= k < |sent| && sent[k].conn == c && sent[k].message == m;
        assert Closes(sent[k], s.client.pending);
      }
    } else {
      MessagesForNone(sent, c);
    }
  }

  lemma DrainQuiet(s: System, s': System, sent: seq<Sent>)
    requires Inv(s) && Quiet(s) && Drains(sent, s.client.pending)
    requires s'.calls == Deposit(s.calls, sent) && s'.inFlight == s.inFlight && s'.client.pending == map[]
    ensures Quiet(s')
  {
    forall c | c in s'.calls ensures SingleReply(s'.calls[c]) {
      assert SingleReply(s.calls[c]);
      DrainOne(s, sent, c);
    }
    forall o | o in s'.inFlight ensures Alone(s', s'.inFlight[o], o) {
      var c := s.inFlight[o];
      assert Alone(s, c, o);
      forall i | 0 <= i < |sent| ensures sent[i].conn != c { assert Closes(sent[i], s.client.pending); }
      MessagesForNone(sent, c);
    }
  }

  lemma DaemonQuiet(s: System, s': System, c: Conn, call: Call)
    requires Quiet(s) && c in s.calls && s.calls[c].waiting.Some?
    requires call.waiting.None? && s'.calls == s.calls[c := call]
    requires (call.failed && call.replies == s.calls[c].replies) || (s.calls[c].replies != [] && call.replies == [])
    requires s'.inFlight == s.inFlight && s'.client == s.client
    ensures Quiet(s')
  {
    forall o | o in s'.calls ensures SingleReply(s'.calls[o]) { assert SingleReply(s.calls[o]); }
    forall o | o in s'.inFlight ensures Alone(s', s'.inFlight[o], o) { assert Alone(s, s.inFlight[o], o); }
    forall o | o in s'.client.pending ensures Alone(s', s'.client.pending[o], o) {
      assert Alone(s, s.client.pending[o], o);
    }
  }

  lemma ConnectQuiet(s: System, c: Conn)
    requires Quiet(s) && c !in s.calls
    ensures Quiet(Step(s, Connect(c)))
  {
    var s' := Step(s, Connect(c));
    forall o | o in s'.inFlight ensures Alone(s', s'.inFlight[o], o) { assert Alone(s, s.inFlight[o], o); }
    forall o | o in s'.client.pending ensures Alone(s', s'.client.pending[o], o) {
      assert Alone(s, s.client.pending[o], o);
    }
  }

  lemma LeavesQuiet(s: System, c: Conn)
    requires Quiet(s)
    ensures Quiet(Left(s, c))
  {
    var s' := Left(s, c);
    forall o | o in s'.inFlight ensures Alone(s', s'.inFlight[o], o) { assert Alone(s, s.inFlight[o], o); }
    forall o | o in s'.client.pending ensures Alone(s', s'.client.pending[o], o) {
      assert Alone(s, s.client.pending[o], o);
    }
  }

  lemma StepKeepsQuiet(s: System, e: Event)
    requires Inv(s) && Quiet(s) && RaisesClear(s, e)
    ensures Quiet(Step(s, e))
  {
    match e {
      case Connect(c) => if c !in s.calls { ConnectQuiet(s, c); }
      case Raise(c, upstreamId, rid) => RaiseQuiet(s, c, upstreamId, rid);
      case ClientReads(rid) => if rid in s.inFlight { ClientReadsQuiet(s, rid); }
      case HostReplies(m, delivered) => HostRepliesQuiet(s, m, delivered);
      case HostEof => EofQuiet(s);
      case DaemonReads(c, n) => DaemonReadsQuiet(s, c, n);
      case TimesOut(c) => TimesOutQuiet(s, c);
      case Leaves(c) => LeavesQuiet(s, c);
    }
  }

  lemma EofQuiet(s: System)
    requires Inv(s) && Quiet(s)
    ensures Quiet(InputEnded(s))
  {
    ClosedAllDrains(s.client.pending, Sorted(s.client.pending.Keys));
    DrainQuiet(s, InputEnded(s), OnEof(s.client).1);
  }

  lemma DaemonReadsQuiet(s: System, c: Conn, n: nat)
    requires Inv(s) && Quiet(s)
    ensures Quiet(ReadByDaemon(s, c, n))
  {
    var s' := ReadByDaemon(s, c, n);
    if s' != s {
      assert SingleReply(s.calls[c]);
      DaemonQuiet(s, s', c, s'.calls[c]);
    }
  }

  lemma TimesOutQuiet(s: System, c: Conn)
    requires Inv(s) && Quiet(s)
    ensures Quiet(TimedOut(s, c))
  {
    if c in s.calls && s.calls[c].waiting.Some? {
      DaemonQuiet(s, TimedOut(s, c), c, TimedOut(s, c).calls[c]);
    }
  }

  /** A prompt that is raised finds its connection clear. */
  ghost predicate RaisesClear(s: System, e: Event) {
    e.Raise? && Step(s, e) != s ==> Clear(s, e.conn)
  }

  /** Every prompt of the run found its connection clear. */
  ghost predicate Tidy(es: seq<Event>) {
    es == [] || (Tidy(es[..|es| - 1]) && RaisesClear(Run(es[..|es| - 1]), es[|es| - 1]))
  }

  lemma {:induction false} TidyRunsAreQuiet(es: seq<Event>)
    requires Tidy(es)
    ensures Quiet(Run(es))
  {
    if es != [] {
      TidyRunsAreQuiet(es[..|es| - 1]);
      RunsKeepInv(es[..|es| - 1]);
      StepKeepsQuiet(Run(es[..|es| - 1]), es[|es| - 1]);
    }
  }

  // ---------------------------------------------------------------------------------------
  // What the buffers hold, now and later
  // ---------------------------------------------------------------------------------------

  /** The buffer holds at most one answer, and while the call waits, it is the one waited for. */
  predicate BufferRight(call: Call) {
    && |call.replies| <= 1
    && (call.waiting.Some? && call.replies != [] ==> ReplyId(call.replies[0]) == Some(call.waiting.value.relayId))
  }

  ghost predicate BuffersRight(s: System) {
    forall c :: c in s.calls ==> BufferRight(s.calls[c])
  }

  /** No further prompt is raised. */
  ghost predicate RaisesNothing(es: seq<Event>) {
    forall e :: e in es ==> !e.Raise?
  }

  /** At every point of the run, and whatever happens from there with no further prompt, the buffers are right. */
  ghost predicate SafeThroughout(es: seq<Event>) {
    forall n: nat, more :: n <= |es| && RaisesNothing(more) ==> BuffersRight(Run(es[..n] + more))
  }

  lemma QuietBuffers(s: System)
    requires Quiet(s)
    ensures BuffersRight(s)
  {
    forall c | c in s.calls ensures BufferRight(s.calls[c]) { assert SingleReply(s.calls[c]); }
  }

  lemma {:induction false} TidyPrefix(es: seq<Event>, n: nat)
    requires Tidy(es) && n <= |es|
    ensures Tidy(es[..n])
  {
    if n == |es| {
      assert es[..n] == es;
    } else {
      assert es[..|es| - 1][..n] == es[..n];
      TidyPrefix(es[..|es| - 1], n);
    }
  }

  lemma {:induction false} TidyExtends(es: seq<Event>, more: seq<Event>)
    requires Tidy(es) && RaisesNothing(more)
    ensures Tidy(es + more)
    decreases |more|
  {
    if more == [] {
      assert es + more == es;
    } else {
      var init, e := more[..|more| - 1], more[|more| - 1];
      assert e in more && forall o :: o in init ==> o in more;
      TidyExtends(es, init);
      assert (es + more)[..|es + more| - 1] == es + init;
    }
  }

  lemma TidyIsSafe(es: seq<Event>)
    requires Tidy(es)
    ensures SafeThroughout(es)
  {
    forall n: nat, more | n <= |es| && RaisesNothing(more) ensures BuffersRight(Run(es[..n] + more)) {
      TidyPrefix(es, n);
      TidyExtends(es[..n], more);
      TidyRunsAreQuiet(es[..n] + more);
      QuietBuffers(Run(es[..n] + more));
    }
  }

  /** A late answer to `late` reaches connection `c` while the call there waits for something else. */
  lemma HostAnswerStrands(s: System, c: Conn, late: string)
    requires c in s.calls && s.calls[c].waiting.Some? && s.calls[c].waiting.value.relayId != late
    requires late in s.client.pending && s.client.pending[late] == c
    ensures !BuffersRight(Step(s, HostReplies(Closed(late), true)))
  {
    var m, s' := Closed(late), Step(s, HostReplies(Closed(late), true));
    var sent := OnReply(s.client, m).1;
    assert sent == [Sent(c, late, m)];
    MessagesForOne(sent[0], c);
    assert s'.calls[c].replies == s.calls[c].replies + [m] && s'.calls[c].waiting == s.calls[c].waiting;
    assert !BufferRight(s'.calls[c]);
  }

  lemma ClosingStrands(s: System, c: Conn, late: string)
    requires c in s.calls && s.calls[c].waiting.Some? && s.calls[c].waiting.value.relayId != late
    requires late in s.inFlight && s.inFlight[late] == c && s.client.eof
    ensures !BuffersRight(Step(s, ClientReads(late)))
  {
    var s' := Step(s, ClientReads(late));
    var m := Closed(late);
    MessagesForOne(Sent(c, late, m), c);
    assert s'.calls[c].replies == s.calls[c].replies + [m] && s'.calls[c].waiting == s.calls[c].waiting;
    assert !BufferRight(s'.calls[c]);
  }

  lemma PromptBecomesPending(s: System, c: Conn, late: string)
    requires late in s.inFlight && s.inFlight[late] == c && !s.client.eof
    ensures var t := Step(s, ClientReads(late));
      late in t.client.pending && t.client.pending[late] == c && t.calls == s.calls
  {
    DepositNothing(s.calls);
  }

  /** A prompt raised while an earlier one of its connection is under way: some continuation spoils the buffer there. */
  lemma UnclearRaiseStrands(es: seq<Event>, e: Event) returns (more: seq<Event>)
    requires !RaisesClear(Run(es), e)
    ensures RaisesNothing(more) && !BuffersRight(Run((es + [e]) + more))
  {
    var s, c, rid := Run(es), e.conn, e.relayId;
    var t := Step(s, e);
    RunSnoc(es, e);
    RunsKeepInv(es);
    RunsKeepTraces(es);
    if s.calls[c].replies != [] {
      more := [];
      OldAnswerStrands(s, c, rid);
      assert !BufferRight(t.calls[c]) && (es + [e]) + [] == es + [e];
    } else if late :| late in s.client.pending && s.client.pending[late] == c {
      assert Live(s, late, c);
      HostAnswerStrands(t, c, late);
      more := [HostReplies(Closed(late), true)];
      RunSnoc(es + [e], more[0]);
    } else {
      var late :| late in s.inFlight && s.inFlight[late] == c;
      assert Live(s, late, c);
      more := FlightStrands(es + [e], t, c, late);
    }
  }

  lemma FlightStrands(es: seq<Event>, s: System, c: Conn, late: string) returns (more: seq<Event>)
    requires s == Run(es) && c in s.calls && s.calls[c].waiting.Some? && s.calls[c].waiting.value.relayId != late
    requires late in s.inFlight && s.inFlight[late] == c
    ensures RaisesNothing(more) && !BuffersRight(Run(es + more))
  {
    var read, reply := ClientReads(late), HostReplies(Closed(late), true);
    RunSnoc(es, read);
    if s.client.eof {
      ClosingStrands(s, c, late);
      more := [read];
    } else {
      PromptBecomesPending(s, c, late);
      HostAnswerStrands(Step(s, read), c, late);
      RunSnoc(es + [read], reply);
      more := [read, reply];
      assert (es + [read]) + [reply] == es + more;
    }
  }

  /**
   Throughout a run, and whatever the host, the clock and the client do next, every call's buffer holds
   at most one answer, the one it waits for, if and only if no prompt was raised while an earlier one of
   its connection was still under way.
   */
  lemma SafeThroughoutIffTidy(es: seq<Event>)
    ensures SafeThroughout(es) <==> Tidy(es)
  {
    if Tidy(es) {
      TidyIsSafe(es);
    } else {
      var n := FirstUntidy(es);
      var more := UnclearRaiseStrands(es[..n], es[n]);
      assert es[..n + 1] == es[..n] + [es[n]];
      assert !BuffersRight(Run(es[..n + 1] + more));
    }
  }

  lemma {:induction false} FirstUntidy(es: seq<Event>) returns (n: nat)
    requires !Tidy(es)
    ensures n < |es| && !RaisesClear(Run(es[..n]), es[n])
  {
    var init := es[..|es| - 1];
    if Tidy(init) {
      n := |es| - 1;
    } else {
      n := FirstUntidy(init);
      assert init[..n] == es[..n] && init[n] == es[n];
    }
  }

  /** No call raises another prompt after one of its elicitations failed. */
  predicate Obedient(es: seq<Event>) {
    es == [] || (Obedient(es[..|es| - 1]) && Obeys(Run(es[..|es| - 1]), es[|es| - 1]))
  }

  predicate Obeys(s: System, e: Event) {
    e.Raise? && e.conn in s.calls ==> !s.calls[e.conn].failed
  }

  /** Giving up after a failed elicitation is enough. */
  lemma {:induction false} ObedientRunsAreTidy(es: seq<Event>)
    requires Obedient(es)
    ensures Tidy(es)
  {
    if es != [] {
      var init, e := es[..|es| - 1], es[|es| - 1];
      ObedientRunsAreTidy(init);
      TidyRunsAreQuiet(init);
      if e.Raise? && Step(Run(init), e) != Run(init) { UnfailedIsClear(Run(init), e.conn); }
    }
  }

  lemma UnfailedIsClear(s: System, c: Conn)
    requires Quiet(s) && c in s.calls && s.calls[c].waiting.None? && !s.calls[c].failed
    ensures Clear(s, c)
  {
    assert SingleReply(s.calls[c]);
    forall o | o in s.inFlight ensures s.inFlight[o] != c { assert Alone(s, s.inFlight[o], o); }
    forall o | o in s.client.pending ensures s.client.pending[o] != c { assert Alone(s, s.client.pending[o], o); }
  }

  /**
   In a tidy run a call's buffer never holds more than one answer, and that answer carries the id the
   call waits for: parsing the whole buffer is right, and what is read is delivered exactly when it is
   a valid reply.
   */
  lemma WholeBufferIsTheAnswer(es: seq<Event>, c: Conn, n: nat)
    requires Tidy(es) && c in Run(es).calls
    ensures var call := Run(es).calls[c];
      |call.replies| <= 1 &&
      (call.waiting.Some? && call.replies != [] ==> ReplyId(call.replies[0]) == Some(call.waiting.value.relayId))
    ensures var s := Run(es);
      s.calls[c].waiting.Some? && 0 < n <= |s.calls[c].replies| ==>
        (ReadByDaemon(s, c, n).deliveries != s.deliveries <==>
         ValidReply(s.calls[c].replies[0], s.calls[c].waiting.value.relayId))
  {
    TidyRunsAreQuiet(es);
    var s := Run(es);
    assert SingleReply(s.calls[c]);
  }

  // ---------------------------------------------------------------------------------------
  // A prompt and its answer
  // ---------------------------------------------------------------------------------------

  /** Connection `c` has a call that can raise a prompt, and nothing of an earlier one is under way. */
  ghost predicate Idle(s: System, c: Conn) {
    Clear(s, c) && c !in s.left && s.calls[c].waiting.None?
  }

  /** The host answers the prompt `rid`, which a method of null does not prevent. */
  ghost predicate AnswersPrompt(m: Json, rid: string) {
    m.Object? && Get(m, "id") == Some(Str(rid)) && Get(m, "method") in {None, Some(Null)} &&
    (Has(m, "result") || Has(m, "error"))
  }

  /** A prompt is raised, shown to the host, and answered by `m`; the daemon reads the answer. */
  function Exchanged(es: seq<Event>, c: Conn, upstreamId: Json, rid: string, m: Json): seq<Event> {
    es + [Raise(c, upstreamId, rid)] + [ClientReads(rid)] + [HostReplies(m, true)] + [DaemonReads(c, 1)]
  }

  /** Up to the point where the daemon reads: the answer is all there is in the call's buffer. */
  lemma AnswerReachesBuffer(s: System, c: Conn, upstreamId: Json, rid: string, m: Json)
    requires Idle(s, c) && !s.client.eof && rid !in s.origins && AnswersPrompt(m, rid)
    ensures var t := Step(Step(Step(s, Raise(c, upstreamId, rid)), ClientReads(rid)), HostReplies(m, true));
      && c in t.calls && t.calls[c].waiting == Some(Waiting(upstreamId, rid)) && t.calls[c].replies == [m]
      && t.deliveries == s.deliveries
  {
    var a := Step(s, Raise(c, upstreamId, rid));
    var b := Step(a, ClientReads(rid));
    DepositNothing(a.calls);
    assert b.calls == a.calls && rid in b.client.pending && b.client.pending[rid] == c;
    assert OnReply(b.client, m).1 == [Sent(c, rid, m)];
    MessagesForOne(Sent(c, rid, m), c);
    assert [] + [m] == [m];
  }

  /** What the upstream is handed for the host's answer `m`: one more delivery if `passes`, else none. */
  ghost predicate HandedOn(s: System, t: System, c: Conn, upstreamId: Json, rid: string, m: Json, passes: bool) {
    && (passes ==>
          && |t.deliveries| == |s.deliveries| + 1 && t.deliveries[..|s.deliveries|] == s.deliveries
          && var d := t.deliveries[|s.deliveries|];
             && d.conn == c && d.relayId == rid && Get(d.reply, "id") == Some(upstreamId)
             && forall key :: key != "id" ==> Get(d.reply, key) == Get(m, key))
    && (!passes ==> t.deliveries == s.deliveries && c in t.calls && t.calls[c].failed)
  }

  lemma ReadsOneReply(s: System, c: Conn, upstreamId: Json, rid: string, m: Json)
    requires c in s.calls && s.calls[c].waiting == Some(Waiting(upstreamId, rid)) && s.calls[c].replies == [m]
    ensures HandedOn(s, Step(s, DaemonReads(c, 1)), c, upstreamId, rid, m, ValidReply(m, rid))
  {
  }

  /** From any run, for any answer the client takes for one: it is handed on exactly if it is valid. */
  lemma ExchangeEnds(es: seq<Event>, c: Conn, upstreamId: Json, rid: string, m: Json)
    requires Idle(Run(es), c) && !Run(es).client.eof && rid !in Run(es).origins && AnswersPrompt(m, rid)
    ensures HandedOn(Run(es), Run(Exchanged(es, c, upstreamId, rid, m)), c, upstreamId, rid, m, ValidReply(m, rid))
  {
    hide Run, Step, Idle, ValidReply;
    var s := Run(es);
    AnswerReachesBuffer(s, c, upstreamId, rid, m);
    RunSnoc(es, Raise(c, upstreamId, rid));
    RunSnoc(es + [Raise(c, upstreamId, rid)], ClientReads(rid));
    RunSnoc(es + [Raise(c, upstreamId, rid)] + [ClientReads(rid)], HostReplies(m, true));
    RunSnoc(es + [Raise(c, upstreamId, rid)] + [ClientReads(rid)] + [HostReplies(m, true)], DaemonReads(c, 1));
    var t := Step(Step(Step(s, Raise(c, upstreamId, rid)), ClientReads(rid)), HostReplies(m, true));
    ReadsOneReply(t, c, upstreamId, rid, m);
  }

  /**
   From any run: the host's answer with a result is handed to the upstream exactly if its action is one of
   the three and its content, if any, is an object; otherwise the elicitation fails.
   */
  lemma ResultIsHandedOnIff(es: seq<Event>, c: Conn, upstreamId: Json, rid: string, result: map<string, Json>)
    requires Idle(Run(es), c) && !Run(es).client.eof && rid !in Run(es).origins
    ensures
      var m := Object(map["jsonrpc" := Str("2.0"), "id" := Str(rid), "result" := Object(result)]);
      var passes := && "action" in result && result["action"] in {Str("accept"), Str("decline"), Str("cancel")}
                    && ("content" in result ==> result["content"].Object?);
      HandedOn(Run(es), Run(Exchanged(es, c, upstreamId, rid, m)), c, upstreamId, rid, m, passes)
  {
    hide Run, Idle, HandedOn;
    var m := Object(map["jsonrpc" := Str("2.0"), "id" := Str(rid), "result" := Object(result)]);
    ExchangeEnds(es, c, upstreamId, rid, m);
  }

  /** And its answer with an error exactly if that is an object with a number for code and a string for message. */
  lemma ErrorIsHandedOnIff(es: seq<Event>, c: Conn, upstreamId: Json, rid: string, error: Json)
    requires Idle(Run(es), c) && !Run(es).client.eof && rid !in Run(es).origins
    ensures
      var m := Object(map["jsonrpc" := Str("2.0"), "id" := Str(rid), "error" := error]);
      var passes := && error.Object? && "code" in error.fields && error.fields["code"].Int?
                    && "message" in error.fields && error.fields["message"].Str?;
      HandedOn(Run(es), Run(Exchanged(es, c, upstreamId, rid, m)), c, upstreamId, rid, m, passes)
  {
    hide Run, Idle, HandedOn;
    ExchangeEnds(es, c, upstreamId, rid, Object(map["jsonrpc" := Str("2.0"), "id" := Str(rid), "error" := error]));
  }

  /** An answer of another version, with a method of null, or with both result and error is never handed on. */
  lemma OtherAnswersFail(es: seq<Event>, c: Conn, upstreamId: Json, rid: string, m: Json)
    requires Idle(Run(es), c) && !Run(es).client.eof && rid !in Run(es).origins && AnswersPrompt(m, rid)
    requires Get(m, "jsonrpc") != Some(Str("2.0")) || Has(m, "method") || (Has(m, "result") && Has(m, "error"))
    ensures HandedOn(Run(es), Run(Exchanged(es, c, upstreamId, rid, m)), c, upstreamId, rid, m, false)
  {
    hide Run, Idle, HandedOn;
    ExchangeEnds(es, c, upstreamId, rid, m);
  }

  /** From every state: a host message that answers no pending prompt changes nothing. */
  lemma OtherMessagesAreIgnored(s: System, m: Json, delivered: bool)
    requires forall rid :: rid in s.client.pending ==> !AnswersPrompt(m, rid)
    ensures Step(s, HostReplies(m, delivered)) == s
  {
    DepositNothing(s.calls);
    match Get(m, "id") {
      case Some(Str(rid)) => assert rid in s.client.pending ==> !AnswersPrompt(m, rid);
      case _ =>
    }
  }

  lemma ClosedNoticeReachesBuffer(s: System, c: Conn, upstreamId: Json, rid: string)
    requires Idle(s, c) && s.client.eof && rid !in s.origins
    ensures var t := Step(Step(s, Raise(c, upstreamId, rid)), ClientReads(rid));
      && c in t.calls && t.calls[c].waiting == Some(Waiting(upstreamId, rid)) && t.calls[c].replies == [Closed(rid)]
      && t.deliveries == s.deliveries
  {
    MessagesForOne(Sent(c, rid, Closed(rid)), c);
    assert [] + [Closed(rid)] == [Closed(rid)];
  }

  /** After the end of the host's input a prompt is answered at once, and the upstream is handed that error. */
  lemma ClosedHostIsReported(es: seq<Event>, c: Conn, upstreamId: Json, rid: string)
    requires Idle(Run(es), c) && Run(es).client.eof && rid !in Run(es).origins
    ensures var s, t := Run(es), Run(es + [Raise(c, upstreamId, rid)] + [ClientReads(rid)] + [DaemonReads(c, 1)]);
      && |t.deliveries| == |s.deliveries| + 1
      && var d := t.deliveries[|s.deliveries|];
         && d.conn == c && Get(d.reply, "id") == Some(upstreamId) && Get(d.reply, "result").None?
         && Get(d.reply, "error").Some? && Get(Get(d.reply, "error").value, "code") == Some(Int(-32000))
  {
    hide Run, Step, Idle;
    var s := Run(es);
    RunSnoc(es, Raise(c, upstreamId, rid));
    RunSnoc(es + [Raise(c, upstreamId, rid)], ClientReads(rid));
    RunSnoc(es + [Raise(c, upstreamId, rid)] + [ClientReads(rid)], DaemonReads(c, 1));
    ClosedNoticeReachesBuffer(s, c, upstreamId, rid);
    ReadsOneReply(Run(es + [Raise(c, upstreamId, rid)] + [ClientReads(rid)]), c, upstreamId, rid, Closed(rid));
  }

  /** The run of a call that gives up on a prompt, raises another, and meets the late answer to the first. */
  const LATE_ANSWER := [Connect(0), Raise(0, Null, "a"), ClientReads("a"), TimesOut(0), Raise(0, Null, "b"),
                        HostReplies(Closed("a"), true)]

  const PROMPTED := System(map[0 := Call(Some(Waiting(Null, "a")), [], false)], map["a" := 0], {},
                           Client(map[], false), map["a" := Origin(0, Null)], [], [])
  const ABANDONED := System(map[0 := Call(None, [], true)], map[], {},
                            Client(map["a" := 0], false), map["a" := Origin(0, Null)], [], [])
  const PROMPTED_AGAIN := System(map[0 := Call(Some(Waiting(Null, "b")), [], true)], map["b" := 0], {},
                                 Client(map["a" := 0], false),
                                 map["a" := Origin(0, Null), "b" := Origin(0, Null)], [], [])

  /** It ends with an answer in the buffer other than the one waited for, and reading it fails the second prompt too. */
  lemma LateAnswerMeetsNextPrompt()
    ensures var s := Run(LATE_ANSWER);
      && 0 in s.calls && s.calls[0] == Call(Some(Waiting(Null, "b")), [Closed("a")], true)
      && Step(s, DaemonReads(0, 1)).calls[0] == Call(None, [], true)
      && Step(s, DaemonReads(0, 1)).deliveries == []
  {
    LateAnswerRun();
    LateAnswerArrives();
    RunUpTo(LATE_ANSWER, 6);
    assert LATE_ANSWER[..6] == LATE_ANSWER;
  }

  lemma RunUpTo(es: seq<Event>, n: nat)
    requires 0 < n <= |es|
    ensures Run(es[..n]) == Step(Run(es[..n - 1]), es[n - 1])
  {
    assert es[..n][..n - 1] == es[..n - 1];
  }

  lemma LateAnswerRun()
    ensures Run(LATE_ANSWER[..5]) == PROMPTED_AGAIN
  {
    var es := LATE_ANSWER;
    assert es[..0] == [];
    FirstPrompt();
    PromptIsAbandoned();
    SecondPrompt();
    RunUpTo(es, 1);
    RunUpTo(es, 2);
    RunUpTo(es, 3);
    RunUpTo(es, 4);
    RunUpTo(es, 5);
  }

  lemma FirstPrompt()
    ensures Step(Step(START, Connect(0)), Raise(0, Null, "a")) == PROMPTED
  {
    assert Step(START, Connect(0)) == START.(calls := map[0 := Call(None, [], false)]);
  }

  lemma SecondPrompt()
    ensures Step(ABANDONED, Raise(0, Null, "b")) == PROMPTED_AGAIN
  {
    assert "b" !in ABANDONED.origins;
  }

  lemma PromptIsAbandoned()
    ensures Step(Step(PROMPTED, ClientReads("a")), TimesOut(0)) == ABANDONED
  {
    DepositNothing(PROMPTED.calls);
    assert Step(PROMPTED, ClientReads("a")) == PROMPTED.(inFlight := map[], client := Client(map["a" := 0], false));
  }

  lemma LateAnswerArrives()
    ensures var s := Step(PROMPTED_AGAIN, HostReplies(Closed("a"), true));
      && s.calls == map[0 := Call(Some(Waiting(Null, "b")), [Closed("a")], true)] && s.deliveries == []
      && Step(s, DaemonReads(0, 1)).calls[0] == Call(None, [], true)
      && Step(s, DaemonReads(0, 1)).deliveries == []
  {
    var s := Step(PROMPTED_AGAIN, HostReplies(Closed("a"), true));
    MessagesForOne(Sent(0, "a", Closed("a")), 0);
    assert OnReply(PROMPTED_AGAIN.client, Closed("a")).1 == [Sent(0, "a", Closed("a"))];
    assert [] + [Closed("a")] == [Closed("a")];
    assert s.calls == map[0 := Call(Some(Waiting(Null, "b")), [Closed("a")], true)];
    ClosedAnswersOnlyItsOwn("a", "b");
  }

  lemma ClosedAnswersOnlyItsOwn(late: string, rid: string)
    requires late != rid
    ensures !ValidReply(Closed(late), rid)
  {
  }
}
