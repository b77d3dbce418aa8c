/**
 The daemon's upstream client registries (src/mcp_broker/daemon.py,
 src/mcp_broker/daemon_upstreams.py): creation, the idle janitor, session stop, per-call clean-up
 and shutdown interleave around one registry lock. Each locked region is one step; the janitor's
 unlocked `stop()` lies between two of them.

 The claims are about which registry owns a client, not about operating-system processes.
 */
module Registries {
  import opened Prelude

  /** `stdio_client_key`: the upstream's name, or its name with the session for per-session upstreams. */
  datatype Key = Shared(name: string) | PerSession(name: string, session: string)

  /** The identity of a client object. */
  type Client = nat
  type CallId = string

  /** `_stdio_upstreams`, `_active_per_call_upstreams`, `_upstreams_shutdown`; `next` is a fresh object. */
  datatype Registry = Registry(
    stdio: map<Key, Client>, perCall: map<CallId, (string, Client)>, shutdown: bool, next: Client)

  // ---------------------------------------------------------------------------------------
  // The locked regions
  // ---------------------------------------------------------------------------------------

  /** `_stdio_client`; `None` when the broker is shutting down. */
  function GetOrCreate(r: Registry, key: Key): (Registry, Option<Client>) {
    if r.shutdown then (r, None)
    else if key in r.stdio then (r, Some(r.stdio[key]))
    else (r.(stdio := r.stdio[key := r.next], next := r.next + 1), Some(r.next))
  }

  /** `_per_call_stdio_client` with the call id `uuid4` returned. */
  function StartCall(r: Registry, id: CallId, name: string): (Registry, Option<Client>) {
    if r.shutdown then (r, None)
    else (r.(perCall := r.perCall[id := (name, r.next)], next := r.next + 1), Some(r.next))
  }

  /** `_stop_per_call_stdio_client`; `raised` says whether `client.stop()` raises. */
  function StopCall(r: Registry, id: CallId, name: string, client: Client, raised: bool): Registry {
    if id in r.perCall && r.perCall[id] == (name, client) && !raised then r.(perCall := r.perCall - {id}) else r
  }

  /** `_shutdown_upstreams` */
  function Shutdown(r: Registry): Registry {
    Registry(map[], map[], true, r.next)
  }

  function KeysOf(r: Registry, session: string): set<Key> {
    set k | k in r.stdio && k.PerSession? && k.session == session
  }

  /** `_shutdown_session_upstreams` */
  function StopSession(r: Registry, session: string): Registry {
    r.(stdio := r.stdio - KeysOf(r, session))
  }

  /** The janitor's decision to stop: a client that exited, or an idle per-session client; no timeout, no idling. */
  predicate Condemns(key: Key, exited: bool, timeout: int, idleFor: int) {
    exited || (key.PerSession? && timeout > 0 && idleFor >= timeout)
  }

  /** The janitor's second locked region, for the client it has stopped. */
  function Evict(r: Registry, key: Key, client: Client): Registry {
    if key in r.stdio && r.stdio[key] == client then r.(stdio := r.stdio - {key}) else r
  }

  class Daemon {
    var stdioUpstreams: map<Key, Client>
    var activePerCallUpstreams: map<CallId, (string, Client)>
    var upstreamsShutdown: bool
    var next: Client

    constructor ()
      ensures State() == Registry(map[], map[], false, 0)
    {
      stdioUpstreams, activePerCallUpstreams, upstreamsShutdown, next := map[], map[], false, 0;
    }

    function State(): Registry
      reads this
    {
      Registry(stdioUpstreams, activePerCallUpstreams, upstreamsShutdown, next)
    }

    method StdioClient(key: Key) returns (client: Option<Client>)
      modifies this
      ensures (State(), client) == GetOrCreate(old(State()), key)
    {
      if upstreamsShutdown { return None; }
      if key !in stdioUpstreams {
        stdioUpstreams := stdioUpstreams[key := next];
        next := next + 1;
      }
      client := Some(stdioUpstreams[key]);
    }

    method PerCallStdioClient(id: CallId, name: string) returns (client: Option<Client>)
      modifies this
      ensures (State(), client) == StartCall(old(State()), id, name)
    {
      if upstreamsShutdown { return None; }
      client := Some(next);
      activePerCallUpstreams := activePerCallUpstreams[id := (name, next)];
      next := next + 1;
    }

    method StopPerCallStdioClient(id: CallId, name: string, client: Client, raised: bool)
      modifies this`activePerCallUpstreams
      ensures State() == StopCall(old(State()), id, name, client, raised)
    {
      if id !in activePerCallUpstreams || activePerCallUpstreams[id] != (name, client) { return; }
      if raised { return; }
      activePerCallUpstreams := activePerCallUpstreams - {id};
    }

    method ShutdownUpstreams() returns (clients: set<Client>)
      modifies this
      ensures State() == Shutdown(old(State()))
      ensures clients == old(stdioUpstreams).Values +
                         (set id | id in old(activePerCallUpstreams) :: old(activePerCallUpstreams)[id].1)
    {
      upstreamsShutdown := true;
      clients := stdioUpstreams.Values + (set id | id in activePerCallUpstreams :: activePerCallUpstreams[id].1);
      stdioUpstreams, activePerCallUpstreams := map[], map[];
    }

    method ShutdownSessionUpstreams(session: string) returns (stopped: map<Key, Client>)
      modifies this`stdioUpstreams
      ensures State() == StopSession(old(State()), session)
      ensures stopped == map k | k in KeysOf(old(State()), session) :: old(stdioUpstreams)[k]
    {
      ghost var r := State();
      var keys := set k | k in stdioUpstreams && k.PerSession? && k.session == session;
      assert keys == KeysOf(r, session);
      var todo := keys;
      stopped := map[];
      while todo != {}
        invariant todo <= keys
        invariant stdioUpstreams == r.stdio - (keys - todo)
        invariant stopped == map k | k in keys - todo :: r.stdio[k]
        decreases todo
      {
        var k :| k in todo;
        stopped := stopped[k := stdioUpstreams[k]];
        stdioUpstreams := stdioUpstreams - {k};
        todo := todo - {k};
        assert r.stdio - (keys - todo) == stdioUpstreams;
      }
    }

    /** The relocked pop of `_reap_idle_upstreams`, after `client.stop()` returned. */
    method PopIfSame(key: Key, client: Client) returns (reaped: bool)
      modifies this`stdioUpstreams
      ensures State() == Evict(old(State()), key, client)
      ensures reaped <==> key in old(stdioUpstreams) && old(stdioUpstreams)[key] == client
    {
      reaped := key in stdioUpstreams && stdioUpstreams[key] == client;
      if reaped { stdioUpstreams := stdioUpstreams - {key}; }
    }
  }

  // ---------------------------------------------------------------------------------------
  // Every interleaving
  // ---------------------------------------------------------------------------------------

  /** A client the janitor has stopped and not yet looked up again. */
  datatype Ticket = Ticket(key: Key, client: Client, exited: bool)

  /** What became of a client created under a key. */
  datatype Fate = Claimed | SessionStopped | Reaped(exited: bool)

  /**
   `seen` is what janitor snapshots hold, `tickets` what was stopped and awaits the second region.
   `owner`, `fate`, `callOwner`, `returned` and `claimed` record the life of every client; only freshness
   of call ids reads them.
   */
  datatype System = System(
    r: Registry, seen: set<(Key, Client)>, tickets: set<Ticket>,
    owner: map<Client, Key>, fate: map<Client, Fate>,
    callOwner: map<Client, CallId>, returned: set<Client>, claimed: set<Client>)

  datatype Event =
    | Get(key: Key)
    | Call(id: CallId, name: string)
    | EndCall(id: CallId, name: string, client: Client, raised: bool)
    | ShutDown
    | EndSession(session: string)
    | Snapshot
    | Judge(key: Key, client: Client, exited: bool, timeout: int, idleFor: int, raised: bool)
    | Relock(ticket: Ticket)

  const START := System(Registry(map[], map[], false, 0), {}, {}, map[], map[], map[], {}, {})

  function Got(s: System, key: Key): System {
    var (r, c) := GetOrCreate(s.r, key);
    s.(r := r, owner := if r.next == s.r.next then s.owner else s.owner[c.value := key])
  }

  function Called(s: System, id: CallId, name: string): System {
    if id in s.callOwner.Values then s else
      var (r, c) := StartCall(s.r, id, name);
      s.(r := r, callOwner := if c.None? then s.callOwner else s.callOwner[c.value := id])
  }

  function EndedCall(s: System, id: CallId, name: string, client: Client, raised: bool): System {
    var r := StopCall(s.r, id, name, client, raised);
    s.(r := r, returned := if r == s.r then s.returned else s.returned + {client})
  }

  function WentDown(s: System): System {
    s.(r := Shutdown(s.r),
       fate := s.fate + (map k | k in s.r.stdio.Values :: Claimed),
       claimed := s.claimed + set id | id in s.r.perCall :: s.r.perCall[id].1)
  }

  function ClientsUnder(r: Registry, keys: set<Key>): set<Client>
    requires keys <= r.stdio.Keys
  {
    set k | k in keys :: r.stdio[k]
  }

  function EndedSession(s: System, session: string): System {
    s.(r := StopSession(s.r, session),
       fate := s.fate + (map c | c in ClientsUnder(s.r, KeysOf(s.r, session)) :: SessionStopped))
  }

  function Snapshotted(s: System): System {
    s.(seen := s.seen + set k | k in s.r.stdio :: (k, s.r.stdio[k]))
  }

  function Judged(s: System, e: Event): System
    requires e.Judge?
  {
    if (e.key, e.client) !in s.seen then s else
      var rest := s.(seen := s.seen - {(e.key, e.client)});
      if Condemns(e.key, e.exited, e.timeout, e.idleFor) && !e.raised
      then rest.(tickets := s.tickets + {Ticket(e.key, e.client, e.exited)}) else rest
  }

  function Relocked(s: System, t: Ticket): System {
    if t !in s.tickets then s else
      var r := Evict(s.r, t.key, t.client);
      s.(r := r, tickets := s.tickets - {t},
         fate := if r == s.r then s.fate else s.fate[t.client := Reaped(t.exited)])
  }

  function Step(s: System, e: Event): System {
    match e
    case Get(key) => Got(s, key)
    case Call(id, name) => Called(s, id, name)
    case EndCall(id, name, client, raised) => EndedCall(s, id, name, client, raised)
    case ShutDown => WentDown(s)
    case EndSession(session) => EndedSession(s, session)
    case Snapshot => Snapshotted(s)
    case Judge(_, _, _, _, _, _) => Judged(s, e)
    case Relock(t) => Relocked(s, t)
  }

  function Run(es: seq<Event>): System {
    if es == [] then START else Step(Run(es[..|es| - 1]), es[|es| - 1])
  }

  predicate Registered(s: System, c: Client) {
    c in s.owner && s.owner[c] in s.r.stdio && s.r.stdio[s.owner[c]] == c
  }

  predicate CallRegistered(s: System, c: Client) {
    c in s.callOwner && s.callOwner[c] in s.r.perCall && s.r.perCall[s.callOwner[c]].1 == c
  }

  ghost predicate Inv(s: System) {
    && ClientInv(s) && JanitorInv(s) && CallInv(s)
    && (s.r.shutdown ==> s.r.stdio == map[] && s.r.perCall == map[])
  }

  /** Shared and per-session clients. */
  ghost predicate ClientInv(s: System) {
    && (forall c :: c in s.owner ==> c < s.r.next)
    && (forall k :: k in s.r.stdio ==>
         s.r.stdio[k] in s.owner && s.owner[s.r.stdio[k]] == k && s.r.stdio[k] !in s.fate)
    && (forall c :: c in s.fate ==> c in s.owner)
    && (forall c :: c in s.owner ==> c in s.fate || Registered(s, c))
  }

  /** What the janitor saw and stopped. */
  ghost predicate JanitorInv(s: System) {
    && (forall p :: p in s.seen ==> p.1 in s.owner && s.owner[p.1] == p.0)
    && (forall t :: t in s.tickets ==>
         t.client in s.owner && s.owner[t.client] == t.key && (t.key.Shared? ==> t.exited))
    && (forall c :: c in s.fate && c in s.owner && s.fate[c].Reaped? && s.owner[c].Shared? ==> s.fate[c].exited)
  }

  /** Per-call clients. */
  ghost predicate CallInv(s: System) {
    && (forall c :: c in s.callOwner ==> c < s.r.next)
    && (forall id :: id in s.r.perCall ==>
         var c := s.r.perCall[id].1; c in s.callOwner && s.callOwner[c] == id && c !in s.returned && c !in s.claimed)
    && (forall c :: c in s.returned || c in s.claimed ==> c in s.callOwner)
    && (s.returned !! s.claimed)
    && (forall c :: c in s.callOwner ==> c in s.returned || c in s.claimed || CallRegistered(s, c))
  }

  /** The per-call side is kept by what does not touch it. */
  lemma CallsKept(s: System, s': System)
    requires CallInv(s) && s'.r.perCall == s.r.perCall && s.r.next <= s'.r.next
    requires s'.callOwner == s.callOwner && s'.returned == s.returned && s'.claimed == s.claimed
    ensures CallInv(s')
  {
    forall c | c in s'.callOwner ensures c in s'.returned || c in s'.claimed || CallRegistered(s', c) {
      assert c in s.returned || c in s.claimed || CallRegistered(s, c);
    }
  }

  /** The client side is kept by what does not touch it. */
  lemma ClientsKept(s: System, s': System)
    requires ClientInv(s) && s'.r.stdio == s.r.stdio && s.r.next <= s'.r.next
    requires s'.owner == s.owner && s'.fate == s.fate
    ensures ClientInv(s')
  {
    forall c | c in s'.owner ensures c in s'.fate || Registered(s', c) { assert c in s.fate || Registered(s, c); }
  }

  /** So is the janitor's, as long as keys are not forgotten. */
  lemma JanitorKept(s: System, s': System)
    requires JanitorInv(s) && s'.seen == s.seen && s'.tickets == s.tickets && s'.fate == s.fate
    requires s.fate.Keys <= s.owner.Keys && forall c :: c in s.owner ==> c in s'.owner && s'.owner[c] == s.owner[c]
    ensures JanitorInv(s')
  {
  }

  lemma GetKeeps(s: System, key: Key)
    requires Inv(s)
    ensures Inv(Got(s, key))
  {
    CallsKept(s, Got(s, key));
    JanitorKept(s, Got(s, key));
    GetKeepsClients(s, key);
    hide CallInv, JanitorInv, ClientInv;
  }

  lemma GetKeepsClients(s: System, key: Key)
    requires ClientInv(s)
    ensures ClientInv(Got(s, key))
  {
    var s' := Got(s, key);
    forall c | c in s'.owner ensures c in s'.fate || Registered(s', c) {
      if c in s.owner { assert c in s.fate || Registered(s, c); }
    }
  }

  lemma CallKeeps(s: System, id: CallId, name: string)
    requires Inv(s)
    ensures Inv(Called(s, id, name))
  {
    var s' := Called(s, id, name);
    JanitorKept(s, s');
    ClientsKept(s, s');
    CallKeepsCalls(s, id, name);
    hide CallInv, JanitorInv, ClientInv;
  }

  lemma CallKeepsCalls(s: System, id: CallId, name: string)
    requires CallInv(s)
    ensures CallInv(Called(s, id, name))
  {
    var s' := Called(s, id, name);
    forall c | c in s'.callOwner ensures c in s'.returned || c in s'.claimed || CallRegistered(s', c) {
      if c in s.callOwner {
        assert s.callOwner[c] in s.callOwner.Values;
        assert c in s.returned || c in s.claimed || CallRegistered(s, c);
      }
    }
  }

  lemma EndCallKeeps(s: System, id: CallId, name: string, client: Client, raised: bool)
    requires Inv(s)
    ensures Inv(EndedCall(s, id, name, client, raised))
  {
    var s' := EndedCall(s, id, name, client, raised);
    JanitorKept(s, s');
    ClientsKept(s, s');
    hide JanitorInv, ClientInv;
    forall c | c in s'.callOwner ensures c in s'.returned || c in s'.claimed || CallRegistered(s', c) {
      assert c in s.returned || c in s.claimed || CallRegistered(s, c);
    }
  }

  lemma ShutdownKeeps(s: System)
    requires Inv(s)
    ensures Inv(WentDown(s))
  {
    var s' := WentDown(s);
    forall c | c in s'.owner ensures c in s'.fate {
      assert c in s.fate || Registered(s, c);
    }
    forall c | c in s'.callOwner ensures c in s'.returned || c in s'.claimed {
      assert c in s.returned || c in s.claimed || CallRegistered(s, c);
    }
  }

  lemma EndSessionKeeps(s: System, session: string)
    requires Inv(s)
    ensures Inv(EndedSession(s, session))
  {
    var s' := EndedSession(s, session);
    hide CallInv;
    CallsKept(s, s');
    forall c | c in s'.owner ensures c in s'.fate || Registered(s', c) {
      assert c in s.fate || Registered(s, c);
    }
  }

  lemma SnapshotKeeps(s: System)
    requires Inv(s)
    ensures Inv(Snapshotted(s))
  {
    var s' := Snapshotted(s);
    CallsKept(s, s');
    ClientsKept(s, s');
    hide CallInv, Registered;
  }

  lemma JudgeKeeps(s: System, e: Event)
    requires Inv(s) && e.Judge?
    ensures Inv(Judged(s, e))
  {
    var s' := Judged(s, e);
    hide CallInv, ClientInv;
    CallsKept(s, s');
    ClientsKept(s, s');
    if (e.key, e.client) in s.seen { assert s.owner[e.client] == e.key; }
  }

  lemma RelockKeeps(s: System, t: Ticket)
    requires Inv(s)
    ensures Inv(Relocked(s, t))
  {
    CallsKept(s, Relocked(s, t));
    if t in s.tickets { RelockKeepsClients(s, t); }
    hide CallInv, Registered;
  }

  lemma RelockKeepsClients(s: System, t: Ticket)
    requires ClientInv(s) && t in s.tickets && t.client in s.owner && s.owner[t.client] == t.key
    ensures ClientInv(Relocked(s, t))
  {
    var s' := Relocked(s, t);
    forall c | c in s'.owner ensures c in s'.fate || Registered(s', c) {
      assert c in s.fate || Registered(s, c);
    }
  }

  lemma {:induction false} RunsKeepInv(es: seq<Event>)
    ensures Inv(Run(es))
  {
    if es != [] {
      var s, e := Run(es[..|es| - 1]), es[|es| - 1];
      RunsKeepInv(es[..|es| - 1]);
      match e {
        case Get(key) => GetKeeps(s, key);
        case Call(id, name) => CallKeeps(s, id, name);
        case EndCall(id, name, client, raised) => EndCallKeeps(s, id, name, client, raised);
        case ShutDown => ShutdownKeeps(s);
        case EndSession(session) => EndSessionKeeps(s, session);
        case Snapshot => SnapshotKeeps(s);
        case Judge(_, _, _, _, _, _) => JudgeKeeps(s, e);
        case Relock(t) => RelockKeeps(s, t);
      }
    }
  }

  /** Every per-call client is exactly one of registered, removed after a returned stop, or claimed by shutdown. */
  lemma EachCallClientHasOneFate(es: seq<Event>, c: Client)
    requires c in Run(es).callOwner
    ensures var s := Run(es);
      && (CallRegistered(s, c) || c in s.returned || c in s.claimed)
      && !(CallRegistered(s, c) && c in s.returned) && !(CallRegistered(s, c) && c in s.claimed)
      && !(c in s.returned && c in s.claimed)
  {
    RunsKeepInv(es);
  }

  /** A stop that raises, or one for a client already claimed, leaves the registries as they are. */
  lemma FailedStopKeepsRegistered(es: seq<Event>, id: CallId, name: string, client: Client, raised: bool)
    ensures var s := Run(es);
      var s' := EndedCall(s, id, name, client, raised);
      (raised ==> s' == s) && (client in s.claimed + s.returned ==> s' == s)
  {
    RunsKeepInv(es);
  }

  /**
   Every other client is exactly one of registered, or gone for one recorded reason; shared clients are
   reaped only when seen exited.
   */
  lemma EachClientHasOneFate(es: seq<Event>, c: Client)
    requires c in Run(es).owner
    ensures var s := Run(es);
      && (Registered(s, c) <==> c !in s.fate)
      && (c in s.fate && s.fate[c].Reaped? && s.owner[c].Shared? ==> s.fate[c].exited)
  {
    RunsKeepInv(es);
  }

  /** The janitor's second region removes the very client it stopped and nothing else. */
  lemma JanitorEvictsOnlyWhatItStopped(es: seq<Event>, t: Ticket, k: Key)
    requires t in Run(es).tickets && k in Run(es).r.stdio
    ensures var s := Run(es);
      var s' := Relocked(s, t);
      (k !in s'.r.stdio <==> s.r.stdio[k] == t.client) && (k in s'.r.stdio ==> s'.r.stdio[k] == s.r.stdio[k]) &&
      (k !in s'.r.stdio && k.Shared? ==> t.exited)
  {
    RunsKeepInv(es);
  }

  lemma RunSnoc(es: seq<Event>, e: Event)
    ensures Run(es + [e]) == Step(Run(es), e)
  {
    assert (es + [e])[..|es|] == es;
  }

  /** All that is recorded of clients stays recorded, unchanged. */
  ghost predicate Remembers(s: System, later: System) {
    && (forall c :: c in s.fate ==> c in later.fate && later.fate[c] == s.fate[c])
    && (forall c :: c in s.owner ==> c in later.owner && later.owner[c] == s.owner[c])
    && (forall c :: c in s.callOwner ==> c in later.callOwner && later.callOwner[c] == s.callOwner[c])
    && s.returned <= later.returned && s.claimed <= later.claimed
  }

  lemma CallRemembers(s: System, id: CallId, name: string)
    requires CallInv(s)
    ensures Remembers(s, Called(s, id, name))
  {
    assert s.r.next !in s.callOwner;
  }

  lemma ShutdownRemembers(s: System)
    requires Inv(s)
    ensures Remembers(s, WentDown(s))
  {
    hide CallInv;
    forall c | c in s.fate ensures c !in s.r.stdio.Values { }
  }

  lemma EndSessionRemembers(s: System, session: string)
    requires Inv(s)
    ensures Remembers(s, EndedSession(s, session))
  {
    hide CallInv;
    forall c | c in s.fate ensures c !in ClientsUnder(s.r, KeysOf(s.r, session)) { }
  }

  lemma RelockRemembers(s: System, t: Ticket)
    requires Inv(s)
    ensures Remembers(s, Relocked(s, t))
  {
    hide CallInv;
  }

  lemma GetRemembers(s: System, key: Key)
    requires Inv(s)
    ensures Remembers(s, Got(s, key))
  {
    hide CallInv;
  }

  lemma StepRemembers(s: System, e: Event)
    requires Inv(s)
    ensures Remembers(s, Step(s, e))
  {
    match e {
      case Get(key) => GetRemembers(s, key);
      case Call(id, name) => CallRemembers(s, id, name);
      case ShutDown => ShutdownRemembers(s);
      case EndSession(session) => EndSessionRemembers(s, session);
      case Relock(t) => RelockRemembers(s, t);
      case _ => hide Inv;
    }
  }

  lemma {:induction false} RunsRemember(es: seq<Event>, more: seq<Event>)
    ensures Remembers(Run(es), Run(es + more))
  {
    if more == [] {
      assert es + more == es;
    } else {
      var init := more[..|more| - 1];
      assert (es + more)[..|es + more| - 1] == es + init;
      RunsRemember(es, init);
      RunsKeepInv(es + init);
      StepRemembers(Run(es + init), more[|more| - 1]);
    }
  }

  /**
   A fate is final: whatever follows, a client that is gone stays gone, for the reason recorded then, and
   no other reason is recorded for it.
   */
  lemma FatesAreFinal(es: seq<Event>, more: seq<Event>, c: Client)
    ensures var s, later := Run(es), Run(es + more);
      && (c in s.fate ==> c in later.fate && later.fate[c] == s.fate[c] && !Registered(later, c))
      && (c in s.returned ==> c in later.returned && c !in later.claimed && !CallRegistered(later, c))
      && (c in s.claimed ==> c in later.claimed && c !in later.returned && !CallRegistered(later, c))
  {
    RunsRemember(es, more);
    if c in Run(es).owner { EachClientHasOneFate(es + more, c); }
    if c in Run(es).callOwner { EachCallClientHasOneFate(es + more, c); }
    RunsKeepInv(es);
  }

  lemma StepKeepsShutdown(s: System, e: Event)
    requires s.r.shutdown
    ensures Step(s, e).r.shutdown
  {
    match e {
      case Get(key) => assert Got(s, key).r.shutdown;
      case Call(id, name) => assert Called(s, id, name).r.shutdown;
      case EndCall(id, name, client, raised) => assert EndedCall(s, id, name, client, raised).r.shutdown;
      case Relock(t) => assert Relocked(s, t).r.shutdown;
      case _ =>
    }
  }

  lemma {:induction false} ShutdownLasts(es: seq<Event>, more: seq<Event>)
    requires Run(es).r.shutdown
    ensures Run(es + more).r.shutdown
    decreases |more|
  {
    if more == [] { assert es + more == es; } else {
      var init, e := more[..|more| - 1], more[|more| - 1];
      ShutdownLasts(es, init);
      StepKeepsShutdown(Run(es + init), e);
      assert es + more == (es + init) + [e];
      RunSnoc(es + init, e);
    }
  }

  /** Once shutdown began, both registries are empty in every later state. */
  lemma RegistriesStayEmptyAfterShutdown(es: seq<Event>, more: seq<Event>)
    ensures var s := Run(es + [ShutDown] + more); s.r.stdio == map[] && s.r.perCall == map[]
  {
    RunSnoc(es, ShutDown);
    ShutdownLasts(es + [ShutDown], more);
    RunsKeepInv(es + [ShutDown] + more);
  }

  /** Session stop removes exactly the keys of that session. */
  lemma SessionStopIsExact(es: seq<Event>, session: string, k: Key)
    requires k in Run(es).r.stdio
    ensures var s := Run(es);
      var s' := EndedSession(s, session);
      (k !in s'.r.stdio <==> k.PerSession? && k.session == session) &&
      (k in s'.r.stdio ==> s'.r.stdio[k] == s.r.stdio[k]) &&
      (k !in s'.r.stdio <==> s.r.stdio[k] in s'.fate)
  {
    RunsKeepInv(es);
    EndSessionKeeps(Run(es), session);
  }

  // ---------------------------------------------------------------------------------------
  // What each call does
  // ---------------------------------------------------------------------------------------

  /** Asking for a key gives the client registered under it, or a new one that then is; never after shutdown. */
  lemma GetIsRegistered(es: seq<Event>, key: Key)
    ensures var s, s' := Run(es), Run(es + [Get(key)]); var given := GetOrCreate(s.r, key).1;
      && (given.None? <==> s.r.shutdown) && (given.None? ==> s' == s)
      && (given.Some? ==> key in s'.r.stdio && s'.r.stdio[key] == given.value)
      && (given.Some? && key in s.r.stdio ==> given.value == s.r.stdio[key] && s' == s)
      && (given.Some? && key !in s.r.stdio ==> given.value !in s.owner && given.value !in s.callOwner)
      && (forall k :: k != key ==> (k in s'.r.stdio <==> k in s.r.stdio) &&
                                   (k in s.r.stdio ==> s'.r.stdio[k] == s.r.stdio[k]))
      && s'.r.perCall == s.r.perCall
  {
    RunSnoc(es, Get(key));
    RunsKeepInv(es);
  }

  /** A call gets a client of its own, registered under its id with its upstream; never after shutdown. */
  lemma CallGetsItsOwn(es: seq<Event>, id: CallId, name: string)
    requires id !in Run(es).callOwner.Values
    ensures var s, s' := Run(es), Run(es + [Call(id, name)]); var given := StartCall(s.r, id, name).1;
      && (given.None? <==> s.r.shutdown) && (given.None? ==> s' == s)
      && (given.Some? ==> id in s'.r.perCall && s'.r.perCall[id] == (name, given.value))
      && (given.Some? ==> given.value !in s.owner && given.value !in s.callOwner)
      && (forall o :: o != id ==> (o in s'.r.perCall <==> o in s.r.perCall) &&
                                  (o in s.r.perCall ==> s'.r.perCall[o] == s.r.perCall[o]))
      && s'.r.stdio == s.r.stdio
  {
    RunSnoc(es, Call(id, name));
    RunsKeepInv(es);
  }

  /**
   The end of a call removes its entry exactly if that still is its own and its stop returned; every other
   entry stays, and the client then counts as returned.
   */
  lemma EndCallIsExact(es: seq<Event>, id: CallId, name: string, client: Client, raised: bool)
    ensures var s, s' := Run(es), Run(es + [EndCall(id, name, client, raised)]);
      var own := id in s.r.perCall && s.r.perCall[id] == (name, client);
      && (id in s'.r.perCall <==> id in s.r.perCall && (raised || !own))
      && (forall o :: o in s'.r.perCall ==> o in s.r.perCall && s'.r.perCall[o] == s.r.perCall[o])
      && (forall o :: o in s.r.perCall && o != id ==> o in s'.r.perCall)
      && s'.returned == s.returned + (if own && !raised then {client} else {})
      && s'.r.stdio == s.r.stdio
  {
    RunSnoc(es, EndCall(id, name, client, raised));
  }

  /**
   One round of the janitor over a registered client that nobody touches meanwhile: it is removed, and
   nothing else is, exactly if it has exited or is a per-session client idle for its timeout, and its stop
   returned.
   */
  lemma JanitorRoundIff(es: seq<Event>, key: Key, exited: bool, timeout: int, idleFor: int, raised: bool)
    requires key in Run(es).r.stdio
    ensures var s := Run(es); var client := s.r.stdio[key];
      var judged := Judge(key, client, exited, timeout, idleFor, raised);
      var s' := Run(es + [Snapshot] + [judged] + [Relock(Ticket(key, client, exited))]);
      var dead := exited || (key.PerSession? && timeout > 0 && idleFor >= timeout);
      && (dead && !raised ==> s'.r == s.r.(stdio := s.r.stdio - {key}) && client in s'.fate)
      && (!(dead && !raised) && Ticket(key, client, exited) !in s.tickets ==> s'.r == s.r && s'.fate == s.fate)
  {
    var s := Run(es);
    var client := s.r.stdio[key];
    var judged := Judge(key, client, exited, timeout, idleFor, raised);
    RunSnoc(es, Snapshot);
    RunSnoc(es + [Snapshot], judged);
    RunSnoc(es + [Snapshot] + [judged], Relock(Ticket(key, client, exited)));
    assert (key, client) in Snapshotted(s).seen;
  }
}
