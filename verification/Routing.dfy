/**
 Name routing: how the namespace router advertises and resolves tool names
 (src/mcp_broker/tool_namespace.py), how the broker routes a call (src/mcp_broker/broker.py), and the
 gates of the catalog and of the status report (src/mcp_broker/catalog.py).

 A configuration is its upstreams in dictionary order, each under the key that is its name.
 */
module Routing {
  import opened Prelude

  datatype Upstream = Upstream(
    name: string, toolPrefix: Option<string>, enabled: bool, disabledMode: bool,
    profiles: set<string>, mutating: bool)

  datatype Profile = Profile(name: string, allowMutating: set<string>, maxTools: nat)

  /** The tools each upstream reported, in dictionary order. */
  datatype Listing = Listing(upstream: string, tools: seq<string>)

  datatype Route = Route(upstream: string, tool: string)

  datatype CallError =
    | InvalidToolName | UnknownToolPrefix | DisabledPrefix | ProfileDenied | MutatingNotAllowed

  datatype Call = Routed(route: Route) | Rejected(error: CallError)

  /** `tool_prefix or name` */
  function PrefixOf(u: Upstream): string {
    if u.toolPrefix.Some? && u.toolPrefix.value != "" then u.toolPrefix.value else u.name
  }

  predicate Disabled(u: Upstream) {
    !u.enabled || u.disabledMode
  }

  /** `profile_allows_upstream` */
  predicate InProfile(u: Upstream, p: Option<Profile>) {
    p.None? || p.value.name in u.profiles
  }

  predicate MutatingDenied(u: Upstream, p: Option<Profile>) {
    u.mutating && p.Some? && u.name !in p.value.allowMutating
  }

  /** `_upstream_allowed`, of an upstream that is there */
  predicate Visible(u: Upstream, p: Option<Profile>) {
    !Disabled(u) && InProfile(u, p)
  }

  predicate DistinctNames(us: seq<Upstream>) {
    forall i, j :: 0 <= i < j < |us| ==> us[i].name != us[j].name
  }

  function Named(us: seq<Upstream>, name: string): (r: Option<Upstream>)
    ensures r.Some? ==> r.value in us && r.value.name == name
    ensures r.None? ==> forall u :: u in us ==> u.name != name
  {
    if us == [] then None else if us[0].name == name then Some(us[0]) else Named(us[1..], name)
  }

  lemma {:induction false} NamedIs(us: seq<Upstream>, u: Upstream)
    requires DistinctNames(us) && u in us
    ensures Named(us, u.name) == Some(u)
  {
    var k :| 0 <= k < |us| && us[k] == u;
    if k > 0 {
      assert us[0].name != us[k].name;
      assert us[1..][k - 1] == u;
      NamedIs(us[1..], u);
    }
  }

  // ---------------------------------------------------------------------------------------
  // Splitting at the first separator
  // ---------------------------------------------------------------------------------------

  /** Where `sep` first occurs in `s`. */
  function Find(s: string, sep: string): (r: Option<nat>)
    ensures r.Some? ==> r.value <= |s| && sep <= s[r.value..]
  {
    if sep <= s then Some(0)
    else if s == "" then None
    else
      var rest := Find(s[1..], sep);
      if rest.None? then None else
        assert s[1..][rest.value..] == s[rest.value + 1..];
        Some(rest.value + 1)
  }

  predicate Contains(s: string, sep: string) {
    Find(s, sep).Some?
  }

  lemma {:induction false} FindIsFirst(s: string, sep: string, j: nat)
    requires j <= |s| && sep <= s[j..]
    ensures Find(s, sep).Some? && Find(s, sep).value <= j
  {
    if !(sep <= s) {
      assert s[0..] == s;
      assert s[1..][j - 1..] == s[j..];
      FindIsFirst(s[1..], sep, j - 1);
    }
  }

  /** `name.split(separator, 1)` when the separator occurs */
  function Split(name: string, sep: string): Option<(string, string)> {
    var at := Find(name, sep);
    if at.None? then None else Some((name[..at.value], name[at.value + |sep|..]))
  }

  function Advertised(prefix: string, sep: string, tool: string): string {
    prefix + sep + tool
  }

  /** The separator starts nowhere inside the prefix, not even by running into the separator itself. */
  predicate Clean(prefix: string, sep: string)
    requires sep != ""
  {
    !Contains(prefix + sep[..|sep| - 1], sep)
  }

  lemma OccursAt(s: string, sep: string, i: nat)
    requires i <= |s|
    ensures sep <= s[i..] <==> i + |sep| <= |s| && s[i..i + |sep|] == sep
  {
    if i + |sep| <= |s| { assert s[i..][..|sep|] == s[i..i + |sep|]; }
  }

  /** An occurrence in a prefix of a string is one in the string, and back if it ends early enough. */
  lemma OccursInPrefix(s: string, n: nat, sep: string, i: nat)
    requires n <= |s| && i + |sep| <= n
    ensures sep <= s[..n][i..] <==> sep <= s[i..]
  {
    OccursAt(s, sep, i);
    OccursAt(s[..n], sep, i);
    assert s[..n][i..i + |sep|] == s[i..i + |sep|];
  }

  lemma FindInAdvertised(prefix: string, sep: string, tool: string)
    requires sep != ""
    ensures Find(Advertised(prefix, sep, tool), sep).Some?
    ensures Find(Advertised(prefix, sep, tool), sep).value <= |prefix|
    ensures Find(Advertised(prefix, sep, tool), sep).value == |prefix| <==> Clean(prefix, sep)
  {
    var name, short := Advertised(prefix, sep, tool), prefix + sep[..|sep| - 1];
    assert name[|prefix|..] == sep + tool;
    FindIsFirst(name, sep, |prefix|);
    assert short == name[..|short|];
    var i := Find(name, sep).value;
    if i < |prefix| {
      OccursInPrefix(name, |short|, sep, i);
      FindIsFirst(short, sep, i);
    } else if Contains(short, sep) {
      var j := Find(short, sep).value;
      OccursInPrefix(name, |short|, sep, j);
      FindIsFirst(name, sep, j);
    }
  }

  /** An advertised name splits back exactly when its prefix is clean; the tool name does not matter. */
  lemma AdvertisedSplitsBackIff(prefix: string, sep: string, tool: string)
    requires sep != ""
    ensures Split(Advertised(prefix, sep, tool), sep) == Some((prefix, tool)) <==> Clean(prefix, sep)
    ensures Split(Advertised(prefix, sep, tool), sep).Some?
  {
    FindInAdvertised(prefix, sep, tool);
    var name := Advertised(prefix, sep, tool);
    var i := Find(name, sep).value;
    assert name[..|prefix|] == prefix && name[|prefix| + |sep|..] == tool;
    assert |name[..i]| == i;
  }

  /** Tools of upstreams with different clean prefixes never share an advertised name. */
  lemma CleanPrefixesNeverClash(p: string, q: string, sep: string, t: string, u: string)
    requires sep != "" && Clean(p, sep) && Clean(q, sep)
    requires Advertised(p, sep, t) == Advertised(q, sep, u)
    ensures p == q && t == u
  {
    AdvertisedSplitsBackIff(p, sep, t);
    AdvertisedSplitsBackIff(q, sep, u);
  }

  /** They can when a prefix holds the separator. */
  lemma PrefixesWithSeparatorsClash()
    ensures Advertised("a", ".", "b.c") == Advertised("a.b", ".", "c")
    ensures Clean("a", ".") && !Clean("a.b", ".")
  {
    assert "a" + "."[..0] == "a" && "a.b" + "."[..0] == "a.b";
    assert "a"[0] != "."[0];
    assert "a"[1..] == "" && Find("", ".") == None;
    assert "." <= "a.b"[1..];
    FindIsFirst("a.b", ".", 1);
  }

  // ---------------------------------------------------------------------------------------
  // The router's prefix index
  // ---------------------------------------------------------------------------------------

  /** Two visible upstreams share a prefix: the router cannot be built. */
  ghost predicate SharedPrefix(us: seq<Upstream>, p: Option<Profile>) {
    exists i, j :: SharedPrefixAt(us, p, i, j)
  }

  predicate SharedPrefixAt(us: seq<Upstream>, p: Option<Profile>, i: int, j: int) {
    0 <= i < j < |us| && Visible(us[i], p) && Visible(us[j], p) && PrefixOf(us[i]) == PrefixOf(us[j])
  }

  ghost predicate Indexes(index: map<string, string>, us: seq<Upstream>, p: Option<Profile>) {
    && (forall u :: u in us && Visible(u, p) ==> PrefixOf(u) in index && index[PrefixOf(u)] == u.name)
    && (forall k :: k in index ==> exists u :: u in us && Visible(u, p) && PrefixOf(u) == k && u.name == index[k])
  }

  /** `_build_prefix_index`: nothing when two visible upstreams share a prefix. */
  method BuildPrefixIndex(us: seq<Upstream>, p: Option<Profile>) returns (r: Option<map<string, string>>)
    ensures r.None? <==> SharedPrefix(us, p)
    ensures r.Some? ==> Indexes(r.value, us, p)
  {
    var index := map[];
    assert us[..0] == [] && Indexes(index, [], p) && !SharedPrefix([], p);
    for i := 0 to |us|
      invariant Indexes(index, us[..i], p) && !SharedPrefix(us[..i], p)
    {
      hide SharedPrefix, Indexes, Visible, PrefixOf;
      var u := us[i];
      if Visible(u, p) {
        if PrefixOf(u) in index {
          PrefixTaken(us, p, index, i);
          return None;
        }
        NextIndexed(us, p, index, i);
        index := index[PrefixOf(u) := u.name];
      } else {
        NextIndexed(us, p, index, i);
      }
    }
    assert us[..|us|] == us;
    r := Some(index);
  }

  lemma PrefixTaken(us: seq<Upstream>, p: Option<Profile>, index: map<string, string>, i: nat)
    requires i < |us| && Indexes(index, us[..i], p) && Visible(us[i], p) && PrefixOf(us[i]) in index
    ensures SharedPrefix(us, p)
  {
    var v :| v in us[..i] && Visible(v, p) && PrefixOf(v) == PrefixOf(us[i]);
    var k :| 0 <= k < i && us[..i][k] == v;
    assert us[k] == v && SharedPrefixAt(us, p, k, i);
  }

  lemma NextIndexed(us: seq<Upstream>, p: Option<Profile>, index: map<string, string>, i: nat)
    requires i < |us| && Indexes(index, us[..i], p) && !SharedPrefix(us[..i], p)
    requires Visible(us[i], p) ==> PrefixOf(us[i]) !in index
    ensures !SharedPrefix(us[..i + 1], p)
    ensures Indexes(if Visible(us[i], p) then index[PrefixOf(us[i]) := us[i].name] else index, us[..i + 1], p)
  {
    hide Visible, PrefixOf;
    var all, u := us[..i + 1], us[i];
    assert all == us[..i] + [u];
    forall a, b | 0 <= a < b < |all| ensures !SharedPrefixAt(all, p, a, b) {
      assert all[a] == us[..i][a] && us[..i][a] in us[..i];
      if b < i { assert !SharedPrefixAt(us[..i], p, a, b); }
    }
  }

  /** `resolve_tool_name` */
  function ResolveToolName(index: map<string, string>, sep: string, name: string): Option<Route> {
    var split := Split(name, sep);
    if split.None? || split.value.1 == "" || split.value.0 !in index then None
    else Some(Route(index[split.value.0], split.value.1))
  }

  // ---------------------------------------------------------------------------------------
  // Advertising
  // ---------------------------------------------------------------------------------------

  /** What `advertise_all_tools` lists, all checks passed: upstream by upstream, tool by tool. */
  function AllNames(us: seq<Upstream>, p: Option<Profile>, sep: string, ls: seq<Listing>): seq<string> {
    if ls == [] then [] else AllNames(us, p, sep, ls[..|ls| - 1]) + NamesOf(us, p, sep, ls[|ls| - 1])
  }

  function NamesOf(us: seq<Upstream>, p: Option<Profile>, sep: string, l: Listing): seq<string> {
    var u := Named(us, l.upstream);
    if u.Some? && Visible(u.value, p) then Qualified(PrefixOf(u.value), sep, l.tools) else []
  }

  function Qualified(prefix: string, sep: string, tools: seq<string>): (r: seq<string>)
    ensures |r| == |tools| && forall i :: 0 <= i < |r| ==> r[i] == Advertised(prefix, sep, tools[i])
  {
    seq(|tools|, i requires 0 <= i < |tools| => Advertised(prefix, sep, tools[i]))
  }

  function Elements(names: seq<string>): set<string> {
    set x | x in names
  }

  predicate Unique(names: seq<string>) {
    forall i, j :: 0 <= i < j < |names| ==> names[i] != names[j]
  }

  /** A visible upstream of the listing that may not be advertised. */
  predicate Faulty(us: seq<Upstream>, p: Option<Profile>, l: Listing) {
    var u := Named(us, l.upstream);
    u.Some? && Visible(u.value, p) && (MutatingDenied(u.value, p) || "" in l.tools)
  }

  predicate NoFaults(us: seq<Upstream>, p: Option<Profile>, ls: seq<Listing>) {
    forall l :: l in ls ==> !Faulty(us, p, l)
  }

  /**
   What is at fault: of an enabled upstream that the profile shows, an empty tool name, or any listing when it
   is mutating and the profile does not allow that of it.
   */
  lemma NoFaultsIff(us: seq<Upstream>, p: Option<Profile>, ls: seq<Listing>)
    requires DistinctNames(us)
    ensures NoFaults(us, p, ls) <==>
              forall u, l :: u in us && l in ls && l.upstream == u.name && u.enabled && !u.disabledMode
                             && (p.Some? ==> p.value.name in u.profiles) ==>
                             "" !in l.tools && (u.mutating && p.Some? ==> u.name in p.value.allowMutating)
  {
    forall u | u in us ensures Named(us, u.name) == Some(u) { NamedIs(us, u); }
  }

  /** `advertise_tools`, of a visible upstream */
  method AdvertiseTools(u: Upstream, p: Option<Profile>, sep: string, tools: seq<string>)
    returns (r: Option<seq<string>>)
    ensures r == if MutatingDenied(u, p) || "" in tools then None else Some(Qualified(PrefixOf(u), sep, tools))
  {
    if MutatingDenied(u, p) { return None; }
    var prefix, advertised := PrefixOf(u), [];
    for i := 0 to |tools|
      invariant "" !in tools[..i]
      invariant advertised == Qualified(prefix, sep, tools[..i])
    {
      if tools[i] == "" { return None; }
      assert tools[..i + 1] == tools[..i] + [tools[i]];
      advertised := advertised + [prefix + sep + tools[i]];
    }
    assert tools[..|tools|] == tools;
    r := Some(advertised);
  }

  lemma NextListing(us: seq<Upstream>, p: Option<Profile>, sep: string, ls: seq<Listing>, i: nat)
    requires i < |ls|
    ensures AllNames(us, p, sep, ls[..i + 1]) == AllNames(us, p, sep, ls[..i]) + NamesOf(us, p, sep, ls[i])
    ensures NoFaults(us, p, ls[..i + 1]) <==> NoFaults(us, p, ls[..i]) && !Faulty(us, p, ls[i])
    ensures NoFaults(us, p, ls) ==> !Faulty(us, p, ls[i])
    ensures Unique(AllNames(us, p, sep, ls)) ==> Unique(AllNames(us, p, sep, ls[..i + 1]))
  {
    hide Faulty;
    assert ls[..i + 1] == ls[..i] + [ls[i]] && ls[..i + 1][..i] == ls[..i];
    NamesGrow(us, p, sep, ls, i + 1);
  }

  /** `advertise_all_tools`: raises on a fault, a name listed twice or too many tools. */
  method AdvertiseAllTools(us: seq<Upstream>, p: Option<Profile>, sep: string, ls: seq<Listing>)
    returns (r: Option<seq<string>>)
    ensures r.Some? <==>
      && NoFaults(us, p, ls) && Unique(AllNames(us, p, sep, ls))
      && (p.Some? ==> |AllNames(us, p, sep, ls)| <= p.value.maxTools)
    ensures r.Some? ==> r.value == AllNames(us, p, sep, ls)
  {
    var advertised, names := [], {};
    assert ls[..0] == [] && Unique(advertised) && names == Elements(advertised) && NoFaults(us, p, []);
    hide AllNames, Unique, Elements, NoFaults, Qualified, MutatingDenied;
    for i := 0 to |ls|
      invariant advertised == AllNames(us, p, sep, ls[..i]) && NoFaults(us, p, ls[..i])
      invariant Unique(advertised) && names == Elements(advertised)
    {
      NextListing(us, p, sep, ls, i);
      var u := Named(us, ls[i].upstream);
      if u.Some? && Visible(u.value, p) {
        var tools := AdvertiseTools(u.value, p, sep, ls[i].tools);
        if tools.None? { return None; }
        var allNew;
        advertised, names, allNew := AddNames(advertised, names, tools.value);
        if !allNew { return None; }
      }
    }
    assert ls[..|ls|] == ls;
    if p.Some? && |advertised| > p.value.maxTools { return None; }
    r := Some(advertised);
  }

  /** The inner loop: append names one by one until one was there before. */
  method AddNames(advertised: seq<string>, names: set<string>, tools: seq<string>)
    returns (all: seq<string>, seen: set<string>, allNew: bool)
    requires Unique(advertised) && names == Elements(advertised)
    ensures allNew <==> Unique(advertised + tools)
    ensures allNew ==> all == advertised + tools && seen == Elements(all)
  {
    all, seen := advertised, names;
    for i := 0 to |tools|
      invariant all == advertised + tools[..i] && Unique(all) && seen == Elements(all)
    {
      assert advertised + tools[..i + 1] == all + [tools[i]];
      if tools[i] in seen {
        var k :| 0 <= k < |all| && all[k] == tools[i];
        assert (advertised + tools)[k] == tools[i] == (advertised + tools)[|all|];
        return all, seen, false;
      }
      all, seen := all + [tools[i]], seen + {tools[i]};
    }
    assert tools[..|tools|] == tools;
    allNew := true;
  }

  lemma {:induction false} NamesGrow(us: seq<Upstream>, p: Option<Profile>, sep: string, ls: seq<Listing>, n: nat)
    requires n <= |ls|
    ensures AllNames(us, p, sep, ls[..n]) <= AllNames(us, p, sep, ls)
    decreases |ls|
  {
    if n == |ls| {
      assert ls[..n] == ls;
    } else {
      var init := ls[..|ls| - 1];
      assert init[..n] == ls[..n];
      NamesGrow(us, p, sep, init, n);
    }
  }

  /** Where an advertised name came from. */
  ghost predicate AdvertisedBy(us: seq<Upstream>, p: Option<Profile>, sep: string, ls: seq<Listing>, u: Upstream,
                               tool: string, name: string) {
    && u in us && Visible(u, p) && name == Advertised(PrefixOf(u), sep, tool)
    && exists l :: l in ls && l.upstream == u.name && tool in l.tools
  }

  lemma {:induction false} EveryNameHasASource(us: seq<Upstream>, p: Option<Profile>, sep: string,
                                               ls: seq<Listing>, name: string)
    requires name in AllNames(us, p, sep, ls)
    ensures exists u, tool :: AdvertisedBy(us, p, sep, ls, u, tool, name)
    decreases |ls|
  {
    var init, last := ls[..|ls| - 1], ls[|ls| - 1];
    assert ls == init + [last];
    if name in AllNames(us, p, sep, init) {
      EveryNameHasASource(us, p, sep, init, name);
      var u, tool :| AdvertisedBy(us, p, sep, init, u, tool, name);
      assert AdvertisedBy(us, p, sep, ls, u, tool, name);
    } else {
      var u := Named(us, last.upstream).value;
      var i :| 0 <= i < |last.tools| && name == Advertised(PrefixOf(u), sep, last.tools[i]);
      assert last.tools[i] in last.tools;
      assert AdvertisedBy(us, p, sep, ls, u, last.tools[i], name);
    }
  }

  lemma {:induction false} EverySourceIsNamed(us: seq<Upstream>, p: Option<Profile>, sep: string, ls: seq<Listing>,
                                              u: Upstream, tool: string, name: string)
    requires DistinctNames(us) && AdvertisedBy(us, p, sep, ls, u, tool, name)
    ensures name in AllNames(us, p, sep, ls)
    decreases |ls|
  {
    var l :| l in ls && l.upstream == u.name && tool in l.tools;
    var init, last := ls[..|ls| - 1], ls[|ls| - 1];
    assert ls == init + [last];
    if l in init {
      assert AdvertisedBy(us, p, sep, init, u, tool, name);
      EverySourceIsNamed(us, p, sep, init, u, tool, name);
    } else {
      NamedIs(us, u);
      var i :| 0 <= i < |last.tools| && last.tools[i] == tool;
      assert NamesOf(us, p, sep, last)[i] == name;
    }
  }

  /** The list advertised is exactly the tools of the visible upstreams in the listings, each under its prefix. */
  lemma AdvertisedNamesAre(us: seq<Upstream>, p: Option<Profile>, sep: string, ls: seq<Listing>, name: string)
    requires DistinctNames(us)
    ensures name in AllNames(us, p, sep, ls) <==> exists u, tool :: AdvertisedBy(us, p, sep, ls, u, tool, name)
  {
    if name in AllNames(us, p, sep, ls) {
      EveryNameHasASource(us, p, sep, ls, name);
    } else {
      forall u, tool ensures !AdvertisedBy(us, p, sep, ls, u, tool, name) {
        if AdvertisedBy(us, p, sep, ls, u, tool, name) { EverySourceIsNamed(us, p, sep, ls, u, tool, name); }
      }
    }
  }

  // ---------------------------------------------------------------------------------------
  // Calling
  // ---------------------------------------------------------------------------------------

  /** `_allowed_call_route` */
  function AllowedCallRoute(u: Upstream, p: Option<Profile>, tool: string): Call {
    if Disabled(u) then Rejected(DisabledPrefix)
    else if !InProfile(u, p) then Rejected(ProfileDenied)
    else if MutatingDenied(u, p) then Rejected(MutatingNotAllowed)
    else Routed(Route(u.name, tool))
  }

  /** The first upstream with this prefix, whatever its profiles and whether or not it is enabled. */
  function FirstWithPrefix(us: seq<Upstream>, prefix: string): Option<Upstream> {
    if us == [] then None else if PrefixOf(us[0]) == prefix then Some(us[0]) else FirstWithPrefix(us[1..], prefix)
  }

  function CallRoute(us: seq<Upstream>, p: Option<Profile>, sep: string, name: string): Call {
    var split := Split(name, sep);
    if split.None? || split.value.1 == "" then Rejected(InvalidToolName) else
      var u := FirstWithPrefix(us, split.value.0);
      if u.None? then Rejected(UnknownToolPrefix) else AllowedCallRoute(u.value, p, split.value.1)
  }

  /** `_resolve_call_route` */
  method ResolveCallRoute(us: seq<Upstream>, p: Option<Profile>, sep: string, name: string) returns (r: Call)
    ensures r == CallRoute(us, p, sep, name)
  {
    var split := Split(name, sep);
    if split.None? || split.value.1 == "" { return Rejected(InvalidToolName); }
    for i := 0 to |us|
      invariant FirstWithPrefix(us, split.value.0) == FirstWithPrefix(us[i..], split.value.0)
    {
      if PrefixOf(us[i]) == split.value.0 { return AllowedCallRoute(us[i], p, split.value.1); }
      assert us[i..][1..] == us[i + 1..];
    }
    r := Rejected(UnknownToolPrefix);
  }

  ghost predicate GloballyUniquePrefixes(us: seq<Upstream>) {
    forall i, j :: 0 <= i < j < |us| ==> PrefixOf(us[i]) != PrefixOf(us[j])
  }

  lemma {:induction false} FirstWithPrefixOf(us: seq<Upstream>, u: Upstream)
    requires u in us
    ensures FirstWithPrefix(us, PrefixOf(u)).Some?
    ensures FirstWithPrefix(us, PrefixOf(u)).value in us
    ensures GloballyUniquePrefixes(us) ==> FirstWithPrefix(us, PrefixOf(u)) == Some(u)
  {
    if PrefixOf(us[0]) == PrefixOf(u) {
      if us[0] != u { var j :| 0 <= j < |us| && us[j] == u; }
    } else {
      assert u in us[1..];
      FirstWithPrefixOf(us[1..], u);
    }
  }

  /** The upstream's tools go under this prefix: the one it sets, or its name when it sets none. */
  ghost predicate Bears(u: Upstream, prefix: string) {
    if u.toolPrefix.None? || u.toolPrefix.value == "" then prefix == u.name else u.toolPrefix == Some(prefix)
  }

  lemma {:induction false} FirstBearer(us: seq<Upstream>, prefix: string, i: nat)
    requires i < |us| && Bears(us[i], prefix) && forall j :: 0 <= j < i ==> !Bears(us[j], prefix)
    ensures FirstWithPrefix(us, prefix) == Some(us[i])
  {
    if i > 0 {
      assert !Bears(us[0], prefix);
      FirstBearer(us[1..], prefix, i - 1);
    }
  }

  lemma {:induction false} NoBearer(us: seq<Upstream>, prefix: string)
    requires forall u :: u in us ==> !Bears(u, prefix)
    ensures FirstWithPrefix(us, prefix) == None
  {
    if us != [] {
      assert !Bears(us[0], prefix);
      NoBearer(us[1..], prefix);
    }
  }

  /** What becomes of a call under a clean prefix: the first upstream that bears it decides, in this order. */
  lemma CallIsDecidedByFirstBearer(us: seq<Upstream>, p: Option<Profile>, sep: string, prefix: string, tool: string,
                                   i: nat)
    requires sep != "" && tool != "" && Clean(prefix, sep)
    requires i < |us| && Bears(us[i], prefix) && forall j :: 0 <= j < i ==> !Bears(us[j], prefix)
    ensures CallRoute(us, p, sep, prefix + sep + tool) ==
            if !us[i].enabled || us[i].disabledMode then Rejected(DisabledPrefix)
            else if p.Some? && p.value.name !in us[i].profiles then Rejected(ProfileDenied)
            else if p.Some? && us[i].mutating && us[i].name !in p.value.allowMutating then Rejected(MutatingNotAllowed)
            else Routed(Route(us[i].name, tool))
  {
    AdvertisedSplitsBackIff(prefix, sep, tool);
    FirstBearer(us, prefix, i);
  }

  /** And the calls that reach no upstream: without a separator or a tool, and under a prefix that none bears. */
  lemma CallsWithoutUpstream(us: seq<Upstream>, p: Option<Profile>, sep: string, prefix: string, tool: string,
                             name: string)
    requires sep != "" && Clean(prefix, sep)
    ensures tool == "" ==> CallRoute(us, p, sep, prefix + sep + tool) == Rejected(InvalidToolName)
    ensures tool != "" && (forall u :: u in us ==> !Bears(u, prefix)) ==>
              CallRoute(us, p, sep, prefix + sep + tool) == Rejected(UnknownToolPrefix)
    ensures (forall j :: 0 <= j <= |name| ==> !(sep <= name[j..])) ==>
              CallRoute(us, p, sep, name) == Rejected(InvalidToolName)
  {
    AdvertisedSplitsBackIff(prefix, sep, tool);
    if forall u :: u in us ==> !Bears(u, prefix) { NoBearer(us, prefix); }
    if Contains(name, sep) { assert sep <= name[Find(name, sep).value..]; }
  }

  /**
   Every advertised name, given back to the router, resolves to its upstream and tool exactly when the
   prefix is clean.
   */
  lemma AdvertisedNamesResolveIff(us: seq<Upstream>, p: Option<Profile>, sep: string, ls: seq<Listing>,
                                  index: map<string, string>, u: Upstream, tool: string, name: string)
    requires sep != "" && Indexes(index, us, p) && NoFaults(us, p, ls) && DistinctNames(us)
    requires AdvertisedBy(us, p, sep, ls, u, tool, name)
    ensures ResolveToolName(index, sep, name) == Some(Route(u.name, tool)) <==> Clean(PrefixOf(u), sep)
  {
    AdvertisedToolNamed(us, p, sep, ls, u, tool, name);
    AdvertisedSplitsBackIff(PrefixOf(u), sep, tool);
    if !Clean(PrefixOf(u), sep) { UncleanToolDiffers(PrefixOf(u), sep, tool); }
  }

  lemma AdvertisedToolNamed(us: seq<Upstream>, p: Option<Profile>, sep: string, ls: seq<Listing>, u: Upstream,
                            tool: string, name: string)
    requires NoFaults(us, p, ls) && DistinctNames(us) && AdvertisedBy(us, p, sep, ls, u, tool, name)
    ensures tool != "" && !MutatingDenied(u, p)
  {
    var l :| l in ls && l.upstream == u.name && tool in l.tools;
    NamedIs(us, u);
    assert !Faulty(us, p, l);
  }

  lemma UncleanToolDiffers(prefix: string, sep: string, tool: string)
    requires sep != "" && !Clean(prefix, sep)
    ensures var split := Split(Advertised(prefix, sep, tool), sep); split.Some? && |split.value.1| > |tool|
  {
    FindInAdvertised(prefix, sep, tool);
  }

  /**
   Every advertised name can be called under the same profile exactly when its prefix is clean and no
   earlier upstream of the configuration, visible or not, has the same prefix.
   */
  lemma AdvertisedNamesAreCallableIff(us: seq<Upstream>, p: Option<Profile>, sep: string, ls: seq<Listing>,
                                      u: Upstream, tool: string, name: string)
    requires sep != "" && NoFaults(us, p, ls) && DistinctNames(us)
    requires AdvertisedBy(us, p, sep, ls, u, tool, name)
    ensures CallRoute(us, p, sep, name) == Routed(Route(u.name, tool)) <==>
              Clean(PrefixOf(u), sep) && FirstWithPrefix(us, PrefixOf(u)) == Some(u)
  {
    AdvertisedToolNamed(us, p, sep, ls, u, tool, name);
    if Clean(PrefixOf(u), sep) {
      CleanCallRoute(us, p, sep, u, tool);
      FirstIsNamed(us, u);
    } else {
      UncleanCallRoute(us, p, sep, PrefixOf(u), tool);
    }
  }

  lemma FirstIsNamed(us: seq<Upstream>, u: Upstream)
    requires DistinctNames(us) && u in us
    ensures FirstWithPrefix(us, PrefixOf(u)).Some?
    ensures FirstWithPrefix(us, PrefixOf(u)).value.name == u.name <==> FirstWithPrefix(us, PrefixOf(u)) == Some(u)
  {
    FirstWithPrefixOf(us, u);
    NamedIs(us, u);
    NamedIs(us, FirstWithPrefix(us, PrefixOf(u)).value);
  }

  lemma CleanCallRoute(us: seq<Upstream>, p: Option<Profile>, sep: string, u: Upstream, tool: string)
    requires sep != "" && tool != "" && u in us && Clean(PrefixOf(u), sep)
    ensures var first := FirstWithPrefix(us, PrefixOf(u));
      first.Some? && CallRoute(us, p, sep, Advertised(PrefixOf(u), sep, tool)) == AllowedCallRoute(first.value, p, tool)
  {
    AdvertisedSplitsBackIff(PrefixOf(u), sep, tool);
    FirstWithPrefixOf(us, u);
  }

  lemma UncleanCallRoute(us: seq<Upstream>, p: Option<Profile>, sep: string, prefix: string, tool: string)
    requires sep != "" && !Clean(prefix, sep)
    ensures var r := CallRoute(us, p, sep, Advertised(prefix, sep, tool)); r.Routed? ==> r.route.tool != tool
  {
    UncleanToolDiffers(prefix, sep, tool);
  }

  lemma GloballyUniquePrefixesRoute(us: seq<Upstream>, p: Option<Profile>, sep: string, ls: seq<Listing>,
                                    index: map<string, string>, u: Upstream, tool: string, name: string)
    requires sep != "" && Indexes(index, us, p) && NoFaults(us, p, ls) && DistinctNames(us)
    requires GloballyUniquePrefixes(us) && Clean(PrefixOf(u), sep) && AdvertisedBy(us, p, sep, ls, u, tool, name)
    ensures ResolveToolName(index, sep, name) == Some(Route(u.name, tool))
    ensures CallRoute(us, p, sep, name) == Routed(Route(u.name, tool))
  {
    AdvertisedNamesResolveIff(us, p, sep, ls, index, u, tool, name);
    AdvertisedNamesAreCallableIff(us, p, sep, ls, u, tool, name);
    FirstWithPrefixOf(us, u);
  }

  // ---------------------------------------------------------------------------------------
  // What the configuration guarantees
  // ---------------------------------------------------------------------------------------

  predicate Exposed(u: Upstream, profile: string) {
    !Disabled(u) && profile in u.profiles
  }

  /** `_validate_unique_profile_prefixes` accepts: unique per profile, among the enabled upstreams. */
  ghost predicate AcceptedByConfig(us: seq<Upstream>) {
    forall i, j, q :: 0 <= i < j < |us| && Exposed(us[i], q) && Exposed(us[j], q) ==> PrefixOf(us[i]) != PrefixOf(us[j])
  }

  /** An accepted configuration builds a router for each of its profiles. */
  lemma AcceptedConfigBuildsRouters(us: seq<Upstream>, p: Profile)
    requires AcceptedByConfig(us)
    ensures !SharedPrefix(us, Some(p))
  {
    forall i, j | 0 <= i < j < |us| ensures !SharedPrefixAt(us, Some(p), i, j) {
      if Visible(us[i], Some(p)) && Visible(us[j], Some(p)) {
        assert Exposed(us[i], p.name) && Exposed(us[j], p.name);
      }
    }
  }

  /** Two profiles share a prefix, as the configuration permits. */
  const WORK := Upstream("files-a", Some("files"), true, false, {"work"}, false)
  const HOME := Upstream("files-b", Some("files"), true, false, {"home"}, false)
  const BOTH := [WORK, HOME]
  const AT_HOME := Some(Profile("home", {}, 10))

  /**
   But not that its advertised names can be called: an accepted configuration advertises a tool that
   the call route refuses, as an upstream of another profile has the prefix first.
   */
  lemma AcceptedConfigCanAdvertiseUncallable()
    ensures AcceptedByConfig(BOTH) && DistinctNames(BOTH) && Clean("files", ".")
    ensures NoFaults(BOTH, AT_HOME, [Listing("files-b", ["read"])])
    ensures AdvertisedBy(BOTH, AT_HOME, ".", [Listing("files-b", ["read"])], HOME, "read", "files.read")
    ensures CallRoute(BOTH, AT_HOME, ".", "files.read") == Rejected(ProfileDenied)
  {
    CleanFiles();
    ExampleIsAccepted();
    ExampleIsAdvertised();
    ExampleIsRefused();
  }

  lemma ExampleIsAccepted()
    ensures AcceptedByConfig(BOTH) && DistinctNames(BOTH)
  {
    assert WORK.name[6] != HOME.name[6];
  }

  lemma ExampleIsAdvertised()
    ensures NoFaults(BOTH, AT_HOME, [Listing("files-b", ["read"])])
    ensures AdvertisedBy(BOTH, AT_HOME, ".", [Listing("files-b", ["read"])], HOME, "read", "files.read")
  {
    var l := Listing("files-b", ["read"]);
    assert l in [l] && "read" in l.tools && BOTH[1] == HOME;
    assert "files" + "." + "read" == "files.read";
    ExampleIsAccepted();
    NamedIs(BOTH, HOME);
    assert "" !in l.tools;
  }

  lemma ExampleIsRefused()
    ensures CallRoute(BOTH, AT_HOME, ".", "files.read") == Rejected(ProfileDenied)
  {
    CleanFiles();
    AdvertisedSplitsBackIff("files", ".", "read");
    assert Advertised("files", ".", "read") == "files.read";
    assert FirstWithPrefix(BOTH, "files") == Some(WORK);
    assert "home"[0] != "work"[0];
  }

  lemma CleanFiles()
    ensures Clean("files", ".")
  {
    var s := "files";
    assert s + "."[..0] == s;
    if Contains(s, ".") { assert s[Find(s, ".").value..][0] == '.'; }
  }

  // ---------------------------------------------------------------------------------------
  // The gates
  // ---------------------------------------------------------------------------------------

  /** `_status_exposes_upstream` */
  predicate StatusExposes(u: Upstream, p: Option<Profile>) {
    if Disabled(u) then false
    else if !InProfile(u, p) then false
    else !(u.mutating && p.Some? && u.name !in p.value.allowMutating)
  }

  /** What a session reports of itself. */
  datatype Health = Health(failing: bool, state: Option<string>)

  datatype Shown = Shown(exposed: bool, failing: bool, state: string)

  /** Exposed as the call gate admits it; the rest as its session has it, or as configured where that is silent. */
  ghost predicate ShowsItself(u: Upstream, p: Option<Profile>, health: map<string, Health>, shown: Shown) {
    && (shown.exposed <==> AllowedCallRoute(u, p, "").Routed?)
    && (shown.failing <==> u.name in health && health[u.name].failing)
    && (u.name in health && health[u.name].state.Some? ==> Some(shown.state) == health[u.name].state)
    && (u.name !in health || health[u.name].state.None? ==>
          shown.state == if u.enabled && !u.disabledMode then "configured" else "disabled")
  }

  lemma ExposedIffAllowed(u: Upstream, p: Option<Profile>)
    ensures StatusExposes(u, p) <==> AllowedCallRoute(u, p, "").Routed?
  {
  }

  /** In the status report exactly if disabled or admitted, and then as itself. */
  ghost predicate ReportedRight(r: map<string, Shown>, u: Upstream, p: Option<Profile>, health: map<string, Health>) {
    && (u.name in r <==> Disabled(u) || AllowedCallRoute(u, p, "").Routed?)
    && (u.name in r ==> ShowsItself(u, p, health, r[u.name]))
  }

  /** `_status_upstreams`: besides the disabled ones, exactly what the call gate admits. */
  method StatusUpstreams(us: seq<Upstream>, p: Option<Profile>, health: map<string, Health>)
    returns (r: map<string, Shown>)
    requires DistinctNames(us)
    ensures forall u :: u in us ==> ReportedRight(r, u, p, health)
    ensures forall name :: name in r ==> exists u :: u in us && u.name == name
  {
    r := map[];
    for i := 0 to |us|
      invariant forall k :: 0 <= k < i ==> ReportedRight(r, us[k], p, health)
      invariant forall name :: name in r ==> exists k :: 0 <= k < i && us[k].name == name
    {
      var u := us[i];
      ghost var before := r;
      var exposed := StatusExposes(u, p);
      if exposed || !u.enabled || u.disabledMode {
        var h := if u.name in health then health[u.name] else Health(false, None);
        var state := if u.enabled && !u.disabledMode then "configured" else "disabled";
        r := r[u.name := Shown(exposed, h.failing, if h.state.Some? then h.state.value else state)];
      }
      ReportedNext(before, r, us, p, health, i);
    }
  }

  lemma ReportedNext(before: map<string, Shown>, r: map<string, Shown>, us: seq<Upstream>, p: Option<Profile>,
                     health: map<string, Health>, i: nat)
    requires DistinctNames(us) && i < |us|
    requires forall k :: 0 <= k < i ==> ReportedRight(before, us[k], p, health)
    requires forall name :: name in before ==> exists k :: 0 <= k < i && us[k].name == name
    requires forall name :: name != us[i].name ==>
               (name in r <==> name in before) && (name in before ==> r[name] == before[name])
    requires ReportedRight(r, us[i], p, health)
    ensures forall k :: 0 <= k <= i ==> ReportedRight(r, us[k], p, health)
  {
  }

  /** `upstream_owns_tool_name` */
  predicate Owns(u: Upstream, name: string, sep: string) {
    PrefixOf(u) + sep <= name
  }

  /** Owning a name is to be the prefix of some tool, the empty one included. */
  lemma OwnsIff(u: Upstream, prefix: string, sep: string, name: string)
    requires Bears(u, prefix)
    ensures Owns(u, name, sep) <==> exists tool :: name == prefix + sep + tool
  {
    if Owns(u, name, sep) {
      var head := prefix + sep;
      assert name == head + name[|head|..];
    }
  }

  /** The call gate admits some owner of the name. */
  ghost predicate HasOwner(us: seq<Upstream>, p: Option<Profile>, sep: string, name: string) {
    exists u :: u in us && AllowedCallRoute(u, p, "").Routed? && Owns(u, name, sep)
  }

  /** In the catalog that a tool name is looked up in. */
  ghost predicate Listed(us: seq<Upstream>, p: Option<Profile>, sep: string, name: string, u: Upstream) {
    u in us && AllowedCallRoute(u, p, "").Routed? && (name != "" && HasOwner(us, p, sep, name) ==> Owns(u, name, sep))
  }

  /** `_catalog_upstreams`, with an empty query */
  method CatalogUpstreams(us: seq<Upstream>, p: Option<Profile>, sep: string, name: string) returns (r: seq<Upstream>)
    ensures forall u :: u in r <==> Listed(us, p, sep, name, u)
  {
    r := [];
    for i := 0 to |us|
      invariant forall u :: u in r <==> u in us[..i] && AllowedCallRoute(u, p, "").Routed?
    {
      assert us[..i + 1] == us[..i] + [us[i]];
      if Disabled(us[i]) { continue; }
      if !InProfile(us[i], p) { continue; }
      if us[i].mutating && p.Some? && us[i].name !in p.value.allowMutating { continue; }
      r := r + [us[i]];
    }
    assert us[..|us|] == us;
    if name != "" {
      var matched := OwnersAmong(r, sep, name);
      if matched != [] {
        assert matched[0] in matched;
        return matched;
      }
    }
  }

  method OwnersAmong(us: seq<Upstream>, sep: string, name: string) returns (r: seq<Upstream>)
    ensures forall u :: u in r <==> u in us && Owns(u, name, sep)
  {
    r := [];
    for i := 0 to |us|
      invariant forall u :: u in r <==> u in us[..i] && Owns(u, name, sep)
    {
      assert us[..i + 1] == us[..i] + [us[i]];
      if Owns(us[i], name, sep) { r := r + [us[i]]; }
    }
    assert us[..|us|] == us;
  }

  /**
   What status and catalog promise of an upstream: a tool name under its prefix reaches it exactly when
   it is shown as exposed, its prefix is clean, and no earlier upstream has that prefix.
   */
  lemma ExposedIsCallableIff(us: seq<Upstream>, p: Option<Profile>, sep: string, u: Upstream, tool: string)
    requires sep != "" && tool != "" && DistinctNames(us) && u in us
    ensures CallRoute(us, p, sep, Advertised(PrefixOf(u), sep, tool)) == Routed(Route(u.name, tool)) <==>
              StatusExposes(u, p) && Clean(PrefixOf(u), sep) && FirstWithPrefix(us, PrefixOf(u)) == Some(u)
  {
    if Clean(PrefixOf(u), sep) {
      CleanCallRoute(us, p, sep, u, tool);
      FirstIsNamed(us, u);
    } else {
      UncleanCallRoute(us, p, sep, PrefixOf(u), tool);
    }
  }

  /**
   A call goes to an upstream that status exposes and that a lookup of the name in the catalog lists, as
   all that it lists own the name; and under clean prefixes no other owner has another prefix.
   */
  lemma CallsGoToOwners(us: seq<Upstream>, p: Option<Profile>, sep: string, name: string, u: Upstream)
    requires sep != "" && DistinctNames(us) && CallRoute(us, p, sep, name).Routed?
    requires u in us && u.name == CallRoute(us, p, sep, name).route.upstream
    ensures Owns(u, name, sep) && Advertised(PrefixOf(u), sep, CallRoute(us, p, sep, name).route.tool) == name
    ensures StatusExposes(u, p) && Listed(us, p, sep, name, u)
    ensures forall v :: Listed(us, p, sep, name, v) ==> Owns(v, name, sep)
    ensures forall v :: v in us && Owns(v, name, sep) && Clean(PrefixOf(v), sep) ==> PrefixOf(v) == PrefixOf(u)
  {
    var (prefix, tool) := Split(name, sep).value;
    var at := Find(name, sep).value;
    FirstWithPrefixIs(us, prefix);
    NamedIs(us, u);
    NamedIs(us, FirstWithPrefix(us, prefix).value);
    assert name == name[..at] + name[at..] && name[at..] == sep + tool;
    assert name == prefix + sep + tool;
    forall v | v in us && Owns(v, name, sep) && Clean(PrefixOf(v), sep) ensures PrefixOf(v) == prefix {
      var t := name[|PrefixOf(v) + sep|..];
      assert name == Advertised(PrefixOf(v), sep, t);
      AdvertisedSplitsBackIff(PrefixOf(v), sep, t);
    }
  }

  lemma FirstWithPrefixIs(us: seq<Upstream>, prefix: string)
    requires FirstWithPrefix(us, prefix).Some?
    ensures FirstWithPrefix(us, prefix).value in us && PrefixOf(FirstWithPrefix(us, prefix).value) == prefix
  {
  }
}
