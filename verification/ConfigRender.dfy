/**
 Rewriting a client's TOML configuration (src/mcp_broker/config_render.py): the MCP tables and the
 legacy comment block are stripped and the broker's own tables are appended.

 A line is what its stripped text makes of it; splitting text into lines and quoting are left out.
 */
module ConfigRender {
  import opened Prelude

  datatype Line =
    | Blank
    | Separator                        // the dashed comment
    | Marker(text: string)             // one of the two legacy comment markers
    | Header(mcp: bool, text: string)  // a table header; `mcp` for mcp_servers and its sub-tables
    | Other(text: string)

  /** Header and content lines, which separators and blanks only decorate. */
  predicate Significant(l: Line) {
    l.Header? || l.Other? || l.Marker?
  }

  function Significants(ls: seq<Line>): seq<Line> {
    if ls == [] then [] else
      Significants(ls[..|ls| - 1]) + if Significant(ls[|ls| - 1]) then [ls[|ls| - 1]] else []
  }

  // ---------------------------------------------------------------------------------------
  // The stripping loop
  // ---------------------------------------------------------------------------------------

  /** The loop's variables. */
  datatype State = State(skipping: bool, legacy: bool, pending: seq<Line>, kept: seq<Line>)

  const START := State(false, false, [], [])

  function Flushed(s: State): State {
    s.(kept := s.kept + s.pending, pending := [])
  }

  /** One turn of the loop in `_strip_codex_mcp_tables`. */
  function Turn(s: State, l: Line): State {
    if s.legacy && !l.Header? then s
    else if l.Separator? then s.(pending := [l])
    else if l.Blank? && s.pending != [] then s.(pending := s.pending + [l])
    else if l.Marker? then s.(pending := [], legacy := true)
    else
      var skipping := if l.Header? then l.mcp else s.skipping;
      State(skipping, false, [], Flushed(s).kept + if skipping then [] else [l])
  }

  function Scan(ls: seq<Line>): State {
    if ls == [] then START else Turn(Scan(ls[..|ls| - 1]), ls[|ls| - 1])
  }

  /** The lines kept, before trailing blanks go. */
  function Kept(ls: seq<Line>): seq<Line> {
    Flushed(Scan(ls)).kept
  }

  /** The loop of `_strip_codex_mcp_tables` */
  method StripTables(ls: seq<Line>) returns (r: seq<Line>)
    ensures r == Kept(ls)
  {
    var kept, skipping, legacy, pending := [], false, false, [];
    for i := 0 to |ls|
      invariant State(skipping, legacy, pending, kept) == Scan(ls[..i])
    {
      assert ls[..i + 1][..i] == ls[..i];
      var l := ls[i];
      if legacy {
        if l.Header? { legacy := false; } else { continue; }
      }
      if l.Separator? {
        pending := [l];
        continue;
      }
      if pending != [] && l.Blank? {
        pending := pending + [l];
        continue;
      }
      if l.Marker? {
        pending, legacy := [], true;
        continue;
      } else if pending != [] {
        kept, pending := kept + pending, [];
      }
      if l.Header? { skipping := l.mcp; }
      if !skipping && !legacy { kept := kept + [l]; }
    }
    assert ls[..|ls|] == ls;
    r := kept + pending;
  }

  predicate Decoration(l: Line) {
    l.Blank? || l.Separator?
  }

  /** The longest prefix that ends in neither a blank nor a separator. */
  function Trimmed(ls: seq<Line>): seq<Line> {
    if ls != [] && Decoration(ls[|ls| - 1]) then Trimmed(ls[..|ls| - 1]) else ls
  }

  /** `_strip_trailing_separator_comments` */
  method StripTrailingSeparators(ls: seq<Line>) returns (r: seq<Line>)
    ensures r == Trimmed(ls)
  {
    r := DropBlanks(ls);
    while r != [] && r[|r| - 1].Separator?
      invariant Trimmed(r) == Trimmed(ls) && (r != [] ==> !r[|r| - 1].Blank?)
      decreases |r|
    {
      r := r[..|r| - 1];
      r := DropBlanks(r);
    }
  }

  method DropBlanks(ls: seq<Line>) returns (r: seq<Line>)
    ensures Trimmed(r) == Trimmed(ls) && |r| <= |ls| && (r != [] ==> !r[|r| - 1].Blank?)
  {
    r := ls;
    while r != [] && r[|r| - 1].Blank?
      invariant Trimmed(r) == Trimmed(ls) && |r| <= |ls|
      decreases |r|
    {
      r := r[..|r| - 1];
    }
  }

  function Preserved(ls: seq<Line>): seq<Line> {
    Trimmed(Kept(ls))
  }

  function Render(ls: seq<Line>, entry: seq<Line>): seq<Line> {
    if Preserved(ls) == [] then entry else Preserved(ls) + ([Blank] + entry)
  }

  /** `_render_codex_toml` */
  method RenderCodexToml(ls: seq<Line>, entry: seq<Line>) returns (r: seq<Line>)
    ensures r == Render(ls, entry)
  {
    var stripped := StripTables(ls);
    var preserved := StripTrailingSeparators(stripped);
    r := if preserved == [] then entry else preserved + ([Blank] + entry);
  }

  // ---------------------------------------------------------------------------------------
  // What is kept
  // ---------------------------------------------------------------------------------------

  predicate NoHeaderAfter(ls: seq<Line>, j: int, i: int)
    requires 0 <= j <= i < |ls|
  {
    forall k :: j < k <= i ==> !ls[k].Header?
  }

  /** Line `i` lies in an MCP table: the last header up to it is one of theirs. */
  predicate InMcpTable(ls: seq<Line>, i: int)
    requires 0 <= i < |ls|
  {
    exists j :: 0 <= j <= i && ls[j].Header? && ls[j].mcp && NoHeaderAfter(ls, j, i)
  }

  /** Line `i` lies in a legacy comment block: a marker came, and no header since. */
  predicate InLegacyBlock(ls: seq<Line>, i: int)
    requires 0 <= i < |ls|
  {
    exists j :: 0 <= j <= i && ls[j].Marker? && NoHeaderAfter(ls, j, i)
  }

  predicate Outside(ls: seq<Line>, i: int)
    requires 0 <= i < |ls|
  {
    !InMcpTable(ls, i) && !InLegacyBlock(ls, i)
  }

  /** The significant lines outside, in order. */
  function OutsideLines(ls: seq<Line>, n: nat): seq<Line>
    requires n <= |ls|
  {
    if n == 0 then [] else
      OutsideLines(ls, n - 1) + if Significant(ls[n - 1]) && Outside(ls, n - 1) then [ls[n - 1]] else []
  }

  lemma SignificantsAppend(ls: seq<Line>, l: Line)
    ensures Significants(ls + [l]) == Significants(ls) + if Significant(l) then [l] else []
  {
    assert (ls + [l])[..|ls|] == ls;
  }

  lemma {:induction false} SignificantsConcat(a: seq<Line>, b: seq<Line>)
    ensures Significants(a + b) == Significants(a) + Significants(b)
    decreases |b|
  {
    if b == [] {
      assert a + b == a;
    } else {
      var init, last := b[..|b| - 1], b[|b| - 1];
      assert a + b == (a + init) + [last] && b == init + [last];
      SignificantsConcat(a, init);
      SignificantsAppend(a + init, last);
      SignificantsAppend(init, last);
    }
  }

  lemma {:induction false} OnlyDecoration(ls: seq<Line>)
    requires forall l :: l in ls ==> Decoration(l)
    ensures Significants(ls) == []
  {
    if ls != [] {
      assert ls[|ls| - 1] in ls;
      OnlyDecoration(ls[..|ls| - 1]);
    }
  }

  lemma {:induction false} TrimmedKeepsSignificants(ls: seq<Line>)
    ensures Significants(Trimmed(ls)) == Significants(ls)
  {
    if ls != [] && Decoration(ls[|ls| - 1]) { TrimmedKeepsSignificants(ls[..|ls| - 1]); }
  }

  /** The next line extends the table and the block its predecessor is in, unless it starts another. */
  lemma NextPlace(ls: seq<Line>, i: int)
    requires 0 <= i < |ls|
    ensures InMcpTable(ls, i) <==> if ls[i].Header? then ls[i].mcp else i > 0 && InMcpTable(ls, i - 1)
    ensures InLegacyBlock(ls, i) <==> ls[i].Marker? || (!ls[i].Header? && i > 0 && InLegacyBlock(ls, i - 1))
  {
    if ls[i].Header? || ls[i].Marker? { assert NoHeaderAfter(ls, i, i); }
    if i > 0 && !ls[i].Header? {
      forall j | 0 <= j <= i - 1 ensures NoHeaderAfter(ls, j, i) <==> NoHeaderAfter(ls, j, i - 1) {}
    }
  }

  /** After `n` lines the loop knows where it is. */
  lemma {:induction false} ScanKnowsItsPlace(ls: seq<Line>, n: nat)
    requires n <= |ls|
    ensures var s := Scan(ls[..n]);
      && (forall l :: l in s.pending ==> Decoration(l))
      && (n > 0 ==> s.legacy == InLegacyBlock(ls, n - 1))
      && (n > 0 && !s.legacy ==> s.skipping == InMcpTable(ls, n - 1))
      && (n == 0 ==> s == START)
      && (s.legacy ==> n > 0)
  {
    if n > 0 {
      ScanKnowsItsPlace(ls, n - 1);
      assert ls[..n][..n - 1] == ls[..n - 1];
      NextPlace(ls, n - 1);
      if n > 1 && !InLegacyBlock(ls, n - 1) && !ls[n - 1].Header? { assert !InLegacyBlock(ls, n - 2); }
    }
  }

  /** And has kept the significant lines outside. */
  lemma {:induction false} ScanKeepsOutside(ls: seq<Line>, n: nat)
    requires n <= |ls|
    ensures Significants(Scan(ls[..n]).kept) == OutsideLines(ls, n)
  {
    if n > 0 {
      ScanKeepsOutside(ls, n - 1);
      ScanKnowsItsPlace(ls, n - 1);
      assert ls[..n][..n - 1] == ls[..n - 1];
      PlaceDecides(ls, n);
      TurnKeeps(Scan(ls[..n - 1]), ls[n - 1]);
    }
  }

  /** The loop's variables before line `n - 1` tell whether it is a significant line outside. */
  lemma PlaceDecides(ls: seq<Line>, n: nat)
    requires 0 < n <= |ls|
    ensures var s, l := Scan(ls[..n - 1]), ls[n - 1];
      Significant(l) && Outside(ls, n - 1) <==> (l.Header? && !l.mcp) || (l.Other? && !s.legacy && !s.skipping)
  {
    ScanKnowsItsPlace(ls, n - 1);
    NextPlace(ls, n - 1);
  }

  /** One turn keeps a significant line unless the loop is skipping or the line starts what is skipped. */
  lemma TurnKeeps(s: State, l: Line)
    requires forall p :: p in s.pending ==> Decoration(p)
    ensures Significants(Turn(s, l).kept) == Significants(s.kept) +
              if (l.Header? && !l.mcp) || (l.Other? && !s.legacy && !s.skipping) then [l] else []
  {
    OnlyDecoration(s.pending);
    SignificantsConcat(s.kept, s.pending);
    SignificantsAppend(s.kept + s.pending, l);
    assert s.kept + s.pending + [] == s.kept + s.pending;
  }

  /** Separators and blanks apart, rendering preserves exactly the lines outside MCP tables and legacy blocks. */
  lemma PreservedIsOutside(ls: seq<Line>)
    ensures Significants(Preserved(ls)) == OutsideLines(ls, |ls|)
  {
    ScanKeepsOutside(ls, |ls|);
    ScanKnowsItsPlace(ls, |ls|);
    assert ls[..|ls|] == ls;
    var s := Scan(ls);
    OnlyDecoration(s.pending);
    SignificantsConcat(s.kept, s.pending);
    TrimmedKeepsSignificants(Kept(ls));
  }

  /** A separator outside legacy blocks, or a blank with nothing but blanks up to one. */
  predicate UnderSeparator(ls: seq<Line>, i: int)
    requires 0 <= i < |ls|
  {
    if ls[i].Separator? then !InLegacyBlock(ls, i) else ls[i].Blank? && i > 0 && UnderSeparator(ls, i - 1)
  }

  /** Nothing but blanks come before the next separator or marker. */
  predicate Superseded(ls: seq<Line>, i: int)
    requires 0 <= i < |ls|
    decreases |ls| - i
  {
    i + 1 < |ls| && (ls[i + 1].Separator? || ls[i + 1].Marker? || (ls[i + 1].Blank? && Superseded(ls, i + 1)))
  }

  /** What becomes of a line: a separator and its blanks stay unless superseded, the others if they are outside. */
  predicate Stays(ls: seq<Line>, i: int)
    requires 0 <= i < |ls|
  {
    if UnderSeparator(ls, i) then !Superseded(ls, i) else Outside(ls, i)
  }

  function StayingLines(ls: seq<Line>, n: nat): seq<Line>
    requires n <= |ls|
  {
    if n == 0 then [] else StayingLines(ls, n - 1) + if Stays(ls, n - 1) then [ls[n - 1]] else []
  }

  /** The pending lines of the loop are those under the last separator, and none within a block. */
  lemma {:induction false} ScanKnowsItsPending(ls: seq<Line>, n: nat)
    requires n <= |ls|
    ensures var s := Scan(ls[..n]);
      && (s.pending != [] <==> n > 0 && UnderSeparator(ls, n - 1))
      && (s.legacy ==> s.pending == [])
  {
    if n > 0 {
      ScanKnowsItsPending(ls, n - 1);
      ScanKnowsItsPlace(ls, n - 1);
      ScanKnowsItsPlace(ls, n);
      assert ls[..n][..n - 1] == ls[..n - 1];
      NextPlace(ls, n - 1);
    }
  }

  /** After `n` lines: what stays of them is kept or, unless it is going to be superseded, pending. */
  lemma {:induction false} ScanKeepsStaying(ls: seq<Line>, n: nat)
    requires n <= |ls|
    ensures var s := Scan(ls[..n]);
      StayingLines(ls, n) == s.kept + if n > 0 && Superseded(ls, n - 1) then [] else s.pending
  {
    if n > 0 {
      ScanKeepsStaying(ls, n - 1);
      ScanKnowsItsPending(ls, n - 1);
      assert ls[..n][..n - 1] == ls[..n - 1];
      LineStays(ls, n);
      var s, l := Scan(ls[..n - 1]), ls[n - 1];
      assert s.kept + (s.pending + [l]) == (s.kept + s.pending) + [l];
      assert s.pending == [] ==> s.kept + s.pending == s.kept + [] == s.kept;
    }
  }

  lemma LineStays(ls: seq<Line>, n: nat)
    requires 0 < n <= |ls|
    ensures var s, l := Scan(ls[..n - 1]), ls[n - 1];
      Stays(ls, n - 1) <==>
        if !s.legacy && (l.Separator? || (l.Blank? && s.pending != [])) then !Superseded(ls, n - 1)
        else (l.Header? && !l.mcp) || ((l.Other? || l.Blank?) && !s.legacy && !s.skipping)
  {
    ScanKnowsItsPending(ls, n - 1);
    ScanKnowsItsPlace(ls, n - 1);
    NextPlace(ls, n - 1);
  }

  /** Rendering preserves exactly the lines that stay, up to the last that is no decoration. */
  lemma PreservedIsStaying(ls: seq<Line>)
    ensures Preserved(ls) == Trimmed(StayingLines(ls, |ls|))
  {
    ScanKeepsStaying(ls, |ls|);
    assert ls[..|ls|] == ls;
  }

  // ---------------------------------------------------------------------------------------
  // Rendering again
  // ---------------------------------------------------------------------------------------

  /** The broker's tables: MCP tables from the first line to the last. */
  predicate IsEntry(entry: seq<Line>) {
    entry != [] && entry[0].Header? &&
    forall l :: l in entry ==> !l.Marker? && !l.Separator? && (l.Header? ==> l.mcp)
  }

  /** Nothing that stripping looks for. */
  predicate Plain(ls: seq<Line>) {
    forall l :: l in ls ==> !l.Marker? && (l.Header? ==> !l.mcp)
  }

  lemma {:induction false} KeptIsPlain(ls: seq<Line>)
    ensures Plain(Scan(ls).kept) && Plain(Scan(ls).pending)
  {
    if ls != [] { KeptIsPlain(ls[..|ls| - 1]); }
  }

  lemma {:induction false} TrimmedIsPrefix(ls: seq<Line>)
    ensures Trimmed(ls) <= ls
    ensures Trimmed(ls) != [] ==> !Decoration(Trimmed(ls)[|Trimmed(ls)| - 1])
  {
    if ls != [] && Decoration(ls[|ls| - 1]) { TrimmedIsPrefix(ls[..|ls| - 1]); }
  }

  lemma PreservedIsPlain(ls: seq<Line>)
    ensures Plain(Preserved(ls))
  {
    KeptIsPlain(ls);
    TrimmedIsPrefix(Kept(ls));
    assert forall l :: l in Preserved(ls) ==> l in Kept(ls);
  }

  /** Only blanks follow the last separator. */
  predicate Open(ls: seq<Line>) {
    ls != [] && (ls[|ls| - 1].Separator? || (ls[|ls| - 1].Blank? && Open(ls[..|ls| - 1])))
  }

  /** Somewhere two separators have nothing but blanks between: the loop forgets the first. */
  predicate Repeats(ls: seq<Line>) {
    ls != [] && (Repeats(ls[..|ls| - 1]) || (ls[|ls| - 1].Separator? && Open(ls[..|ls| - 1])))
  }

  /** A turn on a plain line forgets a pending separator when another comes, and nothing else. */
  lemma PlainTurn(s: State, l: Line)
    requires !s.skipping && !s.legacy && !l.Marker? && (l.Header? ==> !l.mcp)
    ensures var t := Turn(s, l);
      && !t.skipping && !t.legacy
      && (t.pending != [] <==> l.Separator? || (l.Blank? && s.pending != []))
      && Flushed(t).kept == (if l.Separator? then s.kept else Flushed(s).kept) + [l]
  {
    assert s.kept + (s.pending + [l]) == (s.kept + s.pending) + [l];
    assert (s.kept + s.pending + [l]) + [] == (s.kept + s.pending) + [l];
  }

  lemma {:induction false} PlainScan(ls: seq<Line>)
    requires Plain(ls)
    ensures !Scan(ls).skipping && !Scan(ls).legacy && (Scan(ls).pending != [] <==> Open(ls))
    ensures Kept(ls) == ls <==> !Repeats(ls)
    ensures Kept(ls) == ls || |Kept(ls)| < |ls|
  {
    if ls != [] {
      var init, l := ls[..|ls| - 1], ls[|ls| - 1];
      assert l in ls && ls == init + [l];
      PlainScan(init);
      PlainTurn(Scan(init), l);
      KeptGrows(init, Scan(init).kept, Scan(init).pending, Kept(init), l);
    }
  }

  /** Appending a line to what is kept, the pending lines forgotten or not. */
  lemma KeptGrows(init: seq<Line>, kept: seq<Line>, pending: seq<Line>, all: seq<Line>, l: Line)
    requires all == kept + pending && (all == init || |all| < |init|)
    ensures all + [l] == init + [l] <==> all == init
    ensures kept + [l] == init + [l] <==> all == init && pending == []
    ensures |kept| <= |all| && (kept + [l] == init + [l] || |kept + [l]| < |init + [l]|)
  {
    SameEndings(all, init, [l]);
    SameEndings(kept, init, [l]);
    if pending == [] { assert all == kept; }
  }

  lemma SameEndings(a: seq<Line>, b: seq<Line>, c: seq<Line>)
    ensures a + c == b + c <==> a == b
  {
    if a + c == b + c {
      assert |a + c| == |a| + |c| && |b + c| == |b| + |c|;
      assert a == (a + c)[..|a|] && b == (b + c)[..|b|];
    }
  }

  /** Once the broker's first header is read, everything to the end is skipped. */
  lemma {:induction false} EntryIsSkipped(ls: seq<Line>, entry: seq<Line>)
    requires IsEntry(entry) && !Scan(ls).legacy
    ensures Kept(ls + entry) == Kept(ls)
    ensures Scan(ls + entry).skipping && !Scan(ls + entry).legacy && Scan(ls + entry).pending == []
    decreases |entry|
  {
    var init, last := entry[..|entry| - 1], entry[|entry| - 1];
    assert last in entry;
    assert (ls + entry)[..|ls + entry| - 1] == ls + init;
    if init == [] {
      assert ls + init == ls;
    } else {
      assert init[0] == entry[0] && forall l :: l in init ==> l in entry;
      EntryIsSkipped(ls, init);
    }
  }

  /**
   Rendering a rendered file changes nothing exactly when what was preserved holds no two separators
   with only blanks between.
   */
  lemma RenderTwiceIff(ls: seq<Line>, entry: seq<Line>)
    requires IsEntry(entry)
    ensures Render(Render(ls, entry), entry) == Render(ls, entry) <==> !Repeats(Preserved(ls))
  {
    var p := Preserved(ls);
    PreservedIsPlain(ls);
    RenderOfRender(ls, entry);
    PlainScan(p);
    SameEndings(Kept(p), p, [Blank] + entry);
  }

  lemma RenderOfRender(ls: seq<Line>, entry: seq<Line>)
    requires IsEntry(entry)
    ensures var p := Preserved(ls);
      Render(Render(ls, entry), entry) == if p == [] then entry else Kept(p) + ([Blank] + entry)
  {
    var p := Preserved(ls);
    PreservedIsPlain(ls);
    RenderedKeeps(p, entry, ls);
    if p != [] {
      TrimmedIsPrefix(Kept(ls));
      PlainEndsFlushed(p);
    }
  }

  /** The preserved part of a rendered file is what stripping keeps of the preserved part. */
  lemma RenderedKeeps(p: seq<Line>, entry: seq<Line>, ls: seq<Line>)
    requires IsEntry(entry) && p == Preserved(ls) && Plain(p)
    ensures Preserved(Render(ls, entry)) == Trimmed(Kept(p))
  {
    if p == [] {
      EntryIsSkipped([], entry);
      assert [] + entry == entry;
    } else {
      assert Render(ls, entry) == p + ([Blank] + entry);
      AppendedKeeps(p, entry);
    }
  }

  lemma AppendedKeeps(p: seq<Line>, entry: seq<Line>)
    requires IsEntry(entry) && Plain(p)
    ensures Preserved(p + ([Blank] + entry)) == Trimmed(Kept(p))
  {
    KeptThenBlank(p);
    EntryIsSkipped(p + [Blank], entry);
    assert (p + [Blank]) + entry == p + ([Blank] + entry);
  }

  lemma KeptThenBlank(p: seq<Line>)
    requires Plain(p)
    ensures Trimmed(Kept(p + [Blank])) == Trimmed(Kept(p)) && !Scan(p + [Blank]).legacy
  {
    PlainScan(p);
    PlainTurn(Scan(p), Blank);
    assert (p + [Blank])[..|p|] == p;
    assert Kept(p + [Blank]) == Kept(p) + [Blank];
    TrimmedDropsBlank(Kept(p));
  }

  lemma TrimmedDropsBlank(ls: seq<Line>)
    ensures Trimmed(ls + [Blank]) == Trimmed(ls)
  {
    assert (ls + [Blank])[..|ls|] == ls;
  }

  lemma PlainEndsFlushed(p: seq<Line>)
    requires Plain(p) && p != [] && !Decoration(p[|p| - 1])
    ensures Kept(p) != [] && Kept(p)[|Kept(p)| - 1] == p[|p| - 1] && Trimmed(Kept(p)) == Kept(p)
  {
    assert p[|p| - 1] in p;
    PlainScan(p[..|p| - 1]);
  }

  /** Whatever the separators do, rendering again keeps every significant line. */
  lemma RenderTwiceKeepsSignificants(ls: seq<Line>, entry: seq<Line>)
    requires IsEntry(entry)
    ensures Significants(Render(Render(ls, entry), entry)) == Significants(Render(ls, entry))
  {
    var p := Preserved(ls);
    PreservedIsPlain(ls);
    RenderedKeeps(p, entry, ls);
    PlainIsOutside(p, |p|);
    PreservedIsOutside(p);
    SignificantsConcat(p, [Blank] + entry);
    SignificantsConcat(Preserved(Render(ls, entry)), [Blank] + entry);
    SignificantsConcat([Blank], entry);
    assert Significants([Blank]) == [];
    assert p[..|p|] == p;
  }

  lemma {:induction false} PlainIsOutside(p: seq<Line>, n: nat)
    requires Plain(p) && n <= |p|
    ensures OutsideLines(p, n) == Significants(p[..n])
  {
    if n > 0 {
      PlainIsOutside(p, n - 1);
      assert p[..n][..n - 1] == p[..n - 1];
      forall j | 0 <= j < n ensures p[j] in p {}
    } else {
      assert p[..0] == [];
    }
  }

  /** A file where it does: the separator over a stripped table meets the next one. */
  lemma SeparatorsMeetExample()
    ensures var ls := [Separator, Header(true, "[mcp_servers.a]"), Separator, Header(false, "[tools]")];
      Kept(ls) == [Separator, Separator, Header(false, "[tools]")] && Repeats(Preserved(ls))
  {
    var ls := [Separator, Header(true, "[mcp_servers.a]"), Separator, Header(false, "[tools]")];
    assert ls[..3] == [Separator, Header(true, "[mcp_servers.a]"), Separator];
    assert ls[..3][..2] == [Separator, Header(true, "[mcp_servers.a]")];
    assert ls[..3][..2][..1] == [Separator] && ls[..3][..2][..1][..0] == [];
    assert Scan([Separator]) == State(false, false, [Separator], []);
    assert Scan(ls[..3][..2]) == State(true, false, [], [Separator]);
    assert Scan(ls[..3]) == State(true, false, [Separator], [Separator]);
    assert Kept(ls) == [Separator, Separator, Header(false, "[tools]")] == Preserved(ls);
    assert Preserved(ls)[..2] == [Separator, Separator] && [Separator, Separator][..1] == [Separator];
    assert Repeats([Separator, Separator]);
  }
}
