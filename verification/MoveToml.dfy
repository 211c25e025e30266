/** The deploy script's line rewriting: give a cached dependency's Move.toml its published address. */
module MoveToml {
  import opened Common

  type Line = string

  // ---------------------------------------------------------------------------
  // The line patterns
  // ---------------------------------------------------------------------------

  predicate Space(c: char) {
    c in [' ', '\t', '\n', '\r', '\U{0B}', '\U{0C}', '\U{A0}', '\U{1680}', '\U{2028}', '\U{2029}', '\U{202F}', '\U{205F}', '\U{3000}', '\U{FEFF}']
    || '\U{2000}' <= c <= '\U{200A}'
  }

  predicate Blank(s: string) { forall i :: 0 <= i < |s| ==> Space(s[i]) }

  function Skip(s: string): string {
    if s != "" && Space(s[0]) then Skip(s[1..]) else s
  }

  predicate StartsWith(s: string, prefix: string) { |prefix| <= |s| && s[..|prefix|] == prefix }

  /** `[name]` and nothing but spaces after it. */
  predicate Header(line: Line, name: string) { StartsWith(line, name) && Blank(line[|name|..]) }

  function Close(s: string): nat {
    if s == "" || s[0] == ']' then 0 else 1 + Close(s[1..])
  }

  /** Any bracketed section header. */
  predicate AnyHeader(line: Line) {
    && StartsWith(line, "[")
    && var k := Close(line[1..]);
       0 < k < |line| - 1 && Blank(line[k + 2..])
  }

  predicate PublishedAt(line: Line) {
    var s := Skip(line);
    StartsWith(s, "published-at") && StartsWith(Skip(s[12..]), "=")
  }

  predicate IdentStart(c: char) { 'a' <= c <= 'z' || 'A' <= c <= 'Z' || c == '_' }

  function Ident(s: string): string {
    if s != "" && (IdentStart(s[0]) || '0' <= s[0] <= '9') then [s[0]] + Ident(s[1..]) else ""
  }

  /** The name that a line maps to the address "0x0". */
  function ZeroAddress(line: Line): Option<string> {
    var s := Skip(line);
    var name := Ident(s);
    if s == "" || !IdentStart(s[0]) || |name| > |s| then None
    else
      var rest := Skip(s[|name|..]);
      if !StartsWith(rest, "=") then None
      else
        var value := Skip(rest[1..]);
        if StartsWith(value, "\"0x0\"") && Blank(value[5..]) then Some(name) else None
  }

  // ---------------------------------------------------------------------------
  // The patterns as splittings of the line
  // ---------------------------------------------------------------------------

  function Lead(s: string): string {
    if s != "" && Space(s[0]) then [s[0]] + Lead(s[1..]) else ""
  }

  lemma {:induction false} SkipSplits(s: string)
    ensures s == Lead(s) + Skip(s) && Blank(Lead(s))
    ensures Skip(s) != "" ==> !Space(Skip(s)[0])
  {
    if s != "" && Space(s[0]) {
      SkipSplits(s[1..]);
      BlankCons(s[0], Lead(s[1..]));
    }
  }

  lemma BlankCons(c: char, s: string)
    requires Space(c) && Blank(s)
    ensures Blank([c] + s)
  {
  }

  lemma {:induction false} SkipDrops(a: string, s: string)
    requires Blank(a) && s != "" && !Space(s[0])
    ensures Skip(a + s) == s
  {
    if a == "" {
      assert a + s == s;
    } else {
      SkipDrops(a[1..], s);
      assert (a + s)[1..] == a[1..] + s && Space(a[0]);
    }
  }

  ghost predicate PublishedAtSplit(line: Line, a: string, b: string, c: string) {
    Blank(a) && Blank(b) && line == a + ("published-at" + (b + ("=" + c)))
  }

  lemma PublishedReads(line: Line)
    requires PublishedAt(line)
    ensures exists a, b, c :: PublishedAtSplit(line, a, b, c)
  {
    SkipSplits(line);
    var rest := Skip(line)[12..];
    SkipSplits(rest);
    var c := Skip(rest)[1..];
    assert Skip(line) == "published-at" + rest && Skip(rest) == "=" + c;
    assert PublishedAtSplit(line, Lead(line), Lead(rest), c);
  }

  lemma PublishedMatches(line: Line, a: string, b: string, c: string)
    requires PublishedAtSplit(line, a, b, c)
    ensures PublishedAt(line)
  {
    var rest := b + ("=" + c);
    SkipDrops(a, "published-at" + rest);
    assert ("published-at" + rest)[12..] == rest;
    SkipDrops(b, "=" + c);
  }

  /** `^\s*published-at\s*=` */
  lemma PublishedAtExactly(line: Line)
    ensures PublishedAt(line) <==> exists a, b, c :: PublishedAtSplit(line, a, b, c)
  {
    if PublishedAt(line) { PublishedReads(line); }
    if a, b, c :| PublishedAtSplit(line, a, b, c) { PublishedMatches(line, a, b, c); }
  }

  ghost predicate HeaderSplit(line: Line, name: string, b: string) {
    name != "" && ']' !in name && Blank(b) && line == "[" + (name + ("]" + b))
  }

  lemma {:induction false} CloseSplits(s: string)
    ensures Close(s) <= |s| && ']' !in s[..Close(s)]
    ensures Close(s) < |s| ==> s[Close(s)] == ']'
  {
    if s != "" && s[0] != ']' {
      CloseSplits(s[1..]);
      assert s[..Close(s)] == [s[0]] + s[1..][..Close(s[1..])];
    }
  }

  lemma {:induction false} CloseAt(name: string, b: string)
    requires ']' !in name
    ensures Close(name + ("]" + b)) == |name|
  {
    if name == "" {
      assert name + ("]" + b) == "]" + b;
    } else {
      assert name[0] in name;
      assert ']' !in name[1..];
      CloseAt(name[1..], b);
      assert (name + ("]" + b))[1..] == name[1..] + ("]" + b);
    }
  }

  /** `^\[[^\]]+\]\s*$` */
  lemma AnyHeaderExactly(line: Line)
    ensures AnyHeader(line) <==> exists name, b :: HeaderSplit(line, name, b)
  {
    if AnyHeader(line) {
      var rest := line[1..];
      CloseSplits(rest);
      var name, b := rest[..Close(rest)], rest[Close(rest) + 1..];
      assert rest == name + ("]" + b);
      assert b == line[Close(rest) + 2..];
      assert HeaderSplit(line, name, b);
    }
    if name, b :| HeaderSplit(line, name, b) {
      var rest := name + ("]" + b);
      assert line[1..] == rest;
      CloseAt(name, b);
      assert line[|name| + 2..] == b;
    }
  }

  predicate IsIdent(name: string) {
    name != "" && IdentStart(name[0]) && forall i :: 0 <= i < |name| ==> IdentStart(name[i]) || '0' <= name[i] <= '9'
  }

  ghost predicate ZeroSplit(line: Line, name: string, a: string, b: string, c: string, d: string) {
    && IsIdent(name) && Blank(a) && Blank(b) && Blank(c) && Blank(d)
    && line == a + (name + (b + ("=" + (c + ("\"0x0\"" + d)))))
  }

  lemma {:induction false} IdentSplits(s: string)
    ensures |Ident(s)| <= |s| && Ident(s) == s[..|Ident(s)|]
    ensures forall i :: 0 <= i < |Ident(s)| ==> IdentStart(Ident(s)[i]) || '0' <= Ident(s)[i] <= '9'
  {
    if s != "" && (IdentStart(s[0]) || '0' <= s[0] <= '9') {
      IdentSplits(s[1..]);
      assert s[..|Ident(s)|] == [s[0]] + s[1..][..|Ident(s[1..])|];
    }
  }

  lemma {:induction false} IdentTakes(name: string, s: string)
    requires forall i :: 0 <= i < |name| ==> IdentStart(name[i]) || '0' <= name[i] <= '9'
    requires s != "" && !IdentStart(s[0]) && !('0' <= s[0] <= '9')
    ensures Ident(name + s) == name
  {
    if name == "" {
      assert name + s == s;
    } else {
      IdentTakes(name[1..], s);
      assert (name + s)[1..] == name[1..] + s;
    }
  }

  lemma ZeroReads(line: Line, name: string)
    requires ZeroAddress(line) == Some(name)
    ensures exists a, b, c, d :: ZeroSplit(line, name, a, b, c, d)
  {
    SkipSplits(line);
    var s := Skip(line);
    IdentSplits(s);
    var rest := s[|name|..];
    SkipSplits(rest);
    var value := Skip(rest)[1..];
    SkipSplits(value);
    var d := Skip(value)[5..];
    assert s == name + rest && Skip(rest) == "=" + value && Skip(value) == "\"0x0\"" + d;
    assert s[0] == name[0];
    assert ZeroSplit(line, name, Lead(line), Lead(rest), Lead(value), d);
  }

  lemma ZeroMatches(line: Line, name: string, a: string, b: string, c: string, d: string)
    requires ZeroSplit(line, name, a, b, c, d)
    ensures ZeroAddress(line) == Some(name)
  {
    var quoted := "\"0x0\"" + d;
    var value := c + quoted;
    var rest := b + ("=" + value);
    NoSpaceInIdent(name[0]);
    SkipDrops(a, name + rest);
    EndsIdent(b, "=" + value);
    IdentTakes(name, rest);
    assert (name + rest)[|name|..] == rest;
    SkipDrops(b, "=" + value);
    assert ("=" + value)[1..] == value;
    SkipDrops(c, quoted);
    assert quoted[5..] == d;
  }

  lemma NoSpaceInIdent(c: char)
    ensures IdentStart(c) || '0' <= c <= '9' ==> !Space(c)
  {
  }

  lemma EndsIdent(b: string, s: string)
    requires Blank(b) && s != "" && s[0] == '='
    ensures b + s != "" && !IdentStart((b + s)[0]) && !('0' <= (b + s)[0] <= '9')
  {
    NoSpaceInIdent((b + s)[0]);
    if b != "" { assert Space(b[0]); }
  }

  /** `^\s*([a-zA-Z_][a-zA-Z0-9_]*)\s*=\s*"0x0"\s*$`, with its one capture. */
  lemma ZeroAddressExactly(line: Line, name: string)
    ensures ZeroAddress(line) == Some(name) <==> exists a, b, c, d :: ZeroSplit(line, name, a, b, c, d)
  {
    if ZeroAddress(line) == Some(name) { ZeroReads(line, name); }
    if a, b, c, d :| ZeroSplit(line, name, a, b, c, d) { ZeroMatches(line, name, a, b, c, d); }
  }

  // ---------------------------------------------------------------------------
  // The rewriting
  // ---------------------------------------------------------------------------

  datatype Target = Target(pkg: string, addr: string)
  {
    function Published(): Line { "published-at = \"" + addr + "\"" }

    function Address(): Line { pkg + " = \"" + addr + "\"" }
  }

  datatype Section = Package | Addresses | Other

  datatype State = State(section: Section, published: bool)

  const TOP := State(Other, false)

  function HeaderOf(line: Line): Option<Section> {
    if Header(line, "[package]") then Some(Package)
    else if Header(line, "[addresses]") then Some(Addresses)
    else if AnyHeader(line) then Some(Other)
    else None
  }

  /** How lines are told apart, and the two lines that may be written. */
  datatype Rules = Rules(
    header: Line -> Option<Section>,
    published: Line -> bool,
    zero: Line -> bool,
    publishedLine: Line,
    addressLine: Line)

  function RulesFor(t: Target): Rules {
    Rules(HeaderOf, PublishedAt, line => ZeroAddress(line) == Some(t.pkg), t.Published(), t.Address())
  }

  /** A header other than [package] is where a section without the line gets one. */
  predicate Inserts(r: Rules, st: State, line: Line) {
    st.section == Package && !st.published && r.header(line).Some? && r.header(line).value != Package
  }

  function Edit(r: Rules, section: Section, line: Line): Line {
    if r.header(line).Some? then line
    else if section == Package && r.published(line) then r.publishedLine
    else if section == Addresses && r.zero(line) then r.addressLine
    else line
  }

  function Step(r: Rules, st: State, line: Line): State {
    match r.header(line)
    case Some(section) => State(section, st.published || Inserts(r, st, line))
    case None => st.(published := st.published || (st.section == Package && r.published(line)))
  }

  function Rewrite(r: Rules, st: State, lines: seq<Line>): seq<Line>
    decreases |lines|
  {
    if lines == [] then
      if st.section == Package && !st.published then [r.publishedLine] else []
    else
      (if Inserts(r, st, lines[0]) then [r.publishedLine] else [])
      + [Edit(r, st.section, lines[0])]
      + Rewrite(r, Step(r, st, lines[0]), lines[1..])
  }

  /** Patch the lines of one file. */
  function Patch(t: Target, lines: seq<Line>): seq<Line> { Rewrite(RulesFor(t), TOP, lines) }

  /** The body of the script's loop, on its three flags. */
  method PatchLine(r: Rules, line: Line, inPackage: bool, publishedAtSet: bool, inAddresses: bool)
    returns (inPackage': bool, publishedAtSet': bool, inAddresses': bool, pushed: seq<Line>)
    requires !(inPackage && inAddresses)
    ensures !(inPackage' && inAddresses')
    ensures var st := Flags(inPackage, publishedAtSet, inAddresses);
            && Flags(inPackage', publishedAtSet', inAddresses') == Step(r, st, line)
            && pushed == (if Inserts(r, st, line) then [r.publishedLine] else []) + [Edit(r, st.section, line)]
  {
    inPackage', publishedAtSet', inAddresses', pushed := inPackage, publishedAtSet, inAddresses, [];
    match r.header(line) {
      case Some(Package) =>
        inPackage', inAddresses' := true, false;
        pushed := pushed + [line];
      case Some(section) =>
        if inPackage && !publishedAtSet {
          pushed := pushed + [r.publishedLine];
          publishedAtSet' := true;
        }
        inPackage', inAddresses' := false, section == Addresses;
        pushed := pushed + [line];
      case None =>
        if inPackage && r.published(line) {
          pushed := pushed + [r.publishedLine];
          publishedAtSet' := true;
        } else if inAddresses && r.zero(line) {
          pushed := pushed + [r.addressLine];
        } else {
          pushed := pushed + [line];
        }
    }
  }

  /** The loop of the script, and the insertion for a [package] section that ends the file. */
  method PatchWith(r: Rules, lines: seq<Line>) returns (out: seq<Line>)
    ensures out == Rewrite(r, TOP, lines)
  {
    var inPackage, publishedAtSet, inAddresses := false, false, false;
    out := [];
    for i := 0 to |lines|
      invariant !(inPackage && inAddresses)
      invariant RewriteOnto(r, Flags(inPackage, publishedAtSet, inAddresses), lines, i, out) == RewriteOnto(r, TOP, lines, 0, [])
    {
      var pushed;
      inPackage, publishedAtSet, inAddresses, pushed := PatchLine(r, lines[i], inPackage, publishedAtSet, inAddresses);
      out := out + pushed;
    }
    if inPackage && !publishedAtSet {
      out := out + [r.publishedLine];
    }
    OntoIsRewrite(r, TOP, lines, 0, []);
  }

  /** The lines written so far, then the rest rewritten, one line at a time. */
  function RewriteOnto(r: Rules, st: State, lines: seq<Line>, i: nat, out: seq<Line>): seq<Line>
    requires i <= |lines|
    decreases |lines| - i
  {
    if i == |lines| then (if st.section == Package && !st.published then out + [r.publishedLine] else out)
    else
      RewriteOnto(r, Step(r, st, lines[i]), lines, i + 1,
                  out + ((if Inserts(r, st, lines[i]) then [r.publishedLine] else []) + [Edit(r, st.section, lines[i])]))
  }

  lemma {:induction false} OntoIsRewrite(r: Rules, st: State, lines: seq<Line>, i: nat, out: seq<Line>)
    requires i <= |lines|
    ensures RewriteOnto(r, st, lines, i, out) == out + Rewrite(r, st, lines[i..])
    decreases |lines| - i
  {
    if i < |lines| {
      var pushed := (if Inserts(r, st, lines[i]) then [r.publishedLine] else []) + [Edit(r, st.section, lines[i])];
      OntoIsRewrite(r, Step(r, st, lines[i]), lines, i + 1, out + pushed);
      RewriteFrom(r, st, lines, i);
      Associate(out, pushed, Rewrite(r, Step(r, st, lines[i]), lines[i + 1..]));
    }
  }

  lemma Associate(a: seq<Line>, b: seq<Line>, c: seq<Line>)
    ensures (a + b) + c == a + (b + c)
  {
  }

  method PatchLines(t: Target, lines: seq<Line>) returns (out: seq<Line>)
    ensures out == Patch(t, lines)
  {
    out := PatchWith(RulesFor(t), lines);
  }

  lemma RewriteFrom(r: Rules, st: State, lines: seq<Line>, i: nat)
    requires i < |lines|
    ensures Rewrite(r, st, lines[i..]) ==
              (if Inserts(r, st, lines[i]) then [r.publishedLine] else []) + [Edit(r, st.section, lines[i])]
              + Rewrite(r, Step(r, st, lines[i]), lines[i + 1..])
  {
    assert lines[i..][0] == lines[i] && lines[i..][1..] == lines[i + 1..];
  }

  function Flags(inPackage: bool, published: bool, inAddresses: bool): State {
    State(if inPackage then Package else if inAddresses then Addresses else Other, published)
  }

  // ---------------------------------------------------------------------------
  // What the written lines look like to a second pass
  // ---------------------------------------------------------------------------

  lemma PublishedLooksPublished(t: Target)
    ensures PublishedAt(t.Published()) && HeaderOf(t.Published()).None?
  {
    var line := t.Published();
    assert line[0] == 'p' && Skip(line) == line;
    assert line[..12] == "published-at";
    var rest := line[12..];
    assert rest[0] == ' ' && rest[1] == '=';
    assert Skip(rest) == Skip(rest[1..]) == rest[1..];
    assert rest[1..][..1] == "=";
    NoBracketNoHeader(line);
  }

  lemma StartsWithHead(s: string, prefix: string)
    requires prefix != ""
    ensures StartsWith(s, prefix) ==> s != "" && s[0] == prefix[0]
  {
    if StartsWith(s, prefix) { assert s[..|prefix|][0] == prefix[0]; }
  }

  lemma NoBracketNoHeader(line: Line)
    requires line != "" && line[0] != '['
    ensures HeaderOf(line).None?
  {
    StartsWithHead(line, "[package]");
    StartsWithHead(line, "[addresses]");
    StartsWithHead(line, "[");
  }

  lemma AddressIsNoHeader(t: Target, line: Line)
    requires ZeroAddress(line) == Some(t.pkg)
    ensures HeaderOf(t.Address()).None?
  {
    var s := Skip(line);
    assert Ident(s)[0] == s[0];
    assert t.Address()[0] == s[0];
    NoBracketNoHeader(t.Address());
  }

  /** The written lines are no headers, and the published-at line is recognised as one. */
  ghost predicate Sound(r: Rules) {
    && r.header(r.publishedLine).None? && r.published(r.publishedLine)
    && forall line :: r.zero(line) ==> r.header(r.addressLine).None?
  }

  lemma RulesAreSound(t: Target)
    ensures Sound(RulesFor(t))
  {
    PublishedLooksPublished(t);
    forall line | RulesFor(t).zero(line) ensures HeaderOf(t.Address()).None? { AddressIsNoHeader(t, line); }
  }

  lemma EditKeepsSection(r: Rules, section: Section, line: Line)
    requires Sound(r)
    ensures r.header(Edit(r, section, line)) == r.header(line)
    ensures Edit(r, section, Edit(r, section, line)) == Edit(r, section, line)
  {
  }

  /** Patching a patched file changes nothing, whatever the file. */
  lemma {:induction false} RewriteTwice(r: Rules, st: State, lines: seq<Line>)
    requires Sound(r)
    ensures Rewrite(r, st, Rewrite(r, st, lines)) == Rewrite(r, st, lines)
    decreases |lines|
  {
    if lines == [] {
      if st.section == Package && !st.published {
        assert [r.publishedLine][1..] == [];
      }
    } else {
      var line, rest := lines[0], Rewrite(r, Step(r, st, lines[0]), lines[1..]);
      RewriteTwice(r, Step(r, st, line), lines[1..]);
      if Inserts(r, st, line) {
        PassesThrough(r, st, r.publishedLine, [line] + rest);
        PassesThrough(r, st.(published := true), line, rest);
        assert Rewrite(r, st, lines) == [r.publishedLine] + ([line] + rest);
      } else {
        EditKeepsSection(r, st.section, line);
        PassesThrough(r, st, Edit(r, st.section, line), rest);
        assert Step(r, st, Edit(r, st.section, line)).section == Step(r, st, line).section;
        assert Rewrite(r, st, lines) == [Edit(r, st.section, line)] + rest;
      }
    }
  }

  lemma PassesThrough(r: Rules, st: State, line: Line, rest: seq<Line>)
    requires !Inserts(r, st, line) && Edit(r, st.section, line) == line
    ensures Rewrite(r, st, [line] + rest) == [line] + Rewrite(r, Step(r, st, line), rest)
  {
    assert ([line] + rest)[1..] == rest;
  }

  lemma PatchIsIdempotent(t: Target, lines: seq<Line>)
    ensures Patch(t, Patch(t, lines)) == Patch(t, lines)
  {
    RulesAreSound(t);
    RewriteTwice(RulesFor(t), TOP, lines);
  }

  // ---------------------------------------------------------------------------
  // What a patch keeps and what it achieves
  // ---------------------------------------------------------------------------

  /** The section a line stands in: that of the last header before it. */
  function SectionBefore(r: Rules, lines: seq<Line>, i: nat): Section
    requires i <= |lines|
  {
    if i == 0 then Other
    else if r.header(lines[i - 1]).Some? then r.header(lines[i - 1]).value
    else SectionBefore(r, lines, i - 1)
  }

  /** Every line rewritten in place, none inserted. */
  function InPlace(r: Rules, lines: seq<Line>): (plain: seq<Line>)
    ensures |plain| == |lines|
    ensures forall i :: 0 <= i < |lines| ==> plain[i] == Edit(r, SectionBefore(r, lines, i), lines[i])
  {
    seq(|lines|, i requires 0 <= i < |lines| => Edit(r, SectionBefore(r, lines, i), lines[i]))
  }

  /** The loop state before line i. */
  function StateBefore(r: Rules, lines: seq<Line>, i: nat): (st: State)
    requires i <= |lines|
    ensures st.section == SectionBefore(r, lines, i)
  {
    if i == 0 then TOP else Step(r, StateBefore(r, lines, i - 1), lines[i - 1])
  }

  /** From line i on, with the published-at line already there, nothing is inserted. */
  lemma {:induction false} NoSecondInsertion(r: Rules, lines: seq<Line>, i: nat)
    requires i <= |lines| && StateBefore(r, lines, i).published
    ensures Rewrite(r, StateBefore(r, lines, i), lines[i..]) == InPlace(r, lines)[i..]
    decreases |lines| - i
  {
    if i < |lines| {
      NoSecondInsertion(r, lines, i + 1);
      StepWithoutInsertion(r, lines, i);
      FromHere(InPlace(r, lines), i);
    }
  }

  lemma FromHere(plain: seq<Line>, i: nat)
    requires i < |plain|
    ensures plain[i..] == [plain[i]] + plain[i + 1..]
  {
  }

  /** The lines from i on, with the published-at line put in at position j. */
  ghost predicate InsertedAt(r: Rules, plain: seq<Line>, out: seq<Line>, i: nat, j: nat) {
    i <= j <= |plain| && out == plain[i..j] + [r.publishedLine] + plain[j..]
  }

  lemma InsertedEarlier(r: Rules, plain: seq<Line>, out: seq<Line>, i: nat, j: nat)
    requires i < |plain| && InsertedAt(r, plain, out, i + 1, j)
    ensures InsertedAt(r, plain, [plain[i]] + out, i, j)
  {
    assert plain[i..j] == [plain[i]] + plain[i + 1..j];
  }

  lemma StepWithoutInsertion(r: Rules, lines: seq<Line>, i: nat)
    requires i < |lines| && !Inserts(r, StateBefore(r, lines, i), lines[i])
    ensures Rewrite(r, StateBefore(r, lines, i), lines[i..]) ==
              [InPlace(r, lines)[i]] + Rewrite(r, StateBefore(r, lines, i + 1), lines[i + 1..])
  {
    RewriteFrom(r, StateBefore(r, lines, i), lines, i);
  }

  lemma StepWithInsertion(r: Rules, lines: seq<Line>, i: nat)
    requires i < |lines| && Inserts(r, StateBefore(r, lines, i), lines[i])
    ensures InsertedAt(r, InPlace(r, lines), Rewrite(r, StateBefore(r, lines, i), lines[i..]), i, i)
  {
    var st, plain := StateBefore(r, lines, i), InPlace(r, lines);
    RewriteFrom(r, st, lines, i);
    assert StateBefore(r, lines, i + 1) == Step(r, st, lines[i]);
    NoSecondInsertion(r, lines, i + 1);
    InsertedHere(r, plain, Rewrite(r, st, lines[i..]), i);
  }

  lemma InsertedHere(r: Rules, plain: seq<Line>, out: seq<Line>, i: nat)
    requires i < |plain| && out == [r.publishedLine] + [plain[i]] + plain[i + 1..]
    ensures InsertedAt(r, plain, out, i, i)
  {
    assert plain[i..] == [plain[i]] + plain[i + 1..];
  }

  ghost predicate InsertedOnceOrNever(r: Rules, plain: seq<Line>, out: seq<Line>, i: nat)
    requires i <= |plain|
  {
    out == plain[i..] || exists j :: InsertedAt(r, plain, out, i, j)
  }

  lemma OnceOrNeverEarlier(r: Rules, plain: seq<Line>, out: seq<Line>, i: nat)
    requires i < |plain| && InsertedOnceOrNever(r, plain, out, i + 1)
    ensures InsertedOnceOrNever(r, plain, [plain[i]] + out, i)
  {
    if out != plain[i + 1..] {
      var j :| InsertedAt(r, plain, out, i + 1, j);
      InsertedEarlier(r, plain, out, i, j);
    }
  }

  /** From line i on, the line is inserted at some one place or nowhere. */
  lemma {:induction false} InsertsAtMostOneFrom(r: Rules, lines: seq<Line>, i: nat)
    requires i <= |lines|
    ensures InsertedOnceOrNever(r, InPlace(r, lines), Rewrite(r, StateBefore(r, lines, i), lines[i..]), i)
    decreases |lines| - i
  {
    if i == |lines| {
      assert Rewrite(r, StateBefore(r, lines, i), lines[i..]) == []
             || InsertedAt(r, InPlace(r, lines), Rewrite(r, StateBefore(r, lines, i), lines[i..]), i, i);
    } else if Inserts(r, StateBefore(r, lines, i), lines[i]) {
      StepWithInsertion(r, lines, i);
    } else {
      InsertsAtMostOneFrom(r, lines, i + 1);
      StepWithoutInsertion(r, lines, i);
      OnceOrNeverEarlier(r, InPlace(r, lines), Rewrite(r, StateBefore(r, lines, i + 1), lines[i + 1..]), i);
    }
  }

  /**
   * A patch inserts at most one line. All other lines stay, in order, each unchanged unless it is
   * a published-at line of a [package] section or the package's own zero address in [addresses].
   */
  lemma InsertsAtMostOne(t: Target, lines: seq<Line>)
    ensures InsertedOnceOrNever(RulesFor(t), InPlace(RulesFor(t), lines), Patch(t, lines), 0)
    ensures forall i :: 0 <= i < |lines| ==> EditedOnlyWhereMeant(RulesFor(t), lines, i)
  {
    InsertsAtMostOneFrom(RulesFor(t), lines, 0);
    assert lines[0..] == lines;
    forall i | 0 <= i < |lines| ensures EditedOnlyWhereMeant(RulesFor(t), lines, i) { EditsWhereMeant(RulesFor(t), lines, i); }
  }

  predicate EditedOnlyWhereMeant(r: Rules, lines: seq<Line>, i: nat)
    requires i < |lines|
  {
    var section, line := SectionBefore(r, lines, i), InPlace(r, lines)[i];
    || line == lines[i]
    || (section == Package && r.published(lines[i]) && line == r.publishedLine)
    || (section == Addresses && r.zero(lines[i]) && line == r.addressLine)
  }

  lemma EditsWhereMeant(r: Rules, lines: seq<Line>, i: nat)
    requires i < |lines|
    ensures EditedOnlyWhereMeant(r, lines, i)
  {
  }

  /** The published-at line stands in a [package] section. */
  ghost predicate Publishes(r: Rules, section: Section, out: seq<Line>)
    decreases |out|
  {
    out != [] &&
    ((section == Package && out[0] == r.publishedLine)
     || Publishes(r, if r.header(out[0]).Some? then r.header(out[0]).value else section, out[1..]))
  }

  lemma {:induction false} PublishesFrom(r: Rules, st: State, lines: seq<Line>)
    requires Sound(r) && !st.published
    requires st.section == Package || exists i :: 0 <= i < |lines| && r.header(lines[i]) == Some(Package)
    ensures Publishes(r, st.section, Rewrite(r, st, lines))
    decreases |lines|
  {
    if lines != [] {
      var line, out := lines[0], Rewrite(r, st, lines);
      var rest := Rewrite(r, Step(r, st, line), lines[1..]);
      if !Inserts(r, st, line) && !Step(r, st, line).published {
        assert out == [Edit(r, st.section, line)] + rest && out[1..] == rest;
        if Step(r, st, line).section != Package {
          var i :| 0 <= i < |lines| && r.header(lines[i]) == Some(Package);
          assert lines[1..][i - 1] == lines[i];
        }
        EditKeepsSection(r, st.section, line);
        PublishesFrom(r, Step(r, st, line), lines[1..]);
      }
    }
  }

  /** Publishes, by position: some line in a [package] section is the published-at line. */
  lemma {:induction false} PublishesAt(r: Rules, section: Section, out: seq<Line>) returns (k: nat)
    requires Publishes(r, section, out)
    ensures k < |out| && out[k] == r.publishedLine
    ensures (if LastHeader(r, out, k).Some? then LastHeader(r, out, k).value else section) == Package
    decreases |out|
  {
    if section == Package && out[0] == r.publishedLine {
      k := 0;
    } else {
      var next := if r.header(out[0]).Some? then r.header(out[0]).value else section;
      var j := PublishesAt(r, next, out[1..]);
      k := j + 1;
      LastHeaderShift(r, out, j);
    }
  }

  /** The last header among the first n lines. */
  function LastHeader(r: Rules, lines: seq<Line>, n: nat): Option<Section>
    requires n <= |lines|
  {
    if n == 0 then None
    else if r.header(lines[n - 1]).Some? then r.header(lines[n - 1])
    else LastHeader(r, lines, n - 1)
  }

  lemma {:induction false} LastHeaderShift(r: Rules, lines: seq<Line>, n: nat)
    requires n + 1 <= |lines|
    ensures LastHeader(r, lines, n + 1) ==
              if LastHeader(r, lines[1..], n).Some? then LastHeader(r, lines[1..], n) else r.header(lines[0])
  {
    if n > 0 { LastHeaderShift(r, lines, n - 1); }
  }

  /** If the file has a [package] section, some line in one of the patched file is published-at with the address between quotes. */
  lemma AddressIsPublished(t: Target, lines: seq<Line>) returns (k: nat)
    requires exists i :: 0 <= i < |lines| && HeaderOf(lines[i]) == Some(Package)
    ensures k < |Patch(t, lines)| && Patch(t, lines)[k] == "published-at = \"" + t.addr + "\""
    ensures LastHeader(RulesFor(t), Patch(t, lines), k) == Some(Package)
  {
    PackageEndsUpPublished(t, lines);
    k := PublishesAt(RulesFor(t), Other, Patch(t, lines));
  }

  /** The package's own zero address in [addresses] becomes its name and its address between quotes; another name's stays. */
  lemma ZeroAddressIsFilled(t: Target, lines: seq<Line>, i: nat)
    requires i < |lines| && SectionBefore(RulesFor(t), lines, i) == Addresses && HeaderOf(lines[i]).None?
    ensures InPlace(RulesFor(t), lines)[i] ==
              if ZeroAddress(lines[i]) == Some(t.pkg) then t.pkg + " = \"" + t.addr + "\"" else lines[i]
  {
    EditInAddresses(RulesFor(t), lines, i);
  }

  lemma EditInAddresses(r: Rules, lines: seq<Line>, i: nat)
    requires i < |lines| && SectionBefore(r, lines, i) == Addresses && r.header(lines[i]).None?
    ensures InPlace(r, lines)[i] == if r.zero(lines[i]) then r.addressLine else lines[i]
  {
  }

  /** If the file has a [package] section, the patched file publishes the package's address in one. */
  lemma PackageEndsUpPublished(t: Target, lines: seq<Line>)
    requires exists i :: 0 <= i < |lines| && HeaderOf(lines[i]) == Some(Package)
    ensures Publishes(RulesFor(t), Other, Patch(t, lines))
  {
    RulesAreSound(t);
    PublishesFrom(RulesFor(t), TOP, lines);
  }
}
