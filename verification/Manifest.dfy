/** The candidate checksum manifest: rendering, the strict reader, the release script's own reader,
    and what bundle verification accepts. */
module Manifest {
  import opened Results
  import opened Ordering

  datatype ManifestError =
    | NotTerminated | BadLine | BadHash | UnsafeName | DuplicateName | NotSorted | NotRegularFile | WrongFileSet | HashMismatch

  datatype Entry = Entry(sha256: string, name: string)

  // ---- names and hashes ----

  predicate IsControl(c: char) { c <= '\U{1F}' || '\U{7F}' <= c <= '\U{9F}' }

  /** A name that stays inside the bundle directory. */
  predicate SafeName(s: string) {
    s != "" && s != "." && s != ".." && forall c :: c in s ==> c != '/' && c != '\\' && !IsControl(c)
  }

  predicate IsHex(c: char) { '0' <= c <= '9' || 'a' <= c <= 'f' }

  predicate IsHash(s: string) { |s| == 64 && forall c :: c in s ==> IsHex(c) }

  predicate IsAlphanumeric(c: char) { 'A' <= c <= 'Z' || 'a' <= c <= 'z' || '0' <= c <= '9' }

  predicate IsReleaseChar(c: char) { IsAlphanumeric(c) || c == '.' || c == '_' || c == '+' || c == '-' }

  /** The names the release script accepts. */
  predicate ReleaseName(s: string) { s != "" && IsAlphanumeric(s[0]) && forall c :: c in s ==> IsReleaseChar(c) }

  lemma ReleaseNameIsSafe(s: string)
    requires ReleaseName(s)
    ensures SafeName(s)
  {
    assert "."[0] == '.' && ".."[0] == '.';
  }

  // ---- lines ----

  /** Position of the first newline, or the length. */
  function LineEnd(t: string): (k: nat)
    ensures k <= |t| && (k < |t| ==> t[k] == '\n') && '\n' !in t[..k]
  {
    if t == "" || t[0] == '\n' then 0 else 1 + LineEnd(t[1..])
  }

  function WithoutReturn(line: string): string {
    if line != "" && line[|line| - 1] == '\r' then line[..|line| - 1] else line
  }

  /** str::lines: a line ends with a newline, which may follow a carriage return. */
  function Lines(t: string): seq<string>
    decreases |t|
  {
    if t == "" then []
    else
      var k := LineEnd(t);
      if k < |t| then [WithoutReturn(t[..k])] + Lines(t[k + 1..]) else [t]
  }

  function Join(lines: seq<string>): string {
    if lines == [] then "" else if |lines| == 1 then lines[0] else lines[0] + "\n" + Join(lines[1..])
  }

  lemma {:induction false} LineEndAt(line: string, rest: string)
    requires '\n' !in line
    ensures LineEnd(line + "\n" + rest) == |line|
  {
    if line != "" {
      assert (line + "\n" + rest)[1..] == line[1..] + "\n" + rest;
      assert line[0] != '\n';
      LineEndAt(line[1..], rest);
    }
  }

  /** A plain line holds neither a newline nor a carriage return. */
  predicate Plain(line: string) { '\n' !in line && '\r' !in line }

  lemma FirstLine(line: string, rest: string)
    requires Plain(line)
    ensures Lines(line + "\n" + rest) == [line] + Lines(rest)
  {
    LineEndAt(line, rest);
    var t := line + "\n" + rest;
    assert t[..|line|] == line && t[|line| + 1..] == rest;
  }

  lemma {:induction false} LinesOfJoined(lines: seq<string>)
    requires lines != [] && forall i :: 0 <= i < |lines| ==> Plain(lines[i])
    ensures Lines(Join(lines) + "\n") == lines
  {
    hide Plain, Lines;
    var line := lines[0];
    if |lines| == 1 {
      assert Join(lines) + "\n" == line + "\n" + "";
      FirstLine(line, "");
      NoLine();
      assert lines == [line] + [];
    } else {
      var rest := Join(lines[1..]) + "\n";
      assert Join(lines) + "\n" == line + "\n" + rest;
      FirstLine(line, rest);
      LinesOfJoined(lines[1..]);
      assert lines == [line] + lines[1..];
    }
  }

  lemma NoLine()
    ensures Lines("") == []
  {
  }

  // ---- one line ----

  function RenderLine(e: Entry): string { e.sha256 + "  " + e.name }

  /** Position of the first two spaces, or the length. */
  function Gap(line: string): (k: nat)
    ensures k <= |line|
    ensures k < |line| ==> k + 1 < |line| && line[k] == ' ' && line[k + 1] == ' '
  {
    if |line| < 2 then |line| else if line[0] == ' ' && line[1] == ' ' then 0 else 1 + Gap(line[1..])
  }

  function SplitLine(line: string): Option<Entry> {
    var k := Gap(line);
    if k < |line| then Some(Entry(line[..k], line[k + 2..])) else None
  }

  lemma {:induction false} GapAt(hash: string, name: string)
    requires ' ' !in hash
    ensures Gap(hash + "  " + name) == |hash|
  {
    if hash != "" {
      assert (hash + "  " + name)[1..] == hash[1..] + "  " + name;
      assert hash[0] != ' ';
      GapAt(hash[1..], name);
    }
  }

  lemma SplitRendered(e: Entry)
    requires IsHash(e.sha256)
    ensures SplitLine(RenderLine(e)) == Some(e)
  {
    GapAt(e.sha256, e.name);
    assert RenderLine(e)[..64] == e.sha256 && RenderLine(e)[66..] == e.name;
  }

  lemma RenderedSplit(line: string)
    requires SplitLine(line).Some?
    ensures RenderLine(SplitLine(line).value) == line
  {
    var k := Gap(line);
    assert line == line[..k] + "  " + line[k + 2..];
  }

  predicate GoodEntry(e: Entry) { IsHash(e.sha256) && SafeName(e.name) }

  predicate GoodLine(line: string) { SplitLine(line).Some? && GoodEntry(SplitLine(line).value) }

  // ---- the strict reader ----

  predicate AllGood(lines: seq<string>) { forall i :: 0 <= i < |lines| ==> GoodLine(lines[i]) }

  function EntriesOf(lines: seq<string>): (r: seq<Entry>)
    requires AllGood(lines)
    ensures |r| == |lines| && forall i :: 0 <= i < |lines| ==> SplitLine(lines[i]) == Some(r[i])
  {
    seq(|lines|, i requires 0 <= i < |lines| => SplitLine(lines[i]).value)
  }

  function NamesOf(es: seq<Entry>): (r: seq<string>)
    ensures |r| == |es| && forall i :: 0 <= i < |es| ==> r[i] == es[i].name
  {
    seq(|es|, i requires 0 <= i < |es| => es[i].name)
  }

  /** Names in order, none twice. */
  ghost predicate InOrder(names: seq<string>) { IsSorted(names, Itself) && NoDuplicates(names) }

  /** The text is a manifest of exactly the entries its lines give. */
  ghost predicate Readable(text: string) {
    text != "" && text[|text| - 1] == '\n' && AllGood(Lines(text)) && InOrder(NamesOf(EntriesOf(Lines(text))))
  }

  /** The table of a list of entries. */
  ghost predicate Tabulates(table: map<string, string>, es: seq<Entry>) {
    && (forall n :: n in table <==> n in NamesOf(es))
    && forall e :: e in es ==> e.name in table && table[e.name] == e.sha256
  }

  method ReadChecksumManifest(text: string) returns (r: Result<map<string, string>, ManifestError>)
    ensures r.Success? <==> Readable(text)
    ensures r.Success? ==> Tabulates(r.value, EntriesOf(Lines(text)))
  {
    hide SplitLine, GoodEntry, InOrder, NoDuplicates, Tabulates;
    if text == "" || text[|text| - 1] != '\n' { return Failure(NotTerminated); }
    var lines := Lines(text);
    ghost var entries: seq<Entry> := [];
    var table: map<string, string> := map[];
    var ordered: seq<string> := [];
    NothingTabulated();
    for i := 0 to |lines|
      invariant AllGood(lines[..i]) && entries == EntriesOf(lines[..i]) && ordered == NamesOf(entries)
      invariant Tabulates(table, entries) && NoDuplicates(ordered)
    {
      assert lines[..i + 1] == lines[..i] + [lines[i]];
      var split := SplitLine(lines[i]);
      if split.None? { return Failure(BadLine); }
      if !IsHash(split.value.sha256) {
        NotGood(lines[i]);
        return Failure(BadHash);
      }
      if !SafeName(split.value.name) {
        NotGood(lines[i]);
        return Failure(UnsafeName);
      }
      Good(lines[i]);
      TableGrows(table, entries, split.value);
      if split.value.name in table {
        RepeatedName(lines, i);
        return Failure(DuplicateName);
      }
      table := table[split.value.name := split.value.sha256];
      ordered := ordered + [split.value.name];
      entries := entries + [split.value];
    }
    assert lines[..|lines|] == lines;
    OrderDecides(ordered);
    return if ordered != Sort(ordered, Itself) then Failure(NotSorted) else Success(table);
  }

  lemma NothingTabulated()
    ensures Tabulates(map[], []) && NoDuplicates<string>([])
  {
  }

  lemma NotGood(line: string)
    requires SplitLine(line).Some? && !(IsHash(SplitLine(line).value.sha256) && SafeName(SplitLine(line).value.name))
    ensures !GoodLine(line)
  {
  }

  lemma Good(line: string)
    requires SplitLine(line).Some? && IsHash(SplitLine(line).value.sha256) && SafeName(SplitLine(line).value.name)
    ensures GoodLine(line)
  {
  }

  lemma RepeatedName(lines: seq<string>, i: nat)
    requires i < |lines| && AllGood(lines[..i]) && GoodLine(lines[i])
    requires SplitLine(lines[i]).value.name in NamesOf(EntriesOf(lines[..i]))
    ensures AllGood(lines) ==> !InOrder(NamesOf(EntriesOf(lines)))
  {
    hide SplitLine, GoodEntry, IsSorted;
    if AllGood(lines) {
      var k :| 0 <= k < i && NamesOf(EntriesOf(lines[..i]))[k] == SplitLine(lines[i]).value.name;
      assert lines[..i][k] == lines[k];
      assert NamesOf(EntriesOf(lines))[k] == NamesOf(EntriesOf(lines))[i];
    }
  }

  lemma TableGrows(table: map<string, string>, es: seq<Entry>, e: Entry)
    requires Tabulates(table, es)
    ensures e.name in table <==> e.name in NamesOf(es)
    ensures e.name !in table ==> Tabulates(table[e.name := e.sha256], es + [e])
    ensures NamesOf(es + [e]) == NamesOf(es) + [e.name]
    ensures e.name !in table && NoDuplicates(NamesOf(es)) ==> NoDuplicates(NamesOf(es + [e]))
  {
    forall x | x in es && e.name !in table ensures x.name in table && x.name != e.name { assert x.name in table; }
    assert NamesOf(es + [e]) == NamesOf(es) + [e.name];
  }

  /** A list of distinct names equals its sorted form exactly when it is in order. */
  lemma OrderDecides(names: seq<string>)
    requires NoDuplicates(names)
    ensures names == Sort(names, Itself) <==> InOrder(names)
  {
    SortIsSorted(names, Itself);
    if IsSorted(names, Itself) {
      SortNoDuplicates(names, Itself);
      SortMembers(names, Itself);
      SortedStringsUnique(names, Sort(names, Itself));
    }
  }

  // ---- rendering and reading back ----

  function RenderedLines(es: seq<Entry>): (r: seq<string>)
    ensures |r| == |es| && forall i :: 0 <= i < |es| ==> r[i] == RenderLine(es[i])
  {
    seq(|es|, i requires 0 <= i < |es| => RenderLine(es[i]))
  }

  /** The hash of each named file. */
  function Hashed(names: seq<string>, hashes: string -> string): (r: seq<Entry>)
    ensures |r| == |names| && forall i :: 0 <= i < |names| ==> r[i] == Entry(hashes(names[i]), names[i])
  {
    seq(|names|, i requires 0 <= i < |names| => Entry(hashes(names[i]), names[i]))
  }

  method RenderChecksumManifest(names: seq<string>, hashes: string -> string) returns (text: string)
    ensures text == Join(RenderedLines(Hashed(names, hashes))) + "\n"
  {
    var lines: seq<string> := [];
    for i := 0 to |names|
      invariant lines == RenderedLines(Hashed(names[..i], hashes))
    {
      lines := lines + [hashes(names[i]) + "  " + names[i]];
    }
    assert names[..|names|] == names;
    return Join(lines) + "\n";
  }

  lemma RenderedIsPlain(e: Entry)
    requires GoodEntry(e)
    ensures Plain(RenderLine(e))
  {
    forall c | c in RenderLine(e) ensures c != '\n' && c != '\r' {
      assert c in e.sha256 || c == ' ' || c in e.name;
    }
  }

  lemma RenderedIsGood(es: seq<Entry>)
    requires es != [] && forall i :: 0 <= i < |es| ==> GoodEntry(es[i])
    ensures var lines := RenderedLines(es);
      Lines(Join(lines) + "\n") == lines && AllGood(lines) && EntriesOf(lines) == es
  {
    hide RenderLine, SplitLine, Plain;
    var lines := RenderedLines(es);
    forall i | 0 <= i < |lines| ensures Plain(lines[i]) && SplitLine(lines[i]) == Some(es[i]) {
      RenderedIsPlain(es[i]);
      SplitRendered(es[i]);
    }
    LinesOfJoined(lines);
  }

  /** Reading a rendered manifest gives back exactly its entries. */
  lemma ReadsBackRendered(es: seq<Entry>)
    requires es != [] && (forall i :: 0 <= i < |es| ==> GoodEntry(es[i])) && InOrder(NamesOf(es))
    ensures var text := Join(RenderedLines(es)) + "\n"; Readable(text) && EntriesOf(Lines(text)) == es
  {
    hide GoodEntry, InOrder;
    RenderedIsGood(es);
  }

  // ---- the release script ----

  /** Where Python's splitlines breaks a text. */
  predicate IsBreak(c: char) {
    c in ['\n', '\r', '\U{B}', '\U{C}', '\U{1C}', '\U{1D}', '\U{1E}', '\U{85}', '\U{2028}', '\U{2029}']
  }

  function BreakAt(t: string): (k: nat)
    ensures k <= |t| && (k < |t| ==> IsBreak(t[k])) && forall c :: c in t[..k] ==> !IsBreak(c)
  {
    if t == "" || IsBreak(t[0]) then 0 else 1 + BreakAt(t[1..])
  }

  function SplitLines(t: string): seq<string>
    decreases |t|
  {
    if t == "" then []
    else
      var k := BreakAt(t);
      if k == |t| then [t]
      else if t[k] == '\r' && k + 1 < |t| && t[k + 1] == '\n' then [t[..k]] + SplitLines(t[k + 2..])
      else [t[..k]] + SplitLines(t[k + 1..])
  }

  predicate ReleaseLine(line: string) {
    |line| > 66 && IsHash(line[..64]) && line[64] == ' ' && line[65] == ' ' && ReleaseName(line[66..])
  }

  function ReleaseEntry(line: string): Entry
    requires ReleaseLine(line)
  {
    Entry(line[..64], line[66..])
  }

  lemma ReleaseLineSplits(line: string)
    ensures ReleaseLine(line) <==> GoodLine(line) && ReleaseName(SplitLine(line).value.name)
    ensures ReleaseLine(line) ==> SplitLine(line) == Some(ReleaseEntry(line))
  {
    if ReleaseLine(line) {
      assert line == RenderLine(ReleaseEntry(line));
      SplitRendered(ReleaseEntry(line));
      ReleaseNameIsSafe(line[66..]);
    }
    if GoodLine(line) && ReleaseName(SplitLine(line).value.name) {
      var e := SplitLine(line).value;
      RenderedSplit(line);
      assert line[..64] == e.sha256 && line[66..] == e.name && line[64] == ' ' && line[65] == ' ';
    }
  }

  predicate AllRelease(lines: seq<string>) { forall i :: 0 <= i < |lines| ==> ReleaseLine(lines[i]) }

  function ReleaseEntries(lines: seq<string>): (r: seq<Entry>)
    requires AllRelease(lines)
    ensures |r| == |lines| && forall i :: 0 <= i < |lines| ==> r[i] == ReleaseEntry(lines[i])
  {
    seq(|lines|, i requires 0 <= i < |lines| => ReleaseEntry(lines[i]))
  }

  /** What the release script accepts. */
  ghost predicate Releasable(text: string) {
    SplitLines(text) != [] && AllRelease(SplitLines(text)) && InOrder(NamesOf(ReleaseEntries(SplitLines(text))))
  }

  method ParseManifest(text: string) returns (r: Result<seq<Entry>, ManifestError>)
    ensures r.Success? <==> Releasable(text)
    ensures r.Success? ==> r.value == ReleaseEntries(SplitLines(text))
  {
    hide ReleaseLine, ReleaseEntry, InOrder, NoDuplicates;
    var lines := SplitLines(text);
    if lines == [] { return Failure(NotTerminated); }
    var parsed: seq<Entry> := [];
    var names: set<string> := {};
    NothingTabulated();
    for i := 0 to |lines|
      invariant AllRelease(lines[..i]) && parsed == ReleaseEntries(lines[..i])
      invariant names == (set n | n in NamesOf(parsed)) && NoDuplicates(NamesOf(parsed))
    {
      assert lines[..i + 1] == lines[..i] + [lines[i]];
      if !ReleaseLine(lines[i]) { return Failure(BadLine); }
      var e := ReleaseEntry(lines[i]);
      NamesGrow(parsed, e);
      if e.name in names {
        NamedTwice(lines, i);
        return Failure(DuplicateName);
      }
      names := names + {e.name};
      parsed := parsed + [e];
    }
    assert lines[..|lines|] == lines;
    OrderDecides(NamesOf(parsed));
    return if NamesOf(parsed) != Sort(NamesOf(parsed), Itself) then Failure(NotSorted) else Success(parsed);
  }

  lemma NamesGrow(es: seq<Entry>, e: Entry)
    ensures NamesOf(es + [e]) == NamesOf(es) + [e.name]
    ensures e.name !in NamesOf(es) && NoDuplicates(NamesOf(es)) ==> NoDuplicates(NamesOf(es + [e]))
  {
  }

  lemma NamedTwice(lines: seq<string>, i: nat)
    requires i < |lines| && AllRelease(lines[..i]) && ReleaseLine(lines[i])
    requires ReleaseEntry(lines[i]).name in NamesOf(ReleaseEntries(lines[..i]))
    ensures AllRelease(lines) ==> !InOrder(NamesOf(ReleaseEntries(lines)))
  {
    hide ReleaseLine, ReleaseEntry, IsSorted;
    if AllRelease(lines) {
      var k :| 0 <= k < i && NamesOf(ReleaseEntries(lines[..i]))[k] == ReleaseEntry(lines[i]).name;
      assert lines[..i][k] == lines[k];
      assert NamesOf(ReleaseEntries(lines))[k] == NamesOf(ReleaseEntries(lines))[i];
    }
  }

  // ---- the two readers ----

  /** The text breaks only at newlines, for either reader. */
  predicate OnlyNewlines(t: string) { forall c :: c in t ==> IsBreak(c) ==> c == '\n' }

  lemma {:induction false} SameBreak(t: string)
    requires OnlyNewlines(t)
    ensures BreakAt(t) == LineEnd(t)
  {
    if t != "" && !IsBreak(t[0]) { SameBreak(t[1..]); }
  }

  lemma {:induction false} SameLines(t: string)
    requires OnlyNewlines(t)
    ensures SplitLines(t) == Lines(t)
    decreases |t|
  {
    if t != "" {
      SameBreak(t);
      var k := LineEnd(t);
      assert forall c :: c in t[..k] ==> c in t;
      if k < |t| {
        assert t[k] == '\n';
        SameLines(t[k + 1..]);
        NoReturn(t, k);
      }
    }
  }

  lemma NoReturn(t: string, k: nat)
    requires OnlyNewlines(t) && k <= |t|
    ensures WithoutReturn(t[..k]) == t[..k]
  {
    if k > 0 { assert t[..k][k - 1] in t; }
  }

  /** On a terminated text that breaks only at newlines, the release script accepts what the strict
      reader accepts exactly when every name is a release name, and both read the same entries. */
  lemma ReadersAgree(text: string)
    requires text != "" && text[|text| - 1] == '\n' && OnlyNewlines(text)
    ensures Releasable(text) <==> Readable(text) && forall e :: e in EntriesOf(Lines(text)) ==> ReleaseName(e.name)
    ensures Releasable(text) ==> ReleaseEntries(SplitLines(text)) == EntriesOf(Lines(text))
  {
    hide ReleaseLine, ReleaseEntry, GoodLine, SplitLine, InOrder, ReleaseName, Lines, SplitLines;
    SameLines(text);
    SomeLine(text);
    LinesAgree(Lines(text));
    if AllRelease(Lines(text)) { assert ReleaseEntries(Lines(text)) == EntriesOf(Lines(text)); }
  }

  lemma SomeLine(text: string)
    requires text != ""
    ensures Lines(text) != []
  {
  }

  lemma LinesAgree(lines: seq<string>)
    ensures AllRelease(lines) <==> AllGood(lines) && forall e :: e in EntriesOf(lines) ==> ReleaseName(e.name)
    ensures AllRelease(lines) ==> EntriesOf(lines) == ReleaseEntries(lines)
  {
    hide ReleaseLine, ReleaseEntry, GoodLine, SplitLine, ReleaseName;
    forall i | 0 <= i < |lines|
      ensures ReleaseLine(lines[i]) <==> GoodLine(lines[i]) && SplitLine(lines[i]).Some? && ReleaseName(SplitLine(lines[i]).value.name)
      ensures ReleaseLine(lines[i]) ==> SplitLine(lines[i]) == Some(ReleaseEntry(lines[i]))
    {
      ReleaseLineSplits(lines[i]);
    }
    if AllGood(lines) && forall e :: e in EntriesOf(lines) ==> ReleaseName(e.name) {
      forall i | 0 <= i < |lines| ensures ReleaseLine(lines[i]) { assert EntriesOf(lines)[i] in EntriesOf(lines); }
    }
  }

  // ---- the bundle ----

  datatype FileState = RegularFile(bytes: string) | NotRegular

  type Bundle = map<string, FileState>

  const SHA256SUMS_FILE := "SHA256SUMS"

  const PACKAGE_LOCK_FILE := "packages.lock.yaml"

  const FIXED_FILES: seq<string> := [
    "build-metadata.json", "candidate.json", "codex-pin.yaml", "package-source-manifest.yaml",
    "portus-browser-pin.yaml", "portus-mcp-pin.yaml", "tunnel-client-pin.yaml"]

  /** Each name once, in the order of the list. */
  function Dedup(names: seq<string>): seq<string> {
    if |names| <= 1 then names
    else if names[0] == names[1] then Dedup(names[1..])
    else [names[0]] + Dedup(names[1..])
  }

  lemma {:induction false} DedupMembers(names: seq<string>)
    ensures forall n :: n in Dedup(names) <==> n in names
    ensures names != [] ==> Dedup(names) != [] && Dedup(names)[0] == names[0]
  {
    if |names| > 1 {
      DedupMembers(names[1..]);
      assert names == [names[0]] + names[1..];
    }
  }

  lemma {:induction false} DedupOrders(names: seq<string>)
    requires IsSorted(names, Itself)
    ensures InOrder(Dedup(names))
  {
    if |names| > 1 {
      DedupOrders(names[1..]);
      DedupMembers(names[1..]);
      var rest := Dedup(names[1..]);
      if names[0] != names[1] {
        forall i | 0 <= i < |rest| ensures KeyBelow(Itself(names[0]), Itself(rest[i])) && rest[i] != names[0] {
          assert rest[i] in names[1..];
          var k :| 1 <= k < |names| && names[k] == rest[i];
          NotEqualLater(names, k);
        }
        InOrderCons(names[0], rest);
      }
    }
  }

  lemma NotEqualLater(names: seq<string>, k: nat)
    requires IsSorted(names, Itself) && 1 <= k < |names| && names[0] != names[1]
    ensures KeyBelow(Itself(names[0]), Itself(names[k])) && names[k] != names[0]
  {
    if names[k] == names[0] {
      assert KeyBelow(Itself(names[0]), Itself(names[1]));
      if k > 1 { assert KeyBelow(Itself(names[1]), Itself(names[k])); }
      BelowAntisymmetric(names[0], names[1]);
    }
  }

  lemma InOrderCons(n: string, rest: seq<string>)
    requires InOrder(rest) && forall i :: 0 <= i < |rest| ==> KeyBelow(Itself(n), Itself(rest[i])) && rest[i] != n
    ensures InOrder([n] + rest)
  {
    var all := [n] + rest;
    forall i, j | 0 <= i < j < |all| ensures KeyBelow(Itself(all[i]), Itself(all[j])) && all[i] != all[j] {
      if i > 0 { assert all[i] == rest[i - 1] && all[j] == rest[j - 1]; }
    }
  }

  /** The immutable files of a candidate, each once, in order. */
  function BundleNames(b: Bundle, iso: string): seq<string> {
    Dedup(Sort(FIXED_FILES + [iso] + (if PACKAGE_LOCK_FILE in b then [PACKAGE_LOCK_FILE] else []), Itself))
  }

  predicate Present(b: Bundle, n: string) { SafeName(n) && n in b && b[n].RegularFile? }

  predicate AllPresent(b: Bundle, names: seq<string>) { forall i :: 0 <= i < |names| ==> Present(b, names[i]) }

  lemma BundleNamesOrdered(b: Bundle, iso: string)
    ensures InOrder(BundleNames(b, iso)) && iso in BundleNames(b, iso)
  {
    hide InOrder;
    var all := FIXED_FILES + [iso] + (if PACKAGE_LOCK_FILE in b then [PACKAGE_LOCK_FILE] else []);
    SortIsSorted(all, Itself);
    SortMembers(all, Itself);
    DedupMembers(Sort(all, Itself));
    DedupOrders(Sort(all, Itself));
    assert all[|FIXED_FILES|] == iso;
  }

  method ImmutableBundleNames(b: Bundle, iso: string) returns (r: Result<seq<string>, ManifestError>)
    ensures r.Success? <==> AllPresent(b, BundleNames(b, iso))
    ensures r.Success? ==> r.value == BundleNames(b, iso)
  {
    hide Present, BundleNames;
    var names := BundleNames(b, iso);
    for i := 0 to |names|
      invariant AllPresent(b, names[..i])
    {
      assert names[..i + 1] == names[..i] + [names[i]];
      if !Present(b, names[i]) {
        return Failure(if SafeName(names[i]) then NotRegularFile else UnsafeName);
      }
    }
    assert names[..|names|] == names;
    return Success(names);
  }

  // ---- verification of a bundle ----

  ghost predicate HashesMatch(b: Bundle, es: seq<Entry>, digest: string -> string) {
    forall i :: 0 <= i < |es| ==> es[i].name in b && b[es[i].name].RegularFile? && digest(b[es[i].name].bytes) == es[i].sha256
  }

  /** The manifest lists exactly the immutable files, with their hashes. */
  ghost predicate BundleHolds(b: Bundle, iso: string, digest: string -> string) {
    && SHA256SUMS_FILE in b && b[SHA256SUMS_FILE].RegularFile? && Readable(b[SHA256SUMS_FILE].bytes)
    && AllPresent(b, BundleNames(b, iso))
    && var es := EntriesOf(Lines(b[SHA256SUMS_FILE].bytes));
       NamesOf(es) == BundleNames(b, iso) && HashesMatch(b, es, digest)
  }

  lemma KeysInOrder(table: map<string, string>, es: seq<Entry>, names: seq<string>)
    requires Tabulates(table, es) && InOrder(NamesOf(es)) && InOrder(names)
    ensures (forall n :: n in table <==> n in names) <==> NamesOf(es) == names
  {
    if forall n :: n in table <==> n in names { SortedStringsUnique(NamesOf(es), names); }
  }

  lemma TableHashes(b: Bundle, table: map<string, string>, es: seq<Entry>, digest: string -> string)
    requires Tabulates(table, es)
    ensures HashesMatch(b, es, digest) <==>
      forall n :: n in table ==> n in b && b[n].RegularFile? && digest(b[n].bytes) == table[n]
  {
    if forall n :: n in table ==> n in b && b[n].RegularFile? && digest(b[n].bytes) == table[n] {
      forall i | 0 <= i < |es|
        ensures es[i].name in b && b[es[i].name].RegularFile? && digest(b[es[i].name].bytes) == es[i].sha256
      {
        assert es[i] in es;
      }
    }
    if HashesMatch(b, es, digest) {
      forall n | n in table ensures n in b && b[n].RegularFile? && digest(b[n].bytes) == table[n] {
        var i :| 0 <= i < |es| && NamesOf(es)[i] == n;
        assert es[i] in es;
      }
    }
  }

  method VerifyCandidateBundle(b: Bundle, iso: string, linked: bool, harness: bool, digest: string -> string)
    returns (r: Result<nat, ManifestError>)
    ensures r.Success? <==> linked && harness && BundleHolds(b, iso, digest)
    ensures r.Success? ==> r.value == |BundleNames(b, iso)|
  {
    hide Readable, Tabulates, InOrder, AllPresent, BundleNames, HashesMatch, Lines;
    if !linked { return Failure(WrongFileSet); }
    if SHA256SUMS_FILE !in b || !b[SHA256SUMS_FILE].RegularFile? { return Failure(NotRegularFile); }
    var text := b[SHA256SUMS_FILE].bytes;
    var read := ReadChecksumManifest(text);
    if read.Failure? { return Failure(read.error); }
    var table := read.value;
    var names := ImmutableBundleNames(b, iso);
    if names.Failure? { return Failure(names.error); }
    ReadableParts(text);
    BundleNamesOrdered(b, iso);
    KeysInOrder(table, EntriesOf(Lines(text)), names.value);
    TableHashes(b, table, EntriesOf(Lines(text)), digest);
    if table.Keys != set n | n in names.value { return Failure(WrongFileSet); }
    if exists n :: n in table && !(n in b && b[n].RegularFile? && digest(b[n].bytes) == table[n]) { return Failure(HashMismatch); }
    if !harness { return Failure(WrongFileSet); }
    return Success(|names.value|);
  }

  lemma ReadableParts(text: string)
    requires Readable(text)
    ensures AllGood(Lines(text)) && InOrder(NamesOf(EntriesOf(Lines(text))))
  {
  }

  // ---- what verification means for a finished bundle ----

  function DigestOf(b: Bundle, digest: string -> string): string -> string {
    (n: string) => if n in b && b[n].RegularFile? then digest(b[n].bytes) else ""
  }

  /** The manifest as finalization writes it. */
  function ManifestOf(b: Bundle, iso: string, digest: string -> string): string {
    Join(RenderedLines(Hashed(BundleNames(b, iso), DigestOf(b, digest)))) + "\n"
  }

  /** The immutable files of the two bundles are the same, by name and by hash. */
  ghost predicate SameFiles(was: Bundle, b: Bundle, iso: string, digest: string -> string) {
    && BundleNames(b, iso) == BundleNames(was, iso)
    && forall i :: 0 <= i < |BundleNames(was, iso)| ==> Unchanged(was, b, BundleNames(was, iso)[i], digest)
  }

  predicate Unchanged(was: Bundle, b: Bundle, n: string, digest: string -> string) {
    n in b && b[n].RegularFile? && n in was && was[n].RegularFile? && digest(b[n].bytes) == digest(was[n].bytes)
  }

  ghost predicate Hexadecimal(digest: string -> string) { forall s :: IsHash(digest(s)) }

  lemma WrittenManifest(was: Bundle, iso: string, digest: string -> string)
    requires Hexadecimal(digest) && AllPresent(was, BundleNames(was, iso))
    ensures var text, es := ManifestOf(was, iso, digest), Hashed(BundleNames(was, iso), DigestOf(was, digest));
      Readable(text) && EntriesOf(Lines(text)) == es && NamesOf(es) == BundleNames(was, iso)
  {
    hide BundleNames, IsHash, SafeName, InOrder;
    var names := BundleNames(was, iso);
    var es := Hashed(names, DigestOf(was, digest));
    BundleNamesOrdered(was, iso);
    assert NamesOf(es) == names;
    forall i | 0 <= i < |es| ensures GoodEntry(es[i]) { assert Present(was, names[i]); }
    ReadsBackRendered(es);
  }

  /** A bundle that carries the manifest written for it is accepted exactly while its immutable file set
      and every hash are what they were. */
  lemma AcceptedExactlyUnchanged(was: Bundle, b: Bundle, iso: string, digest: string -> string)
    requires Hexadecimal(digest) && AllPresent(was, BundleNames(was, iso))
    requires SHA256SUMS_FILE in b && b[SHA256SUMS_FILE] == RegularFile(ManifestOf(was, iso, digest))
    ensures BundleHolds(b, iso, digest) <==> SameFiles(was, b, iso, digest)
  {
    hide BundleNames, ManifestOf, Lines, Readable, SafeName, Hexadecimal;
    WrittenManifest(was, iso, digest);
    var names := BundleNames(was, iso);
    var es := Hashed(names, DigestOf(was, digest));
    forall i | 0 <= i < |names|
      ensures Unchanged(was, b, names[i], digest) <==> names[i] in b && b[names[i]].RegularFile? && digest(b[names[i]].bytes) == es[i].sha256
      ensures Unchanged(was, b, names[i], digest) ==> Present(b, names[i])
    {
      assert Present(was, names[i]);
    }
    assert HashesMatch(b, es, digest) <==> forall i :: 0 <= i < |names| ==> Unchanged(was, b, names[i], digest) by {
      if HashesMatch(b, es, digest) {
        forall i | 0 <= i < |names| ensures Unchanged(was, b, names[i], digest) { assert es[i].name == names[i]; }
      }
      if forall i :: 0 <= i < |names| ==> Unchanged(was, b, names[i], digest) {
        forall i | 0 <= i < |es| ensures es[i].name in b && b[es[i].name].RegularFile? && digest(b[es[i].name].bytes) == es[i].sha256 {
          assert es[i].name == names[i];
        }
      }
    }
  }
}
