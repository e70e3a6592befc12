/** Raised errors as their texts show them: what is collected from a chain of exceptions, and the short form
    of a failed process. */
module Errors {
  import opened Results

  /** KeyboardInterrupt and SystemExit; CalledProcessError; everything else. */
  datatype Kind = Interrupting | Process(code: int) | Other

  /** An exception: its str(), what a process wrote, and its __cause__ or __context__. */
  datatype Error = Error(
    kind: Kind, text: string, stderr: Option<string>, stdout: Option<string>, earlier: Option<Error>)

  /** The error of a command that ended with a failure status. */
  type ProcessError = e: Error | e.kind.Process? witness Error(Process(1), "", None, None, None)

  function Plain(text: string): Error { Error(Other, text, None, None, None) }

  // ---- text ----

  predicate IsLineBreak(c: char) {
    '\U{A}' <= c <= '\U{D}' || '\U{1C}' <= c <= '\U{1E}' || c == '\U{85}' || c == '\U{2028}' || c == '\U{2029}'
  }

  predicate IsSpace(c: char) {
    || IsLineBreak(c) || c == ' ' || c == '\t' || c == '\U{1F}' || c == '\U{A0}' || c == '\U{1680}'
    || '\U{2000}' <= c <= '\U{200A}' || c == '\U{202F}' || c == '\U{205F}' || c == '\U{3000}'
  }

  predicate Blank(s: string) { forall c :: c in s ==> IsSpace(c) }

  function StripLeft(s: string): string { if s != "" && IsSpace(s[0]) then StripLeft(s[1..]) else s }

  function StripRight(s: string): string {
    if s != "" && IsSpace(s[|s| - 1]) then StripRight(s[..|s| - 1]) else s
  }

  function Strip(s: string): string { StripRight(StripLeft(s)) }

  function Head(s: string, n: nat): string { if |s| <= n then s else s[..n] }

  function Tail(s: string, n: nat): string { if |s| <= n then s else s[|s| - n..] }

  function LowerChar(c: char): char { if 'A' <= c <= 'Z' then (c as int + 32) as char else c }

  function Lower(s: string): string { seq(|s|, i requires 0 <= i < |s| => LowerChar(s[i])) }

  predicate Contains(s: string, t: string) { t <= s || (s != "" && Contains(s[1..], t)) }

  function Joined(parts: seq<string>, separator: string): string {
    if parts == [] then "" else if |parts| == 1 then parts[0] else parts[0] + separator + Joined(parts[1..], separator)
  }

  function NonEmpty(parts: seq<string>): seq<string> {
    if parts == [] then [] else (if parts[0] != "" then [parts[0]] else []) + NonEmpty(parts[1..])
  }

  function Decimal(n: nat): string {
    if n < 10 then ["0123456789"[n]] else Decimal(n / 10) + ["0123456789"[n % 10]]
  }

  function DecimalInt(n: int): string { if n < 0 then "-" + Decimal(-n) else Decimal(n) }

  function OrEmpty(s: Option<string>): string { if s.Some? then s.value else "" }

  // ---- what a chain says ----

  /** How many exceptions of a chain are looked at. */
  const CHAIN_LIMIT: nat := 6

  const DIAGNOSTIC_LIMIT: nat := 8000

  /** stderr, stdout and text of the first exceptions of a chain, stripped, without blank ones. */
  function ChainTexts(e: Error, limit: nat): seq<string> {
    if limit == 0 then []
    else
      NonEmpty([Strip(OrEmpty(e.stderr)), Strip(OrEmpty(e.stdout)), Strip(e.text)])
      + if e.earlier.Some? then ChainTexts(e.earlier.value, limit - 1) else []
  }

  /** exception_diagnostic_text. */
  function Diagnostic(e: Error): string { Tail(Joined(ChainTexts(e, CHAIN_LIMIT), "\n"), DIAGNOSTIC_LIMIT) }

  /** None of the first exceptions of a chain says anything. */
  predicate Silent(e: Error, limit: nat) {
    limit == 0 ||
    (Blank(OrEmpty(e.stderr)) && Blank(OrEmpty(e.stdout)) && Blank(e.text)
     && (e.earlier.Some? ==> Silent(e.earlier.value, limit - 1)))
  }

  // ---- the short form of a failed process ----

  function LinesOf(s: string, current: string): seq<string> {
    if s == "" then [current]
    else if IsLineBreak(s[0]) then [current] + LinesOf(s[1..], "")
    else LinesOf(s[1..], current + [s[0]])
  }

  function StrippedLines(lines: seq<string>): seq<string> {
    if lines == [] then [] else NonEmpty([Strip(lines[0])]) + StrippedLines(lines[1..])
  }

  function LastLines(lines: seq<string>, n: nat): seq<string> { if |lines| <= n then lines else lines[|lines| - n..] }

  const CONCISE_LINES: nat := 8

  const DETAIL_LIMIT: nat := 1000

  /** What a failed process says first: stderr, else stdout, else the text of the exception. */
  function ProcessText(e: Error): string {
    if OrEmpty(e.stderr) != "" then OrEmpty(e.stderr) else if OrEmpty(e.stdout) != "" then OrEmpty(e.stdout) else e.text
  }

  /** concise_process_failure: the last lines of it, or the exit code. */
  function Concise(e: ProcessError): string {
    var text := Strip(ProcessText(e));
    var said := if text == "" then "exit " + DecimalInt(e.kind.code) else text;
    Tail(Joined(LastLines(StrippedLines(LinesOf(said, "")), CONCISE_LINES), " | "), DETAIL_LIMIT)
  }

  // ---- stripping ----

  lemma {:induction false} StripLeftKeeps(s: string)
    ensures StripLeft(s) == "" <==> Blank(s)
    ensures StripLeft(s) != "" ==> !IsSpace(StripLeft(s)[0])
  {
    if s != "" {
      assert s == [s[0]] + s[1..];
      if IsSpace(s[0]) { StripLeftKeeps(s[1..]); } else { assert s[0] in s; }
    }
  }

  lemma {:induction false} StripRightKeeps(s: string)
    ensures StripRight(s) == "" <==> Blank(s)
    ensures StripRight(s) != "" ==> !IsSpace(StripRight(s)[|StripRight(s)| - 1])
    ensures s != "" && !IsSpace(s[0]) ==> StripRight(s) != "" && StripRight(s)[0] == s[0]
  {
    if s != "" {
      var n := |s| - 1;
      assert s == s[..n] + [s[n]];
      if IsSpace(s[n]) { StripRightKeeps(s[..n]); } else { assert s[n] in s; }
    }
  }

  /** Nothing is left exactly of a blank text, and what is left begins and ends with no space. */
  lemma StripKeeps(s: string)
    ensures Strip(s) == "" <==> Blank(s)
    ensures Strip(s) != "" ==> !IsSpace(Strip(s)[0]) && !IsSpace(Strip(s)[|Strip(s)| - 1])
  {
    StripLeftKeeps(s);
    StripRightKeeps(StripLeft(s));
  }

  lemma {:induction false} StripLeftShorter(s: string)
    ensures |StripLeft(s)| <= |s|
  {
    if s != "" && IsSpace(s[0]) { StripLeftShorter(s[1..]); }
  }

  lemma {:induction false} StripRightShorter(s: string)
    ensures |StripRight(s)| <= |s|
  {
    if s != "" && IsSpace(s[|s| - 1]) { StripRightShorter(s[..|s| - 1]); }
  }

  lemma StripShorter(s: string)
    ensures |Strip(s)| <= |s|
  {
    StripLeftShorter(s);
    StripRightShorter(StripLeft(s));
  }

  // ---- texts that say something ----

  /** The text ends with no space. */
  predicate Ends(s: string) { s != "" && !IsSpace(s[|s| - 1]) }

  lemma TailEnds(s: string, n: nat)
    requires Ends(s) && n > 0
    ensures Ends(Tail(s, n)) && !Blank(Tail(s, n)) && |Tail(s, n)| <= n
  {
    var t := Tail(s, n);
    assert t[|t| - 1] in t;
  }

  lemma {:induction false} JoinedEnds(parts: seq<string>, separator: string)
    requires parts != [] && forall p :: p in parts ==> Ends(p)
    ensures Ends(Joined(parts, separator))
  {
    if |parts| == 1 {
      assert parts[0] in parts;
    } else {
      assert parts == [parts[0]] + parts[1..];
      JoinedEnds(parts[1..], separator);
    }
  }

  lemma {:induction false} ChainEnds(e: Error, limit: nat)
    ensures forall p :: p in ChainTexts(e, limit) ==> Ends(p)
    ensures ChainTexts(e, limit) == [] <==> Silent(e, limit)
  {
    hide Strip, Blank;
    if limit > 0 {
      StripKeeps(OrEmpty(e.stderr));
      StripKeeps(OrEmpty(e.stdout));
      StripKeeps(e.text);
      NonEmptyOfThree(Strip(OrEmpty(e.stderr)), Strip(OrEmpty(e.stdout)), Strip(e.text));
      if e.earlier.Some? { ChainEnds(e.earlier.value, limit - 1); }
    }
  }

  lemma NonEmptyOfThree(a: string, b: string, c: string)
    ensures var r := NonEmpty([a, b, c]);
      (forall p :: p in r <==> p in [a, b, c] && p != "") && (r == [] <==> a == "" && b == "" && c == "")
      && (c != "" ==> r != [] && r[|r| - 1] == c)
  {
    assert [a, b, c][1..] == [b, c] && [b, c][1..] == [c] && [c][1..] == [];
    assert NonEmpty([c]) == if c != "" then [c] else [];
    assert NonEmpty([b, c]) == (if b != "" then [b] else []) + NonEmpty([c]);
  }

  /** A chain whose first exceptions are all silent has no diagnostic; any other diagnostic ends in text. */
  lemma DiagnosticSays(e: Error)
    ensures Diagnostic(e) == "" <==> Silent(e, CHAIN_LIMIT)
    ensures Diagnostic(e) != "" ==> Ends(Diagnostic(e))
  {
    hide ChainTexts, Silent, Joined, Ends, Tail;
    var parts := ChainTexts(e, CHAIN_LIMIT);
    ChainEnds(e, CHAIN_LIMIT);
    if parts == [] {
      assert Joined(parts, "\n") == "" by { NothingJoined("\n"); }
      NoTail(DIAGNOSTIC_LIMIT);
    } else {
      JoinedEnds(parts, "\n");
      TailEnds(Joined(parts, "\n"), DIAGNOSTIC_LIMIT);
      assert Diagnostic(e) != "" by { EndsSays(Diagnostic(e)); }
    }
  }

  lemma NothingJoined(separator: string)
    ensures Joined([], separator) == ""
  {
  }

  lemma NoTail(n: nat)
    ensures Tail("", n) == ""
  {
  }

  lemma EndsSays(s: string)
    requires Ends(s)
    ensures s != ""
  {
  }

  lemma {:induction false} LinesSay(s: string, current: string)
    requires !Blank(s) || !Blank(current)
    ensures exists l :: l in LinesOf(s, current) && !Blank(l)
  {
    if s == "" {
      assert current in LinesOf(s, current);
    } else if IsLineBreak(s[0]) {
      assert s == [s[0]] + s[1..];
      if !Blank(current) {
        assert current in LinesOf(s, current);
      } else {
        LinesSay(s[1..], "");
      }
    } else {
      assert s == [s[0]] + s[1..];
      if !Blank(current) {
        var c :| c in current && !IsSpace(c);
        assert c in current + [s[0]];
      } else if !IsSpace(s[0]) {
        assert s[0] in current + [s[0]];
      }
      LinesSay(s[1..], current + [s[0]]);
    }
  }

  lemma {:induction false} StrippedSay(lines: seq<string>)
    ensures forall l :: l in StrippedLines(lines) ==> Ends(l)
    ensures (exists l :: l in lines && !Blank(l)) ==> StrippedLines(lines) != []
  {
    hide Strip, Blank, IsSpace, Ends, NonEmpty;
    if lines != [] {
      var first, rest := NonEmpty([Strip(lines[0])]), StrippedLines(lines[1..]);
      StripEnds(lines[0]);
      StrippedSay(lines[1..]);
      OneNonEmpty(Strip(lines[0]));
      forall l | l in first + rest ensures Ends(l) { }
      if l :| l in lines && !Blank(l) {
        if l != lines[0] { assert l in lines[1..]; }
        assert first != [] || rest != [];
      }
    }
  }

  lemma StripEnds(s: string)
    ensures Strip(s) == "" <==> Blank(s)
    ensures Strip(s) != "" ==> Ends(Strip(s))
  {
    hide Strip, Blank, IsSpace;
    StripKeeps(s);
  }

  lemma OneNonEmpty(s: string)
    ensures NonEmpty([s]) == if s != "" then [s] else []
  {
    assert [s][1..] == [];
  }

  /** The short form of a failed process is never blank and never too long. */
  lemma ConciseSays(e: ProcessError)
    ensures !Blank(Concise(e)) && |Concise(e)| <= DETAIL_LIMIT
  {
    hide Strip, LinesOf, StrippedLines, Joined, Decimal, Tail, Blank;
    var text := Strip(ProcessText(e));
    var said := if text == "" then "exit " + DecimalInt(e.kind.code) else text;
    StripKeeps(ProcessText(e));
    Says(said);
    LinesSay(said, "");
    var lines := StrippedLines(LinesOf(said, ""));
    StrippedSay(LinesOf(said, ""));
    var last := LastLines(lines, CONCISE_LINES);
    assert forall l :: l in last ==> l in lines;
    JoinedEnds(last, " | ");
    TailEnds(Joined(last, " | "), DETAIL_LIMIT);
  }

  lemma Says(s: string)
    requires s != "" && !IsSpace(s[0])
    ensures !Blank(s)
  {
    assert s[0] in s;
  }

  // ---- texts within texts ----

  lemma {:induction false} ContainsInside(a: string, s: string, b: string, t: string)
    requires Contains(s, t)
    ensures Contains(a + s + b, t)
  {
    if a != "" {
      assert (a + s + b)[1..] == a[1..] + s + b;
      ContainsInside(a[1..], s, b, t);
    } else if t <= s {
      assert a + s + b == s + b;
      assert (s + b)[..|t|] == t;
    } else {
      assert a + s + b == s + b && (s + b)[1..] == "" + s[1..] + b;
      ContainsInside("", s[1..], b, t);
    }
  }

  lemma LowerConcat(a: string, b: string)
    ensures Lower(a + b) == Lower(a) + Lower(b)
  {
  }

  /** A part of a joined text is in it. */
  lemma {:induction false} JoinedContains(parts: seq<string>, separator: string, p: string, t: string)
    requires p in parts && Contains(Lower(p), t)
    ensures Contains(Lower(Joined(parts, separator)), t)
  {
    hide Lower, Contains;
    if |parts| > 1 {
      var rest := Joined(parts[1..], separator);
      LowerConcat(parts[0] + separator, rest);
      LowerConcat(parts[0], separator);
      if parts[0] == p {
        ContainsInside("", Lower(p), Lower(separator) + Lower(rest), t);
        assert "" + Lower(p) + (Lower(separator) + Lower(rest)) == Lower(p) + Lower(separator) + Lower(rest);
      } else {
        assert parts == [parts[0]] + parts[1..];
        JoinedContains(parts[1..], separator, p, t);
        ContainsInside(Lower(parts[0]) + Lower(separator), Lower(rest), "", t);
        assert (Lower(parts[0]) + Lower(separator)) + Lower(rest) + "" == Lower(parts[0]) + Lower(separator) + Lower(rest);
      }
    }
  }

  /** A word that begins and ends with no space is still there after stripping. */
  predicate IsWord(t: string) { t != "" && !IsSpace(t[0]) && !IsSpace(t[|t| - 1]) }

  lemma {:induction false} ContainsFront(s: string, t: string)
    requires Contains(s, t) && t != "" && s != "" && s[|s| - 1] != t[|t| - 1]
    ensures Contains(s[..|s| - 1], t)
  {
    if t <= s {
      assert |t| == |s| ==> t == s;
      assert t <= s[..|s| - 1];
    } else {
      ContainsFront(s[1..], t);
      assert s[..|s| - 1][1..] == s[1..][..|s[1..]| - 1];
    }
  }

  lemma {:induction false} StripLeftContains(s: string, t: string)
    requires Contains(Lower(s), t) && IsWord(t)
    ensures Contains(Lower(StripLeft(s)), t)
  {
    if s != "" && IsSpace(s[0]) {
      assert Lower(s)[0] == s[0] && Lower(s)[1..] == Lower(s[1..]);
      StripLeftContains(s[1..], t);
    }
  }

  lemma {:induction false} StripRightContains(s: string, t: string)
    requires Contains(Lower(s), t) && IsWord(t)
    ensures Contains(Lower(StripRight(s)), t)
  {
    if s != "" && IsSpace(s[|s| - 1]) {
      var n := |s| - 1;
      assert Lower(s)[n] == s[n] && Lower(s)[..n] == Lower(s[..n]);
      ContainsFront(Lower(s), t);
      StripRightContains(s[..n], t);
    }
  }

  lemma StripContains(s: string, t: string)
    requires Contains(Lower(s), t) && IsWord(t)
    ensures Contains(Lower(Strip(s)), t)
  {
    StripLeftContains(s, t);
    StripRightContains(StripLeft(s), t);
  }

  // ---- texts that are not blank ----

  lemma EndsNotBlank(s: string)
    requires Ends(s)
    ensures !Blank(s)
  {
    assert s[|s| - 1] in s;
  }

  /** A text that begins with words is not blank, and one that ends with them ends in text. */
  lemma WordsAround(a: string, b: string)
    ensures !Blank(a) ==> !Blank(a + b)
    ensures Ends(b) ==> Ends(a + b)
  {
    if !Blank(a) {
      var c :| c in a && !IsSpace(c);
      assert c in a + b;
    }
  }
}
