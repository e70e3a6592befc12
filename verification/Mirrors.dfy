/** Mirror candidates from the mirrorlist, the anchor probe, and the bounded failover order. */
module Mirrors {
  import opened Results
  import opened Errors
  import opened ProgressLedger

  const MAX_MIRROR_ATTEMPTS: nat := 4

  /** A mirrorlist line: comments, blanks and anything but `Server = url` are ignored. */
  datatype Line = Ignored | ServerLine(url: string)

  datatype MirrorError = MissingPlaceholders(line: nat) | NoActiveMirror | LimitNotPositive | AnchorAbsent | AnchorDrifted

  predicate IsTemplate(url: string) { Contains(url, "$repo") && Contains(url, "$arch") }

  predicate IsActive(l: Line) { l.ServerLine? && IsHttps(l.url) }

  predicate Increasing(ms: seq<Mirror>) {
    forall i, j :: 0 <= i < j < |ms| ==> ms[i].server != ms[j].server && ms[i].line < ms[j].line
  }

  predicate Usable(m: Mirror) { IsHttps(m.server) && m.line >= 1 }

  /** Usable candidates with different servers, in increasing line order. */
  predicate Forward(ms: seq<Mirror>) { Increasing(ms) && forall m :: m in ms ==> Usable(m) }

  /** Every candidate stands on its own line of the list. */
  ghost predicate Listed(lines: seq<Line>, ms: seq<Mirror>) {
    forall m :: m in ms ==> 1 <= m.line <= |lines| && lines[m.line - 1] == ServerLine(m.server)
  }

  /** Every active line has its server among the candidates, at that line or an earlier one. */
  ghost predicate Complete(lines: seq<Line>, ms: seq<Mirror>) {
    forall i :: 0 <= i < |lines| && IsActive(lines[i]) ==>
      exists m :: m in ms && m.server == lines[i].url && m.line <= i + 1
  }

  /** Exactly the first line of each active server, in order. */
  ghost predicate Candidates(lines: seq<Line>, ms: seq<Mirror>) {
    Forward(ms) && Listed(lines, ms) && Complete(lines, ms)
  }

  lemma SkipLine(lines: seq<Line>, i: nat, ms: seq<Mirror>)
    requires i < |lines| && Candidates(lines[..i], ms)
    requires IsActive(lines[i]) ==> exists m :: m in ms && m.server == lines[i].url
    ensures Candidates(lines[..i + 1], ms)
  {
    hide IsHttps;
    var upTo := lines[..i + 1];
    assert upTo == lines[..i] + [lines[i]];
    forall k | 0 <= k < |upTo| && IsActive(upTo[k])
      ensures exists m :: m in ms && m.server == upTo[k].url && m.line <= k + 1
    {
      if k < i { assert lines[..i][k] == upTo[k]; }
    }
  }

  lemma TakeLine(lines: seq<Line>, i: nat, ms: seq<Mirror>)
    requires i < |lines| && Candidates(lines[..i], ms) && IsActive(lines[i])
    requires forall m :: m in ms ==> m.server != lines[i].url
    ensures Candidates(lines[..i + 1], ms + [Mirror(lines[i].url, i + 1)])
  {
    var added := Mirror(lines[i].url, i + 1);
    assert lines[..i + 1] == lines[..i] + [lines[i]];
    TakenForward(ms, added);
    TakenListed(lines[..i], lines[i], ms, added);
    TakenComplete(lines[..i], lines[i], ms, added);
  }

  lemma TakenForward(ms: seq<Mirror>, added: Mirror)
    requires Forward(ms) && Usable(added)
    requires forall m :: m in ms ==> m.server != added.server && m.line < added.line
    ensures Forward(ms + [added])
  {
    hide Usable;
    var r := ms + [added];
    forall a, b | 0 <= a < b < |r| ensures r[a].server != r[b].server && r[a].line < r[b].line {
      assert r[a] in ms;
    }
    assert forall m :: m in r ==> m in ms || m == added;
  }

  lemma TakenListed(before: seq<Line>, l: Line, ms: seq<Mirror>, added: Mirror)
    requires Listed(before, ms) && l == ServerLine(added.server) && added.line == |before| + 1
    ensures Listed(before + [l], ms + [added])
  {
  }

  lemma TakenComplete(before: seq<Line>, l: Line, ms: seq<Mirror>, added: Mirror)
    requires Complete(before, ms) && l == ServerLine(added.server) && added.line == |before| + 1
    ensures Complete(before + [l], ms + [added])
  {
    hide IsHttps;
    var upTo, r := before + [l], ms + [added];
    forall k | 0 <= k < |upTo| && IsActive(upTo[k])
      ensures exists m :: m in r && m.server == upTo[k].url && m.line <= k + 1
    {
      if k < |before| {
        assert before[k] == upTo[k];
        var m :| m in ms && m.server == before[k].url && m.line <= k + 1;
        assert m in r;
      } else {
        assert added in r;
      }
    }
  }

  /** An active line lacks a placeholder, or no line is active. */
  ghost predicate Unlistable(lines: seq<Line>) {
    (exists l :: l in lines && IsActive(l) && !IsTemplate(l.url)) || forall l :: l in lines ==> !IsActive(l)
  }

  /** The first active line without placeholders, or that no line is active. */
  function ListProblem(lines: seq<Line>): Option<MirrorError> {
    if FirstUnusable(lines, 0).Some? then FirstUnusable(lines, 0)
    else if forall l :: l in lines ==> !IsActive(l) then Some(NoActiveMirror)
    else None
  }

  function FirstUnusable(lines: seq<Line>, i: nat): Option<MirrorError>
    requires i <= |lines|
    decreases |lines| - i
  {
    if i == |lines| then None
    else if IsActive(lines[i]) && !IsTemplate(lines[i].url) then Some(MissingPlaceholders(i + 1))
    else FirstUnusable(lines, i + 1)
  }

  function ListText(e: MirrorError): Error {
    if e.MissingPlaceholders? then Plain("active HTTPS Artix mirror lacks $repo/$arch placeholders at line " + Decimal(e.line))
    else Plain("Artix mirrorlist contains no active HTTPS repository mirrors")
  }

  method ParseArtixMirrorServers(lines: seq<Line>) returns (r: Result<seq<Mirror>, MirrorError>)
    ensures r.Success? ==> r.value != [] && Candidates(lines, r.value)
    ensures r.Failure? <==> Unlistable(lines)
    ensures r.Failure? ==> Some(r.error) == ListProblem(lines)
  {
    hide IsHttps, IsTemplate, Forward, Complete;
    var candidates: seq<Mirror> := [];
    var seen: set<string> := {};
    NoLines();
    for i := 0 to |lines|
      invariant Candidates(lines[..i], candidates) && FirstUnusable(lines, 0) == FirstUnusable(lines, i)
      invariant seen == set m | m in candidates :: m.server
      invariant forall l :: l in lines[..i] && IsActive(l) ==> IsTemplate(l.url)
      invariant candidates == [] ==> forall l :: l in lines[..i] ==> !IsActive(l)
      invariant candidates != [] ==> exists l :: l in lines && IsActive(l)
    {
      var l := lines[i];
      assert lines[..i + 1] == lines[..i] + [l];
      assert l in lines;
      if !IsActive(l) {
        SkipLine(lines, i, candidates);
        continue;
      }
      if !IsTemplate(l.url) { return Failure(MissingPlaceholders(i + 1)); }
      if l.url in seen {
        SkipLine(lines, i, candidates);
        continue;
      }
      seen := seen + {l.url};
      TakeLine(lines, i, candidates);
      candidates := candidates + [Mirror(l.url, i + 1)];
    }
    assert lines[..|lines|] == lines;
    if candidates == [] { return Failure(NoActiveMirror); }
    return Success(candidates);
  }

  lemma NoLines()
    ensures Candidates([], [])
  {
  }

  /** How a mirror answers a probe: all databases arrive, pacman fails, databases are missing or empty, or
      something else is raised. */
  datatype Answer = Serves | Refused(failed: ProcessError) | Lacks(databases: seq<string>) | Broken(error: Error)

  datatype Probe = Probe(mirror: Mirror, passed: bool, detail: Option<string>)

  const LACKS := "missing or empty repository databases: "

  /** The record of a probe that came to an answer. */
  function ProbeOf(m: Mirror, a: Answer): Probe {
    match a
    case Refused(failed) => Probe(m, false, Some(Concise(failed)))
    case Lacks(names) => Probe(m, false, Some(LACKS + Joined(names, ", ")))
    case _ => Probe(m, true, None)
  }

  /** Candidates were probed in order, the k-th probe answered by answer(k), up to the first that passed. */
  ghost predicate Probed(answer: nat -> Answer, candidates: seq<Mirror>, attempts: seq<Probe>, selected: Option<Mirror>) {
    && |attempts| <= |candidates|
    && (forall k :: 0 <= k < |attempts| ==> !answer(k).Broken? && attempts[k] == ProbeOf(candidates[k], answer(k)))
    && (forall k :: 0 <= k < |attempts| - 1 ==> !attempts[k].passed)
    && (match selected
        case Some(m) => attempts != [] && attempts[|attempts| - 1] == Probe(m, true, None)
        case None => |attempts| == |candidates| && forall k :: 0 <= k < |attempts| ==> !attempts[k].passed)
  }

  /** The first probe that was not refused broke off with this error. */
  ghost predicate BrokeOff(answer: nat -> Answer, candidates: seq<Mirror>, e: Error) {
    exists k :: 0 <= k < |candidates| && answer(k) == Broken(e) && forall j :: 0 <= j < k ==> answer(j).Refused? || answer(j).Lacks?
  }

  method SelectFirstHealthyMirror(candidates: seq<Mirror>, answer: nat -> Answer)
    returns (r: Result<Option<Mirror>, Error>, attempts: seq<Probe>)
    ensures r.Success? ==> Probed(answer, candidates, attempts, r.value)
    ensures r.Failure? ==> BrokeOff(answer, candidates, r.error) && attempts == []
  {
    hide Concise, Joined;
    attempts := [];
    for i := 0 to |candidates|
      invariant |attempts| == i
      invariant forall k :: 0 <= k < i ==>
        (answer(k).Refused? || answer(k).Lacks?) && attempts[k] == ProbeOf(candidates[k], answer(k))
    {
      var answered := answer(i);
      if answered.Broken? { return Failure(answered.error), []; }
      attempts := attempts + [ProbeOf(candidates[i], answered)];
      if answered.Serves? { return Success(Some(candidates[i])), attempts; }
    }
    return Success(None), attempts;
  }

  /** The candidates from the anchor on, cut at the attempt limit. */
  ghost predicate AnchorFirst(candidates: seq<Mirror>, anchor: Mirror, limit: nat, ms: seq<Mirror>) {
    exists k :: 0 <= k < |candidates| && candidates[k] == anchor
      && ms == candidates[k..if k + limit <= |candidates| then k + limit else |candidates|]
  }

  method OrderedPrefetchMirrors(candidates: seq<Mirror>, anchor: Mirror, maxAttempts: int)
    returns (r: Result<seq<Mirror>, MirrorError>)
    ensures r.Success? ==> maxAttempts > 0 && AnchorFirst(candidates, anchor, maxAttempts, r.value)
    ensures r.Failure? && maxAttempts > 0 && Forward(candidates) ==> anchor !in candidates
  {
    if maxAttempts <= 0 { return Failure(LimitNotPositive); }
    var k := 0;
    while k < |candidates| && candidates[k].server != anchor.server
      invariant 0 <= k <= |candidates|
      invariant forall j :: 0 <= j < k ==> candidates[j].server != anchor.server
    {
      k := k + 1;
    }
    if k == |candidates| { return Failure(AnchorAbsent); }
    if candidates[k] != anchor { return Failure(AnchorDrifted); }
    return Success(candidates[k..if k + maxAttempts <= |candidates| then k + maxAttempts else |candidates|]);
  }

  /** Failover order: anchor first, forward only, no server twice, within the limit. */
  lemma AnchorFirstIsForward(candidates: seq<Mirror>, anchor: Mirror, limit: nat, ms: seq<Mirror>)
    requires Forward(candidates) && limit > 0 && AnchorFirst(candidates, anchor, limit, ms)
    ensures ms != [] && ms[0] == anchor && |ms| <= limit && Forward(ms)
  {
    hide Usable;
    var k :| 0 <= k < |candidates| && candidates[k] == anchor
      && ms == candidates[k..if k + limit <= |candidates| then k + limit else |candidates|];
    forall m | m in ms ensures Usable(m) {
      assert m in candidates;
    }
    forall i, j | 0 <= i < j < |ms| ensures ms[i].server != ms[j].server && ms[i].line < ms[j].line {
      assert ms[i] == candidates[k + i] && ms[j] == candidates[k + j];
    }
  }
}
