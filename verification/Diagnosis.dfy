/** What a run makes of the error that ended it: the failure class of one attempt, and the cause and the detail
    of the failure report, by two tables of keywords. */
module Diagnosis {
  import opened Results
  import opened Errors
  import opened ProgressLedger
  import opened ClosureReport

  predicate HasAny(text: string, words: seq<string>) { exists w :: w in words && Contains(text, w) }

  // ---- the failure class of one attempt ----

  const INCOMPLETE := "attempt completed without producing SHA-256-valid files for every requested identity"

  const ATTEMPT_TEXT_LIMIT: nat := 500

  /** The detail an attempt records. */
  function AttemptDetail(error: Option<Error>, pending: bool): Option<string> {
    match error
    case Some(e) => Some(if e.kind.Process? then Concise(e) else Head(e.text, ATTEMPT_TEXT_LIMIT))
    case None => if pending then Some(INCOMPLETE) else None
  }

  /** Everything the class is looked for in. */
  function ClassText(e: Error, detail: string): string {
    Lower(Joined(NonEmpty([detail, OrEmpty(e.stderr), OrEmpty(e.stdout), e.text]), " "))
  }

  function SpokenClass(text: string, kind: Kind): FailureClass {
    if HasAny(text, ["operation too slow", "timed out", "timeout"]) then Timeout
    else if HasAny(text, ["404", "http_not_found"]) then HttpNotFound
    else if HasAny(text, ["tls", "ssl", "unexpected eof", "certificate"]) then Tls
    else if HasAny(text, ["could not resolve", "name resolution", "name or service not known"]) then Dns
    else if HasAny(text, ["connection refused", "failed to connect", "could not connect"]) then Connection
    else if HasAny(text, ["sha-256", "checksum", "signature", "corrupt"]) then Integrity
    else if kind.Process? then ProcessFailed
    else RuntimeError
  }

  /** classify_package_acquisition_failure. */
  function AcquisitionClass(error: Option<Error>, pending: bool): Option<FailureClass> {
    match error
    case None => if pending then Some(VerificationIncomplete) else None
    case Some(e) =>
      if e.kind.Interrupting? then Some(Interrupted)
      else Some(SpokenClass(ClassText(e, OrEmpty(AttemptDetail(error, pending))), e.kind))
  }

  // ---- the cause of a failed run ----

  /** Detail of the terminal attempt or probe, and the diagnostic of the error. */
  function CauseText(e: Error, observed: Option<string>): string {
    Lower(Joined(NonEmpty([OrEmpty(observed), Diagnostic(e)]), "\n"))
  }

  /** What the text alone says about the cause. */
  function SpokenCause(text: string, s: Substage): Option<Cause> {
    if HasAny(text, ["signature", "pgp", "unknown trust"]) then Some(SignatureFailure)
    else if HasAny(text, ["sha-256 mismatch", "sha256 mismatch", "checksum mismatch"]) then Some(HashMismatch)
    else if Contains(text, "unexpected eof") && HasAny(text, ["ssl", "tls", "openssl"]) then Some(TlsEof)
    else if HasAny(text, ["operation too slow", "timed out", "timeout"]) then Some(TimeoutCause)
    else if HasAny(text, ["404", "http_not_found"]) then Some(Http404)
    else if HasAny(text, ["tls", "ssl", "certificate"]) then Some(TlsFailure)
    else if HasAny(text, ["could not resolve", "name resolution", "name or service not known"]) then Some(DnsCause)
    else if HasAny(text, ["connection refused", "failed to connect", "could not connect"]) then Some(ConnectionCause)
    else if s.MirrorSelection? && HasAny(text, ["no active https repository mirrors", "mirrorlist"]) then
      Some(if Contains(text, "no active https") then NoEligibleMirror else MirrorConfiguration)
    else if s.RepositorySync? && HasAny(text, ["no healthy artix https anchor", "missing or empty repository databases"]) then
      Some(RepositoryUnavailable)
    else if s.Resolution? && Contains(text, "omitted explicit targets") then Some(ResolutionIncomplete)
    else if s.LocalValidationStage? && Contains(text, "different package closure") then Some(ResolutionMismatch)
    else if HasAny(text, ["prefetched package file is missing", "missing package"]) then Some(MissingFile)
    else None
  }

  const WITHOUT_VALID := "without producing sha-256-valid files"

  /** What is left to the class of the terminal attempt and the kind of the error. */
  function ClassCause(source: Option<FailureClass>, kind: Kind): Cause {
    match source
    case Some(Timeout) => TimeoutCause
    case Some(HttpNotFound) => Http404
    case Some(Tls) => TlsFailure
    case Some(Dns) => DnsCause
    case Some(Connection) => ConnectionCause
    case Some(Integrity) => HashMismatch
    case Some(ProcessFailed) => ProcessFailedCause
    case _ => if kind.Process? then ProcessFailedCause else RuntimeErrorCause
  }

  /** The cascade of classify_repository_closure_failure. */
  function CauseOf(s: Substage, e: Error, observed: Option<string>, source: Option<FailureClass>): Cause {
    var text := CauseText(e, observed);
    if e.kind.Interrupting? || source == Some(Interrupted) then InterruptedCause
    else if SpokenCause(text, s).Some? then SpokenCause(text, s).value
    else if source == Some(VerificationIncomplete) || Contains(text, WITHOUT_VALID) then VerificationIncompleteCause
    else ClassCause(source, e.kind)
  }

  /** The detail the report carries. */
  function DetailOf(e: Error, observed: Option<string>): string {
    Tail(if OrEmpty(observed) != "" then observed.value else if Diagnostic(e) != "" then Diagnostic(e) else e.text, DETAIL_LIMIT)
  }

  // ---- when the detail says something ----

  /** The detail is never too long, and it is blank exactly when the terminal attempt or probe left a text that ends
      in nothing but space, or left none and the whole chain of the error is silent. */
  lemma DetailSaysExactly(e: Error, observed: Option<string>)
    ensures |DetailOf(e, observed)| <= DETAIL_LIMIT
    ensures !Blank(DetailOf(e, observed)) <==>
      if OrEmpty(observed) != "" then !Blank(Tail(observed.value, DETAIL_LIMIT)) else !Silent(e, CHAIN_LIMIT)
  {
    hide Diagnostic, Silent, Blank, Ends;
    DiagnosticSays(e);
    if OrEmpty(observed) == "" {
      if Diagnostic(e) != "" {
        TailEnds(Diagnostic(e), DETAIL_LIMIT);
      } else {
        SilentText(e);
      }
    }
  }

  lemma SilentText(e: Error)
    requires Silent(e, CHAIN_LIMIT)
    ensures Blank(Tail(e.text, DETAIL_LIMIT))
  {
  }

  /** The text of a plain error of the closure code itself. */
  lemma PlainSays(e: Error)
    requires !Blank(e.text)
    ensures !Silent(e, CHAIN_LIMIT)
  {
    hide Blank;
  }

  /** The detail of an attempt is blank exactly when it raised no process failure and its text begins blank. */
  lemma AttemptDetailSays(error: Option<Error>, pending: bool)
    requires error.Some? || pending
    ensures var d := AttemptDetail(error, pending);
      && d.Some? && |d.value| <= DETAIL_LIMIT
      && (Blank(d.value) <==> error.Some? && !error.value.kind.Process? && Blank(Head(error.value.text, ATTEMPT_TEXT_LIMIT)))
  {
    if error.Some? && error.value.kind.Process? { ConciseSays(error.value); }
    if error.None? { IncompleteSays(); }
  }

  lemma IncompleteSays()
    ensures Ends(INCOMPLETE) && !Blank(INCOMPLETE) && |INCOMPLETE| <= DETAIL_LIMIT
  {
    var n := |INCOMPLETE| - 1;
    assert INCOMPLETE[n] == 'y' && INCOMPLETE[n] in INCOMPLETE;
  }

  // ---- when cause and class agree ----

  /** What the text says about the cause, whatever class the attempt had. */
  function Spoken(text: string): Option<Cause> {
    if SpokenCause(text, Acquisition).Some? then SpokenCause(text, Acquisition)
    else if Contains(text, WITHOUT_VALID) then Some(VerificationIncompleteCause)
    else None
  }

  /** The cause of a run that stops in acquisition fits the class of its terminal attempt exactly when the
      attempt was interrupted, or the collected text says nothing, or it says what the class allows. */
  lemma AgreesExactly(e: Error, observed: Option<string>, c: FailureClass)
    requires !e.kind.Process?
    ensures CauseFitsClass(CauseOf(Acquisition, e, observed, Some(c)), c) <==>
      if e.kind.Interrupting? || c.Interrupted? then c.Interrupted?
      else Spoken(CauseText(e, observed)).None? || CauseFitsClass(Spoken(CauseText(e, observed)).value, c)
  {
    hide CauseText, Contains, HasAny;
  }

  /** Elsewhere a cause always fits its stage, unless the text complains about an attempt at a stage without attempts. */
  lemma FitsStageExactly(s: Substage, e: Error, observed: Option<string>)
    requires !s.Acquisition?
    ensures CauseFitsStage(CauseOf(s, e, observed, None), s) <==>
      || e.kind.Interrupting? || SpokenCause(CauseText(e, observed), s).Some? || !Contains(CauseText(e, observed), WITHOUT_VALID)
  {
    hide CauseText, Contains, HasAny;
  }

  lemma FitsAcquisition(e: Error, observed: Option<string>, source: Option<FailureClass>)
    ensures CauseFitsStage(CauseOf(Acquisition, e, observed, source), Acquisition)
  {
    hide CauseText, Contains, HasAny;
  }
}
