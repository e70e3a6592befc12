/** What the words of an error decide.  The failure class of an attempt is read from that attempt alone, the cause of
    the run from everything its chain of errors says: names of files and errors of earlier attempts included. */
module FailureWords {
  import opened Results
  import opened Errors
  import opened Diagnosis
  import opened Ordering
  import opened Packages
  import opened PackageCache
  import opened CacheAuditing
  import opened ProgressLedger
  import opened Mirrors
  import opened ClosureReport
  import opened ResolvedRows
  import opened Acquisition
  import opened AcquisitionEvidence
  import opened LedgerTotals
  import opened RunEvidence
  import opened BatchPlan
  import opened ClosureRun
  import opened ClosureStart
  import opened PrefetchRun
  import opened ClosureEvidence
  import opened ClosureCourse
  import opened ClosurePreparation

  // ---- words that are taken for a cause ----

  /** Words that decide the cause wherever they come from. */
  const CAUSE_WORDS: seq<string> := ["signature", "pgp", "timed out", "timeout", "404", "tls", "ssl", "certificate"]

  lemma WordsDecide(text: string, word: string)
    requires word in CAUSE_WORDS && Contains(text, word)
    ensures SpokenCause(text, Acquisition).Some? && !SpokenCause(text, Acquisition).value.VerificationIncompleteCause?
  {
    hide Contains;
  }

  lemma CauseWordsAreWords(word: string)
    requires word in CAUSE_WORDS
    ensures IsWord(word)
  {
  }

  lemma {:induction false} NothingContains(t: string)
    requires t != ""
    ensures !Contains("", t)
  {
  }

  /** What one text of an uncut chain says is in the text the cause is read from. */
  lemma ChainSpeaks(e: Error, observed: Option<string>, part: string, word: string)
    requires part in ChainTexts(e, CHAIN_LIMIT) && |Joined(ChainTexts(e, CHAIN_LIMIT), "\n")| <= DIAGNOSTIC_LIMIT
    requires word != "" && Contains(Lower(part), word)
    ensures Contains(CauseText(e, observed), word)
  {
    hide ChainTexts, Joined, Contains, Lower;
    var diagnostic := Diagnostic(e);
    assert diagnostic == Joined(ChainTexts(e, CHAIN_LIMIT), "\n");
    JoinedContains(ChainTexts(e, CHAIN_LIMIT), "\n", part, word);
    assert diagnostic != "" by { LowerNothing(diagnostic, word); }
    TwoNonEmpty(OrEmpty(observed), diagnostic);
    JoinedContains(NonEmpty([OrEmpty(observed), diagnostic]), "\n", diagnostic, word);
  }

  lemma LowerNothing(s: string, word: string)
    requires word != "" && Contains(Lower(s), word)
    ensures s != ""
  {
    NothingContains(word);
    assert Lower("") == "";
  }

  lemma TwoNonEmpty(a: string, b: string)
    requires b != ""
    ensures b in NonEmpty([a, b])
  {
    assert [a, b][1..] == [b] && [b][1..] == [];
    assert NonEmpty([b]) == [b];
  }

  /** The text of an exception, stripped, is one of the texts of its chain, and so are the texts of the earlier ones. */
  lemma TextInChain(e: Error, limit: nat, word: string)
    requires limit > 0 && Contains(Lower(e.text), word) && IsWord(word)
    ensures Strip(e.text) in ChainTexts(e, limit) && Contains(Lower(Strip(e.text)), word)
  {
    hide Strip, Contains, Lower;
    StripContains(e.text, word);
    assert Strip(e.text) != "" by { LowerNothing(Strip(e.text), word); }
    NonEmptyOfThree(Strip(OrEmpty(e.stderr)), Strip(OrEmpty(e.stdout)), Strip(e.text));
  }

  lemma EarlierInChain(e: Error, limit: nat, part: string)
    requires limit > 0 && e.earlier.Some? && part in ChainTexts(e.earlier.value, limit - 1)
    ensures part in ChainTexts(e, limit)
  {
  }

  /** The last attempt only left files incomplete, but the chain of errors says a word that stands for something
      else: the cause is not the one the class calls for, and the report is rejected. */
  lemma Misread(r: Report, e: Error, part: string, word: string)
    requires Blames(r, Acquisition, e) && e.kind.Other? && EndsInFailedAttempt(r.cache.attempts)
    requires ObservedClass(r, Acquisition) == Some(VerificationIncomplete)
    requires part in ChainTexts(e, CHAIN_LIMIT) && |Joined(ChainTexts(e, CHAIN_LIMIT), "\n")| <= DIAGNOSTIC_LIMIT
    requires word in CAUSE_WORDS && Contains(Lower(part), word)
    ensures !CauseAgrees(r) && (!r.passed ==> !Accepted(r))
  {
    hide ChainTexts, Joined, Contains, Lower, CauseText, SpokenCause, Diagnosed, CauseAgrees, Blames, ObservedClass;
    CauseWordsAreWords(word);
    ChainSpeaks(e, ObservedDetail(r, Acquisition), part, word);
    WordsDecide(CauseText(e, ObservedDetail(r, Acquisition)), word);
    StopAgreesExactly(r, e);
    if !r.passed { RejectedByCause(r); }
  }

  lemma RejectedByCause(r: Report)
    requires !r.passed && !CauseAgrees(r)
    ensures !Accepted(r)
  {
    hide CauseFits;
  }

  /** A plain error over another one is cut only if their texts are long. */
  lemma TwoTexts(outer: string, inner: string)
    ensures var e := Error(Other, outer, None, None, Some(Plain(inner)));
      |Joined(ChainTexts(e, CHAIN_LIMIT), "\n")| <= |outer| + 1 + |inner|
  {
    hide Strip;
    StripShorter(outer);
    StripShorter(inner);
    StripKeeps("");
    var e := Error(Other, outer, None, None, Some(Plain(inner)));
    NonEmptyOfThree(Strip(""), Strip(""), Strip(outer));
    NonEmptyOfThree(Strip(""), Strip(""), Strip(inner));
    LastOfThree(Strip(outer));
    LastOfThree(Strip(inner));
    assert ChainTexts(Plain(inner), CHAIN_LIMIT - 1) == if Strip(inner) != "" then [Strip(inner)] else [];
    assert ChainTexts(e, CHAIN_LIMIT) ==
      (if Strip(outer) != "" then [Strip(outer)] else []) + if Strip(inner) != "" then [Strip(inner)] else [];
    if Strip(outer) != "" && Strip(inner) != "" { assert [Strip(outer), Strip(inner)][1..] == [Strip(inner)]; }
  }

  lemma LastOfThree(s: string)
    ensures NonEmpty(["", "", s]) == if s != "" then [s] else []
  {
    OneNonEmpty(s);
    assert ["", "", s][1..] == ["", s] && ["", s][1..] == [s];
    assert NonEmpty(["", s]) == NonEmpty([s]);
  }

  // ---- mirrors exhausted ----

  lemma ExhaustedNames(made: nat, given: nat, pending: seq<string>, raised: bool, n: string, word: string)
    requires n in pending && Contains(Lower(n), word)
    ensures Contains(Lower(ExhaustedText(made, given, pending, raised)), word)
  {
    hide Joined, Contains, Lower, Decimal;
    JoinedContains(pending, ", ", n, word);
    var before := "package prefetch exhausted " + Decimal(made) + "/" + Decimal(given) +
      (" mirror attempts with " + Decimal(|pending|) + " unresolved package files: ");
    assert ExhaustedText(made, given, pending, raised) == before + Joined(pending, ", ");
    LowerConcat(before, Joined(pending, ", "));
    ContainsInside(Lower(before), Lower(Joined(pending, ", ")), "", word);
    assert Lower(before) + Lower(Joined(pending, ", ")) + "" == Lower(before) + Lower(Joined(pending, ", "));
  }

  /** The error of a round whose mirrors were exhausted: the batch, within it the mirrors, within that the last error. */
  lemma ExhaustedChain(dir: string, start: seq<Record>, b: nat, count: nat, batch: seq<Package>, mirrors: seq<Mirror>, rd: Round, e: Error)
    requires RoundError(dir, start, b, count, batch, mirrors, rd, e) && rd.outcome == Failure(MirrorsExhausted)
    ensures e.kind.Other? && e.earlier.Some?
    ensures e.earlier.value.text ==
      ExhaustedText(|rd.did|, |mirrors|, Names(Select(batch, PendingAfter(batch, rd.did))), LastRaised(rd.did).Some?)
    ensures e.earlier.value.earlier == LastRaised(rd.did)
  {
    hide ExhaustedText, LastRaised;
  }

  /** A round ends with an attempt that raised nothing and left a file missing whose name has such a word in it, like
      gnutls or openssl: the report is rejected. */
  lemma NameMisread(dir: string, start: seq<Record>, b: nat, count: nat, batch: seq<Package>, mirrors: seq<Mirror>, rd: Round,
                    e: Error, r: Report, n: string, word: string)
    requires RoundError(dir, start, b, count, batch, mirrors, rd, e) && rd.outcome == Failure(MirrorsExhausted)
    requires n in Names(Select(batch, PendingAfter(batch, rd.did))) && word in CAUSE_WORDS && Contains(Lower(n), word)
    requires Blames(r, Acquisition, e) && EndsInFailedAttempt(r.cache.attempts)
    requires ObservedClass(r, Acquisition) == Some(VerificationIncomplete)
    requires |Joined(ChainTexts(e, CHAIN_LIMIT), "\n")| <= DIAGNOSTIC_LIMIT
    ensures !CauseAgrees(r) && (!r.passed ==> !Accepted(r))
  {
    hide RoundError, ChainTexts, Joined, Contains, Lower, Diagnosed, CauseAgrees, Accepted, Blames, ObservedClass, Strip, ExhaustedText,
         IsWord;
    ExhaustedChain(dir, start, b, count, batch, mirrors, rd, e);
    CauseWordsAreWords(word);
    var inner := e.earlier.value;
    ExhaustedNames(|rd.did|, |mirrors|, Names(Select(batch, PendingAfter(batch, rd.did))), LastRaised(rd.did).Some?, n, word);
    TextInChain(inner, CHAIN_LIMIT - 1, word);
    EarlierInChain(e, CHAIN_LIMIT, Strip(inner.text));
    Misread(r, e, Strip(inner.text), word);
  }

  /** An earlier attempt raised an error with such a word in its text, like a timeout, and the last one raised nothing
      but left files incomplete: the earlier error is blamed and the report rejected. */
  lemma EarlierErrorBlamed(dir: string, start: seq<Record>, b: nat, count: nat, batch: seq<Package>, mirrors: seq<Mirror>, rd: Round,
                           e: Error, r: Report, raised: Error, word: string)
    requires RoundError(dir, start, b, count, batch, mirrors, rd, e) && rd.outcome == Failure(MirrorsExhausted)
    requires LastRaised(rd.did) == Some(raised) && word in CAUSE_WORDS && Contains(Lower(raised.text), word)
    requires Blames(r, Acquisition, e) && EndsInFailedAttempt(r.cache.attempts)
    requires ObservedClass(r, Acquisition) == Some(VerificationIncomplete)
    requires |Joined(ChainTexts(e, CHAIN_LIMIT), "\n")| <= DIAGNOSTIC_LIMIT
    ensures !CauseAgrees(r) && (!r.passed ==> !Accepted(r))
  {
    hide RoundError, ChainTexts, Joined, Contains, Lower, Diagnosed, CauseAgrees, Accepted, Blames, ObservedClass, Strip, ExhaustedText,
         IsWord;
    ExhaustedChain(dir, start, b, count, batch, mirrors, rd, e);
    CauseWordsAreWords(word);
    TextInChain(raised, CHAIN_LIMIT - 2, word);
    EarlierInChain(e.earlier.value, CHAIN_LIMIT - 1, Strip(raised.text));
    EarlierInChain(e, CHAIN_LIMIT, Strip(raised.text));
    Misread(r, e, Strip(raised.text), word);
  }

  // ---- exactly when the cause of a stopped run agrees ----

  /** Every recorded attempt that did not pass has a failure class. */
  ghost predicate Classed(attempts: seq<BatchAttempt>) {
    forall ba :: ba in attempts ==> (ba.attempt.passed <==> ba.attempt.failureClass.None?)
  }

  lemma ChainClassed(batch: seq<Package>, mirrors: seq<Mirror>, did: seq<Step>, atts: seq<Attempt>, b: nat)
    requires Chain(batch, mirrors, did, atts)
    ensures Classed(Tagged(b, atts))
  {
    hide Describes, CleanedUp, StillPending, Follows;
    forall ba | ba in Tagged(b, atts) ensures ba.attempt.passed <==> ba.attempt.failureClass.None? {
      var j :| 0 <= j < |atts| && ba == BatchAttempt(b, atts[j]);
      assert Linked(batch, mirrors, did, atts, j);
      PassMeansClean(batch, did[j], j + 1, mirrors[j], atts[j]);
    }
  }

  lemma {:induction false} RoundsClassed(start: seq<Record>, batches: seq<seq<Package>>, mirrors: seq<Mirror>, network: Network,
                                         before: Entries, rounds: seq<Round>)
    requires |rounds| <= |batches| && forall i :: 0 <= i < |rounds| ==> RoundFollows(start, batches, mirrors, network, before, rounds, i)
    ensures Classed(AttemptsIn(rounds))
  {
    hide BatchRan, AllAcceptable, Acceptable, Chain, Classed, Tagged;
    if rounds == [] {
      assert Classed([]) by { NothingClassed(); }
    } else {
      var n := |rounds| - 1;
      forall i | 0 <= i < n ensures RoundFollows(start, batches, mirrors, network, before, rounds[..n], i) {
        assert RoundFollows(start, batches, mirrors, network, before, rounds, i);
      }
      RoundsClassed(start, batches, mirrors, network, before, rounds[..n]);
      assert RoundFollows(start, batches, mirrors, network, before, rounds, n);
      ChainClassed(batches[n], mirrors, rounds[n].did, rounds[n].atts, n + 1);
      BothClassed(AttemptsIn(rounds[..n]), Tagged(n + 1, rounds[n].atts));
    }
  }

  lemma NothingClassed()
    ensures Classed([])
  {
  }

  lemma BothClassed(a: seq<BatchAttempt>, b: seq<BatchAttempt>)
    requires Classed(a) && Classed(b)
    ensures Classed(a + b)
  {
  }

  /** An acquisition raises an interrupt as it came, or a plain error of its own. */
  lemma JourneyRaises(dir: string, j: Journey, e: Error)
    requires JourneyError(dir, j, e)
    ensures !e.kind.Process?
  {
    hide FailsWith, MissingText;
  }

  lemma JourneyClassed(w: World, r: Report, candidates: seq<Mirror>, before: Entries, j: Journey, end: Result<set<string>, Stop>)
    requires Acquiring(w, r, candidates, before, j, end)
    ensures EndsInFailedAttempt(r.cache.attempts) ==> ObservedClass(r, Acquisition).Some?
  {
    hide AuditOf, Fresh, Reconciles, IsPlan, AnchorFirst, Replay, SuffixFree, NetworkKeeps, AllMatch, RoundsEnd, RoundFollows, AttemptsIn;
    RoundsClassed(j.start, j.batches, j.mirrors, w.network, j.audited, j.rounds);
  }

  /** Exactly when the cause of a stopped run agrees with its evidence: after a failed attempt, if that was interrupted,
      or the texts of the whole chain say nothing of a cause, or one the class of the attempt allows; elsewhere, unless
      all that the texts say is that an attempt left files incomplete. */
  lemma RunAgreesExactly(w: World, before: Entries, now: Entries, r: Report, s: Substage, e: Error)
    requires Blames(r, s, e) && StoppedAt(w, before, now, r, s, e)
    ensures var text := CauseText(e, ObservedDetail(r, s));
      CauseAgrees(r) <==>
        if !s.Acquisition? then e.kind.Interrupting? || SpokenCause(text, s).Some? || !Contains(text, WITHOUT_VALID)
        else if EndsInFailedAttempt(r.cache.attempts) then
          (var c := ObservedClass(r, s);
           c.Some? && if e.kind.Interrupting? || c.value.Interrupted? then c.value.Interrupted?
                      else Spoken(text).None? || CauseFitsClass(Spoken(text).value, c.value))
        else true
  {
    hide CauseAgrees, Blames, Contains, Spoken, SpokenCause, CauseFitsClass, CauseText, Acquiring, JourneyError, FinishStopped,
         ObservedClass, EndsInFailedAttempt, Synchronised, ResolvedAs, ObservedDetail;
    if s.Acquisition? {
      var candidates, j, stop :| Prepared(w, before, r, candidates, j, Failure(stop)) && JourneyError(w.cachePath, j, e) && now == j.fetched;
      JourneyRaises(w.cachePath, j, e);
      JourneyClassed(w, r, candidates, before, j, Failure(stop));
      StopAgreesExactly(r, e);
    } else {
      OtherAgreesExactly(r, s, e);
    }
  }

  // ---- when the detail says something ----

  /** The beginning of the text says something, or a failed process gives its exit code. */
  predicate SpeaksUp(e: Error) { e.kind.Process? || !Blank(Head(e.text, ATTEMPT_TEXT_LIMIT)) }

  /** No command, probe or fetch raises an error without a word. */
  ghost predicate Outspoken(w: World) {
    && (forall c :: w.errors(c).Some? ==> !Silent(w.errors(c).value, CHAIN_LIMIT))
    && (forall k :: w.answer(k).Broken? ==> !Silent(w.answer(k).error, CHAIN_LIMIT))
    && OutspokenNetwork(w.network)
  }

  ghost predicate OutspokenNetwork(network: Network) {
    forall n: nat, m: Mirror, requested: seq<Package>, e: Entries ::
      network(n, m, requested, e).raised.Raising? ==> SpeaksUp(network(n, m, requested, e).raised.error)
  }

  /** An error that begins with words of the closure code. */
  lemma WordsSay(e: Error, words: string, rest: string)
    requires e.text == words + rest && Ends(words)
    ensures !Silent(e, CHAIN_LIMIT)
  {
    hide Silent, Blank;
    EndsNotBlank(words);
    WordsAround(words, rest);
    PlainSays(e);
  }

  lemma MirrorlistSays(p: MirrorError)
    ensures !Silent(ListText(p), CHAIN_LIMIT)
  {
    hide Silent, Decimal;
    if p.MissingPlaceholders? {
      var words := "active HTTPS Artix mirror lacks $repo/$arch placeholders at line";
      assert Ends(words);
      assert ListText(p).text == words + (" " + Decimal(p.line));
      WordsSay(ListText(p), words, " " + Decimal(p.line));
    } else {
      assert Ends(ListText(p).text);
      WordsSay(ListText(p), ListText(p).text, "");
    }
  }

  lemma RowSays(reading: Reading, p: RowError)
    ensures !Silent(RowText(reading, p), CHAIN_LIMIT)
  {
    hide Silent, GoodRow, Joined, ComplaintOf, IsSha256, IsTargetName;
    var text := RowText(reading, p).text;
    if p.EmptyClosure? {
      assert Ends(text);
      WordsSay(RowText(reading, p), text, "");
    } else {
      ComplaintEnds(reading, p.row);
      var words := ComplaintOf(reading, p.row);
      assert text == words + text[|words|..];
      WordsSay(RowText(reading, p), words, text[|words|..]);
    }
  }

  lemma ComplaintEnds(reading: Reading, row: Row)
    ensures Ends(ComplaintOf(reading, row))
  {
    hide IsSha256, IsTargetName;
  }

  lemma RepeatSays(n: string)
    ensures !Silent(LedgerText(DuplicateFilename(n)), CHAIN_LIMIT)
  {
    hide Silent;
    var words := "duplicate package filename in progress closure:";
    assert Ends(words) && LedgerText(DuplicateFilename(n)).text == words + (" " + n);
    WordsSay(LedgerText(DuplicateFilename(n)), words, " " + n);
  }

  lemma OmissionSays(names: string)
    ensures !Silent(Plain(OMITTED + names), CHAIN_LIMIT)
  {
    hide Silent;
    var words := "package closure omitted explicit targets:";
    assert Ends(words) && OMITTED + names == words + (" " + names);
    WordsSay(Plain(OMITTED + names), words, " " + names);
  }

  lemma CacheSays(dir: string, h: CacheError)
    ensures !Silent(CacheText(dir, h), CHAIN_LIMIT)
  {
    hide Silent;
    var text := CacheText(dir, h).text;
    var words := match h
      case DuplicateName(_) => "duplicate package filename in frozen closure:"
      case SpecialEntry(_, _) => "unexpected directory or special entry at"
      case IsDirectory(_) => "[Errno 21] Is a directory:";
    assert Ends(words) && words <= text;
    WordsSay(CacheText(dir, h), words, text[|words|..]);
  }

  lemma UnmatchedSays(ps: seq<Package>, entries: Entries, e: Error)
    requires Unmatched(ps, entries, e)
    ensures !Silent(e, CHAIN_LIMIT)
  {
    hide Silent, Verified;
    ArchiveProblem(entries, ps);
    var p := FirstUnverified(entries, ps).value;
    var words := if p.FileMissing? then "prefetched package file is missing:" else "prefetched package SHA-256 mismatch for";
    assert Ends(words) && words <= e.text;
    WordsSay(e, words, e.text[|words|..]);
  }

  lemma {:induction false} ArchiveProblem(entries: Entries, ps: seq<Package>)
    ensures FirstUnverified(entries, ps).Some? ==>
      FirstUnverified(entries, ps).value.FileMissing? || FirstUnverified(entries, ps).value.FileMismatch?
  {
    if ps != [] { ArchiveProblem(entries, ps[1..]); }
  }

  lemma ConstantsSay()
    ensures !Silent(Plain(DIFFERENT), CHAIN_LIMIT) && !Silent(Plain(UNLOCKED_CONFIG), CHAIN_LIMIT) && !Silent(Plain(NO_ANCHOR), CHAIN_LIMIT)
  {
    hide Silent;
    assert Ends(DIFFERENT) && Ends(UNLOCKED_CONFIG) && Ends(NO_ANCHOR);
    WordsSay(Plain(DIFFERENT), DIFFERENT, "");
    WordsSay(Plain(UNLOCKED_CONFIG), UNLOCKED_CONFIG, "");
    WordsSay(Plain(NO_ANCHOR), NO_ANCHOR, "");
  }

  /** What a stopped acquisition raises says something, unless it is an interrupt. */
  lemma JourneySays(dir: string, j: Journey, e: Error)
    requires JourneyError(dir, j, e) && !e.kind.Interrupting?
    ensures !Silent(e, CHAIN_LIMIT)
  {
    hide Silent, FailsWith, Decimal, Joined;
    var words := "package prefetch batch";
    assert Ends(words) && words <= e.text;
    WordsSay(e, words, e.text[|words|..]);
  }

  // ---- details of attempts and probes ----

  /** Every attempt that did not pass has a detail that says something. */
  ghost predicate Detailed(attempts: seq<BatchAttempt>) {
    forall ba :: ba in attempts && !ba.attempt.passed ==> ba.attempt.detail.Some? && DetailAllowed(ba.attempt.detail.value)
  }

  lemma ChainDetailed(network: Network, first: nat, batch: seq<Package>, mirrors: seq<Mirror>, did: seq<Step>, seen: seq<Step>,
                      atts: seq<Attempt>, b: nat)
    requires Chain(batch, mirrors, did, atts) && AnsweredBy(network, first, mirrors, seen) && did <= seen && OutspokenNetwork(network)
    ensures Detailed(Tagged(b, atts))
  {
    hide CleanedUp, StillPending, Follows, AttemptDetail, Blank, SpeaksUp, ListsSet, Removed, IsSorted, AcquisitionClass, VerifiedNames;
    forall ba | ba in Tagged(b, atts) && !ba.attempt.passed ensures ba.attempt.detail.Some? && DetailAllowed(ba.attempt.detail.value) {
      var k :| 0 <= k < |atts| && ba == BatchAttempt(b, atts[k]);
      assert Linked(batch, mirrors, did, atts, k);
      var st := did[k];
      assert Fetched(seen[k].fetched, seen[k].raised) == network(first + k, mirrors[k], seen[k].requested, seen[k].before);
      AttemptSays(st, atts[k]);
    }
  }

  lemma AttemptSays(st: Step, a: Attempt)
    requires a.detail == AttemptDetail(st.raised.Caught(), StillPending(st) != {})
    requires a.passed == (st.raised.Clean? && StillPending(st) == {}) && !a.passed
    requires st.raised.Raising? ==> SpeaksUp(st.raised.error)
    ensures a.detail.Some? && DetailAllowed(a.detail.value)
  {
    hide StillPending, AttemptDetail, Blank;
    AttemptDetailSays(st.raised.Caught(), StillPending(st) != {});
  }

  lemma {:induction false} RoundsDetailed(start: seq<Record>, batches: seq<seq<Package>>, mirrors: seq<Mirror>, network: Network,
                                          before: Entries, rounds: seq<Round>)
    requires OutspokenNetwork(network)
    requires |rounds| <= |batches| && forall i :: 0 <= i < |rounds| ==> RoundFollows(start, batches, mirrors, network, before, rounds, i)
    ensures Detailed(AttemptsIn(rounds))
  {
    hide AllAcceptable, Acceptable, Chain, Detailed, Tagged, AnsweredBy, Began, Unrecorded, Uninterrupted, OutspokenNetwork;
    if rounds == [] {
      assert Detailed([]) by { NothingDetailed(); }
    } else {
      var n := |rounds| - 1;
      forall i | 0 <= i < n ensures RoundFollows(start, batches, mirrors, network, before, rounds[..n], i) {
        assert RoundFollows(start, batches, mirrors, network, before, rounds, i);
      }
      RoundsDetailed(start, batches, mirrors, network, before, rounds[..n]);
      assert RoundFollows(start, batches, mirrors, network, before, rounds, n);
      var rd := rounds[n];
      assert rd.did <= rd.seen;
      ChainDetailed(network, rd.first, batches[n], mirrors, rd.did, rd.seen, rd.atts, n + 1);
      BothDetailed(AttemptsIn(rounds[..n]), Tagged(n + 1, rd.atts));
    }
  }

  lemma NothingDetailed()
    ensures Detailed([])
  {
  }

  lemma BothDetailed(a: seq<BatchAttempt>, b: seq<BatchAttempt>)
    requires Detailed(a) && Detailed(b)
    ensures Detailed(a + b)
  {
    hide DetailAllowed;
  }

  lemma JourneyDetailed(w: World, r: Report, candidates: seq<Mirror>, before: Entries, j: Journey, end: Result<set<string>, Stop>)
    requires Acquiring(w, r, candidates, before, j, end) && OutspokenNetwork(w.network)
    ensures EndsInFailedAttempt(r.cache.attempts) ==>
      ObservedDetail(r, Acquisition).Some? && DetailAllowed(ObservedDetail(r, Acquisition).value)
  {
    hide AuditOf, Fresh, Reconciles, IsPlan, AnchorFirst, Replay, SuffixFree, NetworkKeeps, AllMatch, RoundsEnd, RoundFollows, AttemptsIn,
         DetailAllowed, OutspokenNetwork;
    RoundsDetailed(j.start, j.batches, j.mirrors, w.network, j.audited, j.rounds);
  }

  /** A refused probe leaves a detail that says something. */
  lemma ProbeSays(w: World, m: Mirror, a: Answer)
    requires !a.Broken? && !a.Serves? && (a.Lacks? ==> SomeRepositories(a.databases))
    ensures ProbeOf(m, a).detail.Some? && !Blank(Tail(ProbeOf(m, a).detail.value, DETAIL_LIMIT))
  {
    hide Concise, Blank, Joined, Tail, Ends;
    if a.Refused? {
      ConciseSays(a.failed);
      WholeTail(Concise(a.failed), DETAIL_LIMIT);
    } else {
      forall n | n in a.databases ensures Ends(n) { RepositoryEnds(n); }
      JoinedEnds(a.databases, ", ");
      WordsAround(LACKS, Joined(a.databases, ", "));
      TailEnds(LACKS + Joined(a.databases, ", "), DETAIL_LIMIT);
    }
  }

  lemma WholeTail(s: string, n: nat)
    requires |s| <= n
    ensures Tail(s, n) == s
  {
  }

  lemma RepositoryEnds(n: string)
    requires n in FROZEN_REPOSITORIES
    ensures Ends(n)
  {
  }

  lemma SyncDetailed(w: World, a: Anchor, candidates: seq<Mirror>, e: Error)
    requires Sane(w) && SyncFailed(w, a, candidates, e) && EndsInFailedProbe(a)
    ensures var d := a.attempts[|a.attempts| - 1].detail; d.Some? && !Blank(Tail(d.value, DETAIL_LIMIT))
  {
    hide Candidates, Unlistable, Concise, Joined, Blank, Tail, ProbeOf, IsSha256, Hexadecimal, SomeRepositories;
    var k := |a.attempts| - 1;
    assert a.attempts[k] == ProbeOf(candidates[k], w.answer(k));
    assert !w.answer(k).Serves? by { ServesPasses(candidates[k]); }
    ProbeSays(w, candidates[k], w.answer(k));
  }

  lemma ServesPasses(m: Mirror)
    ensures ProbeOf(m, Serves).passed
  {
  }

  // ---- the report of an outspoken world says what failed ----

  lemma ResolutionSays(w: World, ps: seq<Package>, e: Error)
    requires Outspoken(w) && ResolutionFailed(w, ps, e)
    ensures !Silent(e, CHAIN_LIMIT)
  {
    hide Silent, OutspokenNetwork, RowText, RowProblem, Omitted, ResolvedAs, ParsedAs, AllGood, DistinctNames, LedgerText, FirstRepeat,
         Sort, Joined;
    if ps != [] {
      RepeatSays(RepeatError(ps).value.name);
    } else if !w.raises(ResolveNetwork) {
      if RowProblem(w.reading, w.rows).Some? { RowSays(w.reading, RowProblem(w.reading, w.rows).value); }
      if parsed :| ParsedAs(w, parsed) && e == Plain(OMITTED + Joined(Omitted(w.targets, parsed), ", ")) {
        OmissionSays(Joined(Omitted(w.targets, parsed), ", "));
      }
    }
  }

  lemma FinishSays(w: World, ps: seq<Package>, passed: bool, s: Substage, after: Entries, now: Entries, e: Error)
    requires Outspoken(w) && FinishFailed(w, ps, passed, s, after, now, e)
    ensures !Silent(e, CHAIN_LIMIT)
  {
    hide Silent, OutspokenNetwork, RowText, RowProblem, AllGood, AllMatch, LocallyValid, Built, ResolvesAlike, Unmatched;
    ConstantsSay();
    forall entries | Unmatched(ps, entries, e) ensures !Silent(e, CHAIN_LIMIT) { UnmatchedSays(ps, entries, e); }
    if RowProblem(w.reading, w.localRows).Some? { RowSays(w.reading, RowProblem(w.reading, w.localRows).value); }
  }

  lemma SyncSays(w: World, a: Anchor, candidates: seq<Mirror>, e: Error)
    requires Outspoken(w) && SyncFailed(w, a, candidates, e)
    ensures !Silent(e, CHAIN_LIMIT)
  {
    hide Silent, OutspokenNetwork, Offers, Probed;
    ConstantsSay();
  }

  lemma ListSays(w: World, e: Error)
    requires Outspoken(w) && ListFailed(w, e)
    ensures !Silent(e, CHAIN_LIMIT)
  {
    hide Silent, OutspokenNetwork, Unlistable, ListProblem, ListText;
    if !w.raises(ReadMirrorlist) { MirrorlistSays(ListProblem(w.lines).value); }
  }

  /** Without errors that say nothing, every failed run tells what failed. */
  lemma OutspokenTold(w: World, before: Entries, now: Entries, r: Report)
    requires Sane(w) && Outspoken(w) && Went(w, before, now, r) && r.failure.Some?
    ensures Told(r)
  {
    hide Sane, Outspoken, Blames, Silent, Blank, Tail, StoppedAt, Told;
    var s := r.failure.value.substage;
    var e :| Blames(r, s, e) && StoppedAt(w, before, now, r, s, e);
    ToldExactly(r, s, e);
    StageTold(w, before, now, r, s, e);
  }

  lemma StageTold(w: World, before: Entries, now: Entries, r: Report, s: Substage, e: Error)
    requires Sane(w) && Outspoken(w) && StoppedAt(w, before, now, r, s, e)
    ensures var observed := ObservedDetail(r, s);
      if OrEmpty(observed) != "" then !Blank(Tail(observed.value, DETAIL_LIMIT)) else !Silent(e, CHAIN_LIMIT)
  {
    hide Sane, Outspoken, Silent, Blank, Tail, ListFailed, SyncFailed, ResolutionFailed, AuditOf, CacheText, Synchronised, ResolvedAs,
         FinishFailed, Prepared, JourneyError, Fresh, EndsInFailedProbe, EndsInFailedAttempt, SummaryOf, Diagnosed;
    match s {
      case MirrorSelection => ListSays(w, e);
      case RepositorySync =>
        var candidates :| SyncFailed(w, r.anchor, candidates, e);
        SyncSays(w, r.anchor, candidates, e);
        if EndsInFailedProbe(r.anchor) { SyncDetailed(w, r.anchor, candidates, e); }
      case Resolution => ResolutionSays(w, r.packages, e);
      case Acquisition =>
        var candidates, j, stop :| Prepared(w, before, r, candidates, j, Failure(stop)) && JourneyError(w.cachePath, j, e) && now == j.fetched;
        StopTold(w, before, r, candidates, j, stop, e);
      case LocalValidationStage => FinishStoppedSays(w, before, now, r, s, e);
      case CacheVerification =>
        if r.cache.audit.None? {
          var halt :| AuditOf(before, now, r.packages, Failure(halt)) && e == CacheText(w.cachePath, halt);
          CacheSays(w.cachePath, halt);
        } else {
          FinishStoppedSays(w, before, now, r, s, e);
        }
    }
  }

  lemma FinishStoppedSays(w: World, before: Entries, now: Entries, r: Report, s: Substage, e: Error)
    requires Outspoken(w) && FinishStopped(w, before, now, r, s, e)
    ensures !Silent(e, CHAIN_LIMIT)
  {
    hide Outspoken, Silent, Prepared, FinishFailed;
    var candidates, j, found :|
      Prepared(w, before, r, candidates, j, Success(found)) && FinishFailed(w, r.packages, r.passed, s, j.fetched, now, e);
    FinishSays(w, r.packages, r.passed, s, j.fetched, now, e);
  }

  lemma StopTold(w: World, before: Entries, r: Report, candidates: seq<Mirror>, j: Journey, stop: Stop, e: Error)
    requires Outspoken(w) && Prepared(w, before, r, candidates, j, Failure(stop)) && JourneyError(w.cachePath, j, e)
    ensures var observed := ObservedDetail(r, Acquisition);
      if OrEmpty(observed) != "" then !Blank(Tail(observed.value, DETAIL_LIMIT)) else !Silent(e, CHAIN_LIMIT)
  {
    hide Silent, Blank, Acquiring, JourneyError, Synchronised, ResolvedAs, EndsInFailedAttempt, OutspokenNetwork;
    JourneyDetailed(w, r, candidates, before, j, Failure(stop));
    if EndsInFailedAttempt(r.cache.attempts) {
      WholeTail(ObservedDetail(r, Acquisition).value, DETAIL_LIMIT);
      BlankNothing();
    } else {
      if e.kind.Interrupting? { JourneyInterrupted(w, r, candidates, before, j, Failure(stop), e); }
      JourneySays(w.cachePath, j, e);
    }
  }

  lemma BlankNothing()
    ensures Blank("")
  {
  }
}
