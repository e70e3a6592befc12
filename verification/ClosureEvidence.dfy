/** From the state of a finished or stopped run to what the outer validator says of its report. */
module ClosureEvidence {
  import opened Results
  import opened Errors
  import opened Diagnosis
  import opened Ordering
  import opened Packages
  import opened PackageCache
  import opened CacheAuditing
  import opened ProgressLedger
  import opened BatchPlan
  import opened Mirrors
  import opened ClosureReport
  import opened Acquisition
  import opened AcquisitionEvidence
  import opened LedgerTotals
  import opened RunEvidence
  import opened ClosureRun
  import opened PrefetchRun
  import opened ClosureStart

  // ---- failed reports ----

  /** The context a failing run records: where the terminal attempt or probe failed. */
  function ObservedContext(r: Report, s: Substage): Context {
    match s
    case Acquisition =>
      if r.cache.attempts != [] && !r.cache.attempts[|r.cache.attempts| - 1].attempt.passed then
        var last := r.cache.attempts[|r.cache.attempts| - 1];
        Context(Some(last.batch), Some(last.attempt.number), Some(last.attempt.mirror.server), None)
      else NO_CONTEXT
    case RepositorySync =>
      if r.anchor.status.AnchorFailed? && r.anchor.attempts != [] && !r.anchor.attempts[|r.anchor.attempts| - 1].passed then
        var last := r.anchor.attempts[|r.anchor.attempts| - 1];
        Context(None, Some(|r.anchor.attempts|), Some(last.mirror.server), Some(last.mirror.line))
      else NO_CONTEXT
    case _ => NO_CONTEXT
  }

  /** The detail of the terminal attempt or probe, if that failed. */
  function ObservedDetail(r: Report, s: Substage): Option<string> {
    match s
    case Acquisition =>
      if EndsInFailedAttempt(r.cache.attempts) then r.cache.attempts[|r.cache.attempts| - 1].attempt.detail else None
    case RepositorySync => if EndsInFailedProbe(r.anchor) then r.anchor.attempts[|r.anchor.attempts| - 1].detail else None
    case _ => None
  }

  /** The failure class of the terminal attempt, if that failed. */
  function ObservedClass(r: Report, s: Substage): Option<FailureClass> {
    if s.Acquisition? && EndsInFailedAttempt(r.cache.attempts)
    then r.cache.attempts[|r.cache.attempts| - 1].attempt.failureClass
    else None
  }

  /** classify_repository_closure_failure: the diagnosis of the error that ended stage s. */
  function Diagnosed(r: Report, s: Substage, e: Error): (f: FailureEvidence)
    ensures f.substage == s
  {
    FailureEvidence(s, CauseOf(s, e, ObservedDetail(r, s), ObservedClass(r, s)), DetailOf(e, ObservedDetail(r, s)), ObservedContext(r, s))
  }

  /** The report as the exception handler leaves it: the status is not touched. */
  function FailedReport(e: Report, s: Substage, error: Error): Report {
    e.(failure := Some(Diagnosed(e, s, error)), summary := SummaryOf(e.progress))
  }

  /** The failure is the diagnosis of this error. */
  ghost predicate Blames(r: Report, s: Substage, e: Error) { r.failure == Some(Diagnosed(r, s, e)) }

  /** The report says in words what failed. */
  predicate Told(r: Report) { r.failure.Some? && !Blank(r.failure.value.detail) }

  /** The probes were made at usable mirrors. */
  ghost predicate ProbesUsable(a: Anchor) { forall k :: 0 <= k < |a.attempts| ==> Usable(a.attempts[k].mirror) }

  /** The cause the run reports is one the validator allows at this stage and for this attempt. */
  predicate CauseAgrees(r: Report) { r.failure.Some? && CauseFits(r, r.failure.value) }

  /** Totals and attempts of a failed report add up. */
  ghost predicate Accounted(e: Report) {
    && (e.cache.prefetchRecorded || e.cache.attempts != [] ==> TotalsAgree(e.cache, SummaryOf(e.progress)))
    && AttemptsAccounted(e.packages, e.progress, e.cache.attempts)
  }

  /** A failed report is accepted exactly when its cause agrees, its detail says something, and ledger and
      accounting add up. */
  lemma FailedAccepted(e: Report, s: Substage, error: Error)
    requires !e.passed && ProbesUsable(e.anchor)
    ensures var r := FailedReport(e, s, error);
      Accepted(r) <==> CauseAgrees(r) && Told(r) && ProgressAccepted(e.packages, e.progress, r.summary) && Accounted(e)
  {
    hide ProgressAccepted, AttemptsAccounted, TotalsAgree, CauseFitsStage, CauseFitsClass, CauseOf, DetailOf, Blank, SummaryOf, Usable;
    DetailSaysExactly(error, ObservedDetail(e, s));
    if Accounted(e) { ContextHolds(e, s); }
  }

  /** Attempts that are accounted for and probes at usable mirrors give a context the validator allows. */
  lemma ContextHolds(e: Report, s: Substage)
    requires ProbesUsable(e.anchor) && AttemptsAccounted(e.packages, e.progress, e.cache.attempts)
    ensures ContextAllowed(ObservedContext(e, s))
  {
    hide LatestWins, Numbered, Partitions, CountsAndBytes;
    if s.Acquisition? && EndsInFailedAttempt(e.cache.attempts) {
      assert AttemptAccounted(e.cache.attempts[|e.cache.attempts| - 1], e.packages);
    }
  }

  /** What it takes for the detail to say something. */
  lemma ToldExactly(r: Report, s: Substage, e: Error)
    requires Blames(r, s, e)
    ensures var observed := ObservedDetail(r, s);
      Told(r) <==> if OrEmpty(observed) != "" then !Blank(Tail(observed.value, DETAIL_LIMIT)) else !Silent(e, CHAIN_LIMIT)
  {
    hide Blank, Silent, DetailOf;
    DetailSaysExactly(e, ObservedDetail(r, s));
  }

  /** A run that stopped in acquisition: its cause agrees exactly when no attempt failed last, or that one was
      interrupted, or the texts say nothing of a cause, or they say one the class of that attempt allows. */
  lemma StopAgreesExactly(r: Report, e: Error)
    requires Blames(r, Acquisition, e) && !e.kind.Process?
    requires EndsInFailedAttempt(r.cache.attempts) ==> ObservedClass(r, Acquisition).Some?
    ensures var text := CauseText(e, ObservedDetail(r, Acquisition));
      CauseAgrees(r) <==>
        || !EndsInFailedAttempt(r.cache.attempts)
        || (var c := ObservedClass(r, Acquisition).value;
            if e.kind.Interrupting? || c.Interrupted? then c.Interrupted?
            else Spoken(text).None? || CauseFitsClass(Spoken(text).value, c))
  {
    hide CauseOf, CauseFitsStage, CauseFitsClass, Spoken, DetailOf, CauseText;
    FitsAcquisition(e, ObservedDetail(r, Acquisition), ObservedClass(r, Acquisition));
    if EndsInFailedAttempt(r.cache.attempts) {
      AgreesExactly(e, ObservedDetail(r, Acquisition), ObservedClass(r, Acquisition).value);
    }
  }

  /** A run that stopped elsewhere: its cause agrees unless all that the texts say is that an attempt left files
      incomplete. */
  lemma OtherAgreesExactly(r: Report, s: Substage, e: Error)
    requires Blames(r, s, e) && !s.Acquisition?
    ensures var text := CauseText(e, ObservedDetail(r, s));
      CauseAgrees(r) <==> e.kind.Interrupting? || SpokenCause(text, s).Some? || !Contains(text, WITHOUT_VALID)
  {
    hide CauseOf, CauseFitsStage, SpokenCause, DetailOf, CauseText;
    FitsStageExactly(s, e, ObservedDetail(r, s));
  }

  /** An interrupt agrees with its evidence wherever it comes. */
  lemma InterruptAgrees(r: Report, s: Substage, e: Error)
    requires Blames(r, s, e) && r.failure.value.cause.InterruptedCause?
    requires e.kind.Interrupting? && s.Acquisition? && EndsInFailedAttempt(r.cache.attempts) ==>
      ObservedClass(r, s) == Some(Interrupted)
    ensures CauseAgrees(r)
  {
    hide DetailOf, CauseText, SpokenCause;
    if s.Acquisition? && EndsInFailedAttempt(r.cache.attempts) { CauseIsInterrupt(s, e, ObservedDetail(r, s), ObservedClass(r, s)); }
  }

  lemma CauseIsInterrupt(s: Substage, e: Error, observed: Option<string>, source: Option<FailureClass>)
    requires CauseOf(s, e, observed, source).InterruptedCause?
    ensures e.kind.Interrupting? || source == Some(Interrupted)
  {
    hide CauseText, Contains, HasAny;
  }

  /** Before anything is fetched there is nothing to account for. */
  lemma NothingFetched(e: Report)
    requires !e.cache.prefetchRecorded && e.cache.attempts == []
    ensures Accounted(e)
  {
    forall b ensures Numbered(OfBatch(e.cache.attempts, b)) {
    }
  }

  lemma NoPackages(e: Report)
    requires e.packages == [] && e.progress == []
    ensures ProgressAccepted(e.packages, e.progress, SummaryOf(e.progress))
  {
  }

  lemma LedgerAccepted(ps: seq<Package>, rs: seq<Record>)
    requires NamedOnce(ps) && Healthy(rs) && Covers(rs, ps)
    ensures ProgressAccepted(ps, rs, SummaryOf(rs))
  {
    hide FlagsMatch, DataMatches, SummaryOf;
    forall r | r in rs ensures RecordAccepted(r, ps) {
    }
  }

  /** Names that repeat, or that are empty, can never be accepted. */
  lemma NamesRefused(r: Report)
    requires !NamedOnce(r.packages)
    ensures !Accepted(r)
  {
  }

  /** Sound attempts replayed on the starting ledger pass the failed-run accounting. */
  lemma SoundAccounted(ps: seq<Package>, start: seq<Record>, attempts: seq<BatchAttempt>, count: nat, mirrors: seq<Mirror>)
    requires Healthy(start) && Sound(ps, start, attempts, count, mirrors)
    ensures AttemptsAccounted(ps, Replay(start, attempts), attempts)
  {
    hide Healthy, AttemptAccepted, AttemptAccounted, Acceptable, LatestWins, Numbered;
    ReplayShowsLatest(start, attempts);
  }

  lemma UnaccountedAttempt(e: Report)
    requires e.cache.attempts != [] && !AttemptAccounted(e.cache.attempts[|e.cache.attempts| - 1], e.packages)
    ensures !Accounted(e)
  {
  }

  // ---- the passing report ----

  function CachedBefore(ps: seq<Package>, reused: set<string>): seq<bool> {
    seq(|ps|, i requires 0 <= i < |ps| => ps[i].filename in reused)
  }

  lemma HeadedAllowed(before: Entries, after: Entries, ps: seq<Package>, a: CacheAudit)
    requires Audited(before, after, ps, a)
    ensures AllFrom(a.corruptRemoved, ArchivesAndSignatures(ps))
    ensures AllFrom(a.partialRemoved, Partials(ps))
    ensures AllFrom(a.detachedRemoved, Signatures(ps))
  {
    hide ScopeOnly, Settled, Split, Shrunk;
    HeadingsDistinct(a.corruptRemoved, a.partialRemoved, a.detachedRemoved);
    forall n | n in a.corruptRemoved ensures n in ArchivesAndSignatures(ps) {
      var p :| p in ps && (n == p.filename || n == Sig(p.filename));
    }
    forall n | n in a.partialRemoved ensures n in Partials(ps) {
      var p :| p in ps && (n == Part(p.filename) || n == SigPart(p.filename));
    }
    forall n | n in a.detachedRemoved ensures n in Signatures(ps) {
      var p :| p in ps && n == Sig(p.filename);
    }
  }

  lemma HeadingsDistinct(a: seq<string>, b: seq<string>, c: seq<string>)
    requires NoDuplicates(a + b + c)
    ensures NoDuplicates(a) && NoDuplicates(b) && NoDuplicates(c)
  {
    var all := a + b + c;
    forall i, j | 0 <= i < j < |a| ensures a[i] != a[j] { assert all[i] != all[j]; }
    forall i, j | 0 <= i < j < |b| ensures b[i] != b[j] { assert all[|a| + i] != all[|a| + j]; }
    forall i, j | 0 <= i < j < |c| ensures c[i] != c[j] { assert all[|a| + |b| + i] != all[|a| + |b| + j]; }
  }

  lemma AuditMeetsValidator(before: Entries, after: Entries, ps: seq<Package>, a: CacheAudit)
    requires Audited(before, after, ps, a) && DistinctNames(ps) && forall p :: p in ps ==> WellFormed(p)
    ensures AuditAccepted(ps, CachedBefore(ps, Members(a.reused)), |a.reused|, a)
  {
    hide WellFormed, DistinctNames, AllFrom, Audited, NoDuplicates, NameSet, Members, ReusableNames, Partials, Signatures,
         ArchivesAndSignatures;
    AuditSplits(before, after, ps, a);
    HeadedAllowed(before, after, ps, a);
    AuditLists(before, after, ps, a);
  }

  lemma AuditLists(before: Entries, after: Entries, ps: seq<Package>, a: CacheAudit)
    requires Audited(before, after, ps, a)
    ensures NoDuplicates(a.reused) && NoDuplicates(a.pending)
    ensures a.resolvedCount == |ps| && a.reusedCount == |a.reused| && a.pendingCount == |a.pending|
  {
  }

  lemma PlanMeetsValidator(ps: seq<Package>, pending: seq<string>, limit: nat, batches: seq<seq<Package>>, attempts: seq<BatchAttempt>)
    requires IsPlan(Sort(Select(ps, Members(pending)), ByIdentity), batches, limit) && Finished(attempts, batches, |batches|)
    ensures BatchesAccepted(ps, pending, limit, |batches|, attempts)
  {
    hide IsPlan, BatchAccepted;
  }

  /** A finished acquisition is what the validator wants to see of the prefetch. */
  lemma PrefetchMeetsValidator(ps: seq<Package>, start: seq<Record>, attempts: seq<BatchAttempt>, batches: seq<seq<Package>>,
                               mirrors: seq<Mirror>, pending: seq<string>, anchor: Mirror, c: CacheEvidence)
    requires Sound(ps, start, attempts, |batches|, mirrors) && Finished(attempts, batches, |batches|)
    requires IsPlan(Sort(Select(ps, Members(pending)), ByIdentity), batches, BATCH_LIMIT_BYTES)
    requires mirrors != [] && mirrors[0] == anchor && |mirrors| <= MAX_MIRROR_ATTEMPTS && Forward(mirrors)
    requires c.mirrorLimit == MAX_MIRROR_ATTEMPTS && c.batchLimit == BATCH_LIMIT_BYTES && c.mirrors == mirrors
    requires c.attempts == attempts && c.batchCount == c.completedBatches == |batches| && c.pendingCount == 0
    ensures PrefetchAccepted(ps, pending, Some(anchor), c)
  {
    hide AttemptAccepted, AttemptAccounted, IsPlan, Forward, Finished, Numbered, BatchesAccepted;
    PlanMeetsValidator(ps, pending, BATCH_LIMIT_BYTES, batches, attempts);
  }

  /** After the last batch every package counts as verified. */
  lemma CompleteLedger(ps: seq<Package>, start: seq<Record>, attempts: seq<BatchAttempt>, batches: seq<seq<Package>>,
                       mirrors: seq<Mirror>, reusedCount: nat, rs: seq<Record>)
    requires Underway(ps, start, attempts, batches, mirrors, |batches|, reusedCount) && rs == Replay(start, attempts)
    ensures Sound(ps, start, attempts, |batches|, mirrors) && Finished(attempts, batches, |batches|)
    ensures AllVerified(SummaryOf(rs), |ps|)
  {
    hide Healthy, Sound, Finished, Planned, DistinctNames, Forward, SummaryOf, NameSet, VerifiedSet, RecordNames;
    ReplayNames(ps, start, attempts);
    assert batches[..|batches|] == batches;
    TotalsAsSets(rs);
    NameCount(ps);
  }
}
