/** Preparing a repository closure from the mirrorlist to the gate in front of buildiso.  Whatever
    the mirrors, the network and the local tools do, the report is what the outer validator makes
    of it: the contract of PrepareRepositoryClosure says exactly when it is accepted. */
module ClosurePreparation {
  import opened Results
  import opened Errors
  import opened Diagnosis
  import opened Ordering
  import opened Packages
  import opened PackageCache
  import opened CacheAuditing
  import opened ProgressLedger
  import opened BatchPlan
  import opened Mirrors
  import opened ClosureReport
  import opened ResolvedRows
  import opened Acquisition
  import opened AcquisitionEvidence
  import opened LedgerTotals
  import opened RunEvidence
  import opened ClosureRun
  import opened PrefetchRun
  import opened ClosureStart
  import opened ClosureEvidence
  import opened SecurityGate
  import opened ClosureCourse

  // ---- anchor ----

  /** A failed stage and the error it raised. */
  datatype Failing = Failing(substage: Substage, error: Error)

  method SelectAnchor(w: World) returns (r: Result<seq<Mirror>, Failing>, a: Anchor)
    ensures r.Success? ==> Synchronised(w, a, r.value) && Forward(r.value) && AnchorAccepted(a) && a.selected.value in r.value
    ensures r.Failure? ==> r.error.substage.MirrorSelection? || r.error.substage.RepositorySync?
    ensures r.Failure? && r.error.substage.MirrorSelection? ==> ListFailed(w, r.error.error) && a == NoAnchor()
    ensures r.Failure? && r.error.substage.RepositorySync? ==> exists candidates :: SyncFailed(w, a, candidates, r.error.error)
    ensures ProbesUsable(a)
  {
    hide Forward, Candidates, Unlistable, Usable, ListProblem, ListText, BrokeOff;
    a := NoAnchor();
    if w.raises(ReadMirrorlist) { return Failure(Failing(MirrorSelection, w.errors(ReadMirrorlist).value)), a; }
    var parsed := ParseArtixMirrorServers(w.lines);
    if parsed.Failure? { return Failure(Failing(MirrorSelection, ListText(parsed.error))), a; }
    var candidates := parsed.value;
    CandidatesForward(w.lines, candidates);
    a := a.(candidateCount := |candidates|);
    if w.raises(ClaimDatabases) {
      assert SyncFailed(w, a, candidates, w.errors(ClaimDatabases).value);
      return Failure(Failing(RepositorySync, w.errors(ClaimDatabases).value)), a;
    }
    var selected, attempts := SelectFirstHealthyMirror(candidates, w.answer);
    if selected.Failure? {
      assert SyncFailed(w, a, candidates, selected.error);
      return Failure(Failing(RepositorySync, selected.error)), a;
    }
    a := a.(attempts := attempts);
    ProbedUsable(w.answer, candidates, attempts, selected.value);
    if selected.value.None? {
      a := a.(status := AnchorFailed);
      assert SyncFailed(w, a, candidates, Plain(NO_ANCHOR));
      return Failure(Failing(RepositorySync, Plain(NO_ANCHOR))), a;
    }
    a := a.(status := AnchorSelected, selected := selected.value);
    if w.raises(FreezeDatabases) {
      assert SyncFailed(w, a, candidates, w.errors(FreezeDatabases).value);
      return Failure(Failing(RepositorySync, w.errors(FreezeDatabases).value)), a;
    }
    a := a.(syncLocked := true);
    a := a.(status := AnchorPassed);
    ProbedAnchor(w.answer, candidates, attempts, selected.value);
    return Success(candidates), a;
  }

  lemma CandidatesForward(lines: seq<Line>, candidates: seq<Mirror>)
    requires Candidates(lines, candidates)
    ensures Forward(candidates)
  {
  }

  lemma ProbedUsable(answer: nat -> Answer, candidates: seq<Mirror>, attempts: seq<Probe>, selected: Option<Mirror>)
    requires Forward(candidates) && Probed(answer, candidates, attempts, selected)
    ensures forall k :: 0 <= k < |attempts| ==> attempts[k].mirror == candidates[k] && Usable(attempts[k].mirror)
  {
    hide Usable, Concise, Joined;
  }

  lemma ProbedAnchor(answer: nat -> Answer, candidates: seq<Mirror>, attempts: seq<Probe>, selected: Option<Mirror>)
    requires Forward(candidates) && Probed(answer, candidates, attempts, selected) && selected.Some?
    ensures selected.value in candidates && Usable(selected.value)
    ensures attempts[|attempts| - 1].mirror == selected.value
    ensures forall k :: 0 <= k < |attempts| ==> attempts[k].passed == (k == |attempts| - 1)
  {
    hide Usable, Concise, Joined;
    ProbedUsable(answer, candidates, attempts, selected);
  }

  // ---- resolution ----

  /** The closure is frozen and its ledger is fresh. */
  ghost predicate Frozen(e: Report) {
    && e.packages != [] && NamedOnce(e.packages) && Fresh(e.progress, e.packages)
    && (forall p :: p in e.packages ==> WellFormed(p)) && Ordered(e.packages)
  }

  lemma ParsedFrozen(reading: Reading, rows: seq<Row>, ps: seq<Package>)
    requires AllGood(reading, rows) && Firsts(reading, rows, ps) && IsSorted(ps, ByVersion)
    requires forall p :: p in ps ==> WellFormed(p)
    ensures Ordered(ps) && forall p :: p in ps ==> p.filename != ""
  {
  }

  method Resolve(w: World, start: Report) returns (r: Result<(), Error>, e: Report)
    requires Sane(w) && start.packages == [] && start.progress == []
    ensures e == start.(packages := e.packages, progress := e.progress, summary := e.summary)
    ensures r.Success? ==> Frozen(e) && ResolvedAs(w, e.packages)
    ensures r.Failure? ==> e.progress == [] && ResolutionFailed(w, e.packages, r.error)
  {
    hide DistinctNames, Tracks, Firsts, AllGood, WellFormed, IsSorted, DistinctVersions, SummaryOf, RowText, RowProblem, LedgerText,
         RepeatError, Joined, Omitted;
    e := start;
    if w.raises(ResolveNetwork) { return Failure(w.errors(ResolveNetwork).value), e; }
    var parsed := ParsePacmanPrintRows(w.reading, w.rows);
    if parsed.Failure? { return Failure(RowText(w.reading, parsed.error)), e; }
    var packages := parsed.value;
    assert ParsedAs(w, packages);
    var omitted := Omitted(w.targets, packages);
    if omitted != [] { return Failure(Plain(OMITTED + Joined(omitted, ", "))), e; }
    ParsedWellFormed(w.reading, w.rows, packages);
    ParsedFrozen(w.reading, w.rows, packages);
    e := e.(packages := packages);
    var progress := InitializePackageProgress(packages);
    if progress.Failure? { return Failure(LedgerText(progress.error)), e; }
    e := e.(progress := progress.value);
    var summary := SummarizePackageProgress(e.progress);
    return Success(()), e;
  }

  // ---- audit, plan and acquisition ----

  /** The audit evidence passes the outer validator. */
  ghost predicate AuditStands(ps: seq<Package>, a: CacheAudit) {
    AuditAccepted(ps, CachedBefore(ps, Members(a.reused)), a.reusedCount, a)
  }

  method AuditAndReconcile(cache: Cache, ps: seq<Package>, ledger: Ledger) returns (r: Result<CacheAudit, CacheError>)
    requires DistinctNames(ps) && Covers(ledger.records, ps) && forall p :: p in ps ==> WellFormed(p)
    modifies cache, ledger
    ensures r.Failure? ==> ledger.records == old(ledger.records)
    ensures r.Success? ==> Reconciles(ps, old(ledger.records), ledger.records, r.value) && AuditStands(ps, r.value)
    ensures r.Success? ==> Held(ps, ledger.records, cache.entries)
    ensures AuditOf(old(cache.entries), cache.entries, ps, r)
    ensures r.Success? ==> Clear(cache.entries, Select(ps, Members(r.value.pending)))
  {
    hide Audited, SuffixFree, DistinctNames, Settled, DecidedAtStart, WellFormed, AuditAccepted, Covers, AuditOutcome, Members,
         AuditHalt, Sort;
    r := AuditPersistentPackageCache(cache, ps);
    if r.Failure? { return; }
    AuditSucceeded(old(cache.entries), cache.entries, ps, r.value);
    AuditSplits(old(cache.entries), cache.entries, ps, r.value);
    AuditMeetsValidator(old(cache.entries), cache.entries, ps, r.value);
    CoversNames(ledger.records, ps);
    ReconciledSet(ledger.records, Members(r.value.reused), Members(r.value.corruptRemoved) * RecordNames(ledger.records));
    var reconciled := ledger.Reconcile(r.value.reused, r.value.pending, r.value.corruptRemoved);
    ReusedHeld(ps, ledger.records, cache.entries);
    PendingClear(old(cache.entries), cache.entries, ps, r.value);
  }

  /** The audit reuses only what matches. */
  lemma ReusedHeld(ps: seq<Package>, rs: seq<Record>, e: Entries)
    requires DistinctNames(ps) && VerifiedSet(rs) == ReusableNames(e, ps)
    ensures Held(ps, rs, e)
  {
    forall p | p in ps && p.filename in VerifiedSet(rs) ensures Verified(e, p) {
      var q :| q in ps && Reusable(e, q) && q.filename == p.filename;
      SameName(ps, p, q);
    }
  }

  /** The audit leaves no side entry beside an archive that is still to be fetched. */
  lemma PendingClear(before: Entries, after: Entries, ps: seq<Package>, a: CacheAudit)
    requires DistinctNames(ps) && Audited(before, after, ps, a)
    ensures Clear(after, Select(ps, Members(a.pending)))
  {
    hide DistinctNames, Headed, Removed, ScopeOnly, Swept, SideBlocked, Reusable;
    AuditSplits(before, after, ps, a);
    forall p | p in Select(ps, Members(a.pending)) ensures !SideBlocked(after, p) {
      assert p in ps && p.filename in Members(a.pending);
      assert p.filename !in ReusableNames(after, ps);
      SweptClear(after, p);
    }
  }

  lemma SweptClear(e: Entries, p: Package)
    requires Swept(e, p) == {} && !Reusable(e, p)
    ensures !SideBlocked(e, p)
  {
    SweptIsScope(e, p);
    assert Sig(p.filename) in Scope(e, p) && Part(p.filename) in Scope(e, p) && SigPart(p.filename) in Scope(e, p);
  }

  lemma AuditSucceeded(before: Entries, after: Entries, ps: seq<Package>, a: CacheAudit)
    requires AuditOutcome(before, after, ps, Success(a))
    ensures Audited(before, after, ps, a)
  {
  }

  /** A run about to fetch its first batch. */
  ghost predicate AtStart(run: Run, batches: seq<seq<Package>>, mirrors: seq<Mirror>)
    reads run, run.ledger
  {
    && run.Consistent() && Agrees(run) && run.summary == SummaryOf(run.ledger.records) && run.completedBatches == 0
    && run.attempts == [] && run.calls == 0
    && Underway(run.packages, run.start, run.attempts, batches, mirrors, 0, run.reusedCount)
  }

  method BeginRun(ps: seq<Package>, cache: Cache, ledger: Ledger, a: CacheAudit, batches: seq<seq<Package>>, mirrors: seq<Mirror>,
                  path: string, ghost initial: seq<Record>)
    returns (run: Run)
    requires NamedOnce(ps) && Healthy(initial) && Covers(initial, ps) && Reconciles(ps, initial, ledger.records, a)
    requires IsPlan(Sort(Select(ps, Members(a.pending)), ByIdentity), batches, BATCH_LIMIT_BYTES)
    requires Forward(mirrors) && |mirrors| <= MAX_MIRROR_ATTEMPTS
    ensures fresh(run) && run.packages == ps && run.cache == cache && run.ledger == ledger && run.path == path
    ensures run.start == ledger.records
    ensures AtStart(run, batches, mirrors) && Healthy(run.start) && Covers(run.start, ps) && run.reusedCount == a.reusedCount
  {
    hide NamedOnce, Healthy, Covers, IsPlan, Forward, Underway, CountsMatch, SummaryOf, Members, NameSet, VerifiedSet;
    AcceptedOnce(ps);
    StartUnderway(ps, initial, ledger.records, Members(a.reused), Members(a.pending),
                  Members(a.corruptRemoved) * RecordNames(initial), batches, BATCH_LIMIT_BYTES, mirrors, a.reusedCount);
    CoversNames(ledger.records, ps);
    CoveredSummarizable(ps, ledger.records);
    ReconciledCounts(ps, ledger.records, a);
    var summary := SummarizePackageProgress(ledger.records);
    run := new Run(ps, cache, ledger, path, a.reusedCount, a.pendingCount, summary.value);
  }

  lemma CoveredSummarizable(ps: seq<Package>, rs: seq<Record>)
    requires NamedOnce(ps) && Healthy(rs) && Covers(rs, ps)
    ensures Summarizable(rs)
  {
    hide FlagsMatch, DataMatches;
    forall r | r in rs ensures r.filename != "" {
      var p :| p in ps && SameIdentity(r, p);
    }
  }

  /** The first totals are the audit's. */
  lemma ReconciledCounts(ps: seq<Package>, start: seq<Record>, a: CacheAudit)
    requires Healthy(start) && RecordNames(start) == NameSet(ps) && VerifiedSet(start) == Members(a.reused)
    requires Members(a.reused) !! Members(a.pending) && Members(a.reused) + Members(a.pending) == NameSet(ps)
    requires |Members(a.reused)| == a.reusedCount && |Members(a.pending)| == a.pendingCount
    ensures CountsMatch(start, a.reusedCount, a.reusedCount, a.pendingCount, 0)
  {
    hide Healthy, SummaryOf, NameSet, VerifiedSet, Members;
    TotalsAsSets(start);
    Disjoint(Members(a.reused), Members(a.pending));
  }

  function CacheEvidenceOf(run: Run, a: CacheAudit, batches: seq<seq<Package>>, mirrors: seq<Mirror>): CacheEvidence
    reads run
  {
    CacheEvidence(Some(a), run.reusedCount, run.downloadedCount, run.verifiedCount, true, run.pendingCount,
                  BATCH_LIMIT_BYTES, |batches|, run.completedBatches, MAX_MIRROR_ATTEMPTS, mirrors, run.attempts,
                  false, false, false)
  }

  /** The evidence of a completed acquisition. */
  ghost predicate Acquired(e: Report, a: CacheAudit) {
    && e.cache.prefetchRecorded && TotalsAgree(e.cache, SummaryOf(e.progress)) && Accounted(e)
    && AllVerified(SummaryOf(e.progress), |e.packages|)
    && e.cache.audit == Some(a) && AuditStands(e.packages, a) && e.cache.reusedCount == a.reusedCount
    && PrefetchAccepted(e.packages, a.pending, e.anchor.selected, e.cache)
  }

  /** The evidence of stage s accounts for the run exactly when it adds up. */
  ghost predicate Halted(e: Report, now: Entries, s: Substage) { Accounted(e) <==> AddsUp(e, now, s) }

  /** The report shows the run as it stands. */
  ghost predicate ShowsRun(e: Report, run: Run, a: CacheAudit, batches: seq<seq<Package>>, mirrors: seq<Mirror>)
    reads run, run.ledger
  {
    && e.packages == run.packages && e.progress == run.ledger.records
    && e.cache == CacheEvidenceOf(run, a, batches, mirrors)
  }

  lemma RunHalted(e: Report, run: Run, a: CacheAudit, batches: seq<seq<Package>>, mirrors: seq<Mirror>, failing: nat,
                  seen: seq<Step>, stop: Stop)
    requires ShowsRun(e, run, a, batches, mirrors) && run.Consistent() && failing < |batches| && run.completedBatches == failing
    requires RoundDone(run, batches, mirrors, failing, failing + 1, Failure(stop), seen)
    requires IsPlan(Sort(Select(run.packages, Members(a.pending)), ByIdentity), batches, BATCH_LIMIT_BYTES)
    ensures Halted(e, run.cache.entries, Acquisition)
  {
    hide SummaryOf, SameCount, InStep, Healthy, Sound, NamedOnce, AttemptAccounted, KeptInStep, AllKeep, SuffixFree, AttemptsAccounted,
         Replay, CountedAlike, IsPlan, Partitions;
    if stop.AttemptRejected? {
      UnaccountedAttempt(e);
      assert e.cache.attempts[|e.cache.attempts| - 1] in e.cache.attempts;
    } else {
      SoundAccounted(run.packages, run.start, run.attempts, |batches|, mirrors);
      AccountedSplits(run.packages, run.ledger.records, e);
      StoppedBatchCounts(e, run.cache.entries, batches, failing);
    }
  }

  lemma AccountedSplits(ps: seq<Package>, rs: seq<Record>, e: Report)
    requires AttemptsAccounted(ps, rs, e.cache.attempts)
    ensures AllSplit(e)
  {
    hide Partitions, LatestWins, Numbered;
    forall ba | ba in e.cache.attempts ensures Partitions(ba.attempt) { assert AttemptAccounted(ba, ps); }
  }

  lemma RunFinished(e: Report, run: Run, a: CacheAudit, batches: seq<seq<Package>>, mirrors: seq<Mirror>, anchor: Mirror)
    requires ShowsRun(e, run, a, batches, mirrors) && run.Consistent() && Agrees(run) && run.completedBatches == |batches|
    requires Underway(run.packages, run.start, run.attempts, batches, mirrors, |batches|, run.reusedCount)
    requires IsPlan(Sort(Select(run.packages, Members(a.pending)), ByIdentity), batches, BATCH_LIMIT_BYTES)
    requires AuditStands(run.packages, a) && run.reusedCount == a.reusedCount
    requires mirrors != [] && mirrors[0] == anchor && e.anchor.selected == Some(anchor)
    ensures Acquired(e, a)
  {
    hide SummaryOf, Healthy, Sound, Finished, NamedOnce, AttemptAccounted, AttemptsAccounted, AuditAccepted, IsPlan, Forward,
         Replay, PrefetchAccepted, Planned, Divided, AtBatch;
    CompleteLedger(run.packages, run.start, run.attempts, batches, mirrors, run.reusedCount, run.ledger.records);
    SoundAccounted(run.packages, run.start, run.attempts, |batches|, mirrors);
    PrefetchMeetsValidator(run.packages, run.start, run.attempts, batches, mirrors, a.pending, anchor, e.cache);
  }

  /** The cache and the network as acquisition finds the report. */
  ghost predicate ReadyToAcquire(e: Report, candidates: seq<Mirror>) {
    && Frozen(e) && !e.cache.prefetchRecorded && e.cache.attempts == []
    && Forward(candidates) && e.anchor.selected.Some? && e.anchor.selected.value in candidates
  }

  method PlanAcquisition(ps: seq<Package>, a: CacheAudit, candidates: seq<Mirror>, anchor: Mirror)
    returns (batches: seq<seq<Package>>, mirrors: seq<Mirror>)
    requires Forward(candidates) && anchor in candidates
    ensures IsPlan(Sort(Select(ps, Members(a.pending)), ByIdentity), batches, BATCH_LIMIT_BYTES)
    ensures mirrors != [] && mirrors[0] == anchor && |mirrors| <= MAX_MIRROR_ATTEMPTS && Forward(mirrors)
    ensures AnchorFirst(candidates, anchor, MAX_MIRROR_ATTEMPTS, mirrors)
  {
    hide IsPlan, Forward, AnchorFirst;
    var planned := PlanPackagePrefetchBatches(Select(ps, Members(a.pending)), BATCH_LIMIT_BYTES);
    var ordered := OrderedPrefetchMirrors(candidates, anchor, MAX_MIRROR_ATTEMPTS);
    AnchorFirstIsForward(candidates, anchor, MAX_MIRROR_ATTEMPTS, ordered.value);
    return planned.value, ordered.value;
  }

  lemma FrozenLedger(e: Report)
    requires Frozen(e)
    ensures NamedOnce(e.packages) && DistinctNames(e.packages) && Healthy(e.progress) && Covers(e.progress, e.packages)
    ensures forall p :: p in e.packages ==> WellFormed(p)
    ensures ProgressAccepted(e.packages, e.progress, SummaryOf(e.progress))
  {
    hide Fresh, Healthy, Covers, DistinctNames, Ordered, WellFormed, SummaryOf;
    AcceptedOnce(e.packages);
    FreshCovers(e.progress, e.packages);
    LedgerAccepted(e.packages, e.progress);
  }

  lemma RunLedger(run: Run)
    requires run.Consistent() && Covers(run.start, run.packages)
    ensures ProgressAccepted(run.packages, run.ledger.records, SummaryOf(run.ledger.records))
  {
    hide NamedOnce, Healthy, Covers, SummaryOf;
    ReplayHealthy(run.start, run.attempts);
    CoversSame(run.start, run.ledger.records, run.packages);
    LedgerAccepted(run.packages, run.ledger.records);
  }

  /** Fetch the planned batches and put the evidence together. */
  method FetchPlanned(w: World, run: Run, start: Report, a: CacheAudit, candidates: seq<Mirror>, batches: seq<seq<Package>>,
                      mirrors: seq<Mirror>, ghost before: Entries)
    returns (error: Option<Error>, e: Report, ghost j: Journey, ghost end: Result<set<string>, Stop>)
    requires run.path == w.cachePath
    requires ReadyToAcquire(start, candidates) && run.packages == start.packages && run.start == run.ledger.records
    requires AtStart(run, batches, mirrors) && Covers(run.start, run.packages) && run.reusedCount == a.reusedCount
    requires Reconciles(start.packages, start.progress, run.start, a) && AuditStands(start.packages, a)
    requires Held(start.packages, run.start, run.cache.entries) && Clear(run.cache.entries, Select(start.packages, Members(a.pending)))
    requires AuditOf(before, run.cache.entries, start.packages, Success(a))
    requires IsPlan(Sort(Select(start.packages, Members(a.pending)), ByIdentity), batches, BATCH_LIMIT_BYTES)
    requires mirrors != [] && mirrors[0] == start.anchor.selected.value && |mirrors| <= MAX_MIRROR_ATTEMPTS && Forward(mirrors)
    requires AnchorFirst(candidates, start.anchor.selected.value, MAX_MIRROR_ATTEMPTS, mirrors)
    modifies run, run.ledger, run.cache
    ensures e == start.(cache := e.cache, progress := e.progress, summary := e.summary)
    ensures ProgressAccepted(e.packages, e.progress, SummaryOf(e.progress))
    ensures error.None? == end.Success? && Acquiring(w, e, candidates, before, j, end) && j.fetched == run.cache.entries
    ensures error.Some? ==> JourneyError(w.cachePath, j, error.value)
    ensures error.None? ==> Acquired(e, a)
    ensures error.Some? ==> Halted(e, run.cache.entries, Acquisition)
    ensures error.Some? && SuffixFree(e.packages) && NetworkKeeps(w.network, e.packages) ==>
      && Held(e.packages, e.progress, run.cache.entries)
      && (NetworkClear(w.network, e.packages) ==> AddsUp(e, run.cache.entries, Acquisition))
  {
    hide RoundError, AllAnswered, Frozen, ProgressAccepted, Acquired, Halted, SuffixFree, NamedOnce, Healthy, Covers, AuditStands,
         Reconciles, IsPlan, Forward, Underway, Agrees, AuditOf, WellFormed, SummaryOf, DistinctNames, RoundDone, AddsUp, Accounted,
         Acquiring, Rounds, RoundsEnd, SeenIn, Held, Clear, NetworkKeeps, NetworkClear, AnchorFirst, StaysHeld, StaysClear;
    FrozenLedger(start);
    var acquired, raised;
    ghost var rounds, audited := [], run.cache.entries;
    acquired, raised, rounds := AcquirePrefetchBatches(run, batches, mirrors, w.network);
    e := start.(progress := run.ledger.records, summary := run.summary, cache := CacheEvidenceOf(run, a, batches, mirrors));
    error := if acquired.Success? then None else raised;
    end := acquired;
    j := Journey(a, audited, start.progress, run.start, batches, mirrors, rounds, run.cache.entries);
    FetchedAll(w, run, start, e, candidates, before, j, end);
  }

  /** What the rounds have left, as evidence. */
  lemma FetchedAll(w: World, run: Run, start: Report, e: Report, candidates: seq<Mirror>, before: Entries, j: Journey,
                   end: Result<set<string>, Stop>)
    requires ReadyToAcquire(start, candidates) && run.packages == start.packages && DistinctNames(start.packages)
    requires run.Consistent() && Covers(run.start, run.packages) && run.reusedCount == j.audit.reusedCount
    requires e == start.(progress := run.ledger.records, summary := run.summary,
                         cache := CacheEvidenceOf(run, j.audit, j.batches, j.mirrors))
    requires j.initial == start.progress && j.start == run.start && j.fetched == run.cache.entries
    requires Reconciles(start.packages, j.initial, j.start, j.audit) && AuditStands(start.packages, j.audit)
    requires Held(start.packages, j.start, j.audited) && Clear(j.audited, Select(start.packages, Members(j.audit.pending)))
    requires AuditOf(before, j.audited, start.packages, Success(j.audit))
    requires IsPlan(Sort(Select(start.packages, Members(j.audit.pending)), ByIdentity), j.batches, BATCH_LIMIT_BYTES)
    requires j.mirrors != [] && j.mirrors[0] == start.anchor.selected.value
    requires AnchorFirst(candidates, start.anchor.selected.value, MAX_MIRROR_ATTEMPTS, j.mirrors)
    requires Rounds(j.start, j.batches, j.mirrors, w.network, j.audited, j.fetched, run.attempts, j.rounds)
    requires |j.rounds| <= |j.batches| && RoundsEnd(j.batches, j.rounds, end) && AllAnswered(w.network, SeenIn(j.rounds))
    requires end.Success? ==>
      && Underway(run.packages, run.start, run.attempts, j.batches, j.mirrors, |j.batches|, run.reusedCount) && Agrees(run)
      && run.completedBatches == |j.batches|
    requires end.Failure? ==>
      && j.rounds != [] && run.completedBatches == |j.rounds| - 1
      && RoundDone(run, j.batches, j.mirrors, |j.rounds| - 1, |j.rounds|, end, SeenIn(j.rounds))
    requires StaysHeld(run.packages, j.mirrors, SeenIn(j.rounds), j.start, j.audited, run.ledger.records, j.fetched)
    requires StaysClear(run.packages, SeenIn(j.rounds), Flatten(j.batches), j.audited, j.fetched, end)
    ensures ProgressAccepted(e.packages, e.progress, SummaryOf(e.progress))
    ensures Acquiring(w, e, candidates, before, j, end)
    ensures end.Success? ==> Acquired(e, j.audit)
    ensures end.Failure? ==> Halted(e, run.cache.entries, Acquisition)
    ensures end.Failure? && SuffixFree(e.packages) && NetworkKeeps(w.network, e.packages) ==>
      && Held(e.packages, e.progress, run.cache.entries)
      && (NetworkClear(w.network, e.packages) ==> AddsUp(e, run.cache.entries, Acquisition))
  {
    hide AllAnswered, Frozen, ProgressAccepted, Acquired, Halted, SuffixFree, NamedOnce, Healthy, Covers, AuditStands,
         Reconciles, IsPlan, Forward, Underway, Agrees, AuditOf, WellFormed, SummaryOf, DistinctNames, RoundDone, AddsUp, Accounted,
         Acquiring, Rounds, RoundsEnd, SeenIn, Held, Clear, NetworkKeeps, NetworkClear, AnchorFirst, StaysHeld, StaysClear, Flatten,
         NameSet, Select, Sort, Members, Replay, RecordNames;
    RunLedger(run);
    var seen := SeenIn(j.rounds);
    KeptByNetwork(w, e, run, j.audit, j.batches, j.mirrors, seen, j.start, j.audited, end);
    if end.Success? {
      RunFinished(e, run, j.audit, j.batches, j.mirrors, e.anchor.selected.value);
      RunComplete(w, e, j.audit, run.cache.entries);
    } else {
      RunHalted(e, run, j.audit, j.batches, j.mirrors, |j.rounds| - 1, seen, end.error);
      RoundKept(w, e, run, j.audit, j.batches, j.mirrors, |j.rounds| - 1, end.error, seen);
    }
    RunAcquiring(w, start, e, run, candidates, before, j, end);
  }

  /** Plan and acquire what the audit left pending. */
  method AcquirePending(w: World, cache: Cache, ledger: Ledger, start: Report, a: CacheAudit, candidates: seq<Mirror>,
                        ghost before: Entries)
    returns (error: Option<Error>, e: Report, ghost j: Journey, ghost end: Result<set<string>, Stop>)
    requires ReadyToAcquire(start, candidates)
    requires Reconciles(start.packages, start.progress, ledger.records, a) && AuditStands(start.packages, a)
    requires Held(start.packages, ledger.records, cache.entries) && Clear(cache.entries, Select(start.packages, Members(a.pending)))
    requires AuditOf(before, cache.entries, start.packages, Success(a))
    modifies cache, ledger
    ensures e == start.(cache := e.cache, progress := e.progress, summary := e.summary)
    ensures ProgressAccepted(e.packages, e.progress, SummaryOf(e.progress))
    ensures error.None? == end.Success? && Acquiring(w, e, candidates, before, j, end) && j.fetched == cache.entries
    ensures error.Some? ==> JourneyError(w.cachePath, j, error.value)
    ensures error.None? ==> Acquired(e, a)
    ensures error.Some? ==> Halted(e, cache.entries, Acquisition)
    ensures error.Some? && SuffixFree(e.packages) && NetworkKeeps(w.network, e.packages) ==>
      && Held(e.packages, e.progress, cache.entries)
      && (NetworkClear(w.network, e.packages) ==> AddsUp(e, cache.entries, Acquisition))
  {
    hide Frozen, ProgressAccepted, Acquired, Halted, SuffixFree, NamedOnce, Healthy, Covers, AuditStands, Reconciles, IsPlan, Forward,
         AuditOf, WellFormed, SummaryOf, DistinctNames, AddsUp, Acquiring, Held, Clear, NetworkKeeps, NetworkClear, AnchorFirst, AtStart;
    FrozenLedger(start);
    var batches, mirrors := PlanAcquisition(start.packages, a, candidates, start.anchor.selected.value);
    var run := BeginRun(start.packages, cache, ledger, a, batches, mirrors, w.cachePath, start.progress);
    error, e, j, end := FetchPlanned(w, run, start, a, candidates, batches, mirrors, before);
  }

  /** Audit, plan and acquire one frozen closure. */
  method AcquireClosure(w: World, cache: Cache, start: Report, candidates: seq<Mirror>)
    returns (r: Result<CacheAudit, Failing>, e: Report, ghost j: Journey, ghost end: Result<set<string>, Stop>)
    requires ReadyToAcquire(start, candidates)
    modifies cache
    ensures e == start.(cache := e.cache, progress := e.progress, summary := e.summary)
    ensures ProgressAccepted(e.packages, e.progress, SummaryOf(e.progress))
    ensures r.Failure? ==> r.error.substage.CacheVerification? || r.error.substage.Acquisition?
    ensures r.Success? ==> Acquired(e, r.value)
    ensures r.Failure? ==> Halted(e, cache.entries, r.error.substage)
    // why it failed
    ensures r.Failure? && r.error.substage.CacheVerification? ==>
      && e == start
      && exists halt ::
           AuditOf(old(cache.entries), cache.entries, e.packages, Failure(halt)) && r.error.error == CacheText(w.cachePath, halt)
    ensures r.Success? || r.error.substage.Acquisition? ==>
      && Acquiring(w, e, candidates, old(cache.entries), j, end) && j.fetched == cache.entries
      && (r.Success? <==> end.Success?)
    ensures r.Failure? && r.error.substage.Acquisition? ==> JourneyError(w.cachePath, j, r.error.error)
    // what a network that loses nothing and leaves no side entries guarantees
    ensures r.Failure? && r.error.substage.Acquisition? && SuffixFree(e.packages) && NetworkKeeps(w.network, e.packages) ==>
      && Held(e.packages, e.progress, cache.entries)
      && (NetworkClear(w.network, e.packages) ==> AddsUp(e, cache.entries, Acquisition))
  {
    hide Frozen, ProgressAccepted, Acquired, Halted, SuffixFree, NamedOnce, Healthy, Covers, AuditStands, Reconciles, Forward, AuditOf,
         WellFormed, SummaryOf, DistinctNames, AddsUp, Acquiring, Held, Clear, NetworkKeeps, NetworkClear, CacheText, JourneyError;
    e, end := start, Failure(NoMirrors);
    j := Journey(CacheAudit(0, 0, [], 0, [], [], [], []), cache.entries, [], [], [], [], [], cache.entries);
    FrozenLedger(e);
    var ledger := new Ledger(e.progress);
    var audited := AuditAndReconcile(cache, e.packages, ledger);
    if audited.Failure? {
      NothingHalted(e, cache.entries);
      return Failure(Failing(CacheVerification, CacheText(w.cachePath, audited.error))), e, j, end;
    }
    var error;
    error, e, j, end := AcquirePending(w, cache, ledger, start, audited.value, candidates, old(cache.entries));
    r := if error.None? then Success(audited.value) else Failure(Failing(Acquisition, error.value));
  }

  lemma NothingHalted(e: Report, now: Entries)
    requires !e.cache.prefetchRecorded && e.cache.attempts == [] && NamedOnce(e.packages)
    ensures Halted(e, now, CacheVerification)
  {
    hide Accounted, NamedOnce;
    NothingFetched(e);
  }

  /** What the network guarantees about the cache after acquisition. */
  lemma KeptByNetwork(w: World, e: Report, run: Run, a: CacheAudit, batches: seq<seq<Package>>, mirrors: seq<Mirror>, seen: seq<Step>,
                      earlier: seq<Record>, before: Entries, r: Result<set<string>, Stop>)
    requires e.packages == run.packages && e.progress == run.ledger.records && AllAnswered(w.network, seen) && mirrors != []
    requires StaysHeld(run.packages, mirrors, seen, earlier, before, run.ledger.records, run.cache.entries)
    requires StaysClear(run.packages, seen, Flatten(batches), before, run.cache.entries, r)
    requires Held(run.packages, earlier, before) && Clear(before, Select(run.packages, Members(a.pending)))
    requires DistinctNames(run.packages)
    requires IsPlan(Sort(Select(run.packages, Members(a.pending)), ByIdentity), batches, BATCH_LIMIT_BYTES)
    ensures SuffixFree(e.packages) && NetworkKeeps(w.network, e.packages) ==>
      AllKeep(run.packages, seen) && Held(e.packages, e.progress, run.cache.entries)
    ensures NetworkClear(w.network, e.packages) ==> r != Result.Failure(CleanUpBlocked)
  {
    hide SuffixFree, NetworkKeeps, NetworkClear, AllAnswered, Held, AllKeep, AllClear, DistinctNames, IsPlan, Flatten, SideBlocked;
    if NetworkKeeps(w.network, e.packages) { KeepingNetwork(w.network, e.packages, seen); }
    if NetworkClear(w.network, e.packages) {
      ClearingNetwork(w.network, e.packages, seen);
      PlanMembers(run.packages, Members(a.pending), batches);
    }
  }

  lemma PlanMembers(ps: seq<Package>, pending: set<string>, batches: seq<seq<Package>>)
    requires IsPlan(Sort(Select(ps, pending), ByIdentity), batches, BATCH_LIMIT_BYTES)
    ensures forall p :: p in Flatten(batches) ==> p in Select(ps, pending)
  {
    SortMembers(Select(ps, pending), ByIdentity);
  }

  lemma RoundKept(w: World, e: Report, run: Run, a: CacheAudit, batches: seq<seq<Package>>, mirrors: seq<Mirror>, i: nat, stop: Stop,
                  seen: seq<Step>)
    requires i < |batches| && mirrors != [] && RoundDone(run, batches, mirrors, i, i + 1, Failure(stop), seen)
    requires ShowsRun(e, run, a, batches, mirrors) && run.Consistent() && run.completedBatches == i
    requires IsPlan(Sort(Select(run.packages, Members(a.pending)), ByIdentity), batches, BATCH_LIMIT_BYTES)
    ensures SuffixFree(e.packages) && AllKeep(run.packages, seen) && !stop.CleanUpBlocked? ==> AddsUp(e, run.cache.entries, Acquisition)
  {
    hide SuffixFree, AllKeep, Sound, NamedOnce, Healthy, AttemptAccounted, AttemptsAccounted, Replay, CountedAlike, IsPlan, Partitions,
         VerifiedNames, VerifiedSet, NameSet;
    if SuffixFree(e.packages) && AllKeep(run.packages, seen) && !stop.CleanUpBlocked? {
      SoundAccounted(run.packages, run.start, run.attempts, |batches|, mirrors);
      AccountedSplits(run.packages, run.ledger.records, e);
      StoppedBatchCounts(e, run.cache.entries, batches, i);
    }
  }

  /** When the ledger counts every package, and counts only what matches, every archive matches. */
  lemma RunComplete(w: World, e: Report, a: CacheAudit, now: Entries)
    requires Acquired(e, a) && ProgressAccepted(e.packages, e.progress, SummaryOf(e.progress))
    ensures Held(e.packages, e.progress, now) ==> AllMatch(now, e.packages)
  {
    hide AttemptsAccounted, AuditStands, PrefetchAccepted, NamedOnce, DataMatches;
    AllCounted(e.packages, e.progress);
    forall p | p in e.packages ensures p.filename in VerifiedSet(e.progress) { assert p.filename in NameSet(e.packages); }
  }

  lemma AllCounted(ps: seq<Package>, rs: seq<Record>)
    requires ProgressAccepted(ps, rs, SummaryOf(rs)) && AllVerified(SummaryOf(rs), |ps|)
    ensures VerifiedSet(rs) == NameSet(ps)
  {
    hide DataMatches, NamedOnce, SameIdentity;
    forall r | r in rs ensures FlagsMatch(r) { assert RecordAccepted(r, ps); }
    SummaryPending(rs);
    NothingPending(rs);
    forall n | n in NameSet(ps) ensures n in VerifiedSet(rs) {
      var r :| r in rs && r.filename == n;
      assert FlagsMatch(r);
    }
    assert VerifiedSet(rs) <= RecordNames(rs);
  }

  /** The run is the journey its report shows. */
  lemma RunAcquiring(w: World, start: Report, e: Report, run: Run, candidates: seq<Mirror>, before: Entries, j: Journey,
                     end: Result<set<string>, Stop>)
    requires Frozen(start) && e.packages == start.packages == run.packages && e.anchor == start.anchor && e.anchor.selected.Some?
    requires run.Consistent() && ShowsRun(e, run, j.audit, j.batches, j.mirrors)
    requires AuditOf(before, j.audited, e.packages, Success(j.audit)) && j.initial == start.progress && j.start == run.start
    requires Reconciles(e.packages, j.initial, j.start, j.audit)
    requires IsPlan(Sort(Select(e.packages, Members(j.audit.pending)), ByIdentity), j.batches, BATCH_LIMIT_BYTES)
    requires AnchorFirst(candidates, e.anchor.selected.value, MAX_MIRROR_ATTEMPTS, j.mirrors)
    requires Rounds(j.start, j.batches, j.mirrors, w.network, j.audited, j.fetched, run.attempts, j.rounds)
    requires RoundsEnd(j.batches, j.rounds, end) && run.completedBatches == if end.Success? then |j.batches| else |j.rounds| - 1
    requires end.Success? && SuffixFree(e.packages) && NetworkKeeps(w.network, e.packages) ==> AllMatch(j.fetched, e.packages)
    ensures Acquiring(w, e, candidates, before, j, end)
  {
    hide AuditOf, Fresh, Reconciles, IsPlan, AnchorFirst, Rounds, RoundsEnd, Replay, SuffixFree, NetworkKeeps, AllMatch, NamedOnce,
         Healthy, Ordered, WellFormed;
  }

  // ---- local repository, validation and hand-over ----

  /** Every archive of the closure is in the cache and verified in the ledger. */
  ghost predicate CompleteSet(e: Entries, ps: seq<Package>, rs: seq<Record>) {
    && ps != [] && (forall p :: p in ps ==> Verified(e, p))
    && DistinctNames(ps) && RecordNames(rs) == NameSet(ps)
    && Summarizable(rs) && AllVerified(SummaryOf(rs), |ps|)
  }

  method VerifyCachedPackageFiles(cache: Cache, ps: seq<Package>) returns (r: Result<(), IncompleteError>)
    ensures r.Success? <==> AllMatch(cache.entries, ps)
    ensures FirstUnverified(cache.entries, ps) == if r.Failure? then Some(r.error) else None
  {
    assert ps[0..] == ps;
    for i := 0 to |ps|
      invariant forall p :: p in ps[..i] ==> Verified(cache.entries, p)
      invariant FirstUnverified(cache.entries, ps) == FirstUnverified(cache.entries, ps[i..])
    {
      assert ps[i] in ps && ps[..i + 1] == ps[..i] + [ps[i]];
      assert ps[i..][0] == ps[i] && ps[i..][1..] == ps[i + 1..];
      if !IsFile(cache.entries, ps[i].filename) { return Failure(FileMissing(ps[i].filename)); }
      var found := Digest(cache.entries, ps[i].filename);
      if found != ps[i].sha256 { return Failure(FileMismatch(ps[i].filename, found)); }
    }
    assert ps[..|ps|] == ps;
    return Success(());
  }

  method RequireCompleteVerifiedPackageSet(cache: Cache, ps: seq<Package>, rs: seq<Record>) returns (r: Result<Summary, IncompleteError>)
    ensures r.Success? <==> CompleteSet(cache.entries, ps, rs)
    ensures r.Success? ==> r.value == SummaryOf(rs)
    ensures ps != [] && !AllMatch(cache.entries, ps) ==> r.Failure? && Unmatched(ps, cache.entries, IncompleteText(r.error))
  {
    hide IncompleteText, Verified, Summarizable, SummaryOf, AllVerified, DistinctNames;
    if ps == [] { return Failure(NothingResolved); }
    var verified := VerifyCachedPackageFiles(cache, ps);
    if verified.Failure? { return Failure(verified.error); }
    DistinctByCount(ps);
    if |NameSet(ps)| != |ps| || RecordNames(rs) != NameSet(ps) { return Failure(NotCovered); }
    var summary := SummarizePackageProgress(rs);
    if summary.Failure? || !AllVerified(summary.value, |ps|) { return Failure(Unresolved); }
    return Success(summary.value);
  }

  lemma DistinctByCount(ps: seq<Package>)
    ensures |NameSet(ps)| == |ps| <==> DistinctNames(ps)
  {
    if DistinctNames(ps) { NameCount(ps); }
    NameCountConverse(ps);
  }

  /** After a complete acquisition the set is complete exactly when every archive still matches. */
  lemma CompleteExactly(e: Report, a: CacheAudit, now: Entries)
    requires Acquired(e, a) && ProgressAccepted(e.packages, e.progress, SummaryOf(e.progress)) && e.packages != []
    ensures CompleteSet(now, e.packages, e.progress) <==> AllMatch(now, e.packages)
  {
    hide AttemptsAccounted, AuditStands, PrefetchAccepted, RecordAccepted;
    AcceptedSummarizable(e.packages, e.progress, SummaryOf(e.progress));
  }

  /** The later stages change none of what the accounting of a failed run looks at. */
  ghost predicate SameAccounts(e: Report, f: Report) {
    && f.packages == e.packages && f.progress == e.progress && f.anchor == e.anchor && f.network == e.network
    && f.cache == e.cache.(sourceReadOnly := f.cache.sourceReadOnly, readOnly := f.cache.readOnly, ownerRestored := f.cache.ownerRestored)
    && f.failure == e.failure
  }

  lemma StillAcquired(e: Report, f: Report, a: CacheAudit)
    requires Acquired(e, a) && SameAccounts(e, f)
    ensures Acquired(f, a)
  {
    hide SummaryOf, AttemptsAccounted, AuditStands, AllVerified, Forward, AttemptAccepted, BatchesAccepted;
  }

  method BuildLocalRepository(w: World, cache: Cache, start: Report, a: CacheAudit) returns (error: Option<Error>, e: Report)
    requires Acquired(start, a) && ProgressAccepted(start.packages, start.progress, SummaryOf(start.progress)) && start.packages != []
    ensures SameAccounts(start, e) && e.passed == start.passed
    ensures error.None? <==> Built(w, e.packages, cache.entries)
    ensures error.Some? ==> BuildFailed(w, e.packages, cache.entries, error.value)
    ensures error.None? ==>
      && e.cachedBefore == CachedBefore(e.packages, Members(a.reused))
      && e.frozen == Some(FrozenConfig(w.configPath, w.frozenSha256, LOCAL_SERVER, false, true))
      && e.gate == start.gate.(allPackagesVerified := true, verifiedPackageCount := |e.packages|, localRepositoryConstructed := true,
                               localRepositoryReadOnly := true, pacmanConfigReadOnly := true)
  {
    hide CompleteSet, SummaryOf, AuditStands, PrefetchAccepted, Accounted, ProgressAccepted, AllMatch;
    error, e := None, start;
    CompleteExactly(start, a, cache.entries);
    var complete := RequireCompleteVerifiedPackageSet(cache, e.packages, e.progress);
    if complete.Failure? {
      error := Some(IncompleteText(complete.error));
      return;
    }
    error := w.errors(BuildRepository);
    if error.Some? { return; }
    e := e.(summary := complete.value);
    e := e.(gate := e.gate.(allPackagesVerified := true, verifiedPackageCount := |e.packages|,
                            localRepositoryConstructed := true, localRepositoryReadOnly := true));
    e := e.(cachedBefore := CachedBefore(e.packages, Members(a.reused)));
    e := e.(cache := e.cache.(reusedCount := a.reusedCount, downloadedCount := |e.packages| - a.reusedCount,
                              verifiedCount := |e.packages|, pendingCount := 0,
                              sourceReadOnly := false, readOnly := false, ownerRestored := false));
    error := w.errors(LockConfig);
    if error.Some? { return; }
    e := e.(frozen := Some(FrozenConfig(w.configPath, w.frozenSha256, LOCAL_SERVER, false, true)));
    e := e.(gate := e.gate.(pacmanConfigReadOnly := true));
  }

  method ValidateLocally(w: World, cache: Cache, start: Report, ghost a: CacheAudit) returns (error: Option<Error>, e: Report)
    requires Acquired(start, a) && ProgressAccepted(start.packages, start.progress, SummaryOf(start.progress)) && start.packages != []
    modifies cache
    ensures e == start.(summary := e.summary, local := e.local, gate := e.gate)
    ensures error.None? ==>
      && e.local == Some(LocalValidation(|e.packages|, true, true, true, true, false))
      && e.gate == start.gate.(localResolutionMatches := true, postValidationCacheVerified := true)
      && e.summary == SummaryOf(e.progress) && CompleteSet(cache.entries, e.packages, e.progress)
      && !w.raises(SyncLocal) && !w.raises(FetchLocal) && ResolvesAlike(w.reading, w.localRows, e.packages)
      && cache.entries == w.refetched(old(cache.entries))
    ensures error.Some? ==> ValidationFailed(w, e.packages, old(cache.entries), cache.entries, error.value)
  {
    hide CompleteSet, SummaryOf, Firsts, AllGood, IdentityOf, ClosureIdentity, Acquired, ProgressAccepted, AllMatch, Unmatched,
         RowText, RowProblem, IncompleteText;
    error, e := w.errors(SyncLocal), start;
    if error.Some? { return; }
    var parsed := ParsePacmanPrintRows(w.reading, w.localRows);
    if parsed.Failure? {
      error := Some(RowText(w.reading, parsed.error));
      return;
    }
    if ClosureIdentity(e.packages) != ClosureIdentity(parsed.value) {
      error := Some(Plain(DIFFERENT));
      return;
    }
    assert ResolvesAlike(w.reading, w.localRows, e.packages);
    cache.entries := w.refetched(cache.entries);
    error := w.errors(FetchLocal);
    if error.Some? { return; }
    CompleteExactly(start, a, cache.entries);
    var complete := RequireCompleteVerifiedPackageSet(cache, e.packages, e.progress);
    if complete.Failure? {
      error := Some(IncompleteText(complete.error));
      return;
    }
    e := e.(summary := complete.value);
    e := e.(local := Some(LocalValidation(|parsed.value|, true, true, true, true, false)));
    e := e.(gate := e.gate.(localResolutionMatches := true, postValidationCacheVerified := true));
  }

  /** The evidence before the cache is handed over. */
  ghost predicate Validated(w: World, e: Report, a: CacheAudit) {
    && !e.passed && e.failure.None? && e.packages != [] && Acquired(e, a) && AnchorAccepted(e.anchor)
    && ProgressAccepted(e.packages, e.progress, SummaryOf(e.progress)) && e.summary == SummaryOf(e.progress)
    && e.cachedBefore == CachedBefore(e.packages, Members(a.reused))
    && e.network == NetworkConfig(w.configPath, w.configSha256)
    && e.frozen == Some(FrozenConfig(w.configPath, w.frozenSha256, LOCAL_SERVER, false, true))
    && e.local == Some(LocalValidation(|e.packages|, true, true, true, true, false))
    && e.gate == Gate(false, true, |e.packages|, true, true, true, true, true, true, false, false, false)
  }

  /** What the report says once the cache is handed over. */
  function HandedOver(e: Report): Report {
    e.(passed := true,
       cache := e.cache.(ownerRestored := true, sourceReadOnly := true, readOnly := true),
       gate := e.gate.(passed := true, cacheOwnerRestored := true, cacheSourceReadOnly := true, cacheReadOnly := true))
  }

  lemma HandedOverAccepted(w: World, e: Report, a: CacheAudit)
    requires Sane(w) && Validated(w, e, a) && w.configPath == STABLE_PACMAN_CONFIG
    ensures Accepted(HandedOver(e))
  {
    hide ProgressAccepted, SummaryOf, AuditAccepted, AttemptsAccounted, AttemptAccepted, BatchesAccepted, AnchorAccepted, IsSha256,
         Forward, Hexadecimal, Members, NoDuplicates;
    AuditAcceptedCount(e.packages, a);
  }

  lemma AuditAcceptedCount(ps: seq<Package>, a: CacheAudit)
    requires AuditStands(ps, a)
    ensures AuditAccepted(ps, CachedBefore(ps, Members(a.reused)), a.reusedCount, a)
  {
  }

  lemma WrongConfigRefused(w: World, e: Report, a: CacheAudit)
    requires Validated(w, e, a) && !Loaded(w)
    ensures !MayBuild(HandedOver(e))
  {
    hide Acquired, ProgressAccepted, AnchorAccepted, SummaryOf;
  }

  /** Under a loaded manifest the gate never refuses what has come so far. */
  lemma GateNeverRefuses(w: World, e: Report, a: CacheAudit)
    requires Sane(w) && Loaded(w) && Validated(w, e, a)
    ensures MayBuild(HandedOver(e))
  {
    hide Sane, Accepted, MayBuild, Validated;
    HandedOverAccepted(w, e, a);
    AcceptedMayBuild(HandedOver(e));
  }

  method HandOver(w: World, start: Report, ghost a: CacheAudit) returns (error: Option<Error>, e: Report)
    requires Sane(w) && Validated(w, start, a)
    ensures error.None? <==> HandsOver(w)
    ensures error.None? ==> e == HandedOver(start) && Accepted(e) && MayBuild(e)
    ensures error.Some? ==> SameAccounts(start, e) && HandOverFailed(w, e.passed, error.value)
  {
    hide Sane, Accepted, MayBuild, Acquired, ProgressAccepted, AnchorAccepted, SummaryOf;
    error, e := w.errors(RestoreOwner), start;
    if error.Some? { return; }
    e := e.(cache := e.cache.(ownerRestored := true), gate := e.gate.(cacheOwnerRestored := true));
    error := w.errors(LockCacheSource);
    if error.Some? { return; }
    e := e.(cache := e.cache.(sourceReadOnly := true), gate := e.gate.(cacheSourceReadOnly := true));
    error := w.errors(LockCacheTarget);
    if error.Some? { return; }
    e := e.(cache := e.cache.(readOnly := true), gate := e.gate.(cacheReadOnly := true));
    e := e.(gate := e.gate.(passed := true));
    e := e.(passed := true, failure := None);
    assert e == HandedOver(start);
    if Loaded(w) {
      GateNeverRefuses(w, start, a);
      HandedOverAccepted(w, start, a);
    } else {
      WrongConfigRefused(w, start, a);
    }
    var ok := RequireBuildisoSecurityBoundary(e);
    error := if ok then w.errors(WriteEvidence) else Some(Plain(UNLOCKED_CONFIG));
  }

  // ---- the whole run ----

  /** The diagnosis looks at nothing that recording a failure changes. */
  lemma FailedBlames(e: Report, s: Substage, error: Error)
    ensures Blames(FailedReport(e, s, error), s, error)
  {
    hide CauseOf, DetailOf, SummaryOf;
  }

  lemma AnchorProbes(a: Anchor)
    requires AnchorAccepted(a)
    ensures ProbesUsable(a)
  {
    hide Usable;
  }

  lemma StoppedVerdict(e: Report, s: Substage, error: Error, now: Entries)
    requires !e.passed && ProbesUsable(e.anchor) && ProgressAccepted(e.packages, e.progress, SummaryOf(e.progress)) && Halted(e, now, s)
    ensures Verdict(FailedReport(e, s, error), now)
  {
    hide Accepted, Accounted, CauseAgrees, Told, SummaryOf, SameCount, ProgressAccepted, NamedOnce, IsPlan, Partitions, MayBuild,
         ProbesUsable, Diagnosed;
    FailedAccepted(e, s, error);
    SameEvidence(e, s, error, now);
  }

  /** Recording a failure changes nothing the evidence has to add up from. */
  lemma SameEvidence(e: Report, s: Substage, error: Error, now: Entries)
    ensures AddsUp(FailedReport(e, s, error), now, s) <==> AddsUp(e, now, s)
  {
    hide SummaryOf, SameCount, NamedOnce, IsPlan, Partitions, Diagnosed;
  }

  lemma EarlyVerdict(e: Report, s: Substage, error: Error, now: Entries)
    requires !e.passed && !e.cache.prefetchRecorded && e.cache.attempts == [] && e.progress == [] && !s.Acquisition?
    requires e.packages == [] || !DistinctNames(e.packages)
    requires ProbesUsable(e.anchor)
    ensures Verdict(FailedReport(e, s, error), now)
  {
    hide Accepted, Accounted, CauseAgrees, Told, SummaryOf, MayBuild, ProbesUsable, Diagnosed;
    NothingFetched(e);
    if e.packages == [] {
      NoPackages(e);
      StoppedVerdict(e, s, error, now);
    } else {
      NamesRefused(FailedReport(e, s, error));
    }
  }

  /** A stop after acquisition leaves an accountable report; one after the status was set does not. */
  lemma LateVerdict(e: Report, f: Report, a: CacheAudit, s: Substage, error: Error, now: Entries)
    requires Acquired(e, a) && SameAccounts(e, f) && ProgressAccepted(e.packages, e.progress, SummaryOf(e.progress))
    requires !s.Acquisition? && ProbesUsable(f.anchor)
    ensures Verdict(FailedReport(f, s, error), now)
  {
    hide ProbesUsable, Diagnosed, Told, CauseAgrees, SummaryOf, PassAccepted, AuditStands, PrefetchAccepted, AllVerified, AttemptsAccounted, MayBuild, FailAccepted,
         DistinctNames, DistinctRecords, RecordAccepted;
    StillAcquired(e, f, a);
    if !f.passed {
      AccountedSplits(f.packages, f.progress, f);
      StoppedVerdict(f, s, error, now);
    } else {
      RefusedPass(f, s, error);
    }
  }

  lemma RefusedPass(f: Report, s: Substage, error: Error)
    requires f.passed
    ensures !Accepted(FailedReport(f, s, error))
  {
  }

  method FinishClosure(w: World, cache: Cache, start: Report, a: CacheAudit) returns (r: Report, error: Option<Error>)
    requires Sane(w) && Acquired(start, a) && !start.passed && start.failure.None? && AnchorAccepted(start.anchor)
    requires ProgressAccepted(start.packages, start.progress, SummaryOf(start.progress)) && start.packages != []
    requires start.network == NetworkConfig(w.configPath, w.configSha256)
    requires start.gate == NoGate().(databasesImmutable := true)
    modifies cache
    ensures SameAccounts(start, r.(failure := None)) && Verdict(r, cache.entries)
    ensures r.failure.Some? <==> error.Some?
    ensures error.Some? ==>
      && Blames(r, r.failure.value.substage, error.value)
      && FinishFailed(w, r.packages, r.passed, r.failure.value.substage, old(cache.entries), cache.entries, error.value)
    ensures error.None? ==> r.passed && HandsOver(w) && LocallyValid(w, r.packages, old(cache.entries), cache.entries)
  {
    hide Sane, Acquired, AnchorAccepted, ProgressAccepted, CompleteSet, ResolvesAlike, MayBuild, SummaryOf, Verdict, AllMatch, Accepted,
         ResolvesOtherwise, Blames, Diagnosed, HandsOver, HandOverFailed, BuildFailed, ValidationFailed, ProbesUsable;
    AnchorProbes(start.anchor);
    var e, f;
    error, e := BuildLocalRepository(w, cache, start, a);
    if error.Some? {
      LateVerdict(start, e, a, CacheVerification, error.value, cache.entries);
      FailedBlames(e, CacheVerification, error.value);
      return FailedReport(e, CacheVerification, error.value), error;
    }
    StillAcquired(start, e, a);
    error, f := ValidateLocally(w, cache, e, a);
    if error.Some? {
      LateVerdict(start, f, a, LocalValidationStage, error.value, cache.entries);
      FailedBlames(f, LocalValidationStage, error.value);
      return FailedReport(f, LocalValidationStage, error.value), error;
    }
    StillAcquired(start, f, a);
    CompleteExactly(f, a, cache.entries);
    error, r := HandOver(w, f, a);
    if error.Some? {
      LateVerdict(start, r, a, CacheVerification, error.value, cache.entries);
      FailedBlames(r, CacheVerification, error.value);
      return FailedReport(r, CacheVerification, error.value), error;
    }
    PassedVerdict(r, cache.entries);
  }

  lemma PassedVerdict(r: Report, now: Entries)
    requires Accepted(r) && MayBuild(r)
    ensures Verdict(r, now) && r.passed && r.failure.None?
  {
    hide Accepted, SummaryOf;
  }

  /** The journey is in the report whatever the later stages add to it. */
  lemma SameJourney(w: World, e: Report, f: Report, candidates: seq<Mirror>, before: Entries, j: Journey, end: Result<set<string>, Stop>)
    requires Acquiring(w, e, candidates, before, j, end) && f.packages == e.packages && f.progress == e.progress && f.anchor == e.anchor
    requires f.cache == e.cache.(sourceReadOnly := f.cache.sourceReadOnly, readOnly := f.cache.readOnly,
                                 ownerRestored := f.cache.ownerRestored)
    ensures Acquiring(w, f, candidates, before, j, end)
  {
    hide AuditOf, Fresh, Reconciles, IsPlan, AnchorFirst, Rounds, RoundsEnd, SuffixFree, NetworkKeeps, AllMatch;
  }

  /** What a network that loses nothing guarantees of a run that stops in acquisition, and, when it leaves no
      side entries either, of every failed run. */
  ghost predicate KeptEvidence(w: World, r: Report, now: Entries) {
    SuffixFree(r.packages) && NetworkKeeps(w.network, r.packages) && r.failure.Some? ==>
      && (r.failure.value.substage.Acquisition? ==> Held(r.packages, r.progress, now))
      && (NetworkClear(w.network, r.packages) && NamedOnce(r.packages) && !r.passed ==>
          (Accepted(r) <==> CauseAgrees(r) && Told(r)))
  }

  lemma KeptAnyway(w: World, r: Report, now: Entries)
    requires Verdict(r, now) && (r.failure.Some? ==> !r.failure.value.substage.Acquisition?)
    requires (r.failure.Some? && !r.passed && NamedOnce(r.packages)) ==> AllSplit(r)
    ensures KeptEvidence(w, r, now)
  {
    hide SuffixFree, NetworkKeeps, NetworkClear, NamedOnce, Accepted, CauseAgrees, Told, Held, Partitions, CountedAlike, MayBuild;
  }

  lemma KeptStopped(w: World, e: Report, error: Error, now: Entries)
    requires !e.passed && Verdict(FailedReport(e, Acquisition, error), now)
    requires SuffixFree(e.packages) && NetworkKeeps(w.network, e.packages) ==>
      Held(e.packages, e.progress, now) && (NetworkClear(w.network, e.packages) ==> AddsUp(e, now, Acquisition))
    ensures KeptEvidence(w, FailedReport(e, Acquisition, error), now)
  {
    hide SuffixFree, NetworkKeeps, NetworkClear, NamedOnce, Accepted, CauseAgrees, Told, Held, AddsUp, SummaryOf, MayBuild, Diagnosed;
    SameEvidence(e, Acquisition, error, now);
  }

  lemma SplitAlready(r: Report, now: Entries, e: Report, a: CacheAudit)
    requires Acquired(e, a) && r.cache.attempts == e.cache.attempts
    ensures AllSplit(r)
  {
    hide AuditStands, PrefetchAccepted, AllVerified, TotalsAgree, AttemptsAccounted, Partitions;
    AccountedSplits(e.packages, e.progress, e);
  }

  // ---- how the run went, at each of its ends ----

  lemma WentUnlisted(w: World, now: Entries, e: Error)
    requires ListFailed(w, e)
    ensures Went(w, now, now, FailedReport(EmptyReport(w), MirrorSelection, e))
  {
    hide ListFailed, SummaryOf, Diagnosed, FinishStopped, Prepared, JourneyError, ResolutionFailed, SyncFailed, AuditOf;
    FailedBlames(EmptyReport(w), MirrorSelection, e);
    FailedStage(EmptyReport(w), MirrorSelection, e);
    assert StoppedAt(w, now, now, FailedReport(EmptyReport(w), MirrorSelection, e), MirrorSelection, e);
  }

  lemma FailedStage(e: Report, s: Substage, error: Error)
    ensures FailedReport(e, s, error).failure.Some? && FailedReport(e, s, error).failure.value.substage == s
  {
  }

  lemma WentUnsynchronised(w: World, now: Entries, a: Anchor, e: Error)
    requires exists candidates :: SyncFailed(w, a, candidates, e)
    ensures Went(w, now, now, FailedReport(EmptyReport(w).(anchor := a), RepositorySync, e))
  {
    hide ListFailed, SyncFailed, SummaryOf, Diagnosed, FinishStopped, Prepared, JourneyError, ResolutionFailed, AuditOf;
    var r := FailedReport(EmptyReport(w).(anchor := a), RepositorySync, e);
    FailedBlames(EmptyReport(w).(anchor := a), RepositorySync, e);
    FailedStage(EmptyReport(w).(anchor := a), RepositorySync, e);
    assert StoppedAt(w, now, now, r, RepositorySync, e);
  }

  lemma WentUnresolved(w: World, now: Entries, f: Report, candidates: seq<Mirror>, e: Error)
    requires !f.passed && f.progress == [] && f.cache == NoCacheEvidence() && f.network == NetworkConfig(w.configPath, w.configSha256)
    requires ResolutionFailed(w, f.packages, e) && Synchronised(w, f.anchor, candidates)
    ensures Went(w, now, now, FailedReport(f, Resolution, e))
  {
    hide ListFailed, SyncFailed, ResolutionFailed, Synchronised, SummaryOf, Diagnosed, FinishStopped, Prepared, JourneyError, AuditOf;
    FailedBlames(f, Resolution, e);
    FailedStage(f, Resolution, e);
    assert StoppedAt(w, now, now, FailedReport(f, Resolution, e), Resolution, e);
  }

  lemma WentUnaudited(w: World, before: Entries, now: Entries, f: Report, candidates: seq<Mirror>, e: Error)
    requires !f.passed && f.cache == NoCacheEvidence() && f.network == NetworkConfig(w.configPath, w.configSha256)
    requires ResolvedAs(w, f.packages) && Fresh(f.progress, f.packages) && Synchronised(w, f.anchor, candidates)
    requires exists halt :: AuditOf(before, now, f.packages, Failure(halt)) && e == CacheText(w.cachePath, halt)
    ensures Went(w, before, now, FailedReport(f, CacheVerification, e))
  {
    hide ResolvedAs, Fresh, AuditOf, Synchronised, SummaryOf, Diagnosed, CacheText, ListFailed, SyncFailed, ResolutionFailed,
         FinishStopped, Prepared, JourneyError;
    FailedBlames(f, CacheVerification, e);
    FailedStage(f, CacheVerification, e);
    assert StoppedAt(w, before, now, FailedReport(f, CacheVerification, e), CacheVerification, e);
  }

  lemma WentStopped(w: World, before: Entries, f: Report, candidates: seq<Mirror>, j: Journey, end: Result<set<string>, Stop>, e: Error)
    requires !f.passed && f.network == NetworkConfig(w.configPath, w.configSha256) && end.Failure? && JourneyError(w.cachePath, j, e)
    requires Synchronised(w, f.anchor, candidates) && ResolvedAs(w, f.packages) && Acquiring(w, f, candidates, before, j, end)
    ensures Went(w, before, j.fetched, FailedReport(f, Acquisition, e))
  {
    hide ResolvedAs, Synchronised, Acquiring, SummaryOf, Diagnosed, JourneyError, ListFailed, SyncFailed, ResolutionFailed,
         FinishStopped, AuditOf;
    var r := FailedReport(f, Acquisition, e);
    FailedBlames(f, Acquisition, e);
    FailedStage(f, Acquisition, e);
    SameJourney(w, f, r, candidates, before, j, end);
    assert Prepared(w, before, r, candidates, j, Failure(end.error));
    assert StoppedAt(w, before, j.fetched, r, Acquisition, e);
  }

  lemma WentFinished(w: World, before: Entries, now: Entries, f: Report, r: Report, candidates: seq<Mirror>, j: Journey,
                     end: Result<set<string>, Stop>, error: Option<Error>)
    requires f.network == NetworkConfig(w.configPath, w.configSha256) && end.Success?
    requires Synchronised(w, f.anchor, candidates) && ResolvedAs(w, f.packages) && Acquiring(w, f, candidates, before, j, end)
    requires SameAccounts(f, r.(failure := None)) && (r.failure.Some? <==> error.Some?)
    requires error.Some? ==>
      && Blames(r, r.failure.value.substage, error.value)
      && FinishFailed(w, r.packages, r.passed, r.failure.value.substage, j.fetched, now, error.value)
    requires error.None? ==> r.passed && HandsOver(w) && LocallyValid(w, r.packages, j.fetched, now)
    ensures Went(w, before, now, r)
  {
    hide ResolvedAs, Synchronised, Acquiring, SummaryOf, LocallyValid, HandOverFailed, HandsOver, Built, BuildFailed, ValidationFailed,
         Diagnosed, ListFailed, SyncFailed, ResolutionFailed, JourneyError, AuditOf;
    SameJourney(w, f, r, candidates, before, j, end);
    AcquiringAudited(w, r, candidates, before, j, end);
    assert Prepared(w, before, r, candidates, j, Success(end.value));
    if error.Some? { assert StoppedAt(w, before, now, r, r.failure.value.substage, error.value); }
  }

  lemma AcquiringAudited(w: World, e: Report, candidates: seq<Mirror>, before: Entries, j: Journey, end: Result<set<string>, Stop>)
    requires Acquiring(w, e, candidates, before, j, end)
    ensures e.cache.audit.Some?
  {
    hide AuditOf, Fresh, Reconciles, IsPlan, AnchorFirst, Rounds, RoundsEnd, SuffixFree, NetworkKeeps, AllMatch;
  }

  /** prepare_repository_closure: how the run went, what the validator makes of its report, and what a network
      that loses nothing guarantees. */
  method PrepareRepositoryClosure(w: World, cache: Cache) returns (r: Report)
    requires Sane(w)
    modifies cache
    ensures InterruptReported(r)
    ensures KeptEvidence(w, r, cache.entries)
    ensures Verdict(r, cache.entries)
    ensures Went(w, old(cache.entries), cache.entries, r)
  {
    hide Sane, Acquired, AnchorAccepted, ProgressAccepted, Halted, Frozen, SuffixFree, PrefetchAccepted, Forward, NamedOnce, SummaryOf,
         NetworkKeeps, Verdict, KeptEvidence, Synchronised, SyncFailed, ResolvedAs, ResolutionFailed, AuditOf, Acquiring, Unlistable,
         Accepted, FinishFailed, LocallyValid, HandOverFailed, Fresh, Partitions, AddsUp, Held, NetworkClear, Accounted, CauseAgrees,
         Went, Diagnosed, AllSplit, ListFailed, InterruptReported, JourneyError, CacheText, Blames, ProbesUsable, HandsOver, Told;
    var e := EmptyReport(w);
    var anchored, anchor := SelectAnchor(w);
    e := e.(anchor := anchor);
    if anchored.Failure? {
      var error := anchored.error.error;
      EarlyVerdict(e, anchored.error.substage, error, cache.entries);
      r := FailedReport(e, anchored.error.substage, error);
      if anchored.error.substage.MirrorSelection? {
        WentUnlisted(w, cache.entries, error);
      } else {
        WentUnsynchronised(w, cache.entries, anchor, error);
      }
      NothingSplit(r);
      KeptAnyway(w, r, cache.entries);
      EarlyInterrupt(r, e, anchored.error.substage, error);
      return;
    }
    AnchorSelects(e.anchor);
    e := e.(gate := e.gate.(databasesImmutable := true));
    var resolved, f := Resolve(w, e);
    if resolved.Failure? {
      RepeatedOrNone(w, f.packages, resolved.error);
      EarlyVerdict(f, Resolution, resolved.error, cache.entries);
      r := FailedReport(f, Resolution, resolved.error);
      WentUnresolved(w, cache.entries, f, anchored.value, resolved.error);
      NothingSplit(r);
      KeptAnyway(w, r, cache.entries);
      EarlyInterrupt(r, f, Resolution, resolved.error);
      return;
    }
    FrozenFresh(f);
    var acquired, g;
    ghost var j, end;
    acquired, g, j, end := AcquireClosure(w, cache, f, anchored.value);
    if acquired.Failure? {
      var error := acquired.error.error;
      StoppedVerdict(g, acquired.error.substage, error, cache.entries);
      r := FailedReport(g, acquired.error.substage, error);
      if acquired.error.substage.CacheVerification? {
        WentUnaudited(w, old(cache.entries), cache.entries, f, anchored.value, error);
        NothingSplit(r);
        KeptAnyway(w, r, cache.entries);
        EarlyInterrupt(r, g, CacheVerification, error);
      } else {
        WentStopped(w, old(cache.entries), g, anchored.value, j, end, error);
        KeptStopped(w, g, error, cache.entries);
        StoppedInterrupt(w, r, g, anchored.value, old(cache.entries), j, end, error);
      }
      return;
    }
    var error;
    r, error := FinishClosure(w, cache, g, acquired.value);
    WentFinished(w, old(cache.entries), cache.entries, g, r, anchored.value, j, end, error);
    SplitAlready(r, cache.entries, g, acquired.value);
    FinishNamed(w, r, j.fetched, cache.entries, error);
    KeptAnyway(w, r, cache.entries);
    FinishInterrupt(r, error);
  }

  /** An interrupted run reports it as that, and its cause agrees. */
  predicate InterruptReported(r: Report) { r.failure.Some? && r.failure.value.cause.InterruptedCause? ==> CauseAgrees(r) }

  lemma InterruptFits(r: Report, s: Substage, e: Error)
    requires Blames(r, s, e) && !s.Acquisition?
    ensures InterruptReported(r)
  {
    hide Diagnosed, CauseAgrees;
    if r.failure.Some? && r.failure.value.cause.InterruptedCause? { InterruptAgrees(r, s, e); }
  }

  lemma FinishInterrupt(r: Report, error: Option<Error>)
    requires (r.failure.Some? <==> error.Some?) && (error.Some? ==> Blames(r, r.failure.value.substage, error.value))
    requires r.failure.Some? ==> !r.failure.value.substage.Acquisition?
    ensures InterruptReported(r)
  {
    hide Blames, CauseAgrees;
    if error.Some? { InterruptFits(r, r.failure.value.substage, error.value); }
  }

  lemma EarlyInterrupt(r: Report, e: Report, s: Substage, error: Error)
    requires r == FailedReport(e, s, error) && !s.Acquisition?
    ensures InterruptReported(r)
  {
    hide Diagnosed, CauseAgrees, SummaryOf;
    FailedBlames(e, s, error);
    InterruptFits(r, s, error);
  }

  /** A stop by an interrupt shows the interrupted attempt last. */
  lemma StoppedInterrupt(w: World, r: Report, e: Report, candidates: seq<Mirror>, before: Entries, j: Journey,
                         end: Result<set<string>, Stop>, error: Error)
    requires r == FailedReport(e, Acquisition, error) && Acquiring(w, e, candidates, before, j, end)
    requires JourneyError(w.cachePath, j, error)
    ensures InterruptReported(r)
  {
    hide Diagnosed, CauseAgrees, SummaryOf, Acquiring, JourneyError;
    FailedBlames(e, Acquisition, error);
    if error.kind.Interrupting? { JourneyInterrupted(w, e, candidates, before, j, end, error); }
    if r.failure.value.cause.InterruptedCause? { InterruptAgrees(r, Acquisition, error); }
  }

  lemma JourneyInterrupted(w: World, e: Report, candidates: seq<Mirror>, before: Entries, j: Journey, end: Result<set<string>, Stop>,
                           error: Error)
    requires Acquiring(w, e, candidates, before, j, end) && JourneyError(w.cachePath, j, error) && error.kind.Interrupting?
    ensures EndsInFailedAttempt(e.cache.attempts) && ObservedClass(e, Acquisition) == Some(Interrupted)
  {
    hide AuditOf, Fresh, Reconciles, IsPlan, AnchorFirst, Replay, SuffixFree, NetworkKeeps, AllMatch, RoundsEnd, RoundError, RoundRan;
    var i := |j.rounds| - 1;
    assert RoundFollows(j.start, j.batches, j.mirrors, w.network, j.audited, j.rounds, i);
    RoundInterrupted(w.cachePath, j.start, i + 1, |j.batches|, j.batches[i], j.mirrors, w.network, j.rounds[i], error);
    TaggedEnd(AttemptsIn(j.rounds[..i]), i + 1, j.rounds[i].atts);
  }

  lemma RoundInterrupted(dir: string, start: seq<Record>, b: nat, count: nat, batch: seq<Package>, mirrors: seq<Mirror>,
                         network: Network, rd: Round, e: Error)
    requires RoundRan(start, b, batch, mirrors, network, rd) && RoundError(dir, start, b, count, batch, mirrors, rd, e)
    requires e.kind.Interrupting?
    ensures rd.atts != [] && !rd.atts[|rd.atts| - 1].passed && rd.atts[|rd.atts| - 1].failureClass == Some(Interrupted)
  {
    hide BatchOutcome, FailsWith, MissingText, BatchRan;
    assert rd.outcome.Failure?;
    var inner :| FailsWith(dir, start, b, batch, mirrors, rd.did, rd.atts, rd.seen, rd.outcome.error, inner)
      && e == BatchError(b, count, |VerifiedNames(rd.now, batch)|, |batch|, inner);
    OwnErrors(dir, start, b, batch, mirrors, rd, inner);
    OutcomeChain(start, b, batch, mirrors, rd);
    InterruptedLast(batch, mirrors, rd.did, rd.atts);
  }

  lemma OutcomeChain(start: seq<Record>, b: nat, batch: seq<Package>, mirrors: seq<Mirror>, rd: Round)
    requires BatchOutcome(start, b, batch, mirrors, rd.now, rd.did, rd.atts, rd.outcome)
    ensures Chain(batch, mirrors, rd.did, rd.atts)
  {
    hide Chain, AllAcceptable, Acceptable;
  }

  lemma InterruptedLast(batch: seq<Package>, mirrors: seq<Mirror>, did: seq<Step>, atts: seq<Attempt>)
    requires Chain(batch, mirrors, did, atts) && did != [] && did[|did| - 1].raised.Interrupts()
    ensures atts != [] && !atts[|atts| - 1].passed && atts[|atts| - 1].failureClass == Some(Interrupted)
  {
    hide ListsSet, StillPending, VerifiedNames, Removed, IsSorted, CleanedUp, Follows, SpokenClass, ClassText, AttemptDetail, BytesOf;
    assert Linked(batch, mirrors, did, atts, |did| - 1);
  }

  /** The closure code raises no interrupts of its own. */
  lemma OwnErrors(dir: string, start: seq<Record>, b: nat, batch: seq<Package>, mirrors: seq<Mirror>, rd: Round, e: Error)
    requires rd.outcome.Failure? && e.kind.Interrupting?
    requires FailsWith(dir, start, b, batch, mirrors, rd.did, rd.atts, rd.seen, rd.outcome.error, e)
    ensures rd.did != [] && rd.did[|rd.did| - 1].raised == Raising(e)
  {
    hide ExhaustedText, RejectionOf, HaltOf, CleanUpHalts, LastRaised, CacheWords, LedgerWords;
  }

  lemma NothingSplit(r: Report)
    requires r.cache.attempts == []
    ensures AllSplit(r)
  {
  }

  lemma RepeatedOrNone(w: World, ps: seq<Package>, e: Error)
    requires ResolutionFailed(w, ps, e)
    ensures ps == [] || !DistinctNames(ps)
  {
    hide ResolvedAs, DistinctNames, ParsedAs;
  }

  lemma FrozenFresh(e: Report)
    requires Frozen(e)
    ensures Fresh(e.progress, e.packages) && e.packages != []
  {
    hide Fresh, NamedOnce, WellFormed, Ordered;
  }

  lemma FinishNamed(w: World, r: Report, after: Entries, now: Entries, error: Option<Error>)
    requires r.failure.Some? ==>
      error.Some? && FinishFailed(w, r.packages, r.passed, r.failure.value.substage, after, now, error.value)
    ensures r.failure.Some? ==> r.failure.value.substage.CacheVerification? || r.failure.value.substage.LocalValidationStage?
  {
    hide BuildFailed, Built, LocallyValid, HandOverFailed, ValidationFailed;
  }

  lemma AnchorSelects(a: Anchor)
    requires AnchorAccepted(a)
    ensures a.selected.Some?
  {
  }
}
