/** The course of a closure run as the world decides it: what each stage needs to go through, why it fails,
    and what the report of the run shows of it. */
module ClosureCourse {
  import opened Results
  import opened Errors
  import opened Diagnosis
  import opened Ordering
  import opened Packages
  import opened PackageCache
  import opened CacheAuditing
  import opened ProgressLedger
  import opened BatchPlan
  import opened Mirrors
  import opened ClosureReport
  import opened ResolvedRows
  import opened Acquisition
  import opened AcquisitionEvidence
  import opened LedgerTotals
  import opened RunEvidence
  import opened ClosureRun
  import opened PrefetchRun
  import opened ClosureStart
  import opened ClosureEvidence
  import opened SecurityGate

  /** Reading the mirrorlist, external commands, mounts and the last write of the evidence, any of which may raise. */
  datatype Command =
    | ReadMirrorlist | ClaimDatabases | FreezeDatabases | ResolveNetwork | BuildRepository | LockConfig
    | SyncLocal | FetchLocal | RestoreOwner | LockCacheSource | LockCacheTarget | WriteEvidence

  /** Everything outside the closure code: inputs, mirrors, network and tools. */
  datatype World = World(
    configPath: string, configSha256: string, frozenSha256: string,
    cachePath: string,
    targets: seq<string>,
    lines: seq<Line>,
    answer: nat -> Answer,
    reading: Reading,
    rows: seq<Row>,
    network: Network,
    localRows: seq<Row>,
    refetched: Entries -> Entries,
    errors: Command -> Option<Error>)
  {
    predicate raises(c: Command) { errors(c).Some? }
  }

  /** Digests are digests, and the databases a mirror lacks are some of the three. */
  ghost predicate Sane(w: World) {
    && IsSha256(w.configSha256) && IsSha256(w.frozenSha256) && Hexadecimal(w.reading)
    && forall k :: w.answer(k).Lacks? ==> SomeRepositories(w.answer(k).databases)
  }

  predicate SomeRepositories(names: seq<string>) { names != [] && forall n :: n in names ==> n in FROZEN_REPOSITORIES }

  /** The manifest was loaded: a loader that accepts only the locked path gave the configuration. */
  predicate Loaded(w: World) { w.configPath == STABLE_PACMAN_CONFIG }

  function NoCacheEvidence(): CacheEvidence {
    CacheEvidence(None, 0, 0, 0, false, 0, 0, 0, 0, 0, [], [], false, false, false)
  }

  function NoGate(): Gate { Gate(false, false, 0, false, false, false, false, false, false, false, false, false) }

  function NoAnchor(): Anchor { Anchor(AnchorPending, None, [], 0, false) }

  function EmptyReport(w: World): Report {
    Report(false, None, [], [], [], SummaryOf([]), NoCacheEvidence(), NoGate(),
           NetworkConfig(w.configPath, w.configSha256), None, None, NoAnchor())
  }

  // ---- anchor and resolution ----

  /** The mirrorlist could not be read, or offers no candidates. */
  ghost predicate ListFailed(w: World, e: Error) {
    if w.raises(ReadMirrorlist) then w.errors(ReadMirrorlist) == Some(e)
    else Unlistable(w.lines) && ListProblem(w.lines).Some? && e == ListText(ListProblem(w.lines).value)
  }

  /** The candidates of the mirrorlist. */
  ghost predicate Offers(w: World, candidates: seq<Mirror>) {
    candidates != [] && Candidates(w.lines, candidates) && !Unlistable(w.lines) && !w.raises(ReadMirrorlist)
  }

  /** The first healthy candidate is the anchor and the databases are locked. */
  ghost predicate Synchronised(w: World, a: Anchor, candidates: seq<Mirror>) {
    && Offers(w, candidates) && !w.raises(ClaimDatabases) && !w.raises(FreezeDatabases)
    && a.selected.Some? && Probed(w.answer, candidates, a.attempts, a.selected)
    && a == Anchor(AnchorPassed, a.selected, a.attempts, |candidates|, true)
  }

  const NO_ANCHOR := "no healthy Artix HTTPS anchor supplied system/world/galaxy repository databases"

  /** A command on the databases raised, a probe broke off, or no candidate was healthy. */
  ghost predicate SyncFailed(w: World, a: Anchor, candidates: seq<Mirror>, e: Error) {
    && Offers(w, candidates)
    && if w.raises(ClaimDatabases) then
         w.errors(ClaimDatabases) == Some(e) && a == Anchor(AnchorPending, None, [], |candidates|, false)
       else
         || (BrokeOff(w.answer, candidates, e) && a == Anchor(AnchorPending, None, [], |candidates|, false))
         || (Probed(w.answer, candidates, a.attempts, None) && e == Plain(NO_ANCHOR)
             && a == Anchor(AnchorFailed, None, a.attempts, |candidates|, false))
         || (a.selected.Some? && Probed(w.answer, candidates, a.attempts, a.selected) && w.errors(FreezeDatabases) == Some(e)
             && a == Anchor(AnchorSelected, a.selected, a.attempts, |candidates|, false))
  }

  function NamesOf(ps: seq<Package>): set<string> { set p | p in ps :: p.name }

  /** The targets, in order, that no package of the closure is named after. */
  function Omitted(targets: seq<string>, ps: seq<Package>): seq<string> {
    if targets == [] then []
    else (if targets[0] in NamesOf(ps) then [] else [targets[0]]) + Omitted(targets[1..], ps)
  }

  /** The closure the printed rows stand for. */
  ghost predicate ParsedAs(w: World, ps: seq<Package>) {
    && w.rows != [] && AllGood(w.reading, w.rows)
    && ps != [] && Firsts(w.reading, w.rows, ps) && IsSorted(ps, ByVersion)
  }

  ghost predicate ResolvedAs(w: World, ps: seq<Package>) {
    !w.raises(ResolveNetwork) && ParsedAs(w, ps) && Omitted(w.targets, ps) == []
  }

  const OMITTED := "package closure omitted explicit targets: "

  /** Nothing was resolved, or the closure names a file twice. */
  ghost predicate ResolutionFailed(w: World, ps: seq<Package>, e: Error) {
    if ps != [] then
      ResolvedAs(w, ps) && !DistinctNames(ps) && RepeatError(ps).Some? && e == LedgerText(RepeatError(ps).value)
    else if w.raises(ResolveNetwork) then w.errors(ResolveNetwork) == Some(e)
    else
      || ((w.rows == [] || !AllGood(w.reading, w.rows))
          && RowProblem(w.reading, w.rows).Some? && e == RowText(w.reading, RowProblem(w.reading, w.rows).value))
      || exists parsed ::
           ParsedAs(w, parsed) && Omitted(w.targets, parsed) != [] && e == Plain(OMITTED + Joined(Omitted(w.targets, parsed), ", "))
  }

  // ---- audit, plan and acquisition ----

  /** The ledger after the audit, and what the audit found. */
  ghost predicate Reconciles(ps: seq<Package>, initial: seq<Record>, start: seq<Record>, a: CacheAudit) {
    && Members(a.reused) !! Members(a.pending) && Members(a.reused) + Members(a.pending) == NameSet(ps)
    && |Members(a.reused)| == |a.reused| == a.reusedCount && |Members(a.pending)| == |a.pending| == a.pendingCount
    && start == Reconciled(initial, Members(a.reused), Members(a.corruptRemoved) * RecordNames(initial))
  }

  /** What an acquisition went through: the audit and the cache it left, the ledger before and after
      reconciliation, the plan, the mirrors, the rounds and the cache they left. */
  datatype Journey = Journey(
    audit: CacheAudit, audited: Entries, initial: seq<Record>, start: seq<Record>,
    batches: seq<seq<Package>>, mirrors: seq<Mirror>, rounds: seq<Round>, fetched: Entries)

  ghost predicate AuditOf(before: Entries, after: Entries, ps: seq<Package>, r: Result<CacheAudit, CacheError>) {
    && AuditOutcome(before, after, ps, r)
    && AuditHalt(before, Sort(ps, ByFilename), {}) == (if r.Failure? then Some(r.error) else None)
    && (SuffixFree(ps) && DistinctNames(ps) ==> DecidedAtStart(before, after, ps, r))
  }

  /** The report shows an acquisition with this journey that ended with r. */
  ghost predicate Acquiring(w: World, e: Report, candidates: seq<Mirror>, before: Entries, j: Journey, r: Result<set<string>, Stop>) {
    && AuditOf(before, j.audited, e.packages, Success(j.audit))
    && Fresh(j.initial, e.packages) && Reconciles(e.packages, j.initial, j.start, j.audit)
    && IsPlan(Sort(Select(e.packages, Members(j.audit.pending)), ByIdentity), j.batches, BATCH_LIMIT_BYTES)
    && e.anchor.selected.Some? && AnchorFirst(candidates, e.anchor.selected.value, MAX_MIRROR_ATTEMPTS, j.mirrors)
    && Rounds(j.start, j.batches, j.mirrors, w.network, j.audited, j.fetched, e.cache.attempts, j.rounds)
    && RoundsEnd(j.batches, j.rounds, r)
    && e.progress == Replay(j.start, e.cache.attempts)
    && e.cache.audit == Some(j.audit) && e.cache.mirrors == j.mirrors && e.cache.batchCount == |j.batches|
    && e.cache.completedBatches == (if r.Success? then |j.batches| else |j.rounds| - 1)
    && (r.Success? && SuffixFree(e.packages) && NetworkKeeps(w.network, e.packages) ==> AllMatch(j.fetched, e.packages))
  }

  ghost predicate AllMatch(e: Entries, ps: seq<Package>) { forall p :: p in ps ==> Verified(e, p) }

  /** The journey stopped in its last round, with what that round raised. */
  ghost predicate JourneyError(dir: string, j: Journey, e: Error) {
    && j.rounds != [] && |j.rounds| <= |j.batches|
    && RoundError(dir, j.start, |j.rounds|, |j.batches|, j.batches[|j.rounds| - 1], j.mirrors, j.rounds[|j.rounds| - 1], e)
  }

  // ---- local repository, validation and hand-over ----

  datatype IncompleteError =
    | NothingResolved | FileMissing(name: string) | FileMismatch(name: string, sha256: string) | NotCovered | Unresolved

  /** The first archive that does not match, and how. */
  function FirstUnverified(e: Entries, ps: seq<Package>): Option<IncompleteError> {
    if ps == [] then None
    else if !IsFile(e, ps[0].filename) then Some(FileMissing(ps[0].filename))
    else if Digest(e, ps[0].filename) != ps[0].sha256 then Some(FileMismatch(ps[0].filename, Digest(e, ps[0].filename)))
    else FirstUnverified(e, ps[1..])
  }

  function IncompleteText(e: IncompleteError): Error {
    match e
    case NothingResolved => Plain("repository closure cannot cross the local-repository boundary with no packages")
    case FileMissing(n) => Plain("prefetched package file is missing: " + n)
    case FileMismatch(n, found) => Plain("prefetched package SHA-256 mismatch for " + n + ": " + found)
    case NotCovered => Plain("package progress does not cover the complete frozen package closure")
    case Unresolved =>
      Plain("repository closure cannot construct the local repository until every frozen package is verified")
  }

  /** Some archive does not match. */
  ghost predicate Unmatched(ps: seq<Package>, entries: Entries, e: Error) {
    !AllMatch(entries, ps) && FirstUnverified(entries, ps).Some? && e == IncompleteText(FirstUnverified(entries, ps).value)
  }

  ghost predicate Built(w: World, ps: seq<Package>, after: Entries) {
    !w.raises(BuildRepository) && !w.raises(LockConfig) && AllMatch(after, ps)
  }

  ghost predicate BuildFailed(w: World, ps: seq<Package>, after: Entries, e: Error) {
    || Unmatched(ps, after, e)
    || (AllMatch(after, ps) && w.errors(BuildRepository) == Some(e))
    || (AllMatch(after, ps) && !w.raises(BuildRepository) && w.errors(LockConfig) == Some(e))
  }

  /** The rows resolve to the same closure. */
  ghost predicate ResolvesAlike(reading: Reading, rows: seq<Row>, ps: seq<Package>) {
    && rows != [] && AllGood(reading, rows)
    && exists qs :: Firsts(reading, rows, qs) && IsSorted(qs, ByVersion) && ClosureIdentity(qs) == ClosureIdentity(ps)
  }

  const DIFFERENT := "frozen local repository resolves a different package closure than the fresh network database"

  /** The rows stand for no closure, or for another one. */
  ghost predicate ResolvesOtherwise(reading: Reading, rows: seq<Row>, ps: seq<Package>, e: Error) {
    || ((rows == [] || !AllGood(reading, rows)) && RowProblem(reading, rows).Some? && e == RowText(reading, RowProblem(reading, rows).value))
    || (rows != [] && AllGood(reading, rows) && e == Plain(DIFFERENT)
        && exists qs :: Firsts(reading, rows, qs) && IsSorted(qs, ByVersion) && ClosureIdentity(qs) != ClosureIdentity(ps))
  }

  ghost predicate ValidationFailed(w: World, ps: seq<Package>, after: Entries, now: Entries, e: Error) {
    || (now == after && w.errors(SyncLocal) == Some(e))
    || (now == after && !w.raises(SyncLocal) && ResolvesOtherwise(w.reading, w.localRows, ps, e))
    || (now == w.refetched(after) && !w.raises(SyncLocal) && ResolvesAlike(w.reading, w.localRows, ps)
        && (w.errors(FetchLocal) == Some(e) || (!w.raises(FetchLocal) && Unmatched(ps, now, e))))
  }

  ghost predicate LocallyValid(w: World, ps: seq<Package>, after: Entries, now: Entries) {
    && Built(w, ps, after) && !w.raises(SyncLocal) && !w.raises(FetchLocal)
    && ResolvesAlike(w.reading, w.localRows, ps) && now == w.refetched(after) && AllMatch(now, ps)
  }

  /** Ownership, mounts and the last write of the evidence work, and the manifest was loaded. */
  predicate HandsOver(w: World) {
    !w.raises(RestoreOwner) && !w.raises(LockCacheSource) && !w.raises(LockCacheTarget) && !w.raises(WriteEvidence) && Loaded(w)
  }

  const UNLOCKED_CONFIG := "buildiso security boundary lacks the locked stable pacman configuration identity"

  /** A mount or the ownership failed, the gate refused, or the evidence could not be written. */
  ghost predicate HandOverFailed(w: World, passed: bool, e: Error) {
    if w.raises(RestoreOwner) then !passed && w.errors(RestoreOwner) == Some(e)
    else if w.raises(LockCacheSource) then !passed && w.errors(LockCacheSource) == Some(e)
    else if w.raises(LockCacheTarget) then !passed && w.errors(LockCacheTarget) == Some(e)
    else passed && if Loaded(w) then w.errors(WriteEvidence) == Some(e) else e == Plain(UNLOCKED_CONFIG)
  }

  /** From the complete cache to the end of a run that fails. */
  ghost predicate FinishFailed(w: World, ps: seq<Package>, passed: bool, s: Substage, after: Entries, now: Entries, e: Error) {
    match s
    case CacheVerification =>
      || (!passed && now == after && BuildFailed(w, ps, after, e))
      || (LocallyValid(w, ps, after, now) && HandOverFailed(w, passed, e))
    case LocalValidationStage => !passed && Built(w, ps, after) && ValidationFailed(w, ps, after, now, e)
    case _ => false
  }

  // ---- the whole run ----

  ghost predicate Prepared(w: World, before: Entries, r: Report, candidates: seq<Mirror>, j: Journey, end: Result<set<string>, Stop>) {
    Synchronised(w, r.anchor, candidates) && ResolvedAs(w, r.packages) && Acquiring(w, r, candidates, before, j, end)
  }

  /** A run whose stage s failed with an error, and why. */
  ghost predicate StoppedAt(w: World, before: Entries, now: Entries, r: Report, s: Substage, e: Error) {
    match s
    case MirrorSelection => now == before && ListFailed(w, e) && r == FailedReport(EmptyReport(w), s, e)
    case RepositorySync =>
      && now == before && r == FailedReport(EmptyReport(w).(anchor := r.anchor), s, e)
      && exists candidates :: SyncFailed(w, r.anchor, candidates, e)
    case Resolution =>
      && now == before && !r.passed && r.progress == [] && r.cache == NoCacheEvidence()
      && ResolutionFailed(w, r.packages, e) && exists candidates :: Synchronised(w, r.anchor, candidates)
    case Acquisition =>
      && !r.passed
      && exists candidates, j, stop ::
           Prepared(w, before, r, candidates, j, Failure(stop)) && JourneyError(w.cachePath, j, e) && now == j.fetched
    case LocalValidationStage => FinishStopped(w, before, now, r, s, e)
    case CacheVerification =>
      if r.cache.audit.None? then
        && !r.passed && r.cache == NoCacheEvidence() && ResolvedAs(w, r.packages) && Fresh(r.progress, r.packages)
        && (exists candidates :: Synchronised(w, r.anchor, candidates))
        && exists halt :: AuditOf(before, now, r.packages, Failure(halt)) && e == CacheText(w.cachePath, halt)
      else FinishStopped(w, before, now, r, s, e)
  }

  ghost predicate FinishStopped(w: World, before: Entries, now: Entries, r: Report, s: Substage, e: Error) {
    exists candidates, j, found ::
      Prepared(w, before, r, candidates, j, Success(found)) && FinishFailed(w, r.packages, r.passed, s, j.fetched, now, e)
  }

  /** A run in which nothing failed. */
  ghost predicate Completed(w: World, before: Entries, now: Entries, r: Report) {
    && HandsOver(w)
    && exists candidates, j, found ::
      Prepared(w, before, r, candidates, j, Success(found)) && LocallyValid(w, r.packages, j.fetched, now)
  }

  /** How a run from the cache before to the cache now went, by its report: nothing failed, or one stage did and the
      failure is the diagnosis of the error it raised. */
  ghost predicate Went(w: World, before: Entries, now: Entries, r: Report) {
    && r.network == NetworkConfig(w.configPath, w.configSha256)
    && match r.failure
       case None => r.passed && Completed(w, before, now, r)
       case Some(f) => exists e :: Blames(r, f.substage, e) && StoppedAt(w, before, now, r, f.substage, e)
  }

  // ---- what the evidence of a failed run must add up to ----

  /** No name is another's side file, and no fetch loses a matching archive or leaves a directory beside one. */
  ghost predicate NothingLost(w: World, ps: seq<Package>) {
    SuffixFree(ps) && NetworkKeeps(w.network, ps) && NetworkClear(w.network, ps)
  }

  function Unaudited(e: Report): set<string> { if e.cache.audit.Some? then Members(e.cache.audit.value.pending) else {} }

  /** In the first batch that is not complete the cache holds as many archives as the ledger counts. */
  ghost predicate CountedAlike(e: Report, now: Entries) {
    exists plan :: IsPlan(Sort(Select(e.packages, Unaudited(e)), ByIdentity), plan, BATCH_LIMIT_BYTES)
      && e.cache.completedBatches < |plan| && SameCount(now, e.progress, plan[e.cache.completedBatches])
  }

  /** The lists of every attempt split its request. */
  ghost predicate AllSplit(e: Report) { forall ba :: ba in e.cache.attempts ==> Partitions(ba.attempt) }

  ghost predicate AddsUp(e: Report, now: Entries, s: Substage) {
    NamedOnce(e.packages) && AllSplit(e) && (s.Acquisition? ==> CountedAlike(e, now))
  }

  /** What the outer validator and the gate make of a report: a passing one without a failure goes through both,
      a failed one is accepted exactly when its cause agrees, its detail says something and its evidence adds up. */
  ghost predicate Verdict(r: Report, now: Entries) {
    if r.passed then (Accepted(r) <==> r.failure.None?) && (r.failure.None? ==> MayBuild(r))
    else r.failure.Some? && (Accepted(r) <==> CauseAgrees(r) && Told(r) && AddsUp(r, now, r.failure.value.substage))
  }

  /** The plan is unique, so the stopped batch is the one the evidence points at. */
  lemma StoppedBatchCounts(e: Report, now: Entries, batches: seq<seq<Package>>, i: nat)
    requires e.cache.audit.Some? && i < |batches| && e.cache.completedBatches == i
    requires IsPlan(Sort(Select(e.packages, Members(e.cache.audit.value.pending)), ByIdentity), batches, BATCH_LIMIT_BYTES)
    ensures CountedAlike(e, now) <==> SameCount(now, e.progress, batches[i])
  {
    hide IsPlan, SameCount;
    if CountedAlike(e, now) {
      var plan :| IsPlan(Sort(Select(e.packages, Unaudited(e)), ByIdentity), plan, BATCH_LIMIT_BYTES)
        && e.cache.completedBatches < |plan| && SameCount(now, e.progress, plan[e.cache.completedBatches]);
      PlanIsUnique(Sort(Select(e.packages, Unaudited(e)), ByIdentity), plan, batches, BATCH_LIMIT_BYTES);
    }
  }
}
