/** The repository-closure evidence, and what the outer validator demands of it.  The predicates
    here are stated on the evidence alone; they know nothing of how a run produces it. */
module ClosureReport {
  import opened Results
  import opened Errors
  import opened Ordering
  import opened Packages
  import opened ProgressLedger
  import opened BatchPlan
  import opened Mirrors
  import opened CacheAuditing

  datatype BatchAttempt = BatchAttempt(batch: nat, attempt: Attempt)

  datatype CacheEvidence = CacheEvidence(
    audit: Option<CacheAudit>,
    reusedCount: nat,
    downloadedCount: int,
    verifiedCount: nat,
    prefetchRecorded: bool,
    pendingCount: nat,
    batchLimit: nat,
    batchCount: nat,
    completedBatches: nat,
    mirrorLimit: nat,
    mirrors: seq<Mirror>,
    attempts: seq<BatchAttempt>,
    sourceReadOnly: bool,
    readOnly: bool,
    ownerRestored: bool)

  datatype Gate = Gate(
    passed: bool,
    allPackagesVerified: bool,
    verifiedPackageCount: nat,
    databasesImmutable: bool,
    localRepositoryConstructed: bool,
    localRepositoryReadOnly: bool,
    pacmanConfigReadOnly: bool,
    localResolutionMatches: bool,
    postValidationCacheVerified: bool,
    cacheOwnerRestored: bool,
    cacheSourceReadOnly: bool,
    cacheReadOnly: bool)

  datatype NetworkConfig = NetworkConfig(path: string, sha256: string)

  datatype FrozenConfig = FrozenConfig(path: string, sha256: string, server: string, networkEnabled: bool, readOnly: bool)

  datatype LocalValidation = LocalValidation(
    resolvedPackageCount: nat,
    resolutionMatches: bool,
    packageFilesVerified: bool,
    repositoryReadOnly: bool,
    cacheReverified: bool,
    networkEnabled: bool)

  datatype AnchorStatus = AnchorPending | AnchorSelected | AnchorPassed | AnchorFailed

  datatype Anchor = Anchor(
    status: AnchorStatus, selected: Option<Mirror>, attempts: seq<Probe>, candidateCount: nat, syncLocked: bool)

  datatype Substage =
    | MirrorSelection | RepositorySync | Resolution | Acquisition | CacheVerification | LocalValidationStage

  datatype Cause =
    | InterruptedCause | TimeoutCause | TlsEof | TlsFailure | Http404 | HashMismatch | SignatureFailure
    | DnsCause | ConnectionCause | NoEligibleMirror | MirrorConfiguration | RepositoryUnavailable
    | ResolutionIncomplete | ResolutionMismatch | MissingFile | VerificationIncompleteCause
    | ProcessFailedCause | RuntimeErrorCause

  datatype Context = Context(batch: Option<nat>, attempt: Option<nat>, mirror: Option<string>, line: Option<nat>)

  const NO_CONTEXT := Context(None, None, None, None)

  datatype FailureEvidence = FailureEvidence(substage: Substage, cause: Cause, detail: string, context: Context)

  datatype Report = Report(
    passed: bool,
    failure: Option<FailureEvidence>,
    packages: seq<Package>,
    cachedBefore: seq<bool>,
    progress: seq<Record>,
    summary: Summary,
    cache: CacheEvidence,
    gate: Gate,
    network: NetworkConfig,
    frozen: Option<FrozenConfig>,
    local: Option<LocalValidation>,
    anchor: Anchor)

  // ---- package progress, demanded of passing and of failed reports ----

  ghost predicate RecordAccepted(r: Record, ps: seq<Package>) {
    FlagsMatch(r) && DataMatches(r) && exists p :: p in ps && SameIdentity(r, p)
  }

  ghost predicate NamedOnce(ps: seq<Package>) {
    DistinctNames(ps) && forall p :: p in ps ==> p.filename != ""
  }

  ghost predicate ProgressAccepted(ps: seq<Package>, rs: seq<Record>, summary: Summary) {
    && NamedOnce(ps)
    && DistinctRecords(rs)
    && (forall r :: r in rs ==> RecordAccepted(r, ps))
    && RecordNames(rs) == NameSet(ps)
    && summary == SummaryOf(rs)
  }

  // ---- the cache audit of a passing report ----

  predicate IsSha256(s: string) {
    |s| == 64 && forall c :: c in s ==> '0' <= c <= '9' || 'a' <= c <= 'f'
  }

  const FROZEN_REPOSITORIES: seq<string> := ["system", "world", "galaxy"]

  predicate WellFormed(p: Package) {
    && p.repository in FROZEN_REPOSITORIES && p.name != "" && p.version != "" && p.filename != ""
    && IsSha256(p.sha256)
    && (p.signatureSha256.Some? ==> IsSha256(p.signatureSha256.value))
  }

  predicate AllFrom(names: seq<string>, allowed: set<string>) {
    NoDuplicates(names) && forall n :: n in names ==> n in allowed
  }

  function ArchivesAndSignatures(ps: seq<Package>): set<string> {
    NameSet(ps) + set p | p in ps :: Sig(p.filename)
  }

  function Partials(ps: seq<Package>): set<string> {
    (set p | p in ps :: Part(p.filename)) + set p | p in ps :: SigPart(p.filename)
  }

  function Signatures(ps: seq<Package>): set<string> { set p | p in ps :: Sig(p.filename) }

  ghost predicate AuditAccepted(ps: seq<Package>, cachedBefore: seq<bool>, reusedCount: nat, a: CacheAudit) {
    match a
    case CacheAudit(resolvedCount, auditReused, reused, auditPending, pending, corrupt, partial, detached) =>
      && NoDuplicates(reused) && NoDuplicates(pending)
      && Members(reused) !! Members(pending)
      && resolvedCount == |ps| && auditReused == |reused| && auditPending == |pending| && reusedCount == |reused|
      && (forall p :: p in ps ==> WellFormed(p)) && DistinctNames(ps)
      && |cachedBefore| == |ps|
      && (forall i :: 0 <= i < |ps| ==> cachedBefore[i] == (ps[i].filename in Members(reused)))
      && NameSet(ps) == Members(reused) + Members(pending)
      && AllFrom(corrupt, ArchivesAndSignatures(ps))
      && AllFrom(partial, Partials(ps))
      && AllFrom(detached, Signatures(ps))
  }

  // ---- mirror attempts of a passing report ----

  /** Names the clean-up after an attempt may have removed. */
  predicate AllowedRemoval(requested: seq<string>, e: string) {
    exists n :: n in requested && e in {n, Sig(n), Part(n), SigPart(n)}
  }

  predicate CountsAndBytes(names: seq<string>, count: nat, bytes: nat, ps: seq<Package>) {
    NoDuplicates(names) && |names| == count && bytes == BytesOf(ps, Members(names))
  }

  predicate AttemptAccepted(ba: BatchAttempt, ps: seq<Package>, batchCount: nat, mirrors: seq<Mirror>, limit: nat) {
    match ba.attempt
    case Attempt(number, mirror, requestedCount, requestedBytes, requested, verifiedCount, verifiedBytes, verified,
                 pendingCount, pendingBytes, pending, removed, passed, failureClass, _) =>
      && 1 <= ba.batch <= batchCount
      && 1 <= number <= limit && number <= |mirrors| && mirror == mirrors[number - 1]
      && requested != [] && Members(requested) <= NameSet(ps)
      && CountsAndBytes(requested, requestedCount, requestedBytes, ps)
      && CountsAndBytes(verified, verifiedCount, verifiedBytes, ps) && Members(verified) <= Members(requested)
      && CountsAndBytes(pending, pendingCount, pendingBytes, ps) && Members(pending) <= Members(requested)
      && (passed <==> failureClass.None?)
      && NoDuplicates(removed) && forall e :: e in removed ==> AllowedRemoval(requested, e)
  }

  function OfBatch(attempts: seq<BatchAttempt>, b: nat): seq<Attempt> {
    if attempts == [] then []
    else
      OfBatch(attempts[..|attempts| - 1], b)
      + if attempts[|attempts| - 1].batch == b then [attempts[|attempts| - 1].attempt] else []
  }

  function SelectNames(names: seq<string>, keep: set<string>): seq<string> {
    if names == [] then [] else (if names[0] in keep then [names[0]] else []) + SelectNames(names[1..], keep)
  }

  predicate Numbered(atts: seq<Attempt>) { forall j :: 0 <= j < |atts| ==> atts[j].number == j + 1 }

  predicate WithinBatch(a: Attempt, expected: seq<string>) {
    Members(a.requested) <= Members(expected) && SelectNames(expected, Members(a.requested)) == a.requested
  }

  predicate BatchAccepted(atts: seq<Attempt>, expected: seq<string>) {
    && atts != []
    && atts[0].requested == expected
    && (forall a :: a in atts ==> WithinBatch(a, expected))
    && Numbered(atts)
    && atts[|atts| - 1].passed && atts[|atts| - 1].pendingCount == 0
  }

  ghost predicate BatchesAccepted(ps: seq<Package>, pending: seq<string>, limit: nat, count: nat, attempts: seq<BatchAttempt>) {
    exists plan ::
      && IsPlan(Sort(Select(ps, Members(pending)), ByIdentity), plan, limit)
      && |plan| == count
      && forall b :: 1 <= b <= count ==> BatchAccepted(OfBatch(attempts, b), Names(plan[b - 1]))
  }

  ghost predicate PrefetchAccepted(ps: seq<Package>, pending: seq<string>, anchor: Option<Mirror>, c: CacheEvidence) {
    && c.mirrorLimit == MAX_MIRROR_ATTEMPTS && c.batchLimit == BATCH_LIMIT_BYTES
    && c.mirrors != [] && |c.mirrors| <= c.mirrorLimit
    && c.completedBatches == c.batchCount && c.pendingCount == 0
    && Forward(c.mirrors) && Some(c.mirrors[0]) == anchor
    && (forall a :: a in c.attempts ==> AttemptAccepted(a, ps, c.batchCount, c.mirrors, c.mirrorLimit))
    && BatchesAccepted(ps, pending, c.batchLimit, c.batchCount, c.attempts)
  }

  // ---- a passing report ----

  const STABLE_PACMAN_CONFIG := "/usr/share/artools/pacman.conf.d/iso-x86_64.conf"

  const LOCAL_SERVER := "file:///run/portus-build/repository-closure/repo"

  predicate GateOpen(g: Gate, count: nat) {
    && g.passed && g.allPackagesVerified && g.verifiedPackageCount == count
    && g.databasesImmutable && g.localRepositoryConstructed && g.localRepositoryReadOnly
    && g.pacmanConfigReadOnly && g.localResolutionMatches && g.postValidationCacheVerified
    && g.cacheOwnerRestored && g.cacheSourceReadOnly && g.cacheReadOnly
  }

  predicate ConfigsLocked(network: NetworkConfig, frozen: Option<FrozenConfig>, local: Option<LocalValidation>, count: nat) {
    && network.path == STABLE_PACMAN_CONFIG && IsSha256(network.sha256)
    && frozen.Some? && frozen.value.path == network.path && IsSha256(frozen.value.sha256)
    && !frozen.value.networkEnabled && frozen.value.readOnly && frozen.value.server == LOCAL_SERVER
    && local.Some? && local.value == LocalValidation(count, true, true, true, true, false)
  }

  predicate AnchorAccepted(a: Anchor) {
    && a.status.AnchorPassed? && a.syncLocked && a.attempts != [] && a.candidateCount >= |a.attempts|
    && a.selected.Some? && Usable(a.selected.value)
    && (forall i :: 0 <= i < |a.attempts| ==>
        Usable(a.attempts[i].mirror) && a.attempts[i].passed == (i == |a.attempts| - 1))
    && a.attempts[|a.attempts| - 1].mirror == a.selected.value
  }

  predicate CacheHandedOver(c: CacheEvidence, count: nat) {
    c.sourceReadOnly && c.readOnly && c.ownerRestored && c.verifiedCount == count && c.pendingCount == 0
  }

  predicate AllVerified(s: Summary, count: nat) {
    s.resolved.packages == count && s.verified.packages == count && s.pending.packages == 0
  }

  ghost predicate PassAccepted(r: Report) {
    && r.failure.None?
    && r.packages != [] && AllVerified(r.summary, |r.packages|)
    && GateOpen(r.gate, |r.packages|)
    && AnchorAccepted(r.anchor)
    && ConfigsLocked(r.network, r.frozen, r.local, |r.packages|)
    && CacheHandedOver(r.cache, |r.packages|)
    && r.cache.audit.Some? && AuditAccepted(r.packages, r.cachedBefore, r.cache.reusedCount, r.cache.audit.value)
    && PrefetchAccepted(r.packages, r.cache.audit.value.pending, r.anchor.selected, r.cache)
  }

  // ---- a failed report ----

  predicate CauseFitsStage(c: Cause, s: Substage) {
    match c
    case NoEligibleMirror => s.MirrorSelection?
    case MirrorConfiguration => s.MirrorSelection?
    case RepositoryUnavailable => s.RepositorySync?
    case ResolutionIncomplete => s.Resolution?
    case ResolutionMismatch => s.LocalValidationStage?
    case VerificationIncompleteCause => s.Acquisition?
    case _ => true
  }

  predicate CauseFitsClass(c: Cause, f: FailureClass) {
    match f
    case VerificationIncomplete => c.VerificationIncompleteCause?
    case Interrupted => c.InterruptedCause?
    case Timeout => c.TimeoutCause?
    case HttpNotFound => c.Http404?
    case Tls => c.TlsEof? || c.TlsFailure?
    case Dns => c.DnsCause?
    case Connection => c.ConnectionCause?
    case Integrity => c.HashMismatch? || c.SignatureFailure?
    case ProcessFailed => c.ProcessFailedCause?
    case RuntimeError => c.RuntimeErrorCause?
  }

  predicate EndsInFailedAttempt(attempts: seq<BatchAttempt>) {
    attempts != [] && !attempts[|attempts| - 1].attempt.passed
  }

  predicate EndsInFailedProbe(a: Anchor) {
    a.status.AnchorFailed? && a.attempts != [] && !a.attempts[|a.attempts| - 1].passed
  }

  /** The context a failure at this stage must carry. */
  function RequiredContext(r: Report, s: Substage): Context {
    if s.Acquisition? && EndsInFailedAttempt(r.cache.attempts) then
      var last := r.cache.attempts[|r.cache.attempts| - 1];
      Context(Some(last.batch), Some(last.attempt.number), Some(last.attempt.mirror.server), None)
    else if s.RepositorySync? && EndsInFailedProbe(r.anchor) then
      var last := r.anchor.attempts[|r.anchor.attempts| - 1];
      Context(None, Some(|r.anchor.attempts|), Some(last.mirror.server), Some(last.mirror.line))
    else NO_CONTEXT
  }

  predicate TotalsAgree(c: CacheEvidence, s: Summary) {
    && c.verifiedCount == s.verified.packages && c.pendingCount == s.pending.packages
    && c.reusedCount <= c.verifiedCount && c.downloadedCount == c.verifiedCount - c.reusedCount
  }

  ghost predicate AttemptAccounted(ba: BatchAttempt, ps: seq<Package>) {
    match ba.attempt
    case Attempt(number, mirror, requestedCount, requestedBytes, requested, verifiedCount, verifiedBytes, verified,
                 pendingCount, pendingBytes, pending, removed, passed, failureClass, _) =>
      && ValidContext(ba.batch, ba.attempt)
      && requested != [] && Members(requested) <= NameSet(ps)
      && Partitions(ba.attempt)
      && CountsAndBytes(requested, requestedCount, requestedBytes, ps)
      && CountsAndBytes(verified, verifiedCount, verifiedBytes, ps)
      && CountsAndBytes(pending, pendingCount, pendingBytes, ps)
  }

  predicate Mentions(ba: BatchAttempt, n: string) { n in ba.attempt.verified || n in ba.attempt.pending }

  /** The record says what the attempt found. */
  predicate Shows(r: Record, ba: BatchAttempt) {
    && r.batch == Some(ba.batch) && r.attempt == Some(ba.attempt.number) && r.mirror == Some(ba.attempt.mirror.server)
    && (if r.filename in ba.attempt.pending
        then r.state.Failed? && !r.verified && r.needsAcquisition && r.failureClass == ba.attempt.failureClass
        else r.state.DownloadedVerified? && r.verified && !r.needsAcquisition && r.failureClass.None?)
  }

  predicate IsLatest(attempts: seq<BatchAttempt>, k: nat, n: string) {
    k < |attempts| && Mentions(attempts[k], n) && forall j :: k < j < |attempts| ==> !Mentions(attempts[j], n)
  }

  /** Every record an attempt mentions shows the latest attempt that mentions it. */
  ghost predicate LatestWins(rs: seq<Record>, attempts: seq<BatchAttempt>) {
    forall r, k: nat :: r in rs && IsLatest(attempts, k, r.filename) ==> Shows(r, attempts[k])
  }

  ghost predicate AttemptsAccounted(ps: seq<Package>, rs: seq<Record>, attempts: seq<BatchAttempt>) {
    && (forall ba :: ba in attempts ==> AttemptAccounted(ba, ps))
    && (forall b :: Numbered(OfBatch(attempts, b)))
    && LatestWins(rs, attempts)
  }

  predicate CauseFits(r: Report, f: FailureEvidence) {
    && CauseFitsStage(f.cause, f.substage)
    && (f.substage.Acquisition? && EndsInFailedAttempt(r.cache.attempts) ==>
        var found := r.cache.attempts[|r.cache.attempts| - 1].attempt.failureClass;
        found.Some? && CauseFitsClass(f.cause, found.value))
  }

  /** The detail says something and is not too long. */
  predicate DetailAllowed(detail: string) { !Blank(detail) && |detail| <= DETAIL_LIMIT }

  predicate ContextAllowed(c: Context) {
    && (c.batch.Some? ==> c.batch.value >= 1)
    && (c.attempt.Some? ==> c.attempt.value >= 1)
    && (c.line.Some? ==> c.line.value >= 1)
    && (c.mirror.Some? ==> IsHttps(c.mirror.value))
  }

  ghost predicate FailAccepted(r: Report) {
    && r.failure.Some?
    && DetailAllowed(r.failure.value.detail) && ContextAllowed(r.failure.value.context)
    && FailConsistent(r)
  }

  /** The failure agrees with the recorded packages, probes and attempts. */
  ghost predicate FailConsistent(r: Report)
    requires r.failure.Some?
  {
    && CauseFits(r, r.failure.value)
    && r.failure.value.context == RequiredContext(r, r.failure.value.substage)
    && (r.cache.prefetchRecorded || r.cache.attempts != [] ==> TotalsAgree(r.cache, r.summary))
    && AttemptsAccounted(r.packages, r.progress, r.cache.attempts)
  }

  /** Everything validate_repository_closure_report insists on, of the parts modelled here. */
  ghost predicate Accepted(r: Report) {
    && ProgressAccepted(r.packages, r.progress, r.summary)
    && if r.passed then PassAccepted(r) else FailAccepted(r)
  }
}
