/** The outer validator's walk over a whole report: it plans the batches again, groups the attempts
    by batch and checks each group, and accepts exactly the reports of ClosureReport.Accepted. */
module ReportValidator {
  import opened Results
  import opened Errors
  import opened Ordering
  import opened Packages
  import opened CacheAuditing
  import opened ProgressLedger
  import opened BatchPlan
  import opened Mirrors
  import opened ClosureReport
  import opened ProgressValidator
  import opened FailureValidator

  // ---- the cache audit ----

  predicate AuditListsPass(ps: seq<Package>, reusedCount: nat, a: CacheAudit) {
    && NoDuplicates(a.reused) && NoDuplicates(a.pending)
    && Members(a.reused) !! Members(a.pending)
    && a.resolvedCount == |ps| && a.reusedCount == |a.reused| && a.pendingCount == |a.pending| && reusedCount == |a.reused|
  }

  method ValidateAudit(ps: seq<Package>, cachedBefore: seq<bool>, reusedCount: nat, a: CacheAudit) returns (ok: bool)
    ensures ok <==> AuditAccepted(ps, cachedBefore, reusedCount, a)
  {
    hide WellFormed, DistinctNames, AllFrom, NoDuplicates, Partials, Signatures, ArchivesAndSignatures;
    if !AuditListsPass(ps, reusedCount, a) || |cachedBefore| != |ps| { return false; }
    var names: set<string> := {};
    assert DistinctNames(ps[..0]) by { NoNames(ps); }
    for i := 0 to |ps|
      invariant names == NameSet(ps[..i]) && DistinctNames(ps[..i])
      invariant forall p :: p in ps[..i] ==> WellFormed(p)
      invariant forall j :: 0 <= j < i ==> cachedBefore[j] == (ps[j].filename in Members(a.reused))
    {
      PrefixSplit(ps, i);
      assert ps[i] in ps;
      if !WellFormed(ps[i]) || ps[i].filename in names { return false; }
      PrefixDistinct(ps, i);
      names := names + {ps[i].filename};
      if cachedBefore[i] != (ps[i].filename in Members(a.reused)) { return false; }
    }
    assert ps[..|ps|] == ps;
    return names == Members(a.reused) + Members(a.pending)
      && AllFrom(a.corruptRemoved, ArchivesAndSignatures(ps))
      && AllFrom(a.partialRemoved, Partials(ps))
      && AllFrom(a.detachedRemoved, Signatures(ps));
  }

  lemma NoNames(ps: seq<Package>)
    ensures DistinctNames(ps[..0])
  {
  }

  // ---- the batches, planned a second time ----

  function NamesOfEach(batches: seq<seq<Package>>): (r: seq<seq<string>>)
    ensures |r| == |batches| && forall i :: 0 <= i < |batches| ==> r[i] == Names(batches[i])
  {
    seq(|batches|, i requires 0 <= i < |batches| => Names(batches[i]))
  }

  lemma NamesOfEachAppend(batches: seq<seq<Package>>, b: seq<Package>)
    ensures NamesOfEach(batches + [b]) == NamesOfEach(batches) + [Names(b)]
  {
  }

  lemma NamesAppend(b: seq<Package>, p: Package)
    ensures Names(b + [p]) == Names(b) + [p.filename]
  {
  }

  method ExpectedBatches(ordered: seq<Package>, limit: nat) returns (expected: seq<seq<string>>)
    ensures exists plan :: IsPlan(ordered, plan, limit) && expected == NamesOfEach(plan)
  {
    hide Building, IsPlan, Names, Bytes, NamesOfEach;
    expected := [];
    var current: seq<string> := [];
    var currentBytes := 0;
    ghost var batch: seq<Package> := [];
    ghost var plan: seq<seq<Package>> := [];
    EmptyPlan(limit);
    NothingNamed();
    for i := 0 to |ordered|
      invariant expected == NamesOfEach(plan) && current == Names(batch) && |current| == |batch|
      invariant currentBytes == Bytes(batch) <= limit
      invariant Building(ordered[..i], plan, batch, limit)
    {
      var package := ordered[i];
      assert ordered[..i + 1] == ordered[..i] + [package];
      if current != [] && currentBytes + package.sizeBytes > limit {
        NextBatch(ordered[..i], plan, batch, package, limit);
        NamesOfEachAppend(plan, batch);
        expected := expected + [current];
        plan, batch := plan + [batch], [];
        current, currentBytes := [], 0;
      } else {
        ExtendBatch(ordered[..i], plan, batch, package, limit);
      }
      BytesAppend(batch, package);
      NamesAppend(batch, package);
      assert [] + [package] == [package];
      current := current + [package.filename];
      batch := batch + [package];
      currentBytes := currentBytes + package.sizeBytes;
      if package.sizeBytes > limit {
        OversizeBatch(ordered[..i + 1], plan, batch, limit);
        NamesOfEachAppend(plan, batch);
        expected := expected + [current];
        plan, batch := plan + [batch], [];
        current, currentBytes := [], 0;
      }
    }
    assert ordered[..|ordered|] == ordered;
    BuildingDone(ordered, plan, batch, limit);
    if current != [] {
      NamesOfEachAppend(plan, batch);
      expected := expected + [current];
      plan := plan + [batch];
    }
  }

  lemma NothingNamed()
    ensures NamesOfEach([]) == [] && Names([]) == [] && Bytes([]) == 0
  {
  }

  // ---- the attempts ----

  ghost predicate GroupedAttempts(attempts: seq<BatchAttempt>, groups: map<nat, seq<Attempt>>) {
    forall b: nat :: OfBatch(attempts, b) == GroupOf(groups, b)
  }

  function GroupOf(groups: map<nat, seq<Attempt>>, b: nat): seq<Attempt> { if b in groups then groups[b] else [] }

  lemma GroupsExtend(attempts: seq<BatchAttempt>, groups: map<nat, seq<Attempt>>, ba: BatchAttempt)
    requires GroupedAttempts(attempts, groups)
    ensures GroupedAttempts(attempts + [ba], groups[ba.batch := GroupOf(groups, ba.batch) + [ba.attempt]])
  {
    assert (attempts + [ba])[..|attempts|] == attempts;
    forall b: nat ensures OfBatch(attempts + [ba], b) == GroupOf(groups[ba.batch := GroupOf(groups, ba.batch) + [ba.attempt]], b) {
      if b != ba.batch { assert OfBatch(attempts + [ba], b) == OfBatch(attempts, b) + []; }
    }
  }

  /** Distinct names by their number, and their bytes over the closure. */
  predicate ListPasses(names: seq<string>, count: nat, bytes: nat, ps: seq<Package>) {
    |names| == count && |Members(names)| == |names| && bytes == BytesOf(ps, Members(names))
  }

  /** Every entry a clean-up after this request may have removed. */
  function Removable(requested: seq<string>): set<string> {
    (set n | n in requested) + (set n | n in requested :: Sig(n))
    + (set n | n in requested :: Part(n)) + (set n | n in requested :: SigPart(n))
  }

  /** The checks of one attempt, in the validator's own terms. */
  predicate AttemptPasses(ba: BatchAttempt, ps: seq<Package>, batchCount: nat, mirrors: seq<Mirror>, limit: nat) {
    var a := ba.attempt;
    && !(ba.batch < 1 || ba.batch > batchCount)
    && !(a.number < 1 || a.number > limit || a.number > |mirrors|) && a.mirror == mirrors[a.number - 1]
    && a.requestedCount >= 1 && ListPasses(a.requested, a.requestedCount, a.requestedBytes, ps)
    && Members(a.requested) <= NameSet(ps)
    && a.verifiedCount <= a.requestedCount && ListPasses(a.verified, a.verifiedCount, a.verifiedBytes, ps)
    && Members(a.verified) <= Members(a.requested)
    && ListPasses(a.pending, a.pendingCount, a.pendingBytes, ps) && Members(a.pending) <= Members(a.requested)
    && (if a.passed then a.failureClass.None? else a.failureClass.Some?)
    && (forall e :: e in a.removed ==> e in Removable(a.requested)) && |Members(a.removed)| == |a.removed|
  }

  lemma RemovableExactly(requested: seq<string>, e: string)
    ensures e in Removable(requested) <==> AllowedRemoval(requested, e)
  {
    if AllowedRemoval(requested, e) {
      var n :| n in requested && e in {n, Sig(n), Part(n), SigPart(n)};
    }
    hide Sig, Part, SigPart;
    if e in Removable(requested) { RemovableFrom(requested, e); }
  }

  lemma RemovableFrom(requested: seq<string>, e: string)
    requires e in Removable(requested)
    ensures AllowedRemoval(requested, e)
  {
    hide Sig, Part, SigPart;
    if e in requested {
      assert e in {e, Sig(e), Part(e), SigPart(e)};
    } else {
      var n :| n in requested && (e == Sig(n) || e == Part(n) || e == SigPart(n));
    }
  }

  lemma ListPassesExactly(names: seq<string>, count: nat, bytes: nat, ps: seq<Package>)
    ensures ListPasses(names, count, bytes, ps) <==> CountsAndBytes(names, count, bytes, ps)
  {
    hide BytesOf, Members;
    OnceByCount(names);
  }

  lemma SubsetCount(a: seq<string>, b: seq<string>)
    requires |Members(a)| == |a| && Members(a) <= Members(b)
    ensures |a| <= |b|
  {
    OnceByCount(b);
    assert Members(b) == Members(a) + (Members(b) - Members(a));
  }

  /** They are the checks of an accepted attempt. */
  lemma AttemptPassesExactly(ba: BatchAttempt, ps: seq<Package>, batchCount: nat, mirrors: seq<Mirror>, limit: nat)
    ensures AttemptPasses(ba, ps, batchCount, mirrors, limit) <==> AttemptAccepted(ba, ps, batchCount, mirrors, limit)
  {
    hide ListPasses, CountsAndBytes, Removable, AllowedRemoval, NameSet, Members;
    var a := ba.attempt;
    ListPassesExactly(a.requested, a.requestedCount, a.requestedBytes, ps);
    ListPassesExactly(a.verified, a.verifiedCount, a.verifiedBytes, ps);
    ListPassesExactly(a.pending, a.pendingCount, a.pendingBytes, ps);
    OnceByCount(a.removed);
    forall e ensures e in Removable(a.requested) <==> AllowedRemoval(a.requested, e) { RemovableExactly(a.requested, e); }
    if ListPasses(a.requested, a.requestedCount, a.requestedBytes, ps) && ListPasses(a.verified, a.verifiedCount, a.verifiedBytes, ps) {
      CountsFit(a, ps);
    }
  }

  lemma CountsFit(a: Attempt, ps: seq<Package>)
    requires ListPasses(a.requested, a.requestedCount, a.requestedBytes, ps) && ListPasses(a.verified, a.verifiedCount, a.verifiedBytes, ps)
    ensures a.requestedCount >= 1 <==> a.requested != []
    ensures Members(a.verified) <= Members(a.requested) ==> a.verifiedCount <= a.requestedCount
  {
    hide BytesOf;
    if Members(a.verified) <= Members(a.requested) { SubsetCount(a.verified, a.requested); }
  }

  method GroupAttempts(ps: seq<Package>, c: CacheEvidence) returns (ok: bool, groups: map<nat, seq<Attempt>>)
    ensures ok <==> forall a :: a in c.attempts ==> AttemptAccepted(a, ps, c.batchCount, c.mirrors, c.mirrorLimit)
    ensures ok ==> GroupedAttempts(c.attempts, groups)
  {
    hide AttemptAccepted, AttemptPasses, GroupedAttempts;
    groups := map[];
    NothingGrouped();
    for i := 0 to |c.attempts|
      invariant forall a :: a in c.attempts[..i] ==> AttemptAccepted(a, ps, c.batchCount, c.mirrors, c.mirrorLimit)
      invariant GroupedAttempts(c.attempts[..i], groups)
    {
      var ba := c.attempts[i];
      assert c.attempts[..i + 1] == c.attempts[..i] + [ba];
      AttemptPassesExactly(ba, ps, c.batchCount, c.mirrors, c.mirrorLimit);
      if !AttemptPasses(ba, ps, c.batchCount, c.mirrors, c.mirrorLimit) {
        assert ba in c.attempts;
        return false, groups;
      }
      GroupsExtend(c.attempts[..i], groups, ba);
      groups := groups[ba.batch := GroupOf(groups, ba.batch) + [ba.attempt]];
    }
    assert c.attempts[..|c.attempts|] == c.attempts;
    return true, groups;
  }

  lemma NothingGrouped()
    ensures GroupedAttempts([], map[])
  {
  }

  ghost predicate GroupsAccepted(attempts: seq<BatchAttempt>, count: nat, plan: seq<seq<Package>>) {
    |plan| == count && forall b :: 1 <= b <= count ==> BatchAccepted(OfBatch(attempts, b), Names(plan[b - 1]))
  }

  /** The plan is unique, so comparing with the one computed here is comparing with any. */
  lemma PlannedBatchesDecide(ps: seq<Package>, pending: seq<string>, limit: nat, count: nat, attempts: seq<BatchAttempt>,
                             plan: seq<seq<Package>>)
    requires IsPlan(Sort(Select(ps, Members(pending)), ByIdentity), plan, limit)
    ensures BatchesAccepted(ps, pending, limit, count, attempts) <==> GroupsAccepted(attempts, count, plan)
  {
    hide IsPlan, BatchAccepted, Sort, Select;
    if BatchesAccepted(ps, pending, limit, count, attempts) {
      var other :| IsPlan(Sort(Select(ps, Members(pending)), ByIdentity), other, limit) && |other| == count
        && forall b :: 1 <= b <= count ==> BatchAccepted(OfBatch(attempts, b), Names(other[b - 1]));
      PlanIsUnique(Sort(Select(ps, Members(pending)), ByIdentity), plan, other, limit);
    }
  }

  /** The attempts of one batch against the plan, one after the other. */
  method ValidateBatch(atts: seq<Attempt>, expected: seq<string>) returns (ok: bool)
    ensures ok <==> BatchAccepted(atts, expected)
  {
    hide WithinBatch;
    if atts == [] || atts[0].requested != expected { return false; }
    for j := 0 to |atts|
      invariant forall a :: a in atts[..j] ==> WithinBatch(a, expected)
      invariant forall k :: 0 <= k < j ==> atts[k].number == k + 1
    {
      assert atts[..j + 1] == atts[..j] + [atts[j]];
      assert atts[j] in atts;
      if !WithinBatch(atts[j], expected) || atts[j].number != j + 1 { return false; }
    }
    assert atts[..|atts|] == atts;
    return atts[|atts| - 1].passed && atts[|atts| - 1].pendingCount == 0;
  }

  method ValidateGroups(attempts: seq<BatchAttempt>, groups: map<nat, seq<Attempt>>, count: nat, expected: seq<seq<string>>,
                        ghost plan: seq<seq<Package>>)
    returns (ok: bool)
    requires GroupedAttempts(attempts, groups) && expected == NamesOfEach(plan)
    ensures ok <==> GroupsAccepted(attempts, count, plan)
  {
    hide BatchAccepted, OfBatch, Names;
    if count != |expected| { return false; }
    for b := 1 to count + 1
      invariant forall c :: 1 <= c < b ==> BatchAccepted(OfBatch(attempts, c), Names(plan[c - 1]))
    {
      assert OfBatch(attempts, b) == GroupOf(groups, b);
      var accepted := ValidateBatch(GroupOf(groups, b), expected[b - 1]);
      if !accepted { return false; }
    }
    return true;
  }

  predicate PrefetchBounds(anchor: Option<Mirror>, c: CacheEvidence) {
    && c.mirrorLimit == MAX_MIRROR_ATTEMPTS && c.batchLimit == BATCH_LIMIT_BYTES
    && c.mirrors != [] && |c.mirrors| <= c.mirrorLimit
    && c.completedBatches == c.batchCount && c.pendingCount == 0
    && Forward(c.mirrors) && Some(c.mirrors[0]) == anchor
  }

  method ValidatePrefetch(ps: seq<Package>, pending: seq<string>, anchor: Option<Mirror>, c: CacheEvidence) returns (ok: bool)
    ensures ok <==> PrefetchAccepted(ps, pending, anchor, c)
  {
    hide AttemptAccepted, GroupedAttempts, GroupsAccepted, BatchesAccepted, IsPlan, Forward;
    if !PrefetchBounds(anchor, c) { return false; }
    var expected := ExpectedBatches(Sort(Select(ps, Members(pending)), ByIdentity), c.batchLimit);
    ghost var plan :| IsPlan(Sort(Select(ps, Members(pending)), ByIdentity), plan, c.batchLimit) && expected == NamesOfEach(plan);
    PlannedBatchesDecide(ps, pending, c.batchLimit, c.batchCount, c.attempts, plan);
    var accepted, groups := GroupAttempts(ps, c);
    if !accepted { return false; }
    ok := ValidateGroups(c.attempts, groups, c.batchCount, expected, plan);
  }

  // ---- the whole report ----

  method ValidatePass(r: Report) returns (ok: bool)
    ensures ok <==> PassAccepted(r)
  {
    hide AllVerified, GateOpen, AnchorAccepted, ConfigsLocked, CacheHandedOver, AuditAccepted, PrefetchAccepted;
    if r.failure.Some? || r.packages == [] || !AllVerified(r.summary, |r.packages|) { return false; }
    if !GateOpen(r.gate, |r.packages|) || !AnchorAccepted(r.anchor) { return false; }
    if !ConfigsLocked(r.network, r.frozen, r.local, |r.packages|) || !CacheHandedOver(r.cache, |r.packages|) { return false; }
    if r.cache.audit.None? { return false; }
    var audited := ValidateAudit(r.packages, r.cachedBefore, r.cache.reusedCount, r.cache.audit.value);
    if !audited { return false; }
    ok := ValidatePrefetch(r.packages, r.cache.audit.value.pending, r.anchor.selected, r.cache);
  }

  /** The failure evidence by itself. */
  method ValidateFailure(f: FailureEvidence) returns (ok: bool)
    ensures ok <==> DetailAllowed(f.detail) && ContextAllowed(f.context)
  {
    StripKeeps(f.detail);
    if Strip(f.detail) == "" || |f.detail| > DETAIL_LIMIT { return false; }
    var c := f.context;
    if c.batch.Some? && c.batch.value < 1 { return false; }
    if c.attempt.Some? && c.attempt.value < 1 { return false; }
    if c.line.Some? && c.line.value < 1 { return false; }
    return c.mirror.None? || IsHttps(c.mirror.value);
  }

  method ValidateRepositoryClosureReport(r: Report) returns (ok: bool)
    ensures ok <==> Accepted(r)
  {
    hide ProgressAccepted, PassAccepted, FailConsistent, DetailAllowed, ContextAllowed;
    var progressed := ValidatePackageProgress(r.packages, r.progress, r.summary);
    if !progressed { return false; }
    if r.passed {
      ok := ValidatePass(r);
    } else if r.failure.None? {
      NoFailure(r);
      ok := false;
    } else {
      ok := ValidateFailure(r.failure.value);
      if ok { ok := ValidateFailureConsistency(r); }
    }
  }

  lemma NoFailure(r: Report)
    requires r.failure.None?
    ensures !FailAccepted(r)
  {
  }
}
