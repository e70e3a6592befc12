/** Resuming after a stop: what the next audit reuses of the archives verified so far. */
module Resumption {
  import opened Results
  import opened Ordering
  import opened Packages
  import opened PackageCache
  import opened CacheAuditing
  import opened ProgressLedger
  import opened BatchPlan
  import opened Mirrors
  import opened ClosureReport
  import opened Acquisition
  import opened AcquisitionEvidence
  import opened LedgerTotals
  import opened PrefetchRun
  import opened ClosureStart
  import opened RunEvidence
  import opened ClosureRun
  import opened ClosureEvidence
  import opened ClosureCourse
  import opened ClosurePreparation

  /** The archive is a regular file, not a link to one. */
  predicate IsRegular(e: Entries, n: string) { n in e && e[n].File? }

  /** Acquisition follows links, the audit does not: the two agree exactly on regular files. */
  lemma ReusableExactly(e: Entries, p: Package)
    ensures Reusable(e, p) <==> Verified(e, p) && IsRegular(e, p.filename)
  {
  }

  lemma AuditedReuses(before: Entries, after: Entries, ps: seq<Package>, a: CacheAudit, p: Package)
    requires DistinctNames(ps) && Audited(before, after, ps, a) && DecidedAtStart(before, after, ps, Success(a)) && p in ps
    ensures p.filename in Members(a.reused) <==> Reusable(before, p)
  {
    hide DistinctNames, Headed, Removed, ScopeOnly, Settled;
    AuditSplits(before, after, ps, a);
    assert DecidedBefore(before, after, p, a.corruptRemoved, a.detachedRemoved);
    if p.filename in Members(a.reused) {
      var q :| q in ps && Reusable(after, q) && q.filename == p.filename;
      SameName(ps, p, q);
    }
  }

  /** Of the archives verified so far the next audit reuses exactly the regular files. */
  lemma ReauditReuses(before: Entries, after: Entries, ps: seq<Package>, rs: seq<Record>, a: CacheAudit, p: Package)
    requires SuffixFree(ps) && DistinctNames(ps) && Held(ps, rs, before)
    requires AuditOutcome(before, after, ps, Success(a)) && DecidedAtStart(before, after, ps, Success(a))
    requires p in ps && p.filename in VerifiedSet(rs)
    ensures p.filename in Members(a.reused) <==> IsRegular(before, p.filename)
  {
    hide SuffixFree, DistinctNames, Audited, DecidedAtStart, Verified, Reusable, VerifiedSet;
    AuditedReuses(before, after, ps, a, p);
    ReusableExactly(before, p);
  }

  /** Nothing verified so far is planned again when the cache holds no links. */
  lemma ResumptionPlansOnlyMissing(before: Entries, after: Entries, ps: seq<Package>, rs: seq<Record>, a: CacheAudit,
                                   batches: seq<seq<Package>>, limit: nat)
    requires SuffixFree(ps) && DistinctNames(ps) && Held(ps, rs, before) && RecordNames(rs) == NameSet(ps)
    requires AuditOutcome(before, after, ps, Success(a)) && DecidedAtStart(before, after, ps, Success(a))
    requires IsPlan(Sort(Select(ps, Members(a.pending)), ByIdentity), batches, limit)
    requires forall n :: n in VerifiedSet(rs) ==> IsRegular(before, n)
    ensures VerifiedSet(rs) <= Members(a.reused)
    ensures NameSet(Flatten(batches)) !! VerifiedSet(rs)
    ensures forall p :: p in Flatten(batches) ==> !Reusable(before, p)
  {
    hide SuffixFree, DistinctNames, Audited, DecidedAtStart, IsPlan, IsRegular, Held, Reusable, Planned;
    assert Audited(before, after, ps, a);
    AuditSplits(before, after, ps, a);
    PlanIsPlanned(ps, Members(a.pending), batches, limit);
    forall n | n in VerifiedSet(rs) ensures n in Members(a.reused) {
      assert n in RecordNames(rs);
      var p :| p in ps && p.filename == n;
      ReauditReuses(before, after, ps, rs, a, p);
    }
    forall p | p in Flatten(batches) ensures !Reusable(before, p) {
      assert p.filename in NameSet(Flatten(batches));
      PlannedFrom(ps, batches, p);
      AuditedReuses(before, after, ps, a, p);
    }
  }

  lemma PlannedFrom(ps: seq<Package>, batches: seq<seq<Package>>, p: Package)
    requires Planned(ps, batches) && p in Flatten(batches)
    ensures p in ps
  {
  }

  /** A verified link is fetched again: acquisition counts it, the next audit removes it and plans it anew. */
  lemma LinksAreFetchedAgain(before: Entries, after: Entries, ps: seq<Package>, a: CacheAudit, batches: seq<seq<Package>>, limit: nat,
                             p: Package)
    requires SuffixFree(ps) && DistinctNames(ps) && p in ps && p.filename in before && before[p.filename] == Link(ToFile(p.sha256))
    requires AuditOutcome(before, after, ps, Success(a)) && DecidedAtStart(before, after, ps, Success(a))
    requires IsPlan(Sort(Select(ps, Members(a.pending)), ByIdentity), batches, limit)
    ensures Verified(before, p) && p.filename in Members(a.pending) && p.filename !in after && p in Flatten(batches)
  {
    hide SuffixFree, Audited, DecidedAtStart, DistinctNames, IsPlan, Sort, Select, Flatten;
    assert Audited(before, after, ps, a);
    AuditedReuses(before, after, ps, a, p);
    AuditSplits(before, after, ps, a);
    assert p.filename in NameSet(ps);
    SortMembers(Select(ps, Members(a.pending)), ByIdentity);
    assert p in Select(ps, Members(a.pending));
    PlanHas(Sort(Select(ps, Members(a.pending)), ByIdentity), batches, limit);
    Cleared(before, after, ps, a, p);
  }

  lemma PlanHas(s: seq<Package>, batches: seq<seq<Package>>, limit: nat)
    requires IsPlan(s, batches, limit)
    ensures Flatten(batches) == s
  {
  }

  lemma Cleared(before: Entries, after: Entries, ps: seq<Package>, a: CacheAudit, p: Package)
    requires Audited(before, after, ps, a) && p in ps && !Reusable(before, p)
    ensures p.filename !in after
  {
    hide Headed, ScopeOnly, Split, NoDuplicates;
    assert Swept(after, p) == {};
    SweptIsScope(after, p);
    assert Reusable(after, p) ==> Reusable(before, p);
    assert p.filename in Scope(after, p);
  }

  // ---- two runs in a row ----

  /** Every attempt of a run asks for planned names only. */
  ghost predicate AsksWithin(attempts: seq<BatchAttempt>, names: set<string>) {
    forall ba :: ba in attempts ==> Members(ba.attempt.requested) <= names
  }

  lemma ChainAsks(batch: seq<Package>, mirrors: seq<Mirror>, did: seq<Step>, atts: seq<Attempt>, b: nat)
    requires batch != [] && Chain(batch, mirrors, did, atts)
    ensures AsksWithin(Tagged(b, atts), NameSet(batch))
  {
    hide Describes, CleanedUp, Follows, NameSet, Members, StillPending;
    forall ba | ba in Tagged(b, atts) ensures Members(ba.attempt.requested) <= NameSet(batch) {
      var k :| 0 <= k < |atts| && ba == BatchAttempt(b, atts[k]);
      assert Linked(batch, mirrors, did, atts, k);
      ChainShaped(batch, mirrors, did, atts, k);
      DescribedLists(batch, did[k], k + 1, mirrors[k], atts[k]);
      NamesMembers(did[k].requested);
    }
  }

  lemma {:induction false} RoundsAsk(ps: seq<Package>, start: seq<Record>, batches: seq<seq<Package>>, mirrors: seq<Mirror>,
                                     network: Network, before: Entries, rounds: seq<Round>)
    requires Planned(ps, batches) && |rounds| <= |batches|
    requires forall i :: 0 <= i < |rounds| ==> RoundFollows(start, batches, mirrors, network, before, rounds, i)
    ensures AsksWithin(AttemptsIn(rounds), NameSet(Flatten(batches)))
  {
    hide BatchRan, AllAcceptable, Acceptable, Chain, AsksWithin, Tagged, Planned, NameSet, Flatten;
    if rounds == [] {
      NothingAsked(NameSet(Flatten(batches)));
    } else {
      var n := |rounds| - 1;
      forall i | 0 <= i < n ensures RoundFollows(start, batches, mirrors, network, before, rounds[..n], i) {
        assert RoundFollows(start, batches, mirrors, network, before, rounds, i);
      }
      RoundsAsk(ps, start, batches, mirrors, network, before, rounds[..n]);
      assert RoundFollows(start, batches, mirrors, network, before, rounds, n);
      PlannedPart(ps, batches, n);
      ChainAsks(batches[n], mirrors, rounds[n].did, rounds[n].atts, n + 1);
      NamesWithin(batches[n], Flatten(batches));
      BothAsk(AttemptsIn(rounds[..n]), Tagged(n + 1, rounds[n].atts), NameSet(batches[n]), NameSet(Flatten(batches)));
    }
  }

  lemma NothingAsked(names: set<string>)
    ensures AsksWithin([], names)
  {
  }

  lemma NamesWithin(a: seq<Package>, b: seq<Package>)
    requires forall p :: p in a ==> p in b
    ensures NameSet(a) <= NameSet(b)
  {
  }

  lemma BothAsk(a: seq<BatchAttempt>, b: seq<BatchAttempt>, some: set<string>, all: set<string>)
    requires AsksWithin(a, all) && AsksWithin(b, some) && some <= all
    ensures AsksWithin(a + b, all)
  {
    hide Members;
  }

  /** A run whose report shows an audit went through to acquisition. */
  lemma ReachedAcquisition(w: World, before: Entries, now: Entries, r: Report)
    requires Went(w, before, now, r) && r.cache.audit.Some?
    ensures exists candidates, j, end :: Prepared(w, before, r, candidates, j, end)
  {
    hide Synchronised, ResolvedAs, Acquiring, ListFailed, SyncFailed, ResolutionFailed, JourneyError, FinishFailed, LocallyValid,
         HandsOver, Blames, AuditOf, SummaryOf;
    if r.failure.None? {
      var candidates, j, found :|
        Prepared(w, before, r, candidates, j, Success(found)) && LocallyValid(w, r.packages, j.fetched, now);
    } else {
      var s := r.failure.value.substage;
      var e :| Blames(r, s, e) && StoppedAt(w, before, now, r, s, e);
    }
  }

  /** The ledger of such a run has a record for every package, and no name occurs twice. */
  lemma PreparedLedger(w: World, before: Entries, r: Report, candidates: seq<Mirror>, j: Journey, end: Result<set<string>, Stop>)
    requires Acquiring(w, r, candidates, before, j, end)
    ensures DistinctNames(r.packages) && RecordNames(r.progress) == NameSet(r.packages) && Planned(r.packages, j.batches)
  {
    hide DistinctNames, SuffixFree, NetworkKeeps, Fresh, IsPlan, AnchorFirst, Rounds, RoundsEnd, AllMatch, Planned, Audited,
         DecidedAtStart, AuditHalt, Sort, Reconciled, Healthy, Replay, Members, NameSet, RecordNames, Covers;
    assert DistinctNames(r.packages);
    PlanIsPlanned(r.packages, Members(j.audit.pending), j.batches, BATCH_LIMIT_BYTES);
    FreshCovers(j.initial, r.packages);
    ReconciledHealthy(j.initial, Members(j.audit.reused), Members(j.audit.corruptRemoved) * RecordNames(j.initial));
    CoversSame(j.initial, j.start, r.packages);
    CoversNames(j.start, r.packages);
    ReplayHealthy(j.start, r.cache.attempts);
    SameNames(j.start, r.progress);
  }

  /** What the second run makes of the first one's archives. */
  ghost predicate Resumes(r: Report, later: Report) {
    && later.cache.audit.Some? && VerifiedSet(r.progress) <= Members(later.cache.audit.value.reused)
    && forall ba :: ba in later.cache.attempts ==> Members(ba.attempt.requested) !! VerifiedSet(r.progress)
  }

  /** A run that stopped in acquisition, whatever stopped it, under a network that loses nothing, and any later run over
      the same closure that gets as far: it reuses every regular archive the first one counts, and asks for none of them. */
  lemma NextRunResumes(w: World, next: World, r: Report, later: Report, before: Entries, between: Entries, now: Entries)
    requires Went(w, before, between, r) && KeptEvidence(w, r, between) && Went(next, between, now, later)
    requires r.failure.Some? && r.failure.value.substage.Acquisition? && SuffixFree(r.packages) && NetworkKeeps(w.network, r.packages)
    requires later.packages == r.packages && later.cache.audit.Some?
    requires forall n :: n in VerifiedSet(r.progress) ==> IsRegular(between, n)
    ensures Resumes(r, later)
  {
    hide SuffixFree, NetworkKeeps, Accepted, CauseAgrees, Told, NamedOnce, Held, Went, Acquiring, VerifiedSet, IsRegular, Synchronised,
         ResolvedAs;
    StoppedPrepared(w, before, between, r);
    var candidates, j, end :| Prepared(w, before, r, candidates, j, end);
    PreparedLedger(w, before, r, candidates, j, end);
    ReachedAcquisition(next, between, now, later);
    var others, k, finish :| Prepared(next, between, later, others, k, finish);
    LaterReuses(next, r, later, between, others, k, finish);
  }

  lemma StoppedPrepared(w: World, before: Entries, now: Entries, r: Report)
    requires r.failure.Some? && r.failure.value.substage.Acquisition? && Went(w, before, now, r)
    ensures exists candidates, j, end :: Prepared(w, before, r, candidates, j, end)
  {
    hide Prepared, JourneyError, Blames;
    var e :| Blames(r, Acquisition, e) && StoppedAt(w, before, now, r, Acquisition, e);
    var candidates, j, stop :| Prepared(w, before, r, candidates, j, Failure(stop)) && JourneyError(w.cachePath, j, e) && now == j.fetched;
  }

  lemma LaterReuses(next: World, r: Report, later: Report, between: Entries, candidates: seq<Mirror>, k: Journey,
                    end: Result<set<string>, Stop>)
    requires Acquiring(next, later, candidates, between, k, end) && later.packages == r.packages
    requires SuffixFree(r.packages) && Held(r.packages, r.progress, between) && RecordNames(r.progress) == NameSet(r.packages)
    requires forall n :: n in VerifiedSet(r.progress) ==> IsRegular(between, n)
    ensures Resumes(r, later)
  {
    hide SuffixFree, DistinctNames, NetworkKeeps, Fresh, Reconciles, IsPlan, AnchorFirst, RoundsEnd, RoundFollows, Replay, AllMatch,
         AuditOutcome, DecidedAtStart, AuditHalt, Held, VerifiedSet, IsRegular, Flatten, Planned, Members, NameSet, RecordNames, AttemptsIn,
         Reusable;
    PreparedLedger(next, between, later, candidates, k, end);
    ResumptionPlansOnlyMissing(between, k.audited, r.packages, r.progress, k.audit, k.batches, BATCH_LIMIT_BYTES);
    RoundsAsk(later.packages, k.start, k.batches, k.mirrors, next.network, k.audited, k.rounds);
  }

  /** prepare_repository_closure, and once more after it. */
  method PrepareTwice(w: World, next: World, cache: Cache) returns (r: Report, later: Report, ghost between: Entries)
    requires Sane(w) && Sane(next)
    modifies cache
    ensures Went(w, old(cache.entries), between, r) && Went(next, between, cache.entries, later)
    ensures
      && r.failure.Some? && r.failure.value.substage.Acquisition? && SuffixFree(r.packages) && NetworkKeeps(w.network, r.packages)
      && later.packages == r.packages && later.cache.audit.Some?
      && (forall n :: n in VerifiedSet(r.progress) ==> IsRegular(between, n))
      ==> Resumes(r, later)
  {
    hide Sane, Went, Verdict, KeptEvidence, InterruptReported, SuffixFree, NetworkKeeps, VerifiedSet, IsRegular, Resumes;
    r := PrepareRepositoryClosure(w, cache);
    between := cache.entries;
    later := PrepareRepositoryClosure(next, cache);
    if && r.failure.Some? && r.failure.value.substage.Acquisition? && SuffixFree(r.packages) && NetworkKeeps(w.network, r.packages)
       && later.packages == r.packages && later.cache.audit.Some?
       && (forall n :: n in VerifiedSet(r.progress) ==> IsRegular(between, n))
    {
      NextRunResumes(w, next, r, later, old(cache.entries), between, cache.entries);
    }
  }
}
