/** From the cache audit to the first batch: the reconciled ledger and the plan meet what the
    acquisition loop starts from. */
module ClosureStart {
  import opened Results
  import opened Ordering
  import opened Packages
  import opened PackageCache
  import opened CacheAuditing
  import opened ProgressLedger
  import opened BatchPlan
  import opened Mirrors
  import opened ClosureReport
  import opened Acquisition
  import opened AcquisitionEvidence
  import opened LedgerTotals
  import opened RunEvidence
  import opened ClosureRun
  import opened PrefetchRun

  /** The fresh ledger of a closure. */
  ghost predicate Fresh(rs: seq<Record>, ps: seq<Package>) {
    Tracks(rs, ps) && forall q :: q in rs ==> q.state.Pending? && FlagsMatch(q) && NoAttemptData(q)
  }

  /** Every record states the identity of a closure package, and every package has one. */
  ghost predicate Covers(rs: seq<Record>, ps: seq<Package>) {
    && RecordNames(rs) == NameSet(ps)
    && forall r :: r in rs ==> exists p :: p in ps && SameIdentity(r, p)
  }

  lemma FreshHealthy(rs: seq<Record>, ps: seq<Package>)
    requires DistinctNames(ps) && Fresh(rs, ps)
    ensures Healthy(rs)
  {
    hide Sort, FlagsMatch;
    SortedClosure(ps, Sort(ps, ByFilename));
  }

  lemma FreshCovers(rs: seq<Record>, ps: seq<Package>)
    requires DistinctNames(ps) && Fresh(rs, ps)
    ensures Healthy(rs) && Covers(rs, ps)
  {
    hide Sort, FlagsMatch, NoAttemptData, Healthy, DistinctNames, IsSorted;
    FreshHealthy(rs, ps);
    var s := Sort(ps, ByFilename);
    SortedClosure(ps, s);
    forall r | r in rs ensures exists p :: p in ps && SameIdentity(r, p) {
      var i :| 0 <= i < |rs| && rs[i] == r;
      assert s[i] in ps && SameIdentity(r, s[i]);
    }
    forall n | n in NameSet(ps) ensures n in RecordNames(rs) {
      var p :| p in s && p.filename == n;
      var i :| 0 <= i < |s| && s[i] == p;
      assert rs[i] in rs && rs[i].filename == n;
    }
  }

  lemma CoversSame(a: seq<Record>, b: seq<Record>, ps: seq<Package>)
    requires Covers(a, ps) && SameClosure(a, b)
    ensures Covers(b, ps)
  {
    SameNames(a, b);
    forall r | r in b ensures exists p :: p in ps && SameIdentity(r, p) {
      var i :| 0 <= i < |b| && b[i] == r;
      assert a[i] in a;
      var p :| p in ps && SameIdentity(a[i], p);
      assert SameIdentity(r, p);
    }
  }

  /** Reconciling marks exactly the reused archives. */
  lemma ReconciledSet(rs: seq<Record>, reused: set<string>, corrupt: set<string>)
    requires reused <= RecordNames(rs)
    ensures VerifiedSet(Reconciled(rs, reused, corrupt)) == reused
  {
    var s := Reconciled(rs, reused, corrupt);
    forall n | n in reused ensures n in VerifiedSet(s) {
      var r :| r in rs && r.filename == n;
      var i :| 0 <= i < |rs| && rs[i] == r;
      assert s[i] in s && s[i].filename == n && s[i].verified;
    }
    forall n | n in VerifiedSet(s) ensures n in reused {
      var r :| r in s && r.filename == n && r.verified;
      var i :| 0 <= i < |s| && s[i] == r;
    }
  }

  lemma ReconciledHealthy(rs: seq<Record>, reused: set<string>, corrupt: set<string>)
    requires Healthy(rs)
    ensures Healthy(Reconciled(rs, reused, corrupt)) && SameClosure(rs, Reconciled(rs, reused, corrupt))
  {
    var s := Reconciled(rs, reused, corrupt);
    forall i | 0 <= i < |s| ensures FlagsMatch(s[i]) && DataMatches(s[i]) && SameRecordIdentity(rs[i], s[i]) {
      assert rs[i] in rs;
    }
  }

  /** The audit's lists split the closure's names. */
  lemma AuditSplits(before: Entries, after: Entries, ps: seq<Package>, a: CacheAudit)
    requires Audited(before, after, ps, a)
    ensures Members(a.reused) !! Members(a.pending) && Members(a.reused) + Members(a.pending) == NameSet(ps)
    ensures Members(a.reused) == ReusableNames(after, ps)
    ensures |Members(a.reused)| == |a.reused| == a.reusedCount && |Members(a.pending)| == |a.pending| == a.pendingCount
  {
    hide Headed, Removed, ScopeOnly, Settled;
    ReusableAmong(after, ps);
    DistinctMembers(a.reused);
    DistinctMembers(a.pending);
  }

  lemma ReusableAmong(e: Entries, ps: seq<Package>)
    ensures ReusableNames(e, ps) <= NameSet(ps)
  {
  }

  /** The plan for what the audit left pending. */
  lemma PlanIsPlanned(ps: seq<Package>, pending: set<string>, batches: seq<seq<Package>>, limit: nat)
    requires DistinctNames(ps) && pending <= NameSet(ps)
    requires IsPlan(Sort(Select(ps, pending), ByIdentity), batches, limit)
    ensures Planned(ps, batches) && NameSet(Flatten(batches)) == pending
  {
    hide IsFull;
    var chosen := Select(ps, pending);
    SelectDistinct(ps, pending);
    SelectNameSet(ps, pending);
    assert NameSet(ps) * pending == pending;
    DistinctPermuted(Sort(chosen, ByIdentity), chosen);
    SortMembers(chosen, ByIdentity);
  }

  lemma NothingYet(ps: seq<Package>, start: seq<Record>, batches: seq<seq<Package>>, mirrors: seq<Mirror>)
    ensures AtBatch(ps, start, [], Replay(start, []), batches, mirrors, 0, 0)
  {
    hide VerifiedSet, BatchAccepted;
    assert VerifiedSet(start) + NameSet(Flatten(batches[..0])) == VerifiedSet(start);
  }

  /** Where acquisition starts. */
  lemma StartUnderway(ps: seq<Package>, initial: seq<Record>, start: seq<Record>, reused: set<string>, pending: set<string>,
                      corrupt: set<string>, batches: seq<seq<Package>>, limit: nat, mirrors: seq<Mirror>, reusedCount: nat)
    requires DistinctNames(ps) && Healthy(initial) && Covers(initial, ps)
    requires start == Reconciled(initial, reused, corrupt)
    requires reused !! pending && reused + pending == NameSet(ps) && reusedCount == |reused|
    requires IsPlan(Sort(Select(ps, pending), ByIdentity), batches, limit)
    requires Forward(mirrors) && |mirrors| <= MAX_MIRROR_ATTEMPTS
    ensures Underway(ps, start, [], batches, mirrors, 0, reusedCount)
    ensures Healthy(start) && Covers(start, ps) && VerifiedSet(start) == reused
  {
    hide DistinctNames, Healthy, Covers, VerifiedSet, NameSet, Planned, Forward, IsPlan, AtBatch, Reconciled;
    CoversNames(initial, ps);
    ReconciledSet(initial, reused, corrupt);
    ReconciledHealthy(initial, reused, corrupt);
    CoversSame(initial, start, ps);
    CoversNames(start, ps);
    PlanIsPlanned(ps, pending, batches, limit);
    NothingYet(ps, start, batches, mirrors);
  }

  lemma CoversNames(rs: seq<Record>, ps: seq<Package>)
    requires Covers(rs, ps)
    ensures RecordNames(rs) == NameSet(ps)
  {
  }
}
