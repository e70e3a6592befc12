/** The loop over planned batches: what it leaves behind when it finishes and when it stops. */
module PrefetchRun {
  import opened Results
  import opened Errors
  import opened Ordering
  import opened Packages
  import opened PackageCache
  import opened ProgressLedger
  import opened BatchPlan
  import opened Mirrors
  import opened ClosureReport
  import opened Acquisition
  import opened AcquisitionEvidence
  import opened LedgerTotals
  import opened RunEvidence
  import opened ClosureRun

  ghost predicate AllKeep(ps: seq<Package>, steps: seq<Step>) { forall st :: st in steps ==> Keeps(ps, st) }

  /** Every step is an answer the network gave. */
  ghost predicate AllAnswered(network: Network, steps: seq<Step>) {
    forall st :: st in steps ==> Answered(network, st)
  }

  ghost predicate Answered(network: Network, st: Step) {
    exists n: nat, m: Mirror :: network(n, m, st.requested, st.before) == Fetched(st.fetched, st.raised)
  }

  /** No fetch ever loses a matching archive of the closure. */
  ghost predicate NetworkKeeps(network: Network, ps: seq<Package>) {
    forall n: nat, m: Mirror, requested: seq<Package>, e: Entries, p: Package ::
      p in ps && Verified(e, p) ==> Verified(network(n, m, requested, e).entries, p)
  }

  lemma KeepingNetwork(network: Network, ps: seq<Package>, steps: seq<Step>)
    requires NetworkKeeps(network, ps) && AllAnswered(network, steps)
    ensures AllKeep(ps, steps)
  {
    forall st, p | st in steps && p in ps && Verified(st.before, p) ensures Verified(st.fetched, p) {
      assert Answered(network, st);
      var n: nat, m: Mirror :| network(n, m, st.requested, st.before) == Fetched(st.fetched, st.raised);
      assert Verified(network(n, m, st.requested, st.before).entries, p);
    }
  }

  lemma AnsweredSteps(network: Network, first: nat, mirrors: seq<Mirror>, did: seq<Step>)
    requires AnsweredBy(network, first, mirrors, did)
    ensures AllAnswered(network, did)
  {
    forall st | st in did ensures Answered(network, st) {
      var j :| 0 <= j < |did| && did[j] == st;
      assert network(first + j, mirrors[j], st.requested, st.before) == Fetched(st.fetched, st.raised);
    }
  }

  /** What the ledger counts of a batch after the given attempts. */
  ghost function Gained(batch: seq<Package>, did: seq<Step>): set<string> {
    if did == [] then {} else NameSet(batch) - StillPending(did[|did| - 1])
  }

  /** After a recorded attempt the cache holds no archive of the batch that the ledger lacks. */
  lemma CacheWithinLedger(batch: seq<Package>, mirrors: seq<Mirror>, did: seq<Step>, atts: seq<Attempt>)
    requires batch != [] && Chain(batch, mirrors, did, atts) && did != []
    ensures VerifiedNames(did[|did| - 1].after, batch) <= Gained(batch, did)
  {
    hide Chain, CleanedUp, Describes, Shaped, StillPending;
    var n := |did| - 1;
    var st := did[n];
    ChainLengths(batch, mirrors, did, atts);
    ChainShaped(batch, mirrors, did, atts, n);
    LastLinked(batch, mirrors, did, atts, n);
    CleanUpShrinks(batch, st);
    forall p | p in batch && Verified(st.after, p) ensures p.filename !in StillPending(st) {
      if p.filename in StillPending(st) { PendingUnverified(batch, st, p); }
    }
  }

  /** Names apart and nothing lost: the cache holds exactly what the ledger counts. */
  lemma CacheEqualsLedger(ps: seq<Package>, batch: seq<Package>, mirrors: seq<Mirror>, did: seq<Step>, atts: seq<Attempt>)
    requires batch != [] && Chain(batch, mirrors, did, atts) && did != []
    requires SuffixFree(ps) && DistinctNames(ps) && (forall p :: p in batch ==> p in ps) && AllKeep(ps, did)
    ensures VerifiedNames(did[|did| - 1].after, batch) == Gained(batch, did)
    ensures Partitions(atts[|atts| - 1])
  {
    hide Chain, SuffixFree, DistinctNames, Keeps, StillPending, Partitions;
    var n := |did| - 1;
    ChainLengths(batch, mirrors, did, atts);
    PendingIsMissing(ps, batch, mirrors, did, atts, n);
    KeptRequestPartitions(ps, batch, mirrors, did, atts, n);
  }

  lemma AllKeepPart(ps: seq<Package>, a: seq<Step>, b: seq<Step>)
    ensures AllKeep(ps, a + b) ==> AllKeep(ps, a) && AllKeep(ps, b)
  {
    hide Keeps;
    if AllKeep(ps, a + b) {
      forall st | st in a || st in b ensures Keeps(ps, st) { assert st in a + b; }
    }
  }

  /** After an unrecorded fetch that kept what matched, the cache holds what all fetches have gained. */
  lemma UnrecordedHolds(ps: seq<Package>, batch: seq<Package>, mirrors: seq<Mirror>, did: seq<Step>, atts: seq<Attempt>, st: Step)
    requires batch != [] && Chain(batch, mirrors, did, atts) && Unrecorded(batch, did, st)
    requires SuffixFree(ps) && DistinctNames(ps) && (forall p :: p in batch ==> p in ps) && AllKeep(ps, did) && Keeps(ps, st)
    ensures VerifiedNames(st.after, batch) == NameSet(batch) - StillPending(st)
    ensures StillPending(st) <= st.outstanding && (did != [] ==> st.outstanding == StillPending(did[|did| - 1]))
  {
    hide Chain, CleanUpHalts, Verified, SuffixFree, DistinctNames, AllKeep;
    UnrecordedShaped(batch, mirrors, did, atts, st);
    NoSteps(batch, mirrors, did, atts);
    forall p | p in batch ensures p.filename in StillPending(st) <==> !Verified(st.after, p) {
      if p.filename in StillPending(st) {
        PendingUnverified(batch, st, p);
      } else {
        if p.filename in st.outstanding {
          PendingFound(ps, batch, st, p);
        } else {
          OutstandingAtFirst(batch, did, st, p);
          ChainLengths(batch, mirrors, did, atts);
          KeptAll(ps, did);
          PendingIsMissing(ps, batch, mirrors, did, atts, |did| - 1);
        }
        CleanUpSpares(ps, batch, st, p);
      }
    }
    NamesLeft(batch, StillPending(st), st.after);
  }

  lemma NamesLeft(batch: seq<Package>, pending: set<string>, e: Entries)
    requires forall p :: p in batch ==> (p.filename in pending <==> !Verified(e, p))
    ensures VerifiedNames(e, batch) == NameSet(batch) - pending
  {
    hide Verified;
  }

  lemma KeptAll(ps: seq<Package>, did: seq<Step>)
    requires AllKeep(ps, did)
    ensures forall k :: 0 <= k < |did| ==> Keeps(ps, did[k])
  {
    hide Keeps;
  }

  lemma OutstandingAtFirst(batch: seq<Package>, did: seq<Step>, st: Step, p: Package)
    requires Unrecorded(batch, did, st) && p in batch && p.filename !in st.outstanding
    ensures did != [] && p.filename !in StillPending(did[|did| - 1]) && st.before == did[|did| - 1].after
  {
    hide StillPending, OnlyLitter, CleanUpHalts;
    assert p.filename in NameSet(batch);
  }

  /** The totals taken from the cache after batch i agree with the ledger. */
  ghost predicate CacheCounts(rs: seq<Record>, reusedCount: nat, batches: seq<seq<Package>>, i: nat, e: Entries)
    requires i < |batches|
  {
    var planned := NameSet(Flatten(batches));
    var seen := NameSet(Flatten(batches[..i])) + VerifiedNames(e, batches[i]);
    CountsMatch(rs, reusedCount, reusedCount + Size(seen), Size(planned - seen), Size(seen))
  }

  lemma ReplayNames(ps: seq<Package>, start: seq<Record>, all: seq<BatchAttempt>)
    requires Healthy(start) && RecordNames(start) == NameSet(ps)
    ensures Healthy(Replay(start, all)) && RecordNames(Replay(start, all)) == NameSet(ps)
  {
    ReplayHealthy(start, all);
    SameNames(start, Replay(start, all));
  }

  lemma WithinBatchNames(e: Entries, batch: seq<Package>)
    ensures VerifiedNames(e, batch) <= NameSet(batch)
  {
  }

  lemma NoSteps(batch: seq<Package>, mirrors: seq<Mirror>, did: seq<Step>, atts: seq<Attempt>)
    requires Chain(batch, mirrors, did, atts)
    ensures did == [] <==> atts == []
  {
  }

  /** The totals after the attempts of batch i, from what the ledger gained in it. */
  lemma BatchCounted(ps: seq<Package>, start: seq<Record>, rs: seq<Record>, batches: seq<seq<Package>>, i: nat,
                     did: seq<Step>, e: Entries, reusedCount: nat)
    requires Planned(ps, batches) && i < |batches| && Divided(ps, start, reusedCount, batches)
    requires Healthy(rs) && RecordNames(rs) == NameSet(ps)
    requires VerifiedSet(rs) == VerifiedSet(start) + NameSet(Flatten(batches[..i])) + Gained(batches[i], did)
    ensures VerifiedSet(rs) * NameSet(batches[i]) == Gained(batches[i], did)
    ensures CacheCounts(rs, reusedCount, batches, i, e) <==> SameCount(e, rs, batches[i])
  {
    hide Healthy, StillPending, VerifiedSet, Planned, CountsMatch, NameSet, VerifiedNames, Divided, Size;
    WithinBatchNames(e, batches[i]);
    LoopCounts(ps, start, reusedCount, batches, i, rs, Gained(batches[i], did), VerifiedNames(e, batches[i]),
               NameSet(Flatten(batches[..i])), NameSet(Flatten(batches)));
  }

  /** Every archive the ledger counts as verified matches in the cache. */
  ghost predicate Held(ps: seq<Package>, rs: seq<Record>, e: Entries) {
    forall p :: p in ps && p.filename in VerifiedSet(rs) ==> Verified(e, p)
  }

  /** Nothing lost and names apart: what matched before a batch still matches after it. */
  lemma {:induction false} KeptThrough(ps: seq<Package>, batch: seq<Package>, mirrors: seq<Mirror>, did: seq<Step>,
                                       atts: seq<Attempt>, j: nat, p: Package)
    requires batch != [] && Chain(batch, mirrors, did, atts) && j < |did|
    requires SuffixFree(ps) && DistinctNames(ps) && (forall q :: q in batch ==> q in ps) && AllKeep(ps, did)
    requires p in ps && Verified(did[0].before, p)
    ensures Verified(did[j].after, p)
  {
    hide Describes, OnlyLitter, CleanUpHalts, SuffixFree, DistinctNames, Verified, Shaped, StillPending;
    assert Linked(batch, mirrors, did, atts, j);
    ChainShaped(batch, mirrors, did, atts, j);
    if j > 0 { KeptThrough(ps, batch, mirrors, did, atts, j - 1, p); }
    assert did[j] in did;
    CleanUpSpares(ps, batch, did[j], p);
  }

  lemma HeldThrough(ps: seq<Package>, batch: seq<Package>, mirrors: seq<Mirror>, did: seq<Step>, atts: seq<Attempt>,
                    earlier: seq<Record>, rs: seq<Record>, before: Entries, now: Entries)
    requires batch != [] && Chain(batch, mirrors, did, atts) && Began(before, did, now)
    requires SuffixFree(ps) && DistinctNames(ps) && (forall q :: q in batch ==> q in ps) && AllKeep(ps, did)
    requires Held(ps, earlier, before) && VerifiedSet(rs) <= VerifiedSet(earlier) + Gained(batch, did)
    ensures Held(ps, rs, now)
  {
    hide Chain, SuffixFree, DistinctNames, AllKeep, Verified, VerifiedSet, Gained;
    forall p | p in ps && p.filename in VerifiedSet(rs) ensures Verified(now, p) {
      if did == [] {
        NothingGained(batch);
      } else if p.filename in VerifiedSet(earlier) {
        KeptThrough(ps, batch, mirrors, did, atts, |did| - 1, p);
      } else {
        CacheEqualsLedger(ps, batch, mirrors, did, atts);
        GainedVerified(ps, batch, now, p);
      }
    }
  }

  /** A fetch whose clean-up is blocked leaves every verified archive in place as well. */
  lemma HeldThroughUnrecorded(ps: seq<Package>, batch: seq<Package>, mirrors: seq<Mirror>, did: seq<Step>, atts: seq<Attempt>,
                              st: Step, rs: seq<Record>)
    requires batch != [] && Chain(batch, mirrors, did, atts) && Unrecorded(batch, did, st)
    requires SuffixFree(ps) && DistinctNames(ps) && (forall q :: q in batch ==> q in ps) && Keeps(ps, st)
    requires Held(ps, rs, st.before)
    ensures Held(ps, rs, st.after)
  {
    hide Chain, SuffixFree, DistinctNames, Verified, VerifiedSet, CleanUpHalts, OnlyLitter;
    UnrecordedShaped(batch, mirrors, did, atts, st);
    forall p | p in ps && p.filename in VerifiedSet(rs) ensures Verified(st.after, p) {
      CleanUpSpares(ps, batch, st, p);
    }
  }

  lemma BeganUnrecorded(before: Entries, batch: seq<Package>, did: seq<Step>, seen: seq<Step>, now: Entries)
    requires seen != [] && did == seen[..|seen| - 1] && Unrecorded(batch, did, seen[|seen| - 1]) && Began(before, seen, now)
    ensures var st := seen[|seen| - 1]; seen == did + [st] && Began(before, did, st.before) && now == st.after
  {
    hide OnlyLitter, CleanUpHalts, StillPending;
  }

  lemma NothingGained(batch: seq<Package>)
    ensures Gained(batch, []) == {}
  {
  }

  lemma GainedVerified(ps: seq<Package>, batch: seq<Package>, now: Entries, p: Package)
    requires DistinctNames(ps) && (forall q :: q in batch ==> q in ps) && p in ps && p.filename in VerifiedNames(now, batch)
    ensures Verified(now, p)
  {
    var q :| q in batch && Verified(now, q) && q.filename == p.filename;
    SameName(ps, p, q);
  }

  /** A batch loop under way: ledger and evidence as they stand before batch i. */
  ghost predicate Underway(ps: seq<Package>, start: seq<Record>, attempts: seq<BatchAttempt>, batches: seq<seq<Package>>,
                           mirrors: seq<Mirror>, i: nat, reusedCount: nat)
  {
    && Planned(ps, batches) && DistinctNames(ps)
    && Healthy(start) && RecordNames(start) == NameSet(ps)
    && Forward(mirrors) && |mirrors| <= MAX_MIRROR_ATTEMPTS
    && Divided(ps, start, reusedCount, batches)
    && AtBatch(ps, start, attempts, Replay(start, attempts), batches, mirrors, i, i)
  }

  /** What the accepted attempts of batch i leave. */
  lemma AttemptsTaken(ps: seq<Package>, start: seq<Record>, attempts: seq<BatchAttempt>, batches: seq<seq<Package>>,
                      mirrors: seq<Mirror>, i: nat, did: seq<Step>, atts: seq<Attempt>, e: Entries, reusedCount: nat,
                      b: nat, all: seq<BatchAttempt>, rs: seq<Record>)
    requires Underway(ps, start, attempts, batches, mirrors, i, reusedCount) && i < |batches|
    requires Chain(batches[i], mirrors, did, atts) && AllAcceptable(start, Tagged(b, atts))
    requires b == i + 1 && all == attempts + Tagged(b, atts) && rs == Replay(start, all)
    ensures Sound(ps, start, all, |batches|, mirrors) && Untried(all, b)
    ensures VerifiedSet(rs) == VerifiedSet(start) + NameSet(Flatten(batches[..i])) + Gained(batches[i], did)
    ensures VerifiedSet(rs) * NameSet(batches[i]) == Gained(batches[i], did)
    ensures CacheCounts(rs, reusedCount, batches, i, e) <==> SameCount(e, rs, batches[i])
    ensures atts != [] && atts[|atts| - 1].passed ==> Finished(all, batches, b)
  {
    hide Chain, Sound, Healthy, StillPending, Acceptable, DistinctNames, VerifiedSet, Finished, Untried, Planned, Forward,
         AllAcceptable, AtBatch, CacheCounts, SameCount, NameSet, VerifiedNames;
    AfterBatch(ps, start, attempts, batches, mirrors, i, did, atts);
    ReplayNames(ps, start, all);
    NoSteps(batches[i], mirrors, did, atts);
    BatchCounted(ps, start, rs, batches, i, did, e, reusedCount);
  }

  lemma SameSize(a: set<string>, b: set<string>)
    requires a <= b
    ensures Size(a) == Size(b) <==> a == b
  {
    if Size(a) == Size(b) { Equal(a, b); }
  }

  /** When the cache holds no more of the batch than the ledger counts, equal numbers mean equal sets. */
  lemma CountsDecide(e: Entries, rs: seq<Record>, batch: seq<Package>)
    requires VerifiedNames(e, batch) <= VerifiedSet(rs) * NameSet(batch)
    ensures SameCount(e, rs, batch) <==> InStep(e, rs, batch)
  {
    SameSize(VerifiedNames(e, batch), VerifiedSet(rs) * NameSet(batch));
  }

  lemma TaggedEnd(attempts: seq<BatchAttempt>, b: nat, atts: seq<Attempt>)
    requires atts != []
    ensures var all := attempts + Tagged(b, atts); all[|all| - 1] == BatchAttempt(b, atts[|atts| - 1])
  {
  }

  lemma FailedStop(ps: seq<Package>, start: seq<Record>, attempts: seq<BatchAttempt>, batches: seq<seq<Package>>,
                   mirrors: seq<Mirror>, i: nat, did: seq<Step>, atts: seq<Attempt>, now: Entries, reusedCount: nat,
                   b: nat, all: seq<BatchAttempt>, rs: seq<Record>, stop: Stop)
    requires Underway(ps, start, attempts, batches, mirrors, i, reusedCount) && i < |batches|
    requires b == i + 1 && all == attempts + Tagged(b, atts) && rs == Replay(start, all)
    requires BatchOutcome(start, b, batches[i], mirrors, now, did, atts, Failure(stop))
    ensures StoppedIn(ps, start, all, rs, now, batches, mirrors, i, stop, CacheCounts(rs, reusedCount, batches, i, now))
  {
    hide Chain, Sound, Healthy, StillPending, Acceptable, DistinctNames, VerifiedSet, Finished, Untried, Planned, Forward,
         AllAcceptable, AtBatch, CacheCounts, SameCount, InStep, NameSet, VerifiedNames, Divided, AttemptAccounted, Gained, Partitions;
    PlannedBatch(ps, batches, i);
    NotEmptyBatch(ps, batches, i);
    NoSteps(batches[i], mirrors, did, atts);
    if atts != [] { TaggedEnd(attempts, b, atts); }
    if stop.AttemptRejected? {
      RefusedDoesNotPartition(ps, start, batches[i], mirrors, did, atts, b);
    } else {
      AttemptsTaken(ps, start, attempts, batches, mirrors, i, did, atts, now, reusedCount, b, all, rs);
      if !stop.CleanUpBlocked? { StopInStep(batches[i], mirrors, did, atts, now, rs); }
    }
  }

  lemma StopInStep(batch: seq<Package>, mirrors: seq<Mirror>, did: seq<Step>, atts: seq<Attempt>, now: Entries, rs: seq<Record>)
    requires batch != [] && Chain(batch, mirrors, did, atts) && (did != [] ==> now == did[|did| - 1].after)
    requires VerifiedSet(rs) * NameSet(batch) == Gained(batch, did)
    ensures SameCount(now, rs, batch) ==> InStep(now, rs, batch)
  {
    hide Chain, StillPending, VerifiedSet, VerifiedNames, NameSet;
    if did == [] {
      NoneMatch(now, rs, batch);
    } else {
      CacheWithinLedger(batch, mirrors, did, atts);
      CountsDecide(now, rs, batch);
    }
  }

  lemma NoneMatch(now: Entries, rs: seq<Record>, batch: seq<Package>)
    requires VerifiedSet(rs) * NameSet(batch) == {}
    ensures SameCount(now, rs, batch) ==> InStep(now, rs, batch)
  {
  }

  lemma PassedGains(batch: seq<Package>, mirrors: seq<Mirror>, did: seq<Step>, atts: seq<Attempt>)
    requires Chain(batch, mirrors, did, atts) && atts != [] && atts[|atts| - 1].passed
    ensures Gained(batch, did) == NameSet(batch)
  {
    hide Chain, Describes, CleanedUp;
    var n := |atts| - 1;
    LastLinked(batch, mirrors, did, atts, n);
    ChainLengths(batch, mirrors, did, atts);
    PassMeansClean(batch, did[n], n + 1, mirrors[n], atts[n]);
  }

  lemma FinishedBatch(ps: seq<Package>, start: seq<Record>, attempts: seq<BatchAttempt>, batches: seq<seq<Package>>,
                      mirrors: seq<Mirror>, i: nat, did: seq<Step>, atts: seq<Attempt>, now: Entries, reusedCount: nat,
                      b: nat, all: seq<BatchAttempt>, rs: seq<Record>, found: set<string>)
    requires Underway(ps, start, attempts, batches, mirrors, i, reusedCount) && i < |batches|
    requires b == i + 1 && all == attempts + Tagged(b, atts) && rs == Replay(start, all)
    requires BatchOutcome(start, b, batches[i], mirrors, now, did, atts, Success(found))
    ensures VerifiedNames(now, batches[i]) == NameSet(batches[i]) ==>
      && AtBatch(ps, start, all, rs, batches, mirrors, b, b)
      && CacheCounts(rs, reusedCount, batches, i, now)
    ensures VerifiedNames(now, batches[i]) != NameSet(batches[i]) ==>
      StoppedIn(ps, start, all, rs, now, batches, mirrors, i, ArchiveMissing, CacheCounts(rs, reusedCount, batches, i, now))
  {
    hide Chain, Sound, Healthy, StillPending, Acceptable, DistinctNames, VerifiedSet, Finished, Untried, Planned, Forward,
         AllAcceptable, CacheCounts, NameSet, VerifiedNames, Divided, Gained;
    AttemptsTaken(ps, start, attempts, batches, mirrors, i, did, atts, now, reusedCount, b, all, rs);
    PlannedBatch(ps, batches, i);
    PassedGains(batches[i], mirrors, did, atts);
    WithinBatchNames(now, batches[i]);
    CountsDecide(now, rs, batches[i]);
    var done, batch := NameSet(Flatten(batches[..i])), NameSet(batches[i]);
    assert VerifiedSet(start) + done + batch == VerifiedSet(start) + (done + batch);
  }

  /** Names apart and nothing lost: a batch ends complete, or by the network with the ledger in step.  After a
      blocked clean-up the cache holds what all fetches have gained, the ledger what the recorded ones have. */
  lemma KeptBatch(ps: seq<Package>, start: seq<Record>, batches: seq<seq<Package>>, mirrors: seq<Mirror>, i: nat,
                  did: seq<Step>, atts: seq<Attempt>, now: Entries, b: nat, rs: seq<Record>, r: Result<set<string>, Stop>,
                  network: Network, first: nat, before: Entries, seen: seq<Step>)
    requires Planned(ps, batches) && DistinctNames(ps) && i < |batches| && RecordNames(start) == NameSet(ps)
    requires SuffixFree(ps) && AllKeep(ps, seen) && Forward(mirrors) && mirrors != [] && b >= 1
    requires BatchOutcome(start, b, batches[i], mirrors, now, did, atts, r)
    requires BatchRan(network, first, batches[i], mirrors, before, now, did, seen, r)
    requires !(r.Failure? && r.error.AttemptRejected?) ==> VerifiedSet(rs) * NameSet(batches[i]) == Gained(batches[i], did)
    ensures r.Failure? ==> KeptInStep(rs, now, batches[i], r.error)
    ensures r.Success? ==> VerifiedNames(now, batches[i]) == NameSet(batches[i])
    ensures r == Result.Failure(CleanUpBlocked) ==>
      VerifiedNames(now, batches[i]) == Gained(batches[i], seen) && Gained(batches[i], did) <= Gained(batches[i], seen)
  {
    hide Chain, StillPending, Acceptable, DistinctNames, VerifiedSet, Planned, Forward, AllAcceptable, NameSet, VerifiedNames,
         Gained, SuffixFree, AllKeep, Partitions, Unrecorded, AnsweredBy, Began;
    PlannedBatch(ps, batches, i);
    NotEmptyBatch(ps, batches, i);
    NoSteps(batches[i], mirrors, did, atts);
    if r == Result.Failure(CleanUpBlocked) {
      BlockedBatch(ps, batches[i], mirrors, did, atts, before, now, seen);
    } else if atts != [] {
      CacheEqualsLedger(ps, batches[i], mirrors, did, atts);
      RefusedDoesNotPartition(ps, start, batches[i], mirrors, did, atts, b);
      if r.Success? { PassedGains(batches[i], mirrors, did, atts); }
    }
  }

  lemma BlockedBatch(ps: seq<Package>, batch: seq<Package>, mirrors: seq<Mirror>, did: seq<Step>, atts: seq<Attempt>,
                     before: Entries, now: Entries, seen: seq<Step>)
    requires batch != [] && Chain(batch, mirrors, did, atts)
    requires seen != [] && did == seen[..|seen| - 1] && Unrecorded(batch, did, seen[|seen| - 1]) && Began(before, seen, now)
    requires SuffixFree(ps) && DistinctNames(ps) && (forall p :: p in batch ==> p in ps) && AllKeep(ps, seen)
    ensures VerifiedNames(now, batch) == Gained(batch, seen) && Gained(batch, did) <= Gained(batch, seen)
  {
    hide Chain, StillPending, DistinctNames, NameSet, VerifiedNames, SuffixFree, Keeps, Unrecorded, Began;
    var st := seen[|seen| - 1];
    BeganUnrecorded(before, batch, did, seen, now);
    AllKeepPart(ps, did, [st]);
    assert st in [st];
    UnrecordedHolds(ps, batch, mirrors, did, atts, st);
  }

  /** The evidence totals agree with the ledger. */
  ghost predicate Agrees(run: Run)
    reads run`reusedCount, run`verifiedCount, run`pendingCount, run`downloadedCount, run.ledger
  {
    CountsMatch(run.ledger.records, run.reusedCount, run.verifiedCount, run.pendingCount, run.downloadedCount)
  }

  /** Fetches that lose nothing leave every verified archive in place, however the run goes on. */
  ghost predicate StaysHeld(ps: seq<Package>, mirrors: seq<Mirror>, seen: seq<Step>, earlier: seq<Record>, before: Entries,
                            rs: seq<Record>, now: Entries)
  {
    SuffixFree(ps) && AllKeep(ps, seen) && mirrors != [] && Held(ps, earlier, before) ==> Held(ps, rs, now)
  }

  lemma BatchStaysHeld(ps: seq<Package>, start: seq<Record>, attempts: seq<BatchAttempt>, batches: seq<seq<Package>>,
                       mirrors: seq<Mirror>, i: nat, did: seq<Step>, atts: seq<Attempt>, before: Entries, now: Entries, reusedCount: nat,
                       b: nat, all: seq<BatchAttempt>, rs: seq<Record>, r: Result<set<string>, Stop>,
                       network: Network, first: nat, seen: seq<Step>)
    requires Underway(ps, start, attempts, batches, mirrors, i, reusedCount) && i < |batches|
    requires b == i + 1 && all == attempts + Tagged(b, atts) && rs == Replay(start, all)
    requires BatchOutcome(start, b, batches[i], mirrors, now, did, atts, r)
    requires BatchRan(network, first, batches[i], mirrors, before, now, did, seen, r)
    ensures StaysHeld(ps, mirrors, seen, Replay(start, attempts), before, rs, now)
  {
    hide SuffixFree, AllKeep, Held, Began, Underway, BatchOutcome, Unrecorded, AnsweredBy, Uninterrupted;
    if SuffixFree(ps) && AllKeep(ps, seen) && mirrors != [] && Held(ps, Replay(start, attempts), before) {
      if r == Result.Failure(CleanUpBlocked) {
        var st := seen[|seen| - 1];
        BeganUnrecorded(before, batches[i], did, seen, now);
        AllKeepPart(ps, did, [st]);
        BlockedOutcome(start, b, batches[i], mirrors, now, st.before, did, atts);
        BatchHeld(ps, start, attempts, batches, mirrors, i, did, atts, before, st.before, reusedCount, b, all, rs, r);
        UnrecordedHeld(ps, start, attempts, batches, mirrors, i, did, atts, now, reusedCount, b, r, st, rs);
      } else {
        BatchHeld(ps, start, attempts, batches, mirrors, i, did, atts, before, now, reusedCount, b, all, rs, r);
      }
    }
  }

  lemma BlockedOutcome(start: seq<Record>, b: nat, batch: seq<Package>, mirrors: seq<Mirror>, now: Entries, mid: Entries,
                       did: seq<Step>, atts: seq<Attempt>)
    requires BatchOutcome(start, b, batch, mirrors, now, did, atts, Failure(CleanUpBlocked))
    ensures BatchOutcome(start, b, batch, mirrors, mid, did, atts, Failure(CleanUpBlocked))
  {
    hide Chain, AllAcceptable;
  }

  lemma UnrecordedHeld(ps: seq<Package>, start: seq<Record>, attempts: seq<BatchAttempt>, batches: seq<seq<Package>>,
                       mirrors: seq<Mirror>, i: nat, did: seq<Step>, atts: seq<Attempt>, now: Entries, reusedCount: nat,
                       b: nat, r: Result<set<string>, Stop>, st: Step, rs: seq<Record>)
    requires Underway(ps, start, attempts, batches, mirrors, i, reusedCount) && i < |batches|
    requires BatchOutcome(start, b, batches[i], mirrors, now, did, atts, r)
    requires Unrecorded(batches[i], did, st) && SuffixFree(ps) && AllKeep(ps, [st]) && Held(ps, rs, st.before)
    ensures Held(ps, rs, st.after)
  {
    hide Chain, SuffixFree, Held, Unrecorded, Planned, DistinctNames, Keeps, AllAcceptable, Acceptable;
    PlannedBatch(ps, batches, i);
    NotEmptyBatch(ps, batches, i);
    assert st in [st];
    HeldThroughUnrecorded(ps, batches[i], mirrors, did, atts, st, rs);
  }

  // ---- side entries that block the clean-up ----

  /** No fetch leaves a directory under the name of a side file where there was none. */
  ghost predicate NetworkClear(network: Network, ps: seq<Package>) {
    forall n: nat, m: Mirror, requested: seq<Package>, e: Entries, p: Package ::
      p in ps && SideBlocked(network(n, m, requested, e).entries, p) ==> SideBlocked(e, p)
  }

  ghost predicate StepClear(ps: seq<Package>, st: Step) {
    forall p :: p in ps && SideBlocked(st.fetched, p) ==> SideBlocked(st.before, p)
  }

  ghost predicate AllClear(ps: seq<Package>, steps: seq<Step>) { forall st :: st in steps ==> StepClear(ps, st) }

  ghost predicate Clear(e: Entries, ps: seq<Package>) { forall p :: p in ps ==> !SideBlocked(e, p) }

  lemma ClearingNetwork(network: Network, ps: seq<Package>, steps: seq<Step>)
    requires NetworkClear(network, ps) && AllAnswered(network, steps)
    ensures AllClear(ps, steps)
  {
    hide SideBlocked;
    forall st, p | st in steps && p in ps && SideBlocked(st.fetched, p) ensures SideBlocked(st.before, p) {
      assert Answered(network, st);
      var n: nat, m: Mirror :| network(n, m, st.requested, st.before) == Fetched(st.fetched, st.raised);
      assert SideBlocked(network(n, m, st.requested, st.before).entries, p);
    }
  }

  lemma ClearPart(ps: seq<Package>, a: seq<Step>, b: seq<Step>)
    ensures AllClear(ps, a + b) ==> AllClear(ps, a) && AllClear(ps, b)
  {
    hide StepClear;
    if AllClear(ps, a + b) {
      forall st | st in a || st in b ensures StepClear(ps, st) { assert st in a + b; }
    }
  }

  lemma ClearStep(ps: seq<Package>, all: seq<Package>, st: Step)
    requires StepClear(ps, st) && Clear(st.before, all) && forall p :: p in all ==> p in ps
    ensures Clear(st.fetched, all) && (Shrunk(st.fetched, st.after) ==> Clear(st.after, all))
  {
  }

  lemma {:induction false} ClearThrough(ps: seq<Package>, all: seq<Package>, batch: seq<Package>, mirrors: seq<Mirror>,
                                        did: seq<Step>, atts: seq<Attempt>, j: nat)
    requires Chain(batch, mirrors, did, atts) && j < |did| && AllClear(ps, did)
    requires Clear(did[0].before, all) && forall p :: p in all ==> p in ps
    ensures Clear(did[j].after, all)
  {
    hide Describes, Clear, StepClear, StillPending;
    assert Linked(batch, mirrors, did, atts, j);
    CleanUpShrinks(batch, did[j]);
    if j > 0 { ClearThrough(ps, all, batch, mirrors, did, atts, j - 1); }
    assert did[j] in did;
    ClearStep(ps, all, did[j]);
  }

  lemma ClearGoesThrough(batch: seq<Package>, st: Step)
    requires Clear(st.fetched, batch) && Shaped(batch, st)
    ensures !CleanUpHalts(batch, st)
  {
    hide CleanHalt, SignatureHalt;
    SignatureHaltsExactly(st.fetched, st.requested);
    if CleanHalt(st.fetched, Select(batch, StillPending(st))).Some? {
      CleanHaltBlocked(st.fetched, Select(batch, StillPending(st)));
    }
  }

  /** Where no directory is in the way and no fetch leaves one, no clean-up is blocked. */
  ghost predicate StaysClear(ps: seq<Package>, seen: seq<Step>, all: seq<Package>, before: Entries, now: Entries,
                             r: Result<set<string>, Stop>)
  {
    AllClear(ps, seen) && Clear(before, all) ==> Clear(now, all) && r != Result.Failure(CleanUpBlocked)
  }

  lemma BatchStaysClear(ps: seq<Package>, all: seq<Package>, start: seq<Record>, b: nat, batch: seq<Package>, mirrors: seq<Mirror>,
                        did: seq<Step>, atts: seq<Attempt>, before: Entries, now: Entries, r: Result<set<string>, Stop>,
                        network: Network, first: nat, seen: seq<Step>)
    requires batch != [] && (forall p :: p in batch ==> p in all) && forall p :: p in all ==> p in ps
    requires BatchOutcome(start, b, batch, mirrors, now, did, atts, r)
    requires BatchRan(network, first, batch, mirrors, before, now, did, seen, r)
    ensures StaysClear(ps, seen, all, before, now, r)
  {
    hide AllClear, Clear, Chain, AllAcceptable, Acceptable, AnsweredBy, Unrecorded, Uninterrupted, Shaped;
    if AllClear(ps, seen) && Clear(before, all) {
      if r == Result.Failure(CleanUpBlocked) {
        var st := seen[|seen| - 1];
        BeganUnrecorded(before, batch, did, seen, now);
        ClearPart(ps, did, [st]);
        ChainLengths(batch, mirrors, did, atts);
        if did != [] { ClearThrough(ps, all, batch, mirrors, did, atts, |did| - 1); }
        LastClear(ps, all, batch, mirrors, did, atts, st);
      } else if did != [] {
        ChainLengths(batch, mirrors, did, atts);
        ClearThrough(ps, all, batch, mirrors, did, atts, |did| - 1);
      }
    }
  }

  lemma LastClear(ps: seq<Package>, all: seq<Package>, batch: seq<Package>, mirrors: seq<Mirror>, did: seq<Step>,
                  atts: seq<Attempt>, st: Step)
    requires batch != [] && (forall p :: p in batch ==> p in all) && forall p :: p in all ==> p in ps
    requires Chain(batch, mirrors, did, atts) && Unrecorded(batch, did, st) && AllClear(ps, [st])
    ensures !Clear(st.before, all)
  {
    hide Chain, StepClear, OnlyLitter, CleanUpHalts, SideBlocked;
    UnrecordedShaped(batch, mirrors, did, atts, st);
    assert st in [st];
    if Clear(st.before, all) {
      ClearStep(ps, all, st);
      ClearGoesThrough(batch, st);
    }
  }

  // ---- the rounds of a run ----

  /** One round of acquire_prefetch_batches: the call it begins with, the cache before and after, the steps
      and attempts of the mirror loop and how that loop ended. */
  datatype Round = Round(
    first: nat, before: Entries, did: seq<Step>, atts: seq<Attempt>, seen: seq<Step>, now: Entries,
    outcome: Result<set<string>, Stop>)

  ghost predicate RoundRan(start: seq<Record>, b: nat, batch: seq<Package>, mirrors: seq<Mirror>, network: Network, rd: Round) {
    && BatchOutcome(start, b, batch, mirrors, rd.now, rd.did, rd.atts, rd.outcome)
    && BatchRan(network, rd.first, batch, mirrors, rd.before, rd.now, rd.did, rd.seen, rd.outcome)
  }

  /** What the batch loop makes of a round: it looks at the cache again. */
  function RoundResult(batch: seq<Package>, rd: Round): Result<set<string>, Stop> {
    if rd.outcome.Failure? then Failure(rd.outcome.error)
    else if VerifiedNames(rd.now, batch) != NameSet(batch) then Failure(ArchiveMissing)
    else Success(NameSet(batch))
  }

  /** Round i of a run follows on round i - 1, which completed its batch. */
  ghost predicate RoundFollows(start: seq<Record>, batches: seq<seq<Package>>, mirrors: seq<Mirror>, network: Network,
                               before: Entries, rounds: seq<Round>, i: nat)
    requires i < |rounds| <= |batches|
  {
    && RoundRan(start, i + 1, batches[i], mirrors, network, rounds[i])
    && if i == 0 then rounds[i].first == 0 && rounds[i].before == before
       else
         && rounds[i].first == rounds[i - 1].first + |rounds[i - 1].seen| && rounds[i].before == rounds[i - 1].now
         && RoundResult(batches[i - 1], rounds[i - 1]).Success?
  }

  /** What the batch loop raises after a failed round: an interrupt as it came, otherwise an error of its own. */
  ghost predicate RoundError(dir: string, start: seq<Record>, b: nat, count: nat, batch: seq<Package>, mirrors: seq<Mirror>,
                             rd: Round, e: Error)
  {
    if rd.outcome.Failure? then
      exists inner ::
        && FailsWith(dir, start, b, batch, mirrors, rd.did, rd.atts, rd.seen, rd.outcome.error, inner)
        && e == BatchError(b, count, |VerifiedNames(rd.now, batch)|, |batch|, inner)
    else e == Plain(MissingText(b, count, Names(Select(batch, NameSet(batch) - VerifiedNames(rd.now, batch)))))
  }

  function BatchError(b: nat, count: nat, verified: nat, size: nat, inner: Error): Error {
    if inner.kind.Interrupting? then inner
    else
      Error(Other,
            "package prefetch batch " + Decimal(b) + "/" + Decimal(count) + " failed; "
            + Decimal(verified) + "/" + Decimal(size) + " batch package files verified before failure",
            None, None, Some(inner))
  }

  function MissingText(b: nat, count: nat, missing: seq<string>): string {
    "package prefetch batch " + Decimal(b) + "/" + Decimal(count) + " completed without verified files: " + Joined(missing, ", ")
  }

  function AttemptsIn(rounds: seq<Round>): seq<BatchAttempt> {
    if rounds == [] then [] else AttemptsIn(rounds[..|rounds| - 1]) + Tagged(|rounds|, rounds[|rounds| - 1].atts)
  }

  ghost function SeenIn(rounds: seq<Round>): seq<Step> {
    if rounds == [] then [] else SeenIn(rounds[..|rounds| - 1]) + rounds[|rounds| - 1].seen
  }

  /** The rounds of a run from its first call: nothing but the batches, the mirrors and the network decide them. */
  ghost predicate Rounds(start: seq<Record>, batches: seq<seq<Package>>, mirrors: seq<Mirror>, network: Network,
                         before: Entries, now: Entries, attempts: seq<BatchAttempt>, rounds: seq<Round>)
  {
    && |rounds| <= |batches| && attempts == AttemptsIn(rounds)
    && now == (if rounds == [] then before else rounds[|rounds| - 1].now)
    && forall i :: 0 <= i < |rounds| ==> RoundFollows(start, batches, mirrors, network, before, rounds, i)
  }

  /** How many calls the network has answered. */
  function CallsIn(rounds: seq<Round>): nat {
    if rounds == [] then 0 else rounds[|rounds| - 1].first + |rounds[|rounds| - 1].seen|
  }

  /** The run went through all batches, or stopped in its last round. */
  ghost predicate RoundsEnd(batches: seq<seq<Package>>, rounds: seq<Round>, r: Result<set<string>, Stop>)
    requires |rounds| <= |batches|
  {
    match r
    case Success(found) =>
      |rounds| == |batches| && found == NameSet(Flatten(batches))
      && (rounds != [] ==> RoundResult(batches[|rounds| - 1], rounds[|rounds| - 1]).Success?)
    case Failure(stop) => rounds != [] && RoundResult(batches[|rounds| - 1], rounds[|rounds| - 1]) == Failure(stop)
  }

  lemma NoRounds(start: seq<Record>, batches: seq<seq<Package>>, mirrors: seq<Mirror>, network: Network, e: Entries)
    ensures Rounds(start, batches, mirrors, network, e, e, [], []) && CallsIn([]) == 0 && SeenIn([]) == []
  {
  }

  lemma OneMoreRound(rounds: seq<Round>, rd: Round)
    ensures AttemptsIn(rounds + [rd]) == AttemptsIn(rounds) + Tagged(|rounds| + 1, rd.atts)
    ensures SeenIn(rounds + [rd]) == SeenIn(rounds) + rd.seen
  {
    hide Tagged;
    assert (rounds + [rd])[..|rounds|] == rounds;
  }

  lemma RoundsAppend(start: seq<Record>, batches: seq<seq<Package>>, mirrors: seq<Mirror>, network: Network, before: Entries,
                     mid: Entries, attempts: seq<BatchAttempt>, rounds: seq<Round>, rd: Round)
    requires Rounds(start, batches, mirrors, network, before, mid, attempts, rounds) && |rounds| < |batches|
    requires RoundRan(start, |rounds| + 1, batches[|rounds|], mirrors, network, rd)
    requires rd.first == CallsIn(rounds) && rd.before == mid
    requires rounds != [] ==> RoundResult(batches[|rounds| - 1], rounds[|rounds| - 1]).Success?
    ensures Rounds(start, batches, mirrors, network, before, rd.now, attempts + Tagged(|rounds| + 1, rd.atts), rounds + [rd])
    ensures CallsIn(rounds + [rd]) == rd.first + |rd.seen| && SeenIn(rounds + [rd]) == SeenIn(rounds) + rd.seen
  {
    hide RoundRan, RoundResult, Tagged, AttemptsIn, SeenIn;
    var all := rounds + [rd];
    OneMoreRound(rounds, rd);
    forall i | 0 <= i < |all| ensures RoundFollows(start, batches, mirrors, network, before, all, i) {
      if i < |rounds| { assert RoundFollows(start, batches, mirrors, network, before, rounds, i); }
    }
  }

  // ---- the batch loop ----

  /** State after one round. */
  ghost predicate RoundDone(run: Run, batches: seq<seq<Package>>, mirrors: seq<Mirror>, i: nat, b: nat, r: Result<set<string>, Stop>,
                            seen: seq<Step>)
    requires i < |batches|
    reads run, run.ledger, run.cache
  {
    match r
    case Success(found) =>
      && Underway(run.packages, run.start, run.attempts, batches, mirrors, b, run.reusedCount) && Agrees(run)
      && found == NameSet(batches[i])
    case Failure(stop) =>
      && StoppedIn(run.packages, run.start, run.attempts, run.ledger.records, run.cache.entries, batches, mirrors, i, stop, Agrees(run))
      && (SuffixFree(run.packages) && AllKeep(run.packages, seen) && mirrors != [] ==>
          KeptInStep(run.ledger.records, run.cache.entries, batches[i], stop))
  }

  lemma ConsistentRecords(run: Run)
    requires run.Consistent()
    ensures run.ledger.records == Replay(run.start, run.attempts)
  {
  }

  lemma NextUnderway(ps: seq<Package>, start: seq<Record>, attempts: seq<BatchAttempt>, all: seq<BatchAttempt>,
                     batches: seq<seq<Package>>, mirrors: seq<Mirror>, i: nat, b: nat, reusedCount: nat)
    requires Underway(ps, start, attempts, batches, mirrors, i, reusedCount)
    requires AtBatch(ps, start, all, Replay(start, all), batches, mirrors, b, b)
    ensures Underway(ps, start, all, batches, mirrors, b, reusedCount)
  {
  }

  lemma UnderwayParts(ps: seq<Package>, start: seq<Record>, attempts: seq<BatchAttempt>, batches: seq<seq<Package>>,
                      mirrors: seq<Mirror>, i: nat, reusedCount: nat)
    requires Underway(ps, start, attempts, batches, mirrors, i, reusedCount) && i < |batches|
    ensures Planned(ps, batches) && DistinctNames(ps) && RecordNames(start) == NameSet(ps) && Forward(mirrors)
    ensures DistinctNames(batches[i])
  {
    PlannedBatch(ps, batches, i);
  }

  lemma NothingMissing(all: set<string>, found: set<string>)
    requires found <= all
    ensures all - found == {} <==> found == all
  {
    if all - found == {} {
      forall n | n in all ensures n in found { assert n !in all - found; }
    }
  }

  /** Looks at the cache after a batch and recomputes the totals from what is there. */
  method CountBatch(run: Run, batches: seq<seq<Package>>, i: nat, b: nat, ok: bool, prefetched: set<string>, pendingNames: set<string>)
    returns (verifiedBatch: set<string>, missing: bool)
    requires run.Consistent() && i < |batches|
    requires prefetched == NameSet(Flatten(batches[..i])) && pendingNames == NameSet(Flatten(batches)) - prefetched
    modifies run`summary, run`verifiedCount, run`pendingCount, run`downloadedCount, run`completedBatches
    ensures run.summary == SummaryOf(run.ledger.records)
    ensures Agrees(run) <==> CacheCounts(run.ledger.records, run.reusedCount, batches, i, run.cache.entries)
    ensures verifiedBatch == VerifiedNames(run.cache.entries, batches[i]) && (missing <==> verifiedBatch != NameSet(batches[i]))
    ensures run.completedBatches == if ok && !missing then b else old(run.completedBatches)
  {
    hide CountsMatch, CacheCounts, NameSet, VerifiedNames, SummaryOf, Size, Flatten;
    verifiedBatch := run.cache.VerifiedCachedFilenames(batches[i]);
    missing := NameSet(batches[i]) - verifiedBatch != {};
    WithinBatchNames(run.cache.entries, batches[i]);
    NothingMissing(NameSet(batches[i]), verifiedBatch);
    run.RecordPrefetchProgress(b, prefetched + verifiedBatch, pendingNames - verifiedBatch, ok && !missing);
    CountedFromCache(run.ledger.records, run.reusedCount, batches, i, run.cache.entries,
                     prefetched + verifiedBatch, pendingNames - verifiedBatch);
  }

  lemma CountedFromCache(rs: seq<Record>, reusedCount: nat, batches: seq<seq<Package>>, i: nat, e: Entries,
                         seen: set<string>, rest: set<string>)
    requires i < |batches| && seen == NameSet(Flatten(batches[..i])) + VerifiedNames(e, batches[i])
    requires rest == NameSet(Flatten(batches)) - seen
    ensures CacheCounts(rs, reusedCount, batches, i, e) == CountsMatch(rs, reusedCount, reusedCount + Size(seen), Size(rest), Size(seen))
  {
    hide CountsMatch, NameSet, VerifiedNames, Size, Flatten;
  }

  /** A batch that loses nothing leaves ledger and cache in agreement on what is verified. */
  lemma BatchHeld(ps: seq<Package>, start: seq<Record>, attempts: seq<BatchAttempt>, batches: seq<seq<Package>>,
                  mirrors: seq<Mirror>, i: nat, did: seq<Step>, atts: seq<Attempt>, before: Entries, now: Entries, reusedCount: nat,
                  b: nat, all: seq<BatchAttempt>, rs: seq<Record>, r: Result<set<string>, Stop>)
    requires Underway(ps, start, attempts, batches, mirrors, i, reusedCount) && i < |batches|
    requires b == i + 1 && all == attempts + Tagged(b, atts) && rs == Replay(start, all)
    requires BatchOutcome(start, b, batches[i], mirrors, now, did, atts, r) && Began(before, did, now)
    requires SuffixFree(ps) && AllKeep(ps, did) && mirrors != [] && Held(ps, Replay(start, attempts), before)
    ensures Held(ps, rs, now)
  {
    hide Chain, Sound, Healthy, StillPending, Acceptable, DistinctNames, VerifiedSet, Finished, Untried, Planned, Forward,
         AllAcceptable, NameSet, VerifiedNames, Divided, Gained, SuffixFree, AllKeep, Held, Began, CacheCounts, SameCount,
         RecordNames, KeptInStep, Partitions;
    PlannedBatch(ps, batches, i);
    NotEmptyBatch(ps, batches, i);
    if r.Failure? && r.error.AttemptRejected? {
      NotRefused(ps, start, batches[i], mirrors, did, atts, b);
    } else {
      AttemptsTaken(ps, start, attempts, batches, mirrors, i, did, atts, now, reusedCount, b, all, rs);
    }
    HeldThrough(ps, batches[i], mirrors, did, atts, Replay(start, attempts), rs, before, now);
  }

  lemma NotRefused(ps: seq<Package>, start: seq<Record>, batch: seq<Package>, mirrors: seq<Mirror>,
                   did: seq<Step>, atts: seq<Attempt>, b: nat)
    requires DistinctNames(ps) && DistinctNames(batch) && (forall p :: p in batch ==> p in ps) && batch != []
    requires RecordNames(start) == NameSet(ps) && b >= 1
    requires Chain(batch, mirrors, did, atts) && Forward(mirrors) && atts != [] && SuffixFree(ps) && AllKeep(ps, did)
    ensures Acceptable(start, b, atts[|atts| - 1])
  {
    hide Chain, Forward, DistinctNames, SuffixFree, AllKeep, Acceptable, Partitions, RecordNames;
    NoSteps(batch, mirrors, did, atts);
    CacheEqualsLedger(ps, batch, mirrors, did, atts);
    RefusedDoesNotPartition(ps, start, batch, mirrors, did, atts, b);
  }

  /** One round of acquire_prefetch_batches. */
  method AcquireBatch(run: Run, batches: seq<seq<Package>>, i: nat, b: nat, mirrors: seq<Mirror>, network: Network,
                      prefetched: set<string>, pendingNames: set<string>)
    returns (r: Result<set<string>, Stop>, error: Option<Error>, ghost rd: Round)
    requires run.Consistent() && i < |batches| && b == i + 1
    requires Underway(run.packages, run.start, run.attempts, batches, mirrors, i, run.reusedCount)
    requires prefetched == NameSet(Flatten(batches[..i])) && pendingNames == NameSet(Flatten(batches)) - prefetched
    modifies run`attempts, run`summary, run`verifiedCount, run`pendingCount, run`downloadedCount
    modifies run`completedBatches, run`calls, run.ledger, run.cache
    ensures run.Consistent() && run.summary == SummaryOf(run.ledger.records)
    ensures RoundRan(run.start, b, batches[i], mirrors, network, rd) && r == RoundResult(batches[i], rd)
    ensures r.Failure? ==> error.Some? && RoundError(run.path, run.start, b, |batches|, batches[i], mirrors, rd, error.value)
    ensures rd.first == old(run.calls) && run.calls == rd.first + |rd.seen|
    ensures rd.before == old(run.cache.entries) && rd.now == run.cache.entries
    ensures run.attempts == old(run.attempts) + Tagged(b, rd.atts)
    ensures AllAnswered(network, rd.seen)
    ensures RoundDone(run, batches, mirrors, i, b, r, rd.seen)
    ensures StaysHeld(run.packages, mirrors, rd.seen, old(run.ledger.records), rd.before, run.ledger.records, rd.now)
    ensures StaysClear(run.packages, rd.seen, Flatten(batches), rd.before, rd.now, r)
    ensures run.completedBatches == if r.Success? then b else old(run.completedBatches)
  {
    hide Underway, BatchOutcome, StoppedIn, Agrees, CacheCounts, AllKeep, SuffixFree, NameSet, VerifiedNames, KeptInStep,
         SummaryOf, Chain, AtBatch, AnsweredBy, AllAnswered, StaysHeld, StaysClear, Began, BatchRan, Tagged, Flatten;
    ghost var before := run.attempts;
    UnderwayParts(run.packages, run.start, run.attempts, batches, mirrors, i, run.reusedCount);
    var attempted, raised;
    ghost var did, atts, seen;
    ghost var first, cached := run.calls, run.cache.entries;
    ConsistentRecords(run);
    attempted, raised, did, atts, seen := run.AcquireBatchWithMirrorFailover(b, batches[i], mirrors, network);
    RanAnswered(network, first, batches[i], mirrors, cached, run.cache.entries, did, seen, attempted);
    rd := Round(first, cached, did, atts, seen, run.cache.entries, attempted);
    var verifiedBatch, missing := CountBatch(run, batches, i, b, attempted.Success?, prefetched, pendingNames);
    ConsistentRecords(run);
    BatchEnds(run.packages, run.start, before, batches, mirrors, i, did, atts, run.cache.entries, run.reusedCount,
              b, run.attempts, run.ledger.records, attempted, network, first, cached, seen);
    r := if attempted.Failure? then Failure(attempted.error) else if missing then Failure(ArchiveMissing) else Success(verifiedBatch);
    error := None;
    if attempted.Failure? {
      error := Some(BatchError(b, |batches|, |verifiedBatch|, |batches[i]|, raised.value));
    } else if missing {
      error := Some(Plain(MissingText(b, |batches|, Names(Select(batches[i], NameSet(batches[i]) - verifiedBatch)))));
    }
    BatchStaysHeld(run.packages, run.start, before, batches, mirrors, i, did, atts, cached, run.cache.entries, run.reusedCount,
                   b, run.attempts, run.ledger.records, attempted, network, first, seen);
    PlannedPart(run.packages, batches, i);
    BatchStaysClear(run.packages, Flatten(batches), run.start, b, batches[i], mirrors, did, atts, cached, run.cache.entries, attempted,
                    network, first, seen);
    MissingIsClear(run.packages, seen, Flatten(batches), cached, run.cache.entries, attempted, r);
    if r.Failure? { return; }
    NextUnderway(run.packages, run.start, before, run.attempts, batches, mirrors, i, b, run.reusedCount);
  }

  lemma RanAnswered(network: Network, first: nat, batch: seq<Package>, mirrors: seq<Mirror>, before: Entries, now: Entries,
                    did: seq<Step>, seen: seq<Step>, r: Result<set<string>, Stop>)
    requires BatchRan(network, first, batch, mirrors, before, now, did, seen, r)
    ensures AllAnswered(network, seen)
  {
    AnsweredSteps(network, first, mirrors, seen);
  }

  lemma PlannedPart(ps: seq<Package>, batches: seq<seq<Package>>, i: nat)
    requires Planned(ps, batches) && i < |batches|
    ensures batches[i] != [] && (forall p :: p in batches[i] ==> p in Flatten(batches)) && forall p :: p in Flatten(batches) ==> p in ps
  {
    hide DistinctNames, Flatten;
    var a, m, z := batches[..i], batches[i], batches[i + 1..];
    assert batches == a + ([m] + z);
    FlattenConcat(a, [m] + z);
    FlattenFirst(m, z);
    assert Flatten(batches) == Flatten(a) + (m + Flatten(z));
    forall p | p in m ensures p in Flatten(batches) { MiddleHas(Flatten(a), m, Flatten(z), p); }
  }

  lemma FlattenFirst(m: seq<Package>, z: seq<seq<Package>>)
    ensures Flatten([m] + z) == m + Flatten(z)
  {
    assert ([m] + z)[1..] == z;
  }

  lemma MiddleHas(a: seq<Package>, m: seq<Package>, z: seq<Package>, p: Package)
    requires p in m
    ensures p in a + (m + z)
  {
  }

  lemma MissingIsClear(ps: seq<Package>, seen: seq<Step>, all: seq<Package>, before: Entries, now: Entries,
                       r: Result<set<string>, Stop>, r': Result<set<string>, Stop>)
    requires r' == r || r' != Result.Failure(CleanUpBlocked)
    requires StaysClear(ps, seen, all, before, now, r)
    ensures StaysClear(ps, seen, all, before, now, r')
  {
    hide AllClear, Clear;
  }

  /** How batch i ended, once the loop has looked at the cache. */
  ghost predicate BatchEnd(ps: seq<Package>, start: seq<Record>, all: seq<BatchAttempt>, rs: seq<Record>, now: Entries,
                           batches: seq<seq<Package>>, mirrors: seq<Mirror>, i: nat, b: nat, r: Result<set<string>, Stop>,
                           counts: bool)
    requires i < |batches|
  {
    if r.Failure? then
      StoppedIn(ps, start, all, rs, now, batches, mirrors, i, r.error, counts)
    else if VerifiedNames(now, batches[i]) == NameSet(batches[i]) then
      AtBatch(ps, start, all, rs, batches, mirrors, b, b) && counts
    else
      StoppedIn(ps, start, all, rs, now, batches, mirrors, i, ArchiveMissing, counts)
  }

  ghost predicate KeptEnd(rs: seq<Record>, now: Entries, batch: seq<Package>, r: Result<set<string>, Stop>) {
    if r.Failure? then KeptInStep(rs, now, batch, r.error) else VerifiedNames(now, batch) == NameSet(batch)
  }

  lemma BatchEnds(ps: seq<Package>, start: seq<Record>, attempts: seq<BatchAttempt>, batches: seq<seq<Package>>,
                  mirrors: seq<Mirror>, i: nat, did: seq<Step>, atts: seq<Attempt>, now: Entries, reusedCount: nat,
                  b: nat, all: seq<BatchAttempt>, rs: seq<Record>, r: Result<set<string>, Stop>,
                  network: Network, first: nat, before: Entries, seen: seq<Step>)
    requires Underway(ps, start, attempts, batches, mirrors, i, reusedCount) && i < |batches|
    requires b == i + 1 && all == attempts + Tagged(b, atts) && rs == Replay(start, all)
    requires BatchOutcome(start, b, batches[i], mirrors, now, did, atts, r)
    requires BatchRan(network, first, batches[i], mirrors, before, now, did, seen, r)
    ensures BatchEnd(ps, start, all, rs, now, batches, mirrors, i, b, r, CacheCounts(rs, reusedCount, batches, i, now))
    ensures SuffixFree(ps) && AllKeep(ps, seen) && mirrors != [] ==> KeptEnd(rs, now, batches[i], r)
  {
    hide BatchOutcome, StoppedIn, CountsMatch, AllKeep, SuffixFree, NameSet, VerifiedNames, KeptInStep, Underway, AtBatch, CacheCounts,
         Gained, BatchRan;
    if r.Failure? {
      FailedStop(ps, start, attempts, batches, mirrors, i, did, atts, now, reusedCount, b, all, rs, r.error);
    } else {
      FinishedBatch(ps, start, attempts, batches, mirrors, i, did, atts, now, reusedCount, b, all, rs, r.value);
    }
    if SuffixFree(ps) && AllKeep(ps, seen) && mirrors != [] {
      UnderwayParts(ps, start, attempts, batches, mirrors, i, reusedCount);
      GainedInLedger(ps, start, attempts, batches, mirrors, i, did, atts, now, reusedCount, b, all, rs, r);
      KeptBatch(ps, start, batches, mirrors, i, did, atts, now, b, rs, r, network, first, before, seen);
    }
  }

  lemma GainedInLedger(ps: seq<Package>, start: seq<Record>, attempts: seq<BatchAttempt>, batches: seq<seq<Package>>,
                       mirrors: seq<Mirror>, i: nat, did: seq<Step>, atts: seq<Attempt>, now: Entries, reusedCount: nat,
                       b: nat, all: seq<BatchAttempt>, rs: seq<Record>, r: Result<set<string>, Stop>)
    requires Underway(ps, start, attempts, batches, mirrors, i, reusedCount) && i < |batches|
    requires b == i + 1 && all == attempts + Tagged(b, atts) && rs == Replay(start, all)
    requires BatchOutcome(start, b, batches[i], mirrors, now, did, atts, r)
    ensures !(r.Failure? && r.error.AttemptRejected?) ==> VerifiedSet(rs) * NameSet(batches[i]) == Gained(batches[i], did)
  {
    hide Underway, Chain, AllAcceptable, NameSet, VerifiedSet, Gained;
    if !(r.Failure? && r.error.AttemptRejected?) {
      AttemptsTaken(ps, start, attempts, batches, mirrors, i, did, atts, now, reusedCount, b, all, rs);
    }
  }

  lemma RoundLater(run: Run, batches: seq<seq<Package>>, mirrors: seq<Mirror>, i: nat, b: nat, r: Result<set<string>, Stop>,
                   earlier: seq<Step>, seen: seq<Step>)
    requires i < |batches| && RoundDone(run, batches, mirrors, i, b, r, seen) && r.Failure?
    ensures RoundDone(run, batches, mirrors, i, b, r, earlier + seen)
  {
    hide AllKeep, StoppedIn, SuffixFree, KeptInStep;
    AllKeepPart(run.packages, earlier, seen);
  }

  lemma DoneNames(ps: seq<Package>, batches: seq<seq<Package>>, i: nat)
    requires Planned(ps, batches) && i < |batches|
    ensures NameSet(Flatten(batches[..i + 1])) == NameSet(Flatten(batches[..i])) + NameSet(batches[i])
  {
    hide Planned, NameSet;
    PlannedBatch(ps, batches, i);
  }

  method AcquirePrefetchBatches(run: Run, batches: seq<seq<Package>>, mirrors: seq<Mirror>, network: Network)
    returns (r: Result<set<string>, Stop>, error: Option<Error>, ghost rounds: seq<Round>)
    requires run.Consistent() && Agrees(run) && run.summary == SummaryOf(run.ledger.records)
    requires run.completedBatches == 0 && run.calls == 0 && run.attempts == []
    requires Underway(run.packages, run.start, run.attempts, batches, mirrors, 0, run.reusedCount)
    modifies run`attempts, run`summary, run`verifiedCount, run`pendingCount, run`downloadedCount
    modifies run`completedBatches, run`calls, run.ledger, run.cache
    ensures run.Consistent() && run.summary == SummaryOf(run.ledger.records)
    ensures Rounds(run.start, batches, mirrors, network, old(run.cache.entries), run.cache.entries, run.attempts, rounds)
    ensures |rounds| <= |batches| && RoundsEnd(batches, rounds, r) && AllAnswered(network, SeenIn(rounds))
    ensures r.Success? ==>
      && Underway(run.packages, run.start, run.attempts, batches, mirrors, |batches|, run.reusedCount) && Agrees(run)
      && run.completedBatches == |batches|
    ensures r.Failure? ==>
      && run.completedBatches == |rounds| - 1
      && error.Some? && RoundError(run.path, run.start, |rounds|, |batches|, batches[|rounds| - 1], mirrors, rounds[|rounds| - 1], error.value)
      && RoundDone(run, batches, mirrors, |rounds| - 1, |rounds|, r, SeenIn(rounds))
    ensures StaysHeld(run.packages, mirrors, SeenIn(rounds), old(run.ledger.records), old(run.cache.entries),
                      run.ledger.records, run.cache.entries)
    ensures StaysClear(run.packages, SeenIn(rounds), Flatten(batches), old(run.cache.entries), run.cache.entries, r)
  {
    hide Underway, Agrees, RoundError, RoundDone, NameSet, SummaryOf, Flatten, Answered, StaysHeld, StaysClear, Rounds, RoundRan, RoundResult,
         AttemptsIn, SeenIn, CallsIn, Tagged;
    var pending := NameSet(Flatten(batches));
    var verified: set<string> := {};
    rounds := [];
    NothingVerified(batches);
    NoRounds(run.start, batches, mirrors, network, run.cache.entries);
    HeldAtFirst(run.packages, mirrors, run.ledger.records, run.cache.entries);
    ClearAtFirst(run.packages, Flatten(batches), run.cache.entries);
    for i := 0 to |batches|
      invariant run.Consistent() && run.summary == SummaryOf(run.ledger.records)
      invariant Underway(run.packages, run.start, run.attempts, batches, mirrors, i, run.reusedCount) && Agrees(run)
      invariant run.completedBatches == i == |rounds| && AllAnswered(network, SeenIn(rounds)) && run.calls == CallsIn(rounds)
      invariant Rounds(run.start, batches, mirrors, network, old(run.cache.entries), run.cache.entries, run.attempts, rounds)
      invariant rounds != [] ==> RoundResult(batches[i - 1], rounds[i - 1]).Success?
      invariant StaysHeld(run.packages, mirrors, SeenIn(rounds), old(run.ledger.records), old(run.cache.entries),
                          run.ledger.records, run.cache.entries)
      invariant StaysClear(run.packages, SeenIn(rounds), Flatten(batches), old(run.cache.entries), run.cache.entries, Success({}))
      invariant verified == NameSet(Flatten(batches[..i])) && pending == NameSet(Flatten(batches)) - verified
    {
      ghost var earlier, records, entries, attempts := rounds, run.ledger.records, run.cache.entries, run.attempts;
      ghost var rd;
      UnderwayPlanned(run.packages, run.start, run.attempts, batches, mirrors, i, run.reusedCount);
      var round, raised;
      round, raised, rd := AcquireBatch(run, batches, i, i + 1, mirrors, network, verified, pending);
      RoundsAppend(run.start, batches, mirrors, network, old(run.cache.entries), entries, attempts, earlier, rd);
      rounds := rounds + [rd];
      HeldThen(run.packages, mirrors, SeenIn(earlier), rd.seen, old(run.ledger.records), old(run.cache.entries), records, entries,
               run.ledger.records, run.cache.entries);
      ClearThen(run.packages, SeenIn(earlier), rd.seen, Flatten(batches), old(run.cache.entries), entries, run.cache.entries, round);
      if round.Failure? {
        RoundLater(run, batches, mirrors, i, i + 1, round, SeenIn(earlier), rd.seen);
        return Failure(round.error), raised, rounds;
      }
      RoundSucceeded(run, batches, mirrors, i, i + 1, round, rd.seen);
      DoneNames(run.packages, batches, i);
      verified := verified + round.value;
      pending := pending - round.value;
    }
    assert batches[..|batches|] == batches;
    ClearAnyway(run.packages, SeenIn(rounds), Flatten(batches), old(run.cache.entries), run.cache.entries, verified);
    return Success(verified), None, rounds;
  }

  lemma HeldAtFirst(ps: seq<Package>, mirrors: seq<Mirror>, rs: seq<Record>, e: Entries)
    ensures StaysHeld(ps, mirrors, [], rs, e, rs, e)
  {
  }

  lemma HeldThen(ps: seq<Package>, mirrors: seq<Mirror>, seen: seq<Step>, more: seq<Step>, earlier: seq<Record>, before: Entries,
                 mid: seq<Record>, half: Entries, rs: seq<Record>, now: Entries)
    requires StaysHeld(ps, mirrors, seen, earlier, before, mid, half) && StaysHeld(ps, mirrors, more, mid, half, rs, now)
    ensures StaysHeld(ps, mirrors, seen + more, earlier, before, rs, now)
  {
    hide SuffixFree, AllKeep, Held;
    AllKeepPart(ps, seen, more);
  }

  lemma ClearAtFirst(ps: seq<Package>, all: seq<Package>, e: Entries)
    ensures StaysClear(ps, [], all, e, e, Success({}))
  {
  }

  lemma ClearThen(ps: seq<Package>, seen: seq<Step>, more: seq<Step>, all: seq<Package>, before: Entries, half: Entries,
                  now: Entries, r: Result<set<string>, Stop>)
    requires StaysClear(ps, seen, all, before, half, Success({})) && StaysClear(ps, more, all, half, now, r)
    ensures StaysClear(ps, seen + more, all, before, now, r)
    ensures StaysClear(ps, seen + more, all, before, now, Success({}))
  {
    hide AllClear, Clear;
    ClearPart(ps, seen, more);
  }

  lemma ClearAnyway(ps: seq<Package>, seen: seq<Step>, all: seq<Package>, before: Entries, now: Entries, found: set<string>)
    requires StaysClear(ps, seen, all, before, now, Success({}))
    ensures StaysClear(ps, seen, all, before, now, Success(found))
  {
  }

  lemma NothingVerified(batches: seq<seq<Package>>)
    ensures NameSet(Flatten(batches[..0])) == {}
  {
  }

  lemma UnderwayPlanned(ps: seq<Package>, start: seq<Record>, attempts: seq<BatchAttempt>, batches: seq<seq<Package>>,
                        mirrors: seq<Mirror>, i: nat, reusedCount: nat)
    requires Underway(ps, start, attempts, batches, mirrors, i, reusedCount)
    ensures Planned(ps, batches)
  {
  }

  lemma RoundSucceeded(run: Run, batches: seq<seq<Package>>, mirrors: seq<Mirror>, i: nat, b: nat,
                       r: Result<set<string>, Stop>, seen: seq<Step>)
    requires i < |batches| && RoundDone(run, batches, mirrors, i, b, r, seen) && r.Success?
    ensures Underway(run.packages, run.start, run.attempts, batches, mirrors, b, run.reusedCount) && Agrees(run)
    ensures r.value == NameSet(batches[i])
  {
  }
}
