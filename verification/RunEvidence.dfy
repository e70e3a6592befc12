/** The evidence of several batches: what each finished batch adds, and when the totals agree. */
module RunEvidence {
  import opened Results
  import opened Ordering
  import opened Packages
  import opened PackageCache
  import opened ProgressLedger
  import opened BatchPlan
  import opened Mirrors
  import opened ClosureReport
  import opened Acquisition
  import opened AcquisitionEvidence
  import opened LedgerTotals

  /** Every recorded attempt is in order, for the pass checks and for the failure accounting. */
  ghost predicate Sound(ps: seq<Package>, start: seq<Record>, attempts: seq<BatchAttempt>, count: nat, mirrors: seq<Mirror>) {
    && (forall ba :: ba in attempts ==>
        AttemptAccepted(ba, ps, count, mirrors, MAX_MIRROR_ATTEMPTS) && AttemptAccounted(ba, ps))
    && AllAcceptable(start, attempts)
    && forall b :: Numbered(OfBatch(attempts, b))
  }

  ghost predicate Finished(attempts: seq<BatchAttempt>, batches: seq<seq<Package>>, i: nat)
    requires i <= |batches|
  {
    forall b :: 1 <= b <= i ==> BatchAccepted(OfBatch(attempts, b), Names(batches[b - 1]))
  }

  /** No attempt belongs to a batch after the i-th. */
  ghost predicate Untried(attempts: seq<BatchAttempt>, i: nat) {
    forall b :: b == 0 || b > i ==> OfBatch(attempts, b) == []
  }

  /** The batches of a plan: distinct names, all from the closure, none empty. */
  ghost predicate Planned(ps: seq<Package>, batches: seq<seq<Package>>) {
    && DistinctNames(Flatten(batches))
    && (forall p :: p in Flatten(batches) ==> p in ps)
    && forall i :: 0 <= i < |batches| ==> batches[i] != []
  }

  lemma PlannedBatch(ps: seq<Package>, batches: seq<seq<Package>>, i: nat)
    requires Planned(ps, batches) && i < |batches|
    ensures DistinctNames(batches[i]) && (forall p :: p in batches[i] ==> p in ps)
    ensures NameSet(batches[i]) !! NameSet(Flatten(batches[..i]))
    ensures NameSet(Flatten(batches[..i + 1])) == NameSet(Flatten(batches[..i])) + NameSet(batches[i])
    ensures NameSet(Flatten(batches[..i + 1])) <= NameSet(Flatten(batches))
  {
    hide DistinctNames, NameSet;
    var a, m, z := Flatten(batches[..i]), batches[i], Flatten(batches[i + 1..]);
    assert batches[..i + 1] == batches[..i] + [m];
    FlattenAppend(batches[..i], m);
    assert batches == batches[..i + 1] + batches[i + 1..];
    FlattenConcat(batches[..i + 1], batches[i + 1..]);
    ConcatNames(a, m);
    ConcatNames(a + m, z);
    MiddlePart(a, m, z);
    DisjointParts(a, m, z);
  }

  lemma MiddlePart(a: seq<Package>, m: seq<Package>, z: seq<Package>)
    requires DistinctNames(a + m + z)
    ensures DistinctNames(m) && forall p :: p in m ==> p in a + m + z
  {
    assert (a + m + z)[|a|..|a| + |m|] == m;
    SliceDistinct(a + m + z, |a|, |a| + |m|);
  }

  lemma ConcatNames(a: seq<Package>, b: seq<Package>)
    ensures NameSet(a + b) == NameSet(a) + NameSet(b)
  {
    forall n ensures n in NameSet(a + b) <==> n in NameSet(a) + NameSet(b) {
      if n in NameSet(a) { var p :| p in a && p.filename == n; assert p in a + b; }
      if n in NameSet(b) { var p :| p in b && p.filename == n; assert p in a + b; }
      if n in NameSet(a + b) { var p :| p in a + b && p.filename == n; assert p in a || p in b; }
    }
  }

  lemma SliceDistinct(s: seq<Package>, i: nat, j: nat)
    requires i <= j <= |s| && DistinctNames(s)
    ensures DistinctNames(s[i..j])
  {
  }

  lemma DisjointParts(a: seq<Package>, m: seq<Package>, z: seq<Package>)
    requires DistinctNames(a + m + z)
    ensures NameSet(m) !! NameSet(a)
  {
    forall p, q | p in a && q in m ensures p.filename != q.filename {
      var i :| 0 <= i < |a| && a[i] == p;
      var j :| 0 <= j < |m| && m[j] == q;
      assert (a + m + z)[i] == p && (a + m + z)[|a| + j] == q;
    }
  }

  // ---- one batch more ----

  lemma ChainNumbered(batch: seq<Package>, mirrors: seq<Mirror>, did: seq<Step>, atts: seq<Attempt>)
    requires Chain(batch, mirrors, did, atts)
    ensures Numbered(atts)
  {
    hide Describes, CleanedUp, Follows;
    forall j | 0 <= j < |atts| ensures atts[j].number == j + 1 {
      assert Linked(batch, mirrors, did, atts, j);
      DescribedLists(batch, did[j], j + 1, mirrors[j], atts[j]);
    }
  }

  lemma TaggedSound(ps: seq<Package>, start: seq<Record>, batch: seq<Package>, mirrors: seq<Mirror>, did: seq<Step>,
                    atts: seq<Attempt>, b: nat, count: nat)
    requires DistinctNames(ps) && DistinctNames(batch) && (forall p :: p in batch ==> p in ps) && batch != []
    requires Chain(batch, mirrors, did, atts) && Forward(mirrors) && |mirrors| <= MAX_MIRROR_ATTEMPTS && 1 <= b <= count
    requires AllAcceptable(start, Tagged(b, atts))
    ensures forall ba :: ba in Tagged(b, atts) ==>
      AttemptAccepted(ba, ps, count, mirrors, MAX_MIRROR_ATTEMPTS) && AttemptAccounted(ba, ps)
  {
    hide Chain, AttemptAccepted, AttemptAccounted, Acceptable, DistinctNames, IsHttps;
    forall ba | ba in Tagged(b, atts)
      ensures AttemptAccepted(ba, ps, count, mirrors, MAX_MIRROR_ATTEMPTS) && AttemptAccounted(ba, ps)
    {
      var j :| 0 <= j < |atts| && Tagged(b, atts)[j] == ba;
      ChainLengths(batch, mirrors, did, atts);
      AttemptMeetsValidator(ps, batch, mirrors, did, atts, j, b, count, MAX_MIRROR_ATTEMPTS);
      assert mirrors[j] in mirrors;
      AttemptMeetsAccounting(ps, batch, mirrors, did, atts, j, b);
      AcceptableParts(start, b, atts[j]);
    }
  }

  lemma AcceptableParts(start: seq<Record>, b: nat, a: Attempt)
    requires Acceptable(start, b, a)
    ensures Partitions(a)
  {
  }

  lemma UntriedAfter(attempts: seq<BatchAttempt>, i: nat, atts: seq<Attempt>, all: seq<BatchAttempt>)
    requires Untried(attempts, i) && all == attempts + Tagged(i + 1, atts)
    ensures Untried(all, i + 1) && OfBatch(all, i + 1) == atts
  {
    forall b | b == 0 || b > i + 1 ensures OfBatch(all, b) == [] {
      OfBatchTagged(attempts, i + 1, atts, b);
    }
    OfBatchTagged(attempts, i + 1, atts, i + 1);
  }

  lemma NumberedAfter(attempts: seq<BatchAttempt>, i: nat, atts: seq<Attempt>, all: seq<BatchAttempt>)
    requires Untried(attempts, i) && all == attempts + Tagged(i + 1, atts)
    requires Numbered(atts) && forall b :: Numbered(OfBatch(attempts, b))
    ensures forall b :: Numbered(OfBatch(all, b))
  {
    hide Numbered;
    forall b ensures Numbered(OfBatch(all, b)) {
      OfBatchTagged(attempts, i + 1, atts, b);
      if b == i + 1 { UntriedAfter(attempts, i, atts, all); } else { assert OfBatch(all, b) == OfBatch(attempts, b); }
    }
  }

  lemma FinishedAfter(attempts: seq<BatchAttempt>, batches: seq<seq<Package>>, i: nat, mirrors: seq<Mirror>,
                      did: seq<Step>, atts: seq<Attempt>, all: seq<BatchAttempt>)
    requires i < |batches| && batches[i] != [] && Finished(attempts, batches, i) && Untried(attempts, i)
    requires Chain(batches[i], mirrors, did, atts) && atts != [] && atts[|atts| - 1].passed
    requires all == attempts + Tagged(i + 1, atts)
    ensures Finished(all, batches, i + 1)
  {
    hide Chain, BatchAccepted;
    UntriedAfter(attempts, i, atts, all);
    ChainMeetsPlan(batches[i], mirrors, did, atts);
    forall b | 1 <= b <= i + 1 ensures BatchAccepted(OfBatch(all, b), Names(batches[b - 1])) {
      OfBatchTagged(attempts, i + 1, atts, b);
      assert b != i + 1 ==> OfBatch(all, b) == OfBatch(attempts, b);
    }
  }

  /** The attempts of the next batch keep the evidence sound; a finished batch is accepted. */
  lemma NextBatchSound(ps: seq<Package>, start: seq<Record>, attempts: seq<BatchAttempt>, batches: seq<seq<Package>>, i: nat,
                       mirrors: seq<Mirror>, did: seq<Step>, atts: seq<Attempt>)
    requires Planned(ps, batches) && DistinctNames(ps) && i < |batches|
    requires Forward(mirrors) && |mirrors| <= MAX_MIRROR_ATTEMPTS
    requires Sound(ps, start, attempts, |batches|, mirrors) && Untried(attempts, i)
    requires Chain(batches[i], mirrors, did, atts) && AllAcceptable(start, Tagged(i + 1, atts))
    ensures Sound(ps, start, attempts + Tagged(i + 1, atts), |batches|, mirrors)
  {
    hide Chain, AttemptAccepted, AttemptAccounted, Acceptable, DistinctNames, Forward, Numbered, Planned, Untried;
    PlannedBatch(ps, batches, i);
    NotEmptyBatch(ps, batches, i);
    TaggedSound(ps, start, batches[i], mirrors, did, atts, i + 1, |batches|);
    ChainNumbered(batches[i], mirrors, did, atts);
    NumberedAfter(attempts, i, atts, attempts + Tagged(i + 1, atts));
  }

  lemma NotEmptyBatch(ps: seq<Package>, batches: seq<seq<Package>>, i: nat)
    requires Planned(ps, batches) && i < |batches|
    ensures batches[i] != []
  {
  }

  /** A refused attempt is one whose lists do not split its request. */
  lemma RefusedDoesNotPartition(ps: seq<Package>, start: seq<Record>, batch: seq<Package>, mirrors: seq<Mirror>,
                                did: seq<Step>, atts: seq<Attempt>, b: nat)
    requires DistinctNames(ps) && DistinctNames(batch) && (forall p :: p in batch ==> p in ps) && batch != []
    requires RecordNames(start) == NameSet(ps) && b >= 1
    requires Chain(batch, mirrors, did, atts) && Forward(mirrors) && atts != []
    ensures var a := atts[|atts| - 1];
      (Acceptable(start, b, a) <==> Partitions(a)) && (AttemptAccounted(BatchAttempt(b, a), ps) <==> Partitions(a))
  {
    hide Chain, Describes, CleanedUp, Shaped, IsHttps, DistinctNames, CountsAndBytes, AttemptAccounted, Partitions;
    ChainLengths(batch, mirrors, did, atts);
    var n := |atts| - 1;
    var st, a := did[n], atts[n];
    assert mirrors[n] in mirrors;
    AttemptMeetsAccounting(ps, batch, mirrors, did, atts, n, b);
    ChainShaped(batch, mirrors, did, atts, n);
    LastLinked(batch, mirrors, did, atts, n);
    RequestCounted(ps, batch, st, a, n + 1, mirrors[n]);
    PassMeansClean(batch, st, n + 1, mirrors[n], a);
    DescribedLists(batch, st, n + 1, mirrors[n], a);
    MembersCount(a.requested, a.requestedCount, a.requestedBytes, ps);
  }

  lemma LastLinked(batch: seq<Package>, mirrors: seq<Mirror>, did: seq<Step>, atts: seq<Attempt>, j: nat)
    requires Chain(batch, mirrors, did, atts) && j < |atts|
    ensures j < |did| && j < |mirrors| && Describes(batch, did[j], j + 1, mirrors[j], atts[j]) && CleanedUp(batch, did[j])
  {
    assert Linked(batch, mirrors, did, atts, j);
  }

  lemma MembersCount(names: seq<string>, count: nat, bytes: nat, ps: seq<Package>)
    requires CountsAndBytes(names, count, bytes, ps)
    ensures |Members(names)| == |names|
  {
    DistinctMembers(names);
  }

  lemma {:induction false} DistinctMembers(names: seq<string>)
    requires NoDuplicates(names)
    ensures |Members(names)| == |names|
  {
    if names == [] {
      assert Members(names) == {};
    } else {
      var n := |names| - 1;
      DistinctMembers(names[..n]);
      assert names == names[..n] + [names[n]];
      assert Members(names) == Members(names[..n]) + {names[n]};
    }
  }

  // ---- the totals ----

  lemma {:induction false} ReplayConcat(rs: seq<Record>, a: seq<BatchAttempt>, b: seq<BatchAttempt>)
    ensures Replay(rs, a + b) == Replay(Replay(rs, a), b)
  {
    if b == [] {
      assert a + b == a;
    } else {
      var n := |b| - 1;
      ReplayConcat(rs, a, b[..n]);
      assert a + b == (a + b[..n]) + [b[n]];
      ReplayAppend(rs, a + b[..n], b[n]);
      assert b == b[..n] + [b[n]];
      ReplayAppend(Replay(rs, a), b[..n], b[n]);
    }
  }

  /** What the attempts of one batch make of the set the ledger counts as verified. */
  lemma LedgerAfterBatch(start: seq<Record>, attempts: seq<BatchAttempt>, b: nat, batch: seq<Package>, mirrors: seq<Mirror>,
                         did: seq<Step>, atts: seq<Attempt>)
    requires Healthy(start) && batch != [] && Chain(batch, mirrors, did, atts) && atts != []
    requires AllAcceptable(start, Tagged(b, atts))
    ensures VerifiedSet(Replay(start, attempts + Tagged(b, atts)))
      == (VerifiedSet(Replay(start, attempts)) - NameSet(batch)) + (NameSet(batch) - StillPending(did[|did| - 1]))
  {
    hide Healthy, Chain, Acceptable, StillPending;
    var rs := Replay(start, attempts);
    ReplayHealthy(start, attempts);
    SameNames(start, rs);
    forall ba | ba in Tagged(b, atts) ensures Acceptable(rs, ba.batch, ba.attempt) {
      AcceptableThere(start, rs, ba.batch, ba.attempt);
    }
    BatchMoves(rs, b, batch, mirrors, did, atts);
    ReplayConcat(start, attempts, Tagged(b, atts));
  }

  /** Set arithmetic behind the totals: the counts taken from the cache agree with the ledger exactly
      when the cache holds what the ledger says of the last batch. */
  lemma CountsAgree(closure: set<string>, reused: set<string>, planned: set<string>, done: set<string>,
                    batch: set<string>, inLedger: set<string>, inCache: set<string>)
    requires reused + planned == closure && reused !! planned
    requires done <= planned && batch <= planned && done !! batch
    requires inLedger <= batch && inCache <= batch
    ensures |done + inCache| == |done| + |inCache| && |reused + done + inLedger| == |reused| + |done| + |inLedger|
    ensures |planned - done - inCache| == |closure| - |reused| - |done| - |inCache|
    ensures inCache <= inLedger && |inCache| == |inLedger| ==> inCache == inLedger
  {
    Disjoint(done, inCache);
    Disjoint(reused, done);
    Disjoint(reused + done, inLedger);
    Disjoint(reused, planned);
    Disjoint(planned - done - inCache, done + inCache);
    assert (planned - done - inCache) + (done + inCache) == planned;
    if inCache <= inLedger && |inCache| == |inLedger| { Equal(inCache, inLedger); }
  }

  lemma CountsAgreeExactly(closure: set<string>, reused: set<string>, planned: set<string>, done: set<string>,
                           batch: set<string>, inLedger: set<string>, inCache: set<string>, verified: set<string>)
    requires reused + planned == closure && reused !! planned
    requires done <= planned && batch <= planned && done !! batch
    requires inLedger <= batch && inCache <= batch && verified == reused + done + inLedger
    ensures Size(reused) + Size(done + inCache) == Size(verified) <==> Size(inCache) == Size(inLedger)
    ensures Size(planned - (done + inCache)) == Size(closure) - Size(verified) <==> Size(inCache) == Size(inLedger)
    ensures verified * batch == inLedger
  {
    CountsAgree(closure, reused, planned, done, batch, inLedger, inCache);
    assert planned - (done + inCache) == planned - done - inCache;
  }

  lemma Disjoint(a: set<string>, b: set<string>)
    requires a !! b
    ensures |a + b| == |a| + |b|
  {
  }

  lemma Equal(a: set<string>, b: set<string>)
    requires a <= b && |a| == |b|
    ensures a == b
  {
    Disjoint(a, b - a);
    assert a + (b - a) == b;
  }
}
