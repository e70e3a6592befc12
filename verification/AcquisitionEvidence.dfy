/** A chain of attempts, as evidence, meets what the outer validator asks of mirror attempts. */
module AcquisitionEvidence {
  import opened Results
  import opened Ordering
  import opened Packages
  import opened PackageCache
  import opened ProgressLedger
  import opened BatchPlan
  import opened Mirrors
  import opened ClosureReport
  import opened Acquisition

  // ---- byte and count fields ----

  lemma NamesDistinct(ps: seq<Package>)
    requires DistinctNames(ps)
    ensures NoDuplicates(Names(ps))
  {
  }

  /** Summing a part of a selection gives the sum over the closure. */
  lemma PartBytes(ps: seq<Package>, sub: seq<Package>, keep: set<string>)
    requires DistinctNames(ps) && DistinctNames(sub) && (forall p :: p in sub ==> p in ps)
    requires keep <= NameSet(sub)
    ensures BytesOf(sub, keep) == BytesOf(ps, keep)
  {
    var part := Select(sub, keep);
    SelectDistinct(sub, keep);
    SelectNameSet(sub, keep);
    assert NameSet(sub) * keep == keep;
    BytesAreBytesOf(ps, part);
  }

  lemma RequestCounted(ps: seq<Package>, batch: seq<Package>, st: Step, a: Attempt, number: nat, mirror: Mirror)
    requires DistinctNames(ps) && DistinctNames(batch) && (forall p :: p in batch ==> p in ps)
    requires Shaped(batch, st) && Describes(batch, st, number, mirror, a)
    ensures a.requested != [] && Members(a.requested) == NameSet(st.requested) <= NameSet(ps)
    ensures CountsAndBytes(a.requested, a.requestedCount, a.requestedBytes, ps)
  {
    SelectDistinct(batch, NameSet(st.requested));
    NamesDistinct(st.requested);
    NamesMembers(st.requested);
    assert forall p :: p in st.requested ==> p in ps;
    BytesAreBytesOf(ps, st.requested);
  }

  lemma OutcomeCounted(ps: seq<Package>, batch: seq<Package>, st: Step, a: Attempt, number: nat, mirror: Mirror)
    requires DistinctNames(ps) && DistinctNames(batch) && (forall p :: p in batch ==> p in ps)
    requires Shaped(batch, st) && Describes(batch, st, number, mirror, a)
    ensures CountsAndBytes(a.verified, a.verifiedCount, a.verifiedBytes, ps)
    ensures CountsAndBytes(a.pending, a.pendingCount, a.pendingBytes, ps)
    ensures Members(a.verified) <= NameSet(st.requested) && Members(a.pending) <= NameSet(st.requested)
  {
    SelectDistinct(batch, NameSet(st.requested));
    assert forall p :: p in st.requested ==> p in ps;
    assert VerifiedNames(st.fetched, st.requested) <= NameSet(st.requested);
    PartBytes(ps, st.requested, VerifiedNames(st.fetched, st.requested));
    assert StillPending(st) <= st.outstanding;
    PartBytes(ps, batch, StillPending(st));
  }

  lemma RemovalsAllowed(batch: seq<Package>, st: Step, a: Attempt, number: nat, mirror: Mirror)
    requires Shaped(batch, st) && Describes(batch, st, number, mirror, a) && CleanedUp(batch, st)
    ensures NoDuplicates(a.removed) && forall e :: e in a.removed ==> AllowedRemoval(a.requested, e)
  {
    NamesMembers(st.requested);
    forall e | e in a.removed ensures AllowedRemoval(a.requested, e) {
      RemovedFor(batch, st, e);
      var n :| n in NameSet(st.requested) && e in {n, Sig(n), Part(n), SigPart(n)};
      assert n in Members(a.requested);
    }
  }

  lemma TouchedAre(p: Package)
    ensures Touched(p) == {p.filename, Sig(p.filename), Part(p.filename), SigPart(p.filename)}
  {
  }

  lemma RemovedFor(batch: seq<Package>, st: Step, e: string)
    requires Shaped(batch, st) && CleanedUp(batch, st) && e in st.fetched && e !in st.after
    ensures exists n :: n in NameSet(st.requested) && e in {n, Sig(n), Part(n), SigPart(n)}
  {
    hide Sig, Part, SigPart, Shrunk, Cleaned, LitterOnly, VerifiedNames;
    if !st.raised.Clean? && StillPending(st) == {} {
      var p :| p in st.requested && e == Sig(p.filename);
      assert p.filename in NameSet(st.requested);
    } else {
      LitterFor(st, Select(batch, StillPending(st)), e);
    }
  }

  lemma LitterFor(st: Step, rest: seq<Package>, e: string)
    requires LitterOnly(st.fetched, st.after, rest) && e in st.fetched && e !in st.after
    requires st.outstanding <= NameSet(st.requested) && forall p :: p in rest ==> p.filename in st.outstanding
    ensures exists n :: n in NameSet(st.requested) && e in {n, Sig(n), Part(n), SigPart(n)}
  {
    hide Sig, Part, SigPart, Litter, SideFiles;
    var p :| p in rest && e in Litter(st.fetched, p);
    LitterTouches(st.fetched, p);
    TouchedAre(p);
    assert p.filename in NameSet(st.requested);
  }

  // ---- the passing report ----

  lemma AttemptMeetsValidator(ps: seq<Package>, batch: seq<Package>, mirrors: seq<Mirror>, steps: seq<Step>,
                              atts: seq<Attempt>, j: nat, b: nat, batchCount: nat, limit: nat)
    requires DistinctNames(ps) && DistinctNames(batch) && (forall p :: p in batch ==> p in ps) && batch != []
    requires Chain(batch, mirrors, steps, atts) && j < |atts|
    requires |mirrors| <= limit && 1 <= b <= batchCount
    ensures AttemptAccepted(BatchAttempt(b, atts[j]), ps, batchCount, mirrors, limit)
  {
    hide Describes, CleanedUp, Shaped, CountsAndBytes, AllowedRemoval, DistinctNames, NoDuplicates;
    var st, a := steps[j], atts[j];
    assert Linked(batch, mirrors, steps, atts, j);
    ChainShaped(batch, mirrors, steps, atts, j);
    RequestCounted(ps, batch, st, a, j + 1, mirrors[j]);
    OutcomeCounted(ps, batch, st, a, j + 1, mirrors[j]);
    RemovalsAllowed(batch, st, a, j + 1, mirrors[j]);
    PassMeansClean(batch, st, j + 1, mirrors[j], a);
    DescribedLists(batch, st, j + 1, mirrors[j], a);
  }

  lemma NamesConcat(a: seq<Package>, b: seq<Package>)
    ensures Names(a + b) == Names(a) + Names(b)
  {
  }

  lemma NamesHead(ps: seq<Package>)
    requires ps != []
    ensures Names(ps) == [ps[0].filename] + Names(ps[1..]) && Names(ps)[1..] == Names(ps[1..])
  {
  }

  lemma {:induction false} SelectNamesOf(ps: seq<Package>, keep: set<string>)
    ensures SelectNames(Names(ps), keep) == Names(Select(ps, keep))
  {
    if ps != [] {
      hide Names;
      NamesHead(ps);
      SelectNamesOf(ps[1..], keep);
      var head := if ps[0].filename in keep then [ps[0]] else [];
      NamesConcat(head, Select(ps[1..], keep));
      OneName(ps[0]);
      assert Select(ps, keep) == head + Select(ps[1..], keep);
    }
  }

  lemma OneName(p: Package)
    ensures Names([p]) == [p.filename] && Names([]) == []
  {
  }

  lemma RequestWithin(batch: seq<Package>, st: Step)
    requires Shaped(batch, st)
    ensures Members(Names(st.requested)) <= Members(Names(batch))
    ensures SelectNames(Names(batch), Members(Names(st.requested))) == Names(st.requested)
  {
    NamesMembers(batch);
    NamesMembers(st.requested);
    SelectNamesOf(batch, NameSet(st.requested));
  }

  /** A finished chain is what the validator expects of the batch it planned. */
  lemma ChainMeetsPlan(batch: seq<Package>, mirrors: seq<Mirror>, steps: seq<Step>, atts: seq<Attempt>)
    requires batch != [] && Chain(batch, mirrors, steps, atts) && atts != [] && atts[|atts| - 1].passed
    ensures BatchAccepted(atts, Names(batch))
  {
    hide CleanedUp, SelectNames, Describes, Follows, StillPending, Shaped;
    forall j | 0 <= j < |atts| ensures WithinBatch(atts[j], Names(batch)) && atts[j].number == j + 1 {
      assert Linked(batch, mirrors, steps, atts, j);
      DescribedLists(batch, steps[j], j + 1, mirrors[j], atts[j]);
      ChainShaped(batch, mirrors, steps, atts, j);
      RequestWithin(batch, steps[j]);
    }
    assert Linked(batch, mirrors, steps, atts, 0);
    DescribedLists(batch, steps[0], 1, mirrors[0], atts[0]);
    var n := |atts| - 1;
    assert Linked(batch, mirrors, steps, atts, n);
    PassMeansClean(batch, steps[n], n + 1, mirrors[n], atts[n]);
  }

  // ---- the failed report ----

  lemma AttemptMeetsAccounting(ps: seq<Package>, batch: seq<Package>, mirrors: seq<Mirror>, steps: seq<Step>,
                               atts: seq<Attempt>, j: nat, b: nat)
    requires DistinctNames(ps) && DistinctNames(batch) && (forall p :: p in batch ==> p in ps) && batch != []
    requires Chain(batch, mirrors, steps, atts) && j < |atts|
    requires b >= 1 && IsHttps(mirrors[j].server)
    ensures AttemptAccounted(BatchAttempt(b, atts[j]), ps) <==> Partitions(atts[j])
  {
    var st, a := steps[j], atts[j];
    assert Linked(batch, mirrors, steps, atts, j);
    ChainShaped(batch, mirrors, steps, atts, j);
    RequestCounted(ps, batch, st, a, j + 1, mirrors[j]);
    OutcomeCounted(ps, batch, st, a, j + 1, mirrors[j]);
    PassMeansClean(batch, st, j + 1, mirrors[j], a);
    DescribedLists(batch, st, j + 1, mirrors[j], a);
  }

  // ---- grouping by batch ----

  function Tagged(b: nat, atts: seq<Attempt>): (r: seq<BatchAttempt>)
    ensures |r| == |atts|
  {
    seq(|atts|, j requires 0 <= j < |atts| => BatchAttempt(b, atts[j]))
  }

  lemma OfBatchAppend(attempts: seq<BatchAttempt>, ba: BatchAttempt, c: nat)
    ensures OfBatch(attempts + [ba], c) == OfBatch(attempts, c) + if ba.batch == c then [ba.attempt] else []
  {
    assert (attempts + [ba])[..|attempts|] == attempts;
  }

  lemma {:induction false} OfBatchTagged(attempts: seq<BatchAttempt>, b: nat, atts: seq<Attempt>, c: nat)
    ensures OfBatch(attempts + Tagged(b, atts), c) == OfBatch(attempts, c) + if b == c then atts else []
  {
    if atts == [] {
      assert attempts + Tagged(b, atts) == attempts;
    } else {
      var front, last := atts[..|atts| - 1], atts[|atts| - 1];
      OfBatchTagged(attempts, b, front, c);
      assert attempts + Tagged(b, atts) == (attempts + Tagged(b, front)) + [BatchAttempt(b, last)];
      OfBatchAppend(attempts + Tagged(b, front), BatchAttempt(b, last), c);
      assert front + [last] == atts;
    }
  }

  // ---- the ledger as a replay of the attempts ----

  function Replay(rs: seq<Record>, attempts: seq<BatchAttempt>): (r: seq<Record>)
    ensures |r| == |rs|
  {
    if attempts == [] then rs
    else
      var last := attempts[|attempts| - 1];
      Next(Replay(rs, attempts[..|attempts| - 1]), AttemptEvent(last.batch, last.attempt))
  }

  lemma ReplayAppend(rs: seq<Record>, attempts: seq<BatchAttempt>, ba: BatchAttempt)
    ensures Replay(rs, attempts + [ba]) == Next(Replay(rs, attempts), AttemptEvent(ba.batch, ba.attempt))
  {
    assert (attempts + [ba])[..|attempts|] == attempts;
  }

  /** A replay is a run of the ledger, so it keeps everything a run keeps. */
  lemma {:induction false} ReplayHealthy(rs: seq<Record>, attempts: seq<BatchAttempt>)
    requires Healthy(rs)
    ensures Healthy(Replay(rs, attempts)) && SameClosure(rs, Replay(rs, attempts))
  {
    if attempts != [] {
      var n := |attempts| - 1;
      ReplayHealthy(rs, attempts[..n]);
      NextHealthy(Replay(rs, attempts[..n]), AttemptEvent(attempts[n].batch, attempts[n].attempt));
    }
  }

  lemma SameNames(a: seq<Record>, b: seq<Record>)
    requires SameClosure(a, b)
    ensures RecordNames(a) == RecordNames(b)
  {
    forall n | n in RecordNames(a) ensures n in RecordNames(b) {
      var r :| r in a && r.filename == n;
      var i :| 0 <= i < |a| && a[i] == r;
      assert b[i] in b && b[i].filename == n;
    }
    forall n | n in RecordNames(b) ensures n in RecordNames(a) {
      var r :| r in b && r.filename == n;
      var i :| 0 <= i < |b| && b[i] == r;
      assert a[i] in a && a[i].filename == n;
    }
  }

  ghost predicate AllAcceptable(rs: seq<Record>, attempts: seq<BatchAttempt>) {
    forall ba :: ba in attempts ==> Acceptable(rs, ba.batch, ba.attempt)
  }

  lemma ReplayStep(rs: seq<Record>, attempts: seq<BatchAttempt>, front: seq<BatchAttempt>, last: BatchAttempt)
    requires Healthy(rs) && attempts == front + [last] && Acceptable(rs, last.batch, last.attempt)
    ensures Replay(rs, attempts) == Attempted(Replay(rs, front), last.batch, last.attempt)
    ensures Partitions(last.attempt) && ValidContext(last.batch, last.attempt)
  {
    hide Healthy, Attempted;
    ReplayAppend(rs, front, last);
    ReplayHealthy(rs, front);
    SameNames(rs, Replay(rs, front));
  }

  lemma LastAcceptable(rs: seq<Record>, attempts: seq<BatchAttempt>, front: seq<BatchAttempt>, last: BatchAttempt)
    requires attempts == front + [last] && AllAcceptable(rs, attempts)
    ensures AllAcceptable(rs, front) && Acceptable(rs, last.batch, last.attempt)
  {
    hide Acceptable;
    assert last in attempts;
  }

  lemma NoneShown(rs: seq<Record>)
    ensures LatestWins(rs, [])
  {
  }

  /** The replayed ledger shows, for every package, the latest attempt that mentions it. */
  lemma {:induction false} ReplayShowsLatest(rs: seq<Record>, attempts: seq<BatchAttempt>)
    requires Healthy(rs) && AllAcceptable(rs, attempts)
    ensures LatestWins(Replay(rs, attempts), attempts)
  {
    hide LatestWins, Healthy, Attempted, AllAcceptable, Replay, Acceptable;
    if attempts == [] {
      NoneShown(Replay(rs, attempts));
    } else {
      var n := |attempts| - 1;
      var front, last := attempts[..n], attempts[n];
      LastAcceptable(rs, attempts, front, last);
      ReplayShowsLatest(rs, front);
      ReplayStep(rs, attempts, front, last);
      LatestAfter(Replay(rs, front), front, last);
      assert front + [last] == attempts;
    }
  }

  lemma LatestAfter(mid: seq<Record>, front: seq<BatchAttempt>, last: BatchAttempt)
    requires LatestWins(mid, front) && Partitions(last.attempt) && ValidContext(last.batch, last.attempt)
    ensures LatestWins(Attempted(mid, last.batch, last.attempt), front + [last])
  {
    hide LatestWins, Partitions, ValidContext, Shows, Mentions;
    var s := Attempted(mid, last.batch, last.attempt);
    forall r, k: nat | r in s && IsLatest(front + [last], k, r.filename) ensures Shows(r, (front + [last])[k]) {
      var i :| 0 <= i < |mid| && s[i] == r;
      assert r.filename == mid[i].filename;
      LatestStep(mid, front, last, i, k);
    }
    LatestIntro(s, front + [last]);
  }

  lemma LatestIntro(rs: seq<Record>, attempts: seq<BatchAttempt>)
    requires forall r, k: nat :: r in rs && IsLatest(attempts, k, r.filename) ==> Shows(r, attempts[k])
    ensures LatestWins(rs, attempts)
  {
  }

  lemma LatestStep(mid: seq<Record>, front: seq<BatchAttempt>, last: BatchAttempt, i: nat, k: nat)
    requires i < |mid| && Partitions(last.attempt) && ValidContext(last.batch, last.attempt)
    requires LatestWins(mid, front)
    requires IsLatest(front + [last], k, mid[i].filename)
    ensures Shows(AttemptedRecord(mid[i], last.batch, last.attempt), (front + [last])[k])
  {
    var r := mid[i];
    var all := front + [last];
    assert r in mid;
    if Mentions(last, r.filename) {
      assert all[|front|] == last;
      assert k == |front|;
      if r.filename in last.attempt.verified { assert r.filename in Members(last.attempt.verified); }
      if r.filename in last.attempt.pending { assert r.filename in Members(last.attempt.pending); }
    } else {
      assert k < |front|;
      forall j | k < j < |front| ensures !Mentions(front[j], r.filename) { assert all[j] == front[j]; }
      assert all[k] == front[k] && IsLatest(front, k, r.filename);
    }
  }
}
