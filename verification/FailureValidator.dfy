/** The outer validator's accounting of a failed run: it rebuilds, attempt by attempt, the state each
    package must show, and compares the ledger with it. */
module FailureValidator {
  import opened Results
  import opened Ordering
  import opened Packages
  import opened ProgressLedger
  import opened ClosureReport

  type Table = map<string, Package>

  /** The state a package must show after an attempt that mentions it. */
  datatype Expected = Expected(
    state: State, verified: bool, needsAcquisition: bool,
    batch: nat, attempt: nat, mirror: string, failureClass: Option<FailureClass>)

  function Expectation(ba: BatchAttempt, n: string): Expected {
    var a := ba.attempt;
    if n in a.pending then Expected(Failed, false, true, ba.batch, a.number, a.mirror.server, a.failureClass)
    else Expected(DownloadedVerified, true, false, ba.batch, a.number, a.mirror.server, None)
  }

  predicate Meets(r: Record, x: Expected) {
    && r.state == x.state && r.verified == x.verified && r.needsAcquisition == x.needsAcquisition
    && r.batch == Some(x.batch) && r.attempt == Some(x.attempt) && r.mirror == Some(x.mirror)
    && r.failureClass == x.failureClass
  }

  lemma MeetsShows(r: Record, ba: BatchAttempt)
    requires Mentions(ba, r.filename)
    ensures Meets(r, Expectation(ba, r.filename)) <==> Shows(r, ba)
  {
  }

  // ---- one attempt ----

  predicate Counted(names: seq<string>, count: nat, bytes: nat, table: Table)
    requires forall n :: n in names ==> n in table
  {
    |Members(names)| == |names| && |names| == count && bytes == NamedBytes(names, table)
  }

  predicate AttemptChecks(ba: BatchAttempt, table: Table) {
    var a := ba.attempt;
    && ValidContext(ba.batch, a)
    && a.requested != []
    && (forall n :: n in a.requested + a.verified + a.pending ==> n in table)
    && Partitions(a)
    && (forall n :: n in a.requested ==> n in table) && Counted(a.requested, a.requestedCount, a.requestedBytes, table)
    && (forall n :: n in a.verified ==> n in table) && Counted(a.verified, a.verifiedCount, a.verifiedBytes, table)
    && (forall n :: n in a.pending ==> n in table) && Counted(a.pending, a.pendingCount, a.pendingBytes, table)
  }

  lemma {:induction false} OnceByCount(names: seq<string>)
    ensures |Members(names)| <= |names|
    ensures |Members(names)| == |names| <==> NoDuplicates(names)
  {
    if names == [] {
      assert Members(names) == {};
    } else {
      var front, last := names[..|names| - 1], names[|names| - 1];
      OnceByCount(front);
      assert names == front + [last];
      assert Members(names) == Members(front) + {last};
      if last in front {
        var i :| 0 <= i < |front| && front[i] == last;
        assert names[i] == names[|names| - 1];
        assert Members(names) == Members(front);
      } else {
        forall i | 0 <= i < |front| ensures names[i] != last { assert names[i] == front[i]; }
        if NoDuplicates(front) { NoDuplicatesAppend(front, last); }
        if NoDuplicates(names) { NoDuplicatesFront(names); }
      }
    }
  }

  lemma NoDuplicatesAppend(front: seq<string>, last: string)
    requires NoDuplicates(front) && last !in front
    ensures NoDuplicates(front + [last])
  {
  }

  lemma NoDuplicatesFront(names: seq<string>)
    requires names != [] && NoDuplicates(names)
    ensures NoDuplicates(names[..|names| - 1])
  {
  }

  lemma CountedExactly(ps: seq<Package>, names: seq<string>, count: nat, bytes: nat)
    requires DistinctNames(ps) && forall n :: n in names ==> n in ByName(ps)
    ensures Counted(names, count, bytes, ByName(ps)) <==> CountsAndBytes(names, count, bytes, ps)
  {
    hide DistinctNames, ByName, BytesOf, NamedBytes;
    OnceByCount(names);
    if NoDuplicates(names) { NamedBytesAreBytesOf(ps, names); }
  }

  lemma TableNames(ps: seq<Package>, names: seq<string>)
    requires DistinctNames(ps)
    ensures (forall n :: n in names ==> n in ByName(ps)) <==> Members(names) <= NameSet(ps)
  {
    assert ByName(ps).Keys == NameSet(ps);
  }

  lemma AttemptExactly(ps: seq<Package>, ba: BatchAttempt)
    requires DistinctNames(ps)
    ensures AttemptChecks(ba, ByName(ps)) <==> AttemptAccounted(ba, ps)
  {
    hide DistinctNames, ByName, ValidContext, Counted, CountsAndBytes;
    var a := ba.attempt;
    TableNames(ps, a.requested);
    TableNames(ps, a.verified);
    TableNames(ps, a.pending);
    if Members(a.requested) <= NameSet(ps) { CountedExactly(ps, a.requested, a.requestedCount, a.requestedBytes); }
    if Members(a.verified) <= NameSet(ps) { CountedExactly(ps, a.verified, a.verifiedCount, a.verifiedBytes); }
    if Members(a.pending) <= NameSet(ps) { CountedExactly(ps, a.pending, a.pendingCount, a.pendingBytes); }
    AllThree(a.requested, a.verified, a.pending, ByName(ps).Keys);
  }

  lemma AllThree(a: seq<string>, b: seq<string>, c: seq<string>, keys: set<string>)
    ensures (forall n :: n in a + b + c ==> n in keys) <==>
      (forall n :: n in a ==> n in keys) && (forall n :: n in b ==> n in keys) && (forall n :: n in c ==> n in keys)
  {
    assert forall n :: n in a + b + c <==> n in a || n in b || n in c;
  }

  // ---- the two tables the loop builds ----

  /** Where the latest attempt that mentions n stands. */
  ghost predicate Latest(attempts: seq<BatchAttempt>, n: string, x: Expected) {
    exists k: nat :: IsLatest(attempts, k, n) && x == Expectation(attempts[k], n)
  }

  ghost predicate Mentioned(attempts: seq<BatchAttempt>, n: string) { exists k :: 0 <= k < |attempts| && Mentions(attempts[k], n) }

  ghost predicate Tracked(attempts: seq<BatchAttempt>, expected: map<string, Expected>) {
    && (forall n :: n in expected <==> Mentioned(attempts, n))
    && forall n :: n in expected ==> Latest(attempts, n, expected[n])
  }

  lemma LatestKept(attempts: seq<BatchAttempt>, ba: BatchAttempt, n: string, x: Expected)
    requires !Mentions(ba, n)
    ensures Latest(attempts, n, x) ==> Latest(attempts + [ba], n, x)
    ensures Mentioned(attempts + [ba], n) <==> Mentioned(attempts, n)
  {
    var all := attempts + [ba];
    assert forall k :: 0 <= k < |attempts| ==> all[k] == attempts[k];
    if Latest(attempts, n, x) {
      var k: nat :| IsLatest(attempts, k, n) && x == Expectation(attempts[k], n);
      assert IsLatest(all, k, n) && all[k] == attempts[k];
    }
    if Mentioned(attempts, n) {
      var k :| 0 <= k < |attempts| && Mentions(attempts[k], n);
      assert Mentions(all[k], n);
    }
  }

  lemma LatestNow(attempts: seq<BatchAttempt>, ba: BatchAttempt, n: string)
    requires Mentions(ba, n)
    ensures Latest(attempts + [ba], n, Expectation(ba, n)) && Mentioned(attempts + [ba], n)
  {
    var all := attempts + [ba];
    assert all[|attempts|] == ba;
    assert IsLatest(all, |attempts|, n);
  }

  /** expected with the verified, then the pending names of an attempt entered. */
  function Entered(expected: map<string, Expected>, ba: BatchAttempt): map<string, Expected> {
    var verified := map n | n in ba.attempt.verified :: Expectation(ba, n);
    var pending := map n | n in ba.attempt.pending :: Expectation(ba, n);
    expected + verified + pending
  }

  lemma EnteredTracks(attempts: seq<BatchAttempt>, expected: map<string, Expected>, ba: BatchAttempt)
    requires Tracked(attempts, expected)
    ensures Tracked(attempts + [ba], Entered(expected, ba))
  {
    hide IsLatest, Expectation, Latest, Mentioned;
    var x := Entered(expected, ba);
    forall n
      ensures n in x <==> Mentioned(attempts + [ba], n)
      ensures n in x ==> Latest(attempts + [ba], n, x[n])
    {
      if Mentions(ba, n) {
        LatestNow(attempts, ba, n);
      } else if n in expected {
        LatestKept(attempts, ba, n, expected[n]);
      } else {
        LatestKept(attempts, ba, n, Expectation(ba, n));
      }
    }
  }

  /** Attempt numbers by batch. */
  ghost predicate Grouped(attempts: seq<BatchAttempt>, groups: map<nat, seq<nat>>) {
    forall b: nat :: NumbersOf(OfBatch(attempts, b)) == if b in groups then groups[b] else []
  }

  function NumbersOf(atts: seq<Attempt>): (r: seq<nat>)
    ensures |r| == |atts| && forall i :: 0 <= i < |atts| ==> r[i] == atts[i].number
  {
    seq(|atts|, i requires 0 <= i < |atts| => atts[i].number)
  }

  predicate IsRange(numbers: seq<nat>) { forall j :: 0 <= j < |numbers| ==> numbers[j] == j + 1 }

  function Added(groups: map<nat, seq<nat>>, ba: BatchAttempt): map<nat, seq<nat>> {
    groups[ba.batch := (if ba.batch in groups then groups[ba.batch] else []) + [ba.attempt.number]]
  }

  lemma AddedGroups(attempts: seq<BatchAttempt>, groups: map<nat, seq<nat>>, ba: BatchAttempt)
    requires Grouped(attempts, groups)
    ensures Grouped(attempts + [ba], Added(groups, ba))
  {
    var x := Added(groups, ba);
    forall b: nat ensures NumbersOf(OfBatch(attempts + [ba], b)) == if b in x then x[b] else [] {
      assert (attempts + [ba])[..|attempts|] == attempts;
      if ba.batch == b {
        assert OfBatch(attempts + [ba], b) == OfBatch(attempts, b) + [ba.attempt];
        NumbersAppend(OfBatch(attempts, b), ba.attempt);
      } else {
        assert OfBatch(attempts + [ba], b) == OfBatch(attempts, b) + [];
      }
    }
  }

  lemma NumbersAppend(atts: seq<Attempt>, a: Attempt)
    ensures NumbersOf(atts + [a]) == NumbersOf(atts) + [a.number]
  {
  }

  lemma RangeNumbers(attempts: seq<BatchAttempt>, groups: map<nat, seq<nat>>, b: nat)
    requires Grouped(attempts, groups)
    ensures Numbered(OfBatch(attempts, b)) <==> (b in groups ==> IsRange(groups[b]))
  {
    NumberedRange(OfBatch(attempts, b));
    assert NumbersOf(OfBatch(attempts, b)) == if b in groups then groups[b] else [];
  }

  predicate AllRanges(groups: map<nat, seq<nat>>) { forall b :: b in groups ==> IsRange(groups[b]) }

  ghost predicate AllNumbered(attempts: seq<BatchAttempt>) { forall b :: Numbered(OfBatch(attempts, b)) }

  lemma RangesNumber(attempts: seq<BatchAttempt>, groups: map<nat, seq<nat>>)
    requires Grouped(attempts, groups)
    ensures AllRanges(groups) <==> AllNumbered(attempts)
  {
    hide IsRange, Numbered, Grouped;
    if AllRanges(groups) {
      forall b: nat ensures Numbered(OfBatch(attempts, b)) { RangeNumbers(attempts, groups, b); }
    }
    if AllNumbered(attempts) {
      forall b | b in groups ensures IsRange(groups[b]) {
        RangeNumbers(attempts, groups, b);
        assert Numbered(OfBatch(attempts, b));
      }
    }
  }

  lemma NumberedRange(atts: seq<Attempt>)
    ensures Numbered(atts) <==> IsRange(NumbersOf(atts))
  {
    forall j | 0 <= j < |atts| ensures NumbersOf(atts)[j] == atts[j].number { }
  }

  // ---- the ledger against the tables ----

  /** Every package the attempts mention shows what is expected of it. */
  predicate AllMeet(rs: seq<Record>, expected: map<string, Expected>) {
    forall n :: n in expected ==> exists r :: r in rs && r.filename == n && Meets(r, expected[n])
  }

  lemma MeetsLatest(rs: seq<Record>, attempts: seq<BatchAttempt>, expected: map<string, Expected>)
    requires DistinctRecords(rs) && Tracked(attempts, expected)
    requires forall n :: n in expected ==> n in RecordNames(rs)
    ensures AllMeet(rs, expected) <==> LatestWins(rs, attempts)
  {
    hide DistinctRecords, Expectation, Shows, Mentions, Meets;
    if AllMeet(rs, expected) { MetWins(rs, attempts, expected); }
    if LatestWins(rs, attempts) { WinsMeet(rs, attempts, expected); }
  }

  lemma LatestUnique(attempts: seq<BatchAttempt>, j: nat, k: nat, n: string)
    requires IsLatest(attempts, j, n) && IsLatest(attempts, k, n)
    ensures j == k
  {
  }

  lemma LatestIsMentioned(attempts: seq<BatchAttempt>, k: nat, n: string)
    requires IsLatest(attempts, k, n)
    ensures Mentioned(attempts, n) && Mentions(attempts[k], n)
  {
  }

  lemma OneRecord(rs: seq<Record>, r: Record, q: Record)
    requires DistinctRecords(rs) && r in rs && q in rs && r.filename == q.filename
    ensures r == q
  {
  }

  lemma MetWins(rs: seq<Record>, attempts: seq<BatchAttempt>, expected: map<string, Expected>)
    requires DistinctRecords(rs) && Tracked(attempts, expected) && AllMeet(rs, expected)
    ensures LatestWins(rs, attempts)
  {
    hide DistinctRecords, Expectation, Shows, Mentions, Meets, Mentioned;
    forall r, k: nat | r in rs && IsLatest(attempts, k, r.filename) ensures Shows(r, attempts[k]) {
      LatestIsMentioned(attempts, k, r.filename);
      var q :| q in rs && q.filename == r.filename && Meets(q, expected[r.filename]);
      OneRecord(rs, r, q);
      var j: nat :| IsLatest(attempts, j, r.filename) && expected[r.filename] == Expectation(attempts[j], r.filename);
      LatestUnique(attempts, j, k, r.filename);
      MeetsShows(r, attempts[k]);
    }
  }

  lemma WinsMeet(rs: seq<Record>, attempts: seq<BatchAttempt>, expected: map<string, Expected>)
    requires Tracked(attempts, expected) && LatestWins(rs, attempts)
    requires forall n :: n in expected ==> n in RecordNames(rs)
    ensures AllMeet(rs, expected)
  {
    hide Expectation, Shows, Mentions, Meets, Mentioned;
    forall n | n in expected ensures exists r :: r in rs && r.filename == n && Meets(r, expected[n]) {
      var r :| r in rs && r.filename == n;
      var k: nat :| IsLatest(attempts, k, n) && expected[n] == Expectation(attempts[k], n);
      LatestIsMentioned(attempts, k, n);
      MeetsShows(r, attempts[k]);
    }
  }

  /** Names an accounted attempt mentions belong to the closure. */
  lemma MentionedInClosure(ps: seq<Package>, attempts: seq<BatchAttempt>, n: string)
    requires (forall ba :: ba in attempts ==> AttemptAccounted(ba, ps)) && Mentioned(attempts, n)
    ensures n in NameSet(ps)
  {
    var k :| 0 <= k < |attempts| && Mentions(attempts[k], n);
    assert AttemptAccounted(attempts[k], ps);
    var a := attempts[k].attempt;
    assert n in Members(a.verified) + Members(a.pending);
  }

  /** Attempts, ledger and groups, as the loop and the comparisons after it check them. */
  method AccountAttempts(ps: seq<Package>, table: Table, rs: seq<Record>, attempts: seq<BatchAttempt>) returns (ok: bool)
    requires DistinctNames(ps) && table == ByName(ps) && DistinctRecords(rs) && RecordNames(rs) == NameSet(ps)
    ensures ok <==> AttemptsAccounted(ps, rs, attempts)
  {
    hide DistinctNames, DistinctRecords, ByName, AttemptChecks, AttemptAccounted, Tracked, Grouped, Entered, Added, LatestWins,
         Numbered, AllMeet, AllRanges, RecordNames, NameSet;
    var expected: map<string, Expected> := map[];
    var groups: map<nat, seq<nat>> := map[];
    NothingTracked();
    for i := 0 to |attempts|
      invariant forall ba :: ba in attempts[..i] ==> AttemptAccounted(ba, ps)
      invariant Tracked(attempts[..i], expected) && Grouped(attempts[..i], groups)
    {
      assert attempts[..i + 1] == attempts[..i] + [attempts[i]];
      AttemptExactly(ps, attempts[i]);
      if !AttemptChecks(attempts[i], table) {
        Unaccounted(ps, rs, attempts, i);
        return false;
      }
      AddedGroups(attempts[..i], groups, attempts[i]);
      EnteredTracks(attempts[..i], expected, attempts[i]);
      groups := Added(groups, attempts[i]);
      expected := Entered(expected, attempts[i]);
    }
    assert attempts[..|attempts|] == attempts;
    RangesNumber(attempts, groups);
    TrackedInClosure(ps, attempts, expected);
    MeetsLatest(rs, attempts, expected);
    return AllRanges(groups) && AllMeet(rs, expected);
  }

  lemma NothingTracked()
    ensures Tracked([], map[]) && Grouped([], map[])
  {
  }

  lemma Unaccounted(ps: seq<Package>, rs: seq<Record>, attempts: seq<BatchAttempt>, i: nat)
    requires i < |attempts| && !AttemptAccounted(attempts[i], ps)
    ensures !AttemptsAccounted(ps, rs, attempts)
  {
    assert attempts[i] in attempts;
  }

  lemma TrackedInClosure(ps: seq<Package>, attempts: seq<BatchAttempt>, expected: map<string, Expected>)
    requires (forall ba :: ba in attempts ==> AttemptAccounted(ba, ps)) && Tracked(attempts, expected)
    ensures forall n :: n in expected ==> n in NameSet(ps)
  {
    hide AttemptAccounted, Latest, Mentioned, NameSet;
    forall n | n in expected ensures n in NameSet(ps) { MentionedInClosure(ps, attempts, n); }
  }

  // ---- the whole failure check ----

  predicate ContextChecks(r: Report, f: FailureEvidence) {
    && (!f.substage.RepositorySync? && !f.substage.Acquisition? ==> f.context == NO_CONTEXT)
    && (f.substage.RepositorySync? ==> f.context == RequiredContext(r, RepositorySync))
    && (f.substage.Acquisition? ==> f.context == RequiredContext(r, Acquisition))
  }

  method ValidateFailureConsistency(r: Report) returns (ok: bool)
    requires r.failure.Some? && ProgressAccepted(r.packages, r.progress, r.summary)
    ensures ok <==> FailConsistent(r)
  {
    hide ProgressAccepted, AttemptsAccounted, TotalsAgree, CauseFitsStage, CauseFitsClass, SummaryOf, ByName, DistinctNames,
         DistinctRecords, RecordNames, NameSet;
    var f := r.failure.value;
    if !CauseFitsStage(f.cause, f.substage) || !ContextChecks(r, f) { return false; }
    if (r.cache.prefetchRecorded || r.cache.attempts != []) && !TotalsAgree(r.cache, r.summary) { return false; }
    ProgressParts(r.packages, r.progress, r.summary);
    var accounted := AccountAttempts(r.packages, ByName(r.packages), r.progress, r.cache.attempts);
    if !accounted { return false; }
    if f.substage.Acquisition? && EndsInFailedAttempt(r.cache.attempts) {
      var found := r.cache.attempts[|r.cache.attempts| - 1].attempt.failureClass;
      if found.None? || !CauseFitsClass(f.cause, found.value) { return false; }
    }
    return true;
  }

  lemma ProgressParts(ps: seq<Package>, rs: seq<Record>, summary: Summary)
    requires ProgressAccepted(ps, rs, summary)
    ensures DistinctNames(ps) && DistinctRecords(rs) && RecordNames(rs) == NameSet(ps)
  {
  }
}
