/** Ledger totals as set sizes, and what the attempts of one batch do to them. */
module LedgerTotals {
  import opened Results
  import opened Ordering
  import opened Packages
  import opened PackageCache
  import opened ProgressLedger
  import opened ClosureReport
  import opened Mirrors
  import opened Acquisition
  import opened AcquisitionEvidence

  /** The packages the ledger counts as verified. */
  ghost function VerifiedSet(rs: seq<Record>): set<string> { set r | r in rs && r.verified :: r.filename }

  lemma {:induction false} VerifiedCount(rs: seq<Record>)
    requires DistinctRecords(rs)
    ensures TallyOf(rs, MarkedVerified).packages == |VerifiedSet(rs)|
  {
    if rs == [] {
      assert VerifiedSet(rs) == {};
    } else {
      var n := |rs| - 1;
      VerifiedCount(rs[..n]);
      VerifiedSetLast(rs);
    }
  }

  lemma VerifiedSetLast(rs: seq<Record>)
    requires rs != [] && DistinctRecords(rs)
    ensures var n := |rs| - 1;
      VerifiedSet(rs) == VerifiedSet(rs[..n]) + (if rs[n].verified then {rs[n].filename} else {})
      && rs[n].filename !in VerifiedSet(rs[..n])
  {
    var n := |rs| - 1;
    assert rs == rs[..n] + [rs[n]];
  }

  lemma {:induction false} RecordCount(rs: seq<Record>)
    requires DistinctRecords(rs)
    ensures |RecordNames(rs)| == |rs|
  {
    if rs == [] {
      assert RecordNames(rs) == {};
    } else {
      var n := |rs| - 1;
      RecordCount(rs[..n]);
      assert rs == rs[..n] + [rs[n]];
      assert RecordNames(rs) == RecordNames(rs[..n]) + {rs[n].filename};
    }
  }

  /** Number of names. */
  ghost function Size(names: set<string>): nat { |names| }

  lemma TotalsAsSets(rs: seq<Record>)
    requires Healthy(rs)
    ensures SummaryOf(rs).verified.packages == Size(VerifiedSet(rs))
    ensures SummaryOf(rs).pending.packages == Size(RecordNames(rs)) - Size(VerifiedSet(rs))
    ensures SummaryOf(rs).resolved.packages == Size(RecordNames(rs))
  {
    VerifiedCount(rs);
    RecordCount(rs);
    SummaryConserves(rs);
  }

  // ---- one attempt and one batch ----

  lemma VerifiedSetAt(rs: seq<Record>, i: nat)
    requires i < |rs| && DistinctRecords(rs)
    ensures rs[i].filename in VerifiedSet(rs) <==> rs[i].verified
  {
    assert rs[i] in rs;
  }

  lemma MovedAt(rs: seq<Record>, batch: nat, a: Attempt, i: nat)
    requires i < |rs| && DistinctRecords(rs) && Partitions(a)
    ensures var n := rs[i].filename;
      n in VerifiedSet(Attempted(rs, batch, a)) <==> n in (VerifiedSet(rs) - Members(a.pending)) + Members(a.verified)
  {
    var s := Attempted(rs, batch, a);
    assert s[i] == AttemptedRecord(rs[i], batch, a);
    assert DistinctRecords(s);
    VerifiedSetAt(rs, i);
    VerifiedSetAt(s, i);
  }

  /** An accepted attempt moves exactly its own names. */
  lemma AttemptMoves(rs: seq<Record>, batch: nat, a: Attempt)
    requires DistinctRecords(rs) && Acceptable(rs, batch, a)
    ensures VerifiedSet(Attempted(rs, batch, a)) == (VerifiedSet(rs) - Members(a.pending)) + Members(a.verified)
  {
    hide Attempted, AttemptedRecord, DistinctRecords;
    var s := Attempted(rs, batch, a);
    AttemptKeepsNames(rs, batch, a);
    assert VerifiedSet(rs) <= RecordNames(rs) && VerifiedSet(s) <= RecordNames(rs);
    assert Members(a.verified) <= Members(a.requested);
    forall n | n in RecordNames(rs)
      ensures n in VerifiedSet(s) <==> n in (VerifiedSet(rs) - Members(a.pending)) + Members(a.verified)
    {
      var r :| r in rs && r.filename == n;
      var i :| 0 <= i < |rs| && rs[i] == r;
      MovedAt(rs, batch, a, i);
    }
  }

  lemma AttemptKeepsNames(rs: seq<Record>, batch: nat, a: Attempt)
    ensures RecordNames(Attempted(rs, batch, a)) == RecordNames(rs)
  {
    SameNames(rs, Attempted(rs, batch, a));
  }

  /** After the attempts of a batch the ledger counts exactly the batch names that are not pending,
      and outside the batch what it counted before. */
  ghost predicate BatchSettled(before: seq<Record>, after: seq<Record>, batch: seq<Package>, pending: set<string>) {
    VerifiedSet(after) == (VerifiedSet(before) - NameSet(batch)) + (NameSet(batch) - pending)
  }

  /** The last attempt of a chain, on the ledger it finds. */
  lemma LastAttemptMoves(mid: seq<Record>, b: nat, batch: seq<Package>, mirrors: seq<Mirror>, steps: seq<Step>, atts: seq<Attempt>, n: nat)
    requires Healthy(mid) && batch != [] && Chain(batch, mirrors, steps, atts) && n < |atts|
    requires Acceptable(mid, b, atts[n])
    ensures var a, st, after := atts[n], steps[n], Attempted(mid, b, atts[n]);
      && VerifiedSet(after) == (VerifiedSet(mid) - Members(a.pending)) + Members(a.verified)
      && Members(a.pending) == StillPending(st) && Members(a.verified) !! Members(a.pending)
      && Members(a.verified) + Members(a.pending) == NameSet(st.requested)
      && st.outstanding <= NameSet(st.requested) <= NameSet(batch)
      && (n == 0 ==> st.requested == batch)
      && (n > 0 ==> st.outstanding == StillPending(steps[n - 1]))
  {
    hide Healthy, Describes, CleanedUp, Shaped, Attempted, StillPending, VerifiedSet;
    HealthyDistinct(mid);
    AttemptMoves(mid, b, atts[n]);
    ChainShaped(batch, mirrors, steps, atts, n);
    ShapedCovers(batch, steps[n]);
    assert Linked(batch, mirrors, steps, atts, n);
    DescribedLists(batch, steps[n], n + 1, mirrors[n], atts[n]);
    NamesMembers(steps[n].requested);
  }

  lemma ReplayLast(rs: seq<Record>, b: nat, atts: seq<Attempt>, n: nat)
    requires Healthy(rs) && n + 1 == |atts| && AllAcceptable(rs, Tagged(b, atts))
    ensures var mid := Replay(rs, Tagged(b, atts[..n]));
      && Healthy(mid) && Acceptable(mid, b, atts[n])
      && Replay(rs, Tagged(b, atts)) == Attempted(mid, b, atts[n])
      && AllAcceptable(rs, Tagged(b, atts[..n]))
  {
    hide Healthy, Attempted;
    var front := Tagged(b, atts[..n]);
    assert Tagged(b, atts) == front + [BatchAttempt(b, atts[n])];
    ReplayAppend(rs, front, BatchAttempt(b, atts[n]));
    ReplayHealthy(rs, front);
    SameNames(rs, Replay(rs, front));
    assert BatchAttempt(b, atts[n]) in Tagged(b, atts);
    AcceptableThere(rs, Replay(rs, front), b, atts[n]);
  }

  lemma {:induction false} BatchMoves(rs: seq<Record>, b: nat, batch: seq<Package>, mirrors: seq<Mirror>,
                                      steps: seq<Step>, atts: seq<Attempt>)
    requires Healthy(rs) && batch != [] && Chain(batch, mirrors, steps, atts) && atts != []
    requires AllAcceptable(rs, Tagged(b, atts))
    ensures BatchSettled(rs, Replay(rs, Tagged(b, atts)), batch, StillPending(steps[|steps| - 1]))
    decreases |atts|
  {
    hide Healthy, Acceptable, BatchSettled, Attempted, StillPending, VerifiedSet, Linked, AllAcceptable;
    var n := |atts| - 1;
    var mid := Replay(rs, Tagged(b, atts[..n]));
    ReplayLast(rs, b, atts, n);
    LastAttemptMoves(mid, b, batch, mirrors, steps, atts, n);
    if n == 0 {
      assert Tagged(b, atts[..n]) == [];
      FirstAttemptSettles(rs, Replay(rs, Tagged(b, atts)), batch, steps[n], atts[n]);
    } else {
      ChainPrefix(batch, mirrors, steps, atts, n);
      BatchMoves(rs, b, batch, mirrors, steps[..n], atts[..n]);
      assert steps[..n][|steps[..n]| - 1] == steps[n - 1];
      LaterAttemptSettles(rs, mid, Replay(rs, Tagged(b, atts)), batch, steps[n - 1], steps[n], atts[n]);
    }
  }

  lemma AcceptableThere(rs: seq<Record>, mid: seq<Record>, b: nat, a: Attempt)
    requires RecordNames(rs) == RecordNames(mid) && Acceptable(rs, b, a)
    ensures Acceptable(mid, b, a)
  {
  }

  lemma HealthyDistinct(rs: seq<Record>)
    requires Healthy(rs)
    ensures DistinctRecords(rs)
  {
  }

  lemma ShapedCovers(batch: seq<Package>, st: Step)
    requires Shaped(batch, st)
    ensures st.outstanding <= NameSet(st.requested) <= NameSet(batch)
  {
  }

  lemma ChainPrefix(batch: seq<Package>, mirrors: seq<Mirror>, steps: seq<Step>, atts: seq<Attempt>, n: nat)
    requires Chain(batch, mirrors, steps, atts) && n <= |steps|
    ensures Chain(batch, mirrors, steps[..n], atts[..n])
  {
    forall j | 0 <= j < n ensures Linked(batch, mirrors, steps[..n], atts[..n], j) {
      assert Linked(batch, mirrors, steps, atts, j);
    }
  }

  lemma FirstAttemptSettles(rs: seq<Record>, after: seq<Record>, batch: seq<Package>, st: Step, a: Attempt)
    requires VerifiedSet(after) == (VerifiedSet(rs) - Members(a.pending)) + Members(a.verified)
    requires Members(a.pending) == StillPending(st) && Members(a.verified) !! Members(a.pending)
    requires Members(a.verified) + Members(a.pending) == NameSet(st.requested) && st.requested == batch
    ensures BatchSettled(rs, after, batch, StillPending(st))
  {
  }

  lemma LaterAttemptSettles(rs: seq<Record>, mid: seq<Record>, after: seq<Record>, batch: seq<Package>, prev: Step, st: Step, a: Attempt)
    requires BatchSettled(rs, mid, batch, StillPending(prev)) && st.outstanding == StillPending(prev)
    requires VerifiedSet(after) == (VerifiedSet(mid) - Members(a.pending)) + Members(a.verified)
    requires Members(a.pending) == StillPending(st) && Members(a.verified) !! Members(a.pending)
    requires Members(a.verified) + Members(a.pending) == NameSet(st.requested)
    requires st.outstanding <= NameSet(st.requested) <= NameSet(batch)
    ensures BatchSettled(rs, after, batch, StillPending(st))
  {
    assert StillPending(st) <= st.outstanding;
  }
}
