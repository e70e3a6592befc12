/** The in-memory gate in front of buildiso, and its agreement with the outer validator. */
module SecurityGate {
  import opened Results
  import opened Ordering
  import opened Packages
  import opened ProgressLedger
  import opened Mirrors
  import opened ClosureReport

  /** Names of the closure and of the ledger, as the gate compares them. */
  ghost predicate LedgerCovers(ps: seq<Package>, rs: seq<Record>) {
    NamedOnce(ps) && RecordNames(rs) == NameSet(ps)
  }

  ghost predicate IdentitiesKept(ps: seq<Package>, rs: seq<Record>)
    requires DistinctNames(ps)
  {
    forall r :: r in rs ==> r.filename in ByName(ps) && SameIdentity(r, ByName(ps)[r.filename])
  }

  /** The in-memory conditions under which buildiso may start. */
  ghost predicate MayBuild(r: Report) {
    && r.passed && r.failure.None?
    && r.packages != [] && LedgerCovers(r.packages, r.progress) && IdentitiesKept(r.packages, r.progress)
    && Summarizable(r.progress) && r.summary == SummaryOf(r.progress) && AllVerified(r.summary, |r.packages|)
    && (forall q :: q in r.progress ==> IsVerifiedState(q.state))
    && CacheHandedOver(r.cache, |r.packages|)
    && ConfigsLocked(r.network, r.frozen, r.local, |r.packages|)
    && GateOpen(r.gate, |r.packages|)
  }

  lemma IdentityBroken(ps: seq<Package>, rs: seq<Record>, i: nat)
    requires DistinctNames(ps) && i < |rs|
    requires !(rs[i].filename in ByName(ps) && SameIdentity(rs[i], ByName(ps)[rs[i].filename]))
    ensures !IdentitiesKept(ps, rs)
  {
    assert rs[i] in rs;
  }

  lemma CoveredName(ps: seq<Package>, rs: seq<Record>, i: nat)
    requires LedgerCovers(ps, rs) && i < |rs|
    ensures rs[i].filename in ByName(ps)
  {
    assert rs[i].filename in RecordNames(rs);
    var p :| p in ps && p.filename == rs[i].filename;
  }

  /** The filenames, if each occurs once and none is empty. */
  method NamesOnce(ps: seq<Package>) returns (ok: bool)
    ensures ok <==> NamedOnce(ps)
  {
    var seen: set<string> := {};
    for i := 0 to |ps|
      invariant seen == NameSet(ps[..i]) && DistinctNames(ps[..i])
      invariant forall p :: p in ps[..i] ==> p.filename != ""
    {
      PrefixSplit(ps, i);
      if ps[i].filename == "" || ps[i].filename in seen {
        assert ps[i] in ps;
        return false;
      }
      PrefixDistinct(ps, i);
      seen := seen + {ps[i].filename};
    }
    assert ps[..|ps|] == ps;
    return true;
  }

  method LedgerKeepsIdentities(ps: seq<Package>, rs: seq<Record>) returns (ok: bool)
    requires LedgerCovers(ps, rs)
    ensures ok <==> IdentitiesKept(ps, rs)
  {
    hide SameIdentity, LedgerCovers;
    assert DistinctNames(ps) by { Once(ps, rs); }
    for i := 0 to |rs|
      invariant forall r :: r in rs[..i] ==> r.filename in ByName(ps) && SameIdentity(r, ByName(ps)[r.filename])
    {
      CoveredName(ps, rs, i);
      assert rs[..i + 1] == rs[..i] + [rs[i]];
      if !SameIdentity(rs[i], ByName(ps)[rs[i].filename]) {
        IdentityBroken(ps, rs, i);
        return false;
      }
    }
    assert rs[..|rs|] == rs;
    return true;
  }

  lemma Once(ps: seq<Package>, rs: seq<Record>)
    requires LedgerCovers(ps, rs)
    ensures DistinctNames(ps)
  {
  }

  method RequireBuildisoSecurityBoundary(r: Report) returns (ok: bool)
    ensures ok <==> MayBuild(r)
  {
    hide ConfigsLocked, GateOpen, CacheHandedOver, AllVerified, Summarizable, SummaryOf, NamedOnce, IdentitiesKept;
    if !r.passed || r.failure.Some? || r.packages == [] { return false; }
    var once := NamesOnce(r.packages);
    if !once || RecordNames(r.progress) != NameSet(r.packages) { return false; }
    var kept := LedgerKeepsIdentities(r.packages, r.progress);
    if !kept { return false; }
    var recomputed := SummarizePackageProgress(r.progress);
    if recomputed.Failure? || r.summary != recomputed.value || !AllVerified(recomputed.value, |r.packages|) { return false; }
    if exists q :: q in r.progress && !IsVerifiedState(q.state) { return false; }
    return CacheHandedOver(r.cache, |r.packages|)
      && ConfigsLocked(r.network, r.frozen, r.local, |r.packages|)
      && GateOpen(r.gate, |r.packages|);
  }

  // ---- the outer validator implies the gate ----

  lemma AcceptedIdentities(ps: seq<Package>, rs: seq<Record>)
    requires DistinctNames(ps) && forall r :: r in rs ==> RecordAccepted(r, ps)
    ensures IdentitiesKept(ps, rs)
  {
    hide FlagsMatch, DataMatches, DistinctNames;
    forall r | r in rs ensures r.filename in ByName(ps) && SameIdentity(r, ByName(ps)[r.filename]) {
      var p :| p in ps && SameIdentity(r, p);
      SameName(ps, p, ByName(ps)[r.filename]);
    }
  }

  lemma AcceptedSummarizable(ps: seq<Package>, rs: seq<Record>, summary: Summary)
    requires ProgressAccepted(ps, rs, summary)
    ensures Summarizable(rs) && summary == SummaryOf(rs)
  {
    forall r | r in rs ensures r.filename != "" && FlagsMatch(r) {
      assert RecordAccepted(r, ps);
      assert r.filename in RecordNames(rs);
    }
  }

  /** A ledger without pending packages holds verified states only. */
  lemma {:induction false} NothingPending(rs: seq<Record>)
    requires (forall r :: r in rs ==> FlagsMatch(r)) && TallyOf(rs, MarkedPending).packages == 0
    ensures forall r :: r in rs ==> IsVerifiedState(r.state)
  {
    if rs != [] {
      var n := |rs| - 1;
      assert rs == rs[..n] + [rs[n]];
      assert FlagsMatch(rs[n]);
      NothingPending(rs[..n]);
    }
  }

  /** Whatever passing report the outer validator accepts, the gate lets through. */
  lemma AcceptedMayBuild(r: Report)
    requires Accepted(r) && r.passed
    ensures MayBuild(r)
  {
    hide NamedOnce, AuditAccepted, PrefetchAccepted, AnchorAccepted, GateOpen, ConfigsLocked, SummaryOf, DistinctRecords;
    assert ProgressAccepted(r.packages, r.progress, r.summary);
    AcceptedOnce(r.packages);
    AcceptedIdentities(r.packages, r.progress);
    AcceptedSummarizable(r.packages, r.progress, r.summary);
    SummaryPending(r.progress);
    NothingPending(r.progress);
  }

  lemma AcceptedOnce(ps: seq<Package>)
    requires NamedOnce(ps)
    ensures DistinctNames(ps)
  {
  }

  lemma SummaryPending(rs: seq<Record>)
    ensures SummaryOf(rs).pending == TallyOf(rs, MarkedPending)
  {
  }
}
