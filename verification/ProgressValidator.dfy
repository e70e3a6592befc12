/** The outer validator's own walk over the package-progress evidence. */
module ProgressValidator {
  import opened Results
  import opened Ordering
  import opened Packages
  import opened ProgressLedger
  import opened ClosureReport

  /** The filename table, or nothing when a filename is empty or repeated. */
  method IndexPackages(ps: seq<Package>) returns (table: Option<map<string, Package>>)
    ensures table.Some? <==> NamedOnce(ps)
    ensures table.Some? ==> table.value == ByName(ps)
  {
    var index: map<string, Package> := map[];
    for i := 0 to |ps|
      invariant DistinctNames(ps[..i]) && index == ByName(ps[..i])
      invariant forall p :: p in ps[..i] ==> p.filename != ""
    {
      assert ps[i] in ps;
      NextName(ps, i);
      if ps[i].filename == "" || ps[i].filename in index { return None; }
      index := index[ps[i].filename := ps[i]];
    }
    assert ps[..|ps|] == ps;
    return Some(index);
  }

  lemma NextName(ps: seq<Package>, i: nat)
    requires i < |ps| && DistinctNames(ps[..i])
    ensures ps[..i + 1] == ps[..i] + [ps[i]]
    ensures ps[i].filename in ByName(ps[..i]) ==> !DistinctNames(ps)
    ensures ps[i].filename !in ByName(ps[..i]) ==>
      DistinctNames(ps[..i + 1]) && ByName(ps[..i + 1]) == ByName(ps[..i])[ps[i].filename := ps[i]]
  {
    hide DistinctNames;
    PrefixSplit(ps, i);
    assert ByName(ps[..i]).Keys == NameSet(ps[..i]);
    if ps[i].filename !in ByName(ps[..i]) {
      PrefixDistinct(ps, i);
      ExtendedTable(ps[..i], ps[i]);
    }
  }

  lemma ExtendedTable(ps: seq<Package>, p: Package)
    requires DistinctNames(ps) && DistinctNames(ps + [p]) && p.filename !in ByName(ps)
    ensures ByName(ps + [p]) == ByName(ps)[p.filename := p]
  {
    hide DistinctNames;
    var a, b := ByName(ps + [p]), ByName(ps)[p.filename := p];
    forall n ensures n in a <==> n in b {
      if n in a { var q :| q in ps + [p] && q.filename == n; assert q in ps || q == p; }
      if n in b && n != p.filename { var q :| q in ps && q.filename == n; assert q in ps + [p]; }
    }
    forall n | n in a ensures a[n] == b[n] {
      assert a[n] in ps + [p] && a[n].filename == n;
      if n != p.filename { SameName(ps, a[n], b[n]); }
    }
  }

  /** The checks on one record, in the validator's order. */
  predicate RecordPasses(r: Record, table: map<string, Package>, seen: set<string>) {
    && r.filename in table && r.filename !in seen
    && SameIdentity(r, table[r.filename])
    && FlagsMatch(r) && DataMatches(r)
  }

  lemma RecordDecided(ps: seq<Package>, rs: seq<Record>, i: nat)
    requires NamedOnce(ps) && i < |rs| && DistinctRecords(rs[..i])
    ensures RecordPasses(rs[i], ByName(ps), RecordNames(rs[..i])) ==> RecordAccepted(rs[i], ps) && DistinctRecords(rs[..i + 1])
    ensures !RecordPasses(rs[i], ByName(ps), RecordNames(rs[..i])) ==> !RecordAccepted(rs[i], ps) || !DistinctRecords(rs)
    ensures RecordNames(rs[..i + 1]) == RecordNames(rs[..i]) + {rs[i].filename}
  {
    hide FlagsMatch, DataMatches;
    var r, table := rs[i], ByName(ps);
    assert rs[..i + 1] == rs[..i] + [r];
    if r.filename in RecordNames(rs[..i]) {
      var q :| q in rs[..i] && q.filename == r.filename;
      var k :| 0 <= k < i && rs[k] == q;
    } else {
      forall k | 0 <= k < i ensures rs[k].filename != r.filename { assert rs[k] in rs[..i]; }
    }
    if RecordAccepted(r, ps) {
      var p :| p in ps && SameIdentity(r, p);
      SameName(ps, p, table[r.filename]);
    }
  }

  lemma RecordRefused(ps: seq<Package>, rs: seq<Record>, summary: Summary, i: nat)
    requires i < |rs| && (!RecordAccepted(rs[i], ps) || !DistinctRecords(rs))
    ensures !ProgressAccepted(ps, rs, summary)
  {
    assert rs[i] in rs;
  }

  method ValidatePackageProgress(ps: seq<Package>, progress: seq<Record>, summary: Summary) returns (ok: bool)
    ensures ok <==> ProgressAccepted(ps, progress, summary)
  {
    hide TotalsOf, TallyOf, SummaryOf, RecordAccepted, DistinctRecords, NamedOnce, RecordPasses, ByName, DistinctNames;
    var index := IndexPackages(ps);
    if index.None? { return false; }
    IndexedOnce(ps);
    var states := ZeroTotals().states;
    var resolved, verified, pending := Tally(0, 0), Tally(0, 0), Tally(0, 0);
    var seen: set<string> := {};
    NoTotals();
    NoRecords(progress);
    for i := 0 to |progress|
      invariant seen == RecordNames(progress[..i]) && DistinctRecords(progress[..i])
      invariant forall r :: r in progress[..i] ==> RecordAccepted(r, ps)
      invariant states.Keys == STATES && TotalsOf(progress[..i], Totals(resolved, verified, pending, states))
    {
      var record := progress[i];
      ghost var before := Totals(resolved, verified, pending, states);
      RecordDecided(ps, progress, i);
      assert progress[..i + 1] == progress[..i] + [record];
      if !RecordPasses(record, index.value, seen) {
        RecordRefused(ps, progress, summary, i);
        return false;
      }
      AnyState(record.state);
      seen := seen + {record.filename};
      resolved := Plus(resolved, record);
      states := states[record.state := Plus(states[record.state], record)];
      if record.verified { verified := Plus(verified, record); }
      if record.needsAcquisition { pending := Plus(pending, record); }
      TotalsStep(progress, i, before, Totals(resolved, verified, pending, states));
    }
    assert progress[..|progress|] == progress;
    TotalsAre(progress, Totals(resolved, verified, pending, states));
    return seen == NameSet(ps)
      && summary == Summary(Display(resolved.packages, verified.packages, pending.packages), resolved, verified, pending, states);
  }

  lemma IndexedOnce(ps: seq<Package>)
    requires NamedOnce(ps)
    ensures DistinctNames(ps)
  {
  }

  lemma AnyState(s: State)
    ensures s in STATES
  {
  }

  lemma NoRecords(rs: seq<Record>)
    ensures DistinctRecords(rs[..0]) && RecordNames(rs[..0]) == {}
  {
  }
}
