/** One batch across bounded mirrors, as a chain of attempts: what each attempt asked for, what the
    network did to the cache, and what the recorded evidence says about it. */
module Acquisition {
  import opened Results
  import opened Errors
  import opened Ordering
  import opened Packages
  import opened PackageCache
  import opened ProgressLedger
  import opened BatchPlan
  import opened Mirrors
  import opened ClosureReport
  import opened Diagnosis

  /** A fetch raises nothing or an error. */
  datatype Raised = Clean | Raising(error: Error) {
    function Caught(): Option<Error> { if Raising? then Some(error) else None }

    /** KeyboardInterrupt or SystemExit. */
    predicate Interrupts() { Raising? && error.kind.Interrupting? }
  }

  datatype Fetched = Fetched(entries: Entries, raised: Raised)

  /** What the n-th fetch of a run does to the cache: any function, so any behaviour of the network. */
  type Network = (nat, Mirror, seq<Package>, Entries) -> Fetched

  /** One attempt as it happened: what was outstanding and asked for, and the cache before the fetch,
      after it, and after the clean-up. */
  datatype Step = Step(
    outstanding: set<string>, requested: seq<Package>, before: Entries, fetched: Entries, after: Entries, raised: Raised)

  /** A list of names is the sorted form of a set. */
  ghost predicate ListsSet(names: seq<string>, s: set<string>) {
    Members(names) == s && NoDuplicates(names) && IsSorted(names, Itself)
  }

  ghost function StillPending(st: Step): set<string> { st.outstanding - VerifiedNames(st.fetched, st.requested) }

  /** The evidence of an attempt describes the step it stands for. */
  ghost predicate Describes(batch: seq<Package>, st: Step, number: nat, mirror: Mirror, a: Attempt) {
    match a
    case Attempt(number', mirror', requestedCount, requestedBytes, requested, verifiedCount, verifiedBytes, verified,
                 pendingCount, pendingBytes, pending, removed, passed, failureClass, detail) =>
      && number' == number && mirror' == mirror
      && requested == Names(st.requested) && requestedCount == |requested| && requestedBytes == Bytes(st.requested)
      && ListsSet(verified, VerifiedNames(st.fetched, st.requested))
      && verifiedCount == |verified| && verifiedBytes == BytesOf(st.requested, VerifiedNames(st.fetched, st.requested))
      && ListsSet(pending, StillPending(st))
      && pendingCount == |pending| && pendingBytes == BytesOf(batch, StillPending(st))
      && Removed(st.fetched, st.after, removed) && IsSorted(removed, Itself)
      && passed == (st.raised.Clean? && StillPending(st) == {})
      && failureClass == AcquisitionClass(st.raised.Caught(), StillPending(st) != {})
      && detail == AttemptDetail(st.raised.Caught(), StillPending(st) != {})
  }

  /** Every archive matches although the transaction failed, so the whole request is to be repeated. */
  ghost predicate Repeats(st: Step) { !st.raised.Clean? && StillPending(st) == {} }

  /** A clean-up removes only litter of what is still pending, or, before a repeat, detached signatures. */
  ghost predicate OnlyLitter(batch: seq<Package>, st: Step) {
    Shrunk(st.fetched, st.after) &&
    if Repeats(st) then
      forall n :: n in st.fetched && n !in st.after ==> exists p :: p in st.requested && n == Sig(p.filename)
    else
      LitterOnly(st.fetched, st.after, Select(batch, StillPending(st)))
  }

  /** The entry a clean-up stops at: a directory among what it unlinks, or among the signatures before a repeat. */
  ghost function HaltOf(batch: seq<Package>, st: Step): Option<CacheError> {
    if Repeats(st) then
      (match SignatureHalt(st.fetched, st.requested)
       case Some(n) => Some(SpecialEntry(RETRY_SIGNATURE, n))
       case None => None)
    else
      (match CleanHalt(st.fetched, Select(batch, StillPending(st)))
       case Some(n) => Some(IsDirectory(n))
       case None => None)
  }

  ghost predicate CleanUpHalts(batch: seq<Package>, st: Step) { HaltOf(batch, st).Some? }

  /** A clean-up that went through left none of it. */
  ghost predicate CleanedUp(batch: seq<Package>, st: Step) {
    && OnlyLitter(batch, st) && !CleanUpHalts(batch, st)
    && if Repeats(st) then forall p :: p in st.requested ==> Sig(p.filename) !in st.after
       else Cleaned(st.after, Select(batch, StillPending(st)))
  }

  /** The request after an attempt: what is still pending, or, when nothing is, the same again. */
  ghost predicate Follows(batch: seq<Package>, prev: Step, st: Step) {
    && st.before == prev.after
    && st.outstanding == StillPending(prev)
    && st.requested == if StillPending(prev) == {} then prev.requested else Select(batch, st.outstanding)
  }

  ghost predicate Linked(batch: seq<Package>, mirrors: seq<Mirror>, steps: seq<Step>, atts: seq<Attempt>, j: nat)
    requires j < |steps| == |atts| <= |mirrors|
  {
    && Describes(batch, steps[j], j + 1, mirrors[j], atts[j])
    && CleanedUp(batch, steps[j])
    && (if j == 0 then steps[0].outstanding == NameSet(batch) && steps[0].requested == batch
        else Follows(batch, steps[j - 1], steps[j]) && !atts[j - 1].passed)
  }

  /** Attempts on one batch, at most one per mirror, in mirror order. */
  ghost predicate Chain(batch: seq<Package>, mirrors: seq<Mirror>, steps: seq<Step>, atts: seq<Attempt>) {
    |steps| == |atts| <= |mirrors| && forall j :: 0 <= j < |steps| ==> Linked(batch, mirrors, steps, atts, j)
  }

  // ---- shape of a chain ----

  /** A request is a non-empty selection of the batch that covers what is outstanding. */
  ghost predicate Shaped(batch: seq<Package>, st: Step) {
    && st.requested != []
    && st.requested == Select(batch, NameSet(st.requested))
    && st.outstanding <= NameSet(st.requested) <= NameSet(batch)
  }

  lemma SelectionShaped(batch: seq<Package>, st: Step)
    requires st.outstanding != {} && st.outstanding <= NameSet(batch)
    requires st.requested == Select(batch, st.outstanding)
    ensures Shaped(batch, st)
  {
    SelectNameSet(batch, st.outstanding);
    assert NameSet(batch) * st.outstanding == st.outstanding;
    var n :| n in st.outstanding;
    assert n in NameSet(st.requested);
  }

  lemma {:induction false} ChainShaped(batch: seq<Package>, mirrors: seq<Mirror>, steps: seq<Step>, atts: seq<Attempt>, j: nat)
    requires batch != [] && Chain(batch, mirrors, steps, atts) && j < |steps|
    ensures Shaped(batch, steps[j])
  {
    hide Describes, CleanedUp;
    assert Linked(batch, mirrors, steps, atts, j);
    if j == 0 {
      SelectAll(batch, NameSet(batch));
    } else {
      ChainShaped(batch, mirrors, steps, atts, j - 1);
      assert StillPending(steps[j - 1]) <= steps[j - 1].outstanding;
      if steps[j].outstanding != {} { SelectionShaped(batch, steps[j]); }
    }
  }

  // ---- what failover guarantees ----

  /** An attempt never asks for an archive that already matches, except to repeat a request whose
      archives all matched while the transaction failed. */
  lemma FailoverAsksOnlyForMissing(batch: seq<Package>, mirrors: seq<Mirror>, steps: seq<Step>, atts: seq<Attempt>, j: nat)
    requires batch != [] && Chain(batch, mirrors, steps, atts) && 0 < j < |steps|
    ensures
      || (atts[j - 1].pending == [] && !steps[j - 1].raised.Clean? && atts[j].requested == atts[j - 1].requested)
      || (Members(atts[j].requested) == Members(atts[j - 1].pending) != {}
          && forall p :: p in steps[j].requested ==> !Verified(steps[j].before, p))
  {
    hide Describes, CleanedUp, Shaped, Names, BytesOf, StillPending, Verified;
    assert Linked(batch, mirrors, steps, atts, j) && Linked(batch, mirrors, steps, atts, j - 1);
    var prev, st := steps[j - 1], steps[j];
    ChainShaped(batch, mirrors, steps, atts, j - 1);
    DescribedLists(batch, prev, j, mirrors[j - 1], atts[j - 1]);
    DescribedLists(batch, st, j + 1, mirrors[j], atts[j]);
    CleanUpShrinks(batch, prev);
    NoMembers(atts[j - 1].pending);
    if StillPending(prev) != {} { AsksForPending(batch, prev, st); }
  }

  lemma AsksForPending(batch: seq<Package>, prev: Step, st: Step)
    requires Shaped(batch, prev) && Shrunk(prev.fetched, prev.after)
    requires st.before == prev.after && st.requested == Select(batch, StillPending(prev))
    ensures Members(Names(st.requested)) == StillPending(prev)
    ensures forall p :: p in st.requested ==> !Verified(st.before, p)
  {
    hide Verified, Select;
    assert StillPending(prev) <= prev.outstanding <= NameSet(batch);
    SelectNameSet(batch, StillPending(prev));
    assert NameSet(batch) * StillPending(prev) == StillPending(prev);
    NamesMembers(st.requested);
    forall p | p in st.requested ensures !Verified(st.before, p) { PendingUnverified(batch, prev, p); }
  }

  lemma DescribedLists(batch: seq<Package>, st: Step, number: nat, mirror: Mirror, a: Attempt)
    requires Describes(batch, st, number, mirror, a)
    ensures a.requested == Names(st.requested) && a.number == number && a.mirror == mirror
    ensures Members(a.pending) == StillPending(st) && Members(a.verified) == VerifiedNames(st.fetched, st.requested)
    ensures a.passed <==> st.raised.Clean? && StillPending(st) == {}
  {
  }

  lemma CleanUpShrinks(batch: seq<Package>, st: Step)
    requires CleanedUp(batch, st)
    ensures Shrunk(st.fetched, st.after)
  {
  }

  lemma NoMembers(names: seq<string>)
    ensures Members(names) == {} ==> names == []
  {
    if names != [] { SomeMember(names); }
  }

  lemma SomeMember(names: seq<string>)
    requires names != []
    ensures Members(names) != {}
  {
    assert names[0] in Members(names);
  }

  lemma NamesMembers(ps: seq<Package>)
    ensures Members(Names(ps)) == NameSet(ps)
  {
    forall n ensures n in Members(Names(ps)) <==> n in NameSet(ps) {
      NameSetHas(ps, n);
    }
  }

  /** What is still pending after an attempt has no matching archive in the cache. */
  lemma PendingUnverified(batch: seq<Package>, st: Step, p: Package)
    requires Shaped(batch, st) && Shrunk(st.fetched, st.after)
    requires p in batch && p.filename in StillPending(st)
    ensures !Verified(st.fetched, p) && !Verified(st.after, p)
  {
    assert p.filename in NameSet(st.requested);
    assert p in Select(batch, NameSet(st.requested));
  }

  /** A finished batch: the last attempt raised nothing and left nothing pending. */
  lemma PassMeansClean(batch: seq<Package>, st: Step, number: nat, mirror: Mirror, a: Attempt)
    requires Describes(batch, st, number, mirror, a)
    ensures a.passed <==> st.raised.Clean? && StillPending(st) == {}
    ensures a.passed <==> a.failureClass.None?
    ensures a.passed ==> a.pending == [] && a.pendingCount == 0
  {
    if a.passed { NoMembers(a.pending); }
  }

  // ---- what a fetch may not do for the evidence to add up ----

  /** The fetch lost no matching archive of the closure. */
  ghost predicate Keeps(closure: seq<Package>, st: Step) {
    forall p :: p in closure && Verified(st.before, p) ==> Verified(st.fetched, p)
  }

  /** The clean-up spares matching archives when no name is another's side file. */
  lemma CleanUpSpares(closure: seq<Package>, batch: seq<Package>, st: Step, p: Package)
    requires SuffixFree(closure) && DistinctNames(closure) && (forall q :: q in batch ==> q in closure) && p in closure
    requires Shaped(batch, st) && OnlyLitter(batch, st) && Verified(st.fetched, p)
    ensures Verified(st.after, p)
  {
    if Repeats(st) {
      forall q | q in st.requested ensures p.filename != Sig(q.filename) {
        assert q in batch;
        assert p.filename !in SideFiles(q.filename);
      }
    } else {
      LitterSpares(closure, st.fetched, st.after, Select(batch, StillPending(st)), p);
    }
  }

  lemma LitterSpares(closure: seq<Package>, before: Entries, after: Entries, ps: seq<Package>, p: Package)
    requires SuffixFree(closure) && DistinctNames(closure) && (forall q :: q in ps ==> q in closure) && p in closure
    requires LitterOnly(before, after, ps) && Verified(before, p)
    ensures p.filename in after
  {
    if p.filename !in after {
      var q :| q in ps && p.filename in Litter(before, q);
      LitterTouches(before, q);
      if q.filename == p.filename {
        SameName(closure, p, q);
        OwnLitter(before, p);
      } else {
        ClosureTouches(closure, p, q);
      }
    }
  }

  lemma OwnLitter(e: Entries, p: Package)
    requires Verified(e, p)
    ensures p.filename !in Litter(e, p)
  {
    NamesApart(p.filename);
  }

  /** Where a step of a chain begins and what its clean-up may have done. */
  lemma StepBegins(batch: seq<Package>, mirrors: seq<Mirror>, steps: seq<Step>, atts: seq<Attempt>, j: nat)
    requires Chain(batch, mirrors, steps, atts) && j < |steps|
    ensures OnlyLitter(batch, steps[j]) && Shrunk(steps[j].fetched, steps[j].after)
    ensures j == 0 ==> steps[j].outstanding == NameSet(batch)
    ensures j > 0 ==> steps[j].before == steps[j - 1].after && steps[j].outstanding == StillPending(steps[j - 1])
  {
    hide Describes, StillPending, LitterOnly, CleanUpHalts;
    assert Linked(batch, mirrors, steps, atts, j);
  }

  lemma PendingFound(closure: seq<Package>, batch: seq<Package>, st: Step, p: Package)
    requires DistinctNames(closure) && (forall q :: q in batch ==> q in closure) && Shaped(batch, st) && p in batch
    requires p.filename in st.outstanding && p.filename !in StillPending(st)
    ensures Verified(st.fetched, p)
  {
    hide Verified, DistinctNames;
    var q :| q in st.requested && Verified(st.fetched, q) && q.filename == p.filename;
    SameName(closure, p, q);
  }

  /** After an attempt, exactly the archives not pending match, provided every fetch kept what matched. */
  lemma {:induction false} PendingIsMissing(closure: seq<Package>, batch: seq<Package>, mirrors: seq<Mirror>,
                                            steps: seq<Step>, atts: seq<Attempt>, j: nat)
    requires batch != [] && Chain(batch, mirrors, steps, atts) && j < |steps|
    requires SuffixFree(closure) && DistinctNames(closure) && forall q :: q in batch ==> q in closure
    requires forall k :: 0 <= k <= j ==> Keeps(closure, steps[k])
    ensures forall p :: p in batch ==> (p.filename in StillPending(steps[j]) <==> !Verified(steps[j].after, p))
    ensures forall p :: p in batch && p.filename !in StillPending(steps[j]) ==> Verified(steps[j].fetched, p)
  {
    hide Chain, Verified, OnlyLitter, Shrunk, SuffixFree, DistinctNames, StillPending, Shaped;
    var st := steps[j];
    ChainLengths(batch, mirrors, steps, atts);
    StepBegins(batch, mirrors, steps, atts, j);
    ChainShaped(batch, mirrors, steps, atts, j);
    if j > 0 { PendingIsMissing(closure, batch, mirrors, steps, atts, j - 1); }
    forall p | p in batch
      ensures p.filename in StillPending(st) <==> !Verified(st.after, p)
      ensures p.filename !in StillPending(st) ==> Verified(st.fetched, p)
    {
      if p.filename in StillPending(st) {
        PendingUnverified(batch, st, p);
      } else {
        if p.filename in st.outstanding {
          PendingFound(closure, batch, st, p);
        } else {
          assert j > 0 by { NameSetHas(batch, p.filename); }
          assert Verified(st.before, p);
          assert Keeps(closure, st);
        }
        CleanUpSpares(closure, batch, st, p);
      }
    }
  }

  lemma ChainLengths(batch: seq<Package>, mirrors: seq<Mirror>, steps: seq<Step>, atts: seq<Attempt>)
    requires Chain(batch, mirrors, steps, atts)
    ensures |steps| == |atts| <= |mirrors|
  {
    hide Linked;
  }

  /** When every archive is in place a repeated request verifies all of it. */
  lemma KeptRequestPartitions(closure: seq<Package>, batch: seq<Package>, mirrors: seq<Mirror>,
                              steps: seq<Step>, atts: seq<Attempt>, j: nat)
    requires batch != [] && Chain(batch, mirrors, steps, atts) && j < |steps|
    requires SuffixFree(closure) && DistinctNames(closure) && forall q :: q in batch ==> q in closure
    requires forall k :: 0 <= k <= j ==> Keeps(closure, steps[k])
    ensures Partitions(atts[j])
  {
    hide CleanedUp, SuffixFree, DistinctNames, Verified;
    var st := steps[j];
    assert Linked(batch, mirrors, steps, atts, j);
    ChainShaped(batch, mirrors, steps, atts, j);
    PendingIsMissing(closure, batch, mirrors, steps, atts, j);
    NamesMembers(st.requested);
    forall n | n in NameSet(st.requested) && n !in StillPending(st) ensures n in VerifiedNames(st.fetched, st.requested) {
      var p :| p in st.requested && p.filename == n;
      assert p in batch;
    }
  }

  /** A request asks for exactly what is outstanding, or repeats one of which nothing is. */
  lemma RequestIsOutstanding(batch: seq<Package>, mirrors: seq<Mirror>, steps: seq<Step>, atts: seq<Attempt>, j: nat)
    requires batch != [] && Chain(batch, mirrors, steps, atts) && j < |steps|
    ensures steps[j].outstanding == {} || steps[j].outstanding == NameSet(steps[j].requested)
  {
    hide Describes, CleanedUp, StillPending;
    assert Linked(batch, mirrors, steps, atts, j);
    ChainShaped(batch, mirrors, steps, atts, j);
    if j > 0 && steps[j].outstanding != {} {
      SelectNameSet(batch, steps[j].outstanding);
      assert NameSet(batch) * steps[j].outstanding == steps[j].outstanding;
    }
  }

  /** Exactly when the lists of an attempt split its request: it was no repeat, or every archive of the
      repeated request is still there after the fetch. */
  lemma PartitionsExactly(batch: seq<Package>, mirrors: seq<Mirror>, steps: seq<Step>, atts: seq<Attempt>, j: nat)
    requires batch != [] && Chain(batch, mirrors, steps, atts) && j < |steps|
    ensures var st := steps[j];
      Partitions(atts[j]) <==> st.outstanding != {} || VerifiedNames(st.fetched, st.requested) == NameSet(st.requested)
  {
    hide Describes, CleanedUp, Verified;
    var st := steps[j];
    assert Linked(batch, mirrors, steps, atts, j);
    ChainShaped(batch, mirrors, steps, atts, j);
    RequestIsOutstanding(batch, mirrors, steps, atts, j);
    DescribedLists(batch, st, j + 1, mirrors[j], atts[j]);
    NamesMembers(st.requested);
    assert VerifiedNames(st.fetched, st.requested) <= NameSet(st.requested);
  }
}
