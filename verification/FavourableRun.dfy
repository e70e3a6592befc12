/** When a run completes: a usable mirrorlist with a healthy first candidate, commands that work, rows that
    resolve alike twice, a network that delivers what it is asked for, and a cache with nothing in the way. */
module FavourableRun {
  import opened Results
  import opened Errors
  import opened Ordering
  import opened Packages
  import opened PackageCache
  import opened CacheAuditing
  import opened ProgressLedger
  import opened BatchPlan
  import opened Mirrors
  import opened ClosureReport
  import opened ResolvedRows
  import opened Acquisition
  import opened AcquisitionEvidence
  import opened LedgerTotals
  import opened RunEvidence
  import opened ClosureRun
  import opened PrefetchRun
  import opened ClosureStart
  import opened ClosureEvidence
  import opened ClosureCourse

  /** Every fetch of closure packages raises nothing and puts each of them in place. */
  ghost predicate Delivers(network: Network, ps: seq<Package>) {
    forall n: nat, m: Mirror, requested: seq<Package>, e: Entries ::
      (forall q :: q in requested ==> q in ps) ==> Delivered(network(n, m, requested, e), requested)
  }

  ghost predicate Delivered(f: Fetched, requested: seq<Package>) {
    f.raised.Clean? && forall p :: p in requested ==> Verified(f.entries, p)
  }

  /** What has to hold of the closure the rows stand for. */
  ghost predicate Obtainable(w: World, before: Entries, ps: seq<Package>) {
    && (forall t :: t in w.targets ==> t in NamesOf(ps)) && DistinctNames(ps) && SuffixFree(ps)
    && (forall p :: p in ps ==> !AnyBlocked(before, p))
    && Delivers(w.network, ps) && NetworkKeeps(w.network, ps)
    && forall e: Entries, p :: p in ps && Verified(e, p) ==> Verified(w.refetched(e), p)
  }

  ghost predicate Favourable(w: World, before: Entries) {
    && Sane(w) && Loaded(w) && (forall c :: !w.raises(c))
    && !Unlistable(w.lines) && w.answer(0).Serves?
    && w.rows != [] && AllGood(w.reading, w.rows) && OneReading(w.reading, w.rows)
    && (forall row :: row in w.localRows <==> row in w.rows)
    && forall ps :: ParsedAs(w, ps) ==> Obtainable(w, before, ps)
  }

  /** The first fetch of a batch ends it. */
  lemma DeliveredAtOnce(network: Network, ps: seq<Package>, batch: seq<Package>, first: nat, mirrors: seq<Mirror>, seen: seq<Step>)
    requires Delivers(network, ps) && (forall p :: p in batch ==> p in ps)
    requires AnsweredBy(network, first, mirrors, seen) && seen != []
    requires seen[0].requested == batch && seen[0].outstanding == NameSet(batch)
    ensures seen[0].raised.Clean? && StillPending(seen[0]) == {} && VerifiedNames(seen[0].fetched, batch) == NameSet(batch)
    ensures forall p :: p in batch ==> Verified(seen[0].fetched, p)
  {
    hide Verified;
    var st := seen[0];
    assert Fetched(st.fetched, st.raised) == network(first + 0, mirrors[0], st.requested, st.before);
    assert Delivered(network(first, mirrors[0], batch, st.before), batch);
    forall p | p in batch ensures p.filename in VerifiedNames(st.fetched, batch) { }
  }

  lemma NothingToClean(batch: seq<Package>, st: Step)
    requires st.raised.Clean? && StillPending(st) == {}
    ensures !CleanUpHalts(batch, st) && (OnlyLitter(batch, st) ==> st.after == st.fetched)
  {
    hide StillPending;
    SelectNone(batch, {});
    if OnlyLitter(batch, st) { NothingLitters(st.fetched, st.after); }
  }

  lemma RoundSeesSomething(start: seq<Record>, b: nat, batch: seq<Package>, mirrors: seq<Mirror>, network: Network, rd: Round)
    requires batch != [] && mirrors != [] && RoundRan(start, b, batch, mirrors, network, rd)
    ensures rd.seen != [] && rd.seen[0].requested == batch && rd.seen[0].outstanding == NameSet(batch)
    ensures rd.did == [] ==> Unrecorded(batch, [], rd.seen[0])
    ensures rd.did != [] ==> rd.did[0] == rd.seen[0]
  {
    hide AnsweredBy, Began, Uninterrupted, OnlyLitter, CleanUpHalts, AllAcceptable, Acceptable, Describes, CleanedUp, Tagged;
    ChainLengths(batch, mirrors, rd.did, rd.atts);
    if rd.did != [] { assert Linked(batch, mirrors, rd.did, rd.atts, 0); }
  }

  /** With a first fetch that delivers everything a batch is complete after one attempt. */
  lemma DeliveredRound(network: Network, ps: seq<Package>, start: seq<Record>, b: nat, batch: seq<Package>, mirrors: seq<Mirror>, rd: Round)
    requires Delivers(network, ps) && DistinctNames(ps) && DistinctNames(batch) && (forall p :: p in batch ==> p in ps) && batch != []
    requires RecordNames(start) == NameSet(ps) && b >= 1 && Forward(mirrors) && mirrors != []
    requires RoundRan(start, b, batch, mirrors, network, rd)
    ensures RoundResult(batch, rd).Success?
  {
    hide Delivers, DistinctNames, Forward, RoundRan, StillPending, Unrecorded, Verified;
    RoundSeesSomething(start, b, batch, mirrors, network, rd);
    RoundAnswered(start, b, batch, mirrors, network, rd);
    DeliveredAtOnce(network, ps, batch, rd.first, mirrors, rd.seen);
    NothingToClean(batch, rd.seen[0]);
    NotBlocked(batch, rd);
    OneAttempt(batch, mirrors, rd.did, rd.atts);
    FirstAccepted(ps, start, b, batch, mirrors, rd.did, rd.atts);
    EndsWell(start, b, batch, mirrors, network, rd);
  }

  lemma RoundAnswered(start: seq<Record>, b: nat, batch: seq<Package>, mirrors: seq<Mirror>, network: Network, rd: Round)
    requires RoundRan(start, b, batch, mirrors, network, rd)
    ensures AnsweredBy(network, rd.first, mirrors, rd.seen) && Chain(batch, mirrors, rd.did, rd.atts)
  {
    hide AnsweredBy, Chain, Began, Unrecorded, Uninterrupted;
  }

  lemma NotBlocked(batch: seq<Package>, rd: Round)
    requires rd.seen != [] && !CleanUpHalts(batch, rd.seen[0]) && (rd.did == [] ==> Unrecorded(batch, [], rd.seen[0]))
    ensures rd.did != []
  {
    hide CleanUpHalts, OnlyLitter;
  }

  lemma OneAttempt(batch: seq<Package>, mirrors: seq<Mirror>, did: seq<Step>, atts: seq<Attempt>)
    requires Chain(batch, mirrors, did, atts) && did != [] && did[0].raised.Clean? && StillPending(did[0]) == {}
    ensures |did| == |atts| == 1 && atts[0].passed && CleanedUp(batch, did[0])
  {
    hide Describes, CleanedUp, StillPending, Follows;
    assert Linked(batch, mirrors, did, atts, 0);
    PassMeansClean(batch, did[0], 1, mirrors[0], atts[0]);
    assert |did| > 1 ==> Linked(batch, mirrors, did, atts, 1);
  }

  lemma FirstAccepted(ps: seq<Package>, start: seq<Record>, b: nat, batch: seq<Package>, mirrors: seq<Mirror>,
                      did: seq<Step>, atts: seq<Attempt>)
    requires DistinctNames(ps) && DistinctNames(batch) && (forall p :: p in batch ==> p in ps) && batch != []
    requires RecordNames(start) == NameSet(ps) && b >= 1 && Forward(mirrors)
    requires Chain(batch, mirrors, did, atts) && |did| == |atts| == 1
    ensures Acceptable(start, b, atts[0])
  {
    hide Chain, DistinctNames, Forward, Acceptable, Partitions, VerifiedNames;
    RefusedDoesNotPartition(ps, start, batch, mirrors, did, atts, b);
    PartitionsExactly(batch, mirrors, did, atts, 0);
    FirstOutstanding(batch, mirrors, did, atts);
  }

  lemma FirstOutstanding(batch: seq<Package>, mirrors: seq<Mirror>, did: seq<Step>, atts: seq<Attempt>)
    requires Chain(batch, mirrors, did, atts) && did != [] && batch != []
    ensures did[0].outstanding != {}
  {
    hide Describes, CleanedUp;
    assert Linked(batch, mirrors, did, atts, 0);
    assert batch[0].filename in NameSet(batch);
  }

  lemma EndsWell(start: seq<Record>, b: nat, batch: seq<Package>, mirrors: seq<Mirror>, network: Network, rd: Round)
    requires RoundRan(start, b, batch, mirrors, network, rd) && batch != [] && mirrors != []
    requires |rd.did| == |rd.atts| == 1 && rd.atts[0].passed && Acceptable(start, b, rd.atts[0]) && rd.seen != [] && rd.did[0] == rd.seen[0]
    requires CleanedUp(batch, rd.did[0]) && (OnlyLitter(batch, rd.did[0]) ==> rd.did[0].after == rd.did[0].fetched)
    requires VerifiedNames(rd.did[0].fetched, batch) == NameSet(batch)
    ensures RoundResult(batch, rd).Success?
  {
    hide Chain, AnsweredBy, Began, Unrecorded, Uninterrupted, AllAcceptable, Acceptable, OnlyLitter, VerifiedNames;
  }

  // ---- none of the failures ----

  lemma {:induction false} NothingOmitted(targets: seq<string>, ps: seq<Package>)
    requires forall t :: t in targets ==> t in NamesOf(ps)
    ensures Omitted(targets, ps) == []
  {
    hide NamesOf;
    if targets != [] { NothingOmitted(targets[1..], ps); }
  }

  lemma NoErrors(w: World, before: Entries)
    requires Favourable(w, before)
    ensures forall c :: w.errors(c).None?
  {
    hide Unlistable, AllGood, OneReading, Obtainable, Sane;
    forall c ensures w.errors(c).None? { assert !w.raises(c); }
  }

  lemma NotUnsynchronised(w: World, before: Entries, a: Anchor, candidates: seq<Mirror>, e: Error)
    requires Favourable(w, before)
    ensures !SyncFailed(w, a, candidates, e)
  {
    hide Concise, Joined, Candidates, Unlistable, AllGood, OneReading, Obtainable, Sane;
    NoErrors(w, before);
    assert candidates != [] ==> ProbeOf(candidates[0], w.answer(0)).passed;
    assert a.attempts != [] && Probed(w.answer, candidates, a.attempts, None) ==> a.attempts[0].passed;
  }

  lemma NotUnresolved(w: World, before: Entries, ps: seq<Package>, e: Error)
    requires Favourable(w, before)
    ensures !ResolutionFailed(w, ps, e)
  {
    hide Omitted, NamesOf, RowText, RowProblem, RepeatError, LedgerText, Joined;
    forall qs | ParsedAs(w, qs) ensures Omitted(w.targets, qs) == [] { NothingOmitted(w.targets, qs); }
    hide Unlistable, AllGood, OneReading, Sane, DistinctNames, SuffixFree, Delivers, NetworkKeeps, Firsts, IsSorted;
  }

  lemma ResolvedObtainable(w: World, before: Entries, ps: seq<Package>)
    requires Favourable(w, before) && ResolvedAs(w, ps)
    ensures Obtainable(w, before, ps)
  {
    hide Unlistable, AllGood, OneReading, Sane, Obtainable, ParsedAs;
  }

  lemma NotUnaudited(w: World, before: Entries, now: Entries, ps: seq<Package>)
    requires Obtainable(w, before, ps)
    ensures forall halt :: !AuditOf(before, now, ps, Failure(halt))
  {
    hide DistinctNames, SuffixFree, Delivers, NetworkKeeps, AnyBlocked, DecidedAtStart, AuditHalt, Sort;
  }

  lemma NotStopped(w: World, before: Entries, e: Report, candidates: seq<Mirror>, j: Journey, stop: Stop)
    requires Obtainable(w, before, e.packages) && Synchronised(w, e.anchor, candidates)
    ensures !Acquiring(w, e, candidates, before, j, Failure(stop))
  {
    hide DistinctNames, SuffixFree, Delivers, NetworkKeeps, AnyBlocked, AuditOf, Fresh, Reconciles, IsPlan, AnchorFirst, Replay,
         RoundRan, RoundResult, Candidates, Unlistable, AllMatch, AttemptsIn, Forward, Planned;
    if Acquiring(w, e, candidates, before, j, Failure(stop)) {
      var i := |j.rounds| - 1;
      JourneyPlanned(w, e, candidates, before, j, Failure(stop));
      OffersForward(w, candidates);
      AnchorFirstIsForward(candidates, e.anchor.selected.value, MAX_MIRROR_ATTEMPTS, j.mirrors);
      assert RoundFollows(j.start, j.batches, j.mirrors, w.network, j.audited, j.rounds, i);
      PlannedBatch(e.packages, j.batches, i);
      NotEmptyBatch(e.packages, j.batches, i);
      DeliveredRound(w.network, e.packages, j.start, i + 1, j.batches[i], j.mirrors, j.rounds[i]);
    }
  }

  lemma OffersForward(w: World, candidates: seq<Mirror>)
    requires Offers(w, candidates)
    ensures Forward(candidates)
  {
    hide Unlistable, Complete;
  }

  lemma JourneyPlanned(w: World, e: Report, candidates: seq<Mirror>, before: Entries, j: Journey, end: Result<set<string>, Stop>)
    requires Acquiring(w, e, candidates, before, j, end) && DistinctNames(e.packages)
    ensures Planned(e.packages, j.batches) && RecordNames(j.start) == NameSet(e.packages)
  {
    hide DistinctNames, SuffixFree, NetworkKeeps, AuditOf, Fresh, IsPlan, AnchorFirst, Replay, Rounds, RoundsEnd, AllMatch, Planned,
         Covers, Healthy, Reconciled;
    PlanIsPlanned(e.packages, Members(j.audit.pending), j.batches, BATCH_LIMIT_BYTES);
    FreshCovers(j.initial, e.packages);
    ReconciledHealthy(j.initial, Members(j.audit.reused), Members(j.audit.corruptRemoved) * RecordNames(j.initial));
    CoversSame(j.initial, j.start, e.packages);
    CoversNames(j.start, e.packages);
  }

  lemma NotFinishFailed(w: World, before: Entries, e: Report, candidates: seq<Mirror>, j: Journey, found: set<string>, s: Substage,
                        now: Entries, e': Error)
    requires Favourable(w, before) && Obtainable(w, before, e.packages) && ResolvedAs(w, e.packages)
    requires Acquiring(w, e, candidates, before, j, Success(found))
    ensures !FinishFailed(w, e.packages, e.passed, s, j.fetched, now, e')
  {
    hide DistinctNames, SuffixFree, Delivers, NetworkKeeps, AnyBlocked, AuditOf, Fresh, Reconciles, IsPlan, AnchorFirst, Replay,
         Rounds, RoundsEnd, Unlistable, Sane, ResolvesOtherwise, AllGood, OneReading, Verified, ParsedAs, ResolvesAlike;
    NoErrors(w, before);
    LocallyAlike(w, before, e.packages, e');
  }

  lemma LocallyAlike(w: World, before: Entries, ps: seq<Package>, e: Error)
    requires Favourable(w, before) && ResolvedAs(w, ps)
    ensures !ResolvesOtherwise(w.reading, w.localRows, ps, e)
  {
    hide RowText, RowProblem, Omitted, Obtainable, Unlistable, Sane, Firsts, IsSorted, GoodRow, OneReading, ClosureIdentity;
    assert w.rows[0] in w.localRows;
    assert AllGood(w.reading, w.localRows);
    forall qs | Firsts(w.reading, w.localRows, qs) && IsSorted(qs, ByVersion) ensures ClosureIdentity(qs) == ClosureIdentity(ps) {
      RowOrderIrrelevant(w.reading, w.rows, w.localRows, ps, qs);
    }
  }

  /** In a favourable world every run completes. */
  lemma FavourableCompletes(w: World, before: Entries, now: Entries, r: Report)
    requires Favourable(w, before) && Went(w, before, now, r)
    ensures r.passed && r.failure.None?
  {
    hide Favourable, Unlistable, SyncFailed, ResolutionFailed, Synchronised, ResolvedAs, AuditOf, Acquiring, Fresh, FinishFailed,
         Obtainable, SummaryOf, Blames, Completed, JourneyError, ListProblem, ListText, CacheText;
    if r.failure.Some? {
      var s := r.failure.value.substage;
      var e :| Blames(r, s, e) && StoppedAt(w, before, now, r, s, e);
      NotUnresolved(w, before, r.packages, e);
      forall candidates ensures !SyncFailed(w, r.anchor, candidates, e) { NotUnsynchronised(w, before, r.anchor, candidates, e); }
      Listable(w, before);
      if ResolvedAs(w, r.packages) {
        ResolvedObtainable(w, before, r.packages);
        NotUnaudited(w, before, now, r.packages);
        forall candidates, j, stop ensures !Prepared(w, before, r, candidates, j, Failure(stop)) {
          if Synchronised(w, r.anchor, candidates) { NotStopped(w, before, r, candidates, j, stop); }
        }
        forall candidates, j, found | Prepared(w, before, r, candidates, j, Success(found))
          ensures !FinishFailed(w, r.packages, r.passed, s, j.fetched, now, e)
        {
          NotFinishFailed(w, before, r, candidates, j, found, s, now, e);
        }
      }
    }
  }

  lemma Listable(w: World, before: Entries)
    requires Favourable(w, before)
    ensures !Unlistable(w.lines) && !w.raises(ReadMirrorlist)
  {
    hide Unlistable, AllGood, OneReading, Obtainable, Sane;
  }

  // ---- a favourable world ----

  function OnePackage(sha256: string): Package { Package("world", "a", "1", "a.pkg", sha256, 1, None) }

  function OneRow(sha256: string): Row { ["world", "a", "1", "a.pkg", sha256, "1", "https://one", "(null)"] }

  /** One usable mirror, one package, and tools and a network that work. */
  function OnePackageWorld(url: string, sha256: string, reading: Reading): World {
    World(STABLE_PACMAN_CONFIG, sha256, sha256, "/cache", ["a"], [ServerLine(url)], (k: nat) => Serves, reading, [OneRow(sha256)],
          (n: nat, m: Mirror, requested: seq<Package>, e: Entries) => Fetched(e["a.pkg" := File(sha256)], Clean),
          [OneRow(sha256)], (e: Entries) => e, (c: Command) => None)
  }

  lemma OneRowReads(reading: Reading, sha256: string)
    requires reading.size("1") == Some(1) && IsSha256(sha256)
    ensures GoodRow(reading, OneRow(sha256)) && PackageOf(reading, OneRow(sha256)) == OnePackage(sha256)
  {
    assert SignatureText(OneRow(sha256)[7]) == "";
    assert FROZEN_REPOSITORIES[1] == "world";
  }

  lemma AlikeNotDistinct(p: Package, ps: seq<Package>)
    requires |ps| > 1 && forall q :: q in ps ==> q == p
    ensures !DistinctVersions(ps)
  {
    assert ps[0] in ps && ps[1] in ps;
  }

  lemma OneParsed(w: World, sha256: string, ps: seq<Package>)
    requires w.rows == [OneRow(sha256)] && w.reading.size("1") == Some(1) && IsSha256(sha256) && ParsedAs(w, ps)
    ensures ps == [OnePackage(sha256)]
  {
    hide GoodRow, PackageOf, IsSha256, IsSorted, DistinctVersions;
    OneRowReads(w.reading, sha256);
    forall p | p in ps ensures p == OnePackage(sha256) {
      var i :| 0 <= i < |w.rows| && PackageOf(w.reading, w.rows[i]) == p && FirstAt(w.reading, w.rows, i);
    }
    assert ps[0] in ps;
    if |ps| > 1 { AlikeNotDistinct(OnePackage(sha256), ps); }
  }

  lemma OneObtainable(url: string, sha256: string, reading: Reading)
    ensures Obtainable(OnePackageWorld(url, sha256, reading), map[], [OnePackage(sha256)])
  {
    var w, ps := OnePackageWorld(url, sha256, reading), [OnePackage(sha256)];
    assert OnePackage(sha256) in ps && NamesOf(ps) == {"a"};
    assert |Sig("a.pkg")| == 9 && |Part("a.pkg")| == 10 && |SigPart("a.pkg")| == 14;
    forall n: nat, m: Mirror, requested: seq<Package>, e: Entries | forall q :: q in requested ==> q in ps
      ensures Delivered(w.network(n, m, requested, e), requested)
    {
    }
  }

  /** Such a world is favourable, so the condition is met by real runs. */
  lemma OnePackageFavourable(url: string, sha256: string, reading: Reading)
    requires IsHttps(url) && IsTemplate(url) && IsSha256(sha256) && reading.size("1") == Some(1) && Hexadecimal(reading)
    ensures Favourable(OnePackageWorld(url, sha256, reading), map[])
  {
    hide GoodRow, PackageOf, IsSha256, IsTemplate, IsHttps, Obtainable, Hexadecimal;
    var w := OnePackageWorld(url, sha256, reading);
    OneRowReads(reading, sha256);
    assert w.lines[0] in w.lines;
    forall ps | ParsedAs(w, ps) ensures Obtainable(w, map[], ps) {
      OneParsed(w, sha256, ps);
      OneObtainable(url, sha256, reading);
    }
  }
}
