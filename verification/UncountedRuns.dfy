/** Concrete runs whose report the validator rejects: a fetch that loses an archive of its batch, a fetch that
    leaves a directory where a side file is to be removed, and a closure that names a file twice. */
module UncountedRuns {
  import opened Results
  import opened Errors
  import opened Diagnosis
  import opened Ordering
  import opened Packages
  import opened PackageCache
  import opened ProgressLedger
  import opened Mirrors
  import opened ClosureReport
  import opened ResolvedRows
  import opened Acquisition
  import opened AcquisitionEvidence
  import opened LedgerTotals
  import opened ClosureRun
  import opened PrefetchRun
  import opened ClosureEvidence
  import opened ClosureCourse
  import opened ClosurePreparation
  import opened FailureWords

  const A := Package("world", "a", "1", "a.pkg", "da", 1, None)

  const B := Package("world", "b", "1", "b.pkg", "db", 1, None)

  const PAIR: seq<Package> := [A, B]

  const FIRST := Mirror("https://one", 1)

  const SECOND := Mirror("https://two", 2)

  const MIRRORS: seq<Mirror> := [FIRST, SECOND]

  const START: seq<Record> := [InitialRecord(A), InitialRecord(B)]

  lemma PairNames()
    ensures "a.pkg" != "b.pkg" && NameSet(PAIR) == {"a.pkg", "b.pkg"} && NameSet([B]) == {"b.pkg"}
    ensures Names(PAIR) == ["a.pkg", "b.pkg"] && Names([B]) == ["b.pkg"]
  {
    assert "a.pkg"[0] != "b.pkg"[0];
    assert A in PAIR && B in PAIR && B in [B];
    assert NameSet(PAIR) == {"a.pkg", "b.pkg"};
  }

  lemma PairSelections()
    ensures Select(PAIR, {"b.pkg"}) == [B] && Select(PAIR, {"a.pkg"}) == [A] && Select(PAIR, {}) == [] && Select([B], {"b.pkg"}) == [B]
    ensures Bytes(PAIR) == 2 && Bytes([A]) == 1 && Bytes([B]) == 1 && Bytes([]) == 0
  {
    PairNames();
    assert PAIR[1..] == [B] && [B][1..] == [] && [A][1..] == [];
    assert Select([B], {"b.pkg"}) == [B] + Select([], {"b.pkg"});
    assert Select([B], {"a.pkg"}) == Select([], {"a.pkg"});
    assert Select([B], {}) == Select([], {});
    assert Bytes([B]) == 1 + Bytes([]);
    assert Bytes([A]) == 1 + Bytes([]);
  }

  lemma StartIs()
    ensures Healthy(START) && VerifiedSet(START) == {} && RecordNames(START) == {"a.pkg", "b.pkg"} && DistinctNames(PAIR)
  {
    PairNames();
    assert START[0].filename == "a.pkg" && START[1].filename == "b.pkg";
    assert InitialRecord(A) in START && InitialRecord(B) in START;
  }

  // ---- a later fetch loses what an earlier one brought ----

  const ONLY_A: Entries := map["a.pkg" := File("da")]

  const ONLY_B: Entries := map["b.pkg" := File("db")]

  /** The first mirror delivers one archive. */
  const PARTIAL := Step({"a.pkg", "b.pkg"}, PAIR, map[], ONLY_A, ONLY_A, Clean)

  /** The second delivers the other and takes the first away. */
  const TAKING := Step({"b.pkg"}, [B], ONLY_A, ONLY_B, ONLY_B, Clean)

  const PARTIAL_ATTEMPT := Attempt(
    1, FIRST, 2, 2, ["a.pkg", "b.pkg"], 1, 1, ["a.pkg"], 1, 1, ["b.pkg"], [], false, Some(VerificationIncomplete),
    Some(INCOMPLETE))

  const TAKING_ATTEMPT := Attempt(2, SECOND, 1, 1, ["b.pkg"], 1, 1, ["b.pkg"], 0, 0, [], [], true, None, None)

  lemma OneMatches()
    ensures VerifiedNames(ONLY_A, PAIR) == {"a.pkg"} && VerifiedNames(ONLY_B, PAIR) == {"b.pkg"} && VerifiedNames(ONLY_B, [B]) == {"b.pkg"}
    ensures StillPending(PARTIAL) == {"b.pkg"} && StillPending(TAKING) == {}
  {
    PairNames();
    assert A in PAIR && B in PAIR && B in [B];
    assert Verified(ONLY_A, A) && !Verified(ONLY_A, B) && Verified(ONLY_B, B) && !Verified(ONLY_B, A);
    assert VerifiedNames(ONLY_A, PAIR) == {"a.pkg"};
    assert VerifiedNames(ONLY_B, PAIR) == {"b.pkg"};
    assert VerifiedNames(ONLY_B, [B]) == {"b.pkg"};
  }

  lemma ListsOf()
    ensures Members(["a.pkg"]) == {"a.pkg"} && Members(["b.pkg"]) == {"b.pkg"} && Members([]) == {}
    ensures Members(["a.pkg", "b.pkg"]) == {"a.pkg", "b.pkg"}
  {
  }

  lemma PartialDescribed()
    ensures Describes(PAIR, PARTIAL, 1, FIRST, PARTIAL_ATTEMPT) && CleanedUp(PAIR, PARTIAL)
  {
    hide StillPending, VerifiedNames, Select, Bytes, NameSet, Members, CleanHalt, SignatureHalt;
    PairNames();
    PairSelections();
    OneMatches();
    ListsOf();
    NamesApart("b.pkg");
    NothingInTheWay(ONLY_A, [B]);
  }

  lemma TakingDescribed()
    ensures Describes(PAIR, TAKING, 2, SECOND, TAKING_ATTEMPT) && CleanedUp(PAIR, TAKING)
  {
    hide StillPending, VerifiedNames, Select, Bytes, NameSet, Members;
    PairNames();
    PairSelections();
    OneMatches();
    ListsOf();
  }

  lemma ThisAcceptable(a: Attempt)
    requires a.requested != [] && |Members(a.requested)| == |a.requested| && Members(a.requested) <= {"a.pkg", "b.pkg"}
    requires Partitions(a) && ValidContext(1, a)
    ensures Acceptable(START, 1, a)
  {
    hide Healthy, VerifiedSet, ValidContext, Partitions, DistinctNames;
    StartIs();
  }

  lemma PartialAcceptable()
    ensures Acceptable(START, 1, PARTIAL_ATTEMPT)
  {
    ListsOf();
    assert "https://" <= "https://one";
    TwoAgainstOne({"a.pkg", "b.pkg"});
    ThisAcceptable(PARTIAL_ATTEMPT);
  }

  lemma TakingAcceptable()
    ensures Acceptable(START, 1, TAKING_ATTEMPT)
  {
    ListsOf();
    assert "https://" <= "https://two";
    ThisAcceptable(TAKING_ATTEMPT);
  }

  lemma BothAcceptable()
    ensures AllAcceptable(START, Tagged(1, [PARTIAL_ATTEMPT, TAKING_ATTEMPT]))
  {
    hide Acceptable;
    PartialAcceptable();
    TakingAcceptable();
    assert Tagged(1, [PARTIAL_ATTEMPT, TAKING_ATTEMPT]) == [BatchAttempt(1, PARTIAL_ATTEMPT), BatchAttempt(1, TAKING_ATTEMPT)];
  }

  /** Both attempts are recorded and the last passes, yet the ledger counts two archives and the cache holds one. */
  lemma LaterFetchLoses()
    ensures var did, atts := [PARTIAL, TAKING], [PARTIAL_ATTEMPT, TAKING_ATTEMPT];
      && Chain(PAIR, MIRRORS, did, atts) && AllAcceptable(START, Tagged(1, atts)) && TAKING_ATTEMPT.passed
      && !Keeps(PAIR, TAKING)
      && VerifiedSet(Replay(START, Tagged(1, atts))) == {"a.pkg", "b.pkg"} && VerifiedNames(TAKING.after, PAIR) == {"b.pkg"}
      && !SameCount(TAKING.after, Replay(START, Tagged(1, atts)), PAIR)
  {
    hide Describes, CleanedUp, StillPending, AllAcceptable, Verified, Replay, VerifiedSet, Healthy, Tagged, VerifiedNames;
    var did, atts := [PARTIAL, TAKING], [PARTIAL_ATTEMPT, TAKING_ATTEMPT];
    PairNames();
    PairSelections();
    OneMatches();
    StartIs();
    PartialDescribed();
    TakingDescribed();
    BothAcceptable();
    assert Linked(PAIR, MIRRORS, did, atts, 0);
    assert Linked(PAIR, MIRRORS, did, atts, 1);
    BatchMoves(START, 1, PAIR, MIRRORS, did, atts);
    LostA();
    TwoAgainstOne(VerifiedSet(Replay(START, Tagged(1, atts))));
  }

  lemma LostA()
    ensures !Keeps(PAIR, TAKING)
  {
    PairNames();
    assert A in PAIR && Verified(TAKING.before, A) && !Verified(TAKING.fetched, A);
  }

  lemma TwoAgainstOne(verified: set<string>)
    requires verified == {"a.pkg", "b.pkg"}
    ensures Size(verified * NameSet(PAIR)) == 2 && Size({"b.pkg"}) == 1 && |{"a.pkg", "b.pkg"}| == 2
  {
    PairNames();
    assert verified * NameSet(PAIR) == {"a.pkg", "b.pkg"};
    assert {"a.pkg", "b.pkg"} - {"a.pkg"} == {"b.pkg"};
  }

  // ---- a fetch leaves a directory beside a missing archive ----

  const LITTERED: Entries := map["a.pkg" := File("da"), Part("b.pkg") := Directory]

  /** One archive arrives; the clean-up cannot remove the partial download of the other. */
  const BLOCKED := Step({"a.pkg", "b.pkg"}, PAIR, map[], LITTERED, LITTERED, Clean)

  /** The network that answers every call like this. */
  function Littering(): Network { (n: nat, m: Mirror, requested: seq<Package>, e: Entries) => Fetched(LITTERED, Clean) }

  lemma LitteredNames()
    ensures Part("b.pkg") != "a.pkg" && Part("b.pkg") != "b.pkg" && VerifiedNames(LITTERED, PAIR) == {"a.pkg"}
    ensures StillPending(BLOCKED) == {"b.pkg"}
  {
    PairNames();
    assert |Part("b.pkg")| == 10;
    assert A in PAIR && B in PAIR;
    assert Verified(LITTERED, A) && !Verified(LITTERED, B);
    assert VerifiedNames(LITTERED, PAIR) == {"a.pkg"};
  }

  /** The fetch loses nothing and no name is another's side file, but the attempt is not recorded: the cache holds
      one archive of the batch, the ledger counts none. */
  lemma BlockedFetchUncounted()
    ensures Keeps(PAIR, BLOCKED) && SuffixFree(PAIR) && Unrecorded(PAIR, [], BLOCKED)
    ensures BatchOutcome(START, 1, PAIR, MIRRORS, LITTERED, [], [], Failure(CleanUpBlocked))
    ensures BatchRan(Littering(), 0, PAIR, MIRRORS, map[], LITTERED, [], [BLOCKED], Failure(CleanUpBlocked))
    ensures !SameCount(LITTERED, START, PAIR)
  {
    hide Verified, VerifiedSet, Healthy, StillPending, VerifiedNames;
    PairNames();
    PairSelections();
    LitteredNames();
    StartIs();
    SuffixesFree();
    assert Tagged(1, []) == [];
    assert B in Select(PAIR, {"b.pkg"}) && Blocked(LITTERED, Part("b.pkg"));
    assert CleanUpHalts(PAIR, BLOCKED);
    assert OnlyLitter(PAIR, BLOCKED);
    NothingKept();
    OneAgainstNone();
  }

  lemma SuffixesFree()
    ensures SuffixFree(PAIR)
  {
    assert |"a.pkg"| == 5 && |"b.pkg"| == 5;
    forall p, q | p in PAIR && q in PAIR ensures p.filename !in SideFiles(q.filename) {
      assert |p.filename| == 5 && |q.filename| == 5;
      assert |Sig(q.filename)| == 9 && |Part(q.filename)| == 10 && |SigPart(q.filename)| == 14;
    }
  }

  lemma NothingKept()
    ensures Keeps(PAIR, BLOCKED)
  {
  }

  lemma OneAgainstNone()
    ensures Size({"a.pkg"}) == 1 && forall s: set<string> :: Size({} * s) == 0
  {
    forall s: set<string> ensures Size({} * s) == 0 { assert {} * s == {}; }
  }

  // ---- an interrupt without a message ----

  /** str(KeyboardInterrupt()) is empty. */
  const SIGINT := Error(Interrupting, "", None, None, None)

  /** The first fetch is interrupted and leaves nothing. */
  const MUTE := Step({"a.pkg", "b.pkg"}, PAIR, map[], map[], map[], Raising(SIGINT))

  const MUTE_ATTEMPT := Attempt(
    1, FIRST, 2, 2, ["a.pkg", "b.pkg"], 0, 0, [], 2, 2, ["a.pkg", "b.pkg"], [], false, Some(Interrupted), Some(""))

  const MUTE_ROUND := Round(0, map[], [MUTE], [MUTE_ATTEMPT], [MUTE], map[], Failure(Interruption))

  lemma MuteDescribed()
    ensures StillPending(MUTE) == {"a.pkg", "b.pkg"} && VerifiedNames(map[], PAIR) == {}
    ensures Describes(PAIR, MUTE, 1, FIRST, MUTE_ATTEMPT) && CleanedUp(PAIR, MUTE)
  {
    hide Select, Bytes, NameSet, Members, CleanHalt, SignatureHalt;
    PairNames();
    PairSelections();
    ListsOf();
    NothingInTheWay(map[], PAIR);
    SelectAll(PAIR, {"a.pkg", "b.pkg"});
    assert VerifiedNames(map[], PAIR) == {};
    PairSorted();
  }

  lemma PairSorted()
    ensures ListsSet(["a.pkg", "b.pkg"], {"a.pkg", "b.pkg"})
  {
    ListsOf();
    PairNames();
    assert Below("a.pkg", "b.pkg");
  }

  /** The interrupt loses nothing, the attempt is recorded, its lists split the request, and cache and ledger count alike. */
  lemma MuteInterrupt()
    ensures Keeps(PAIR, MUTE) && Partitions(MUTE_ATTEMPT)
    ensures BatchOutcome(START, 1, PAIR, MIRRORS, map[], [MUTE], [MUTE_ATTEMPT], Failure(Interruption))
    ensures SameCount(map[], Replay(START, Tagged(1, [MUTE_ATTEMPT])), PAIR)
    ensures forall dir :: RoundError(dir, START, 1, 1, PAIR, MIRRORS, MUTE_ROUND, SIGINT)
  {
    hide Describes, CleanedUp, StillPending, Verified, Replay, VerifiedSet, Healthy, VerifiedNames, Select, Acceptable;
    PairNames();
    PairSelections();
    StartIs();
    ListsOf();
    MuteDescribed();
    MuteAcceptable();
    assert Linked(PAIR, MIRRORS, [MUTE], [MUTE_ATTEMPT], 0);
    assert Tagged(1, [MUTE_ATTEMPT]) == [BatchAttempt(1, MUTE_ATTEMPT)];
    BatchMoves(START, 1, PAIR, MIRRORS, [MUTE], [MUTE_ATTEMPT]);
    NoneCounted(VerifiedSet(Replay(START, Tagged(1, [MUTE_ATTEMPT]))));
    MuteRaises();
  }

  lemma MuteRaises()
    ensures forall dir :: RoundError(dir, START, 1, 1, PAIR, MIRRORS, MUTE_ROUND, SIGINT)
    ensures Keeps(PAIR, MUTE)
  {
    forall dir ensures RoundError(dir, START, 1, 1, PAIR, MIRRORS, MUTE_ROUND, SIGINT) {
      assert FailsWith(dir, START, 1, PAIR, MIRRORS, [MUTE], [MUTE_ATTEMPT], [MUTE], Interruption, SIGINT);
    }
  }

  lemma MuteAcceptable()
    ensures Acceptable(START, 1, MUTE_ATTEMPT) && Partitions(MUTE_ATTEMPT)
  {
    ListsOf();
    assert "https://" <= "https://one";
    TwoAgainstOne({"a.pkg", "b.pkg"});
    ThisAcceptable(MUTE_ATTEMPT);
  }

  lemma NoneCounted(verified: set<string>)
    requires verified !! {"a.pkg", "b.pkg"}
    ensures Size(verified * NameSet(PAIR)) == 0 && Size({}) == 0
  {
    PairNames();
    assert verified * NameSet(PAIR) == {};
  }

  /** Whatever else its report shows, the cause agrees, the detail is blank and the validator rejects it. */
  lemma MuteInterruptRejected(e: Report)
    requires !e.passed && e.cache.attempts != [] && e.cache.attempts[|e.cache.attempts| - 1] == BatchAttempt(1, MUTE_ATTEMPT)
    ensures var r := FailedReport(e, Acquisition, SIGINT); CauseAgrees(r) && !Told(r) && !Accepted(r)
  {
    hide CauseText, SpokenCause, SummaryOf, Diagnosed, Silent, CauseAgrees;
    var r := FailedReport(e, Acquisition, SIGINT);
    FailedBlames(e, Acquisition, SIGINT);
    ToldExactly(r, Acquisition, SIGINT);
    SilentInterrupt();
    InterruptCause(r);
    InterruptAgrees(r, Acquisition, SIGINT);
    Untold(r);
  }

  lemma SilentInterrupt()
    ensures Silent(SIGINT, CHAIN_LIMIT)
  {
  }

  lemma InterruptCause(r: Report)
    requires Blames(r, Acquisition, SIGINT)
    ensures r.failure.value.cause.InterruptedCause?
  {
    hide CauseText, SpokenCause, DetailOf;
  }

  lemma Untold(r: Report)
    requires !r.passed && !Told(r)
    ensures !Accepted(r)
  {
  }

  // ---- a missing file whose name is taken for a cause ----

  const GNUTLS := Package("world", "gnutls", "1", "gnutls.pkg", "d", 1, None)

  /** The only mirror raises nothing and delivers nothing. */
  const IDLE := Step({"gnutls.pkg"}, [GNUTLS], map[], map[], map[], Clean)

  const IDLE_ATTEMPT := Attempt(
    1, FIRST, 1, 1, ["gnutls.pkg"], 0, 0, [], 1, 1, ["gnutls.pkg"], [], false, Some(VerificationIncomplete), Some(INCOMPLETE))

  const IDLE_ROUND := Round(0, map[], [IDLE], [IDLE_ATTEMPT], [IDLE], map[], Failure(MirrorsExhausted))

  lemma GnutlsNames()
    ensures NameSet([GNUTLS]) == {"gnutls.pkg"} && Names([GNUTLS]) == ["gnutls.pkg"] && Bytes([GNUTLS]) == 1
    ensures Members(["gnutls.pkg"]) == {"gnutls.pkg"} && Members([]) == {}
    ensures Select([GNUTLS], {}) == [] && Bytes([]) == 0
    ensures Select([GNUTLS], {"gnutls.pkg"}) == [GNUTLS] && VerifiedNames(map[], [GNUTLS]) == {}
  {
    assert GNUTLS in [GNUTLS];
    assert NameSet([GNUTLS]) == {"gnutls.pkg"};
    SelectAll([GNUTLS], {"gnutls.pkg"});
    SelectNone([GNUTLS], {});
    assert VerifiedNames(map[], [GNUTLS]) == {};
    assert [GNUTLS][1..] == [] && Bytes([]) == 0;
  }

  lemma GnutlsDescribed()
    ensures StillPending(IDLE) == {"gnutls.pkg"} && Describes([GNUTLS], IDLE, 1, FIRST, IDLE_ATTEMPT) && CleanedUp([GNUTLS], IDLE)
  {
    hide Select, NameSet, Members, CleanHalt, SignatureHalt, VerifiedNames, Bytes;
    GnutlsNames();
    NothingInTheWay(map[], [GNUTLS]);
    assert StillPending(IDLE) == {"gnutls.pkg"};
  }

  /** The mirrors are exhausted, and nothing about the evidence is wrong. */
  lemma GnutlsMissing()
    ensures Chain([GNUTLS], [FIRST], [IDLE], [IDLE_ATTEMPT]) && Partitions(IDLE_ATTEMPT)
    ensures PendingAfter([GNUTLS], [IDLE]) == {"gnutls.pkg"} && LastRaised([IDLE]) == None
    ensures BatchOutcome([InitialRecord(GNUTLS)], 1, [GNUTLS], [FIRST], map[], [IDLE], [IDLE_ATTEMPT], Failure(MirrorsExhausted))
  {
    hide Describes, CleanedUp, Select, NameSet, Members, VerifiedNames, Bytes;
    GnutlsNames();
    GnutlsDescribed();
    assert Linked([GNUTLS], [FIRST], [IDLE], [IDLE_ATTEMPT], 0);
    assert "https://" <= "https://one";
    assert Tagged(1, [IDLE_ATTEMPT]) == [BatchAttempt(1, IDLE_ATTEMPT)];
    assert InitialRecord(GNUTLS) in [InitialRecord(GNUTLS)];
    assert IDLE_ATTEMPT.requested == ["gnutls.pkg"] && |Members(["gnutls.pkg"])| == 1;
  }

  lemma GnutlsWord()
    ensures Contains(Lower("gnutls.pkg"), "tls") && "tls" in CAUSE_WORDS
  {
    assert Lower("gnutls.pkg") == "gnu" + "tls" + ".pkg";
    ContainsInside("gnu", "tls", ".pkg", "tls");
    assert CAUSE_WORDS[5] == "tls";
  }

  /** The class of its attempt is an incomplete verification, the cause is read from the name of the file: every report
      that ends like this is rejected. */
  lemma GnutlsRejected(dir: string, e: Error, r: Report)
    requires RoundError(dir, [InitialRecord(GNUTLS)], 1, 1, [GNUTLS], [FIRST], IDLE_ROUND, e)
    requires Blames(r, Acquisition, e) && !r.passed
    requires r.cache.attempts != [] && r.cache.attempts[|r.cache.attempts| - 1] == BatchAttempt(1, IDLE_ATTEMPT)
    ensures !CauseAgrees(r) && !Accepted(r)
  {
    hide ChainTexts, Joined, Contains, Lower, Diagnosed, CauseAgrees, Accepted, Blames, Strip, Select, StillPending;
    GnutlsNames();
    GnutlsMissing();
    GnutlsWord();
    ShortChain(dir, e);
    NameMisread(dir, [InitialRecord(GNUTLS)], 1, 1, [GNUTLS], [FIRST], IDLE_ROUND, e, r, "gnutls.pkg", "tls");
  }

  lemma ShortChain(dir: string, e: Error)
    requires RoundError(dir, [InitialRecord(GNUTLS)], 1, 1, [GNUTLS], [FIRST], IDLE_ROUND, e)
    ensures |Joined(ChainTexts(e, CHAIN_LIMIT), "\n")| <= DIAGNOSTIC_LIMIT
  {
    hide ChainTexts, Joined, ExhaustedText, RoundError;
    GnutlsError(dir, e);
    ShortTexts();
    TwoTexts(e.text, e.earlier.value.text);
  }

  /** The error of the round, in full. */
  lemma GnutlsError(dir: string, e: Error)
    requires RoundError(dir, [InitialRecord(GNUTLS)], 1, 1, [GNUTLS], [FIRST], IDLE_ROUND, e)
    ensures var inner := Plain(ExhaustedText(1, 1, ["gnutls.pkg"], false));
      && e == BatchError(1, 1, 0, 1, inner) && e == Error(Other, e.text, None, None, Some(inner))
  {
    hide Select, VerifiedNames, StillPending, LastRaised, ExhaustedText, Decimal;
    GnutlsNames();
    GnutlsMissing();
    assert Names(Select([GNUTLS], PendingAfter([GNUTLS], [IDLE]))) == ["gnutls.pkg"];
    assert |VerifiedNames(map[], [GNUTLS])| == 0;
  }

  lemma OneDigit()
    ensures Decimal(0) == "0" && Decimal(1) == "1"
  {
  }

  lemma ShortTexts()
    ensures |ExhaustedText(1, 1, ["gnutls.pkg"], false)| <= 200
    ensures forall inner: Error :: |BatchError(1, 1, 0, 1, inner).text| <= if inner.kind.Interrupting? then |inner.text| else 200
  {
    OneDigit();
    assert Joined(["gnutls.pkg"], ", ") == "gnutls.pkg";
  }

  // ---- a closure that names a file twice ----

  /** Two packages of different names in files of one name. */
  function Twin(name: string, sha256: string): Package { Package("world", name, "1", "x.pkg", sha256, 1, None) }

  function Twins(sha256: string): seq<Package> { [Twin("a", sha256), Twin("b", sha256)] }

  function RowOf(name: string, sha256: string): Row { ["world", name, "1", "x.pkg", sha256, "1", "https://one", "(null)"] }

  lemma RowReads(reading: Reading, name: string, sha256: string)
    requires reading.size("1") == Some(1) && IsTargetName(name) && IsSha256(sha256)
    ensures GoodRow(reading, RowOf(name, sha256)) && PackageOf(reading, RowOf(name, sha256)) == Twin(name, sha256)
  {
    var row := RowOf(name, sha256);
    assert SignatureText(row[7]) == "";
    assert FROZEN_REPOSITORIES[1] == "world";
  }

  lemma KeysOrdered(p: Package, q: Package)
    requires ByVersion(p) == ["world", "a", "1"] && ByVersion(q) == ["world", "b", "1"]
    ensures ByVersion(p) != ByVersion(q) && KeyBelow(ByVersion(p), ByVersion(q))
  {
    assert "a"[0] != "b"[0] && Below("a", "b");
    assert ByVersion(p)[1] == "a" && ByVersion(q)[1] == "b";
    assert ByVersion(p)[1..] == ["a", "1"] && ByVersion(q)[1..] == ["b", "1"];
    assert KeyBelow(["a", "1"], ["b", "1"]);
  }

  /** Two good rows resolve to a closure that names a file twice. */
  lemma TwinsResolve(w: World, sha256: string)
    requires IsSha256(sha256) && w.reading.size("1") == Some(1) && w.rows == [RowOf("a", sha256), RowOf("b", sha256)]
    ensures ParsedAs(w, Twins(sha256)) && !DistinctNames(Twins(sha256))
  {
    hide GoodRow, PackageOf, IsSha256;
    RowReads(w.reading, "a", sha256);
    RowReads(w.reading, "b", sha256);
    var ps := Twins(sha256);
    KeysOrdered(ps[0], ps[1]);
    assert AllGood(w.reading, w.rows);
    assert PackageOf(w.reading, w.rows[0]) == ps[0] && PackageOf(w.reading, w.rows[1]) == ps[1];
    assert FirstAt(w.reading, w.rows, 0) && FirstAt(w.reading, w.rows, 1);
    assert ps[0] in ps && ps[1] in ps;
  }

  /** Whatever else such a run reports, its evidence does not add up and it is rejected. */
  lemma RepeatedNameRejected(e: Report, sha256: string, s: Substage, error: Error, now: Entries)
    requires e.packages == Twins(sha256)
    ensures !Accepted(FailedReport(e, s, error)) && !AddsUp(e, now, s)
  {
    hide AllSplit, CountedAlike, SummaryOf;
    assert e.packages[0].filename == e.packages[1].filename;
    NamesRefused(FailedReport(e, s, error));
  }
}
