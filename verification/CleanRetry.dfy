/** Why the evidence needs fetches that keep what matched: a clean retry that loses an archive. */
module CleanRetry {
  import opened Results
  import opened Errors
  import opened Diagnosis
  import opened Ordering
  import opened Packages
  import opened PackageCache
  import opened ProgressLedger
  import opened Mirrors
  import opened Acquisition

  /** A process that fails without a word. */
  const FAILED := Error(Process(1), "", None, None, None)

  const LOST := Package("world", "a", "1", "a.pkg", "d", 1, None)

  const FIRST := Mirror("https://one", 1)

  const SECOND := Mirror("https://two", 2)

  const MATCHING: Entries := map["a.pkg" := File("d")]

  /** The archive arrives, but the transaction fails. */
  const RAISING := Step({"a.pkg"}, [LOST], map[], MATCHING, MATCHING, Raising(FAILED))

  /** The clean retry succeeds and takes the archive with it. */
  const LOSING := Step({}, [LOST], MATCHING, map[], map[], Clean)

  const RAISED_ATTEMPT :=
    Attempt(1, FIRST, 1, 1, ["a.pkg"], 1, 1, ["a.pkg"], 0, 0, [], [], false,
            AcquisitionClass(Some(FAILED), false), AttemptDetail(Some(FAILED), false))

  const LOSING_ATTEMPT := Attempt(2, SECOND, 1, 1, ["a.pkg"], 0, 0, [], 0, 0, [], [], true, None, None)

  lemma OnlyName()
    ensures NameSet([LOST]) == {"a.pkg"} && Names([LOST]) == ["a.pkg"] && Bytes([LOST]) == 1
    ensures VerifiedNames(MATCHING, [LOST]) == {"a.pkg"} && VerifiedNames(map[], [LOST]) == {}
    ensures Members(["a.pkg"]) == {"a.pkg"} && Members([]) == {}
  {
    assert LOST in [LOST];
    assert NameSet([LOST]) == {"a.pkg"};
    assert Verified(MATCHING, LOST) && !Verified(map[], LOST);
    assert VerifiedNames(MATCHING, [LOST]) == {"a.pkg"};
    assert Bytes([LOST][1..]) == 0;
  }

  lemma RaisingDescribed()
    ensures StillPending(RAISING) == {} && Describes([LOST], RAISING, 1, FIRST, RAISED_ATTEMPT) && CleanedUp([LOST], RAISING)
  {
    hide AcquisitionClass, AttemptDetail, CleanHalt, SignatureHalt;
    OnlyName();
    SelectAll([LOST], {"a.pkg"});
    SelectNone([LOST], {});
    NamesApart("a.pkg");
    NothingInTheWay(MATCHING, [LOST]);
  }

  lemma LosingDescribed()
    ensures StillPending(LOSING) == {} && Describes([LOST], LOSING, 2, SECOND, LOSING_ATTEMPT) && CleanedUp([LOST], LOSING)
  {
    OnlyName();
    SelectNone([LOST], {});
  }

  /** This run ends with an attempt that passed although it verified nothing it asked for, so the ledger
      refuses it; the fetch did not keep the matching archive. */
  lemma LosingRetryBreaksPartition()
    ensures Chain([LOST], [FIRST, SECOND], [RAISING, LOSING], [RAISED_ATTEMPT, LOSING_ATTEMPT])
    ensures LOSING_ATTEMPT.passed && !Partitions(LOSING_ATTEMPT) && !Keeps([LOST], LOSING)
  {
    hide Describes, CleanedUp, StillPending;
    OnlyName();
    RaisingDescribed();
    LosingDescribed();
    assert Linked([LOST], [FIRST, SECOND], [RAISING, LOSING], [RAISED_ATTEMPT, LOSING_ATTEMPT], 0);
    assert Follows([LOST], RAISING, LOSING);
    assert Linked([LOST], [FIRST, SECOND], [RAISING, LOSING], [RAISED_ATTEMPT, LOSING_ATTEMPT], 1);
    assert LOST in [LOST] && Verified(LOSING.before, LOST) && !Verified(LOSING.fetched, LOST);
  }
}
