/** A run of the closure engine: cache, ledger and evidence as the acquisition loops change them. */
module ClosureRun {
  import opened Results
  import opened Errors
  import opened Diagnosis
  import opened Ordering
  import opened Packages
  import opened PackageCache
  import opened ProgressLedger
  import opened BatchPlan
  import opened Mirrors
  import opened ClosureReport
  import opened Acquisition
  import opened AcquisitionEvidence
  import opened LedgerTotals
  import opened RunEvidence

  /** Why acquisition stops before every batch is complete. */
  datatype Stop =
    | NoMirrors          // no eligible mirror was given
    | CleanUpBlocked     // a side file could not be unlinked
    | AttemptRejected    // the ledger refused the attempt
    | Interruption       // KeyboardInterrupt or SystemExit
    | MirrorsExhausted
    | ArchiveMissing     // the batch finished but an archive is gone again

  function SortedNames(ps: seq<Package>, keep: set<string>): seq<string> { Sort(Names(Select(ps, keep)), Itself) }

  lemma SortedNamesList(ps: seq<Package>, keep: set<string>)
    requires DistinctNames(ps) && keep <= NameSet(ps)
    ensures ListsSet(SortedNames(ps, keep), keep)
  {
    var names := Names(Select(ps, keep));
    SelectDistinct(ps, keep);
    SelectNameSet(ps, keep);
    assert NameSet(ps) * keep == keep;
    NamesMembers(Select(ps, keep));
    NamesDistinct(Select(ps, keep));
    SortIsSorted(names, Itself);
    SortNoDuplicates(names, Itself);
    SortMembers(names, Itself);
  }

  /** The evidence record of one attempt. */
  function AttemptRecord(batch: seq<Package>, requested: seq<Package>, verified: set<string>, pending: set<string>,
                         number: nat, mirror: Mirror, removed: seq<string>, raised: Raised): Attempt
  {
    Attempt(
      number, mirror,
      |requested|, Bytes(requested), Names(requested),
      |SortedNames(requested, verified)|, BytesOf(requested, verified), SortedNames(requested, verified),
      |SortedNames(batch, pending)|, BytesOf(batch, pending), SortedNames(batch, pending),
      removed,
      raised.Clean? && pending == {},
      AcquisitionClass(raised.Caught(), pending != {}),
      AttemptDetail(raised.Caught(), pending != {}))
  }

  lemma AttemptRecordDescribes(batch: seq<Package>, st: Step, number: nat, mirror: Mirror, removed: seq<string>)
    requires DistinctNames(batch) && Shaped(batch, st)
    requires Removed(st.fetched, st.after, removed) && IsSorted(removed, Itself)
    ensures Describes(batch, st, number, mirror,
      AttemptRecord(batch, st.requested, VerifiedNames(st.fetched, st.requested), StillPending(st), number, mirror, removed, st.raised))
  {
    SelectDistinct(batch, NameSet(st.requested));
    assert VerifiedNames(st.fetched, st.requested) <= NameSet(st.requested);
    SortedNamesList(st.requested, VerifiedNames(st.fetched, st.requested));
    assert StillPending(st) <= NameSet(batch);
    SortedNamesList(batch, StillPending(st));
  }

  // ---- the loop over mirrors ----

  /** What the loop will ask for next. */
  function NextRequest(batch: seq<Package>, pending: set<string>, retry: Option<seq<Package>>): seq<Package> {
    if retry.Some? then retry.value else Select(batch, pending)
  }

  /** The loop may go round again: no attempt so far has finished the batch. */
  ghost predicate Going(batch: seq<Package>, mirrors: seq<Mirror>, did: seq<Step>, atts: seq<Attempt>,
                        pending: set<string>, retry: Option<seq<Package>>, now: Entries)
  {
    && Chain(batch, mirrors, did, atts)
    && (did == [] ==> pending == NameSet(batch) && retry.None?)
    && (did != [] ==>
        var last := did[|did| - 1];
        && pending == StillPending(last) && now == last.after && !atts[|atts| - 1].passed
        && retry == if pending == {} then Some(last.requested) else None)
  }

  lemma GoingShaped(batch: seq<Package>, mirrors: seq<Mirror>, did: seq<Step>, atts: seq<Attempt>,
                    pending: set<string>, retry: Option<seq<Package>>, now: Entries, st: Step)
    requires batch != [] && Going(batch, mirrors, did, atts, pending, retry, now)
    requires st.outstanding == pending && st.requested == NextRequest(batch, pending, retry)
    ensures Shaped(batch, st)
  {
    if did == [] {
      assert batch[0].filename in NameSet(batch);
      SelectionShaped(batch, st);
    } else {
      ChainShaped(batch, mirrors, did, atts, |did| - 1);
      if pending != {} { SelectionShaped(batch, st); }
    }
  }

  lemma GoingExtends(batch: seq<Package>, mirrors: seq<Mirror>, did: seq<Step>, atts: seq<Attempt>,
                     pending: set<string>, retry: Option<seq<Package>>, now: Entries, st: Step, a: Attempt)
    requires batch != [] && Going(batch, mirrors, did, atts, pending, retry, now) && |did| < |mirrors|
    requires st.outstanding == pending && st.requested == NextRequest(batch, pending, retry) && st.before == now
    requires CleanedUp(batch, st) && Describes(batch, st, |did| + 1, mirrors[|did|], a)
    ensures Chain(batch, mirrors, did + [st], atts + [a])
  {
    hide CleanedUp, Describes, Shaped;
    var d, t := did + [st], atts + [a];
    forall j | 0 <= j < |d| ensures Linked(batch, mirrors, d, t, j) {
      if j < |did| {
        assert Linked(batch, mirrors, did, atts, j);
        assert d[j] == did[j] && t[j] == atts[j];
        if j > 0 { assert d[j - 1] == did[j - 1] && t[j - 1] == atts[j - 1]; }
      } else if j > 0 {
        assert d[j - 1] == did[j - 1] && t[j - 1] == atts[j - 1];
      } else {
        SelectAll(batch, NameSet(batch));
      }
    }
  }

  /** Each step is what the network did at that call. */
  ghost predicate AnsweredBy(network: Network, first: nat, mirrors: seq<Mirror>, did: seq<Step>) {
    |did| <= |mirrors| && forall j :: 0 <= j < |did| ==>
      Fetched(did[j].fetched, did[j].raised) == network(first + j, mirrors[j], did[j].requested, did[j].before)
  }

  /** What a call of acquire_batch_with_mirror_failover leaves behind. */
  ghost predicate BatchOutcome(start: seq<Record>, b: nat, batch: seq<Package>, mirrors: seq<Mirror>, now: Entries,
                               did: seq<Step>, atts: seq<Attempt>, r: Result<set<string>, Stop>)
  {
    && Chain(batch, mirrors, did, atts)
    && (atts != [] && r != Result.Failure(CleanUpBlocked) ==> now == did[|did| - 1].after)
    && match r
       case Success(_) => atts != [] && atts[|atts| - 1].passed && AllAcceptable(start, Tagged(b, atts))
       case Failure(AttemptRejected) => atts != [] && !Acceptable(start, b, atts[|atts| - 1])
       case Failure(stop) =>
         && AllAcceptable(start, Tagged(b, atts))
         && (atts != [] ==> !atts[|atts| - 1].passed)
         && (stop.NoMirrors? <==> mirrors == [])
         && (stop.Interruption? ==> atts != [] && did[|did| - 1].raised.Interrupts())
         && (stop.MirrorsExhausted? && batch != [] ==> |atts| == |mirrors|)
         && !stop.ArchiveMissing?
  }

  lemma AllAcceptableAppend(start: seq<Record>, b: nat, atts: seq<Attempt>, a: Attempt)
    requires AllAcceptable(start, Tagged(b, atts)) && Acceptable(start, b, a)
    ensures AllAcceptable(start, Tagged(b, atts + [a]))
  {
    assert Tagged(b, atts + [a]) == Tagged(b, atts) + [BatchAttempt(b, a)];
  }

  /** The loop over mirrors between two attempts. */
  ghost predicate Cycling(start: seq<Record>, b: nat, batch: seq<Package>, mirrors: seq<Mirror>, network: Network, first: nat,
                          did: seq<Step>, atts: seq<Attempt>, pending: set<string>, retry: Option<seq<Package>>, now: Entries)
  {
    && Going(batch, mirrors, did, atts, pending, retry, now)
    && AllAcceptable(start, Tagged(b, atts)) && AnsweredBy(network, first, mirrors, did)
  }

  lemma NothingDone(start: seq<Record>, b: nat, batch: seq<Package>, mirrors: seq<Mirror>, network: Network, first: nat, now: Entries)
    ensures Cycling(start, b, batch, mirrors, network, first, [], [], NameSet(batch), None, now) && Tagged(b, []) == []
    ensures mirrors == [] ==> BatchOutcome(start, b, batch, mirrors, now, [], [], Failure(NoMirrors))
    ensures AnsweredBy(network, first, mirrors, [])
  {
  }

  /** A loop that asks for nothing had nothing to do from the start. */
  lemma NothingToDo(start: seq<Record>, b: nat, batch: seq<Package>, mirrors: seq<Mirror>, network: Network, first: nat,
                    did: seq<Step>, atts: seq<Attempt>, pending: set<string>, retry: Option<seq<Package>>, now: Entries)
    requires Cycling(start, b, batch, mirrors, network, first, did, atts, pending, retry, now)
    requires retry.None? && pending == {}
    ensures batch == []
  {
    hide Chain, AllAcceptable, StillPending, NameSet;
    SomeName(batch);
  }

  lemma SomeName(batch: seq<Package>)
    ensures batch != [] ==> NameSet(batch) != {}
  {
    if batch != [] { assert batch[0].filename in NameSet(batch); }
  }

  lemma SomethingToDo(start: seq<Record>, b: nat, batch: seq<Package>, mirrors: seq<Mirror>, network: Network, first: nat,
                      did: seq<Step>, atts: seq<Attempt>, pending: set<string>, retry: Option<seq<Package>>, now: Entries)
    requires Cycling(start, b, batch, mirrors, network, first, did, atts, pending, retry, now)
    requires !(retry.None? && pending == {}) && (did != [] ==> batch != [])
    ensures batch != [] && Going(batch, mirrors, did, atts, pending, retry, now)
  {
    hide Chain, AllAcceptable, StillPending;
    assert NameSet([]) == {};
  }

  /** Giving up between attempts. */
  lemma StoppedCycling(start: seq<Record>, b: nat, batch: seq<Package>, mirrors: seq<Mirror>, network: Network, first: nat,
                       did: seq<Step>, atts: seq<Attempt>, pending: set<string>, retry: Option<seq<Package>>, before: Entries, now: Entries)
    requires Cycling(start, b, batch, mirrors, network, first, did, atts, pending, retry, before) && mirrors != [] && |did| == |atts|
    ensures BatchOutcome(start, b, batch, mirrors, now, did, atts, Failure(CleanUpBlocked))
    ensures AnsweredBy(network, first, mirrors, did)
    ensures now == before && (batch == [] || |did| == |mirrors|) ==>
      BatchOutcome(start, b, batch, mirrors, now, did, atts, Failure(MirrorsExhausted))
  {
    hide Chain, AllAcceptable, StillPending, NameSet;
  }

  /** The first step starts from the cache as it was; without steps the cache has not changed. */
  ghost predicate Began(before: Entries, did: seq<Step>, now: Entries) {
    if did == [] then now == before else did[0].before == before && did[|did| - 1].after == now
  }

  /** The step after did, whose clean-up met a directory; it is not recorded. */
  ghost predicate Unrecorded(batch: seq<Package>, did: seq<Step>, st: Step) {
    && (if did == [] then st.outstanding == NameSet(batch) && st.requested == batch else Follows(batch, did[|did| - 1], st))
    && OnlyLitter(batch, st) && CleanUpHalts(batch, st)
  }

  /** Names of which some step found a matching archive. */
  ghost function EverVerified(did: seq<Step>): set<string> {
    if did == [] then {}
    else EverVerified(did[..|did| - 1]) + VerifiedNames(did[|did| - 1].fetched, did[|did| - 1].requested)
  }

  ghost predicate Uninterrupted(did: seq<Step>) { forall st :: st in did ==> !st.raised.Interrupts() }

  /** What happened at the mirrors, by the network alone: seen are the recorded steps did and, after a
      blocked clean-up, the one that is not recorded. */
  ghost predicate BatchRan(network: Network, first: nat, batch: seq<Package>, mirrors: seq<Mirror>, before: Entries, now: Entries,
                           did: seq<Step>, seen: seq<Step>, r: Result<set<string>, Stop>)
  {
    && AnsweredBy(network, first, mirrors, seen) && Began(before, seen, now)
    && (if r == Result.Failure(CleanUpBlocked)
        then seen != [] && did == seen[..|seen| - 1] && Unrecorded(batch, did, seen[|seen| - 1])
        else seen == did)
    && (Uninterrupted(did) || (did != [] && Uninterrupted(did[..|did| - 1])
        && r.Failure? && (r.error.Interruption? || r.error.AttemptRejected?)))
  }

  // ---- the error a mirror loop ends with ----

  /** The last error raised by a fetch. */
  function LastRaised(did: seq<Step>): Option<Error> {
    if did == [] then None
    else if did[|did| - 1].raised.Raising? then Some(did[|did| - 1].raised.error)
    else LastRaised(did[..|did| - 1])
  }

  function ExhaustedText(made: nat, given: nat, pending: seq<string>, raised: bool): string {
    "package prefetch exhausted " + Decimal(made) + "/" + Decimal(given) +
    if pending == [] && raised then
      " mirror attempts; all requested archives matched the frozen SHA-256 identities but pacman never completed a clean transaction"
    else
      " mirror attempts with " + Decimal(|pending|) + " unresolved package files: " + Joined(pending, ", ")
  }

  ghost function PendingAfter(batch: seq<Package>, did: seq<Step>): set<string> {
    if did == [] then NameSet(batch) else StillPending(did[|did| - 1])
  }

  /** What acquire_batch_with_mirror_failover raises: an interrupt as it came, otherwise an error of its own. */
  ghost predicate FailsWith(dir: string, start: seq<Record>, b: nat, batch: seq<Package>, mirrors: seq<Mirror>,
                            did: seq<Step>, atts: seq<Attempt>, seen: seq<Step>, stop: Stop, e: Error)
  {
    match stop
    case NoMirrors => e == Plain("package prefetch has no eligible mirrors")
    case CleanUpBlocked =>
      seen != [] && CleanUpHalts(batch, seen[|seen| - 1]) && e == CacheText(dir, HaltOf(batch, seen[|seen| - 1]).value)
    case AttemptRejected =>
      atts != [] && Rejected(start, b, atts[|atts| - 1], e)
    case Interruption => did != [] && did[|did| - 1].raised == Raising(e)
    case MirrorsExhausted =>
      e == Error(Other,
                 ExhaustedText(|did|, |mirrors|, Names(Select(batch, PendingAfter(batch, did))), LastRaised(did).Some?),
                 None, None, LastRaised(did))
    case ArchiveMissing => false
  }

  predicate Rejected(rs: seq<Record>, b: nat, a: Attempt, e: Error) {
    RejectionOf(rs, b, a).Some? && e == LedgerText(RejectionOf(rs, b, a).value)
  }

  lemma RaisedMore(did: seq<Step>, st: Step)
    ensures LastRaised(did + [st]) == if st.raised.Raising? then Some(st.raised.error) else LastRaised(did)
  {
    assert (did + [st])[..|did|] == did;
  }

  lemma BeganAppend(start: Entries, did: seq<Step>, before: Entries, st: Step)
    requires Began(start, did, before) && st.before == before
    ensures Began(start, did + [st], st.after)
  {
  }

  /** What the loop asks for is what the chain so far calls for. */
  lemma AsksNext(batch: seq<Package>, mirrors: seq<Mirror>, did: seq<Step>, atts: seq<Attempt>,
                 pending: set<string>, retry: Option<seq<Package>>, now: Entries, st: Step)
    requires batch != [] && Going(batch, mirrors, did, atts, pending, retry, now)
    requires st.outstanding == pending && st.requested == NextRequest(batch, pending, retry) && st.before == now
    ensures if did == [] then st.outstanding == NameSet(batch) && st.requested == batch else Follows(batch, did[|did| - 1], st)
  {
    hide Chain;
    if did == [] { SelectAll(batch, NameSet(batch)); }
  }

  lemma UnrecordedShaped(batch: seq<Package>, mirrors: seq<Mirror>, did: seq<Step>, atts: seq<Attempt>, st: Step)
    requires batch != [] && Chain(batch, mirrors, did, atts) && Unrecorded(batch, did, st)
    ensures Shaped(batch, st)
  {
    hide OnlyLitter, CleanUpHalts;
    if did == [] {
      SelectAll(batch, NameSet(batch));
    } else {
      ChainShaped(batch, mirrors, did, atts, |did| - 1);
      if st.outstanding != {} { SelectionShaped(batch, st); }
    }
  }

  lemma AnsweredAppend(network: Network, first: nat, mirrors: seq<Mirror>, did: seq<Step>, st: Step)
    requires AnsweredBy(network, first, mirrors, did) && |did| < |mirrors|
    requires Fetched(st.fetched, st.raised) == network(first + |did|, mirrors[|did|], st.requested, st.before)
    ensures AnsweredBy(network, first, mirrors, did + [st])
  {
  }

  lemma VerifiedMore(did: seq<Step>, st: Step)
    ensures EverVerified(did + [st]) == EverVerified(did) + VerifiedNames(st.fetched, st.requested)
  {
    assert (did + [st])[..|did|] == did;
  }

  lemma LastInterrupted(did: seq<Step>, st: Step)
    requires Uninterrupted(did)
    ensures Uninterrupted((did + [st])[..|did|]) && (!st.raised.Interrupts() ==> Uninterrupted(did + [st]))
  {
    assert (did + [st])[..|did|] == did;
  }

  lemma AllSeen(network: Network, first: nat, batch: seq<Package>, mirrors: seq<Mirror>, before: Entries, now: Entries,
                did: seq<Step>, r: Result<set<string>, Stop>)
    requires AnsweredBy(network, first, mirrors, did) && Began(before, did, now) && Uninterrupted(did)
    requires r != Result.Failure(CleanUpBlocked)
    ensures BatchRan(network, first, batch, mirrors, before, now, did, did, r)
  {
  }

  lemma StoppedByLast(network: Network, first: nat, batch: seq<Package>, mirrors: seq<Mirror>, before: Entries, now: Entries,
                    did: seq<Step>, r: Result<set<string>, Stop>)
    requires AnsweredBy(network, first, mirrors, did) && Began(before, did, now) && did != [] && Uninterrupted(did[..|did| - 1])
    requires r.Failure? && (r.error.Interruption? || r.error.AttemptRejected?)
    ensures BatchRan(network, first, batch, mirrors, before, now, did, did, r)
  {
    hide Began, AnsweredBy, Uninterrupted;
  }

  lemma SeenUnrecorded(network: Network, first: nat, batch: seq<Package>, mirrors: seq<Mirror>, start: Entries, before: Entries,
                       did: seq<Step>, st: Step)
    requires AnsweredBy(network, first, mirrors, did) && |did| < |mirrors| && Began(start, did, before) && Uninterrupted(did)
    requires Fetched(st.fetched, st.raised) == network(first + |did|, mirrors[|did|], st.requested, st.before) && st.before == before
    requires Unrecorded(batch, did, st)
    ensures BatchRan(network, first, batch, mirrors, start, st.after, did, did + [st], Failure(CleanUpBlocked))
  {
    hide AnsweredBy, Began, Uninterrupted, Unrecorded;
    AnsweredAppend(network, first, mirrors, did, st);
    BeganAppend(start, did, before, st);
    assert (did + [st])[..|did|] == did;
  }

  /** What one recorded attempt makes of the loop. */
  lemma RoundTaken(start: seq<Record>, b: nat, batch: seq<Package>, mirrors: seq<Mirror>, network: Network, first: nat,
                   did: seq<Step>, atts: seq<Attempt>, pending: set<string>, retry: Option<seq<Package>>, before: Entries,
                   st: Step, a: Attempt, now: set<string>, found: set<string>)
    requires Cycling(start, b, batch, mirrors, network, first, did, atts, pending, retry, before)
    requires batch != [] && |did| == |atts| < |mirrors| && Chain(batch, mirrors, did + [st], atts + [a])
    requires Fetched(st.fetched, st.raised) == network(first + |did|, mirrors[|did|], st.requested, st.before)
    requires pending - now == StillPending(st) && (a.passed <==> st.raised.Clean? && pending - now == {})
    ensures AnsweredBy(network, first, mirrors, did + [st])
    ensures !Acceptable(start, b, a) ==>
      BatchOutcome(start, b, batch, mirrors, st.after, did + [st], atts + [a], Failure(AttemptRejected))
    ensures Acceptable(start, b, a) && st.raised.Interrupts() ==>
      BatchOutcome(start, b, batch, mirrors, st.after, did + [st], atts + [a], Failure(Interruption))
    ensures Acceptable(start, b, a) && a.passed ==>
      BatchOutcome(start, b, batch, mirrors, st.after, did + [st], atts + [a], Success(found))
    ensures Acceptable(start, b, a) && !a.passed ==>
      Cycling(start, b, batch, mirrors, network, first, did + [st], atts + [a], pending - now,
              if pending - now == {} then Some(st.requested) else None, st.after)
  {
    hide Chain, AllAcceptable, StillPending, NameSet, Acceptable, AnsweredBy, Tagged;
    AnsweredAppend(network, first, mirrors, did, st);
    if Acceptable(start, b, a) { AllAcceptableAppend(start, b, atts, a); }
  }

  lemma TaggedAppend(b: nat, atts: seq<Attempt>, a: Attempt)
    ensures Tagged(b, atts + [a]) == Tagged(b, atts) + [BatchAttempt(b, a)]
  {
  }

  /** The loop over mirrors between two attempts, with what the network did so far. */
  ghost predicate Looping(start: seq<Record>, b: nat, batch: seq<Package>, mirrors: seq<Mirror>, network: Network, first: nat,
                          did: seq<Step>, atts: seq<Attempt>, pending: set<string>, retry: Option<seq<Package>>,
                          origin: Entries, now: Entries, found: set<string>)
  {
    && |did| == |atts| && Cycling(start, b, batch, mirrors, network, first, did, atts, pending, retry, now)
    && Began(origin, did, now) && Uninterrupted(did) && found == EverVerified(did)
  }

  lemma LoopStarts(start: seq<Record>, b: nat, batch: seq<Package>, mirrors: seq<Mirror>, network: Network, first: nat, now: Entries)
    ensures Looping(start, b, batch, mirrors, network, first, [], [], NameSet(batch), None, now, now, {}) && Tagged(b, []) == []
    ensures mirrors == [] ==>
      && BatchOutcome(start, b, batch, mirrors, now, [], [], Failure(NoMirrors))
      && BatchRan(network, first, batch, mirrors, now, now, [], [], Failure(NoMirrors))
  {
    hide Cycling, BatchOutcome, AnsweredBy, Tagged, NameSet, BatchRan;
    NothingDone(start, b, batch, mirrors, network, first, now);
    if mirrors == [] { AllSeen(network, first, batch, mirrors, now, now, [], Failure(NoMirrors)); }
  }

  /** The loop has something to ask for, unless the batch was empty. */
  lemma LoopAsks(start: seq<Record>, b: nat, batch: seq<Package>, mirrors: seq<Mirror>, network: Network, first: nat,
                 did: seq<Step>, atts: seq<Attempt>, pending: set<string>, retry: Option<seq<Package>>,
                 origin: Entries, now: Entries, found: set<string>)
    requires Looping(start, b, batch, mirrors, network, first, did, atts, pending, retry, origin, now, found)
    requires did != [] ==> batch != []
    ensures retry.None? && pending == {} ==> batch == []
    ensures !(retry.None? && pending == {}) ==> batch != [] && Going(batch, mirrors, did, atts, pending, retry, now)
  {
    hide Cycling, Began, Uninterrupted, EverVerified, Going;
    if retry.None? && pending == {} {
      NothingToDo(start, b, batch, mirrors, network, first, did, atts, pending, retry, now);
    } else {
      SomethingToDo(start, b, batch, mirrors, network, first, did, atts, pending, retry, now);
    }
  }

  lemma LoopExhausted(start: seq<Record>, b: nat, batch: seq<Package>, mirrors: seq<Mirror>, network: Network, first: nat,
                      did: seq<Step>, atts: seq<Attempt>, pending: set<string>, retry: Option<seq<Package>>,
                      origin: Entries, now: Entries, found: set<string>)
    requires Looping(start, b, batch, mirrors, network, first, did, atts, pending, retry, origin, now, found)
    requires mirrors != [] && (batch == [] || |did| == |mirrors|)
    ensures BatchOutcome(start, b, batch, mirrors, now, did, atts, Failure(MirrorsExhausted))
    ensures BatchRan(network, first, batch, mirrors, origin, now, did, did, Failure(MirrorsExhausted))
  {
    hide Cycling, Began, Uninterrupted, EverVerified, BatchOutcome, BatchRan, AnsweredBy;
    StoppedCycling(start, b, batch, mirrors, network, first, did, atts, pending, retry, now, now);
    AllSeen(network, first, batch, mirrors, origin, now, did, Failure(MirrorsExhausted));
  }

  lemma LoopBlocked(start: seq<Record>, b: nat, batch: seq<Package>, mirrors: seq<Mirror>, network: Network, first: nat,
                    did: seq<Step>, atts: seq<Attempt>, pending: set<string>, retry: Option<seq<Package>>,
                    origin: Entries, before: Entries, found: set<string>, st: Step, seen: seq<Step>)
    requires Looping(start, b, batch, mirrors, network, first, did, atts, pending, retry, origin, before, found)
    requires |did| < |mirrors| && st.before == before && Unrecorded(batch, did, st) && seen == did + [st]
    requires Fetched(st.fetched, st.raised) == network(first + |did|, mirrors[|did|], st.requested, st.before)
    ensures BatchOutcome(start, b, batch, mirrors, st.after, did, atts, Failure(CleanUpBlocked))
    ensures BatchRan(network, first, batch, mirrors, origin, st.after, did, seen, Failure(CleanUpBlocked))
  {
    hide Cycling, Began, Uninterrupted, EverVerified, BatchOutcome, BatchRan, AnsweredBy, Unrecorded;
    StoppedCycling(start, b, batch, mirrors, network, first, did, atts, pending, retry, before, st.after);
    SeenUnrecorded(network, first, batch, mirrors, origin, before, did, st);
  }

  /** What one recorded attempt makes of the loop: it ends one way or goes on. */
  lemma LoopRound(start: seq<Record>, b: nat, batch: seq<Package>, mirrors: seq<Mirror>, network: Network, first: nat,
                  did: seq<Step>, atts: seq<Attempt>, pending: set<string>, retry: Option<seq<Package>>, origin: Entries, before: Entries,
                  st: Step, a: Attempt, now: set<string>, had: set<string>, found: set<string>, steps: seq<Step>, all: seq<Attempt>)
    requires Looping(start, b, batch, mirrors, network, first, did, atts, pending, retry, origin, before, had)
    requires batch != [] && |did| < |mirrors| && steps == did + [st] && all == atts + [a] && Chain(batch, mirrors, steps, all)
    requires Fetched(st.fetched, st.raised) == network(first + |did|, mirrors[|did|], st.requested, st.before) && st.before == before
    requires pending - now == StillPending(st) && (a.passed <==> st.raised.Clean? && pending - now == {})
    requires now == VerifiedNames(st.fetched, st.requested) && found == had + now
    ensures Tagged(b, all) == Tagged(b, atts) + [BatchAttempt(b, a)]
    ensures found == EverVerified(steps)
    ensures var r: Result<set<string>, Stop> :=
        if !Acceptable(start, b, a) then Failure(AttemptRejected)
        else if st.raised.Interrupts() then Failure(Interruption) else Success(found);
      if r.Failure? || a.passed then
        && BatchOutcome(start, b, batch, mirrors, st.after, steps, all, r)
        && BatchRan(network, first, batch, mirrors, origin, st.after, steps, steps, r)
      else
        Looping(start, b, batch, mirrors, network, first, steps, all, pending - now,
                if pending - now == {} then Some(st.requested) else None, origin, st.after, found)
  {
    hide Cycling, Chain, Acceptable, VerifiedNames, StillPending, BatchOutcome, AnsweredBy, Tagged, NameSet, Began, BatchRan, Uninterrupted,
         EverVerified;
    RoundTaken(start, b, batch, mirrors, network, first, did, atts, pending, retry, before, st, a, now, found);
    TaggedAppend(b, atts, a);
    BeganAppend(origin, did, before, st);
    LastInterrupted(did, st);
    VerifiedMore(did, st);
    assert steps[..|steps| - 1] == did;
    StoppedByLast(network, first, batch, mirrors, origin, st.after, steps, Failure(AttemptRejected));
    if st.raised.Interrupts() {
      StoppedByLast(network, first, batch, mirrors, origin, st.after, steps, Failure(Interruption));
    } else {
      AllSeen(network, first, batch, mirrors, origin, st.after, steps, Success(found));
    }
  }

  // ---- the loop over batches ----

  /** Verified and pending counts as the evidence gives them, against the ledger. */
  ghost predicate CountsMatch(rs: seq<Record>, reusedCount: nat, verifiedCount: nat, pendingCount: nat, downloadedCount: int) {
    && verifiedCount == SummaryOf(rs).verified.packages && pendingCount == SummaryOf(rs).pending.packages
    && reusedCount <= verifiedCount && downloadedCount == verifiedCount - reusedCount
  }

  /** The cache holds, of this batch, exactly the archives the ledger counts as verified. */
  ghost predicate InStep(e: Entries, rs: seq<Record>, batch: seq<Package>) {
    VerifiedNames(e, batch) == VerifiedSet(rs) * NameSet(batch)
  }

  /** As many archives of this batch match in the cache as the ledger counts as verified. */
  ghost predicate SameCount(e: Entries, rs: seq<Record>, batch: seq<Package>) {
    Size(VerifiedNames(e, batch)) == Size(VerifiedSet(rs) * NameSet(batch))
  }

  /** The closure as acquisition finds it: part reused, the rest planned in batches. */
  ghost predicate Divided(ps: seq<Package>, start: seq<Record>, reusedCount: nat, batches: seq<seq<Package>>) {
    && VerifiedSet(start) + NameSet(Flatten(batches)) == NameSet(ps)
    && VerifiedSet(start) !! NameSet(Flatten(batches))
    && reusedCount == Size(VerifiedSet(start))
  }

  /** Totals that count the cache for the batch at hand agree with the ledger exactly when cache and
      ledger hold equally much of it. */
  lemma CountsDecided(rs: seq<Record>, closure: set<string>, reused: set<string>, planned: set<string>, done: set<string>,
                      batch: set<string>, inLedger: set<string>, inCache: set<string>)
    requires Healthy(rs) && RecordNames(rs) == closure && VerifiedSet(rs) == reused + done + inLedger
    requires reused + planned == closure && reused !! planned
    requires done <= planned && batch <= planned && done !! batch && inLedger <= batch && inCache <= batch
    ensures CountsMatch(rs, Size(reused), Size(reused) + Size(done + inCache), Size(planned - (done + inCache)), Size(done + inCache))
      <==> Size(inCache) == Size(inLedger)
    ensures VerifiedSet(rs) * batch == inLedger
  {
    hide Healthy, SummaryOf, VerifiedSet, RecordNames, Size;
    CountsAgreeExactly(closure, reused, planned, done, batch, inLedger, inCache, VerifiedSet(rs));
    TotalsAsSets(rs);
  }

  lemma LoopCounts(ps: seq<Package>, start: seq<Record>, reusedCount: nat, batches: seq<seq<Package>>, i: nat,
                   rs: seq<Record>, inLedger: set<string>, inCache: set<string>, done: set<string>, planned: set<string>)
    requires Planned(ps, batches) && i < |batches| && Divided(ps, start, reusedCount, batches)
    requires Healthy(rs) && RecordNames(rs) == NameSet(ps)
    requires inLedger <= NameSet(batches[i]) && inCache <= NameSet(batches[i])
    requires done == NameSet(Flatten(batches[..i])) && planned == NameSet(Flatten(batches))
    requires VerifiedSet(rs) == VerifiedSet(start) + done + inLedger
    ensures CountsMatch(rs, reusedCount, reusedCount + Size(done + inCache), Size(planned - (done + inCache)), Size(done + inCache))
      <==> Size(inCache) == Size(inLedger)
    ensures VerifiedSet(rs) * NameSet(batches[i]) == inLedger
  {
    hide Healthy, CountsMatch, NameSet, VerifiedSet, Planned, Size, RecordNames, Flatten;
    PlannedBatch(ps, batches, i);
    CountsDecided(rs, NameSet(ps), VerifiedSet(start), planned, done, NameSet(batches[i]), inLedger, inCache);
  }

  /** Where the loop stands before batch i. */
  ghost predicate AtBatch(ps: seq<Package>, start: seq<Record>, attempts: seq<BatchAttempt>, rs: seq<Record>,
                          batches: seq<seq<Package>>, mirrors: seq<Mirror>, i: nat, completed: nat)
  {
    && i <= |batches|
    && Sound(ps, start, attempts, |batches|, mirrors) && Finished(attempts, batches, i) && Untried(attempts, i)
    && VerifiedSet(rs) == VerifiedSet(start) + NameSet(Flatten(batches[..i]))
    && completed == i
  }

  /** A stop in batch i: what the failure evidence rests on.  The totals agree with the ledger exactly
      when the cache and the ledger hold equally much of the batch. */
  ghost predicate StoppedIn(ps: seq<Package>, start: seq<Record>, attempts: seq<BatchAttempt>, rs: seq<Record>, e: Entries,
                            batches: seq<seq<Package>>, mirrors: seq<Mirror>, i: nat, stop: Stop, counts: bool)
    requires i < |batches|
  {
    match stop
    case AttemptRejected =>
      attempts != [] && !Partitions(attempts[|attempts| - 1].attempt) && !AttemptAccounted(attempts[|attempts| - 1], ps)
    case _ =>
      && Sound(ps, start, attempts, |batches|, mirrors)
      && (counts <==> SameCount(e, rs, batches[i]))
      && (!stop.CleanUpBlocked? && SameCount(e, rs, batches[i]) ==> InStep(e, rs, batches[i]))
      && (stop.Interruption? || stop.MirrorsExhausted? ==> EndsInFailedAttempt(attempts))
  }

  /** With names apart and fetches that keep what matched, only the network can stop a batch, and the
      ledger stays in step with the cache; after a blocked clean-up the cache may hold more. */
  ghost predicate KeptInStep(rs: seq<Record>, e: Entries, batch: seq<Package>, stop: Stop) {
    match stop
    case AttemptRejected => false
    case ArchiveMissing => false
    case CleanUpBlocked => VerifiedSet(rs) * NameSet(batch) <= VerifiedNames(e, batch)
    case _ => InStep(e, rs, batch)
  }

  class Run {
    const packages: seq<Package>
    const cache: Cache
    const ledger: Ledger
    const path: string             // the directory of the cache
    var attempts: seq<BatchAttempt>
    var summary: Summary
    var reusedCount: nat
    var verifiedCount: nat
    var pendingCount: nat
    var downloadedCount: int
    var completedBatches: nat
    var calls: nat
    ghost var start: seq<Record>   // the ledger when acquisition began

    constructor (packages: seq<Package>, cache: Cache, ledger: Ledger, path: string, reusedCount: nat, pendingCount: nat, summary: Summary)
      ensures this.packages == packages && this.cache == cache && this.ledger == ledger && this.path == path
      ensures attempts == [] && start == ledger.records && this.summary == summary && completedBatches == 0
      ensures this.reusedCount == verifiedCount == reusedCount && this.pendingCount == pendingCount && downloadedCount == 0 && calls == 0
    {
      this.packages := packages;
      this.cache := cache;
      this.ledger := ledger;
      this.path := path;
      this.summary := summary;
      attempts, start := [], ledger.records;
      this.reusedCount, verifiedCount, this.pendingCount, downloadedCount := reusedCount, reusedCount, pendingCount, 0;
      completedBatches, calls := 0, 0;
    }

    /** The ledger is exactly what the recorded attempts make of the ledger acquisition began with. */
    ghost predicate Consistent()
      reads this`start, this`attempts, ledger
    {
      && NamedOnce(packages)
      && Healthy(start) && RecordNames(start) == NameSet(packages)
      && ledger.records == Replay(start, attempts)
    }

    /** Fetch, look at the cache, clean up. */
    method FetchAndClean(batch: seq<Package>, requested: seq<Package>, outstanding: set<string>, mirror: Mirror, network: Network)
      returns (r: Result<seq<string>, CacheError>, verified: set<string>, raised: Raised, ghost st: Step)
      modifies cache, this`calls
      ensures calls == old(calls) + 1
      ensures st.outstanding == outstanding && st.requested == requested && st.before == old(cache.entries)
      ensures Fetched(st.fetched, st.raised) == network(old(calls), mirror, requested, old(cache.entries))
      ensures st.after == cache.entries && Shrunk(st.fetched, st.after)
      ensures verified == VerifiedNames(st.fetched, requested) && raised == st.raised
      ensures r.Success? ==> CleanedUp(batch, st) && Removed(st.fetched, st.after, r.value) && IsSorted(r.value, Itself)
      ensures r.Failure? ==> OnlyLitter(batch, st) && HaltOf(batch, st) == Some(r.error)
    {
      ghost var before := cache.entries;
      var fetched := network(calls, mirror, requested, cache.entries);
      calls := calls + 1;
      cache.entries := fetched.entries;
      raised := fetched.raised;
      verified := cache.VerifiedCachedFilenames(requested);
      var pending := outstanding - verified;
      r := cache.RemoveUnverifiedAttemptFiles(Select(batch, pending));
      st := Step(outstanding, requested, before, fetched.entries, cache.entries, raised);
      if r.Success? && !raised.Clean? && pending == {} {
        SelectNone(batch, pending);
        NothingLitters(fetched.entries, cache.entries);
        ghost var middle := cache.entries;
        var signatures := cache.RemoveDetachedSignaturesForRetry(requested);
        st := Step(outstanding, requested, before, fetched.entries, cache.entries, raised);
        if signatures.Failure? {
          return Failure(signatures.error), verified, raised, st;
        }
        RemovedThen(fetched.entries, middle, cache.entries, r.value, signatures.value);
        RemovedSorted(fetched.entries, cache.entries, r.value + signatures.value);
        r := Success(Sort(r.value + signatures.value, Itself));
      }
    }

    /** record_mirror_attempt: evidence first, then the ledger, then the totals. */
    method RecordMirrorAttempt(b: nat, a: Attempt) returns (r: Result<(), LedgerError>)
      requires Consistent()
      modifies this`attempts, this`summary, this`verifiedCount, this`pendingCount, this`downloadedCount, ledger
      ensures Consistent()
      ensures attempts == old(attempts) + [BatchAttempt(b, a)]
      ensures r.Success? <==> Acceptable(start, b, a)
      ensures r.Failure? ==> Rejected(start, b, a, LedgerText(r.error))
      ensures r.Success? ==> TotalsRecorded()
    {
      hide RejectionOf, LedgerText, Acceptable, Healthy, Replay, Attempted, NamedOnce, Summarizable, SummaryOf, DistinctRecords, SameClosure;
      ReplayTakes(start, attempts, b, a);
      attempts := attempts + [BatchAttempt(b, a)];
      r := ledger.RecordAttempt(b, a);
      if r.Failure? { return; }
      ReplayHealthy(start, attempts);
      LedgerSummarizable(packages, start, ledger.records);
      var s := SummarizePackageProgress(ledger.records);
      summary := s.value;
      verifiedCount := summary.verified.packages;
      pendingCount := summary.pending.packages;
      downloadedCount := verifiedCount - reusedCount;
    }

    /** One round of the mirror loop: fetch, clean up, record. */
    method AttemptMirror(b: nat, batch: seq<Package>, mirrors: seq<Mirror>, k: nat, pending: set<string>,
                         retry: Option<seq<Package>>, network: Network, ghost did: seq<Step>, ghost atts: seq<Attempt>)
      returns (r: Result<(), Stop>, error: Option<Error>, now: set<string>, raised: Raised, ghost st: Step, ghost a: Attempt)
      requires Consistent() && DistinctNames(batch) && batch != [] && k == |did| < |mirrors|
      requires Going(batch, mirrors, did, atts, pending, retry, cache.entries)
      modifies this`attempts, this`summary, this`verifiedCount, this`pendingCount, this`downloadedCount
      modifies this`calls, ledger, cache
      ensures Consistent() && calls == old(calls) + 1
      ensures Fetched(st.fetched, st.raised) == network(old(calls), mirrors[k], st.requested, st.before)
      ensures st.requested == NextRequest(batch, pending, retry) && st.before == old(cache.entries) && st.after == cache.entries
      ensures now == VerifiedNames(st.fetched, st.requested) && pending - now == StillPending(st) && raised == st.raised
      ensures r.Failure? ==> r.error.CleanUpBlocked? || r.error.AttemptRejected?
      ensures r == Result.Failure(CleanUpBlocked) ==>
        attempts == old(attempts) && ledger.records == old(ledger.records)
        && (old(TotalsRecorded()) ==> TotalsRecorded())
        && Unrecorded(batch, did, st) && CleanUpHalts(batch, st)
        && error.Some? && error.value == CacheText(path, HaltOf(batch, st).value)
      ensures r == Result.Failure(AttemptRejected) ==> error.Some? && Rejected(start, b, a, error.value)
      ensures r != Result.Failure(CleanUpBlocked) ==>
        && attempts == old(attempts) + [BatchAttempt(b, a)]
        && Chain(batch, mirrors, did + [st], atts + [a])
        && (a.passed <==> raised.Clean? && pending - now == {})
        && (r.Success? <==> Acceptable(start, b, a))
      ensures r.Success? ==> TotalsRecorded()
    {
      hide Consistent, Chain, Describes, CleanedUp, Shaped, Acceptable, VerifiedNames, SummaryOf, Going, AttemptRecord, NextRequest,
           TotalsRecorded, Removed, IsSorted, DistinctNames, OnlyLitter, HaltOf, Follows, Rejected, CacheText, LedgerText;
      var requested := NextRequest(batch, pending, retry);
      var cleaned;
      cleaned, now, raised, st := FetchAndClean(batch, requested, pending, mirrors[k], network);
      GoingShaped(batch, mirrors, did, atts, pending, retry, st.before, st);
      AsksNext(batch, mirrors, did, atts, pending, retry, st.before, st);
      if cleaned.Failure? {
        a := AttemptRecord(batch, requested, now, pending - now, k + 1, mirrors[k], [], raised);
        return Failure(CleanUpBlocked), Some(CacheText(path, cleaned.error)), now, raised, st, a;
      }
      AttemptRecordDescribes(batch, st, k + 1, mirrors[k], cleaned.value);
      var evidence := AttemptRecord(batch, requested, now, pending - now, k + 1, mirrors[k], cleaned.value, raised);
      a := evidence;
      GoingExtends(batch, mirrors, did, atts, pending, retry, st.before, st, a);
      PassMeansClean(batch, st, k + 1, mirrors[k], a);
      var recorded := RecordMirrorAttempt(b, evidence);
      r, error := Success(()), None;
      if recorded.Failure? { r, error := Failure(AttemptRejected), Some(LedgerText(recorded.error)); }
    }

    method AcquireBatchWithMirrorFailover(b: nat, batch: seq<Package>, mirrors: seq<Mirror>, network: Network)
      returns (r: Result<set<string>, Stop>, error: Option<Error>, ghost did: seq<Step>, ghost atts: seq<Attempt>, ghost seen: seq<Step>)
      requires Consistent() && DistinctNames(batch)
      modifies this`attempts, this`summary, this`verifiedCount, this`pendingCount, this`downloadedCount
      modifies this`calls, ledger, cache
      ensures Consistent()
      ensures attempts == old(attempts) + Tagged(b, atts)
      ensures BatchOutcome(start, b, batch, mirrors, cache.entries, did, atts, r)
      ensures BatchRan(network, old(calls), batch, mirrors, old(cache.entries), cache.entries, did, seen, r)
      ensures r.Failure? ==> error.Some? && FailsWith(path, start, b, batch, mirrors, did, atts, seen, r.error, error.value)
      ensures calls == old(calls) + |seen|
      ensures r.Success? ==> r.value == EverVerified(did)
      ensures r.Success? || (!r.error.AttemptRejected? && atts != []) ==> TotalsRecorded()
      ensures atts == [] ==> ledger.records == old(ledger.records)
    {
      hide Consistent, Chain, Acceptable, VerifiedNames, TotalsRecorded, StillPending, BatchOutcome, Tagged, NameSet, BatchRan, Unrecorded,
           Looping, Going, EverVerified, DistinctNames, Rejected, CacheText, HaltOf, LastRaised, ExhaustedText;
      did, atts, seen := [], [], [];
      LoopStarts(start, b, batch, mirrors, network, calls, cache.entries);
      if mirrors == [] { return Failure(NoMirrors), Some(Plain("package prefetch has no eligible mirrors")), did, atts, seen; }
      var pending := NameSet(batch);
      var verified: set<string> := {};
      var retry: Option<seq<Package>> := None;
      var lastError: Option<Error> := None;
      NothingRaised(batch);
      var k := 0;
      while k < |mirrors|
        invariant 0 <= k == |atts| == |did| <= |mirrors| && seen == did && Consistent()
        invariant lastError == LastRaised(did) && pending == PendingAfter(batch, did)
        invariant attempts == old(attempts) + Tagged(b, atts) && calls == old(calls) + k
        invariant Looping(start, b, batch, mirrors, network, old(calls), did, atts, pending, retry,
                          old(cache.entries), cache.entries, verified)
        invariant if atts != [] then TotalsRecorded() && batch != [] else ledger.records == old(ledger.records)
      {
        LoopAsks(start, b, batch, mirrors, network, old(calls), did, atts, pending, retry, old(cache.entries), cache.entries, verified);
        if retry.None? && pending == {} { break; }
        ghost var before, had := cache.entries, verified;
        var requested := NextRequest(batch, pending, retry);
        ghost var st, a;
        var attempted, stopped, now, raised;
        attempted, stopped, now, raised, st, a := AttemptMirror(b, batch, mirrors, k, pending, retry, network, did, atts);
        seen := did + [st];
        if attempted == Result.Failure(CleanUpBlocked) {
          LoopBlocked(start, b, batch, mirrors, network, old(calls), did, atts, pending, retry, old(cache.entries), before,
                      verified, st, seen);
          return Failure(CleanUpBlocked), stopped, did, atts, seen;
        }
        verified := verified + now;
        LoopRound(start, b, batch, mirrors, network, old(calls), did, atts, pending, retry, old(cache.entries), before,
                  st, a, now, had, verified, seen, atts + [a]);
        RaisedMore(did, st);
        did, atts := seen, atts + [a];
        if raised.Raising? { lastError := Some(raised.error); }
        pending := pending - now;
        if attempted.Failure? { return Failure(AttemptRejected), stopped, did, atts, seen; }
        if raised.Interrupts() { return Failure(Interruption), lastError, did, atts, seen; }
        if raised.Clean? && pending == {} { return Success(verified), None, did, atts, seen; }
        retry := if !raised.Clean? && pending == {} then Some(requested) else None;
        k := k + 1;
      }
      LoopExhausted(start, b, batch, mirrors, network, old(calls), did, atts, pending, retry, old(cache.entries), cache.entries, verified);
      var message := ExhaustedText(k, |mirrors|, Names(Select(batch, pending)), lastError.Some?);
      return Failure(MirrorsExhausted), Some(Error(Other, message, None, None, lastError)), did, atts, seen;
    }

    /** record_prefetch_progress: totals recomputed from what the cache holds of the batches so far. */
    method RecordPrefetchProgress(index: nat, prefetched: set<string>, pendingNames: set<string>, complete: bool)
      requires Consistent()
      modifies this`summary, this`verifiedCount, this`pendingCount, this`downloadedCount, this`completedBatches
      ensures summary == SummaryOf(ledger.records)
      ensures verifiedCount == reusedCount + Size(prefetched) && pendingCount == Size(pendingNames) && downloadedCount == Size(prefetched)
      ensures completedBatches == if complete then index else old(completedBatches)
    {
      hide Healthy, Replay, NamedOnce, Summarizable, SummaryOf, SameClosure;
      downloadedCount := |prefetched|;
      verifiedCount := reusedCount + |prefetched|;
      pendingCount := |pendingNames|;
      ReplayHealthy(start, attempts);
      LedgerSummarizable(packages, start, ledger.records);
      var s := SummarizePackageProgress(ledger.records);
      summary := s.value;
      if complete { completedBatches := index; }
    }

    /** The evidence totals are those of the ledger. */
    ghost predicate TotalsRecorded()
      reads this`summary, this`verifiedCount, this`pendingCount, this`downloadedCount, this`reusedCount, ledger
    {
      && summary == SummaryOf(ledger.records)
      && verifiedCount == summary.verified.packages && pendingCount == summary.pending.packages
      && downloadedCount == verifiedCount - reusedCount
    }
  }

  /** The ledger and the evidence after the attempts of batch i, whether or not they finished it. */
  lemma AfterBatch(ps: seq<Package>, start: seq<Record>, attempts: seq<BatchAttempt>, batches: seq<seq<Package>>,
                   mirrors: seq<Mirror>, i: nat, did: seq<Step>, atts: seq<Attempt>)
    requires Planned(ps, batches) && DistinctNames(ps) && i < |batches| && Healthy(start) && RecordNames(start) == NameSet(ps)
    requires Forward(mirrors) && |mirrors| <= MAX_MIRROR_ATTEMPTS
    requires AtBatch(ps, start, attempts, Replay(start, attempts), batches, mirrors, i, i)
    requires VerifiedSet(start) !! NameSet(Flatten(batches))
    requires Chain(batches[i], mirrors, did, atts) && AllAcceptable(start, Tagged(i + 1, atts))
    ensures var all := attempts + Tagged(i + 1, atts);
      var inLedger := if atts == [] then {} else NameSet(batches[i]) - StillPending(did[|did| - 1]);
      && Sound(ps, start, all, |batches|, mirrors) && Untried(all, i + 1)
      && VerifiedSet(Replay(start, all)) == VerifiedSet(start) + NameSet(Flatten(batches[..i])) + inLedger
      && (atts != [] && atts[|atts| - 1].passed ==> Finished(all, batches, i + 1))
  {
    hide Chain, Sound, Healthy, StillPending, Acceptable, DistinctNames, VerifiedSet, Finished, Untried, Planned, Forward, AllAcceptable;
    var all := attempts + Tagged(i + 1, atts);
    PlannedBatch(ps, batches, i);
    NotEmptyBatch(ps, batches, i);
    NextBatchSound(ps, start, attempts, batches, i, mirrors, did, atts);
    UntriedAfter(attempts, i, atts, all);
    if atts == [] {
      assert all == attempts;
    } else {
      if atts[|atts| - 1].passed { FinishedAfter(attempts, batches, i, mirrors, did, atts, all); }
      LedgerAfterBatch(start, attempts, i + 1, batches[i], mirrors, did, atts);
    }
  }

  lemma NothingLitters(before: Entries, after: Entries)
    requires Shrunk(before, after) && LitterOnly(before, after, [])
    ensures after == before
  {
  }

  lemma NothingRaised(batch: seq<Package>)
    ensures LastRaised([]) == None && PendingAfter(batch, []) == NameSet(batch)
  {
  }

  lemma SameRejection(rs: seq<Record>, mid: seq<Record>, b: nat, a: Attempt)
    requires RecordNames(rs) == RecordNames(mid)
    ensures RejectionOf(rs, b, a) == RejectionOf(mid, b, a)
  {
  }

  /** One more attempt changes the replayed ledger exactly when it is acceptable. */
  lemma ReplayTakes(start: seq<Record>, attempts: seq<BatchAttempt>, b: nat, a: Attempt)
    requires Healthy(start)
    ensures var rs := Replay(start, attempts);
      && DistinctRecords(rs)
      && (Acceptable(start, b, a) <==> Acceptable(rs, b, a)) && RejectionOf(start, b, a) == RejectionOf(rs, b, a)
      && Replay(start, attempts + [BatchAttempt(b, a)]) == if Acceptable(rs, b, a) then Attempted(rs, b, a) else rs
  {
    hide Acceptable, Attempted, RejectionOf;
    ReplayAppend(start, attempts, BatchAttempt(b, a));
    ReplayHealthy(start, attempts);
    SameNames(start, Replay(start, attempts));
    SameAcceptable(start, Replay(start, attempts), b, a);
    SameRejection(start, Replay(start, attempts), b, a);
  }

  lemma SameAcceptable(rs: seq<Record>, mid: seq<Record>, b: nat, a: Attempt)
    requires RecordNames(rs) == RecordNames(mid)
    ensures Acceptable(rs, b, a) <==> Acceptable(mid, b, a)
  {
  }

  lemma LedgerSummarizable(ps: seq<Package>, start: seq<Record>, rs: seq<Record>)
    requires NamedOnce(ps) && RecordNames(start) == NameSet(ps)
    requires Healthy(rs) && SameClosure(start, rs)
    ensures Summarizable(rs)
  {
    SameNames(start, rs);
    forall r | r in rs ensures r.filename != "" {
      assert r.filename in RecordNames(rs);
      var p :| p in ps && p.filename == r.filename;
    }
  }
}
