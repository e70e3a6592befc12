/** The per-package progress ledger: initial records, reconciliation with a cache audit, recording of
    mirror attempts, and the summary. */
module ProgressLedger {
  import opened Results
  import opened Errors
  import opened Ordering
  import opened Packages

  datatype FailureClass =
    | VerificationIncomplete | Interrupted | Timeout | HttpNotFound | Tls
    | Dns | Connection | Integrity | ProcessFailed | RuntimeError

  datatype State = Pending | ReusedVerified | DownloadedVerified | CorruptRemoved | Failed

  const STATES: set<State> := {Pending, ReusedVerified, DownloadedVerified, CorruptRemoved, Failed}

  datatype Record = Record(
    repository: string,
    name: string,
    version: string,
    filename: string,
    sizeBytes: nat,
    state: State,
    verified: bool,
    needsAcquisition: bool,
    batch: Option<nat>,
    attempt: Option<nat>,
    mirror: Option<string>,
    failureClass: Option<FailureClass>)

  datatype Mirror = Mirror(server: string, line: nat)

  /** Evidence of one mirror attempt at one batch. */
  datatype Attempt = Attempt(
    number: nat,
    mirror: Mirror,
    requestedCount: nat, requestedBytes: nat, requested: seq<string>,
    verifiedCount: nat, verifiedBytes: nat, verified: seq<string>,
    pendingCount: nat, pendingBytes: nat, pending: seq<string>,
    removed: seq<string>,
    passed: bool,
    failureClass: Option<FailureClass>,
    detail: Option<string>)

  predicate IsHttps(server: string) { "https://" <= server }

  function Members(s: seq<string>): set<string> { set n | n in s }

  // ---- records ----

  predicate IsVerifiedState(s: State) { s.ReusedVerified? || s.DownloadedVerified? }

  predicate FlagsMatch(r: Record) {
    r.verified == IsVerifiedState(r.state) && r.needsAcquisition == !IsVerifiedState(r.state)
  }

  predicate NoAttemptData(r: Record) {
    r.batch.None? && r.attempt.None? && r.mirror.None? && r.failureClass.None?
  }

  predicate AttemptData(r: Record) {
    r.batch.Some? && r.batch.value >= 1 && r.attempt.Some? && r.attempt.value >= 1 && r.mirror.Some? && IsHttps(r.mirror.value)
  }

  /** The acquisition data a record carries fits its state. */
  predicate DataMatches(r: Record) {
    match r.state
    case DownloadedVerified => AttemptData(r) && r.failureClass.None?
    case Failed => AttemptData(r) && r.failureClass.Some?
    case _ => NoAttemptData(r)
  }

  predicate DistinctRecords(rs: seq<Record>) {
    forall i, j :: 0 <= i < j < |rs| ==> rs[i].filename != rs[j].filename
  }

  function RecordNames(rs: seq<Record>): set<string> { set r | r in rs :: r.filename }

  function InitialRecord(p: Package): Record {
    Record(p.repository, p.name, p.version, p.filename, p.sizeBytes, Pending, false, true, None, None, None, None)
  }

  function InitialRecords(ps: seq<Package>): (rs: seq<Record>)
    ensures |rs| == |ps|
  {
    seq(|ps|, i requires 0 <= i < |ps| => InitialRecord(ps[i]))
  }

  /** A record states the identity of the package it tracks. */
  predicate SameIdentity(r: Record, p: Package) {
    r.repository == p.repository && r.name == p.name && r.version == p.version
    && r.filename == p.filename && r.sizeBytes == p.sizeBytes
  }

  /** One record per package, in filename order. */
  ghost predicate Tracks(rs: seq<Record>, ps: seq<Package>) {
    var s := Sort(ps, ByFilename);
    |rs| == |s| && forall i :: 0 <= i < |s| ==> SameIdentity(rs[i], s[i])
  }

  datatype LedgerError =
    | DuplicateFilename(name: string) | InvalidFilename | InconsistentFlags | NotReconcilable
    | NothingRequested | InvalidRequest | NotPartitioned | InvalidContext

  /** The first name that occurred before, going through s. */
  function FirstRepeat(s: seq<Package>, seen: set<string>): Option<string> {
    if s == [] then None
    else if s[0].filename in seen then Some(s[0].filename)
    else FirstRepeat(s[1..], seen + {s[0].filename})
  }

  lemma RepeatStep(s: seq<Package>, i: nat, seen: set<string>)
    requires i < |s|
    ensures FirstRepeat(s[i..], seen) ==
      if s[i].filename in seen then Some(s[i].filename) else FirstRepeat(s[i + 1..], seen + {s[i].filename})
  {
    assert s[i..][0] == s[i] && s[i..][1..] == s[i + 1..];
  }

  function RepeatError(ps: seq<Package>): Option<LedgerError> {
    match FirstRepeat(Sort(ps, ByFilename), {})
    case Some(n) => Some(DuplicateFilename(n))
    case None => None
  }

  method InitializePackageProgress(packages: seq<Package>) returns (r: Result<seq<Record>, LedgerError>)
    ensures r.Success? <==> DistinctNames(packages)
    ensures r.Failure? ==> Some(r.error) == RepeatError(packages)
    ensures r.Success? ==> Tracks(r.value, packages)
    ensures r.Success? ==> forall q :: q in r.value ==> q.state.Pending? && FlagsMatch(q) && NoAttemptData(q)
  {
    hide FirstRepeat, Sort, FlagsMatch, NoAttemptData, SameIdentity, InitialRecord, InitialRecords, Tracks;
    var s := Sort(packages, ByFilename);
    DistinctPermuted(s, packages);
    var progress: seq<Record> := [];
    InitialRecordsAre([]);
    var seen: set<string> := {};
    assert s[0..] == s;
    for i := 0 to |s|
      invariant FirstRepeat(s, {}) == FirstRepeat(s[i..], seen)
      invariant progress == InitialRecords(s[..i])
      invariant seen == NameSet(s[..i]) && DistinctNames(s[..i])
    {
      hide DistinctNames;
      PrefixSplit(s, i);
      RepeatStep(s, i, seen);
      if s[i].filename in seen { return Failure(DuplicateFilename(s[i].filename)); }
      PrefixDistinct(s, i);
      InitialRecordsAppend(s[..i], s[i]);
      seen := seen + {s[i].filename};
      progress := progress + [InitialRecord(s[i])];
    }
    assert s[..|s|] == s;
    NoRepeat(seen);
    InitialRecordsAre(s);
    InitialTracks(packages);
    return Success(progress);
  }

  lemma NoRepeat(seen: set<string>)
    ensures FirstRepeat([], seen) == None
  {
  }

  lemma InitialRecordsAre(s: seq<Package>)
    ensures InitialRecords([]) == []
    ensures forall q :: q in InitialRecords(s) ==> q.state.Pending? && FlagsMatch(q) && NoAttemptData(q)
  {
  }

  lemma InitialTracks(ps: seq<Package>)
    ensures Tracks(InitialRecords(Sort(ps, ByFilename)), ps)
  {
  }

  lemma InitialRecordsAppend(s: seq<Package>, p: Package)
    ensures InitialRecords(s + [p]) == InitialRecords(s) + [InitialRecord(p)]
  {
  }

  // ---- the summary ----

  datatype Tally = Tally(packages: nat, bytes: nat)

  datatype Summary = Summary(display: string, resolved: Tally, verified: Tally, pending: Tally, states: map<State, Tally>)

  datatype Heading = AllRecords | MarkedVerified | MarkedPending | InState(state: State)

  predicate Under(h: Heading, r: Record) {
    match h
    case AllRecords => true
    case MarkedVerified => r.verified
    case MarkedPending => r.needsAcquisition
    case InState(s) => r.state == s
  }

  function Plus(t: Tally, r: Record): Tally { Tally(t.packages + 1, t.bytes + r.sizeBytes) }

  /** Number and size of the records under a heading. */
  function TallyOf(rs: seq<Record>, h: Heading): Tally {
    if rs == [] then Tally(0, 0)
    else
      var t := TallyOf(rs[..|rs| - 1], h);
      if Under(h, rs[|rs| - 1]) then Plus(t, rs[|rs| - 1]) else t
  }

  function Display(resolved: nat, verified: nat, pending: nat): string {
    Decimal(resolved) + " resolved / " + Decimal(verified) + " verified / " + Decimal(pending) + " pending"
  }

  function SummaryOf(rs: seq<Record>): Summary {
    Summary(
      Display(TallyOf(rs, AllRecords).packages, TallyOf(rs, MarkedVerified).packages, TallyOf(rs, MarkedPending).packages),
      TallyOf(rs, AllRecords), TallyOf(rs, MarkedVerified), TallyOf(rs, MarkedPending),
      map s | s in STATES :: TallyOf(rs, InState(s)))
  }

  ghost predicate Summarizable(rs: seq<Record>) {
    DistinctRecords(rs) && forall r :: r in rs ==> r.filename != "" && FlagsMatch(r)
  }

  lemma TallyStep(rs: seq<Record>, i: nat, h: Heading)
    requires i < |rs|
    ensures TallyOf(rs[..i + 1], h) == Added(TallyOf(rs[..i], h), rs[i], h)
  {
    assert rs[..i + 1][..i] == rs[..i];
  }

  function Added(t: Tally, r: Record, h: Heading): Tally { if Under(h, r) then Plus(t, r) else t }

  /** The running totals of both summary loops. */
  datatype Totals = Totals(resolved: Tally, verified: Tally, pending: Tally, states: map<State, Tally>)

  function ZeroTotals(): Totals {
    Totals(Tally(0, 0), Tally(0, 0), Tally(0, 0), map s | s in STATES :: Tally(0, 0))
  }

  ghost predicate TotalsOf(rs: seq<Record>, t: Totals) {
    match t
    case Totals(resolved, verified, pending, states) =>
      && resolved == TallyOf(rs, AllRecords)
      && verified == TallyOf(rs, MarkedVerified)
      && pending == TallyOf(rs, MarkedPending)
      && states.Keys == STATES
      && forall s :: s in STATES ==> states[s] == TallyOf(rs, InState(s))
  }

  lemma TotalsStep(rs: seq<Record>, i: nat, t: Totals, u: Totals)
    requires i < |rs| && TotalsOf(rs[..i], t)
    requires u.resolved == Added(t.resolved, rs[i], AllRecords)
    requires u.verified == Added(t.verified, rs[i], MarkedVerified)
    requires u.pending == Added(t.pending, rs[i], MarkedPending)
    requires rs[i].state in t.states && u.states == t.states[rs[i].state := Plus(t.states[rs[i].state], rs[i])]
    ensures TotalsOf(rs[..i + 1], u)
  {
    TallyStep(rs, i, AllRecords);
    TallyStep(rs, i, MarkedVerified);
    TallyStep(rs, i, MarkedPending);
    forall s | s in STATES ensures u.states[s] == TallyOf(rs[..i + 1], InState(s)) {
      TallyStep(rs, i, InState(s));
    }
  }

  lemma TotalsAre(rs: seq<Record>, t: Totals)
    requires TotalsOf(rs, t)
    ensures SummaryOf(rs) == Summary(
      Display(t.resolved.packages, t.verified.packages, t.pending.packages), t.resolved, t.verified, t.pending, t.states)
  {
    assert t.states == map s | s in STATES :: TallyOf(rs, InState(s));
  }

  lemma NoTotals()
    ensures TotalsOf([], ZeroTotals())
  {
  }

  /** The summary loop may continue past record i. */
  predicate Summable(rs: seq<Record>, i: nat)
    requires i < |rs|
  {
    rs[i].filename != "" && rs[i].filename !in RecordNames(rs[..i]) && FlagsMatch(rs[i])
  }

  lemma SummableStep(rs: seq<Record>, i: nat)
    requires i < |rs| && Summarizable(rs[..i])
    ensures Summable(rs, i) ==> Summarizable(rs[..i + 1])
    ensures !Summable(rs, i) ==> !Summarizable(rs)
    ensures RecordNames(rs[..i + 1]) == RecordNames(rs[..i]) + {rs[i].filename}
  {
    assert rs[..i + 1] == rs[..i] + [rs[i]];
    if Summable(rs, i) {
      forall k | 0 <= k < i ensures rs[k].filename != rs[i].filename { assert rs[k] in rs[..i]; }
    }
    if rs[i].filename in RecordNames(rs[..i]) {
      var q :| q in rs[..i] && q.filename == rs[i].filename;
      var k :| 0 <= k < i && rs[k] == q;
    }
  }

  method SummarizePackageProgress(progress: seq<Record>) returns (r: Result<Summary, LedgerError>)
    ensures r.Success? <==> Summarizable(progress)
    ensures r.Success? ==> r.value == SummaryOf(progress)
  {
    hide TotalsOf, Summarizable, TallyOf, SummaryOf;
    var states := ZeroTotals().states;
    var resolved, verified, pending := Tally(0, 0), Tally(0, 0), Tally(0, 0);
    var seen: set<string> := {};
    NoTotals();
    assert Summarizable(progress[..0]) by { NothingToSummarize(progress); }
    for i := 0 to |progress|
      invariant seen == RecordNames(progress[..i]) && Summarizable(progress[..i])
      invariant states.Keys == STATES && TotalsOf(progress[..i], Totals(resolved, verified, pending, states))
    {
      var record := progress[i];
      ghost var before := Totals(resolved, verified, pending, states);
      SummableStep(progress, i);
      if record.filename == "" || record.filename in seen { return Failure(InvalidFilename); }
      if IsVerifiedState(record.state) {
        if !record.verified || record.needsAcquisition { return Failure(InconsistentFlags); }
      } else if record.verified || !record.needsAcquisition {
        return Failure(InconsistentFlags);
      }
      seen := seen + {record.filename};
      resolved := Plus(resolved, record);
      states := states[record.state := Plus(states[record.state], record)];
      if record.verified { verified := Plus(verified, record); }
      if record.needsAcquisition { pending := Plus(pending, record); }
      TotalsStep(progress, i, before, Totals(resolved, verified, pending, states));
    }
    assert progress[..|progress|] == progress;
    TotalsAre(progress, Totals(resolved, verified, pending, states));
    return Success(Summary(Display(resolved.packages, verified.packages, pending.packages), resolved, verified, pending, states));
  }

  lemma NothingToSummarize(rs: seq<Record>)
    ensures Summarizable(rs[..0])
  {
  }

  function Sum(a: Tally, b: Tally): Tally { Tally(a.packages + b.packages, a.bytes + b.bytes) }

  /** MarkedVerified and pending split the closure, in number and in bytes. */
  lemma {:induction false} SummaryConserves(rs: seq<Record>)
    requires forall r :: r in rs ==> FlagsMatch(r)
    ensures Sum(TallyOf(rs, MarkedVerified), TallyOf(rs, MarkedPending)) == TallyOf(rs, AllRecords)
    ensures TallyOf(rs, AllRecords).packages == |rs|
  {
    hide TallyOf;
    if rs == [] {
      TallyNothing(MarkedVerified);
      TallyNothing(MarkedPending);
      TallyNothing(AllRecords);
    } else {
      var n := |rs| - 1;
      SummaryConserves(rs[..n]);
      assert FlagsMatch(rs[n]) && rs[..n + 1] == rs;
      TallyStep(rs, n, AllRecords);
      TallyStep(rs, n, MarkedVerified);
      TallyStep(rs, n, MarkedPending);
    }
  }

  /** The five states split the two flag totals. */
  lemma {:induction false} StatesConserve(rs: seq<Record>)
    requires forall r :: r in rs ==> FlagsMatch(r)
    ensures Sum(TallyOf(rs, InState(ReusedVerified)), TallyOf(rs, InState(DownloadedVerified))) == TallyOf(rs, MarkedVerified)
    ensures Sum(TallyOf(rs, InState(Pending)), Sum(TallyOf(rs, InState(CorruptRemoved)), TallyOf(rs, InState(Failed))))
      == TallyOf(rs, MarkedPending)
  {
    hide TallyOf, Added, Sum, FlagsMatch;
    if rs == [] {
      SumZero(Tally(0, 0));
      forall h ensures TallyOf(rs, h) == Tally(0, 0) { TallyNothing(h); }
    } else {
      var n := |rs| - 1;
      StatesConserve(rs[..n]);
      assert FlagsMatch(rs[n]) && rs[..n + 1] == rs;
      TallyStep(rs, n, MarkedVerified);
      TallyStep(rs, n, MarkedPending);
      TallyStep(rs, n, InState(Pending));
      TallyStep(rs, n, InState(ReusedVerified));
      TallyStep(rs, n, InState(DownloadedVerified));
      TallyStep(rs, n, InState(CorruptRemoved));
      TallyStep(rs, n, InState(Failed));
      VerifiedStatesSplit(TallyOf(rs[..n], InState(ReusedVerified)), TallyOf(rs[..n], InState(DownloadedVerified)), rs[n]);
      PendingStatesSplit(TallyOf(rs[..n], InState(Pending)), TallyOf(rs[..n], InState(CorruptRemoved)),
                         TallyOf(rs[..n], InState(Failed)), rs[n]);
    }
  }

  lemma SumZero(t: Tally)
    ensures Sum(Tally(0, 0), t) == t
  {
  }

  lemma VerifiedStatesSplit(a: Tally, b: Tally, r: Record)
    requires FlagsMatch(r)
    ensures Sum(Added(a, r, InState(ReusedVerified)), Added(b, r, InState(DownloadedVerified))) == Added(Sum(a, b), r, MarkedVerified)
  {
  }

  lemma PendingStatesSplit(a: Tally, b: Tally, c: Tally, r: Record)
    requires FlagsMatch(r)
    ensures Sum(Added(a, r, InState(Pending)), Sum(Added(b, r, InState(CorruptRemoved)), Added(c, r, InState(Failed))))
      == Added(Sum(a, Sum(b, c)), r, MarkedPending)
  {
  }

  lemma TallyNothing(h: Heading)
    ensures TallyOf([], h) == Tally(0, 0)
  {
  }

  // ---- reconciliation and attempts ----

  function ClearAttempt(r: Record): Record {
    r.(batch := None, attempt := None, mirror := None, failureClass := None)
  }

  function ReconciledRecord(r: Record, reused: set<string>, corrupt: set<string>): Record {
    var c := ClearAttempt(r);
    if r.filename in reused then c.(state := ReusedVerified, verified := true, needsAcquisition := false)
    else c.(state := if r.filename in corrupt then CorruptRemoved else Pending, verified := false, needsAcquisition := true)
  }

  function AttemptedRecord(r: Record, batch: nat, a: Attempt): Record {
    if r.filename in a.verified then
      r.(state := DownloadedVerified, verified := true, needsAcquisition := false,
         batch := Some(batch), attempt := Some(a.number), mirror := Some(a.mirror.server), failureClass := None)
    else if r.filename in a.pending then
      r.(state := if a.passed then Pending else Failed, verified := false, needsAcquisition := true,
         batch := Some(batch), attempt := Some(a.number), mirror := Some(a.mirror.server), failureClass := a.failureClass)
    else r
  }

  function Reconciled(rs: seq<Record>, reused: set<string>, corrupt: set<string>): (s: seq<Record>)
    ensures |s| == |rs|
  {
    seq(|rs|, i requires 0 <= i < |rs| => ReconciledRecord(rs[i], reused, corrupt))
  }

  function Attempted(rs: seq<Record>, batch: nat, a: Attempt): (s: seq<Record>)
    ensures |s| == |rs|
  {
    seq(|rs|, i requires 0 <= i < |rs| => AttemptedRecord(rs[i], batch, a))
  }

  /** The lists of an attempt split what it requested. */
  predicate Partitions(a: Attempt) {
    Members(a.verified) !! Members(a.pending) && Members(a.verified) + Members(a.pending) == Members(a.requested)
  }

  predicate ValidContext(batch: nat, a: Attempt) {
    && batch >= 1 && a.number >= 1 && IsHttps(a.mirror.server)
    && (if a.passed then a.pending == [] && a.failureClass.None? else a.failureClass.Some?)
  }

  /** What record_package_progress_attempt insists on before it changes the ledger. */
  predicate Acceptable(rs: seq<Record>, batch: nat, a: Attempt) {
    && a.requested != []
    && |Members(a.requested)| == |a.requested| && Members(a.requested) <= RecordNames(rs)
    && Partitions(a)
    && ValidContext(batch, a)
  }

  function LedgerText(e: LedgerError): Error { Plain(LedgerWords(e)) }

  /** What an error of the ledger says. */
  function LedgerWords(e: LedgerError): string {
    match e
    case DuplicateFilename(n) => "duplicate package filename in progress closure: " + n
    case InvalidFilename => "package progress contains an invalid or duplicate filename"
    case InconsistentFlags => "package progress has inconsistent flags"
    case NotReconcilable => "cache audit cannot be reconciled with package progress"
    case NothingRequested => "mirror attempt lacks requested package identities"
    case InvalidRequest => "mirror attempt requested invalid or duplicate package identities"
    case NotPartitioned => "mirror attempt package states do not partition the requested identities"
    case InvalidContext => "mirror attempt contains invalid progress context"
  }

  /** The first of these checks that fails. */
  function RejectionOf(rs: seq<Record>, batch: nat, a: Attempt): Option<LedgerError> {
    if a.requested == [] then Some(NothingRequested)
    else if |Members(a.requested)| != |a.requested| || !(Members(a.requested) <= RecordNames(rs)) then Some(InvalidRequest)
    else if !Partitions(a) then Some(NotPartitioned)
    else if !ValidContext(batch, a) then Some(InvalidContext)
    else None
  }

  class Ledger {
    var records: seq<Record>

    constructor (initial: seq<Record>)
      ensures records == initial
    {
      records := initial;
    }

    method Reconcile(reused: seq<string>, pending: seq<string>, corrupt: seq<string>) returns (r: Result<(), LedgerError>)
      modifies this
      ensures r.Success? <==>
        Members(reused) + Members(pending) == RecordNames(old(records)) && Members(reused) !! Members(pending)
      ensures records == if r.Success?
        then Reconciled(old(records), Members(reused), Members(corrupt) * RecordNames(old(records)))
        else old(records)
    {
      if Members(reused) + Members(pending) != RecordNames(records) || !(Members(reused) !! Members(pending)) {
        return Failure(NotReconcilable);
      }
      var corruptArchives := Members(corrupt) * RecordNames(records);
      for i := 0 to |records|
        invariant |records| == |old(records)|
        invariant forall k :: 0 <= k < i ==> records[k] == ReconciledRecord(old(records)[k], Members(reused), corruptArchives)
        invariant forall k :: i <= k < |records| ==> records[k] == old(records)[k]
      {
        records := records[i := ClearAttempt(records[i])];
        if records[i].filename in Members(reused) {
          records := records[i := records[i].(state := ReusedVerified, verified := true, needsAcquisition := false)];
        } else if records[i].filename in corruptArchives {
          records := records[i := records[i].(state := CorruptRemoved, verified := false, needsAcquisition := true)];
        } else {
          records := records[i := records[i].(state := Pending, verified := false, needsAcquisition := true)];
        }
      }
      return Success(());
    }

    method RecordAttempt(batch: nat, a: Attempt) returns (r: Result<(), LedgerError>)
      requires DistinctRecords(records)
      modifies this
      ensures r.Success? <==> Acceptable(old(records), batch, a)
      ensures RejectionOf(old(records), batch, a) == if r.Failure? then Some(r.error) else None
      ensures records == if r.Success? then Attempted(old(records), batch, a) else old(records)
    {
      if a.requested == [] { return Failure(NothingRequested); }
      var requested := Members(a.requested);
      if |requested| != |a.requested| || !(requested <= RecordNames(records)) { return Failure(InvalidRequest); }
      if !Partitions(a) { return Failure(NotPartitioned); }
      if !ValidContext(batch, a) { return Failure(InvalidContext); }
      var byFilename := IndexByFilename(records);
      RequestedIndexed(records, a);
      MarkVerified(byFilename, batch, a);
      MarkPending(byFilename, batch, a, old(records));
      MarkedAll(old(records), batch, a);
      return Success(());
    }

    method MarkVerified(byFilename: map<string, nat>, batch: nat, a: Attempt)
      requires DistinctRecords(records) && IsIndex(records, byFilename) && Members(a.verified) <= byFilename.Keys
      modifies this
      ensures records == Marked(old(records), Members(a.verified), batch, a)
    {
      MarkedNone(records, batch, a);
      for k := 0 to |a.verified|
        invariant records == Marked(old(records), Members(a.verified[..k]), batch, a)
      {
        var n := a.verified[k];
        assert n in Members(a.verified);
        var i := byFilename[n];
        assert Members(a.verified[..k + 1]) == Members(a.verified[..k]) + {n};
        MarkedStep(old(records), Members(a.verified[..k]), i, batch, a);
        records := records[i := records[i].(
          state := DownloadedVerified, verified := true, needsAcquisition := false,
          batch := Some(batch), attempt := Some(a.number), mirror := Some(a.mirror.server), failureClass := None)];
      }
      assert a.verified[..|a.verified|] == a.verified;
    }

    method MarkPending(byFilename: map<string, nat>, batch: nat, a: Attempt, ghost start: seq<Record>)
      requires DistinctRecords(start) && IsIndex(start, byFilename) && Members(a.pending) <= byFilename.Keys
      requires Members(a.verified) !! Members(a.pending)
      requires records == Marked(start, Members(a.verified), batch, a)
      modifies this
      ensures records == Marked(start, Members(a.verified) + Members(a.pending), batch, a)
    {
      for k := 0 to |a.pending|
        invariant records == Marked(start, Members(a.verified) + Members(a.pending[..k]), batch, a)
      {
        var n := a.pending[k];
        assert n in Members(a.pending);
        var i := byFilename[n];
        var done := Members(a.verified) + Members(a.pending[..k]);
        assert Members(a.verified) + Members(a.pending[..k + 1]) == done + {n};
        MarkedStep(start, done, i, batch, a);
        assert start[i].filename !in a.verified && start[i].filename in a.pending;
        records := records[i := records[i].(
          state := if a.passed then Pending else Failed, verified := false, needsAcquisition := true,
          batch := Some(batch), attempt := Some(a.number), mirror := Some(a.mirror.server), failureClass := a.failureClass)];
      }
      assert a.pending[..|a.pending|] == a.pending;
    }
  }

  /** The filename lookup table, built up record by record. */
  function IndexByFilename(rs: seq<Record>): (table: map<string, nat>)
    ensures IsIndex(rs, table)
    ensures forall i :: 0 <= i < |rs| ==> rs[i].filename in table
  {
    if rs == [] then map[]
    else
      var n := |rs| - 1;
      assert forall i :: 0 <= i < n ==> rs[..n][i] == rs[i];
      IndexByFilename(rs[..n])[rs[n].filename := n]
  }

  predicate IsIndex(rs: seq<Record>, table: map<string, nat>) {
    forall n :: n in table ==> table[n] < |rs| && rs[table[n]].filename == n
  }

  lemma RequestedIndexed(rs: seq<Record>, a: Attempt)
    requires DistinctRecords(rs) && Members(a.requested) <= RecordNames(rs) && Partitions(a)
    ensures var table := IndexByFilename(rs);
      IsIndex(rs, table) && Members(a.verified) <= table.Keys && Members(a.pending) <= table.Keys
  {
    forall n | n in RecordNames(rs) ensures n in IndexByFilename(rs) {
      var r :| r in rs && r.filename == n;
      var i :| 0 <= i < |rs| && rs[i] == r;
      assert rs[i].filename == n;
    }
  }

  lemma MarkedNone(rs: seq<Record>, batch: nat, a: Attempt)
    ensures Marked(rs, Members(a.verified[..0]), batch, a) == rs
  {
    assert Members(a.verified[..0]) == {};
  }

  /** The ledger with the attempt applied to the records named in done. */
  function Marked(rs: seq<Record>, done: set<string>, batch: nat, a: Attempt): (s: seq<Record>)
    ensures |s| == |rs|
  {
    seq(|rs|, i requires 0 <= i < |rs| => if rs[i].filename in done then AttemptedRecord(rs[i], batch, a) else rs[i])
  }

  lemma MarkedStep(rs: seq<Record>, done: set<string>, i: nat, batch: nat, a: Attempt)
    requires i < |rs| && DistinctRecords(rs)
    ensures Marked(rs, done + {rs[i].filename}, batch, a) == Marked(rs, done, batch, a)[i := AttemptedRecord(rs[i], batch, a)]
  {
    var l, m := Marked(rs, done + {rs[i].filename}, batch, a), Marked(rs, done, batch, a)[i := AttemptedRecord(rs[i], batch, a)];
    forall k | 0 <= k < |rs| ensures l[k] == m[k] {
      assert k != i ==> rs[k].filename != rs[i].filename;
    }
  }

  lemma MarkedAll(rs: seq<Record>, batch: nat, a: Attempt)
    ensures Marked(rs, Members(a.verified) + Members(a.pending), batch, a) == Attempted(rs, batch, a)
  {
    forall i | 0 <= i < |rs|
      ensures Marked(rs, Members(a.verified) + Members(a.pending), batch, a)[i] == Attempted(rs, batch, a)[i]
    {
    }
  }

  // ---- every reachable ledger ----

  datatype Event =
    | AuditEvent(reused: seq<string>, pending: seq<string>, corrupt: seq<string>)
    | AttemptEvent(batch: nat, attempt: Attempt)

  /** The ledger after one call; a refused call changes nothing. */
  function Next(rs: seq<Record>, e: Event): seq<Record> {
    match e
    case AuditEvent(reused, pending, corrupt) =>
      if Members(reused) + Members(pending) == RecordNames(rs) && Members(reused) !! Members(pending)
      then Reconciled(rs, Members(reused), Members(corrupt) * RecordNames(rs)) else rs
    case AttemptEvent(batch, a) => if Acceptable(rs, batch, a) then Attempted(rs, batch, a) else rs
  }

  function Run(rs: seq<Record>, events: seq<Event>): seq<Record> {
    if events == [] then rs else Next(Run(rs, events[..|events| - 1]), events[|events| - 1])
  }

  /** Identities in place, flags and acquisition data fitting the state of every record. */
  ghost predicate Healthy(rs: seq<Record>) {
    DistinctRecords(rs) && forall r :: r in rs ==> FlagsMatch(r) && DataMatches(r)
  }

  /** Same packages in the same places. */
  ghost predicate SameClosure(a: seq<Record>, b: seq<Record>) {
    |a| == |b| && forall i :: 0 <= i < |a| ==> SameRecordIdentity(a[i], b[i])
  }

  predicate SameRecordIdentity(r: Record, q: Record) {
    r.repository == q.repository && r.name == q.name && r.version == q.version
    && r.filename == q.filename && r.sizeBytes == q.sizeBytes
  }

  lemma NextHealthy(rs: seq<Record>, e: Event)
    requires Healthy(rs)
    ensures Healthy(Next(rs, e)) && SameClosure(rs, Next(rs, e))
  {
    var s := Next(rs, e);
    forall i | 0 <= i < |s| ensures FlagsMatch(s[i]) && DataMatches(s[i]) && SameRecordIdentity(rs[i], s[i]) {
      assert rs[i] in rs;
      if e.AttemptEvent? && rs[i].filename in e.attempt.verified { assert rs[i].filename in Members(e.attempt.verified); }
    }
  }

  /** After any calls in any order every record is healthy, the identities are those of the start,
      and the totals never fall out of step. */
  lemma {:induction false} EveryRunIsHealthy(start: seq<Record>, events: seq<Event>)
    requires Healthy(start)
    ensures Healthy(Run(start, events)) && SameClosure(start, Run(start, events))
    ensures TallyOf(Run(start, events), AllRecords).packages == |start|
    ensures Sum(TallyOf(Run(start, events), MarkedVerified), TallyOf(Run(start, events), MarkedPending))
      == TallyOf(Run(start, events), AllRecords)
    ensures Sum(TallyOf(Run(start, events), InState(ReusedVerified)), TallyOf(Run(start, events), InState(DownloadedVerified)))
      == TallyOf(Run(start, events), MarkedVerified)
  {
    hide TallyOf, FlagsMatch, DataMatches;
    if events == [] {
    } else {
      EveryRunIsHealthy(start, events[..|events| - 1]);
      NextHealthy(Run(start, events[..|events| - 1]), events[|events| - 1]);
    }
    SummaryConserves(Run(start, events));
    StatesConserve(Run(start, events));
  }

  /** The summary of a reachable ledger never raises. */
  lemma EveryRunIsSummarizable(start: seq<Record>, events: seq<Event>)
    requires Healthy(start) && forall r :: r in start ==> r.filename != ""
    ensures Summarizable(Run(start, events))
  {
    EveryRunIsHealthy(start, events);
    forall r | r in Run(start, events) ensures r.filename != "" {
      var i :| 0 <= i < |start| && Run(start, events)[i] == r;
      assert start[i] in start;
    }
  }
}
