/** The credential daemon as interleaved requests.  The store mutex is held for one step at a time, so
    between any two steps of a request other requests may act; every run of such steps is safe. */
module CredentialRequests {
  import opened Results
  import opened CredentialStore

  datatype PolicyEffect = Reject | Prompt | Allow

  datatype Code =
    | PermissionDenied | ApprovalRequired | CredentialNotFound | CredentialRevoked | InvalidRequest | StoreUnavailable
    | DefinitionInvalid | OperationNotAllowed | RequestTooLarge | RedirectRejected | ResponseTooLarge | UpstreamFailed

  /** A provider definition: bounds, and its operations with whether they stream. */
  datatype Definition = Definition(maxRequest: nat, maxResponse: nat, operations: map<string, bool>)

  datatype Response = Response(status: nat, bytes: nat, isJson: bool)

  /** Policy, definitions, audit sink, upstream and clock: any behaviour.  The policy is loaded anew for every
      question, so its n-th answer may differ from an earlier one. */
  datatype Service = Service(
    policy: (nat, nat, string, string) -> Result<PolicyEffect, Code>,
    definitions: map<string, Definition>,
    accepts: nat -> bool,                    // whether the sink takes the n-th audit record
    upstream: nat -> Result<Response, Code>,
    clock: nat -> string)

  datatype AdminAction = Mutate(change: Change) | ShowOne(reference: string) | ListAll

  datatype Request =
    | Use(uid: nat, reference: string, operation: string, payloadBytes: nat)
    | Admin(uid: nat, action: AdminAction)

  /** Where a request stands. */
  datatype Stage =
    | Arrived
    | Permitted                                   // the policy allowed it
    | Known(provider: string)                     // the credential was shown
    | Cleared(definition: Definition)             // the preflight record of a use request was taken
    | Loaded(definition: Definition, secret: string)
    | Prepared                                    // the preflight record of a mutation was taken
    | Finishing(result: Result<(), Code>)
    | Finished(result: Result<(), Code>)

  datatype Thread = Thread(request: Request, stage: Stage)

  datatype Event =
    | Decided(id: nat, effect: Result<PolicyEffect, Code>)
    | Preflight(id: nat, ok: bool)
    | SecretLoaded(id: nat, reference: string, secret: string)
    | Called(id: nat, reference: string, operation: string, secret: string, definition: Definition)
    | Committed(id: nat, change: Change)
    | Outcome(id: nat, ok: bool)

  datatype State = State(
    rows: Rows, history: seq<Change>, threads: map<nat, Thread>, trace: seq<Event>, failures: nat, records: nat, calls: nat,
    asked: nat)

  /** One step of a request: its new stage, what is observed, and the table. */
  datatype Move = Move(stage: Stage, event: Option<Event>, rows: Rows, history: seq<Change>)

  function StoreCode(e: StoreError): Code {
    match e
    case NotFound => CredentialNotFound
    case RevokedCredential => CredentialRevoked
    case Invalid => InvalidRequest
    case Sql => StoreUnavailable
  }

  function Stay(s: State, stage: Stage, event: Option<Event>): Move { Move(stage, event, s.rows, s.history) }

  function Stop(s: State, code: Code): Move { Stay(s, Finishing(Failure(code)), None) }

  // ---- use requests ----

  function Decide(w: Service, s: State, id: nat, q: Request): Move
    requires q.Use?
  {
    var effect := w.policy(s.asked, q.uid, q.reference, q.operation);
    var stage := match effect
      case Success(Allow) => Permitted
      case Success(Reject) => Finishing(Failure(PermissionDenied))
      case Success(Prompt) => Finishing(Failure(ApprovalRequired))
      case Failure(code) => Finishing(Failure(code));
    Stay(s, stage, Some(Decided(id, effect)))
  }

  function Look(s: State, q: Request): Move
    requires q.Use?
  {
    match Shown(s.rows, q.reference)
    case Failure(e) => Stop(s, StoreCode(e))
    case Success(m) => Stay(s, Known(m.provider), None)
  }

  /** The checks on the definition, then the preflight record. */
  function Clear(w: Service, s: State, id: nat, q: Request, provider: string): Move
    requires q.Use?
  {
    if provider !in w.definitions then Stop(s, DefinitionInvalid)
    else
      var d := w.definitions[provider];
      if q.operation !in d.operations then Stop(s, OperationNotAllowed)
      else if q.payloadBytes > d.maxRequest then Stop(s, RequestTooLarge)
      else if d.operations[q.operation] then Stop(s, OperationNotAllowed)
      else RecordPreflight(w, s, id, Cleared(d))
  }

  function RecordPreflight(w: Service, s: State, id: nat, next: Stage): Move {
    var ok := w.accepts(s.records);
    Stay(s, if ok then next else Finishing(Failure(StoreUnavailable)), Some(Preflight(id, ok)))
  }

  function Load(s: State, id: nat, q: Request, d: Definition): Move
    requires q.Use?
  {
    match SecretOf(s.rows, q.reference)
    case Failure(e) => Stop(s, StoreCode(e))
    case Success(secret) => Stay(s, Loaded(d, secret), Some(SecretLoaded(id, q.reference, secret)))
  }

  /** What an upstream answer amounts to. */
  function Classified(d: Definition, answer: Result<Response, Code>): Result<(), Code> {
    match answer
    case Failure(code) => Failure(code)
    case Success(r) =>
      if 300 <= r.status < 400 then Failure(RedirectRejected)
      else if r.bytes > d.maxResponse then Failure(ResponseTooLarge)
      else if !(200 <= r.status < 300) then Failure(UpstreamFailed)
      else if !r.isJson then Failure(UpstreamFailed)
      else Success(())
  }

  function Call(w: Service, s: State, id: nat, q: Request, d: Definition, secret: string): Move
    requires q.Use?
  {
    Stay(s, Finishing(Classified(d, w.upstream(s.calls))), Some(Called(id, q.reference, q.operation, secret, d)))
  }

  // ---- admin requests ----

  function StartAdmin(w: Service, s: State, id: nat, q: Request): Move
    requires q.Admin?
  {
    if q.uid != 0 then Stop(s, PermissionDenied)
    else
      match q.action
      case ListAll => Stay(s, Finishing(Success(())), None)
      case ShowOne(ref) =>
        (match Shown(s.rows, ref)
         case Failure(e) => Stop(s, StoreCode(e))
         case Success(_) => Stay(s, Finishing(Success(())), None))
      case Mutate(c) =>
        if c.Provision? && c.provider !in w.definitions then Stop(s, DefinitionInvalid)
        else RecordPreflight(w, s, id, Prepared)
  }

  /** Commit, then read the row back, under one lock. */
  function CommitChange(w: Service, s: State, id: nat, c: Change): Move {
    match Changed(s.rows, c, w.clock(|s.trace|))
    case Failure(e) => Stop(s, StoreCode(e))
    case Success(rows) =>
      var result: Result<(), Code> :=
        if c.Delete? then Success(())
        else match Shown(rows, c.reference) case Success(_) => Success(()) case Failure(e) => Failure(StoreCode(e));
      Move(Finishing(result), Some(Committed(id, c)), rows, s.history + [c])
  }

  // ---- one step of one request ----

  /** The outcome record; a refused one is only counted. */
  function RecordOutcome(w: Service, s: State, id: nat, r: Result<(), Code>): Move {
    Stay(s, Finished(r), Some(Outcome(id, w.accepts(s.records))))
  }

  function StepOf(w: Service, s: State, id: nat): Move
    requires id in s.threads
  {
    var q := s.threads[id].request;
    match s.threads[id].stage
    case Arrived => if q.Use? then Decide(w, s, id, q) else StartAdmin(w, s, id, q)
    case Permitted => if q.Use? then Look(s, q) else Stop(s, InvalidRequest)
    case Known(provider) => if q.Use? then Clear(w, s, id, q, provider) else Stop(s, InvalidRequest)
    case Cleared(d) => if q.Use? then Load(s, id, q, d) else Stop(s, InvalidRequest)
    case Loaded(d, secret) => if q.Use? then Call(w, s, id, q, d, secret) else Stop(s, InvalidRequest)
    case Prepared => if q.Admin? && q.action.Mutate? then CommitChange(w, s, id, q.action.change) else Stop(s, InvalidRequest)
    case Finishing(r) => RecordOutcome(w, s, id, r)
    case Finished(r) => Stay(s, Finished(r), None)
  }

  function Take(s: State, id: nat, m: Move): State
    requires id in s.threads
  {
    State(m.rows, m.history, s.threads[id := s.threads[id].(stage := m.stage)],
          if m.event.Some? then s.trace + [m.event.value] else s.trace,
          s.failures + (if m.event.Some? && m.event.value.Outcome? && !m.event.value.ok then 1 else 0),
          s.records + (if m.event.Some? && (m.event.value.Outcome? || m.event.value.Preflight?) then 1 else 0),
          s.calls + (if m.event.Some? && m.event.value.Called? then 1 else 0),
          s.asked + (if m.event.Some? && m.event.value.Decided? then 1 else 0))
  }

  /** A request that came through validation, or one more step of a request. */
  datatype Action = Arrive(id: nat, request: Request) | Go(id: nat)

  function Next(w: Service, s: State, a: Action): State {
    match a
    case Arrive(id, q) => if id in s.threads then s else s.(threads := s.threads[id := Thread(q, Arrived)])
    case Go(id) => if id in s.threads then Take(s, id, StepOf(w, s, id)) else s
  }

  function Start(): State { State(map[], [], map[], [], 0, 0, 0, 0) }

  function Run(w: Service, actions: seq<Action>): State {
    if actions == [] then Start() else Next(w, Run(w, actions[..|actions| - 1]), actions[|actions| - 1])
  }

  // ---- what every run keeps ----

  /** The changes observed, in order. */
  function Commits(trace: seq<Event>): seq<Change> {
    if trace == [] then []
    else Commits(trace[..|trace| - 1]) + if trace[|trace| - 1].Committed? then [trace[|trace| - 1].change] else []
  }

  /** The reference is active with this secret, by the changes of h. */
  ghost predicate Current(h: seq<Change>, ref: string, secret: string) {
    Account(h, ref).Some? && Account(h, ref).value.active && Account(h, ref).value.secret == secret
  }

  /** The policy allowed the request, and after that its preflight record was taken. */
  ghost predicate ClearedIn(trace: seq<Event>, id: nat) {
    exists i, k :: 0 <= i < k < |trace| && trace[i] == Decided(id, Success(Allow)) && trace[k] == Preflight(id, true)
  }

  /** After that its secret was loaded, the current one of its reference at that moment. */
  ghost predicate LoadedIn(trace: seq<Event>, id: nat, ref: string, secret: string) {
    exists l :: 0 <= l < |trace| && trace[l] == SecretLoaded(id, ref, secret)
      && ClearedIn(trace[..l], id) && Current(Commits(trace[..l]), ref, secret)
  }

  /** What must have been observed before an event. */
  ghost predicate Justified(before: seq<Event>, e: Event) {
    match e
    case SecretLoaded(id, ref, secret) => ClearedIn(before, id) && Current(Commits(before), ref, secret)
    case Called(id, ref, operation, secret, _) =>
      LoadedIn(before, id, ref, secret) && forall x :: x in before && x.Called? ==> x.id != id
    case Committed(id, c) =>
      Preflight(id, true) in before && forall x :: x in before && x.Committed? ==> x.id != id
    case _ => true
  }

  ghost predicate SafeTrace(trace: seq<Event>) { forall j :: 0 <= j < |trace| ==> Justified(trace[..j], trace[j]) }

  function Refused(trace: seq<Event>): nat {
    if trace == [] then 0
    else Refused(trace[..|trace| - 1]) + if trace[|trace| - 1].Outcome? && !trace[|trace| - 1].ok then 1 else 0
  }

  ghost predicate NoneOf(trace: seq<Event>, id: nat) {
    forall x :: x in trace && (x.Called? || x.Committed?) ==> x.id != id
  }

  /** The stage of a request agrees with what was observed of it. */
  ghost predicate StageTraced(trace: seq<Event>, id: nat, t: Thread) {
    match t.stage
    case Arrived => NoneOf(trace, id)
    case Permitted => NoneOf(trace, id) && t.request.Use? && Decided(id, Success(Allow)) in trace
    case Known(_) => NoneOf(trace, id) && t.request.Use? && Decided(id, Success(Allow)) in trace
    case Cleared(_) => NoneOf(trace, id) && t.request.Use? && ClearedIn(trace, id)
    case Loaded(_, secret) => NoneOf(trace, id) && t.request.Use? && LoadedIn(trace, id, t.request.reference, secret)
    case Prepared =>
      NoneOf(trace, id) && t.request.Admin? && t.request.uid == 0 && t.request.action.Mutate? && Preflight(id, true) in trace
    case Finishing(r) => r.Failure? && t.request.Admin? ==> NoneOf(trace, id)
    case Finished(r) => r.Failure? && t.request.Admin? ==> NoneOf(trace, id)
  }

  /** Calls belong to use requests, changes to the mutations of uid 0. */
  ghost predicate Attributed(trace: seq<Event>, threads: map<nat, Thread>) {
    forall e :: e in trace ==> e.id in threads && Belongs(e, threads[e.id].request)
  }

  predicate Belongs(e: Event, q: Request) {
    match e
    case Called(_, ref, operation, _, _) => q.Use? && q.reference == ref && q.operation == operation
    case Committed(_, c) => q.Admin? && q.uid == 0 && q.action == Mutate(c)
    case _ => true
  }

  ghost predicate AllTraced(s: State) { forall id :: id in s.threads ==> StageTraced(s.trace, id, s.threads[id]) }

  ghost predicate Kept(s: State) {
    && WellKept(s.rows) && Tells(s.rows, s.history)
    && SafeTrace(s.trace) && AllTraced(s) && Attributed(s.trace, s.threads)
    && Commits(s.trace) == s.history && Refused(s.trace) == s.failures
  }

  // ---- one step ----

  lemma MoveStore(w: Service, s: State, id: nat)
    requires id in s.threads && WellKept(s.rows) && Tells(s.rows, s.history)
    ensures var m := StepOf(w, s, id);
      && WellKept(m.rows) && Tells(m.rows, m.history)
      && m.history == s.history + (if m.event.Some? && m.event.value.Committed? then [m.event.value.change] else [])
  {
    hide WellKept, Tells, Changed, Shown, SecretOf, Account;
    var m, q := StepOf(w, s, id), s.threads[id].request;
    if m.event.Some? && m.event.value.Committed? {
      ChangeKeeps(s.rows, s.history, q.action.change, w.clock(|s.trace|));
    } else {
      assert s.history + [] == s.history;
    }
  }

  lemma SecretIsCurrent(rows: Rows, h: seq<Change>, ref: string)
    requires Tells(rows, h) && SecretOf(rows, ref).Success?
    ensures Current(h, ref, SecretOf(rows, ref).value)
  {
    hide Account;
  }

  lemma MoveJustified(w: Service, s: State, id: nat)
    requires id in s.threads && StageTraced(s.trace, id, s.threads[id]) && Tells(s.rows, s.history) && Commits(s.trace) == s.history
    ensures var m := StepOf(w, s, id);
      m.event.Some? ==> m.event.value.id == id && Justified(s.trace, m.event.value) && Belongs(m.event.value, s.threads[id].request)
  {
    hide Changed, Shown, SecretOf, Account, Tells, Current, ClearedIn, LoadedIn, Commits;
    if s.threads[id].request.Use? && SecretOf(s.rows, s.threads[id].request.reference).Success? {
      SecretIsCurrent(s.rows, s.history, s.threads[id].request.reference);
    }
  }

  lemma MutationShown(rows: Rows, c: Change, now: string)
    requires WellKept(rows) && Changed(rows, c, now).Success? && !c.Delete?
    ensures Shown(Changed(rows, c, now).value, c.reference).Success?
  {
    ChangeWellKept(rows, c, now);
  }

  /** A failing admin request has committed nothing: the read-back after a commit cannot fail. */
  lemma CommitStaged(w: Service, s: State, id: nat, c: Change)
    requires WellKept(s.rows)
    ensures var m := CommitChange(w, s, id, c);
      m.stage.Finishing? && (m.stage.result.Success? <==> m.event.Some?)
  {
    hide WellKept, Changed, Shown;
    if Changed(s.rows, c, w.clock(|s.trace|)).Success? && !c.Delete? { MutationShown(s.rows, c, w.clock(|s.trace|)); }
  }

  lemma NoneOfAppend(trace: seq<Event>, id: nat, e: Event)
    requires NoneOf(trace, id) && (e.id != id || (!e.Called? && !e.Committed?))
    ensures NoneOf(trace + [e], id)
  {
  }

  lemma ClearedLater(trace: seq<Event>, e: Event, id: nat)
    ensures ClearedIn(trace, id) ==> ClearedIn(trace + [e], id)
    ensures Decided(id, Success(Allow)) in trace && e == Preflight(id, true) ==> ClearedIn(trace + [e], id)
  {
    var all := trace + [e];
    assert forall k :: 0 <= k < |trace| ==> all[k] == trace[k];
    assert all[|trace|] == e;
    if ClearedIn(trace, id) {
      var i, k :| 0 <= i < k < |trace| && trace[i] == Decided(id, Success(Allow)) && trace[k] == Preflight(id, true);
      assert all[i] == trace[i] && all[k] == trace[k];
    }
    if Decided(id, Success(Allow)) in trace && e == Preflight(id, true) {
      var i :| 0 <= i < |trace| && trace[i] == Decided(id, Success(Allow));
      assert all[i] == trace[i];
    }
  }

  lemma LoadedLater(trace: seq<Event>, e: Event, id: nat, ref: string, secret: string)
    ensures LoadedIn(trace, id, ref, secret) ==> LoadedIn(trace + [e], id, ref, secret)
    ensures e == SecretLoaded(id, ref, secret) && Justified(trace, e) ==> LoadedIn(trace + [e], id, ref, secret)
  {
    hide ClearedIn, Current, Commits;
    var all := trace + [e];
    assert all[..|trace|] == trace && all[|trace|] == e;
    if LoadedIn(trace, id, ref, secret) {
      var l :| 0 <= l < |trace| && trace[l] == SecretLoaded(id, ref, secret)
        && ClearedIn(trace[..l], id) && Current(Commits(trace[..l]), ref, secret);
      assert all[..l] == trace[..l] && all[l] == trace[l];
    }
  }

  lemma MoveStaged(w: Service, s: State, id: nat)
    requires id in s.threads && StageTraced(s.trace, id, s.threads[id]) && WellKept(s.rows)
    requires Tells(s.rows, s.history) && Commits(s.trace) == s.history
    ensures var t := Take(s, id, StepOf(w, s, id)); StageTraced(t.trace, id, t.threads[id])
  {
    hide Changed, Shown, SecretOf, Account, WellKept, NoneOf, ClearedIn, LoadedIn, Tells, Justified, Commits;
    var m, q := StepOf(w, s, id), s.threads[id].request;
    if s.threads[id].stage.Prepared? { CommitStaged(w, s, id, q.action.change); }
    if m.event.Some? && NoneOf(s.trace, id) && !m.event.value.Called? && !m.event.value.Committed? {
      MoveJustified(w, s, id);
      NoneOfAppend(s.trace, id, m.event.value);
      ClearedLater(s.trace, m.event.value, id);
      if m.event.value.SecretLoaded? { LoadedLater(s.trace, m.event.value, id, q.reference, m.event.value.secret); }
    }
  }

  lemma OtherStaged(trace: seq<Event>, e: Event, other: nat, t: Thread)
    requires StageTraced(trace, other, t) && e.id != other
    ensures StageTraced(trace + [e], other, t)
  {
    hide NoneOf, ClearedIn, LoadedIn;
    if NoneOf(trace, other) { NoneOfAppend(trace, other, e); }
    ClearedLater(trace, e, other);
    if t.stage.Loaded? { LoadedLater(trace, e, other, t.request.reference, t.stage.secret); }
  }

  lemma SafeAppend(trace: seq<Event>, e: Event)
    requires SafeTrace(trace) && Justified(trace, e)
    ensures SafeTrace(trace + [e])
  {
    hide Justified;
    var all := trace + [e];
    forall j | 0 <= j < |all| ensures Justified(all[..j], all[j]) {
      if j < |trace| { assert all[..j] == trace[..j]; } else { assert all[..j] == trace; }
    }
  }

  lemma CommitsAppend(trace: seq<Event>, e: Event)
    ensures Commits(trace + [e]) == Commits(trace) + if e.Committed? then [e.change] else []
    ensures Refused(trace + [e]) == Refused(trace) + if e.Outcome? && !e.ok then 1 else 0
  {
    assert (trace + [e])[..|trace|] == trace;
  }

  lemma OthersStaged(w: Service, s: State, id: nat)
    requires id in s.threads && AllTraced(s) && WellKept(s.rows) && Tells(s.rows, s.history) && Commits(s.trace) == s.history
    ensures AllTraced(Take(s, id, StepOf(w, s, id)))
  {
    hide StageTraced, StepOf, WellKept, Tells, Commits, Justified, Belongs;
    var m := StepOf(w, s, id);
    var t := Take(s, id, m);
    MoveStaged(w, s, id);
    forall other | other in t.threads ensures StageTraced(t.trace, other, t.threads[other]) {
      if other != id && m.event.Some? {
        MoveJustified(w, s, id);
        OtherStaged(s.trace, m.event.value, other, s.threads[other]);
      }
    }
  }

  lemma MoveAttributed(w: Service, s: State, id: nat)
    requires id in s.threads && StageTraced(s.trace, id, s.threads[id]) && Attributed(s.trace, s.threads)
    requires Tells(s.rows, s.history) && Commits(s.trace) == s.history
    ensures var t := Take(s, id, StepOf(w, s, id)); Attributed(t.trace, t.threads)
  {
    hide StageTraced, StepOf, Belongs, Justified, Tells, Commits;
    MoveJustified(w, s, id);
  }

  lemma GoKeeps(w: Service, s: State, id: nat)
    requires id in s.threads && Kept(s)
    ensures Kept(Take(s, id, StepOf(w, s, id)))
  {
    hide StageTraced, StepOf, WellKept, Tells, SafeTrace, AllTraced, Attributed, Commits, Refused, Justified;
    var m := StepOf(w, s, id);
    assert StageTraced(s.trace, id, s.threads[id]) by { TracedAt(s, id); }
    MoveStore(w, s, id);
    MoveJustified(w, s, id);
    MoveAttributed(w, s, id);
    OthersStaged(w, s, id);
    if m.event.Some? {
      var e := m.event.value;
      var more := if e.Committed? then [e.change] else [];
      SafeAppend(s.trace, e);
      CommitsAppend(s.trace, e);
    } else {
      assert s.history + [] == s.history;
    }
  }

  lemma TracedAt(s: State, id: nat)
    requires AllTraced(s) && id in s.threads
    ensures StageTraced(s.trace, id, s.threads[id])
  {
  }

  lemma ArriveKeeps(s: State, id: nat, q: Request)
    requires Kept(s) && id !in s.threads
    ensures Kept(s.(threads := s.threads[id := Thread(q, Arrived)]))
  {
    hide WellKept, Tells, SafeTrace, Commits, Refused, Belongs;
  }

  /** Every run of every service, however requests interleave. */
  lemma {:induction false} EveryRunIsKept(w: Service, actions: seq<Action>)
    ensures Kept(Run(w, actions))
  {
    hide Kept, StepOf, Take;
    if actions == [] {
      NothingKept();
    } else {
      var n := |actions| - 1;
      EveryRunIsKept(w, actions[..n]);
      var s := Run(w, actions[..n]);
      match actions[n] {
        case Arrive(id, q) => if id !in s.threads { ArriveKeeps(s, id, q); }
        case Go(id) => if id in s.threads { GoKeeps(w, s, id); }
      }
    }
  }

  lemma NothingKept()
    ensures Kept(Start())
  {
  }

  // ---- what follows for every run ----

  /** Before event j, in this order: an Allow decision, an accepted preflight record, and the load of the
      secret, which was the current one by the changes committed before that load. */
  ghost predicate InSequence(trace: seq<Event>, j: nat, id: nat, ref: string, secret: string)
    requires j <= |trace|
  {
    exists i, k, l :: 0 <= i < k < l < j && trace[i] == Decided(id, Success(Allow)) && trace[k] == Preflight(id, true)
      && trace[l] == SecretLoaded(id, ref, secret) && Current(Commits(trace[..l]), ref, secret)
  }

  /** A request calls upstream at most once.  Before the call, in this order: the policy allowed it, its own
      preflight record was taken, and its secret was loaded, which by the changes committed up to the
      load was the current one of an active credential. */
  lemma CallsAreCleared(w: Service, actions: seq<Action>, j: nat)
    requires var s := Run(w, actions); j < |s.trace| && s.trace[j].Called?
    ensures var s := Run(w, actions);
      var e := s.trace[j];
      && (forall i :: 0 <= i < |s.trace| && i != j && s.trace[i].Called? ==> s.trace[i].id != e.id)
      && InSequence(s.trace, j, e.id, e.reference, e.secret)
  {
    hide Run, WellKept, Tells, AllTraced, Attributed, Commits, Refused, Current, InSequence;
    EveryRunIsKept(w, actions);
    var s := Run(w, actions);
    var e := s.trace[j];
    assert Justified(s.trace[..j], e);
    LoadedInOrder(s.trace, j, e.id, e.reference, e.secret);
    forall i | 0 <= i < |s.trace| && i != j && s.trace[i].Called? ensures s.trace[i].id != e.id {
      if i < j { assert s.trace[i] in s.trace[..j]; } else {
        assert Justified(s.trace[..i], s.trace[i]);
        assert s.trace[j] in s.trace[..i];
      }
    }
  }

  lemma LoadedInOrder(trace: seq<Event>, j: nat, id: nat, ref: string, secret: string)
    requires j <= |trace| && LoadedIn(trace[..j], id, ref, secret)
    ensures InSequence(trace, j, id, ref, secret)
  {
    hide Current, Commits;
    var before := trace[..j];
    var l :| 0 <= l < j && before[l] == SecretLoaded(id, ref, secret)
      && ClearedIn(before[..l], id) && Current(Commits(before[..l]), ref, secret);
    assert before[..l] == trace[..l];
    var i, k :| 0 <= i < k < l && before[..l][i] == Decided(id, Success(Allow)) && before[..l][k] == Preflight(id, true);
    assert trace[i] == before[..l][i] && trace[k] == before[..l][k] && trace[l] == before[l];
  }

  /** Only mutations asked for by uid 0, after a preflight record of their own, change the table. */
  lemma ChangesAreAuthorized(w: Service, actions: seq<Action>, j: nat)
    requires var s := Run(w, actions); j < |s.trace| && s.trace[j].Committed?
    ensures var s := Run(w, actions);
      var e := s.trace[j];
      && Preflight(e.id, true) in s.trace[..j]
      && e.id in s.threads && s.threads[e.id].request == Admin(0, Mutate(e.change))
  {
    hide Run, WellKept, Tells, AllTraced, Commits, Refused;
    EveryRunIsKept(w, actions);
    var s := Run(w, actions);
    assert Justified(s.trace[..j], s.trace[j]);
    assert s.trace[j] in s.trace;
  }

  /** An admin request that ends in an error changed nothing. */
  lemma FailedAdminChangedNothing(w: Service, actions: seq<Action>, id: nat)
    requires var s := Run(w, actions);
      id in s.threads && s.threads[id].request.Admin? && s.threads[id].stage.Finished? && s.threads[id].stage.result.Failure?
    ensures forall e :: e in Run(w, actions).trace && e.Committed? ==> e.id != id
  {
    hide Run, WellKept, Tells, Commits, Refused, SafeTrace, Attributed;
    EveryRunIsKept(w, actions);
    TracedAt(Run(w, actions), id);
  }

  lemma PreflightRefused(w: Service, s: State, id: nat, other: nat)
    requires (forall n :: !w.accepts(n)) && id in s.threads
    ensures StepOf(w, s, id).event != Some(Preflight(other, true))
  {
    hide Changed, Shown, SecretOf;
  }

  /** A preflight that was taken means the sink took a record. */
  lemma {:induction false} PreflightNeedsSink(w: Service, actions: seq<Action>, id: nat)
    requires forall n :: !w.accepts(n)
    ensures Preflight(id, true) !in Run(w, actions).trace
  {
    hide StepOf;
    if actions != [] {
      var n := |actions| - 1;
      var s := Run(w, actions[..n]);
      PreflightNeedsSink(w, actions[..n], id);
      if actions[n].Go? && actions[n].id in s.threads { PreflightRefused(w, s, actions[n].id, id); }
    }
  }

  /** With a sink that refuses every record there is no upstream call and no change, ever. */
  lemma FailingSinkStopsEverything(w: Service, actions: seq<Action>)
    requires forall n :: !w.accepts(n)
    ensures var s := Run(w, actions);
      && (forall e :: e in s.trace ==> !e.Called? && !e.Committed?)
      && s.history == [] && s.rows == map[]
  {
    hide Run, WellKept, AllTraced, Attributed, Refused, Current, LoadedIn;
    EveryRunIsKept(w, actions);
    var s := Run(w, actions);
    forall e | e in s.trace ensures !e.Called? && !e.Committed? {
      var j :| 0 <= j < |s.trace| && s.trace[j] == e;
      PreflightNeedsSink(w, actions, e.id);
      assert Justified(s.trace[..j], e);
      if e.Called? {
        LoadedInOrder(s.trace, j, e.id, e.reference, e.secret);
      }
    }
    NoCommits(s.trace);
    NothingTold(s.rows);
  }

  lemma {:induction false} NoCommits(trace: seq<Event>)
    requires forall e :: e in trace ==> !e.Committed?
    ensures Commits(trace) == []
  {
    if trace != [] { NoCommits(trace[..|trace| - 1]); }
  }

  lemma NothingTold(rows: Rows)
    requires Tells(rows, [])
    ensures rows == map[]
  {
    assert forall ref :: ref !in rows;
  }

  // ---- what a use request reports ----

  function CallsOf(trace: seq<Event>): nat {
    if trace == [] then 0 else CallsOf(trace[..|trace| - 1]) + if trace[|trace| - 1].Called? then 1 else 0
  }

  /** The definition belongs to the service and admits the request. */
  predicate Admits(w: Service, d: Definition, q: Request)
    requires q.Use?
  {
    d in w.definitions.Values && q.operation in d.operations && !d.operations[q.operation] && q.payloadBytes <= d.maxRequest
  }

  /** A JSON answer with a 2xx status within the bound. */
  predicate GoodAnswer(d: Definition, answer: Result<Response, Code>) {
    answer.Success? && 200 <= answer.value.status < 300 && answer.value.bytes <= d.maxResponse && answer.value.isJson
  }

  /** The request called upstream under a definition that admits it, and the answer to that call was good. */
  ghost predicate WellAnswered(w: Service, trace: seq<Event>, id: nat, q: Request)
    requires q.Use?
  {
    exists j :: 0 <= j < |trace| && trace[j].Called? && trace[j].id == id
      && Admits(w, trace[j].definition, q) && GoodAnswer(trace[j].definition, w.upstream(CallsOf(trace[..j])))
  }

  /** A use request past its call has the result its answer calls for; one before it has an admitting definition. */
  ghost predicate UseInStep(w: Service, trace: seq<Event>, id: nat, t: Thread)
    requires t.request.Use?
  {
    match t.stage
    case Cleared(d) => Admits(w, d, t.request)
    case Loaded(d, _) => Admits(w, d, t.request)
    case Finishing(r) => r.Success? <==> WellAnswered(w, trace, id, t.request)
    case Finished(r) => r.Success? <==> WellAnswered(w, trace, id, t.request)
    case _ => true
  }

  ghost predicate Answering(w: Service, s: State) {
    && s.calls == CallsOf(s.trace)
    && forall id :: id in s.threads && s.threads[id].request.Use? ==> UseInStep(w, s.trace, id, s.threads[id])
  }

  lemma CallsAppend(trace: seq<Event>, e: Event)
    ensures CallsOf(trace + [e]) == CallsOf(trace) + if e.Called? then 1 else 0
  {
    assert (trace + [e])[..|trace|] == trace;
  }

  lemma AnsweredLater(w: Service, trace: seq<Event>, e: Event, id: nat, q: Request)
    requires q.Use? && (e.Called? ==> e.id != id)
    ensures WellAnswered(w, trace + [e], id, q) <==> WellAnswered(w, trace, id, q)
  {
    hide Admits, GoodAnswer, CallsOf;
    var all := trace + [e];
    assert forall j :: 0 <= j < |trace| ==> all[..j] == trace[..j] && all[j] == trace[j];
    if WellAnswered(w, trace, id, q) {
      var j :| 0 <= j < |trace| && trace[j].Called? && trace[j].id == id
        && Admits(w, trace[j].definition, q) && GoodAnswer(trace[j].definition, w.upstream(CallsOf(trace[..j])));
      assert all[j] == trace[j] && all[..j] == trace[..j];
    }
  }

  lemma AnsweredNow(w: Service, trace: seq<Event>, e: Event, id: nat, q: Request)
    requires q.Use? && e.Called? && e.id == id && NoneOf(trace, id) && Admits(w, e.definition, q)
    ensures WellAnswered(w, trace + [e], id, q) <==> GoodAnswer(e.definition, w.upstream(CallsOf(trace)))
  {
    hide Admits, GoodAnswer, CallsOf;
    var all := trace + [e];
    assert all[|trace|] == e && all[..|trace|] == trace;
    forall j | 0 <= j < |trace| ensures all[j] == trace[j] && (all[j].Called? ==> all[j].id != id) {
      assert trace[j] in trace;
    }
  }

  lemma NotAnswered(w: Service, trace: seq<Event>, id: nat, q: Request)
    requires q.Use? && NoneOf(trace, id)
    ensures !WellAnswered(w, trace, id, q)
  {
    forall j | 0 <= j < |trace| && trace[j].Called? ensures trace[j].id != id { assert trace[j] in trace; }
  }

  lemma MoveAnswered(w: Service, s: State, id: nat)
    requires id in s.threads && s.threads[id].request.Use? && StageTraced(s.trace, id, s.threads[id])
    requires s.calls == CallsOf(s.trace) && UseInStep(w, s.trace, id, s.threads[id])
    ensures var t := Take(s, id, StepOf(w, s, id)); UseInStep(w, t.trace, id, t.threads[id])
  {
    hide Shown, SecretOf, WellAnswered, CallsOf, NoneOf, ClearedIn, LoadedIn;
    var m, q := StepOf(w, s, id), s.threads[id].request;
    if NoneOf(s.trace, id) { NotAnswered(w, s.trace, id, q); }
    if m.event.Some? {
      if m.event.value.Called? {
        AnsweredNow(w, s.trace, m.event.value, id, q);
      } else {
        AnsweredLater(w, s.trace, m.event.value, id, q);
      }
    }
  }

  lemma GoAnswers(w: Service, s: State, id: nat)
    requires id in s.threads && Kept(s) && Answering(w, s)
    ensures Answering(w, Take(s, id, StepOf(w, s, id)))
  {
    hide StageTraced, StepOf, WellKept, Tells, SafeTrace, Attributed, Commits, Refused, Justified, Belongs, UseInStep, CallsOf;
    var m := StepOf(w, s, id);
    var t := Take(s, id, m);
    TracedAt(s, id);
    MoveJustified(w, s, id);
    if m.event.Some? { CallsAppend(s.trace, m.event.value); }
    forall other | other in t.threads && t.threads[other].request.Use? ensures UseInStep(w, t.trace, other, t.threads[other]) {
      if other == id {
        MoveAnswered(w, s, id);
      } else if m.event.Some? {
        OtherAnswered(w, s.trace, m.event.value, other, s.threads[other]);
      }
    }
  }

  lemma OtherAnswered(w: Service, trace: seq<Event>, e: Event, other: nat, t: Thread)
    requires t.request.Use? && UseInStep(w, trace, other, t) && e.id != other
    ensures UseInStep(w, trace + [e], other, t)
  {
    hide WellAnswered, Admits;
    AnsweredLater(w, trace, e, other, t.request);
  }

  lemma {:induction false} EveryRunAnswers(w: Service, actions: seq<Action>)
    ensures Answering(w, Run(w, actions))
  {
    hide Kept, StepOf, Take, UseInStep;
    if actions != [] {
      var n := |actions| - 1;
      EveryRunAnswers(w, actions[..n]);
      EveryRunIsKept(w, actions[..n]);
      var s := Run(w, actions[..n]);
      match actions[n] {
        case Arrive(id, q) => if id !in s.threads && q.Use? { Arriving(w, s.trace, id, q); }
        case Go(id) => if id in s.threads { GoAnswers(w, s, id); }
      }
    }
  }

  lemma Arriving(w: Service, trace: seq<Event>, id: nat, q: Request)
    requires q.Use?
    ensures UseInStep(w, trace, id, Thread(q, Arrived))
  {
  }

  /** In every run a use request ends in success exactly when it made its call, under a definition of the
      service that offers the operation and admits the payload, and the answer to that very call was
      a 2xx JSON answer within the bound. */
  lemma SuccessIsTheAnswers(w: Service, actions: seq<Action>, id: nat)
    requires var s := Run(w, actions); id in s.threads && s.threads[id].request.Use? && s.threads[id].stage.Finished?
    ensures var s := Run(w, actions);
      s.threads[id].stage.result.Success? <==> WellAnswered(w, s.trace, id, s.threads[id].request)
  {
    hide Run, WellAnswered;
    EveryRunAnswers(w, actions);
    assert UseInStep(w, Run(w, actions).trace, id, Run(w, actions).threads[id]);
  }

  // ---- what the policy was asked ----

  function DecisionsOf(trace: seq<Event>): nat {
    if trace == [] then 0 else DecisionsOf(trace[..|trace| - 1]) + if trace[|trace| - 1].Decided? then 1 else 0
  }

  /** The decision at j answers for the uid, the reference and the operation of its own request. */
  ghost predicate Consulted(w: Service, s: State, j: nat)
    requires j < |s.trace| && s.trace[j].Decided?
  {
    var id := s.trace[j].id;
    && id in s.threads && s.threads[id].request.Use?
    && var q := s.threads[id].request;
       s.trace[j].effect == w.policy(DecisionsOf(s.trace[..j]), q.uid, q.reference, q.operation)
  }

  ghost predicate Consulting(w: Service, s: State) {
    s.asked == DecisionsOf(s.trace) && forall j :: 0 <= j < |s.trace| && s.trace[j].Decided? ==> Consulted(w, s, j)
  }

  lemma DecisionsAppend(trace: seq<Event>, e: Event)
    ensures DecisionsOf(trace + [e]) == DecisionsOf(trace) + if e.Decided? then 1 else 0
  {
    assert (trace + [e])[..|trace|] == trace;
  }

  lemma GoConsults(w: Service, s: State, id: nat)
    requires id in s.threads && Consulting(w, s)
    ensures Consulting(w, Take(s, id, StepOf(w, s, id)))
  {
    hide Changed, Shown, SecretOf, DecisionsOf;
    var m := StepOf(w, s, id);
    var t := Take(s, id, m);
    if m.event.Some? { DecisionsAppend(s.trace, m.event.value); }
    forall j | 0 <= j < |t.trace| && t.trace[j].Decided? ensures Consulted(w, t, j) {
      if j < |s.trace| {
        assert t.trace[j] == s.trace[j] && t.trace[..j] == s.trace[..j];
        assert Consulted(w, s, j);
      } else {
        assert t.trace[..j] == s.trace;
      }
    }
  }

  lemma ArriveConsults(w: Service, s: State, id: nat, q: Request)
    requires id !in s.threads && Consulting(w, s)
    ensures Consulting(w, s.(threads := s.threads[id := Thread(q, Arrived)]))
  {
    hide DecisionsOf;
    var t := s.(threads := s.threads[id := Thread(q, Arrived)]);
    forall j | 0 <= j < |t.trace| && t.trace[j].Decided? ensures Consulted(w, t, j) { assert Consulted(w, s, j); }
  }

  /** In every run each decision is the policy's answer, at the time, for the request it stands for. */
  lemma {:induction false} DecisionsAreThePolicys(w: Service, actions: seq<Action>)
    ensures Consulting(w, Run(w, actions))
  {
    hide Consulting, StepOf, Take;
    if actions == [] {
      assert Consulting(w, Start()) by { NothingAsked(w); }
    } else {
      var n := |actions| - 1;
      DecisionsAreThePolicys(w, actions[..n]);
      var s := Run(w, actions[..n]);
      match actions[n] {
        case Arrive(id, q) => if id !in s.threads { ArriveConsults(w, s, id, q); }
        case Go(id) => if id in s.threads { GoConsults(w, s, id); }
      }
    }
  }

  lemma NothingAsked(w: Service)
    ensures Consulting(w, Start())
  {
  }

  // ---- discovery ----

  /** The operations of every definition, in the order they are gone through. */
  ghost predicate Orderly(w: Service, order: string -> seq<string>) {
    forall p :: p in w.definitions ==>
      (forall o :: o in order(p) <==> o in w.definitions[p].operations)
  }

  /** The operations to ask about for a credential. */
  function Operations(w: Service, order: string -> seq<string>, m: Metadata): seq<string> {
    if m.provider in w.definitions then order(m.provider) else []
  }

  /** Whether the policy, asked from its n-th answer on about one operation after the other, allows one. */
  predicate CanDiscover(w: Service, uid: nat, m: Metadata, operations: seq<string>, n: nat) {
    exists k :: 0 <= k < |operations| && w.policy(n + k, uid, m.reference, operations[k]) == Success(Allow)
  }

  /** How often it is asked: up to the first operation it allows. */
  function Asks(w: Service, uid: nat, m: Metadata, operations: seq<string>, n: nat): nat {
    if operations == [] then 0
    else if w.policy(n, uid, m.reference, operations[0]) == Success(Allow) then 1
    else 1 + Asks(w, uid, m, operations[1..], n + 1)
  }

  /** The question at which the policy is when the list has been gone through. */
  function AskedAfter(w: Service, order: string -> seq<string>, uid: nat, listed: seq<Metadata>, n: nat): nat {
    if listed == [] then n
    else
      var m, before := listed[|listed| - 1], AskedAfter(w, order, uid, listed[..|listed| - 1], n);
      before + Asks(w, uid, m, Operations(w, order, m), before)
  }

  predicate SeenAt(w: Service, order: string -> seq<string>, uid: nat, listed: seq<Metadata>, n: nat, k: nat)
    requires k < |listed|
  {
    CanDiscover(w, uid, listed[k], Operations(w, order, listed[k]), AskedAfter(w, order, uid, listed[..k], n))
  }

  /** some are, in order, the elements of all at the places picked. */
  ghost predicate InOrder(all: seq<Metadata>, some: seq<Metadata>, picked: seq<nat>) {
    && |picked| == |some|
    && (forall i :: 0 <= i < |picked| ==> picked[i] < |all| && some[i] == all[picked[i]])
    && forall i, j :: 0 <= i < j < |picked| ==> picked[i] < picked[j]
  }

  /** The listed credentials with some operation the policy allows the caller when it is asked. */
  function Discoverable(w: Service, order: string -> seq<string>, uid: nat, listed: seq<Metadata>, n: nat): seq<Metadata> {
    if listed == [] then []
    else
      var k := |listed| - 1;
      Discoverable(w, order, uid, listed[..k], n) + if SeenAt(w, order, uid, listed, n, k) then [listed[k]] else []
  }

  ghost predicate PicksSeen(w: Service, order: string -> seq<string>, uid: nat, listed: seq<Metadata>, n: nat, picked: seq<nat>) {
    && InOrder(listed, Discoverable(w, order, uid, listed, n), picked)
    && forall k :: 0 <= k < |listed| ==> (k in picked <==> SeenAt(w, order, uid, listed, n, k))
  }

  /** They are exactly the places with an allowed operation, in the order of the list. */
  lemma {:induction false} DiscoverableExactly(w: Service, order: string -> seq<string>, uid: nat, listed: seq<Metadata>, n: nat)
    ensures exists picked :: PicksSeen(w, order, uid, listed, n, picked)
  {
    hide PicksSeen;
    if listed == [] {
      assert PicksSeen(w, order, uid, listed, n, []) by { NothingPicked(w, order, uid, n); }
    } else {
      var k := |listed| - 1;
      DiscoverableExactly(w, order, uid, listed[..k], n);
      var picked :| PicksSeen(w, order, uid, listed[..k], n, picked);
      PickedNext(w, order, uid, listed, n, k, picked);
      assert PicksSeen(w, order, uid, listed, n, if SeenAt(w, order, uid, listed, n, k) then picked + [k] else picked);
    }
  }

  lemma NothingPicked(w: Service, order: string -> seq<string>, uid: nat, n: nat)
    ensures PicksSeen(w, order, uid, [], n, [])
  {
  }

  lemma PickedNext(w: Service, order: string -> seq<string>, uid: nat, listed: seq<Metadata>, n: nat, k: nat, picked: seq<nat>)
    requires |listed| == k + 1 && PicksSeen(w, order, uid, listed[..k], n, picked)
    ensures PicksSeen(w, order, uid, listed, n, if SeenAt(w, order, uid, listed, n, k) then picked + [k] else picked)
  {
    hide CanDiscover, AskedAfter;
    forall j | 0 <= j < k ensures SeenAt(w, order, uid, listed, n, j) <==> SeenAt(w, order, uid, listed[..k], n, j) {
      assert listed[..k][..j] == listed[..j];
    }
    forall j | j in picked ensures j < k {
      var i :| 0 <= i < |picked| && picked[i] == j;
    }
  }

  /** A policy that answers the same question alike every time. */
  ghost predicate Steady(w: Service) {
    forall n: nat, m: nat, uid, ref, o :: w.policy(n, uid, ref, o) == w.policy(m, uid, ref, o)
  }

  /** Some operation of its definition is allowed. */
  ghost predicate HasAllowed(w: Service, uid: nat, m: Metadata) {
    m.provider in w.definitions
    && exists o :: o in w.definitions[m.provider].operations && w.policy(0, uid, m.reference, o) == Success(Allow)
  }

  lemma SteadySeen(w: Service, order: string -> seq<string>, uid: nat, m: Metadata, n: nat)
    requires Steady(w) && Orderly(w, order)
    ensures CanDiscover(w, uid, m, Operations(w, order, m), n) <==> HasAllowed(w, uid, m)
  {
    var operations := Operations(w, order, m);
    if CanDiscover(w, uid, m, operations, n) {
      var k :| 0 <= k < |operations| && w.policy(n + k, uid, m.reference, operations[k]) == Success(Allow);
      assert operations[k] in w.definitions[m.provider].operations;
    }
    if HasAllowed(w, uid, m) {
      var o :| o in w.definitions[m.provider].operations && w.policy(0, uid, m.reference, o) == Success(Allow);
      assert o in operations;
      var k :| 0 <= k < |operations| && operations[k] == o;
      assert w.policy(n + k, uid, m.reference, o) == Success(Allow);
    }
  }

  /** Under such a policy every listed credential is seen as often as listed if some operation of its definition
      is allowed, and otherwise not at all. */
  lemma {:induction false} DiscoverableSteady(w: Service, order: string -> seq<string>, uid: nat, listed: seq<Metadata>, n: nat,
                                              m: Metadata)
    requires Steady(w) && Orderly(w, order)
    ensures multiset(Discoverable(w, order, uid, listed, n))[m] == if HasAllowed(w, uid, m) then multiset(listed)[m] else 0
  {
    hide CanDiscover, HasAllowed, AskedAfter, Steady;
    if listed != [] {
      var k := |listed| - 1;
      DiscoverableSteady(w, order, uid, listed[..k], n, m);
      SteadySeen(w, order, uid, listed[k], AskedAfter(w, order, uid, listed[..k], n));
      assert listed == listed[..k] + [listed[k]];
    }
  }

  /** can_discover: asks about one operation after the other, up to the first that is allowed. */
  method AskPolicy(w: Service, uid: nat, m: Metadata, operations: seq<string>, n: nat) returns (allowed: bool, next: nat)
    ensures allowed == CanDiscover(w, uid, m, operations, n) && next == n + Asks(w, uid, m, operations, n)
  {
    next := n;
    for k := 0 to |operations|
      invariant next == n + k
      invariant forall j :: 0 <= j < k ==> w.policy(n + j, uid, m.reference, operations[j]) != Success(Allow)
      invariant Asks(w, uid, m, operations, n) == k + Asks(w, uid, m, operations[k..], n + k)
    {
      next := next + 1;
      if w.policy(n + k, uid, m.reference, operations[k]) == Success(Allow) { return true, next; }
      assert operations[k..][1..] == operations[k + 1..];
    }
    return false, next;
  }

  method VisibleCredentials(w: Service, order: string -> seq<string>, uid: nat, listed: seq<Metadata>, n: nat)
    returns (visible: seq<Metadata>, next: nat)
    ensures visible == Discoverable(w, order, uid, listed, n) && next == AskedAfter(w, order, uid, listed, n)
  {
    hide CanDiscover, Asks;
    visible, next := [], n;
    for i := 0 to |listed|
      invariant visible == Discoverable(w, order, uid, listed[..i], n) && next == AskedAfter(w, order, uid, listed[..i], n)
    {
      assert listed[..i + 1][..i] == listed[..i];
      var allowed;
      allowed, next := AskPolicy(w, uid, listed[i], Operations(w, order, listed[i]), next);
      if allowed { visible := visible + [listed[i]]; }
    }
    assert listed[..|listed|] == listed;
  }
}
