/** The credential table: what each operation commits, and what a row says about the history of its
    reference. */
module CredentialStore {
  import opened Results

  const MAX_CREDENTIALS: nat := 1024

  const MAX_REF_BYTES: nat := 128

  const MAX_PROVIDER_BYTES: nat := 64

  const MAX_SECRET_BYTES: nat := 65536

  datatype CredentialState = Active | Revoked

  datatype Row = Row(
    provider: string, safeLabel: Option<string>, secret: string, generation: nat, state: CredentialState,
    createdAt: string, rotatedAt: Option<string>, revokedAt: Option<string>, updatedAt: string)

  type Rows = map<string, Row>

  /** A row without its secret. */
  datatype Metadata = Metadata(
    reference: string, provider: string, safeLabel: Option<string>, generation: nat, state: CredentialState,
    createdAt: string, rotatedAt: Option<string>, revokedAt: Option<string>, updatedAt: string)

  datatype StoreError = Sql | Invalid | NotFound | RevokedCredential

  predicate IsSegmentChar(c: char) { 'a' <= c <= 'z' || '0' <= c <= '9' || c == '-' || c == '_' }

  predicate IsSegment(s: string) { s != "" && forall c :: c in s ==> IsSegmentChar(c) }

  /** Two segments joined by one slash. */
  predicate ValidRef(s: string) {
    |s| <= MAX_REF_BYTES && exists i :: 0 <= i < |s| && s[i] == '/' && IsSegment(s[..i]) && IsSegment(s[i + 1..])
  }

  predicate ValidProvider(s: string) { |s| <= MAX_PROVIDER_BYTES && IsSegment(s) }

  predicate ValidSecret(s: string) {
    s != "" && |s| <= MAX_SECRET_BYTES && '\0' !in s && '\n' !in s && '\r' !in s
  }

  function MetadataOf(reference: string, row: Row): Metadata {
    Metadata(reference, row.provider, row.safeLabel, row.generation, row.state, row.createdAt, row.rotatedAt, row.revokedAt, row.updatedAt)
  }

  // ---- what each statement commits ----

  function Provisioned(rows: Rows, ref: string, provider: string, safeLabel: Option<string>, secret: string, now: string)
    : Result<Rows, StoreError>
  {
    if !ValidRef(ref) || !ValidProvider(provider) || |rows| >= MAX_CREDENTIALS || ref in rows then Failure(Invalid)
    else Success(rows[ref := Row(provider, safeLabel, secret, 1, Active, now, None, None, now)])
  }

  function Rotated(rows: Rows, ref: string, secret: string, now: string): Result<Rows, StoreError> {
    if ref !in rows then Failure(NotFound)
    else Success(rows[ref := rows[ref].(secret := secret, generation := rows[ref].generation + 1, state := Active,
                                        rotatedAt := Some(now), revokedAt := None, updatedAt := now)])
  }

  function RevokedRows(rows: Rows, ref: string, now: string): Result<Rows, StoreError> {
    if ref !in rows then Failure(NotFound)
    else Success(rows[ref := rows[ref].(state := Revoked, revokedAt := Some(now), updatedAt := now)])
  }

  function Deleted(rows: Rows, ref: string): Result<Rows, StoreError> {
    if ref !in rows then Failure(NotFound) else Success(map r | r in rows && r != ref :: rows[r])
  }

  function Shown(rows: Rows, ref: string): Result<Metadata, StoreError> {
    if !ValidRef(ref) then Failure(Invalid)
    else if ref !in rows then Failure(NotFound)
    else Success(MetadataOf(ref, rows[ref]))
  }

  function SecretOf(rows: Rows, ref: string): Result<string, StoreError> {
    if ref !in rows then Failure(NotFound)
    else if rows[ref].state.Revoked? then Failure(RevokedCredential)
    else if !ValidSecret(rows[ref].secret) then Failure(Invalid)
    else Success(rows[ref].secret)
  }

  // ---- history ----

  /** One committed statement. */
  datatype Change =
    | Provision(reference: string, provider: string, safeLabel: Option<string>, secret: string)
    | Rotate(reference: string, secret: string)
    | Revoke(reference: string)
    | Delete(reference: string)

  /** What the history says a reference holds. */
  datatype Holding = Holding(secret: string, generation: nat, active: bool)

  function After(before: Option<Holding>, c: Change): Option<Holding> {
    match c
    case Provision(_, _, _, s) => Some(Holding(s, 1, true))
    case Rotate(_, s) => if before.Some? then Some(Holding(s, before.value.generation + 1, true)) else None
    case Revoke(_) => if before.Some? then Some(before.value.(active := false)) else None
    case Delete(_) => None
  }

  function Account(h: seq<Change>, ref: string): Option<Holding> {
    if h == [] then None
    else
      var n := |h| - 1;
      if h[n].reference == ref then After(Account(h[..n], ref), h[n]) else Account(h[..n], ref)
  }

  predicate Concerns(c: Change, ref: string) { c.reference == ref }

  function RotationsOf(h: seq<Change>, ref: string): nat {
    if h == [] then 0
    else RotationsOf(h[..|h| - 1], ref) + if h[|h| - 1].Rotate? && Concerns(h[|h| - 1], ref) then 1 else 0
  }

  /** Since index i the reference was neither provisioned again nor deleted. */
  ghost predicate ProvisionedAt(h: seq<Change>, ref: string, i: nat) {
    && i < |h| && h[i].Provision? && Concerns(h[i], ref)
    && forall j :: i < j < |h| && Concerns(h[j], ref) ==> h[j].Rotate? || h[j].Revoke?
  }

  ghost predicate CountsFrom(h: seq<Change>, ref: string, i: nat, generation: nat) {
    ProvisionedAt(h, ref, i) && generation == 1 + RotationsOf(h[i + 1..], ref)
  }

  lemma CountsOn(h: seq<Change>, c: Change, ref: string, i: nat, generation: nat)
    requires CountsFrom(h, ref, i, generation) && (Concerns(c, ref) ==> c.Rotate? || c.Revoke?)
    ensures CountsFrom(h + [c], ref, i, generation + if c.Rotate? && Concerns(c, ref) then 1 else 0)
  {
    var all, rest := h + [c], (h + [c])[i + 1..];
    assert rest == h[i + 1..] + [c];
    assert rest[..|rest| - 1] == h[i + 1..];
  }

  lemma CountsStart(h: seq<Change>, c: Change, ref: string)
    requires c.Provision? && Concerns(c, ref)
    ensures CountsFrom(h + [c], ref, |h|, 1)
  {
    assert (h + [c])[|h| + 1..] == [];
  }

  /** The generation is one more than the rotations since the reference was last provisioned. */
  lemma {:induction false} GenerationCounts(h: seq<Change>, ref: string)
    requires Account(h, ref).Some?
    ensures exists i: nat :: CountsFrom(h, ref, i, Account(h, ref).value.generation)
  {
    hide CountsFrom;
    var front, last := h[..|h| - 1], h[|h| - 1];
    assert h == front + [last];
    if last.Provision? && Concerns(last, ref) {
      CountsStart(front, last, ref);
    } else {
      GenerationCounts(front, ref);
      var g := Account(front, ref).value.generation;
      var i: nat :| CountsFrom(front, ref, i, g);
      CountsOn(front, last, ref, i, g);
    }
  }

  /** Index j set the secret last. */
  ghost predicate SecretSetAt(h: seq<Change>, ref: string, j: nat) {
    && j < |h| && (h[j].Provision? || h[j].Rotate?) && Concerns(h[j], ref)
    && forall k :: j < k < |h| && Concerns(h[k], ref) ==> h[k].Revoke?
  }

  ghost predicate HeldSince(h: seq<Change>, ref: string, j: nat, held: Holding) {
    SecretSetAt(h, ref, j) && held.secret == h[j].secret && (held.active <==> Untouched(h, ref, j))
  }

  predicate Untouched(h: seq<Change>, ref: string, j: nat) { forall k :: j < k < |h| ==> !Concerns(h[k], ref) }

  lemma HeldOn(h: seq<Change>, c: Change, ref: string, j: nat, held: Holding)
    requires HeldSince(h, ref, j, held) && (Concerns(c, ref) ==> c.Revoke?)
    ensures HeldSince(h + [c], ref, j, if Concerns(c, ref) then held.(active := false) else held)
  {
    assert forall k :: 0 <= k < |h| ==> (h + [c])[k] == h[k];
    assert (h + [c])[|h|] == c;
    if Concerns(c, ref) { assert !Untouched(h + [c], ref, j); }
  }

  lemma HeldNow(h: seq<Change>, c: Change, ref: string, held: Holding)
    requires (c.Provision? || c.Rotate?) && Concerns(c, ref) && held.secret == c.secret && held.active
    ensures HeldSince(h + [c], ref, |h|, held)
  {
  }

  /** The secret held is the one committed last, and it is active unless it was revoked since. */
  lemma {:induction false} SecretIsLatest(h: seq<Change>, ref: string)
    requires Account(h, ref).Some?
    ensures exists j: nat :: HeldSince(h, ref, j, Account(h, ref).value)
  {
    hide HeldSince;
    var front, last := h[..|h| - 1], h[|h| - 1];
    assert h == front + [last];
    if (last.Provision? || last.Rotate?) && Concerns(last, ref) {
      HeldNow(front, last, ref, Account(h, ref).value);
    } else {
      SecretIsLatest(front, ref);
      var held := Account(front, ref).value;
      var j: nat :| HeldSince(front, ref, j, held);
      HeldOn(front, last, ref, j, held);
    }
  }

  /** The table holds exactly what its history says. */
  ghost predicate Tells(rows: Rows, h: seq<Change>) {
    && (forall ref :: ref in rows <==> Account(h, ref).Some?)
    && forall ref :: ref in rows ==> Account(h, ref) == Some(Held(rows[ref]))
  }

  function Held(row: Row): Holding { Holding(row.secret, row.generation, row.state.Active?) }

  ghost predicate WellKept(rows: Rows) {
    && |rows| <= MAX_CREDENTIALS
    && forall ref :: ref in rows ==> ValidRef(ref) && rows[ref].generation >= 1 && (rows[ref].state.Active? <==> rows[ref].revokedAt.None?)
  }

  /** The rows after a change, or why it cannot be made. */
  function Changed(rows: Rows, c: Change, now: string): Result<Rows, StoreError> {
    match c
    case Provision(ref, provider, safeLabel, secret) => Provisioned(rows, ref, provider, safeLabel, secret, now)
    case Rotate(ref, secret) => Rotated(rows, ref, secret, now)
    case Revoke(ref) => RevokedRows(rows, ref, now)
    case Delete(ref) => Deleted(rows, ref)
  }

  lemma AccountAppend(h: seq<Change>, c: Change, ref: string)
    ensures Account(h + [c], ref) == if c.reference == ref then After(Account(h, ref), c) else Account(h, ref)
  {
    assert (h + [c])[..|h|] == h;
  }

  lemma ChangedError(rows: Rows, c: Change, now: string)
    ensures Changed(rows, c, now) != Failure(Sql)
  {
    hide ValidRef, ValidProvider;
  }

  lemma ChangeOthers(rows: Rows, c: Change, now: string, ref: string)
    requires Changed(rows, c, now).Success? && ref != c.reference
    ensures var s := Changed(rows, c, now).value; (ref in s <==> ref in rows) && (ref in rows ==> s[ref] == rows[ref])
  {
  }

  lemma ChangeTells(rows: Rows, h: seq<Change>, c: Change, now: string, ref: string)
    requires Tells(rows, h) && Changed(rows, c, now).Success?
    ensures var s := Changed(rows, c, now).value;
      (ref in s <==> Account(h + [c], ref).Some?) && (ref in s ==> Account(h + [c], ref) == Some(Held(s[ref])))
  {
    hide ValidRef, ValidProvider, Account;
    AccountAppend(h, c, ref);
    if ref != c.reference { ChangeOthers(rows, c, now, ref); }
  }

  lemma ChangeWellKept(rows: Rows, c: Change, now: string)
    requires WellKept(rows) && Changed(rows, c, now).Success?
    ensures WellKept(Changed(rows, c, now).value)
  {
    hide ValidRef, ValidProvider;
    ChangeCount(rows, c, now);
    var s := Changed(rows, c, now).value;
    forall ref | ref in s
      ensures ValidRef(ref) && s[ref].generation >= 1 && (s[ref].state.Active? <==> s[ref].revokedAt.None?)
    {
      if ref != c.reference { ChangeOthers(rows, c, now, ref); }
    }
  }

  /** Every committed change keeps the table in order and in step with its history. */
  lemma ChangeKeeps(rows: Rows, h: seq<Change>, c: Change, now: string)
    requires WellKept(rows) && Tells(rows, h) && Changed(rows, c, now).Success?
    ensures WellKept(Changed(rows, c, now).value) && Tells(Changed(rows, c, now).value, h + [c])
  {
    hide Account, Changed, Held;
    ChangeWellKept(rows, c, now);
    forall ref
      ensures ref in Changed(rows, c, now).value <==> Account(h + [c], ref).Some?
      ensures ref in Changed(rows, c, now).value ==> Account(h + [c], ref) == Some(Held(Changed(rows, c, now).value[ref]))
    {
      ChangeTells(rows, h, c, now, ref);
    }
  }

  lemma ChangeCount(rows: Rows, c: Change, now: string)
    requires WellKept(rows) && Changed(rows, c, now).Success?
    ensures |Changed(rows, c, now).value| <= MAX_CREDENTIALS
  {
    hide ValidRef, ValidProvider;
    var s := Changed(rows, c, now).value;
    match c {
      case Provision(ref, _, _, _) => assert s.Keys == rows.Keys + {ref};
      case Rotate(ref, _) => assert s.Keys == rows.Keys;
      case Revoke(ref) => assert s.Keys == rows.Keys;
      case Delete(ref) => assert s.Keys == rows.Keys - {ref};
    }
    assert |s| == |s.Keys| && |rows| == |rows.Keys|;
  }

  // ---- the store ----

  /** Some statement of a stretch failed. */
  ghost predicate Faulted(fails: nat -> bool, from: nat, to: nat) { exists n: nat :: from <= n < to && fails(n) }

  class Store {
    var rows: Rows
    const fails: nat -> bool     // whether the n-th statement fails
    var statements: nat          // statements so far
    ghost var history: seq<Change>

    constructor (fails: nat -> bool)
      ensures Valid() && rows == map[] && history == [] && this.fails == fails && statements == 0
    {
      this.fails := fails;
      rows, statements, history := map[], 0, [];
    }

    ghost predicate Valid()
      reads this
    {
      WellKept(rows) && Tells(rows, history)
    }

    /** One SQL statement. */
    method Execute() returns (ok: bool)
      modifies this`statements
      ensures ok == !fails(old(statements)) && statements == old(statements) + 1
    {
      ok := !fails(statements);
      statements := statements + 1;
    }

    method Show(ref: string) returns (r: Result<Metadata, StoreError>)
      modifies this`statements
      ensures r == if ValidRef(ref) && fails(old(statements)) then Failure(Sql) else Shown(rows, ref)
      ensures statements == old(statements) + if ValidRef(ref) then 1 else 0
    {
      if !ValidRef(ref) { return Failure(Invalid); }
      var ok := Execute();
      if !ok { return Failure(Sql); }
      if ref !in rows { return Failure(NotFound); }
      return Success(MetadataOf(ref, rows[ref]));
    }

    method LoadSecret(ref: string) returns (r: Result<string, StoreError>)
      modifies this`statements
      ensures r == if fails(old(statements)) then Failure(Sql) else SecretOf(rows, ref)
      ensures statements == old(statements) + 1
    {
      var ok := Execute();
      if !ok { return Failure(Sql); }
      if ref !in rows { return Failure(NotFound); }
      if rows[ref].state.Revoked? { return Failure(RevokedCredential); }
      if !ValidSecret(rows[ref].secret) { return Failure(Invalid); }
      return Success(rows[ref].secret);
    }

    /** BEGIN, the statement, COMMIT: all or nothing. */
    method Commit(c: Change, now: string) returns (r: Result<(), StoreError>)
      requires Valid()
      modifies this
      ensures Valid()
      ensures r.Success? ==> Changed(old(rows), c, now) == Success(rows) && history == old(history) + [c]
      ensures r.Failure? ==> rows == old(rows) && history == old(history)
      ensures r.Failure? && !r.error.Sql? ==> Changed(old(rows), c, now) == Failure(r.error)
      ensures old(statements) < statements <= old(statements) + 3
      ensures r == Result.Failure(Sql) <==> Faulted(fails, old(statements), statements)
    {
      hide ValidRef, ValidProvider, Account, Changed, WellKept, Tells;
      var begun := Execute();
      if !begun { return Failure(Sql); }
      var executed := Execute();
      if !executed { return Failure(Sql); }
      var after := Changed(rows, c, now);
      ChangedError(rows, c, now);
      if after.Failure? { return Failure(after.error); }
      var committed := Execute();
      if !committed { return Failure(Sql); }
      ChangeKeeps(rows, history, c, now);
      rows := after.value;
      history := history + [c];
      return Success(());
    }

    method Provision(ref: string, provider: string, safeLabel: Option<string>, secret: string, now: string)
      returns (r: Result<Metadata, StoreError>)
      requires Valid()
      modifies this
      ensures Valid() && Answered(Change.Provision(ref, provider, safeLabel, secret), now, old(rows), old(history), r)
      ensures old(statements) <= statements <= old(statements) + 5
      ensures r == Result.Failure(Sql) <==> Faulted(fails, old(statements), statements)
    {
      hide ValidRef, ValidProvider, Account, WellKept, Tells;
      if !ValidRef(ref) || !ValidProvider(provider) { return Failure(Invalid); }
      var counted := Execute();
      if !counted { return Failure(Sql); }
      if |rows| >= MAX_CREDENTIALS { return Failure(Invalid); }
      var done := Commit(Change.Provision(ref, provider, safeLabel, secret), now);
      if done.Failure? { return Failure(done.error); }
      r := Show(ref);
    }

    method Rotate(ref: string, secret: string, now: string) returns (r: Result<Metadata, StoreError>)
      requires Valid()
      modifies this
      ensures Valid() && Answered(Change.Rotate(ref, secret), now, old(rows), old(history), r)
      ensures old(statements) <= statements <= old(statements) + 5
      ensures r == Result.Failure(Sql) <==> Faulted(fails, old(statements), statements)
    {
      hide ValidRef, Account, Tells;
      var done := Commit(Change.Rotate(ref, secret), now);
      if done.Failure? { return Failure(done.error); }
      r := Show(ref);
    }

    method Revoke(ref: string, now: string) returns (r: Result<Metadata, StoreError>)
      requires Valid()
      modifies this
      ensures Valid() && Answered(Change.Revoke(ref), now, old(rows), old(history), r)
      ensures old(statements) <= statements <= old(statements) + 5
      ensures r == Result.Failure(Sql) <==> Faulted(fails, old(statements), statements)
    {
      hide ValidRef, Account, Tells;
      var done := Commit(Change.Revoke(ref), now);
      if done.Failure? { return Failure(done.error); }
      r := Show(ref);
    }

    method Delete(ref: string, now: string) returns (r: Result<(), StoreError>)
      requires Valid()
      modifies this
      ensures Valid()
      ensures r.Success? ==> ref in old(rows) && rows == Deleted(old(rows), ref).value && history == old(history) + [Change.Delete(ref)]
      ensures r.Failure? ==> rows == old(rows) && history == old(history)
      ensures r == Result.Failure(NotFound) ==> ref !in old(rows)
      ensures r.Failure? ==> r.error.NotFound? || r.error.Sql?
      ensures old(statements) < statements <= old(statements) + 3
      ensures r == Result.Failure(Sql) <==> Faulted(fails, old(statements), statements)
    {
      hide ValidRef, Account;
      r := Commit(Change.Delete(ref), now);
    }

    /** A successful mutation returns the new row; one that fails changed nothing, unless only the
        read-back after the commit failed. */
    ghost predicate Answered(c: Change, now: string, before: Rows, earlier: seq<Change>, r: Result<Metadata, StoreError>)
      reads this
    {
      match r
      case Success(m) =>
        Changed(before, c, now) == Success(rows) && history == earlier + [c] && Shown(rows, c.reference) == Success(m)
      case Failure(Sql) =>
        || (rows == before && history == earlier)
        || (Changed(before, c, now) == Success(rows) && history == earlier + [c])
      case Failure(error) => rows == before && history == earlier && Changed(before, c, now) == Failure(error)
    }
  }
}
