/** The package closure as pacman prints it: checked rows become a sorted list in which every
    repository/name/version occurs once, and two closures are compared as ordered lists. */
module ResolvedRows {
  import opened Results
  import opened Errors
  import opened Ordering
  import opened Packages
  import opened ClosureReport

  /** The fields of one printed line. */
  type Row = seq<string>

  /** int(text), the digest of a detached signature and repr(text), as the run environment computes them. */
  datatype Reading = Reading(size: string -> Option<int>, digest: string -> string, quoted: string -> string)

  datatype RowError = BadRow(row: Row) | EmptyClosure

  predicate IsTargetChar(c: char) {
    'A' <= c <= 'Z' || 'a' <= c <= 'z' || '0' <= c <= '9' || c in "@._+:-"
  }

  predicate IsTargetName(s: string) { s != "" && forall c :: c in s ==> IsTargetChar(c) }

  predicate IsBase64(s: string) {
    forall c :: c in s ==> 'A' <= c <= 'Z' || 'a' <= c <= 'z' || '0' <= c <= '9' || c in "+/="
  }

  function SignatureText(field: string): string { if field == "(null)" then "" else field }

  predicate GoodRow(reading: Reading, row: Row) {
    && |row| == 8
    && row[0] in FROZEN_REPOSITORIES
    && IsTargetName(row[1]) && row[2] != "" && row[3] != ""
    && IsSha256(row[4])
    && (match reading.size(row[5]) case Some(n) => n >= 0 case None => false)
    && IsBase64(SignatureText(row[7]))
  }

  /** The first thing that is wrong with a row that is not good. */
  function ComplaintOf(reading: Reading, row: Row): string {
    (if |row| != 8 then "unexpected pacman closure row"
     else if row[0] !in FROZEN_REPOSITORIES then "package closure escaped locked repositories"
     else if !IsTargetName(row[1]) || row[2] == "" || row[3] == "" then "invalid package closure identity"
     else if !IsSha256(row[4]) then "package closure lacks a valid SHA-256"
     else if reading.size(row[5]).None? then "package closure size is invalid"
     else if reading.size(row[5]).value < 0 then "package closure size is negative"
     else "package closure contains an invalid encoded PGP signature")
    + ":"
  }

  /** Rows of another shape or without a name are quoted, others named. */
  function Complaint(reading: Reading, row: Row): Error {
    var shaped := |row| == 8 && (row[0] !in FROZEN_REPOSITORIES || (IsTargetName(row[1]) && row[2] != "" && row[3] != ""));
    Error(Other,
          ComplaintOf(reading, row) + (" " + if shaped then row[0] + "/" + row[1] else reading.quoted(Joined(row, "|"))),
          None, None,
          if shaped && row[0] in FROZEN_REPOSITORIES && IsSha256(row[4]) && reading.size(row[5]).None?
          then Some(Plain("invalid literal for int() with base 10: " + reading.quoted(row[5])))
          else None)
  }

  function RowText(reading: Reading, e: RowError): Error {
    match e
    case BadRow(row) => Complaint(reading, row)
    case EmptyClosure => Plain("pacman resolved an empty repository/package closure")
  }

  /** Why the rows stand for no closure: the first one that is not good, or that there are none. */
  function RowProblem(reading: Reading, rows: seq<Row>): Option<RowError> {
    if rows == [] then Some(EmptyClosure) else FirstBad(reading, rows)
  }

  function FirstBad(reading: Reading, rows: seq<Row>): Option<RowError> {
    if rows == [] then None
    else if !GoodRow(reading, rows[0]) then Some(BadRow(rows[0]))
    else FirstBad(reading, rows[1..])
  }

  function PackageOf(reading: Reading, row: Row): Package
    requires GoodRow(reading, row)
  {
    var signature := SignatureText(row[7]);
    Package(row[0], row[1], row[2], row[3], row[4], reading.size(row[5]).value,
            if signature == "" then None else Some(reading.digest(signature)))
  }

  /** The key of the closure order, and what a later row may not repeat. */
  function ByVersion(p: Package): seq<string> { [p.repository, p.name, p.version] }

  ghost predicate Hexadecimal(reading: Reading) { forall s :: IsSha256(reading.digest(s)) }

  ghost predicate AllGood(reading: Reading, rows: seq<Row>) { forall row :: row in rows ==> GoodRow(reading, row) }

  /** Package k of ps comes from the first row with its key. */
  ghost predicate FirstAt(reading: Reading, rows: seq<Row>, i: nat)
    requires i < |rows| && AllGood(reading, rows)
  {
    forall j :: 0 <= j < i ==> ByVersion(PackageOf(reading, rows[j])) != ByVersion(PackageOf(reading, rows[i]))
  }

  ghost predicate DistinctVersions(ps: seq<Package>) {
    forall i, j :: 0 <= i < j < |ps| ==> ByVersion(ps[i]) != ByVersion(ps[j])
  }

  /** ps holds exactly the first row of every key. */
  ghost predicate Firsts(reading: Reading, rows: seq<Row>, ps: seq<Package>)
    requires AllGood(reading, rows)
  {
    && DistinctVersions(ps)
    && (forall p :: p in ps ==> exists i :: 0 <= i < |rows| && PackageOf(reading, rows[i]) == p && FirstAt(reading, rows, i))
    && forall i :: 0 <= i < |rows| && FirstAt(reading, rows, i) ==> PackageOf(reading, rows[i]) in ps
  }

  /** seen holds the keys of the rows read so far. */
  ghost predicate KeysSeen(reading: Reading, rows: seq<Row>, seen: set<seq<string>>)
    requires AllGood(reading, rows)
  {
    && (forall i :: 0 <= i < |rows| ==> ByVersion(PackageOf(reading, rows[i])) in seen)
    && forall k :: k in seen ==> exists i :: 0 <= i < |rows| && ByVersion(PackageOf(reading, rows[i])) == k
  }

  ghost predicate KeysListed(ps: seq<Package>, seen: set<seq<string>>) {
    forall p :: p in ps ==> ByVersion(p) in seen
  }

  lemma FirstAtPrefix(reading: Reading, rows: seq<Row>, all: seq<Row>, i: nat)
    requires i < |rows| && rows <= all && AllGood(reading, all) && AllGood(reading, rows)
    ensures FirstAt(reading, rows, i) <==> FirstAt(reading, all, i)
  {
    assert forall j :: 0 <= j < |rows| ==> rows[j] == all[j];
  }

  lemma RepeatedKey(reading: Reading, rows: seq<Row>, all: seq<Row>, row: Row, seen: set<seq<string>>)
    requires AllGood(reading, rows) && GoodRow(reading, row) && all == rows + [row] && AllGood(reading, all)
    requires KeysSeen(reading, rows, seen) && ByVersion(PackageOf(reading, row)) in seen
    ensures KeysSeen(reading, all, seen) && !FirstAt(reading, all, |rows|)
  {
    hide ByVersion, PackageOf, GoodRow;
    var k :| 0 <= k < |rows| && ByVersion(PackageOf(reading, rows[k])) == ByVersion(PackageOf(reading, row));
    assert all[k] == rows[k] && all[|rows|] == row;
    forall c | c in seen ensures exists i :: 0 <= i < |all| && ByVersion(PackageOf(reading, all[i])) == c {
      var i :| 0 <= i < |rows| && ByVersion(PackageOf(reading, rows[i])) == c;
      assert all[i] == rows[i];
    }
  }

  lemma RepeatedRow(reading: Reading, rows: seq<Row>, all: seq<Row>, row: Row, ps: seq<Package>)
    requires AllGood(reading, rows) && GoodRow(reading, row) && all == rows + [row] && AllGood(reading, all)
    requires Firsts(reading, rows, ps) && !FirstAt(reading, all, |rows|)
    ensures Firsts(reading, all, ps)
  {
    hide ByVersion, PackageOf, GoodRow, DistinctVersions, FirstAt;
    forall i | 0 <= i < |rows| ensures FirstAt(reading, rows, i) <==> FirstAt(reading, all, i) {
      FirstAtPrefix(reading, rows, all, i);
    }
    forall p | p in ps
      ensures exists i :: 0 <= i < |all| && PackageOf(reading, all[i]) == p && FirstAt(reading, all, i)
    {
      var i :| 0 <= i < |rows| && PackageOf(reading, rows[i]) == p && FirstAt(reading, rows, i);
      assert all[i] == rows[i];
    }
  }

  lemma NewRow(reading: Reading, rows: seq<Row>, all: seq<Row>, row: Row, ps: seq<Package>, seen: set<seq<string>>)
    requires AllGood(reading, rows) && GoodRow(reading, row) && all == rows + [row] && AllGood(reading, all)
    requires Firsts(reading, rows, ps) && KeysSeen(reading, rows, seen) && KeysListed(ps, seen)
    requires ByVersion(PackageOf(reading, row)) !in seen
    ensures var p := PackageOf(reading, row);
      Firsts(reading, all, ps + [p]) && KeysSeen(reading, all, seen + {ByVersion(p)}) && KeysListed(ps + [p], seen + {ByVersion(p)})
  {
    hide ByVersion, PackageOf, GoodRow;
    var p := PackageOf(reading, row);
    forall i | 0 <= i < |rows| ensures FirstAt(reading, rows, i) <==> FirstAt(reading, all, i) {
      FirstAtPrefix(reading, rows, all, i);
    }
    assert all[|rows|] == row && forall i :: 0 <= i < |rows| ==> all[i] == rows[i];
    assert FirstAt(reading, all, |rows|);
    forall q | q in ps + [p]
      ensures exists i :: 0 <= i < |all| && PackageOf(reading, all[i]) == q && FirstAt(reading, all, i)
    {
      if q in ps {
        var i :| 0 <= i < |rows| && PackageOf(reading, rows[i]) == q && FirstAt(reading, rows, i);
        assert all[i] == rows[i];
      }
    }
    forall c | c in seen + {ByVersion(p)} ensures exists i :: 0 <= i < |all| && ByVersion(PackageOf(reading, all[i])) == c {
      if c in seen {
        var i :| 0 <= i < |rows| && ByVersion(PackageOf(reading, rows[i])) == c;
        assert all[i] == rows[i];
      }
    }
  }

  lemma FirstsSorted(reading: Reading, rows: seq<Row>, ps: seq<Package>)
    requires AllGood(reading, rows) && Firsts(reading, rows, ps)
    ensures Firsts(reading, rows, Sort(ps, ByVersion))
  {
    hide FirstAt;
    SortMembers(ps, ByVersion);
    VersionsPermuted(ps, Sort(ps, ByVersion));
  }

  /** Distinctness of keys does not depend on the order. */
  lemma VersionsPermuted(a: seq<Package>, b: seq<Package>)
    requires multiset(a) == multiset(b) && DistinctVersions(a)
    ensures DistinctVersions(b)
  {
    assert NoDuplicates(a);
    PermutedNoDuplicates(a, b);
    forall i, j | 0 <= i < j < |b| ensures ByVersion(b[i]) != ByVersion(b[j]) {
      assert b[i] in multiset(a) && b[j] in multiset(a);
      var k :| 0 <= k < |a| && a[k] == b[i];
      var l :| 0 <= l < |a| && a[l] == b[j];
      assert b[i] != b[j];
    }
  }

  method ParsePacmanPrintRows(reading: Reading, rows: seq<Row>) returns (r: Result<seq<Package>, RowError>)
    ensures r.Success? <==> rows != [] && AllGood(reading, rows)
    ensures r.Failure? ==> Some(r.error) == RowProblem(reading, rows)
    ensures r.Success? ==> r.value != [] && Firsts(reading, rows, r.value) && IsSorted(r.value, ByVersion)
  {
    hide GoodRow, PackageOf, Firsts, KeysSeen, KeysListed;
    var packages: seq<Package> := [];
    var seen: set<seq<string>> := {};
    NoRows(reading);
    assert rows[0..] == rows;
    for i := 0 to |rows|
      invariant AllGood(reading, rows[..i]) && FirstBad(reading, rows) == FirstBad(reading, rows[i..])
      invariant Firsts(reading, rows[..i], packages) && KeysSeen(reading, rows[..i], seen) && KeysListed(packages, seen)
    {
      var row := rows[i];
      assert rows[..i + 1] == rows[..i] + [row];
      assert rows[i..][0] == row && rows[i..][1..] == rows[i + 1..];
      if !GoodRow(reading, row) { return Failure(BadRow(row)); }
      var p := PackageOf(reading, row);
      if ByVersion(p) in seen {
        RepeatedKey(reading, rows[..i], rows[..i + 1], row, seen);
        RepeatedRow(reading, rows[..i], rows[..i + 1], row, packages);
      } else {
        NewRow(reading, rows[..i], rows[..i + 1], row, packages, seen);
        seen := seen + {ByVersion(p)};
        packages := packages + [p];
      }
    }
    assert rows[..|rows|] == rows;
    if packages == [] {
      SomeFirst(reading, rows, packages);
      return Failure(EmptyClosure);
    }
    FirstsSorted(reading, rows, packages);
    SortIsSorted(packages, ByVersion);
    SomeRow(reading, rows, packages);
    return Success(Sort(packages, ByVersion));
  }

  lemma NoRows(reading: Reading)
    ensures AllGood(reading, []) && Firsts(reading, [], []) && KeysSeen(reading, [], {}) && KeysListed([], {})
  {
  }

  lemma SomeFirst(reading: Reading, rows: seq<Row>, ps: seq<Package>)
    requires AllGood(reading, rows) && Firsts(reading, rows, ps)
    ensures rows != [] ==> ps != []
  {
    if rows != [] { assert FirstAt(reading, rows, 0); }
  }

  lemma SomeRow(reading: Reading, rows: seq<Row>, ps: seq<Package>)
    requires AllGood(reading, rows) && Firsts(reading, rows, ps) && ps != []
    ensures rows != []
  {
    assert ps[0] in ps;
  }

  /** What a successful parse guarantees of every package. */
  lemma ParsedWellFormed(reading: Reading, rows: seq<Row>, ps: seq<Package>)
    requires Hexadecimal(reading) && AllGood(reading, rows) && Firsts(reading, rows, ps)
    ensures forall p :: p in ps ==> WellFormed(p)
  {
    forall p | p in ps ensures WellFormed(p) {
      var i :| 0 <= i < |rows| && PackageOf(reading, rows[i]) == p && FirstAt(reading, rows, i);
      assert rows[i] in rows;
    }
  }

  // ---- comparing two closures ----

  datatype Identity = Identity(
    repository: string, name: string, version: string, filename: string, sha256: string, signatureSha256: Option<string>)

  function IdentityOf(p: Package): Identity {
    Identity(p.repository, p.name, p.version, p.filename, p.sha256, p.signatureSha256)
  }

  function ClosureIdentity(ps: seq<Package>): (r: seq<Identity>)
    ensures |r| == |ps| && forall i :: 0 <= i < |ps| ==> r[i] == IdentityOf(ps[i])
  {
    seq(|ps|, i requires 0 <= i < |ps| => IdentityOf(ps[i]))
  }

  lemma {:induction false} KeyBelowAntisymmetric(a: seq<string>, b: seq<string>)
    requires KeyBelow(a, b) && KeyBelow(b, a)
    ensures a == b
  {
    if a != [] && b != [] {
      if a[0] == b[0] {
        KeyBelowAntisymmetric(a[1..], b[1..]);
        assert a == [a[0]] + a[1..] && b == [b[0]] + b[1..];
      } else {
        BelowAntisymmetric(a[0], b[0]);
      }
    }
  }

  /** A parsed closure. */
  ghost predicate Ordered(ps: seq<Package>) { IsSorted(ps, ByVersion) && DistinctVersions(ps) }

  function Identities(ps: seq<Package>): set<Identity> { set p | p in ps :: IdentityOf(p) }

  lemma LeastFirst(a: seq<Package>, p: Package)
    requires a != [] && IsSorted(a, ByVersion) && p in a
    ensures KeyBelow(ByVersion(a[0]), ByVersion(p))
  {
    var k :| 0 <= k < |a| && a[k] == p;
    KeyBelowRefl(ByVersion(p));
  }

  lemma IdentityKey(p: Package, q: Package)
    requires IdentityOf(p) == IdentityOf(q)
    ensures ByVersion(p) == ByVersion(q)
  {
  }

  lemma TailIdentities(a: seq<Package>)
    requires a != [] && DistinctVersions(a)
    ensures Identities(a[1..]) == Identities(a) - {IdentityOf(a[0])}
  {
    hide IdentityOf, ByVersion;
    forall d ensures d in Identities(a[1..]) <==> d in Identities(a) && d != IdentityOf(a[0]) {
      if d in Identities(a[1..]) {
        var i :| 0 <= i < |a[1..]| && IdentityOf(a[1..][i]) == d;
        assert a[i + 1] == a[1..][i];
        if d == IdentityOf(a[0]) { IdentityKey(a[0], a[i + 1]); }
      }
      if d in Identities(a) && d != IdentityOf(a[0]) {
        var i :| 0 <= i < |a| && IdentityOf(a[i]) == d;
        assert a[1..][i - 1] == a[i];
      }
    }
  }

  lemma TailOrdered(a: seq<Package>)
    requires a != [] && Ordered(a)
    ensures Ordered(a[1..]) && DistinctVersions(a)
  {
  }

  lemma SameKey(a: seq<Package>, p: Package)
    requires a != [] && DistinctVersions(a) && p in a && ByVersion(p) == ByVersion(a[0])
    ensures p == a[0]
  {
    var i :| 0 <= i < |a| && a[i] == p;
  }

  /** The heads agree: each is the least under the common key order. */
  lemma SameHead(a: seq<Package>, b: seq<Package>)
    requires a != [] && b != [] && Ordered(a) && Ordered(b) && Identities(a) == Identities(b)
    ensures IdentityOf(a[0]) == IdentityOf(b[0])
  {
    hide IdentityOf, ByVersion, DistinctVersions, IsSorted;
    assert IdentityOf(a[0]) in Identities(b) && IdentityOf(b[0]) in Identities(a);
    var q :| q in b && IdentityOf(q) == IdentityOf(a[0]);
    var p :| p in a && IdentityOf(p) == IdentityOf(b[0]);
    LeastFirst(a, p);
    LeastFirst(b, q);
    IdentityKey(q, a[0]);
    IdentityKey(p, b[0]);
    KeyBelowAntisymmetric(ByVersion(a[0]), ByVersion(b[0]));
    SameKey(a, p);
  }

  lemma NoneLeft(a: seq<Package>)
    ensures a == [] <==> Identities(a) == {}
  {
    if a != [] { assert IdentityOf(a[0]) in Identities(a); }
  }

  lemma {:induction false} SameListed(a: seq<Package>, b: seq<Package>)
    requires Ordered(a) && Ordered(b) && Identities(a) == Identities(b)
    ensures ClosureIdentity(a) == ClosureIdentity(b)
  {
    hide IdentityOf, Ordered, Identities;
    NoneLeft(a);
    NoneLeft(b);
    if a != [] {
      SameHead(a, b);
      TailOrdered(a);
      TailOrdered(b);
      TailIdentities(a);
      TailIdentities(b);
      SameListed(a[1..], b[1..]);
      assert ClosureIdentity(a) == [IdentityOf(a[0])] + ClosureIdentity(a[1..]);
      assert ClosureIdentity(b) == [IdentityOf(b[0])] + ClosureIdentity(b[1..]);
    }
  }

  lemma ListedIdentities(a: seq<Package>)
    ensures Identities(a) == set d | d in ClosureIdentity(a)
  {
    forall d ensures d in Identities(a) <==> d in ClosureIdentity(a) {
      if d in Identities(a) {
        var i :| 0 <= i < |a| && IdentityOf(a[i]) == d;
        assert ClosureIdentity(a)[i] == d;
      }
    }
  }

  /** Comparing the ordered lists is comparing the closures as sets of identities. */
  lemma SameClosureExactly(a: seq<Package>, b: seq<Package>)
    requires Ordered(a) && Ordered(b)
    ensures ClosureIdentity(a) == ClosureIdentity(b) <==> Identities(a) == Identities(b)
  {
    ListedIdentities(a);
    ListedIdentities(b);
    if Identities(a) == Identities(b) { SameListed(a, b); }
  }

  /** No two different rows give the same repository, name and version. */
  ghost predicate OneReading(reading: Reading, rows: seq<Row>)
    requires AllGood(reading, rows)
  {
    forall row, other | row in rows && other in rows ::
      ByVersion(PackageOf(reading, row)) == ByVersion(PackageOf(reading, other)) ==> row == other
  }

  /** The order of the printed rows does not matter while no key has two readings. */
  lemma RowOrderIrrelevant(reading: Reading, rows: seq<Row>, others: seq<Row>, a: seq<Package>, b: seq<Package>)
    requires AllGood(reading, rows) && AllGood(reading, others) && forall row :: row in rows <==> row in others
    requires OneReading(reading, rows)
    requires Firsts(reading, rows, a) && IsSorted(a, ByVersion) && Firsts(reading, others, b) && IsSorted(b, ByVersion)
    ensures ClosureIdentity(a) == ClosureIdentity(b)
  {
    hide IdentityOf;
    AllRead(reading, rows, a);
    AllRead(reading, others, b);
    forall d ensures d in Identities(a) <==> d in Identities(b) {
      if d in Identities(a) { var p :| p in a && IdentityOf(p) == d; assert p in b; }
      if d in Identities(b) { var p :| p in b && IdentityOf(p) == d; assert p in a; }
    }
    SameListed(a, b);
  }

  /** With one reading per key, every row is kept. */
  lemma AllRead(reading: Reading, rows: seq<Row>, ps: seq<Package>)
    requires AllGood(reading, rows) && Firsts(reading, rows, ps)
    requires OneReading(reading, rows)
    ensures forall p :: p in ps <==> exists row :: row in rows && PackageOf(reading, row) == p
  {
    hide GoodRow, PackageOf, ByVersion;
    forall row | row in rows ensures PackageOf(reading, row) in ps {
      var i := EarliestOf(rows, row);
      forall j | 0 <= j < i ensures ByVersion(PackageOf(reading, rows[j])) != ByVersion(PackageOf(reading, rows[i])) {
        assert rows[j] in rows && rows[i] in rows;
      }
      assert FirstAt(reading, rows, i);
    }
    forall p | p in ps ensures exists row :: row in rows && PackageOf(reading, row) == p {
      var i :| 0 <= i < |rows| && PackageOf(reading, rows[i]) == p && FirstAt(reading, rows, i);
      assert rows[i] in rows;
    }
  }

  ghost function EarliestOf(rows: seq<Row>, row: Row): (i: nat)
    requires row in rows
    ensures i < |rows| && rows[i] == row && forall j :: 0 <= j < i ==> rows[j] != row
  {
    if rows[0] == row then 0 else 1 + EarliestOf(rows[1..], row)
  }
}
