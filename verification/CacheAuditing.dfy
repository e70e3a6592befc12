/** The audit of the persistent cache against one frozen closure: which archives are reused, which
    are pending, and exactly which entries are removed on the way. */
module CacheAuditing {
  import opened Results
  import opened Ordering
  import opened Packages
  import opened PackageCache

  datatype CacheAudit = CacheAudit(
    resolvedCount: nat,
    reusedCount: nat,
    reused: seq<string>,
    pendingCount: nat,
    pending: seq<string>,
    corruptRemoved: seq<string>,
    partialRemoved: seq<string>,
    detachedRemoved: seq<string>)

  function ReusableNames(e: Entries, ps: seq<Package>): set<string> {
    set p | p in ps && Reusable(e, p) :: p.filename
  }

  /** Names the audit clears for p, given whether p is reused. */
  ghost function Scope(e: Entries, p: Package): set<string> {
    (if Reusable(e, p) then {} else {p.filename})
    + (if Reusable(e, p) && p.signatureSha256.None? then {} else {Sig(p.filename)})
    + {Part(p.filename), SigPart(p.filename)}
  }

  lemma SweptIsScope(e: Entries, p: Package)
    ensures Swept(e, p) == Scope(e, p) * e.Keys
  {
  }

  /** Every removed entry is in the scope of a closure package. */
  ghost predicate ScopeOnly(before: Entries, after: Entries, ps: seq<Package>) {
    forall n :: n in before && n !in after ==> exists p :: p in ps && n in Scope(after, p)
  }

  /** The two name lists split ps by what e lets the next build reuse. */
  ghost predicate Split(e: Entries, ps: seq<Package>, reused: seq<string>, pending: seq<string>) {
    && NoDuplicates(reused) && NoDuplicates(pending)
    && IsSorted(reused, Itself) && IsSorted(pending, Itself)
    && (forall n :: n in reused <==> n in ReusableNames(e, ps))
    && (forall n :: n in pending <==> n in NameSet(ps) && n !in ReusableNames(e, ps))
  }

  /** Which kind of name may stand under which heading. */
  ghost predicate Headed(ps: seq<Package>, corrupt: seq<string>, partial: seq<string>, detached: seq<string>) {
    && (forall n :: n in corrupt ==> exists p :: p in ps && (n == p.filename || n == Sig(p.filename)))
    && (forall n :: n in partial ==> exists p :: p in ps && (n == Part(p.filename) || n == SigPart(p.filename)))
    && (forall n :: n in detached ==> exists p :: p in ps && n == Sig(p.filename))
  }

  /** Exact effect of a completed audit, whatever collisions the closure contains. */
  ghost predicate Audited(before: Entries, after: Entries, ps: seq<Package>, a: CacheAudit) {
    match a
    case CacheAudit(resolvedCount, reusedCount, reused, pendingCount, pending, corrupt, partial, detached) =>
      && resolvedCount == |ps| && reusedCount == |reused| && pendingCount == |pending|
      && Split(after, ps, reused, pending)
      && Headed(ps, corrupt, partial, detached)
      && Removed(before, after, corrupt + partial + detached)
      && ScopeOnly(before, after, ps)
      && Settled(after, ps)
  }

  /** With no suffix collision each archive is decided on its state before the audit. */
  ghost predicate DecidedBefore(before: Entries, after: Entries, p: Package, corrupt: seq<string>, detached: seq<string>) {
    && (Reusable(after, p) <==> Reusable(before, p))
    && (p.filename in corrupt <==> p.filename in before && !Reusable(before, p))
    && (Sig(p.filename) in corrupt <==> Sig(p.filename) in before && p.filename in before && !Reusable(before, p))
    && (Sig(p.filename) in detached <==> Sig(p.filename) in before && DetachedCase(before, p))
  }

  predicate DetachedCase(e: Entries, p: Package) {
    if Reusable(e, p) then p.signatureSha256.Some? else p.filename !in e
  }

  predicate AnyBlocked(e: Entries, p: Package) { Blocked(e, p.filename) || SideBlocked(e, p) }

  // ---- what the audit stops at ----

  /** The first name that repeats or entry that may not be removed, with s visited in turn. */
  function AuditHalt(e: Entries, s: seq<Package>, seen: set<string>): Option<CacheError> {
    if s == [] then None
    else if s[0].filename in seen then Some(DuplicateName(s[0].filename))
    else if AuditHaltAt(e, s[0]).Some? then AuditHaltAt(e, s[0])
    else AuditHalt(e - Swept(e, s[0]), s[1..], seen + {s[0].filename})
  }

  function FirstHalt(e: Entries, s: seq<Package>): Option<CacheError> {
    if s == [] then None else if AuditHaltAt(e, s[0]).Some? then AuditHaltAt(e, s[0]) else FirstHalt(e, s[1..])
  }

  lemma HaltUntouched(all: seq<Package>, e: Entries, q: Package, p: Package)
    requires SuffixFree(all) && p in all && q in all && p.filename != q.filename
    ensures AuditHaltAt(e - Swept(e, q), p) == AuditHaltAt(e, p)
  {
    var f := p.filename;
    ScopeTouches(e, q);
    ClosureTouches(all, p, q);
    assert f in Touched(p) && Sig(f) in Touched(p) && Part(f) in Touched(p) && SigPart(f) in Touched(p);
  }

  lemma {:induction false} HaltsUntouched(all: seq<Package>, e: Entries, q: Package, s: seq<Package>)
    requires SuffixFree(all) && q in all && forall p :: p in s ==> p in all && p.filename != q.filename
    ensures FirstHalt(e - Swept(e, q), s) == FirstHalt(e, s)
  {
    hide SuffixFree, Swept, AuditHaltAt;
    if s != [] {
      HaltUntouched(all, e, q, s[0]);
      HaltsUntouched(all, e, q, s[1..]);
    }
  }

  /** With distinct names none of which is another's side file, the audit stops at the first package, in the
      order it visits them, with something in its way at the start. */
  lemma {:induction false} AuditHaltsFirst(all: seq<Package>, e: Entries, s: seq<Package>, seen: set<string>)
    requires SuffixFree(all) && DistinctNames(s) && forall p :: p in s ==> p in all && p.filename !in seen
    ensures AuditHalt(e, s, seen) == FirstHalt(e, s)
  {
    hide SuffixFree, Swept, AuditHaltAt;
    if s != [] {
      forall p | p in s[1..] ensures p in all && p.filename != s[0].filename {
        var k :| 1 <= k < |s| && s[k] == p;
      }
      HaltsUntouched(all, e, s[0], s[1..]);
      AuditHaltsFirst(all, e - Swept(e, s[0]), s[1..], seen + {s[0].filename});
    }
  }

  // ---- one visit extends each of the facts ----

  ghost predicate StillReusable(e1: Entries, e2: Entries, ps: seq<Package>) {
    forall p :: p in ps && Reusable(e1, p) ==> Reusable(e2, p)
  }

  /** Visiting s[i] leaves the archives visited before it alone: the order is by filename. */
  lemma EarlierSpared(s: seq<Package>, i: nat, e1: Entries, e2: Entries)
    requires i < |s| && IsSorted(s, ByFilename) && s[i].filename !in NameSet(s[..i])
    requires Shrunk(e1, e2) && e2 == e1 - Swept(e1, s[i])
    ensures StillReusable(e1, e2, s[..i])
  {
    SweptIsScope(e1, s[i]);
    forall p | p in s[..i] && Reusable(e1, p) ensures Reusable(e2, p) {
      var k :| 0 <= k < i && s[k] == p;
      assert s[k].filename in NameSet(s[..i]);
      LaterSparesEarlier(s, k, i);
      assert p.filename !in Scope(e1, s[i]);
    }
  }

  lemma ReusableStays(e1: Entries, e2: Entries, ps: seq<Package>)
    requires Shrunk(e1, e2) && StillReusable(e1, e2, ps)
    ensures ReusableNames(e2, ps) == ReusableNames(e1, ps)
  {
    forall n ensures n in ReusableNames(e2, ps) <==> n in ReusableNames(e1, ps) {
      if n in ReusableNames(e2, ps) {
        var p :| p in ps && Reusable(e2, p) && p.filename == n;
        assert Reusable(e1, p);
      }
      if n in ReusableNames(e1, ps) {
        var p :| p in ps && Reusable(e1, p) && p.filename == n;
        assert Reusable(e2, p);
      }
    }
  }

  lemma SettledStep(e1: Entries, e2: Entries, ps: seq<Package>, p: Package)
    requires Settled(e1, ps) && Shrunk(e1, e2) && StillReusable(e1, e2, ps)
    requires e2 == e1 - Swept(e1, p)
    ensures Settled(e2, ps + [p])
  {
    hide Swept, Scope, Reusable;
    forall q | q in ps + [p] ensures Swept(e2, q) == {} {
      if q in ps { StaysSettled(e1, e2, q); } else { SettledNow(e1, e2, p); }
    }
  }

  lemma StaysSettled(e1: Entries, e2: Entries, q: Package)
    requires Swept(e1, q) == {} && Shrunk(e1, e2) && (Reusable(e1, q) ==> Reusable(e2, q))
    ensures Swept(e2, q) == {}
  {
    SweptIsScope(e1, q);
    SweptIsScope(e2, q);
    assert Scope(e2, q) == Scope(e1, q);
  }

  lemma SettledNow(e1: Entries, e2: Entries, p: Package)
    requires e2 == e1 - Swept(e1, p)
    ensures Swept(e2, p) == {}
  {
    SweptIsScope(e1, p);
    SweptIsScope(e2, p);
    VisitDecides(e1, e2, p);
    assert Scope(e2, p) == Scope(e1, p);
  }

  lemma VisitDecides(e1: Entries, e2: Entries, p: Package)
    requires e2 == e1 - Swept(e1, p)
    ensures Reusable(e2, p) <==> Reusable(e1, p)
  {
    NamesApart(p.filename);
    SweptIsScope(e1, p);
  }

  lemma ScopeOnlyStep(e0: Entries, e1: Entries, e2: Entries, ps: seq<Package>, p: Package)
    requires Shrunk(e0, e1) && Shrunk(e1, e2) && ScopeOnly(e0, e1, ps) && StillReusable(e1, e2, ps)
    requires e2 == e1 - Swept(e1, p)
    ensures ScopeOnly(e0, e2, ps + [p])
  {
    forall n | n in e0 && n !in e2 ensures exists q :: q in ps + [p] && n in Scope(e2, q) {
      if n in e1 {
        SweptIsScope(e1, p);
        VisitDecides(e1, e2, p);
        assert p in ps + [p] && n in Scope(e2, p);
      } else {
        var q :| q in ps && n in Scope(e1, q);
        assert Reusable(e2, q) <==> Reusable(e1, q);
        assert q in ps + [p] && n in Scope(e2, q);
      }
    }
  }

  lemma AppendSorted(names: seq<string>, n: string)
    requires IsSorted(names, Itself) && NoDuplicates(names) && n !in names
    requires forall m :: m in names ==> Below(m, n)
    ensures IsSorted(names + [n], Itself) && NoDuplicates(names + [n])
  {
    forall i, j | 0 <= i < j < |names + [n]|
      ensures KeyBelow(Itself((names + [n])[i]), Itself((names + [n])[j]))
    {
      if j == |names| { assert names[i] in names; }
    }
  }

  lemma NamesUpTo(s: seq<Package>, i: nat)
    requires i < |s| && IsSorted(s, ByFilename)
    ensures forall n :: n in NameSet(s[..i]) ==> Below(n, s[i].filename)
    ensures NameSet(s[..i] + [s[i]]) == NameSet(s[..i]) + {s[i].filename}
  {
    forall n | n in NameSet(s[..i]) ensures Below(n, s[i].filename) {
      var k :| 0 <= k < i && s[k].filename == n;
      assert KeyBelow(ByFilename(s[k]), ByFilename(s[i]));
      BelowRefl(n);
    }
    assert s[i] in s[..i] + [s[i]];
  }

  lemma ReusableExtend(e: Entries, ps: seq<Package>, p: Package)
    ensures ReusableNames(e, ps + [p]) == ReusableNames(e, ps) + if Reusable(e, p) then {p.filename} else {}
  {
    assert p in ps + [p];
    forall n | n in ReusableNames(e, ps) ensures n in ReusableNames(e, ps + [p]) {
      var q :| q in ps && Reusable(e, q) && q.filename == n;
      assert q in ps + [p];
    }
  }

  lemma SplitStep(s: seq<Package>, i: nat, e1: Entries, e2: Entries, reused: seq<string>, pending: seq<string>)
    requires i < |s| && IsSorted(s, ByFilename) && s[i].filename !in NameSet(s[..i])
    requires Split(e1, s[..i], reused, pending)
    requires Shrunk(e1, e2) && e2 == e1 - Swept(e1, s[i])
    ensures Reusable(e1, s[i]) ==> Split(e2, s[..i] + [s[i]], reused + [s[i].filename], pending)
    ensures !Reusable(e1, s[i]) ==> Split(e2, s[..i] + [s[i]], reused, pending + [s[i].filename])
  {
    var p, ps := s[i], s[..i];
    EarlierSpared(s, i, e1, e2);
    ReusableStays(e1, e2, ps);
    ReusableExtend(e2, ps, p);
    VisitDecides(e1, e2, p);
    NamesUpTo(s, i);
    assert ReusableNames(e1, ps) <= NameSet(ps);
    if Reusable(e1, p) { AppendSorted(reused, p.filename); } else { AppendSorted(pending, p.filename); }
  }

  lemma HeadedStep(e: Entries, ps: seq<Package>, p: Package, corrupt: seq<string>, partial: seq<string>, detached: seq<string>)
    requires Headed(ps, corrupt, partial, detached)
    ensures var v := VisitOf(e, p);
      Headed(ps + [p], corrupt + v.corrupt, partial + v.partial, detached + v.detached)
  {
    var v := VisitOf(e, p);
    assert forall q :: q in ps ==> q in ps + [p];
    assert p in ps + [p];
    forall n | n in corrupt + v.corrupt ensures exists q :: q in ps + [p] && (n == q.filename || n == Sig(q.filename)) {
      if n in corrupt { var q :| q in ps && (n == q.filename || n == Sig(q.filename)); assert q in ps + [p]; }
    }
    forall n | n in partial + v.partial ensures exists q :: q in ps + [p] && (n == Part(q.filename) || n == SigPart(q.filename)) {
      if n in partial { var q :| q in ps && (n == Part(q.filename) || n == SigPart(q.filename)); assert q in ps + [p]; }
    }
    forall n | n in detached + v.detached ensures exists q :: q in ps + [p] && n == Sig(q.filename) {
      if n in detached { var q :| q in ps && n == Sig(q.filename); assert q in ps + [p]; }
    }
  }

  function Taken(e: Entries, n: string, really: bool): seq<string> { if really then Listed(e, n) else [] }

  function Off(e: Entries, n: string, really: bool): Entries { if really then e - {n} else e }

  lemma TakenRemoved(e: Entries, n: string, really: bool)
    ensures Removed(e, Off(e, n, really), Taken(e, n, really))
  {
  }

  lemma TwoTaken(e: Entries, a: string, b: string, takeA: bool, takeB: bool)
    requires a != b
    ensures Removed(e, Off(Off(e, a, takeA), b, takeB), Taken(e, a, takeA) + Taken(e, b, takeB))
  {
    TakenRemoved(e, a, takeA);
    TakenRemoved(Off(e, a, takeA), b, takeB);
    RemovedThen(e, Off(e, a, takeA), Off(Off(e, a, takeA), b, takeB), Taken(e, a, takeA), Taken(e, b, takeB));
  }

  /** Clearing four different names lists each of them that was there. */
  lemma FourTaken(e: Entries, a: string, b: string, c: string, d: string, takeA: bool, takeB: bool)
    requires a != b && a != c && a != d && b != c && b != d && c != d
    ensures Removed(e, Off(Off(e, a, takeA), b, takeB) - {c} - {d},
      Taken(e, a, takeA) + Taken(e, b, takeB) + (Listed(e, c) + Listed(e, d)))
  {
    var middle := Off(Off(e, a, takeA), b, takeB);
    TwoTaken(e, a, b, takeA, takeB);
    TwoTaken(middle, c, d, true, true);
    assert Listed(middle, c) == Listed(e, c) && Listed(middle, d) == Listed(e, d);
    RemovedThen(e, middle, middle - {c} - {d}, Taken(e, a, takeA) + Taken(e, b, takeB), Listed(middle, c) + Listed(middle, d));
  }

  lemma SweptOff(e: Entries, a: string, b: string, c: string, d: string, takeA: bool, takeB: bool)
    ensures e - ((if takeA then Present(e, a) else {}) + (if takeB then Present(e, b) else {})
                 + Present(e, c) + Present(e, d))
      == Off(Off(e, a, takeA), b, takeB) - {c} - {d}
  {
  }

  /** The lists of one visit name exactly what it removed. */
  lemma VisitListsRemoved(e1: Entries, e2: Entries, p: Package)
    requires Shrunk(e1, e2) && e2 == e1 - Swept(e1, p)
    ensures var v := VisitOf(e1, p); Removed(e1, e2, v.corrupt + v.partial + v.detached)
  {
    var f, v := p.filename, VisitOf(e1, p);
    var takeA, takeB := !Reusable(e1, p), !(Reusable(e1, p) && p.signatureSha256.None?);
    NamesApart(f);
    FourTaken(e1, f, Sig(f), Part(f), SigPart(f), takeA, takeB);
    SweptOff(e1, f, Sig(f), Part(f), SigPart(f), takeA, takeB);
    VisitHeadings(e1, p);
    PermutedRemoved(e1, e2,
      Taken(e1, f, takeA) + Taken(e1, Sig(f), takeB) + (Listed(e1, Part(f)) + Listed(e1, SigPart(f))),
      v.corrupt + v.partial + v.detached);
  }

  lemma VisitHeadings(e: Entries, p: Package)
    ensures var f, v := p.filename, VisitOf(e, p);
      multiset(v.corrupt + v.partial + v.detached) ==
      multiset(Taken(e, f, !Reusable(e, p))
        + Taken(e, Sig(f), !(Reusable(e, p) && p.signatureSha256.None?))
        + (Listed(e, Part(f)) + Listed(e, SigPart(f))))
  {
  }

  lemma RemovedStep(e0: Entries, e1: Entries, e2: Entries, p: Package,
                    corrupt: seq<string>, partial: seq<string>, detached: seq<string>)
    requires Removed(e0, e1, corrupt + partial + detached)
    requires Shrunk(e1, e2) && e2 == e1 - Swept(e1, p)
    ensures var v := VisitOf(e1, p);
      Removed(e0, e2, (corrupt + v.corrupt) + (partial + v.partial) + (detached + v.detached))
  {
    var v := VisitOf(e1, p);
    VisitListsRemoved(e1, e2, p);
    var a := (corrupt + partial + detached) + (v.corrupt + v.partial + v.detached);
    var b := (corrupt + v.corrupt) + (partial + v.partial) + (detached + v.detached);
    RemovedThen(e0, e1, e2, corrupt + partial + detached, v.corrupt + v.partial + v.detached);
    assert multiset(a) == multiset(b);
    PermutedRemoved(e0, e2, a, b);
  }

  lemma PermutedRemoved(e0: Entries, e2: Entries, a: seq<string>, b: seq<string>)
    requires Removed(e0, e2, a) && multiset(a) == multiset(b)
    ensures Removed(e0, e2, b)
  {
    PermutedNoDuplicates(a, b);
    forall n ensures n in b <==> n in a {
      assert n in b <==> n in multiset(b);
      assert n in a <==> n in multiset(a);
    }
  }

  // ---- what holds besides when no closure name is a side file of another ----

  /** Every name the audit may still clear for the rest of the closure is as it was at the start. */
  ghost predicate Untouched(e0: Entries, e: Entries, rest: seq<Package>) {
    forall p, n :: p in rest && n in Touched(p) && n in e0 ==> n in e
  }

  ghost predicate AllDecided(e0: Entries, e: Entries, ps: seq<Package>, corrupt: seq<string>, detached: seq<string>) {
    forall p :: p in ps ==> DecidedBefore(e0, e, p, corrupt, detached)
  }

  lemma ScopeTouches(e: Entries, p: Package)
    ensures Scope(e, p) <= Touched(p) && Swept(e, p) <= Touched(p)
  {
  }

  lemma UntouchedStep(e0: Entries, e1: Entries, e2: Entries, all: seq<Package>, p: Package, rest: seq<Package>)
    requires SuffixFree(all) && p in all && forall q :: q in rest ==> q in all && q.filename != p.filename
    requires Untouched(e0, e1, [p] + rest) && e2 == e1 - Swept(e1, p)
    ensures Untouched(e0, e2, rest)
  {
    ScopeTouches(e1, p);
    forall q, n | q in rest && n in Touched(q) && n in e0 ensures n in e2 {
      assert q in [p] + rest;
      ClosureTouches(all, p, q);
    }
  }

  lemma VisitSameState(e0: Entries, e1: Entries, p: Package, rest: seq<Package>)
    requires Shrunk(e0, e1) && Untouched(e0, e1, [p] + rest)
    ensures VisitOf(e1, p) == VisitOf(e0, p) && (Reusable(e1, p) <==> Reusable(e0, p))
    ensures AuditBlocked(e1, p) <==> AuditBlocked(e0, p)
  {
    var f := p.filename;
    assert p in [p] + rest;
    assert f in Touched(p) && Sig(f) in Touched(p) && Part(f) in Touched(p) && SigPart(f) in Touched(p);
  }

  lemma DecidedNow(e0: Entries, e1: Entries, e2: Entries, p: Package, rest: seq<Package>,
                   corrupt: seq<string>, partial: seq<string>, detached: seq<string>)
    requires Removed(e0, e1, corrupt + partial + detached)
    requires Untouched(e0, e1, [p] + rest) && e2 == e1 - Swept(e1, p)
    ensures DecidedBefore(e0, e2, p, corrupt + VisitOf(e1, p).corrupt, detached + VisitOf(e1, p).detached)
  {
    var f := p.filename;
    NamesApart(f);
    VisitDecides(e1, e2, p);
    VisitSameState(e0, e1, p, rest);
    assert p in [p] + rest && f in Touched(p) && Sig(f) in Touched(p);
    assert forall n :: n in corrupt || n in detached ==> n in corrupt + partial + detached;
    assert f !in corrupt && Sig(f) !in corrupt && Sig(f) !in detached;
  }

  lemma DecidedLater(e0: Entries, e1: Entries, e2: Entries, all: seq<Package>, q: Package, p: Package,
                     corrupt: seq<string>, detached: seq<string>)
    requires SuffixFree(all) && p in all && q in all && q.filename != p.filename
    requires DecidedBefore(e0, e1, q, corrupt, detached)
    requires Reusable(e2, q) <==> Reusable(e1, q)
    ensures DecidedBefore(e0, e2, q, corrupt + VisitOf(e1, p).corrupt, detached + VisitOf(e1, p).detached)
  {
    var f, v := q.filename, VisitOf(e1, p);
    ClosureTouches(all, p, q);
    assert f in Touched(q) && Sig(f) in Touched(q);
    VisitListsTouch(e1, p);
    assert f !in v.corrupt && Sig(f) !in v.corrupt && Sig(f) !in v.detached;
  }

  lemma VisitListsTouch(e: Entries, p: Package)
    ensures forall n :: n in VisitOf(e, p).corrupt || n in VisitOf(e, p).detached ==> n in Touched(p)
  {
  }

  lemma AllDecidedStep(e0: Entries, e1: Entries, e2: Entries, all: seq<Package>, ps: seq<Package>, p: Package,
                       rest: seq<Package>, corrupt: seq<string>, partial: seq<string>, detached: seq<string>)
    requires SuffixFree(all) && p in all && forall q :: q in ps ==> q in all && q.filename != p.filename
    requires AllDecided(e0, e1, ps, corrupt, detached)
    requires Removed(e0, e1, corrupt + partial + detached) && Untouched(e0, e1, [p] + rest)
    requires Shrunk(e1, e2) && e2 == e1 - Swept(e1, p) && StillReusable(e1, e2, ps)
    ensures AllDecided(e0, e2, ps + [p], corrupt + VisitOf(e1, p).corrupt, detached + VisitOf(e1, p).detached)
  {
    DecidedNow(e0, e1, e2, p, rest, corrupt, partial, detached);
    forall q | q in ps
      ensures DecidedBefore(e0, e2, q, corrupt + VisitOf(e1, p).corrupt, detached + VisitOf(e1, p).detached)
    {
      assert Reusable(e2, q) ==> Reusable(e1, q);
      DecidedLater(e0, e1, e2, all, q, p, corrupt, detached);
    }
  }

  lemma BlockedAtStart(e0: Entries, e: Entries, p: Package)
    requires Shrunk(e0, e) && AuditBlocked(e, p)
    ensures AnyBlocked(e0, p)
  {
  }

  lemma IdleVisit(e: Entries, p: Package)
    requires Swept(e, p) == {}
    ensures !AuditBlocked(e, p) && e - Swept(e, p) == e
    ensures var v := VisitOf(e, p); v.corrupt == [] && v.partial == [] && v.detached == []
  {
    var f := p.filename;
    SweptIsScope(e, p);
    assert Part(f) in Scope(e, p) && SigPart(f) in Scope(e, p);
    assert !Reusable(e, p) ==> f in Scope(e, p);
    assert !(Reusable(e, p) && p.signatureSha256.None?) ==> Sig(f) in Scope(e, p);
  }

  lemma SortedClosure(ps: seq<Package>, s: seq<Package>)
    requires s == Sort(ps, ByFilename)
    ensures IsSorted(s, ByFilename) && multiset(s) == multiset(ps)
    ensures forall p :: p in s <==> p in ps
    ensures NameSet(s) == NameSet(ps) && (DistinctNames(s) <==> DistinctNames(ps))
  {
    SortIsSorted(ps, ByFilename);
    SortMembers(ps, ByFilename);
    DistinctPermuted(s, ps);
  }

  /** The effects an audit has whatever the closure and the cache are like. */
  ghost predicate AuditOutcome(before: Entries, after: Entries, ps: seq<Package>, r: Result<CacheAudit, CacheError>) {
    match r
    case Success(a) => Shrunk(before, after) && DistinctNames(ps) && Audited(before, after, ps, a)
    case Failure(_) => Shrunk(before, after) && (!DistinctNames(ps) || exists p :: p in ps && AnyBlocked(before, p))
  }

  /** What a closure without suffix collisions adds: every decision is taken on the initial state. */
  ghost predicate DecidedAtStart(before: Entries, after: Entries, ps: seq<Package>, r: Result<CacheAudit, CacheError>) {
    match r
    case Success(a) =>
      (forall p :: p in ps ==> !AuditBlocked(before, p))
      && AllDecided(before, after, ps, a.corruptRemoved, a.detachedRemoved)
    case Failure(_) => (exists p :: p in ps && AuditBlocked(before, p)) && StillReusable(before, after, ps)
  }

  /** The lists the audit accumulates. */
  datatype Progress = Progress(
    reused: seq<string>, pending: seq<string>, corrupt: seq<string>, partial: seq<string>, detached: seq<string>)

  /** The audit has visited s[..i], the first i packages in filename order. */
  ghost predicate Visited(e0: Entries, e: Entries, all: seq<Package>, s: seq<Package>, i: nat, w: Progress) {
    match w
    case Progress(reused, pending, corrupt, partial, detached) =>
      && i <= |s|
      && Split(e, s[..i], reused, pending)
      && Headed(s[..i], corrupt, partial, detached)
      && Removed(e0, e, corrupt + partial + detached)
      && ScopeOnly(e0, e, s[..i])
      && Settled(e, s[..i])
      && DistinctNames(s[..i])
      && (SuffixFree(all) && DistinctNames(all) ==>
          && Untouched(e0, e, s[i..])
          && AllDecided(e0, e, s[..i], corrupt, detached)
          && forall p :: p in s[..i] ==> !AuditBlocked(e0, p))
      && (Settled(e0, all) ==> e == e0)
  }

  function Advance(w: Progress, n: string, v: Visit): Progress {
    Progress(
      if v.valid then w.reused + [n] else w.reused,
      if v.valid then w.pending else w.pending + [n],
      w.corrupt + v.corrupt, w.partial + v.partial, w.detached + v.detached)
  }

  /** One round of the audit loop keeps every fact. */
  lemma VisitedStep(e0: Entries, e1: Entries, e2: Entries, all: seq<Package>, s: seq<Package>, i: nat, w: Progress)
    requires i < |s| && s == Sort(all, ByFilename) && Visited(e0, e1, all, s, i, w)
    requires s[i].filename !in NameSet(s[..i])
    requires !AuditBlocked(e1, s[i]) && Shrunk(e1, e2) && e2 == e1 - Swept(e1, s[i])
    ensures Visited(e0, e2, all, s, i + 1, Advance(w, s[i].filename, VisitOf(e1, s[i])))
  {
    var p := s[i];
    SortedClosure(all, s);
    PrefixSplit(s, i);
    EarlierSpared(s, i, e1, e2);
    SplitStep(s, i, e1, e2, w.reused, w.pending);
    HeadedStep(e1, s[..i], p, w.corrupt, w.partial, w.detached);
    RemovedStep(e0, e1, e2, p, w.corrupt, w.partial, w.detached);
    ScopeOnlyStep(e0, e1, e2, s[..i], p);
    SettledStep(e1, e2, s[..i], p);
    PrefixDistinct(s, i);
    if SuffixFree(all) && DistinctNames(all) {
      VisitSameState(e0, e1, p, s[i + 1..]);
      UntouchedStep(e0, e1, e2, all, p, s[i + 1..]);
      AllDecidedStep(e0, e1, e2, all, s[..i], p, s[i + 1..], w.corrupt, w.partial, w.detached);
    }
    if Settled(e0, all) { IdleVisit(e0, p); }
  }

  lemma HeadedPermuted(s: seq<Package>, ps: seq<Package>, w: Progress)
    requires forall p :: p in s <==> p in ps
    requires Headed(s, w.corrupt, w.partial, w.detached)
    ensures Headed(ps, Sort(w.corrupt, Itself), Sort(w.partial, Itself), Sort(w.detached, Itself))
  {
    hide Sort, Itself, Sig, Part, SigPart;
    SortMembers(w.corrupt, Itself);
    SortMembers(w.partial, Itself);
    SortMembers(w.detached, Itself);
    forall n | n in w.corrupt ensures exists p :: p in ps && (n == p.filename || n == Sig(p.filename)) {
      var p :| p in s && (n == p.filename || n == Sig(p.filename));
      assert p in ps;
    }
    forall n | n in w.partial ensures exists p :: p in ps && (n == Part(p.filename) || n == SigPart(p.filename)) {
      var p :| p in s && (n == Part(p.filename) || n == SigPart(p.filename));
      assert p in ps;
    }
    forall n | n in w.detached ensures exists p :: p in ps && n == Sig(p.filename) {
      var p :| p in s && n == Sig(p.filename);
      assert p in ps;
    }
  }

  lemma ScopePermuted(e0: Entries, e: Entries, s: seq<Package>, ps: seq<Package>)
    requires (forall p :: p in s <==> p in ps) && ScopeOnly(e0, e, s)
    ensures ScopeOnly(e0, e, ps)
  {
    forall n | n in e0 && n !in e ensures exists p :: p in ps && n in Scope(e, p) {
      var p :| p in s && n in Scope(e, p);
      assert p in ps;
    }
  }

  lemma RemovedPermuted(e0: Entries, e: Entries, w: Progress)
    requires Removed(e0, e, w.corrupt + w.partial + w.detached)
    ensures Removed(e0, e, Sort(w.corrupt, Itself) + Sort(w.partial, Itself) + Sort(w.detached, Itself))
  {
    var all := Sort(w.corrupt, Itself) + Sort(w.partial, Itself) + Sort(w.detached, Itself);
    assert multiset(w.corrupt + w.partial + w.detached) == multiset(all);
    PermutedRemoved(e0, e, w.corrupt + w.partial + w.detached, all);
  }

  lemma DecidedSorted(e0: Entries, e: Entries, s: seq<Package>, ps: seq<Package>, corrupt: seq<string>, detached: seq<string>)
    requires (forall p :: p in s <==> p in ps) && AllDecided(e0, e, s, corrupt, detached)
    ensures AllDecided(e0, e, ps, Sort(corrupt, Itself), Sort(detached, Itself))
  {
    SortMembers(corrupt, Itself);
    SortMembers(detached, Itself);
    forall p | p in ps ensures DecidedBefore(e0, e, p, Sort(corrupt, Itself), Sort(detached, Itself)) {
      assert DecidedBefore(e0, e, p, corrupt, detached);
    }
  }

  function Report(count: nat, w: Progress): CacheAudit {
    CacheAudit(count, |w.reused|, w.reused, |w.pending|, w.pending,
               Sort(w.corrupt, Itself), Sort(w.partial, Itself), Sort(w.detached, Itself))
  }

  lemma SplitPermuted(e: Entries, s: seq<Package>, ps: seq<Package>, reused: seq<string>, pending: seq<string>)
    requires (forall p :: p in s <==> p in ps) && Split(e, s, reused, pending)
    ensures Split(e, ps, reused, pending)
  {
    assert ReusableNames(e, s) == ReusableNames(e, ps) && NameSet(s) == NameSet(ps);
  }

  /** Sorting the three removal lists and returning to closure order keeps every fact. */
  lemma VisitedAll(e0: Entries, e: Entries, ps: seq<Package>, s: seq<Package>, w: Progress)
    requires s == Sort(ps, ByFilename) && Visited(e0, e, ps, s, |s|, w)
    ensures AuditOutcome(e0, e, ps, Success(Report(|ps|, w)))
    ensures Settled(e0, ps) ==> e == e0
  {
    hide Sig, Part, SigPart, Scope, Swept, Shrunk, ReusableNames, NameSet, IsSorted, NoDuplicates;
    assert s[..|s|] == s;
    SortedClosure(ps, s);
    SplitPermuted(e, s, ps, w.reused, w.pending);
    HeadedPermuted(s, ps, w);
    RemovedPermuted(e0, e, w);
    ScopePermuted(e0, e, s, ps);
    assert Audited(e0, e, ps, Report(|ps|, w)) by {
      forall p | p in ps ensures Swept(e, p) == {} { assert p in s; }
    }
  }

  lemma DecidedAll(e0: Entries, e: Entries, ps: seq<Package>, s: seq<Package>, w: Progress)
    requires s == Sort(ps, ByFilename) && Visited(e0, e, ps, s, |s|, w)
    requires SuffixFree(ps) && DistinctNames(ps)
    ensures DecidedAtStart(e0, e, ps, Success(Report(|ps|, w)))
  {
    hide Split, Headed, Removed, ScopeOnly, Settled, Untouched, DecidedBefore, AuditBlocked, SuffixFree, DistinctNames, Sort;
    assert s[..|s|] == s;
    SortedClosure(ps, s);
    DecidedSorted(e0, e, s, ps, w.corrupt, w.detached);
  }

  lemma VisitedStart(e: Entries, all: seq<Package>, s: seq<Package>)
    ensures Visited(e, e, all, s, 0, Progress([], [], [], [], []))
  {
  }

  lemma DuplicateFound(e0: Entries, e: Entries, all: seq<Package>, s: seq<Package>, i: nat, w: Progress)
    requires i < |s| && s == Sort(all, ByFilename) && Visited(e0, e, all, s, i, w)
    requires s[i].filename in NameSet(s[..i])
    ensures AuditOutcome(e0, e, all, Failure(DuplicateName(s[i].filename))) && !DistinctNames(all)
  {
    SortedClosure(all, s);
    PrefixSplit(s, i);
  }

  lemma BlockedFails(e0: Entries, e1: Entries, e: Entries, all: seq<Package>, p: Package, error: CacheError)
    requires p in all && Shrunk(e0, e1) && Shrunk(e1, e) && AuditBlocked(e1, p)
    ensures AuditOutcome(e0, e, all, Failure(error))
  {
    BlockedAtStart(e0, e1, p);
    assert p in all && AnyBlocked(e0, p);
  }

  lemma BlockedDecides(e0: Entries, e1: Entries, e: Entries, all: seq<Package>, s: seq<Package>, i: nat, w: Progress, error: CacheError)
    requires i < |s| && s == Sort(all, ByFilename) && Visited(e0, e1, all, s, i, w) && SuffixFree(all) && DistinctNames(all)
    requires Shrunk(e0, e1) && Shrunk(e1, e) && e1.Keys - e.Keys <= Swept(e1, s[i]) && AuditBlocked(e1, s[i])
    ensures DecidedAtStart(e0, e, all, Failure(error))
  {
    hide SuffixFree, AuditBlocked, Reusable, Swept, DistinctNames, Visited;
    SortedClosure(all, s);
    StopDecides(e0, e1, all, s, i, w);
    forall q | q in all && Reusable(e0, q) ensures Reusable(e, q) {
      StillThere(e0, e1, all, s, i, w, q);
      StoppedSpares(e1, e, all, s[i], q);
    }
  }

  lemma StopDecides(e0: Entries, e1: Entries, all: seq<Package>, s: seq<Package>, i: nat, w: Progress)
    requires i < |s| && Visited(e0, e1, all, s, i, w) && SuffixFree(all) && DistinctNames(all)
    requires Shrunk(e0, e1) && AuditBlocked(e1, s[i])
    ensures AuditBlocked(e0, s[i])
  {
    hide Split, Headed, Removed, ScopeOnly, Settled, AllDecided, AuditBlocked, SuffixFree;
    PrefixSplit(s, i);
    VisitSameState(e0, e1, s[i], s[i + 1..]);
  }

  lemma StillThere(e0: Entries, e1: Entries, all: seq<Package>, s: seq<Package>, i: nat, w: Progress, q: Package)
    requires i < |s| && s == Sort(all, ByFilename) && Visited(e0, e1, all, s, i, w) && SuffixFree(all) && DistinctNames(all)
    requires Shrunk(e0, e1) && q in all && Reusable(e0, q)
    ensures Reusable(e1, q)
  {
    hide Split, Headed, Removed, ScopeOnly, Settled, AuditBlocked, SuffixFree, DistinctNames, Untouched, Shrunk, Reusable, Sort;
    SortedClosure(all, s);
    assert s == s[..i] + s[i..];
    if q in s[..i] {
      assert DecidedBefore(e0, e1, q, w.corrupt, w.detached);
    } else {
      UntouchedStill(e0, e1, s[i..], q);
    }
  }

  lemma UntouchedStill(e0: Entries, e1: Entries, rest: seq<Package>, q: Package)
    requires Untouched(e0, e1, rest) && Shrunk(e0, e1) && q in rest && Reusable(e0, q)
    ensures Reusable(e1, q)
  {
    assert q.filename in Touched(q);
  }

  /** A visit that stops part of the way spares what is reusable. */
  lemma StoppedSpares(e1: Entries, e: Entries, all: seq<Package>, p: Package, q: Package)
    requires SuffixFree(all) && DistinctNames(all) && p in all && q in all && Reusable(e1, q)
    requires Shrunk(e1, e) && e1.Keys - e.Keys <= Swept(e1, p)
    ensures Reusable(e, q)
  {
    ScopeTouches(e1, p);
    if q.filename == p.filename {
      SameName(all, p, q);
      NamesApart(p.filename);
    } else {
      ClosureTouches(all, p, q);
    }
    assert q.filename !in Swept(e1, p);
    assert q.filename in e1.Keys - e.Keys <==> q.filename !in e;
  }

  lemma VisitFails(e0: Entries, e1: Entries, e: Entries, all: seq<Package>, s: seq<Package>, i: nat, w: Progress, error: CacheError)
    requires i < |s| && s == Sort(all, ByFilename) && Visited(e0, e1, all, s, i, w)
    requires Shrunk(e1, e) && e1.Keys - e.Keys <= Swept(e1, s[i]) && AuditBlocked(e1, s[i])
    ensures AuditOutcome(e0, e, all, Failure(error))
    ensures SuffixFree(all) && DistinctNames(all) ==> DecidedAtStart(e0, e, all, Failure(error))
    ensures !Settled(e0, all)
  {
    hide AuditOutcome, DecidedAtStart, AuditBlocked, Split, Headed, ScopeOnly, AllDecided, Untouched, SuffixFree;
    SortedClosure(all, s);
    PrefixSplit(s, i);
    BlockedFails(e0, e1, e, all, s[i], error);
    if SuffixFree(all) && DistinctNames(all) { BlockedDecides(e0, e1, e, all, s, i, w, error); }
    if Settled(e0, all) { IdleVisit(e0, s[i]); }
  }

  method AuditPersistentPackageCache(cache: Cache, packages: seq<Package>) returns (r: Result<CacheAudit, CacheError>)
    modifies cache
    ensures AuditOutcome(old(cache.entries), cache.entries, packages, r)
    ensures AuditHalt(old(cache.entries), Sort(packages, ByFilename), {}) == if r.Failure? then Some(r.error) else None
    ensures SuffixFree(packages) && DistinctNames(packages) ==>
      DecidedAtStart(old(cache.entries), cache.entries, packages, r)
    // auditing what an audit left behind removes nothing
    ensures Settled(old(cache.entries), packages) && DistinctNames(packages) ==>
      r.Success? && cache.entries == old(cache.entries)
  {
    hide Visited, AuditOutcome, DecidedAtStart, SuffixFree, DistinctNames, Settled, Shrunk, VisitOf, Swept, AuditHaltAt, AuditBlocked;
    var w := Progress([], [], [], [], []);
    var expected: set<string> := {};
    var sorted := Sort(packages, ByFilename);
    SortedClosure(packages, sorted);
    VisitedStart(cache.entries, packages, sorted);
    assert sorted[0..] == sorted;
    for i := 0 to |sorted|
      invariant expected == NameSet(sorted[..i])
      invariant Visited(old(cache.entries), cache.entries, packages, sorted, i, w)
      invariant AuditHalt(old(cache.entries), sorted, {}) == AuditHalt(cache.entries, sorted[i..], expected)
    {
      var p := sorted[i];
      ghost var before := cache.entries;
      PrefixSplit(sorted, i);
      AuditHaltsBlocked(before, p);
      assert sorted[i..][0] == p && sorted[i..][1..] == sorted[i + 1..];
      if p.filename in expected {
        DuplicateFound(old(cache.entries), cache.entries, packages, sorted, i, w);
        return Failure(DuplicateName(p.filename));
      }
      expected := expected + {p.filename};
      NamesUpTo(sorted, i);
      var visit := cache.VisitPackage(p);
      if visit.Failure? {
        VisitFails(old(cache.entries), before, cache.entries, packages, sorted, i, w, visit.error);
        return Failure(visit.error);
      }
      VisitedStep(old(cache.entries), before, cache.entries, packages, sorted, i, w);
      w := Advance(w, p.filename, visit.value);
    }
    VisitedAll(old(cache.entries), cache.entries, packages, sorted, w);
    if SuffixFree(packages) && DistinctNames(packages) {
      DecidedAll(old(cache.entries), cache.entries, packages, sorted, w);
    }
    return Success(Report(|packages|, w));
  }

  lemma {:induction false} SameSortedList(a: seq<string>, b: seq<string>)
    requires IsSorted(a, Itself) && NoDuplicates(a) && IsSorted(b, Itself) && NoDuplicates(b)
    requires forall n :: n in a <==> n in b
    ensures a == b
  {
    if a == [] {
      NothingListed(b);
    } else {
      var x := a[|a| - 1];
      assert x in b;
      var y := b[|b| - 1];
      assert y in b && y in a;
      LastIsGreatest(a, y);
      LastIsGreatest(b, x);
      BelowAntisymmetric(x, y);
      var f, g := a[..|a| - 1], b[..|b| - 1];
      forall n ensures n in f <==> n in g {
        FrontMembers(a, n);
        FrontMembers(b, n);
      }
      SameSortedList(f, g);
      assert a == f + [x] && b == g + [y];
    }
  }

  lemma NothingListed(s: seq<string>)
    ensures s == [] || s[0] in s
  {
  }

  lemma LastIsGreatest(s: seq<string>, n: string)
    requires IsSorted(s, Itself) && n in s
    ensures Below(n, s[|s| - 1])
  {
    var i :| 0 <= i < |s| && s[i] == n;
    BelowRefl(n);
    if i < |s| - 1 { assert KeyBelow(Itself(s[i]), Itself(s[|s| - 1])); }
  }

  lemma FrontMembers(s: seq<string>, n: string)
    requires s != [] && NoDuplicates(s)
    ensures n in s[..|s| - 1] <==> n in s && n != s[|s| - 1]
  {
    assert s == s[..|s| - 1] + [s[|s| - 1]];
  }

  /** A second audit right after the first removes nothing and splits the closure the same way. */
  lemma SecondAuditAgrees(before: Entries, after: Entries, last: Entries, ps: seq<Package>, a: CacheAudit, b: CacheAudit)
    requires Audited(before, after, ps, a) && Audited(after, last, ps, b) && last == after
    ensures b.reused == a.reused && b.pending == a.pending
    ensures b.corruptRemoved == [] && b.partialRemoved == [] && b.detachedRemoved == []
  {
    SameSortedList(a.reused, b.reused);
    SameSortedList(a.pending, b.pending);
    NothingListed(b.corruptRemoved + b.partialRemoved + b.detachedRemoved);
  }
}
