/** The persistent package cache as the closure code sees it: directory entries whose contents are
    looked at only through their SHA-256, so an entry carries the digest in place of its bytes. */
module PackageCache {
  import opened Results
  import opened Errors
  import opened Ordering
  import opened Packages

  datatype Target = Missing | ToFile(sha256: string) | ToDirectory

  /** A name in the cache directory: a regular file, a directory or a link. */
  datatype Entry = File(sha256: string) | Directory | Link(target: Target)

  type Entries = map<string, Entry>

  /** Path.is_file and Path.exists follow links; Path.is_symlink does not. */
  predicate IsFile(e: Entries, n: string) { n in e && (e[n].File? || (e[n].Link? && e[n].target.ToFile?)) }

  predicate Exists(e: Entries, n: string) { n in e && !(e[n].Link? && e[n].target.Missing?) }

  function Digest(e: Entries, n: string): string
    requires IsFile(e, n)
  {
    if e[n].File? then e[n].sha256 else e[n].target.sha256
  }

  /** What acquisition calls verified: links are followed. */
  predicate Verified(e: Entries, p: Package) {
    IsFile(e, p.filename) && Digest(e, p.filename) == p.sha256
  }

  /** What the audit reuses: a regular file only. */
  predicate Reusable(e: Entries, p: Package) {
    p.filename in e && e[p.filename] == File(p.sha256)
  }

  function VerifiedNames(e: Entries, ps: seq<Package>): set<string> {
    set p | p in ps && Verified(e, p) :: p.filename
  }

  predicate Blocked(e: Entries, n: string) { n in e && e[n].Directory? }

  /** later is earlier with some names removed and nothing else changed. */
  ghost predicate Shrunk(earlier: Entries, later: Entries) {
    later.Keys <= earlier.Keys && forall n :: n in later ==> later[n] == earlier[n]
  }

  /** names lists, once each, exactly the entries that went away. */
  ghost predicate Removed(earlier: Entries, later: Entries, names: seq<string>) {
    && Shrunk(earlier, later)
    && NoDuplicates(names)
    && forall n :: n in names <==> n in earlier && n !in later
  }

  lemma RemovedThen(a: Entries, b: Entries, c: Entries, first: seq<string>, second: seq<string>)
    requires Removed(a, b, first) && Removed(b, c, second)
    ensures Removed(a, c, first + second)
  {
    forall i, j | 0 <= i < j < |first + second| ensures (first + second)[i] != (first + second)[j] {
      if i < |first| <= j {
        assert first[i] in first && second[j - |first|] in second;
      }
    }
    forall n ensures n in first + second <==> n in a && n !in c {
      assert n in first + second <==> n in first || n in second;
    }
  }

  lemma RemovedSorted(a: Entries, b: Entries, names: seq<string>)
    requires Removed(a, b, names)
    ensures Removed(a, b, Sort(names, Itself)) && IsSorted(Sort(names, Itself), Itself)
  {
    SortMembers(names, Itself);
    SortNoDuplicates(names, Itself);
    SortIsSorted(names, Itself);
  }

  function Touched(p: Package): set<string> { {p.filename} + SideFiles(p.filename) }

  lemma SuffixCancels(a: string, b: string, suffix: string)
    requires a + suffix == b + suffix
    ensures a == b
  {
    assert a == (a + suffix)[..|a|] && b == (b + suffix)[..|b|];
  }

  lemma TouchedDisjoint(p: Package, q: Package)
    requires p.filename != q.filename
    requires p.filename !in SideFiles(q.filename) && q.filename !in SideFiles(p.filename)
    ensures Touched(p) !! Touched(q)
  {
    var a, b := p.filename, q.filename;
    if Sig(a) == Sig(b) { SuffixCancels(a, b, ".sig"); }
    if Part(a) == Part(b) { SuffixCancels(a, b, ".part"); }
    if SigPart(a) == SigPart(b) { SuffixCancels(a, b, ".sig.part"); }
    assert Sig(a)[|Sig(a)| - 1] == 'g' && Sig(b)[|Sig(b)| - 1] == 'g';
    assert Part(a)[|Part(a)| - 1] == 't' && Part(b)[|Part(b)| - 1] == 't';
    assert SigPart(a)[|SigPart(a)| - 1] == 't' && SigPart(b)[|SigPart(b)| - 1] == 't';
    assert SigPart(a) == Part(Sig(a)) && SigPart(b) == Part(Sig(b));
    if SigPart(a) == Part(b) { SuffixCancels(Sig(a), b, ".part"); }
    if Part(a) == SigPart(b) { SuffixCancels(a, Sig(b), ".part"); }
  }

  /** In filename order nothing visited later can name an earlier archive as its side file. */
  lemma LaterSparesEarlier(s: seq<Package>, i: nat, j: nat)
    requires i < j < |s| && IsSorted(s, ByFilename) && s[i].filename != s[j].filename
    ensures s[i].filename !in Touched(s[j])
  {
    var f := s[j].filename;
    assert KeyBelow(ByFilename(s[i]), ByFilename(s[j]));
    SuffixIsLater(f, ".sig");
    SuffixIsLater(f, ".part");
    SuffixIsLater(f, ".sig.part");
  }

  // ---- what one audit visit and one attempt clean-up take away ----

  predicate Corrupt(e: Entries, p: Package) { IsFile(e, p.filename) && Digest(e, p.filename) != p.sha256 }

  function Present(e: Entries, n: string): set<string> { if n in e then {n} else {} }

  function Existing(e: Entries, n: string): set<string> { if Exists(e, n) then {n} else {} }

  /** What the clean-up after a fetch removes on behalf of p. */
  function Litter(e: Entries, p: Package): set<string> { ArchiveLitter(e, p) + PartialLitter(e, p.filename) }

  function ArchiveLitter(e: Entries, p: Package): set<string> {
    if Corrupt(e, p) then {p.filename} + Existing(e, Sig(p.filename)) else {}
  }

  function PartialLitter(e: Entries, n: string): set<string> { Existing(e, Part(n)) + Existing(e, SigPart(n)) }

  /** What the audit removes on behalf of p. */
  function ArchiveSwept(e: Entries, p: Package): set<string> {
    if Reusable(e, p) then {} else Present(e, p.filename)
  }

  function Swept(e: Entries, p: Package): set<string> {
    ArchiveSwept(e, p)
    + (if Reusable(e, p) && p.signatureSha256.None? then {} else Present(e, Sig(p.filename)))
    + Present(e, Part(p.filename)) + Present(e, SigPart(p.filename))
  }

  /** A directory sits where a side file of p would be unlinked. */
  predicate SideBlocked(e: Entries, p: Package) {
    Blocked(e, Sig(p.filename)) || Blocked(e, Part(p.filename)) || Blocked(e, SigPart(p.filename))
  }

  predicate AuditBlocked(e: Entries, p: Package) {
    || Blocked(e, p.filename)
    || (Blocked(e, Sig(p.filename)) && !(Reusable(e, p) && p.signatureSha256.None?))
    || Blocked(e, Part(p.filename))
    || Blocked(e, SigPart(p.filename))
  }

  /** Nothing is left for an audit to do. */
  ghost predicate Settled(e: Entries, ps: seq<Package>) {
    forall p :: p in ps ==> Swept(e, p) == {}
  }

  lemma NamesApart(n: string)
    ensures n != Sig(n) && n != Part(n) && n != SigPart(n)
    ensures Sig(n) != Part(n) && Sig(n) != SigPart(n) && Part(n) != SigPart(n)
  {
    assert |Sig(n)| == |n| + 4 && |Part(n)| == |n| + 5 && |SigPart(n)| == |n| + 9;
  }

  lemma VisitComposes(e0: Entries, e1: Entries, e2: Entries, e3: Entries, p: Package)
    requires e1 == e0 - ArchiveSwept(e0, p)
    requires e2 == e1 - if Reusable(e0, p) && p.signatureSha256.None? then {} else Present(e1, Sig(p.filename))
    requires e3 == e2 - Present(e2, Part(p.filename)) - Present(e2, SigPart(p.filename))
    ensures e3 == e0 - Swept(e0, p) && Shrunk(e0, e3)
  {
    NamesApart(p.filename);
  }

  /** A visit that stops at the partial files. */
  lemma VisitStops(e0: Entries, e1: Entries, e2: Entries, e3: Entries, p: Package)
    requires e1 == e0 - ArchiveSwept(e0, p)
    requires e2 == e1 - if Reusable(e0, p) && p.signatureSha256.None? then {} else Present(e1, Sig(p.filename))
    requires Shrunk(e2, e3) && e2.Keys - e3.Keys <= {Part(p.filename), SigPart(p.filename)}
    ensures Shrunk(e0, e3) && e0.Keys - e3.Keys <= Swept(e0, p)
  {
    hide Sig, Part, SigPart;
    forall n | n in e0.Keys - e3.Keys ensures n in Swept(e0, p) {
      if n in e2 {
        assert n in e2.Keys - e3.Keys;
      } else if n in e1 {
        assert n == Sig(p.filename);
      }
    }
  }

  /** A visit that stops before the partial files. */
  lemma VisitStopsEarly(e0: Entries, e1: Entries, p: Package)
    requires e1 == e0 - ArchiveSwept(e0, p)
    ensures Shrunk(e0, e1) && e0.Keys - e1.Keys <= Swept(e0, p)
    ensures Blocked(e0, p.filename) ==> AuditHaltAt(e0, p) == Some(SpecialEntry(ARCHIVE, p.filename))
    ensures !Blocked(e0, p.filename) && Blocked(e1, Sig(p.filename)) && !(Reusable(e0, p) && p.signatureSha256.None?) ==>
      AuditHaltAt(e0, p) ==
        Some(SpecialEntry(if Reusable(e0, p) then REDUNDANT_SIGNATURE else STALE_SIGNATURE, Sig(p.filename)))
  {
    NamesApart(p.filename);
  }

  /** Cleaning the archive first leaves the partial files as they were. */
  lemma ArchiveFirst(e: Entries, p: Package)
    ensures PartialLitter(e - ArchiveLitter(e, p), p.filename) == PartialLitter(e, p.filename)
    ensures Blocked(e - ArchiveLitter(e, p), Part(p.filename)) <==> Blocked(e, Part(p.filename))
    ensures Blocked(e - ArchiveLitter(e, p), SigPart(p.filename)) <==> Blocked(e, SigPart(p.filename))
  {
    NamesApart(p.filename);
  }

  lemma NothingSwept(e: Entries)
    ensures Shrunk(e, e) && e.Keys - e.Keys == {}
  {
  }

  /** What the stages of a visit have listed is what the visit lists. */
  lemma VisitLists(e0: Entries, e1: Entries, e2: Entries, p: Package, corrupt: seq<string>, partial: seq<string>, detached: seq<string>)
    requires e1 == e0 - ArchiveSwept(e0, p)
    requires e2 == e1 - if Reusable(e0, p) && p.signatureSha256.None? then {} else Present(e1, Sig(p.filename))
    requires var f, valid := p.filename, Reusable(e0, p);
      var signature := if valid && p.signatureSha256.None? then [] else Listed(e1, Sig(f));
      && corrupt == (if valid then [] else Listed(e0, f)) + (if !valid && f in e0 then signature else [])
      && detached == (if !valid && f in e0 then [] else signature)
      && partial == Listed(e2, Part(f)) + Listed(e2, SigPart(f))
    ensures VisitOf(e0, p) == Visit(Reusable(e0, p), corrupt, partial, detached)
  {
    NamesApart(p.filename);
  }

  /** Archive and signature out of the way, the partial files are as they were. */
  lemma PartialsAsBefore(e0: Entries, e1: Entries, e2: Entries, p: Package)
    requires !Blocked(e0, p.filename) && e1 == e0 - ArchiveSwept(e0, p)
    requires e2 == e1 - if Reusable(e0, p) && p.signatureSha256.None? then {} else Present(e1, Sig(p.filename))
    requires !(Reusable(e0, p) && p.signatureSha256.None?) ==> !Blocked(e1, Sig(p.filename))
    ensures AuditHaltAt(e0, p) ==
      if Blocked(e2, Part(p.filename)) then Some(SpecialEntry(STALE_PARTIAL, Part(p.filename)))
      else if Blocked(e2, SigPart(p.filename)) then Some(SpecialEntry(STALE_PARTIAL, SigPart(p.filename)))
      else None
  {
    NamesApart(p.filename);
  }

  /** Every removed entry was litter of one of the packages. */
  ghost predicate LitterOnly(before: Entries, after: Entries, ps: seq<Package>) {
    forall n :: n in before && n !in after ==> exists p :: p in ps && n in Litter(before, p)
  }

  lemma LitterOnlyPrefix(before: Entries, after: Entries, ps: seq<Package>, i: nat)
    requires i <= |ps| && LitterOnly(before, after, ps[..i])
    ensures LitterOnly(before, after, ps)
  {
    forall n | n in before && n !in after ensures exists p :: p in ps && n in Litter(before, p) {
      var p :| p in ps[..i] && n in Litter(before, p);
      assert p in ps;
    }
  }

  /** No corrupt archive and no partial file is left for any of the packages. */
  ghost predicate Cleaned(e: Entries, ps: seq<Package>) {
    forall p :: p in ps ==> !Corrupt(e, p) && !Exists(e, Part(p.filename)) && !Exists(e, SigPart(p.filename))
  }

  ghost predicate LitterGone(before: Entries, after: Entries, ps: seq<Package>) {
    forall p, n :: p in ps && n in Litter(before, p) ==> n !in after
  }

  lemma LitterOnlyStep(e0: Entries, e1: Entries, e2: Entries, ps: seq<Package>, p: Package)
    requires Shrunk(e0, e1) && Shrunk(e1, e2)
    requires LitterOnly(e0, e1, ps) && e1.Keys - e2.Keys <= Litter(e1, p)
    ensures LitterOnly(e0, e2, ps + [p])
  {
    LitterShrinks(e0, e1, p);
    forall n | n in e0 && n !in e2 ensures exists q :: q in ps + [p] && n in Litter(e0, q) {
      if n in e1 {
        assert n in e1.Keys - e2.Keys && p in ps + [p];
      } else {
        var q :| q in ps && n in Litter(e0, q);
        assert q in ps + [p];
      }
    }
  }

  lemma CleanedStep(e1: Entries, e2: Entries, ps: seq<Package>, p: Package)
    requires Cleaned(e1, ps) && Shrunk(e1, e2) && e2 == e1 - Litter(e1, p)
    ensures Cleaned(e2, ps + [p])
  {
    assert !Corrupt(e2, p) by { assert Corrupt(e1, p) ==> p.filename in Litter(e1, p); }
    assert Exists(e1, Part(p.filename)) ==> Part(p.filename) in Litter(e1, p);
    assert Exists(e1, SigPart(p.filename)) ==> SigPart(p.filename) in Litter(e1, p);
    forall q | q in ps + [p]
      ensures !Corrupt(e2, q) && !Exists(e2, Part(q.filename)) && !Exists(e2, SigPart(q.filename))
    {
      if q != p { assert q in ps; }
    }
  }

  /** With no suffix collision the archive of p is still as it was when its turn comes. */
  lemma LitterGoneStep(e0: Entries, e1: Entries, e2: Entries, all: seq<Package>, ps: seq<Package>, p: Package)
    requires SuffixFree(all) && p in all && forall q :: q in ps ==> q in all && q.filename != p.filename
    requires Shrunk(e0, e1) && LitterOnly(e0, e1, ps) && LitterGone(e0, e1, ps)
    requires e2 == e1 - Litter(e1, p)
    ensures LitterGone(e0, e2, ps + [p])
  {
    forall n | n in Touched(p) && n in e0 ensures n in e1 {
      LitterElsewhere(e0, e1, all, ps, p, n);
    }
    LitterSame(e0, e1, p);
    LitterGoneExtend(e0, e1, e2, ps, p);
  }

  lemma LitterTouches(e: Entries, p: Package)
    ensures Litter(e, p) <= Touched(p)
  {
  }

  lemma ClosureTouches(all: seq<Package>, p: Package, q: Package)
    requires SuffixFree(all) && p in all && q in all && p.filename != q.filename
    ensures Touched(p) !! Touched(q)
  {
    TouchedDisjoint(p, q);
  }

  lemma LitterElsewhere(e0: Entries, e1: Entries, all: seq<Package>, ps: seq<Package>, p: Package, n: string)
    requires SuffixFree(all) && p in all && forall q :: q in ps ==> q in all && q.filename != p.filename
    requires LitterOnly(e0, e1, ps) && n in Touched(p) && n in e0
    ensures n in e1
  {
    if n !in e1 {
      var q :| q in ps && n in Litter(e0, q);
      LitterTouches(e0, q);
      ClosureTouches(all, p, q);
    }
  }

  lemma LitterSame(e0: Entries, e1: Entries, p: Package)
    requires Shrunk(e0, e1) && forall n :: n in Touched(p) && n in e0 ==> n in e1
    ensures Litter(e1, p) == Litter(e0, p)
  {
    var f := p.filename;
    assert f in Touched(p) && Sig(f) in Touched(p) && Part(f) in Touched(p) && SigPart(f) in Touched(p);
    assert Existing(e1, Sig(f)) == Existing(e0, Sig(f));
    assert PartialLitter(e1, f) == PartialLitter(e0, f);
  }

  lemma LitterGoneExtend(e0: Entries, e1: Entries, e2: Entries, ps: seq<Package>, p: Package)
    requires Shrunk(e0, e1) && LitterGone(e0, e1, ps)
    requires Litter(e1, p) == Litter(e0, p) && e2 == e1 - Litter(e1, p)
    ensures LitterGone(e0, e2, ps + [p])
  {
    forall q, n | q in ps + [p] && n in Litter(e0, q) ensures n !in e2 {
      if q != p { assert q in ps; }
    }
  }

  lemma LitterShrinks(earlier: Entries, later: Entries, p: Package)
    requires Shrunk(earlier, later)
    ensures Litter(later, p) <= Litter(earlier, p)
  {
  }

  // ---- where a visit stops ----

  /** A name that occurs twice, an entry the audit refuses to remove under a label, or a directory that was to be
      unlinked. */
  datatype CacheError = DuplicateName(name: string) | SpecialEntry(what: string, name: string) | IsDirectory(name: string)

  function CacheText(dir: string, e: CacheError): Error { Plain(CacheWords(dir, e)) }

  /** What they say, for a cache in directory dir. */
  function CacheWords(dir: string, e: CacheError): string {
    match e
    case DuplicateName(n) => "duplicate package filename in frozen closure: " + n
    case SpecialEntry(what, n) => "unexpected directory or special entry at " + what + ": " + dir + "/" + n
    case IsDirectory(n) => "[Errno 21] Is a directory: '" + dir + "/" + n + "'"
  }

  const ARCHIVE := "package cache archive"

  const STALE_SIGNATURE := "stale package cache signature"

  const REDUNDANT_SIGNATURE := "redundant package cache signature"

  const STALE_PARTIAL := "stale package cache partial"

  const RETRY_SIGNATURE := "package cache retry signature"

  /** The directory the clean-up for p tries to unlink. */
  function CleanHaltAt(e: Entries, p: Package): Option<string> {
    var f := p.filename;
    if Corrupt(e, p) && Blocked(e, Sig(f)) then Some(Sig(f))
    else if Blocked(e, Part(f)) then Some(Part(f))
    else if Blocked(e, SigPart(f)) then Some(SigPart(f))
    else None
  }

  /** The first one in a clean-up that takes the packages in turn. */
  function CleanHalt(e: Entries, ps: seq<Package>): Option<string> {
    if ps == [] then None
    else if CleanHaltAt(e, ps[0]).Some? then CleanHaltAt(e, ps[0])
    else CleanHalt(e - Litter(e, ps[0]), ps[1..])
  }

  /** The first signature that is a directory. */
  function SignatureHalt(e: Entries, ps: seq<Package>): Option<string> {
    if ps == [] then None
    else if Blocked(e, Sig(ps[0].filename)) then Some(Sig(ps[0].filename))
    else SignatureHalt(e, ps[1..])
  }

  /** The entry the audit refuses to remove for p. */
  function AuditHaltAt(e: Entries, p: Package): Option<CacheError> {
    var f := p.filename;
    if Blocked(e, f) then Some(SpecialEntry(ARCHIVE, f))
    else if !Reusable(e, p) && Blocked(e, Sig(f)) then Some(SpecialEntry(STALE_SIGNATURE, Sig(f)))
    else if Reusable(e, p) && p.signatureSha256.Some? && Blocked(e, Sig(f)) then Some(SpecialEntry(REDUNDANT_SIGNATURE, Sig(f)))
    else if Blocked(e, Part(f)) then Some(SpecialEntry(STALE_PARTIAL, Part(f)))
    else if Blocked(e, SigPart(f)) then Some(SpecialEntry(STALE_PARTIAL, SigPart(f)))
    else None
  }

  lemma AuditHaltsBlocked(e: Entries, p: Package)
    ensures AuditHaltAt(e, p).Some? <==> AuditBlocked(e, p)
  {
  }

  /** What stops the clean-up was in its way from the start. */
  lemma {:induction false} CleanHaltBlocked(e: Entries, ps: seq<Package>)
    requires CleanHalt(e, ps).Some?
    ensures exists p :: p in ps && CleanHaltAt(e, p).Some? && SideBlocked(e, p)
  {
    if CleanHaltAt(e, ps[0]).Some? {
      assert ps[0] in ps;
    } else {
      var later := e - Litter(e, ps[0]);
      CleanHaltBlocked(later, ps[1..]);
      var p :| p in ps[1..] && CleanHaltAt(later, p).Some? && SideBlocked(later, p);
      HaltsEarlier(e, later, p);
      assert p in ps;
    }
  }

  /** Without directories no clean-up stops. */
  lemma NothingInTheWay(e: Entries, ps: seq<Package>)
    requires forall n :: !Blocked(e, n)
    ensures CleanHalt(e, ps).None? && SignatureHalt(e, ps).None?
  {
    hide CleanHalt, SignatureHalt, CleanHaltAt;
    if CleanHalt(e, ps).Some? { CleanHaltBlocked(e, ps); }
    SignatureHaltsExactly(e, ps);
  }

  lemma HaltsEarlier(e: Entries, later: Entries, p: Package)
    requires Shrunk(e, later) && CleanHaltAt(later, p).Some?
    ensures CleanHaltAt(e, p).Some? && SideBlocked(e, p)
  {
  }

  /** With distinct names none of which is another's side file, the clean-up stops exactly when one of the packages
      has a directory in its way at the start. */
  lemma {:induction false} CleanHaltsExactly(all: seq<Package>, e: Entries, ps: seq<Package>)
    requires SuffixFree(all) && DistinctNames(ps) && forall p :: p in ps ==> p in all
    ensures CleanHalt(e, ps).Some? <==> exists p :: p in ps && CleanHaltAt(e, p).Some?
  {
    if CleanHalt(e, ps).Some? { CleanHaltBlocked(e, ps); }
    if p :| p in ps && CleanHaltAt(e, p).Some? {
      if CleanHaltAt(e, ps[0]).None? {
        var later := e - Litter(e, ps[0]);
        assert ps == [ps[0]] + ps[1..];
        CleanHaltsExactly(all, later, ps[1..]);
        HaltsLater(all, e, ps[0], p);
      }
    }
  }

  lemma HaltsLater(all: seq<Package>, e: Entries, q: Package, p: Package)
    requires SuffixFree(all) && p in all && q in all && p.filename != q.filename && CleanHaltAt(e, p).Some?
    ensures CleanHaltAt(e - Litter(e, q), p).Some?
  {
    var f := p.filename;
    ClosureTouches(all, p, q);
    LitterTouches(e, q);
    assert f in Touched(p) && Sig(f) in Touched(p) && Part(f) in Touched(p) && SigPart(f) in Touched(p);
  }

  lemma {:induction false} SignatureHaltsExactly(e: Entries, ps: seq<Package>)
    ensures SignatureHalt(e, ps).Some? <==> exists p :: p in ps && Blocked(e, Sig(p.filename))
  {
    if ps != [] {
      SignatureHaltsExactly(e, ps[1..]);
      assert ps == [ps[0]] + ps[1..];
    }
  }

  lemma {:induction false} SignatureHaltSame(e: Entries, later: Entries, ps: seq<Package>)
    requires Shrunk(e, later) && forall n :: Blocked(e, n) ==> n in later
    ensures SignatureHalt(later, ps) == SignatureHalt(e, ps)
  {
    if ps != [] { SignatureHaltSame(e, later, ps[1..]); }
  }

  datatype Visit = Visit(valid: bool, corrupt: seq<string>, partial: seq<string>, detached: seq<string>)

  function Listed(e: Entries, n: string): seq<string> { if n in e then [n] else [] }

  /** Which entry removed for p is reported under which heading. */
  function VisitOf(e: Entries, p: Package): Visit {
    var f := p.filename;
    var valid := Reusable(e, p);
    Visit(
      valid,
      if valid || f !in e then [] else [f] + Listed(e, Sig(f)),
      Listed(e, Part(f)) + Listed(e, SigPart(f)),
      if (if valid then p.signatureSha256.Some? else f !in e) then Listed(e, Sig(f)) else [])
  }

  class Cache {
    var entries: Entries

    constructor (initial: Entries)
      ensures entries == initial
    {
      entries := initial;
    }

    /** Path.unlink on an existing entry; refused for a directory. */
    method Unlink(n: string) returns (r: Result<seq<string>, CacheError>)
      requires n in entries
      modifies this
      ensures r.Failure? <==> Blocked(old(entries), n)
      ensures r.Failure? ==> r.error == IsDirectory(n) && entries == old(entries)
      ensures r.Success? ==> r.value == [n] && entries == old(entries) - {n}
    {
      if entries[n].Directory? { return Failure(IsDirectory(n)); }
      entries := entries - {n};
      return Success([n]);
    }

    /** Removes a file or link if there is one; the result lists what was removed. */
    method RemoveCacheEntry(n: string, what: string) returns (r: Result<seq<string>, CacheError>)
      modifies this
      ensures r.Failure? <==> Blocked(old(entries), n)
      ensures r.Failure? ==> r.error == SpecialEntry(what, n) && entries == old(entries)
      ensures r.Success? ==> entries == old(entries) - {n}
      ensures r.Success? ==> r.value == if n in old(entries) then [n] else []
    {
      if n in entries && !entries[n].Directory? {
        r := Unlink(n);
      } else if Exists(entries, n) {
        return Failure(SpecialEntry(what, n));
      } else {
        return Success([]);
      }
    }

    /** `if path.exists(): path.unlink()`: a broken link is left alone. */
    method UnlinkIfExists(n: string) returns (r: Result<seq<string>, CacheError>)
      modifies this
      ensures r.Failure? <==> Blocked(old(entries), n)
      ensures r.Failure? ==> r.error == IsDirectory(n) && entries == old(entries)
      ensures r.Success? ==> entries == if Exists(old(entries), n) then old(entries) - {n} else old(entries)
      ensures r.Success? ==> r.value == if Exists(old(entries), n) then [n] else []
    {
      if Exists(entries, n) {
        r := Unlink(n);
      } else {
        return Success([]);
      }
    }

    method VerifiedCachedFilenames(ps: seq<Package>) returns (names: set<string>)
      ensures names == VerifiedNames(entries, ps)
    {
      names := {};
      for i := 0 to |ps|
        invariant names == VerifiedNames(entries, ps[..i])
      {
        assert ps[..i + 1] == ps[..i] + [ps[i]];
        if IsFile(entries, ps[i].filename) && Digest(entries, ps[i].filename) == ps[i].sha256 {
          names := names + {ps[i].filename};
        }
      }
      assert ps[..|ps|] == ps;
    }

    /** Archive and signature of one package: removed when the archive does not match. */
    method CleanArchive(p: Package) returns (r: Result<seq<string>, CacheError>)
      modifies this
      ensures Shrunk(old(entries), entries)
      ensures old(entries).Keys - entries.Keys <= ArchiveLitter(old(entries), p)
      ensures r.Success? ==> entries == old(entries) - ArchiveLitter(old(entries), p)
      ensures r.Success? ==> Removed(old(entries), entries, r.value)
      ensures r.Failure? <==> Corrupt(old(entries), p) && Blocked(old(entries), Sig(p.filename))
      ensures r.Failure? ==> r.error == IsDirectory(Sig(p.filename))
    {
      NamesApart(p.filename);
      var f := p.filename;
      if !IsFile(entries, f) || Digest(entries, f) == p.sha256 { return Success([]); }
      var archive := Unlink(f);
      var signature :- UnlinkIfExists(Sig(f));
      return Success(archive.value + signature);
    }

    method CleanPartials(n: string) returns (r: Result<seq<string>, CacheError>)
      modifies this
      ensures Shrunk(old(entries), entries)
      ensures old(entries).Keys - entries.Keys <= PartialLitter(old(entries), n)
      ensures r.Success? ==> entries == old(entries) - PartialLitter(old(entries), n)
      ensures r.Success? ==> Removed(old(entries), entries, r.value)
      ensures r.Failure? <==> Blocked(old(entries), Part(n)) || Blocked(old(entries), SigPart(n))
      ensures r.Failure? ==> r.error == IsDirectory(if Blocked(old(entries), Part(n)) then Part(n) else SigPart(n))
    {
      NamesApart(n);
      var partial :- UnlinkIfExists(Part(n));
      var signaturePartial :- UnlinkIfExists(SigPart(n));
      return Success(partial + signaturePartial);
    }

    /** One round of remove_unverified_attempt_files. */
    method CleanUnverified(p: Package) returns (r: Result<seq<string>, CacheError>)
      modifies this
      ensures Shrunk(old(entries), entries)
      ensures old(entries).Keys - entries.Keys <= Litter(old(entries), p)
      ensures r.Success? ==> entries == old(entries) - Litter(old(entries), p)
      ensures r.Success? ==> Removed(old(entries), entries, r.value)
      ensures r.Failure? <==> CleanHaltAt(old(entries), p).Some?
      ensures r.Failure? ==> r.error == IsDirectory(CleanHaltAt(old(entries), p).value)
    {
      hide ArchiveLitter, PartialLitter, Corrupt, Exists, Sig, Part, SigPart;
      ArchiveFirst(entries, p);
      var archive :- CleanArchive(p);
      ghost var middle := entries;
      var partial :- CleanPartials(p.filename);
      RemovedThen(old(entries), middle, entries, archive, partial);
      return Success(archive + partial);
    }

    method RemoveUnverifiedAttemptFiles(ps: seq<Package>) returns (r: Result<seq<string>, CacheError>)
      modifies this
      ensures Shrunk(old(entries), entries)
      ensures LitterOnly(old(entries), entries, ps)
      ensures r.Success? ==> Removed(old(entries), entries, r.value) && IsSorted(r.value, Itself)
      ensures r.Success? ==> Cleaned(entries, ps)
      ensures r.Success? && SuffixFree(ps) && DistinctNames(ps) ==> LitterGone(old(entries), entries, ps)
      ensures r.Failure? <==> CleanHalt(old(entries), ps).Some?
      ensures r.Failure? ==> r.error == IsDirectory(CleanHalt(old(entries), ps).value)
    {
      hide CleanHaltAt, ArchiveLitter, PartialLitter, Corrupt, Exists, Sig, Part, SigPart;
      var removed: seq<string> := [];
      assert ps[0..] == ps;
      for i := 0 to |ps|
        invariant CleanHalt(old(entries), ps) == CleanHalt(entries, ps[i..])
        invariant Removed(old(entries), entries, removed)
        invariant LitterOnly(old(entries), entries, ps[..i])
        invariant Cleaned(entries, ps[..i])
        invariant SuffixFree(ps) && DistinctNames(ps) ==> LitterGone(old(entries), entries, ps[..i])
      {
        ghost var before := entries;
        var one := CleanUnverified(ps[i]);
        assert ps[..i + 1] == ps[..i] + [ps[i]];
        assert ps[i..][0] == ps[i] && ps[i..][1..] == ps[i + 1..];
        LitterOnlyStep(old(entries), before, entries, ps[..i], ps[i]);
        if one.Failure? {
          LitterOnlyPrefix(old(entries), entries, ps, i + 1);
          return Failure(one.error);
        }
        RemovedThen(old(entries), before, entries, removed, one.value);
        CleanedStep(before, entries, ps[..i], ps[i]);
        if SuffixFree(ps) && DistinctNames(ps) {
          LitterGoneStep(old(entries), before, entries, ps, ps[..i], ps[i]);
        }
        removed := removed + one.value;
      }
      assert ps[..|ps|] == ps;
      RemovedSorted(old(entries), entries, removed);
      return Success(Sort(removed, Itself));
    }

    method RemoveDetachedSignaturesForRetry(ps: seq<Package>) returns (r: Result<seq<string>, CacheError>)
      modifies this
      ensures Shrunk(old(entries), entries)
      ensures forall n :: n in old(entries) && n !in entries ==> exists p :: p in ps && n == Sig(p.filename)
      ensures r.Success? ==> forall p :: p in ps ==> Sig(p.filename) !in entries
      ensures r.Success? ==> Removed(old(entries), entries, r.value) && IsSorted(r.value, Itself)
      ensures r.Failure? <==> SignatureHalt(old(entries), ps).Some?
      ensures r.Failure? ==> r.error == SpecialEntry(RETRY_SIGNATURE, SignatureHalt(old(entries), ps).value)
    {
      var removed: seq<string> := [];
      assert ps[0..] == ps;
      for i := 0 to |ps|
        invariant SignatureHalt(old(entries), ps) == SignatureHalt(entries, ps[i..])
        invariant Removed(old(entries), entries, removed)
        invariant forall n :: n in old(entries) && n !in entries ==> exists p :: p in ps[..i] && n == Sig(p.filename)
        invariant forall p :: p in ps[..i] ==> Sig(p.filename) !in entries
      {
        ghost var before := entries;
        var one := RemoveCacheEntry(Sig(ps[i].filename), RETRY_SIGNATURE);
        assert ps[..i + 1] == ps[..i] + [ps[i]];
        assert ps[i..][0] == ps[i] && ps[i..][1..] == ps[i + 1..];
        if one.Failure? { return Failure(one.error); }
        SignatureHaltSame(before, entries, ps[i + 1..]);
        RemovedThen(old(entries), before, entries, removed, one.value);
        removed := removed + one.value;
      }
      assert ps[..|ps|] == ps;
      RemovedSorted(old(entries), entries, removed);
      return Success(Sort(removed, Itself));
    }

    /** Archive stage of the audit: a valid archive stays, anything else there is removed. */
    method VisitArchive(p: Package) returns (valid: bool, r: Result<seq<string>, CacheError>)
      modifies this
      ensures valid == Reusable(old(entries), p)
      ensures r.Failure? <==> Blocked(old(entries), p.filename)
      ensures r.Failure? ==> r.error == SpecialEntry(ARCHIVE, p.filename) && entries == old(entries)
      ensures r.Success? ==> entries == old(entries) - ArchiveSwept(old(entries), p)
      ensures r.Success? ==> r.value == if valid then [] else Listed(old(entries), p.filename)
    {
      var f := p.filename;
      valid, r := false, Success([]);
      if f in entries {
        if entries[f].Link? || !IsFile(entries, f) {
          r := RemoveCacheEntry(f, ARCHIVE);
        } else if Digest(entries, f) == p.sha256 {
          valid := true;
        } else {
          r := RemoveCacheEntry(f, ARCHIVE);
        }
      }
    }

    method VisitPartials(n: string) returns (r: Result<seq<string>, CacheError>)
      modifies this
      ensures Shrunk(old(entries), entries)
      ensures old(entries).Keys - entries.Keys <= {Part(n), SigPart(n)}
      ensures r.Failure? <==> Blocked(old(entries), Part(n)) || Blocked(old(entries), SigPart(n))
      ensures r.Failure? ==> r.error == SpecialEntry(STALE_PARTIAL, if Blocked(old(entries), Part(n)) then Part(n) else SigPart(n))
      ensures r.Success? ==> entries == old(entries) - Present(old(entries), Part(n)) - Present(old(entries), SigPart(n))
      ensures r.Success? ==> r.value == Listed(old(entries), Part(n)) + Listed(old(entries), SigPart(n))
    {
      var partial :- RemoveCacheEntry(Part(n), STALE_PARTIAL);
      var signaturePartial :- RemoveCacheEntry(SigPart(n), STALE_PARTIAL);
      return Success(partial + signaturePartial);
    }

    /** The body of the audit loop for one package. */
    method VisitPackage(p: Package) returns (r: Result<Visit, CacheError>)
      modifies this
      ensures Shrunk(old(entries), entries)
      ensures old(entries).Keys - entries.Keys <= Swept(old(entries), p)
      ensures AuditHaltAt(old(entries), p) == if r.Failure? then Some(r.error) else None
      ensures r.Success? ==> entries == old(entries) - Swept(old(entries), p)
      ensures r.Success? ==> r.value == VisitOf(old(entries), p)
    {
      hide Swept, AuditHaltAt, ArchiveSwept, Shrunk, VisitOf, Sig, Part, SigPart;
      var f := p.filename;
      ghost var e0 := entries;
      var archivePresent := f in entries;
      NamesApart(f);
      var valid, archive := VisitArchive(p);
      if archive.Failure? {
        VisitStopsEarly(e0, e0 - ArchiveSwept(e0, p), p);
        NothingSwept(e0);
        return Failure(archive.error);
      }
      var corrupt := archive.value;
      ghost var e1 := entries;
      VisitStopsEarly(e0, e1, p);
      var signature: Result<seq<string>, CacheError> := Success([]);
      if !valid {
        signature := RemoveCacheEntry(Sig(f), STALE_SIGNATURE);
      } else if p.signatureSha256.Some? {
        signature := RemoveCacheEntry(Sig(f), REDUNDANT_SIGNATURE);
      }
      if signature.Failure? { return Failure(signature.error); }
      var detached := [];
      if !valid && archivePresent { corrupt := corrupt + signature.value; } else { detached := signature.value; }
      ghost var e2 := entries;
      var partial := VisitPartials(f);
      VisitStops(e0, e1, e2, entries, p);
      PartialsAsBefore(e0, e1, e2, p);
      if partial.Failure? { return Failure(partial.error); }
      VisitComposes(e0, e1, e2, entries, p);
      VisitLists(e0, e1, e2, p, corrupt, partial.value, detached);
      return Success(Visit(valid, corrupt, partial.value, detached));
    }
  }
}
