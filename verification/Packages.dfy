/** Frozen package identities, selections of them by filename, and download sizes. */
module Packages {
  import opened Results

  datatype Package = Package(
    repository: string,
    name: string,
    version: string,
    filename: string,
    sha256: string,
    sizeBytes: nat,
    signatureSha256: Option<string>)

  /** The sort key of the cache audit and of the progress ledger. */
  function ByFilename(p: Package): seq<string> { [p.filename] }

  /** The sort key of batch planning. */
  function ByIdentity(p: Package): seq<string> { [p.repository, p.name, p.version, p.filename] }

  function Sig(n: string): string { n + ".sig" }

  function Part(n: string): string { n + ".part" }

  function SigPart(n: string): string { n + ".sig.part" }

  /** The side files the cache code derives from an archive name. */
  function SideFiles(n: string): set<string> { {Sig(n), Part(n), SigPart(n)} }

  /** No archive name of the closure is a side file of another one. */
  ghost predicate SuffixFree(ps: seq<Package>) {
    forall p, q :: p in ps && q in ps ==> p.filename !in SideFiles(q.filename)
  }

  function Names(ps: seq<Package>): (r: seq<string>)
    ensures |r| == |ps| && forall i :: 0 <= i < |ps| ==> r[i] == ps[i].filename
  {
    seq(|ps|, i requires 0 <= i < |ps| => ps[i].filename)
  }

  function NameSet(ps: seq<Package>): set<string> { set p | p in ps :: p.filename }

  predicate DistinctNames(ps: seq<Package>) {
    forall i, j :: 0 <= i < j < |ps| ==> ps[i].filename != ps[j].filename
  }

  function Bytes(ps: seq<Package>): nat {
    if ps == [] then 0 else ps[0].sizeBytes + Bytes(ps[1..])
  }

  /** The packages of ps whose filename is in keep, in the order of ps. */
  function Select(ps: seq<Package>, keep: set<string>): (r: seq<Package>)
    ensures forall p :: p in r <==> p in ps && p.filename in keep
    ensures |r| <= |ps|
  {
    if ps == [] then [] else (if ps[0].filename in keep then [ps[0]] else []) + Select(ps[1..], keep)
  }

  /** Download size of the packages of ps named in keep. */
  function BytesOf(ps: seq<Package>, keep: set<string>): nat { Bytes(Select(ps, keep)) }

  lemma NameSetHas(ps: seq<Package>, n: string)
    ensures n in NameSet(ps) <==> exists i :: 0 <= i < |ps| && ps[i].filename == n
  {
    if n in NameSet(ps) { var p :| p in ps && p.filename == n; }
  }

  /** With distinct names, a name stands for one package. */
  lemma SameName(ps: seq<Package>, p: Package, q: Package)
    requires DistinctNames(ps) && p in ps && q in ps && p.filename == q.filename
    ensures p == q
  {
  }

  lemma {:induction false} BytesConcat(a: seq<Package>, b: seq<Package>)
    ensures Bytes(a + b) == Bytes(a) + Bytes(b)
  {
    if a == [] {
      assert a + b == b;
    } else {
      assert (a + b)[1..] == a[1..] + b;
      BytesConcat(a[1..], b);
    }
  }

  lemma {:induction false} SelectDistinct(ps: seq<Package>, keep: set<string>)
    requires DistinctNames(ps)
    ensures DistinctNames(Select(ps, keep))
  {
    if ps != [] {
      SelectDistinct(ps[1..], keep);
      var t := Select(ps[1..], keep);
      forall j | 0 <= j < |t| ensures t[j].filename != ps[0].filename {
        assert t[j] in ps[1..];
      }
    }
  }

  lemma {:induction false} SelectAll(ps: seq<Package>, keep: set<string>)
    requires NameSet(ps) <= keep
    ensures Select(ps, keep) == ps
  {
    if ps != [] {
      assert ps[0].filename in NameSet(ps);
      assert NameSet(ps[1..]) <= NameSet(ps);
      SelectAll(ps[1..], keep);
    }
  }

  lemma {:induction false} SelectNone(ps: seq<Package>, keep: set<string>)
    requires NameSet(ps) !! keep
    ensures Select(ps, keep) == []
  {
    if ps != [] {
      assert ps[0].filename in NameSet(ps);
      assert NameSet(ps[1..]) <= NameSet(ps);
      SelectNone(ps[1..], keep);
    }
  }

  /** Selecting looks only at the part of keep that ps names. */
  lemma {:induction false} SelectSame(ps: seq<Package>, a: set<string>, b: set<string>)
    requires NameSet(ps) * a == NameSet(ps) * b
    ensures Select(ps, a) == Select(ps, b)
  {
    if ps != [] {
      var n := ps[0].filename;
      assert n in NameSet(ps);
      assert n in a <==> n in NameSet(ps) * a;
      assert n in b <==> n in NameSet(ps) * b;
      assert NameSet(ps[1..]) <= NameSet(ps);
      assert NameSet(ps[1..]) * a == NameSet(ps[1..]) * (NameSet(ps) * a);
      assert NameSet(ps[1..]) * b == NameSet(ps[1..]) * (NameSet(ps) * b);
      SelectSame(ps[1..], a, b);
    }
  }

  lemma SelectNameSet(ps: seq<Package>, keep: set<string>)
    ensures NameSet(Select(ps, keep)) == NameSet(ps) * keep
  {
    forall n | n in NameSet(ps) * keep ensures n in NameSet(Select(ps, keep)) {
      var p :| p in ps && p.filename == n;
      assert p in Select(ps, keep);
    }
  }

  lemma {:induction false} BytesOfAdd(ps: seq<Package>, keep: set<string>, p: Package)
    requires DistinctNames(ps) && p in ps && p.filename !in keep
    ensures BytesOf(ps, keep + {p.filename}) == BytesOf(ps, keep) + p.sizeBytes
  {
    var t := ps[1..];
    if p == ps[0] {
      assert p.filename !in NameSet(t);
      assert NameSet(t) * (keep + {p.filename}) == NameSet(t) * keep;
      SelectSame(t, keep + {p.filename}, keep);
      assert Select(ps, keep + {p.filename}) == [p] + Select(t, keep);
      assert Select(ps, keep) == Select(t, keep);
    } else {
      assert p in t;
      BytesOfAdd(t, keep, p);
      assert ps[0].filename != p.filename;
      BytesConcat(if ps[0].filename in keep then [ps[0]] else [], Select(t, keep));
      BytesConcat(if ps[0].filename in keep then [ps[0]] else [], Select(t, keep + {p.filename}));
    }
  }

  /** Summing an attempt's own packages gives the sum taken over the whole closure. */
  lemma {:induction false} BytesAreBytesOf(ps: seq<Package>, xs: seq<Package>)
    requires DistinctNames(ps) && DistinctNames(xs) && forall x :: x in xs ==> x in ps
    ensures Bytes(xs) == BytesOf(ps, NameSet(xs))
  {
    if xs == [] {
      SelectNone(ps, {});
    } else {
      BytesAreBytesOf(ps, xs[1..]);
      assert NameSet(xs) == NameSet(xs[1..]) + {xs[0].filename};
      BytesOfAdd(ps, NameSet(xs[1..]), xs[0]);
    }
  }

  lemma {:induction false} NameCount(ps: seq<Package>)
    requires DistinctNames(ps)
    ensures |NameSet(ps)| == |ps|
  {
    if ps == [] {
      assert NameSet(ps) == {};
    } else {
      NameCount(ps[1..]);
      assert NameSet(ps) == NameSet(ps[1..]) + {ps[0].filename};
    }
  }

  lemma {:induction false} NameCountConverse(ps: seq<Package>)
    ensures |NameSet(ps)| <= |ps|
    ensures |NameSet(ps)| == |ps| ==> DistinctNames(ps)
  {
    if ps == [] {
      assert NameSet(ps) == {};
    } else {
      NameCountConverse(ps[1..]);
      var n := ps[0].filename;
      assert NameSet(ps) == NameSet(ps[1..]) + {n};
      if |NameSet(ps)| == |ps| {
        assert n !in NameSet(ps[1..]);
        forall j | 0 < j < |ps| ensures ps[j].filename != n {
          assert ps[j] in ps[1..];
        }
      }
    }
  }

  /** Distinctness of names does not depend on the order of the list. */
  lemma DistinctPermuted(a: seq<Package>, b: seq<Package>)
    requires multiset(a) == multiset(b)
    ensures DistinctNames(a) <==> DistinctNames(b)
    ensures NameSet(a) == NameSet(b)
  {
    forall p ensures p in a <==> p in b {
      assert p in a <==> p in multiset(a);
      assert p in b <==> p in multiset(b);
    }
    assert NameSet(a) == NameSet(b);
    assert |multiset(a)| == |a| && |multiset(b)| == |b|;
    if DistinctNames(a) { NameCount(a); NameCountConverse(b); }
    if DistinctNames(b) { NameCount(b); NameCountConverse(a); }
  }

  lemma PrefixSplit(s: seq<Package>, i: nat)
    requires i < |s|
    ensures s[..i + 1] == s[..i] + [s[i]] && s[i..] == [s[i]] + s[i + 1..]
    ensures DistinctNames(s) ==> forall q :: q in s[..i] ==> q.filename != s[i].filename
    ensures DistinctNames(s) ==> forall q :: q in s[i + 1..] ==> q.filename != s[i].filename
    ensures s[i].filename in NameSet(s[..i]) ==> !DistinctNames(s)
  {
    if s[i].filename in NameSet(s[..i]) {
      var q :| q in s[..i] && q.filename == s[i].filename;
      var k :| 0 <= k < i && s[k] == q;
    }
  }

  lemma PrefixDistinct(s: seq<Package>, i: nat)
    requires i < |s| && DistinctNames(s[..i]) && s[i].filename !in NameSet(s[..i])
    ensures DistinctNames(s[..i + 1])
  {
    forall k | 0 <= k < i ensures s[k].filename != s[i].filename {
      assert s[k] in s[..i];
    }
  }

  function ByName(ps: seq<Package>): map<string, Package>
    requires DistinctNames(ps)
  {
    map p | p in ps :: p.filename := p
  }

  /** Sum of the sizes a name-to-package table gives for a list of names. */
  function NamedBytes(names: seq<string>, table: map<string, Package>): nat
    requires forall n :: n in names ==> n in table
  {
    if names == [] then 0 else table[names[0]].sizeBytes + NamedBytes(names[1..], table)
  }

  lemma ByNameNames(ps: seq<Package>, n: string)
    requires DistinctNames(ps) && n in ByName(ps)
    ensures ByName(ps)[n] in ps && ByName(ps)[n].filename == n
  {
  }

  lemma {:induction false} NamedBytesAreBytesOf(ps: seq<Package>, names: seq<string>)
    requires DistinctNames(ps)
    requires forall n :: n in names ==> n in ByName(ps)
    requires forall i, j :: 0 <= i < j < |names| ==> names[i] != names[j]
    ensures NamedBytes(names, ByName(ps)) == BytesOf(ps, set n | n in names)
  {
    hide DistinctNames, ByName, BytesOf;
    if names == [] {
      NoBytes(ps);
      assert (set n | n in names) == {};
    } else {
      assert forall n :: n in names[1..] ==> n in names;
      NamedBytesAreBytesOf(ps, names[1..]);
      var rest := set n | n in names[1..];
      assert (set n | n in names) == rest + {names[0]};
      ByNameNames(ps, names[0]);
      BytesOfAdd(ps, rest, ByName(ps)[names[0]]);
    }
  }

  lemma NoBytes(ps: seq<Package>)
    ensures BytesOf(ps, {}) == 0
  {
    SelectNone(ps, {});
  }
}
