/** Strings compared by code point, as Python and Rust compare them, and the stable sort built on
    that comparison.  A sort key is a sequence of strings compared like a Python tuple. */
module Ordering {

  /** a comes no later than b. */
  predicate Below(a: string, b: string) {
    a == "" || (b != "" && (a[0] < b[0] || (a[0] == b[0] && Below(a[1..], b[1..]))))
  }

  predicate KeyBelow(a: seq<string>, b: seq<string>) {
    a == [] || (b != [] && if a[0] == b[0] then KeyBelow(a[1..], b[1..]) else Below(a[0], b[0]))
  }

  lemma {:induction false} BelowRefl(a: string)
    ensures Below(a, a)
  {
    if a != "" { BelowRefl(a[1..]); }
  }

  lemma {:induction false} BelowTotal(a: string, b: string)
    ensures Below(a, b) || Below(b, a)
  {
    if a != "" && b != "" && a[0] == b[0] { BelowTotal(a[1..], b[1..]); }
  }

  lemma {:induction false} BelowAntisymmetric(a: string, b: string)
    requires Below(a, b) && Below(b, a)
    ensures a == b
  {
    if a != "" && b != "" {
      BelowAntisymmetric(a[1..], b[1..]);
      assert a == [a[0]] + a[1..] && b == [b[0]] + b[1..];
    }
  }

  lemma {:induction false} BelowTransitive(a: string, b: string, c: string)
    requires Below(a, b) && Below(b, c)
    ensures Below(a, c)
  {
    if a != "" && a[0] == b[0] && b[0] == c[0] { BelowTransitive(a[1..], b[1..], c[1..]); }
  }

  /** Appending a suffix moves a name strictly later in the order. */
  lemma {:induction false} SuffixIsLater(a: string, suffix: string)
    requires suffix != ""
    ensures Below(a, a + suffix) && !Below(a + suffix, a)
  {
    if a != "" {
      assert (a + suffix)[1..] == a[1..] + suffix;
      SuffixIsLater(a[1..], suffix);
    }
  }

  lemma {:induction false} KeyBelowRefl(a: seq<string>)
    ensures KeyBelow(a, a)
  {
    if a != [] { KeyBelowRefl(a[1..]); }
  }

  lemma {:induction false} KeyBelowTotal(a: seq<string>, b: seq<string>)
    ensures KeyBelow(a, b) || KeyBelow(b, a)
  {
    if a != [] && b != [] {
      if a[0] == b[0] { KeyBelowTotal(a[1..], b[1..]); } else { BelowTotal(a[0], b[0]); }
    }
  }

  lemma {:induction false} KeyBelowTransitive(a: seq<string>, b: seq<string>, c: seq<string>)
    requires KeyBelow(a, b) && KeyBelow(b, c)
    ensures KeyBelow(a, c)
  {
    if a != [] {
      if a[0] == b[0] == c[0] {
        KeyBelowTransitive(a[1..], b[1..], c[1..]);
      } else if a[0] == c[0] {
        BelowAntisymmetric(a[0], b[0]);
      } else if a[0] != b[0] && b[0] != c[0] {
        BelowTransitive(a[0], b[0], c[0]);
      }
    }
  }

  /** The key of a plain string in a one-column sort. */
  function Itself(s: string): seq<string> { [s] }

  ghost predicate IsSorted<T>(s: seq<T>, key: T -> seq<string>) {
    forall i, j :: 0 <= i < j < |s| ==> KeyBelow(key(s[i]), key(s[j]))
  }

  function Insert<T>(x: T, s: seq<T>, key: T -> seq<string>): (r: seq<T>)
    ensures multiset(r) == multiset{x} + multiset(s)
    ensures |r| == |s| + 1
  {
    if s == [] || KeyBelow(key(x), key(s[0])) then [x] + s
    else
      assert s == [s[0]] + s[1..];
      [s[0]] + Insert(x, s[1..], key)
  }

  /** Python's `sorted(s, key=key)`. */
  function Sort<T>(s: seq<T>, key: T -> seq<string>): (r: seq<T>)
    ensures multiset(r) == multiset(s)
    ensures |r| == |s|
  {
    if s == [] then []
    else
      assert s == [s[0]] + s[1..];
      Insert(s[0], Sort(s[1..], key), key)
  }

  lemma {:induction false} InsertKeepsSorted<T>(x: T, s: seq<T>, key: T -> seq<string>)
    requires IsSorted(s, key)
    ensures IsSorted(Insert(x, s, key), key)
  {
    var r := Insert(x, s, key);
    if s == [] {
    } else if KeyBelow(key(x), key(s[0])) {
      forall j | 0 <= j < |s| ensures KeyBelow(key(x), key(s[j])) {
        if j > 0 { KeyBelowTransitive(key(x), key(s[0]), key(s[j])); }
      }
    } else {
      var t := Insert(x, s[1..], key);
      InsertKeepsSorted(x, s[1..], key);
      KeyBelowTotal(key(x), key(s[0]));
      forall j | 0 <= j < |t| ensures KeyBelow(key(s[0]), key(t[j])) {
        assert t[j] in multiset(t);
        assert t[j] == x || t[j] in s[1..];
      }
      assert r == [s[0]] + t;
    }
  }

  lemma {:induction false} SortIsSorted<T>(s: seq<T>, key: T -> seq<string>)
    ensures IsSorted(Sort(s, key), key)
  {
    if s != [] {
      SortIsSorted(s[1..], key);
      InsertKeepsSorted(s[0], Sort(s[1..], key), key);
    }
  }

  lemma SortMembers<T>(s: seq<T>, key: T -> seq<string>)
    ensures forall x :: x in Sort(s, key) <==> x in s
  {
    forall x ensures x in Sort(s, key) <==> x in s {
      assert x in Sort(s, key) <==> x in multiset(Sort(s, key));
      assert x in s <==> x in multiset(s);
    }
  }

  predicate NoDuplicates<T(==)>(s: seq<T>) {
    forall i, j :: 0 <= i < j < |s| ==> s[i] != s[j]
  }

  lemma {:induction false} NoDuplicatesByCount<T>(s: seq<T>)
    ensures NoDuplicates(s) <==> forall x :: multiset(s)[x] <= 1
  {
    if s != [] {
      var t := s[1..];
      assert s == [s[0]] + t;
      NoDuplicatesByCount(t);
      if NoDuplicates(s) {
        assert s[0] !in t by { if s[0] in t { HeadRepeats(s); } }
        assert NoDuplicates(t);
      }
      if forall x :: multiset(s)[x] <= 1 {
        assert multiset(t)[s[0]] == 0;
        assert forall x :: multiset(t)[x] <= multiset(s)[x];
        forall i, j | 0 <= i < j < |s| ensures s[i] != s[j] {
          assert s[j] == t[j - 1] && t[j - 1] in multiset(t);
          if i > 0 { assert s[i] == t[i - 1]; }
        }
      }
    }
  }

  lemma HeadRepeats<T>(s: seq<T>)
    requires s != [] && s[0] in s[1..]
    ensures !NoDuplicates(s)
  {
    var k :| 0 <= k < |s[1..]| && s[1..][k] == s[0];
    assert s[k + 1] == s[0];
  }

  lemma SortNoDuplicates<T>(s: seq<T>, key: T -> seq<string>)
    ensures NoDuplicates(Sort(s, key)) <==> NoDuplicates(s)
  {
    NoDuplicatesByCount(s);
    NoDuplicatesByCount(Sort(s, key));
  }

  lemma PermutedNoDuplicates<T>(a: seq<T>, b: seq<T>)
    requires multiset(a) == multiset(b) && NoDuplicates(a)
    ensures NoDuplicates(b)
  {
    NoDuplicatesByCount(a);
    NoDuplicatesByCount(b);
  }

  /** Two sorted lists of distinct strings with the same members are the same list. */
  lemma {:induction false} SortedStringsUnique(a: seq<string>, b: seq<string>)
    requires IsSorted(a, Itself) && IsSorted(b, Itself)
    requires NoDuplicates(a) && NoDuplicates(b)
    requires forall x :: x in a <==> x in b
    ensures a == b
  {
    assert b != [] ==> b[0] in a;
    assert a != [] ==> a[0] in b;
    if a != [] {
      HeadIsLeast(a, b[0]);
      HeadIsLeast(b, a[0]);
      BelowAntisymmetric(a[0], b[0]);
      forall x ensures x in a[1..] <==> x in b[1..] {
        TailMembers(a, x);
        TailMembers(b, x);
      }
      SortedStringsUnique(a[1..], b[1..]);
      assert a == [a[0]] + a[1..] && b == [b[0]] + b[1..];
    }
  }

  lemma HeadIsLeast(s: seq<string>, x: string)
    requires x in s && IsSorted(s, Itself)
    ensures Below(s[0], x)
  {
    var k :| 0 <= k < |s| && s[k] == x;
    BelowRefl(x);
    assert k > 0 ==> KeyBelow(Itself(s[0]), Itself(s[k]));
  }

  lemma TailMembers<T>(s: seq<T>, x: T)
    requires s != [] && NoDuplicates(s)
    ensures x in s[1..] <==> x in s && x != s[0]
  {
    if x in s && x != s[0] { var k :| 0 <= k < |s| && s[k] == x; assert s[1..][k - 1] == x; }
    if x in s[1..] { var k :| 0 <= k < |s[1..]| && s[1..][k] == x; assert s[k + 1] == x; }
  }
}
