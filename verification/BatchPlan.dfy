/** Byte-bounded download batches: the planning loop, and how good its plan is. */
module BatchPlan {
  import opened Results
  import opened Ordering
  import opened Packages

  const BATCH_LIMIT_BYTES: nat := 192 * 1024 * 1024

  function Flatten(batches: seq<seq<Package>>): seq<Package> {
    if batches == [] then [] else batches[0] + Flatten(batches[1..])
  }

  /** A contiguous split of s into non-empty batches that are within the limit or single. */
  ghost predicate IsPartition(s: seq<Package>, batches: seq<seq<Package>>, limit: nat) {
    && Flatten(batches) == s
    && forall i :: 0 <= i < |batches| ==> batches[i] != [] && (Bytes(batches[i]) <= limit || |batches[i]| == 1)
  }

  /** No batch could have taken the first package of the next one. */
  ghost predicate IsFull(batches: seq<seq<Package>>, limit: nat) {
    forall i :: 0 <= i < |batches| - 1 && batches[i + 1] != [] ==>
      Bytes(batches[i]) + batches[i + 1][0].sizeBytes > limit
  }

  ghost predicate IsPlan(s: seq<Package>, batches: seq<seq<Package>>, limit: nat) {
    IsPartition(s, batches, limit) && IsFull(batches, limit)
  }

  datatype PlanError = LimitNotPositive

  lemma {:induction false} FlattenConcat(a: seq<seq<Package>>, b: seq<seq<Package>>)
    ensures Flatten(a + b) == Flatten(a) + Flatten(b)
  {
    if a == [] {
      assert a + b == b;
    } else {
      assert (a + b)[1..] == a[1..] + b;
      FlattenConcat(a[1..], b);
    }
  }

  lemma FlattenAppend(batches: seq<seq<Package>>, b: seq<Package>)
    ensures Flatten(batches + [b]) == Flatten(batches) + b
  {
    FlattenConcat(batches, [b]);
    assert Flatten([b]) == b + Flatten([]);
  }

  lemma BytesAppend(b: seq<Package>, p: Package)
    ensures Bytes(b + [p]) == Bytes(b) + p.sizeBytes
  {
    BytesConcat(b, [p]);
    assert Bytes([p]) == p.sizeBytes + Bytes([]);
  }

  /** Where the planning loop stands after the packages of done. */
  ghost predicate Building(done: seq<Package>, batches: seq<seq<Package>>, current: seq<Package>, limit: nat) {
    && Flatten(batches) + current == done
    && IsPlan(Flatten(batches), batches, limit)
    && (Bytes(current) <= limit || |current| == 1)
    && (batches != [] ==>
        Bytes(batches[|batches| - 1]) + (if current == [] then 0 else current[0].sizeBytes) > limit)
  }

  lemma CloseBatch(done: seq<Package>, batches: seq<seq<Package>>, current: seq<Package>, limit: nat)
    requires Building(done, batches, current, limit) && current != []
    ensures Flatten(batches + [current]) == done && IsPlan(done, batches + [current], limit)
  {
    FlattenAppend(batches, current);
  }

  lemma ExtendBatch(done: seq<Package>, batches: seq<seq<Package>>, current: seq<Package>, p: Package, limit: nat)
    requires Building(done, batches, current, limit)
    requires current == [] || Bytes(current) + p.sizeBytes <= limit
    ensures Building(done + [p], batches, current + [p], limit)
  {
    BytesAppend(current, p);
  }

  lemma NextBatch(done: seq<Package>, batches: seq<seq<Package>>, current: seq<Package>, p: Package, limit: nat)
    requires Building(done, batches, current, limit)
    requires current != [] && Bytes(current) + p.sizeBytes > limit
    ensures Building(done + [p], batches + [current], [p], limit)
  {
    CloseBatch(done, batches, current, limit);
  }

  lemma OversizeBatch(done: seq<Package>, batches: seq<seq<Package>>, current: seq<Package>, limit: nat)
    requires Building(done, batches, current, limit)
    requires current != [] && Bytes(current) > limit
    ensures Building(done, batches + [current], [], limit)
  {
    CloseBatch(done, batches, current, limit);
  }

  lemma EmptyPlan(limit: nat)
    ensures Building([], [], [], limit)
  {
  }

  lemma BuildingDone(done: seq<Package>, batches: seq<seq<Package>>, current: seq<Package>, limit: nat)
    requires Building(done, batches, current, limit)
    ensures IsPlan(done, if current == [] then batches else batches + [current], limit)
  {
    if current == [] { assert Flatten(batches) == done; } else { CloseBatch(done, batches, current, limit); }
  }

  method PlanPackagePrefetchBatches(packages: seq<Package>, maxBytes: int)
    returns (r: Result<seq<seq<Package>>, PlanError>)
    ensures r.Failure? <==> maxBytes <= 0
    ensures r.Success? ==> IsPlan(Sort(packages, ByIdentity), r.value, maxBytes)
  {
    if maxBytes <= 0 { return Failure(LimitNotPositive); }
    hide Building, IsPlan;
    var ordered := Sort(packages, ByIdentity);
    var batches: seq<seq<Package>> := [];
    var current: seq<Package> := [];
    var currentBytes := 0;
    assert Building([], batches, current, maxBytes) by { EmptyPlan(maxBytes); }
    for i := 0 to |ordered|
      invariant currentBytes == Bytes(current) <= maxBytes
      invariant Building(ordered[..i], batches, current, maxBytes)
    {
      var package := ordered[i];
      assert ordered[..i + 1] == ordered[..i] + [package];
      if current != [] && currentBytes + package.sizeBytes > maxBytes {
        NextBatch(ordered[..i], batches, current, package, maxBytes);
        batches := batches + [current];
        current := [];
        currentBytes := 0;
      } else {
        ExtendBatch(ordered[..i], batches, current, package, maxBytes);
      }
      BytesAppend(current, package);
      current := current + [package];
      currentBytes := currentBytes + package.sizeBytes;
      if package.sizeBytes > maxBytes {
        OversizeBatch(ordered[..i + 1], batches, current, maxBytes);
        batches := batches + [current];
        current := [];
        currentBytes := 0;
      }
    }
    assert ordered[..|ordered|] == ordered;
    BuildingDone(ordered, batches, current, maxBytes);
    if current != [] { batches := batches + [current]; }
    return Success(batches);
  }

  // ---- quality of the plan ----

  /** How many packages the first k batches hold. */
  ghost function Covered(batches: seq<seq<Package>>, k: nat): nat
    requires k <= |batches|
  {
    |Flatten(batches[..k])|
  }

  lemma CoveredStep(s: seq<Package>, batches: seq<seq<Package>>, limit: nat, k: nat)
    requires IsPartition(s, batches, limit) && k < |batches|
    ensures Covered(batches, k) < Covered(batches, k + 1) <= |s|
    ensures batches[k] == s[Covered(batches, k)..Covered(batches, k + 1)]
  {
    assert batches[..k + 1] == batches[..k] + [batches[k]];
    FlattenAppend(batches[..k], batches[k]);
    FlattenConcat(batches[..k + 1], batches[k + 1..]);
    assert batches == batches[..k + 1] + batches[k + 1..];
    var a := Flatten(batches[..k]);
    assert s == a + batches[k] + Flatten(batches[k + 1..]);
    assert batches[k] == s[|a|..|a| + |batches[k]|];
  }

  lemma CoveredEnds(s: seq<Package>, batches: seq<seq<Package>>, limit: nat)
    requires IsPartition(s, batches, limit)
    ensures Covered(batches, 0) == 0 && Covered(batches, |batches|) == |s|
  {
    assert batches[..0] == [] && batches[..|batches|] == batches;
  }

  lemma BytesOfSlice(s: seq<Package>, a: nat, b: nat, c: nat, d: nat)
    requires a <= b <= c <= d <= |s|
    ensures Bytes(s[b..c]) <= Bytes(s[a..d])
  {
    assert s[a..d] == s[a..b] + (s[b..c] + s[c..d]);
    BytesConcat(s[a..b], s[b..c] + s[c..d]);
    BytesConcat(s[b..c], s[c..d]);
  }

  /** After any number of batches the plan has placed at least as many packages as any rival. */
  lemma {:induction false} PlanStaysAhead(s: seq<Package>, plan: seq<seq<Package>>, rival: seq<seq<Package>>, limit: nat, k: nat)
    requires IsPlan(s, plan, limit) && IsPartition(s, rival, limit)
    requires k <= |plan| && k <= |rival|
    ensures Covered(rival, k) <= Covered(plan, k)
  {
    if k == 0 {
      CoveredEnds(s, plan, limit);
      CoveredEnds(s, rival, limit);
    } else {
      PlanStaysAhead(s, plan, rival, limit, k - 1);
      CoveredStep(s, plan, limit, k - 1);
      CoveredStep(s, rival, limit, k - 1);
      var q0, q, g0, g := Covered(rival, k - 1), Covered(rival, k), Covered(plan, k - 1), Covered(plan, k);
      assert |rival[k - 1]| == q - q0;
      if g < q {
        CoveredEnds(s, plan, limit);
        CoveredStep(s, plan, limit, k);
        assert plan[k][0] == s[g];
        assert s[g0..g + 1] == plan[k - 1] + [s[g]];
        BytesAppend(plan[k - 1], s[g]);
        BytesOfSlice(s, q0, g0, g + 1, q);
      }
    }
  }

  /** No contiguous split of the same packages within the limit has fewer batches. */
  lemma PlanIsFewest(s: seq<Package>, plan: seq<seq<Package>>, rival: seq<seq<Package>>, limit: nat)
    requires IsPlan(s, plan, limit) && IsPartition(s, rival, limit)
    ensures |plan| <= |rival|
  {
    if |rival| < |plan| {
      PlanStaysAhead(s, plan, rival, limit, |rival|);
      CoveredEnds(s, rival, limit);
      CoveredStep(s, plan, limit, |rival|);
    }
  }

  /** Being a full partition leaves no choice: it determines the plan. */
  lemma PlanIsUnique(s: seq<Package>, a: seq<seq<Package>>, b: seq<seq<Package>>, limit: nat)
    requires IsPlan(s, a, limit) && IsPlan(s, b, limit)
    ensures a == b
  {
    PlanIsFewest(s, a, b, limit);
    PlanIsFewest(s, b, a, limit);
    forall k | 0 <= k < |a| ensures a[k] == b[k] {
      PlanStaysAhead(s, a, b, limit, k);
      PlanStaysAhead(s, b, a, limit, k);
      PlanStaysAhead(s, a, b, limit, k + 1);
      PlanStaysAhead(s, b, a, limit, k + 1);
      CoveredStep(s, a, limit, k);
      CoveredStep(s, b, limit, k);
    }
  }

  /** Any two neighbouring batches together exceed the limit. */
  lemma {:induction false} PairsExceedLimit(batches: seq<seq<Package>>, limit: nat)
    requires IsFull(batches, limit) && forall i :: 0 <= i < |batches| ==> batches[i] != []
    ensures Bytes(Flatten(batches)) >= (|batches| / 2) * (limit + 1)
  {
    if |batches| >= 2 {
      var rest := batches[2..];
      assert batches[1..][1..] == rest;
      assert Flatten(batches) == batches[0] + (batches[1] + Flatten(rest));
      BytesConcat(batches[0], batches[1] + Flatten(rest));
      BytesConcat(batches[1], Flatten(rest));
      assert IsFull(rest, limit);
      PairsExceedLimit(rest, limit);
      assert Bytes(batches[0]) + Bytes(batches[1]) >= limit + 1;
      assert |batches| / 2 == |rest| / 2 + 1;
      assert (|rest| / 2 + 1) * (limit + 1) == (|rest| / 2) * (limit + 1) + (limit + 1);
    }
  }

  lemma QuotientBound(n: nat, total: nat, limit: nat)
    requires limit > 0 && n * (limit + 1) <= total
    ensures n <= total / limit
  {
    var q := total / limit;
    assert total < (q + 1) * limit;
    assert n * limit <= total;
    if n >= q + 1 { Scale(q + 1, n, limit); }
  }

  lemma Scale(a: nat, b: nat, c: nat)
    requires a <= b
    ensures a * c <= b * c
  {
  }

  /** A plan has at most one batch more than twice the number of whole limits in its total. */
  lemma PlanIsShort(s: seq<Package>, plan: seq<seq<Package>>, limit: nat)
    requires limit > 0 && IsPlan(s, plan, limit)
    ensures |plan| <= 2 * (Bytes(s) / limit) + 1
  {
    PairsExceedLimit(plan, limit);
    QuotientBound(|plan| / 2, Bytes(s), limit);
  }
}
