/** The rotating audit log.  Files carry an index: 0 is the live file, k its k-th archive.  Any file
    operation may fail, which stops the call where it stands; the retained text stays a suffix of
    what was ever written. */
module AuditLog {
  import opened Results

  const MAX_RECORD_BYTES: nat := 4096

  const U64_MAX: nat := 0xFFFF_FFFF_FFFF_FFFF

  type Text = string

  type Files = map<nat, Text>

  datatype AuditError = InvalidConfiguration | InvalidRecord | RecordTooLarge | IoError

  function Content(f: Files, i: nat): Text { if i in f then f[i] else "" }

  /** Archives from index n down, then the live file: oldest text first. */
  function Retained(f: Files, n: nat): Text {
    if n == 0 then Content(f, 0) else Content(f, n) + Retained(f, n - 1)
  }

  predicate IsSuffix(s: Text, t: Text) { |s| <= |t| && t[|t| - |s|..] == s }

  function SaturatingAdd(a: nat, b: nat): nat { if a + b > U64_MAX then U64_MAX else a + b }

  function Without(f: Files, i: nat): Files { map j | j in f && j != i :: f[j] }

  // ---- rotation as one step ----

  /** n archives after the oldest went and every index from k on moved up by one; k is free. */
  function Shifted(f: Files, n: nat, k: nat): Files
    requires k <= n
    decreases n - k
  {
    if k == n then Without(f, n)
    else
      var g := Shifted(f, n, k + 1);
      if k in g then Without(g, k)[k + 1 := g[k]] else g
  }

  /** The files after a rotation. */
  function Rotated(f: Files, n: nat): Files {
    if n == 0 then f[0 := ""] else Shifted(f, n, 0)[0 := ""]
  }

  /** Where each file of a shift comes from. */
  lemma {:induction false} ShiftedAt(f: Files, n: nat, k: nat, i: nat)
    requires k <= n
    ensures i in Shifted(f, n, k) <==> i != k && if k < i <= n then i - 1 in f else i in f
    ensures i in Shifted(f, n, k) ==> Shifted(f, n, k)[i] == if k < i <= n then f[i - 1] else f[i]
    decreases n - k
  {
    if k < n {
      ShiftedAt(f, n, k + 1, i);
      ShiftedAt(f, n, k + 1, k);
      ShiftedAt(f, n, k + 1, k + 1);
    }
  }

  /** Renaming k to k + 1 never replaces anything. */
  lemma RenameTargetFree(f: Files, n: nat, k: nat)
    requires k < n
    ensures k + 1 !in Shifted(f, n, k + 1) && (k in Shifted(f, n, k + 1) <==> k in f)
  {
    ShiftedAt(f, n, k + 1, k);
    ShiftedAt(f, n, k + 1, k + 1);
  }

  /** Wherever a rotation stands, all that is gone is the oldest archive. */
  lemma {:induction false} RetainedShifted(f: Files, n: nat, k: nat, m: nat)
    requires k <= m <= n
    ensures Retained(Shifted(f, n, k), m) == if m == 0 then "" else Retained(f, m - 1)
  {
    ShiftedAt(f, n, k, m);
    if m > k {
      RetainedShifted(f, n, k, m - 1);
      if m - 1 == 0 { assert Retained(f, 0) == Content(f, 0); }
    } else if m > 0 {
      RetainedBelow(f, n, k, m - 1);
    }
  }

  lemma {:induction false} RetainedBelow(f: Files, n: nat, k: nat, m: nat)
    requires m < k <= n
    ensures Retained(Shifted(f, n, k), m) == Retained(f, m)
  {
    ShiftedAt(f, n, k, m);
    if m > 0 { RetainedBelow(f, n, k, m - 1); }
  }

  lemma {:induction false} RetainedLive(f: Files, n: nat, t: Text)
    ensures Retained(f[0 := Content(f, 0) + t], n) == Retained(f, n) + t
  {
    if n > 0 {
      var g := f[0 := Content(f, 0) + t];
      RetainedLive(f, n - 1, t);
      assert Content(g, n) == Content(f, n);
      Associate(Content(f, n), Retained(f, n - 1), t);
    }
  }

  lemma Associate(a: Text, b: Text, c: Text)
    ensures a + (b + c) == (a + b) + c
  {
  }

  lemma DropsOldest(f: Files, n: nat, k: nat, written: Text)
    requires k <= n && IsSuffix(Retained(f, n), written)
    ensures IsSuffix(Retained(Shifted(f, n, k), n), written)
  {
    RetainedShifted(f, n, k, n);
    if n > 0 { SuffixOfSuffix(Content(f, n), Retained(f, n - 1), written); }
  }

  lemma SuffixOfSuffix(a: Text, b: Text, t: Text)
    requires IsSuffix(a + b, t)
    ensures IsSuffix(b, t)
  {
    assert t[|t| - |b|..] == t[|t| - |a + b|..][|a|..];
  }

  lemma SuffixGrows(s: Text, t: Text, more: Text)
    requires IsSuffix(s, t)
    ensures IsSuffix(s + more, t + more)
  {
    assert (t + more)[|t + more| - |s + more|..] == t[|t| - |s|..] + more;
  }

  // ---- sizes ----

  /** No file is larger than the limit. */
  ghost predicate Within(f: Files, n: nat, max: nat) { forall i :: 0 <= i <= n && i in f ==> |f[i]| <= max }

  /** Every archive was full when it was rotated out. */
  ghost predicate Full(f: Files, n: nat, max: nat) { forall i :: 1 <= i <= n && i in f ==> |f[i]| + MAX_RECORD_BYTES > max }

  /** Archives carry consecutive indices from 1. */
  ghost predicate Contiguous(f: Files, n: nat) { forall i, j :: 1 <= i <= j <= n && j in f ==> i in f }

  lemma {:induction false} RetainedAtMost(f: Files, n: nat, max: nat)
    requires Within(f, n, max)
    ensures |Retained(f, n)| <= (n + 1) * max
  {
    if n > 0 {
      RetainedAtMost(f, n - 1, max);
      assert (n + 1) * max == n * max + max;
    }
  }

  lemma {:induction false} RetainedAtLeast(f: Files, n: nat, max: nat)
    requires Full(f, n, max) && (forall i :: 1 <= i <= n ==> i in f) && max >= MAX_RECORD_BYTES
    ensures |Retained(f, n)| >= n * (max - MAX_RECORD_BYTES + 1)
  {
    if n > 0 {
      RetainedAtLeast(f, n - 1, max);
      assert n * (max - MAX_RECORD_BYTES + 1) == (n - 1) * (max - MAX_RECORD_BYTES + 1) + (max - MAX_RECORD_BYTES + 1);
    }
  }

  /** A rotation keeps the bounds; with consecutive archives it drops text only when all are full. */
  lemma RotationKeeps(f: Files, n: nat, max: nat)
    requires Contiguous(f, n) && 0 in f
    ensures Contiguous(Rotated(f, n), n)
    ensures n > 0 && n !in f ==> Retained(Rotated(f, n), n) == Retained(f, n)
    ensures n in f ==> forall i :: 1 <= i <= n ==> i in Rotated(f, n)
  {
    if n > 0 {
      RotatedRetained(f, n);
      forall i, j | 1 <= i <= j <= n && j in Rotated(f, n) ensures i in Rotated(f, n) {
        ShiftedAt(f, n, 0, i);
        ShiftedAt(f, n, 0, j);
      }
      if n in f {
        forall i | 1 <= i <= n ensures i in Rotated(f, n) { ShiftedAt(f, n, 0, i); }
      } else {
        assert Content(f, n) == "";
      }
    }
  }

  lemma RotatedRetained(f: Files, n: nat)
    ensures Retained(Rotated(f, n), n) == if n == 0 then "" else Retained(f, n - 1)
  {
    if n > 0 {
      var g := Shifted(f, n, 0);
      RetainedShifted(f, n, 0, n);
      ShiftedAt(f, n, 0, 0);
      RetainedLive(g, n, "");
      assert Content(g, 0) + "" == "";
      assert Retained(g, n) + "" == Retained(g, n);
    }
  }

  lemma ShiftKeepsBounds(f: Files, n: nat, k: nat, max: nat)
    requires k <= n && Full(f, n, max) && (k == 0 ==> |Content(f, 0)| + MAX_RECORD_BYTES > max)
    ensures Full(Shifted(f, n, k), n, max) && (Within(f, n, max) ==> Within(Shifted(f, n, k), n, max))
  {
    forall i | 0 <= i <= n && i in Shifted(f, n, k)
      ensures Within(f, n, max) ==> |Shifted(f, n, k)[i]| <= max
      ensures i >= 1 ==> |Shifted(f, n, k)[i]| + MAX_RECORD_BYTES > max
    {
      ShiftedAt(f, n, k, i);
    }
  }

  /** The files before an append in which nothing failed. */
  function CleanRotation(f: Files, n: nat, max: nat, incoming: nat): Files {
    if SaturatingAdd(|Content(f, 0)|, incoming) <= max then f else Rotated(f, n)
  }

  /** The first n characters of t have been appended to the live file. */
  ghost predicate Appends(f: Files, was: Text, g: Files, written: Text, t: Text, n: nat) {
    n <= |t| && g == f[0 := Content(f, 0) + t[..n]] && written == was + t[..n]
  }

  /** Some beginning of t was appended. */
  ghost predicate WrittenPart(was: Text, written: Text, t: Text) { exists n :: 0 <= n <= |t| && written == was + t[..n] }

  lemma NothingWritten(was: Text, t: Text)
    ensures WrittenPart(was, was, t)
  {
    assert was == was + t[..0];
  }

  /** Nothing has been dropped, or every archive is in use. */
  ghost predicate Keeping(f: Files, n: nat, written: Text) {
    && 0 in f && Contiguous(f, n)
    && (Retained(f, n) == written || forall i :: 1 <= i <= n ==> i in f)
  }

  /** What the log is for: bounded above, and below by everything written or almost all archives' room. */
  lemma Retention(f: Files, n: nat, max: nat, written: Text)
    requires max >= MAX_RECORD_BYTES && Within(f, n, max) && Full(f, n, max) && Keeping(f, n, written)
    ensures |Retained(f, n)| <= (n + 1) * max
    ensures Retained(f, n) == written || |Retained(f, n)| >= n * (max - MAX_RECORD_BYTES + 1)
  {
    RetainedAtMost(f, n, max);
    if Retained(f, n) != written { RetainedAtLeast(f, n, max); }
  }

  /** What a rotation may have done so far: nothing, part of a shift, or all of it; and only because
      the record did not fit. */
  ghost predicate Changed(before: Files, after: Files, n: nat, max: nat, incoming: nat, ok: bool) {
    after == before || (SaturatingAdd(|Content(before, 0)|, incoming) > max && Moved(before, after, n, ok))
  }

  ghost predicate Moved(before: Files, after: Files, n: nat, ok: bool) {
    after == Rotated(before, n) || (!ok && n > 0 && exists k :: 0 <= k <= n && after == Shifted(before, n, k))
  }

  lemma AfterRotation(f: Files, g: Files, n: nat, max: nat, incoming: nat, ok: bool, written: Text)
    requires Changed(f, g, n, max, incoming, ok) && incoming <= MAX_RECORD_BYTES && IsSuffix(Retained(f, n), written)
    ensures IsSuffix(Retained(g, n), written)
    ensures Full(f, n, max) ==> Full(g, n, max)
  {
    if g != f {
      if g == Rotated(f, n) {
        RotatedSuffix(f, n, written);
        if Full(f, n, max) { RotatedFull(f, n, max); }
      } else {
        var k :| 0 <= k <= n && g == Shifted(f, n, k);
        DropsOldest(f, n, k, written);
        if Full(f, n, max) { ShiftKeepsBounds(f, n, k, max); }
      }
    }
  }

  lemma RotatedSuffix(f: Files, n: nat, written: Text)
    requires IsSuffix(Retained(f, n), written)
    ensures IsSuffix(Retained(Rotated(f, n), n), written)
  {
    RotatedRetained(f, n);
    if n > 0 { SuffixOfSuffix(Content(f, n), Retained(f, n - 1), written); }
  }

  lemma RotatedFull(f: Files, n: nat, max: nat)
    requires Full(f, n, max) && |Content(f, 0)| + MAX_RECORD_BYTES > max
    ensures Full(Rotated(f, n), n, max) && (Within(f, n, max) ==> Within(Rotated(f, n), n, max))
  {
    if n > 0 { ShiftKeepsBounds(f, n, 0, max); }
  }

  /** After a rotation in which nothing failed the record fits. */
  lemma AfterCleanRotation(f: Files, g: Files, n: nat, max: nat, incoming: nat, written: Text)
    requires g == CleanRotation(f, n, max, incoming)
    requires incoming <= MAX_RECORD_BYTES <= max
    ensures max < U64_MAX ==> |Content(g, 0)| + incoming <= max
    ensures max < U64_MAX && Within(f, n, max) ==> Within(g, n, max)
    ensures Keeping(f, n, written) ==> Keeping(g, n, written)
  {
    if g != f {
      if n > 0 { ShiftedAt(f, n, 0, 0); }
      if Within(f, n, max) { RotatedWithin(f, n, max); }
      if Keeping(f, n, written) { RotationKeeps(f, n, max); }
    }
  }

  lemma RotatedWithin(f: Files, n: nat, max: nat)
    requires Within(f, n, max)
    ensures Within(Rotated(f, n), n, max)
  {
    if n > 0 {
      forall i | 0 <= i <= n && i in Rotated(f, n) ensures |Rotated(f, n)[i]| <= max { ShiftedAt(f, n, 0, i); }
    }
  }

  lemma AppendsCreated(f: Files, f': Files, was: Text, g: Files, written: Text, t: Text, k: nat)
    requires f' == (if 0 in f then f else f[0 := ""]) && Appends(f', was, g, written, t, k)
    ensures Appends(f, was, g, written, t, k)
  {
    assert f'[0 := Content(f', 0) + t[..k]] == f[0 := Content(f, 0) + t[..k]];
  }

  lemma AfterAppend(f: Files, was: Text, g: Files, written: Text, n: nat, max: nat, t: Text, k: nat)
    requires IsSuffix(Retained(f, n), was) && Appends(f, was, g, written, t, k)
    ensures IsSuffix(Retained(g, n), written) && WrittenPart(was, written, t)
    ensures Full(f, n, max) ==> Full(g, n, max)
    ensures Within(f, n, max) && |Content(f, 0)| + |t| <= max ==> Within(g, n, max)
    ensures Keeping(f, n, was) ==> Keeping(g, n, written)
    ensures k == |t| ==> written == was + t && IsSuffix(t, Content(g, 0))
  {
    hide Retained;
    RetainedLive(f, n, t[..k]);
    SuffixGrows(Retained(f, n), was, t[..k]);
    if k == |t| {
      assert t[..k] == t;
      assert (Content(f, 0) + t)[|Content(f, 0)|..] == t;
    }
  }

  // ---- runs in which nothing fails ----

  /** The files after one record in which nothing failed. */
  function Recorded(f: Files, n: nat, max: nat, line: Text): Files {
    var g := CleanRotation(f, n, max, |line|);
    g[0 := Content(g, 0) + line]
  }

  /** The files after a sequence of records in which nothing failed. */
  function Log(f: Files, n: nat, max: nat, lines: seq<Text>): Files {
    if lines == [] then f else Recorded(Log(f, n, max, lines[..|lines| - 1]), n, max, lines[|lines| - 1])
  }

  function Joined(lines: seq<Text>): Text {
    if lines == [] then "" else Joined(lines[..|lines| - 1]) + lines[|lines| - 1]
  }

  ghost predicate InBounds(f: Files, n: nat, max: nat, written: Text) {
    IsSuffix(Retained(f, n), written) && Within(f, n, max) && Full(f, n, max) && Keeping(f, n, written)
  }

  lemma RecordedInBounds(f: Files, n: nat, max: nat, written: Text, line: Text)
    requires InBounds(f, n, max, written) && |line| <= MAX_RECORD_BYTES <= max < U64_MAX
    ensures InBounds(Recorded(f, n, max, line), n, max, written + line)
  {
    hide Retained, IsSuffix, Within, Full, Keeping, Rotated;
    var g := CleanRotation(f, n, max, |line|);
    AfterRotation(f, g, n, max, |line|, true, written);
    AfterCleanRotation(f, g, n, max, |line|, written);
    assert line[..|line|] == line;
    AfterAppend(g, written, Recorded(f, n, max, line), written + line, n, max, line, |line|);
  }

  /** From files within the bounds every sequence of records stays within them: at most one more than the
      archives times the limit is kept, nothing is lost while an archive is free, and once all are in use
      almost their whole room is kept. */
  lemma {:induction false} EveryCleanRun(f: Files, n: nat, max: nat, lines: seq<Text>)
    requires MAX_RECORD_BYTES <= max < U64_MAX && InBounds(f, n, max, Retained(f, n))
    requires forall l :: l in lines ==> |l| <= MAX_RECORD_BYTES
    ensures var g, all := Log(f, n, max, lines), Retained(f, n) + Joined(lines);
      && InBounds(g, n, max, all)
      && |Retained(g, n)| <= (n + 1) * max
      && (Retained(g, n) == all || |Retained(g, n)| >= n * (max - MAX_RECORD_BYTES + 1))
  {
    hide Retained, InBounds, Recorded;
    if lines == [] {
      assert Retained(f, n) + "" == Retained(f, n);
    } else {
      var front, last := lines[..|lines| - 1], lines[|lines| - 1];
      EveryCleanRun(f, n, max, front);
      assert last in lines;
      RecordedInBounds(Log(f, n, max, front), n, max, Retained(f, n) + Joined(front), last);
      Associate(Retained(f, n), Joined(front), last);
    }
    BoundsRetain(Log(f, n, max, lines), n, max, Retained(f, n) + Joined(lines));
  }

  lemma BoundsRetain(f: Files, n: nat, max: nat, written: Text)
    requires InBounds(f, n, max, written) && max >= MAX_RECORD_BYTES
    ensures |Retained(f, n)| <= (n + 1) * max
    ensures Retained(f, n) == written || |Retained(f, n)| >= n * (max - MAX_RECORD_BYTES + 1)
  {
    Retention(f, n, max, written);
  }

  /** A new log, or one with nothing but a live file within the limit, starts within the bounds. */
  lemma NewLogInBounds(f: Files, n: nat, max: nat)
    requires 0 in f && |f[0]| <= max && forall i :: i in f ==> i == 0
    ensures InBounds(f, n, max, Retained(f, n))
  {
  }

  // ---- the sink ----

  /** Some operation of a stretch failed. */
  ghost predicate Faulted(fails: nat -> bool, from: nat, to: nat) { exists n: nat :: from <= n < to && fails(n) }

  class Sink {
    const maxBytes: nat
    const archives: nat
    const fails: nat -> bool     // whether the n-th file operation fails
    const partial: nat -> nat    // how much a failing write still writes
    var files: Files
    var clock: nat               // file operations so far
    ghost var written: Text      // everything ever appended

    /** Accepted limits; the live file is created if it is missing. */
    static method OpenWithLimits(files: Files, maxBytes: nat, archives: nat, fails: nat -> bool, partial: nat -> nat)
      returns (r: Result<Sink, AuditError>)
      ensures maxBytes < MAX_RECORD_BYTES ==> r == Result.Failure(InvalidConfiguration)
      ensures maxBytes >= MAX_RECORD_BYTES ==> (r.Failure? <==> fails(0))
      ensures r.Success? ==>
        && fresh(r.value) && r.value.Chronological() && r.value.maxBytes == maxBytes && r.value.archives == archives
        && r.value.written == Retained(files, archives) && r.value.fails == fails && r.value.clock == 1
        && r.value.files == if 0 in files then files else files[0 := ""]
    {
      if maxBytes < MAX_RECORD_BYTES { return Failure(InvalidConfiguration); }
      if fails(0) { return Failure(IoError); }
      var sink := new Sink(files, maxBytes, archives, fails, partial);
      return Success(sink);
    }

    constructor (files: Files, maxBytes: nat, archives: nat, fails: nat -> bool, partial: nat -> nat)
      requires maxBytes >= MAX_RECORD_BYTES
      ensures Chronological() && this.maxBytes == maxBytes && this.archives == archives
      ensures written == Retained(files, archives) && this.fails == fails && clock == 1
      ensures this.files == if 0 in files then files else files[0 := ""]
    {
      this.maxBytes, this.archives, this.fails, this.partial := maxBytes, archives, fails, partial;
      this.files := if 0 in files then files else files[0 := ""];
      clock := 1;
      written := Retained(files, archives);
      new;
      RetainedLive(files, archives, "");
      assert Content(files, 0) + "" == Content(files, 0);
      assert Retained(files, archives) + "" == Retained(files, archives);
    }

    /** The retained text is a suffix of what was written. */
    ghost predicate Chronological()
      reads this
    {
      maxBytes >= MAX_RECORD_BYTES && IsSuffix(Retained(files, archives), written)
    }

    /** One file operation. */
    method Attempt() returns (ok: bool)
      modifies this`clock
      ensures ok == !fails(old(clock)) && clock == old(clock) + 1
    {
      ok := !fails(clock);
      clock := clock + 1;
    }

    method Remove(i: nat) returns (ok: bool)
      requires i in files
      modifies this`files, this`clock
      ensures ok == !fails(old(clock)) && clock == old(clock) + 1
      ensures files == if ok then Without(old(files), i) else old(files)
    {
      ok := Attempt();
      if ok { files := Without(files, i); }
    }

    /** Renaming replaces whatever was there. */
    method Rename(from: nat, to: nat) returns (ok: bool)
      requires from in files && from != to
      modifies this`files, this`clock
      ensures ok == !fails(old(clock)) && clock == old(clock) + 1
      ensures files == if ok then Without(old(files), from)[to := old(files)[from]] else old(files)
    {
      ok := Attempt();
      if ok { files := Without(files, from)[to := files[from]]; }
    }

    method Truncate() returns (ok: bool)
      modifies this`files, this`clock
      ensures ok == !fails(old(clock)) && clock == old(clock) + 1
      ensures files == if ok then old(files)[0 := ""] else old(files)
    {
      ok := Attempt();
      if ok { files := files[0 := ""]; }
    }

    /** The size of the live file; an unreadable one counts as empty. */
    method Metadata() returns (size: nat)
      modifies this`clock
      ensures clock == old(clock) + 1
      ensures size == if fails(old(clock)) then 0 else |Content(files, 0)|
    {
      var ok := Attempt();
      size := if ok && 0 in files then |files[0]| else 0;
    }

    /** write_all: on failure a prefix may have been written. */
    method WriteAll(t: Text) returns (ok: bool)
      requires 0 in files
      modifies this`files, this`clock, this`written
      ensures ok == !fails(old(clock)) && clock == old(clock) + 1
      ensures exists n: nat :: Appends(old(files), old(written), files, written, t, n) && (ok ==> n == |t|)
    {
      var n := if partial(clock) < |t| then partial(clock) else |t|;
      ok := Attempt();
      if ok { n := |t|; }
      files := files[0 := files[0] + t[..n]];
      written := written + t[..n];
      assert Appends(old(files), old(written), files, written, t, n);
    }

    /** Moves archives up, from the highest index down, and the live file to index 1. */
    method Shift(ghost start: Files) returns (ok: bool)
      requires archives > 0 && files == start
      modifies this`files, this`clock
      ensures old(clock) <= clock <= old(clock) + archives + 1
      ensures ok <==> !Faulted(fails, old(clock), clock)
      ensures ok ==> files == Shifted(start, archives, 0)
      ensures files == start || exists k :: 0 <= k <= archives && files == Shifted(start, archives, k)
    {
      ok := true;
      if archives in files {
        ok := Remove(archives);
        if !ok { return; }
      } else {
        assert Without(files, archives) == files;
      }
      var index := archives;
      while index > 0
        invariant 0 <= index <= archives && old(clock) <= clock <= old(clock) + 1 + archives - index
        invariant files == Shifted(start, archives, index) && ok && !Faulted(fails, old(clock), clock)
      {
        index := index - 1;
        RenameTargetFree(start, archives, index);
        if index in files {
          ok := Rename(index, index + 1);
          if !ok {
            assert files == Shifted(start, archives, index + 1);
            return;
          }
        }
      }
    }

    method RotateIfNeeded(incoming: nat) returns (ok: bool)
      requires maxBytes >= MAX_RECORD_BYTES && incoming <= MAX_RECORD_BYTES
      modifies this`files, this`clock
      ensures old(clock) < clock <= old(clock) + archives + 3
      ensures !ok ==> Faulted(fails, old(clock), clock)
      ensures Changed(old(files), files, archives, maxBytes, incoming, ok)
      ensures !Faulted(fails, old(clock), clock) ==> files == CleanRotation(old(files), archives, maxBytes, incoming)
    {
      var current := Metadata();
      if SaturatingAdd(current, incoming) <= maxBytes { return true; }
      if archives == 0 {
        ok := Truncate();
        return;
      }
      ghost var start := files;
      ok := Shift(start);
      if !ok { return; }
      ok := Truncate();
    }

    /** record: rotate if the record does not fit, then append it. */
    method Record(valid: bool, encoded: Text) returns (r: Result<(), AuditError>)
      requires Chronological()
      modifies this
      ensures Chronological() && old(clock) <= clock <= old(clock) + archives + 5
      ensures !valid ==> r == Result.Failure(InvalidRecord)
      ensures valid && |encoded| + 1 > MAX_RECORD_BYTES ==> r == Result.Failure(RecordTooLarge)
      ensures !valid || |encoded| + 1 > MAX_RECORD_BYTES ==> files == old(files) && written == old(written) && clock == old(clock)
      ensures valid && |encoded| + 1 <= MAX_RECORD_BYTES ==>
        && (r.Success? || r == Result.Failure(IoError))
        && (r.Failure? ==> Faulted(fails, old(clock), clock))
        && (!Faulted(fails, old(clock), clock) ==>
            files == Recorded(old(files), archives, maxBytes, encoded + "\n") && written == old(written) + (encoded + "\n"))
      ensures r.Success? ==> written == old(written) + (encoded + "\n") && IsSuffix(encoded + "\n", Content(files, 0))
      ensures WrittenPart(old(written), written, encoded + "\n")
      ensures Full(old(files), archives, maxBytes) ==> Full(files, archives, maxBytes)
    {
      hide Full, Within, Keeping, IsSuffix, Changed, CleanRotation, WrittenPart, Appends, Retained;
      var line := encoded + "\n";
      NothingWritten(written, line);
      if !valid { return Failure(InvalidRecord); }
      if |line| > MAX_RECORD_BYTES { return Failure(RecordTooLarge); }
      var rotated := RotateIfNeeded(|line|);
      AfterRotation(old(files), files, archives, maxBytes, |line|, rotated, written);
      if !rotated { return Failure(IoError); }
      ghost var middle := files;
      var ready := Attempt();
      if !ready { return Failure(IoError); }
      if 0 !in files { files := files[0 := ""]; }
      ghost var live := files;
      var done := WriteAll(line);
      ghost var k: nat :| Appends(live, old(written), files, written, line, k) && (done ==> k == |line|);
      AppendsCreated(middle, live, old(written), files, written, line, k);
      AfterAppend(middle, old(written), files, written, archives, maxBytes, line, k);
      AppendedWhole(middle, old(written), files, written, line);
      if !done { return Failure(IoError); }
      return Success(());
    }
  }

  lemma AppendedWhole(f: Files, was: Text, g: Files, written: Text, t: Text)
    ensures Appends(f, was, g, written, t, |t|) ==> g == f[0 := Content(f, 0) + t] && written == was + t
  {
    assert t[..|t|] == t;
  }
}
