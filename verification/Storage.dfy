/** The storage installer: a confirmed plan, the extent arithmetic, and resources acquired one after
    the other and released in reverse when any step fails. */
module Storage {
  import opened Results

  const MIB: nat := 1024 * 1024

  const GIB: nat := 1024 * MIB

  const MINIMUM_DISK_BYTES: nat := 40 * GIB

  const SWAP_MIB: nat := 4096

  const RESERVE_PERCENT: nat := 5

  datatype StorageError =
    | InvalidTarget | InvalidSecrets | TargetTooSmall | Unconfirmed | TargetInUse | MountPointOutside
    | CommandFailed | InvalidReport | PlanDoesNotFit

  // ---- the confirmed plan ----

  /** What the confirmation hash is taken of; the locked layout is the same for every plan. */
  datatype Plan = Plan(target: string, bytes: nat)

  /** The resolved device and its size as the checks see them. */
  datatype Device = Device(target: string, bytes: nat, usable: bool)

  method PreflightStorage(d: Device, owner: string, recovery: string, digest: Plan -> string) returns (r: Result<string, StorageError>)
    ensures r.Success? <==> d.usable && owner != "" && recovery != "" && owner != recovery && d.bytes >= MINIMUM_DISK_BYTES
    ensures r.Success? ==> r.value == digest(Plan(d.target, d.bytes))
  {
    if owner == "" || recovery == "" || owner == recovery { return Failure(InvalidSecrets); }
    if !d.usable { return Failure(TargetInUse); }
    if d.bytes < MINIMUM_DISK_BYTES { return Failure(TargetTooSmall); }
    return Success(digest(Plan(d.target, d.bytes)));
  }

  function PlanOf(d: Device): Plan { Plan(d.target, d.bytes) }

  ghost predicate Injective(digest: Plan -> string) { forall p, q :: digest(p) == digest(q) ==> p == q }

  // ---- extents ----

  /** The volume group as LVM reports it. */
  datatype Report = Malformed | Extents(extentBytes: real, total: int, free: int)

  datatype Layout = Layout(extentBytes: nat, total: nat, free: nat, reserve: nat, swap: nat, root: nat)

  function Ceiling(x: real): int { -((-x).Floor) }

  function Max(a: int, b: int): int { if a >= b then a else b }

  /** r is the least count that is at least one and at least the reserved share. */
  ghost predicate IsReserve(r: nat, total: nat) {
    r >= 1 && 100 * r >= total * RESERVE_PERCENT && forall q: nat :: q >= 1 && 100 * q >= total * RESERVE_PERCENT ==> q >= r
  }

  /** s is the least count of extents that covers the swap size. */
  ghost predicate IsSwap(s: nat, extentBytes: nat) {
    Covers(s, extentBytes) && forall q: nat :: Covers(q, extentBytes) ==> q >= s
  }

  predicate Covers(s: nat, extentBytes: nat) { s * extentBytes >= SWAP_MIB * MIB }

  ghost predicate Fits(l: Layout) {
    && IsReserve(l.reserve, l.total) && IsSwap(l.swap, l.extentBytes)
    && l.root > 0 && l.root + l.swap + l.reserve == l.free
  }

  function ReserveExtents(total: nat): nat { Max(1, (total * RESERVE_PERCENT + 99) / 100) }

  function SwapExtents(extentBytes: nat): nat
    requires extentBytes > 0
  {
    (SWAP_MIB * MIB + extentBytes - 1) / extentBytes
  }

  lemma ReserveIsLeast(total: nat)
    ensures IsReserve(ReserveExtents(total), total)
  {
    var r := (total * RESERVE_PERCENT + 99) / 100;
    assert 100 * r <= total * RESERVE_PERCENT + 99 < 100 * (r + 1);
  }

  lemma SwapIsLeast(extentBytes: nat)
    requires extentBytes > 0
    ensures IsSwap(SwapExtents(extentBytes), extentBytes)
  {
    var need, s := SWAP_MIB * MIB, SwapExtents(extentBytes);
    DivisionRemainder(need + extentBytes - 1, extentBytes);
    assert s * extentBytes <= need + extentBytes - 1 < s * extentBytes + extentBytes;
    forall q: nat | Covers(q, extentBytes) ensures q >= s {
      if q < s { Smaller(q, s, extentBytes); }
    }
  }

  lemma DivisionRemainder(a: nat, b: nat)
    requires b > 0
    ensures a / b * b <= a < a / b * b + b
  {
  }

  lemma Smaller(q: nat, s: nat, e: nat)
    requires q < s
    ensures q * e + e <= s * e
  {
    assert s * e == q * e + e + (s - q - 1) * e;
  }

  /** The layout for the reported extents: no larger root is possible, and none at all exactly when
      reserve and swap leave nothing. */
  function PlanExtents(report: Report): (r: Result<Layout, StorageError>)
    ensures r.Success? ==> Fits(r.value) && report.Extents? && r.value.extentBytes == Ceiling(report.extentBytes)
    ensures r.Success? ==> r.value.total == report.total && r.value.free == report.free
    ensures r == Result.Failure(InvalidReport) <==>
      report.Malformed? || Ceiling(report.extentBytes) <= 0 || report.total <= 0 || report.free <= 0
    ensures r.Failure? ==> r.error == InvalidReport || r.error == PlanDoesNotFit
    ensures r == Result.Failure(PlanDoesNotFit) ==> NothingFits(Ceiling(report.extentBytes), report.total, report.free)
  {
    if report.Malformed? then Failure(InvalidReport)
    else
      var extentBytes := Ceiling(report.extentBytes);
      if extentBytes <= 0 || report.total <= 0 || report.free <= 0 then Failure(InvalidReport)
      else
        var reserve, swap := ReserveExtents(report.total), SwapExtents(extentBytes);
        var root := report.free - reserve - swap;
        ReserveIsLeast(report.total);
        SwapIsLeast(extentBytes);
        if root <= 0 then
          LeavesNothing(extentBytes, report.total, report.free);
          Failure(PlanDoesNotFit)
        else
          Success(Layout(extentBytes, report.total, report.free, reserve, swap, root))
  }

  /** No layout for these extents leaves room for a root. */
  ghost predicate NothingFits(extentBytes: int, total: int, free: int) {
    forall l: Layout :: l.extentBytes == extentBytes && l.total == total && l.free == free ==> !Fits(l)
  }

  lemma LeavesNothing(extentBytes: nat, total: nat, free: nat)
    requires extentBytes > 0 && free - ReserveExtents(total) - SwapExtents(extentBytes) <= 0
    ensures NothingFits(extentBytes, total, free)
  {
    hide ReserveExtents, SwapExtents, Covers;
    ReserveIsLeast(total);
    SwapIsLeast(extentBytes);
    forall l: Layout | l.extentBytes == extentBytes && l.total == total && l.free == free ensures !Fits(l) {
      if IsReserve(l.reserve, l.total) && IsSwap(l.swap, l.extentBytes) {
        LeastIsUnique(l.reserve, total, l.swap, extentBytes);
      }
    }
  }

  lemma LeastIsUnique(reserve: nat, total: nat, swap: nat, extentBytes: nat)
    requires extentBytes > 0 && IsReserve(reserve, total) && IsSwap(swap, extentBytes)
    ensures reserve == ReserveExtents(total) && swap == SwapExtents(extentBytes)
  {
    hide ReserveExtents, SwapExtents, Covers;
    ReserveIsLeast(total);
    SwapIsLeast(extentBytes);
  }

  // ---- resources ----

  datatype Resource = Mapper | VolumeGroup | RootMount | BootMount | EspMount

  /** Resources in the order they are acquired; each is built on the one before it. */
  const CHAIN: seq<Resource> := [Mapper, VolumeGroup, RootMount, BootMount, EspMount]

  function FirstOf(n: nat): set<Resource>
    requires n <= 5
  {
    set r | r in CHAIN[..n]
  }

  /** The resource that sits directly on top of r. */
  function Child(r: Resource): Option<Resource> {
    match r
    case Mapper => Some(VolumeGroup)
    case VolumeGroup => Some(RootMount)
    case RootMount => Some(BootMount)
    case BootMount => Some(EspMount)
    case EspMount => None
  }

  datatype Command =
    | Wipe | Partition | Reread | Settle | FormatEsp | FormatBoot | LuksFormat | AddRecoveryKey
    | Acquire(resource: Resource)
    | CreatePv | CreateRoot(extents: nat) | CreateSwap(extents: nat) | FormatRoot | MakeSwap | MakeDirectory | ReadUuid

  datatype Outcome = Works | FailsClean | FailsLeaving   // a failing command may still leave its resource behind

  class Machine {
    var held: set<Resource>
    var ran: seq<Command>          // commands that worked
    var released: seq<Resource>    // releases that worked
    var clock: nat
    const outcome: nat -> Outcome  // of the n-th command

    constructor (outcome: nat -> Outcome)
      ensures this.outcome == outcome && clock == 0
      ensures held == {} && ran == [] && released == []
    {
      this.outcome := outcome;
      held, ran, released, clock := {}, [], [], 0;
    }

    method Execute(c: Command) returns (ok: bool)
      modifies this`held, this`ran, this`clock
      ensures ok == outcome(old(clock)).Works? && clock == old(clock) + 1
      ensures ran == if ok then old(ran) + [c] else old(ran)
      ensures held == if c.Acquire? && !outcome(old(clock)).FailsClean? then old(held) + {c.resource} else old(held)
    {
      var o := outcome(clock);
      clock := clock + 1;
      ok := o.Works?;
      if ok { ran := ran + [c]; }
      if c.Acquire? && !o.FailsClean? { held := held + {c.resource}; }
    }

    /** umount, vgchange -an or cryptsetup close: refused while something sits on top. */
    method Release(r: Resource)
      modifies this`held, this`released
      ensures if r in old(held) && (Child(r).None? || Child(r).value !in old(held))
        then held == old(held) - {r} && released == old(released) + [r]
        else held == old(held) && released == old(released)
    {
      if r in held && (Child(r).None? || Child(r).value !in held) {
        held := held - {r};
        released := released + [r];
      }
    }

    method ExecuteAll(commands: seq<Command>) returns (ok: bool)
      requires forall c :: c in commands ==> !c.Acquire?
      modifies this`held, this`ran, this`clock
      ensures held == old(held)
      ensures var k := Worked(outcome, old(clock), |commands|);
        && ok == (k == |commands|) && ran == old(ran) + commands[..k]
        && clock == old(clock) + if ok then k else k + 1
    {
      hide Worked;
      NoneWorked(outcome, clock);
      for i := 0 to |commands|
        invariant held == old(held) && ran == old(ran) + commands[..i] && clock == old(clock) + i
        invariant Worked(outcome, old(clock), i) == i
      {
        assert commands[..i + 1] == commands[..i] + [commands[i]];
        assert commands[i] in commands;
        WorkedUpTo(outcome, old(clock), i, |commands|);
        ok := Execute(commands[i]);
        if !ok { return; }
      }
      assert commands[..|commands|] == commands;
      ok := true;
    }
  }

  /** How many of the next n commands work before the first that fails. */
  function Worked(outcome: nat -> Outcome, clock: nat, n: nat): (k: nat)
    ensures k <= n && (k < n ==> !outcome(clock + k).Works?)
    ensures forall t :: clock <= t < clock + k ==> outcome(t).Works?
    decreases n
  {
    if n == 0 || !outcome(clock).Works? then 0 else 1 + Worked(outcome, clock + 1, n - 1)
  }

  lemma {:induction false} WorkedThen(outcome: nat -> Outcome, clock: nat, a: nat, b: nat)
    ensures var k := Worked(outcome, clock, a);
      Worked(outcome, clock, a + b) == if k < a then k else a + Worked(outcome, clock + a, b)
    decreases a
  {
    if a > 0 && outcome(clock).Works? { WorkedThen(outcome, clock + 1, a - 1, b); }
  }

  lemma NoneWorked(outcome: nat -> Outcome, clock: nat)
    ensures Worked(outcome, clock, 0) == 0
  {
  }

  lemma WorkedUpTo(outcome: nat -> Outcome, clock: nat, i: nat, n: nat)
    requires i < n && Worked(outcome, clock, i) == i
    ensures Worked(outcome, clock, n) >= i
    ensures if outcome(clock + i).Works? then Worked(outcome, clock, i + 1) == i + 1 else Worked(outcome, clock, n) == i
  {
    WorkedThen(outcome, clock, i, 1);
    WorkedThen(outcome, clock, i, n - i);
  }

  /** The flags of one invocation. */
  datatype Owned = Owned(mapper: bool, vg: bool, root: bool, boot: bool, esp: bool)

  /** The flags when the first n resources have been acquired. */
  function Marked(n: nat): Owned { Owned(n >= 1, n >= 2, n >= 3, n >= 4, n >= 5) }

  function Backwards(n: nat): seq<Resource>
    requires n <= 5
  {
    if n == 0 then [] else [CHAIN[n - 1]] + Backwards(n - 1)
  }

  /** Where each resource stands in the chain. */
  lemma ChainAt(k: nat, j: nat)
    requires k < 5 && j <= 5
    ensures CHAIN[k] in FirstOf(j) <==> k < j
    ensures FirstOf(k + 1) - {CHAIN[k]} == FirstOf(k) && FirstOf(k) + {CHAIN[k]} == FirstOf(k + 1)
    ensures Child(CHAIN[k]) == if k < 4 then Some(CHAIN[k + 1]) else None
  {
    assert CHAIN[..k + 1] == CHAIN[..k] + [CHAIN[k]];
    if k < j { assert CHAIN[..j][k] == CHAIN[k]; }
    assert forall i :: 0 <= i < 5 && i != k ==> CHAIN[i] != CHAIN[k];
  }

  function Least(a: nat, b: nat): nat { if a <= b then a else b }

  /** How much of the chain is held when the resources above index k have been let go. */
  function HeldAt(n: nat, k: nat, leak: bool): nat { if leak then n + 1 else Least(n, k) }

  method ReleaseIf(m: Machine, flag: bool, r: Resource, ghost k: nat, ghost n: nat, ghost leak: bool)
    requires k < 5 && CHAIN[k] == r && n <= 5 && (leak ==> n < 5) && (flag <==> n > k)
    requires m.held == FirstOf(HeldAt(n, k + 1, leak))
    modifies m`held, m`released
    ensures m.held == FirstOf(HeldAt(n, k, leak))
    ensures m.released == old(m.released) + if flag && !leak then [r] else []
  {
    ChainAt(k, HeldAt(n, k + 1, leak));
    if k < 4 { ChainAt(k + 1, HeldAt(n, k + 1, leak)); }
    if flag { m.Release(r); }
  }

  /** Everything owned is released, children first; a leftover on top blocks every release. */
  method CleanupOwned(m: Machine, o: Owned, ghost n: nat, ghost leak: bool)
    requires n <= 5 && o == Marked(n) && (leak ==> n < 5) && m.held == FirstOf(if leak then n + 1 else n)
    modifies m`held, m`released
    ensures !leak ==> m.held == {} && m.released == old(m.released) + Backwards(n)
    ensures leak ==> m.held == old(m.held) && m.released == old(m.released)
  {
    hide FirstOf, Backwards;
    ReleaseIf(m, o.esp, EspMount, 4, n, leak);
    ReleaseIf(m, o.boot, BootMount, 3, n, leak);
    ReleaseIf(m, o.root, RootMount, 2, n, leak);
    ReleaseIf(m, o.vg, VolumeGroup, 1, n, leak);
    ReleaseIf(m, o.mapper, Mapper, 0, n, leak);
    NothingHeld();
    BackwardsOf();
  }

  lemma NothingHeld()
    ensures FirstOf(0) == {}
  {
    assert CHAIN[..0] == [];
  }

  lemma BackwardsOf()
    ensures Backwards(0) == [] && Backwards(1) == [Mapper] && Backwards(2) == [VolumeGroup, Mapper]
    ensures Backwards(3) == [RootMount, VolumeGroup, Mapper] && Backwards(4) == [BootMount, RootMount, VolumeGroup, Mapper]
    ensures Backwards(5) == [EspMount, BootMount, RootMount, VolumeGroup, Mapper]
  {
    assert Backwards(0) == [];
    assert Backwards(1) == [CHAIN[0]] + Backwards(0);
    assert Backwards(2) == [CHAIN[1]] + Backwards(1);
    assert Backwards(3) == [CHAIN[2]] + Backwards(2);
    assert Backwards(4) == [CHAIN[3]] + Backwards(3);
    assert Backwards(5) == [CHAIN[4]] + Backwards(4);
  }

  // ---- the run ----

  const BEFORE_OPEN: seq<Command> := [Wipe, Partition, Reread, Settle, FormatEsp, FormatBoot, LuksFormat, AddRecoveryKey]

  const READ_UUIDS: seq<Command> := [ReadUuid, ReadUuid, ReadUuid, ReadUuid, ReadUuid]

  function OpenScript(): seq<Command> { BEFORE_OPEN + [Acquire(Mapper)] + ([CreatePv] + [Acquire(VolumeGroup)]) }

  function VolumeScript(l: Layout): seq<Command> {
    [CreateRoot(l.root), CreateSwap(l.swap), FormatRoot, MakeSwap, MakeDirectory] + [Acquire(RootMount)]
  }

  function MountScript(): seq<Command> { BelowRoot() + READ_UUIDS }

  /** The commands a run tries, in order: all of them, or none after the extents turn out too few. */
  function Script(report: Report): seq<Command> {
    match PlanExtents(report)
    case Success(l) => OpenScript() + (VolumeScript(l) + MountScript())
    case Failure(_) => OpenScript()
  }

  /** How many resources a list of commands acquires. */
  function Acquired(s: seq<Command>): nat {
    if s == [] then 0 else Acquired(s[..|s| - 1]) + if s[|s| - 1].Acquire? then 1 else 0
  }

  lemma {:induction false} AcquiredConcat(a: seq<Command>, b: seq<Command>)
    ensures Acquired(a + b) == Acquired(a) + Acquired(b)
  {
    if b == [] {
      assert a + b == a;
    } else {
      assert (a + b)[..|a + b| - 1] == a + b[..|b| - 1];
      AcquiredConcat(a, b[..|b| - 1]);
    }
  }

  lemma {:induction false} AcquiresNothing(s: seq<Command>)
    requires forall c :: c in s ==> !c.Acquire?
    ensures Acquired(s) == 0
  {
    if s != [] {
      assert s[|s| - 1] in s;
      AcquiresNothing(s[..|s| - 1]);
    }
  }

  /** The command that fails, the k-th of s, leaves its resource behind. */
  predicate Leaves(outcome: nat -> Outcome, clock: nat, s: seq<Command>, k: nat)
    requires k <= |s|
  {
    k < |s| && s[k].Acquire? && outcome(clock + k).FailsLeaving?
  }

  /** What a run has of the machine at some point. */
  datatype Standing = Standing(ran: seq<Command>, clock: nat, held: set<Resource>, owned: Owned)

  /** From a standing with the first n resources: the first k commands of s worked, and the next, if any, failed. */
  ghost predicate Reached(outcome: nat -> Outcome, s: seq<Command>, n: nat, before: Standing, after: Standing, ok: bool, k: nat) {
    && k <= |s| && ok == (k == |s|)
    && after.ran == before.ran + s[..k] && after.clock == before.clock + (if ok then k else k + 1)
    && Holds(n + Acquired(s[..k]), Leaves(outcome, before.clock, s, k), after)
  }

  /** The first got resources are acquired and marked; leak tells whether the next one was left as well. */
  ghost predicate Holds(got: nat, leak: bool, after: Standing) {
    && (if leak then got < 5 else got <= 5) && after.owned == Marked(got)
    && after.held == FirstOf(if leak then got + 1 else got)
  }

  /** Trying the commands of s up to the first that fails. */
  ghost predicate Tried(outcome: nat -> Outcome, s: seq<Command>, n: nat, before: Standing, after: Standing, ok: bool) {
    Reached(outcome, s, n, before, after, ok, Worked(outcome, before.clock, |s|))
  }

  lemma TriedHolds(outcome: nat -> Outcome, s: seq<Command>, n: nat, start: Standing, end: Standing)
    requires Tried(outcome, s, n, start, end, true)
    ensures n + Acquired(s) <= 5 && end.owned == Marked(n + Acquired(s)) && end.held == FirstOf(n + Acquired(s))
    ensures end.ran == start.ran + s && end.clock == start.clock + |s| && Worked(outcome, start.clock, |s|) == |s|
  {
    hide FirstOf, Acquired, Worked, Marked;
    assert s[..|s|] == s;
  }

  lemma LeavesLater(outcome: nat -> Outcome, clock: nat, a: seq<Command>, b: seq<Command>, j: nat)
    requires j <= |b|
    ensures (a + b)[..|a| + j] == a + b[..j] && Acquired((a + b)[..|a| + j]) == Acquired(a) + Acquired(b[..j])
    ensures Leaves(outcome, clock, a + b, |a| + j) == Leaves(outcome, clock + |a|, b, j)
  {
    hide Acquired;
    assert (a + b)[..|a| + j] == a + b[..j];
    AcquiredConcat(a, b[..j]);
  }

  lemma TriedThen(outcome: nat -> Outcome, a: seq<Command>, b: seq<Command>, n: nat, start: Standing, middle: Standing,
                  end: Standing, ok: bool)
    requires Tried(outcome, a, n, start, middle, true) && Tried(outcome, b, n + Acquired(a), middle, end, ok)
    ensures Tried(outcome, a + b, n, start, end, ok)
  {
    hide Acquired, Worked, Reached;
    TriedHolds(outcome, a, n, start, middle);
    WorkedThen(outcome, start.clock, |a|, |b|);
    ReachedLater(outcome, a, b, n, start, middle, end, ok, Worked(outcome, middle.clock, |b|));
  }

  lemma ReachedLater(outcome: nat -> Outcome, a: seq<Command>, b: seq<Command>, n: nat, start: Standing, middle: Standing,
                     end: Standing, ok: bool, j: nat)
    requires Reached(outcome, b, n + Acquired(a), middle, end, ok, j)
    requires middle.ran == start.ran + a && middle.clock == start.clock + |a|
    ensures Reached(outcome, a + b, n, start, end, ok, |a| + j)
  {
    hide FirstOf, Acquired, Leaves, Holds;
    LeavesLater(outcome, start.clock, a, b, j);
    RanThen(start.ran, a, b[..j]);
    var done := (a + b)[..|a| + j];
    assert end.ran == start.ran + done;
    assert n + Acquired(a) + Acquired(b[..j]) == n + Acquired(done);
  }

  lemma RanThen(was: seq<Command>, a: seq<Command>, b: seq<Command>)
    ensures was + a + b == was + (a + b)
  {
  }

  lemma TriedAndFailed(outcome: nat -> Outcome, a: seq<Command>, b: seq<Command>, n: nat, start: Standing, middle: Standing)
    requires Tried(outcome, a, n, start, middle, false)
    ensures Tried(outcome, a + b, n, start, middle, false)
  {
    hide FirstOf, Acquired, Worked;
    var k := Worked(outcome, start.clock, |a|);
    WorkedThen(outcome, start.clock, |a|, |b|);
    assert (a + b)[..k] == a[..k];
  }

  ghost function StandingOf(m: Machine, o: Owned): Standing
    reads m
  {
    Standing(m.ran, m.clock, m.held, o)
  }

  /** Some commands, then the next resource of the chain. */
  method Advance(m: Machine, o: Owned, before: seq<Command>, r: Resource, ghost n: nat) returns (ok: bool)
    requires n < 5 && CHAIN[n] == r && o == Marked(n) && m.held == FirstOf(n) && forall c :: c in before ==> !c.Acquire?
    modifies m`held, m`ran, m`clock
    ensures Tried(m.outcome, before + [Acquire(r)], n, old(StandingOf(m, o)), StandingOf(m, Marked(if ok then n + 1 else n)), ok)
    ensures Acquired(before + [Acquire(r)]) == 1
  {
    hide FirstOf, Worked, Acquired, Tried, Marked;
    ghost var start := StandingOf(m, o);
    ChainAt(n, n);
    SecondAcquires(before + [Acquire(r)], r, before);
    ok := m.ExecuteAll(before);
    ReadsTried(m.outcome, before, n, start, StandingOf(m, o), ok);
    if !ok {
      TriedAndFailed(m.outcome, before, [Acquire(r)], n, start, StandingOf(m, o));
      return;
    }
    ghost var middle := StandingOf(m, o);
    AcquiresNothing(before);
    ok := m.Execute(Acquire(r));
    AcquireTried(m.outcome, r, n, middle, StandingOf(m, Marked(if ok then n + 1 else n)), ok);
    TriedThen(m.outcome, before, [Acquire(r)], n, start, middle, StandingOf(m, Marked(if ok then n + 1 else n)), ok);
  }

  lemma AcquireTried(outcome: nat -> Outcome, r: Resource, n: nat, before: Standing, after: Standing, ok: bool)
    requires n < 5 && CHAIN[n] == r && before.owned == Marked(n) && before.held == FirstOf(n)
    requires ok == outcome(before.clock).Works? && after.clock == before.clock + 1
    requires after.ran == (if ok then before.ran + [Acquire(r)] else before.ran) && after.owned == Marked(if ok then n + 1 else n)
    requires after.held == if !outcome(before.clock).FailsClean? then before.held + {r} else before.held
    ensures Tried(outcome, [Acquire(r)], n, before, after, ok)
  {
    hide FirstOf;
    ChainAt(n, n);
    assert [Acquire(r)][..0] == [] && [Acquire(r)][..1] == [Acquire(r)];
    assert Acquired([Acquire(r)]) == Acquired([]) + 1;
  }

  /** Partitions, encryption and the volume group. */
  method OpenVolume(m: Machine) returns (ok: bool, o: Owned)
    requires m.held == {}
    modifies m`held, m`ran, m`clock
    ensures Tried(m.outcome, OpenScript(), 0, old(StandingOf(m, Marked(0))), StandingOf(m, o), ok)
    ensures Acquired(OpenScript()) == 2
  {
    hide FirstOf, Tried, Acquired, Worked;
    NothingHeld();
    ghost var first, second := BEFORE_OPEN + [Acquire(Mapper)], [CreatePv] + [Acquire(VolumeGroup)];
    ghost var start := StandingOf(m, Marked(0));
    o := Owned(false, false, false, false, false);
    ok := Advance(m, o, BEFORE_OPEN, Mapper, 0);
    SecondAcquires(second, VolumeGroup, [CreatePv]);
    AcquiredConcat(first, second);
    if !ok {
      TriedAndFailed(m.outcome, first, second, 0, start, StandingOf(m, o));
      return;
    }
    o := o.(mapper := true);
    ghost var middle := StandingOf(m, o);
    TriedHolds(m.outcome, first, 0, start, middle);
    ok := Advance(m, o, [CreatePv], VolumeGroup, 1);
    if ok { o := o.(vg := true); }
    TriedThen(m.outcome, first, second, 0, start, middle, StandingOf(m, o), ok);
  }

  lemma SecondAcquires(s: seq<Command>, r: Resource, before: seq<Command>)
    requires s == before + [Acquire(r)] && forall c :: c in before ==> !c.Acquire?
    ensures Acquired(s) == 1
  {
    AcquiresNothing(before);
    assert s[..|s| - 1] == before;
  }

  /** Logical volumes, file systems and the root mount. */
  method MountRoot(m: Machine, l: Layout, start: Owned) returns (ok: bool, o: Owned)
    requires m.held == FirstOf(2) && start == Marked(2)
    modifies m`held, m`ran, m`clock
    ensures Tried(m.outcome, VolumeScript(l), 2, old(StandingOf(m, start)), StandingOf(m, o), ok)
    ensures Acquired(VolumeScript(l)) == 1
  {
    hide FirstOf, Tried, Acquired, Worked;
    o := start;
    ok := Advance(m, o, [CreateRoot(l.root), CreateSwap(l.swap), FormatRoot, MakeSwap, MakeDirectory], RootMount, 2);
    if ok { o := o.(root := true); }
  }

  function BelowRoot(): seq<Command> { [MakeDirectory] + [Acquire(BootMount)] + ([MakeDirectory] + [Acquire(EspMount)]) }

  /** The two mounts below the root. */
  method MountBoot(m: Machine, start: Owned) returns (ok: bool, o: Owned)
    requires m.held == FirstOf(3) && start == Marked(3)
    modifies m`held, m`ran, m`clock
    ensures Tried(m.outcome, BelowRoot(), 3, old(StandingOf(m, start)), StandingOf(m, o), ok)
    ensures Acquired(BelowRoot()) == 2
  {
    hide FirstOf, Tried, Acquired, Worked;
    ghost var boot, esp := [MakeDirectory] + [Acquire(BootMount)], [MakeDirectory] + [Acquire(EspMount)];
    ghost var was := StandingOf(m, start);
    SecondAcquires(boot, BootMount, [MakeDirectory]);
    SecondAcquires(esp, EspMount, [MakeDirectory]);
    AcquiredConcat(boot, esp);
    o := start;
    ok := Advance(m, o, [MakeDirectory], BootMount, 3);
    if !ok {
      TriedAndFailed(m.outcome, boot, esp, 3, was, StandingOf(m, o));
      return;
    }
    o := o.(boot := true);
    ghost var middle := StandingOf(m, o);
    TriedHolds(m.outcome, boot, 3, was, middle);
    ok := Advance(m, o, [MakeDirectory], EspMount, 4);
    if ok { o := o.(esp := true); }
    TriedThen(m.outcome, boot, esp, 3, was, middle, StandingOf(m, o), ok);
  }

  /** The mounts below the root, then the identifiers of what was built. */
  method MountAndRead(m: Machine, start: Owned) returns (ok: bool, o: Owned)
    requires m.held == FirstOf(3) && start == Marked(3)
    modifies m`held, m`ran, m`clock
    ensures Tried(m.outcome, MountScript(), 3, old(StandingOf(m, start)), StandingOf(m, o), ok)
    ensures Acquired(MountScript()) == 2
  {
    hide FirstOf, Tried, Acquired, Worked, BelowRoot;
    ghost var was := StandingOf(m, start);
    ok, o := MountBoot(m, start);
    AcquiredConcat(BelowRoot(), READ_UUIDS);
    AcquiresNothing(READ_UUIDS);
    if !ok {
      TriedAndFailed(m.outcome, BelowRoot(), READ_UUIDS, 3, was, StandingOf(m, o));
      return;
    }
    ghost var middle := StandingOf(m, o);
    TriedHolds(m.outcome, BelowRoot(), 3, was, middle);
    ok := m.ExecuteAll(READ_UUIDS);
    ReadsTried(m.outcome, READ_UUIDS, 5, middle, StandingOf(m, o), ok);
    TriedThen(m.outcome, BelowRoot(), READ_UUIDS, 3, was, middle, StandingOf(m, o), ok);
  }

  /** Commands that acquire nothing. */
  lemma ReadsTried(outcome: nat -> Outcome, s: seq<Command>, n: nat, before: Standing, after: Standing, ok: bool)
    requires n <= 5 && (forall c :: c in s ==> !c.Acquire?) && before.owned == Marked(n) && before.held == FirstOf(n)
    requires after.held == before.held && after.owned == before.owned
    requires var k := Worked(outcome, before.clock, |s|);
      ok == (k == |s|) && after.ran == before.ran + s[..k] && after.clock == before.clock + if ok then k else k + 1
    ensures Tried(outcome, s, n, before, after, ok)
  {
    hide FirstOf, Worked, Acquired, Marked;
    var k := Worked(outcome, before.clock, |s|);
    assert forall c :: c in s[..k] ==> c in s;
    AcquiresNothing(s[..k]);
    if k < |s| { assert s[k] in s; }
  }

  /** The body of the try block; the flags say what it acquired. */
  method BuildTarget(m: Machine, report: Report) returns (r: Result<Layout, StorageError>, o: Owned)
    requires m.held == {}
    modifies m`held, m`ran, m`clock
    ensures exists ok :: (
      && Tried(m.outcome, Script(report), 0, old(StandingOf(m, Marked(0))), StandingOf(m, o), ok)
      && r == if ok then PlanExtents(report) else Failure(CommandFailed))
    ensures Acquired(Script(report)) == if PlanExtents(report).Success? then 5 else 2
  {
    hide FirstOf, Tried, Acquired, Worked, OpenScript, VolumeScript, MountScript, PlanExtents;
    ghost var start := StandingOf(m, Marked(0));
    var unlocked, planned := false, PlanExtents(report);
    unlocked, o := OpenVolume(m);
    if planned.Failure? {
      assert Tried(m.outcome, Script(report), 0, start, StandingOf(m, o), unlocked);
      return if unlocked then planned else Failure(CommandFailed), o;
    }
    ghost var volume, mount := VolumeScript(planned.value), MountScript();
    assert Script(report) == OpenScript() + (volume + mount);
    ScriptAcquires(volume, planned.value);
    if !unlocked {
      TriedAndFailed(m.outcome, OpenScript(), volume + mount, 0, start, StandingOf(m, o));
      return Failure(CommandFailed), o;
    }
    ghost var middle := StandingOf(m, o);
    TriedHolds(m.outcome, OpenScript(), 0, start, middle);
    var mounted;
    mounted, o := MountRoot(m, planned.value, o);
    if !mounted {
      TriedAndFailed(m.outcome, volume, mount, 2, middle, StandingOf(m, o));
    } else {
      ghost var late := StandingOf(m, o);
      TriedHolds(m.outcome, volume, 2, middle, late);
      mounted, o := MountAndRead(m, o);
      TriedThen(m.outcome, volume, mount, 2, middle, late, StandingOf(m, o), mounted);
    }
    TriedThen(m.outcome, OpenScript(), volume + mount, 0, start, middle, StandingOf(m, o), mounted);
    return if mounted then planned else Failure(CommandFailed), o;
  }

  lemma ScriptAcquires(volume: seq<Command>, l: Layout)
    requires volume == VolumeScript(l)
    ensures Acquired(OpenScript() + (volume + MountScript())) == 5
  {
    var boot, esp := [MakeDirectory] + [Acquire(BootMount)], [MakeDirectory] + [Acquire(EspMount)];
    AcquiredConcat(OpenScript(), volume + MountScript());
    AcquiredConcat(volume, MountScript());
    SecondAcquires(volume, RootMount, [CreateRoot(l.root), CreateSwap(l.swap), FormatRoot, MakeSwap, MakeDirectory]);
    SecondAcquires(BEFORE_OPEN + [Acquire(Mapper)], Mapper, BEFORE_OPEN);
    SecondAcquires([CreatePv] + [Acquire(VolumeGroup)], VolumeGroup, [CreatePv]);
    AcquiredConcat(BEFORE_OPEN + [Acquire(Mapper)], [CreatePv] + [Acquire(VolumeGroup)]);
    SecondAcquires(boot, BootMount, [MakeDirectory]);
    SecondAcquires(esp, EspMount, [MakeDirectory]);
    AcquiredConcat(boot, esp);
    AcquiredConcat(boot + esp, READ_UUIDS);
    AcquiresNothing(READ_UUIDS);
  }

  /** Every check that comes before the first command. */
  predicate MayStart(d: Device, owner: string, recovery: string, confirmed: string, digest: Plan -> string, below: bool) {
    && owner != "" && recovery != "" && owner != recovery
    && d.bytes >= MINIMUM_DISK_BYTES && confirmed == digest(Plan(d.target, d.bytes)) && d.usable && below
  }

  /** prepare_storage: nothing runs before every check has passed, then the script runs up to its first
      failing command.  After a failure nothing acquired is held and releases went children first,
      unless the failing command itself left its resource: then nothing is released. */
  method PrepareStorage(m: Machine, d: Device, owner: string, recovery: string, confirmed: string, digest: Plan -> string,
                        below: bool, report: Report)
    returns (r: Result<Layout, StorageError>)
    requires m.held == {}
    modifies m
    ensures !MayStart(d, owner, recovery, confirmed, digest, below) ==>
      r.Failure? && m.ran == old(m.ran) && m.clock == old(m.clock) && m.held == {} && m.released == old(m.released)
    ensures MayStart(d, owner, recovery, confirmed, digest, below) ==>
      var s := Script(report);
      var k := Worked(m.outcome, old(m.clock), |s|);
      && r == (if k == |s| then PlanExtents(report) else Failure(CommandFailed))
      && m.ran == old(m.ran) + s[..k] && Acquired(s[..k]) <= 5
      && (r.Success? ==> m.held == FirstOf(5) && m.released == old(m.released))
      && (r.Failure? && !Leaves(m.outcome, old(m.clock), s, k) ==>
          m.held == {} && m.released == old(m.released) + Backwards(Acquired(s[..k])))
      && (Leaves(m.outcome, old(m.clock), s, k) ==>
          Acquired(s[..k]) < 5 && m.held == FirstOf(Acquired(s[..k]) + 1) && m.released == old(m.released))
    ensures r.Failure? && (forall t :: !m.outcome(t).FailsLeaving?) ==> m.held == {}
  {
    hide FirstOf, Script, Fits, Worked, Backwards, Acquired, PlanExtents;
    if owner == "" || recovery == "" || owner == recovery { return Failure(InvalidSecrets); }
    if d.bytes < MINIMUM_DISK_BYTES { return Failure(TargetTooSmall); }
    if confirmed != digest(Plan(d.target, d.bytes)) { return Failure(Unconfirmed); }
    if !d.usable { return Failure(TargetInUse); }
    if !below { return Failure(MountPointOutside); }
    ghost var s, k := Script(report), Worked(m.outcome, m.clock, |Script(report)|);
    var o;
    r, o := BuildTarget(m, report);
    if r.Failure? { CleanupOwned(m, o, Acquired(s[..k]), Leaves(m.outcome, old(m.clock), s, k)); }
    assert k == |s| ==> s[..k] == s;
  }

  /** Preflight shows one device, the installation finds another.  Under an injective hash nothing runs unless
      target and size are the ones that were confirmed. */
  method InstallConfirmed(m: Machine, shown: Device, found: Device, owner: string, recovery: string, digest: Plan -> string,
                          below: bool, report: Report)
    returns (r: Result<Layout, StorageError>)
    requires m.held == {}
    modifies m
    ensures Injective(digest) && (found.target != shown.target || found.bytes != shown.bytes) ==>
      r.Failure? && m.ran == old(m.ran) && m.held == {} && m.released == old(m.released)
    ensures r.Success? ==> shown.usable && found.usable && found.bytes >= MINIMUM_DISK_BYTES && digest(PlanOf(found)) == digest(PlanOf(shown))
  {
    hide Script, Worked, Acquired, Leaves, PlanExtents, FirstOf, Backwards;
    var confirmed :- PreflightStorage(shown, owner, recovery, digest);
    r := PrepareStorage(m, found, owner, recovery, confirmed, digest, below, report);
  }

  /** A concrete failure that leaves its resource: vgcreate reports an error after creating the group, and
      the mapper below it stays open. */
  method LeftGroupHoldsMapper(d: Device, report: Report, digest: Plan -> string) returns (m: Machine, r: Result<Layout, StorageError>)
    requires d.usable && d.bytes >= MINIMUM_DISK_BYTES
    ensures r == Failure(CommandFailed) && m.held == {Mapper, VolumeGroup} && m.released == []
    ensures m.ran == BEFORE_OPEN + [Acquire(Mapper), CreatePv]
  {
    m := new Machine(t => if t == 10 then FailsLeaving else Works);
    GroupFails(m.outcome, report);
    r := PrepareStorage(m, d, "owner", "recovery", digest(Plan(d.target, d.bytes)), digest, true, report);
  }

  lemma TenWork(outcome: nat -> Outcome)
    requires forall t: nat :: outcome(t) == if t == 10 then FailsLeaving else Works
    ensures Worked(outcome, 0, 10) == 10
  {
    hide Worked;
    NoneWorked(outcome, 0);
    for i := 0 to 10
      invariant Worked(outcome, 0, i) == i
    {
      WorkedUpTo(outcome, 0, i, i + 1);
    }
  }

  lemma AtOnce(outcome: nat -> Outcome, clock: nat, n: nat)
    requires !outcome(clock).Works?
    ensures Worked(outcome, clock, n) == 0
  {
  }

  lemma GroupFails(outcome: nat -> Outcome, report: Report)
    requires forall t: nat :: outcome(t) == if t == 10 then FailsLeaving else Works
    ensures var s := Script(report);
      && |s| > 10 && Worked(outcome, 0, |s|) == 10 && Leaves(outcome, 0, s, 10)
      && s[..10] == BEFORE_OPEN + [Acquire(Mapper), CreatePv] && Acquired(s[..10]) == 1
    ensures FirstOf(2) == {Mapper, VolumeGroup}
  {
    hide PlanExtents, Worked, Acquired;
    var s := Script(report);
    assert s[..11] == OpenScript();
    assert s[10] == Acquire(VolumeGroup);
    assert s[..10] == BEFORE_OPEN + [Acquire(Mapper), CreatePv];
    TenWork(outcome);
    WorkedThen(outcome, 0, 10, |s| - 10);
    AtOnce(outcome, 10, |s| - 10);
    AcquiredConcat(BEFORE_OPEN + [Acquire(Mapper)], [CreatePv]);
    assert s[..10] == BEFORE_OPEN + [Acquire(Mapper)] + [CreatePv];
    SecondAcquires(BEFORE_OPEN + [Acquire(Mapper)], Mapper, BEFORE_OPEN);
    AcquiresNothing([CreatePv]);
    assert CHAIN[..2] == [Mapper, VolumeGroup];
  }
}
