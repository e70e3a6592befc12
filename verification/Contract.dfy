/** The contract graph: what validation guarantees to the collectors that report unresolved values,
    and when a repository counts as release-resolved. */
module Contract {
  import opened Results
  import opened Ordering

  datatype Resolution = Locked | LinuxVerified | OwnerDecision | Generated

  datatype ResolvedValue = ResolvedValue(
    resolution: Resolution, version: Option<string>, value: Option<string>, gate: string, reason: Option<string>)

  datatype Evidence = Evidence(resolution: Resolution, reference: Option<string>, gate: string, reason: string)

  datatype PackageResolution = PackageResolution(resolution: Resolution, names: seq<string>, gate: string, reason: Option<string>)

  datatype PackageRole = PackageRole(id: string, package: Option<PackageResolution>)

  datatype Service = Service(
    id: string, role: string, serviceName: Option<string>, runlevel: Option<string>,
    serviceResolution: Resolution, runlevelResolution: Resolution, gate: string, reason: Option<string>)

  /** A component value or a piece of evidence, under the id it is reported by. */
  datatype Field = ValueField(id: string, value: ResolvedValue) | EvidenceField(id: string, evidence: Evidence)

  datatype Repository = Repository(
    packages: seq<PackageRole>,
    codexPin: ResolvedValue, codexPackage: ResolvedValue, codexManifest: ResolvedValue, codexInstalled: ResolvedValue,
    codexArtix: Evidence,
    browserRevision: ResolvedValue, browserPackaging: Evidence,
    mcpRevision: ResolvedValue, mcpPackaging: Evidence,
    tunnelRelease: ResolvedValue, tunnelDigest: ResolvedValue, tunnelArtix: Evidence,
    bridgeRevision: ResolvedValue, bridgePackaging: Evidence,
    services: seq<Service>,
    moduleSet: ResolvedValue, storageImplementation: ResolvedValue, artoolsProfile: ResolvedValue,
    installReady: bool,
    lock: Option<bool>,          // the package lock, if there is one, and whether it is valid
    fixedValuesMatch: bool)      // comparisons with locked constants

  datatype Item = Item(id: string, resolution: Resolution, gate: string, reason: string)

  datatype Report = Report(releaseResolved: bool, unresolved: seq<Item>)

  // ---- text ----

  predicate IsSpace(c: char) {
    '\U{9}' <= c <= '\U{D}' || c == ' ' || c == '\U{85}' || c == '\U{A0}' || c == '\U{1680}' || '\U{2000}' <= c <= '\U{200A}'
    || c == '\U{2028}' || c == '\U{2029}' || c == '\U{202F}' || c == '\U{205F}' || c == '\U{3000}'
  }

  function Utf8Length(s: string): nat {
    if s == "" then 0
    else (if s[0] < '\U{80}' then 1 else if s[0] < '\U{800}' then 2 else if s[0] < '\U{10000}' then 3 else 4) + Utf8Length(s[1..])
  }

  predicate ValidText(s: string) {
    (exists i :: 0 <= i < |s| && !IsSpace(s[i])) && Utf8Length(s) <= 1024 && '\n' !in s && '\r' !in s && '\0' !in s
  }

  predicate IsGateChar(c: char) { 'A' <= c <= 'Z' || 'a' <= c <= 'z' || '0' <= c <= '9' || c == '-' || c == '/' || c == '_' }

  predicate ValidGate(s: string) { ValidText(s) && forall c :: c in s ==> IsGateChar(c) }

  function OrEmpty(s: Option<string>): string { if s.Some? then s.value else "" }

  // ---- validation of each kind of field ----

  predicate Concrete(v: ResolvedValue) { v.version.Some? || v.value.Some? }

  predicate ValidValue(v: ResolvedValue) {
    && ValidGate(v.gate)
    && match v.resolution
       case Locked => Concrete(v)
       case Generated => !Concrete(v)
       case _ => !Concrete(v) && ValidText(OrEmpty(v.reason))
  }

  predicate ValidEvidence(e: Evidence) {
    ValidGate(e.gate) && (e.resolution.Locked? <==> e.reference.Some?) && ValidText(e.reason)
  }

  predicate ValidPackageName(n: string) { ValidText(n) && forall c :: c in n ==> !IsSpace(c) }

  predicate ValidPackage(p: PackageResolution) {
    && ValidGate(p.gate) && NoDuplicates(p.names) && (forall n :: n in p.names ==> ValidPackageName(n))
    && if p.resolution.Locked? then p.names != [] && p.reason.None?
       else p.names == [] && p.reason.Some? && ValidText(p.reason.value)
  }

  predicate ServiceLocked(s: Service) { s.serviceResolution.Locked? && s.runlevelResolution.Locked? }

  predicate ValidService(s: Service) {
    && ValidText(s.role) && ValidGate(s.gate)
    && if ServiceLocked(s) then
         ValidText(OrEmpty(s.serviceName)) && ValidText(OrEmpty(s.runlevel)) && s.reason.None?
       else
         s.serviceName.None? && s.runlevel.None? && ValidText(OrEmpty(s.reason))
  }

  predicate ValidField(f: Field) {
    match f
    case ValueField(_, v) => ValidValue(v)
    case EvidenceField(_, e) => ValidEvidence(e)
  }

  predicate ValidPackages(ps: seq<PackageRole>) { forall p :: p in ps && p.package.Some? ==> ValidPackage(p.package.value) }

  predicate ValidServices(ss: seq<Service>) { forall s :: s in ss ==> ValidService(s) }

  predicate ValidFields(fs: seq<Field>) { forall f :: f in fs ==> ValidField(f) }

  /** Component values and evidence, in the order they are reported. */
  function ComponentFields(r: Repository): seq<Field> {
    [ValueField("codex.pin", r.codexPin), ValueField("codex.package-sha256", r.codexPackage),
     ValueField("codex.checksum-manifest-sha256", r.codexManifest), ValueField("codex.installed-version", r.codexInstalled),
     EvidenceField("codex.artix-compatibility", r.codexArtix),
     ValueField("portus-browser.source-revision", r.browserRevision), EvidenceField("portus-browser.packaging", r.browserPackaging),
     ValueField("portus-mcp.source-revision", r.mcpRevision), EvidenceField("portus-mcp.packaging", r.mcpPackaging),
     ValueField("tunnel-client.release", r.tunnelRelease), ValueField("tunnel-client.linux-amd64-sha256", r.tunnelDigest),
     EvidenceField("tunnel-client.artix-compatibility", r.tunnelArtix),
     ValueField("portus-bridge.source-revision", r.bridgeRevision), EvidenceField("portus-bridge.packaging", r.bridgePackaging)]
  }

  function ImageFields(r: Repository): seq<Field> {
    [ValueField("calamares.module-set", r.moduleSet), ValueField("calamares.storage-implementation", r.storageImplementation),
     ValueField("iso.artools-profile", r.artoolsProfile)]
  }

  /** Everything validation insists on, of what the report depends on. */
  predicate ValidRepository(r: Repository) {
    && r.fixedValuesMatch
    && ValidPackages(r.packages) && ValidFields(ComponentFields(r)) && ValidServices(r.services) && ValidFields(ImageFields(r))
    && r.moduleSet.resolution.Locked? && r.storageImplementation.resolution.LinuxVerified?
    && (r.lock.Some? ==> r.lock.value)
  }

  // ---- what is unresolved ----

  predicate FieldLocked(f: Field) {
    match f
    case ValueField(_, v) => v.resolution.Locked?
    case EvidenceField(_, e) => e.resolution.Locked?
  }

  predicate PackageLocked(p: PackageRole) { p.package.Some? ==> p.package.value.resolution.Locked? }

  /** Every field is locked, the install contract is ready and there is a lock. */
  ghost predicate FullyResolved(r: Repository) {
    && (forall p :: p in r.packages ==> PackageLocked(p))
    && (forall f :: f in ComponentFields(r) + ImageFields(r) ==> FieldLocked(f))
    && (forall s :: s in r.services ==> ServiceLocked(s))
    && r.installReady && r.lock.Some?
  }

  /** The ids that must be reported. */
  ghost predicate IsUnresolved(r: Repository, id: string) {
    || (exists p :: p in r.packages && !PackageLocked(p) && id == "package." + p.id)
    || (exists f :: f in ComponentFields(r) + ImageFields(r) && !FieldLocked(f) && id == f.id)
    || (exists s :: s in r.services && !ServiceLocked(s) && id == "service." + s.id)
    || (!r.installReady && id == "runtime.install")
    || (r.lock.None? && id == "packages.lock")
  }

  // ---- the collectors ----

  function Ids(items: seq<Item>): set<string> { set i | i in items :: i.id }

  /** items grew by exactly the ids of the given set. */
  ghost predicate Grew(before: seq<Item>, after: seq<Item>, ids: iset<string>) {
    forall id :: id in Ids(after) <==> id in Ids(before) || id in ids
  }

  lemma IdsAppend(items: seq<Item>, i: Item)
    ensures Ids(items + [i]) == Ids(items) + {i.id}
  {
  }

  /** A locked package role keeps no reason, an unresolved one has one: the collector's expect holds. */
  method CollectPackageUnresolved(packages: seq<PackageRole>, output: seq<Item>) returns (r: seq<Item>)
    requires ValidPackages(packages)
    ensures Grew(output, r, iset p | p in packages && !PackageLocked(p) :: "package." + p.id)
  {
    hide ValidPackage;
    r := output;
    for i := 0 to |packages|
      invariant Grew(output, r, iset p | p in packages[..i] && !PackageLocked(p) :: "package." + p.id)
    {
      var p := packages[i];
      assert packages[..i + 1] == packages[..i] + [p];
      if p.package.Some? && !p.package.value.resolution.Locked? {
        assert p in packages && p in packages[..i + 1];
        ReasonGiven(p.package.value);
        var item := Item("package." + p.id, p.package.value.resolution, p.package.value.gate, p.package.value.reason.value);
        IdsAppend(r, item);
        r := r + [item];
      }
    }
    assert packages[..|packages|] == packages;
  }

  lemma ReasonGiven(p: PackageResolution)
    requires ValidPackage(p) && !p.resolution.Locked?
    ensures p.reason.Some?
  {
  }

  method CollectServiceUnresolved(services: seq<Service>, output: seq<Item>) returns (r: seq<Item>)
    requires ValidServices(services)
    ensures Grew(output, r, iset s | s in services && !ServiceLocked(s) :: "service." + s.id)
  {
    hide ValidService;
    r := output;
    for i := 0 to |services|
      invariant Grew(output, r, iset s | s in services[..i] && !ServiceLocked(s) :: "service." + s.id)
    {
      var s := services[i];
      assert services[..i + 1] == services[..i] + [s];
      if !s.serviceResolution.Locked? || !s.runlevelResolution.Locked? {
        assert s in services && s in services[..i + 1];
        ServiceReasonGiven(s);
        var item := Item("service." + s.id, if !s.serviceResolution.Locked? then s.serviceResolution else s.runlevelResolution,
                         s.gate, s.reason.value);
        IdsAppend(r, item);
        r := r + [item];
      }
    }
    assert services[..|services|] == services;
  }

  lemma ServiceReasonGiven(s: Service)
    requires ValidService(s) && !ServiceLocked(s)
    ensures s.reason.Some?
  {
    NoEmptyText();
  }

  lemma NoEmptyText()
    ensures !ValidText("")
  {
  }

  /** collect_resolved_value: a locked value counts as resolved only if it is concrete. */
  method CollectResolvedValue(id: string, v: ResolvedValue, output: seq<Item>) returns (r: seq<Item>)
    requires ValidValue(v)
    ensures Grew(output, r, if v.resolution.Locked? then iset{} else iset{id})
  {
    var resolved := v.resolution.Locked? && Concrete(v);
    if resolved { return output; }
    var item := Item(id, v.resolution, v.gate, if v.reason.Some? then v.reason.value else "value is generated or not yet resolved");
    IdsAppend(output, item);
    r := output + [item];
  }

  method CollectEvidenceResolution(id: string, e: Evidence, output: seq<Item>) returns (r: seq<Item>)
    requires ValidEvidence(e)
    ensures Grew(output, r, if e.resolution.Locked? then iset{} else iset{id})
  {
    if e.resolution.Locked? && e.reference.Some? { return output; }
    var item := Item(id, e.resolution, e.gate, e.reason);
    IdsAppend(output, item);
    r := output + [item];
  }

  method CollectFields(fields: seq<Field>, output: seq<Item>) returns (r: seq<Item>)
    requires ValidFields(fields)
    ensures Grew(output, r, iset f | f in fields && !FieldLocked(f) :: f.id)
  {
    hide ValidValue, ValidEvidence;
    r := output;
    for i := 0 to |fields|
      invariant Grew(output, r, iset f | f in fields[..i] && !FieldLocked(f) :: f.id)
    {
      assert fields[i] in fields && fields[..i + 1] == fields[..i] + [fields[i]];
      match fields[i] {
        case ValueField(id, v) => r := CollectResolvedValue(id, v, r);
        case EvidenceField(id, e) => r := CollectEvidenceResolution(id, e, r);
      }
    }
    assert fields[..|fields|] == fields;
  }

  // ---- sorting and deduplication ----

  function ById(i: Item): seq<string> { [i.id] }

  /** dedup_by equal ids: of each run the first stays. */
  function DedupById(items: seq<Item>): seq<Item>
    decreases |items|
  {
    if |items| <= 1 then items
    else if items[0].id == items[1].id then DedupById([items[0]] + items[2..])
    else [items[0]] + DedupById(items[1..])
  }

  lemma {:induction false} DedupKeepsIds(items: seq<Item>)
    ensures Ids(DedupById(items)) == Ids(items) && (DedupById(items) == [] <==> items == [])
    ensures items != [] ==> DedupById(items)[0] == items[0]
    decreases |items|
  {
    if |items| > 1 {
      if items[0].id == items[1].id {
        DedupKeepsIds([items[0]] + items[2..]);
        SameIds(items);
      } else {
        DedupKeepsIds(items[1..]);
        assert items == [items[0]] + items[1..];
        IdsCons(items[0], items[1..]);
        IdsCons(items[0], DedupById(items[1..]));
      }
    }
  }

  lemma IdsCons(i: Item, items: seq<Item>)
    ensures Ids([i] + items) == {i.id} + Ids(items)
  {
  }

  lemma SameIds(items: seq<Item>)
    requires |items| > 1 && items[0].id == items[1].id
    ensures Ids([items[0]] + items[2..]) == Ids(items)
  {
    assert items == [items[0]] + ([items[1]] + items[2..]);
    IdsCons(items[0], items[2..]);
    IdsCons(items[0], [items[1]] + items[2..]);
    IdsCons(items[1], items[2..]);
  }

  predicate DistinctIds(items: seq<Item>) { forall i, j :: 0 <= i < j < |items| ==> items[i].id != items[j].id }

  lemma {:induction false} DedupDistinct(items: seq<Item>)
    requires IsSorted(items, ById)
    ensures DistinctIds(DedupById(items))
    decreases |items|
  {
    if |items| > 1 {
      if items[0].id == items[1].id {
        DropSecond(items);
        DedupDistinct([items[0]] + items[2..]);
      } else {
        var rest := DedupById(items[1..]);
        TailSorted(items);
        DedupDistinct(items[1..]);
        DedupKeepsIds(items[1..]);
        forall i | 0 <= i < |rest| ensures rest[i].id != items[0].id {
          assert rest[i].id in Ids(items[1..]);
          var k :| 1 <= k < |items| && items[k].id == rest[i].id;
          LaterIdDiffers(items, k);
        }
      }
    }
  }

  lemma TailSorted(items: seq<Item>)
    requires items != [] && IsSorted(items, ById)
    ensures IsSorted(items[1..], ById)
  {
  }

  lemma DropSecond(items: seq<Item>)
    requires |items| > 1 && IsSorted(items, ById)
    ensures IsSorted([items[0]] + items[2..], ById)
  {
    var s := [items[0]] + items[2..];
    forall i, j | 0 <= i < j < |s| ensures KeyBelow(ById(s[i]), ById(s[j])) {
      assert s[j] == items[j + 1] && (i > 0 ==> s[i] == items[i + 1]);
    }
  }

  lemma LaterIdDiffers(items: seq<Item>, k: nat)
    requires IsSorted(items, ById) && 1 <= k < |items| && items[0].id != items[1].id
    ensures items[k].id != items[0].id
  {
    if items[k].id == items[0].id {
      assert KeyBelow(ById(items[0]), ById(items[1]));
      if k > 1 { assert KeyBelow(ById(items[1]), ById(items[k])); }
      BelowAntisymmetric(items[0].id, items[1].id);
    }
  }

  lemma SortKeepsIds(items: seq<Item>)
    ensures Ids(Sort(items, ById)) == Ids(items)
  {
    SortMembers(items, ById);
  }

  // ---- the report ----

  method ValidateRepository(r: Repository) returns (report: Result<Report, ()>)
    ensures report.Success? <==> ValidRepository(r)
    // exactly the unresolved ids are reported, each once
    ensures report.Success? ==> forall id :: id in Ids(report.value.unresolved) <==> IsUnresolved(r, id)
    ensures report.Success? ==> DistinctIds(report.value.unresolved)
    ensures report.Success? ==> (report.value.releaseResolved <==> FullyResolved(r))
  {
    hide ValidPackages, ValidFields, ValidServices, ComponentFields, ImageFields, FieldLocked, PackageLocked, ServiceLocked, Grew, Ids;
    if !ValidRepository(r) { return Failure(()); }
    var u := CollectPackageUnresolved(r.packages, []);
    ghost var u1 := u;
    u := CollectFields(ComponentFields(r), u);
    ghost var u2 := u;
    u := CollectServiceUnresolved(r.services, u);
    ghost var u3 := u;
    u := CollectFields(ImageFields(r), u);
    ghost var u4 := u;
    if !r.installReady {
      var item := Item("runtime.install", LinuxVerified, "L2/L6", "P16 install contract contains unresolved items");
      IdsAppend(u, item);
      u := u + [item];
    }
    if r.lock.None? {
      var item := Item("packages.lock", Generated, "L2", "packages.lock.yaml is generated after repository verification");
      IdsAppend(u, item);
      u := u + [item];
    }
    AllCollected(r, u1, u2, u3, u4, u);
    SortKeepsIds(u);
    SortIsSorted(u, ById);
    DedupKeepsIds(Sort(u, ById));
    DedupDistinct(Sort(u, ById));
    NothingUnresolved(r, Ids(u));
    NoIds(DedupById(Sort(u, ById)));
    var unresolved := DedupById(Sort(u, ById));
    return Success(Report(unresolved == [], unresolved));
  }

  lemma NoIds(items: seq<Item>)
    ensures items == [] <==> Ids(items) == {}
  {
    if items != [] { assert items[0].id in Ids(items); }
  }

  lemma AllCollected(r: Repository, u1: seq<Item>, u2: seq<Item>, u3: seq<Item>, u4: seq<Item>, u: seq<Item>)
    requires Grew([], u1, iset p | p in r.packages && !PackageLocked(p) :: "package." + p.id)
    requires Grew(u1, u2, iset f | f in ComponentFields(r) && !FieldLocked(f) :: f.id)
    requires Grew(u2, u3, iset s | s in r.services && !ServiceLocked(s) :: "service." + s.id)
    requires Grew(u3, u4, iset f | f in ImageFields(r) && !FieldLocked(f) :: f.id)
    requires Ids(u) == Ids(u4) + (if r.installReady then {} else {"runtime.install"}) + if r.lock.None? then {"packages.lock"} else {}
    ensures forall id :: id in Ids(u) <==> IsUnresolved(r, id)
  {
    hide ComponentFields, ImageFields, FieldLocked, PackageLocked, ServiceLocked;
    assert Ids([]) == {};
    hide Ids;
    forall id ensures id in Ids(u) <==> IsUnresolved(r, id) {
    }
  }

  /** Nothing is unresolved exactly when everything is locked, ready and present. */
  lemma NothingUnresolved(r: Repository, ids: set<string>)
    requires forall id :: id in ids <==> IsUnresolved(r, id)
    ensures ids == {} <==> FullyResolved(r)
  {
    hide ComponentFields, ImageFields, FieldLocked, PackageLocked, ServiceLocked;
    if ids == {} {
      forall p | p in r.packages ensures PackageLocked(p) { assert !IsUnresolved(r, "package." + p.id); }
      forall f | f in ComponentFields(r) + ImageFields(r) ensures FieldLocked(f) { assert !IsUnresolved(r, f.id); }
      forall s | s in r.services ensures ServiceLocked(s) { assert !IsUnresolved(r, "service." + s.id); }
      assert !IsUnresolved(r, "runtime.install") && !IsUnresolved(r, "packages.lock");
    }
    if FullyResolved(r) && ids != {} {
      var id :| id in ids;
      NotUnresolved(r, id);
    }
  }

  lemma NotUnresolved(r: Repository, id: string)
    requires IsUnresolved(r, id)
    ensures !FullyResolved(r)
  {
    hide ComponentFields, ImageFields, FieldLocked, PackageLocked, ServiceLocked;
  }

  /** No repository this version accepts is release-resolved: the storage field stays unlocked. */
  lemma NeverReleaseResolved(r: Repository)
    requires ValidRepository(r)
    ensures !FullyResolved(r) && IsUnresolved(r, "calamares.storage-implementation")
  {
    var f := ValueField("calamares.storage-implementation", r.storageImplementation);
    assert ImageFields(r)[1] == f;
    assert f in ComponentFields(r) + ImageFields(r) && !FieldLocked(f);
  }
}
