# PortusOS verification

Dafny models of the parts of PortusOS whose correctness rests on state, order or arithmetic, with
proofs for all inputs and all runs. `dafny verify dfyconfig.toml` checks the whole project.

## Modules

**The package closure and its independent validator** (`scripts/artix/context.py`,
`scripts/build_iteration.py`). `Ordering` and `Results` are common ground; `Errors` is the text of raised
errors and their chains, `Diagnosis` the two keyword tables that turn it into a failure class and a cause.
`Packages`, `ResolvedRows`, `PackageCache`, `CacheAuditing`, `ProgressLedger`, `BatchPlan` and `Mirrors` model
the pieces of the producer: the cache is a class over directory entries, the ledger a class over records, the loops are
methods with invariants. `Acquisition` and `AcquisitionEvidence` describe one batch as a chain of attempts;
`LedgerTotals`, `RunEvidence`, `ClosureRun` and `PrefetchRun` carry the evidence through the mirror loop and
the batch loop; `ClosureStart` and `ClosureEvidence` lead into and out of it. `ClosureCourse` says how a run
goes as mirrors, network and tools decide it and what its evidence must add up to; `ClosurePreparation` is the
run itself, `FavourableRun` says when it completes, `FailureWords` what the words of an error decide.
`ClosureReport` states what the validator demands, on the evidence alone; `ProgressValidator`,
`FailureValidator` and `ReportValidator` are the validator's own loops, proved to accept exactly that.
`SecurityGate` is the in-memory gate, `Resumption` the next run after a stop, `CleanRetry` and `UncountedRuns`
are concrete runs, and `ClosureAgreement` is the two sides together.

**The other components.** `Framing` (bounded JSON lines), `AuditLog` (the rotating log), `CredentialStore`
and `CredentialRequests` (the protected-credential daemon as interleaved requests), `Connections` (the permit
counter and the reaping of workers), `Storage` (the installer), `Manifest` (the checksum manifest and its two
readers) and `Contract` (the contract graph's resolution report).

## What is a parameter

- The network is a function of the call number, the mirror, the request and the cache; it may write or lose
  any entries and may raise. External commands, probes, audit sinks, file operations, SQL statements,
  upstream answers and clocks are functions of a call number in the same way. Proofs hold for all of them.
- File contents in the cache are looked at only through SHA-256, so an entry carries its digest. Where an
  injective or hexadecimal hash is needed, the lemma says so.
- A raised error is its kind, its text, what a process wrote, and the errors before it. Commands, probes and fetches
  raise any such error, interrupts included; class, cause and detail are computed from it as the source does.

## Findings

- A failed run is not always accepted by the validator. The exact condition for every failed run is in
  `ClosureAgreement.PrepareAndValidate`, and each part of it fails in a concrete run:
  - If a clean retry loses an archive that matched, the attempt's lists no longer split its request, the ledger
    refuses it and the report with it (`CleanRetry.LosingRetryBreaksPartition`, exactly
    `Acquisition.PartitionsExactly`).
  - If a later fetch loses an archive of the same batch, totals recomputed from the cache leave the ledger behind
    (`UncountedRuns.LaterFetchLoses`).
  - If a fetch delivers an archive but leaves a directory at the partial name of another, the clean-up raises before
    the attempt is recorded and the totals count what the ledger does not (`UncountedRuns.BlockedFetchUncounted`).
  - If a closure names a file twice, no report over it is accepted (`UncountedRuns.RepeatedNameRejected`).
  - If an interrupt carries no message, as SIGINT does, the detail is blank (`UncountedRuns.MuteInterruptRejected`,
    exactly `ClosureEvidence.ToldExactly`).
  - The class of an attempt is read from its own error, the cause from the whole chain, which lists the missing files
    and ends in the last error of any attempt. After an attempt that only left files incomplete, a missing file named
    like gnutls or openssl is reported as a TLS failure (`UncountedRuns.GnutlsRejected`, `FailureWords.NameMisread`)
    and an earlier timeout as a timeout (`FailureWords.EarlierErrorBlamed`); both disagree with the class and the
    report is rejected. Exactly when cause and class agree is `FailureWords.RunAgreesExactly`.
  When fetches neither lose a matching archive nor leave a directory beside one, no filename is another's side file
  and none repeats, only the last two remain.
- `verified_cached_filenames` follows links, the audit removes them: a verified link is fetched again
  (`Resumption.LinksAreFetchedAgain`).
- The run sets its status to `pass` before the last gate and the last write. The gate never refuses under a loaded
  manifest (`ClosurePreparation.GateNeverRefuses`), but when that write raises, the report that the handler then
  writes says `pass` and carries a failure, and the validator rejects it (`ClosurePreparation.HandOver`,
  `ClosureAgreement.PrepareAndValidate`).
- In the installer, a failing acquisition command that leaves its resource behind blocks the release of
  everything below it (`Storage.LeftGroupHoldsMapper`, in general `Storage.PrepareStorage`).
- No repository the contract validator accepts is release-resolved (`Contract.NeverReleaseResolved`).

## Model

| member | source | states |
|---|---|---|
| `ClosureAgreement.PrepareAndValidate` | scripts/artix/context.py:1956-2436 | for every behaviour of mirrors, network, cache and tools: the run went the way the world decides, stage by stage, and its failure is the diagnosis of the error that stage raised; a completed run is accepted by the outer validator, one that fails after its status was set is not, and any other failed run is accepted exactly when its cause agrees with its evidence, its detail is not blank, names are unique, every attempt's lists split its request and, at a stop in acquisition, cache and ledger count the batch the evidence points at alike; when nothing is lost or littered exactly when the cause agrees and the detail is not blank; the cause of an interrupted run always agrees, and no detail is blank when no error is raised without a word; a favourable world ends in an accepted pass |
| `ClosurePreparation.PrepareRepositoryClosure` | scripts/artix/context.py:1956-2436 | the same at the level of the report predicates: each failed stage has its cause in the world and is diagnosed from the error raised there, and each passed one its evidence, acquisition is the rounds the network's answers make it, a completed run also passes the gate with every archive matching and a local resolution of the same identities, and under a network that loses nothing every archive the ledger counts is in the cache after a stop; an interrupt agrees with its evidence wherever it comes |
| `ClosurePreparation.AcquireClosure` | scripts/artix/context.py:2176-2286 | audit, reconciliation, plan and acquisition of a frozen closure: on success every evidence section a passing report needs is in place; on a stop the evidence accounts for the run exactly when it adds up, and it does when no fetch loses an archive or leaves a directory beside one; the rounds are determined by plan, mirrors and network, and so is the error a stop raises, with its chain |
| `ClosurePreparation.FinishClosure` | scripts/artix/context.py:2287-2418 | local repository, validation and hand-over end in an accepted pass exactly when every archive matches before and after, no command raises, the local rows resolve alike and the last write succeeds; otherwise in an accountable failure diagnosed from the error raised, or, after the status already said pass, in a rejected report |
| `ClosurePreparation.HandOver` | scripts/artix/context.py:2405-2418 | succeeds exactly when no mount raises, the manifest was loaded and the evidence is written; the report is then accepted and lets the build start; a failure after the locks leaves a report that says pass |
| `ClosurePreparation.GateNeverRefuses` | scripts/artix/context.py:2656-2669 | a loaded manifest has the locked configuration path, so the last gate refuses nothing that has come this far |
| `FavourableRun.FavourableCompletes` | scripts/artix/context.py:1956-2418 | a run completes whenever the mirrorlist is usable with a healthy first candidate, commands work, rows resolve alike twice, the network delivers and keeps, and no directory is in the way |
| `FavourableRun.DeliveredRound` | scripts/artix/context.py:1045-1140 | a first fetch that delivers everything ends its batch after one attempt |
| `FavourableRun.OnePackageFavourable` | scripts/artix/context.py:1956-2418 | the condition is met: one usable mirror, one package and working tools, whatever the mirror's address and the digest |
| `ClosureCourse.StoppedBatchCounts` | scripts/artix/context.py:2263-2279 | the batch whose counts decide a failed report is the one its own completed-batch count points at in the unique plan |
| `ClosurePreparation.ValidateLocally` | scripts/artix/context.py:2336-2403 | success means the local rows resolve to the closure's identities and every archive still matches after the local fetch |
| `ClosurePreparation.RequireCompleteVerifiedPackageSet` | scripts/artix/context.py:810-832 | succeeds exactly when the closure is non-empty, every archive matches, names are distinct and covered by the ledger, and the ledger counts all as verified |
| `ClosurePreparation.SelectAnchor` | scripts/artix/context.py:2069-2153 | success yields the first healthy candidate of the list as an anchor the outer validator accepts; failure means an unusable list, a probe that broke off, no healthy candidate or a raised command, each with its own error |
| `ClosurePreparation.Resolve` | scripts/artix/context.py:2155-2174 | a frozen closure is what the rows stand for, non-empty, well formed, ordered and named once with a fresh ledger; otherwise the command raised, rows were bad or missing, a target is absent, or a filename repeats, with an error that names the first bad row, the absent targets or the repeated name |
| `ClosurePreparation.AuditAndReconcile` | scripts/artix/context.py:2176-2178 | after the audit the ledger counts exactly the reused archives, all of them match in the cache, nothing sits beside an archive still to be fetched, and the audit section passes the validator |
| `ClosureEvidence.FailedAccepted` | scripts/build_iteration.py:451-703 | a failed report is accepted exactly when its cause agrees, its detail is not blank, its ledger is accepted and its totals and attempts add up |
| `ClosureEvidence.ToldExactly` | scripts/artix/context.py:1766-1781 | the detail of a diagnosis is not blank exactly when the terminal attempt or probe left a text that does not end in nothing but space, or left none and some error among the first six of the chain says something |
| `FailureWords.RunAgreesExactly` | scripts/artix/context.py:1821-1888 | exactly when the cause of a failed run agrees: after a failed attempt, if that was interrupted, or the texts of the whole error chain name no cause or one the class of the attempt allows; elsewhere unless all the texts say is that an attempt left files incomplete |
| `FailureWords.NameMisread` | scripts/artix/context.py:1132-1140 | mirrors exhausted by an attempt that raised nothing: when a missing file has a cause's word in its name the cause disagrees with the class and the report is rejected |
| `FailureWords.EarlierErrorBlamed` | scripts/artix/context.py:1132-1140 | mirrors exhausted by an attempt that raised nothing after an earlier one raised an error naming a cause: the earlier error is blamed and the report rejected |
| `FailureWords.OutspokenTold` | scripts/artix/context.py:1766-1781 | when no command, probe or fetch raises an error without a word, every failed run has a detail that is not blank |
| `Diagnosis.AgreesExactly` | scripts/build_iteration.py:684-703 | when the cause read from the collected text fits the class read from the attempt |
| `Diagnosis.DetailSaysExactly` | scripts/artix/context.py:1880-1886 | the detail is at most a thousand characters, and when it is blank |
| `Diagnosis.AttemptDetailSays` | scripts/artix/context.py:1088-1099 | the detail of an attempt is blank exactly when it raised an error that is no process failure and whose text begins blank |
| `Errors.DiagnosticSays` | scripts/artix/context.py:1766-1781 | nothing is collected from a chain exactly when its first six errors are silent |
| `Errors.ConciseSays` | scripts/artix/context.py:1891-1896 | the short form of a failed process is never blank and at most a thousand characters long |
| `ClosureEvidence.SoundAccounted` | scripts/build_iteration.py:591-682 | replayed sound attempts satisfy the failed-run accounting, latest attempt first |
| `ClosureEvidence.AuditMeetsValidator` | scripts/build_iteration.py:921-1008 | a completed audit satisfies every check the validator makes of the audit section |
| `ClosureEvidence.PrefetchMeetsValidator` | scripts/build_iteration.py:1009-1212 | a finished acquisition satisfies every check the validator makes of mirrors, batches and attempts |
| `ClosureEvidence.CompleteLedger` | scripts/artix/context.py:1143-1199 | after the last batch the ledger counts every package of the closure as verified |
| `ClosureStart.StartUnderway` | scripts/artix/context.py:2176-2211 | the reconciled ledger and the plan are where the batch loop's invariant starts |
| `ClosureStart.PlanIsPlanned` | scripts/artix/context.py:2183-2189 | a plan for the pending packages covers exactly their names, each once, in non-empty batches |
| `PrefetchRun.AcquirePrefetchBatches` | scripts/artix/context.py:1143-1199 | all batches complete with every planned name verified, or the loop stops in the first incomplete batch with the evidence as stated and an error that carries the mirror loop's; each round is the mirror loop's on the cache the round before it left; what was verified stays in the cache unless a fetch loses it, and no clean-up is blocked unless a fetch leaves a directory |
| `PrefetchRun.AcquireBatch` | scripts/artix/context.py:1157-1195 | one round: fetch, look at the cache, recompute totals; it completes exactly when the mirror loop succeeded and every archive still matches |
| `PrefetchRun.FailedStop` | scripts/artix/context.py:1170-1188 | at a stop the totals taken from the cache agree with the ledger exactly when both hold equally much of the batch; after a refusal the last attempt is not accountable |
| `PrefetchRun.KeptBatch` | scripts/artix/context.py:1045-1068 | with apart names and no lost archive a batch ends complete or by the network, never by a refused attempt, and the ledger equals the cache; after a blocked clean-up the cache holds what all fetches gained and the ledger what the recorded ones did |
| `PrefetchRun.HeldThroughUnrecorded` | scripts/artix/context.py:1006-1026 | a fetch whose clean-up is blocked half way still leaves every verified archive in place |
| `PrefetchRun.BatchStaysClear` | scripts/artix/context.py:1006-1026 | where no directory is in the way and no fetch leaves one, no clean-up of a batch is blocked |
| `PrefetchRun.HeldThrough` | scripts/artix/context.py:1143-1199 | with apart names and no lost archive, every archive the ledger counts as verified matches in the cache after the batch |
| `PrefetchRun.KeepingNetwork` | scripts/artix/context.py:1045-1068 | a network that never loses a matching archive keeps them in every step of a run |
| `ClosureRun.Run.AcquireBatchWithMirrorFailover` | scripts/artix/context.py:1029-1140 | a batch is one chain of attempts, at most one per mirror in mirror order, each step the network's answer to its own call; it succeeds only with a clean last attempt and nothing pending; an interrupt ends it at once and is raised as it came, any other end raises an error of its own over the last one raised; a blocked clean-up ends it only where the last, unrecorded fetch left a directory at a side file of a missing archive |
| `ClosureRun.Run.AttemptMirror` | scripts/artix/context.py:1045-1128 | one attempt extends the chain by a step that describes what the network did and what clean-up removed, or is stopped by the first directory the clean-up would unlink, named in the error, with nothing recorded |
| `ClosureRun.Run.RecordMirrorAttempt` | scripts/artix/context.py:2234-2253 | evidence grows by the attempt, the ledger changes exactly when the attempt is acceptable, and the totals are then those of the ledger |
| `ClosureRun.Run.FetchAndClean` | scripts/artix/context.py:1057-1086 | after a fetch only litter of pending packages, or detached signatures before a clean retry, is removed and the list names exactly what went; it fails exactly at the first directory among what would really be unlinked, and names it |
| `ClosureRun.AttemptRecordDescribes` | scripts/artix/context.py:1100-1127 | the attempt record lists exactly the requested, verified and pending names with their counts and bytes |
| `ClosureRun.RoundTaken` | scripts/artix/context.py:1129-1140 | which recorded attempts end the mirror loop and which let it go on |
| `ClosureRun.CountsDecided` | scripts/artix/context.py:2263-2279 | totals that count the cache for the batch at hand agree with the ledger exactly when cache and ledger hold equally much of it |
| `Acquisition.FailoverAsksOnlyForMissing` | scripts/artix/context.py:1045-1054 | a later attempt asks only for names without a matching archive, except to repeat a request whose archives all matched while the transaction failed |
| `Acquisition.PendingIsMissing` | scripts/artix/context.py:1063-1074 | after an attempt exactly the names not pending match, provided every fetch kept what matched |
| `Acquisition.PartitionsExactly` | scripts/artix/context.py:1429-1432 | in every chain an attempt's lists split its request exactly when it was no clean retry or every archive of the retry is still there |
| `Acquisition.CleanUpSpares` | scripts/artix/context.py:1006-1026 | clean-up never removes a matching archive when no closure name is another's side file |
| `Acquisition.PassMeansClean` | scripts/artix/context.py:1121-1128 | an attempt passes exactly when nothing was raised and nothing is pending, and exactly then it has no failure class |
| `CleanRetry.LosingRetryBreaksPartition` | scripts/artix/context.py:1045-1068 | concrete run: a clean retry that loses its archive passes yet verifies nothing of its request, so the ledger refuses it |
| `UncountedRuns.LaterFetchLoses` | scripts/artix/context.py:1157-1188 | concrete run: the second fetch of a batch delivers one archive and takes the first away; both attempts are recorded, the last passes, and the ledger counts two archives where the cache holds one |
| `UncountedRuns.BlockedFetchUncounted` | scripts/artix/context.py:1015-1025 | concrete run: a fetch that loses nothing leaves a directory at a partial name, so its attempt is not recorded and the cache holds an archive the ledger does not count |
| `UncountedRuns.MuteInterrupt` | scripts/artix/context.py:1085-1121 | concrete run: the first fetch is interrupted by an error without a message; nothing is lost, the attempt is recorded and splits its request, cache and ledger count alike, and the error leaves the batch loop as it came |
| `UncountedRuns.MuteInterruptRejected` | scripts/build_iteration.py:470-471 | every report that ends so has an agreeing cause and a blank detail, and is rejected |
| `UncountedRuns.GnutlsMissing` | scripts/artix/context.py:1132-1140 | concrete run: the only mirror raises nothing and delivers nothing of a package in a file named after gnutls |
| `UncountedRuns.GnutlsRejected` | scripts/build_iteration.py:684-703 | every report that ends so blames TLS for an incomplete verification and is rejected |
| `UncountedRuns.TwinsResolve` | scripts/artix/context.py:726-776 | two rows that differ in name but not in filename resolve to a closure that names a file twice |
| `UncountedRuns.RepeatedNameRejected` | scripts/build_iteration.py:346-360 | no failed report over such a closure adds up or is accepted |
| `AcquisitionEvidence.ChainMeetsPlan` | scripts/build_iteration.py:1190-1211 | a finished chain asks first for the whole planned batch, then for ordered parts of it, is numbered from one and ends in a clean pass |
| `AcquisitionEvidence.AttemptMeetsValidator` | scripts/build_iteration.py:1095-1188 | every attempt of a chain satisfies the validator's per-attempt checks, byte sums included |
| `AcquisitionEvidence.AttemptMeetsAccounting` | scripts/build_iteration.py:615-655 | an attempt satisfies the failed-run checks exactly when its lists split its request |
| `AcquisitionEvidence.ReplayShowsLatest` | scripts/build_iteration.py:656-682 | the ledger after any accepted attempts shows, for every package, the latest attempt that mentions it |
| `AcquisitionEvidence.ReplayHealthy` | scripts/artix/context.py:1416-1479 | any replay of attempts keeps identities, flags and acquisition data in order |
| `LedgerTotals.BatchMoves` | scripts/artix/context.py:1456-1479 | the attempts of a batch leave the ledger counting exactly the batch names that are not pending, and outside the batch what it counted before |
| `LedgerTotals.TotalsAsSets` | scripts/artix/context.py:1318-1365 | the summary's package counts are the sizes of the verified set and of its complement |
| `RunEvidence.NextBatchSound` | scripts/artix/context.py:2226-2253 | the attempts of one more batch keep every recorded attempt acceptable, accountable and contiguously numbered |
| `RunEvidence.RefusedDoesNotPartition` | scripts/artix/context.py:1422-1454 | of the ledger's conditions on an attempt only the partition can fail in a run |
| `Resumption.ReauditReuses` | scripts/artix/context.py:1225-1287 | of the archives verified so far the next audit reuses exactly those that are regular files |
| `Resumption.ResumptionPlansOnlyMissing` | scripts/artix/context.py:1225-1287 | when the verified archives are regular files, a resumed run reuses all of them and plans only names without a reusable archive |
| `Resumption.NextRunResumes` | scripts/artix/context.py:1956-2286 | after any stop in acquisition under a network that loses nothing, a blocked clean-up included, any later run over the same closure that gets to its audit reuses every regular archive the first one's ledger counts and asks no mirror for any of them |
| `Resumption.PrepareTwice` | scripts/artix/context.py:1956-2436 | the same for two calls in a row on one cache |
| `Resumption.LinksAreFetchedAgain` | scripts/artix/context.py:1240-1243 | a link to a matching file counts as verified during acquisition, is removed by the next audit, and its package is planned for fetching again |
| `CacheAuditing.AuditPersistentPackageCache` | scripts/artix/context.py:1225-1287 | the audit splits the closure into reused and pending, lists exactly what it removed, and leaves nothing for a second audit; on a cache already in order it removes nothing; with any names it fails exactly at the first repeated name or refused entry in the order of its visits, and says which; without suffix collisions every decision is taken on the state before the audit, it fails exactly when a directory is in the way, and even then it spares every reusable archive |
| `CacheAuditing.SecondAuditAgrees` | scripts/artix/context.py:1225-1287 | a second audit right after the first gives the same two lists and removes nothing |
| `CacheAuditing.AuditHaltsFirst` | scripts/artix/context.py:1235-1264 | with distinct names none of which is another's side file, the audit fails at the first package in filename order with something in its way before it |
| `CacheAuditing.EarlierSpared` | scripts/artix/context.py:1235-1243 | visiting in filename order, a later visit never takes an archive already found reusable, even with colliding names |
| `CacheAuditing.VisitedStep` | scripts/artix/context.py:1235-1267 | one round of the audit loop keeps every fact the result rests on |
| `PackageCache.Cache.VisitPackage` | scripts/artix/context.py:1236-1264 | what one visit removes, keeps and reports for a package, and when it is blocked |
| `PackageCache.Cache.RemoveUnverifiedAttemptFiles` | scripts/artix/context.py:1006-1026 | only litter of the given packages goes, no corrupt archive or partial file stays, and the sorted list names exactly what went; it fails exactly when the clean-up, taking the packages in turn, comes to a directory it would unlink, and names that |
| `PackageCache.Cache.RemoveDetachedSignaturesForRetry` | scripts/artix/context.py:1212-1222 | every signature of the given packages is gone and nothing else; it fails exactly at the first signature that is a directory, and names it |
| `PackageCache.CleanHaltsExactly` | scripts/artix/context.py:1006-1026 | with distinct names none of which is another's side file, the clean-up fails exactly when before it some package has a directory where a file of it would be unlinked |
| `PackageCache.CleanHaltBlocked` | scripts/artix/context.py:1006-1026 | with any names, what stops the clean-up was in its way from the start |
| `PackageCache.Cache.VerifiedCachedFilenames` | scripts/artix/context.py:1482-1488 | exactly the names whose file, links followed, has the frozen digest |
| `PackageCache.Cache.RemoveCacheEntry` | scripts/artix/context.py:1202-1209 | removes a file or link, refuses a directory, ignores an absent name |
| `PackageCache.LaterSparesEarlier` | scripts/artix/context.py:1235 | in filename order no later package's side file is an earlier archive |
| `PackageCache.TouchedDisjoint` | scripts/artix/context.py:1240-1262 | packages whose names are not each other's side files touch disjoint entries |
| `ProgressLedger.InitializePackageProgress` | scripts/artix/context.py:1290-1315 | one pending record per package in filename order, exactly when filenames are distinct; otherwise the first repeated name |
| `ProgressLedger.SummarizePackageProgress` | scripts/artix/context.py:1318-1365 | succeeds exactly for distinct named records with matching flags, and then counts and sums every heading |
| `ProgressLedger.Ledger.Reconcile` | scripts/artix/context.py:1368-1413 | refuses lists that do not split the ledger; otherwise marks reused, corrupt and pending records and clears attempt data |
| `ProgressLedger.Ledger.RecordAttempt` | scripts/artix/context.py:1416-1479 | changes exactly the records the attempt mentions, and only if the attempt is acceptable; otherwise says which check failed first |
| `ProgressLedger.EveryRunIsHealthy` | scripts/artix/context.py:1290-1479 | after any calls in any order flags and acquisition data fit the states, identities are unchanged, and verified plus pending equals resolved in packages and bytes |
| `ProgressLedger.EveryRunIsSummarizable` | scripts/artix/context.py:1318-1346 | the summary of a reachable ledger never raises |
| `ProgressLedger.SummaryConserves` | scripts/artix/context.py:1347-1357 | verified and pending split the closure in number and in bytes |
| `ProgressLedger.StatesConserve` | scripts/artix/context.py:1347-1357 | the five state totals split the two flag totals |
| `BatchPlan.PlanPackagePrefetchBatches` | scripts/artix/context.py:913-948 | an exact, order-preserving split of the sorted packages into non-empty batches within the limit or single, none of which could take the next package |
| `BatchPlan.PlanIsFewest` | scripts/artix/context.py:931-948 | no contiguous split within the limit has fewer batches |
| `BatchPlan.PlanIsShort` | scripts/artix/context.py:931-948 | at most twice the number of whole limits in the total, plus one |
| `BatchPlan.PlanIsUnique` | scripts/build_iteration.py:1054-1090 | the plan is determined by the packages and the limit, so the validator's own plan is the same |
| `Packages.NamedBytesAreBytesOf` | scripts/build_iteration.py:628-650 | summing sizes name by name over a table equals summing over the closure |
| `Packages.BytesAreBytesOf` | scripts/artix/context.py:1105-1112 | summing an attempt's own packages equals summing over the closure |
| `Mirrors.ParseArtixMirrorServers` | scripts/artix/context.py:1684-1706 | the candidates are exactly the first line of each active server, in order; it fails exactly on a missing placeholder or when nothing is active |
| `Mirrors.SelectFirstHealthyMirror` | scripts/artix/context.py:1709-1720 | probes candidates in order, the k-th answered by the k-th probe, up to the first healthy one, and records each |
| `Mirrors.OrderedPrefetchMirrors` | scripts/artix/context.py:980-1003 | the candidates from the anchor on, cut at the limit |
| `Mirrors.AnchorFirstIsForward` | scripts/build_iteration.py:1028-1052 | such a list starts with the anchor, moves forward only, repeats no server and stays within the limit |
| `ResolvedRows.ParsePacmanPrintRows` | scripts/artix/context.py:726-776 | keeps exactly the first row of every repository/name/version, sorted, and fails exactly on a bad row or none |
| `ResolvedRows.SameClosureExactly` | scripts/artix/context.py:779-795 | comparing the ordered lists is comparing the closures as sets of identities |
| `ResolvedRows.RowOrderIrrelevant` | scripts/artix/context.py:726-776 | with one reading per key the order and repetition of rows does not matter |
| `SecurityGate.RequireBuildisoSecurityBoundary` | scripts/artix/context.py:1491-1579 | lets a report through exactly when every in-memory condition holds |
| `SecurityGate.AcceptedMayBuild` | scripts/build_iteration.py:732-989 | every passing report the outer validator accepts is let through by the separately written gate, its recomputed summary included |
| `ProgressValidator.ValidatePackageProgress` | scripts/build_iteration.py:326-449 | accepts exactly a ledger that covers the closure once, keeps identities, has fitting flags and data, and whose summary is the recomputed one |
| `FailureValidator.ValidateFailureConsistency` | scripts/build_iteration.py:497-703 | accepts exactly the failed reports whose cause, context, totals and attempts are consistent |
| `FailureValidator.AccountAttempts` | scripts/build_iteration.py:591-682 | the tables built attempt by attempt decide exactly the accounting: every attempt adds up, numbers are contiguous per batch, and the ledger shows the latest attempt |
| `FailureValidator.MeetsLatest` | scripts/build_iteration.py:656-682 | comparing the ledger with the expected-state table is comparing it with the latest attempt of every package |
| `FailureValidator.AttemptExactly` | scripts/build_iteration.py:592-655 | the per-attempt condition on tables and counts is the accounting condition on the closure |
| `ReportValidator.ValidateRepositoryClosureReport` | scripts/build_iteration.py:732-1213 | accepts exactly the reports of the acceptance predicate, the checks on a failure's own detail and context included |
| `ReportValidator.ValidateFailure` | scripts/build_iteration.py:451-494 | accepts exactly a detail that is not blank nor too long and a context with positive numbers and an https mirror |
| `ReportValidator.ValidateAudit` | scripts/build_iteration.py:921-1008 | accepts exactly the audit sections of the acceptance predicate |
| `ReportValidator.ExpectedBatches` | scripts/build_iteration.py:1054-1087 | the validator's own batching loop computes the same plan as the producer's |
| `ReportValidator.ValidatePrefetch` | scripts/build_iteration.py:1009-1212 | accepts exactly when bounds, mirror order, attempts and every batch of the unique plan are in order |
| `ReportValidator.ValidateBatch` | scripts/build_iteration.py:1190-1211 | the loop over a batch's attempts accepts exactly a first request for the whole batch, ordered parts after it, numbers from one and a clean last attempt |
| `ReportValidator.AttemptPassesExactly` | scripts/build_iteration.py:1118-1188 | the validator's checks by counts, sums and the set of removable entries are the conditions of an accepted attempt |
| `ReportValidator.PlannedBatchesDecide` | scripts/build_iteration.py:1088-1211 | comparing with the plan computed here is comparing with any plan |
| `Framing.ReadFrame` | runtime/crates/portus-client/src/framing.rs:88-112 | for every delivery of the bytes the result is that of splitting at the first newline; a frame consumes exactly its line, an oversized line is refused with at most the bound consumed |
| `Framing.ReadJsonLine` | runtime/crates/portus-client/src/framing.rs:59-71 | the decoded first line, or the error the specification gives, and the rest of the stream left in place |
| `Framing.WriteJsonLine` | runtime/crates/portus-client/src/framing.rs:73-86 | appends the encoding and a newline, or, beyond the bound, nothing |
| `Framing.ReadsBackWritten` | runtime/crates/portus-client/src/framing.rs:59-112 | reading back any sequence of written values gives that sequence and leaves nothing |
| `Framing.CutIsNoticed` | runtime/crates/portus-client/src/framing.rs:92-99 | a stream cut inside a frame is an error, one cut between frames gives the frames before the cut |
| `Framing.TooLargeExactly` | runtime/crates/portus-client/src/framing.rs:101-105 | a first line is refused exactly when more than the bound arrives without a newline within it |
| `Framing.ReadSecretJsonLine` | runtime/crates/portus-apid/src/unix.rs:295-330 | the secret reader gives the same result as the frame reader, with the two frame errors reported alike, and leaves the same rest of the stream |
| `AuditLog.Sink.Record` | runtime/crates/portus-audit/src/lib.rs:148-168 | whatever file operation fails, the retained text stays a suffix of what was written and archives stay full; an acknowledged record is whole at the end of the live file; a failure means that one of the call's own operations failed, and when none did the files are exactly those of a clean rotation and append |
| `AuditLog.Sink.RotateIfNeeded` | runtime/crates/portus-audit/src/lib.rs:120-144 | nothing, part of a shift or a whole rotation happened, and only because the record did not fit; it fails only when one of its operations did, and otherwise the files are those of a clean rotation |
| `AuditLog.Sink.Shift` | runtime/crates/portus-audit/src/lib.rs:129-141 | at every point of the rename loop the files are those of a shift down to some index; it stops early exactly when an operation failed |
| `AuditLog.Sink.OpenWithLimits` | runtime/crates/portus-audit/src/lib.rs:86-113 | refuses limits below one maximum record and creates a missing live file |
| `AuditLog.RetainedShifted` | runtime/crates/portus-audit/src/lib.rs:129-141 | wherever a rotation stands, all that is gone is the oldest archive |
| `AuditLog.RenameTargetFree` | runtime/crates/portus-audit/src/lib.rs:133-138 | no rename of the loop replaces a file |
| `AuditLog.AfterRotation` | runtime/crates/portus-audit/src/lib.rs:120-144 | a rotation that stops anywhere keeps the suffix property and the fullness of archives |
| `AuditLog.AfterCleanRotation` | runtime/crates/portus-audit/src/lib.rs:120-144 | after a rotation in which nothing failed the record fits and the bounds hold |
| `AuditLog.Retention` | runtime/crates/portus-audit/src/lib.rs:120-168 | at most one more than the archives times the limit is kept, and either everything written or almost all archives' room |
| `AuditLog.EveryCleanRun` | runtime/crates/portus-audit/src/lib.rs:120-168 | from files within the bounds every sequence of records in which nothing fails stays within them: at most one more than the archives times the limit is kept, and either nothing was dropped or almost all archives' room is kept |
| `AuditLog.NewLogInBounds` | runtime/crates/portus-audit/src/lib.rs:86-113 | a log that is only a live file within the limit starts within the bounds |
| `CredentialStore.Store.Provision` | runtime/crates/portus-apid/src/store.rs:179-204 | commits exactly one new active row, or changes nothing unless only the read-back failed; it reports an SQL error exactly when one of its statements failed |
| `CredentialStore.Store.Rotate` | runtime/crates/portus-apid/src/store.rs:206-222 | replaces the secret, adds a generation and reactivates, or changes nothing unless only the read-back failed; it reports an SQL error exactly when one of its statements failed |
| `CredentialStore.Store.Revoke` | runtime/crates/portus-apid/src/store.rs:224-236 | marks the row revoked, or changes nothing unless only the read-back failed; it reports an SQL error exactly when one of its statements failed |
| `CredentialStore.Store.Delete` | runtime/crates/portus-apid/src/store.rs:238-249 | removes the row, or changes nothing because it is absent or a statement failed |
| `CredentialStore.Store.LoadSecret` | runtime/crates/portus-apid/src/store.rs:161-177 | the secret of an active row, or the error the row calls for, or an SQL error exactly when the statement failed |
| `CredentialStore.Store.Show` | runtime/crates/portus-apid/src/store.rs:152-159 | the metadata of a row under a valid reference, or the error, or an SQL error exactly when the statement failed |
| `CredentialStore.ChangeKeeps` | runtime/crates/portus-apid/src/store.rs:179-249 | every committed change keeps references valid, the count within the limit, active rows without a revocation time, and the table in step with its history |
| `CredentialStore.GenerationCounts` | runtime/crates/portus-apid/src/store.rs:206-215 | the generation is one more than the rotations since the reference was last provisioned |
| `CredentialStore.SecretIsLatest` | runtime/crates/portus-apid/src/store.rs:206-236 | the secret held is the one committed last and active unless revoked since |
| `CredentialRequests.EveryRunIsKept` | runtime/crates/portus-apid/src/core.rs:70-349 | every interleaving of any requests keeps store, trace and failure count in order |
| `CredentialRequests.CallsAreCleared` | runtime/crates/portus-apid/src/core.rs:239-320 | an upstream call happens at most once per request and, in this order, after an Allow decision, its own accepted preflight record and the load of its secret, which by the changes committed up to that load was the current secret of an active credential |
| `CredentialRequests.DecisionsAreThePolicys` | runtime/crates/portus-apid/src/core.rs:239-251 | in every run each decision is the policy's answer, when asked, for the uid, reference and operation of its own request |
| `CredentialRequests.ChangesAreAuthorized` | runtime/crates/portus-apid/src/core.rs:106-225 | every change was asked for by uid 0 and follows its own accepted preflight record |
| `CredentialRequests.FailedAdminChangedNothing` | runtime/crates/portus-apid/src/core.rs:130-237 | an admin request that ends in an error committed nothing |
| `CredentialRequests.FailingSinkStopsEverything` | runtime/crates/portus-apid/src/core.rs:429-452 | with a sink that refuses every record there is never an upstream call or a change |
| `CredentialRequests.CommitStaged` | runtime/crates/portus-apid/src/store.rs:179-236 | the read-back after a commit cannot fail on a well kept table |
| `CredentialRequests.SuccessIsTheAnswers` | runtime/crates/portus-apid/src/core.rs:308-348 | in every run a use request ends in success exactly when it made its call under a definition of the service that offers the operation and admits the payload, and the answer to that call was a 2xx JSON answer within the bound |
| `CredentialRequests.VisibleCredentials` | runtime/crates/portus-apid/src/core.rs:351-398 | asks about one credential and operation after the other, up to the first that is allowed; a caller sees the credentials for which the policy allowed one when it was asked, in the order of the list |
| `CredentialRequests.DiscoverableExactly` | runtime/crates/portus-apid/src/core.rs:384-398 | what is seen are exactly the places of the list for which the policy, asked in turn, allowed an operation, in the order of the list |
| `CredentialRequests.DiscoverableSteady` | runtime/crates/portus-apid/src/core.rs:384-398 | under a policy that does not change, every listed credential is seen as often as listed if some operation of its definition is allowed, and otherwise not at all |
| `Connections.EveryRunIsCounted` | runtime/crates/portus-apid/src/unix.rs:534-557 | in every interleaving of load, compare-exchange and drop the counter equals the live permits and stays within the limit |
| `Connections.DropNeverWraps` | runtime/crates/portus-apid/src/unix.rs:553-557 | a drop finds at least one permit, so the counter never underflows |
| `Connections.RefusedExactlyWhenFull` | runtime/crates/portus-apid/src/unix.rs:539-543 | a thread is refused exactly when at its load all permits are live |
| `Connections.AloneAcquires` | runtime/crates/portus-apid/src/unix.rs:539-551 | with room left a thread that runs alone has its permit after two steps |
| `Connections.Workers.Reap` | runtime/crates/portus-apid/src/unix.rs:522-532 | every worker is asked exactly once, one query after the other; those whose own answer is finished are joined and the others kept as a multiset; when being finished does not change meanwhile, exactly the finished workers go |
| `Connections.Workers.SwapRemove` | runtime/crates/portus-apid/src/unix.rs:526 | takes out one handle, keeps the others as a multiset and the front in place |
| `Connections.StableAnswers` | runtime/crates/portus-apid/src/unix.rs:522-532 | when answers depend on the worker only, exactly the finished workers go |
| `Storage.PrepareStorage` | portusos-build/installer/modules/portus-storage/storage_engine.py:270-459 | nothing runs before every check has passed; then exactly the script up to its first failing command has run; success holds the whole chain with a fitting layout; after a failure that leaves nothing behind nothing is held and what was acquired was released children first; a failing command that left its resource blocks every release |
| `Storage.LeftGroupHoldsMapper` | portusos-build/installer/modules/portus-storage/storage_engine.py:219-242 | concrete run: the volume group is created by a command that then fails, and the mapper below it stays open |
| `Storage.TriedThen` | portusos-build/installer/modules/portus-storage/storage_engine.py:293-459 | running one script after another is running both as one, up to the first failing command |
| `Storage.CleanupOwned` | portusos-build/installer/modules/portus-storage/storage_engine.py:219-242 | releases exactly the owned resources, the last acquired first |
| `Storage.PlanExtents` | portusos-build/installer/modules/portus-storage/storage_engine.py:371-378 | root, swap and reserve add up to the free extents with the least reserve and the least swap; refused exactly when the report is invalid or no layout fits |
| `Storage.ReserveIsLeast` | portusos-build/installer/modules/portus-storage/storage_engine.py:374 | the reserve is the least count that is at least one and at least five percent |
| `Storage.SwapIsLeast` | portusos-build/installer/modules/portus-storage/storage_engine.py:375 | the swap is the least count of extents that covers four GiB |
| `Storage.PreflightStorage` | portusos-build/installer/modules/portus-storage/storage_engine.py:245-267 | returns the hash of exactly the plan it checked |
| `Storage.InstallConfirmed` | portusos-build/installer/modules/portus-storage/storage_engine.py:245-300 | preflight on one device and installation on another: with an injective hash nothing runs unless target and size are the confirmed ones |
| `Manifest.ReadChecksumManifest` | runtime/crates/portus-build/src/candidate.rs:442-472 | accepts exactly a terminated text whose lines are good entries with names in order, and returns their table |
| `Manifest.RenderChecksumManifest` | runtime/crates/portus-build/src/candidate.rs:433-440 | one line per name with its hash |
| `Manifest.ReadsBackRendered` | runtime/crates/portus-build/src/candidate.rs:433-472 | reading a rendered manifest gives back exactly its entries |
| `Manifest.ImmutableBundleNames` | runtime/crates/portus-build/src/candidate.rs:407-431 | the immutable files, refused exactly when one is unsafe or not a regular file |
| `Manifest.BundleNamesOrdered` | runtime/crates/portus-build/src/candidate.rs:421-426 | sorting and dedup leave the names in strict order |
| `Manifest.VerifyCandidateBundle` | runtime/crates/portus-build/src/candidate.rs:93-177 | accepts exactly when linkage and harness hold and the manifest lists exactly the immutable files with their hashes |
| `Manifest.AcceptedExactlyUnchanged` | runtime/crates/portus-build/src/candidate.rs:149-161 | with the manifest written for it, a bundle is accepted exactly while its file set and every hash are what they were |
| `Manifest.ParseManifest` | scripts/release/verify_release.py:27-44 | accepts exactly release lines with names in order, and returns their entries |
| `Manifest.ReadersAgree` | scripts/release/verify_release.py:27-44 | on a terminated text that breaks only at newlines the two readers accept the same manifests with the same entries, exactly when all names are release names |
| `Contract.ValidateRepository` | runtime/crates/portus-build-contract/src/lib.rs:822-876 | after validation the report lists exactly the unresolved ids, each once, and says release-resolved exactly when everything is locked, the install contract is ready and a lock exists |
| `Contract.CollectPackageUnresolved` | runtime/crates/portus-build-contract/src/lib.rs:2040-2056 | on validated packages the reason the collector expects is always there, and exactly the unlocked roles are added |
| `Contract.CollectServiceUnresolved` | runtime/crates/portus-build-contract/src/lib.rs:2132-2152 | on validated services the reason the collector expects is always there, and exactly the unlocked services are added |
| `Contract.CollectResolvedValue` | runtime/crates/portus-build-contract/src/lib.rs:2154-2170 | adds the id exactly when a validated value is not locked |
| `Contract.CollectEvidenceResolution` | runtime/crates/portus-build-contract/src/lib.rs:2172-2185 | adds the id exactly when validated evidence is not locked |
| `Contract.DedupKeepsIds` | runtime/crates/portus-build-contract/src/lib.rs:865-866 | sorting and dedup keep the set of ids and emptiness |
| `Contract.NothingUnresolved` | runtime/crates/portus-build-contract/src/lib.rs:868-876 | nothing is unresolved exactly when everything is locked, ready and present |
| `Contract.NeverReleaseResolved` | runtime/crates/portus-build-contract/src/lib.rs:1701-1707 | no repository this version accepts is release-resolved, because the storage field stays unlocked |

## Left out

- ClosurePreparation.PrepareRepositoryClosure: mount, chroot, ownership and copy commands are calls that may raise, at the points where their failure is told apart in the evidence; shape checks of malformed JSON and the fixed identity sections (mirror list, repository databases, anchor configuration) are left to reading; of the writes of the evidence only the last one of a passing run may raise; an interrupt arrives inside such a call, a probe or a fetch, not between them.
- ClosureReport.Accepted: states the checks on typed evidence; type and key checks of JSON values have no counterpart, and the historical string form of a failure is not modelled.
- Errors.Lower: lowers ASCII letters only; other letters that lower to ASCII are left as they are. A chain of errors is finite and without loops.
- PackageCache.Cache.Unlink: refuses directories only, and its message quotes a path without characters that need escaping; pipes, sockets and failing disks are not modelled.
- ResolvedRows.ParsePacmanPrintRows: works on fields already split at the separator; integer parsing, quoting and the signature digest are parameters.
- Mirrors.ParseArtixMirrorServers: works on lines already recognised as `Server = url`.
- SecurityGate.RequireBuildisoSecurityBoundary: the live re-check of mounts and modes before buildiso is not modelled.
- Framing.ReadJsonLine: JSON itself is an encoder and a decoder with newline-free output.
- AuditLog.Sink.Record: validation of record fields and serialization are inputs; existence checks are taken to be accurate, and one process writes the log.
- CredentialRequests.EveryRunIsKept: requests arrive validated; SQL errors are in `CredentialStore.Store` only; poisoned locks, health and sockets are left out.
- Connections.EveryRunIsCounted: atomic operations interleave sequentially; memory orderings weaker than that are not modelled.
- Storage.PrepareStorage: device checks are one flag, partition paths and script texts are fixed, and exceptions that bypass the handler (such as an interrupt) are not modelled.
- Manifest.VerifyCandidateBundle: linkage, identity and harness checks are given; file contents are strings.
- Contract.ValidateRepository: comparisons with locked constants are one flag, since one reading settles them; loading and schema checks are left out.
- Writing the finalized target configuration (`finalize_target`), staging, signing, SBOM generation, package inspection, command-line tools and secret scanning are not modelled: they are glue or offer no hard property.
