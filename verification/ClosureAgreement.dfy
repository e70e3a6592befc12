/** Producer and outer validator together: what the validator answers to the report of any run. */
module ClosureAgreement {
  import opened Results
  import opened Packages
  import opened PackageCache
  import opened ClosureReport
  import opened ClosureRun
  import opened PrefetchRun
  import opened ClosureEvidence
  import opened ClosureCourse
  import opened ClosurePreparation
  import opened FailureWords
  import opened FavourableRun
  import opened ReportValidator

  /** For every behaviour of mirrors, network, cache and tools: a run that completes is validated, one that only
      fails after its status was set is not, and any other failed run is validated exactly when its cause
      agrees and its evidence adds up; in a favourable world it completes. */
  method PrepareAndValidate(w: World, cache: Cache) returns (ok: bool, r: Report)
    requires Sane(w)
    modifies cache
    ensures Went(w, old(cache.entries), cache.entries, r)
    ensures r.passed ==> (ok <==> r.failure.None?)
    ensures !r.passed ==>
      && r.failure.Some?
      && (ok <==> CauseAgrees(r) && Told(r) && AddsUp(r, cache.entries, r.failure.value.substage))
    ensures !r.passed && NamedOnce(r.packages) && NothingLost(w, r.packages) ==> (ok <==> CauseAgrees(r) && Told(r))
    ensures InterruptReported(r)
    ensures r.failure.Some? && Outspoken(w) ==> Told(r)
    ensures Favourable(w, old(cache.entries)) ==> ok && r.passed
  {
    hide Outspoken, Told, InterruptReported, Sane, Accepted, CauseAgrees, AddsUp, Went, SuffixFree, NetworkKeeps, NetworkClear, NamedOnce, Favourable;
    r := PrepareRepositoryClosure(w, cache);
    ok := ValidateRepositoryClosureReport(r);
    if r.failure.Some? && Outspoken(w) { OutspokenTold(w, old(cache.entries), cache.entries, r); }
    if Favourable(w, old(cache.entries)) { FavourableCompletes(w, old(cache.entries), cache.entries, r); }
  }
}
