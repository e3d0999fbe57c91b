/** The counters of the final report, told from the documents and the target the job started with. */
module FinalCounts {
  import opened Prelude
  import opened Records
  import opened StateMachine
  import opened StepRegistries
  import opened StepContexts
  import opened Targets
  import opened Uploads
  import opened Verifications
  import opened Finalization
  import opened StepBodies
  import opened Runner
  import opened RunnerProtocol
  import opened Resumption
  import opened MigrationStages
  import opened MigrationJobs
  import opened JobReports

  // ----- what the target makes of a document -----

  /** The target holds the same stored form under the key already. */
  function StoredIn(t: Target): TransformedDocument -> bool {
    (d: TransformedDocument) =>
      && d.sourceIdentifier !in t.refusals && d.sourceIdentifier in t.documents
      && t.documents[d.sourceIdentifier] == MapDocument(d)
  }

  /** Either of the two. */
  function Takes(t: Target): TransformedDocument -> bool {
    (d: TransformedDocument) => NewTo(t)(d) || StoredIn(t)(d)
  }

  /** The target returns a document under the key. */
  function FoundIn(t: Target): TransformedDocument -> bool {
    (d: TransformedDocument) => Retrieve(t, d.sourceIdentifier).Some?
  }

  lemma {:induction false} SameFilter<T>(p: T -> bool, q: T -> bool, s: seq<T>)
    requires forall i :: 0 <= i < |s| ==> p(s[i]) == q(s[i])
    ensures Filter(p, s) == Filter(q, s)
  {
    if s != [] {
      SameFilter(p, q, s[..|s| - 1]);
    }
  }

  // ----- item results follow the documents -----

  function ResultAt(docs: seq<TransformedDocument>, m: Results, i: nat): ItemResult
    requires i < |docs| && docs[i].sourceIdentifier in m
  {
    if docs[i].sourceIdentifier in Keys(docs[..i]) then DuplicateResult(docs[i]) else m[docs[i].sourceIdentifier]
  }

  lemma LastResult(docs: seq<TransformedDocument>, m: Results)
    requires docs != [] && Keys(docs) <= m.Keys
    ensures var n := |docs| - 1;
            docs[n].sourceIdentifier in m && Keys(docs[..n]) <= m.Keys
            && Emit(docs, m).itemResults == Emit(docs[..n], m).itemResults + [ResultAt(docs, m, n)]
  {
    KeysOfPrefix(docs);
  }

  lemma ResultOfPrefix(docs: seq<TransformedDocument>, m: Results, i: nat)
    requires i < |docs| - 1 && docs[i].sourceIdentifier in m
    ensures ResultAt(docs[..|docs| - 1], m, i) == ResultAt(docs, m, i)
  {
    assert docs[..|docs| - 1][..i] == docs[..i];
  }

  /** Each document gets one item result: that of its first occurrence, and later ones are duplicates. */
  lemma {:induction false} ResultsFollowDocuments(docs: seq<TransformedDocument>, m: Results, i: nat)
    requires Keys(docs) <= m.Keys && i < |docs|
    ensures docs[i].sourceIdentifier in m && |Emit(docs, m).itemResults| == |docs|
    ensures Emit(docs, m).itemResults[i]
            == if docs[i].sourceIdentifier in Keys(docs[..i]) then DuplicateResult(docs[i])
               else m[docs[i].sourceIdentifier]
  {
    var n := |docs| - 1;
    LastResult(docs, m);
    EmissionMeaning(docs, m);
    if i < n {
      ResultsFollowDocuments(docs[..n], m, i);
      ResultOfPrefix(docs, m, i);
    } else {
      EmissionMeaning(docs[..n], m);
    }
  }

  /** The uploaded identifiers are those of the uploaded documents, as long as the
      target keeps the identifiers it is given. */
  lemma {:induction false} UploadedIdsAreIdentifiers(docs: seq<TransformedDocument>, m: Results)
    requires Keys(docs) <= m.Keys
    requires forall key :: key in m && m[key].targetIdentifier.Some? ==> m[key].targetIdentifier == Some(key)
    ensures Emit(docs, m).uploadedIds == Ids(Emit(docs, m).uploaded)
  {
    if docs != [] {
      var n := |docs| - 1;
      KeysOfPrefix(docs);
      UploadedIdsAreIdentifiers(docs[..n], m);
      IdsConcat(Emit(docs[..n], m).uploaded, [docs[n]]);
    }
  }

  function HasOutcome(p: ItemResult -> bool, m: Results): TransformedDocument -> bool {
    (d: TransformedDocument) => d.sourceIdentifier in m && p(m[d.sourceIdentifier])
  }

  /** Counting item results is counting distinct documents by their outcome. */
  lemma {:induction false} CountByOutcome(p: ItemResult -> bool, docs: seq<TransformedDocument>, m: Results)
    requires Keys(docs) <= m.Keys && forall d :: !p(DuplicateResult(d))
    ensures |Filter(p, Emit(docs, m).itemResults)| == |Filter(HasOutcome(p, m), Unique(docs))|
  {
    if docs != [] {
      var n := |docs| - 1;
      var init, last := docs[..n], docs[n];
      KeysOfPrefix(docs);
      CountByOutcome(p, init, m);
      var before, result := Emit(init, m).itemResults, m[last.sourceIdentifier];
      if last.sourceIdentifier in Keys(init) {
        FilterSnoc(p, before, DuplicateResult(last));
      } else {
        FilterSnoc(p, before, result);
        FilterSnoc(HasOutcome(p, m), Unique(init), last);
      }
    }
  }

  lemma DuplicatesCountForNothing(d: TransformedDocument)
    ensures !IsNewUpload(DuplicateResult(d)) && !IsReplay(DuplicateResult(d)) && !IsDry(DuplicateResult(d))
  {
  }

  // ----- new uploads and replays -----

  lemma OutcomeOfDistinct(docs: seq<TransformedDocument>, results: seq<ItemResult>, p: ItemResult -> bool,
                          q: TransformedDocument -> bool)
    requires |results| == |Unique(docs)|
    requires forall i :: 0 <= i < |results| ==> p(results[i]) == q(Unique(docs)[i])
    ensures Filter(HasOutcome(p, ResultsByKey(Unique(docs), results)), Unique(docs)) == Filter(q, Unique(docs))
  {
    var distinctDocs := Unique(docs);
    UniqueHasDistinctKeys(docs);
    var m := ResultsByKey(distinctDocs, results);
    forall i | 0 <= i < |distinctDocs| ensures HasOutcome(p, m)(distinctDocs[i]) == q(distinctDocs[i]) {
      ResultByKey(distinctDocs, results, i);
    }
    SameFilter(HasOutcome(p, m), q, distinctDocs);
  }

  /** Item results with the outcome p belong to the distinct documents with property q. */
  lemma CountOfDistinct(docs: seq<TransformedDocument>, results: seq<ItemResult>, p: ItemResult -> bool,
                        q: TransformedDocument -> bool)
    requires |results| == |Unique(docs)| && forall d :: !p(DuplicateResult(d))
    requires forall i :: 0 <= i < |results| ==> p(results[i]) == q(Unique(docs)[i])
    ensures Keys(docs) <= ResultsByKey(Unique(docs), results).Keys
    ensures |Filter(p, Emit(docs, ResultsByKey(Unique(docs), results)).itemResults)| == |Filter(q, Unique(docs))|
  {
    UniqueHasDistinctKeys(docs);
    CountByOutcome(p, docs, ResultsByKey(Unique(docs), results));
    OutcomeOfDistinct(docs, results, p, q);
  }

  lemma ResultTellsNewFromStored(t: Target, d: TransformedDocument)
    ensures IsNewUpload(UploadResult(t, d)) <==> NewTo(t)(d)
    ensures IsReplay(UploadResult(t, d)) <==> StoredIn(t)(d)
    ensures UploadResult(t, d).success <==> Takes(t)(d)
    ensures Accepts(t, d) <==> Takes(t)(d)
    ensures !IsDry(UploadResult(t, d))
  {
  }

  /** An attempt that writes counts as new what its target did not hold, and as replay what it did. */
  lemma AttemptCounts(t: Target, docs: seq<TransformedDocument>)
    ensures UploadedItems(Some(CleanBatch(t, docs, false))) == |Filter(NewTo(t), Unique(docs))|
    ensures ReplayedItems(Some(CleanBatch(t, docs, false))) == |Filter(StoredIn(t), Unique(docs))|
    ensures DryRunItems(Some(CleanBatch(t, docs, false))) == 0
  {
    var distinctDocs := Unique(docs);
    UniqueHasDistinctKeys(docs);
    var results := UploadResults(t, distinctDocs);
    forall i | 0 <= i < |results|
      ensures IsNewUpload(results[i]) == NewTo(t)(distinctDocs[i])
      ensures IsReplay(results[i]) == StoredIn(t)(distinctDocs[i])
      ensures IsDry(results[i]) == Never(distinctDocs[i])
    {
      UploadResultsAreIndependent(t, distinctDocs, i);
      ResultTellsNewFromStored(t, distinctDocs[i]);
    }
    CountOfDistinct(docs, results, IsNewUpload, NewTo(t));
    CountOfDistinct(docs, results, IsReplay, StoredIn(t));
    CountOfDistinct(docs, results, IsDry, Never);
    FilterAll(Never, distinctDocs);
  }

  predicate Never(d: TransformedDocument) {
    false
  }

  predicate Always(d: TransformedDocument) {
    true
  }

  /** A replay of the step counts as new whatever it finds. */
  lemma ReplayCounts(t: Target, docs: seq<TransformedDocument>)
    ensures UploadedItems(Some(ReconstructedBatch(t, docs, false))) == |Filter(FoundIn(t), Unique(docs))|
    ensures ReplayedItems(Some(ReconstructedBatch(t, docs, false))) == 0
  {
    var distinctDocs := Unique(docs);
    var results := OutcomesOf(t, distinctDocs, false, false);
    CountOfDistinct(docs, results, IsNewUpload, FoundIn(t));
    CountOfDistinct(docs, results, IsReplay, Never);
    FilterAll(Never, distinctDocs);
  }

  /** A dry run counts every distinct document as that, and nothing else. */
  lemma DryCounts(t: Target, docs: seq<TransformedDocument>, perform: bool)
    ensures var upload := Some(BatchResult(t, docs, perform, true));
            UploadedItems(upload) == 0 && ReplayedItems(upload) == 0 && DryRunItems(upload) == |Unique(docs)|
  {
    var distinctDocs := Unique(docs);
    var results := OutcomesOf(t, distinctDocs, perform, true);
    CountOfDistinct(docs, results, IsNewUpload, Never);
    CountOfDistinct(docs, results, IsReplay, Never);
    CountOfDistinct(docs, results, IsDry, Always);
    FilterAll(Never, distinctDocs);
    FilterAll(Always, distinctDocs);
  }

  // ----- every finished job -----

  /** New uploads and replays of an upload from t, or of its replay from the finished target. */
  ghost predicate Counts(e: Expected, t: Target, perform: bool, uploaded: nat, replays: nat) {
    var distinctDocs := Unique(e.transformation.documents);
    if e.config.dryRun then uploaded == 0 && replays == 0
    else if perform then uploaded == |Filter(NewTo(t), distinctDocs)| && replays == |Filter(StoredIn(t), distinctDocs)|
    else uploaded == |Filter(FoundIn(e.target), distinctDocs)| && replays == 0
  }

  /** The outcome counts, in reconciliation and metrics, what some attempt from a target that
      earlier attempts may have left did, or what a replay found. */
  ghost predicate CountsSomeAttempt(e: Expected, outcome: Outcome) {
    outcome.report.reconciliation.Some? &&
    var r, metrics := outcome.report.reconciliation.value, outcome.metrics;
    exists t, perform :: TargetFits(e, t) && CountsBoth(e, t, perform, r, metrics)
  }

  ghost predicate CountsBoth(e: Expected, t: Target, perform: bool, r: Reconciliation, metrics: ItemMetrics) {
    && Counts(e, t, perform, r.uploadedItems, r.replays)
    && Counts(e, t, perform, metrics.uploadedItems, metrics.replays)
  }

  lemma ReportedCounts(e: Expected, t: Target, perform: bool, b: UploadBatch)
    requires ReportedFrom(e, t, perform, b)
    ensures Counts(e, t, perform, UploadedItems(Some(b)), ReplayedItems(Some(b)))
  {
    if e.config.dryRun {
      DryCounts(t, e.transformation.documents, perform);
    } else if perform {
      AttemptCounts(t, e.transformation.documents);
    } else {
      ReplayCounts(t, e.transformation.documents);
    }
  }

  /** How the counters of the upload enter the report. */
  lemma CountersAreReported(e: Expected, allowed: Allowed, ctx: StepData)
    requires ContextFits(e, allowed, 5, ctx)
    ensures var r := Reconcile(ctx, e.config); var metrics := FinalMetrics(ctx, e.config, r);
            && r.uploadedItems == UploadedItems(ctx.upload) && r.replays == ReplayedItems(ctx.upload)
            && metrics.uploadedItems == (if e.config.dryRun then 0 else r.uploadedItems)
            && metrics.replays == r.replays
  {
    ModesAgree(e, allowed, ctx);
  }

  lemma FinalizationCounts(e: Expected, allowed: Allowed, ctx: StepData)
    requires ContextFits(e, allowed, 5, ctx)
    ensures CountsSomeAttempt(e, Finalize(ctx, e.config, false).outcome.value)
  {
    var b := ctx.upload.value;
    var t, perform :| ReportedFrom(e, t, perform, b);
    ReportedCounts(e, t, perform, b);
    CountersAreReported(e, allowed, ctx);
    var r := Reconcile(ctx, e.config);
    assert CountsBoth(e, t, perform, r, FinalMetrics(ctx, e.config, r));
  }

  lemma FinishedCounts(e: Expected, allowed: Allowed, ctx: StepData)
    requires Finalized(e, allowed, ctx)
    ensures ctx.outcome.Some? && CountsSomeAttempt(e, ctx.outcome.value)
  {
    var before :| ContextFits(e, allowed, 5, before) && ctx.outcome == Finalize(before, e.config, false).outcome;
    FinalizationCounts(e, allowed, before);
  }

  /** From any target and after any chain of failures and resumes, a finished job reports as new
      uploads the distinct documents that were new to the target its last upload found, and as
      replays those it held already; or, when the upload was only replayed, what that found. */
  lemma FinishedJobCounts(plan: Plan, env: Env, e: Expected, launches: seq<Launch>, s: RunnerState)
    requires MigrationJob(plan, env, e) && BeforeJob(env, e, s) && launches != []
    ensures var (after, end) := RunJob(env, launches, s);
            end.Finished? ==>
              after.world.ctx.outcome.Some? && CountsSomeAttempt(e, after.world.ctx.outcome.value)
  {
    JobFinishesAs(plan, env, e, None, launches, s);
    if RunJob(env, launches, s).1.Finished? {
      FinishedCounts(e, None, RunJob(env, launches, s).0.world.ctx);
    }
  }
}
