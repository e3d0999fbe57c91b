/** The upload step: duplicates are dropped, the rest is fanned out or sent in
    order, and outcomes are emitted in submission order. */
module Uploads {
  import opened Prelude
  import opened Records
  import opened Targets

  // ----- duplicates -----

  /** The first document of each source identifier, in order. */
  function Unique(docs: seq<TransformedDocument>): seq<TransformedDocument> {
    if docs == [] then []
    else
      var n := |docs| - 1;
      var earlier := Unique(docs[..n]);
      if docs[n].sourceIdentifier in Keys(docs[..n]) then earlier else earlier + [docs[n]]
  }

  lemma {:induction false} UniqueHasDistinctKeys(docs: seq<TransformedDocument>)
    ensures DistinctKeys(Unique(docs))
    ensures Keys(Unique(docs)) == Keys(docs)
    ensures forall d :: d in Unique(docs) ==> d in docs
  {
    if docs != [] {
      var n := |docs| - 1;
      var init, last := docs[..n], docs[n];
      assert docs == init + [last];
      UniqueHasDistinctKeys(init);
      KeysSnoc(init, last);
      KeysSnoc(Unique(init), last);
      var earlier := Unique(init);
      if last.sourceIdentifier !in Keys(init) {
        forall i | 0 <= i < |earlier| ensures earlier[i].sourceIdentifier != last.sourceIdentifier {
          assert earlier[i].sourceIdentifier in Keys(earlier);
        }
      }
    }
  }

  // ----- emission -----

  type Results = map<string, ItemResult>

  const NOTHING_UPLOADED := UploadBatch([], [], [], [], [])

  function DuplicateResult(d: TransformedDocument): ItemResult {
    ItemResult(d.sourceIdentifier, false, Some(d.sourceIdentifier), Some(SkippedDuplicate), false, false)
  }

  /** One turn of the emission loop; seen says whether the identifier was emitted before. */
  function EmitOne(b: UploadBatch, d: TransformedDocument, seen: bool, result: ItemResult): UploadBatch {
    if seen then
      b.(skipped := b.skipped + [d], itemResults := b.itemResults + [DuplicateResult(d)])
    else
      var emitted := b.(itemResults := b.itemResults + [result]);
      if result.dryRun then emitted.(skipped := emitted.skipped + [d])
      else if !result.success then emitted.(failed := emitted.failed + [d])
      else
        emitted.(uploaded := emitted.uploaded + [d],
                 uploadedIds := emitted.uploadedIds
                   + [if result.targetIdentifier.Some? && result.targetIdentifier.value != ""
                      then result.targetIdentifier.value else d.sourceIdentifier])
  }

  function Emit(docs: seq<TransformedDocument>, results: Results): UploadBatch
    requires Keys(docs) <= results.Keys
  {
    if docs == [] then NOTHING_UPLOADED
    else
      var n := |docs| - 1;
      KeysOfPrefix(docs);
      EmitOne(Emit(docs[..n], results), docs[n],
              docs[n].sourceIdentifier in Keys(docs[..n]), results[docs[n].sourceIdentifier])
  }

  lemma KeysOfPrefix(docs: seq<TransformedDocument>)
    requires docs != []
    ensures Keys(docs) == Keys(docs[..|docs| - 1]) + {docs[|docs| - 1].sourceIdentifier}
  {
    assert docs == docs[..|docs| - 1] + [docs[|docs| - 1]];
    KeysSnoc(docs[..|docs| - 1], docs[|docs| - 1]);
  }

  function Succeeded(results: Results): TransformedDocument -> bool {
    (d: TransformedDocument) =>
      var key := d.sourceIdentifier;
      key in results && results[key].success && !results[key].dryRun
  }

  function FailedIn(results: Results): TransformedDocument -> bool {
    (d: TransformedDocument) =>
      var key := d.sourceIdentifier;
      key in results && !results[key].success && !results[key].dryRun
  }

  /** What emission makes of a list of documents. */
  ghost predicate EmittedFrom(docs: seq<TransformedDocument>, results: Results, b: UploadBatch) {
    && b.uploaded == Filter(Succeeded(results), Unique(docs))
    && b.failed == Filter(FailedIn(results), Unique(docs))
    && |b.uploaded| + |b.failed| + |b.skipped| == |docs|
    && |b.itemResults| == |docs|
    && |b.uploadedIds| == |b.uploaded|
  }

  lemma EmitOneSorts(docs: seq<TransformedDocument>, results: Results, b: UploadBatch)
    requires docs != [] && Keys(docs) <= results.Keys
    requires EmittedFrom(docs[..|docs| - 1], results, b)
    ensures var last := docs[|docs| - 1];
            docs[|docs| - 1].sourceIdentifier in results
            && EmittedFrom(docs, results, EmitOne(b, last, last.sourceIdentifier in Keys(docs[..|docs| - 1]),
                                                  results[last.sourceIdentifier]))
  {
    var n := |docs| - 1;
    KeysOfPrefix(docs);
    FilterSnoc(Succeeded(results), Unique(docs[..n]), docs[n]);
    FilterSnoc(FailedIn(results), Unique(docs[..n]), docs[n]);
  }

  /** Emission sorts the distinct documents by outcome, keeps their order, and
      accounts for every document. */
  lemma {:induction false} EmissionMeaning(docs: seq<TransformedDocument>, results: Results)
    requires Keys(docs) <= results.Keys
    ensures EmittedFrom(docs, results, Emit(docs, results))
  {
    if docs != [] {
      KeysOfPrefix(docs);
      EmissionMeaning(docs[..|docs| - 1], results);
      EmitOneSorts(docs, results, Emit(docs[..|docs| - 1], results));
    }
  }

  // ----- outcomes of the distinct documents -----

  function ResultsByKey(docs: seq<TransformedDocument>, results: seq<ItemResult>): (m: Results)
    requires |docs| == |results|
    ensures m.Keys == Keys(docs)
  {
    if docs == [] then map[]
    else
      var n := |docs| - 1;
      KeysOfPrefix(docs);
      ResultsByKey(docs[..n], results[..n])[docs[n].sourceIdentifier := results[n]]
  }

  lemma {:induction false} ResultByKey(docs: seq<TransformedDocument>, results: seq<ItemResult>, i: nat)
    requires |docs| == |results| && DistinctKeys(docs) && i < |docs|
    ensures docs[i].sourceIdentifier in ResultsByKey(docs, results)
    ensures ResultsByKey(docs, results)[docs[i].sourceIdentifier] == results[i]
  {
    var n := |docs| - 1;
    KeysOfPrefix(docs);
    if i < n {
      ResultByKey(docs[..n], results[..n], i);
    }
  }

  function DryResult(d: TransformedDocument): ItemResult {
    ItemResult(d.sourceIdentifier, true, None, None, false, true)
  }

  function ReconstructedResult(t: Target, d: TransformedDocument): ItemResult {
    var key := d.sourceIdentifier;
    if Retrieve(t, key).None? then ItemResult(key, false, None, Some(NotFoundInTarget), false, false)
    else ItemResult(key, true, Some(key), None, false, false)
  }

  function OutcomesOf(t: Target, docs: seq<TransformedDocument>, perform: bool, dryRun: bool): (r: seq<ItemResult>)
    ensures |r| == |docs|
  {
    if dryRun then Map(DryResult, docs)
    else if perform then UploadResults(t, docs)
    else Map((d: TransformedDocument) => ReconstructedResult(t, d), docs)
  }

  function BatchResult(t: Target, docs: seq<TransformedDocument>, perform: bool, dryRun: bool): UploadBatch {
    var distinctDocs := Unique(docs);
    UniqueHasDistinctKeys(docs);
    Emit(docs, ResultsByKey(distinctDocs, OutcomesOf(t, distinctDocs, perform, dryRun)))
  }

  /** The batch an uninterrupted upload step reports, and the target it leaves. */
  function CleanBatch(t: Target, docs: seq<TransformedDocument>, dryRun: bool): UploadBatch {
    BatchResult(t, docs, true, dryRun)
  }

  function FinalTarget(t: Target, docs: seq<TransformedDocument>, dryRun: bool): Target {
    if dryRun then t else UploadAll(t, Unique(docs))
  }

  /** The batch a resumed run rebuilds from the target without writing. */
  function ReconstructedBatch(t: Target, docs: seq<TransformedDocument>, dryRun: bool): UploadBatch {
    BatchResult(t, docs, false, dryRun)
  }

  // ----- agreement of two batches -----

  /** An item result without its replay flag. */
  function WithoutReplay(r: ItemResult): ItemResult {
    r.(replay := false)
  }

  /** An item result without the parts that may differ between an upload and its
      reconstruction: the replay flag, and the error text and target of a failed item. */
  function Essence(r: ItemResult): ItemResult {
    r.(replay := false, error := None, targetIdentifier := if r.success then r.targetIdentifier else None)
  }

  /** What is compared of an item result. */
  type View = ItemResult -> ItemResult

  /** The view keeps what emission reads. */
  ghost predicate Faithful(view: View) {
    forall r :: view(r).success == r.success && view(r).dryRun == r.dryRun
                && (r.success ==> view(r).targetIdentifier == r.targetIdentifier)
  }

  function Seen(view: View, b: UploadBatch): UploadBatch {
    b.(itemResults := Map(view, b.itemResults))
  }

  function BatchEssence(b: UploadBatch): UploadBatch {
    Seen(Essence, b)
  }

  lemma MapSnoc<A, B>(f: A -> B, s: seq<A>, x: A)
    ensures Map(f, s + [x]) == Map(f, s) + [f(x)]
  {
  }

  lemma {:induction false} SameViewSameBatch(view: View, docs: seq<TransformedDocument>, a: Results, b: Results)
    requires Faithful(view) && Keys(docs) <= a.Keys && Keys(docs) <= b.Keys
    requires forall key :: key in Keys(docs) ==> view(a[key]) == view(b[key])
    ensures Seen(view, Emit(docs, a)) == Seen(view, Emit(docs, b))
  {
    if docs != [] {
      var n := |docs| - 1;
      KeysOfPrefix(docs);
      SameViewSameBatch(view, docs[..n], a, b);
      var key := docs[n].sourceIdentifier;
      assert view(a[key]) == view(b[key]);
      SameViewOne(view, Emit(docs[..n], a), Emit(docs[..n], b), docs[n], key in Keys(docs[..n]), a[key], b[key]);
    }
  }

  lemma SameViewOne(view: View, a: UploadBatch, b: UploadBatch, d: TransformedDocument, seen: bool, ra: ItemResult,
                    rb: ItemResult)
    requires Faithful(view) && Seen(view, a) == Seen(view, b) && view(ra) == view(rb)
    ensures Seen(view, EmitOne(a, d, seen, ra)) == Seen(view, EmitOne(b, d, seen, rb))
  {
    MapSnoc(view, a.itemResults, if seen then DuplicateResult(d) else ra);
    MapSnoc(view, b.itemResults, if seen then DuplicateResult(d) else rb);
    assert a.uploaded == b.uploaded && a.failed == b.failed && a.skipped == b.skipped;
    assert Seen(view, a).uploadedIds == Seen(view, b).uploadedIds;
    assert view(ra).success == view(rb).success && view(ra).dryRun == view(rb).dryRun;
  }

  /** Two batches agree once their distinct documents' outcomes agree one by one. */
  lemma SameOutcomesSameBatch(view: View, docs: seq<TransformedDocument>, a: seq<ItemResult>, b: seq<ItemResult>)
    requires Faithful(view) && |a| == |Unique(docs)| == |b|
    requires forall i :: 0 <= i < |a| ==> view(a[i]) == view(b[i])
    ensures Keys(docs) == Keys(Unique(docs))
    ensures Seen(view, Emit(docs, ResultsByKey(Unique(docs), a)))
            == Seen(view, Emit(docs, ResultsByKey(Unique(docs), b)))
  {
    var distinctDocs := Unique(docs);
    UniqueHasDistinctKeys(docs);
    var ma, mb := ResultsByKey(distinctDocs, a), ResultsByKey(distinctDocs, b);
    forall key | key in Keys(docs) ensures view(ma[key]) == view(mb[key]) {
      var i :| 0 <= i < |distinctDocs| && distinctDocs[i].sourceIdentifier == key;
      ResultByKey(distinctDocs, a, i);
      ResultByKey(distinctDocs, b, i);
    }
    SameViewSameBatch(view, docs, ma, mb);
  }

  /** Batches that agree up to replay flags agree in essence. */
  lemma ReplayIsInessential(a: UploadBatch, b: UploadBatch)
    requires Seen(WithoutReplay, a) == Seen(WithoutReplay, b)
    ensures BatchEssence(a) == BatchEssence(b)
  {
    var ra, rb := a.itemResults, b.itemResults;
    assert Map(WithoutReplay, ra) == Map(WithoutReplay, rb);
    forall i | 0 <= i < |ra| ensures Essence(ra[i]) == Essence(rb[i]) {
      assert Map(WithoutReplay, ra)[i] == Map(WithoutReplay, rb)[i];
    }
    assert Map(Essence, ra) == Map(Essence, rb);
    assert Seen(WithoutReplay, a).(itemResults := []) == Seen(WithoutReplay, b).(itemResults := []);
  }

  // ----- exactly-once effect under repeated, interrupted attempts -----

  /** The target after a number of failed attempts, each one an interleaving
      of the workers cut off at an arbitrary point. */
  function AfterAttempts(t: Target, docs: seq<TransformedDocument>, attempts: seq<seq<nat>>): Target {
    if attempts == [] then t
    else
      var before := AfterAttempts(t, docs, attempts[..|attempts| - 1]);
      RunPool(docs, StartPool(before, |docs|), attempts[|attempts| - 1]).target
  }

  lemma {:induction false} AttemptsInterrupt(t: Target, docs: seq<TransformedDocument>, attempts: seq<seq<nat>>)
    requires DistinctKeys(docs)
    ensures Interrupted(t, AfterAttempts(t, docs, attempts), docs)
  {
    if attempts != [] {
      var before := AfterAttempts(t, docs, attempts[..|attempts| - 1]);
      AttemptsInterrupt(t, docs, attempts[..|attempts| - 1]);
      AnyScheduleInterrupts(before, docs, attempts[|attempts| - 1]);
      InterruptedTwice(t, before, AfterAttempts(t, docs, attempts), docs);
    }
  }

  lemma InterruptedVerdict(t: Target, mid: Target, d: TransformedDocument)
    requires mid.refusals == t.refusals && Partial(t, mid, d)
    ensures Accepts(mid, d) == Accepts(t, d)
    ensures WithoutReplay(UploadResult(mid, d)) == WithoutReplay(UploadResult(t, d))
  {
    AcceptanceIsStable(t, mid, d);
    if !Accepts(t, d) {
      VerdictOfCell(t, mid, d);
    }
  }

  /** After an interruption every document gets the result it would have got; a
      success is reported as a replay exactly when its document is already stored. */
  lemma InterruptedOutcome(t: Target, mid: Target, docs: seq<TransformedDocument>, i: nat)
    requires DistinctKeys(docs) && Interrupted(t, mid, docs) && i < |docs|
    ensures WithoutReplay(UploadResults(mid, docs)[i]) == WithoutReplay(UploadResults(t, docs)[i])
    ensures UploadResults(mid, docs)[i].replay
       <==> Accepts(t, docs[i]) && docs[i].sourceIdentifier in mid.documents
  {
    UploadResultsAreIndependent(t, docs, i);
    UploadResultsAreIndependent(mid, docs, i);
    assert Partial(t, mid, docs[i]);
    InterruptedVerdict(t, mid, docs[i]);
  }

  lemma InterruptedBatchAgrees(t: Target, mid: Target, docs: seq<TransformedDocument>, dryRun: bool)
    requires Interrupted(t, mid, Unique(docs))
    ensures Seen(WithoutReplay, CleanBatch(mid, docs, dryRun)) == Seen(WithoutReplay, CleanBatch(t, docs, dryRun))
    ensures !dryRun ==> FinalTarget(mid, docs, dryRun) == FinalTarget(t, docs, dryRun)
  {
    var distinctDocs := Unique(docs);
    UniqueHasDistinctKeys(docs);
    RepetitionCompletes(t, mid, distinctDocs);
    var a, b := OutcomesOf(mid, distinctDocs, true, dryRun), OutcomesOf(t, distinctDocs, true, dryRun);
    forall i | 0 <= i < |distinctDocs| ensures WithoutReplay(a[i]) == WithoutReplay(b[i]) {
      if !dryRun {
        InterruptedOutcome(t, mid, distinctDocs, i);
      }
    }
    SameOutcomesSameBatch(WithoutReplay, docs, a, b);
  }

  /** Exactly-once effect: after any number of failed attempts, each interleaved
      anyhow and cut off anywhere, the attempt that succeeds leaves the same
      target and reports the same batch as one clean attempt: the same uploaded,
      failed and skipped documents, and item results that differ in the replay
      flag only. */
  lemma ExactlyOnce(t: Target, docs: seq<TransformedDocument>, attempts: seq<seq<nat>>)
    ensures var mid := AfterAttempts(t, Unique(docs), attempts);
            && FinalTarget(mid, docs, false) == FinalTarget(t, docs, false)
            && Seen(WithoutReplay, CleanBatch(mid, docs, false)) == Seen(WithoutReplay, CleanBatch(t, docs, false))
  {
    UniqueHasDistinctKeys(docs);
    AttemptsInterrupt(t, Unique(docs), attempts);
    InterruptedBatchAgrees(t, AfterAttempts(t, Unique(docs), attempts), docs, false);
  }

  /** Uploading the same batch again changes nothing in the target, and every
      accepted document is then reported as a replay. */
  lemma SecondUploadReplays(t: Target, docs: seq<TransformedDocument>, i: nat)
    requires i < |Unique(docs)|
    ensures var after := FinalTarget(t, docs, false);
            && FinalTarget(after, docs, false) == after
            && UploadResults(after, Unique(docs))[i].replay == Accepts(t, Unique(docs)[i])
            && UploadResults(after, Unique(docs))[i].success == Accepts(t, Unique(docs)[i])
  {
    var distinctDocs := Unique(docs);
    UniqueHasDistinctKeys(docs);
    TakeAll(distinctDocs);
    PrefixIsInterruption(t, distinctDocs, |distinctDocs|);
    var after := FinalTarget(t, docs, false);
    RepetitionCompletes(t, after, distinctDocs);
    InterruptedOutcome(t, after, distinctDocs, i);
    UploadAllCompletes(t, distinctDocs);
    assert Complete(t, after, distinctDocs[i]);
    UploadResultsAreIndependent(t, distinctDocs, i);
  }

  // ----- reconstruction from the target -----

  /** No document the target turns down is nevertheless found in it. */
  ghost predicate NothingHidden(t: Target, docs: seq<TransformedDocument>) {
    forall d :: d in docs && !Accepts(t, d) ==> Retrieve(t, d.sourceIdentifier).None?
  }

  /** One completed document, reconstructed: it is found if it was accepted, and
      otherwise exactly if it could be retrieved before. */
  lemma ReconstructedAfter(t: Target, after: Target, d: TransformedDocument)
    requires Complete(t, after, d)
    ensures ReconstructedResult(after, d).success <==> Accepts(t, d) || Retrieve(t, d.sourceIdentifier).Some?
    ensures Essence(ReconstructedResult(after, d)) == Essence(UploadResult(t, d))
       <==> ReconstructedResult(after, d).success == Accepts(t, d)
  {
    if !Accepts(t, d) {
      RetrieveOfCell(t, after, d.sourceIdentifier);
    } else {
      assert CellAt(after, d.sourceIdentifier) == Cell(Some(MapDocument(d)), Some(d));
    }
  }

  lemma ReconstructedOutcome(t: Target, docs: seq<TransformedDocument>, i: nat)
    requires DistinctKeys(docs) && i < |docs|
    ensures var after := UploadAll(t, docs);
            Essence(ReconstructedResult(after, docs[i])) == Essence(UploadResults(t, docs)[i])
            <==> Accepts(t, docs[i]) || Retrieve(t, docs[i].sourceIdentifier).None?
  {
    UploadResultsAreIndependent(t, docs, i);
    UploadAllCompletes(t, docs);
    ReconstructedAfter(t, UploadAll(t, docs), docs[i]);
  }

  lemma RetrieveOfCell(a: Target, b: Target, key: string)
    requires CellAt(a, key) == CellAt(b, key)
    ensures Retrieve(a, key) == Retrieve(b, key)
  {
  }

  /** Rebuilding the upload lists from the finished target agrees with the upload
      itself if and only if the target held no retrievable document under the
      identifier of a document it turns down. */
  lemma ReconstructionIsExact(t: Target, docs: seq<TransformedDocument>)
    ensures BatchEssence(ReconstructedBatch(FinalTarget(t, docs, false), docs, false))
            == BatchEssence(CleanBatch(t, docs, false))
       <==> NothingHidden(t, Unique(docs))
  {
    if NothingHidden(t, Unique(docs)) {
      ReconstructionAgrees(t, docs, false);
    } else {
      ReconstructionDiffers(t, docs);
    }
  }

  lemma ReconstructionAgrees(t: Target, docs: seq<TransformedDocument>, dryRun: bool)
    requires dryRun || NothingHidden(t, Unique(docs))
    ensures BatchEssence(ReconstructedBatch(FinalTarget(t, docs, dryRun), docs, dryRun))
            == BatchEssence(CleanBatch(t, docs, dryRun))
  {
    var distinctDocs := Unique(docs);
    UniqueHasDistinctKeys(docs);
    var after := FinalTarget(t, docs, dryRun);
    var a, b := OutcomesOf(after, distinctDocs, false, dryRun), OutcomesOf(t, distinctDocs, true, dryRun);
    forall i | 0 <= i < |distinctDocs| ensures Essence(a[i]) == Essence(b[i]) {
      if !dryRun {
        ReconstructedOutcome(t, distinctDocs, i);
        assert distinctDocs[i] in distinctDocs;
      }
    }
    SameOutcomesSameBatch(Essence, docs, a, b);
  }

  /** A turned-down document that the target holds is reconstructed as uploaded. */
  lemma HiddenIsReconstructed(t: Target, docs: seq<TransformedDocument>, i: nat)
    requires DistinctKeys(docs) && i < |docs|
    requires !Accepts(t, docs[i]) && Retrieve(t, docs[i].sourceIdentifier).Some?
    ensures ReconstructedResult(UploadAll(t, docs), docs[i]).success
    ensures !UploadResults(t, docs)[i].success
  {
    UploadResultsAreIndependent(t, docs, i);
    UploadAllCompletes(t, docs);
    ReconstructedAfter(t, UploadAll(t, docs), docs[i]);
  }

  lemma ReconstructionDiffers(t: Target, docs: seq<TransformedDocument>)
    requires !NothingHidden(t, Unique(docs))
    ensures BatchEssence(ReconstructedBatch(FinalTarget(t, docs, false), docs, false))
            != BatchEssence(CleanBatch(t, docs, false))
  {
    var distinctDocs := Unique(docs);
    UniqueHasDistinctKeys(docs);
    var after := FinalTarget(t, docs, false);
    var d :| d in distinctDocs && !Accepts(t, d) && Retrieve(t, d.sourceIdentifier).Some?;
    var i :| 0 <= i < |distinctDocs| && distinctDocs[i] == d;
    HiddenIsReconstructed(t, distinctDocs, i);
    UploadedOnlyInOne(docs, OutcomesOf(after, distinctDocs, false, false), OutcomesOf(t, distinctDocs, true, false), i);
  }

  lemma {:induction false} UniqueOne(d: TransformedDocument)
    ensures Unique([d]) == [d]
  {
    assert [d][..0] == [];
    assert Unique([]) == [];
  }

  /** Such a target exists: it holds a document, and one with another checksum is
      uploaded under the same identifier. */
  lemma ConflictIsReconstructedAsUploaded(first: TransformedDocument) returns (second: TransformedDocument)
    ensures second.sourceIdentifier == first.sourceIdentifier
    ensures var t := Upload(Target(map[], map[], map[]), first);
            BatchEssence(ReconstructedBatch(FinalTarget(t, [second], false), [second], false))
            != BatchEssence(CleanBatch(t, [second], false))
  {
    second := first.(checksum := first.checksum + ['x']);
    var t := Upload(Target(map[], map[], map[]), first);
    assert MapDocument(first).checksum != MapDocument(second).checksum;
    UniqueOne(second);
    assert second in Unique([second]) && !Accepts(t, second) && Retrieve(t, second.sourceIdentifier).Some?;
    ReconstructionDiffers(t, [second]);
  }

  lemma UploadedOnlyInOne(docs: seq<TransformedDocument>, a: seq<ItemResult>, b: seq<ItemResult>, i: nat)
    requires |a| == |Unique(docs)| == |b| && i < |a|
    requires a[i].success && !a[i].dryRun && !b[i].success
    ensures Keys(docs) == Keys(Unique(docs))
    ensures BatchEssence(Emit(docs, ResultsByKey(Unique(docs), a)))
            != BatchEssence(Emit(docs, ResultsByKey(Unique(docs), b)))
  {
    var distinctDocs := Unique(docs);
    UniqueHasDistinctKeys(docs);
    UploadedExactlyWhen(docs, a, i);
    UploadedExactlyWhen(docs, b, i);
  }

  /** A distinct document is reported uploaded exactly when its outcome says so. */
  lemma UploadedExactlyWhen(docs: seq<TransformedDocument>, results: seq<ItemResult>, i: nat)
    requires |results| == |Unique(docs)| && i < |results|
    ensures Keys(docs) == Keys(Unique(docs))
    ensures Unique(docs)[i] in Emit(docs, ResultsByKey(Unique(docs), results)).uploaded
       <==> results[i].success && !results[i].dryRun
  {
    var distinctDocs := Unique(docs);
    UniqueHasDistinctKeys(docs);
    var m := ResultsByKey(distinctDocs, results);
    ResultByKey(distinctDocs, results, i);
    EmissionMeaning(docs, m);
    FilterMember(Succeeded(m), distinctDocs, distinctDocs[i]);
  }

  // ----- the step itself -----

  /** Where an attempt that raises stops: the schedule of the workers, or the
      number of documents the sequential loop got through. */
  datatype StopPoint = StopPoint(schedule: seq<nat>, progress: nat)

  predicate FansOut(config: Configuration, distinctDocs: seq<TransformedDocument>) {
    |distinctDocs| > 1 && config.uploadWorkers > 1
  }

  /** What an attempt that raises in the middle leaves in the target. */
  function StoppedTarget(t: Target, docs: seq<TransformedDocument>, config: Configuration, stop: StopPoint): Target {
    var distinctDocs := Unique(docs);
    if config.dryRun then t
    else if FansOut(config, distinctDocs) then RunPool(distinctDocs, StartPool(t, |distinctDocs|), stop.schedule).target
    else UploadAll(t, Before(distinctDocs, stop.progress))
  }

  lemma StoppedIsInterrupted(t: Target, docs: seq<TransformedDocument>, config: Configuration, stop: StopPoint)
    ensures Interrupted(t, StoppedTarget(t, docs, config, stop), Unique(docs))
  {
    var distinctDocs := Unique(docs);
    UniqueHasDistinctKeys(docs);
    AnyScheduleInterrupts(t, distinctDocs, stop.schedule);
    var n := if stop.progress < |distinctDocs| then stop.progress else |distinctDocs|;
    TakeAll(distinctDocs);
    PrefixIsInterruption(t, distinctDocs, n);
  }

  /** With a single worker, an attempt that raises has uploaded a first part of the distinct
      documents, completely and in order. */
  lemma SingleWorkerStopsInOrder(t: Target, docs: seq<TransformedDocument>, config: Configuration, stop: StopPoint)
    requires config.uploadWorkers <= 1 && !config.dryRun
    ensures var distinctDocs := Unique(docs);
            var n := if stop.progress < |distinctDocs| then stop.progress else |distinctDocs|;
            StoppedTarget(t, docs, config, stop) == UploadAll(t, distinctDocs[..n])
  {
    TakeAll(Unique(docs));
  }

  method DropDuplicates(docs: seq<TransformedDocument>) returns (distinctDocs: seq<TransformedDocument>)
    ensures distinctDocs == Unique(docs)
  {
    var seen: set<string> := {};
    distinctDocs := [];
    for i := 0 to |docs|
      invariant seen == Keys(docs[..i]) && distinctDocs == Unique(docs[..i])
    {
      TakeStep(docs, i);
      KeysOfPrefix(docs[..i + 1]);
      if docs[i].sourceIdentifier !in seen {
        seen := seen + {docs[i].sourceIdentifier};
        distinctDocs := distinctDocs + [docs[i]];
      }
    }
    TakeAll(docs);
  }

  method UploadInOrder(target: TargetAdapter, docs: seq<TransformedDocument>) returns (results: seq<ItemResult>)
    modifies target
    ensures target.State() == UploadAll(old(target.State()), docs)
    ensures target.session == SessionAfter(old(target.State()), docs, old(target.session))
    ensures results == UploadResults(old(target.State()), docs)
  {
    ghost var start := target.State();
    results := [];
    for i := 0 to |docs|
      invariant target.State() == UploadAll(start, docs[..i])
      invariant target.session == SessionAfter(start, docs[..i], old(target.session))
      invariant results == UploadResults(start, docs[..i])
    {
      TakeStep(docs, i);
      var response := target.UploadArchivedFile(docs[i]);
      results := results + [ResultFor(docs[i], response)];
    }
    TakeAll(docs);
  }

  /** The worker pool, driven by a schedule. */
  method RunSchedule(target: TargetAdapter, docs: seq<TransformedDocument>, schedule: seq<nat>)
    returns (workers: seq<Worker>)
    modifies target
    ensures Pool(target.State(), workers) == RunPool(docs, StartPool(old(target.State()), |docs|), schedule)
  {
    ghost var start := StartPool(target.State(), |docs|);
    workers := seq(|docs|, _ => Idle);
    for i := 0 to |schedule|
      invariant |workers| == |docs|
      invariant Pool(target.State(), workers) == RunPool(docs, start, schedule[..i])
    {
      TakeStep(schedule, i);
      if schedule[i] < |docs| {
        var worker := target.Act(docs[schedule[i]], workers[schedule[i]]);
        workers := workers[schedule[i] := worker];
      }
    }
    TakeAll(schedule);
  }

  predicate DoneUpTo(workers: seq<Worker>, n: nat)
    requires n <= |workers|
  {
    forall i :: 0 <= i < n ==> workers[i].Done?
  }

  /** Lets every worker that is not done yet finish, one after another. */
  method Drain(target: TargetAdapter, docs: seq<TransformedDocument>, pool: seq<Worker>, ghost start: Target)
    returns (results: seq<ItemResult>)
    requires DistinctKeys(docs) && PoolInv(start, docs, Pool(target.State(), pool))
    modifies target
    ensures target.State() == UploadAll(start, docs)
    ensures results == UploadResults(start, docs)
  {
    var workers := pool;
    for i := 0 to |docs|
      invariant PoolInv(start, docs, Pool(target.State(), workers))
      invariant DoneUpTo(workers, i)
    {
      while !workers[i].Done?
        invariant PoolInv(start, docs, Pool(target.State(), workers))
        invariant DoneUpTo(workers, i)
        decreases match workers[i] case Idle => 3 case Looked(_) => 2 case Stored => 1 case Done(_) => 0
      {
        PoolStepKeeps(start, docs, Pool(target.State(), workers), i);
        var worker := target.Act(docs[i], workers[i]);
        workers := workers[i := worker];
      }
    }
    var p := Pool(target.State(), workers);
    DonePoolIsUploadAll(start, docs, p);
    results := PoolResults(p);
  }

  method UploadConcurrently(target: TargetAdapter, docs: seq<TransformedDocument>, schedule: seq<nat>)
    returns (results: seq<ItemResult>)
    requires DistinctKeys(docs)
    modifies target
    ensures target.State() == UploadAll(old(target.State()), docs)
    ensures results == UploadResults(old(target.State()), docs)
  {
    ghost var start := target.State();
    StartHasInv(start, docs);
    PoolKeepsInv(start, docs, StartPool(start, |docs|), schedule);
    var workers := RunSchedule(target, docs, schedule);
    results := Drain(target, docs, workers, start);
  }

  method EmitAll(docs: seq<TransformedDocument>, results: Results) returns (b: UploadBatch)
    requires Keys(docs) <= results.Keys
    ensures b == Emit(docs, results)
  {
    var emitted: set<string> := {};
    b := NOTHING_UPLOADED;
    for i := 0 to |docs|
      invariant Keys(docs[..i]) <= results.Keys
      invariant emitted == Keys(docs[..i]) && b == Emit(docs[..i], results)
    {
      TakeStep(docs, i);
      KeysOfPrefix(docs[..i + 1]);
      var key := docs[i].sourceIdentifier;
      assert key in Keys(docs);
      b := EmitOne(b, docs[i], key in emitted, results[key]);
      emitted := emitted + {key};
    }
    TakeAll(docs);
  }

  /** The upload step. With a stop point the attempt raises after the work the
      stop point allows; otherwise it completes, under the given worker schedule. */
  method RunUpload(target: TargetAdapter, docs: seq<TransformedDocument>, config: Configuration,
                   perform: bool, point: StopPoint, raises: bool)
    returns (batch: Option<UploadBatch>)
    modifies target
    ensures raises ==> batch == None
    ensures !raises ==> batch == Some(BatchResult(old(target.State()), docs, perform, config.dryRun))
    ensures perform && !raises && target.session.Some? ==> target.session.value.completed
    ensures perform && !raises && config.dryRun ==> target.session == MarkCompleted(old(target.session))
    ensures !perform || (raises && config.dryRun) ==> target.session == old(target.session)
    ensures perform && !raises && !config.dryRun && !FansOut(config, Unique(docs)) ==>
              target.session == MarkCompleted(SessionAfter(old(target.State()), Unique(docs), old(target.session)))
    ensures !perform ==> target.State() == old(target.State())
    ensures perform && !raises ==> target.State() == FinalTarget(old(target.State()), docs, config.dryRun)
    ensures perform && raises ==> target.State() == StoppedTarget(old(target.State()), docs, config, point)
  {
    var distinctDocs := DropDuplicates(docs);
    UniqueHasDistinctKeys(docs);
    var results: seq<ItemResult>;
    if config.dryRun {
      results := Map(DryResult, distinctDocs);
    } else if !perform {
      ghost var state := target.State();
      results := [];
      for i := 0 to |distinctDocs|
        invariant target.State() == state && target.session == old(target.session)
        invariant |results| == i
        invariant forall j :: 0 <= j < i ==> results[j] == ReconstructedResult(state, distinctDocs[j])
      {
        var found := target.GetUploadedDocument(distinctDocs[i].sourceIdentifier);
        var key := distinctDocs[i].sourceIdentifier;
        results := results + [if found.None? then ItemResult(key, false, None, Some(NotFoundInTarget), false, false)
                              else ItemResult(key, true, Some(key), None, false, false)];
      }
      assert results == OutcomesOf(state, distinctDocs, false, false);
    } else if FansOut(config, distinctDocs) {
      if raises {
        var _ := RunSchedule(target, distinctDocs, point.schedule);
        return None;
      }
      results := UploadConcurrently(target, distinctDocs, point.schedule);
    } else {
      if raises {
        var _ := UploadInOrder(target, Before(distinctDocs, point.progress));
        return None;
      }
      results := UploadInOrder(target, distinctDocs);
    }
    if raises {
      return None;
    }
    var emitted := EmitAll(docs, ResultsByKey(distinctDocs, results));
    if perform {
      target.FinalizeJob();
    }
    return Some(emitted);
  }
}
