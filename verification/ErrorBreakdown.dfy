/** The audit of terminal failures: one entry for each failed item, or one for the
    failed step when no item failed. */
module ErrorBreakdowns {
  import opened Prelude
  import opened Records
  import opened StepRegistries
  import opened StepContexts
  import opened Extractions
  import opened Transformations
  import opened Targets
  import opened Uploads
  import opened Verifications

  // ----- transformation and upload -----

  function FindSourceItem(items: seq<MailItem>, id: string): Option<MailItem> {
    var i := FirstIndex((item: MailItem) => item.messageId == id, items);
    if i.Some? then Some(items[i.value]) else None
  }

  /** Archive name and item type of a source item. */
  function ItemMetadata(ctx: StepData, item: Option<MailItem>): (Option<string>, Option<ItemType>) {
    if item.None? then (None, None)
    else if ctx.stores.None? then (None, Some(item.value.itemType))
    else
      var context := FindContext(ArchivesOf(ctx.stores.value), item.value.messageId);
      (if context.Some? then Some(context.value.archive.name) else None, Some(item.value.itemType))
  }

  function TransformationEntry(ctx: StepData, status: FinalStatus, id: string): ErrorEntry {
    var item := if ctx.extraction.Some? then FindSourceItem(ctx.extraction.value.items, id) else None;
    var (archive, itemType) := ItemMetadata(ctx, item);
    ErrorEntry(Some(id), TransformationStage, TransformationFailedCode, TransformationFailedMessage,
               false, 1, status, archive, itemType)
  }

  function TransformationEntries(ctx: StepData, status: FinalStatus): seq<ErrorEntry> {
    if ctx.transformation.None? then []
    else Map((id: string) => TransformationEntry(ctx, status, id), ctx.transformation.value.failedIdentifiers)
  }

  function UploadEntry(status: FinalStatus, d: TransformedDocument): ErrorEntry {
    ErrorEntry(Some(d.sourceIdentifier), UploadStage, UploadFailedCode, UploadFailedMessage,
               false, 1, status, Some(d.archiveName), Some(d.itemType))
  }

  function UploadEntries(ctx: StepData, status: FinalStatus): seq<ErrorEntry> {
    if ctx.upload.None? then []
    else Map((d: TransformedDocument) => UploadEntry(status, d), ctx.upload.value.failed)
  }

  // ----- verification -----

  datatype Reason = WasFailed | WasMissing | HadChecksum | HadMetadata

  /** The identifiers in order of first mention, and the reasons recorded for each. */
  datatype Recorded = Recorded(ids: seq<string>, reasons: map<string, set<Reason>>)

  function Record(r: Recorded, id: string, reason: Reason): Recorded {
    if id in r.reasons then r.(reasons := r.reasons[id := r.reasons[id] + {reason}])
    else Recorded(r.ids + [id], r.reasons[id := {reason}])
  }

  function RecordAll(r: Recorded, ids: seq<string>, reason: Reason): Recorded {
    if ids == [] then r else Record(RecordAll(r, ids[..|ids| - 1], reason), ids[|ids| - 1], reason)
  }

  function RecordedFailures(v: Verification): Recorded {
    var failed := RecordAll(Recorded([], map[]), v.failed, WasFailed);
    var missing := RecordAll(failed, v.missing, WasMissing);
    var checksum := RecordAll(missing, v.checksumMismatches, HadChecksum);
    RecordAll(checksum, v.metadataMismatches, HadMetadata)
  }

  function VerificationFailure(reasons: set<Reason>): (FailureCode, FailureMessage) {
    if WasMissing in reasons then
      if reasons == {WasMissing} then (MissingDocumentCode, OnlyMissing) else (VerificationFailedCode, DueToMissing)
    else if HadChecksum in reasons then
      if reasons == {HadChecksum} then (ChecksumMismatchCode, OnlyChecksum) else (VerificationFailedCode, DueToChecksum)
    else if HadMetadata in reasons then
      if reasons == {HadMetadata} then (MetadataMismatchCode, OnlyMetadata) else (VerificationFailedCode, DueToMetadata)
    else (VerificationFailedCode, DuringComparison)
  }

  /** The last transformed document with this identifier, as the lookup dictionary keeps it. */
  function DocumentById(docs: seq<TransformedDocument>, id: string): Option<TransformedDocument> {
    if docs == [] then None
    else if docs[|docs| - 1].sourceIdentifier == id then Some(docs[|docs| - 1])
    else DocumentById(docs[..|docs| - 1], id)
  }

  function VerificationEntry(ctx: StepData, status: FinalStatus, id: string, reasons: set<Reason>): ErrorEntry {
    var d := if ctx.transformation.Some? then DocumentById(ctx.transformation.value.documents, id) else None;
    var (code, message) := VerificationFailure(reasons);
    ErrorEntry(Some(id), VerificationStage, code, message, false, 1, status,
               if d.Some? then Some(d.value.archiveName) else None,
               if d.Some? then Some(d.value.itemType) else None)
  }

  function ReasonsFor(r: Recorded, id: string): set<Reason> {
    if id in r.reasons then r.reasons[id] else {}
  }

  function VerificationEntries(ctx: StepData, status: FinalStatus): seq<ErrorEntry> {
    if ctx.verification.None? then []
    else
      var recorded := RecordedFailures(ctx.verification.value);
      Map((id: string) => VerificationEntry(ctx, status, id, ReasonsFor(recorded, id)), recorded.ids)
  }

  // ----- the whole breakdown -----

  /** The step whose failure the breakdown is for, when it is built on the failure path. */
  datatype FailedStep = FailedStep(name: StepName, retryable: bool, attempts: nat)

  function PipelineEntry(status: FinalStatus, step: FailedStep): ErrorEntry {
    ErrorEntry(None, PipelineStage(step.name), StepFailedCode, PipelineFailure(step.retryable),
               step.retryable, step.attempts, status, None, None)
  }

  function Breakdown(ctx: StepData, status: FinalStatus, failedStep: Option<FailedStep>): seq<ErrorEntry> {
    var entries := TransformationEntries(ctx, status) + UploadEntries(ctx, status) + VerificationEntries(ctx, status);
    if entries == [] && failedStep.Some? then [PipelineEntry(status, failedStep.value)] else entries
  }

  /** A failed run always reports something. */
  lemma FailureBreakdownIsNeverEmpty(ctx: StepData, status: FinalStatus, step: FailedStep)
    ensures Breakdown(ctx, status, Some(step)) != []
    ensures Breakdown(ctx, status, Some(step)) == Breakdown(ctx, status, None)
            || Breakdown(ctx, status, None) == []
  {
  }

  // ----- the recorded failures of a verification -----

  ghost predicate WellRecorded(r: Recorded) {
    && Distinct(r.ids)
    && forall id :: id in r.ids <==> id in r.reasons
  }

  /** One reason added, when the identifier is on the list. */
  function Added(reasons: set<Reason>, listed: bool, reason: Reason): set<Reason> {
    if listed then reasons + {reason} else reasons
  }

  lemma RecordMeaning(r: Recorded, id: string, reason: Reason)
    requires WellRecorded(r)
    ensures var r' := Record(r, id, reason);
            && WellRecorded(r')
            && (forall other :: other in r'.ids <==> other in r.ids || other == id)
            && (forall other :: other in r'.ids ==>
                  ReasonsFor(r', other) == Added(ReasonsFor(r, other), other == id, reason))
  {
  }

  lemma {:induction false} RecordAllMeaning(r: Recorded, ids: seq<string>, reason: Reason)
    requires WellRecorded(r)
    ensures var r' := RecordAll(r, ids, reason);
            && WellRecorded(r')
            && (forall id :: id in r'.ids <==> id in r.ids || id in ids)
            && (forall id :: id in r'.ids ==>
                  ReasonsFor(r', id) == Added(ReasonsFor(r, id), id in ids, reason))
  {
    if ids != [] {
      var n := |ids| - 1;
      assert ids == ids[..n] + [ids[n]];
      RecordAllMeaning(r, ids[..n], reason);
      RecordMeaning(RecordAll(r, ids[..n], reason), ids[n], reason);
    }
  }

  lemma {:induction false} RecordKnown(r: Recorded, ids: seq<string>, reason: Reason)
    requires WellRecorded(r) && forall id :: id in ids ==> id in r.ids
    ensures RecordAll(r, ids, reason).ids == r.ids
  {
    if ids != [] {
      var n := |ids| - 1;
      assert ids == ids[..n] + [ids[n]];
      RecordKnown(r, ids[..n], reason);
      RecordAllMeaning(r, ids[..n], reason);
    }
  }

  lemma {:induction false} RecordFresh(ids: seq<string>, reason: Reason)
    requires Distinct(ids)
    ensures RecordAll(Recorded([], map[]), ids, reason).ids == ids
  {
    if ids != [] {
      var n := |ids| - 1;
      RecordFresh(ids[..n], reason);
      RecordAllMeaning(Recorded([], map[]), ids[..n], reason);
      assert ids[n] !in ids[..n];
    }
  }

  /** The mismatch lists name only failed documents, and failed documents are distinct. */
  ghost predicate Consistent(v: Verification) {
    && Distinct(v.failed)
    && (forall id :: id in v.missing ==> id in v.failed)
    && (forall id :: id in v.checksumMismatches ==> id in v.failed)
    && (forall id :: id in v.metadataMismatches ==> id in v.failed)
    && (forall id :: id in v.failed ==> id in v.missing || id in v.checksumMismatches || id in v.metadataMismatches)
  }

  /** Recording a list whose identifiers are known already. */
  lemma RecordOn(r: Recorded, ids: seq<string>, reason: Reason)
    requires WellRecorded(r) && forall id :: id in ids ==> id in r.ids
    ensures var r' := RecordAll(r, ids, reason);
            && WellRecorded(r') && r'.ids == r.ids
            && forall id :: id in r.ids ==> ReasonsFor(r', id) == Added(ReasonsFor(r, id), id in ids, reason)
  {
    RecordAllMeaning(r, ids, reason);
    RecordKnown(r, ids, reason);
  }

  function ReasonsOn(v: Verification, id: string): set<Reason> {
    Added(Added(Added({WasFailed}, id in v.missing, WasMissing),
                id in v.checksumMismatches, HadChecksum),
          id in v.metadataMismatches, HadMetadata)
  }

  /** Every failed identifier is recorded once, with a reason for each list it is on. */
  lemma RecordedFailuresMeaning(v: Verification)
    requires Consistent(v)
    ensures RecordedFailures(v).ids == v.failed
    ensures forall id :: id in v.failed ==> ReasonsFor(RecordedFailures(v), id) == ReasonsOn(v, id)
  {
    var start := Recorded([], map[]);
    var failed := RecordAll(start, v.failed, WasFailed);
    var missing := RecordAll(failed, v.missing, WasMissing);
    var checksum := RecordAll(missing, v.checksumMismatches, HadChecksum);
    RecordFresh(v.failed, WasFailed);
    RecordAllMeaning(start, v.failed, WasFailed);
    RecordOn(failed, v.missing, WasMissing);
    RecordOn(missing, v.checksumMismatches, HadChecksum);
    RecordOn(checksum, v.metadataMismatches, HadMetadata);
  }

  /** The message by precedence: missing, then checksum, then metadata. */
  function MessageByPrecedence(v: Verification, id: string): FailureMessage {
    if id in v.missing then DueToMissing
    else if id in v.checksumMismatches then DueToChecksum
    else DueToMetadata
  }

  /** For a verification the verification step produced, there is one entry for
      each failed document, in order; its message follows the precedence, and its
      code is always the general one: the codes for a single reason cannot occur,
      because every recorded document is also recorded as failed. */
  lemma VerificationEntriesMeaning(ctx: StepData, status: FinalStatus, i: nat)
    requires ctx.verification.Some? && Consistent(ctx.verification.value)
    requires i < |ctx.verification.value.failed|
    ensures var v, entries := ctx.verification.value, VerificationEntries(ctx, status);
            && |entries| == |v.failed|
            && entries[i].sourceIdentifier == Some(v.failed[i])
            && entries[i].code == VerificationFailedCode
            && entries[i].message == MessageByPrecedence(v, v.failed[i])
  {
    var v := ctx.verification.value;
    RecordedFailuresMeaning(v);
    var id := v.failed[i];
    var reasons := ReasonsFor(RecordedFailures(v), id);
    assert WasFailed in reasons;
    assert reasons != {WasMissing} && reasons != {HadChecksum} && reasons != {HadMetadata};
  }

  lemma VerificationEntriesCount(ctx: StepData, status: FinalStatus)
    requires ctx.verification.Some? && Consistent(ctx.verification.value)
    ensures |VerificationEntries(ctx, status)| == |ctx.verification.value.failed|
  {
    RecordedFailuresMeaning(ctx.verification.value);
  }

  lemma {:induction false} IdsOfSubset(p: TransformedDocument -> bool, docs: seq<TransformedDocument>, id: string)
    requires DistinctKeys(docs)
    ensures DistinctKeys(Filter(p, docs))
    ensures id in Ids(Filter(p, docs)) <==> exists d :: d in docs && p(d) && d.sourceIdentifier == id
  {
    if id in Ids(Filter(p, docs)) {
      var i :| 0 <= i < |Filter(p, docs)| && Ids(Filter(p, docs))[i] == id;
      FilterMember(p, docs, Filter(p, docs)[i]);
    }
    if d :| d in docs && p(d) && d.sourceIdentifier == id {
      FilterMember(p, docs, d);
      var i :| 0 <= i < |Filter(p, docs)| && Filter(p, docs)[i] == d;
      assert Ids(Filter(p, docs))[i] == id;
    }
    FilterKeepsDistinctKeys(p, docs);
  }

  lemma {:induction false} FilterKeepsDistinctKeys(p: TransformedDocument -> bool, docs: seq<TransformedDocument>)
    requires DistinctKeys(docs)
    ensures DistinctKeys(Filter(p, docs))
  {
    if docs != [] {
      var n := |docs| - 1;
      FilterKeepsDistinctKeys(p, docs[..n]);
      FreshKey(docs);
      var kept := Filter(p, docs[..n]);
      forall i | 0 <= i < |kept| ensures kept[i].sourceIdentifier != docs[n].sourceIdentifier {
        FilterMember(p, docs[..n], kept[i]);
        assert kept[i].sourceIdentifier in Keys(docs[..n]);
      }
    }
  }

  /** The verification step produces consistent lists whenever it is given distinct documents. */
  lemma VerificationIsConsistent(t: Target, docs: seq<TransformedDocument>)
    requires DistinctKeys(docs)
    ensures Consistent(VerifyAll(t, docs))
  {
    var v := VerifyAll(t, docs);
    VerificationMeaning(t, docs);
    FilterKeepsDistinctKeys(Not(Verified(t)), docs);
    forall id
      ensures id in v.missing ==> id in v.failed
      ensures id in v.checksumMismatches ==> id in v.failed
      ensures id in v.metadataMismatches ==> id in v.failed
      ensures id in v.failed ==> id in v.missing || id in v.checksumMismatches || id in v.metadataMismatches
    {
      ConsistentAt(t, docs, id);
    }
  }

  lemma ConsistentAt(t: Target, docs: seq<TransformedDocument>, id: string)
    requires DistinctKeys(docs)
    ensures var v := VerifyAll(t, docs);
            && (id in v.missing ==> id in v.failed)
            && (id in v.checksumMismatches ==> id in v.failed)
            && (id in v.metadataMismatches ==> id in v.failed)
            && (id in v.failed ==> id in v.missing || id in v.checksumMismatches || id in v.metadataMismatches)
  {
    VerificationMeaning(t, docs);
    IdsOfSubset(Not(Verified(t)), docs, id);
    IdsOfSubset(Missing(t), docs, id);
    IdsOfSubset(WrongChecksum(t), docs, id);
    IdsOfSubset(WrongMetadata(t), docs, id);
  }

  // ----- the loops themselves -----

  method RecordList(r: Recorded, ids: seq<string>, reason: Reason) returns (r': Recorded)
    ensures r' == RecordAll(r, ids, reason)
  {
    r' := r;
    for i := 0 to |ids|
      invariant r' == RecordAll(r, ids[..i], reason)
    {
      TakeStep(ids, i);
      if ids[i] in r'.reasons {
        r' := r'.(reasons := r'.reasons[ids[i] := r'.reasons[ids[i]] + {reason}]);
      } else {
        r' := Recorded(r'.ids + [ids[i]], r'.reasons[ids[i] := {reason}]);
      }
    }
    TakeAll(ids);
  }

  method BuildVerificationEntries(ctx: StepData, status: FinalStatus) returns (entries: seq<ErrorEntry>)
    ensures entries == VerificationEntries(ctx, status)
  {
    entries := [];
    if ctx.verification.None? {
      return;
    }
    var v := ctx.verification.value;
    var recorded := RecordList(Recorded([], map[]), v.failed, WasFailed);
    recorded := RecordList(recorded, v.missing, WasMissing);
    recorded := RecordList(recorded, v.checksumMismatches, HadChecksum);
    recorded := RecordList(recorded, v.metadataMismatches, HadMetadata);
    for i := 0 to |recorded.ids|
      invariant |entries| == i
      invariant forall j :: 0 <= j < i ==>
        entries[j] == VerificationEntry(ctx, status, recorded.ids[j], ReasonsFor(recorded, recorded.ids[j]))
    {
      entries := entries
        + [VerificationEntry(ctx, status, recorded.ids[i], ReasonsFor(recorded, recorded.ids[i]))];
    }
  }

  method BuildBreakdown(ctx: StepData, status: FinalStatus, failedStep: Option<FailedStep>)
    returns (entries: seq<ErrorEntry>)
    ensures entries == Breakdown(ctx, status, failedStep)
  {
    var verification := BuildVerificationEntries(ctx, status);
    entries := TransformationEntries(ctx, status) + UploadEntries(ctx, status) + verification;
    if entries == [] && failedStep.Some? {
      entries := [PipelineEntry(status, failedStep.value)];
    }
  }
}
