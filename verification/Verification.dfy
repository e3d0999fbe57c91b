/** Verification: every uploaded document is read back and compared. */
module Verifications {
  import opened Prelude
  import opened Records
  import opened Targets
  import opened Uploads

  const NOTHING_VERIFIED := Verification([], [], [], [], [])

  /** One turn of the loop, on what the target returned. */
  function VerifyOne(v: Verification, d: TransformedDocument, found: Option<TransformedDocument>): Verification {
    var key := d.sourceIdentifier;
    if found.None? then v.(missing := v.missing + [key], failed := v.failed + [key])
    else
      var checksum := found.value.checksum == d.checksum;
      var metadata := Signature(found.value) == Signature(d);
      if checksum && metadata then v.(verified := v.verified + [key])
      else
        v.(failed := v.failed + [key],
           checksumMismatches := v.checksumMismatches + (if checksum then [] else [key]),
           metadataMismatches := v.metadataMismatches + (if metadata then [] else [key]))
  }

  function VerifyAll(t: Target, docs: seq<TransformedDocument>): Verification {
    if docs == [] then NOTHING_VERIFIED
    else
      var n := |docs| - 1;
      VerifyOne(VerifyAll(t, docs[..n]), docs[n], Retrieve(t, docs[n].sourceIdentifier))
  }

  predicate IsDry(result: ItemResult) {
    result.dryRun
  }

  predicate DryMode(config: Configuration, upload: UploadBatch) {
    config.dryRun || exists i :: 0 <= i < |upload.itemResults| && IsDry(upload.itemResults[i])
  }

  function Verify(t: Target, upload: UploadBatch, config: Configuration): Verification {
    if DryMode(config, upload) then NOTHING_VERIFIED else VerifyAll(t, upload.uploaded)
  }

  // ----- what verification reports -----

  function Ids(docs: seq<TransformedDocument>): (r: seq<string>)
    ensures |r| == |docs|
    ensures forall i :: 0 <= i < |docs| ==> r[i] == docs[i].sourceIdentifier
  {
    Map(Identifier, docs)
  }

  /** The metadata two documents must agree in, field by field. */
  predicate SameMetadata(a: TransformedDocument, b: TransformedDocument) {
    && a.sourceIdentifier == b.sourceIdentifier
    && a.archiveName == b.archiveName
    && a.mailboxAddress == b.mailboxAddress
    && a.subject == b.subject
    && a.filename == b.filename
    && a.contentType == b.contentType
    && a.sizeBytes == b.sizeBytes
    && a.sender == b.sender
    && a.recipients == b.recipients
    && a.ccRecipients == b.ccRecipients
    && a.bccRecipients == b.bccRecipients
    && a.retentionPolicy == b.retentionPolicy
    && a.department == b.department
    && a.tags == b.tags
    && a.properties == b.properties
    && a.attachmentFilenames == b.attachmentFilenames
    && a.attachmentChecksums == b.attachmentChecksums
    && a.attachmentSizes == b.attachmentSizes
    && a.createdAt == b.createdAt
    && a.modifiedAt == b.modifiedAt
  }

  /** The signatures the loop compares agree if and only if all this metadata does. */
  lemma SignatureMeaning(a: TransformedDocument, b: TransformedDocument)
    ensures Signature(a) == Signature(b) <==> SameMetadata(a, b)
  {
    if Signature(a) == Signature(b) {
      SignatureKeepsFields(a, b);
    }
  }

  lemma SignatureKeepsFields(a: TransformedDocument, b: TransformedDocument)
    requires Signature(a) == Signature(b)
    ensures SameMetadata(a, b)
  {
    var x, y := Signature(a), Signature(b);
    assert x.sourceIdentifier == a.sourceIdentifier && y.sourceIdentifier == b.sourceIdentifier;
  }

  predicate ChecksumMatches(t: Target, d: TransformedDocument) {
    var found := Retrieve(t, d.sourceIdentifier);
    found.Some? && found.value.checksum == d.checksum
  }

  predicate MetadataMatches(t: Target, d: TransformedDocument) {
    var found := Retrieve(t, d.sourceIdentifier);
    found.Some? && SameMetadata(found.value, d)
  }

  /** The target returns a document with this one's checksum and metadata. */
  function Verified(t: Target): TransformedDocument -> bool {
    (d: TransformedDocument) => ChecksumMatches(t, d) && MetadataMatches(t, d)
  }

  function Missing(t: Target): TransformedDocument -> bool {
    (d: TransformedDocument) => Retrieve(t, d.sourceIdentifier).None?
  }

  function WrongChecksum(t: Target): TransformedDocument -> bool {
    (d: TransformedDocument) => Retrieve(t, d.sourceIdentifier).Some? && !ChecksumMatches(t, d)
  }

  function WrongMetadata(t: Target): TransformedDocument -> bool {
    (d: TransformedDocument) => Retrieve(t, d.sourceIdentifier).Some? && !MetadataMatches(t, d)
  }

  lemma IdsConcat(a: seq<TransformedDocument>, b: seq<TransformedDocument>)
    ensures Ids(a + b) == Ids(a) + Ids(b)
  {
  }

  /** The identifiers a filter keeps, one document further. */
  lemma IdsOfFilterSnoc(p: TransformedDocument -> bool, docs: seq<TransformedDocument>)
    requires docs != []
    ensures var n := |docs| - 1;
            Ids(Filter(p, docs)) == Ids(Filter(p, docs[..n])) + if p(docs[n]) then [docs[n].sourceIdentifier] else []
  {
    var n := |docs| - 1;
    var last := if p(docs[n]) then [docs[n]] else [];
    TakeStep(docs, n);
    TakeAll(docs);
    FilterSnoc(p, docs[..n], docs[n]);
    IdsConcat(Filter(p, docs[..n]), last);
  }

  lemma VerifyOneMeaning(t: Target, v: Verification, d: TransformedDocument)
    ensures var v' := VerifyOne(v, d, Retrieve(t, d.sourceIdentifier));
            var one := [d.sourceIdentifier];
            && v'.verified == v.verified + (if Verified(t)(d) then one else [])
            && v'.failed == v.failed + (if Not(Verified(t))(d) then one else [])
            && v'.missing == v.missing + (if Missing(t)(d) then one else [])
            && v'.checksumMismatches == v.checksumMismatches + (if WrongChecksum(t)(d) then one else [])
            && v'.metadataMismatches == v.metadataMismatches + (if WrongMetadata(t)(d) then one else [])
  {
    var found := Retrieve(t, d.sourceIdentifier);
    if found.Some? {
      SignatureMeaning(found.value, d);
    }
  }

  /** The five lists are the documents' identifiers sorted by what the target
      returned: every document is either verified or failed, and failed ones are
      missing or differ in checksum or metadata. */
  lemma {:induction false} VerificationMeaning(t: Target, docs: seq<TransformedDocument>)
    ensures var v := VerifyAll(t, docs);
            && v.verified == Ids(Filter(Verified(t), docs))
            && v.failed == Ids(Filter(Not(Verified(t)), docs))
            && v.missing == Ids(Filter(Missing(t), docs))
            && v.checksumMismatches == Ids(Filter(WrongChecksum(t), docs))
            && v.metadataMismatches == Ids(Filter(WrongMetadata(t), docs))
            && |v.verified| + |v.failed| == |docs|
  {
    if docs != [] {
      var n := |docs| - 1;
      VerificationMeaning(t, docs[..n]);
      VerifyOneMeaning(t, VerifyAll(t, docs[..n]), docs[n]);
      IdsOfFilterSnoc(Verified(t), docs);
      IdsOfFilterSnoc(Not(Verified(t)), docs);
      IdsOfFilterSnoc(Missing(t), docs);
      IdsOfFilterSnoc(WrongChecksum(t), docs);
      IdsOfFilterSnoc(WrongMetadata(t), docs);
    }
  }

  lemma {:induction false} FilterAll<T>(p: T -> bool, s: seq<T>)
    ensures |Filter(p, s)| == |s| <==> forall i :: 0 <= i < |s| ==> p(s[i])
    ensures |Filter(p, s)| == |s| ==> Filter(p, s) == s
    ensures |Filter(p, s)| == 0 <==> forall i :: 0 <= i < |s| ==> !p(s[i])
  {
    if s != [] {
      var n := |s| - 1;
      FilterAll(p, s[..n]);
      assert forall i :: 0 <= i < n ==> s[..n][i] == s[i];
      assert s == s[..n] + [s[n]];
    }
  }

  lemma AcceptedReadsBack(t: Target, after: Target, d: TransformedDocument)
    requires Complete(t, after, d) && Accepts(t, d)
    ensures Retrieve(after, d.sourceIdentifier) == Some(d)
  {
    assert CellAt(after, d.sourceIdentifier) == Cell(Some(MapDocument(d)), Some(d));
  }

  lemma SuccessMeansAccepted(t: Target, d: TransformedDocument)
    ensures UploadResult(t, d).success <==> Accepts(t, d)
  {
  }

  lemma AcceptedIsVerified(t: Target, docs: seq<TransformedDocument>, d: TransformedDocument, m: Results)
    requires m == ResultsByKey(Unique(docs), UploadResults(t, Unique(docs)))
    requires d in Unique(docs) && Succeeded(m)(d)
    ensures Retrieve(FinalTarget(t, docs, false), d.sourceIdentifier) == Some(d)
  {
    var distinctDocs := Unique(docs);
    UniqueHasDistinctKeys(docs);
    var i :| 0 <= i < |distinctDocs| && distinctDocs[i] == d;
    ResultByKey(distinctDocs, UploadResults(t, distinctDocs), i);
    UploadResultsAreIndependent(t, distinctDocs, i);
    SuccessMeansAccepted(t, d);
    UploadAllCompletes(t, distinctDocs);
    AcceptedReadsBack(t, UploadAll(t, distinctDocs), d);
  }

  lemma ReadBackVerifies(t: Target, d: TransformedDocument)
    requires Retrieve(t, d.sourceIdentifier) == Some(d)
    ensures Verified(t)(d)
  {
  }

  lemma NothingFails(t: Target, docs: seq<TransformedDocument>)
    requires forall i :: 0 <= i < |docs| ==> Verified(t)(docs[i])
    ensures VerifyAll(t, docs).failed == []
  {
    VerificationMeaning(t, docs);
    FilterAll(Not(Verified(t)), docs);
  }

  /** Against this target an upload is always verified: whatever the upload step
      reports as uploaded reads back with the same checksum and signature. */
  lemma UploadedDocumentsVerify(t: Target, docs: seq<TransformedDocument>)
    ensures VerifyAll(FinalTarget(t, docs, false), CleanBatch(t, docs, false).uploaded).failed == []
  {
    UniqueHasDistinctKeys(docs);
    var after := FinalTarget(t, docs, false);
    var m := ResultsByKey(Unique(docs), UploadResults(t, Unique(docs)));
    EmissionMeaning(docs, m);
    var uploaded := Filter(Succeeded(m), Unique(docs));
    forall i | 0 <= i < |uploaded| ensures Verified(after)(uploaded[i]) {
      FilterMember(Succeeded(m), Unique(docs), uploaded[i]);
      AcceptedIsVerified(t, docs, uploaded[i], m);
      ReadBackVerifies(after, uploaded[i]);
    }
    NothingFails(after, uploaded);
  }

  // ----- the loop itself -----

  method RunVerification(target: TargetAdapter, upload: UploadBatch, config: Configuration) returns (v: Verification)
    ensures v == Verify(target.State(), upload, config)
  {
    v := NOTHING_VERIFIED;
    var dry := config.dryRun;
    for i := 0 to |upload.itemResults|
      invariant dry <==> config.dryRun || exists j :: 0 <= j < i && IsDry(upload.itemResults[j])
    {
      dry := dry || IsDry(upload.itemResults[i]);
    }
    if !dry {
      for i := 0 to |upload.uploaded|
        invariant v == VerifyAll(target.State(), upload.uploaded[..i])
      {
        TakeStep(upload.uploaded, i);
        var found := target.GetUploadedDocument(upload.uploaded[i].sourceIdentifier);
        v := VerifyOne(v, upload.uploaded[i], found);
      }
      TakeAll(upload.uploaded);
    }
  }
}
