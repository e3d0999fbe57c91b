/** What a document says of its item, from the transformation to the target a job leaves. */
module DocumentContents {
  import opened Prelude
  import opened Records
  import opened Extractions
  import opened Rehydration
  import opened Transformations
  import opened Targets
  import opened Uploads
  import opened Verifications
  import opened StepBodies
  import opened Runner
  import opened MigrationStages
  import opened MigrationJobs

  // ----- the archive and mailbox an item is found in -----

  predicate Contains(items: seq<MailItem>, id: string) {
    exists item :: item in items && item.messageId == id
  }

  predicate MailboxHolds(mailbox: Mailbox, id: string) {
    Contains(mailbox.mailItems, id)
  }

  predicate ArchiveHolds(archive: Archive, id: string) {
    || (exists mailbox :: mailbox in archive.mailboxes && MailboxHolds(mailbox, id))
    || (exists journal :: journal in archive.journalArchives && Contains(journal.mailItems, id))
  }

  /** The archive holds the identifier: the first mailbox that does, or no mailbox but a journal. */
  ghost predicate HoldsIn(archive: Archive, id: string, mailbox: Option<Mailbox>) {
    match mailbox
    case Some(first) =>
      exists i :: && 0 <= i < |archive.mailboxes| && archive.mailboxes[i] == first && MailboxHolds(first, id)
                  && forall j :: 0 <= j < i ==> !MailboxHolds(archive.mailboxes[j], id)
    case None =>
      && (forall other :: other in archive.mailboxes ==> !MailboxHolds(other, id))
      && ArchiveHolds(archive, id)
  }

  /** The first archive that holds the identifier, and where it does. */
  ghost predicate IsFirstHolder(archives: seq<Archive>, id: string, context: ItemContext) {
    exists k :: && 0 <= k < |archives| && archives[k] == context.archive
                && (forall j :: 0 <= j < k ==> !ArchiveHolds(archives[j], id))
                && HoldsIn(archives[k], id, context.mailbox)
  }

  lemma HoldsIdMeaning(items: seq<MailItem>, id: string)
    ensures HoldsId(items, id) <==> Contains(items, id)
  {
    if HoldsId(items, id) {
      var i :| 0 <= i < |items| && items[i].messageId == id;
      assert items[i] in items;
    }
  }

  lemma FoundInMailbox(archive: Archive, id: string, i: nat)
    requires FirstIndex((m: Mailbox) => HoldsId(m.mailItems, id), archive.mailboxes) == Some(i)
    ensures HoldsIn(archive, id, Some(archive.mailboxes[i])) && ArchiveHolds(archive, id)
  {
    HoldsIdMeaning(archive.mailboxes[i].mailItems, id);
    forall j | 0 <= j < i ensures !MailboxHolds(archive.mailboxes[j], id) {
      HoldsIdMeaning(archive.mailboxes[j].mailItems, id);
    }
    assert archive.mailboxes[i] in archive.mailboxes;
  }

  lemma NoMailboxHolds(archive: Archive, id: string)
    requires FirstIndex((m: Mailbox) => HoldsId(m.mailItems, id), archive.mailboxes).None?
    ensures forall other :: other in archive.mailboxes ==> !MailboxHolds(other, id)
  {
    forall other | other in archive.mailboxes ensures !MailboxHolds(other, id) {
      var i :| 0 <= i < |archive.mailboxes| && archive.mailboxes[i] == other;
      HoldsIdMeaning(other.mailItems, id);
    }
  }

  lemma JournalHolds(archive: Archive, id: string)
    ensures FirstIndex((j: JournalArchive) => HoldsId(j.mailItems, id), archive.journalArchives).Some?
       <==> exists journal :: journal in archive.journalArchives && Contains(journal.mailItems, id)
  {
    var p := (j: JournalArchive) => HoldsId(j.mailItems, id);
    var found := FirstIndex(p, archive.journalArchives);
    if found.Some? {
      HoldsIdMeaning(archive.journalArchives[found.value].mailItems, id);
      assert archive.journalArchives[found.value] in archive.journalArchives;
    }
    if journal :| journal in archive.journalArchives && Contains(journal.mailItems, id) {
      var i :| 0 <= i < |archive.journalArchives| && archive.journalArchives[i] == journal;
      HoldsIdMeaning(journal.mailItems, id);
      assert p(archive.journalArchives[i]);
    }
  }

  lemma FoundInArchive(archive: Archive, id: string)
    ensures FindInArchive(archive, id).Some? <==> ArchiveHolds(archive, id)
    ensures var found := FindInArchive(archive, id);
            found.Some? ==> found.value.archive == archive && HoldsIn(archive, id, found.value.mailbox)
  {
    var mailbox := FirstIndex((m: Mailbox) => HoldsId(m.mailItems, id), archive.mailboxes);
    if mailbox.Some? {
      FoundInMailbox(archive, id, mailbox.value);
    } else {
      NoMailboxHolds(archive, id);
      JournalHolds(archive, id);
    }
  }

  lemma FirstHolderStays(archives: seq<Archive>, id: string, context: ItemContext)
    requires archives != [] && IsFirstHolder(archives[..|archives| - 1], id, context)
    ensures IsFirstHolder(archives, id, context)
  {
    var init := archives[..|archives| - 1];
    var k :| && 0 <= k < |init| && init[k] == context.archive
             && (forall j :: 0 <= j < k ==> !ArchiveHolds(init[j], id)) && HoldsIn(init[k], id, context.mailbox);
    forall j | 0 <= j < k ensures !ArchiveHolds(archives[j], id) {
      assert archives[j] == init[j];
    }
    assert archives[k] == init[k];
  }

  /** An item's context is the first archive, in order, that holds its identifier, with the first
      mailbox in it that does. It is missing only if no archive holds the identifier. */
  lemma {:induction false} ContextIsFirstHolder(archives: seq<Archive>, id: string)
    ensures var found := FindContext(archives, id);
            && (found.Some? ==> IsFirstHolder(archives, id, found.value))
            && (found.None? ==> forall j :: 0 <= j < |archives| ==> !ArchiveHolds(archives[j], id))
  {
    if archives != [] {
      var n := |archives| - 1;
      var init := archives[..n];
      ContextIsFirstHolder(init, id);
      FoundInArchive(archives[n], id);
      if FindContext(init, id).Some? {
        FirstHolderStays(archives, id, FindContext(init, id).value);
      } else {
        assert forall j :: 0 <= j < n ==> archives[j] == init[j];
      }
    }
  }

  // ----- the department -----

  lemma {:induction false} AfterFirst(a: string, c: char, rest: string)
    requires c !in a
    ensures After(a + [c] + rest, c) == rest
  {
    var s := a + [c] + rest;
    if a == "" {
      assert s[1..] == rest;
    } else {
      AfterFirst(a[1..], c, rest);
      assert s[1..] == a[1..] + [c] + rest;
    }
  }

  lemma {:induction false} UpToFirst(b: string, c: char, rest: string)
    requires c !in b && (rest == "" || rest[0] == c)
    ensures UpTo(b + rest, c) == b
  {
    if b == "" {
      assert b + rest == rest;
    } else {
      UpToFirst(b[1..], c, rest);
      assert (b + rest)[1..] == b[1..] + rest;
      assert b == [b[0]] + b[1..];
    }
  }

  /** In the address a@b.c, and in a@b, the department is b in title case. */
  lemma DepartmentIsFirstDomainLabel(lib: Library, a: string, b: string, rest: string, archiveType: ArchiveType)
    requires '@' !in a && '.' !in b && (rest == "" || rest[0] == '.')
    ensures DeriveDepartment(lib, Some(a + ['@'] + (b + rest)), archiveType) == lib.titleCase(b)
  {
    AfterFirst(a, '@', b + rest);
    UpToFirst(b, '.', rest);
    assert (a + ['@'] + (b + rest))[|a|] == '@';
  }

  /** Without a mailbox it tells the kind of archive, and without an @ it is unknown. */
  lemma DepartmentWithoutDomain(lib: Library, address: string)
    requires '@' !in address
    ensures DeriveDepartment(lib, None, JournalType) == "Journal"
    ensures DeriveDepartment(lib, None, FileSystemArchive) == "FileSystem"
    ensures DeriveDepartment(lib, None, MailboxArchive) == "Unknown"
    ensures DeriveDepartment(lib, None, SharePointArchive) == "Unknown"
    ensures forall t :: DeriveDepartment(lib, Some(address), t) == "Unknown"
  {
  }

  // ----- the size -----

  /** The attachments' sizes are added up. */
  lemma {:induction false} SizesAddUp(a: seq<Attachment>, b: seq<Attachment>)
    ensures SumSizes(a + b) == SumSizes(a) + SumSizes(b)
    ensures |a| == 1 ==> SumSizes(a) == a[0].sizeBytes
  {
    if |a| == 1 {
      assert a[..0] == [];
    }
    if b == [] {
      assert a + b == a;
    } else {
      var init := b[..|b| - 1];
      assert (a + b)[..|a + b| - 1] == a + init;
      SizesAddUp(a, init);
    }
  }

  // ----- one document -----

  /** What the document says of the item itself. */
  ghost predicate ShowsItem(item: MailItem, d: TransformedDocument) {
    && d.sourceIdentifier == item.messageId && d.checksum == item.messageId
    && d.subject == item.subject && d.filename == item.subject + ".eml"
    && d.contentType == "message/rfc822"
    && d.sizeBytes == item.messageSize + SumSizes(item.attachments)
    && d.sender == item.sender
    && d.recipients == item.recipients
    && d.ccRecipients == item.ccRecipients
    && d.bccRecipients == item.bccRecipients
    && d.retentionPolicy == item.retentionPolicy
    && d.createdAt == item.sentAt
    && d.modifiedAt == item.modifiedAt
    && d.properties == Properties(item.messageId, item.messageSize, |item.attachments|)
    && ShowsAttachments(item.attachments, d)
  }

  ghost predicate ShowsAttachments(attachments: seq<Attachment>, d: TransformedDocument) {
    && |d.attachmentFilenames| == |attachments|
    && |d.attachmentChecksums| == |attachments|
    && |d.attachmentSizes| == |attachments|
    && (forall i :: 0 <= i < |attachments| ==> d.attachmentFilenames[i] == attachments[i].filename)
    && (forall i :: 0 <= i < |attachments| ==> d.attachmentChecksums[i] == attachments[i].checksum)
    && (forall i :: 0 <= i < |attachments| ==> d.attachmentSizes[i] == attachments[i].sizeBytes)
  }

  function AddressOf(context: ItemContext): Option<string> {
    if context.mailbox.Some? then Some(context.mailbox.value.address) else None
  }

  /** What it says of the archive and the mailbox the item was found in. */
  ghost predicate ShowsHolder(lib: Library, context: ItemContext, item: MailItem, d: TransformedDocument) {
    && d.archiveName == context.archive.name
    && d.mailboxAddress == AddressOf(context)
    && d.department == DeriveDepartment(lib, AddressOf(context), context.archive.archiveType)
    && |d.tags| == 3 && d.tags[0] == context.archive.name && d.tags[2] == item.conversationId
    && d.tags[1] == (if context.mailbox.Some? && context.mailbox.value.address != "" then context.mailbox.value.address
                     else ArchiveTypeText(context.archive.archiveType))
  }

  /** What the verification does not compare: kinds, paths, owner, legal hold and journal data. */
  ghost predicate ShowsHold(context: ItemContext, item: MailItem, d: TransformedDocument) {
    && d.archiveType == context.archive.archiveType
    && d.itemType == item.itemType
    && d.folderPath == Some(item.folderPath)
    && d.sourcePath == (if item.sourcePath.Some? && item.sourcePath.value != "" then item.sourcePath
                        else context.archive.sourcePath)
    && d.isOrphaned == context.archive.isOrphaned
    && d.originalOwner == context.archive.originalOwner
    && d.ownerStatus == context.archive.ownerStatus
    && d.legalHold == item.legalHold
    && d.legalHoldPolicy == item.legalHoldPolicy
    && d.journalMetadata == item.journalMetadata
  }

  /** The document's metadata are those of the item, as found in its first holder. */
  ghost predicate Describes(lib: Library, archives: seq<Archive>, item: MailItem, d: TransformedDocument) {
    exists context :: IsFirstHolder(archives, item.messageId, context)
                      && ShowsItem(item, d) && ShowsHolder(lib, context, item, d)
  }

  /** So is everything else in it. */
  ghost predicate Carries(lib: Library, archives: seq<Archive>, item: MailItem, d: TransformedDocument) {
    exists context :: IsFirstHolder(archives, item.messageId, context)
                      && ShowsItem(item, d) && ShowsHolder(lib, context, item, d) && ShowsHold(context, item, d)
  }

  // ----- its stored form -----

  ghost predicate StoredShows(lib: Library, context: ItemContext, item: MailItem, doc: Document) {
    && doc.id == item.messageId && doc.checksum == item.messageId
    && doc.filename == item.subject + ".eml" && doc.contentType == "message/rfc822"
    && doc.size == item.messageSize + SumSizes(item.attachments)
    && doc.author == item.sender
    && doc.department == DeriveDepartment(lib, AddressOf(context), context.archive.archiveType)
    && doc.retentionPolicy == item.retentionPolicy
    && |doc.tags| == 3 && doc.tags[0] == context.archive.name && doc.tags[2] == item.conversationId
    && doc.createdAt == item.sentAt && doc.modifiedAt == item.modifiedAt
    && doc.properties.base == Properties(item.messageId, item.messageSize, |item.attachments|)
    && StoredPropertiesShow(context, item, doc.properties)
  }

  /** The optional properties say only what is not the usual case. */
  ghost predicate StoredPropertiesShow(context: ItemContext, item: MailItem, p: StoredProperties) {
    && (context.archive.archiveType == MailboxArchive <==> p.archiveType.None?)
    && (p.archiveType.Some? ==> p.archiveType == Some(context.archive.archiveType))
    && (item.itemType == Email <==> p.itemType.None?)
    && (p.itemType.Some? ==> p.itemType == Some(item.itemType))
    && (p.withoutMailbox <==> context.mailbox.None?)
    && p.folderPath == Some(item.folderPath)
    && p.sourcePath == (if item.sourcePath.Some? && item.sourcePath.value != "" then item.sourcePath
                        else context.archive.sourcePath)
    && p.orphaned == context.archive.isOrphaned
    && p.originalOwner == context.archive.originalOwner
    && (context.archive.ownerStatus == "resolved" <==> p.ownerStatus.None?)
    && (p.ownerStatus.Some? ==> p.ownerStatus == Some(context.archive.ownerStatus))
    && p.legalHold == item.legalHold
    && p.legalHoldPolicy == item.legalHoldPolicy
    && p.journalMetadata == JournalText(item.journalMetadata)
  }

  lemma StoredFormShows(lib: Library, context: ItemContext, item: MailItem, d: TransformedDocument)
    requires ShowsItem(item, d) && ShowsHolder(lib, context, item, d) && ShowsHold(context, item, d)
    ensures StoredShows(lib, context, item, MapDocument(d))
  {
    StoredPropertiesFollow(context, item, d);
  }

  lemma StoredPropertiesFollow(context: ItemContext, item: MailItem, d: TransformedDocument)
    requires ShowsHold(context, item, d) && d.mailboxAddress == AddressOf(context)
    ensures StoredPropertiesShow(context, item, MapDocument(d).properties)
  {
  }

  lemma TransformedShowsItem(lib: Library, context: ItemContext, item: MailItem)
    ensures ShowsItem(item, TransformItem(lib, context, item))
  {
  }

  lemma TransformedShowsHolder(lib: Library, context: ItemContext, item: MailItem)
    ensures ShowsHolder(lib, context, item, TransformItem(lib, context, item))
    ensures ShowsHold(context, item, TransformItem(lib, context, item))
  {
  }

  lemma TransformedCarries(lib: Library, archives: seq<Archive>, item: MailItem)
    requires FindContext(archives, item.messageId).Some?
    ensures Carries(lib, archives, item, ConverterOf(lib)(FindContext(archives, item.messageId).value, item))
  {
    var context := FindContext(archives, item.messageId).value;
    ContextIsFirstHolder(archives, item.messageId);
    TransformedShowsItem(lib, context, item);
    TransformedShowsHolder(lib, context, item);
  }

  /** The kind of archive as the tags spell it. */
  lemma KindsAreSpelled()
    ensures ArchiveTypeText(MailboxArchive) == "mailbox" && ArchiveTypeText(JournalType) == "journal"
    ensures ArchiveTypeText(FileSystemArchive) == "fsa" && ArchiveTypeText(SharePointArchive) == "sharepoint"
  {
  }

  // ----- the documents of a batch -----

  /** Rehydration accepted the item at this position. */
  predicate AcceptedAt(outcomes: seq<Rebuilt>, i: nat) {
    i < |outcomes| && outcomes[i].Ok?
  }

  /** The document made of an item that is found. */
  function DocumentOf(convert: Converter, archives: seq<Archive>, item: MailItem): TransformedDocument
    requires FindContext(archives, item.messageId).Some?
  {
    convert(FindContext(archives, item.messageId).value, item)
  }

  lemma {:induction false} DocumentsComeFromItems(convert: Converter, archives: seq<Archive>, items: seq<MailItem>,
                                                  outcomes: seq<Rebuilt>, d: TransformedDocument)
    returns (i: nat)
    requires |items| == |outcomes| && AllFound(archives, items)
    requires d in DocumentsOf(convert, archives, items, outcomes)
    ensures i < |items| && AcceptedAt(outcomes, i) && d == DocumentOf(convert, archives, items[i])
  {
    var n := |items| - 1;
    if d in DocumentsOf(convert, archives, items[..n], outcomes[..n]) {
      i := DocumentsComeFromItems(convert, archives, items[..n], outcomes[..n], d);
    } else {
      i := n;
    }
  }

  lemma {:induction false} ItemsGiveDocuments(convert: Converter, archives: seq<Archive>, items: seq<MailItem>,
                                              outcomes: seq<Rebuilt>, i: nat)
    requires |items| == |outcomes| && AllFound(archives, items) && i < |items| && AcceptedAt(outcomes, i)
    ensures DocumentOf(convert, archives, items[i]) in DocumentsOf(convert, archives, items, outcomes)
  {
    var n := |items| - 1;
    if i < n {
      ItemsGiveDocuments(convert, archives, items[..n], outcomes[..n], i);
    }
  }

  /** No accepted item before this one has its identifier. */
  ghost predicate FirstAccepted(items: seq<MailItem>, outcomes: seq<Rebuilt>, i: nat)
    requires |items| == |outcomes| && i < |items|
  {
    && AcceptedAt(outcomes, i)
    && forall j :: 0 <= j < i && AcceptedAt(outcomes, j) ==> items[j].messageId != items[i].messageId
  }

  lemma FreshAmongDocuments(convert: Converter, archives: seq<Archive>, items: seq<MailItem>, outcomes: seq<Rebuilt>)
    requires |items| == |outcomes| && AllFound(archives, items) && CarriesIdentifiers(convert) && items != []
    requires FirstAccepted(items, outcomes, |items| - 1)
    ensures var n := |items| - 1;
            items[n].messageId !in Keys(DocumentsOf(convert, archives, items[..n], outcomes[..n]))
  {
    var n := |items| - 1;
    var earlier := DocumentsOf(convert, archives, items[..n], outcomes[..n]);
    if items[n].messageId in Keys(earlier) {
      var d :| d in earlier && d.sourceIdentifier == items[n].messageId;
      var j := DocumentsComeFromItems(convert, archives, items[..n], outcomes[..n], d);
    }
  }

  /** The document of the first accepted item of an identifier is the one that is kept. */
  lemma {:induction false} FirstAcceptedIsKept(convert: Converter, archives: seq<Archive>, items: seq<MailItem>,
                                               outcomes: seq<Rebuilt>, i: nat)
    requires |items| == |outcomes| && AllFound(archives, items) && CarriesIdentifiers(convert)
    requires i < |items| && FirstAccepted(items, outcomes, i)
    ensures DocumentOf(convert, archives, items[i]) in Unique(DocumentsOf(convert, archives, items, outcomes))
  {
    var n := |items| - 1;
    var earlier := DocumentsOf(convert, archives, items[..n], outcomes[..n]);
    if i < n {
      assert FirstAccepted(items[..n], outcomes[..n], i) by {
        assert forall j :: 0 <= j < n ==> items[..n][j] == items[j] && outcomes[..n][j] == outcomes[j];
      }
      FirstAcceptedIsKept(convert, archives, items[..n], outcomes[..n], i);
      if outcomes[n].Ok? {
        KeptAmongMore(earlier, DocumentOf(convert, archives, items[n]), DocumentOf(convert, archives, items[i]));
      } else {
        assert earlier + [] == earlier;
      }
    } else {
      FreshAmongDocuments(convert, archives, items, outcomes);
      FreshIsKept(earlier, DocumentOf(convert, archives, items[n]));
    }
  }

  lemma KeptAmongMore(docs: seq<TransformedDocument>, last: TransformedDocument, d: TransformedDocument)
    requires d in Unique(docs)
    ensures d in Unique(docs + [last])
  {
    assert (docs + [last])[..|docs|] == docs;
  }

  lemma FreshIsKept(docs: seq<TransformedDocument>, last: TransformedDocument)
    requires last.sourceIdentifier !in Keys(docs)
    ensures last in Unique(docs + [last])
  {
    assert (docs + [last])[..|docs|] == docs;
  }

  /** Every document of a batch carries an accepted item, and every accepted item has its document. */
  lemma DocumentsCarryItems(lib: Library, archives: seq<Archive>, items: seq<MailItem>, outcomes: seq<Rebuilt>)
    requires |items| == |outcomes| && AllFound(archives, items)
    ensures var docs := DocumentsOf(ConverterOf(lib), archives, items, outcomes);
            && (forall d :: d in docs ==>
                  exists i: nat :: AcceptedAt(outcomes, i) && Carries(lib, archives, items[i], d))
            && (forall i :: 0 <= i < |items| && AcceptedAt(outcomes, i) ==>
                  exists d :: d in docs && Carries(lib, archives, items[i], d))
  {
    var convert := ConverterOf(lib);
    var docs := DocumentsOf(convert, archives, items, outcomes);
    forall d | d in docs ensures exists i: nat :: AcceptedAt(outcomes, i) && Carries(lib, archives, items[i], d) {
      var i := DocumentsComeFromItems(convert, archives, items, outcomes, d);
      TransformedCarries(lib, archives, items[i]);
    }
    forall i | 0 <= i < |items| && AcceptedAt(outcomes, i)
      ensures exists d :: d in docs && Carries(lib, archives, items[i], d)
    {
      ItemsGiveDocuments(convert, archives, items, outcomes, i);
      TransformedCarries(lib, archives, items[i]);
    }
  }

  // ----- the target of a finished job -----

  /** How rehydration judges the extracted items, in order, from an empty cache. */
  function Verdicts(plan: Plan, e: Expected): (r: seq<Rebuilt>)
    ensures |r| == |e.extraction.items|
  {
    History(plan.sha256, EMPTY_SERVICE, e.extraction.items).1
  }

  /** The target would store the document: its key is not refused, and free or taken by the same stored form. */
  ghost predicate Stores(t: Target, d: TransformedDocument) {
    && d.sourceIdentifier !in t.refusals
    && (d.sourceIdentifier in t.documents ==> t.documents[d.sourceIdentifier] == MapDocument(d))
  }

  /** The target returns, under the item's identifier, a document that carries it. */
  ghost predicate ReadsBack(lib: Library, archives: seq<Archive>, t: Target, item: MailItem) {
    var found := Retrieve(t, item.messageId);
    found.Some? && Carries(lib, archives, item, found.value)
  }

  /** Under the item's identifier the target stores a form that says the same of the item. */
  ghost predicate StoresFormOf(lib: Library, archives: seq<Archive>, t: Target, item: MailItem) {
    && item.messageId in t.documents
    && exists context :: IsFirstHolder(archives, item.messageId, context)
                         && StoredShows(lib, context, item, t.documents[item.messageId])
  }

  lemma FormCarries(lib: Library, archives: seq<Archive>, t: Target, item: MailItem, d: TransformedDocument)
    requires Carries(lib, archives, item, d) && item.messageId in t.documents
    requires t.documents[item.messageId] == MapDocument(d)
    ensures StoresFormOf(lib, archives, t, item)
  {
    var context :| IsFirstHolder(archives, item.messageId, context)
                   && ShowsItem(item, d) && ShowsHolder(lib, context, item, d) && ShowsHold(context, item, d);
    StoredFormShows(lib, context, item, d);
  }

  lemma KeptReadsBack(start: Target, docs: seq<TransformedDocument>, d: TransformedDocument)
    requires d in Unique(docs) && Stores(start, d)
    ensures var after := FinalTarget(start, docs, false);
            && Retrieve(after, d.sourceIdentifier) == Some(d)
            && d.sourceIdentifier in after.documents && after.documents[d.sourceIdentifier] == MapDocument(d)
  {
    var distinctDocs := Unique(docs);
    UniqueHasDistinctKeys(docs);
    UploadAllCompletes(start, distinctDocs);
    assert Complete(start, UploadAll(start, distinctDocs), d);
    AcceptedReadsBack(start, UploadAll(start, distinctDocs), d);
  }

  /** The document made of an extracted item that rehydration accepts. */
  function ExpectedDocument(plan: Plan, e: Expected, i: nat): TransformedDocument
    requires Expects(plan, e) && i < |e.extraction.items|
  {
    ExpectedTransformation(plan, e);
    DocumentOf(plan.convert, ArchivesOf(e.stores), e.extraction.items[i])
  }

  lemma ExpectedTargetReadsBack(plan: Plan, e: Expected, lib: Library, i: nat)
    requires Expects(plan, e) && plan.convert == ConverterOf(lib) && !e.config.dryRun
    requires i < |e.extraction.items| && FirstAccepted(e.extraction.items, Verdicts(plan, e), i)
    requires Stores(e.start, ExpectedDocument(plan, e, i))
    ensures ReadsBack(lib, ArchivesOf(e.stores), e.target, e.extraction.items[i])
    ensures StoresFormOf(lib, ArchivesOf(e.stores), e.target, e.extraction.items[i])
  {
    var archives, items := ArchivesOf(e.stores), e.extraction.items;
    ExpectedTransformation(plan, e);
    ConverterCarriesIdentifiers(lib);
    FirstAcceptedIsKept(plan.convert, archives, items, Verdicts(plan, e), i);
    KeptReadsBack(e.start, e.transformation.documents, ExpectedDocument(plan, e, i));
    TransformedCarries(lib, archives, items[i]);
    FormCarries(lib, archives, e.target, items[i], ExpectedDocument(plan, e, i));
  }

  /** From any target, after any chain of failures and resumes, a job that writes and finishes
      leaves in the target, for the first accepted item of each identifier whose document the
      target could store, a document that carries the item, and a stored form that does. */
  lemma FinishedJobStoresItems(plan: Plan, env: Env, e: Expected, lib: Library, launches: seq<Launch>, s: RunnerState,
                               i: nat)
    requires MigrationJob(plan, env, e) && BeforeJob(env, e, s) && launches != []
    requires plan.convert == ConverterOf(lib) && !e.config.dryRun
    requires i < |e.extraction.items| && FirstAccepted(e.extraction.items, Verdicts(plan, e), i)
    requires Stores(e.start, ExpectedDocument(plan, e, i))
    ensures var (after, end) := RunJob(env, launches, s);
            end.Finished? ==>
              && ReadsBack(lib, ArchivesOf(e.stores), after.world.target, e.extraction.items[i])
              && StoresFormOf(lib, ArchivesOf(e.stores), after.world.target, e.extraction.items[i])
  {
    JobFinishesAs(plan, env, e, None, launches, s);
    ExpectedTargetReadsBack(plan, e, lib, i);
  }

  /** The target returns, under the item's identifier, a document whose metadata are the item's. */
  ghost predicate ReadsBackAlike(lib: Library, archives: seq<Archive>, t: Target, item: MailItem) {
    var found := Retrieve(t, item.messageId);
    found.Some? && Describes(lib, archives, item, found.value)
  }

  lemma HeldDescribes(lib: Library, archives: seq<Archive>, item: MailItem, held: TransformedDocument,
                      d: TransformedDocument)
    requires Carries(lib, archives, item, d) && SameMetadata(held, d) && held.checksum == d.checksum
    ensures Describes(lib, archives, item, held)
  {
    var context :| IsFirstHolder(archives, item.messageId, context)
                   && ShowsItem(item, d) && ShowsHolder(lib, context, item, d) && ShowsHold(context, item, d);
    assert ShowsItem(item, held) && ShowsHolder(lib, context, item, held);
  }

  lemma SoundlyCompletedReadsBack(plan: Plan, e: Expected, lib: Library, t: Target, i: nat)
    requires Expects(plan, e) && plan.convert == ConverterOf(lib) && SoundlyCompleted(e, t)
    requires i < |e.extraction.items|
    ensures ReadsBackAlike(lib, ArchivesOf(e.stores), t, e.extraction.items[i])
  {
    var archives, items := ArchivesOf(e.stores), e.extraction.items;
    ExpectedTransformation(plan, e);
    TransformationAccounts(plan, e);
    NoFailureMeansAllAccepted(items, Verdicts(plan, e), i);
    ItemsGiveDocuments(plan.convert, archives, items, Verdicts(plan, e), i);
    var d := ExpectedDocument(plan, e, i);
    TransformedCarries(lib, archives, items[i]);
    assert HeldBy(t, d) && d.sourceIdentifier == items[i].messageId;
    HeldDescribes(lib, archives, items[i], Retrieve(t, items[i].messageId).value, d);
  }

  /** From any target and after any chain, "completed" means for every single extracted item that
      the target returns, under its identifier, a document with the item's own sender, recipients,
      subject, dates, retention policy, size and attachments, and with the names of the archive
      and the mailbox that hold it first. */
  lemma CompletedJobHoldsEveryItem(plan: Plan, env: Env, e: Expected, lib: Library, launches: seq<Launch>,
                                   s: RunnerState, i: nat)
    requires MigrationJob(plan, env, e) && BeforeJob(env, e, s) && launches != []
    requires plan.convert == ConverterOf(lib) && i < |e.extraction.items|
    ensures var (after, end) := RunJob(env, launches, s);
            end.Finished? && ReportedCompleted(after) ==>
              ReadsBackAlike(lib, ArchivesOf(e.stores), after.world.target, e.extraction.items[i])
  {
    ConverterCarriesIdentifiers(lib);
    CompletedJobIsSound(plan, env, e, launches, s);
    var (after, end) := RunJob(env, launches, s);
    if end.Finished? && ReportedCompleted(after) {
      SoundlyCompletedReadsBack(plan, e, lib, after.world.target, i);
    }
  }
}
