/** Transformation: find each item's context, rehydrate it, and write a neutral document. */
module Transformations {
  import opened Prelude
  import opened Records
  import opened Extractions
  import opened Rehydration

  // ----- the archive and mailbox that hold an item -----

  datatype ItemContext = ItemContext(archive: Archive, mailbox: Option<Mailbox>)

  predicate HoldsId(items: seq<MailItem>, id: string) {
    exists i :: 0 <= i < |items| && items[i].messageId == id
  }

  function FindInArchive(archive: Archive, id: string): Option<ItemContext> {
    var mailbox := FirstIndex((m: Mailbox) => HoldsId(m.mailItems, id), archive.mailboxes);
    if mailbox.Some? then Some(ItemContext(archive, Some(archive.mailboxes[mailbox.value])))
    else
      var journal := FirstIndex((j: JournalArchive) => HoldsId(j.mailItems, id), archive.journalArchives);
      if journal.Some? then Some(ItemContext(archive, None)) else None
  }

  /** The first archive, in order, that holds an item with this identifier. */
  function FindContext(archives: seq<Archive>, id: string): Option<ItemContext> {
    if archives == [] then None
    else
      var n := |archives| - 1;
      var earlier := FindContext(archives[..n], id);
      if earlier.Some? then earlier else FindInArchive(archives[n], id)
  }

  // ----- one document -----

  /** The text after the first c, or nothing when c does not occur. */
  function After(s: string, c: char): string {
    if s == "" then "" else if s[0] == c then s[1..] else After(s[1..], c)
  }

  function UpTo(s: string, c: char): string {
    if s == "" || s[0] == c then "" else [s[0]] + UpTo(s[1..], c)
  }

  function DeriveDepartment(lib: Library, mailbox: Option<string>, archiveType: ArchiveType): string {
    match mailbox
    case None =>
      (match archiveType
       case JournalType => "Journal"
       case FileSystemArchive => "FileSystem"
       case _ => "Unknown")
    case Some(address) =>
      if '@' !in address then "Unknown" else lib.titleCase(UpTo(After(address, '@'), '.'))
  }

  function ArchiveTypeText(t: ArchiveType): string {
    match t
    case MailboxArchive => "mailbox"
    case JournalType => "journal"
    case FileSystemArchive => "fsa"
    case SharePointArchive => "sharepoint"
  }

  /** Python's "a or b" on an optional text: the empty text counts as absent. */
  function OrElse(a: Option<string>, b: Option<string>): Option<string> {
    if a.Some? && a.value != "" then a else b
  }

  function SumSizes(attachments: seq<Attachment>): int {
    if attachments == [] then 0
    else SumSizes(attachments[..|attachments| - 1]) + attachments[|attachments| - 1].sizeBytes
  }

  function TransformItem(lib: Library, context: ItemContext, item: MailItem): TransformedDocument {
    var archive := context.archive;
    var address := if context.mailbox.Some? then Some(context.mailbox.value.address) else None;
    var tag := OrElse(address, Some(ArchiveTypeText(archive.archiveType))).value;
    TransformedDocument(
      sourceIdentifier := item.messageId,
      archiveName := archive.name,
      mailboxAddress := address,
      subject := item.subject,
      filename := item.subject + ".eml",
      contentType := "message/rfc822",
      sizeBytes := item.messageSize + SumSizes(item.attachments),
      checksum := item.messageId,
      sender := item.sender,
      recipients := item.recipients,
      ccRecipients := item.ccRecipients,
      bccRecipients := item.bccRecipients,
      retentionPolicy := item.retentionPolicy,
      department := DeriveDepartment(lib, address, archive.archiveType),
      tags := [archive.name, tag, item.conversationId],
      properties := Properties(item.messageId, item.messageSize, |item.attachments|),
      attachmentFilenames := Map((a: Attachment) => a.filename, item.attachments),
      attachmentChecksums := Map((a: Attachment) => a.checksum, item.attachments),
      attachmentSizes := Map((a: Attachment) => a.sizeBytes, item.attachments),
      createdAt := item.sentAt,
      modifiedAt := item.modifiedAt,
      archiveType := archive.archiveType,
      itemType := item.itemType,
      folderPath := Some(item.folderPath),
      sourcePath := OrElse(item.sourcePath, archive.sourcePath),
      isOrphaned := archive.isOrphaned,
      originalOwner := archive.originalOwner,
      ownerStatus := archive.ownerStatus,
      legalHold := item.legalHold,
      legalHoldPolicy := item.legalHoldPolicy,
      journalMetadata := item.journalMetadata)
  }

  /** How an item becomes a document, once its context is known. */
  type Converter = (ItemContext, MailItem) -> TransformedDocument

  function ConverterOf(lib: Library): Converter {
    (context: ItemContext, item: MailItem) => TransformItem(lib, context, item)
  }

  ghost predicate CarriesIdentifiers(convert: Converter) {
    forall c, i :: convert(c, i).sourceIdentifier == i.messageId && convert(c, i).checksum == i.messageId
  }

  lemma ConverterCarriesIdentifiers(lib: Library)
    ensures CarriesIdentifiers(ConverterOf(lib))
  {
  }

  // ----- the batch -----

  const NOTHING_TRANSFORMED := Transformation.Transformation([], [], 0, 0, [])

  function AddFailure(t: Transformation, item: MailItem, error: RehydrationError): Transformation {
    t.(failedItems := t.failedItems + 1,
       failedIdentifiers := t.failedIdentifiers + [item.messageId],
       warnings := t.warnings + [RehydrationFailed(error)])
  }

  function AddDocument(t: Transformation, document: TransformedDocument): Transformation {
    t.(documents := t.documents + [document])
  }

  /** One turn of the loop. No result stands for the error raised when the item's
      context is missing. */
  function TransformOne(sha256: Digest, convert: Converter, archives: seq<Archive>,
                        service: Service, sofar: Transformation, item: MailItem)
    : (Service, Option<Transformation>)
  {
    var context := FindContext(archives, item.messageId);
    if context.None? then (service, None)
    else
      var (after, content) := Rehydrate(sha256, service, item);
      (after, Some(if content.Err? then AddFailure(sofar, item, content.error)
                   else AddDocument(sofar, convert(context.value, item))))
  }

  /** The transformation loop over a list of items. */
  function TransformAll(sha256: Digest, convert: Converter, archives: seq<Archive>, service: Service,
                        items: seq<MailItem>)
    : (Service, Option<Transformation>)
  {
    if items == [] then (service, Some(NOTHING_TRANSFORMED))
    else
      var n := |items| - 1;
      var (before, sofar) := TransformAll(sha256, convert, archives, service, items[..n]);
      if sofar.None? then (before, None)
      else TransformOne(sha256, convert, archives, before, sofar.value, items[n])
  }

  // ----- extraction feeds transformation totally -----

  lemma FirstIndexExists<T>(p: T -> bool, s: seq<T>, i: nat)
    requires i < |s| && p(s[i])
    ensures FirstIndex(p, s).Some?
  {
  }

  lemma {:induction false} MailboxItemsMember(mailboxes: seq<Mailbox>, item: MailItem)
    requires item in MailboxItems(mailboxes)
    ensures exists i :: 0 <= i < |mailboxes| && item in mailboxes[i].mailItems
  {
    var n := |mailboxes| - 1;
    if item in mailboxes[n].mailItems {
    } else {
      MailboxItemsMember(mailboxes[..n], item);
      var i :| 0 <= i < n && item in mailboxes[..n][i].mailItems;
      assert item in mailboxes[i].mailItems;
    }
  }

  lemma {:induction false} JournalItemsMember(journals: seq<JournalArchive>, item: MailItem)
    requires item in JournalItems(journals)
    ensures exists i :: 0 <= i < |journals| && item in journals[i].mailItems
  {
    var n := |journals| - 1;
    if item in journals[n].mailItems {
    } else {
      JournalItemsMember(journals[..n], item);
      var i :| 0 <= i < n && item in journals[..n][i].mailItems;
      assert item in journals[i].mailItems;
    }
  }

  lemma MemberHoldsId(items: seq<MailItem>, item: MailItem)
    requires item in items
    ensures HoldsId(items, item.messageId)
  {
    var i :| 0 <= i < |items| && items[i] == item;
    assert items[i].messageId == item.messageId;
  }

  lemma ItemFoundInItsArchive(archive: Archive, item: MailItem)
    requires item in ItemsOf(archive)
    ensures FindInArchive(archive, item.messageId).Some?
  {
    var id := item.messageId;
    if item in MailboxItems(archive.mailboxes) {
      MailboxItemsMember(archive.mailboxes, item);
      var i :| 0 <= i < |archive.mailboxes| && item in archive.mailboxes[i].mailItems;
      MemberHoldsId(archive.mailboxes[i].mailItems, item);
      FirstIndexExists((m: Mailbox) => HoldsId(m.mailItems, id), archive.mailboxes, i);
    } else {
      JournalItemsMember(archive.journalArchives, item);
      var i :| 0 <= i < |archive.journalArchives| && item in archive.journalArchives[i].mailItems;
      MemberHoldsId(archive.journalArchives[i].mailItems, item);
      FirstIndexExists((j: JournalArchive) => HoldsId(j.mailItems, id), archive.journalArchives, i);
    }
  }

  lemma {:induction false} ItemFoundAmongArchives(archives: seq<Archive>, names: seq<string>, item: MailItem)
    requires item in AllItems(Filter(Supported(names), archives))
    ensures FindContext(archives, item.messageId).Some?
  {
    var n := |archives| - 1;
    var init, last := archives[..n], archives[n];
    if item in AllItems(Filter(Supported(names), init)) {
      ItemFoundAmongArchives(init, names, item);
    } else {
      var kept := Filter(Supported(names), init);
      assert Filter(Supported(names), archives) == kept + [last];
      assert (kept + [last])[..|kept|] == kept;
      ItemFoundInItsArchive(last, item);
    }
  }

  /** Every extracted item has a context among the stores the transformation
      selects, which are the stores the extraction selected. */
  lemma ExtractedItemsHaveContext(stores: seq<VaultStore>, discovery: Discovery, config: Configuration, item: MailItem)
    requires item in Extract(stores, discovery, config).items
    ensures var selected := SelectStores(stores, discovery.storeNames);
            FindContext(ArchivesOf(SelectStores(selected, discovery.storeNames)), item.messageId).Some?
  {
    var archives := ArchivesOf(SelectStores(stores, discovery.storeNames));
    var names := NamesInScope(discovery, config);
    SelectionIsIdempotent(stores, discovery.storeNames);
    ExtractionIsAFilter(archives, names, config);
    FilterMember(Wanted(config), AllItems(Filter(Supported(names), archives)), item);
    ItemFoundAmongArchives(archives, names, item);
  }

  // ----- what the loop computes -----

  ghost predicate AllFound(archives: seq<Archive>, items: seq<MailItem>) {
    forall i :: 0 <= i < |items| ==> FindContext(archives, items[i].messageId).Some?
  }

  /** The documents of the accepted items, in item order. */
  function DocumentsOf(convert: Converter, archives: seq<Archive>, items: seq<MailItem>, outcomes: seq<Rebuilt>)
    : seq<TransformedDocument>
    requires |items| == |outcomes|
    requires forall i :: 0 <= i < |items| ==> FindContext(archives, items[i].messageId).Some?
  {
    if items == [] then []
    else
      var n := |items| - 1;
      DocumentsOf(convert, archives, items[..n], outcomes[..n])
      + if outcomes[n].Ok? then [convert(FindContext(archives, items[n].messageId).value, items[n])] else []
  }

  function FailedIdsOf(items: seq<MailItem>, outcomes: seq<Rebuilt>): seq<string>
    requires |items| == |outcomes|
  {
    if items == [] then []
    else
      var n := |items| - 1;
      FailedIdsOf(items[..n], outcomes[..n]) + if outcomes[n].Ok? then [] else [items[n].messageId]
  }

  function WarningsOf(outcomes: seq<Rebuilt>): (r: seq<Warning>)
    ensures forall i :: 0 <= i < |r| ==> r[i].RehydrationFailed?
  {
    if outcomes == [] then []
    else
      var n := |outcomes| - 1;
      WarningsOf(outcomes[..n]) + if outcomes[n].Ok? then [] else [RehydrationFailed(outcomes[n].error)]
  }

  function BatchOf(convert: Converter, archives: seq<Archive>, items: seq<MailItem>, outcomes: seq<Rebuilt>)
    : Transformation
    requires |items| == |outcomes|
    requires forall i :: 0 <= i < |items| ==> FindContext(archives, items[i].messageId).Some?
  {
    Transformation.Transformation(
      DocumentsOf(convert, archives, items, outcomes), FailedIdsOf(items, outcomes),
      |FailedIdsOf(items, outcomes)|, 0, WarningsOf(outcomes))
  }

  lemma BatchSnoc(convert: Converter, archives: seq<Archive>, items: seq<MailItem>, outcomes: seq<Rebuilt>)
    requires |items| == |outcomes| && AllFound(archives, items) && items != []
    ensures var n := |items| - 1;
            BatchOf(convert, archives, items, outcomes)
            == if outcomes[n].Err?
               then AddFailure(BatchOf(convert, archives, items[..n], outcomes[..n]), items[n], outcomes[n].error)
               else AddDocument(BatchOf(convert, archives, items[..n], outcomes[..n]),
                                convert(FindContext(archives, items[n].messageId).value, items[n]))
  {
    var n := |items| - 1;
    var before := BatchOf(convert, archives, items[..n], outcomes[..n]);
    assert before.documents + [] == before.documents;
    assert before.failedIdentifiers + [] == before.failedIdentifiers;
    assert before.warnings + [] == before.warnings;
  }

  /** When every item has a context the loop never raises: its result is decided,
      item by item and in order, by the rehydration outcomes. */
  lemma {:induction false} TransformationFollowsRehydration(
      sha256: Digest, convert: Converter, archives: seq<Archive>, service: Service, items: seq<MailItem>)
    requires AllFound(archives, items)
    ensures var (after, outcomes) := History(sha256, service, items);
            TransformAll(sha256, convert, archives, service, items)
                == (after, Some(BatchOf(convert, archives, items, outcomes)))
  {
    if items != [] {
      var n := |items| - 1;
      assert items == items[..n] + [items[n]];
      TransformationFollowsRehydration(sha256, convert, archives, service, items[..n]);
      var (before, earlier) := History(sha256, service, items[..n]);
      var (after, outcomes) := History(sha256, service, items);
      assert outcomes[..n] == earlier;
      BatchSnoc(convert, archives, items, outcomes);
    }
  }

  /** Nothing is lost between the stages: transformed plus failed is extracted. */
  lemma {:induction false} TransformedPlusFailed(
      convert: Converter, archives: seq<Archive>, items: seq<MailItem>, outcomes: seq<Rebuilt>)
    requires |items| == |outcomes| && AllFound(archives, items)
    ensures |DocumentsOf(convert, archives, items, outcomes)| + |FailedIdsOf(items, outcomes)| == |items|
    ensures |WarningsOf(outcomes)| == |FailedIdsOf(items, outcomes)|
  {
    if items != [] {
      var n := |items| - 1;
      TransformedPlusFailed(convert, archives, items[..n], outcomes[..n]);
      var before, after := BatchOf(convert, archives, items[..n], outcomes[..n]),
          BatchOf(convert, archives, items, outcomes);
      BatchSnoc(convert, archives, items, outcomes);
      assert |after.documents| + |after.failedIdentifiers| == |before.documents| + |before.failedIdentifiers| + 1;
    }
  }

  /** The same verdicts give the same documents and the same failures. */
  lemma {:induction false} SameVerdictsSameBatch(
      convert: Converter, archives: seq<Archive>, items: seq<MailItem>,
      a: seq<Rebuilt>, b: seq<Rebuilt>)
    requires |items| == |a| && SameVerdicts(a, b) && AllFound(archives, items)
    ensures DocumentsOf(convert, archives, items, a) == DocumentsOf(convert, archives, items, b)
    ensures FailedIdsOf(items, a) == FailedIdsOf(items, b)
    ensures |WarningsOf(a)| == |WarningsOf(b)|
  {
    if items != [] {
      var n := |items| - 1;
      SameVerdictsSameBatch(convert, archives, items[..n], a[..n], b[..n]);
    }
  }

  /** Every transformed document carries its item's identifier as identifier and checksum. */
  lemma {:induction false} DocumentsCarryIdentifiers(
      convert: Converter, archives: seq<Archive>, items: seq<MailItem>, outcomes: seq<Rebuilt>)
    requires CarriesIdentifiers(convert)
    requires |items| == |outcomes| && AllFound(archives, items)
    ensures forall d :: d in DocumentsOf(convert, archives, items, outcomes) ==> d.checksum == d.sourceIdentifier
    ensures forall i :: 0 <= i < |items| && outcomes[i].Ok? ==>
              exists d :: d in DocumentsOf(convert, archives, items, outcomes)
                  && d.sourceIdentifier == items[i].messageId
  {
    if items != [] {
      var n := |items| - 1;
      DocumentsCarryIdentifiers(convert, archives, items[..n], outcomes[..n]);
      var earlier := DocumentsOf(convert, archives, items[..n], outcomes[..n]);
      var all := DocumentsOf(convert, archives, items, outcomes);
      assert earlier <= all;
      forall i | 0 <= i < |items| && outcomes[i].Ok?
        ensures exists d :: d in all && d.sourceIdentifier == items[i].messageId
      {
        if i < n {
          assert items[..n][i] == items[i] && outcomes[..n][i] == outcomes[i];
          var d :| d in earlier && d.sourceIdentifier == items[i].messageId;
          assert d in all;
        } else {
          assert all[|all| - 1].sourceIdentifier == items[i].messageId;
        }
      }
    }
  }

  // ----- the loop itself -----

  method TransformItems(sha256: Digest, convert: Converter, archives: seq<Archive>, items: seq<MailItem>,
                        rehydrator: SisRehydrator)
    returns (result: Option<Transformation>)
    modifies rehydrator
    ensures (rehydrator.State(), result) == TransformAll(sha256, convert, archives, old(rehydrator.State()), items)
  {
    ghost var start := rehydrator.State();
    var sofar := NOTHING_TRANSFORMED;
    for i := 0 to |items|
      invariant TransformAll(sha256, convert, archives, start, items[..i]) == (rehydrator.State(), Some(sofar))
    {
      TakeStep(items, i);
      var context := FindContext(archives, items[i].messageId);
      if context.None? {
        StopsAtMissingContext(sha256, convert, archives, start, items, i + 1);
        return None;
      }
      var content := rehydrator.RehydrateItem(sha256, items[i]);
      sofar := if content.Err? then AddFailure(sofar, items[i], content.error)
               else AddDocument(sofar, convert(context.value, items[i]));
    }
    TakeAll(items);
    return Some(sofar);
  }

  /** The transformation step. A crash point makes the loop end, with no result,
      after that many items. */
  method RunTransformation(sha256: Digest, convert: Converter, stores: seq<VaultStore>, items: seq<MailItem>,
                           rehydrator: SisRehydrator, crashAfter: Option<nat>)
    returns (result: Option<Transformation>)
    modifies rehydrator
    ensures crashAfter.None? ==>
              (rehydrator.State(), result)
                  == TransformAll(sha256, convert, ArchivesOf(stores), old(rehydrator.State()), items)
    ensures crashAfter.Some? ==>
              && result == None
              && rehydrator.State() == TransformAll(sha256, convert, ArchivesOf(stores), old(rehydrator.State()),
                                                    Before(items, crashAfter.value)).0
  {
    if crashAfter.Some? {
      var _ := TransformItems(sha256, convert, ArchivesOf(stores), Before(items, crashAfter.value), rehydrator);
      return None;
    }
    result := TransformItems(sha256, convert, ArchivesOf(stores), items, rehydrator);
  }

  lemma {:induction false} StopsAtMissingContext(
      sha256: Digest, convert: Converter, archives: seq<Archive>, service: Service, items: seq<MailItem>, n: nat)
    requires n <= |items| && TransformAll(sha256, convert, archives, service, items[..n]).1.None?
    ensures TransformAll(sha256, convert, archives, service, items)
            == TransformAll(sha256, convert, archives, service, items[..n])
  {
    if n == |items| {
      TakeAll(items);
    } else {
      var init := items[..|items| - 1];
      assert init[..n] == items[..n];
      StopsAtMissingContext(sha256, convert, archives, service, init, n);
    }
  }
}
