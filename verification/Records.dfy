/** The entities that travel through the pipeline. Timestamps are integers. */
module Records {
  import opened Prelude

  newtype Byte = b: int | 0 <= b < 256
  type Bytes = seq<Byte>

  /** Library calls the pipeline makes and the model does not look into. */
  datatype Library = Library(
    sha256: Bytes -> string,
    titleCase: string -> string)

  // ----- source -----

  datatype ArchiveType = MailboxArchive | JournalType | FileSystemArchive | SharePointArchive

  datatype ItemType = Email | AttachmentItem | FileItem | FolderItem | JournalItem

  datatype ContentPart = ContentPart(
    partId: string, dataRef: string, data: Bytes, sizeBytes: int, sha256: string)

  datatype Attachment = Attachment(filename: string, sizeBytes: int, checksum: string)

  /** body is the UTF-8 encoding of the message text. */
  datatype MailItem = MailItem(
    messageId: string,
    subject: string,
    sender: string,
    recipients: seq<string>,
    ccRecipients: seq<string>,
    bccRecipients: seq<string>,
    body: Bytes,
    contentParts: seq<ContentPart>,
    attachments: seq<Attachment>,
    messageSize: int,
    conversationId: string,
    itemType: ItemType,
    retentionPolicy: string,
    sentAt: int,
    modifiedAt: int,
    folderPath: string,
    sourcePath: Option<string>,
    legalHold: bool,
    legalHoldPolicy: Option<string>,
    journalMetadata: seq<(string, string)>)

  datatype Mailbox = Mailbox(address: string, mailItems: seq<MailItem>)

  datatype JournalArchive = JournalArchive(name: string, mailItems: seq<MailItem>)

  datatype Archive = Archive(
    name: string,
    archiveType: ArchiveType,
    mailboxes: seq<Mailbox>,
    journalArchives: seq<JournalArchive>,
    sourcePath: Option<string>,
    isOrphaned: bool,
    originalOwner: Option<string>,
    ownerStatus: string)

  datatype VaultStore = VaultStore(name: string, archives: seq<Archive>)

  datatype Configuration = Configuration(
    dryRun: bool,
    archiveNames: Option<seq<string>>,
    folderPaths: Option<seq<string>>,
    startDate: Option<int>,
    endDate: Option<int>,
    uploadWorkers: nat,
    uploadRate: Option<real>)

  const DEFAULT_CONFIGURATION := Configuration(false, None, None, None, None, 1, None)

  // ----- transformation output -----

  /** The three custom properties the transformation writes. */
  datatype Properties = Properties(messageId: string, messageSize: int, attachmentCount: nat)

  datatype TransformedDocument = TransformedDocument(
    sourceIdentifier: string,
    archiveName: string,
    mailboxAddress: Option<string>,
    subject: string,
    filename: string,
    contentType: string,
    sizeBytes: int,
    checksum: string,
    sender: string,
    recipients: seq<string>,
    ccRecipients: seq<string>,
    bccRecipients: seq<string>,
    retentionPolicy: string,
    department: string,
    tags: seq<string>,
    properties: Properties,
    attachmentFilenames: seq<string>,
    attachmentChecksums: seq<string>,
    attachmentSizes: seq<int>,
    createdAt: int,
    modifiedAt: int,
    archiveType: ArchiveType,
    itemType: ItemType,
    folderPath: Option<string>,
    sourcePath: Option<string>,
    isOrphaned: bool,
    originalOwner: Option<string>,
    ownerStatus: string,
    legalHold: bool,
    legalHoldPolicy: Option<string>,
    journalMetadata: seq<(string, string)>)

  /** The metadata that verification compares: everything but the checksum and
      the fields the source leaves out of the signature. */
  function Signature(d: TransformedDocument): TransformedDocument {
    d.(checksum := "", archiveType := MailboxArchive, itemType := Email, folderPath := None,
       sourcePath := None, isOrphaned := false, originalOwner := None, ownerStatus := "",
       legalHold := false, legalHoldPolicy := None, journalMetadata := [])
  }

  /** Reasons a source item cannot be rehydrated. */
  datatype RehydrationError =
    | MissingPartId
    | MissingDataRef(partId: string)
    | NegativeSize(partId: string)
    | SizeMismatch(partId: string, declared: int, actual: int)
    | ChecksumMismatch(partId: string, declaredSha256: string, actualSha256: string)
    | CacheMismatch(partId: string)

  /** The warnings reports accumulate, one constructor for each message template. */
  datatype Warning =
    | UnsupportedArchive(archiveType: ArchiveType)
    | RehydrationFailed(error: RehydrationError)
    | FailedTransformation(count: nat)
    | FailedUpload(count: nat)
    | FailedVerification(count: nat)
    | SkippedInUpload(count: nat)
    | SkippedInTransformation(count: nat)

  // ----- stage results -----

  datatype Discovery = Discovery(storeNames: seq<string>, archiveNames: seq<string>)

  datatype Extraction = Extraction(
    archives: seq<Archive>,
    mailboxes: seq<Mailbox>,
    items: seq<MailItem>,
    attachments: seq<Attachment>,
    unsupported: seq<Archive>,
    warnings: seq<Warning>,
    sourceItemCount: nat)

  datatype Transformation = Transformation(
    documents: seq<TransformedDocument>,
    failedIdentifiers: seq<string>,
    failedItems: nat,
    skippedItems: nat,
    warnings: seq<Warning>)

  datatype UploadError =
    | Conflict(key: string, existingChecksum: string, receivedChecksum: string)
    | RefusedByTarget(message: string)
    | NotFoundInTarget
    | SkippedDuplicate

  datatype ItemResult = ItemResult(
    sourceIdentifier: string,
    success: bool,
    targetIdentifier: Option<string>,
    error: Option<UploadError>,
    replay: bool,
    dryRun: bool)

  datatype UploadBatch = UploadBatch(
    uploaded: seq<TransformedDocument>,
    failed: seq<TransformedDocument>,
    skipped: seq<TransformedDocument>,
    uploadedIds: seq<string>,
    itemResults: seq<ItemResult>)

  datatype Verification = Verification(
    verified: seq<string>,
    failed: seq<string>,
    missing: seq<string>,
    checksumMismatches: seq<string>,
    metadataMismatches: seq<string>)

  function Identifier(d: TransformedDocument): string {
    d.sourceIdentifier
  }
}
