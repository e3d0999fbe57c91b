/** The context the steps hand on, with the reports and outcomes it accumulates. */
module StepContexts {
  import opened Prelude
  import opened Records
  import opened StepRegistries

  datatype FinalStatus =
    | CompletedStatus
    | CompletedWithWarnings
    | FailedStatus
    | DryRunCompleted
    | OtherStatus(text: string)

  datatype ReconciliationStatus = Reconciled | DryRunReconciled | NeedsReview

  datatype Reconciliation = Reconciliation(
    expectedItems: nat,
    uploadedItems: nat,
    verifiedItems: nat,
    replays: nat,
    dryRunItems: nat,
    missingItems: seq<string>,
    unexpectedItems: seq<string>,
    checksumMismatches: seq<string>,
    status: ReconciliationStatus,
    isReconciled: bool)

  /** The item counters of the final metrics. */
  datatype ItemMetrics = ItemMetrics(
    totalItems: nat,
    successfulItems: nat,
    failedItems: nat,
    skippedItems: nat,
    retriedItems: nat,
    uploadedItems: nat,
    replays: nat,
    dryRunItems: nat,
    verificationFailures: nat,
    reconciledItems: nat,
    missingItems: nat,
    checksumMismatches: nat)

  datatype Snapshot = Snapshot(
    totalItems: nat,
    processedItems: nat,
    successfulItems: nat,
    failedItems: nat,
    skippedItems: nat)

  /** metrics and reconciliation are filled in by the final step only. */
  datatype Report = Report(
    completed: bool,
    failedSteps: nat,
    warnings: seq<Warning>,
    finalStatus: Option<FinalStatus>,
    metrics: Option<ItemMetrics>,
    reconciliation: Option<Reconciliation>)

  datatype FailureCode =
    | TransformationFailedCode
    | UploadFailedCode
    | MissingDocumentCode
    | ChecksumMismatchCode
    | MetadataMismatchCode
    | VerificationFailedCode
    | StepFailedCode

  /** One constructor for each message template. */
  datatype FailureMessage =
    | TransformationFailedMessage
    | UploadFailedMessage
    | OnlyMissing
    | OnlyChecksum
    | OnlyMetadata
    | DueToMissing
    | DueToChecksum
    | DueToMetadata
    | DuringComparison
    | PipelineFailure(afterRetries: bool)

  datatype Stage = TransformationStage | UploadStage | VerificationStage | PipelineStage(step: StepName)

  datatype ErrorEntry = ErrorEntry(
    sourceIdentifier: Option<string>,
    stage: Stage,
    code: FailureCode,
    message: FailureMessage,
    retryable: bool,
    attemptCount: nat,
    finalStatus: FinalStatus,
    archiveIdentifier: Option<string>,
    itemType: Option<ItemType>)

  datatype Outcome = Outcome(
    success: bool,
    report: Report,
    metrics: ItemMetrics,
    snapshot: Snapshot,
    warnings: seq<Warning>,
    breakdown: seq<ErrorEntry>)

  datatype StepData = StepData(
    discovery: Option<Discovery>,
    stores: Option<seq<VaultStore>>,
    extraction: Option<Extraction>,
    transformation: Option<Transformation>,
    upload: Option<UploadBatch>,
    verification: Option<Verification>,
    report: Option<Report>,
    outcome: Option<Outcome>)

  const NO_DATA := StepData(None, None, None, None, None, None, None, None)
}
