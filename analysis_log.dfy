/**
 * The stored form of a report (src/lib/models/AnalysisLog.ts): the report
 * plus store-assigned timestamps and the two optional client fields, and the
 * constraints the mongoose schema enforces when a document is saved.
 *
 * `Insert` is one `save()` of a new document against the collection's current
 * contents: validation first (required paths, enums), then the unique index
 * on `reportId`, then the write itself. A write can also fail for reasons
 * outside the model (a dropped connection); that is the `writeFails` input.
 */
module AnalysisLogModel {
  import opened Wrappers
  import opened DeepfakeTypes

  /** A stored document: `IAnalysisLog` without `_id`. */
  datatype AnalysisLog = AnalysisLog(
    report: DeepfakeAnalysisReport,
    createdAt: int,
    updatedAt: int,
    ipAddress: Option<string>,
    userAgent: Option<string>)

  /** What the caller hands to `new AnalysisLog({...})`: no timestamps. */
  datatype LogDraft = LogDraft(
    report: DeepfakeAnalysisReport,
    ipAddress: Option<string>,
    userAgent: Option<string>)

  datatype SaveError =
    | ValidationFailed   // a required path is missing or an enum is violated
    | DuplicateKey       // the unique index on `reportId` already holds the id
    | WriteFailed        // any other failure of the write

  /** The MongoDB error code of a duplicate-key write error. */
  const DuplicateKeyCode := 11000

  /** The `code` the thrown error carries; only the duplicate-key error has one. */
  function ErrorCode(e: SaveError): (code: Option<int>)
    ensures code == Some(DuplicateKeyCode) <==> e == DuplicateKey
    ensures e != DuplicateKey ==> code.None?
  {
    match e
    case DuplicateKey => Some(DuplicateKeyCode)
    case _ => None
  }

  /**
   * Every `String` path the schema marks `required`, report-wide. A required
   * string validator rejects the empty string as well as a missing value.
   */
  function RequiredStrings(r: DeepfakeAnalysisReport): (s: seq<string>)
    ensures |s| == 17
  {
    [ r.reportId, r.preparedBy, r.dateOfAnalysis, r.toolModelUsed, r.detectionEngineVersion,
      r.caseOverview.caseReference, r.caseOverview.sourceOfVideo,
      r.caseOverview.suspectedContentType,
      r.videoFileMetadata.fileName, r.videoFileMetadata.fileFormat,
      r.videoFileMetadata.duration, r.videoFileMetadata.frameRate,
      r.videoFileMetadata.md5Hash, r.videoFileMetadata.dateOfFileCreation,
      r.detectionParameters.frameSamplingRate, r.detectionParameters.facialLandmarkDetection,
      r.detectionParameters.audioVisualSyncCheck ]
  }

  predicate RequiredPresent(r: DeepfakeAnalysisReport)
  {
    && (forall i :: 0 <= i < |RequiredStrings(r)| ==> RequiredStrings(r)[i] != "")
    && forall i :: 0 <= i < |r.frameLevelClassification| ==> r.frameLevelClassification[i].timestamp != ""
  }

  /** The draft passes the schema's validators. `ipAddress` and `userAgent` play no part. */
  predicate Admissible(d: LogDraft)
  {
    RequiredPresent(d.report) && EnumsValid(d.report)
  }

  /** Some stored log already carries `id`. */
  predicate IdTaken(logs: seq<AnalysisLog>, id: string)
  {
    exists i :: 0 <= i < |logs| && logs[i].report.reportId == id
  }

  /** No two stored logs share a `reportId`. */
  predicate UniqueIds(logs: seq<AnalysisLog>)
  {
    forall i, j :: 0 <= i < |logs| && 0 <= j < |logs| && i != j ==>
      logs[i].report.reportId != logs[j].report.reportId
  }

  /** What the schema guarantees of one stored document. */
  predicate StoredLogValid(log: AnalysisLog)
  {
    && RequiredPresent(log.report)
    && EnumsValid(log.report)
    && HasNoExtras(log.report)
    && log.createdAt == log.updatedAt
  }

  /** The collection invariant: unique ids, every document valid. */
  predicate StoreInvariant(logs: seq<AnalysisLog>)
  {
    UniqueIds(logs) && forall i :: 0 <= i < |logs| ==> StoredLogValid(logs[i])
  }

  /**
   * The document written for a draft at time `now`: both timestamps are the
   * store's clock, and paths the schema does not declare are dropped. A draft
   * that passes validation becomes a document the schema accepts.
   */
  function Stamp(d: LogDraft, now: int): (log: AnalysisLog)
    ensures HasNoExtras(log.report) && log.createdAt == log.updatedAt
    ensures Admissible(d) ==> StoredLogValid(log)
  {
    var r := WithoutExtras(d.report);
    assert RequiredStrings(r) == RequiredStrings(d.report);
    assert r.frameLevelClassification == d.report.frameLevelClassification;
    AnalysisLog(r, now, now, d.ipAddress, d.userAgent)
  }

  /** One `save()` of a new document. */
  function Insert(logs: seq<AnalysisLog>, d: LogDraft, now: int, writeFails: bool)
    : Result<seq<AnalysisLog>, SaveError>
  {
    if !Admissible(d) then Failure(ValidationFailed)
    else if IdTaken(logs, d.report.reportId) then Failure(DuplicateKey)
    else if writeFails then Failure(WriteFailed)
    else Success(logs + [Stamp(d, now)])
  }

  // ---------------------------------------------------------------------------
  // Properties

  /** A save succeeds exactly when the draft validates, the id is free and the write goes through. */
  lemma InsertSucceedsIff(logs: seq<AnalysisLog>, d: LogDraft, now: int, writeFails: bool)
    ensures Insert(logs, d, now, writeFails).Success?
            <==> Admissible(d) && !IdTaken(logs, d.report.reportId) && !writeFails
    ensures Insert(logs, d, now, writeFails).Success? ==>
              Insert(logs, d, now, writeFails).value == logs + [Stamp(d, now)]
  {
  }

  /** A valid draft whose id is taken is refused with the duplicate-key error. */
  lemma DuplicateRejected(logs: seq<AnalysisLog>, d: LogDraft, now: int, writeFails: bool, i: nat)
    requires Admissible(d)
    requires i < |logs| && logs[i].report.reportId == d.report.reportId
    ensures Insert(logs, d, now, writeFails) == Failure(DuplicateKey)
    ensures ErrorCode(Insert(logs, d, now, writeFails).error) == Some(DuplicateKeyCode)
  {
  }

  /** A draft with an empty or missing required string is refused by validation, before the index. */
  lemma EmptyRequiredRejected(logs: seq<AnalysisLog>, d: LogDraft, now: int, writeFails: bool, k: nat)
    requires k < |RequiredStrings(d.report)| && RequiredStrings(d.report)[k] == ""
    ensures Insert(logs, d, now, writeFails) == Failure(ValidationFailed)
    ensures ErrorCode(ValidationFailed).None?
  {
  }

  /** A verdict outside the enum is refused by validation. */
  lemma VerdictOutsideEnumRejected(logs: seq<AnalysisLog>, d: LogDraft, now: int, writeFails: bool)
    requires !IsVerdict(d.report.overallVerdict)
    ensures Insert(logs, d, now, writeFails) == Failure(ValidationFailed)
  {
  }

  /** Validation never looks at the two optional client fields. */
  lemma ClientFieldsOptional(d: LogDraft, ip: Option<string>, ua: Option<string>)
    ensures Admissible(d) <==> Admissible(LogDraft(d.report, ip, ua))
    ensures Admissible(LogDraft(d.report, None, None)) <==> Admissible(d)
  {
  }

  /** The timestamps come from the store's clock whatever the draft says. */
  lemma TimestampsAssignedByStore(logs: seq<AnalysisLog>, d: LogDraft, now: int)
    requires Insert(logs, d, now, false).Success?
    ensures var stored := Insert(logs, d, now, false).value[|logs|];
            stored.createdAt == now && stored.updatedAt == now
  {
  }

  /** A stored log with its timestamps and client fields removed is the caller's report, extras dropped. */
  lemma StoredLogIsReport(logs: seq<AnalysisLog>, d: LogDraft, now: int)
    requires Insert(logs, d, now, false).Success?
    ensures var stored := Insert(logs, d, now, false).value[|logs|];
            && stored.report == WithoutExtras(d.report)
            && stored.report.(temporalConsistency := d.report.temporalConsistency,
                              audioVisualSync := d.report.audioVisualSync,
                              detailedSummary := d.report.detailedSummary) == d.report
  {
  }

  /** A successful save keeps the collection invariant. */
  lemma InsertPreservesInvariant(logs: seq<AnalysisLog>, d: LogDraft, now: int, writeFails: bool)
    requires StoreInvariant(logs)
    requires Insert(logs, d, now, writeFails).Success?
    ensures StoreInvariant(Insert(logs, d, now, writeFails).value)
  {
    var stored := Stamp(d, now);
    var next := logs + [stored];
    assert next[|logs|] == stored;
    assert forall i :: 0 <= i < |logs| ==> next[i] == logs[i];
    forall i, j | 0 <= i < |next| && 0 <= j < |next| && i != j
      ensures next[i].report.reportId != next[j].report.reportId
    {
      if i == |logs| {
        assert !(0 <= j < |logs| && logs[j].report.reportId == d.report.reportId);
      } else if j == |logs| {
        assert !(0 <= i < |logs| && logs[i].report.reportId == d.report.reportId);
      }
    }
  }

  /** Every stored log has a verdict and labels from the enums and a non-empty id. */
  lemma StoredLogsAreValid(logs: seq<AnalysisLog>, i: nat)
    requires StoreInvariant(logs) && i < |logs|
    ensures IsVerdict(logs[i].report.overallVerdict)
    ensures forall k :: 0 <= k < |logs[i].report.frameLevelClassification| ==>
              IsLabel(logs[i].report.frameLevelClassification[k].frameLabel)
    ensures logs[i].report.reportId != ""
  {
    assert RequiredStrings(logs[i].report)[0] == logs[i].report.reportId;
  }

  /**
   * `md5Hash` and `overallVerdict` carry plain indexes: a second report with
   * the same hash and verdict but its own id is stored beside the first.
   */
  lemma SameHashAndVerdictCoexist(
    logs: seq<AnalysisLog>, d1: LogDraft, d2: LogDraft, t1: int, t2: int)
    requires Insert(logs, d1, t1, false).Success?
    requires Admissible(d2) && !IdTaken(logs, d2.report.reportId)
    requires d2.report.reportId != d1.report.reportId
    requires d2.report.videoFileMetadata.md5Hash == d1.report.videoFileMetadata.md5Hash
    requires d2.report.overallVerdict == d1.report.overallVerdict
    ensures Insert(Insert(logs, d1, t1, false).value, d2, t2, false).Success?
  {
    var next := Insert(logs, d1, t1, false).value;
    assert next == logs + [Stamp(d1, t1)];
    forall i | 0 <= i < |next| ensures next[i].report.reportId != d2.report.reportId {
      if i < |logs| {
        assert next[i] == logs[i];
      }
    }
  }
}
