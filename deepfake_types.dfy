/**
 * The record shapes of an analysis report (src/types/deepfake.ts).
 *
 * TypeScript `number` fields are `real`. The verdict and the frame label are
 * kept as the strings the report carries at run time: the report arrives as
 * an unchecked cast of parsed JSON, so a value outside the declared union can
 * reach the server, and the closed sets are predicates over those strings.
 * The three optional sections read by the document renderer are not declared
 * in the TypeScript interface; they are `Option` fields here.
 */
module DeepfakeTypes {
  import opened Wrappers

  datatype VideoMetadata = VideoMetadata(
    fileName: string,
    fileFormat: string,
    duration: string,
    frameRate: string,
    md5Hash: string,
    dateOfFileCreation: string)

  datatype DetectionParameters = DetectionParameters(
    frameSamplingRate: string,
    facialLandmarkDetection: string,
    audioVisualSyncCheck: string,
    classificationThreshold: real)

  datatype FrameClassification = FrameClassification(
    frameNumber: real,
    timestamp: string,
    confidence: real,
    frameLabel: string)  // `label` in the source; a reserved word in Dafny

  datatype CaseOverview = CaseOverview(
    caseReference: string,
    sourceOfVideo: string,
    suspectedContentType: string)

  datatype TemporalConsistency = TemporalConsistency(score: real, interpretation: string)

  datatype AudioVisualSync = AudioVisualSync(deviationIndex: real, observation: string)

  datatype DetailedSummary = DetailedSummary(
    confidenceScore: real,
    operationalThreshold: real,
    content: string)

  datatype DeepfakeAnalysisReport = DeepfakeAnalysisReport(
    reportId: string,
    preparedBy: string,
    dateOfAnalysis: string,
    toolModelUsed: string,
    detectionEngineVersion: string,
    caseOverview: CaseOverview,
    videoFileMetadata: VideoMetadata,
    detectionParameters: DetectionParameters,
    frameLevelClassification: seq<FrameClassification>,
    overallVerdict: string,
    averageConfidence: real,
    totalFramesAnalyzed: real,
    fakeFramesDetected: real,
    realFramesDetected: real,
    temporalConsistency: Option<TemporalConsistency>,
    audioVisualSync: Option<AudioVisualSync>,
    detailedSummary: Option<DetailedSummary>)

  /** The closed set of `overallVerdict` values. */
  const VerdictValues: seq<string> := ["FAKE", "REAL", "INCONCLUSIVE"]

  /** The closed set of frame `label` values. */
  const LabelValues: seq<string> := ["FAKE", "REAL"]

  predicate IsVerdict(s: string) { s in VerdictValues }

  predicate IsLabel(s: string) { s in LabelValues }

  /** Both enumerations of the report hold. */
  predicate EnumsValid(r: DeepfakeAnalysisReport)
  {
    && IsVerdict(r.overallVerdict)
    && forall i :: 0 <= i < |r.frameLevelClassification| ==> IsLabel(r.frameLevelClassification[i].frameLabel)
  }

  predicate HasNoExtras(r: DeepfakeAnalysisReport)
  {
    r.temporalConsistency.None? && r.audioVisualSync.None? && r.detailedSummary.None?
  }

  /** The report with the three undeclared optional sections dropped. */
  function WithoutExtras(r: DeepfakeAnalysisReport): (s: DeepfakeAnalysisReport)
    ensures HasNoExtras(s)
    ensures s.(temporalConsistency := r.temporalConsistency,
               audioVisualSync := r.audioVisualSync,
               detailedSummary := r.detailedSummary) == r
  {
    r.(temporalConsistency := None, audioVisualSync := None, detailedSummary := None)
  }
}
