/**
 * The structured-output schema handed to the classification service
 * (`deepfakeDetectionSchema` in src/types/deepfake.ts), the JSON payloads
 * it describes, and the conversion between a payload and a report.
 *
 * `Conforms(j, s)` is what it means for a payload to satisfy a schema
 * descriptor: an object has every name in its `required` list, every listed
 * property that is present conforms to its own schema, a string with an
 * `enum` is one of the listed values, an array's items all conform.
 */
module DetectionSchema {
  import opened Wrappers
  import opened DeepfakeTypes

  datatype Json =
    | JNull
    | JBool(b: bool)
    | JNumber(n: real)
    | JString(s: string)
    | JArray(items: seq<Json>)
    | JObject(fields: map<string, Json>)

  datatype Schema =
    | StringSchema(enumValues: Option<seq<string>>)
    | NumberSchema
    | ArraySchema(items: Schema)
    | ObjectSchema(properties: seq<Property>, required: seq<string>, propertyOrdering: Option<seq<string>>)

  datatype Property = Property(name: string, schema: Schema)

  predicate Conforms(j: Json, s: Schema)
    decreases s
  {
    match s
    case StringSchema(e) => j.JString? && (e.None? || j.s in e.value)
    case NumberSchema => j.JNumber?
    case ArraySchema(item) =>
      j.JArray? && forall i :: 0 <= i < |j.items| ==> Conforms(j.items[i], item)
    case ObjectSchema(props, req, _) =>
      && j.JObject?
      && (forall k :: k in req ==> k in j.fields)
      && forall i :: 0 <= i < |props| ==>
           props[i].name in j.fields ==> Conforms(j.fields[props[i].name], props[i].schema)
  }

  function PropertyNames(props: seq<Property>): (names: seq<string>)
    ensures |names| == |props|
    ensures forall i :: 0 <= i < |props| ==> names[i] == props[i].name
  {
    if props == [] then [] else [props[0].name] + PropertyNames(props[1..])
  }

  const AnyString := StringSchema(None)

  const CaseOverviewSchema := ObjectSchema(
    [ Property("caseReference", AnyString),
      Property("sourceOfVideo", AnyString),
      Property("suspectedContentType", AnyString) ],
    ["caseReference", "sourceOfVideo", "suspectedContentType"],
    None)

  const VideoFileMetadataSchema := ObjectSchema(
    [ Property("fileName", AnyString),
      Property("fileFormat", AnyString),
      Property("duration", AnyString),
      Property("frameRate", AnyString),
      Property("md5Hash", AnyString),
      Property("dateOfFileCreation", AnyString) ],
    ["fileName", "fileFormat", "duration", "frameRate", "md5Hash", "dateOfFileCreation"],
    None)

  const DetectionParametersSchema := ObjectSchema(
    [ Property("frameSamplingRate", AnyString),
      Property("facialLandmarkDetection", AnyString),
      Property("audioVisualSyncCheck", AnyString),
      Property("classificationThreshold", NumberSchema) ],
    ["frameSamplingRate", "facialLandmarkDetection", "audioVisualSyncCheck", "classificationThreshold"],
    None)

  const FrameClassificationSchema := ObjectSchema(
    [ Property("frameNumber", NumberSchema),
      Property("timestamp", AnyString),
      Property("confidence", NumberSchema),
      Property("label", StringSchema(Some(["FAKE", "REAL"]))) ],
    ["frameNumber", "timestamp", "confidence", "label"],
    None)

  const DeepfakeDetectionSchema := ObjectSchema(
    [ Property("reportId", AnyString),
      Property("preparedBy", AnyString),
      Property("dateOfAnalysis", AnyString),
      Property("toolModelUsed", AnyString),
      Property("detectionEngineVersion", AnyString),
      Property("caseOverview", CaseOverviewSchema),
      Property("videoFileMetadata", VideoFileMetadataSchema),
      Property("detectionParameters", DetectionParametersSchema),
      Property("frameLevelClassification", ArraySchema(FrameClassificationSchema)),
      Property("overallVerdict", StringSchema(Some(["FAKE", "REAL", "INCONCLUSIVE"]))),
      Property("averageConfidence", NumberSchema),
      Property("totalFramesAnalyzed", NumberSchema),
      Property("fakeFramesDetected", NumberSchema),
      Property("realFramesDetected", NumberSchema) ],
    [ "reportId", "preparedBy", "dateOfAnalysis", "toolModelUsed", "detectionEngineVersion",
      "caseOverview", "videoFileMetadata", "detectionParameters", "frameLevelClassification",
      "overallVerdict", "averageConfidence", "totalFramesAnalyzed", "fakeFramesDetected",
      "realFramesDetected" ],
    Some([ "reportId", "preparedBy", "dateOfAnalysis", "toolModelUsed", "detectionEngineVersion",
           "caseOverview", "videoFileMetadata", "detectionParameters", "frameLevelClassification",
           "overallVerdict", "averageConfidence", "totalFramesAnalyzed", "fakeFramesDetected",
           "realFramesDetected" ]))

  /** The properties of the `DeepfakeAnalysisReport` interface, in declaration order. */
  const ReportFieldNames: seq<string> := [
    "reportId", "preparedBy", "dateOfAnalysis", "toolModelUsed", "detectionEngineVersion",
    "caseOverview", "videoFileMetadata", "detectionParameters", "frameLevelClassification",
    "overallVerdict", "averageConfidence", "totalFramesAnalyzed", "fakeFramesDetected",
    "realFramesDetected"]

  // ---------------------------------------------------------------------------
  // Reading a payload as a report

  function StringField(f: map<string, Json>, k: string): Option<string>
  {
    if k in f && f[k].JString? then Some(f[k].s) else None
  }

  function NumberField(f: map<string, Json>, k: string): Option<real>
  {
    if k in f && f[k].JNumber? then Some(f[k].n) else None
  }

  function ObjectField(f: map<string, Json>, k: string): Option<map<string, Json>>
  {
    if k in f && f[k].JObject? then Some(f[k].fields) else None
  }

  function CaseOverviewFromJson(f: map<string, Json>): Option<CaseOverview>
  {
    var caseReference :- StringField(f, "caseReference");
    var sourceOfVideo :- StringField(f, "sourceOfVideo");
    var suspectedContentType :- StringField(f, "suspectedContentType");
    Some(CaseOverview(caseReference, sourceOfVideo, suspectedContentType))
  }

  function VideoMetadataFromJson(f: map<string, Json>): Option<VideoMetadata>
  {
    var fileName :- StringField(f, "fileName");
    var fileFormat :- StringField(f, "fileFormat");
    var duration :- StringField(f, "duration");
    var frameRate :- StringField(f, "frameRate");
    var md5Hash :- StringField(f, "md5Hash");
    var dateOfFileCreation :- StringField(f, "dateOfFileCreation");
    Some(VideoMetadata(fileName, fileFormat, duration, frameRate, md5Hash, dateOfFileCreation))
  }

  function DetectionParametersFromJson(f: map<string, Json>): Option<DetectionParameters>
  {
    var frameSamplingRate :- StringField(f, "frameSamplingRate");
    var facialLandmarkDetection :- StringField(f, "facialLandmarkDetection");
    var audioVisualSyncCheck :- StringField(f, "audioVisualSyncCheck");
    var classificationThreshold :- NumberField(f, "classificationThreshold");
    Some(DetectionParameters(frameSamplingRate, facialLandmarkDetection, audioVisualSyncCheck,
                             classificationThreshold))
  }

  function FrameFromJson(j: Json): Option<FrameClassification>
  {
    if !j.JObject? then None
    else
      var frameNumber :- NumberField(j.fields, "frameNumber");
      var timestamp :- StringField(j.fields, "timestamp");
      var confidence :- NumberField(j.fields, "confidence");
      var frameLabel :- StringField(j.fields, "label");
      Some(FrameClassification(frameNumber, timestamp, confidence, frameLabel))
  }

  function FramesFromJson(items: seq<Json>): (r: Option<seq<FrameClassification>>)
    ensures r.Some? <==> forall i :: 0 <= i < |items| ==> FrameFromJson(items[i]).Some?
    ensures r.Some? ==> |r.value| == |items|
    ensures r.Some? ==> forall i :: 0 <= i < |items| ==> FrameFromJson(items[i]) == Some(r.value[i])
  {
    if items == [] then Some([])
    else
      var first :- FrameFromJson(items[0]);
      var rest :- FramesFromJson(items[1..]);
      Some([first] + rest)
  }

  /** `temporalConsistency`, when it is an object with a numeric score and a string interpretation. */
  function TemporalFromJson(f: map<string, Json>): Option<TemporalConsistency>
  {
    var t :- ObjectField(f, "temporalConsistency");
    var score :- NumberField(t, "score");
    var interpretation :- StringField(t, "interpretation");
    Some(TemporalConsistency(score, interpretation))
  }

  /** `audioVisualSync`, when it is an object with a numeric deviation index and a string observation. */
  function SyncFromJson(f: map<string, Json>): Option<AudioVisualSync>
  {
    var a :- ObjectField(f, "audioVisualSync");
    var deviationIndex :- NumberField(a, "deviationIndex");
    var observation :- StringField(a, "observation");
    Some(AudioVisualSync(deviationIndex, observation))
  }

  /** `detailedSummary`, when it is an object with two numeric scores and a string content. */
  function DetailFromJson(f: map<string, Json>): Option<DetailedSummary>
  {
    var d :- ObjectField(f, "detailedSummary");
    var confidenceScore :- NumberField(d, "confidenceScore");
    var operationalThreshold :- NumberField(d, "operationalThreshold");
    var content :- StringField(d, "content");
    Some(DetailedSummary(confidenceScore, operationalThreshold, content))
  }

  /**
   * The declared fields of a payload, when it has every field of the
   * interface with the right JSON type; the optional sections are left absent.
   * Enumerations are not checked here (the source casts without checking).
   */
  function DeclaredFromJson(j: Json): Option<DeepfakeAnalysisReport>
  {
    if !j.JObject? then None
    else
      var f := j.fields;
      var reportId :- StringField(f, "reportId");
      var preparedBy :- StringField(f, "preparedBy");
      var dateOfAnalysis :- StringField(f, "dateOfAnalysis");
      var toolModelUsed :- StringField(f, "toolModelUsed");
      var detectionEngineVersion :- StringField(f, "detectionEngineVersion");
      var caseFields :- ObjectField(f, "caseOverview");
      var caseOverview :- CaseOverviewFromJson(caseFields);
      var videoFields :- ObjectField(f, "videoFileMetadata");
      var videoFileMetadata :- VideoMetadataFromJson(videoFields);
      var parameterFields :- ObjectField(f, "detectionParameters");
      var detectionParameters :- DetectionParametersFromJson(parameterFields);
      var frameItems :- if "frameLevelClassification" in f && f["frameLevelClassification"].JArray?
                        then Some(f["frameLevelClassification"].items) else None;
      var frames :- FramesFromJson(frameItems);
      var overallVerdict :- StringField(f, "overallVerdict");
      var averageConfidence :- NumberField(f, "averageConfidence");
      var totalFramesAnalyzed :- NumberField(f, "totalFramesAnalyzed");
      var fakeFramesDetected :- NumberField(f, "fakeFramesDetected");
      var realFramesDetected :- NumberField(f, "realFramesDetected");
      Some(DeepfakeAnalysisReport(
        reportId, preparedBy, dateOfAnalysis, toolModelUsed, detectionEngineVersion,
        caseOverview, videoFileMetadata, detectionParameters, frames, overallVerdict,
        averageConfidence, totalFramesAnalyzed, fakeFramesDetected, realFramesDetected,
        None, None, None))
  }

  /**
   * The report a payload denotes: its declared fields, and each optional
   * section that is present with its shape. The optional sections are not
   * part of the schema, so a payload without them reads all the same.
   */
  function ReportFromJson(j: Json): Option<DeepfakeAnalysisReport>
  {
    var r :- DeclaredFromJson(j);
    Some(r.(temporalConsistency := TemporalFromJson(j.fields),
            audioVisualSync := SyncFromJson(j.fields),
            detailedSummary := DetailFromJson(j.fields)))
  }

  /** A payload reads as a report exactly when its declared fields read, sections added. */
  lemma ReportFromDeclared(j: Json)
    ensures ReportFromJson(j).Some? <==> DeclaredFromJson(j).Some?
    ensures DeclaredFromJson(j).Some? ==> j.JObject?
    ensures DeclaredFromJson(j).Some? ==>
              ReportFromJson(j).value == DeclaredFromJson(j).value.(
                temporalConsistency := TemporalFromJson(j.fields),
                audioVisualSync := SyncFromJson(j.fields),
                detailedSummary := DetailFromJson(j.fields))
  {
  }

  // ---------------------------------------------------------------------------
  // Writing a report as a payload

  function FrameToJson(fr: FrameClassification): Json
  {
    JObject(map[
      "frameNumber" := JNumber(fr.frameNumber),
      "timestamp" := JString(fr.timestamp),
      "confidence" := JNumber(fr.confidence),
      "label" := JString(fr.frameLabel)])
  }

  function FramesToJson(frames: seq<FrameClassification>): (items: seq<Json>)
    ensures |items| == |frames|
    ensures forall i :: 0 <= i < |frames| ==> items[i] == FrameToJson(frames[i])
  {
    if frames == [] then [] else [FrameToJson(frames[0])] + FramesToJson(frames[1..])
  }

  function CaseOverviewToJson(c: CaseOverview): Json
  {
    JObject(map[
      "caseReference" := JString(c.caseReference),
      "sourceOfVideo" := JString(c.sourceOfVideo),
      "suspectedContentType" := JString(c.suspectedContentType)])
  }

  function VideoMetadataToJson(v: VideoMetadata): Json
  {
    JObject(map[
      "fileName" := JString(v.fileName),
      "fileFormat" := JString(v.fileFormat),
      "duration" := JString(v.duration),
      "frameRate" := JString(v.frameRate),
      "md5Hash" := JString(v.md5Hash),
      "dateOfFileCreation" := JString(v.dateOfFileCreation)])
  }

  function DetectionParametersToJson(p: DetectionParameters): Json
  {
    JObject(map[
      "frameSamplingRate" := JString(p.frameSamplingRate),
      "facialLandmarkDetection" := JString(p.facialLandmarkDetection),
      "audioVisualSyncCheck" := JString(p.audioVisualSyncCheck),
      "classificationThreshold" := JNumber(p.classificationThreshold)])
  }

  function ReportToJson(r: DeepfakeAnalysisReport): Json
  {
    JObject(map[
      "reportId" := JString(r.reportId),
      "preparedBy" := JString(r.preparedBy),
      "dateOfAnalysis" := JString(r.dateOfAnalysis),
      "toolModelUsed" := JString(r.toolModelUsed),
      "detectionEngineVersion" := JString(r.detectionEngineVersion),
      "caseOverview" := CaseOverviewToJson(r.caseOverview),
      "videoFileMetadata" := VideoMetadataToJson(r.videoFileMetadata),
      "detectionParameters" := DetectionParametersToJson(r.detectionParameters),
      "frameLevelClassification" := JArray(FramesToJson(r.frameLevelClassification)),
      "overallVerdict" := JString(r.overallVerdict),
      "averageConfidence" := JNumber(r.averageConfidence),
      "totalFramesAnalyzed" := JNumber(r.totalFramesAnalyzed),
      "fakeFramesDetected" := JNumber(r.fakeFramesDetected),
      "realFramesDetected" := JNumber(r.realFramesDetected)])
  }

  // ---------------------------------------------------------------------------
  // Properties of the schema descriptor

  /** `required`, `propertyOrdering` and the listed properties name the interface's fields, in order. */
  lemma SchemaListsAgree()
    ensures DeepfakeDetectionSchema.required == ReportFieldNames
    ensures DeepfakeDetectionSchema.propertyOrdering == Some(DeepfakeDetectionSchema.required)
    ensures PropertyNames(DeepfakeDetectionSchema.properties) == ReportFieldNames
    ensures |ReportFieldNames| == 14
  {
    var names := PropertyNames(DeepfakeDetectionSchema.properties);
    assert names == ReportFieldNames by {
      forall i | 0 <= i < 14 ensures names[i] == ReportFieldNames[i] {
      }
    }
  }

  /** The schema's enumerations are exactly the report's closed sets. */
  lemma SchemaEnumsAgree()
    ensures DeepfakeDetectionSchema.properties[9] == Property("overallVerdict", StringSchema(Some(VerdictValues)))
    ensures FrameClassificationSchema.properties[3] == Property("label", StringSchema(Some(LabelValues)))
  {
  }

  /** A required property of a conforming object is present and conforms to its own schema. */
  lemma ConformingProperty(j: Json, s: Schema, i: nat)
    requires s.ObjectSchema? && Conforms(j, s)
    requires i < |s.properties| && i < |s.required| && s.required[i] == s.properties[i].name
    ensures j.JObject? && s.properties[i].name in j.fields
    ensures Conforms(j.fields[s.properties[i].name], s.properties[i].schema)
  {
    assert s.required[i] in s.required;
  }

  /**
   * A conforming payload is an object with all fourteen top-level fields, a
   * verdict from the enum, and nested values that conform to their own schemas.
   */
  lemma ConformingTopLevel(j: Json)
    requires Conforms(j, DeepfakeDetectionSchema)
    ensures j.JObject?
    ensures forall k :: k in ReportFieldNames ==> k in j.fields
    ensures "overallVerdict" in j.fields
            && j.fields["overallVerdict"].JString? && IsVerdict(j.fields["overallVerdict"].s)
    ensures "caseOverview" in j.fields && Conforms(j.fields["caseOverview"], CaseOverviewSchema)
    ensures "videoFileMetadata" in j.fields && Conforms(j.fields["videoFileMetadata"], VideoFileMetadataSchema)
    ensures "detectionParameters" in j.fields
            && Conforms(j.fields["detectionParameters"], DetectionParametersSchema)
    ensures "frameLevelClassification" in j.fields
            && Conforms(j.fields["frameLevelClassification"], ArraySchema(FrameClassificationSchema))
  {
    SchemaListsAgree();
    var s := DeepfakeDetectionSchema;
    ConformingProperty(j, s, 5);
    ConformingProperty(j, s, 6);
    ConformingProperty(j, s, 7);
    ConformingProperty(j, s, 8);
    ConformingProperty(j, s, 9);
  }

  /** `caseOverview` requires its three fields, all strings. */
  lemma ConformingCaseOverview(c: Json)
    requires Conforms(c, CaseOverviewSchema)
    ensures c.JObject?
    ensures "caseReference" in c.fields && c.fields["caseReference"].JString?
    ensures "sourceOfVideo" in c.fields && c.fields["sourceOfVideo"].JString?
    ensures "suspectedContentType" in c.fields && c.fields["suspectedContentType"].JString?
  {
    ConformingProperty(c, CaseOverviewSchema, 0);
    ConformingProperty(c, CaseOverviewSchema, 1);
    ConformingProperty(c, CaseOverviewSchema, 2);
  }

  /** `videoFileMetadata` requires all six fields, `md5Hash` among them, all strings. */
  lemma ConformingVideoMetadata(v: Json)
    requires Conforms(v, VideoFileMetadataSchema)
    ensures v.JObject?
    ensures "fileName" in v.fields && v.fields["fileName"].JString?
    ensures "fileFormat" in v.fields && v.fields["fileFormat"].JString?
    ensures "duration" in v.fields && v.fields["duration"].JString?
    ensures "frameRate" in v.fields && v.fields["frameRate"].JString?
    ensures "md5Hash" in v.fields && v.fields["md5Hash"].JString?
    ensures "dateOfFileCreation" in v.fields && v.fields["dateOfFileCreation"].JString?
  {
    ConformingProperty(v, VideoFileMetadataSchema, 0);
    ConformingProperty(v, VideoFileMetadataSchema, 1);
    ConformingProperty(v, VideoFileMetadataSchema, 2);
    ConformingProperty(v, VideoFileMetadataSchema, 3);
    ConformingProperty(v, VideoFileMetadataSchema, 4);
    ConformingProperty(v, VideoFileMetadataSchema, 5);
  }

  /** `detectionParameters` requires its four fields; `classificationThreshold` is a number. */
  lemma ConformingDetectionParameters(p: Json)
    requires Conforms(p, DetectionParametersSchema)
    ensures p.JObject?
    ensures "frameSamplingRate" in p.fields && p.fields["frameSamplingRate"].JString?
    ensures "facialLandmarkDetection" in p.fields && p.fields["facialLandmarkDetection"].JString?
    ensures "audioVisualSyncCheck" in p.fields && p.fields["audioVisualSyncCheck"].JString?
    ensures "classificationThreshold" in p.fields && p.fields["classificationThreshold"].JNumber?
  {
    ConformingProperty(p, DetectionParametersSchema, 0);
    ConformingProperty(p, DetectionParametersSchema, 1);
    ConformingProperty(p, DetectionParametersSchema, 2);
    ConformingProperty(p, DetectionParametersSchema, 3);
  }

  /** Every frame entry requires its four fields, and its label is from the enum. */
  lemma ConformingFrame(f: Json)
    requires Conforms(f, FrameClassificationSchema)
    ensures f.JObject?
    ensures "frameNumber" in f.fields && f.fields["frameNumber"].JNumber?
    ensures "timestamp" in f.fields && f.fields["timestamp"].JString?
    ensures "confidence" in f.fields && f.fields["confidence"].JNumber?
    ensures "label" in f.fields && f.fields["label"].JString? && IsLabel(f.fields["label"].s)
  {
    ConformingProperty(f, FrameClassificationSchema, 0);
    ConformingProperty(f, FrameClassificationSchema, 1);
    ConformingProperty(f, FrameClassificationSchema, 2);
    ConformingProperty(f, FrameClassificationSchema, 3);
  }

  // ---------------------------------------------------------------------------
  // Payloads and reports

  /** The declared fields of a payload read only if all fourteen are present. */
  lemma DeclaredFieldsPresent(j: Json)
    requires DeclaredFromJson(j).Some?
    ensures j.JObject? && forall k :: k in ReportFieldNames ==> k in j.fields
  {
  }

  /** A payload reads as a report only if all fourteen top-level fields are present. */
  lemma DecodedPayloadHasAllFields(j: Json)
    requires ReportFromJson(j).Some?
    ensures j.JObject? && forall k :: k in ReportFieldNames ==> k in j.fields
  {
    ReportFromDeclared(j);
    DeclaredFieldsPresent(j);
  }

  /**
   * A payload that reads as a report carries `temporalConsistency` exactly
   * when the payload holds it as an object with a numeric `score` and a
   * string `interpretation`, and then carries those two values.
   */
  lemma TemporalSectionRead(j: Json)
    requires ReportFromJson(j).Some?
    ensures var t := ReportFromJson(j).value.temporalConsistency;
            && (t.Some? <==>
                  && "temporalConsistency" in j.fields && j.fields["temporalConsistency"].JObject?
                  && "score" in j.fields["temporalConsistency"].fields
                  && j.fields["temporalConsistency"].fields["score"].JNumber?
                  && "interpretation" in j.fields["temporalConsistency"].fields
                  && j.fields["temporalConsistency"].fields["interpretation"].JString?)
            && (t.Some? ==>
                  && t.value.score == j.fields["temporalConsistency"].fields["score"].n
                  && t.value.interpretation == j.fields["temporalConsistency"].fields["interpretation"].s)
  {
  }

  /**
   * A payload that reads as a report carries `audioVisualSync` exactly when
   * the payload holds it as an object with a numeric `deviationIndex` and a
   * string `observation`, and then carries those two values.
   */
  lemma SyncSectionRead(j: Json)
    requires ReportFromJson(j).Some?
    ensures var a := ReportFromJson(j).value.audioVisualSync;
            && (a.Some? <==>
                  && "audioVisualSync" in j.fields && j.fields["audioVisualSync"].JObject?
                  && "deviationIndex" in j.fields["audioVisualSync"].fields
                  && j.fields["audioVisualSync"].fields["deviationIndex"].JNumber?
                  && "observation" in j.fields["audioVisualSync"].fields
                  && j.fields["audioVisualSync"].fields["observation"].JString?)
            && (a.Some? ==>
                  && a.value.deviationIndex == j.fields["audioVisualSync"].fields["deviationIndex"].n
                  && a.value.observation == j.fields["audioVisualSync"].fields["observation"].s)
  {
  }

  /**
   * A payload that reads as a report carries `detailedSummary` exactly when
   * the payload holds it as an object with numeric `confidenceScore` and
   * `operationalThreshold` and a string `content`, and then carries those values.
   */
  lemma DetailSectionRead(j: Json)
    requires ReportFromJson(j).Some?
    ensures var d := ReportFromJson(j).value.detailedSummary;
            && (d.Some? <==>
                  && "detailedSummary" in j.fields && j.fields["detailedSummary"].JObject?
                  && "confidenceScore" in j.fields["detailedSummary"].fields
                  && j.fields["detailedSummary"].fields["confidenceScore"].JNumber?
                  && "operationalThreshold" in j.fields["detailedSummary"].fields
                  && j.fields["detailedSummary"].fields["operationalThreshold"].JNumber?
                  && "content" in j.fields["detailedSummary"].fields
                  && j.fields["detailedSummary"].fields["content"].JString?)
            && (d.Some? ==>
                  && d.value.confidenceScore == j.fields["detailedSummary"].fields["confidenceScore"].n
                  && d.value.operationalThreshold == j.fields["detailedSummary"].fields["operationalThreshold"].n
                  && d.value.content == j.fields["detailedSummary"].fields["content"].s)
  {
  }

  /** The five identifying strings of a conforming payload are present and are strings. */
  lemma ConformingHeaderFields(j: Json)
    requires Conforms(j, DeepfakeDetectionSchema)
    ensures j.JObject?
    ensures StringField(j.fields, "reportId").Some? && StringField(j.fields, "preparedBy").Some?
    ensures StringField(j.fields, "dateOfAnalysis").Some? && StringField(j.fields, "toolModelUsed").Some?
    ensures StringField(j.fields, "detectionEngineVersion").Some?
  {
    var s := DeepfakeDetectionSchema;
    SchemaListsAgree();
    ConformingProperty(j, s, 0);
    ConformingProperty(j, s, 1);
    ConformingProperty(j, s, 2);
    ConformingProperty(j, s, 3);
    ConformingProperty(j, s, 4);
  }

  /** The verdict and the four aggregates of a conforming payload are present with their JSON types. */
  lemma ConformingSummaryFields(j: Json)
    requires Conforms(j, DeepfakeDetectionSchema)
    ensures j.JObject?
    ensures StringField(j.fields, "overallVerdict").Some? && NumberField(j.fields, "averageConfidence").Some?
    ensures NumberField(j.fields, "totalFramesAnalyzed").Some? && NumberField(j.fields, "fakeFramesDetected").Some?
    ensures NumberField(j.fields, "realFramesDetected").Some?
  {
    var s := DeepfakeDetectionSchema;
    SchemaListsAgree();
    ConformingProperty(j, s, 9);
    ConformingProperty(j, s, 10);
    ConformingProperty(j, s, 11);
    ConformingProperty(j, s, 12);
    ConformingProperty(j, s, 13);
  }

  /** The frame array of a conforming payload reads in full, and every label is from the enum. */
  lemma ConformingFramesDecode(a: Json)
    requires Conforms(a, ArraySchema(FrameClassificationSchema))
    ensures FramesFromJson(a.items).Some?
    ensures forall i :: 0 <= i < |FramesFromJson(a.items).value| ==> IsLabel(FramesFromJson(a.items).value[i].frameLabel)
  {
    forall i | 0 <= i < |a.items|
      ensures FrameFromJson(a.items[i]).Some? && IsLabel(FrameFromJson(a.items[i]).value.frameLabel)
    {
      ConformingFrame(a.items[i]);
    }
  }

  /** The three nested objects of a conforming payload read in full. */
  lemma ConformingNestedFields(j: Json)
    requires Conforms(j, DeepfakeDetectionSchema)
    ensures j.JObject?
    ensures ObjectField(j.fields, "caseOverview").Some?
    ensures CaseOverviewFromJson(ObjectField(j.fields, "caseOverview").value).Some?
    ensures ObjectField(j.fields, "videoFileMetadata").Some?
    ensures VideoMetadataFromJson(ObjectField(j.fields, "videoFileMetadata").value).Some?
    ensures ObjectField(j.fields, "detectionParameters").Some?
    ensures DetectionParametersFromJson(ObjectField(j.fields, "detectionParameters").value).Some?
  {
    var s := DeepfakeDetectionSchema;
    SchemaListsAgree();
    ConformingProperty(j, s, 5);
    ConformingProperty(j, s, 6);
    ConformingProperty(j, s, 7);
    ConformingCaseOverview(j.fields["caseOverview"]);
    ConformingVideoMetadata(j.fields["videoFileMetadata"]);
    ConformingDetectionParameters(j.fields["detectionParameters"]);
  }

  /** The frame array of a conforming payload reads in full, and every label is from the enum. */
  lemma ConformingFrameField(j: Json)
    requires Conforms(j, DeepfakeDetectionSchema)
    ensures j.JObject?
    ensures "frameLevelClassification" in j.fields && j.fields["frameLevelClassification"].JArray?
    ensures var frames := FramesFromJson(j.fields["frameLevelClassification"].items);
            && frames.Some?
            && forall i :: 0 <= i < |frames.value| ==> IsLabel(frames.value[i].frameLabel)
  {
    SchemaListsAgree();
    ConformingProperty(j, DeepfakeDetectionSchema, 8);
    ConformingFramesDecode(j.fields["frameLevelClassification"]);
  }

  /** A payload that conforms to the schema reads as a report whose enumerations hold. */
  lemma ConformingPayloadDecodes(j: Json)
    requires Conforms(j, DeepfakeDetectionSchema)
    ensures ReportFromJson(j).Some?
    ensures EnumsValid(ReportFromJson(j).value)
  {
    ConformingHeaderFields(j);
    ConformingNestedFields(j);
    ConformingFrameField(j);
    ConformingSummaryFields(j);
    ConformingTopLevel(j);
    ReportFromDeclared(j);
  }

  lemma FrameRoundTrip(fr: FrameClassification)
    ensures FrameFromJson(FrameToJson(fr)) == Some(fr)
  {
  }

  lemma {:induction false} FramesRoundTrip(frames: seq<FrameClassification>)
    ensures FramesFromJson(FramesToJson(frames)) == Some(frames)
  {
    if frames != [] {
      var items := FramesToJson(frames);
      assert items[0] == FrameToJson(frames[0]);
      assert items[1..] == FramesToJson(frames[1..]);
      FrameRoundTrip(frames[0]);
      FramesRoundTrip(frames[1..]);
      assert [frames[0]] + frames[1..] == frames;
    }
  }

  lemma CaseOverviewRoundTrip(c: CaseOverview)
    ensures CaseOverviewFromJson(CaseOverviewToJson(c).fields) == Some(c)
  {
  }

  lemma VideoMetadataRoundTrip(v: VideoMetadata)
    ensures VideoMetadataFromJson(VideoMetadataToJson(v).fields) == Some(v)
  {
  }

  lemma DetectionParametersRoundTrip(p: DetectionParameters)
    ensures DetectionParametersFromJson(DetectionParametersToJson(p).fields) == Some(p)
  {
  }

  /** The id of the written payload is the report's own. */
  lemma EncodedIdField(r: DeepfakeAnalysisReport)
    ensures ReportToJson(r).JObject?
    ensures StringField(ReportToJson(r).fields, "reportId") == Some(r.reportId)
  {
  }

  /** The author of the written payload is the report's own. */
  lemma EncodedHeaderFields(r: DeepfakeAnalysisReport)
    ensures ReportToJson(r).JObject?
    ensures StringField(ReportToJson(r).fields, "preparedBy") == Some(r.preparedBy)
  {
  }

  /** The analysis date of the written payload is the report's own. */
  lemma EncodedDateField(r: DeepfakeAnalysisReport)
    ensures ReportToJson(r).JObject?
    ensures StringField(ReportToJson(r).fields, "dateOfAnalysis") == Some(r.dateOfAnalysis)
  {
  }

  /** The remaining identifying strings of the written payload hold the report's own. */
  lemma EncodedToolFields(r: DeepfakeAnalysisReport)
    ensures ReportToJson(r).JObject?
    ensures StringField(ReportToJson(r).fields, "toolModelUsed") == Some(r.toolModelUsed)
    ensures StringField(ReportToJson(r).fields, "detectionEngineVersion") == Some(r.detectionEngineVersion)
  {
  }

  /** The case and file objects of the written payload encode the report's own. */
  lemma EncodedNestedFields(r: DeepfakeAnalysisReport)
    ensures ReportToJson(r).JObject?
    ensures ObjectField(ReportToJson(r).fields, "caseOverview") == Some(CaseOverviewToJson(r.caseOverview).fields)
    ensures ObjectField(ReportToJson(r).fields, "videoFileMetadata") == Some(VideoMetadataToJson(r.videoFileMetadata).fields)
  {
  }

  /** The parameters object and the frame array of the written payload encode the report's own. */
  lemma EncodedAnalysisFields(r: DeepfakeAnalysisReport)
    ensures ReportToJson(r).JObject?
    ensures ObjectField(ReportToJson(r).fields, "detectionParameters") == Some(DetectionParametersToJson(r.detectionParameters).fields)
    ensures "frameLevelClassification" in ReportToJson(r).fields
    ensures ReportToJson(r).fields["frameLevelClassification"] == JArray(FramesToJson(r.frameLevelClassification))
  {
  }

  /** The verdict and the four aggregates of the written payload hold the report's own. */
  lemma EncodedSummaryFields(r: DeepfakeAnalysisReport)
    ensures ReportToJson(r).JObject?
    ensures StringField(ReportToJson(r).fields, "overallVerdict") == Some(r.overallVerdict)
    ensures NumberField(ReportToJson(r).fields, "averageConfidence") == Some(r.averageConfidence)
    ensures NumberField(ReportToJson(r).fields, "totalFramesAnalyzed") == Some(r.totalFramesAnalyzed)
    ensures NumberField(ReportToJson(r).fields, "fakeFramesDetected") == Some(r.fakeFramesDetected)
    ensures NumberField(ReportToJson(r).fields, "realFramesDetected") == Some(r.realFramesDetected)
  {
  }

  /** The written payload has none of the three optional sections. */
  lemma EncodedOmitsSections(r: DeepfakeAnalysisReport)
    ensures ReportToJson(r).JObject?
    ensures "temporalConsistency" !in ReportToJson(r).fields
    ensures "audioVisualSync" !in ReportToJson(r).fields
    ensures "detailedSummary" !in ReportToJson(r).fields
  {
  }

  /** Writing a report as a payload and reading it back loses only the undeclared sections. */
  lemma JsonRoundTrip(r: DeepfakeAnalysisReport)
    ensures ReportFromJson(ReportToJson(r)) == Some(WithoutExtras(r))
  {
    EncodedIdField(r);
    EncodedHeaderFields(r);
    EncodedDateField(r);
    EncodedToolFields(r);
    EncodedNestedFields(r);
    EncodedAnalysisFields(r);
    EncodedSummaryFields(r);
    EncodedOmitsSections(r);
    FramesRoundTrip(r.frameLevelClassification);
    CaseOverviewRoundTrip(r.caseOverview);
    VideoMetadataRoundTrip(r.videoFileMetadata);
    DetectionParametersRoundTrip(r.detectionParameters);
  }

  /** A written frame conforms to the frame schema exactly when its label is from the enum. */
  lemma FrameConformsIff(fr: FrameClassification)
    ensures Conforms(FrameToJson(fr), FrameClassificationSchema) <==> IsLabel(fr.frameLabel)
  {
    var j := FrameToJson(fr);
    if Conforms(j, FrameClassificationSchema) {
      ConformingFrame(j);
    }
    if IsLabel(fr.frameLabel) {
      var props := FrameClassificationSchema.properties;
      forall i | 0 <= i < |props|
        ensures props[i].name in j.fields && Conforms(j.fields[props[i].name], props[i].schema)
      {
        if i == 0 {} else if i == 1 {} else if i == 2 {} else {}
      }
    }
  }

  /** The written frame array conforms exactly when every frame's label is from the enum. */
  lemma FramesConformIff(frames: seq<FrameClassification>)
    ensures Conforms(JArray(FramesToJson(frames)), ArraySchema(FrameClassificationSchema))
            <==> forall i :: 0 <= i < |frames| ==> IsLabel(frames[i].frameLabel)
  {
    var items := FramesToJson(frames);
    if Conforms(JArray(items), ArraySchema(FrameClassificationSchema)) {
      forall i | 0 <= i < |frames| ensures IsLabel(frames[i].frameLabel) {
        assert Conforms(items[i], FrameClassificationSchema);
        FrameConformsIff(frames[i]);
      }
    }
    if forall i :: 0 <= i < |frames| ==> IsLabel(frames[i].frameLabel) {
      forall i | 0 <= i < |items| ensures Conforms(items[i], FrameClassificationSchema) {
        FrameConformsIff(frames[i]);
      }
    }
  }

  /** The three written nested objects conform to their schemas, whatever their contents. */
  lemma NestedEncodingsConform(r: DeepfakeAnalysisReport)
    ensures Conforms(CaseOverviewToJson(r.caseOverview), CaseOverviewSchema)
    ensures Conforms(VideoMetadataToJson(r.videoFileMetadata), VideoFileMetadataSchema)
    ensures Conforms(DetectionParametersToJson(r.detectionParameters), DetectionParametersSchema)
  {
    var c := CaseOverviewToJson(r.caseOverview);
    var cp := CaseOverviewSchema.properties;
    forall i | 0 <= i < |cp| ensures cp[i].name in c.fields && Conforms(c.fields[cp[i].name], cp[i].schema) {
      if i == 0 {} else if i == 1 {} else {}
    }
    var v := VideoMetadataToJson(r.videoFileMetadata);
    var vp := VideoFileMetadataSchema.properties;
    forall i | 0 <= i < |vp| ensures vp[i].name in v.fields && Conforms(v.fields[vp[i].name], vp[i].schema) {
      if i == 0 {} else if i == 1 {} else if i == 2 {} else if i == 3 {} else if i == 4 {} else {}
    }
    var d := DetectionParametersToJson(r.detectionParameters);
    var dp := DetectionParametersSchema.properties;
    forall i | 0 <= i < |dp| ensures dp[i].name in d.fields && Conforms(d.fields[dp[i].name], dp[i].schema) {
      if i == 0 {} else if i == 1 {} else if i == 2 {} else {}
    }
  }

  /** The written report has property `p`, and its value conforms to `p`'s schema. */
  predicate PropertyEncoded(r: DeepfakeAnalysisReport, p: Property)
  {
    p.name in ReportToJson(r).fields && Conforms(ReportToJson(r).fields[p.name], p.schema)
  }

  /** The id, author and date of a written report conform. */
  lemma EncodedIdentityConforms(r: DeepfakeAnalysisReport)
    ensures forall i :: 0 <= i < 3 ==> PropertyEncoded(r, DeepfakeDetectionSchema.properties[i])
  {
    EncodedIdField(r);
    EncodedHeaderFields(r);
    EncodedDateField(r);
    forall i | 0 <= i < 3 ensures PropertyEncoded(r, DeepfakeDetectionSchema.properties[i]) {
      if i == 0 {} else if i == 1 {} else {}
    }
  }

  /** The tool and engine version of a written report conform. */
  lemma EncodedToolConforms(r: DeepfakeAnalysisReport)
    ensures forall i :: 3 <= i < 5 ==> PropertyEncoded(r, DeepfakeDetectionSchema.properties[i])
  {
    EncodedToolFields(r);
    forall i | 3 <= i < 5 ensures PropertyEncoded(r, DeepfakeDetectionSchema.properties[i]) {
      if i == 3 {} else {}
    }
  }

  /** The case and file objects of a written report conform. */
  lemma EncodedObjectsConform(r: DeepfakeAnalysisReport)
    ensures forall i :: 5 <= i < 7 ==> PropertyEncoded(r, DeepfakeDetectionSchema.properties[i])
  {
    EncodedNestedFields(r);
    NestedEncodingsConform(r);
    forall i | 5 <= i < 7 ensures PropertyEncoded(r, DeepfakeDetectionSchema.properties[i]) {
      if i == 5 {} else {}
    }
  }

  /** The parameters of a written report conform, and its frames do when their labels are valid. */
  lemma EncodedAnalysisConforms(r: DeepfakeAnalysisReport)
    requires EnumsValid(r)
    ensures forall i :: 7 <= i < 9 ==> PropertyEncoded(r, DeepfakeDetectionSchema.properties[i])
  {
    EncodedAnalysisFields(r);
    NestedEncodingsConform(r);
    FramesConformIff(r.frameLevelClassification);
    forall i | 7 <= i < 9 ensures PropertyEncoded(r, DeepfakeDetectionSchema.properties[i]) {
      if i == 7 {} else {}
    }
  }

  /** The verdict and average of a written report conform when the verdict is valid. */
  lemma EncodedVerdictConforms(r: DeepfakeAnalysisReport)
    requires EnumsValid(r)
    ensures forall i :: 9 <= i < 11 ==> PropertyEncoded(r, DeepfakeDetectionSchema.properties[i])
  {
    EncodedSummaryFields(r);
    forall i | 9 <= i < 11 ensures PropertyEncoded(r, DeepfakeDetectionSchema.properties[i]) {
      if i == 9 {} else {}
    }
  }

  /** The frame counts of a written report conform. */
  lemma EncodedCountsConform(r: DeepfakeAnalysisReport)
    ensures forall i :: 11 <= i < 14 ==> PropertyEncoded(r, DeepfakeDetectionSchema.properties[i])
  {
    EncodedSummaryFields(r);
    forall i | 11 <= i < 14 ensures PropertyEncoded(r, DeepfakeDetectionSchema.properties[i]) {
      if i == 11 {} else if i == 12 {} else {}
    }
  }

  /** Every listed property of a written report is present and, when the enumerations hold, conforms. */
  lemma EncodedPropertiesConform(r: DeepfakeAnalysisReport)
    requires EnumsValid(r)
    ensures ReportToJson(r).JObject?
    ensures forall i :: 0 <= i < |DeepfakeDetectionSchema.properties| ==>
              PropertyEncoded(r, DeepfakeDetectionSchema.properties[i])
  {
    EncodedIdentityConforms(r);
    EncodedToolConforms(r);
    EncodedObjectsConform(r);
    EncodedAnalysisConforms(r);
    EncodedVerdictConforms(r);
    EncodedCountsConform(r);
  }

  /** A written report whose enumerations hold conforms to the schema. */
  lemma EncodedConforms(r: DeepfakeAnalysisReport)
    requires EnumsValid(r)
    ensures Conforms(ReportToJson(r), DeepfakeDetectionSchema)
  {
    var j := ReportToJson(r);
    var props := DeepfakeDetectionSchema.properties;
    EncodedPropertiesConform(r);
    SchemaListsAgree();
    forall k | k in DeepfakeDetectionSchema.required ensures k in j.fields {
      var i :| 0 <= i < 14 && ReportFieldNames[i] == k;
      assert PropertyNames(props)[i] == k;
    }
  }

  /** The payload written for a report conforms to the schema exactly when its enumerations hold. */
  lemma EncodedConformsIff(r: DeepfakeAnalysisReport)
    ensures Conforms(ReportToJson(r), DeepfakeDetectionSchema) <==> EnumsValid(r)
  {
    var j := ReportToJson(r);
    if Conforms(j, DeepfakeDetectionSchema) {
      ConformingTopLevel(j);
      EncodedAnalysisFields(r);
      EncodedSummaryFields(r);
      FramesConformIff(r.frameLevelClassification);
    }
    if EnumsValid(r) {
      EncodedConforms(r);
    }
  }
}
