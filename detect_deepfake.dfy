/**
 * The ingest route (src/app/api/detect-deepfake/route.ts, `POST`): upload
 * checks, the call to the classification service, the duplicate-key retry
 * loop that saves the log, and the mapping of thrown errors to responses.
 *
 * The service (src/lib/gemini.ts) is an oracle: the configured API key, the
 * reply it gave and the MD5 fingerprint of the upload are inputs. The store's
 * clock at the first save is an input too, and so are `new Date()`,
 * `Math.random()` and write failures, one `Attempt` per pass of the retry loop.
 */
module DetectDeepfake {
  import opened Wrappers
  import opened Text
  import opened DeepfakeTypes
  import opened DetectionSchema
  import opened AnalysisLogModel
  import opened ReportId

  const MaxFileSize: nat := 50 * 1024 * 1024

  const AllowedVideoTypes: seq<string> := ["video/mp4", "video/avi", "video/mov", "video/webm"]
  const AllowedImageTypes: seq<string> := ["image/jpeg", "image/jpg", "image/png", "image/webp"]

  const NoFileMessage := "No file provided"
  const TooLargeMessage := "File size too large. Maximum size is 50MB"
  const BadTypeMessage :=
    "Invalid file type. Supported formats: MP4, AVI, MOV, WebM for videos; JPEG, PNG, WebP for images"
  // Written as two literals: `ErrorResponseIff` reads its second character,
  // which the verifier cannot do on a single literal this long.
  const ConfigErrorMessage := "API configuration error." + " Please check server configuration."
  const AnalysisFailedPrefix := "Analysis failed: "
  const UnexpectedErrorMessage := "An unexpected error occurred during analysis"

  /** The messages of the errors the service wrapper throws. */
  const MissingKeyMessage := "GEMINI_API_KEY is not configured"
  const ServiceFailedMessage := "Failed to analyze media for deepfake detection"

  const MaxRetries: nat := 3

  /** The `file` form field. */
  datatype Upload = Upload(name: string, size: nat, mimeType: string)

  datatype HttpError = HttpError(status: int, message: string)

  // ---------------------------------------------------------------------------
  // Upload checks

  function ValidateUpload(file: Option<Upload>): Result<Upload, HttpError>
  {
    if file.None? then Failure(HttpError(400, NoFileMessage))
    else if file.value.size > MaxFileSize then Failure(HttpError(400, TooLargeMessage))
    else if !(file.value.mimeType in AllowedVideoTypes) && !(file.value.mimeType in AllowedImageTypes)
    then Failure(HttpError(400, BadTypeMessage))
    else Success(file.value)
  }

  /** An upload is accepted exactly when it is present, at most 50 MiB, and of one of the eight types. */
  lemma UploadAcceptedIff(file: Option<Upload>)
    ensures ValidateUpload(file).Success? <==>
              && file.Some?
              && file.value.size <= MaxFileSize
              && (file.value.mimeType in AllowedVideoTypes || file.value.mimeType in AllowedImageTypes)
    ensures ValidateUpload(file).Success? ==> ValidateUpload(file).value == file.value
    ensures ValidateUpload(file).Failure? ==> ValidateUpload(file).error.status == 400
  {
  }

  /** The checks run in order: a missing file, then the size, then the type. */
  lemma UploadCheckOrder(file: Option<Upload>)
    ensures file.None? ==> ValidateUpload(file) == Failure(HttpError(400, NoFileMessage))
    ensures file.Some? && file.value.size > MaxFileSize ==>
              ValidateUpload(file) == Failure(HttpError(400, TooLargeMessage))
    ensures file.Some? && file.value.size <= MaxFileSize && ValidateUpload(file).Failure? ==>
              ValidateUpload(file) == Failure(HttpError(400, BadTypeMessage))
  {
  }

  /** 52428800 bytes is the largest accepted size. */
  lemma SizeBoundary(name: string, mimeType: string)
    requires mimeType in AllowedVideoTypes || mimeType in AllowedImageTypes
    ensures MaxFileSize == 52428800
    ensures ValidateUpload(Some(Upload(name, 52428800, mimeType))).Success?
    ensures ValidateUpload(Some(Upload(name, 52428801, mimeType))) == Failure(HttpError(400, TooLargeMessage))
  {
  }

  // ---------------------------------------------------------------------------
  // The classification service

  /** What the service returned: no text, text that is not JSON, or a JSON payload. */
  datatype ModelReply = NoText | Unparsable | Payload(json: Json)

  /**
   * `result.videoFileMetadata.md5Hash = md5Hash` on the parsed reply. The
   * assignment throws unless the reply is an object whose `videoFileMetadata`
   * is an object: the field is `undefined` otherwise, or a primitive, whose
   * properties cannot be set in a class body. Whatever `md5Hash` the reply
   * held, or its absence, is overwritten with the upload's fingerprint.
   */
  function WithFingerprint(j: Json, fingerprint: string): Option<Json>
  {
    if j.JObject? && "videoFileMetadata" in j.fields && j.fields["videoFileMetadata"].JObject? then
      var v := j.fields["videoFileMetadata"].fields;
      Some(JObject(j.fields["videoFileMetadata" := JObject(v["md5Hash" := JString(fingerprint)])]))
    else None
  }

  /**
   * `new GeminiClient().analyzeMedia(...)`: the constructor throws when the key
   * is unset or empty; every failure inside `analyzeMedia` is rethrown as one
   * generic error; the parsed reply has its `md5Hash` overwritten with the
   * upload's fingerprint before it is returned. The `Failure` carries the
   * thrown error's message.
   */
  function AnalyzeMedia(apiKey: Option<string>, reply: ModelReply, fingerprint: string)
    : Result<DeepfakeAnalysisReport, string>
  {
    if apiKey.None? || apiKey.value == "" then Failure(MissingKeyMessage)
    else if !reply.Payload? then Failure(ServiceFailedMessage)
    else match WithFingerprint(reply.json, fingerprint)
      case None => Failure(ServiceFailedMessage)
      case Some(j) =>
        match ReportFromJson(j)
        case None => Failure(ServiceFailedMessage)
        case Some(r) => Success(r)
  }

  /**
   * With the hash overwritten, the file metadata reads exactly when its five
   * other fields are strings: the reply's own `md5Hash` is not needed.
   */
  lemma FingerprintedMetadata(v: map<string, Json>, fingerprint: string)
    ensures VideoMetadataFromJson(v["md5Hash" := JString(fingerprint)]).Some? <==>
              && StringField(v, "fileName").Some? && StringField(v, "fileFormat").Some?
              && StringField(v, "duration").Some? && StringField(v, "frameRate").Some?
              && StringField(v, "dateOfFileCreation").Some?
  {
    var w := v["md5Hash" := JString(fingerprint)];
    assert StringField(w, "md5Hash") == Some(fingerprint);
  }

  /** Metadata read after the overwrite has the fingerprint as its hash. */
  lemma FingerprintedMetadataHash(v: map<string, Json>, fingerprint: string)
    ensures var m := VideoMetadataFromJson(v["md5Hash" := JString(fingerprint)]);
            m.Some? ==> m.value.md5Hash == fingerprint
  {
    var w := v["md5Hash" := JString(fingerprint)];
    assert StringField(w, "md5Hash") == Some(fingerprint);
  }

  /** Metadata that read before the overwrite reads the same after it, but for the hash. */
  lemma FingerprintedMetadataKept(v: map<string, Json>, fingerprint: string)
    requires VideoMetadataFromJson(v).Some?
    ensures VideoMetadataFromJson(v["md5Hash" := JString(fingerprint)])
            == Some(VideoMetadataFromJson(v).value.(md5Hash := fingerprint))
  {
    var w := v["md5Hash" := JString(fingerprint)];
    assert StringField(w, "md5Hash") == Some(fingerprint);
  }

  /** A fingerprinted reply that reads as a report carries the fingerprint. */
  lemma FingerprintedHash(j: Json, fingerprint: string)
    requires WithFingerprint(j, fingerprint).Some?
    ensures var r := ReportFromJson(WithFingerprint(j, fingerprint).value);
            r.Some? ==> r.value.videoFileMetadata.md5Hash == fingerprint
  {
    var v := j.fields["videoFileMetadata"].fields;
    var g := WithFingerprint(j, fingerprint).value;
    ReportFromDeclared(g);
    if DeclaredFromJson(g).Some? {
      MetadataOfReport(g);
      assert ObjectField(g.fields, "videoFileMetadata") == Some(v["md5Hash" := JString(fingerprint)]);
      FingerprintedMetadataHash(v, fingerprint);
    }
  }

  /** A reply that read as a report before fingerprinting reads as the same report, hash replaced. */
  lemma FingerprintedReport(j: Json, fingerprint: string)
    requires WithFingerprint(j, fingerprint).Some? && ReportFromJson(j).Some?
    ensures var r0 := ReportFromJson(j).value;
            ReportFromJson(WithFingerprint(j, fingerprint).value)
              == Some(r0.(videoFileMetadata := r0.videoFileMetadata.(md5Hash := fingerprint)))
  {
    var f := j.fields;
    var g := WithFingerprint(j, fingerprint).value.fields;
    ReportFromDeclared(j);
    ReportFromDeclared(JObject(g));
    FingerprintKeepsFields(j, fingerprint);
    FingerprintKeepsSections(j, fingerprint);
    MetadataOfReport(j);
    FingerprintedMetadataKept(f["videoFileMetadata"].fields, fingerprint);
    DecodeWithMetadata(f, g, DeclaredFromJson(j).value.videoFileMetadata.(md5Hash := fingerprint));
  }

  /** Two field maps that agree on every top-level field but `videoFileMetadata`. */
  predicate SameOtherFields(f: map<string, Json>, g: map<string, Json>)
  {
    && StringField(g, "reportId") == StringField(f, "reportId")
    && StringField(g, "preparedBy") == StringField(f, "preparedBy")
    && StringField(g, "dateOfAnalysis") == StringField(f, "dateOfAnalysis")
    && StringField(g, "toolModelUsed") == StringField(f, "toolModelUsed")
    && StringField(g, "detectionEngineVersion") == StringField(f, "detectionEngineVersion")
    && StringField(g, "overallVerdict") == StringField(f, "overallVerdict")
    && NumberField(g, "averageConfidence") == NumberField(f, "averageConfidence")
    && NumberField(g, "totalFramesAnalyzed") == NumberField(f, "totalFramesAnalyzed")
    && NumberField(g, "fakeFramesDetected") == NumberField(f, "fakeFramesDetected")
    && NumberField(g, "realFramesDetected") == NumberField(f, "realFramesDetected")
    && ObjectField(g, "caseOverview") == ObjectField(f, "caseOverview")
    && ObjectField(g, "detectionParameters") == ObjectField(f, "detectionParameters")
    && ("frameLevelClassification" in g <==> "frameLevelClassification" in f)
    && ("frameLevelClassification" in f ==> g["frameLevelClassification"] == f["frameLevelClassification"])
  }

  /** Two field maps whose optional sections read the same. */
  predicate SameSections(f: map<string, Json>, g: map<string, Json>)
  {
    && TemporalFromJson(g) == TemporalFromJson(f)
    && SyncFromJson(g) == SyncFromJson(f)
    && DetailFromJson(g) == DetailFromJson(f)
  }

  /** The metadata of the declared fields read from a payload is its `videoFileMetadata` object, read. */
  lemma MetadataOfReport(j: Json)
    requires DeclaredFromJson(j).Some?
    ensures j.JObject? && ObjectField(j.fields, "videoFileMetadata").Some?
    ensures VideoMetadataFromJson(ObjectField(j.fields, "videoFileMetadata").value)
            == Some(DeclaredFromJson(j).value.videoFileMetadata)
  {
  }

  /**
   * A payload that agrees on all other fields with one whose declared fields
   * read, and whose metadata reads as `m`, reads as those fields with metadata `m`.
   */
  lemma DecodeWithMetadata(f: map<string, Json>, g: map<string, Json>, m: VideoMetadata)
    requires SameOtherFields(f, g)
    requires DeclaredFromJson(JObject(f)).Some?
    requires ObjectField(g, "videoFileMetadata").Some?
    requires VideoMetadataFromJson(ObjectField(g, "videoFileMetadata").value) == Some(m)
    ensures DeclaredFromJson(JObject(g)) == Some(DeclaredFromJson(JObject(f)).value.(videoFileMetadata := m))
  {
  }

  /** Fingerprinting changes `videoFileMetadata` and no other top-level field. */
  lemma FingerprintKeepsFields(j: Json, fingerprint: string)
    requires WithFingerprint(j, fingerprint).Some?
    ensures var g := WithFingerprint(j, fingerprint).value.fields;
            && ObjectField(g, "videoFileMetadata")
               == Some(j.fields["videoFileMetadata"].fields["md5Hash" := JString(fingerprint)])
            && SameOtherFields(j.fields, g)
  {
  }

  /** Fingerprinting leaves the three optional sections as they read. */
  lemma FingerprintKeepsSections(j: Json, fingerprint: string)
    requires WithFingerprint(j, fingerprint).Some?
    ensures SameSections(j.fields, WithFingerprint(j, fingerprint).value.fields)
  {
    var f := j.fields;
    var g := WithFingerprint(j, fingerprint).value.fields;
    assert ObjectField(g, "temporalConsistency") == ObjectField(f, "temporalConsistency");
    assert ObjectField(g, "audioVisualSync") == ObjectField(f, "audioVisualSync");
    assert ObjectField(g, "detailedSummary") == ObjectField(f, "detailedSummary");
  }

  /**
   * With a key configured, a reply that conforms to the response schema is
   * analysed: the report is the payload's, enums valid, hash replaced by the
   * fingerprint.
   */
  lemma ConformingReplyAnalyzed(key: string, j: Json, fingerprint: string)
    requires key != "" && Conforms(j, DeepfakeDetectionSchema)
    ensures AnalyzeMedia(Some(key), Payload(j), fingerprint).Success? && ReportFromJson(j).Some?
    ensures var r := AnalyzeMedia(Some(key), Payload(j), fingerprint).value;
            && EnumsValid(r)
            && r.videoFileMetadata.md5Hash == fingerprint
            && r.(videoFileMetadata := ReportFromJson(j).value.videoFileMetadata) == ReportFromJson(j).value
            && r.temporalConsistency == TemporalFromJson(j.fields)
            && r.audioVisualSync == SyncFromJson(j.fields)
            && r.detailedSummary == DetailFromJson(j.fields)
  {
    ConformingPayloadDecodes(j);
    ConformingTopLevel(j);
    FingerprintedReport(j, fingerprint);
    FingerprintedHash(j, fingerprint);
    ReportFromDeclared(j);
  }

  /**
   * An optional section the reply carries beyond the schema reaches the
   * analysis: a conforming reply that also holds a temporal-consistency
   * object with score 0.9 is analysed with that section.
   */
  lemma ConformingReplyKeepsTemporal(key: string, j: Json, fingerprint: string)
    requires key != "" && Conforms(j, DeepfakeDetectionSchema)
    requires "temporalConsistency" in j.fields
    requires j.fields["temporalConsistency"] == JObject(map["score" := JNumber(0.9), "interpretation" := JString("x")])
    ensures AnalyzeMedia(Some(key), Payload(j), fingerprint).Success?
    ensures AnalyzeMedia(Some(key), Payload(j), fingerprint).value.temporalConsistency
            == Some(TemporalConsistency(0.9, "x"))
  {
    ConformingReplyAnalyzed(key, j, fingerprint);
    var t := map["score" := JNumber(0.9), "interpretation" := JString("x")];
    assert NumberField(t, "score") == Some(0.9);
    assert StringField(t, "interpretation") == Some("x");
  }

  /**
   * The reply with its `videoFileMetadata.md5Hash` set to `h`, or removed when
   * `h` is `None`; other replies are left as they are.
   */
  function ReplaceReplyHash(j: Json, h: Option<Json>): Json
  {
    if j.JObject? && "videoFileMetadata" in j.fields && j.fields["videoFileMetadata"].JObject? then
      var v := j.fields["videoFileMetadata"].fields;
      var v2 := if h.Some? then v["md5Hash" := h.value] else v - {"md5Hash"};
      JObject(j.fields["videoFileMetadata" := JObject(v2)])
    else j
  }

  /**
   * The hash in the reply plays no part: a reply whose `md5Hash` is missing,
   * or of any type, is analysed exactly as the same reply with any other hash.
   */
  lemma ReplyHashIgnored(apiKey: Option<string>, j: Json, h: Option<Json>, fingerprint: string)
    ensures AnalyzeMedia(apiKey, Payload(ReplaceReplyHash(j, h)), fingerprint)
            == AnalyzeMedia(apiKey, Payload(j), fingerprint)
  {
    if j.JObject? && "videoFileMetadata" in j.fields && j.fields["videoFileMetadata"].JObject? {
      var v := j.fields["videoFileMetadata"].fields;
      var v2 := if h.Some? then v["md5Hash" := h.value] else v - {"md5Hash"};
      var f2 := j.fields["videoFileMetadata" := JObject(v2)];
      assert v2["md5Hash" := JString(fingerprint)] == v["md5Hash" := JString(fingerprint)];
      assert f2["videoFileMetadata" := JObject(v2["md5Hash" := JString(fingerprint)])]
             == j.fields["videoFileMetadata" := JObject(v["md5Hash" := JString(fingerprint)])];
      assert WithFingerprint(ReplaceReplyHash(j, h), fingerprint) == WithFingerprint(j, fingerprint);
    }
  }

  /** Any successful analysis carries the upload's fingerprint, never the model's hash. */
  lemma AnalysisCarriesFingerprint(apiKey: Option<string>, reply: ModelReply, fingerprint: string)
    requires AnalyzeMedia(apiKey, reply, fingerprint).Success?
    ensures AnalyzeMedia(apiKey, reply, fingerprint).value.videoFileMetadata.md5Hash == fingerprint
    ensures apiKey.Some? && apiKey.value != "" && reply.Payload?
  {
    FingerprintedHash(reply.json, fingerprint);
  }

  // ---------------------------------------------------------------------------
  // Errors thrown out of the route body

  datatype Thrown = ErrorThrown(message: string) | ValueThrown

  /** The outer `catch`: configuration errors, other `Error`s, anything else. */
  function ErrorResponse(e: Thrown): (r: HttpError)
    ensures r.status == 500
  {
    match e
    case ErrorThrown(m) =>
      if Contains(m, "GEMINI_API_KEY") then HttpError(500, ConfigErrorMessage)
      else HttpError(500, AnalysisFailedPrefix + m)
    case ValueThrown => HttpError(500, UnexpectedErrorMessage)
  }

  /** An `Error` maps to the configuration message iff its message names the key variable. */
  lemma ErrorResponseIff(m: string)
    ensures ErrorResponse(ErrorThrown(m)).message == ConfigErrorMessage <==> Contains(m, "GEMINI_API_KEY")
    ensures !Contains(m, "GEMINI_API_KEY") ==>
              ErrorResponse(ErrorThrown(m)).message == AnalysisFailedPrefix + m
  {
    if !Contains(m, "GEMINI_API_KEY") {
      assert AnalysisFailedPrefix[1] == 'n';
      assert (AnalysisFailedPrefix + m)[1] == 'n';
      assert ConfigErrorMessage[1] == 'P';
    }
  }

  /** A string without the first character of `t` does not contain `t`. */
  lemma NotContainsWithoutFirst(s: string, t: string)
    requires |t| > 0 && t[0] !in s
    ensures !Contains(s, t)
  {
    ContainsIff(s, t);
    forall i | 0 <= i <= |s| - |t| ensures !OccursAt(s, t, i) {
      assert s[i..i + |t|][0] == s[i];
    }
  }

  /** A missing key is reported as a configuration error. */
  lemma MissingKeyIsConfigError()
    ensures ErrorResponse(ErrorThrown(MissingKeyMessage)) == HttpError(500, ConfigErrorMessage)
  {
    assert MissingKeyMessage == "" + "GEMINI_API_KEY" + " is not configured";
    ContainsInfix("", "GEMINI_API_KEY", " is not configured");
  }

  /** A service failure is reported as an analysis failure carrying the wrapper's message. */
  lemma ServiceFailureIsAnalysisFailure()
    ensures ErrorResponse(ErrorThrown(ServiceFailedMessage))
            == HttpError(500, AnalysisFailedPrefix + ServiceFailedMessage)
  {
    assert 'G' !in "Failed to analyze media" && 'G' !in " for deepfake detection";
    NotContainsWithoutFirst(ServiceFailedMessage, "GEMINI_API_KEY");
  }

  // ---------------------------------------------------------------------------
  // Client information

  /** The header is present and not empty, so `||` keeps it. */
  predicate HeaderSet(h: map<string, string>, k: string)
  {
    k in h && h[k] != ""
  }

  /** `x-forwarded-for || x-real-ip || 'unknown'`. */
  function ClientIp(h: map<string, string>): (ip: string)
    ensures ip != ""
    ensures HeaderSet(h, "x-forwarded-for") ==> ip == h["x-forwarded-for"]
    ensures !HeaderSet(h, "x-forwarded-for") && HeaderSet(h, "x-real-ip") ==> ip == h["x-real-ip"]
    ensures !HeaderSet(h, "x-forwarded-for") && !HeaderSet(h, "x-real-ip") ==> ip == "unknown"
  {
    if HeaderSet(h, "x-forwarded-for") then h["x-forwarded-for"]
    else if HeaderSet(h, "x-real-ip") then h["x-real-ip"]
    else "unknown"
  }

  /** `user-agent || 'unknown'`. */
  function ClientUserAgent(h: map<string, string>): (ua: string)
    ensures ua != ""
    ensures ua == (if HeaderSet(h, "user-agent") then h["user-agent"] else "unknown")
  {
    if HeaderSet(h, "user-agent") then h["user-agent"] else "unknown"
  }

  // ---------------------------------------------------------------------------
  // The retry loop, as a specification

  /**
   * The environment of pass `k` of the loop: whether the write fails for a
   * reason other than validation or the unique index, and the `new Date()` and
   * `Math.random().toString(36)` used to mint the id for that pass when it is
   * a retry.
   */
  datatype Attempt = Attempt(writeFails: bool, clock: DateTime, random: string)

  datatype RetryOutcome = Persisted | Rethrown(error: SaveError)

  /** The collection afterwards, the id the last pass used, how many passes ran, how it ended. */
  datatype RetryTrace = RetryTrace(
    logs: seq<AnalysisLog>, finalId: string, attempts: nat, outcome: RetryOutcome)

  function WithReportId(d: LogDraft, id: string): LogDraft
  {
    d.(report := d.report.(reportId := id))
  }

  /**
   * The readings of every pass, and the id builder. Every pass saves the same
   * document object, so the timestamps are the store's clock at the first
   * `save()`: mongoose's `timestamps` option sets `createdAt` only while it is
   * unset and copies it into `updatedAt` on a new document, and a document
   * whose insert failed is still new. That one reading is `stampedAt`.
   * The route uses `MintReportId`; the loop's properties hold for any builder,
   * so they are stated for an arbitrary one.
   */
  datatype RetryEnv = RetryEnv(stampedAt: int, pass: nat -> Attempt, mint: (DateTime, string) -> string)

  /** The id a retry with pass number `k` mints. */
  function RetryId(env: RetryEnv, k: nat): string
  {
    env.mint(env.pass(k).clock, env.pass(k).random)
  }

  /** The loop from pass `retryCount` on, with the draft it is about to save. */
  function RetryRun(logs: seq<AnalysisLog>, d: LogDraft, env: RetryEnv, retryCount: nat): RetryTrace
    requires retryCount < MaxRetries
    decreases MaxRetries - retryCount
  {
    var res := Insert(logs, d, env.stampedAt, env.pass(retryCount).writeFails);
    if res.Success? then RetryTrace(res.value, d.report.reportId, retryCount + 1, Persisted)
    else if ErrorCode(res.error) == Some(DuplicateKeyCode) && retryCount < MaxRetries - 1 then
      RetryRun(logs, WithReportId(d, RetryId(env, retryCount + 1)), env, retryCount + 1)
    else RetryTrace(logs, d.report.reportId, retryCount + 1, Rethrown(res.error))
  }

  /** At most three passes run; a pass is followed by another only after a duplicate-key error. */
  lemma {:induction false} RetryAttemptsBounded(
    logs: seq<AnalysisLog>, d: LogDraft, env: RetryEnv, retryCount: nat)
    requires retryCount < MaxRetries
    ensures retryCount + 1 <= RetryRun(logs, d, env, retryCount).attempts <= MaxRetries
    ensures RetryRun(logs, d, env, retryCount).attempts > retryCount + 1 ==>
              Insert(logs, d, env.stampedAt, env.pass(retryCount).writeFails) == Failure(DuplicateKey)
    decreases MaxRetries - retryCount
  {
    var res := Insert(logs, d, env.stampedAt, env.pass(retryCount).writeFails);
    if res.Failure? && res.error == DuplicateKey && retryCount < MaxRetries - 1 {
      RetryAttemptsBounded(logs, WithReportId(d, RetryId(env, retryCount + 1)), env, retryCount + 1);
    }
  }

  /**
   * The loop ends by a save or by a rethrow; a rethrown error is not a
   * duplicate key unless it came on the third pass.
   */
  lemma {:induction false} RethrowOnlyNonDuplicateOrLast(
    logs: seq<AnalysisLog>, d: LogDraft, env: RetryEnv, retryCount: nat)
    requires retryCount < MaxRetries
    ensures var t := RetryRun(logs, d, env, retryCount);
            t.outcome.Rethrown? && t.outcome.error == DuplicateKey ==> t.attempts == MaxRetries
    decreases MaxRetries - retryCount
  {
    var res := Insert(logs, d, env.stampedAt, env.pass(retryCount).writeFails);
    if res.Failure? && res.error == DuplicateKey && retryCount < MaxRetries - 1 {
      RethrowOnlyNonDuplicateOrLast(logs, WithReportId(d, RetryId(env, retryCount + 1)), env, retryCount + 1);
    }
  }

  /**
   * The id the trace reports is the one the last pass used: the caller's id
   * when the first pass ends the loop, the id minted for the last pass otherwise.
   */
  lemma {:induction false} RetryFinalId(
    logs: seq<AnalysisLog>, d: LogDraft, env: RetryEnv, retryCount: nat)
    requires retryCount < MaxRetries
    ensures var t := RetryRun(logs, d, env, retryCount);
            && (t.attempts == retryCount + 1 ==> t.finalId == d.report.reportId)
            && (t.attempts > retryCount + 1 ==> t.finalId == RetryId(env, t.attempts - 1))
    decreases MaxRetries - retryCount
  {
    var res := Insert(logs, d, env.stampedAt, env.pass(retryCount).writeFails);
    if res.Failure? && res.error == DuplicateKey && retryCount < MaxRetries - 1 {
      var next := WithReportId(d, RetryId(env, retryCount + 1));
      RetryFinalId(logs, next, env, retryCount + 1);
      RetryAttemptsBounded(logs, next, env, retryCount + 1);
    }
  }

  /**
   * The loop either appends exactly one log, stamped at the clock of the first
   * save whichever pass succeeded and carrying the final id, or leaves the
   * collection unchanged.
   */
  lemma {:induction false} RetryEffect(
    logs: seq<AnalysisLog>, d: LogDraft, env: RetryEnv, retryCount: nat)
    requires retryCount < MaxRetries
    ensures var t := RetryRun(logs, d, env, retryCount);
            && t.attempts >= 1
            && (t.outcome.Persisted? ==>
                  t.logs == logs + [Stamp(WithReportId(d, t.finalId), env.stampedAt)])
            && (t.outcome.Rethrown? ==> t.logs == logs)
    decreases MaxRetries - retryCount
  {
    RetryAttemptsBounded(logs, d, env, retryCount);
    var res := Insert(logs, d, env.stampedAt, env.pass(retryCount).writeFails);
    if res.Success? {
      assert WithReportId(d, d.report.reportId) == d;
    } else if res.error == DuplicateKey && retryCount < MaxRetries - 1 {
      var next := WithReportId(d, RetryId(env, retryCount + 1));
      RetryEffect(logs, next, env, retryCount + 1);
      var t := RetryRun(logs, next, env, retryCount + 1);
      assert WithReportId(next, t.finalId) == WithReportId(d, t.finalId);
    }
  }

  /** The loop keeps the collection invariant: unique ids, every document valid. */
  lemma {:induction false} RetryPreservesInvariant(
    logs: seq<AnalysisLog>, d: LogDraft, env: RetryEnv, retryCount: nat)
    requires retryCount < MaxRetries
    requires StoreInvariant(logs)
    ensures StoreInvariant(RetryRun(logs, d, env, retryCount).logs)
    decreases MaxRetries - retryCount
  {
    var res := Insert(logs, d, env.stampedAt, env.pass(retryCount).writeFails);
    if res.Success? {
      InsertPreservesInvariant(logs, d, env.stampedAt, env.pass(retryCount).writeFails);
    } else if res.error == DuplicateKey && retryCount < MaxRetries - 1 {
      RetryPreservesInvariant(logs, WithReportId(d, RetryId(env, retryCount + 1)), env, retryCount + 1);
    }
  }

  /** A regenerated id keeps a valid draft valid when it is not empty, as minted ids never are. */
  lemma RetryIdKeepsDraftAdmissible(d: LogDraft, env: RetryEnv, k: nat)
    requires Admissible(d) && RetryId(env, k) != ""
    ensures Admissible(WithReportId(d, RetryId(env, k)))
  {
    var d2 := WithReportId(d, RetryId(env, k));
    forall i | 0 <= i < |RequiredStrings(d2.report)| ensures RequiredStrings(d2.report)[i] != "" {
      if i > 0 {
        assert RequiredStrings(d2.report)[i] == RequiredStrings(d.report)[i];
      }
    }
    assert d2.report.frameLevelClassification == d.report.frameLevelClassification;
  }

  /** The route's ids are never empty, and well formed when the random reading is a base-36 fraction. */
  lemma RouteRetryIdWellFormed(stampedAt: int, pass: nat -> Attempt, k: nat)
    ensures RetryId(RetryEnv(stampedAt, pass, MintReportId), k) != ""
    ensures Base36Fraction(pass(k).random) ==> WellFormedReportId(RetryId(RetryEnv(stampedAt, pass, MintReportId), k))
  {
    var id := RetryId(RetryEnv(stampedAt, pass, MintReportId), k);
    assert id == MintReportId(pass(k).clock, pass(k).random);
    assert id[0] == 'D';
    if Base36Fraction(pass(k).random) {
      MintedIdWellFormed(pass(k).clock, pass(k).random);
    }
  }

  /** When every id tried is taken, the third collision is rethrown with the id minted for the third pass. */
  lemma RetryExhausted(logs: seq<AnalysisLog>, d: LogDraft, env: RetryEnv)
    requires Admissible(d)
    requires IdTaken(logs, d.report.reportId)
    requires IdTaken(logs, RetryId(env, 1)) && IdTaken(logs, RetryId(env, 2))
    requires RetryId(env, 1) != "" && RetryId(env, 2) != ""
    ensures RetryRun(logs, d, env, 0) == RetryTrace(logs, RetryId(env, 2), 3, Rethrown(DuplicateKey))
  {
    var d1 := WithReportId(d, RetryId(env, 1));
    var d2 := WithReportId(d1, RetryId(env, 2));
    RetryIdKeepsDraftAdmissible(d, env, 1);
    RetryIdKeepsDraftAdmissible(d1, env, 2);
    assert RetryRun(logs, d1, env, 1) == RetryRun(logs, d2, env, 2);
  }

  /** Any failure other than a duplicate key on the first pass is rethrown at once, nothing saved. */
  lemma NonDuplicateNotRetried(logs: seq<AnalysisLog>, d: LogDraft, env: RetryEnv)
    requires Insert(logs, d, env.stampedAt, env.pass(0).writeFails).Failure?
    requires Insert(logs, d, env.stampedAt, env.pass(0).writeFails).error != DuplicateKey
    ensures RetryRun(logs, d, env, 0) ==
              RetryTrace(logs, d.report.reportId, 1,
                         Rethrown(Insert(logs, d, env.stampedAt, env.pass(0).writeFails).error))
  {
  }

  // ---------------------------------------------------------------------------
  // The collection and the loop that writes to it

  /** The `AnalysisLog` collection: its documents, under the schema's invariant. */
  class LogStore {
    var logs: seq<AnalysisLog>

    ghost predicate Valid()
      reads this
    {
      StoreInvariant(logs)
    }

    constructor ()
      ensures Valid() && logs == []
    {
      logs := [];
    }

    /** `analysisLog.save()` for a new document: validate, check the unique index, write. */
    method Save(d: LogDraft, now: int, writeFails: bool) returns (err: Option<SaveError>)
      requires Valid()
      modifies this
      ensures Valid()
      ensures var res := Insert(old(logs), d, now, writeFails);
              && (res.Success? ==> err.None? && logs == res.value)
              && (res.Failure? ==> err == Some(res.error) && logs == old(logs))
    {
      if !Admissible(d) {
        err := Some(ValidationFailed);
      } else if exists i :: 0 <= i < |logs| && logs[i].report.reportId == d.report.reportId {
        err := Some(DuplicateKey);
      } else if writeFails {
        err := Some(WriteFailed);
      } else {
        InsertPreservesInvariant(logs, d, now, writeFails);
        logs := logs + [Stamp(d, now)];
        err := None;
      }
    }
  }

  /**
   * The `while (retryCount < maxRetries)` loop. `log` is the document being
   * saved and `responseId` the `reportId` of the response object; both are
   * given each regenerated id. The loop leaves only by `break` or by a rethrow.
   */
  method SaveWithRetry(store: LogStore, draft: LogDraft, env: RetryEnv)
    returns (responseId: string, attempts: nat, outcome: RetryOutcome)
    requires store.Valid()
    modifies store
    ensures store.Valid()
    ensures RetryRun(old(store.logs), draft, env, 0) == RetryTrace(store.logs, responseId, attempts, outcome)
  {
    ghost var logs0 := store.logs;
    var log := draft;
    responseId := draft.report.reportId;
    var retryCount: nat := 0;
    outcome := Persisted;
    while retryCount < MaxRetries
      invariant retryCount < MaxRetries
      invariant store.Valid() && store.logs == logs0
      invariant log.report.reportId == responseId
      invariant RetryRun(logs0, draft, env, 0) == RetryRun(logs0, log, env, retryCount)
      decreases MaxRetries - retryCount
    {
      var err := store.Save(log, env.stampedAt, env.pass(retryCount).writeFails);
      if err.None? {
        attempts, outcome := retryCount + 1, Persisted;
        break;
      } else if ErrorCode(err.value) == Some(DuplicateKeyCode) && retryCount < MaxRetries - 1 {
        retryCount := retryCount + 1;
        var newId := env.mint(env.pass(retryCount).clock, env.pass(retryCount).random);
        log := WithReportId(log, newId);
        responseId := newId;
      } else {
        attempts, outcome := retryCount + 1, Rethrown(err.value);
        break;
      }
    }
  }

  // ---------------------------------------------------------------------------
  // The route

  /** The parsed form (or the message `formData()` threw) and the request headers. */
  datatype Request = Request(form: Result<Option<Upload>, string>, headers: map<string, string>)

  /** The services the route talks to, as fixed readings. */
  datatype Services = Services(
    apiKey: Option<string>,
    reply: ModelReply,
    fingerprint: string,
    dbConnects: bool,
    savedAt: int,           // the store's clock at the first `save()`
    env: nat -> Attempt)

  datatype Response = Ok(data: DeepfakeAnalysisReport) | Err(error: HttpError)

  /** The response and the collection afterwards. */
  function PostSpec(logs: seq<AnalysisLog>, req: Request, svc: Services): (seq<AnalysisLog>, Response)
  {
    if req.form.Failure? then (logs, Err(ErrorResponse(ErrorThrown(req.form.error))))
    else
      var checked := ValidateUpload(req.form.value);
      if checked.Failure? then (logs, Err(checked.error))
      else
        var analysis := AnalyzeMedia(svc.apiKey, svc.reply, svc.fingerprint);
        if analysis.Failure? then (logs, Err(ErrorResponse(ErrorThrown(analysis.error))))
        else if !svc.dbConnects then (logs, Ok(analysis.value))
        else
          var d := LogDraft(analysis.value, Some(ClientIp(req.headers)), Some(ClientUserAgent(req.headers)));
          var t := RetryRun(logs, d, RetryEnv(svc.savedAt, svc.env, MintReportId), 0);
          (t.logs, Ok(analysis.value.(reportId := t.finalId)))
  }

  /** A rejected upload gets its 400 and touches nothing. */
  lemma PostRejectsBadUpload(logs: seq<AnalysisLog>, req: Request, svc: Services)
    requires req.form.Success? && ValidateUpload(req.form.value).Failure?
    ensures PostSpec(logs, req, svc) == (logs, Err(ValidateUpload(req.form.value).error))
    ensures PostSpec(logs, req, svc).1.error.status == 400
  {
  }

  /**
   * Storage never decides the response: once the analysis succeeds the answer
   * is the analysis, whatever the store does, with the id of the last save
   * attempt.
   */
  lemma StorageFailuresSwallowed(logs: seq<AnalysisLog>, req: Request, svc: Services)
    requires req.form.Success? && ValidateUpload(req.form.value).Success?
    requires AnalyzeMedia(svc.apiKey, svc.reply, svc.fingerprint).Success?
    ensures var analysis := AnalyzeMedia(svc.apiKey, svc.reply, svc.fingerprint).value;
            var resp := PostSpec(logs, req, svc).1;
            && resp.Ok?
            && resp.data.(reportId := analysis.reportId) == analysis
            && (!svc.dbConnects ==> resp.data == analysis && PostSpec(logs, req, svc).0 == logs)
  {
  }

  /**
   * When the log is saved, the stored report and the response carry the same
   * id, and the stored report is the response with the undeclared sections dropped.
   */
  lemma SavedLogMatchesResponse(logs: seq<AnalysisLog>, req: Request, svc: Services)
    requires req.form.Success? && ValidateUpload(req.form.value).Success?
    requires AnalyzeMedia(svc.apiKey, svc.reply, svc.fingerprint).Success?
    requires svc.dbConnects
    requires |PostSpec(logs, req, svc).0| > |logs|
    ensures var (after, resp) := PostSpec(logs, req, svc);
            && |after| == |logs| + 1
            && resp.Ok?
            && after[|logs|].report == WithoutExtras(resp.data)
            && after[|logs|].ipAddress == Some(ClientIp(req.headers))
  {
    var analysis := AnalyzeMedia(svc.apiKey, svc.reply, svc.fingerprint).value;
    var d := LogDraft(analysis, Some(ClientIp(req.headers)), Some(ClientUserAgent(req.headers)));
    RetryEffect(logs, d, RetryEnv(svc.savedAt, svc.env, MintReportId), 0);
  }

  /** The route keeps the collection invariant, whatever happens. */
  lemma PostPreservesInvariant(logs: seq<AnalysisLog>, req: Request, svc: Services)
    requires StoreInvariant(logs)
    ensures StoreInvariant(PostSpec(logs, req, svc).0)
  {
    if req.form.Success? && ValidateUpload(req.form.value).Success? && svc.dbConnects {
      var analysis := AnalyzeMedia(svc.apiKey, svc.reply, svc.fingerprint);
      if analysis.Success? {
        var d := LogDraft(analysis.value, Some(ClientIp(req.headers)), Some(ClientUserAgent(req.headers)));
        RetryPreservesInvariant(logs, d, RetryEnv(svc.savedAt, svc.env, MintReportId), 0);
      }
    }
  }

  /** `POST /api/detect-deepfake`. */
  method Post(store: LogStore, req: Request, svc: Services) returns (resp: Response)
    requires store.Valid()
    modifies store
    ensures store.Valid()
    ensures (store.logs, resp) == PostSpec(old(store.logs), req, svc)
  {
    if req.form.Failure? {
      return Err(ErrorResponse(ErrorThrown(req.form.error)));
    }
    var checked := ValidateUpload(req.form.value);
    if checked.Failure? {
      return Err(checked.error);
    }
    var analysis := AnalyzeMedia(svc.apiKey, svc.reply, svc.fingerprint);
    if analysis.Failure? {
      return Err(ErrorResponse(ErrorThrown(analysis.error)));
    }
    var result := analysis.value;
    if svc.dbConnects {
      var ip := ClientIp(req.headers);
      var ua := ClientUserAgent(req.headers);
      var id, _, _ := SaveWithRetry(store, LogDraft(result, Some(ip), Some(ua)), RetryEnv(svc.savedAt, svc.env, MintReportId));
      result := result.(reportId := id);
    }
    return Ok(result);
  }
}
