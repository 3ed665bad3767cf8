# Deepfake analysis reports: a verified model of the server side

This project models the report lifecycle of a Next.js deepfake-analysis service in Dafny and proves
properties of the model. It covers four parts:

- **The report and its stored form.** The report records, the structured-output schema the
  classification service must follow, and the document the MongoDB collection stores. The
  collection's validators and its unique `reportId` index are modelled as a store invariant.
- **Ingest.** `POST /api/detect-deepfake` checks the upload in a fixed order, calls the
  classification service, and saves the log. On a duplicate key it makes at most three attempts,
  minting a fresh `DFVD-YYYYMMDD-HHMMSS-SUFFIX` id for each of up to two retries. Once the
  service has answered with a report, the response carries it, with its declared fields and any
  well-shaped optional sections, whether or not saving succeeds.
- **History.** `GET /api/history` validates `page` and `limit` and applies the optional verdict
  filter case-insensitively. It returns a newest-first slice of the stored logs with its pagination
  metadata.
- **The PDF report.** `POST /api/generate-pdf` lays out an A4 document. A cursor moves down the
  page; a page-break rule opens a new page when the next block would cross the bottom margin;
  optional sections are drawn only when present. A final loop stamps a footer on every page.

## Modules

| file | module | form |
|---|---|---|
| `wrappers.dfy` | `Wrappers` | `Option` and `Result` |
| `text.dfy` | `Text` | the JavaScript string operations used: `includes`, `toUpperCase`, `substring`, `slice`, `replace(/c/g, '')` and decimal printing |
| `deepfake_types.dfy` | `DeepfakeTypes` | the report records and the closed verdict and label sets |
| `detection_schema.dfy` | `DetectionSchema` | JSON values, the response schema, conformance, and reading and writing a report as JSON |
| `analysis_log.dfy` | `AnalysisLogModel` | the stored document, and one `save()` against the collection as a pure function |
| `report_id.dfy` | `ReportId` | the retry id built from `toISOString()` and `Math.random().toString(36)` |
| `detect_deepfake.dfy` | `DetectDeepfake` | the upload checks, the error mapping, the retry loop as a specification and as a `while` loop over a `LogStore` object, and the route |
| `history.dfy` | `History` | the history route, written as pure functions like its source |
| `pdf_layout.dfy` | `PdfLayout` | the layout as a specification, and a `Renderer` object whose methods move the cursor and open pages the way the route does |

### Conventions

- A JavaScript `number` is a `real`.
- The verdict and the frame label are kept as strings. The route receives an unchecked cast of
  parsed JSON, so any string can reach the server; the closed sets are predicates over those strings.
- A mongoose `required` string rejects the empty string as well as a missing value.
- The retry loop saves the same document object on every pass. Mongoose's `timestamps` option sets
  `createdAt` only while it is unset and copies it into `updatedAt` on a new document, and a document
  whose insert failed is still new. A save that succeeds on a retry therefore keeps the timestamps
  of the first attempt; the model stamps it with the store's clock at the first `save()`.
- Strict mode drops paths the schema does not declare. The stored report therefore loses the three
  optional sections the PDF route reads.

## Model

| member | source | states |
|---|---|---|
| `DeepfakeTypes.WithoutExtras` | src/lib/models/AnalysisLog.ts:41-64 | the stored report has none of the three undeclared sections, and putting the original sections back gives the original report |
| `DetectionSchema.PropertyNames` | src/types/deepfake.ts:52-191 | the name list has one entry per listed property, in the same order |
| `DetectionSchema.SchemaListsAgree` | src/types/deepfake.ts:192-223 | `required` and `propertyOrdering` list exactly the same 14 names, in the same order, and these are the listed properties and the interface's fields |
| `DetectionSchema.SchemaEnumsAgree` | src/types/deepfake.ts:162 | the verdict's schema enum is exactly FAKE, REAL, INCONCLUSIVE; the label's is exactly FAKE, REAL |
| `DetectionSchema.ConformingProperty` | src/types/deepfake.ts:192-207 | a property that is listed at the same position in `required` is present in a conforming object and conforms to its own schema |
| `DetectionSchema.ConformingTopLevel` | src/types/deepfake.ts:170-207 | a conforming payload has all 14 fields, a verdict from the enum, and conforming nested objects and frame array |
| `DetectionSchema.ConformingCaseOverview` | src/types/deepfake.ts:73-90 | `caseOverview` has its 3 required string fields |
| `DetectionSchema.ConformingVideoMetadata` | src/types/deepfake.ts:91-120 | `videoFileMetadata` has all 6 required string fields, `md5Hash` among them |
| `DetectionSchema.ConformingDetectionParameters` | src/types/deepfake.ts:121-142 | `detectionParameters` has its 4 required fields; `classificationThreshold` is a number |
| `DetectionSchema.ConformingFrame` | src/types/deepfake.ts:143-169 | a frame has `frameNumber`, `timestamp`, `confidence` and `label`, with their JSON types, and the label is from the enum |
| `DetectionSchema.FramesFromJson` | src/lib/gemini.ts:108 | the frame array reads exactly when every entry reads, entry by entry and with the same length |
| `DetectionSchema.DecodedPayloadHasAllFields` | src/types/deepfake.ts:192-207 | a payload reads as a report only if all 14 top-level fields are present |
| `DetectionSchema.ReportFromDeclared` | src/lib/gemini.ts:108 | a payload reads as a report exactly when its declared fields read; the report is those fields plus each optional section as read |
| `DetectionSchema.TemporalSectionRead` | src/app/api/generate-pdf/route.ts:90-106 | the report carries `temporalConsistency` exactly when the payload holds it as an object with a numeric `score` and a string `interpretation`, and then carries those values |
| `DetectionSchema.SyncSectionRead` | src/app/api/generate-pdf/route.ts:109-125 | the report carries `audioVisualSync` exactly when the payload holds it as an object with a numeric `deviationIndex` and a string `observation`, and then carries those values |
| `DetectionSchema.DetailSectionRead` | src/app/api/generate-pdf/route.ts:128-147 | the report carries `detailedSummary` exactly when the payload holds it as an object with numeric `confidenceScore` and `operationalThreshold` and a string `content`, and then carries those values |
| `DetectionSchema.ConformingHeaderFields` | src/types/deepfake.ts:53-72 | the 5 identifying strings of a conforming payload are present and are strings |
| `DetectionSchema.ConformingSummaryFields` | src/types/deepfake.ts:170-190 | the verdict and the 4 aggregates of a conforming payload are present with their JSON types |
| `DetectionSchema.ConformingFramesDecode` | src/types/deepfake.ts:143-169 | a conforming frame array reads in full, and every label is FAKE or REAL |
| `DetectionSchema.ConformingNestedFields` | src/types/deepfake.ts:73-142 | the 3 nested objects of a conforming payload read in full |
| `DetectionSchema.ConformingFrameField` | src/types/deepfake.ts:143-169 | the frame field of a conforming payload is an array that reads in full, with labels from the enum |
| `DetectionSchema.ConformingPayloadDecodes` | src/types/deepfake.ts:50-223 | every payload that conforms to the schema reads as a report whose verdict and labels are from the enums |
| `DetectionSchema.FramesToJson` | src/types/deepfake.ts:143-169 | writing frames gives one JSON item per frame, in order |
| `DetectionSchema.FrameRoundTrip` | src/types/deepfake.ts:17-22 | a frame written as JSON reads back as the same frame |
| `DetectionSchema.FramesRoundTrip` | src/types/deepfake.ts:39 | a frame list written as JSON reads back as the same list |
| `DetectionSchema.CaseOverviewRoundTrip` | src/types/deepfake.ts:31-35 | a case overview written as JSON reads back unchanged |
| `DetectionSchema.VideoMetadataRoundTrip` | src/types/deepfake.ts:1-8 | file metadata written as JSON reads back unchanged |
| `DetectionSchema.DetectionParametersRoundTrip` | src/types/deepfake.ts:10-15 | detection parameters written as JSON read back unchanged |
| `DetectionSchema.EncodedIdField` | src/types/deepfake.ts:25 | the written payload holds the report's id |
| `DetectionSchema.EncodedHeaderFields` | src/types/deepfake.ts:26 | the written payload holds the report's author |
| `DetectionSchema.EncodedDateField` | src/types/deepfake.ts:27 | the written payload holds the report's analysis date |
| `DetectionSchema.EncodedToolFields` | src/types/deepfake.ts:28-29 | the written payload holds the report's tool and engine version |
| `DetectionSchema.EncodedNestedFields` | src/types/deepfake.ts:31-37 | the written payload's case and file objects encode the report's own |
| `DetectionSchema.EncodedAnalysisFields` | src/types/deepfake.ts:38-39 | the written payload's parameters object and frame array encode the report's own |
| `DetectionSchema.EncodedSummaryFields` | src/types/deepfake.ts:42-46 | the written payload holds the report's verdict and four aggregates |
| `DetectionSchema.JsonRoundTrip` | src/types/deepfake.ts:24-47 | writing a report as JSON and reading it back loses only the three undeclared sections |
| `DetectionSchema.EncodedOmitsSections` | src/types/deepfake.ts:24-47 | the written payload holds none of the three optional sections, which the interface does not declare |
| `DetectionSchema.FrameConformsIff` | src/types/deepfake.ts:160-166 | a written frame conforms exactly when its label is FAKE or REAL |
| `DetectionSchema.FramesConformIff` | src/types/deepfake.ts:143-169 | a written frame array conforms exactly when every label is FAKE or REAL |
| `DetectionSchema.NestedEncodingsConform` | src/types/deepfake.ts:73-142 | the three written nested objects always conform to their schemas |
| `DetectionSchema.EncodedIdentityConforms` | src/types/deepfake.ts:53-64 | the id, author and date of a written report are present and conform |
| `DetectionSchema.EncodedToolConforms` | src/types/deepfake.ts:65-72 | the tool and engine version of a written report are present and conform |
| `DetectionSchema.EncodedObjectsConform` | src/types/deepfake.ts:73-120 | the case and file objects of a written report are present and conform |
| `DetectionSchema.EncodedAnalysisConforms` | src/types/deepfake.ts:121-169 | with valid labels, the parameters and the frame array of a written report are present and conform |
| `DetectionSchema.EncodedVerdictConforms` | src/types/deepfake.ts:170-178 | with a valid verdict, the verdict and average of a written report are present and conform |
| `DetectionSchema.EncodedCountsConform` | src/types/deepfake.ts:179-190 | the three frame counts of a written report are present and conform |
| `DetectionSchema.EncodedPropertiesConform` | src/types/deepfake.ts:52-191 | with valid enums, every listed property of a written report is present and conforms |
| `DetectionSchema.EncodedConforms` | src/types/deepfake.ts:50-223 | a written report with valid enums conforms to the schema |
| `DetectionSchema.EncodedConformsIff` | src/types/deepfake.ts:170-174 | a written report conforms to the schema exactly when its verdict and labels are from the enums; the label enum is at line 162 of the same file |
| `AnalysisLogModel.ErrorCode` | src/app/api/detect-deepfake/route.ts:81-82 | a save error carries code 11000 exactly when it is a duplicate key, and any other save error carries no code |
| `AnalysisLogModel.RequiredStrings` | src/lib/models/AnalysisLog.ts:19-46 | the required string paths number exactly 17 |
| `AnalysisLogModel.Stamp` | src/lib/models/AnalysisLog.ts:41-64 | the written document has none of the undeclared sections and equal `createdAt` and `updatedAt`, and a draft that passes validation becomes a document the schema accepts |
| `AnalysisLogModel.InsertSucceedsIff` | src/lib/models/AnalysisLog.ts:41-64 | a save succeeds exactly when the draft validates, the id is free and the write goes through, and then it appends exactly the stamped document |
| `AnalysisLogModel.DuplicateRejected` | src/lib/models/AnalysisLog.ts:42 | a valid draft whose id is stored is refused with the duplicate-key error, code 11000 |
| `AnalysisLogModel.EmptyRequiredRejected` | src/lib/models/AnalysisLog.ts:42-59 | an empty or missing required string fails validation, and the error has no code |
| `AnalysisLogModel.VerdictOutsideEnumRejected` | src/lib/models/AnalysisLog.ts:51-55 | a verdict outside FAKE, REAL, INCONCLUSIVE fails validation |
| `AnalysisLogModel.ClientFieldsOptional` | src/lib/models/AnalysisLog.ts:60-61 | validation does not depend on `ipAddress` or `userAgent`, and drafts without them validate the same way |
| `AnalysisLogModel.TimestampsAssignedByStore` | src/lib/models/AnalysisLog.ts:63 | the stored timestamps are the store's clock |
| `AnalysisLogModel.StoredLogIsReport` | src/lib/models/AnalysisLog.ts:4-10 | without timestamps and client fields, a stored log is the caller's report with the undeclared sections dropped |
| `AnalysisLogModel.InsertPreservesInvariant` | src/lib/models/AnalysisLog.ts:41-64 | a successful save keeps ids unique and every document valid |
| `AnalysisLogModel.StoredLogsAreValid` | src/lib/models/AnalysisLog.ts:16-55 | every stored verdict is from the three values, every stored label from the two, and every id is non-empty |
| `AnalysisLogModel.SameHashAndVerdictCoexist` | src/lib/models/AnalysisLog.ts:69-70 | a second report with the same hash and verdict but a fresh id is stored next to the first |
| `ReportId.IsoString` | src/app/api/detect-deepfake/route.ts:86-87 | `toISOString()` prints 24 characters |
| `ReportId.IsoParts` | src/app/api/detect-deepfake/route.ts:86-87 | characters 0–9 of the ISO string are the dashed date; characters 11–18 are the colon-separated time |
| `ReportId.StripSeparator` | src/app/api/detect-deepfake/route.ts:86-87 | removing the separator from three digit groups joined by it leaves the groups run together, all digits |
| `ReportId.DateStrIsUtcDate` | src/app/api/detect-deepfake/route.ts:86 | the date part is the UTC year, month and day, 8 digits |
| `ReportId.TimeStrIsUtcTime` | src/app/api/detect-deepfake/route.ts:87 | the time part is the UTC hour, minute and second, 6 digits |
| `ReportId.RandomSuffixShape` | src/app/api/detect-deepfake/route.ts:88 | the suffix has at most 6 upper-case base-36 characters, and exactly 6 when the random string has enough digits |
| `ReportId.MintedIdWellFormed` | src/app/api/detect-deepfake/route.ts:85-89 | a minted id is `DFVD-`, 8 digits, `-`, 6 digits, `-` and at most 6 upper-case base-36 characters, and its fields are the UTC clock reading and the suffix |
| `ReportId.MintedIdDeterminesClock` | src/app/api/detect-deepfake/route.ts:85-89 | two minted ids are equal only if their clock readings agree to the second and their suffixes agree |
| `DetectDeepfake.UploadAcceptedIff` | src/app/api/detect-deepfake/route.ts:6-41 | an upload is accepted exactly when it is present, at most 50 MiB and of one of the eight types; every refusal is a 400 |
| `DetectDeepfake.UploadCheckOrder` | src/app/api/detect-deepfake/route.ts:15-41 | a missing file is reported first, then the size, then the type |
| `DetectDeepfake.SizeBoundary` | src/app/api/detect-deepfake/route.ts:6-28 | 52428800 bytes is accepted and 52428801 is refused as too large |
| `DetectDeepfake.ConformingReplyAnalyzed` | src/lib/gemini.ts:103-113 | with a key set, a reply that conforms to the schema gives its report, with valid enums, the upload's fingerprint as `md5Hash`, and the reply's optional sections as read |
| `DetectDeepfake.ConformingReplyKeepsTemporal` | src/lib/gemini.ts:108-113 | a conforming reply that also holds `temporalConsistency` with score 0.9 is analysed with that section |
| `DetectDeepfake.AnalysisCarriesFingerprint` | src/lib/gemini.ts:8-12 | every successful analysis had a non-empty key and a JSON reply, and carries the upload's fingerprint; the fingerprint is attached at line 111 |
| `DetectDeepfake.FingerprintedMetadata` | src/lib/gemini.ts:108-111 | after the overwrite the file metadata reads exactly when its five other fields are strings: the reply's own `md5Hash` is not needed |
| `DetectDeepfake.FingerprintedHash` | src/lib/gemini.ts:108-113 | a fingerprinted reply that reads as a report has the upload's fingerprint as its `md5Hash` |
| `DetectDeepfake.FingerprintedReport` | src/lib/gemini.ts:108-113 | a reply that reads as a report reads, once fingerprinted, as the same report with only `md5Hash` replaced |
| `DetectDeepfake.ReplyHashIgnored` | src/lib/gemini.ts:108-113 | the analysis of a reply does not depend on its `md5Hash`: missing, of any JSON type or of any value, the result is the same |
| `DetectDeepfake.ErrorResponse` | src/app/api/detect-deepfake/route.ts:110-132 | every error thrown out of the route becomes a 500 |
| `DetectDeepfake.ErrorResponseIff` | src/app/api/detect-deepfake/route.ts:114-126 | an `Error` gets the configuration message exactly when its message contains `GEMINI_API_KEY`, and otherwise `Analysis failed: ` followed by its message |
| `DetectDeepfake.NotContainsWithoutFirst` | src/app/api/detect-deepfake/route.ts:115 | a string lacking the first character of `t` does not contain `t` |
| `DetectDeepfake.MissingKeyIsConfigError` | src/app/api/detect-deepfake/route.ts:115-120 | the missing-key error is reported as a configuration error; the error itself is raised in src/lib/gemini.ts, lines 10 to 12 |
| `DetectDeepfake.ServiceFailureIsAnalysisFailure` | src/app/api/detect-deepfake/route.ts:122-125 | the service's generic failure is reported as `Analysis failed: ` with its message; the failure is raised in src/lib/gemini.ts, lines 114 to 117 |
| `DetectDeepfake.ClientIp` | src/app/api/detect-deepfake/route.ts:59-61 | the address is the forwarded-for header when set, else the real-ip header when set, else `unknown`; never empty |
| `DetectDeepfake.ClientUserAgent` | src/app/api/detect-deepfake/route.ts:62 | the user agent header when set, else `unknown`; never empty |
| `DetectDeepfake.RetryAttemptsBounded` | src/app/api/detect-deepfake/route.ts:72-75 | the loop makes between 1 and 3 passes, and a pass is followed by another only after a duplicate-key error |
| `DetectDeepfake.RethrowOnlyNonDuplicateOrLast` | src/app/api/detect-deepfake/route.ts:82-96 | a rethrown duplicate-key error comes only from the third pass |
| `DetectDeepfake.RetryFinalId` | src/app/api/detect-deepfake/route.ts:91-92 | the id reported is the caller's when one pass ran, otherwise the id minted for the last pass |
| `DetectDeepfake.RetryEffect` | src/app/api/detect-deepfake/route.ts:65-98 | the loop appends exactly one document, carrying the final id and stamped with the store's clock at the first save whichever pass succeeded, or it leaves the collection unchanged |
| `DetectDeepfake.RetryPreservesInvariant` | src/app/api/detect-deepfake/route.ts:75-98 | the loop keeps ids unique and every document valid; uniqueness is the index of src/lib/models/AnalysisLog.ts, line 42 |
| `DetectDeepfake.RetryIdKeepsDraftAdmissible` | src/app/api/detect-deepfake/route.ts:91 | replacing the id of a valid draft with a non-empty id keeps the draft valid |
| `DetectDeepfake.RouteRetryIdWellFormed` | src/app/api/detect-deepfake/route.ts:85-89 | the ids the route mints are never empty, and are well formed when the random reading is a base-36 fraction |
| `DetectDeepfake.RetryExhausted` | src/app/api/detect-deepfake/route.ts:82-96 | when all three ids tried are taken, the third collision is rethrown, nothing is stored, and the last minted id is reported |
| `DetectDeepfake.NonDuplicateNotRetried` | src/app/api/detect-deepfake/route.ts:94-96 | any other failure on the first pass is rethrown at once and nothing is stored |
| `DetectDeepfake.LogStore.Save` | src/app/api/detect-deepfake/route.ts:77 | `save()` changes the collection exactly as the pure save does and keeps its invariant; the validation is the schema of src/lib/models/AnalysisLog.ts, lines 41 to 64 |
| `DetectDeepfake.SaveWithRetry` | src/app/api/detect-deepfake/route.ts:72-98 | the `while` loop ends with the collection, the response id, the number of passes and the outcome that the retry specification gives |
| `DetectDeepfake.PostRejectsBadUpload` | src/app/api/detect-deepfake/route.ts:15-41 | a refused upload gets its 400 and leaves the collection unchanged |
| `DetectDeepfake.StorageFailuresSwallowed` | src/app/api/detect-deepfake/route.ts:54-108 | once the analysis succeeds, the response is the analysis whatever the store does, except possibly for its id; when the database is unreachable, it is the analysis itself and nothing is stored |
| `DetectDeepfake.SavedLogMatchesResponse` | src/app/api/detect-deepfake/route.ts:65-92 | a saved log holds the response's report, undeclared sections dropped, with the same id and the client's address |
| `DetectDeepfake.PostPreservesInvariant` | src/app/api/detect-deepfake/route.ts:10-133 | the route keeps ids unique and every document valid, whatever happens |
| `DetectDeepfake.Post` | src/app/api/detect-deepfake/route.ts:10-133 | the route's response and the collection afterwards are the ones its specification gives |
| `History.FilterLogs` | src/app/api/history/route.ts:31-35 | the selected documents all pass the filter, and each passing document is kept exactly as often as it occurs |
| `History.InsertDesc` | src/app/api/history/route.ts:36 | inserting into a newest-first list keeps it newest first and adds exactly the one document |
| `History.SortDesc` | src/app/api/history/route.ts:36 | sorting gives a newest-first permutation of the documents |
| `History.CeilDivIsCeiling` | src/app/api/history/route.ts:32 | the page count covers every document, and one page fewer does not |
| `History.WindowContents` | src/app/api/history/route.ts:37-38 | skip-then-limit gives at most `limit` documents, exactly those at positions `skip ..` that exist |
| `History.GetListsIff` | src/app/api/history/route.ts:15-20 | with the database reachable, a listing is returned exactly when page ≥ 1 and 1 ≤ limit ≤ 50; otherwise a 400 with the fixed message |
| `History.DatabaseFailureFirst` | src/app/api/history/route.ts:5-20 | a failed connection gives the 500 for any query, even one with invalid parameters, because it is made before the parameters are read |
| `History.QueryFailureAfterValidation` | src/app/api/history/route.ts:15-40 | a failing `countDocuments` or `find` runs only after validation: invalid parameters still get the 400, valid ones get the 500 |
| `History.DefaultsApply` | src/app/api/history/route.ts:10-11 | an absent page is page 1 and an absent limit is 10, and that query is accepted |
| `History.VerdictFilterIff` | src/app/api/history/route.ts:25-28 | a filter is set exactly when the upper-cased parameter is one of the three verdicts, and it is that upper-cased value |
| `History.VerdictFilterExamples` | src/app/api/history/route.ts:26-27 | `fake` filters on FAKE and `Real` on REAL; an unknown value or no value sets no filter |
| `History.GetListing` | src/app/api/history/route.ts:22-61 | a valid query gets the window at `(page − 1) × limit` of the sorted, filtered documents, with pagination computed from the filtered count |
| `History.WindowOfSorted` | src/app/api/history/route.ts:36-38 | a window of a newest-first list is newest first and drawn from it |
| `History.WindowOrder` | src/app/api/history/route.ts:36-38 | a window of a newest-first list holds at most `limit` items, newest first, taken in order from position `skip` on |
| `History.SelectedProvenance` | src/app/api/history/route.ts:35 | whatever the sorted selection holds is a stored document that passes the filter |
| `History.ListingOrder` | src/app/api/history/route.ts:35-40 | a page is newest first, holds at most `limit` items, and holds the positions `skip ..` of the sorted filtered documents |
| `History.ListingProvenance` | src/app/api/history/route.ts:25-35 | every item of a page is a stored document that passes the filter |
| `History.CountsMatchFilter` | src/app/api/history/route.ts:31-32 | `totalCount` counts only the documents passing the filter, and the pagination is computed from it |
| `History.TotalPagesIsCeiling` | src/app/api/history/route.ts:32 | `totalPages` is the least number of `limit`-sized pages that hold `totalCount` |
| `History.NavigationFlags` | src/app/api/history/route.ts:43-58 | hasNextPage ⇔ page < totalPages ⇔ page × limit < totalCount; hasPrevPage ⇔ page > 1; nextPage and prevPage are given exactly with their flags |
| `History.WindowFill` | src/app/api/history/route.ts:22-38 | past the last page the window is empty; before it, it is full; on the last page, it holds the remainder, at least one document |
| `History.PageFill` | src/app/api/history/route.ts:22-44 | the same fill rule for the route's listings |
| `History.TwentyFiveAtTen` | src/app/api/history/route.ts:22-58 | 25 matching documents at the default limit make 3 pages; page 3 holds 5 and has no next page; page 2 offers page 3 |
| `PdfLayout.WrappedHeight` | src/app/api/generate-pdf/route.ts:32-37 | the wrapped-text height is never negative, and it is zero exactly when there are no lines |
| `PdfLayout.FilterFrames` | src/app/api/generate-pdf/route.ts:227-231 | the kept frames all pass, each passing frame is kept as often as it occurs, and at most all frames are kept |
| `PdfLayout.Footers` | src/app/api/generate-pdf/route.ts:238-252 | there is one footer per page |
| `PdfLayout.BreakRule` | src/app/api/generate-pdf/route.ts:24-29 | if the block does not fit, there is exactly one more page and the cursor is back at 20; otherwise nothing changes |
| `PdfLayout.BreakLeavesRoom` | src/app/api/generate-pdf/route.ts:24-29 | after the check, a block no taller than the writable area fits above the bottom margin |
| `PdfLayout.BreakThenAdvance` | src/app/api/generate-pdf/route.ts:24-29 | a break check followed by a downward move opens at most one page, never moves back on the same page, and stays below the top margin |
| `PdfLayout.SectionsStep` | src/app/api/generate-pdf/route.ts:52-234 | every section moves the cursor down or onto at most one new page; an absent optional section, or an empty frame list, leaves cursor and pages unchanged |
| `PdfLayout.BreakChecks` | src/app/api/generate-pdf/route.ts:53-216 | the body runs between 5 and 10 break checks |
| `PdfLayout.LayoutBounds` | src/app/api/generate-pdf/route.ts:39-234 | the body ends below the top margin and not behind its start, on at most one page per break check beyond the first: 11 pages at most; the top margin is set at line 18 |
| `PdfLayout.HashWrapsIff` | src/app/api/generate-pdf/route.ts:186-187 | the hash line is wrapped exactly when the hash is longer than 40 characters |
| `PdfLayout.Md5DigestOnOneLine` | src/app/api/generate-pdf/route.ts:186-194 | a 32-character hash takes the single-line branch: no break check, and the cursor moves down 20 |
| `PdfLayout.FrameSummaryCounts` | src/app/api/generate-pdf/route.ts:215-234 | the frame summary exists exactly for a non-empty frame list, and both counts are at most the total |
| `PdfLayout.HighConfidenceCounted` | src/app/api/generate-pdf/route.ts:227 | a frame is counted as high-confidence exactly when its confidence exceeds 0.8, once per occurrence |
| `PdfLayout.FakeLabelledCounted` | src/app/api/generate-pdf/route.ts:231 | a frame is counted as FAKE exactly when its label is FAKE, once per occurrence |
| `PdfLayout.FootersCoverPages` | src/app/api/generate-pdf/route.ts:237-252 | the footers go to pages 1 to the last, one each, and their page labels are pairwise distinct |
| `PdfLayout.PageLabelsDistinct` | src/app/api/generate-pdf/route.ts:247-251 | a "Page i of n" label names only page i |
| `PdfLayout.DispositionNamesReport` | src/app/api/generate-pdf/route.ts:261 | the attachment is named `deepfake-analysis-<id>.pdf`, and the id can be read back from the header |
| `PdfLayout.ErrorsBeforeLayout` | src/app/api/generate-pdf/route.ts:7-14 | a body without a report gets the 400 and no document; a body that cannot be read gets the 500; the 500 path is lines 265 to 270 |
| `PdfLayout.DocumentFooters` | src/app/api/generate-pdf/route.ts:237-252 | a document has 1 to 11 pages, and page i carries the credit line and "Page i of n" |
| `PdfLayout.Renderer.CheckPageBreak` | src/app/api/generate-pdf/route.ts:24-29 | the cursor and page count change exactly as the break rule says, and a new page becomes the current page |
| `PdfLayout.Renderer.Advance` | src/app/api/generate-pdf/route.ts:43 | `yPos += d` moves the cursor only |
| `PdfLayout.Renderer.SetPage` | src/app/api/generate-pdf/route.ts:239 | `setPage(i)` changes only the current page |
| `PdfLayout.Renderer.StampFooter` | src/app/api/generate-pdf/route.ts:242-251 | a footer is added on the current page, and nothing else changes |
| `PdfLayout.FixedSection` | src/app/api/generate-pdf/route.ts:53-87 | a fixed-height section is a break check followed by its advance |
| `PdfLayout.RenderTemporal` | src/app/api/generate-pdf/route.ts:90-106 | the temporal section moves the cursor as its specification says, and does nothing when the section is absent |
| `PdfLayout.RenderSync` | src/app/api/generate-pdf/route.ts:109-125 | the audio-visual section moves the cursor as its specification says, and does nothing when the section is absent |
| `PdfLayout.RenderDetail` | src/app/api/generate-pdf/route.ts:128-147 | the detailed summary moves the cursor as its specification says, and does nothing when the section is absent |
| `PdfLayout.RenderHash` | src/app/api/generate-pdf/route.ts:186-194 | the hash line moves the cursor as the hash rule says |
| `PdfLayout.RenderOpening` | src/app/api/generate-pdf/route.ts:39-87 | title, verdict and summary move the cursor as their specification says |
| `PdfLayout.RenderOptional` | src/app/api/generate-pdf/route.ts:89-147 | the three optional sections move the cursor as their specification says |
| `PdfLayout.RenderRecord` | src/app/api/generate-pdf/route.ts:149-234 | case, file, hash, parameters and frames move the cursor as their specification says and return the frame counts the page prints |
| `PdfLayout.StampFooters` | src/app/api/generate-pdf/route.ts:237-252 | the `for` loop leaves exactly the footers of pages 1 to the last, in order, and moves no cursor |
| `PdfLayout.GeneratePdf` | src/app/api/generate-pdf/route.ts:5-272 | the route's response is the one its specification gives: an error, or a document with its page count, footers, frame counts and attachment name |

## Left out

- Network, file and database I/O: the form parse, the classification service, `connectToDatabase`,
  `countDocuments` and `find` are inputs: an upload or the message its parse threw; the service's
  reply; whether the database connects; whether the history queries fail; the collection's contents.
- The health checks (`GET` on the ingest route, `HEAD` on the history route) only test connectivity.
- MD5, `new Date()` and `Math.random()`: the fingerprint, the clock reading and the random string
  are inputs, one reading per pass of the retry loop.
- The retry loop is stated for any id builder passed in; the route passes `MintReportId`.
- Calendar validity of a clock reading is not checked; years above 9999 are not modelled, because
  `toISOString` changes format there.
- A service reply that is JSON but lacks a field the model reads, or holds one with the wrong JSON
  type, is treated as a failed analysis and answered with the 500 `Analysis failed: …`. `md5Hash` is
  the exception: it is overwritten before the reply is read, so its absence does not matter. The
  source answers such replies with 200 and whatever the reply held. `analyzeMedia` throws only
  when `videoFileMetadata` is missing or not an object (an array there does not throw either). The
  route then answers success whether the save that follows succeeds or fails, and a reply lacking
  `frameLevelClassification` even passes validation, the array defaulting to empty. The model has
  no report with missing fields, so this path and what it stores are not modelled.
- DetectDeepfake.ConformingReplyAnalyzed: the analysed report holds the declared fields and the
  three optional sections, and nothing else. A reply's further keys, at the top level or inside
  its nested objects, are dropped, whereas the source returns the parsed reply unchanged and the
  response carries them. An optional section present without its shape (a field missing or of
  another JSON type) reads as absent; the source would pass it on as it is.
- A `file` form field holding a string rather than a file is not modelled.
- `toUpperCase` is modelled for ASCII letters and the two non-ASCII letters whose upper case is a
  single ASCII letter. Letters whose upper case is several characters are kept unchanged; none of
  those expansions occurs in the three verdict names.
- JavaScript string lengths count UTF-16 code units; the model counts characters. This makes no
  difference for the ASCII hash line.
- HTTP header names are case-insensitive in the source; here they are looked up by the exact
  lower-case name.
- `parseInt`: `page` and `limit` arrive as parsed integers. A non-numeric value, which JavaScript
  parses to NaN and lets past the range check, is not modelled.
- Documents with equal `createdAt` come back in an order the database does not define; the model
  fixes one order.
- `_id`, `__v`, the `.lean()` conversion and the storage indexes other than the unique `reportId`
  index are not modelled.
- Cross-request concurrency: uniqueness between concurrent writers rests on the database index, and
  one request is modelled at a time.
- The PDF drawing calls, fonts and colours are not modelled; `splitTextToSize` is an input giving the
  line count of a text at a font size.
- Floating-point formatting (`toFixed`, percentages) is not modelled, nor the fake ratio, which divides
  by zero when no frames were analysed.
- A report missing a nested object, which would make the PDF route throw, is not modelled.
- UI components and page-number widgets in the browser are not modelled.
