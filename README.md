# Medical AI dashboard — a verified model of its deterministic core

The dashboard lets a clinician do the following:
- upload retinal fundus images and ERG (electroretinography) recordings;
- have each upload "processed" by a server route;
- fuse one processed image with one processed recording into a colour-blindness diagnosis;
- browse, filter and export the analyses;
- ask a chat assistant about the results.

Every "AI" score in the system is a `Math.random()` draw. The rules around those draws are deterministic:
- which guards answer 401, 400 or 500;
- how a row moves from pending to processing to completed or failed;
- the affine maps from a draw to a score;
- the fusion formula, the cumulative-weight diagnosis selection and the severity rule;
- the threshold bands the components colour by;
- the upload validators and list maintenance;
- the results statistics, filter, histogram and CSV;
- the chat responder and its prompt;
- the consent gate;
- the analysis page's progress bar.

This project states those rules in Dafny and proves what they promise.

Modelling choices that hold throughout:
- Each `Math.random()` value is a `real` parameter in [0, 1). Scores are exact reals.
- Timestamps are integers. Their text forms (ISO strings, date-fns formats) are parameters or left out.
- Each database table is a class holding a `map` from row id to row:
  - `Lifecycle.UploadTable` is used for `fundus_images` and `erg_data`;
  - `MultimodalRoute.AnalysisTable` is used for `multimodal_analyses`.
- A route handler is a method on its table. The deferred `setTimeout` body is a separate method (`Finish`, `Finalize`) that gets the draws, or the fact that it threw.
- Each page or component with state is a class whose methods update its fields. Examples: the upload pages, the analysis page and the consent form.
- What the page's fetch and store calls return is passed in as a parameter.
- JavaScript's falsy `||` fallbacks are written out. An absent or zero number takes the default. An absent or empty id is "missing".

Modules, one per source file unless noted:
- `Lifecycle`: the status machine shared by both upload tables.
- `FundusProcess`, `ErgProcess`, `MultimodalRoute`: the three processing routes.
- `ResultsPage`, `ErgUpload`, `FundusUpload`, `AnalysisPage`: the dashboard pages.
- `ErgVisualization`, `MultimodalResults`, `FundusImageCard`, `AnalysisDetailModal`, `ConsentForm`: the components.
- `ChatRoute`: the chat route.
- Shared helpers:
  - `Thresholds`: the 0.8 / 0.6 bands;
  - `Text`: lower-casing, `includes`, `join`, `Math.round`, `toFixed(1)`;
  - `Seqs`: filter, subsequence, and per-file accumulation;
  - `Http`: replies and JavaScript truthiness;
  - `Draws`: the range of a `Math.random()` value;
  - `Wrappers`: `Option`.

## Model

| member | source | states |
|---|---|---|
| Lifecycle.PendingRow | medical-ai-dashboard/app/dashboard/erg-upload/page.tsx:71-83 | A freshly inserted upload row is pending and carries no score, features or processing time. |
| Lifecycle.WithStatus | medical-ai-dashboard/app/api/fundus/process/route.ts:24 | A status write keyed by id changes only that row's status. Other rows are untouched, and an unknown id changes nothing. |
| Lifecycle.WithCompletion | medical-ai-dashboard/app/api/fundus/process/route.ts:41-49 | The completion write sets status completed together with score, features and time in one step. Other rows are untouched. |
| Lifecycle.UploadTable.InsertPending | medical-ai-dashboard/app/dashboard/erg-upload/page.tsx:71-83 | The insert adds a pending row under a fresh id and keeps the table invariant. A taken id is refused and changes nothing. |
| Lifecycle.UploadTable.SetStatus | medical-ai-dashboard/app/api/erg/process/route.ts:24 | A non-completed status write is exactly `WithStatus` and keeps "completed rows are whole". |
| Lifecycle.UploadTable.Complete | medical-ai-dashboard/app/api/erg/process/route.ts:45-53 | The completion write is exactly `WithCompletion` and keeps the table invariant. |
| Lifecycle.UploadFlowEndsWhole | medical-ai-dashboard/app/api/fundus/process/route.ts:24-53 | Insert, start and one finalize write together end the row completed with all derived fields, or failed with none. No other row changes. |
| Lifecycle.RestartKeepsStaleResults | medical-ai-dashboard/app/api/erg/process/route.ts:24 | The unconditional start leaves a completed row's old score on a processing row, and on a failed row after a later failure. |
| Lifecycle.WritesKeepInvariant | medical-ai-dashboard/app/api/erg/process/route.ts:45-56 | Both kinds of write preserve "every completed row has score, features and time". |
| FundusProcess.QualityScore | medical-ai-dashboard/app/api/fundus/process/route.ts:30 | Quality score lies in [0.6, 1.0) for every draw. |
| FundusProcess.ExtractFeatures | medical-ai-dashboard/app/api/fundus/process/route.ts:33-39 | Vessel clarity is in [0.5,1), sharpness in [0.7,1) and illumination in [0.6,1). The optic disc is detected iff its draw > 0.1, the macula iff its draw > 0.15. |
| FundusProcess.PostReply | medical-ai-dashboard/app/api/fundus/process/route.ts:13-59 | 401 comes before anything else and a missing id gives 400. Success, "Processing started", happens exactly when authenticated with a truthy id. |
| FundusProcess.FinishedRows | medical-ai-dashboard/app/api/fundus/process/route.ts:27-53 | Success completes the row with an in-range score, in-range features and the clock value, keeping file name and url. A throw sets only `failed`. Other rows are unchanged. |
| FundusProcess.Post | medical-ai-dashboard/app/api/fundus/process/route.ts:13-56 | The reply is `PostReply`. Only an accepted request writes, marking the row processing whatever its status. Rejected requests leave the table unchanged. |
| FundusProcess.Finish | medical-ai-dashboard/app/api/fundus/process/route.ts:27-54 | The timer callback yields exactly `FinishedRows` and keeps the table invariant. |
| ErgProcess.SignalQuality | medical-ai-dashboard/app/api/erg/process/route.ts:30 | Signal quality lies in [0.6, 1.0). |
| ErgProcess.ExtractFeatures | medical-ai-dashboard/app/api/erg/process/route.ts:33-43 | Ranges: a-wave [50,150), b-wave [200,500), latencies [12,17) and [45,55), implicit time [40,60), SNR [10,30), baseline [0.7,1). Oscillatory potentials iff draw > 0.3; artifact iff draw > 0.8. |
| ErgProcess.PostReply | medical-ai-dashboard/app/api/erg/process/route.ts:13-63 | 401 first; a missing `ergId` gives 400. "ERG processing started" exactly when authenticated with a truthy id. |
| ErgProcess.FinishedRows | medical-ai-dashboard/app/api/erg/process/route.ts:27-57 | Success completes the row with in-range quality and features in one write. A throw writes only `failed`. Other rows are unchanged. |
| ErgProcess.Post | medical-ai-dashboard/app/api/erg/process/route.ts:13-60 | Reply as `PostReply`. Only an accepted request writes `processing`, unconditionally. |
| ErgProcess.Finish | medical-ai-dashboard/app/api/erg/process/route.ts:27-58 | The timer callback yields exactly `FinishedRows` and keeps the table invariant. |
| MultimodalRoute.WeightsSumToOne | medical-ai-dashboard/app/api/analysis/multimodal/route.ts:70-78 | There are six types and six weights, and the weights sum to 1. |
| MultimodalRoute.FirstReached | medical-ai-dashboard/app/api/analysis/multimodal/route.ts:84-90 | The index found is the first whose cumulative weight reaches the draw; every earlier prefix falls short. |
| MultimodalRoute.SelectType | medical-ai-dashboard/app/api/analysis/multimodal/route.ts:80-90 | The loop with its early `break` selects the type at the first index whose running weight reaches the draw, else "Normal". `SelectedType` names that choice. |
| MultimodalRoute.SelectionBands | medical-ai-dashboard/app/api/analysis/multimodal/route.ts:78-90 | For a draw in [0,1) the fallback never triggers. Each type owns one interval: [0,0.4], (0.4,0.55], (0.55,0.7], (0.7,0.75], (0.75,0.875], (0.875,1). |
| MultimodalRoute.FundusConfidence | medical-ai-dashboard/app/api/analysis/multimodal/route.ts:60 | Fundus confidence lies in [0.7, 1.0). |
| MultimodalRoute.ErgConfidence | medical-ai-dashboard/app/api/analysis/multimodal/route.ts:64 | ERG confidence lies in [0.6, 0.9). |
| MultimodalRoute.JitterFactor | medical-ai-dashboard/app/api/analysis/multimodal/route.ts:67 | The jitter factor lies in [0.95, 1.05). |
| MultimodalRoute.CombinedBounds | medical-ai-dashboard/app/api/analysis/multimodal/route.ts:60-67 | The unclamped combined confidence lies in [0.627, 1.008) for all draws. `Combined` is `Fuse` (the 0.6 / 0.4 weighting times the jitter, route.ts:67) applied to the three confidence draws. |
| MultimodalRoute.CombinedMayExceedOne | medical-ai-dashboard/app/api/analysis/multimodal/route.ts:67 | With no clamp, valid draws exist whose combined confidence exceeds 1. |
| MultimodalRoute.FusionExample | medical-ai-dashboard/app/api/analysis/multimodal/route.ts:67 | The 0.6 / 0.4 weighting of 0.9 and 0.7 with no jitter is 0.82. |
| MultimodalRoute.SeverityOf | medical-ai-dashboard/app/api/analysis/multimodal/route.ts:93-100 | "None" exactly for Normal. Otherwise Severe iff > 0.8, Moderate iff in (0.6, 0.8], Mild iff ≤ 0.6. |
| MultimodalRoute.NeverMild | medical-ai-dashboard/app/api/analysis/multimodal/route.ts:60-100 | Given the draw ranges, the stored severity is never "Mild". |
| MultimodalRoute.OrDefault | medical-ai-dashboard/app/api/analysis/multimodal/route.ts:106 | A numeric `x \|\| d` keeps x when present and non-zero, and gives d for absent or 0. |
| MultimodalRoute.Details | medical-ai-dashboard/app/api/analysis/multimodal/route.ts:102-129 | The fusion weights sum to 1. Missing fundus features give flags false and vessel 0.8. Missing ERG features give a-wave 100, b-wave 300 and cone false. A missing signal quality gives 0.8. Channel intensities are in [0.6,1). |
| MultimodalRoute.NewAnalysis | medical-ai-dashboard/app/api/analysis/multimodal/route.ts:43-49 | The inserted analysis is `processing` with both ids and nothing scored. |
| MultimodalRoute.CompletedAnalysis | medical-ai-dashboard/app/api/analysis/multimodal/route.ts:131-144 | The completion write keeps the ids and sets every scoring field and `completed_at` at once. The stored type is `SelectedType` of the type draw, and the stored severity is `SeverityOf` that type and the combined confidence. The resulting row is consistent: severity None iff Normal, never Mild, combined in [0.627,1.008). |
| MultimodalRoute.FinalizedRows | medical-ai-dashboard/app/api/analysis/multimodal/route.ts:56-148 | Success writes `CompletedAnalysis` to that analysis alone. A throw writes only `failed`. Other rows are unchanged. |
| MultimodalRoute.CompletedLookup | medical-ai-dashboard/app/api/analysis/multimodal/route.ts:24-36 | The filtered single-row read finds a row iff it exists and is completed. |
| MultimodalRoute.Admit | medical-ai-dashboard/app/api/analysis/multimodal/route.ts:13-40 | Guards in source order: 401, then 400 for a missing id, then 400 "Selected data not found or not processed". Admission happens iff both referenced rows exist and are completed. |
| MultimodalRoute.AnalysisTable.Post | medical-ai-dashboard/app/api/analysis/multimodal/route.ts:13-159 | A rejection or failed insert leaves the table unchanged. Success inserts exactly one processing row with both ids and replies with its id and "Multimodal analysis started". |
| MultimodalRoute.AnalysisTable.Finalize | medical-ai-dashboard/app/api/analysis/multimodal/route.ts:56-148 | The fusion step's writes equal `FinalizedRows` and keep every completed row consistent. The fundus and ERG rows that feed `analysis_details` are the ones the request read for the analysis's own ids. |
| ResultsPage.SumBounds | medical-ai-dashboard/app/dashboard/results/page.tsx:114 | The sum of n confidences each in [lo,hi] lies in [n·lo, n·hi]. |
| ResultsPage.Mean | medical-ai-dashboard/app/dashboard/results/page.tsx:113-114 | The average times the count gives back the sum. |
| ResultsPage.MeanBounds | medical-ai-dashboard/app/dashboard/results/page.tsx:113-114 | An average of values in [lo,hi] lies in [lo,hi]. |
| ResultsPage.ComputeStats | medical-ai-dashboard/app/dashboard/results/page.tsx:110-122 | The total is the count and normal counts exact "Normal" types, with normal + abnormal = total. The average is sum/count, or 0 on an empty list. Recent is the first min(5, n) analyses in order. |
| ResultsPage.AverageWithinBounds | medical-ai-dashboard/app/dashboard/results/page.tsx:113-114 | The average lies within any bounds that hold every confidence. |
| ResultsPage.FilteredAnalyses | medical-ai-dashboard/app/dashboard/results/page.tsx:130-144 | An analysis is kept iff the search, type and date tests all pass. Every copy of a kept analysis stays, no copy of a dropped one does, and the result is an order-preserving subsequence. |
| ResultsPage.DefaultFiltersKeepAll | medical-ai-dashboard/app/dashboard/results/page.tsx:130-144 | An empty search, type "all" and no date range keep the whole list unchanged. |
| ResultsPage.EmptySearchMatches | medical-ai-dashboard/app/dashboard/results/page.tsx:131-134 | The empty search term matches every analysis. |
| ResultsPage.TypeDistribution | medical-ai-dashboard/app/dashboard/results/page.tsx:154-160 | The corrected histogram (see Findings): the keys are exactly the types present, and each count is that type's number of analyses. The counts sum to the number of analyses. |
| ResultsPage.BumpExtends | medical-ai-dashboard/app/dashboard/results/page.tsx:156 | One `acc[t] = (acc[t] \|\| 0) + 1` turns the histogram of a prefix into the histogram of the next prefix. |
| ResultsPage.DistributionAsWritten | medical-ai-dashboard/app/dashboard/results/page.tsx:154-160 | The plain-object `reduce` as written: its keys are types present, and `__proto__` never becomes one. |
| ResultsPage.AsWrittenAgreesOutsideInherited | medical-ai-dashboard/app/dashboard/results/page.tsx:154-160 | For a type name that is not an Object.prototype member, the page's key and count agree with the corrected histogram. |
| ResultsPage.InheritedTypeNameMiscounted | medical-ai-dashboard/app/dashboard/results/page.tsx:156 | One analysis typed "constructor" is stored as the member's text plus "1", not 1; one typed "__proto__" leaves no key. |
| ResultsPage.CsvFields | medical-ai-dashboard/app/dashboard/results/page.tsx:173-180 | A data row has as many fields as the header. |
| ResultsPage.CsvLines | medical-ai-dashboard/app/dashboard/results/page.tsx:170-181 | One header line plus one line per filtered analysis. |
| ResultsPage.CsvLineShape | medical-ai-dashboard/app/dashboard/results/page.tsx:172-181 | A data line of separator-free fields has exactly five commas (six columns) and no newline. |
| ResultsPage.HeaderShape | medical-ai-dashboard/app/dashboard/results/page.tsx:171 | The header line has six columns and no newline. |
| ResultsPage.LinesShape | medical-ai-dashboard/app/dashboard/results/page.tsx:170-181 | Every line of the export has six columns and no newline. |
| ResultsPage.CsvNewlines | medical-ai-dashboard/app/dashboard/results/page.tsx:170-182 | The exported text has exactly one newline per filtered analysis, so the header is followed by one line each. `ExportCsv` joins `CsvLines` with newlines. |
| ErgUpload.LastSegment | medical-ai-dashboard/app/dashboard/erg-upload/page.tsx:43 | `split(".").pop()` contains no dot. |
| ErgUpload.Extension | medical-ai-dashboard/app/dashboard/erg-upload/page.tsx:43 | The extension always starts with ".". |
| ErgUpload.ExtensionOfDottedName | medical-ai-dashboard/app/dashboard/erg-upload/page.tsx:43 | For "base.ext" with no dot in ext, the extension is "." + lower-cased ext. |
| ErgUpload.UndottedNameIsItsOwnExtension | medical-ai-dashboard/app/dashboard/erg-upload/page.tsx:42-45 | A name without a dot is taken whole, so a file named "csv" passes the type check. |
| ErgUpload.ValidationError | medical-ai-dashboard/app/dashboard/erg-upload/page.tsx:42-52 | A file passes iff its extension is .csv/.xlsx/.xls/.txt and it is at most 50 MiB. The type error wins when both fail. |
| ErgUpload.SizeLimitIsInclusive | medical-ai-dashboard/app/dashboard/erg-upload/page.tsx:49-52 | Exactly 50 MiB passes; one byte more gives the size error. |
| ErgUpload.Attempt | medical-ai-dashboard/app/dashboard/erg-upload/page.tsx:40-103 | An entry is added iff validation passes and the file is stored, and it is pending with the store's id. Otherwise the error is the validation, "Upload failed" or store message. A thrown process call still keeps the entry. |
| ErgUpload.Added | medical-ai-dashboard/app/dashboard/erg-upload/page.tsx:85-93 | A file adds at most one entry, and it is pending. |
| ErgUpload.Appended | medical-ai-dashboard/app/dashboard/erg-upload/page.tsx:39-104 | A drop appends at most one entry per file, every one pending. |
| ErgUpload.AppendedSplit | medical-ai-dashboard/app/dashboard/erg-upload/page.tsx:39-104 | Files are handled independently: the entries of a concatenated drop are the entries of each part, in order. |
| ErgUpload.RejectedFileAddsNothing | medical-ai-dashboard/app/dashboard/erg-upload/page.tsx:45-52 | A file failing validation appends nothing. |
| ErgUpload.LaterErrorWins | medical-ai-dashboard/app/dashboard/erg-upload/page.tsx:101-103 | The error shown after the loop is that of the last failing file. |
| ErgUpload.LastError | medical-ai-dashboard/app/dashboard/erg-upload/page.tsx:35-103 | After the loop there is no error iff no file failed. Otherwise the error is that of a failing file after which no file failed. |
| ErgUpload.Without | medical-ai-dashboard/app/dashboard/erg-upload/page.tsx:139 | Removal keeps exactly the entries with another id, every copy of them, in order. |
| ErgUpload.WithoutUnknownId | medical-ai-dashboard/app/dashboard/erg-upload/page.tsx:139 | Filtering out an id no entry has leaves the list equal. |
| ErgUpload.ErgUploadPage.constructor | medical-ai-dashboard/app/dashboard/erg-upload/page.tsx:26-29 | The page starts with no files, not uploading, progress 0 and no error. |
| ErgUpload.ErgUploadPage.HandleFile | medical-ai-dashboard/app/dashboard/erg-upload/page.tsx:40-103 | One pass appends `Added(file)` to the list and replaces the error only when this file fails. |
| ErgUpload.ErgUploadPage.OnDrop | medical-ai-dashboard/app/dashboard/erg-upload/page.tsx:33-110 | After a drop the list is the old list plus `Appended(files)`, the error is the last failure or none, `uploading` is false and progress is 100. |
| ErgUpload.ErgUploadPage.RemoveFile | medical-ai-dashboard/app/dashboard/erg-upload/page.tsx:124-143 | An unknown id changes nothing. A failing delete sets "Failed to delete file" and keeps the list. Otherwise exactly the entries with the id go. |
| FundusUpload.ValidationError | medical-ai-dashboard/app/dashboard/fundus-upload/page.tsx:38-45 | An image passes iff its MIME type starts with "image/" and it is at most 10 MiB. The MIME error wins. |
| FundusUpload.SizeLimitIsInclusive | medical-ai-dashboard/app/dashboard/fundus-upload/page.tsx:42-45 | Exactly 10 MiB passes; one byte more gives the size error. |
| FundusUpload.Attempt | medical-ai-dashboard/app/dashboard/fundus-upload/page.tsx:36-97 | An entry is added iff validation passes and the image is stored, with the store's id, the file's size and pending status. Each failure's message becomes the error. |
| FundusUpload.Added | medical-ai-dashboard/app/dashboard/fundus-upload/page.tsx:78-87 | An image adds at most one entry, pending and within the size limit. |
| FundusUpload.Appended | medical-ai-dashboard/app/dashboard/fundus-upload/page.tsx:35-98 | A drop appends at most one pending entry per file. |
| FundusUpload.AppendedSplit | medical-ai-dashboard/app/dashboard/fundus-upload/page.tsx:35-98 | Files are handled independently and in order. |
| FundusUpload.LaterErrorWins | medical-ai-dashboard/app/dashboard/fundus-upload/page.tsx:95-97 | The error shown after the loop is that of the last failing file. |
| FundusUpload.LastError | medical-ai-dashboard/app/dashboard/fundus-upload/page.tsx:31-97 | After the loop there is no error iff no file failed. Otherwise the error is that of a failing file after which no file failed. |
| FundusUpload.Without | medical-ai-dashboard/app/dashboard/fundus-upload/page.tsx:130 | Removal keeps exactly the entries with another id, every copy of them, in order. |
| FundusUpload.WithoutUnknownId | medical-ai-dashboard/app/dashboard/fundus-upload/page.tsx:130 | Filtering out an unknown id leaves the list equal. |
| FundusUpload.FundusUploadPage.constructor | medical-ai-dashboard/app/dashboard/fundus-upload/page.tsx:23-26 | The page starts empty, idle, at progress 0, with no error. |
| FundusUpload.FundusUploadPage.HandleFile | medical-ai-dashboard/app/dashboard/fundus-upload/page.tsx:36-97 | One pass appends `Added(file)` and replaces the error only when this image fails. |
| FundusUpload.FundusUploadPage.OnDrop | medical-ai-dashboard/app/dashboard/fundus-upload/page.tsx:29-104 | The list gains `Appended(files)`, the error is the last failure or none, and the page ends idle at 100. |
| FundusUpload.FundusUploadPage.RemoveImage | medical-ai-dashboard/app/dashboard/fundus-upload/page.tsx:115-134 | An unknown id is a no-op. A failing delete sets "Failed to delete image". Otherwise only entries with the id go. |
| ErgVisualization.AmplitudeStatusOf | medical-ai-dashboard/components/erg-data-visualization.tsx:40-45 | Normal iff the amplitude is within the inclusive band ([50,150] for a, [200,500] for b), Reduced iff below, Elevated iff above. Exactly one holds. |
| ErgVisualization.GeneratedAmplitudesAreNormal | medical-ai-dashboard/app/api/erg/process/route.ts:34-35 | Every a-wave and b-wave amplitude the processing step generates is classified Normal. |
| ErgVisualization.QualityColour | medical-ai-dashboard/components/erg-data-visualization.tsx:34-38 | Green iff ≥ 0.8, yellow iff in [0.6, 0.8), red iff < 0.6. |
| ErgVisualization.QualityOrZero | medical-ai-dashboard/components/erg-data-visualization.tsx:238 | A missing signal quality counts as 0. |
| ErgVisualization.Percent | medical-ai-dashboard/components/erg-data-visualization.tsx:61 | The shown percentage is 0 when the value is missing, else within half a point of value·100. |
| ErgVisualization.PhotoreceptorText | medical-ai-dashboard/components/erg-data-visualization.tsx:265-267 | The "normal response" text shows iff the a-wave status is Normal. |
| ErgVisualization.BipolarText | medical-ai-dashboard/components/erg-data-visualization.tsx:273-275 | The "normal response" text shows iff the b-wave status is Normal. |
| ErgVisualization.ConeText | medical-ai-dashboard/components/erg-data-visualization.tsx:287-289 | The normal-cone text shows iff oscillatory potentials are present. |
| ErgVisualization.IntegrityText | medical-ai-dashboard/components/erg-data-visualization.tsx:295-297 | The "reliable assessment" text shows iff the quality is in the high band. |
| ErgVisualization.Render | medical-ai-dashboard/components/erg-data-visualization.tsx:19-297 | Without features only the placeholder renders. Otherwise the amplitude statuses are classified as above, the cone line follows the oscillatory-potentials flag, the "Artifacts Detected" badge shows iff `artifact_detection` is set, and a missing quality shows 0%, red and not reliable. A present quality shows its band colour and rounded percentage, and the baseline percentage is rounded. |
| ErgVisualization.ProcessedRecordingReadsNormal | medical-ai-dashboard/components/erg-data-visualization.tsx:34-45 | A recording finished by the processing step renders with both waves Normal and its quality never red. |
| MultimodalResults.ConfidenceColour | medical-ai-dashboard/components/multimodal-results.tsx:30-34 | Green iff ≥ 0.8, yellow iff in [0.6, 0.8), red iff < 0.6. |
| MultimodalResults.ConfidenceBadge | medical-ai-dashboard/components/multimodal-results.tsx:36-40 | High / Medium / Low badge iff the confidence is in the high / medium / low band. |
| MultimodalResults.BadgeAgreesWithColour | medical-ai-dashboard/components/multimodal-results.tsx:30-40 | The badge and the colour always name the same band. |
| MultimodalResults.CombinedNeverRed | medical-ai-dashboard/app/api/analysis/multimodal/route.ts:67 | A combined confidence produced by the route is never coloured red. |
| MultimodalResults.SeverityColour | medical-ai-dashboard/components/multimodal-results.tsx:42-55 | Gray exactly when the lower-cased text is none of none/mild/moderate/severe. |
| MultimodalResults.SeverityColourIgnoresCase | medical-ai-dashboard/components/multimodal-results.tsx:43 | The colour depends only on the lower-cased text. |
| MultimodalResults.SeverityColourOfRouteNames | medical-ai-dashboard/app/api/analysis/multimodal/route.ts:93-100 | The four severities the route writes get green, yellow, orange and red. |
| MultimodalResults.Described | medical-ai-dashboard/components/multimodal-results.tsx:58-65 | Each known type has a non-empty description that differs from "Unknown condition". |
| MultimodalResults.ParseDiagnosis | medical-ai-dashboard/components/multimodal-results.tsx:58-65 | A name parses to a type exactly when it is that type's own name. |
| MultimodalResults.TypeDescriptionAsWritten | medical-ai-dashboard/components/multimodal-results.tsx:57-67 | As written, known names get their description. Names of inherited object members yield that member, and any other name gets "Unknown condition". |
| MultimodalResults.InheritedKeyEscapesFallback | medical-ai-dashboard/components/multimodal-results.tsx:66 | The type name "constructor" does not get "Unknown condition". |
| MultimodalResults.TypeDescription | medical-ai-dashboard/components/multimodal-results.tsx:57-67 | "Unknown condition" exactly for names outside the six types; known types get their description. |
| MultimodalResults.DescriptionsDistinct | medical-ai-dashboard/components/multimodal-results.tsx:58-66 | Distinct types have distinct descriptions. The corrected and as-written lookups agree on the route's type names. |
| MultimodalResults.Recommendations | medical-ai-dashboard/components/multimodal-results.tsx:192-217 | "Normal" gets the single no-further-testing item. Every other type gets the two follow-up items, testing then counselling. |
| FundusImageCard.StatusIcon | medical-ai-dashboard/components/fundus-image-card.tsx:23-34 | Completed, processing and failed each have their own icon, and pending shows the clock. |
| FundusImageCard.QualityBadgeOf | medical-ai-dashboard/components/fundus-image-card.tsx:36-59 | No badge iff the score is missing or 0. Otherwise Excellent / Good / Poor by band, with the percentage within half a point of score·100. |
| FundusImageCard.ProcessedImageNeverPoor | medical-ai-dashboard/app/api/fundus/process/route.ts:30 | A processed image always gets a badge, and never "Poor". |
| FundusImageCard.DetectionText | medical-ai-dashboard/components/fundus-image-card.tsx:87 | "Detected" iff the flag is set. |
| FundusImageCard.FeatureRowsOf | medical-ai-dashboard/components/fundus-image-card.tsx:82-97 | Rows appear iff features are present, each reading "Detected" iff its flag is set. |
| AnalysisDetailModal.RowsOf | medical-ai-dashboard/components/analysis-detail-modal.tsx:105-116 | A file section appears iff the joined record exists, showing its filename and its score as a rounded percentage. |
| AnalysisDetailModal.Render | medical-ai-dashboard/components/analysis-detail-modal.tsx:32-143 | A null analysis renders nothing, and each file section appears iff its record exists. The combined, fundus and ERG confidences each take the results view's colour: green ≥ 0.8, yellow ≥ 0.6, red below. Each is shown as its rounded percentage. The severity takes the results view's severity colour, gray iff its lower-cased text is none of the four levels. |
| ChatRoute.LastContent | medical-ai-dashboard/app/api/chat/route.ts:12 | The responder reads the last message's content, or "" for an empty list. |
| ChatRoute.Classify | medical-ai-dashboard/app/api/chat/route.ts:15-31 | On the lower-cased text: ERG iff it contains "erg", then fundus, then any of the three colour-blindness terms, else the default. |
| ChatRoute.Respond | medical-ai-dashboard/app/api/chat/route.ts:6-32 | The simulated model's answer is the answer of the topic of the last message. |
| ChatRoute.AllergyAnsweredAsErg | medical-ai-dashboard/app/api/chat/route.ts:15 | Substring matching sends "Allergy" to the ERG answer. |
| ChatRoute.ErgTakesPriority | medical-ai-dashboard/app/api/chat/route.ts:15-21 | A message naming both ERG and fundus gets the ERG answer. |
| ChatRoute.BlockOccurs | medical-ai-dashboard/app/api/chat/route.ts:73-80 | The block of analysis i, numbered i+1, follows right after the blocks of the analyses before it. |
| ChatRoute.PromptCarriesEveryAnalysis | medical-ai-dashboard/app/api/chat/route.ts:54-81 | Without context the prompt is the base text. The prompt always starts with the base text and contains one numbered block per analysis. |
| ChatRoute.BuildSystemPrompt | medical-ai-dashboard/app/api/chat/route.ts:71-81 | The `+=` loop builds exactly the base, the header and the blocks in context order. `SystemPrompt` is that text, and `ContextBlock` (route.ts:74-79) is the numbered block with the three percentages as `toFixed(1)` text. |
| ChatRoute.ChatMessages | medical-ai-dashboard/app/api/chat/route.ts:84-91 | The list is the system prompt, then the history in order, then the user's message last. |
| ChatRoute.ReplyDependsOnlyOnMessage | medical-ai-dashboard/app/api/chat/route.ts:84-94 | Whatever the prompt and history, the reply is determined by the request's message alone. |
| ChatRoute.Post | medical-ai-dashboard/app/api/chat/route.ts:34-100 | 401 first and 400 without a message. An unparsable body or missing history gives 500. Otherwise the reply answers the message. |
| ConsentForm.Consents.With | medical-ai-dashboard/components/consent-form.tsx:23 | Setting one consent changes that consent only. |
| ConsentForm.CanProceedIffRequired | medical-ai-dashboard/components/consent-form.tsx:26 | The user may proceed iff every required consent (all but research) is given. |
| ConsentForm.ResearchIsOptional | medical-ai-dashboard/components/consent-form.tsx:26 | The research consent never changes whether the user may proceed. |
| ConsentForm.WithdrawingRequiredBlocks | medical-ai-dashboard/components/consent-form.tsx:22-26 | Unchecking a required consent blocks the user. |
| ConsentForm.InitiallyBlocked | medical-ai-dashboard/components/consent-form.tsx:15-26 | All four consents start false, so the user is blocked. |
| ConsentForm.RequiredChecksUnlock | medical-ai-dashboard/components/consent-form.tsx:15-26 | Checking the three required boxes on a fresh form is enough to proceed. |
| ConsentForm.ButtonLabel | medical-ai-dashboard/components/consent-form.tsx:138-139 | The button reads "Accept & Continue" iff the user may proceed. |
| ConsentForm.ConsentPanel.constructor | medical-ai-dashboard/components/consent-form.tsx:15-20 | The form starts with every consent unchecked. |
| ConsentForm.ConsentPanel.HandleConsentChange | medical-ai-dashboard/components/consent-form.tsx:22-24 | A toggle updates the named consent and leaves the others unchanged. |
| ConsentForm.ConsentPanel.HandleSubmit | medical-ai-dashboard/components/consent-form.tsx:28-32 | The full consent record is handed on iff every required consent is given. |
| AnalysisPage.FailureMessage | medical-ai-dashboard/app/dashboard/analysis/page.tsx:131-132 | A failed start shows the thrown error's message, else "Analysis failed". |
| AnalysisPage.ProgressStep | medical-ai-dashboard/app/dashboard/analysis/page.tsx:106-114 | One beat parks at 90 from 90 or more, else adds 10. From at most 80 it rises and stays ≤ 90, and it keeps multiples of ten. |
| AnalysisPage.TicksFromZero | medical-ai-dashboard/app/dashboard/analysis/page.tsx:106-114 | From 0, after n beats the bar shows min(10·n, 90). |
| AnalysisPage.TicksStayBelowCompletion | medical-ai-dashboard/app/dashboard/analysis/page.tsx:106-114 | However long the interval runs, the bar stays in [0, 90] before completion. |
| AnalysisPage.StageOf | medical-ai-dashboard/app/dashboard/analysis/page.tsx:239-242 | The stage is chosen by the bands [0,30), [30,60), [60,90) and ≥ 90. |
| AnalysisPage.ExactlyOneStageShows | medical-ai-dashboard/app/dashboard/analysis/page.tsx:239-242 | The four independent conditionals render exactly one stage message. `StageCaption` is the four conditionals concatenated. |
| AnalysisPage.EnabledButtonPassesGuard | medical-ai-dashboard/app/dashboard/analysis/page.tsx:217-219 | An enabled button means both selections are made. |
| AnalysisPage.AnalysisView.constructor | medical-ai-dashboard/app/dashboard/analysis/page.tsx:43-48 | No selection, not analyzing, progress 0, no result and no error. |
| AnalysisPage.AnalysisView.SelectFundus | medical-ai-dashboard/app/dashboard/analysis/page.tsx:168 | Choosing an image changes only the fundus selection. |
| AnalysisPage.AnalysisView.SelectErg | medical-ai-dashboard/app/dashboard/analysis/page.tsx:195 | Choosing a recording changes only the ERG selection. |
| AnalysisPage.AnalysisView.BeginRequest | medical-ai-dashboard/app/dashboard/analysis/page.tsx:79-86 | A request is sent iff both selections are non-empty. If not, only the error is set and `analyzing` is unchanged. If so, the error is cleared, `analyzing` is raised and progress is 0. |
| AnalysisPage.AnalysisView.OnResponse | medical-ai-dashboard/app/dashboard/analysis/page.tsx:99-135 | An accepted start yields the analysis id to fetch. A failure shows its message and stops with progress 0. |
| AnalysisPage.AnalysisView.RunMultimodalAnalysis | medical-ai-dashboard/app/dashboard/analysis/page.tsx:78-136 | Composes the guard and the response. Every path keeps progress a multiple of ten in [0, 90] while analyzing. |
| AnalysisPage.AnalysisView.Tick | medical-ai-dashboard/app/dashboard/analysis/page.tsx:106-114 | One beat applies `ProgressStep` and keeps the progress invariant. |
| AnalysisPage.AnalysisView.Complete | medical-ai-dashboard/app/dashboard/analysis/page.tsx:117-130 | Completion sets progress 100, clears `analyzing` and shows the fetched analysis. |
| Thresholds.BandOf | medical-ai-dashboard/components/multimodal-results.tsx:30-34 | High iff ≥ 0.8, Medium iff in [0.6, 0.8), Low iff < 0.6: the three bands partition the reals. |
| Thresholds.BandMonotone | medical-ai-dashboard/components/fundus-image-card.tsx:42-58 | A larger score never lands in a lower band. |
| Text.ToLower | medical-ai-dashboard/app/dashboard/results/page.tsx:132 | Lower-casing keeps the length, folds each letter and leaves no upper-case letter. |
| Text.ToLowerIdempotent | medical-ai-dashboard/components/multimodal-results.tsx:43 | Lower-casing twice is lower-casing once. |
| Text.ContainsIffOccurs | medical-ai-dashboard/app/dashboard/results/page.tsx:132 | `includes` holds iff the needle occurs at some position. |
| Text.NatToStringRoundTrip | medical-ai-dashboard/app/api/chat/route.ts:74 | Reading back the printed digits of a number gives the number. |
| Text.Round | medical-ai-dashboard/app/dashboard/results/page.tsx:177 | `Math.round` yields the integer within half a unit, with halves rounded up. |
| Text.ToFixed1 | medical-ai-dashboard/app/api/chat/route.ts:77 | `toFixed(1)` starts with '-' iff the value is negative, and otherwise has digits, a point and one decimal. |
| Text.JoinSeparatorCount | medical-ai-dashboard/app/dashboard/results/page.tsx:182 | Joining separator-free parts puts exactly one separator between consecutive parts. |

## Left out

- Supabase queries, inserts, updates and deletes are left out as foreign calls: the tables are in-memory maps, and each page passes in what its calls return (`Transfer`, `StartResponse`, `deleteThrows`). Vercel Blob storage and `fetch` are left out the same way.
- Authentication is a boolean parameter. Parsing the request body is the `Malformed` case of each request datatype.
- `setTimeout` / `setInterval` scheduling is left out as timing and concurrency. The deferred step is a separate method call, and the progress interval is `Tick`, called by whoever drives it.
- `Math.random()` is a parameter in [0, 1) and its distribution is not modelled. Numbers are exact reals, not IEEE doubles, so float rounding and NaN are not modelled. This affects the fusion formula. It also affects the selection loop's running sum, which in doubles is 0.7000000000000001, 0.7500000000000001 and 0.8750000000000001 after the third to fifth weights. A draw exactly one ulp above 0.7, 0.75 or 0.875 therefore falls in the lower band in the program, but in the next band in `MultimodalRoute.SelectionBands`.
- Dates (`new Date`, `toISOString`, date-fns `format`, `toLocaleDateString`) are left out. Timestamps are integers, and the CSV's date text is a function parameter.
- `toLowerCase` folds only ASCII letters. Unicode case mapping is not modelled.
- JSX markup, recharts, the dropzone's `accept` filter, navigation and styling are UI and are not modelled. The components' decisions are modelled as values (`Panel`, `DetailView`, icons, colours).
- ErgVisualization.Render: the panel records each decision (statuses, the oscillatory and artifact flags, percentages, colour) rather than the rendered strings. The placeholder waveform boxes and the `toFixed(1)` readouts of the raw feature values are display only and not modelled. The text functions give the wording.
- The analysis page's `loadData` and the results page's joined select are I/O and are not modelled; the loaded lists are inputs. The chart data's rounding is covered by `Text.Round`.
- ChatRoute.BuildSystemPrompt: the block template is a parameter, and the handler passes `ContextBlock`. Context entries with undefined fields are not modelled.
- The elements of `conversationHistory` are taken as role and content pairs. A history element without those fields is not modelled.
- MultimodalRoute.AnalysisTable.Post: the store's generated id and its insert error are parameters, and a taken id is treated as an insert error.
- Lifecycle.UploadTable.InsertPending: the generated id is a parameter.
- ResultsPage.ComputeStats: the average is stated through `Mean`, whose contract is average × count = sum, rather than as a formula on reals.
- FundusImageCard.StatusIcon: statuses are the four the schema uses. The source's `default` branch for other strings maps to the same clock as "pending".
- The start step is unconditional, as in the source. A restarted completed row keeps its old score and features (`Lifecycle.RestartKeepsStaleResults`), so "derived fields only on completed rows" does not hold after a restart.
- `medical-ai-dashboard/lib/audit-logger.ts` is not part of this model: it only wraps an insert.
- The ERG delete route, the sign-up pages and the static pages (landing, about, contact, layout, navigation, disclaimer) are not part of this model.
- Quirks modelled as written, not corrected:
  - an ERG file named "csv", with no dot, passes the type check;
  - the chat responder's "erg" also matches words such as "allergy";
  - the progress step from a value that is not a multiple of ten (85, say) can rise to 95.

## Findings

| source | as written | input that shows it | evidently intended | confidence | as-written member | corrected member |
|---|---|---|---|---|---|---|
| medical-ai-dashboard/components/multimodal-results.tsx:66 | `descriptions[type] \|\| "Unknown condition"` reads a plain object literal, so a name of an inherited Object.prototype member finds that member | type "constructor" (also "toString", "valueOf", ...) yields the Object constructor function, not "Unknown condition" | any name outside the six types gets "Unknown condition" | not executed | MultimodalResults.TypeDescriptionAsWritten (exhibited by MultimodalResults.InheritedKeyEscapesFallback) | MultimodalResults.TypeDescription |
| medical-ai-dashboard/app/dashboard/results/page.tsx:156 | `acc[t] = (acc[t] \|\| 0) + 1` on `{}` reads an inherited Object.prototype member for a key the object does not own yet | type "constructor" stores the Object constructor's text followed by "1", and "__proto__" leaves no key at all | every type present counted from 0 | not executed | ResultsPage.DistributionAsWritten (exhibited by ResultsPage.InheritedTypeNameMiscounted) | ResultsPage.TypeDistribution |
