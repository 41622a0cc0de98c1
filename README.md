# eve-ai case triage, cephalometric engine and validators in Dafny

This project models the deterministic core of eve-ai, a browser application for women's-health and dental imaging. It has three parts.

- **Case triage pipeline.**
  - The upload dialog records a scan for a health domain and scan type.
  - The case processor creates a `PENDING_ANALYSIS` case in the case table.
  - It dispatches the case to an analysis path chosen by its domain.
  - It commits the result. On success that is `REVIEW_PENDING` with a priority derived from the risk score and the BI-RADS category. On failure it is `ANALYSIS_FAILED`.
  - The doctor's dashboard orders the queue by priority and age.
  - The report list filters by patient ID and sorts by a chosen column.
- **Cephalometric engine.**
  - Landmarks are looked up by name.
  - SNA and SNB are computed with the law of cosines, and ANB is their difference.
  - Each value is classified against fixed thresholds.
  - The controls scale detected landmarks to pixels.
  - The view derives its report from the landmark list.
- **Patient-mode helpers.**
  - The annotation-to-finding adapter.
  - The cycle-day and symptom validation.
  - The assembly of an image-edit response from the provider's parts.

Every provider call (Gemini) is an input to the model, of type `Reply<T> = Answered(value) | Failed(message)`. The functions `Math.sqrt` and `Math.acos` and the constant `Math.PI` are the fields of a `MathLib` value. They are constrained only by `ValidMath`.

Files:

- `wrappers.dfy`: Option and Reply, plus JavaScript truthiness for optional strings.
- `types.dfy`: the shared records and enumerations of `types.ts`.
- `text.dfy`: the string built-ins the views rely on: `trim`, `toLowerCase`, `includes`, `<` on strings, and decimal rendering.
- `sorting.dfy`: a stable comparator sort.
- Then one module per source file.

State that the source mutates is modelled as classes:

- the Dexie case table;
- the hook's `isProcessing`/`error`;
- the dialogs' and views' React state.

Pure mappings are functions, and the loop over response parts is a method with invariants.

## Model

| member | source | states |
|---|---|---|
| Cephalometric.GetPoint | utils/cephalometricCalculations.ts:5-7 | nothing exactly when no landmark has the exact name; otherwise the point of the first landmark with that name |
| Cephalometric.GetPointFirstWins | utils/cephalometricCalculations.ts:5-7 | a later duplicate of a name never changes the point found |
| Cephalometric.DistanceSymmetric | utils/cephalometricCalculations.ts:9-11 | distance(p1, p2) = distance(p2, p1) |
| Cephalometric.DistanceNonNegative | utils/cephalometricCalculations.ts:9-11 | the distance is never negative |
| Cephalometric.LawOfCosinesSymmetric | utils/cephalometricCalculations.ts:14-19 | swapping the two adjacent sides leaves the law-of-cosines angle unchanged |
| Cephalometric.AngleSymmetric | utils/cephalometricCalculations.ts:13-20 | the angle at p1 is unchanged when p2 and p3 are swapped |
| Cephalometric.ScaleToDegrees | utils/cephalometricCalculations.ts:19 | a radian value in [0, pi] becomes a degree value in [0, 180] |
| Cephalometric.AngleRange | utils/cephalometricCalculations.ts:13-20 | a defined (non-NaN) angle lies in [0, 180] degrees |
| Cephalometric.AngleDegenerate | utils/cephalometricCalculations.ts:18 | a far point that coincides with the vertex gives NaN (zero denominator) |
| Cephalometric.Minus | utils/cephalometricCalculations.ts:37 | the difference is defined exactly when both operands are, and then ANB + SNB = SNA |
| Cephalometric.Classify | utils/cephalometricCalculations.ts:40-42 | the upper label iff the value exceeds the high threshold, the lower label iff it is below the low one, Normal otherwise and for NaN (both thresholds are Normal) |
| Cephalometric.SteinerBattery | utils/cephalometricCalculations.ts:39-43 | exactly SNA, SNB, ANB, all in degrees, with ranges '82° ± 2°', '80° ± 2°', '2° ± 2°', ANB = SNA - SNB, each interpreted by its own thresholds |
| Cephalometric.Analyze | utils/cephalometricCalculations.ts:25-47 | 'Steiner Analysis' is the only possible key and is present iff S, N, A and B are all found; otherwise the map is empty; when present the battery is SteinerBattery of the angles S-N-A and S-N-B taken at Nasion |
| Cephalometric.SnaThresholds | utils/cephalometricCalculations.ts:40 | SNA 80 and 84 are Normal, 84.5 Protrusive, 79.5 Retrusive |
| Cephalometric.AnbThresholds | utils/cephalometricCalculations.ts:42 | ANB 0 and 4 are Normal, 4.5 Skeletal Class II, -0.5 Skeletal Class III |
| GeminiService.PathFor | services/geminiService.ts:64-92 | BREAST_HEALTH, BREAST_CANCER_ANALYSIS and SKIN_HEALTH each take their own path, and every other domain the placeholder path |
| GeminiService.RiskFold | services/geminiService.ts:73 | the max-fold is at least its start and every probability x 100, and equals the start or one of them |
| GeminiService.BridgePatientSummaryMentions | services/geminiService.ts:76 | the patient summary carries the finding count after its lead-in and the BI-RADS category after the middle phrase |
| GeminiService.BridgeBreastResult | services/geminiService.ts:72-85 | risk score 0 with no findings, never negative, the maximum probability x 100; Biopsy iff BI-RADS >= 4, else Routine Screening; findings map 1:1 in order with confidence = malignancy probability; bi_rads and clinical summary copied |
| GeminiService.AnalyzeScan | services/geminiService.ts:64-92 | each path's outcome: the breast-scan and skin replies as given, the bridged breast-image reply, or the placeholder result |
| GeminiService.AnalyzeScanFailsOnlyOnProvider | services/geminiService.ts:64-92 | the dispatch fails only when the provider call of an implemented path fails; uncovered domains never fail |
| GeminiService.GetCasePriority | services/geminiService.ts:606-614 | HIGH iff risk > 75 or BI-RADS present and >= 4; MEDIUM iff not that and 40 < risk <= 75; LOW iff not suspicious and risk <= 40 |
| GeminiService.PriorityMonotone | services/geminiService.ts:606-614 | a higher risk score, or gaining a suspicious BI-RADS category, never makes the priority less urgent |
| GeminiService.BridgeExample | services/geminiService.ts:72-85 | probabilities 0.85 and 0.60 with BI-RADS 4 give risk 85, Biopsy, bi_rads 4 and HIGH priority |
| GeminiService.ImageDataUrl | services/geminiService.ts:393-395 | a `data:` URL of the form `data:<type>;base64,<data>`, the type being the part's mimeType when non-empty and `image/png` when it is missing or empty |
| GeminiService.LastText | services/geminiService.ts:388-398 | nothing iff no part has a non-empty text; otherwise the text of the last such part |
| GeminiService.LastImage | services/geminiService.ts:388-398 | nothing iff no part is an image part (one with inline data and no text); otherwise the URL of the last such part |
| GeminiService.AssembleEditResponse | services/geminiService.ts:384-407 | with an image part: the last image and the last text (or ""); without one: the original URL and the last text, else the SDK text, else the fixed fallback |
| CaseProcessing.ApplyChanges | hooks/useCaseProcessor.ts:27-34 | a partial update: present fields overwrite; absent ones, the identity and image fields, the clinician note, the override reason and both reports stay |
| CaseProcessing.CaseDatabase.constructor | services/db.ts:4-16 | a never-used database holds no cases |
| CaseProcessing.CaseDatabase.Get | hooks/useCaseProcessor.ts:20 | the stored case under the id, or nothing |
| CaseProcessing.CaseDatabase.Add | hooks/useCaseProcessor.ts:54 | a new key is stored; an existing key is rejected and the table is unchanged |
| CaseProcessing.CaseDatabase.Update | hooks/useCaseProcessor.ts:27-34 | the case under the id is partially updated; a missing id changes nothing and reports 0 |
| CaseProcessing.NewCase | hooks/useCaseProcessor.ts:44-53 | status PENDING_ANALYSIS, priority LOW, no result, patient ID 'P' + the clock, image name, type and data from the file |
| CaseProcessing.ProcessAnalysis | hooks/useCaseProcessor.ts:19-37 | a missing case leaves the table as it was; an existing case becomes CommitAnalysis of it (the success or failure update); no other record and no key set changes |
| CaseProcessing.CommitOnSuccess | hooks/useCaseProcessor.ts:24-31 | success stores the result, REVIEW_PENDING and the derived priority |
| CaseProcessing.CommitOnFailure | hooks/useCaseProcessor.ts:32-35 | failure changes only the status, to ANALYSIS_FAILED |
| CaseProcessing.CommitKeepsIdentity | hooks/useCaseProcessor.ts:27-34 | processing never touches identity, origin, image, clinician or report fields |
| CaseProcessing.PlaceholderDomainsComplete | hooks/useCaseProcessor.ts:24-31 | a case of an uncovered domain still reaches REVIEW_PENDING, with the placeholder result |
| CaseProcessing.ProcessPendingKeepsShape | hooks/useCaseProcessor.ts:19-37 | analysing a pending case keeps all records in the shape 'result present iff REVIEW_PENDING' |
| CaseProcessing.NewCaseKeepsShape | hooks/useCaseProcessor.ts:44-55 | adding a fresh case and analysing it keeps that shape |
| CaseProcessing.ReanalysisFailureKeepsStaleResult | hooks/useCaseProcessor.ts:19-35 | no PENDING check: a failed re-analysis of a reviewed case leaves ANALYSIS_FAILED beside the old result |
| CaseProcessing.ErrorText | hooks/useCaseProcessor.ts:58 | the message when non-empty, else 'An unknown error occurred.' |
| CaseProcessing.DecisionKeepsStatus | views/doctor/ScanViewer.tsx:62-64 | recording a decision changes neither the status nor the result, so REVIEW_COMPLETED is never written |
| CaseProcessing.CaseProcessor.constructor | hooks/useCaseProcessor.ts:16-17 | not processing, no error |
| CaseProcessing.CaseProcessor.ProcessCaseAnalysis | hooks/useCaseProcessor.ts:19-37 | the table becomes ProcessAnalysis of it; the error is rethrown exactly when an existing case's analysis failed |
| CaseProcessing.CaseProcessor.ProcessNewCase | hooks/useCaseProcessor.ts:39-62 | read failure or taken id: table unchanged and the error set; otherwise the new case is added and committed and the error is the analysis failure's message, if any; never processing afterwards |
| UploadModal.TableHasNoDuplicates | components/UploadModal.tsx:14-27 | the table lists twelve distinct domains |
| UploadModal.EmptyScanTypeLists | components/UploadModal.tsx:24-26 | only MENTAL_HEALTH and PREVENTIVE_HEALTH have no scan types |
| UploadModal.EveryDomainInTable | components/UploadModal.tsx:14-27 | every domain is a key of the table |
| UploadModal.FilterUploadableMembers | components/UploadModal.tsx:30-32 | the filter keeps exactly the domains that have scan types |
| UploadModal.FilterAppend | components/UploadModal.tsx:30-32 | the filter distributes over concatenation |
| UploadModal.FilterKeepsAll | components/UploadModal.tsx:30-32 | a list without empty domains passes unchanged |
| UploadModal.UploadableDomains | components/UploadModal.tsx:30-32 | a domain is offered iff it has scan types |
| UploadModal.UploadableDomainsValue | components/UploadModal.tsx:30-32 | the offered list is the table order minus the two empty domains |
| UploadModal.DefaultScanType | components/UploadModal.tsx:50-55 | the first listed scan type, or MAMMOGRAM for an empty list |
| UploadModal.DefaultScanTypeValid | components/UploadModal.tsx:50-55 | for an offered domain the default scan type belongs to it |
| UploadModal.UploadDialog.constructor | components/UploadModal.tsx:43-46 | no file, BREAST_CANCER_ANALYSIS with BREAST_IMAGE (a valid pair), no error |
| UploadModal.UploadDialog.ChangeDomain | components/UploadModal.tsx:50-55 | the domain and its default scan type are set, the rest kept |
| UploadModal.UploadDialog.ChangeScanType | components/UploadModal.tsx:105 | only the scan type changes |
| UploadModal.UploadDialog.AddFiles | components/UploadModal.tsx:119-123 | the first file of a non-empty new list replaces the current one; an empty list changes nothing; the error and the selection stay |
| UploadModal.UploadDialog.RemoveFile | components/UploadModal.tsx:125 | only the file is cleared |
| UploadModal.UploadDialog.Upload | components/UploadModal.tsx:64-74 | no file: the file error and no upload; otherwise an upload of the current selection |
| UploadModal.UploadDialog.Close | components/UploadModal.tsx:76-83 | while processing nothing happens; otherwise the dialog resets to the valid default pair and closes |
| DoctorDashboard.QueueCompare | views/doctor/DoctorDashboard.tsx:58-64 | negative iff a is more urgent, or equally urgent and newer; zero iff same priority and timestamp |
| DoctorDashboard.QueueBeforeIsPreorder | views/doctor/DoctorDashboard.tsx:58-64 | the comparator is a consistent total preorder |
| DoctorDashboard.SortQueue | views/doctor/DoctorDashboard.tsx:58-64 | a permutation of the fetched cases; HIGH before MEDIUM before LOW; within a priority, newer first |
| DoctorDashboard.QueueIsPermutation | views/doctor/DoctorDashboard.tsx:58 | a case is in the queue iff it was fetched |
| DoctorDashboard.QueueOrderDecided | views/doctor/DoctorDashboard.tsx:59-63 | cases with different (priority, date) keys are ordered one way only |
| DoctorDashboard.RiskScoreOf | views/doctor/DoctorDashboard.tsx:70 | the result's risk score, or 0 with no result |
| DoctorDashboard.GridData | views/doctor/DoctorDashboard.tsx:66-71 | one row per sorted case, same order, carrying the case and its risk score |
| DoctorDashboard.Dashboard | views/doctor/DoctorDashboard.tsx:47-92 | loading iff no answer yet, the empty notice iff no cases, otherwise a grid holding exactly the fetched cases, as the rows of GridData over the triage order SortQueue, each with its risk score |
| AllReports.KeyOf | views/doctor/AllReportsView.tsx:33-34 | only the date column gives a timestamp key |
| AllReports.KeyLessIrreflexive | views/doctor/AllReportsView.tsx:33-34 | no key is below itself |
| AllReports.KeyLessTransitive | views/doctor/AllReportsView.tsx:33-34 | the key order is transitive |
| AllReports.KeyLessTotal | views/doctor/AllReportsView.tsx:33-34 | two keys of one column are equal or ordered |
| AllReports.CompareZeroIffEqualKeys | views/doctor/AllReportsView.tsx:35 | the comparator returns 0 iff the keys are equal |
| AllReports.CompareDirection | views/doctor/AllReportsView.tsx:32-34 | with 'asc' the larger key goes first, with 'desc' the smaller |
| AllReports.BeforeByKey | views/doctor/AllReportsView.tsx:31-36 | the sort relation in key terms for each direction |
| AllReports.BeforeIsPreorder | views/doctor/AllReportsView.tsx:31-36 | for each direction and column the comparator is a total preorder |
| AllReports.FilterCases | views/doctor/AllReportsView.tsx:29 | each case is kept, with its multiplicity, iff its lower-cased patient ID contains the lower-cased filter |
| AllReports.EmptyFilterKeepsAll | views/doctor/AllReportsView.tsx:29 | the empty filter keeps every case in order |
| AllReports.SortedAndFiltered | views/doctor/AllReportsView.tsx:26-37 | nothing before the query answers; otherwise a permutation of the filtered cases, non-increasing keys for 'asc' and non-decreasing for 'desc' |
| AllReports.NextSort | views/doctor/AllReportsView.tsx:20-24 | the clicked column becomes active; same column 'asc' to 'desc', 'desc' to 'asc', another column 'asc' |
| AllReports.NextSortTwice | views/doctor/AllReportsView.tsx:20-24 | two clicks on the active column restore the sort |
| AllReports.ReportList.constructor | views/doctor/AllReportsView.tsx:15-18 | 'desc' on the creation date, empty filter |
| AllReports.ReportList.RequestSort | views/doctor/AllReportsView.tsx:20-24 | the state becomes NextSort of the old state; the filter stays |
| AllReports.ReportList.SetFilter | views/doctor/AllReportsView.tsx:56 | only the filter changes |
| CephalometricControls.RequiredLandmarksCoverAnalysis | components/CephalometricControls.tsx:16 | ten names, the first four being exactly those the analysis looks up |
| CephalometricControls.Denormalise | components/CephalometricControls.tsx:60-66 | same length, order and names, each point scaled to (x·width, y·height) |
| CephalometricControls.DenormaliseGetPoint | components/CephalometricControls.tsx:60-66 | a name is found after scaling iff before, and its point is the scaled one |
| CephalometricControls.DenormaliseUnit | components/CephalometricControls.tsx:60-66 | a 1x1 image leaves the list unchanged |
| CephalometricControls.Controls.constructor | components/CephalometricControls.tsx:33-34 | not loading, no error |
| CephalometricControls.Controls.ChooseFile | components/CephalometricControls.tsx:36-47 | choosing a file clears the error |
| CephalometricControls.Controls.AutoDetect | components/CephalometricControls.tsx:49-74 | no image URL or type: nothing happens; success delivers the scaled list; failure delivers nothing and sets the error; never loading afterwards |
| CephalometricView.AnalysisReport | views/doctor/CephalometricAnalysisView.tsx:13-18 | null iff the list is empty; otherwise the analysis of the list |
| CephalometricView.MissingPointGivesEmptyReport | views/doctor/CephalometricAnalysisView.tsx:13-18 | a non-empty list lacking a Steiner point gives an empty, non-null report |
| CephalometricView.Workspace.constructor | views/doctor/CephalometricAnalysisView.tsx:9-11 | no image, no landmarks, size 0x0 |
| CephalometricView.Workspace.ImageUpload | views/doctor/CephalometricAnalysisView.tsx:20-24 | new image and size, landmarks emptied, so the report is null |
| CephalometricView.Workspace.AiDetection | views/doctor/CephalometricAnalysisView.tsx:26-28 | the landmarks are replaced wholesale, the image stays, and the report is that of the new list |
| ScanAnnotator.FindingsForViewer | views/patient/ScanAnnotatorModule.tsx:90-96 | empty without annotations or with an edited image; otherwise one finding per annotation in order, id = its index in decimal, confidence 1.0, label, description and box copied |
| ScanAnnotator.FindingIdsDistinct | views/patient/ScanAnnotatorModule.tsx:91 | the finding ids are pairwise distinct |
| ScanAnnotator.EditHidesFindings | views/patient/ScanAnnotatorModule.tsx:90 | after an edit with a non-empty image URL no findings are drawn |
| ScanAnnotator.Annotator.constructor | views/patient/ScanAnnotatorModule.tsx:24-34 | the empty initial state |
| ScanAnnotator.Annotator.FileChange | views/patient/ScanAnnotatorModule.tsx:36-47 | the file and its URL are stored; annotations, edit, chat answer and error are cleared |
| ScanAnnotator.Annotator.SetChatPrompt | views/patient/ScanAnnotatorModule.tsx:158 | only the prompt changes |
| ScanAnnotator.Annotator.Analyze | views/patient/ScanAnnotatorModule.tsx:49-70 | without a file or URL: the upload error and no call; otherwise a reset, then the annotations or the failure message, and not loading |
| ScanAnnotator.Annotator.ImageEdit | views/patient/ScanAnnotatorModule.tsx:72-87 | a blank prompt, no image or no file: nothing changes; otherwise the edited image and text, or the failure message with the answer cleared |
| MenstrualTracker.ValidateCycleInput | views/patient/MenstrualTrackerModule.tsx:20-29 | the day message iff the day is NaN or outside 1..60; the symptoms message iff the day is fine and the symptoms are blank; no error iff both pass |
| MenstrualTracker.CycleDayBounds | views/patient/MenstrualTrackerModule.tsx:22 | 1 and 60 are accepted, 0 and 61 rejected |
| MenstrualTracker.WhitespaceSymptomsRejected | views/patient/MenstrualTrackerModule.tsx:26-29 | symptoms made only of white space are rejected |
| MenstrualTracker.Tracker.constructor | views/patient/MenstrualTrackerModule.tsx:16-18 | not loading, no insights, no error |
| MenstrualTracker.Tracker.GetInsights | views/patient/MenstrualTrackerModule.tsx:20-43 | invalid input: its error and no request; valid input: the request with the untrimmed symptoms, then the insights or the failure message, and not loading |
| Text.ContainsIff | views/doctor/AllReportsView.tsx:29 | `includes` holds iff the needle occurs at some offset |
| Text.BlankIffAllWhitespace | views/patient/MenstrualTrackerModule.tsx:26 | a string trims to empty iff all of it is white space |
| Text.NatToStringRoundTrip | views/patient/ScanAnnotatorModule.tsx:91 | reading back the decimal rendering of an index gives the index |
| Text.StrLessTransitive | views/doctor/AllReportsView.tsx:33-34 | JavaScript string order is transitive |
| Text.StrLessTotal | views/doctor/AllReportsView.tsx:33-34 | two strings are equal or ordered |
| Sorting.SortBySorted | views/doctor/DoctorDashboard.tsx:58 | a comparator sort under a total preorder returns an ordered permutation |

## Left out

- Provider calls: the Gemini requests, prompts, response schemas, JSON parsing, mock generators (random, timers) and the client set-up are not modelled. Their outcomes are `Reply` inputs, and the placeholder result of uncovered domains is an input too.
- `Math.sqrt`, `Math.acos` and `Math.PI` are abstract. Floating-point rounding is not modelled; `real` arithmetic is exact. NaN is modelled explicitly for the two ways the angle becomes undefined.
- `parseInt` is abstract: the menstrual tracker receives the parsed day as an option, None standing for NaN.
- `toLowerCase` is modelled on ASCII letters only. String `<` compares characters as code points, which differs from JavaScript's UTF-16 order only outside the basic plane.
- File reading (`FileReader`) and image loading (`Image.onload`) are not modelled. Their results (data URL, width, height) are inputs. An image that never loads leaves `isLoadingAI` true in the source; the model has no such step.
- `toLocaleDateString` in the dashboard rows is rendering and is left out: a row keeps the case's timestamp.
- The live queries are inputs. The report list's `where('clinicalReport').notEqual('')` is a Dexie query on a field the schema does not index, and its answer is taken as given.
- services/db.ts is modelled as a map keyed by case id. A rejected `add` records ConstraintErrorMessage, a stand-in for Dexie's message text.
- CaseProcessing.CaseProcessor.ProcessNewCase: `crypto.randomUUID()` and `Date.now()` are inputs (`id`, `clock`), so a taken id is possible in the model.
- UploadModal.UploadDialog.Upload: the 'Please select a scan type.' guard is not modelled, because the scan type always holds an enumeration value and the guard cannot fire.
- Concurrency (`Promise.all`, interleaved handlers), rendering, themes, navigation and the remaining patient modules are outside the model.
- The comparator sort is a stable insertion sort. This matches `Array.prototype.sort` for the consistent comparators used here; for an inconsistent comparator the browser's order is not modelled.
- `handleFileChange` in components/UploadModal.tsx (lines 57-62) is not wired to any element, so it is not modelled: the live file handler is the upload widget's `onAdd`, which keeps the error.
- CaseProcessing.CaseDatabase.constructor: IndexedDB keeps records across sessions, so opening the database in the source yields whatever an earlier session stored; the model starts from a never-used, empty database.
