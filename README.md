# LungAI backend decision logic in Dafny

This project models the decision logic of the LungAI Flask backend, a service that grades chest X-ray predictions, keeps patients, X-ray reports and IoT vitals, and renders PDF reports.

The model covers these parts of the backend:

- **Diagnosis grading.** Severity from label and confidence, the arg-max label, and the search for the last Conv2D layer before Grad-CAM. Also the additive clinical-risk score with its three level thresholds (four levels), and the advice lookup with its fallback and severity prefix.
- **The IoT API.** Ordered validation of vitals, the SpO2 < 90 alert, the "latest N, newest first" queries, and patient creation. Also the error ladder of the prediction API and the statistics counters.
- **The database records.** Their `to_dict` shapes, including the alert flag and confidence ×100. The store itself is a `Database` class holding one sequence per table. Its invariant says every report and vitals row refers to a patient, ids are distinct and below the next id, and timestamps ascend. Deleting a patient cascades to that patient's reports and vitals.
- **The web routes.** The upload allow-list and the add-patient form. For prediction: patient resolution, file checks and the generated names. Also the report download and the redirect targets of login, registration and the Google callback.
- **Configuration.** The database-URL rewrite and sqlite fallback, secret-key selection, and the configuration map.
- **The PDF story.** It is modelled as a sequence of blocks: which blocks appear, their colours, and the diet lines.
- **Training.** The class-weight formulas of both training scripts.

Modules:

- `Wrappers`: `Option` and `Result`.
- `PyText`: the Python built-ins the code relies on, as they act on ASCII text. These are `strip`, `split('\n')`, `upper`/`lower` of ASCII letters, `rsplit('.', 1)`, `int()` of an optional sign and ASCII digits, `str()` of integers, and `round(x, n)` on exact values.
- `MedicalInsights`, `Predict`, `Records`, `IotApi`, `Config`, `ReportGenerator` and `WebApp`: one each for the corresponding source file.
- `TrainMultiClass` and `TrainModel`: the two training scripts.

Several things from outside become parameters:

- the inference result;
- the Grad-CAM outcome;
- file existence on disk;
- the random upload name;
- the current time;
- the password check.

Python's integer division and truncation are written out where the code uses them. For example, `int()` of a float heart rate truncates toward zero.

## Model

| member | source | states |
|---|---|---|
| Predict.GetSeverity | model/predict.py:60-73 | 'N/A' exactly for the label NORMAL; otherwise one of Severe, Moderate, Mild |
| Predict.SeverityGrades | model/predict.py:67-73 | for non-NORMAL labels: Severe iff confidence×100 ≥ 85, Moderate iff in [65,85), Mild iff below 65 |
| Predict.SeverityMonotone | model/predict.py:67-73 | a higher confidence never gives a lower severity grade |
| Predict.ArgMax | model/predict.py:124 | the index holds a maximal probability and is the first such index |
| Predict.AssemblePrediction | model/predict.py:123-142 | the label is the class name at the first maximal probability; the map sends each class name to its probability; confidence is that probability rounded to 4 places and confidence_pct its ×100 rounded to 2; severity, advice and risk come from the label and the unrounded probability |
| Predict.AssemblePredictionConsistent | model/predict.py:134-141 | the same result except that the risk is computed from the returned 4-place confidence, so it agrees with what that confidence gives |
| Predict.LastConvIn | model/predict.py:176-179 | the scan of a layer list finds nothing iff none of the layers is Conv2D, and otherwise names a Conv2D layer |
| Predict.ScanNoneIff | model/predict.py:170-184 | the search ends with no layer iff no top-level layer is Conv2D and no nested list holds one |
| Predict.ScanFindsFirstMet | model/predict.py:170-181 | when some layer is or holds a Conv2D (with non-empty names), the search returns the name found at such a layer |
| Predict.FindLastConvLayer | model/predict.py:167-181 | the nested reverse loops with `break` compute the search specified by FindLastConv |
| Predict.LastConvLayerIn | model/predict.py:175-179 | the inner reverse loop over a nested model's layers returns its last Conv2D, as LastConvIn specifies |
| Predict.GenerateGradcam | model/predict.py:148-248 | returns save_path iff a model is loaded, a Conv2D layer is found and the heat map is produced, and otherwise None |
| MedicalInsights.AdviceLookup | model/medical_insights.py:139 | the entry is the knowledge-base entry for the upper-cased label when present, and the NORMAL entry otherwise |
| MedicalInsights.GetMedicalAdvice | model/medical_insights.py:139-145 | only the description may differ from the looked-up entry; it gets "[severity CASE] " in front exactly when the prefix condition holds |
| MedicalInsights.PrefixExactlyWhen | model/medical_insights.py:142-143 | the description grows iff severity is truthy, is not 'N/A', and the case-sensitive label is not 'NORMAL' |
| MedicalInsights.LowerCaseNormalIsPrefixed | model/medical_insights.py:139-143 | a lower-case "normal" label looks up the NORMAL entry yet still gets a severity prefix |
| MedicalInsights.MedicationPresence | model/medical_insights.py:11-145 | only the NORMAL entry has no medication, and every other entry has a non-empty regimen |
| MedicalInsights.LevelForScore | model/medical_insights.py:169-176 | Critical iff the score is ≥ 80, Severe iff in [50,80), Moderate iff in [30,50), Mild below 30 |
| MedicalInsights.ComputeClinicalRisk | model/medical_insights.py:147-176 | one of the five fixed triples; Stable iff the upper-cased label is NORMAL; otherwise the level of the additive score |
| MedicalInsights.LevelMonotone | model/medical_insights.py:169-176 | a higher score never gives a lower level |
| MedicalInsights.SeverityPointsCases | model/medical_insights.py:156-159 | base score 40 for Severe, 20 for Moderate, 10 for anything else including None |
| MedicalInsights.SpO2PointsCases | model/medical_insights.py:165-167 | SpO2 adds 50 below 85, 30 in [85,92), and nothing at 92 or above, when absent, or when 0 |
| MedicalInsights.NormalIsStable | model/medical_insights.py:152-153 | a NORMAL label in any case is Stable whatever the confidence, severity and SpO2 |
| MedicalInsights.RiskMonotoneInConfidence | model/medical_insights.py:162-176 | raising the confidence never lowers the risk level |
| MedicalInsights.RiskMonotoneInSpO2 | model/medical_insights.py:165-176 | lowering a non-zero SpO2 never lowers the risk level |
| MedicalInsights.ZeroSpO2CountsAsAbsent | model/medical_insights.py:165 | a SpO2 of 0 scores like no reading, so a severe case at SpO2 0 rates below the same case at SpO2 84 |
| Records.PatientToDict | database/models.py:59-66 | the patient dictionary carries every field, so the patient can be read back from it |
| Records.ReportToDict | database/models.py:88-98 | every field is copied and the confidence is scaled ×100; the report can be read back |
| Records.ReportConfidenceRange | database/models.py:94 | a stored confidence in [0,1] is shown in [0,100] |
| Records.VitalsToDict | database/models.py:120-130 | alert iff spo2 < 90; every other field is copied and the row can be read back |
| Records.Where | database/models.py:51-54 | the rows kept are exactly those whose patient id matches (or, for deletion, does not) |
| Records.WhereAscending | database/models.py:51-54 | filtering keeps ascending timestamps ascending |
| Records.WhereDistinct | database/models.py:51-54 | filtering keeps ids distinct |
| Records.WhereBounds | database/models.py:51-54 | filtering keeps ids below the next id and stamps not after the clock |
| Records.Append | database/models.py:44-114 | appending a row with the next id and the current time keeps ids distinct and stamps ascending |
| Records.RefersGrow | database/models.py:77-109 | adding a patient keeps every report and vitals row referring to a patient |
| Records.RefersAfterDelete | database/models.py:51-109 | after the cascade every remaining report and vitals row still refers to a remaining patient |
| Records.DeleteKeepsTables | database/models.py:51-54 | deleting a patient with its reports and vitals keeps the whole store invariant |
| Records.DeletedIsGone | database/models.py:51-54 | the deleted patient is no longer in the table |
| Records.FindPatient | database/models.py:44 | finds a patient iff one has that id |
| Records.FindBy | app.py:234 | a found row has the key asked for, and none is found only when no row has it; used for report ids here and for emails at app.py lines 345, 386 and 412 |
| Records.Database.constructor | database/models.py:18-130 | an empty store satisfying the invariant |
| Records.Database.AddPatient | database/models.py:44-48 | appends one patient with a fresh id and the given fields and keeps the invariant |
| Records.Database.AddReport | database/models.py:76-83 | appends one report with a fresh id for an existing patient and keeps the invariant |
| Records.Database.AddVitals | database/models.py:108-114 | appends one vitals row with a fresh id for an existing patient and keeps the invariant |
| Records.Database.AddUser | database/models.py:24-29 | for an email no user has (the column is unique), appends one user with a fresh id and keeps the invariant, distinct emails included |
| Records.Database.DeletePatient | database/models.py:51-54 | removes the patient and, by the cascade, exactly its reports and vitals |
| IotApi.FirstAbsent | iot/api.py:35-38 | reports nothing iff every field is present, and otherwise a field that is missing |
| IotApi.FirstAbsentAt | iot/api.py:35-38 | the reported field is the first missing one in the required order |
| IotApi.AllPresentIff | iot/api.py:35-38 | all five required fields are present iff no field is reported missing |
| IotApi.TruncToInt | iot/api.py:48 | `int()` of a float truncates toward zero |
| IotApi.ValidateVitals | iot/api.py:35-55 | 400 naming the first missing field; then 404 iff the patient is unknown; otherwise accepted iff the three ranges hold, with the converted values |
| IotApi.RangeErrorOrder | iot/api.py:50-55 | spo2 is checked before temperature, which is checked before heart rate, and the first failing range is reported |
| IotApi.UnknownPatientBeforeRanges | iot/api.py:41-43 | an unknown patient gives 404 whatever the readings |
| IotApi.HeartRateAcceptance | iot/api.py:48-54 | a heart rate is accepted iff the truncated value is in [20,300], that is iff the reading is in [20,301) |
| IotApi.ReceiveVitals | iot/api.py:26-88 | errors as ValidateVitals and nothing stored; on success one vitals row appended, status 201, alert iff spo2 < 90 and a message iff alert |
| IotApi.NewestFirst | iot/api.py:101 | at most n rows, the last rows of the table in reverse order; the same query serves iot/api.py line 156 |
| IotApi.NewestFirstSelects | iot/api.py:101 | with ascending timestamps the selection is newest first and nothing left out is newer; likewise for iot/api.py line 156 |
| IotApi.VitalsDicts | iot/api.py:106 | one dictionary per row, in order; likewise iot/api.py line 160 |
| IotApi.ReportDicts | iot/api.py:191 | one dictionary per row, in order |
| IotApi.GetPatientVitals | iot/api.py:91-111 | 404 iff the patient is unknown; otherwise the patient's dictionary and the dictionaries of that patient's 10 newest readings, newest first; latest is the first or None |
| IotApi.PatientVitalsNewest | iot/api.py:101-111 | over the store the per-patient readings are in descending time order |
| IotApi.AllRecentVitals | iot/api.py:150-160 | exactly min(20, total) readings, the newest of all patients in reverse insertion order |
| IotApi.AllRecentVitalsNewest | iot/api.py:156-160 | over the store the readings are newest first and none left out is newer |
| IotApi.PatientXrays | iot/api.py:182-191 | exactly the reports of that patient, last stored first |
| IotApi.PatientXraysNewest | iot/api.py:187-190 | over the store a patient's reports come in descending creation time |
| IotApi.JsonInt | iot/api.py:134 | `int()` of an integer is itself, of a string its parse, of a boolean 1 or 0, and of a float its truncation toward zero |
| IotApi.ValidatePatient | iot/api.py:128-139 | accepted iff the stripped name is non-empty, age present and an integer, gender present, giving the stripped name; the missing-fields 400 iff a field is absent; an array or object age is the uncaught TypeError, 500; every other failure is a 400 |
| IotApi.BlankNameRejected | iot/api.py:130-132 | an all-blank name is rejected as missing |
| IotApi.AddPatientApi | iot/api.py:123-147 | one patient added on success with the validated fields, nothing on failure |
| IotApi.CountPrediction | iot/api.py:170 | the number of rows with exactly that label, which is its multiplicity among the labels: non-zero iff one exists, never above the total |
| IotApi.Devices | iot/api.py:171-172 | the distinct device ids, with a missing id counted as one value |
| IotApi.DevicesBound | iot/api.py:171-172 | there are never more devices than readings |
| IotApi.GetStats | iot/api.py:163-179 | the totals are the table sizes; the pneumonia count is the count of label 'Pneumonia', at most the report total; the active devices are the number of distinct device ids, none iff no readings |
| IotApi.PneumoniaNeverCounted | iot/api.py:170 | with labels from the class names the 'Pneumonia' count is always 0; the labels are the upper-case class names of model/predict.py line 31 |
| IotApi.IntendedStats | iot/api.py:163-179 | the corrected statistics: the same totals and device count, with the pneumonia count the multiplicity of 'PNEUMONIA', positive iff some report has it |
| IotApi.PneumoniaReportCounted | iot/api.py:170 | storing a PNEUMONIA report raises the corrected count by one while the count as written stays 0 |
| IotApi.PatientByText | iot/api.py:205-208 | a found patient is in the table and has the parsed id; nothing is found iff the text is not a numeral or no patient has its id |
| IotApi.CheckPredictApi | iot/api.py:204-221 | patient_id required (400), known (404), an xray part (400), a non-empty file name (400 "No file selected"), a '.' in it (500); the saved name is hex + "." + the lower-cased extension |
| IotApi.ApiAcceptsAnyExtension | iot/api.py:213-221 | the API saves any extension, ".exe" included |
| IotApi.PredictApi | iot/api.py:194-254 | errors as CheckPredictApi with nothing stored; on success one report appended for the patient, with a heat-map path iff Grad-CAM returned a truthy path |
| Config.NormaliseDbUrl | config.py:23-25 | "postgres://" becomes "postgresql://" before the unchanged rest; other URLs are unchanged; the result never starts with "postgres://" |
| Config.NormaliseIdempotent | config.py:24-25 | rewriting twice is rewriting once |
| Config.NormaliseKeepsPostgresql | config.py:24-25 | a "postgresql://" URL is left alone |
| Config.DatabaseUri | config.py:23-27 | the rewritten DATABASE_URL when set and non-empty, else the sqlite file in the base directory |
| Config.SecretKey | config.py:16-20 | the environment key when set, an error in production without one, the development key otherwise |
| Config.ConfigFor | config.py:55-59 | a configuration exactly for development, production and default; debug off only in production |
| Config.ConfigChoices | config.py:43-59 | default is development; production sets the secure and http-only cookie flags |
| ReportGenerator.RiskBackground | model/report_generator.py:37 | red iff the risk level is Critical or Severe, green otherwise |
| ReportGenerator.FindingColor | model/report_generator.py:75 | red iff the prediction is not NORMAL, green otherwise |
| ReportGenerator.ConfidenceShown | model/report_generator.py:77 | the confidence shown as a percentage equals the dictionary's ×100 value, in [0,100] for a stored fraction; the dictionary form is database/models.py line 94 |
| ReportGenerator.ConfidenceShownAsWritten | model/report_generator.py:77 | the figure printed is the stored fraction, one hundredth of the dictionary's percentage |
| ReportGenerator.ConfidenceShownAsWrittenDiffers | model/report_generator.py:77 | the line prints the stored fraction (0.93), not the percentage (93) |
| ReportGenerator.ReportImages | model/report_generator.py:90-104 | exactly the original if its file exists and the heat map if its path is set and its file exists, original first |
| ReportGenerator.DietLines | model/report_generator.py:115-118 | the diet paragraphs are stripped and non-blank, at most one per line |
| ReportGenerator.DietLinesOfJoin | model/report_generator.py:115-118 | for newline-joined, already stripped, non-empty lines, the paragraphs are exactly those lines in order |
| ReportGenerator.DietLinesKeeps | model/report_generator.py:116-118 | stripped non-empty lines are all kept, in order |
| ReportGenerator.StripIdempotent | model/report_generator.py:118 | stripping twice is stripping once |
| ReportGenerator.InStory | model/report_generator.py:45-131 | a non-diet block is in the story iff it is in one of its sections |
| ReportGenerator.StoryBookends | model/report_generator.py:48-129 | the story starts with the title and ends with the disclaimer |
| ReportGenerator.StoryColours | model/report_generator.py:37-77 | the finding and the risk line carry the colours above; the confidence line prints the stored fraction, as written |
| ReportGenerator.StorySeverityLine | model/report_generator.py:79-80 | a severity line is present iff severity is not 'N/A', so a missing severity still gets one |
| ReportGenerator.StoryImages | model/report_generator.py:101-104 | the image row and its caption are present iff at least one image is included |
| ReportGenerator.StoryDiet | model/report_generator.py:114-118 | the diet paragraphs of the story are the stripped non-blank lines of the diet text, in order |
| ReportGenerator.GenerateMedicalReport | model/report_generator.py:45-131 | the appended story is the specified sequence of blocks, with the confidence line as written (the stored fraction) |
| ReportGenerator.AppendDietLines | model/report_generator.py:115-118 | the loop appends one paragraph per non-blank line, stripped |
| WebApp.AllowedFileIff | app.py:80-83 | allowed iff after the last '.' comes, in any case, one of png, jpg, jpeg, bmp, webp; the extensions are those of config.py line 34 |
| WebApp.AllowedFileOf | app.py:80-83 | a name ending in "." and a dot-free extension is allowed iff the lower-cased extension is an allowed one, whatever precedes the dot |
| WebApp.AllowedFileExamples | app.py:80-83 | "a.PNG" and "x.tar.JPEG" are allowed; "png" and "scan.jpg.exe" are not |
| WebApp.ValidatePatientForm | app.py:116-128 | accepted iff name (stripped), age and gender are non-empty and the age is an integer; the two messages in their order |
| WebApp.ZeroAgeAccepted | app.py:117-120 | a typed age "0" is accepted, an absent age is rejected |
| WebApp.AddPatient | app.py:113-134 | exactly one patient with the validated fields on success, none on failure |
| WebApp.QuickAge | app.py:160-165 | the parsed quick age, or 0 when absent or not an integer |
| WebApp.ResolvePatient | app.py:150-171 | patient_id wins and must exist; else a non-blank quick name adds a patient with gender defaulting to 'Unknown'; else an error |
| WebApp.CheckUpload | app.py:174-188 | the xray part, a non-empty name and an allowed extension in that order; the result is the lower-cased extension |
| WebApp.SavedName | app.py:189 | the stored name ends with the extension after its last '.' |
| WebApp.HeatmapName | app.py:199 | "heatmap_" followed by the stored name |
| WebApp.PredictPage | app.py:139-227 | errors in resolution-then-file order with nothing stored (the quick-added patient is rolled back); on success one report linked to the resolved patient, with the upload and heat-map paths and the prediction's fields |
| WebApp.DerivedData | app.py:237-246 | advice from label and severity; risk from label, confidence ×100 and severity, without SpO2 |
| WebApp.DerivedMatchesPrediction | app.py:238 | a report stored with a prediction's label, 4-place confidence and severity (model/predict.py lines 136-141, stored at app.py line 210) re-derives that prediction's advice |
| WebApp.DerivedRiskMatches | app.py:239 | the risk re-derived from such a report equals the prediction's risk whenever the prediction's score is at least 0.002 from the 30, 50 and 80 thresholds |
| WebApp.StoredRiskAgrees | app.py:239 | a confidence within half a unit of the fourth place of the raw one gives the same risk when the raw score is that far from the thresholds |
| WebApp.StoredRiskDiffers | app.py:239 | a PNEUMONIA prediction at 0.74996 is Moderate, but the report stored from it re-derives Severe |
| WebApp.DerivedMatchesConsistent | app.py:238-239 | with the risk computed from the returned confidence, a stored report re-derives the prediction's advice and risk |
| PyText.Round | model/predict.py:138-139 | the result is a whole number of units of the last kept place, within half a unit of the exact value, and an even number of units when the value lies exactly halfway; these fix the result |
| WebApp.DownloadReport | app.py:232-253 | 404 iff the report id is unknown; otherwise "Report_<id>.pdf" and the story of the report, its patient and the re-derived data, the confidence line showing the stored fraction |
| WebApp.PatientPath | app.py:349 | "/patient/" followed by the id, which parses back, or by "None"; the same path is built at app.py lines 369, 393, 405 and 436 |
| WebApp.RoleRedirect | app.py:402-405 | "/doctor" iff the role is doctor, otherwise the patient page; the same choice is made at app.py lines 349, 369 and 433-436 |
| WebApp.SignedInLoginRedirect | app.py:376-380 | the doctor portal for doctors and for users without a patient id, the patient page otherwise; the portal route is app.py lines 450-453 |
| WebApp.LoginRedirect | app.py:382-397 | a redirect iff the user exists, the password matches and the role is doctor or patient; the target by role |
| WebApp.UnlinkedAccountTargets | app.py:376-380 | an unlinked patient account is sent to "/doctor" by login but to "/patient/None" by registration; compare app.py lines 401-405 |
| WebApp.Register | app.py:399-438 | a signed-in user is redirected by role; a known email goes back to the form; otherwise one user, plus a linked patient (age 0, 'Unknown') for the patient role |
| WebApp.GoogleCallback | app.py:332-372 | a failed exchange goes to login; a known email is redirected by role; otherwise one user with the session role (default 'patient') and a linked patient for that role |
| TrainMultiClass.Occurrences | model/train_multi_class.py:138-139 | a label's count is its multiplicity among the labels: zero iff it does not occur, and at most the number of labels |
| TrainMultiClass.CountsCoverLabels | model/train_multi_class.py:139-140 | with labels below num_classes the per-class counts add up to the total |
| TrainMultiClass.BalancedWeight | model/train_multi_class.py:144-146 | count × weight = total / num_classes for present classes; total / num_classes for empty ones; positive iff total > 0 |
| TrainMultiClass.WeightIsBalanced | model/train_multi_class.py:145-146 | the loop's `total / (num_classes * count)`, with an empty class counted once, equals the balanced weight |
| TrainMultiClass.LargerClassLighter | model/train_multi_class.py:144-146 | the larger of two present classes gets the smaller weight |
| TrainMultiClass.ClassWeights | model/train_multi_class.py:142-146 | exactly one weight per class index 0..num_classes−1, each the balanced weight of its count; num_classes is set at line 133 of the same file |
| TrainModel.WeightFor | model/train_model.py:133-134 | count × weight = total / 2 for a present class, 1.0 for an empty one |
| TrainModel.TwoClassWeights | model/train_model.py:128-135 | keys exactly 0 and 1, weighted over the sum of both counts |
| TrainModel.BothHalves | model/train_model.py:133-134 | with both classes present, count_normal·w0 = count_pneumonia·w1 = total/2 |
| TrainModel.MinorityWeighsMore | model/train_model.py:133-134 | the smaller class gets the strictly larger weight, and equal classes both get 1 |
| TrainModel.EmptyClassWeights | model/train_model.py:133-135 | an empty class keeps 1.0 while the other gets one half |

## Left out

- Inference and Grad-CAM are parameters, not models:
  - TensorFlow/Keras inference and image preprocessing become a given probability vector or `Prediction`.
  - The Grad-CAM tensor maths and the OpenCV overlay become a success flag or the returned path.
  - `load_model` and its global cache are not part of this model.
- Demo mode is not modelled: its random predictions and probability normalisation, simulated vitals, and the IoT simulator all depend on randomness.
- Reals are exact. `round()` in predict_xray is modelled as rounding half to even on the exact value; the binary floating-point representation (where `round(2.675, 2)` gives 2.67) is not.
- `Records.ReportToDict`: does not apply the `round(…, 2)` of database/models.py:94; the ×100 scaling is exact. The `:.2f` formatting of the PDF is not modelled either.
- Timestamps are an integer clock passed in as `now`, not formatted dates. Every insert requires `clock <= now`: the model assumes a clock that never goes back, which `datetime.utcnow` does not promise. Equal stamps are allowed, and the model orders them by insertion, which `order_by(... desc())` leaves to the database.
- Flask plumbing is left out beyond redirect target paths and flash texts: routing, sessions, Flask-Login, Authlib OAuth, Talisman, password hashing, template rendering and `send_file`. The password check is a boolean and the OAuth token exchange a success flag.
- The SQLAlchemy session is abstracted as appends to the in-memory `Database`.
- `WebApp.PredictPage`: the source flushes the quick-added patient before the file checks, and the session is discarded when one fails. The model performs the checks first and inserts only after they pass. The final state is the same.
- `list_patients` (iot/api.py:114-120) is not modelled. It is a plain query ordered by name.
- Non-numeric JSON values for spo2, temperature or heart_rate are not modelled. In the source they raise inside `float()`/`int()`. The payload fields are numbers.
- `IotApi.ValidatePatient`: name and gender are taken to be strings. Other JSON types for them are not modelled.
- Column types are not enforced. Integers are unbounded, while `age` and `patient_id` are `db.Integer` (database/models.py:46, 109): an out-of-range value makes the commit fail with a 500 and nothing stored, while `Records.Database.AddPatient`, `Records.Database.AddVitals`, `IotApi.AddPatientApi`, `IotApi.ReceiveVitals` and `WebApp.AddPatient` store the row. The range depends on the backend (config.py:23-27): on PostgreSQL, from `DATABASE_URL`, the column is 32-bit, so an API age of 3000000000 fails; on the default SQLite file it is 64-bit, so that age is stored as in the model, and only a value beyond 64 bits fails, with the driver's OverflowError.
- `Records.Database.AddPatient`, `Records.Database.AddVitals` and `Records.Database.AddUser`: the `String(n)` lengths (name 120, gender 10, device id 50, email 120, role 20; database/models.py:25-27, 45-47, 113) are not checked. PostgreSQL rejects a longer value with a 500 and nothing stored; the model stores it. `IotApi.AddPatientApi`, `IotApi.ReceiveVitals`, `WebApp.AddPatient` and `WebApp.Register` inherit this.
- `WebApp.Register`: email, password and role are taken as present strings. A missing form field is None in the source (app.py:408-410), which fails the NOT NULL columns or the password hashing with a 500 and nothing stored; the model has no such input.
- `IotApi.PatientByText` and `WebApp.ResolvePatient`: a patient id that is not an integer string finds no patient. The database driver's own conversion errors are not modelled.
- The foreign key from users to patients is not cascaded in the source. The model keeps user rows unchanged when a patient is deleted and does not check that link.
- Reportlab is not modelled: fonts, table styles and layout are reduced to a sequence of blocks. Paths are relative to `static/`.
- `Records.Database.AddUser`: password hashes are not stored.
- `PyText.Upper` and `PyText.Lower`: map ASCII letters only; Python also maps other letters, such as 'ı' to 'I' and 'ſ' to 'S'.
- `PyText.ParseInt`: accepts an optional sign and ASCII digits, surrounded by blanks. Python's `int()` also accepts underscores between digits ("1_0" is 10) and non-ASCII digits, so app.py:125 accepts an age the model rejects.
- Undecodable uploads are not modelled. In the source, `predict_xray` or the preprocessing raises on them and the route answers 500 with nothing stored; `WebApp.PredictPage` and `IotApi.PredictApi` take the prediction as given and always store it.
- The rest of the training scripts (data generators, the model, callbacks, plotting) is not modelled. The tooling scripts and the front-end bundle are not part of this model.

## Findings

| source | as written | input that shows it | evidently intended | confidence | as-written member | corrected member |
|---|---|---|---|---|---|---|
| model/predict.py:134 | the risk is computed from the unrounded probability, but the confidence returned and stored is rounded to 4 places, and app.py:239 recomputes the risk from the stored value | a PNEUMONIA prediction at 0.74996 scores 49.9984 (Moderate); the stored 0.75 scores 50 (Severe) in the PDF | the same risk on screen and in the PDF | not executed | WebApp.StoredRiskDiffers | WebApp.DerivedMatchesConsistent |
| model/report_generator.py:77 | the "Confidence Level" line prints the stored fraction followed by "%" | a report stored with confidence 0.93 prints "0.93%" | the percentage, 93.00%, as the dictionary form shows it (database/models.py:94) | not executed | ReportGenerator.ConfidenceShownAsWrittenDiffers | ReportGenerator.ConfidenceShown |
| iot/api.py:170 | the statistics count reports whose prediction is 'Pneumonia' | every stored prediction is an upper-case class name (model/predict.py:31, 125), so a store holding PNEUMONIA reports reports a pneumonia count of 0 | count the stored class name 'PNEUMONIA' | not executed | IotApi.PneumoniaNeverCounted | IotApi.IntendedStats |
