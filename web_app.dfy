/** The request handling of app.py: the upload allow-list, the add-patient
    form, patient resolution and file checks of the prediction page, the
    generated file names, the report download, and the redirect targets of
    login, registration and the Google callback. Redirects are their target
    paths; flash messages are the error texts. */
module WebApp {
  import opened Wrappers
  import opened PyText
  import opened Records
  import opened MedicalInsights
  import opened Predict
  import opened IotApi
  import opened Config
  import opened ReportGenerator

  /** `url_for('index')`. */
  const IndexPath := "/"

  // ---------------------------------------------------------------------------
  // allowed_file
  // ---------------------------------------------------------------------------

  /** allowed_file: the name has a '.' and the text after the last one,
      lower-cased, is an allowed extension. */
  function AllowedFile(filename: string): bool {
    '.' in filename && Lower(AfterLast(filename, '.').value) in AllowedExtensions
  }

  /** The same check stated on positions: some '.' is followed by no other
      '.' and by an allowed extension in any letter case. */
  lemma AllowedFileIff(filename: string)
    ensures AllowedFile(filename) <==>
              exists i :: 0 <= i < |filename| && filename[i] == '.' && '.' !in filename[i + 1..]
                          && Lower(filename[i + 1..]) in AllowedExtensions
  {
    if '.' in filename {
      var k := LastIndexOf(filename, '.').value;
      forall i | 0 <= i < |filename| && filename[i] == '.' && '.' !in filename[i + 1..]
        ensures i == k
      {
      }
    }
  }

  /** A name ending in '.' and a dot-free text is allowed exactly when that
      text, lower-cased, is an allowed extension. */
  lemma AllowedFileOf(stem: string, ext: string)
    requires '.' !in ext
    ensures AllowedFile(stem + ['.'] + ext) <==> Lower(ext) in AllowedExtensions
  {
    AfterLastOf(stem, '.', ext);
    assert (stem + ['.'] + ext)[|stem|] == '.';
  }

  /** "a.PNG" is accepted, a bare "png" is not, only the last extension
      counts, and an upper-case JPEG passes. */
  lemma AllowedFileExamples()
    ensures AllowedFile("a.PNG")
    ensures !AllowedFile("png")
    ensures !AllowedFile("scan.jpg.exe")
    ensures AllowedFile("x.tar.JPEG")
  {
    UpperPngAllowed();
    DoubleExtensionRefused();
    UpperJpegAllowed();
  }

  lemma UpperPngAllowed()
    ensures AllowedFile("a.PNG")
  {
    assert "a.PNG" == "a" + ['.'] + "PNG";
    AllowedFileOf("a", "PNG");
    LowerPng();
  }

  lemma LowerPng()
    ensures Lower("PNG") == "png"
  {
    var l := Lower("PNG");
    assert l[0] == LowerChar('P') == 'p';
    assert l[1] == LowerChar('N') == 'n';
    assert l[2] == LowerChar('G') == 'g';
  }

  lemma DoubleExtensionRefused()
    ensures !AllowedFile("scan.jpg.exe")
  {
    assert "scan.jpg.exe" == "scan.jpg" + ['.'] + "exe";
    AllowedFileOf("scan.jpg", "exe");
    ScanExeExtension();
    ExeNotAllowed();
  }

  lemma ExeNotAllowed()
    ensures "exe" !in AllowedExtensions
  {
    assert "exe"[0] == 'e';
  }

  lemma UpperJpegAllowed()
    ensures AllowedFile("x.tar.JPEG")
  {
    assert "x.tar.JPEG" == "x.tar" + ['.'] + "JPEG";
    AllowedFileOf("x.tar", "JPEG");
    LowerJpeg();
  }

  lemma LowerJpeg()
    ensures Lower("JPEG") == "jpeg"
  {
    var l := Lower("JPEG");
    assert l[0] == LowerChar('J') == 'j';
    assert l[1] == LowerChar('P') == 'p';
    assert l[2] == LowerChar('E') == 'e';
    assert l[3] == LowerChar('G') == 'g';
  }

  // ---------------------------------------------------------------------------
  // add_patient
  // ---------------------------------------------------------------------------

  /** The add-patient form; None is an absent field. */
  datatype PatientForm = PatientForm(name: Option<string>, age: Option<string>, gender: Option<string>)

  const FieldsRequired := "All patient fields are required."
  const AgeNotNumber := "Age must be a number."

  /** add_patient's checks: a stripped non-empty name, an age that is given
      and non-empty (an absent age defaults to the falsy 0), a non-empty
      gender, then an integer age. */
  function ValidatePatientForm(f: PatientForm): (r: Result<NewPatient, string>)
    ensures r.Ok? <==> Strip(f.name.GetOr("")) != "" && f.age.GetOr("") != "" && f.gender.GetOr("") != ""
                       && ParseInt(f.age.value).Some?
    ensures r.Ok? ==> r.value == NewPatient(Strip(f.name.value), ParseInt(f.age.value).value, f.gender.value)
    ensures r.Err? ==> r.error in {FieldsRequired, AgeNotNumber}
    ensures r.Err? && r.error == AgeNotNumber <==>
              Strip(f.name.GetOr("")) != "" && f.age.GetOr("") != "" && f.gender.GetOr("") != ""
              && ParseInt(f.age.value).None?
  {
    var name := Strip(f.name.GetOr(""));
    var gender := f.gender.GetOr("");
    if name == "" || f.age.GetOr("") == "" || gender == "" then Err(FieldsRequired)
    else match ParseInt(f.age.value)
      case None => Err(AgeNotNumber)
      case Some(age) => Ok(NewPatient(name, age, gender))
  }

  /** A typed age of "0" is accepted (a non-empty string is truthy) while
      an absent age is rejected as missing. */
  lemma ZeroAgeAccepted(name: string, gender: string)
    requires Strip(name) != "" && gender != ""
    ensures ValidatePatientForm(PatientForm(Some(name), Some("0"), Some(gender))) == Ok(NewPatient(Strip(name), 0, gender))
    ensures ValidatePatientForm(PatientForm(Some(name), None, Some(gender))) == Err(FieldsRequired)
  {
    assert Strip("0") == "0" by { StripKeeps("0"); }
  }

  /** add_patient: exactly one patient, with the stripped name, on success;
      nothing on failure. Either way the browser goes back to the index. */
  method AddPatient(db: Database, f: PatientForm, now: int) returns (r: Result<Patient, string>)
    requires db.Valid() && db.clock <= now
    modifies db
    ensures db.Valid()
    ensures r.Ok? <==> ValidatePatientForm(f).Ok?
    ensures r.Err? ==> r.error == ValidatePatientForm(f).error && db.patients == old(db.patients)
    ensures r.Ok? ==>
              && db.patients == old(db.patients) + [r.value]
              && r.value.name == ValidatePatientForm(f).value.name
              && r.value.age == ValidatePatientForm(f).value.age
              && r.value.gender == ValidatePatientForm(f).value.gender
    ensures db.reports == old(db.reports) && db.vitals == old(db.vitals) && db.users == old(db.users)
  {
    match ValidatePatientForm(f)
    case Err(e) =>
      r := Err(e);
    case Ok(np) =>
      var p := db.AddPatient(np.name, np.age, np.gender, now);
      r := Ok(p);
  }

  // ---------------------------------------------------------------------------
  // predict
  // ---------------------------------------------------------------------------

  /** The patient fields of the prediction form; None is an absent field. */
  datatype PredictForm = PredictForm(
    patientId: Option<string>,
    quickName: Option<string>,
    quickAge: Option<string>,
    quickGender: Option<string>)

  /** Who the X-ray belongs to: a registered patient, or one to quick-add. */
  datatype Resolution = Existing(patient: Patient) | QuickAdd(name: string, age: int, gender: string)

  const PatientNotFound := "Selected patient not found."
  const NoPatient := "Please select or enter a patient."

  /** The quick-add age: 0 when absent or not an integer. */
  function QuickAge(age: Option<string>): (n: int)
    ensures age.Some? && ParseInt(age.value).Some? ==> n == ParseInt(age.value).value
    ensures age.None? || ParseInt(age.value).None? ==> n == 0
  {
    match age
    case None => 0
    case Some(text) => ParseInt(text).GetOr(0)
  }

  /** The patient of a prediction: a non-empty patient_id wins and must name
      a patient; otherwise a non-blank quick name adds a patient with the
      parsed age (0 on failure) and the given gender ('Unknown' if absent);
      with neither, an error. */
  function ResolvePatient(patients: seq<Patient>, f: PredictForm): (r: Result<Resolution, string>)
    ensures f.patientId.GetOr("") != "" ==>
              (r.Ok? <==> PatientByText(patients, f.patientId.value).Some?)
              && (r.Ok? ==> r.value == Existing(PatientByText(patients, f.patientId.value).value))
              && (r.Err? ==> r.error == PatientNotFound)
    ensures f.patientId.GetOr("") == "" && Strip(f.quickName.GetOr("")) != "" ==>
              r == Ok(QuickAdd(Strip(f.quickName.value), QuickAge(f.quickAge), f.quickGender.GetOr("Unknown")))
    ensures f.patientId.GetOr("") == "" && Strip(f.quickName.GetOr("")) == "" ==> r == Err(NoPatient)
    ensures r.Ok? && r.value.Existing? ==> r.value.patient in patients
  {
    if f.patientId.GetOr("") != "" then
      match PatientByText(patients, f.patientId.value)
      case None => Err(PatientNotFound)
      case Some(p) => Ok(Existing(p))
    else
      var quickName := Strip(f.quickName.GetOr(""));
      if quickName != "" then Ok(QuickAdd(quickName, QuickAge(f.quickAge), f.quickGender.GetOr("Unknown")))
      else Err(NoPatient)
  }

  const NoFileSelected := "No file selected."
  const InvalidFileType := "Invalid file type. Please upload PNG, JPG, or JPEG."

  /** The file checks in their order: an `xray` part, a non-empty name, an
      allowed extension. The result is the lower-cased extension. */
  function CheckUpload(xray: Option<Upload>): (r: Result<string, string>)
    ensures r.Ok? <==> xray.Some? && xray.value.filename != "" && AllowedFile(xray.value.filename)
    ensures r.Ok? ==> r.value in AllowedExtensions && r.value == Lower(AfterLast(xray.value.filename, '.').value)
    ensures r.Err? ==> (r.error == NoFileSelected <==> xray.None? || xray.value.filename == "")
    ensures r.Err? ==> r.error in {NoFileSelected, InvalidFileType}
  {
    if xray.None? then Err(NoFileSelected)
    else if xray.value.filename == "" then Err(NoFileSelected)
    else if !AllowedFile(xray.value.filename) then Err(InvalidFileType)
    else Ok(Lower(AfterLast(xray.value.filename, '.').value))
  }

  /** The stored upload name: the random hex, a dot, the extension. */
  function SavedName(hex: string, ext: string): (name: string)
    ensures '.' !in hex && '.' !in ext ==> AfterLast(name, '.') == Some(ext)
  {
    var name := hex + "." + ext;
    assert name[|hex|] == '.';
    assert name[|hex| + 1..] == ext;
    name
  }

  /** The heat-map name: "heatmap_" before the stored upload name. */
  function HeatmapName(saved: string): (name: string)
    ensures StartsWith(name, "heatmap_") && name[|"heatmap_"|..] == saved
  {
    "heatmap_" + saved
  }

  /** What the result page shows. */
  datatype PredictView = PredictView(patient: Patient, report: XRayReport, heatmap: Option<string>, demoMode: bool)

  /** predict: resolves the patient, checks the upload, then stores one
      report for that patient (and the quick-added patient with it). The
      inference result `result` and the Grad-CAM outcome `cam` come from
      outside the model. The quick-added patient is flushed before the file
      checks and rolled back when one fails, so on any error nothing is
      stored. */
  method PredictPage(db: Database, f: PredictForm, xray: Option<Upload>, hex: string,
                     result: Prediction, cam: Option<string>, now: int)
    returns (r: Result<PredictView, string>)
    requires db.Valid() && db.clock <= now
    modifies db
    ensures db.Valid()
    ensures r.Err? <==> ResolvePatient(old(db.patients), f).Err? || CheckUpload(xray).Err?
    ensures r.Err? ==> r.error == (if ResolvePatient(old(db.patients), f).Err? then ResolvePatient(old(db.patients), f).error
                                   else CheckUpload(xray).error)
    ensures r.Err? ==> db.patients == old(db.patients) && db.reports == old(db.reports)
    ensures r.Ok? ==>
              var res := ResolvePatient(old(db.patients), f).value;
              var saved := SavedName(hex, CheckUpload(xray).value);
              && db.reports == old(db.reports) + [r.value.report]
              && r.value.report.patientId == r.value.patient.id
              && (res.Existing? ==> db.patients == old(db.patients) && r.value.patient == res.patient)
              && (res.QuickAdd? ==> db.patients == old(db.patients) + [r.value.patient]
                                    && r.value.patient.name == res.name && r.value.patient.age == res.age
                                    && r.value.patient.gender == res.gender)
              && r.value.report.imagePath == "uploads/" + saved
              && r.value.report.prediction == result.prediction
              && r.value.report.confidence == result.confidence
              && r.value.report.severity == Some(result.severity)
              && (r.value.heatmap.Some? <==> CamTruthy(cam))
              && (r.value.heatmap.Some? ==> r.value.heatmap.value == "heatmaps/" + HeatmapName(saved))
              && r.value.report.heatmapPath == r.value.heatmap
              && r.value.demoMode == result.demoMode
    ensures db.vitals == old(db.vitals) && db.users == old(db.users)
  {
    var resolution := ResolvePatient(db.patients, f);
    if resolution.Err? {
      return Err(resolution.error);
    }
    var upload := CheckUpload(xray);
    if upload.Err? {
      return Err(upload.error);
    }
    var patient: Patient;
    match resolution.value {
      case Existing(p) =>
        patient := p;
      case QuickAdd(name, age, gender) =>
        patient := db.AddPatient(name, age, gender, now);
    }
    assert HasPatient(db.patients, patient.id) by {
      assert patient in db.patients;
      var k :| 0 <= k < |db.patients| && db.patients[k] == patient;
    }
    var saved := SavedName(hex, upload.value);
    var heatmap: Option<string> := None;
    if CamTruthy(cam) {
      heatmap := Some("heatmaps/" + HeatmapName(saved));
    }
    var report := db.AddReport(patient.id, "uploads/" + saved, result.prediction, result.confidence,
                               Some(result.severity), heatmap, now);
    r := Ok(PredictView(patient, report, heatmap, result.demoMode));
  }

  // ---------------------------------------------------------------------------
  // download_report
  // ---------------------------------------------------------------------------

  /** The advice and risk re-derived for a stored report: the risk uses the
      stored confidence scaled to percent and no SpO2. */
  function DerivedData(report: XRayReport, patient: Patient): (d: ReportData)
    ensures d.report == report && d.patient == patient
    ensures d.advice == GetMedicalAdvice(report.prediction, report.severity)
    ensures d.risk == ComputeClinicalRisk(report.prediction, report.confidence * 100.0, report.severity, None)
  {
    ReportData(report, patient,
               GetMedicalAdvice(report.prediction, report.severity),
               ComputeClinicalRisk(report.prediction, report.confidence * 100.0, report.severity, None))
  }

  /** The raw score is at least `margin` away from each level threshold. */
  predicate ClearOfThresholds(score: real, margin: real) {
    && (score < 30.0 - margin || score >= 30.0 + margin)
    && (score < 50.0 - margin || score >= 50.0 + margin)
    && (score < 80.0 - margin || score >= 80.0 + margin)
  }

  /** A report stored from a prediction is re-derived to the prediction's
      advice: the label and severity are stored as returned. (The risk is
      recomputed from the rounded confidence; see DerivedRiskMatches.) */
  lemma DerivedMatchesPrediction(probs: seq<real>, report: XRayReport, patient: Patient)
    requires |probs| == |ClassNames|
    requires report.prediction == AssemblePrediction(probs).prediction
    requires report.confidence == AssemblePrediction(probs).confidence
    requires report.severity == Some(AssemblePrediction(probs).severity)
    ensures DerivedData(report, patient).advice == AssemblePrediction(probs).advice
  {
  }

  /** The risk re-derived from a stored report, recomputed from the stored
      4-place confidence, agrees with the prediction's risk whenever the
      prediction's own score is at least 0.002 from the 30/50/80 thresholds,
      the most that rounding can move it. */
  lemma DerivedRiskMatches(probs: seq<real>, report: XRayReport, patient: Patient)
    requires |probs| == |ClassNames|
    requires report.prediction == AssemblePrediction(probs).prediction
    requires report.confidence == AssemblePrediction(probs).confidence
    requires report.severity == Some(AssemblePrediction(probs).severity)
    ensures ClearOfThresholds(RiskScore(report.severity, probs[ArgMax(probs)] * 100.0, None), 0.002) ==>
              DerivedData(report, patient).risk == AssemblePrediction(probs).risk
  {
    var c := probs[ArgMax(probs)];
    var p := AssemblePrediction(probs);
    assert p.risk == ComputeClinicalRisk(report.prediction, c * 100.0, report.severity, None);
    assert DerivedData(report, patient).risk
           == ComputeClinicalRisk(report.prediction, report.confidence * 100.0, report.severity, None);
    RoundFourPlaces(c);
    StoredRiskAgrees(report.prediction, report.severity, c, report.confidence);
  }

  /** Rounding to 4 places moves a value by at most half a unit of the fourth place. */
  lemma RoundFourPlaces(x: real)
    ensures -0.5 <= (Round(x, 4) - x) * 10000.0 <= 0.5
  {
    assert Pow10(4) == 10000;
  }

  /** A confidence stored within half a unit of the fourth place gives the
      same risk as the raw one when the raw score is clear of the thresholds. */
  lemma StoredRiskAgrees(prediction: string, severity: Option<string>, raw: real, stored: real)
    requires -0.5 <= (stored - raw) * 10000.0 <= 0.5
    ensures ClearOfThresholds(RiskScore(severity, raw * 100.0, None), 0.002) ==>
              ComputeClinicalRisk(prediction, stored * 100.0, severity, None)
              == ComputeClinicalRisk(prediction, raw * 100.0, severity, None)
  {
    var a := RiskScore(severity, raw * 100.0, None);
    var b := RiskScore(severity, stored * 100.0, None);
    assert -0.002 <= b - a <= 0.002;
    if ClearOfThresholds(a, 0.002) {
      LevelsAgree(a, b);
    }
  }

  /** Two scores within 0.002 of each other, the first clear of the
      thresholds by that much, have the same level. */
  lemma LevelsAgree(a: real, b: real)
    requires -0.002 <= b - a <= 0.002 && ClearOfThresholds(a, 0.002)
    ensures LevelForScore(a) == LevelForScore(b)
  {
  }

  /** Probabilities whose top one, 0.74996, rounds up to 0.75. */
  const BoundaryProbs: seq<real> := [0.0, 0.0, 0.74996, 0.25004]

  /** As written, a PNEUMONIA upload at probability 0.74996 is shown as
      Moderate risk (score 49.9984), while its stored confidence 0.75 gives
      the downloaded report Severe (score 50). */
  lemma StoredRiskDiffers(report: XRayReport, patient: Patient)
    requires report.prediction == AssemblePrediction(BoundaryProbs).prediction
    requires report.confidence == AssemblePrediction(BoundaryProbs).confidence
    requires report.severity == Some(AssemblePrediction(BoundaryProbs).severity)
    ensures AssemblePrediction(BoundaryProbs).risk == ModerateRisk
    ensures DerivedData(report, patient).risk == SevereRisk
  {
    var p := BoundaryProbs;
    assert ArgMax(p) == 2;
    assert Round(0.74996, 4) == 0.75 by {
      assert Pow10(4) == 10000;
      assert (0.74996 * 10000.0).Floor == 7499;
    }
    assert GetSeverity("PNEUMONIA", 0.74996) == "Moderate";
    UpperPneumonia();
  }

  lemma UpperPneumonia()
    ensures Upper("PNEUMONIA") != "NORMAL"
  {
    assert |Upper("PNEUMONIA")| == 9;
  }

  /** With the risk computed from the returned confidence, a stored report
      always re-derives the prediction's advice and risk. */
  lemma DerivedMatchesConsistent(probs: seq<real>, report: XRayReport, patient: Patient)
    requires |probs| == |ClassNames|
    requires report.prediction == AssemblePredictionConsistent(probs).prediction
    requires report.confidence == AssemblePredictionConsistent(probs).confidence
    requires report.severity == Some(AssemblePredictionConsistent(probs).severity)
    ensures DerivedData(report, patient).advice == AssemblePredictionConsistent(probs).advice
    ensures DerivedData(report, patient).risk == AssemblePredictionConsistent(probs).risk
  {
  }

  /** download_report: 404 for an unknown report id; otherwise the PDF name
      and its story, built from the report, its patient, and the re-derived
      advice and risk. A report whose patient is gone fails (500). */
  method DownloadReport(db: Database, reportId: int, imageExists: bool, heatmapExists: bool, now: int)
    returns (r: Result<(string, seq<Block>), int>)
    ensures r.Err? && r.error == 404 <==> FindReport(db.reports, reportId).None?
    ensures r.Err? ==> r.error in {404, 500}
    ensures r.Ok? ==>
              var report := FindReport(db.reports, reportId).value;
              var patient := FindPatient(db.patients, report.patientId);
              && patient.Some?
              && r.value.0 == "Report_" + IntToString(reportId) + ".pdf"
              && r.value.1 == Story(DerivedData(report, patient.value), imageExists, heatmapExists, now)
    ensures db.Valid() ==> (r.Ok? <==> FindReport(db.reports, reportId).Some?)
  {
    var found := FindReport(db.reports, reportId);
    if found.None? {
      return Err(404);
    }
    var report := found.value;
    var patient := FindPatient(db.patients, report.patientId);
    if patient.None? {
      return Err(500);
    }
    var story := GenerateMedicalReport(DerivedData(report, patient.value), imageExists, heatmapExists, now);
    r := Ok(("Report_" + IntToString(report.id) + ".pdf", story));
  }

  // ---------------------------------------------------------------------------
  // Redirect targets
  // ---------------------------------------------------------------------------

  const DoctorPath := "/doctor"

  /** `f'/patient/{patient_id}'`: a missing id is written "None". */
  function PatientPath(patientId: Option<int>): (path: string)
    ensures StartsWith(path, "/patient/")
    ensures patientId.None? ==> path == "/patient/None"
    ensures patientId.Some? ==> ParseInt(path[|"/patient/"|..]) == Some(patientId.value)
  {
    match patientId
    case None => "/patient/None"
    case Some(id) =>
      var path := "/patient/" + IntToString(id);
      assert path[|"/patient/"|..] == IntToString(id);
      ParseIntToString(id);
      path
  }

  /** The redirect after registration or the Google callback: doctors go to
      the doctor portal, everyone else to their patient page. */
  function RoleRedirect(role: string, patientId: Option<int>): (path: string)
    ensures path == DoctorPath <==> role == "doctor"
    ensures role != "doctor" ==> path == PatientPath(patientId)
  {
    if role == "doctor" then DoctorPath else PatientPath(patientId)
  }

  /** login for a signed-in user: `url_for('portal_routes', ...)`. A
      non-doctor without a patient id gets `id=None`, which url_for drops,
      so the target is the doctor portal. */
  function SignedInLoginRedirect(u: User): (path: string)
    ensures path == DoctorPath <==> u.role == "doctor" || u.patientId.None?
    ensures path != DoctorPath ==> path == PatientPath(u.patientId)
  {
    if u.role == "doctor" then DoctorPath
    else match u.patientId
      case None => DoctorPath
      case Some(_) => PatientPath(u.patientId)
  }

  /** login's POST: a known email with a matching password signs in and
      goes to the doctor portal or the patient page by role; a user of any
      other role, or a failed check, stays on the login page (None). */
  function LoginRedirect(users: seq<User>, email: string, passwordMatches: bool): (r: Option<string>)
    ensures r.Some? <==> FindUser(users, email).Some? && passwordMatches
                         && FindUser(users, email).value.role in {"doctor", "patient"}
    ensures r.Some? ==> r.value == RoleRedirect(FindUser(users, email).value.role, FindUser(users, email).value.patientId)
  {
    match FindUser(users, email)
    case None => None
    case Some(u) =>
      if !passwordMatches then None
      else if u.role == "doctor" then Some(DoctorPath)
      else if u.role == "patient" then Some(PatientPath(u.patientId))
      else None
  }

  /** A signed-in patient account without a linked patient is sent to the
      doctor portal by login but to "/patient/None" by registration. */
  lemma UnlinkedAccountTargets(u: User)
    requires u.role == "patient" && u.patientId.None?
    ensures SignedInLoginRedirect(u) == DoctorPath
    ensures RoleRedirect(u.role, u.patientId) == "/patient/None"
  {
  }

  /** register's POST (and its signed-in shortcut): an existing email goes
      back to the form; otherwise one user is added, and for the patient
      role one patient (age 0, gender 'Unknown', the form's name or 'New
      Patient') linked to it. */
  method Register(db: Database, signedIn: Option<User>, email: string, role: string, name: Option<string>, now: int)
    returns (target: string)
    requires db.Valid() && db.clock <= now
    modifies db
    ensures db.Valid()
    ensures signedIn.Some? ==> target == RoleRedirect(signedIn.value.role, signedIn.value.patientId)
    ensures signedIn.Some? || FindUser(old(db.users), email).Some? ==>
              db.users == old(db.users) && db.patients == old(db.patients)
    ensures signedIn.None? && FindUser(old(db.users), email).Some? ==> target == "/register"
    ensures signedIn.None? && FindUser(old(db.users), email).None? ==>
              && |db.users| == |old(db.users)| + 1
              && db.users[..|old(db.users)|] == old(db.users)
              && var u := db.users[|old(db.users)|];
              && u.email == email && u.role == role
              && target == RoleRedirect(role, u.patientId)
              && (role == "patient" ==>
                    && |db.patients| == |old(db.patients)| + 1
                    && db.patients[..|old(db.patients)|] == old(db.patients)
                    && var p := db.patients[|old(db.patients)|];
                    && p.name == name.GetOr("New Patient") && p.age == 0 && p.gender == "Unknown"
                    && u.patientId == Some(p.id))
              && (role != "patient" ==> db.patients == old(db.patients) && u.patientId.None?)
    ensures db.reports == old(db.reports) && db.vitals == old(db.vitals)
  {
    if signedIn.Some? {
      return RoleRedirect(signedIn.value.role, signedIn.value.patientId);
    }
    if FindUser(db.users, email).Some? {
      return "/register";
    }
    var patientId: Option<int> := None;
    if role == "patient" {
      var p := db.AddPatient(name.GetOr("New Patient"), 0, "Unknown", now);
      patientId := Some(p.id);
    }
    var u := db.AddUser(email, role, patientId);
    target := RoleRedirect(role, u.patientId);
  }

  /** The user information Google returns. */
  datatype GoogleInfo = GoogleInfo(email: string, name: Option<string>)

  /** authorize_google: a failed token exchange or no user information goes
      back to login; a known email signs in; a new email registers with the
      role remembered in the session ('patient' when none), a patient role
      getting a linked patient named after the Google profile. */
  method GoogleCallback(db: Database, tokenOk: bool, info: Option<GoogleInfo>, sessionRole: Option<string>, now: int)
    returns (target: string)
    requires db.Valid() && db.clock <= now
    modifies db
    ensures db.Valid()
    ensures !tokenOk || info.None? ==> target == "/login" && db.users == old(db.users) && db.patients == old(db.patients)
    ensures tokenOk && info.Some? && FindUser(old(db.users), info.value.email).Some? ==>
              var u := FindUser(old(db.users), info.value.email).value;
              target == RoleRedirect(u.role, u.patientId) && db.users == old(db.users) && db.patients == old(db.patients)
    ensures tokenOk && info.Some? && FindUser(old(db.users), info.value.email).None? ==>
              var role := sessionRole.GetOr("patient");
              && |db.users| == |old(db.users)| + 1
              && db.users[..|old(db.users)|] == old(db.users)
              && var u := db.users[|old(db.users)|];
              && u.email == info.value.email && u.role == role
              && target == RoleRedirect(role, u.patientId)
              && (role == "patient" ==>
                    && |db.patients| == |old(db.patients)| + 1
                    && db.patients[..|old(db.patients)|] == old(db.patients)
                    && var p := db.patients[|old(db.patients)|];
                    && p.name == info.value.name.GetOr("Google User") && p.age == 0 && p.gender == "Unknown"
                    && u.patientId == Some(p.id))
              && (role != "patient" ==> db.patients == old(db.patients) && u.patientId.None?)
    ensures db.reports == old(db.reports) && db.vitals == old(db.vitals)
  {
    if !tokenOk || info.None? {
      return "/login";
    }
    var email := info.value.email;
    var existing := FindUser(db.users, email);
    if existing.Some? {
      return RoleRedirect(existing.value.role, existing.value.patientId);
    }
    var role := sessionRole.GetOr("patient");
    var patientId: Option<int> := None;
    if role == "patient" {
      var p := db.AddPatient(info.value.name.GetOr("Google User"), 0, "Unknown", now);
      patientId := Some(p.id);
    }
    var u := db.AddUser(email, role, patientId);
    target := RoleRedirect(role, u.patientId);
  }
}
