/** The REST API of iot/api.py: vitals intake from bedside devices with its
    ordered validation and SpO2 alert, the "latest N, newest first" vitals
    queries, patient creation from JSON, global statistics, and the X-ray
    prediction endpoint's error ladder. Requests are records of optional
    fields; a failure is an HTTP status with its error text. */
module IotApi {
  import opened Wrappers
  import opened PyText
  import opened Records
  import opened Predict

  /** An error response: HTTP status and the `error` text. */
  datatype ApiError = ApiError(code: int, message: string)

  // ---------------------------------------------------------------------------
  // POST /api/vitals
  // ---------------------------------------------------------------------------

  /** The JSON body of a vitals post. Each field is None when the key is
      absent; `deviceId` holds `Some(None)` for an explicit JSON null. The
      numeric fields carry the JSON number. */
  datatype VitalsPayload = VitalsPayload(
    deviceId: Option<Option<string>>,
    patientId: Option<int>,
    spo2: Option<real>,
    temperature: Option<real>,
    heartRate: Option<real>)

  /** The required keys, in the order they are checked. */
  const RequiredFields: seq<string> := ["device_id", "patient_id", "spo2", "temperature", "heart_rate"]

  /** `field in data`. */
  predicate Present(p: VitalsPayload, field: string) {
    match field
    case "device_id" => p.deviceId.Some?
    case "patient_id" => p.patientId.Some?
    case "spo2" => p.spo2.Some?
    case "temperature" => p.temperature.Some?
    case "heart_rate" => p.heartRate.Some?
    case _ => false
  }

  /** The first of `fields` absent from the payload. */
  function FirstAbsent(p: VitalsPayload, fields: seq<string>): (r: Option<string>)
    ensures r.None? <==> forall k :: 0 <= k < |fields| ==> Present(p, fields[k])
    ensures r.Some? ==> exists k :: 0 <= k < |fields| && fields[k] == r.value && !Present(p, fields[k])
                                    && forall m :: 0 <= m < k ==> Present(p, fields[m])
  {
    if fields == [] then None
    else if !Present(p, fields[0]) then Some(fields[0])
    else
      var r := FirstAbsent(p, fields[1..]);
      assert forall k :: 1 <= k < |fields| ==> fields[k] == fields[1..][k - 1];
      r
  }

  /** All required keys are present. */
  predicate AllPresent(p: VitalsPayload) {
    p.deviceId.Some? && p.patientId.Some? && p.spo2.Some? && p.temperature.Some? && p.heartRate.Some?
  }

  lemma AllPresentIff(p: VitalsPayload)
    ensures AllPresent(p) <==> FirstAbsent(p, RequiredFields).None?
  {
    if !AllPresent(p) {
      assert !Present(p, RequiredFields[0]) || !Present(p, RequiredFields[1]) || !Present(p, RequiredFields[2])
          || !Present(p, RequiredFields[3]) || !Present(p, RequiredFields[4]);
    }
  }

  /** Python's `int(x)` on a float: truncation toward zero. */
  function TruncToInt(x: real): (n: int)
    ensures x >= 0.0 ==> n as real <= x < n as real + 1.0
    ensures x < 0.0 ==> n as real - 1.0 < x <= n as real
  {
    if x >= 0.0 then x.Floor else -((-x).Floor)
  }

  const SpO2RangeError := "SpO2 must be between 0 and 100"
  const TemperatureRangeError := "Temperature must be between 30°C and 45°C"
  const HeartRateRangeError := "Heart rate must be between 20 and 300 BPM"

  function MissingFieldError(field: string): string { "Missing field: " + field }

  function UnknownPatientError(id: int): string { "Patient id=" + IntToString(id) + " not found" }

  /** A reading that passed every check, ready to store. */
  datatype Reading = Reading(patient: Patient, spo2: real, temperature: real, heartRate: int, deviceId: Option<string>)

  /** The checks of receive_vitals in their order: required keys, then the
      patient, then the three inclusive ranges. */
  function ValidateVitals(p: VitalsPayload, patients: seq<Patient>): (r: Result<Reading, ApiError>)
    ensures FirstAbsent(p, RequiredFields).Some? ==>
              r == Err(ApiError(400, MissingFieldError(FirstAbsent(p, RequiredFields).value)))
    ensures r.Err? && r.error.code == 404 <==> AllPresent(p) && !HasPatient(patients, p.patientId.value)
    ensures r.Ok? <==> AllPresent(p) && HasPatient(patients, p.patientId.value)
                       && 0.0 <= p.spo2.value <= 100.0
                       && 30.0 <= p.temperature.value <= 45.0
                       && 20.0 <= p.heartRate.value < 301.0
    ensures r.Ok? ==> r.value.patient in patients && r.value.patient.id == p.patientId.value
                      && r.value.spo2 == p.spo2.value && r.value.temperature == p.temperature.value
                      && r.value.heartRate == TruncToInt(p.heartRate.value)
                      && r.value.deviceId == p.deviceId.value
  {
    AllPresentIff(p);
    match FirstAbsent(p, RequiredFields)
    case Some(field) => Err(ApiError(400, MissingFieldError(field)))
    case None =>
      match FindPatient(patients, p.patientId.value)
      case None => Err(ApiError(404, UnknownPatientError(p.patientId.value)))
      case Some(patient) =>
        var spo2 := p.spo2.value;
        var temperature := p.temperature.value;
        var heartRate := TruncToInt(p.heartRate.value);
        if !(0.0 <= spo2 <= 100.0) then Err(ApiError(400, SpO2RangeError))
        else if !(30.0 <= temperature <= 45.0) then Err(ApiError(400, TemperatureRangeError))
        else if !(20 <= heartRate <= 300) then Err(ApiError(400, HeartRateRangeError))
        else Ok(Reading(patient, spo2, temperature, heartRate, p.deviceId.value))
  }

  /** The range errors come in a fixed order: SpO2, then temperature, then
      heart rate; the first failing check is the one reported. */
  lemma RangeErrorOrder(p: VitalsPayload, patients: seq<Patient>)
    requires AllPresent(p) && HasPatient(patients, p.patientId.value)
    ensures !(0.0 <= p.spo2.value <= 100.0) ==> ValidateVitals(p, patients) == Err(ApiError(400, SpO2RangeError))
    ensures 0.0 <= p.spo2.value <= 100.0 && !(30.0 <= p.temperature.value <= 45.0) ==>
              ValidateVitals(p, patients) == Err(ApiError(400, TemperatureRangeError))
    ensures 0.0 <= p.spo2.value <= 100.0 && 30.0 <= p.temperature.value <= 45.0
            && !(20.0 <= p.heartRate.value < 301.0) ==>
              ValidateVitals(p, patients) == Err(ApiError(400, HeartRateRangeError))
  {
    AllPresentIff(p);
  }

  /** The unknown-patient check comes before every range check: a reading for
      an unknown patient is a 404 however far out of range its values are. */
  lemma UnknownPatientBeforeRanges(p: VitalsPayload, patients: seq<Patient>)
    requires AllPresent(p) && !HasPatient(patients, p.patientId.value)
    ensures ValidateVitals(p, patients) == Err(ApiError(404, UnknownPatientError(p.patientId.value)))
  {
    AllPresentIff(p);
  }

  /** The text of the emergency message, as the fields it interpolates. */
  datatype AlertMessage = AlertMessage(patientName: string, spo2: real, deviceId: Option<string>, at: int)

  /** The 201 reply of an accepted reading. */
  datatype VitalsReply = VitalsReply(
    vitalsId: int, patientName: string, alert: bool, message: Option<AlertMessage>, recordedAt: int)

  /** receive_vitals: checks the required keys with a loop in their order,
      then the patient and the ranges; stores the reading only when every
      check passes and replies with the alert flag (SpO2 below 90) and a
      message exactly when the flag is set. */
  method ReceiveVitals(db: Database, p: VitalsPayload, now: int) returns (r: Result<VitalsReply, ApiError>)
    requires db.Valid() && db.clock <= now
    modifies db
    ensures db.Valid()
    ensures r.Err? <==> ValidateVitals(p, old(db.patients)).Err?
    ensures r.Err? ==> r.error == ValidateVitals(p, old(db.patients)).error
                       && db.vitals == old(db.vitals) && db.clock == old(db.clock)
    ensures r.Ok? ==>
              var reading := ValidateVitals(p, old(db.patients)).value;
              && |db.vitals| == |old(db.vitals)| + 1
              && db.vitals[..|old(db.vitals)|] == old(db.vitals)
              && db.vitals[|old(db.vitals)|]
                   == Vitals(r.value.vitalsId, reading.patient.id, reading.spo2, reading.temperature,
                             reading.heartRate, reading.deviceId, now)
              && r.value.patientName == reading.patient.name
              && (r.value.alert <==> reading.spo2 < AlertSpO2Below)
              && (r.value.message.Some? <==> r.value.alert)
              && r.value.recordedAt == now
    ensures db.patients == old(db.patients) && db.reports == old(db.reports) && db.users == old(db.users)
  {
    var i := 0;
    while i < |RequiredFields|
      invariant 0 <= i <= |RequiredFields|
      invariant forall k :: 0 <= k < i ==> Present(p, RequiredFields[k])
    {
      if !Present(p, RequiredFields[i]) {
        FirstAbsentAt(p, RequiredFields, i);
        return Err(ApiError(400, MissingFieldError(RequiredFields[i])));
      }
      i := i + 1;
    }
    AllPresentIff(p);
    var found := FindPatient(db.patients, p.patientId.value);
    if found.None? {
      return Err(ApiError(404, UnknownPatientError(p.patientId.value)));
    }
    var patient := found.value;
    var spo2 := p.spo2.value;
    var temperature := p.temperature.value;
    var heartRate := TruncToInt(p.heartRate.value);
    if !(0.0 <= spo2 <= 100.0) {
      return Err(ApiError(400, SpO2RangeError));
    }
    if !(30.0 <= temperature <= 45.0) {
      return Err(ApiError(400, TemperatureRangeError));
    }
    if !(20 <= heartRate <= 300) {
      return Err(ApiError(400, HeartRateRangeError));
    }
    var v := db.AddVitals(patient.id, spo2, temperature, heartRate, p.deviceId.value, now);
    var alert := spo2 < 90.0;
    var message: Option<AlertMessage> := None;
    if alert {
      message := Some(AlertMessage(patient.name, spo2, p.deviceId.value, now));
    }
    r := Ok(VitalsReply(v.id, patient.name, alert, message, v.recordedAt));
  }

  /** The loop's early exit names the same field as FirstAbsent. */
  lemma FirstAbsentAt(p: VitalsPayload, fields: seq<string>, i: nat)
    requires i < |fields| && !Present(p, fields[i])
    requires forall k :: 0 <= k < i ==> Present(p, fields[k])
    ensures FirstAbsent(p, fields) == Some(fields[i])
  {
    var r := FirstAbsent(p, fields);
    var k :| 0 <= k < |fields| && fields[k] == r.value && !Present(p, fields[k])
             && forall m :: 0 <= m < k ==> Present(p, fields[m]);
    assert k == i;
  }

  /** A JSON heart rate is accepted exactly when it lies in [20, 301): the
      value is truncated before the inclusive [20, 300] check. */
  lemma HeartRateAcceptance(x: real)
    ensures 20 <= TruncToInt(x) <= 300 <==> 20.0 <= x < 301.0
  {
  }

  // ---------------------------------------------------------------------------
  // Newest-first selections
  // ---------------------------------------------------------------------------

  /** `order_by(<time>.desc()).limit(n)` over rows stored in time order: the
      last `n` rows, most recent first. */
  function NewestFirst<T>(rows: seq<T>, n: nat): (r: seq<T>)
    ensures |r| == if |rows| < n then |rows| else n
    ensures forall i :: 0 <= i < |r| ==> r[i] == rows[|rows| - 1 - i]
  {
    if n == 0 || |rows| == 0 then []
    else [rows[|rows| - 1]] + NewestFirst(rows[..|rows| - 1], n - 1)
  }

  /** Rows in non-increasing order of `key`. */
  ghost predicate Descending<T>(s: seq<T>, key: T -> int) {
    forall i, j :: 0 <= i < j < |s| ==> key(s[i]) >= key(s[j])
  }

  /** Over rows in time order the selection is newest first, and every row
      left out is no newer than every row selected. */
  lemma NewestFirstSelects<T>(rows: seq<T>, n: nat, stamp: T -> int)
    requires Ascending(rows, stamp)
    ensures Descending(NewestFirst(rows, n), stamp)
    ensures forall i, j :: 0 <= i < |rows| - |NewestFirst(rows, n)| && 0 <= j < |NewestFirst(rows, n)| ==>
              stamp(rows[i]) <= stamp(NewestFirst(rows, n)[j])
  {
  }

  /** `[v.to_dict() for v in vitals]`. */
  function VitalsDicts(vs: seq<Vitals>): (ds: seq<VitalsDict>)
    ensures |ds| == |vs|
    ensures forall i :: 0 <= i < |vs| ==> ds[i] == VitalsToDict(vs[i])
  {
    seq(|vs|, i requires 0 <= i < |vs| => VitalsToDict(vs[i]))
  }

  /** `[r.to_dict() for r in reports]`. */
  function ReportDicts(rs: seq<XRayReport>): (ds: seq<ReportDict>)
    ensures |ds| == |rs|
    ensures forall i :: 0 <= i < |rs| ==> ds[i] == ReportToDict(rs[i])
  {
    seq(|rs|, i requires 0 <= i < |rs| => ReportToDict(rs[i]))
  }

  /** The reply of GET /api/vitals/<patient_id>. */
  datatype VitalsView = VitalsView(patient: PatientDict, vitals: seq<VitalsDict>, latest: Option<VitalsDict>)

  /** get_patient_vitals: 404 for an unknown patient; otherwise at most the 10
      latest readings of that patient, newest first, and `latest` the first
      of them (None when there is none). */
  function GetPatientVitals(patients: seq<Patient>, vitals: seq<Vitals>, patientId: int): (r: Result<VitalsView, ApiError>)
    ensures r.Err? <==> !HasPatient(patients, patientId)
    ensures r.Err? ==> r.error.code == 404
    ensures r.Ok? ==>
              && r.value.patient.id == patientId
              && |r.value.vitals| <= 10
              && (forall i :: 0 <= i < |r.value.vitals| ==> r.value.vitals[i].patientId == patientId)
              && (r.value.latest.None? <==> r.value.vitals == [])
              && (r.value.latest.Some? ==> r.value.latest.value == r.value.vitals[0])
    ensures r.Ok? ==>
              && r.value.patient == PatientToDict(FindPatient(patients, patientId).value)
              && r.value.vitals == VitalsDicts(NewestFirst(Where(vitals, VitalsOwner, patientId, true), 10))
  {
    match FindPatient(patients, patientId)
    case None => Err(ApiError(404, "Patient not found"))
    case Some(patient) =>
      var rows := NewestFirst(Where(vitals, VitalsOwner, patientId, true), 10);
      assert forall i :: 0 <= i < |rows| ==> rows[i] in Where(vitals, VitalsOwner, patientId, true);
      var ds := VitalsDicts(rows);
      Ok(VitalsView(PatientToDict(patient), ds, if ds == [] then None else Some(ds[0])))
  }

  /** Over a consistent store the per-patient selection holds the patient's
      newest readings, newest first, and every reading of the patient left
      out is no newer than each one shown; with ten or fewer readings none
      is left out. */
  lemma PatientVitalsNewest(db: Database, patientId: int)
    requires db.Valid()
    ensures var own := Where(db.vitals, VitalsOwner, patientId, true);
            var rows := NewestFirst(own, 10);
            && Descending(rows, VitalsRecorded)
            && (forall i, j :: 0 <= i < |own| - |rows| && 0 <= j < |rows| ==>
                  own[i].recordedAt <= rows[j].recordedAt)
            && (|own| <= 10 ==> |rows| == |own|)
  {
    var own := Where(db.vitals, VitalsOwner, patientId, true);
    WhereAscending(db.vitals, VitalsOwner, patientId, true, VitalsRecorded);
    NewestFirstSelects(own, 10, VitalsRecorded);
  }

  /** get_all_recent_vitals: the 20 latest readings of every patient. */
  function AllRecentVitals(vitals: seq<Vitals>): (ds: seq<VitalsDict>)
    ensures |ds| == if |vitals| < 20 then |vitals| else 20
    ensures forall i :: 0 <= i < |ds| ==> ds[i] == VitalsToDict(vitals[|vitals| - 1 - i])
  {
    VitalsDicts(NewestFirst(vitals, 20))
  }

  /** Over a consistent store the 20 latest readings come newest first. */
  lemma AllRecentVitalsNewest(db: Database)
    requires db.Valid()
    ensures Descending(NewestFirst(db.vitals, 20), VitalsRecorded)
    ensures forall i, j :: 0 <= i < |db.vitals| - |NewestFirst(db.vitals, 20)| && 0 <= j < |NewestFirst(db.vitals, 20)| ==>
              db.vitals[i].recordedAt <= NewestFirst(db.vitals, 20)[j].recordedAt
  {
    NewestFirstSelects(db.vitals, 20, VitalsRecorded);
  }

  /** get_patient_xrays: every report of the patient, newest first; an
      unknown patient simply has none. */
  function PatientXrays(reports: seq<XRayReport>, patientId: int): (ds: seq<ReportDict>)
    ensures |ds| == |Where(reports, ReportOwner, patientId, true)|
    ensures forall i :: 0 <= i < |ds| ==> ds[i].patientId == patientId
    ensures var own := Where(reports, ReportOwner, patientId, true);
            forall i :: 0 <= i < |ds| ==> ds[i] == ReportToDict(own[|own| - 1 - i])
  {
    var own := Where(reports, ReportOwner, patientId, true);
    var rows := NewestFirst(own, |own|);
    assert forall i :: 0 <= i < |rows| ==> rows[i] in own;
    ReportDicts(rows)
  }

  /** Over a consistent store a patient's reports come newest first. */
  lemma PatientXraysNewest(db: Database, patientId: int)
    requires db.Valid()
    ensures var own := Where(db.reports, ReportOwner, patientId, true);
            Descending(NewestFirst(own, |own|), ReportCreated)
  {
    var own := Where(db.reports, ReportOwner, patientId, true);
    WhereAscending(db.reports, ReportOwner, patientId, true, ReportCreated);
    NewestFirstSelects(own, |own|, ReportCreated);
  }

  // ---------------------------------------------------------------------------
  // POST /api/patients
  // ---------------------------------------------------------------------------

  /** A JSON value, as an `age` value may arrive; the contents of an array
      or an object are not needed. */
  datatype JsonValue = JNull | JBool(b: bool) | JInt(i: int) | JReal(r: real) | JText(s: string) | JCompound

  /** Python's `int(v)` raises TypeError on None, a list and a dict. */
  predicate IntTypeError(v: JsonValue) {
    v.JNull? || v.JCompound?
  }

  /** Python's `int(v)` on a JSON scalar: booleans are 0/1, floats are
      truncated, strings must be integer numerals; None is the ValueError. */
  function JsonInt(v: JsonValue): (r: Option<int>)
    requires !IntTypeError(v)
    ensures v.JBool? ==> r == Some(if v.b then 1 else 0)
    ensures v.JInt? ==> r == Some(v.i)
    ensures v.JReal? ==> r == Some(TruncToInt(v.r))
    ensures v.JText? ==> r == ParseInt(v.s)
  {
    match v
    case JBool(b) => Some(if b then 1 else 0)
    case JInt(i) => Some(i)
    case JReal(x) => Some(TruncToInt(x))
    case JText(s) => ParseInt(s)
  }

  /** The JSON body of a patient creation; None is an absent key. Name and
      gender are taken to be strings. */
  datatype PatientPayload = PatientPayload(name: Option<string>, age: Option<JsonValue>, gender: Option<string>)

  /** A patient to create, after validation. */
  datatype NewPatient = NewPatient(name: string, age: int, gender: string)

  /** The fields add_patient_api checks for presence: a stripped non-empty
      name, an age that is present and not null, a non-empty gender. */
  predicate FieldsPresent(p: PatientPayload) {
    Strip(p.name.GetOr("")) != [] && p.age.Some? && !p.age.value.JNull? && p.gender.GetOr("") != ""
  }

  /** add_patient_api's checks: the fields present (400), then `int(age)`,
      whose ValueError is a 400 and whose TypeError, for an array or object,
      is not caught and answers 500. */
  function ValidatePatient(p: PatientPayload): (r: Result<NewPatient, ApiError>)
    ensures r.Ok? <==> FieldsPresent(p) && !p.age.value.JCompound? && JsonInt(p.age.value).Some?
    ensures r.Ok? ==> r.value == NewPatient(Strip(p.name.value), JsonInt(p.age.value).value, p.gender.value)
    ensures r == Err(ApiError(400, "Missing required patient fields")) <==> !FieldsPresent(p)
    ensures r == Err(ApiError(500, "TypeError")) <==> FieldsPresent(p) && p.age.value.JCompound?
    ensures r.Err? ==> r.error.code == 400 || r.error.code == 500
  {
    var name := Strip(p.name.GetOr(""));
    var gender := p.gender.GetOr("");
    if name == [] || p.age.None? || p.age.value.JNull? || gender == [] then
      Err(ApiError(400, "Missing required patient fields"))
    else if p.age.value.JCompound? then Err(ApiError(500, "TypeError"))
    else match JsonInt(p.age.value)
      case None => Err(ApiError(400, "Age must be a number"))
      case Some(age) => Ok(NewPatient(name, age, gender))
  }

  /** A name of spaces only is rejected as missing, however valid the rest. */
  lemma BlankNameRejected(p: PatientPayload)
    requires p.name.Some? && forall k :: 0 <= k < |p.name.value| ==> IsSpace(p.name.value[k])
    ensures ValidatePatient(p) == Err(ApiError(400, "Missing required patient fields"))
  {
    StripEmptyIffBlank(p.name.value);
  }

  /** add_patient_api: on success exactly one patient, with the stripped
      name, is added; on failure nothing changes. */
  method AddPatientApi(db: Database, p: PatientPayload, now: int) returns (r: Result<PatientDict, ApiError>)
    requires db.Valid() && db.clock <= now
    modifies db
    ensures db.Valid()
    ensures r.Ok? <==> ValidatePatient(p).Ok?
    ensures r.Err? ==> r.error == ValidatePatient(p).error && db.patients == old(db.patients)
    ensures r.Ok? ==>
              var np := ValidatePatient(p).value;
              && db.patients == old(db.patients) + [PatientFromDict(r.value)]
              && r.value.name == np.name && r.value.age == np.age && r.value.gender == np.gender
              && !HasPatient(old(db.patients), r.value.id)
    ensures db.reports == old(db.reports) && db.vitals == old(db.vitals) && db.users == old(db.users)
  {
    match ValidatePatient(p)
    case Err(e) =>
      r := Err(e);
    case Ok(np) =>
      var patient := db.AddPatient(np.name, np.age, np.gender, now);
      r := Ok(PatientToDict(patient));
  }

  // ---------------------------------------------------------------------------
  // GET /api/stats
  // ---------------------------------------------------------------------------

  datatype Stats = Stats(totalPatients: nat, totalReports: nat, pneumoniaCount: nat, activeDevices: nat)

  /** The stored predictions, in row order. */
  function Predictions(reports: seq<XRayReport>): (ps: seq<string>)
    ensures |ps| == |reports|
    ensures forall i :: 0 <= i < |reports| ==> ps[i] == reports[i].prediction
  {
    seq(|reports|, i requires 0 <= i < |reports| => reports[i].prediction)
  }

  /** Number of reports whose stored prediction is exactly `name`. */
  function CountPrediction(reports: seq<XRayReport>, name: string): (n: nat)
    ensures n == multiset(Predictions(reports))[name]
    ensures n <= |reports|
    ensures n > 0 <==> exists i :: 0 <= i < |reports| && reports[i].prediction == name
  {
    if reports == [] then 0
    else
      var rest := CountPrediction(reports[1..], name);
      assert forall i :: 1 <= i < |reports| ==> reports[i] == reports[1..][i - 1];
      assert Predictions(reports) == [reports[0].prediction] + Predictions(reports[1..]);
      (if reports[0].prediction == name then 1 else 0) + rest
  }

  /** The distinct `device_id` values, NULL counted as one value of its own. */
  function Devices(vitals: seq<Vitals>): (ds: set<Option<string>>)
    ensures forall d :: d in ds <==> exists i :: 0 <= i < |vitals| && vitals[i].deviceId == d
  {
    if vitals == [] then {}
    else
      var rest := Devices(vitals[1..]);
      assert forall i :: 1 <= i < |vitals| ==> vitals[i] == vitals[1..][i - 1];
      {vitals[0].deviceId} + rest
  }

  /** There are never more devices than readings. */
  lemma {:induction false} DevicesBound(vitals: seq<Vitals>)
    ensures |Devices(vitals)| <= |vitals|
  {
    if vitals != [] {
      DevicesBound(vitals[1..]);
      assert Devices(vitals) == {vitals[0].deviceId} + Devices(vitals[1..]);
    }
  }

  /** The label the statistics endpoint counts, spelled as in its query. */
  const StatsPneumoniaLabel := "Pneumonia"

  /** get_stats: row counts, reports predicted "Pneumonia", distinct devices. */
  function GetStats(patients: seq<Patient>, reports: seq<XRayReport>, vitals: seq<Vitals>): (s: Stats)
    ensures s.totalPatients == |patients| && s.totalReports == |reports|
    ensures s.pneumoniaCount == CountPrediction(reports, StatsPneumoniaLabel) <= s.totalReports
    ensures s.activeDevices == |Devices(vitals)|
    ensures s.activeDevices <= |vitals|
    ensures s.activeDevices == 0 <==> vitals == []
  {
    DevicesBound(vitals);
    assert vitals != [] ==> vitals[0].deviceId in Devices(vitals);
    Stats(|patients|, |reports|, CountPrediction(reports, StatsPneumoniaLabel), |Devices(vitals)|)
  }

  /** The statistics count "Pneumonia" while predictions are stored as the
      upper-case class names, so over reports holding class names the
      pneumonia count is always zero. */
  lemma PneumoniaNeverCounted(patients: seq<Patient>, reports: seq<XRayReport>, vitals: seq<Vitals>)
    requires forall i :: 0 <= i < |reports| ==> reports[i].prediction in ClassNames
    ensures GetStats(patients, reports, vitals).pneumoniaCount == 0
  {
    assert StatsPneumoniaLabel !in ClassNames;
  }

  /** get_stats as evidently intended: the pneumonia count is of the class
      name the predictions are stored under. */
  function IntendedStats(patients: seq<Patient>, reports: seq<XRayReport>, vitals: seq<Vitals>): (s: Stats)
    ensures s.pneumoniaCount > 0 <==> exists i :: 0 <= i < |reports| && reports[i].prediction == "PNEUMONIA"
    ensures s.pneumoniaCount == multiset(Predictions(reports))["PNEUMONIA"]
    ensures s.(pneumoniaCount := 0) == GetStats(patients, reports, vitals).(pneumoniaCount := 0)
  {
    GetStats(patients, reports, vitals).(pneumoniaCount := CountPrediction(reports, ClassNames[2]))
  }

  /** Storing a PNEUMONIA report raises the intended count by one, while the
      count as written stays zero. */
  lemma PneumoniaReportCounted(patients: seq<Patient>, reports: seq<XRayReport>, vitals: seq<Vitals>, x: XRayReport)
    requires forall i :: 0 <= i < |reports| ==> reports[i].prediction in ClassNames
    requires x.prediction == "PNEUMONIA"
    ensures IntendedStats(patients, reports + [x], vitals).pneumoniaCount
            == IntendedStats(patients, reports, vitals).pneumoniaCount + 1
    ensures GetStats(patients, reports + [x], vitals).pneumoniaCount == 0
  {
    assert Predictions(reports + [x]) == Predictions(reports) + [x.prediction];
    PneumoniaNeverCounted(patients, reports + [x], vitals);
  }

  // ---------------------------------------------------------------------------
  // POST /api/xray/predict
  // ---------------------------------------------------------------------------

  /** A multipart upload part: the client's file name. */
  datatype Upload = Upload(filename: string)

  /** `Patient.query.get(text)`: the form value names a patient when it is the
      numeral of an existing id. */
  function PatientByText(patients: seq<Patient>, text: string): (r: Option<Patient>)
    ensures r.Some? ==> r.value in patients && ParseInt(text) == Some(r.value.id)
    ensures r.None? <==> ParseInt(text).None? || !HasPatient(patients, ParseInt(text).value)
  {
    match ParseInt(text)
    case None => None
    case Some(id) => FindPatient(patients, id)
  }

  /** The stored names of an upload accepted by predict_api. */
  datatype ApiUpload = ApiUpload(patient: Patient, savedName: string, heatmapName: string)

  /** predict_api's checks, in order: patient_id present and non-empty (400),
      the patient exists (404), an `xray` part (400), a non-empty file name
      (400); a name without '.' then fails when the extension is taken
      (an uncaught IndexError, 500). No extension allow-list is applied. */
  function CheckPredictApi(patients: seq<Patient>, patientId: Option<string>, xray: Option<Upload>, hex: string)
    : (r: Result<ApiUpload, ApiError>)
    ensures patientId.GetOr("") == "" ==> r == Err(ApiError(400, "patient_id is required"))
    ensures patientId.GetOr("") != "" && PatientByText(patients, patientId.value).None? ==>
              r == Err(ApiError(404, "Patient not found"))
    ensures r.Err? && r.error.code == 400 && r.error.message == "No file uploaded" <==>
              patientId.GetOr("") != "" && PatientByText(patients, patientId.value).Some? && xray.None?
    ensures (patientId.GetOr("") != "" && PatientByText(patients, patientId.value).Some?
             && xray.Some? && xray.value.filename == "") ==> r == Err(ApiError(400, "No file selected"))
    ensures (patientId.GetOr("") != "" && PatientByText(patients, patientId.value).Some?
             && xray.Some? && xray.value.filename != "" && '.' !in xray.value.filename) ==>
              r.Err? && r.error.code == 500
    ensures r.Ok? <==> patientId.GetOr("") != "" && PatientByText(patients, patientId.value).Some?
                       && xray.Some? && xray.value.filename != "" && '.' in xray.value.filename
    ensures r.Ok? ==>
              && r.value.patient == PatientByText(patients, patientId.value).value
              && r.value.savedName == hex + "." + Lower(AfterLast(xray.value.filename, '.').value)
              && r.value.heatmapName == "heatmap_" + r.value.savedName
  {
    if patientId.GetOr("") == "" then Err(ApiError(400, "patient_id is required"))
    else match PatientByText(patients, patientId.value)
      case None => Err(ApiError(404, "Patient not found"))
      case Some(patient) =>
        if xray.None? then Err(ApiError(400, "No file uploaded"))
        else if xray.value.filename == "" then Err(ApiError(400, "No file selected"))
        else match AfterLast(xray.value.filename, '.')
          case None => Err(ApiError(500, "IndexError"))
          case Some(ext) =>
            var saved := hex + "." + Lower(ext);
            Ok(ApiUpload(patient, saved, "heatmap_" + saved))
  }

  /** Unlike the web form, the API stores any extension: "scan.exe" passes. */
  lemma ApiAcceptsAnyExtension(patients: seq<Patient>, patientId: string, hex: string)
    requires patientId != "" && PatientByText(patients, patientId).Some?
    ensures CheckPredictApi(patients, Some(patientId), Some(Upload("scan.exe")), hex).Ok?
    ensures CheckPredictApi(patients, Some(patientId), Some(Upload("scan.exe")), hex).value.savedName == hex + ".exe"
  {
    ScanExeExtension();
  }

  /** The extension of "scan.exe" is "exe", already lower-case. */
  lemma ScanExeExtension()
    ensures AfterLast("scan.exe", '.') == Some("exe") && Lower("exe") == "exe"
  {
    assert "scan.exe" == "scan" + ['.'] + "exe";
    AfterLastOf("scan", '.', "exe");
    assert Lower("exe") == "exe";
  }

  /** The 201 reply of predict_api. */
  datatype ApiPredictReply = ApiPredictReply(report: ReportDict, result: Prediction, heatmap: Option<string>)

  /** Grad-CAM's return value is truthy: a non-empty path. */
  predicate CamTruthy(cam: Option<string>) {
    cam.Some? && cam.value != ""
  }

  /** predict_api: after the checks, the inference result `result` and the
      Grad-CAM outcome `cam` (both computed outside the model) make one
      report for the resolved patient; the heat-map path is set exactly
      when Grad-CAM returned a path. Nothing is stored on any error. */
  method PredictApi(db: Database, patientId: Option<string>, xray: Option<Upload>, hex: string,
                    result: Prediction, cam: Option<string>, now: int)
    returns (r: Result<ApiPredictReply, ApiError>)
    requires db.Valid() && db.clock <= now
    modifies db
    ensures db.Valid()
    ensures r.Err? <==> CheckPredictApi(old(db.patients), patientId, xray, hex).Err?
    ensures r.Err? ==> r.error == CheckPredictApi(old(db.patients), patientId, xray, hex).error
                       && db.reports == old(db.reports)
    ensures r.Ok? ==>
              var up := CheckPredictApi(old(db.patients), patientId, xray, hex).value;
              && db.reports == old(db.reports) + [ReportFromDict(r.value.report)]
              && r.value.report.patientId == up.patient.id
              && r.value.report.imagePath == "uploads/" + up.savedName
              && r.value.report.prediction == result.prediction
              && r.value.report.confidencePct == result.confidence * 100.0
              && r.value.report.severity == Some(result.severity)
              && (r.value.heatmap.Some? <==> CamTruthy(cam))
              && r.value.report.heatmapPath == r.value.heatmap
              && (r.value.heatmap.Some? ==> r.value.heatmap.value == "heatmaps/" + up.heatmapName)
              && r.value.result == result
    ensures db.patients == old(db.patients) && db.vitals == old(db.vitals) && db.users == old(db.users)
  {
    var check := CheckPredictApi(db.patients, patientId, xray, hex);
    if check.Err? {
      return Err(check.error);
    }
    var up := check.value;
    var heatmap: Option<string> := None;
    if CamTruthy(cam) {
      heatmap := Some("heatmaps/" + up.heatmapName);
    }
    var report := db.AddReport(up.patient.id, "uploads/" + up.savedName, result.prediction,
                               result.confidence, Some(result.severity), heatmap, now);
    r := Ok(ApiPredictReply(ReportToDict(report), result, heatmap));
  }
}
