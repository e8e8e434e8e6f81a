/** The tables of database/models.py as records, their `to_dict`
    serialisations, and the database itself as a class whose methods append
    rows (a session add followed by a commit) or delete a patient together
    with its reports and vitals (the `all, delete-orphan` cascade). */
module Records {
  import opened Wrappers

  // ---------------------------------------------------------------------------
  // Rows
  // ---------------------------------------------------------------------------

  /** `patients`. Timestamps are abstract instants: only their order is used. */
  datatype Patient = Patient(id: int, name: string, age: int, gender: string, createdAt: int)

  /** `xray_reports`: `confidence` is the stored fraction (0.93 for 93%);
      `severity` and `heatmapPath` are nullable. */
  datatype XRayReport = XRayReport(
    id: int,
    patientId: int,
    imagePath: string,
    prediction: string,
    confidence: real,
    severity: Option<string>,
    heatmapPath: Option<string>,
    createdAt: int)

  /** `vitals`: `deviceId` is nullable. */
  datatype Vitals = Vitals(
    id: int,
    patientId: int,
    spo2: real,
    temperature: real,
    heartRate: int,
    deviceId: Option<string>,
    recordedAt: int)

  /** `users` without the password hash; `patientId` links a patient account. */
  datatype User = User(id: int, email: string, role: string, patientId: Option<int>)

  /** The emergency threshold hard-coded in Vitals.to_dict and the vitals API. */
  const AlertSpO2Below: real := 90.0

  // ---------------------------------------------------------------------------
  // to_dict
  // ---------------------------------------------------------------------------

  datatype PatientDict = PatientDict(id: int, name: string, age: int, gender: string, createdAt: int)

  datatype ReportDict = ReportDict(
    id: int,
    patientId: int,
    imagePath: string,
    prediction: string,
    confidencePct: real,
    severity: Option<string>,
    heatmapPath: Option<string>,
    createdAt: int)

  datatype VitalsDict = VitalsDict(
    id: int,
    patientId: int,
    spo2: real,
    temperature: real,
    heartRate: int,
    deviceId: Option<string>,
    recordedAt: int,
    alert: bool)

  /** Patient.to_dict: every column copied. */
  function PatientToDict(p: Patient): (d: PatientDict)
    ensures PatientFromDict(d) == p
  {
    PatientDict(p.id, p.name, p.age, p.gender, p.createdAt)
  }

  function PatientFromDict(d: PatientDict): Patient {
    Patient(d.id, d.name, d.age, d.gender, d.createdAt)
  }

  /** XRayReport.to_dict: the confidence is reported in percent, every other
      column (nullable ones included) is copied. */
  function ReportToDict(r: XRayReport): (d: ReportDict)
    ensures ReportFromDict(d) == r
  {
    ReportDict(r.id, r.patientId, r.imagePath, r.prediction, r.confidence * 100.0,
               r.severity, r.heatmapPath, r.createdAt)
  }

  /** The inverse of ReportToDict: the percentage back to a fraction. */
  function ReportFromDict(d: ReportDict): XRayReport {
    XRayReport(d.id, d.patientId, d.imagePath, d.prediction, d.confidencePct / 100.0,
               d.severity, d.heatmapPath, d.createdAt)
  }

  /** A stored fraction in [0, 1] is serialised as a percentage in [0, 100]. */
  lemma ReportConfidenceRange(r: XRayReport)
    requires 0.0 <= r.confidence <= 1.0
    ensures 0.0 <= ReportToDict(r).confidencePct <= 100.0
  {
  }

  /** Vitals.to_dict: every column copied plus the emergency flag. */
  function VitalsToDict(v: Vitals): (d: VitalsDict)
    ensures d.alert <==> d.spo2 < AlertSpO2Below
    ensures VitalsFromDict(d) == v
  {
    VitalsDict(v.id, v.patientId, v.spo2, v.temperature, v.heartRate, v.deviceId,
               v.recordedAt, v.spo2 < 90.0)
  }

  function VitalsFromDict(d: VitalsDict): Vitals {
    Vitals(d.id, d.patientId, d.spo2, d.temperature, d.heartRate, d.deviceId, d.recordedAt)
  }

  // ---------------------------------------------------------------------------
  // Row sequences: selection by patient, keys and time order
  // ---------------------------------------------------------------------------

  function PatientKey(p: Patient): int { p.id }
  function ReportKey(r: XRayReport): int { r.id }
  function VitalsKey(v: Vitals): int { v.id }
  function UserKey(u: User): int { u.id }
  function ReportOwner(r: XRayReport): int { r.patientId }
  function VitalsOwner(v: Vitals): int { v.patientId }
  function ReportCreated(r: XRayReport): int { r.createdAt }
  function VitalsRecorded(v: Vitals): int { v.recordedAt }

  /** The rows whose `owner` is `pid` (when `keep`) or is not `pid` (when
      not), in their original order: `filter_by(patient_id=pid)` and what a
      delete of `pid` leaves behind. */
  function Where<T(!new)>(s: seq<T>, owner: T -> int, pid: int, keep: bool): (r: seq<T>)
    ensures |r| <= |s|
    ensures forall x :: x in r <==> x in s && (owner(x) == pid) == keep
  {
    if s == [] then []
    else (if (owner(s[0]) == pid) == keep then [s[0]] else []) + Where(s[1..], owner, pid, keep)
  }

  /** Rows in non-decreasing order of `key`. */
  ghost predicate Ascending<T>(s: seq<T>, key: T -> int) {
    forall i, j :: 0 <= i < j < |s| ==> key(s[i]) <= key(s[j])
  }

  /** No two rows share a key. */
  ghost predicate Distinct<T, K>(s: seq<T>, key: T -> K) {
    forall i, j :: 0 <= i < j < |s| ==> key(s[i]) != key(s[j])
  }

  /** Every key is below `next`. */
  ghost predicate Below<T>(s: seq<T>, key: T -> int, next: int) {
    forall i :: 0 <= i < |s| ==> key(s[i]) < next
  }

  /** Every timestamp is at most `clock`. */
  ghost predicate NotAfter<T>(s: seq<T>, key: T -> int, clock: int) {
    forall i :: 0 <= i < |s| ==> key(s[i]) <= clock
  }

  predicate HasPatient(patients: seq<Patient>, id: int) {
    exists i :: 0 <= i < |patients| && patients[i].id == id
  }

  /** Every row names an existing patient (the foreign key). */
  ghost predicate Refers<T>(s: seq<T>, owner: T -> int, patients: seq<Patient>) {
    forall i :: 0 <= i < |s| ==> HasPatient(patients, owner(s[i]))
  }

  /** Selection keeps the time order. */
  lemma {:induction false} WhereAscending<T(!new)>(s: seq<T>, owner: T -> int, pid: int, keep: bool, key: T -> int)
    requires Ascending(s, key)
    ensures Ascending(Where(s, owner, pid, keep), key)
  {
    if s != [] {
      WhereAscending(s[1..], owner, pid, keep, key);
      forall x | x in Where(s[1..], owner, pid, keep) ensures key(s[0]) <= key(x) {
        var j :| 0 <= j < |s[1..]| && s[1..][j] == x;
        assert s[j + 1] == x;
      }
    }
  }

  /** Selection keeps keys distinct. */
  lemma {:induction false} WhereDistinct<T(!new)>(s: seq<T>, owner: T -> int, pid: int, keep: bool, key: T -> int)
    requires Distinct(s, key)
    ensures Distinct(Where(s, owner, pid, keep), key)
  {
    if s != [] {
      WhereDistinct(s[1..], owner, pid, keep, key);
      forall x | x in Where(s[1..], owner, pid, keep) ensures key(s[0]) != key(x) {
        var j :| 0 <= j < |s[1..]| && s[1..][j] == x;
        assert s[j + 1] == x;
      }
    }
  }

  /** A row appended with a fresh key and the latest timestamp keeps every
      table invariant. */
  lemma Append<T>(s: seq<T>, x: T, key: T -> int, next: int, stamp: T -> int, clock: int, now: int)
    requires Distinct(s, key) && Below(s, key, next) && key(x) == next
    requires Ascending(s, stamp) && NotAfter(s, stamp, clock) && clock <= now && stamp(x) == now
    ensures Distinct(s + [x], key) && Below(s + [x], key, next + 1)
    ensures Ascending(s + [x], stamp) && NotAfter(s + [x], stamp, now)
  {
  }

  /** Adding a patient keeps every foreign key satisfied. */
  lemma RefersGrow<T>(s: seq<T>, owner: T -> int, patients: seq<Patient>, p: Patient)
    requires Refers(s, owner, patients)
    ensures Refers(s, owner, patients + [p])
  {
    forall i | 0 <= i < |s| ensures HasPatient(patients + [p], owner(s[i])) {
      var k :| 0 <= k < |patients| && patients[k].id == owner(s[i]);
      assert (patients + [p])[k] == patients[k];
    }
  }

  /** Deleting patient `pid` with its rows leaves every remaining row's
      foreign key satisfied. */
  lemma RefersAfterDelete<T(!new)>(s: seq<T>, owner: T -> int, patients: seq<Patient>, pid: int)
    requires Refers(s, owner, patients)
    ensures Refers(Where(s, owner, pid, false), owner, Where(patients, PatientKey, pid, false))
  {
    var rows := Where(s, owner, pid, false);
    var kept := Where(patients, PatientKey, pid, false);
    forall i | 0 <= i < |rows| ensures HasPatient(kept, owner(rows[i])) {
      assert rows[i] in rows;
      var j :| 0 <= j < |s| && s[j] == rows[i];
      var k :| 0 <= k < |patients| && patients[k].id == owner(s[j]);
      assert patients[k] in kept;
      var m :| 0 <= m < |kept| && kept[m] == patients[k];
    }
  }

  // ---------------------------------------------------------------------------
  // Lookups
  // ---------------------------------------------------------------------------

  /** `Patient.query.get(id)`. */
  function FindPatient(patients: seq<Patient>, id: int): (r: Option<Patient>)
    ensures r.Some? <==> HasPatient(patients, id)
    ensures r.Some? ==> r.value in patients && r.value.id == id
  {
    if |patients| == 0 then None
    else if patients[0].id == id then Some(patients[0])
    else
      var r := FindPatient(patients[1..], id);
      assert HasPatient(patients, id) && patients[0].id != id ==> HasPatient(patients[1..], id) by {
        if HasPatient(patients, id) && patients[0].id != id {
          var i :| 0 <= i < |patients| && patients[i].id == id;
          assert patients[1..][i - 1].id == id;
        }
      }
      r
  }

  /** The first row whose key equals `k`: a query's `.first()`, or `.get`
      on a primary key. */
  function FindBy<T, K(==)>(rows: seq<T>, key: T -> K, k: K): (r: Option<T>)
    ensures r.Some? ==> r.value in rows && key(r.value) == k
    ensures r.None? ==> forall i :: 0 <= i < |rows| ==> key(rows[i]) != k
  {
    if |rows| == 0 then None
    else if key(rows[0]) == k then Some(rows[0])
    else
      var r := FindBy(rows[1..], key, k);
      assert forall i :: 1 <= i < |rows| ==> rows[i] == rows[1..][i - 1];
      r
  }

  function UserEmail(u: User): string { u.email }

  /** `XRayReport.query.get(id)`. */
  function FindReport(reports: seq<XRayReport>, id: int): Option<XRayReport> {
    FindBy(reports, ReportKey, id)
  }

  /** `User.query.filter_by(email=email).first()`. */
  function FindUser(users: seq<User>, email: string): Option<User> {
    FindBy(users, UserEmail, email)
  }

  // ---------------------------------------------------------------------------
  // The database
  // ---------------------------------------------------------------------------

  /** The four tables as in-memory sequences, in insertion order. `clock` is
      the latest instant written; `next*` give fresh primary keys. */
  class Database {
    var patients: seq<Patient>
    var reports: seq<XRayReport>
    var vitals: seq<Vitals>
    var users: seq<User>
    var clock: int
    var nextPatientId: int
    var nextReportId: int
    var nextVitalsId: int
    var nextUserId: int

    /** Foreign keys hold (every report and vitals row names an existing
        patient), primary keys are unique and below the next fresh key, and
        reports and vitals were written in time order. */
    ghost predicate Valid()
      reads this
    {
      Tables(patients, reports, vitals, users, nextPatientId, nextReportId, nextVitalsId, nextUserId, clock)
    }

    /** An empty database whose clock starts at `now`. */
    constructor (now: int)
      ensures Valid()
      ensures patients == [] && reports == [] && vitals == [] && users == []
      ensures clock == now
    {
      patients, reports, vitals, users := [], [], [], [];
      clock := now;
      nextPatientId, nextReportId, nextVitalsId, nextUserId := 1, 1, 1, 1;
    }

    /** Inserts a patient with a fresh id. */
    method AddPatient(name: string, age: int, gender: string, now: int) returns (p: Patient)
      requires Valid() && clock <= now
      modifies this
      ensures Valid() && clock == now
      ensures p.name == name && p.age == age && p.gender == gender && p.createdAt == now
      ensures !HasPatient(old(patients), p.id)
      ensures patients == old(patients) + [p]
      ensures reports == old(reports) && vitals == old(vitals) && users == old(users)
    {
      p := Patient(nextPatientId, name, age, gender, now);
      Append(patients, p, PatientKey, nextPatientId, PatientCreated, clock, now);
      RefersGrow(reports, ReportOwner, patients, p);
      RefersGrow(vitals, VitalsOwner, patients, p);
      patients := patients + [p];
      nextPatientId := nextPatientId + 1;
      clock := now;
    }

    /** Inserts a report for an existing patient. */
    method AddReport(patientId: int, imagePath: string, prediction: string, confidence: real,
                     severity: Option<string>, heatmapPath: Option<string>, now: int)
      returns (r: XRayReport)
      requires Valid() && clock <= now
      requires HasPatient(patients, patientId)
      modifies this
      ensures Valid() && clock == now
      ensures r == XRayReport(r.id, patientId, imagePath, prediction, confidence, severity, heatmapPath, now)
      ensures forall i :: 0 <= i < |old(reports)| ==> old(reports)[i].id != r.id
      ensures reports == old(reports) + [r]
      ensures patients == old(patients) && vitals == old(vitals) && users == old(users)
    {
      r := XRayReport(nextReportId, patientId, imagePath, prediction, confidence, severity, heatmapPath, now);
      Append(reports, r, ReportKey, nextReportId, ReportCreated, clock, now);
      reports := reports + [r];
      nextReportId := nextReportId + 1;
      clock := now;
    }

    /** Inserts a vitals reading for an existing patient. */
    method AddVitals(patientId: int, spo2: real, temperature: real, heartRate: int,
                     deviceId: Option<string>, now: int)
      returns (v: Vitals)
      requires Valid() && clock <= now
      requires HasPatient(patients, patientId)
      modifies this
      ensures Valid() && clock == now
      ensures v == Vitals(v.id, patientId, spo2, temperature, heartRate, deviceId, now)
      ensures forall i :: 0 <= i < |old(vitals)| ==> old(vitals)[i].id != v.id
      ensures vitals == old(vitals) + [v]
      ensures patients == old(patients) && reports == old(reports) && users == old(users)
    {
      v := Vitals(nextVitalsId, patientId, spo2, temperature, heartRate, deviceId, now);
      Append(vitals, v, VitalsKey, nextVitalsId, VitalsRecorded, clock, now);
      vitals := vitals + [v];
      nextVitalsId := nextVitalsId + 1;
      clock := now;
    }

    /** Inserts a user account; the email must not be taken, since the
        column is unique and the insert would fail. */
    method AddUser(email: string, role: string, patientId: Option<int>) returns (u: User)
      requires Valid() && FindUser(users, email).None?
      modifies this
      ensures Valid() && clock == old(clock)
      ensures u == User(u.id, email, role, patientId)
      ensures forall i :: 0 <= i < |old(users)| ==> old(users)[i].id != u.id
      ensures users == old(users) + [u]
      ensures patients == old(patients) && reports == old(reports) && vitals == old(vitals)
    {
      u := User(nextUserId, email, role, patientId);
      Append(users, u, UserKey, nextUserId, UserStamp, 0, 0);
      users := users + [u];
      nextUserId := nextUserId + 1;
    }

    /** Deleting a patient deletes its reports and vitals (the cascade), so
        no row is left pointing at a missing patient. */
    method DeletePatient(id: int)
      requires Valid()
      modifies this
      ensures Valid() && clock == old(clock)
      ensures patients == Where(old(patients), PatientKey, id, false)
      ensures reports == Where(old(reports), ReportOwner, id, false)
      ensures vitals == Where(old(vitals), VitalsOwner, id, false)
      ensures users == old(users)
      ensures !HasPatient(patients, id)
    {
      DeletedIsGone(patients, id);
      patients, reports, vitals :=
        Where(patients, PatientKey, id, false), Where(reports, ReportOwner, id, false), Where(vitals, VitalsOwner, id, false);
      assert Tables(patients, reports, vitals, users, nextPatientId, nextReportId, nextVitalsId, nextUserId, clock) by {
        DeleteKeepsTables(old(patients), old(reports), old(vitals), users,
                          nextPatientId, nextReportId, nextVitalsId, nextUserId, clock, id);
      }
    }
  }

  /** The invariant of the four tables (Database.Valid): foreign keys hold,
      primary keys are unique and below the next fresh key, no two users
      share an email (the column is unique), and rows were written in time
      order, none after `clock`. */
  ghost predicate Tables(patients: seq<Patient>, reports: seq<XRayReport>, vitals: seq<Vitals>, users: seq<User>,
                         nextPatientId: int, nextReportId: int, nextVitalsId: int, nextUserId: int, clock: int)
  {
    && Refers(reports, ReportOwner, patients)
    && Refers(vitals, VitalsOwner, patients)
    && Distinct(patients, PatientKey) && Below(patients, PatientKey, nextPatientId)
    && Distinct(reports, ReportKey) && Below(reports, ReportKey, nextReportId)
    && Distinct(vitals, VitalsKey) && Below(vitals, VitalsKey, nextVitalsId)
    && Distinct(users, UserKey) && Below(users, UserKey, nextUserId) && Distinct(users, UserEmail)
    && Ascending(patients, PatientCreated) && NotAfter(patients, PatientCreated, clock)
    && Ascending(reports, ReportCreated) && NotAfter(reports, ReportCreated, clock)
    && Ascending(vitals, VitalsRecorded) && NotAfter(vitals, VitalsRecorded, clock)
  }

  /** The cascade delete keeps the table invariant. */
  lemma DeleteKeepsTables(ps: seq<Patient>, rs: seq<XRayReport>, vs: seq<Vitals>, us: seq<User>,
                          np: int, nr: int, nv: int, nu: int, clock: int, id: int)
    requires Tables(ps, rs, vs, us, np, nr, nv, nu, clock)
    ensures Tables(Where(ps, PatientKey, id, false), Where(rs, ReportOwner, id, false),
                   Where(vs, VitalsOwner, id, false), us, np, nr, nv, nu, clock)
  {
    RefersAfterDelete(rs, ReportOwner, ps, id);
    RefersAfterDelete(vs, VitalsOwner, ps, id);
    WhereDistinct(ps, PatientKey, id, false, PatientKey);
    WhereDistinct(rs, ReportOwner, id, false, ReportKey);
    WhereDistinct(vs, VitalsOwner, id, false, VitalsKey);
    WhereAscending(ps, PatientKey, id, false, PatientCreated);
    WhereAscending(rs, ReportOwner, id, false, ReportCreated);
    WhereAscending(vs, VitalsOwner, id, false, VitalsRecorded);
    WhereBounds(ps, PatientKey, id, false, PatientKey, np, PatientCreated, clock);
    WhereBounds(rs, ReportOwner, id, false, ReportKey, nr, ReportCreated, clock);
    WhereBounds(vs, VitalsOwner, id, false, VitalsKey, nv, VitalsRecorded, clock);
  }

  /** Selection keeps every key below the next fresh one and every
      timestamp at most the clock. */
  lemma WhereBounds<T(!new)>(s: seq<T>, owner: T -> int, pid: int, keep: bool,
                             key: T -> int, next: int, stamp: T -> int, clock: int)
    requires Below(s, key, next) && NotAfter(s, stamp, clock)
    ensures Below(Where(s, owner, pid, keep), key, next)
    ensures NotAfter(Where(s, owner, pid, keep), stamp, clock)
  {
    var r := Where(s, owner, pid, keep);
    forall i | 0 <= i < |r| ensures key(r[i]) < next && stamp(r[i]) <= clock {
      assert r[i] in r;
    }
  }

  /** No patient with the deleted id remains. */
  lemma DeletedIsGone(patients: seq<Patient>, id: int)
    ensures !HasPatient(Where(patients, PatientKey, id, false), id)
  {
    var r := Where(patients, PatientKey, id, false);
    forall i | 0 <= i < |r| ensures r[i].id != id {
      assert r[i] in r;
    }
  }

  function PatientCreated(p: Patient): int { p.createdAt }
  function UserStamp(u: User): int { 0 }
}
