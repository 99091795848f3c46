/** The in-memory record store of `utils/fhir_utils.py`: tables of patients,
    appointments, doctors and FAQs, the lookups and searches over them, the
    in-place appends and updates, and the mapping to the HL7 FHIR R4 Patient
    resource. Loading and saving the JSON file are not modelled: the store is
    built from its tables and every change stays in memory. */
module FhirUtils {
  import opened Common
  import opened Strings
  import opened Seqs

  // ---------------------------------------------------------------- records

  /** A JSON object whose values are strings: an appointment, a condition, a
      medication, a contact. A key the object lacks is a key not in the map. */
  type Record = map<string, string>

  /** `r.get(key, default)`. */
  function GetOr(r: Record, key: string, default: string): string {
    if key in r then r[key] else default
  }

  /** `f"{r.get(key)}"`: the value, or the text `None` when the key is absent. */
  function Show(r: Record, key: string): string {
    GetOr(r, key, "None")
  }

  /** An entry of a patient's `additional_records`: `{"type": ..., "data": ...}`. */
  datatype TypedEntry = TypedEntry(entryType: string, data: Record)

  /** A patient. Scalar fields the JSON object may lack are options; a list the
      object lacks reads as empty, as every reader uses `get(key, [])`; a
      missing `contact` or `emergency_contact` object reads as `{}`. */
  datatype Patient = Patient(
    id: Option<string>,
    name: Option<string>,
    age: Option<int>,
    gender: Option<string>,
    contact: Record,
    emergencyContact: Record,
    medicalHistory: seq<Record>,
    medications: seq<Record>,
    allergies: seq<string>,
    additionalRecords: seq<TypedEntry>)

  type Appointment = Record

  datatype Doctor = Doctor(
    id: Option<string>,
    name: Option<string>,
    specialty: Option<string>,
    availableSlots: Option<seq<string>>)

  /** An FAQ; a missing question or answer reads as `""`. */
  datatype Faq = Faq(question: string, answer: string)

  /** `self.data`: the four tables. */
  datatype FhirData = FhirData(
    patients: seq<Patient>,
    appointments: seq<Appointment>,
    doctors: seq<Doctor>,
    faqs: seq<Faq>)

  // ---------------------------------------------------------------- patient lookup

  /** The position of the first patient whose id is `patientId`. */
  function FirstPatientIndex(ps: seq<Patient>, patientId: string): (r: Option<nat>)
    ensures r.Some? ==> r.value < |ps| && ps[r.value].id == Some(patientId)
    ensures r.Some? ==> forall j :: 0 <= j < r.value ==> ps[j].id != Some(patientId)
    ensures r.None? ==> forall j :: 0 <= j < |ps| ==> ps[j].id != Some(patientId)
  {
    if |ps| == 0 then None
    else if ps[0].id == Some(patientId) then Some(0)
    else
      match FirstPatientIndex(ps[1..], patientId)
      case None => None
      case Some(k) => Some(k + 1)
  }

  /** `get_patient`: the first patient whose id equals the query, else `None`. */
  function FindPatient(ps: seq<Patient>, patientId: string): Option<Patient> {
    match FirstPatientIndex(ps, patientId)
    case None => None
    case Some(k) => Some(ps[k])
  }

  lemma FindPatientSpec(ps: seq<Patient>, patientId: string)
    ensures FindPatient(ps, patientId).None? <==> forall j :: 0 <= j < |ps| ==> ps[j].id != Some(patientId)
    ensures FindPatient(ps, patientId).Some? ==>
      exists i :: 0 <= i < |ps| && ps[i] == FindPatient(ps, patientId).value && ps[i].id == Some(patientId)
        && forall j :: 0 <= j < i ==> ps[j].id != Some(patientId)
  {
    var r := FirstPatientIndex(ps, patientId);
    if r.Some? {
      assert ps[r.value] == FindPatient(ps, patientId).value;
    }
  }

  /** The history, medication and allergy getters read `[]` for an unknown patient. */
  function HistoryOf(ps: seq<Patient>, patientId: string): seq<Record> {
    match FindPatient(ps, patientId)
    case None => []
    case Some(p) => p.medicalHistory
  }

  function MedicationsOf(ps: seq<Patient>, patientId: string): seq<Record> {
    match FindPatient(ps, patientId)
    case None => []
    case Some(p) => p.medications
  }

  function AllergiesOf(ps: seq<Patient>, patientId: string): seq<string> {
    match FindPatient(ps, patientId)
    case None => []
    case Some(p) => p.allergies
  }

  lemma UnknownPatientHasNoEntries(ps: seq<Patient>, patientId: string)
    requires forall j :: 0 <= j < |ps| ==> ps[j].id != Some(patientId)
    ensures HistoryOf(ps, patientId) == [] && MedicationsOf(ps, patientId) == [] && AllergiesOf(ps, patientId) == []
  {
    FindPatientSpec(ps, patientId);
  }

  // ---------------------------------------------------------------- searches

  /** The test of `search_patients`: the lower-cased query occurs in the
      lower-cased name or id (a missing one reads as `""`). */
  predicate PatientMatches(p: Patient, queryLower: string) {
    Contains(Lower(p.name.GetOr("")), queryLower) || Contains(Lower(p.id.GetOr("")), queryLower)
  }

  function PatientQuery(queryLower: string): Patient -> bool {
    (p: Patient) => PatientMatches(p, queryLower)
  }

  /** The test of `search_faqs`. */
  predicate FaqMatches(f: Faq, queryLower: string) {
    Contains(Lower(f.question), queryLower) || Contains(Lower(f.answer), queryLower)
  }

  function FaqQuery(queryLower: string): Faq -> bool {
    (f: Faq) => FaqMatches(f, queryLower)
  }

  /** The empty query occurs in every question, so searching for it returns
      the whole FAQ table. */
  lemma EmptyQueryMatchesEverything(faqs: seq<Faq>)
    ensures Filter(faqs, FaqQuery(Lower(""))) == faqs
  {
    forall k | 0 <= k < |faqs|
      ensures FaqQuery(Lower(""))(faqs[k])
    {
      ContainsAt(Lower(faqs[k].question), "", 0);
    }
    FilterAll(faqs, FaqQuery(Lower("")));
  }

  /** The test of `get_patient_appointments`. */
  function BelongsTo(patientId: string): Appointment -> bool {
    (a: Appointment) => "patient_id" in a && a["patient_id"] == patientId
  }

  /** The test of `get_available_doctors` for a non-empty specialty. */
  function SpecialtyQuery(specialtyLower: string): Doctor -> bool {
    (d: Doctor) => Contains(Lower(d.specialty.GetOr("")), specialtyLower)
  }

  /** `get_available_doctors`: all doctors for a missing or empty specialty,
      otherwise those whose specialty contains it, ignoring case. */
  function AvailableDoctors(ds: seq<Doctor>, specialty: Option<string>): seq<Doctor> {
    if specialty.Some? && specialty.value != "" then Filter(ds, SpecialtyQuery(Lower(specialty.value))) else ds
  }

  lemma AvailableDoctorsSpec(ds: seq<Doctor>, specialty: Option<string>)
    ensures specialty.None? || specialty == Some("") ==> AvailableDoctors(ds, specialty) == ds
    ensures specialty.Some? && specialty.value != "" ==>
      forall d :: d in AvailableDoctors(ds, specialty) <==>
        d in ds && Contains(Lower(d.specialty.GetOr("")), Lower(specialty.value))
  {
  }

  // ---------------------------------------------------------------- sorting by date

  /** `x.get("date", "")`: the sort key of `get_patient_appointments`. */
  function DateKey(a: Appointment): string {
    GetOr(a, "date", "")
  }

  predicate SortedByDate(s: seq<Appointment>) {
    forall i, j :: 0 <= i < j < |s| ==> LexLe(DateKey(s[i]), DateKey(s[j]))
  }

  /** Puts `x` after every element of the sorted `t` whose date is not later. */
  function InsertByDate(t: seq<Appointment>, x: Appointment): (r: seq<Appointment>)
    ensures multiset(r) == multiset(t) + multiset{x}
    ensures |r| == |t| + 1
  {
    if |t| == 0 || LexLe(DateKey(t[|t| - 1]), DateKey(x)) then t + [x]
    else
      assert t == t[..|t| - 1] + [t[|t| - 1]];
      InsertByDate(t[..|t| - 1], x) + [t[|t| - 1]]
  }

  /** Python's `sorted(s, key=lambda x: x.get("date", ""))`: a stable sort. */
  function SortByDate(s: seq<Appointment>): seq<Appointment> {
    if |s| == 0 then [] else InsertByDate(SortByDate(s[..|s| - 1]), s[|s| - 1])
  }

  /** No element of `s` sorts after `key`. */
  predicate NoneLater(s: seq<Appointment>, key: string) {
    forall i :: 0 <= i < |s| ==> LexLe(DateKey(s[i]), key)
  }

  lemma AppendSorted(v: seq<Appointment>, y: Appointment)
    requires SortedByDate(v) && NoneLater(v, DateKey(y))
    ensures SortedByDate(v + [y])
  {
  }

  /** Inserting an element no later than `key` keeps every element no later than `key`. */
  lemma {:induction false} InsertByDateBounded(u: seq<Appointment>, x: Appointment, key: string)
    requires NoneLater(u, key) && LexLe(DateKey(x), key)
    ensures NoneLater(InsertByDate(u, x), key)
  {
    if |u| > 0 && !LexLe(DateKey(u[|u| - 1]), DateKey(x)) {
      InsertByDateBounded(u[..|u| - 1], x, key);
    }
  }

  lemma {:induction false} InsertByDateSorted(t: seq<Appointment>, x: Appointment)
    requires SortedByDate(t)
    ensures SortedByDate(InsertByDate(t, x))
  {
    if |t| == 0 || LexLe(DateKey(t[|t| - 1]), DateKey(x)) {
      forall i | 0 <= i < |t| ensures LexLe(DateKey(t[i]), DateKey(x)) {
        if i < |t| - 1 {
          LexLeTrans(DateKey(t[i]), DateKey(t[|t| - 1]), DateKey(x));
        }
      }
      AppendSorted(t, x);
    } else {
      var u := t[..|t| - 1];
      var last := t[|t| - 1];
      InsertByDateSorted(u, x);
      LexLeTotal(DateKey(last), DateKey(x));
      assert NoneLater(u, DateKey(last));
      InsertByDateBounded(u, x, DateKey(last));
      AppendSorted(InsertByDate(u, x), last);
    }
  }

  lemma {:induction false} SortByDateSorted(s: seq<Appointment>)
    ensures SortedByDate(SortByDate(s))
    ensures multiset(SortByDate(s)) == multiset(s)
  {
    if |s| > 0 {
      SortByDateSorted(s[..|s| - 1]);
      InsertByDateSorted(SortByDate(s[..|s| - 1]), s[|s| - 1]);
      assert s == s[..|s| - 1] + [s[|s| - 1]];
    }
  }

  function HasDate(d: string): Appointment -> bool {
    (a: Appointment) => DateKey(a) == d
  }

  lemma {:induction false} InsertByDateStable(t: seq<Appointment>, x: Appointment, d: string)
    ensures Filter(InsertByDate(t, x), HasDate(d)) == Filter(t + [x], HasDate(d))
  {
    if |t| > 0 && !LexLe(DateKey(t[|t| - 1]), DateKey(x)) {
      var u, last := t[..|t| - 1], t[|t| - 1];
      assert t == u + [last];
      assert InsertByDate(t, x) == InsertByDate(u, x) + [last];
      InsertByDateStable(u, x, d);
      // `last` sorts strictly after `x`, so the two cannot share date `d`
      LexLeRefl(DateKey(x));
      assert !(HasDate(d)(x) && HasDate(d)(last));
      FilterSwapLast(u, InsertByDate(u, x), x, last, HasDate(d));
    }
  }

  /** Appointments with the same date keep their relative order. */
  lemma {:induction false} SortByDateStable(s: seq<Appointment>, d: string)
    ensures Filter(SortByDate(s), HasDate(d)) == Filter(s, HasDate(d))
  {
    if |s| > 0 {
      var p, y := s[..|s| - 1], s[|s| - 1];
      SortByDateStable(p, d);
      InsertByDateStable(SortByDate(p), y, d);
      FilterSnocCongruent(SortByDate(p), p, y, HasDate(d));
      assert s == p + [y];
    }
  }

  function PatientAppointments(appts: seq<Appointment>, patientId: string): seq<Appointment> {
    SortByDate(Filter(appts, BelongsTo(patientId)))
  }

  lemma PatientAppointmentsSpec(appts: seq<Appointment>, patientId: string, d: string)
    ensures SortedByDate(PatientAppointments(appts, patientId))
    ensures multiset(PatientAppointments(appts, patientId)) == multiset(Filter(appts, BelongsTo(patientId)))
    ensures forall a :: a in PatientAppointments(appts, patientId) <==>
      a in appts && "patient_id" in a && a["patient_id"] == patientId
    ensures Filter(PatientAppointments(appts, patientId), HasDate(d)) ==
      Filter(Filter(appts, BelongsTo(patientId)), HasDate(d))
  {
    var f := Filter(appts, BelongsTo(patientId));
    SortByDateSorted(f);
    SortByDateStable(f, d);
    forall a ensures a in PatientAppointments(appts, patientId) <==> a in f {
      assert a in PatientAppointments(appts, patientId) <==> a in multiset(PatientAppointments(appts, patientId));
    }
  }

  // ---------------------------------------------------------------- appointment ids

  /** `f"appt-{n:03d}"`. */
  function AppointmentId(n: nat): string {
    "appt-" + ZeroPad(n, 3)
  }

  /** An appointment id is `appt-` followed by at least three digits that read
      back as the number it was made from; so different numbers give different ids. */
  lemma AppointmentIdReadsBack(n: nat)
    ensures var id := AppointmentId(n);
      |id| >= 8 && id[..5] == "appt-" && AllDigits(id[5..]) && ParseInt(id[5..]) == Some(n)
  {
    ZeroPadReadsBack(n, 3);
    assert AppointmentId(n)[5..] == ZeroPad(n, 3);
  }

  lemma AppointmentIdInjective(m: nat, n: nat)
    requires AppointmentId(m) == AppointmentId(n)
    ensures m == n
  {
    AppointmentIdReadsBack(m);
    AppointmentIdReadsBack(n);
  }

  /** The record `add_appointment` stores: the given data with the new id, and
      status `scheduled` unless one is given. */
  function NewAppointment(data: Record, count: nat): (a: Appointment)
    ensures "id" in a && a["id"] == AppointmentId(count + 1)
    ensures "status" in a && a["status"] == if "status" in data then data["status"] else "scheduled"
    ensures forall k :: k in data && k != "id" && k != "status" ==> k in a && a[k] == data[k]
    ensures a.Keys == data.Keys + {"id", "status"}
  {
    data["id" := AppointmentId(count + 1)]["status" := GetOr(data, "status", "scheduled")]
  }

  /** The position of the first appointment whose id is `appointmentId`. */
  function FirstAppointmentIndex(appts: seq<Appointment>, appointmentId: string): (r: Option<nat>)
    ensures r.Some? ==> r.value < |appts| && "id" in appts[r.value] && appts[r.value]["id"] == appointmentId
    ensures r.Some? ==> forall j :: 0 <= j < r.value ==> !("id" in appts[j] && appts[j]["id"] == appointmentId)
    ensures r.None? ==> forall j :: 0 <= j < |appts| ==> !("id" in appts[j] && appts[j]["id"] == appointmentId)
  {
    if |appts| == 0 then None
    else if "id" in appts[0] && appts[0]["id"] == appointmentId then Some(0)
    else
      match FirstAppointmentIndex(appts[1..], appointmentId)
      case None => None
      case Some(k) => Some(k + 1)
  }

  // ---------------------------------------------------------------- medical record entries

  /** What `add_medical_record_entry` does to a found patient: the entry, with its
      timestamp, goes to exactly one list chosen by `entryType`. */
  function AddEntry(p: Patient, entryType: string, data: Record, now: string): (q: Patient)
    ensures q.id == p.id && q.name == p.name && q.age == p.age && q.gender == p.gender
    ensures q.contact == p.contact && q.emergencyContact == p.emergencyContact
    ensures entryType == "condition" ==>
      q == p.(medicalHistory := p.medicalHistory + [data["timestamp" := now]])
    ensures entryType == "medication" ==>
      q == p.(medications := p.medications + [data["timestamp" := now]])
    ensures entryType == "allergy" ==>
      q == p.(allergies := p.allergies + [GetOr(data, "allergen", "")])
    ensures entryType !in {"condition", "medication", "allergy"} ==>
      q == p.(additionalRecords := p.additionalRecords + [TypedEntry(entryType, data["timestamp" := now])])
  {
    var stamped := data["timestamp" := now];
    if entryType == "condition" then p.(medicalHistory := p.medicalHistory + [stamped])
    else if entryType == "medication" then p.(medications := p.medications + [stamped])
    else if entryType == "allergy" then p.(allergies := p.allergies + [GetOr(stamped, "allergen", "")])
    else p.(additionalRecords := p.additionalRecords + [TypedEntry(entryType, stamped)])
  }

  // ---------------------------------------------------------------- doctor availability

  /** The slots `get_doctor_availability` offers when a doctor lists none. */
  const DefaultSlots: seq<string> := ["09:00", "10:00", "11:00", "14:00", "15:00", "16:00"]

  /** `get_doctor_availability`: the slots of the first doctor whose id or name
      is `doctorId`, else `[]`. */
  function DoctorSlots(ds: seq<Doctor>, doctorId: string): seq<string> {
    if |ds| == 0 then []
    else if ds[0].id == Some(doctorId) || ds[0].name == Some(doctorId) then ds[0].availableSlots.GetOr(DefaultSlots)
    else DoctorSlots(ds[1..], doctorId)
  }

  /** A doctor answers to its id or to its name. */
  predicate AnswersTo(d: Doctor, doctorId: string) {
    d.id == Some(doctorId) || d.name == Some(doctorId)
  }

  /** The first doctor answering to `doctorId` gives its own slots, or the
      default ones when it lists none; nobody answering gives no slot. */
  lemma {:induction false} DoctorSlotsSpec(ds: seq<Doctor>, doctorId: string, i: nat)
    requires i < |ds| && AnswersTo(ds[i], doctorId)
    requires forall j :: 0 <= j < i ==> !AnswersTo(ds[j], doctorId)
    ensures DoctorSlots(ds, doctorId) == ds[i].availableSlots.GetOr(DefaultSlots)
  {
    if i > 0 {
      assert !AnswersTo(ds[0], doctorId);
      DoctorSlotsSpec(ds[1..], doctorId, i - 1);
    }
  }

  lemma {:induction false} UnknownDoctorHasNoSlots(ds: seq<Doctor>, doctorId: string)
    requires forall j :: 0 <= j < |ds| ==> !AnswersTo(ds[j], doctorId)
    ensures DoctorSlots(ds, doctorId) == []
  {
    if |ds| > 0 {
      assert !AnswersTo(ds[0], doctorId);
      UnknownDoctorHasNoSlots(ds[1..], doctorId);
    }
  }

  // ---------------------------------------------------------------- FHIR Patient resource

  datatype HumanName = HumanName(use: string, text: Option<string>)

  datatype ContactPoint = ContactPoint(system: string, value: string, use: Option<string>)

  /** The subset of the FHIR R4 Patient resource that `to_fhir_patient` fills in. */
  datatype FhirPatient = FhirPatient(
    resourceType: string,
    id: Option<string>,
    name: seq<HumanName>,
    gender: Option<string>,
    birthDate: Option<string>,
    telecom: seq<ContactPoint>)

  /** `_calculate_birth_date`: January 1st of `currentYear - age` for a truthy
      age, `None` for a missing or zero age. */
  function BirthDate(age: Option<int>, currentYear: int): (r: Option<string>)
    ensures r.Some? <==> age.Some? && age.value != 0
  {
    if age.Some? && age.value != 0 then Some(IntToString(currentYear - age.value) + "-01-01") else None
  }

  lemma BirthDateReadsBack(age: int, currentYear: int)
    requires age != 0
    ensures var d := BirthDate(Some(age), currentYear).value;
      |d| > 6 && d[|d| - 6..] == "-01-01" && ParseInt(d[..|d| - 6]) == Some(currentYear - age)
  {
    var y := IntToString(currentYear - age);
    var d := y + "-01-01";
    assert BirthDate(Some(age), currentYear).value == d;
    assert d[..|y|] == y && d[|y|..] == "-01-01";
    ParseIntOfIntToString(currentYear - age);
  }

  /** A JSON string value that is present and non-empty (truthy). */
  predicate Truthy(r: Record, key: string) {
    key in r && r[key] != ""
  }

  function Telecom(contact: Record): seq<ContactPoint> {
    (if Truthy(contact, "phone") then [ContactPoint("phone", contact["phone"], Some("home"))] else [])
    + (if Truthy(contact, "email") then [ContactPoint("email", contact["email"], None)] else [])
  }

  /** `to_fhir_patient`. */
  function ToFhirPatient(p: Patient, currentYear: int): FhirPatient {
    FhirPatient("Patient", p.id, [HumanName("official", p.name)], p.gender, BirthDate(p.age, currentYear), Telecom(p.contact))
  }

  /** The resource is a Patient; a phone entry comes before an email entry, each
      present exactly when the contact has a non-empty value for it. */
  lemma ToFhirPatientSpec(p: Patient, currentYear: int)
    ensures var f := ToFhirPatient(p, currentYear);
      f.resourceType == "Patient" && f.id == p.id && f.gender == p.gender
      && f.name == [HumanName("official", p.name)]
      && |f.telecom| == (if Truthy(p.contact, "phone") then 1 else 0) + (if Truthy(p.contact, "email") then 1 else 0)
      && (Truthy(p.contact, "phone") ==> f.telecom[0] == ContactPoint("phone", p.contact["phone"], Some("home")))
      && (Truthy(p.contact, "email") ==> f.telecom[|f.telecom| - 1] == ContactPoint("email", p.contact["email"], None))
      && (forall k :: 0 <= k < |f.telecom| ==> f.telecom[k].system in {"phone", "email"})
  {
  }

  // ---------------------------------------------------------------- the store

  /** `FHIRUtils`: `data` is `self.data`. */
  class FhirStore {
    var data: FhirData

    /** The store as `_load_data` leaves it. */
    constructor(initial: FhirData)
      ensures data == initial
    {
      data := initial;
    }

    /** The position of the first patient with the id (the loop of `get_patient`). */
    method PatientIndex(patientId: string) returns (k: Option<nat>)
      ensures k == FirstPatientIndex(data.patients, patientId)
    {
      var ps := data.patients;
      var i := 0;
      while i < |ps|
        invariant 0 <= i <= |ps|
        invariant forall j :: 0 <= j < i ==> ps[j].id != Some(patientId)
      {
        if ps[i].id == Some(patientId) {
          FirstIndexIs(ps, patientId, i);
          return Some(i);
        }
        i := i + 1;
      }
      k := None;
    }

    static lemma {:induction false} FirstIndexIs(ps: seq<Patient>, patientId: string, i: nat)
      requires i < |ps| && ps[i].id == Some(patientId)
      requires forall j :: 0 <= j < i ==> ps[j].id != Some(patientId)
      ensures FirstPatientIndex(ps, patientId) == Some(i)
    {
      if i > 0 {
        FirstIndexIs(ps[1..], patientId, i - 1);
      }
    }

    /** `get_patient`. */
    method GetPatient(patientId: string) returns (p: Option<Patient>)
      ensures p == FindPatient(data.patients, patientId)
    {
      var k := PatientIndex(patientId);
      p := if k.Some? then Some(data.patients[k.value]) else None;
    }

    /** `search_patients`: in table order, the patients whose lower-cased name or
        id contains the lower-cased query. */
    method SearchPatients(query: string) returns (results: seq<Patient>)
      ensures results == Filter(data.patients, PatientQuery(Lower(query)))
    {
      var queryLower := Lower(query);
      var ps := data.patients;
      results := [];
      var i := 0;
      while i < |ps|
        invariant 0 <= i <= |ps|
        invariant results == Filter(ps[..i], PatientQuery(queryLower))
      {
        FilterStep(ps, i, PatientQuery(queryLower));
        if PatientMatches(ps[i], queryLower) {
          results := results + [ps[i]];
        }
        i := i + 1;
      }
      assert ps[..i] == ps;
    }

    /** `get_patient_appointments`. */
    method GetPatientAppointments(patientId: string) returns (r: seq<Appointment>)
      ensures r == PatientAppointments(data.appointments, patientId)
    {
      var appts := data.appointments;
      var found: seq<Appointment> := [];
      var i := 0;
      while i < |appts|
        invariant 0 <= i <= |appts|
        invariant found == Filter(appts[..i], BelongsTo(patientId))
      {
        FilterStep(appts, i, BelongsTo(patientId));
        if "patient_id" in appts[i] && appts[i]["patient_id"] == patientId {
          found := found + [appts[i]];
        }
        i := i + 1;
      }
      assert appts[..i] == appts;
      r := SortByDate(found);
    }

    /** `get_patient_medical_history`. */
    method GetPatientMedicalHistory(patientId: string) returns (r: seq<Record>)
      ensures r == HistoryOf(data.patients, patientId)
    {
      var p := GetPatient(patientId);
      r := if p.Some? then p.value.medicalHistory else [];
    }

    /** `get_patient_medications`. */
    method GetPatientMedications(patientId: string) returns (r: seq<Record>)
      ensures r == MedicationsOf(data.patients, patientId)
    {
      var p := GetPatient(patientId);
      r := if p.Some? then p.value.medications else [];
    }

    /** `get_patient_allergies`. */
    method GetPatientAllergies(patientId: string) returns (r: seq<string>)
      ensures r == AllergiesOf(data.patients, patientId)
    {
      var p := GetPatient(patientId);
      r := if p.Some? then p.value.allergies else [];
    }

    /** `add_appointment`: appends exactly one record with the next id and
        returns that id; earlier appointments are unchanged. */
    method AddAppointment(appointmentData: Record) returns (newId: string)
      modifies this
      ensures newId == AppointmentId(|old(data.appointments)| + 1)
      ensures data == old(data).(appointments := old(data.appointments) + [NewAppointment(appointmentData, |old(data.appointments)|)])
    {
      newId := AppointmentId(|data.appointments| + 1);
      var appt := appointmentData["id" := newId];
      appt := appt["status" := GetOr(appointmentData, "status", "scheduled")];
      data := data.(appointments := data.appointments + [appt]);
    }

    /** `update_appointment`: merges `updates` into the first appointment with the
        id and reports whether there was one; otherwise nothing changes. */
    method UpdateAppointment(appointmentId: string, updates: Record) returns (found: bool)
      modifies this
      ensures var k := FirstAppointmentIndex(old(data.appointments), appointmentId);
        found == k.Some?
        && data == if k.Some?
          then old(data).(appointments := old(data.appointments)[k.value := old(data.appointments)[k.value] + updates])
          else old(data)
    {
      var appts := data.appointments;
      var i := 0;
      while i < |appts|
        invariant 0 <= i <= |appts|
        invariant forall j :: 0 <= j < i ==> !("id" in appts[j] && appts[j]["id"] == appointmentId)
      {
        if "id" in appts[i] && appts[i]["id"] == appointmentId {
          FirstAppointmentIndexIs(appts, appointmentId, i);
          data := data.(appointments := appts[i := appts[i] + updates]);
          return true;
        }
        i := i + 1;
      }
      found := false;
    }

    static lemma {:induction false} FirstAppointmentIndexIs(appts: seq<Appointment>, appointmentId: string, i: nat)
      requires i < |appts| && "id" in appts[i] && appts[i]["id"] == appointmentId
      requires forall j :: 0 <= j < i ==> !("id" in appts[j] && appts[j]["id"] == appointmentId)
      ensures FirstAppointmentIndex(appts, appointmentId) == Some(i)
    {
      if i > 0 {
        FirstAppointmentIndexIs(appts[1..], appointmentId, i - 1);
      }
    }

    /** `cancel_appointment`: the update that sets status `cancelled`. */
    method CancelAppointment(appointmentId: string) returns (found: bool)
      modifies this
      ensures var k := FirstAppointmentIndex(old(data.appointments), appointmentId);
        found == k.Some?
        && data == if k.Some?
          then old(data).(appointments := old(data.appointments)[k.value := old(data.appointments)[k.value]["status" := "cancelled"]])
          else old(data)
    {
      found := UpdateAppointment(appointmentId, map["status" := "cancelled"]);
      ghost var k := FirstAppointmentIndex(old(data.appointments), appointmentId);
      if k.Some? {
        assert old(data.appointments)[k.value] + map["status" := "cancelled"]
          == old(data.appointments)[k.value]["status" := "cancelled"];
      }
    }

    /** `get_available_doctors`. */
    function GetAvailableDoctors(specialty: Option<string>): seq<Doctor>
      reads this
    {
      AvailableDoctors(data.doctors, specialty)
    }

    /** `get_doctor_availability`. */
    method GetDoctorAvailability(doctorId: string) returns (slots: seq<string>)
      ensures slots == DoctorSlots(data.doctors, doctorId)
    {
      var ds := data.doctors;
      var i := 0;
      while i < |ds|
        invariant 0 <= i <= |ds|
        invariant DoctorSlots(ds[i..], doctorId) == DoctorSlots(ds, doctorId)
      {
        assert ds[i..][1..] == ds[i + 1..];
        if ds[i].id == Some(doctorId) || ds[i].name == Some(doctorId) {
          return ds[i].availableSlots.GetOr(DefaultSlots);
        }
        i := i + 1;
      }
      slots := [];
    }

    /** `add_medical_record_entry`: `false` and no change for an unknown patient;
        otherwise the entry goes to exactly one list of the first patient with the
        id, and the result is `true`. `now` is the timestamp the entry receives. */
    method AddMedicalRecordEntry(patientId: string, entryType: string, entry: Record, now: string) returns (added: bool)
      modifies this
      ensures var k := FirstPatientIndex(old(data.patients), patientId);
        added == k.Some?
        && data == if k.Some?
          then old(data).(patients := old(data.patients)[k.value := AddEntry(old(data.patients)[k.value], entryType, entry, now)])
          else old(data)
    {
      var k := PatientIndex(patientId);
      if k.None? {
        return false;
      }
      var p := data.patients[k.value];
      data := data.(patients := data.patients[k.value := AddEntry(p, entryType, entry, now)]);
      added := true;
    }

    /** `search_faqs`: in table order, the FAQs whose lower-cased question or
        answer contains the lower-cased query. */
    method SearchFaqs(query: string) returns (results: seq<Faq>)
      ensures results == Filter(data.faqs, FaqQuery(Lower(query)))
    {
      var queryLower := Lower(query);
      var fs := data.faqs;
      results := [];
      var i := 0;
      while i < |fs|
        invariant 0 <= i <= |fs|
        invariant results == Filter(fs[..i], FaqQuery(queryLower))
      {
        FilterStep(fs, i, FaqQuery(queryLower));
        if FaqMatches(fs[i], queryLower) {
          results := results + [fs[i]];
        }
        i := i + 1;
      }
      assert fs[..i] == fs;
    }
  }
}
