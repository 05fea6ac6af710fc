/** The doctor's prescription editor: the list of eligible appointments, the medication
    list edits, the ordered checks of the submit handler, the request body it builds and
    the reset after a successful save. */
module Prescription {
  import opened Js
  import opened Http
  import opened Browser
  import opened Records
  import opened Seqs

  /** The messages of the prescription editor. */
  const NotSignedInText: string := "You must be logged in to create prescriptions"
  const NotDoctorText: string := "Only doctors can create prescriptions"
  const NoAppointmentText: string := "Please select a valid appointment"
  const NoPatientIdText: string := "Invalid patient information"
  const MissingDiagnosisText: string := "Diagnosis and symptoms are required"
  const NoMedicationsText: string := "At least one medication is required"
  const IncompleteMedicationText: string := "All medication fields are required"
  const SaveFailedText: string := "Failed to save prescription"
  const NotAuthorizedText: string := "Not authorized to create prescriptions"
  const LoadFailedText: string := "Failed to fetch appointments"
  const LoginToViewText: string := "Please log in to view appointments"

  // ---------------------------------------------------------------- appointments

  predicate IsEligible(a: Appointment)
  {
    a.status == "confirmed" || a.status == "pending"
  }

  /** The appointments a prescription can be written for: the confirmed and pending ones,
      in the order the server sent them. */
  function Eligible(apts: seq<Appointment>): (r: seq<Appointment>)
    ensures forall a :: a in r <==> a in apts && IsEligible(a)
    ensures forall a :: multiset(r)[a] == if IsEligible(a) then multiset(apts)[a] else 0
    ensures IsSubsequence(r, apts)
  {
    FilterIsSubsequence(IsEligible, apts);
    FilterCounts(IsEligible, apts);
    Filter(IsEligible, apts)
  }

  /** `appointments.find(apt => apt._id === id)`: the first appointment with the id. */
  function FindById(apts: seq<Appointment>, id: string): (r: Option<Appointment>)
    ensures r.Some? ==> r.value in apts && r.value.id == id
    ensures r.Some? ==> exists i :: 0 <= i < |apts| && apts[i] == r.value &&
                                   forall j :: 0 <= j < i ==> apts[j].id != id
    ensures r.None? ==> forall a :: a in apts ==> a.id != id
  {
    if apts == [] then None
    else if apts[0].id == id then Some(apts[0])
    else
      var r := FindById(apts[1..], id);
      assert r.Some? ==> exists i :: 0 <= i < |apts| && apts[i] == r.value &&
                                     forall j :: 0 <= j < i ==> apts[j].id != id by {
        if r.Some? {
          var i :| 0 <= i < |apts[1..]| && apts[1..][i] == r.value &&
                   forall j :: 0 <= j < i ==> apts[1..][j].id != id;
          assert apts[i + 1] == r.value;
          forall j | 0 <= j < i + 1 ensures apts[j].id != id {
            if j > 0 {
              assert apts[j] == apts[1..][j - 1];
            }
          }
        }
      }
      r
  }

  // ---------------------------------------------------------------- the form

  type Medication = Fields

  const MedicationKeys: seq<string> := ["name", "dosage", "frequency", "duration", "timing", "instructions"]

  function BlankMedication(): (m: Medication)
    ensures forall k :: k in m <==> k in MedicationKeys
    ensures forall k :: k in m ==> m[k] == ""
  {
    map["name" := "", "dosage" := "", "frequency" := "", "duration" := "", "timing" := "", "instructions" := ""]
  }

  /** The form: its text fields (diagnosis, symptoms, notes, followUpDate) and the
      medication list. */
  datatype PrescriptionData = PrescriptionData(text: Fields, medications: seq<Medication>)

  /** The form as first shown and as reset after a save: blank text and exactly one blank
      medication. */
  function BlankPrescription(): (d: PrescriptionData)
    ensures forall k :: k in d.text <==> k in {"diagnosis", "symptoms", "notes", "followUpDate"}
    ensures forall k :: k in d.text ==> d.text[k] == ""
    ensures d.medications == [BlankMedication()]
  {
    PrescriptionData(map["diagnosis" := "", "symptoms" := "", "notes" := "", "followUpDate" := ""],
                     [BlankMedication()])
  }

  /** `handleMedicationChange(index, field, value)`: only `field` of entry `index` changes;
      an index outside the list changes nothing. */
  function ChangeMedication(meds: seq<Medication>, index: int, field: string, value: string): (r: seq<Medication>)
    ensures |r| == |meds|
    ensures forall i :: 0 <= i < |meds| && i != index ==> r[i] == meds[i]
    ensures 0 <= index < |meds| ==> r[index] == meds[index][field := value]
  {
    seq(|meds|, i requires 0 <= i < |meds| => if i == index then meds[i][field := value] else meds[i])
  }

  /** `addMedication`: one blank entry at the end. */
  function AddMedication(meds: seq<Medication>): (r: seq<Medication>)
    ensures |r| == |meds| + 1 && r[..|meds|] == meds && r[|meds|] == BlankMedication()
  {
    meds + [BlankMedication()]
  }

  /** `removeMedication(index)`: `filter((_, i) => i !== index)`. */
  function RemoveMedication(meds: seq<Medication>, index: int): (r: seq<Medication>)
    ensures 0 <= index < |meds| ==> |r| == |meds| - 1
    ensures 0 <= index < |meds| ==> forall i :: 0 <= i < |r| ==> r[i] == (if i < index then meds[i] else meds[i + 1])
    ensures !(0 <= index < |meds|) ==> r == meds
  {
    if 0 <= index < |meds| then meds[..index] + meds[index + 1..] else meds
  }

  /** Removing the entry just added gives back the list as it was. */
  lemma RemoveUndoesAdd(meds: seq<Medication>)
    ensures RemoveMedication(AddMedication(meds), |meds|) == meds
  {
    var added := AddMedication(meds);
    assert added[..|meds|] == meds;
    assert added[|meds| + 1..] == [];
  }

  // ---------------------------------------------------------------- checks

  /** Every field except `instructions` must be filled in. */
  predicate Complete(m: Medication)
  {
    Get(m, "name") != "" && Get(m, "dosage") != "" && Get(m, "frequency") != "" &&
    Get(m, "duration") != "" && Get(m, "timing") != ""
  }

  predicate AllComplete(meds: seq<Medication>)
  {
    forall i :: 0 <= i < |meds| ==> Complete(meds[i])
  }

  /** The `for (const med of medications)` loop: the index of the first incomplete entry,
      or the length of the list when every entry is complete. */
  method FirstIncomplete(meds: seq<Medication>) returns (k: nat)
    ensures k <= |meds|
    ensures forall i :: 0 <= i < k ==> Complete(meds[i])
    ensures k < |meds| ==> !Complete(meds[k])
    ensures k == |meds| <==> AllComplete(meds)
  {
    k := 0;
    while k < |meds|
      invariant k <= |meds|
      invariant forall i :: 0 <= i < k ==> Complete(meds[i])
    {
      if !Complete(meds[k]) {
        return;
      }
      k := k + 1;
    }
  }

  /** The reasons a save is refused, in the order they are checked. */
  datatype PrescriptionError =
    | NotSignedIn
    | NotDoctor
    | NoAppointment
    | PatientRecordMissing
    | NoPatientId
    | MissingDiagnosis
    | NoMedications
    | IncompleteMedication

  function ErrorMessage(e: PrescriptionError): (msg: string)
    ensures msg != ""
  {
    match e
    case NotSignedIn => NotSignedInText
    case NotDoctor => NotDoctorText
    case NoAppointment => NoAppointmentText
    case PatientRecordMissing => NullIdError
    case NoPatientId => NoPatientIdText
    case MissingDiagnosis => MissingDiagnosisText
    case NoMedications => NoMedicationsText
    case IncompleteMedication => IncompleteMedicationText
  }

  datatype MedicationPayload = MedicationPayload(
    name: string, dosage: string, frequency: string, duration: string, timing: string, instructions: string)

  datatype PrescriptionPayload = PrescriptionPayload(
    patientId: string,
    diagnosis: string,
    symptoms: string,
    medications: seq<MedicationPayload>,
    notes: string,
    followUpDate: Option<string>,
    appointmentId: string)

  function MedicationBody(m: Medication): MedicationPayload
  {
    MedicationPayload(Get(m, "name"), Get(m, "dosage"), Get(m, "frequency"), Get(m, "duration"),
                      Get(m, "timing"), Or(Get(m, "instructions"), ""))
  }

  /** The request body: one entry per medication in the same order, absent instructions
      and notes sent as '', an empty follow-up date sent as null. */
  function BuildPayload(patientId: string, data: PrescriptionData, appointmentId: string): (p: PrescriptionPayload)
    ensures |p.medications| == |data.medications|
    ensures forall i :: 0 <= i < |data.medications| ==>
              var m := data.medications[i];
              p.medications[i] == MedicationPayload(Get(m, "name"), Get(m, "dosage"), Get(m, "frequency"),
                                                    Get(m, "duration"), Get(m, "timing"), Get(m, "instructions"))
    ensures p.notes == Get(data.text, "notes")
    ensures p.followUpDate.None? <==> Get(data.text, "followUpDate") == ""
    ensures p.followUpDate.Some? ==> p.followUpDate.value == Get(data.text, "followUpDate")
    ensures p.patientId == patientId && p.appointmentId == appointmentId
    ensures p.diagnosis == Get(data.text, "diagnosis") && p.symptoms == Get(data.text, "symptoms")
  {
    var follow := Get(data.text, "followUpDate");
    PrescriptionPayload(
      patientId,
      Get(data.text, "diagnosis"),
      Get(data.text, "symptoms"),
      seq(|data.medications|, i requires 0 <= i < |data.medications| => MedicationBody(data.medications[i])),
      Or(Get(data.text, "notes"), ""),
      if follow != "" then Some(follow) else None,
      appointmentId)
  }

  datatype Checked = Rejected(error: PrescriptionError) | Accepted(payload: PrescriptionPayload)

  /** The checks of `handleSubmit` in their order. Each error is reported only when every
      earlier check has passed. */
  function CheckPrescription(token: string, role: string, apts: seq<Appointment>, selected: string,
                             data: PrescriptionData): (r: Checked)
    ensures r == Rejected(NotSignedIn) <==> token == "" || role == ""
    ensures r == Rejected(NotDoctor) <==> token != "" && role != "" && role != "doctor"
    ensures r == Rejected(NoAppointment) <==>
              token != "" && role == "doctor" && FindById(apts, selected).None?
    ensures r == Rejected(PatientRecordMissing) <==>
              token != "" && role == "doctor" && FindById(apts, selected).Some? &&
              FindById(apts, selected).value.patient.None?
    ensures r == Rejected(NoPatientId) <==>
              token != "" && role == "doctor" && FindById(apts, selected).Some? &&
              FindById(apts, selected).value.patient.Some? &&
              FindById(apts, selected).value.patient.value.id == ""
    ensures r == Rejected(MissingDiagnosis) ==>
              token != "" && role == "doctor" && FindById(apts, selected).Some? &&
              (Get(data.text, "diagnosis") == "" || Get(data.text, "symptoms") == "")
    ensures r == Rejected(NoMedications) ==>
              Get(data.text, "diagnosis") != "" && Get(data.text, "symptoms") != "" && data.medications == []
    ensures r == Rejected(IncompleteMedication) ==>
              Get(data.text, "diagnosis") != "" && Get(data.text, "symptoms") != "" &&
              data.medications != [] && !AllComplete(data.medications)
    ensures r.Accepted? <==>
              token != "" && role == "doctor" && FindById(apts, selected).Some? &&
              FindById(apts, selected).value.patient.Some? &&
              FindById(apts, selected).value.patient.value.id != "" &&
              Get(data.text, "diagnosis") != "" && Get(data.text, "symptoms") != "" &&
              data.medications != [] && AllComplete(data.medications)
    ensures r.Accepted? ==> r.payload == BuildPayload(FindById(apts, selected).value.patient.value.id, data, selected)
  {
    if token == "" || role == "" then Rejected(NotSignedIn)
    else if role != "doctor" then Rejected(NotDoctor)
    else
      var found := FindById(apts, selected);
      if found.None? then Rejected(NoAppointment)
      else if found.value.patient.None? then Rejected(PatientRecordMissing)
      else if found.value.patient.value.id == "" then Rejected(NoPatientId)
      else if Get(data.text, "diagnosis") == "" || Get(data.text, "symptoms") == "" then Rejected(MissingDiagnosis)
      else if data.medications == [] then Rejected(NoMedications)
      else if !AllComplete(data.medications) then Rejected(IncompleteMedication)
      else Accepted(BuildPayload(found.value.patient.value.id, data, found.value.id))
  }

  /** The check chain as `handleSubmit` runs it, with the medication loop. */
  method Validate(token: string, role: string, apts: seq<Appointment>, selected: string,
                  data: PrescriptionData) returns (c: Checked)
    ensures c == CheckPrescription(token, role, apts, selected, data)
  {
    if token == "" || role == "" { return Rejected(NotSignedIn); }
    if role != "doctor" { return Rejected(NotDoctor); }
    var found := FindById(apts, selected);
    if found.None? { return Rejected(NoAppointment); }
    if found.value.patient.None? { return Rejected(PatientRecordMissing); }
    var patientId := found.value.patient.value.id;
    if patientId == "" { return Rejected(NoPatientId); }
    if Get(data.text, "diagnosis") == "" || Get(data.text, "symptoms") == "" {
      return Rejected(MissingDiagnosis);
    }
    if |data.medications| == 0 { return Rejected(NoMedications); }
    var k := FirstIncomplete(data.medications);
    if k < |data.medications| { return Rejected(IncompleteMedication); }
    return Accepted(BuildPayload(patientId, data, found.value.id));
  }

  /** The form as reset after a save passes the diagnosis check no longer: a fresh form
      must be filled in again before it can be sent. */
  lemma BlankFormIsRefused(token: string, role: string, apts: seq<Appointment>, selected: string)
    requires token != "" && role == "doctor"
    ensures !CheckPrescription(token, role, apts, selected, BlankPrescription()).Accepted?
  {
  }

  /** The message shown when saving fails with an error that is not a 401: the server's
      error, then its details, then the exception's message, then a fixed text. */
  function SaveErrorText(e: HttpError): (r: string)
    ensures r != ""
    ensures e.dataError != "" ==> r == e.dataError
    ensures e.dataError == "" && e.dataDetails != "" ==> r == e.dataDetails
    ensures e.dataError == "" && e.dataDetails == "" && e.message != "" ==> r == e.message
    ensures e.dataError == "" && e.dataDetails == "" && e.message == "" ==> r == SaveFailedText
  {
    Or(e.dataError, Or(e.dataDetails, Or(e.message, SaveFailedText)))
  }

  /** The message shown when saving fails with a 401: the server's error, else a fixed
      text. */
  function UnauthorizedText(e: HttpError): (r: string)
    ensures r != ""
    ensures e.dataError != "" ==> r == e.dataError
    ensures e.dataError == "" ==> r == NotAuthorizedText
  {
    ServerText(e, NotAuthorizedText)
  }

  /** The message shown when loading the appointments fails: the server's error, then
      the exception's message, then a fixed text. */
  function LoadErrorText(e: HttpError): (r: string)
    ensures r != ""
    ensures e.dataError != "" ==> r == e.dataError
    ensures e.dataError == "" && e.message != "" ==> r == e.message
    ensures e.dataError == "" && e.message == "" ==> r == LoadFailedText
  {
    Or(e.dataError, Or(e.message, LoadFailedText))
  }

  // ---------------------------------------------------------------- page state

  class PrescriptionPage {
    var appointments: seq<Appointment>
    var selectedAppointment: string
    var data: PrescriptionData
    var loading: bool
    var error: string
    var snackbarOpen: bool

    constructor ()
      ensures appointments == [] && selectedAppointment == "" && data == BlankPrescription()
      ensures !loading && error == "" && !snackbarOpen
    {
      appointments := [];
      selectedAppointment := "";
      data := BlankPrescription();
      loading, error, snackbarOpen := false, "", false;
    }

    /** `fetchAppointments`: keeps only the eligible appointments. */
    method LoadAppointments(store: LocalStorage, outcome: Outcome<seq<Appointment>>)
      modifies this
      ensures store.Read("token") == "" ==>
                error == LoginToViewText && appointments == old(appointments)
      ensures store.Read("token") != "" && outcome.Ok? ==>
                appointments == Eligible(outcome.data) && error == old(error)
      ensures store.Read("token") != "" && outcome.Fail? ==>
                appointments == old(appointments) && error == LoadErrorText(outcome.err)
      ensures data == old(data) && selectedAppointment == old(selectedAppointment)
      ensures loading == old(loading) && snackbarOpen == old(snackbarOpen)
    {
      if store.Read("token") == "" {
        error := LoginToViewText;
        return;
      }
      match outcome {
        case Ok(list) => appointments := Eligible(list);
        case Fail(e) => error := LoadErrorText(e);
      }
    }

    /** `handleInputChange`. */
    method HandleInputChange(name: string, value: string)
      modifies this
      ensures data == old(data).(text := old(data).text[name := value])
      ensures appointments == old(appointments) && selectedAppointment == old(selectedAppointment)
      ensures error == old(error) && loading == old(loading) && snackbarOpen == old(snackbarOpen)
    {
      data := data.(text := data.text[name := value]);
    }

    /** `handleMedicationChange`. */
    method HandleMedicationChange(index: int, field: string, value: string)
      modifies this
      ensures data == old(data).(medications := ChangeMedication(old(data).medications, index, field, value))
      ensures appointments == old(appointments) && selectedAppointment == old(selectedAppointment)
      ensures error == old(error) && loading == old(loading) && snackbarOpen == old(snackbarOpen)
    {
      data := data.(medications := ChangeMedication(data.medications, index, field, value));
    }

    /** `addMedication`. */
    method AddEntry()
      modifies this
      ensures data == old(data).(medications := AddMedication(old(data).medications))
      ensures appointments == old(appointments) && selectedAppointment == old(selectedAppointment)
      ensures error == old(error) && loading == old(loading) && snackbarOpen == old(snackbarOpen)
    {
      data := data.(medications := AddMedication(data.medications));
    }

    /** `removeMedication`. */
    method RemoveEntry(index: int)
      modifies this
      ensures data == old(data).(medications := RemoveMedication(old(data).medications, index))
      ensures appointments == old(appointments) && selectedAppointment == old(selectedAppointment)
      ensures error == old(error) && loading == old(loading) && snackbarOpen == old(snackbarOpen)
    {
      data := data.(medications := RemoveMedication(data.medications, index));
    }

    /** `handleSubmit`, given the outcome of the save request and of the reload that
        follows a successful save. Returns where the page navigates and the body sent. */
    method HandleSubmit(store: LocalStorage, outcome: Outcome<()>, reload: Outcome<seq<Appointment>>)
      returns (nav: Option<string>, sent: Option<PrescriptionPayload>)
      modifies this, store
      ensures var c := CheckPrescription(old(store.Read("token")), old(store.Read("role")),
                                         old(appointments), old(selectedAppointment), old(data));
              && (c.Rejected? ==> sent.None? && nav.None? && error == ErrorMessage(c.error) &&
                                  data == old(data) && !snackbarOpen && store.items == old(store.items) &&
                                  appointments == old(appointments) &&
                                  selectedAppointment == old(selectedAppointment))
              && (c.Accepted? ==> sent == Some(c.payload))
      ensures sent.Some? && outcome.Ok? ==>
                snackbarOpen && data == BlankPrescription() && selectedAppointment == "" && nav.None?
      ensures sent.Some? && outcome.Ok? && reload.Ok? ==>
                appointments == Eligible(reload.data) && error == ""
      ensures sent.Some? && outcome.Ok? && reload.Fail? ==>
                appointments == old(appointments) && error == LoadErrorText(reload.err)
      ensures outcome.Fail? ==> appointments == old(appointments) && selectedAppointment == old(selectedAppointment)
      ensures nav.None? ==> store.items == old(store.items)
      ensures sent.Some? && outcome.Fail? && !HasStatus(outcome.err, 401) ==>
                error == SaveErrorText(outcome.err) && data == old(data) && !snackbarOpen && nav.None?
      ensures sent.Some? && outcome.Fail? && HasStatus(outcome.err, 401) ==>
                error == UnauthorizedText(outcome.err) && data == old(data) && !snackbarOpen &&
                (Includes(error, "token") <==> nav == Some("/login")) &&
                (nav == Some("/login") ==> store.items == old(store.items) - SessionKeys)
      ensures !loading
    {
      loading := true;
      error := "";
      snackbarOpen := false;
      nav, sent := None, None;
      var c := Validate(store.Read("token"), store.Read("role"), appointments, selectedAppointment, data);
      if c.Rejected? {
        error := SaveErrorText(Thrown(ErrorMessage(c.error)));
      } else {
        sent := Some(c.payload);
        nav := AfterSave(store, outcome, reload);
      }
      loading := false;
    }

    /** The part of `handleSubmit` that follows the request: the reset and reload after a
        save, or the error handling, with the sign-out on an expired token. */
    method AfterSave(store: LocalStorage, outcome: Outcome<()>, reload: Outcome<seq<Appointment>>)
      returns (nav: Option<string>)
      modifies this, store
      ensures outcome.Ok? ==>
                snackbarOpen && data == BlankPrescription() && selectedAppointment == "" && nav.None?
      ensures outcome.Ok? && old(store.Read("token")) == "" ==>
                appointments == old(appointments) && error == LoginToViewText
      ensures outcome.Ok? && old(store.Read("token")) != "" && reload.Ok? ==>
                appointments == Eligible(reload.data) && error == old(error)
      ensures outcome.Ok? && old(store.Read("token")) != "" && reload.Fail? ==>
                appointments == old(appointments) && error == LoadErrorText(reload.err)
      ensures outcome.Fail? ==> appointments == old(appointments) && selectedAppointment == old(selectedAppointment)
      ensures nav.None? ==> store.items == old(store.items)
      ensures outcome.Fail? && !HasStatus(outcome.err, 401) ==>
                error == SaveErrorText(outcome.err) && data == old(data) &&
                snackbarOpen == old(snackbarOpen) && nav.None?
      ensures outcome.Fail? && HasStatus(outcome.err, 401) ==>
                error == UnauthorizedText(outcome.err) && data == old(data) && snackbarOpen == old(snackbarOpen) &&
                (Includes(error, "token") <==> nav == Some("/login")) &&
                (nav == Some("/login") ==> store.items == old(store.items) - SessionKeys)
      ensures loading == old(loading)
    {
      nav := None;
      match outcome {
        case Ok(_) =>
          snackbarOpen := true;
          data := BlankPrescription();
          selectedAppointment := "";
          LoadAppointments(store, reload);
        case Fail(e) =>
          if HasStatus(e, 401) {
            error := UnauthorizedText(e);
            if Includes(error, "token") {
              store.ClearSession();
              nav := Some("/login");
            }
          } else {
            error := SaveErrorText(e);
          }
      }
    }
  }
}
