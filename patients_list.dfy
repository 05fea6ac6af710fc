/** The admin's patient list: the appointment status chip, the sort-order button, the
    single expanded row, and the medical-history entry form. */
module PatientsList {
  import opened Js
  import opened Http
  import DoctorAppointments

  /** The messages of the medical-history dialog. */
  const HistoryFailedText: string := "Error adding medical history"
  const HistoryAddedText: string := "Medical history entry added successfully"

  /** `statusColors[status] || 'default'`: an exact, case-sensitive lookup. */
  function AppointmentStatus(status: string): (c: string)
    ensures status == "pending" ==> c == "warning"
    ensures status == "completed" ==> c == "success"
    ensures status == "cancelled" ==> c == "error"
    ensures status !in {"pending", "completed", "cancelled"} ==> c == "default"
  {
    var statusColors := map["pending" := "warning", "completed" := "success", "cancelled" := "error"];
    Or(Get(statusColors, status), "default")
  }

  /** Unlike the doctor's appointment list, this lookup does not ignore case. */
  lemma LookupIsCaseSensitive()
    ensures AppointmentStatus("Pending") == "default"
    ensures DoctorAppointments.StatusColor("Pending") == "warning"
  {
    assert ToLower("Pending") == "pending";
  }

  /** The sort button: "asc" becomes "desc", anything else becomes "asc". */
  function NextSortOrder(order: string): (r: string)
    ensures r in {"asc", "desc"}
    ensures order == "asc" <==> r == "desc"
  {
    if order == "asc" then "desc" else "asc"
  }

  /** On the two values the button produces, pressing it twice changes nothing. */
  lemma SortToggleInvolution(order: string)
    requires order in {"asc", "desc"}
    ensures NextSortOrder(NextSortOrder(order)) == order
  {
  }

  /** Clicking a row's details button: the open row closes, any other row opens alone. */
  function ToggleExpanded(expanded: Option<string>, id: string): (r: Option<string>)
    ensures expanded == Some(id) ==> r.None?
    ensures expanded != Some(id) ==> r == Some(id)
    ensures forall other :: other != id ==> r != Some(other)
  {
    if expanded == Some(id) then None else Some(id)
  }

  /** Clicking the same row twice returns to no open row or to that row. */
  lemma ToggleTwice(expanded: Option<string>, id: string)
    ensures ToggleExpanded(ToggleExpanded(expanded, id), id) == (if expanded == Some(id) then Some(id) else None)
  {
  }

  function BlankHistoryEntry(): (e: Fields)
    ensures e.Keys == {"condition", "diagnosedDate", "notes"}
    ensures forall k :: k in e ==> e[k] == ""
  {
    map["condition" := "", "diagnosedDate" := "", "notes" := ""]
  }

  /** The request that adds an entry to a patient's medical history. */
  datatype HistoryRequest = HistoryRequest(patientId: string, entry: Fields)

  class PatientsListPage {
    var sortOrder: string
    var expandedPatient: Option<string>
    var selectedPatient: Option<Fields>
    var openMedicalHistoryDialog: bool
    var medicalHistoryEntry: Fields
    var error: string
    var success: string

    constructor ()
      ensures sortOrder == "desc" && expandedPatient.None? && selectedPatient.None?
      ensures !openMedicalHistoryDialog && medicalHistoryEntry == BlankHistoryEntry()
      ensures error == "" && success == ""
    {
      sortOrder, expandedPatient, selectedPatient := "desc", None, None;
      openMedicalHistoryDialog, medicalHistoryEntry := false, BlankHistoryEntry();
      error, success := "", "";
    }

    method ToggleSortOrder()
      modifies this
      ensures sortOrder == NextSortOrder(old(sortOrder))
      ensures expandedPatient == old(expandedPatient) && medicalHistoryEntry == old(medicalHistoryEntry)
      ensures selectedPatient == old(selectedPatient) && openMedicalHistoryDialog == old(openMedicalHistoryDialog)
      ensures error == old(error) && success == old(success)
    {
      sortOrder := NextSortOrder(sortOrder);
    }

    method ToggleExpand(id: string)
      modifies this
      ensures expandedPatient == ToggleExpanded(old(expandedPatient), id)
      ensures sortOrder == old(sortOrder) && medicalHistoryEntry == old(medicalHistoryEntry)
      ensures selectedPatient == old(selectedPatient) && openMedicalHistoryDialog == old(openMedicalHistoryDialog)
      ensures error == old(error) && success == old(success)
    {
      expandedPatient := ToggleExpanded(expandedPatient, id);
    }

    /** The "Add Medical History" button of a patient row. */
    method OpenMedicalHistory(patient: Fields)
      modifies this
      ensures selectedPatient == Some(patient) && openMedicalHistoryDialog
      ensures medicalHistoryEntry == old(medicalHistoryEntry) && error == old(error) && success == old(success)
      ensures sortOrder == old(sortOrder) && expandedPatient == old(expandedPatient)
    {
      selectedPatient := Some(patient);
      openMedicalHistoryDialog := true;
    }

    /** Typing in one field of the entry form. */
    method EditHistoryEntry(name: string, value: string)
      modifies this
      ensures medicalHistoryEntry == old(medicalHistoryEntry)[name := value]
      ensures selectedPatient == old(selectedPatient) && openMedicalHistoryDialog == old(openMedicalHistoryDialog)
      ensures sortOrder == old(sortOrder) && expandedPatient == old(expandedPatient)
      ensures error == old(error) && success == old(success)
    {
      medicalHistoryEntry := medicalHistoryEntry[name := value];
    }

    /** `handleAddMedicalHistory`, given the outcome of the request; returns the request
        sent. The list reload that follows is not part of this model. */
    method HandleAddMedicalHistory(outcome: Outcome<()>) returns (sent: Option<HistoryRequest>)
      modifies this
      ensures old(selectedPatient).None? ==>
                sent.None? && error == HistoryFailedText && success == old(success) &&
                medicalHistoryEntry == old(medicalHistoryEntry) && openMedicalHistoryDialog == old(openMedicalHistoryDialog)
      ensures old(selectedPatient).Some? ==>
                sent == Some(HistoryRequest(StoredText(if "_id" in old(selectedPatient).value then Some(old(selectedPatient).value["_id"]) else None),
                                            old(medicalHistoryEntry)))
      ensures sent.Some? && outcome.Ok? ==>
                success == HistoryAddedText && !openMedicalHistoryDialog &&
                medicalHistoryEntry == BlankHistoryEntry() && error == old(error)
      ensures sent.Some? && outcome.Fail? ==>
                error == ServerText(outcome.err, HistoryFailedText) && success == old(success) &&
                medicalHistoryEntry == old(medicalHistoryEntry) && openMedicalHistoryDialog == old(openMedicalHistoryDialog)
      ensures selectedPatient == old(selectedPatient) && sortOrder == old(sortOrder) && expandedPatient == old(expandedPatient)
    {
      sent := None;
      if selectedPatient.None? {
        error := ServerText(Thrown(NullIdError), HistoryFailedText);
        return;
      }
      var p := selectedPatient.value;
      sent := Some(HistoryRequest(StoredText(if "_id" in p then Some(p["_id"]) else None), medicalHistoryEntry));
      match outcome {
        case Ok(_) =>
          success := HistoryAddedText;
          openMedicalHistoryDialog := false;
          medicalHistoryEntry := BlankHistoryEntry();
        case Fail(e) =>
          error := ServerText(e, HistoryFailedText);
      }
    }
  }
}
