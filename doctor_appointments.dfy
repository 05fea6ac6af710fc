/** The doctor's appointment list: the status chip colour and icon, the date/status/search
    filter, the edit dialog, and the local update after a status change is saved. */
module DoctorAppointments {
  import opened Js
  import opened Http
  import opened Browser
  import opened Records
  import opened Seqs

  /** The messages of the status dialog. */
  const UpdateFailedText: string := "Failed to update appointment"
  const LoginToUpdateText: string := "Please log in to update appointments"

  // ---------------------------------------------------------------- status display

  /** `getStatusColor`: the chip colour, chosen on the lower-cased status. */
  function StatusColor(status: string): (c: string)
    ensures c == "success" <==> ToLower(status) == "completed"
    ensures c == "warning" <==> ToLower(status) == "pending"
    ensures c == "error" <==> ToLower(status) == "cancelled"
    ensures c == "default" <==> ToLower(status) !in {"completed", "pending", "cancelled"}
  {
    match ToLower(status)
    case "completed" => "success"
    case "pending" => "warning"
    case "cancelled" => "error"
    case _ => "default"
  }

  datatype Icon = CheckCircle | Cancel | AccessTime

  /** `StatusIcon`: completed and cancelled have their own icon, every other status a clock. */
  function StatusIcon(status: string): (i: Icon)
    ensures i == CheckCircle <==> ToLower(status) == "completed"
    ensures i == Cancel <==> ToLower(status) == "cancelled"
    ensures i == AccessTime <==> ToLower(status) !in {"completed", "cancelled"}
  {
    match ToLower(status)
    case "completed" => CheckCircle
    case "cancelled" => Cancel
    case _ => AccessTime
  }

  // ---------------------------------------------------------------- filtering

  /** The filter controls: a selected day, a selected status and the search text; `None`
      and "" mean "not set". */
  datatype ListFilter = ListFilter(date: Option<int>, status: string, search: string)

  /** The lower-cased "first last" name of the patient, or "" when the patient has no
      name part at all. */
  function PatientName(a: Appointment): (n: string)
    ensures a.patient.None? ==> n == ""
    ensures a.patient.Some? && a.patient.value.firstName == "" && a.patient.value.lastName == "" ==> n == ""
    ensures a.patient.Some? && (a.patient.value.firstName != "" || a.patient.value.lastName != "") ==>
              n == ToLower(a.patient.value.firstName + " " + a.patient.value.lastName)
  {
    if a.patient.Some? && (a.patient.value.firstName != "" || a.patient.value.lastName != "")
    then ToLower(a.patient.value.firstName + " " + a.patient.value.lastName)
    else ""
  }

  predicate DateMatches(a: Appointment, f: ListFilter)
  {
    f.date.None? || a.date == f.date.value
  }

  predicate StatusMatches(a: Appointment, f: ListFilter)
  {
    f.status == "" || a.status == f.status
  }

  /** The search matches the patient's name or the reason, ignoring case. */
  predicate SearchMatches(a: Appointment, f: ListFilter)
  {
    var needle := ToLower(f.search);
    f.search == "" || Includes(PatientName(a), needle) || (a.reason != "" && Includes(ToLower(a.reason), needle))
  }

  predicate Matches(a: Appointment, f: ListFilter)
  {
    DateMatches(a, f) && StatusMatches(a, f) && SearchMatches(a, f)
  }

  /** `filteredAppointments`: the matching appointments, in their original order. */
  function Filtered(apts: seq<Appointment>, f: ListFilter): (r: seq<Appointment>)
    ensures IsSubsequence(r, apts)
    ensures forall a :: a in r <==> a in apts && Matches(a, f)
    ensures forall a :: multiset(r)[a] == if Matches(a, f) then multiset(apts)[a] else 0
    ensures f.status != "" ==> forall a :: a in r ==> a.status == f.status
    ensures f.date.Some? ==> forall a :: a in r ==> a.date == f.date.value
  {
    var p := (a: Appointment) => Matches(a, f);
    FilterIsSubsequence(p, apts);
    FilterCounts(p, apts);
    Filter(p, apts)
  }

  /** With no filter set, every appointment is shown. */
  lemma UnfilteredShowsAll(apts: seq<Appointment>)
    ensures Filtered(apts, ListFilter(None, "", "")) == apts
  {
    FilterKeepsAll((a: Appointment) => Matches(a, ListFilter(None, "", "")), apts);
  }

  /** The search ignores the case of what is typed. */
  lemma SearchIgnoresCase(a: Appointment, f: ListFilter, search: string)
    requires ToLower(search) == ToLower(f.search)
    ensures SearchMatches(a, f.(search := search)) == SearchMatches(a, f)
  {
    assert |search| == |ToLower(search)| == |f.search|;
  }

  // ---------------------------------------------------------------- editing

  /** The body of the status update request. */
  datatype StatusUpdate = StatusUpdate(id: string, status: string, notes: string)

  /** The local update after a save: the record with that id takes the new status, notes
      and chip colour; every other record stays as it was. */
  function ApplySave(apts: seq<Appointment>, id: string, status: string, notes: string): (r: seq<Appointment>)
    ensures |r| == |apts|
    ensures forall i :: 0 <= i < |apts| && apts[i].id != id ==> r[i] == apts[i]
    ensures forall i :: 0 <= i < |apts| && apts[i].id == id ==>
              r[i] == apts[i].(status := status, notes := notes, statusColor := Some(StatusColor(status)))
  {
    UpdateWhere(apts, (a: Appointment) => a.id == id,
                (a: Appointment) => a.(notes := notes, status := status, statusColor := Some(StatusColor(status))))
  }

  /** Saving the same values twice is the same as saving them once. */
  lemma ApplySaveIdempotent(apts: seq<Appointment>, id: string, status: string, notes: string)
    ensures ApplySave(ApplySave(apts, id, status, notes), id, status, notes) == ApplySave(apts, id, status, notes)
  {
    var once := ApplySave(apts, id, status, notes);
    var twice := ApplySave(once, id, status, notes);
    forall i | 0 <= i < |apts| ensures twice[i] == once[i] {
      assert once[i].id == apts[i].id;
    }
  }

  /** What the edit dialog starts from when opened on an appointment. */
  datatype Draft = Draft(status: string, notes: string)

  function DraftOf(a: Appointment): (d: Draft)
    ensures d.status == a.status
    ensures d.notes == a.notes
  {
    Draft(a.status, Or(a.notes, ""))
  }

  /** Reopening a saved appointment shows exactly what was saved. */
  lemma ReopenShowsSaved(apts: seq<Appointment>, id: string, status: string, notes: string, i: int)
    requires 0 <= i < |apts| && apts[i].id == id
    ensures DraftOf(ApplySave(apts, id, status, notes)[i]) == Draft(status, notes)
  {
  }

  /** The message of a failed save: the server's error, then its details, then the
      exception's message, then a fixed text. */
  function SaveErrorText(e: HttpError): (r: string)
    ensures r != ""
    ensures e.dataError != "" ==> r == e.dataError
    ensures e.dataError == "" && e.dataDetails != "" ==> r == e.dataDetails
    ensures e.dataError == "" && e.dataDetails == "" && e.message != "" ==> r == e.message
    ensures e.dataError == "" && e.dataDetails == "" && e.message == "" ==> r == UpdateFailedText
  {
    Or(e.dataError, Or(e.dataDetails, Or(e.message, UpdateFailedText)))
  }

  // ---------------------------------------------------------------- page state

  class DoctorAppointmentsPage {
    var appointments: seq<Appointment>
    var error: string
    var open: bool
    var selected: Option<Appointment>
    var notes: string
    var status: string
    var search: string
    var selectedStatus: string
    var selectedDate: Option<int>

    constructor (apts: seq<Appointment>)
      ensures appointments == apts && error == "" && !open && selected.None?
      ensures notes == "" && status == "" && search == "" && selectedStatus == "" && selectedDate.None?
    {
      appointments := apts;
      error, open, selected := "", false, None;
      notes, status, search, selectedStatus, selectedDate := "", "", "", "", None;
    }

    /** The list the page shows. */
    function Visible(): (r: seq<Appointment>)
      reads this
      ensures IsSubsequence(r, appointments)
    {
      Filtered(appointments, ListFilter(selectedDate, selectedStatus, search))
    }

    /** `handleOpen`. */
    method HandleOpen(a: Appointment)
      modifies this
      ensures selected == Some(a) && open
      ensures Draft(status, notes) == DraftOf(a)
      ensures appointments == old(appointments) && error == old(error)
      ensures search == old(search) && selectedStatus == old(selectedStatus) && selectedDate == old(selectedDate)
    {
      selected := Some(a);
      notes := Or(a.notes, "");
      status := a.status;
      open := true;
    }

    /** `handleClose`. */
    method HandleClose()
      modifies this
      ensures !open && selected.None?
      ensures appointments == old(appointments) && error == old(error)
      ensures notes == old(notes) && status == old(status)
      ensures search == old(search) && selectedStatus == old(selectedStatus) && selectedDate == old(selectedDate)
    {
      open := false;
      selected := None;
    }

    /** `handleSave`, given the outcome of the update request; returns the body sent. */
    method HandleSave(store: LocalStorage, outcome: Outcome<()>) returns (sent: Option<StatusUpdate>)
      modifies this
      ensures store.Read("token") == "" ==>
                sent.None? && error == LoginToUpdateText &&
                appointments == old(appointments) && open == old(open) && selected == old(selected)
      ensures store.Read("token") != "" && old(selected).None? ==>
                sent.None? && error == NullIdError && appointments == old(appointments) &&
                open == old(open) && selected == old(selected)
      ensures store.Read("token") != "" && old(selected).Some? ==>
                sent == Some(StatusUpdate(old(selected).value.id, old(status), old(notes)))
      ensures sent.Some? && outcome.Ok? ==>
                appointments == ApplySave(old(appointments), sent.value.id, old(status), old(notes)) &&
                !open && selected.None? && error == ""
      ensures sent.Some? && outcome.Fail? ==>
                appointments == old(appointments) && error == SaveErrorText(outcome.err) &&
                open == old(open) && selected == old(selected)
      ensures notes == old(notes) && status == old(status)
      ensures search == old(search) && selectedStatus == old(selectedStatus) && selectedDate == old(selectedDate)
    {
      sent := None;
      if store.Read("token") == "" {
        error := LoginToUpdateText;
        return;
      }
      if selected.None? {
        error := SaveErrorText(Thrown(NullIdError));
        return;
      }
      var id := selected.value.id;
      sent := Some(StatusUpdate(id, status, notes));
      match outcome {
        case Ok(_) =>
          appointments := ApplySave(appointments, id, status, notes);
          HandleClose();
          error := "";
        case Fail(e) =>
          error := SaveErrorText(e);
      }
    }
  }
}
