/** The doctor's patient list: adding a note to one patient and showing the first two
    notes of each. */
module DoctorPatients {
  import opened Js
  import opened Http
  import opened Seqs

  /** The message of a failed note. */
  const AddFailedText: string := "Failed to add notes"

  /** A patient as the list holds it; `notes` may be absent. */
  datatype PatientRecord = PatientRecord(id: string, firstName: string, lastName: string, notes: Option<seq<string>>)

  /** `patient.notes || []`. */
  function NotesOf(p: PatientRecord): (r: seq<string>)
    ensures p.notes.None? ==> r == []
    ensures p.notes.Some? ==> r == p.notes.value
  {
    if p.notes.Some? then p.notes.value else []
  }

  /** The local update after a note is saved: the patient with that id gets the note at
      the end of their notes; every other patient stays as they were. */
  function AppendNote(patients: seq<PatientRecord>, id: string, note: string): (r: seq<PatientRecord>)
    ensures |r| == |patients|
    ensures forall i :: 0 <= i < |patients| && patients[i].id != id ==> r[i] == patients[i]
    ensures forall i :: 0 <= i < |patients| && patients[i].id == id ==>
              r[i] == patients[i].(notes := Some(NotesOf(patients[i]) + [note]))
  {
    UpdateWhere(patients, (p: PatientRecord) => p.id == id,
                (p: PatientRecord) => p.(notes := Some(NotesOf(p) + [note])))
  }

  /** The "Recent Notes" shown for a patient: the first two, or none. */
  function RecentNotes(p: PatientRecord): (r: seq<string>)
    ensures |r| == if |NotesOf(p)| < 2 then |NotesOf(p)| else 2
    ensures r == NotesOf(p)[..|r|]
  {
    if NotesOf(p) != [] then Take(NotesOf(p), 2) else []
  }

  /** A new note is shown only while the patient had fewer than two notes; after that
      the list shows the same two old notes. */
  lemma NewNoteShownIffFewNotes(patients: seq<PatientRecord>, id: string, note: string, i: int)
    requires 0 <= i < |patients| && patients[i].id == id
    ensures |NotesOf(patients[i])| < 2 ==>
              RecentNotes(AppendNote(patients, id, note)[i]) == NotesOf(patients[i]) + [note]
    ensures |NotesOf(patients[i])| >= 2 ==>
              RecentNotes(AppendNote(patients, id, note)[i]) == RecentNotes(patients[i])
  {
    var before := NotesOf(patients[i]);
    var after := NotesOf(AppendNote(patients, id, note)[i]);
    assert after == before + [note];
    if |before| >= 2 {
      assert after[..2] == before[..2];
    }
  }

  /** The request body of a note. */
  datatype NoteRequest = NoteRequest(patientId: string, notes: string)

  class DoctorPatientsPage {
    var patients: seq<PatientRecord>
    var error: string
    var selectedPatient: Option<PatientRecord>
    var dialogOpen: bool
    var notes: string

    constructor (list: seq<PatientRecord>)
      ensures patients == list && error == "" && selectedPatient.None? && !dialogOpen && notes == ""
    {
      patients := list;
      error, selectedPatient, dialogOpen, notes := "", None, false, "";
    }

    /** The "Add Notes" button of a patient card. */
    method OpenNotes(p: PatientRecord)
      modifies this
      ensures selectedPatient == Some(p) && dialogOpen
      ensures patients == old(patients) && error == old(error) && notes == old(notes)
    {
      selectedPatient := Some(p);
      dialogOpen := true;
    }

    /** Typing in the note field. */
    method EditNote(text: string)
      modifies this
      ensures notes == text
      ensures patients == old(patients) && error == old(error)
      ensures selectedPatient == old(selectedPatient) && dialogOpen == old(dialogOpen)
    {
      notes := text;
    }

    /** `handleAddNotes`, given the outcome of the request; returns the body sent. */
    method HandleAddNotes(outcome: Outcome<()>) returns (sent: Option<NoteRequest>)
      modifies this
      ensures old(selectedPatient).None? ==>
                sent.None? && error == AddFailedText && patients == old(patients) &&
                dialogOpen == old(dialogOpen) && notes == old(notes) && selectedPatient == old(selectedPatient)
      ensures old(selectedPatient).Some? ==> sent == Some(NoteRequest(old(selectedPatient).value.id, old(notes)))
      ensures sent.Some? && outcome.Ok? ==>
                patients == AppendNote(old(patients), sent.value.patientId, old(notes)) &&
                !dialogOpen && notes == "" && selectedPatient.None? && error == old(error)
      ensures sent.Some? && outcome.Fail? ==>
                error == ServerText(outcome.err, AddFailedText) && patients == old(patients) &&
                dialogOpen == old(dialogOpen) && notes == old(notes) && selectedPatient == old(selectedPatient)
    {
      sent := None;
      if selectedPatient.None? {
        error := ServerText(Thrown(NullIdError), AddFailedText);
        return;
      }
      var id := selectedPatient.value.id;
      sent := Some(NoteRequest(id, notes));
      match outcome {
        case Ok(_) =>
          patients := AppendNote(patients, id, notes);
          dialogOpen := false;
          notes := "";
          selectedPatient := None;
        case Fail(e) =>
          error := ServerText(e, AddFailedText);
      }
    }
  }
}
