/** The admin's doctor dialog: one form for adding and editing, the required fields of
    each, and the request each sends. */
module ManageDoctors {
  import opened Js
  import opened Http
  import opened Browser
  import opened Seqs

  /** The messages of the doctor form. */
  const NoTokenText: string := "Authentication token not found. Please login again."
  const SaveFailedText: string := "Error saving doctor"

  /** The start of the missing-fields message. */
  const MissingPrefix: string := "Please fill in all required fields: "

  /** The fields an edit must fill, in the order they are reported. */
  const ProfileFields: seq<string> := ["firstName", "lastName", "email", "specialty", "licenseNumber", "phoneNumber"]

  /** Editing requires the six profile fields; adding also requires a password. */
  function RequiredFields(editing: bool): (r: seq<string>)
    ensures editing ==> r == ProfileFields
    ensures !editing ==> r == ProfileFields + ["password"]
    ensures "password" in r <==> !editing
  {
    if editing then ProfileFields else ProfileFields + ["password"]
  }

  /** The required fields that are empty, in required-field order. */
  function MissingFields(form: Fields, editing: bool): (r: seq<string>)
    ensures IsSubsequence(r, RequiredFields(editing))
    ensures forall f :: f in r <==> f in RequiredFields(editing) && Get(form, f) == ""
  {
    var p := (f: string) => Get(form, f) == "";
    FilterIsSubsequence(p, RequiredFields(editing));
    Filter(p, RequiredFields(editing))
  }

  function MissingMessage(missing: seq<string>): (msg: string)
    ensures msg == MissingPrefix + Join(missing, ", ")
  {
    MissingPrefix + Join(missing, ", ")
  }

  /** `handleOpen`'s form: a copy of the doctor's six fields with an empty password, or
      seven empty fields for a new doctor. */
  function FormFor(doctor: Option<Fields>): (f: Fields)
    ensures f.Keys == set k | k in ProfileFields + ["password"]
    ensures f["password"] == ""
    ensures doctor.Some? ==> forall k :: k in ProfileFields ==> f[k] == Get(doctor.value, k)
    ensures doctor.None? ==> forall k :: k in f ==> f[k] == ""
  {
    var d := if doctor.Some? then doctor.value else map[];
    map k | k in ProfileFields + ["password"] :: if k == "password" then "" else Get(d, k)
  }

  /** Submitting the blank add form reports every field, password last. */
  lemma BlankAddFormMissesAll()
    ensures MissingFields(FormFor(None), false) == RequiredFields(false)
  {
    var form := FormFor(None);
    FilterKeepsAll((f: string) => Get(form, f) == "", RequiredFields(false));
  }

  /** A doctor opened for editing whose six fields are filled can be saved without
      typing a password. */
  lemma CompleteDoctorNeedsNoPassword(doctor: Fields)
    requires forall k :: k in ProfileFields ==> Get(doctor, k) != ""
    ensures MissingFields(FormFor(Some(doctor)), true) == []
  {
    var form := FormFor(Some(doctor));
    FilterDropsAll((f: string) => Get(form, f) == "", ProfileFields);
  }

  /** The request `handleSubmit` sends. */
  datatype DoctorRequest = Update(id: string, body: Fields) | Add(body: Fields)

  /** `{...formData, role: 'doctor'}`. */
  function AddBody(form: Fields): (b: Fields)
    ensures b.Keys == form.Keys + {"role"}
    ensures b["role"] == "doctor"
    ensures forall k :: k in form && k != "role" ==> b[k] == form[k]
  {
    form["role" := "doctor"]
  }

  /** The request for the form: an update of the selected doctor, addressed by its
      `_id`, or an addition. */
  function RequestFor(form: Fields, selected: Option<Fields>): (r: DoctorRequest)
    ensures selected.Some? <==> r.Update?
    ensures r.Update? ==> r.body == form && r.id == StoredText(if "_id" in selected.value then Some(selected.value["_id"]) else None)
    ensures r.Add? ==> r.body == AddBody(form)
  {
    if selected.Some? then
      Update(StoredText(if "_id" in selected.value then Some(selected.value["_id"]) else None), form)
    else Add(AddBody(form))
  }

  /** The message `handleSubmit` stops with before sending anything, if any: a missing
      token, then the empty required fields. */
  function SubmitBlock(token: string, form: Fields, editing: bool): (r: Option<string>)
    ensures token == "" ==> r == Some(NoTokenText)
    ensures token != "" && MissingFields(form, editing) != [] ==>
              r == Some(MissingMessage(MissingFields(form, editing)))
    ensures r.None? <==> token != "" && MissingFields(form, editing) == []
  {
    if token == "" then Some(NoTokenText)
    else
      var missing := MissingFields(form, editing);
      if missing != [] then Some(MissingMessage(missing)) else None
  }

  class ManageDoctorsPage {
    var formData: Fields
    var selectedDoctor: Option<Fields>
    var open: bool
    var error: string

    constructor ()
      ensures formData == FormFor(None) && selectedDoctor.None? && !open && error == ""
    {
      formData := FormFor(None);
      selectedDoctor, open, error := None, false, "";
    }

    /** `handleOpen`: `None` opens the dialog for a new doctor. */
    method HandleOpen(doctor: Option<Fields>)
      modifies this
      ensures selectedDoctor == doctor && formData == FormFor(doctor) && open
      ensures error == old(error)
    {
      selectedDoctor := doctor;
      formData := FormFor(doctor);
      open := true;
    }

    /** `handleClose`. */
    method HandleClose()
      modifies this
      ensures !open && selectedDoctor.None? && error == ""
      ensures formData == old(formData)
    {
      open := false;
      selectedDoctor := None;
      error := "";
    }

    /** `handleChange`: sets one form field. */
    method HandleChange(name: string, value: string)
      modifies this
      ensures formData == old(formData)[name := value]
      ensures selectedDoctor == old(selectedDoctor) && open == old(open) && error == old(error)
    {
      formData := formData[name := value];
    }

    /** `handleSubmit`, given the outcome of the save request; returns the request sent.
        The list reload that follows a save is not part of this model. */
    method HandleSubmit(store: LocalStorage, outcome: Outcome<()>) returns (sent: Option<DoctorRequest>)
      modifies this
      ensures formData == old(formData)
      ensures var block := SubmitBlock(store.Read("token"), old(formData), old(selectedDoctor).Some?);
              && (block.Some? ==> sent.None? && error == block.value &&
                                  open == old(open) && selectedDoctor == old(selectedDoctor))
              && (block.None? ==> sent == Some(RequestFor(old(formData), old(selectedDoctor))))
      ensures sent.Some? && outcome.Ok? ==> !open && selectedDoctor.None? && error == ""
      ensures sent.Some? && outcome.Fail? ==>
                error == ServerText(outcome.err, SaveFailedText) &&
                open == old(open) && selectedDoctor == old(selectedDoctor)
    {
      sent := None;
      var block := SubmitBlock(store.Read("token"), formData, selectedDoctor.Some?);
      if block.Some? {
        error := block.value;
        return;
      }
      sent := Some(RequestFor(formData, selectedDoctor));
      match outcome {
        case Ok(_) =>
          HandleClose();
        case Fail(e) =>
          error := ServerText(e, SaveFailedText);
      }
    }
  }
}
