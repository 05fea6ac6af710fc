/** The patient's profile page: a committed profile and a draft copy, with edit, cancel
    and save. */
module Profile {
  import opened Js
  import opened Http
  import opened Browser

  /** The messages of the profile page. */
  const LoginToViewText: string := "Please log in to view your profile"
  const FetchFailedText: string := "Failed to fetch profile"
  const UpdatedText: string := "Profile updated successfully"
  const UpdateFailedText: string := "Failed to update profile"

  function BlankProfile(): (p: Fields)
    ensures p.Keys == {"firstName", "lastName", "email", "phone", "address", "dateOfBirth", "bloodGroup", "emergencyContact"}
    ensures forall k :: k in p ==> p[k] == ""
  {
    map["firstName" := "", "lastName" := "", "email" := "", "phone" := "", "address" := "",
        "dateOfBirth" := "", "bloodGroup" := "", "emergencyContact" := ""]
  }

  /** What a field shows: the draft while editing, the committed profile otherwise. */
  function Displayed(editing: bool, profile: Fields, draft: Fields, field: string): (r: string)
    ensures editing ==> r == Get(draft, field)
    ensures !editing ==> r == Get(profile, field)
  {
    Get(if editing then draft else profile, field)
  }

  /** Typing into the draft changes only the typed field, and only while editing is it
      visible. */
  lemma EditShowsOnlyWhileEditing(editing: bool, profile: Fields, draft: Fields, name: string, value: string, field: string)
    ensures !editing ==> Displayed(editing, profile, draft[name := value], field) == Displayed(editing, profile, draft, field)
    ensures editing && field == name ==> Displayed(editing, profile, draft[name := value], field) == value
    ensures field != name ==> Displayed(editing, profile, draft[name := value], field) == Displayed(editing, profile, draft, field)
  {
  }

  class ProfilePage {
    var profile: Fields
    var editedProfile: Fields
    var isEditing: bool
    var error: string
    var success: string

    constructor ()
      ensures profile == BlankProfile() && editedProfile == map[] && !isEditing
      ensures error == "" && success == ""
    {
      profile := BlankProfile();
      editedProfile := map[];
      isEditing := false;
      error, success := "", "";
    }

    function Shown(field: string): (r: string)
      reads this
      ensures r == Displayed(isEditing, profile, editedProfile, field)
    {
      Displayed(isEditing, profile, editedProfile, field)
    }

    /** `fetchProfile`, given the outcome of the request. */
    method FetchProfile(store: LocalStorage, outcome: Outcome<Fields>)
      modifies this
      ensures store.Read("token") == "" ==>
                error == LoginToViewText &&
                profile == old(profile) && editedProfile == old(editedProfile)
      ensures store.Read("token") != "" && outcome.Ok? ==>
                profile == outcome.data && editedProfile == outcome.data && error == old(error)
      ensures store.Read("token") != "" && outcome.Fail? ==>
                error == ServerText(outcome.err, FetchFailedText) &&
                profile == old(profile) && editedProfile == old(editedProfile)
      ensures isEditing == old(isEditing) && success == old(success)
    {
      if store.Read("token") == "" {
        error := LoginToViewText;
        return;
      }
      match outcome {
        case Ok(data) =>
          profile := data;
          editedProfile := data;
        case Fail(e) =>
          error := ServerText(e, FetchFailedText);
      }
    }

    /** `handleInputChange`: changes one field of the draft. */
    method HandleInputChange(name: string, value: string)
      modifies this
      ensures editedProfile == old(editedProfile)[name := value]
      ensures profile == old(profile) && isEditing == old(isEditing)
      ensures error == old(error) && success == old(success)
    {
      editedProfile := editedProfile[name := value];
    }

    /** `handleEdit`. */
    method HandleEdit()
      modifies this
      ensures isEditing
      ensures profile == old(profile) && editedProfile == old(editedProfile)
      ensures error == old(error) && success == old(success)
    {
      isEditing := true;
    }

    /** `handleCancel`: the draft goes back to the committed profile. */
    method HandleCancel()
      modifies this
      ensures editedProfile == profile && !isEditing && error == ""
      ensures profile == old(profile) && success == old(success)
      ensures forall field :: Shown(field) == Get(old(profile), field)
    {
      editedProfile := profile;
      isEditing := false;
      error := "";
    }

    /** `handleSave`, given the outcome of the request; returns the body sent. The timer
        that later clears the success message is not part of this model. */
    method HandleSave(outcome: Outcome<Fields>) returns (sent: Fields)
      modifies this
      ensures sent == old(editedProfile)
      ensures outcome.Ok? ==>
                profile == outcome.data && editedProfile == outcome.data && !isEditing &&
                success == UpdatedText && error == old(error)
      ensures outcome.Fail? ==>
                error == ServerText(outcome.err, UpdateFailedText) &&
                profile == old(profile) && editedProfile == old(editedProfile) &&
                isEditing == old(isEditing) && success == old(success)
    {
      sent := editedProfile;
      match outcome {
        case Ok(data) =>
          profile := data;
          editedProfile := data;
          isEditing := false;
          success := UpdatedText;
        case Fail(e) =>
          error := ServerText(e, UpdateFailedText);
      }
    }
  }
}
