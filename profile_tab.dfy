/** The patient's profile tab: it loads the patient's profile row, lets the
    patient edit five fields, and saves exactly those five back to the table. */
module ProfileTab {
  import opened Common
  import opened Store

  const LoadFailedMessage := "Failed to load profile"
  const NotAuthenticatedMessage := "Not authenticated"
  const UpdateFailedMessage := "Failed to update profile"

  /** The five editable inputs of the form. */
  datatype Field = Phone | Address | Gender | Allergies | PastMedicalHistory

  /** The edit form seeded from a profile, or the empty form `{}` when there is none. */
  function FormOf(profile: Option<Profile>): (f: ProfilePatch)
    ensures profile.None? ==> f == ProfilePatch(None, None, None, None, None)
    ensures profile.Some? ==> Patched(profile.value, f) == profile.value
  {
    if profile.None? then ProfilePatch(None, None, None, None, None)
    else
      var p := profile.value;
      ProfilePatch(p.phone, p.address, p.gender, p.allergies, p.pastMedicalHistory)
  }

  /** The form after one input's `onChange`: that field takes the typed text, the others stay. */
  function WithField(f: ProfilePatch, field: Field, value: string): (r: ProfilePatch)
    ensures field == Phone ==> r == f.(phone := Some(value))
    ensures field == Address ==> r == f.(address := Some(value))
    ensures field == Gender ==> r == f.(gender := Some(value))
    ensures field == Allergies ==> r == f.(allergies := Some(value))
    ensures field == PastMedicalHistory ==> r == f.(pastMedicalHistory := Some(value))
  {
    match field
    case Phone => f.(phone := Some(value))
    case Address => f.(address := Some(value))
    case Gender => f.(gender := Some(value))
    case Allergies => f.(allergies := Some(value))
    case PastMedicalHistory => f.(pastMedicalHistory := Some(value))
  }

  /** The local profile after a successful save: the five fields take the payload, a missing
      profile stays missing. */
  function SavedProfile(profile: Option<Profile>, payload: ProfilePatch): (r: Option<Profile>)
    ensures r.None? <==> profile.None?
    ensures r.Some? ==> r.value == Patched(profile.value, payload)
  {
    if profile.Some? then Some(Patched(profile.value, payload)) else None
  }

  /** Saving a form that was seeded from the profile and not edited leaves the local profile as it was. */
  lemma SavingUneditedFormChangesNothing(profile: Option<Profile>)
    ensures SavedProfile(profile, FormOf(profile)) == profile
  {
  }

  /** After a successful save the local profile agrees with the patched table row: both are the
      old row with the five fields replaced by the payload. */
  lemma SavedProfileMatchesRow(rows: seq<Profile>, userId: string, payload: ProfilePatch, i: nat)
    requires i < |rows| && rows[i].id == userId
    ensures SavedProfile(Some(rows[i]), payload) == Some(ProfilesPatched(rows, userId, payload)[i])
  {
  }

  class ProfileTabView {
    var profile: Option<Profile>
    var loading: bool
    var error: Option<string>
    var isEditing: bool
    var editForm: ProfilePatch
    var saveLoading: bool
    /** Set once the tab has sent the browser to '/login'. */
    var redirectedToLogin: bool
    const db: Database

    constructor (db: Database)
      ensures this.db == db && profile == None && loading && error == None && !isEditing
      ensures editForm == FormOf(None) && !saveLoading && !redirectedToLogin
    {
      this.db := db;
      profile, loading, error, isEditing := None, true, None, false;
      editForm, saveLoading, redirectedToLogin := FormOf(None), false, false;
    }

    /** The mount effect: without a session, go to '/login'; otherwise load the one profile row
        of the user into both the profile and the form, or show the load error. */
    method FetchProfile(userId: Option<string>, fails: bool)
      modifies this
      ensures isEditing == old(isEditing) && saveLoading == old(saveLoading)
      ensures !loading
      ensures userId.None? ==>
        && redirectedToLogin && profile == old(profile) && editForm == old(editForm) && error == old(error)
      ensures userId.Some? ==>
        var row := SingleProfile(db.profiles, userId.value, fails);
        && redirectedToLogin == old(redirectedToLogin)
        && (row.Some? ==> profile == row && editForm == FormOf(row) && error == old(error))
        && (row.None? ==> profile == old(profile) && editForm == old(editForm) && error == Some(LoadFailedMessage))
    {
      if userId.None? {
        redirectedToLogin := true;
        loading := false;
        return;
      }
      var row := SingleProfile(db.profiles, userId.value, fails);
      if row.Some? {
        profile := row;
        editForm := FormOf(row);
      } else {
        error := Some(LoadFailedMessage);
      }
      loading := false;
    }

    /** `handleEdit`. */
    method HandleEdit()
      modifies this
      ensures isEditing
      ensures profile == old(profile) && editForm == old(editForm) && error == old(error)
      ensures saveLoading == old(saveLoading) && loading == old(loading) && redirectedToLogin == old(redirectedToLogin)
    {
      isEditing := true;
    }

    /** An input's `onChange`: only that field of the form changes. */
    method ChangeField(field: Field, value: string)
      modifies this
      ensures editForm == WithField(old(editForm), field, value)
      ensures profile == old(profile) && isEditing == old(isEditing) && error == old(error)
      ensures saveLoading == old(saveLoading) && loading == old(loading) && redirectedToLogin == old(redirectedToLogin)
    {
      editForm := WithField(editForm, field, value);
    }

    /** `handleCancel`: leave editing and throw the edits away. */
    method HandleCancel()
      modifies this
      ensures !isEditing && editForm == FormOf(profile)
      ensures profile == old(profile) && error == old(error)
      ensures saveLoading == old(saveLoading) && loading == old(loading) && redirectedToLogin == old(redirectedToLogin)
    {
      isEditing := false;
      editForm := FormOf(profile);
    }

    /** `handleSave`: without a session nothing is sent; otherwise the five form fields are sent
        as one update of the user's row. A failure keeps the tab in editing mode with the local
        profile as it was; a success patches the local profile and leaves editing mode. */
    method HandleSave(userId: Option<string>, fails: bool)
      requires db.Valid()
      modifies this, db
      ensures db.Valid() && !saveLoading
      ensures editForm == old(editForm) && loading == old(loading) && redirectedToLogin == old(redirectedToLogin)
      ensures db.appointments == old(db.appointments) && db.records == old(db.records)
      ensures userId.None? ==>
        && error == Some(NotAuthenticatedMessage) && db.profiles == old(db.profiles)
        && profile == old(profile) && isEditing == old(isEditing)
      ensures userId.Some? && fails ==>
        && error == Some(UpdateFailedMessage) && db.profiles == old(db.profiles)
        && profile == old(profile) && isEditing == old(isEditing)
      ensures userId.Some? && !fails ==>
        && db.profiles == ProfilesPatched(old(db.profiles), userId.value, editForm)
        && profile == SavedProfile(old(profile), editForm)
        && !isEditing && error == old(error)
    {
      saveLoading := true;
      if userId.None? {
        error := Some(NotAuthenticatedMessage);
        saveLoading := false;
        return;
      }
      var payload := editForm;
      var ok := db.UpdateProfile(userId.value, payload, fails);
      if !ok {
        error := Some(UpdateFailedMessage);
        saveLoading := false;
        return;
      }
      profile := SavedProfile(profile, payload);
      isEditing := false;
      saveLoading := false;
    }
  }
}
