/** The login page: an e-mail check, the password sign-in, and the choice of
    dashboard by the user's role, read from the account's metadata or, when that
    has none, from the user's profile row and written back to the metadata. */
module Login {
  import opened Common
  import opened Validators
  import opened Store
  import opened Auth

  const UserNotFoundText := "User not found"
  const UnknownRoleMessage := "Unable to determine user role. Please contact support."
  const DoctorDashboard := "/dashboard/doctor"
  const PatientDashboard := "/dashboard/patient"

  /** `Error fetching user: ${userError?.message || 'User not found'}`. */
  function UserErrorMessage(userError: Option<string>): (m: string)
    ensures Truthy(userError) ==> m == "Error fetching user: " + userError.value
    ensures !Truthy(userError) ==> m == "Error fetching user: " + UserNotFoundText
  {
    "Error fetching user: " + (if Truthy(userError) then userError.value else UserNotFoundText)
  }

  /** `.from('profiles').select('role').eq('id', id).single()`: the role of the user's one
      profile row, or an error. */
  function ProfileRole(profiles: seq<Profile>, id: string, fails: bool): (r: Option<string>)
    ensures r.Some? ==> exists p :: p in profiles && p.id == id && p.role == r.value
    ensures r.Some? <==> !fails && |Filter(profiles, (p: Profile) => p.id == id)| == 1
    ensures r.Some? ==> forall p :: p in profiles && p.id == id ==> r == Some(p.role)
  {
    var row := SingleProfile(profiles, id, fails);
    if row.Some? then
      OnlyRowWithId(profiles, id, row.value);
      Some(row.value.role)
    else None
  }

  /** When exactly one row has the id, every row with that id is that row. */
  lemma OnlyRowWithId(profiles: seq<Profile>, id: string, row: Profile)
    requires Filter(profiles, (p: Profile) => p.id == id) == [row]
    ensures forall p :: p in profiles && p.id == id ==> p == row
  {
    forall p | p in profiles && p.id == id ensures p == row {
      var i :| 0 <= i < |profiles| && profiles[i] == p;
      assert profiles[i] in Filter(profiles, (p: Profile) => p.id == id);
    }
  }

  /** The role the handler ends with. A truthy metadata role is used as it is. Otherwise the
      profile's role is used only when the lookup gives a non-empty one and writing it back to
      the metadata succeeds; in every other case the role keeps its falsy metadata value. */
  function ResolvedRole(metadataRole: Option<string>, profiles: seq<Profile>, userId: string,
                        lookupFails: bool, writeBackFails: bool): Option<string>
  {
    if Truthy(metadataRole) then metadataRole
    else
      var looked := ProfileRole(profiles, userId, lookupFails);
      if looked.Some? && looked.value != "" && !writeBackFails then looked else metadataRole
  }

  /** Where the role sends the browser: doctors and patients to their dashboards, nobody else anywhere. */
  function Destination(role: Option<string>): (d: Option<string>)
    ensures d == Some(DoctorDashboard) <==> role == Some("doctor")
    ensures d == Some(PatientDashboard) <==> role == Some("patient")
    ensures d.None? <==> role != Some("doctor") && role != Some("patient")
  {
    if role == Some("doctor") then Some(DoctorDashboard)
    else if role == Some("patient") then Some(PatientDashboard)
    else None
  }

  /** The role resolution, stated against its sources: the result is the metadata role, or
      the one profile row's role after a successful write-back, or a falsy value. */
  lemma ResolvedRoleMeaning(metadataRole: Option<string>, profiles: seq<Profile>, userId: string,
                            lookupFails: bool, writeBackFails: bool)
    ensures var r := ResolvedRole(metadataRole, profiles, userId, lookupFails, writeBackFails);
      && (Truthy(metadataRole) ==> r == metadataRole)
      && (!Truthy(metadataRole) && (lookupFails || writeBackFails) ==> !Truthy(r))
      && (Truthy(r) && !Truthy(metadataRole) ==> exists p :: p in profiles && p.id == userId && p.role == r.value)
      && (!Truthy(metadataRole) && Truthy(ProfileRole(profiles, userId, lookupFails)) && !writeBackFails ==>
            r == ProfileRole(profiles, userId, lookupFails))
  {
  }

  /** A user whose only profile row says 'doctor', and whose metadata has no role, reaches the
      doctor dashboard when the write-back succeeds, and no dashboard when it fails. */
  lemma ProfileRoleNeedsWriteBack(profiles: seq<Profile>, userId: string)
    requires |Filter(profiles, (p: Profile) => p.id == userId)| == 1
    requires forall p :: p in profiles && p.id == userId ==> p.role == "doctor"
    ensures Destination(ResolvedRole(None, profiles, userId, false, false)) == Some(DoctorDashboard)
    ensures Destination(ResolvedRole(None, profiles, userId, false, true)).None?
  {
    var rows := Filter(profiles, (p: Profile) => p.id == userId);
    assert rows[0] in profiles && rows[0].id == userId;
  }

  class LoginPage {
    var email: string
    var password: string
    var loading: bool
    var error: Option<string>
    var validationError: Option<string>
    /** The dashboard the page has sent the browser to, if any. */
    var destination: Option<string>
    const auth: AuthService
    const db: Database

    constructor (email: string, password: string, auth: AuthService, db: Database)
      ensures this.email == email && this.password == password
      ensures !loading && error == None && validationError == None && destination == None
      ensures this.auth == auth && this.db == db
    {
      this.email, this.password := email, password;
      loading, error, validationError, destination := false, None, None, None;
      this.auth, this.db := auth, db;
    }

    /** `handleLogin`. The sign-in's outcome is `signInError`; `user`/`userError` stand for
        `auth.getUser`; `lookupFails` for a failure of the profile query itself; and
        `writeBackError` for the outcome of writing the role back to the metadata. */
    method HandleLogin(signInError: Option<string>, user: Option<AuthUser>, userError: Option<string>,
                       lookupFails: bool, writeBackError: Option<string>)
      modifies this, auth
      ensures email == old(email) && password == old(password)
      ensures auth.signUps == old(auth.signUps) && auth.resetRequests == old(auth.resetRequests)
      ensures auth.passwordUpdates == old(auth.passwordUpdates)
      ensures old(loading) ==>
        && loading && error == old(error) && validationError == old(validationError)
        && destination == old(destination) && auth.metadataRoles == old(auth.metadataRoles)
      ensures !old(loading) && !ValidEmail(email) ==>
        && validationError == Some(EmailMessage) && error == None && !loading
        && destination == old(destination) && auth.metadataRoles == old(auth.metadataRoles)
      ensures !old(loading) && ValidEmail(email) ==> validationError == None && !loading
      ensures !old(loading) && ValidEmail(email) && signInError.Some? ==>
        && error == signInError && destination == old(destination) && auth.metadataRoles == old(auth.metadataRoles)
      ensures !old(loading) && ValidEmail(email) && signInError.None? && (userError.Some? || user.None?) ==>
        && error == Some(UserErrorMessage(userError)) && destination == old(destination)
        && auth.metadataRoles == old(auth.metadataRoles)
      ensures !old(loading) && ValidEmail(email) && signInError.None? && userError.None? && user.Some? ==>
        var role := ResolvedRole(user.value.metadataRole, db.profiles, user.value.id, lookupFails, writeBackError.Some?);
        && error == (if Destination(role).None? then Some(UnknownRoleMessage) else None)
        && destination == (if Destination(role).None? then old(destination) else Destination(role))
        && auth.metadataRoles == WrittenBack(old(auth.metadataRoles), user.value, db.profiles, lookupFails, writeBackError.Some?)
    {
      if loading {
        return;
      }
      validationError := None;
      error := None;
      if !ValidEmail(email) {
        validationError := Some(EmailMessage);
        return;
      }
      loading := true;
      if signInError.Some? {
        loading := false;
        error := signInError;
        return;
      }
      if userError.Some? || user.None? {
        loading := false;
        error := Some(UserErrorMessage(userError));
        return;
      }
      var role := LookUpRole(user.value, lookupFails, writeBackError);
      loading := false;
      var target := Destination(role);
      if target.Some? {
        destination := target;
      } else {
        error := Some(UnknownRoleMessage);
      }
    }

    /** Lines 57-81 of the handler: the metadata role, or the profile's role written back. */
    method LookUpRole(user: AuthUser, lookupFails: bool, writeBackError: Option<string>) returns (role: Option<string>)
      modifies auth
      ensures role == ResolvedRole(user.metadataRole, db.profiles, user.id, lookupFails, writeBackError.Some?)
      ensures auth.metadataRoles == WrittenBack(old(auth.metadataRoles), user, db.profiles, lookupFails, writeBackError.Some?)
      ensures auth.signUps == old(auth.signUps) && auth.resetRequests == old(auth.resetRequests)
      ensures auth.passwordUpdates == old(auth.passwordUpdates)
    {
      role := user.metadataRole;
      if !Truthy(role) {
        var looked := ProfileRole(db.profiles, user.id, lookupFails);
        if looked.Some? && looked.value != "" {
          var err := auth.UpdateRole(user.id, looked.value, writeBackError);
          if err.None? {
            role := looked;
          }
        }
      }
    }
  }

  /** The metadata after the handler: it changes exactly when the role the handler ends with
      came from the profile rather than from the metadata, and then holds that role. */
  function WrittenBack(roles: map<string, string>, user: AuthUser, profiles: seq<Profile>,
                       lookupFails: bool, writeBackFails: bool): (r: map<string, string>)
    ensures var role := ResolvedRole(user.metadataRole, profiles, user.id, lookupFails, writeBackFails);
      if role != user.metadataRole then role.Some? && r == roles[user.id := role.value] else r == roles
  {
    var looked := ProfileRole(profiles, user.id, lookupFails);
    if !Truthy(user.metadataRole) && looked.Some? && looked.value != "" && !writeBackFails
    then roles[user.id := looked.value]
    else roles
  }
}
