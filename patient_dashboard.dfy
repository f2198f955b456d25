/** The patient's dashboard page: it checks the session, loads the signed-in
    user's profile only if that profile is a patient's, explains why when it is
    not, and shows one of three tabs. */
module PatientDashboard {
  import opened Common
  import opened Store

  const SessionFailedMessage := "Failed to get session"
  const NotFoundMessage := "Profile not found. Please complete your registration."
  const LoadFailedMessage := "Failed to load profile. Please try again."

  /** The message for a user whose one profile row has another role. */
  function AccessDeniedMessage(role: string): string {
    "Access denied. Your account is registered as a " + role + "."
  }

  /** How loading the profile ends: with the patient's row, or with the message shown. */
  datatype ProfileLoad = Loaded(profile: Profile) | Failed(message: string)

  /** The rows `.eq('id', userId).eq('role', 'patient')` selects. */
  function PatientRows(profiles: seq<Profile>, userId: string): (r: seq<Profile>)
    ensures forall p :: p in r <==> p in profiles && p.id == userId && p.role == "patient"
  {
    Filter(profiles, (p: Profile) => p.id == userId && p.role == "patient")
  }

  /** The profile query of `fetchProfile` and its error handling. `fails` stands for a failure
      of the query other than the wrong number of rows, and `lookupFails` for a failure of the
      second, role-only query. With exactly one patient row that row is loaded. With any other
      number of rows (the error code PGRST116 of `.single()`) the second query decides: a
      single row of the user under another role is named in the message, and none gives
      'Profile not found'. */
  function LoadProfile(profiles: seq<Profile>, userId: string, fails: bool, lookupFails: bool): (r: ProfileLoad)
    ensures r.Loaded? <==> !fails && |PatientRows(profiles, userId)| == 1
    ensures r.Loaded? ==> r.profile in profiles && r.profile.id == userId && r.profile.role == "patient"
    ensures fails ==> r == Failed(LoadFailedMessage)
  {
    var rows := PatientRows(profiles, userId);
    if fails then Failed(LoadFailedMessage)
    else if |rows| == 1 then Loaded(rows[0])
    else
      var other := SingleProfile(profiles, userId, lookupFails);
      if other.Some? then Failed(AccessDeniedMessage(other.value.role)) else Failed(NotFoundMessage)
  }

  /** When the user has exactly one profile row and the queries succeed, the page loads it if it
      is a patient's and otherwise names its role, which is then never 'patient'. */
  lemma OneRowLoadsOrNamesItsRole(profiles: seq<Profile>, userId: string, row: Profile)
    requires Filter(profiles, (p: Profile) => p.id == userId) == [row]
    ensures row.role == "patient" ==> LoadProfile(profiles, userId, false, false) == Loaded(row)
    ensures row.role != "patient" ==> LoadProfile(profiles, userId, false, false) == Failed(AccessDeniedMessage(row.role))
  {
    var byId := Filter(profiles, (p: Profile) => p.id == userId);
    var rows := PatientRows(profiles, userId);
    assert rows == Filter(byId, (p: Profile) => p.role == "patient") by {
      FilterCommutes(profiles, (p: Profile) => p.id == userId, (p: Profile) => p.role == "patient");
      assert Filter(profiles, (p: Profile) => p.id == userId && p.role == "patient")
          == Filter(Filter(profiles, (p: Profile) => p.role == "patient"), (p: Profile) => p.id == userId) by {
        FilterOfBoth(profiles, userId);
      }
    }
    assert byId[1..] == [];
  }

  /** Filtering by id and role at once is filtering by role, then by id. */
  lemma {:induction false} FilterOfBoth(profiles: seq<Profile>, userId: string)
    ensures Filter(profiles, (p: Profile) => p.id == userId && p.role == "patient")
         == Filter(Filter(profiles, (p: Profile) => p.role == "patient"), (p: Profile) => p.id == userId)
  {
    if profiles != [] {
      FilterOfBoth(profiles[1..], userId);
      var head := if profiles[0].role == "patient" then [profiles[0]] else [];
      FilterAppend(head, Filter(profiles[1..], (p: Profile) => p.role == "patient"), (p: Profile) => p.id == userId);
    }
  }

  /** A user with no profile row at all is told to complete the registration. */
  lemma NoRowIsNotFound(profiles: seq<Profile>, userId: string, lookupFails: bool)
    requires forall p :: p in profiles ==> p.id != userId
    ensures LoadProfile(profiles, userId, false, lookupFails) == Failed(NotFoundMessage)
  {
    FilterKeepsNone(profiles, (p: Profile) => p.id == userId && p.role == "patient");
    FilterKeepsNone(profiles, (p: Profile) => p.id == userId);
  }

  /** The three tabs of the dashboard, by the value `activeTab` holds for each. */
  datatype Tab = ProfileTab | AppointmentsTab | RecordsTab

  function TabName(t: Tab): string {
    match t
    case ProfileTab => "profile"
    case AppointmentsTab => "appointments"
    case RecordsTab => "records"
  }

  /** The tab components the page renders for an `activeTab` value, in page order. */
  function ShownTabs(activeTab: string): (r: seq<Tab>)
    ensures forall t :: t in r <==> TabName(t) == activeTab
  {
    (if activeTab == "profile" then [ProfileTab] else [])
    + (if activeTab == "appointments" then [AppointmentsTab] else [])
    + (if activeTab == "records" then [RecordsTab] else [])
  }

  /** Whichever tab was picked last, the page renders that one tab and no other. */
  lemma OneTabShown(t: Tab)
    ensures ShownTabs(TabName(t)) == [t]
  {
  }

  class PatientDashboardView {
    var activeTab: string
    var profile: Option<Profile>
    var loading: bool
    var error: Option<string>
    /** Set once the page has sent the browser to '/login'. */
    var redirectedToLogin: bool
    const db: Database

    constructor (db: Database)
      ensures this.db == db && activeTab == TabName(ProfileTab) && ShownTabs(activeTab) == [ProfileTab]
      ensures profile == None && loading && error == None && !redirectedToLogin
    {
      this.db := db;
      activeTab, profile, loading, error, redirectedToLogin := "profile", None, true, None, false;
    }

    /** The mount effect `fetchProfile`: a session error shows its message; without a signed-in
        user the page goes to '/login' and queries nothing; otherwise the profile loads or its
        failure is shown. Loading ends in every case. */
    method FetchProfile(sessionFails: bool, userId: Option<string>, fails: bool, lookupFails: bool)
      modifies this
      ensures !loading && activeTab == old(activeTab)
      ensures sessionFails ==>
        error == Some(SessionFailedMessage) && profile == old(profile) && redirectedToLogin == old(redirectedToLogin)
      ensures !sessionFails && userId.None? ==>
        redirectedToLogin && profile == old(profile) && error == old(error)
      ensures !sessionFails && userId.Some? ==>
        var r := LoadProfile(db.profiles, userId.value, fails, lookupFails);
        && redirectedToLogin == old(redirectedToLogin)
        && (r.Loaded? ==> profile == Some(r.profile) && error == old(error))
        && (r.Failed? ==> profile == old(profile) && error == Some(r.message))
    {
      if sessionFails {
        error := Some(SessionFailedMessage);
        loading := false;
        return;
      }
      if userId.None? {
        redirectedToLogin := true;
        loading := false;
        return;
      }
      var r := LoadProfile(db.profiles, userId.value, fails, lookupFails);
      if r.Loaded? {
        profile := Some(r.profile);
      } else {
        error := Some(r.message);
      }
      loading := false;
    }

    /** A sidebar button: the picked tab becomes the one shown. */
    method SelectTab(t: Tab)
      modifies this
      ensures activeTab == TabName(t) && ShownTabs(activeTab) == [t]
      ensures profile == old(profile) && loading == old(loading) && error == old(error)
      ensures redirectedToLogin == old(redirectedToLogin)
    {
      activeTab := TabName(t);
    }
  }
}
