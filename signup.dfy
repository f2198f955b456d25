/** The patient sign-up page: a fixed-order chain of input checks, an optional
    upload of a past-history file, and the `auth.signUp` call whose metadata
    makes the new account a patient. */
module Signup {
  import opened Common
  import opened Validators
  import opened Store
  import opened Auth
  import SiteUrl

  /** The text fields of the form. */
  datatype SignupForm = SignupForm(
    fullName: string,
    dob: string,
    phone: string,
    address: string,
    gender: string,
    emergencyName: string,
    emergencyPhone: string,
    insuranceProvider: string,
    insurancePolicy: string,
    allergies: string,
    pastHistory: string,
    email: string,
    password: string)

  const RequiredMessage := "Please fill all required fields."
  const PhoneMessage := "Phone number must be exactly 10 digits."
  const EmergencyPhoneMessage := "Emergency contact phone number must be exactly 10 digits."
  const UploadFailedMessage := "File upload failed"
  const HistoryBucket := "ehr-files"

  /** The nine fields the form requires to be non-empty. */
  predicate Filled(f: SignupForm) {
    f.fullName != "" && f.dob != "" && f.phone != "" && f.address != "" && f.gender != ""
    && f.emergencyName != "" && f.emergencyPhone != "" && f.email != "" && f.password != ""
  }

  /** The checks of `handleSignup` in their order; the first that fails gives the message shown. */
  function SignupError(f: SignupForm): (r: Option<string>)
    ensures r == Some(RequiredMessage) <==> !Filled(f)
    ensures r == Some(EmailMessage) <==> Filled(f) && !ValidEmail(f.email)
    ensures r == Some(PasswordMessage) <==> Filled(f) && ValidEmail(f.email) && !ValidPassword(f.password)
    ensures r == Some(PhoneMessage) <==> Filled(f) && ValidEmail(f.email) && ValidPassword(f.password) && !ValidPhone(f.phone)
    ensures r == Some(EmergencyPhoneMessage) <==>
      Filled(f) && ValidEmail(f.email) && ValidPassword(f.password) && ValidPhone(f.phone) && !ValidPhone(f.emergencyPhone)
    ensures r == None <==>
      Filled(f) && ValidEmail(f.email) && ValidPassword(f.password) && ValidPhone(f.phone) && ValidPhone(f.emergencyPhone)
  {
    if !Filled(f) then Some(RequiredMessage)
    else if !ValidEmail(f.email) then Some(EmailMessage)
    else if !ValidPassword(f.password) then Some(PasswordMessage)
    else if !ValidPhone(f.phone) then Some(PhoneMessage)
    else if !ValidPhone(f.emergencyPhone) then Some(EmergencyPhoneMessage)
    else None
  }

  /** A form whose phone fields went through the input sanitiser passes the phone checks
      exactly when each field received at least ten digits. */
  lemma SanitizedPhonesPassIff(f: SignupForm, typedPhone: string, typedEmergency: string)
    requires f.phone == SanitizePhone(typedPhone) && f.emergencyPhone == SanitizePhone(typedEmergency)
    requires Filled(f) && ValidEmail(f.email) && ValidPassword(f.password)
    ensures SignupError(f) == None <==> |Digits(typedPhone)| >= 10 && |Digits(typedEmergency)| >= 10
  {
    SanitizedPhoneValidIff(typedPhone);
    SanitizedPhoneValidIff(typedEmergency);
  }

  /** `patient-docs/${Date.now()}_${name}`: where the history file is stored. */
  function HistoryPath(now: nat, name: string): string {
    "patient-docs/" + TimestampedName(now, name)
  }

  /** The `file_url` recorded in the metadata: the bucket name, then the path. */
  function HistoryFileUrl(now: nat, name: string): string {
    HistoryBucket + "/" + HistoryPath(now, name)
  }

  /** Distinct (time, name) pairs give distinct paths, so one sign-up's file cannot land on
      another's path. */
  lemma HistoryPathInjective(t1: nat, n1: string, t2: nat, n2: string)
    requires HistoryPath(t1, n1) == HistoryPath(t2, n2)
    ensures t1 == t2 && n1 == n2
  {
    var prefix := "patient-docs/";
    assert HistoryPath(t1, n1)[|prefix|..] == TimestampedName(t1, n1);
    assert HistoryPath(t2, n2)[|prefix|..] == TimestampedName(t2, n2);
    TimestampedNameInjective(t1, n1, t2, n2);
  }

  /** The metadata sent with the sign-up: the form's fields, the file URL, and role 'patient'. */
  function Metadata(f: SignupForm, fileUrl: Option<string>): (m: SignupMetadata)
    ensures m.role == "patient" && m.pastHistoryFile == fileUrl
  {
    SignupMetadata(f.fullName, f.dob, f.phone, f.address, f.gender, f.emergencyName, f.emergencyPhone,
                   f.insuranceProvider, f.insurancePolicy, f.allergies, f.pastHistory, fileUrl, "patient")
  }

  /** The `auth.signUp` call the page sends; the confirmation link leads to `/auth/callback`. */
  function Request(f: SignupForm, fileUrl: Option<string>, env: SiteUrl.Env): SignUpRequest {
    SignUpRequest(f.email, f.password, Metadata(f, fileUrl), SiteUrl.GetSiteUrl(env) + "/auth/callback")
  }

  /** The page's state: the form, the picked file, and the flags and messages it shows. */
  class SignupPage {
    var form: SignupForm
    var historyFile: Option<UploadFile>
    var loading: bool
    var error: Option<string>
    var validationError: Option<string>
    /** Set once the page has sent the browser on to '/login'. */
    var redirectedToLogin: bool
    const auth: AuthService
    const storage: Storage

    constructor (form: SignupForm, historyFile: Option<UploadFile>, auth: AuthService, storage: Storage)
      ensures this.form == form && this.historyFile == historyFile
      ensures !loading && error == None && validationError == None && !redirectedToLogin
      ensures this.auth == auth && this.storage == storage
    {
      this.form, this.historyFile := form, historyFile;
      loading, error, validationError, redirectedToLogin := false, None, None, false;
      this.auth, this.storage := auth, storage;
    }

    /** `handleSignup`. A failed check shows its message and stops before anything is
        uploaded or sent. Otherwise a picked file is uploaded first; if that fails the
        sign-up is not sent. The sign-up carries role 'patient' and the file's URL, and
        its outcome decides between an error and the move to '/login'. `now` stands for
        `Date.now()` and `env` for the deployment's environment. */
    method HandleSignup(now: nat, env: SiteUrl.Env, uploadFails: bool, signUpError: Option<string>)
      modifies this, auth, storage
      ensures form == old(form) && historyFile == old(historyFile)
      ensures validationError == SignupError(form)
      ensures auth.resetRequests == old(auth.resetRequests) && auth.passwordUpdates == old(auth.passwordUpdates)
      ensures auth.metadataRoles == old(auth.metadataRoles)
      ensures SignupError(form).Some? ==>
        && loading == old(loading) && error == None && redirectedToLogin == old(redirectedToLogin)
        && storage.objects == old(storage.objects) && auth.signUps == old(auth.signUps)
      ensures SignupError(form).None? ==> !loading
      ensures SignupError(form).None? && historyFile.None? ==> storage.objects == old(storage.objects)
      ensures SignupError(form).None? && historyFile.Some? ==>
        var name := historyFile.value.name;
        storage.objects == old(storage.objects) + (if uploadFails then [] else [StoredObject(HistoryBucket, HistoryPath(now, name), name)])
      ensures SignupError(form).None? && historyFile.Some? && uploadFails ==>
        error == Some(UploadFailedMessage) && auth.signUps == old(auth.signUps) && redirectedToLogin == old(redirectedToLogin)
      ensures SignupError(form).None? && !(historyFile.Some? && uploadFails) ==>
        var url := if historyFile.Some? then Some(HistoryFileUrl(now, historyFile.value.name)) else None;
        && auth.signUps == old(auth.signUps) + [Request(form, url, env)]
        && error == signUpError
        && redirectedToLogin == (old(redirectedToLogin) || signUpError.None?)
    {
      validationError := SignupError(form);
      error := None;
      if validationError.Some? {
        return;
      }
      loading := true;
      var fileUrl: Option<string> := None;
      if historyFile.Some? {
        var name := historyFile.value.name;
        var uploaded := storage.Upload(HistoryBucket, HistoryPath(now, name), historyFile.value, uploadFails);
        if !uploaded {
          error := Some(UploadFailedMessage);
          loading := false;
          return;
        }
        fileUrl := Some(HistoryFileUrl(now, name));
      }
      var err := auth.SignUp(Request(form, fileUrl, env), signUpError);
      loading := false;
      if err.Some? {
        error := err;
      } else {
        redirectedToLogin := true;
      }
    }
  }
}
