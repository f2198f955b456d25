/** The hosted authentication service, held in memory as the log of the calls
    the pages make to it. As with the tables, each call takes its outcome as a
    parameter: an error message, or `None` when the call succeeds. */
module Auth {
  import opened Common

  /** The `options.data` the sign-up form attaches to a new account. */
  datatype SignupMetadata = SignupMetadata(
    fullName: string,
    dob: string,
    phone: string,
    address: string,
    gender: string,
    emergencyContactName: string,
    emergencyContactPhone: string,
    insuranceProvider: string,
    insurancePolicyNumber: string,
    allergies: string,
    pastMedicalHistory: string,
    pastHistoryFile: Option<string>,
    role: string)

  /** One `auth.signUp` call. */
  datatype SignUpRequest = SignUpRequest(email: string, password: string, metadata: SignupMetadata, emailRedirectTo: string)

  /** One `auth.resetPasswordForEmail` call. */
  datatype ResetRequest = ResetRequest(email: string, redirectTo: string)

  /** The signed-in user as `auth.getUser` returns it: an id and the metadata's `role`. */
  datatype AuthUser = AuthUser(id: string, metadataRole: Option<string>)

  class AuthService {
    var signUps: seq<SignUpRequest>
    var resetRequests: seq<ResetRequest>
    var passwordUpdates: seq<string>
    /** The roles written into user metadata by `auth.updateUser({ data: { role } })`, by user id. */
    var metadataRoles: map<string, string>

    constructor ()
      ensures signUps == [] && resetRequests == [] && passwordUpdates == [] && metadataRoles == map[]
    {
      signUps, resetRequests, passwordUpdates, metadataRoles := [], [], [], map[];
    }

    /** `auth.signUp(request)`: the request is sent whatever its outcome. */
    method SignUp(request: SignUpRequest, outcome: Option<string>) returns (err: Option<string>)
      modifies this
      ensures err == outcome
      ensures signUps == old(signUps) + [request]
      ensures resetRequests == old(resetRequests) && passwordUpdates == old(passwordUpdates) && metadataRoles == old(metadataRoles)
    {
      err := outcome;
      signUps := signUps + [request];
    }

    /** `auth.resetPasswordForEmail(email, { redirectTo })`. */
    method RequestReset(request: ResetRequest, outcome: Option<string>) returns (err: Option<string>)
      modifies this
      ensures err == outcome
      ensures resetRequests == old(resetRequests) + [request]
      ensures signUps == old(signUps) && passwordUpdates == old(passwordUpdates) && metadataRoles == old(metadataRoles)
    {
      err := outcome;
      resetRequests := resetRequests + [request];
    }

    /** `auth.updateUser({ password })`. */
    method UpdatePassword(password: string, outcome: Option<string>) returns (err: Option<string>)
      modifies this
      ensures err == outcome
      ensures passwordUpdates == old(passwordUpdates) + [password]
      ensures signUps == old(signUps) && resetRequests == old(resetRequests) && metadataRoles == old(metadataRoles)
    {
      err := outcome;
      passwordUpdates := passwordUpdates + [password];
    }

    /** `auth.updateUser({ data: { role } })` for the signed-in user: a failed call changes nothing. */
    method UpdateRole(userId: string, role: string, outcome: Option<string>) returns (err: Option<string>)
      modifies this
      ensures err == outcome
      ensures metadataRoles == if outcome.None? then old(metadataRoles)[userId := role] else old(metadataRoles)
      ensures signUps == old(signUps) && resetRequests == old(resetRequests) && passwordUpdates == old(passwordUpdates)
    {
      err := outcome;
      if outcome.None? {
        metadataRoles := metadataRoles[userId := role];
      }
    }
  }
}
