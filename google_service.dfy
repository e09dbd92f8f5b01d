// Sign-in through Google: find the account by email or create it without a
// password. The token flow also enrols a new account in the general room,
// ignoring a failure to do so, and hands out the application's own JWT.

module GoogleService {
  import opened Types
  import opened Persistence
  import AuthService

  /** A function that either returns or throws. Every failure inside the
      Google sign-in is rethrown as one fixed error. */
  datatype Outcome<T> = Returned(value: T) | Thrown(message: string)

  const GoogleError := "Error al autenticar con Google"

  /** The claims read from an unverified Google ID token. */
  datatype GoogleClaims = GoogleClaims(email: string, name: string)

  /** `generarTokenGoogle`: the same session a password login hands out. */
  function GenerarTokenGoogle(u: User, sign: AuthService.Signer, secretEnv: Option<string>): (a: AuthResponse)
    ensures a.user == Public(u)
    ensures a.token == sign(PublicUser(u.id, u.username, u.email), JwtSecret(secretEnv), TokenLifetimeSeconds)
    ensures a == AuthService.SessionFor(u, sign, secretEnv)
  {
    AuthService.SessionFor(u, sign, secretEnv)
  }

  /** `googleLogin`, the passport strategy callback, given the profile's
      emails and display name. Awaited calls: 0 the lookup by email, 1 the
      insert. A profile without an email fails like a store error. */
  method GoogleLogin(st: Store, emails: seq<string>, displayName: string, fail: Fault)
    returns (r: Outcome<User>)
    requires st.Valid()
    modifies st
    ensures st.Valid()
    ensures r.Thrown? ==> r.message == GoogleError && unchanged(st)
    ensures r.Returned? <==>
              && emails != [] && !Throws(fail, 0)
              && (HasEmail(old(st.users), emails[0]) ||
                  (!Throws(fail, 1) && !NameOrEmailTaken(old(st.users), displayName, emails[0])))
    ensures r.Returned? && HasEmail(old(st.users), emails[0]) ==>
              r.value == UserByEmail(old(st.users), emails[0]).value && unchanged(st)
    ensures r.Returned? && !HasEmail(old(st.users), emails[0]) ==>
              && r.value == User(old(st.nextUserId), displayName, emails[0], None)
              && st.users == old(st.users) + [r.value]
    ensures r.Returned? ==> r.value.email == emails[0] && r.value in st.users
    ensures st.chats == old(st.chats) && st.participants == old(st.participants) && st.messages == old(st.messages)
  {
    if emails == [] || Throws(fail, 0) {
      return Thrown(GoogleError);
    }
    var email := emails[0];
    var found := UserByEmail(st.users, email);
    if found.Some? {
      return Returned(found.value);
    }
    var created := st.CreateUser(displayName, email, None, Throws(fail, 1));
    if created.None? {
      return Thrown(GoogleError);
    }
    r := Returned(created.value);
  }

  /** `googleLoginFromToken`. `decoded` is what `jwtDecode` gives (None: it
      threw). Awaited calls: 0 the lookup by email, 1 the insert, 2 the
      lookup of the general room, 3 the enrolment, whose failure is
      swallowed. Nothing done before a failure is undone. */
  method GoogleLoginFromToken(st: Store, decoded: Option<GoogleClaims>, sign: AuthService.Signer,
                              secretEnv: Option<string>, fail: Fault)
    returns (r: Outcome<AuthResponse>)
    requires st.Valid()
    modifies st
    ensures st.Valid()
    ensures r.Thrown? ==> r.message == GoogleError
    ensures r.Thrown? <==>
              || decoded.None? || Throws(fail, 0)
              || (!HasEmail(old(st.users), decoded.value.email) &&
                  (Throws(fail, 1) || NameOrEmailTaken(old(st.users), decoded.value.name, decoded.value.email)
                   || Throws(fail, 2)))
    // an existing account signs in and nothing is written
    ensures decoded.Some? && !Throws(fail, 0) && HasEmail(old(st.users), decoded.value.email) ==>
              && unchanged(st)
              && r == Returned(GenerarTokenGoogle(UserByEmail(old(st.users), decoded.value.email).value, sign, secretEnv))
    // a new account is created, and enrolled in the general room when the
    // room exists and the enrolment does not fail
    ensures r.Returned? && !HasEmail(old(st.users), decoded.value.email) ==>
              var u := User(old(st.nextUserId), decoded.value.name, decoded.value.email, None);
              && st.users == old(st.users) + [u]
              && r == Returned(GenerarTokenGoogle(u, sign, secretEnv))
              && st.participants ==
                   (if GeneralChatId in old(st.chats) && !Throws(fail, 3)
                    then old(st.participants) + {(GeneralChatId, u.id)} else old(st.participants))
    // the enrolment runs after the insert, so a failing room lookup leaves
    // the new account in place
    ensures decoded.Some? && !HasEmail(old(st.users), decoded.value.email) && !Throws(fail, 0)
            && !Throws(fail, 1) && !NameOrEmailTaken(old(st.users), decoded.value.name, decoded.value.email)
            && Throws(fail, 2) ==>
              && st.users == old(st.users) + [User(old(st.nextUserId), decoded.value.name, decoded.value.email, None)]
              && st.participants == old(st.participants)
    // a missing token, a failing lookup or a refused insert writes nothing
    ensures || decoded.None? || Throws(fail, 0)
            || (!HasEmail(old(st.users), decoded.value.email) &&
                (Throws(fail, 1) || NameOrEmailTaken(old(st.users), decoded.value.name, decoded.value.email))) ==>
              unchanged(st)
    ensures st.chats == old(st.chats) && st.messages == old(st.messages)
  {
    if decoded.None? || Throws(fail, 0) {
      return Thrown(GoogleError);
    }
    var claims := decoded.value;
    var found := UserByEmail(st.users, claims.email);
    if found.Some? {
      return Returned(GenerarTokenGoogle(found.value, sign, secretEnv));
    }
    var created := st.CreateUser(claims.name, claims.email, None, Throws(fail, 1));
    if created.None? {
      return Thrown(GoogleError);
    }
    var user := created.value;
    if Throws(fail, 2) {
      return Thrown(GoogleError);
    }
    if GeneralChatId in st.chats {
      assert (GeneralChatId, user.id) !in st.participants;
      assert st.users[|st.users| - 1] == user;
      var enrolled := st.CreateParticipant(GeneralChatId, user.id, Throws(fail, 3));
    }
    r := Returned(GenerarTokenGoogle(user, sign, secretEnv));
  }
}
