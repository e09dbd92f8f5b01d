// Local accounts: registration with a bcrypt-hashed password, and login by
// email that hands out a one-hour JWT. Hashing, comparing and signing are
// opaque library calls and appear as function parameters.

module AuthService {
  import opened Types
  import opened Persistence

  datatype RegistroDto = RegistroDto(username: string, email: string, password: string)
  datatype LoginDto = LoginDto(email: string, password: string)

  /** `jwt.sign(payload, secret, { expiresIn })`, with the lifetime in seconds. */
  type Signer = (TokenPayload, string, nat) -> string

  /** `registro`. Awaited calls: 0 the lookup by username or email, 1
      `genSalt`, 2 `hash`, 3 the insert; any of them throwing gives the 500. */
  method Registro(st: Store, dto: RegistroDto, salt: string, hash: (string, string) -> string, fail: Fault)
    returns (r: Response<PublicUser>)
    requires st.Valid()
    modifies st
    ensures st.Valid()
    ensures r.status in {201, 400, 500}
    ensures r.status == 400 <==> !Throws(fail, 0) && NameOrEmailTaken(old(st.users), dto.username, dto.email)
    ensures r.status == 400 ==> r == Err(400, "El usuario ya existe")
    ensures r.status == 201 <==>
              && !NameOrEmailTaken(old(st.users), dto.username, dto.email)
              && !Throws(fail, 0) && !Throws(fail, 1) && !Throws(fail, 2) && !Throws(fail, 3)
    ensures r.status == 500 ==> r == Err(500, "error al registrar el usuario")
    ensures r.status != 201 ==> unchanged(st)
    ensures r.status == 201 ==>
              var u := User(old(st.nextUserId), dto.username, dto.email, Some(hash(dto.password, salt)));
              && st.users == old(st.users) + [u]
              && r == Response(201, "Usuario registrado exitosamente", Some(Public(u)))
    ensures st.chats == old(st.chats) && st.participants == old(st.participants) && st.messages == old(st.messages)
  {
    if Throws(fail, 0) {
      return Err(500, "error al registrar el usuario");
    }
    if NameOrEmailTaken(st.users, dto.username, dto.email) {
      return Err(400, "El usuario ya existe");
    }
    if Throws(fail, 1) || Throws(fail, 2) {
      return Err(500, "error al registrar el usuario");
    }
    var hashed := hash(dto.password, salt);
    var user := st.CreateUser(dto.username, dto.email, Some(hashed), Throws(fail, 3));
    if user.None? {
      return Err(500, "error al registrar el usuario");
    }
    r := Response(201, "Usuario registrado exitosamente", Some(Public(user.value)));
  }

  /** `String(user.password)`: an account without a password (made through
      Google) is compared against the text "null". */
  function StoredHashText(password: Option<string>): (s: string)
    ensures password.Some? ==> s == password.value
    ensures password.None? ==> s == "null"
  {
    if password.Some? then password.value else "null"
  }

  /** The one-hour session handed out after a successful login. */
  function SessionFor(u: User, sign: Signer, secretEnv: Option<string>): AuthResponse
  {
    AuthResponse(Public(u), sign(Public(u), JwtSecret(secretEnv), TokenLifetimeSeconds))
  }

  /** `login` returns an error object, the session, or (it has no `catch`)
      rejects when the lookup throws. */
  datatype LoginOutcome = LoginError(status: int, message: string) | LoggedIn(session: AuthResponse) | Raised

  /** The unique constraint on the email column. */
  ghost predicate EmailsUnique(us: seq<User>)
  {
    forall i, j :: 0 <= i < j < |us| ==> us[i].email != us[j].email
  }

  /** `login`. Awaited calls: 0 the lookup by email, 1 `bcrypt.compare`. */
  function Login(us: seq<User>, dto: LoginDto, compare: (string, string) -> bool, sign: Signer,
                 secretEnv: Option<string>, fail: Fault): (r: LoginOutcome)
    requires EmailsUnique(us)
    ensures r.Raised? <==> Throws(fail, 0) || (HasEmail(us, dto.email) && Throws(fail, 1))
    ensures r == LoginError(404, "el usuario no existe") <==> !Throws(fail, 0) && !HasEmail(us, dto.email)
    ensures r.LoginError? ==> r.status == 404 || r == LoginError(401, "contraseña invalida")
    ensures r == LoginError(401, "contraseña invalida") <==>
              && !Throws(fail, 0) && HasEmail(us, dto.email) && !Throws(fail, 1)
              && !compare(dto.password, StoredHashText(UserByEmail(us, dto.email).value.password))
    ensures r.LoggedIn? <==>
              && !Throws(fail, 0) && !Throws(fail, 1)
              && exists u :: u in us && u.email == dto.email && compare(dto.password, StoredHashText(u.password))
    ensures r.LoggedIn? ==>
              && r.session.user.email == dto.email
              && exists u :: u in us && u.email == dto.email && r.session == SessionFor(u, sign, secretEnv)
  {
    if Throws(fail, 0) then Raised
    else
      assert forall u :: u in us && u.email == dto.email ==> UserByEmail(us, dto.email) == Some(u) by {
        forall u | u in us && u.email == dto.email ensures UserByEmail(us, dto.email) == Some(u) {
          UserByEmailUnique(us, u);
        }
      }
      match UserByEmail(us, dto.email)
      case None => LoginError(404, "el usuario no existe")
      case Some(u) =>
        if Throws(fail, 1) then Raised
        else if !compare(dto.password, StoredHashText(u.password)) then LoginError(401, "contraseña invalida")
        else LoggedIn(SessionFor(u, sign, secretEnv))
  }

  lemma {:induction false} UserByEmailAppend(us: seq<User>, u: User)
    requires !HasEmail(us, u.email)
    ensures UserByEmail(us + [u], u.email) == Some(u)
  {
    if us != [] {
      assert (us + [u])[1..] == us[1..] + [u];
      assert us[0].email != u.email;
      UserByEmailAppend(us[1..], u);
    }
  }

  /** With unique emails the lookup finds the one row carrying the email. */
  lemma {:induction false} UserByEmailUnique(us: seq<User>, u: User)
    requires EmailsUnique(us) && u in us
    ensures UserByEmail(us, u.email) == Some(u)
  {
    if us[0] != u {
      assert u in us[1..];
      assert us[0].email != u.email by {
        var j :| 1 <= j < |us| && us[j] == u;
      }
      assert EmailsUnique(us[1..]) by {
        forall i, j | 0 <= i < j < |us[1..]| ensures us[1..][i].email != us[1..][j].email {
          assert us[1..][i] == us[i + 1] && us[1..][j] == us[j + 1];
        }
      }
      UserByEmailUnique(us[1..], u);
    }
  }

  /** Registration followed by login: once the new row is in the table, its
      email and the password whose hash was stored log in, provided the
      hash checks against its own password, and the session is the new
      user's. */
  lemma RegisteredUserCanLogIn(us: seq<User>, u: User, password: string, compare: (string, string) -> bool,
                               sign: Signer, secretEnv: Option<string>)
    requires EmailsUnique(us) && !HasEmail(us, u.email) && u.password.Some?
    requires compare(password, u.password.value)
    ensures EmailsUnique(us + [u])
    ensures Login(us + [u], LoginDto(u.email, password), compare, sign, secretEnv, NoFault)
              == LoggedIn(SessionFor(u, sign, secretEnv))
  {
    var vs := us + [u];
    forall i, j | 0 <= i < j < |vs| ensures vs[i].email != vs[j].email {
      if j == |us| {
        assert vs[i] == us[i];
      } else {
        assert vs[i] == us[i] && vs[j] == us[j];
      }
    }
    UserByEmailAppend(us, u);
  }

  /** An account created through Google has no password; logging in with a
      password succeeds only if comparing it against the text "null" does,
      which a correct bcrypt never confirms. */
  lemma GoogleAccountRejectsPasswords(us: seq<User>, dto: LoginDto, compare: (string, string) -> bool,
                                      sign: Signer, secretEnv: Option<string>)
    requires EmailsUnique(us)
    requires UserByEmail(us, dto.email).Some? && UserByEmail(us, dto.email).value.password.None?
    requires !compare(dto.password, "null")
    ensures Login(us, dto, compare, sign, secretEnv, NoFault) == LoginError(401, "contraseña invalida")
  {
  }
}
