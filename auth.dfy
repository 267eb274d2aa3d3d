/**
 * The credentials sign-in: `authorize` looks the user up by the normalised
 * e-mail and checks the password; the `jwt` callback copies role and id into
 * the token on sign-in; the `session` callback copies them into the session.
 * The token is what the route guard reads.
 *
 * `bcrypt.compare` is a parameter (`compare`).
 */
module Auth {
  import opened Wrappers
  import opened Text
  import opened Store
  import Middleware
  import Sidebar
  import Zod
  import Api
  import StudentsApi

  /** The submitted form; a field the form left out is the empty string, which `authorize` treats alike. */
  datatype Credentials = Credentials(email: string, password: string)

  /** The user object `authorize` hands to next-auth. */
  datatype AuthUser = AuthUser(id: Id, email: string, name: string, role: Role)

  /** User `id` is stored under `email` and `password` matches its hash. */
  ghost predicate SignsIn(users: map<Id, User>, id: Id, email: string, password: string, compare: (string, PasswordHash) -> bool) {
    id in users && users[id].email == email && compare(password, users[id].password)
  }

  /** At most one user is stored under `email`. */
  lemma OwnerUnique(users: map<Id, User>, email: string, id: Id)
    requires UniqueEmails(users) && id in users && users[id].email == email
    ensures forall j :: j in users && users[j].email == email ==> j == id
  {
  }

  /**
   * `authorize`: no user for missing credentials, an empty e-mail or
   * password, an unknown normalised e-mail or a wrong password; otherwise the
   * stored user's id, e-mail, name and role.
   */
  function Authorize(users: map<Id, User>, credentials: Option<Credentials>, compare: (string, PasswordHash) -> bool): (r: Option<AuthUser>)
    requires UniqueEmails(users)
    ensures r.Some? <==>
      && credentials.Some? && credentials.value.email != "" && credentials.value.password != ""
      && exists id :: SignsIn(users, id, Normalise(credentials.value.email), credentials.value.password, compare)
    ensures r.Some? ==>
      && SignsIn(users, r.value.id, Normalise(credentials.value.email), credentials.value.password, compare)
      && r.value == AuthUser(r.value.id, users[r.value.id].email, users[r.value.id].name, users[r.value.id].role)
  {
    if credentials.None? || credentials.value.email == "" || credentials.value.password == "" then None
    else
      var email := Normalise(credentials.value.email);
      if !EmailTaken(users, email) then None
      else
        var id :| id in users && users[id].email == email;
        var password := credentials.value.password;
        OwnerUnique(users, email, id);
        if !compare(password, users[id].password) then
          assert forall j :: !SignsIn(users, j, email, password, compare);
          None
        else
          assert SignsIn(users, id, email, password, compare);
          Some(AuthUser(id, users[id].email, users[id].name, users[id].role))
  }

  /** The JWT's custom claims. */
  class Token {
    var role: Option<Role>
    var id: Option<Id>

    /** A token before any sign-in. */
    constructor ()
      ensures role.None? && id.None?
    {
      role, id := None, None;
    }

    /** What the route guard reads of this token. */
    function Claims(): (t: Middleware.Token)
      reads this
      ensures t.role.Some? <==> role.Some?
      ensures role.Some? ==> t.role.value == role.value.Name()
    {
      Middleware.Token(if role.Some? then Some(role.value.Name()) else None)
    }
  }

  /** The `jwt` callback: on sign-in, copy the user's role and id into the token; otherwise keep it. */
  method JwtCallback(token: Token, user: Option<AuthUser>) returns (r: Token)
    modifies token
    ensures r == token
    ensures user.Some? ==> token.role == Some(user.value.role) && token.id == Some(user.value.id)
    ensures user.None? ==> token.role == old(token.role) && token.id == old(token.id)
  {
    if user.Some? {
      token.role := Some(user.value.role);
      token.id := Some(user.value.id);
    }
    return token;
  }

  /** The user part of a session. */
  class SessionUser {
    var name: string
    var email: string
    var role: Option<Role>
    var id: Option<Id>

    constructor (name: string, email: string)
      ensures this.name == name && this.email == email && role.None? && id.None?
    {
      this.name, this.email := name, email;
      role, id := None, None;
    }
  }

  class SessionData {
    var user: SessionUser?

    constructor (user: SessionUser?)
      ensures this.user == user
    {
      this.user := user;
    }
  }

  /** The `session` callback: when the session has a user, give it the token's role and id. */
  method SessionCallback(session: SessionData, token: Token) returns (r: SessionData)
    modifies session.user
    ensures r == session && session.user == old(session.user)
    ensures session.user != null ==>
      && session.user.role == token.role && session.user.id == token.id
      && session.user.name == old(session.user.name) && session.user.email == old(session.user.email)
  {
    if session.user != null {
      session.user.role := token.role;
      session.user.id := token.id;
    }
    return session;
  }

  /**
   * A credentials sign-in end to end: `authorize`, then the `jwt` callback on
   * a fresh token, then the `session` callback. A signed-in user's session
   * carries the stored role and id, and the guard sends the user from the
   * login page to the role's home, the first link of its menu
   * (`LoginRedirectsToMenuHome`).
   */
  method SignIn(users: map<Id, User>, credentials: Option<Credentials>, compare: (string, PasswordHash) -> bool,
                token: Token, session: SessionData)
    returns (user: Option<AuthUser>)
    requires UniqueEmails(users)
    requires token.role.None? && token.id.None?
    modifies token, session.user
    ensures user == Authorize(users, credentials, compare)
    ensures user.None? ==> token.role.None? && token.id.None?
    ensures user.Some? ==> token.role == Some(user.value.role) && token.id == Some(user.value.id)
    ensures user.Some? && session.user != null ==>
      session.user.role == Some(user.value.role) && session.user.id == Some(user.value.id)
    ensures user.Some? ==>
      Middleware.Decide("/login", Some(token.Claims())) == Middleware.Redirect(Sidebar.Home(user.value.role.Name()))
  {
    user := Authorize(users, credentials, compare);
    var t := JwtCallback(token, user);
    var s := SessionCallback(session, token);
    if user.Some? {
      var role := user.value.role;
      assert token.Claims() == Middleware.Token(Some(role.Name()));
      Middleware.AuthPageRedirectsSignedIn("/login", token.Claims());
      assert ToLower(role.Name()) != "" by {
        assert |ToLower(role.Name())| == |role.Name()|;
      }
    }
  }

  // ---------------------------------------------------------------------------
  // Lemmas

  /** A signed-in user who opens the login page lands on the first link of the role's menu. */
  lemma {:induction false} LoginRedirectsToMenuHome(role: Role)
    ensures Middleware.Decide("/login", Some(Middleware.Token(Some(role.Name())))) ==
      Middleware.Redirect(Sidebar.GetLinks(role.Name())[0].href)
  {
    Middleware.AuthPageRedirectsSignedIn("/login", Middleware.Token(Some(role.Name())));
    Sidebar.GetLinksByRole(role.Name());
    assert ToLower(role.Name()) != "" by {
      assert |ToLower(role.Name())| == |role.Name()|;
    }
  }

  /**
   * A user stored under the normalised form of an address signs in with any
   * spelling of it that differs only in letter case and surrounding
   * whitespace, given the right password.
   */
  lemma {:induction false} LoginFindsNormalisedEmail(users: map<Id, User>, id: Id, typed: string, password: string,
                                                     compare: (string, PasswordHash) -> bool)
    requires UniqueEmails(users) && id in users
    requires users[id].email == Normalise(typed) && typed != "" && password != ""
    requires compare(password, users[id].password)
    ensures Authorize(users, Some(Credentials(typed, password)), compare) ==
      Some(AuthUser(id, users[id].email, users[id].name, users[id].role))
  {
    assert SignsIn(users, id, Normalise(typed), password, compare);
  }

  /**
   * A user stored under an address that is not in normal form never signs
   * in, whatever address and password are typed: `authorize` only looks up
   * normalised addresses.
   */
  lemma {:induction false} UnnormalisedEmailLocksOut(users: map<Id, User>, id: Id, c: Credentials,
                                                     compare: (string, PasswordHash) -> bool)
    requires UniqueEmails(users) && id in users
    requires Normalise(users[id].email) != users[id].email
    ensures Authorize(users, Some(c), compare) != Some(AuthUser(id, users[id].email, users[id].name, users[id].role))
  {
    if SignsIn(users, id, Normalise(c.email), c.password, compare) {
      NormaliseIdempotent(c.email);
    }
  }

  /** An address with a capital letter, which the student form accepts and stores as typed. */
  lemma MixedCaseAddress()
    ensures Normalise("Ann@school.org") != "Ann@school.org"
  {
    var s := "Ann@school.org";
    TrimOfTrimmed(s);
    assert Normalise(s)[0] == LowerChar('A') == 'a';
  }

  /**
   * As written, the students route stores the address as typed: when it
   * creates a student submitted as "Ann@school.org", no credentials ever sign
   * that student in.
   */
  method AsWrittenStudentLockedOut(db: Db, session: Option<Api.Session>, body: StudentsApi.StudentBody, env: Api.Env,
                                   compare: (string, PasswordHash) -> bool)
    returns (resp: Api.Response, student: Id)
    requires db.Valid() && body.email == Zod.Str("Ann@school.org")
    modifies db
    ensures resp.status == 201 ==>
      && student in db.users && db.users[student].email == "Ann@school.org" && db.users[student].role == STUDENT
      && UniqueEmails(db.users)
      && forall c :: Authorize(db.users, Some(c), compare) != Some(AuthUser(student, "Ann@school.org", db.users[student].name, STUDENT))
  {
    ghost var classed, classId, staged, parentId, made;
    resp, classed, classId, staged, parentId, made := StudentsApi.Post(db, session, body, env);
    student := if resp.body.StudentRecord? then resp.body.student.userId else "";
    if resp.status == 201 {
      assert db.users[student].email == "Ann@school.org";
      MixedCaseAddress();
      forall c ensures Authorize(db.users, Some(c), compare) != Some(AuthUser(student, "Ann@school.org", db.users[student].name, STUDENT)) {
        UnnormalisedEmailLocksOut(db.users, student, c, compare);
      }
    }
  }

  /**
   * With the address normalised on creation, the student created from a
   * typed address signs in with that same address.
   */
  lemma {:induction false} CreatedStudentSignsIn(users: map<Id, User>, id: Id, typed: string, password: string,
                                                 compare: (string, PasswordHash) -> bool)
    requires UniqueEmails(users) && id in users
    requires users[id].email == StudentsApi.StudentEmail(typed) && typed != "" && password != ""
    requires compare(password, users[id].password)
    ensures Authorize(users, Some(Credentials(typed, password)), compare).Some?
    ensures Authorize(users, Some(Credentials(typed, password)), compare).value.id == id
  {
    LoginFindsNormalisedEmail(users, id, typed, password, compare);
  }

  /**
   * With the address normalised, the student the route creates signs in with
   * the address and password submitted, whatever their letter case.
   */
  method NormalisedStudentSignsIn(db: Db, session: Option<Api.Session>, body: StudentsApi.StudentBody, env: Api.Env,
                                  compare: (string, PasswordHash) -> bool)
    returns (resp: Api.Response, student: Id)
    requires db.Valid()
    modifies db
    ensures resp.status == 201 ==> student in db.users && db.users[student].role == STUDENT && UniqueEmails(db.users)
    ensures resp.status == 201 && body.email.Str? && body.email.s != "" && body.password.Str?
            && compare(body.password.s, Bcrypt(body.password.s)) ==>
      Authorize(db.users, Some(Credentials(body.email.s, body.password.s)), compare) ==
        Some(AuthUser(student, db.users[student].email, db.users[student].name, STUDENT))
  {
    ghost var classed, classId, staged, parentId, made;
    resp, classed, classId, staged, parentId, made := StudentsApi.PostNormalised(db, session, body, env);
    student := if resp.body.StudentRecord? then resp.body.student.userId else "";
    if resp.status == 201 && body.email.Str? && body.email.s != "" && body.password.Str? {
      assert db.users[student].email == StudentsApi.StudentEmail(body.email.s);
      assert db.users[student].password == Bcrypt(body.password.s);
      if compare(body.password.s, Bcrypt(body.password.s)) {
        CreatedStudentSignsIn(db.users, student, body.email.s, body.password.s, compare);
      }
    }
  }
}
