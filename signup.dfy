/**
 * `/api/auth/signup`: open registration. It validates the body, normalises the
 * e-mail (trimmed, lower-cased), refuses an address already in use, and
 * creates the user together with the profile its role calls for.
 */
module SignupApi {
  import opened Wrappers
  import opened Text
  import opened Store
  import opened Zod
  import opened Api

  /** The JSON body of a sign-up. */
  datatype SignupBody = SignupBody(name: Json, email: Json, password: Json, role: Json)

  /** A body that passed the schema. */
  datatype Signup = Signup(name: string, email: string, password: string, role: Role)

  const RoleNames: seq<string> := ["ADMIN", "TEACHER", "STUDENT", "PARENT"]

  /** How zod lists the roles in its messages. */
  const RoleOptions: string := "'ADMIN' | 'TEACHER' | 'STUDENT' | 'PARENT'"

  function RoleOf(name: string): (r: Role)
    requires name in RoleNames
    ensures r.Name() == name
  {
    if name == "ADMIN" then ADMIN
    else if name == "TEACHER" then TEACHER
    else if name == "STUDENT" then STUDENT
    else PARENT
  }

  /** Every role is spelled by exactly one of the names the schema accepts. */
  lemma RoleNamesExact(r: Role)
    ensures r.Name() in RoleNames && RoleOf(r.Name()) == r
  {
  }

  lemma {:induction false} RoleOptionsQuoted()
    ensures QuotedOptions(RoleNames) == RoleOptions
  {
    assert RoleNames[1..] == ["TEACHER", "STUDENT", "PARENT"];
    assert RoleNames[1..][1..] == ["STUDENT", "PARENT"];
    assert RoleNames[1..][1..][1..] == ["PARENT"];
  }

  /** `signupSchema.parse(body)`, with the schema's own messages. */
  function ParseSignup(b: SignupBody, isEmail: string -> bool): (r: Parsed<Signup>)
    ensures r.Ok? <==>
      && b.name.Str? && |b.name.s| >= 1
      && b.email.Str? && isEmail(b.email.s)
      && b.password.Str? && |b.password.s| >= 6
      && b.role.Str? && b.role.s in RoleNames
    ensures r.Ok? ==>
      && r.value.name == b.name.s && r.value.email == b.email.s && r.value.password == b.password.s
      && r.value.role.Name() == b.role.s
    ensures r.Fail? ==> 1 <= |r.issues| <= 4
    // The route answers with the first issue: that of the first failing field, in the schema's order.
    ensures !b.name.Str? ==> r.Fail? && r.issues[0] == TypeIssue("name", "string", b.name)
    ensures b.name.Str? && b.name.s == "" ==> r.Fail? && r.issues[0] == Issue("name", "Name is required")
    ensures b.name.Str? && b.name.s != "" ==>
      && (!b.email.Str? ==> r.Fail? && r.issues[0] == TypeIssue("email", "string", b.email))
      && (b.email.Str? && !isEmail(b.email.s) ==> r.Fail? && r.issues[0] == Issue("email", "Invalid email address"))
    ensures b.name.Str? && b.name.s != "" && b.email.Str? && isEmail(b.email.s) ==>
      && (!b.password.Str? ==> r.Fail? && r.issues[0] == TypeIssue("password", "string", b.password))
      && (b.password.Str? && |b.password.s| < 6 ==>
            r.Fail? && r.issues[0] == Issue("password", "Password must be at least 6 characters"))
    ensures b.name.Str? && b.name.s != "" && b.email.Str? && isEmail(b.email.s) && b.password.Str? && |b.password.s| >= 6 ==>
      && (!b.role.Str? ==> r.Fail? && r.issues[0] == TypeIssue("role", RoleOptions, b.role))
      && (b.role.Str? && b.role.s !in RoleNames ==>
            r.Fail? && r.issues[0] == Issue("role", "Invalid enum value. Expected " + RoleOptions + ", received '" + b.role.s + "'"))
  {
    RoleOptionsQuoted();
    var name := MinString("name", b.name, 1, "Name is required");
    var email := EmailString("email", b.email, isEmail, "Invalid email address");
    var password := MinString("password", b.password, 6, "Password must be at least 6 characters");
    var role := Enum("role", b.role, RoleNames);
    if name.Ok? && email.Ok? && password.Ok? && role.Ok? then
      Ok(Signup(name.value, email.value, password.value, RoleOf(role.value)))
    else
      Fail(name.Issues() + email.Issues() + password.Issues() + role.Issues())
  }

  /** The profile created with a user of each role; an administrator gets none. */
  function ProfileFor(role: Role): (p: ProfileSpec)
    ensures Fits(role, p)
    ensures p.NoProfile? <==> role == ADMIN
    ensures p.StudentProfile? ==> p.classId.None? && p.parentId.None?
  {
    match role
    case STUDENT => StudentProfile(None, None)
    case TEACHER => TeacherProfile
    case PARENT => ParentProfile
    case ADMIN => NoProfile
  }

  function CreatedMessage(role: Role): string {
    match role
    case STUDENT => "Student account created successfully"
    case TEACHER => "Teacher account created successfully"
    case PARENT => "Parent account created successfully"
    case ADMIN => "Admin account created successfully"
  }

  /**
   * POST: 400 with the first issue's message; 400 when the normalised address
   * is in use; otherwise 201 with the new user's id, the user stored under the
   * normalised address with the profile its role calls for.
   */
  method Post(db: Db, body: SignupBody, env: Env) returns (resp: Response, created: NewUser)
    requires db.Valid()
    modifies db
    ensures db.Valid()
    ensures ParseSignup(body, env.isEmail).Fail? ==>
      resp == Response(400, Error(ParseSignup(body, env.isEmail).issues[0].message)) && db.State() == old(db.State())
    ensures ParseSignup(body, env.isEmail).Ok? ==>
      var data := ParseSignup(body, env.isEmail).value;
      var email := Normalise(data.email);
      if EmailTaken(old(db.users), email) then
        resp == Response(400, Error("User with this email already exists")) && db.State() == old(db.State())
      else
        && resp == Response(201, Account(CreatedMessage(data.role), created.userId))
        && Unused(old(db.State()), created.userId)
        && (created.profileId.Some? ==> Unused(old(db.State()), created.profileId.value))
        && (ProfileFor(data.role).NoProfile? <==> created.profileId.None?)
        && db.State() == WithUser(old(db.State()), created,
             User(data.name, email, Bcrypt(data.password), data.role), ProfileFor(data.role))
  {
    created := NewUser("", None);
    var parsed := ParseSignup(body, env.isEmail);
    if parsed.Fail? {
      return Response(400, Error(parsed.issues[0].message)), created;
    }
    var data := parsed.value;
    var email := Normalise(data.email);
    if EmailTaken(db.users, email) {
      return Response(400, Error("User with this email already exists")), created;
    }
    var r := db.InsertUser(data.name, email, Bcrypt(data.password), data.role, ProfileFor(data.role));
    created := r.value;
    resp := Response(201, Account(CreatedMessage(data.role), created.userId));
  }
}
