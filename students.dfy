/**
 * `/api/students`: GET lists the student profiles for an administrator; POST
 * lets an administrator create a student, finding or creating the class by its
 * number and the parent by name first.
 *
 * Those steps are separate writes: when the student itself cannot be created,
 * a class or parent created on the way stays in the store.
 */
module StudentsApi {
  import opened Wrappers
  import opened Text
  import opened Store
  import opened Zod
  import opened Api

  predicate IsAdmin(session: Option<Session>) {
    session.Some? && session.value.role == ADMIN
  }

  /** GET: 401 unless an administrator is signed in, otherwise every student profile. */
  method Get(db: Db, session: Option<Session>) returns (resp: Response)
    ensures !IsAdmin(session) ==> resp == Unauthorized
    ensures IsAdmin(session) ==> resp == Response(200, StudentTable(db.students))
  {
    if !IsAdmin(session) {
      return Unauthorized;
    }
    resp := Response(200, StudentTable(db.students));
  }

  // ---------------------------------------------------------------------------
  // Validation

  /** The JSON body of a POST. */
  datatype StudentBody = StudentBody(name: Json, email: Json, password: Json, classNumber: Json, parentName: Json)

  /** A body that passed the schema. */
  datatype NewStudent = NewStudent(
    name: string, email: string, password: string,
    classNumber: Option<string>, parentName: Option<string>)

  /** `createStudentSchema.parse(body)` */
  function ParseStudent(b: StudentBody, isEmail: string -> bool): (r: Parsed<NewStudent>)
    ensures r.Ok? <==>
      && b.name.Str? && |b.name.s| >= 1
      && b.email.Str? && isEmail(b.email.s)
      && b.password.Str? && |b.password.s| >= 6
      && !b.classNumber.Other? && !b.parentName.Other?
    ensures r.Ok? ==>
      && r.value.name == b.name.s && r.value.email == b.email.s && r.value.password == b.password.s
      && r.value.classNumber == (if b.classNumber.Str? then Some(b.classNumber.s) else None)
      && r.value.parentName == (if b.parentName.Str? then Some(b.parentName.s) else None)
    ensures r.Fail? ==> 1 <= |r.issues| <= 5
    ensures b.name.Str? && b.name.s == "" ==> r.Fail? && r.issues[0] == Issue("name", MinMessage(1))
  {
    var name := MinString("name", b.name, 1, MinMessage(1));
    var email := EmailString("email", b.email, isEmail, "Invalid email");
    var password := MinString("password", b.password, 6, MinMessage(6));
    var classNumber := NullableString("classNumber", b.classNumber);
    var parentName := NullableString("parentName", b.parentName);
    if name.Ok? && email.Ok? && password.Ok? && classNumber.Ok? && parentName.Ok? then
      Ok(NewStudent(name.value, email.value, password.value, classNumber.value, parentName.value))
    else
      Fail(name.Issues() + email.Issues() + password.Issues() + classNumber.Issues() + parentName.Issues())
  }

  // ---------------------------------------------------------------------------
  // Generated parent e-mail addresses

  const ParentDomain: string := "@parent.lsls"

  /** The parent's name lower-cased, with each run of whitespace turned into a dot. */
  function EmailBase(parentName: string): (r: string)
    ensures NoSpace(r)
  {
    DotSpaces(ToLower(parentName))
  }

  /** The k-th address tried for a new parent: no number first, then 1, 2, 3, ... */
  function ParentEmail(parentName: string, k: nat): string {
    EmailBase(parentName) + (if k == 0 then "" else NatToString(k)) + ParentDomain
  }

  /** The e-mail addresses the users table holds. */
  ghost function Emails(users: map<Id, User>): set<string> {
    set id | id in users :: users[id].email
  }

  /** The addresses tried before the k-th. */
  ghost function Tried(parentName: string, k: nat): set<string> {
    if k == 0 then {} else Tried(parentName, k - 1) + {ParentEmail(parentName, k - 1)}
  }

  /** Every address before the k-th is taken. */
  ghost predicate TakenBelow(users: map<Id, User>, parentName: string, k: nat) {
    forall j :: 0 <= j < k ==> EmailTaken(users, ParentEmail(parentName, j))
  }

  /** `email` is the first address in the sequence that no user has. */
  ghost predicate FirstFree(users: map<Id, User>, parentName: string, email: string) {
    exists k: nat :: email == ParentEmail(parentName, k) && !EmailTaken(users, email)
      && forall j :: 0 <= j < k ==> EmailTaken(users, ParentEmail(parentName, j))
  }

  lemma {:induction false} ParentEmailsDistinct(parentName: string, j: nat, k: nat)
    requires j != k
    ensures ParentEmail(parentName, j) != ParentEmail(parentName, k)
  {
    var base := EmailBase(parentName);
    var sj := if j == 0 then "" else NatToString(j);
    var sk := if k == 0 then "" else NatToString(k);
    if ParentEmail(parentName, j) == ParentEmail(parentName, k) {
      var a, b := base + sj + ParentDomain, base + sk + ParentDomain;
      assert |sj| == |sk|;
      assert sj == a[|base|..|base| + |sj|];
      assert sk == b[|base|..|base| + |sk|];
      if j != 0 && k != 0 {
        NatToStringInjective(j, k);
      }
    }
  }

  lemma {:induction false} TriedSize(parentName: string, k: nat)
    ensures |Tried(parentName, k)| == k
    ensures forall m: nat :: m >= k ==> ParentEmail(parentName, m) !in Tried(parentName, k)
  {
    if k > 0 {
      TriedSize(parentName, k - 1);
      forall m: nat | m >= k ensures ParentEmail(parentName, m) != ParentEmail(parentName, k - 1) {
        ParentEmailsDistinct(parentName, m, k - 1);
      }
    }
  }

  lemma SubsetSize<T>(a: set<T>, b: set<T>)
    requires a <= b
    ensures |a| <= |b|
  {
    assert b == a + (b - a);
  }

  /**
   * Passing a taken address keeps every address tried taken and among the
   * stored ones, and so no more of them than there are users.
   */
  lemma {:induction false} TriedTaken(users: map<Id, User>, parentName: string, k: nat)
    requires Tried(parentName, k) <= Emails(users) && TakenBelow(users, parentName, k)
    requires EmailTaken(users, ParentEmail(parentName, k))
    ensures Tried(parentName, k + 1) <= Emails(users) && TakenBelow(users, parentName, k + 1)
    ensures k + 1 <= |Emails(users)|
  {
    var owner :| owner in users && users[owner].email == ParentEmail(parentName, k);
    assert ParentEmail(parentName, k) in Emails(users);
    TriedSize(parentName, k + 1);
    SubsetSize(Tried(parentName, k + 1), Emails(users));
  }

  /**
   * The loop that picks a new parent's address: it tries the addresses in
   * order and stops at the first one no user has. It ends because each
   * taken address it passes belongs to a different user.
   */
  method FreeParentEmail(db: Db, parentName: string) returns (email: string, tries: nat)
    ensures email == ParentEmail(parentName, tries)
    ensures !EmailTaken(db.users, email)
    ensures forall j :: 0 <= j < tries ==> EmailTaken(db.users, ParentEmail(parentName, j))
  {
    var users := db.users;
    email := ParentEmail(parentName, 0);
    var counter := 1;
    while EmailTaken(users, email)
      invariant counter >= 1
      invariant email == ParentEmail(parentName, counter - 1)
      invariant Tried(parentName, counter - 1) <= Emails(users) && TakenBelow(users, parentName, counter - 1)
      decreases |Emails(users)| - (counter - 1)
    {
      TriedTaken(users, parentName, counter - 1);
      email := ParentEmail(parentName, counter);
      counter := counter + 1;
    }
    tries := counter - 1;
  }

  // ---------------------------------------------------------------------------
  // Finding or creating the class and the parent

  /** `class.findFirst({ where: { name } })` finds a class. */
  predicate ClassNamed(classes: map<Id, Class>, name: string) {
    exists c :: c in classes && classes[c].name == name
  }

  /** The parent profile `p` belongs to a user called `name`. */
  predicate ParentCalled(t: Tables, p: Id, name: string) {
    p in t.parents && t.parents[p].userId in t.users && t.users[t.parents[p].userId].name == name
  }

  /** `parent.findFirst({ where: { user: { name } } })` finds a parent. */
  predicate ParentNamed(t: Tables, name: string) {
    exists p :: p in t.parents && ParentCalled(t, p, name)
  }

  /** The class step of a POST, from the tables before it to the tables after it. */
  ghost predicate ClassResolved(before: Tables, after: Tables, classNumber: Option<string>, classId: Option<Id>) {
    if !Given(classNumber) then classId.None? && after == before
    else
      var name := "Class " + classNumber.value;
      && classId.Some?
      && if ClassNamed(before.classes, name) then
           after == before && classId.value in before.classes && before.classes[classId.value].name == name
         else
           Unused(before, classId.value) && after == before.(classes := before.classes[classId.value := Class(name)])
  }

  /** The parent step of a POST; `made` is the parent user it created, if any. */
  ghost predicate ParentResolved(before: Tables, after: Tables, parentName: Option<string>, parentId: Option<Id>, made: Option<NewUser>) {
    if !Given(parentName) then parentId.None? && made.None? && after == before
    else if ParentNamed(before, parentName.value) then
      parentId.Some? && made.None? && after == before && ParentCalled(before, parentId.value, parentName.value)
    else
      && parentId.Some? && made.Some? && made.value.profileId == parentId
      && Unused(before, made.value.userId) && Unused(before, parentId.value)
      && exists e :: FirstFree(before.users, parentName.value, e)
           && after == WithUser(before, made.value, User(parentName.value, e, Bcrypt("temp123"), PARENT), ParentProfile)
  }

  method ResolveClass(db: Db, classNumber: Option<string>) returns (classId: Option<Id>)
    requires db.Valid()
    modifies db
    ensures db.Valid()
    ensures ClassResolved(old(db.State()), db.State(), classNumber, classId)
    ensures classId.Some? ==> classId.value in db.classes
  {
    if !Given(classNumber) {
      return None;
    }
    var name := "Class " + classNumber.value;
    if ClassNamed(db.classes, name) {
      var c :| c in db.classes && db.classes[c].name == name;
      return Some(c);
    }
    var c := db.InsertClass(name);
    classId := Some(c);
  }

  method ResolveParent(db: Db, parentName: Option<string>) returns (parentId: Option<Id>, made: Option<NewUser>)
    requires db.Valid()
    modifies db
    ensures db.Valid()
    ensures ParentResolved(old(db.State()), db.State(), parentName, parentId, made)
    ensures db.classes == old(db.classes)
    ensures parentId.Some? ==> parentId.value in db.parents
  {
    if !Given(parentName) {
      return None, None;
    }
    var name := parentName.value;
    if ParentNamed(db.State(), name) {
      var p :| p in db.parents && ParentCalled(db.State(), p, name);
      return Some(p), None;
    }
    var email, tries := FreeParentEmail(db, name);
    assert FirstFree(db.users, name, email);
    var r := db.InsertUser(name, email, Bcrypt("temp123"), PARENT, ParentProfile);
    parentId, made := r.value.profileId, r;
  }

  // ---------------------------------------------------------------------------
  // POST

  /**
   * The address sign-up would store: the submitted one trimmed and
   * lower-cased, in the normal form sign-in looks up. The students route as
   * written does not apply it; `PostNormalised` does.
   */
  function StudentEmail(submitted: string): (r: string)
    ensures r == Normalise(r)
  {
    NormaliseIdempotent(submitted);
    Normalise(submitted)
  }

  /** The address a POST stores the student under: as submitted, or normalised. */
  function StoredAddress(submitted: string, normalise: bool): string {
    if normalise then StudentEmail(submitted) else submitted
  }

  /**
   * What a POST does, from the tables `before` it to the tables `after` it:
   * 401 unless an administrator is signed in; 400 with every issue as
   * `path: message`; otherwise the class step (to `classed`), then the parent
   * step (to `staged`), then the student user with its profile: 201 with the
   * profile, or 500 when the address is taken, keeping what the earlier steps
   * created. `normalise` says whether the address is stored normalised.
   */
  ghost predicate Posted(before: Tables, after: Tables, session: Option<Session>, body: StudentBody, env: Env,
                         normalise: bool, resp: Response, classed: Tables, classId: Option<Id>,
                         staged: Tables, parentId: Option<Id>, made: Option<NewUser>)
  {
    && (!IsAdmin(session) ==> resp == Unauthorized && after == before)
    && (IsAdmin(session) && ParseStudent(body, env.isEmail).Fail? ==>
          resp == Response(400, Error(FormatIssues(ParseStudent(body, env.isEmail).issues))) && after == before)
    && (IsAdmin(session) && ParseStudent(body, env.isEmail).Ok? ==>
          var data := ParseStudent(body, env.isEmail).value;
          var email := StoredAddress(data.email, normalise);
          && ClassResolved(before, classed, data.classNumber, classId)
          && ParentResolved(classed, staged, data.parentName, parentId, made)
          && (EmailTaken(staged.users, email) ==>
                resp == Response(500, Error("Failed to create student")) && after == staged)
          && (!EmailTaken(staged.users, email) ==>
                && resp.status == 201 && resp.body.StudentRecord?
                && resp.body.student == Student(resp.body.student.userId, classId, parentId)
                && Unused(staged, resp.body.id) && Unused(staged, resp.body.student.userId)
                && after == WithUser(staged, NewUser(resp.body.student.userId, Some(resp.body.id)),
                     User(data.name, email, Bcrypt(data.password), STUDENT), StudentProfile(classId, parentId))))
  }

  /** The steps of a POST, storing the address as `StoredAddress` says. */
  method Handle(db: Db, session: Option<Session>, body: StudentBody, env: Env, normalise: bool)
    returns (resp: Response, ghost classed: Tables, ghost classId: Option<Id>,
             ghost staged: Tables, ghost parentId: Option<Id>, ghost made: Option<NewUser>)
    requires db.Valid()
    modifies db
    ensures db.Valid()
    ensures Posted(old(db.State()), db.State(), session, body, env, normalise, resp, classed, classId, staged, parentId, made)
  {
    classed, classId, staged, parentId, made := db.State(), None, db.State(), None, None;
    if !IsAdmin(session) {
      return Unauthorized, classed, classId, staged, parentId, made;
    }
    var parsed := ParseStudent(body, env.isEmail);
    if parsed.Fail? {
      return Response(400, Error(FormatIssues(parsed.issues))), classed, classId, staged, parentId, made;
    }
    var data := parsed.value;
    var cid := ResolveClass(db, data.classNumber);
    classId, classed := cid, db.State();
    var pid, m := ResolveParent(db, data.parentName);
    parentId, made, staged := pid, m, db.State();
    var email := StoredAddress(data.email, normalise);
    var r := db.InsertUser(data.name, email, Bcrypt(data.password), STUDENT, StudentProfile(cid, pid));
    if r.None? {
      return Response(500, Error("Failed to create student")), classed, classId, staged, parentId, made;
    }
    resp := Response(201, StudentRecord(r.value.profileId.value, Student(r.value.userId, cid, pid)));
  }

  /** POST as the route is written: the student is stored, and checked for a duplicate, under the address as typed. */
  method Post(db: Db, session: Option<Session>, body: StudentBody, env: Env)
    returns (resp: Response, ghost classed: Tables, ghost classId: Option<Id>,
             ghost staged: Tables, ghost parentId: Option<Id>, ghost made: Option<NewUser>)
    requires db.Valid()
    modifies db
    ensures db.Valid()
    ensures Posted(old(db.State()), db.State(), session, body, env, false, resp, classed, classId, staged, parentId, made)
  {
    resp, classed, classId, staged, parentId, made := Handle(db, session, body, env, false);
  }

  /** POST with the address normalised as sign-up does, so that the new student can sign in with it. */
  method PostNormalised(db: Db, session: Option<Session>, body: StudentBody, env: Env)
    returns (resp: Response, ghost classed: Tables, ghost classId: Option<Id>,
             ghost staged: Tables, ghost parentId: Option<Id>, ghost made: Option<NewUser>)
    requires db.Valid()
    modifies db
    ensures db.Valid()
    ensures Posted(old(db.State()), db.State(), session, body, env, true, resp, classed, classId, staged, parentId, made)
  {
    resp, classed, classId, staged, parentId, made := Handle(db, session, body, env, true);
  }

  /**
   * As written, the duplicate check compares the address as typed: with only
   * the normal form of an address stored ("a@b"), a student submitted under a
   * spelling that is not in normal form ("A@b") is not a duplicate, and is
   * stored under that spelling; normalised, it would be refused.
   */
  lemma CaseVariantIsNotDuplicate(users: map<Id, User>, id: Id, typed: string)
    requires users.Keys == {id} && users[id].email == Normalise(typed) && typed != Normalise(typed)
    ensures !EmailTaken(users, StoredAddress(typed, false))
    ensures EmailTaken(users, StoredAddress(typed, true))
  {
    assert users[id].email == StoredAddress(typed, true);
  }
}
