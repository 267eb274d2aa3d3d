/**
 * The record store the handlers talk to: tables of users, student, teacher and
 * parent profiles, classes and attendance records, with the constraints the
 * handlers rely on (unique e-mail, one profile per user, links that resolve).
 *
 * Ids are generated by the store; the model numbers them with a counter.
 */
module Store {
  import opened Wrappers
  import opened Text

  type Id = string

  /** The id of the n-th record the store creates. */
  function IdOf(n: nat): Id {
    "c" + NatToString(n)
  }

  datatype Role = ADMIN | TEACHER | STUDENT | PARENT {
    /** The role as the database and the session spell it. */
    function Name(): string {
      match this
      case ADMIN => "ADMIN"
      case TEACHER => "TEACHER"
      case STUDENT => "STUDENT"
      case PARENT => "PARENT"
    }
  }

  /** The stored result of `bcrypt.hash(secret, 10)`; the salt is not modelled. */
  datatype PasswordHash = Bcrypt(secret: string)

  datatype User = User(name: string, email: string, password: PasswordHash, role: Role)
  datatype Student = Student(userId: Id, classId: Option<Id>, parentId: Option<Id>)
  datatype Teacher = Teacher(userId: Id)
  datatype Parent = Parent(userId: Id)
  datatype Class = Class(name: string)
  datatype Status = PRESENT | ABSENT | LATE {
    function Name(): string {
      match this
      case PRESENT => "PRESENT"
      case ABSENT => "ABSENT"
      case LATE => "LATE"
    }
  }
  /** One attendance observation; `date` is an instant in milliseconds. */
  datatype Attendance = Attendance(id: Id, studentId: Id, teacherId: Id, status: Status, date: int)

  /** The profile a user is created with, by a nested `create`. */
  datatype ProfileSpec =
    | NoProfile
    | StudentProfile(classId: Option<Id>, parentId: Option<Id>)
    | TeacherProfile
    | ParentProfile

  /** The contents of every table at one moment. */
  datatype Tables = Tables(
    users: map<Id, User>,
    students: map<Id, Student>,
    teachers: map<Id, Teacher>,
    parents: map<Id, Parent>,
    classes: map<Id, Class>,
    attendance: seq<Attendance>)

  /** No record of any table carries `id`. */
  ghost predicate Unused(t: Tables, id: Id) {
    && id !in t.users && id !in t.students && id !in t.teachers
    && id !in t.parents && id !in t.classes
    && forall i :: 0 <= i < |t.attendance| ==> t.attendance[i].id != id
  }

  /** Some user has this e-mail (what `user.findUnique({ where: { email } })` finds). */
  predicate EmailTaken(users: map<Id, User>, email: string) {
    exists id :: id in users && users[id].email == email
  }

  /** The unique constraint on `User.email`. */
  ghost predicate UniqueEmails(users: map<Id, User>) {
    forall a, b :: a in users && b in users && users[a].email == users[b].email ==> a == b
  }

  /** A profile points at an existing user of the matching role. */
  ghost predicate OwnedBy(t: Tables, userId: Id, role: Role) {
    userId in t.users && t.users[userId].role == role
  }

  /** Every student profile belongs to a STUDENT user and names an existing class and parent. */
  ghost predicate StudentsLinked(t: Tables) {
    forall s :: s in t.students ==>
      && OwnedBy(t, t.students[s].userId, STUDENT)
      && (t.students[s].classId.Some? ==> t.students[s].classId.value in t.classes)
      && (t.students[s].parentId.Some? ==> t.students[s].parentId.value in t.parents)
  }

  ghost predicate TeachersLinked(t: Tables) {
    forall x :: x in t.teachers ==> OwnedBy(t, t.teachers[x].userId, TEACHER)
  }

  ghost predicate ParentsLinked(t: Tables) {
    forall p :: p in t.parents ==> OwnedBy(t, t.parents[p].userId, PARENT)
  }

  /** No user has two profiles of one kind (`userId` is unique in each profile table). */
  ghost predicate OneProfileEach(t: Tables) {
    && (forall a, b :: a in t.students && b in t.students && t.students[a].userId == t.students[b].userId ==> a == b)
    && (forall a, b :: a in t.teachers && b in t.teachers && t.teachers[a].userId == t.teachers[b].userId ==> a == b)
    && (forall a, b :: a in t.parents && b in t.parents && t.parents[a].userId == t.parents[b].userId ==> a == b)
  }

  /** Every attendance record names an existing student and teacher. */
  ghost predicate AttendanceLinked(t: Tables) {
    forall i :: 0 <= i < |t.attendance| ==>
      t.attendance[i].studentId in t.students && t.attendance[i].teacherId in t.teachers
  }

  /** Ids from `next` on are unused. */
  ghost predicate FreshFrom(t: Tables, next: nat) {
    forall k: nat :: k >= next ==> Unused(t, IdOf(k))
  }

  /** The store's invariant. */
  ghost predicate Consistent(t: Tables, next: nat) {
    && FreshFrom(t, next)
    && UniqueEmails(t.users)
    && StudentsLinked(t) && TeachersLinked(t) && ParentsLinked(t)
    && OneProfileEach(t)
    && AttendanceLinked(t)
  }

  /** A profile of this kind may belong to a user of this role. */
  predicate Fits(role: Role, p: ProfileSpec) {
    match p
    case NoProfile => true
    case StudentProfile(_, _) => role == STUDENT
    case TeacherProfile => role == TEACHER
    case ParentProfile => role == PARENT
  }

  /** The class and parent a new student profile names exist. */
  predicate Resolves(t: Tables, p: ProfileSpec) {
    p.StudentProfile? ==>
      (p.classId.Some? ==> p.classId.value in t.classes) && (p.parentId.Some? ==> p.parentId.value in t.parents)
  }

  /** What a successful user creation returns: the new user's id and, with a profile, the profile's id. */
  datatype NewUser = NewUser(userId: Id, profileId: Option<Id>)

  /** The tables after adding user `u` under `n.userId`, with the profile `p` under `n.profileId`. */
  ghost function WithUser(t: Tables, n: NewUser, u: User, p: ProfileSpec): Tables
    requires p.NoProfile? <==> n.profileId.None?
  {
    var t1 := t.(users := t.users[n.userId := u]);
    match p
    case NoProfile => t1
    case StudentProfile(c, par) => t1.(students := t.students[n.profileId.value := Student(n.userId, c, par)])
    case TeacherProfile => t1.(teachers := t.teachers[n.profileId.value := Teacher(n.userId)])
    case ParentProfile => t1.(parents := t.parents[n.profileId.value := Parent(n.userId)])
  }

  lemma IdOfDistinct(a: nat, b: nat)
    requires a != b
    ensures IdOf(a) != IdOf(b)
  {
    if IdOf(a) == IdOf(b) {
      assert IdOf(a)[1..] == NatToString(a);
      assert IdOf(b)[1..] == NatToString(b);
      NatToStringInjective(a, b);
    }
  }

  /** The database: its tables, and the counter that stands for its id generator. */
  class Db {
    var users: map<Id, User>
    var students: map<Id, Student>
    var teachers: map<Id, Teacher>
    var parents: map<Id, Parent>
    var classes: map<Id, Class>
    var attendance: seq<Attendance>
    var nextId: nat

    function State(): Tables
      reads this
    {
      Tables(users, students, teachers, parents, classes, attendance)
    }

    ghost predicate Valid()
      reads this
    {
      Consistent(State(), nextId)
    }

    /** An empty database. */
    constructor ()
      ensures Valid()
      ensures State() == Tables(map[], map[], map[], map[], map[], [])
    {
      users, students, teachers, parents, classes, attendance := map[], map[], map[], map[], map[], [];
      nextId := 0;
    }

    /** A fresh id, never used by any record. */
    method NewId() returns (id: Id)
      requires Valid()
      modifies this`nextId
      ensures Valid()
      ensures Unused(State(), id) && nextId > old(nextId)
      ensures forall k: nat :: k >= nextId ==> IdOf(k) != id
    {
      id := IdOf(nextId);
      forall k: nat | k >= nextId + 1 ensures IdOf(k) != id {
        IdOfDistinct(k, nextId);
      }
      nextId := nextId + 1;
    }

    /** `class.create({ data: { name } })` */
    method InsertClass(name: string) returns (id: Id)
      requires Valid()
      modifies this
      ensures Valid()
      ensures Unused(old(State()), id)
      ensures State() == old(State()).(classes := old(classes)[id := Class(name)])
    {
      id := NewId();
      classes := classes[id := Class(name)];
    }

    /**
     * `user.create` with a nested profile `create`, done atomically. It fails,
     * changing nothing, when the e-mail is taken or the profile names a class
     * or parent that does not exist.
     */
    method InsertUser(name: string, email: string, password: PasswordHash, role: Role, profile: ProfileSpec)
      returns (r: Option<NewUser>)
      requires Valid() && Fits(role, profile)
      modifies this
      ensures Valid()
      ensures r.None? <==> EmailTaken(old(users), email) || !Resolves(old(State()), profile)
      ensures r.None? ==> State() == old(State())
      ensures r.Some? ==>
        && (profile.NoProfile? <==> r.value.profileId.None?)
        && Unused(old(State()), r.value.userId)
        && (r.value.profileId.Some? ==> Unused(old(State()), r.value.profileId.value) && r.value.profileId.value != r.value.userId)
        && State() == WithUser(old(State()), r.value, User(name, email, password, role), profile)
    {
      if EmailTaken(users, email) || !Resolves(State(), profile) {
        return None;
      }
      var u := User(name, email, password, role);
      var uid := AddUserRow(u);
      if profile.NoProfile? {
        r := Some(NewUser(uid, None));
      } else {
        var pid := AddProfileRow(uid, profile);
        r := Some(NewUser(uid, Some(pid)));
      }
    }

    /** The user row of `InsertUser`. */
    method AddUserRow(u: User) returns (uid: Id)
      requires Valid() && !EmailTaken(users, u.email)
      modifies this
      ensures Valid()
      ensures Unused(old(State()), uid)
      ensures State() == old(State()).(users := old(users)[uid := u])
    {
      uid := NewId();
      AddUser(State(), nextId, uid, u);
      users := users[uid := u];
    }

    /** The nested profile row of `InsertUser`, for a user that has none of this kind yet. */
    method AddProfileRow(uid: Id, profile: ProfileSpec) returns (pid: Id)
      requires Valid() && !profile.NoProfile? && uid in users && Fits(users[uid].role, profile)
      requires Resolves(State(), profile)
      requires forall x :: x in students ==> students[x].userId != uid
      requires forall x :: x in teachers ==> teachers[x].userId != uid
      requires forall x :: x in parents ==> parents[x].userId != uid
      modifies this
      ensures Valid()
      ensures Unused(old(State()), pid) && pid != uid
      ensures profile.StudentProfile? ==>
        State() == old(State()).(students := old(students)[pid := Student(uid, profile.classId, profile.parentId)])
      ensures profile.TeacherProfile? ==> State() == old(State()).(teachers := old(teachers)[pid := Teacher(uid)])
      ensures profile.ParentProfile? ==> State() == old(State()).(parents := old(parents)[pid := Parent(uid)])
    {
      match profile
      case StudentProfile(c, par) =>
        pid := AddStudentRow(Student(uid, c, par));
      case TeacherProfile =>
        pid := AddTeacherRow(uid);
      case ParentProfile =>
        pid := AddParentRow(uid);
    }

    method AddStudentRow(st: Student) returns (pid: Id)
      requires Valid() && OwnedBy(State(), st.userId, STUDENT)
      requires st.classId.Some? ==> st.classId.value in classes
      requires st.parentId.Some? ==> st.parentId.value in parents
      requires forall x :: x in students ==> students[x].userId != st.userId
      modifies this
      ensures Valid()
      ensures Unused(old(State()), pid) && pid != st.userId
      ensures State() == old(State()).(students := old(students)[pid := st])
    {
      pid := NewId();
      AddStudent(State(), nextId, pid, st);
      students := students[pid := st];
    }

    method AddTeacherRow(uid: Id) returns (pid: Id)
      requires Valid() && OwnedBy(State(), uid, TEACHER)
      requires forall x :: x in teachers ==> teachers[x].userId != uid
      modifies this
      ensures Valid()
      ensures Unused(old(State()), pid) && pid != uid
      ensures State() == old(State()).(teachers := old(teachers)[pid := Teacher(uid)])
    {
      pid := NewId();
      AddTeacher(State(), nextId, pid, uid);
      teachers := teachers[pid := Teacher(uid)];
    }

    method AddParentRow(uid: Id) returns (pid: Id)
      requires Valid() && OwnedBy(State(), uid, PARENT)
      requires forall x :: x in parents ==> parents[x].userId != uid
      modifies this
      ensures Valid()
      ensures Unused(old(State()), pid) && pid != uid
      ensures State() == old(State()).(parents := old(parents)[pid := Parent(uid)])
    {
      pid := NewId();
      AddParent(State(), nextId, pid, uid);
      parents := parents[pid := Parent(uid)];
    }

    /** `attendance.create`: it fails, changing nothing, when the student or the teacher does not exist. */
    method InsertAttendance(studentId: Id, teacherId: Id, status: Status, date: int) returns (r: Option<Attendance>)
      requires Valid()
      modifies this
      ensures Valid()
      ensures r.None? <==> studentId !in old(students) || teacherId !in old(teachers)
      ensures r.None? ==> State() == old(State())
      ensures r.Some? ==>
        && r.value == Attendance(r.value.id, studentId, teacherId, status, date)
        && Unused(old(State()), r.value.id)
        && State() == old(State()).(attendance := old(attendance) + [r.value])
    {
      if studentId !in students || teacherId !in teachers {
        return None;
      }
      var id := NewId();
      var a := Attendance(id, studentId, teacherId, status, date);
      AddAttendance(State(), nextId, a);
      attendance := attendance + [a];
      r := Some(a);
    }
  }

  // ---------------------------------------------------------------------------
  // Each kind of insert keeps the store consistent.

  lemma AddUser(t: Tables, next: nat, uid: Id, u: User)
    requires Consistent(t, next) && Unused(t, uid) && !EmailTaken(t.users, u.email)
    requires forall k: nat :: k >= next ==> IdOf(k) != uid
    ensures Consistent(t.(users := t.users[uid := u]), next)
  {
    var t2 := t.(users := t.users[uid := u]);
    assert forall x :: x in t.users ==> t2.users[x] == t.users[x];
  }

  lemma AddStudent(t: Tables, next: nat, pid: Id, st: Student)
    requires Consistent(t, next) && pid !in t.students && OwnedBy(t, st.userId, STUDENT)
    requires forall k: nat :: k >= next ==> IdOf(k) != pid
    requires forall x :: x in t.students ==> t.students[x].userId != st.userId
    requires st.classId.Some? ==> st.classId.value in t.classes
    requires st.parentId.Some? ==> st.parentId.value in t.parents
    ensures Consistent(t.(students := t.students[pid := st]), next)
  {
    StudentFresh(t, next, pid, st);
    StudentLinked(t, pid, st);
    StudentOnce(t, pid, st);
  }

  lemma StudentFresh(t: Tables, next: nat, pid: Id, st: Student)
    requires FreshFrom(t, next)
    requires forall k: nat :: k >= next ==> IdOf(k) != pid
    ensures FreshFrom(t.(students := t.students[pid := st]), next)
  {
    var t2 := t.(students := t.students[pid := st]);
    forall k: nat | k >= next ensures Unused(t2, IdOf(k)) {
      assert Unused(t, IdOf(k));
    }
  }

  lemma StudentLinked(t: Tables, pid: Id, st: Student)
    requires StudentsLinked(t) && AttendanceLinked(t) && OwnedBy(t, st.userId, STUDENT)
    requires st.classId.Some? ==> st.classId.value in t.classes
    requires st.parentId.Some? ==> st.parentId.value in t.parents
    ensures StudentsLinked(t.(students := t.students[pid := st]))
    ensures AttendanceLinked(t.(students := t.students[pid := st]))
  {
  }

  lemma StudentOnce(t: Tables, pid: Id, st: Student)
    requires OneProfileEach(t) && pid !in t.students
    requires forall x :: x in t.students ==> t.students[x].userId != st.userId
    ensures OneProfileEach(t.(students := t.students[pid := st]))
  {
  }

  lemma AddTeacher(t: Tables, next: nat, pid: Id, uid: Id)
    requires Consistent(t, next) && pid !in t.teachers && OwnedBy(t, uid, TEACHER)
    requires forall k: nat :: k >= next ==> IdOf(k) != pid
    requires forall x :: x in t.teachers ==> t.teachers[x].userId != uid
    ensures Consistent(t.(teachers := t.teachers[pid := Teacher(uid)]), next)
  {
  }

  lemma AddParent(t: Tables, next: nat, pid: Id, uid: Id)
    requires Consistent(t, next) && pid !in t.parents && OwnedBy(t, uid, PARENT)
    requires forall k: nat :: k >= next ==> IdOf(k) != pid
    requires forall x :: x in t.parents ==> t.parents[x].userId != uid
    ensures Consistent(t.(parents := t.parents[pid := Parent(uid)]), next)
  {
  }

  lemma AddAttendance(t: Tables, next: nat, a: Attendance)
    requires Consistent(t, next) && a.studentId in t.students && a.teacherId in t.teachers
    requires forall k: nat :: k >= next ==> IdOf(k) != a.id
    ensures Consistent(t.(attendance := t.attendance + [a]), next)
  {
    var t2 := t.(attendance := t.attendance + [a]);
    forall k: nat | k >= next ensures Unused(t2, IdOf(k)) {
      assert Unused(t, IdOf(k));
      forall i | 0 <= i < |t2.attendance| ensures t2.attendance[i].id != IdOf(k) {
        if i < |t.attendance| { assert t2.attendance[i] == t.attendance[i]; }
      }
    }
    forall i | 0 <= i < |t2.attendance|
      ensures t2.attendance[i].studentId in t2.students && t2.attendance[i].teacherId in t2.teachers
    {
      if i < |t.attendance| { assert t2.attendance[i] == t.attendance[i]; }
    }
  }
}
