/**
 * `/api/attendance`: GET lists attendance records, filtered by student, class
 * and local calendar day and ordered newest first; POST lets a teacher record
 * one observation for a student.
 *
 * Every POST inserts a new record: nothing merges a second mark for the same
 * student and day into the first.
 */
module AttendanceApi {
  import opened Wrappers
  import opened Store
  import opened Zod
  import opened Api

  const MsPerDay: int := 86_400_000

  /** The local calendar day of instant `t` (local time is UTC shifted by `offset`), as a day number. */
  function LocalDay(t: int, offset: int): int {
    (t + offset) / MsPerDay
  }

  /** `setHours(0, 0, 0, 0)`: the local midnight that starts the day of `t`. */
  function DayStart(t: int, offset: int): (s: int)
    ensures s <= t < s + MsPerDay
    ensures LocalDay(s, offset) == LocalDay(t, offset)
  {
    t - (t + offset) % MsPerDay
  }

  /** `setHours(23, 59, 59, 999)`: the last millisecond of the day of `t`. */
  function DayEnd(t: int, offset: int): int {
    DayStart(t, offset) + MsPerDay - 1
  }

  /** The query-string parameters; an absent parameter is None. */
  datatype Query = Query(studentId: Option<string>, classId: Option<string>, date: Option<string>)

  /** The `date` parameter: not given, a parsed instant, or text `new Date` cannot parse. */
  datatype DateParam = NoDate | On(t: int) | BadDate

  function DateParamOf(q: Query, env: Env): (d: DateParam)
    ensures d.NoDate? <==> !Given(q.date)
    ensures d.On? ==> Given(q.date) && env.parseDate(q.date.value) == Some(d.t)
    ensures d.BadDate? <==> Given(q.date) && env.parseDate(q.date.value).None?
  {
    if !Given(q.date) then NoDate
    else match env.parseDate(q.date.value)
      case None => BadDate
      case Some(t) => On(t)
  }

  /** The `where` clause GET builds: a record matches every parameter that is given. */
  predicate Matches(a: Attendance, students: map<Id, Student>, q: Query, d: DateParam, offset: int) {
    && (Given(q.studentId) ==> a.studentId == q.studentId.value)
    && (d.On? ==> DayStart(d.t, offset) <= a.date <= DayEnd(d.t, offset))
    && (Given(q.classId) ==> a.studentId in students && students[a.studentId].classId == Some(q.classId.value))
  }

  /** `findMany({ where })`: the matching records, each as often as it is stored. */
  function Select(rs: seq<Attendance>, students: map<Id, Student>, q: Query, d: DateParam, offset: int): (r: seq<Attendance>)
    ensures forall a :: multiset(r)[a] == if Matches(a, students, q, d, offset) then multiset(rs)[a] else 0
  {
    if rs == [] then []
    else
      assert rs == [rs[0]] + rs[1..];
      (if Matches(rs[0], students, q, d, offset) then [rs[0]] else []) + Select(rs[1..], students, q, d, offset)
  }

  predicate SortedByDateDesc(s: seq<Attendance>) {
    forall i, j :: 0 <= i < j < |s| ==> s[i].date >= s[j].date
  }

  /** Place `x` before the first entry older than it. */
  function InsertByDate(x: Attendance, s: seq<Attendance>): (r: seq<Attendance>)
    ensures multiset(r) == multiset(s) + multiset{x}
  {
    if s == [] || x.date >= s[0].date then [x] + s
    else
      assert s == [s[0]] + s[1..];
      [s[0]] + InsertByDate(x, s[1..])
  }

  /** No entry is newer than `d`. */
  predicate NoneAfter(s: seq<Attendance>, d: int) {
    forall i :: 0 <= i < |s| ==> s[i].date <= d
  }

  lemma {:induction false} InsertBounded(x: Attendance, s: seq<Attendance>, d: int)
    requires NoneAfter(s, d) && x.date <= d
    ensures NoneAfter(InsertByDate(x, s), d)
  {
    if s != [] && x.date < s[0].date {
      InsertBounded(x, s[1..], d);
      var r := InsertByDate(x, s);
      forall i | 0 <= i < |r| ensures r[i].date <= d {
        if i > 0 { assert r[i] == InsertByDate(x, s[1..])[i - 1]; }
      }
    }
  }

  /** A newest-first list stays newest-first under an entry no older than all of it. */
  lemma SortedCons(h: Attendance, s: seq<Attendance>)
    requires SortedByDateDesc(s) && NoneAfter(s, h.date)
    ensures SortedByDateDesc([h] + s)
  {
    var r := [h] + s;
    forall i, j | 0 <= i < j < |r| ensures r[i].date >= r[j].date {
      assert r[j] == s[j - 1];
      if i > 0 { assert r[i] == s[i - 1]; }
    }
  }

  lemma {:induction false} InsertKeepsOrder(x: Attendance, s: seq<Attendance>)
    requires SortedByDateDesc(s)
    ensures SortedByDateDesc(InsertByDate(x, s))
  {
    if s == [] || x.date >= s[0].date {
      SortedCons(x, s);
    } else {
      InsertKeepsOrder(x, s[1..]);
      assert NoneAfter(s[1..], s[0].date);
      InsertBounded(x, s[1..], s[0].date);
      SortedCons(s[0], InsertByDate(x, s[1..]));
    }
  }

  /** `orderBy: { date: "desc" }` */
  function SortByDateDesc(s: seq<Attendance>): (r: seq<Attendance>)
    ensures SortedByDateDesc(r)
    ensures multiset(r) == multiset(s)
  {
    if s == [] then []
    else
      assert s == [s[0]] + s[1..];
      InsertKeepsOrder(s[0], SortByDateDesc(s[1..]));
      InsertByDate(s[0], SortByDateDesc(s[1..]))
  }

  /**
   * GET: 401 without a session; 500 when the date cannot be parsed; otherwise
   * 200 with exactly the matching records, newest first.
   */
  method Get(db: Db, session: Option<Session>, q: Query, env: Env) returns (resp: Response)
    ensures session.None? ==> resp == Unauthorized
    ensures session.Some? && DateParamOf(q, env).BadDate? ==> resp == Response(500, Error("Failed to fetch attendance"))
    ensures session.Some? && !DateParamOf(q, env).BadDate? ==>
      && resp.status == 200 && resp.body.Records?
      && SortedByDateDesc(resp.body.records)
      && forall a :: multiset(resp.body.records)[a] ==
           if Matches(a, db.students, q, DateParamOf(q, env), env.utcOffset) then multiset(db.attendance)[a] else 0
  {
    if session.None? {
      return Unauthorized;
    }
    var d := DateParamOf(q, env);
    if d.BadDate? {
      return Response(500, Error("Failed to fetch attendance"));
    }
    var found := Select(db.attendance, db.students, q, d, env.utcOffset);
    var sorted := SortByDateDesc(found);
    resp := Response(200, Records(sorted));
  }

  // ---------------------------------------------------------------------------
  // POST

  /** The JSON body of a POST. */
  datatype MarkBody = MarkBody(studentId: Json, status: Json, date: Json)

  /** A body that passed the schema. */
  datatype Mark = Mark(studentId: string, status: Status, date: Option<string>)

  const StatusNames: seq<string> := ["PRESENT", "ABSENT", "LATE"]

  function StatusOf(name: string): (s: Status)
    requires name in StatusNames
    ensures s.Name() == name
  {
    if name == "PRESENT" then PRESENT else if name == "ABSENT" then ABSENT else LATE
  }

  /** `createAttendanceSchema.parse(body)` */
  function ParseMark(b: MarkBody): (r: Parsed<Mark>)
    ensures r.Ok? <==> b.studentId.Str? && b.status.Str? && b.status.s in StatusNames && (b.date.Missing? || b.date.Str?)
    ensures r.Ok? ==>
      && r.value.studentId == b.studentId.s
      && r.value.status.Name() == b.status.s
      && r.value.date == (if b.date.Str? then Some(b.date.s) else None)
    ensures r.Fail? ==> 1 <= |r.issues| <= 3
    ensures r.Fail? ==> forall i :: 0 <= i < |r.issues| ==> r.issues[i].path in ["studentId", "status", "date"]
  {
    var id := String("studentId", b.studentId);
    var status := Enum("status", b.status, StatusNames);
    var date := OptionalString("date", b.date);
    if id.Ok? && status.Ok? && date.Ok? then Ok(Mark(id.value, StatusOf(status.value), date.value))
    else Fail(id.Issues() + status.Issues() + date.Issues())
  }

  /** `data.date ? new Date(data.date) : new Date()` */
  function MarkInstant(date: Option<string>, env: Env): (t: Option<int>)
    ensures !Given(date) ==> t == Some(env.now)
    ensures Given(date) ==> t == env.parseDate(date.value)
  {
    if Given(date) then env.parseDate(date.value) else Some(env.now)
  }

  predicate IsTeacher(session: Option<Session>) {
    session.Some? && session.value.role == TEACHER
  }

  /** `teacher.findUnique({ where: { userId } })` finds a profile. */
  predicate HasTeacherProfile(teachers: map<Id, Teacher>, userId: Id) {
    exists t :: t in teachers && teachers[t].userId == userId
  }

  /**
   * POST: 401 unless a teacher is signed in; 400 with the schema's issues;
   * 404 when the teacher has no profile; 500 when the date cannot be parsed
   * or the student does not exist; otherwise one new record, appended.
   */
  method Post(db: Db, session: Option<Session>, body: MarkBody, env: Env) returns (resp: Response)
    requires db.Valid()
    modifies db
    ensures db.Valid()
    ensures !IsTeacher(session) ==> resp == Unauthorized && db.State() == old(db.State())
    ensures IsTeacher(session) && ParseMark(body).Fail? ==>
      resp == Response(400, IssueList(ParseMark(body).issues)) && db.State() == old(db.State())
    ensures IsTeacher(session) && ParseMark(body).Ok? && !HasTeacherProfile(old(db.teachers), session.value.userId) ==>
      resp == Response(404, Error("Teacher not found")) && db.State() == old(db.State())
    ensures IsTeacher(session) && ParseMark(body).Ok? && HasTeacherProfile(old(db.teachers), session.value.userId) ==>
      var m := ParseMark(body).value;
      var when := MarkInstant(m.date, env);
      if when.None? || m.studentId !in old(db.students) then
        resp == Response(500, Error("Failed to create attendance")) && db.State() == old(db.State())
      else
        && resp.status == 201 && resp.body.Record?
        && var a := resp.body.record;
        && a == Attendance(a.id, m.studentId, a.teacherId, m.status, when.value)
        && a.teacherId in old(db.teachers) && old(db.teachers)[a.teacherId].userId == session.value.userId
        && Unused(old(db.State()), a.id)
        && db.State() == old(db.State()).(attendance := old(db.attendance) + [a])
  {
    if !IsTeacher(session) {
      return Unauthorized;
    }
    var parsed := ParseMark(body);
    if parsed.Fail? {
      return Response(400, IssueList(parsed.issues));
    }
    var m := parsed.value;
    if !HasTeacherProfile(db.teachers, session.value.userId) {
      return Response(404, Error("Teacher not found"));
    }
    var tid :| tid in db.teachers && db.teachers[tid].userId == session.value.userId;
    var when := MarkInstant(m.date, env);
    if when.None? {
      return Response(500, Error("Failed to create attendance"));
    }
    var r := db.InsertAttendance(m.studentId, tid, m.status, when.value);
    if r.None? {
      return Response(500, Error("Failed to create attendance"));
    }
    resp := Response(201, Record(r.value));
  }

  /** How many records of `rs` mark `studentId` on local day `day`. */
  function CountOnDay(rs: seq<Attendance>, studentId: Id, day: int, offset: int): nat {
    if rs == [] then 0
    else
      var here := if rs[0].studentId == studentId && LocalDay(rs[0].date, offset) == day then 1 else 0;
      here + CountOnDay(rs[1..], studentId, day, offset)
  }

  /** Appending a record raises the count of its student and day by one, whatever was there before. */
  lemma {:induction false} CountAfterAppend(rs: seq<Attendance>, a: Attendance, studentId: Id, day: int, offset: int)
    ensures CountOnDay(rs + [a], studentId, day, offset) ==
      CountOnDay(rs, studentId, day, offset) + (if a.studentId == studentId && LocalDay(a.date, offset) == day then 1 else 0)
  {
    if rs != [] {
      assert (rs + [a])[1..] == rs[1..] + [a];
      CountAfterAppend(rs[1..], a, studentId, day, offset);
    }
  }

  /** `y / MsPerDay == q` exactly when `y` lies in the q-th block of MsPerDay. */
  lemma DivWindow(y: int, q: int)
    ensures y / MsPerDay == q <==> q * MsPerDay <= y < q * MsPerDay + MsPerDay
  {
    var p := y / MsPerDay;
    assert p * MsPerDay <= y < p * MsPerDay + MsPerDay;
  }

  /** The GET date window holds exactly the instants of the same local day. */
  lemma {:induction false} WindowIsLocalDay(t: int, x: int, offset: int)
    ensures DayStart(t, offset) <= x <= DayEnd(t, offset) <==> LocalDay(x, offset) == LocalDay(t, offset)
  {
    var q := LocalDay(t, offset);
    DivWindow(t + offset, q);
    DivWindow(x + offset, q);
    assert DayStart(t, offset) == q * MsPerDay - offset;
  }

  /**
   * A record matches a GET exactly when it has the requested student, lies on
   * the requested local day, and belongs to a student of the requested class.
   */
  lemma {:induction false} MatchesByDay(a: Attendance, students: map<Id, Student>, q: Query, env: Env)
    requires DateParamOf(q, env).On?
    ensures Matches(a, students, q, DateParamOf(q, env), env.utcOffset) <==>
      && (Given(q.studentId) ==> a.studentId == q.studentId.value)
      && LocalDay(a.date, env.utcOffset) == LocalDay(DateParamOf(q, env).t, env.utcOffset)
      && (Given(q.classId) ==> a.studentId in students && students[a.studentId].classId == Some(q.classId.value))
  {
    WindowIsLocalDay(DateParamOf(q, env).t, a.date, env.utcOffset);
  }

  /**
   * Two identical POSTs by the same teacher both succeed and leave two
   * records for the student on that day.
   */
  method MarkTwice(db: Db, session: Option<Session>, body: MarkBody, env: Env) returns (first: Response, second: Response)
    requires db.Valid() && IsTeacher(session) && ParseMark(body).Ok?
    requires HasTeacherProfile(db.teachers, session.value.userId)
    requires ParseMark(body).value.studentId in db.students
    requires MarkInstant(ParseMark(body).value.date, env).Some?
    modifies db
    ensures db.Valid()
    ensures first.status == 201 && second.status == 201
    ensures var m := ParseMark(body).value;
      var day := LocalDay(MarkInstant(m.date, env).value, env.utcOffset);
      CountOnDay(db.attendance, m.studentId, day, env.utcOffset) ==
        CountOnDay(old(db.attendance), m.studentId, day, env.utcOffset) + 2
  {
    var m := ParseMark(body).value;
    var day := LocalDay(MarkInstant(m.date, env).value, env.utcOffset);
    ghost var before := db.attendance;
    first := Post(db, session, body, env);
    var a := first.body.record;
    CountAfterAppend(before, a, m.studentId, day, env.utcOffset);
    ghost var middle := db.attendance;
    second := Post(db, session, body, env);
    var b := second.body.record;
    CountAfterAppend(middle, b, m.studentId, day, env.utcOffset);
  }
}
