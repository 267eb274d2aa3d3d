/**
 * What the route handlers share: the signed-in session they read, the parts of
 * the environment they consult (clock, time zone, date and e-mail parsers),
 * and the JSON responses they return.
 */
module Api {
  import opened Wrappers
  import opened Store
  import opened Zod

  /** The server session: the signed-in user's id and role. */
  datatype Session = Session(userId: Id, role: Role)

  /**
   * The environment a handler runs in. `now` is the current instant in
   * milliseconds; local time is UTC shifted by `utcOffset` milliseconds;
   * `parseDate` is `new Date(text)` (None for an invalid date); `isEmail` is
   * zod's e-mail pattern.
   */
  datatype Env = Env(now: int, utcOffset: int, parseDate: string -> Option<int>, isEmail: string -> bool)

  /** The JSON bodies the handlers send. */
  datatype Body =
    | Error(error: string)
    | IssueList(issues: seq<Issue>)
    | Records(records: seq<Attendance>)
    | Record(record: Attendance)
    | StudentTable(students: map<Id, Student>)
    | StudentRecord(id: Id, student: Student)
    | Account(message: string, userId: Id)

  datatype Response = Response(status: int, body: Body)

  const Unauthorized := Response(401, Error("Unauthorized"))

  /** JavaScript truthiness of an optional string: present and not empty. */
  predicate Given(s: Option<string>) {
    s.Some? && s.value != ""
  }
}
