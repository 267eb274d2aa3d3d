# LSLS school management: a verified model of the request logic

LSLS is a school-management web application. Administrators, teachers,
students and parents sign in and work in their own area of the site. This
project models in Dafny the logic that decides what each request does:

- the route guard that runs before every page (`src/middleware.ts`): the
  `middleware` decision, the `authorized` callback and the path matcher;
- the attendance register (`/api/attendance`): filtered listing, newest first,
  and a teacher's new mark;
- student provisioning (`/api/students`): finding or creating the class and
  the parent, the loop that picks a free parent e-mail, and creating the
  student;
- open sign-up (`/api/auth/signup`): the schema, e-mail normalisation, the
  duplicate check and the profile each role gets;
- credential sign-in (`src/lib/auth.ts`): the normalised lookup, the password
  check, and how role and id travel from user to token to session;
- the pure part of the dashboard sidebar: the link tables, `getLinks` and the
  active-link test.

The database is the class `Store.Db`: one map per table (users, student,
teacher and parent profiles, classes) and a sequence of attendance records.
Its invariant `Valid()` covers unique e-mails, profiles owned by users of the
matching role, one profile of each kind per user, links that resolve, and
fresh ids. Every handler is a method on it. Each method's contract gives the
response for every branch, and gives the new store as a function of the old
one: unchanged, one record appended, or one user and profile added. The
request schemas are functions that return the parsed value or zod's issues.
The guard and the sidebar are functions, and lemmas state their properties.

Modules:
- `Wrappers`: `Option`.
- `Text`: the JavaScript string operations the code relies on.
- `Store`: the tables and the database class.
- `Zod`: the schema checks and their messages.
- `Api`: the session, the environment and the responses.
- `Middleware` and `Sidebar`: the guard and the menu.
- `AttendanceApi`, `StudentsApi`, `SignupApi` and `Auth`: the handlers and sign-in.

The attendance page treats a mark as one record per student and day: once a
record exists for the day, its button reads "Update Attendance"
(src/app/(dashboard)/student/attendance/mark/page.tsx:143 and 235). The
handler, however, always inserts a new record
(src/app/api/attendance/route.ts:85). The model follows the handler, and
`AttendanceApi.MarkTwice` shows that two identical marks leave two records.

## Model

| member | source | states |
|---|---|---|
| Text.NormaliseIdempotent | src/app/api/auth/signup/route.ts:19 | trimming then lower-casing an e-mail is idempotent, so a stored normalised address normalises to itself |
| Text.DotSpaces | src/app/api/students/route.ts:88 | `replace(/\s+/g, ".")` leaves no whitespace and never lengthens the text |
| Text.NatToStringInjective | src/app/api/students/route.ts:91 | distinct counters render as distinct decimal strings |
| Text.TrimShape | src/lib/auth.ts:22 | `trim` keeps a contiguous slice of its input that neither starts nor ends with whitespace |
| Text.TrimDropsOnlySpace | src/lib/auth.ts:22 | every character `trim` drops, before and after the slice it keeps, is whitespace |
| Middleware.NamespaceOf | src/middleware.ts:32-46 | the namespace found by the four prefix tests is one of admin/teacher/student/parent and prefixes the path; none found means no namespace prefixes it |
| Middleware.NamespacesExclusive | src/middleware.ts:32-46 | at most one namespace prefixes a path, so the order of the four tests cannot change the answer |
| Middleware.DecideByNamespace | src/middleware.ts:29-48 | on a protected path with a token, the guard redirects to "/" + role exactly when the path's namespace differs from the lower-cased role, and otherwise lets it through |
| Middleware.AuthPagesOpen | src/middleware.ts:12-19 | /login and /signup are let through without a token, and `authorized` accepts them whatever the token |
| Middleware.AuthPageRedirectsSignedIn | src/middleware.ts:14-18 | a token holder on /login or /signup is redirected to "/" + lower-cased role, or to /admin when the token has no role |
| Middleware.AnonymousGoesToLogin | src/middleware.ts:23-27 | without a token any other path outside /api/auth redirects to /login with the original path as callbackUrl |
| Middleware.ForeignNamespaceRedirects | src/middleware.ts:29-46 | a path in a namespace other than the token's role redirects to "/" + role |
| Middleware.OwnOrNoNamespaceAllowed | src/middleware.ts:29-48 | a path in the role's own namespace, or in none, is let through |
| Middleware.AdministratorIsAdminSpace | src/middleware.ts:32-34 | /administrator is admin space: a TEACHER is redirected to /teacher |
| Middleware.TeachersIsTeacherSpace | src/middleware.ts:36-38 | /teachers is teacher space: a STUDENT is redirected to /student |
| Middleware.AdministratorOpenToAdmin | src/middleware.ts:32-34 | an ADMIN may open /administrator |
| Middleware.NoRedirectLoop | src/middleware.ts:29-48 | for the four roles, every redirect goes to "/" + role, and that page is let through for the same token |
| Middleware.LoopForRoleExtendingNamespace | src/middleware.ts:29-46 | a role that only begins with a namespace name (e.g. "ADMINS") is redirected from its own home to itself |
| Middleware.MatcherExclusions | src/middleware.ts:74 | paths under /api, /_next/static, /_next/image, /favicon.ico, and any path containing a dot, are not intercepted |
| Middleware.ApiAuthNotMatched | src/middleware.ts:9 | every /api/auth path escapes the matcher, so the guard's /api/auth branch is never reached |
| Middleware.MatcherInterceptsLogin | src/middleware.ts:74 | /login is intercepted |
| Middleware.MatcherInterceptsDashboard | src/middleware.ts:74 | /admin/students is intercepted |
| Middleware.MatcherSkipsApiAndFiles | src/middleware.ts:74 | /api/students and /logo/images.jpeg are not intercepted |
| Middleware.SignInAgreesWithMiddleware | src/middleware.ts:23-27 | whenever `authorized` refuses a matched path, the library's sign-in redirect takes the place of the middleware's own redirect to /login with the path as callbackUrl |
| Middleware.GateProtectsNamespaces | src/middleware.ts:29-59 | a request into a role namespace that gets through the whole gate carries a token of that role |
| Sidebar.GetLinksByRole | src/components/dashboard/sidebar.tsx:61-74 | each of the four roles gets a table of five links, with its home first, /about last and the rest under home + "/"; any other role gets none |
| Sidebar.AdminTableShape | src/components/dashboard/sidebar.tsx:26-32 | the admin table starts at /admin, ends at /about, and its other links lie under /admin/ |
| Sidebar.TeacherTableShape | src/components/dashboard/sidebar.tsx:34-40 | the same for the teacher table and /teacher |
| Sidebar.StudentTableShape | src/components/dashboard/sidebar.tsx:42-48 | the same for the student table and /student |
| Sidebar.ParentTableShape | src/components/dashboard/sidebar.tsx:50-56 | the same for the parent table and /parent |
| Sidebar.ActiveOnItself | src/components/dashboard/sidebar.tsx:96 | a link is active on its own page |
| Sidebar.AdministratorNotUnderAdmin | src/components/dashboard/sidebar.tsx:96 | /administrator does not activate /admin, unlike the guard's plain prefix |
| Sidebar.NestedPageActivatesBoth | src/components/dashboard/sidebar.tsx:96 | /admin/students activates both /admin and /admin/students |
| Sidebar.ActiveImpliesPrefix | src/components/dashboard/sidebar.tsx:96 | an active link is a plain prefix of the page |
| Sidebar.LinksOpenToOwnRole | src/components/dashboard/sidebar.tsx:26-74 | the guard lets a holder of a role open every link of that role's menu |
| Store.IdOfDistinct | src/app/api/students/route.ts:64 | distinct counter values give distinct record ids |
| Store.Db.NewId | src/app/api/attendance/route.ts:85 | a new id is unused by every table and by every later id |
| Store.Db.InsertClass | src/app/api/students/route.ts:64-66 | adds exactly one class under a fresh id and keeps the store consistent |
| Store.Db.InsertUser | src/app/api/auth/signup/route.ts:38-51 | fails, changing nothing, exactly when the e-mail is taken or the profile names a missing class or parent; otherwise adds exactly the user and its one profile under fresh ids |
| Store.Db.AddUserRow | src/app/api/auth/signup/route.ts:100-108 | adds one user with a free e-mail under a fresh id, keeping the store consistent |
| Store.Db.AddProfileRow | src/app/api/students/route.ts:121-126 | adds one profile of the requested kind for a user who has none, keeping the store consistent |
| Store.Db.AddStudentRow | src/app/api/students/route.ts:121-126 | adds exactly one student profile under a fresh id, keeping the store consistent |
| Store.Db.AddTeacherRow | src/app/api/auth/signup/route.ts:65-67 | adds exactly one teacher profile under a fresh id, keeping the store consistent |
| Store.Db.AddParentRow | src/app/api/students/route.ts:103-105 | adds exactly one parent profile under a fresh id, keeping the store consistent |
| Store.Db.InsertAttendance | src/app/api/attendance/route.ts:85-91 | fails, changing nothing, exactly when the student or teacher is missing; otherwise appends one record under a fresh id |
| Store.AddUser | src/app/api/auth/signup/route.ts:100-108 | adding a user with a free e-mail under an unused id keeps every table constraint |
| Store.AddStudent | src/app/api/students/route.ts:121-126 | adding a student profile for a STUDENT user without one, naming existing class and parent, keeps every constraint |
| Store.AddTeacher | src/app/api/auth/signup/route.ts:65-67 | adding a teacher profile for a TEACHER user without one keeps every constraint |
| Store.AddParent | src/app/api/students/route.ts:103-105 | adding a parent profile for a PARENT user without one keeps every constraint |
| Store.AddAttendance | src/app/api/attendance/route.ts:85-91 | appending a record under an unused id that names an existing student and teacher keeps every constraint |
| Zod.FormatIssues | src/app/api/students/route.ts:145 | the rendering is empty exactly when there is no issue; one issue is "path: message"; several are the first issue's "path: message", then ", ", then the rendering of the rest |
| Zod.AbsentIsRequired | src/app/api/students/route.ts:8-14 | a field left out of the body gets the single issue "Required" at its path from every string schema, whatever its `.min`, `.email` or enum refinement; `.optional()` and the string-or-null union accept it as no value |
| Zod.WrongTypeBeforeRefinement | src/app/api/auth/signup/route.ts:6-11 | a value that is not a string gets the type issue alone, the same from `.min(n)` and `.email()` as from `z.string()`, whatever the refinement's message |
| Zod.NullableExtendsOptional | src/app/api/students/route.ts:12-13 | the string-or-null union accepts every value `z.string().optional()` accepts, with the same result, and null besides; a value of another type is refused by both |
| Zod.MinMonotone | src/app/api/auth/signup/route.ts:7-9 | a string `.min(m)` accepts is accepted, with the same value, by `.min(n)` for every n <= m |
| AttendanceApi.DayStart | src/app/api/attendance/route.ts:28-29 | local midnight is at or before the instant, less than a day before it, and on the same local day |
| AttendanceApi.WindowIsLocalDay | src/app/api/attendance/route.ts:27-32 | an instant lies between 00:00:00.000 and 23:59:59.999 of the requested day exactly when it falls on the same local day |
| AttendanceApi.MatchesByDay | src/app/api/attendance/route.ts:25-36 | with a date, a record matches exactly when it has the given student, the given class and the requested local day |
| AttendanceApi.Select | src/app/api/attendance/route.ts:38-39 | the query returns each matching record exactly as often as it is stored, and no other record |
| AttendanceApi.InsertByDate | src/app/api/attendance/route.ts:53 | inserting keeps every element and adds one |
| AttendanceApi.InsertKeepsOrder | src/app/api/attendance/route.ts:53 | inserting into a list ordered newest first keeps it ordered |
| AttendanceApi.InsertBounded | src/app/api/attendance/route.ts:53 | inserting a record no newer than a bound into a list no newer than it gives a list no newer than it |
| AttendanceApi.SortByDateDesc | src/app/api/attendance/route.ts:53 | the ordering is a permutation of its input with non-increasing dates |
| AttendanceApi.Get | src/app/api/attendance/route.ts:13-63 | 401 without a session; 500 for an unparseable date; otherwise 200 with exactly the matching records, newest first; the store is not modified |
| AttendanceApi.StatusOf | src/app/api/attendance/route.ts:9 | each accepted status name maps to the status of that name |
| AttendanceApi.ParseMark | src/app/api/attendance/route.ts:7-11 | a body is accepted exactly when studentId is a string, status is PRESENT/ABSENT/LATE and date is absent or a string; rejected bodies carry one to three issues naming those fields |
| AttendanceApi.Post | src/app/api/attendance/route.ts:65-116 | 401 unless a teacher is signed in; 400 with the issues; 404 without a teacher profile; 500 for a bad date or missing student, each leaving the store unchanged; otherwise 201 and exactly one record appended, with the student, status, instant and the caller's own teacher profile |
| AttendanceApi.CountAfterAppend | src/app/api/attendance/route.ts:85-91 | appending a record raises the count for its student and day by one, whatever was already there |
| AttendanceApi.MarkTwice | src/app/api/attendance/route.ts:85-106 | two identical marks both succeed and leave two more records for that student and day |
| StudentsApi.Get | src/app/api/students/route.ts:16-42 | 401 unless an administrator is signed in, otherwise every student profile |
| StudentsApi.ParseStudent | src/app/api/students/route.ts:8-14 | a body is accepted exactly when the name is non-empty, the e-mail is valid, the password has at least 6 characters and classNumber and parentName are absent, null or strings |
| StudentsApi.EmailBase | src/app/api/students/route.ts:88 | the generated address's base has no whitespace |
| StudentsApi.ParentEmailsDistinct | src/app/api/students/route.ts:88-92 | the candidate addresses for one name are pairwise distinct |
| StudentsApi.TriedSize | src/app/api/students/route.ts:89-93 | after k retries the loop has tried k distinct addresses, none of them a later candidate |
| StudentsApi.TriedTaken | src/app/api/students/route.ts:88-93 | every taken candidate passed is a distinct stored address, so the number of tries is bounded by the number of users |
| StudentsApi.FreeParentEmail | src/app/api/students/route.ts:88-93 | the loop ends, and returns the first candidate no user has, every earlier one being taken |
| StudentsApi.ResolveClass | src/app/api/students/route.ts:57-69 | no class for an absent or empty number; an existing "Class n" is reused with nothing created; otherwise exactly one class "Class n" is created |
| StudentsApi.ResolveParent | src/app/api/students/route.ts:72-113 | no parent for an absent or empty name; a parent whose user has that name is reused with nothing created; otherwise exactly one PARENT user is created, with the first free generated address, the hash of "temp123" and one parent profile |
| StudentsApi.StudentEmail | src/app/api/auth/signup/route.ts:19 | the address sign-up would store, which the corrected POST uses, is in normal form (see Findings) |
| StudentsApi.Handle | src/app/api/students/route.ts:44-153 | the POST steps, with the outcome `Posted` for the stored-address choice given: 401 or 400 with every issue rendered leave the store unchanged; otherwise the class step, then the parent step, then 201 with one STUDENT user and a profile linked to both, or 500 when the address is taken, keeping what the earlier steps created |
| StudentsApi.Post | src/app/api/students/route.ts:44-153 | the route as written: `Posted` with the address stored, and checked for a duplicate, exactly as typed (line 118) |
| StudentsApi.PostNormalised | src/app/api/auth/signup/route.ts:19 | the corrected route: `Posted` with the address stored, and checked for a duplicate, in normal form as sign-up does |
| StudentsApi.CaseVariantIsNotDuplicate | src/app/api/students/route.ts:115-119 | when the only stored address is the normalised form of a typed address that differs from it (e.g. "a@b" stored, "A@b" typed), the typed address is not a duplicate as written, and is one when normalised |
| SignupApi.RoleOf | src/app/api/auth/signup/route.ts:10 | each accepted role name maps to the role of that name |
| SignupApi.RoleNamesExact | src/app/api/auth/signup/route.ts:115-118 | every role is spelled by one of the accepted names, so role dispatch always reaches a branch and "Invalid role" is unreachable |
| SignupApi.ParseSignup | src/app/api/auth/signup/route.ts:6-11 | a body is accepted exactly when the name is non-empty, the e-mail valid, the password at least 6 characters and the role one of four; the first issue, which the route returns (line 122), is that of the first failing field in schema order: "Required" or the type issue for a non-string, the schema's own message for a short name, bad e-mail or short password, zod's enum message listing the four roles for an unknown role |
| SignupApi.ProfileFor | src/app/api/auth/signup/route.ts:37-113 | STUDENT, TEACHER and PARENT get one profile of their kind, ADMIN gets none |
| SignupApi.Post | src/app/api/auth/signup/route.ts:13-133 | 400 with the first issue's message, or 400 "User with this email already exists" when the normalised address is in use, both leaving the store unchanged; otherwise 201 with the role's message and exactly one new user (normalised address, hashed password) plus its role's profile |
| Auth.Authorize | src/lib/auth.ts:15-56 | a user is returned exactly when both fields are non-empty and a stored user has the normalised e-mail and a matching password; it is that user's id, e-mail, name and role |
| Auth.OwnerUnique | src/lib/auth.ts:24-28 | the unique e-mail constraint makes the lookup find at most one user |
| Auth.JwtCallback | src/lib/auth.ts:60-66 | with a user, the token takes its role and id; without one the token is unchanged |
| Auth.SessionCallback | src/lib/auth.ts:67-73 | when the session has a user, it takes the token's role and id and keeps its name and e-mail |
| Auth.SignIn | src/lib/auth.ts:15-73 | after authorize, jwt and session, a signed-in user's token and session carry the stored role and id, and /login redirects to the role's home, `/` followed by the role in lower case (the first link of its menu, `Auth.LoginRedirectsToMenuHome`) |
| Auth.LoginRedirectsToMenuHome | src/middleware.ts:14-18 | the guard's redirect for a signed-in user on /login is the first link of the role's sidebar table |
| Auth.LoginFindsNormalisedEmail | src/lib/auth.ts:22-50 | a user stored under a normalised address signs in with any spelling that normalises to it, given the password |
| Auth.UnnormalisedEmailLocksOut | src/lib/auth.ts:22-33 | a user stored under an address not in normal form can never be returned, whatever is typed |
| Auth.MixedCaseAddress | src/app/api/students/route.ts:10 | "Ann@school.org", which the student form accepts, is not in normal form |
| Auth.AsWrittenStudentLockedOut | src/app/api/students/route.ts:115-119 | when the route as written creates a student from the e-mail "Ann@school.org", that student is stored under it and no credentials make `authorize` return that student |
| Auth.CreatedStudentSignsIn | src/lib/auth.ts:22-50 | a student stored under `StudentEmail(typed)` signs in by typing the same address |
| Auth.NormalisedStudentSignsIn | src/app/api/students/route.ts:115-119 | when the corrected route creates a student, `authorize` with the submitted address and password returns that student |

## Left out

- Prisma and its response shapes: responses carry the records themselves, not the related user, class, parent and teacher objects that `include` joins in.
- Database failures, `request.json()` failures and the catch-all 500 responses they lead to. A 500 is modelled only where the store itself refuses: a taken e-mail, a missing student, or an invalid date.
- Concurrency: each request is one atomic step, so races between a find and the following create are not modelled.
- bcrypt: a hash is `Bcrypt(secret)` without its salt, and `bcrypt.compare` is a parameter of `Auth.Authorize`.
- zod's e-mail pattern is the parameter `Env.isEmail`; `new Date(text)` is the parameter `Env.parseDate`; the clock is `Env.now`.
- AttendanceApi.DayStart: local time is UTC plus a fixed offset, so daylight-saving changes within a day are not modelled.
- Text.ToLower: lower-cases ASCII letters only, not the full Unicode mapping of `toLowerCase`.
- Zod.MinString: counts characters, where JavaScript counts UTF-16 code units (a character outside the Basic Multilingual Plane counts once here and twice there).
- A request body that is not a JSON object: every field is then absent, rather than the object-level zod issue.
- AttendanceApi.ParseMark: states how many issues a rejected body has and which fields they name, not each issue's full text.
- StudentsApi.ParseStudent: states the number of issues and the first issue for an empty name, not every message of a multi-field failure.
- `withAuth`'s own redirect when `authorized` refuses is an outcome (`Middleware.Gate`), not the library's URL construction.
- The session of `getServerSession` is given as an optional `Api.Session`; JWT signing, the secret and cookie handling are left out.
- Logging (`console.error`) and the React part of the sidebar (icons, rendering, sign-out).

## Findings

| source | as written | input that shows it | evidently intended | confidence | as-written member | corrected member |
|---|---|---|---|---|---|---|
| src/app/api/students/route.ts:115-119 | the student form stores the submitted e-mail unchanged, while sign-in looks up only the trimmed, lower-cased form (src/lib/auth.ts:22) | an administrator creates a student with e-mail "Ann@school.org"; no credentials ever sign that student in | store the address normalised, as sign-up does (src/app/api/auth/signup/route.ts:19) | high for the lock-out; not executed | Auth.AsWrittenStudentLockedOut | Auth.NormalisedStudentSignsIn |

`StudentsApi.Post` is the route as written: it stores the address as typed,
and its duplicate check compares it as typed
(`StudentsApi.CaseVariantIsNotDuplicate`). `StudentsApi.PostNormalised` is the
corrected route, which stores `StudentsApi.StudentEmail`; the two share their
steps (`StudentsApi.Handle`) and differ only in the stored address. The lock-out
also assumes that the database compares e-mails case-sensitively, which is
PostgreSQL's default; the datasource configuration is not part of this model.
