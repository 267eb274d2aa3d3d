/**
 * The schema checks the handlers run on their JSON bodies, with the issue
 * messages zod produces: `z.string()` with `.min(n)` or `.email()`,
 * `z.enum([...])`, `.optional()` and `z.union([z.string(), z.null()])`.
 *
 * The e-mail pattern is a parameter (`isEmail`). An object schema checks every
 * field and reports the issues of all failing fields, in the schema's order.
 */
module Zod {
  import opened Wrappers
  import opened Text

  /** A field of a JSON request body; `Other` carries zod's name for the value's type ("number", "boolean", "object", "array"). */
  datatype Json = Missing | Null | Str(s: string) | Other(kind: string)

  /** One validation issue: the field's path and the message. */
  datatype Issue = Issue(path: string, message: string)

  /** The outcome of a check: the parsed value, or at least one issue. */
  datatype Parsed<T> = Ok(value: T) | Fail(issues: seq<Issue>) {
    function Issues(): seq<Issue> {
      if Fail? then issues else []
    }
  }

  /** zod's name for the type of an unexpected value. */
  function Received(j: Json): string {
    match j
    case Missing => "undefined"
    case Null => "null"
    case Str(_) => "string"
    case Other(k) => k
  }

  /** The issue for a value of the wrong type: "Required" when it is absent. */
  function TypeIssue(path: string, expected: string, j: Json): Issue {
    if j.Missing? then Issue(path, "Required")
    else Issue(path, "Expected " + expected + ", received " + Received(j))
  }

  /** `z.string()` */
  function String(path: string, j: Json): (r: Parsed<string>)
    ensures r.Ok? <==> j.Str?
    ensures r.Ok? ==> r.value == j.s
    ensures r.Fail? ==> r.issues == [TypeIssue(path, "string", j)]
  {
    if j.Str? then Ok(j.s) else Fail([TypeIssue(path, "string", j)])
  }

  /** zod's default message for `.min(n)` on a string. */
  function MinMessage(n: nat): string {
    "String must contain at least " + NatToString(n) + " character(s)"
  }

  /** `z.string().min(n, message)` */
  function MinString(path: string, j: Json, n: nat, message: string): (r: Parsed<string>)
    ensures r.Ok? <==> j.Str? && |j.s| >= n
    ensures r.Ok? ==> r.value == j.s
    ensures j.Str? && |j.s| < n ==> r == Fail([Issue(path, message)])
    ensures r.Fail? ==> |r.issues| == 1
  {
    match String(path, j)
    case Fail(e) => Fail(e)
    case Ok(s) => if |s| < n then Fail([Issue(path, message)]) else Ok(s)
  }

  /** `z.string().email(message)`, with the pattern given as `isEmail`. */
  function EmailString(path: string, j: Json, isEmail: string -> bool, message: string): (r: Parsed<string>)
    ensures r.Ok? <==> j.Str? && isEmail(j.s)
    ensures r.Ok? ==> r.value == j.s
    ensures r.Fail? ==> |r.issues| == 1
  {
    match String(path, j)
    case Fail(e) => Fail(e)
    case Ok(s) => if isEmail(s) then Ok(s) else Fail([Issue(path, message)])
  }

  /** `'A' | 'B' | ...`, as zod lists enum options in its messages. */
  function QuotedOptions(options: seq<string>): string {
    if options == [] then ""
    else if |options| == 1 then "'" + options[0] + "'"
    else "'" + options[0] + "' | " + QuotedOptions(options[1..])
  }

  /** `z.enum(options)` */
  function Enum(path: string, j: Json, options: seq<string>): (r: Parsed<string>)
    ensures r.Ok? <==> j.Str? && j.s in options
    ensures r.Ok? ==> r.value == j.s
    ensures r.Fail? ==> |r.issues| == 1
  {
    if !j.Str? then Fail([TypeIssue(path, QuotedOptions(options), j)])
    else if j.s in options then Ok(j.s)
    else Fail([Issue(path, "Invalid enum value. Expected " + QuotedOptions(options) + ", received '" + j.s + "'")])
  }

  /** `z.string().optional()`: an absent field is accepted as no value; `null` is not. */
  function OptionalString(path: string, j: Json): (r: Parsed<Option<string>>)
    ensures r.Ok? <==> j.Missing? || j.Str?
    ensures r.Ok? ==> r.value == (if j.Str? then Some(j.s) else None)
    ensures r.Fail? ==> |r.issues| == 1
  {
    match j
    case Missing => Ok(None)
    case Str(s) => Ok(Some(s))
    case _ => Fail([TypeIssue(path, "string", j)])
  }

  /** `z.union([z.string(), z.null()]).optional()`: absent and `null` both give no value. */
  function NullableString(path: string, j: Json): (r: Parsed<Option<string>>)
    ensures r.Ok? <==> !j.Other?
    ensures r.Ok? ==> r.value == (if j.Str? then Some(j.s) else None)
    ensures r.Fail? ==> r.issues == [Issue(path, "Invalid input")]
  {
    match j
    case Missing => Ok(None)
    case Null => Ok(None)
    case Str(s) => Ok(Some(s))
    case Other(_) => Fail([Issue(path, "Invalid input")])
  }

  /** `parts.join(sep)` */
  function Join(parts: seq<string>, sep: string): string {
    if parts == [] then ""
    else if |parts| == 1 then parts[0]
    else parts[0] + sep + Join(parts[1..], sep)
  }

  /**
   * Every issue as `path: message`, joined by ", ": nothing for no issue, and
   * the first issue's text, a comma, then the rest's rendering for several.
   */
  function FormatIssues(issues: seq<Issue>): (r: string)
    ensures r == [] <==> issues == []
    ensures |issues| == 1 ==> r == issues[0].path + ": " + issues[0].message
    ensures |issues| >= 2 ==> r == issues[0].path + ": " + issues[0].message + ", " + FormatIssues(issues[1..])
  {
    var parts := seq(|issues|, i requires 0 <= i < |issues| => issues[i].path + ": " + issues[i].message);
    if |issues| < 2 then Join(parts, ", ")
    else
      var rest := seq(|issues| - 1, i requires 0 <= i < |issues| - 1 => issues[1..][i].path + ": " + issues[1..][i].message);
      assert parts == [parts[0], parts[1]] + parts[2..];
      JoinTwo(parts[0], parts[1], parts[2..], ", ");
      assert [parts[1]] + parts[2..] == rest;
      Join(parts, ", ")
  }

  lemma {:induction false} JoinTwo(a: string, b: string, rest: seq<string>, sep: string)
    ensures Join([a, b] + rest, sep) == a + sep + Join([b] + rest, sep)
  {
    assert ([a, b] + rest)[1..] == [b] + rest;
  }

  /**
   * A field the body leaves out: every string schema reports it with the one
   * issue "Required" at its path, whatever its refinements; `.optional()`
   * and the nullable union accept it as no value.
   */
  lemma AbsentIsRequired(path: string, n: nat, isEmail: string -> bool, message: string, options: seq<string>)
    ensures String(path, Missing) == Fail([Issue(path, "Required")])
    ensures MinString(path, Missing, n, message) == Fail([Issue(path, "Required")])
    ensures EmailString(path, Missing, isEmail, message) == Fail([Issue(path, "Required")])
    ensures Enum(path, Missing, options) == Fail([Issue(path, "Required")])
    ensures OptionalString(path, Missing) == Ok(None) && NullableString(path, Missing) == Ok(None)
  {
  }

  /**
   * A refinement only runs on a string: a value of another type gets the
   * type issue alone, the same for every string schema, whatever the
   * refinement's own message.
   */
  lemma WrongTypeBeforeRefinement(path: string, j: Json, n: nat, isEmail: string -> bool, message: string)
    requires !j.Str?
    ensures MinString(path, j, n, message) == String(path, j) == Fail([TypeIssue(path, "string", j)])
    ensures EmailString(path, j, isEmail, message) == String(path, j)
  {
  }

  /**
   * `z.union([z.string(), z.null()]).optional()` accepts every value
   * `z.string().optional()` accepts, with the same result, and `null`
   * besides; a value of another type is refused by both.
   */
  lemma NullableExtendsOptional(path: string, j: Json)
    ensures OptionalString(path, j).Ok? ==> NullableString(path, j) == OptionalString(path, j)
    ensures NullableString(path, Null) == Ok(None) && OptionalString(path, Null).Fail?
    ensures j.Other? ==> NullableString(path, j).Fail? && OptionalString(path, j).Fail?
  {
  }

  /** A longer minimum accepts fewer strings: every string `.min(m)` accepts, `.min(n)` accepts when n <= m. */
  lemma MinMonotone(path: string, j: Json, n: nat, m: nat, message: string)
    requires n <= m
    ensures MinString(path, j, m, message).Ok? ==> MinString(path, j, n, message) == MinString(path, j, m, message)
  {
  }
}
