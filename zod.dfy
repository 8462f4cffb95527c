/** The small part of zod's object schemas the request validators use: a
    body field is absent, a string, or some other JSON value; a failed parse
    reports one issue per offending field, in the schema's field order.
    Keys the schema does not name are stripped, so a body is modelled by
    the named fields alone. */
module Zod {
  import opened Common

  datatype Field = Missing | Str(s: string) | NonString

  /** The zod issue codes that can arise here; `TooSmall` carries the
      schema's own message. */
  datatype IssueCode = InvalidType | TooSmall(message: string) | InvalidEnumValue

  datatype Issue = Issue(path: string, code: IssueCode)

  datatype Parsed<T> = Accepted(value: T) | Rejected(issues: seq<Issue>)

  /** `z.string().min(1, message)`: an absent or non-string field is of the
      wrong type, an empty string is too small. */
  function RequiredString(path: string, f: Field, message: string): (issues: seq<Issue>)
    ensures issues == [] <==> f.Str? && |f.s| >= 1
    ensures f == Str("") ==> issues == [Issue(path, TooSmall(message))]
    ensures !f.Str? ==> issues == [Issue(path, InvalidType)]
  {
    match f
    case Str(s) => if |s| >= 1 then [] else [Issue(path, TooSmall(message))]
    case _ => [Issue(path, InvalidType)]
  }

  /** `z.string().optional()`: absent or any string, the empty one included. */
  function OptionalString(path: string, f: Field): (issues: seq<Issue>)
    ensures issues == [] <==> !f.NonString?
  {
    if f.NonString? then [Issue(path, InvalidType)] else []
  }

  function StringOf(f: Field): Option<string> {
    if f.Str? then Some(f.s) else None
  }
}
