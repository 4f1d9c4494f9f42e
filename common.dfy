/** Shared vocabulary of the route handlers: optional request fields, JSON
    replies with an HTTP status, JavaScript truthiness of strings, and the
    two string prefix/suffix tests the handlers use. */
module Common {

  datatype Option<+T> = None | Some(value: T) {
    function GetOr(default: T): T
    {
      if Some? then value else default
    }
  }

  type UserId = string
  type ProductId = string
  type OrderId = string

  /** A JSON reply: a success body (optionally carrying the id of what was
      created) or an error body `{ error }`, each with its HTTP status. */
  datatype Reply =
    | Ok(status: nat, id: Option<string>)
    | Err(status: nat, error: string)

  /** `!!field` for a string field of a parsed JSON body: absent (undefined
      or null) and the empty string are falsy, every other string is truthy. */
  predicate Truthy(field: Option<string>)
  {
    field.Some? && |field.value| > 0
  }

  /** `s.startsWith(prefix)` */
  predicate StartsWith(s: string, prefix: string)
  {
    |prefix| <= |s| && s[..|prefix|] == prefix
  }

  /** `s.endsWith(suffix)` */
  predicate EndsWith(s: string, suffix: string)
  {
    |suffix| <= |s| && s[|s| - |suffix|..] == suffix
  }
}
