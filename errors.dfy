/**
 * Errors of the cache layer (cacher.go): a Go `error` value is either a plain
 * error with its message, or an `ErrGormCache` wrapping another error, whose
 * `Error()` prefixes the inner message with the plugin's name.
 */
module Errors {
  import opened Wrappers

  /** The plugin's name (`Name` in cacher.go). */
  const Name: string := "gorm-cache"

  /** A non-nil Go error. `nil` is `None` of an `Option<Error>`. */
  datatype Error = Plain(text: string) | ErrGormCache(err: Error)

  /** What `Error()` returns. */
  function Message(e: Error): (r: string)
    ensures e.Plain? ==> r == e.text
    ensures e.ErrGormCache? ==> |r| > |Name| && r[..|Name| + 1] == Name + ":" && r[|Name| + 1..] == Message(e.err)
  {
    match e
    case Plain(text) => text
    case ErrGormCache(inner) => Name + ":" + Message(inner)
  }

  /** `NewErrGormCache`: nil stays nil; anything else is wrapped once. */
  function NewErrGormCache(err: Option<Error>): (r: Option<Error>)
    ensures r.None? <==> err.None?
    ensures r.Some? ==> r.value.ErrGormCache? && r.value.err == err.value
    ensures r.Some? ==> Message(r.value) == "gorm-cache:" + Message(err.value)
  {
    match err
    case None => None
    case Some(e) => Some(ErrGormCache(e))
  }
}
