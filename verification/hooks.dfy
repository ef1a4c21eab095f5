/** The guard shared by the site's context hooks (`useAuth`, `useSupabase`):
    reading a context outside its provider throws. */
module Hooks {
  import opened Wrappers

  datatype HookError = MissingProvider(hook: string)

  /** The provider's value when one encloses the caller; an error naming the
      hook otherwise. */
  function UseContext<T>(context: Option<T>, hook: string): (r: Result<T, HookError>)
    ensures r.Success? <==> context.Some?
    ensures r.Success? ==> r.value == context.value
    ensures r.Failure? ==> r.error == MissingProvider(hook)
  {
    match context
    case Some(v) => Success(v)
    case None => Failure(MissingProvider(hook))
  }
}
