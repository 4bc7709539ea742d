/**
 * How every list page loads its list: the normalised reply on success, otherwise the
 * list it already had and an error message.
 */
module Listing {
  import opened Wrappers
  import opened Records
  import opened ApiService

  /** A list page's data: the list shown and the error text (empty when none). */
  datatype ListState<T> = ListState(items: seq<T>, error: string)

  /** The page's list and error once its fetch has settled. */
  function AfterFetch<T>(state: ListState<T>, reply: Result<ListResponse<T>, ErrorBody>, fallback: string): (r: ListState<T>)
    ensures reply.Success? ==> r.items == Listed(reply.value) && r.error == state.error
    ensures reply.Failure? ==> r.items == state.items && r.error == MessageOr(reply.error, fallback)
  {
    match reply
    case Success(body) => state.(items := Listed(body))
    case Failure(e) => state.(error := MessageOr(e, fallback))
  }
}
