/**
 * The task service as the rest of the app sees it: `TodosServiceProtocol`, whose calls either
 * return a value or throw a `TodoServiceError`. The HTTP client behind it is not modelled.
 */
module Service {
  import opened Wrappers
  import opened Model

  /** `TodoServiceError`; the underlying `Error` payloads are not modelled. */
  datatype TodoServiceError = InvalidURL | NetworkError | InvalidResponse | DecodingError

  /** What a service call returns: its value, or the error it threw. */
  type Outcome<T> = Result<T, TodoServiceError>

  /**
   * `fetchTodos(skip:limit:)` as a value: the outcome the service, in its current state,
   * gives for each request.
   */
  type Fetcher = (int, int) -> Outcome<seq<ToDo>>

  function Min(a: int, b: int): int { if a <= b then a else b }

  /**
   * The page a paginated remote collection serves for `skip` and `limit`: at most `limit`
   * tasks, taken in order from offset `skip`, and nothing past the end of the collection.
   */
  function RemotePage(remote: seq<ToDo>, skip: nat, limit: nat): (page: seq<ToDo>)
    ensures |page| <= limit
    ensures skip >= |remote| ==> page == []
    ensures skip <= |remote| ==> |page| == Min(limit, |remote| - skip)
    ensures forall i :: 0 <= i < |page| ==> skip + i < |remote| && page[i] == remote[skip + i]
  {
    remote[Min(skip, |remote|)..Min(skip + limit, |remote|)]
  }

  /** `fetch` never fails and answers every request with the matching page of `remote`. */
  ghost predicate ServesFrom(fetch: Fetcher, remote: seq<ToDo>) {
    forall skip: int, limit: int ::
      0 <= skip && 0 <= limit ==> fetch(skip, limit) == Success(RemotePage(remote, skip, limit))
  }
}
