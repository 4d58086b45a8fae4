/**
 * The task-list store (`ToDoListViewModel`): it holds the tasks the list shows, loads the first
 * page, appends further pages, and posts a `tasksUpdated` notification after each change.
 */
module ViewModel {
  import opened Wrappers
  import opened Model
  import opened Service

  /** Every request asks for this many tasks. */
  const PageSize: int := 30

  /** The arguments of one `fetchTodos(skip:limit:)` call. */
  datatype PageRequest = PageRequest(skip: int, limit: int)

  /** The list after the initial load: a returned page replaces it, a failure keeps it. */
  function AfterInitialLoad(tasks: seq<ToDo>, outcome: Outcome<seq<ToDo>>): (loaded: seq<ToDo>)
    ensures outcome.Success? ==> loaded == outcome.value
    ensures outcome.Failure? ==> loaded == tasks
  {
    match outcome
    case Success(todos) => todos
    case Failure(_) => tasks
  }

  /**
   * The list after one more page: a returned page is appended after the tasks already held,
   * with nothing dropped or merged by id; a failure keeps the list.
   */
  function AfterMoreTasks(tasks: seq<ToDo>, outcome: Outcome<seq<ToDo>>): (extended: seq<ToDo>)
    ensures |tasks| <= |extended| && extended[..|tasks|] == tasks
    ensures outcome.Success? ==> |extended| == |tasks| + |outcome.value| && extended[|tasks|..] == outcome.value
    ensures outcome.Failure? ==> extended == tasks
  {
    match outcome
    case Success(todos) => tasks + todos
    case Failure(_) => tasks
  }

  /** The list after `n` more pages, each requested at the offset of the list's length then. */
  function Paginated(tasks: seq<ToDo>, fetch: Fetcher, n: nat): seq<ToDo>
    decreases n
  {
    if n == 0 then tasks else Paginated(AfterMoreTasks(tasks, fetch(|tasks|, PageSize)), fetch, n - 1)
  }

  /** Pagination never loses or reorders a task already held, whatever the service answers. */
  lemma {:induction false} PaginationKeepsPrefix(tasks: seq<ToDo>, fetch: Fetcher, n: nat)
    ensures |tasks| <= |Paginated(tasks, fetch, n)|
    ensures Paginated(tasks, fetch, n)[..|tasks|] == tasks
    decreases n
  {
    if n > 0 {
      var next := AfterMoreTasks(tasks, fetch(|tasks|, PageSize));
      PaginationKeepsPrefix(next, fetch, n - 1);
      assert Paginated(tasks, fetch, n)[..|tasks|] == Paginated(next, fetch, n - 1)[..|next|][..|tasks|];
    }
  }

  /**
   * Because each request starts at the current length, the pages of a well-behaved server fit
   * together without gap or overlap: a list holding the first `k` remote tasks holds the first
   * `k + n * PageSize` (or all of them) after `n` more pages.
   */
  lemma {:induction false} PaginationFollowsRemote(remote: seq<ToDo>, k: nat, fetch: Fetcher, n: nat)
    requires ServesFrom(fetch, remote)
    requires k <= |remote|
    ensures Paginated(remote[..k], fetch, n) == remote[..Min(k + n * PageSize, |remote|)]
    decreases n
  {
    if n > 0 {
      var k' := Min(k + PageSize, |remote|);
      assert fetch(k, PageSize) == Success(RemotePage(remote, k, PageSize));
      assert AfterMoreTasks(remote[..k], fetch(|remote[..k]|, PageSize)) == remote[..k'];
      PaginationFollowsRemote(remote, k', fetch, n - 1);
      assert Min(k' + (n - 1) * PageSize, |remote|) == Min(k + n * PageSize, |remote|);
    }
  }

  /** Initial load followed by `n` pages, against a well-behaved server: the first `(n + 1) * PageSize` remote tasks. */
  lemma LoadThenPaginateFollowsRemote(tasks: seq<ToDo>, remote: seq<ToDo>, fetch: Fetcher, n: nat)
    requires ServesFrom(fetch, remote)
    ensures Paginated(AfterInitialLoad(tasks, fetch(0, PageSize)), fetch, n) == remote[..Min((n + 1) * PageSize, |remote|)]
  {
    assert fetch(0, PageSize) == Success(RemotePage(remote, 0, PageSize));
    assert AfterInitialLoad(tasks, fetch(0, PageSize)) == remote[..Min(PageSize, |remote|)];
    PaginationFollowsRemote(remote, Min(PageSize, |remote|), fetch, n);
    assert Min(Min(PageSize, |remote|) + n * PageSize, |remote|) == Min((n + 1) * PageSize, |remote|);
  }

  /** `page` written `n` times in a row. */
  function Repeat(page: seq<ToDo>, n: nat): (r: seq<ToDo>)
    ensures |r| == n * |page|
    decreases n
  {
    if n == 0 then [] else page + Repeat(page, n - 1)
  }

  /**
   * A service that ignores `skip` and `limit` and always returns the same page gets that page
   * appended again on every pagination: ids are not de-duplicated.
   */
  lemma {:induction false} PaginationRepeatsConstantPage(tasks: seq<ToDo>, fetch: Fetcher, page: seq<ToDo>, n: nat)
    requires forall skip: int, limit: int :: fetch(skip, limit) == Success(page)
    ensures Paginated(tasks, fetch, n) == tasks + Repeat(page, n)
    ensures |Paginated(tasks, fetch, n)| == |tasks| + n * |page|
    decreases n
  {
    if n > 0 {
      assert fetch(|tasks|, PageSize) == Success(page);
      PaginationRepeatsConstantPage(tasks + page, fetch, page, n - 1);
      assert tasks + page + Repeat(page, n - 1) == tasks + Repeat(page, n);
    }
  }

  /** `ToDoListViewModel`. The service is passed to each call as the answers it gives. */
  class ToDoListViewModel {
    var tasks: seq<ToDo>
    /** The `tasksUpdated` notifications posted so far. */
    var tasksUpdatedPosts: nat
    /** Every request made to the service, in order. */
    ghost var requests: seq<PageRequest>

    /**
     * `init(todosService:)`: the list starts empty. The initial load it starts in the
     * background is the caller's next `FetchInitialTasks`.
     */
    constructor ()
      ensures tasks == [] && tasksUpdatedPosts == 0 && requests == []
    {
      tasks := [];
      tasksUpdatedPosts := 0;
      requests := [];
    }

    /**
     * `fetchInitialTasks()`: asks for the first page; on success the page replaces the list and
     * one notification is posted; on failure the error is only logged.
     */
    method FetchInitialTasks(fetch: Fetcher)
      modifies this
      ensures requests == old(requests) + [PageRequest(0, PageSize)]
      ensures tasks == AfterInitialLoad(old(tasks), fetch(0, PageSize))
      ensures tasksUpdatedPosts == old(tasksUpdatedPosts) + (if fetch(0, PageSize).Success? then 1 else 0)
    {
      requests := requests + [PageRequest(0, PageSize)];
      var outcome := fetch(0, PageSize);
      match outcome
      case Success(todos) =>
        tasks := todos;
        tasksUpdatedPosts := tasksUpdatedPosts + 1;
      case Failure(_) =>
    }

    /**
     * `fetchMoreTasks()`: asks for the page starting at the current length; on success it is
     * appended and one notification is posted; on failure the error is only logged.
     */
    method FetchMoreTasks(fetch: Fetcher)
      modifies this
      ensures requests == old(requests) + [PageRequest(|old(tasks)|, PageSize)]
      ensures tasks == AfterMoreTasks(old(tasks), fetch(|old(tasks)|, PageSize))
      ensures tasksUpdatedPosts == old(tasksUpdatedPosts) + (if fetch(|old(tasks)|, PageSize).Success? then 1 else 0)
    {
      var skip := |tasks|;
      requests := requests + [PageRequest(skip, PageSize)];
      var outcome := fetch(skip, PageSize);
      match outcome
      case Success(newTodos) =>
        tasks := tasks + newTodos;
        tasksUpdatedPosts := tasksUpdatedPosts + 1;
      case Failure(_) =>
    }
  }
}
