/**
 * The test double of the task service (`MockToDoService`): its answers are fields the tests set,
 * and none of its calls ever fails.
 */
module Mock {
  import opened Wrappers
  import opened Model
  import opened Service
  import opened ViewModel

  /** The id the mock gives a created task when no answer is stubbed. */
  const DefaultAddedId: int := 999

  class MockToDoService {
    var stubbedTodos: seq<ToDo>
    var stubbedAddTodo: Option<ToDo>
    var stubbedUpdateTodo: Option<ToDo>

    constructor ()
      ensures stubbedTodos == [] && stubbedAddTodo == None && stubbedUpdateTodo == None
    {
      stubbedTodos := [];
      stubbedAddTodo := None;
      stubbedUpdateTodo := None;
    }

    /** `fetchTodos(skip:limit:)`: never fails, and answers every page with the stubbed list. */
    function FetchTodos(skip: int, limit: int): (r: Outcome<seq<ToDo>>)
      reads this
      ensures r.Success? && r.value == stubbedTodos
    {
      Success(stubbedTodos)
    }

    /** The mock's current answers to `fetchTodos`, as the view model receives them. */
    function AsFetcher(): (fetch: Fetcher)
      reads this
      ensures forall skip: int, limit: int :: fetch(skip, limit) == FetchTodos(skip, limit)
    {
      var todos := stubbedTodos;
      (skip: int, limit: int) => Success(todos)
    }

    /**
     * `addTodo(todo:completed:userId:)`: never fails; the stubbed task if there is one, else a
     * task with id 999 carrying exactly the requested title, status and owner.
     */
    function AddTodo(todo: string, completed: bool, userId: int): (r: Outcome<ToDo>)
      reads this
      ensures r.Success?
      ensures stubbedAddTodo.Some? ==> r.value == stubbedAddTodo.value
      ensures stubbedAddTodo.None? ==>
        r.value.id == DefaultAddedId && r.value.todo == todo && r.value.completed == completed && r.value.userId == userId
    {
      Success(stubbedAddTodo.GetOr(ToDo(DefaultAddedId, todo, completed, userId)))
    }

    /**
     * `updateTodo(id:completed:)`: never fails; the stubbed task if there is one, else the
     * requested id and status with the title "Updated" and owner 1.
     */
    function UpdateTodo(id: int, completed: bool): (r: Outcome<ToDo>)
      reads this
      ensures r.Success?
      ensures stubbedUpdateTodo.Some? ==> r.value == stubbedUpdateTodo.value
      ensures stubbedUpdateTodo.None? ==>
        r.value.id == id && r.value.completed == completed && r.value.todo == "Updated" && r.value.userId == 1
    {
      Success(stubbedUpdateTodo.GetOr(ToDo(id, "Updated", completed, 1)))
    }
  }

  /**
   * Against the mock, the initial load and every later page bring the stubbed list again, so
   * after `n` pages the store holds `n + 1` copies of it.
   */
  lemma MockPaginationRepeatsStub(mock: MockToDoService, tasks: seq<ToDo>, n: nat)
    ensures Paginated(AfterInitialLoad(tasks, mock.AsFetcher()(0, PageSize)), mock.AsFetcher(), n)
         == Repeat(mock.stubbedTodos, n + 1)
  {
    var fetch := mock.AsFetcher();
    var stub := mock.stubbedTodos;
    assert forall skip: int, limit: int :: fetch(skip, limit) == Success(stub);
    PaginationRepeatsConstantPage(stub, fetch, stub, n);
    assert Repeat(stub, n + 1) == stub + Repeat(stub, n);
  }

  /**
   * `testFetchInitialTasksLoadsTasks`: the store's own initial load runs against the empty
   * stub, then the test stubs two tasks and loads again. Two tasks are left, the first titled
   * "Test 1", and each load has posted a notification.
   */
  method FetchInitialTasksLoadsTasks() returns (count: int, firstTitle: string, posts: nat)
    ensures count == 2 && firstTitle == "Test 1" && posts == 2
  {
    var mockService := new MockToDoService();
    var viewModel := new ToDoListViewModel();
    viewModel.FetchInitialTasks(mockService.AsFetcher());
    mockService.stubbedTodos := [
      ToDo(1, "Test 1", false, 1),
      ToDo(2, "Test 2", true, 1)
    ];
    viewModel.FetchInitialTasks(mockService.AsFetcher());
    count := |viewModel.tasks|;
    firstTitle := viewModel.tasks[0].todo;
    posts := viewModel.tasksUpdatedPosts;
  }
}
