# ToDo-List: a Dafny model of the task list's core rules

The app shows a list of tasks (`ToDoModel`: id, title `todo`, `completed`, `userId`) fetched
page by page from a remote service. This project models the parts of it that are rules rather
than layout:

- the **task-list store** (`ToDoListViewModel`), a class whose `tasks` list is replaced by the
  first page and extended by later pages, each request asking for 30 tasks from offset 0 or
  from the current length. Every success posts one `tasksUpdated` notification. Every failure
  is only logged. The service is an abstract outcome: for each `(skip, limit)` it gives a list
  or a `TodoServiceError`;
- the **test double** `MockToDoService`, whose answers are stubbed fields, and the unit-test
  scenario that loads two stubbed tasks;
- the **list screen** (`ToDoListViewController`): one table row per task, a cell per row, a
  footer reconfigured on every notification, and a search that overwrites the store's list
  with the tasks whose lowercased title contains the lowercased query;
- the **footer label** (`ToDoListFooterView`): the count, a space and one of three noun forms;
- the **task cell** (`ToDoListTableViewCell`): mark icon, tint and struck-through labels set
  from `completed`, and the status a tap reports, read off the icon;
- the **edit/new screen** (`ToDoViewController`): how `ScreenType` fills the two text fields
  and which save request leaving the screen produces.

Files: `wrappers.dfy` (Option, Result), `model.dfy` (the task record), `service.dfy` (service
outcomes and a well-behaved paginated server), `decimal.dfy` (Swift's `"\(n)"` for integers
and its inverse), `view_model.dfy`, `mock_service.dfy`, `footer.dfy`, `cell.dfy`,
`list_screen.dfy`, `edit_screen.dfy`.

Modelling choices:

- Swift's `async` calls are sequential steps. The service is passed to each store operation
  as a total function from `(skip, limit)` to an outcome. This function is what the service
  answers in its current state, so a mock whose stubs change between calls is a new function.
- `NotificationCenter` is a counter of posted `tasksUpdated` notifications on the store. The
  list screen's `FetchMoreTasks` delivers a posted notification to its `TasksUpdated` observer
  straight away; `DispatchQueue.main.async` is not modelled.
- `init(todosService:)` starts the initial load in a background task. In the model the
  constructor leaves the list empty and the caller then runs `FetchInitialTasks`.
- `lowercased()` maps Latin `A`–`Z`, Cyrillic `А`–`Я` and `Ё` to lower case and leaves every
  other character alone.
- UIKit views are reduced to the state the code sets: the footer to its label text, a cell to
  its mark icon name, tint, two labels (text and strikethrough) and whether a handler is set,
  the edit screen to its two optional field texts.
- Save requests of the edit screen are values (`SaveAction`), because the store methods they
  call (`updateTask(at:title:description:)`, `addTask(title:description:)`) are not part of
  this model.

## Model

| member | source | states |
|---|---|---|
| `Service.RemotePage` | ToDo-List/ToDo-List/Services/TodosService.swift:37-64 | the page a paginated server returns for `skip`/`limit` holds exactly `min(limit, remaining)` tasks, taken in order from offset `skip`, and nothing past the end |
| `ViewModel.AfterInitialLoad` | ToDo-List/ToDo-List/ViewModel/ToDoListViewModel.swift:25-34 | a successful first page replaces the list; a failure leaves the list as it was |
| `ViewModel.AfterMoreTasks` | ToDo-List/ToDo-List/ViewModel/ToDoListViewModel.swift:36-45 | a successful page is appended: the old tasks stay as a prefix, the new length is the old length plus the page length, the page is the suffix, no de-duplication by id; a failure changes nothing |
| `ViewModel.PaginationKeepsPrefix` | ToDo-List/ToDo-List/ViewModel/ToDoListViewModel.swift:38-40 | after any number of paginations, whatever the service answers, the tasks held before are still the list's prefix |
| `ViewModel.PaginationFollowsRemote` | ToDo-List/ToDo-List/ViewModel/ToDoListViewModel.swift:38-40 | because each request's `skip` is the current length, pages from a well-behaved server join without gap or overlap: the first `k` remote tasks become the first `k + 30n` after `n` pages |
| `ViewModel.LoadThenPaginateFollowsRemote` | ToDo-List/ToDo-List/ViewModel/ToDoListViewModel.swift:27-40 | the initial load followed by `n` pages holds exactly the first `30(n+1)` remote tasks, or all of them |
| `ViewModel.PaginationRepeatsConstantPage` | ToDo-List/ToDo-List/ViewModel/ToDoListViewModel.swift:39-40 | against a service that always returns the same page, each pagination appends that page again; the length grows by the page length each time |
| `ViewModel.ToDoListViewModel.constructor` | ToDo-List/ToDo-List/ViewModel/ToDoListViewModel.swift:12-23 | a fresh store has an empty task list, has posted nothing and has made no request |
| `ViewModel.ToDoListViewModel.FetchInitialTasks` | ToDo-List/ToDo-List/ViewModel/ToDoListViewModel.swift:25-34 | requests skip 0, limit 30; the list becomes the returned page; exactly one notification is posted on success; on failure the list is unchanged and nothing is posted |
| `ViewModel.ToDoListViewModel.FetchMoreTasks` | ToDo-List/ToDo-List/ViewModel/ToDoListViewModel.swift:36-45 | requests skip = current length, limit 30; the page is appended; one notification on success; on failure the list is unchanged and nothing is posted |
| `Mock.MockToDoService.constructor` | ToDo-List/ToDo-ListTests/Mock/MockToDoService.swift:13-15 | the stubs start as an empty list and two `nil`s |
| `Mock.MockToDoService.FetchTodos` | ToDo-List/ToDo-ListTests/Mock/MockToDoService.swift:17-19 | never fails and returns the stubbed list whatever `skip` and `limit` are |
| `Mock.MockToDoService.AsFetcher` | ToDo-List/ToDo-ListTests/Mock/MockToDoService.swift:17-19 | the outcome function handed to the store answers every request as `FetchTodos` does |
| `Mock.MockToDoService.AddTodo` | ToDo-List/ToDo-ListTests/Mock/MockToDoService.swift:21-23 | never fails; returns the stubbed task when set, otherwise id 999 with exactly the requested title, status and owner |
| `Mock.MockToDoService.UpdateTodo` | ToDo-List/ToDo-ListTests/Mock/MockToDoService.swift:25-27 | never fails; returns the stubbed task when set, otherwise the requested id and status with title "Updated" and owner 1 |
| `Mock.MockPaginationRepeatsStub` | ToDo-List/ToDo-ListTests/Mock/MockToDoService.swift:17-19 | against the mock, the initial load and `n` paginations leave `n + 1` copies of the stubbed list in the store |
| `Mock.FetchInitialTasksLoadsTasks` | ToDo-List/ToDo-ListTests/ToDoListViewModelTest/ToDoListViewModelTests.swift:28-42 | the store's own initial load against the empty stub, then the test's load with two stubbed tasks: 2 tasks are left, the first titled "Test 1", and 2 notifications have been posted |
| `Decimal.NatToDecimal` | ToDo-List/ToDo-List/Helpers/ToDoListFooterView.swift:83-90 | the interpolated count is a non-empty string of decimal digits with no leading zero |
| `Decimal.IntToDecimal` | ToDo-List/ToDo-List/Helpers/ToDoListFooterView.swift:83-90 | the interpolated count is non-empty and contains no space |
| `Decimal.NatToDecimalValue` | ToDo-List/ToDo-List/Helpers/ToDoListFooterView.swift:83-90 | the digits of a natural number denote that number |
| `Decimal.ParseIntToDecimal` | ToDo-List/ToDo-List/Helpers/ToDoListFooterView.swift:83-90 | the interpolated text of every integer, negative ones included, reads back as that integer |
| `Footer.TaskNoun` | ToDo-List/ToDo-List/Helpers/ToDoListFooterView.swift:83-90 | "задача" exactly for 1; "задачи" exactly for every other count up to 4, 0 and negatives included; "задач" exactly for counts above 4 |
| `Footer.TaskCountLabel` | ToDo-List/ToDo-List/Helpers/ToDoListFooterView.swift:84-89 | the text `configure(taskCount:)` sets; its meaning is stated by `Footer.TaskCountLabelRoundTrip` |
| `Footer.TaskCountLabelRoundTrip` | ToDo-List/ToDo-List/Helpers/ToDoListFooterView.swift:83-90 | every label is the decimal count, one space and one of the three nouns: reading it back yields the count and the noun chosen |
| `Footer.TaskCountLabelInjective` | ToDo-List/ToDo-List/Helpers/ToDoListFooterView.swift:83-90 | different counts give different labels |
| `Footer.TaskCountLabelExamples` | ToDo-List/ToDo-List/Helpers/ToDoListFooterView.swift:83-90 | 1 gives "1 задача", 0, 4 and -2 give the "задачи" form, 11 and 21 give "задач", and 7 gives the label's initial text |
| `Footer.ToDoListFooterView.constructor` | ToDo-List/ToDo-List/Helpers/ToDoListFooterView.swift:14-21 | before any configure the label reads "7 задач" |
| `Footer.ToDoListFooterView.Configure` | ToDo-List/ToDo-List/Helpers/ToDoListFooterView.swift:83-90 | the label becomes the count's label |
| `Cell.ToDoListTableViewCell.constructor` | ToDo-List/ToDo-List/Helpers/ToDoListTableViewCell.swift:46-53 | a new cell shows a gray "circle" mark, no text and has no handler |
| `Cell.ToDoListTableViewCell.Configure` | ToDo-List/ToDo-List/Helpers/ToDoListTableViewCell.swift:69-120 | the icon is "checkmark.circle" if and only if the task is completed and "circle" otherwise; the tint is yellow if and only if completed; both labels show the title, struck through if and only if completed; the handler is kept |
| `Cell.ToDoListTableViewCell.ToggleCompletion` | ToDo-List/ToDo-List/Helpers/ToDoListTableViewCell.swift:64-67 | a status is reported if and only if a handler is set, and it is `true` if and only if the icon is "circle"; the cell's own state does not change |
| `Cell.ToggleAfterConfigure` | ToDo-List/ToDo-List/Helpers/ToDoListTableViewCell.swift:64-75 | tapping the mark right after configuring with a task reports the opposite of its `completed` |
| `ListScreen.Lowercased` | ToDo-List/ToDo-List/View/ToDoListViewController.swift:203 | lowercasing keeps the length and lowers each character on its own |
| `ListScreen.Contains` | ToDo-List/ToDo-List/View/ToDoListViewController.swift:203 | `contains`: an empty part is contained in every string, and a contained part is no longer than the string; its meaning is stated by `ListScreen.ContainsIffOccurs` |
| `ListScreen.ContainsIffOccurs` | ToDo-List/ToDo-List/View/ToDoListViewController.swift:203 | `contains` holds exactly when the query occurs at some offset of the title |
| `ListScreen.Matches` | ToDo-List/ToDo-List/View/ToDoListViewController.swift:203 | the filter closure: the lowercased title contains the lowercased query; the empty query matches every task, and a matching query is no longer than the title; which tasks it keeps is stated by `ListScreen.FilterMultiplicity` |
| `ListScreen.FilterByQuery` | ToDo-List/ToDo-List/View/ToDoListViewController.swift:202-204 | the filter never grows the list, and every kept task comes from the list and matches the query |
| `ListScreen.SearchResult` | ToDo-List/ToDo-List/View/ToDoListViewController.swift:202-204 | an empty search text leaves the list unchanged; no search grows it |
| `ListScreen.FilterIsSubsequence` | ToDo-List/ToDo-List/View/ToDoListViewController.swift:202-204 | the filtered list keeps the original order of the tasks it keeps |
| `ListScreen.FilterMultiplicity` | ToDo-List/ToDo-List/View/ToDoListViewController.swift:202-204 | every copy of a matching task is kept and no copy of a non-matching one: kept tasks match and dropped tasks do not |
| `ListScreen.FilterIdempotent` | ToDo-List/ToDo-List/View/ToDoListViewController.swift:202-204 | filtering twice by the same query is filtering once |
| `ListScreen.SearchIdempotent` | ToDo-List/ToDo-List/View/ToDoListViewController.swift:202-204 | applying the same search text twice equals applying it once |
| `ListScreen.SuccessiveSearchesNarrow` | ToDo-List/ToDo-List/View/ToDoListViewController.swift:202-204 | because the search overwrites the store's list, two searches keep only tasks matching both texts, and clearing the text restores nothing |
| `ListScreen.ToDoListViewController.constructor` | ToDo-List/ToDo-List/View/ToDoListViewController.swift:46-55 | the footer is created configured with the store's current task count |
| `ListScreen.ToDoListViewController.TasksUpdated` | ToDo-List/ToDo-List/View/ToDoListViewController.swift:129-134 | on a notification the footer shows the label of the current task count |
| `ListScreen.ToDoListViewController.NumberOfRowsInSection` | ToDo-List/ToDo-List/View/ToDoListViewController.swift:148-153 | the table has exactly one row per task of the store |
| `ListScreen.ToDoListViewController.CellForRowAt` | ToDo-List/ToDo-List/View/ToDoListViewController.swift:155-169 | for a row below the row count, a cell that displays the task at that row; it has no completion handler, because no code of the screen sets one |
| `ListScreen.ToDoListViewController.SearchBarTextDidChange` | ToDo-List/ToDo-List/View/ToDoListViewController.swift:201-206 | the store's list becomes the search result; no notification is posted, no request made and the footer keeps its text |
| `ListScreen.ToDoListViewController.FetchMoreTasks` | ToDo-List/ToDo-List/View/ToDoListViewController.swift:177-179 | the store appends the next page, and on success the delivered notification makes the footer count the longer list; after a failure the footer is unchanged |
| `EditScreen.SaveDecision` | ToDo-List/ToDo-List/View/ToDoViewController.swift:135-155 | nothing is saved exactly when the description is nil or empty; otherwise `.edit(i)` gives an update of index `i` (not bounds-checked) and `.new` an add, carrying the description and the title, a nil title as "" |
| `EditScreen.UneditedEditResaves` | ToDo-List/ToDo-List/View/ToDoViewController.swift:119-155 | an edit screen left untouched after setup re-saves the task's title as title and description, unless the title is empty |
| `EditScreen.ToDoViewController.constructor` | ToDo-List/ToDo-List/View/ToDoViewController.swift:60-64 | the screen keeps its store and screen type; both fields start as "" |
| `EditScreen.ToDoViewController.SetupScreen` | ToDo-List/ToDo-List/View/ToDoViewController.swift:119-133 | `.new` sets both fields to ""; `.edit(i)` with `i` below the task count sets both to that task's title; with `i` at or above it leaves both fields untouched |
| `EditScreen.ToDoViewController.SaveChanges` | ToDo-List/ToDo-List/View/ToDoViewController.swift:135-155 | the save request leaving the screen sends is the one the current fields call for |
| `EditScreen.UntouchedNewScreenSavesNothing` | ToDo-List/ToDo-List/View/ToDoViewController.swift:129-139 | a new-task screen left untouched saves nothing, because its description is empty |
| `EditScreen.UntouchedOutOfRangeEditSavesNothing` | ToDo-List/ToDo-List/View/ToDoViewController.swift:122-139 | an edit screen whose index is past the end, left untouched, saves nothing, because its description is still empty |

## Left out

- The HTTP client behind the service (URL building, `URLSession`, status codes 200 and 201, JSON decoding): the store sees only a list or an error. The transport's own errors, which the client rethrows unwrapped, are represented by `NetworkError`.
- `async`/`await`, `Task { … }`, `DispatchQueue.main` and `NotificationCenter`: every call is a sequential step and a notification is delivered at once. Two paginations overlapping in time cannot be expressed.
- `scrollViewDidScroll`'s threshold, which compares floating-point geometry: `ListScreen.ToDoListViewController.FetchMoreTasks` models only what happens once the threshold is crossed.
- `updateTasks()` (ToDoListViewController.swift:140-143) does what `TasksUpdated` does, without the main-queue hop, and is not modelled separately.
- `reloadData()` and the rendering of cells: the row count and the cell for a row are modelled; the table's redraw is not.
- ListScreen.ToDoListViewController.CellForRowAt: the model allocates a new cell for each row, while `dequeueReusableCell` hands back recycled cells; the aliasing this allows (one cell object reused for another row, and a re-configure overwriting what an earlier holder sees) is not captured.
- ListScreen.ToDoListViewController.constructor: the lazy `footerView` is built and configured in the constructor, not at its first access during `viewDidLoad`; in both cases it is configured with the current task count before it is shown.
- The fallback `UITableViewCell()` that `cellForRowAt` returns after a failed cast is not modelled: the cell class is registered, so the cast does not fail.
- `ListScreen.Lowercased`: Unicode case mapping beyond Latin `A`–`Z`, Cyrillic `А`–`Я` and `Ё` is not modelled, nor changes of length under case mapping or Swift's comparison by grapheme cluster.
- Fonts, colours other than the mark's tint, layout constraints, navigation bar set-up, and the date labels, which read the clock.
- `ViewModel.ToDoListViewModel.FetchInitialTasks` and `FetchMoreTasks`: the printed error message is not modelled.
- `addTask(title:description:)`, `updateTask(at:title:description:)`, `addTask(todo:)`, `updateTaskCompletion(at:completed:)` and `deleteTask(at:)`: the store shown has no such methods, so they are not part of this model; the edit screen's save is modelled up to the request it makes.
- `EditScreen.ToDoViewController.SaveChanges`: the add runs in a background task whose failure is only printed; the model returns the request and has no error path for it.
- `EditScreen.ToDoViewController.SetupScreen` requires a non-negative index for `.edit`: a negative index passes the guard and stops the program at the subscript.
- Swift's 64-bit `Int`: counts, ids and offsets are unbounded integers; no list in the app comes near the bound.
- A local persistence cache: no such code is part of this model.
