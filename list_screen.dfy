/**
 * The task-list screen (`ToDoListViewController`): a table with one row per task of the store,
 * a footer that counts the tasks, and a search bar that filters the store's list in place.
 */
module ListScreen {
  import opened Wrappers
  import opened Model
  import opened Service
  import opened ViewModel
  import opened Footer
  import opened Cell

  /** `lowercased()` on one character, for the Latin and basic Cyrillic alphabets. */
  function LowerChar(c: char): char {
    if 'A' <= c <= 'Z' || 'А' <= c <= 'Я' then (c as int + 32) as char
    else if c == 'Ё' then 'ё'
    else c
  }

  /** `lowercased()`: each character lowered, nothing added or removed. */
  function Lowercased(s: string): (r: string)
    ensures |r| == |s|
    ensures forall i :: 0 <= i < |s| ==> r[i] == LowerChar(s[i])
  {
    seq(|s|, i requires 0 <= i < |s| => LowerChar(s[i]))
  }

  /** `contains(_:)`: `part` is a prefix of `s` or of one of its suffixes. */
  predicate Contains(s: string, part: string)
    ensures part == [] ==> Contains(s, part)
    ensures Contains(s, part) ==> |part| <= |s|
    decreases |s|
  {
    part <= s || (s != [] && Contains(s[1..], part))
  }

  /** `part` stands in `s` at offset `i`. */
  ghost predicate OccursAt(s: string, part: string, i: int) {
    0 <= i && i + |part| <= |s| && s[i..i + |part|] == part
  }

  /** `Contains` is "occurs at some offset". */
  lemma {:induction false} ContainsIffOccurs(s: string, part: string)
    ensures Contains(s, part) <==> exists i :: OccursAt(s, part, i)
    decreases |s|
  {
    if part <= s {
      assert OccursAt(s, part, 0);
    } else if s != [] {
      ContainsIffOccurs(s[1..], part);
      if exists i :: OccursAt(s[1..], part, i) {
        var i :| OccursAt(s[1..], part, i);
        assert s[i + 1..i + 1 + |part|] == s[1..][i..i + |part|];
        assert OccursAt(s, part, i + 1);
      }
      if exists i :: OccursAt(s, part, i) {
        var i :| OccursAt(s, part, i);
        if i > 0 {
          assert s[1..][i - 1..i - 1 + |part|] == s[i..i + |part|];
          assert OccursAt(s[1..], part, i - 1);
        }
      }
    }
  }

  /** The search condition: the lowercased title contains the lowercased query. */
  predicate Matches(task: ToDo, query: string)
    ensures query == [] ==> Matches(task, query)
    ensures Matches(task, query) ==> |query| <= |task.todo|
  {
    Contains(Lowercased(task.todo), Lowercased(query))
  }

  /** `filter`: the tasks that match `query`, in their original order. */
  function FilterByQuery(tasks: seq<ToDo>, query: string): (kept: seq<ToDo>)
    ensures |kept| <= |tasks|
    ensures forall t :: t in kept ==> t in tasks && Matches(t, query)
    decreases |tasks|
  {
    if tasks == [] then []
    else if Matches(tasks[0], query) then [tasks[0]] + FilterByQuery(tasks[1..], query)
    else FilterByQuery(tasks[1..], query)
  }

  /** What `searchBar(_:textDidChange:)` leaves in the store: the list unchanged for an empty text, else the filtered list. */
  function SearchResult(tasks: seq<ToDo>, searchText: string): (shown: seq<ToDo>)
    ensures searchText == [] ==> shown == tasks
    ensures |shown| <= |tasks|
  {
    if searchText == [] then tasks else FilterByQuery(tasks, searchText)
  }

  /** `a` is `b` with some elements left out, the rest kept in order. */
  predicate IsSubsequence(a: seq<ToDo>, b: seq<ToDo>)
    decreases |b|
  {
    a == [] || (b != [] && if a[0] == b[0] then IsSubsequence(a[1..], b[1..]) else IsSubsequence(a, b[1..]))
  }

  /** The filter keeps the order of the tasks it keeps. */
  lemma {:induction false} FilterIsSubsequence(tasks: seq<ToDo>, query: string)
    ensures IsSubsequence(FilterByQuery(tasks, query), tasks)
    decreases |tasks|
  {
    if tasks != [] {
      FilterIsSubsequence(tasks[1..], query);
      var rest := FilterByQuery(tasks[1..], query);
      if !Matches(tasks[0], query) && rest != [] {
        assert rest[0] in rest;
        if rest[0] == tasks[0] {
          assert false;
        }
      }
    }
  }

  /**
   * Exactly the matching tasks survive, every copy of them: a task appears in the result as often
   * as in the list if it matches, and not at all if it does not.
   */
  lemma {:induction false} FilterMultiplicity(tasks: seq<ToDo>, query: string, t: ToDo)
    ensures multiset(FilterByQuery(tasks, query))[t] == if Matches(t, query) then multiset(tasks)[t] else 0
    decreases |tasks|
  {
    if tasks != [] {
      FilterMultiplicity(tasks[1..], query, t);
      assert tasks == [tasks[0]] + tasks[1..];
    }
  }

  /** Filtering a filtered list by the same query changes nothing. */
  lemma {:induction false} FilterIdempotent(tasks: seq<ToDo>, query: string)
    ensures FilterByQuery(FilterByQuery(tasks, query), query) == FilterByQuery(tasks, query)
    decreases |tasks|
  {
    if tasks != [] {
      FilterIdempotent(tasks[1..], query);
    }
  }

  /** The same search text applied twice leaves what it left once. */
  lemma SearchIdempotent(tasks: seq<ToDo>, searchText: string)
    ensures SearchResult(SearchResult(tasks, searchText), searchText) == SearchResult(tasks, searchText)
  {
    if searchText != [] {
      FilterIdempotent(tasks, searchText);
    }
  }

  /**
   * Searches narrow the store's list one after the other: after `first` and then `second`, a task
   * is kept, with all its copies, only if it matches every non-empty one of them. Clearing the
   * text afterwards brings nothing back.
   */
  lemma SuccessiveSearchesNarrow(tasks: seq<ToDo>, first: string, second: string, t: ToDo)
    ensures multiset(SearchResult(SearchResult(tasks, first), second))[t]
         == if (first == [] || Matches(t, first)) && (second == [] || Matches(t, second)) then multiset(tasks)[t] else 0
  {
    if first != [] {
      FilterMultiplicity(tasks, first, t);
    }
    if second != [] {
      FilterMultiplicity(SearchResult(tasks, first), second, t);
    }
  }

  /** `ToDoListViewController`, reduced to the store it shows and its footer. */
  class ToDoListViewController {
    const viewModel: ToDoListViewModel
    const footerView: ToDoListFooterView

    /** `init(viewModel:)` with its lazily built footer, which is configured with the current count. */
    constructor (viewModel: ToDoListViewModel)
      ensures this.viewModel == viewModel && fresh(footerView)
      ensures footerView.taskCountText == TaskCountLabel(|viewModel.tasks|)
    {
      this.viewModel := viewModel;
      var footer := new ToDoListFooterView();
      footer.Configure(|viewModel.tasks|);
      this.footerView := footer;
    }

    /** `tasksUpdated()`, the observer of the store's notification: the footer counts the tasks held now. */
    method TasksUpdated()
      modifies footerView
      ensures footerView.taskCountText == TaskCountLabel(|viewModel.tasks|)
    {
      footerView.Configure(|viewModel.tasks|);
    }

    /** `tableView(_:numberOfRowsInSection:)`: one row per task. */
    method NumberOfRowsInSection(section: int) returns (rows: int)
      ensures rows == |viewModel.tasks|
    {
      rows := |viewModel.tasks|;
    }

    /**
     * `tableView(_:cellForRowAt:)`: a cell showing the task at `row`. No code of the screen sets
     * its completion handler, so none is set.
     */
    method CellForRowAt(row: int) returns (cell: ToDoListTableViewCell)
      requires 0 <= row < |viewModel.tasks|
      ensures fresh(cell) && cell.Displays(viewModel.tasks[row]) && !cell.hasCompletionHandler
    {
      cell := new ToDoListTableViewCell();
      var task := viewModel.tasks[row];
      cell.Configure(task);
    }

    /**
     * `searchBar(_:textDidChange:)`: overwrites the store's list with the search result. The
     * footer is not reconfigured and no notification is posted.
     */
    method SearchBarTextDidChange(searchText: string)
      modifies viewModel
      ensures viewModel.tasks == SearchResult(old(viewModel.tasks), searchText)
      ensures viewModel.tasksUpdatedPosts == old(viewModel.tasksUpdatedPosts)
      ensures viewModel.requests == old(viewModel.requests)
      ensures footerView.taskCountText == old(footerView.taskCountText)
    {
      viewModel.tasks := if searchText == [] then viewModel.tasks else FilterByQuery(viewModel.tasks, searchText);
    }

    /**
     * A scroll near the bottom: the store fetches one more page, and each notification it posts
     * reaches `TasksUpdated`, so the footer counts the longer list; after a failure it stays as it was.
     */
    method FetchMoreTasks(fetch: Fetcher)
      modifies viewModel, footerView
      ensures viewModel.requests == old(viewModel.requests) + [PageRequest(|old(viewModel.tasks)|, PageSize)]
      ensures viewModel.tasks == AfterMoreTasks(old(viewModel.tasks), fetch(|old(viewModel.tasks)|, PageSize))
      ensures viewModel.tasksUpdatedPosts ==
        old(viewModel.tasksUpdatedPosts) + (if fetch(|old(viewModel.tasks)|, PageSize).Success? then 1 else 0)
      ensures footerView.taskCountText ==
        if fetch(|old(viewModel.tasks)|, PageSize).Success? then TaskCountLabel(|viewModel.tasks|)
        else old(footerView.taskCountText)
    {
      var posts := viewModel.tasksUpdatedPosts;
      viewModel.FetchMoreTasks(fetch);
      if viewModel.tasksUpdatedPosts != posts {
        TasksUpdated();
      }
    }
  }
}
