/**
 * The edit/new task screen (`ToDoViewController`): its screen type decides what the two text
 * fields start with and which save, if any, leaving the screen asks the store for.
 */
module EditScreen {
  import opened Wrappers
  import opened Model
  import opened ViewModel

  /** `ScreenType`: editing the task at an index, or creating a new one. */
  datatype ScreenType = Edit(index: int) | New

  /**
   * The request `saveChanges()` sends to the store: none, `updateTask(at:title:description:)`,
   * or `addTask(title:description:)`. What the store does with them is not part of this model.
   */
  datatype SaveAction =
    | NoSave
    | UpdateTask(index: int, title: string, description: string)
    | AddTask(title: string, description: string)

  /**
   * `saveChanges()`: nothing for a missing or empty description; otherwise an update of the
   * edited index or an add, carrying the description and the title (a missing title as "").
   * The index is passed on as it is, in range or not.
   */
  function SaveDecision(screenType: ScreenType, titleText: Option<string>, descriptionText: Option<string>): (action: SaveAction)
    ensures action.NoSave? <==> descriptionText.None? || descriptionText.value == []
    ensures action.UpdateTask? <==> screenType.Edit? && !action.NoSave?
    ensures action.AddTask? <==> screenType.New? && !action.NoSave?
    ensures action.UpdateTask? ==> action.index == screenType.index
    ensures !action.NoSave? ==> action.description == descriptionText.value && action.description != []
    ensures !action.NoSave? ==> action.title == if titleText.Some? then titleText.value else []
  {
    match descriptionText
    case None => NoSave
    case Some(description) =>
      if description == [] then NoSave
      else
        var title := titleText.GetOr([]);
        match screenType
        case Edit(index) => UpdateTask(index, title, description)
        case New => AddTask(title, description)
  }

  /**
   * Leaving an edit screen that `setupScreen()` filled and the user did not touch re-saves the
   * task's title as both title and description, unless the title is empty.
   */
  lemma UneditedEditResaves(index: int, task: ToDo)
    ensures SaveDecision(Edit(index), Some(task.todo), Some(task.todo))
         == if task.todo == [] then NoSave else UpdateTask(index, task.todo, task.todo)
  {
  }

  /**
   * `ToDoViewController`, reduced to its store, its screen type and its two text fields. A text
   * field reads "" until text is assigned; `nil` is kept in the field's type because
   * `saveChanges()` handles it.
   */
  class ToDoViewController {
    const viewModel: ToDoListViewModel
    const screenType: ScreenType
    var titleText: Option<string>
    var descriptionText: Option<string>

    constructor (viewModel: ToDoListViewModel, screenType: ScreenType)
      ensures this.viewModel == viewModel && this.screenType == screenType
      ensures titleText == Some([]) && descriptionText == Some([])
    {
      this.viewModel := viewModel;
      this.screenType := screenType;
      titleText := Some([]);
      descriptionText := Some([]);
    }

    /**
     * `setupScreen()`: a new task starts with both fields empty; an edited task fills both with
     * its title when the index is below the list's length, and otherwise leaves them alone.
     * Only the upper bound is checked: a negative index stops the program at the subscript.
     */
    method SetupScreen()
      requires screenType.Edit? ==> 0 <= screenType.index
      modifies this
      ensures screenType.New? ==> titleText == Some([]) && descriptionText == Some([])
      ensures screenType.Edit? && screenType.index < |viewModel.tasks| ==>
        titleText == Some(viewModel.tasks[screenType.index].todo) &&
        descriptionText == Some(viewModel.tasks[screenType.index].todo)
      ensures screenType.Edit? && screenType.index >= |viewModel.tasks| ==>
        titleText == old(titleText) && descriptionText == old(descriptionText)
    {
      match screenType
      case Edit(index) =>
        if index < |viewModel.tasks| {
          var task := viewModel.tasks[index];
          titleText := Some(task.todo);
          descriptionText := Some(task.todo);
        }
      case New =>
        titleText := Some([]);
        descriptionText := Some([]);
    }

    /** `saveChanges()`, run from `viewWillDisappear`: the save the current fields call for. */
    method SaveChanges() returns (action: SaveAction)
      ensures action == SaveDecision(screenType, titleText, descriptionText)
    {
      action := SaveDecision(screenType, titleText, descriptionText);
    }
  }

  /** Opening the new-task screen and leaving it untouched saves nothing. */
  method UntouchedNewScreenSavesNothing(viewModel: ToDoListViewModel) returns (action: SaveAction)
    ensures action == NoSave
  {
    var screen := new ToDoViewController(viewModel, New);
    screen.SetupScreen();
    action := screen.SaveChanges();
  }

  /** Opening an edit screen whose index is past the end and leaving it untouched saves nothing: its description is still empty. */
  method UntouchedOutOfRangeEditSavesNothing(viewModel: ToDoListViewModel, index: int) returns (action: SaveAction)
    requires index >= |viewModel.tasks|
    ensures action == NoSave
  {
    var screen := new ToDoViewController(viewModel, Edit(index));
    screen.SetupScreen();
    action := screen.SaveChanges();
  }
}
