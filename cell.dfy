/**
 * A row of the task list (`ToDoListTableViewCell`): a completion mark (an icon and its tint),
 * a title label and a task label, and an optional handler the cell tells the new completion
 * status to when the mark is tapped.
 */
module Cell {
  import opened Wrappers
  import opened Model

  /** System image names the completion mark shows. */
  const CircleIcon: string := "circle"
  const CheckmarkIcon: string := "checkmark.circle"

  datatype Tint = Gray | Yellow

  /** A label's attributed text: the string and whether it is struck through. */
  datatype StyledText = StyledText(text: string, strikethrough: bool)

  class ToDoListTableViewCell {
    /** Whether `onCompletionToggled` is set. */
    var hasCompletionHandler: bool
    var markIcon: string
    var markTint: Tint
    var titleLabel: Option<StyledText>
    var taskLabel: Option<StyledText>

    /** The cell shows `m`: mark, tint and both labels are what `configure(with: m)` sets. */
    ghost predicate Displays(m: ToDo)
      reads this
    {
      (markIcon == CheckmarkIcon <==> m.completed) && (markIcon == CircleIcon <==> !m.completed) &&
      (markTint == Yellow <==> m.completed) &&
      titleLabel == Some(StyledText(m.todo, m.completed)) &&
      taskLabel == Some(StyledText(m.todo, m.completed))
    }

    /** A new cell: an empty gray circle, no text, no handler. */
    constructor ()
      ensures markIcon == CircleIcon && markTint == Gray
      ensures titleLabel == None && taskLabel == None
      ensures !hasCompletionHandler
    {
      hasCompletionHandler := false;
      markIcon := CircleIcon;
      markTint := Gray;
      titleLabel := None;
      taskLabel := None;
    }

    /** `configure(with:)`: shows `m`; the handler stays as it was. */
    method Configure(m: ToDo)
      modifies this
      ensures Displays(m)
      ensures hasCompletionHandler == old(hasCompletionHandler)
    {
      markIcon := if m.completed then CheckmarkIcon else CircleIcon;
      markTint := if m.completed then Yellow else Gray;
      var titleText := m.todo;
      var taskText := m.todo;
      if m.completed {
        titleLabel := Some(StyledText(titleText, true));
        taskLabel := Some(StyledText(taskText, true));
      } else {
        titleLabel := Some(StyledText(titleText, false));
        taskLabel := Some(StyledText(taskText, false));
      }
    }

    /**
     * `toggleCompletion`: the status reported to the handler, `None` when no handler is set.
     * The status is read off the icon on display; the cell itself changes nothing.
     */
    method ToggleCompletion() returns (reported: Option<bool>)
      ensures reported.Some? <==> hasCompletionHandler
      ensures reported.Some? ==> (reported.value <==> markIcon == CircleIcon)
    {
      var newCompletionStatus := markIcon == CircleIcon;
      if hasCompletionHandler {
        reported := Some(newCompletionStatus);
      } else {
        reported := None;
      }
    }
  }

  /** Tapping the mark of a cell just configured with `m` reports the opposite of `m.completed`. */
  method ToggleAfterConfigure(m: ToDo) returns (reported: Option<bool>)
    ensures reported == Some(!m.completed)
  {
    var cell := new ToDoListTableViewCell();
    cell.hasCompletionHandler := true;
    cell.Configure(m);
    reported := cell.ToggleCompletion();
  }
}
