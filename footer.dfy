/**
 * The list screen's footer (`ToDoListFooterView`): a label that shows how many tasks there are,
 * as the number followed by the Russian word for "task" in one of three forms.
 */
module Footer {
  import opened Wrappers
  import opened Decimal

  /** The three forms of the noun the label uses. */
  const One: string := "задача"
  const Few: string := "задачи"
  const Many: string := "задач"

  /** The text the label is created with, before any `configure(taskCount:)`. */
  const InitialText: string := "7 задач"

  /** The noun `configure(taskCount:)` picks: singular for exactly 1, "few" for every other count up to 4, "many" above 4. */
  function TaskNoun(taskCount: int): (noun: string)
    ensures noun == One <==> taskCount == 1
    ensures noun == Few <==> taskCount != 1 && taskCount <= 4
    ensures noun == Many <==> taskCount > 4
  {
    if taskCount == 1 then One else if taskCount <= 4 then Few else Many
  }

  /** The label text for `taskCount`: the interpolated count, a space, the noun. */
  function TaskCountLabel(taskCount: int): string {
    IntToDecimal(taskCount) + " " + TaskNoun(taskCount)
  }

  /** Splits `s` at its first space: the text before it and the text after it. */
  function SplitAtSpace(s: string): Option<(string, string)>
    decreases |s|
  {
    if s == [] then None
    else if s[0] == ' ' then Some(([], s[1..]))
    else match SplitAtSpace(s[1..])
      case None => None
      case Some(parts) => Some(([s[0]] + parts.0, parts.1))
  }

  /** Reads a label back into its count and its noun; `None` for text no count could produce. */
  function ParseTaskCountLabel(text: string): Option<(int, string)> {
    match SplitAtSpace(text)
    case None => None
    case Some(parts) =>
      match ParseInt(parts.0)
      case None => None
      case Some(n) => if parts.1 in {One, Few, Many} then Some((n, parts.1)) else None
  }

  lemma {:induction false} SplitAtFirstSpace(before: string, after: string)
    requires ' ' !in before
    ensures SplitAtSpace(before + " " + after) == Some((before, after))
    decreases |before|
  {
    var s := before + " " + after;
    if before != [] {
      assert s[1..] == before[1..] + " " + after;
      SplitAtFirstSpace(before[1..], after);
      assert [before[0]] + before[1..] == before;
    } else {
      assert s[1..] == after;
    }
  }

  /**
   * Every label is exactly the decimal count, one space and one of the three nouns: reading it
   * back gives the count and the noun `TaskNoun` chose.
   */
  lemma {:induction false} TaskCountLabelRoundTrip(taskCount: int)
    ensures ParseTaskCountLabel(TaskCountLabel(taskCount)) == Some((taskCount, TaskNoun(taskCount)))
  {
    SplitAtFirstSpace(IntToDecimal(taskCount), TaskNoun(taskCount));
    ParseIntToDecimal(taskCount);
  }

  /** Two counts give the same label only if they are the same count. */
  lemma TaskCountLabelInjective(m: int, n: int)
    requires TaskCountLabel(m) == TaskCountLabel(n)
    ensures m == n
  {
    TaskCountLabelRoundTrip(m);
    TaskCountLabelRoundTrip(n);
  }

  /**
   * The rule looks only at the count, not at its last digits: 0 takes the "few" form and
   * 21 the "many" form.
   */
  lemma TaskCountLabelExamples()
    ensures TaskCountLabel(1) == "1 задача"
    ensures TaskCountLabel(0) == "0 задачи" && TaskCountLabel(4) == "4 задачи"
    ensures TaskCountLabel(-2) == "-2 задачи"
    ensures TaskCountLabel(11) == "11 задач" && TaskCountLabel(21) == "21 задач"
    ensures TaskCountLabel(7) == InitialText
  {
  }

  /** `ToDoListFooterView`, reduced to the text of its task-count label. */
  class ToDoListFooterView {
    var taskCountText: string

    constructor ()
      ensures taskCountText == InitialText
    {
      taskCountText := InitialText;
    }

    /** `configure(taskCount:)`: the label now names `taskCount` with the noun form it calls for. */
    method Configure(taskCount: int)
      modifies this
      ensures taskCountText == TaskCountLabel(taskCount)
    {
      if taskCount == 1 {
        taskCountText := IntToDecimal(taskCount) + " " + One;
      } else if taskCount <= 4 {
        taskCountText := IntToDecimal(taskCount) + " " + Few;
      } else {
        taskCountText := IntToDecimal(taskCount) + " " + Many;
      }
    }
  }
}
