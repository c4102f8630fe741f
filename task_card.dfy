/**
 * The task card: its derived "overdue" state, its badge, and the status flip
 * with the local loading flag around the toggle callback.
 *
 * Time is an integer timestamp. Turning a due-date string into one is an
 * oracle `parse` that answers None for text it cannot read.
 */
module TaskCardView {
  import opened AuthLib

  type DateParser = string -> Option<int>

  /** The status the toggle asks for: the other one. */
  function FlipStatus(s: Status): (r: Status)
    ensures r != s
  {
    if s == Completed then Pending else Completed
  }

  /** Flipping twice gives back the original status. */
  lemma FlipTwice(s: Status)
    ensures FlipStatus(FlipStatus(s)) == s
  {
  }

  /**
   * Overdue: pending, with a readable due date strictly before now. Here
   * `parse` stands for `parseISO`; an unreadable date gives an invalid date,
   * which compares as not before now.
   */
  predicate IsOverdue(task: Task, now: int, parse: DateParser)
    ensures IsOverdue(task, now, parse) ==> task.status == Pending && parse(task.dueDate).Some?
  {
    match parse(task.dueDate)
      case None => false
      case Some(due) => due < now && task.status == Pending
  }

  /** A completed task is never overdue, whatever its due date; nor is one whose date cannot be read. */
  lemma NotOverdue(task: Task, now: int, parse: DateParser)
    ensures task.status == Completed ==> !IsOverdue(task, now, parse)
    ensures parse(task.dueDate).None? ==> !IsOverdue(task, now, parse)
    ensures IsOverdue(task, now, parse) <==>
      task.status == Pending && parse(task.dueDate).Some? && parse(task.dueDate).value < now
  {
  }

  const Done := "Concluída"
  const Late := "Atrasada"
  const Open := "Pendente"

  lemma LabelsDistinct()
    ensures Done != Late && Late != Open && Open != Done
  {
    assert Done[0] == 'C' && Late[0] == 'A' && Open[0] == 'P';
  }

  /** The badge text: completed first, then overdue, else pending. */
  function BadgeLabel(status: Status, overdue: bool): (shown: string)
    ensures shown == Done <==> status.Completed?
    ensures shown == Late <==> status.Pending? && overdue
    ensures shown == Open <==> status.Pending? && !overdue
  {
    LabelsDistinct();
    if status.Completed? then Done else if overdue then Late else Open
  }

  datatype BadgeVariant = Default | Destructive | Secondary

  /** The badge style follows the same three-way choice as its text. */
  function BadgeStyle(status: Status, overdue: bool): (v: BadgeVariant)
    ensures v == Default <==> BadgeLabel(status, overdue) == Done
    ensures v == Destructive <==> BadgeLabel(status, overdue) == Late
    ensures v == Secondary <==> BadgeLabel(status, overdue) == Open
  {
    if status == Completed then Default else if overdue then Destructive else Secondary
  }

  /** The card shows "Atrasada" exactly when its task is overdue. */
  lemma CardShowsLateIffOverdue(task: Task, now: int, parse: DateParser)
    ensures BadgeLabel(task.status, IsOverdue(task, now, parse)) == Late <==> IsOverdue(task, now, parse)
  {
  }

  /** A request to the `onToggleStatus` callback. */
  datatype ToggleCall = ToggleCall(id: string, status: Status)

  class TaskCard {
    const task: Task
    var isLoading: bool

    constructor (task: Task)
      ensures this.task == task && !isLoading
    {
      this.task := task;
      isLoading := false;
    }

    /** The part of handleToggleStatus before the await: raise the flag and name the one callback call. */
    method BeginToggle() returns (call: ToggleCall)
      modifies this`isLoading
      ensures isLoading
      ensures call == ToggleCall(task.id, FlipStatus(task.status))
    {
      isLoading := true;
      call := ToggleCall(task.id, FlipStatus(task.status));
    }

    /**
     * The part after the awaited callback returns. There is no try/finally, so
     * a callback that rejects would leave the flag raised; the page's
     * handleToggleStatus catches its own errors and never rejects.
     */
    method EndToggle()
      modifies this`isLoading
      ensures !isLoading
    {
      isLoading := false;
    }
  }
}
