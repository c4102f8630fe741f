/**
 * The task form dialog: its form record, the re-entrancy guard on submit,
 * the payload handed to `onSave`, and the rule that it asks to close only
 * after a save that did not throw.
 *
 * `new Date(day + "T00:00:00").toISOString()` is an oracle `toIso` that
 * answers None where it would throw (an unreadable date).
 */
module TaskDialogView {
  import opened AuthLib
  import Text

  type IsoConverter = string -> Option<string>

  datatype FormData = FormData(title: string, description: string, dueDate: string, status: Status)

  /** The text inputs, by their `name` attribute. */
  datatype Field = TitleField | DescriptionField | DueDateField

  /** The value of the date input: the due date up to its first 'T'. */
  function DatePrefix(dueDate: string): (day: string)
    ensures day <= dueDate && 'T' !in day
    ensures |day| < |dueDate| ==> dueDate[|day|] == 'T'
  {
    Text.FirstField(dueDate, 'T')
  }

  /** A full-date in the sense of section 5.6 of RFC 3339: `dddd-dd-dd`. */
  predicate IsFullDate(d: string)
  {
    |d| == 10 && d[4] == '-' && d[7] == '-' &&
    forall i :: 0 <= i < 10 && i != 4 && i != 7 ==> '0' <= d[i] <= '9'
  }

  /** For a date-time `full-date "T" full-time`, the date input shows the full-date. */
  lemma DatePrefixOfDateTime(date: string, time: string)
    requires IsFullDate(date)
    ensures DatePrefix(date + "T" + time) == date
  {
    var s := date + "T" + time;
    assert 'T' !in date by {
      forall i | 0 <= i < |date| ensures date[i] != 'T' {
        if i != 4 && i != 7 { assert '0' <= date[i] <= '9'; }
      }
    }
    assert s[|date|] == 'T';
    Text.FirstFieldUnique(s, 'T', date);
  }

  /** The form the dialog opens with: the task's fields, or empty fields and a pending status. */
  function InitialForm(task: Option<Task>): (f: FormData)
    ensures task.None? ==> f == FormData("", "", "", Pending)
    ensures task.Some? ==> f.title == task.value.title && f.description == task.value.description
    ensures task.Some? ==> f.status == task.value.status && f.dueDate == DatePrefix(task.value.dueDate)
  {
    match task
      case Some(t) => FormData(t.title, t.description, DatePrefix(t.dueDate), t.status)
      case None => FormData("", "", "", Pending)
  }

  function FieldValue(f: FormData, field: Field): string
  {
    match field
      case TitleField => f.title
      case DescriptionField => f.description
      case DueDateField => f.dueDate
  }

  /** `{...prev, [name]: value}`: the named input takes the value; nothing else changes. */
  function WithField(f: FormData, field: Field, value: string): (r: FormData)
    ensures FieldValue(r, field) == value
    ensures forall g :: g != field ==> FieldValue(r, g) == FieldValue(f, g)
    ensures r.status == f.status
  {
    match field
      case TitleField => f.(title := value)
      case DescriptionField => f.(description := value)
      case DueDateField => f.(dueDate := value)
  }

  /** The arguments passed to `onSave`. */
  datatype SaveCall = SaveCall(draft: TaskDraft, taskId: Option<string>)

  /**
   * The payload: title and status as typed, the description (`|| ""` leaves a
   * string as it is), the converted due date, and the task id only when editing.
   */
  function Payload(f: FormData, task: Option<Task>, isoDueDate: string): (c: SaveCall)
    ensures c.draft.title == f.title && c.draft.description == f.description && c.draft.status == f.status
    ensures c.draft.dueDate == isoDueDate
    ensures c.taskId.Some? <==> task.Some?
    ensures task.Some? ==> c.taskId == Some(task.value.id)
  {
    SaveCall(TaskDraft(f.title, f.description, isoDueDate, f.status),
             match task case Some(t) => Some(t.id) case None => None)
  }

  /**
   * Opening the dialog on a task and submitting it untouched sends the task's
   * own title, description and status under its id; for an RFC 3339 due date
   * the date input holds its full-date, so the time of day is replaced by
   * local midnight.
   */
  lemma {:induction false} ResubmitUnchanged(task: Task, date: string, time: string, toIso: IsoConverter)
    requires task.dueDate == date + "T" + time && IsFullDate(date)
    requires toIso(MidnightOf(date)).Some?
    ensures var form := InitialForm(Some(task));
      toIso(MidnightOf(form.dueDate)).Some? &&
      Payload(form, Some(task), toIso(MidnightOf(form.dueDate)).value) ==
        SaveCall(TaskDraft(task.title, task.description, toIso(MidnightOf(date)).value, task.status), Some(task.id))
  {
    DatePrefixOfDateTime(date, time);
  }

  /**
   * The title and due-date inputs are `required`: the browser fires the
   * form's submit event only when both hold a value.
   */
  predicate Submittable(f: FormData)
  {
    f.title != "" && f.dueDate != ""
  }

  /** The local-midnight instant the submit converts the date input to. */
  function MidnightOf(day: string): string
  {
    day + "T00:00:00"
  }

  class TaskDialog {
    /** The props the form depends on. */
    var task: Option<Task>
    var open: bool
    var form: FormData
    var isLoading: bool

    constructor ()
      ensures task.None? && !open && form == InitialForm(None) && !isLoading
    {
      task := None;
      open := false;
      form := FormData("", "", "", Pending);
      isLoading := false;
    }

    /** The effect on `[task, open]`: when either prop changes the form is rebuilt; otherwise edits stay. */
    method Sync(open: bool, task: Option<Task>)
      modifies this`task, this`open, this`form
      ensures this.task == task && this.open == open
      ensures old(this.task) != task || old(this.open) != open ==> form == InitialForm(task)
      ensures old(this.task) == task && old(this.open) == open ==> form == old(form)
    {
      if this.task != task || this.open != open {
        form := InitialForm(task);
      }
      this.task := task;
      this.open := open;
    }

    /** handleChange on one of the text inputs. */
    method HandleChange(field: Field, value: string)
      modifies this`form
      ensures form == WithField(old(form), field, value)
    {
      form := WithField(form, field, value);
    }

    /** The status selector, which is rendered only while a task is being edited. */
    method SelectStatus(value: Status)
      requires task.Some?
      modifies this`form
      ensures form == old(form).(status := value)
    {
      form := form.(status := value);
    }

    /**
     * handleSubmit up to the awaited `onSave`: ignored while a save is in
     * flight; otherwise it raises the flag and builds the payload, unless the
     * date conversion throws, in which case the flag is lowered again.
     */
    method StartSubmit(toIso: IsoConverter) returns (call: Option<SaveCall>)
      modifies this`isLoading
      ensures old(isLoading) ==> call.None? && isLoading
      ensures !old(isLoading) && toIso(MidnightOf(form.dueDate)).None? ==> call.None? && !isLoading
      ensures !old(isLoading) && toIso(MidnightOf(form.dueDate)).Some? ==>
        isLoading && call == Some(Payload(form, task, toIso(MidnightOf(form.dueDate)).value))
    {
      if isLoading {
        return None;
      }
      isLoading := true;
      var iso := toIso(MidnightOf(form.dueDate));
      if iso.None? {
        isLoading := false;
        return None;
      }
      call := Some(Payload(form, task, iso.value));
    }

    /** handleSubmit after `onSave` settles: close only if it did not throw; lower the flag either way. */
    method FinishSubmit(saveThrew: bool) returns (closeRequested: bool)
      requires isLoading
      modifies this`isLoading
      ensures !isLoading
      ensures closeRequested <==> !saveThrew
    {
      closeRequested := !saveThrew;
      isLoading := false;
    }

    /** The whole handler, with `onSave`'s outcome as an oracle. */
    method HandleSubmit(toIso: IsoConverter, saveThrows: bool) returns (call: Option<SaveCall>, closeRequested: bool)
      modifies this`isLoading
      ensures old(isLoading) ==> call.None? && !closeRequested && isLoading
      ensures !old(isLoading) ==> !isLoading
      ensures closeRequested <==> call.Some? && !saveThrows
      ensures call.Some? ==> (toIso(MidnightOf(form.dueDate)).Some? &&
        call == Some(Payload(form, task, toIso(MidnightOf(form.dueDate)).value)))
      ensures !old(isLoading) && toIso(MidnightOf(form.dueDate)).Some? ==> call.Some?
    {
      call := StartSubmit(toIso);
      closeRequested := false;
      if call.Some? {
        closeRequested := FinishSubmit(saveThrows);
      }
    }

    /**
     * Submitting the form: the browser's check of the `required` inputs comes
     * first, and handleSubmit runs only when it passes.
     */
    method SubmitForm(toIso: IsoConverter, saveThrows: bool) returns (call: Option<SaveCall>, closeRequested: bool)
      modifies this`isLoading
      ensures !Submittable(form) ==> call.None? && !closeRequested && isLoading == old(isLoading)
      ensures call.Some? ==> (Submittable(form) && !old(isLoading) && toIso(MidnightOf(form.dueDate)).Some? &&
        call == Some(Payload(form, task, toIso(MidnightOf(form.dueDate)).value)) && call.value.draft.title != "")
      ensures Submittable(form) && !old(isLoading) && toIso(MidnightOf(form.dueDate)).Some? ==> call.Some?
      ensures closeRequested <==> call.Some? && !saveThrows
      ensures Submittable(form) && !old(isLoading) ==> !isLoading
      ensures old(isLoading) ==> isLoading
    {
      if !Submittable(form) {
        return None, false;
      }
      call, closeRequested := HandleSubmit(toIso, saveThrows);
    }
  }
}
