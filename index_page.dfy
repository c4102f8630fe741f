/**
 * The dashboard page: aggregate statistics, the avatar initials, and the
 * handlers that update the page state (`tasks`, `isLoading`, `isDialogOpen`,
 * `editingTask`, `userData`) around calls to the API client.
 *
 * The server's replies for one user action are an oracle `Server`; each
 * handler returns the HTTP requests it caused, in order.
 */
module IndexPage {
  import opened AuthLib
  import Text
  import opened TaskCardView
  import opened TaskDialogView

  // ---------------------------------------------------------------------------
  // Statistics

  datatype Stats = Stats(total: nat, completed: nat, pending: nat, overdue: nat)

  /** `tasks.filter(task => task.status === s).length`. */
  function CountStatus(ts: seq<Task>, s: Status): (n: nat)
    ensures n <= |ts|
  {
    if ts == [] then 0 else (if ts[0].status == s then 1 else 0) + CountStatus(ts[1..], s)
  }

  /**
   * The number of tasks the overdue filter keeps: pending, due strictly before
   * now. Here `parse` stands for `new Date(dueDate)`, which reads more formats
   * than the card's `parseISO` and reads a bare date as UTC rather than local
   * midnight; the model leaves the two as separate oracles.
   */
  function CountOverdue(ts: seq<Task>, now: int, parse: DateParser): (n: nat)
    ensures n <= |ts|
  {
    if ts == [] then 0 else (if IsOverdue(ts[0], now, parse) then 1 else 0) + CountOverdue(ts[1..], now, parse)
  }

  /** Every task is completed or pending, so the two counts add up to the total. */
  lemma {:induction false} StatusPartition(ts: seq<Task>)
    ensures CountStatus(ts, Completed) + CountStatus(ts, Pending) == |ts|
  {
    if ts != [] {
      StatusPartition(ts[1..]);
    }
  }

  /** Only pending tasks can be overdue. */
  lemma {:induction false} OverdueWithinPending(ts: seq<Task>, now: int, parse: DateParser)
    ensures CountOverdue(ts, now, parse) <= CountStatus(ts, Pending)
  {
    if ts != [] {
      OverdueWithinPending(ts[1..], now, parse);
    }
  }

  /** The four figures of `stats`. */
  function ComputeStats(ts: seq<Task>, now: int, parse: DateParser): (st: Stats)
    ensures st.total == |ts|
    ensures st.completed + st.pending == st.total
    ensures st.overdue <= st.pending
    ensures st.completed == CountStatus(ts, Completed) && st.pending == CountStatus(ts, Pending)
    ensures st.overdue == CountOverdue(ts, now, parse)
  {
    StatusPartition(ts);
    OverdueWithinPending(ts, now, parse);
    Stats(|ts|, CountStatus(ts, Completed), CountStatus(ts, Pending), CountOverdue(ts, now, parse))
  }

  /** Marking an overdue task completed takes it out of the overdue count, and the total stays. */
  lemma {:induction false} CompletingLeavesOverdue(ts: seq<Task>, i: nat, now: int, parse: DateParser)
    requires i < |ts| && IsOverdue(ts[i], now, parse)
    ensures CountOverdue(ts[i := ts[i].(status := Completed)], now, parse) == CountOverdue(ts, now, parse) - 1
    ensures |ts[i := ts[i].(status := Completed)]| == |ts|
  {
    var done := ts[i := ts[i].(status := Completed)];
    if i == 0 {
      assert done[1..] == ts[1..];
    } else {
      CompletingLeavesOverdue(ts[1..], i - 1, now, parse);
      assert done[1..] == ts[1..][i - 1 := ts[i].(status := Completed)];
    }
  }

  // ---------------------------------------------------------------------------
  // Initials

  /** `parts.map(part => part[0]).join('')`: an empty part gives `undefined`, which joins as nothing. */
  function FirstChars(parts: seq<string>): (r: string)
    ensures |r| <= |parts|
  {
    if parts == [] then []
    else (if parts[0] == [] then [] else [parts[0][0]]) + FirstChars(parts[1..])
  }

  /**
   * The characters that begin a word of `s`: not a space, and first in `s`
   * (when `atStart`) or right after a space.
   */
  function WordStarts(s: string, atStart: bool): string
  {
    if s == [] then []
    else (if s[0] != ' ' && atStart then [s[0]] else []) + WordStarts(s[1..], s[0] == ' ')
  }

  /** The first characters of the space-separated parts are exactly the word starts. */
  lemma {:induction false} FirstCharsOfSplit(s: string)
    ensures FirstChars(Text.Split(s, ' ')) == WordStarts(s, true)
    ensures FirstChars(Text.Split(s, ' ')[1..]) == WordStarts(s, false)
  {
    if s != [] {
      var rest := Text.Split(s[1..], ' ');
      FirstCharsOfSplit(s[1..]);
      if s[0] == ' ' {
        assert Text.Split(s, ' ') == [[]] + rest;
        assert ([[]] + rest)[1..] == rest;
      } else {
        var parts := [[s[0]] + rest[0]] + rest[1..];
        assert Text.Split(s, ' ') == parts;
        assert parts[1..] == rest[1..];
      }
    }
  }

  /** getInitials: "U" for an empty name, else the first two word starts upper-cased. */
  function GetInitials(name: string): (r: string)
    ensures name == "" ==> r == "U"
    ensures name != "" ==> r == Text.Take(Text.ToUpper(WordStarts(name, true)), 2)
    ensures |r| <= 2
  {
    if name == "" then "U"
    else
      FirstCharsOfSplit(name);
      Text.Take(Text.ToUpper(FirstChars(Text.Split(name, ' '))), 2)
  }

  /** A word without spaces, read past its first character, starts no further word. */
  lemma {:induction false} InsideWord(w: string, rest: string)
    requires ' ' !in w
    ensures WordStarts(w + rest, false) == WordStarts(rest, false)
  {
    if w != [] {
      assert w[0] in w;
      assert (w + rest)[0] == w[0] != ' ';
      assert (w + rest)[1..] == w[1..] + rest;
      InsideWord(w[1..], rest);
    } else {
      assert w + rest == rest;
    }
  }

  /** "Maria Silva" gives "MS": the first letters of two space-separated words, upper-cased. */
  lemma TwoWordInitials(first: string, last: string)
    requires first != [] && last != [] && ' ' !in first && ' ' !in last
    ensures GetInitials(first + " " + last) == [Text.UpperChar(first[0]), Text.UpperChar(last[0])]
  {
    var name := first + " " + last;
    assert name[1..] == first[1..] + (" " + last);
    InsideWord(first[1..], " " + last);
    assert (" " + last)[1..] == last;
    assert last[1..] + [] == last[1..];
    InsideWord(last[1..], []);
    assert WordStarts(last, true) == [last[0]] + WordStarts(last[1..], false);
    assert WordStarts(name, true) == [first[0]] + [last[0]] + WordStarts(last[1..], false);
  }

  // ---------------------------------------------------------------------------
  // The page state and its handlers

  /** The server's answer, for one user action, to each kind of task request. */
  datatype Server = Server(list: Reply<seq<ServerTask>>, created: Reply<ServerTask>, updated: Reply<()>, deleteOk: bool)

  /** loadTasks on the list: the fetched list when there is a token and the fetch succeeded, else unchanged. */
  function LoadResult(current: seq<Task>, token: Option<string>, reply: Reply<seq<ServerTask>>): seq<Task>
  {
    if token.Some? && reply.Received? then DecodeTasks(reply.body) else current
  }

  function LoadRequests(token: Option<string>): seq<Request>
  {
    if token.Some? then [ListRequest(token.value)] else []
  }

  /** The task handleSaveTask updates: the edited task's id first, then the passed id; None means create. */
  function SaveTarget(editing: Option<Task>, taskId: Option<string>): (target: Option<string>)
    ensures target.Some? ==> target.value != ""
    ensures target.Some? ==> (editing.Some? && target.value == editing.value.id) || target == taskId
  {
    if editing.Some? && editing.value.id != "" then Some(editing.value.id)
    else if taskId.Some? && taskId.value != "" then taskId
    else None
  }

  /** The edited task's id wins over any passed id; a passed id wins over creating. */
  lemma SaveRouting(editing: Option<Task>, taskId: Option<string>)
    ensures editing.Some? && editing.value.id != "" ==> SaveTarget(editing, taskId) == Some(editing.value.id)
    ensures (editing.None? || editing.value.id == "") && taskId.Some? && taskId.value != "" ==>
      SaveTarget(editing, taskId) == taskId
    ensures SaveTarget(editing, taskId).None? <==>
      (editing.None? || editing.value.id == "") && (taskId.None? || taskId.value == "")
  {
  }

  class Dashboard {
    const api: AuthService
    var tasks: seq<Task>
    var isLoading: bool
    var isDialogOpen: bool
    var editingTask: Option<Task>
    var userData: Option<User>

    /** The first render; it reads `localStorage`, so the page only renders in a browser. */
    constructor (api: AuthService)
      requires api.hasWindow
      ensures this.api == api && tasks == [] && isLoading && !isDialogOpen && editingTask.None?
      ensures userData == api.GetUserData()
    {
      this.api := api;
      tasks := [];
      isLoading := true;
      isDialogOpen := false;
      editingTask := None;
      userData := api.GetUserData();
    }

    /** The mount effect: without a session, go to the login page; else refresh the user and load. */
    method Mount(server: Server) returns (redirectToLogin: bool, sent: seq<Request>)
      modifies this
      ensures redirectToLogin <==> !api.IsAuthenticated()
      ensures redirectToLogin ==> sent == [] && unchanged(this)
      ensures !redirectToLogin ==> sent == LoadRequests(api.GetToken()) && !isLoading
      ensures !redirectToLogin ==> tasks == LoadResult(old(tasks), api.GetToken(), server.list)
      ensures !redirectToLogin ==> userData == if api.GetUserData().Some? then api.GetUserData() else old(userData)
      ensures isDialogOpen == old(isDialogOpen) && editingTask == old(editingTask)
    {
      if !api.IsAuthenticated() {
        return true, [];
      }
      redirectToLogin := false;
      var current := api.GetUserData();
      if current.Some? {
        userData := current;
      }
      sent := LoadTasks(server.list);
    }

    /** loadTasks: replace the list on success, keep it on failure, stop loading either way. */
    method LoadTasks(reply: Reply<seq<ServerTask>>) returns (sent: seq<Request>)
      modifies this`tasks, this`isLoading
      ensures sent == LoadRequests(api.GetToken())
      ensures tasks == LoadResult(old(tasks), api.GetToken(), reply)
      ensures !isLoading
    {
      var request, fetched := api.GetTasks(reply);
      sent := if request.Some? then [request.value] else [];
      if fetched.Ok? {
        tasks := fetched.value;
      }
      isLoading := false;
    }

    /** handleCreateTask: create, then reload on success; a failure is only notified. */
    method HandleCreateTask(task: TaskDraft, server: Server) returns (sent: seq<Request>)
      modifies this
      ensures api.GetToken().None? ==> sent == [] && unchanged(this)
      ensures api.GetToken().Some? && !server.created.Received? ==>
        sent == [CreateRequest(api.GetToken().value, task)] && unchanged(this)
      ensures api.GetToken().Some? && server.created.Received? ==>
        sent == [CreateRequest(api.GetToken().value, task), ListRequest(api.GetToken().value)]
      ensures api.GetToken().Some? && server.created.Received? ==>
        tasks == LoadResult(old(tasks), api.GetToken(), server.list) && !isLoading
      ensures isDialogOpen == old(isDialogOpen) && editingTask == old(editingTask) && userData == old(userData)
    {
      var request, created := api.CreateTask(task, server.created);
      sent := if request.Some? then [request.value] else [];
      if created.Ok? {
        var reload := LoadTasks(server.list);
        sent := sent + reload;
      }
    }

    /** handleUpdateTask: update with the full draft, then reload and stop editing on success. */
    method HandleUpdateTask(task: TaskDraft, id: string, server: Server) returns (sent: seq<Request>)
      modifies this
      ensures api.GetToken().None? ==> sent == [] && unchanged(this)
      ensures api.GetToken().Some? && !server.updated.Received? ==>
        sent == [UpdateRequest(api.GetToken().value, id, DraftPatch(task))] && unchanged(this)
      ensures api.GetToken().Some? && server.updated.Received? ==>
        sent == [UpdateRequest(api.GetToken().value, id, DraftPatch(task)), ListRequest(api.GetToken().value)]
      ensures api.GetToken().Some? && server.updated.Received? ==>
        tasks == LoadResult(old(tasks), api.GetToken(), server.list) && !isLoading && editingTask.None?
      ensures isDialogOpen == old(isDialogOpen) && userData == old(userData)
    {
      var request, updated := api.UpdateTask(id, DraftPatch(task), server.updated);
      sent := if request.Some? then [request.value] else [];
      if updated.Ok? {
        var reload := LoadTasks(server.list);
        sent := sent + reload;
        editingTask := None;
      }
    }

    /** handleSaveTask: route to update or create; it never rejects. */
    method HandleSaveTask(task: TaskDraft, taskId: Option<string>, server: Server) returns (sent: seq<Request>)
      modifies this
      ensures api.GetToken().None? ==> sent == [] && unchanged(this)
      ensures api.GetToken().Some? ==> 1 <= |sent| <= 2
      ensures api.GetToken().Some? ==> sent[0] == match SaveTarget(old(editingTask), taskId)
        case Some(id) => UpdateRequest(api.GetToken().value, id, DraftPatch(task))
        case None => CreateRequest(api.GetToken().value, task)
      ensures |sent| == 1 ==> unchanged(this)
      ensures |sent| == 2 ==> sent[1] == ListRequest(api.GetToken().value) && !isLoading
      ensures |sent| == 2 ==> tasks == LoadResult(old(tasks), api.GetToken(), server.list)
      ensures api.GetToken().Some? ==> (|sent| == 2 <==>
        if SaveTarget(old(editingTask), taskId).Some? then server.updated.Received? else server.created.Received?)
      ensures |sent| == 2 && SaveTarget(old(editingTask), taskId).Some? ==> editingTask.None?
      ensures SaveTarget(old(editingTask), taskId).None? ==> editingTask == old(editingTask)
      ensures isDialogOpen == old(isDialogOpen) && userData == old(userData)
    {
      if editingTask.Some? && editingTask.value.id != "" {
        sent := HandleUpdateTask(task, editingTask.value.id, server);
      } else if taskId.Some? && taskId.value != "" {
        sent := HandleUpdateTask(task, taskId.value, server);
      } else {
        sent := HandleCreateTask(task, server);
      }
    }

    /** handleDeleteTask: nothing happens unless the user confirms; reload after a successful delete. */
    method HandleDeleteTask(id: string, confirmed: bool, server: Server) returns (sent: seq<Request>)
      modifies this
      ensures !confirmed || api.GetToken().None? ==> sent == [] && unchanged(this)
      ensures confirmed && api.GetToken().Some? && !server.deleteOk ==>
        sent == [DeleteRequest(api.GetToken().value, id)] && unchanged(this)
      ensures confirmed && api.GetToken().Some? && server.deleteOk ==>
        sent == [DeleteRequest(api.GetToken().value, id), ListRequest(api.GetToken().value)]
      ensures confirmed && api.GetToken().Some? && server.deleteOk ==>
        tasks == LoadResult(old(tasks), api.GetToken(), server.list) && !isLoading
      ensures isDialogOpen == old(isDialogOpen) && editingTask == old(editingTask) && userData == old(userData)
    {
      if !confirmed {
        return [];
      }
      var request, deleted := api.DeleteTask(id, server.deleteOk);
      sent := if request.Some? then [request.value] else [];
      if deleted.Ok? {
        var reload := LoadTasks(server.list);
        sent := sent + reload;
      }
    }

    /** handleToggleStatus: an update carrying the status alone, then a reload on success. */
    method HandleToggleStatus(id: string, status: Status, server: Server) returns (sent: seq<Request>)
      modifies this
      ensures api.GetToken().None? ==> sent == [] && unchanged(this)
      ensures api.GetToken().Some? ==> 1 <= |sent| <= 2
      ensures api.GetToken().Some? ==> sent[0] == UpdateRequest(api.GetToken().value, id, StatusPatch(status))
      ensures api.GetToken().Some? ==> sent[0].body == UpdateBody(map["status" := ToServerStatus(status)])
      ensures api.GetToken().Some? && !server.updated.Received? ==> |sent| == 1 && unchanged(this)
      ensures api.GetToken().Some? && server.updated.Received? ==>
        |sent| == 2 && sent[1] == ListRequest(api.GetToken().value)
      ensures api.GetToken().Some? && server.updated.Received? ==>
        tasks == LoadResult(old(tasks), api.GetToken(), server.list) && !isLoading
      ensures isDialogOpen == old(isDialogOpen) && editingTask == old(editingTask) && userData == old(userData)
    {
      StatusPatchBody(status);
      var request, updated := api.UpdateTask(id, StatusPatch(status), server.updated);
      sent := if request.Some? then [request.value] else [];
      if updated.Ok? {
        var reload := LoadTasks(server.list);
        sent := sent + reload;
      }
    }

    /** handleEditTask: remember the task and open the dialog. */
    method HandleEditTask(task: Task)
      modifies this`editingTask, this`isDialogOpen
      ensures editingTask == Some(task) && isDialogOpen
    {
      editingTask := Some(task);
      isDialogOpen := true;
    }

    /** handleDialogClose: close the dialog and forget the edited task. */
    method HandleDialogClose()
      modifies this`editingTask, this`isDialogOpen
      ensures editingTask.None? && !isDialogOpen
    {
      isDialogOpen := false;
      editingTask := None;
    }

    /** handleLogout: the API client's logout; the page state is left to the redirect. */
    method HandleLogout() returns (r: Result<()>)
      modifies api`tokenCookie, api`userEntry
      ensures api.hasWindow ==> r.Ok? && !api.IsAuthenticated() && api.GetUserData().None?
      ensures !api.hasWindow ==> r == Err(NoLocalStorage)
    {
      r := api.Logout();
    }

    /** The "Nova Tarefa" button: open the dialog, leaving editingTask as it is. */
    method OpenNewTaskDialog()
      modifies this`isDialogOpen
      ensures isDialogOpen
    {
      isDialogOpen := true;
    }
  }

  // ---------------------------------------------------------------------------
  // The page's wiring of its children: onToggleStatus, onSave and onOpenChange

  /** A card's toggle routed to the page: one status-only update of the card's own task. */
  method ToggleFromCard(card: TaskCard, page: Dashboard, server: Server) returns (sent: seq<Request>)
    modifies card, page
    ensures !card.isLoading
    ensures page.api.GetToken().None? ==> sent == []
    ensures page.api.GetToken().Some? ==> (|sent| >= 1 &&
      sent[0] == UpdateRequest(page.api.GetToken().value, card.task.id, StatusPatch(FlipStatus(card.task.status))))
    ensures page.api.GetToken().Some? ==> (|sent| == 2 <==> server.updated.Received?)
    ensures |sent| == 2 ==> (sent[1] == ListRequest(page.api.GetToken().value) &&
      page.tasks == LoadResult(old(page.tasks), page.api.GetToken(), server.list) && !page.isLoading)
    ensures |sent| < 2 ==> page.tasks == old(page.tasks) && page.isLoading == old(page.isLoading)
    ensures page.isDialogOpen == old(page.isDialogOpen) && page.editingTask == old(page.editingTask)
    ensures page.userData == old(page.userData)
  {
    var call := card.BeginToggle();
    sent := page.HandleToggleStatus(call.id, call.status, server);
    card.EndToggle();
  }

  /**
   * The dialog's form submitted, with the page's handleSaveTask as onSave and
   * handleDialogClose as onOpenChange. The browser blocks a form whose title or
   * due date is empty. handleSaveTask never rejects, so every submit that
   * reaches onSave ends with the dialog closed and nothing edited.
   */
  method SubmitDialog(dialog: TaskDialog, page: Dashboard, server: Server, toIso: IsoConverter)
    returns (sent: seq<Request>, closed: bool)
    modifies dialog, page
    ensures dialog.form == old(dialog.form) && dialog.task == old(dialog.task) && dialog.open == old(dialog.open)
    ensures old(dialog.isLoading) ==> dialog.isLoading
    ensures page.api.GetToken().None? ==> sent == []
    ensures old(dialog.isLoading) ==> sent == [] && !closed && unchanged(page)
    ensures !Submittable(dialog.form) ==>
      sent == [] && !closed && unchanged(page) && dialog.isLoading == old(dialog.isLoading)
    ensures !old(dialog.isLoading) && Submittable(dialog.form) ==> !dialog.isLoading
    ensures !old(dialog.isLoading) && Submittable(dialog.form) && toIso(MidnightOf(dialog.form.dueDate)).None? ==>
      sent == [] && !closed && unchanged(page)
    ensures !old(dialog.isLoading) && Submittable(dialog.form) && toIso(MidnightOf(dialog.form.dueDate)).Some? ==>
      closed && !page.isDialogOpen && page.editingTask.None?
    ensures !old(dialog.isLoading) && Submittable(dialog.form) && toIso(MidnightOf(dialog.form.dueDate)).Some? && page.api.GetToken().Some? ==>
      (|sent| == 2 <==>
        if SaveTarget(old(page.editingTask), if dialog.task.Some? then Some(dialog.task.value.id) else None).Some?
        then server.updated.Received? else server.created.Received?)
    ensures page.userData == old(page.userData)
    ensures |sent| < 2 ==> page.tasks == old(page.tasks) && page.isLoading == old(page.isLoading)
    ensures |sent| == 2 ==> (page.api.GetToken().Some? && sent[1] == ListRequest(page.api.GetToken().value) &&
      page.tasks == LoadResult(old(page.tasks), page.api.GetToken(), server.list) && !page.isLoading)
    ensures !old(dialog.isLoading) && Submittable(dialog.form) && toIso(MidnightOf(dialog.form.dueDate)).Some? && page.api.GetToken().Some? ==>
      |sent| >= 1 && sent[0] == match SaveTarget(old(page.editingTask), if dialog.task.Some? then Some(dialog.task.value.id) else None)
        case Some(id) => UpdateRequest(page.api.GetToken().value, id,
                                       DraftPatch(Payload(dialog.form, dialog.task, toIso(MidnightOf(dialog.form.dueDate)).value).draft))
        case None => CreateRequest(page.api.GetToken().value,
                                   Payload(dialog.form, dialog.task, toIso(MidnightOf(dialog.form.dueDate)).value).draft)
  {
    sent, closed := [], false;
    if !Submittable(dialog.form) {
      return;
    }
    var call := dialog.StartSubmit(toIso);
    if call.Some? {
      sent := page.HandleSaveTask(call.value.draft, call.value.taskId, server);
      closed := dialog.FinishSubmit(false);
      if closed {
        page.HandleDialogClose();
      }
    }
  }
}
