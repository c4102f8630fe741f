/**
 * The session store and API client of the task manager (`AuthService`).
 *
 * The browser storage is two option-valued slots: the `token` cookie and the
 * `user` entry of local storage. The remote API is an oracle: every call
 * takes the reply the server would give and returns, beside its result, the
 * HTTP request it issued (None when it failed before issuing one).
 */
module AuthLib {

  datatype Option<T> = None | Some(value: T)

  /** A call either succeeds with a value or throws an Error carrying a message. */
  datatype Result<T> = Ok(value: T) | Err(message: string)

  /** The client-side task status (`"pending" | "completed"`). */
  datatype Status = Pending | Completed

  datatype User = User(id: string, email: string, name: string)

  datatype Task = Task(id: string, title: string, description: string, dueDate: string,
                       status: Status, userId: string)

  /** A task as the server sends it: status is the server's wire value (`PENDING`, `DONE`, ...). */
  datatype ServerTask = ServerTask(id: string, title: string, description: string, dueDate: string,
                                   status: string, userId: string)

  /** `Omit<Task, "id" | "userId">`: what the client sends to create or fully update a task. */
  datatype TaskDraft = TaskDraft(title: string, description: string, dueDate: string, status: Status)

  /** The create body: a draft with its status already in the server's enumeration. */
  datatype ServerDraft = ServerDraft(title: string, description: string, dueDate: string, status: string)

  /** `Partial<Task>`: every field may be left undefined. */
  datatype TaskPatch = TaskPatch(id: Option<string>, title: Option<string>, description: Option<string>,
                                 dueDate: Option<string>, status: Option<Status>, userId: Option<string>)

  datatype LoginData = LoginData(email: string, password: string)
  datatype RegisterData = RegisterData(name: string, email: string, password: string)

  datatype Verb = Get | Post | Put | Delete

  datatype Body =
    | NoBody
    | LoginBody(login: LoginData)
    | RegisterBody(registration: RegisterData)
    | CreateBody(draft: ServerDraft)
    | UpdateBody(fields: map<string, string>)

  /** An HTTP request to the API, by path relative to the configured base URL. */
  datatype Request = Request(verb: Verb, path: string, authorization: Option<string>, body: Body)

  /**
   * What the server answers: a 2xx response with its decoded JSON body, any
   * other response, or a 2xx response whose body is not JSON (an empty 204,
   * say), on which `response.json()` throws.
   */
  datatype Reply<T> = Received(body: T) | NotOk | Unparsable

  /**
   * The answer of `/auth/login` or `/auth/register`: the session, an error
   * body whose `message` may be empty, or a body (of either kind) that is not
   * JSON, on which `response.json()` throws.
   */
  datatype AuthReply = Authenticated(user: User, token: string) | Rejected(message: string) | Unreadable

  datatype Session = Session(user: User, token: string)

  const MissingToken := "Token não encontrado"
  const LoginFailed := "Erro ao fazer login"
  const RegisterFailed := "Erro ao criar conta"
  const ListFailed := "Erro ao buscar tarefas"
  const CreateFailed := "Erro ao criar tarefa"
  const UpdateFailed := "Erro ao atualizar tarefa"
  const DeleteFailed := "Erro ao deletar tarefa"
  /** Stands for the SyntaxError `response.json()` throws on a body that is not JSON; its wording is the engine's. */
  const BodyNotJson := "SyntaxError: response body is not valid JSON"
  /** Stands for the ReferenceError raised by touching `localStorage` outside a browser. */
  const NoLocalStorage := "ReferenceError: localStorage is not defined"

  // ---------------------------------------------------------------------------
  // Status codec

  /** Inbound mapping used by getTasks: only `PENDING` is pending. */
  function FromServerStatus(wire: string): (s: Status)
    ensures s == Pending <==> wire == "PENDING"
  {
    if wire == "PENDING" then Pending else Completed
  }

  /** Outbound mapping used by createTask and updateTask; the inbound mapping undoes it. */
  function ToServerStatus(s: Status): (wire: string)
    ensures wire == "PENDING" || wire == "DONE"
    ensures FromServerStatus(wire) == s
  {
    if s == Pending then "PENDING" else "DONE"
  }

  /** Server to client to server is the identity exactly on the two values the server should send. */
  lemma ServerStatusRoundTrip(wire: string)
    ensures ToServerStatus(FromServerStatus(wire)) == wire <==> wire == "PENDING" || wire == "DONE"
  {
  }

  /** `{...task, status: task.status === "PENDING" ? "pending" : "completed"}`. */
  function DecodeTask(t: ServerTask): (r: Task)
    ensures r.id == t.id && r.title == t.title && r.description == t.description
    ensures r.dueDate == t.dueDate && r.userId == t.userId
    ensures r.status == FromServerStatus(t.status)
  {
    Task(t.id, t.title, t.description, t.dueDate, FromServerStatus(t.status), t.userId)
  }

  /** `tasks.map(...)` in getTasks. */
  function DecodeTasks(ts: seq<ServerTask>): (r: seq<Task>)
    ensures |r| == |ts|
  {
    if ts == [] then [] else [DecodeTask(ts[0])] + DecodeTasks(ts[1..])
  }

  /** The mapping keeps length and order and decodes each task in place. */
  lemma {:induction false} DecodeTasksPointwise(ts: seq<ServerTask>)
    ensures |DecodeTasks(ts)| == |ts|
    ensures forall i :: 0 <= i < |ts| ==> DecodeTasks(ts)[i] == DecodeTask(ts[i])
  {
    if ts != [] {
      DecodeTasksPointwise(ts[1..]);
      assert forall i :: 1 <= i < |ts| ==> ts[1..][i - 1] == ts[i];
    }
  }

  /** `{...task, status: task.status === "pending" ? "PENDING" : "DONE"}` in createTask. */
  function EncodeDraft(d: TaskDraft): (r: ServerDraft)
    ensures r.title == d.title && r.description == d.description && r.dueDate == d.dueDate
    ensures r.status == ToServerStatus(d.status) && FromServerStatus(r.status) == d.status
  {
    ServerDraft(d.title, d.description, d.dueDate, ToServerStatus(d.status))
  }

  // ---------------------------------------------------------------------------
  // The sparse update body of updateTask

  const UpdatableKeys: set<string> := {"title", "description", "status", "dueDate"}

  /** The wire value the patch gives `key`, or None when the key is undefined in it or not updatable. */
  function PatchValue(p: TaskPatch, key: string): Option<string>
  {
    if key == "title" then p.title
    else if key == "description" then p.description
    else if key == "dueDate" then p.dueDate
    else if key == "status" then
      (match p.status case Some(s) => Some(ToServerStatus(s)) case None => None)
    else None
  }

  /** The body updateTask sends: one entry per defined updatable field. */
  function SparseBody(p: TaskPatch): (body: map<string, string>)
    ensures forall k :: k in body <==> PatchValue(p, k).Some?
    ensures forall k :: k in body ==> body[k] == PatchValue(p, k).value
  {
    map k | k in UpdatableKeys && PatchValue(p, k).Some? :: PatchValue(p, k).value
  }

  /** The body holds exactly the defined fields among title, description, status and dueDate. */
  lemma SparseBodyKeys(p: TaskPatch)
    ensures "title" in SparseBody(p) <==> p.title.Some?
    ensures "description" in SparseBody(p) <==> p.description.Some?
    ensures "status" in SparseBody(p) <==> p.status.Some?
    ensures "dueDate" in SparseBody(p) <==> p.dueDate.Some?
    ensures SparseBody(p).Keys <= UpdatableKeys
    ensures "id" !in SparseBody(p) && "userId" !in SparseBody(p)
    ensures p.status.Some? ==> SparseBody(p)["status"] == ToServerStatus(p.status.value)
  {
    assert PatchValue(p, "id").None? && PatchValue(p, "userId").None?;
  }

  /** updateTask's conditional field-by-field construction of `updateData`. */
  method BuildUpdateBody(p: TaskPatch) returns (body: map<string, string>)
    ensures body == SparseBody(p)
  {
    body := map[];
    if p.title.Some? { body := body["title" := p.title.value]; }
    if p.description.Some? { body := body["description" := p.description.value]; }
    if p.status.Some? { body := body["status" := ToServerStatus(p.status.value)]; }
    if p.dueDate.Some? { body := body["dueDate" := p.dueDate.value]; }
    assert body.Keys == SparseBody(p).Keys;
  }

  /** A full draft passed as `Partial<Task>`: all four fields defined, id and userId not. */
  function DraftPatch(d: TaskDraft): TaskPatch
  {
    TaskPatch(None, Some(d.title), Some(d.description), Some(d.dueDate), Some(d.status), None)
  }

  /** `{ status }` as passed by the dashboard's toggle. */
  function StatusPatch(s: Status): TaskPatch
  {
    TaskPatch(None, None, None, None, Some(s), None)
  }

  /** A toggle sends a body whose only entry is the encoded status. */
  lemma StatusPatchBody(s: Status)
    ensures SparseBody(StatusPatch(s)) == map["status" := ToServerStatus(s)]
  {
    var b := SparseBody(StatusPatch(s));
    assert b.Keys == {"status"} by {
      forall k ensures k in b <==> k == "status" {
        assert PatchValue(StatusPatch(s), k).Some? <==> k == "status";
      }
    }
  }

  /** A full draft sends every updatable key. */
  lemma DraftPatchBody(d: TaskDraft)
    ensures SparseBody(DraftPatch(d)).Keys == UpdatableKeys
    ensures SparseBody(DraftPatch(d)) == map["title" := d.title, "description" := d.description,
                                             "status" := ToServerStatus(d.status), "dueDate" := d.dueDate]
  {
    var b := SparseBody(DraftPatch(d));
    forall k ensures k in b <==> k in UpdatableKeys {
      assert PatchValue(DraftPatch(d), k).Some? <==> k in UpdatableKeys;
    }
  }

  /** `Authorization: Bearer <token>` on an API request. */
  function Authorized(token: string, verb: Verb, path: string, body: Body): (r: Request)
    ensures r.authorization == Some("Bearer " + token)
    ensures r.verb == verb && r.path == path && r.body == body
  {
    Request(verb, path, Some("Bearer " + token), body)
  }

  /** The four authenticated requests, as issued with a given token. */
  function ListRequest(token: string): Request
  {
    Authorized(token, Get, "/tasks", NoBody)
  }

  function CreateRequest(token: string, task: TaskDraft): Request
  {
    Authorized(token, Post, "/tasks", CreateBody(EncodeDraft(task)))
  }

  function UpdateRequest(token: string, id: string, task: TaskPatch): Request
  {
    Authorized(token, Put, "/tasks/" + id, UpdateBody(SparseBody(task)))
  }

  function DeleteRequest(token: string, id: string): Request
  {
    Authorized(token, Delete, "/tasks/" + id, NoBody)
  }

  // ---------------------------------------------------------------------------
  // The session store and the API calls

  class AuthService {
    /** The `token` cookie, absent or present with a (possibly empty) value. */
    var tokenCookie: Option<string>
    /** The `user` entry of local storage, as serialised text. */
    var userEntry: Option<string>
    /**
     * False outside a browser (no `window`, `document` or `localStorage`):
     * getToken answers null there, cookie writes are ignored, and any use of
     * `localStorage` throws a ReferenceError.
     */
    const hasWindow: bool
    /** `JSON.stringify` and `JSON.parse` on users; parse answers None where it would throw. */
    const serializeUser: User -> string
    const parseUser: string -> Option<User>

    /** Stored users read back as themselves, and their text is never empty. */
    ghost predicate Valid()
    {
      forall u :: serializeUser(u) != "" && parseUser(serializeUser(u)) == Some(u)
    }

    constructor (hasWindow: bool, serializeUser: User -> string, parseUser: string -> Option<User>,
                 tokenCookie: Option<string>, userEntry: Option<string>)
      requires forall u :: serializeUser(u) != "" && parseUser(serializeUser(u)) == Some(u)
      ensures Valid()
      ensures this.hasWindow == hasWindow && this.tokenCookie == tokenCookie && this.userEntry == userEntry
    {
      this.hasWindow := hasWindow;
      this.serializeUser := serializeUser;
      this.parseUser := parseUser;
      this.tokenCookie := tokenCookie;
      this.userEntry := userEntry;
    }

    /** `Cookies.get("token") || null`: an empty cookie reads as no token. */
    function GetToken(): (t: Option<string>)
      reads this
      ensures t.Some? <==> hasWindow && tokenCookie.Some? && tokenCookie.value != ""
      ensures t.Some? ==> tokenCookie == Some(t.value)
    {
      if !hasWindow then None
      else match tokenCookie
        case Some(v) => if v != "" then Some(v) else None
        case None => None
    }

    /** `!!getToken()`: signed in exactly when a non-empty token cookie is readable. */
    predicate IsAuthenticated()
      reads this
      ensures IsAuthenticated() <==> hasWindow && tokenCookie.Some? && tokenCookie.value != ""
    {
      GetToken().Some?
    }

    /**
     * The cached user, None when the entry is missing, empty or not
     * parseable. It reads `localStorage`, so it can only be called in a browser.
     */
    function GetUserData(): (u: Option<User>)
      requires hasWindow
      reads this
      ensures userEntry.None? || userEntry == Some("") ==> u.None?
      ensures userEntry.Some? && userEntry.value != "" ==> u == parseUser(userEntry.value)
    {
      match userEntry
        case None => None
        case Some(text) => if text == "" then None else parseUser(text)
    }

    /** The cookie write; without a document it is ignored. */
    method SetToken(token: string)
      modifies this`tokenCookie
      ensures hasWindow ==> tokenCookie == Some(token)
      ensures !hasWindow ==> tokenCookie == old(tokenCookie)
    {
      if hasWindow {
        tokenCookie := Some(token);
      }
    }

    /** The cookie removal; without a document it is ignored. */
    method RemoveToken()
      modifies this`tokenCookie
      ensures hasWindow ==> tokenCookie.None?
      ensures !hasWindow ==> tokenCookie == old(tokenCookie)
    {
      if hasWindow {
        tokenCookie := None;
      }
    }

    method SetUserData(user: User)
      requires hasWindow && Valid()
      modifies this`userEntry
      ensures userEntry == Some(serializeUser(user))
      ensures GetUserData() == Some(user)
    {
      userEntry := Some(serializeUser(user));
    }

    method RemoveUserData()
      requires hasWindow
      modifies this`userEntry
      ensures userEntry.None?
    {
      userEntry := None;
    }

    /**
     * The shared tail of login and register: keep the session, or throw the
     * server's message or the fallback. Outside a browser the cookie write is
     * ignored and the `localStorage` write throws.
     */
    method Authenticate(reply: AuthReply, fallback: string) returns (r: Result<Session>)
      requires Valid()
      modifies this`tokenCookie, this`userEntry
      ensures reply.Authenticated? && hasWindow ==> r == Ok(Session(reply.user, reply.token))
      ensures reply.Authenticated? && hasWindow ==>
        tokenCookie == Some(reply.token) && GetUserData() == Some(reply.user)
      ensures reply.Authenticated? && hasWindow ==> (IsAuthenticated() <==> reply.token != "")
      ensures reply.Authenticated? && !hasWindow ==> r == Err(NoLocalStorage)
      ensures reply.Rejected? ==> r == Err(if reply.message != "" then reply.message else fallback)
      ensures reply.Unreadable? ==> r == Err(BodyNotJson)
      ensures r.Err? ==> tokenCookie == old(tokenCookie) && userEntry == old(userEntry)
    {
      match reply
      case Unreadable =>
        r := Err(BodyNotJson);
      case Rejected(message) =>
        r := Err(if message != "" then message else fallback);
      case Authenticated(user, token) =>
        SetToken(token);
        if !hasWindow {
          return Err(NoLocalStorage);
        }
        SetUserData(user);
        r := Ok(Session(user, token));
    }

    method Login(data: LoginData, reply: AuthReply) returns (sent: Request, r: Result<Session>)
      requires Valid()
      modifies this`tokenCookie, this`userEntry
      ensures sent == Request(Post, "/auth/login", None, LoginBody(data))
      ensures reply.Authenticated? && hasWindow ==> r == Ok(Session(reply.user, reply.token))
      ensures reply.Authenticated? && hasWindow ==>
        tokenCookie == Some(reply.token) && GetUserData() == Some(reply.user)
      ensures reply.Authenticated? && hasWindow ==> (IsAuthenticated() <==> reply.token != "")
      ensures reply.Authenticated? && !hasWindow ==> r == Err(NoLocalStorage)
      ensures reply.Rejected? ==> r == Err(if reply.message != "" then reply.message else LoginFailed)
      ensures reply.Unreadable? ==> r == Err(BodyNotJson)
      ensures r.Err? ==> tokenCookie == old(tokenCookie) && userEntry == old(userEntry)
    {
      sent := Request(Post, "/auth/login", None, LoginBody(data));
      r := Authenticate(reply, LoginFailed);
    }

    method Register(data: RegisterData, reply: AuthReply) returns (sent: Request, r: Result<Session>)
      requires Valid()
      modifies this`tokenCookie, this`userEntry
      ensures sent == Request(Post, "/auth/register", None, RegisterBody(data))
      ensures reply.Authenticated? && hasWindow ==> r == Ok(Session(reply.user, reply.token))
      ensures reply.Authenticated? && hasWindow ==>
        tokenCookie == Some(reply.token) && GetUserData() == Some(reply.user)
      ensures reply.Authenticated? && hasWindow ==> (IsAuthenticated() <==> reply.token != "")
      ensures reply.Authenticated? && !hasWindow ==> r == Err(NoLocalStorage)
      ensures reply.Rejected? ==> r == Err(if reply.message != "" then reply.message else RegisterFailed)
      ensures reply.Unreadable? ==> r == Err(BodyNotJson)
      ensures r.Err? ==> tokenCookie == old(tokenCookie) && userEntry == old(userEntry)
    {
      sent := Request(Post, "/auth/register", None, RegisterBody(data));
      r := Authenticate(reply, RegisterFailed);
    }

    /**
     * Clears both slots; outside a browser the cookie removal is ignored and
     * the `localStorage` removal throws. The notification and the delayed
     * redirect are not modelled.
     */
    method Logout() returns (r: Result<()>)
      modifies this`tokenCookie, this`userEntry
      ensures hasWindow ==> r.Ok? && tokenCookie.None? && userEntry.None?
      ensures hasWindow ==> !IsAuthenticated() && GetUserData().None?
      ensures !hasWindow ==> r == Err(NoLocalStorage) && tokenCookie == old(tokenCookie) && userEntry == old(userEntry)
    {
      RemoveToken();
      if !hasWindow {
        return Err(NoLocalStorage);
      }
      RemoveUserData();
      r := Ok(());
    }

    /** GET /tasks, decoding each task's status. */
    method GetTasks(reply: Reply<seq<ServerTask>>) returns (sent: Option<Request>, r: Result<seq<Task>>)
      ensures GetToken().None? ==> sent.None? && r == Err(MissingToken)
      ensures GetToken().Some? ==> sent == Some(ListRequest(GetToken().value))
      ensures GetToken().Some? && reply.NotOk? ==> r == Err(ListFailed)
      ensures GetToken().Some? && reply.Unparsable? ==> r == Err(BodyNotJson)
      ensures GetToken().Some? && reply.Received? ==> r.Ok? && |r.value| == |reply.body|
      ensures GetToken().Some? && reply.Received? ==>
        forall i :: 0 <= i < |r.value| ==> r.value[i] == DecodeTask(reply.body[i])
      ensures r.Ok? ==> r.value == DecodeTasks(reply.body)
    {
      var token := GetToken();
      if token.None? {
        return None, Err(MissingToken);
      }
      sent := Some(Authorized(token.value, Get, "/tasks", NoBody));
      match reply
      case NotOk =>
        r := Err(ListFailed);
      case Unparsable =>
        r := Err(BodyNotJson);
      case Received(tasks) =>
        DecodeTasksPointwise(tasks);
        r := Ok(DecodeTasks(tasks));
    }

    /** POST /tasks with the status encoded; the created task is returned as the server sent it. */
    method CreateTask(task: TaskDraft, reply: Reply<ServerTask>) returns (sent: Option<Request>, r: Result<ServerTask>)
      ensures GetToken().None? ==> sent.None? && r == Err(MissingToken)
      ensures GetToken().Some? ==>
        sent == Some(CreateRequest(GetToken().value, task))
      ensures GetToken().Some? ==> r == match reply
        case Received(created) => Ok(created)
        case NotOk => Err(CreateFailed)
        case Unparsable => Err(BodyNotJson)
    {
      var token := GetToken();
      if token.None? {
        return None, Err(MissingToken);
      }
      sent := Some(Authorized(token.value, Post, "/tasks", CreateBody(EncodeDraft(task))));
      match reply
      case NotOk =>
        r := Err(CreateFailed);
      case Unparsable =>
        r := Err(BodyNotJson);
      case Received(created) =>
        r := Ok(created);
    }

    /**
     * PUT /tasks/{id} with the sparse body. The response body is read as JSON
     * even though its value is only logged, so a 2xx answer without a JSON
     * body rejects.
     */
    method UpdateTask(id: string, task: TaskPatch, reply: Reply<()>) returns (sent: Option<Request>, r: Result<()>)
      ensures GetToken().None? ==> sent.None? && r == Err(MissingToken)
      ensures GetToken().Some? ==>
        sent == Some(UpdateRequest(GetToken().value, id, task))
      ensures GetToken().Some? ==> r == match reply
        case Received(_) => Ok(())
        case NotOk => Err(UpdateFailed)
        case Unparsable => Err(BodyNotJson)
    {
      var token := GetToken();
      if token.None? {
        return None, Err(MissingToken);
      }
      var body := BuildUpdateBody(task);
      sent := Some(Authorized(token.value, Put, "/tasks/" + id, UpdateBody(body)));
      match reply
      case NotOk =>
        r := Err(UpdateFailed);
      case Unparsable =>
        r := Err(BodyNotJson);
      case Received(_) =>
        r := Ok(());
    }

    /** DELETE /tasks/{id}, without a body; the response body is not read, so `ok` is whether it was 2xx. */
    method DeleteTask(id: string, ok: bool) returns (sent: Option<Request>, r: Result<()>)
      ensures GetToken().None? ==> sent.None? && r == Err(MissingToken)
      ensures GetToken().Some? ==> sent == Some(DeleteRequest(GetToken().value, id))
      ensures GetToken().Some? ==> r == if ok then Ok(()) else Err(DeleteFailed)
    {
      var token := GetToken();
      if token.None? {
        return None, Err(MissingToken);
      }
      sent := Some(Authorized(token.value, Delete, "/tasks/" + id, NoBody));
      r := if ok then Ok(()) else Err(DeleteFailed);
    }
  }
}
