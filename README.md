# Task manager client: a Dafny model of its session, API-client and page logic

The task manager is a browser client for a remote task API. A user signs in or
registers, and then lists, creates, edits, completes and deletes their tasks on
a dashboard. This project models the logic that sits under the HTTP calls and
the rendering, and proves properties of that model:

- **`AuthLib`** (`src/lib/auth.ts`) models `AuthService`.
  - The session store has two slots: the `token` cookie and the `user` entry of local storage.
  - Login, register and logout change those slots.
  - Every task call checks for a token first.
  - The status codec maps `pending`/`completed` to `PENDING`/`DONE` and back.
  - `updateTask` builds a sparse update body.
  - Each API call takes the server's reply as an argument and returns the HTTP request it issued: method, path, `Authorization: Bearer <token>` header and body. When it fails before sending anything, it returns None instead.
- **`TaskCardView`** (`src/components/TaskCard.tsx`) covers the overdue predicate, the badge and the status flip. It also covers the loading flag around the toggle callback.
- **`TaskDialogView`** (`src/components/TaskDialog.tsx`) models the form record.
  - How the form is initialised, including the date-input value taken from the due date.
  - Single-field edits.
  - The re-entrancy guard on submit.
  - The payload passed to `onSave`.
  - Closing only after a save that did not throw.
- **`IndexPage`** (`src/pages/Index.tsx`) covers:
  - the statistics and `getInitials`;
  - the dashboard state and its handlers, composed with the `AuthService` methods;
  - the page's wiring of the card's `onToggleStatus` and the dialog's `onSave`/`onOpenChange`.
- **`Text`** holds the JavaScript string operations these rely on: `split`, `toUpperCase` and `substring(0, n)`.
  - `Join`, with a one-character separator, is there only for `JoinSplit`, which pins down `Split`.
  - The `join('')` of getInitials is the concatenation in `IndexPage.FirstChars`.

Some things the source relies on are not modelled directly.

- Time is an integer.
- Turning a due-date string into a time is an oracle `parse` that answers None for unreadable text. The card reads due dates with `parseISO` and the statistics read them with `new Date(...)`. These two parsers disagree: `new Date` reads a bare date as UTC midnight and accepts more formats. So the `parse` given to `TaskCardView.IsOverdue` stands for the first parser, and the one given to `IndexPage.CountOverdue` stands for the second.
- Outside a browser, `AuthService.hasWindow` is false. There, getToken answers null, cookie writes are ignored, and touching `localStorage` throws.
- A reply can be a 2xx response whose body is not JSON. `response.json()` throws on it, so the call rejects with a SyntaxError.
- `new Date(day + "T00:00:00").toISOString()` is an oracle `toIso` that answers None where it would throw.
- JSON (de)serialisation of the cached user is a pair of oracle functions. `AuthService.Valid()` requires that they round-trip.

On a failed load, `loadTasks` leaves the task list as it was (src/pages/Index.tsx:40-53).

## Model

| member | source | states |
|---|---|---|
| `AuthLib.FromServerStatus` | src/lib/auth.ts:127-130 | a server status decodes to pending exactly when it is `PENDING`; every other value decodes to completed |
| `AuthLib.ToServerStatus` | src/lib/auth.ts:137-140 | the outbound value is `PENDING` or `DONE`, and decoding it gives back the client status (client→server→client is the identity) |
| `AuthLib.ServerStatusRoundTrip` | src/lib/auth.ts:129 | server→client→server gives back the value exactly when it is `PENDING` or `DONE` |
| `AuthLib.DecodeTask` | src/lib/auth.ts:127-130 | the spread keeps id, title, description, dueDate and userId, and only the status is decoded |
| `AuthLib.DecodeTasks` | src/lib/auth.ts:127-130 | mapping the list keeps its length |
| `AuthLib.DecodeTasksPointwise` | src/lib/auth.ts:127-130 | the list mapping keeps the length and the order, and decodes each task in place |
| `AuthLib.EncodeDraft` | src/lib/auth.ts:137-140 | the create body keeps the draft's fields; its status is `PENDING` or `DONE` and decodes back to the draft's status |
| `AuthLib.SparseBody` | src/lib/auth.ts:164-171 | a key is in the update body exactly when the patch defines it among the updatable keys; its value is the field, with the status encoded |
| `AuthLib.SparseBodyKeys` | src/lib/auth.ts:164-171 | title, description, status and dueDate are present exactly when defined; id and userId are never sent; status is sent encoded |
| `AuthLib.BuildUpdateBody` | src/lib/auth.ts:164-171 | the step-by-step construction of `updateData` yields exactly the sparse body |
| `AuthLib.StatusPatchBody` | src/pages/Index.tsx:116 | a toggle's `{ status }` patch produces a body whose only entry is the encoded status |
| `AuthLib.DraftPatchBody` | src/pages/Index.tsx:77 | a full draft passed to updateTask sends all four updatable keys with their values |
| `AuthLib.Authorized` | src/lib/auth.ts:117 | an authenticated request carries `Bearer ` followed by the token (section 2.1 of RFC 6750) |
| `AuthLib.AuthService.GetToken` | src/lib/auth.ts:33-36 | a token is read only in a browser, and only when the cookie is present and non-empty; an empty cookie reads as null |
| `AuthLib.AuthService.IsAuthenticated` | src/lib/auth.ts:46-48 | signed in exactly when a non-empty token cookie is readable |
| `AuthLib.AuthService.GetUserData` | src/lib/auth.ts:50-59 | callable only in a browser, because it reads `localStorage`. A missing or empty entry gives null; otherwise the result is what parsing the entry gives, and null when parsing fails |
| `AuthLib.AuthService.SetToken` | src/lib/auth.ts:38-40 | in a browser the cookie holds the given token; outside one the write is ignored |
| `AuthLib.AuthService.RemoveToken` | src/lib/auth.ts:42-44 | in a browser the cookie is gone; outside one the removal is ignored |
| `AuthLib.AuthService.SetUserData` | src/lib/auth.ts:61-63 | the entry holds the serialised user, and getUserData then returns that user |
| `AuthLib.AuthService.RemoveUserData` | src/lib/auth.ts:65-67 | the entry is gone |
| `AuthLib.AuthService.Authenticate` | src/lib/auth.ts:78-86 | on success in a browser it stores the token and the user and returns both. On an error reply it throws the server's message, or the fallback when that is empty. A body that is not JSON throws a SyntaxError, and outside a browser it throws on `localStorage`. Every failure leaves storage unchanged |
| `AuthLib.AuthService.Login` | src/lib/auth.ts:69-87 | POSTs the credentials to `/auth/login`. On success in a browser, token and user are stored and getUserData returns the user. An error reply throws its message or "Erro ao fazer login". A body that is not JSON throws a SyntaxError, and outside a browser the `localStorage` write throws. Storage is unchanged on every failure |
| `AuthLib.AuthService.Register` | src/lib/auth.ts:89-109 | the same contract for `/auth/register`, with the fallback "Erro ao criar conta" |
| `AuthLib.AuthService.Logout` | src/lib/auth.ts:210-212 | in a browser both slots are cleared, so isAuthenticated is false and getUserData is null; outside one it throws on `localStorage` and changes nothing |
| `AuthLib.AuthService.GetTasks` | src/lib/auth.ts:111-131 | with no token: fails with "Token não encontrado" and sends nothing. Otherwise: sends `GET /tasks` with the bearer header, fails with the fixed message on a non-2xx reply and with a SyntaxError on a body that is not JSON. Otherwise it returns the decoded list of the same length and order |
| `AuthLib.AuthService.CreateTask` | src/lib/auth.ts:133-156 | with no token: fails and sends nothing. Otherwise: POSTs the status-encoded draft. It returns the server's task verbatim, fails with "Erro ao criar tarefa" on a non-2xx reply, or fails with a SyntaxError on a body that is not JSON |
| `AuthLib.AuthService.UpdateTask` | src/lib/auth.ts:158-192 | with no token: fails and sends nothing. Otherwise: PUTs the sparse body to `/tasks/{id}`. It fails with "Erro ao atualizar tarefa" on a non-2xx reply, and with a SyntaxError on a 2xx reply whose body is not JSON |
| `AuthLib.AuthService.DeleteTask` | src/lib/auth.ts:194-208 | with no token: fails and sends nothing. Otherwise: sends `DELETE /tasks/{id}` without a body, and fails with "Erro ao deletar tarefa" on a non-2xx reply |
| `TaskCardView.FlipStatus` | src/components/TaskCard.tsx:22 | the toggle target always differs from the current status |
| `TaskCardView.FlipTwice` | src/components/TaskCard.tsx:22 | flipping twice gives back the original status |
| `TaskCardView.IsOverdue` | src/components/TaskCard.tsx:37-46 | only a pending task with a readable due date can be overdue |
| `TaskCardView.NotOverdue` | src/components/TaskCard.tsx:37-46 | overdue exactly when pending with a readable due date strictly before now; a completed task or an unreadable date is never overdue |
| `TaskCardView.BadgeLabel` | src/components/TaskCard.tsx:64 | "Concluída" exactly when completed; "Atrasada" exactly when pending and overdue; "Pendente" exactly when pending and not overdue |
| `TaskCardView.BadgeStyle` | src/components/TaskCard.tsx:63 | the badge variant makes the same three-way choice as the label |
| `TaskCardView.CardShowsLateIffOverdue` | src/components/TaskCard.tsx:48-64 | the card shows "Atrasada" exactly when its task is overdue |
| `TaskCardView.TaskCard.constructor` | src/components/TaskCard.tsx:17-18 | a card starts for its task with the loading flag down |
| `TaskCardView.TaskCard.BeginToggle` | src/components/TaskCard.tsx:20-23 | isLoading is raised, and the one callback call carries the card's own id and the flipped status |
| `TaskCardView.TaskCard.EndToggle` | src/components/TaskCard.tsx:24 | isLoading is lowered once the callback has returned |
| `TaskDialogView.DatePrefix` | src/components/TaskDialog.tsx:47 | the date-input value is the longest prefix of the due date that has no 'T'; it is followed by 'T' or is the whole string |
| `TaskDialogView.DatePrefixOfDateTime` | src/components/TaskDialog.tsx:47 | for an RFC 3339 (section 5.6) date-time, the value is its full-date |
| `TaskDialogView.InitialForm` | src/components/TaskDialog.tsx:41-59 | with a task: title, description and status are copied and dueDate is the date prefix; without one: empty fields and a pending status |
| `TaskDialogView.WithField` | src/components/TaskDialog.tsx:90-95 | the named input takes the new value and every other field is unchanged |
| `TaskDialogView.Payload` | src/components/TaskDialog.tsx:71-81 | title, description and status come from the form, dueDate is the converted date, and the task id is present exactly when a task is being edited |
| `TaskDialogView.ResubmitUnchanged` | src/components/TaskDialog.tsx:42-81 | opening on a task and submitting it untouched sends the task's own fields under its id, with the due date's time of day replaced by local midnight |
| `TaskDialogView.TaskDialog.constructor` | src/components/TaskDialog.tsx:33-39 | the dialog starts with the empty pending form and the loading flag down |
| `TaskDialogView.TaskDialog.Sync` | src/components/TaskDialog.tsx:41-59 | the form is rebuilt exactly when the task or open prop changes; otherwise edits stay |
| `TaskDialogView.TaskDialog.HandleChange` | src/components/TaskDialog.tsx:90-95 | the form becomes the old form with the one named field replaced |
| `TaskDialogView.TaskDialog.SelectStatus` | src/components/TaskDialog.tsx:147-153 | the status selector, rendered only while a task is being edited, changes only the status |
| `TaskDialogView.TaskDialog.StartSubmit` | src/components/TaskDialog.tsx:61-81 | while a save is in flight: a no-op. Otherwise: raises the flag and produces the payload, or lowers it again with no call when the date conversion throws |
| `TaskDialogView.TaskDialog.FinishSubmit` | src/components/TaskDialog.tsx:81-87 | requests a close exactly when onSave did not throw, and lowers the flag either way |
| `TaskDialogView.TaskDialog.HandleSubmit` | src/components/TaskDialog.tsx:61-88 | while loading: no call and no close. Otherwise: the flag ends lowered, a close is requested only after a call whose save did not throw, and the call carries the payload |
| `TaskDialogView.TaskDialog.SubmitForm` | src/components/TaskDialog.tsx:108-143 | the `required` title and due-date inputs come first: with either empty, handleSubmit does not run, so there is no call, no close and the flag is untouched. Otherwise it behaves as handleSubmit, and any call carries a non-empty title |
| `IndexPage.CountStatus` | src/pages/Index.tsx:157-158 | a status count never exceeds the number of tasks |
| `IndexPage.CountOverdue` | src/pages/Index.tsx:159-161 | the overdue filter keeps at most every task |
| `IndexPage.StatusPartition` | src/pages/Index.tsx:157-158 | completed + pending = total, because a status has two values |
| `IndexPage.OverdueWithinPending` | src/pages/Index.tsx:159-161 | overdue ≤ pending |
| `IndexPage.ComputeStats` | src/pages/Index.tsx:155-162 | total is the list length, completed + pending = total, overdue ≤ pending, and overdue counts the pending tasks due before now |
| `IndexPage.CompletingLeavesOverdue` | src/pages/Index.tsx:159-161 | marking one overdue task completed lowers the overdue count by one, and the total stays the same |
| `IndexPage.FirstChars` | src/pages/Index.tsx:167-168 | taking the first character of each part gives at most one character per part |
| `IndexPage.FirstCharsOfSplit` | src/pages/Index.tsx:166-168 | the first characters of the space-separated parts, with empty parts contributing nothing, are exactly the characters that start a word |
| `IndexPage.GetInitials` | src/pages/Index.tsx:164-171 | an empty name gives "U"; otherwise the result is at most two characters: the upper-cased word starts, truncated |
| `IndexPage.InsideWord` | src/pages/Index.tsx:166-168 | inside a word with no spaces, no further word starts |
| `IndexPage.TwoWordInitials` | src/pages/Index.tsx:164-171 | two space-separated words give their two upper-cased first letters |
| `IndexPage.SaveTarget` | src/pages/Index.tsx:146-152 | a routed id is never empty, and it is either the edited task's id or the passed id |
| `IndexPage.SaveRouting` | src/pages/Index.tsx:143-153 | an edited task's non-empty id wins over any passed id, and a passed non-empty id wins over creating |
| `IndexPage.Dashboard.constructor` | src/pages/Index.tsx:20-24 | the page renders only in a browser. It starts with an empty list, loading, the dialog closed, nothing being edited, and the cached user |
| `IndexPage.Dashboard.Mount` | src/pages/Index.tsx:26-38 | without a session it redirects and changes nothing. Otherwise it refreshes the user when one is cached and loads the tasks |
| `IndexPage.Dashboard.LoadTasks` | src/pages/Index.tsx:40-53 | replaces the list with the fetched one on success and keeps it on failure; isLoading is false afterwards either way |
| `IndexPage.Dashboard.HandleCreateTask` | src/pages/Index.tsx:55-72 | sends the create request and reloads on success. Any failure leaves the page state unchanged and does not reject |
| `IndexPage.Dashboard.HandleUpdateTask` | src/pages/Index.tsx:74-92 | sends the full-draft update and, on success, reloads and clears editingTask. Any failure leaves the page unchanged |
| `IndexPage.Dashboard.HandleSaveTask` | src/pages/Index.tsx:143-153 | the first request updates the edited task's id, else the passed id, else creates. A second request, the reload, happens exactly when the routed call succeeded, and then the list is the reloaded one. A successful update clears editingTask, and a create keeps it. A single request means nothing changed. handleSaveTask never rejects |
| `IndexPage.Dashboard.HandleDeleteTask` | src/pages/Index.tsx:94-111 | without confirmation: no request and the page unchanged. With it: DELETE, then a reload on success |
| `IndexPage.Dashboard.HandleToggleStatus` | src/pages/Index.tsx:113-130 | sends an update whose body is the encoded status alone, then reloads on success |
| `IndexPage.Dashboard.HandleEditTask` | src/pages/Index.tsx:132-136 | editingTask becomes the task and the dialog opens |
| `IndexPage.Dashboard.HandleDialogClose` | src/pages/Index.tsx:138-141 | the dialog closes and editingTask is cleared |
| `IndexPage.Dashboard.HandleLogout` | src/pages/Index.tsx:173-175 | in a browser the session is gone afterwards: not authenticated and no cached user. Outside one it throws on `localStorage` |
| `IndexPage.Dashboard.OpenNewTaskDialog` | src/pages/Index.tsx:205 | the "Nova Tarefa" button opens the dialog |
| `IndexPage.ToggleFromCard` | src/pages/Index.tsx:293-299 | a card's toggle sends one status-only update of the card's own task, with the flipped status. A reload follows exactly when the update succeeded, and the list becomes the reloaded one; otherwise the list and the loading flag stay. The dialog, editingTask and userData are kept, and the card's flag ends lowered |
| `IndexPage.SubmitDialog` | src/pages/Index.tsx:307-312 | a form with an empty title or due date is not submitted: nothing is sent and the page is unchanged. With the page's handlers wired in, a submit that reaches onSave always closes the dialog and clears editingTask, because handleSaveTask never rejects. The first request targets the task the page routes to. A reload follows exactly when that call succeeded, and the list becomes the reloaded one; otherwise the list stays. userData is kept. With no token nothing is sent. While a save is in flight the submit is a no-op, so the dialog's flag stays raised. The dialog's open prop, form and task are unchanged |
| `Text.Split` | src/pages/Index.tsx:166 | `split` returns at least one part, and no part contains the separator |
| `Text.JoinSplit` | src/pages/Index.tsx:166 | `split(sep)` loses nothing: rejoining its parts with the same separator gives back the text, which together with Split's own ensures determines the parts |
| `Text.FirstField` | src/components/TaskDialog.tsx:47 | `split(sep)[0]` is a prefix without the separator, followed by the separator or the end |
| `Text.FirstFieldUnique` | src/components/TaskDialog.tsx:47 | those three facts determine `split(sep)[0]` |
| `Text.ToUpper` | src/pages/Index.tsx:169 | upper-casing keeps the length and maps each character |
| `Text.Take` | src/pages/Index.tsx:170 | `substring(0, n)` is a prefix of length min(n, length) |

## Left out

- The HTTP exchange. This covers `fetch`, the base URL from configuration and the `Content-Type` headers. It also covers decoding a JSON response into fields. Each call's reply is an argument, which says whether the body was JSON.
- The exact text of the SyntaxError and the ReferenceError. These are thrown by the JavaScript engine, and the model uses a fixed stand-in message for each.
- Cookie expiry (one day) and the real storage mechanisms. JSON is a pair of oracle functions.
- Toasts, console logging, `navigate`, `window.location` and the one-second redirect after logout. These have no statable output.
- The date input's own check of its value. The browser empties a date input that is not a valid date. The model checks only that the form's `dueDate` is non-empty.
- All rendering: JSX, `formatDate`, the plural text, the avatar's display name and the UI primitives.
- Time zones. `parseISO`, `new Date(...)` and `toISOString` are oracles, so the local-midnight conversion is not computed.
- src/components/LoginForm.tsx and src/pages/Login.tsx are not part of this model. They only forward to login and register.
- Concurrency. The handlers start `loadTasks()` without awaiting it, and in-flight actions can interleave. In the model each reload runs to completion inside its handler, and a double click is two sequential calls.
- Text.ToUpper: maps only the ASCII letters a–z. Full Unicode case mapping is not modelled. So a lower-case accented initial stays lower-case: "érica" gives "é" here and "É" in the source. Mappings that change a string's length, such as "ß" to "SS", are not modelled either. Characters are Unicode scalar values, not UTF-16 code units.
- TaskDialogView.TaskDialog.Sync: compares the task prop by value. React compares the object's identity.
- TaskDialogView.Payload: `formData.description || ""` is the identity on strings, so the model copies the description.
- AuthLib.AuthService.CreateTask: returns the created task with the server's raw status; it is not decoded. Its callers ignore the value.
- IndexPage.ToggleFromCard: does not restate that the card's flag is raised during the callback; TaskCard.BeginToggle states it. In the source, the card's toggle button is commented out.
