# A verified model of the to-do application's core

The application is a to-do list for one signed-in user. A user signs in with a
name and an email. The dashboard lists that user's tasks newest first. Tasks can
be added, toggled, edited and deleted; deletion removes the task from the list
at once, before the store confirms it. A step-by-step description can be
generated for a task by an external webhook; it is staged for review and saved
only when accepted. A chat assistant forwards messages to a second webhook and
creates the tasks its reply proposes. Two HTTP endpoints complete the core:
`POST /api/users` (register, or set a phone) and `POST /api/create-task`.

The model has one module per part of the program:

- `Common`: optional values, the JSON field shapes a handler can meet, and request bodies.
- `Text`: JavaScript's `trim` and the white-space class `\s`.
- `Rows`: the rows of the two tables, and the normalisation applied on task writes.
- `Store`: the backing store as a `Database` class with a `tasks` map keyed by id and a `users` map keyed by the unique email. It offers the row operations the components issue.
- `TaskListView`, `AddTaskFormView`, `TaskItemView`, `ChatAssistantView` and `LoginFormView`: one class per component. Each component's state variables are fields, and each handler is a method with a `modifies` clause.
- `SessionStore`: the `localStorage` entry holding the signed-in user.
- `UsersRoute` and `CreateTaskRoute`: the two endpoints, each a pure parse of the body plus a `Post` method against the store.

The components are wired as in the program. `AddTaskForm` and `TaskItem` hold the `TaskList` that shows them, and its `handleTaskAdded`, `handleTaskUpdate` and `handleTaskDelete` are their callbacks. All components share one `Database`.

Whatever is remote becomes a parameter of the handler:

- whether a store call succeeds (`ok`, `lookupOk`, `writeOk`);
- how a list refetch ends (`FetchOutcome`);
- how a webhook answers (`StepsReply`, `ChatReply`);
- how each chat-created task's request ends (`CallResult`);
- the id and timestamp the store assigns;
- whether a webhook URL is configured.

A failed store call changes nothing.

What is proved, beyond each handler's full new state:

- A successful fetch leaves the list holding each of the owner's rows exactly once, and no other row, newest first.
- The optimistic delete is consistent with the store: a list that was the owner's listing is again exactly the owner's listing once the remote delete succeeds, with no refetch.
- No task write stores an empty description from the form or the route.
- The staged generated description keeps its invariant (`Staging`) through every handler that writes the staging fields. Every other handler leaves those fields unchanged, so the invariant survives them too.
- The chat loop sends one request per proposed entry with a truthy title, in order. The success count equals the number of those answered ok and never exceeds the number sent.
- The email pattern of the login form is characterised independently, in both directions.
- Signing in and posting to `/api/users` are idempotent.
- The users endpoint never renames a user.
- The create-task endpoint builds the same row as the form for titles that are not blank.

## Model

| member | source | states |
|---|---|---|
| Text.TrimStart | app/api/create-task/route.ts:23 | never longer than its input; the result is empty or starts with a character that is not white space |
| Text.TrimEnd | app/api/create-task/route.ts:23 | never longer than its input; the result is empty or ends with a character that is not white space |
| Text.TrimStartDropsSpace | app/api/create-task/route.ts:23 | the result is a suffix of the input and the part dropped in front is all white space |
| Text.TrimEndDropsSpace | app/api/create-task/route.ts:23 | the result is a prefix of the input and the part dropped at the end is all white space |
| Text.Trim | app/api/create-task/route.ts:23 | never longer than its input; neither end of the result is white space |
| Text.TrimIsInfix | app/api/create-task/route.ts:23 | the trimmed string is a slice of the input with only white space outside it |
| Text.BlankIffAllSpace | components/AddTaskForm.tsx:28 | `!s.trim()` holds exactly when every character of `s` is white space |
| Text.TrimIdempotent | app/api/create-task/route.ts:23 | trimming a trimmed string changes nothing |
| Rows.NormalizeDescription | components/AddTaskForm.tsx:42 | `description.trim() \|\| null` is never the empty string; it is null exactly when the input is all white space, and otherwise the trimmed text |
| Rows.NewTaskPayload | components/AddTaskForm.tsx:39-43 | the inserted row carries the owner's email, a non-empty trimmed title with no white space at either end, and the normalised description |
| Rows.NewTaskRow | components/AddTaskForm.tsx:37-45 | the stored row keeps the payload's owner, title and description; the store adds the id and the creation time, and a new task is not done |
| Rows.Patched | components/TaskItem.tsx:72-75 | an update never changes id, owner or creation time; a column the patch does not name is kept, and each column it names takes the patch's value |
| Store.InsertNewestFirst | components/TaskList.tsx:24 | the result holds the rows plus the new one, each as often as before |
| Store.InsertKeepsNewestFirst | components/TaskList.tsx:24 | inserting into a newest-first list keeps it newest first |
| Store.InsertedAreFrom | components/TaskList.tsx:24 | every element of an insertion result is the inserted row or one of the old rows |
| Store.ListingMembers | components/TaskList.tsx:20-24 | a listing contains a task exactly when it is a row of the table owned by that email |
| Store.Database.InsertTask | components/AddTaskForm.tsx:36-44 | on success exactly one new row with that id, the payload, not done, stamped now; on failure nothing changes |
| Store.Database.UpdateTask | components/TaskItem.tsx:72-75 | only the row with that id is patched; an unknown id or a failed call changes nothing |
| Store.Database.DeleteTask | components/TaskItem.tsx:137-140 | on success exactly that id leaves the table; on failure nothing changes |
| Store.Database.SelectByOwner | components/TaskList.tsx:20-24 | the result holds each of the owner's rows exactly once, no other row, in descending creation time |
| Store.Database.UserByEmail | components/LoginForm.tsx:45-49 | a row is found exactly when the email is registered, and it carries that email |
| Store.Database.UpdateUserName | components/LoginForm.tsx:56-61 | succeeds exactly when the call succeeds and the email is registered; only that row's name changes |
| Store.Database.UpdateUserPhone | app/api/users/route.ts:51-56 | succeeds exactly when the call succeeds and the email is registered; only that row's phone changes |
| Store.Database.InsertUser | app/api/users/route.ts:76-80 | succeeds exactly when the call succeeds and the email is not yet taken; then exactly one new row |
| TaskListView.WithoutTask | components/TaskList.tsx:50 | never longer; keeps exactly the tasks whose id differs |
| TaskListView.WithoutTaskCount | components/TaskList.tsx:50 | each task with another id is kept as often as it occurred; none with that id remains |
| TaskListView.WithoutTaskConcat | components/TaskList.tsx:50 | the filter works piecewise, so the kept tasks stay in their order |
| TaskListView.WithoutTaskKeepsNewestFirst | components/TaskList.tsx:50 | filtering a newest-first list leaves it newest first |
| TaskListView.DeleteKeepsListing | components/TaskItem.tsx:133-140 | if the list was the owner's listing, the filtered list is the owner's listing of the table without that id |
| TaskListView.TaskList.constructor | components/TaskList.tsx:14-16 | a new list is empty, loading, with the form hidden |
| TaskListView.TaskList.FetchTasks | components/TaskList.tsx:18-33 | a successful fetch makes the list the owner's listing (or empty with no data); a failed one leaves it; loading ends either way |
| TaskListView.TaskList.HandleTaskAdded | components/TaskList.tsx:39-42 | the form is hidden and the list refetched |
| TaskListView.TaskList.HandleTaskUpdate | components/TaskList.tsx:44-46 | the list is refetched and the form left as it was |
| TaskListView.TaskList.HandleTaskDelete | components/TaskList.tsx:48-51 | the list loses every task with that id; an owner's listing becomes the listing the store will hold after that id is deleted |
| TaskListView.TaskList.OpenAddForm | components/TaskList.tsx:73 | shows the form, list unchanged |
| TaskListView.TaskList.CloseAddForm | components/TaskList.tsx:69 | hides the form, list unchanged |
| AddTaskFormView.AddTaskForm.constructor | components/AddTaskForm.tsx:19-22 | empty inputs, not loading, no error |
| AddTaskFormView.AddTaskForm.SetTitle | components/AddTaskForm.tsx:70 | only the title input changes |
| AddTaskFormView.AddTaskForm.SetDescription | components/AddTaskForm.tsx:81 | only the description input changes |
| AddTaskFormView.AddTaskForm.HandleSubmit | components/AddTaskForm.tsx:24-57 | a blank title only sets "Title is required", leaving the list and the store untouched; otherwise one normalised row is inserted; on success the inputs clear and the list hides the form and refetches; on failure the inputs stay, the list and the store's tasks are unchanged and the error is shown |
| TaskItemView.StepsResult | components/TaskItem.tsx:163-205 | a text is staged exactly when a webhook is configured and answers with a non-empty description; the refusal text says "timed out" exactly for an abort |
| TaskItemView.TaskItem.constructor | components/TaskItem.tsx:16-29 | the editor starts from the task's title and `description \|\| ''`; nothing staged |
| TaskItemView.TaskItem.ToggleMenu | components/TaskItem.tsx:545 | the menu flips; every other field of the item, the staging included, is unchanged |
| TaskItemView.TaskItem.HandleToggle | components/TaskItem.tsx:70-83 | only `is_done` of this id flips, to the negation of the item's value; the list is refetched on both outcomes |
| TaskItemView.TaskItem.HandleEdit | components/TaskItem.tsx:85-90 | the editor opens on the task's values and the menu closes |
| TaskItemView.TaskItem.HandleCancel | components/TaskItem.tsx:92-96 | the editor closes and its values return to the task's |
| TaskItemView.TaskItem.SetEditTitle | components/TaskItem.tsx:301 | only the edited title changes |
| TaskItemView.TaskItem.SetEditDescription | components/TaskItem.tsx:308 | only the edited description changes |
| TaskItemView.TaskItem.HandleSave | components/TaskItem.tsx:98-123 | a blank title changes nothing anywhere; otherwise the trimmed title and normalised description are written for this id, the editor closes only on success, and the list is refetched on both outcomes, ending its loading; the add form is never touched |
| TaskItemView.TaskItem.HandleDeleteClick | components/TaskItem.tsx:125-128 | the confirmation opens and the menu closes |
| TaskItemView.TaskItem.HandleDeleteCancel | components/TaskItem.tsx:155-157 | the confirmation closes |
| TaskItemView.TaskItem.HandleDeleteConfirm | components/TaskItem.tsx:130-153 | the task leaves the list before the delete; on success the store loses exactly that id and an owner's listing stays exact without a refetch; on failure the store is unchanged and the list is refetched, ending its loading; the add form is never touched |
| TaskItemView.TaskItem.HandleGenerateSteps | components/TaskItem.tsx:159-209 | only the title is sent, and only when configured; a non-empty reply is staged, shown and not being edited; any failure keeps the staging and shows the timeout or the generic toast |
| TaskItemView.TaskItem.HandleAcceptGenerated | components/TaskItem.tsx:211-239 | nothing staged changes nothing; otherwise the edited text (while editing) or the generated text replaces the description; success clears the staging, shows the success toast and refetches; failure keeps the staging, shows the error toast and does not refetch; the add form is never touched |
| TaskItemView.TaskItem.HandleEditGenerated | components/TaskItem.tsx:241-249 | editing starts from the generated text |
| TaskItemView.TaskItem.SetEditedGeneratedDescription | components/TaskItem.tsx:496 | only the edited copy changes |
| TaskItemView.TaskItem.CancelEditGenerated | components/TaskItem.tsx:524 | editing stops and the staged texts are kept |
| TaskItemView.TaskItem.HandleCancelGenerated | components/TaskItem.tsx:251-256 | the staging is discarded with no write |
| TaskItemView.TaskItem.DismissToast | components/TaskItem.tsx:582 | the toast goes and the staging stays |
| ChatAssistantView.Attempts | components/ChatAssistant.tsx:153-161 | at most one request per entry, each to `/api/tasks` with the user's email and a non-empty title |
| ChatAssistantView.Successes | components/ChatAssistant.tsx:152-159 | the success count never exceeds the number of entries, and is zero when no request is answered ok |
| ChatAssistantView.SuccessesBounded | components/ChatAssistant.tsx:152-161 | successes never outnumber requests sent |
| ChatAssistantView.AllOkAllCount | components/ChatAssistant.tsx:152-161 | when every request is answered ok, every request counts |
| ChatAssistantView.AttemptsOne | components/ChatAssistant.tsx:154-157 | a single entry is sent exactly when its title is truthy, with that title, `description \|\| ''` and the user's email |
| ChatAssistantView.AttemptsConcat | components/ChatAssistant.tsx:153-161 | entries are processed in order: the requests for a concatenation are those of the first part followed by those of the second |
| ChatAssistantView.ReplyEntries | components/ChatAssistant.tsx:108-182 | at most one assistant entry; a missing webhook or any failure adds exactly one, reading "timed out" only for an abort; a reply adds its message exactly when it is truthy |
| ChatAssistantView.CreateTask | components/ChatAssistant.tsx:65-88 | posts title, description and the user's email to `/api/tasks`; true exactly for an ok response |
| ChatAssistantView.CreateProposedTasks | components/ChatAssistant.tsx:151-161 | sends exactly the requests of `Attempts`, in order; the count equals the entries answered ok and is at most the number sent |
| ChatAssistantView.ChatAssistant.constructor | components/ChatAssistant.tsx:24-27 | empty transcript and input, not sending |
| ChatAssistantView.ChatAssistant.SetInput | components/ChatAssistant.tsx:315 | only the input changes |
| ChatAssistantView.ChatAssistant.BeginSend | components/ChatAssistant.tsx:90-105 | starts exactly when the input is not blank and nothing is in flight; then the trimmed text is appended as a user message and the input cleared, before any request |
| ChatAssistantView.ChatAssistant.FinishSend | components/ChatAssistant.tsx:107-185 | the transcript only grows by the reply entries; the webhook gets the email and the text only when configured; the proposed tasks are sent as `Attempts`; the listener is notified exactly after at least one success; sending ends |
| ChatAssistantView.ChatAssistant.HandleSendMessage | components/ChatAssistant.tsx:90-186 | a blank input or a send in flight changes nothing; otherwise the user message, then the reply entries, are appended and the send ends |
| SessionStore.LocalStorage.Get | utils/localStorage.ts:7-18 | on the server nothing is read; in the browser the stored user, or none when nothing readable is stored |
| SessionStore.LocalStorage.Save | utils/localStorage.ts:20-23 | in the browser a later read returns the saved user; on the server nothing changes |
| SessionStore.LocalStorage.Remove | utils/localStorage.ts:25-28 | afterwards no user is read back |
| LoginFormView.MatchesEmailPattern | components/LoginForm.tsx:26 | an accepted address has at least five characters and contains an '@' and a '.' |
| LoginFormView.FirstAt | components/LoginForm.tsx:26 | the index of the first '@', or none when there is no '@' |
| LoginFormView.PatternGivesShape | components/LoginForm.tsx:26 | every string the pattern accepts has no white space, exactly one '@' not in front, and a '.' strictly inside the part after it |
| LoginFormView.ShapeGivesPattern | components/LoginForm.tsx:26 | every string of that shape is accepted by the pattern |
| LoginFormView.EmailPatternIffShape | components/LoginForm.tsx:26 | the pattern and the shape accept the same strings |
| LoginFormView.PatternNotBlank | components/LoginForm.tsx:24-28 | an address the pattern accepts is never blank |
| LoginFormView.ValidateForm | components/LoginForm.tsx:17-32 | no name message exactly when the name is not blank; no email message exactly when the untrimmed email matches the pattern; "Email is required" exactly when it is blank |
| LoginFormView.FormAccepted | components/LoginForm.tsx:17-39 | the form proceeds exactly when the name is not blank and the email has the shape |
| LoginFormView.PaddedEmailRefused | components/LoginForm.tsx:26 | an email typed with leading white space is refused |
| LoginFormView.UsersAfterLogin | components/LoginForm.tsx:53-78 | the email is registered afterwards with the typed name; an existing row keeps its id, phone and creation time; a new row has no phone; other rows are untouched |
| LoginFormView.LoginIdempotent | components/LoginForm.tsx:53-78 | signing in again with the same name and email changes nothing more |
| LoginFormView.LoginForm.constructor | components/LoginForm.tsx:12-15 | empty inputs, no messages, not loading |
| LoginFormView.LoginForm.SetName | components/LoginForm.tsx:103 | only the name changes |
| LoginFormView.LoginForm.SetEmail | components/LoginForm.tsx:113 | only the email changes |
| LoginFormView.LoginForm.HandleSubmit | components/LoginForm.tsx:34-95 | invalid input only shows its messages; a successful sign-in leaves the users table as `UsersAfterLogin`, the session equal to the stored row and the router on the dashboard; a failed write changes nothing and shows the login error |
| UsersRoute.TrimField | app/api/users/route.ts:13-14 | the optional-chained trim throws exactly for a value that is not a string, null or absent; a string is trimmed; the result is falsy exactly for an absent or null field or a blank string |
| UsersRoute.NormalizePhone | app/api/users/route.ts:15 | a string phone is trimmed, a missing or null one becomes null, any other value is kept; never undefined |
| UsersRoute.ParseUsersBody | app/api/users/route.ts:12-22 | 500 exactly for a body that is not JSON, or an email or name holding a JSON value other than a string, null or absent; accepted exactly when both are strings that are not blank, then trimmed and non-empty; the phone counts as given exactly when the key is present |
| UsersRoute.UsersAfterPost | app/api/users/route.ts:39-96 | the email is registered afterwards; no existing user's name, id, email or creation time changes; a known email without a phone leaves the table as it was; a new email gets the name and phone |
| UsersRoute.PostIdempotent | app/api/users/route.ts:39-96 | posting the same input twice leaves the table as posting it once |
| UsersRoute.Post | app/api/users/route.ts:10-104 | rejected bodies are answered at once; a failed lookup or write is a 500 that changes nothing; otherwise the table becomes `UsersAfterPost`, 201 for a new user and 200 for a known one, with the stored row |
| CreateTaskRoute.ParseCreateTaskBody | app/api/create-task/route.ts:6-26 | 400 exactly when title or email is falsy; accepted exactly for a non-empty string title and email and a description that is absent, null or a string; the row has the trimmed title and the normalised description |
| CreateTaskRoute.WhitespaceTitleStoredEmpty | app/api/create-task/route.ts:10-23 | every non-empty title made only of white space passes the check and is stored as "", whatever the description |
| CreateTaskRoute.AgreesWithForm | app/api/create-task/route.ts:18-26 | for a title that is not blank, the route builds the same row as the add-task form |
| CreateTaskRoute.NoEmptyDescription | app/api/create-task/route.ts:24 | the route never stores an empty description |
| CreateTaskRoute.Post | app/api/create-task/route.ts:4-46 | rejected bodies are answered at once; otherwise exactly one new row, not done, answered 201, or 500 "Failed to create task" with the table unchanged |

## Where the code differs from the documented behaviour

The model follows the code in each of these cases.

- `POST /api/create-task` checks truthiness, not blankness. A title of spaces is accepted and stored as "" (`CreateTaskRoute.WhitespaceTitleStoredEmpty`), although a task title is meant to be non-empty after trimming.
- The chat loop creates an entry when `task.title` is truthy, not when it is non-blank. An entry titled " " is sent.
- The chat assistant creates tasks by posting to `/api/tasks`. The repository's task-creation endpoint is `/api/create-task`, and none of the modelled files defines `/api/tasks`. Whether those requests succeed is therefore the `CallResult` parameter.
- Accepting a generated description while editing it saves the edited text as typed, untrimmed. An emptied text is stored as "", although descriptions are meant never to be stored empty.
- A failed save of a generated description shows a toast and does not refetch the list. The same holds for a failed add from the form: it shows its error and does not refetch.
- The login form ignores an error from the lookup by email and proceeds to insert. The insert then fails for a registered email, so the reported failure is the write's.
- The login form stores the name as typed, untrimmed; only the check trims it. The users endpoint stores it trimmed.
- The users endpoint answers 500, not 400, when email or name is a non-string JSON value, because `trim` throws. `POST /api/create-task` answers 500 for a `null` body, because destructuring `null` throws; the users endpoint answers 400 for it.

## Left out

- Rendering, styling, focus and scroll effects, the chat panel's open state, and the close-on-click-outside listeners are left out: they change no modelled state.
- The mount effect of `TaskList` (components/TaskList.tsx:35-37) is left to the caller, who calls `FetchTasks` after construction. The dashboard's remount of the list through `refreshKey` is likewise left to the caller.
- The `TaskItem` effect that re-syncs the editor when the task prop changes (components/TaskItem.tsx:55-61) is left out. In the program an item is keyed by the task id, so it survives a refetch and receives the refetched row. In the model an item's task is fixed: callers build a new `TaskItem` from `list.tasks` after each refresh. Calling `HandleToggle` twice on the same item therefore writes the same value both times.
- Timers are not modelled as time. The 30-second aborts become the `Aborted` reply. The 1-second delay before `onTaskCreated` becomes the `notified` result.
- Overlapping requests are not modelled. Each handler runs to completion before the next begins, so the "last fetch to resolve wins" race and input typed while a send is in flight are outside the model.
- Message ids and timestamps are left out; so are console logging and the `Enter` key handler, which calls the same send.
- A store call that commits and still reports an error is outside the model: a call that fails writes nothing.
- Webhook replies whose `message`, `description` or `title` is a truthy non-string value are not modelled; each is taken as a string or absent. A `null` entry in the reply's `tasks` array is not modelled either (it throws in the middle of the loop).
- CreateTaskRoute.ParseCreateTaskBody: a truthy email that is not a string is modelled as a failed insert (500 "Failed to create task"). What the store does with such a value is not part of this model.
- `getUserFromStorage` returning null for an entry that is not valid JSON is left out, since the entry is only ever written by `saveUserToStorage`.
- The dashboard page, `Button`, and the `GET /api/users/[phone]` route are not part of this model.
