/** The row shapes of the two tables of the backing store, the local session
    record, and the normalisation every task write applies to its input. */
module Rows {
  import opened Common
  import opened Text

  /** A row of `tasks`. `createdAt` is the server's creation timestamp, kept
      as an integer so that "newest first" is an order on it. */
  datatype Task = Task(
    id: string,
    userEmail: string,
    title: string,
    description: Option<string>,
    isDone: bool,
    createdAt: int)

  /** A row of `users`. The `phone` column holds whatever the users endpoint
      stored: `null`, a string, or another JSON value. */
  datatype UserRow = UserRow(id: string, name: string, email: string, phone: Json, createdAt: int)

  /** The identity kept in the browser's local storage. */
  datatype StoredUser = StoredUser(id: string, name: string, email: string)

  /** The columns a client supplies when it inserts a task; the store adds
      the id, `is_done = false` and the timestamp. */
  datatype TaskPayload = TaskPayload(userEmail: string, title: string, description: Option<string>)

  /** The partial updates the item view sends for one task id. */
  datatype TaskPatch =
    | SetDone(done: bool)
    | SetText(title: string, text: Option<string>)
    | SetDescription(newDescription: Option<string>)

  /** `description.trim() || null`: the trimmed text, or `null` when that is
      empty, so that no write ever stores an empty description. */
  function NormalizeDescription(s: string): (r: Option<string>)
    ensures r != Some("")
    ensures r.None? <==> AllSpace(s)
    ensures r.Some? ==> r.value == Trim(s) && !IsSpace(r.value[0]) && !IsSpace(r.value[|r.value| - 1])
  {
    BlankIffAllSpace(s);
    if Trim(s) == "" then None else Some(Trim(s))
  }

  /** The row a form submission inserts: the owner's email, the trimmed title
      and the normalised description. */
  function NewTaskPayload(userEmail: string, title: string, description: string): (p: TaskPayload)
    requires !Blank(title)
    ensures p.userEmail == userEmail && p.description == NormalizeDescription(description)
    ensures p.title != "" && !IsSpace(p.title[0]) && !IsSpace(p.title[|p.title| - 1])
    ensures p.title == Trim(title)
  {
    TaskPayload(userEmail, Trim(title), NormalizeDescription(description))
  }

  /** The row the store creates for an insert. */
  function NewTaskRow(p: TaskPayload, id: string, now: int): (t: Task)
    // the payload's columns are kept; the store adds the id and the
    // creation time, and a new task is never done
    ensures t.userEmail == p.userEmail && t.title == p.title && t.description == p.description
    ensures t.id == id && t.createdAt == now && !t.isDone
  {
    Task(id, p.userEmail, p.title, p.description, false, now)
  }

  /** A task after an update: only the columns the patch names change. */
  function Patched(t: Task, p: TaskPatch): (u: Task)
    ensures u.id == t.id && u.userEmail == t.userEmail && u.createdAt == t.createdAt
    ensures !p.SetDone? ==> u.isDone == t.isDone
    ensures !p.SetText? ==> u.title == t.title
    ensures p.SetDone? ==> u.description == t.description
    // the named columns take the patch's values
    ensures p.SetDone? ==> u.isDone == p.done
    ensures p.SetText? ==> u.title == p.title && u.description == p.text
    ensures p.SetDescription? ==> u.description == p.newDescription
  {
    match p
    case SetDone(d) => t.(isDone := d)
    case SetText(title, text) => t.(title := title, description := text)
    case SetDescription(text) => t.(description := text)
  }

  /** The session record mirrors a user row. */
  function SessionOf(u: UserRow): (s: StoredUser)
  {
    StoredUser(u.id, u.name, u.email)
  }
}
