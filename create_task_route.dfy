/** `POST /api/create-task`: inserts one task for the email in the body. */
module CreateTaskRoute {
  import opened Common
  import opened Text
  import opened Rows
  import opened Store

  const FieldsRequired := "Title and email are required"
  const CreateFailed := "Failed to create task"

  /** The body's three fields. */
  datatype TaskFields = TaskFields(title: Json, description: Json, email: Json)

  datatype CreateReply = ErrorReply(error: string) | Created(task: Task)

  datatype CreateResponse = CreateResponse(status: int, body: CreateReply)

  /** The start of the handler: parse, destructure, require a truthy title and email,
      then build the row with the trimmed title and `description?.trim() ||
      null`. Destructuring `null` and calling `trim` on a value that is not
      a string both throw, which the route answers with a 500. */
  function ParseCreateTaskBody(body: Body<TaskFields>): (r: Parsed<TaskPayload>)
    ensures r.Rejected? ==>
      || (r.status == 400 && r.error == FieldsRequired)
      || (r.status == 500 && (r.error == InternalError || r.error == CreateFailed))
    ensures r == Rejected(400, FieldsRequired) <==>
      body.JsonValue? && !(Truthy(body.fields.title) && Truthy(body.fields.email))
    ensures r.Accepted? <==>
      && body.JsonValue? && body.fields.title.Str? && body.fields.title.s != ""
      && body.fields.email.Str? && body.fields.email.s != "" && !body.fields.description.Other?
    ensures r.Accepted? ==>
      && r.input.userEmail == body.fields.email.s
      && r.input.title == Trim(body.fields.title.s)
      && r.input.description == (if body.fields.description.Str? then NormalizeDescription(body.fields.description.s) else None)
  {
    match body
    case NotJson => Rejected(500, InternalError)
    case JsonNull => Rejected(500, InternalError)
    case JsonValue(f) =>
      if !Truthy(f.title) || !Truthy(f.email) then Rejected(400, FieldsRequired)
      else if !f.title.Str? || f.description.Other? then Rejected(500, InternalError)
      else if !f.email.Str? then Rejected(500, CreateFailed)
      else
        var description := if f.description.Str? then NormalizeDescription(f.description.s) else None;
        Accepted(TaskPayload(f.email.s, Trim(f.title.s), description))
  }

  /** A title of white space only passes the truthiness check and is stored
      as the empty string. */
  lemma WhitespaceTitleStoredEmpty(title: string, email: string, description: Json)
    requires title != "" && AllSpace(title) && email != "" && !description.Other?
    ensures var r := ParseCreateTaskBody(JsonValue(TaskFields(Str(title), description, Str(email))));
      r.Accepted? && r.input.title == ""
  {
    BlankIffAllSpace(title);
  }

  /** For a title that is not blank, the route builds the same row as the
      add-task form does. */
  lemma AgreesWithForm(email: string, title: string, description: string)
    requires email != "" && !Blank(title)
    ensures ParseCreateTaskBody(JsonValue(TaskFields(Str(title), Str(description), Str(email))))
         == Accepted(NewTaskPayload(email, title, description))
  {
  }

  /** The route never stores an empty description. */
  lemma NoEmptyDescription(body: Body<TaskFields>)
    requires ParseCreateTaskBody(body).Accepted?
    ensures ParseCreateTaskBody(body).input.description != Some("")
  {
  }

  /** `POST`. A rejected body is answered at once; otherwise one row is
      inserted and answered 201 with that row, or 500 when the insert fails.
      `ok` is the insert's outcome, `id` and `now` the store's choices. */
  method Post(db: Database, body: Body<TaskFields>, ok: bool, id: string, now: int) returns (res: CreateResponse)
    requires db.Valid() && id !in db.tasks
    modifies db
    ensures db.Valid() && db.users == old(db.users)
    ensures ParseCreateTaskBody(body).Rejected? ==>
      res == CreateResponse(ParseCreateTaskBody(body).status, ErrorReply(ParseCreateTaskBody(body).error))
      && db.tasks == old(db.tasks)
    ensures ParseCreateTaskBody(body).Accepted? && ok ==>
      var row := NewTaskRow(ParseCreateTaskBody(body).input, id, now);
      && res == CreateResponse(201, Created(row)) && !row.isDone
      && db.tasks == old(db.tasks)[id := row]
    ensures ParseCreateTaskBody(body).Accepted? && !ok ==>
      res == CreateResponse(500, ErrorReply(CreateFailed)) && db.tasks == old(db.tasks)
  {
    var parsed := ParseCreateTaskBody(body);
    if parsed.Rejected? {
      return CreateResponse(parsed.status, ErrorReply(parsed.error));
    }
    var row := db.InsertTask(parsed.input, id, now, ok);
    if row.None? {
      return CreateResponse(500, ErrorReply(CreateFailed));
    }
    res := CreateResponse(201, Created(row.value));
  }
}
