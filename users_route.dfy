/** `POST /api/users`: registers a user by email, or sets the phone of a
    user already registered; the name of an existing user is never changed. */
module UsersRoute {
  import opened Common
  import opened Text
  import opened Rows
  import opened Store

  const FieldsRequired := "Email and name are required"
  const UnchangedMessage := "User exists; no phone provided, user unchanged"
  const PhoneUpdatedMessage := "User phone updated successfully"
  const CreatedMessage := "User created successfully"

  /** The body's three fields. */
  datatype UsersFields = UsersFields(email: Json, name: Json, phone: Json)

  /** The normalised input: trimmed email and name, and the phone to store
      (a string trimmed, a missing one `null`, anything else as sent);
      `phoneGiven` is whether the body had a `phone` key at all. */
  datatype UsersInput = UsersInput(email: string, name: string, phone: Json, phoneGiven: bool)

  datatype UsersReply = ErrorReply(error: string) | UserReply(message: string, user: UserRow)

  datatype UsersResponse = UsersResponse(status: int, body: UsersReply)

  /** `v?.trim()` on a field: None when it throws (`trim` is called on a
      value that is not a string), Some("") when it yields `undefined`,
      which is as falsy as an empty string. */
  function TrimField(v: Json): (r: Option<string>)
    ensures r.None? <==> v.Other?
    ensures v.Str? ==> r == Some(Trim(v.s))
    ensures r == Some("") <==> v.Undefined? || v.Null? || (v.Str? && Blank(v.s))
  {
    match v
    case Undefined => Some("")
    case Null => Some("")
    case Str(s) => Some(Trim(s))
    case Other(_) => None
  }

  /** `typeof phone === 'string' ? phone.trim() : phone ?? null`. */
  function NormalizePhone(v: Json): (r: Json)
    ensures r != Undefined
    ensures r.Str? <==> v.Str?
    ensures r.Str? ==> r.s == Trim(v.s)
    ensures v.Other? ==> r == v
    ensures v.Undefined? || v.Null? ==> r == Null
  {
    match v
    case Str(s) => Str(Trim(s))
    case Undefined => Null
    case Null => Null
    case Other(_) => v
  }

  /** The start of the handler: parse, normalise, and require both email and name. */
  function ParseUsersBody(body: Body<UsersFields>): (r: Parsed<UsersInput>)
    ensures r.Rejected? ==> (r.status == 500 && r.error == InternalError) || (r.status == 400 && r.error == FieldsRequired)
    // a body that is not JSON, or an email or name that is neither a string nor absent, is a server error
    ensures r == Rejected(500, InternalError) <==>
      body.NotJson? || (body.JsonValue? && (body.fields.email.Other? || body.fields.name.Other?))
    // otherwise both must be strings that are not blank
    ensures r.Accepted? <==>
      && body.JsonValue? && body.fields.email.Str? && body.fields.name.Str?
      && !Blank(body.fields.email.s) && !Blank(body.fields.name.s)
    ensures r.Accepted? ==>
      && r.input.email == Trim(body.fields.email.s) && r.input.name == Trim(body.fields.name.s)
      && r.input.email != "" && r.input.name != ""
      && r.input.phone == NormalizePhone(body.fields.phone)
      && (r.input.phoneGiven <==> body.fields.phone != Undefined)
  {
    match body
    case NotJson => Rejected(500, InternalError)
    case JsonNull => Rejected(400, FieldsRequired)
    case JsonValue(f) =>
      var email := TrimField(f.email);
      var name := TrimField(f.name);
      if email.None? || name.None? then Rejected(500, InternalError)
      else if email.value == "" || name.value == "" then Rejected(400, FieldsRequired)
      else Accepted(UsersInput(email.value, name.value, NormalizePhone(f.phone), f.phone != Undefined))
  }

  /** The `users` table after a post with `input` that succeeds: a new
      email gets a row with the name and phone; a known one keeps its row
      and takes the phone only when the body had one. */
  function UsersAfterPost(users: map<string, UserRow>, input: UsersInput, id: string, now: int)
    : (r: map<string, UserRow>)
    ensures r.Keys == users.Keys + {input.email}
    ensures forall e :: e in users && e != input.email ==> r[e] == users[e]
    // the route never renames, re-keys or re-dates a registered user
    ensures forall e :: e in users ==>
      r[e].name == users[e].name && r[e].id == users[e].id && r[e].email == users[e].email && r[e].createdAt == users[e].createdAt
    ensures input.email in users && !input.phoneGiven ==> r == users
    ensures input.email in users && input.phoneGiven ==> r[input.email].phone == input.phone
    ensures input.email !in users ==> r[input.email] == UserRow(id, input.name, input.email, input.phone, now)
  {
    if input.email in users then
      if input.phoneGiven then users[input.email := users[input.email].(phone := input.phone)] else users
    else users[input.email := UserRow(id, input.name, input.email, input.phone, now)]
  }

  /** Posting the same input twice leaves the table as posting it once. */
  lemma {:induction false} PostIdempotent(users: map<string, UserRow>, input: UsersInput, id: string, now: int, id2: string, now2: int)
    ensures UsersAfterPost(UsersAfterPost(users, input, id, now), input, id2, now2) == UsersAfterPost(users, input, id, now)
  {
    var once := UsersAfterPost(users, input, id, now);
    if input.phoneGiven {
      assert once[input.email].(phone := input.phone) == once[input.email];
    }
  }

  /** Whether every store call the route makes for `input` succeeds. */
  predicate PostSucceeds(users: map<string, UserRow>, input: UsersInput, lookupOk: bool, writeOk: bool) {
    lookupOk && ((input.email in users && !input.phoneGiven) || writeOk)
  }

  /** `POST`. A rejected body is answered at once. The lookup by email
      failing is a 500. A known email without a phone key is answered 200
      with the row unchanged; with one, the phone is updated (200). An
      unknown email is inserted (201). A failed write is a 500 and leaves
      the table as it was. `lookupOk` and `writeOk` are the outcomes of the
      two store calls; `id` and `now` are the store's choices. */
  method Post(db: Database, body: Body<UsersFields>, lookupOk: bool, writeOk: bool, id: string, now: int)
    returns (res: UsersResponse)
    requires db.Valid()
    modifies db
    ensures db.Valid() && db.tasks == old(db.tasks)
    ensures ParseUsersBody(body).Rejected? ==>
      res == UsersResponse(ParseUsersBody(body).status, ErrorReply(ParseUsersBody(body).error)) && db.users == old(db.users)
    ensures ParseUsersBody(body).Accepted? ==>
      var input := ParseUsersBody(body).input;
      && (PostSucceeds(old(db.users), input, lookupOk, writeOk) ==>
          && db.users == UsersAfterPost(old(db.users), input, id, now)
          && res.body == UserReply(
               if input.email !in old(db.users) then CreatedMessage
               else if input.phoneGiven then PhoneUpdatedMessage else UnchangedMessage,
               db.users[input.email])
          && res.status == if input.email in old(db.users) then 200 else 201)
      && (!PostSucceeds(old(db.users), input, lookupOk, writeOk) ==>
          res == UsersResponse(500, ErrorReply(InternalError)) && db.users == old(db.users))
  {
    var parsed := ParseUsersBody(body);
    if parsed.Rejected? {
      return UsersResponse(parsed.status, ErrorReply(parsed.error));
    }
    var input := parsed.input;
    if !lookupOk {
      return UsersResponse(500, ErrorReply(InternalError));
    }
    var existing := db.UserByEmail(input.email);
    if existing.Some? {
      if !input.phoneGiven {
        return UsersResponse(200, UserReply(UnchangedMessage, existing.value));
      }
      var updated := db.UpdateUserPhone(input.email, input.phone, writeOk);
      if updated.None? {
        return UsersResponse(500, ErrorReply(InternalError));
      }
      return UsersResponse(200, UserReply(PhoneUpdatedMessage, updated.value));
    }
    var inserted := db.InsertUser(id, input.name, input.email, input.phone, now, writeOk);
    if inserted.None? {
      return UsersResponse(500, ErrorReply(InternalError));
    }
    res := UsersResponse(201, UserReply(CreatedMessage, inserted.value));
  }
}
