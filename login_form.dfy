/** The browser's `localStorage` entry that holds the signed-in user. */
module SessionStore {
  import opened Common
  import opened Rows

  class LocalStorage {
    /** False while rendering on the server, where `window` is undefined
        and every helper does nothing. */
    const inBrowser: bool
    /** The `user` entry. */
    var user: Option<StoredUser>

    constructor (inBrowser: bool)
      ensures this.inBrowser == inBrowser && user == None
    {
      this.inBrowser := inBrowser;
      user := None;
    }

    /** `getUserFromStorage`. */
    function Get(): (r: Option<StoredUser>)
      reads this
      ensures !inBrowser ==> r == None
      ensures inBrowser ==> r == user
    {
      if inBrowser then user else None
    }

    /** `saveUserToStorage`: in the browser, a later read returns `u`. */
    method Save(u: StoredUser)
      modifies this
      ensures inBrowser ==> user == Some(u) && Get() == Some(u)
      ensures !inBrowser ==> user == old(user)
    {
      if inBrowser {
        user := Some(u);
      }
    }

    /** `removeUserFromStorage`: afterwards no user is read back. */
    method Remove()
      modifies this
      ensures Get() == None
      ensures !inBrowser ==> user == old(user)
    {
      if inBrowser {
        user := None;
      }
    }
  }
}

/** The sign-in form: validation of the two inputs, then find-or-create of
    the user row by email, then the session record. */
module LoginFormView {
  import opened Common
  import opened Text
  import opened Rows
  import opened Store
  import opened SessionStore

  const NameRequired := "Name is required"
  const EmailRequired := "Email is required"
  const InvalidEmail := "Invalid email"
  const LoginFailed := "Error processing login. Please try again."
  const DashboardPath := "/dashboard"

  /** A character of the class `[^\s@]`. */
  predicate PlainChar(c: char) {
    !IsSpace(c) && c != '@'
  }

  predicate AllPlain(s: string) {
    forall k :: 0 <= k < |s| ==> PlainChar(s[k])
  }

  /** `/^[^\s@]+@[^\s@]+\.[^\s@]+$/.test(s)`: `s` splits as A@B.C with A,
      B and C non-empty runs of characters that are neither white space nor
      '@'. */
  predicate MatchesEmailPattern(s: string)
    ensures MatchesEmailPattern(s) ==> 5 <= |s| && '@' in s && '.' in s
  {
    exists i, j ::
      && 0 < i && i + 1 < j && j + 1 < |s|
      && s[i] == '@' && s[j] == '.'
      && AllPlain(s[..i]) && AllPlain(s[i + 1..j]) && AllPlain(s[j + 1..])
  }

  /** The index of the first '@', if any. */
  function FirstAt(s: string): (r: Option<nat>)
    ensures r.Some? ==> r.value < |s| && s[r.value] == '@'
    ensures r.Some? ==> forall k :: 0 <= k < r.value ==> s[k] != '@'
    ensures r.None? ==> forall k :: 0 <= k < |s| ==> s[k] != '@'
  {
    if s == [] then None
    else if s[0] == '@' then Some(0)
    else
      var rest := FirstAt(s[1..]);
      if rest.None? then None else Some(rest.value + 1)
  }

  predicate NoSpace(s: string) {
    forall k :: 0 <= k < |s| ==> !IsSpace(s[k])
  }

  /** A '.' that is neither the first nor the last character. */
  predicate HasInnerDot(d: string) {
    exists j :: 0 < j < |d| - 1 && d[j] == '.'
  }

  /** What the pattern accepts, said another way: no white space at all,
      exactly one '@' and not in front, and a '.' strictly inside the part
      after the '@'. */
  predicate EmailShape(s: string) {
    && NoSpace(s)
    && FirstAt(s).Some?
    && FirstAt(s).value > 0
    && (forall k :: FirstAt(s).value < k < |s| ==> s[k] != '@')
    && HasInnerDot(s[FirstAt(s).value + 1..])
  }

  /** Every string the pattern accepts has that shape. */
  lemma PatternGivesShape(s: string)
    requires MatchesEmailPattern(s)
    ensures EmailShape(s)
  {
    var i, j :| && 0 < i && i + 1 < j && j + 1 < |s|
                && s[i] == '@' && s[j] == '.'
                && AllPlain(s[..i]) && AllPlain(s[i + 1..j]) && AllPlain(s[j + 1..]);
    var a, b, c := s[..i], s[i + 1..j], s[j + 1..];
    forall k | 0 <= k < |s| ensures !IsSpace(s[k]) && (k != i ==> s[k] != '@') {
      if k < i {
        assert s[k] == a[k];
      } else if i < k < j {
        assert s[k] == b[k - i - 1];
      } else if j < k {
        assert s[k] == c[k - j - 1];
      }
    }
    assert FirstAt(s) == Some(i);
    var d := s[i + 1..];
    assert d[j - i - 1] == '.';
  }

  /** Every string of that shape is accepted by the pattern. */
  lemma ShapeGivesPattern(s: string)
    requires EmailShape(s)
    ensures MatchesEmailPattern(s)
  {
    var i := FirstAt(s).value;
    var d := s[i + 1..];
    var jd :| 0 < jd < |d| - 1 && d[jd] == '.';
    var j := i + 1 + jd;
    assert s[j] == '.';
    var a, b, c := s[..i], s[i + 1..j], s[j + 1..];
    forall k | 0 <= k < |a| ensures PlainChar(a[k]) {
      assert a[k] == s[k];
    }
    forall k | 0 <= k < |b| ensures PlainChar(b[k]) {
      assert b[k] == s[i + 1 + k];
    }
    forall k | 0 <= k < |c| ensures PlainChar(c[k]) {
      assert c[k] == s[j + 1 + k];
    }
  }

  /** The pattern and the description above accept the same strings. */
  lemma EmailPatternIffShape(s: string)
    ensures MatchesEmailPattern(s) <==> EmailShape(s)
  {
    if MatchesEmailPattern(s) {
      PatternGivesShape(s);
    }
    if EmailShape(s) {
      ShapeGivesPattern(s);
    }
  }

  /** An address the pattern accepts is not blank. */
  lemma PatternNotBlank(s: string)
    ensures MatchesEmailPattern(s) ==> !Blank(s)
  {
    BlankIffAllSpace(s);
    if MatchesEmailPattern(s) {
      var i, j :| && 0 < i && i + 1 < j && j + 1 < |s|
                  && s[i] == '@' && s[j] == '.'
                  && AllPlain(s[..i]) && AllPlain(s[i + 1..j]) && AllPlain(s[j + 1..]);
      assert s[..i][0] == s[0];
    }
  }

  /** The per-field messages under the inputs; None is no message. */
  datatype FormErrors = FormErrors(name: Option<string>, email: Option<string>)

  predicate NoErrors(e: FormErrors) {
    e.name.None? && e.email.None?
  }

  /** `validateForm`: the name must not be blank; the email must not be
      blank and, when it is not, must match the pattern as typed (not
      trimmed). */
  function ValidateForm(name: string, email: string): (e: FormErrors)
    ensures e.name.None? <==> !Blank(name)
    ensures e.email.None? <==> MatchesEmailPattern(email)
    ensures e.email == Some(EmailRequired) <==> Blank(email)
  {
    PatternNotBlank(email);
    FormErrors(
      if Blank(name) then Some(NameRequired) else None,
      if Blank(email) then Some(EmailRequired)
      else if !MatchesEmailPattern(email) then Some(InvalidEmail)
      else None)
  }

  /** The form goes on to the store exactly when the name is not blank and
      the email has the shape described by `EmailShape`. */
  lemma FormAccepted(name: string, email: string)
    ensures NoErrors(ValidateForm(name, email)) <==> !Blank(name) && EmailShape(email)
  {
    EmailPatternIffShape(email);
  }

  /** An address with white space around it is refused, since the pattern
      is tested on the untrimmed input. */
  lemma PaddedEmailRefused(email: string)
    requires |email| > 0 && IsSpace(email[0])
    ensures ValidateForm("a", email).email.Some?
  {
    if MatchesEmailPattern(email) {
      EmailPatternIffShape(email);
    }
  }

  /** The `users` table after a successful sign-in: an existing row keeps
      its id, phone and creation time and takes the typed name; an unknown
      email gets a new row with no phone. */
  function UsersAfterLogin(users: map<string, UserRow>, name: string, email: string, id: string, now: int)
    : (r: map<string, UserRow>)
    ensures r.Keys == users.Keys + {email}
    ensures forall e :: e in users && e != email ==> r[e] == users[e]
    ensures r[email].name == name
    ensures email in users ==>
      r[email].id == users[email].id && r[email].email == users[email].email
      && r[email].phone == users[email].phone && r[email].createdAt == users[email].createdAt
    ensures email !in users ==> r[email] == UserRow(id, name, email, Null, now)
  {
    if email in users then users[email := users[email].(name := name)]
    else users[email := UserRow(id, name, email, Null, now)]
  }

  /** Signing in again with the same name and email changes nothing more. */
  lemma LoginIdempotent(users: map<string, UserRow>, name: string, email: string, id: string, now: int, id2: string, now2: int)
    ensures UsersAfterLogin(UsersAfterLogin(users, name, email, id, now), name, email, id2, now2)
         == UsersAfterLogin(users, name, email, id, now)
  {
    var once := UsersAfterLogin(users, name, email, id, now);
    assert once[email].(name := name) == once[email];
  }

  /** Whether the store calls of a sign-in all succeed. A failed lookup is
      not reported: it reads as "no such user", so the insert is tried and
      fails when the email is in fact taken. A known user whose name is
      unchanged needs no write. */
  predicate LoginSucceeds(users: map<string, UserRow>, name: string, email: string, lookupOk: bool, writeOk: bool) {
    if lookupOk && email in users then users[email].name == name || writeOk
    else writeOk && email !in users
  }

  class LoginForm {
    const db: Database
    const storage: LocalStorage
    var name: string
    var email: string
    var errors: FormErrors
    var isLoading: bool
    /** Where the router was sent, if anywhere. */
    var navigatedTo: Option<string>

    constructor (db: Database, storage: LocalStorage)
      ensures this.db == db && this.storage == storage
      ensures name == "" && email == "" && errors == FormErrors(None, None)
      ensures !isLoading && navigatedTo == None
    {
      this.db := db;
      this.storage := storage;
      name := "";
      email := "";
      errors := FormErrors(None, None);
      isLoading := false;
      navigatedTo := None;
    }

    method SetName(s: string)
      modifies this
      ensures name == s && email == old(email) && errors == old(errors)
      ensures isLoading == old(isLoading) && navigatedTo == old(navigatedTo)
    {
      name := s;
    }

    method SetEmail(s: string)
      modifies this
      ensures email == s && name == old(name) && errors == old(errors)
      ensures isLoading == old(isLoading) && navigatedTo == old(navigatedTo)
    {
      email := s;
    }

    /** `handleSubmit`. Invalid input only shows its messages. Valid input
        is looked up by the email as typed; a known user with another name
        is renamed, an unknown email is inserted with the name as typed; the
        resulting row becomes the session and the router goes to the
        dashboard. Any failed write leaves the store, the session and the
        page as they were and shows the login error. `lookupOk` and
        `writeOk` are the outcomes of the lookup and of the write. */
    method HandleSubmit(lookupOk: bool, writeOk: bool, newId: string, now: int)
      requires db.Valid()
      modifies this, db, storage
      ensures db.Valid() && db.tasks == old(db.tasks)
      ensures name == old(name) && email == old(email)
      ensures !NoErrors(ValidateForm(old(name), old(email))) ==>
        && errors == ValidateForm(old(name), old(email))
        && isLoading == old(isLoading) && navigatedTo == old(navigatedTo)
        && db.users == old(db.users) && storage.user == old(storage.user)
      ensures NoErrors(ValidateForm(old(name), old(email))) ==> !isLoading
      ensures NoErrors(ValidateForm(old(name), old(email))) && LoginSucceeds(old(db.users), name, email, lookupOk, writeOk) ==>
        && db.users == UsersAfterLogin(old(db.users), name, email, newId, now)
        && (storage.inBrowser ==> storage.Get() == Some(SessionOf(db.users[email])))
        && (!storage.inBrowser ==> storage.user == old(storage.user))
        && navigatedTo == Some(DashboardPath) && errors == FormErrors(None, None)
      ensures NoErrors(ValidateForm(old(name), old(email))) && !LoginSucceeds(old(db.users), name, email, lookupOk, writeOk) ==>
        && db.users == old(db.users) && storage.user == old(storage.user)
        && navigatedTo == old(navigatedTo) && errors == FormErrors(None, Some(LoginFailed))
    {
      var checked := ValidateForm(name, email);
      errors := checked;
      if !NoErrors(checked) {
        return;
      }
      isLoading := true;
      var existing := if lookupOk then db.UserByEmail(email) else None;
      var user: Option<UserRow>;
      if existing.Some? {
        if existing.value.name != name {
          user := db.UpdateUserName(email, name, writeOk);
        } else {
          assert db.users == UsersAfterLogin(db.users, name, email, newId, now);
          user := existing;
        }
      } else {
        user := db.InsertUser(newId, name, email, Null, now, writeOk);
      }
      if user.Some? {
        storage.Save(SessionOf(user.value));
        navigatedTo := Some(DashboardPath);
      } else {
        errors := FormErrors(None, Some(LoginFailed));
      }
      isLoading := false;
    }
  }
}
