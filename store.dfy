/** The backing store, seen only through the row operations the components
    issue: the `tasks` table keyed by id and the `users` table keyed by its
    unique email. Whether a remote call succeeds is the caller's parameter
    `ok`; a failed call changes nothing. */
module Store {
  import opened Common
  import opened Rows

  /** The rows of `table` owned by `email`. */
  function OwnerRows(table: map<string, Task>, email: string): (rows: set<Task>)
  {
    set t | t in table.Values && t.userEmail == email
  }

  /** Newest first: creation timestamps never increase along the list. */
  predicate NewestFirst(rows: seq<Task>) {
    forall i, j :: 0 <= i < j < |rows| ==> rows[i].createdAt >= rows[j].createdAt
  }

  /** What `select('*').eq('user_email', email).order('created_at',
      { ascending: false })` answers: every row of that owner exactly once,
      and no other row, newest first. */
  ghost predicate IsOwnerListing(table: map<string, Task>, email: string, rows: seq<Task>) {
    && multiset(rows) == multiset(OwnerRows(table, email))
    && NewestFirst(rows)
  }

  /** Puts `t` into a newest-first list in front of the first row that is
      not newer than it. */
  function InsertNewestFirst(rows: seq<Task>, t: Task): (r: seq<Task>)
    ensures multiset(r) == multiset(rows) + multiset{t}
  {
    if rows == [] || t.createdAt >= rows[0].createdAt then [t] + rows
    else
      assert rows == [rows[0]] + rows[1..];
      [rows[0]] + InsertNewestFirst(rows[1..], t)
  }

  /** Inserting keeps a list newest first. */
  lemma {:induction false} InsertKeepsNewestFirst(rows: seq<Task>, t: Task)
    requires NewestFirst(rows)
    ensures NewestFirst(InsertNewestFirst(rows, t))
  {
    if rows != [] && t.createdAt < rows[0].createdAt {
      var tail := InsertNewestFirst(rows[1..], t);
      InsertKeepsNewestFirst(rows[1..], t);
      InsertedAreFrom(rows[1..], t, tail);
      var r := [rows[0]] + tail;
      forall i, j | 0 <= i < j < |r| ensures r[i].createdAt >= r[j].createdAt {
        if i == 0 {
          assert r[j] == tail[j - 1];
          assert r[j] in tail;
        } else {
          assert r[i] == tail[i - 1] && r[j] == tail[j - 1];
        }
      }
    }
  }

  /** Every element of an insertion result is `t` or came from `rows`. */
  lemma InsertedAreFrom(rows: seq<Task>, t: Task, r: seq<Task>)
    requires multiset(r) == multiset(rows) + multiset{t}
    ensures forall x :: x in r ==> x in rows || x == t
  {
    forall x | x in r ensures x in rows || x == t {
      assert x in multiset(r);
    }
  }

  /** A listing holds exactly the owner's rows, each a row of the table. */
  lemma ListingMembers(table: map<string, Task>, email: string, rows: seq<Task>, t: Task)
    requires IsOwnerListing(table, email, rows)
    ensures t in rows <==> t in table.Values && t.userEmail == email
  {
    assert t in rows <==> t in multiset(rows);
    assert t in OwnerRows(table, email) <==> t in multiset(OwnerRows(table, email));
  }

  class Database {
    var tasks: map<string, Task>
    var users: map<string, UserRow>

    /** Every row is stored under its own key. */
    ghost predicate Valid()
      reads this
    {
      && (forall id :: id in tasks ==> tasks[id].id == id)
      && (forall e :: e in users ==> users[e].email == e)
    }

    constructor ()
      ensures Valid() && tasks == map[] && users == map[]
    {
      tasks := map[];
      users := map[];
    }

    /** `insert([payload])`: on success a new row with a fresh id, not done,
        stamped `now`. */
    method InsertTask(p: TaskPayload, id: string, now: int, ok: bool) returns (row: Option<Task>)
      requires Valid() && id !in tasks
      modifies this
      ensures Valid() && users == old(users)
      ensures row == (if ok then Some(NewTaskRow(p, id, now)) else None)
      ensures tasks == if ok then old(tasks)[id := NewTaskRow(p, id, now)] else old(tasks)
    {
      if ok {
        row := Some(NewTaskRow(p, id, now));
        tasks := tasks[id := row.value];
      } else {
        row := None;
      }
    }

    /** `update(patch).eq('id', id)`: changes that one row if it exists; an
        id that matches no row is not an error. */
    method UpdateTask(id: string, p: TaskPatch, ok: bool)
      requires Valid()
      modifies this
      ensures Valid() && users == old(users)
      ensures tasks == if ok && id in old(tasks) then old(tasks)[id := Patched(old(tasks)[id], p)] else old(tasks)
    {
      if ok && id in tasks {
        tasks := tasks[id := Patched(tasks[id], p)];
      }
    }

    /** `delete().eq('id', id)`. */
    method DeleteTask(id: string, ok: bool)
      requires Valid()
      modifies this
      ensures Valid() && users == old(users)
      ensures tasks == if ok then old(tasks) - {id} else old(tasks)
    {
      if ok {
        tasks := tasks - {id};
      }
    }

    /** The owner's tasks, newest first, built by inserting the owner's rows
        one at a time into a newest-first list. */
    method SelectByOwner(email: string) returns (rows: seq<Task>)
      ensures IsOwnerListing(tasks, email, rows)
    {
      var all := OwnerRows(tasks, email);
      var pending := all;
      rows := [];
      while pending != {}
        invariant pending <= all
        invariant multiset(rows) + multiset(pending) == multiset(all)
        invariant NewestFirst(rows)
        decreases pending
      {
        var t :| t in pending;
        InsertKeepsNewestFirst(rows, t);
        rows := InsertNewestFirst(rows, t);
        assert multiset(pending) == multiset(pending - {t}) + multiset{t};
        pending := pending - {t};
      }
    }

    /** `select('*').eq('email', email)`, when the lookup itself succeeds. */
    function UserByEmail(email: string): (u: Option<UserRow>)
      reads this
      requires Valid()
      ensures u.Some? <==> email in users
      ensures u.Some? ==> u.value.email == email
    {
      if email in users then Some(users[email]) else None
    }

    /** `update({name}).eq('email', email).select().single()`: the updated
        row, or an error when the call fails or no row has that email. */
    method UpdateUserName(email: string, name: string, ok: bool) returns (updated: Option<UserRow>)
      requires Valid()
      modifies this
      ensures Valid() && tasks == old(tasks)
      ensures updated.Some? <==> ok && email in old(users)
      ensures updated.Some? ==> updated.value == old(users)[email].(name := name)
      ensures users == if updated.Some? then old(users)[email := updated.value] else old(users)
    {
      if ok && email in users {
        updated := Some(users[email].(name := name));
        users := users[email := updated.value];
      } else {
        updated := None;
      }
    }

    /** `update({phone}).eq('email', email).select().single()`. */
    method UpdateUserPhone(email: string, phone: Json, ok: bool) returns (updated: Option<UserRow>)
      requires Valid()
      modifies this
      ensures Valid() && tasks == old(tasks)
      ensures updated.Some? <==> ok && email in old(users)
      ensures updated.Some? ==> updated.value == old(users)[email].(phone := phone)
      ensures users == if updated.Some? then old(users)[email := updated.value] else old(users)
    {
      if ok && email in users {
        updated := Some(users[email].(phone := phone));
        users := users[email := updated.value];
      } else {
        updated := None;
      }
    }

    /** `insert([{...}]).select().single()`: fails when the call fails or
        the email is already taken (the column is unique). */
    method InsertUser(id: string, name: string, email: string, phone: Json, now: int, ok: bool)
      returns (inserted: Option<UserRow>)
      requires Valid()
      modifies this
      ensures Valid() && tasks == old(tasks)
      ensures inserted.Some? <==> ok && email !in old(users)
      ensures inserted.Some? ==> inserted.value == UserRow(id, name, email, phone, now)
      ensures users == if inserted.Some? then old(users)[email := inserted.value] else old(users)
    {
      if ok && email !in users {
        inserted := Some(UserRow(id, name, email, phone, now));
        users := users[email := inserted.value];
      } else {
        inserted := None;
      }
    }
  }
}
