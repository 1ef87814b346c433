/** The dashboard's task list: a client-side cache of the owner's tasks that
    is replaced wholesale by each fetch and trimmed optimistically on delete. */
module TaskListView {
  import opened Rows
  import opened Store

  /** How one fetch of the list ends: rows returned, no error but no data,
      or an error (the cache is then left as it was). */
  datatype FetchOutcome = Fetched | FetchedNoData | FetchFailed

  /** `tasks.filter((task) => task.id !== taskId)`. */
  function WithoutTask(tasks: seq<Task>, id: string): (r: seq<Task>)
    ensures |r| <= |tasks|
    ensures forall t :: t in r <==> t in tasks && t.id != id
  {
    if tasks == [] then []
    else (if tasks[0].id == id then [] else [tasks[0]]) + WithoutTask(tasks[1..], id)
  }

  /** Each task with another id is kept as often as it occurs; none with
      that id is kept. */
  lemma {:induction false} WithoutTaskCount(tasks: seq<Task>, id: string, t: Task)
    ensures multiset(WithoutTask(tasks, id))[t] == if t.id == id then 0 else multiset(tasks)[t]
  {
    if tasks != [] {
      WithoutTaskCount(tasks[1..], id, t);
      assert tasks == [tasks[0]] + tasks[1..];
    }
  }

  /** The filter works piecewise, so the kept tasks stay in their order. */
  lemma {:induction false} WithoutTaskConcat(a: seq<Task>, b: seq<Task>, id: string)
    ensures WithoutTask(a + b, id) == WithoutTask(a, id) + WithoutTask(b, id)
  {
    if a == [] {
      assert a + b == b;
    } else {
      assert (a + b)[0] == a[0] && (a + b)[1..] == a[1..] + b;
      WithoutTaskConcat(a[1..], b, id);
      var head := if a[0].id == id then [] else [a[0]];
      assert WithoutTask(a + b, id) == head + (WithoutTask(a[1..], id) + WithoutTask(b, id));
    }
  }

  /** Removing tasks from a newest-first list leaves it newest first. */
  lemma {:induction false} WithoutTaskKeepsNewestFirst(tasks: seq<Task>, id: string)
    requires NewestFirst(tasks)
    ensures NewestFirst(WithoutTask(tasks, id))
  {
    if tasks != [] {
      var tail := WithoutTask(tasks[1..], id);
      WithoutTaskKeepsNewestFirst(tasks[1..], id);
      if tasks[0].id != id {
        var r := [tasks[0]] + tail;
        forall i, j | 0 <= i < j < |r| ensures r[i].createdAt >= r[j].createdAt {
          if i == 0 {
            assert r[j] == tail[j - 1];
          } else {
            assert r[i] == tail[i - 1] && r[j] == tail[j - 1];
          }
        }
      }
    }
  }

  /** The optimistic delete agrees with the store: if the cache was the
      owner's listing and the remote delete succeeds, the filtered cache is
      the owner's listing of the new table. */
  lemma DeleteKeepsListing(table: map<string, Task>, email: string, rows: seq<Task>, id: string)
    requires forall k :: k in table ==> table[k].id == k
    requires IsOwnerListing(table, email, rows)
    ensures IsOwnerListing(table - {id}, email, WithoutTask(rows, id))
  {
    WithoutTaskKeepsNewestFirst(rows, id);
    var after := OwnerRows(table - {id}, email);
    forall t ensures multiset(WithoutTask(rows, id))[t] == multiset(after)[t] {
      WithoutTaskCount(rows, id, t);
      assert t in after <==> t in OwnerRows(table, email) && t.id != id by {
        if t in after {
          var k :| k in table - {id} && (table - {id})[k] == t;
        }
        if t in OwnerRows(table, email) && t.id != id {
          var k :| k in table && table[k] == t;
          assert k in table - {id};
        }
      }
    }
    assert multiset(WithoutTask(rows, id)) == multiset(after);
  }

  class TaskList {
    const db: Database
    const userEmail: string
    var tasks: seq<Task>
    var isLoading: bool
    var showAddForm: bool

    /** The cache after a fetch that ended with `outcome`, when it held
        `before` until then: the owner's listing, empty, or untouched. */
    ghost predicate Refreshed(outcome: FetchOutcome, before: seq<Task>)
      reads this, db
    {
      match outcome
      case Fetched => IsOwnerListing(db.tasks, userEmail, tasks)
      case FetchedNoData => tasks == []
      case FetchFailed => tasks == before
    }

    /** A freshly mounted list: empty, loading, form hidden. */
    constructor (db: Database, userEmail: string)
      ensures this.db == db && this.userEmail == userEmail
      ensures tasks == [] && isLoading && !showAddForm
    {
      this.db := db;
      this.userEmail := userEmail;
      tasks := [];
      isLoading := true;
      showAddForm := false;
    }

    /** `fetchTasks`: a successful fetch replaces the cache with the owner's
        rows newest first (or with `[]` when no data came back); a failed one
        leaves the cache alone. Loading is over either way. */
    method FetchTasks(outcome: FetchOutcome)
      modifies this
      ensures !isLoading && showAddForm == old(showAddForm)
      ensures Refreshed(outcome, old(tasks))
    {
      match outcome {
        case Fetched =>
          tasks := db.SelectByOwner(userEmail);
        case FetchedNoData =>
          tasks := [];
        case FetchFailed =>
      }
      isLoading := false;
    }

    /** `handleTaskAdded`: hide the form, then refetch. */
    method HandleTaskAdded(outcome: FetchOutcome)
      modifies this
      ensures !isLoading && !showAddForm
      ensures Refreshed(outcome, old(tasks))
    {
      showAddForm := false;
      FetchTasks(outcome);
    }

    /** `handleTaskUpdate`: only refetch. */
    method HandleTaskUpdate(outcome: FetchOutcome)
      modifies this
      ensures !isLoading && showAddForm == old(showAddForm)
      ensures Refreshed(outcome, old(tasks))
    {
      FetchTasks(outcome);
    }

    /** `handleTaskDelete`: the optimistic removal of every task with that
        id. A cache that was the owner's listing becomes the listing the
        store will hold once that id is deleted. */
    method HandleTaskDelete(id: string)
      requires db.Valid()
      modifies this
      ensures tasks == WithoutTask(old(tasks), id)
      ensures old(IsOwnerListing(db.tasks, userEmail, tasks)) ==> IsOwnerListing(db.tasks - {id}, userEmail, tasks)
      ensures isLoading == old(isLoading) && showAddForm == old(showAddForm)
    {
      if IsOwnerListing(db.tasks, userEmail, tasks) {
        DeleteKeepsListing(db.tasks, userEmail, tasks, id);
      }
      tasks := WithoutTask(tasks, id);
    }

    /** The "+ Add Task" button. */
    method OpenAddForm()
      modifies this
      ensures showAddForm && tasks == old(tasks) && isLoading == old(isLoading)
    {
      showAddForm := true;
    }

    /** The form's `onCancel`. */
    method CloseAddForm()
      modifies this
      ensures !showAddForm && tasks == old(tasks) && isLoading == old(isLoading)
    {
      showAddForm := false;
    }
  }
}
