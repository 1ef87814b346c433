/** The inline form that adds a task to the signed-in user's list. */
module AddTaskFormView {
  import opened Common
  import opened Text
  import opened Rows
  import opened Store
  import opened TaskListView

  const TitleRequired := "Title is required"
  const AddFailed := "Error adding task. Please try again."

  class AddTaskForm {
    /** The list that shows this form; it supplies `userEmail` and its
        `handleTaskAdded` is the form's `onTaskAdded`. */
    const list: TaskList
    var title: string
    var description: string
    var isLoading: bool
    var error: Option<string>

    constructor (list: TaskList)
      ensures this.list == list
      ensures title == "" && description == "" && !isLoading && error == None
    {
      this.list := list;
      title := "";
      description := "";
      isLoading := false;
      error := None;
    }

    /** Typing into the two inputs. */
    method SetTitle(s: string)
      modifies this
      ensures title == s && description == old(description) && error == old(error) && isLoading == old(isLoading)
    {
      title := s;
    }

    method SetDescription(s: string)
      modifies this
      ensures description == s && title == old(title) && error == old(error) && isLoading == old(isLoading)
    {
      description := s;
    }

    /** `handleSubmit`. A blank title is refused before any write. Otherwise
        one row is inserted (owner email, trimmed title, normalised
        description); on success the inputs are cleared and the list's
        `handleTaskAdded` runs once (form hidden, list refetched with
        `refresh`); on failure the inputs stay and an error is shown.
        `ok` is the insert's outcome, `id` and `now` the store's choices. */
    method HandleSubmit(ok: bool, id: string, now: int, refresh: FetchOutcome)
      requires list.db.Valid() && id !in list.db.tasks
      modifies this, list, list.db
      ensures list.db.Valid() && list.db.users == old(list.db.users)
      ensures !Blank(old(title)) ==> !isLoading
      // a blank title: only the error changes
      ensures Blank(old(title)) ==>
        && error == Some(TitleRequired) && isLoading == old(isLoading)
        && title == old(title) && description == old(description)
        && unchanged(list) && unchanged(list.db)
      // the insert succeeded
      ensures !Blank(old(title)) && ok ==>
        && list.db.tasks == old(list.db.tasks)[id := NewTaskRow(NewTaskPayload(list.userEmail, old(title), old(description)), id, now)]
        && title == "" && description == "" && error == None
        && !list.showAddForm && !list.isLoading
        && list.Refreshed(refresh, old(list.tasks))
      // the insert failed
      ensures !Blank(old(title)) && !ok ==>
        && error == Some(AddFailed)
        && title == old(title) && description == old(description)
        && list.db.tasks == old(list.db.tasks) && unchanged(list)
    {
      error := None;
      if Blank(title) {
        error := Some(TitleRequired);
        return;
      }
      isLoading := true;
      var row := list.db.InsertTask(NewTaskPayload(list.userEmail, title, description), id, now, ok);
      if row.Some? {
        title := "";
        description := "";
        list.HandleTaskAdded(refresh);
      } else {
        error := Some(AddFailed);
      }
      isLoading := false;
    }
  }
}
