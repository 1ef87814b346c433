/** One task of the list: toggling, inline editing, deleting with an
    optimistic removal, and generating a step-by-step description that is
    staged for review before it is saved. */
module TaskItemView {
  import opened Common
  import opened Text
  import opened Rows
  import opened Store
  import opened TaskListView

  datatype ToastKind = Success | Error
  datatype Toast = Toast(message: string, kind: ToastKind)

  const TimedOutText := "Request timed out. Please try again."
  const GenerateFailedText := "Failed to generate steps. Try again."
  const StepsSavedText := "Steps saved successfully!"
  const SaveStepsFailedText := "Failed to save steps. Please try again."

  /** How the call to the step-generation webhook ends. */
  datatype StepsReply =
    | Aborted                                // the 30 s abort fired (AbortError)
    | Failed                                 // a network error, or a body that is not JSON
    | NotOk(status: int)                     // `response.ok` is false
    | Answered(description: Option<string>)  // a JSON body; None when `data` or its `description` is missing

  /** The only thing sent to the webhook is the task's title. */
  datatype StepsRequest = StepsRequest(title: string)

  /** What a generation attempt leads to: a text to stage, or an error toast. */
  datatype Generation = Staged(text: string) | Refused(message: string)

  /** The outcome of `handleGenerateSteps` for a webhook that is or is not
      configured and the reply it gave. */
  function StepsResult(configured: bool, reply: StepsReply): (r: Generation)
    ensures r.Staged? <==> configured && reply.Answered? && TruthyText(reply.description)
    ensures r.Staged? ==> r.text != "" && reply == Answered(Some(r.text))
    ensures r.Refused? ==> (r.message == TimedOutText <==> configured && reply == Aborted)
    ensures r.Refused? ==> (r.message == GenerateFailedText <==> !(configured && reply == Aborted))
  {
    if !configured then Refused(GenerateFailedText)
    else match reply
      case Aborted => Refused(TimedOutText)
      case Failed => Refused(GenerateFailedText)
      case NotOk(_) => Refused(GenerateFailedText)
      case Answered(d) => if TruthyText(d) then Staged(d.value) else Refused(GenerateFailedText)
  }

  class TaskItem {
    const task: Task
    /** The list showing this item: its `handleTaskUpdate` is the item's
        `onUpdate`, its `handleTaskDelete` the item's `onDelete`. */
    const list: TaskList

    var isEditing: bool
    var showMenu: bool
    var showDeleteConfirm: bool
    var isDeleting: bool
    var isSaving: bool
    var editTitle: string
    var editDescription: string
    var isGeneratingSteps: bool
    var generatedDescription: Option<string>
    var editedGeneratedDescription: string
    var showGeneratedDescription: bool
    var isEditingGenerated: bool
    var isAccepting: bool
    var toast: Option<Toast>

    /** The staged description is shown exactly when there is one, it is
        never empty, and nothing is being edited while nothing is shown. */
    ghost predicate Staging()
      reads this
    {
      && (showGeneratedDescription <==> generatedDescription.Some?)
      && (generatedDescription.Some? ==> generatedDescription.value != "")
      && (!showGeneratedDescription ==> !isEditingGenerated && editedGeneratedDescription == "")
    }

    constructor (task: Task, list: TaskList)
      ensures this.task == task && this.list == list && Staging()
      ensures editTitle == task.title && editDescription == TextOf(task.description)
      ensures !isEditing && !showMenu && !showDeleteConfirm && !isDeleting && !isSaving
      ensures !isGeneratingSteps && !isAccepting && generatedDescription == None && toast == None
    {
      this.task := task;
      this.list := list;
      isEditing := false;
      showMenu := false;
      showDeleteConfirm := false;
      isDeleting := false;
      isSaving := false;
      editTitle := task.title;
      editDescription := TextOf(task.description);
      isGeneratingSteps := false;
      generatedDescription := None;
      editedGeneratedDescription := "";
      showGeneratedDescription := false;
      isEditingGenerated := false;
      isAccepting := false;
      toast := None;
    }

    /** The "..." button opens and closes the menu. */
    method ToggleMenu()
      modifies this
      // every other field of the item is left as it was
      ensures unchanged(this`isEditing, this`showDeleteConfirm, this`isDeleting, this`isSaving, this`editTitle, this`editDescription, this`isGeneratingSteps, this`generatedDescription, this`editedGeneratedDescription, this`showGeneratedDescription, this`isEditingGenerated, this`isAccepting, this`toast)
      ensures showMenu == !old(showMenu) && isEditing == old(isEditing)
    {
      showMenu := !showMenu;
    }

    /** `handleToggle`: writes `is_done := !task.is_done` for this task's id
        and nothing else, then refetches the list whether or not the write
        succeeded. */
    method HandleToggle(ok: bool, refresh: FetchOutcome)
      requires list.db.Valid()
      modifies list, list.db
      ensures list.db.Valid() && list.db.users == old(list.db.users)
      ensures list.db.tasks == if ok && task.id in old(list.db.tasks)
        then old(list.db.tasks)[task.id := old(list.db.tasks)[task.id].(isDone := !task.isDone)]
        else old(list.db.tasks)
      ensures list.Refreshed(refresh, old(list.tasks))
      ensures !list.isLoading && list.showAddForm == old(list.showAddForm)
    {
      list.db.UpdateTask(task.id, SetDone(!task.isDone), ok);
      list.HandleTaskUpdate(refresh);
    }

    /** `handleEdit`: open the editor on the task's current values. */
    method HandleEdit()
      modifies this
      // every other field of the item is left as it was
      ensures unchanged(this`showDeleteConfirm, this`isDeleting, this`isSaving, this`isGeneratingSteps, this`generatedDescription, this`editedGeneratedDescription, this`showGeneratedDescription, this`isEditingGenerated, this`isAccepting, this`toast)
      ensures isEditing && !showMenu
      ensures editTitle == task.title && editDescription == TextOf(task.description)
    {
      editTitle := task.title;
      editDescription := TextOf(task.description);
      isEditing := true;
      showMenu := false;
    }

    /** `handleCancel`: close the editor, restoring the task's values. */
    method HandleCancel()
      modifies this
      // every other field of the item is left as it was
      ensures unchanged(this`showMenu, this`showDeleteConfirm, this`isDeleting, this`isSaving, this`isGeneratingSteps, this`generatedDescription, this`editedGeneratedDescription, this`showGeneratedDescription, this`isEditingGenerated, this`isAccepting, this`toast)
      ensures !isEditing
      ensures editTitle == task.title && editDescription == TextOf(task.description)
    {
      isEditing := false;
      editTitle := task.title;
      editDescription := TextOf(task.description);
    }

    /** Typing into the editor. */
    method SetEditTitle(s: string)
      modifies this
      // every other field of the item is left as it was
      ensures unchanged(this`isEditing, this`showMenu, this`showDeleteConfirm, this`isDeleting, this`isSaving, this`editDescription, this`isGeneratingSteps, this`generatedDescription, this`editedGeneratedDescription, this`showGeneratedDescription, this`isEditingGenerated, this`isAccepting, this`toast)
      ensures editTitle == s && editDescription == old(editDescription) && isEditing == old(isEditing)
    {
      editTitle := s;
    }

    method SetEditDescription(s: string)
      modifies this
      // every other field of the item is left as it was
      ensures unchanged(this`isEditing, this`showMenu, this`showDeleteConfirm, this`isDeleting, this`isSaving, this`editTitle, this`isGeneratingSteps, this`generatedDescription, this`editedGeneratedDescription, this`showGeneratedDescription, this`isEditingGenerated, this`isAccepting, this`toast)
      ensures editDescription == s && editTitle == old(editTitle) && isEditing == old(isEditing)
    {
      editDescription := s;
    }

    /** `handleSave`. A title blank after trimming: nothing is written and
        nothing changes. Otherwise the trimmed title and the normalised
        description are written for this id; the editor closes only on
        success, and the list is refetched on both outcomes. */
    method HandleSave(ok: bool, refresh: FetchOutcome)
      requires list.db.Valid()
      modifies this, list, list.db
      // every other field of the item is left as it was
      ensures unchanged(this`showMenu, this`showDeleteConfirm, this`isDeleting, this`editTitle, this`editDescription, this`isGeneratingSteps, this`generatedDescription, this`editedGeneratedDescription, this`showGeneratedDescription, this`isEditingGenerated, this`isAccepting, this`toast)
      ensures list.db.Valid() && list.db.users == old(list.db.users)
      ensures Blank(old(editTitle)) ==> unchanged(this) && unchanged(list) && unchanged(list.db)
      ensures !Blank(old(editTitle)) ==>
        && list.db.tasks == (if ok && task.id in old(list.db.tasks)
             then old(list.db.tasks)[task.id := old(list.db.tasks)[task.id].(
               title := Trim(old(editTitle)), description := NormalizeDescription(old(editDescription)))]
             else old(list.db.tasks))
        && isEditing == (if ok then false else old(isEditing))
        && !isSaving
        && editTitle == old(editTitle) && editDescription == old(editDescription)
        && list.Refreshed(refresh, old(list.tasks))
      // the item never opens or closes the add form; a refetch ends loading
      ensures list.showAddForm == old(list.showAddForm) && (!Blank(old(editTitle)) ==> !list.isLoading)
    {
      if Blank(editTitle) {
        return;
      }
      isSaving := true;
      list.db.UpdateTask(task.id, SetText(Trim(editTitle), NormalizeDescription(editDescription)), ok);
      if ok {
        isEditing := false;
      }
      list.HandleTaskUpdate(refresh);
      isSaving := false;
    }

    /** `handleDeleteClick`: ask for confirmation. */
    method HandleDeleteClick()
      modifies this
      // every other field of the item is left as it was
      ensures unchanged(this`isEditing, this`isDeleting, this`isSaving, this`editTitle, this`editDescription, this`isGeneratingSteps, this`generatedDescription, this`editedGeneratedDescription, this`showGeneratedDescription, this`isEditingGenerated, this`isAccepting, this`toast)
      ensures showDeleteConfirm && !showMenu && isDeleting == old(isDeleting)
    {
      showDeleteConfirm := true;
      showMenu := false;
    }

    /** `handleDeleteCancel`. */
    method HandleDeleteCancel()
      modifies this
      // every other field of the item is left as it was
      ensures unchanged(this`isEditing, this`showMenu, this`isDeleting, this`isSaving, this`editTitle, this`editDescription, this`isGeneratingSteps, this`generatedDescription, this`editedGeneratedDescription, this`showGeneratedDescription, this`isEditingGenerated, this`isAccepting, this`toast)
      ensures !showDeleteConfirm && isDeleting == old(isDeleting)
    {
      showDeleteConfirm := false;
    }

    /** `handleDeleteConfirm`: the task leaves the list before the remote
        delete is issued; a failed delete triggers a refetch. The dialog and
        the deleting flag are cleared either way. If the list was the owner's
        listing and the delete succeeds, the list is again exactly the
        owner's listing without a refetch. */
    method HandleDeleteConfirm(ok: bool, refresh: FetchOutcome)
      requires list.db.Valid()
      modifies this, list, list.db
      // every other field of the item is left as it was
      ensures unchanged(this`isEditing, this`showMenu, this`isSaving, this`editTitle, this`editDescription, this`isGeneratingSteps, this`generatedDescription, this`editedGeneratedDescription, this`showGeneratedDescription, this`isEditingGenerated, this`isAccepting, this`toast)
      ensures list.db.Valid() && list.db.users == old(list.db.users)
      ensures !isDeleting && !showDeleteConfirm
      ensures ok ==>
        && list.db.tasks == old(list.db.tasks) - {task.id}
        && list.tasks == WithoutTask(old(list.tasks), task.id)
        && (old(IsOwnerListing(list.db.tasks, list.userEmail, list.tasks)) ==>
              IsOwnerListing(list.db.tasks, list.userEmail, list.tasks))
      ensures !ok ==>
        && list.db.tasks == old(list.db.tasks)
        && list.Refreshed(refresh, WithoutTask(old(list.tasks), task.id))
      // the item never opens or closes the add form; a refetch ends loading
      ensures list.showAddForm == old(list.showAddForm) && list.isLoading == (if ok then old(list.isLoading) else false)
    {
      isDeleting := true;
      list.HandleTaskDelete(task.id);
      list.db.DeleteTask(task.id, ok);
      if !ok {
        list.HandleTaskUpdate(refresh);
      }
      isDeleting := false;
      showDeleteConfirm := false;
    }

    /** `handleGenerateSteps`: without a configured webhook no request is
        made; otherwise only the title is sent. A reply with a non-empty
        description is staged (shown, not being edited, editable copy equal
        to it); every failure leaves the staging as it was and shows a toast
        whose text tells a timeout from any other failure. */
    method HandleGenerateSteps(configured: bool, reply: StepsReply) returns (request: Option<StepsRequest>)
      requires Staging()
      modifies this
      // every other field of the item is left as it was
      ensures unchanged(this`isEditing, this`showMenu, this`showDeleteConfirm, this`isDeleting, this`isSaving, this`editTitle, this`editDescription, this`isAccepting)
      ensures Staging()
      ensures request == if configured then Some(StepsRequest(task.title)) else None
      ensures !isGeneratingSteps
      ensures isEditing == old(isEditing) && editTitle == old(editTitle) && editDescription == old(editDescription)
      ensures StepsResult(configured, reply).Staged? ==>
        var text := StepsResult(configured, reply).text;
        && generatedDescription == Some(text) && editedGeneratedDescription == text
        && showGeneratedDescription && !isEditingGenerated && toast == None
      ensures StepsResult(configured, reply).Refused? ==>
        && toast == Some(Toast(StepsResult(configured, reply).message, Error))
        && generatedDescription == old(generatedDescription)
        && editedGeneratedDescription == old(editedGeneratedDescription)
        && showGeneratedDescription == old(showGeneratedDescription)
        && isEditingGenerated == old(isEditingGenerated)
    {
      isGeneratingSteps := true;
      toast := None;
      request := if configured then Some(StepsRequest(task.title)) else None;
      match StepsResult(configured, reply) {
        case Staged(text) =>
          generatedDescription := Some(text);
          editedGeneratedDescription := text;
          showGeneratedDescription := true;
          isEditingGenerated := false;
        case Refused(message) =>
          toast := Some(Toast(message, Error));
      }
      isGeneratingSteps := false;
    }

    /** `handleAcceptGenerated`. Nothing staged: nothing happens. Otherwise
        the edited text (while editing) or the generated text replaces the
        description of this id. On success the staging is cleared, a success
        toast shown and the list refetched; on failure the staging is kept,
        an error toast shown and the list is not refetched. */
    method HandleAcceptGenerated(ok: bool, refresh: FetchOutcome)
      requires list.db.Valid() && Staging()
      modifies this, list, list.db
      // every other field of the item is left as it was
      ensures unchanged(this`isEditing, this`showMenu, this`showDeleteConfirm, this`isDeleting, this`isSaving, this`editTitle, this`editDescription, this`isGeneratingSteps)
      ensures list.db.Valid() && list.db.users == old(list.db.users) && Staging()
      ensures !TruthyText(old(generatedDescription)) ==> unchanged(this) && unchanged(list) && unchanged(list.db)
      ensures TruthyText(old(generatedDescription)) ==>
        var saved := if old(isEditingGenerated) then old(editedGeneratedDescription) else old(generatedDescription).value;
        && list.db.tasks == (if ok && task.id in old(list.db.tasks)
             then old(list.db.tasks)[task.id := old(list.db.tasks)[task.id].(description := Some(saved))]
             else old(list.db.tasks))
        && !isAccepting
        && (ok ==>
              && !showGeneratedDescription && generatedDescription == None
              && editedGeneratedDescription == "" && !isEditingGenerated
              && toast == Some(Toast(StepsSavedText, Success))
              && list.Refreshed(refresh, old(list.tasks)))
        && (!ok ==>
              && showGeneratedDescription == old(showGeneratedDescription)
              && generatedDescription == old(generatedDescription)
              && editedGeneratedDescription == old(editedGeneratedDescription)
              && isEditingGenerated == old(isEditingGenerated)
              && toast == Some(Toast(SaveStepsFailedText, Error))
              && unchanged(list))
      // the item never opens or closes the add form; a refetch ends loading
      ensures list.showAddForm == old(list.showAddForm)
      ensures TruthyText(old(generatedDescription)) && ok ==> !list.isLoading
    {
      if !TruthyText(generatedDescription) {
        return;
      }
      isAccepting := true;
      var saved := if isEditingGenerated then editedGeneratedDescription else generatedDescription.value;
      list.db.UpdateTask(task.id, SetDescription(Some(saved)), ok);
      if ok {
        HandleCancelGenerated();
        toast := Some(Toast(StepsSavedText, Success));
        list.HandleTaskUpdate(refresh);
      } else {
        toast := Some(Toast(SaveStepsFailedText, Error));
      }
      isAccepting := false;
    }

    /** `handleEditGenerated` (the "Edit" button, shown only while a text is
        staged): start editing from the generated text, dropping any earlier
        edits. */
    method HandleEditGenerated()
      requires Staging() && showGeneratedDescription
      modifies this
      // every other field of the item is left as it was
      ensures unchanged(this`isEditing, this`showMenu, this`showDeleteConfirm, this`isDeleting, this`isSaving, this`editTitle, this`editDescription, this`isGeneratingSteps, this`generatedDescription, this`showGeneratedDescription, this`isAccepting, this`toast)
      ensures Staging() && isEditingGenerated
      ensures editedGeneratedDescription == TextOf(generatedDescription)
      ensures generatedDescription == old(generatedDescription) && showGeneratedDescription
    {
      editedGeneratedDescription := TextOf(generatedDescription);
      isEditingGenerated := true;
    }

    /** Typing into the staged text while editing it. */
    method SetEditedGeneratedDescription(s: string)
      requires Staging() && showGeneratedDescription
      modifies this
      // every other field of the item is left as it was
      ensures unchanged(this`isEditing, this`showMenu, this`showDeleteConfirm, this`isDeleting, this`isSaving, this`editTitle, this`editDescription, this`isGeneratingSteps, this`generatedDescription, this`showGeneratedDescription, this`isEditingGenerated, this`isAccepting, this`toast)
      ensures Staging() && editedGeneratedDescription == s
      ensures generatedDescription == old(generatedDescription) && isEditingGenerated == old(isEditingGenerated)
    {
      editedGeneratedDescription := s;
    }

    /** "Cancel Edit": stop editing; the edited copy is kept but Accept now
        saves the generated text. */
    method CancelEditGenerated()
      requires Staging()
      modifies this
      // every other field of the item is left as it was
      ensures unchanged(this`isEditing, this`showMenu, this`showDeleteConfirm, this`isDeleting, this`isSaving, this`editTitle, this`editDescription, this`isGeneratingSteps, this`generatedDescription, this`editedGeneratedDescription, this`showGeneratedDescription, this`isAccepting, this`toast)
      ensures Staging() && !isEditingGenerated
      ensures generatedDescription == old(generatedDescription)
      ensures editedGeneratedDescription == old(editedGeneratedDescription)
    {
      isEditingGenerated := false;
    }

    /** `handleCancelGenerated`: discard the staging with no write. */
    method HandleCancelGenerated()
      modifies this
      // every other field of the item is left as it was
      ensures unchanged(this`isEditing, this`showMenu, this`showDeleteConfirm, this`isDeleting, this`isSaving, this`editTitle, this`editDescription, this`isGeneratingSteps, this`isAccepting, this`toast)
      ensures Staging()
      ensures !showGeneratedDescription && generatedDescription == None
      ensures editedGeneratedDescription == "" && !isEditingGenerated
    {
      showGeneratedDescription := false;
      generatedDescription := None;
      editedGeneratedDescription := "";
      isEditingGenerated := false;
    }

    /** The toast's close button. */
    method DismissToast()
      modifies this
      // every other field of the item is left as it was
      ensures unchanged(this`isEditing, this`showMenu, this`showDeleteConfirm, this`isDeleting, this`isSaving, this`editTitle, this`editDescription, this`isGeneratingSteps, this`generatedDescription, this`editedGeneratedDescription, this`showGeneratedDescription, this`isEditingGenerated, this`isAccepting)
      ensures toast == None && generatedDescription == old(generatedDescription)
    {
      toast := None;
    }
  }
}
