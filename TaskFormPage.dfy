/**
 * The form that creates a task in a project or edits one: the project-access check made
 * when it opens, the edit permission, the validation chain, and the request it sends.
 * Validity of the image URL (the browser's `URL` parser) is the parameter `validUrl`;
 * "now" is the parameter `now`.
 */
module TaskFormPage {
  import opened Wrappers
  import opened Entities
  import opened Text
  import Policy
  import ProjectDetailPage
  import TaskList

  /** The errors the form shows. */
  datatype TaskFormError =
    | NotAuthenticated
    | NoTaskPermission       // the user may not manage tasks in this project
    | ProjectCheckFailed     // the project could not be fetched
    | TaskLoadFailed         // the task to edit could not be fetched
    | MissingFields
    | TitleTooShort
    | DueDateNotInFuture
    | InvalidImageUrl
    | EditForbidden
    | SaveFailed(reason: string)

  /** The values of the form's inputs; an empty date input is `None`. */
  datatype TaskFields = TaskFields(title: string, status: string, dueDate: Option<int>, imageUrl: string)

  /** The body of the request: title and image URL trimmed. */
  datatype TaskPayload = TaskPayload(
    title: string, status: string, dueDate: int, imageUrl: string, projectId: Id, creatorId: Option<Id>)

  /** The request the form sends. */
  datatype TaskRequest = Create(payload: TaskPayload) | Update(taskId: Id, payload: TaskPayload)

  /** `fetchProjectCreator`'s access test: an admin, the project's creator, or a collaborator. */
  function ProjectAccess(user: User, p: Project): (r: bool)
    ensures r <==> Policy.CanViewProject(Some(user), p)
    ensures r <==> ProjectDetailPage.FetchPageData(Some(user), Some(p)).Loaded?
  {
    user.role == Admin || p.creatorId == user.id || user.id in p.collaborators
  }

  /**
   * `canEditThisTask`: nobody without a user; an admin always; nobody while the project's
   * creator is unknown; when editing a task whose creator is known, only that creator or
   * the project's creator; otherwise anybody.
   */
  function CanEditThisTask(user: Option<User>, projectCreatorId: Option<Id>, isEditing: bool, taskCreatorId: Option<Id>)
    : (r: bool)
    ensures user.None? ==> !r
    ensures user.Some? && user.value.role == Admin ==> r
    ensures user.Some? && user.value.role != Admin && projectCreatorId.None? ==> !r
    ensures user.Some? && projectCreatorId.Some? && isEditing && taskCreatorId.Some? ==>
      (r <==> Policy.CanEditOrDeleteTask(user, taskCreatorId, projectCreatorId.value))
    ensures user.Some? && projectCreatorId.Some? && !(isEditing && taskCreatorId.Some?) ==> r
  {
    if user.None? then false
    else if user.value.role == Admin then true
    else if projectCreatorId.None? then false
    else if isEditing && taskCreatorId.Some? then
      user.value.id == taskCreatorId.value || user.value.id == projectCreatorId.value
    else true
  }

  /** With both creators known, the form allows an edit exactly when the task list allows a delete. */
  lemma EditAgreesWithTaskList(user: User, projectCreatorId: Id, taskCreatorId: Id)
    ensures CanEditThisTask(Some(user), Some(projectCreatorId), true, Some(taskCreatorId))
        <==> TaskList.CanDeleteTask(user, Some(taskCreatorId), projectCreatorId)
  {
  }

  /**
   * Where the two copies differ: while the task's creator is unknown to the form (its
   * fetch failed, or the record has no `creator_id`), the form lets a member who created
   * neither the task nor the project edit it, although the task list refuses that member
   * the same task, whatever creator, if any, the list sees on it.
   */
  lemma EditAllowedWhileTaskCreatorUnknown(user: User, projectCreatorId: Id, taskCreatorId: Option<Id>)
    requires user.role == Member && user.id != projectCreatorId && taskCreatorId != Some(user.id)
    ensures CanEditThisTask(Some(user), Some(projectCreatorId), true, None)
    ensures !TaskList.CanDeleteTask(user, taskCreatorId, projectCreatorId)
  {
  }

  /** Every input is filled: trimmed title, status, date, trimmed image URL. */
  predicate FieldsPresent(f: TaskFields) {
    Trim(f.title) != "" && f.status != "" && f.dueDate.Some? && Trim(f.imageUrl) != ""
  }

  /**
   * `validateForm`: the first failing check, in order: every field present, a trimmed
   * title of at least three characters, a due date after now, a valid image URL.
   */
  function ValidateForm(f: TaskFields, now: int, validUrl: string -> bool): (r: Option<TaskFormError>)
    ensures r == Some(MissingFields) <==> !FieldsPresent(f)
    ensures r == Some(TitleTooShort) <==> FieldsPresent(f) && |Trim(f.title)| < 3
    ensures r == Some(DueDateNotInFuture) <==>
      FieldsPresent(f) && |Trim(f.title)| >= 3 && f.dueDate.value <= now
    ensures r == Some(InvalidImageUrl) <==>
      FieldsPresent(f) && |Trim(f.title)| >= 3 && f.dueDate.value > now && !validUrl(f.imageUrl)
    ensures r.None? <==>
      FieldsPresent(f) && |Trim(f.title)| >= 3 && f.dueDate.value > now && validUrl(f.imageUrl)
  {
    if !FieldsPresent(f) then Some(MissingFields)
    else if |Trim(f.title)| < 3 then Some(TitleTooShort)
    else if f.dueDate.value <= now then Some(DueDateNotInFuture)
    else if !validUrl(f.imageUrl) then Some(InvalidImageUrl)
    else None
  }

  /** What a submit does. */
  datatype SubmitStep =
    | Invalid(error: TaskFormError)   // validation failed; nothing is sent
    | Forbidden                       // an edit the user may not make; nothing is sent
    | Send(request: TaskRequest)

  /**
   * `handleSubmit`: validation first, then the edit permission, then the request. A new
   * task is created by the user; an edited task keeps its original creator.
   */
  function Submission(
    f: TaskFields, now: int, validUrl: string -> bool, user: User, projectId: Id,
    projectCreatorId: Option<Id>, taskId: Option<Id>, taskCreatorId: Option<Id>)
    : (r: SubmitStep)
    ensures r.Invalid? <==> ValidateForm(f, now, validUrl).Some?
    ensures r.Invalid? ==> r.error == ValidateForm(f, now, validUrl).value
    ensures r == Forbidden <==>
      ValidateForm(f, now, validUrl).None? && taskId.Some?
      && !CanEditThisTask(Some(user), projectCreatorId, true, taskCreatorId)
    ensures r.Send? ==>
      var p := r.request.payload;
      p.title == Trim(f.title) && p.status == f.status && f.dueDate == Some(p.dueDate)
      && p.imageUrl == Trim(f.imageUrl) && p.projectId == projectId
    ensures r.Send? ==> (r.request.Create? <==> taskId.None?)
    ensures r.Send? && r.request.Create? ==> r.request.payload.creatorId == Some(user.id)
    ensures r.Send? && r.request.Update? ==>
      Some(r.request.taskId) == taskId && r.request.payload.creatorId == taskCreatorId
  {
    var invalid := ValidateForm(f, now, validUrl);
    if invalid.Some? then Invalid(invalid.value)
    else if taskId.Some? && !CanEditThisTask(Some(user), projectCreatorId, true, taskCreatorId) then Forbidden
    else
      var payload := TaskPayload(Trim(f.title), f.status, f.dueDate.value, Trim(f.imageUrl), projectId, None);
      if taskId.Some? then Send(Update(taskId.value, payload.(creatorId := taskCreatorId)))
      else Send(Create(payload.(creatorId := Some(user.id))))
  }

  /**
   * What is sent passes validation again: its title has at least three characters and no
   * white space at either end, and its image URL is non-empty and trimmed.
   */
  lemma SentPayloadIsClean(
    f: TaskFields, now: int, validUrl: string -> bool, user: User, projectId: Id,
    projectCreatorId: Option<Id>, taskId: Option<Id>, taskCreatorId: Option<Id>)
    requires Submission(f, now, validUrl, user, projectId, projectCreatorId, taskId, taskCreatorId).Send?
    ensures var p := Submission(f, now, validUrl, user, projectId, projectCreatorId, taskId, taskCreatorId).request.payload;
      |p.title| >= 3 && Trim(p.title) == p.title && p.imageUrl != "" && Trim(p.imageUrl) == p.imageUrl
      && p.dueDate > now
  {
    TrimIdempotent(f.title);
    TrimIdempotent(f.imageUrl);
  }

  /**
   * An edit form the page renders is never refused on submit: the page hides the form
   * from a user who fails the edit check with both creators known, and with the task's
   * creator unknown the check passes. A valid edit of a shown form is always sent.
   */
  lemma ShownFormIsNeverForbidden(
    f: TaskFields, now: int, validUrl: string -> bool, user: User, projectId: Id,
    projectCreatorId: Id, taskId: Id, taskCreatorId: Option<Id>)
    requires !(taskCreatorId.Some? && !CanEditThisTask(Some(user), Some(projectCreatorId), true, taskCreatorId))
    ensures var r := Submission(f, now, validUrl, user, projectId, Some(projectCreatorId), Some(taskId), taskCreatorId);
      r != Forbidden && (ValidateForm(f, now, validUrl).None? ==> r.Send? && r.request.Update?)
  {
  }

  /** The record an update leaves on the server: `PUT` replaces the task with the payload. */
  function StoredTask(id: Id, p: TaskPayload): Task {
    Task(id, p.projectId, p.title, p.status, p.dueDate, p.imageUrl, p.creatorId)
  }

  /**
   * Saving an edit whose task could not be loaded writes the task back without a creator.
   * Once the form loads that record again, it lets every member who did not create the
   * project edit the task, while the task list refuses each of them.
   */
  lemma SaveAfterFailedLoadDropsCreator(
    f: TaskFields, now: int, validUrl: string -> bool, user: User, projectId: Id,
    projectCreatorId: Id, taskId: Id, member: User)
    requires Submission(f, now, validUrl, user, projectId, Some(projectCreatorId), Some(taskId), None).Send?
    requires member.role == Member && member.id != projectCreatorId
    ensures var t := StoredTask(taskId, Submission(f, now, validUrl, user, projectId, Some(projectCreatorId), Some(taskId), None).request.payload);
      t.id == taskId && t.creatorId.None?
      && CanEditThisTask(Some(member), Some(projectCreatorId), true, t.creatorId)
      && !TaskList.CanDeleteTask(member, t.creatorId, projectCreatorId)
  {
  }

  /** The form's state, which loading and submitting update in place. */
  class TaskFormView {
    const user: Option<User>
    const projectId: Id
    /** The task being edited; `None` on the create route. */
    const taskId: Option<Id>
    var fields: TaskFields
    var projectCreatorId: Option<Id>
    var taskCreatorId: Option<Id>
    var loading: bool
    var error: Option<TaskFormError>
    /** Whether the form is rendered at all. */
    var canProceed: bool

    /** The form is only rendered for a logged-in user once the project's creator is known. */
    predicate Valid()
      reads this
    {
      canProceed ==> user.Some? && projectCreatorId.Some?
    }

    function IsEditing(): bool {
      taskId.Some?
    }

    constructor (user: Option<User>, projectId: Id, taskId: Option<Id>)
      ensures Valid() && this.user == user && this.projectId == projectId && this.taskId == taskId
      ensures fields == TaskFields("", "todo", None, "")
      ensures projectCreatorId.None? && taskCreatorId.None?
      ensures !loading && error.None? && !canProceed
    {
      this.user := user;
      this.projectId := projectId;
      this.taskId := taskId;
      fields := TaskFields("", "todo", None, "");
      projectCreatorId := None;
      taskCreatorId := None;
      loading := false;
      error := None;
      canProceed := false;
    }

    /**
     * The mount effect: the project check, then, when editing, the task's fields.
     * `fetchedProject` and `fetchedTask` are `None` when their request failed. A failed
     * task fetch still lets the form proceed, with the task's creator unknown.
     */
    method Initialize(fetchedProject: Option<Project>, fetchedTask: Option<Task>)
      requires Valid()
      modifies this
      ensures Valid() && !loading
      ensures canProceed <==> user.Some? && fetchedProject.Some? && ProjectAccess(user.value, fetchedProject.value)
      ensures user.None? ==> error == Some(NotAuthenticated)
      ensures user.Some? && fetchedProject.None? ==> error == Some(ProjectCheckFailed)
      ensures user.Some? && fetchedProject.Some? ==> projectCreatorId == Some(fetchedProject.value.creatorId)
      ensures user.None? || fetchedProject.None? ==> projectCreatorId == old(projectCreatorId)
      ensures user.Some? && fetchedProject.Some? && !ProjectAccess(user.value, fetchedProject.value) ==>
        error == Some(NoTaskPermission)
      ensures user.Some? && fetchedProject.Some? && ProjectAccess(user.value, fetchedProject.value)
              && IsEditing() && fetchedTask.Some? ==>
        var t := fetchedTask.value;
        taskCreatorId == t.creatorId && fields == TaskFields(t.title, t.status, Some(t.dueDate), t.imageUrl)
        && error == old(error)
      ensures user.Some? && fetchedProject.Some? && ProjectAccess(user.value, fetchedProject.value)
              && IsEditing() && fetchedTask.None? ==>
        error == Some(TaskLoadFailed) && taskCreatorId == old(taskCreatorId) && fields == old(fields)
      ensures !(user.Some? && fetchedProject.Some? && ProjectAccess(user.value, fetchedProject.value) && IsEditing()) ==>
        taskCreatorId == old(taskCreatorId) && fields == old(fields)
      ensures user.Some? && fetchedProject.Some? && ProjectAccess(user.value, fetchedProject.value) && !IsEditing() ==>
        error == old(error)
    {
      if user.None? {
        error := Some(NotAuthenticated);
        canProceed := false;
        loading := false;
        return;
      }
      loading := true;
      var hasProjectAccess := false;
      if fetchedProject.None? {
        error := Some(ProjectCheckFailed);
        canProceed := false;
      } else {
        projectCreatorId := Some(fetchedProject.value.creatorId);
        if ProjectAccess(user.value, fetchedProject.value) {
          hasProjectAccess := true;
        } else {
          error := Some(NoTaskPermission);
          canProceed := false;
        }
      }
      if hasProjectAccess {
        if IsEditing() {
          if fetchedTask.Some? {
            var t := fetchedTask.value;
            taskCreatorId := t.creatorId;
            fields := TaskFields(t.title, t.status, Some(t.dueDate), t.imageUrl);
          } else {
            error := Some(TaskLoadFailed);
          }
        }
        canProceed := true;
      }
      loading := false;
    }

    /** Typing in the inputs. */
    method SetFields(f: TaskFields)
      requires Valid()
      modifies this
      ensures Valid() && fields == f
      ensures projectCreatorId == old(projectCreatorId) && taskCreatorId == old(taskCreatorId)
      ensures loading == old(loading) && error == old(error) && canProceed == old(canProceed)
    {
      fields := f;
    }

    /**
     * `handleSubmit`, which the page only offers once it may proceed. `failure` is the
     * message of the error the request throws, `None` when it succeeded; the request is
     * returned when it is sent.
     */
    method Submit(now: int, validUrl: string -> bool, failure: Option<string>) returns (sent: Option<TaskRequest>)
      requires Valid() && canProceed
      modifies this
      ensures Valid()
      ensures var step := Submission(fields, now, validUrl, user.value, projectId, projectCreatorId, taskId, taskCreatorId);
        (step.Invalid? ==> sent.None? && error == Some(step.error))
        && (step == Forbidden ==> sent.None? && error == Some(EditForbidden))
        && (!step.Send? ==> loading == old(loading))
        && (step.Send? ==>
              sent == Some(step.request) && !loading
              && error == (if failure.Some? then Some(SaveFailed(failure.value)) else None))
      ensures fields == old(fields) && projectCreatorId == old(projectCreatorId)
      ensures taskCreatorId == old(taskCreatorId) && canProceed == old(canProceed)
    {
      error := None;
      var invalid := ValidateForm(fields, now, validUrl);
      if invalid.Some? {
        error := invalid;
        return None;
      }
      if IsEditing() && !CanEditThisTask(user, projectCreatorId, true, taskCreatorId) {
        error := Some(EditForbidden);
        return None;
      }
      loading := true;
      var payload := TaskPayload(Trim(fields.title), fields.status, fields.dueDate.value, Trim(fields.imageUrl), projectId, None);
      if IsEditing() {
        sent := Some(Update(taskId.value, payload.(creatorId := taskCreatorId)));
      } else {
        sent := Some(Create(payload.(creatorId := Some(user.value.id))));
      }
      if failure.Some? {
        error := Some(SaveFailed(failure.value));
      }
      loading := false;
    }
  }
}
