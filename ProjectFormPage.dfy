/**
 * The form that creates a project or edits one: the edit-authorization check made when an
 * existing project is loaded, the validation chain, the guard on submit, and the record
 * that is sent. Dates are integers on one time scale; an empty date input is `None`.
 */
module ProjectFormPage {
  import opened Wrappers
  import opened Entities
  import opened Text
  import Policy

  /** The errors the form shows. */
  datatype ProjectFormError =
    | NotAuthorizedToEdit  // loading an existing project the user may not manage
    | LoadFailed
    | MissingFields
    | NameTooShort
    | DescriptionTooLong
    | EndNotAfterStart
    | SubmitForbidden
    | SaveFailed

  /** Where the page sends the user. */
  datatype Destination = Dashboard | ProjectPage(id: Id)

  /** The values of the form's inputs. */
  datatype ProjectFields = ProjectFields(name: string, description: string, startDate: Option<int>, endDate: Option<int>)

  /** The body of a create request: a project record without an id yet. */
  datatype NewProject = NewProject(
    name: string, description: string, startDate: int, endDate: int, creatorId: Id, collaborators: seq<Id>)

  /** The request the form sends. */
  datatype ProjectRequest = Create(newProject: NewProject) | Update(projectId: Id, record: Project)

  const MaxDescriptionLength := 500

  /** The trimmed name and both dates are filled. */
  predicate FieldsPresent(f: ProjectFields) {
    Trim(f.name) != "" && f.startDate.Some? && f.endDate.Some?
  }

  /**
   * `validateForm`: the first failing check, in order: trimmed name and both dates present,
   * a trimmed name of at least three characters, a description of at most 500 characters
   * (white space included), an end date after the start date.
   */
  function ValidateProject(f: ProjectFields): (r: Option<ProjectFormError>)
    ensures r == Some(MissingFields) <==> !FieldsPresent(f)
    ensures r == Some(NameTooShort) <==> FieldsPresent(f) && |Trim(f.name)| < 3
    ensures r == Some(DescriptionTooLong) <==>
      FieldsPresent(f) && |Trim(f.name)| >= 3 && |f.description| > MaxDescriptionLength
    ensures r == Some(EndNotAfterStart) <==>
      FieldsPresent(f) && |Trim(f.name)| >= 3 && |f.description| <= MaxDescriptionLength
      && f.endDate.value <= f.startDate.value
    ensures r.None? <==>
      FieldsPresent(f) && |Trim(f.name)| >= 3 && |f.description| <= MaxDescriptionLength
      && f.startDate.value < f.endDate.value
  {
    if !FieldsPresent(f) then Some(MissingFields)
    else if |Trim(f.name)| < 3 then Some(NameTooShort)
    else if |f.description| > MaxDescriptionLength then Some(DescriptionTooLong)
    else if f.endDate.value <= f.startDate.value then Some(EndNotAfterStart)
    else None
  }

  /**
   * The guard of `handleSubmit`: an edit is refused when the project's creator is known
   * and the user is neither that creator nor an admin.
   */
  predicate SubmitBlocked(isEditing: bool, user: User, initialCreatorId: Option<Id>) {
    isEditing && initialCreatorId.Some? && user.id != initialCreatorId.value && user.role != Admin
  }

  /** What a submit does. */
  datatype SubmitStep =
    | Invalid(error: ProjectFormError)   // nothing is sent
    | Forbidden                          // nothing is sent; the user is sent to the dashboard
    | CurrentUnavailable                 // editing, and the server's current record could not be fetched
    | Send(request: ProjectRequest)

  /**
   * `handleSubmit` for the route's `projectId` (`None` when creating). `current` is the
   * server's record of the edited project at the time of the submit, `None` when that
   * fetch failed. An update overwrites the form's fields and keeps the record's own id,
   * creator and collaborators; a create makes the user the creator and sole collaborator.
   */
  function Submission(f: ProjectFields, projectId: Option<Id>, user: User, initialCreatorId: Option<Id>, current: Option<Project>)
    : (r: SubmitStep)
    ensures r.Invalid? <==> ValidateProject(f).Some?
    ensures r.Invalid? ==> r.error == ValidateProject(f).value
    ensures r == Forbidden <==> ValidateProject(f).None? && SubmitBlocked(projectId.Some?, user, initialCreatorId)
    ensures r == CurrentUnavailable <==>
      ValidateProject(f).None? && !SubmitBlocked(projectId.Some?, user, initialCreatorId)
      && projectId.Some? && current.None?
    ensures r.Send? ==> (r.request.Create? <==> projectId.None?)
    ensures r.Send? && r.request.Create? ==>
      r.request.newProject == NewProject(Trim(f.name), f.description, f.startDate.value, f.endDate.value, user.id, [user.id])
    ensures r.Send? && r.request.Update? ==>
      var p := r.request.record;
      current.Some? && Some(r.request.projectId) == projectId
      && p.name == Trim(f.name) && p.description == f.description
      && Some(p.startDate) == f.startDate && Some(p.endDate) == f.endDate
      && p.id == current.value.id && p.creatorId == current.value.creatorId
      && p.collaborators == current.value.collaborators
  {
    var invalid := ValidateProject(f);
    if invalid.Some? then Invalid(invalid.value)
    else if SubmitBlocked(projectId.Some?, user, initialCreatorId) then Forbidden
    else
      var name := Trim(f.name);
      if projectId.Some? then
        if current.None? then CurrentUnavailable
        else
          var c := current.value;
          Send(Update(projectId.value, c.(name := name, description := f.description,
                                           startDate := f.startDate.value, endDate := f.endDate.value)))
      else
        Send(Create(NewProject(name, f.description, f.startDate.value, f.endDate.value, user.id, [user.id])))
  }

  /** The project a create request makes, once the server has given it an id. */
  function Stored(np: NewProject, id: Id): Project {
    Project(id, np.name, np.description, np.startDate, np.endDate, np.creatorId, np.collaborators)
  }

  /**
   * The user who creates a project manages it and is its only collaborator, and the
   * record sent passes validation again: name trimmed and at least three long, dates in order.
   */
  lemma CreatedProjectBelongsToCreator(f: ProjectFields, user: User, id: Id)
    requires Submission(f, None, user, None, None).Send?
    ensures var np := Submission(f, None, user, None, None).request.newProject;
      Policy.CanManageProject(Some(user), Stored(np, id))
      && Policy.IsCollaborator(Some(user), Stored(np, id))
      && np.collaborators == [user.id]
      && Trim(np.name) == np.name && |np.name| >= 3 && np.startDate < np.endDate
  {
    TrimIdempotent(f.name);
  }

  /**
   * An update never changes who owns a project or who may see it: for every actor the
   * view and manage permissions on the new record equal those on the server's record.
   */
  lemma UpdateKeepsPermissions(
    f: ProjectFields, projectId: Id, user: User, initialCreatorId: Option<Id>, current: Project, actor: Option<User>)
    requires Submission(f, Some(projectId), user, initialCreatorId, Some(current)).Send?
    ensures var p := Submission(f, Some(projectId), user, initialCreatorId, Some(current)).request.record;
      (Policy.CanViewProject(actor, p) <==> Policy.CanViewProject(actor, current))
      && (Policy.CanManageProject(actor, p) <==> Policy.CanManageProject(actor, current))
  {
  }

  /** After a successful load, the submit guard refuses exactly the users the policy forbids to manage. */
  lemma GuardAgreesWithPolicyAfterLoad(user: User, p: Project)
    ensures SubmitBlocked(true, user, Some(p.creatorId)) <==> !Policy.CanManageProject(Some(user), p)
  {
  }

  /**
   * Where the guard is weaker than the policy: when the load failed, the creator is
   * unknown and a valid edit by a member who does not manage the project is sent.
   */
  lemma GuardOpenWhileCreatorUnknown(f: ProjectFields, projectId: Id, user: User, current: Project)
    requires ValidateProject(f).None?
    requires !Policy.CanManageProject(Some(user), current)
    ensures Submission(f, Some(projectId), user, None, Some(current)).Send?
  {
  }

  /** The form's state, which loading and submitting update in place. */
  class ProjectFormView {
    const user: Option<User>
    /** The edited project; `None` on the create route. */
    const projectId: Option<Id>
    var fields: ProjectFields
    var loading: bool
    var error: Option<ProjectFormError>
    var initialCreatorId: Option<Id>
    /** The last `navigate` target, if any. */
    var redirect: Option<Destination>

    function IsEditing(): bool {
      projectId.Some?
    }

    constructor (user: Option<User>, projectId: Option<Id>)
      ensures this.user == user && this.projectId == projectId
      ensures fields == ProjectFields("", "", None, None)
      ensures !loading && error.None? && initialCreatorId.None? && redirect.None?
    {
      this.user := user;
      this.projectId := projectId;
      fields := ProjectFields("", "", None, None);
      loading := false;
      error := None;
      initialCreatorId := None;
      redirect := None;
    }

    /**
     * `fetchProjectData`: when editing with a user, the project is fetched (`None` when the
     * request failed); only a user who may manage it gets its fields and its creator.
     */
    method LoadForEdit(fetched: Option<Project>)
      modifies this
      ensures !(IsEditing() && user.Some?) ==>
        fields == old(fields) && loading == old(loading) && error == old(error)
        && initialCreatorId == old(initialCreatorId) && redirect == old(redirect)
      ensures IsEditing() && user.Some? ==> !loading
      ensures IsEditing() && user.Some? && fetched.None? ==>
        error == Some(LoadFailed) && fields == old(fields)
        && initialCreatorId == old(initialCreatorId) && redirect == old(redirect)
      ensures IsEditing() && user.Some? && fetched.Some? && !Policy.CanManageProject(user, fetched.value) ==>
        error == Some(NotAuthorizedToEdit) && redirect == Some(Dashboard)
        && fields == old(fields) && initialCreatorId == old(initialCreatorId)
      ensures IsEditing() && user.Some? && fetched.Some? && Policy.CanManageProject(user, fetched.value) ==>
        var p := fetched.value;
        fields == ProjectFields(p.name, p.description, Some(p.startDate), Some(p.endDate))
        && initialCreatorId == Some(p.creatorId) && error == old(error) && redirect == old(redirect)
    {
      if IsEditing() && user.Some? {
        loading := true;
        if fetched.None? {
          error := Some(LoadFailed);
        } else {
          var p := fetched.value;
          if p.creatorId != user.value.id && user.value.role != Admin {
            error := Some(NotAuthorizedToEdit);
            redirect := Some(Dashboard);
          } else {
            fields := ProjectFields(p.name, p.description, Some(p.startDate), Some(p.endDate));
            initialCreatorId := Some(p.creatorId);
          }
        }
        loading := false;
      }
    }

    /** Typing in the inputs. */
    method SetFields(f: ProjectFields)
      modifies this
      ensures fields == f
      ensures loading == old(loading) && error == old(error)
      ensures initialCreatorId == old(initialCreatorId) && redirect == old(redirect)
    {
      fields := f;
    }

    /**
     * `handleSubmit`, on a page that is only reachable when logged in. `current` is the
     * server's record fetched for an update; `writeOk` whether the write succeeded. The
     * request is returned when it is sent.
     */
    method Submit(current: Option<Project>, writeOk: bool) returns (sent: Option<ProjectRequest>)
      requires user.Some?
      modifies this
      ensures var step := Submission(old(fields), projectId, user.value, initialCreatorId, current);
        (step.Invalid? ==> sent.None? && error == Some(step.error) && redirect == old(redirect) && loading == old(loading))
        && (step == Forbidden ==>
              sent.None? && error == Some(SubmitForbidden) && redirect == Some(Dashboard) && loading == old(loading))
        && (step == CurrentUnavailable ==>
              sent.None? && error == Some(SaveFailed) && redirect == old(redirect) && !loading)
        && (step.Send? ==>
              sent == Some(step.request) && !loading
              && (writeOk ==>
                    error.None?
                    && redirect == Some(if IsEditing() then ProjectPage(projectId.value) else Dashboard))
              && (!writeOk ==> error == Some(SaveFailed) && redirect == old(redirect)))
      ensures fields == old(fields) && initialCreatorId == old(initialCreatorId)
    {
      var invalid := ValidateProject(fields);
      if invalid.Some? {
        error := invalid;
        return None;
      }
      error := None;
      if IsEditing() && initialCreatorId.Some? && user.value.id != initialCreatorId.value && user.value.role != Admin {
        error := Some(SubmitForbidden);
        redirect := Some(Dashboard);
        return None;
      }
      loading := true;
      var name := Trim(fields.name);
      if IsEditing() {
        if current.None? {
          error := Some(SaveFailed);
          loading := false;
          return None;
        }
        var c := current.value;
        sent := Some(Update(projectId.value, c.(name := name, description := fields.description,
                                                startDate := fields.startDate.value, endDate := fields.endDate.value)));
      } else {
        sent := Some(Create(NewProject(name, fields.description, fields.startDate.value, fields.endDate.value,
                                       user.value.id, [user.value.id])));
      }
      if writeOk {
        redirect := Some(if IsEditing() then ProjectPage(projectId.value) else Dashboard);
      } else {
        error := Some(SaveFailed);
      }
      loading := false;
    }
  }
}
