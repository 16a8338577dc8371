/**
 * The project detail page: the view check made when the page loads, the two flags that
 * decide which controls are rendered, and the guard of the delete button.
 */
module ProjectDetailPage {
  import opened Wrappers
  import opened Entities
  import Policy

  /** What loading the page leaves behind. */
  datatype PageLoad =
    | NotAuthenticated   // no user logged in
    | FetchFailed        // the project or the user list could not be fetched
    | NoViewPermission   // the error is set and `project` stays null
    | Loaded(project: Project)

  /**
   * `fetchPageData`. `fetched` is the project returned by the gateway, or `None` when
   * either of the two parallel requests failed.
   */
  function FetchPageData(user: Option<User>, fetched: Option<Project>): (r: PageLoad)
    ensures r.NotAuthenticated? <==> user.None?
    ensures r.FetchFailed? <==> user.Some? && fetched.None?
    ensures r.Loaded? <==> fetched.Some? && Policy.CanViewProject(user, fetched.value)
    ensures r.NoViewPermission? <==> fetched.Some? && user.Some? && !Policy.CanViewProject(user, fetched.value)
    ensures r.Loaded? ==> r.project == fetched.value
  {
    if user.None? then NotAuthenticated
    else if fetched.None? then FetchFailed
    else
      var data := fetched.value;
      var isAdmin := user.value.role == Admin;
      var isCreator := data.creatorId == user.value.id;
      var isCollaborator := user.value.id in data.collaborators;
      if !isAdmin && !isCreator && !isCollaborator then NoViewPermission
      else Loaded(data)
  }

  /** `canManageProject`: shows the edit, delete and manage-collaborators controls. */
  function CanManageProject(user: Option<User>, project: Project): (r: bool)
    ensures r <==> Policy.CanManageProject(user, project)
  {
    user.Some? && (project.creatorId == user.value.id || user.value.role == Admin)
  }

  /** `canCreateTask`: shows the new-task control. */
  function CanCreateTask(user: Option<User>, project: Project): (r: bool)
    ensures r <==> Policy.CanCreateTask(user, project)
  {
    user.Some? &&
    (project.creatorId == user.value.id || user.value.role == Admin || user.value.id in project.collaborators)
  }

  /** The result of pressing the delete button. */
  datatype DeleteOutcome =
    | NoProject      // nothing is loaded
    | Refused        // the actor may not delete: an alert, nothing sent
    | Cancelled      // the confirmation was declined
    | Deleted        // the delete request succeeded; the user is sent to the dashboard
    | DeleteFailed   // the delete request failed; an error is shown

  /**
   * `handleDeleteProject`. `confirmed` is the answer to the confirmation dialog and
   * `deleteOk` whether the delete request succeeded. A loaded project implies a logged-in
   * user, so `user` is not optional here.
   */
  function HandleDeleteProject(project: Option<Project>, user: User, confirmed: bool, deleteOk: bool)
    : (r: DeleteOutcome)
    ensures r.NoProject? <==> project.None?
    ensures r.Refused? <==> project.Some? && !Policy.CanManageProject(Some(user), project.value)
    ensures r.Cancelled? <==> project.Some? && Policy.CanManageProject(Some(user), project.value) && !confirmed
    ensures r.Deleted? <==>
      project.Some? && Policy.CanManageProject(Some(user), project.value) && confirmed && deleteOk
  {
    if project.None? then NoProject
    else if project.value.creatorId != user.id && user.role != Admin then Refused
    else if !confirmed then Cancelled
    else if deleteOk then Deleted
    else DeleteFailed
  }

  /**
   * Everything a plain collaborator gets on this page: the project opens and the new-task
   * control is shown, but the management controls are not and a delete is refused.
   */
  lemma CollaboratorViewsButCannotManage(u: User, p: Project, confirmed: bool, deleteOk: bool)
    requires u.role != Admin && u.id != p.creatorId && u.id in p.collaborators
    ensures FetchPageData(Some(u), Some(p)) == Loaded(p)
    ensures CanCreateTask(Some(u), p) && !CanManageProject(Some(u), p)
    ensures HandleDeleteProject(Some(p), u, confirmed, deleteOk) == Refused
  {
  }

  /** On a loaded page the new-task control is always shown, and so is it whenever the management controls are. */
  lemma LoadedPageOffersTaskCreation(user: Option<User>, fetched: Option<Project>)
    ensures FetchPageData(user, fetched).Loaded? ==> CanCreateTask(user, fetched.value)
    ensures fetched.Some? && CanManageProject(user, fetched.value) ==> FetchPageData(user, fetched).Loaded?
  {
  }
}
