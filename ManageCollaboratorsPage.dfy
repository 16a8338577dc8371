/**
 * The page on which a project's manager adds existing users as collaborators and removes
 * them: the load check, the two handlers, and the list of users offered for adding.
 */
module ManageCollaboratorsPage {
  import opened Wrappers
  import opened Entities
  import opened Seqs
  import opened Text
  import Policy

  /** The tests the page filters with. */
  function NotId(id: Id): Id -> bool {
    (x: Id) => x != id
  }

  function UserNotId(id: Id): User -> bool {
    (u: User) => u.id != id
  }

  function UserHasId(id: Id): User -> bool {
    (u: User) => u.id == id
  }

  function ListedIn(ids: seq<Id>): User -> bool {
    (u: User) => u.id in ids
  }

  /**
   * A user offered for adding: neither the project's creator nor already a collaborator,
   * and, when a search term is typed, with a lower-cased name or email that includes it.
   */
  predicate IsCandidate(u: User, p: Project, searchTerm: string) {
    u.id != p.creatorId
    && u.id !in p.collaborators
    && (searchTerm == ""
        || Contains(Lower(u.name), Lower(searchTerm))
        || Contains(Lower(u.email), Lower(searchTerm)))
  }

  function CandidateTest(p: Project, searchTerm: string): User -> bool {
    (u: User) => IsCandidate(u, p, searchTerm)
  }

  /**
   * `usersToAdd`: the system users a manager may add, in the order of the user list;
   * nobody while no project is loaded.
   */
  function Candidates(project: Option<Project>, allSystemUsers: seq<User>, searchTerm: string): (r: seq<User>)
    ensures IsSubsequence(r, allSystemUsers)
    ensures project.None? ==> r == []
    ensures project.Some? ==>
      forall u :: u in r ==> u.id != project.value.creatorId && u.id !in project.value.collaborators
    ensures project.Some? ==>
      forall u :: u in allSystemUsers ==> (u in r <==> IsCandidate(u, project.value, searchTerm))
    ensures project.Some? ==>
      forall u :: u in allSystemUsers ==>
        multiset(r)[u] == if IsCandidate(u, project.value, searchTerm) then multiset(allSystemUsers)[u] else 0
    ensures project.Some? && searchTerm == "" ==>
      forall u :: u in allSystemUsers ==>
        (u in r <==> u.id != project.value.creatorId && u.id !in project.value.collaborators)
  {
    if project.Some? && |allSystemUsers| > 0 then
      Filter(CandidateTest(project.value, searchTerm), allSystemUsers)
    else
      []
  }

  /** `allSystemUsers.find(u => u.id === id)`: the first user with that id. */
  function FindUser(users: seq<User>, id: Id): (r: Option<User>)
    ensures r.Some? ==>
      r.value.id == id
      && exists i :: 0 <= i < |users| && users[i] == r.value && forall j :: 0 <= j < i ==> users[j].id != id
    ensures r.None? <==> forall u :: u in users ==> u.id != id
    decreases |users|
  {
    if users == [] then None
    else if users[0].id == id then
      Some(users[0])
    else
      var rest := FindUser(users[1..], id);
      assert users == [users[0]] + users[1..];
      if rest.Some? then
        var i :| 0 <= i < |users[1..]| && users[1..][i] == rest.value
                 && forall j :: 0 <= j < i ==> users[1..][j].id != id;
        assert users[i + 1] == rest.value;
        assert forall j :: 0 <= j < i + 1 ==> users[j].id != id by {
          forall j | 0 <= j < i + 1 ensures users[j].id != id {
            if j > 0 {
              assert users[j] == users[1..][j - 1];
            }
          }
        }
        rest
      else
        rest
  }

  /**
   * The collaborator list after removing `id`: every occurrence of `id` is gone and every
   * other id is kept, in order; the project's creator, never a target, stays.
   */
  lemma RemovedList(collaborators: seq<Id>, id: Id, creatorId: Id)
    requires id != creatorId
    ensures var after := Filter(NotId(id), collaborators);
      IsSubsequence(after, collaborators)
      && id !in after
      && (forall x :: x in collaborators && x != id ==> x in after && multiset(after)[x] == multiset(collaborators)[x])
      && (creatorId in collaborators ==> creatorId in after)
  {
  }

  /** The errors the page shows. */
  datatype PageError =
    | NotAuthenticated      // no user logged in
    | NotAuthorized         // the user may not manage this project's collaborators
    | LoadFailed            // the project, or the users for the collaborator details, could not be fetched
    | UsersUnavailable      // the list of all system users could not be fetched
    | OnlyManagerMayAdd
    | AlreadyCollaborator
    | AddFailed(reason: string)
    | OnlyManagerMayRemove
    | CreatorNotRemovable
    | RemoveFailed(reason: string)

  /** The success messages the page shows. */
  datatype Notice = Added(name: string) | Removed

  /** The page's state, which the handlers update in place. */
  class CollaboratorsPage {
    const user: Option<User>
    var project: Option<Project>
    /** `currentCollaboratorsDetails`: the user records of the collaborators. */
    var details: seq<User>
    var allSystemUsers: seq<User>
    var searchTerm: string
    var loading: bool
    var actionLoading: bool
    var error: Option<PageError>
    var notice: Option<Notice>

    /** A project is only ever held for a user who may manage it. */
    predicate Valid()
      reads this
    {
      project.Some? ==> Policy.CanManageProject(user, project.value)
    }

    /** The users offered for adding, as the page's effect recomputes them. */
    function UsersToAdd(): seq<User>
      reads this
    {
      Candidates(project, allSystemUsers, searchTerm)
    }

    constructor (user: Option<User>)
      ensures Valid() && this.user == user
      ensures project.None? && details == [] && allSystemUsers == [] && searchTerm == ""
      ensures loading && !actionLoading && error.None? && notice.None?
    {
      this.user := user;
      project := None;
      details := [];
      allSystemUsers := [];
      searchTerm := "";
      loading := true;
      actionLoading := false;
      error := None;
      notice := None;
    }

    /**
     * `fetchProjectData`. `fetched` is the project, `None` when its request failed; `users`
     * the user list for the collaborator details, `None` when that request failed.
     */
    method FetchProjectData(fetched: Option<Project>, users: Option<seq<User>>)
      requires Valid()
      modifies this
      ensures Valid() && !loading
      ensures user.None? ==> error == Some(NotAuthenticated) && project == old(project) && details == old(details)
      ensures user.Some? && fetched.None? ==>
        error == Some(LoadFailed) && project == old(project) && details == old(details)
      ensures user.Some? && fetched.Some? && !Policy.CanManageProject(user, fetched.value) ==>
        error == Some(NotAuthorized) && project.None? && details == old(details)
      ensures user.Some? && fetched.Some? && Policy.CanManageProject(user, fetched.value) ==>
        project == fetched
        && (fetched.value.collaborators == [] ==> details == [] && error.None?)
        && (fetched.value.collaborators != [] && users.Some? ==>
              details == Filter(ListedIn(fetched.value.collaborators), users.value) && error.None?)
        && (fetched.value.collaborators != [] && users.None? ==>
              details == old(details) && error == Some(LoadFailed))
      ensures allSystemUsers == old(allSystemUsers) && searchTerm == old(searchTerm)
      ensures actionLoading == old(actionLoading) && notice == old(notice)
    {
      if user.None? {
        loading := false;
        error := Some(NotAuthenticated);
        return;
      }
      loading := true;
      if fetched.None? {
        error := Some(LoadFailed);
        loading := false;
        return;
      }
      var projectData := fetched.value;
      if projectData.creatorId != user.value.id && user.value.role != Admin {
        error := Some(NotAuthorized);
        project := None;
        loading := false;
        return;
      }
      project := Some(projectData);
      if |projectData.collaborators| > 0 {
        if users.None? {
          error := Some(LoadFailed);
          loading := false;
          return;
        }
        details := Filter(ListedIn(projectData.collaborators), users.value);
      } else {
        details := [];
      }
      error := None;
      loading := false;
    }

    /** `fetchAllSystemUsers`: `users` is `None` when the request failed. */
    method FetchAllSystemUsers(users: Option<seq<User>>)
      requires Valid()
      modifies this
      ensures Valid()
      ensures users.Some? ==> allSystemUsers == users.value && error == old(error)
      ensures users.None? ==> allSystemUsers == old(allSystemUsers) && error == Some(UsersUnavailable)
      ensures project == old(project) && details == old(details) && searchTerm == old(searchTerm)
      ensures loading == old(loading) && actionLoading == old(actionLoading) && notice == old(notice)
    {
      if users.Some? {
        allSystemUsers := users.value;
      } else {
        error := Some(UsersUnavailable);
      }
    }

    /** Typing in the search box. */
    method SetSearchTerm(term: string)
      requires Valid()
      modifies this
      ensures Valid() && searchTerm == term
      ensures project == old(project) && details == old(details) && allSystemUsers == old(allSystemUsers)
      ensures loading == old(loading) && actionLoading == old(actionLoading)
      ensures error == old(error) && notice == old(notice)
    {
      searchTerm := term;
    }

    /**
     * `handleAddExistingCollaborator(id)`. The permission check comes before the duplicate
     * check. `failure` is the message of the error thrown by the update request, `None`
     * when it succeeded.
     */
    method AddExistingCollaborator(id: Id, failure: Option<string>)
      requires Valid()
      modifies this
      ensures Valid()
      ensures old(project).None? || !Policy.CanManageProject(user, old(project).value) ==>
        error == Some(OnlyManagerMayAdd) && project == old(project) && details == old(details)
        && notice == old(notice) && actionLoading == old(actionLoading)
      ensures old(project).Some? && Policy.CanManageProject(user, old(project).value)
              && id in old(project).value.collaborators ==>
        error == Some(AlreadyCollaborator) && project == old(project) && details == old(details)
        && notice == old(notice) && actionLoading == old(actionLoading)
      ensures old(project).Some? && Policy.CanAddCollaborator(user, old(project).value, id) ==>
        !actionLoading
        && (failure.Some? ==>
              error == Some(AddFailed(failure.value)) && project == old(project)
              && details == old(details) && notice.None?)
        && (failure.None? ==>
              error.None?
              && project == Some(old(project).value.(collaborators := old(project).value.collaborators + [id]))
              && (FindUser(allSystemUsers, id).Some? ==>
                    details == old(details) + [FindUser(allSystemUsers, id).value]
                    && notice == Some(Added(FindUser(allSystemUsers, id).value.name)))
              && (FindUser(allSystemUsers, id).None? ==> details == old(details) && notice.None?))
      ensures allSystemUsers == old(allSystemUsers) && searchTerm == old(searchTerm) && loading == old(loading)
    {
      if project.None? || (user.value.id != project.value.creatorId && user.value.role != Admin) {
        error := Some(OnlyManagerMayAdd);
        return;
      }
      if id in project.value.collaborators {
        error := Some(AlreadyCollaborator);
        return;
      }
      actionLoading := true;
      notice := None;
      error := None;
      var updatedCollaborators := project.value.collaborators + [id];
      if failure.None? {
        project := Some(project.value.(collaborators := updatedCollaborators));
        var addedUser := FindUser(allSystemUsers, id);
        if addedUser.Some? {
          details := details + [addedUser.value];
          notice := Some(Added(addedUser.value.name));
        }
      } else {
        error := Some(AddFailed(failure.value));
      }
      actionLoading := false;
    }

    /**
     * `handleRemoveCollaborator(id)`. `confirmed` is the answer to the confirmation dialog;
     * `failure` the message of the error thrown by the update request, `None` when it
     * succeeded. The messages are cleared before the dialog is shown.
     */
    method RemoveCollaborator(id: Id, confirmed: bool, failure: Option<string>)
      requires Valid()
      modifies this
      ensures Valid()
      ensures old(project).None? || !Policy.CanManageProject(user, old(project).value) ==>
        error == Some(OnlyManagerMayRemove) && project == old(project) && details == old(details)
        && notice == old(notice) && actionLoading == old(actionLoading)
      ensures old(project).Some? && Policy.CanManageProject(user, old(project).value)
              && id == old(project).value.creatorId ==>
        error == Some(CreatorNotRemovable) && project == old(project) && details == old(details)
        && notice == old(notice) && actionLoading == old(actionLoading)
      ensures old(project).Some? && Policy.CanRemoveCollaborator(user, old(project).value, id) ==>
        !actionLoading
        && (!confirmed ==> error.None? && notice.None? && project == old(project) && details == old(details))
        && (confirmed && failure.Some? ==>
              error == Some(RemoveFailed(failure.value)) && notice.None?
              && project == old(project) && details == old(details))
        && (confirmed && failure.None? ==>
              error.None? && notice == Some(Removed)
              && project == Some(old(project).value.(collaborators := Filter(NotId(id), old(project).value.collaborators)))
              && details == Filter(UserNotId(id), old(details)))
      ensures allSystemUsers == old(allSystemUsers) && searchTerm == old(searchTerm) && loading == old(loading)
    {
      if project.None? || (user.value.id != project.value.creatorId && user.value.role != Admin) {
        error := Some(OnlyManagerMayRemove);
        return;
      }
      if id == project.value.creatorId {
        error := Some(CreatorNotRemovable);
        return;
      }
      actionLoading := true;
      notice := None;
      error := None;
      if confirmed {
        var updatedCollaborators := Filter(NotId(id), project.value.collaborators);
        if failure.None? {
          project := Some(project.value.(collaborators := updatedCollaborators));
          details := Filter(UserNotId(id), details);
          notice := Some(Removed);
        } else {
          error := Some(RemoveFailed(failure.value));
        }
        actionLoading := false;
      } else {
        actionLoading := false;
      }
    }
  }

  /**
   * A successful add appends the new id once, after the old list, and changes permissions
   * only by letting the added user view the project: who may manage it stays the same.
   */
  lemma AddGrantsViewOnly(p: Project, id: Id, actor: Option<User>)
    requires id !in p.collaborators
    ensures var q := p.(collaborators := p.collaborators + [id]);
      q.collaborators[..|p.collaborators|] == p.collaborators && multiset(q.collaborators)[id] == 1
      && (Policy.CanManageProject(actor, q) <==> Policy.CanManageProject(actor, p))
      && (Policy.CanViewProject(actor, q) <==> Policy.CanViewProject(actor, p) || (actor.Some? && actor.value.id == id))
  {
  }
}
