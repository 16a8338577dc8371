/**
 * The authorization rules of TaskSphere, each stated once. The pages re-implement these
 * rules inline; the page modules prove where their copies agree with the rules below and
 * exhibit where they do not. An absent actor (`None`) is a visitor who is not logged in.
 */
module Policy {
  import opened Wrappers
  import opened Entities

  predicate IsAdmin(actor: Option<User>) {
    actor.Some? && actor.value.role == Admin
  }

  predicate IsCreator(actor: Option<User>, p: Project) {
    actor.Some? && actor.value.id == p.creatorId
  }

  predicate IsCollaborator(actor: Option<User>, p: Project) {
    actor.Some? && actor.value.id in p.collaborators
  }

  /** Who may open a project: an admin, its creator, or one of its collaborators. */
  predicate CanViewProject(actor: Option<User>, p: Project) {
    IsAdmin(actor) || IsCreator(actor, p) || IsCollaborator(actor, p)
  }

  /** Who may edit or delete a project and manage its collaborators: an admin or its creator. */
  predicate CanManageProject(actor: Option<User>, p: Project) {
    IsAdmin(actor) || IsCreator(actor, p)
  }

  /** Who may create tasks in a project: exactly those who may view it. */
  predicate CanCreateTask(actor: Option<User>, p: Project) {
    CanViewProject(actor, p)
  }

  /**
   * Who may edit or delete a task: an admin, the task's creator, or the creator of the
   * task's project. Being a collaborator on the project is not enough. A task with no
   * recorded creator is open only to the admin and the project's creator.
   */
  predicate CanEditOrDeleteTask(actor: Option<User>, taskCreatorId: Option<Id>, projectCreatorId: Id) {
    actor.Some? &&
    (actor.value.role == Admin || taskCreatorId == Some(actor.value.id) || actor.value.id == projectCreatorId)
  }

  /** A manager may add a user who is not yet a collaborator. */
  predicate CanAddCollaborator(actor: Option<User>, p: Project, candidate: Id) {
    CanManageProject(actor, p) && candidate !in p.collaborators
  }

  /** A manager may remove any collaborator except the project's creator. */
  predicate CanRemoveCollaborator(actor: Option<User>, p: Project, target: Id) {
    CanManageProject(actor, p) && target != p.creatorId
  }

  /** The admin role overrides every ownership test. */
  lemma AdminOverride(u: User, p: Project, taskCreatorId: Option<Id>, other: Id)
    requires u.role == Admin
    ensures CanViewProject(Some(u), p) && CanManageProject(Some(u), p) && CanCreateTask(Some(u), p)
    ensures CanEditOrDeleteTask(Some(u), taskCreatorId, p.creatorId)
    ensures other !in p.collaborators ==> CanAddCollaborator(Some(u), p, other)
    ensures other != p.creatorId ==> CanRemoveCollaborator(Some(u), p, other)
  {
  }

  /** Managing a project implies creating tasks in it, which implies viewing it. */
  lemma ManageImpliesCreateImpliesView(actor: Option<User>, p: Project)
    ensures CanManageProject(actor, p) ==> CanCreateTask(actor, p)
    ensures CanCreateTask(actor, p) <==> CanViewProject(actor, p)
  {
  }

  /** A visitor who is not logged in passes no check. */
  lemma UnauthenticatedDenied(p: Project, taskCreatorId: Option<Id>, projectCreatorId: Id, other: Id)
    ensures !CanViewProject(None, p) && !CanManageProject(None, p) && !CanCreateTask(None, p)
    ensures !CanEditOrDeleteTask(None, taskCreatorId, projectCreatorId)
    ensures !CanAddCollaborator(None, p, other) && !CanRemoveCollaborator(None, p, other)
  {
  }

  /** A collaborator who is neither admin nor creator may view and create tasks, not manage. */
  lemma CollaboratorCannotManage(u: User, p: Project)
    requires u.role != Admin && u.id != p.creatorId && u.id in p.collaborators
    ensures CanViewProject(Some(u), p) && CanCreateTask(Some(u), p)
    ensures !CanManageProject(Some(u), p)
  {
  }

  /** The creator can never be removed, not even by an admin. */
  lemma CreatorNeverRemovable(actor: Option<User>, p: Project)
    ensures !CanRemoveCollaborator(actor, p, p.creatorId)
  {
  }

  /**
   * A plain collaborator may edit or delete only the tasks they created: another
   * collaborator's task in the same project is out of their reach.
   */
  lemma CollaboratorsCannotEditEachOthersTasks(u: User, p: Project, taskCreatorId: Option<Id>)
    requires u.role != Admin && u.id != p.creatorId && u.id in p.collaborators
    ensures CanEditOrDeleteTask(Some(u), taskCreatorId, p.creatorId) <==> taskCreatorId == Some(u.id)
  {
  }
}
