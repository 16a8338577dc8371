/**
 * The records TaskSphere reads from its mock JSON server: users, projects and tasks.
 * Dates are integers on one time scale (the source keeps ISO date strings).
 */
module Entities {
  import opened Wrappers

  /** A record id of the JSON server. */
  type Id = nat

  /** `user.role`: only the value `'admin'` is ever tested for. */
  datatype Role = Admin | Member

  /** A record of the `/users` endpoint. The password is stored and compared in plain text. */
  datatype User = User(id: Id, name: string, email: string, password: string, role: Role)

  /**
   * A record of the `/projects` endpoint. `collaborators` is the list of user ids given
   * access; its order is the order in which they were added.
   */
  datatype Project = Project(
    id: Id,
    name: string,
    description: string,
    startDate: int,
    endDate: int,
    creatorId: Id,
    collaborators: seq<Id>)

  /**
   * A record of the `/tasks` endpoint. `creatorId` is `None` for a record stored without a
   * `creator_id`, as the task form writes after it could not load the task it edits.
   */
  datatype Task = Task(
    id: Id,
    projectId: Id,
    title: string,
    status: string,
    dueDate: int,
    imageUrl: string,
    creatorId: Option<Id>)
}
