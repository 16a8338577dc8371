# TaskSphere access rules and list operations, in Dafny

TaskSphere is a React client for projects and tasks kept on a JSON server. It decides in
the browser who may see, manage and edit what: admins, a project's creator, and the users
listed as its collaborators. Each page checks this for itself. This model covers those
checks, the changes to the collaborator and task lists, the task list's filtering and
pagination, the form validation chains with the records the forms send, the login form,
and the session store.

Layout, one module per source file plus shared parts:

- `Wrappers`: `Option` and `Result`. `Entities`: users, projects and tasks.
- `Seqs`: `Filter`, the model of `Array.prototype.filter`. It is proved to keep exactly the
  elements that pass, in order, each as often as before.
- `Text`: `trim`, an ASCII `toLowerCase`, and `includes`.
- `Policy`: each access rule stated once. Every page's copy of a rule is proved equal to
  it, or the lemma shows where the copy differs.
- `ProjectDetailPage`, `DashboardPage`, `LoginPage`: the pages whose logic is pure, as
  functions.
- `ManageCollaboratorsPage`, `TaskFormPage`, `ProjectFormPage`, `TaskList` and
  `AuthContext`: the components whose state the source updates in place. Each is a class
  whose methods modify its fields. Their pure parts (candidate filter, validation,
  payloads, filtering, pagination) are functions with lemmas.

Modelling choices:

- Ids are naturals, and dates are integers on one time scale. "Now" is a parameter of the
  task form's validation.
- A request's answer is an argument of the operation that makes it: `None` (or a failure
  message) when the request fails.
- `window.confirm` is a boolean argument. Validity under the browser's `URL` parser is a
  predicate argument `validUrl`. The project form records its `navigate` target as the
  last destination; the other pages' navigation is not modelled (see below).
- The task form and the collaborators page hold their state only as far as the source
  lets it be reached: each class carries a `Valid()` invariant. The collaborators page
  only holds a project for a user who may manage it. The task form only proceeds for a
  logged-in user once the project's creator is known.

Two places where a page's check is weaker than the shared rule, each stated as a lemma:

- `TaskFormPage.EditAllowedWhileTaskCreatorUnknown`: when the task form does not know the
  task's creator, any user with project access may submit the edit. That happens when the
  task fetch fails, and when the task record has no `creator_id`. The form itself writes
  such a record: after a failed fetch it saves the task with `creator_id: null`
  (`TaskFormPage.SaveAfterFailedLoadDropsCreator`). A task without a creator is modelled
  as `creatorId == None`.
- `ProjectFormPage.GuardOpenWhileCreatorUnknown`: if loading the project fails, the
  project form's submit guard lets a non-manager's edit through.

## Model

| member | source | states |
|---|---|---|
| `Seqs.Filter` | src/components/organisms/TaskList.js:58 | `Array.prototype.filter`: the result is an order-preserving subsequence holding exactly the elements that pass, each with its original multiplicity |
| `Seqs.FilterFirstOf` | src/contexts/AuthContext.js:25 | the first element a filter keeps is the first element of the input that passes |
| `Text.Trim` | src/pages/TaskFormPage.js:98 | `trim` removes exactly the leading and trailing JavaScript white space and line terminators: the result is a slice of the input, has no white space at either end, and is empty iff the input is all white space |
| `Text.TrimIdempotent` | src/pages/TaskFormPage.js:130 | trimming an already trimmed string changes nothing |
| `Text.Contains` | src/components/organisms/TaskList.js:72 | `includes` holds iff the needle occurs at some position of the string |
| `Policy.AdminOverride` | src/pages/ProjectDetailPage.js:81-82 | an admin may view, manage, create tasks in and edit or delete the tasks of every project, may add any non-collaborator, and may remove anyone but the creator |
| `Policy.ManageImpliesCreateImpliesView` | src/pages/ProjectDetailPage.js:81-82 | whoever may manage a project may create tasks in it, and whoever may create tasks may view it |
| `Policy.UnauthenticatedDenied` | src/pages/ProjectDetailPage.js:20-24 | without a user every rule denies |
| `Policy.CollaboratorCannotManage` | src/pages/ProjectDetailPage.js:36-38 | a non-admin collaborator who did not create the project may view it and create tasks but not manage it |
| `Policy.CreatorNeverRemovable` | src/pages/ManageCollaboratorsPage.js:125-128 | nobody, not even an admin, may remove a project's creator |
| `Policy.CollaboratorsCannotEditEachOthersTasks` | src/components/organisms/TaskList.js:51 | a non-admin who created neither the task nor the project may not edit or delete it |
| `ProjectDetailPage.FetchPageData` | src/pages/ProjectDetailPage.js:19-50 | the page loads the project iff there is a user, the fetch succeeded and the view rule holds; otherwise the specific error and no project |
| `ProjectDetailPage.CanManageProject` | src/pages/ProjectDetailPage.js:81 | `canManageProject` equals the shared manage rule: user present and creator or admin |
| `ProjectDetailPage.CanCreateTask` | src/pages/ProjectDetailPage.js:82 | `canCreateTask` equals the shared create-task rule: creator, admin or collaborator |
| `ProjectDetailPage.HandleDeleteProject` | src/pages/ProjectDetailPage.js:57-75 | the delete is refused unless the user may manage the project; otherwise cancelled, done or failed as the dialog and the request decide |
| `ProjectDetailPage.CollaboratorViewsButCannotManage` | src/pages/ProjectDetailPage.js:36-38 | a collaborator who is not the creator gets the page and the task-creation control, but not management and not a project delete |
| `ProjectDetailPage.LoadedPageOffersTaskCreation` | src/pages/ProjectDetailPage.js:82 | whenever the page shows a project, the user may create tasks in it |
| `DashboardPage.VisibleProjects` | src/pages/DashboardPage.js:22-27 | an admin gets every project unchanged; otherwise exactly the projects the user may view, in the server's order, with multiplicities kept |
| `DashboardPage.DashboardAgreesWithDetailPage` | src/pages/DashboardPage.js:25-27 | a project is on the dashboard iff the detail page would load it for the same user |
| `DashboardPage.SearchProjects` | src/pages/DashboardPage.js:42-49 | the search keeps, in order, exactly the projects whose lower-cased name includes the lower-cased term, each as often as in the input; an empty term keeps all |
| `DashboardPage.DescriptionPreview` | src/pages/DashboardPage.js:84 | no description gives the placeholder; up to 150 characters, the description itself; longer, its first 150 characters and "...", so at most 153 |
| `LoginPage.HandleSubmit` | src/pages/LoginPage.js:24-40 | each error is reported exactly when its check is the first to fail (required, email pattern, length 6), and login is called iff all pass |
| `LoginPage.EmailLikeShape` | src/pages/LoginPage.js:29 | an email the pattern accepts has at least five characters and an `@` followed later by a `.` |
| `LoginPage.EmailPatternExamples` | src/pages/LoginPage.js:29 | the pattern accepts `ana@mail.com` and `x y@a.b` and rejects `ana@mail`, `ana @mail.com`, `@mail.com` and an ideographic space before the `@` |
| `AuthContext.Restored` | src/contexts/AuthContext.js:14-18 | on mount the stored user, when there is one, becomes the user; loading ends |
| `AuthContext.AfterLogin` | src/contexts/AuthContext.js:21-37 | login succeeds iff the lookup answers with at least one user and the first has the password; then user and stored slot are that user and it is returned; otherwise nothing changes and it fails |
| `AuthContext.LookupByEmail` | src/contexts/AuthContext.js:23 | the lookup returns exactly the registered users with that email, each as often as registered |
| `AuthContext.LoginMatchesFirstUserWithEmail` | src/contexts/AuthContext.js:24-26 | with the first user registered under the email, login succeeds iff that user's password matches, and returns that user |
| `AuthContext.LoginReturnsMatchingUser` | src/contexts/AuthContext.js:27-29 | a successful login returns a registered user with the given email and password and leaves the session authenticated |
| `AuthContext.UnknownEmailFails` | src/contexts/AuthContext.js:32 | an email nobody is registered under fails with invalid credentials and changes nothing |
| `AuthContext.LoginSurvivesReload` | src/contexts/AuthContext.js:28 | after a successful login the next mount restores the same user |
| `AuthContext.LoggedOut` | src/contexts/AuthContext.js:39-42 | logout clears the user and the stored slot |
| `AuthContext.LogoutIdempotent` | src/contexts/AuthContext.js:39-42 | logging out twice equals logging out once, and nobody is logged in after it, even after a reload |
| `AuthContext.AuthProvider.constructor` | src/contexts/AuthContext.js:9-10 | a new provider has no user, is loading, and keeps the browser's stored slot |
| `AuthContext.AuthProvider.RestoreSession` | src/contexts/AuthContext.js:12-19 | the provider's new state is `Restored` of the old |
| `AuthContext.AuthProvider.Login` | src/contexts/AuthContext.js:21-37 | the provider's new state and the result are `AfterLogin` of the old state |
| `AuthContext.AuthProvider.Logout` | src/contexts/AuthContext.js:39-42 | the provider's new state is `LoggedOut` of the old |
| `AuthContext.AuthProvider.IsAuthenticated` | src/contexts/AuthContext.js:45 | `isAuthenticated` holds iff a user is set |
| `ManageCollaboratorsPage.Candidates` | src/pages/ManageCollaboratorsPage.js:73-86 | the users offered for adding are an order-preserving subset of all users; never the creator or a collaborator; exactly those matching the search by name or email, each as often as in the user list; with an empty term, every other user; none without a project |
| `ManageCollaboratorsPage.FindUser` | src/pages/ManageCollaboratorsPage.js:107 | the user found is the first in the list with the id, and none is found iff no user has the id |
| `ManageCollaboratorsPage.RemovedList` | src/pages/ManageCollaboratorsPage.js:134 | the list after a remove has no occurrence of the id, keeps every other id in order with its multiplicity, and still holds the creator |
| `ManageCollaboratorsPage.AddGrantsViewOnly` | src/pages/ManageCollaboratorsPage.js:103 | an add appends the new id once after the old list; afterwards the added user may view the project, and nobody's view or manage right otherwise changes |
| `ManageCollaboratorsPage.CollaboratorsPage.constructor` | src/pages/ManageCollaboratorsPage.js:12-23 | the page starts loading, with no project, no users, no messages |
| `ManageCollaboratorsPage.CollaboratorsPage.FetchProjectData` | src/pages/ManageCollaboratorsPage.js:25-56 | without a user, a failed fetch or the manage right, the specific error and no new project (none at all when not authorized); otherwise the project and the details of exactly its collaborators |
| `ManageCollaboratorsPage.CollaboratorsPage.FetchAllSystemUsers` | src/pages/ManageCollaboratorsPage.js:58-66 | the user list is replaced by the answer, or an error is set and it is kept |
| `ManageCollaboratorsPage.CollaboratorsPage.SetSearchTerm` | src/pages/ManageCollaboratorsPage.js:78 | only the search term changes |
| `ManageCollaboratorsPage.CollaboratorsPage.AddExistingCollaborator` | src/pages/ManageCollaboratorsPage.js:89-118 | refused, list unchanged, without the manage right, checked before the duplicate check; a duplicate is refused; otherwise a successful write gives exactly the old list followed by the id, and the user's details and message when the user is known |
| `ManageCollaboratorsPage.CollaboratorsPage.RemoveCollaborator` | src/pages/ManageCollaboratorsPage.js:120-150 | refused without the manage right; removing the creator is always refused; declining the dialog changes nothing but the cleared messages; a confirmed successful write removes every occurrence of the id from the list and the details |
| `TaskFormPage.ProjectAccess` | src/pages/TaskFormPage.js:29-35 | access to the task form holds iff the shared view rule holds, that is iff the detail page would load the project |
| `TaskFormPage.CanEditThisTask` | src/pages/TaskFormPage.js:86-94 | false without a user, true for an admin, false while the project's creator is unknown, the shared edit rule when editing with a known task creator, true otherwise |
| `TaskFormPage.EditAgreesWithTaskList` | src/pages/TaskFormPage.js:90-91 | with both creators known the form's edit check equals the task list's delete guard |
| `TaskFormPage.EditAllowedWhileTaskCreatorUnknown` | src/pages/TaskFormPage.js:90-93 | while the form does not know the task's creator, it allows a plain member's edit that the task list refuses, whether the list sees another creator or none |
| `TaskFormPage.ValidateForm` | src/pages/TaskFormPage.js:96-117 | each error is reported exactly when its check is the first to fail: fields present, title of three, due date after now, valid URL |
| `TaskFormPage.Submission` | src/pages/TaskFormPage.js:119-141 | validation first, then the edit check; the request carries the trimmed title and URL; a create is by the user, an update keeps the task's original creator |
| `TaskFormPage.SentPayloadIsClean` | src/pages/TaskFormPage.js:129-135 | a sent payload has a trimmed title of at least three characters, a non-empty trimmed URL and a future due date |
| `TaskFormPage.ShownFormIsNeverForbidden` | src/pages/TaskFormPage.js:157 | an edit form the page renders is never refused on submit, and a valid one is sent as an update |
| `TaskFormPage.SaveAfterFailedLoadDropsCreator` | src/pages/TaskFormPage.js:139 | saving after the task failed to load stores the task with no creator; on that record the form lets every plain member who is not the project's creator edit, and the task list refuses each of them |
| `TaskFormPage.TaskFormView.constructor` | src/pages/TaskFormPage.js:13-22 | the form starts empty with status `todo`, no creators known, not proceeding |
| `TaskFormPage.TaskFormView.Initialize` | src/pages/TaskFormPage.js:44-83 | the form proceeds iff there is a user, the project was fetched and access holds; the project's creator is recorded whenever fetched; an edited task's fields and creator are loaded when fetched (no creator when the record has none), otherwise an error while still proceeding |
| `TaskFormPage.TaskFormView.SetFields` | src/pages/TaskFormPage.js:171 | only the inputs change |
| `TaskFormPage.TaskFormView.Submit` | src/pages/TaskFormPage.js:119-151 | the error set and the request sent are those of `Submission`; the request is sent only when validation and the edit check pass |
| `ProjectFormPage.ValidateProject` | src/pages/ProjectFormPage.js:48-67 | each error is reported exactly when its check is the first to fail: name and dates present, name of three, description of at most 500, end after start |
| `ProjectFormPage.Submission` | src/pages/ProjectFormPage.js:69-101 | validation first, then the creator guard; the name is trimmed and the description passed as typed; an update keeps the server's id, creator and collaborators; a create makes the user creator and sole collaborator |
| `ProjectFormPage.CreatedProjectBelongsToCreator` | src/pages/ProjectFormPage.js:92 | a created project is managed by its creator, who is its only collaborator, and its name and dates pass validation |
| `ProjectFormPage.UpdateKeepsPermissions` | src/pages/ProjectFormPage.js:89-90 | an update leaves every actor's view and manage rights on the project as they were |
| `ProjectFormPage.GuardAgreesWithPolicyAfterLoad` | src/pages/ProjectFormPage.js:73 | once the project is loaded the submit guard refuses exactly the users the manage rule refuses |
| `ProjectFormPage.GuardOpenWhileCreatorUnknown` | src/pages/ProjectFormPage.js:35-37 | after a failed load a valid edit by a non-manager is sent |
| `ProjectFormPage.ProjectFormView.constructor` | src/pages/ProjectFormPage.js:12-18 | the form starts empty, no error, creator unknown |
| `ProjectFormPage.ProjectFormView.LoadForEdit` | src/pages/ProjectFormPage.js:20-42 | when editing with a user: a non-manager gets the error and is sent to the dashboard with the form unchanged; a manager gets the project's fields and its creator recorded; a failed fetch sets an error |
| `ProjectFormPage.ProjectFormView.SetFields` | src/pages/ProjectFormPage.js:119-146 | only the inputs change |
| `ProjectFormPage.ProjectFormView.Submit` | src/pages/ProjectFormPage.js:69-101 | the error, destination and request are those of `Submission`; after a sent request, the project page or the dashboard on success, an error on failure |
| `TaskList.SliceIndex` | src/components/organisms/TaskList.js:80 | a slice position is clamped to the list, counting from the end when negative |
| `TaskList.Slice` | src/components/organisms/TaskList.js:80 | for non-negative bounds the slice is the clamped range, and it only holds elements of the list |
| `TaskList.FilterTasks` | src/components/organisms/TaskList.js:65-76 | the two filter stages keep, in order, exactly the tasks with the chosen status whose lower-cased title includes the lower-cased term; no filter and no term keep all |
| `TaskList.FilterStagesAreOneFilter` | src/components/organisms/TaskList.js:67-74 | the status stage followed by the title stage equals one filter by both tests |
| `TaskList.Paginate` | src/components/organisms/TaskList.js:78-81 | page p is the range from (p-1)*5 of at most five tasks, clipped to the list |
| `TaskList.TotalPages` | src/components/organisms/TaskList.js:83 | the page count is the ceiling of n/5: the fewest pages of five that hold n, and zero only for no tasks |
| `TaskList.EveryTaskOnExactlyOnePage` | src/components/organisms/TaskList.js:78-83 | each task is on page i/5+1, within the page count, at position i%5, and in the range of no other page |
| `TaskList.PagesArePrefix` | src/components/organisms/TaskList.js:78-81 | the first k pages put together are the list's first 5k tasks |
| `TaskList.PagesCoverList` | src/components/organisms/TaskList.js:78-83 | all pages up to the page count put together are the whole list |
| `TaskList.PageBeyondLastIsEmpty` | src/components/organisms/TaskList.js:78-83 | a page past the page count is empty |
| `TaskList.DeleteCanStrandPage` | src/components/organisms/TaskList.js:57 | deleting the only task on the last page keeps the view on a page past the new count, which is empty; from page 2 the pager is hidden too |
| `TaskList.NextPage` | src/components/organisms/TaskList.js:85-87 | next is the smaller of p+1 and the page count |
| `TaskList.PreviousPage` | src/components/organisms/TaskList.js:88-90 | previous is the larger of p-1 and 1 |
| `TaskList.CanDeleteTask` | src/components/organisms/TaskList.js:50 | the delete guard equals the shared edit-or-delete rule: admin, task creator or project creator; a task with no creator is open to the admin and the project creator only |
| `TaskList.ShowTaskControls` | src/components/organisms/TaskList.js:137 | the edit and delete controls are shown iff the delete guard would accept |
| `TaskList.ControlsMatchDeleteGuard` | src/components/organisms/TaskList.js:137 | the controls' predicate and the guard agree on every task |
| `TaskList.DeleteKeepsOthers` | src/components/organisms/TaskList.js:58 | after a delete no task has the id, every other task is kept, in order |
| `TaskList.TaskListView.Shown` | src/components/organisms/TaskList.js:78-81 | at most five tasks are shown, each in the list and passing the filters |
| `TaskList.TaskListView.constructor` | src/components/organisms/TaskList.js:10-16 | no tasks, no filters, page 1 |
| `TaskList.TaskListView.FetchProjectTasks` | src/components/organisms/TaskList.js:26-44 | the list is the answer, or empty with an error when the request fails, or empty without a project |
| `TaskList.TaskListView.DeleteTask` | src/components/organisms/TaskList.js:50-63 | refused with the list unchanged iff the guard fails; the list loses exactly the tasks with that id iff confirmed and the request succeeds |
| `TaskList.TaskListView.GoToNextPage` | src/components/organisms/TaskList.js:85-87 | the page becomes `NextPage` of the old page and page count |
| `TaskList.TaskListView.GoToPreviousPage` | src/components/organisms/TaskList.js:88-90 | the page becomes `PreviousPage` of the old page |
| `TaskList.TaskListView.SetSearchTerm` | src/components/organisms/TaskList.js:102 | a new search term resets the page to 1 |
| `TaskList.TaskListView.SetStatusFilter` | src/components/organisms/TaskList.js:107 | a new status filter resets the page to 1 |

## Left out

- The HTTP gateways (projects and tasks) and the direct user requests are network I/O. Their answers are arguments.
- The routing table, the header and the protected-route gate are UI plumbing. The collaborators page, the task form and the project form take the logged-in user as given.
- JSX rendering, `alert`, the text of error messages and of `err.message`, and `console.error` are display only. Errors are datatype values.
- `new URL(...)` is a foreign parser. It is the predicate argument `validUrl`.
- `new Date`, ISO date strings, `split('T')`, `toISOString` and `toLocaleDateString` are not modelled. Dates are integers and "now" is an argument.
- `JSON.parse`/`stringify` and local storage are not modelled. The stored user is an opaque `Option<User>`.
- `Text.Lower`: folds only ASCII letters, unlike `toLowerCase`.
- String lengths count Dafny characters, not UTF-16 code units.
- JavaScript truthiness of ids is not modelled. An id of `0` counts as known. A missing or null `creator_id` on a task is modelled, as `None`.
- Ids mixing strings and numbers under `===` are not modelled.
- A project without a `collaborators` field is modelled as one with an empty list.
- The server's `?email=` query is modelled as an exact-match filter over all users. The source puts the email into the URL without encoding it, so an address holding `&`, `#` or `+` is not looked up as typed; that is not modelled.
- `usersToAdd` is the function `UsersToAdd` of the page state, not a stored field that an effect updates.
- Async ordering, loading flags kept across awaits, and races between a check and the write are left out. Each handler runs to completion with the answers given.
- `TaskFormPage.TaskFormView.Submit`: it requires that the form may proceed (a logged-in user whose project access was checked), because the page only renders the form then.
- `ProjectFormPage.ProjectFormView.Submit`: it requires a logged-in user, because the route is protected. It does not model the `TypeError` a null user would raise.
- `navigate` after a saved task (src/pages/TaskFormPage.js:144), after a login (src/pages/LoginPage.js:41) and after a deleted project (src/pages/ProjectDetailPage.js:68) is not recorded: those operations return their outcome, and where the user is sent is left out.
- The task list's rendered user names (`usersMap`) and the image placeholder are display only.
