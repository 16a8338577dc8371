/**
 * The task list of a project page: filtering by status and title, five tasks per page,
 * page navigation, and deleting a task from the list.
 */
module TaskList {
  import opened Wrappers
  import opened Entities
  import opened Seqs
  import opened Text
  import Policy

  const ItemsPerPage := 5


  /**
   * How `Array.prototype.slice` reads a position on a sequence of length `len`: a negative
   * position counts from the end, and the result is clamped to `0..len`.
   */
  function SliceIndex(i: int, len: nat): (r: nat)
    ensures r <= len
    ensures 0 <= i ==> r == Min(i, len)
    ensures i < 0 ==> r == if len + i < 0 then 0 else len + i
  {
    if i < 0 then (if len + i < 0 then 0 else len + i)
    else if i > len then len
    else i
  }

  /** `s.slice(start, end)`. */
  function Slice<T>(s: seq<T>, start: int, end: int): (r: seq<T>)
    ensures 0 <= start <= end ==> r == s[Min(start, |s|)..Min(end, |s|)]
    ensures forall x :: x in r ==> x in s
  {
    var b, e := SliceIndex(start, |s|), SliceIndex(end, |s|);
    if b < e then s[b..e] else []
  }

  /** A task passes the status filter (when one is chosen) and the title search. */
  predicate MatchesFilters(t: Task, statusFilter: string, searchTerm: string) {
    (statusFilter == "" || t.status == statusFilter) && Contains(Lower(t.title), Lower(searchTerm))
  }

  /** The test of the status filter. */
  function HasStatus(status: string): Task -> bool {
    (t: Task) => t.status == status
  }

  /** The test of the title search: the lower-cased title includes the lower-cased term. */
  function TitleIncludes(term: string): Task -> bool {
    (t: Task) => Contains(Lower(t.title), Lower(term))
  }

  function PassesFilters(statusFilter: string, searchTerm: string): Task -> bool {
    (t: Task) => MatchesFilters(t, statusFilter, searchTerm)
  }

  /**
   * `filteredTasks`: first the status filter, when one is chosen, then the title search,
   * when a term is typed. The result keeps exactly the tasks that pass both, in order.
   */
  function FilterTasks(tasks: seq<Task>, statusFilter: string, searchTerm: string): (r: seq<Task>)
    ensures r == Filter(PassesFilters(statusFilter, searchTerm), tasks)
    ensures IsSubsequence(r, tasks)
    ensures forall t :: t in tasks ==> (t in r <==> MatchesFilters(t, statusFilter, searchTerm))
    ensures forall t :: t in r ==> t in tasks
    ensures statusFilter == "" && searchTerm == "" ==> r == tasks
  {
    var byStatus := if statusFilter != "" then Filter(HasStatus(statusFilter), tasks) else tasks;
    FilterStagesAreOneFilter(tasks, statusFilter, searchTerm);
    if searchTerm != "" then Filter(TitleIncludes(searchTerm), byStatus) else byStatus
  }

  /** The two stages of `FilterTasks` amount to one filter by `MatchesFilters`. */
  lemma FilterStagesAreOneFilter(tasks: seq<Task>, statusFilter: string, searchTerm: string)
    ensures var byStatus := if statusFilter != "" then Filter(HasStatus(statusFilter), tasks) else tasks;
      (if searchTerm != "" then Filter(TitleIncludes(searchTerm), byStatus) else byStatus)
      == Filter(PassesFilters(statusFilter, searchTerm), tasks)
  {
    var both := PassesFilters(statusFilter, searchTerm);
    if searchTerm == "" {
      forall t: Task ensures Contains(Lower(t.title), Lower(searchTerm)) {
        ContainsEmpty(Lower(t.title));
      }
    }
    if statusFilter != "" && searchTerm != "" {
      FilterFilter(HasStatus(statusFilter), TitleIncludes(searchTerm), both, tasks);
    } else if statusFilter != "" {
      FilterExt(HasStatus(statusFilter), both, tasks);
    } else if searchTerm != "" {
      FilterExt(TitleIncludes(searchTerm), both, tasks);
    } else {
      FilterAll(both, tasks);
    }
  }

  /** The index, in the filtered list, of the first task of page `page`. */
  function PageStart(page: int): int {
    (page - 1) * ItemsPerPage
  }

  /**
   * `paginatedTasks`: page `page` of `s`. For a page from 1 on it is the run of at most five
   * tasks that starts at `PageStart(page)`, cut off at the end of the list.
   */
  function Paginate<T>(s: seq<T>, page: int): (r: seq<T>)
    ensures |r| <= ItemsPerPage
    ensures forall x :: x in r ==> x in s
    ensures page >= 1 ==> r == s[Min(PageStart(page), |s|)..Min(PageStart(page) + ItemsPerPage, |s|)]
  {
    Slice(s, PageStart(page), PageStart(page) + ItemsPerPage)
  }

  /** `totalPages = Math.ceil(n / 5)`: the fewest pages of five that hold `n` tasks. */
  function TotalPages(n: nat): (r: nat)
    ensures n <= r * ItemsPerPage < n + ItemsPerPage
    ensures r == 0 <==> n == 0
  {
    (n + ItemsPerPage - 1) / ItemsPerPage
  }

  /**
   * Each task of the list is on exactly one page between 1 and the page count: on page
   * `i / 5 + 1`, at position `i % 5`, and inside the range of no other page.
   */
  lemma EveryTaskOnExactlyOnePage<T>(s: seq<T>, i: nat)
    requires i < |s|
    ensures 1 <= i / ItemsPerPage + 1 <= TotalPages(|s|)
    ensures var p := i / ItemsPerPage + 1;
      PageStart(p) <= i < PageStart(p) + |Paginate(s, p)| && Paginate(s, p)[i - PageStart(p)] == s[i]
    ensures forall q :: 1 <= q <= TotalPages(|s|) && PageStart(q) <= i < PageStart(q) + |Paginate(s, q)|
                        ==> q == i / ItemsPerPage + 1
  {
  }

  /** Pages 1 to `k`, one after the other. */
  function Pages<T>(s: seq<T>, k: nat): seq<T> {
    if k == 0 then [] else Pages(s, k - 1) + Paginate(s, k)
  }

  /** The first `k` pages are the first `5 k` tasks of the list. */
  lemma {:induction false} PagesArePrefix<T>(s: seq<T>, k: nat)
    ensures Pages(s, k) == s[..Min(k * ItemsPerPage, |s|)]
  {
    if k > 0 {
      PagesArePrefix(s, k - 1);
      var a, b := Min((k - 1) * ItemsPerPage, |s|), Min(k * ItemsPerPage, |s|);
      assert s[..a] + s[a..b] == s[..b];
    }
  }

  /** Reading every page in order gives back the whole filtered list. */
  lemma PagesCoverList<T>(s: seq<T>)
    ensures Pages(s, TotalPages(|s|)) == s
  {
    PagesArePrefix(s, TotalPages(|s|));
  }

  /** A page after the last one is empty. */
  lemma PageBeyondLastIsEmpty<T>(s: seq<T>, page: int)
    requires page > TotalPages(|s|)
    ensures Paginate(s, page) == []
  {
  }

  /**
   * A delete keeps the current page, so removing the only task on the last page leaves the
   * view on a page past the new count, which shows nothing. Off page 2 the pager, drawn only
   * for more than one page, disappears as well.
   */
  lemma DeleteCanStrandPage<T>(before: seq<T>, after: seq<T>, page: int)
    requires page >= 2 && |before| == PageStart(page) + 1 && |after| == |before| - 1
    ensures TotalPages(|before|) == page && TotalPages(|after|) == page - 1
    ensures Paginate(before, page) != [] && Paginate(after, page) == []
    ensures page == 2 ==> TotalPages(|after|) <= 1
  {
    PageBeyondLastIsEmpty(after, page);
  }

  /** `goToNextPage`: one page on, but never past the page count. */
  function NextPage(current: int, totalPages: nat): (r: int)
    ensures r <= totalPages && r <= current + 1
    ensures r == current + 1 || r == totalPages
    ensures 1 <= current <= totalPages ==> 1 <= r
  {
    if current + 1 < totalPages then current + 1 else totalPages
  }

  /** `goToPreviousPage`: one page back, but never before page 1. */
  function PreviousPage(current: int): (r: int)
    ensures r >= 1 && (r == current - 1 || r == 1)
    ensures current > 1 ==> r == current - 1
  {
    if current - 1 > 1 then current - 1 else 1
  }

  /**
   * `handleDeleteTask`'s guard: an admin, the task's creator or the project's creator.
   * The component is only rendered for a logged-in user. A task without a `creator_id`
   * has no creator any user id could equal.
   */
  function CanDeleteTask(user: User, taskCreatorId: Option<Id>, projectCreatorId: Id): (r: bool)
    ensures r <==> Policy.CanEditOrDeleteTask(Some(user), taskCreatorId, projectCreatorId)
  {
    !(user.role != Admin && taskCreatorId != Some(user.id) && user.id != projectCreatorId)
  }

  /** Whether the edit and delete controls are rendered on a task's card. */
  function ShowTaskControls(user: User, task: Task, projectCreatorId: Id): (r: bool)
    ensures r <==> CanDeleteTask(user, task.creatorId, projectCreatorId)
  {
    user.role == Admin || task.creatorId == Some(user.id) || user.id == projectCreatorId
  }

  /** What pressing a task's delete control does. */
  datatype DeleteOutcome =
    | Refused        // an alert; nothing sent
    | Cancelled      // the confirmation was declined
    | Deleted        // the task is gone from the server and from the list
    | DeleteFailed   // the request failed; an alert, the list unchanged

  /** The task list component, whose state the source updates in place. */
  class TaskListView {
    const user: User
    const projectId: Option<Id>
    const projectCreatorId: Id
    var tasks: seq<Task>
    var loadFailed: bool
    var searchTerm: string
    var statusFilter: string
    var currentPage: int

    /** The tasks that pass the current filters. */
    function Filtered(): seq<Task>
      reads this
    {
      FilterTasks(tasks, statusFilter, searchTerm)
    }

    /** The tasks rendered now. */
    function Shown(): (r: seq<Task>)
      reads this
      ensures |r| <= ItemsPerPage
      ensures forall t :: t in r ==> t in tasks && MatchesFilters(t, statusFilter, searchTerm)
    {
      Paginate(Filtered(), currentPage)
    }

    function PageCount(): nat
      reads this
    {
      TotalPages(|Filtered()|)
    }

    constructor (user: User, projectId: Option<Id>, projectCreatorId: Id)
      ensures this.user == user && this.projectId == projectId && this.projectCreatorId == projectCreatorId
      ensures tasks == [] && !loadFailed && searchTerm == "" && statusFilter == "" && currentPage == 1
    {
      this.user := user;
      this.projectId := projectId;
      this.projectCreatorId := projectCreatorId;
      tasks := [];
      loadFailed := false;
      searchTerm := "";
      statusFilter := "";
      currentPage := 1;
    }

    /**
     * `fetchProjectTasks`. `fetched` is the gateway's answer, `None` when the request failed.
     * Without a project id the list is emptied and nothing is requested.
     */
    method FetchProjectTasks(fetched: Option<seq<Task>>)
      modifies this
      ensures projectId.None? ==> tasks == [] && loadFailed == old(loadFailed)
      ensures projectId.Some? && fetched.Some? ==> tasks == fetched.value && !loadFailed
      ensures projectId.Some? && fetched.None? ==> tasks == [] && loadFailed
      ensures searchTerm == old(searchTerm) && statusFilter == old(statusFilter) && currentPage == old(currentPage)
    {
      if projectId.None? {
        tasks := [];
        return;
      }
      if fetched.Some? {
        tasks := fetched.value;
        loadFailed := false;
      } else {
        loadFailed := true;
        tasks := [];
      }
    }

    /**
     * `handleDeleteTask(taskId, taskCreatorId)`. `confirmed` is the answer to the
     * confirmation dialog and `deleteOk` whether the delete request succeeded.
     */
    method DeleteTask(taskId: Id, taskCreatorId: Option<Id>, confirmed: bool, deleteOk: bool)
      returns (outcome: DeleteOutcome)
      modifies this
      ensures outcome == Refused <==> !CanDeleteTask(user, taskCreatorId, projectCreatorId)
      ensures outcome == Deleted <==> CanDeleteTask(user, taskCreatorId, projectCreatorId) && confirmed && deleteOk
      ensures outcome == Cancelled <==> CanDeleteTask(user, taskCreatorId, projectCreatorId) && !confirmed
      ensures tasks == if outcome == Deleted then Filter((t: Task) => t.id != taskId, old(tasks)) else old(tasks)
      ensures loadFailed == old(loadFailed) && searchTerm == old(searchTerm)
      ensures statusFilter == old(statusFilter) && currentPage == old(currentPage)
    {
      if user.role != Admin && taskCreatorId != Some(user.id) && user.id != projectCreatorId {
        return Refused;
      }
      if !confirmed {
        return Cancelled;
      }
      if deleteOk {
        tasks := Filter((t: Task) => t.id != taskId, tasks);
        outcome := Deleted;
      } else {
        outcome := DeleteFailed;
      }
    }

    method GoToNextPage()
      modifies this
      ensures currentPage == NextPage(old(currentPage), old(PageCount()))
      ensures tasks == old(tasks) && searchTerm == old(searchTerm) && statusFilter == old(statusFilter)
      ensures loadFailed == old(loadFailed)
    {
      currentPage := NextPage(currentPage, PageCount());
    }

    method GoToPreviousPage()
      modifies this
      ensures currentPage == PreviousPage(old(currentPage))
      ensures tasks == old(tasks) && searchTerm == old(searchTerm) && statusFilter == old(statusFilter)
      ensures loadFailed == old(loadFailed)
    {
      currentPage := PreviousPage(currentPage);
    }

    /** Typing in the search box: a new term, and back to page 1. */
    method SetSearchTerm(term: string)
      modifies this
      ensures searchTerm == term && currentPage == 1
      ensures tasks == old(tasks) && statusFilter == old(statusFilter) && loadFailed == old(loadFailed)
    {
      searchTerm := term;
      currentPage := 1;
    }

    /** Choosing a status: a new filter, and back to page 1. */
    method SetStatusFilter(status: string)
      modifies this
      ensures statusFilter == status && currentPage == 1
      ensures tasks == old(tasks) && searchTerm == old(searchTerm) && loadFailed == old(loadFailed)
    {
      statusFilter := status;
      currentPage := 1;
    }
  }

  /** The controls on a card are shown to exactly the users whose delete would be accepted. */
  lemma ControlsMatchDeleteGuard(user: User, task: Task, projectCreatorId: Id)
    ensures ShowTaskControls(user, task, projectCreatorId) <==> CanDeleteTask(user, task.creatorId, projectCreatorId)
  {
  }

  /** Deleting removes every task with that id and keeps every other task, in order. */
  lemma DeleteKeepsOthers(tasks: seq<Task>, taskId: Id)
    ensures var after := Filter((t: Task) => t.id != taskId, tasks);
      IsSubsequence(after, tasks)
      && (forall t :: t in after ==> t.id != taskId)
      && (forall t :: t in tasks && t.id != taskId ==> t in after)
  {
  }
}
