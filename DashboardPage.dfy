/**
 * The dashboard: which projects a user is shown, the search by name, and the short
 * description shown on each project card.
 */
module DashboardPage {
  import opened Wrappers
  import opened Entities
  import opened Seqs
  import opened Text
  import Policy
  import ProjectDetailPage

  /**
   * The projects listed for `user`, out of every project the gateway returned: all of
   * them for an admin, otherwise the ones the user created or collaborates on, in the
   * gateway's order.
   */
  function VisibleProjects(user: User, all: seq<Project>): (r: seq<Project>)
    ensures IsSubsequence(r, all)
    ensures user.role == Admin ==> r == all
    ensures forall p :: p in all ==> (p in r <==> Policy.CanViewProject(Some(user), p))
    ensures forall p :: p in all ==>
      multiset(r)[p] == if Policy.CanViewProject(Some(user), p) then multiset(all)[p] else 0
  {
    if user.role == Admin then
      SubsequenceRefl(all);
      all
    else
      Filter((p: Project) => p.creatorId == user.id || user.id in p.collaborators, all)
  }

  /**
   * A project is on a user's dashboard exactly when the detail page would let the user
   * open it: the two pages apply the same rule.
   */
  lemma DashboardAgreesWithDetailPage(user: User, all: seq<Project>, p: Project)
    requires p in all
    ensures p in VisibleProjects(user, all) <==> ProjectDetailPage.FetchPageData(Some(user), Some(p)).Loaded?
  {
  }

  /** `displayedProjects`: the projects whose lower-cased name includes the lower-cased term. */
  function SearchProjects(projects: seq<Project>, term: string): (r: seq<Project>)
    ensures IsSubsequence(r, projects)
    ensures term == "" ==> r == projects
    ensures forall p :: p in projects ==> (p in r <==> Contains(Lower(p.name), Lower(term)))
    ensures forall p :: p in projects ==>
      multiset(r)[p] == if Contains(Lower(p.name), Lower(term)) then multiset(projects)[p] else 0
  {
    if term == "" then
      SubsequenceRefl(projects);
      forall p | p in projects ensures Contains(Lower(p.name), Lower(term)) {
        ContainsEmpty(Lower(p.name));
      }
      projects
    else
      Filter((p: Project) => Contains(Lower(p.name), Lower(term)), projects)
  }

  /** The number of characters of a description shown on a project card. */
  const PreviewLength := 150

  /**
   * The description shown on a project card: a placeholder when there is none, the whole
   * description when it is short, otherwise its first 150 characters and an ellipsis.
   */
  function DescriptionPreview(description: string): (r: string)
    ensures description == "" ==> r == "Sem descrição."
    ensures 0 < |description| <= PreviewLength ==> r == description
    ensures |description| > PreviewLength ==> r == description[..PreviewLength] + "..."
    ensures description != "" ==> |r| <= PreviewLength + 3 && r[..Min(|description|, PreviewLength)] <= description
  {
    if description == "" then "Sem descrição."
    else
      description[..Min(|description|, PreviewLength)]
      + (if |description| > PreviewLength then "..." else "")
  }

}
