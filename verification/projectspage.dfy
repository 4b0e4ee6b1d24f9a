/** The projects page: the search box over the project list and the row
    actions, which the server's own project does not get. */
module ProjectsPage {
  import opened Wrappers
  import opened Strs
  import opened Models
  import LogLists

  /** The name the server gives its own project. */
  const SystemProjectName: string := "Logger Core"

  /** One of the fields is present and, lower-cased, contains `term`. */
  predicate Matches(p: Project, term: string) {
    Contains(Lower(p.name), term)
    || (p.description.Some? && Contains(Lower(p.description.value), term))
    || Contains(Lower(p.uuid), term)
  }

  /** `filteredProjects`: the loaded projects (none while loading) whose
      name, description or uuid contains the lower-cased search text. */
  function Search(projects: Option<seq<Project>>, search: string): (r: seq<Project>)
    ensures forall p :: p in r <==> p in projects.GetOr([]) && Matches(p, Lower(search))
    ensures |r| <= |projects.GetOr([])|
  {
    LogLists.Keep(projects.GetOr([]), (p: Project) => Matches(p, Lower(search)))
  }

  /** An empty search shows every project, in order. */
  lemma EmptySearchShowsAll(projects: Option<seq<Project>>)
    ensures Search(projects, "") == projects.GetOr([])
  {
    forall p: Project ensures Matches(p, Lower("")) {
      ContainsEmpty(Lower(p.name));
    }
    LogLists.KeepAll(projects.GetOr([]), (p: Project) => Matches(p, Lower("")));
  }

  /** Whatever contains `a + b` contains `a`. */
  lemma ContainsPrefix(s: string, a: string, b: string)
    requires Contains(s, a + b)
    ensures Contains(s, a)
  {
    ContainsAt(s, a + b);
    var k :| 0 <= k <= |s| && StartsWith(s[k..], a + b);
    assert s[k..][..|a|] == (a + b)[..|a|];
    ContainsAt(s, a);
  }

  lemma LowerAppend(a: string, b: string)
    ensures Lower(a + b) == Lower(a) + Lower(b)
  {
  }

  /** A project matching a longer search text matches its start. */
  lemma MatchesShorter(p: Project, search: string, more: string)
    requires Matches(p, Lower(search + more))
    ensures Matches(p, Lower(search))
  {
    LowerAppend(search, more);
    if Contains(Lower(p.name), Lower(search + more)) {
      ContainsPrefix(Lower(p.name), Lower(search), Lower(more));
    } else if p.description.Some? && Contains(Lower(p.description.value), Lower(search + more)) {
      ContainsPrefix(Lower(p.description.value), Lower(search), Lower(more));
    } else {
      ContainsPrefix(Lower(p.uuid), Lower(search), Lower(more));
    }
  }

  /** Typing more characters only narrows the list: the result for the
      longer text is a selection from the result for the shorter one. */
  lemma TypingNarrows(projects: Option<seq<Project>>, search: string, more: string)
    ensures Search(projects, search + more) == LogLists.Keep(Search(projects, search), (p: Project) => Matches(p, Lower(search + more)))
  {
    var longer := (p: Project) => Matches(p, Lower(search + more));
    var shorter := (p: Project) => Matches(p, Lower(search));
    forall p: Project | longer(p) ensures shorter(p) {
      MatchesShorter(p, search, more);
    }
    LogLists.KeepKeep(projects.GetOr([]), longer, shorter);
  }

  /** A string contains itself. */
  lemma ContainsSelf(s: string)
    ensures Contains(s, s)
  {
    assert s[..|s|] == s;
  }

  /** Searching for a project's uuid, in any letter case, finds it. */
  lemma UuidFindsProject(projects: seq<Project>, k: nat, search: string)
    requires k < |projects| && Lower(search) == Lower(projects[k].uuid)
    ensures projects[k] in Search(Some(projects), search)
  {
    ContainsSelf(Lower(projects[k].uuid));
  }

  datatype Action = CopyUuid | OpenLogs | Edit | Delete | OpenPing

  /** The buttons of a project's row. */
  function Actions(p: Project): (r: set<Action>)
    ensures CopyUuid in r && OpenLogs in r
    ensures Edit in r <==> p.name != SystemProjectName
    ensures Delete in r <==> p.name != SystemProjectName
    ensures OpenPing in r <==> p.name != SystemProjectName
  {
    {CopyUuid, OpenLogs} + (if p.name != SystemProjectName then {Edit, Delete, OpenPing} else {})
  }

  /** Where a row action leads. */
  function Target(p: Project, a: Action): (r: Option<string>)
    ensures r.Some? <==> a != CopyUuid && a != Delete
    ensures a == OpenLogs ==> r == Some("/logs?uuid=" + p.uuid)
  {
    match a
    case OpenLogs => Some("/logs?uuid=" + p.uuid)
    case Edit => Some("/projects/" + p.uuid + "/edit")
    case OpenPing => Some("/ping-services?uuid=" + p.uuid)
    case _ => None
  }

  /** The server's project can be viewed but never edited or deleted from
      this page. */
  lemma SystemProjectReadOnly(p: Project)
    requires p.name == SystemProjectName
    ensures Actions(p) == {CopyUuid, OpenLogs}
  {
  }
}
