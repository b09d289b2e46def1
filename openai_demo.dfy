/** The OpenAI function-calling demo client: its keyword rule for semantic
    search, the function-name dispatch of `call_mcp_function`, and the
    in-memory project filter of its `search_projects` branch. */
module OpenAIDemo {
  import opened Wrappers
  import opened Seqs
  import opened Text
  import opened Catalog

  // ---------------------------------------------------------------------
  // `get_semantic_search_params`
  // ---------------------------------------------------------------------

  const NeuroTerms: seq<string> := ["neuroscience", "brain", "neural", "neuro"]
  const MlTerms: seq<string> := ["machine learning", "ml", "deep learning"]
  const VisionTerms: seq<string> := ["computer vision", "image", "visual"]
  const NlpTerms: seq<string> := ["nlp", "natural language", "language processing"]

  /** The first rule whose terms occur in the lowercased query gives a tag;
      when none does, the query itself, not lowercased, is the name. */
  function SemanticSearchParams(query: string): SearchParams {
    var q := Lower(query);
    if ContainsAny(q, NeuroTerms) then ByTag("neurodata25")
    else if ContainsAny(q, MlTerms) then ByTag("brainml")
    else if ContainsAny(q, VisionTerms) then ByTag("image-classification")
    else if ContainsAny(q, NlpTerms) then ByTag("natural-language-processing")
    else ByName(query)
  }

  /** Each outcome, with the exact condition under which it is chosen: a
      rule wins only when every earlier rule fails. */
  lemma SemanticFirstMatch(query: string)
    ensures var q := Lower(query); var r := SemanticSearchParams(query);
      && (r == ByTag("neurodata25") <==> ContainsAny(q, NeuroTerms))
      && (r == ByTag("brainml") <==> !ContainsAny(q, NeuroTerms) && ContainsAny(q, MlTerms))
      && (r == ByTag("image-classification") <==>
            !ContainsAny(q, NeuroTerms) && !ContainsAny(q, MlTerms) && ContainsAny(q, VisionTerms))
      && (r == ByTag("natural-language-processing") <==>
            !ContainsAny(q, NeuroTerms) && !ContainsAny(q, MlTerms) && !ContainsAny(q, VisionTerms)
            && ContainsAny(q, NlpTerms))
      && (r.ByName? <==>
            !ContainsAny(q, NeuroTerms) && !ContainsAny(q, MlTerms) && !ContainsAny(q, VisionTerms)
            && !ContainsAny(q, NlpTerms))
      && (r.ByName? ==> r.name == query)
  {
  }

  /** Queries that differ only in letter case get the same tag; when no
      rule matches, each keeps its own spelling as the name. */
  lemma SemanticCaseInsensitive(a: string, b: string)
    requires Lower(a) == Lower(b)
    ensures SemanticSearchParams(a).ByTag? ==> SemanticSearchParams(a) == SemanticSearchParams(b)
    ensures SemanticSearchParams(a).ByName? ==> SemanticSearchParams(b) == ByName(b)
  {
  }

  /** Every query mentioning "neural", such as "neural networks", is a
      neuroscience query: that rule comes first. */
  lemma NeuralIsNeuroscience(query: string)
    requires Contains(Lower(query), "neural")
    ensures SemanticSearchParams(query) == ByTag("neurodata25")
  {
    assert Contains(Lower(query), NeuroTerms[2]);
  }

  // ---------------------------------------------------------------------
  // The dispatch of `call_mcp_function`
  // ---------------------------------------------------------------------

  /** The function names both maps list, in their order. */
  const FunctionNames: seq<string> := [
    "list_resources", "get_resource", "search_resources", "create_dataset",
    "create_notebook", "create_repository", "create_model", "list_projects",
    "create_project", "search_projects", "start_project_session", "list_sessions",
    "get_all_tags"]

  const EndpointMap: map<string, string> := map[
    "list_resources" := "/resources",
    "get_resource" := "/resources/{resource_id}",
    "search_resources" := "/resources",
    "create_dataset" := "/resources/dataset",
    "create_notebook" := "/resources/notebook",
    "create_repository" := "/resources/repository",
    "create_model" := "/resources/model",
    "list_projects" := "/projects",
    "create_project" := "/projects",
    "search_projects" := "/projects",
    "start_project_session" := "/hub/start-session/{project_id}",
    "list_sessions" := "/sessions",
    "get_all_tags" := "/resources/tags"]

  const MethodMap: map<string, string> := map[
    "list_resources" := "GET",
    "get_resource" := "GET",
    "search_resources" := "GET",
    "create_dataset" := "POST",
    "create_notebook" := "POST",
    "create_repository" := "POST",
    "create_model" := "POST",
    "list_projects" := "GET",
    "create_project" := "POST",
    "search_projects" := "GET",
    "start_project_session" := "GET",
    "list_sessions" := "GET",
    "get_all_tags" := "GET"]

  /** An endpoint template and its HTTP method. */
  datatype Route = Route(endpoint: string, verb: string)

  /** The lookup in both maps, and the error for a name that either lacks. */
  function Dispatch(name: string): Result<Route, string> {
    var endpoint := if name in EndpointMap then EndpointMap[name] else "";
    var verb := if name in MethodMap then MethodMap[name] else "";
    if endpoint == "" || verb == "" then Err("Unknown function: " + name)
    else Ok(Route(endpoint, verb))
  }

  /** Both maps have exactly the thirteen listed function names as keys,
      and every method is GET or POST. */
  lemma MapsAgree()
    ensures |FunctionNames| == 13
    ensures EndpointMap.Keys == MethodMap.Keys == set name | name in FunctionNames
    ensures forall name :: name in MethodMap ==> MethodMap[name] == "GET" || MethodMap[name] == "POST"
  {
  }

  /** A name is routed exactly when both maps know it; otherwise the result
      is the unknown-function error and no route, so no request, exists. */
  lemma DispatchIff(name: string)
    ensures Dispatch(name).Ok? <==> name in EndpointMap && name in MethodMap
    ensures Dispatch(name).Ok? ==> Dispatch(name).value == Route(EndpointMap[name], MethodMap[name])
    ensures Dispatch(name).Err? ==> Dispatch(name).error == "Unknown function: " + name
  {
  }

  // ---------------------------------------------------------------------
  // The `search_projects` branch
  // ---------------------------------------------------------------------

  /** The semantic tag, lowercased, when there is one, else the search term. */
  function TargetTag(term: string): string {
    match SemanticSearchParams(term)
    case ByTag(t) => Lower(t)
    case ByName(_) => term
  }

  /** A lowercased tag list matches when it has the target exactly, or a tag
      with the search term inside. */
  predicate TagsMatch(tags: seq<string>, target: string, term: string) {
    target in tags || exists i :: 0 <= i < |tags| && Contains(tags[i], term)
  }

  predicate ResourceMatch(r: Resource, target: string, term: string) {
    r.tags.Some? && TagsMatch(LoweredTags(r.tags.value), target, term)
  }

  predicate RepoMatch(p: Project, target: string, term: string) {
    p.repositoryResource.Some? && ResourceMatch(p.repositoryResource.value, target, term)
  }

  predicate DatasetMatch(p: Project, target: string, term: string) {
    exists j :: 0 <= j < |Datasets(p)| && ResourceMatch(Datasets(p)[j], target, term)
  }

  /** Whether the filter keeps a project. */
  predicate Selected(p: Project, term: string, target: string) {
    NameOrDescMatch(p, term) || RepoMatch(p, target, term) || DatasetMatch(p, target, term)
  }

  /** `Selected` as the keep-function of a filter. */
  function Keep(term: string, target: string): Project -> bool {
    p => Selected(p, term, target)
  }

  /** The `/projects` fetch: the projects, or the text of a non-200 reply. */
  datatype Fetch = Fetched(projects: seq<Project>) | FetchFailed(text: string)

  /** The repository test: the repository has tags and they match. */
  method RepoTagsMatch(project: Project, target: string, term: string) returns (matched: bool)
    ensures matched == RepoMatch(project, target, term)
  {
    matched := false;
    var repo := project.repositoryResource;
    if repo.Some? && repo.value.tags.Some? {
      var repoTags := LoweredTags(repo.value.tags.value);
      matched := TagsMatch(repoTags, target, term);
    }
  }

  /** The dataset loop: stops at the first dataset whose tags match. */
  method DatasetTagsMatch(project: Project, target: string, term: string) returns (matched: bool)
    ensures matched == DatasetMatch(project, target, term)
  {
    var datasets := Datasets(project);
    for j := 0 to |datasets|
      invariant forall k :: 0 <= k < j ==> !ResourceMatch(datasets[k], target, term)
    {
      if datasets[j].tags.Some? {
        var datasetTags := LoweredTags(datasets[j].tags.value);
        if TagsMatch(datasetTags, target, term) {
          return true;
        }
      }
    }
    return false;
  }

  /** One turn of the loop: the name/description test, then the
      repository test, and only when both fail the dataset loop.
      `datasetsRead` tells whether the dataset tags were looked at. */
  method MatchProject(project: Project, term: string, target: string)
    returns (matched: bool, ghost datasetsRead: bool)
    ensures matched == Selected(project, term, target)
    ensures datasetsRead <==> !NameOrDescMatch(project, term) && !RepoMatch(project, target, term)
  {
    datasetsRead := false;
    if NameOrDescMatch(project, term) {
      return true, datasetsRead;
    }
    matched := RepoTagsMatch(project, target, term);
    if !matched {
      datasetsRead := true;
      matched := DatasetTagsMatch(project, target, term);
    }
  }

  /** The filtering loop. `datasetsRead` records the positions whose
      dataset tags were looked at. */
  method FilterProjects(projects: seq<Project>, term: string, target: string)
    returns (filtered: seq<Project>, ghost datasetsRead: set<nat>)
    ensures filtered == Filter(projects, Keep(term, target))
    ensures forall i :: i in datasetsRead <==>
      0 <= i < |projects| && !NameOrDescMatch(projects[i], term) && !RepoMatch(projects[i], target, term)
  {
    datasetsRead := {};
    ghost var keep := Keep(term, target);
    filtered := [];
    for i := 0 to |projects|
      invariant filtered == Filter(projects[..i], keep)
      invariant forall k :: k in datasetsRead <==>
        0 <= k < i && !NameOrDescMatch(projects[k], term) && !RepoMatch(projects[k], target, term)
    {
      var project := projects[i];
      assert projects[..i + 1] == projects[..i] + [project];
      FilterSnoc(projects[..i], project, keep);
      var matched;
      ghost var read;
      matched, read := MatchProject(project, term, target);
      if read {
        datasetsRead := datasetsRead + {i};
      }
      if matched {
        filtered := filtered + [project];
      }
    }
    assert projects[..|projects|] == projects;
  }

  /** The `search_projects` branch up to its return value: a failed fetch
      gives the error text; otherwise the lowercased search term and its
      target tag filter the fetched projects. */
  method SearchProjects(searchTerm: Option<string>, fetch: Fetch)
    returns (r: Result<seq<Project>, string>, ghost datasetsRead: set<nat>)
    ensures fetch.FetchFailed? ==> r == Err("Failed to search projects: " + fetch.text)
    ensures fetch.Fetched? ==>
      var term := Lower(searchTerm.GetOr(""));
      var target := TargetTag(term);
      && r == Ok(Filter(fetch.projects, Keep(term, target)))
      && forall i :: i in datasetsRead <==>
           0 <= i < |fetch.projects| && !NameOrDescMatch(fetch.projects[i], term)
           && !RepoMatch(fetch.projects[i], target, term)
  {
    datasetsRead := {};
    if fetch.FetchFailed? {
      return Err("Failed to search projects: " + fetch.text), datasetsRead;
    }
    var term := Lower(searchTerm.GetOr(""));
    var target := TargetTag(term);
    var filtered;
    filtered, datasetsRead := FilterProjects(fetch.projects, term, target);
    r := Ok(filtered);
  }

  /** The result keeps the fetched order, draws each project from its own
      position, and holds a selected project exactly as often as the fetch. */
  lemma SearchResultIsSubsequence(projects: seq<Project>, term: string, target: string, p: Project)
    ensures IsSubsequence(Filter(projects, Keep(term, target)), projects)
    ensures multiset(Filter(projects, Keep(term, target)))[p] ==
      if Selected(p, term, target) then multiset(projects)[p] else 0
  {
    FilterIsSubsequence(projects, Keep(term, target));
    FilterMultiplicity(projects, Keep(term, target), p);
  }

  /** A fetched project whose name or description contains the term is in
      the result, whatever its tags. */
  lemma NameMatchIncluded(projects: seq<Project>, term: string, target: string, p: Project)
    requires p in projects && NameOrDescMatch(p, term)
    ensures p in Filter(projects, Keep(term, target))
  {
    FilterMembership(projects, Keep(term, target), p);
  }

  /** A missing or empty search term returns every fetched project. */
  lemma EmptyTermKeepsAll(projects: seq<Project>, target: string)
    ensures Filter(projects, Keep("", target)) == projects
  {
    forall i | 0 <= i < |projects|
      ensures Selected(projects[i], "", target)
    {
      EmptyTermMatchesAll(projects[i]);
    }
    FilterKeepsAll(projects, Keep("", target));
  }
}
