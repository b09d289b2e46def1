/** The LangChain/Qwen demo client's tools: the domain-aware keyword rule,
    the resource-type detection and query of `list_resources_tool`, the
    project filter of `search_projects_tool`, the input validation of
    `create_resource_tool`, and the tag extraction and bucketing of
    `get_research_tags_tool`. */
module QwenDemo {
  import opened Wrappers
  import opened Seqs
  import opened Text
  import opened Catalog

  // ---------------------------------------------------------------------
  // `enhanced_semantic_search`
  // ---------------------------------------------------------------------

  datatype Domain = Neuroscience | MachineLearning | ComputerVision | NaturalLanguage | DataScience | General

  /** The rule's result: always a domain, and either a tag or a name. */
  datatype DomainSearch = DomainSearch(target: SearchParams, domain: Domain)

  const NeuroTerms: seq<string> := ["neuroscience", "brain", "neural", "neuro", "cortex", "synapse",
                                    "cognitive", "fmri", "eeg", "neuroimaging", "connectome"]
  const MlTerms: seq<string> := ["machine learning", "ml", "deep learning", "neural network",
                                 "tensorflow", "pytorch", "transformer", "llm", "gpt"]
  const VisionTerms: seq<string> := ["computer vision", "image", "visual", "opencv", "cnn",
                                     "classification", "detection", "segmentation"]
  const NlpTerms: seq<string> := ["nlp", "natural language", "text", "language processing",
                                  "sentiment", "tokenization", "embedding"]
  const DataScienceTerms: seq<string> := ["data science", "analytics", "statistics", "pandas",
                                          "visualization", "jupyter", "python"]

  function EnhancedSemanticSearch(query: string): DomainSearch {
    var q := Lower(query);
    if ContainsAny(q, NeuroTerms) then DomainSearch(ByTag("neurodata25"), Neuroscience)
    else if ContainsAny(q, MlTerms) then DomainSearch(ByTag("brainml"), MachineLearning)
    else if ContainsAny(q, VisionTerms) then DomainSearch(ByTag("image-classification"), ComputerVision)
    else if ContainsAny(q, NlpTerms) then DomainSearch(ByTag("natural-language-processing"), NaturalLanguage)
    else if ContainsAny(q, DataScienceTerms) then DomainSearch(ByName(query), DataScience)
    else DomainSearch(ByName(query), General)
  }

  /** The domain is chosen by the first rule whose terms occur; the four
      tagged domains carry their tag, the other two the original query. */
  lemma EnhancedFirstMatch(query: string)
    ensures var q := Lower(query); var r := EnhancedSemanticSearch(query);
      && (r.domain == Neuroscience <==> ContainsAny(q, NeuroTerms))
      && (r.domain == MachineLearning <==> !ContainsAny(q, NeuroTerms) && ContainsAny(q, MlTerms))
      && (r.domain == ComputerVision <==>
            !ContainsAny(q, NeuroTerms) && !ContainsAny(q, MlTerms) && ContainsAny(q, VisionTerms))
      && (r.domain == NaturalLanguage <==>
            !ContainsAny(q, NeuroTerms) && !ContainsAny(q, MlTerms) && !ContainsAny(q, VisionTerms)
            && ContainsAny(q, NlpTerms))
      && (r.domain == DataScience <==>
            !ContainsAny(q, NeuroTerms) && !ContainsAny(q, MlTerms) && !ContainsAny(q, VisionTerms)
            && !ContainsAny(q, NlpTerms) && ContainsAny(q, DataScienceTerms))
      && (r.domain == Neuroscience ==> r.target == ByTag("neurodata25"))
      && (r.domain == MachineLearning ==> r.target == ByTag("brainml"))
      && (r.domain == ComputerVision ==> r.target == ByTag("image-classification"))
      && (r.domain == NaturalLanguage ==> r.target == ByTag("natural-language-processing"))
      && (r.domain in {DataScience, General} <==> r.target.ByName?)
      && (r.target.ByName? ==> r.target.name == query)
  {
  }

  /** The machine-learning term "neural network" can never select machine
      learning: every query containing it contains "neural", a neuroscience
      term checked first. */
  lemma NeuralNetworkShadowed(query: string)
    requires Contains(Lower(query), "neural network")
    ensures EnhancedSemanticSearch(query).domain == Neuroscience
  {
    assert StartsWith("neural network", "neural");
    ContainsTransitive(Lower(query), "neural network", "neural");
    assert Contains(Lower(query), NeuroTerms[2]);
  }

  // ---------------------------------------------------------------------
  // `list_resources_tool`
  // ---------------------------------------------------------------------

  /** The first resource type named in the lowercased query. */
  function ResourceTypeOf(query: string): Option<string> {
    var q := Lower(query);
    if Contains(q, "dataset") then Some("dataset")
    else if Contains(q, "notebook") then Some("notebook")
    else if Contains(q, "repository") || Contains(q, "repo") then Some("repository")
    else if Contains(q, "model") then Some("model")
    else None
  }

  /** Detection is first-match in the order dataset, notebook, repository
      (or repo), model. */
  lemma ResourceTypeFirstMatch(query: string)
    ensures var q := Lower(query); var t := ResourceTypeOf(query);
      && (t == Some("dataset") <==> Contains(q, "dataset"))
      && (t == Some("notebook") <==> !Contains(q, "dataset") && Contains(q, "notebook"))
      && (t == Some("repository") <==> !Contains(q, "dataset") && !Contains(q, "notebook")
                                        && (Contains(q, "repository") || Contains(q, "repo")))
      && (t == Some("model") <==> !Contains(q, "dataset") && !Contains(q, "notebook")
                                   && !Contains(q, "repository") && !Contains(q, "repo") && Contains(q, "model"))
      && (t.None? <==> !Contains(q, "dataset") && !Contains(q, "notebook") && !Contains(q, "repository")
                        && !Contains(q, "repo") && !Contains(q, "model"))
  {
  }

  /** The query of `list_resources_tool`. */
  predicate IsToolQuery(params: map<string, ParamValue>, query: string) {
    var search := EnhancedSemanticSearch(query);
    var rt := ResourceTypeOf(query);
    && params.Keys == {"pageNumber", "pageSize"} + (if rt.Some? then {"resource_type"} else {})
                      + (if search.target.ByTag? then {"tags"} else {"name"})
    && params["pageNumber"] == IntParam(0) && params["pageSize"] == IntParam(100)
    && (rt.Some? ==> params["resource_type"] == TextParam(rt.value))
    && (search.target.ByTag? ==> params["tags"] == TextParam(search.target.tag))
    && (search.target.ByName? ==> params["name"] == TextParam(search.target.name))
  }

  /** Builds the query step by step, as the tool does. */
  method ListResourcesParams(query: string) returns (params: map<string, ParamValue>)
    ensures IsToolQuery(params, query)
    ensures "tags" in params <==> "name" !in params
  {
    var search := EnhancedSemanticSearch(query);
    var resourceType := ResourceTypeOf(query);
    params := map["pageNumber" := IntParam(0), "pageSize" := IntParam(100)];
    if resourceType.Some? {
      params := params["resource_type" := TextParam(resourceType.value)];
    }
    if search.target.ByTag? {
      params := params["tags" := TextParam(search.target.tag)];
    }
    if search.target.ByName? {
      params := params["name" := TextParam(search.target.name)];
    }
  }

  // ---------------------------------------------------------------------
  // `search_projects_tool`
  // ---------------------------------------------------------------------

  /** `search_params.get("tags", "").lower()`: empty when the rule gave a name. */
  function ToolTarget(query: string): string {
    match EnhancedSemanticSearch(query).target
    case ByTag(t) => Lower(t)
    case ByName(_) => ""
  }

  /** Tags are consulted exactly when the rule produced a tag. */
  lemma ToolTargetEmptyIff(query: string)
    ensures ToolTarget(query) == "" <==> EnhancedSemanticSearch(query).target.ByName?
  {
    var t := EnhancedSemanticSearch(query).target;
    if t.ByTag? {
      assert |Lower(t.tag)| == |t.tag| > 0;
    }
  }

  /** The resource has tags and one of them, lowercased, equals the target. */
  predicate ExactResource(r: Resource, target: string) {
    r.tags.Some? && target in LoweredTags(r.tags.value)
  }

  predicate ExactRepo(p: Project, target: string) {
    p.repositoryResource.Some? && ExactResource(p.repositoryResource.value, target)
  }

  predicate ExactDataset(p: Project, target: string) {
    exists j :: 0 <= j < |Datasets(p)| && ExactResource(Datasets(p)[j], target)
  }

  /** Whether the tool keeps a project: by name or description, or, when
      there is a target tag, by an exactly equal repository or dataset tag. */
  predicate ToolSelected(p: Project, term: string, target: string) {
    NameOrDescMatch(p, term) || (target != "" && (ExactRepo(p, target) || ExactDataset(p, target)))
  }

  function ToolKeep(term: string, target: string): Project -> bool {
    p => ToolSelected(p, term, target)
  }

  method RepoHasTag(project: Project, target: string) returns (found: bool)
    ensures found == ExactRepo(project, target)
  {
    found := false;
    var repo := project.repositoryResource;
    if repo.Some? && repo.value.tags.Some? {
      var repoTags := LoweredTags(repo.value.tags.value);
      found := target in repoTags;
    }
  }

  method DatasetHasTag(project: Project, target: string) returns (found: bool)
    ensures found == ExactDataset(project, target)
  {
    var datasets := Datasets(project);
    for j := 0 to |datasets|
      invariant forall k :: 0 <= k < j ==> !ExactResource(datasets[k], target)
    {
      if datasets[j].tags.Some? {
        var datasetTags := LoweredTags(datasets[j].tags.value);
        if target in datasetTags {
          return true;
        }
      }
    }
    return false;
  }

  /** The filtering loop of `search_projects_tool`. `tagsRead` records
      the positions whose tags were looked at. */
  method FilterProjects(projects: seq<Project>, term: string, target: string)
    returns (filtered: seq<Project>, ghost tagsRead: set<nat>)
    ensures filtered == Filter(projects, ToolKeep(term, target))
    ensures forall i :: i in tagsRead <==>
      0 <= i < |projects| && !NameOrDescMatch(projects[i], term) && target != ""
  {
    tagsRead := {};
    ghost var keep := ToolKeep(term, target);
    filtered := [];
    for i := 0 to |projects|
      invariant filtered == Filter(projects[..i], keep)
      invariant forall k :: k in tagsRead <==>
        0 <= k < i && !NameOrDescMatch(projects[k], term) && target != ""
    {
      var project := projects[i];
      assert projects[..i + 1] == projects[..i] + [project];
      FilterSnoc(projects[..i], project, keep);
      if NameOrDescMatch(project, term) {
        filtered := filtered + [project];
        continue;
      }
      if target != "" {
        tagsRead := tagsRead + {i};
        var inRepo := RepoHasTag(project, target);
        if inRepo {
          filtered := filtered + [project];
          continue;
        }
        var inDataset := DatasetHasTag(project, target);
        if inDataset {
          filtered := filtered + [project];
        }
      }
    }
    assert projects[..|projects|] == projects;
  }

  /** `search_projects_tool` up to its formatting: an error from the fetch
      is passed on; otherwise the lowercased query is the search term and
      the rule's tag, if any, the target. */
  method SearchProjectsTool(query: string, fetch: Result<seq<Project>, string>)
    returns (r: Result<seq<Project>, string>, ghost tagsRead: set<nat>)
    ensures fetch.Err? ==> r == Err("Error: " + fetch.error)
    ensures fetch.Ok? ==>
      var term := Lower(query);
      var target := ToolTarget(query);
      && r == Ok(Filter(fetch.value, ToolKeep(term, target)))
      && forall i :: i in tagsRead <==>
           0 <= i < |fetch.value| && !NameOrDescMatch(fetch.value[i], term) && target != ""
  {
    tagsRead := {};
    if fetch.Err? {
      return Err("Error: " + fetch.error), tagsRead;
    }
    var term := Lower(query);
    var target := ToolTarget(query);
    var filtered;
    filtered, tagsRead := FilterProjects(fetch.value, term, target);
    r := Ok(filtered);
  }

  /** The result keeps the fetched order and holds a selected project
      exactly as often as the fetch does. */
  lemma ToolResultIsSubsequence(projects: seq<Project>, term: string, target: string, p: Project)
    ensures IsSubsequence(Filter(projects, ToolKeep(term, target)), projects)
    ensures multiset(Filter(projects, ToolKeep(term, target)))[p] ==
      if ToolSelected(p, term, target) then multiset(projects)[p] else 0
  {
    FilterIsSubsequence(projects, ToolKeep(term, target));
    FilterMultiplicity(projects, ToolKeep(term, target), p);
  }

  /** Without a target tag only names and descriptions decide: a project
      is kept exactly when it matches by name or description. */
  lemma NoTargetOnlyNames(projects: seq<Project>, term: string, p: Project)
    ensures p in Filter(projects, ToolKeep(term, "")) <==> p in projects && NameOrDescMatch(p, term)
  {
    FilterMembership(projects, ToolKeep(term, ""), p);
  }

  // ---------------------------------------------------------------------
  // `create_resource_tool`
  // ---------------------------------------------------------------------

  /** The fields of the resource JSON the tool looks at; `json.loads`
      itself is a foreign call whose result is a parameter. */
  datatype ResourceData = ResourceData(resourceType: Option<string>, githubUrl: Option<string>, url: Option<string>)

  datatype CreateError = NotJsonObject | InvalidJson | MissingGithubUrl | UnsupportedType(resourceType: string)

  /** The request the tool sends: the repository endpoint with a
      `github_url` parameter, or a typed endpoint with the data as body. */
  datatype CreateCall = RepositoryCall(githubUrl: string) | TypedCall(endpoint: string, data: ResourceData)

  /** The validation of `create_resource_tool`. `parsed` is what
      `json.loads(raw)` gives, `None` when it raises. */
  function PlanCreate(raw: string, parsed: Option<ResourceData>): Result<CreateCall, CreateError> {
    if !(|raw| > 0 && raw[0] == '{') then Err(NotJsonObject)
    else if parsed.None? then Err(InvalidJson)
    else
      var data := parsed.value;
      var t := Lower(data.resourceType.GetOr(""));
      if t == "repository" then
        var githubUrl := if Truthy(data.githubUrl) then data.githubUrl else data.url;
        if Truthy(githubUrl) then Ok(RepositoryCall(githubUrl.value)) else Err(MissingGithubUrl)
      else if t == "dataset" || t == "notebook" || t == "model" then Ok(TypedCall("/resources/" + t, data))
      else Err(UnsupportedType(t))
  }

  /** The tool's reply text for each rejection. */
  function CreateErrorMessage(e: CreateError): string {
    match e
    case NotJsonObject => "Error: Please provide resource data in JSON format"
    case InvalidJson => "Error: Invalid JSON format in resource data"
    case MissingGithubUrl => "Error: Repository creation requires 'github_url'"
    case UnsupportedType(t) => "Error: Unsupported resource type '" + t + "'. Use: dataset, notebook, model, repository"
  }

  /** A request is planned exactly when the input starts with `{`, parses,
      and names a supported type (with a URL for a repository); otherwise
      the rejection says which check failed, and no request is made. */
  lemma CreateAccepts(raw: string, parsed: Option<ResourceData>)
    ensures var r := PlanCreate(raw, parsed);
      && (!(|raw| > 0 && raw[0] == '{') <==> r == Err(NotJsonObject))
      && (r == Err(InvalidJson) <==> |raw| > 0 && raw[0] == '{' && parsed.None?)
      && (r.Ok? <==>
            |raw| > 0 && raw[0] == '{' && parsed.Some?
            && var t := Lower(parsed.value.resourceType.GetOr(""));
               (t in {"dataset", "notebook", "model"}
                || (t == "repository" && (Truthy(parsed.value.githubUrl) || Truthy(parsed.value.url)))))
  {
  }

  /** An accepted repository uses `github_url`, falling back to `url` only
      when `github_url` is missing or empty; any other accepted type posts
      the data to its own endpoint. */
  lemma CreateCallShape(raw: string, parsed: Option<ResourceData>)
    requires PlanCreate(raw, parsed).Ok?
    ensures var call := PlanCreate(raw, parsed).value; var data := parsed.value;
      && (call.RepositoryCall? ==>
            call.githubUrl == (if Truthy(data.githubUrl) then data.githubUrl.value else data.url.value))
      && (call.TypedCall? ==>
            call.data == data && call.endpoint == "/resources/" + Lower(data.resourceType.GetOr("")))
  {
  }

  /** An unsupported type is rejected before any request, and the reply
      names it in its lowercased spelling together with the four types
      that are accepted. */
  lemma UnsupportedTypeReported(raw: string, data: ResourceData)
    requires |raw| > 0 && raw[0] == '{'
    requires Lower(data.resourceType.GetOr("")) !in {"dataset", "notebook", "model", "repository"}
    ensures PlanCreate(raw, Some(data)) == Err(UnsupportedType(Lower(data.resourceType.GetOr(""))))
    ensures CreateErrorMessage(PlanCreate(raw, Some(data)).error) ==
      "Error: Unsupported resource type '" + Lower(data.resourceType.GetOr(""))
      + "'. Use: dataset, notebook, model, repository"
  {
  }

  // ---------------------------------------------------------------------
  // `get_research_tags_tool`
  // ---------------------------------------------------------------------

  /** An element of the `/resources/tags` list: a tag object, or any other
      JSON value, here given by its `str()` text. */
  datatype RawTag = TagObject(value: Option<string>) | TagScalar(text: string)

  function TagName(t: RawTag): string {
    match t
    case TagObject(v) => v.GetOr("")
    case TagScalar(text) => text
  }

  /** The tag-extraction loop. */
  method ExtractTags(result: seq<RawTag>) returns (tags: seq<string>)
    ensures |tags| == |result|
    ensures forall i :: 0 <= i < |result| ==> tags[i] == TagName(result[i])
  {
    tags := [];
    for i := 0 to |result|
      invariant |tags| == i
      invariant forall j :: 0 <= j < i ==> tags[j] == TagName(result[j])
    {
      match result[i] {
        case TagObject(v) => tags := tags + [v.GetOr("")];
        case TagScalar(text) => tags := tags + [text];
      }
    }
  }

  const NeuroKeys: seq<string> := ["neuro", "brain", "cortex"]
  const MlKeys: seq<string> := ["ml", "learning", "neural"]
  const VisionKeys: seq<string> := ["image", "visual", "cv"]
  const NlpKeys: seq<string> := ["language", "text", "nlp"]
  const GeneralExclusions: seq<string> := ["neuro", "brain", "ml", "image", "language"]

  datatype DomainTags = DomainTags(
    neuroscience: seq<string>, machineLearning: seq<string>, computerVision: seq<string>,
    nlp: seq<string>, general: seq<string>)

  /** The lowercased tag contains one of `keys`. */
  function HasKey(keys: seq<string>): string -> bool {
    t => ContainsAny(Lower(t), keys)
  }

  /** The lowercased tag contains none of `keys`. */
  function LacksKeys(keys: seq<string>): string -> bool {
    t => !ContainsAny(Lower(t), keys)
  }

  /** The five comprehensions of `domain_tags`. */
  function Buckets(tags: seq<string>): DomainTags {
    DomainTags(Filter(tags, HasKey(NeuroKeys)), Filter(tags, HasKey(MlKeys)),
               Filter(tags, HasKey(VisionKeys)), Filter(tags, HasKey(NlpKeys)),
               Filter(tags, LacksKeys(GeneralExclusions)))
  }

  /** A tag is in a domain bucket exactly when it is a tag containing one of
      that domain's keys; `Buckets` applies this to each of the four. */
  lemma DomainBucketMembership(tags: seq<string>, keys: seq<string>, t: string)
    ensures t in Filter(tags, HasKey(keys)) <==>
      t in tags && exists k :: 0 <= k < |keys| && Contains(Lower(t), keys[k])
  {
    FilterMembership(tags, HasKey(keys), t);
  }

  /** `general` holds exactly the tags containing none of neuro, brain, ml,
      image and language. */
  lemma GeneralMembership(tags: seq<string>, t: string)
    ensures t in Buckets(tags).general <==>
      t in tags && forall k :: 0 <= k < |GeneralExclusions| ==> !Contains(Lower(t), GeneralExclusions[k])
  {
    FilterMembership(tags, LacksKeys(GeneralExclusions), t);
  }

  /** `general` is not the complement of the domain buckets: a tag with
      "cortex" (or "learning", "visual", "cv", "text", "nlp") and none of the
      exclusions is in a domain bucket and in `general` at once. */
  lemma GeneralOverlapsDomains(tags: seq<string>, t: string)
    requires t in tags && Contains(Lower(t), "cortex") && !ContainsAny(Lower(t), GeneralExclusions)
    ensures t in Buckets(tags).neuroscience && t in Buckets(tags).general
  {
    assert Contains(Lower(t), NeuroKeys[2]);
    FilterMembership(tags, HasKey(NeuroKeys), t);
    FilterMembership(tags, LacksKeys(GeneralExclusions), t);
  }

  /** Every bucket keeps the input order. */
  lemma BucketsKeepOrder(tags: seq<string>)
    ensures var b := Buckets(tags);
      && IsSubsequence(b.neuroscience, tags) && IsSubsequence(b.machineLearning, tags)
      && IsSubsequence(b.computerVision, tags) && IsSubsequence(b.nlp, tags)
      && IsSubsequence(b.general, tags)
  {
    FilterIsSubsequence(tags, HasKey(NeuroKeys));
    FilterIsSubsequence(tags, HasKey(MlKeys));
    FilterIsSubsequence(tags, HasKey(VisionKeys));
    FilterIsSubsequence(tags, HasKey(NlpKeys));
    FilterIsSubsequence(tags, LacksKeys(GeneralExclusions));
  }
}
