/** The catalog API's JSON values as the demo clients and the gateway see
    them: query parameters, projects with their repository and dataset
    resources, and tags. A field the JSON may omit is an `Option`. */
module Catalog {
  import opened Wrappers
  import opened Text

  /** A query parameter value. */
  datatype ParamValue = IntParam(i: int) | TextParam(s: string)

  /** A tag object; `value` may be missing. */
  datatype Tag = Tag(value: Option<string>)

  /** A repository or dataset resource; `tags` may be missing. */
  datatype Resource = Resource(tags: Option<seq<Tag>>)

  /** A project as `/projects` returns it. A missing or empty
      `repositoryResource` is `None`. */
  datatype Project = Project(
    name: Option<string>, description: Option<string>,
    repositoryResource: Option<Resource>, datasetResources: Option<seq<Resource>>)

  /** What a semantic-search rule produces: a tag to look for, or a name. */
  datatype SearchParams = ByTag(tag: string) | ByName(name: string)

  /** `[tag.get("value", "").lower() for tag in tags]`. */
  function LoweredTags(tags: seq<Tag>): (r: seq<string>)
    ensures |r| == |tags|
    ensures forall i :: 0 <= i < |tags| ==> r[i] == Lower(tags[i].value.GetOr(""))
  {
    if tags == [] then [] else [Lower(tags[0].value.GetOr(""))] + LoweredTags(tags[1..])
  }

  /** The search term occurs in the lowercased name or description, a
      missing one reading as `""`. */
  predicate NameOrDescMatch(p: Project, term: string) {
    Contains(Lower(p.name.GetOr("")), term) || Contains(Lower(p.description.GetOr("")), term)
  }

  /** `project.get("datasetResources", [])`. */
  function Datasets(p: Project): seq<Resource> {
    p.datasetResources.GetOr([])
  }

  /** The empty term is in every name: with it the name test admits every project. */
  lemma EmptyTermMatchesAll(p: Project)
    ensures NameOrDescMatch(p, "")
  {
    ContainsEmpty(Lower(p.name.GetOr("")));
  }
}
