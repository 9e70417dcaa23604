/**
 * The client-side project store of `useProjects`: the list cache, the loading
 * flag and the error text, with what each call does once its response is in,
 * and the query string of the list request.
 *
 * The network is not modelled: each call takes the outcome of its request as
 * a parameter (`Ok` with the parsed body, `NotOk` for a response whose `ok`
 * is false, `Thrown` for a rejected request). URL encoding is not modelled.
 */
module ProjectStore {
  import opened Wrappers
  import Lists
  import Exterior

  /** A saved project as the API returns it. */
  datatype Project = Project(
    id: string,
    projectName: string,
    projectData: Exterior.ProjectData,
    calculatedValues: Option<Exterior.CalculatedValues>,
    status: string,
    client: Option<string>,
    createdAt: string,
    updatedAt: string,
    userId: string,
    ownerName: Option<string>)

  /** The keys an update response carries; absent keys leave the cached value. */
  datatype ProjectPatch = ProjectPatch(
    id: Option<string>,
    projectName: Option<string>,
    projectData: Option<Exterior.ProjectData>,
    calculatedValues: Option<Exterior.CalculatedValues>,
    status: Option<string>,
    client: Option<string>,
    createdAt: Option<string>,
    updatedAt: Option<string>,
    userId: Option<string>,
    ownerName: Option<string>)

  const NoChanges := ProjectPatch(None, None, None, None, None, None, None, None, None, None)

  /** `{ ...project, ...updatedProject }`. */
  function Merge(p: Project, u: ProjectPatch): (r: Project)
    ensures u.id.Some? ==> r.id == u.id.value
    ensures u.id.None? ==> r.id == p.id
    ensures u.status.Some? ==> r.status == u.status.value
    ensures u.status.None? ==> r.status == p.status
    ensures r.calculatedValues == (if u.calculatedValues.Some? then u.calculatedValues else p.calculatedValues)
    ensures r.client == (if u.client.Some? then u.client else p.client)
    ensures r.projectName == (if u.projectName.Some? then u.projectName.value else p.projectName)
    ensures r.projectData == (if u.projectData.Some? then u.projectData.value else p.projectData)
    ensures r.createdAt == (if u.createdAt.Some? then u.createdAt.value else p.createdAt)
    ensures r.updatedAt == (if u.updatedAt.Some? then u.updatedAt.value else p.updatedAt)
    ensures r.userId == (if u.userId.Some? then u.userId.value else p.userId)
    ensures r.ownerName == (if u.ownerName.Some? then u.ownerName else p.ownerName)
  {
    Project(
      u.id.GetOr(p.id),
      u.projectName.GetOr(p.projectName),
      u.projectData.GetOr(p.projectData),
      if u.calculatedValues.Some? then u.calculatedValues else p.calculatedValues,
      u.status.GetOr(p.status),
      if u.client.Some? then u.client else p.client,
      u.createdAt.GetOr(p.createdAt),
      u.updatedAt.GetOr(p.updatedAt),
      u.userId.GetOr(p.userId),
      if u.ownerName.Some? then u.ownerName else p.ownerName)
  }

  /** A response without keys changes nothing, and merging the same response twice is merging it once. */
  lemma MergeLaws(p: Project, u: ProjectPatch)
    ensures Merge(p, NoChanges) == p
    ensures Merge(Merge(p, u), u) == Merge(p, u)
  {
  }

  // ---------------------------------------------------------------- list updates

  /** `[newProject, ...prev]`. */
  function Prepend(projects: seq<Project>, p: Project): (r: seq<Project>)
    ensures |r| == |projects| + 1 && r[0] == p && r[1..] == projects
  {
    [p] + projects
  }

  /** `prev.map(project => project.id === id ? { ...project, ...updated } : project)`. */
  function MergeById(projects: seq<Project>, id: string, u: ProjectPatch): (r: seq<Project>)
    ensures |r| == |projects|
    ensures forall i :: 0 <= i < |projects| ==>
      r[i] == if projects[i].id == id then Merge(projects[i], u) else projects[i]
  {
    Lists.MapWhere(projects, (p: Project) => p.id == id, (p: Project) => Merge(p, u))
  }

  /** `prev.filter(project => project.id !== id)`. */
  function RemoveById(projects: seq<Project>, id: string): (r: seq<Project>)
    ensures |r| <= |projects|
    ensures forall p :: p in r <==> p in projects && p.id != id
  {
    Lists.Filter(projects, (p: Project) => p.id != id)
  }

  /** An update for an id that is not cached leaves the cache as it is. */
  lemma MergeByIdUnknown(projects: seq<Project>, id: string, u: ProjectPatch)
    requires forall i :: 0 <= i < |projects| ==> projects[i].id != id
    ensures MergeById(projects, id, u) == projects
  {
    Lists.MapWhereNone(projects, (p: Project) => p.id == id, (p: Project) => Merge(p, u));
  }

  /** Deleting a project just created, whose id is new, gives back the list as it was. */
  lemma DeleteUndoesCreate(projects: seq<Project>, p: Project)
    requires forall i :: 0 <= i < |projects| ==> projects[i].id != p.id
    ensures RemoveById(Prepend(projects, p), p.id) == projects
  {
    Lists.FilterAll(projects, (q: Project) => q.id != p.id);
    Lists.FilterAppend([p], projects, (q: Project) => q.id != p.id);
  }

  /** Removing an id twice is removing it once. */
  lemma RemoveByIdIdempotent(projects: seq<Project>, id: string)
    ensures RemoveById(RemoveById(projects, id), id) == RemoveById(projects, id)
  {
    Lists.FilterIdempotent(projects, (p: Project) => p.id != id);
  }

  // ---------------------------------------------------------------- the list request

  /** `if (filters?.key)`: present and not the empty string. */
  predicate Present(s: Option<string>) {
    s.Some? && s.value != ""
  }

  /** The parameters `fetchProjects` appends, in order. */
  function QueryParams(status: Option<string>, search: Option<string>): (ps: seq<(string, string)>)
    ensures |ps| == (if Present(status) then 1 else 0) + (if Present(search) then 1 else 0)
    ensures Present(status) ==> ps[0] == ("status", status.value)
    ensures Present(search) ==> ps[|ps| - 1] == ("search", search.value)
    ensures forall i :: 0 <= i < |ps| ==> ps[i].0 == "status" || ps[i].0 == "search"
  {
    (if Present(status) then [("status", status.value)] else [])
    + (if Present(search) then [("search", search.value)] else [])
  }

  /** `URLSearchParams.toString()` without the encoding: `k=v` pairs joined by `&`. */
  function QueryString(ps: seq<(string, string)>): (q: string)
    ensures ps == [] <==> q == ""
  {
    if ps == [] then ""
    else if |ps| == 1 then ps[0].0 + "=" + ps[0].1
    else ps[0].0 + "=" + ps[0].1 + "&" + QueryString(ps[1..])
  }

  const ApiPath := "/api/projects"

  /** The URL `fetchProjects` requests. */
  function FetchUrl(status: Option<string>, search: Option<string>): string {
    var q := QueryString(QueryParams(status, search));
    if q != "" then ApiPath + "?" + q else ApiPath
  }

  /** The statements of `fetchProjects` that build the URL. */
  method BuildFetchUrl(status: Option<string>, search: Option<string>) returns (url: string)
    ensures url == FetchUrl(status, search)
  {
    url := ApiPath;
    var queryParams: seq<(string, string)> := [];
    if Present(status) {
      queryParams := queryParams + [("status", status.value)];
    }
    if Present(search) {
      queryParams := queryParams + [("search", search.value)];
    }
    var query := QueryString(queryParams);
    if query != "" {
      url := url + "?" + query;
    }
  }

  /** The four URLs: a `?` only when a filter is set, status before search. */
  lemma FetchUrlCases(status: Option<string>, search: Option<string>)
    ensures !Present(status) && !Present(search) ==> FetchUrl(status, search) == ApiPath
    ensures Present(status) && !Present(search) ==>
      FetchUrl(status, search) == ApiPath + "?" + ("status" + "=" + status.value)
    ensures !Present(status) && Present(search) ==>
      FetchUrl(status, search) == ApiPath + "?" + ("search" + "=" + search.value)
    ensures Present(status) && Present(search) ==>
      FetchUrl(status, search)
      == ApiPath + "?" + ("status" + "=" + status.value + "&" + ("search" + "=" + search.value))
  {
    var ps := QueryParams(status, search);
    if Present(status) && Present(search) {
      assert ps == [("status", status.value), ("search", search.value)];
      assert ps[1..] == [("search", search.value)];
      assert QueryString(ps[1..]) == "search" + "=" + search.value;
      assert QueryString(ps) == "status" + "=" + status.value + "&" + QueryString(ps[1..]);
    } else if Present(status) {
      assert ps == [("status", status.value)];
    } else if Present(search) {
      assert ps == [("search", search.value)];
    }
  }

  // ---------------------------------------------------------------- the store

  /** What a request came back with. */
  datatype Response<T> = Ok(body: T) | NotOk | Thrown(message: Option<string>)

  /** The text stored in `error`: the thrown message, or a stock text for a non-`Error` throw. */
  function ErrorText<T>(r: Response<T>, notOkMessage: string): (e: string)
    requires !r.Ok?
    ensures r.NotOk? ==> e == notOkMessage
    ensures r.Thrown? && r.message.Some? ==> e == r.message.value
    ensures r.Thrown? && r.message.None? ==> e == "An error occurred"
  {
    if r.NotOk? then notOkMessage else r.message.GetOr("An error occurred")
  }

  /** The state `useProjects` keeps: the cached list, the loading flag and the last error. */
  class ProjectsHook {
    var projects: seq<Project>
    var loading: bool
    var error: Option<string>

    /** The list starts empty and loading. */
    constructor ()
      ensures projects == [] && loading && error == None
    {
      projects := [];
      loading := true;
      error := None;
    }

    /** `fetchProjects`: the list is replaced on success; loading ends either way. */
    method FetchProjects(status: Option<string>, search: Option<string>, response: Response<seq<Project>>)
      returns (url: string)
      modifies this
      ensures url == FetchUrl(status, search)
      ensures !loading
      ensures response.Ok? ==> projects == response.body && error == None
      ensures !response.Ok? ==>
        projects == old(projects) && error == Some(ErrorText(response, "Failed to fetch projects"))
    {
      loading := true;
      error := None;
      url := BuildFetchUrl(status, search);
      if response.Ok? {
        projects := response.body;
      } else {
        error := Some(ErrorText(response, "Failed to fetch projects"));
      }
      loading := false;
    }

    /** `createProject`: the new project goes first; on failure the result is null. */
    method CreateProject(response: Response<Project>) returns (created: Option<Project>)
      modifies this
      ensures loading == old(loading)
      ensures response.Ok? ==>
        projects == Prepend(old(projects), response.body) && created == Some(response.body) && error == None
      ensures !response.Ok? ==>
        projects == old(projects) && created == None
        && error == Some(ErrorText(response, "Failed to create project"))
    {
      error := None;
      if response.Ok? {
        projects := Prepend(projects, response.body);
        created := Some(response.body);
      } else {
        error := Some(ErrorText(response, "Failed to create project"));
        created := None;
      }
    }

    /** `updateProject`: the response is merged into the project with the id. */
    method UpdateProject(id: string, response: Response<ProjectPatch>) returns (updated: Option<ProjectPatch>)
      modifies this
      ensures loading == old(loading)
      ensures response.Ok? ==>
        projects == MergeById(old(projects), id, response.body) && updated == Some(response.body) && error == None
      ensures !response.Ok? ==>
        projects == old(projects) && updated == None
        && error == Some(ErrorText(response, "Failed to update project"))
    {
      error := None;
      if response.Ok? {
        projects := MergeById(projects, id, response.body);
        updated := Some(response.body);
      } else {
        error := Some(ErrorText(response, "Failed to update project"));
        updated := None;
      }
    }

    /** `deleteProject`: every project with the id leaves the list; the result says whether it worked. */
    method DeleteProject(id: string, response: Response<()>) returns (deleted: bool)
      modifies this
      ensures loading == old(loading)
      ensures deleted <==> response.Ok?
      ensures response.Ok? ==> projects == RemoveById(old(projects), id) && error == None
      ensures !response.Ok? ==>
        projects == old(projects) && error == Some(ErrorText(response, "Failed to delete project"))
    {
      error := None;
      if response.Ok? {
        projects := RemoveById(projects, id);
        deleted := true;
      } else {
        error := Some(ErrorText(response, "Failed to delete project"));
        deleted := false;
      }
    }
  }
}
