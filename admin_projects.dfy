/**
 * The admin projects screen: status badge colour and label, the status
 * filter and search over the cached list, the arguments it passes to the
 * list request, and the table's "Total Value" cell.
 */
module AdminProjects {
  import opened Wrappers
  import Lists
  import Text
  import ProjectStore

  type Project = ProjectStore.Project

  /** `getStatusVariant`. */
  function StatusVariant(status: string): (v: string)
    ensures status == "completed" ==> v == "bg-success"
    ensures status == "in-progress" ==> v == "bg-warning"
    ensures status == "pending" ==> v == "bg-info"
    ensures status == "cancelled" ==> v == "bg-danger"
    ensures status !in {"completed", "in-progress", "pending", "cancelled"} ==> v == "bg-secondary"
  {
    match status
    case "completed" => "bg-success"
    case "in-progress" => "bg-warning"
    case "pending" => "bg-info"
    case "cancelled" => "bg-danger"
    case "draft" => "bg-secondary"
    case _ => "bg-secondary"
  }

  /** `getStatusText`: `status.replace('-', ' ')`, which replaces the first dash only. */
  function StatusText(status: string): (t: string)
    ensures |t| == |status|
  {
    Text.ReplaceFirst(status, '-', ' ')
  }

  /** The label puts a space where the first dash was and keeps everything else, later dashes included. */
  lemma StatusTextReplacesFirstDash(status: string, k: nat)
    requires k < |status| && status[k] == '-'
    requires forall j :: 0 <= j < k ==> status[j] != '-'
    ensures StatusText(status) == status[..k] + " " + status[k + 1..]
  {
    Text.ReplaceFirstAt(status, '-', ' ', k);
  }

  /** A status without a dash is its own label. */
  lemma StatusTextWithoutDash(status: string)
    requires forall j :: 0 <= j < |status| ==> status[j] != '-'
    ensures StatusText(status) == status
  {
    Text.ReplaceFirstAbsent(status, '-', ' ');
  }

  // ---------------------------------------------------------------- filtering

  /** `filter === 'all' || project.status === filter`: an exact, case-sensitive match. */
  predicate MatchesFilter(p: Project, filter: string) {
    filter == "all" || p.status == filter
  }

  /** The name contains the search, or there is a non-empty client that contains it, ignoring case. */
  predicate MatchesSearch(p: Project, search: string) {
    Text.ContainsIgnoringCase(p.projectName, search)
    || (ProjectStore.Present(p.client) && Text.ContainsIgnoringCase(p.client.value, search))
  }

  /** `filteredProjects`. */
  function FilteredProjects(projects: seq<Project>, filter: string, search: string): (r: seq<Project>)
    ensures |r| <= |projects|
    ensures forall p :: p in r <==> p in projects && MatchesFilter(p, filter) && MatchesSearch(p, search)
  {
    Lists.Filter(projects, p => MatchesFilter(p, filter) && MatchesSearch(p, search))
  }

  /** The status "all" and an empty search show every project, in order. */
  lemma AllAndEmptyKeepEverything(projects: seq<Project>)
    ensures FilteredProjects(projects, "all", "") == projects
  {
    forall i | 0 <= i < |projects| ensures MatchesSearch(projects[i], "") {
      Text.EmptySearchMatches(projects[i].projectName);
    }
    Lists.FilterAll(projects, p => MatchesFilter(p, "all") && MatchesSearch(p, ""));
  }

  /** Narrowing by status and by search can be done one after the other. */
  lemma {:induction false} FilterThenSearch(projects: seq<Project>, filter: string, search: string)
    ensures FilteredProjects(projects, filter, search)
            == Lists.Filter(FilteredProjects(projects, filter, ""), p => MatchesSearch(p, search))
    decreases |projects|
  {
    if projects != [] {
      Text.EmptySearchMatches(projects[0].projectName);
      FilterThenSearch(projects[1..], filter, search);
    }
  }

  /** The status filter does not fold case: a "Completed" filter hides a "completed" project. */
  lemma StatusFilterIsCaseSensitive(p: Project)
    requires p.status == "completed"
    ensures FilteredProjects([p], "Completed", "") == []
  {
  }

  // ---------------------------------------------------------------- the list request

  /**
   * `handleFilterChange` and `handleSearchChange` pass the same arguments:
   * no status for "all", no search for the empty string.
   */
  function FetchFilters(filter: string, search: string): (r: (Option<string>, Option<string>))
    ensures r.0 == (if filter == "all" then None else Some(filter))
    ensures r.1 == (if search == "" then None else Some(search))
  {
    (if filter == "all" then None else Some(filter), if search == "" then None else Some(search))
  }

  /** The default view asks for the whole list; any other status or a search makes a query string. */
  lemma FetchFiltersUrl(filter: string, search: string)
    ensures var (st, se) := FetchFilters(filter, search);
      (filter in {"all", ""} && search == "" ==> ProjectStore.FetchUrl(st, se) == ProjectStore.ApiPath)
      && (filter !in {"all", ""} && search == "" ==>
            ProjectStore.FetchUrl(st, se) == ProjectStore.ApiPath + "?status=" + filter)
      && (filter in {"all", ""} && search != "" ==>
            ProjectStore.FetchUrl(st, se) == ProjectStore.ApiPath + "?search=" + search)
  {
    var (st, se) := FetchFilters(filter, search);
    ProjectStore.FetchUrlCases(st, se);
  }

  // ---------------------------------------------------------------- the table

  datatype Cell = Amount(value: real) | NotAvailable

  /** "Total Value": the gross profit when there is one and it is not 0, else "N/A". */
  function TotalValueCell(p: Project): (c: Cell)
    ensures c.Amount? <==> p.calculatedValues.Some? && p.calculatedValues.value.grossProfit != 0.0
    ensures c.Amount? ==> c.value == p.calculatedValues.value.grossProfit
  {
    if p.calculatedValues.Some? && p.calculatedValues.value.grossProfit != 0.0 then
      Amount(p.calculatedValues.value.grossProfit)
    else NotAvailable
  }

  /** The client column: `client || 'N/A'`. */
  function ClientCell(p: Project): (s: string)
    ensures ProjectStore.Present(p.client) ==> s == p.client.value
    ensures !ProjectStore.Present(p.client) ==> s == "N/A"
  {
    StrOrDefault(p.client, "N/A")
  }
}
