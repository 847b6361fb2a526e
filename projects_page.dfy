/** The projects list page: the signed-in user's projects, narrowed by a
    status and a priority filter, optionally sorted by last update, with a
    colour badge for each status and priority. */
module ProjectsPage {
  import opened Js
  import opened Lists

  /** A listed project. `updatedSeconds` is `updatedAt.seconds`, the
      store timestamp's whole seconds. */
  datatype ProjectRow = ProjectRow(
    id: string, projectName: Option<string>, facilityName: Option<string>,
    status: Option<string>, priority: Option<string>, updatedSeconds: int)

  /** The sort the page applies: a field name and 'asc' or 'desc'. */
  datatype SortOption = SortOption(field: string, direction: string)

  const Gray := "bg-gray-500"

  /** The badge colours of the listed statuses and priorities. */
  const StatusColors: map<string, string> :=
    map["Active" := "bg-green-500", "Completed" := "bg-blue-500", "On Hold" := "bg-yellow-500"]
  const PriorityColors: map<string, string> :=
    map["High" := "bg-red-500", "Medium" := "bg-yellow-500", "Low" := "bg-green-500"]

  /** `colors[key] || 'bg-gray-500'`: the listed colour, or gray for a
      value the table does not list (or no value at all). */
  function ColorOf(table: map<string, string>, key: Option<string>): (c: string)
    requires forall k :: k in table ==> table[k] != ""
    ensures key.Some? && key.value in table ==> c == table[key.value]
    ensures c == Gray <==> key.None? || key.value !in table || table[key.value] == Gray
  {
    if key.Some? && key.value in table then table[key.value] else Gray
  }

  function StatusColor(status: Option<string>): (c: string)
    ensures status == Some("Active") ==> c == "bg-green-500"
    ensures status == Some("Completed") ==> c == "bg-blue-500"
    ensures status == Some("On Hold") ==> c == "bg-yellow-500"
    ensures c == Gray <==> !(status.Some? && status.value in {"Active", "Completed", "On Hold"})
  {
    ColorOf(StatusColors, status)
  }

  function PriorityColor(priority: Option<string>): (c: string)
    ensures priority == Some("High") ==> c == "bg-red-500"
    ensures priority == Some("Medium") ==> c == "bg-yellow-500"
    ensures priority == Some("Low") ==> c == "bg-green-500"
    ensures c == Gray <==> !(priority.Some? && priority.value in {"High", "Medium", "Low"})
  {
    ColorOf(PriorityColors, priority)
  }

  /** Distinct statuses get distinct badges. */
  lemma StatusColorsDistinct(a: Option<string>, b: Option<string>)
    requires StatusColor(a) == StatusColor(b) != Gray
    ensures a == b
  {
  }

  /** Projects created by the dashboard or by the projects route carry
      the status 'active', which the table does not list (it lists
      'Active'): they get the gray badge, and the 'Active' option of the
      status filter hides them. */
  lemma CreatedStatusUnlisted(p: ProjectRow, priorityFilter: string, sort: SortOption, rows: seq<ProjectRow>)
    requires p.status == Some("active")
    ensures StatusColor(p.status) == Gray
    ensures p !in FilteredProjects(rows, "Active", priorityFilter, sort)
  {
    FilteredMembers(rows, "Active", priorityFilter, sort);
  }

  predicate PassStatus(p: ProjectRow, statusFilter: string) {
    statusFilter == "all" || p.status == Some(statusFilter)
  }

  predicate PassPriority(p: ProjectRow, priorityFilter: string) {
    priorityFilter == "all" || p.priority == Some(priorityFilter)
  }

  /** The two callbacks handed to `filter`, and their conjunction. */
  function StatusKeep(statusFilter: string): ProjectRow -> bool {
    (p: ProjectRow) => PassStatus(p, statusFilter)
  }

  function PriorityKeep(priorityFilter: string): ProjectRow -> bool {
    (p: ProjectRow) => PassPriority(p, priorityFilter)
  }

  function BothKeep(statusFilter: string, priorityFilter: string): ProjectRow -> bool {
    (p: ProjectRow) => PassStatus(p, statusFilter) && PassPriority(p, priorityFilter)
  }

  /** The sort key of the `updatedAt` comparator. */
  function UpdatedKey(): ProjectRow -> int {
    (p: ProjectRow) => p.updatedSeconds
  }

  /** `filteredProjects`: the status filter, the priority filter, then a
      sort. The comparator orders by `updatedAt.seconds` when the sort
      field is 'updatedAt' and returns 0 otherwise; `sort` is stable, so a
      comparator that always returns 0 leaves the order as it is. */
  function FilteredProjects(projects: seq<ProjectRow>, statusFilter: string, priorityFilter: string,
                            sort: SortOption): (r: seq<ProjectRow>)
    // The projects that pass both filters, each as often as in the list,
    ensures multiset(r) == multiset(Filter(projects, BothKeep(statusFilter, priorityFilter)))
    // ordered by last update in the chosen direction, or left in order.
    ensures sort.field == "updatedAt" ==> Sorted(r, UpdatedKey(), sort.direction == "desc")
    ensures sort.field != "updatedAt" ==> r == Filter(projects, BothKeep(statusFilter, priorityFilter))
  {
    var byStatus := Filter(projects, StatusKeep(statusFilter));
    var byPriority := Filter(byStatus, PriorityKeep(priorityFilter));
    FilterThen(projects, StatusKeep(statusFilter), PriorityKeep(priorityFilter), BothKeep(statusFilter, priorityFilter));
    if sort.field == "updatedAt" then SortBy(byPriority, UpdatedKey(), sort.direction == "desc")
    else byPriority
  }

  /** A project is listed exactly when it passes both filters; without
      the `updatedAt` sort the listed projects keep their order. */
  lemma FilteredMembers(projects: seq<ProjectRow>, statusFilter: string, priorityFilter: string, sort: SortOption)
    ensures var r := FilteredProjects(projects, statusFilter, priorityFilter, sort);
            && |r| <= |projects|
            && (forall k :: 0 <= k < |r| ==>
                  r[k] in projects && PassStatus(r[k], statusFilter) && PassPriority(r[k], priorityFilter))
            && (forall k :: 0 <= k < |projects| ==>
                  (projects[k] in r <==> PassStatus(projects[k], statusFilter) && PassPriority(projects[k], priorityFilter)))
            && (sort.field != "updatedAt" ==> IsSubsequence(r, projects))
  {
    var r := FilteredProjects(projects, statusFilter, priorityFilter, sort);
    var both := Filter(projects, BothKeep(statusFilter, priorityFilter));
    FilterIsSubsequence(projects, BothKeep(statusFilter, priorityFilter));
    SameMembers(r, both);
    forall x ensures x in r <==> x in projects && PassStatus(x, statusFilter) && PassPriority(x, priorityFilter) {
      FilterMember(projects, BothKeep(statusFilter, priorityFilter), x);
    }
  }

  /** With both filters on 'all' every project is listed, and without
      the `updatedAt` sort the list is shown as it came. */
  lemma AllFiltersKeepEverything(projects: seq<ProjectRow>, sort: SortOption)
    ensures multiset(FilteredProjects(projects, "all", "all", sort)) == multiset(projects)
    ensures sort.field != "updatedAt" ==> FilteredProjects(projects, "all", "all", sort) == projects
  {
    FilterKeepsAll(projects, BothKeep("all", "all"));
    FilterKeepsAll(projects, StatusKeep("all"));
    FilterKeepsAll(projects, PriorityKeep("all"));
  }
}
