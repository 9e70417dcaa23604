/**
 * The admin users screen: the search over the list, the role and status
 * badges, the role change and the active/inactive toggle, and the server
 * page's transform of profile rows into the list's records.
 *
 * Dates come from the clock and the database in the source; here the
 * formatting is a parameter.
 */
module Users {
  import opened Wrappers
  import Lists
  import Text

  datatype User = User(
    id: string,
    name: string,
    email: string,
    role: string,
    status: string,
    lastLogin: string,
    projectsCount: nat)

  // ---------------------------------------------------------------- search

  /** The lower-cased name or email contains the lower-cased search term. */
  predicate Matches(u: User, searchTerm: string) {
    Text.ContainsIgnoringCase(u.name, searchTerm) || Text.ContainsIgnoringCase(u.email, searchTerm)
  }

  /** `filteredUsers`. */
  function FilteredUsers(users: seq<User>, searchTerm: string): (r: seq<User>)
    ensures |r| <= |users|
    ensures forall u :: u in r <==> u in users && Matches(u, searchTerm)
  {
    Lists.Filter(users, u => Matches(u, searchTerm))
  }

  /** An empty search shows the whole list, in order. */
  lemma EmptySearchKeepsAll(users: seq<User>)
    ensures FilteredUsers(users, "") == users
  {
    forall i | 0 <= i < |users| ensures Matches(users[i], "") {
      Text.EmptySearchMatches(users[i].name);
    }
    Lists.FilterAll(users, u => Matches(u, ""));
  }

  /** The search is blind to the case of the term. */
  lemma SearchIgnoresCase(users: seq<User>, searchTerm: string)
    ensures FilteredUsers(users, Text.Lower(searchTerm)) == FilteredUsers(users, searchTerm)
  {
    forall u: User ensures Matches(u, Text.Lower(searchTerm)) == Matches(u, searchTerm) {
      Text.SearchIgnoresCase(u.name, searchTerm);
      Text.SearchIgnoresCase(u.email, searchTerm);
    }
    Lists.FilterAgree(users, u => Matches(u, Text.Lower(searchTerm)), u => Matches(u, searchTerm));
  }

  // ---------------------------------------------------------------- badges

  /** `getRoleBadge`: the three known roles, anything else shown as a plain user. */
  function RoleBadge(role: string): (badge: string)
    ensures role == "admin" ==> badge == "badge bg-danger"
    ensures role == "manager" ==> badge == "badge bg-warning"
    ensures role !in {"admin", "manager"} ==> badge == "badge bg-secondary"
  {
    if role == "admin" then "badge bg-danger"
    else if role == "manager" then "badge bg-warning"
    else "badge bg-secondary"
  }

  /** `getStatusBadge`: green exactly for "active". */
  function StatusBadge(status: string): (badge: string)
    ensures badge == "badge bg-success" <==> status == "active"
    ensures status != "active" ==> badge == "badge bg-secondary"
  {
    if status == "active" then "badge bg-success" else "badge bg-secondary"
  }

  // ---------------------------------------------------------------- edits

  /** `handleRoleChange`: the user with the id gets the new role. */
  function RoleChange(users: seq<User>, userId: string, newRole: string): (r: seq<User>)
    ensures |r| == |users|
    ensures forall i :: 0 <= i < |users| ==>
      r[i] == if users[i].id == userId then users[i].(role := newRole) else users[i]
  {
    Lists.MapWhere(users, (u: User) => u.id == userId, (u: User) => u.(role := newRole))
  }

  /** The search does not look at the role, so a role change and the search commute. */
  lemma RoleChangeCommutesWithSearch(users: seq<User>, userId: string, newRole: string, searchTerm: string)
    ensures FilteredUsers(RoleChange(users, userId, newRole), searchTerm)
            == RoleChange(FilteredUsers(users, searchTerm), userId, newRole)
  {
    Lists.FilterMapWhere(users, u => Matches(u, searchTerm), (u: User) => u.id == userId,
                         (u: User) => u.(role := newRole));
  }

  /** "active" becomes "inactive"; every other status becomes "active". */
  function Flip(status: string): (r: string)
    ensures status == "active" ==> r == "inactive"
    ensures status != "active" ==> r == "active"
  {
    if status == "active" then "inactive" else "active"
  }

  /** `handleStatusToggle`: the user with the id has its status flipped. */
  function StatusToggle(users: seq<User>, userId: string): (r: seq<User>)
    ensures |r| == |users|
    ensures forall i :: 0 <= i < |users| ==>
      r[i] == if users[i].id == userId then users[i].(status := Flip(users[i].status)) else users[i]
  {
    Lists.MapWhere(users, (u: User) => u.id == userId, (u: User) => u.(status := Flip(u.status)))
  }

  /** Both statuses the list is meant to hold. */
  predicate KnownStatuses(users: seq<User>) {
    forall i :: 0 <= i < |users| ==> users[i].status in {"active", "inactive"}
  }

  /**
   * Toggling twice restores the list when every status is "active" or
   * "inactive"; any other status would come back as "inactive".
   */
  lemma ToggleTwiceRestores(users: seq<User>, userId: string)
    requires KnownStatuses(users)
    ensures StatusToggle(StatusToggle(users, userId), userId) == users
    ensures KnownStatuses(StatusToggle(users, userId))
  {
    var once := StatusToggle(users, userId);
    var twice := StatusToggle(once, userId);
    assert |twice| == |users|;
    forall i | 0 <= i < |users| ensures twice[i] == users[i] {
      assert once[i].id == users[i].id;
    }
  }

  // ---------------------------------------------------------------- database rows

  /** One element of the embedded `projects(count)` relation. */
  datatype CountRow = CountRow(count: Option<nat>)

  datatype ProfileRow = ProfileRow(
    id: string,
    fullName: Option<string>,
    role: string,
    isActive: Option<bool>,
    updatedAt: string,
    projects: Option<seq<CountRow>>)

  /** `projects?.[0]?.count || 0`. */
  function ProjectsCount(projects: Option<seq<CountRow>>): (n: nat)
    ensures projects.None? || projects.value == [] ==> n == 0
    ensures projects.Some? && projects.value != [] && projects.value[0].count.Some? ==>
      n == projects.value[0].count.value
    ensures projects.Some? && projects.value != [] && projects.value[0].count.None? ==> n == 0
  {
    if projects.Some? && projects.value != [] then projects.value[0].count.GetOr(0) else 0
  }

  /** One row of `transformedUsers`; `formatDate` stands for the ISO date of `updated_at`. */
  function TransformUser(row: ProfileRow, formatDate: string -> string): (u: User)
    ensures u.id == row.id && u.role == row.role && u.email == ""
    ensures u.name == StrOrDefault(row.fullName, "Unknown") && u.name != ""
    ensures u.status == "active" <==> row.isActive == Some(true)
    ensures u.status in {"active", "inactive"}
    ensures u.lastLogin == formatDate(row.updatedAt)
    ensures u.projectsCount == ProjectsCount(row.projects)
  {
    User(row.id, StrOrDefault(row.fullName, "Unknown"), "", row.role,
         if row.isActive == Some(true) then "active" else "inactive",
         formatDate(row.updatedAt), ProjectsCount(row.projects))
  }

  /** `(users || []).map(...)`: one user per row, in order. */
  function TransformUsers(rows: Option<seq<ProfileRow>>, formatDate: string -> string): (r: seq<User>)
    ensures rows.None? ==> r == []
    ensures rows.Some? ==> |r| == |rows.value|
    ensures rows.Some? ==> forall i :: 0 <= i < |r| ==> r[i] == TransformUser(rows.value[i], formatDate)
  {
    var rs := rows.GetOr([]);
    seq(|rs|, i requires 0 <= i < |rs| => TransformUser(rs[i], formatDate))
  }

  /** The list the page hands over can always be toggled back and forth. */
  lemma TransformedUsersToggleBack(rows: Option<seq<ProfileRow>>, formatDate: string -> string, userId: string)
    ensures var users := TransformUsers(rows, formatDate);
      StatusToggle(StatusToggle(users, userId), userId) == users
  {
    ToggleTwiceRestores(TransformUsers(rows, formatDate), userId);
  }
}
