/**
 * The admin companies screen: the search over the list, the status badge, the
 * "Add Company" modal (its guard, the domain slug, the append and the form
 * reset), the status change, and the server page's transform of database rows
 * into the list's records.
 *
 * Ids and dates come from the clock in the source; here they are parameters.
 */
module Companies {
  import opened Wrappers
  import Lists
  import Text

  /** The company's project defaults; the last two exist only on records built from database rows. */
  datatype CompanySettings = CompanySettings(
    defaultPricePerSq: real,
    defaultHourlyRate: real,
    defaultCommissionSales: real,
    defaultCommissionPM: real,
    defaultMaterialPercentage: Option<real>,
    defaultMarginPercentage: Option<real>)

  datatype Company = Company(
    id: string,
    name: string,
    domain: string,
    status: string,
    usersCount: nat,
    projectsCount: nat,
    createdAt: string,
    settings: CompanySettings)

  // ---------------------------------------------------------------- search

  /** The lower-cased name or domain contains the lower-cased search term. */
  predicate Matches(c: Company, searchTerm: string) {
    Text.ContainsIgnoringCase(c.name, searchTerm) || Text.ContainsIgnoringCase(c.domain, searchTerm)
  }

  /** `filteredCompanies`. */
  function FilteredCompanies(companies: seq<Company>, searchTerm: string): (r: seq<Company>)
    ensures |r| <= |companies|
    ensures forall c :: c in r <==> c in companies && Matches(c, searchTerm)
  {
    Lists.Filter(companies, c => Matches(c, searchTerm))
  }

  /** An empty search shows the whole list, in order. */
  lemma EmptySearchKeepsAll(companies: seq<Company>)
    ensures FilteredCompanies(companies, "") == companies
  {
    forall i | 0 <= i < |companies| ensures Matches(companies[i], "") {
      Text.EmptySearchMatches(companies[i].name);
    }
    Lists.FilterAll(companies, c => Matches(c, ""));
  }

  /** The search is blind to the case of the term. */
  lemma SearchIgnoresCase(companies: seq<Company>, searchTerm: string)
    ensures FilteredCompanies(companies, Text.Lower(searchTerm)) == FilteredCompanies(companies, searchTerm)
  {
    forall c: Company ensures Matches(c, Text.Lower(searchTerm)) == Matches(c, searchTerm) {
      Text.SearchIgnoresCase(c.name, searchTerm);
      Text.SearchIgnoresCase(c.domain, searchTerm);
    }
    Lists.FilterAgree(companies, c => Matches(c, Text.Lower(searchTerm)), c => Matches(c, searchTerm));
  }

  // ---------------------------------------------------------------- status badge

  /** `getStatusBadge`: the three known statuses, anything else shown as pending. */
  function StatusBadge(status: string): (badge: string)
    ensures status == "active" ==> badge == "badge bg-success"
    ensures status == "inactive" ==> badge == "badge bg-secondary"
    ensures status == "pending" ==> badge == "badge bg-warning"
    ensures badge == "badge bg-warning" <==> status !in {"active", "inactive"}
  {
    if status == "active" then "badge bg-success"
    else if status == "inactive" then "badge bg-secondary"
    else "badge bg-warning"
  }

  // ---------------------------------------------------------------- adding a company

  datatype NewCompanyForm = NewCompanyForm(
    name: string,
    domain: string,
    defaultPricePerSq: real,
    defaultHourlyRate: real,
    defaultCommissionSales: real,
    defaultCommissionPM: real)

  /** The modal's empty form. */
  const EmptyForm := NewCompanyForm("", "", 4.0, 65.0, 10.0, 5.0)

  datatype ClientState = ClientState(companies: seq<Company>, newCompany: NewCompanyForm, showAddCompany: bool)

  function InitialState(initialCompanies: seq<Company>): ClientState {
    ClientState(initialCompanies, EmptyForm, false)
  }

  /** A stored domain: no whitespace and no upper-case letter. */
  predicate IsSlug(s: string) {
    forall i :: 0 <= i < |s| ==> !Text.IsSpace(s[i]) && !('A' <= s[i] <= 'Z')
  }

  /** `domain.toLowerCase().replace(/\s+/g, '-')`. */
  function Slug(domain: string): (r: string)
    ensures IsSlug(r)
  {
    var lower := Text.Lower(domain);
    var r := Text.DashRuns(lower);
    assert forall i :: 0 <= i < |r| ==> !('A' <= r[i] <= 'Z') by {
      forall i | 0 <= i < |r| ensures !('A' <= r[i] <= 'Z') {
        assert r[i] in r;
        if r[i] != '-' {
          var j :| 0 <= j < |lower| && lower[j] == r[i];
        }
      }
    }
    r
  }

  /** A domain that is already a slug is stored as typed, so slugging twice changes nothing. */
  lemma SlugOfSlug(s: string)
    requires IsSlug(s)
    ensures Slug(s) == s
  {
    Text.LowerNoUpper(s);
    Text.DashRunsNoSpace(s);
  }

  lemma SlugIdempotent(domain: string)
    ensures Slug(Slug(domain)) == Slug(domain)
  {
    SlugOfSlug(Slug(domain));
  }

  /** Words typed with whitespace between them are joined by a single '-'. */
  lemma SlugJoinsWords(a: string, ws: string, b: string)
    requires IsSlug(a) && IsSlug(b)
    requires ws != [] && forall i :: 0 <= i < |ws| ==> Text.IsSpace(ws[i])
    ensures Slug(a + ws + b) == a + "-" + b
  {
    var x := a + ws + b;
    assert forall i :: 0 <= i < |x| ==> !('A' <= x[i] <= 'Z') by {
      forall i | 0 <= i < |x| ensures !('A' <= x[i] <= 'Z') {
        if i < |a| { assert x[i] == a[i]; }
        else if i < |a| + |ws| { assert x[i] == ws[i - |a|]; }
        else { assert x[i] == b[i - |a| - |ws|]; }
      }
    }
    Text.LowerNoUpper(x);
    Text.DashRunsReplacesRun(a, ws, b);
    Text.DashRunsNoSpace(b);
  }

  /** The record `handleAddCompany` appends. */
  function NewCompany(form: NewCompanyForm, id: string, createdAt: string): (c: Company)
    ensures c.status == "pending" && c.usersCount == 0 && c.projectsCount == 0
    ensures c.name == form.name && c.domain == Slug(form.domain) && IsSlug(c.domain)
    ensures c.settings.defaultPricePerSq == form.defaultPricePerSq
    ensures c.settings.defaultHourlyRate == form.defaultHourlyRate
    ensures c.settings.defaultCommissionSales == form.defaultCommissionSales
    ensures c.settings.defaultCommissionPM == form.defaultCommissionPM
  {
    Company(id, form.name, Slug(form.domain), "pending", 0, 0, createdAt,
            CompanySettings(form.defaultPricePerSq, form.defaultHourlyRate,
                            form.defaultCommissionSales, form.defaultCommissionPM, None, None))
  }

  /**
   * `handleAddCompany`: nothing happens without both a name and a domain;
   * otherwise one company is appended, the form is reset and the modal closes.
   */
  function AddCompany(st: ClientState, id: string, createdAt: string): (r: ClientState)
    ensures st.newCompany.name == "" || st.newCompany.domain == "" ==> r == st
    ensures st.newCompany.name != "" && st.newCompany.domain != "" ==>
      && r.companies == st.companies + [NewCompany(st.newCompany, id, createdAt)]
      && r.newCompany == EmptyForm
      && !r.showAddCompany
  {
    if st.newCompany.name == "" || st.newCompany.domain == "" then st
    else ClientState(st.companies + [NewCompany(st.newCompany, id, createdAt)], EmptyForm, false)
  }

  /** After an add, searching for the new company's name finds it. */
  lemma AddedCompanyIsFound(st: ClientState, id: string, createdAt: string)
    requires st.newCompany.name != "" && st.newCompany.domain != ""
    ensures var r := AddCompany(st, id, createdAt);
      |r.companies| == |st.companies| + 1
      && NewCompany(st.newCompany, id, createdAt) in FilteredCompanies(r.companies, st.newCompany.name)
  {
    var c := NewCompany(st.newCompany, id, createdAt);
    var lower := Text.Lower(c.name);
    assert Text.OccursAt(lower, lower, 0);
    Text.ContainsAt(lower, lower);
    var r := AddCompany(st, id, createdAt);
    assert r.companies[|st.companies|] == c;
  }

  // ---------------------------------------------------------------- status change

  /** `handleStatusChange`: the company with the id gets the new status. */
  function StatusChange(companies: seq<Company>, companyId: string, newStatus: string): (r: seq<Company>)
    ensures |r| == |companies|
    ensures forall i :: 0 <= i < |companies| ==>
      r[i] == if companies[i].id == companyId then companies[i].(status := newStatus) else companies[i]
  {
    Lists.MapWhere(companies, (c: Company) => c.id == companyId, (c: Company) => c.(status := newStatus))
  }

  /** Setting the same status twice is setting it once. */
  lemma StatusChangeIdempotent(companies: seq<Company>, companyId: string, newStatus: string)
    ensures StatusChange(StatusChange(companies, companyId, newStatus), companyId, newStatus)
            == StatusChange(companies, companyId, newStatus)
  {
  }

  /** The search does not look at the status, so a status change and the search commute. */
  lemma StatusChangeCommutesWithSearch(companies: seq<Company>, companyId: string, newStatus: string,
                                       searchTerm: string)
    ensures FilteredCompanies(StatusChange(companies, companyId, newStatus), searchTerm)
            == StatusChange(FilteredCompanies(companies, searchTerm), companyId, newStatus)
  {
    Lists.FilterMapWhere(companies, c => Matches(c, searchTerm), (c: Company) => c.id == companyId,
                         (c: Company) => c.(status := newStatus));
  }

  // ---------------------------------------------------------------- database rows

  /** The `settings` JSON column; each key may be missing. */
  datatype StoredSettings = StoredSettings(
    defaultPricePerSq: Option<real>,
    defaultHourlyRate: Option<real>,
    defaultCommissionSales: Option<real>,
    defaultCommissionPM: Option<real>,
    defaultMaterialPercentage: Option<real>,
    defaultMarginPercentage: Option<real>)

  /** The embedded `user_profiles(count)` relation: an array, or anything else. */
  datatype Embedded = Rows(items: seq<nat>) | NotArray

  datatype CompanyRow = CompanyRow(
    id: string,
    name: string,
    domain: Option<string>,
    status: Option<string>,
    settings: Option<StoredSettings>,
    createdAt: string,
    userProfiles: Embedded)

  /** `settings?.key || default` for each key. */
  function SettingsFrom(s: Option<StoredSettings>): (r: CompanySettings)
    ensures r.defaultPricePerSq != 0.0 && r.defaultHourlyRate != 0.0
    ensures r.defaultCommissionSales != 0.0 && r.defaultCommissionPM != 0.0
    ensures r.defaultMaterialPercentage.Some? && r.defaultMaterialPercentage.value != 0.0
    ensures r.defaultMarginPercentage.Some? && r.defaultMarginPercentage.value != 0.0
    ensures s.None? ==> r == CompanySettings(4.0, 65.0, 10.0, 5.0, Some(12.0), Some(25.0))
    ensures s.Some? && Truthy(s.value.defaultPricePerSq) ==> r.defaultPricePerSq == s.value.defaultPricePerSq.value
    ensures s.Some? && !Truthy(s.value.defaultPricePerSq) ==> r.defaultPricePerSq == 4.0
    ensures s.Some? && Truthy(s.value.defaultHourlyRate) ==> r.defaultHourlyRate == s.value.defaultHourlyRate.value
    ensures s.Some? && !Truthy(s.value.defaultHourlyRate) ==> r.defaultHourlyRate == 65.0
    ensures s.Some? && Truthy(s.value.defaultCommissionSales) ==> r.defaultCommissionSales == s.value.defaultCommissionSales.value
    ensures s.Some? && !Truthy(s.value.defaultCommissionSales) ==> r.defaultCommissionSales == 10.0
    ensures s.Some? && Truthy(s.value.defaultCommissionPM) ==> r.defaultCommissionPM == s.value.defaultCommissionPM.value
    ensures s.Some? && !Truthy(s.value.defaultCommissionPM) ==> r.defaultCommissionPM == 5.0
    ensures s.Some? && Truthy(s.value.defaultMaterialPercentage) ==> r.defaultMaterialPercentage == s.value.defaultMaterialPercentage
    ensures s.Some? && !Truthy(s.value.defaultMaterialPercentage) ==> r.defaultMaterialPercentage == Some(12.0)
    ensures s.Some? && Truthy(s.value.defaultMarginPercentage) ==> r.defaultMarginPercentage == s.value.defaultMarginPercentage
    ensures s.Some? && !Truthy(s.value.defaultMarginPercentage) ==> r.defaultMarginPercentage == Some(25.0)
  {
    var st := s.GetOr(StoredSettings(None, None, None, None, None, None));
    CompanySettings(
      OrDefault(st.defaultPricePerSq, 4.0),
      OrDefault(st.defaultHourlyRate, 65.0),
      OrDefault(st.defaultCommissionSales, 10.0),
      OrDefault(st.defaultCommissionPM, 5.0),
      Some(OrDefault(st.defaultMaterialPercentage, 12.0)),
      Some(OrDefault(st.defaultMarginPercentage, 25.0)))
  }

  /** One row of `transformedCompanies`; `formatDate` stands for `toLocaleDateString`. */
  function TransformCompany(row: CompanyRow, formatDate: string -> string): (c: Company)
    ensures c.id == row.id && c.name == row.name
    ensures c.domain == StrOrDefault(row.domain, "")
    ensures c.status == StrOrDefault(row.status, "active") && c.status != ""
    ensures c.usersCount == (if row.userProfiles.Rows? then |row.userProfiles.items| else 0)
    ensures c.projectsCount == 0
    ensures c.createdAt == formatDate(row.createdAt)
    ensures c.settings == SettingsFrom(row.settings)
  {
    Company(row.id, row.name, StrOrDefault(row.domain, ""), StrOrDefault(row.status, "active"),
            if row.userProfiles.Rows? then |row.userProfiles.items| else 0, 0,
            formatDate(row.createdAt), SettingsFrom(row.settings))
  }

  /** `(companies || []).map(...)`: one record per row, in order. */
  function TransformCompanies(rows: Option<seq<CompanyRow>>, formatDate: string -> string): (r: seq<Company>)
    ensures rows.None? ==> r == []
    ensures rows.Some? ==> |r| == |rows.value|
    ensures rows.Some? ==> forall i :: 0 <= i < |r| ==> r[i] == TransformCompany(rows.value[i], formatDate)
  {
    var rs := rows.GetOr([]);
    seq(|rs|, i requires 0 <= i < |rs| => TransformCompany(rs[i], formatDate))
  }

  /** A stored 0 is not a setting: the transform puts the stock default in its place. */
  lemma StoredZeroReplaced(s: StoredSettings)
    requires s.defaultPricePerSq == Some(0.0) && s.defaultHourlyRate == Some(0.0)
    ensures SettingsFrom(Some(s)).defaultPricePerSq == 4.0
    ensures SettingsFrom(Some(s)).defaultHourlyRate == 65.0
  {
  }

  /** A row without a status is listed, and badged, as active. */
  lemma MissingStatusShowsActive(row: CompanyRow, formatDate: string -> string)
    requires row.status.None? || row.status == Some("")
    ensures StatusBadge(TransformCompany(row, formatDate).status) == "badge bg-success"
  {
  }
}
