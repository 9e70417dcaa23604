# Painting-contractor calculator, modelled in Dafny

This project models the computational core of a painting contractor's web
calculator:

- the exterior estimator, which turns a price per square foot, labour, paint
  and subcontract figures into project value, hours, days, gallons, cost,
  profit and percentages;
- the paint-budget reconciliation and margin indicators shown beside the
  exterior and interior estimates;
- the interior estimator, which sums wall, door, window, floor and trim areas
  over a list of rooms, with its room-list editing;
- the clamping numeric input box;
- the per-user settings form, with its fallback to company defaults, its save
  payload and its merge into the calculator's stored data;
- the job-description text generator and its checkbox and room editing;
- the admin lists for companies, users and projects: search, badges, status
  and role edits, company-domain slugs, and the transforms of database rows;
- the client-side project cache, and the test for whether the database is
  configured.

Money and areas are Dafny `real`s, so 0.33 is exactly 33/100. Strings are
`seq<char>`. Lower-casing and whitespace are ASCII. The clock, ids,
`parseFloat`, the database, the network and browser storage are outside the
model. Their outcomes are parameters of the operations that use them.

The model follows what the code does. In these places that differs from
what its labels, comments or identifiers suggest:

- The calculations divide without guarding against 0
  (`src/components/Dashboard.tsx:46-56`). Each divisor is therefore a
  precondition (`requires d != 0.0`), not a guarded 0.
- The number of coats is used as typed and is not floored at 0.
- The figure labelled gross profit is the project value minus the
  subcontract value only (`src/components/Dashboard.tsx:54`). The comment
  above it says that neither paint nor subcontract is subtracted, yet the
  subcontract is. The cost breakdown beside it lists paint and commissions,
  but they are not subtracted. The actual margin is therefore
  `100 - subcontractPercentage` whatever the paint costs.
- The interior value named `profit` is the input margin percentage of the
  price. The interior margin bar, label and alert compare the two input
  percentages and ignore the room estimate.
- The admin projects status filter is an exact, case-sensitive comparison.
  Only the search ignores case.
- Removing an interior room is refused only when one room is left. A removal
  by an id that several rooms share can still empty the list; with distinct
  ids it cannot.
- A settings box cleared in the form removes its key, so applying the
  settings keeps the calculator's stored value for that field rather than the
  company default.

Forms that edit state in place (the interior room loop, the blur handler,
the payload and merge loops, the description builder, the URL builder, the
project cache) are methods. Each is proved equal to a specification function,
and the properties are lemmas about that function. The pure list, map and
string rules are functions with contracts and lemmas.

Modules: `Wrappers` (optional values and JavaScript `||` defaults), `Text`
(string built-ins), `Lists` (`filter` and id-keyed `map`), `Exterior`,
`Budget`, `Interior`, `InputField`, `Settings`, `Description`, `Companies`,
`Users`, `AdminProjects`, `ProjectStore`, `Config`, `HomePage`.

## Model

| member | source | states |
|---|---|---|
| Wrappers.OrDefault | src/app/admin/companies/page.tsx:69-74 | a number or its default: the value when present and non-zero, else the default; a non-zero default never yields 0 |
| Wrappers.StrOrDefault | src/app/admin/users/page.tsx:54 | a string or its default: the string when present and non-empty, else the default |
| Text.Lower | src/app/admin/companies/CompaniesClient.tsx:41-42 | lower-casing keeps the length and maps each character by ASCII case folding |
| Text.LowerIdempotent | src/app/admin/companies/CompaniesClient.tsx:41-42 | lower-casing twice is lower-casing once |
| Text.ContainsAt | src/lib/config.ts:8-9 | `includes` holds exactly when the pattern occurs at some position |
| Text.TrimEmptyIffBlank | src/components/SettingsForm.tsx:49-50 | the trimmed text is empty exactly when every character is whitespace |
| Text.DashRuns | src/app/admin/companies/CompaniesClient.tsx:60 | replacing whitespace runs by '-' leaves no whitespace and adds no character but '-' |
| Text.TrimStartRun | src/app/admin/companies/CompaniesClient.tsx:60 | a whole whitespace run is consumed up to the next non-space character |
| Text.DashRunsReplacesRun | src/app/admin/companies/CompaniesClient.tsx:60 | one maximal run of whitespace after a space-free prefix becomes exactly one '-'; the prefix is kept |
| Text.DashRunsNoSpace | src/app/admin/companies/CompaniesClient.tsx:60 | a string without whitespace is unchanged by the replacement |
| Text.ReplaceFirstAt | src/app/admin/projects/page.tsx:29 | `replace` with a one-character pattern changes exactly the first occurrence |
| Text.ReplaceFirstAbsent | src/app/admin/projects/page.tsx:29 | without an occurrence the string is unchanged |
| Text.NatToStringRoundTrip | src/components/InteriorCalculator.tsx:183 | the decimal digits of the room number read back as that number |
| Lists.Filter | src/components/InteriorCalculator.tsx:203 | `filter` keeps exactly the elements that pass, never lengthens the list |
| Lists.FilterAppend | src/components/DescriptionGenerator.tsx:85 | filtering works piecewise over a concatenation, so order is kept |
| Lists.FilterIdempotent | src/components/DescriptionGenerator.tsx:85 | filtering twice by the same predicate is filtering once |
| Lists.FilterLength | src/components/InteriorCalculator.tsx:203 | the filtered length is the length minus the number of rejected elements |
| Lists.MapWhere | src/components/InteriorCalculator.tsx:174-176 | the id-keyed `map` keeps the length and rewrites exactly the selected elements |
| Lists.FilterMapWhere | src/app/admin/companies/CompaniesClient.tsx:40-43 | a rewrite that does not affect the filter commutes with it |
| Exterior.UpdateProjectData | src/components/Dashboard.tsx:76-78 | each field is the update's value when the update has that key, else the previous value |
| Exterior.UpdateProjectDataLaws | src/components/Dashboard.tsx:76-78 | an empty update is the identity; applying an update twice is applying it once |
| Exterior.CalculateValues | src/components/Dashboard.tsx:44-70 | the project value is price times area; gross profit plus subcontract value is the project value; the paint cost is gallons times price; margin is `100 - subcontractPercentage` |
| Exterior.ChainMeaning | src/components/Dashboard.tsx:44-70 | every other figure of the chain as a relation to the inputs: hours bill the value at the rate, days spread hours over the crew, gallons cover every coat, subcontract value and days, material share of the value |
| Exterior.MarginAlgebra | src/components/Dashboard.tsx:50-55 | for a non-zero value, `((v - v*p/100)/v)*100 = 100 - p` |
| Exterior.MarginIndependentOfPaint | src/components/Dashboard.tsx:48-55 | changing coverage, coats or paint price leaves gross profit and margin unchanged |
| Exterior.GetTrend | src/components/Dashboard.tsx:80-86 | up exactly when value >= target (higher is better) or value <= target (otherwise) |
| Exterior.Metrics | src/components/Dashboard.tsx:88-119 | five cards; only gross profit and material carry a trend; material is up exactly when target <= actual |
| Exterior.GrossProfitTrendFromSubcontract | src/components/Dashboard.tsx:98 | the gross-profit card is up exactly when `100 - subcontractPercentage` reaches the target margin |
| Budget.AffordableGallons | src/components/Calculator.tsx:177 | the affordable gallons times the price per gallon is the paint budget |
| Budget.CoverableArea | src/components/Calculator.tsx:181 | the coverable area times the coats is the affordable gallons times the coverage |
| Budget.CoveragePercent | src/components/Calculator.tsx:213 | the coverage percentage times the needed gallons is 100 times the affordable gallons |
| Budget.DifferenceColoursMatchAlerts | src/components/Calculator.tsx:155-157 | "suficiente" iff the cost difference is >= 0; "excedente" iff the gallon difference is >= 0 |
| Budget.CoverageGreenIffSurplus | src/components/Calculator.tsx:183-185 | with a positive need, coverage >= 100% iff the budget is in surplus |
| Budget.SufficientIffSurplus | src/components/Calculator.tsx:155-185 | with cost = gallons times a positive price, the two alert boxes agree |
| Budget.BoundaryBothGreen | src/components/Calculator.tsx:200-207 | at exact equality both boxes are green and the cost difference is 0 |
| Budget.TotalCommissions | src/components/Calculator.tsx:256 | the two commissions add up to the value times the summed percentages over 100 |
| Budget.ProgressColour | src/components/Calculator.tsx:19-29 | green exactly when actual <= target |
| Budget.MarginIndicatorsAgree | src/components/Calculator.tsx:284-291 | called as (target, actual), bar colour, icon and label all say "met" exactly when actual >= target |
| Budget.MarginBarWidth | src/components/Calculator.tsx:285 | the width never exceeds 100; it is 100 exactly when the target is reached, and otherwise it is the actual margin as a percentage of the target |
| Budget.ExteriorNegativeMarginIffOversubcontracted | src/components/Calculator.tsx:297 | the negative-margin alert shows exactly when more than 100% is subcontracted |
| Budget.ExteriorBudgetBoxesAgree | src/components/Calculator.tsx:155-185 | on the exterior figures with a positive paint price, both budget boxes agree |
| Interior.Ceil | src/components/InteriorCalculator.tsx:135 | `Math.ceil`: the least integer at or above x |
| Interior.RoomFloorArea | src/components/InteriorCalculator.tsx:81 | the override when present and non-zero, else length times width |
| Interior.RoomTrimArea | src/components/InteriorCalculator.tsx:99-107 | perimeter times 0.5, 0.33 and 0.25 for each trim flag that is set |
| Interior.SumAppend | src/components/InteriorCalculator.tsx:79-108 | a per-room sum over a concatenation is the sum of the two sums |
| Interior.SumPointwise | src/components/InteriorCalculator.tsx:79-108 | lists that agree room by room have equal sums |
| Interior.SumScale | src/components/InteriorCalculator.tsx:93-94 | a per-room figure that is c times another sums to c times its sum |
| Interior.SumZero | src/components/InteriorCalculator.tsx:98-107 | a figure that is 0 for every room sums to 0 |
| Interior.AccumulateRoom | src/components/InteriorCalculator.tsx:80-107 | one pass of the loop adds the room's floor (override or rectangle), ceiling, wall, door, window and trim figures to the running totals |
| Interior.AccumulateRooms | src/components/InteriorCalculator.tsx:72-108 | the loop's six totals are the sums of the per-room floor, wall, ceiling, trim, door and window areas |
| Interior.CalculateInteriorPainting | src/components/InteriorCalculator.tsx:71-165 | the stored figures equal the estimate written over per-room sums |
| Interior.CeilingEqualsFloor | src/components/InteriorCalculator.tsx:81-85 | the ceiling total always equals the floor total, overrides included |
| Interior.OpeningAreas | src/components/InteriorCalculator.tsx:93-96 | door area is 21 times the doors, window area 15 times the windows; net wall area is wall minus both, unclamped |
| Interior.NoTrimFlagsNoTrim | src/components/InteriorCalculator.tsx:99-107 | with no trim flag on any room, trim area and trim paint are 0 |
| Interior.GallonsCoverPaintableArea | src/components/InteriorCalculator.tsx:113-125 | total gallons times coverage is the paintable area times the coats |
| Interior.PaintCostIsGallonsTimesPrice | src/components/InteriorCalculator.tsx:128-131 | the paint cost is the total gallons times the price per gallon |
| Interior.DaysBoundHours | src/components/InteriorCalculator.tsx:134-135 | hours are the paintable area over 100, and `8(days - 1) < hours <= 8 days` |
| Interior.PriceIgnoresPaintAndLabour | src/components/InteriorCalculator.tsx:139-140 | price and profit depend only on floor area, price per square foot and margin percentage |
| Interior.ProfitSignFollowsPercentage | src/components/InteriorCalculator.tsx:140 | with a positive price, profit is non-negative exactly when the percentage is |
| Interior.InteriorBudgetBoxesAgree | src/components/InteriorCalculator.tsx:525-555 | with a positive paint price, the interior "suficiente" and "excedente" boxes agree |
| Interior.DefaultNetWallAreaNegative | src/components/InteriorCalculator.tsx:10-40 | the initial inputs give a net wall area and a paintable area of -51 |
| Interior.SubcontractValue | src/components/InteriorCalculator.tsx:736 | the value times 100 is the price times the subcontract percentage |
| Interior.SubDays | src/components/InteriorCalculator.tsx:744 | the least integer at or above the subcontracted hours over the sub's hours per day |
| Interior.SubDaysHoldSubHours | src/components/InteriorCalculator.tsx:744 | with positive hours per day, the fewest whole days that hold the subcontracted hours |
| Interior.InteriorCommissions | src/components/InteriorCalculator.tsx:649 | the commissions are the price times the summed percentages over 100 |
| Interior.InteriorMarginPanel | src/components/InteriorCalculator.tsx:676-700 | the bar is green, with a met label, exactly when the input margin reaches the target; the alert shows exactly when the margin is negative; the width is the shared bar width for a non-zero target, a full 100 for a positive margin against a zero target, and absent only for a zero target with a zero or negative margin; it never exceeds 100 |
| Interior.MarginPanelIgnoresEstimate | src/components/InteriorCalculator.tsx:676-700 | rooms, prices, paint and every input other than the two percentages leave the panel unchanged |
| Interior.MarginPanelAgrees | src/components/InteriorCalculator.tsx:676-700 | for a positive target, the target is met exactly when the bar is full, and a negative margin never meets it; for a negative target, any positive margin meets it with a negative width |
| Interior.ShareAtLeastOne | src/components/InteriorCalculator.tsx:678 | for a positive target, the margin-to-target ratio reaches 1 exactly when the margin reaches the target |
| Interior.UpdateInputs | src/components/InteriorCalculator.tsx:167-169 | each input is the update's value when given, else the previous one |
| Interior.UpdateInputsLaws | src/components/InteriorCalculator.tsx:167-169 | an empty update is the identity; an update applied twice is applied once |
| Interior.UpdateInputsKeepsAreas | src/components/InteriorCalculator.tsx:167-169 | an update without rooms leaves every area total unchanged |
| Interior.ApplyRoomPatch | src/components/InteriorCalculator.tsx:175 | each room field is the update's value when given, else the room's |
| Interior.FloorAreaEntry | src/components/InteriorCalculator.tsx:368 | only the floor-area key is patched; 0, an empty box or non-numeric text clears the override, and any other number sets it to that number |
| Interior.UpdateRoom | src/components/InteriorCalculator.tsx:171-178 | only rooms with the id change; length, order and the other inputs stay |
| Interior.UpdateRoomUnknownId | src/components/InteriorCalculator.tsx:171-178 | an id no room carries changes nothing |
| Interior.FloorAreaEntryKeepsWalls | src/components/InteriorCalculator.tsx:368 | editing the floor-area box never changes the wall, door, window or trim totals |
| Interior.NewRoom | src/components/InteriorCalculator.tsx:181-192 | named "Room n+1", default ceiling height, 0 by 0, baseboards only, one door, one window |
| Interior.AddRoom | src/components/InteriorCalculator.tsx:180-197 | the new room goes at the end; nothing else changes |
| Interior.AddRoomEffect | src/components/InteriorCalculator.tsx:180-197 | adding a room keeps floor, wall and trim totals, adds 21 and 15 square feet of openings and lowers the net wall area by 36 |
| Interior.RemoveRoom | src/components/InteriorCalculator.tsx:199-206 | one room or none: unchanged; otherwise exactly the rooms with the id go |
| Interior.RemoveRoomNeverEmpties | src/components/InteriorCalculator.tsx:199-206 | with distinct ids a non-empty list stays non-empty |
| InputField.WithDefaults | src/components/InputField.tsx:22-24 | `min` defaults to 0 and `step` to 1; `max` has no default |
| InputField.ParseOrZero | src/components/InputField.tsx:40 | unparseable text becomes 0 |
| InputField.Clamp | src/components/InputField.tsx:41-44 | at least `min` without a `max`; at most `max` with one; within both when `min <= max`; in-range values unchanged; `max` wins when `min > max` |
| InputField.ClampIdempotent | src/components/InputField.tsx:41-44 | clamping a clamped value changes nothing |
| InputField.HandleBlur | src/components/InputField.tsx:39-47 | the value passed on is the clamp of the parsed number or 0 |
| InputField.BlurOutcomes | src/components/InputField.tsx:40-45 | an in-range number is kept; unparseable text becomes the clamp of 0 |
| InputField.Increment | src/components/InputField.tsx:55-58 | the new value is one step above, with no ceiling |
| InputField.Decrement | src/components/InputField.tsx:60-63 | the new value is one step below, but never below `min` |
| InputField.StepRoundTrips | src/components/InputField.tsx:55-63 | up then down restores any value at or above `min`; down then up restores any value a step above it |
| InputField.IncrementCanExceedMax | src/components/InputField.tsx:55-58 | the up arrow can pass `max`, which only blur enforces |
| Settings.Lookup | src/components/SettingsForm.tsx:64 | `obj?.[key]` is undefined on a null object or a missing key |
| Settings.InitialForm | src/components/SettingsForm.tsx:43-46 | edited and saved values start as the user's settings or `{}` |
| Settings.SetField | src/components/SettingsForm.tsx:48-62 | blank input removes the key, NaN changes nothing, a number sets only that key |
| Settings.GetEffective | src/components/SettingsForm.tsx:68-72 | the saved value unless undefined, then the company default |
| Settings.ResetToCompanyDefaults | src/components/SettingsForm.tsx:80-85 | the values and message change only when company defaults exist |
| Settings.Sanitized | src/components/SettingsForm.tsx:87-96 | keeps exactly the keys whose value is a non-NaN number, with their values |
| Settings.SanitizePayload | src/components/SettingsForm.tsx:87-96 | the loop computes the sanitised payload |
| Settings.SanitizedIdempotent | src/components/SettingsForm.tsx:87-96 | sanitising twice is sanitising once |
| Settings.Save | src/components/SettingsForm.tsx:98-121 | success stores the sanitised payload; failure keeps the saved settings and shows the error or the stock text |
| Settings.SaveThenEffective | src/components/SettingsForm.tsx:68-72 | after a save, the effective value is the edited number, else the company default |
| Settings.ClearThenSaveFallsBack | src/components/SettingsForm.tsx:48-57 | clearing a box and saving makes the company default effective |
| Settings.Merged | src/components/SettingsForm.tsx:129-139 | keys not written keep the stored value; numbers override; undefined takes the company default when one exists |
| Settings.ApplyToCalculator | src/components/SettingsForm.tsx:129-139 | the merge loop computes that merged data |
| Settings.MergedIdempotent | src/components/SettingsForm.tsx:129-139 | applying the same settings twice is applying them once |
| Settings.ClearedKeyKeepsStoredValue | src/components/SettingsForm.tsx:52-55 | a cleared key is absent, so the calculator keeps its stored value |
| Settings.MergeWithoutNumbersKeepsStored | src/components/SettingsForm.tsx:129-139 | values with no numbers and no company defaults leave the stored data unchanged |
| Description.GenerateDescription | src/components/DescriptionGenerator.tsx:90-117 | the appended text equals the description function |
| Description.AppendExteriorWork | src/components/DescriptionGenerator.tsx:93-101 | the exterior block appends exactly the exterior section to the text before it |
| Description.AppendInteriorWork | src/components/DescriptionGenerator.tsx:103-114 | the interior block appends exactly the interior section, room lines included, to the text before it |
| Description.AppendRoomLines | src/components/DescriptionGenerator.tsx:111-113 | the room loop appends one line per room, in order |
| Description.WithExteriorAppends | src/components/DescriptionGenerator.tsx:93-102 | the exterior section does not depend on the text before it |
| Description.WithInteriorAppends | src/components/DescriptionGenerator.tsx:104-114 | the interior section does not depend on the text before it |
| Description.SectionsByProjectType | src/components/DescriptionGenerator.tsx:93-114 | header, then the exterior section iff exterior or both, then the interior section iff interior or both |
| Description.StartsWithHeader | src/components/DescriptionGenerator.tsx:91 | every description starts with `Professional <coats>-Coat Painting Project` and a blank line |
| Description.UnselectedSideIgnored | src/components/DescriptionGenerator.tsx:93-104 | the services of an unselected side do not affect the text |
| Description.NoPreparationBullets | src/components/DescriptionGenerator.tsx:105-110 | with no preparation flag, the breakdown heading follows the section heading directly |
| Description.RoomLinesAppend | src/components/DescriptionGenerator.tsx:111-113 | the lines of two room lists in a row are those of the first, then of the second |
| Description.UpdateExterior | src/components/DescriptionGenerator.tsx:39-44 | exactly the edited exterior entry changes: a checkbox edit gives that flag the new value and keeps every other flag, a list edit keeps every flag |
| Description.Toggle | src/components/DescriptionGenerator.tsx:206-210 | checking appends the item; unchecking removes every copy and nothing else |
| Description.ToggleRoundTrip | src/components/DescriptionGenerator.tsx:233-237 | checking then unchecking an item not yet listed restores the list |
| Description.CheckArea | src/components/DescriptionGenerator.tsx:206-210 | an area checkbox toggles that area in the exterior areas only |
| Description.CheckExteriorComponent | src/components/DescriptionGenerator.tsx:233-237 | a component checkbox toggles that component in the exterior components only |
| Description.UpdateInterior | src/components/DescriptionGenerator.tsx:46-51 | exactly the edited interior entry changes: a checkbox edit gives that flag the new value and keeps every other flag, a room-list edit keeps every flag |
| Description.AddRoom | src/components/DescriptionGenerator.tsx:53-66 | a room "New Room" with walls only is appended |
| Description.AddRoomAppendsLine | src/components/DescriptionGenerator.tsx:53-66 | with an interior, adding a room appends exactly its line to the text |
| Description.UpdateRoom | src/components/DescriptionGenerator.tsx:68-78 | only rooms with the id change; length and order stay |
| Description.DeleteRoom | src/components/DescriptionGenerator.tsx:80-88 | exactly the rooms with the id go, with no minimum |
| Description.DeleteLastRoom | src/components/DescriptionGenerator.tsx:80-88 | deleting the only room leaves none |
| Description.CheckRoomComponent | src/components/DescriptionGenerator.tsx:320-324 | the room's toggled component list is written to the rooms with its id |
| Companies.FilteredCompanies | src/app/admin/companies/CompaniesClient.tsx:40-43 | keeps exactly the companies whose name or domain contains the search, ignoring case |
| Companies.EmptySearchKeepsAll | src/app/admin/companies/CompaniesClient.tsx:40-43 | an empty search keeps the whole list in order |
| Companies.SearchIgnoresCase | src/app/admin/companies/CompaniesClient.tsx:40-43 | lower-casing the search first changes nothing |
| Companies.StatusBadge | src/app/admin/companies/CompaniesClient.tsx:45-52 | active, inactive and pending badges; any other status gets the pending badge |
| Companies.Slug | src/app/admin/companies/CompaniesClient.tsx:60 | the stored domain has no whitespace and no upper-case letter |
| Companies.SlugJoinsWords | src/app/admin/companies/CompaniesClient.tsx:60 | two slug words typed with any whitespace run between them are stored joined by one '-' |
| Companies.SlugOfSlug | src/app/admin/companies/CompaniesClient.tsx:60 | a domain that is already a slug is stored as typed |
| Companies.SlugIdempotent | src/app/admin/companies/CompaniesClient.tsx:60 | slugging twice is slugging once |
| Companies.NewCompany | src/app/admin/companies/CompaniesClient.tsx:57-71 | pending, no users or projects, slugged domain, settings from the form |
| Companies.AddCompany | src/app/admin/companies/CompaniesClient.tsx:54-83 | without a name or domain nothing changes; otherwise one company is appended, the form is reset to 4.00/65/10/5 and the modal closes |
| Companies.AddedCompanyIsFound | src/app/admin/companies/CompaniesClient.tsx:40-73 | after an add, searching for the new name finds the new company |
| Companies.StatusChange | src/app/admin/companies/CompaniesClient.tsx:85-89 | only the matching company's status changes; length and order stay |
| Companies.StatusChangeIdempotent | src/app/admin/companies/CompaniesClient.tsx:85-89 | setting a status twice is setting it once |
| Companies.StatusChangeCommutesWithSearch | src/app/admin/companies/CompaniesClient.tsx:40-89 | changing a status and searching can be done in either order |
| Companies.SettingsFrom | src/app/admin/companies/page.tsx:69-76 | for each of the six keys, a truthy stored value is kept and a missing or 0 one becomes 4.00/65/10/5/12/25; without stored settings all six are defaults; none is 0 |
| Companies.TransformCompany | src/app/admin/companies/page.tsx:60-76 | domain defaults to '', status to 'active'; users count is the array length or 0; projects count is 0 |
| Companies.TransformCompanies | src/app/admin/companies/page.tsx:60 | one record per row, in order; no data gives no records |
| Companies.StoredZeroReplaced | src/app/admin/companies/page.tsx:69-70 | a stored 0 is replaced by the stock default |
| Companies.MissingStatusShowsActive | src/app/admin/companies/page.tsx:64 | a row without a status gets the active badge |
| Users.FilteredUsers | src/app/admin/users/UsersClient.tsx:26-29 | keeps exactly the users whose name or email contains the search, ignoring case |
| Users.EmptySearchKeepsAll | src/app/admin/users/UsersClient.tsx:26-29 | an empty search keeps the whole list in order |
| Users.SearchIgnoresCase | src/app/admin/users/UsersClient.tsx:26-29 | lower-casing the search first changes nothing |
| Users.RoleBadge | src/app/admin/users/UsersClient.tsx:31-38 | admin danger, manager warning, any other role secondary |
| Users.StatusBadge | src/app/admin/users/UsersClient.tsx:40-44 | success exactly for "active", secondary otherwise |
| Users.RoleChange | src/app/admin/users/UsersClient.tsx:46-50 | only the matching user's role changes; length and order stay |
| Users.RoleChangeCommutesWithSearch | src/app/admin/users/UsersClient.tsx:26-50 | changing a role and searching can be done in either order |
| Users.Flip | src/app/admin/users/UsersClient.tsx:55 | "active" becomes "inactive"; anything else becomes "active" |
| Users.StatusToggle | src/app/admin/users/UsersClient.tsx:52-58 | only the matching user's status flips |
| Users.ToggleTwiceRestores | src/app/admin/users/UsersClient.tsx:52-58 | with active/inactive statuses, toggling twice is the identity |
| Users.ProjectsCount | src/app/admin/users/page.tsx:59 | the first embedded count, or 0 when there is none |
| Users.TransformUser | src/app/admin/users/page.tsx:53-59 | name is the full name or 'Unknown'; email is ''; role is copied; status is 'active' iff the row is active |
| Users.TransformUsers | src/app/admin/users/page.tsx:52 | one user per row, in order; no data gives no users |
| Users.TransformedUsersToggleBack | src/app/admin/users/page.tsx:52-60 | the page's list can always be toggled back and forth |
| AdminProjects.StatusVariant | src/app/admin/projects/page.tsx:17-26 | the five statuses' colours; an unknown status is bg-secondary |
| AdminProjects.StatusText | src/app/admin/projects/page.tsx:28-30 | the label has the status's length |
| AdminProjects.StatusTextReplacesFirstDash | src/app/admin/projects/page.tsx:28-30 | only the first dash becomes a space |
| AdminProjects.StatusTextWithoutDash | src/app/admin/projects/page.tsx:28-30 | a status without a dash is its own label |
| AdminProjects.FilteredProjects | src/app/admin/projects/page.tsx:32-37 | kept exactly when the filter is 'all' or equals the status, and the name, or a non-empty client, contains the search ignoring case |
| AdminProjects.AllAndEmptyKeepEverything | src/app/admin/projects/page.tsx:32-37 | 'all' and an empty search keep every project in order |
| AdminProjects.FilterThenSearch | src/app/admin/projects/page.tsx:32-37 | filtering by status and then by search gives the same list |
| AdminProjects.StatusFilterIsCaseSensitive | src/app/admin/projects/page.tsx:33 | a "Completed" filter hides a "completed" project |
| AdminProjects.FetchFilters | src/app/admin/projects/page.tsx:48-64 | 'all' sends no status and an empty search sends no search |
| AdminProjects.FetchFiltersUrl | src/app/admin/projects/page.tsx:51-63 | the default view requests the bare list URL; a status or a search adds its parameter |
| AdminProjects.TotalValueCell | src/app/admin/projects/page.tsx:208-210 | the gross profit when present and non-zero, else "N/A" |
| AdminProjects.ClientCell | src/app/admin/projects/page.tsx:201 | the client when present and non-empty, else "N/A" |
| ProjectStore.Merge | src/lib/projects.ts:113 | every key the response carries overrides the cached project's, and every key it lacks keeps the cached value |
| ProjectStore.MergeLaws | src/lib/projects.ts:113 | an empty response changes nothing; merging twice is merging once |
| ProjectStore.Prepend | src/lib/projects.ts:84 | the created project goes first, the rest follow unchanged |
| ProjectStore.MergeById | src/lib/projects.ts:111-115 | only projects with the id change; length and order stay |
| ProjectStore.RemoveById | src/lib/projects.ts:137 | exactly the projects with the id go |
| ProjectStore.MergeByIdUnknown | src/lib/projects.ts:111-115 | an update for an uncached id changes nothing |
| ProjectStore.DeleteUndoesCreate | src/lib/projects.ts:84-137 | deleting a just-created project with a new id restores the list |
| ProjectStore.RemoveByIdIdempotent | src/lib/projects.ts:137 | removing an id twice is removing it once |
| ProjectStore.QueryParams | src/lib/projects.ts:45-46 | a parameter for each truthy filter and no other; status comes first and search last |
| ProjectStore.QueryString | src/lib/projects.ts:48 | the query string is empty exactly when there are no parameters |
| ProjectStore.BuildFetchUrl | src/lib/projects.ts:42-50 | the statements build the list URL |
| ProjectStore.FetchUrlCases | src/lib/projects.ts:42-50 | the four URLs: '?' only with a filter, status before search |
| ProjectStore.ErrorText | src/lib/projects.ts:53-60 | the stock text for a failed response, the thrown message, or 'An error occurred' |
| ProjectStore.ProjectsHook.constructor | src/lib/projects.ts:33-35 | the list starts empty, loading, with no error |
| ProjectStore.ProjectsHook.FetchProjects | src/lib/projects.ts:37-65 | on success the list is the response; on failure it stays and the error is set; loading ends false either way |
| ProjectStore.ProjectsHook.CreateProject | src/lib/projects.ts:67-91 | success prepends and returns the project; failure returns null and leaves the list |
| ProjectStore.ProjectsHook.UpdateProject | src/lib/projects.ts:93-123 | success merges the response into the projects with the id; failure returns null and leaves the list |
| ProjectStore.ProjectsHook.DeleteProject | src/lib/projects.ts:125-144 | returns true exactly on success, when the projects with the id are removed; failure leaves the list |
| Config.UsableMeansNoOccurrence | src/lib/config.ts:6-9 | a usable value is set, non-empty and has the placeholder at no position |
| Config.IsSupabaseConfigured | src/lib/config.ts:1-11 | true exactly when both values are set, non-empty and contain "placeholder" nowhere |
| Config.MissingVariableNotConfigured | src/lib/config.ts:5-7 | an unset or empty value makes it false |
| Config.PlaceholderNotConfigured | src/lib/config.ts:8-9 | "placeholder" anywhere in either value makes it false |
| Config.ShortValueHasNoPlaceholder | src/lib/config.ts:8-9 | a non-empty value shorter than "placeholder" passes that part of the test |
| HomePage.SameAsConfigCheck | src/app/page.tsx:11 | the home page's inline test is the same predicate |

## Left out

- IEEE-754 behaviour: NaN and Infinity from the unguarded divisions, and rounding. Reals and non-zero-divisor preconditions stand in.
- Number formatting (`toFixed`, `toLocaleString`, `Intl.NumberFormat`) and the work-order text, which only formats figures.
- `parseFloat`, `parseInt` and `Number`: their results are parameters, with `None` for NaN.
- Non-ASCII case folding and whitespace. `toLowerCase` and `\s` are modelled on ASCII only.
- URL encoding in `URLSearchParams`. Parameters are joined as `k=v` pairs without escaping.
- React rendering, effects and state scheduling. State transitions are functions or methods.
- The database, authentication, redirects, `localStorage`, the router, the clipboard, `setTimeout`, `fetch` and `response.json()`. Their outcomes are parameters; a body that fails to parse is not modelled.
- Ids and dates from the clock, and date formatting. These are parameters.
- JavaScript object-prototype keys in the badge lookups. A status such as "constructor" would find an inherited value, not the fallback.
- JSON `null` values in an update response. The project merge treats only absent keys as "keep".
- The Material Cost card's trend: `Metrics` states it, but the card component does not display trends.
- The derived "Net Profit" rows of the cost breakdowns, which are formatted arithmetic over figures already modelled.
- Interior.InteriorMarginPanel: against a target of 0, a margin of 0 gives the browser a NaN width and a negative margin a width of -Infinity, which a `real` cannot hold. The model gives no width (`None`) in those two cases; the met flag and the alert are still computed. A positive margin against a zero target is modelled as the full bar the browser draws.
