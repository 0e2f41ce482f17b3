# BandTrack Lite — a Dafny model of its decision logic

BandTrack Lite is a small back-office web application for a garment
workshop. It keeps a roster of in-house employees and subcontractors, a
ledger of material dispatches to subcontractors and a ledger of returned
goods with their quality status. Access to features is gated by permission.
All data lives in page state, and that state starts from static seed arrays.

This project models the parts of the application that make decisions:

- `permissions.dfy` (module `Permissions`): `hasPermission`, the permission
  predicate over an optional user and an optional permission list, where
  "fullAccess" overrides everything. It also models the user the
  authentication context builds, which has no permission list.
- `placeholder_data.dfy` (module `PlaceholderData`): the seed roster and the
  seed ledgers as constants. It adds predicates for the conventions the seed
  follows: the id prefix encodes the capacity, a "both" subcontractor is
  kept as two records, and ledger references resolve.
- `employees_page.dfy` (module `Employees`): the roster page as a class.
  It holds both lists and the add dialog's open flag. `SaveEmployee` is
  `handleSaveEmployee`.
- `add_employee_dialog.dfy` (module `EmployeeDialog`): the dialog's two
  validation schemas, its person-type switch that resets the form when the
  type changes, and its submit. The class holds the dialog's state.
- `dispatch_page.dfy` (module `Dispatch`) and `returns_page.dfy` (module
  `Returns`): the two ledgers as classes. Each has a form schema, a `Submit`
  method that prepends one record, its id numbering, and the "recent" view.
  Only dispatch is gated by permission.
- `sidebar_nav.dfy` (module `SidebarNav`): the two navigation tables and the
  active-item rule.
- Shared helpers: `wrappers.dfy` (`Option`); `definitions.dfy` (the record
  types of `src/lib/definitions.ts`); `js_builtins.dfy` (the JavaScript
  built-ins the code relies on: `includes`, `map`, `startsWith`,
  `find` (with the first-match index scan it performs), `slice(0, n)`, a string's `length` in UTF-16 code
  units, and decimal rendering of a number); `ledger.dfy`
  (the subcontractor lookup and the id-numbering invariant that both
  ledgers share).

The model follows the code rather than the richer roster design. No
range-based id allocator exists in the code. Every saved person, of either
kind, gets the id `"emp" + Date.now()`. A "both" subcontractor is stored as
a single record. The seed's id/capacity convention therefore holds for the
seed but is broken by every save of a subcontractor
(`Employees.SeedConventionNotPreserved`). Where the written design of the
roster (range-based ids, "both" expanded into two records, reconciliation
of capacity changes) and the code disagree, the model follows the code.

`hasPermission` relies on a `permissions` list in the user record. The
authentication context builds its user without one. As wired, every
permission check fails for every signed-in user, administrators included,
so no dispatch can be created (`Dispatch.AuthContextUserCannotDispatch`).
What permissions a role should carry lives in an external document store
that is not part of this model. So no corrected behaviour is modelled.

Two saves at the same clock reading get the same id; saves at distinct
readings never do (`Employees.NewEmployeeIdsDistinct`).

The clock is a parameter (`now`, `seedClock`). An ISO date string is
modelled by the instant it denotes (`IsoDate(epochMs)`). The e-mail check
that the validation library performs on `contact` is a parameter
`isEmail: string -> bool`.

## Model

| member | source | states |
|---|---|---|
| `Permissions.HasPermission` | src/lib/permissions.ts:11-23 | granted iff the user and their list are present and the list holds "fullAccess" or the requested permission |
| `Permissions.NoUserIsDenied` | src/lib/permissions.ts:12-14 | a null or undefined user holds no permission |
| `Permissions.MissingListIsDenied` | src/lib/permissions.ts:12-14 | a user without a permission list holds no permission |
| `Permissions.FullAccessGrantsAll` | src/lib/permissions.ts:17-19 | a user holding "fullAccess" is granted every permission |
| `Permissions.GrantedIffListed` | src/lib/permissions.ts:22 | without "fullAccess", a permission is granted exactly when it is in the list |
| `Permissions.GrantIsMonotonic` | src/lib/permissions.ts:17-22 | enlarging a user's list never withdraws a granted permission |
| `Permissions.AuthContextUser` | src/context/AuthContext.tsx:44-55 | the built user has the account's uid, no permission list, and role "admin" exactly when the e-mail equals the configured admin e-mail |
| `Permissions.AuthContextUserIsDenied` | src/context/AuthContext.tsx:51-55 | every user the auth context builds, admin included, is denied every permission |
| `JsBuiltins.Includes` | src/lib/permissions.ts:17-22 | the left-to-right scan answers true exactly when the element is in the list |
| `JsBuiltins.StartsWith` | src/components/layout/sidebar-nav.tsx:52 | the character-by-character comparison answers true exactly when the prefix is the string's first characters |
| `JsBuiltins.Map` | src/components/layout/sidebar-nav.tsx:47 | the result has one element per input element, the function applied to it, in order |
| `JsBuiltins.FindIndex` | src/app/dispatch/page.tsx:76 | the left-to-right scan that `find` performs gives -1 when no element matches, otherwise the index of the first matching element |
| `JsBuiltins.Find` | src/app/dispatch/page.tsx:76 | the result is the first matching element, and absent exactly when none matches |
| `JsBuiltins.SliceHead` | src/app/dispatch/page.tsx:210 | the result holds the first min(n, length) elements, in order |
| `JsBuiltins.NatToString` | src/app/employees/page.tsx:42 | the decimal text of a number is a non-empty string of digits, one digit long exactly below 10, with no leading zero for a positive number |
| `JsBuiltins.NatToStringIsDecimal` | src/app/employees/page.tsx:42 | the digits of the decimal text of `n`, read most significant first, denote `n` |
| `JsBuiltins.Utf16Length` | src/components/employees/add-employee-dialog.tsx:39-40 | a string's JavaScript length lies between its number of code points and twice that; it equals the number of code points when every character is in the Basic Multilingual Plane, and twice it when none is |
| `JsBuiltins.Utf16LengthAppend` | src/components/employees/add-employee-dialog.tsx:39-40 | the length of a concatenation is the sum of the lengths, so with one character's count it fixes the length of every string |
| `JsBuiltins.NatToStringInjective` | src/app/employees/page.tsx:42 | distinct numbers have distinct decimal texts |
| `Definitions.ParseDnrCapacity` | src/lib/definitions.ts:2-3 | a text is accepted exactly when it is the name of one of the four capacities, and it gives that capacity |
| `Definitions.ParseCapacityName` | src/lib/definitions.ts:2 | parsing a capacity's name gives that capacity back |
| `Definitions.ParseQualityStatus` | src/lib/definitions.ts:45 | a text is accepted exactly when it is the name of one of the three quality statuses, and it gives that status |
| `Definitions.ParseQualityStatusName` | src/lib/definitions.ts:45 | parsing a status's name gives that status back |
| `PlaceholderData.CapacityOfId` | src/lib/placeholder-data.ts:9 | "3-" ids stand for 300dnr, "6-" ids for 600dnr, "S-" ids for none; no id stands for "both" |
| `PlaceholderData.EncodedRosterStoresNoBoth` | src/lib/placeholder-data.ts:9-10 | a roster whose ids encode their capacities stores no "both" record |
| `PlaceholderData.SeedIdsDistinct` | src/lib/placeholder-data.ts:4-18 | seed ids are pairwise distinct within each list |
| `PlaceholderData.SeedCapacityEncoded` | src/lib/placeholder-data.ts:9-18 | every seed subcontractor's id prefix matches its capacity, and none stores "both" |
| `PlaceholderData.SeedSplitsBoth` | src/lib/placeholder-data.ts:14-16 | the split subcontractor is two records with the same name, work type and contact, one 300dnr and one 600dnr, with distinct ids |
| `PlaceholderData.SeedReferencesResolve` | src/lib/placeholder-data.ts:20-28 | every seed dispatch and return names an existing subcontractor, and its stored name is that subcontractor's |
| `PlaceholderData.SeedQuantitiesPositive` | src/lib/placeholder-data.ts:20-28 | every seed quantity is at least 1 |
| `PlaceholderData.SeedLedgersWellNumbered` | src/lib/placeholder-data.ts:20-28 | the seed ledger ids are distinct and none is "disp"/"ret" followed by a number beyond the ledger's length |
| `Ledger.SubcontractorById` | src/app/dispatch/page.tsx:76 | the result is the first subcontractor with the id, and absent exactly when none has it |
| `Ledger.NameFor` | src/app/dispatch/page.tsx:76-80 | the stored name is present exactly when some subcontractor has the id, and it is the name of the first subcontractor with that id |
| `Ledger.Recent` | src/app/dispatch/page.tsx:210 | the recent view of either ledger (also src/app/returns/page.tsx:172) is its first min(5, length) records, newest first |
| `Ledger.NextId` | src/app/dispatch/page.tsx:78 | the id (also src/app/returns/page.tsx:65) is the prefix followed by digits, with no leading zero, that denote the count plus one |
| `Ledger.NextIdIsFresh` | src/app/dispatch/page.tsx:78 | under the numbering invariant, the id "prefix + (length + 1)" is not in the ledger |
| `Ledger.PrependNextIdKeepsNumbering` | src/app/returns/page.tsx:65-72 | prepending a record with the next id keeps the ids distinct and keeps every id beyond the new length unused |
| `Ledger.ConsecutiveIdsAreWellNumbered` | src/lib/placeholder-data.ts:20-28 | a ledger whose distinct ids are prefix+1 .. prefix+n satisfies the numbering invariant |
| `Employees.NewEmployeeId` | src/app/employees/page.tsx:42 | the id is "emp" followed by digits that denote the clock reading, with no leading zero unless the reading is 0 |
| `Employees.SubcontractorsAfterSave` | src/app/employees/page.tsx:43-44 | a person with a capacity is prepended to the subcontractor list as a record with the new id and the entered fields; any other person leaves the list unchanged |
| `Employees.InHouseAfterSave` | src/app/employees/page.tsx:43-50 | a person without a capacity is prepended to the in-house list as a record with the new id and the entered fields; any other person leaves the list unchanged |
| `Employees.SaveGrowsExactlyOneList` | src/app/employees/page.tsx:41-57 | a save grows exactly one list by one: the subcontractor list when a capacity is present, the in-house list otherwise; the head is the new record with id "emp" + now and all other fields copied, the tail is the old list, and the other list is unchanged |
| `Employees.BothIsStoredUnsplit` | src/app/employees/page.tsx:43-44 | a "both" person is stored as a single record with capacity "both" |
| `Employees.NewEmployeeIdHasNoCapacity` | src/app/employees/page.tsx:42 | an "emp" id has none of the capacity prefixes |
| `Employees.SaveBreaksCapacityEncoding` | src/app/employees/page.tsx:42-44 | after saving any subcontractor, the list no longer has every id encoding its capacity |
| `Employees.SeedConventionNotPreserved` | src/app/employees/page.tsx:35-44 | the id/capacity convention holds for the seed and fails after one subcontractor is saved into it |
| `Employees.NewEmployeeIdsDistinct` | src/app/employees/page.tsx:42 | saves at distinct clock readings get distinct ids |
| `Employees.NewEmployeeIdAvoidsSeed` | src/app/employees/page.tsx:42 | a new id never equals a seed id of either list |
| `Employees.EmployeesPage.constructor` | src/app/employees/page.tsx:30-32 | before the mount effect both lists are empty and the dialog is closed |
| `Employees.EmployeesPage.LoadPlaceholders` | src/app/employees/page.tsx:35-39 | the mount effect sets both lists to the seed lists |
| `Employees.EmployeesPage.SetAddDialogOpen` | src/app/employees/page.tsx:65 | sets the dialog flag and leaves both lists unchanged |
| `Employees.EmployeesPage.SaveEmployee` | src/app/employees/page.tsx:41-57 | the lists become the ones the save functions give, and the dialog is closed |
| `EmployeeDialog.BaseValid` | src/components/employees/add-employee-dialog.tsx:38-42 | valid values have a non-empty name and work type and an e-mail contact; a name and a work type of two code points or more, with an e-mail contact, are always valid |
| `EmployeeDialog.ParseInHouse` | src/components/employees/add-employee-dialog.tsx:38-44 | accepted exactly when name and work type are at least 2 UTF-16 code units long and contact is an e-mail; the output copies those fields and has no capacity |
| `EmployeeDialog.ParseSubcontractor` | src/components/employees/add-employee-dialog.tsx:46-51 | accepted exactly when the base fields are valid and the capacity is one of the four names; the output carries that capacity |
| `EmployeeDialog.ParseForm` | src/components/employees/add-employee-dialog.tsx:64 | the in-house form accepts exactly the valid base fields, the subcontractor form exactly those with one of the four capacities; an accepted person copies the entered fields and has a capacity exactly when the subcontractor form was used, so the page files it in the matching list |
| `EmployeeDialog.ResetValues` | src/components/employees/add-employee-dialog.tsx:76-83 | the reset form has empty text fields, and a capacity field, holding "none", only for a subcontractor |
| `EmployeeDialog.AcceptedFormMeetsBase` | src/components/employees/add-employee-dialog.tsx:39-41 | either schema accepts only a name and a work type at least 2 UTF-16 code units long, and an e-mail contact |
| `EmployeeDialog.OneCharacterLengthRule` | src/components/employees/add-employee-dialog.tsx:39-40 | a one-character text meets the minimum length exactly when its character lies beyond U+FFFF |
| `EmployeeDialog.EveryCapacityAccepted` | src/components/employees/add-employee-dialog.tsx:48-50 | each of the four capacities, "both" included, is accepted and passed on unchanged |
| `EmployeeDialog.ResetFormIsRejected` | src/components/employees/add-employee-dialog.tsx:76-83 | a freshly reset form is rejected by either schema |
| `EmployeeDialog.AddEmployeeDialog.constructor` | src/components/employees/add-employee-dialog.tsx:62-74 | the dialog starts on the in-house form with empty fields |
| `EmployeeDialog.AddEmployeeDialog.SelectPersonType` | src/components/employees/add-employee-dialog.tsx:76-83 | choosing a different person type resets the form to that type's reset values; choosing the current type again keeps the entered values |
| `EmployeeDialog.AddEmployeeDialog.Enter` | src/components/employees/add-employee-dialog.tsx:140-205 | typing sets the form values and keeps the person type |
| `EmployeeDialog.AddEmployeeDialog.Cancel` | src/components/employees/add-employee-dialog.tsx:207-211 | Cancel closes the dialog and leaves the roster unchanged |
| `EmployeeDialog.AddEmployeeDialog.Submit` | src/components/employees/add-employee-dialog.tsx:86-94 | accepted values are saved exactly once, then the form is reset and the dialog closed; rejected values change nothing |
| `Dispatch.NewDispatch` | src/app/dispatch/page.tsx:76-84 | the new record has id "disp" + (length + 1), the submitted id, material and quantity, the looked-up name and the current time |
| `Dispatch.DispatchFormValid` | src/app/dispatch/page.tsx:36-40 | valid exactly when the subcontractor id and the material type are non-empty and the quantity is at least 1 |
| `Dispatch.CanManageDispatch` | src/app/dispatch/page.tsx:49 | the gate admits exactly a present user whose list holds "fullAccess" or "manageDispatch" |
| `Dispatch.AuthContextUserCannotDispatch` | src/app/dispatch/page.tsx:49 | no user built by the auth context, administrator included, passes the dispatch gate, because none has a permission list |
| `Dispatch.DispatchPage.constructor` | src/app/dispatch/page.tsx:46-47 | the ledger starts empty, with no options, and satisfies its invariant |
| `Dispatch.DispatchPage.LoadPlaceholders` | src/app/dispatch/page.tsx:51-54 | the mount effect loads the seed ledger and roster, which satisfy the invariant |
| `Dispatch.DispatchPage.Submit` | src/app/dispatch/page.tsx:66-91 | invalid values, then a user without permission, leave the ledger unchanged; otherwise the new record, with a fresh id, is prepended; the invariant is kept |
| `Returns.ParseReturnForm` | src/app/returns/page.tsx:34-40 | accepted exactly when the subcontractor id is non-empty, the quantity is at least 1 and the status is one of the three names; the output carries those values |
| `Returns.NewReturn` | src/app/returns/page.tsx:63-71 | the new record has id "ret" + (length + 1), the submitted id, quantity and status, the looked-up name and the current time |
| `Returns.EveryStatusAccepted` | src/app/returns/page.tsx:37-39 | each of the three statuses is accepted and passed on unchanged |
| `Returns.ReturnsPage.constructor` | src/app/returns/page.tsx:46-47 | the ledger starts empty, with no options, and satisfies its invariant |
| `Returns.ReturnsPage.LoadPlaceholders` | src/app/returns/page.tsx:49-52 | the mount effect loads the seed ledger and roster, which satisfy the invariant |
| `Returns.ReturnsPage.Submit` | src/app/returns/page.tsx:62-79 | there is no permission check: any accepted values prepend the new record, with a fresh id; rejected values change nothing; the invariant is kept |
| `SidebarNav.IsActive` | src/components/layout/sidebar-nav.tsx:52 | an exact-match item (the same rule at line 72 for the secondary table) is active exactly when the pathname equals its href; any other item exactly when its href is the pathname's first characters |
| `SidebarNav.ActiveFlags` | src/components/layout/sidebar-nav.tsx:47-52 | each item's flag is the active rule applied to that item, in table order |
| `SidebarNav.ExactItemActiveIff` | src/components/layout/sidebar-nav.tsx:52 | an exact-match item is active exactly when the pathname equals its href |
| `SidebarNav.PrefixItemActiveIff` | src/components/layout/sidebar-nav.tsx:72 | any other item is active exactly when its href is a character prefix of the pathname |
| `SidebarNav.OwnHrefIsActive` | src/components/layout/sidebar-nav.tsx:52 | a pathname equal to an item's href activates it in either mode |
| `SidebarNav.OnlyDashboardIsExact` | src/components/layout/sidebar-nav.tsx:29-39 | Dashboard is the only exact-match item, so "/dashboard/x" does not activate it |
| `SidebarNav.CharacterPrefixActivates` | src/components/layout/sidebar-nav.tsx:33 | "/employeesX" and "/employees/42" both activate Employee Roster |
| `SidebarNav.HrefsDistinct` | src/components/layout/sidebar-nav.tsx:29-39 | all hrefs across both tables are distinct |
| `SidebarNav.AtMostOneActive` | src/components/layout/sidebar-nav.tsx:29-52 | for any pathname at most one item of the two tables is active, because no href is a prefix of another |

## Left out

- Rendering, layout, routing and redirects, toast messages, the dashboard's static metrics, the profile and settings pages: these are presentation only.
- Firebase initialisation, sign-in, sign-out and the auth-state subscription: these are foreign library calls. The user is an input parameter of `Dispatch.DispatchPage.Submit`, and `Permissions.AuthContextUser` models only the record the subscription builds.
- Clock reads and date formatting: `Date.now()` is the parameter `now`. A reading is taken to be non-negative (`now: nat`), as milliseconds since 1970 are on any current clock. `Employees.NewEmployeeIdAvoidsSeed` relies on this: a reading of -2 would render as "emp-2", a seed id. An ISO string is modelled by its instant, because `toISOString` formatting is library behaviour.
- The e-mail format check is the validation library's `email()` and is taken as the parameter `isEmail`. Text-to-number coercion of quantities is also library behaviour: quantities enter the model as the already-coerced `real`.
- Permission and UserRole are imported from `src/lib/definitions.ts` but not defined in it, so a permission and a role are plain strings here.
- The dialog's validator is taken to be the schema of the currently selected person type, as `currentSchema` is computed on each render; how the form library picks up a changed resolver is not modelled.
- The form library's internals are not modelled: `form.reset()` is taken to restore the values of the last `reset(values)` call, which the person-type effect makes. Field-level error messages are not modelled.
- The two ledger pages' form values and the `form.reset()` after a successful submit are not modelled. Their `Submit` methods take the submitted values as a parameter and keep no form state.
- The dispatch form's `disabled` flag and the page's access-denied screen are not modelled. The model keeps only the permission guard inside `onSubmit`.
- Element keys, icons and `toUpperCase` display of capacities are presentation only.
