# Performance-tracking dashboard — a Dafny model of its core

The system is a React single-page application in which a team of content
creators, live hosts and models record their daily performance, and managers
review those reports, set KPI targets and administer staff and social-media
accounts. All persistence goes through a hosted Postgres database whose table
shapes and enums are generated into `types.ts`.

This project models the logic of that front end as pure Dafny functions over
immutable values:

- **Database types** (`DbTypes`): the seven enums with their literal lists, the
  parse-by-name function that the literal lists induce, and the Insert/Update
  shapes of the tables the forms write (`Conforms` says a payload fits a shape).
- **Report review** (`ReportReview`): the grouping of `performance_logs` rows
  into one report per date and user, the merge of each log into the report's
  `meta`, the user-name lookup, and the display helpers (`formatKey`, the
  division badge, the detail list and the notes line).
- **Forms** (`DailyReportForm`, `KpiForm`, `AccountForm`, `EditAccountForm`,
  `EmployeeForm`, `TutorialForm`, `ProductForm`, `SopForm`, `ToolForm`): each
  form's validation schema as a function from the raw input to either the set
  of fields with an issue or the parsed values, its default values, its guard,
  and the exact payload it sends. A submission ends `Blocked` (validation
  failed), `Thrown` (the guard raised before any request) or `Sent`.
- **Authentication** (`AuthLib`, `UseAuth`): the profile lookup, the manager
  check, the sign-up request, and the `useAuth` hook as a state machine driven
  by a sequence of callback events.
- **Navigation** (`Layout`, `Profile`, `AppRoutes`): the sidebar filter, the
  active-link test, avatar initials, the profile view, and route resolution.

The model is split into one module per source file, plus shared modules:
`Wrappers` (`Option`, `Result`), `Json` (JavaScript values and truthiness),
`Text` (ASCII character helpers, `split(" ")` and initials) and `Forms`
(submission outcome and payload helpers).

External behaviour becomes a parameter:
- the zod `.url()` and `.email()` checks are opaque predicates `isUrl` and `isEmail`;
- database answers are `Result` values or a `ProfileLookup` function;
- `window.location.origin`, the current user and today's date are inputs.

## Model

| member | source | states |
|---|---|---|
| DbTypes.ConstantsMatchEnums | src/integrations/supabase/types.ts:574-586 | every runtime literal list is the enum's literals in declaration order without duplicates, and every enum value is listed |
| DbTypes.ParseRoundTrip | src/integrations/supabase/types.ts:442-450 | parsing the literal of any enum value gives back that value, for all seven enums |
| DbTypes.ParseAccepts | src/integrations/supabase/types.ts:574-586 | a string parses as an enum value exactly when it is one of that enum's listed literals |
| DbTypes.LookupAccepts | src/integrations/supabase/types.ts:574-586 | over a list of distinct names, lookup by name succeeds exactly for the listed names |
| DbTypes.LookupName | src/integrations/supabase/types.ts:574-586 | with distinct names, looking up the i-th value's name returns the i-th value |
| DbTypes.Lookup | src/integrations/supabase/types.ts:574-586 | a found value carries the searched name and is in the list; a miss means no value has that name |
| DbTypes.UpdateOf | src/integrations/supabase/types.ts:58-77 | an Update shape has the Insert shape's columns with the same types and nullability, none required |
| DbTypes.UpdateAcceptsWellTypedColumns | src/integrations/supabase/types.ts:58-77 | any row of well-typed Insert columns fits the Update shape, whichever columns it omits |
| DbTypes.AccountsRequired | src/integrations/supabase/types.ts:38-57 | an accounts insert needs exactly account_type, platform and username |
| DbTypes.KpiTargetsRequired | src/integrations/supabase/types.ts:135-147 | a KPI target insert needs exactly created_by, start_date, end_date, metric, period, target_for_id, target_for_type and target_value |
| DbTypes.PerformanceLogsRequired | src/integrations/supabase/types.ts:175-185 | a performance log insert needs exactly date, metric and value |
| DbTypes.UsersMetaRequired | src/integrations/supabase/types.ts:404-414 | a users_meta insert needs exactly full_name, id and username, and accepts role and division |
| Text.Upper | src/components/Layout.tsx:69-73 | upper-casing maps ASCII lower-case letters to upper case and leaves every other character alone |
| Text.UpperIdempotent | src/components/Layout.tsx:69-73 | upper-casing an upper-cased character changes nothing, and upper-casing keeps a character alphanumeric or not |
| Text.SplitSpaces | src/components/Layout.tsx:70 | `split(" ")` yields at least one part and no part contains a space |
| Text.SplitJoin | src/components/Layout.tsx:70 | joining the parts of `split(" ")` with spaces gives back the original string |
| Text.FirstCharsAreWordStarts | src/components/Layout.tsx:70-72 | the first characters of the split parts are exactly the characters that start a space-separated word |
| Text.NameInitials | src/components/Layout.tsx:69-72 | the initials of a name are the upper-cased first letters of its space-separated words, with empty words contributing nothing |
| Forms.Check | src/components/AddAccountForm.tsx:30-36 | a field is reported as an issue exactly when its rule fails |
| ReportReview.KeyDeterminesDateAndUser | src/pages/ReportReview.tsx:50 | for fixed-width dates, two logs share a report key exactly when they share the date and the user id text |
| ReportReview.NameMap | src/pages/ReportReview.tsx:35 | the id-to-name map holds exactly the fetched users' ids |
| ReportReview.UserNameIsLastRow | src/pages/ReportReview.tsx:35 | the report's user name comes from the last fetched row with that id, or "Unknown User" when that name is empty |
| ReportReview.UserNameMissing | src/pages/ReportReview.tsx:58 | a user id that no fetched user has (or no user id) gives "Unknown User" |
| ReportReview.MergeMeta | src/pages/ReportReview.tsx:63-75 | merging a log changes only its metric and notes: truthy notes replace the old ones, a defined original_value is written unless a positive value replaces a falsy one, otherwise a positive value fills a falsy metric (a metric named "notes" included, when the log's own notes are falsy), and a positive value always leaves the metric truthy |
| ReportReview.KeysOfSnoc | src/pages/ReportReview.tsx:49-80 | the key set of a log list grows by the key of the appended log |
| ReportReview.Group | src/pages/ReportReview.tsx:49-80 | grouping yields one report per distinct key of the logs, each keyed by its own id and listed once, and never more reports than logs |
| ReportReview.Values | src/pages/ReportReview.tsx:80 | `Object.values` lists each grouped report once, following the recorded key order, with distinct ids |
| ReportReview.FetchReportsForManager | src/pages/ReportReview.tsx:26-81 | a users failure gives "Failed to fetch users", a logs failure gives "Failed to fetch reports for manager", and success lists one report per distinct key of the logs |
| ReportReview.FirstLogFixesHeader | src/pages/ReportReview.tsx:51-61 | a report's date, creation time, user, division and name come from the first log with its key |
| ReportReview.Filter | src/pages/ReportReview.tsx:49-80 | selecting the logs of one key never yields more logs than the input |
| ReportReview.MetaIsFoldOfItsLogs | src/pages/ReportReview.tsx:62-77 | a report's meta is the in-order merge of exactly the logs that share its key, independent of other reports |
| ReportReview.FilterOfAbsentKey | src/pages/ReportReview.tsx:49-80 | no log is selected for a key that no log has |
| ReportReview.LastLogOfMetricWins | src/pages/ReportReview.tsx:63-67 | for a metric other than "notes", with original_value present, the last log of that metric decides the metric's value in the report |
| ReportReview.NotesAreLastTruthy | src/pages/ReportReview.tsx:68-70 | when no log's metric is named "notes", a report has notes exactly when some log has truthy notes, and they are the last such notes |
| ReportReview.ReplaceUnderscores | src/pages/ReportReview.tsx:86 | every underscore becomes a space and every other character stays |
| ReportReview.CapitalizeWordsAt | src/pages/ReportReview.tsx:86 | `\b\w` upper-cases exactly the word characters that do not follow a word character |
| ReportReview.FormatKeyAt | src/pages/ReportReview.tsx:85-87 | the formatted key keeps the length and upper-cases exactly the word characters that start a run after underscores become spaces |
| ReportReview.FormatKeyIdempotent | src/pages/ReportReview.tsx:85-87 | a formatted key contains no underscore and formatting it again changes nothing |
| ReportReview.DivisionBadge | src/pages/ReportReview.tsx:140 | the badge shows "N/A" without a division, and otherwise `formatKey` of the division name, which has its length and no underscore |
| ReportReview.BadgeTexts | src/pages/ReportReview.tsx:140 | the four badges read "Konten Kreator", "Host Live", "Model" and "Manager" |
| ReportReview.DetailKeys | src/pages/ReportReview.tsx:174-178 | the detail list shows every meta key except notes |
| ReportReview.NotesLine | src/pages/ReportReview.tsx:184 | the notes line shows truthy notes, and "-" otherwise, so it is never blank |
| DailyReportForm.ValidationSchema | src/components/AddDailyReportForm.tsx:43-54 | each division has its own schema (creator, host, model) and every other division or none gets the base schema |
| DailyReportForm.Parse | src/components/AddDailyReportForm.tsx:23-40 | validation fails exactly on the schema's fields that break their rule, and success keeps exactly the schema's fields that have a value |
| DailyReportForm.DefaultsOutcome | src/components/AddDailyReportForm.tsx:70-75 | the default values pass every schema except the model schema, which reports only project_name |
| DailyReportForm.MeasurementsPresent | src/components/AddDailyReportForm.tsx:23-40 | in an accepted report every schema field other than notes has a value, so creator reports carry both counts and host reports carry hours and sales |
| DailyReportForm.LogPayload | src/components/AddDailyReportForm.tsx:83-93 | the log row fits the performance_logs Insert shape, has exactly date, user_id, division, metric, value and meta, and its meta is the parsed values without notes |
| DailyReportForm.Submit | src/components/AddDailyReportForm.tsx:77-93 | an invalid form is blocked, a missing user or division throws "User not authenticated or division not set", and otherwise the payload carries the user, division, date and every schema field except notes |
| DailyReportReview.StoredLog | src/components/AddDailyReportForm.tsx:86-93 | a stored row reads back as a log whose date, metric and value are the row's and whose creation time is the database's |
| DailyReportReview.PayloadReadsBack | src/components/AddDailyReportForm.tsx:86-93 | a daily-report row reads back as the reporter's log for today with metric "daily_report", value 1, the division, and meta equal to the form values without notes |
| DailyReportReview.PlainLogMerge | src/pages/ReportReview.tsx:63-75 | a log without notes and original_value changes the meta only through the positive-value fallback |
| DailyReportReview.SentReportMergesAsCount | src/pages/ReportReview.tsx:63-75 | a submitted daily report shows up in the review only as a daily_report count of 1, and its notes never reach the review |
| KpiForm.FormEnumsMatchDatabase | src/components/AddKpiForm.tsx:31-38 | the form's target types and periods are exactly the database enums |
| KpiForm.Validate | src/components/AddKpiForm.tsx:31-38 | each field is reported exactly when its rule fails, and success returns the input's values |
| KpiForm.ValidateRoundTrip | src/components/AddKpiForm.tsx:31-38 | every valid value set, written back into the form, validates to itself |
| KpiForm.DefaultsBlocked | src/components/AddKpiForm.tsx:83-87 | the untouched form reports target_for_id, metric and target_value |
| KpiForm.DivisionOptionsAreDivisions | src/components/AddKpiForm.tsx:61-66 | the division choices are exactly the division enum values with their literal names |
| KpiForm.FetchTargetOptions | src/components/AddKpiForm.tsx:47-69 | a failure of either query gives "Failed to fetch users or teams"; success offers every user and team, and the four divisions |
| KpiForm.OfferedTargets | src/components/AddKpiForm.tsx:156-158 | the dropdown offers the list that matches the chosen target type, and nothing before options load or for an unknown type |
| KpiForm.Payload | src/components/AddKpiForm.tsx:99-104 | the insert holds exactly the validated values, the period bounds, and created_by exactly when there is a user |
| KpiForm.PayloadReadsBack | src/components/AddKpiForm.tsx:99-104 | reading the inserted row back gives exactly the validated values, whatever the period bounds and the user |
| KpiForm.PayloadConformsIffUser | src/components/AddKpiForm.tsx:99-104 | the payload fits the kpi_targets Insert shape exactly when there is a user |
| KpiForm.Submit | src/components/AddKpiForm.tsx:95-110 | an invalid form is blocked, otherwise the insert is sent, and the guard never throws |
| AccountForm.FormEnumsMatchDatabase | src/components/AddAccountForm.tsx:30-36 | the form's platforms and account types are exactly the database enums |
| AccountForm.Validate | src/components/AddAccountForm.tsx:30-36 | username of at least two characters, a known platform and type, and non-negative followers are required, each reported exactly when broken |
| AccountForm.ValidateRoundTrip | src/components/AddAccountForm.tsx:30-36 | every valid value set, written back into the form, validates to itself |
| AccountForm.DefaultsBlocked | src/components/AddAccountForm.tsx:49-55 | the untouched form reports only the username |
| AccountForm.AccountRow | src/components/AddAccountForm.tsx:60 | the insert has exactly username, platform and account_type, plus followers and keranjang_kuning when present |
| AccountForm.AccountRowConforms | src/components/AddAccountForm.tsx:60 | every valid account row fits the accounts Insert shape |
| AccountForm.Submit | src/components/AddAccountForm.tsx:57-62 | an invalid form is blocked; a sent row fits the Insert shape and never sets status or managed_by |
| AccountForm.DemoAccountInserted | src/components/AddAccountForm.tsx:49-62 | a filled-in form with default platform and type sends exactly the expected row |
| EditAccountForm.StatusEnumMatchesDatabase | src/components/EditAccountForm.tsx:40-47 | the form's statuses are exactly the account_status enum |
| EditAccountForm.Validate | src/components/EditAccountForm.tsx:40-47 | the edit form accepts exactly what the add form accepts with a valid or absent status, and reports the union of both issue sets |
| EditAccountForm.Prefill | src/components/EditAccountForm.tsx:62-70 | the form is prefilled from the account, with account type always "affiliate", missing followers as 0, missing keranjang_kuning as false and missing status as active |
| EditAccountForm.PrefillAccepted | src/components/EditAccountForm.tsx:62-70 | a prefilled form validates exactly when the stored username has at least two characters and the stored followers are absent or non-negative |
| EditAccountForm.Patch | src/components/EditAccountForm.tsx:75-78 | the update sets exactly the form's columns, with optional columns only when present |
| EditAccountForm.PatchConforms | src/components/EditAccountForm.tsx:75-78 | every valid patch fits the accounts Update shape |
| EditAccountForm.Submit | src/components/EditAccountForm.tsx:72-80 | an invalid form is blocked; otherwise the update targets the edited account's id |
| EditAccountForm.ApplyUpdate | src/components/EditAccountForm.tsx:75-78 | the update rewrites the patched columns of the matching rows only and leaves every other column and row unchanged |
| EditAccountForm.UntouchedSaveResetsAccountType | src/components/EditAccountForm.tsx:62-78 | saving an unedited seller account writes account_type "affiliate" |
| EmployeeForm.FormEnumsMatchDatabase | src/components/AddEmployeeForm.tsx:29-36 | the form offers the database's roles (listed in another order) and exactly its divisions |
| EmployeeForm.Validate | src/components/AddEmployeeForm.tsx:29-36 | each field is reported exactly when its rule fails (full name of at least two characters, username of at least three, a valid email, password of at least six, a known role, an absent or known division), and success returns the input |
| EmployeeForm.DefaultsBlocked | src/components/AddEmployeeForm.tsx:49-56 | the untouched form reports full_name, username and password, and email exactly when "" is not an email |
| EmployeeForm.Metadata | src/components/AddEmployeeForm.tsx:60-66 | the sign-up metadata holds the name, username, role and present division, never the email or password |
| EmployeeForm.MetadataIsProfileRow | src/components/AddEmployeeForm.tsx:60-66 | the metadata plus the new user's id fits the users_meta Insert shape |
| EmployeeForm.Submit | src/components/AddEmployeeForm.tsx:58-66 | an invalid form is blocked; otherwise the sign-up carries the email, the password, the metadata and the origin redirect |
| TutorialForm.Validate | src/components/AddTutorialForm.tsx:25-31 | the title needs at least five characters, the body is optional, the YouTube and file links must be URLs or empty, is_public is true only when set to true (false when unset), and each issue is reported exactly when broken |
| TutorialForm.DefaultsBlocked | src/components/AddTutorialForm.tsx:45-51 | the untouched form reports only the title, because empty links are allowed |
| TutorialForm.Payload | src/components/AddTutorialForm.tsx:58-72 | the insert has exactly the tutorial's columns and created_by, carrying the validated is_public, with undefined optional columns dropped |
| TutorialForm.PayloadConforms | src/components/AddTutorialForm.tsx:58-72 | every valid tutorial payload fits the tutorials Insert shape |
| TutorialForm.Submit | src/components/AddTutorialForm.tsx:53-72 | an invalid form is blocked, no user throws "User not authenticated", otherwise the payload is sent |
| ProductForm.Validate | src/components/AddProductForm.tsx:23-27 | a title of at least five characters and a spreadsheet URL are required, the description is optional, and each issue is reported exactly when broken |
| ProductForm.DefaultsBlocked | src/components/AddProductForm.tsx:41-45 | the untouched form reports the title, and the spreadsheet URL exactly when "" is not a URL |
| ProductForm.Payload | src/components/AddProductForm.tsx:52-62 | the insert has exactly the product's columns and created_by, and fits the products Insert shape |
| ProductForm.Submit | src/components/AddProductForm.tsx:47-62 | an invalid form is blocked, no user throws "User not authenticated", otherwise the payload is sent |
| SopForm.Validate | src/components/AddSopForm.tsx:23-27 | a title of at least five characters and a non-empty URL file path are required, the description is optional, and each issue is reported exactly when broken |
| SopForm.DefaultsBlocked | src/components/AddSopForm.tsx:41-45 | the untouched form reports title and file_path |
| SopForm.Payload | src/components/AddSopForm.tsx:52-62 | the insert has exactly the SOP's columns and created_by, and fits the sops Insert shape |
| SopForm.Submit | src/components/AddSopForm.tsx:47-62 | an invalid form is blocked, no user throws "User not authenticated", otherwise the payload is sent |
| ToolForm.Validate | src/components/AddToolForm.tsx:23-27 | a title of at least three characters and a URL are required, the description is optional, and each issue is reported exactly when broken |
| ToolForm.DefaultsBlocked | src/components/AddToolForm.tsx:41-45 | the untouched form reports the title, and the URL exactly when "" is not a URL |
| ToolForm.Payload | src/components/AddToolForm.tsx:52-55 | the insert is the values plus created_by, and fits the tools Insert shape |
| ToolForm.Submit | src/components/AddToolForm.tsx:47-55 | an invalid form is blocked, no user throws "User not authenticated", otherwise the payload is sent |
| AuthLib.LibTypesMatchDatabase | src/lib/auth.ts:4-5 | the library's role and division unions are exactly the database enums |
| AuthLib.GetUserMetadata | src/lib/auth.ts:58-71 | a failed profile query yields no profile, a successful one yields the stored row |
| AuthLib.IsManager | src/lib/auth.ts:73-78 | a missing or empty id is not a manager and triggers no lookup; otherwise the answer is true exactly when the looked-up role is manager |
| AuthLib.SignUp | src/lib/auth.ts:24-41 | the sign-up request carries the credentials, the metadata as user data and a redirect to the origin's root |
| UseAuth.Apply | src/hooks/useAuth.ts:14-42 | a session callback sets session and user, ends loading, starts a profile lookup exactly for a signed-in user and clears the profile only on sign-out; a lookup result sets only the profile |
| UseAuth.LoadingUntilFirstSession | src/hooks/useAuth.ts:10-41 | the hook is loading exactly until the first session callback has run |
| UseAuth.LookupsAreSessionUsers | src/hooks/useAuth.ts:20-38 | every profile lookup is for the user of some session callback |
| UseAuth.UserIsLatestSession | src/hooks/useAuth.ts:16-35 | user and session always reflect the most recent session callback |
| UseAuth.SignOutAndLateLookup | src/hooks/useAuth.ts:20-25 | sign-out clears the manager flag, but a lookup that resolves afterwards sets a profile while no user is signed in |
| Layout.FilterNavigation | src/components/Layout.tsx:65-67 | filtering never adds entries, and a manager keeps the whole list |
| Layout.FilterMembership | src/components/Layout.tsx:65-67 | an entry is shown exactly when it is listed and is either not manager-only or the viewer is a manager |
| Layout.ManagerSeesAll | src/components/Layout.tsx:37-47 | a manager sees all nine entries in order |
| Layout.OthersSeeSeven | src/components/Layout.tsx:37-67 | everyone else sees the seven entries without Employees and Accounts, in order |
| Layout.ManagerOnlyEntries | src/components/Layout.tsx:37-47 | exactly the Employees and Accounts entries are manager-only |
| Layout.AtMostOneActive | src/components/Layout.tsx:146 | no path makes two sidebar entries active |
| Layout.HeaderInitials | src/components/Layout.tsx:69-73 | the header shows the name's initials, else the upper-cased first email character, else "U"; an empty name with an empty email raises the TypeError |
| Profile.Initials | src/pages/Profile.tsx:9-13 | the avatar shows the name's initials, or "U" when there are none |
| Profile.InitialsAgreeWithHeader | src/pages/Profile.tsx:9-13 | the profile and the header show the same initials when the name gives some or nobody is signed in |
| Profile.OrNotSet | src/pages/Profile.tsx:47-60 | a missing or empty value shows "Not set", any other value shows itself |
| Profile.FirstIndex | src/pages/Profile.tsx:66 | the index found is the first occurrence of the character, or the length when there is none |
| Profile.ReplaceFirst | src/pages/Profile.tsx:66 | `replace` with a string pattern changes only the first occurrence |
| Profile.FirstIndexAt | src/pages/Profile.tsx:66 | the first occurrence is found at its own index |
| Profile.OneUnderscoreDisappears | src/pages/Profile.tsx:66 | a string with a single underscore has none after the replacement |
| Profile.DivisionDisplay | src/pages/Profile.tsx:63-68 | every division name displays without underscores, while a name with two would keep one |
| Profile.DivisionTexts | src/pages/Profile.tsx:66 | the division row reads "konten kreator", "host live", "model" or "manager" |
| Profile.Details | src/pages/Profile.tsx:40-68 | name, username and email each show their value or "Not set" when missing or empty; the role shows its literal; the division row appears exactly when a division is set and shows the name with its first underscore as a space, so no underscore remains |
| AppRoutes.FindRoute | src/App.tsx:35-128 | a found route is in the table with the requested path; a miss means no route has that path |
| AppRoutes.Resolve | src/App.tsx:30-127 | while loading nothing renders; /auth redirects signed-in users home and shows sign-in otherwise; a guarded page comes from its route; NotFound exactly when no route matches |
| AppRoutes.PathsDistinct | src/App.tsx:36-125 | no two routes share a path, and no guarded route uses the /auth path |
| AppRoutes.FindRouteAt | src/App.tsx:38-125 | a path that first appears at a position resolves to that route |
| AppRoutes.ResolveRoute | src/App.tsx:38-125 | every route's path resolves to its own guarded page |
| AppRoutes.ManagerRouteIsEmployeesOrAccounts | src/App.tsx:46-76 | only /employees and /accounts need a manager |
| AppRoutes.ManagerOnlyRoutes | src/App.tsx:46-76 | a path needs a manager exactly when it is /employees or /accounts |
| AppRoutes.NavigationMatchesRoutes | src/components/Layout.tsx:37-47 | every sidebar entry has a route, and the entry is manager-only exactly when its route needs a manager |
| AppRoutes.ProfileAndDailyReportRouted | src/App.tsx:110-125 | /profile and /daily-report are routed for every signed-in user |
| AppRoutes.ProfileAndDailyReportUnlisted | src/components/Layout.tsx:37-47 | /profile and /daily-report have no sidebar entry |
| AppRoutes.EveryPageHasOneRoute | src/App.tsx:10-125 | each guarded page App.tsx imports has exactly one route entry; ReportReview.tsx is not imported, so it has none |
| AppRoutes.EveryPageRendered | src/App.tsx:38-125 | once loading is over, each routed page is rendered by its own path with its own manager requirement |

## Left out

- Rendering: JSX, styling, icons, dialogs and toasts are left out. Error messages are carried as strings in the results.
- Data fetching: react-query caching, loading spinners and retries are left out. Each query is one `Result` input.
- Backend responses: the database and auth service are not modelled. A query's answer is an input, and a write is the payload it would send.
- Clocks: `new Date()`, today's date and the KPI period bounds are parameters.
- zod internals: `.url()` and `.email()` are opaque predicates. `z.coerce.number()` is modelled only by its outcome: a number, or NaN/missing (`None`, `NotANumber`).
- Strings: UTF-16 code units versus code points are not distinguished. Case mapping is ASCII only.
- Prototype keys: writes of a metric named `__proto__` are left out; reads of inherited Object.prototype names are modelled by `Json.PropTruthy`.
- Ordering: the display order of `Object.entries` over meta is left out. The detail list is a set.
- Router details: react-router's case-insensitive matching and trailing-slash handling are left out.
- `ProtectedRoute` is not part of this model. A guarded route is resolved to `Guarded(requireManager, page)` without deciding what the guard renders.
- Other pages: Dashboard, Auth, DailyReport and the list pages (Accounts, Employees, KPI, Performance, Products, SOPs, Tools, Tutorials) mostly render; they are left out.
- types.ts helpers: the generic `Tables`/`TablesInsert`/`Enums` helpers (lines 457-572) and the Row shapes are left out. Only the Insert/Update shapes the forms write are modelled.
- Query ordering: the log query's newest-first `order("created_at")` is done by the database. The model takes the logs in the order they arrive, so "first log of a key" means the first one received.
- Async ordering: `setTimeout` and promise interleaving in `useAuth` are not modelled as timing. Callbacks and lookup results arrive as a sequence of events in any order.
- The free-form `profile` field of `UserMetadata` is left out. Nothing in the core reads it.
- `signIn`, `signOut`, `getCurrentUser` and `getCurrentSession` in src/lib/auth.ts only forward to the auth service; they are left out.
- Layout.FilterNavigation: order preservation is proved for the concrete nine-entry navigation (`Layout.OthersSeeSeven`), not for every list.
- ProductForm.DefaultsBlocked, ToolForm.DefaultsBlocked and EmployeeForm.DefaultsBlocked: whether the empty default URL or email is rejected depends on the opaque `isUrl`/`isEmail`, so those issues are stated conditionally.
- ReportReview.LastLogOfMetricWins and ReportReview.NotesAreLastTruthy: both are stated only for metrics other than "notes". A log whose metric is "notes" writes the notes key itself, so notes can then hold a number with no truthy notes in any log. The only writer of performance_logs in the core, the daily report form, uses the metric "daily_report"; `MergeMeta` still states what a "notes" metric does to one report.
- ReportReview.KeyDeterminesDateAndUser: key injectivity is stated for dates of equal length, because the key is the string `${date}-${user_id}` and a free-form date could collide.
