# Richezza Mega Value business suite: a Dafny model of its record store and page rules

The application keeps all of its data in the browser. Each collection is a
JSON array of records stored under a fixed key: clients, employees, invoices,
payroll entries, attendance records and leave requests. The signed-in user is
one JSON object stored under its own key. This project models that local
record store, together with the rules the pages and components apply on top
of it:

- `storage.ts`: the generic accessors `get`, `set`, `getById`, `add`,
  `update`, `delete`, `clear` and `clearAll`. It also holds the per-entity
  façades with their filter queries, and `userStorage`.
- The invoices page: its search-and-status filter, its summary figures, and
  its status-update and delete handlers.
- The dashboard's summary figures.
- The clients page: its search, its "New This Month" card, and its add, edit
  and delete handlers.
- The client form: initial data, validation, submit, and clearing an error
  while the user types.
- The invoice list: status badge colour and label, and the actions offered in
  each status.
- The demo authentication provider: the demo users, login, logout, restore on
  mount, and the quick-login credentials.
- The sidebar's role filter and its active-link rule.

Modules follow the program:

- `Types`, `Text` and `Seqs` hold the vocabulary: records, JavaScript string
  operations, and `filter`/`reduce`.
- `Collection` holds what the accessors do to one array.
- `Storage` holds the store itself, as class `RecordStore`.
- `InvoicesPage`, `Dashboard`, `ClientsPage`, `ClientFormModel`,
  `InvoiceList`, `Auth` and `Sidebar` each model one source file.

The model's data:

- A record is a map from field names to JSON-shaped values. The identifier is
  the field `"id"`, and `{ ...a, ...b }` is map union.
- The store has:
  - a flag for "there is a browser window";
  - an oracle for writes the medium refuses, such as an exceeded quota;
  - the collection entries, each of which parses or does not;
  - the session slot.
- The React state of the invoices page, the clients page, the client form
  and the authentication provider becomes a class, with the handlers as
  methods. The dashboard computes its figures once, on mount, so it is a
  pure function of the collections and the clock. The invoice list and
  the sidebar render from their props, so they are functions too. Clock
  readings, generated ids and `confirm()` answers are parameters.
- Money is integer cents.

## Model

| member | source | states |
|---|---|---|
| `Types.ParseInvoiceStatus` | src/types/index.ts:46 | a status is parsed only from its own literal |
| `Types.InvoiceStatusRoundTrip` | src/types/index.ts:46 | every status is recovered from its literal, so distinct statuses have distinct literals |
| `Text.TrimEmptyIffBlank` | src/components/clients/ClientForm.tsx:32 | `!s.trim()` holds exactly when every character of `s` is white space |
| `Text.LowerOfUpper` | src/app/invoices/page.tsx:40-43 | lower-casing an upper-cased string is lower-casing the string, so a case-insensitive search ignores the term's case |
| `Text.ContainsIffOccurs` | src/app/clients/page.tsx:55-57 | `includes` holds exactly when the substring occurs at some position |
| `Text.Capitalize` | src/components/invoices/InvoiceList.tsx:120 | the result has the same length, its first character is upper-cased, and the rest is unchanged |
| `Collection.FindIndex` | src/lib/storage.ts:65 | the result is -1 or a matching position, and no earlier position matches |
| `Collection.FindIndexUnique` | src/lib/storage.ts:65 | the first match is the only position `findIndex` can return |
| `Collection.Find` | src/lib/storage.ts:52 | null exactly when no record has the id; otherwise the record at the first matching position |
| `Collection.Merge` | src/lib/storage.ts:67 | the spread merge has both key sets, the update's values win, and the record's other fields are kept |
| `Collection.FindAfterAppend` | src/lib/storage.ts:56-60 | after a push, an id's earlier first match still wins; an id with no earlier match finds the pushed record if it carries that id |
| `Collection.UpdateFirst` | src/lib/storage.ts:63-70 | only the first record with the id changes, to its merge with the updates; length and every other position are kept; with no match nothing changes |
| `Collection.FindAfterUpdate` | src/lib/storage.ts:63-70 | when the updates leave the id alone, the id still finds the merged record at the same position |
| `Collection.RemoveId` | src/lib/storage.ts:73-77 | the result is exactly the records without the id, each as often as it occurs, in stored order |
| `Collection.RemoveIdSpec` | src/lib/storage.ts:73-77 | delete keeps, in order, exactly the records without the id; it drops as many records as carried the id; afterwards the id finds nothing |
| `Collection.RemoveIdIdempotent` | src/lib/storage.ts:73-77 | deleting twice is deleting once |
| `Collection.RemoveAbsentId` | src/lib/storage.ts:73-77 | deleting an id no record carries leaves the array as it was |
| `Collection.DuplicateIds` | src/lib/storage.ts:63-77 | with a duplicated id, update merges into the first copy and leaves the later copy alone, while delete removes both; the first copy is the one merged |
| `Storage.StorageKeysDistinct` | src/lib/storage.ts:14-23 | the key list holds every key, and the eight key strings are pairwise distinct |
| `Storage.Without` | src/lib/storage.ts:80-83 | removing a key drops that entry and keeps every other entry |
| `Storage.RecordStore.Get` | src/lib/storage.ts:28-37 | the stored array, or the empty array with no window, no entry, or an entry that does not parse |
| `Storage.RecordStore.Set` | src/lib/storage.ts:40-47 | an accepted write replaces that key's array; a refused write, or one with no window, changes nothing; other keys and the session are untouched |
| `Storage.RecordStore.GetById` | src/lib/storage.ts:50-53 | null exactly when no stored record has the id; otherwise the first record that has it |
| `Storage.RecordStore.Add` | src/lib/storage.ts:56-60 | the array gains the item at its end when the write is accepted; other collections are kept; an id with no earlier match now finds the item |
| `Storage.RecordStore.Update` | src/lib/storage.ts:63-70 | the merged array is written only when the id matched; with no match the medium is untouched |
| `Storage.RecordStore.Delete` | src/lib/storage.ts:73-77 | the filtered array is written even when nothing matched; when the write is accepted, the id afterwards finds nothing; a second delete writes the same entries |
| `Storage.RecordStore.RemoveItem` | src/lib/storage.ts:82 | removes exactly the one key, which may be the session slot |
| `Storage.RecordStore.Clear` | src/lib/storage.ts:80-83 | with a window, the key's entry is removed and nothing else changes; with no window, nothing changes |
| `Storage.RecordStore.ClearAll` | src/lib/storage.ts:86-91 | with a window, every collection entry and the session are gone; with no window, nothing changes |
| `Storage.RecordStore.GetCurrentUser` | src/lib/storage.ts:177-185 | a user exactly when there is a window and a stored slot that parses, and then the stored user |
| `Storage.RecordStore.SetCurrentUser` | src/lib/storage.ts:186-189 | with a window the slot holds the user and reads back as that user; the collections are untouched |
| `Storage.RecordStore.Logout` | src/lib/storage.ts:190-193 | afterwards there is no current user; the collections are untouched |
| `Storage.RecordStore.Where` | src/lib/storage.ts:109-114 | a façade query keeps, in stored order, exactly the records satisfying its predicate |
| `Storage.RecordStore.EmployeesByDepartment` | src/lib/storage.ts:109-111 | exactly the employees of that department, in order |
| `Storage.RecordStore.ActiveEmployees` | src/lib/storage.ts:112-114 | exactly the employees whose status is "active", in order |
| `Storage.RecordStore.InvoicesByStatus` | src/lib/storage.ts:123-125 | exactly the invoices with that status literal, in order |
| `Storage.RecordStore.InvoicesByClient` | src/lib/storage.ts:126-128 | exactly the invoices of that client id, in order |
| `Storage.RecordStore.PayrollByEmployee` | src/lib/storage.ts:137-139 | exactly the payroll entries of that employee, in order |
| `Storage.RecordStore.PayrollByPeriod` | src/lib/storage.ts:140-142 | exactly the payroll entries whose month name and year both match, in order |
| `Storage.RecordStore.AttendanceByEmployee` | src/lib/storage.ts:151-153 | exactly the attendance records of that employee, in order |
| `Storage.RecordStore.LeaveByEmployee` | src/lib/storage.ts:168-170 | exactly the leave requests of that employee, in order |
| `Storage.RecordStore.PendingLeaveRequests` | src/lib/storage.ts:171-173 | exactly the leave requests whose status is "pending", in order |
| `InvoicesPage.FilteredInvoices` | src/app/invoices/page.tsx:39-48 | the list shown is an ordered subsequence holding every invoice that passes, as often as it occurs, and nothing else |
| `InvoicesPage.FilteredInvoicesSpec` | src/app/invoices/page.tsx:39-48 | the list shown holds each passing invoice as often as it occurs, in order; an invoice is shown exactly when the search and the status drop-down both pass it; under a chosen status every invoice shown has that status |
| `InvoicesPage.UnfilteredShowsAll` | src/app/invoices/page.tsx:39-48 | an empty search with "all" shows every invoice, in order |
| `InvoicesPage.SearchIgnoresCase` | src/app/invoices/page.tsx:40-43 | an upper-cased term shows exactly what the term shows |
| `InvoicesPage.StatusesExclusive` | src/app/invoices/page.tsx:52-55 | no invoice is counted under two statuses |
| `InvoicesPage.ComputeStats` | src/app/invoices/page.tsx:50-57 | the total is the number of invoices; no status count exceeds it; the draft, sent, paid and overdue counts are each the length of that status's filter (revenue and pending are stated by `RevenueIsPaidQuery` and `RevenueAndPendingDisjoint`) |
| `InvoicesPage.StatusCountsPartition` | src/app/invoices/page.tsx:50-55 | with every status one of the five literals, the five per-status counts add up to the number of invoices |
| `InvoicesPage.StatsCountsBound` | src/app/invoices/page.tsx:50-55 | the four cards never count more than all invoices, and they count fewer exactly when some invoice is cancelled |
| `InvoicesPage.RevenueAndPendingDisjoint` | src/app/invoices/page.tsx:56-57 | no invoice is in both revenue and pending, so their sum is the total over paid, sent and overdue invoices |
| `InvoicesPage.RevenueIsPaidQuery` | src/app/invoices/page.tsx:54-56 | the paid count and the revenue agree with `invoiceStorage.getByStatus('paid')` |
| `InvoicesPage.StatusPatch` | src/app/invoices/page.tsx:27-30 | the patch carries a status literal that reads back as the chosen status and the clock reading, and never an id |
| `InvoicesPage.StatusUpdateSpec` | src/app/invoices/page.tsx:27-30 | the status update rewrites only the first invoice with the id; it sets status and `updatedAt`, keeps every other field, and the id still finds it |
| `InvoicesPage.InvoicesPageState.constructor` | src/app/invoices/page.tsx:14-16 | the page starts with no invoices, an empty search and "all" statuses |
| `InvoicesPage.InvoicesPageState.LoadInvoices` | src/app/invoices/page.tsx:22-25 | the state takes the stored invoices; search and filter are kept |
| `InvoicesPage.InvoicesPageState.HandleStatusUpdate` | src/app/invoices/page.tsx:27-30 | the store is updated with the new status and clock reading, then the list is reloaded from it |
| `InvoicesPage.InvoicesPageState.HandleDeleteInvoice` | src/app/invoices/page.tsx:32-37 | a confirmed delete removes the id from the store and reloads; a refused one changes nothing |
| `Dashboard.MonthName` | src/app/dashboard/page.tsx:33 | one of the twelve English month names, and the name of no other month |
| `Dashboard.MonthNamesDistinct` | src/app/dashboard/page.tsx:33 | the twelve month names are pairwise distinct |
| `Dashboard.MonthlyEntries` | src/app/dashboard/page.tsx:32-35 | exactly the entries of the current month name and year, each as often as it occurs, in order |
| `Dashboard.ComputeDashboard` | src/app/dashboard/page.tsx:37-46 | the three totals are the collection sizes; the paid count is the length of the paid filter; the pending count is the length of the sent filter only, so overdue invoices are not pending; the active count is at most the number of employees |
| `Dashboard.DashboardBounds` | src/app/dashboard/page.tsx:37-46 | the totals are the collection sizes; paid plus pending invoices is at most all invoices; active employees are at most all employees |
| `Dashboard.DashboardAgreesWithQueries` | src/app/dashboard/page.tsx:27-46 | the paid count, revenue, active count and monthly payroll equal what the façade queries give |
| `Dashboard.MonthlyEntriesSpec` | src/app/dashboard/page.tsx:32-35 | an entry is summed exactly when both its month name and its year are the current ones; no other ordered selection of the entries has that property |
| `Dashboard.MonthlyPayrollAfterAdd` | src/app/dashboard/page.tsx:32-44 | a new entry of the current period adds exactly its net salary to the monthly payroll; an entry of another period adds nothing |
| `Dashboard.DashboardAgreesWithInvoicesPage` | src/app/dashboard/page.tsx:41-43 | the dashboard and the invoices page agree on paid count and revenue; the dashboard's pending count is the page's sent count, so it leaves out overdue invoices |
| `ClientsPage.FilteredClients` | src/app/clients/page.tsx:54-58 | the list shown is an ordered subsequence holding every matching client, as often as it occurs, and nothing else |
| `ClientsPage.FilteredClientsSpec` | src/app/clients/page.tsx:54-58 | the list shown is the one ordered selection holding each client whose name, email or phone matches, as often as it occurs; a client is shown exactly when it matches |
| `ClientsPage.EmptySearchShowsAll` | src/app/clients/page.tsx:54-58 | an empty search shows every client, in order |
| `ClientsPage.NameOrEmailIgnoresCase` | src/app/clients/page.tsx:55-57 | name and email matching ignores the term's case; only the phone part sees it |
| `ClientsPage.PhoneMatchIsCaseSensitive` | src/app/clients/page.tsx:57 | the phone part is a raw substring test: "X" finds a phone "X", and "x" does not |
| `ClientsPage.NewClient` | src/app/clients/page.tsx:29-34 | the new client carries the generated id, both timestamps, and every other field of the form data; it counts as created in the month and year of its creation reading |
| `ClientsPage.EditPatch` | src/app/clients/page.tsx:41-42 | the patch holds the edited fields as given and an `updatedAt` set to the new reading |
| `ClientsPage.EditClientSpec` | src/app/clients/page.tsx:41-42 | an edit keeps the id and `createdAt`, sets `updatedAt` to the new reading and the edited fields to their new values, and touches no other client |
| `ClientsPage.NewThisMonth` | src/app/clients/page.tsx:101-105 | the card as written is the length of the filter of clients created in the current calendar month; it counts at least every client created this month of this year and at most all clients; it is 0 exactly when no client was created in this calendar month |
| `ClientsPage.NewThisMonthIgnoresYear` | src/app/clients/page.tsx:101-105 | as written, two days in the same month of different years give the same count |
| `ClientsPage.NewThisMonthAfterAdd` | src/app/clients/page.tsx:101-105 | as written, adding a client raises the count by one exactly when it was created in the current calendar month, of any year, and otherwise leaves it unchanged |
| `ClientsPage.NewThisMonthAndYear` | src/app/clients/page.tsx:101-105 | the corrected card is at most the number of clients, and 0 exactly when no client was created this month of this year |
| `ClientsPage.NewThisMonthCountsLastYear` | src/app/clients/page.tsx:101-105 | as written, a client created in the same month a year earlier counts as new |
| `ClientsPage.NewThisMonthAndYearSpec` | src/app/clients/page.tsx:101-105 | the corrected count is at most the count as written; it is 0 exactly when no client was created this month of this year; adding a client now raises it by one |
| `ClientsPage.ClientsPageState.constructor` | src/app/clients/page.tsx:14-17 | the page starts with no clients, no open form or editor, and an empty search |
| `ClientsPage.ClientsPageState.LoadClients` | src/app/clients/page.tsx:23-26 | the state takes the stored clients; the other state is kept |
| `ClientsPage.ClientsPageState.HandleAddClient` | src/app/clients/page.tsx:28-39 | the new client is appended in the store; when the write is accepted the list is the old list plus that client; the form closes |
| `ClientsPage.ClientsPageState.HandleEditClient` | src/app/clients/page.tsx:41-45 | the store is updated with the edits and a fresh `updatedAt`, the list is reloaded, and the editor closes |
| `ClientsPage.ClientsPageState.HandleDeleteClient` | src/app/clients/page.tsx:47-52 | a confirmed delete removes the id from the store and reloads; a refused one changes nothing |
| `ClientFormModel.ClientFormData.With` | src/components/clients/ClientForm.tsx:74 | the changed field takes the new value and every other field is kept |
| `ClientFormModel.ClientFormData.AsRecord` | src/components/clients/ClientForm.tsx:69 | the submitted object holds every field under its own property name |
| `ClientFormModel.InitialFormData` | src/components/clients/ClientForm.tsx:16-25 | each field starts as the initial data's string, or "" when there is no initial data or the field is absent |
| `ClientFormModel.FormErrors.Cleared` | src/components/clients/ClientForm.tsx:77 | the field's error is gone and every other field's error is kept |
| `ClientFormModel.NoErrorsSpec` | src/components/clients/ClientForm.tsx:63 | the error object is empty exactly when no field has an error |
| `ClientFormModel.EmailError` | src/components/clients/ClientForm.tsx:36-40 | the email has no error exactly when it fits the pattern; "required" exactly when it is blank; otherwise "invalid" |
| `ClientFormModel.Validation` | src/components/clients/ClientForm.tsx:29-64 | every message set is non-empty; the tax id is never flagged; the email is clear exactly when it fits the pattern |
| `ClientFormModel.ValidationSpec` | src/components/clients/ClientForm.tsx:29-64 | each required field has its own message exactly when it is blank; email is "required" when blank and "invalid" when not blank but failing the pattern; the tax id never has an error |
| `ClientFormModel.ValidationPasses` | src/components/clients/ClientForm.tsx:29-64 | validation passes exactly when every field but the tax id is non-blank and the email fits the pattern |
| `ClientFormModel.PatternImpliesNotBlank` | src/components/clients/ClientForm.tsx:36-40 | a string that fits the email pattern is never blank |
| `ClientFormModel.ValidationIsPerField` | src/components/clients/ClientForm.tsx:29-64 | changing one field changes at most that field's error |
| `ClientFormModel.PatternAcceptsPlainAddress` | src/components/clients/ClientForm.tsx:38 | "jane@acme.com" fits the pattern |
| `ClientFormModel.PatternRejectsMissingDot` | src/components/clients/ClientForm.tsx:38 | "jane@acme" does not fit the pattern |
| `ClientFormModel.LeadingSpaceIsInvalidEmail` | src/components/clients/ClientForm.tsx:36-40 | the pattern is tested on the untrimmed value, so " jane@acme.com" is reported invalid |
| `ClientFormModel.ClientFormState.constructor` | src/components/clients/ClientForm.tsx:16-27 | the form opens on the initial data, with no errors |
| `ClientFormModel.ClientFormState.ValidateForm` | src/components/clients/ClientForm.tsx:29-64 | the stored errors are the field-by-field validation of the data, and the result is true exactly when there are none |
| `ClientFormModel.ClientFormState.HandleSubmit` | src/components/clients/ClientForm.tsx:66-71 | the data is submitted exactly when validation finds no error |
| `ClientFormModel.ClientFormState.HandleChange` | src/components/clients/ClientForm.tsx:73-79 | the field takes the typed value, and its error is cleared if it had a non-empty one; other errors are kept |
| `InvoiceList.StatusColor` | src/components/invoices/InvoiceList.tsx:21-34 | the grey badge marks exactly draft and cancelled invoices |
| `InvoiceList.StatusColors` | src/components/invoices/InvoiceList.tsx:21-34 | cancelled falls to the draft colour; sent, paid and overdue each have a colour of their own |
| `InvoiceList.StatusLabel` | src/components/invoices/InvoiceList.tsx:120 | the label is as long as the literal, begins with a capital letter, and is the literal after it |
| `InvoiceList.StatusLabelSpec` | src/components/invoices/InvoiceList.tsx:120 | the badge is the status literal with its first letter upper-cased, e.g. "Overdue" |
| `InvoiceList.DesktopMenu` | src/components/invoices/InvoiceList.tsx:131-153 | every status change the menu offers is a lifecycle move out of the invoice's status, and the menu ends with delete |
| `InvoiceList.MobileButtons` | src/components/invoices/InvoiceList.tsx:205-222 | every status change the buttons offer is a lifecycle move out of the invoice's status, and the row ends with delete |
| `InvoiceList.DesktopOffersLifecycle` | src/components/invoices/InvoiceList.tsx:131-145 | the menu offers exactly draft to sent, and sent or overdue to paid |
| `InvoiceList.MobileMatchesDesktop` | src/components/invoices/InvoiceList.tsx:205-222 | the mobile buttons offer the same status moves as the desktop menu |
| `InvoiceList.LifecycleShape` | src/components/invoices/InvoiceList.tsx:131-153 | no move leads to draft; paid and cancelled invoices offer no move; delete is always offered |
| `InvoiceList.AtMostOneMove` | src/components/invoices/InvoiceList.tsx:131-145 | no status offers two moves |
| `Seqs.FirstIndex` | src/components/auth/AuthProvider.tsx:61 | -1 exactly when no element satisfies the predicate; otherwise the first position whose element does (`find`/`findIndex`, also used by `Collection.FindIndex`) |
| `Auth.FindDemoUser` | src/components/auth/AuthProvider.tsx:61 | none exactly when no demo user has the email; otherwise a demo user with that email |
| `Auth.DemoEmailsDistinct` | src/components/auth/AuthProvider.tsx:18-43 | the demo emails are pairwise distinct, so each finds its own user |
| `Auth.QuickLoginCredentials` | src/components/auth/LoginForm.tsx:34-43 | each button fills in the email of a demo user with the button's role, and the demo password |
| `Auth.QuickLoginLogsInAsRole` | src/components/auth/LoginForm.tsx:34-43 | each quick-login pair carries the demo password and finds the demo user with the button's role; different roles find different users |
| `Auth.AuthProvider.constructor` | src/components/auth/AuthProvider.tsx:46-47 | no user, and loading |
| `Auth.AuthProvider.Mount` | src/components/auth/AuthProvider.tsx:49-56 | a stored session user is restored; without one the user stays as it was; loading ends |
| `Auth.AuthProvider.Login` | src/components/auth/AuthProvider.tsx:58-73 | true exactly when a demo user has the email and the password is "demo123"; on success the user state holds the first such user, and so does the session slot when there is a window; on failure neither changes; loading is over either way |
| `Auth.AuthProvider.Logout` | src/components/auth/AuthProvider.tsx:75-78 | no user, not authenticated, no current user in the store; the collections are untouched |
| `Sidebar.FilteredItems` | src/components/layout/Sidebar.tsx:72-74 | the items shown are every item the visitor may see, in the list's order, and nothing else |
| `Sidebar.FilteredItemsSpec` | src/components/layout/Sidebar.tsx:72-74 | the items shown are an ordered subsequence; unrestricted items are always shown; a restricted item is shown exactly when there is a user whose role its list names |
| `Sidebar.EmployeeSeesOpenItems` | src/components/layout/Sidebar.tsx:15-74 | signed out, or as an employee, exactly Dashboard, Attendance and Leave Requests are shown |
| `Sidebar.StaffSeeEverything` | src/components/layout/Sidebar.tsx:15-74 | admins and managers see all eight items, in order |
| `Sidebar.IsActive` | src/components/layout/Sidebar.tsx:123 | an active link's href is a prefix of the path; a path no longer than the href is active only when it is the href |
| `Sidebar.IsActiveSpec` | src/components/layout/Sidebar.tsx:123 | a link is active exactly on its own path, or on a path that continues it after a "/" |
| `Sidebar.SiblingPathIsNotActive` | src/components/layout/Sidebar.tsx:123 | "/clientsX" is not active for "/clients", while "/clients/42" and "/clients" are |

## Left out

- Serialisation: `JSON.stringify`/`JSON.parse` is the identity. An entry either parses to an array of records or fails to parse, and a read that fails to parse returns the empty array.
- Storage.RecordStore.Get: the model assumes every entry that parses is an array of records. `get` returns whatever valid JSON it finds unchecked. An entry such as `null`, `{}`, `0` or `[null]` parses, and then the callers' `.find`, `.push`, `.findIndex` or `.filter` throw or read a field of `null`. Such entries, and the exceptions they cause, are not modelled.
- Dates become strings after a round trip through the medium. The model keeps them as `Timestamp` values.
- The `typeof window` guards become one `available` flag. `console.error` is not modelled.
- Quota and other `setItem` failures become an oracle for refused writes, which are dropped silently.
- Storage.RecordStore.SetCurrentUser: the slot write is not subject to that oracle. A refused session write would throw in the page; this is not modelled.
- The façades' `getAll`, `getById`, `create`, `update` and `delete` are the generic members applied at the façade's fixed key. They are not repeated per entity.
- `attendanceStorage.getByDate`: it compares ISO date strings produced by `Date`/`toISOString`, which depend on the time zone. Date formatting is outside the model.
- `generateId`, `formatCurrency`, `formatDate` and `seedSampleData`: these are clock and randomness, locale formatting, and a log line. Generated ids and clock readings are parameters of the handlers.
- A clock reading is given with its local calendar year and month. Each handler that reads `new Date()` twice gets one reading per read (`created` and `updated` when adding a client). The dashboard's two readings are taken as one, and so are the clients page's per-client `new Date()` readings while it counts "New This Month" in one render.
- Case mapping covers ASCII letters only. Non-ASCII characters are left unchanged.
- Amounts are integer cents. Floating-point sums, `NaN` from missing totals, and non-number fields read as 0 are not modelled.
- Records missing a declared string field: the searches read a missing or non-string `name`, `email`, `phone`, `invoiceNumber` or embedded client field as `""`. In the application `invoice.client.name.toLowerCase()` and `client.phone.includes(...)` then throw a `TypeError` while rendering. Such records, and the exceptions they cause, are not modelled.
- ClientFormModel.FormErrors.Cleared: JavaScript keeps the cleared field's key with the value `undefined`, while the model has no error for that field. Both count as no error for display. `Object.keys(newErrors)` is only taken on a freshly built object, so the difference never reaches validation.
- `confirm()` is a boolean parameter. Login is synchronous, and the login form's loading UI is not modelled.
- Opening and closing the add form and the editor by button (`setIsAddingClient(true)`, `setEditingClient(client)`) are plain assignments.
- All JSX rendering, CSS layout, the empty-state markup, the sidebar's user initials, the router redirect and the layout providers.
- Cross-tab races on the shared storage are concurrency and out of scope.

## Findings

| source | as written | input that shows it | evidently intended | confidence | as-written member | corrected member |
|---|---|---|---|---|---|---|
| src/app/clients/page.tsx:101-105 | "New This Month" compares only the creation month with the current month | a client created in October 2025, counted in October 2026, is counted as new | count the clients created in the current month of the current year | not executed | `ClientsPage.NewThisMonth` (shown by `ClientsPage.NewThisMonthCountsLastYear`) | `ClientsPage.NewThisMonthAndYear` (proved by `ClientsPage.NewThisMonthAndYearSpec`) |
