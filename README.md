# QR document system: access control and registries

A Dafny model of the decision and list logic of a role-gated front end for
tracking items that clients deposit and later collect, each labelled with a QR
code. All state lives in React components; the model lifts it into Dafny:

- `Users` (users.dfy): the five roles and the user record of the root page.
- `Session` (session.dfy): the root page's nullable `user` field as a class
  `App`, with login, logout and the login-page-or-dashboard switch.
- `Login` (login.dfy): staff login, where the password alone decides the role
  through a fixed four-entry table; client login with any non-empty phone and
  name; the login page's role labels.
- `Dashboard` (dashboard.dfy): the default-deny permission table `canAccess`,
  the header's role label with its fall-back, the navigation buttons on offer,
  the guarded content area and the `currentView` state.
- `Items` (items.dfy): the item registry. It covers the validated append of an
  active item and return by id. It also covers the generated `QR-nnnn` label,
  the edit and return gates, and the per-client visibility filter.
- `Management` (management.dfy): the client registry's validated append and
  form reset.
- `Archive` (archive.dfy): the password lock, the case-insensitive search and
  the statistic tiles.
- `Lists`, `Text`, `Decimal` (lists.dfy, text.dfy, decimal.dfy): JavaScript's
  `filter`, `toLowerCase`, `includes`, `String(n)` and `padStart`, with the
  lemmas the views rely on. These are an order-preserving sub-list, exact
  membership, a substring search that agrees with a reference definition, and
  decimal read-back.

Component state that a handler replaces is a class field. Each handler is a
method whose `ensures` gives the whole new state. What a handler computes
purely, such as a `map`, a `filter` or a `reduce`, is a function with lemmas.
The clock (`Date.now()` ids, today's date) and `parseFloat` are method
parameters (`id`, `today`, `parse`).

Staff login derives the role from the password alone, and a wrong password
only reports an error (`Login.StaffLoginOutcome`).

## Model

| member | source | states |
|---|---|---|
| `Session.ScreenFor` | src/pages/Index.tsx:24-28 | the login page is shown iff there is no session; otherwise the dashboard is shown for exactly the session's user |
| `Session.App.constructor` | src/pages/Index.tsx:14 | the session starts absent and the login page is on screen |
| `Session.App.HandleLogin` | src/pages/Index.tsx:16-18 | after login the session is exactly the given user and the dashboard shows that user |
| `Session.App.HandleLogout` | src/pages/Index.tsx:20-22 | after logout the session is absent, whatever it was, and the login page is shown |
| `Login.StaffRole` | src/components/LoginPage.tsx:31-41 | no contract of its own; the password-to-role table, whose exact entries `Login.StaffPasswordTable` states |
| `Login.StaffLogin` | src/components/LoginPage.tsx:22-55 | no contract of its own; the staff button's decision, stated by `Login.StaffLoginNeedsBothFields`, `Login.StaffLoginOutcome` and `Login.StaffLoginIsNeverClient` |
| `Login.ClientLogin` | src/components/LoginPage.tsx:58-68 | no contract of its own; the client button's decision, stated by `Login.ClientLoginOutcome` |
| `Login.RoleName` | src/components/LoginPage.tsx:75-84 | no contract of its own; the login page's labels, stated by `Login.RoleNamesDistinct` and `Dashboard.RoleNamesAgree` |
| `Login.HandleStaffLogin` | src/components/LoginPage.tsx:21-56 | the if-chain yields the staff-login decision; the root session changes only on success, and then to exactly the new user |
| `Login.HandleClientLogin` | src/components/LoginPage.tsx:58-73 | yields the client-login decision; the session changes only on success, to the new client |
| `Login.StaffLoginNeedsBothFields` | src/components/LoginPage.tsx:22-29 | the result is "missing fields" iff the name or the password is empty, so nobody is logged in |
| `Login.StaffPasswordTable` | src/components/LoginPage.tsx:31-41 | 20252025 gives nikitovsky, 2025 admin, 25 cashier, 202505 creator; every other password gives no role; no password gives client |
| `Login.StaffLoginOutcome` | src/components/LoginPage.tsx:31-55 | success iff the name is non-empty and the password is in the table; the user is then the table's role, the entered name and no phone; any other non-empty password is "wrong password" |
| `Login.StaffLoginIsNeverClient` | src/components/LoginPage.tsx:33-44 | a staff login never produces a client and never sets a phone |
| `Login.ClientLoginOutcome` | src/components/LoginPage.tsx:59-68 | success iff phone and name are non-empty, producing the client with that name and phone; otherwise "missing fields" |
| `Login.LoginsKeepPhoneIffClient` | src/components/LoginPage.tsx:44-68 | both login paths produce users that have a phone exactly when they are clients |
| `Login.RoleNamesDistinct` | src/components/LoginPage.tsx:75-84 | every role has a non-empty label, and distinct roles have distinct labels |
| `Dashboard.CanAccess` | src/components/Dashboard.tsx:32-40 | no contract of its own; `canAccess`, stated by `Dashboard.DefaultDeny`, `Dashboard.ManagementAccess` and `Dashboard.ArchiveAccess` |
| `Dashboard.RoleName` | src/components/Dashboard.tsx:20-30 | no contract of its own; the header label with its fall-back, stated by `Dashboard.RoleNameFallback` and `Dashboard.RoleNamesAgree` |
| `Dashboard.NavOffered` | src/components/Dashboard.tsx:65-106 | no contract of its own; the buttons on offer, stated by `Dashboard.ItemsNavOffered` and `Dashboard.OfferedViewIsRendered` |
| `Dashboard.Rendered` | src/components/Dashboard.tsx:109-114 | no contract of its own; the guarded content area, stated by `Dashboard.RenderedIsGuarded` and `Dashboard.OfferedViewIsRendered` |
| `Dashboard.DefaultDeny` | src/components/Dashboard.tsx:32-40 | a feature other than management, archive or fullAccess is denied to every role |
| `Dashboard.ManagementAccess` | src/components/Dashboard.tsx:33-39 | management is allowed exactly to admin, creator and nikitovsky |
| `Dashboard.ArchiveAccess` | src/components/Dashboard.tsx:35-36 | archive and fullAccess are allowed exactly to creator and nikitovsky |
| `Dashboard.ArchiveImpliesManagement` | src/components/Dashboard.tsx:34-35 | every role allowed the archive is allowed management |
| `Dashboard.RenderedIsGuarded` | src/components/Dashboard.tsx:109-114 | whatever the current view, management and archive render only with permission, and only the current view ever renders |
| `Dashboard.ItemsNavOffered` | src/components/Dashboard.tsx:75 | the items button is offered iff the role is not client |
| `Dashboard.OfferedViewIsRendered` | src/components/Dashboard.tsx:65-114 | a view reachable by a navigation button always renders, and a client can reach only the home view |
| `Dashboard.RoleNameFallback` | src/components/Dashboard.tsx:20-30 | a string absent from the label table is shown as itself; a present one gets its label |
| `Dashboard.RoleNamesAgree` | src/components/Dashboard.tsx:21-28 | for each of the five roles the header's label equals the login page's label |
| `Dashboard.DashboardPage.constructor` | src/components/Dashboard.tsx:18 | the dashboard opens on the home view, and the home view is what renders |
| `Dashboard.DashboardPage.Navigate` | src/components/Dashboard.tsx:66-106 | pressing an offered button makes that view current, keeps the current view one that is offered, and that view is what renders, so the content area is never blank and a client only ever gets the home view |
| `Items.ItemFromForm` | src/components/dashboard/ItemsView.tsx:81-94 | no contract of its own; the item built from the form, stated field by field by `Items.AddedItemCopiesForm` |
| `Items.MarkReturned` | src/components/dashboard/ItemsView.tsx:118 | no contract of its own; return by id, stated by `Items.MarkReturnedAt` and `Items.MarkReturnedIdempotent` |
| `Items.QRLabel` | src/components/dashboard/ItemsView.tsx:126-127 | no contract of its own; the generated label, stated by `Items.QRLabelReadsBack`, `Items.QRLabelInjective` and `Items.FirstGeneratedLabel` |
| `Items.CanEdit` | src/components/dashboard/ItemsView.tsx:130 | no contract of its own; `canEdit`, stated by `Items.EditAndReturnGates` |
| `Items.CanReturn` | src/components/dashboard/ItemsView.tsx:131 | no contract of its own; `canReturn`, stated by `Items.EditAndReturnGates` |
| `Items.Visible` | src/components/dashboard/ItemsView.tsx:279 | no contract of its own; the list the view shows, stated by `Items.ClientSeesOwnItems` and `Items.StaffSeesAllItems` |
| `Items.ItemsPanel.constructor` | src/components/dashboard/ItemsView.tsx:34-63 | the view starts with the seeded item, a blank form and the dialog closed; every item has its required fields |
| `Items.ItemsPanel.HandleAddItem` | src/components/dashboard/ItemsView.tsx:71-115 | adds iff QR code, item name, client name and phone are all filled in; if not, nothing changes; if so, exactly the form's item is appended, the dialog closes and the form resets; required fields stay present on every item |
| `Items.ItemsPanel.HandleReturnItem` | src/components/dashboard/ItemsView.tsx:117-123 | the list becomes the by-id return mapping of the old list; required fields stay present |
| `Items.ItemsPanel.GenerateQRCode` | src/components/dashboard/ItemsView.tsx:125-128 | only the form's QR code changes, to the label for `items.length + 1`; the list is untouched |
| `Items.AddedItemCopiesForm` | src/components/dashboard/ItemsView.tsx:81-94 | the new item is active, has the fresh id, copies QR code, department, item name, client name, phone, email, deposit date and expected return date verbatim and holds the parsed deposit and return amounts, so it has its required fields |
| `Items.BlankFormIsIncomplete` | src/components/dashboard/ItemsView.tsx:98-109 | the reset form is incomplete, so pressing add again right away adds nothing |
| `Items.MarkReturnedAt` | src/components/dashboard/ItemsView.tsx:118 | the mapping keeps length and order, sets status returned exactly on items with the id and leaves every other item and every other field unchanged |
| `Items.MarkReturnedIdempotent` | src/components/dashboard/ItemsView.tsx:118 | returning an id twice equals returning it once |
| `Items.QRLabelReadsBack` | src/components/dashboard/ItemsView.tsx:126-127 | the label is `QR-` followed by at least four decimal digits that read back as the item number |
| `Items.QRLabelInjective` | src/components/dashboard/ItemsView.tsx:126-127 | different item numbers get different labels |
| `Items.FirstGeneratedLabel` | src/components/dashboard/ItemsView.tsx:126-127 | with the one seeded item the first generated label is `QR-0002` |
| `Items.EditAndReturnGates` | src/components/dashboard/ItemsView.tsx:130-131 | can edit iff admin, creator or nikitovsky; can return iff not client; every editor can return |
| `Items.ClientSeesOwnItems` | src/components/dashboard/ItemsView.tsx:279 | a client sees exactly the items whose phone is the session's phone, as a sub-list in list order, with every copy of such an item kept and none of any other |
| `Items.StaffSeesAllItems` | src/components/dashboard/ItemsView.tsx:279 | every other role sees the whole list |
| `Management.ClientFromForm` | src/components/dashboard/ManagementView.tsx:59-67 | no contract of its own; the client built from the form, stated field by field by `Management.AddedClientCopiesForm` |
| `Management.ClientsPanel.constructor` | src/components/dashboard/ManagementView.tsx:28-47 | the view starts with the seeded client, a blank form and the dialog closed |
| `Management.ClientsPanel.HandleAddClient` | src/components/dashboard/ManagementView.tsx:49-77 | adds iff name and phone are filled in; if not, nothing changes; if so, exactly the form's client is appended after the old clients, the form resets and the dialog closes; every client keeps a name and a phone |
| `Management.AddedClientCopiesForm` | src/components/dashboard/ManagementView.tsx:59-67 | the new client has the fresh id, the form's name, phone and email, the parsed discount and bonus points, and today as its creation date |
| `Management.BlankClientFormIsIncomplete` | src/components/dashboard/ManagementView.tsx:71 | the reset form has empty name, phone and email and discount and bonus `0`, so it cannot be submitted again |
| `Archive.Matches` | src/components/dashboard/ArchiveView.tsx:81-83 | no contract of its own; the search condition, whose occurrence meaning `Text.IncludesIffOccurs` states |
| `Archive.Search` | src/components/dashboard/ArchiveView.tsx:80-84 | no contract of its own; `filteredItems`, stated by `Archive.SearchIsFilter`, `Archive.EmptyQueryShowsAll` and `Archive.SearchIgnoresQueryCase` |
| `Archive.DepartmentCount` | src/components/dashboard/ArchiveView.tsx:153-159 | no contract of its own; the documents and photos tiles, stated by `Archive.DepartmentCountsBound` |
| `Archive.ReduceAmounts` | src/components/dashboard/ArchiveView.tsx:165 | no contract of its own; the total tile's left fold, stated by `Archive.ReduceIsSum` |
| `Archive.Statistics` | src/components/dashboard/ArchiveView.tsx:148-165 | no contract of its own; the four tiles, stated by `Archive.DepartmentCountsBound`, `Archive.TotalIsSum` and `Archive.SeedStatistics` |
| `Archive.ArchivePanel.Screen` | src/components/dashboard/ArchiveView.tsx:93-126 | no contract of its own; the lock card while locked, otherwise the tiles and the search results; stated by the constructor, `Archive.ArchivePanel.Lock` and `Archive.ArchivePanel.HandleUnlock` |
| `Archive.ArchivePanel.constructor` | src/components/dashboard/ArchiveView.tsx:29-56 | the archive starts locked, showing the password card, with empty password and search |
| `Archive.ArchivePanel.SetPassword` | src/components/dashboard/ArchiveView.tsx:113-114 | the password field holds the typed text |
| `Archive.ArchivePanel.SetSearchQuery` | src/components/dashboard/ArchiveView.tsx:214 | the search field holds the typed text |
| `Archive.ArchivePanel.HandleUnlock` | src/components/dashboard/ArchiveView.tsx:58-72 | unlocks iff the password is exactly `202505`; otherwise the lock state is unchanged |
| `Archive.ArchivePanel.Lock` | src/components/dashboard/ArchiveView.tsx:135 | the lock button always locks and the password card returns |
| `Archive.SearchIsFilter` | src/components/dashboard/ArchiveView.tsx:80-84 | the results are an order-preserving sub-list of the archive, and a record is included iff the lowercased query occurs in its lowercased QR code, client name or item name, with every copy of a matching record kept and none of any other |
| `Archive.EmptyQueryShowsAll` | src/components/dashboard/ArchiveView.tsx:80-84 | an empty query returns every archived record |
| `Archive.SearchIgnoresQueryCase` | src/components/dashboard/ArchiveView.tsx:80-84 | lowercasing the query first does not change the results |
| `Archive.DepartmentCountsBound` | src/components/dashboard/ArchiveView.tsx:148-159 | the documents count plus the photos count is at most the record count |
| `Archive.ReduceIsSum` | src/components/dashboard/ArchiveView.tsx:165 | the left fold from an accumulator adds the sum of the amounts to it |
| `Archive.TotalIsSum` | src/components/dashboard/ArchiveView.tsx:165 | the total tile equals the sum of `totalAmount` over all records |
| `Archive.SeedStatistics` | src/components/dashboard/ArchiveView.tsx:33-165 | for the two seeded records the tiles read 2 records, 1 document, 1 photo and 3500 |
| `Lists.Filter` | src/components/dashboard/ArchiveView.tsx:80 | `filter` never yields more elements than it is given; its meaning is stated by `Lists.FilterIsSubsequence`, `Lists.FilterMembership` and `Lists.FilterCount` |
| `Lists.FilterIsSubsequence` | src/components/dashboard/ArchiveView.tsx:80 | a filter's result is an order-preserving sub-list of its input |
| `Lists.FilterMembership` | src/components/dashboard/ItemsView.tsx:279 | an element is in a filter's result iff it is in the input and satisfies the predicate |
| `Lists.FilterCount` | src/components/dashboard/ItemsView.tsx:279 | a filter keeps every copy of an element the predicate accepts and no copy of one it rejects |
| `Lists.DisjointFiltersBound` | src/components/dashboard/ArchiveView.tsx:153-159 | two filters whose predicates never both hold select at most the input's length between them |
| `Text.LowerChar` | src/components/dashboard/ArchiveView.tsx:81-83 | `toLowerCase` on one character never leaves a letter A-Z or a Cyrillic capital U+0400-U+042F (`IsUpper`) |
| `Text.Lower` | src/components/dashboard/ArchiveView.tsx:81-83 | `toLowerCase` leaves no letter A-Z and no Cyrillic capital U+0400-U+042F, and returns a string without such capitals unchanged; `Text.LowerIdempotent` follows |
| `Text.LowerIdempotent` | src/components/dashboard/ArchiveView.tsx:81-83 | lowercasing twice equals lowercasing once |
| `Text.IncludesEmpty` | src/components/dashboard/ArchiveView.tsx:81-83 | every string includes the empty string, so an empty query matches every record |
| `Text.Includes` | src/components/dashboard/ArchiveView.tsx:81-83 | no contract of its own; `includes`, stated against the reference definition by `Text.IncludesIffOccurs` and `Text.IncludesEmpty` |
| `Text.IncludesIffOccurs` | src/components/dashboard/ArchiveView.tsx:81-83 | `includes` holds iff the substring occurs at some index, by the slice-based reference definition |
| `Decimal.ToDecimal` | src/components/dashboard/ItemsView.tsx:126 | `String(n)` is a non-empty digit string, one digit exactly for n below ten, with no leading zero unless n is 0 |
| `Decimal.ValueOfToDecimal` | src/components/dashboard/ItemsView.tsx:126 | reading the decimal string back gives n |
| `Decimal.PadStart` | src/components/dashboard/ItemsView.tsx:126 | `padStart` gives the larger of the input's length and the width, ends with the input and is filled before it |
| `Decimal.PaddedDecimalValue` | src/components/dashboard/ItemsView.tsx:126 | a zero-padded decimal string is still all digits and still reads back as n |

## Left out

- JSX rendering, styling, icons, dialogs and tabs. Only the visibility conditions are kept: `NavOffered`, `Rendered` and `ArchivePanel.Screen`.
- `toast` notifications and their texts: a UI hook. Handlers return a result (`LoginResult`, `added`, `unlocked`) instead.
- `Date.now()` ids and `new Date().toISOString()` dates: they read the clock, so they are the `id` and `today` parameters.
- `parseFloat` of amounts, discounts and bonus points: floating point. Parsing is the caller's `parse: string -> int`, and amounts are integers.
- `toLowerCase` beyond ASCII letters and the Cyrillic capitals U+0400-U+042F: Unicode case mapping for other scripts is not modelled.
- `toLocaleDateString` and the department label lookups: display formatting only.
- The `headCashier` entries in the management permission list (src/components/Dashboard.tsx:34), in the header label table (src/components/Dashboard.tsx:24) and in `canEdit` (src/components/dashboard/ItemsView.tsx:130): that string is not a user role (src/pages/Index.tsx:5), so these entries can never match, and the closed `Role` type omits them.
- Object prototype keys such as `constructor` or `toString` passed to `canAccess` or the header's `getRoleName`: the JavaScript lookup would find inherited members. Only literal feature names and real role strings are ever passed, and the model's tables are plain maps.
- `String(n)` in exponent notation for n of 10^21 and above: an item count never gets there.
- The text inputs' `onChange` setters for the login fields and for the item and client forms: each replaces one field with the typed text. Only the archive's password and search setters are modelled, because the lock and the search read them.
- `handleSendSMS` and `handlePrintForm`: each only shows a notification.
- src/components/dashboard/MainView.tsx: hard-coded display figures. MainView.tsx is not part of this model.
- The role gates on the add and return handlers. They are reachable only through buttons shown when `CanEdit` or `CanReturn` holds and, for return, when the item is active. The handlers themselves check nothing, so the model states the gates separately (`Items.EditAndReturnGates`) rather than requiring them on the methods.
