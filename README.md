# Gestor One inventory core, in Dafny

This project models the core of Gestor One, a React inventory manager for a
small stockroom. Materials are taken in (`entrada`), handed out (`saida`) and
consumed (`consumo`). An assistant chat can propose such movements, and the
user confirms them.

The model covers these parts:

- **`Database`**: the shared store of materials, movements and collaborators.
  It has a case-insensitive name resolution, the signed stock delta of
  `addMovement`, and the newest-first movement order.
- **`Chat`**: the assistant's conversation and pending-action state machine.
  The gateway's replies are inputs.
- **`ChatPage`**: the chat screen. It holds the message formatter (HTML
  escape, then `**bold**`, then `[text](url)` links), the send handler and the
  rules that disable the input.
- **`Notifications`**: the low-stock, zero-stock and stale-stock alerts.
- **`Inventory`**: the physical-count reconciliation.
- **`Reports`**: the consumption-by-collaborator report and the CSV export.
- **`Dashboard`**: the integer counters, the stock bar and the front slices.
- **`MaterialsPage`** and **`MovementsPage`**: the form handlers and the
  permission rules of those two pages.
- **`Auth`**: sign-in against the fixed credential table.
- **`Sidebar`**: the role-filtered navigation menu and the landing page.

Four shared modules support the rest:

- `Types` holds the entities of `types.ts`.
- `Text` holds the JavaScript string operations used: `toLowerCase`, `trim`,
  `join`, `split`, single-character `replace`, `String(n)` and `parseInt`.
- `Seqs` holds `find`, `map`, `filter`, a flat map, the stable sort and
  first-occurrence de-duplication.
- `Notifications` also serves the stock-status views.

## How the model is written

The store and the page states are classes, and their fields are the React
state variables. Each handler is a method. Its `ensures` clauses give the
new state as a function of the old one, and list everything it leaves
unchanged. The lemmas then state what the source promises about those
functions.

The model uses these representations:

- **Dates.** Movement dates are day numbers. The current time of the
  notification hook is a millisecond timestamp, so its `Math.ceil` of the day
  difference is written out exactly.
- **Fresh ids.** `MOV${Date.now()}` and `MAT${Date.now()}` are parameters.
- **Parsing.** What `parseInt`/`parseFloat` return is a parameter, with
  `None` standing for `NaN`.
- **Async handlers.** Each async handler is split at its `await` into a start
  step and a finish step. The gateway's reply is a parameter of the finish
  step.

Loops of the source are methods with loop invariants, each proved against a
function:

- the last-movement map and the alert pass of the notification hook;
- the consumption map of the reports page;
- the save loop of the inventory page.

## Model

| member | source | states |
|---|---|---|
| Auth.CheckLoginSpec | contexts/AuthContext.tsx:22-36 | login succeeds iff code and password are the chosen role's pair; the user then has that role and the name `Alice`/`Beto`/`Carlos (role)`; a failure carries `Código ou senha inválidos.` |
| Auth.CredentialsDistinct | contexts/AuthContext.tsx:5-9 | the three codes differ, so a code and password pair signs in under at most one role; display names differ by role |
| Auth.AuthState.constructor | contexts/AuthContext.tsx:20 | no user is signed in at start |
| Auth.AuthState.Login | contexts/AuthContext.tsx:22-36 | on success the user is set to the checked user; on failure the user is unchanged and the error outcome is returned |
| Auth.AuthState.Logout | contexts/AuthContext.tsx:39-41 | the user becomes null |
| Database.ResolveMovementSpec | contexts/DatabaseContext.tsx:37-59 | a movement is recorded iff both names match some entry case-insensitively; it then uses the first matching material and the first matching collaborator, with their stored names, the given kind, quantity and date, and keeps the invoice only for `entrada` |
| Database.RecordMovementSorted | contexts/DatabaseContext.tsx:61 | the movement list grows by exactly the new movement (as a multiset) and is sorted newest first |
| Database.RecordMovementPlacement | contexts/DatabaseContext.tsx:61 | the new movement comes after every strictly newer one and before all others, same date included |
| Database.RecordMovementIntoSorted | contexts/DatabaseContext.tsx:61 | on a list already newest first, recording inserts the movement and keeps every other entry in place |
| Database.AddMovementEffect | contexts/DatabaseContext.tsx:37-67 | an unresolved name changes nothing; otherwise one movement is added and the resolved material's stock moves by +q for `entrada` and −q otherwise, with no lower bound, and materials with another id are unchanged |
| Database.SetStockEffect | contexts/DatabaseContext.tsx:95-97 | `updateMaterialStock` rewrites only `quantidade`, and only for entries with that id; every other field and entry is kept |
| Database.SetStockAt | contexts/DatabaseContext.tsx:95-97 | each entry after `updateMaterialStock` is the old one with the new quantity when its id matches, the old one otherwise |
| Database.SetStockTotal | contexts/DatabaseContext.tsx:95-97 | with unique ids, overwriting one stock changes the total stock by new − old |
| Database.StockDeltaTotal | contexts/DatabaseContext.tsx:63-66 | with unique ids, the signed delta of a movement changes the total stock by exactly that delta |
| Database.ReplaceMovementEffect | contexts/DatabaseContext.tsx:69-71 | `updateMovement` keeps the length and replaces exactly the entries with the same id |
| Database.RemoveMovementEffect | contexts/DatabaseContext.tsx:73-75 | `deleteMovement` leaves no entry with that id, keeps every other movement as often as before, and works run by run |
| Database.RemoveMaterialEffect | contexts/DatabaseContext.tsx:91-93 | `deleteMaterial` leaves no entry with that id and keeps every other material as often as before |
| Database.SetRoleEffect | contexts/DatabaseContext.tsx:99-105 | `updateCollaboratorRole` rewrites only `role`, and only for entries with that id |
| Database.Store.constructor | contexts/DatabaseContext.tsx:29-34 | the store starts from the given seed lists |
| Database.Store.AddMovement | contexts/DatabaseContext.tsx:37-67 | movements and materials become the results of `addMovement` on the old lists; collaborators unchanged |
| Database.Store.UpdateMovement | contexts/DatabaseContext.tsx:69-71 | movements replaced by id; materials (stock) and collaborators unchanged |
| Database.Store.DeleteMovement | contexts/DatabaseContext.tsx:73-75 | movements filtered by id; materials (stock) and collaborators unchanged |
| Database.Store.AddMaterial | contexts/DatabaseContext.tsx:78-85 | one material prepended, its `entradas` equal to its initial quantity; the rest in order |
| Database.Store.UpdateMaterial | contexts/DatabaseContext.tsx:87-89 | materials replaced by id; movements and collaborators unchanged |
| Database.Store.DeleteMaterial | contexts/DatabaseContext.tsx:91-93 | materials filtered by id; movements and collaborators unchanged |
| Database.Store.UpdateMaterialStock | contexts/DatabaseContext.tsx:95-97 | the quantity of the entries with that id set; nothing else changes |
| Database.Store.UpdateCollaboratorRole | contexts/DatabaseContext.tsx:99-105 | the role of the entries with that id set; nothing else changes |
| Chat.StartErrorDistinguishes | contexts/ChatContext.tsx:54-59 | the API-key hint and the connection hint differ, so two start errors are the same message iff their causes agree on mentioning `API key` |
| Chat.ConfirmationInvoiceClause | contexts/ChatContext.tsx:72-76 | the question ends in `?` and names the invoice iff the type is `entrada` and an invoice number is present |
| Chat.ValidationAgreesWithStore | contexts/ChatContext.tsx:119-132 | an action passes validation iff it is `registerStockMovement` and `addMovement` would record its movement |
| Chat.ValidationIgnoresQuantity | contexts/ChatContext.tsx:119-132 | validation never depends on the quantity: zero and negative quantities pass like any other |
| Chat.ResponseMessagesSpec | contexts/ChatContext.tsx:65-84 | a reply without function calls adds exactly one AI message, non-empty; a reply with one adds the question only for `registerStockMovement` |
| Chat.ChatSession.constructor | contexts/ChatContext.tsx:33-38 | empty conversation, not loading, nothing pending, no error, not initialised |
| Chat.ChatSession.InitializeChat | contexts/ChatContext.tsx:44-63 | does nothing once initialised; otherwise shows the greeting, or clears the messages and sets the start error |
| Chat.ChatSession.ProcessResponse | contexts/ChatContext.tsx:65-84 | a function call becomes the pending action with prompt `''`; the messages grow by exactly the reply's messages |
| Chat.ChatSession.SendStart | contexts/ChatContext.tsx:86-108 | blank input or a send while loading changes nothing; otherwise the user message is appended first; without a session the error is set and no call is made; a pending action does not block it |
| Chat.ChatSession.SendFinish | contexts/ChatContext.tsx:92-100 | shows the reply or `Erro: …`, then stops loading |
| Chat.ChatSession.ApplyPending | contexts/ChatContext.tsx:113-145 | a failing validation appends one `Falha na execução: …` message, clears the action and leaves the store untouched; a passing one applies `addMovement` to the arguments dated today |
| Chat.ChatSession.ConfirmStart | contexts/ChatContext.tsx:110-136 | no-op without a pending action or a session; otherwise validates and records as above, without looking at `isLoading` |
| Chat.ChatSession.ConfirmFinish | contexts/ChatContext.tsx:137-146 | shows the reply or the failure; always ends with no pending action and not loading; the recorded movement stands |
| Chat.ChatSession.ConfirmAction | contexts/ChatContext.tsx:110-147 | with an action pending, a session and nothing in flight: a failing validation appends `Falha na execução: …` and leaves the store as it was; a passing one sets materials and movements to the results of `addMovement` and appends the reply's messages or the failure text; either way it ends with no pending action and not loading. Otherwise nothing changes |
| Chat.ChatSession.CancelAction | contexts/ChatContext.tsx:149-152 | appends exactly `Ação cancelada.` and clears the pending action; store untouched |
| Chat.ChatSession.ResetChat | contexts/ChatContext.tsx:154-160 | messages, pending action, loading, error, initialisation and session are cleared |
| Chat.ProposalScenario | contexts/ChatContext.tsx:65-108 | after initialising, sending and receiving a function-call reply, the proposed action is pending and nothing is loading |
| Chat.ConfirmSingleEntry | contexts/ChatContext.tsx:119-132 | a proposal naming the only material and collaborator passes validation and is recorded, moving the stock by its delta |
| Chat.DoubleConfirmScenario | contexts/ChatContext.tsx:110-146 | two presses of Confirm during the first finalising call record the proposal twice and move the stock twice |
| Chat.ChatSession.ConfirmStartGuarded | contexts/ChatContext.tsx:110-136 | as `ConfirmStart`, but also a no-op while a request is in flight |
| Chat.GuardedConfirmScenario | contexts/ChatContext.tsx:110-146 | with the guarded start the second press is refused: one movement, one stock change |
| ChatPage.EscapeIsEach | pages/ChatPage.tsx:47-50 | the three chained replacements equal escaping every character to its entity at once |
| ChatPage.UnescapeEach | pages/ChatPage.tsx:47-50 | the entities read back to the original text |
| ChatPage.EscapeEachCounts | pages/ChatPage.tsx:47-50 | the per-character escape leaves no `<` or `>` and one `&` per `&`, `<` and `>` of the input |
| ChatPage.EscapeSpec | pages/ChatPage.tsx:47-50 | the escaped text holds no `<` or `>`, one `&` per special character, is unchanged when it has none, and reads back to the input |
| ChatPage.BoldCloseFirst | pages/ChatPage.tsx:53 | the lazy search for the closing `**` finds the first `**` on the line, crossing no `**` and no line terminator, and finds nothing iff the line from its start holds no `**` |
| ChatPage.BoldPlain | pages/ChatPage.tsx:53 | text with no `**` is left alone by the bold step |
| ChatPage.BoldCloseAt | pages/ChatPage.tsx:53 | in `**x**…`, where no `*` of x can pair with a following `*` and x has no line break, the closing match is the `**` right after x |
| ChatPage.BoldAt | pages/ChatPage.tsx:53 | at a match, the bold step emits `<strong>x</strong>` and continues after the closing `**` |
| ChatPage.BoldSpec | pages/ChatPage.tsx:53 | `**x**`, where x holds no line break and nothing in x can close the span (single `*`s allowed, as in `**2*3**`), becomes `<strong>x</strong>` and the scan goes on after it; text with no `**` is unchanged |
| ChatPage.ParenCloseFirst | pages/ChatPage.tsx:61-64 | the lazy search for `)` finds the first `)` on the line, and nothing iff the line from its start holds none |
| ChatPage.BracketCloseFirst | pages/ChatPage.tsx:61-64 | the lazy search for `](` finds the first `](` on the line, and nothing iff the line from its start holds none |
| ChatPage.BracketAt | pages/ChatPage.tsx:61-64 | in `[t](…`, with no `](` and no line break in t, the `](` search stops at the `](` right after t |
| ChatPage.LinkClose | pages/ChatPage.tsx:61-64 | a link match found by the backtracking search is a `](` followed by a `)` |
| ChatPage.Consumed | pages/ChatPage.tsx:61-64 | each step of the link scan consumes at least one and at most all remaining characters |
| ChatPage.LaterBracketFails | pages/ChatPage.tsx:61-64 | when no `)` follows a `](` on its line, none follows the next `](` either |
| ChatPage.LinkCloseIsTwoScans | pages/ChatPage.tsx:61-64 | the regex's backtracking match equals the first `](` followed by the first `)`, on one line |
| ChatPage.LinksPlain | pages/ChatPage.tsx:61-64 | text without `[` is left alone by the link step |
| ChatPage.LinksSpec | pages/ChatPage.tsx:57-64 | `[t](u)`, with no `](` in t (so `[a]b](c)` links `a]b`), no `)` in u and no line breaks, becomes the anchor to u showing t and the scan goes on after it; text with no `[` is unchanged |
| ChatPage.FormatPlain | pages/ChatPage.tsx:45-67 | text with no `&`, `<`, `>`, no `**` and no `[` is shown as it is |
| ChatPage.FormatBold | pages/ChatPage.tsx:45-67 | formatting `**x**` gives exactly the `strong` element around x, for any x with nothing to escape, no `[`, no line break and no `*` that can close the span |
| ChatPage.FormatLink | pages/ChatPage.tsx:45-67 | formatting `[t](u)` gives exactly the anchor, for t and u with nothing to escape, no `*` and no line break, no `](` in t and no `)` in u |
| ChatPage.FormatMessageSpec | pages/ChatPage.tsx:45-67 | text with nothing to rewrite is unchanged; `**b**` becomes `strong` even when b holds single `*`s; `[t](u)` becomes an anchor even when t holds `]` or `[`, its class depending only on whether the user sent it |
| ChatPage.ChatPageState.constructor | pages/ChatPage.tsx:20 | the text box starts empty |
| ChatPage.ChatPageState.Type | pages/ChatPage.tsx:134 | the text box holds the typed text |
| ChatPage.ChatPageState.HandleSend | pages/ChatPage.tsx:31-38 | white-space-only input is not sent; otherwise the box is cleared and the text is sent |
| ChatPage.ChatPageState.SubmitForm | pages/ChatPage.tsx:130-145 | nothing is sent while loading, while an action is pending, after a chat error or for blank input |
| Dashboard.InventoryStatsSpec | pages/DashboardPage.tsx:13-19 | `totalItens` is the count; negative and zero counters count q<0 and q=0 and sum to at most `totalItens`; with no negative stock the total is not negative |
| Dashboard.TotalStockNonNegative | pages/DashboardPage.tsx:17 | a sum of quantities none of which is negative is not negative |
| Dashboard.StockBarMatchesAlerts | pages/DashboardPage.tsx:96 | red iff a zero-stock alert; yellow below 20 iff a low-stock alert; blue never with either |
| Dashboard.StockBarWidthSpec | pages/DashboardPage.tsx:97 | the width lies in [0, 100], is empty for no stock and full at or above `entradas` |
| Dashboard.Take | pages/DashboardPage.tsx:88 | a slice keeps the first min(n, length) entries |
| Dashboard.RecentMovementsSpec | pages/DashboardPage.tsx:109 | at most 10 movements shown, a prefix; on a newest-first list no hidden one is newer than a shown one |
| Inventory.NewCountSpec | pages/InventoryPage.tsx:15-21 | the stored count is blank iff the input is white space, otherwise the digits of the clamped parse, never negative |
| Inventory.DifferenceSpec | pages/InventoryPage.tsx:66-72 | blank count gives difference 0; otherwise count − stock; an unshadowed row is a discrepancy iff its difference is not 0 |
| Inventory.ReconcileResolves | pages/InventoryPage.tsx:38-44 | confirming leaves no discrepancy against the same counts, and changes only quantities of discrepant materials |
| Inventory.AdjustStep | pages/InventoryPage.tsx:39-41 | one `updateMaterialStock` of the save loop applies one more id's count |
| Inventory.WriteCounts | pages/InventoryPage.tsx:39-41 | the save loop writes each discrepant count as that material's stock; movements and collaborators unchanged |
| Inventory.InventoryPage.constructor | pages/InventoryPage.tsx:10-11 | no counts typed, dialog closed |
| Inventory.InventoryPage.HandleCountChange | pages/InventoryPage.tsx:15-21 | the normalised count is stored under the material id; every stored count stays blank or digits |
| Inventory.InventoryPage.SaveChangesClick | pages/InventoryPage.tsx:32-36 | the dialog opens only when a discrepancy exists |
| Inventory.InventoryPage.ConfirmSave | pages/InventoryPage.tsx:38-46 | stock becomes the reconciled list, counts are cleared, the dialog closes, and the alert count is the number of discrepancies |
| MaterialsPage.StockStatusSpec | pages/MaterialsPage.tsx:165-181 | each status is exactly its own flag (q<0, q=0, 0<q<20, else), and low/negative-or-zero agree with the alerts |
| MaterialsPage.PermissionsSpec | pages/MaterialsPage.tsx:51-52 | edit iff Gerente or Diretor, delete iff Diretor, so delete implies edit |
| MaterialsPage.InputFallbackSpec | pages/MaterialsPage.tsx:81-87 | an unparsable price or quantity becomes 0, an unparsable price makes the form invalid, the empty form is invalid |
| MaterialsPage.EditedMaterialSpec | pages/MaterialsPage.tsx:109-110 | the merged material keeps id and `entradas`; saving replaces exactly the entries with that id |
| MaterialsPage.TextInputSpec | pages/MaterialsPage.tsx:81-103 | typing in a text input sets that field to the typed text and no other, numbers kept; clearing any text field makes the form invalid; the form is valid iff all three texts are non-empty and the price is positive |
| MaterialsPage.MaterialsPageState.constructor | pages/MaterialsPage.tsx:26-43 | initial form, no selection, modals closed |
| MaterialsPage.MaterialsPageState.OpenAddModal | pages/MaterialsPage.tsx:57-61 | no edit selection, initial form, modal open |
| MaterialsPage.MaterialsPageState.OpenEditModal | pages/MaterialsPage.tsx:63-67 | edit selection and form from the material, modal open |
| MaterialsPage.MaterialsPageState.ChangePrice | pages/MaterialsPage.tsx:81-87 | only the price field changes, to the parse or 0 |
| MaterialsPage.MaterialsPageState.ChangeQuantity | pages/MaterialsPage.tsx:81-87 | only the quantity field changes, to the parse or 0 |
| MaterialsPage.MaterialsPageState.ChangeText | pages/MaterialsPage.tsx:81-87 | only the named text field changes, to the typed text; selection and modals unchanged |
| MaterialsPage.MaterialsPageState.OpenDeleteModal | pages/MaterialsPage.tsx:69-72 | delete selection set, delete modal open |
| MaterialsPage.MaterialsPageState.ConfirmDelete | pages/MaterialsPage.tsx:74-79 | no selection: nothing; otherwise delete by id and clear the selection |
| MaterialsPage.MaterialsPageState.CloseModal | pages/MaterialsPage.tsx:234 | only the modal closes |
| MaterialsPage.MaterialsPageState.Submit | pages/MaterialsPage.tsx:103-116 | invalid form: no change; edit mode updates by id; otherwise a new material is added; the modal closes |
| MovementsPage.ListedSpec | pages/MovementsPage.tsx:55 | exactly the movements of the page's type, each as often as stored, in order |
| MovementsPage.PermissionsSpec | pages/MovementsPage.tsx:51-53 | every role adds and edits, only Diretor deletes, yet the delete button (line 169) also shows on `MOV1…` ids to any user |
| MovementsPage.QuantityInputSpec | pages/MovementsPage.tsx:72-77 | unparsable or non-positive quantity leaves the form invalid |
| MovementsPage.EditedMovementSpec | pages/MovementsPage.tsx:85-94 | editing keeps id and type and takes the rest from the form; an unchanged form gives the same movement, a missing invoice becoming `''` |
| MovementsPage.TextInputSpec | pages/MovementsPage.tsx:72-77 | typing in a text field sets that field and no other, quantity and date kept; clearing the material or collaborator makes the form invalid; the invoice never affects validity |
| MovementsPage.MovementsPageState.constructor | pages/MovementsPage.tsx:57-70 | initial form dated today, no selection, modals closed |
| MovementsPage.MovementsPageState.OpenAddModal | pages/MovementsPage.tsx:79-83 | no edit selection, initial form, modal open |
| MovementsPage.MovementsPageState.OpenEditModal | pages/MovementsPage.tsx:85-95 | edit selection and form from the movement, modal open |
| MovementsPage.MovementsPageState.ChangeQuantity | pages/MovementsPage.tsx:72-75 | only the quantity field changes, to the parse or 0 |
| MovementsPage.MovementsPageState.ChangeText | pages/MovementsPage.tsx:72-75 | only the named text field (material, collaborator, invoice) changes, to the typed text; selection and modals unchanged |
| MovementsPage.MovementsPageState.ChangeDate | pages/MovementsPage.tsx:72-75 | only the date changes; a cleared date field is no date |
| MovementsPage.MovementsPageState.OpenDeleteModal | pages/MovementsPage.tsx:97-100 | delete selection set, delete modal open |
| MovementsPage.MovementsPageState.ConfirmDelete | pages/MovementsPage.tsx:102-107 | no selection: nothing; otherwise delete by id (stock untouched) and clear the selection |
| MovementsPage.MovementsPageState.CloseModal | pages/MovementsPage.tsx:109-112 | modal closed and edit selection cleared |
| MovementsPage.MovementsPageState.Submit | pages/MovementsPage.tsx:114-125 | invalid form: no change; edit mode replaces by id without touching stock; otherwise `addMovement` with the page's type |
| Notifications.LatestDateIsMax | hooks/useNotifications.ts:13-19 | a name has a last date iff some movement has exactly that name, and it is the maximum of their dates |
| Notifications.LastMovementMap | hooks/useNotifications.ts:13-19 | the first loop maps each name to the latest date of its movements, and holds no other names |
| Notifications.StaleThreshold | hooks/useNotifications.ts:48-51 | the rounded-up day difference exceeds 90 iff the time difference exceeds 90 whole days |
| Notifications.RuleShapes | hooks/useNotifications.ts:23-59 | each rule raises at most one alert, of its own kind, with id prefix + material id |
| Notifications.ThreeRules | hooks/useNotifications.ts:21-61 | rule results in order give each kind iff its rule fired, no kind twice, all about the material |
| Notifications.StaleRuleSpec | hooks/useNotifications.ts:45-59 | stale iff q>0, a movement has the exact name and the last one lies more than 90 days away |
| Notifications.MaterialAlertsSpec | hooks/useNotifications.ts:21-61 | low iff 0<q<20; zero iff q≤0, never both; stale as above; one per kind; ids `low-`/`zero-`/`stale-` + id; dated now |
| Notifications.NoMovementsNeverStale | hooks/useNotifications.ts:45-46 | a material with no movement of its name never gets a stale alert |
| Notifications.DerivedAlertsDated | hooks/useNotifications.ts:28 | every derived alert carries the same current date |
| Notifications.DerivedAlertsAppend | hooks/useNotifications.ts:21 | alerts follow the material order: deriving over two runs concatenates their alerts |
| Notifications.NotificationsKeepDerivationOrder | hooks/useNotifications.ts:63 | the stable newest-first sort keeps the derivation order, since all dates are equal |
| Notifications.AlertsFor | hooks/useNotifications.ts:21-60 | one loop iteration pushes exactly that material's alerts, reading the last date from the map |
| Notifications.DeriveNotifications | hooks/useNotifications.ts:7-64 | the hook returns the derived alerts sorted newest first |
| Reports.BuildConsumptionMap | pages/ReportsPage.tsx:35-45 | the loop builds the map of the counted movements, in order |
| Reports.AddTallyEffect | pages/ReportsPage.tsx:44 | adding to a collaborator's object appends a new name once and grows that amount and the total by q |
| Reports.RecordNames | pages/ReportsPage.tsx:39-42 | recording appends the collaborator to the map's keys iff new |
| Reports.RecordAmounts | pages/ReportsPage.tsx:39-44 | recording grows exactly that collaborator's amount of that material, and their total |
| Reports.RecordItemsDistinct | pages/ReportsPage.tsx:39-44 | recording never duplicates a material in an object |
| Reports.AggregateNames | pages/ReportsPage.tsx:35-45 | the map's keys are the counted collaborators de-duplicated in first-appearance order |
| Reports.AggregateAmounts | pages/ReportsPage.tsx:35-45 | per collaborator and material the map holds the sum of counted quantities; per collaborator their total |
| Reports.ConsumptionSpec | pages/ReportsPage.tsx:35-47 | one row per collaborator with a `consumo`/`saida` movement, distinct, in first-appearance order |
| Reports.ConsumptionEntrySpec | pages/ReportsPage.tsx:39-49 | each material appears once iff consumed, with the sum of its counted quantities; the row total is the sum of all |
| Reports.TallyTexts | pages/ReportsPage.tsx:50 | one `qtyx name` text per material, in order |
| Reports.ConsumptionRows | pages/ReportsPage.tsx:47-51 | one data row per map entry, in order |
| Reports.ConsumptionReportRows | pages/ReportsPage.tsx:47-56 | each row has one cell per header; its collaborator counted and its total the sum of their counted quantities |
| Reports.QuoteAll | pages/ReportsPage.tsx:107 | each cell wrapped in quotes, in header order |
| Reports.QuoteCount | pages/ReportsPage.tsx:107 | quoting adds exactly two `"` and nothing else: embedded quotes are not doubled |
| Reports.CsvLines | pages/ReportsPage.tsx:105-108 | the header line joined by `,`, then one line per row |
| Reports.RowLines | pages/ReportsPage.tsx:107 | one quoted, comma-joined line per row |
| Reports.RowLineNoNewline | pages/ReportsPage.tsx:107 | a row without line breaks gives a line without line breaks |
| Reports.CsvLinesRoundTrip | pages/ReportsPage.tsx:105-108 | with no line break in any cell, splitting the CSV on `\n` gives back the header line and one line per row |
| Reports.ExportFileNameSpec | pages/ReportsPage.tsx:117 | the file name has no space, no capital before `.csv`, and ends in `.csv` |
| Reports.ExportSpec | pages/ReportsPage.tsx:101-117 | no report: nothing; otherwise the file name and the content, which splits back into its lines |
| Seqs.FirstIndex | contexts/DatabaseContext.tsx:39-40 | `find` returns the first index whose element passes, and None iff none passes |
| Seqs.MapWhere | contexts/DatabaseContext.tsx:70 | mapping by id keeps the length and rewrites exactly the matching entries |
| Seqs.Filter | contexts/DatabaseContext.tsx:74 | `filter` keeps only passing elements, in order |
| Seqs.FilterMultiset | contexts/DatabaseContext.tsx:74 | `filter` keeps each passing element as often as before and drops the others |
| Seqs.SortDescCorrect | contexts/DatabaseContext.tsx:61 | the sort returns a permutation sorted by descending key |
| Seqs.SortDescSortedFixpoint | hooks/useNotifications.ts:63 | the stable sort leaves a sorted list exactly as it is |
| Seqs.InsertDescPlacement | contexts/DatabaseContext.tsx:61 | a stable insertion puts the element after every strictly greater key and before the rest |
| Seqs.DedupeSpec | pages/ReportsPage.tsx:47 | first-occurrence de-duplication is distinct, has the same elements and keeps first-appearance order |
| Seqs.FilterRange | components/layout/Sidebar.tsx:67 | filtering by a test that holds exactly on a run of positions gives that run |
| Sidebar.IndexOf | App.tsx:19 | every page of the union has an entry in the table |
| Sidebar.TableAt | components/layout/Sidebar.tsx:43-57 | Operador is listed on exactly the 4th to 7th entries, Diretor on all, Gerente wherever Operador is |
| Sidebar.EachPageOnce | components/layout/Sidebar.tsx:43-57 | every page appears exactly once in the table |
| Sidebar.CanSeeAt | components/layout/Sidebar.tsx:67 | a role sees a page iff it is listed on that page's one entry |
| Sidebar.VisibilitySpec | components/layout/Sidebar.tsx:43-57 | Diretor sees every page; Operador exactly entries, exits, consumption and inventory; Operador ⊆ Gerente ⊆ Diretor |
| Sidebar.OperadorMenu | components/layout/Sidebar.tsx:67 | an Operador's menu is exactly those four pages, in that order |
| Sidebar.DiretorMenu | components/layout/Sidebar.tsx:67 | a Diretor's menu is the whole table, in order |
| Sidebar.VisiblePagesSpec | components/layout/Sidebar.tsx:67 | no user: empty menu; Operador and Diretor menus as above |
| Sidebar.LandingPageVisible | App.tsx:25-33 | each role lands on a page its own menu offers |
| Sidebar.HighlightSpec | components/layout/Sidebar.tsx:30-34 | exactly one entry is highlighted: the active page's |
| Text.ToLower | contexts/DatabaseContext.tsx:39 | lower-casing keeps the length and maps each character |
| Text.ToLowerNoUpper | pages/ReportsPage.tsx:117 | lower-cased text has no capital, and lower-casing twice changes nothing |
| Text.TrimStart | contexts/ChatContext.tsx:104 | the kept suffix starts with a non-space and only spaces were dropped |
| Text.TrimEnd | contexts/ChatContext.tsx:104 | the kept prefix ends with a non-space and only spaces were dropped |
| Text.TrimEmptyIffBlank | contexts/ChatContext.tsx:104 | `trim()` is empty iff every character is white space |
| Text.TrimIsEmpty | pages/ChatPage.tsx:33 | the send handlers' `!input.trim()` test holds exactly on blank input |
| Text.SplitJoin | pages/ReportsPage.tsx:105-108 | splitting a join on a character no part holds gives the parts back |
| Text.JoinSeparatorCount | pages/ReportsPage.tsx:105-108 | joining n parts free of the separator yields n − 1 separators |
| Text.NatToString | pages/InventoryPage.tsx:16 | `String(n)` is a non-empty run of digits |
| Text.ParseNatToString | pages/InventoryPage.tsx:16-28 | `parseInt(String(n), 10)` is n |

## Left out

- Floating-point money and percentages are not modelled: the stock-value and ABC-curve reports (pages/ReportsPage.tsx:18-94), the dashboard's financial summary and latest-month logic (pages/DashboardPage.tsx:21-58), and currency formatting. `valorUnitario` is an exact `real`, only compared with 0.
- `Date` parsing, `toISOString` and `Date.now()` are replaced by day numbers, a millisecond `today` and id parameters. Id collisions are not modelled.
- A movement whose date is the empty string is skipped by the stale rule (hooks/useNotifications.ts:46). Dates are day numbers here, so that case cannot arise.
- An alert's ISO date string is the `today` timestamp itself. The sort by date therefore compares equal timestamps.
- `parseInt` and `parseFloat` on arbitrary text are not modelled. The handlers take the parsed value as an optional number. `parseInt` is modelled only on digit strings, the only strings the inventory page stores.
- MaterialsPage.MaterialsPageState.ChangeQuantity: takes the quantity as an integer, so a fractional `parseFloat` result is not represented.
- Chat.MovementFromArgs: the proposed quantity is a JSON number (services/geminiService.ts:37), unchecked before it reaches `addMovement` (contexts/ChatContext.tsx:128). The model takes it as an integer, so a fractional proposal and the fractional stock it would leave are not represented.
- Text.NatToString: writes `String(n)` as plain decimal digits. From 1e21 on, JavaScript writes an exponent (`1e+21`), and above 2^53 a number is no longer exact. Quantities are assumed to be integers below 2^53, and counts below 1e21.
- Text.ParseNatToString: holds for the same range as `Text.NatToString`; the model does not capture rounding above 2^53.
- Inventory.NewCountSpec: the stored count is `String` of the clamped parse, so the same range assumption applies.
- Chat.ConfirmationInvoiceClause: the quantity in the question (contexts/ChatContext.tsx:72) is printed as plain digits, under the same assumption.
- Reports.TallyTexts: prints quantities as plain digits, under the same assumption as `Text.NatToString`.
- Chat.ChatSession.ConfirmAction: built on the corrected start `ConfirmStartGuarded`, so it also refuses while a request is in flight. contexts/ChatContext.tsx:110-147 never checks `isLoading`. The as-written start is `Chat.ChatSession.ConfirmStart`, and the two agree whenever nothing is in flight.
- Text.ToLower: maps only ASCII and Latin-1 capitals. Case folding of other scripts is not represented, so names compared case-insensitively are assumed to stay within those ranges.
- The language-model gateway is not modelled. `contexts/ChatContext.tsx:3` imports `startChat`, `sendMessage` and `sendFunctionResult`, which `services/geminiService.ts` does not export. Each reply, and the outcome of opening a session, is therefore an input. services/geminiService.ts and netlify/functions/gemini.ts are not part of this model.
- Chat.ChatSession.ResetChat: only clears state. The immediate re-initialisation depends on React's closure and effect timing; callers model it as a separate `InitializeChat`.
- React scheduling is not modelled. Interleavings are modelled only at the `await` points of the chat handlers.
- DOM effects are not modelled: scrolling, the Blob download (pages/ReportsPage.tsx:110-120), `alert`, and the 500 ms login delay. The login promise's rejection is the `Rejected` outcome.
- The photo upload and the assistant's supplier-suggestion handlers of the materials page (pages/MaterialsPage.tsx:89-101, 118-144) are not modelled. They are a browser file read and a gateway call.
- Partners and invoices are held by the store but changed by none of its operations, so they are not modelled. The same goes for collaborator coordinates.
- `Object.entries` key order of the inventory counts is not modelled. The discrepancies form a set, and each is written once.
- Reports.BuildConsumptionMap: each collaborator's per-material amounts are a plain object (pages/ReportsPage.tsx:40, 48-50), modelled as entries in insertion order. A JavaScript object lists integer-like keys first, in numeric order, so a material named `10` would come before earlier names. Material names are assumed not to look like array indices.
- Reports.BuildConsumptionMap: `currentData[mov.material] || 0` (pages/ReportsPage.tsx:43) reads inherited properties too. A material named `constructor` or `toString` would start from a function, not 0. Material names are assumed not to be names of `Object.prototype` members.
- The HTML safety of the formatter is claimed only for `<` and `>`. Quotes are not escaped, so a link URL can leave the `href` attribute (pages/ChatPage.tsx:61-64). The model keeps this behaviour and proves nothing more.
- Regex matching is modelled only for the two patterns used. A Dafny `char` is a Unicode scalar value, while a JavaScript string is a sequence of UTF-16 code units. The patterns only look at `*`, `[`, `]`, `(`, `)` and the line terminators `\n`, `\r`, U+2028 and U+2029, all single code units, and no half of a surrogate pair equals one of them. So matches start and end at the same characters in both views, and the text between them is the same.
- Presentation-only pages and components are not modelled: login, header, tables, charts, partners, invoices, revenue, collaborators and access management.

## Findings

| source | as written | input that shows it | evidently intended | confidence | as-written member | corrected member |
|---|---|---|---|---|---|---|
| contexts/ChatContext.tsx:110-146 | `confirmAction` never checks `isLoading`. `pendingAction` is cleared only in `finally`, after the awaited finalising call. The Confirm button (pages/ChatPage.tsx:105-110) stays visible and enabled meanwhile. | The assistant proposes an inflow of 5 units of a material at stock 0. The user presses Confirm twice before the first finalising call returns. | One confirmation records the movement once. A second press while the first is in flight is ignored. | high (not executed) | Chat.DoubleConfirmScenario | Chat.ChatSession.ConfirmStartGuarded, Chat.GuardedConfirmScenario |

With the code as written, the same proposal is recorded twice and the stock
ends at 10 instead of 5. The corrected start also refuses while `isLoading`
holds. `ConfirmAction`, the handler run without interleaving, uses the
corrected start.
