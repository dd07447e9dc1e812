# ConstructERP core, modelled in Dafny

ConstructERP is a browser ERP for a construction company. It keeps clients, construction
projects (obras), financial transactions, stock, purchase orders and a site diary (diário de
obra). From each user's role it decides which screens that user may open. This project models
the part of it that holds state and makes decisions:

- **Store** (`store.dfy`): the in-memory domain store of `AppContext.tsx`, on the path the
  app takes when no backend is configured.
  - `AppStore` is a class with the signed-in user and six `seq` fields. Its methods are the
    add, update and remove operations and the purchase-order approval.
  - Each method is specified by a pure function over the collections: `RemoveById`,
    `UpdateById`, `Approve`, `UpsertStock`.
  - The properties of those functions are proved as lemmas.
- **Navigation** (`navigation.dfy`): the role gate of `App.tsx`.
  - It covers the constant navigation table, its filter by role and the dispatch from view to
    screen.
  - It also models the layout state: the signed-in user and the current view.
- **Screens**: the decisions inside each screen.
  - `projects.dfy`, `clients.dfy`, `inventory.dfy`, `finance.dfy`, `dashboard.dfy` and
    `daily_logs.dfy` cover form acceptance and record defaults.
  - They also cover list filters, the aggregates of the dashboard, the progress phase, the
    badge predicates and labels, and the digit gates in front of the postcode and company
    lookups.
- **Types** (`types.dfy`): the records and enumerations of `types.ts`.
- **Helpers**: `lists.dfy` holds the array builtins the code is built from (`filter`, `map`
  by predicate, `find`). `strings.dfy` holds `toLowerCase`, `includes`,
  `replace(/\D/g, '')` and `split(sep)[0]`. `forms.dfy` holds JavaScript `||` on optional
  form fields. `wrappers.dfy` holds `Option` and `Outcome`.
- **Scenarios** (`scenarios.dfy`): concrete runs on the seed data of `constants.ts`.

Conventions:
- Money is an integer number of centavos.
- `Date.now()` and `new Date().toISOString()` are parameters. The store takes an
  `Instant(stamp, iso)`. Forms take `stamp` and `now`. The diary form also takes the function
  `iso` that turns a chosen day into a timestamp.
- The record field `type` is called `kind`, because `type` is a Dafny keyword.
- An optional field (`projectId?`, a field of a `Partial<...>` form) is an `Option`. A text
  field counts as present (truthy) when it is `Some` and not empty.
- A form is either creating a record or editing the record with a given id
  (`Forms.Mode`). Submitting it yields `Rejected`, `Add(record)` or `Update(record)`.

## Model

| member | source | states |
|---|---|---|
| Store.AppStore.constructor | src/components/AppContext.tsx:46-54 | the provider starts with no user and the seed collections |
| Store.AppStore.Login | src/components/AppContext.tsx:153-160 | without a backend, login always fails with "Supabase not configured" and changes nothing |
| Store.AppStore.Logout | src/components/AppContext.tsx:162-165 | logout clears the current user and no collection |
| Store.AppStore.AddClient | src/components/AppContext.tsx:178 | the client is appended unchanged; only `clients` changes |
| Store.AppStore.UpdateClient | src/components/AppContext.tsx:189 | `clients` becomes `UpdateById` of the old list; nothing else changes |
| Store.AppStore.RemoveClient | src/components/AppContext.tsx:194 | `clients` becomes `RemoveById` of the old list; nothing else changes |
| Store.AppStore.AddProject | src/components/AppContext.tsx:206 | the project is appended unchanged |
| Store.AppStore.UpdateProject | src/components/AppContext.tsx:218 | `projects` becomes `UpdateById` of the old list |
| Store.AppStore.RemoveProject | src/components/AppContext.tsx:223 | `projects` becomes `RemoveById` of the old list |
| Store.AppStore.AddTransaction | src/components/AppContext.tsx:238 | the transaction is prepended unchanged; projects (and their `spent`) are not touched |
| Store.AppStore.UpdateTransaction | src/components/AppContext.tsx:241-243 | `transactions` becomes `UpdateById` of the old list |
| Store.AppStore.RemoveTransaction | src/components/AppContext.tsx:247 | `transactions` becomes `RemoveById` of the old list; no project's `spent` changes |
| Store.AppStore.AddLog | src/components/AppContext.tsx:257 | the diary entry is prepended unchanged |
| Store.AppStore.UpdateLog | src/components/AppContext.tsx:266 | `logs` becomes `UpdateById` of the old list |
| Store.AppStore.RemoveLog | src/components/AppContext.tsx:271 | `logs` becomes `RemoveById` of the old list |
| Store.AppStore.RequestPurchase | src/components/AppContext.tsx:282 | the order is prepended unchanged |
| Store.AppStore.RemovePurchaseOrder | src/components/AppContext.tsx:287 | `purchaseOrders` becomes `RemoveById` of the old list |
| Store.AppStore.ApprovePurchaseOrder | src/components/AppContext.tsx:290-348 | the three updates in sequence (orders, then transactions, then stock) leave exactly the collections `Approve` gives for the old ones |
| Store.RemoveById | src/components/AppContext.tsx:194 | the result is no longer than the input and keeps no entry with the removed id |
| Store.RemoveKeepsOthers | src/components/AppContext.tsx:247 | an entry survives removal if and only if it was there and has another id |
| Store.RemoveKeepsOrder | src/components/AppContext.tsx:271 | removal keeps the survivors in their original order |
| Store.RemoveUnknownIsNoop | src/components/AppContext.tsx:287 | removing an id no entry carries leaves the list as it was |
| Store.RemoveCount | src/components/AppContext.tsx:223 | removal shortens the list by exactly the number of entries carrying the id |
| Store.UpdateById | src/components/AppContext.tsx:189 | length and order are kept, exactly the entries with the record's id are replaced, and an unknown id changes nothing |
| Store.FindOrder | src/components/AppContext.tsx:291-292 | no order is found if and only if no order has the id; otherwise the first order with that id is found |
| Store.MarkPurchased | src/components/AppContext.tsx:297 | exactly the orders with the id become PURCHASED, each keeping all its other fields |
| Store.Bump | src/components/AppContext.tsx:334 | exactly the stock rows with the id gain the quantity, each keeping all its other fields (`lastUpdated` included) |
| Store.UpsertStock | src/components/AppContext.tsx:331-346 | with no row for (project, item) one row is appended (quantity of the order, minimum 10, unit `un`) after the old rows; otherwise the length is kept and the rows sharing the first match's id gain the order's quantity |
| Store.Approve | src/components/AppContext.tsx:290-348 | clients, projects and logs never change; an unknown id changes nothing; orders become `MarkPurchased`; at most one transaction is put in front of the old ones; stock grows by at most one row |
| Store.AutoTransaction | src/components/AppContext.tsx:299-308 | the automatic expense of an approval; its fields are stated by `Store.ApproveKnownOrder`: `Compra: <item>`, the total estimate, EXPENSE, `Material`, PAID, the order's project, and the day part of the clock as date |
| Store.NewStockRow | src/components/AppContext.tsx:336-344 | the row appended for an item the project does not stock yet: the order's project, item and quantity, minimum 10, unit `un`; `Store.UpsertStock` states when it is appended and `Inventory.NewRowLowStock` when it is flagged low |
| Store.ApproveKnownOrder | src/components/AppContext.tsx:299-309 | for a found order exactly one transaction is prepended: `Compra: <item>`, the order's total estimate, EXPENSE, `Material`, PAID, the order's project; stock is the upsert with that order |
| Store.TotalQuantityAppend | src/components/AppContext.tsx:336-344 | an appended stock row adds its quantity to the total |
| Store.BumpTotal | src/components/AppContext.tsx:334 | bumping an id adds the quantity once per row with that id |
| Store.UniqueKeyCount | src/components/AppContext.tsx:334 | with unique ids exactly one row carries the id of a given row |
| Store.UpsertTotal | src/components/AppContext.tsx:331-346 | with unique stock ids an upsert adds exactly the order's quantity to the total stock |
| Store.UpsertKeepsUniqueIds | src/components/AppContext.tsx:337 | an upsert keeps stock ids unique when the fresh `s-auto-` id is not taken |
| Store.ReapprovalRepeatsEffects | src/components/AppContext.tsx:291-292 | with no status guard, approving the same order twice prepends two expenses of its total estimate and adds its quantity to the stock twice |
| Navigation.VisibleNav | src/App.tsx:19-27 | the role filter keeps table order: ADMIN gets all seven entries, ENGINEER all but finance and clients, FINANCE all but inventory and logs |
| Navigation.EngineerNav | src/App.tsx:36 | the filtered table for ENGINEER, entry by entry |
| Navigation.FinanceNav | src/App.tsx:36 | the filtered table for FINANCE, entry by entry |
| Navigation.VisibleViews | src/App.tsx:20-26 | every role is offered dashboard, projects and settings; ENGINEER is never offered finance or clients; FINANCE is never offered inventory or logs |
| Navigation.RenderContent | src/App.tsx:38-49 | the dispatch never shows the login screen, and an unknown view shows the dashboard |
| Navigation.NavEntriesDispatch | src/App.tsx:39-46 | each of the seven entries leads to its own module |
| Navigation.Render | src/App.tsx:34 | the login screen is shown if and only if nobody is signed in |
| Navigation.StepAsWritten | src/App.tsx:31 | the layout as coded: a sign-in keeps the previous view; `Navigation.ViewLeaksAcrossSessions` shows where that leads |
| Navigation.Step | src/App.tsx:66 | the corrected layout: a sign-in starts on the dashboard, and a click sets the clicked entry's view; `Navigation.StepKeepsGated` proves it keeps every view inside the user's navigation |
| Navigation.ClickView | src/App.tsx:63-66 | for a signed-in user, clicking the i-th visible entry sets the view to exactly that entry's view, which the user's navigation offers; a click with nobody signed in or outside the visible list keeps the view |
| Navigation.ViewLeaksAcrossSessions | src/App.tsx:31 | as written: after an ADMIN opens finance and logs out, an ENGINEER who signs in is shown the finance module |
| Navigation.StepKeepsGated | src/App.tsx:130 | with the view reset at sign-in, every event keeps the current view inside the signed-in user's navigation |
| Navigation.InitialGated | src/App.tsx:31 | the layout starts on the dashboard with nobody signed in |
| Navigation.GatedRendersVisibleModule | src/App.tsx:36-49 | a gated layout shows only the module of one of the user's entries, so ENGINEER never sees finance or clients and FINANCE never inventory or logs |
| Projects.NewProjectForm | src/components/modules/Projects.tsx:28-40 | the blank project form; `Projects.NewFormRejected` and `Projects.NewFormDefaults` state what submitting it gives |
| Projects.EditForm | src/components/modules/Projects.tsx:21-26 | the form filled from a project; `Projects.EditRoundTrip` states that saving it unchanged gives the project back |
| Projects.HandleSubmit | src/components/modules/Projects.tsx:42-64 | submitted if and only if name and client are present; an edit keeps the id and updates, a create gets `p-<stamp>` and adds; name, client, budget, spent and progress are saved as typed, and so are a given address, image, status and non-empty dates; missing address and image become empty, a missing status PLANNING, missing dates `now` |
| Projects.NewFormRejected | src/components/modules/Projects.tsx:28-40 | a blank form cannot be submitted |
| Projects.NewFormDefaults | src/components/modules/Projects.tsx:29-33 | a blank form given a name and a client creates a PLANNING project with progress, spent and budget 0 |
| Projects.EditRoundTrip | src/components/modules/Projects.tsx:21-26 | opening a project for editing and saving it unchanged updates it to itself |
| Projects.PhaseFor | src/components/modules/Projects.tsx:237-240 | progress up to 20 is Fundação, above 20 up to 60 Estrutura, above 60 up to 90 Acabamento, above 90 Entrega (each an if-and-only-if) |
| Projects.PhaseMonotone | src/components/modules/Projects.tsx:237-240 | more progress never gives an earlier phase |
| Projects.SuggestRequest | src/components/modules/Projects.tsx:231-245 | no request is made if and only if a suggestion is already shown; otherwise the request is the phase of the progress with the project's name |
| Projects.StatusLabel | src/components/modules/Projects.tsx:224-229 | each label reads as its own status: Em Andamento, Concluído, Planejamento or Pausado, each if and only if that status |
| Projects.StatusLabelInjective | src/components/modules/Projects.tsx:224-229 | no two statuses share a label |
| Projects.StatusColour | src/components/modules/Projects.tsx:215-222 | the neutral default colour is used if and only if the project is paused |
| Projects.StatusColourInjective | src/components/modules/Projects.tsx:215-222 | no two statuses share a badge colour |
| Projects.BudgetBarColour | src/components/modules/Projects.tsx:327 | the bar is red if and only if spent exceeds budget |
| Clients.NameMatches | src/components/modules/Clients.tsx:114 | the name test of the search, lower-casing both sides; `Clients.NameSearchIgnoresCase` states its case-insensitivity |
| Clients.Matches | src/components/modules/Clients.tsx:113-116 | a client matches when the name test holds or the document contains the term as typed; `Clients.FilteredClientsExact` states that the search shows exactly these clients |
| Clients.FilteredClients | src/components/modules/Clients.tsx:113-116 | every client shown matches the term |
| Clients.FilteredClientsExact | src/components/modules/Clients.tsx:113-116 | a client is shown if and only if it is in the list and matches; the result keeps the list's order |
| Clients.EmptySearchKeepsAll | src/components/modules/Clients.tsx:113-116 | an empty search shows every client |
| Clients.NameSearchIgnoresCase | src/components/modules/Clients.tsx:114 | the name test gives the same answer for a term and its lower-cased form (both directions), so a name match still matches after lower-casing the term |
| Clients.NewClientForm | src/components/modules/Clients.tsx:16-20 | the blank client form; `Clients.NewFormRejected` states that it cannot be submitted |
| Clients.EditForm | src/components/modules/Clients.tsx:22-26 | the form filled from a client; `Clients.EditRoundTrip` states that saving it unchanged gives the client back |
| Clients.HandleSubmit | src/components/modules/Clients.tsx:34-56 | submitted if and only if name and document are present; an edit keeps the id, a create gets `c-<stamp>`; name, document, type, e-mail, phone, address, city and state are saved as typed; a missing type is PJ, missing text becomes empty |
| Clients.NewFormRejected | src/components/modules/Clients.tsx:16-20 | a blank form cannot be submitted |
| Clients.EditRoundTrip | src/components/modules/Clients.tsx:22-26 | opening a client for editing and saving it unchanged updates it to itself |
| Clients.CepQuery | src/components/modules/Clients.tsx:60-64 | a postcode is looked up if and only if the address holds exactly eight digits, and the lookup uses those digits |
| Clients.CnpjQuery | src/components/modules/Clients.tsx:85-88 | a registry number is looked up if and only if the type is PJ and the document holds exactly fourteen digits |
| Clients.PersonNotLookedUp | src/components/modules/Clients.tsx:86 | a private person's document is never looked up |
| Clients.CepMerge | src/components/modules/Clients.tsx:69-75 | an error reply leaves the form alone; otherwise only address, city and state change |
| Clients.CnpjMerge | src/components/modules/Clients.tsx:93-101 | a reply without a company leaves the form alone; otherwise name, address, city and state are replaced, e-mail and phone only where the reply has one, and type and document never change |
| Clients.CnpjMergeKeepsContacts | src/components/modules/Clients.tsx:97-98 | a company found without contacts keeps the e-mail and phone typed in |
| Clients.WhatsAppLink | src/components/modules/Clients.tsx:179-181 | no link without a phone; otherwise `https://wa.me/55` followed by exactly the phone's digits |
| Inventory.RequesterId | src/components/modules/Inventory.tsx:20 | the requester is the current user's id, else `unknown` |
| Inventory.CreateOrder | src/components/modules/Inventory.tsx:14-31 | requested if and only if item and project are present; then a PENDING order `po-<stamp>` whose total is quantity × unit price, and the form resets to quantity 1 and price 0; otherwise the form stays as it is |
| Inventory.RequestThenApprove | src/components/modules/Inventory.tsx:14-31 | a request approved right away books an expense of exactly quantity × unit price for its project and becomes PURCHASED |
| Inventory.LowStock | src/components/modules/Inventory.tsx:72 | a row is low when its quantity is at most its minimum; `Inventory.NewRowLowStock` and `Scenarios.ApproveSeededBricks` apply it |
| Inventory.NewRowLowStock | src/components/modules/Inventory.tsx:72 | a stock row created by an approval is flagged low if and only if at most ten units were bought |
| Inventory.ShowApprove | src/components/modules/Inventory.tsx:135 | the approve button shows for a pending order and an ADMIN or FINANCE user; `Inventory.ApprovalHidesButton` and `Inventory.OnlyAdminApproves` state what follows |
| Inventory.ApprovalHidesButton | src/components/modules/Inventory.tsx:135 | after approval the order's button is never shown again |
| Inventory.OnlyAdminApproves | src/components/modules/Inventory.tsx:135 | the button is offered to FINANCE too, but through a gated layout only an ADMIN ever sees it |
| Inventory.OrderStatusLabel | src/components/modules/Inventory.tsx:131 | the label reads Comprado if and only if the order is PURCHASED, Aprovado if and only if APPROVED, and Pendente if and only if PENDING or REJECTED |
| Finance.FilteredTransactions | src/components/modules/Finance.tsx:12-15 | ALL shows the whole list; a type shows only transactions of that type |
| Finance.FilteredExact | src/components/modules/Finance.tsx:14 | a type filter shows a transaction if and only if it has that type, in the list's order |
| Finance.IncomeExpensePartition | src/components/modules/Finance.tsx:12-15 | the INCOME and EXPENSE views split the list: their sizes and their contents add up to the whole |
| Finance.Save | src/components/modules/Finance.tsx:23-39 | saved if and only if the description is present and the amount is non-zero; then `t-<stamp>`, with the amount typed, PAID, `Geral`, a type defaulting to EXPENSE, the chosen project, and the form resets |
| Finance.BlankFormRejected | src/components/modules/Finance.tsx:49 | a freshly opened form cannot be saved |
| Finance.TxStatusLabel | src/components/modules/Finance.tsx:106 | the label reads Atrasado if and only if the transaction is OVERDUE |
| Finance.TxStatusLabelInjective | src/components/modules/Finance.tsx:106 | no two statuses share a label |
| Dashboard.Income | src/components/modules/Dashboard.tsx:13 | the total of the income amounts, whatever their status; `Dashboard.TotalsCons`, `Dashboard.IncomePlusExpense` and `Dashboard.StatusIgnored` state its value |
| Dashboard.Expense | src/components/modules/Dashboard.tsx:14 | the total of the expense amounts, whatever their status; stated by the same lemmas as `Dashboard.Income` |
| Dashboard.Balance | src/components/modules/Dashboard.tsx:15 | income less expense; `Dashboard.BalanceCons` and `Dashboard.ApprovalLowersBalance` state how it moves |
| Dashboard.TotalsCons | src/components/modules/Dashboard.tsx:13-14 | a transaction adds its amount to income or to expense according to its type |
| Dashboard.IncomePlusExpense | src/components/modules/Dashboard.tsx:13-14 | income plus expense is the total of all amounts |
| Dashboard.BalanceCons | src/components/modules/Dashboard.tsx:15 | a new transaction moves the balance up by income, down by expense |
| Dashboard.ApprovalLowersBalance | src/components/modules/Dashboard.tsx:15 | approving a found order lowers the balance by its total estimate |
| Dashboard.StatusIgnored | src/components/modules/Dashboard.tsx:13-14 | a transaction's status plays no part in the totals |
| Dashboard.FilterCountsPositions | src/components/modules/Dashboard.tsx:19-21 | the length of the status filter equals the number of positions holding that status |
| Dashboard.CountStatus | src/components/modules/Dashboard.tsx:19-21 | a status count is the number of positions in the list holding that status, so never more than the number of projects |
| Dashboard.PieCounts | src/components/modules/Dashboard.tsx:18-22 | the pie has three slices, counting the projects in planning, in progress and completed, in that order |
| Dashboard.ActiveWorks | src/components/modules/Dashboard.tsx:53 | the active-works card is the number of projects in progress, the same figure as the pie's middle slice |
| Dashboard.StatusCountsCover | src/components/modules/Dashboard.tsx:19-21 | the four status counts add up to the number of projects |
| Dashboard.PieCoversUnpaused | src/components/modules/Dashboard.tsx:18-22 | the pie adds up to the number of projects less the paused ones |
| DailyLogs.NewLogForm | src/components/modules/DailyLogs.tsx:33-42 | a new entry's date is today's day: the ISO time cut exactly before its first `T` |
| DailyLogs.EditForm | src/components/modules/DailyLogs.tsx:44-51 | an entry opened for editing shows its date cut exactly before the first `T`, and a date without `T` as it is |
| DailyLogs.AuthorId | src/components/modules/DailyLogs.tsx:59 | the author is the form's, else the current user's id, else `u-unknown` |
| DailyLogs.HandleSubmit | src/components/modules/DailyLogs.tsx:53-73 | submitted if and only if content and project are present; an edit keeps the id, a create gets `l-<stamp>`; a chosen day becomes its timestamp, none gives `now`; missing pictures become the empty list |
| DailyLogs.NewFormRejected | src/components/modules/DailyLogs.tsx:33-42 | a freshly opened form cannot be submitted |
| DailyLogs.EditRoundTrip | src/components/modules/DailyLogs.tsx:44-73 | editing and saving unchanged gives back the entry with its date replaced by the timestamp of its day |
| DailyLogs.WeatherLabel | src/components/modules/DailyLogs.tsx:117 | the label reads Nublado if and only if the weather is CLOUDY |
| DailyLogs.WeatherLabelInjective | src/components/modules/DailyLogs.tsx:117 | no two weathers share a label |
| Forms.Dispatch | src/components/modules/Projects.tsx:59-60 | a submitted form is never rejected at this point, carries the record unchanged, and is an update if and only if the form was editing |
| Lists.Filter | src/components/AppContext.tsx:194 | `filter` keeps only elements passing the predicate and never grows the list |
| Lists.FilterMembers | src/components/modules/Finance.tsx:12-15 | an element is kept if and only if it is in the list and passes |
| Lists.FilterPartition | src/components/modules/Finance.tsx:12-15 | two complementary filters together keep every element exactly once |
| Lists.MapWhere | src/components/AppContext.tsx:189 | the `map` by predicate keeps length and replaces exactly the matching positions |
| Lists.Find | src/components/AppContext.tsx:291 | `find` returns the first element that passes, and nothing if and only if none passes |
| Lists.FirstIndex | src/components/AppContext.tsx:332 | `find` stops at the first element that passes, and finds none if and only if none passes |
| Strings.LowerCase | src/components/modules/Clients.tsx:114 | lower-casing keeps the length and maps every character on its own |
| Strings.ContainsIffOccurs | src/components/modules/Clients.tsx:114-115 | `includes` holds if and only if the term occurs at some position |
| Strings.Digits | src/components/modules/Clients.tsx:63 | only digits remain, and a text of digits alone is kept as it is |
| Strings.DigitsInOrder | src/components/modules/Clients.tsx:87 | the result is a subsequence of the input, and every digit character of the input occurs in it |
| Strings.DigitsCount | src/components/modules/Clients.tsx:63 | each digit occurs in the result exactly as often as in the input, and no other character occurs |
| Strings.BeforeFirst | src/components/modules/DailyLogs.tsx:47 | the result is a prefix holding no separator, followed in the input by the separator or by nothing |
| Scenarios.ApproveSeededBricks | src/constants.ts:176-187 | approving the seeded brick order books its recorded 1.600 (not 2000 × 800) and raises the brick row from 400 to 2400, above its minimum |
| Scenarios.RequestAndApproveCement | src/components/modules/Inventory.tsx:14-31 | 100 bags of Cimento at 32,50 for Edifício Horizon: an expense of 3.250 PAID, a new stock row of 100, the project's `spent` unchanged |
| Scenarios.ApproveCementOrder | src/components/AppContext.tsx:331-346 | an item the project did not stock gets a new row after the seeded ones |
| Scenarios.OfflineSession | src/components/AppContext.tsx:153-154 | without a backend every login fails and only the login screen is shown |

## Findings

| source | as written | input that shows it | evidently intended | confidence | as-written member | corrected member |
|---|---|---|---|---|---|---|
| src/App.tsx:31 | `currentView` is state of `MainLayout`, which stays mounted when `logout` clears the user (line 34 only swaps what it renders), so the next session starts on the previous session's view | an ADMIN opens Financeiro and logs out; an ENGINEER logs in and `renderContent` shows `FinanceModule`, which the ENGINEER's navigation does not offer | every session starts on the dashboard, so the view is always one of the user's own entries | high, not executed | Navigation.ViewLeaksAcrossSessions | Navigation.StepKeepsGated |

With the backend unconfigured, nobody ever signs in (`Scenarios.OfflineSession`), so the
finding concerns the online configuration. The corrected `Navigation.Step` is the layout the
rest of the model relies on: `Inventory.OnlyAdminApproves` assumes a gated layout.

## Behaviour as coded

- Approval has no status guard. Approving an order that is already PURCHASED books a second
  expense and adds to the stock again (`Store.ReapprovalRepeatsEffects`).
- Without a backend, no operation changes a project's `spent`. Neither adding, approving nor
  removing a transaction touches `projects` (the `modifies` frames of `Store.AppStore` and
  `Store.Approve`).
- A stock bump does not refresh `lastUpdated` (`Store.Bump`).
- When several stock rows share the first match's id, all of them are bumped.
- Nothing keeps transaction amounts non-negative. A saved amount need only be non-zero
  (`Finance.Save`).
- A seeded order's total need not equal quantity × unit price
  (`Scenarios.ApproveSeededBricks`). Only a newly requested order has it
  (`Inventory.CreateOrder`).

## Left out

- The online branches of every store operation are not modelled: the authentication
  listener, the profile fetch, the bulk load, remote insert/update/delete, and the online
  stock lookup in approval (`AppContext.tsx:59-151, 311-329`). They are network I/O through
  a library that is not part of this model.
- The `spent` increment of the online `addTransaction` (`AppContext.tsx:235-237`) is not
  modelled. It exists only on the online path.
- The online add that stores a record under the id returned by the backend
  (`AppContext.tsx:177, 205, 233, 256, 281`) is not modelled. It depends on the backend's
  reply.
- `approvePurchaseOrder` looks up the order in the state captured when the handler was
  created (`AppContext.tsx:291`). The model reads the current list: the stale React closure is
  a rendering artefact.
- The AI service (`geminiService.ts`) and the ViaCEP / BrasilAPI `fetch` calls are not
  modelled. They are foreign calls. Their replies enter the model as parameters
  (`Clients.CepReply`, `Clients.CnpjReply`) and the request as a value
  (`Projects.SuggestRequest`).
- `Auth.tsx`, `Settings.tsx`, JSX, styling, charts, `window.confirm` and the loading flags
  are not modelled. They are presentation only.
- Currency and date formatting (`Intl.NumberFormat`, `toLocaleDateString`) are not modelled.
  Clock readings are parameters. `new Date(day).toISOString()` is the `iso` parameter of
  `DailyLogs.HandleSubmit`.
- Floating-point money is modelled as integer centavos, and the product quantity × unit price
  in `Inventory.CreateOrder` is exact. The percentage width of the budget bar
  (`Projects.tsx:328`) is not modelled: it needs floating point, including its division by a
  zero budget.
- `Number(...)` of a numeric form field is modelled as the number the field holds. Every way
  of opening these forms sets the numeric fields, so `NaN` is not modelled.
- Quantities and `progress` are integers here, while the source's type is `number`. The
  quantity input (`Inventory.tsx:181`) is `type="number"` with the default step of 1, so whole
  numbers are what the form produces; fractional quantities are not modelled.
- Strings.LowerCase: lower-cases ASCII letters only, not the full Unicode `toLowerCase` of
  the client search.
- Dashboard.SumAmounts: sums from the right instead of with a left `reduce`; integer addition
  gives the same total.
- Navigation.VisibleNav: an entry's icon is not modelled.
- Navigation.RenderContent: view names are a datatype. The seven known names have one
  constructor each, and `Other(name)` stands for a name outside them. The datatype does not
  forbid `Other("finance")`; that value renders the dashboard, whereas the string `finance`
  renders the finance screen, so `Other` is only faithful for unknown names.
- The header's page title lookup and the mobile menu's open flag (`App.tsx`) are not
  modelled. They are presentation only.
- The seed data of `constants.ts` is used only as fixtures in `scenarios.dfy`. The database
  trigger in that file runs in the database and is not modelled.
