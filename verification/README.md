# Expense tracker: a verified model

This project models a personal income and expense tracker. A user registers and logs in, which yields a bearer token. With that token, the user records transactions of two types, `expense` and `income`. Each transaction has an amount, a category, a date and notes.

The model covers the following parts:

- **Backend transaction routes.** List, get, create, update, delete, date range and summary. Every access is scoped to the authenticated owner.
- **Transaction schema.** Its field constraints, the trimming setter on the category, and the defaults.
- **Account routes.** Register and login.
- **Bearer-token middleware.**
- **Client session storage.**
- **Three client views.**
  - The add/edit form: validation, dispatch, prefill and single-field change.
  - The transactions list: type filter, local delete and form handling.
  - The dashboard: the five most recent transactions, pie slices, slice colours and fetch state.

Modules follow the source files:

- `ExpenseSchema` (`expense_schema.dfy`) models the schema.
- `Ledger` (`ledger.dfy`) holds the pure queries and the summary fold of the transaction routes.
- `ExpenseRoutes.ExpenseStore` (`expense_routes.dfy`) is the in-memory collection whose methods are the state-changing handlers.
- `AuthRoutes.UserStore` models the account routes.
- `AuthMiddleware` models the token gate and the request it writes to.
- `AuthService.SessionStorage` models the client session.
- `ExpenseForm.FormState`, `ExpenseList.ListView` and `Dashboard.DashboardView` model the three views.
- `Common` holds `Option`, `Reply` (a status code with a value or a message), the transaction `Kind` and an order-keeping `Filter`.

Representation and abstraction choices:

- Amounts and dates are integers: minor currency units and timestamps.
- The current time and fresh ids are parameters.
- A handler's response is a `Reply`.
- The password hash and the token signer are functions fixed when the user store is built. Password comparison is equality of hashes.
- Token verification is a partial function passed to the middleware.
- The outcome of each awaited client request is a parameter of the handler that awaits it.

Three behaviours of the code are easy to miss, and the model follows the code:

- An update accepts an amount of 0. Its guard is `amount && amount <= 0`, and 0 is falsy; only a create rejects 0.
- The two category lists of the form are not disjoint: "Other" is in both (`ExpenseForm.SharedCategories`).
- The category trimming and the 500-character notes limit live only in the schema. A whitespace-only category, an over-long note or an unknown type passes the route's own checks and then fails the save, so the handler answers 500 'Server error', not 400.

## Model

| member | source | states |
|---|---|---|
| Common.ParseKind | backend/src/models/Expense.tsx:40-44 | only 'expense' and 'income' are types, and each reads back as its own name |
| Common.Filter | frontend/src/components/Expenses/ExpenseList.tsx:57-59 | the kept elements are exactly those satisfying the predicate, each as many times as before |
| Common.FilterConcat | frontend/src/components/Expenses/ExpenseList.tsx:57-59 | filtering keeps the original order: a filtered concatenation is the concatenation of the filtered parts |
| Common.FilterAllPass | frontend/src/components/Expenses/ExpenseList.tsx:57-59 | filtering by a predicate every element satisfies keeps the whole sequence |
| ExpenseSchema.LeadingWhitespace | backend/src/models/Expense.tsx:25-29 | counts exactly the white space a string starts with |
| ExpenseSchema.TrailingWhitespace | backend/src/models/Expense.tsx:25-29 | counts exactly the white space a string ends with |
| ExpenseSchema.Trim | backend/src/models/Expense.tsx:25-29 | the trim setter yields the infix left after removing leading and trailing white space, which neither starts nor ends with white space; it is empty exactly when the string is all white space |
| ExpenseSchema.TrimmedIsFixed | backend/src/models/Expense.tsx:25-29 | a string without white space at either end is stored unchanged |
| ExpenseSchema.Failures | backend/src/models/Expense.tsx:14-44 | per path: userId fails when missing; amount when missing or below 0; category when missing or all white space; notes when over 500 characters; type when it is not one of the two values |
| ExpenseSchema.Cast | backend/src/models/Expense.tsx:14-44 | a draft is accepted exactly when no path fails, and otherwise rejected with every failing path. An accepted document conforms, keeps the given fields, trims the category and defaults date to now, notes to '' and type to 'expense' |
| ExpenseSchema.Conforms | backend/src/models/Expense.tsx:20-44 | a stored document's category is non-empty and is its own trim |
| ExpenseSchema.ZeroAmountAccepted | backend/src/models/Expense.tsx:20-24 | `min: 0` admits an amount of 0 |
| Ledger.OwnedBy | backend/src/routes/expense.ts:13 | the owner's documents are exactly the stored documents with that owner, with multiplicity |
| Ledger.OwnedByIgnoresOthers | backend/src/routes/expense.ts:13 | adding a document of another owner leaves the owner's documents unchanged |
| Ledger.FindIndex | backend/src/routes/expense.ts:28-31 | finds the first document matching both id and owner; it finds none exactly when no document matches both |
| Ledger.ForeignIdNotFound | backend/src/routes/expense.ts:91-94 | with unique ids, a document owned by someone else is never found on another owner's behalf |
| Ledger.InsertByDate | backend/src/routes/expense.ts:14 | inserting into a newest-first sequence keeps it newest first and adds exactly that document |
| Ledger.ConsNewest | backend/src/routes/expense.ts:14 | a document no older than the head of a newest-first sequence can be put in front of it |
| Ledger.NotNewerThanHead | backend/src/routes/expense.ts:14 | what is inserted behind the head of a newest-first sequence is no newer than the head |
| Ledger.SortNewestFirst | backend/src/routes/expense.ts:14 | the sort yields dates that never increase, and is a permutation of its input |
| Ledger.CutKeepsNewest | backend/src/routes/expense.ts:14-15 | in a newest-first sequence, whatever lies past a cut is no newer than anything before it |
| Ledger.TakeNewest | backend/src/routes/expense.ts:14-15 | taking the first n of a sorted arrangement keeps the newest n of the owner's documents |
| Ledger.ListFor | backend/src/routes/expense.ts:11-23 | the list holds min(100, number of the owner's documents) of the owner's own documents, newest first; no document of theirs that is left out is newer than a listed one |
| Ledger.RangeFor | backend/src/routes/expense.ts:146-164 | the range holds exactly the owner's documents with start <= date <= end, each as often as stored, newest first, without a cap |
| Ledger.RangeIgnoresOthers | backend/src/routes/expense.ts:150-152 | another owner's document never enters the range |
| Ledger.AddTo | backend/src/routes/expense.ts:181-187 | one reduce step adds the amount to its category's entry, or appends it; names stay distinct and the totals grow by the amount |
| Ledger.GroupByCategory | backend/src/routes/expense.ts:181-187 | byCategory has exactly one entry per category used, holding that category's summed amounts over both types; the entries add up to all amounts |
| Ledger.TotalOf | backend/src/routes/expense.ts:172-178 | the one-pass total of a type equals filtering by that type and then summing the amounts |
| Ledger.Summarize | backend/src/routes/expense.ts:169-194 | total expense and total income are the filter-then-reduce sums over the owner's documents; the rest of its meaning is stated by Ledger.SummaryMeaning |
| Ledger.ConstructorCategoryCounterexample | backend/src/routes/expense.ts:182-185 | as written, a category named "constructor" with amount 500 comes out as text, not 500; the corrected fold gives 500 |
| Ledger.AddToAsWritten | backend/src/routes/expense.ts:181-187 | one step of the reduce as written adds the category to the property names, unless it is `__proto__`, which is dropped |
| Ledger.GroupByCategoryAsWritten | backend/src/routes/expense.ts:181-187 | the reduce as written has a property for every category used except `__proto__` |
| Ledger.AddToAgrees | backend/src/routes/expense.ts:181-187 | on a category that is not an `Object.prototype` member, one reduce step as written agrees with the corrected step |
| Ledger.GroupByCategoryAgrees | backend/src/routes/expense.ts:181-187 | on such categories the whole reduce as written agrees with the corrected fold |
| Ledger.NetIsIncomeMinusExpense | backend/src/routes/expense.ts:172-192 | income minus expense is the signed sum of the amounts |
| Ledger.KindTotalsAddUp | backend/src/routes/expense.ts:172-178 | the two type totals add up to all amounts, and the two type counts to the number of documents |
| Ledger.SummaryMeaning | backend/src/routes/expense.ts:167-200 | the summary covers all of the owner's documents, without the 100 cap. The balance is their signed sum and the count is their number. byCategory is distinct, covers exactly the owner's categories with each category's sum, and adds up to the two totals |
| Ledger.OthersInvisible | backend/src/routes/expense.ts:13-15 | another owner's document changes neither the owner's list nor their summary |
| Ledger.OthersLeaveListAlone | backend/src/routes/expense.ts:13-15 | another owner's document does not change the owner's list |
| Ledger.OthersLeaveSummaryAlone | backend/src/routes/expense.ts:169-194 | another owner's document does not change the owner's summary |
| ExpenseRoutes.CreateCheck | backend/src/routes/expense.ts:53-59 | a missing or zero amount, or a missing or empty category, gives 'Amount and category are required'; otherwise a negative amount gives 'Amount must be greater than 0'; only positive amounts with a category pass |
| ExpenseRoutes.CreateDraft | backend/src/routes/expense.ts:62-69 | the draft is owned by the caller; once the route's own checks pass, only the category, notes and type paths can still fail the schema |
| ExpenseRoutes.Patched | backend/src/routes/expense.ts:106-110 | the patched draft keeps the owner; a body that supplies nothing saves a stored document unchanged |
| ExpenseRoutes.PatchChangesOnlySupplied | backend/src/routes/expense.ts:106-110 | a saved update keeps id and owner. It writes amount and notes when supplied, category, date and type when truthy, and keeps every other field |
| ExpenseRoutes.ValidPatchSaves | backend/src/routes/expense.ts:106-112 | an update whose supplied values satisfy the schema is saved |
| ExpenseRoutes.RemoveAt | backend/src/routes/expense.ts:128-131 | removing one document removes exactly the documents with its id and keeps ids unique |
| ExpenseRoutes.ReplaceKeepsIdsUnique | backend/src/routes/expense.ts:106-112 | saving a document under its own id keeps ids unique |
| ExpenseRoutes.AppendKeepsIdsUnique | backend/src/routes/expense.ts:62-71 | saving a new document under an id nobody holds keeps ids unique |
| ExpenseRoutes.AppendKeepsConforming | backend/src/routes/expense.ts:62-71 | saving a document that passed validation keeps every stored document valid |
| ExpenseRoutes.ReplaceKeepsConforming | backend/src/routes/expense.ts:106-112 | replacing a document by one that passed validation keeps every stored document valid |
| ExpenseRoutes.CreatedDocument | backend/src/routes/expense.ts:62-71 | a document built from a body that passed validation is owned by the caller and carries the supplied amount, the trimmed category and the defaults for the absent fields |
| ExpenseRoutes.ExpenseStore.List | backend/src/routes/expense.ts:11-23 | GET / answers the owner's capped newest-first list |
| ExpenseRoutes.ExpenseStore.Get | backend/src/routes/expense.ts:26-42 | GET /:id answers 200 with a stored document exactly when one matches both id and owner, else 404 'Expense not found' |
| ExpenseRoutes.ExpenseStore.Create | backend/src/routes/expense.ts:45-79 | the route's checks give 400 and store nothing. A failed save gives 500 and stores nothing. Otherwise exactly one document is appended, owned by the caller whatever the body says, with the defaults filled in; the answer is 201 with that document; ids stay unique and every document conforms |
| ExpenseRoutes.ExpenseStore.Update | backend/src/routes/expense.ts:82-120 | ownership is checked first (404). A supplied negative amount then gives 400. Otherwise the patched document is validated: rejected gives 500, accepted replaces that one document. Every failure changes nothing |
| ExpenseRoutes.ExpenseStore.Delete | backend/src/routes/expense.ts:123-143 | removes exactly the one document matching id and owner and keeps all others; when none matches, 404 with no change, so a second delete answers 404 |
| ExpenseRoutes.ExpenseStore.Range | backend/src/routes/expense.ts:146-164 | GET /range answers the owner's documents in the window, newest first |
| ExpenseRoutes.ExpenseStore.Summary | backend/src/routes/expense.ts:167-200 | GET /stats/summary answers the summary of all of the owner's documents, with `byCategory` built by the corrected fold |
| AuthRoutes.FindByEmail | backend/src/routes/auth.ts:24 | finds the first user with the email, and none exactly when no user has it |
| AuthRoutes.UserStore.Register | backend/src/routes/auth.ts:9-54 | an empty field gives 400 'All fields are required', checked before the email; a taken email gives 400 'User already exists'; a failed save gives 500. Failures store nothing. Success appends one user holding the hash of the password and answers 201; emails and ids stay unique |
| AuthRoutes.UserStore.Login | backend/src/routes/auth.ts:57-90 | an empty field gives 400 'Email and password required'. Unknown email and wrong password give the same 400 'Invalid credentials'. Success answers a token signed for the user's id, with the user's name. The store is only read |
| AuthRoutes.RegisterTwice | backend/src/routes/auth.ts:24-40 | once an email has registered, registering it again is refused with 'User already exists' |
| AuthMiddleware.IndexFrom | backend/src/middleware/auth.tsx:16 | the first occurrence of the pattern at or after a position, or none when there is none |
| AuthMiddleware.IndexOf | backend/src/middleware/auth.tsx:16 | the first occurrence of the pattern in the string, or none exactly when it never occurs |
| AuthMiddleware.ReplaceFirst | backend/src/middleware/auth.tsx:16 | without an occurrence the string is unchanged; otherwise only the first occurrence is replaced and the rest is kept |
| AuthMiddleware.ExtractToken | backend/src/middleware/auth.tsx:16 | a token exists exactly when the header does |
| AuthMiddleware.BearerTokenExtracted | backend/src/middleware/auth.tsx:16 | the header 'Bearer t' yields exactly t |
| AuthMiddleware.RawHeaderIsToken | backend/src/middleware/auth.tsx:16 | a header with no 'Bearer ' in it is passed on whole |
| AuthMiddleware.Gate | backend/src/middleware/auth.tsx:14-35 | a missing header, or one that leaves an empty token, is refused with 401 'No token, authorization denied'. A token that does not verify is refused with 401 'Token is not valid'. A request is admitted exactly when its token is non-empty and verifies, and admission carries the id the token verifies to; this holds for a raw token as well as for 'Bearer <t>' |
| AuthMiddleware.BearerAdmitted | backend/src/middleware/auth.tsx:16-31 | 'Bearer t' for a verifying t admits the request as t's user |
| AuthMiddleware.EmptyBearerRefused | backend/src/middleware/auth.tsx:16-21 | no header, and the header 'Bearer ' alone, are both refused as having no token |
| AuthMiddleware.Authenticate | backend/src/middleware/auth.tsx:9-36 | an admitted request gets the user id and exactly one call to next, and no response. A refused one gets its 401 response, no user id and no call |
| AuthMiddleware.Request.constructor | backend/src/middleware/auth.tsx:9-13 | a fresh request carries its Authorization header, no user id, no response and no call to next |
| AuthService.UserOf | frontend/src/services/authService.ts:24-26 | the stored user name, or none when there is none |
| AuthService.Stored | frontend/src/services/authService.ts:12-15 | a login reply with a token adds exactly the 'token' and 'username' keys; one without a token adds none |
| AuthService.LoginSignsIn | frontend/src/services/authService.ts:12-15 | after a reply with a token the client is signed in as the reply's user, holding that token |
| AuthService.TokenlessReplyStoresNothing | frontend/src/services/authService.ts:12 | a reply without a token leaves the storage untouched |
| AuthService.LogoutSignsOut | frontend/src/services/authService.ts:19-22 | after logout the client is signed out with no user, and a second logout changes nothing |
| AuthService.LoginKeepsOtherKeys | frontend/src/services/authService.ts:12-15 | login touches only the token and username keys |
| AuthService.SessionStorage.Login | frontend/src/services/authService.ts:10-17 | stores the session from the reply and returns the reply unchanged |
| AuthService.SessionStorage.Logout | frontend/src/services/authService.ts:19-22 | removes both session keys and nothing else |
| AuthService.SessionStorage.CurrentUser | frontend/src/services/authService.ts:24-26 | answers the stored user name, or null when none is stored |
| AuthService.SessionStorage.IsAuthenticated | frontend/src/services/authService.ts:28-30 | true exactly when a non-empty token is stored |
| ExpenseForm.ApplyChange | frontend/src/components/Expenses/ExpenseForm.tsx:56-61 | a change replaces only the input it names |
| ExpenseForm.ChangesCompose | frontend/src/components/Expenses/ExpenseForm.tsx:56-61 | changes to different inputs commute, and the later of two changes to one input wins |
| ExpenseForm.DatePart | frontend/src/components/Expenses/ExpenseForm.tsx:15 | the longest prefix without 'T': followed by 'T' or by the end of the string |
| ExpenseForm.DatePartOfTimestamp | frontend/src/components/Expenses/ExpenseForm.tsx:49 | a day followed by 'T' and a time is cut back to the day |
| ExpenseForm.DatePartIdempotent | frontend/src/components/Expenses/ExpenseForm.tsx:49 | cutting twice is cutting once |
| ExpenseForm.CategoryOptions | frontend/src/components/Expenses/ExpenseForm.tsx:23-42 | the expense list for 'expense', the income list for 'income' |
| ExpenseForm.SharedCategories | frontend/src/components/Expenses/ExpenseForm.tsx:23-42 | "Other" is the one category offered for both types |
| ExpenseForm.OptionsDistinct | frontend/src/components/Expenses/ExpenseForm.tsx:153-155 | no list repeats a name, so the option keys are unique |
| ExpenseForm.OptionsAreStorable | frontend/src/components/Expenses/ExpenseForm.tsx:153 | every offered category is non-empty and already trimmed |
| ExpenseForm.ExpenseOptionTrimmed | frontend/src/components/Expenses/ExpenseForm.tsx:23-33 | every expense category is non-empty and neither starts nor ends with white space |
| ExpenseForm.IncomeOptionTrimmed | frontend/src/components/Expenses/ExpenseForm.tsx:35-42 | every income category is non-empty and neither starts nor ends with white space |
| ExpenseForm.Validate | frontend/src/components/Expenses/ExpenseForm.tsx:69-79 | amount <= 0 gives 'Amount must be greater than 0'; otherwise an empty category gives 'Please select a category'; only a positive amount with a category passes |
| ExpenseForm.ClientCheckMatchesRoute | frontend/src/components/Expenses/ExpenseForm.tsx:69-79 | the form's checks pass exactly when the create route's presence and sign checks pass |
| ExpenseForm.FailureText | frontend/src/components/Expenses/ExpenseForm.tsx:95 | the server's message when there is a non-empty one, otherwise 'Failed to save expense'; never an empty error |
| ExpenseForm.CallFor | frontend/src/components/Expenses/ExpenseForm.tsx:81-91 | an update with the edited transaction's id when editing, a create otherwise, sending the given data |
| ExpenseForm.FormState.constructor | frontend/src/components/Expenses/ExpenseForm.tsx:12-20 | amount 0, no category, today's date, no notes, type 'expense', not loading, no error |
| ExpenseForm.FormState.Prefill | frontend/src/components/Expenses/ExpenseForm.tsx:44-54 | when editing, amount, category, notes and type are copied and the date is cut to the day; otherwise nothing changes |
| ExpenseForm.FormState.HandleChange | frontend/src/components/Expenses/ExpenseForm.tsx:56-61 | only the named input of the form data changes |
| ExpenseForm.FormState.SelectType | frontend/src/components/Expenses/ExpenseForm.tsx:112-125 | the type changes and the form data stays |
| ExpenseForm.FormState.HandleSubmit | frontend/src/components/Expenses/ExpenseForm.tsx:63-99 | a failed check sets its message and calls nothing. Otherwise the form data with the type is sent, to update when editing and to create otherwise. A save alerts and closes; a failure shows the server's message or 'Failed to save expense'. Loading ends false on every path |
| ExpenseList.Visible | frontend/src/components/Expenses/ExpenseList.tsx:57-59 | 'all' returns the list unchanged; a type keeps exactly the items of that type, with multiplicity |
| ExpenseList.VisibleKeepsOrder | frontend/src/components/Expenses/ExpenseList.tsx:57-59 | the filtered items keep their list order |
| ExpenseList.KindViewsPartition | frontend/src/components/Expenses/ExpenseList.tsx:57-59 | the 'expense' and 'income' views together hold every item exactly once |
| ExpenseList.WithoutId | frontend/src/components/Expenses/ExpenseList.tsx:38 | drops exactly the items with the id; a list without that id is unchanged |
| ExpenseList.WithoutIdKeepsOrder | frontend/src/components/Expenses/ExpenseList.tsx:38 | the remaining items keep their order |
| ExpenseList.ListView.constructor | frontend/src/components/Expenses/ExpenseList.tsx:9-13 | nothing listed, loading, no form, filter 'all' |
| ExpenseList.ListView.FetchExpenses | frontend/src/components/Expenses/ExpenseList.tsx:19-29 | the list is replaced on success and kept on failure; loading ends false |
| ExpenseList.ListView.HandleDelete | frontend/src/components/Expenses/ExpenseList.tsx:31-44 | a declined confirmation calls nothing and changes nothing. A successful delete drops the id from the list, order kept. A failed one keeps the list; each answers its alert |
| ExpenseList.ListView.HandleEdit | frontend/src/components/Expenses/ExpenseList.tsx:46-49 | the form opens on the chosen transaction |
| ExpenseList.ListView.OpenForm | frontend/src/components/Expenses/ExpenseList.tsx:76-81 | the form opens and nothing else changes |
| ExpenseList.ListView.HandleFormClose | frontend/src/components/Expenses/ExpenseList.tsx:51-55 | the form closes, the edited transaction is cleared and the list is refetched |
| ExpenseList.ListView.SetFilter | frontend/src/components/Expenses/ExpenseList.tsx:86-103 | only the filter changes |
| Dashboard.Recent | frontend/src/components/Dashboard/Dashboard.tsx:56 | the first min(5, n) fetched transactions, in order |
| Dashboard.RecentAreNewest | frontend/src/components/Dashboard/Dashboard.tsx:55-56 | fed from the list route, the recent transactions are the owner's, newest first, and none of the owner's left out is newer |
| Dashboard.PrefixOfNewest | frontend/src/components/Dashboard/Dashboard.tsx:56 | a prefix of a newest-first list is newest first and nothing after it is newer |
| Dashboard.Slices | frontend/src/components/Dashboard/Dashboard.tsx:69-72 | one slice per entry, in entry order, with the entry's name and value |
| Dashboard.CategoryData | frontend/src/components/Dashboard/Dashboard.tsx:69-72 | no summary gives no slices; otherwise one slice per byCategory entry with its value |
| Dashboard.CategoryDataAsWritten | frontend/src/components/Dashboard/Dashboard.tsx:69-72 | as written, rendering throws exactly when a message body is stored as the summary; a summary body draws the same chart as the corrected state, and no body draws none |
| Dashboard.NameOfEntry | backend/src/routes/expense.ts:181-187 | every entry's name is one of the accumulator's names |
| Dashboard.EntryOfName | backend/src/routes/expense.ts:181-187 | every name of the accumulator belongs to an entry |
| Dashboard.DistinctEntries | backend/src/routes/expense.ts:181-187 | in a distinct accumulator each entry is the one a lookup reads, and no later entry shares its name |
| Dashboard.ChartMatchesLedger | frontend/src/components/Dashboard/Dashboard.tsx:69-72 | the owner's chart has one slice per category they used, none twice, each valued at that category's sum. It is empty, so 'No expense data available' shows, exactly when they have no transactions |
| Dashboard.SlicesNamed | frontend/src/components/Dashboard/Dashboard.tsx:69-72 | the slices are named by exactly the accumulator's entry names |
| Dashboard.SlicesOfDistinct | frontend/src/components/Dashboard/Dashboard.tsx:69-72 | from a distinct accumulator no two slices share a name and each slice is valued at its name's total |
| Dashboard.SlicesOfAccumulator | frontend/src/components/Dashboard/Dashboard.tsx:69-72 | from an accumulator that totals a set of transactions, the slices name their categories once each, carry their sums, and are empty exactly when there are no transactions |
| Dashboard.SliceColour | frontend/src/components/Dashboard/Dashboard.tsx:153 | every slice's colour is taken from the palette |
| Dashboard.ColoursCycle | frontend/src/components/Dashboard/Dashboard.tsx:153 | the palette repeats every six slices and neighbouring slices differ |
| Dashboard.ColoursDistinct | frontend/src/components/Dashboard/Dashboard.tsx:35 | no colour appears twice in the palette |
| Dashboard.AmountSign | frontend/src/components/Dashboard/Dashboard.tsx:180 | '+' for income, '-' for expense |
| Dashboard.SummaryOf | frontend/src/components/Dashboard/Dashboard.tsx:51-52 | only a summary body becomes the summary state |
| Dashboard.RejectedTokenCounterexample | frontend/src/components/Dashboard/Dashboard.tsx:46-72 | as written, a 'Token is not valid' body stored as the summary makes the chart derivation throw; kept as no summary, the chart is empty |
| Dashboard.SummaryBodiesAgree | frontend/src/components/Dashboard/Dashboard.tsx:69-72 | on summary bodies the state as written and the corrected state give the same chart |
| Dashboard.DashboardView.constructor | frontend/src/components/Dashboard/Dashboard.tsx:29-31 | no summary, no recent transactions, loading, not redirected |
| Dashboard.DashboardView.BeginFetch | frontend/src/components/Dashboard/Dashboard.tsx:43 | loading is on while the requests are out |
| Dashboard.DashboardView.CompleteFetch | frontend/src/components/Dashboard/Dashboard.tsx:41-66 | stores the summary and the recent five. A list failing with 401 redirects to login. Loading ends false on every path |

## Left out

- Express plumbing, `console` logging and the `error` field of 500 bodies are left out; a handler's outcome is a status and a value or message.
- MongoDB is left out: the query engine, ObjectId generation and casting, `createdAt`/`updatedAt`, and the index. The collections are sequences, and fresh ids are parameters. A save under an id already in use fails with 500.
- Dates are integer timestamps. `new Date(...)` parsing of request dates, time zones and ISO formatting are left out, and the conversion to an ISO string is a parameter of `ExpenseForm.FormState.Prefill`. A body date that is absent or '' is `None`.
- Sort ties are left out: `Ledger.SortNewestFirst` is a stable insertion sort, while the database may order equal dates differently. Every property of the list speaks only of date order and contents; equalities between lists rely on the stable order.
- JavaScript numbers, floating point and `toLocaleString` are left out; amounts are integers. Coercion of a string amount from the number input is also left out, and an empty amount box is modelled as 0.
- `Ledger.GroupByCategory` keeps categories in first-occurrence order. JavaScript lists integer-like property names first; that ordering is not modelled.
- The string lengths behind `maxlength: 500` count characters, not UTF-16 code units.
- The salt of `bcrypt.hash`, token expiry, the payload shape and the 'secret' fallback for the signing key are left out. A token that verifies is taken to carry an id.
- models/User is not part of this model, so no unique index on email or username is modelled; uniqueness of emails comes from the register route's own check.
- Concurrency is left out. The model is sequential, so the check-then-insert race in register and the find-then-save race in update do not arise.
- Rendering, CSS, the chart library, routing, the navigation bar, the category reference page and the HTTP service wrappers are left out.
- The login route's catch-all 500 'Server error' has no cause inside the model, so it is left out.
- `Dashboard.DashboardView.CompleteFetch`: the model stores only summary bodies (the corrected behaviour). The as-written storage of message bodies is captured by `Dashboard.CategoryDataAsWritten` and the finding below.
- `Ledger.AddToAsWritten`: a category named `__proto__` is modelled as dropped, because assigning a string (any non-object) to it is ignored.
- `Ledger.Summarize` and `ExpenseRoutes.ExpenseStore.Summary`: `byCategory` is built with the corrected fold `Ledger.GroupByCategory`, not the reduce as written. A category named after an `Object.prototype` member ("constructor", "toString", ...) comes out as text in the source and as its sum in the model, and `__proto__` is dropped by the source and kept by the model. Where no category is such a name the two agree (`Ledger.GroupByCategoryAgrees`), and only there do `Ledger.SummaryMeaning` and `Dashboard.ChartMatchesLedger` describe the route as written.
- `ExpenseRoutes.Patched` and `ExpenseRoutes.ExpenseStore.Update`: `None` stands only for a field the body leaves out; JSON `null` is not modelled. The route tests `!== undefined`, so in the source `{"notes": null}` writes null, and `{"amount": null}` slips past the 400 guard and fails the save with 500; the model cannot express either body.

## Findings

| source | as written | input that shows it | evidently intended | confidence | as-written member | corrected member |
|---|---|---|---|---|---|---|
| backend/src/routes/expense.ts:181-187 | `byCategory` is a reduce over a plain `{}`; `if (!acc[exp.category])` reads names such as "constructor" or "toString" from `Object.prototype`, finds a truthy function, skips the reset to 0, and `+=` turns the total into a string of source text | one transaction with category "constructor" and amount 500 | each category maps to the sum of its amounts (an object without a prototype, or a `Map`) | not executed; high | Ledger.ConstructorCategoryCounterexample | Ledger.GroupByCategory |
| frontend/src/components/Dashboard/Dashboard.tsx:46-72 | the summary is fetched with `fetch`, which does not reject on 401 or 500, and its JSON body is stored as the summary unchecked; `Object.entries(summary.byCategory)` then throws on `undefined` while rendering | a stored token that has expired: the summary route answers 401 `{ message: 'Token is not valid' }` | a non-summary response leaves the summary null, so the chart is empty and the 401 path redirects to login | not executed; medium (the throw needs a render while that body is stored) | Dashboard.RejectedTokenCounterexample | Dashboard.SummaryOf |
