# Expense tracker: transaction controllers and client state

A Dafny model of the two parts of the expense tracker that hold logic of their own.

- **The transaction controllers of the API** (`TransactionStore`). The `transactions` and `users` collections are an in-memory `Store` class: a sequence of transaction documents, a map from user id to that user's optional list of transaction ids, and the next id the database hands out. The four controllers are methods on the store:
  - `Create`: the required-field guard, the type check, the owner resolution, the casts and trims of `Transaction.create`, and the push onto the owner's list.
  - `List`: the filter built field by field from owner, type and frequency or a custom range, then the newest-first sort.
  - `Update`: the loop that collects the whitelisted fields into `updates`, the type check, the casts and validators of `findByIdAndUpdate`, and the lookup.
  - `Delete`: the removal, then the edit of the acting user's list.

  Each reply is the HTTP status with the message or the payload. Every method keeps the store invariant: every document satisfies the schema, and ids are distinct.
- **The React component** (`ExpenseApp`). The state (`transactions`, `formData`, `showForm`, `error`) is a record. Each handler is a function from the state to the state it reaches when its request resolves, and another to the state it reaches when the request rejects. The `useMemo` totals are a method whose loop is proved against recursive `Income` and `Expense` sums.

Request bodies and query strings are maps from field names to JSON values (`JsValues`). The JavaScript coercions the controllers rely on are written out: truthiness, `== null`, `Number(v)`, `new Date(v)` with the Date range, `String(v)`, and `trim` with the ECMAScript whitespace set. Two things belong to the JavaScript runtime and are parameters (`Runtime`): turning a string into a number, and turning a string into a time value. Dates are integer millisecond time values. The server clock `now` is a parameter of `List`. Amounts are integers.

The transaction schema file is not part of this model. `SchemaValid` is an assumption about that schema: title, description and category are required and trimmed, the type is an enum of "income" and "expense", and the date is valid. Mongoose cast and validation errors reach the error handler, so the model answers them with `ServerError` (500).

## Model

| member | source | states |
|---|---|---|
| TransactionStore.Store.Create | backend/controllers/transactionController.js:7-59 | a falsy title/description/date/category/type or a null/undefined amount gives 400 "Please fill all fields"; a type other than "income"/"expense" gives 400 "Invalid transaction type"; an owner id of a missing user gives 404 "User not found"; an owner id that is not a string, or a failed cast or validator, gives 500; a failure changes nothing; success is exactly `CreateAccepted` and gives 201 with a fresh id, the record appended, trimmed strings, the numeric amount, the date, the given type and the resolved owner; the id is pushed at the end of the owner's list |
| TransactionStore.ZeroAmountPassesGuard | backend/controllers/transactionController.js:19-21 | an amount of 0 does not trip the required-field guard |
| TransactionStore.PushOnOwnerAppends | backend/controllers/transactionController.js:46-49 | the owner's list gets the new id at its end; every other user is untouched, and so is an owner without a list |
| TransactionStore.GroceriesAccepted | backend/controllers/transactionController.js:19-43 | the grocery body (amount 1200, type "expense") passes every check when its date string parses to a valid date, and keeps its title, category, amount and type |
| TransactionStore.ResolveUser | backend/controllers/transactionController.js:27 | the owner is the authenticated user's id when there is one, otherwise the body's value when it is truthy, otherwise none |
| TransactionStore.Store.List | backend/controllers/transactionController.js:62-93 | it fails (500) exactly when `ListFails`; otherwise it gives 200 with a newest-first sequence that is a permutation of the selected documents, and a document is in it iff it is stored and `Selected` |
| TransactionStore.BuildQuery | backend/controllers/transactionController.js:64-85 | the filter exists iff the database would not throw on it, and a document matches it iff the listing rule `Selected` holds (owner if given; type unless "all"; after now minus a positive number of days; the inclusive custom range when both dates are valid) |
| TransactionStore.ListedAreSelected | backend/controllers/transactionController.js:87-89 | the sorted matches of a query that agrees with the listing rule are newest first, a permutation of the selected documents, and hold exactly the selected documents |
| TransactionStore.UnfilteredListSelectsAll | backend/controllers/transactionController.js:65-85 | with the defaults (type "all", frequency "custom", no dates, no owner) nothing is filtered out and nothing throws |
| TransactionStore.InsertNewestFirst | backend/controllers/transactionController.js:87 | inserting into a newest-first sequence keeps it newest first and adds exactly that one document |
| TransactionStore.SortNewestFirst | backend/controllers/transactionController.js:87 | `sort({ date: -1 })`: the result is newest first and a permutation of its input |
| TransactionStore.IndexOf | backend/controllers/transactionController.js:101 | the lookup by id finds a position holding that id, or none exactly when no document has it |
| TransactionStore.Store.Update | backend/controllers/transactionController.js:119-153 | an invalid non-empty type gives 400; a failed cast or validator gives 500; an unknown id gives 404; a failure changes nothing; success is exactly "none of these" and replaces only the document with that id by `Updated`, leaving the users and the next id alone |
| TransactionStore.CollectUpdates | backend/controllers/transactionController.js:122-132 | `updates` holds exactly the whitelisted keys whose body value is not null or undefined; amount and date are coerced, strings trimmed, other values passed through |
| TransactionStore.Updated | backend/controllers/transactionController.js:138-143 | the updated document satisfies the schema and keeps its id and owner; every field absent or null in the body keeps its value; present string fields are trimmed, the amount and date are coerced |
| TransactionStore.UpdateIdempotent | backend/controllers/transactionController.js:138-143 | applying the same update twice is applying it once, and an empty body changes nothing |
| TransactionStore.TypeCheckAgreesWithBody | backend/controllers/transactionController.js:134-136 | the 400 check on the collected updates is the check stated directly on the body, and so is the type's cast |
| TransactionStore.TextCastAgreesWithBody | backend/controllers/transactionController.js:129-130 | casting a collected string field gives the value the body describes |
| TransactionStore.NumberCastsAgreeWithBody | backend/controllers/transactionController.js:127-128 | casting the collected amount and date gives the values the body describes |
| TransactionStore.Store.Delete | backend/controllers/transactionController.js:96-116 | an unknown id gives 404 and changes nothing; otherwise the document is removed (every other document stays, in order), the id leaves the acting user's list when that user keeps one, and the reply is 200 with the id unless the acting user's id cannot be cast (500, the document already gone) |
| TransactionStore.RemoveIdFromList | backend/controllers/transactionController.js:107 | the filtered list holds exactly the other ids, in order, and is unchanged when the id was not in it |
| TransactionStore.DeletedIdNotListed | backend/controllers/transactionController.js:101-102 | a deleted id is in no later listing |
| TransactionStore.AppendWellFormed | backend/controllers/transactionController.js:35-43 | a valid document with the next id keeps the store invariant, and its id is fresh |
| TransactionStore.ReplaceWellFormed | backend/controllers/transactionController.js:138-142 | a valid replacement with the same id keeps the store invariant |
| TransactionStore.RemoveWellFormed | backend/controllers/transactionController.js:101 | removing the document at a position removes exactly the documents with its id, one of them, and keeps the invariant |
| JsValues.Get | backend/controllers/transactionController.js:9-17 | a destructured field is undefined exactly when the key is absent |
| JsValues.ZeroIsFalsyButPresent | backend/controllers/transactionController.js:19 | 0 is falsy and is not `== null` |
| JsValues.ToNumber | backend/controllers/transactionController.js:37 | `Number(undefined)` is NaN and a number converts to itself |
| JsValues.TimeClip | backend/controllers/transactionController.js:39 | a time value is valid exactly when it lies within the Date range |
| JsValues.ToDate | backend/controllers/transactionController.js:39 | a valid Date lies within the Date range, and a number gives a valid Date exactly when it does |
| JsValues.ToJsString | backend/controllers/transactionController.js:36 | `String` of a string is that string; of any other value, a non-empty string that does not start with whitespace |
| JsValues.Decimal | backend/controllers/transactionController.js:36 | the decimal form of an integer is non-empty and has no whitespace |
| JsValues.TrimStartSpec | backend/controllers/transactionController.js:36 | the leading trim drops a run of whitespace, keeps a suffix, and leaves no leading whitespace |
| JsValues.TrimEndSpec | backend/controllers/transactionController.js:36 | the trailing trim drops a run of whitespace, keeps a prefix, and leaves no trailing whitespace |
| JsValues.TrimIsInfix | backend/controllers/transactionController.js:36 | the trimmed string is the infix of the input between a leading and a trailing run of whitespace |
| JsValues.TrimEndsClean | backend/controllers/transactionController.js:36 | the trimmed string neither starts nor ends with whitespace |
| JsValues.TrimKeepsClean | backend/controllers/transactionController.js:36 | a string that neither starts nor ends with whitespace is unchanged by trim |
| JsValues.TrimIdempotent | backend/controllers/transactionController.js:130 | trimming twice is trimming once |
| JsValues.TrimEmptyIffWhitespace | backend/controllers/transactionController.js:36 | a string trims to "" exactly when it is all whitespace |
| ExpenseApp.InitialState | frontend/src/App.js:12-22 | the component mounts with no transactions, the form hidden, no error and the default form (type "expense", date today), which the submit check rejects |
| ExpenseApp.FetchSucceeded | frontend/src/App.js:25-29 | the list becomes the response data and the error is cleared; the form is untouched |
| ExpenseApp.FetchFailed | frontend/src/App.js:30-37 | the list and the form stay; an error is set, and it is the backend-unreachable message exactly for "Network Error" |
| ExpenseApp.EmptyFetchShowsEmptyState | frontend/src/App.js:294-295 | an empty fetch shows the empty state, and both totals are zero |
| ExpenseApp.InputChanged | frontend/src/App.js:47-53 | only the named field of the form changes, to the new value |
| ExpenseApp.ToggleForm | frontend/src/App.js:181 | `showForm` flips and nothing else changes |
| ExpenseApp.ToggleTwice | frontend/src/App.js:181 | two toggles restore the state |
| ExpenseApp.Submit | frontend/src/App.js:55-72 | an empty title, amount, category, date or description sets "Please fill out all fields." and sends nothing; otherwise the form is sent and the error cleared; the list is unchanged |
| ExpenseApp.AddSucceeded | frontend/src/App.js:73-82 | the created transaction is at the front, the rest follow in order; the form is reset to its defaults (type "expense") and hidden |
| ExpenseApp.AddFailed | frontend/src/App.js:83-90 | the list and the form stay; the error is the network message, otherwise the server's message, otherwise "Failed to add transaction." |
| ExpenseApp.DeleteSucceeded | frontend/src/App.js:95-99 | the form and the toggle stay and the error is cleared |
| ExpenseApp.DeleteRemovesExactly | frontend/src/App.js:99 | after a delete an entry is listed iff it was listed and has another id, as often as before, and the survivors keep their relative order |
| ExpenseApp.DeleteFailed | frontend/src/App.js:100-107 | the list and the form stay; an error is set, and it is the network message exactly for "Network Error" |
| ExpenseApp.AddThenDelete | frontend/src/App.js:73 | deleting the entry just added, whose id was new, gives back the earlier list |
| ExpenseApp.Totals | frontend/src/App.js:112-127 | the income is the sum of "income" amounts, the expense the sum of every other amount, the balance their difference |
| ExpenseApp.IncomeAndExpenseSplitTotal | frontend/src/App.js:115-121 | every amount is counted once, as income or as expense |
| ExpenseApp.SumsOfConcat | frontend/src/App.js:115-121 | the sums over a concatenation are the sums over its parts |
| ExpenseApp.AddShiftsTotals | frontend/src/App.js:73 | an add raises the income or the expense total by the new amount, and leaves the other alone |
| ExpenseApp.DeleteShiftsTotals | frontend/src/App.js:99 | a delete lowers each total by the amounts of the removed entries |
| ExpenseApp.SalaryAndGroceries | frontend/src/App.test.js:92-101 | an income of 50000 and an expense of 1200 give totals 50000 and 1200 and a balance of 48800 |
| Seqs.Filter | frontend/src/App.js:99 | `filter` keeps only elements that pass the test and never grows the sequence |

## Left out

- Network and database I/O: each request is one atomic step on the in-memory store, or on the client state after the request has settled. So the concurrency window between the primary write and the user-list write is not modelled.
- Floating point: amounts are integers, so `parseFloat` and fractional amounts are not modelled, and neither is the currency formatting of `Intl.NumberFormat`.
- Parsing strings into numbers or dates belongs to the JavaScript runtime; it is a parameter (`Runtime`), not a definition.
- Dates: `setDate(getDate() - days)` is taken as `days` times 86400000 ms. Daylight-saving shifts and time zones are not modelled, and neither is the `toLocaleDateString` rendering.
- JSON objects and arrays in request bodies are not modelled (a body value is null, a boolean, a number or a string). MongoDB operator objects passed as values are therefore not modelled either.
- Document ids are natural numbers from a counter. ObjectId syntax and the cast error for a malformed id string are not modelled.
- A non-string owner or acting-user id is modelled as the cast error it raises (500). Other ObjectId cast rules are not modelled.
- TransactionStore.Store.List: the order of documents with equal dates is whatever the insertion sort gives. MongoDB leaves it open, and the contract promises only sortedness and the exact multiset of documents.
- The JSON envelope (`success`, `message`) and the client's reading of `response.data` as the bare array or transaction are not modelled; the two ends are modelled separately.
- The error handler's 500 body text is not modelled (`ServerError` carries none).
- The transaction schema file is not part of this model; `SchemaValid` assumes its rules (required and trimmed strings, the enum type, a valid date).
- The user schema (backend/models/UserSchema.js) declares no `transactions` path, so in this repository `Array.isArray(userDoc.transactions)` never holds and the list edits of create and delete never run. The model keeps each user's list optional (`Option<seq<TxId>>`) and covers both branches: a user without a list (`None`, this repository's case) is left untouched.
- The user schema, the user controller and the server wiring are not part of this model: they are library calls (hashing, tokens, email validation) and middleware with no logic of the repository's own.
- React rendering, CSS and the scheduling of state updates are not modelled. The empty state is the predicate "the list is empty".

Behaviour of the code that the model keeps as written:

- The create guard rejects a falsy title, description, date, category or type, but only a null or undefined amount, so an amount of 0 passes.
- Update answers 400 only for a truthy type that is not "income"/"expense". The other schema failures (an empty trimmed string, NaN, an invalid date, a type that is falsy but not null) are thrown by the database library and become 500.
- Update checks the type, then casts and validates, then looks up the id. A bad type on a missing id therefore gives 400, not 404.
- Delete removes the document before it looks up the acting user. If that lookup throws, the reply is 500 but the document is already gone.
