# Expense tracker: a verified model of its core

This project models the core of a personal expense tracker. It has a
Node/Express backend and a React frontend.

The backend:
- registers users and logs them in;
- issues 30-day session tokens;
- guards the record routes with a bearer-token check;
- stores incomes and expenses per user, adding, listing (newest first) and deleting only a user's own records.

The frontend:
- keeps the fetched lists and one error message in a shared context;
- refuses to send a request without a stored token;
- derives totals, the balance and a three-item recent history;
- draws charts from per-category totals;
- lists every transaction by date;
- submits new incomes through a validating form.

Modules follow the source files:

| module | file | models |
|---|---|---|
| `Tokens` | tokens.dfy | `generateToken` and `jwt.verify` |
| `Accounts` | accounts.dfy | the account controller (`register`, `login`, `getMe`) |
| `Guard` | guard.dfy | the `protect` middleware |
| `Records` | records.dfy | the record collections and their validation |
| `IncomeController`, `ExpenseController` | income.dfy, expense.dfy | the record handlers |
| `GlobalContext` | global_context.dfy | the shared context |
| `Chart`, `Dashboard`, `TransactionsView`, `HistoryView` | chart.dfy, dashboard.dfy, transactions.dfy, history.dfy | the derived views |
| `IncomeForm` | form.dfy | the income form |

The helper modules are `Wrappers` (Option), `Text` (lower-casing and
`split`), `Sorting` (a stable descending sort by key) and `Queries` (`findOne`
and `find` over a sequence).

State that the source updates in place is a class:
- the user store (`Accounts.UserStore`);
- a record collection (`Records.Collection`);
- an incoming request (`Guard.Request`);
- the context (`GlobalContext.GlobalProvider`);
- the form's inputs (`IncomeForm.Form`).

Calls into code outside the core become parameters:
- The signing library bound to the secret is a `Tokens.Signer`. `Tokens.Sound` says what it is trusted to do: a signed token decodes to its claims and contains no space.
- The password check `matchPassword` is a function `matches`.
- The hash that the pre-save hook stores is a parameter `passwordHash`.
- A store failure is a `fault` parameter.
- The current time is `now`, in seconds.
- The browser's number conversion is `numberOf`.
- The date formatter is `dateFormat`.
- The reply of a network request is a `NetReply` parameter.

The duplicate check of `register` asks the store for one user whose email
or username clashes with the new one. When two different users clash, one by
email and one by username, the code does not fix which of them the store
returns, and the message depends on that user's email. The model therefore
takes the lookup's answer as a parameter `found`. `Accounts.LookupAnswer`
constrains it to be some clashing user, or none exactly when nobody clashes.
`Accounts.ClashMessage` states what holds for every such answer, and
`Accounts.PickDecides` shows one input where the two possible answers give
the two different messages.

## Model

| member | source | states |
|---|---|---|
| Text.Lower | backend/controllers/auth.js:28-29 | `toLowerCase`: same length, each letter A-Z becomes its lower-case letter, every other character kept |
| Text.Utf16Length | backend/controllers/auth.js:21 | `length`: between one and two code units per character, one per character when none lies beyond U+FFFF |
| Text.EmojiLength | backend/controllers/auth.js:21 | three emoji are three characters but six UTF-16 code units |
| Text.LowerIdempotent | backend/controllers/auth.js:42-43 | lower-casing a lower-cased name again changes nothing, so stored names stay lower-case |
| Text.Split | backend/middleware/auth.js:10 | `split(' ')`: at least one piece, no piece contains the separator |
| Text.JoinSplit | backend/middleware/auth.js:10 | joining the pieces of `split` with the separator gives back the original string |
| Text.SplitFirst | backend/middleware/auth.js:10 | splitting `p` + separator + `t`, where `p` has no separator, gives `p` followed by the pieces of `t` |
| Queries.First | backend/controllers/auth.js:81 | `findOne`: None exactly when nothing matches; otherwise a match, the first in natural order (the lookups that use it match at most one stored document) |
| Queries.Filter | backend/controllers/income.js:39 | `find`: each item occurs as often as it is stored if it matches, and not at all otherwise |
| Sorting.SortDesc | backend/controllers/income.js:39 | `sort({createdAt: -1})`: a permutation of its input, ordered by key, largest first |
| Tokens.Issue | backend/controllers/auth.js:5-9 | `generateToken`: for a sound signer the token decodes to the subject, the issue time and an expiry 30 days later, and is a non-empty word without spaces |
| Tokens.Verify | backend/middleware/auth.js:24 | `jwt.verify`: a subject exactly when the token decodes and its expiry lies after now, and then the decoded subject |
| Tokens.IssueVerify | backend/controllers/auth.js:5-9 | a token issued at t0 verifies to its subject exactly while now < t0 + 30 days |
| Tokens.ExpiryBoundary | backend/controllers/auth.js:7 | a token is accepted 29 days after issue and refused 31 days after |
| Accounts.FindById | backend/controllers/auth.js:107-110 | a stored user with that id, or None exactly when no user has that id |
| Accounts.Precheck | backend/controllers/auth.js:17-38 | missing field, then a password under 6 UTF-16 code units, then a found user, each a 400; passes exactly when the fields are valid and the lookup found nobody; "Email already registered" exactly when the found user holds the email, "Username already taken" exactly when it does not |
| Accounts.ClashMessage | backend/controllers/auth.js:26-37 | for every answer the store may give: the check passes exactly when nobody clashes; "Email already registered" only when someone holds the email and always when every clashing user does; "Username already taken" only when someone holds the username and always when nobody holds the email |
| Accounts.EmojiPassword | backend/controllers/auth.js:21-23 | a password of three emoji is not refused as too short, since it has six code units |
| Accounts.NewUser | backend/controllers/auth.js:41-45 | the stored user has the given id and hash and the lower-cased username and email (same lengths, no upper-case letter left), and clashes with its own registration |
| Accounts.UserStore.Register | backend/controllers/auth.js:12-69 | precheck refusals, the duplicate-key 400 and a store error's 500 reply and write nothing; otherwise exactly one lower-cased user is appended and a 201 reply carries its profile and a token for its id; store invariants (distinct ids, emails and usernames; lower-case names) kept |
| Accounts.UserStore.Login | backend/controllers/auth.js:72-102 | 400 when a field is missing; then a 500 when the lookup or password check throws; a 200 session exactly when no fault occurs and a stored user has the lower-cased email and the password matches, with that user's profile and token; otherwise 401 "Invalid credentials" |
| Accounts.UserStore.GetMe | backend/controllers/auth.js:105-121 | a 500 when the lookup throws; otherwise 404 exactly when the id is not stored, and the stored user's profile when it is |
| Accounts.PickDecides | backend/controllers/auth.js:26-37 | with users bob/a@x.com and carol/bob@x.com, registering bob/bob@x.com is told "Username already taken" if the store returns bob and "Email already registered" if it returns carol; both are valid lookup answers |
| Accounts.RegisteredCanLogIn | backend/controllers/auth.js:41-92 | after a registration passes its checks and is stored, and the hash matches its password, the login lookup finds exactly the new user and the password matches, so login answers with that user's session |
| Guard.Bearer | backend/middleware/auth.js:9-11 | a token only from a header that starts with "Bearer"; the token is the second space-separated piece, non-empty and without spaces; for a header starting with "Bearer", no token exactly when there are fewer than two pieces or the second is empty |
| Guard.BearerRoundTrip | backend/middleware/auth.js:9-10 | the header "Bearer " + t yields t for every non-empty t without spaces |
| Guard.BareBearer | backend/middleware/auth.js:9-14 | the bare header "Bearer" yields no token |
| Guard.ExtraPieces | backend/middleware/auth.js:9-10 | "Bearer " + t + " " + rest yields t, whatever follows |
| Guard.PrefixOnly | backend/middleware/auth.js:9-10 | "Bearer" + w + " " + t yields t for any word w without spaces: the header need only start with "Bearer" |
| Guard.Authenticate | backend/middleware/auth.js:9-35 | "no token" exactly when no token is found; "token failed" exactly when it does not verify; "user not found" exactly when its subject is not stored; otherwise admits that stored user's profile |
| Guard.IssuedTokenAdmits | backend/middleware/auth.js:21-35 | a token issued for a stored user admits that user before expiry and is refused as "token failed" from expiry on |
| Guard.VanishedSubject | backend/middleware/auth.js:28-31 | an unexpired token whose subject is not stored is refused as "user not found" |
| Guard.RegisteredTokenAdmits | backend/controllers/auth.js:41-53 | the token returned by a successful registration admits the user just stored |
| Guard.Protect | backend/middleware/auth.js:4-44 | on admission `req.user` is set and `next` runs once; on refusal a 401 with the verdict's message and the request unchanged |
| Records.Validate | backend/controllers/income.js:8-16 | "All fields are required!" exactly when a text field is missing; then "Amount must be a positive number!" exactly when the amount is NaN or <= 0; accepted otherwise, with the numeric amount |
| Records.OwnedMember | backend/controllers/income.js:39 | a record is in `find({user})` exactly when it is stored and owned by that user |
| Records.WithoutRemovesOne | backend/controllers/income.js:52-55 | with distinct ids, deleting a stored id removes exactly that record and keeps all others |
| Records.OnlyOnce | backend/controllers/income.js:52-55 | with distinct ids, each stored record occurs exactly once |
| Records.RemoveKeepsDistinct | backend/controllers/expense.js:57 | deleting by id keeps the remaining ids distinct |
| Records.Collection.FindOwned | backend/controllers/expense.js:52 | a stored record with that id and owner, or None exactly when there is none |
| Records.Collection.Save | backend/controllers/income.js:19-28 | appends one record with a fresh id, stamped with the owner and the time; nothing else changes |
| Records.Collection.FindOneAndDelete | backend/controllers/income.js:52-55 | returns the owned record with that id and removes it, or returns None and changes nothing |
| Records.Collection.FindByIdAndDelete | backend/controllers/expense.js:57 | removes the record with that id and nothing else |
| IncomeController.AddIncome | backend/controllers/income.js:3-34 | validation refusals are 400 and store nothing; a save failure is a 500 and stores nothing; otherwise "Income Added" with the one new record, owned by the user, appended |
| IncomeController.GetIncomes | backend/controllers/income.js:36-45 | a 200 listing holding exactly the user's records, newest first; a store error is a 500 |
| IncomeController.DeleteIncome | backend/controllers/income.js:47-66 | 404 with the store unchanged unless the user owns a record with that id; otherwise "Income Deleted" with exactly that record removed |
| ExpenseController.AddExpense | backend/controllers/expense.js:3-34 | as for incomes, with "Expense Added" |
| ExpenseController.GetExpenses | backend/controllers/expense.js:36-45 | a 200 listing holding exactly the user's expenses, newest first; a store error is a 500 |
| ExpenseController.DeleteExpense | backend/controllers/expense.js:47-63 | 404 with the store unchanged unless the user owns an expense with that id; otherwise "Expense Deleted", no record in the reply, exactly that record removed |
| GlobalContext.SumAppend | frontend/src/context/globalContext.js:85-92 | the total of two lists is the sum of their totals |
| GlobalContext.Sum | frontend/src/context/globalContext.js:86-91 | the running total is non-negative when every amount is, and zero when every amount is zero |
| GlobalContext.RequestFor | frontend/src/context/globalContext.js:23-30 | every request carries "Bearer " + token; adds are POSTs carrying their payload, fetches GETs and deletes DELETEs, and only POSTs have a body |
| GlobalContext.Total | frontend/src/context/globalContext.js:85-92 | the `forEach` loop returns the sum of all amounts |
| GlobalContext.Recent | frontend/src/context/globalContext.js:179-186 | at most three items, ordered by `createdAt` newest first, all taken from the two lists; all of them when there are at most three |
| GlobalContext.RecentAreNewest | frontend/src/context/globalContext.js:179-186 | an item left out of the history is no newer than the last item shown, and three items are shown |
| GlobalContext.GlobalProvider.constructor | frontend/src/context/globalContext.js:10-12 | empty income and expense lists, no error (`null` is modelled as "") |
| GlobalContext.GlobalProvider.Send | frontend/src/context/globalContext.js:15-28 | without a stored token nothing is sent and the log-in error is set; with one the operation's request carries "Bearer <token>" |
| GlobalContext.GlobalProvider.Settle | frontend/src/context/globalContext.js:15-164 | a delivered fetch replaces its list and a delivered add or delete asks for its list again; a failure sets the server's message or the fallback, and only adds rethrow |
| GlobalContext.GlobalProvider.TotalIncome | frontend/src/context/globalContext.js:85-92 | the sum of the income amounts |
| GlobalContext.GlobalProvider.TotalExpenses | frontend/src/context/globalContext.js:166-173 | the sum of the expense amounts |
| GlobalContext.GlobalProvider.TotalBalance | frontend/src/context/globalContext.js:175-177 | total income minus total expenses |
| Chart.Amounts | frontend/src/Components/Chart/Chart.js:41-44 | one amount per item, in order |
| Chart.Labels | frontend/src/Components/Chart/Chart.js:33-36 | one formatted date per income, in order |
| Chart.LineSeries | frontend/src/Components/Chart/Chart.js:32-63 | one label and one point per income, one point per expense, in list order |
| Chart.BumpLookup | frontend/src/Components/Chart/Chart.js:67 | the accumulator update adds the amount to key c and leaves every other key's value |
| Chart.BumpKeys | frontend/src/Components/Chart/Chart.js:67 | the keys afterwards are the keys before plus c |
| Chart.BumpDistinct | frontend/src/Components/Chart/Chart.js:67 | distinct keys stay distinct |
| Chart.BumpSum | frontend/src/Components/Chart/Chart.js:67 | the values' total grows by exactly the amount |
| Chart.GroupTotalsCorrect | frontend/src/Components/Chart/Chart.js:66-75 | the category keys are distinct and exactly the categories that occur; each value is the sum of its category's amounts; the values add up to the overall total |
| Chart.TotalsByCategory | frontend/src/Components/Chart/Chart.js:66-75 | the `reduce` loop yields those per-category totals |
| Chart.TickLabel | frontend/src/Components/Chart/Chart.js:229-235 | unchanged off mobile or when at most 8 long; otherwise the first 8 characters followed by "..." |
| Chart.TickLabelIdempotent | frontend/src/Components/Chart/Chart.js:229-235 | shortening a shortened label changes nothing |
| Dashboard.MinOf | frontend/src/Components/Dashboard/Dashboard.js:52 | `Math.min` over the amounts: no larger than any amount and equal to one of them |
| Dashboard.MaxOf | frontend/src/Components/Dashboard/Dashboard.js:55 | `Math.max` over the amounts: no smaller than any amount and equal to one of them |
| Dashboard.DisplayedMin | frontend/src/Components/Dashboard/Dashboard.js:61 | 0 for an empty list; otherwise the smallest amount |
| Dashboard.DisplayedMax | frontend/src/Components/Dashboard/Dashboard.js:64 | 0 for an empty list; otherwise the largest amount |
| Dashboard.MinAtMostMax | frontend/src/Components/Dashboard/Dashboard.js:49-65 | the minimum shown never exceeds the maximum shown |
| Dashboard.BalanceColour | frontend/src/Components/Dashboard/Dashboard.js:41 | red exactly when the balance is negative |
| Dashboard.DashboardFigures | frontend/src/Components/Dashboard/Dashboard.js:26-66 | totals are the sums, balance is their difference, red exactly when expenses exceed income; the four extremes are the displayed minimum and maximum of each list (0 when empty, otherwise a bound every amount respects and one amount attains), each minimum at most its maximum |
| TransactionsView.Merged | frontend/src/Components/Transactions/Transactions.js:15-17 | the incomes and expenses together, a permutation of both lists, ordered by date newest first |
| TransactionsView.Sign | frontend/src/Components/Transactions/Transactions.js:50-61 | '+' exactly for the type "income", '-' otherwise |
| TransactionsView.DeleteAction | frontend/src/Components/Transactions/Transactions.js:83-89 | deletes an income exactly for the type "income", an expense otherwise, always of the row's own id |
| TransactionsView.Rows | frontend/src/Components/Transactions/Transactions.js:47-61 | one row per transaction, in order |
| TransactionsView.View | frontend/src/Components/Transactions/Transactions.js:41-47 | "No transactions found" exactly when both lists are empty; otherwise one row per merged transaction |
| TransactionsView.SignMatchesDelete | frontend/src/Components/Transactions/Transactions.js:83-89 | '+' goes with deleting an income and '-' with deleting an expense, always of the row's own id |
| HistoryView.Shown | frontend/src/History/History.js:34 | the amount shown is never negative and is the amount or 0 |
| HistoryView.Sign | frontend/src/History/History.js:34 | '-' exactly for the type "expense", '+' otherwise |
| HistoryView.Rows | frontend/src/History/History.js:21-34 | one row per history item, in order |
| HistoryView.View | frontend/src/History/History.js:10-40 | "No recent transactions" exactly when both lists are empty; otherwise one to three rows of the recent history, none negative |
| HistoryView.SignsAgree | frontend/src/History/History.js:34 | the history and the transaction list show the same sign exactly for the types "income" and "expense" |
| IncomeForm.SubmitError | frontend/src/Components/Form/Form.js:30-38 | "All fields are required!" exactly when an input is empty; then "Amount must be a positive number!" exactly when the amount is NaN or <= 0; no error otherwise |
| IncomeForm.Form.constructor | frontend/src/Components/Form/Form.js:11-17 | the empty form, dated now |
| IncomeForm.Form.HandleInput | frontend/src/Components/Form/Form.js:21-24 | sets that one input, leaves the others, clears the shared error |
| IncomeForm.Form.PickDate | frontend/src/Components/Form/Form.js:86-88 | sets the date and leaves the other inputs |
| IncomeForm.Form.HandleSubmit | frontend/src/Components/Form/Form.js:26-57 | a failed check sets its message and sends nothing; without a token nothing is sent but the form is cleared; a delivered add clears the form and sends the incomes fetch next; a failed add keeps the inputs and sets the error |

## Left out

- Signing, verifying signatures and the process secret are not modelled. `Tokens.Signer` stands for them and `Tokens.Sound` is what the library is trusted to do. A token signed with another secret is one that `decode` rejects.
- Password hashing (the user model's pre-save hook) and `matchPassword` are parameters. The user model's file is not part of this model.
- Concurrency is not modelled. Two registrations racing past the duplicate check, which ends in the duplicate-key error 11000, appear only as the `fault` parameter of `Accounts.UserStore.Register`.
- Accounts.UserStore.Register: only `User.create` can fail; a failure of the duplicate lookup, which the code also answers with a 500, is not modelled.
- Guard.Authenticate: a failure of `findById` inside the guard, which the code answers with "token failed", is not modelled, and neither is the guard's outer 500.
- Guard.Protect: the same two failures are left out.
- In the record handlers, a malformed id (a cast error, answered with a 500) is not told apart from other store failures: all are the handler's `fault` parameter.
- The branch "Invalid user data" of `register` is left out. `User.create` either returns a user or throws, so that branch cannot be reached.
- `findOne` in `login`, `findById` and the owned-record lookups use `Queries.First`, the first match in natural order. Under the stores' invariants (unique emails, unique ids) at most one document matches, so the choice does not matter there.
- Console logging is left out. It includes a credential leak: when `protect` finds no token it logs every request header (backend/middleware/auth.js lines 15-18). A header that holds a token but fails the case-sensitive `startsWith('Bearer')`, such as `bearer <jwt>`, is therefore written to the log with its token.
- JavaScript number semantics are not modelled. Amounts are exact reals: floating-point rounding of sums, `Infinity`, and `Number` coercions other than NaN-or-a-value are not modelled.
- The form's `parseFloat(amount)` and its `isNaN(amount)` check are both `numberOf`. On arbitrary strings they differ (`Number("0x10")` is 16, `parseFloat("0x10")` is 0). The amount input has type "number" (frontend/src/Components/Form/Form.js lines 73-78), so the browser only hands over decimal number text, on which the two agree; that sanitising is assumed, not modelled.
- Frontend dates and every `createdAt` are integers. The backend keeps the request's `date` as the string it was given and checks only that it is non-empty. Mongoose's cast of that string to a Date, the form's `toISOString` and `new Date(...)` parsing are not modelled. Invalid dates, whose comparisons give NaN, are left out.
- Accounts.Precheck: every body field is assumed to be a string. The code does not check the JSON types. A number password such as `12345` has `length` undefined, `undefined < 6` is false, so the request passes the length check and reaches `User.create`, where the model can only answer 400. A non-string `email` makes `toLowerCase` throw (backend/controllers/auth.js lines 28 and 81), which the code answers with a 500; `Accounts.UserStore.Register` and `Accounts.UserStore.Login` do not model that reply.
- Lower-casing is ASCII only. JavaScript `toLowerCase` also maps non-ASCII letters.
- Chart.TickLabel: counts and cuts characters, while JavaScript's `length` and `substring(0, 8)` count UTF-16 code units. The two agree when the label has no character beyond U+FFFF; otherwise the label may be shortened at a different place, or the cut may split a surrogate pair, which a Dafny string cannot hold.
- Chart.GroupTotalsCorrect: holds for the model's plain key-value accumulator. In JavaScript the accumulator `{}` inherits the members of `Object.prototype`. A category "__proto__" never becomes a key, and categories such as "constructor" or "toString" start from an inherited function instead of 0, giving a string value. The backend accepts such categories, so for them the keys and sums stated here differ from the source's.
- Chart.TotalsByCategory: the same difference for categories named like `Object.prototype` members.
- Object key order is modelled as first-insertion order. JavaScript puts integer-like category keys first and in numeric order; that is not modelled.
- `Sorting.SortDesc` stands for both `Array.prototype.sort` and the store's sort. It is a stable sort on values, not an in-place sort. `Array.prototype.sort` is stable too, so ties keep input order in the frontend's two sorts. The store's sort gives no such guarantee, so the order of backend records with equal `createdAt` is an assumption of the model.
- The network, axios, `localStorage` and `JSON.parse` are not modelled. A reply is a parameter, and a stored user that fails to parse is not modelled.
- Asynchrony is not modelled. The incomes fetch that follows an add is sent but not awaited; `IncomeForm.Form.HandleSubmit` returns that request without settling it.
- Styling, icons, category icon tables, chart options other than the tick callback, and the responsive layout are not modelled. The login and register pages and the other components are not part of this model.
