# bill-book invoicing core in Dafny

bill-book is a GST invoicing web application. A signed-in user keeps factories and customers, and issues invoices for a factory: a header row plus line items. This project models the backend's server actions and the pure logic of two client components:

- **Invoice numbering** (`getNextInvoiceNumber`): finds the factory's latest invoice by creation time and proposes its successor number. The trailing digit run is incremented and zero-padded to its old width; `"001"` is proposed when there is no invoice, and `-1` is appended when the number has no trailing digits.
- **Invoice persistence** (`createInvoice`, `updateInvoice`): a sequence of separate SQL statements against `invoices` and `invoice_items`, without a transaction.
- **Per-user tables** (`createFactory`, `getFactories`, `getFactory`, `deleteFactory`, `createCustomer`, `getCustomers`): inserts are stamped with the caller's id, reads and deletes filter on the owner, and the schema's `onDelete: cascade` references apply.
- **Dashboard** (`getDashboardStats`): revenue, invoice count and six monthly buckets for one factory.
- **Invoice form** (`invoice-form.tsx`): initial state, the invoice number prefill, `calculateTotal`, the item-list edits and the create/update choice of `handleSubmit`.
- **Factory list** (`factory-list.tsx`): the case-insensitive search filter and the delete button.

How the model is built:

- **Database.** An object of class `Store.Database` stands in for the SQLite database. It holds one `seq` per table, and its invariant `Valid()` is the integrity the schema declares: unique primary keys, and foreign keys that name existing rows.
- **Statements.** Each method of the class is one SQL statement. It applies completely, or it fails and changes nothing. A statement fails when the storage layer raises, or when it would break a constraint.
- **Actions.** Each server action is specified by a pure function `…Spec` from the old tables to an `Outcome` (new tables plus the returned result). An imperative method performs the action statement by statement on a `Database`. Its `ensures` ties its effect and result to that function, and lemmas state the properties of the function.
- **Failures.** A `Store.Fault` names the statement, counted from 0, on which the storage layer fails. This is how the model captures partial writes.
- **Inputs.** The session is an `Option<UserId>`. Random UUIDs and the clock are parameters. A drawn UUID that collides with an existing key makes its insert fail, as a primary-key violation would.

Where the documented behaviour and the code differ, the model follows the code:

- Both invoice actions store the client-supplied totals as given and do not recompute them from the items. `InvoiceForm.CreatedFromFormIsConsistent` shows that totals submitted by the form are consistent with the stored items anyway.
- `updateInvoice` does not check that the invoice belongs to the caller (`InvoiceActions.UpdateIgnoresOwner`).
- `getNextInvoiceNumber` and `getDashboardStats` do not filter invoices by user.
- The factory delete dialog (components/factory-list.tsx:94) says customers are deleted along with the factory. In the schema customers belong to a user, not to a factory, so a factory delete keeps them (`FactoryActions.DeleteFactoryEffect`).

## Model

| member | source | states |
|---|---|---|
| Schema.Ids | db/schema.ts:5-67 | the key column of a table lists one id per row, in table order |
| Schema.InvoiceRow | db/schema.ts:37-58 | an inserted invoice gets gstRate 0, gstAmount 0 and status PAID when those are omitted, and createdAt = updatedAt = the insert time; the given id, factory, owner, subTotal and totalAmount are stored as given |
| Schema.ItemsOf | db/schema.ts:60-67 | the items of an invoice are exactly the item rows whose invoiceId names it |
| Store.ApplySet | actions/invoice.ts:91-104 | an update never changes an invoice's id, factoryId, userId or createdAt |
| Store.UpdateWhereId | actions/invoice.ts:91-104 | `update … where id = ?` rewrites exactly the rows with that id, and keeps the table's length, order and keys |
| Store.InsertFactoryKeepsIntegrity | db/schema.ts:16-24 | inserting a factory with a fresh id and an existing owner keeps keys unique and references resolved |
| Store.InsertCustomerKeepsIntegrity | db/schema.ts:26-35 | the same for a customer |
| Store.InsertInvoiceKeepsIntegrity | db/schema.ts:37-58 | the same for an invoice, whose factory and owner must exist |
| Store.InsertItemsKeepsIntegrity | db/schema.ts:60-67 | a multi-row item insert with distinct fresh ids referencing existing invoices keeps integrity |
| Store.UpdateKeepsIntegrity | actions/invoice.ts:91-104 | the header update keeps integrity |
| Store.DeleteItemsKeepsIntegrity | actions/invoice.ts:107 | deleting an invoice's items keeps integrity |
| Store.Database.constructor | db/schema.ts:5-14 | a database holding the given users and no other rows is valid |
| Store.Database.InsertFactory | actions/factory.ts:19-24 | the insert succeeds exactly when the store does not raise and the row is acceptable; the factory is then appended, otherwise nothing changes; validity is preserved |
| Store.Database.InsertCustomer | actions/customer.ts:19-25 | the same for a customer |
| Store.Database.InsertInvoice | actions/invoice.ts:44-59 | the same for an invoice header |
| Store.Database.InsertItems | actions/invoice.ts:61-71 | all item rows are appended, or none |
| Store.Database.UpdateInvoice | actions/invoice.ts:91-104 | the header update applies unless the store raises; validity is preserved |
| Store.Database.DeleteItemsOf | actions/invoice.ts:107 | removes exactly the items of that invoice unless the store raises |
| Store.Database.DeleteOwnedFactory | actions/factory.ts:70 | the owner-filtered delete with its cascades, unless the store raises; validity is preserved |
| Cascade.DeleteFactoriesWhere | db/schema.ts:32 | a factory delete never touches users or customers, because customers reference users only |
| Cascade.DeleteFactoriesKeepsIntegrity | db/schema.ts:37-67 | after a factory delete with the invoice and item cascades, keys are unique and every reference resolves |
| Cascade.DeleteOwnedFactory | actions/factory.ts:70 | the owner-filtered factory delete with its cascades leaves users and customers as they were, only removes rows, and leaves no factory matching both id and owner |
| Cascade.DeleteOwnedFactoryFactories | actions/factory.ts:70 | exactly the factories matching both id and owner are removed; every other factory stays |
| Cascade.DeleteOwnedFactoryInvoices | db/schema.ts:41 | invoices of other factories survive and nothing new appears |
| Cascade.DeleteOwnedFactoryItems | db/schema.ts:66 | items of surviving invoices survive and nothing new appears |
| Cascade.DeleteOwnedFactoryRemovesInvoices | db/schema.ts:41 | deleting a factory removes all of its invoices and every item of those invoices |
| Cascade.DeleteNotOwnedIsNoOp | actions/factory.ts:70 | deleting an id the caller does not own changes nothing |
| Cascade.DeleteUser | db/schema.ts:21-66 | a user delete with its cascades only removes rows, and leaves no user with that id and no customer of that user |
| Cascade.DeleteUserKeepsIntegrity | db/schema.ts:16-42 | a user delete with all cascades keeps integrity |
| Cascade.DeleteUserRemovesOwned | db/schema.ts:21-42 | after a user delete, nothing owned by that user remains, and other users' factories and customers stay |
| Decimal.ParseDigits | actions/invoice-number.ts:29 | `parseInt(s, 10)` of a digit string reads it most significant digit first, and is 0 exactly when every digit is "0" |
| Decimal.NatToDecimal | actions/invoice-number.ts:31 | `toString()` of a natural number is a non-empty digit string with no leading zero unless it is "0" |
| Decimal.PadStart | actions/invoice-number.ts:31 | `padStart` gives max(width, length) characters: the original string at the end, padding before it, never truncated |
| Decimal.TrailingDigitsStart | actions/invoice-number.ts:25 | `(\d+)$` matches the maximal run of ASCII digits at the end of the string |
| Decimal.TrailingDigitsStartUnique | actions/invoice-number.ts:25 | the maximal trailing run is uniquely determined |
| Decimal.ParseDigitsConcat | actions/invoice-number.ts:29 | the value of a concatenation of digit strings is the first value shifted by the width of the second, plus the second value |
| Decimal.ParseNatToDecimal | actions/invoice-number.ts:29-31 | `parseInt` of `toString()` gives the number back |
| Decimal.ParseZeroPadded | actions/invoice-number.ts:31 | zero padding does not change the value |
| InvoiceNumber.Prefix | actions/invoice-number.ts:32 | the `substring` before the matched run is a prefix of the number that does not end in a digit, and only digits follow it |
| InvoiceNumber.Run | actions/invoice-number.ts:25 | the matched run, when present, is a non-empty digit string |
| InvoiceNumber.Counter | actions/invoice-number.ts:25-29 | a number carries a counter exactly when its last character is an ASCII digit |
| InvoiceNumber.NextInvoiceNo | actions/invoice-number.ts:23-37 | the proposed successor is never empty |
| InvoiceNumber.SplitOfDigitsSuffix | actions/invoice-number.ts:32 | a prefix not ending in a digit followed by a digit run splits back into exactly that prefix and run |
| InvoiceNumber.PaddedSuffix | actions/invoice-number.ts:28-33 | a prefix followed by a padded value splits back into that prefix and a run worth that value, of width max(width, digit count) |
| InvoiceNumber.NextOfNumbered | actions/invoice-number.ts:27-33 | with a trailing run, the successor keeps the prefix, carries the run's value + 1, and its run is max(old width, digit count of value + 1) long |
| InvoiceNumber.NextOfUnnumbered | actions/invoice-number.ts:37 | without a trailing digit, the successor is lastNo + "-1", with prefix lastNo + "-" and counter 1 |
| InvoiceNumber.NextIncrementsCounter | actions/invoice-number.ts:23-37 | the successor's counter is the old counter + 1, or 1 when there was none |
| InvoiceNumber.LastInvoice | actions/invoice-number.ts:14-17 | none exactly when the factory has no invoice; otherwise an invoice of that factory with the greatest createdAt |
| InvoiceNumber.GetNextInvoiceNumber | actions/invoice-number.ts:10-38 | "Unauthorized" exactly without a session; "001" when the factory has no invoice; otherwise the successor of the latest invoice's number |
| InvoiceNumber.ProposalIgnoresCaller | actions/invoice-number.ts:14-17 | the proposal is the same for every signed-in caller: the query does not filter by user |
| InvoiceNumber.LastInvoiceOfOwnRows | actions/invoice-number.ts:15 | invoices of other factories play no part in the choice |
| InvoiceNumber.PaddedExample | actions/invoice-number.ts:31-33 | "A-007" is followed by "A-008" |
| InvoiceNumber.WideningExample | actions/invoice-number.ts:31 | "999" is followed by "1000" |
| InvoiceNumber.UnnumberedExample | actions/invoice-number.ts:37 | "ABC" is followed by "ABC-1" |
| InvoiceActions.ItemRows | actions/invoice.ts:62-70 | one item row per submitted line, each carrying its drawn id and the invoice's id |
| InvoiceActions.CreateInvoiceSpec | actions/invoice.ts:31-79 | a create never touches users, factories or customers, and succeeds only for a signed-in caller, naming the drawn invoice id |
| InvoiceActions.UpdateInvoiceSpec | actions/invoice.ts:83-129 | an update never touches users, factories or customers, never adds or removes a header, and succeeds only for a signed-in caller, naming the given id |
| InvoiceActions.ItemRowsRoundTrip | actions/invoice.ts:62-70 | the item rows give back exactly the submitted lines, carry the drawn ids and all reference the invoice |
| InvoiceActions.CreateInvoice | actions/invoice.ts:31-79 | the statements run one by one leave exactly the tables and result of the create specification; validity is preserved |
| InvoiceActions.UpdateInvoice | actions/invoice.ts:83-129 | the same for the update specification |
| InvoiceActions.CreateResults | actions/invoice.ts:34-78 | without a session nothing changes and the result is "Unauthorized"; every failure is one of the two error strings; success names the new invoice id |
| InvoiceActions.CreateInsertsHeader | actions/invoice.ts:39-59 | a successful create appends exactly one header: a fresh id, the caller as owner, status PAID, and every submitted field including the four totals; users, factories and customers are unchanged |
| InvoiceActions.FreshInvoiceHasNoItems | db/schema.ts:66 | an id no invoice has yet has no items |
| InvoiceActions.CreateAppendsItemRows | actions/invoice.ts:61-71 | a successful create appends exactly the item rows (none for an empty list) |
| InvoiceActions.CreateInsertsItems | actions/invoice.ts:61-71 | after a successful create the new invoice's items are exactly the submitted lines, in order |
| InvoiceActions.CreateKeepsOtherItems | actions/invoice.ts:61-71 | a create, whatever its outcome, leaves every other invoice's items unchanged |
| InvoiceActions.CreateSucceeds | actions/invoice.ts:44-74 | with a healthy store, an existing owner and factory, and fresh distinct ids, a create succeeds |
| InvoiceActions.CreateLeavesHeaderOnItemFailure | actions/invoice.ts:41-71 | when the items insert fails, the header stays behind without items and the result is an error |
| InvoiceActions.UpdateResults | actions/invoice.ts:86-128 | without a session nothing changes; a failure carries an error and no id; a failing first statement writes nothing; success names the updated id |
| InvoiceActions.UpdateLeavesNoItemsOnInsertFailure | actions/invoice.ts:91-119 | when the items insert fails after the delete, the header stays rewritten, the invoice has no items left, and the result is an error |
| InvoiceActions.UpdateRewritesHeader | actions/invoice.ts:91-104 | rows with the id get the submitted number, date, customer fields, totals, status PAID and updatedAt; factoryId, userId and createdAt stay; other rows are unchanged |
| InvoiceActions.UpdateWritesItemRows | actions/invoice.ts:107-119 | a successful update leaves the other invoices' item rows followed by the new rows |
| InvoiceActions.UpdateReplacesItems | actions/invoice.ts:107-119 | after a successful update the invoice's items are exactly the submitted lines, in order |
| InvoiceActions.UpdateKeepsOtherItems | actions/invoice.ts:107-119 | an update, whatever its outcome, leaves every other invoice's items unchanged |
| InvoiceActions.UpdateIgnoresOwner | actions/invoice.ts:104 | the update's effect is the same whichever signed-in user calls it: ownership is not checked |
| FactoryActions.CreateFactorySpec | actions/factory.ts:11-32 | a factory create touches only the factories table, and a success needs a session and adds exactly one row |
| FactoryActions.CreateFactory | actions/factory.ts:11-32 | the insert-based method has exactly the effect and result of the create specification |
| FactoryActions.CreateFactoryEffect | actions/factory.ts:14-31 | without a session the result is "Unauthorized"; a failure writes nothing; a success appends exactly one factory with the given fields, owned by the caller, with a fresh id |
| FactoryActions.CreateFactorySucceeds | actions/factory.ts:19-28 | with an existing user and a fresh id, a create succeeds |
| FactoryActions.GetFactories | actions/factory.ts:34-48 | [] without a session or on a read failure; otherwise exactly the caller's factories |
| FactoryActions.GetFactoriesIsSublist | actions/factory.ts:42 | the list is the table with rows deleted, in order and unchanged |
| FactoryActions.GetFactory | actions/factory.ts:50-63 | a factory is returned only when both id and owner match the caller; none is returned only without a session, on a read failure, or when no such factory exists |
| FactoryActions.DeleteFactorySpec | actions/factory.ts:65-77 | a delete keeps users and customers and never adds a factory; it reports success exactly when there is a session and the statement does not raise, whether or not a row matched |
| FactoryActions.DeleteFactory | actions/factory.ts:65-77 | the delete method has exactly the effect and result of the delete specification |
| FactoryActions.DeleteFactoryEffect | actions/factory.ts:65-77 | a failed or refused delete writes nothing; a successful one removes exactly the caller's factory with that id, removes only invoices, keeps invoices of other factories, and keeps users and customers |
| FactoryActions.DeleteOwnFactoryCascades | actions/factory.ts:70 | deleting one's own factory succeeds and removes it, every invoice of it and every item of those invoices |
| FactoryActions.DeleteNotOwnedSucceeds | actions/factory.ts:70-72 | deleting a factory the caller does not own changes nothing and still reports success |
| CustomerActions.CreateCustomerSpec | actions/customer.ts:11-33 | a customer create touches only the customers table, and a success needs a session and adds exactly one row |
| CustomerActions.CreateCustomer | actions/customer.ts:11-33 | the insert-based method has exactly the effect and result of the create specification |
| CustomerActions.CreateCustomerEffect | actions/customer.ts:14-32 | without a session the result is "Unauthorized"; a failure writes nothing; a success appends exactly one customer with the given fields, owned by the caller |
| CustomerActions.CreateCustomerSucceeds | actions/customer.ts:19-28 | with a healthy store, an existing user and a fresh id, a create succeeds |
| CustomerActions.GetCustomers | actions/customer.ts:35-49 | [] without a session or on a read failure; otherwise exactly the caller's customers |
| CustomerActions.GetCustomersIsSublist | actions/customer.ts:42 | the list is the table with rows deleted, in order and unchanged |
| Dashboard.FactoryInvoices | actions/dashboard.ts:15-18 | the rows read are exactly the invoices of the factory, whoever owns them |
| Dashboard.SumTotals | actions/dashboard.ts:15-20 | `sum(totalAmount) \|\| 0`: 0 for no rows, and never negative when no total is |
| Dashboard.MonthWindow | actions/dashboard.ts:43-47 | six consecutive month keys, the last being the current month |
| Dashboard.ChartSpec | actions/dashboard.ts:40-57 | one chart point per window month, in window order, each holding that month's total |
| Dashboard.GetDashboardStats | actions/dashboard.ts:10-64 | "Unauthorized" exactly without a session; otherwise revenue is the sum of the factory's invoice totals (0 when none), the count is their number, and the chart is one bucket per window month holding that month's total |
| Dashboard.InitMonths | actions/dashboard.ts:40-48 | the loop creates a zero bucket for each window month, with keys in window order |
| Dashboard.AddAmounts | actions/dashboard.ts:50-55 | after the loop each existing bucket holds the total of the invoices dated in its month; no bucket is created |
| Dashboard.ChartShape | actions/dashboard.ts:42-57 | six buckets for consecutive months, oldest first, ending with the current month, each holding its month's total |
| Dashboard.ChartIgnoresOutside | actions/dashboard.ts:52 | an invoice dated outside the six months changes no bucket |
| Dashboard.ChartCountsInside | actions/dashboard.ts:50-55 | an invoice dated inside the window adds its amount to its own month's bucket and to no other |
| Dashboard.BucketsAddUp | actions/dashboard.ts:50-57 | the buckets add up to the revenue of the invoices dated in the window |
| Dashboard.RevenueSplits | actions/dashboard.ts:15-20 | revenue is the revenue inside the window plus the revenue outside it |
| Dashboard.ChartAndOlderMakeRevenue | actions/dashboard.ts:15-57 | the chart's buckets plus the invoices dated outside the window make up the total revenue |
| Dashboard.RevenueAfterInsert | actions/dashboard.ts:15-28 | a new invoice of the factory raises revenue by its total and count by one; one of another factory changes neither |
| Dashboard.DecemberThirtyFirstMonths | actions/dashboard.ts:43-46 | on 31 December 2025 the six computed months are Jul, Aug, Oct, Oct, Dec, Dec |
| Dashboard.RepeatedKeysDropped | actions/dashboard.ts:47 | assigning repeated keys creates one bucket per distinct key, in first-assignment order |
| Dashboard.AsWrittenMonthBack | actions/dashboard.ts:43-46 | `setMonth(getMonth() - i)` lands in the target month or the one after it, and in the target month whenever the day is at most 28 |
| Dashboard.InsertionOrder | actions/dashboard.ts:47-57 | `Object.entries` lists each assigned key once and no other key, and never more keys than were assigned |
| Dashboard.InsertionOrderDistinct | actions/dashboard.ts:47-57 | the listed keys are distinct |
| Dashboard.AsWrittenWindow | actions/dashboard.ts:43-48 | the code's buckets: between one and six distinct months, from five months back to one month ahead |
| Dashboard.AsWrittenWindowSkipsMonths | actions/dashboard.ts:43-48 | as written, 31 December 2025 yields four buckets, and none for September or November |
| Dashboard.WindowsAgreeEarlyInMonth | actions/dashboard.ts:43-48 | up to the 28th of a month the code's buckets are exactly the intended six months |
| Dashboard.MonthWindowIsLastSixMonths | actions/dashboard.ts:42-48 | the intended window holds six distinct keys covering exactly the last six months, and its insertion order is itself |
| Dashboard.InsertionOrderOfIncreasing | actions/dashboard.ts:57 | `Object.entries` lists increasing distinct keys in their assignment order |
| InvoiceForm.InitialState | components/invoice-form.tsx:27-50 | GST is only ever on with a positive rate; a new form has one line, an edited one a line per stored item |
| InvoiceForm.InitialStateShape | components/invoice-form.tsx:27-50 | a new form: empty number, today's date, one blank line, GST off at 18%; an edited invoice: its number, date, customer name, and address, mobile and GSTIN with missing values as "", its items, GST on exactly when its stored rate is positive, and its rate, or 18 when that is 0 |
| InvoiceForm.ApplyReply | components/invoice-form.tsx:32-35 | only the invoice number can change; a reply with a non-empty number sets it whatever the form holds, any other reply changes nothing |
| InvoiceForm.Prefill | components/invoice-form.tsx:30-38 | with nothing typed while the request runs: only the invoice number can change; a number present when the effect starts, or an edited invoice, is kept; the number ends up non-empty exactly when it was, or a non-empty proposal arrived for a new form |
| InvoiceForm.ReplyOverwritesTypedNumber | components/invoice-form.tsx:31-35 | a number typed after the request was issued is replaced by the proposal when the reply arrives |
| InvoiceForm.PrefillGivesNumber | components/invoice-form.tsx:30-38 | for a signed-in user, a new form takes the proposed number, which is not empty |
| InvoiceForm.CalculateTotal | components/invoice-form.tsx:52-57 | subTotal is Σ quantity × rate; gstAmount × 100 = subTotal × rate with GST on, 0 with GST off; total = subTotal + gstAmount |
| InvoiceForm.CalculateTotalExample | components/invoice-form.tsx:52-57 | 2 × 50 and 1 × 100 at 18% give 200, 36 and 236 |
| InvoiceForm.SubTotalIsSumOfAmounts | components/invoice-form.tsx:53 | when every amount is quantity × rate, the subtotal is also the sum of the amounts |
| InvoiceForm.SubTotalConcat | components/invoice-form.tsx:53 | the subtotal of two lists is the sum of their subtotals |
| InvoiceForm.HandleItemChange | components/invoice-form.tsx:61-72 | an edit keeps every line's key and leaves lines with other keys unchanged |
| InvoiceForm.HandleItemChangeEffect | components/invoice-form.tsx:61-72 | length, order and keys are kept; lines with other keys are unchanged; a matching line gets the new field, and its amount is recomputed only for quantity or rate |
| InvoiceForm.HandleItemChangeKeepsAmounts | components/invoice-form.tsx:65-67 | edits keep every amount equal to quantity × rate |
| InvoiceForm.AddItem | components/invoice-form.tsx:74-76 | the keys become the old keys followed by `Date.now()`, and consistent amounts stay consistent |
| InvoiceForm.AddItemEffect | components/invoice-form.tsx:74-76 | adding keeps every line and appends one blank line (quantity 1, rate 0, amount 0), which leaves the subtotal unchanged |
| InvoiceForm.RemoveItem | components/invoice-form.tsx:78-82 | every remaining line was in the list, and with more than one line none with the removed key remains |
| InvoiceForm.RemoveItemEffect | components/invoice-form.tsx:78-82 | a single line is never removed; otherwise exactly the lines with that key go and the rest stay, in order |
| InvoiceForm.RemoveItemKeepsALine | components/invoice-form.tsx:78-82 | with distinct keys at least one line remains, and removing a present key drops exactly one line |
| InvoiceForm.RemoveItemDuplicateKeysCanEmpty | components/invoice-form.tsx:74-82 | two lines added in the same millisecond share a key; after the first line is removed they are all that is left, and removing their key empties the list |
| InvoiceForm.TransitionsKeepKeysDistinct | components/invoice-form.tsx:61-82 | edits, removals and additions with a fresh timestamp keep line keys distinct |
| InvoiceForm.HandleSubmit | components/invoice-form.tsx:84-111 | a call that is not refused sends the form's submitted data, and an update carries the non-empty id of the edited invoice |
| InvoiceForm.HandleSubmitChoice | components/invoice-form.tsx:84-111 | submission is refused exactly when the customer name or invoice number is empty; otherwise update is called exactly when an invoice id is present, with that id, and create otherwise |
| InvoiceForm.SubmittedData | components/invoice-form.tsx:91-104 | the data name the form's factory and lines, with the subtotal Σ quantity × rate and the total subtotal plus GST |
| InvoiceForm.SubmittedDataTotals | components/invoice-form.tsx:91-104 | the submitted data carry the form's lines, number, customer and totals; the rate sent is 0 with GST off |
| InvoiceForm.CreatedFromFormIsConsistent | components/invoice-form.tsx:91-110 | an invoice created from the form is stored with a subtotal equal to Σ quantity × rate over its stored items, which are the form's lines |
| InvoiceForm.StoredMatchesForm | components/invoice-form.tsx:53 | stored rows describing the form's lines have the form's subtotal |
| FactoryList.LowerChar | components/factory-list.tsx:40-41 | ASCII capitals are mapped to lower case and other characters are kept |
| FactoryList.ToLower | components/factory-list.tsx:40-41 | `toLowerCase()` keeps the length and lower-cases each character |
| FactoryList.ToLowerIdempotent | components/factory-list.tsx:40-41 | lower-casing twice is lower-casing once |
| FactoryList.Contains | components/factory-list.tsx:40-41 | `includes` holds exactly when the needle occurs in the string at some position |
| FactoryList.FilteredFactories | components/factory-list.tsx:39-42 | the shown list is no longer than the list, and every shown factory is in the list and matches the query |
| FactoryList.FilteredFactoriesSpec | components/factory-list.tsx:39-42 | a factory is shown exactly when it is in the list and its lower-cased name or address contains the lower-cased query; the result is a sub-list in order |
| FactoryList.EmptyQueryShowsAll | components/factory-list.tsx:40-41 | an empty query shows every factory |
| FactoryList.QueryCaseIgnored | components/factory-list.tsx:39-42 | the query's letter case does not change the result |
| FactoryList.DeletingShownFactory | components/factory-list.tsx:44-48 | deleting a factory shown in the caller's list sends its id, succeeds with a healthy store, and removes it and its invoices while keeping the other factories |

## Left out

- Concurrency: the race in which two users read the same last invoice number, and any interleaving of actions.
- Row order without ORDER BY: the lists read by `getFactories` (actions/factory.ts:42), `getCustomers` (actions/customer.ts:42) and the edit page's `with: { items: true }` come back in table order in the model, with inserted rows at the end. `FactoryActions.GetFactoriesIsSublist`, `CustomerActions.GetCustomersIsSublist`, `InvoiceActions.CreateInsertsItems` and `InvoiceActions.UpdateReplacesItems` state that order. SQLite does not specify the order of rows in a query without ORDER BY.
- InvoiceNumber.LastInvoice: among invoices sharing the greatest `createdAt`, the model picks the first in table order. `createdAt` defaults to `CURRENT_TIMESTAMP` (db/schema.ts:56), which has one-second resolution, so two invoices created in the same second tie, and SQLite's choice between them is unspecified. `InvoiceNumber.GetNextInvoiceNumber` is deterministic only in the model; its contract promises only an invoice with the greatest `createdAt`.
- Transactions: none are modelled, because the code has none. A failure part-way through an action leaves the earlier statements applied, as the code does.
- Foreign keys are taken as enforced, since the declared cascades presuppose it. The database connection setup that would turn them on is not part of this model.
- IEEE floating point: money, quantities and rates are exact `real`s. Rounding in quantity × rate, `toFixed(2)` display, `parseFloat` of inputs, and `parseInt` beyond 2^53 are not modelled.
- Dates, locales and time zones:
  - `toLocaleString` month labels become integer month keys. Labels with a two-digit year that collide a century apart are not modelled.
  - The `toISOString` date shift in the form is not modelled.
  - The dashboard reading the clock once per loop iteration is not modelled: `today` is one date.
- `crypto.randomUUID`, `Date.now()` and `new Date()` are parameters. A colliding id makes its insert fail, as a primary-key violation would.
- `revalidatePath`, `console.error`, `alert`, `router.push` and `useTransition` have no data semantics.
- The NextAuth tables and the login flow are not part of this model. Users are only created through `Store.Database.constructor`, because no core action creates users.
- Storage failures inside `getNextInvoiceNumber` and `getDashboardStats` are not caught by the code (no try/catch). They are not modelled there.
- The form's plain field setters (invoice number, date, customer fields, the GST toggle) are not modelled, nor the JSX layout, PDF download, service worker, build configuration and `lib/utils`.
- FactoryList.ToLower: lower-cases ASCII letters only, whereas `toLowerCase` also maps non-ASCII letters.
- InvoiceForm.RemoveItemKeepsALine: assumes distinct line keys. The code's promise to keep at least one line fails when two lines share a key (`InvoiceForm.RemoveItemDuplicateKeysCanEmpty`).
- InvoiceForm.Prefill: describes the effect and its reply as one step, for the case where the user types nothing while `getNextInvoiceNumber` runs. The reply applied on its own, and its overwriting of a number typed in the meantime, is `InvoiceForm.ApplyReply` with `InvoiceForm.ReplyOverwritesTypedNumber`.
- Dashboard.GetDashboardStats, Dashboard.InitMonths, Dashboard.ChartSpec, Dashboard.ChartShape: compute the buckets over the intended six-month window (`Dashboard.MonthWindow`), not over the months `setMonth` produces on days 29-31. That behaviour is kept in `Dashboard.AsWrittenWindow`, which `Dashboard.WindowsAgreeEarlyInMonth` shows is the intended window up to the 28th; see Findings.

## Findings

| source | as written | input that shows it | evidently intended | confidence | as-written member | corrected member |
|---|---|---|---|---|---|---|
| actions/dashboard.ts:43-48 | `d.setMonth(d.getMonth() - i)` keeps today's day of the month. A target month without that day rolls over into the next month, so two iterations can produce the same label. The object then holds fewer than six buckets, and some months get none. | today = 31 December 2025: the buckets are Jul, Aug, Oct and Dec 25; September and November sales are dropped | one bucket for each of the six months ending with the current one, oldest first | not executed | Dashboard.AsWrittenWindowSkipsMonths | Dashboard.MonthWindowIsLastSixMonths |
