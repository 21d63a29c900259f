# La-control stock ledger and cost accounting, modelled in Dafny

La-control is a small-business management web app. It keeps a product catalogue with a
stock quantity per product. Purchases ("stock entries") raise the stock and post an expense.
Executed services lower the stock by a per-type bill of materials and post income. A financial
view sums the posted records. This project models that core:

- the store's tables, as the `Database` class in `ledger.dfy`. Every request may fail: `Respond` is a nondeterministic choice.
- the four data hooks, each a class that holds the hook's cached list and issues the store requests in the source's order. They are `StockEntries.EntryList`, `Services.ServiceList`, `ServiceTypes.ServiceTypeList` and `Products.ProductList`.
- the financial hook (`Financial.FinancialView`), its totals and its month windows (`Calendar`).
- the pure helpers: validators, formatters, and the stock page's status classification.

Each hook method returns `Success` or `Failure` and names the store step that failed. The
source has no transactions, so neither does the model. Each method's `ensures` states exactly
which earlier writes stay in place when a later step fails.

Conversion between purchase units and base units goes through `EffectiveFactor`: a null or
zero `conversion_factor` counts as 1. A stock entry adds `quantity × factor` base units and
overwrites `last_unit_cost` with `cost / (quantity × factor)`. This is last-write-wins, not a
weighted average. Deleting an entry subtracts the raw purchased `quantity`, with no conversion, clamped at 0. Creating a
service works in this order:

1. Check availability against the type's bill of materials.
2. Insert the service, with `product_cost = Σ deduced × last_unit_cost`.
3. Write each product's new quantity, one write per line.
4. Post the income.

Deleting a service restores the quantities using the bill of materials as it stands at that
moment.

Where the documented behaviour and the code disagree, the model follows the code:
- Deleting a stock entry twice is not refused. The code does not check whether the entry still exists. The second delete subtracts the quantity again, with the same clamp at 0 (`StockEntries.DeleteTwice`).
- A `conversion_factor` of 0 or null is not rejected. It silently counts as 1 (`Ledger.EffectiveFactor`), and `validateProduct` does not look at the factor at all. A negative factor is accepted as it is.
- A missing product is not reported as a separate "not found" error. It surfaces as the failed `single()` read, `StoreFailed(ReadProduct)`.

## Model

| member | source | states |
|---|---|---|
| Calendar.DaysInMonth | src/features/financeiro/useFinancial.js:105 | the last day of a month: 31, 30 for April, June, September and November, and for February 29 exactly in leap years and 28 otherwise |
| Calendar.MonthEnd | src/features/financeiro/useFinancial.js:105 | `new Date(year, month, 0)` is a valid date in the same year and month |
| Calendar.MonthWindow | src/features/financeiro/useFinancial.js:104-111 | a valid date lies between the first and last day of a month if and only if it has that year and month |
| Calendar.MonthsBefore | src/features/financeiro/useFinancial.js:140-142 | `new Date(y, m-1-i, 1)` normalised: the month stays in 1..12 and lies exactly `i` months before, counted as year×12+month |
| Calendar.MonthsBeforeZero | src/features/financeiro/useFinancial.js:140-142 | going back zero months leaves the month unchanged |
| Calendar.MonthsBeforeStep | src/features/financeiro/useFinancial.js:139-142 | the month `i` back is the month just after the one `i+1` back |
| Calendar.YearRollover | src/features/financeiro/useFinancial.js:140-142 | one month before January is December of the previous year |
| Ledger.EffectiveFactor | src/features/estoque/useStockEntries.js:110 | `conversion_factor \|\| 1` is never zero; a null or zero factor is 1 and any other factor is itself |
| Ledger.Quantity | src/features/estoque/useStockEntries.js:111 | `current_quantity \|\| 0`: a null quantity counts as 0 |
| Ledger.StockIncrease | src/features/estoque/useStockEntries.js:109-110 | the base units a purchase adds: `quantity × (conversion_factor \|\| 1)` |
| Ledger.Deduced | src/features/servicos/useServices.js:101-104 | a line deduces `default_quantity × factor` when it uses the unit system and `default_quantity` otherwise |
| Ledger.LinesOf | src/features/servicos/useServices.js:95 | the lines selected for a service type are exactly the lines with that type id |
| Ledger.LinesNotOf | src/features/servicos/useServiceTypes.js:130-133 | the lines left after deleting a type's lines are exactly those of other types |
| Ledger.Join | src/features/servicos/useServices.js:87-95 | each line is paired with its own product row, or with null when no row has that id, with the order and length kept |
| Ledger.ApplyWrites | src/features/servicos/useServices.js:176-181 | quantity writes in order; a write by id never adds or removes a product row |
| Ledger.Database.ReadProduct | src/features/estoque/useStockEntries.js:89-93 | `single()` on products: fails when no row has the id; otherwise returns that row, and nothing changes |
| Ledger.Database.InsertEntry | src/features/estoque/useStockEntries.js:98-105 | on success a fresh id is stored with the entry; on failure the table is unchanged |
| Ledger.Database.UpdateStock | src/features/estoque/useStockEntries.js:118-124 | on success the product gets the new quantity and the new unit cost and nothing else changes; a missing id matches nothing |
| Ledger.Database.UpdateQuantity | src/features/estoque/useStockEntries.js:170-173 | on success only `current_quantity` of that row changes; a missing id matches nothing |
| Ledger.Database.InsertRecord | src/features/estoque/useStockEntries.js:129-138 | on success the record is appended to the financial records |
| Ledger.Database.DeleteRecordsFor | src/features/estoque/useStockEntries.js:178-182 | on success exactly the records that reference (type, id) are removed |
| Ledger.Database.DeleteEntry | src/features/estoque/useStockEntries.js:187-190 | on success the id is removed from the entries; a missing id is no error |
| Ledger.Database.SelectLines | src/features/servicos/useServices.js:87-95 | when it answers, it returns the type's lines joined with the current product rows |
| Ledger.Database.ReadServiceType | src/features/servicos/useServices.js:139-143 | `single()` on service types: fails when the id is unknown and returns that row otherwise |
| Ledger.Database.InsertService | src/features/servicos/useServices.js:155-169 | on success a fresh id is stored with the service |
| Ledger.Database.DeleteService | src/features/servicos/useServices.js:251-254 | on success the id is removed from the services |
| Ledger.Database.InsertServiceType | src/features/servicos/useServiceTypes.js:78-85 | on success a fresh id is stored with the name and price |
| Ledger.Database.UpdateServiceType | src/features/servicos/useServiceTypes.js:119-125 | on success an existing row gets the new name and price; an unknown id matches nothing |
| Ledger.Database.DeleteLinesOf | src/features/servicos/useServiceTypes.js:130-133 | on success the type's lines are removed and the others are kept in order |
| Ledger.Database.InsertLines | src/features/servicos/useServiceTypes.js:98-100 | one batch insert: on success all the rows are appended, and on failure none are; a batch naming an unknown service type is refused by the foreign key, which every line-changing request preserves |
| Ledger.Database.DeleteServiceType | src/features/servicos/useServiceTypes.js:166-169 | on success the type and its lines (by cascade) are removed |
| Ledger.Database.InsertProduct | src/features/estoque/useProducts.js:72-80 | on success a fresh id is stored with the input's columns |
| Ledger.Database.UpdateProduct | src/features/estoque/useProducts.js:97-106 | `single()` after the update: an unknown id fails; otherwise the row is patched and returned |
| Ledger.Database.DeleteProduct | src/features/estoque/useProducts.js:123-126 | on success the id is removed from the products |
| Ledger.Database.SelectRecords | src/features/financeiro/useFinancial.js:40-56 | when it answers, it returns the records the query keeps, in table order |
| Ledger.Unreferenced | src/features/estoque/useStockEntries.js:178-182 | the records kept are exactly those that do not reference (type, id) |
| Ledger.Patched | src/features/estoque/useProducts.js:97-100 | the columns present in the patch are overwritten; the id, the unit cost and absent columns are kept |
| StockEntries.UnitCost | src/features/estoque/useStockEntries.js:115 | the unit cost is `cost / increase`; a zero increase leaves no defined cost |
| StockEntries.Restock | src/features/estoque/useStockEntries.js:108-124 | the product after a purchase: quantity `(current \|\| 0) + quantity × factor`, unit cost from this purchase alone, every other column kept |
| StockEntries.Unstock | src/features/estoque/useStockEntries.js:168 | the product after an entry is deleted: quantity `max(0, current − quantity)` with the raw quantity, never negative, every other column kept |
| StockEntries.RestockQuantity | src/features/estoque/useStockEntries.js:110-112 | a purchase adds `quantity × factor` base units (exactly `quantity` with a null or zero factor) and changes only quantity and cost |
| StockEntries.RestockCostIsLastWrite | src/features/estoque/useStockEntries.js:115-124 | the new `last_unit_cost` depends on this purchase alone, not on the previous stock or cost |
| StockEntries.SecondPurchaseOverwritesCost | src/features/estoque/useStockEntries.js:115-124 | after two purchases the cost is that of the second (last write wins, no weighted average) |
| StockEntries.UnstockQuantity | src/features/estoque/useStockEntries.js:168 | deleting an entry leaves `max(0, quantity − removed)` and never a negative stock |
| StockEntries.CreateThenDelete | src/features/estoque/useStockEntries.js:110-168 | the round trip leaves `max(0, old + q·(f−1))`, so it cancels only when the effective factor is 1 and the stock was not negative |
| StockEntries.DeleteTwice | src/features/estoque/useStockEntries.js:157-175 | deleting the same entry twice subtracts twice, clamped once at 0: nothing prevents the double restore |
| StockEntries.BottleScenario | src/features/estoque/useStockEntries.js:110-168 | two boxes of 5 at 20 give stock 10 at unit cost 2, and removing 2 leaves 8 |
| StockEntries.WithoutEntry | src/features/estoque/useStockEntries.js:194 | the cache keeps exactly the entries with other ids |
| StockEntries.RemovesOnlyThatEntry | src/features/estoque/useStockEntries.js:194 | removing one entry leaves the others in their order |
| StockEntries.EntryList.CreateEntry | src/features/estoque/useStockEntries.js:85-155 | per failing step, which writes happened (none / entry row / entry and stock); on success the entry, the restocked product, the expense record and the cache with the entry in front |
| StockEntries.EntryList.DeleteEntry | src/features/estoque/useStockEntries.js:157-202 | per failing step, which writes happened; on success the clamped stock, the entry's records deleted, the row and cache entry removed |
| Services.Plan | src/features/servicos/useServices.js:100-105 | a plan exists exactly when every line has its product; it holds per line the product, its stock and the deduced quantity |
| Services.Shortfalls | src/features/servicos/useServices.js:107-117 | the shortfalls are exactly the planned lines whose stock is below the deduced quantity; none exactly when no line is short |
| Services.Check | src/features/servicos/useServices.js:99-119 | a line without its product makes the check fail; otherwise `available` holds if and only if no line is short and the list of shortfalls is empty |
| Services.CheckReportsShortfalls | src/features/servicos/useServices.js:100-119 | a successful check's planned lines are the plan, and its shortfalls are the plan's short lines in line order, which is the order of the message |
| Services.ProductCost | src/features/servicos/useServices.js:148-152 | `Σ deducedQuantity × (last_unit_cost \|\| 0)` over the planned lines, the value stored as `product_cost` |
| Services.DeductWrites | src/features/servicos/useServices.js:174-181 | one write per planned line, in order, to that line's product, of its checked quantity minus the deduced quantity |
| Services.RestoreWrite | src/features/servicos/useServices.js:227-231 | the write for one joined line: its product's current quantity plus the line's deduced quantity |
| Services.RestoreWrites | src/features/servicos/useServices.js:226-239 | one restore write per joined line, in order |
| Services.ProductCostAppend | src/features/servicos/useServices.js:148-152 | the service's product cost is additive over lines |
| Services.ProductCostNonNegative | src/features/servicos/useServices.js:148-152 | non-negative deductions and costs give a non-negative product cost |
| Services.EmptyBillOfMaterials | src/features/servicos/useServices.js:107-152 | a type without lines is always available and costs nothing |
| Services.WriteMisses | src/features/servicos/useServices.js:176-181 | a product no write targets keeps its row |
| Services.WriteLands | src/features/servicos/useServices.js:176-181 | with distinct targets, each write's quantity is what the product ends with |
| Services.CheckedPlan | src/features/servicos/useServices.js:100-119 | a successful check plans every line against its own product, and when available every deduction leaves a non-negative stock |
| Services.DeductionsExact | src/features/servicos/useServices.js:174-183 | with distinct products and an available check, each listed product ends at stock − deduced ≥ 0, and unlisted products are untouched |
| Services.DuplicateLineDeductsOnce | src/features/servicos/useServices.js:174-183 | two lines for one product both read the pre-service stock, so only the last deduction survives |
| Services.RestoreOne | src/features/servicos/useServices.js:226-231 | restoring a deducted line's quantity returns the stock it had |
| Services.RestoreWritesUndo | src/features/servicos/useServices.js:226-239 | restore writes that each add back their deduction give back the original table |
| Services.DeleteUndoesCreate | src/features/servicos/useServices.js:226-239 | deleting a service right after creating it restores every product row, when the bill of materials is unchanged |
| Services.EditedBillRestoresNewAmount | src/features/servicos/useServices.js:212-239 | if the bill changed in between, the restore adds the new quantity, not the one deducted |
| Services.InsufficientScenario | src/features/servicos/useServices.js:107-117 | a stock of 1 against a line of 2 is reported with that product, its stock 1 and need 2 |
| Services.SufficientScenario | src/features/servicos/useServices.js:148-183 | a stock of 5 at cost 3 with a line of 2 costs 6 and leaves 3 |
| Services.WithoutService | src/features/servicos/useServices.js:258 | the cache keeps exactly the services with other ids |
| Services.RemovesOnlyThatService | src/features/servicos/useServices.js:258 | removing one service leaves the others in their order |
| Services.ServiceList.CheckStockAvailability | src/features/servicos/useServices.js:84-124 | the result is the store failure or the check of the type's lines against the current products |
| Services.ServiceList.WriteQuantities | src/features/servicos/useServices.js:174-183 | writes in order and stops at the first failure, with exactly the writes before it applied |
| Services.ServiceList.OpenService | src/features/servicos/useServices.js:128-171 | refuses missing products and insufficient stock before writing anything; on success stores the service with income = price and product cost from the plan |
| Services.ServiceList.CreateService | src/features/servicos/useServices.js:126-208 | which writes survive each failing step; on success the stock is deducted per line, the income is posted and the service is at the front of the cache |
| Services.ServiceList.FinishService | src/features/servicos/useServices.js:173-199 | once the row is in: the deduct writes (stopping at the first failure), then the income record, then the service at the front of the cache; a failure leaves records and cache unchanged |
| Services.ServiceList.RestoreQuantities | src/features/servicos/useServices.js:226-239 | restore writes in order, stopping at a missing product or the first failed write |
| Services.ServiceList.RemoveService | src/features/servicos/useServices.js:241-258 | the service's records may be deleted; the row and cache entry go exactly when the delete succeeds |
| Services.ServiceList.DeleteService | src/features/servicos/useServices.js:210-266 | the error per step, the restored quantities and the removal of row and cache entry on success |
| ServiceTypes.ToLines | src/features/servicos/useServiceTypes.js:90-96 | one line per product input, of this type, with its product and quantity; the unit system is on only when explicitly true |
| ServiceTypes.UnitSystemDefaultsOff | src/features/servicos/useServiceTypes.js:95 | an input without the flag gives a line that does not use the unit system |
| ServiceTypes.NoneLeftAfterDelete | src/features/servicos/useServiceTypes.js:130-133 | after deleting a type's lines, none of that type remain |
| ServiceTypes.DeleteKeepsOtherType | src/features/servicos/useServiceTypes.js:130-133 | deleting a type's lines keeps every other type's lines in their order |
| ServiceTypes.ReplacedLinesExact | src/features/servicos/useServiceTypes.js:130-151 | after delete-then-insert the type's lines are exactly the new ones |
| ServiceTypes.ReplaceKeepsOtherTypes | src/features/servicos/useServiceTypes.js:130-151 | replacing one type's lines leaves other types' lines unchanged |
| ServiceTypes.CreatedLinesExact | src/features/servicos/useServiceTypes.js:89-103 | with the foreign key holding, lines appended under a fresh type id are exactly that type's lines |
| ServiceTypes.WithoutType | src/features/servicos/useServiceTypes.js:173 | the cache keeps exactly the types with other ids |
| ServiceTypes.RemovesOnlyThatType | src/features/servicos/useServiceTypes.js:173 | removing one type leaves the others in their order |
| ServiceTypes.ServiceTypeList.CreateServiceType | src/features/servicos/useServiceTypes.js:75-114 | the type row first, then its lines (skipped when there are none); a failed line insert keeps the type row; on success the lines are appended and, with the foreign key holding, the new type has exactly the given lines (none for an empty list); the foreign key is preserved |
| ServiceTypes.ServiceTypeList.UpdateServiceType | src/features/servicos/useServiceTypes.js:116-161 | name and price, then delete and re-insert of the lines, with the state each failing step leaves; on success the type has exactly the new lines; an unknown id with a non-empty list fails at the line insert; the foreign key is preserved |
| ServiceTypes.ServiceTypeList.DeleteServiceType | src/features/servicos/useServiceTypes.js:163-181 | on success the type and its lines leave the store and the type leaves the cache; on failure nothing changes; the foreign key is preserved |
| NameOrder.NameLeReflexive | src/features/estoque/useProducts.js:84 | the name comparison puts every name at or before itself |
| NameOrder.NameLe | src/features/estoque/useProducts.js:84 | the name comparison of the sort, code point by code point, a proper prefix first |
| NameOrder.NameLeTotal | src/features/estoque/useProducts.js:84 | any two names are comparable |
| NameOrder.NameLeTransitive | src/features/estoque/useProducts.js:84 | the name comparison is transitive |
| NameOrder.NameLeAntisymmetric | src/features/estoque/useProducts.js:84 | names ordered both ways are equal |
| Products.LowStockProducts | src/features/estoque/useProducts.js:140-142 | exactly the products whose quantity (null as 0) is at or below their minimum |
| Products.IsLowStock | src/features/estoque/useProducts.js:141 | `current_quantity <= min_quantity`, with a null quantity as 0 |
| Products.LowStockKeepsOrder | src/features/estoque/useProducts.js:141 | the low-stock list follows the product list's order |
| Products.LowStockExtremes | src/features/estoque/useProducts.js:141 | all low gives the whole list; none low gives the empty list |
| Products.InsertByName | src/features/estoque/useProducts.js:84 | inserting into a sorted list gives a sorted permutation of the list and the product |
| Products.SortByName | src/features/estoque/useProducts.js:84 | the sort returns the same products in name order |
| Products.ReplaceById | src/features/estoque/useProducts.js:110 | the entries with the id are replaced by the row; the rest keep their place |
| Products.WithoutProduct | src/features/estoque/useProducts.js:130 | the cache keeps exactly the products with other ids |
| Products.CreatedCacheContents | src/features/estoque/useProducts.js:84 | after creation the cache holds the old products and the new row, and nothing else |
| Products.UpdatedCacheContents | src/features/estoque/useProducts.js:110 | after an update, other products remain, the only row with that id is the new one, and nothing new appears |
| Products.RemovesOnlyThatProduct | src/features/estoque/useProducts.js:130 | removing one product leaves the others in their order |
| Products.ProductList.CreateProduct | src/features/estoque/useProducts.js:70-93 | on success the row is stored and the cache is re-sorted with it; on failure nothing changes |
| Products.ProductList.UpdateProduct | src/features/estoque/useProducts.js:95-119 | on success the row is patched and replaced in the re-sorted cache; on failure nothing changes |
| Products.ProductList.DeleteProduct | src/features/estoque/useProducts.js:121-138 | on success the row leaves the store and the cache; on failure nothing changes |
| Financial.Summarize | src/features/financeiro/useFinancial.js:63-75 | income and expense are the totals of their kinds (a null amount counts as 0), and profit is their difference |
| Financial.Total | src/features/financeiro/useFinancial.js:63-69 | the reduce over one kind: zero when no record has that kind, non-negative when no amount is negative |
| Financial.Matches | src/features/financeiro/useFinancial.js:46-54 | a record passes the type filter (an empty type filters nothing), the start date and the end date, each only when given |
| Financial.InWindow | src/features/financeiro/useFinancial.js:104-111 | a record dated from the first to the last day of the month |
| Financial.SummaryAdditive | src/features/financeiro/useFinancial.js:63-69 | the summary of two record lists is the sum of their summaries |
| Financial.EmptySummary | src/features/financeiro/useFinancial.js:7-11 | no records give the initial all-zero summary |
| Financial.OtherKindsIgnored | src/features/financeiro/useFinancial.js:63-69 | a record of neither kind changes no total |
| Financial.IncomeRecordAdds | src/features/financeiro/useFinancial.js:63-69 | an income record raises income and profit by its amount and leaves expense alone |
| Financial.TotalPermutation | src/features/financeiro/useFinancial.js:63-69 | a total does not depend on the record order |
| Financial.SummaryPermutation | src/features/financeiro/useFinancial.js:56-75 | the summary is the same for the records in any order, so the date ordering does not affect it |
| Financial.NoFiltersKeepAll | src/features/financeiro/useFinancial.js:46-54 | without filters every record is fetched |
| Financial.MonthRecords | src/features/financeiro/useFinancial.js:107-111 | the month query keeps exactly the records dated within the window |
| Financial.MonthRecordsAreThatMonth | src/features/financeiro/useFinancial.js:104-111 | for valid dates, the month query keeps exactly the records of that year and month |
| Financial.FebruaryWindow | src/features/financeiro/useFinancial.js:105 | the February window ends on the 29th in a leap year and on the 28th otherwise |
| Financial.TrendMonths | src/features/financeiro/useFinancial.js:139-142 | the trend months run from `n−1` months back up to the current month |
| Financial.TrendConsecutive | src/features/financeiro/useFinancial.js:139-150 | consecutive trend entries are consecutive months, ending at the current one |
| Financial.JanuaryTrend | src/features/financeiro/useFinancial.js:140-142 | a two-month trend seen from January is December of the previous year, then January |
| Financial.FinancialView.FetchRecords | src/features/financeiro/useFinancial.js:35-86 | on success the cached records are the filtered table and the summary is theirs; on failure nothing changes |
| Financial.FinancialView.FetchMonthlySummary | src/features/financeiro/useFinancial.js:102-132 | on success the summary of the month's records |
| Financial.FinancialView.GetMonthlyTrend | src/features/financeiro/useFinancial.js:134-157 | `max(months, 0)` entries, oldest first, each the month and summary of its place in the trend |
| Validators.TrimEmpty | src/utils/validators.js:61-63 | a string trims to empty if and only if it is all whitespace |
| Validators.IsWhitespace | src/utils/validators.js:62 | the characters `trim` removes |
| Validators.Trim | src/utils/validators.js:62 | `trim`: no longer than the text, and neither starting nor ending with white space |
| Validators.IsNotEmpty | src/utils/validators.js:61-63 | a string whose trimmed form is not empty |
| Validators.IsValidEmail | src/utils/validators.js:6-9 | the email regex, decided from the first `@` |
| Validators.IsPositiveNumber | src/utils/validators.js:31-34 | a value that parses to a number greater than 0 |
| Validators.IsNonNegativeNumber | src/utils/validators.js:41-44 | a value that parses to a number of at least 0 |
| Validators.IsPositiveInteger | src/utils/validators.js:51-54 | a positive integer parse that agrees with the real parse |
| Validators.NotEmptyMeansVisibleChar | src/utils/validators.js:61-63 | `isNotEmpty` holds if and only if the value is a string with a non-whitespace character |
| Validators.ValidEmailHasShape | src/utils/validators.js:6-9 | an accepted address has the shape local@domain.tld with no space and no further `@` |
| Validators.ShapedEmailIsValid | src/utils/validators.js:6-9 | every address of that shape is accepted |
| Validators.EmailValidIffShape | src/utils/validators.js:6-9 | the email check accepts exactly the addresses of that shape |
| Validators.EmailAccepted | src/utils/validators.js:6-9 | sample addresses are accepted, with dots in both parts |
| Validators.EmailRefused | src/utils/validators.js:6-9 | an empty local part, no dot after the `@`, a trailing dot, a space and a second `@` are each refused |
| Validators.ValidatePassword | src/utils/validators.js:16-24 | valid exactly when present with at least 6 characters, exactly when the message is empty; a missing or empty password is reported as required and a shorter one as too short |
| Validators.PositiveIsNonNegative | src/utils/validators.js:31-44 | a positive number is non-negative, and 0 is the only non-negative number that is not positive |
| Validators.PositiveIntegerExamples | src/utils/validators.js:51-54 | 3 is a positive integer, while a value whose integer and real parses differ ("3.5"), 0 and a non-number are not |
| Validators.PositiveIntegerIsPositive | src/utils/validators.js:51-54 | a positive integer is a positive number |
| Validators.ValidateProduct | src/utils/validators.js:70-89 | valid if and only if there are no errors; name, current and minimum quantity each get their message exactly when their check fails |
| Validators.ValidateStockEntry | src/utils/validators.js:96-119 | the same for product, quantity, cost and date |
| Validators.ValidateServiceType | src/utils/validators.js:126-141 | the same for name and price |
| Validators.ValidateService | src/utils/validators.js:148-167 | the same for client name, service type and date |
| Formatters.GetMonthName | src/utils/formatters.js:86-92 | months 1 to 12 get their Portuguese name and any other number the empty string |
| Formatters.MonthNameExamples | src/utils/formatters.js:86-92 | January, March and December by name; 0 and 13 give the empty string |
| Formatters.MonthNamesDistinct | src/utils/formatters.js:86-92 | distinct months have distinct names |
| Formatters.TruncateText | src/utils/formatters.js:100-104 | missing or empty text gives "", text that fits is returned unchanged, and longer text is its first `maxLength` characters followed by "..." |
| Formatters.DefaultTruncation | src/utils/formatters.js:100-103 | with the default length 50, a long text becomes 53 characters starting with its first 50 |
| Formatters.TruncationBound | src/utils/formatters.js:100-103 | the result is at most `maxLength + 3` long, and longer than the text only when it is exactly that |
| Formatters.FormatCurrency | src/utils/formatters.js:9-18 | a missing or not-a-number value shows "R$ 0,00"; any other is the locale formatting |
| StockStatus.StatusOf | src/pages/EstoquePage.jsx:48-52 | out exactly when the quantity is 0; otherwise low exactly when at or below the minimum (null as 0), else ok |
| StockStatus.Label | src/pages/EstoquePage.jsx:54-60 | "out" and "low" get their labels, and anything else reads "Em estoque" |
| StockStatus.StatusName | src/pages/EstoquePage.jsx:48-52 | the status strings "out", "low" and "ok" |
| StockStatus.NullQuantityIsLow | src/pages/EstoquePage.jsx:50 | a null quantity with a non-negative minimum is low, not out |
| StockStatus.LabelsDistinct | src/pages/EstoquePage.jsx:48-60 | different statuses show different labels |
| StockStatus.ClassifiedLowIsListed | src/pages/EstoquePage.jsx:48-52 | with a non-negative minimum, a product is shown as out or low exactly when the low-stock list holds it |

## Left out

- The list refreshes (`fetchEntries`, `fetchServices`, `fetchServiceTypes`, `fetchProducts`) are not modelled. Only the mutations' cache updates are. This includes the `fetchProducts` call after a stock entry is created: it re-reads the products from the store and only refreshes that cache.
- Financial.FinancialView.FetchRecords: keeps the records in table order, not in the `date` descending order of the query. `Financial.SummaryPermutation` shows that order does not affect the summary.
- The shared listener lists, React state, loading flags, toasts and console logging are left out. They are presentation.
- Concurrency is left out. Two hooks interleaving their writes is not modelled; each method runs alone against the store.
- Quantities and amounts are exact reals. Floating-point rounding, `NaN` and `toFixed` are not modelled.
- `parseFloat` and `parseInt` are left out. The validators take the already-parsed number as an `Option`, with `None` standing for `NaN`.
- `Intl.NumberFormat` is left out. It is the `format` parameter of `Formatters.FormatCurrency`.
- `localeCompare` is replaced by `NameOrder.NameLe`, a code-point lexicographic order. It is a total order like the locale's, but it orders differently. Every uppercase letter comes before every lowercase one: "Banana" sorts before "apple", where the pt-BR locale compares case-insensitively first and puts "apple" first. Accented letters come after all unaccented ones. So the cache order that `Products.InsertByName`, `Products.SortByName`, `Products.CreatedCacheContents` and `Products.UpdatedCacheContents` describe is the code-point order, not the locale's.
- String lengths count code points, where JavaScript counts UTF-16 units.
- Financial.FinancialView.FetchMonthlySummary: requires a month in 1..12. The source accepts any number and lets `Date` normalise it, but it is only ever called with such months.
- `toISOString` converts the window's last day to UTC and can shift it to the day before. The model uses the local calendar date.
- The clock (`new Date()`) is left out. It becomes the `todayYear` and `todayMonth` parameters of `GetMonthlyTrend`. These are required to name a month 1..12, as `getMonth() + 1` always does.
- The `brand`, `category` and `unit` joins of the returned rows, and the free-text description fields, are left out. Nothing in the core computes from them.
- Store failures are modelled without their messages. Each is a `StoreFailed` naming the step.
- Services.DeductionsExact: requires distinct products in the bill of materials. With duplicates the last write wins, and `Services.DuplicateLineDeductsOnce` shows that case. The general duplicate case is stated only by that example.
- Only the `service_type_id` foreign key of `service_products` is modelled, because the line requests rely on it. The other foreign keys are not modelled: `service_products.product_id`, `stock_entries.product_id` and `services.service_type_id`. So deleting a product that lines or entries still reference succeeds in the model, whatever the schema's delete rule is.
- The export helpers, the authentication context, and the brand, category and unit catalogue hooks are not part of this model. They are outside the stock-ledger core.
