# Sales reports of proyecto-final, modelled in Dafny

The repository analyses a sales database with pandas. This project models four parts of it:

- **Report strategies** (`src/design_patterns/strategy.py`). Three strategies turn a sales DataFrame into a per-employee report:
  - `TotalSalesByEmployee` gives the sum of `TotalPrice`;
  - `AverageSalesByEmployee` gives the mean of `TotalPrice`, rounded to cents;
  - `ProductSalesByEmployee` gives the count of non-null `ProductID`.

  Each report has one line per `EmployeeID`. The line carries the first `EmployeeName` seen for that employee. The report is sorted by one of its own columns (named as before the renaming), then its columns are renamed to `IDVendedor`, `Nombre Apellido Vendedor` and the metric's label.
- **The report builder** (`src/design_patterns/builder.py`). `ReportBuilder` holds a DataFrame and an ordered list of strategies. `build_all` runs every strategy and stores each report under the strategy's class name. It also folds the reports into a `CombinedReport`:
  - an outer join on `IDVendedor`;
  - after each join, the duplicated name columns are merged (`fillna`) and the combined frame is sorted by name.
- **Product** (`src/models/product.py`). A product with a mutable price:
  - the price setter refuses negative values;
  - a percentage discount refuses percentages outside 0..100;
  - an expiry test refuses negative day counts.
- **Row factories** (`src/design_patterns/factory.py`). `SalesSummary.from_series` and `CustomerLocationInfo.from_series` build a record from the cells of one pandas row. They raise a `KeyError` for the first missing label.

Modules:

| file | module | models |
|---|---|---|
| `wrappers.dfy` | `Wrappers` | `Option`, `Result`, `Outcome`: Python's `None` and raised exceptions |
| `sorting.dfy` | `Sorting` | a sort by a "may precede" relation; Python's string order |
| `sales.dfy` | `Sales` | the sales rows; `groupby` sums, means and counts; `drop_duplicates` |
| `strategies.dfy` | `Strategies` | the three strategies and their `generate_report` |
| `frames.dfy` | `Frames` | the DataFrames the builder handles: outer join, `fillna` coalescing, `_clean_combined_df` |
| `builder.dfy` | `Builder` | `ReportBuilder` as a class, and `build_all` as a function that specifies it |
| `products.dfy` | `Products` | `Product` as a class with a mutable `price` |
| `factory.dfy` | `Factory` | `from_series` of the two record classes |

How the source is modelled:

- **The builder's state.** `ReportBuilder`'s fields are fields of a Dafny class, and its setters are methods that change them.
- **`build_all`'s loop.** It is a `while` loop over the strategies, proved equal to the function `Build`. `Build` is a fold of one loop step, `Advance`, over the strategies. Its properties are proved by an invariant, `Accumulated`, which the step preserves.
- **`_clean_combined_df`.** It is a method whose loop merges the name columns one at a time. It is proved equal to the function `Clean`.
- **What `_clean_combined_df` returns.** The cleaning edits `combine_reports` in place: it fills, drops and renames columns. The sort, however, returns a new frame. So the frame carried to the next join is the coalesced, unsorted one, while the frame stored as `CombinedReport` is the sorted one. The model returns both.
- **Sort key.** `build_all` passes the builder's `combined_sort_key` to every strategy as the strategy's own sort key. The final sort of the combined report is always by name.
  - The builder's default key is `None`, so `build_all` then fails in the first strategy's `sort_values`. `DefaultKeyFails` states this.
  - The docstrings describe the key as a column of the combined frame. The model follows the code.

## Model

| member | source | states |
|---|---|---|
| Sorting.Sort | src/design_patterns/strategy.py:45 | the sorted lines are a permutation of the input lines (same multiset, same length) |
| Sorting.SortSorted | src/design_patterns/strategy.py:45 | for a total "may precede" relation, every adjacent pair of the sorted sequence is in order |
| Sorting.PermutationDistinct | src/design_patterns/strategy.py:45 | reordering a sequence without repeats leaves it without repeats |
| Sorting.LexTotal | src/design_patterns/builder.py:109-111 | Python's string order relates any two names one way or the other, so sorting by name is well defined |
| Sales.DistinctIds | src/design_patterns/strategy.py:37 | the groups of `groupby("EmployeeID")`: every employee id that occurs, exactly once |
| Sales.SumOverDistinctIds | src/design_patterns/strategy.py:37 | the group sums over all employees add up to the sum over the whole table |
| Sales.GroupSum | src/design_patterns/strategy.py:37 | an employee without rows has a group sum of 0 |
| Sales.GroupSize | src/design_patterns/strategy.py:67 | the divisor of the mean is at most the number of rows |
| Sales.GroupSizePositive | src/design_patterns/strategy.py:67 | an employee has at least one row exactly when it occurs in the table, so the mean's divisor is positive for every reported employee |
| Sales.CountProducts | src/design_patterns/strategy.py:103 | the count of an employee is at most the size of its group, and equals it when no ProductID is null |
| Sales.FirstName | src/design_patterns/strategy.py:38-42 | the name kept for an employee is one that some row of that employee carries (the empty string for an id without rows, which no report lists) |
| Sales.CountProductsIsGroupSum | src/design_patterns/strategy.py:103 | the count of an employee is the group sum of "ProductID is not null" |
| Sales.ProductRowsIsSum | src/design_patterns/strategy.py:103 | the number of non-null ProductIDs is the sum of that indicator over all rows |
| Sales.FirstNameIsFirst | src/design_patterns/strategy.py:38-40 | `drop_duplicates` keeps the first row: the name kept is the one on the employee's first row |
| Strategies.ClassNameInjective | src/design_patterns/builder.py:75 | different strategies have different class names |
| Strategies.RoundHalfEven | src/design_patterns/strategy.py:67 | the integer chosen is within one half of the input, and an exact tie goes to the even integer |
| Strategies.Metric | src/design_patterns/strategy.py:37-42 | an employee without rows gets 0; the rounded mean is within half a cent of the exact mean; the count lies between 0 and the size of the group |
| Strategies.Round2 | src/design_patterns/strategy.py:67 | `.round(2)` moves a value by at most half a cent, gives a whole number of cents, and leaves a value already in cents unchanged |
| Strategies.Groups | src/design_patterns/strategy.py:37-44 | the grouped and merged frame has one line per distinct id, each the employee's summary |
| Strategies.SortFieldFor | src/design_patterns/strategy.py:44-45 | a sort key is accepted exactly when it names one of the three columns the frame has before the renaming |
| Strategies.RowBeforeTotal | src/design_patterns/strategy.py:45 | the sort order on report lines is total for every column and direction |
| Strategies.SortRows | src/design_patterns/strategy.py:45 | `sort_values` gives a permutation in which adjacent lines are in order by the key |
| Strategies.GenerateReport | src/design_patterns/strategy.py:36-48 | fails with KeyError for the first missing column (EmployeeID, then the metric's column, then EmployeeName), for a None key or for a key the frame lacks; otherwise gives the three renamed columns, lines sorted by the key, and exactly the per-employee summaries |
| Strategies.ReportOnePerEmployee | src/design_patterns/strategy.py:37-48 | a report has exactly one line per employee in the table, and each line is that employee's summary |
| Strategies.PermutedGroups | src/design_patterns/strategy.py:45 | any reordering of the groups keeps one line per employee |
| Strategies.PermutedGroupsMembers | src/design_patterns/strategy.py:45 | the lines of a reordering of the groups are the summaries of exactly the employees in the table |
| Strategies.PermutedGroupsUnique | src/design_patterns/strategy.py:45 | a reordering of the groups repeats no id and has one line per employee |
| Strategies.DistinctIdsCard | src/design_patterns/strategy.py:37 | there are as many groups as distinct employee ids |
| Strategies.ReportMetrics | src/design_patterns/strategy.py:67-111 | each line's value is the group sum, the mean rounded to cents, or the count of non-null ProductIDs, and the group is never empty |
| Strategies.ReportNamesFirstSeen | src/design_patterns/strategy.py:38-42 | each line's name is the EmployeeName on that employee's first row |
| Strategies.TotalReportConservesSales | src/design_patterns/strategy.py:37 | the TotalVentas column adds up to the TotalPrice column of the input |
| Strategies.CountReportConservesProducts | src/design_patterns/strategy.py:103 | the counts add up to the number of rows with a non-null ProductID |
| Strategies.ExampleTotals | tests/test_strategy.py:15-25 | on the five example sales: totals 250, 450 and 300, with the names Alice Smith, Bob Johnson and Charlie Brown |
| Strategies.ExampleMeans | tests/test_strategy.py:15-25 | on the five example sales: means 125, 225 and 300 |
| Strategies.ExampleCounts | tests/test_strategy.py:15-25 | on the five example sales: counts 2, 2 and 1 |
| Strategies.ExampleReportLength | tests/test_strategy.py:50-52 | on the example sales, each strategy gives three lines under its three renamed columns |
| Frames.Lookup | src/design_patterns/builder.py:87-89 | the join finds a line of a key exactly when the frame has that key |
| Frames.RightOnly | src/design_patterns/builder.py:87-89 | the right side's unmatched lines are kept, padded with nulls on the left |
| Frames.Merge | src/design_patterns/builder.py:87-89 | the outer join's labels are the left's then the right's; it holds every key of either side, and has at least the left's lines and at most both sides' lines |
| Frames.OuterJoinIds | src/design_patterns/builder.py:87-89 | the left-joined lines plus the right-only lines hold exactly the keys of both sides |
| Frames.MergeOuterJoin | src/design_patterns/builder.py:87-89 | the outer join keeps every key of either side, once each, and each line holds the cells of both sides or nulls for a missing side |
| Frames.MergeShaped | src/design_patterns/builder.py:87-89 | an outer join of rectangular frames is rectangular |
| Frames.FillNa | src/design_patterns/builder.py:104 | `fillna` keeps a non-null cell, otherwise takes the other one; the result is null only when both are |
| Frames.Coalesce | src/design_patterns/builder.py:103-105 | the merged name is one of the name cells, and is null exactly when every name cell is null |
| Frames.CoalesceFirst | src/design_patterns/builder.py:103-105 | merging name columns keeps the first non-null name |
| Frames.CoalesceSnoc | src/design_patterns/builder.py:104 | filling the running name from the next column extends the merge by that column |
| Frames.NameBeforeTotal | src/design_patterns/builder.py:109-111 | the name order, with nulls last, is total in both directions |
| Frames.SortByName | src/design_patterns/builder.py:109-111 | sorting by name gives a permutation in which adjacent lines are in name order, nulls last |
| Frames.Clean | src/design_patterns/builder.py:95-113 | with one name column nothing changes; otherwise one renamed name column holding each line's first non-null name, and the returned frame is a name-sorted permutation of it |
| Frames.FillFromNext | src/design_patterns/builder.py:104-105 | one fill-and-drop pass keeps the key and the metrics and removes one name column |
| Frames.CleanShaped | src/design_patterns/builder.py:95-113 | cleaning keeps a frame rectangular, and keeps its keys and their uniqueness |
| Builder.ReportBuilder.constructor | src/design_patterns/builder.py:25-29 | no DataFrame, no strategies, no sort key, ascending |
| Builder.ReportBuilder.SetDataframe | src/design_patterns/builder.py:31-36 | sets the DataFrame and changes nothing else |
| Builder.ReportBuilder.SetCombinedSorting | src/design_patterns/builder.py:38-45 | sets the key and the direction together and changes nothing else |
| Builder.ReportBuilder.AddReport | src/design_patterns/builder.py:47-56 | without a DataFrame it fails and registers nothing; otherwise it appends the strategy |
| Builder.ReportBuilder.CleanCombinedDf | src/design_patterns/builder.py:95-113 | the loop's result equals `Clean`: the frame left by the in-place edits, and the sorted frame returned |
| Builder.ReportBuilder.BuildAll | src/design_patterns/builder.py:58-93 | the loop's result equals `Build` on the builder's fields, and the builder is not changed |
| Builder.Advance | src/design_patterns/builder.py:75-91 | one loop pass stores the report under its class name and the combined frame under "CombinedReport", keeps every other entry, and appends the report's metric columns to the running combined frame; the first report, with its single name column, is itself the combined frame |
| Builder.ClassNameNotCombined | src/design_patterns/builder.py:75-91 | no strategy's report is stored under the key "CombinedReport" |
| Builder.RunOutcome | src/design_patterns/builder.py:74-82 | the loop succeeds exactly when every strategy does, and otherwise fails with the error of the first strategy that fails |
| Builder.ReportFrameHolds | src/design_patterns/builder.py:84-85 | the first report, taken as the combined frame, holds the expected lines |
| Builder.PublishedHolds | src/design_patterns/builder.py:109-111 | the stored combined frame holds the expected lines, sorted by name once a join took place |
| Builder.JoinedRowSame | src/design_patterns/builder.py:87-89 | joining two frames with the same keys and names gives each line the name twice and both sides' values |
| Builder.JoinNextRows | src/design_patterns/builder.py:87-89 | joining the next report onto the combined frame keeps every employee once and adds that strategy's column |
| Builder.CleanJoined | src/design_patterns/builder.py:91 | cleaning the join leaves one name column and the expected lines, and stores the sorted frame |
| Builder.EntriesNext | src/design_patterns/builder.py:82-91 | storing a strategy's report, and then the combined one, keeps every earlier report under its class name |
| Builder.AdvanceFirst | src/design_patterns/builder.py:82-91 | after the first strategy, the invariant holds |
| Builder.AdvanceNext | src/design_patterns/builder.py:82-91 | every later strategy keeps the invariant |
| Builder.AdvancingPreserves | src/design_patterns/builder.py:74-91 | the loop body keeps the invariant, whichever strategy comes next |
| Builder.RunAccumulated | src/design_patterns/builder.py:74-91 | the invariant holds after the whole loop |
| Builder.ReportsUniform | src/design_patterns/strategy.py:36-118 | every strategy that succeeds lists the table's employees once each, with their first-seen names |
| Builder.Build | src/design_patterns/builder.py:68-82 | no DataFrame or no strategies gives the ValueError; otherwise build_all succeeds exactly when every strategy does, and fails with the first strategy's error |
| Builder.DefaultKeyFails | src/design_patterns/builder.py:77-81 | with the default sort key None, build_all always fails, with the None-key KeyError when the first strategy's columns are present |
| Builder.BuildAccumulated | src/design_patterns/builder.py:58-93 | a successful build_all satisfies the invariant for all its strategies |
| Builder.BuildEntries | src/design_patterns/builder.py:71-93 | the result holds each strategy's report under its class name plus "CombinedReport", and no other key |
| Builder.BuildCombined | src/design_patterns/builder.py:84-113 | the combined report: IDVendedor, one name column, one metric column per strategy in order, one line per employee with their first-seen name and every strategy's value; sorted by name after a join, and the single report itself otherwise |
| Builder.CombinedAgreesWithReports | src/design_patterns/builder.py:82-91 | each cell of the combined report equals the value the matching strategy's own report gives that employee, and the name equals that report's name |
| Builder.AllClassNames | tests/test_builder.py:56-58 | the three strategies and "CombinedReport" are four different keys |
| Builder.ThreeStrategiesFourEntries | tests/test_builder.py:63 | building the three strategies gives exactly four reports |
| Products.Discounted | src/models/product.py:35-36 | a 0% discount keeps the price, a 100% discount makes it 0, and a valid discount on a non-negative price gives a price between 0 and the old price |
| Products.DiscountsCommute | src/models/product.py:36 | two successive discounts give the same price in either order |
| Products.TenPercentOffThousand | tests/test_product.py:5-10 | 1000 at 10% off is 900 |
| Products.Product.constructor | src/models/product.py:2-22 | stores every argument unchanged, the price without the non-negativity check |
| Products.Product.SetPrice | src/models/product.py:28-32 | a negative price raises "Price cannot be negative" and keeps the old price; any other value is stored as given |
| Products.Product.ApplyDiscount | src/models/product.py:34-38 | a percentage in 0..100 multiplies the price by 1 - p/100; any other raises "Discount percentage must be between 0 and 100" and keeps the price; a non-negative price stays non-negative |
| Products.Product.IsExpired | src/models/product.py:40-43 | negative days raise "Days passed cannot be negative"; otherwise it gives a value and changes nothing |
| Products.ExpiredStays | src/models/product.py:43 | once expired, a product stays expired on every later day |
| Products.ExpiryDay | src/models/product.py:43 | from day 0 on, a product is expired exactly when the days passed reach its vitality days |
| Factory.Fetch | src/design_patterns/factory.py:78-88 | the cells of the labels in order exactly when all labels are present; otherwise a KeyError for the first missing label |
| Factory.FetchLocal | src/design_patterns/factory.py:78-88 | the lookups depend only on the listed labels |
| Factory.FetchZip | src/design_patterns/factory.py:78-88 | looking distinct labels up in a row that holds them, next to any other columns, gives back their cells in order |
| Factory.SalesSummaryFromSeries | src/design_patterns/factory.py:77-88 | succeeds exactly when the nine labels are present, with each field equal to its cell; otherwise a KeyError for the first missing label |
| Factory.CustomerLocationFromSeries | src/design_patterns/factory.py:145-154 | succeeds exactly when the seven labels are present, with each field equal to its cell; otherwise a KeyError for the first missing label |
| Factory.SalesSummaryRoundTrip | src/design_patterns/factory.py:54-88 | reading a summary back from its own row, with any extra columns, gives the same summary |
| Factory.CustomerLocationRoundTrip | src/design_patterns/factory.py:126-154 | reading a customer back from its own row, with any extra columns, gives the same record |
| Factory.SalesSummaryLocal | src/design_patterns/factory.py:78-88 | columns other than the nine listed ones never change the outcome |
| Factory.CustomerLocationLocal | src/design_patterns/factory.py:146-154 | columns other than the seven listed ones, a state column among them, never change the outcome |
| Factory.MissingMiddleInitial | tests/test_factory.py:84-97 | a customer row with only CustomerID, FirstName and LastName raises a KeyError for MiddleInitial |

## Left out

- **pandas internals.** The index, dtypes, `reset_index` and the row numbers are not modelled. The model keeps the key column and the cells.
- Strategies.GenerateReport: pandas adds `_x`/`_y` suffixes to duplicate column labels. The model tracks name columns by role instead, and gives the metric columns the labels in build order.
- Strategies.Groups: `groupby` sorts its keys; the model lists each id at its last occurrence in the table (`[1, 2, 1]` gives `[2, 1]`). The sort that follows makes the two orders give the same claims.
- Frames.Merge: pandas sorts the keys of an outer join. The model puts the left side's lines first and then the right side's unmatched lines. No claim depends on the order of an unsorted join.
- Builder.Build: pandas 2.x refuses an outer join whose `_x`/`_y` suffixes would repeat an existing column label (MergeError). That happens when the same strategy class is registered four times: the fourth join would rename its metric column to a `_x` label the frame already has. The model has no such error and lets that build succeed.
- Frames.Merge: the same MergeError is not modelled; the join is defined for any two frames.
- Builder.Build: a Python dict keeps insertion order, so "CombinedReport" comes after the first strategy's entry. The model's result is a map and says nothing about the order of its keys.
- Builder.ReportBuilder.SetCombinedSorting: `ascending` defaults to `True` in the source; the model always takes it as an argument.
- Sorting.Sort: `sort_values` does not promise a stable order. The model sorts by insertion and claims only a permutation with every adjacent pair in order. Nothing is said about the order of ties.
- **Floating point.** Prices, means and discounts are exact reals. `.round(2)` is rounding half to even on exact values, not on binary floats.
- **Null input cells.** A null EmployeeID, EmployeeName or TotalPrice in the input table is not modelled. A null ProductID is, because the count report skips it.
- **Dynamic typing.** The sort key is a column label. Passing arbitrary Python objects as the key, prices or percentages is not modelled.
- **Method chaining.** The builder's setters return `self`. The model's methods change the object and return nothing, or an Outcome for the ValueError.
- **Exceptions.** Raised exceptions become `Failure`/`Fail` values. The model covers the ValueErrors of the builder and of Product, and the KeyErrors of the strategies and factories.
- **The strategies' default `ascending=True`.** Every caller in the core passes the direction, so the model takes it as a parameter.
- Builder.ReportBuilder.BuildAll: the builder accepts only the three strategies of the repository, not an arbitrary `ReportStrategy` subclass.
- **The logger.** `src/utils/logger.py` is imported by the builder but never called in the modelled code. It is not part of this model.
- **Other modules.** The database singleton, the SQL queries and the entity classes (customer, employee, city, country, sale, category) are not part of this model. They are I/O, or data holders outside the core.
