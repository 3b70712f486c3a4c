# Salary Register Summary and payroll summary by component

This project models two pieces of the `ramasri_hrms` Frappe app in Dafny and proves what they promise:

* **The Salary Register Summary report** (`execute` and its helpers).
  * It selects salary slips by the user's filters.
  * It splits the salary components on those slips into earning and deduction types, each list sorted.
  * It sums the salary-detail amounts per slip and component. When the report currency is the company currency, each amount is converted by the slip's exchange rate.
  * It emits one header row per slip, then rows pairing the i-th largest earning with the i-th largest deduction.
  * It widens the Department and Designation columns when a slip has them.
  * It adds up the figures of the summary card: gross and net pay, social security, income tax, student-loan repayments and penalty deductions.
* **`get_payroll_summary_by_component`**.
  * It picks a payroll entry: the given one, or the `prev`-th most recent earlier, non-cancelled one.
  * It builds the entry's header (posting date, Thai month name, Buddhist-Era year).
  * It builds the `earnings` and `deductions` dictionaries: each component holds its amount, and `total` holds the section's running sum.

## Modelling choices

* Every database query is replaced by its result:
  * the Salary Slip, Salary Detail and Payroll Entry tables are sequences;
  * a component's type is a function;
  * the employees' dates of joining are a map;
  * the aggregated rows of the payroll query are a function of the entry's name.
* Queries without an `ORDER BY` return rows in table order. `SELECT DISTINCT` keeps the first appearance.
* `order_by="start_date desc"` is a stable sort, most recent first.
* Errors Python would raise are values of a `Result` type:
  * `KeyError` for an unknown status name, for a component type other than Earning or Deduction, and for a row whose section is not `earnings` or `deductions`;
  * `TypeError` for sorting two or more pairs when one amount is `None`, and for adding a missing tallied deduction to a card total.
* Python's truthiness of a filter value is the predicate `Given`.
* Python's string order is the lexicographic order on code points. `sorted` is an insertion sort, proved sorted and a permutation.
* Dictionaries whose key order shows in the output are sequences of items in insertion order. Assigning to an existing key keeps its place.
* Amounts are mathematical reals. A `NULL` exchange rate is `0.0`, as `flt(None)` is 0.
* The per-slip and per-row loops are methods with loop invariants. Each is proved equal to a function, and the properties are lemmas about those functions. The report's columns are an array, updated in place as `update_column_width` does.

## Model

| member | source | states |
|---|---|---|
| SalaryRegister.DocStatusCode | ramasri_hrms/ramasri_hrms/report/salary_register_summary/salary_register_summary.py:245-250 | only Draft, Submitted and Cancelled are known statuses, with codes 0, 1 and 2; any other name is a `KeyError` |
| SalaryRegister.SelectSlips | ramasri_hrms/ramasri_hrms/report/salary_register_summary/salary_register_summary.py:244-269 | fails exactly on an unknown status filter; otherwise a slip is selected iff it is in the table and passes every filter the user gave, the currency filter only when it differs from the company currency |
| SalaryRegister.SalaryComponents | ramasri_hrms/ramasri_hrms/report/salary_register_summary/salary_register_summary.py:231-237 | the components listed are distinct, and are exactly those on a detail row of a selected slip |
| SalaryRegister.GetEarningAndDeductionTypes | ramasri_hrms/ramasri_hrms/report/salary_register_summary/salary_register_summary.py:115-124 | the loop over components, with its early `KeyError`, returns what the specification function of the two sorted lists returns |
| SalaryRegisterProperties.SplitByTypeParts | ramasri_hrms/ramasri_hrms/report/salary_register_summary/salary_register_summary.py:118-120 | the split fails iff some component has an unknown type; otherwise each list holds exactly the components of its type, and together they hold every component as often as it was listed |
| SalaryRegisterProperties.TypesPartition | ramasri_hrms/ramasri_hrms/report/salary_register_summary/salary_register_summary.py:115-124 | the same as SplitByTypeParts for the returned lists, which are also in ascending order |
| SalaryRegisterProperties.TypesDistinct | ramasri_hrms/ramasri_hrms/report/salary_register_summary/salary_register_summary.py:115-124 | distinct components give earning and deduction lists without repeats |
| Ordering.SortAscSorted | ramasri_hrms/ramasri_hrms/report/salary_register_summary/salary_register_summary.py:122-124 | `sorted` of strings gives an ascending permutation of its input |
| SalaryRegister.JoinDetails | ramasri_hrms/ramasri_hrms/report/salary_register_summary/salary_register_summary.py:281-292 | one joined row per detail row of the requested table whose parent is a selected slip, in table order, each carrying that detail's parent, component and amount and its slip's exchange rate; every joined row belongs to a selected slip |
| SalaryRegister.GetSalarySlipDetails | ramasri_hrms/ramasri_hrms/report/salary_register_summary/salary_register_summary.py:294-305 | the `setdefault`/`+=` loop builds the map its specification function describes |
| SalaryRegister.DetailMapSums | ramasri_hrms/ramasri_hrms/report/salary_register_summary/salary_register_summary.py:294-305 | that map holds, for exactly the slip/component pairs that occur, the sum of their converted amounts (amount times the exchange rate, or 1 when the rate is 0, when converting) |
| SalaryRegister.GetColumns | ramasri_hrms/ramasri_hrms/report/salary_register_summary/salary_register_summary.py:133-228 | fourteen columns; Department (index 4) and Designation (index 5) start at width -1 |
| SalaryRegister.UpdateColumnWidth | ramasri_hrms/ramasri_hrms/report/salary_register_summary/salary_register_summary.py:127-131 | the column array afterwards is the old one with Department and/or Designation widened to 120 when the slip has one |
| SalaryRegisterProperties.ColumnWidths | ramasri_hrms/ramasri_hrms/report/salary_register_summary/salary_register_summary.py:127-131 | after all slips, column 4 is widened iff some slip has a department, column 5 iff some slip has a designation; no other column changes |
| SalaryRegisterProperties.ReportColumnWidths | ramasri_hrms/ramasri_hrms/report/salary_register_summary/salary_register_summary.py:60 | the report's Department and Designation widths end as 120 if some slip has one and -1 otherwise; the other twelve columns are as `get_columns` made them |
| SalaryRegister.PreparePairs | ramasri_hrms/ramasri_hrms/report/salary_register_summary/salary_register_summary.py:82-90 | the loop to `max(len(earning_types), len(ded_types))` lists each type with the slip's amount (`None` if absent), in type order |
| SalaryRegister.SortByAmount | ramasri_hrms/ramasri_hrms/report/salary_register_summary/salary_register_summary.py:91-92 | fails with `TypeError` iff there are two or more pairs and one lacks an amount; otherwise a permutation of the pairs, largest amount first |
| SalaryRegister.TallyDeduction | ramasri_hrms/ramasri_hrms/report/salary_register_summary/salary_register_summary.py:100-108 | the chain of `if`s adds a deduction to exactly the card total its component names |
| SalaryRegister.EmitLines | ramasri_hrms/ramasri_hrms/report/salary_register_summary/salary_register_summary.py:94-109 | the line-row loop appends the slip's line rows and the tallied deductions, or fails with `TypeError` when a tallied deduction has no amount |
| SalaryRegister.AppendSlip | ramasri_hrms/ramasri_hrms/report/salary_register_summary/salary_register_summary.py:47-109 | one iteration of the slip loop appends exactly the slip's block and adds its totals, or fails as the slip's block does |
| SalaryRegister.SlipLoop | ramasri_hrms/ramasri_hrms/report/salary_register_summary/salary_register_summary.py:46-109 | the slip loop yields the rows and totals of all slips, or the first slip's error; on success the columns are widened by every slip |
| SalaryRegisterProperties.SlipBlockSucceeds | ramasri_hrms/ramasri_hrms/report/salary_register_summary/salary_register_summary.py:86-108 | a slip's rows can be built iff neither sort meets a missing amount in a list of two or more and no tallied deduction is missing; the only error is `TypeError` |
| SalaryRegisterProperties.SlipBlockShape | ramasri_hrms/ramasri_hrms/report/salary_register_summary/salary_register_summary.py:46-99 | a slip's block has the header (indent 0) and `max` line rows (indent 1); line i shows an earning iff i < the number of earning types, likewise for deductions; the shown earnings and deductions are permutations of the slip's pairs, largest first |
| SalaryRegisterProperties.BlocksSucceed | ramasri_hrms/ramasri_hrms/report/salary_register_summary/salary_register_summary.py:46-109 | the loop over slips succeeds iff every slip's block can be built |
| SalaryRegisterProperties.BlocksLayout | ramasri_hrms/ramasri_hrms/report/salary_register_summary/salary_register_summary.py:46-109 | the data is the slips' blocks in slip order, each block `1 + max(...)` rows, `|slips|` times that in all |
| SalaryRegisterProperties.FlattenSlots | ramasri_hrms/ramasri_hrms/report/salary_register_summary/salary_register_summary.py:46-109 | in blocks of equal width w, slip k's rows sit at positions k*w up to k*w+w |
| SalaryRegisterProperties.SlipTotals | ramasri_hrms/ramasri_hrms/report/salary_register_summary/salary_register_summary.py:76-108 | what a slip adds to the card is its header's gross and net pay and its own social-security, tax, student-loan and penalty amounts, whatever order its deductions were sorted into |
| SalaryRegisterProperties.CategorySumSorted | ramasri_hrms/ramasri_hrms/report/salary_register_summary/salary_register_summary.py:92-108 | sorting the deductions does not change any card category's sum |
| SalaryRegisterProperties.CardTotals | ramasri_hrms/ramasri_hrms/report/salary_register_summary/salary_register_summary.py:39-108 | the card totals are the per-slip figures added up over all slips |
| SalaryRegister.Message | ramasri_hrms/ramasri_hrms/report/salary_register_summary/salary_register_summary.py:365-376 | the amount to be paid is gross minus penalties, then social security, then their sum; the payouts are net pay, twice social security, tax, student loan, then their sum |
| SalaryRegister.BuildReport | ramasri_hrms/ramasri_hrms/report/salary_register_summary/salary_register_summary.py:29-112 | building the columns array, both detail maps and the slip loop gives the report its specification function describes |
| SalaryRegister.Execute | ramasri_hrms/ramasri_hrms/report/salary_register_summary/salary_register_summary.py:16-112 | `execute` returns what the report's specification function returns, including the empty report and every error |
| SalaryRegisterProperties.ReportShape | ramasri_hrms/ramasri_hrms/report/salary_register_summary/salary_register_summary.py:16-112 | no matching slip gives an empty report; otherwise: the widened columns; the data is every slip's block in order, `|slips| * (1 + max)` rows; the card shows the slips' figures summed |
| PayrollSummary.PutSpec | ramasri_hrms/utils.py:51 | after `d[k] = v`, k maps to v, other keys keep their values, an existing key keeps its place and a new key goes last |
| PayrollSummary.ListingFacts | ramasri_hrms/utils.py:15-24 | the listing is sorted by start date, most recent first, and holds exactly the non-cancelled entries that started before the given one |
| PayrollSummary.Slice | ramasri_hrms/utils.py:25 | Python slicing clamps to the length: in-range bounds give the subsequence, an end past the length gives the suffix from the start, and a start past the end or past the length gives the empty list |
| PayrollSummary.PreviousEntryAt | ramasri_hrms/utils.py:25-27 | `prev_docs[prev-1:prev]` is the prev-th entry of the listing when there are that many, and none otherwise |
| PayrollSummary.PreviousEntryIsKth | ramasri_hrms/utils.py:14-28 | there is no previous entry iff fewer than `prev` earlier entries exist; otherwise it is the prev-th of the sorted listing, in the table and eligible |
| PayrollSummary.MonthName | ramasri_hrms/utils.py:48 | month m gives the m-th entry of the Thai month list, one of the twelve names and never the placeholder; January is มกราคม and December ธันวาคม |
| PayrollSummary.MonthNameInjective | ramasri_hrms/utils.py:48 | different months give different names |
| PayrollSummary.BuddhistYear | ramasri_hrms/utils.py:49 | the Buddhist-Era year is 543 years ahead |
| PayrollSummary.AddRow | ramasri_hrms/utils.py:51-52 | a component other than `total` gets the row's amount and `total` grows by it; a component named `total` doubles the amount; other keys are unchanged |
| PayrollSummary.SummaryOf | ramasri_hrms/utils.py:41-46 | without rows the result is the skeleton: no date, month or year, and both sections `{"total": 0}` |
| PayrollSummary.Summarise | ramasri_hrms/utils.py:41-53 | the header and the loop over rows, with its early `KeyError`, give the summary its specification function describes |
| PayrollSummary.GetPayrollSummaryByComponent | ramasri_hrms/utils.py:4-53 | the whole function returns what its specification function returns, including `{}` when there is no previous entry |
| PayrollSummaryProperties.SectionsFail | ramasri_hrms/utils.py:50-52 | the loop fails iff some row's section is neither `earnings` nor `deductions` |
| PayrollSummaryProperties.SectionsFirstError | ramasri_hrms/utils.py:50-52 | the error is the `KeyError` of the first such row (`total` for the header section) |
| PayrollSummaryProperties.SectionsBySection | ramasri_hrms/utils.py:50-52 | each section is built from its own rows alone, in row order |
| PayrollSummaryProperties.TotalIsSum | ramasri_hrms/utils.py:52 | with no component named `total`, a section's `total` is the sum of its amounts |
| PayrollSummaryProperties.LastAmountWins | ramasri_hrms/utils.py:51 | a component holds the amount of its last row, and is absent when no row names it |
| PayrollSummaryProperties.SectionLayout | ramasri_hrms/utils.py:41-52 | with distinct components, none named `total`, a section is `total` (the sum) followed by one item per row in row order |
| PayrollSummaryProperties.SectionOrder | ramasri_hrms/utils.py:39-52 | rows ordered by amount, largest first, give a section whose components follow `total` in that order |
| PayrollSummaryProperties.SummaryContents | ramasri_hrms/utils.py:41-53 | the summary carries the entry's name; without rows it is the skeleton; otherwise the posting date, the month name and the Buddhist year come from the first row; each section's total is its sum and each component its last amount |
| PayrollSummaryProperties.SummarisedEntry | ramasri_hrms/utils.py:14-40 | `prev = 0` summarises the given entry; otherwise the result is `{}` iff fewer than `prev` earlier entries exist, and else it is the summary of the prev-th most recent one |

## Left out

- Database access, `frappe.get_doc` and `erpnext.get_company_currency` are inputs. The query for the payroll rows is given already aggregated and ordered by section and amount. Its grouping and its join over slips are not modelled.
- Ties in `ORDER BY start_date desc` and in the amount order are left to the database. The model breaks them by table order (a stable sort), so among entries with equal start dates the entry that PreviousEntryIsKth and SummarisedEntry identify is the model's choice, which the database need not share.
- `get_employee_doj_map` is the `dateOfJoining` map.
- `get_salary_component_type` is the `typeOf` function.
- Translation (`_()`) is left out. The type names are compared untranslated.
- `frappe.format` is left out, and so are the HTML text of the card, the page script and `strftime`. The card is its eight figures, and the posting date is kept as a date.
- `flt` rounding is left out; amounts are mathematical reals. `None` gross pay, net pay or deduction totals on a slip are not modelled: they are reals.
- A detail row's exchange rate comes from the first slip with its name (`RateOf`). Slip names are unique in the database, so no other slip exists.
- GetPayrollSummaryByComponent: a row whose section is `payroll_entry` always fails with `KeyError("total")`. Python would not fail when that row's component is itself named `total`.
- GetPayrollSummaryByComponent: `prev` is a natural number. The caller passes a month count, and a negative `prev` is not modelled.
- TotalIsSum: requires that no component is named `total`. Such a component overwrites the running sum, and AddRow states what then happens.
- SectionLayout: requires that no component is named `total`. It also requires each component once per section, as the `GROUP BY` makes them.
- SectionOrder: has the same two requirements as SectionLayout.
- SortByAmount: states sortedness and permutation, not how equal amounts are ordered. Python's sort is stable, and the model's sort is too.
- SelectSlips: states which slips are selected, not their order. The model keeps table order.
- BlocksLayout: states the data as the slips' blocks one after another. The position of each block is stated by FlattenSlots.
- SlipTotals: requires distinct deduction types. TypesDistinct proves that the report's own types are distinct.
- CardTotals: requires distinct deduction types, for the same reason as SlipTotals.
