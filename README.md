# Expense tracker: receipt parser, expense store, statistics, budgets and users

This project models the logic of a small Streamlit expense tracker and proves
properties of that model. It covers:

- **The receipt parser** `parse_extracted_text` (main.py). It takes the OCR text of a receipt.
  - The date is the first `dd/dd/dd` anywhere in the text, read as `MM/DD/YY`.
  - It splits the text into lines and strips each one.
  - It stays silent until a line starts with `ITEM`.
  - After that, each line may give one item description (regex `^(\d+)\s+(.+?)\s+\d+`) and one amount (the first `$<digits>.<two digits>`).
- **The expense table** `expense_data` (main.py):
  - `add_expense`;
  - the receipt import rule of the "Upload Receipt" page;
  - the category rename and delete of the "Manage Categories" page.
- **The statistics** of `calculate_expense_statistics`: the monthly and yearly amount sums.
- **The budget page**:
  - `suggest_budget`, which is 110% of the mean recent spending of a category;
  - the per-category budget usage in percent.
- **The user store** of auth.py: `register_user` and `authenticate_user`.

Amounts are integer cents throughout. The parser turns `$12.34` into 1234. Budgets, the suggestion and the usage are reals in cents and percent.

The code is organised by module:

| module | file | contents |
|---|---|---|
| `Options` | options.dfy | `Option` and `Result` |
| `Text` | text.dfy | character classes, `strip`, `split('\n')` |
| `Dates` | dates.dfy | calendar dates, `%y` year expansion |
| `ReceiptParser` | receipt_parser.dfy | the date, the two regexes, the line scan |
| `Expenses` | expenses.dfy | the records, selections, rename and delete, the `ExpenseStore` class, the receipt upload |
| `Statistics` | statistics.dfy | monthly and yearly group sums |
| `Budget` | budget.dfy | the suggestion and the usage |
| `Auth` | auth.dfy | the `UserStore` class and its lemmas |

Where the code changes state step by step, the model is imperative:

- **`ReceiptParser.ParseExtractedText`** is a loop over the lines. It updates `inItemList`, `descriptions` and `amounts`, and it is proved equal to the function `ParsedReceipt`.
- **`Expenses.ExpenseStore`** holds the table as a field. Its methods append to it, rename in it and filter it.
- **`Auth.UserStore`** holds the user list:
  - its registration scans the list and then appends;
  - its login scans the list and changes nothing.

The password hash is a function value that the store is given. Nothing is assumed about it except that it is a function.

## Model

| member | source | states |
|---|---|---|
| Text.Split | main.py:141 | `split('\n')` gives at least one piece; no piece contains a newline; joining the pieces with newlines gives back the text |
| Text.SplitCount | main.py:141 | there is one more line than there are newlines in the text |
| Text.StripSpec | main.py:144 | `strip()` returns the part between a whitespace prefix and a whitespace suffix, and that part neither starts nor ends with whitespace |
| Dates.DaysInMonth | main.py:138 | months have 28 to 31 days; February has 29 exactly in leap years |
| Dates.ExpandYear | main.py:138 | `%y` reads 00-68 as 2000-2068 and 69-99 as 1969-1999, keeping the last two digits |
| ReceiptParser.FindDatePattern | main.py:135 | returns the leftmost position where `\d{2}/\d{2}/\d{2}` matches, or none when no position matches |
| ReceiptParser.ParseMonthDayYear | main.py:138 | `strptime('%m/%d/%y')` succeeds exactly when month, day and expanded year form a valid calendar date; the date's fields come from the text; otherwise the error carries the eight matched characters |
| ReceiptParser.ExtractDate | main.py:134-138 | the date is `None` exactly when no `dd/dd/dd` occurs; otherwise the result is the parse of the leftmost occurrence, including its error |
| ReceiptParser.RunSpec | main.py:153 | the greedy run of digits or whitespace: all characters in it belong to the class and the next one does not |
| ReceiptParser.TryStarts | main.py:153 | the backtracking over the width of `\s+`: the chosen start is the last one from which `.+?` can end, and `.+?` stops at its first possible end |
| ReceiptParser.DescriptionSpanUnique | main.py:153-156 | the description regex has at most one match span on a line |
| ReceiptParser.ItemDescriptionSound | main.py:153-156 | whatever `ItemDescription` returns is a match of `^(\d+)\s+(.+?)\s+\d+`, group 2 |
| ReceiptParser.ItemDescriptionComplete | main.py:153-156 | whenever the regex matches, `ItemDescription` returns exactly that group 2 |
| ReceiptParser.ItemDescriptionIsRegexMatch | main.py:153-156 | a description is returned if and only if the regex yields it |
| ReceiptParser.ItemDescription | main.py:153-156 | the description of one line: group 2 of the first match of `^(\d+)\s+(.+?)\s+\d+`, or none; its contract is carried by `ItemDescriptionSound`, `ItemDescriptionComplete` and `ItemDescriptionIsRegexMatch` |
| ReceiptParser.DollarAmountDigits | main.py:159 | the integer part of an amount match is the whole digit run after `$` |
| ReceiptParser.FindAmount | main.py:159 | the leftmost match of `\$\d+\.\d{2}`, or none when nothing matches |
| ReceiptParser.ItemAmount | main.py:159-162 | the amount of one line: the first `$d.dd` match read in cents, or none; its contract is carried by `DollarAmountDigits` and `ItemAmountIsRegexMatch` |
| ReceiptParser.ItemAmountIsRegexMatch | main.py:159-162 | an amount is returned if and only if the regex's first match gives it, read as integer part × 100 + the two decimals |
| ReceiptParser.Step | main.py:144-162 | one loop turn: a marker line only switches the item list on; before the first marker nothing is added; after it at most one description and one amount are appended at the end |
| ReceiptParser.Scan | main.py:141-162 | the loop over the stripped lines as a function of its start state; its contract is carried by `ScanAppend`, `InItemListIffMarker`, `NoMarkerNoItems`, `FirstMarker`, `ScanGrows`, `ItemCountBound`, `ScanDescriptions` and `ScanAmounts` |
| ReceiptParser.ParsedReceipt | main.py:129-164 | the parser's result: the `strptime` error if it raises, else the date and the lists of `Scan` over `split('\n')`; `ParseExtractedText` is proved to compute it |
| ReceiptParser.ParseExtractedText | main.py:129-164 | the loop computes exactly `ParsedReceipt`: the date error if `strptime` raises, else the date and the lists of the line scan |
| ReceiptParser.ScanAppend | main.py:143-162 | scanning two blocks of lines is scanning the first and then the second |
| ReceiptParser.InItemListIffMarker | main.py:147-149 | the item list is on after the scan exactly when some stripped line starts with `ITEM` |
| ReceiptParser.NoMarkerNoItems | main.py:141-151 | without an `ITEM` line both lists stay empty |
| ReceiptParser.FirstMarker | main.py:146-151 | lines up to and including the first `ITEM` line contribute nothing |
| ReceiptParser.ScanGrows | main.py:151-162 | the lists only grow at the end, by at most one entry per line, and the item list is never switched off |
| ReceiptParser.ItemCountBound | main.py:151-162 | each list is no longer than the number of lines after the first `ITEM` line |
| ReceiptParser.ScanDescriptions | main.py:143-156 | a description is in the result exactly when some line after a marker, not itself a marker, yields it |
| ReceiptParser.ScanAmounts | main.py:143-162 | an amount is in the result exactly when some line after a marker, not itself a marker, yields it |
| Expenses.TotalAppend | main.py:50 | appending records adds their total to the total |
| Expenses.WhereContents | main.py:269 | a selection, such as the delete's `category != selected`, keeps every accepted record as often as it occurred and drops every other record |
| Expenses.WhereAppend | main.py:269 | a selection keeps the records in their original order |
| Expenses.Without | main.py:269 | the table after a delete: the records of other categories, in order; its contract is carried by `WhereContents`, `WhereAppend` and `TotalWithout` |
| Expenses.TotalWithout | main.py:269 | after a delete the total drops by exactly the deleted category's total |
| Expenses.Renamed | main.py:262 | a rename keeps length and order, changes the category of exactly the records of the selected category, and leaves all other fields alone |
| Expenses.TotalRenamed | main.py:262 | a rename leaves the total amount unchanged |
| Expenses.CategoriesRenamed | main.py:262 | after renaming a category in use, the categories are the old ones minus the selected one, plus the new name |
| Expenses.ReceiptRecords | main.py:236-237 | `zip` gives min(descriptions, amounts) records, paired by position, each in "Groceries" on the receipt date |
| Expenses.ExpenseStore.constructor | main.py:39 | the store starts with the loaded table |
| Expenses.ExpenseStore.AddExpense | main.py:47-50 | one record is appended at the end; earlier records are unchanged |
| Expenses.ExpenseStore.RenameCategory | main.py:259-262 | an empty new name changes nothing; otherwise the table becomes its rename |
| Expenses.ExpenseStore.DeleteCategory | main.py:269 | the table becomes the records whose category differs from the selected one |
| Expenses.ExpenseStore.ImportItems | main.py:235-237 | imports exactly when descriptions, amounts and date are all non-empty; the table then grows at the end by the `zip` records; otherwise it is unchanged |
| Expenses.UploadReceipt | main.py:234-237 | the table grows by the parsed receipt's records exactly when the parse succeeds with descriptions, amounts and a date; otherwise it is unchanged |
| Statistics.MonthKeyOrder | main.py:59 | the integer month key orders and identifies dates exactly as the pair (year, month) does |
| Statistics.GroupKeys | main.py:59 | the group keys are strictly ascending, and a key is listed exactly when some record has it |
| Statistics.TotalsFor | main.py:59 | the i-th sum is the amount total of the records with the i-th key |
| Statistics.MonthlyExpenses | main.py:59 | one sum per monthly key that occurs, in ascending key order, each the total of its group; `GroupSumsByKey` and `MonthlyGroupIsYearMonth` say what the keys are |
| Statistics.YearlyExpenses | main.py:61 | one sum per year that occurs, in ascending order, each the total of that year's records |
| Statistics.GroupSumsByKey | main.py:59-61 | there is one sum per distinct key (year × 12 + month − 1, or year), in ascending key order, and each sum is its group's total |
| Statistics.MonthlyGroupIsYearMonth | main.py:59 | when every month number lies in 1-12, the monthly group of a key holds exactly the records of that (year, month), so the sums are one per distinct (year, month) |
| Statistics.GroupSumsAddUp | main.py:59-61 | the monthly sums, and likewise the yearly sums, add up to the total amount |
| Statistics.GroupSumsPermutation | main.py:59-61 | the statistics depend only on the multiset of records, not on the row order |
| Budget.RecentContents | main.py:106 | a record is recent exactly when it is of the category and dated on or after the start; there is no upper bound on the date |
| Budget.RecentAppend | main.py:106 | a new record joins the recent records exactly when it is of the category and not before the start, however late it is dated |
| Budget.SuggestBudget | main.py:100-112 | `suggest_budget` with the clock's start date as a parameter; its contract is carried by `SuggestBudgetNoneRecent`, `SuggestBudgetIsScaledMean`, `SuggestBudgetBounds` and `SuggestBudgetExample` |
| Budget.SuggestBudgetNoneRecent | main.py:107-110 | with no record of the category on or after the start, the suggestion is 0 |
| Budget.SuggestBudgetIsScaledMean | main.py:107-110 | otherwise the suggestion times the number of recent records equals 110% of their total |
| Budget.SuggestBudgetBounds | main.py:107-110 | the suggestion lies between 110% of the smallest and 110% of the largest recent amount |
| Budget.SuggestBudgetExample | main.py:100-112 | records of $100 and $50 in the window give a suggestion of $82.50 |
| Budget.BudgetUsage | main.py:87-91 | one usage entry as written: usage × budget = 100 × the category's spending in every month numbered like today's, whatever the year |
| Budget.CurrentMonthUsage | main.py:87-91 | one usage entry as intended: usage × budget = 100 × the category's spending in today's year and month |
| Budget.BudgetUsageAppend | main.py:87-91 | as written, an added record changes the usage only when it is of the category and of today's month number, in any year, and then adds its amount |
| Budget.BudgetUsageCountsOtherYears | main.py:87-91 | as written, a record of today's month number in any year adds its amount to the usage |
| Budget.BudgetUsageLastYearExample | main.py:87-91 | a $40 dinner from October 2023 shows as 40% of a $100 budget in October 2024, in the entry and in the as-written table; the current-month usage and the corrected table give 0% |
| Budget.CurrentMonthUsageAppend | main.py:87-91 | in the corrected usage, a record outside the current year and month leaves the usage unchanged; a record inside it adds its amount |
| Budget.UsageScale | main.py:91 | without a budget the default $1 makes the usage equal the spending in cents, as written and as intended |
| Budget.BudgetUsageTable | main.py:87-91 | `budget_usage` as written: exactly one entry per category in use, each the month-number usage `BudgetUsage` of that category |
| Budget.CurrentMonthUsageTable | main.py:87-91 | `budget_usage` as intended: exactly one entry per category in use, each the current-month usage of that category |
| Budget.SameSelection | main.py:87 | when every record of today's month number lies in today's year, the month-number filter keeps exactly the current month's records |
| Budget.TablesAgreeWithinOneYear | main.py:87-91 | under that condition the as-written table and the corrected table are equal, so they differ only through records of earlier or later years |
| Auth.Registered | auth.py:20-31 | the list `register_user` leaves: afterwards the username is always taken, the old list is a prefix, and at most one user was added |
| Auth.Authenticates | auth.py:33-44 | what a login accepts: some stored user of that name whose stored hash equals the password's hash; `AuthenticateUser` is proved to compute it and `AuthenticatesTheUser` narrows it to the one user of that name |
| Auth.RegisterPreservesDistinct | auth.py:20-31 | registration keeps all stored usernames distinct |
| Auth.RegisterThenAuthenticate | auth.py:27-41 | after a registration with a free username, logging in with the same password succeeds |
| Auth.RegisterRejectsOtherPassword | auth.py:33-44 | after registering a new user, a password with a different hash is refused |
| Auth.RegistrationKeepsOthers | auth.py:27-31 | registering one user does not change whether anyone else can log in |
| Auth.AuthenticatesTheUser | auth.py:33-44 | with distinct usernames, a login succeeds exactly when the password's hash equals the stored hash of the one user of that name |
| Auth.UserStore.constructor | auth.py:7-13 | the store starts with the loaded list and the given hash function |
| Auth.UserStore.RegisterUser | auth.py:20-31 | returns False and leaves the list unchanged when the username is taken; otherwise it appends exactly {username, hash(password), email} and returns True |
| Auth.UserStore.AuthenticateUser | auth.py:33-44 | returns True exactly when some stored user has that username and a stored hash equal to hash(password); an unknown username gives False; the list is only read |
| Auth.RegisterThenLogin | auth.py:20-44 | a registration followed by a login: registration succeeds exactly when the username was free, and then the login succeeds |

## Left out

- The Streamlit pages, forms, widgets, `st.*` output and charts (`plot_pie_chart`, plotly), because they are user interface only.
- OCR (`ocr_extraction`) and image handling, because they are foreign calls. The parser takes the text as a string.
- File persistence, because it is I/O:
  - `load_data`, the `to_csv` calls and the reload after an add;
  - the creation of users.json;
  - `load_users` and `save_users`.

  The stores are in-memory sequences, and the constructors take the loaded contents.
- `hash_password`'s SHA-256. It is a function value of the `UserStore` about which nothing is assumed.
- The weekly grouping (main.py:60), because it depends on pandas' ISO week numbering.
- `datetime.today()` and `pd.DateOffset(months=3)`, because they are clock reads and calendar arithmetic outside the logic. "Today" and the start date are parameters.
- Time of day: dates are calendar days, and `expense_data['Date'] >= start_date` is compared by day.
- Floating point. Parsed amounts become integer cents and the factor 1.1 becomes the real 11/10.
- Text.IsDigit: `\d` is taken as the ASCII digits only. Python also accepts other Unicode decimal digits.
- Budget.BudgetUsage, Budget.CurrentMonthUsage, Budget.BudgetUsageTable, Budget.CurrentMonthUsageTable: they require a non-zero budget. With a zero budget, main.py:91 divides by zero. Depending on the operand types, that either raises or yields an infinite ratio. The case is reachable without any user input. `suggest_budget` gives 0.0 for a category without recent records (main.py:110). That value is the budget field's default (main.py:73-74). For such a category with no spending in today's month number, main.py:91 then evaluates `0 / 0.0` and raises ZeroDivisionError.
- The "Add Category" branch (main.py:251-257). `replace(..., inplace=True)` returns `None`, so the assignment blanks the column. This is a defect, not a contract.
- The "All Expenses" search and date-range filter (main.py:202-221), because they are display filtering. pandas treats the search term as a regex.
- `current_user` and the diagnostic `print`s of auth.py, because they are logging only.
- data_maker.py, because it generates random sample data and writes a file.

In three places a reader might expect other behaviour than the code has. The model follows the code:

- One might expect a malformed date to leave the date unset, as when no date is found. Instead an invalid `MM/DD/YY` date (month 13, 31 February) makes `strptime` raise (main.py:137-138). The result is then an `Err`.
- The comment at main.py:101 speaks of spending "over the last few months". Yet `suggest_budget` has no upper bound on the date, so records dated after today count as recent (main.py:106).
- The comments at main.py:86 and main.py:90, and the page heading at main.py:93, speak of the current month. Yet the usage filter compares the month number only (main.py:87). See the finding below.

## Findings

| source | as written | input that shows it | evidently intended | confidence | as-written member | corrected member |
|---|---|---|---|---|---|---|
| main.py:87 | the "current month" usage keeps every record whose month number equals today's, in any year | a Dining record of $40 dated 2023-10-05, a Dining budget of $100, today 2024-10-16: the usage is 40% although nothing was spent in October 2024 | keep only the records of today's year and month, so the usage is 0% | not executed | Budget.BudgetUsageLastYearExample | Budget.CurrentMonthUsageAppend |

`Budget.BudgetUsage` models the filter as written, and `Budget.BudgetUsageCountsOtherYears` proves that it counts other years for every input. The as-written table `Budget.BudgetUsageTable` is built from it. `Budget.CurrentMonthUsage` filters by year and month, and the corrected table `Budget.CurrentMonthUsageTable` is built from it. `Budget.TablesAgreeWithinOneYear` shows that the two tables differ only when records from other years share today's month number.
