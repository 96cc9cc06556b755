# Sales and support report reconciliation, modelled in Dafny

The system reconciles four monthly exports about the same field agents:

- a sales report;
- a support-ticket performance report;
- an inspections report;
- a quality-audit report.

It then produces three tables:

- a **daily** matrix, one row per (agent, date);
- a **weekly** matrix, one row per (agent, week label);
- a per-agent **summary**.

All of it lives in `processor.py`. This project models that module:

- the date coercion `to_date` and the header clean-up `normalize_headers`;
- the e-mail mapping that turns a ticket assignee's full name into the address the other reports use;
- the four source adapters;
- the outer merge into the daily matrix;
- the weekly re-aggregation over seven-day blocks labelled in Spanish;
- the summary;
- the entry point `procesar_reportes`.

The modules follow the program's structure:

- **Text**: Python's `strip`, `lower`, `replace`, `split`, `str(int)`, and the numeric text `pd.to_numeric` reads.
- **Calendar**: `datetime.date`, `weekday`, `timedelta`.
- **Cells**: a cell is missing, text or a number; the pipeline's exceptions.
- **DateParse**: `to_date`.
- **Order**: Python's ordering of strings and tuples, and the sort behind `sort_values` and `groupby`.
- **Tables**: raw reports, `normalize_headers`, row selection, and `groupby(["agente","fecha"]).agg`.
- **Frames**: column-at-a-time assignment in the adapters.
- **Identity**: the e-mail mapping.
- **Ventas**, **Performance**, **Inspecciones**, **Auditorias**: the four adapters.
- **Daily**: the daily matrix.
- **Regroup**: re-aggregation of the daily matrix and the final "-" for missing averages.
- **Weekly**: the weekly matrix.
- **Summary**: the summary.
- **Pipeline**: the entry point.

## How the model maps the code

- Every crash the Python code can hit, except the two listed under "## Left out" (the OverflowError near year 9999, and the error pandas may raise assigning the product columns of an empty sales report), is an `Err` value, not a precondition:
  - a missing column is `KeyError`;
  - `s.split(sep)[2]` on a date with fewer than three parts is `IndexError`;
  - `.fillna` on the plain `0` that `df.get("Reopen", 0)` returns is `AttributeError`, and so is `mail.split` on a non-text e-mail.
- The pipeline stops at the first error, in the order of the calls.
- The entry point is specified by functions on values: `Pipeline.SalesTable`, `PerformanceTable`, `InspectionTable` and `AuditTable` give what each adapter yields, `Pipeline.AdapterTables` the four in call order, and `Pipeline.Outcome` what the run then returns (the adapters' error, KeyError on partial input, or the daily table of those tables with the weekly and summary tables derived from it). The methods that run the adapters are proved equal to these functions.
- The adapters' column-by-column assignments are functions over a frame of derived rows, assembled step by step. `Assemble*` and `SaleFrame` prove that the step-by-step frame is the row-by-row definition the contracts use.
- Loops the code runs over state are methods with loop invariants:
  - the merge loop and the zero-fill loop of `build_daily_matrix`;
  - the mapping loop of `build_email_mapping`;
  - the "-" loop over the rate columns.
- pandas' reductions are exact functions on unbounded reals. `sum` skips missing values; `mean` averages the numbers and is missing when there are none.
- Design points the proofs make explicit:
  - The weekly blocks are calendar weeks (`Weekly.BlocksAreWeeks`).
  - The labels do not carry the year, so the same week label five years apart sums two weeks together (`Weekly.LabelsRepeatAcrossYears`).
  - Weekly rows are ordered by agent and then by the label *as text*, not by date.
  - The weekly and summary averages are unweighted means of daily averages.
  - The summary has no ticket-count column.
  - The weekly and summary aggregations name all sixteen (resp. fifteen) metric columns. When some reports produced rows and another did not, the daily matrix lacks that adapter's columns, so `agg` raises `KeyError` and the whole run fails (`Pipeline.PartialInputFails`). The model keeps this behaviour.
  - A date such as `12/2025` makes `to_date` raise instead of returning None, because the third `split` part is indexed outside the `try` (`DateParse.ShortSlashRaises`). The model keeps this behaviour too.
- The weekly code sorts by `fecha` before grouping. The model does not represent that sort separately: `sum` and `mean` over exact reals do not depend on row order, and `groupby` re-sorts its keys.

## Model

| member | source | states |
|---|---|---|
| Text.Strip | processor.py:18 | `str.strip()`: the result has no leading or trailing whitespace (Python's `isspace` set), is unchanged when already stripped, and holds only characters of the input |
| Text.Lower | processor.py:89 | `str.lower()` on ASCII letters: same length, character by character lowered |
| Text.Replace | processor.py:57-61 | `str.replace` of one character: the pattern is gone unless the replacement holds it, nothing new appears, other characters survive |
| Text.CollapsePairs | processor.py:61 | `.replace("  ", " ")` never lengthens a label and adds no character |
| Text.Split | processor.py:21 | `str.split(c)`: at least one part, and no part holds the separator |
| Text.SplitCount | processor.py:28 | a split has one more part than the string has separators |
| Text.SplitHasSeparator | processor.py:35 | the separator occurs exactly when the split has two or more parts |
| Text.SplitJoin | processor.py:21 | joining the parts of a split with the separator gives the string back |
| Text.SplitThree | processor.py:21-37 | three separator-free pieces joined by the separator split back into those pieces |
| Text.LowerReplaceCommute | processor.py:89-98 | lowering and turning dots into spaces commute, so names and addresses are keyed alike despite the different order |
| Text.LowerIdempotent | processor.py:98 | lowering twice is lowering once |
| Text.CollapseSpaces | processor.py:61 | a run of n spaces becomes ceil(n/2) spaces |
| Text.DoubleSpaceBecomesOne | processor.py:61 | an isolated double space becomes one space |
| Text.CollapseNotIdempotent | processor.py:61 | the pass is not idempotent: four spaces become two |
| Text.NatToString | processor.py:313 | `str(day)`: non-empty decimal digits without a leading zero |
| Text.NatToStringValue | processor.py:313 | reading back the digits of `str(n)` gives n |
| Text.ParseDecimal | processor.py:123 | the text `pd.to_numeric` accepts is non-empty with at most one decimal point |
| Text.ParseDigits | processor.py:123 | a string of digits reads as its decimal value |
| Text.ParseNatToString | processor.py:123 | `str(n)` reads back as n |
| Calendar.Weekday | processor.py:301 | `date.weekday()` lies in 0..6 |
| Calendar.DayNumberOrder | processor.py:300 | Python's date order is the order of day numbers |
| Calendar.DayNumberInjective | processor.py:309 | distinct dates have distinct day numbers |
| Calendar.NextDay | processor.py:312 | the next day has the next day number |
| Calendar.PrevDay | processor.py:301 | the previous day has the previous day number |
| Calendar.Shift | processor.py:311-312 | `d + timedelta(days=n)` moves the day number by exactly n |
| Calendar.ShiftAdd | processor.py:311-312 | shifting by n and then m is shifting by n + m |
| Calendar.WeekdayShift | processor.py:301 | each day advances the weekday by one, modulo seven |
| Cells.ToNumeric | processor.py:123 | `to_numeric(errors="coerce")`: numbers stay, missing stays missing, text becomes a number exactly when it reads as one, and then the number it reads as |
| Cells.FillZero | processor.py:280 | `fillna(0)`: a missing cell becomes 0, present values are kept |
| DateParse.YearField | processor.py:23 | `%Y` accepts exactly four digits |
| DateParse.MonthField | processor.py:37 | `%m` accepts one or two characters naming a month 1..12 |
| DateParse.DayField | processor.py:30 | `%d` accepts one or two characters naming a day 1..31 |
| DateParse.Strptime | processor.py:23-37 | a successful `strptime` splits into three parts of one to four characters |
| DateParse.TryYearFirst | processor.py:20-25 | the first attempt's date comes from a three-part `/` split read as four-digit year, month, day; a text with a `-` never yields one |
| DateParse.TryDayFirst | processor.py:27-32 | the second attempt's date comes from a three-part `-` split read as day, month, four-digit year; a text with a `/` never yields one |
| DateParse.TryMonthFirst | processor.py:34-39 | the third attempt's date comes from a three-part `/` split read as month, day, four-digit year; a text with a `-` never yields one |
| DateParse.RejectsOtherSeparator | processor.py:23-37 | `%Y/%m/%d` and `%m/%d/%Y` reject any text with a `-`, and `%d-%m-%Y` any text with a `/` |
| DateParse.ParseText | processor.py:18-45 | the chain of attempts fails only with IndexError, only where a short split is indexed |
| DateParse.ToDate | processor.py:13-45 | a missing cell gives None; any failure is IndexError on a short split |
| DateParse.ParseTextRaises | processor.py:21-35 | on the stripped text, the chain raises exactly where a split with fewer than three parts is indexed |
| DateParse.ToDateRaises | processor.py:13-45 | `to_date` raises exactly on those texts |
| DateParse.SlashFormatsRejectDash | processor.py:23-37 | a text with a `-` never parses as `%Y/%m/%d` or `%m/%d/%Y` |
| DateParse.DashFormatRejectsSlash | processor.py:30 | a text with a `/` never parses as `%d-%m-%Y` |
| DateParse.FieldsRejectSeparator | processor.py:23-37 | a date field holding anything but digits and spaces fails to parse |
| DateParse.SlashWithYearFirst | processor.py:20-23 | `yyyy/m/d` is read year, month, day |
| DateParse.DashIsDayFirst | processor.py:27-30 | `d-m-yyyy` is read day first |
| DateParse.SlashIsMonthFirst | processor.py:34-37 | `m/d/yyyy` is read month first |
| DateParse.AmbiguousDates | processor.py:20-37 | "03/04/2025" is 4 March, "03-04-2025" is 3 April, "2025/03/04" is 4 March |
| DateParse.ShortSlashRaises | processor.py:35 | a date with a single `/`, such as "12/2025", raises IndexError instead of giving None |
| Tables.CleanHeader | processor.py:53-62 | a cleaned label holds no quote, BOM, tab or newline, and only characters of the label or spaces |
| Tables.NormalizeHeaders | processor.py:52-63 | only the labels change, each by `CleanHeader`; rows and label count stay |
| Tables.CleanHeaderPairs | processor.py:56-61 | a label with an isolated double space loses one space and otherwise stays |
| Tables.IndexOf | processor.py:112 | the position of the first column with that label, present exactly when the label is |
| Tables.Lookup | processor.py:112 | `df[name]` is a KeyError exactly when the label is absent, and otherwise the column's cells |
| Tables.Get | processor.py:179 | `df.get(name)` is present exactly when the label is |
| Tables.Select | processor.py:160 | `df[df[col] == v]` keeps exactly the rows holding v there, in order |
| Tables.SelectSkips | processor.py:160 | appending a row with another value leaves the selection as it was |
| Tables.SelectKeeps | processor.py:160 | appending a row with the value appends it to the selection |
| Tables.ColumnClasses | processor.py:272-276 | every metric column is a count (zero-filled, summed) or a rate (averaged, dashed), never both |
| Tables.KeysOf | processor.py:142 | the group keys are exactly the (agent, date) pairs of rows with both present |
| Tables.Group | processor.py:142 | a group holds exactly the rows with that key |
| Tables.Mean | processor.py:191-196 | `mean` is missing exactly when no cell holds a number |
| Tables.Aggregate | processor.py:189-200 | a summed column always holds a number |
| Tables.GroupBy | processor.py:142-144 | one row per key present in the input, strictly ordered by agent and date, each holding exactly the aggregated columns with each column's reducer over its group |
| Tables.MeanBounds | processor.py:249 | an average lies between any bounds its numbers respect |
| Tables.SumBounds | processor.py:249 | a sum of numbers in [lo, hi] lies between lo and hi times their count |
| Tables.CountNumZero | processor.py:191 | no number is counted exactly when no cell holds one |
| Order.StrLessStrict | processor.py:269 | Python's string `<` is a strict total order |
| Order.KeyLessStrict | processor.py:269 | Python's tuple `<` on sort keys is a strict total order |
| Order.Insert | processor.py:142 | inserting into a sorted sequence keeps it sorted and adds exactly the element |
| Order.SortDistinct | processor.py:142 | the groupby keys come out sorted, each once, exactly the input's keys |
| Order.SortedDistinct | processor.py:142 | a strictly sorted sequence repeats no element |
| Order.SortedUnique | processor.py:269 | two sorted sequences with the same elements are equal: the order is determined |
| Order.StrLess | processor.py:269 | definition of Python's `<` on strings: the first differing code point decides, and a proper prefix comes first (`Order.StrLessStrict` proves it a strict total order) |
| Order.SingleKeyLess | processor.py:353 | a one-component sort key compares as its component |
| Identity.EmailCells | processor.py:73-82 | the collected cells of one column are never missing |
| Identity.EmailKey | processor.py:89 | an address's key holds no dot, no `@`, no ASCII capital and no surrounding whitespace |
| Identity.NameKey | processor.py:98 | a name's key has the same shape as an address's: no dot, no ASCII capital, no surrounding whitespace |
| Identity.LowerKeeps | processor.py:89-98 | lowering adds no dot and no `@` and leaves no ASCII capital |
| Identity.StripKey | processor.py:89-98 | stripping text without dots or capitals gives a key, and adds no `@` |
| Identity.NoEmails | processor.py:73-82 | a missing report or column contributes no address |
| Identity.BuildEmailMapping | processor.py:70-92 | fails with AttributeError exactly when a collected value is not text; otherwise every collected address's key maps to a collected address with that key, and no other key is present |
| Identity.FileByKey | processor.py:87-91 | the mapping loop keeps the mapping complete and sound for the addresses filed so far |
| Identity.MappingAdd | processor.py:90 | filing one more address keeps the mapping complete and sound |
| Identity.NormalizeAgentName | processor.py:95-99 | a missing name gives None, an unknown key gives None, and a result is a mapped address |
| Identity.ResolvedIsCollected | processor.py:95-99 | a resolved name gives a collected address whose key is the name's key |
| Identity.UnknownName | processor.py:99 | a name no collected address shares a key with resolves to None |
| Identity.NameKeyOfLocalPart | processor.py:89-98 | the local part of an address, in any case, has the address's key as a name |
| Identity.NameRoundTrip | processor.py:89-99 | the local part of a collected address resolves back to a collected address with the same key |
| Identity.ResolveByKey | processor.py:95-99 | any name with a collected address's key resolves to an address with that key |
| Frames.ApplyEach | processor.py:112 | `col.apply(f)` fails exactly when f fails on some row, and otherwise maps row by row |
| Frames.ToDates | processor.py:112 | `col.apply(to_date)` fails only with IndexError, exactly when some cell does |
| Frames.Numeric | processor.py:226 | `pd.to_numeric` on a column converts each cell |
| Frames.FillZeros | processor.py:226 | `.fillna(0)` on a column fills each cell |
| Frames.Constant | processor.py:173 | `df[c] = 1` puts the value in every row |
| Frames.SetFecha | processor.py:112 | assigning `fecha` changes only each row's date |
| Frames.SetAgente | processor.py:113 | assigning `agente` changes only each row's agent |
| Frames.SetColumn | processor.py:125 | assigning a metric column changes only that column of each row |
| Frames.GroupByCell | processor.py:189-200 | in a grouped table a count column holds its group's sum and a rate column its mean |
| Frames.GroupNonEmpty | processor.py:142 | every output row groups at least one input row |
| Frames.GroupedOnes | processor.py:198 | a column of ones sums, per output row, to the size of its group |
| Frames.GroupOnes | processor.py:198 | a column of ones sums to the group's size |
| Frames.GroupBounded | processor.py:199 | a column bounded row by row by another is bounded group by group |
| Frames.GroupCountBounded | processor.py:190-192 | a group holds no more numbers in c than its sum of q when each number in c comes with q at least 1 |
| Frames.GroupSumSplit | processor.py:125-140 | a column that is row by row the sum of others is so per group |
| Frames.GroupedSplit | processor.py:142-144 | the same in each grouped output row |
| Frames.GroupSumIs | processor.py:226-228 | a column holding xs sums per group to the group's share of xs |
| Frames.NonNegativeSum | processor.py:199 | a never-negative column has a non-negative group sum |
| Ventas.Price | processor.py:115-123 | a cleaned price is a number: the value the text reads as after dropping commas and dollar signs, else 0 |
| Ventas.CleanPriceText | processor.py:116-121 | the cleaned price text holds no comma, no `$` and no surrounding whitespace |
| Ventas.IsObjectColumn | processor.py:115 | definition: a price column has object dtype exactly when one of its cells is text, and then `Ventas.Prices` cleans every cell as text |
| Ventas.ProductKey | processor.py:129 | the compared product text has no ASCII capital and is as long as the stripped text |
| Ventas.SalesFailure | processor.py:106-140 | a failure is a KeyError naming an absent column, or an IndexError from a `date` column that does not parse; no failure means `date`, `ds_agent_email` and `qt_price_local` are present, so is `ds_product_name` when there are rows, and every date parses |
| Ventas.SaleRows | processor.py:112-140 | one derived line per report row; `Ventas.SaleRowParts` states each line's amounts |
| Ventas.Prices | processor.py:115-123 | the price column is cleaned as text only when the column holds text |
| Ventas.Amounts | processor.py:127-140 | each row's amount is its price when its product is the kind, else 0 |
| Ventas.ProcessVentas | processor.py:106-144 | a missing report gives an empty table; otherwise the first error the code raises, or the derived lines grouped by (agente, fecha) with `sum`, well-formed, over the sales columns |
| Ventas.SaleFrame | processor.py:112-140 | the frame built by the assignments is the row-by-row sales lines |
| Ventas.SaleRowParts | processor.py:127-140 | shared and exclusive amounts are the price exactly for their product and 0 otherwise, never both non-zero, and with other products' prices make up the total |
| Ventas.SaleRowsSplit | processor.py:125-140 | line by line, the total is shared plus exclusive plus other products' prices |
| Ventas.SalesAddUp | processor.py:142-144 | per (agente, fecha), total sales are shared plus exclusive sales plus other products' prices |
| Ventas.DollarPrice | processor.py:116-123 | "$1,200" reads as 1200 |
| Ventas.UnreadablePrice | processor.py:123 | a price that does not read as a number counts as 0 |
| Ventas.ColumnsDistinct | processor.py:143 | the sales columns are distinct |
| Performance.OptionalColumn | processor.py:170 | `x.get(name)` is the cell, or missing when the column is absent |
| Performance.Selection | processor.py:155-160 | the labels are cleaned, and exactly the rows whose support-group cell is "C_Ops Support" are kept |
| Performance.IsSolved | processor.py:175-177 | definition: a status counts as solved when its text, stripped and lowered, is "solved"; `Performance.SolvedFlags` makes it the 0/1 column |
| Performance.PerformanceFailure | processor.py:162-179 | a KeyError names an absent column, an IndexError comes from a date that does not parse, and AttributeError comes only from an absent `Reopen`; no failure means all five columns are present and every date parses |
| Performance.Convertible | processor.py:181-186 | a convertible column is read as numbers when present and all missing otherwise |
| Performance.ResolveAgents | processor.py:163-167 | a missing address is replaced by the address the full name resolves to; present ones stay |
| Performance.Surveyed | processor.py:169-172 | `Q_Encuestas` is 1 exactly when a CSAT or NPS answer is present |
| Performance.SolvedFlags | processor.py:175-177 | `Q_Tickets_Resueltos` is 1 exactly for a status that reads "solved" |
| Performance.Ticket | processor.py:169-186 | each ticket counts one ticket, a 0/1 solved flag, and a 0/1 survey flag that is 1 when a score is present |
| Performance.Tickets | processor.py:162-186 | tickets keep their agent and date, row by row |
| Performance.TicketRows | processor.py:162-186 | every derived ticket has that shape |
| Performance.ProcessPerformance | processor.py:151-211 | a missing report or group column gives an empty table; otherwise the first error, or the support group's tickets grouped with sums and means, well-formed |
| Performance.AssembleTickets | processor.py:162-186 | the frame built by the assignments is the row-by-row ticket list |
| Performance.OtherGroupIgnored | processor.py:160 | a ticket of another group changes nothing |
| Performance.OnlySupportGroup | processor.py:160 | every grouped ticket belongs to "C_Ops Support" |
| Performance.TicketAgent | processor.py:163-167 | a ticket is filed under its address; without one, under the collected address its full name resolves to, or under no agent |
| Performance.TicketTotal | processor.py:173 | `Q_Tickets` is the number of tickets in the row's group, at least one |
| Performance.TicketCounts | processor.py:175-199 | solved and surveyed counts lie between 0 and the ticket count |
| Performance.WithinTickets | processor.py:173-177 | a 0/1 column sums per group to between 0 and the ticket count |
| Performance.ScoresAreSurveys | processor.py:169-192 | a group has no more CSAT or NPS scores than surveys, and no survey means no CSAT or NPS average |
| Performance.ColumnsDistinct | processor.py:189-200 | the performance columns are distinct |
| Inspecciones.InspectionCount | processor.py:226 | a count is the number it reads as, 0 when missing or unreadable |
| Inspecciones.InspectionFailure | processor.py:222-226 | a KeyError names an absent column and an IndexError comes from a date that does not parse; no failure means the three columns are present and every date parses |
| Inspecciones.InspectionCounts | processor.py:226 | the count of each record |
| Inspecciones.InspectionRows | processor.py:224-226 | each derived record carries its count |
| Inspecciones.AssembleInspections | processor.py:224-226 | the frame built by the assignments is the row-by-row record list |
| Inspecciones.ProcessInspecciones | processor.py:218-228 | a missing report gives an empty table; otherwise the first error, or the records grouped with `sum`, well-formed |
| Inspecciones.InspectionTotals | processor.py:226-228 | per (agente, fecha), `Q_Inspecciones` is the sum of the group's counts |
| Auditorias.Audits | processor.py:241-245 | each audit counts one and has a numeric or missing score |
| Auditorias.AuditFailure | processor.py:241-245 | a KeyError names an absent column and an IndexError comes from a date that does not parse; no failure means the three columns are present and every date parses |
| Auditorias.AuditRows | processor.py:241-245 | the same for a report's audits |
| Auditorias.AssembleAudits | processor.py:241-245 | the frame built by the assignments is the row-by-row audit list |
| Auditorias.ProcessAuditorias | processor.py:235-250 | a missing report gives an empty table; otherwise the first error, or the audits grouped with sum and mean, well-formed |
| Auditorias.AuditCount | processor.py:244-248 | `Q_Auditorias` is the number of audits in the group, at least one |
| Auditorias.AuditScore | processor.py:245-249 | `Nota_Auditorias` is the mean of the scores, missing exactly when none reads as a number |
| Auditorias.AuditScoreBounds | processor.py:249 | the average score lies within any bounds all scores respect |
| Auditorias.ColumnsDistinct | processor.py:247-250 | the audit columns are distinct |
| Daily.FindRow | processor.py:262-264 | the row under a key, or none when no row has it |
| Daily.Tabulate | processor.py:262-264 | a table indexed by key has exactly its rows' keys |
| Daily.Merge | processor.py:262-264 | the outer merge has the keys of both sides |
| Daily.MergeNothing | processor.py:262 | merging into nothing gives the table itself |
| Daily.BuildDailyMatrix | processor.py:257-285 | empty when every table is; otherwise one row per key of any table, in (fecha, agente) order, with the columns of the non-empty tables, each cell that table's cell, counts zero-filled and rates missing where absent |
| Daily.MergeTables | processor.py:259-267 | the merge loop skips empty tables and merges the rest in order; none when all are empty |
| Daily.JoinedStep | processor.py:261-264 | one pass of the merge loop: the merged table and its columns grow by the table unless it is empty |
| Daily.NotJoined | processor.py:259-284 | a column that no non-empty table has is not a column of the merged table |
| Daily.ZeroFillCounts | processor.py:278-280 | the fill loop zero-fills each count column present |
| Daily.FillColumn | processor.py:280 | `fillna(0)` on one column changes no key, no other column and no domain |
| Daily.FillStep | processor.py:278-280 | one pass of the fill loop |
| Daily.FillTwice | processor.py:280 | filling twice is filling once |
| Daily.DailyCell | processor.py:257-285 | counts are never missing; a table without a row for the key gives 0 or missing |
| Daily.PaddedRows | processor.py:262-264 | merged rows hold their key's cells, missing where absent |
| Daily.DailyKeys | processor.py:262-269 | the sorted rows carry every key of every table, each once |
| Daily.DailyCells | processor.py:262-280 | after the fill each cell is its table's cell, counts never missing |
| Daily.CellAt | processor.py:262-280 | a filled merged cell is what `DailyCell` says |
| Daily.JoinedKeys | processor.py:262-264 | the merged keys are exactly the tables' keys |
| Daily.JoinedCell | processor.py:262-264 | a merged cell of a table's column is that table's cell |
| Daily.JoinedColumnsCover | processor.py:284 | every column of a non-empty table is a merged column |
| Daily.JoinedColumnsFrom | processor.py:284 | every merged column comes from a non-empty table |
| Daily.SortedRows | processor.py:269 | rows carrying sorted keys are sorted by (fecha, agente) |
| Daily.DailyOrder | processor.py:269 | definition: the sort key (year, month, day, agent) of `sort_values(["fecha", "agente"])`; `Daily.DailyOrderMeaning` states what it orders |
| Daily.DailyOrderMeaning | processor.py:269 | rows sort by date, earliest first, and rows of one date by agent |
| Daily.FindFirst | processor.py:262-264 | in a key-sorted table the first row under a key is the only one |
| Regroup.Regroup | processor.py:317-334 | one bucket per distinct key, strictly sorted, holding exactly the named columns, each reduced over the key's rows |
| Regroup.RegroupKeepsSums | processor.py:317-334 | regrouping neither loses nor double-counts a row: summed buckets equal summed rows |
| Regroup.Dash | processor.py:339 | a missing value becomes "-", others stay |
| Regroup.DashRates | processor.py:337-339 | the loop over the rate columns dashes each rate column of each row |
| Regroup.DashStep | processor.py:338-339 | one pass of that loop |
| Regroup.DashedCells | processor.py:337-339 | dashing keeps keys, columns and counts, and dashes the rates |
| Regroup.DashKeepsSums | processor.py:337-339 | dashing does not change any count column's sum |
| Regroup.DashAllShape | processor.py:337-339 | dashing keeps order and columns and leaves no rate missing |
| Weekly.WeekStart | processor.py:301 | `d - timedelta(days=d.weekday())` is the Monday on or before d |
| Weekly.WeekIndex | processor.py:309-310 | `delta // 7` rounds down: whole weeks plus 0 to 6 days, and never negative for a date on or after the anchor |
| Weekly.BlockStart | processor.py:309-311 | a block starts at the anchor plus whole weeks, within six days before the date |
| Weekly.BlockLabel | processor.py:311-313 | a block's label starts with "Semana " and ends with a Spanish month name |
| Weekly.LabelShape | processor.py:313 | any text "Semana … al … de <month>" has that shape |
| Weekly.WeekLabel | processor.py:308-313 | `nombre_semana` gives a label of that shape, the label of a seven-day block holding the date |
| Weekly.BlocksAreWeeks | processor.py:300-313 | anchored on a Monday, a date's block starts on its own Monday |
| Weekly.BlockSpan | processor.py:309-312 | every date lies between its block's first day and six days on |
| Weekly.BlockUnique | processor.py:309-310 | the only week index whose seven days hold the date is the one computed |
| Weekly.SameWeekSameLabel | processor.py:308-315 | two dates of one calendar week get the same label |
| Weekly.LabelsRepeatAcrossYears | processor.py:308-317 | 2024-01-01 and 2029-01-01 fall in different blocks but share the label "Semana 1 al 7 de Enero" |
| Weekly.NewYearLabel | processor.py:308-313 | a year starting on a Monday labels its first day "Semana 1 al 7 de Enero" |
| Weekly.NewYearWeek | processor.py:311-313 | the week from January 1st runs to January 7th |
| Weekly.WeekOrderInjective | processor.py:317 | distinct (agent, label) keys sort apart |
| Weekly.FirstDate | processor.py:300 | `fecha.min()` is a date of the table, on or before every other |
| Weekly.Anchor | processor.py:300-301 | `inicio_sem` is a Monday on or before every date |
| Weekly.WeekKeys | processor.py:315 | each row is filed under its agent and its date's label |
| Weekly.WeeklyGroups | processor.py:317 | the weekly buckets are strictly ordered by agent and then label, each holding exactly the weekly columns |
| Weekly.MissingColumn | processor.py:317-334 | none exactly when all named columns are present; otherwise a named column that is absent |
| Weekly.BuildWeeklyMatrix | processor.py:292-341 | empty for an empty daily table; KeyError when a named column is absent; otherwise one row per (agent, label), strictly ordered, with every aggregated column and no rate missing |
| Weekly.WeekRowSum | processor.py:315 | filing rows under labels does not change an agent's total |
| Weekly.WeeklyKeepsSums | processor.py:317-334 | an agent's weekly rows add up, per count column, to the agent's daily total |
| Summary.AgentOrderInjective | processor.py:353 | distinct agents sort apart |
| Summary.Agents | processor.py:353 | each daily row is filed under its agent |
| Summary.SummaryGroups | processor.py:353 | the summary buckets come in strictly ascending agent order, one for each agent of the daily rows, each holding exactly the summary columns |
| Summary.AgentsSorted | processor.py:353 | buckets ordered by the one-component agent key are ordered by agent |
| Summary.BuildSummary | processor.py:348-375 | empty for an empty daily table; KeyError when a named column is absent; otherwise one row per agent in ascending order, with every aggregated column and no rate missing |
| Summary.SummaryTotals | processor.py:353-369 | an agent's summary row holds, per count column, the agent's daily total |
| Summary.SummaryAgents | processor.py:353 | an agent has a summary row exactly when it has a daily row |
| Summary.MembersTotal | processor.py:353-369 | an agent's grouped rows sum to the agent's total |
| Summary.WeeklyMatchesSummary | processor.py:317-369 | per count column, an agent's weekly rows add up to the agent's summary row |
| Pipeline.FourAdapters | processor.py:386-391 | the four adapter outputs, in merge order, each well-formed with its own columns or none |
| Pipeline.ColumnsApart | processor.py:391 | a column of one adapter belongs to no other adapter |
| Pipeline.AdaptersDisjoint | processor.py:391 | no two adapters produce the same column, so the merge adds no suffixes |
| Pipeline.PartialInputFails | processor.py:391-392 | when one adapter produced rows and another did not, a weekly column is missing from the daily table |
| Pipeline.FullInputCovers | processor.py:391-392 | when all four adapters produced rows, the daily table has every weekly column |
| Pipeline.WeeklyFailsOnPartial | processor.py:391-392 | the daily table has rows but lacks a weekly column exactly when some adapter produced rows and another none |
| Pipeline.SalesProduced | processor.py:386 | a sales table is empty or carries exactly the sales columns, well-formed |
| Pipeline.PerformanceProduced | processor.py:387 | the same for the performance table |
| Pipeline.InspectionProduced | processor.py:388 | the same for the inspection table |
| Pipeline.AuditProduced | processor.py:389 | the same for the audit table |
| Pipeline.AdaptersProduce | processor.py:386-389 | when no adapter fails, the four tables are well-formed, each empty or with its own columns |
| Pipeline.NoReports | processor.py:382-389 | with no reports, the four adapters give four empty tables |
| Pipeline.RunVentas | processor.py:386 | `process_ventas` yields the sales table of `Pipeline.SalesTable`: an error, or the sales lines grouped |
| Pipeline.RunPerformance | processor.py:387 | `process_performance` yields the table of `Pipeline.PerformanceTable` for the mapping |
| Pipeline.RunFieldAdapters | processor.py:388-389 | the inspection then the audit adapter: the first error, or both tables as each adapter's contract defines them, each empty or with its own columns |
| Pipeline.RunLaterAdapters | processor.py:387-389 | the performance, inspection and audit adapters in turn: the first error, or the three tables |
| Pipeline.RunAdapters | processor.py:386-389 | the four adapters in order: the first error they raise, or the four tables each adapter's contract defines, in merge order |
| Pipeline.DailyMatrix | processor.py:391 | the daily table of the four tables: its columns are the non-empty tables' columns, rows sorted by date and agent, one per key of any table, each cell its table's cell; empty when all tables are |
| Pipeline.DeriveReports | processor.py:392-393 | KeyError exactly when the daily table has rows but lacks a weekly column; otherwise the weekly matrix and summary re-aggregate it and agree on every shared count column |
| Pipeline.BuildReports | processor.py:391-393 | KeyError exactly when some adapter produced rows and another none; otherwise the daily table of the four tables (columns, keys, sorted rows, each cell its table's cell), with weekly and summary derived from it and agreeing |
| Pipeline.RunWithMapping | processor.py:386-399 | for a given mapping: the first adapter error; else KeyError when the input is partial; else the three reports, the daily one built from the adapters' tables |
| Pipeline.ProcesarReportes | processor.py:382-399 | a non-text e-mail gives AttributeError; otherwise, for a mapping that keys every collected address, the first adapter error, or KeyError when some adapter produced rows and another none, or the daily table of the adapters' tables with weekly and summary derived from it; no input gives three empty tables |

## Left out

- `app.py` (the web front end and its date-range filter) is not part of this model.
- Python's `str()` of a float and the general parser `pd.to_datetime(s).date()` are parameters (`Env.render`, `Env.fallback`): their internals are library code.
- `str.lower()`, `str.isdigit()` and the `\d` of `strptime`, which also matches non-ASCII Unicode digits, are modelled on ASCII only. Unicode case mapping and digit classes are library data; the spaces `strip` removes are modelled exactly.
- Floating point is replaced by exact reals, so sums and means do not round.
- The `datetime` upper year bound (9999) and its OverflowError on `timedelta` are not modelled: dates are unbounded above.
- Reports with duplicate column labels: a label is looked up at its first occurrence, while pandas would return several columns.
- An agent cell holding a number is treated like a missing agent, so the model drops a row that pandas keeps: pandas groups it under the number, and its sort of mixed keys puts numbers before strings.
- `pd.to_numeric` text with exponents, thousands separators or surrounding whitespace is read as not numeric; the model accepts an optional sign and digits with one decimal point.
- Ventas.ProcessVentas: a report with no rows gives an empty table without reading the product column. pandas' row-wise `apply` on an empty frame returns a frame, not a column, and what the assignment does then varies by pandas version.
- Weekly.BuildWeeklyMatrix: the KeyError names the first missing column in aggregation order; pandas lists all missing columns in one message.
- Identity.BuildEmailMapping: when two addresses share a key, the one kept depends on the iteration order of a Python set. The contract promises only some collected address with that key, not which one.
- pandas' merge suffixes `_x`/`_y` are not modelled: the adapters' columns are proved disjoint (`Pipeline.AdaptersDisjoint`), so the merge never adds them.
- The column renaming after the performance aggregation (`NPS Score` to `NPS` and so on) is folded into the column names of the model.
