# Union Bank statement extractor — verified model of the parsing core

The Union Bank statement extractor turns the text of a bank-statement PDF into
transaction rows and writes them as CSV. This project is a Dafny model of its
parsing core, all of which lives in `streamlit_app.py`:

- **Header filter** (`remove_headers`) removes statement boilerplate and
  separator rules from each page's text.
- **Combined text.** The cleaned pages that still hold text are joined by
  newlines.
- **Transaction scan.** The `while` loop of `process_pdf` walks the lines with
  a forward cursor. A date line followed by an amount line with a balance
  opens a transaction. The lines after it take one of four layouts:
  - no description;
  - description plus a beneficiary with continuation lines;
  - description immediately followed by the next date;
  - a card payment with four fixed fields.
- **Amounts** (`parse_amounts`) sorts the amounts of a line into debit,
  credit and balance by the column where each starts.
- **Labelled fields** (`extract_field`) are read with `label:\s+(.+)`.
- **CSV guard** (`sanitize_csv_field`) puts a quote in front of values a
  spreadsheet would read as formulas.

Each module matches one part of the program:

| module | file | models |
|---|---|---|
| `Text` | `text.dfy` | Python `str.strip`/`rstrip`, `in`, `split("\n")`, `sep.join` on `seq<char>` |
| `HeaderFilter` | `header_filter.dfy` | `HEADERS_TO_REMOVE`, `SEPARATOR_PATTERN`, `remove_headers` |
| `FieldExtract` | `field_extract.dfy` | `extract_field`, with the regular-expression search written out as the backtracking matcher runs it |
| `AmountParse` | `amount_parse.dfy` | `AMOUNT_PATTERN` with `finditer`, and `parse_amounts` |
| `Transactions` | `transactions.dfy` | `DATE_PATTERN` and the transaction loop of `process_pdf` |
| `Statement` | `statement.dfy` | the page loop of `process_pdf`, from page texts to rows |
| `CsvGuard` | `csv_guard.dfy` | `CSV_INJECTION_CHARS`, `FIELDNAMES`, `sanitize_csv_field` and the sanitizing loop of `rows_to_csv` |
| `Scenarios` | `scenarios.dfy` | complete small statements in each layout, with the rows the scan emits |

**Reference definitions and the code that computes them.** The loops of the
source are `method`s with loop invariants. Each is proved equal to a
reference definition:

| method | reference definition |
|---|---|
| `RemoveHeaders` | `CleanText` / `KeptLines` |
| `ParseAmounts` | `AmountsOf` |
| `ParseTransactions` | `RowsOf(Trace(lines, 0))` |
| `ProcessPages` | `CombinedText` |
| `SanitizeRows` | `SanitizeRow` |

The properties the program relies on are lemmas about those definitions.

**Transaction loop.** One iteration of the loop is the function `StepAt`. Its
result is an `Outcome`: the line is rejected, or a row is emitted in one of
the four layouts (`Arm`). Either way the outcome names the next cursor.
`Trace` runs the steps from a cursor; every step moves the cursor forward,
which is also why the loop terminates. The loop body is the method
`ScanStep`, which calls one method per layout. The lemmas `StepNoDescription`,
`StepBeneficiary`, `StepImmediateNextDate` and `StepStructuredPos` state each
layout on its own.

**Whitespace and digits.** `\s`, `str.strip` and `\d` use the ASCII
characters Python accepts:
- whitespace: space, `\t`, `\n`, `\r`, `\x0b`, `\x0c`, `\x1c`–`\x1f`;
- digits: `0`–`9`.

**Where the code and its documented behaviour differ, the model follows the
code:**
- A description label whose value does not extract (`Detajet:` with no
  whitespace after the colon, or nothing after it) still stops the lookup
  at that offset. The empty value then sends the transaction down the
  no-description path.
- The beneficiary value is taken from `Perfituesi`, then from `Me Urdher Te`
  when the first yields nothing. The label that was present does not decide
  which one is read.
- A document with no extractable text is documented as an error. The code
  raises only when the document has no pages
  (`streamlit_app.py:146-147`). Pages with no text, or whose text cleans to
  nothing, give an empty combined text and no rows. `ProcessPages` follows
  the code: it returns `NoPages` only for an empty page list.

## Model

| member | source | states |
|---|---|---|
| `Text.RStrip` | streamlit_app.py:90 | `line.rstrip()`: no longer than the input, and the result is empty or ends in a non-whitespace character |
| `Text.RStripSpec` | streamlit_app.py:90 | `rstrip` keeps a prefix of the input and removes only whitespace |
| `Text.LStrip` | streamlit_app.py:117-119 | the left half of `strip()`: the result is empty or starts with a non-whitespace character |
| `Text.LStripSpec` | streamlit_app.py:117-119 | the left half of `strip()` keeps a suffix and removes only whitespace |
| `Text.Strip` | streamlit_app.py:117-119 | definition: `strip()` as `rstrip` followed by removing leading whitespace; its meaning is stated by `StripIsSlice` and `StripEnds` |
| `Text.StripIsSlice` | streamlit_app.py:117-119 | `strip()` returns a slice of the input with only whitespace on both sides of it |
| `Text.StripEnds` | streamlit_app.py:98 | a non-empty `strip()` result starts and ends with a non-whitespace character |
| `Text.StripOfSolidStart` | streamlit_app.py:98 | text that starts with a non-whitespace character strips to its `rstrip` |
| `Text.StripOfSolidEnd` | streamlit_app.py:157 | text that ends in a non-whitespace character does not strip to nothing |
| `Text.StripOfBlank` | streamlit_app.py:117 | text made only of whitespace strips to `""` |
| `Text.StripAfterRStrip` | streamlit_app.py:88-90 | stripping after `rstrip` gives the same as stripping the original |
| `Text.RStripIdempotent` | streamlit_app.py:90 | `rstrip` twice is `rstrip` once |
| `Text.Contains` | streamlit_app.py:86 | definition: Python `sub in s`, some position of `s` where `sub` starts |
| `Text.ContainsInPrefix` | streamlit_app.py:86 | a substring of a prefix is a substring of the whole |
| `Text.MissingCharExcludes` | streamlit_app.py:86 | text lacking one character of `sub` does not contain `sub` |
| `Text.Split` | streamlit_app.py:85 | `split("\n")` yields at least one piece and no piece holds a newline |
| `Text.SplitAtNewline` | streamlit_app.py:85 | splitting `a + "\n" + b` with `a` newline-free yields `a`, then the pieces of `b` |
| `Text.SplitAppend` | streamlit_app.py:165-166 | splitting two texts joined by a newline yields the pieces of the first followed by those of the second |
| `Text.SplitSingle` | streamlit_app.py:85 | a newline-free text splits into itself alone |
| `Text.SplitJoin` | streamlit_app.py:93 | `split("\n")` inverts `"\n".join` on a non-empty list of newline-free lines |
| `Text.JoinWith` | streamlit_app.py:93 | definition: `sep.join(parts)`; `SplitJoin` states that `split("\n")` inverts it |
| `Text.JoinWithAppend` | streamlit_app.py:165 | joining two non-empty lists is joining each, with one separator between |
| `Text.JoinWithEnds` | streamlit_app.py:93 | the joined text starts with the first part and ends with the last |
| `HeaderFilter.HasHeader` | streamlit_app.py:86 | definition: the line contains one of the fragments of `HEADERS_TO_REMOVE` |
| `HeaderFilter.IsSeparator` | streamlit_app.py:37 | definition: `^-[-\s]{19,}$`, a hyphen then at least 19 hyphens or whitespace characters and nothing else |
| `HeaderFilter.Keep` | streamlit_app.py:86-91 | definition: no header fragment, the stripped line is not a separator rule, and the right-stripped line is not empty |
| `HeaderFilter.KeptLines` | streamlit_app.py:85-92 | reference definition of the loop: the kept lines, right-stripped, in input order; stated by `KeptLinesMembership` and `KeptLinesAreClean` |
| `HeaderFilter.CleanText` | streamlit_app.py:83-93 | reference definition of `remove_headers`: the kept lines joined by newlines; stated by `CleanTextLines` and `CleanTextIdempotent` |
| `HeaderFilter.RemoveHeaders` | streamlit_app.py:83-93 | the loop computes the reference definition `CleanText`: kept lines right-stripped, non-empty, in order, joined by newlines |
| `HeaderFilter.KeptLineIsStable` | streamlit_app.py:86-92 | a kept line, right-stripped, is kept again and is unchanged by a second `rstrip` |
| `HeaderFilter.KeptLinesMembership` | streamlit_app.py:85-92 | both directions: an output line is exactly the right-stripped form of some input line that has no header fragment, is not a separator rule and is not blank |
| `HeaderFilter.KeptLineHasSource` | streamlit_app.py:85-92 | every output line comes from a kept input line |
| `HeaderFilter.KeptSourceIsOutput` | streamlit_app.py:85-92 | every kept input line appears, right-stripped, in the output |
| `HeaderFilter.KeptLinesAreClean` | streamlit_app.py:86-92 | every output line is non-empty, has no trailing whitespace, holds no header fragment and is not a separator rule |
| `HeaderFilter.KeptLinesAppend` | streamlit_app.py:85-92 | the filter works line by line: filtering two runs and concatenating equals filtering them together (order preserved) |
| `HeaderFilter.KeptLinesIdempotent` | streamlit_app.py:85-92 | filtering filtered lines changes nothing |
| `HeaderFilter.KeptLinesNoNewline` | streamlit_app.py:90 | filtered lines stay free of newlines |
| `HeaderFilter.CleanTextLines` | streamlit_app.py:93 | the lines of the cleaned text are exactly the kept lines, and the cleaned text is `""` when none is kept |
| `HeaderFilter.CleanTextIdempotent` | streamlit_app.py:83-93 | `remove_headers(remove_headers(t)) == remove_headers(t)` |
| `HeaderFilter.CleanTextBlank` | streamlit_app.py:93 | the cleaned text is empty exactly when no line is kept, and otherwise it does not strip to nothing |
| `HeaderFilter.CleanTextOfEmpty` | streamlit_app.py:83-93 | cleaning `""` gives `""` |
| `HeaderFilter.CleanTextAppend` | streamlit_app.py:83-93 | cleaning `a + "\n" + b` gives the cleaned texts of `a` and `b` joined by a newline, where one that cleans to nothing contributes nothing |
| `FieldExtract.SpaceRun` | streamlit_app.py:97 | the greedy `\s+` run stays inside the line and stops at a non-whitespace character or the end |
| `FieldExtract.SpaceRunSpec` | streamlit_app.py:97 | the run consists of whitespace |
| `FieldExtract.LineEnd` | streamlit_app.py:97 | `.+` stops at the first newline or at the end of the line |
| `FieldExtract.LineEndSpec` | streamlit_app.py:97 | no newline comes before that stop |
| `FieldExtract.SpacesKept` | streamlit_app.py:97 | after backtracking, `\s+` keeps a count no larger than the run, followed by a character `.` can match |
| `FieldExtract.SpacesKeptSpec` | streamlit_app.py:97 | every position given back by the backtracking has no character `.` can match |
| `FieldExtract.GroupAt` | streamlit_app.py:97 | definition: the group of `label:\s+(.+)` for a match starting at `p`, `\s+` backtracking until `.` can match |
| `FieldExtract.SearchFrom` | streamlit_app.py:97 | definition: `re.search`, the group of the leftmost match at or after `p` |
| `FieldExtract.ExtractField` | streamlit_app.py:96-98 | definition: the stripped group of the first match, or `""`; stated by `ExtractFieldSound` and `ExtractFieldOfLabelledLine` |
| `FieldExtract.GroupIsBlankUnlessRunKept` | streamlit_app.py:97-98 | a match whose group strips to something has `label:`, the whole whitespace run, then a non-whitespace character |
| `FieldExtract.BacktrackedGroupIsBlank` | streamlit_app.py:97-98 | when `\s+` gives back whitespace, the captured group is whitespace and strips to `""` |
| `FieldExtract.SearchFromSound` | streamlit_app.py:97 | a search result that strips to something comes from a place labelled `label:`, whitespace, text |
| `FieldExtract.ExtractFieldSound` | streamlit_app.py:96-98 | a non-empty result means the line contains `label:`, whitespace and further text; the result has no whitespace at either end |
| `FieldExtract.SearchSkipsToLabel` | streamlit_app.py:97 | the search passes over positions where `label:` does not start |
| `FieldExtract.GroupAtLabelled` | streamlit_app.py:97 | at `label:` + whitespace + a value that starts with a non-whitespace character and has no newline, the group is exactly that value |
| `FieldExtract.ExtractFieldOfLabelledLine` | streamlit_app.py:96-98 | `extract_field` on `pre + label + ":" + spaces + value` (no earlier `label:`) returns `value` without its trailing whitespace |
| `FieldExtract.SpaceRunOver` | streamlit_app.py:97 | the whitespace run at a run of spaces followed by text is exactly that run |
| `FieldExtract.LineEndOfTail` | streamlit_app.py:97 | a newline-free tail runs to the end of the line |
| `AmountParse.AmountRun` | streamlit_app.py:39 | the greedy `[\d,]+` run stays inside the line, holds only digits and commas, and stops at any other character |
| `AmountParse.AmountRunExact` | streamlit_app.py:39 | `m` characters of `[\d,]` followed by another character make a run of exactly `m` |
| `AmountParse.AmountLenAt` | streamlit_app.py:39 | soundness: a match at a position, when there is one, is text of the form `[\d,]+\.\d{2}` inside the line |
| `AmountParse.AmountLenAtComplete` | streamlit_app.py:39 | completeness: whenever text of the form `[\d,]+\.\d{2}` starts at the position, the match there is found and has exactly its length (the greedy match) |
| `AmountParse.FindAmounts` | streamlit_app.py:104 | soundness: `finditer` yields real matches of the pattern at or after the start, non-overlapping and left to right |
| `AmountParse.AllGreedy` | streamlit_app.py:104 | definition: every match is as long as the greedy match at its start |
| `AmountParse.FindAmountsGreedy` | streamlit_app.py:104 | `finditer` never shortens a match: each match has the length of the greedy match at its start |
| `AmountParse.Covers` | streamlit_app.py:104 | definition: some match covers the position |
| `AmountParse.CoversHead` | streamlit_app.py:104 | a position inside the first match is covered |
| `AmountParse.CoversTail` | streamlit_app.py:104 | a position covered by the later matches is covered by the whole list |
| `AmountParse.FindAmountsSkipsNone` | streamlit_app.py:104 | `finditer` passes no amount by: at every position from the start that no match covers, no amount starts |
| `AmountParse.MatchesOrdered` | streamlit_app.py:104 | any earlier match ends before any later one starts |
| `AmountParse.RemoveCommas` | streamlit_app.py:105 | `replace(",", "")` leaves no comma |
| `AmountParse.RemoveCommasAppend` | streamlit_app.py:105 | comma removal distributes over concatenation |
| `AmountParse.RemoveCommasOfPlain` | streamlit_app.py:105 | text without commas is unchanged |
| `AmountParse.RemoveCommasOfAmount` | streamlit_app.py:105 | an amount without its commas is digits, a period and two digits |
| `AmountParse.RemoveCommasOfDigitsAndCommas` | streamlit_app.py:105 | a run of digits and commas without its commas is all digits |
| `AmountParse.ColumnOf` | streamlit_app.py:109-114 | definition: the band of a start column, balance from 100, credit from 80, debit from 60, ignored below |
| `AmountParse.LastIn` | streamlit_app.py:109-114 | the index found is the last match in the band, or no match lies in the band |
| `AmountParse.FieldFor` | streamlit_app.py:104-114 | definition: the last amount in the band without commas, or `""`; stated by `FieldForMeaning` |
| `AmountParse.AmountsOf` | streamlit_app.py:101-120 | reference definition of `parse_amounts`; stated by `FieldForMeaning`, `BalancePresence`, `StoredAmountsArePlain` and `PrefixRule` |
| `AmountParse.ParseAmounts` | streamlit_app.py:101-120 | the loop computes the reference definition `AmountsOf`: each band gets the last amount in it, the prefix is the stripped text before the first amount |
| `AmountParse.FieldForExtend` | streamlit_app.py:104-114 | one more match overwrites the band's slot exactly when it lies in that band |
| `AmountParse.FieldForMeaning` | streamlit_app.py:104-114 | a band's slot is empty iff no match lies in the band; otherwise it is the last match in the band, without commas, a plain amount |
| `AmountParse.MatchTexts` | streamlit_app.py:104-105 | every match found on a line is amount text |
| `AmountParse.BalancePresence` | streamlit_app.py:109-110 | both directions: the balance is non-empty iff some amount starts at column 100 or later |
| `AmountParse.StoredAmountsArePlain` | streamlit_app.py:104-114 | debit, credit and balance are each `""` or digits, a period and two digits, with no commas |
| `AmountParse.PrefixRule` | streamlit_app.py:107-119 | the prefix is the stripped line when there is no amount, otherwise the stripped text before the first match, which is the leftmost |
| `AmountParse.FieldForSingle` | streamlit_app.py:109-114 | with one match, a band holds it exactly when it lies in the band |
| `AmountParse.LastAmount` | streamlit_app.py:104 | an amount that runs to the end of the line is the last match |
| `AmountParse.SkipBlanks` | streamlit_app.py:104 | the search passes over blanks |
| `AmountParse.AmountRunOfAmount` | streamlit_app.py:39 | the `[\d,]` run at the start of an amount stops at its period |
| `Transactions.IsDate` | streamlit_app.py:38 | definition: `^(\d{2}-[A-Z]{3}-\d{4})\s*$`, two digits, a hyphen, three capitals, a hyphen, four digits, then only whitespace |
| `Transactions.IsDateLine` | streamlit_app.py:172 | definition: the stripped line matches `DATE_PATTERN` |
| `Transactions.HasDescriptionLabel` | streamlit_app.py:188 | definition: the line contains `Detajet:` or `Detaj et:` |
| `Transactions.DescriptionValue` | streamlit_app.py:189-191 | definition: the `Detajet` field, or the `Detaj et` field when the first is empty |
| `Transactions.HasBeneficiaryLabel` | streamlit_app.py:226 | definition: the line contains `Perfituesi:` or `Me Urdher Te:` |
| `Transactions.BeneficiaryValue` | streamlit_app.py:227-230 | definition: the `Perfituesi` field, or the `Me Urdher Te` field when the first is empty |
| `Transactions.FindDescription` | streamlit_app.py:183-193 | the description is on the first of the lines at offsets 2 and 3 that holds `Detajet:` or `Detaj et:`; absent when neither does |
| `Transactions.NextDate` | streamlit_app.py:198-200 | the index returned is a date line or the end, and no date line comes before it |
| `Transactions.Continuation` | streamlit_app.py:232-235 | one entry for every line up to the next date line, entry `m` being line `k + m` stripped |
| `Transactions.FieldAt` | streamlit_app.py:287-301 | definition: field `name` of line `k`, or `""` past the end of the document |
| `Transactions.TerminalAt` | streamlit_app.py:276-280 | definition: the `Terminali` field of line `k`, or `Termi nali` when the first is empty; `""` past the end |
| `Transactions.OpensTransaction` | streamlit_app.py:172-179 | definition: a date line followed by an amount line with a non-empty balance |
| `Transactions.Layout` | streamlit_app.py:195-308 | every layout emits a row carrying the amount line's prefix, debit, credit and balance, and moves the cursor forward |
| `Transactions.TransactionAt` | streamlit_app.py:176-308 | the row of a transaction carries the amounts of line `i + 1`, and the cursor moves forward |
| `Transactions.StepAt` | streamlit_app.py:171-179 | every iteration moves the cursor forward |
| `Transactions.Outcomes` | streamlit_app.py:171 | the loop can visit every cursor with two lines after it, and each step there advances |
| `Transactions.ScanFrom` | streamlit_app.py:171 | definition: the loop over precomputed step outcomes from a cursor, stopping once the cursor passes the last step; rejected steps emit nothing |
| `Transactions.Trace` | streamlit_app.py:169-179 | reference definition of the loop: the rows emitted from cursor `i` on; stated by `TraceRejected`, `TraceAccepted` and `TraceRowsHaveBalance` |
| `Transactions.RowsOf` | streamlit_app.py:169 | the rows in emission order |
| `Transactions.TraceRejected` | streamlit_app.py:172-179 | a rejected line emits nothing and the scan continues at the next cursor |
| `Transactions.TraceAccepted` | streamlit_app.py:201-215 | an accepted line's row comes first, then the rows from the next cursor |
| `Transactions.StepRejects` | streamlit_app.py:172-179 | a line that is not a date line, or whose next line has no balance, is skipped by one |
| `Transactions.StepNoDescription` | streamlit_app.py:196-216 | without a description: a row of amounts alone, cursor to the next date line at or after `i + 2` |
| `Transactions.StepBeneficiary` | streamlit_app.py:226-252 | beneficiary layout: the value and every following stripped line up to the next date, joined by single spaces; cursor on that date line |
| `Transactions.StepImmediateNextDate` | streamlit_app.py:255-271 | description followed by a date line: description only, cursor on that date line |
| `Transactions.StepStructuredPos` | streamlit_app.py:273-308 | card layout: reference, card number, date/time and terminal (or `Termi nali`) from the four lines after the description, `""` past the end; cursor at `i + offset + 5` |
| `Transactions.LookUpDescription` | streamlit_app.py:183-193 | the loop finds the first labelled line at offset 2 or 3 and its value, or reports none |
| `Transactions.DescriptionLookedUp` | streamlit_app.py:183-193 | the lookup loop's result is the description lookup `FindDescription` |
| `Transactions.SkipToDate` | streamlit_app.py:198-200 | the inner loop stops at the next date line |
| `Transactions.CollectContinuation` | streamlit_app.py:227-235 | the inner loop collects the first value and the stripped continuation lines, and stops at the next date line |
| `Transactions.ScanStep` | streamlit_app.py:172-179 | the loop body computes one step of the reference scan |
| `Transactions.ScanTransaction` | streamlit_app.py:183-216 | the transaction opened at `i` is computed as the reference definition states |
| `Transactions.DescribedTransaction` | streamlit_app.py:218-271 | with a description, the line after it selects the layout |
| `Transactions.BeneficiaryTransaction` | streamlit_app.py:226-252 | the beneficiary layout as the reference definition states |
| `Transactions.PosTransaction` | streamlit_app.py:273-308 | the card layout as the reference definition states |
| `Transactions.ParseTransactions` | streamlit_app.py:168-310 | the loop terminates, emits exactly the reference scan's rows in order, and every row has a non-empty balance |
| `Transactions.ScanOrigins` | streamlit_app.py:171-308 | every emitted row comes from the step at its start line; start lines strictly increase (scan order) |
| `Transactions.StepAcceptedOrigin` | streamlit_app.py:172-179 | a step accepts only a date line followed by a line with a balance, and the row carries that line's amounts |
| `Transactions.EmittedRowOrigin` | streamlit_app.py:172-179 | every emitted row starts on a date line followed by a line with a balance, and carries that line's amounts |
| `Transactions.TraceRowsHaveBalance` | streamlit_app.py:177-179 | every row of the scan has a non-empty balance |
| `Statement.PageKept` | streamlit_app.py:153-157 | definition: text was extracted, is non-empty, and its cleaned form strips to something |
| `Statement.CleanedPages` | streamlit_app.py:150-158 | reference definition of the page loop: the cleaned text of every kept page, in page order |
| `Statement.CombinedText` | streamlit_app.py:165 | definition: the cleaned pages joined by newlines; stated by `CombinedTextBlank` and `PagewiseCleaning` |
| `Statement.ProcessPages` | streamlit_app.py:146-166 | no pages is an error; otherwise the combined text is the kept cleaned pages joined by newlines, and the rows are the scan of its lines, each with a balance |
| `Statement.PageTexts` | streamlit_app.py:152 | one text per page, in page order: page `k`'s extracted text, or `""` when extraction failed |
| `Statement.PageKeptIff` | streamlit_app.py:155-158 | both directions: a page is kept exactly when its text does not clean to nothing |
| `Statement.CombinedTextBlank` | streamlit_app.py:165 | the combined text is empty exactly when no page was kept |
| `Statement.PagewiseCleaning` | streamlit_app.py:150-165 | cleaning page by page and joining the kept pages equals cleaning all page texts joined by newlines |
| `Statement.SplitJoinedPiece` | streamlit_app.py:165-166 | a line of the combined text is a line of one page |
| `Statement.CleanedPageSource` | streamlit_app.py:152-158 | every combined page comes from a kept page |
| `Statement.CombinedLinesAreClean` | streamlit_app.py:150-166 | the scan only sees non-empty lines without trailing whitespace, header fragments or separator rules |
| `CsvGuard.StartsWithInjection` | streamlit_app.py:65 | definition: the value is non-empty and its first character is one of `CSV_INJECTION_CHARS` |
| `CsvGuard.SanitizeField` | streamlit_app.py:57-67 | the result never starts with an injection character, and it is the value itself or the value behind one added quote |
| `CsvGuard.SanitizeChangesIff` | streamlit_app.py:65-67 | both directions: the value changes exactly when it starts with one of `= + - @ \t \r \n` |
| `CsvGuard.SanitizeIdempotent` | streamlit_app.py:57-67 | sanitizing twice is sanitizing once |
| `CsvGuard.SanitizeRow` | streamlit_app.py:324 | no field of the sanitized row starts a formula |
| `CsvGuard.SafeRowIsStable` | streamlit_app.py:324 | a row with no formula-starting field passes unchanged |
| `CsvGuard.SanitizeRows` | streamlit_app.py:322-325 | one sanitized row per row, in order, each field guarded, none starting a formula |
| `CsvGuard.HeaderIsSafe` | streamlit_app.py:40-51 | the ten column names, written without the guard, start no formula |
| `Scenarios.RemoveCommasOfBalance` | streamlit_app.py:105 | `1,250.00` loses its separator |
| `Scenarios.ClassifyByColumn` | streamlit_app.py:109-114 | an amount alone at column `c` is the balance from 100, the credit from 80, the debit from 60 and ignored below, with the other slots empty |
| `Scenarios.FindAmountsOfPadded` | streamlit_app.py:104 | blanks then one amount yield exactly that match at its column |
| `Scenarios.BalanceLines` | streamlit_app.py:101-120 | an amount line with one amount at column 100 yields that amount as balance, and nothing else |
| `Scenarios.LabelReads` | streamlit_app.py:96-98 | `name: value` reads back `value` |
| `Scenarios.DateLines` | streamlit_app.py:38 | `01-JAN-2024` and `02-JAN-2024` are date lines |
| `Scenarios.DescriptionLine` | streamlit_app.py:188-191 | `Detajet: value` has the label and yields `value` |
| `Scenarios.BeneficiaryLine` | streamlit_app.py:226-230 | `Perfituesi: value` has the label and yields `value` |
| `Scenarios.PlainLine` | streamlit_app.py:172 | a line starting with a letter is not a date line |
| `Scenarios.NoBeneficiaryLabel` | streamlit_app.py:226 | a line without `P` and `M` has no beneficiary label |
| `Scenarios.NoDescriptionLabel` | streamlit_app.py:188 | a line without `D` has no description label |
| `Scenarios.PosBlock` | streamlit_app.py:273-308 | a seven-line card payment yields one row with description, reference, card, date/time and terminal, and the cursor moves by seven |
| `Scenarios.TransferContinuation` | streamlit_app.py:232-235 | the continuation of `Perfituesi: John` is the two stripped lines `Doe`, `Account X`, ending at the date line |
| `Scenarios.BeneficiaryBlock` | streamlit_app.py:226-252 | `Perfituesi: John`, `Doe`, `Account X` before the next date yield the beneficiary `John Doe Account X` |
| `Scenarios.ImmediateNextDateStep` | streamlit_app.py:255-271 | a description followed by a date line leaves the cursor on that line |
| `Scenarios.NoDescriptionStep` | streamlit_app.py:196-216 | a fee without description yields its amounts alone and runs the cursor to the end |
| `Scenarios.TwoTransactions` | streamlit_app.py:171-271 | two consecutive transactions yield their two rows in document order |

## Left out

- Reading the PDF is not modelled: `PdfReader`, the `PDFProcessingError` for an unreadable file, and `page.extract_text()`. `ProcessPages` takes the pages' texts as a parameter. A page whose extraction raised is `None` and is skipped. The warning it shows is not modelled.
- The outer `try` that wraps any other extraction failure as `PDFProcessingError` is not modelled: nothing in the model can fail there.
- `get_file_hash` (SHA-256 of the upload) is not modelled: it is hashing and file I/O, with no effect on parsing.
- `rows_to_csv`: only the sanitizing loop is modelled. `csv.DictWriter` quoting, `writeheader` and the string buffer are left out; they are library code.
- `sanitize_csv_field`: the `isinstance(value, str)` test and the `str(value)` conversion are left out. Every field is a string in the model, so the test always holds.
- The Streamlit user interface and the caching around `process_pdf` are left out; they are UI code.
- Whitespace and digits are ASCII only. Python's `\s`, `\d` and `str.strip` also accept Unicode whitespace and digits, which the model does not.
- `FieldExtract.ExtractFieldSound`: states soundness only. The converse is stated for lines of the form `pre + label: + whitespace + value` (`FieldExtract.ExtractFieldOfLabelledLine`), not for every line.
- A row is a `datatype` with one field per CSV column, in `FIELDNAMES` order, rather than a dictionary.
