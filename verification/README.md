# Invoice collector: field extraction and the session table

This project models the core of a small Streamlit page that collects Taiwanese
uniform invoices (統一發票). The page does two things this model covers:

- **Field extraction** (`extract_info`, app.py:30-70). The OCR fragments of a
  photographed invoice are joined with single spaces. Six independent, leftmost
  regular-expression searches over that one text then fill a six-field record:
  - the seller's 8-digit tax id;
  - the invoice date, with Minguo years converted to Western years;
  - the invoice number;
  - a fixed "95汽油 <litres> L" item line;
  - the sales amount and the tax amount.

  A field whose pattern finds nothing takes its default ("" or "00.000" litres).
- **The session table** (`st.session_state.df`). It has a fixed six-column schema.
  A confirmed record is appended, the edited grid replaces the table, and "clear"
  resets it to an empty table with the same columns.

Layout:

- `text.dfy` (module `Text`): the character classes used by the patterns, decimal
  digit strings (`int(...)` and `str(...)`), and `" ".join`.
- `scan.dfy` (module `Scan`): Python's `re.search` as a leftmost search over a
  matcher anchored at each position.
- `fields.dfy` (module `Fields`): one anchored matcher per pattern, following that
  pattern's backtracking order. Each field function is stated through it, with
  lemmas and worked examples.
- `invoice.dfy` (module `Invoice`): the record, its column names, the dictionary
  the extractor returns, and `ExtractInfo`.
- `table.dfy` (module `RecordTable`): the table's transitions as a function on row
  sequences, plus the class `Table` whose methods update the columns and rows in
  place.

Behaviour of the code that the model keeps:

- **Seller id.** `\b` is the only boundary in the patterns, and it applies to the
  seller id alone. So a 9-digit number, "A12345678" and "號12345678" give no seller
  id, because letters and CJK ideographs are word characters.
- **Invoice number.** "ABC12345678" gives "BC12345678".
- **Date.** "113/05/2024" gives "2024/05/20".
- **Amounts.** For the sales and tax amounts, the code returns the digits after the
  leftmost keyword occurrence *that is followed by* `[: ]*` and a digit. An earlier
  keyword with no digits after it is skipped, because the search keeps scanning. So
  "稅額 N/A Tax:7" gives a tax amount of "7", not "".
- **Fuel litres.** The lazy fuel scan's `.` never crosses a line feed.

## Model

| member | source | states |
|---|---|---|
| Text.Join | app.py:30 | joining no fragments gives the empty text, and the joined text is at least one character per gap long |
| Text.JoinAppend | app.py:30 | joining one more fragment appends exactly one ' ' and then that fragment, so the fragments appear in order with a single space between each two |
| Text.JoinLength | app.py:30 | the joined text has the fragments' total length plus one character per gap |
| Text.JoinWithoutNewline | app.py:30 | if no fragment holds a line feed, the joined text holds none |
| Text.DigitsValue | app.py:42 | `int(t)` of a string of n digits is below 10^n |
| Text.NatToString | app.py:42 | `str(n)` is a non-empty string of ASCII digits without a leading zero |
| Text.NatToStringValue | app.py:42 | `int(str(n)) == n`: the decimal string of the converted year has the year's value |
| Text.FourDigitString | app.py:42 | a year from 1000 to 9999 prints as exactly four digits |
| Scan.Search | app.py:33 | the match found is at the leftmost position where the anchored pattern matches, and there is none exactly when no position matches |
| Scan.FirstAt | app.py:33 | a search from a position returns the match at the first matching position after it |
| Fields.BoundaryBesideDigit | app.py:33 | `\b` beside a digit holds exactly when the other neighbour is a non-word character or the edge of the text |
| Fields.SellerAt | app.py:33 | an anchored match of `\b\d{8}\b` is the eight ASCII digits standing at that position |
| Fields.SellerMatchesAreStandalone | app.py:33 | `\b\d{8}\b` matches at `i` exactly when eight digits sit there with a non-word character or a text edge on each side |
| Fields.SellerId | app.py:33-34 | "" exactly when no standalone 8-digit run exists; otherwise the leftmost such run, of 8 ASCII digits |
| Fields.LongerRunIgnored | app.py:33 | no 8-digit window of a longer digit run is a standalone run |
| Fields.SellerIdExampleAlone | app.py:33-34 | "12345678" gives "12345678" |
| Fields.SellerIdExampleNineDigits | app.py:33-34 | a 9-digit number gives "" |
| Fields.SellerIdExampleAfterLetter | app.py:33-34 | "A12345678" gives "" |
| Fields.SellerIdExampleAfterIdeograph | app.py:33-34 | "號12345678" gives "", since ideographs are word characters |
| Fields.SellerIdExampleAfterLabel | app.py:33-34 | eight digits after "統編:" and before a space are found |
| Fields.MonthDayAt | app.py:37 | a match is two separators from `/ . -` with two digits after each, copied verbatim |
| Fields.DateAt | app.py:37 | an anchored match has a 3- or 4-digit year followed by the separators, month and day, and takes four digits whenever four digits start there |
| Fields.MonthDayAtExactly | app.py:37 | separator, two digits, separator, two digits at a position match there, and only that text does; month and day are copied from it |
| Fields.DateAtExactly | app.py:37 | the date pattern matches at a position exactly when a date with a 4- or 3-digit year stands there; the 4-digit reading wins when both do |
| Fields.InvoiceDateEmpty | app.py:37-38 | the date is "" exactly when no position of the text holds a date shape |
| Fields.NormalizeYear | app.py:40-42 | the year always has four digits; a 4-digit year is kept; a 3-digit year y becomes y+1911, between 1911 and 2910 |
| Fields.FormatDate | app.py:43 | the output is YYYY/MM/DD with '/', holding the normalised year, the month and the day |
| Fields.InvoiceDate | app.py:37-43 | "" exactly when no position matches; otherwise a '/'-separated date made from the leftmost match |
| Fields.DateSeparatorsNormalized | app.py:37-43 | a date at the start of the text is written with '/', whichever two separators it had |
| Fields.MinguoYear113 | app.py:41-43 | year 113 with month 05 and day 20 is written "2024/05/20" |
| Fields.WesternYear2024 | app.py:43 | a 4-digit year 2024 is written unchanged |
| Fields.DateExampleMinguo | app.py:37-43 | "113/05/20" followed by anything gives "2024/05/20" |
| Fields.DateExampleWesternReadLate | app.py:37-43 | "113/05/2024" gives "2024/05/20" |
| Fields.DateExampleDashes | app.py:37-43 | "2024-05-20" followed by anything gives "2024/05/20" |
| Fields.InvoiceAt | app.py:46-47 | an anchored match is two capitals and eight digits (length 10): the capitals at the match position, then the eight digits right after them or after a '-' or ' ' |
| Fields.InvoiceAtExactly | app.py:46-47 | the invoice pattern matches at a position exactly when two capitals, an optional '-' or ' ' and eight digits stand there; the result is letters and digits with the separator dropped |
| Fields.InvoiceNumberEmpty | app.py:46-47 | the invoice number is "" exactly when no position holds two capitals, an optional separator and eight digits |
| Fields.InvoiceNumber | app.py:46-47 | "" or two uppercase letters and eight digits; "" exactly when no position matches; otherwise the leftmost match |
| Fields.InvoiceSeparatorDropped | app.py:46-47 | "AB-12345678", "AB 12345678" and "AB12345678" (with any suffix) all give "AB12345678" |
| Fields.InvoiceExampleNoBoundary | app.py:46-47 | "ABC12345678" gives "BC12345678" |
| Fields.NumberAt | app.py:51 | an anchored number is copied from the text: a digit run, '.', and exactly three digits, where the digit run is the whole run starting there |
| Fields.NumberAtExactly | app.py:51 | whenever a whole digit run, '.', and three digits stand at a position, the number pattern matches there and takes exactly that text |
| Fields.LazyNumber | app.py:51 | whatever the lazy scan finds has the litres shape |
| Fields.FuelAt | app.py:51 | a match after "95" has the litres shape |
| Fields.Liters | app.py:51-52 | the litres always have the shape digits '.' three digits; anything but "00.000" comes from a match |
| Fields.ItemDescription | app.py:53 | the item is never empty: the fixed "95汽油 " label, litres of the right shape, then " L" |
| Fields.LazyNumberIsLeftmost | app.py:51 | without line feeds, the lazy scan with its optional whitespace finds the leftmost number at or after the position |
| Fields.LitersWithoutNewline | app.py:51-52 | without line feeds, the litres are the first `digits.ddd` after the first "95", or "00.000" when none follows it |
| Fields.LitersDefaultWithoutMarker | app.py:52 | a text without "95" gives "00.000" |
| Fields.LitersExample | app.py:51-52 | "95無鉛汽油 23.456" gives "23.456" |
| Fields.LitersThreeDecimals | app.py:51 | only three decimals are taken: "95 12.3456" gives "12.345" |
| Fields.AmountAfter | app.py:57-58 | a match of `[: ]*(\d+)` is a non-empty run of ASCII digits |
| Fields.AmountAfterIsReachableRun | app.py:57-58 | the match is the whole digit run after the separator run, and any digit run reachable over ':' and ' ' is the match |
| Fields.AlternativesFrom | app.py:57-58 | the alternation takes the first keyword that matches with digits after it, and fails only when every alternative fails |
| Fields.KeywordAmountAt | app.py:57-58 | an anchored match is a non-empty digit run following one of the keywords, and there is none exactly when every keyword fails there |
| Fields.Amount | app.py:57-61 | "" or digits; "" exactly when no position matches; otherwise the leftmost anchored match |
| Fields.SalesAmount | app.py:57-60 | the sales amount is "" or ASCII digits |
| Fields.TaxAmount | app.py:58-61 | the tax amount is "" or ASCII digits |
| Fields.AnchoredAmountFollowsKeyword | app.py:57-58 | an anchored match is one of the keywords followed by separators and a whole digit run |
| Fields.AmountAt | app.py:57-61 | the amount is the anchored match at the leftmost position where one exists |
| Fields.AmountFollowsKeyword | app.py:57-61 | a non-empty amount is a whole digit run reached from a keyword over ':' and ' '; and whenever such a run exists the amount is not empty |
| Fields.SalesAmountExample | app.py:57-60 | "銷售額: 1000" gives "1000" |
| Fields.TaxAmountSkipsKeywordWithoutDigits | app.py:58-61 | "稅額 N/A Tax:7" gives "7": a keyword with no digits after it is passed over |
| Invoice.ExtractInfo | app.py:30-70 | every field of the record has its pattern's shape or its default, and the item holds the litres of the joined text |
| Invoice.ItemWithoutNewlines | app.py:51-53 | for fragments without line feeds, the item holds the first number after the first "95" of the joined text |
| Invoice.ExtractInfoOfNothing | app.py:30-70 | no fragments give "" in every field except the item "95汽油 00.000 L" |
| Invoice.ToRow | app.py:63-70 | the returned dictionary has exactly the six column names as keys |
| Invoice.RowRoundTrip | app.py:63-70 | reading the dictionary back by column name gives the record: no field lands in another column |
| Invoice.RowFromColumns | app.py:63-70 | a row keyed by exactly the six columns is the dictionary of the record read from it |
| RecordTable.Step | app.py:93 | a confirm gives the old rows unchanged with the record after them; an edit gives the edited grid; a clear gives no rows |
| RecordTable.Run | app.py:92-119 | the rows after a series of page runs, applied first to last; with no action the rows are unchanged |
| RecordTable.RunLastAction | app.py:100-119 | whatever came before, a last clear leaves no rows and a last edit leaves exactly the edited grid |
| RecordTable.RunConfirmFirst | app.py:92-93 | a confirm first appends its record at the end, then the remaining actions run on that table |
| RecordTable.RunConcat | app.py:93 | running two sequences of actions one after the other is running their concatenation |
| RecordTable.ConfirmsAppendInOrder | app.py:92-93 | confirming records one by one appends them at the end in order and keeps the earlier rows |
| RecordTable.AfterClear | app.py:118-119 | after a clear, the table holds exactly the records confirmed since, in order, whatever came before |
| RecordTable.AfterEdit | app.py:100-103 | after an edit, the table is the edited grid followed by the records confirmed since |
| RecordTable.Table.constructor | app.py:21-24 | a new session's table has the six columns in order and no rows |
| RecordTable.Table.Append | app.py:92-93 | the record becomes the last row; the length grows by one; earlier rows and the six columns are unchanged |
| RecordTable.Table.ReplaceAll | app.py:100-103 | the edited grid becomes the rows and the six columns are unchanged |
| RecordTable.Table.Clear | app.py:118-119 | zero rows and the six columns in their initial order, whatever the table held before |

## Left out

- OCR: building and caching the `easyocr` reader and calling `readtext` (app.py:14-18, app.py:28-29). The model starts from the list of recognised fragments, given as a parameter.
- Image handling with PIL and numpy (app.py:28, app.py:77-80): foreign libraries.
- The Streamlit page: page config, title, camera and uploader, spinner, preview, buttons and `st.rerun` (app.py:11, app.py:73-100, app.py:120). Button presses appear only as the table transitions they trigger.
- The data editor (app.py:100): modelled as replacing the rows with an arbitrary sequence of records. Cells the editor leaves blank (`None`/`NaN`) are not modelled, since every cell is a string.
- Excel export (app.py:106-116): the openpyxl serialiser, the `datetime.now()` file name and the MIME type are an opaque serialiser and the wall clock.
- Unicode `\d` and full Unicode `\w`/`\s`. Digits are the ASCII digits. `\s` is ASCII whitespace. `\b` uses a word-character class passed as a parameter; it must agree with Python on ASCII and count the CJK unified ideographs (U+4E00..U+9FFF) as word characters, and other non-ASCII characters are left open.
- Fields.LitersWithoutNewline: the reference definition "first number after the first 95" is proved only for texts without line feeds. Fields.Liters itself models the line-feed rule of `.`.
- pandas' row index: `ignore_index=True` (app.py:93) renumbers rows 0..n-1, which a sequence's positions already are.
