# PG-marumie ledger pipeline in Dafny

This project models the in-memory ledger pipeline of PG-marumie. PG-marumie is a dashboard that
reads a Japanese political fund report (収支報告書) from a CSV, XLSX or PDF file into a ledger of
transactions, then derives the views shown on screen:

- category breakdowns and monthly totals;
- the politician's scores and four-letter type;
- the merged pie-chart slices;
- the restaurant and donor rankings;
- the transaction table's filters, sort and pagination;
- the radar-chart ratios;
- the colour of the type badge.

Each source file becomes one module:

| module | models |
|---|---|
| `Ledger` | the records of `lib/types.ts`, with per-type totals |
| `Aggregations` | `lib/calculations/aggregations.ts` |
| `Scores` | `lib/calculations/scores.ts` |
| `CsvParser`, `CsvTemplate` | `lib/parsers/csvParser.ts` |
| `XlsxParser` | `lib/parsers/xlsxParser.ts` |
| `PdfParser` | `lib/parsers/pdfParser.ts` |
| `EraDates` | the Reiwa-date and ISO-like date patterns shared by the three parsers |
| `CategoryPies`, `TopRestaurants`, `TopDonors`, `TransactionTable`, `RadarChart`, `SummaryTable` | the component of the same name under `components/` |

Helper modules:

- `Wrappers`: `Option`.
- `Seqs`: filters, sums, grouping in first-appearance order, last-wins assignment.
- `Sorting`: the stable sort of `Array.prototype.sort`.
- `Text`: trimming, splitting, padding, digit runs, and `parseFloat`.
- `JsMath`: `Math.round`, `Math.min`/`Math.max`, and `toFixed(1)`.
- `Host`: the clock, `uuidv4`, the spreadsheet library's date decoder, `String(x)` and case mapping. These are passed in as values.

How the source's shapes are modelled:

- **Numbers** are `real`. `Math.round(x)` is `⌊x + 0.5⌋`.
- **In-place loops become methods.** Loops that fill a `Map` or push onto an array are `method`s with `while` loops. Each one is proved equal to a reference function: every `forEach`, every `for` over sheet rows, and every `while (regex.exec(...))`. The properties are then proved as lemmas about that function. A JavaScript `Map`, which keeps insertion order, is a key sequence plus a Dafny `map`.
- **The transaction table's state** (`currentPage`, sort field and direction, query, category filter) is a class. Its handlers are methods with `modifies this`.
- **Regular expressions** are functions that match at a position. An unanchored `match` is the leftmost position that matches (`EraDates.Search`).
- **Absent spreadsheet cells** are `Empty`. In a header row, `map` leaves such a hole `undefined`, and a `findIndex` test that calls `includes` on it throws, rejecting the upload's promise. The header lookups return `Option`, with `None` for that throw, and `ParseXlsx` settles as `XlsxOutcome`.
- **The PDF section scanners** keep their regular expressions abstract: their captures are inputs (`PdfMatches`), and the model builds the transactions and the report from them.

## Model

| member | source | states |
|---|---|---|
| `Ledger.TypeTotalSnoc` | lib/calculations/aggregations.ts:15-16 | Appending a transaction raises its own type's total by its amount and leaves the other type's total unchanged. |
| `Aggregations.FirstKeyValueFirst` | lib/calculations/aggregations.ts:112-130 | The lookup returns the value of the first table key, in table order, that occurs in the category. It returns nothing exactly when no key occurs. |
| `Aggregations.CategoryColorFirstKey` | lib/calculations/aggregations.ts:112-130 | A category gets the colour of the first key of its type's table (in `lib/types.ts` order) that is a substring of it. With no such key it gets the type's default, `#64D8C6` for income and `#EF4444` for expense. |
| `Aggregations.Percentage` | lib/calculations/aggregations.ts:31 | The percentage is 0 when the total is not positive, and lies in [0, 100] when 0 ≤ amount ≤ total. |
| `Aggregations.BreakdownRows` | lib/calculations/aggregations.ts:30-41 | There is one row per category key, in key order, each the row of its category. |
| `Aggregations.GroupByCategory` | lib/calculations/aggregations.ts:19-27 | The `forEach` builds a map from each category, in first-appearance order, to its sum of amounts and its count. |
| `Aggregations.RowsFromGroupsRows` | lib/calculations/aggregations.ts:30-41 | The rows built from the finished map equal the rows computed directly from the transactions. |
| `Aggregations.CalculateCategoryBreakdowns` | lib/calculations/aggregations.ts:11-45 | The method's result equals the reference breakdown: the type's transactions grouped by category, then stably sorted by amount. |
| `Aggregations.BreakdownSorted` | lib/calculations/aggregations.ts:44 | Breakdown rows are in non-increasing amount. |
| `Aggregations.BreakdownRowsFaithful` | lib/calculations/aggregations.ts:30-41 | Each row's amount, count, percentage and colour are those of its own category among the transactions of that type. |
| `Aggregations.BreakdownCategoriesOccur` | lib/calculations/aggregations.ts:15-30 | No two rows share a category, and every row's category occurs among the transactions of that type. |
| `Aggregations.BreakdownCategoriesCovered` | lib/calculations/aggregations.ts:15-30 | Every category of a transaction of that type has a row. |
| `Aggregations.BreakdownTotals` | lib/calculations/aggregations.ts:16-27 | The row amounts add up to the type's total, and the row counts add up to the number of transactions of that type. |
| `Aggregations.BreakdownPercentages` | lib/calculations/aggregations.ts:31-37 | Every percentage is 0 when the type's total is not positive. Every percentage is in [0, 100] when no amount is negative. |
| `Aggregations.AccForSnoc` | lib/calculations/aggregations.ts:60-71 | One more dated transaction either leaves another month's entry alone, or adds to its month's entry, or opens that entry. |
| `Aggregations.MonthStepUndated` | lib/calculations/aggregations.ts:74-76 | A transaction whose date cannot be read leaves the month map as it was. |
| `Aggregations.MonthStepDated` | lib/calculations/aggregations.ts:55-73 | A dated transaction adds to its month's entry. If the month is new, it appends the month's key. |
| `Aggregations.MonthStepSeen` | lib/calculations/aggregations.ts:60-71 | The loop step for a month already in the map keeps the map faithful. |
| `Aggregations.MonthStepFirst` | lib/calculations/aggregations.ts:60-73 | The loop step for a new month opens its entry after the others and keeps the map faithful. |
| `Aggregations.RowsFromMonthsEntries` | lib/calculations/aggregations.ts:80-83 | The values of the finished map, in key order, are the reference month entries. |
| `Aggregations.AddToMonth` | lib/calculations/aggregations.ts:55-73 | The loop body yields the month's `yyyy-MM` key and its entry with the amount added. |
| `Aggregations.CalculateMonthlyData` | lib/calculations/aggregations.ts:47-88 | The method's result equals the reference monthly table. |
| `Aggregations.MonthlySorted` | lib/calculations/aggregations.ts:85 | Monthly rows are in non-decreasing month number. |
| `Aggregations.AccForSums` | lib/calculations/aggregations.ts:67-71 | A month's income and expense are the sums of its income and non-income amounts. |
| `Aggregations.MonthRowOfFirst` | lib/calculations/aggregations.ts:60-71 | A month's row holds its income and expense sums and their difference. Its `month` and `monthNumber` come from that month's first transaction. |
| `Aggregations.MonthlyRowsFaithful` | lib/calculations/aggregations.ts:56-85 | The rows are a permutation of the per-month rows. The month keys are distinct, each is the `yyyy-MM` of some readable date, and every readable date's month is among them. So there is exactly one row per distinct month. |
| `Aggregations.MonthRowNamedByFirst` | lib/calculations/aggregations.ts:56-71 | The row of the month of the first transaction in that month carries that date's `yyyy年M月` name and its month number, together with the month's sums and balance. |
| `Aggregations.MonthlyTotals` | lib/calculations/aggregations.ts:67-83 | The income column adds up to the income of the readable-dated transactions, and the expense column to their expense. |
| `Aggregations.MonthlySkipsUndated` | lib/calculations/aggregations.ts:74-76 | Adding a transaction with an unreadable date changes nothing in the monthly table. |
| `Aggregations.MonthlyAddsToMonth` | lib/calculations/aggregations.ts:60-71 | A transaction in a month already seen adds to that month's income (if income) or expense (otherwise). Every other month is unchanged. |
| `Aggregations.EnrichReport` | lib/calculations/aggregations.ts:90-109 | `income`, `expenses` and `monthlyData` are filled from the ledger, each `total` being the ledger sum for its type. The politician, summary, transactions and metadata are unchanged. |
| `Scores.PoliticianMetrics` | lib/calculations/scores.ts:6-76 | Every normalised metric lies in [0, 100]. Each `…ScoreRounded` field is within half of its score, so it is `Math.round` of it. |
| `Scores.ElectionDefault` | lib/calculations/scores.ts:38 | An absent or zero election count reads as 1. Any other count reads as itself. |
| `Scores.LineageDefault` | lib/calculations/scores.ts:48-49 | The lineage is the value of the first digit run in the label. Without a label, or without a digit in it, the lineage is 1. |
| `Scores.MetricsSnoc` | lib/calculations/scores.ts:21-32 | A transaction raises the dining value exactly when its category is 高級レストラン or 懇親会, and the faction value exactly when it is 仲間への寄付, whatever its type. |
| `Scores.RoundScore` | lib/calculations/scores.ts:99-104 | Above 100, the result is a multiple of 10 within 5 of the score. Otherwise it is the nearest integer, halves rounded up. |
| `Scores.OverallScore` | lib/calculations/scores.ts:84-107 | The overall score rounds the product of (the sum of the four unrounded scores) and the lineage, as `RoundScore` states. |
| `Scores.RoundScoreNearestTen` | lib/calculations/scores.ts:100-101 | Above 100, the score is k exactly when k is the multiple of ten within [score - 5, score + 5). |
| `Scores.MbtiDetails` | lib/calculations/scores.ts:125-253 | The code has seven characters. It begins with R exactly when income ≥ 200,000,000 and ends with E exactly when the election value ≥ 5. The S/T letter is S exactly when the lineage ≥ 2. |
| `Scores.TypeCode` | lib/calculations/scores.ts:143-169 | The four-letter code joined by '-'. The definition that the members named here are about: `DimensionsOfMetrics` gives its letters, and `TypeCodeInTable` shows every code it can spell has a table entry. |
| `Scores.DimensionsOfMetrics` | lib/calculations/scores.ts:143-167 | Each dimension has its axis letter, its label and the normalised metric of that axis as its percentage, which lies in [0, 100]. |
| `Scores.Mbti` | lib/calculations/scores.ts:113-120 | The type name is the table name of the type code. |
| `Scores.TypeCodeInTable` | lib/calculations/scores.ts:169-237 | Every code the four letters can spell is one of the sixteen keys. |
| `Scores.TypeAlwaysKnown` | lib/calculations/scores.ts:239 | The type is always found in the table, so the '不明' fallback never shows. |
| `Scores.TableNamesKnown` | lib/calculations/scores.ts:172-237 | No entry of the table is named '不明'. |
| `Scores.DiningFactionLetters` | lib/calculations/scores.ts:150-155 | The code's X exactly when dining ≥ 3,000,000, and L exactly when faction ≥ 1,000,000. |
| `Scores.LineageNotInCode` | lib/calculations/scores.ts:166-169 | Changing the hereditary label changes neither the code nor the type name. |
| `Scores.TypeNamesNotInjective` | lib/calculations/scores.ts:193-210 | R-M-L-N and P-X-L-N have the same name. |
| `CsvParser.ScanLines` | lib/parsers/csvParser.ts:33-41 | The line loop yields the last-wins assignment of the metadata lines' entries. It keeps the non-comment lines in order. |
| `CsvParser.ExtractMetadata` | lib/parsers/csvParser.ts:29-43 | Splitting, scanning and joining give the reference metadata and the text passed to the tokenizer. |
| `CsvParser.EntryOfLine` | lib/parsers/csvParser.ts:35-37 | A `#` line containing `=` assigns the trimmed text before the first `=` to the trimmed text between the first and second `=`. |
| `CsvParser.MetaLineRoundTrip` | lib/parsers/csvParser.ts:35-37 | `#KEY=VALUE`, with a trimmed key and value and no further `=`, reads back as (KEY, VALUE). |
| `CsvParser.NoEqualsNoEntry` | lib/parsers/csvParser.ts:35-40 | A line without `=` assigns nothing. |
| `CsvParser.MetadataLastWins` | lib/parsers/csvParser.ts:33-41 | A key's value is the one on the last metadata line assigning it. |
| `CsvParser.MetadataFromLines` | lib/parsers/csvParser.ts:33-41 | Every metadata key comes from some metadata line. |
| `CsvParser.DataTextWithoutComments` | lib/parsers/csvParser.ts:38-43 | Text without comment lines reaches the tokenizer unchanged. |
| `CsvParser.JapaneseDateIso` | lib/parsers/csvParser.ts:124-126 | A `YYYY/M/D` or `YYYY-M-D` date keeps its shape and every non-slash character, with dashes for slashes. It is not zero-padded. |
| `CsvParser.JapaneseDateOfMatch` | lib/parsers/csvParser.ts:129-136 | A string whose leftmost Reiwa match is (y, m, d) is read as `(2018+y)-mm-dd`, with the captures padded. |
| `CsvParser.JapaneseDateReiwa` | lib/parsers/csvParser.ts:129-136 | `令和{n}年{m}月{d}日` becomes `(2018+n)-mm-dd`, with the month and day padded to two digits. |
| `CsvParser.JapaneseDateUnrecognised` | lib/parsers/csvParser.ts:138 | A non-empty date that is not ISO-like and contains no 令 falls back to today. |
| `CsvParser.JapaneseDateBlank` | lib/parsers/csvParser.ts:121 | A blank or missing date is today. |
| `CsvParser.ParseAmount` | lib/parsers/csvParser.ts:141-145 | The CSV amount reader: an absent or empty value is 0, commas are removed and NaN reads as 0. The definition that the members named here are about (`ParseAmountInt`, `ParseAmountGrouped`). |
| `CsvParser.ParseAmountInt` | lib/parsers/csvParser.ts:141-145 | An integer amount reads as itself. |
| `CsvParser.ParseAmountGrouped` | lib/parsers/csvParser.ts:143-144 | Commas are removed before parsing, so `1,000` is one thousand. |
| `CsvParser.CsvTransactions` | lib/parsers/csvParser.ts:50-60 | There is one transaction per tokenized row. |
| `CsvParser.DeclaredTotalGrouped` | lib/parsers/csvParser.ts:69-70 | A declared total `a,b`: the source reads only `a`, and the corrected reading gives the value of `ab`. |
| `CsvParser.DeclaredTotalPlain` | lib/parsers/csvParser.ts:69-70 | Without grouped digits, both readings of a declared total agree. |
| `CsvParser.ParseCsv` | lib/parsers/csvParser.ts:26-116 | The report is the as-written report `CsvReport`. It is built from the metadata and from the tokenizer's rows of the remaining text, and its declared totals are read by a bare `parseFloat`. |
| `CsvParser.CsvReportGrouped` | lib/parsers/csvParser.ts:69-92 | With `INCOME_TOTAL` declared as `a,b`, the report holds the value of `a` as its income total, and its balance is computed from that value. The corrected report holds the value of `ab`. |
| `CsvParser.CsvReportsAgreeOnPlain` | lib/parsers/csvParser.ts:69-87 | When the four declared amounts are absent, empty or plain integers, the as-written report and the corrected report are equal. |
| `CsvParser.CsvRowsToTransactions` | lib/parsers/csvParser.ts:50-60 | Row i becomes transaction i, which carries the i-th id and the row's parsed amount. It is income exactly when タイプ is '収入'. |
| `CsvParser.CsvTotalsComputed` | lib/parsers/csvParser.ts:69-96 | Undeclared totals are the per-type ledger sums, and the balance is their difference. |
| `CsvParser.CsvTotalsDeclared` | lib/parsers/csvParser.ts:69-87 | When both totals are declared, the summary does not depend on the rows. |
| `CsvParser.CsvWithoutMetadata` | lib/parsers/csvParser.ts:62-87 | Without metadata, name and organisation are '不明', the fiscal year is the current year and both carry-overs are 0. |
| `CsvParser.MetadataEmpty` | lib/parsers/csvParser.ts:33-41 | Text without metadata lines yields empty metadata. |
| `CsvTemplate.ShapeSplit` | lib/parsers/csvParser.ts:30 | Comment lines, metadata lines and plain lines, joined by newlines, split back into the same lines. |
| `CsvTemplate.ShapeCollect` | lib/parsers/csvParser.ts:33-41 | The line loop collects exactly the metadata lines' assignments, in order. |
| `CsvTemplate.ShapeMetadata` | lib/parsers/csvParser.ts:33-41 | Such a text's metadata maps each key to its value and sets no other key. |
| `CsvTemplate.KeysDistinct` | lib/parsers/csvParser.ts:151-157 | The template's seven metadata keys are distinct. |
| `CsvTemplate.TemplateMetadata` | lib/parsers/csvParser.ts:148-165 | Parsing the generated template yields exactly its seven sample metadata values. |
| `EraDates.ReiwaDatePadded` | lib/parsers/pdfParser.ts:134-136 | With one- or two-digit captures, padding the captured month and day as written equals padding their values. |
| `EraDates.SearchLeftmost` | lib/parsers/xlsxParser.ts:286 | An unanchored match is the match at the leftmost matching position. |
| `EraDates.SearchNone` | lib/parsers/xlsxParser.ts:286-287 | The search finds nothing only when no position matches. |
| `EraDates.SearchFound` | lib/parsers/xlsxParser.ts:286-287 | What the search finds is the match at some position. |
| `EraDates.KanjiCanonical` | lib/parsers/csvParser.ts:129-130 | `令和{y}年{m}月{d}日`, matched at its start, yields its three captures. |
| `EraDates.SlashCanonical` | lib/parsers/xlsxParser.ts:286-290 | `R{y}/{m}/{d}`, matched at its start, yields its three captures. |
| `EraDates.IsoLikeDashes` | lib/parsers/xlsxParser.ts:296-297 | Replacing the slashes of a `YYYY/M/D` date by dashes keeps the shape. |
| `EraDates.NotIsoLike` | lib/parsers/csvParser.ts:124 | A string not starting with a digit is not of the `YYYY[/-]M[/-]D` shape. |
| `XlsxParser.Headers` | lib/parsers/xlsxParser.ts:207-208 | The header texts, one per cell, each `String(h \|\| '')` trimmed. It ensures one text per cell. The definition that the members named here are about (`HeaderArrayFacts`, `LegacyColumnsHoledAgrees`, `NewColumnsHoledAgrees`). |
| `XlsxParser.HeaderArray` | lib/parsers/xlsxParser.ts:207-208 | The header array as `map` leaves it, with `None` for a hole. The definition that the members named here are about (`HeaderArrayFacts` and the `…HoledAgrees` lemmas). |
| `XlsxParser.ColumnIndexSpec` | lib/parsers/xlsxParser.ts:254-260 | The index is -1 exactly when no header contains any candidate. Otherwise it is the first header containing the earliest candidate that some header contains. |
| `XlsxParser.FindColumnIndex` | lib/parsers/xlsxParser.ts:254-260 | The early-return loop over the candidates, run on the header array with its holes, gives `ColumnIndexHoled`: `None` as soon as a scan reaches a hole, which `includes` cannot test. |
| `XlsxParser.HeaderArrayFacts` | lib/parsers/xlsxParser.ts:207-208 | The header array's holes are exactly the absent cells of the header row. Every other entry is the trimmed text that `Headers` reads. |
| `XlsxParser.FindIndexHoledSpec` | lib/parsers/xlsxParser.ts:256 | A `findIndex` scan throws exactly when it is an `includes` test that reaches the first hole before any header passes. Otherwise it finds what `FindIndex` finds with holes read as "". |
| `XlsxParser.FindIndexHoledTotal` | lib/parsers/xlsxParser.ts:403-409 | An exact-match (`===`) scan never throws, and no scan throws on a header array without holes. |
| `XlsxParser.ColumnIndexHoledAgrees` | lib/parsers/xlsxParser.ts:254-260 | A `findColumnIndex` call that does not throw finds the column `ColumnIndex` finds with holes read as "". Without holes it never throws. |
| `XlsxParser.ParseAmountYen` | lib/parsers/xlsxParser.ts:262-267 | `1,000円` reads as one thousand: commas and `円` are removed. |
| `XlsxParser.ParseAmountNotNumber` | lib/parsers/xlsxParser.ts:262-270 | Text with no number in it, a date cell and an empty cell all read as 0. |
| `XlsxParser.ReiwaNumericAgrees` | lib/parsers/xlsxParser.ts:288-292 | For one- or two-digit month and day, padding the parsed numbers equals padding the captures, as the CSV and PDF readers do. |
| `XlsxParser.ParseDate` | lib/parsers/xlsxParser.ts:272-301 | The legacy date reader. The definition that the members named here are about (`ParseDateFound`, `ParseDateKanji`, `ParseDateSlash`, `ParseDateIsoLike`, `ParseDateFallback`). |
| `XlsxParser.ParseDateNew` | lib/parsers/xlsxParser.ts:447-475 | The `LINE ITEMS` date reader. The definition that the members named here are about (`ParseDateNewText`, `ParseDateNewNoEra`, `ParseDatesAgreeOnIso`). |
| `XlsxParser.ParseDateFound` | lib/parsers/xlsxParser.ts:284-293 | Text whose leftmost Reiwa match is (y, m, d) is `(2018+y)-mm-dd`. |
| `XlsxParser.ParseDateKanji` | lib/parsers/xlsxParser.ts:286-292 | `令和{y}年{m}月{d}日` is read as the Western date of Reiwa year y. |
| `XlsxParser.ParseDateSlash` | lib/parsers/xlsxParser.ts:286-292 | `R{y}/{m}/{d}` is read as the Western date of Reiwa year y. |
| `XlsxParser.ParseDateIsoLike` | lib/parsers/xlsxParser.ts:296-298 | A `YYYY[/-]M[/-]D` string has its slashes replaced by dashes. |
| `XlsxParser.ParseDateFallback` | lib/parsers/xlsxParser.ts:272-301 | Text with no Reiwa date and not ISO-like is today, and so are an empty cell and a zero cell. |
| `XlsxParser.ParseDateNewText` | lib/parsers/xlsxParser.ts:466-474 | New layout: text is kept exactly when it is `YYYY-MM-DD`, and any other text is today. |
| `XlsxParser.ParseDateNewNoEra` | lib/parsers/xlsxParser.ts:466-474 | New layout: a Reiwa date in text is dated today. |
| `XlsxParser.ParseDatesAgreeOnIso` | lib/parsers/xlsxParser.ts:469-471 | Both layouts keep a `YYYY-MM-DD` string as it is. |
| `XlsxParser.NormalizedCategory` | lib/parsers/xlsxParser.ts:304-336 | The category normalisation. The definition that the members named here are about (`NormalizeCategory`, `NormalizeDonation`, `IndividualDonationShadowed`, `NormalizedNotEmpty`). |
| `XlsxParser.NormalizeCategory` | lib/parsers/xlsxParser.ts:304-336 | The loop over the map entries computes the reference normalisation. |
| `XlsxParser.StripNumberDot` | lib/parsers/xlsxParser.ts:309 | A leading `N.` is removed before a label that starts with a non-space. |
| `XlsxParser.RemoveParenTrailing` | lib/parsers/xlsxParser.ts:309 | For a label without `(` whose ends are not white space, `label (note)` loses ` (note)`. |
| `XlsxParser.CleanNumberedLabel` | lib/parsers/xlsxParser.ts:309 | `N.label (note)` is cleaned to `label`. |
| `XlsxParser.NormalizeNumberedExample` | lib/parsers/xlsxParser.ts:308-313 | `1.組織活動費 (会議費)` normalises to `組織活動費`. |
| `XlsxParser.NormalizeDonation` | lib/parsers/xlsxParser.ts:317-331 | A cleaned label containing 寄附, and none of the four earlier keys, becomes `寄附・交付金`. |
| `XlsxParser.IndividualDonationShadowed` | lib/parsers/xlsxParser.ts:317-324 | No label ever normalises to `個人からの寄附`: its key is shadowed by the earlier key 寄附. |
| `XlsxParser.CategoryValues` | lib/parsers/xlsxParser.ts:312-327 | No map key or value is empty, and only the `個人からの寄附` entry has that value. |
| `XlsxParser.NormalizedNotEmpty` | lib/parsers/xlsxParser.ts:305-335 | The result is never empty. An empty or fully stripped label gets its type's default. |
| `XlsxParser.FiscalYearReiwa` | lib/parsers/xlsxParser.ts:145-151 | A cover value `令和{n}…` names fiscal year 2018 + n. |
| `XlsxParser.FiscalYearR` | lib/parsers/xlsxParser.ts:147-150 | `R{n}` names fiscal year 2018 + n. |
| `XlsxParser.FiscalYearNone` | lib/parsers/xlsxParser.ts:147-148 | A value with neither 令 nor R names no fiscal year. |
| `XlsxParser.ScanMetaRows` | lib/parsers/xlsxParser.ts:129-153 | The `forEach` over a key-value sheet yields the fold of the row step. |
| `XlsxParser.MetaFoldAppend` | lib/parsers/xlsxParser.ts:129-153 | Scanning two row sequences in turn is scanning their concatenation. |
| `XlsxParser.MetaFoldShortRows` | lib/parsers/xlsxParser.ts:130 | Rows of fewer than two cells change nothing. |
| `XlsxParser.CoverLastNameWins` | lib/parsers/xlsxParser.ts:135-136 | The last cover row naming the candidate decides the politician's name. |
| `XlsxParser.TotalsOnlyAmounts` | lib/parsers/xlsxParser.ts:161-176 | The summary sheet sets only the four amounts it reads. |
| `XlsxParser.CoverOnlyIdentity` | lib/parsers/xlsxParser.ts:129-153 | The cover sheet sets only the six identity fields. |
| `XlsxParser.ExtractMetadata` | lib/parsers/xlsxParser.ts:112-180 | The method computes the legacy metadata. |
| `XlsxParser.ExtractMetadataNew` | lib/parsers/xlsxParser.ts:339-385 | The method computes the `META DATA` metadata. |
| `XlsxParser.LegacyMetadataSources` | lib/parsers/xlsxParser.ts:112-180 | Identity fields come from the first cover sheet alone and amounts from the first summary sheet alone. Party, lineage, election count and this year's expense are never set. |
| `XlsxParser.TotalsIndependent` | lib/parsers/xlsxParser.ts:161-176 | The amounts the summary sheet leaves depend only on the amounts before it. |
| `XlsxParser.NumberRows` | lib/parsers/xlsxParser.ts:226-248 | The loop over the data rows builds the transactions of the row step, numbered from `start`. |
| `XlsxParser.NumberedCount` | lib/parsers/xlsxParser.ts:226-231 | There is one transaction per data row that the step keeps. |
| `XlsxParser.LegacySheet` | lib/parsers/xlsxParser.ts:200-248 | The transactions of one detail sheet, its header row read with holes as "". The definition that the members named here are about (`LegacySheetFacts`, `LegacySheetCount`, `ParseLegacySheet`). |
| `XlsxParser.LegacySheetFacts` | lib/parsers/xlsxParser.ts:222-245 | A detail sheet's transactions carry the ids of their positions, no zero amount, the sheet's type (income exactly when the name contains 収入 or 寄附) and a non-empty category. |
| `XlsxParser.LegacySheetCount` | lib/parsers/xlsxParser.ts:226-231 | A detail sheet yields one transaction per non-empty data row with a non-zero amount. |
| `XlsxParser.LegacyFromFacts` | lib/parsers/xlsxParser.ts:200-249 | Across the detail sheets, ids are drawn in order and no amount is 0. |
| `XlsxParser.LegacyTransactionsFacts` | lib/parsers/xlsxParser.ts:182-252 | Transaction k has the k-th id and a non-zero amount. |
| `XlsxParser.FindLegacyColumns` | lib/parsers/xlsxParser.ts:211-219 | The nine lookups, stopped by the first that throws, give `LegacyColumnsHoled`. |
| `XlsxParser.LegacyColumnsHoledAgrees` | lib/parsers/xlsxParser.ts:207-219 | A header row whose lookups do not throw gives the columns `LegacyColumnsOf` finds in its texts. A header row without absent cells never throws. |
| `XlsxParser.LegacyLookupsAgree` | lib/parsers/xlsxParser.ts:211-219 | The same two facts, stated for a header array and its texts. |
| `XlsxParser.LegacyHoleThrows` | lib/parsers/xlsxParser.ts:207-211 | A hole in a detail sheet's header row, with no hole or header containing 年月日 before it, makes the sheet throw at its first lookup. |
| `XlsxParser.LegacyHoleExample` | lib/parsers/xlsxParser.ts:207-211 | A detail sheet headed `日付`, an absent cell, `金額` throws. |
| `XlsxParser.XlsxHoleRejects` | lib/parsers/xlsxParser.ts:207-211 | A workbook with one such sheet named `その14` is rejected. `XlsxParsed`, which reads holes as "", gives a report for it. |
| `XlsxParser.ParseLegacySheet` | lib/parsers/xlsxParser.ts:200-248 | The sheet throws (`None`) exactly when a lookup on its header row throws. Otherwise its transactions are pushed after the ones already there. |
| `XlsxParser.ExtractTransactions` | lib/parsers/xlsxParser.ts:182-252 | `None` exactly when the header row of some detail sheet makes a lookup throw. Otherwise the legacy transactions of all detail sheets. |
| `XlsxParser.FindNewColumns` | lib/parsers/xlsxParser.ts:403-410 | The eight lookups, stopped by the first that throws, give `NewColumnsHoled`. |
| `XlsxParser.NewColumnsHoledAgrees` | lib/parsers/xlsxParser.ts:400-410 | A `LINE ITEMS` header row whose lookups do not throw gives the columns `NewColumnsOf` finds in its texts. A header row without absent cells never throws. |
| `XlsxParser.NewLookupsAgree` | lib/parsers/xlsxParser.ts:403-410 | The first fact, stated for a header array and its texts. |
| `XlsxParser.NewLookupsNoHoles` | lib/parsers/xlsxParser.ts:403-410 | On a header array without holes, none of the eight lookups throws. |
| `XlsxParser.ExactLookupsAgree` | lib/parsers/xlsxParser.ts:403-409 | The four `===` lookups never throw and find what `FindIndex` finds with holes read as "". |
| `XlsxParser.ExtractTransactionsNew` | lib/parsers/xlsxParser.ts:387-445 | `None` exactly when the `LINE ITEMS` header row makes a lookup throw. Otherwise the `LINE ITEMS` transactions. |
| `XlsxParser.NewSheet` | lib/parsers/xlsxParser.ts:395-443 | The transactions of the `LINE ITEMS` sheet, its header row read with holes as "". The definition that the members named here are about (`NewSheetFacts`, `NewSheetCount`, `ExtractTransactionsNew`). |
| `XlsxParser.NewTransactionFields` | lib/parsers/xlsxParser.ts:423-439 | A row is income exactly when タイプ is 収入, and always has a category. It has a recipient exactly when the description is non-empty, that recipient being the description, and it has no notes. |
| `XlsxParser.NewTransactionsFacts` | lib/parsers/xlsxParser.ts:412-442 | New-layout ids are drawn in order, no amount is 0, and every transaction is shaped as above. |
| `XlsxParser.NewSheetCount` | lib/parsers/xlsxParser.ts:413-421 | There is one transaction per non-empty row with a non-zero amount and a non-empty type. |
| `XlsxParser.XlsxParsed` | lib/parsers/xlsxParser.ts:36-95 | The report of a workbook, with header holes read as "". The definition that the members named here are about (`XlsxLayoutChoice`, `XlsxTransactionsInOrder`, `XlsxWithoutHoles`). |
| `XlsxParser.XlsxOutcome` | lib/parsers/xlsxParser.ts:27-100 | What the promise settles with: `None` when a lookup throws on a header hole, else `XlsxParsed`. The definition that the members named here are about (`ParseXlsx`, `XlsxWithoutHoles`, `XlsxHoleRejects`). |
| `XlsxParser.BuildXlsxReport` | lib/parsers/xlsxParser.ts:49-95 | The report is assembled from the metadata and the transactions. |
| `XlsxParser.ParseXlsx` | lib/parsers/xlsxParser.ts:27-100 | The promise settles as `XlsxOutcome`. It is rejected (`None`) exactly when the chosen layout's transaction extraction throws on a header hole. Otherwise it resolves with the report built from that layout's metadata and transactions. |
| `XlsxParser.XlsxWithoutHoles` | lib/parsers/xlsxParser.ts:27-100 | A workbook whose header rows have no absent cells is never rejected. Its outcome is the report `XlsxParsed`. |
| `XlsxParser.XlsxLayoutChoice` | lib/parsers/xlsxParser.ts:36-47 | With both `META DATA` and `LINE ITEMS`, only the new layout is read. Otherwise only the legacy one is. |
| `XlsxParser.XlsxTransactionsInOrder` | lib/parsers/xlsxParser.ts:41-47 | In either layout, ids are in order and no amount is 0. |
| `XlsxParser.XlsxIncomeTotal` | lib/parsers/xlsxParser.ts:62-64 | A declared income total is used as it is, 0 included. Otherwise the income amounts are summed. |
| `XlsxParser.XlsxExpenseSplit` | lib/parsers/xlsxParser.ts:69-70 | With this year's expense and the carry-over declared, the expense total is their sum, and the declared expense total is ignored. |
| `XlsxParser.XlsxExpenseDeclared` | lib/parsers/xlsxParser.ts:71-72 | Otherwise a declared expense total is used whatever the transactions. |
| `XlsxParser.XlsxExpenseComputed` | lib/parsers/xlsxParser.ts:73-77 | With nothing usable declared, the expense total is the sum of the expense amounts. |
| `XlsxParser.XlsxWithoutMetadata` | lib/parsers/xlsxParser.ts:49-88 | Without metadata: '不明' name and organisation, the current year, `balance = income - expense`, and no carry-overs. |
| `PdfParser.ParseAmount` | lib/parsers/pdfParser.ts:204-209 | The PDF amount reader: empty is 0, white space and commas are removed and NaN reads as 0. The definition that the members named here are about (`ParseAmountGrouped`, `ParseAmountDigits`, `ParseAmountNoise`). |
| `PdfParser.ParseAmountGrouped` | lib/parsers/pdfParser.ts:204-208 | Digits separated by any run of white space and commas read as one number. |
| `PdfParser.ParseAmountDigits` | lib/parsers/pdfParser.ts:204-208 | A run of digits is its value. |
| `PdfParser.ParseAmountNoise` | lib/parsers/pdfParser.ts:204-208 | Only white space and commas, or nothing, reads as 0. |
| `PdfParser.LabelledFieldFirst` | lib/parsers/pdfParser.ts:58-63 | A text starting with the key, then white space and a word: the field is that word. |
| `PdfParser.LabelledFieldWord` | lib/parsers/pdfParser.ts:58-63 | A field that is found is a non-empty word without white space. |
| `PdfParser.LabelledFieldMissing` | lib/parsers/pdfParser.ts:58-63 | A text without the key's first character gets the default (the callers pass '不明'). |
| `PdfParser.PdfFiscalYearReiwa` | lib/parsers/pdfParser.ts:66-68 | `令和{n}年分` (or `令{n}年分`) gives fiscal year 2018 + n. |
| `PdfParser.PdfFiscalYearMissing` | lib/parsers/pdfParser.ts:66-69 | A page without 令 gets the current year. |
| `PdfParser.PdfSummaryFigures` | lib/parsers/pdfParser.ts:86-107 | A figure not found is 0, `balance = income - expense`, and there is no separate figure for this year's expense. |
| `PdfParser.PdfSummaryDigits` | lib/parsers/pdfParser.ts:86-104 | Figures captured as digit runs are their values. |
| `PdfParser.BuildEach` | lib/parsers/pdfParser.ts:131-148 | The `while (exec)` loop pushes one transaction per match, numbered on from `start`. |
| `PdfParser.ExtractPdfTransactions` | lib/parsers/pdfParser.ts:110-122 | The ledger is the income section, then the office expenses, then the supplies. |
| `PdfParser.PdfLedgerIds` | lib/parsers/pdfParser.ts:110-199 | There is one transaction per match, and the i-th carries the i-th id. |
| `PdfParser.PdfLedgerDonation` | lib/parsers/pdfParser.ts:131-147 | Donations come first: income in '個人からの寄附', description = recipient = name, notes = occupation, with the padded Reiwa date. |
| `PdfParser.PdfLedgerOffice` | lib/parsers/pdfParser.ts:163-178 | Office expenses come next: expense, category and description '事務所費', the recipient the line names, its amount and padded Reiwa date. |
| `PdfParser.PdfLedgerSupplies` | lib/parsers/pdfParser.ts:184-198 | Supplies come last: expense, category and description '備品・消耗品費', no recipient, its amount and padded Reiwa date. |
| `PdfParser.FullTextPages` | lib/parsers/pdfParser.ts:18-26 | The full text starts with the first page and a newline. |
| `PdfParser.ParsePdf` | lib/parsers/pdfParser.ts:10-54 | The page loop and the sections give the reference report, or none when there is no page. |
| `PdfParser.PdfReportShape` | lib/parsers/pdfParser.ts:29-51 | There is a report exactly when there is a page. Its totals are the summary's, its categories and monthly data are empty, and its fiscal year is the politician's. |
| `CategoryPies.Kept` | components/charts/CategoryPies.tsx:22-25 | Every kept row is an input row at or above the threshold. |
| `CategoryPies.CombineSmallCategories` | components/charts/CategoryPies.tsx:17-42 | The `forEach` and the conditional push compute the reference merge. |
| `CategoryPies.KeptIsFilter` | components/charts/CategoryPies.tsx:22-25 | The kept rows are the input filtered by `amount / total ≥ 0.05`, in their original order. |
| `CategoryPies.KeptAppend` | components/charts/CategoryPies.tsx:22-25 | Keeping distributes over concatenation. |
| `CategoryPies.SmallTotalIsRest` | components/charts/CategoryPies.tsx:20-28 | The merged amount plus the kept amounts is the input's amount. |
| `CategoryPies.CombinedSum` | components/charts/CategoryPies.tsx:20-40 | Output amounts add up to the input's, except a non-positive merged amount, which is dropped. |
| `CategoryPies.SmallTotalPositive` | components/charts/CategoryPies.tsx:26-33 | With non-negative amounts, the merged amount is positive exactly when some small category has a positive amount. |
| `CategoryPies.CombinedShape` | components/charts/CategoryPies.tsx:26-39 | With non-negative amounts: the kept rows, then exactly one grey その他 row when some small category has a positive amount. The output's amounts add up to the input's. |
| `CategoryPies.KeptSlicesLabelled` | components/charts/CategoryPies.tsx:55 | When the total is the sum of the amounts, every kept slice is at least 5% of the pie and so is labelled. |
| `CategoryPies.SmallTotalZeroTotal` | components/charts/CategoryPies.tsx:22-28 | With a zero total, the merged amount is not positive, so no その他 row divides by zero. |
| `TopRestaurants.AggregateRestaurants` | components/charts/TopRestaurants.tsx:43-75 | The `forEach` builds the map: names in insertion order, each record the reference record. |
| `TopRestaurants.EntryPresent` | components/charts/TopRestaurants.tsx:43-47 | A restaurant has a record exactly when some restaurant expense has that trimmed, non-blank description. |
| `TopRestaurants.EntryTotals` | components/charts/TopRestaurants.tsx:51-72 | A record is named by its key and holds the sum and number of its transactions. |
| `TopRestaurants.EntryAddressLongest` | components/charts/TopRestaurants.tsx:54-56 | The address is at least as long as every location of the restaurant. |
| `TopRestaurants.EntryAddressFrom` | components/charts/TopRestaurants.tsx:54-68 | The address is '住所不明' or one of the restaurant's locations. |
| `TopRestaurants.EntryGenreLongest` | components/charts/TopRestaurants.tsx:58-60 | The genre is at least as long as every subcategory. |
| `TopRestaurants.EntryGenreFrom` | components/charts/TopRestaurants.tsx:58-69 | The genre is empty or one of the restaurant's subcategories. |
| `TopRestaurants.EntryUrl` | components/charts/TopRestaurants.tsx:62-70 | The URL is the first non-empty one seen, or ''. |
| `TopRestaurants.RankRestaurants` | components/charts/TopRestaurants.tsx:78-83 | The ranking equals the records sorted by total and cut to ten. |
| `TopRestaurants.TopSorted` | components/charts/TopRestaurants.tsx:81-83 | At most ten restaurants, in non-increasing total. |
| `TopRestaurants.TopDistinct` | components/charts/TopRestaurants.tsx:78-83 | No restaurant is listed twice. |
| `TopRestaurants.TopEntries` | components/charts/TopRestaurants.tsx:78-83 | Every listed restaurant is its own name's record. |
| `TopRestaurants.TopAreTop` | components/charts/TopRestaurants.tsx:81-83 | An unlisted restaurant's total is no larger than any listed one. |
| `TopRestaurants.HeaderCovers` | components/charts/TopRestaurants.tsx:86-89 | The header's count and sum are the records' plus the blank-named expenses. |
| `TopRestaurants.HeaderAtLeast` | components/charts/TopRestaurants.tsx:86-89 | The header count is at least the aggregated count. The header sum is at least the aggregated sum when no amount is negative. |
| `TopDonors.AggregateDonors` | components/charts/TopDonors.tsx:15-21 | The `forEach` keeps a running sum per donor, names in insertion order. |
| `TopDonors.RankDonors` | components/charts/TopDonors.tsx:24-27 | The list is the donors sorted by amount and cut to ten. |
| `TopDonors.TopDonorsSorted` | components/charts/TopDonors.tsx:24-27 | At most ten donors, in non-increasing amount. |
| `TopDonors.TopDonorsDistinct` | components/charts/TopDonors.tsx:24-27 | No donor is listed twice. |
| `TopDonors.TopDonorsAmounts` | components/charts/TopDonors.tsx:16-20 | Every listed donor is the recipient of some income transaction, with the sum of that recipient's amounts. |
| `TopDonors.TopDonorsEmpty` | components/charts/TopDonors.tsx:29-31 | The list is empty, and nothing renders, exactly when no income transaction has a recipient. |
| `TopDonors.TopDonorsAreTop` | components/charts/TopDonors.tsx:24-27 | An unlisted donor gave no more than any listed one. |
| `TransactionTable.Categories` | components/table/TransactionTable.tsx:26-29 | The category options, distinct and sorted. The definition that the members named here are about (`CategoriesSpec`). |
| `TransactionTable.FilteredRows` | components/table/TransactionTable.tsx:32-67 | The searched, filtered and sorted rows. The definition that the members named here are about (`FilteredUnsorted`, `FilteredRowsSpec`, `FilteredRowsSorted`). |
| `TransactionTable.PageOf` | components/table/TransactionTable.tsx:71-74 | The rows of a page. The definition that the members named here are about (`PageSpec`, `PagesCover`). |
| `TransactionTable.CategoriesSpec` | components/table/TransactionTable.tsx:26-29 | The options are exactly the categories that occur, each once, in strictly increasing order. |
| `TransactionTable.FilteredUnsorted` | components/table/TransactionTable.tsx:36-49 | The two filters together keep exactly the visible rows, in order. |
| `TransactionTable.FilteredRowsSpec` | components/table/TransactionTable.tsx:36-64 | The table is a permutation of the visible rows. A row is shown exactly when the lower-cased query occurs in its description, recipient or category (or the query is empty) and the filter is 'all' or its category. |
| `TransactionTable.ComparatorTotal` | components/table/TransactionTable.tsx:52-64 | The comparator orders every pair, for amounts always and for dates and categories when `localeCompare` is consistent. |
| `TransactionTable.FilteredRowsSorted` | components/table/TransactionTable.tsx:52-64 | The table is in the selected comparator's order. |
| `TransactionTable.AmountOrder` | components/table/TransactionTable.tsx:58-62 | Sorted by amount: descending is non-increasing and ascending non-decreasing, between any two positions. |
| `TransactionTable.TotalPages` | components/table/TransactionTable.tsx:70 | The count is 0 exactly when there is no row. Otherwise (count − 1)·50 < n ≤ count·50, that is ⌈n/50⌉. |
| `TransactionTable.Slice` | components/table/TransactionTable.tsx:71-74 | `slice` clamps its bounds, and element i is `s[start + i]`. |
| `TransactionTable.PageSpec` | components/table/TransactionTable.tsx:70-74 | A page holds at most 50 rows, those at its offset. Pages 1 to the count are non-empty, every page before the last is full, and later pages are empty. |
| `TransactionTable.PagesCover` | components/table/TransactionTable.tsx:70-74 | Pages 1 to the count, in order, are exactly the rows. |
| `TransactionTable.TableView.constructor` | components/table/TransactionTable.tsx:18-22 | The initial state: no query, 'all', date descending, page 1. |
| `TransactionTable.TableView.HandleSort` | components/table/TransactionTable.tsx:76-83 | The current field flips its direction, and another field is selected descending. The rows stay a permutation and the page stays valid. |
| `TransactionTable.TableView.SetSearchQuery` | components/table/TransactionTable.tsx:114-117 | A new query resets the page to 1 and keeps the category filter and sort. |
| `TransactionTable.TableView.SetCategoryFilter` | components/table/TransactionTable.tsx:125-128 | A new category resets the page to 1 and keeps the query and sort. |
| `TransactionTable.TableView.PrevPage` | components/table/TransactionTable.tsx:228 | The page becomes max(1, p − 1). The filters and sort are unchanged, and the page stays within [1, max(1, count)]. |
| `TransactionTable.TableView.NextPage` | components/table/TransactionTable.tsx:235 | The page becomes min(count, p + 1). The filters and sort are unchanged, and the page stays within [1, count]. |
| `RadarChart.CalculateMetrics` | components/charts/PoliticianRadarChart.tsx:83-126 | The five ratios and their sums. The definition that the members named here are about (`FixedBaselineRatios`, `IncomeRatios`, `NoIncomeRatios`, `TotalsIgnoreType`, `SocialIncomeWithinIncome`). |
| `RadarChart.RadarData` | components/charts/PoliticianRadarChart.tsx:131-157 | The five points of the chart. The definition that the members named here are about (`RadarDataCapped`). |
| `RadarChart.Divide` | components/charts/PoliticianRadarChart.tsx:86-112 | The quotient is finite exactly for a non-zero divisor. Division by zero gives NaN, +Infinity or -Infinity according to the sign of the dividend. |
| `RadarChart.Percent` | components/charts/PoliticianRadarChart.tsx:86 | `Math.round(x·100)` is the whole number within half a per cent. Infinities and NaN stay as they are. |
| `RadarChart.Cap` | components/charts/PoliticianRadarChart.tsx:131-157 | `Math.min(x, 100)`: never above 100, +Infinity becomes 100, and NaN and -Infinity stay. |
| `RadarChart.RadarDataCapped` | components/charts/PoliticianRadarChart.tsx:131-157 | There are five points, in axis order. `fullValue` is the metric, and `value` is the metric capped at 100. |
| `RadarChart.FixedBaselineRatios` | components/charts/PoliticianRadarChart.tsx:85-112 | The combat, team and social-power ratios are whole per cents within 0.5 of the exact ratio, combat being this year's income over 35,940,000. |
| `RadarChart.IncomeRatios` | components/charts/PoliticianRadarChart.tsx:89-105 | With income this year: defence = round(self / (0.5·income)·100), and social influence comes from social income over this year's income. |
| `RadarChart.NoIncomeRatios` | components/charts/PoliticianRadarChart.tsx:89-105 | Without income this year, both ratios are NaN, +Infinity or -Infinity according to the sign of the sum. |
| `RadarChart.TotalsIgnoreType` | components/charts/PoliticianRadarChart.tsx:89-112 | The self-donation, team and social-spend sums do not depend on transaction types. |
| `RadarChart.SocialIncomeWithinIncome` | components/charts/PoliticianRadarChart.tsx:101-105 | Social influence counts income only: 0 ≤ sum ≤ the income total, and the sum is 0 when no transaction is income. |
| `SummaryTable.TypeColorOfLetters` | components/landing/PoliticianSummaryTable.tsx:28-38 | R with L is gold, R alone blue, L alone green, and neither purple. |
| `SummaryTable.TypeColor` | components/landing/PoliticianSummaryTable.tsx:28-38 | The badge palette of a type code. The definition that the members named here are about (`TypeColorIgnoresSecondAndFourth`, `TypeColorOfMetrics`). |
| `SummaryTable.TypeColorIgnoresSecondAndFourth` | components/landing/PoliticianSummaryTable.tsx:29-37 | The second and fourth letters never change the palette. |
| `SummaryTable.TypeColorOfMetrics` | components/landing/PoliticianSummaryTable.tsx:28-38 | For a scored code: gold exactly when rich and leader, blue exactly when rich only, green exactly when leader only, and purple otherwise. |
| `SummaryTable.ScoreCell` | components/landing/PoliticianSummaryTable.tsx:88 | The cell shows '-' exactly when the score is absent or 0. Otherwise it shows the score. |
| `SummaryTable.TypeCell` | components/landing/PoliticianSummaryTable.tsx:92-110 | A badge is shown exactly when the type and the code are both non-empty, in the code's palette. |

## Left out

- Reading files and libraries. `FileReader`, `XLSX.read`/`sheet_to_json`, pdfjs page extraction and the Papa CSV tokenizer are left out. Their results are inputs: a workbook is a list of named sheets of `Cell` rows, a PDF is its page texts, and the CSV tokenizer is a parameter.
- Library calls passed in as values (`Host.Env`, `TableView`'s constants):
  - `uuidv4` is `newId(n)` for the n-th transaction a parser emits;
  - `new Date()` is today's date, the current year and the upload time;
  - `XLSX.SSF.parse_date_code`;
  - `String(x)` of a number or date cell;
  - `toUpperCase`/`toLowerCase`;
  - `localeCompare`;
  - the date-fns `parse` of `calculateMonthlyData`, a decoder returning an optional date.
- The regular-expression searches of the PDF summary and sections (lib/parsers/pdfParser.ts:86-99, 128, 160, 182). They are heuristic scans of OCR text, so their captures are inputs.
- Floating point. Numbers are exact reals, so rounding error, `-0` and overflow are not modelled. NaN and ±Infinity are modelled for the radar chart's divisions, where a zero divisor occurs in practice. `parseFloat`'s NaN is modelled as `None` (`Text.ParseFloat`, `CsvParser.DeclaredTotalAsWritten`). Where a NaN would be stored in a summary, see `CsvParser.CsvReport` below.
- `parseFloat` does not read `Infinity`. Only decimal literals with an optional fraction and exponent are modelled.
- Strings are sequences of code points. JavaScript lengths and the default `sort()` count UTF-16 code units, which differ for characters outside the Basic Multilingual Plane.
- `toFixed(1)` and `Intl.NumberFormat` display strings. `ToFixed1` models the number the percentage rounds to, not its text.
- The views: rendering, chart geometry (components/charts/PoliticianRadarChart.tsx:49-80, components/charts/CategoryPies.tsx:57-59), `SortIcon`, badges and the images of the top restaurants.
- `TransactionTable.TableView`: the table's `transactions` are fixed. A parent re-rendering with a shorter list while `currentPage` is kept is not modelled, so `Valid()` assumes the list does not change under the state.
- `TransactionTable.TableView.NextPage`: it requires more than one page because the buttons render only then (components/table/TransactionTable.tsx:220).
- The OCR route, the upload and routing pages, URL sharing, the section navigator and the data scripts are outside the ledger pipeline.
- `CsvParser.CsvReport`: a declared total or carry-over that `parseFloat` reads as NaN (such as `abc`) is stored as 0, and the balance computed from it is then finite. The source stores NaN, and its balance is NaN too. A `Summary` holds reals, so NaN cannot be stored there. `DeclaredTotalAsWritten` itself returns `None` for NaN.
- `XlsxParser.Cell`: there is no boolean cell. `sheet_to_json` gives `true` or `false` for a boolean cell, which `!value` and `String(value)` treat differently from text. The model's cells are empty cells, numbers, text and dates only.
- `CategoryPies.OtherRow`: its `count` is 0. The source's その他 object has no `count` at all (components/charts/CategoryPies.tsx:33-38), and no view reads one.
- `XlsxParser.ParseXlsx`: the `!data` check and the rejection for a file that cannot be read are not modelled, because reading the file is outside the model. The rejection for a header hole is modelled (`XlsxOutcome`).
- `PdfParser.ParsePdf`: with no page, `pages[0]` is undefined and `extractPoliticianInfo` throws. The model returns `None` for that case.
- `Scores.MbtiDetails`: the table's descriptions are carried as data. Only their names are stated in lemmas.

## Findings

| source | as written | input that shows it | evidently intended | confidence | as-written member | corrected member |
|---|---|---|---|---|---|---|
| lib/parsers/csvParser.ts:69-87 | Declared totals and carry-overs are read with a bare `parseFloat`, which stops at the first comma. | `#INCOME_TOTAL=10,000,000` gives an income total of 10. | Read them like row amounts: remove the commas first, as `parseAmount` (lib/parsers/csvParser.ts:141-145) does, giving 10,000,000. | high; not executed | `CsvParser.CsvReport` | `CsvParser.CsvReportCorrected` |
| lib/parsers/xlsxParser.ts:207-208 | `String(h \|\| '')` (here and at lines 400-401) turns an empty header into '', but `map` skips the holes `sheet_to_json` leaves for absent cells. Those stay `undefined`, and the next `includes` test on one throws. | A detail sheet `その14` headed `日付`, an absent cell, `金額`: the date lookup scans past `日付` to the hole, and `parseXLSX` rejects (`XlsxParser.XlsxHoleRejects`). | Read an absent header as '', as an empty one is read, so that the sheet gives its transactions. `LegacyColumnsHoledAgrees` and `NewColumnsHoledAgrees` prove the two readings agree whenever the as-written lookups do not throw. | medium; not executed | `XlsxParser.XlsxOutcome` | `XlsxParser.XlsxParsed` |
