# KMCC QC dashboard: a Dafny model of its rule and parsing core

The system is a quality-control dashboard for the 용산 (Yongsan) and 광주 (Gwangju) contact centres of KMCC. QC and QA evaluations, customer-satisfaction answers and HR rosters are loaded into BigQuery, and the library turns them into scores, grades, coaching plans and underperformer lists. This project models, in Dafny, the parts of that system that are plain logic over values:

- **The Agit importer** (`scripts/parse-agit-v2.py`):
  - post classification and the QC item / vertical mappers;
  - the segmentation of a weekly QC report comment into service sections, circled-number items and cause/plan fields, and the actions drawn from the report posts;
  - the cell values handed over by a workbook loader and Python's `str()`/`int()`/`float()` on them;
  - the month-end file selection;
  - the Yongsan and Gwangju underperformer sheet layouts;
  - the first-seen dedup across files.
- **The rule engines**:
  - underperformer criteria, resolution, low-quality status, category weaknesses and the coaching tier (`lib/coaching-categories.ts` with `lib/constants.ts`);
  - weekly flags, the trailing run of flagged weeks, heatmap counts, drilldown and effectiveness (`lib/bigquery-coaching.ts`);
  - SLA tier scoring and grading (`lib/sla-config.ts`);
  - Bayesian shrinkage and the statistics guards (`lib/statistics.ts`);
  - shift classification and its SQL twin (`lib/bigquery-hr.ts`);
  - the Thursday-to-Wednesday week arithmetic and probability colour bands (`lib/utils.ts`).
- **Parsers, access control and stateful parts**:
  - the QA and QC sheet parsers (`lib/qa-sheets.ts`, `lib/google-sheets.ts`);
  - the group-change repair (`app/api/fix-groups/route.ts`);
  - the role-based middleware (`middleware.ts`) and the server-side auth helpers (`lib/auth-server.ts`);
  - the centre-comparison grouping helpers (`components/qc/dashboard/center-comparison.tsx`);
  - the five-minute target cache (`lib/bigquery-targets.ts`, a class);
  - the sliding-window rate limiter with its length and cost guards (`lib/ai-cost-protection.ts`, a class).

The form of the model follows the source:

- The pure functions of the source are Dafny functions.
- The loops of the source are methods whose loop invariants tie them to those functions:
  - the item segmenter;
  - the sheet row loops;
  - the counting loops;
  - the SLA accumulation;
  - the rate-limit history pruning.
- The two module-level stores are classes whose methods state their whole new state.
- Values that come from I/O, the clock or foreign libraries are parameters. These include a loaded workbook, `now`, `new Date(text)`, `JSON.parse`, `atob`, and the regression and normal CDF.
- Python regular expressions are written out as scanning functions.
- JavaScript's `parseFloat`, `Number()` and `String()` of a number are written out over exact rationals (`JsNumbers`), with a NaN and two infinities beside the finite values.
- The fix-groups collection takes the line parser as a flag: `fixed = false` is the source's `parseGroupChangeLine`, and `fixed = true` is the corrected parser of the finding below.

Two whitespace sets are used, and they are different:

- `\s` and `strip()` in Python use Python's Unicode whitespace set.
- `\s` and `trim()` in JavaScript use the ECMAScript WhiteSpace and LineTerminator set.

Proving the contracts brought out some behaviour of the code as written. The model keeps this behaviour, and the lemmas named here state it:

- `Hr.SqlShiftOneDigitHour`: for a one-digit start hour such as "3:00~12:00", the TypeScript classifier says overnight but the SQL CASE says day.
- `Middleware.DottedPathsPassUnchecked`: any path containing "." is treated as a static asset and passes with no authentication check. This includes paths under `/api/`.
- `Middleware.LoginAlwaysPasses`: `/login` always passes at the public-path step, so the redirect of a signed-in user that comes after that step is never reached.
- `CostProtection.AllowedPromptIsCheap`: once a prompt passes the length check, its estimated cost is about 2 won. The cost blocks at 500 and 1000 won can therefore never fire.
- `AgitLayouts.GwangjuYear`: the Gwangju file-name test for 2026 always gives the same year as the plain month rule.
- `QaSheets.HeaderRepeatOnlyFirstRow`: only the first data row is tested for a repeated header. A later copy of the header row that has a total score is parsed.

## Model

| member | source | states |
|---|---|---|
| AgitReport.ClassifyPost | scripts/parse-agit-v2.py:108-124 | a title is classified into one of the seven post categories, an empty title is "other", and a post is a QC weekly report exactly when its lower-cased title contains "qc" and one of 리포트, 리포팅, report |
| AgitReport.MapItem | scripts/parse-agit-v2.py:126-133 | an item is unclassified exactly when it is empty or its stripped text contains no key; otherwise the result is the column and category of the first key in table order that it contains |
| AgitReport.ParseVertical | scripts/parse-agit-v2.py:135-155 | the service is one of the known ones and the channel one of 유선, 채팅, 기타. On the compacted lower-case text the service ladder is checked in source order: 주차 (mentions 주차 or 카오너), then 바이크, then 택시 (maas, 택시 or 심야), then 퀵, 대리 and 화물. Each service is chosen exactly when its words occur and no earlier rung's do, and 기타 otherwise. The channel is 유선 exactly when the text mentions 유선, and 채팅 exactly when it mentions 채팅 but not 유선 |
| AgitReport.Markers | scripts/parse-agit-v2.py:253-254 | each marker found is a match of the marker pattern at its start, the markers come in text order without overlapping, there are none exactly when the pattern matches nowhere, and each section end lies between its marker and the text end |
| AgitReport.MarkersComplete | scripts/parse-agit-v2.py:253-254 | no marker is skipped: no position before the first listed marker, between two of them, or after the last one starts a marker |
| AgitReport.SplitServiceSections | scripts/parse-agit-v2.py:252-263 | without a marker the whole text is one 통합 section; otherwise there is one section per marker, named by the marker's service word, whose body is the stripped text from the marker's end to the next marker's start (or the text end) |
| AgitReport.SectionsFollowMarkers | scripts/parse-agit-v2.py:255-256 | the text is left as a single 통합 section exactly when no position starts a marker |
| AgitReport.SplitGlyphs | scripts/parse-agit-v2.py:269 | splitting on the circled digits keeping them gives text and glyph parts alternately, two parts per glyph plus one |
| AgitReport.SplitGlyphsConcat | scripts/parse-agit-v2.py:269 | the split parts concatenate back to the original text |
| AgitReport.CollectItemTexts | scripts/parse-agit-v2.py:270-283 | the scan collects, for every glyph, the text part that follows it, and nothing else |
| AgitReport.FallbackItems | scripts/parse-agit-v2.py:285-290 | a text without glyphs yields at most one item, named 기타, and one exactly when it has a cause or a plan field |
| AgitReport.ItemOf | scripts/parse-agit-v2.py:292-304 | an item is kept only when its name, cause or plan is non-empty, and all three have their whitespace runs collapsed and no blanks at the ends |
| AgitReport.ItemsOf | scripts/parse-agit-v2.py:265-306 | without glyphs the items are the fallback item; with glyphs they are the kept items of the texts after the glyphs, at most one per glyph |
| AgitReport.ParseItemsFromSection | scripts/parse-agit-v2.py:265-306 | the loop's items equal the reference items of the section text |
| AgitReport.WeekLabel | scripts/parse-agit-v2.py:334-337 | the week label is rendered from the first "N월 M주차" in the parent post's text, else from the comment's, and is empty exactly when neither has one |
| AgitReport.WeekOfRendered | scripts/parse-agit-v2.py:334-337 | a rendered label "N월 M주차" is found again with the same month and week |
| AgitReport.WeekLabelIdempotent | scripts/parse-agit-v2.py:334-337 | taking the week label of a week label gives the label itself |
| AgitReport.ItemCategory | scripts/parse-agit-v2.py:361 | an action's item category is the category group its item name maps to |
| AgitReport.SectionActions | scripts/parse-agit-v2.py:358-379 | a section's actions are its items numbered from 1 in order, with the section's service, the item's name, cause, plan and category, and the key made of post id, service and number |
| AgitReport.SectionKeysDistinct | scripts/parse-agit-v2.py:363 | two actions of the same section never share a key |
| AgitReport.CommentActions | scripts/parse-agit-v2.py:356-379 | a comment yields exactly as many actions as its sections have items, all under the comment's post, parent and week label |
| AgitReport.UnsplitReportActions | scripts/parse-agit-v2.py:255-256 | a comment without service markers gives the actions of one 통합 section over the whole text |
| AgitReport.QcParents | scripts/parse-agit-v2.py:313-316 | the id map holds exactly the ids of original posts categorised as QC weekly reports, each mapped to such a post |
| AgitReport.ReportReplies | scripts/parse-agit-v2.py:320-325 | the replies read are exactly the comments whose parent is a QC report post and whose non-empty text mentions 원인 or 방안 |
| AgitReport.ReportRepliesInOrder | scripts/parse-agit-v2.py:320-325 | the replies are the report replies in post order, each once: with the increasing list of every report-reply position, the k-th reply is the post at the k-th position |
| AgitReport.QcWeeklyActions | scripts/parse-agit-v2.py:308-383 | the result is the actions of each report reply (ReplyActions), joined reply by reply in post order; every action's parent is a QC report post and its post is one of the report replies |
| AgitReport.ReplyActions | scripts/parse-agit-v2.py:330-380 | every action of one reply carries that reply's post id and parent id |
| AgitReport.RepliesActionsConcat | scripts/parse-agit-v2.py:330-380 | walking the replies yields exactly each reply's actions (ActionLists, one list per reply) joined in reply order |
| AgitSheets.SafeStr | scripts/parse-agit-v2.py:77-80 | a missing value gives the empty text and any other value its text without blanks at either end |
| AgitSheets.Trunc | scripts/parse-agit-v2.py:575 | int() of a float truncates toward zero: the integer lies within 1 of the value, on the side of zero |
| AgitSheets.SafeFloat | scripts/parse-agit-v2.py:82-91 | a missing value, or a text that is empty, "-", "N/A" or "n/a" once '%' is removed and it is stripped, gives None; any other text gives what float() reads from it |
| AgitSheets.SafeFloatOfInt | scripts/parse-agit-v2.py:82-91 | an integer cell is read by safe_float as that integer |
| AgitSheets.IntRoundTrip | scripts/parse-agit-v2.py:575 | the decimal text of an integer is read back as the same integer by both int() and float() |
| AgitSheets.CountValueOfInt | scripts/parse-agit-v2.py:782 | an integer count cell is read by int(float(str(v))) as itself |
| AgitSheets.CountValueOfBool | scripts/parse-agit-v2.py:782 | a boolean cell makes int(float(str(v))) raise, so it gives no count |
| AgitSheets.SearchMonthWeek | scripts/parse-agit-v2.py:409 | a "M월 W주차" match gives a one- or two-digit month and a one-digit week found at some position, and there is none exactly when the pattern matches nowhere |
| AgitSheets.SearchMonth | scripts/parse-agit-v2.py:414 | the month-only pattern is found with a one- or two-digit month, and is missing exactly when it matches nowhere |
| AgitSheets.FilePeriod | scripts/parse-agit-v2.py:408-419 | a file name gives a month and week exactly when it names a month; without a week pattern the week is 0 |
| AgitSheets.MonthWeekHasMonth | scripts/parse-agit-v2.py:408-419 | a name with a month and week also names a month, so the month-only fallback never rejects a name the first pattern accepts |
| AgitSheets.ExcelEntry | scripts/parse-agit-v2.py:396-421 | a walked file is kept exactly when it is an .xlsx file with its center's keyword and names a month, and it is kept with that month and week |
| AgitSheets.ExcelFilesSound | scripts/parse-agit-v2.py:390-423 | every collected file is a walked name that passed the center's filter and carries its name's period |
| AgitSheets.MonthFilesPresent | scripts/parse-agit-v2.py:428-430 | a month has files in the grouping exactly when some collected file is of that month |
| AgitSheets.LastMax | scripts/parse-agit-v2.py:434-435 | the file taken for a month has the highest week, and no later file of that month has the same week, as the stable sort and its last element give |
| AgitSheets.GroupByMonth | scripts/parse-agit-v2.py:428-430 | the grouping holds exactly the months that have files, each with that month's files in order |
| AgitSheets.SelectMonthEndFiles | scripts/parse-agit-v2.py:426-439 | one file per month that has files, months ascending, each being the last file of the highest week of its month |
| AgitLayouts.SearchYearPeriod | scripts/parse-agit-v2.py:500-502 | a match of the Yongsan sheet-name pattern with its optional "(NN년)" prefix is a match at some position, and there is none exactly when the pattern matches nowhere |
| AgitLayouts.YearPatternIffPlain | scripts/parse-agit-v2.py:500-502 | the optional year prefix never decides whether a name matches: the Yongsan pattern matches exactly when the plain "M월 W주차" pattern does |
| AgitLayouts.GuessYear | scripts/parse-agit-v2.py:512-516 | a sheet without a year is dated 2025 exactly when its month is July or later, and 2026 otherwise |
| AgitLayouts.GwangjuYear | scripts/parse-agit-v2.py:681-685 | the Gwangju year rule that checks the file name for 2026 first gives the same year as the plain month rule for every file name |
| AgitLayouts.ApproxDate | scripts/parse-agit-v2.py:518-524 | the approximate date exists exactly when the year, month and week are valid for datetime, and is day 7 times the week of that month, capped at 28 |
| AgitLayouts.WeekLabelReadBack | scripts/parse-agit-v2.py:526 | the week label "M월 W주차" reads back as the same month and week |
| AgitLayouts.YongsanPeriod | scripts/parse-agit-v2.py:500-516 | a Yongsan sheet name yields a year, month and week exactly when the pattern matches; a written two-digit year gives 2000 plus it and a missing year the month rule |
| AgitLayouts.GwangjuPeriod | scripts/parse-agit-v2.py:670-675 | a Gwangju sheet name yields a month and week exactly when "M월 W주차" matches, the month below 100 and the week a single digit |
| AgitLayouts.YongsanSheet | scripts/parse-agit-v2.py:496-526 | a Yongsan sheet is skipped exactly when its name mentions 개요 or 요약, has no period, or lies in another month than the target; otherwise it gets its month, week, label and approximate date |
| AgitLayouts.GwangjuSheet | scripts/parse-agit-v2.py:666-695 | a Gwangju sheet is skipped exactly when its name mentions 개요, 요약 or 기준, has no period, or lies in another month than the target; otherwise it gets its month, week, label and approximate date |
| AgitLayouts.YesNo | scripts/parse-agit-v2.py:582-589 | a Y/N cell reads true exactly for Y and false exactly for N, both case-insensitively after stripping, and a missing cell reads neither |
| AgitLayouts.ReasonText | scripts/parse-agit-v2.py:620 | the reason list joined with commas gives the fallback exactly when there is no reason, and splits back into the same reasons otherwise |
| AgitLayouts.YongsanColumnsChoice | scripts/parse-agit-v2.py:443-473 | the week columns are missing exactly when the sheet name has no week, there is no header row 2, or no header cell shows "주차"; otherwise the group starts at the first cell showing the sheet's label, else at the last cell showing "주차" |
| AgitLayouts.FindYongsanWeekColumns | scripts/parse-agit-v2.py:443-473 | the two scans over header row 2 compute exactly the reference week-column group |
| AgitLayouts.FirstDataRowFirst | scripts/parse-agit-v2.py:534-545 | the data start is the first row whose second cell is the integer 1, and is missing exactly when no row has one |
| AgitLayouts.FindDataStart | scripts/parse-agit-v2.py:534-545 | the scan for the data start returns exactly the reference first data row |
| AgitLayouts.YongsanReasons | scripts/parse-agit-v2.py:610-619 | the reasons come in the fixed order QA, attitude, ops, evaluation, and each is present exactly when its flag is set |
| AgitLayouts.YongsanReason | scripts/parse-agit-v2.py:610-620 | the Yongsan reason is 기타 exactly when no flag is set, and otherwise splits back into the ordered reasons |
| AgitLayouts.YongsanRowRecord | scripts/parse-agit-v2.py:547-647 | a row gives a record exactly when it is a numbered data row with a name and id and a Y low-quality flag in column 22; the record carries the sheet's data, the row's name and id, the weekly Y/N errors and the derived reason |
| AgitLayouts.ParseYongsanRows | scripts/parse-agit-v2.py:547-647 | the loop over the data rows keeps exactly the rows that give a record, in order |
| AgitLayouts.ParseYongsanSheet | scripts/parse-agit-v2.py:496-647 | the per-sheet parse equals the reference records of the sheet |
| AgitLayouts.ParseYongsanXlsx | scripts/parse-agit-v2.py:476-649 | the loop over the sheets gives exactly the reference workbook records |
| AgitLayouts.YongsanWorkbookRecord | scripts/parse-agit-v2.py:476-649 | every Yongsan record comes from a sheet that was not skipped and carries that sheet's data; with a target month its label is of that month |
| AgitLayouts.AllInSpec | scripts/parse-agit-v2.py:727-731 | the collected rows are exactly the rows satisfying the test, in increasing order |
| AgitLayouts.ScanFlagColumns | scripts/parse-agit-v2.py:709-724 | one pass over a header row keeps the last column showing each low-quality header, and the previous column where none shows it |
| AgitLayouts.FindSheetFlagColumns | scripts/parse-agit-v2.py:708-724 | the flag columns come from header row 6, and from row 7 only when row 6 has no low-quality flag column |
| AgitLayouts.SectionStartsSpec | scripts/parse-agit-v2.py:727-731 | the section starts are exactly the rows whose third cell starts with digits and a dot, in increasing order |
| AgitLayouts.Positive | scripts/parse-agit-v2.py:777-789 | a QC count cell gives a value exactly when it is present and reads as an integer, and gives true only for a count of at least 1 |
| AgitLayouts.GwangjuReasonSpec | scripts/parse-agit-v2.py:809-816 | the Gwangju reason is QC미달 exactly when the type text mentions neither 태도 nor 상담; otherwise it lists the attitude reason exactly when the type mentions 태도 and the ops reason exactly when it mentions 상담 |
| AgitLayouts.GwangjuRowRecord | scripts/parse-agit-v2.py:749-838 | a row gives a record exactly when it is a numbered agent row with a name and id and a Y low-quality flag; the record carries the sheet's data, the id, the type note, the derived reason, and the weekly errors read from the target week's columns when it has them |
| AgitLayouts.ParseGwangjuRows | scripts/parse-agit-v2.py:749-838 | the row loop of a section keeps exactly the rows that give a record, in order |
| AgitLayouts.ParseGwangjuSections | scripts/parse-agit-v2.py:726-838 | the loop over the sections gives exactly the reference records of the sheet's data |
| AgitLayouts.ParseSection | scripts/parse-agit-v2.py:733-747 | one section's parse, with its own flag columns from the NO row, equals the reference records of that section |
| AgitLayouts.ParseGwangjuSheet | scripts/parse-agit-v2.py:666-838 | the per-sheet parse equals the reference records of the sheet |
| AgitLayouts.ParseGwangjuXlsx | scripts/parse-agit-v2.py:653-841 | the loop over the sheets gives exactly the reference workbook records |
| AgitLayouts.GwangjuWorkbookRecord | scripts/parse-agit-v2.py:653-841 | every Gwangju record comes from a sheet that was not skipped and carries that sheet's data; with a target month its label is of that month |
| AgitUnderperforming.DedupedKeys | scripts/parse-agit-v2.py:884-891 | the dedup drops no key: the kept records have exactly the keys of the input |
| AgitUnderperforming.DedupedDistinct | scripts/parse-agit-v2.py:884-891 | no two kept records share a (center, agent id, week label) key |
| AgitUnderperforming.DedupedFirst | scripts/parse-agit-v2.py:884-891 | each kept record is the first record of its key in the input |
| AgitUnderperforming.DedupedInOrder | scripts/parse-agit-v2.py:884-891 | the dedup keeps input order: with the increasing list of the positions that hold the first record of their key, the k-th kept record is the record at the k-th position |
| AgitUnderperforming.DedupedIdempotent | scripts/parse-agit-v2.py:884-891 | a second dedup changes nothing |
| AgitUnderperforming.DistinctDeduped | scripts/parse-agit-v2.py:884-891 | input whose keys are already distinct passes through unchanged |
| AgitUnderperforming.Dedup | scripts/parse-agit-v2.py:884-891 | the loop with a seen set produces exactly the reference dedup |
| AgitUnderperforming.ParseFile | scripts/parse-agit-v2.py:860-883 | a selected file gives its center's workbook records for that file's month, and none when loading or parsing it raised |
| AgitUnderperforming.ParseCenter | scripts/parse-agit-v2.py:860-883 | the loop over a center's selected files concatenates their records in order |
| AgitUnderperforming.Loaded | scripts/parse-agit-v2.py:860-872 | each selected file is paired with what the loader made of it, in order |
| AgitUnderperforming.RunCenter | scripts/parse-agit-v2.py:852-883 | a center's pass selects one last file of the highest week per month, months ascending, and parses exactly those files in that order |
| AgitUnderperforming.ParseUnderperforming | scripts/parse-agit-v2.py:844-899 | the result is the dedup of Yongsan's records followed by Gwangju's, each center parsing exactly its month-end files |
| Coaching.Contribution | lib/coaching-categories.ts:56-61 | an error entry adds its count only when it maps to a category and is positive, so never a negative amount |
| Coaching.CategoryErrorSum | lib/coaching-categories.ts:56-61 | a category's error sum is never negative |
| Coaching.WithQcItems | lib/coaching-categories.ts:63-64 | filtering the categories keeps at most all of them |
| Coaching.WithQcItemsOfCoachingCategories | lib/coaching-categories.ts:63-64 | the categories with QC items are exactly the first six, in order |
| Coaching.QcAggregateShape | lib/coaching-categories.ts:47-70 | six rows, one per category with QC items in order, each with a non-negative count, and rate = count / total (0 when there are no evaluations) |
| Coaching.QcAggregateRows | lib/coaching-categories.ts:63-69 | row i is the row of the i-th coaching category |
| Coaching.QcRowFacts | lib/coaching-categories.ts:65-69 | a row carries its category's id and is well formed |
| Coaching.CategoryIndex | lib/constants.ts:424-495 | every category id appears in COACHING_CATEGORIES |
| Coaching.AggregateQcByCategory | lib/coaching-categories.ts:47-70 | the three loops (zeroing, accumulation, read-out) compute the aggregate rows |
| Coaching.ZeroTotals | lib/coaching-categories.ts:51-54 | every category starts with the total 0 |
| Coaching.AccumulateErrors | lib/coaching-categories.ts:56-61 | after the entry loop every category holds the sum of its positive counts |
| Coaching.ReadOutRows | lib/coaching-categories.ts:63-69 | the filter-map read-out gives one row per category with QC items |
| Coaching.QaItems | lib/coaching-categories.ts:100-106 | the kept items are among the category's keys, with a positive maximum taken from the map |
| Coaching.SumsBounded | lib/coaching-categories.ts:108-109 | with each score within its maximum, the score sum lies in [0, maximum sum] |
| Coaching.QaRateInUnitInterval | lib/coaching-categories.ts:108-110 | with scores within their maxima, a category's QA rate lies in [0, 1], 1 when it has no item |
| Coaching.QaItemsWithin | lib/coaching-categories.ts:100-106 | scores within their maxima give items within their maxima |
| Coaching.FullMarksSums | lib/coaching-categories.ts:100-109 | full marks on every item make the score sum equal the maximum sum |
| Coaching.Clamp | lib/coaching-categories.ts:156 | Math.max(lo, Math.min(hi, x)) lies in [lo, hi] and is x when x already does |
| Coaching.Assess | lib/coaching-categories.ts:142-190 | score in [0, 100]; critical iff below 60, weak iff in [60, 80), normal from 80; confidence high iff at least 15 evaluations, low iff fewer than 5 |
| Coaching.AssessCategoryWeaknesses | lib/coaching-categories.ts:128-192 | one assessment per coaching category: eight |
| Coaching.AssessCategoryWeaknessesFacts | lib/coaching-categories.ts:142-190 | assessment i is for category i, scored in [0, 100] with the severity bands |
| Coaching.AssessAll | lib/coaching-categories.ts:142 | one assessment per category, in order |
| Coaching.FindQcRate | lib/coaching-categories.ts:139-147 | looking up a QC row among rows with rate 0 finds rate 0 |
| Coaching.AssessPerfect | lib/coaching-categories.ts:146-156 | no QC errors and full QA marks give the score 100 |
| Coaching.QcAggregateOfNoEntries | lib/coaching-categories.ts:47-70 | with no error entries every QC rate is 0 |
| Coaching.QaAggregateFullMarks | lib/coaching-categories.ts:89-114 | full marks give every category the QA rate 1 |
| Coaching.QaCategoryFullMarks | lib/coaching-categories.ts:99-112 | full marks give a category the QA rate 1 |
| Coaching.FindQaRate | lib/coaching-categories.ts:140-149 | looking up a QA row among rows with rate 1 finds rate 1 |
| Coaching.NoErrorsFullMarksIsNormal | lib/coaching-categories.ts:128-192 | no QC errors with full QA marks give every category the score 100 and the severity normal |
| Coaching.FindTier | lib/coaching-categories.ts:371 | find: the first tier from `from` whose [minRisk, maxRisk) band holds the risk, or none |
| Coaching.BaseTierBands | lib/coaching-categories.ts:371-372 | a risk in [0, 100) gets the tier of its 20-point band; any other risk falls back to the last tier 긴급 |
| Coaching.DetermineCoachingTier | lib/coaching-categories.ts:364-409 | the tier's rank equals the closed form ExpectedTierRank: a new hire is lifted to at least 주의, an early agent and a risk worsened by 10 or more each add one step, capped at 긴급, then an existing underperformer is lifted to at least 위험. When only the worsening rule fires, the tier is exactly one above the base, capped at 긴급. The tier is never below the base tier and at most two above it. The new-hire and early reasons are recorded exactly when those rules fire. With no rule firing it is the base tier and the only reason is the risk band |
| Coaching.DetermineReportMode | lib/coaching-categories.ts:424-435 | daily_intensive iff tenure below 1 month; daily_conditional iff tenure in [1, 2) and underperforming |
| Coaching.ReportModeWeeklyFromTwoMonths | lib/coaching-categories.ts:424-435 | from two months of tenure the mode is weekly_phased |
| Coaching.WeeklyReportPhaseIsWeekOfMonth | lib/coaching-categories.ts:441-446 | the phase of day d is min((d - 1) / 7, 3), and later days never have an earlier phase |
| Coaching.EvalCriterion | lib/coaching-categories.ts:474-540 | the result carries the criterion's id, threshold and minEvals; an excluded result is never flagged; evalCount is set exactly for the qc_ criteria |
| Coaching.EvaluateUnderperformingCriteria | lib/coaching-categories.ts:459-544 | one result per configured criterion, in configuration order |
| Coaching.QaKnowledgeRule | lib/coaching-categories.ts:481-495 | qa_knowledge is excluded iff tenure below 1 month or no score, and flagged iff it is not and the score is at most 7 |
| Coaching.QcCriteriaRule | lib/coaching-categories.ts:497-516 | qc_attitude and qc_ops are excluded iff fewer than 10 evaluations, else flagged iff the rate reaches 15 or 10 respectively |
| Coaching.CsatCriterionRule | lib/coaching-categories.ts:518-526 | csat_low_score is never excluded and is flagged iff at least 3 low scores in the week or 12 in the month |
| Coaching.FindCriterion | lib/coaching-categories.ts:558-559 | find by id: a configured criterion with that id, or none when no criterion has it |
| Coaching.AllAtMostLastTwo | lib/coaching-categories.ts:576-581 | the slice of the last two values all at most the threshold is the two-week resolution test |
| Coaching.CheckResolutionRules | lib/coaching-categories.ts:553-585 | unknown id gives false; qa_knowledge resolves iff the next month scores at least 7; qc_attitude and qc_ops iff the last two weeks are at most 15 and 10; csat_low_score iff the next month has at most 12, or without one the last two weeks at most 3; fewer values give false |
| Coaching.DetermineLowQualityStatus | lib/coaching-categories.ts:595-626 | low quality iff at least 3 consecutive flagged weeks or 3 criteria flagged in the month, with a reason exactly then, the weeks reason first; new-hire exempt iff tenure below 3 months |
| Coaching.CountFlagged | lib/coaching-categories.ts:657 | at most one flagged count per result |
| Coaching.CountFlaggedOfFour | lib/coaching-categories.ts:657 | over four results the count is the number of flagged ones |
| Coaching.CountFlaggedPositive | lib/coaching-categories.ts:657-658 | the flagged count is positive exactly when some result is flagged |
| Coaching.UnderperformingStatusFacts | lib/coaching-categories.ts:632-678 | agent, consecutive weeks and resolved criteria pass through; the four criteria are the evaluated ones; flaggedCount is the number of flagged criteria, isFlagged iff some criterion is flagged, allResolved iff something is flagged and at least flaggedCount criteria are resolved; the low-quality fields are those of determineLowQualityStatus; a hire under one month with fewer than 10 QC evaluations has at most one flagged criterion |
| Constants.CenterQcTargetsIsTableLookup | lib/constants.ts:23-34 | 용산 and 광주 get their own CENTER_TARGET_RATES row and every other centre the 전체 row |
| Constants.NormalizeService | lib/constants.ts:183-214 | a mapped service name becomes its display name and any other name stays |
| Constants.DisplayServiceNameIdempotent | lib/constants.ts:233-236 | mapping a display name again changes nothing |
| Constants.GetTenureBand | lib/constants.ts:517-522 | new_hire below 2 months, early in [2, 6), standard in [6, 12), experienced from 12 |
| Constants.TenureBandMonotone | lib/constants.ts:517-522 | a longer tenure never gets an earlier band |
| Constants.GetTenureCategory | lib/constants.ts:266-274 | the category is one of the four tenure categories, namely the one at the threshold index |
| Constants.TenureCategoryIndex | lib/constants.ts:269-274 | the index is 0 exactly below 3 months, at most 1 exactly below 6, at most 2 exactly below 12, and within the category list |
| Constants.TenureCategoryMonotone | lib/constants.ts:266-274 | the category is the one at its index, and a longer tenure never gets an earlier category |
| Constants.FindGrade | lib/constants.ts:329-331 | find: the first grade from `from` on whose minimum the score reaches, no earlier one reaching, none when no grade does |
| Constants.GetQaScoreGrade | lib/constants.ts:321-331 | the grade is one of QA_SCORE_GRADES: 우수 exactly from 92, 양호 exactly in [90, 92), 보통 in [88, 90), 미흡 in [85, 88), and 부진 (the fallback) exactly below 85 |
| Constants.QaScoreGradeTotalAndMonotone | lib/constants.ts:321-331 | every non-negative score finds a grade, so the fallback is never used, and a higher score never gets a worse grade |
| Constants.ItemsMap | lib/constants.ts:500-505 | the map sends exactly the category's items to its id |
| Constants.BuildQcErrorToCategory | lib/constants.ts:500-505 | the nested loops build the reverse map of the categories' QC items |
| Constants.ErrorMapLookup | lib/constants.ts:500-505 | with disjoint item lists, each item maps to the category that lists it |
| Constants.ErrorMapKeys | lib/constants.ts:500-505 | an item is a key exactly when some category lists it |
| Constants.CountQcItemsIsLength | lib/constants.ts:424-495 | the item count is the length of the concatenated item lists |
| Constants.InAllQcItems | lib/constants.ts:424-495 | every listed item is in the concatenation |
| Constants.DisjointFromDistinct | lib/constants.ts:424-495 | distinct concatenated items make the categories' item lists disjoint |
| Constants.QcItemKeysDistinct | lib/constants.ts:66-89 | the sixteen QC item keys are distinct |
| Constants.AllQcItemsOfCoachingCategories | lib/constants.ts:424-495 | the categories list exactly the QC item keys, in order |
| Constants.CoachingCategoriesDisjoint | lib/constants.ts:424-495 | no QC item belongs to two categories |
| Constants.CoachingCategoriesItemCount | lib/constants.ts:424-495 | the categories list sixteen items in all |
| Constants.CoachingCategoriesCoverQcItems | lib/constants.ts:14-18 | the categories cover the QC_TOTAL_ITEM_COUNT = 5 + 11 items without overlap |
| Constants.QcErrorToCategoryCorrect | lib/constants.ts:496-505 | QC_ERROR_TO_CATEGORY sends every item to the category that lists it |
| Constants.TierAt | lib/constants.ts:508-514 | the tier of a rank has that rank |
| Constants.CoachingTiersPartition | lib/constants.ts:508-514 | the tiers are listed in rank order and their [minRisk, maxRisk) bands partition [0, 100) |
| CoachingQueries.WeekFlags | lib/bigquery-coaching.ts:1348-1368 | a week is flagged for attitude exactly when it has at least 10 evaluations and an attitude rate of at least 15, for ops exactly when it has at least 10 evaluations and an ops rate of at least 10, and for CSAT exactly when it has at least 3 low scores; QA is never flagged and the flags come in attitude, ops, CSAT order |
| CoachingQueries.WeekFlagsAgreeWithCriteria | lib/bigquery-coaching.ts:1355-1357 | the weekly QC flags coincide with the underperformer engine's QC criteria on the same weekly data, and a weekly CSAT flag implies the CSAT criterion is flagged |
| CoachingQueries.CountConsecutiveFlaggedWeeks | lib/bigquery-coaching.ts:1376-1389 | the count is the length of the trailing run of weeks with at least one flag: every counted week is flagged and the week just before the run is not |
| CoachingQueries.TrailingFlaggedUnique | lib/bigquery-coaching.ts:1376-1389 | any count with those two properties equals the reference trailing-run length, so the method's result is determined |
| CoachingQueries.WeakPlusCriticalBounded | lib/bigquery-coaching.ts:683-701 | no agent is counted both weak (above 5) and critical (above 10) in one category, so the two counts never exceed the number of agents |
| CoachingQueries.CountCategory | lib/bigquery-coaching.ts:683-701 | the loop's weak and critical counts equal the reference counts, stay within the agent count, and are zero for a category without a rate field |
| CoachingQueries.NoFieldNoCounts | lib/bigquery-coaching.ts:674-677 | satisfaction and communication have no QC rate field, so no agent is weak or critical in them |
| CoachingQueries.HeatmapGroup | lib/bigquery-coaching.ts:647-704 | a group's heatmap has one cell per category key, in order, each over all the group's agents with the reference weak and critical counts |
| CoachingQueries.GroupMap | lib/bigquery-coaching.ts:236-240 | every group row's depth2 and depth3 key is present in the group distribution map |
| CoachingQueries.LastKeyIndex | lib/bigquery-coaching.ts:236-240 | the index found has the key and no later row has it; -1 means no row has the key |
| CoachingQueries.GroupMapLast | lib/bigquery-coaching.ts:236-240 | a key is in the group distribution map exactly when some group row has it, and its value is the error count of the last such row, since Map.set overwrites |
| CoachingQueries.Drilldown | lib/bigquery-coaching.ts:225-260 | one result per agent row, in order. Each result keeps the row's depth2 (NULL becomes ""), its depth3 (NULL and "" become null) and its error count. Its error share is the count's percentage of the agent's total. Its group share is the percentage of the group total held by the group map under the `depth2\|depth3` key, or 0 when the key is absent. A row is highlighted exactly when its error share exceeds 1.5 times the group share. With no agent (group) errors every error (group) share is 0 |
| CoachingQueries.DrilldownPercentagesSumTo100 | lib/bigquery-coaching.ts:246-249 | when the agent has any errors, the unrounded error shares of all rows add up to exactly 100 |
| CoachingQueries.ImprovedAtMostCoached | lib/bigquery-coaching.ts:1085-1091 | in each category the improved agents are among the coached ones |
| CoachingQueries.CoachingEffectiveness | lib/bigquery-coaching.ts:1072-1109 | totalCoached is the row count; improvedCount counts the rows whose current rate is below the previous one, and improvementRate is its rounded percentage. There are six category rows, in the source's order; each counts the rows with previous errors in that category (coached), and those with fewer errors now (improved), and gives the rounded rate. Improved never exceeds coached, and every rate is 0 without coached agents and lies between 0 and 100 |
| CoachingQueries.RatioBounded | lib/bigquery-coaching.ts:1097-1105 | a rounded percentage of a part of a whole lies between 0 and 100 |
| CoachingQueries.PlanTenureMonths | lib/bigquery-coaching.ts:785-791 | tenure defaults to 12 months without a hire date, otherwise it is the month difference floored at 0, and is never negative |
| CoachingQueries.CoachingFrequencyMatchesTiers | lib/bigquery-coaching.ts:902 | the plan's coaching frequency for a tier is the frequency the tier table lists for it, and different tiers get different frequencies |
| Sla.FindGradeRow | lib/sla-config.ts:20-36 | the first row from `from` on whose minScore the total reaches; every earlier row is out of reach, and None only when no row is |
| Sla.GetGradeBands | lib/sla-config.ts:20-36 | S from 94, A in [92, 94), B in [90, 92), C in [85, 90), D in [80, 85), E below 80, and E carries the rate 0.97 |
| Sla.GetGradeMonotone | lib/sla-config.ts:20-36 | a higher total never gets a worse grade nor a lower rate |
| Sla.FirstMatch | lib/sla-config.ts:485-503 | the first tier from `from` that the actual value meets in the metric's direction; no earlier tier matches; None when none does |
| Sla.OrderedPairwise | lib/sla-config.ts:48-246 | in a best-first tier list, a later tier scores no more and has a threshold no better than an earlier one |
| Sla.MatchTierMonotone | lib/sla-config.ts:485-503 | with tiers listed best first, a better actual value never scores less |
| Sla.MatchTierWithin | lib/sla-config.ts:485-503 | the tier score lies in [0, maxScore], including the fallback to the last tier |
| Sla.WellFormedIsWithin | lib/sla-config.ts:48-246 | a well-formed metric (first tier scores maxScore, tiers best first) has every tier score within [0, maxScore] |
| Sla.ConfiguredMetricsWellFormed | lib/sla-config.ts:48-246 | every configured productivity, quality and personnel metric is well formed |
| Sla.ConfiguredMaxScores | lib/sla-config.ts:48-246 | the productivity maxScores sum to 60 and the quality maxScores to 40 |
| Sla.Details | lib/sla-config.ts:516-550 | one detail row per always-scored metric |
| Sla.PresentDetails | lib/sla-config.ts:552-569 | at most one detail row per personnel metric: only those whose key is present |
| Sla.ScoreMetrics | lib/sla-config.ts:516-550 | the loop total is the sum of the tier scores, a missing value counting as 0, and the detail rows are those of Details |
| Sla.ScorePresentMetrics | lib/sla-config.ts:552-569 | the personnel loop total sums only the metrics whose key is present, with matching detail rows |
| Sla.CalculateSla | lib/sla-config.ts:506-590 | the three subtotals, the deduction sum, total = their sum, grade and rate = getGrade(total), details in config order |
| Sla.ScoreSumBounds | lib/sla-config.ts:516-550 | a subtotal over well-formed metrics lies in [0, sum of their maxScores] |
| Sla.PresentScoreSumBounds | lib/sla-config.ts:552-569 | the personnel subtotal lies in [0, sum of maxScores] whatever keys are present |
| Sla.ConfiguredScoreBounds | lib/sla-config.ts:506-575 | under either centre's configuration productivity lies in [0, 60], quality in [0, 40], personnel in [0, 7] |
| Sla.AchievementRateBounds | lib/sla-config.ts:528 | a score within [0, maxScore] has an achievement rate within [0, 100], and a full positive score has exactly 100 |
| Sla.DetailRateWithin | lib/sla-config.ts:516-569 | every detail row of a well-formed metric carries an achievement rate within [0, 100] |
| Statistics.WeightedMean | lib/statistics.ts:303-304 | the pooled rate of two non-negative counts lies between the two rates, is the second rate when the first count is 0, and the common rate when both agree |
| Statistics.BayesianShrinkage | lib/statistics.ts:27-51 | adjustedRate solves (n + k) * adjusted = n * raw + k * prior, lies between raw and prior, is the prior at n = 0; confidence high iff n >= 15, moderate iff 5 <= n < 15, low below 5 |
| Statistics.ShrinkageConfidenceAgrees | lib/statistics.ts:35-42 | the confidence band is the shared evaluation-count band used by the coaching rules |
| Statistics.ShrinkageCloserWithMoreEvals | lib/statistics.ts:33 | with a raw rate at or below the prior, more evaluations never raise the adjusted rate |
| Statistics.BayesianShrinkageBatch | lib/statistics.ts:57-65 | one result per agent, in order, each the agent's id with its shrinkage towards the group average |
| Statistics.StabilizationDelayMonotone | lib/statistics.ts:382-389 | a hire delayed at a higher sigma threshold is delayed at every lower one |
| Statistics.DetectTrend | lib/statistics.ts:80-84 | no trend (null) exactly when there are fewer than the minimum number of weeks; otherwise the regression result handed in |
| Statistics.TestWeaknessSignificance | lib/statistics.ts:296-308 | no evaluations, or a pooled rate outside (0, 1), gives not significant with z 0 and p 1; otherwise the z-test handed in on the pooled rate |
| Statistics.NoErrorsNotSignificant | lib/statistics.ts:303-308 | an agent and a group with no errors are never significant |
| Hr.ShiftOfHour | lib/bigquery-hr.ts:30-33 | overnight iff the hour is 22 or later or 3 or earlier, evening iff 16 <= hour < 22, day iff no hour or 4 <= hour < 16 |
| Hr.StartHourText | lib/bigquery-hr.ts:29 | the text handed to parseInt holds neither "~" nor ":" |
| Hr.ClassifyShiftOfStart | lib/bigquery-hr.ts:28-34 | a work-hours string "h:rest" with a plain h is classified by parseInt of h |
| Hr.ClassifyShiftExamples | lib/bigquery-hr.ts:28-34 | 08:00~17:00 is day, 16:00~01:00 evening, 22:00~07:00 overnight |
| Hr.ShiftLabelInjective | lib/bigquery-hr.ts:37-43 | distinct shifts have distinct labels (주간, 야간, 심야) |
| Hr.SafeCastInt64 | lib/bigquery-hr.ts:47-50 | SAFE_CAST of a non-empty digit string is its decimal value |
| Hr.ClassifyShiftOfTwoDigits | lib/bigquery-hr.ts:28-53 | on a two-digit "hh:" start the TypeScript classifier and the SQL CASE agree, and both classify by the two-digit hour with the same thresholds |
| Hr.SqlShiftOneDigitHour | lib/bigquery-hr.ts:28-53 | on a one-digit start "3:00~12:00" they disagree: overnight in TypeScript, day in SQL (SUBSTR takes "3:", the cast fails) |
| WeekUtils.DayOfWeek | lib/utils.ts:16 | getDay lies in 0..6, Sunday first |
| WeekUtils.GetThursdayWeek | lib/utils.ts:14-23 | the week starts on the Thursday at or before the day and ends six days later on a Wednesday; the day lies inside it |
| WeekUtils.ThursdayWeekUnique | lib/utils.ts:14-23 | any Thursday within six days before the day is the week's start |
| WeekUtils.ThursdayWeekStable | lib/utils.ts:14-23 | every day of a Thursday week maps to that same week |
| WeekUtils.GetPrevThursdayWeek | lib/utils.ts:26-31 | the previous week starts exactly seven days before the current week's Thursday and spans seven days |
| WeekUtils.YearLength | lib/utils.ts:36 | a calendar year has 365 or 366 days |
| WeekUtils.YearOf | lib/utils.ts:36 | getFullYear: the day lies between the start of its year and the start of the next |
| WeekUtils.YearOfUnique | lib/utils.ts:36 | the year containing a day is unique |
| WeekUtils.YearStartMonotone | lib/utils.ts:36 | later years start later |
| WeekUtils.WeekIndex | lib/utils.ts:36-38 | the week number of a day in its year lies in 1..54 |
| WeekUtils.WeekNumber | lib/utils.ts:34-38 | the week number of the Thursday week lies in 1..54 |
| WeekUtils.WeekIndexNext | lib/utils.ts:36-38 | seven days later within the same year is the next week number |
| WeekUtils.WeekNumberNext | lib/utils.ts:34-38 | the next Thursday week in the same year has the next week number |
| WeekUtils.WeekLabelShape | lib/utils.ts:34-40 | the label is "YYYY-Wnn": four digits of the Thursday's year, "-W", two digits of the week number |
| WeekUtils.PadDigitsValue | lib/utils.ts:39 | padStart(2, "0") keeps the digits and their value |
| WeekUtils.GetStatusColorsByProbability | lib/utils.ts:72-121 | achieved iff p >= 80, onTrack iff 60 <= p < 80, caution iff 40 <= p < 60, warning iff 20 <= p < 40, risk below 20; colours and label follow the level |
| WeekUtils.StatusMonotone | lib/utils.ts:72-121 | a higher probability never gets a worse status |
| FixGroups.FindMatch | app/api/fix-groups/route.ts:555-559 | the leftmost position from which the change-line pattern (date, optional blanks, '/', a lazy from-part, an arrow '->' or '→', a to-part) matches is found, and no earlier position matches |
| FixGroups.ParseGroup | app/api/fix-groups/route.ts:567-585 | the service, channel and shift taken from comma-split, trimmed parts never contain a comma |
| FixGroups.NormalizeChangeDate | app/api/fix-groups/route.ts:563-565 | a date is rejected exactly when it does not split on '-' into three parts; otherwise the result splits again into three parts, the same year and the month and day each kept as the tail of a part at least two characters long |
| FixGroups.ParseGroupChangeLine | app/api/fix-groups/route.ts:548-586 | the as-written parser returns a change only when the pattern matches and neither date separator is '/', and its date is then in canonical YYYY-MM-DD form |
| FixGroups.ParseGroupChangeLineFixed | app/api/fix-groups/route.ts:548-586 | the corrected parser returns a change exactly when the pattern matches, with its date in canonical YYYY-MM-DD form |
| FixGroups.MatchedDateCanonical | app/api/fix-groups/route.ts:561-565 | a matched date normalises to a canonical YYYY-MM-DD text with zero-padded month and day |
| FixGroups.AsWrittenDate | app/api/fix-groups/route.ts:561-565 | replacing only '.' and splitting on '-' normalises the matched date exactly when neither separator is '/' |
| FixGroups.FixedDate | app/api/fix-groups/route.ts:561-565 | replacing both '.' and '/' with '-' first normalises every matched date to its canonical form |
| FixGroups.ParseAccepts | app/api/fix-groups/route.ts:548-586 | the as-written parser accepts a line exactly when the pattern matches and neither date separator is '/', and then returns the matched date in canonical form with the trimmed from and to groups |
| FixGroups.FixedParseAccepts | app/api/fix-groups/route.ts:548-586 | the corrected parser accepts a line exactly when the pattern matches, and then returns the canonical date with the trimmed from and to groups |
| FixGroups.FixedExtendsAsWritten | app/api/fix-groups/route.ts:556-565 | the correction only adds lines: whatever the as-written parser accepts, the corrected one accepts with the same change, and the two differ exactly on matched lines with a '/' date separator |
| FixGroups.NoArrowNoChange | app/api/fix-groups/route.ts:555-559 | a line without an arrow is never a group change, for either parser |
| FixGroups.SlashDateCounterexample | app/api/fix-groups/route.ts:556-565 | "2025/9/1 / A -> B" matches the pattern but the as-written parser rejects it, while the corrected one reads it as a change on 2025-09-01 from A to B |
| FixGroups.ParseGroupText | app/api/fix-groups/route.ts:567-585 | a group written as "service,channel,shift" with clean fields parses back to the same group |
| FixGroups.ParseChangeLine | app/api/fix-groups/route.ts:548-586 | a change written as "date / from -> to" with a canonical date and clean groups parses back to the same change with both parsers |
| FixGroups.LastNotAfter | app/api/fix-groups/route.ts:605-615 | the backward scan stops at the last change whose date is not after the evaluation date, and every change it passes is after that date |
| FixGroups.GetCorrectGroupAtDate | app/api/fix-groups/route.ts:591-618 | the loop's result equals the reference group-at-date function |
| FixGroups.GroupAtDateSorted | app/api/fix-groups/route.ts:591-618 | on date-sorted changes, an evaluation before the first change gets that change's from-group, and one on or after change k and before change k+1 gets change k's to-group |
| FixGroups.AddChange | app/api/fix-groups/route.ts:350-355 | a change is appended exactly when no recorded change has the same date and origin service, so the first of two duplicates is kept and recorded keys stay distinct |
| FixGroups.NonBlank | app/api/fix-groups/route.ts:343 | only non-blank lines of the cell are kept, each one taken from the split pieces |
| FixGroups.AddParsed | app/api/fix-groups/route.ts:345-356 | recording a parse adds at most the row's agent, touches no other agent, keeps an existing entry's name and centre, and keeps change keys distinct |
| FixGroups.AddParsedRecords | app/api/fix-groups/route.ts:345-356 | a line that does not parse changes nothing. A parsed change adds the row's agent and sets its changes to the old list (empty for a new entry) with the change appended unless its date and origin service are already recorded; a new entry takes the row's trimmed name and centre |
| FixGroups.AddLinesKeeps | app/api/fix-groups/route.ts:343-357 | with either line parser, the lines of one cell change only the row's agent and keep every agent's change keys distinct |
| FixGroups.AddRow | app/api/fix-groups/route.ts:335-358 | with either line parser, a row without an id or change text leaves the collection unchanged; otherwise only its trimmed id can be added and change keys stay distinct |
| FixGroups.CollectSpec | app/api/fix-groups/route.ts:335-358 | with either line parser (the as-written one is the source's), every collected agent has distinct change keys and comes from some row's trimmed id; what it holds is stated by CollectHas, CollectSound and CollectKeepsFirst |
| FixGroups.CollectExtends | app/api/fix-groups/route.ts:335-358 | later rows never drop an agent, never change its name or centre, and only append to its changes |
| FixGroups.AddLinesAll | app/api/fix-groups/route.ts:343-357 | recording a cell's lines is recording each line's trimmed parse in order |
| FixGroups.AddRowSound | app/api/fix-groups/route.ts:335-358 | a change present after one more row was present before or is the parse of one of that row's lines, under that row's trimmed id |
| FixGroups.CollectHas | app/api/fix-groups/route.ts:335-358 | completeness: every line that parses, in a row with an id and a change text, leaves its date and origin service among that agent's changes (the converse of CollectSound) |
| FixGroups.CollectSound | app/api/fix-groups/route.ts:335-358 | soundness: every recorded change is the parse of a line of a row with that agent's trimmed id and a change text |
| FixGroups.CollectKeepsFirst | app/api/fix-groups/route.ts:349-355 | the first change recorded for a date and origin service is kept: it stays recorded after all rows, and no other change with that key is |
| FixGroups.RecordChange | app/api/fix-groups/route.ts:346-356 | the in-place update of the agent map equals recording the parsed change |
| FixGroups.RecordLine | app/api/fix-groups/route.ts:344-356 | parsing one trimmed line with the chosen parser (as written: parseGroupChangeLine) and recording the change when it parses equals the reference step |
| FixGroups.RecordLines | app/api/fix-groups/route.ts:343-357 | the per-line loop over one cell equals recording all its lines, for either line parser |
| FixGroups.CollectChanges | app/api/fix-groups/route.ts:335-358 | the loop over the sheet rows builds exactly the reference collection, for the source's parser and for the corrected one alike |
| FixGroups.CollectStep | app/api/fix-groups/route.ts:335-341 | one more row adds the changes of its lines, or nothing when its trimmed id or change text is empty |
| FixGroups.InsertByDate | app/api/fix-groups/route.ts:362-364 | inserting a change keeps every change and adds the new one |
| FixGroups.SortByDateSorted | app/api/fix-groups/route.ts:362-364 | the changes sorted by date text are in date order and are a permutation of the input |
| FixGroups.SortAll | app/api/fix-groups/route.ts:362-364 | sorting keeps the agents, their names and centres, and sorts each agent's changes |
| FixGroups.CorrectionFor | app/api/fix-groups/route.ts:404-436 | an evaluation gets a correction exactly when its agent has changes, the group at its date is a real service, and its stored service and channel differ from that group; the correction carries the stored and correct values |
| FixGroups.Corrections | app/api/fix-groups/route.ts:404-437 | there is at most one correction per evaluation, none to an invalid service, and each changes the service or the channel |
| FixGroups.CorrectionsAreRowResults | app/api/fix-groups/route.ts:404-437 | the corrections are exactly the existing per-row CorrectionFor results, in evaluation-row order |
| FixGroups.BuildCorrections | app/api/fix-groups/route.ts:404-437 | the loop over evaluation rows builds exactly the reference corrections |
| AuthTypes.ParseRole | middleware.ts:35-37 | a role string is accepted exactly when it is the text of one of hq_admin, manager, instructor, agent, and then gives that role |
| AuthTypes.RoleTextInjective | middleware.ts:35-37 | distinct roles have distinct texts |
| AuthTypes.RequiredFields | middleware.ts:127-134 | the payload is rejected iff it is not an object, or the trimmed userId or userName is empty, or the role is not valid; otherwise the trimmed id and name and the role |
| Middleware.StrOrNull | middleware.ts:140-143 | an optional field is kept exactly when the key holds a string |
| Middleware.ParseAuthCookie | middleware.ts:123-148 | a cookie is accepted iff it decodes to JSON with the required fields; the payload has non-empty trimmed id and name, the raw role, and centre, service, channel and agentId each the string-or-null value of its field |
| Middleware.PageAccessRule | middleware.ts:162-166 | hq_admin may open every page; any other role exactly the pages at or under its own prefix |
| Middleware.PublicPathExamples | middleware.ts:150-152 | /api/auth/login is public, /api/authx and /manager are not: a prefix matches only at a "/" boundary |
| Middleware.UserHeaders | middleware.ts:229-235 | x-user-id and x-user-role come first, with the user's id and role |
| Middleware.UserHeadersOptional | middleware.ts:229-235 | each x-user-* header carries the expected value: id and role always; centre, service and channel URI-encoded and agent-id raw, each set exactly when its field is a non-empty string; no other header is set, and they come in the order id, role, centre, service, channel, agent-id, each once |
| Middleware.HeaderLookup | middleware.ts:229-235 | looking any name up among the headers set gives the value the middleware assigns it, or nothing |
| Middleware.DecisionOrder | middleware.ts:180-261 | static or public paths pass; no auth gives 401 on /api/ and a login redirect (with redirect= unless /) for pages; /login goes home; a forbidden /api/ path gives 403, a forbidden page redirects home; otherwise pass with the user headers |
| Middleware.PublicLogin | middleware.ts:48-49 | /login is public and not an API path |
| Middleware.LoginAlwaysPasses | middleware.ts:184-191 | /login always passes, signed in or not, so the redirect of step 5 is never reached |
| Middleware.HeadersOnlyWhenAllowed | middleware.ts:219-260 | user headers are injected only for a valid cookie whose role may reach the path |
| Middleware.DottedPathsPassUnchecked | middleware.ts:154-159 | any path containing "." passes with no authentication check, /api/ paths included |
| AuthServer.KeepSqlSafe | lib/auth-server.ts:47 | the character filter keeps only word characters, Hangul syllables, ".", "-", whitespace and "/", and never lengthens |
| AuthServer.KeepSqlSafeOfSafe | lib/auth-server.ts:47 | the filter leaves an already safe string unchanged |
| AuthServer.SafeHasNoQuote | lib/auth-server.ts:46-47 | a safe string holds no quote, double quote, semicolon or backslash |
| AuthServer.TrimOfSafe | lib/auth-server.ts:47 | trimming keeps a string safe |
| AuthServer.SanitizeSqlValue | lib/auth-server.ts:45-48 | the result is safe (no quote, double quote, semicolon or backslash), has no leading or trailing whitespace, and is no longer than the input |
| AuthServer.SanitizeSqlValueIdempotent | lib/auth-server.ts:45-48 | sanitising twice is sanitising once |
| AuthServer.SanitizeSqlValueOfClean | lib/auth-server.ts:45-48 | a safe, trimmed value is left unchanged |
| AuthServer.SanitizeIdentifier | lib/auth-server.ts:54-59 | accepted iff the value is present and its sanitised form has 1 to 100 characters, and then it is that sanitised form |
| AuthServer.SanitizeIdentifierIdempotent | lib/auth-server.ts:54-59 | an accepted identifier is accepted again unchanged |
| AuthServer.SanitizeJsonField | lib/auth-server.ts:120-123 | a truthy non-string field makes .replace throw (the whole parse fails); a string field is sanitised; a falsy one is null |
| AuthServer.ParseAuthPayload | lib/auth-server.ts:100-128 | accepted iff the JSON object has the required fields and no optional field throws; id and name non-empty, role as given, every optional field a clean identifier |
| AuthServer.CleanField | lib/auth-server.ts:120-123 | every accepted optional field is null or safe, trimmed and 1 to 100 characters |
| AuthServer.ServerAcceptsOnlyWhatMiddlewareAccepts | lib/auth-server.ts:100-128 | a cookie accepted by the server is accepted by the middleware check with the same id, name and role |
| AuthServer.GetServerAuth | lib/auth-server.ts:72-94 | a non-empty cookie that parses wins; otherwise a "Bearer " authorization header whose token base64-decodes gives the identity its decoded text parses to; with neither there is no identity |
| AuthServer.RequireAuth | lib/auth-server.ts:142-148 | denied with 401 exactly when there is no identity; otherwise the identity |
| AuthServer.RequireRole | lib/auth-server.ts:160-167 | granted exactly when the role is among those listed; otherwise 403 |
| AuthServer.GuardOrder | lib/auth-server.ts:142-167 | authentication then role: no identity is 401, a wrong role 403, a listed role passes |
| AuthServer.EscapeQuotes | lib/auth-server.ts:200 | quote escaping leaves a quote-free string unchanged |
| AuthServer.GetScopeFilter | lib/auth-server.ts:190-215 | hq_admin has no filter; instructor and manager filter on the sanitised centre, agent on the sanitised agent id; no filter when the identifier is rejected |
| AuthServer.ScopeLiteralClosed | lib/auth-server.ts:190-215 | every filter is empty or compares one column to a literal holding no quote or backslash, so the literal cannot be closed early |
| AuthServer.ScopeFilterOfParsed | lib/auth-server.ts:100-215 | for a parsed identity the filter uses the stored centre or agent id as it is, with no further change |
| QaSheets.MatchKoreanMonth | lib/qa-sheets.ts:89-92 | a match of ^(\d{w})년\s*(\d{1,2})월$: the year group has w digits and is the prefix before 년, the month group has one or two digits, and the text ends in 월 |
| QaSheets.MatchDashMonth | lib/qa-sheets.ts:95-97 | a match of ^(\d{4})-(\d{1,2})$: the text is exactly year + "-" + month |
| QaSheets.YearMonthPadded | lib/qa-sheets.ts:90-98 | year + "-" + the month padded to two digits is a "YYYY-MM" string with the same year and the same month value |
| QaSheets.NormalizeMonth | lib/qa-sheets.ts:85-100 | a trimmed value in one of the month forms becomes "YYYY-MM"; any other value is returned trimmed |
| QaSheets.NormalizeShortKoreanMonth | lib/qa-sheets.ts:89-90 | "25년02월" and the like become "20" + the two year digits + "-" + the padded month |
| QaSheets.NormalizeLongKoreanMonth | lib/qa-sheets.ts:92-93 | "2026년 1월" and the like become the four year digits + "-" + the padded month |
| QaSheets.NormalizeDashMonth | lib/qa-sheets.ts:95-98 | "2025-2" becomes "2025-02"; "2025-02" stays |
| QaSheets.PaddedMonthIsFixed | lib/qa-sheets.ts:85-100 | a "YYYY-MM" string is already trimmed and matches neither Korean form |
| QaSheets.NormalizeMonthIdempotent | lib/qa-sheets.ts:85-100 | normalising a month twice is normalising it once |
| QaSheets.FirstDigit | lib/qa-sheets.ts:105 | the first digit at or after i, with no digit before it |
| QaSheets.NormalizeRound | lib/qa-sheets.ts:103-107 | a value with no digit (the empty one included) gives round 1 |
| QaSheets.NormalizeRoundOfRendered | lib/qa-sheets.ts:103-107 | round trip: a number written between a digit-free prefix and a suffix not starting with a digit ("2차") reads back as that number |
| QaSheets.FirstDigitAfter | lib/qa-sheets.ts:105 | the first digit after a digit-free prefix is found at its position |
| QaSheets.DigitRunOf | lib/qa-sheets.ts:105 | the maximal digit run at a position is the digits written there |
| QaSheets.Min3 | lib/qa-sheets.ts:115 | the minimum of three counts is one of them and at most each |
| QaSheets.MatchCount | lib/qa-sheets.ts:114-119 | at most n of the first n cells match |
| QaSheets.CountMatches | lib/qa-sheets.ts:114-119 | the counting loop returns the number of the first min(5, cells, headers) cells equal to their header after whitespace collapse and trim |
| QaSheets.IsHeaderRepeatRow | lib/qa-sheets.ts:111-121 | a row shorter than 5 cells, or with at least 3 of its first cells equal to the headers, is a header repeat |
| QaSheets.MatchCountSelf | lib/qa-sheets.ts:114-119 | the header row matches itself in every compared cell |
| QaSheets.HeaderRowRepeats | lib/qa-sheets.ts:111-121 | a header row of at least 5 cells is recognised as a header repeat |
| QaSheets.FewHeadersNeverRepeat | lib/qa-sheets.ts:115-120 | with fewer than 3 headers a full row can never be a header repeat |
| QaSheets.HeaderIndex | lib/qa-sheets.ts:133-137 | every mapped field points at a header column |
| QaSheets.HeaderIndexFirst | lib/qa-sheets.ts:133-137 | a field maps to the first normalised header naming it, and every named field is mapped |
| QaSheets.BuildHeaderIndex | lib/qa-sheets.ts:133-137 | the forEach loop builds exactly the first-match header index |
| QaSheets.NonEmpty | lib/qa-sheets.ts:192-198 | a field read with an undefined fallback is absent exactly when its text is empty |
| JsNumbers.ParseFloatNaN | lib/qa-sheets.ts:159 | parseFloat is NaN exactly when, after the leading whitespace, neither a literal start (a digit, '.' and a digit, or Infinity) nor a sign followed by one is found |
| JsNumbers.ParseFloatJs | lib/qa-sheets.ts:159-160 | parseFloat followed by the isNaN test gives a number exactly when parseFloat gives a finite value, and then that value |
| JsNumbers.ParseFloatOfDigits | lib/qa-sheets.ts:159 | parseFloat of a plain digit string is its decimal value |
| JsNumbers.ParseFloatExponent | lib/qa-sheets.ts:159 | the exponent is read: "1e2" is 100 |
| JsNumbers.ParseFloatTrailing | lib/qa-sheets.ts:159 | parseFloat stops where the literal ends: "12px" is 12 |
| JsNumbers.NumberOf | lib/bigquery-targets.ts:262 | Number() of empty or all-blank text is 0 |
| JsNumbers.NumberOfDigits | lib/bigquery-targets.ts:262 | Number() of a plain digit string is its decimal value |
| JsNumbers.NumberOfInt | lib/bigquery-targets.ts:262 | Number() reads the decimal text of any integer back as that integer |
| JsNumbers.NumberOfNegative | lib/bigquery-targets.ts:262 | Number() of '-' followed by digits is the negated value |
| JsNumbers.NumberTrailing | lib/bigquery-targets.ts:262 | Number() needs the whole text to be one literal: "12px" is NaN |
| JsNumbers.NumberText | lib/bigquery-targets.ts:62 | String() of a safe integer is its decimal text |
| JsNumbers.NumberTextEmpty | lib/bigquery-targets.ts:262 | String(Number("")) is "0" |
| JsNumbers.NumberTextOfInt | lib/bigquery-targets.ts:262 | String(Number(t)) gives t back for the text t of a safe integer |
| QaSheets.Scores | lib/qa-sheets.ts:156-161 | a score field is present iff its cell is non-empty and parseFloat gives a finite number for it, and then holds that number |
| QaSheets.Evaluation | lib/qa-sheets.ts:163-235 | the centre is CENTER_MAP of 업체명 or the default, the month normalised, the round normalised, the channel that of the sheet, and the scores those of its channel |
| QaSheets.RowResult | lib/qa-sheets.ts:142-187 | a row yields an evaluation iff it has at least 5 cells, is not the header repeat at index 0, and has a numeric total score |
| QaSheets.RowResults | lib/qa-sheets.ts:142-236 | one result per row, in order |
| QaSheets.NormalizedHeaders | lib/qa-sheets.ts:130 | each header with whitespace runs collapsed to one space and trimmed |
| QaSheets.ParseRow | lib/qa-sheets.ts:143-235 | the loop body computes the row's result |
| QaSheets.ParseQaSheetRows | lib/qa-sheets.ts:123-240 | the evaluations are the rows' results that exist, in row order |
| QaSheets.ParseRows | lib/qa-sheets.ts:139-235 | for a given header index, the row loop keeps the result of every row that yields one, in row order |
| QaSheets.HeaderRepeatOnlyFirstRow | lib/qa-sheets.ts:147 | a later row that repeats the headers is still parsed when it has a total score |
| QaSheets.ChannelFieldsExclusive | lib/qa-sheets.ts:219-226 | a wired sheet carries no chat-only score and a chat sheet no wired-only score |
| QaSheets.OwnFieldsOnly | lib/qa-sheets.ts:219-226 | the chat-only fields are not wired fields and the wired-only fields are not chat fields |
| QaSheets.EvaluationIdentity | lib/qa-sheets.ts:184-190 | qaEvalId is (agentId or else name) + "_" + month + "_" + round, and the date is month + "-01" exactly when there is a month |
| GoogleSheets.Put | lib/google-sheets.ts:125 | assigning a key of the header object adds at most one entry |
| GoogleSheets.PutLookup | lib/google-sheets.ts:125 | after assigning a key, reading it gives the new index and every other key is unchanged |
| GoogleSheets.HeaderKeys | lib/google-sheets.ts:124 | each header trimmed, lower-cased and with whitespace runs collapsed |
| GoogleSheets.LastIndex | lib/google-sheets.ts:123-126 | the last of the first n headers with that key, or none when no header has it |
| GoogleSheets.HeaderEntriesLookup | lib/google-sheets.ts:123-126 | in the header object a key maps to the last header column with that key: later duplicates overwrite |
| GoogleSheets.PutAll | lib/google-sheets.ts:123-126 | the forEach loop builds exactly that header object |
| GoogleSheets.BuildHeaderMap | lib/google-sheets.ts:121-126 | the header map of the sheet's headers |
| GoogleSheets.FirstFallback | lib/google-sheets.ts:344-351 | the first header key (in insertion order) related to the name by the mode's partial rule, or none |
| GoogleSheets.Resolve | lib/google-sheets.ts:338-351 | an exact key wins; in exact mode only it is used, otherwise the first partial match |
| GoogleSheets.ColumnIndex | lib/google-sheets.ts:129-137 | getColumnIndex finds no column exactly when none of the candidate names resolves |
| GoogleSheets.NonEmpty | lib/google-sheets.ts:241-248 | a depth field read with a null fallback is null exactly when its text is empty |
| GoogleSheets.LowerYIsErrorMark | lib/google-sheets.ts:354-355 | the error mark is compared after upper-casing, so "y" counts and "N" and "" do not |
| GoogleSheets.ErrorCount | lib/google-sheets.ts:397-408 | the count is at most the number of columns examined |
| GoogleSheets.CountErrors | lib/google-sheets.ts:397-408 | the forEach counting loop returns the number of listed columns whose cell is an error mark |
| GoogleSheets.AttitudeErrors | lib/google-sheets.ts:388-409 | at most 5 attitude errors, counted on exact header matches |
| GoogleSheets.BusinessErrors | lib/google-sheets.ts:414-454 | at most 11 business errors, with partial header matching |
| GoogleSheets.AttitudeErrors2025 | lib/google-sheets.ts:598-625 | at most 6 attitude errors under the 2025 layout |
| GoogleSheets.ErrorCountExtremes | lib/google-sheets.ts:397-408 | the count is the number of columns iff every column is marked, and 0 iff none is |
| GoogleSheets.CheckError | lib/google-sheets.ts:338-361 | true exactly when some candidate name resolves (exactly or partially) to a column holding Y, TRUE, 1 or 예 |
| GoogleSheets.IndividualErrors | lib/google-sheets.ts:337-383 | sixteen flags, one per error item in order, each checkError of that item's names |
| GoogleSheets.DateMatchAt | lib/google-sheets.ts:301-310 | a dot or slash date match has a four-digit year and a month and day of one or two digits |
| GoogleSheets.FindDate | lib/google-sheets.ts:301-310 | String.match finds the leftmost position where the date pattern matches, or none |
| GoogleSheets.Pad2Value | lib/google-sheets.ts:304-305 | padStart(2, "0") of a number below 100 gives two digits with that value |
| GoogleSheets.RenderDateIso | lib/google-sheets.ts:303-306 | year + "-" + padded month + "-" + padded day is a YYYY-MM-DD date carrying the matched year, month and day |
| GoogleSheets.NormalizeDate | lib/google-sheets.ts:292-332 | empty gives null; an ISO date is returned as is; a dot or slash date gives an ISO date; any other text is null exactly when Date parsing fails |
| GoogleSheets.NormalizeDotDate | lib/google-sheets.ts:300-307 | "2025. 10. 2" gives the ISO date with the same year, month and day |
| GoogleSheets.NormalizeSlashDate | lib/google-sheets.ts:309-316 | "2025/10/2" gives the ISO date with the same year, month and day |
| GoogleSheets.NormalizeDateIdempotent | lib/google-sheets.ts:292-332 | normalising a normalised date changes nothing |
| GoogleSheets.SheetColumns | lib/google-sheets.ts:142-162 | the columns are found by getColumnIndex on their name lists; the channel prefers 유선/채팅 and 유선채팅 over 채널 and channel; eight depth columns |
| GoogleSheets.ServiceCandidate | lib/google-sheets.ts:201-217 | a candidate service is the normalised value unless that is an invalid service name, then empty |
| GoogleSheets.ServicePriority | lib/google-sheets.ts:191-226 | the service comes from the 1depth text before "_", else the service group, else the service column, then normalised |
| GoogleSheets.EvaluationId | lib/google-sheets.ts:250-253 | agentId_date_consultId when there is a consult id, agentId_date_rowIndex otherwise |
| GoogleSheets.EvaluationSpec | lib/google-sheets.ts:169-280 | the record carries the row's id, name and date, the evaluation id, the service, attitude errors in 0..5, business errors in 0..11, their total, the sixteen flags and the depth texts |
| GoogleSheets.DateText | lib/google-sheets.ts:164-175 | a row has a date text iff its name, id and date columns pass the presence check and those three cells are non-empty; the text is then the date cell |
| GoogleSheets.RequiredDateText | lib/google-sheets.ts:164-175 | the early returns, with columns tested for absence and then for empty cells, give exactly that date text under the null check |
| GoogleSheets.SheetRow | lib/google-sheets.ts:139-283 | a row is kept iff its name, id and date columns pass the presence check, those cells are non-empty, and the date normalises; the record uses the normalised date |
| GoogleSheets.SheetRows | lib/google-sheets.ts:139-284 | one result per row, in order |
| GoogleSheets.ColumnZeroDropsRows | lib/google-sheets.ts:164-167 | as written: when the name, id or date column is column 0 the falsy check drops every row |
| GoogleSheets.ColumnZeroExample | lib/google-sheets.ts:142-167 | a sheet with headers 이름, id, 평가일 and a complete row yields nothing |
| GoogleSheets.NullCheckKeepsColumnZero | lib/google-sheets.ts:164-183 | with a null check instead, a complete row whose name is in column 0 is kept |
| GoogleSheets.NullCheckKeepsMore | lib/google-sheets.ts:164-183 | the null check keeps every row the falsy check keeps, with the same record |
| GoogleSheets.ParseSheetRow | lib/google-sheets.ts:139-283 | the corrected loop body computes the row's result under the null check |
| GoogleSheets.ParseSheetRows | lib/google-sheets.ts:114-287 | the evaluations are the kept rows' records in row order, under the null check |
| GoogleSheets.ParseRowsWith | lib/google-sheets.ts:139-286 | the row loop collects the kept records in order |
| GoogleSheets.ParsedEvaluationsSound | lib/google-sheets.ts:169-280 | every evaluation has a non-empty name and id, total = attitude + business, and comes from one of the rows |
| GoogleSheets.Columns2025 | lib/google-sheets.ts:508-528 | getIdx with partial matching for each column; no depth columns; no channel column without hasChannel |
| GoogleSheets.PreAggregated | lib/google-sheets.ts:550-559 | the 태도오류 and 오상담/오처리 오류 counts are used iff both columns exist and both cells parse as integers |
| GoogleSheets.Counts2025 | lib/google-sheets.ts:547-563 | non-zero pre-aggregated counts win; otherwise the counts over the item columns, at most 6 and 11 |
| GoogleSheets.Channel2025 | lib/google-sheets.ts:526-580 | the channel is never empty: without a channel column it is "unknown", otherwise the cell when non-empty |
| GoogleSheets.Evaluation2025 | lib/google-sheets.ts:532-589 | the 2025 record carries id, name, date, the evaluation id, the service cell, a non-empty channel, the counts of Counts2025 and their total, and sixteen flags |
| GoogleSheets.Sheet2025Row | lib/google-sheets.ts:519-592 | a row is kept iff the name, id and date columns exist, the cells are non-empty and the date normalises |
| GoogleSheets.Sheet2025Rows | lib/google-sheets.ts:519-593 | one result per row, in order |
| GoogleSheets.ParseSheet2025Row | lib/google-sheets.ts:519-592 | the loop body computes the row's 2025 result |
| GoogleSheets.ParseSheetRows2025 | lib/google-sheets.ts:495-596 | the evaluations are the kept rows' 2025 records in row order |
| GoogleSheets.Parse2025RowsWith | lib/google-sheets.ts:519-595 | the row loop collects the kept 2025 records in order |
| GoogleSheets.NoChannelIsUnknown | lib/google-sheets.ts:543 | a sheet read without a channel gives every evaluation the channel "unknown" |
| CenterComparison.ParseGroupName | components/qc/dashboard/center-comparison.tsx:23-30 | a channel is split off only when the last "/" part is 유선 or 채팅 and there are at least two parts, and service + "/" + channel rebuilds the name; otherwise the service is the whole name |
| CenterComparison.ParseGroupNameChannel | components/qc/dashboard/center-comparison.tsx:23-30 | round trip: parsing service + "/" + 유선 or 채팅 gives back that service and channel |
| CenterComparison.KeyOrderDistinct | components/qc/dashboard/center-comparison.tsx:40-48 | the service order lists each service once |
| CenterComparison.KeyOrderMembers | components/qc/dashboard/center-comparison.tsx:40-48 | a service is listed iff some non-skipped group has it |
| CenterComparison.KeyBucketSource | components/qc/dashboard/center-comparison.tsx:42-50 | every row of a bucket comes from a non-skipped group with that service |
| CenterComparison.KeyBucketAbsent | components/qc/dashboard/center-comparison.tsx:42-50 | a service that is never listed has an empty bucket |
| CenterComparison.KeyBucketHolds | components/qc/dashboard/center-comparison.tsx:42-50 | every non-skipped group's row is in its service's bucket |
| CenterComparison.GroupByKey | components/qc/dashboard/center-comparison.tsx:33-53 | the map-and-order loop yields one bucket per service in first-seen order, each holding that service's rows in input order |
| CenterComparison.GroupByService | components/qc/dashboard/center-comparison.tsx:33-53 | groupByService: groups with a blank name are skipped, the rest bucketed by parsed service |
| CenterComparison.GroupedByServiceDistinct | components/qc/dashboard/center-comparison.tsx:45-48 | no two buckets share a service |
| CenterComparison.GroupedByServiceComplete | components/qc/dashboard/center-comparison.tsx:42-50 | every group with a non-blank name appears in the bucket of its service |
| CenterComparison.GroupedByServiceSound | components/qc/dashboard/center-comparison.tsx:42-52 | every bucket row is the row of a non-blank group of that service |
| CenterComparison.RateColorOf | components/qc/dashboard/center-comparison.tsx:59-64 | red iff the error rate exceeds 5, amber iff in (3, 5], green iff at most 3 |
| CenterComparison.RateColorMonotone | components/qc/dashboard/center-comparison.tsx:114-119 | a higher error rate never gets a milder colour |
| Targets.DeactivateKey | lib/bigquery-targets.ts:260-265 | the id is parsed into a cache key exactly when it splits into at least four "_" parts; the key is then the domain, the rejoined subtype, the centre and String(Number(year part)) |
| Targets.YearPartText | lib/bigquery-targets.ts:262 | String(Number(s)) of the year part: "0" for empty or blank text, "NaN" where Number() fails, the integer's digits for a safe integer |
| Targets.DeactivateKeyEmptyYear | lib/bigquery-targets.ts:260-265 | the id "qc__용산_total" drops the key with year "0" |
| Targets.DeactivateKeyOfBuiltId | lib/bigquery-targets.ts:58-90 | round trip: for a domain and centre without "_", the id built by buildTargetId parses back to the cacheKey of the same target, the subtype keeping its own "_" |
| Targets.FallbackTargetValue | lib/bigquery-targets.ts:336-385 | qc: the centre's attitude or ops rate, total their mean to two decimals, null for an unknown centre or subtype; qa: voice 88, chat and total 90; csat: overall score or the service target; sla total 90; productivity response 95; null otherwise |
| Targets.QcTotalNeedsNoRounding | lib/bigquery-targets.ts:349-352 | for both centres the qc total mean already has at most two decimals, so toFixed(2) changes nothing |
| Targets.QcFallbackAgreesWithCenterTargets | lib/bigquery-targets.ts:342-348 | the qc fallback rates are the centre QC targets of the constants |
| Targets.TargetCache.constructor | lib/bigquery-targets.ts:56 | the cache starts empty |
| Targets.TargetCache.Lookup | lib/bigquery-targets.ts:67-75 | a key is served iff it is cached and at most five minutes old |
| Targets.TargetCache.GetCached | lib/bigquery-targets.ts:67-75 | getCached returns the fresh value or null, and deletes the entry exactly when it has expired |
| Targets.TargetCache.SetCache | lib/bigquery-targets.ts:77-79 | setCache stores the value stamped now, so it is served back at once |
| Targets.TargetCache.GetTargetValue | lib/bigquery-targets.ts:286-332 | a fresh cached value wins; otherwise the database value, cached; otherwise the fallback, cached only when not null |
| Targets.TargetCache.SaveTarget | lib/bigquery-targets.ts:165-234 | the saved value is cached under the target's cacheKey and the id is the given one or buildTargetId's |
| Targets.TargetCache.DeactivateTarget | lib/bigquery-targets.ts:247-276 | the cache entry named by the parsed id is deleted and nothing else changes; an id with fewer than four parts changes nothing |
| Targets.SavedValueServed | lib/bigquery-targets.ts:67-79 | a value saved at most five minutes ago is served by getCached |
| Targets.RowToTarget | lib/bigquery-targets.ts:92-109 | each missing or null column takes its default ("", 전체, qc, %, the current year, target_rate for the value); active unless is_active is false; updatedAt and updatedBy kept only when truthy |
| CostProtection.Utf16Length | lib/ai-cost-protection.ts:71 | JavaScript's length counts UTF-16 units: between the number of characters and twice it |
| CostProtection.ValidateMessageLength | lib/ai-cost-protection.ts:86-95 | a message is rejected, as too long, exactly when its length exceeds 5000 |
| CostProtection.ValidatePromptLength | lib/ai-cost-protection.ts:70-79 | a prompt is rejected, as too long, exactly when its length exceeds 50000 |
| CostProtection.EstimateCost | lib/ai-cost-protection.ts:102-132 | tokens = ceil(length / 4), cost = tokens * the 3:1 average per-token price * 1300, warning iff the cost exceeds 100 won |
| CostProtection.AllowedPromptIsCheap | lib/ai-cost-protection.ts:155-186 | a prompt that passes the length check has at most 12500 tokens and costs at most 2.2 won, so the 500 and 1000 won branches cannot fire |
| CostProtection.After | lib/ai-cost-protection.ts:35 | filtering by timestamp keeps only records newer than the cutoff, each from the history |
| CostProtection.AfterAfter | lib/ai-cost-protection.ts:35-41 | filtering with the hour cutoff and then the minute cutoff is filtering with the minute cutoff |
| CostProtection.AfterAppend | lib/ai-cost-protection.ts:35 | the filter distributes over concatenation |
| CostProtection.RateLimiter.constructor | lib/ai-cost-protection.ts:22 | the request history starts empty |
| CostProtection.RateLimiter.Verdict | lib/ai-cost-protection.ts:40-57 | allowed iff fewer than 10 requests in the last minute and fewer than 100 in the last hour; the minute limit is reported first |
| CostProtection.RateLimiter.Prune | lib/ai-cost-protection.ts:34-37 | the history is replaced in place by its records of the last hour |
| CostProtection.RateLimiter.CountAfter | lib/ai-cost-protection.ts:41 | the counting loop returns the number of records newer than the cutoff |
| CostProtection.RateLimiter.CheckRateLimit | lib/ai-cost-protection.ts:30-63 | the verdict on the old history; the new history is the last hour's records plus this request only if it was allowed |
| CostProtection.RateLimiter.CheckCostProtection | lib/ai-cost-protection.ts:142-193 | message check, then prompt check (both leave the history alone), then the rate limit; an allowed request carries the cost estimate, and the cost block is never returned |

## Left out

- Workbook and sheet loading is not modelled. The openpyxl/calamine loaders, the fallback between them and the `clean_xlsx_autofilter` zip rewrite are file I/O. A workbook is the `load` parameter, which returns named grids of cells or `None` where loading fails.
- `os.walk` is replaced by the given list of file names.
- Prints, progress output and `write_ndjson` are not modelled. The model returns the records.
- Python exceptions inside a row are modelled as `None`.
- `make_id`: MD5 is a foreign library. The model keeps the "_"-joined text the digest is taken of, and leaves out the 16-hex-digit digest.
- `record_id` and the ISO `report_week` texts are not modelled. They are derived from `make_id` and from `date.isocalendar()`.
- `hire_date` is not modelled. It goes through `parse_date`, which itself calls into dateutil.
- On the Agit actions, `report_date`, `created_at` and the author and center copy fields are not modelled. They are plain copies of loader data.
- `unicodedata.normalize('NFC', …)` is not modelled. File names are taken to be in NFC already.
- Case mapping (`lower()`/`upper()`/`toLowerCase()`) is modelled on ASCII letters only. Python `isdigit()` is modelled on ASCII digits only.
- Python `float()`/`int()` parsing is modelled on decimal text only. Exponents, `inf`/`nan` and underscores are not modelled.
- `str()` of a float is taken from the text the loader gives with the value, not computed from the binary value.
- BigQuery SQL, query execution, the MERGE/INSERT statements and the aggregation done inside SQL are not modelled. The query results are the inputs.
- The one exception is the `SHIFT_SQL` CASE expression. It repeats the classifier's thresholds, so it is modelled.
- Next.js routing, HTTP responses, React UI and network code are not modelled. Only the middleware decision and the auth helpers' results are modelled.
- `JSON.parse`, `atob`, `decodeURIComponent` and `encodeURIComponent` are foreign calls. They are parameters, with `None` where they throw.
- JavaScript `new Date(text)` and time zones are a foreign call. `new Date(text)` is the `parseDate` parameter, and calendar days are integer day numbers.
- `localeCompare` on the `YYYY-MM-DD` date texts of the fix-groups collection is modelled as code-point order.
- The WLS trend regression, the normal CDF and the incomplete-beta function of `lib/statistics.ts` are floating-point numerics. They are given as functions, and only the guards in front of them are modelled.
- Floating point in general is modelled as exact `real` arithmetic. `Math.round` is modelled as floor(x + 0.5) where it decides a stored value, as in the whole-percentage rates.
- CoachingQueries.Drilldown: keeps the error percentages unrounded, while the source rounds them to one decimal (`Math.round(x * 10) / 10`). The highlight comparison uses the unrounded values, as the source does.
- `toFixed(2)` on the QC total fallback is not computed. For both centres' constant rates the mean already has at most two decimals (`Targets.QcTotalNeedsNoRounding`), so the exact mean is the value.
- The human-readable reason text of `determineCoachingTier` and the evidence text of `assessCategoryWeaknesses` are not built. The Korean strings joined with " | " or ", " are left out, and the model keeps the reasons and evidence counts as data (`Coaching.TierReason`).
- `console.warn` and the sync progress output are not modelled.
- Scores: an infinite parseFloat result (a cell reading "Infinity" or "1e999") is treated as absent, because a score is an exact real; the source keeps Infinity. Rounding the parsed text to the nearest double is not modelled either.
- YearPartText: for a finite year part that is not a safe integer ("2025.5", or beyond 2^53) the text is the `render` parameter, which stands for rounding to the nearest double and `Number.prototype.toString`. NaN, the infinities and safe integers are computed.
- SaveTarget: only the path where the BigQuery statement succeeds is modelled. On the error path (lib/bigquery-targets.ts:235-241) the source returns the error and leaves the cache untouched.
- DeactivateTarget: only the path where the UPDATE succeeds is modelled. When the query throws, the source returns the error before touching the cache.
- GetScopeFilter: the `default` branch of getScopeFilter (lib/auth-server.ts:211-213), which returns ' AND 1=0' for an unknown role, has no counterpart. Role is a closed datatype, and every payload has passed the VALID_ROLES check, so the branch cannot be reached.
- FindMatch: the pattern's `.` is modelled as any character. JavaScript's `.` does not match a line terminator. The cell is split on '\n' and '\r' before parsing, so only U+2028 and U+2029 inside a line could make the two disagree.
- GoogleSheets.SheetRow: when the consultId, channel or hireDate column lies past the end of a short row, the source reads `undefined` (lib/google-sheets.ts:186, 189 and 229) and stores it in the evaluation; the model stores "" instead. The evaluation id is the same either way, since both values are falsy there.

## Findings

| source | as written | input that shows it | evidently intended | confidence | as-written member | corrected member |
|---|---|---|---|---|---|---|
| app/api/fix-groups/route.ts:556-565 | the pattern accepts '.', '-' and '/' as date separators, but only '.' is replaced before splitting on '-', so a slash-separated date yields one part and the line is rejected | the change line "2025/9/1 / A -> B" | every date the pattern accepts is normalised to YYYY-MM-DD, so the line is a change on 2025-09-01 from A to B | not executed | FixGroups.SlashDateCounterexample | FixGroups.FixedParseAccepts |
| lib/google-sheets.ts:164 | the required-column check `!nameIdx` `!idIdx` `!evalDateIdx` treats column index 0 as missing, so every row of a sheet whose name, id or date column comes first is dropped | a sheet with headers 이름, id, 평가일 in columns 0 to 2 and one complete row | a column is missing only when its index is undefined, so that row becomes an evaluation | not executed | GoogleSheets.ColumnZeroDropsRows | GoogleSheets.NullCheckKeepsColumnZero |
