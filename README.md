# Override-data pipeline of the quality-reports dashboard

The dashboard reports quality overrides in three categories:

- **IA** are inspection overrides.
- **IB** are ship-release overrides.
- **MMF** are missing-feature acceptances.

This project models the part of the dashboard that does more than draw widgets. It covers the path from the picked dates to the counted rows:

- **Default date window.** `today - 1` is `yesterday`. The picker allows `[yesterday - 60, yesterday]`. The default selection is `[yesterday - 1, yesterday]`.
- **Date texts.** `strftime("%d-%b-%Y")` writes each date. `TO_DATE(..., 'DD-MON-YYYY')` reads it back.
- **Query texts.** There are three copies: `build_queries` in `misc/data_utils.py`, the module-level f-strings of `Home.py`, and the older copy in `misc/test.py`. Each splices the two dates into three fixed SELECT statements.
- **One ship row per release.** The IB query keeps the ship row that `ROW_NUMBER() OVER (PARTITION BY release_no ORDER BY lot_no)` numbers 1.
- **The three normalisers** `clean_df_IA`, `clean_df_IB` and `clean_df_MMF`, and the script's earlier copy of them. They work in place on a data frame:
  - they extract columns with regular expressions;
  - they cast the extracted columns;
  - they drop the source columns;
  - they retype the remaining ones.
- **Top-20 ranking** of `(PROCESS_PLAN_ID, OP)` pairs. Each bar gets the label `plan + " - OP " + op`. Selecting a bar splits its label back into plan and OP and filters the MMF frame (the drill-down).
- **The `get_data` step** of the trend section. It calls `str.format` on the query.
- **Bucket counts.** `resample('D' | 'W' | 'M').size()` counts the rows per day, week or month.

Modules, one file each:

| file | module | what it holds |
|---|---|---|
| text.dfy | `Text` | Option/Result, decimal digits, Python `\s`, leftmost regex search, `str.split` and `str.join` |
| calendar.dfy | `Calendar` | proleptic Gregorian dates and ordinals; `timedelta` subtraction; weekdays; `%d-%b-%Y`; `TO_DATE`; `TO_CHAR` timestamps; the default window |
| sqltext.dfy | `SqlText` | the fixed lines of the four query shapes (IA, IB, the script's older IB, MMF) |
| queries.dfy | `Queries` | filling a shape with two dates; reading the dates back; the fixed filters; `str.format` and `get_data` |
| ships.dfy | `Ships` | the rank-1-per-release rule |
| patterns.dfy | `Patterns` | scanners for the six regular expressions of the normalisers, each with a reference lemma |
| frames.dfy | `Frames` | a frame as named columns (`Table`); `class Frame`, which holds one and updates it in place |
| cleaning.dfy | `Cleaning` | the normalisers as methods on `Frame`, the functions that specify them, and their lemmas |
| ranking.dfy | `Ranking` | group-count, sort, top 20, label, split and drill-down |
| buckets.dfy | `Buckets` | day, week and month periods, and resampled counts |

How the source's entities are represented:

- **Frames.** A frame is a map from column label to a column of cells, plus the label order and the row count.
- **Cells.** A cell is text, a number, a timestamp or missing (`NaN`).
- **In-place updates.** The normalisers work in place, so they are methods that change a `Frame` object. Each `ensures` states the new frame as a function of the old one. A failure leaves the frame exactly as Python leaves it: the columns stored before the failing statement stay.
- **Regular expressions.** Each regular expression is a scanner over `seq<char>`. A `re.search` is the leftmost position at which the anchored scanner succeeds.

## Notes on the code

These behaviours of the code are easy to expect otherwise; the model follows the code in each:

- **Deduplication.** It happens in SQL, through the rank-1 rule. The normaliser does not deduplicate.
- **Parameters.** `build_queries` takes two date texts. There is no granularity parameter and no summary query.
- **Granularity.** An unknown granularity does not raise. It falls through to monthly buckets.
- **Bad comments.** A malformed comment makes the whole normaliser raise. No single row is set aside.
- **Ties in the ranking.** `sort_values` uses an unstable sort, so the order of equal counts is not first-seen order. The ranking lemmas state only what holds for every order of ties.
- **Abbreviated comments.** A comment that abbreviates the accepted count, such as `REL: 4521 PRINTED (Acc: 8 Out of: 10; sampling not enough for: PROG_A;)`, contains no `Accepted: `, so `clean_df_IB` cannot clean it: `Patterns.AbbreviatedCommentFields` shows the accepted count is not found, and `Cleaning.IBSucceeds` shows the cast then fails.
- **The test script's IB filter.** It is `LIKE 'REL%PRINTED%(Acc%'`, without the closing `)`. The other copies have the closing `)`.

## Model

| member | source | states |
|---|---|---|
| Queries.BuildQueriesCarry | misc/data_utils.py:7-65 | For any two quote-free date texts, each of the three returned queries reads back as exactly (start, end), start first. IA keeps the `machine_type = 'DEPARTMENT'` sub-select. IB keeps the `LIKE 'REL%PRINTED%(Acc%)'` and `r.rn = 1` filters. |
| Queries.DatesEmbedded | misc/data_utils.py:13-14 | For every query shape, the start text sits verbatim in a `BETWEEN TO_DATE('<start>', 'DD-MON-YYYY')` clause. The end text sits in an `AND TO_DATE('<end>', 'DD-MON-YYYY')` clause after it. This covers lines 47-48 and 61-62 too. |
| Queries.IAFilters | misc/data_utils.py:15-18 | Whatever the dates, the IA query contains the machine sub-select with `NVL(machine_type, 'x') = 'DEPARTMENT'`. |
| Queries.IBFilters | misc/data_utils.py:29-52 | Whatever the dates and indentation, the IB query contains the `ROW_NUMBER() OVER (PARTITION BY s.release_no ORDER BY s.lot_no) AS rn` line, the comment `LIKE` filter and `AND r.rn = 1`. |
| Queries.FillUnfill | misc/data_utils.py:8-63 | Reading the dates back from a query filled with two quote-free texts gives exactly those texts. |
| Queries.UnfillFill | misc/data_utils.py:8-63 | Every text the reader accepts is exactly the query its two dates fill, so reading back is the inverse of filling. |
| Queries.FillInjective | misc/data_utils.py:8-63 | Different quote-free date pairs give different query texts. |
| Queries.HomeQueriesCarry | Home.py:55-110 | The home page's module-level queries carry the two dates the same way and keep the same fixed filters. |
| Queries.ScriptQueriesCarry | misc/test.py:21-50 | The test script's three queries, including its older two-column IB query, carry the two dates, start first. |
| Queries.PickedDaysQueried | Home.py:52-61 | For the picked days (year at most 9999), the texts `strftime` writes are the ones all three queries carry. `TO_DATE` reads each back as the day picked. |
| Queries.DayTextPlain | Home.py:52-53 | A `%d-%b-%Y` text holds neither a quote nor a brace, so it can be spliced into the query and passed through `format`. |
| Queries.FormatPlain | Home.py:152 | `str.format` leaves a text without braces unchanged. |
| Queries.FieldFirst | Home.py:152 | `format` replaces `{start_date_str}` and `{end_date_str}` with the given values, raises `KeyError` on any other plain keyword name, and raises `IndexError` on `{}` or a numeric field, since no positional argument is passed. |
| Queries.GetDataIgnoresRange | Home.py:149-180 | As written, `get_data` runs the query already filled with the first picker's range, whatever range it is given. So the trend fetch never runs a query for a different start date. |
| Queries.GetDataTemplate | Home.py:149-158 | Formatting a template that still holds the two placeholders gives exactly the query for the dates passed. This is the corrected `get_data` input. |
| SqlText.IANoBraces | misc/data_utils.py:8-19 | The fixed text of the IA query holds no `{` or `}`. |
| SqlText.IBNoBraces | misc/data_utils.py:21-53 | The fixed text of the IB query holds no `{` or `}`. |
| SqlText.MMFNoBraces | misc/data_utils.py:55-63 | The fixed text of the MMF query holds no `{` or `}`. |
| SqlText.IBOlderNoBraces | misc/test.py:33-41 | The fixed text of the script's IB query holds no `{` or `}`. |
| Calendar.DefaultWindow | misc/test.py:3-13 | The window exists exactly when `today - 61 days` is a date, so no subtraction raises `OverflowError`. Then `latest = today - 1`, `earliest = latest - 60`, `start = today - 2` and `end = latest`, and `earliest <= start <= end <= latest`. This matches Home.py:37-48, where `start` is `day_before_yesterday`. |
| Calendar.MinusDays | misc/test.py:4-5 | `d - timedelta(days=k)` is defined exactly when the result is on or after 0001-01-01. Its ordinal is then `k` less. |
| Calendar.NextDay | Home.py:189-199 | The next day is a valid date whose ordinal is one more. |
| Calendar.PrevDay | misc/test.py:4-5 | The previous day is a valid date one ordinal earlier, and `NextDay` of it is the original. |
| Calendar.FromOrdinal | misc/test.py:4-5 | `date.fromordinal(n)` is a valid date with ordinal `n`. |
| Calendar.OrdinalInverse | misc/test.py:4-5 | Every valid date is the date its ordinal names, so dates and ordinals correspond one to one. |
| Calendar.OrdinalInjective | misc/test.py:4-5 | Two valid dates with the same ordinal are equal. |
| Calendar.WeekdayNext | Home.py:193 | The weekday advances by one each day, and Monday follows Sunday. |
| Calendar.FormatDayRoundTrip | Home.py:52-53 | For years up to 9999, `strftime("%d-%b-%Y")` writes a two-digit day, a three-letter month and a four-digit year, the shape the `'DD-MON-YYYY'` mask describes. `TO_DATE` reads it back as the same date. |
| Calendar.ParseDay | misc/data_utils.py:13-14 | Whatever `TO_DATE` accepts has the `DD-MON-YYYY` shape and is a valid date. |
| Calendar.MonthNumberOfName | misc/data_utils.py:13-14 | `TO_DATE` maps each `%b` month abbreviation, and its upper-case form, back to its month. |
| Calendar.MonthNamesDistinct | misc/data_utils.py:13-14 | No two month abbreviations match each other in any letter case. |
| Calendar.MonthNumber | misc/data_utils.py:13-14 | The month number is found exactly when the text matches one abbreviation, ignoring case. When it is not found, no abbreviation matches. |
| Calendar.ToCharRoundTrip | misc/data_utils.py:10 | For years up to 9999, reading back the `TO_CHAR(date_time, 'DD-MON-YYYY HH24:MI:SS')` text with the fixed-format `to_datetime` gives the same instant. |
| Calendar.ParseStamp | misc/data_utils.py:81 | Whatever the timestamp parser accepts is a valid instant. |
| Ships.KeptPerRelease | misc/data_utils.py:22-52 | For any numbering `ROW_NUMBER` may produce, a release keeps a ship row exactly when it has ship rows, it keeps only one, and the kept row has the release's least lot number. |
| Ships.KeptExists | misc/data_utils.py:29-52 | A release has a kept row exactly when it has any ship row. |
| Ships.KeptOnce | misc/data_utils.py:29-52 | No release keeps two ship rows. |
| Ships.KeptLeast | Home.py:76-99 | The kept row of a release has the least lot number among that release's rows. This is the home page's copy of the rule. |
| Ships.FirstHasLeastLot | misc/data_utils.py:29 | The row numbered 1 in a partition has the partition's least `lot_no`. |
| Ships.FirstIsUnique | misc/data_utils.py:29 | A partition has one row numbered 1. |
| Ships.FirstExists | misc/data_utils.py:29 | Every non-empty partition has a row numbered 1. |
| Ships.NumberingIsRowNumbering | misc/data_utils.py:29 | Numbering each row one more than the rows ahead of it (lower lot, ties by input order) is a valid `ROW_NUMBER` result, so the rule is satisfiable. |
| Text.Search | misc/data_utils.py:87 | `re.search` reports the first position where the anchored pattern matches and nothing before it. It reports no match only when no position matches. |
| Text.SearchFinds | misc/data_utils.py:87 | A match at `k` with none before it is what the search reports. |
| Patterns.TagNumber | misc/data_utils.py:87-89 | A found group is a non-empty run of decimal digits. |
| Patterns.TagNumberOf | misc/data_utils.py:87-89 | If `tag` first occurs just before the decimal spelling of `n`, and a non-digit follows it, the group is that spelling and `int()` reads `n`. |
| Patterns.DigitRunOf | misc/data_utils.py:87-89 | A digit run written before a non-digit is read up to exactly where it ends. |
| Patterns.ProgramShape | misc/data_utils.py:90 | A found PROGRAM never holds `)` or a newline. In the comment it follows `sampling not enough for: ` and is followed by `)` or `;)`. |
| Patterns.ProgramOf | misc/data_utils.py:90 | A program name written after the first tag without `)`, a newline or a trailing `;`, and closed by `)` or `;)`, is recovered exactly. |
| Patterns.LazyEndFirst | misc/data_utils.py:90 | The lazy `(.*?)` stops at the first closing position reached. |
| Patterns.LeadingDigits | misc/data_utils.py:98 | OP is found exactly when the text starts with a digit. It is then the maximal leading digit run. |
| Patterns.OpDescNeedsOp | misc/data_utils.py:99 | OP_DESC is found only where OP is. |
| Patterns.OpFieldsOf | misc/data_utils.py:98-99 | For digits, optional whitespace, a dash, optional whitespace and a one-line description, OP is the digits and OP_DESC is the description. |
| Patterns.OpFieldsExample | misc/data_utils.py:98-99 | `"12 - Final Grind - Inspect"` gives OP `"12"` and OP_DESC `"Final Grind - Inspect"`. |
| Patterns.Features | misc/data_utils.py:100-102 | The feature pattern yields four digit groups or nothing. |
| Patterns.FeaturesOf | misc/data_utils.py:100-102 | A record `VANE: a - LOOP CNT: b - REQRD FEATURES: c - TOTAL: d` after text where `VANE: ` never starts yields `a, b, c, d` in order. |
| Patterns.FeaturesExample | misc/data_utils.py:100-102 | A concrete record yields `3, 2, 10, 15`. |
| Patterns.AbbreviatedCommentFields | misc/data_utils.py:87-90 | In a comment that writes `Acc: ` instead of `Accepted: `, REL, `Out of` and the program are found but the accepted count is not. |
| Frames.SetColumn | misc/data_utils.py:87 | `df[name] = col` gives the column to `name`, keeps the other columns and the row count, and appends a new label last. |
| Frames.Without | misc/data_utils.py:91 | The labels that remain after a drop are exactly those not dropped. |
| Frames.FirstMissing | misc/data_utils.py:91 | The first missing label is found exactly when some label is missing. |
| Frames.Remove | misc/data_utils.py:91 | Removing columns keeps the rows and the surviving columns and labels, in order. |
| Frames.Require | misc/data_utils.py:92-93 | Selecting `df[labels]` succeeds exactly when every label is present. |
| Frames.DropColumnsKeeps | misc/data_utils.py:91 | `drop(columns=...)` fails with `KeyError` exactly when a label is missing. Otherwise it removes exactly those columns, keeps the rest unchanged and keeps the frame well formed. |
| Frames.SetColumnKeeps | misc/data_utils.py:87 | Storing a column of the frame's height keeps the frame well formed. |
| Frames.Reassigned | misc/test.py:108-113 | Storing RELEASE_NUMBER and overwriting it after three other stores gives the frame that storing the final value first gives. |
| Frames.AssignedThenRemoved | misc/data_utils.py:87-91 | Four new columns come last, in the order assigned, after another column is dropped. |
| Frames.Frame.constructor | misc/data_utils.py:76 | A frame object holds the table it is given. |
| Frames.Frame.Column | misc/data_utils.py:87 | `df[name]` is found exactly when the column exists. |
| Frames.Frame.Assign | misc/data_utils.py:87 | `df[name] = col` changes the frame object to `SetColumn` of its old contents and keeps it well formed. |
| Frames.Frame.Drop | misc/data_utils.py:91 | `drop(..., inplace=True)` changes the object to the dropped table. If a label is missing, it reports `KeyError` and leaves the object unchanged. |
| Frames.Dropped | misc/test.py:115 | `df.drop(columns=...)` without `inplace` returns a fresh frame holding the dropped table, or the error. The old frame is untouched. |
| Cleaning.CleanIA | misc/data_utils.py:76-83 | `clean_df_IA` changes the frame to `IAOutcome` of the old one and reports its status. |
| Cleaning.IASucceeds | misc/data_utils.py:76-83 | `clean_df_IA` returns normally exactly when the six category columns, ACCEPT_COMMENT and a DATE_TIME of readable timestamps are present. Cleaning its result again changes nothing. |
| Cleaning.RetypeSucceeds | misc/data_utils.py:80-82 | The closing casts succeed exactly when the listed columns and a readable DATE_TIME are present. DATE_TIME then holds the parsed instants, and no other column changes. |
| Cleaning.RetypeIdempotent | misc/data_utils.py:80-82 | Running the closing casts on their own result changes nothing. |
| Cleaning.StampsSettled | misc/data_utils.py:81 | Converting an already converted DATE_TIME column changes nothing. |
| Cleaning.CleanIB | misc/data_utils.py:86-94 | `clean_df_IB` changes the frame to `IBOutcome` of the old one and reports its status. A failing cast leaves the columns stored before it. |
| Cleaning.IBSucceeds | misc/data_utils.py:86-94 | `clean_df_IB` returns normally exactly when LOG_COMMENT and RECORD_USER are present and every comment carries a readable `REL: `, `Accepted: ` and `Out of: ` number. |
| Cleaning.CastCounts | misc/data_utils.py:87-89 | Extracting a count and casting it with `astype(int)` succeeds exactly when every cell has one. A missing count raises instead of leaving a null. |
| Cleaning.IBCountRows | misc/data_utils.py:87-89 | Row by row, RELEASE_NUMBER, ACCEPTED and TOTAL hold the numbers after the first `REL: `, `Accepted: ` and `Out of: ` of the comment. |
| Cleaning.IBProgramRows | misc/data_utils.py:90 | Row by row, PROGRAM holds the comment's program name, or a missing value when there is none. |
| Cleaning.IBShape | misc/data_utils.py:86-94 | On success the row count and every column but LOG_COMMENT are kept. LOG_COMMENT is gone, and exactly RELEASE_NUMBER, ACCEPTED, TOTAL and PROGRAM are added. |
| Cleaning.StoredKeeps | misc/data_utils.py:87-91 | The four stores and the drop keep the frame well formed. |
| Cleaning.IBColumnOrder | misc/data_utils.py:87-91 | When the four columns are new, they come last, in assignment order. |
| Cleaning.IBFailsAtRelease | misc/data_utils.py:87 | If a comment lacks a readable `REL: ` number, the first cast raises and the frame is unchanged. |
| Cleaning.IBFailsAtAccepted | misc/data_utils.py:88 | If the `Accepted: ` number is missing, the second cast raises, with RELEASE_NUMBER already stored. |
| Cleaning.IBFailsAtTotal | misc/data_utils.py:89 | If the `Out of: ` number is missing, the third cast raises, with two columns already stored. |
| Cleaning.IBMissingUser | misc/data_utils.py:91-93 | Without RECORD_USER, the category cast raises `KeyError` only after LOG_COMMENT is dropped and the four columns are stored. |
| Cleaning.IBFails | misc/data_utils.py:87-89 | Any failed count cast makes `clean_df_IB` raise. |
| Cleaning.ScriptCleanIB | misc/test.py:106-119 | The script's IB block changes the frame and returns the frame `df_IB` names afterwards, a new one after the drop. Its contents and status are `ScriptIBOutcome` of the old frame. |
| Cleaning.ScriptAgrees | misc/test.py:108-119 | The script's block succeeds on exactly the frames `clean_df_IB` accepts, and then produces the same frame, although it casts RELEASE_NUMBER last. |
| Cleaning.ScriptFails | misc/test.py:108-113 | A comment missing REL, Accepted or Out of makes the script's block raise. |
| Cleaning.OlderQueryColumns | misc/test.py:108-115 | From the older query's (RECORD_USER, LOG_COMMENT) frame, a successful block leaves exactly RECORD_USER, RELEASE_NUMBER, ACCEPTED, TOTAL and PROGRAM, in that order. The older query is at misc/test.py:33-41. |
| Cleaning.CleanMMF | misc/data_utils.py:97-111 | `clean_df_MMF` changes the frame to `MMFOutcome` of the old one and reports its status. |
| Cleaning.MMFShape | misc/data_utils.py:97-104 | Before the closing casts, the row count is kept and CURRENT_OPER_DESC and CURRENT_FEATURE_COUNT are gone. OP and OP_DESC hold the split operation text, and the four feature columns hold the converted groups. Every other column is unchanged. |
| Cleaning.MMFSucceeds | misc/data_utils.py:97-111 | `clean_df_MMF` returns normally exactly when both source columns, the category columns other than OP, ACCEPT_COMMENTS and a readable DATE_TIME are present. |
| Cleaning.MMFCleanColumns | misc/data_utils.py:98-104 | After a normal return, OP, OP_DESC and the four feature columns are the ones split from the source columns, and both source columns are gone. |
| Cleaning.OpCell | misc/data_utils.py:98-99 | OP is the maximal leading digit run and is missing exactly when the text does not start with a digit. OP_DESC is never present without OP. |
| Cleaning.OpRows | misc/data_utils.py:98-99 | The same, row by row over a column. |
| Cleaning.FeatureCell | misc/data_utils.py:100-103 | A row's four feature cells are either all numbers, the record's four groups in order, or all missing, never some of each. |
| Cleaning.FeatureRows | misc/data_utils.py:100-103 | The same, row by row over a column. |
| Cleaning.MMFTwiceRaises | misc/data_utils.py:97-104 | `clean_df_MMF` is not idempotent. On its own result it raises `KeyError` for CURRENT_OPER_DESC at once and changes nothing. |
| Cleaning.MMFDropStage | misc/data_utils.py:104 | The last in-place step removes exactly the two source columns. |
| Ranking.Keys | misc/test.py:145 | The observed pairs appear each once. A pair is among them exactly when some row carries it. |
| Ranking.GroupsObserved | misc/test.py:145 | Every counted pair is observed with exactly its number of rows, at least 1. Every observed pair is counted once. |
| Ranking.CountObserved | misc/test.py:145 | A pair's count is positive exactly when some row carries that pair. |
| Ranking.GroupsSum | misc/test.py:145 | The counts add up to the number of rows with both a plan and an OP, which is at most the number of rows. |
| Ranking.InsertPerm | misc/test.py:148 | Inserting keeps every group and adds one. |
| Ranking.InsertSorted | misc/test.py:148 | Inserting into non-increasing counts keeps them non-increasing. |
| Ranking.SortDescSorted | misc/test.py:148 | The sort is a permutation into non-increasing order of counts. |
| Ranking.Head | misc/test.py:148 | `head(n)` is the first `min(n, len)` groups. |
| Ranking.TopRanked | misc/test.py:145-148 | There are at most 20 bars, largest first, each an observed pair with its count, and each pair once. A pair left out has no larger count than the twentieth bar. None is left out when fewer than 20 are shown. |
| Ranking.PlanOp | misc/test.py:151 | There is one label per bar, `plan + " - OP " + op`. |
| Ranking.LabelRoundTrip | misc/test.py:193-204 | With digit OP text, splitting a bar's label at `" - OP "` and reading the OP with `int()` gives back the plan and the OP's value exactly when the plan places no occurrence of the separator before the added one. Otherwise the handler reports an error. |
| Ranking.LabelMisSplit | misc/test.py:193-204 | A plan containing an occurrence of `" - OP "`, including one that overlaps the added separator, makes the selection fail. |
| Ranking.DigitsInt | misc/test.py:194 | `int()` reads digit text as its value. |
| Ranking.NotInt | misc/test.py:194 | A piece `"- OP <digits>"` left by a mis-split is not an integer. |
| Ranking.MatchingCount | misc/test.py:197 | Filtering by plan and OP text gives rows of the frame with that pair, as many as the pair's count. |
| Ranking.MatchingIntEmpty | misc/test.py:197 | Comparing the text OP column with an int matches no row. |
| Ranking.AsWrittenEmpty | misc/test.py:191-204 | The handler as written fails on the same selections as the corrected one, with the same error. Otherwise it shows no rows. |
| Ranking.BarDrillDown | misc/test.py:188-197 | Selecting a bar whose plan is separator-free makes the corrected handler show exactly that bar's rows, as many as the bar's height. The handler as written shows none. |
| Ranking.DrillDownExample | misc/test.py:145-197 | One MMF row with plan `P1` and OP `12` gives one bar `P1 - OP 12` of height 1. The handler as written drills down to no rows. The corrected one shows the row. |
| Buckets.TrendRule | Home.py:188-199 | `"Daily"` selects day buckets and `"Weekly"` selects week buckets. Every other value selects month buckets and raises nothing. |
| Buckets.Anchor | Home.py:188-199 | A period label is a valid date on or after the date it labels. |
| Buckets.SundayFrom | Home.py:193 | The `'W'` label is the Sunday on or after the date, `6 - weekday` days later. |
| Buckets.AnchorShape | Home.py:189-199 | A day labels itself. A week is labelled by the Sunday on or after the date, at most six days later. A month is labelled by its last day. |
| Buckets.SamePeriod | Home.py:189-199 | Every day from a date up to its period's label is in that same period, so periods are runs of consecutive days ending at their label. |
| Buckets.SameWeek | Home.py:193 | The days from a date to the Sunday after it share that Sunday. |
| Buckets.SameMonth | Home.py:197 | The days from a date to its month-end lie in the same month. |
| Buckets.AnchorMonotone | Home.py:189-199 | A later date falls in the same or a later period. |
| Buckets.NextAnchor | Home.py:189-199 | The next period's label comes strictly later. |
| Buckets.PeriodsShape | Home.py:189-199 | The label series starts at the first label and ends at the last. Each entry is followed by the label of the very next period. |
| Buckets.PeriodsIncrease | Home.py:189-199 | Labels in the series strictly increase, so none repeats. |
| Buckets.PeriodsCover | Home.py:189-199 | Every period between the first label and the last is in the series. |
| Buckets.ResampleShape | Home.py:189-199 | The series is empty exactly when no record has a timestamp. Otherwise its labels increase, and each is followed by the very next period's label, so empty periods appear with size 0. Each size is the number of records in that period. |
| Buckets.ResampleTotal | Home.py:189-199 | Every stamped record's period is in the series, and the sizes add up to the number of stamped records, so each record is counted in exactly one bucket. |
| Buckets.ResampleEnds | Home.py:189-199 | The series runs from the period of the earliest record to that of the latest, and both end buckets are non-empty. |
| Buckets.TotalIsCount | Home.py:189-199 | In a strictly increasing series holding every date's period, the sizes add up to the number of dates. |
| Buckets.CountSeen | Home.py:189-199 | A period some record falls in has size at least 1. |
| Text.Split | misc/test.py:193 | `str.split` returns at least one piece. |
| Text.SplitJoin | misc/test.py:193 | Joining the pieces with the separator restores the text, and no piece contains the separator. |
| Text.SplitPair | misc/test.py:193 | `a + sep + b` splits into exactly `[a, b]` when no separator starts inside `a` and `b` holds none. |
| Text.SplitNone | misc/test.py:193 | A text without the separator splits into itself alone. |
| Text.Decimal | misc/data_utils.py:87-89 | `str(n)` is a digit text with no leading zero (except `0`), and `int()` reads it back as `n`; the reference lemmas of the count scanners write the counts this way. |

## Left out

- Database access is not modelled: `run_query`, the cx_Oracle connection, cursor, fetch and close. The rows a query returns are inputs of the normalisers and of the ranking. The SQL engine is modelled only by the rank-1-per-release rule (`Ships`).
- The IB query's other joins and `DISTINCT` are not modelled. They are SQL semantics beyond the rank-1 rule.
- Credentials, DSN, Streamlit widgets, forms, `st.session_state`, the Plotly and matplotlib charts, colour maps and the `np.polyfit` trend lines are not modelled. They are configuration, UI, rendering and floating point.
- The widget values are not modelled. `date.today()`, the picked dates and the selected granularity and bar are parameters.
- The `category` and `object` casts are modelled as identity on values, because they change only the representation. The model keeps only what can fail: a missing column raises `KeyError`.
- `pd.to_datetime(format="mixed")` is modelled only on the `DD-MON-YYYY HH24:MI:SS` text that `TO_CHAR` produces. Any other text counts as a parse failure, not format inference.
- `Buckets.Resample` takes the records' timestamps as already parsed instants. The trend's `pd.to_datetime` calls (Home.py:183-185) are not modelled.
- The trend's IB column name is not modelled. The IB query aliases `log_date` unquoted, which Oracle reports as `LOG_DATE`, but Home.py:184 reads `df_IB['log_date']`.
- `int()` and `astype(int)` accept only ASCII digit text here, with optional whitespace and sign for `int()`. Unicode digits, which Python's `\d` also matches, and the `_` digit grouping `int()` accepts are not modelled. The 64-bit bound of `astype(int)` is modelled as `IntMax`.
- `pd.to_numeric` is modelled on digit groups and missing values, the only inputs the feature pattern produces.
- Ranking.SortDesc orders ties one fixed way. pandas' default sort is unstable, so the tie order of the real chart is not modelled. Ranking.TopRanked states only properties that hold for every tie order.
- Ranking.PlanOp models the PLAN_OP column assignment (misc/test.py:151) as a function on the ranked groups, not as an in-place store. `df_top10` is a fresh frame that nothing else aliases.
- Calendar.FormatDayRoundTrip, Calendar.ToCharRoundTrip and Queries.PickedDaysQueried require the year to be at most 9999. Python's `date` never exceeds 9999, and `Calendar.Valid` does not impose that bound.
- Queries.BuildQueriesCarry, Queries.HomeQueriesCarry and Queries.ScriptQueriesCarry require quote-free date texts. A quote inside a date text would end the SQL literal early. Every text `strftime("%d-%b-%Y")` writes is quote-free (`Queries.DayTextPlain`).
- Queries.Format models only plain keyword fields, positional fields and doubled or lone braces. A field with a conversion, a format spec, an attribute or an index (`{start_date_str!r}`, `{start_date_str:>12}`, `{start_date_str.upper}`, `{start_date_str[0]}`), or with a `{` inside it, gives `UnmodelledField`, where Python would substitute or raise `ValueError`. No query text the dashboard formats holds any such field.
- Ships.Ship models `lot_no` as an integer. The column's type is not visible in the repository. If it is text, Oracle's `ORDER BY s.lot_no` compares text, and the rank-1 rule picks the least lot in that order. The proofs use only that `<=` on lot numbers is a total order, which holds for text too.
- Calendar.ParseDay reads `TO_DATE` strictly: two-digit day, three-letter month, four-digit year. Oracle's lenient matching of other shapes is not modelled.

## Findings

| source | as written | input that shows it | evidently intended | confidence | as-written member | corrected member |
|---|---|---|---|---|---|---|
| misc/test.py:197 | `df_MMF['OP'] == selected_op` compares the categorical OP column, which holds digit text, with the `int` that line 194 produced, so every row compares False and the drill-down shows no rows | one cleaned MMF row with plan `P1` and OP `"12"`; the only bar is `P1 - OP 12`; selecting it gives an empty `filtered_df` | the rows whose plan and OP are the selected bar's, as many as the bar's height | not executed | Ranking.DrillDownExample | Ranking.BarDrillDown |
| Home.py:152 | `query.format(start_date_str=..., end_date_str=...)` is applied to queries that are f-strings already filled at Home.py:55-110 with the first picker's dates; they hold no placeholders, so `format` changes nothing and the trend fetch (Home.py:174-180) queries the first range | first picker at its default two days, trend picker at its default 01-Jan-2025 to 01-Apr-2025: the trend queries carry the first picker's dates | the trend fetch queries the trend picker's range, as it does when the queries are kept as templates with `{start_date_str}` and `{end_date_str}` | not executed | Queries.GetDataIgnoresRange | Queries.GetDataTemplate |
