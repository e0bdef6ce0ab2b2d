# Legislator expense collection and ranking, modelled in Dafny

The modelled service reads data about each member of the Brazilian Chamber of
Deputies. It uses the Chamber's structured API (the party listing, the
legislator roster, each legislator's profile and monthly expense lists) and
three scraped pages per legislator and year (office budget, resources,
activity).

Collection runs party by party. A party that already has a checkpoint file
is skipped; otherwise each of its members is collected and the party's
records are written to its checkpoint. The aggregation then does four
things:

- merges the checkpoints;
- derives per-year figures for every legislator and adds them up into a
  totalizer record with a composite score (`auxilioCotaVerbas`: housing
  allowance plus parliamentary quota plus office budget spent);
- sorts the totalizer list by that score, ascending and stably;
- builds a map from legislator id to a record of expense totals per
  category.

The model follows `src/app/services/deputados.js`, module by module:

- `Numbers`: `convertNumber` and `converteNumberText`. Amounts are read as
  natural numbers of hundredths (cents). The file also holds the decimal
  rendering of ids, years and two-digit months.
- `Strings`: JavaScript's `trim()` and `split(',')`. The white-space set is
  the one ECMAScript uses.
- `Records`, `Sources`: the values collected. Both remote sources are given
  up front as total functions that may fail (`Remote`). `ApiPath` and
  `PageUrl` give the text of each address.
- `Extract`: the pure readers of `getVerbas`, `getRecursos` and
  `getAtuacoes`, plus the sentinel of `getSelectTextContentTrim`. The loop
  over the monthly table is a method proved against its function.
- `Periods`: the sixteen period keys and expense requests of
  `getGastosPeriodo`. The two nested `forEach` loops are methods.
- `Collect`:
  - the fetch loop of `getGastosPeriodo` and the two-year reads of
    `getRecursosPeriodo`, `getAtuacoesPeriodo` and `getVerbasPeriodo`;
  - the composite record of one legislator;
  - the filter and member loop of `getInfoDeputados`.
- `Checkpoints`: the checkpoint directory as a class (`CheckpointStore`).
  Its `Put` writes one party and its `PutOutputs` writes the files of `run`
  itself. `getPartidos` is a method that updates the store, proved against
  the function `PartiesRun`. The resumability
  properties are lemmas about `PartiesRun`: checkpoints are never rewritten,
  a re-run changes nothing, and an interrupted run is completed by the next
  one.
- `Aggregate`:
  - the merge of the party checkpoints among the listed files;
  - `x * 1` coercion with JavaScript's NaN (`Num`);
  - the per-year figures, the totals and the score.
- `Ranking`: `sort` with an ascending comparator. The reference is
  `Ranked` (stable insertion) and the method sorts an `array` in place.
  Sortedness, permutation and stability are lemmas.
- `Breakdown`: the `gastos` map, filled by three nested loops proved against
  `Breakdowns`. Its properties are lemmas:
  - each legislator with an entry gets one record, in the order of their
    first entry;
  - each category total is that legislator's net expenses in the category,
    and the totals add up to their net expenses.
- `Pipeline`: `run`, from the party batch to the two reports.

Two behaviours of the code are worth stating, since a reader might expect
otherwise:

- **A failing party.** No `try` surrounds the party loop (lines 292-296),
  so the first failure ends `getPartidos` and `run` with that error. Earlier
  parties keep their checkpoints (`Download`, `DownloadStopsAt`,
  `Pipeline.Run`).
- **Missing activity anchors.** The `typeof` test at line 143 is always
  true, so reading the missing quantity node throws and the legislator fails
  (`ActivityOf`, `MissingAnchorsAbort`). No zero counts are recorded.

## Model

| member | source | states |
|---|---|---|
| Numbers.StripNonDigits | src/app/services/deputados.js:10 | the regex replacement leaves only decimal digits and never lengthens the text |
| Numbers.StripConcat | src/app/services/deputados.js:10 | stripping distributes over concatenation |
| Numbers.StripIgnoresNonDigit | src/app/services/deputados.js:10 | inserting a non-digit character anywhere does not change the stripped text |
| Numbers.StripDigitsOnly | src/app/services/deputados.js:10 | text made only of digits is left unchanged |
| Numbers.StripIdempotent | src/app/services/deputados.js:10 | stripping twice is stripping once |
| Numbers.StripKeepsDigits | src/app/services/deputados.js:10 | a character survives exactly when it occurs in the text and is a digit |
| Numbers.StripEmptyIffNoDigits | src/app/services/deputados.js:301 | the stripped text is empty if and only if the text has no digit (the test of `converteNumberText`) |
| Numbers.DigitsValue | src/app/services/deputados.js:10 | the number a digit string denotes is below 10 to the power of its length |
| Numbers.DigitsValueConcat | src/app/services/deputados.js:10 | the value of concatenated digit strings is the first value shifted by the second's length plus the second value |
| Numbers.DecimalText | src/app/services/deputados.js:213-215 | the template-literal rendering of a natural, most significant digit first; its contract is that it is non-empty digits without a leading zero, as `DecimalTextValue` restates with the value read back |
| Numbers.DecimalTextValue | src/app/services/deputados.js:213-215 | the rendering of a natural in a template literal is non-empty digits with no leading zero, and reads back as that natural |
| Numbers.DecimalTextOfValue | src/app/services/deputados.js:213-215 | every canonical digit string is the rendering of its value: rendering and reading are inverse |
| Numbers.Pad2 | src/app/services/deputados.js:212 | `('0' + m).substr(-2)` is two digits, and for m below 100 it denotes m |
| Numbers.ConvertNumber | src/app/services/deputados.js:9-11 | text without digits reads as 0, and the amount in cents is below 10 to the power of the text length |
| Numbers.ConverteNumberText | src/app/services/deputados.js:300-303 | the explicit empty-digits branch agrees with `convertNumber` on every text, and text without digits is 0 |
| Numbers.ConvertIgnoresNonDigit | src/app/services/deputados.js:9-11 | punctuation and currency symbols inserted anywhere do not change the amount |
| Numbers.ConvertFormatted | src/app/services/deputados.js:9-11 | an amount written as "R$ reais,centavos" reads back as the same amount (round trip) |
| Numbers.ConvertExample | src/app/services/deputados.js:9-11 | "R$ 1.234,56" reads as 123456 cents |
| Numbers.StripExample | src/app/services/deputados.js:10 | the digits of "R$ 1.234,56" are "123456" |
| Numbers.DigitsExample | src/app/services/deputados.js:10 | "123456" denotes 123456 |
| Numbers.ConvertNoDigits | src/app/services/deputados.js:300-303 | the empty text and "abc" read as 0 under both conversions |
| Strings.TrimStart | src/app/services/deputados.js:15 | the result is a suffix not starting with white space, and everything dropped is white space |
| Strings.TrimEnd | src/app/services/deputados.js:15 | the result is a prefix not ending with white space, and everything dropped is white space |
| Strings.Trim | src/app/services/deputados.js:15 | the trimmed text neither starts nor ends with white space and is no longer than the input |
| Strings.TrimSlice | src/app/services/deputados.js:15 | the trimmed text is one contiguous slice of the input with only white space outside it |
| Strings.TrimUnchanged | src/app/services/deputados.js:15 | text that neither starts nor ends with white space is its own trim |
| Strings.TrimIdempotent | src/app/services/deputados.js:15 | trimming twice is trimming once |
| Strings.TrimStartSpaces | src/app/services/deputados.js:15 | leading white space before a non-space is exactly what is dropped at the start |
| Strings.TrimEndSpaces | src/app/services/deputados.js:15 | trailing white space after a non-space is exactly what is dropped at the end |
| Strings.TrimSurrounded | src/app/services/deputados.js:15 | trimming removes exactly the white space surrounding a text |
| Strings.Split | src/app/services/deputados.js:105-107 | `split(sep)` gives at least one piece, no piece contains the separator, and joining the pieces gives back the text |
| Strings.IndexOf | src/app/services/deputados.js:105-107 | the first separator position, or the length when there is none; no separator occurs before it |
| Strings.SplitHead | src/app/services/deputados.js:105-107 | the first piece is the text before the first separator, a second piece exists if and only if there is a separator, and the rest splits the text after it |
| Strings.SplitNoSeparator | src/app/services/deputados.js:105-107 | text without the separator, such as the sentinel, is one piece |
| Strings.SplitJoin | src/app/services/deputados.js:105-107 | splitting joined parts that hold no separator returns the parts: split and join are inverse |
| Extract.SelectTextContentTrim | src/app/services/deputados.js:13-19 | no match gives the sentinel; otherwise the trimmed text of the first match |
| Extract.SentinelReadsAsZero | src/app/services/deputados.js:17 | the sentinel has no digit, so every amount read from it is 0 under both conversions |
| Extract.MonthlySeriesOf | src/app/services/deputados.js:36-48 | the series exists if and only if the cell count is a multiple of three (otherwise a missing cell is dereferenced). It has one third as many entries, and entry k is month, value and percentage of cells 3k, 3k+1 and 3k+2 |
| Extract.MonthlySeries | src/app/services/deputados.js:40-48 | the step-of-three push loop computes exactly `MonthlySeriesOf` |
| Extract.BudgetOf | src/app/services/deputados.js:27-60 | the budget exists if and only if there are six summary cells and the monthly series exists. Spent is cells 1 and 2, available is cells 4 and 5, and the monthly series is carried unchanged |
| Extract.ParseBudget | src/app/services/deputados.js:25-60 | reading a fetched office-budget page computes exactly `BudgetOf` |
| Extract.StaffCounts | src/app/services/deputados.js:105-112 | both counts are digit strings. The planned count is the digits of the text before the first comma; the active count is the digits of the second group, or the planned count when that is missing or empty |
| Extract.SplitTwoGroups | src/app/services/deputados.js:105-107 | the first two comma groups are the text before the first comma and the text between the first and the second |
| Extract.StaffWithoutComma | src/app/services/deputados.js:105-112 | a staff text without a comma gives its digits as both counts |
| Extract.ResourcesOf | src/app/services/deputados.js:79-117 | the staff, residence, housing and travel texts are the sentinel-or-trimmed texts of their queries; the two staff counts are `StaffCounts` of the staff text; the salary is the amount of the salary text |
| Extract.ResourcesWithoutStaff | src/app/services/deputados.js:79-112 | a page without the staff link gives two empty staff counts |
| Extract.SentinelStaff | src/app/services/deputados.js:79-82 | the sentinel staff text gives two empty counts |
| Extract.SentinelHasNoComma | src/app/services/deputados.js:17 | the sentinel has no comma |
| Extract.ActivityOf | src/app/services/deputados.js:139-187 | the activity exists if and only if there are two quantity nodes, whose trimmed texts and links become the authored and reported counts. With six description cells, the attendance fields are cells 0 to 5, trimmed, plenary first |
| Periods.MonthRequests | src/app/services/deputados.js:210-217 | one request per month 1..m of a year |
| Periods.PeriodKey | src/app/services/deputados.js:212 | the period key `ano-mm`; its properties are `PeriodKeyYear` and `Pad2Digits` |
| Periods.Request | src/app/services/deputados.js:212-215 | one element of `urlPeriodo`: the month's key and its expense request; `MonthRequestsAt` states which month each request names |
| Periods.MonthRequestsAt | src/app/services/deputados.js:203-217 | request k of a year is keyed and addressed by month k + 1 |
| Periods.Requests | src/app/services/deputados.js:202-218 | one request per month of every range, as many as the months counted |
| Periods.AppendMonths | src/app/services/deputados.js:210-217 | the inner push loop appends exactly that year's month requests |
| Periods.BuildRequests | src/app/services/deputados.js:207-218 | the two nested loops build exactly `Requests` |
| Periods.Pad2Digits | src/app/services/deputados.js:212 | a month below 100 is written as its tens digit then its units digit |
| Periods.PeriodKeyYear | src/app/services/deputados.js:212 | a four-digit year's period key is seven characters whose first four are the year, as `substring(0, 4)` later reads them |
| Periods.ReferencePeriods | src/app/services/deputados.js:202-218 | the configured periods are sixteen keys: 2019-01..2019-12, then 2020-01..2020-04 |
| Periods.ReferenceSplit | src/app/services/deputados.js:202-205 | the requests of 2019 come first, then those of 2020 |
| Periods.ReferenceEnds | src/app/services/deputados.js:202-212 | the first key is "2019-01" and the last is "2020-04" |
| Periods.ReferenceYears | src/app/services/deputados.js:202-212 | every key is seven characters starting with "2019" or "2020" |
| Collect.ExpenseBatchesOf | src/app/services/deputados.js:226-234 | the history exists if and only if every fetch succeeds. It then has one batch per request, each keyed by the request's period and holding what that fetch returned |
| Collect.ExpenseBatchesFirstError | src/app/services/deputados.js:226-234 | when a fetch fails, the history fails with the error of the first failing fetch |
| Collect.FetchExpenses | src/app/services/deputados.js:226-234 | the sequential fetch loop computes exactly `ExpenseBatchesOf` |
| Collect.GastosPeriodo | src/app/services/deputados.js:201-235 | `getGastosPeriodo` is the fetch of the reference requests |
| Collect.GastosPeriods | src/app/services/deputados.js:201-235 | a collected history has sixteen batches in request order, "2019-01" first and "2020-04" last |
| Collect.ByYear | src/app/services/deputados.js:63-71 | the list exists if and only if every year's read succeeds, and it pairs each year with its read, in order |
| Collect.ByYearErrPrefix | src/app/services/deputados.js:66-69 | a failure among the first years is the failure of the whole loop |
| Collect.ByYearStep | src/app/services/deputados.js:66-69 | one more year appends its budget when read, or fails the whole list with its error |
| Collect.ByYearTwo | src/app/services/deputados.js:63-71 | over two years, the list exists if and only if both reads succeed, and it is the two pairs |
| Collect.BudgetPeriodTwoYears | src/app/services/deputados.js:63-71 | the budget list exists if and only if both years' pages are read, and it is 2019's then 2020's |
| Collect.BudgetsByYear | src/app/services/deputados.js:64-70 | the loop over `anos` computes exactly `ByYear` of the budget reader |
| Collect.VerbasPeriodo | src/app/services/deputados.js:63-71 | `getVerbasPeriodo` is the budget list of 2019 and 2020 |
| Collect.ReadBudget | src/app/services/deputados.js:21-61 | fetching then reading the office-budget page |
| Collect.ReadResources | src/app/services/deputados.js:73-118 | fetching then reading the resources page. Only the fetch can fail |
| Collect.ReadActivity | src/app/services/deputados.js:133-190 | fetching then reading the activity page |
| Collect.ResourcesPeriodOf | src/app/services/deputados.js:120-131 | the pair exists if and only if both years' resources are read, and it is 2019's then 2020's; a failure of 2019 is the pair's failure |
| Collect.ActivityPeriodOf | src/app/services/deputados.js:192-199 | the pair exists if and only if both years' activity is read, and it is 2019's then 2020's; a failure of 2019 is the pair's failure |
| Collect.MemberOf | src/app/services/deputados.js:241-274 | the record of one legislator, the first failure ending it; its contract is `MemberOkIff` and `MemberExpenses` |
| Collect.MemberOkIff | src/app/services/deputados.js:262-270 | a legislator's record exists if and only if all eight reads succeed: the profile, the expense history, and two years each of resources, activity and budget |
| Collect.MemberExpenses | src/app/services/deputados.js:266 | the record's expense history is the one `getGastosPeriodo` fetched |
| Collect.MissingAnchorsAbort | src/app/services/deputados.js:139-151 | an activity page without the two quantity nodes fails its read and the whole legislator |
| Collect.CollectMember | src/app/services/deputados.js:262-270 | the loop body computes exactly `MemberOf`: the record or the first error |
| Collect.PartyMembers | src/app/services/deputados.js:242-244 | the filter keeps exactly the roster entries of the party |
| Collect.PartyMembersConcat | src/app/services/deputados.js:242-244 | the filter keeps roster order |
| Collect.Gather | src/app/services/deputados.js:260-271 | the party's list exists if and only if every member is collected. It then holds one record per member, in member order |
| Collect.GatherFirstError | src/app/services/deputados.js:260-271 | when a member fails, the party fails with the error of the first failing member |
| Collect.GatherStep | src/app/services/deputados.js:260-271 | one more member extends a successful prefix, or ends the party with that member's error |
| Collect.CollectMembers | src/app/services/deputados.js:260-271 | the member loop computes exactly `Gather` of the member collector |
| Collect.CollectParty | src/app/services/deputados.js:241-274 | `getInfoDeputados` is the filtered roster collected in order |
| Checkpoints.CheckpointStore.constructor | src/app/services/deputados.js:286 | the store starts with the checkpoints and output files already present |
| Checkpoints.CheckpointStore.Put | src/app/services/deputados.js:295 | writing a party's checkpoint sets that code's records and changes no other code and no output file |
| Checkpoints.CheckpointStore.PutOutputs | src/app/services/deputados.js:473-481 | writing `TODOS.json` (line 315) and the two reports adds those three files and leaves every party checkpoint as it was |
| Checkpoints.Missing | src/app/services/deputados.js:288-290 | a code is pending if and only if it is listed and has no checkpoint |
| Checkpoints.MissingConcat | src/app/services/deputados.js:288-290 | the pending filter keeps listing order |
| Checkpoints.MissingNone | src/app/services/deputados.js:288-290 | nothing is pending when every listed code has a checkpoint |
| Checkpoints.Download | src/app/services/deputados.js:292-296 | the batch loop: parties in turn, written when collected, the first failure ending it; its contract is `DownloadFrame`, `DownloadComplete` and `DownloadStopsAt` |
| Checkpoints.PartiesRun | src/app/services/deputados.js:276-298 | `getPartidos`: party listing, roster, then the batch over the codes without a checkpoint; its contract is the `PartiesRun` lemmas below |
| Checkpoints.DownloadFrame | src/app/services/deputados.js:292-296 | a checkpoint that is not pending keeps its contents. Every checkpoint afterwards is an old one, or a pending party's full record list |
| Checkpoints.DownloadComplete | src/app/services/deputados.js:292-296 | the batch completes if and only if every pending party is collected. Every pending party then has its checkpoint |
| Checkpoints.DownloadStopsAt | src/app/services/deputados.js:292-296 | the first failing party ends the batch with its error and keeps exactly what the parties before it wrote |
| Checkpoints.FailedPartyUnsaved | src/app/services/deputados.js:292-296 | a failing party gets no checkpoint |
| Checkpoints.DownloadStep | src/app/services/deputados.js:292-296 | one party more is written when collected, or ends the batch with its error |
| Checkpoints.PartiesRunFrame | src/app/services/deputados.js:276-298 | checkpointed parties are never rewritten. Every new checkpoint is a listed code holding exactly its party's records |
| Checkpoints.PartiesRunComplete | src/app/services/deputados.js:276-298 | after a complete run, every listed party code has a checkpoint |
| Checkpoints.RerunIsNoop | src/app/services/deputados.js:276-298 | re-running after a complete run collects nothing and changes nothing |
| Checkpoints.ResumeCompletes | src/app/services/deputados.js:276-298 | when every missing party can be collected, the run completes. The checkpoints are then exactly the old ones plus the listed codes |
| Checkpoints.ResumeScenario | src/app/services/deputados.js:288-290 | with A and B checkpointed, only C is pending out of A, B, C |
| Checkpoints.GetPartidos | src/app/services/deputados.js:276-298 | `getPartidos` leaves the checkpoints and the failure that `PartiesRun` describes, and no output file changes |
| Aggregate.Merged | src/app/services/deputados.js:318-321 | the merged list has the total length of the listed party lists |
| Aggregate.MergedMembers | src/app/services/deputados.js:318-321 | a record is merged if and only if some listed party holds it |
| Aggregate.MergedConcat | src/app/services/deputados.js:318-321 | merging one listing after another concatenates the two merges |
| Aggregate.Distinct | src/app/services/deputados.js:309-319 | the keys of `todos`: exactly the listed names, each once, in the order of first listing |
| Aggregate.DistinctUnique | src/app/services/deputados.js:309-319 | no key of `todos` is listed twice |
| Aggregate.PartyListing | src/app/services/deputados.js:307-308 | exactly the listed names that are not one of `run`'s output files |
| Aggregate.MergeAsWritten | src/app/services/deputados.js:307-327 | for a run that reads every file fresh from disk: the merge as written fails if and only if a listed file is one of `run`'s outputs; otherwise it merges the listed checkpoints |
| Aggregate.PartyListingNoOutputs | src/app/services/deputados.js:307-308 | with no output file listed, the party listing is the listing |
| Aggregate.FirstRunAgrees | src/app/services/deputados.js:307-321 | with only party checkpoints in the directory, the merge as written and the corrected merge give the same list |
| Aggregate.RerunAsWrittenFails | src/app/services/deputados.js:307-327 | after a completed run, a run reading every file fresh fails in the merge as written, while the corrected merge keeps exactly the party checkpoints |
| Aggregate.MergeKeysAsWritten | src/app/services/deputados.js:307-317 | with `require`'s cache: line 315 writes the listing's names, each once, and the object line 317 returns is what the process's cache holds afterwards |
| Aggregate.SameProcessCached | src/app/services/deputados.js:312-317 | within one process, every later merge gets the object cached by the first load, whatever the directory holds |
| Aggregate.FreshProcessReadsDisk | src/app/services/deputados.js:312-317 | a process's first merge with `TODOS.json` listed gets the file as it was on disk, not the one it writes |
| Aggregate.ThirdProcessThrows | src/app/services/deputados.js:305-321 | after one run in process 1, process 2's run does not throw but writes a `TODOS` key, and process 3's first run throws at line 320. A second run in process 1 does not throw and merges the same parties, but the next process to start throws |
| Aggregate.MergedParties | src/app/services/deputados.js:307-321 | a record reaches the corrected merge if and only if some party checkpoint holds it |
| Aggregate.LoadStep | src/app/services/deputados.js:310-314 | one more listed file keeps `todos` and its keys in step: outputs skipped, a new party appended last |
| Aggregate.LoadCheckpoints | src/app/services/deputados.js:307-314 | the loading loop leaves `todos` keyed by the distinct listed party names, each holding its checkpoint |
| Aggregate.MergedStep | src/app/services/deputados.js:318-321 | merging one more party appends its list |
| Aggregate.MergeCheckpoints | src/app/services/deputados.js:307-321 | loading the party checkpoints into `todos` then concatenating in key order computes exactly `Merged` of the distinct listed party names |
| Aggregate.AddNum | src/app/services/deputados.js:359-360 | `+` is a number if and only if both operands are, and then it is their sum |
| Aggregate.Coerce | src/app/services/deputados.js:349-380 | `x * 1` of a scraped text: blank text is 0, a decimal numeral is its value, anything else NaN; its contract is `CoerceDecimal` and `StaffIsNumber` |
| Aggregate.CoerceDecimal | src/app/services/deputados.js:349-357 | `* 1` of a numeral, padded with white space or not, is its value |
| Aggregate.StaffIsNumber | src/app/services/deputados.js:378-380 | the active staff count of a read page always coerces to a number |
| Aggregate.Prefix4 | src/app/services/deputados.js:384 | `substring(0, 4)` has four characters, or all of a shorter text |
| Aggregate.Quota | src/app/services/deputados.js:383-395 | the net expenses of the months whose key starts with the year; its contract is `QuotaSplit`, `QuotaOfOtherYear` and `MonthlyQuota` |
| Aggregate.QuotaSplit | src/app/services/deputados.js:383-395 | when every month is of 2019 or of 2020, the two yearly quotas add up to the whole expense history |
| Aggregate.QuotaOfOtherYear | src/app/services/deputados.js:390-395 | the quota of a year no month belongs to is 0 |
| Aggregate.CollectedYears | src/app/services/deputados.js:383-395 | every month of a collected history belongs to 2019 or 2020 |
| Aggregate.Absences | src/app/services/deputados.js:358-376 | absences are a number if and only if both absence cells coerce to numbers, and then their sum |
| Aggregate.Yearly | src/app/services/deputados.js:326-396 | one year's figures: housing amount, coerced counts, absences, active staff, office budget spent, and that year's quota; `Totalize` states what reaches the totalizer |
| Aggregate.Figures2019 | src/app/services/deputados.js:326-396 | the figures of 2019: the 2019 resources, activity and budget, and the 2019 quota |
| Aggregate.Figures2020 | src/app/services/deputados.js:326-396 | the figures of 2020: the 2020 resources, activity and budget, and the 2020 quota |
| Aggregate.Totalize | src/app/services/deputados.js:398-434 | the totalizer keeps the identity fields and the 2020 salary. Housing is both allowances read as amounts, office budget is both years spent, and the quota is both years' quotas. Each year's residence is kept apart. The score is housing plus quota plus office budget; the count fields are stated by `TotalizeCounts` |
| Aggregate.TotalizeCounts | src/app/services/deputados.js:416-425 | authored, reported and both presence totals are the 2019 coercion plus the 2020 one, NaN absorbing; each year's active staff is its own coerced count |
| Aggregate.Totals | src/app/services/deputados.js:326-434 | one totalizer per merged record, in the same order, each the record's `Totalize` |
| Aggregate.AbsenceTotals | src/app/services/deputados.js:420-422 | the absence totals are 2019's plus 2020's, a number if and only if both are |
| Aggregate.ScoreFromRecord | src/app/services/deputados.js:383-434 | the quota total is the whole expense history. The score is both housing amounts plus the whole history plus both office budgets spent |
| Aggregate.CollectedScore | src/app/services/deputados.js:398-434 | for every collected legislator, the score is housing plus the whole expense history plus office budget |
| Aggregate.HousingTotal | src/app/services/deputados.js:342-347 | the housing total is the amounts of the two allowance texts. Texts without digits, such as the sentinel, add nothing |
| Aggregate.MonthlyQuota | src/app/services/deputados.js:383-388 | n months of 2019 with one entry of v each give a 2019 quota of n times v |
| Aggregate.ScenarioQuota | src/app/services/deputados.js:383-395 | twelve batches of 2019 with one entry of 50.00 each give a 2019 quota of 600.00 and a 2020 quota of 0 |
| Aggregate.ScoreScenario | src/app/services/deputados.js:383-434 | budget 1500.00, housing 200.00 and twelve entries of 50.00 give quota 600.00 and score 2300.00 |
| Ranking.Insert | src/app/services/deputados.js:436-446 | one insertion step adds one element |
| Ranking.InsertPermutation | src/app/services/deputados.js:436-446 | inserting adds the element and loses nothing |
| Ranking.Ranked | src/app/services/deputados.js:436-446 | the sorted list has the length of the list |
| Ranking.InsertBelow | src/app/services/deputados.js:436-446 | insertion keeps every score under a common upper bound |
| Ranking.InsertSorted | src/app/services/deputados.js:436-446 | inserting into a sorted list keeps it sorted |
| Ranking.RankedSorted | src/app/services/deputados.js:436-446 | the sorted list is in ascending score order |
| Ranking.RankedPermutation | src/app/services/deputados.js:436-446 | the sorted list is a permutation of the list |
| Ranking.InsertStable | src/app/services/deputados.js:436-446 | insertion keeps the order of every score class and puts the new element last in its class |
| Ranking.RankedStable | src/app/services/deputados.js:436-446 | for every score, records with that score keep their original relative order (the comparator returns 0 for ties) |
| Ranking.ShiftHigher | src/app/services/deputados.js:436-446 | the shifting loop moves the higher-scoring records right, leaving a gap where `Insert` puts the new one |
| Ranking.InsertAt | src/app/services/deputados.js:436-446 | one step of the in-place sort turns the prefix into `Insert` of it and leaves the rest untouched |
| Ranking.RankInPlace | src/app/services/deputados.js:436-446 | the in-place sort leaves exactly `Ranked` of the old array contents |
| Breakdown.AddTo | src/app/services/deputados.js:466-468 | the category's total grows by the value and no other total changes. A new category is added last, and the sum of totals grows by the value |
| Breakdown.Post | src/app/services/deputados.js:452-468 | one expense entry: the record of its legislator created on first entry, then its value added to its category; its contract is `PostValid`, `PostSum`, `PostKeys`, `PostTotal` and `PostOrder` |
| Breakdown.PostEntries | src/app/services/deputados.js:451-469 | one month's entries in order; its contract is `EntriesFacts`, `EntriesTotal` and `EntriesOrder` |
| Breakdown.PostBatches | src/app/services/deputados.js:450-470 | one history's months in order; its contract is `BatchesFacts`, `BatchesTotal` and `BatchesOrder` |
| Breakdown.PostAll | src/app/services/deputados.js:449-471 | all merged records in order; its contract is `AllFacts` and `AllTotal` |
| Breakdown.Breakdowns | src/app/services/deputados.js:448-471 | the `gastos` map after all merged records; its contract is `BreakdownFacts`, `BreakdownCategories` and `BreakdownOrder` |
| Breakdown.PostValid | src/app/services/deputados.js:451-469 | one entry keeps the map well formed: each id listed once, records keyed by their own id, no category twice |
| Breakdown.PostSum | src/app/services/deputados.js:452-468 | one entry adds its value to its legislator's sum and to no other |
| Breakdown.PostKeys | src/app/services/deputados.js:452-465 | one entry creates a record only for its own legislator |
| Breakdown.EntriesFacts | src/app/services/deputados.js:451-469 | one month keeps the map well formed, adds its net sum to its legislator, and creates that record only if it has an entry |
| Breakdown.BatchesFacts | src/app/services/deputados.js:450-470 | one legislator's history keeps the map well formed, adds its whole net amount, and creates a record only if it has an entry |
| Breakdown.AllFacts | src/app/services/deputados.js:449-471 | all records keep the map well formed; each id gains its net amount over all its records |
| Breakdown.BreakdownFacts | src/app/services/deputados.js:448-471 | a legislator has a breakdown record if and only if some record of theirs has an expense entry. Its category totals add up to their net expenses |
| Breakdown.PostTotal | src/app/services/deputados.js:466-468 | one entry adds its value to its own category of its own legislator and to nothing else |
| Breakdown.EntriesTotal | src/app/services/deputados.js:451-469 | one month adds its category sum to its own legislator only |
| Breakdown.BatchesTotal | src/app/services/deputados.js:450-470 | one history adds its category sum to its own legislator only |
| Breakdown.AllTotal | src/app/services/deputados.js:449-471 | all records add, to each legislator and category, their net expenses in that category |
| Breakdown.BreakdownCategories | src/app/services/deputados.js:448-471 | each category total of a legislator's record is their net expenses in that category over all their records |
| Breakdown.PostOrder | src/app/services/deputados.js:452-465 | one entry lists its legislator last exactly when the map had no record of them |
| Breakdown.EntriesOrder | src/app/services/deputados.js:451-469 | one month lists its legislator last when it has an entry and they are not yet listed |
| Breakdown.BatchesOrder | src/app/services/deputados.js:450-470 | one history lists its legislator last when it has an entry and they are not yet listed |
| Breakdown.BreakdownOrder | src/app/services/deputados.js:448-471 | the map lists the legislators in the order of their first record with an entry (`FirstIds`) |
| Breakdown.BreakdownValues | src/app/services/deputados.js:448-480 | the records written out hold no legislator twice, exactly the legislators with an entry, in first-entry order. Each category total of a record is that legislator's net expenses in the category, and the totals add up to their net expenses |
| Breakdown.PostMonth | src/app/services/deputados.js:451-469 | the innermost loop computes exactly `PostEntries` |
| Breakdown.PostLegislator | src/app/services/deputados.js:450-470 | the middle loop computes exactly `PostBatches` |
| Breakdown.BucketExpenses | src/app/services/deputados.js:448-471 | the three nested loops compute exactly `Breakdowns` of the merged records |
| Pipeline.ReportOf | src/app/services/deputados.js:436-481 | the two reports of the merged records: `Ranked` of `Totals` and the breakdown values; its contract is `ReportFacts` |
| Pipeline.RankTotals | src/app/services/deputados.js:398-446 | the totalizer list, sorted in place, is `Ranked(Totals(ds))` |
| Pipeline.Run | src/app/services/deputados.js:305-484 | `run` leaves the checkpoints of `PartiesRun`. It fails if and only if the batch fails, with its error, writing no output. Otherwise it writes its three output files and returns the report of the party checkpoints among the listed files, and a record reaches that report if and only if some party checkpoint holds it |
| Pipeline.ReportFacts | src/app/services/deputados.js:398-481 | the report ranks the totals sorted, permuted and stable by score. Each breakdown record sums to its legislator's net expenses, with distinct ids |

## Left out

- HTTP (`axios`, `api`) and HTML parsing (`JSDOM`) are not modelled. The
  answers of both sources are given up front in `Remote`. A parsed page is
  what each of its CSS queries matches (`Document`), and selector matching
  itself is not modelled.
- The filesystem is modelled only as the names in the checkpoint directory
  and the party checkpoints' contents (`CheckpointStore`). `readdirSync` is
  the parameter `listing`. The contents of `TODOS.json` and of the two
  report files, `require` and its module cache, and the JSON round trips
  are not modelled. `run` returns the two reports, and the store records
  only that the three files were written.
- `console.log` and the asynchronous sequencing are not modelled. Every
  remote call happens in source order, one at a time.
- Floating point and JavaScript's `/ 100` are not modelled. Amounts are
  exact integer cents, and `valorLiquido` is taken as an integer number of
  cents, so sums are exact.
- Coerce: blank text is 0, a decimal numeral is its value, any other text
  or a missing cell is NaN. Decimal fractions, signs, hexadecimal and
  exponent forms and `Infinity`, which JavaScript reads as numbers, are NaN
  here.
- Pipeline.Run: the listing read after the batch is the parameter
  `listing`, required to name exactly the party checkpoints and output
  files of the store. The model uses the corrected merge, which skips
  `run`'s own output files (see Findings). Two cases are outside the model:
  - `Object.keys` lists integer-like codes first, and the model keeps
    insertion order;
  - within one process, `require` returns the `TODOS.json` object that was
    first loaded, so the later runs of that process merge the parties of
    that object and miss any party checkpointed since. The model reads
    the checkpoints fresh on every run, and `MergeKeysAsWritten` captures
    the cache only for the names in `TODOS.json`;
  - a party whose code is the name of an output file (`TODOS`, ...):
    `getPartidos` counts that file as the party's checkpoint, the model's
    `Missing` does not, and the corrected merge skips it.
- The record of `getInfo` keeps only the profile fields the aggregation
  reads. `ApiPath` and `PageUrl` render addresses but no property is stated
  about their text.
- `salario2019` (line 336) copies the 2020 salary. The model does not
  expose this defect: only `salario2020` reaches a written record, as the
  salary.
- Breakdown.AddTo: a category named like a header field of the record
  (`id`, `nome`, ...) would overwrite that field in the source. The model
  keeps categories apart from the header.
- The `typeof quantidades !== 'string'` test at line 143 is always true, so
  its `else` branch (lines 152-161) is dead and not modelled.
- Extract.ActivityOf: with fewer than six description cells the missing
  fields are `None`, but the contract does not list the cells that do
  exist.
- Random access into the record lists by position (`atuacoes[0]`,
  `verbas[1]`) becomes named fields of `Legislator`. Their years are fixed
  by `MemberOf`.

## Findings

| source | as written | input that shows it | evidently intended | confidence | as-written member | corrected member |
|---|---|---|---|---|---|---|
| src/app/services/deputados.js:307-327 | every file of the checkpoint directory is loaded as a party's record list and written into `TODOS.json` under its name, `run`'s own output files included. Once a `TODOS.json` holding those names is loaded, the spread at line 320 throws on its `TODOS` entry, an object | one run in a process, then one run in a second process: it loads the party-only `TODOS.json` at line 312, where `require` caches it, so line 317 gets that copy and nothing throws, but line 315 rewrites the file with a `TODOS` key. The first run of a third process then loads that file and throws at line 320. Two runs in the first process also write such a file, so the next process throws | merge only the party checkpoints | not executed | Aggregate.MergeKeysAsWritten, Aggregate.ThirdProcessThrows | Aggregate.MergeCheckpoints, Pipeline.Run |
