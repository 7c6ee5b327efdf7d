# Recovery Point: a verified model of the session and evaluation logic

Recovery Point is a Next.js application for a physiotherapy practice. Therapists keep a
list of patients and record a daily session for each patient: a date, a time and a
three-colour sentiment. Around each session a patient fills in a pre-session and a
post-session evaluation on 0-10 sliders. This project models in Dafny the parts of the
application that compute something:

- the evaluation status of a patient's latest session, and the averages derived from it (`EvaluationStatus`);
- the evaluation wizard: question tables, answer upsert, the completed answer list, category summaries, the existing-evaluation check (`EvaluationForm`);
- the evaluation panel: colour bands and which action is offered (`EvaluationButton`);
- the server actions' in-memory logic (`Actions`):
  - distinct patient ids;
  - the case-insensitive patient search, counting and paging;
  - the date-range filter of sessions and their grouping by day;
  - the date of a new session;
- the spreadsheet export of sessions by day (`ExportSesiones`);
- the pagination bar (`Pagination`), the category and search filters (`CategoryFilter`, `SearchBar`) and the date-range filter (`DateFilter`), all on top of a `URLSearchParams` model (`UrlParams`);
- the session edit form's date parsing and formatting (`EditSesion`);
- the statistics page's date parameter, peak hour, filter names and result handling (`Estadisticas`);
- the side menu's active-item rule (`Sidebar`).

Shared modules:
- `Optional` holds the option type.
- `Text` holds the JavaScript string operations the code relies on: `includes`, `trim`, `toLowerCase`, `split`, `padStart`, `toString`, `parseInt` and `Number`.
- `Calendar` holds the date triple and its `DD-MM-YYYY` and `yyyy-MM-dd` forms.
- `Schema` holds the stored entities.

What comes from outside is a parameter:
- database rows (a missing value stands for a query that threw; for the evaluation status, `FetchFailed` stands for a rejected query);
- JSON parsing, as a function from text to an optional answer list;
- `new Date(text)`;
- the list of days of an interval;
- the clock, and generated ids.

The averaging rule is the one of `calculateAverage` (src/lib/hooks/useEvaluationStatus.ts:11-15):
- it averages every answer of the record, the duration answer `minutos_sesion_post` included;
- it returns 0 for an empty list.

`EvaluationStatus.MinutesEnterPostAverage` shows a post
record of 45 minutes and a pain score of 3 giving a post average of 24.0.

The patient list page calls `getPacientesConBusqueda` with six arguments
(src/app/pacientes/page.tsx:38), so the category id lands in `page` and the current page
in `pageSize`. The model follows the function as declared (src/lib/actions.ts:81-87).

## Model

| member | source | states |
|---|---|---|
| EvaluationStatus.CalculateAverage | src/lib/hooks/useEvaluationStatus.ts:11-15 | the average of the answers has at most one decimal |
| EvaluationStatus.AverageBounds | src/lib/hooks/useEvaluationStatus.ts:11-15 | when every answer lies between two whole numbers, so does the average |
| EvaluationStatus.AverageOfEqualAnswers | src/lib/hooks/useEvaluationStatus.ts:11-15 | answers that all have one whole value average to that value |
| EvaluationStatus.SumBounds | src/lib/hooks/useEvaluationStatus.ts:13 | the sum of n answers in [lo, hi] lies in [n*lo, n*hi] |
| EvaluationStatus.RoundMonotone | src/lib/hooks/useEvaluationStatus.ts:14 | Math.round never decreases as its argument grows |
| EvaluationStatus.RoundOneDecimalWhole | src/lib/hooks/useEvaluationStatus.ts:14 | rounding to one decimal leaves a whole number unchanged |
| EvaluationStatus.Contribution | src/lib/hooks/useEvaluationStatus.ts:69-80 | a record adds answers exactly when its text is present and non-empty, starts with `[` or `{`, parses, and holds at least one answer |
| EvaluationStatus.CompletedIff | src/lib/hooks/useEvaluationStatus.ts:59-98 | preCompleted (postCompleted) holds iff some contributing record has an answer whose id contains `_pre` (`_post`), and then the average is set |
| EvaluationStatus.LastQualifyingAverage | src/lib/hooks/useEvaluationStatus.ts:83-94 | the average of a tag comes from the last qualifying record; earlier ones are overwritten |
| EvaluationStatus.MergedRecordSameAverage | src/lib/hooks/useEvaluationStatus.ts:83-94 | a merged record holding both tags gives the same pre and post average |
| EvaluationStatus.NonContributingIgnored | src/lib/hooks/useEvaluationStatus.ts:69-80 | a record that contributes nothing leaves the status unchanged |
| EvaluationStatus.Overall | src/lib/hooks/useEvaluationStatus.ts:101-107 | the overall average exists iff one side does, and equals the single side when only one exists |
| EvaluationStatus.OverallBetween | src/lib/hooks/useEvaluationStatus.ts:101-102 | the rounded mean of two one-decimal averages lies between them |
| EvaluationStatus.ResolveStatus | src/lib/hooks/useEvaluationStatus.ts:45-53 | the resolved status is not loading; canDoPost is pre and not post; with no session nothing is completed |
| EvaluationStatus.CheckEvaluationStatus | src/lib/hooks/useEvaluationStatus.ts:38-122 | a rejected query keeps the previous status and only ends the loading; otherwise the loop over the records ends in the resolved status; loading has ended either way |
| EvaluationStatus.MinutesEnterPostAverage | src/lib/hooks/useEvaluationStatus.ts:91-94 | 45 minutes and a pain score of 3 give a post average of 24.0 |
| EvaluationForm.DefaultValue | src/components/patient-evaluation-form.tsx:123-126 | an unanswered question shows 0 exactly for the minutes question, 5 otherwise |
| EvaluationForm.FindIndex | src/components/patient-evaluation-form.tsx:131 | the result is the first index holding the id, or -1 when no entry does |
| EvaluationForm.FindIndexAt | src/components/patient-evaluation-form.tsx:131 | an entry with the id and none before it is the one found |
| EvaluationForm.UpsertLookup | src/components/patient-evaluation-form.tsx:129-140 | after an update the id holds the new value and every other id keeps its value |
| EvaluationForm.UpsertShape | src/components/patient-evaluation-form.tsx:132-138 | an update keeps ids unique, grows the list only for a new id, and leaves other entries in place |
| EvaluationForm.CompleteAnswers | src/components/patient-evaluation-form.tsx:193-199 | one answer per question in question order, with the stored value or the default |
| EvaluationForm.CompleteAnswersIdempotent | src/components/patient-evaluation-form.tsx:193-199 | completing a completed list changes nothing |
| EvaluationForm.CategoryOf | src/components/patient-evaluation-form.tsx:166-181 | the category is the first in the if-chain whose key the id contains; none when no key matches |
| EvaluationForm.WithField | src/components/patient-evaluation-form.tsx:155-181 | setting one category leaves the other six unchanged |
| EvaluationForm.CalcularPromedios | src/components/patient-evaluation-form.tsx:154-184 | the loop computes the summary of the answers in order |
| EvaluationForm.FieldIsLastMatching | src/components/patient-evaluation-form.tsx:165-181 | each category holds the value of its last answer |
| EvaluationForm.FieldZeroWhenUnmatched | src/components/patient-evaluation-form.tsx:155-163 | a category with no answer keeps 0 |
| EvaluationForm.UnmatchedIgnored | src/components/patient-evaluation-form.tsx:165-181 | an answer matching no key changes nothing |
| EvaluationForm.PreIdsTagged | src/components/patient-evaluation-form.tsx:29-50 | every pre question id contains `_pre` and not `_post` |
| EvaluationForm.PostIdsTagged | src/components/patient-evaluation-form.tsx:52-68 | every post question id contains `_post` and not `_pre` |
| EvaluationForm.SubmittedAnswersTagged | src/components/patient-evaluation-form.tsx:193-205 | a submitted answer list carries its own type's tag and never the other |
| EvaluationForm.SubmittedRecordClassified | src/components/patient-evaluation-form.tsx:205 | a stored submission counts as an evaluation of its own type only |
| EvaluationForm.ExistingCheck | src/components/patient-evaluation-form.tsx:98-108 | a warning implies some record carries the form's tag |
| EvaluationForm.ExistingCheckIff | src/components/patient-evaluation-form.tsx:98-108 | when every record parses, loading succeeds and the warning fires iff some record carries the tag |
| EvaluationForm.EvaluationWizard.constructor | src/components/patient-evaluation-form.tsx:70-78 | the wizard starts at step 0 with no answers and the type's questions |
| EvaluationForm.EvaluationWizard.GetCurrentResponse | src/components/patient-evaluation-form.tsx:121-127 | the stored answer of the current question, or 0 for minutes and 5 otherwise |
| EvaluationForm.EvaluationWizard.UpdateResponse | src/components/patient-evaluation-form.tsx:129-140 | the answers become the upsert of the current question, and the current answer reads back as the value |
| EvaluationForm.EvaluationWizard.GoToNext | src/components/patient-evaluation-form.tsx:142-146 | the step advances unless it is the last one; answers are unchanged |
| EvaluationForm.EvaluationWizard.GoToPrevious | src/components/patient-evaluation-form.tsx:148-152 | the step goes back unless it is the first; answers are unchanged |
| EvaluationForm.EvaluationWizard.HandleSubmit | src/components/patient-evaluation-form.tsx:186-213 | nothing without a session; otherwise the complete answers, their summary, the type's tag and the day of the clock as yyyy-MM-dd |
| EvaluationButton.AverageColor | src/components/evaluation-button.tsx:16-21 | the band is green for 8 and up, yellow for [6, 8), orange for [4, 6), red below 4 |
| EvaluationButton.ColorMonotone | src/components/evaluation-button.tsx:16-21 | a higher average never gets a worse band |
| EvaluationButton.Render | src/components/evaluation-button.tsx:42-113 | loading first, then no session, then the `?tipo=pre` link until pre is done, then the `?tipo=post` link while allowed, then completed |
| EvaluationButton.LoadingFirst | src/components/evaluation-button.tsx:42-49 | the loading status shows the spinner |
| EvaluationButton.FallbackUnreachable | src/components/evaluation-button.tsx:104-112 | the fallback link never shows for a status the hook builds |
| EvaluationButton.OfferedAction | src/components/evaluation-button.tsx:67-113 | for a latest session, pre is offered iff no record has pre answers, post iff pre exists and post does not, completed iff both exist |
| Actions.Distinct | src/lib/actions.ts:24 | the values without duplicates, with the same members |
| Actions.NonNull | src/lib/actions.ts:24 | the non-null values, keeping distinctness |
| Actions.PacienteIds | src/lib/actions.ts:24 | the ids are distinct and are exactly the non-null patient ids of the sessions |
| Actions.FilterByQuery | src/lib/actions.ts:121-124 | a patient is kept iff either name, lower-cased, contains the query |
| Actions.FilterByQueryConcat | src/lib/actions.ts:121-124 | the filter keeps the input order |
| Actions.SearchFilter | src/lib/actions.ts:119-125 | a blank or missing query keeps every patient; otherwise the patients matching the trimmed, lower-cased query |
| Actions.LowerKeepsBlank | src/lib/actions.ts:119-120 | lower-casing does not change whether a query is blank |
| Actions.SearchCaseInsensitive | src/lib/actions.ts:119-125 | queries equal up to case (Basic Latin and Latin-1 letters) select the same patients |
| Actions.LoweredQuerySameResult | src/lib/actions.ts:119-125 | a query typed in any case selects what its small-letter form selects |
| Actions.AccentedNameMatches | src/lib/actions.ts:121-122 | the patient `ÁNGEL` is found by the query `ángel` |
| Actions.CeilDiv | src/lib/actions.ts:129 | the page count is the least number of pages that holds every patient |
| Actions.JsSlice | src/lib/actions.ts:132 | the slice is the clipped range of the list |
| Actions.PagesUpToPrefix | src/lib/actions.ts:130-132 | the first n pages are the first n*pageSize patients |
| Actions.PageNonEmpty | src/lib/actions.ts:129-132 | every existing page holds between one and pageSize patients |
| Actions.PagesPartition | src/lib/actions.ts:127-132 | the pages 1..totalPages together are the filtered list, in order |
| Actions.ShownRangeMatchesPage | src/app/pacientes/page.tsx:100 | the "Mostrando X - Y" numbers span exactly the patients of the page |
| Actions.PacientesConBusqueda | src/lib/actions.ts:119-132 | the patients are the requested page of the filtered list, total is the filtered count and totalPages its ceiling division, with at most pageSize patients; a failed query gives an empty result |
| Actions.DmyRoundTrip | src/lib/actions.ts:334 | a formatted date read back by split and Number is the same date |
| Actions.InRange | src/lib/actions.ts:332-347 | a session is kept iff its date is within both bounds |
| Actions.InRangeConcat | src/lib/actions.ts:332-347 | the filter distributes over concatenation, so the kept sessions stay in the input order |
| Actions.Bucket | src/lib/actions.ts:352-359 | a day's bucket holds exactly the sessions of that day |
| Actions.GroupByFecha | src/lib/actions.ts:352-359 | the keys are the distinct dates in first-occurrence order and each bucket holds that day's sessions |
| Actions.TotalIsSumOfBuckets | src/lib/actions.ts:361-366 | the bucket sizes add up to the number of sessions |
| Actions.DaysAreDistinctDates | src/lib/actions.ts:365 | the number of days is the number of distinct session dates |
| Actions.UnreadableDateThrows | src/lib/actions.ts:332-344 | a session dated `aa-02-2024` makes the filter callback throw, whatever the bounds |
| Actions.SesionesPorRangoFechas | src/lib/actions.ts:309-377 | a failed query, or an invalid session or bound date met by the filter, gives the empty failure of the catch; otherwise success with the grouped sessions in range, their count and their day count |
| Actions.NuevaSesion | src/lib/actions.ts:245-262 | a new session carries the patient and sentiment; its date is today written as `DD-MM-YYYY` (`FormatDmy`) and reads back as today |
| Actions.CreatedSessionInRange | src/lib/actions.ts:250 | a session created today is in a range iff today is |
| ExportSesiones.SessionRows | src/app/api/export-sesiones/route.ts:57-63 | one row per session, in order |
| ExportSesiones.PushDay | src/app/api/export-sesiones/route.ts:48-71 | the rows pushed for one day are its block |
| ExportSesiones.BuildMainSheet | src/app/api/export-sesiones/route.ts:32-72 | the sheet is the six preamble rows and the blocks of the days |
| ExportSesiones.DayBlockSize | src/app/api/export-sesiones/route.ts:52-70 | a day block has four rows around at least one session row, and starts with the day title and the headers |
| ExportSesiones.AbsentDayBlock | src/app/api/export-sesiones/route.ts:50-66 | a day without sessions shows the placeholder row |
| ExportSesiones.DayBlocksOrder | src/app/api/export-sesiones/route.ts:48-71 | the blocks follow the order of the days |
| ExportSesiones.MainSheetShape | src/app/api/export-sesiones/route.ts:32-72 | after the preamble and the earlier blocks comes the block of each day |
| ExportSesiones.CountSentiment | src/app/api/export-sesiones/route.ts:91-93 | a sentiment count never exceeds the sessions of the day |
| ExportSesiones.ResumenRows | src/app/api/export-sesiones/route.ts:88-102 | one summary line per day, in order |
| ExportSesiones.BuildResumenSheet | src/app/api/export-sesiones/route.ts:76-102 | the summary sheet is its seven preamble rows and the day lines |
| ExportSesiones.ResumenShape | src/app/api/export-sesiones/route.ts:76-102 | the summary has 7 + days rows; row 7 + i is day i's line |
| ExportSesiones.SentimentCountsAddUp | src/app/api/export-sesiones/route.ts:91-100 | when every sentiment is one of the three, green, yellow and red add up to the day's count |
| ExportSesiones.AbsentDaySummary | src/app/api/export-sesiones/route.ts:90-100 | a day without sessions has a line of zeros |
| ExportSesiones.Export | src/app/api/export-sesiones/route.ts:6-111 | a missing or empty date gives 400; a failed query gives 500; otherwise both sheets and the file name |
| Pagination.Range | src/components/pagination-controls.tsx:45-47 | the links lo..hi in order |
| Pagination.PageNumbers | src/components/pagination-controls.tsx:39-77 | the loops build the bar of the four cases |
| Pagination.WindowOrderedAndBounded | src/components/pagination-controls.tsx:39-77 | the numbers increase, lie within 1..t, the bar has at most seven entries, and runs from 1 to t |
| Pagination.WindowEllipses | src/components/pagination-controls.tsx:43-73 | at most five pages give the plain list; otherwise there is an ellipsis and each one skips at least one page |
| Pagination.WindowShowsCurrent | src/components/pagination-controls.tsx:43-73 | the current page is always among the links |
| Pagination.CreatePageURL | src/components/pagination-controls.tsx:25-29 | the target is /pacientes with page set and the other parameters kept |
| Pagination.HandlePageChange | src/components/pagination-controls.tsx:32-36 | navigation happens iff the page exists |
| Pagination.PageParamRoundTrip | src/app/pacientes/page.tsx:35 | the page written into the URL reads back as the same page |
| Pagination.Controls | src/components/pagination-controls.tsx:79-81 | there is no bar iff there is at most one page |
| UrlParams.SearchParams.constructor | src/components/category-filter.tsx:42 | the copy holds the current query |
| UrlParams.SearchParams.Get | src/components/category-filter.tsx:22 | the value of a present key, nothing for an absent one |
| UrlParams.SearchParams.Set | src/components/category-filter.tsx:47 | the key takes the value and every other key is unchanged |
| UrlParams.SearchParams.Delete | src/components/category-filter.tsx:45 | the key is gone and every other key is unchanged |
| UrlParams.GetOr | src/components/search-bar.tsx:11 | a missing or empty value gives the fallback |
| CategoryFilter.SelectedValue | src/components/category-filter.tsx:68 | the selector shows the parameter, or `todas` when it is missing or empty |
| CategoryFilter.HandleCategoryChange | src/components/category-filter.tsx:41-54 | `todas` removes the parameter, anything else sets it; the page goes; the rest is kept; the selector then shows the choice |
| SearchBar.InitialQuery | src/components/search-bar.tsx:11 | the box starts with the parameter, or empty |
| SearchBar.UpdateSearchParams | src/components/search-bar.tsx:14-22 | a non-blank query is stored untrimmed, a blank one removed, the rest kept, and the box reads it back |
| DateFilter.DateFilter.constructor | src/components/date-filter.tsx:14-24 | each picker starts from its parameter when present and non-empty |
| DateFilter.DateFilter.SetStartDate | src/components/date-filter.tsx:55 | only the start date changes |
| DateFilter.DateFilter.SetEndDate | src/components/date-filter.tsx:62 | only the end date changes |
| DateFilter.DateFilter.PickersKeepOrder | src/components/date-filter.tsx:53-66 | any day a picker accepts keeps start on or before end |
| DateFilter.DateFilter.ApplyFilter | src/components/date-filter.tsx:27-36 | navigation iff both dates are set, which is iff the apply button is enabled outside a navigation; to / with both dates as yyyy-MM-dd and the rest kept |
| DateFilter.DateFilter.ClearEnabledIff | src/components/date-filter.tsx:79 | outside a navigation the clear button is enabled iff some date parameter holds a non-empty value |
| DateFilter.DateFilter.ClearFilter | src/components/date-filter.tsx:39-47 | both pickers are emptied, both parameters removed, the rest kept |
| EditSesion.ParseFecha | src/components/edit-sesion-form.tsx:198-210 | no date unless there are exactly three parts; a date has nonzero fields, a year in (1900, 2100), and fields equal to the parsed parts |
| EditSesion.FormatParts | src/components/edit-sesion-form.tsx:198-210 | `parseFecha` reads a formatted date as exactly its fields when day and month are non-zero and the year is in (1900, 2100), and refuses it otherwise |
| EditSesion.FormatParseRoundTrip | src/components/edit-sesion-form.tsx:198-210 | a picked date with year in (1900, 2100) reads back as itself |
| EditSesion.OutOfRangeYearRefused | src/components/edit-sesion-form.tsx:205 | a well-formed date with a year outside (1900, 2100) is refused |
| EditSesion.InitialFields | src/components/edit-sesion-form.tsx:194-212 | the form starts with the stored text and a date, if any, in range |
| EditSesion.InitialFieldsOfPickedDate | src/components/edit-sesion-form.tsx:212 | a session stored by the picker opens with that date |
| EditSesion.HandleDateChange | src/components/edit-sesion-form.tsx:45-51 | the picker takes the date; a date sets the text to that date as `DD-MM-YYYY` (`FormatDmy`), and a date in range reads back from it; no date leaves the text |
| EditSesion.HandleSubmit | src/components/edit-sesion-form.tsx:214-225 | no update without a patient id; otherwise the update carries the form's fields |
| EditSesion.UnchangedDateResubmitted | src/components/edit-sesion-form.tsx:194-221 | without a date change the stored text is sent back |
| Estadisticas.FechaParam | src/app/estadisticas/page.tsx:55-62 | a parameter iff a day is selected; it is that day as `DD-MM-YYYY` (`FormatDmy`) and reads back as that day |
| Estadisticas.PeakIndex | src/app/estadisticas/page.tsx:159 | the kept bar has the largest count, and every earlier bar has a smaller one |
| Estadisticas.HorarioPico | src/app/estadisticas/page.tsx:158-161 | `--` without data; otherwise the hour of the first largest bar |
| Estadisticas.PeakIgnoresLaterTies | src/app/estadisticas/page.tsx:159 | a later bar that does not beat the peak does not replace it |
| Estadisticas.NombresDistintos | src/app/estadisticas/page.tsx:99-108 | the five filters have five different names |
| Estadisticas.Load | src/app/estadisticas/page.tsx:65-72 | only a successful answer replaces data and total; loading ends either way |
| Estadisticas.LastSuccessShown | src/app/estadisticas/page.tsx:64-72 | after a run of loads the panel shows the last successful answer, or the old data when none succeeded |
| Estadisticas.CargarDatosPorHora | src/app/estadisticas/page.tsx:52-74 | the hourly query for the day's parameter, applied only on success |
| Estadisticas.CargarDatosPorDia | src/app/estadisticas/page.tsx:81-94 | the period query for the filter, applied only on success |
| Sidebar.AdminActiveIff | src/components/app-sidebar.tsx:46-49 | Administración is active iff the path is `/`, `/administracion` or under `/administracion/` |
| Sidebar.OthersActiveIff | src/components/app-sidebar.tsx:50 | another item is active iff the path equals its url |
| Sidebar.AtMostOneActive | src/components/app-sidebar.tsx:23-51 | no path activates two items |
| Sidebar.NearMisses | src/components/app-sidebar.tsx:45-51 | `/administracionX` does not activate Administración, `/pacientes/123` does not activate Pacientes |
| Calendar.OnOrBeforeTotalOrder | src/lib/actions.ts:343 | the date comparison is a total order |
| Calendar.Pad2Exactly | src/lib/actions.ts:250 | a day or month below 100 is written with exactly two characters, a leading `0` before a single digit |
| Calendar.FormatDmyShape | src/lib/actions.ts:250 | a formatted valid date is two day characters, `-`, two month characters, `-`, then the year |
| Calendar.FormatDmySplit | src/lib/actions.ts:250 | a formatted date splits on `-` into its three texts |

## Left out

- JSON parsing is a parameter. Its result stands for what `JSON.parse` returns, and `None` stands for a throw.
- The database and its ORM are not modelled. Query results are inputs. This covers:
  - the text comparisons in SQL (`gte`/`lte` on `created_at` and `fecha`);
  - the 12-month cut-off that uses the clock;
  - the per-patient session counts;
  - inserts, updates and deletes.
- The date-range filtering of `getPacientes` is left out except for its id list (`Actions.PacienteIds`), for the same reason.
- `new Date(y, m - 1, d)` rolls an out-of-range day or month over into the next month. The model keeps the raw fields. `Number` accepts only surrounding whitespace and decimal digits here: "+5", "1e3" and "0x10" are not modelled.
- Actions.EnRango, Actions.InRange and Actions.SesionesPorRangoFechas do not model two details of `new Date(y, m - 1, d)`: it reads the years 0-99 as 1900-1999, and it gives an invalid date beyond 8.64e15 ms from 1970. The model compares the raw year and never finds such a date invalid.
- Text.Lower, Actions.FilterByQuery, Actions.SearchFilter and Actions.SearchCaseInsensitive: lower-casing covers Basic Latin and Latin-1 capitals only. Letters of other blocks (such as Ł, Greek or Cyrillic) are left as they are, and `İ`, which `toLowerCase` turns into two characters, is not modelled.
- Text.Upper: upper-casing covers the Latin-1 small letters, `ÿ` and `µ`. `ß`, which `toUpperCase` turns into `SS`, and letters of other blocks are left as they are.
- EvaluationStatus.CalculateAverage and EvaluationStatus.Overall compute on exact rationals, while JavaScript uses doubles. A sum that is exactly halfway between two tenths with rationals can fall just below halfway with doubles, and then rounds one tenth lower. For example, a pre average of 0.8 and a post average of 32.3 give an overall 16.5 in JavaScript and 16.6 here.
- EvaluationForm.EvaluationWizard.HandleSubmit: the date is `toISOString()` up to the `T`. The model takes the clock's UTC day as input and writes it as yyyy-MM-dd, which differs from `toISOString` for years above 9999.
- Time zones, the clock, `crypto.randomUUID` and `toLocaleTimeString` are inputs.
- date-fns `format` and `eachDayOfInterval` are inputs, except for the two fixed formats written in `Calendar`.
- React state, effects, transitions, debounce, toasts and routing are not modelled. Navigation is returned as a target URL.
- `URLSearchParams` is a map: duplicate keys and parameter order are lost.
- Writing the XLSX workbook is not modelled. The two sheets are returned as rows of cells, and the generic 500 of the outer `catch` is not modelled.
- The question wording, labels and colours of the forms are not modelled. Only question ids are.
- EvaluationForm.EvaluationWizard.UpdateResponse: the source mutates the shared entry object in place before copying the list (an aliasing effect). The model replaces the entry in a new list.
- Actions.PacientesConBusqueda: requires pageSize > 0. With pageSize 0 the source returns no patients and a totalPages of `Infinity` or `NaN`, which is not a natural number. The patient list page passes its current page as pageSize, and that page can be 0 or `NaN`.
- The hourly and period statistics queries (`getEstadisticasPacientesPorHora`/`PorDia`) are parameters of the statistics page: their aggregation is not part of this model.
- Authentication, the layout and the header are not part of this model.
