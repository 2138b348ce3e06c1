# Maint_Control in Dafny

A model of the core of Maint_Control, a small maintenance tracker for
industrial machines, with proofs about it. The core has three parts:

- **The PHP backend** (`backend/api.php`). It keeps five tables: machines,
  maintenance schedules, maintenance events, the steps of an event, and a
  per-machine history. A dispatcher sends each request to one handler by HTTP
  method and `action`, and each handler reads or changes the tables.
- **The machine list page** (`src/assets/scripts/script.js`). It filters,
  searches, sorts and paginates the machines. It also escapes user text,
  shows maintenance alerts and dates, normalises the loaded data, and counts
  statuses and maintenance events for its metric cards.
- **The administrator dashboard** (`src/assets/scripts/dashboard.js`). It
  searches the machines, lists upcoming and scheduled maintenance, shows a
  grid of open maintenance, counts statuses for its chart, and reads the
  backend's history timestamps back.

The model takes the source's own form:

- **Backend handlers** are the methods of the class `ApiStore.Store`. Its
  fields are the five tables and the two AUTO_INCREMENT counters. Each
  method states the whole new state through functions of `ApiTables`, one
  per SQL statement.
- **The GET response** is built by pure functions in `ApiRead`.
- **The page state** of each script is a class: `ListPage.ListView` for the
  script's `state` object, and `Dashboard.DashboardState` for the
  dashboard's global `machines`.
- **The script loops** that update counters are methods with loop
  invariants: `updateMetrics`, the status table counts, and the status chart
  counts.
- **Everything else** is functions and lemmas.

Files:

- `text.dfy` (`Text`): string helpers.
  - ASCII lower case, substring test, lexicographic order, trim.
  - JavaScript `split`.
  - Decimal padding and `parseInt`.
- `sorting.dfy` (`Sorting`): a stable insertion sort with a comparator, and
  filter and count.
- `stamps.dfy` (`Stamps`): timestamps, their ordering key, and the
  `d/m/Y H:i:s` format.
- `api_tables.dfy` (`ApiTables`):
  - request values as PHP sees them after `json_decode`;
  - the table rows;
  - the effect of each SQL statement.
- `api_read.dfy` (`ApiRead`): the assembly of `handleGetMachines`.
- `api_routes.dfy` (`ApiRoutes`): the dispatcher and the status codes.
- `store.dfy` (`ApiStore`): the class `Store` with one method per handler,
  and `Handle`.
- `client.dfy` (`Client`): the machine objects the scripts receive, as
  JavaScript values.
- `list_page.dfy` (`ListPage`): the list page.
- `dashboard.dfy` (`Dashboard`): the dashboard.

Values from outside the program are parameters:

- the current time (`now`, `stamp`, `today`);
- the JSON decoder (`decode`);
- PHP's `(float)` cast (`toFloat`);
- the browser's locale date formatting (`locale`);
- whether a network request succeeded (the `Option` responses).

## Model

| member | source | states |
|---|---|---|
| ApiRoutes.RouteOf | backend/api.php:8-69 | OPTIONS is answered first. GET always lists, whatever the action. An unknown method gets its own outcome. Every handler is reached only with its own method and exactly its own action string. |
| ApiRoutes.RouteInvertsRequestLine | backend/api.php:24-63 | Each handler's (method, action) pair routes to that handler. |
| ApiRoutes.UnknownActionExactly | backend/api.php:30-63 | For POST, PUT and DELETE, the route is "unknown action" if and only if the action names none of that method's handlers. |
| ApiRoutes.HttpStatus | backend/api.php:65-81 | 405 exactly for an unknown method. 500 exactly for a database error (the duplicate tag). 200 exactly for success. 400 for every other error. |
| ApiTables.IdMatchesUnique | backend/api.php:317-318 | A `maint_id` reference in the `WHERE id = ...` clause matches at most one event id. |
| ApiTables.FindMachine | backend/api.php:194-199 | `SELECT id FROM maquinas WHERE tag = ?` finds nothing if and only if no row holds the tag's text (null never matches). The parameter is bound as text, so a number and its decimal text find the same row. A result is the id of a row with that tag. |
| ApiTables.FindMachineUnique | backend/api.php:194-196 | With sound keys, looking up a row's own tag returns that row's id. |
| ApiTables.NewMachineCols | backend/api.php:177-185 | The inserted columns. `horas_uso` defaults to 1 and `status` to 'OK' when the field is not set. |
| ApiTables.BatchMachineCols | backend/api.php:356-362 | The batch columns. `horas_uso` is `(int)` of the quantity, or 1. `status` is the given status, or 'OK'. |
| ApiTables.ColumnFor | backend/api.php:209-218 | The field-to-column mapping, as an if-and-only-if per column. It accepts the column names themselves and refuses every other field. |
| ApiTables.SetColumn | backend/api.php:247-253 | The UPDATE changes that column on exactly the rows with the tag. Every other column and every other row is unchanged, and ids and tags are kept. |
| ApiTables.SetColumnKeepsKeys | backend/api.php:247-253 | An update keeps ids and tags unique. |
| ApiTables.DeleteKeepsKeys | backend/api.php:258-263 | Deleting by tag keeps ids and tags unique. |
| ApiTables.ScheduleToInsert | backend/api.php:233-238 | A schedule is inserted if and only if the value is non-empty, is not 'null', and decodes to fields with a set date. The row then holds that date and the decoded description. |
| ApiTables.ReplaceScheduleEffect | backend/api.php:230-239 | After a `nextMaint` update the machine has exactly the new schedule, or none. Every other machine keeps its schedules. |
| ApiTables.ScheduleTwiceLeavesOne | backend/api.php:230-239 | Setting a schedule twice leaves exactly the second one. |
| ApiTables.ReplaceScheduleKeepsOnePerMachine | backend/api.php:230-239 | Replacing a schedule keeps at most one schedule per machine. |
| ApiTables.Upsert | backend/api.php:342-348 | `ON DUPLICATE KEY UPDATE` by tag. An existing tag keeps its id and gets the new columns. A new tag is appended under the next id. |
| ApiTables.UpsertKeepsKeys | backend/api.php:342-348 | An upsert keeps ids and tags unique. |
| ApiTables.UpsertAllStep | backend/api.php:352-364 | One more batch row is upserted when accepted and skipped otherwise. |
| ApiTables.UpsertAllEffect | backend/api.php:352-364 | After a batch, every accepted row's tag names a machine. Every earlier machine keeps its id and tag. At most one machine is added per accepted row. |
| ApiTables.UpsertAllKeepsKeys | backend/api.php:352-364 | A whole batch keeps ids and tags unique, and the id counter never goes back. |
| ApiTables.CloseEvents | backend/api.php:317-325 | The conditional UPDATE sets the end date and cost on exactly the open events with that id and machine, and leaves every other event unchanged. |
| ApiTables.CloseTwiceAffectsNone | backend/api.php:317-329 | After an end with a non-null end date, the same request affects no row, and closing again changes nothing. |
| ApiTables.AffectedAtMostOne | backend/api.php:317-318 | With unique event ids, an end affects at most one row. |
| ApiTables.NormalizeDecimal | backend/api.php:311 | `str_replace(',', '.', ...)` keeps the length and every other character, and leaves no comma. |
| ApiTables.NormalizeDecimalSeparators | backend/api.php:311 | Texts that differ only in using ',' or '.' as the separator convert to the same text. |
| ApiTables.EndCost | backend/api.php:311-314 | The stored cost is set exactly when `cost` is set and converts to a non-negative number. A negative cost is stored as null, not refused. |
| ApiTables.CommaCostEqualsDotCost | backend/api.php:311 | "150,99" and "150.99" store the same cost. |
| ApiRead.HistoryRowsOf | backend/api.php:96 | A machine's history rows, newest first: exactly its rows (as a multiset), ordered by time descending. |
| ApiRead.StepRowsOf | backend/api.php:103 | An event's step rows: exactly its rows, oldest first. |
| ApiRead.EventRowsOf | backend/api.php:100 | A machine's event rows: exactly its rows, ordered by start date descending. |
| ApiRead.StepEntries | backend/api.php:133-139 | Each step is sent as its `d/m/Y H:i:s` time and its description. |
| ApiRead.HistoryFor | backend/api.php:110-117 | With no rows, exactly one entry 'Carregado do banco de dados.' stamped now. Otherwise one entry per row, newest first. |
| ApiRead.NextMaintFor | backend/api.php:120-124 | `nextMaint` is null if and only if the machine has no schedule. Otherwise it is one of its schedule rows. |
| ApiRead.NextMaintIsTheSchedule | backend/api.php:120-124 | With one schedule per machine, `nextMaint` is that schedule. |
| ApiRead.EventsFor | backend/api.php:127-151 | One object per event of the machine, newest first, each with its own steps. |
| ApiRead.EventRowsCount | backend/api.php:127-151 | The number of events sent is the number of the machine's rows in the events table. |
| ApiRead.EventsForComeFromTable | backend/api.php:127-151 | Every event sent is a row of the events table for that machine, with that row's steps. |
| ApiRead.MachineViewOf | backend/api.php:154-164 | `id` is the tag and `manufacturer` is null. `capacity` is the description or 'N/A'. `quantity` is `(int)` of the hours or 1. The history is never empty. `nextMaint` is present if and only if the machine has a schedule. There is one event object per event row. |
| ApiRead.GetMachines | backend/api.php:89-168 | One object per machine row, in table order: the i-th object is `MachineViewOf` the i-th row, and its `id` is that row's tag text. |
| Stamps.StampKeyOrder | backend/api.php:96 | On valid timestamps the ordering key is the calendar order, and equal keys mean equal timestamps. `ORDER BY data_hora` is therefore an order by time. |
| Stamps.FormatDmyHis | backend/api.php:113 | `format('d/m/Y H:i:s')` is always 19 characters. |
| ApiStore.FieldsOf | backend/api.php:32 | `$input['data']` read as an object: a non-object has none of the keys. |
| ApiStore.BatchInput | backend/api.php:339 | A non-array is refused. An object's members are visited as rows that have no keys, so every one is skipped. |
| ApiStore.Store.constructor | backend/api.php:89-103 | Empty tables, with both counters at 1. |
| ApiStore.Store.AddMachine | backend/api.php:172-187 | An empty id or name is refused. A tag already stored is a database error, whether it arrives as a number or as its text. Otherwise exactly one row is appended with the defaults, and nothing else changes. |
| ApiStore.NumericTagIsItsText | backend/api.php:179-199 | A machine added under the number n is the machine of the text of n: history sent under that text reaches it, and adding that text again is the duplicate-tag error. |
| ApiStore.Store.AddHistory | backend/api.php:189-203 | An empty tag or description is refused, and so is an unknown tag. Otherwise one entry stamped now is appended, and nothing else changes. |
| ApiStore.Store.UpdateField | backend/api.php:205-256 | An allowed field updates its column on the rows with the tag and succeeds even when none match. `nextMaint` refuses an unknown tag, else replaces the schedule. Any other field is refused and changes nothing. |
| ApiStore.Store.DeleteMachine | backend/api.php:258-263 | The rows with the tag are removed, nothing else changes, and the call always succeeds. |
| ApiStore.Store.StartMaintenance | backend/api.php:269-295 | An empty tag or type, or an unknown machine, is refused. Otherwise one open event with no cost is appended, and its fresh id is returned. That id differs from every existing event id. An already open event does not prevent this. |
| ApiStore.Store.EndMaintenance | backend/api.php:297-332 | Missing fields or an unknown machine are refused. No matching open event is an error that changes nothing. Otherwise exactly one event is closed with the converted cost. After a success the same request would fail. |
| ApiStore.Store.BatchAddMachines | backend/api.php:337-372 | A non-array or empty input is refused. Otherwise the rows are upserted in order and the accepted rows are counted. No other table changes. |
| ApiStore.Store.AddMaintStep | backend/api.php:377-401 | An empty maint_id or description is refused. Otherwise one step stamped now is appended and returned, formatted as the server formats it. |
| ApiStore.Store.ListMachines | backend/api.php:89-168 | The GET list: one object per machine row, each as `MachineViewOf` builds it. |
| ApiStore.Store.Handle | backend/api.php:8-81 | The new state and the response equal `Dispatch` on the old state: the route of (method, action) picks the handler, and that handler's effect function gives the result. Each handler method is proved equal to its own effect function. The status code is `HttpStatus` of the outcome. OPTIONS, GET, an unknown action and an unknown method change nothing. A 500 only comes from adding a machine and changes nothing. |
| Client.TextOrEmpty | src/assets/scripts/script.js:275 | `(v \|\| '').toString()`: empty for a falsy value, and the string itself for a string. |
| Client.StatusesDistinct | src/assets/scripts/script.js:5 | The six statuses are distinct. |
| Client.NumberOf | src/assets/scripts/script.js:207 | `Number(v)`: a number is itself, null is 0, undefined is NaN. |
| ListPage.EscapeChar | src/assets/scripts/script.js:45 | A character other than the five special ones stays as it is. The replacement is never empty and holds none of < > " '. |
| ListPage.EscapeText | src/assets/scripts/script.js:44-47 | The output has none of < > " '. Text without the five special characters is unchanged. |
| ListPage.EscapeHtml | src/assets/scripts/script.js:42-48 | '' for null or undefined. Otherwise `String(v)` escaped. |
| ListPage.UnescapeEscape | src/assets/scripts/script.js:42-48 | Escaping loses nothing: reading the entities back gives the original text. |
| ListPage.ComparatorIsTotalOrder | src/assets/scripts/script.js:277-288 | The page's comparator orders any two machines and is transitive, for every column and direction. |
| ListPage.ProcessedItems | src/assets/scripts/script.js:269-289 | The rows pass both the status filter and the search, and are sorted by the comparator. |
| ListPage.ProcessedItemsArePassingMachines | src/assets/scripts/script.js:270-276 | The rows are a permutation of the machines that pass both tests. |
| ListPage.UnfilteredKeepsAll | src/assets/scripts/script.js:271-274 | With filter 'all' and a blank trimmed query, the rows are all the machines. |
| ListPage.CeilDiv | src/assets/scripts/script.js:414 | `Math.ceil(total / size)` is the fewest pages that hold every row. |
| ListPage.ClampPage | src/assets/scripts/script.js:416-417 | The page is at least 1, and at most the page count when that is positive. A page already in range is kept. |
| ListPage.PageSlice | src/assets/scripts/script.js:419-420 | At most `size` rows, which are the rows from `(page - 1) * size` on. |
| ListPage.ShowingRange | src/assets/scripts/script.js:403-408 | The first row shown is 0 for no rows, else start + 1. The last is `min(start + pagedLength, total)`. |
| ListPage.RenderedRangeIsThePage | src/assets/scripts/script.js:411-424 | After the clamp, a non-empty list always shows a non-empty page. The shown range counts exactly the rows on it. |
| ListPage.AlertStatus | src/assets/scripts/script.js:246-255 | No alert without a scheduled date. Otherwise 'danger' if and only if the date sorts before today, 'warning' if and only if it is today, and none if and only if it is later. |
| ListPage.FormatDate | src/assets/scripts/script.js:1076-1080 | 'N/A' for an empty value, and DD/MM/YYYY for a YYYY-MM-DD date. |
| ListPage.DisplayedIsoDateRoundTrip | src/assets/scripts/script.js:1078-1080 | The DD/MM/YYYY display splits back into the ISO date it came from. |
| ListPage.ToggleSort | src/assets/scripts/script.js:810-815 | The same column flips the direction. Another column becomes the sort column, ascending. |
| ListPage.ToggleSortTwice | src/assets/scripts/script.js:812 | Two clicks on the sort column restore its direction. |
| ListPage.NormaliseMaint | src/assets/scripts/script.js:198-204 | The event defaults: steps [], the id the load time, technician 'N/A', and a falsy cost null. |
| ListPage.Normalise | src/assets/scripts/script.js:196-208 | A loaded machine is normalised, with `quantity` as `Number(quantity) \|\| 0`. Its own fields and its schedule are kept. |
| ListPage.NormaliseKeepsNormalised | src/assets/scripts/script.js:196-208 | A machine already normalised is left as it is. |
| ListPage.NormaliseIdempotent | src/assets/scripts/script.js:196-208 | Normalising twice is normalising once. |
| ListPage.Tally | src/assets/scripts/script.js:715 | `counts[key] = (counts[key] \|\| 0) + 1` keeps the existing keys in order, makes the key present, and adds exactly 1 to the total. |
| ListPage.TallyCounts | src/assets/scripts/script.js:715 | Tallying one machine more keeps every key's count equal to the number of machines with that status. |
| ListPage.TallyCovers | src/assets/scripts/script.js:715 | Every machine tallied has its status among the keys. |
| ListPage.StatusCounts | src/assets/scripts/script.js:709-715 | The six statuses come first, and the keys are distinct. Each key counts exactly the machines with that status, and the counts sum to the number of machines. |
| ListPage.UpdateMetrics | src/assets/scripts/script.js:351-388 | Each counter is the count its definition gives: the total, the quantity sum, the upcoming dates, the open and recently completed events, and the three status counts. |
| ListPage.ActiveAndCompletedAreDisjoint | src/assets/scripts/script.js:373-376 | An open event is never counted as completed, so the active and completed counts together never exceed the events. |
| ListPage.StatusClass | src/assets/scripts/script.js:1074 | Each of the six statuses maps to its class, and anything else maps to 'ok'. |
| ListPage.ListView.constructor | src/assets/scripts/script.js:20-29 | The initial state: no machines, empty search, filter 'all', sort by id ascending, page 1. |
| ListPage.ListView.Render | src/assets/scripts/script.js:411-427 | The page is clamped against the processed rows. The view is that page's slice, the page count and the range. The filters are unchanged. |
| ListPage.ListView.OnSortHeaderClick | src/assets/scripts/script.js:810-815 | The sort state is toggled, then rendered. |
| ListPage.ListView.OnSearchInput | src/assets/scripts/script.js:807 | The query is stored, the page resets to 1, and the first page is rendered. |
| ListPage.ListView.OnFilterChange | src/assets/scripts/script.js:808 | The filter is stored, the page resets to 1, and the first page is rendered. |
| ListPage.ListView.LoadState | src/assets/scripts/script.js:188-223 | A successful response replaces the machines with their normalised copies. A failure empties the list. The rest of the state is kept. |
| Dashboard.StatusClass | src/assets/scripts/dashboard.js:363-373 | The six statuses map to their classes, with the three holding statuses sharing 'status-maintenance'. Anything else maps to 'status-ok'. |
| Dashboard.MatchesSearch | src/assets/scripts/dashboard.js:380-382 | True if and only if the name, the id or a truthy capacity contains the term, checked in that order. It throws exactly when a non-string operand is reached: a non-string name, a non-string id after a name that does not match, or a truthy non-string capacity after name and id do not match. String name and id with a string or falsy capacity never throw. |
| Dashboard.FilterBy | src/assets/scripts/dashboard.js:379-385 | The filter throws if and only if some machine's test throws. Otherwise exactly the matching machines are kept: every kept machine is in the list and matches, and every matching machine is kept. |
| Dashboard.FilterByIsFilter | src/assets/scripts/dashboard.js:379-385 | When nothing throws, the list drawn is exactly the matching machines, in order. |
| Dashboard.EmptySearchKeepsAll | src/assets/scripts/dashboard.js:379-385 | An empty term and no status keep every machine whose name and id are strings. |
| Dashboard.ScheduleList | src/assets/scripts/dashboard.js:925-929 | Exactly the machines with a scheduled date (as a multiset), soonest first. |
| Dashboard.SortedByDueIsOrdered | src/assets/scripts/dashboard.js:927-929 | In the schedule list every earlier entry is due no later than every later one. |
| Dashboard.Upcoming | src/assets/scripts/dashboard.js:303-308 | At most five machines, each with a scheduled date. The result is a prefix of the schedule list: its first five machines, or all of them. |
| Dashboard.UpcomingAreSoonest | src/assets/scripts/dashboard.js:305-308 | No scheduled machine left out of the upcoming list is due before one that is shown. |
| Dashboard.FirstOpen | src/assets/scripts/dashboard.js:644 | `find(!end_date)` finds nothing if and only if no event is open. Otherwise it is the first open event. |
| Dashboard.MaintenanceGrid | src/assets/scripts/dashboard.js:632-644 | Exactly the machines with an open event, one card each, in list order. Each card holds that machine's first open event. |
| Dashboard.StatusChartCounts | src/assets/scripts/dashboard.js:1194-1211 | Six counts aligned with the six statuses, each counting exactly the machines with that status. Their sum is the number of machines with a known status, which is at most the number of machines. |
| Dashboard.ChartStep | src/assets/scripts/dashboard.js:1207-1211 | One machine more bumps the count of its status, or nothing when the status is unknown. |
| Dashboard.ChartCountsAllWhenAllKnown | src/assets/scripts/dashboard.js:1198-1211 | When every status is one of the six, the chart counts every machine. |
| Dashboard.DateOnlyIsMidnight | src/assets/scripts/dashboard.js:1080-1082 | A text without a time part is read as 0:0:0. |
| Dashboard.ParseOfDigitFields | src/assets/scripts/dashboard.js:1078-1090 | "D/M/Y H:M:S" made of digit runs splits into exactly those six fields. |
| Dashboard.DateArgsOfFields | src/assets/scripts/dashboard.js:1083-1090 | The `new Date` arguments are year, month - 1, day, hour, minute, second. |
| Dashboard.ParseHistoryDateReadsFields | src/assets/scripts/dashboard.js:1078-1090 | A "D/M/Y H:M:S" text of digit fields is read back field by field, with the month made 0-based. |
| Dashboard.FormatFieldsRead | backend/api.php:113 | The backend's text of a valid timestamp has digit fields that read back as that timestamp's fields. With the lemma above, `parseHistoryDate` recovers the timestamp. |
| Dashboard.DashboardState.constructor | src/assets/scripts/dashboard.js:10 | `machines` starts empty. |
| Dashboard.DashboardState.LoadMachines | src/assets/scripts/dashboard.js:273-285 | A successful response replaces the list (empty when it has none) and returns it. A failure keeps the list and returns []. |
| Dashboard.DashboardState.FilterMachines | src/assets/scripts/dashboard.js:375-392 | The table is drawn from `FilterBy` of the list, and afterwards the global list is exactly as before. |

## Left out

- **Not modelled:**
  - The PDO connection, the SQL text, and JSON encoding. `json_decode` is the `decode` parameter.
  - The database schema: column types and coercion of the columns other than the tag (a name or status sent as a number stays a number), foreign keys and cascades. Deleting a machine removes only its row, and a step's `maint_id` is not checked against the events.
  - Concurrency: requests are applied one at a time. Nothing is proved about "at most one open event per machine", because the server does not enforce it.
  - Rollback: no statement inside the batch loop can fail in the model, so the batch transaction always commits.
  - DOM rendering, modals, toasts, Chart.js, file import, `fetch` and its URL fallback, and the session and role checks. Files outside the core are not part of this model: login, theme, debug and admin reset.
- **Model assumptions:**
  - The tag column is a unique text key. `ON DUPLICATE KEY UPDATE` relies on it, so a second `add_machine` with an existing tag is the database error sent as 500. Every tag parameter is bound as its text, so the number 1001 and the text "1001" are the same tag.
  - A history or step timestamp is a `Stamp` value, and "now" is a parameter. `DateTime` is modelled only as the `d/m/Y H:i:s` format.
  - `ORDER BY` ties are broken by a stable insertion sort, which is one order the database may return. The same holds for `Array.prototype.sort` with equal keys.
  - JavaScript `toLowerCase` and `trim` are modelled on ASCII letters and the usual blanks only.
  - Text is compared by code point (`LexLess`), where JavaScript's `<` compares UTF-16 code units. The two orders differ only for characters outside the Basic Multilingual Plane.
  - Request and response values are null, text or integers only. Booleans, fractional numbers, arrays and objects are not modelled. For example, a fractional quantity typed in the list page (src/assets/scripts/script.js:771) is not modelled, and neither is a JSON `true` that would pass the loose `in_array` check (backend/api.php:218).
- **ApiTables.TagMatches / ApiTables.IdMatches:**
  - Tags are compared as exact text, where MySQL's default collation may also ignore letter case and trailing spaces.
  - An integer id matches only a number or its exact decimal text. MySQL compares a text parameter with an integer column numerically, so "05" or "5.0" would also name event 5 when a maintenance is ended.
- **ApiTables.EndCost:** the `(float)` cast is the `toFloat` parameter. Only the comma-to-dot and negative-to-null rules are modelled.
- **ApiTables.PhpInt:** `(int)` reads a leading integer and ignores fractions and exponents.
- **Client.NumberOf:** fractions, exponents, hexadecimal and `Infinity` are not modelled. A non-integer text is NaN, which becomes 0 after `|| 0`.
- **Dates compared as text:** `new Date(a) - new Date(b)` in the dashboard's sorts, and the date comparisons of `updateMetrics` and `getMaintAlertStatus`, compare `YYYY-MM-DD` text. For such dates this is the same order.
- **ListPage.UpdateMetrics:**
  - The 30-day window and today are passed in as text.
  - `qtyTotal` adds `QuantityOf`, which reads a non-number as 0; the script would concatenate a string. After `loadState` every quantity is a number.
- **ListPage.QuantityOf:** a NaN comparison in the sort is not modelled.
- **ListPage.FormatDate:**
  - Every value that is not a YYYY-MM-DD date goes to the `locale` parameter. This stands for `new Date(...).toLocaleString` and its error fallback.
  - In the script a truthy non-string makes `.match` throw. The model hands it to `locale` instead.
- **ListPage.NormaliseMaint:** the `Date.now()` id is the one `stamp` parameter for the whole load, where the script may read a different time per event.
- **ListPage.StatusClass / Dashboard.StatusClass:** a status named like an `Object.prototype` property ("constructor", "toString", "__proto__", "hasOwnProperty") makes the script's map lookup return the inherited member, which is truthy but not a class name. The model maps such a status to 'ok' or 'status-ok', like any other unknown status.
- **ListPage.StatusCounts:** a status named like an `Object.prototype` property (for example "constructor") is counted as a fresh key, as with an ordinary status. The script would start from the inherited value.
- **Dashboard.FilterMachines:**
  - The search term is passed in already lower-cased.
  - The drawing of the table is left out; what is modelled is the list it is drawn from.
- **Dashboard.ParseHistoryDate:**
  - The result is the six arguments to `new Date`, with NaN as `None`.
  - The `Date` object itself is not modelled: its month overflow and the mapping of years 0-99 to 1900 onwards.
  - The round trip from the backend's format is stated as two chained lemmas, `FormatFieldsRead` and `ParseHistoryDateReadsFields`, rather than one.
- **The dashboard's own `formatDate`** (src/assets/scripts/dashboard.js:1324) is not part of this model.
