# Job dashboard controller, modelled in Dafny

This project models the non-visual logic of the `Dashboard` component of the
job dashboard front end (`frontend/src/Dashboard.js`). The component lets a
user browse job postings stored in a Baserow table, filter them and sort them,
and point the back end at another table. The model covers these parts:

- **Query builder.** `loadJobs` turns the filter record and the sort choice
  into the `URLSearchParams` of `GET /jobs/search`. Each filter is appended
  only when it is truthy, in a fixed order. The two date bounds are sent as the
  `YYYY-MM-DD` part of their ISO timestamp. `sortBy` and `sortOrder` always come
  last (`query_params.dfy`, `iso_dates.dfy`).
- **Filter record.** `handleFilterChange`, `handleDateSelect` and
  `clearFilters` each build a new six-field record (`filters.dfy`).
- **Controller state.** `jobs`, `loading`, `error`, `filters`, `sortBy`,
  `sortOrder`, `settings` and `newSettings` are the fields of the class
  `Controller.Dashboard`. `loadSettings`, `saveSettings` and `loadJobs` are
  methods of that class. The effect that loads jobs only while
  `settings.tokenConfigured` holds is the method `RefreshJobs`. Each back-end
  call is a parameter of type `Response`: the payload, or the error message
  (`dashboard.dfy`).
- **Salary cell.** `extractSalary` (`salary.dfy`).

Query keys are the datatype `ParamKey`. `KeyName` gives the literal text the
code appends (`company`, `source_region`, `location`, `job_title`, `dateFrom`,
`dateTo`, `sortBy`, `sortOrder`). `KeyNamesDistinct` proves that two different
keys never render to the same text. `Render` gives the raw string pairs, and
`RenderInjective` proves that two buffers with the same text pairs hold the
same keys and values.

Dates are kept as their UTC calendar fields, in the subset type `Instant` (a
valid JavaScript `Date`). `IsoString` writes them as `toISOString` does. This
includes the signed six-digit form of the year outside 0 to 9999.

`Decode` reads a query back the way the server can. `QueryRoundTrip` proves
that it recovers every filter and the sort. So leaving out empty filters loses
nothing, and the only loss is the time of day of a date bound.
`SameQueryIffSameView` follows from this. It says that two filter states send
the same query exactly when they agree on the text filters, the days of the
date bounds and the sort.

### Points worth knowing about the code

- The query keys are snake_case (`source_region`, `job_title`). The sort
  values are `collected_at`, `salary_raw`, `job_title` and `company`.
- A date bound is serialised with `toISOString`, so it is the UTC day, not the
  local calendar day.
- Jobs are requested when `settings.tokenConfigured` holds. The code does not
  check whether the URL or the table id is empty.
- There is no request token and no stale-response check. Every completed
  `loadJobs` overwrites `jobs` or `error` and sets `loading` to false. The
  model adds no such guard.
- A failed `loadSettings` only logs. The settings keep their initial value,
  with `tokenConfigured` false.

## Model

| member | source | states |
|---|---|---|
| `IsoDates.BeforeFirst` | frontend/src/Dashboard.js:95-96 | `split('T')[0]` is a prefix of the text that holds no `T`; when it is shorter than the text, a `T` follows it |
| `IsoDates.DigitsRoundTrip` | frontend/src/Dashboard.js:95-96 | the zero-padded digits of a number that fits the width read back as that number |
| `IsoDates.IsoString` | frontend/src/Dashboard.js:95-96 | `toISOString()`: 24 characters, or 27 with a signed six-digit year outside 0 to 9999; date characters first, then `T` 14 characters from the end, and `Z` last |
| `IsoDates.DatePart` | frontend/src/Dashboard.js:95-96 | `toISOString().split('T')[0]`: the prefix of the timestamp up to its first `T`, holding no `T`, so everything but the 14-character time of day |
| `IsoDates.DatePartIsDateText` | frontend/src/Dashboard.js:95-96 | the date part of a date's ISO timestamp is exactly the `YYYY-MM-DD` text of its day, whatever the time of day; for years 0 to 9999 it is 10 characters |
| `IsoDates.DateTextRoundTrip` | frontend/src/Dashboard.js:95-96 | the date text of every valid day parses back as that day, so different days are sent as different text |
| `IsoDates.DatePartExample` | frontend/src/Dashboard.js:95-96 | any time on 5 March 2024 is sent as `2024-03-05` |
| `Filters.Truthy` | frontend/src/Dashboard.js:91-96 | the `if (filters.x)` test: a filter value is truthy exactly when it is neither the empty string nor `null` |
| `Filters.NoFilterIsInitial` | frontend/src/Dashboard.js:16-23 | the record `Filters.Initial` (four empty strings, two nulls) is the one and only record in which no filter is truthy |
| `Filters.HandleFilterChange` | frontend/src/Dashboard.js:110-115 | the changed field holds the new value and the other five fields keep their old values |
| `Filters.HandleDateSelect` | frontend/src/Dashboard.js:117-120 | the chosen date bound holds the picked date and the other five fields are unchanged |
| `Filters.ClearFilters` | frontend/src/Dashboard.js:122-131 | every field equals the initial record's field (four empty strings, two nulls), so no field is truthy |
| `Filters.ChangeToCurrentIsIdentity` | frontend/src/Dashboard.js:110-115 | writing a field's current value back gives the same record |
| `Filters.LastChangeWins` | frontend/src/Dashboard.js:110-115 | two edits of one field equal the last edit alone |
| `Filters.ChangesCommute` | frontend/src/Dashboard.js:110-115 | edits of two different fields give the same record in either order |
| `Filters.ClearIsIdempotent` | frontend/src/Dashboard.js:16-23 | clearing is the initial record, clearing twice equals clearing once, and clearing forgets any earlier edit |
| `QueryParams.FieldParam` | frontend/src/Dashboard.js:91-96 | one `if (filters.x) params.append(...)` line: adds at most one pair, adds one exactly when the filter is truthy, and that pair is the filter's key with its text or date part |
| `QueryParams.FieldParams` | frontend/src/Dashboard.js:91-96 | the `if` lines for a list of filters add at most one pair per filter |
| `QueryParams.FieldParamsKeys` | frontend/src/Dashboard.js:91-96 | every pair the `if` lines for a list of filters add is under the key of a filter in that list |
| `QueryParams.Query` | frontend/src/Dashboard.js:90-98 | the query of `loadJobs`: 2 to 8 pairs, the last two being `sortBy` and `sortOrder` with the chosen values |
| `QueryParams.BuildQuery` | frontend/src/Dashboard.js:90-98 | the buffer filled by the six conditional appends and the two sort appends equals the query function `Query` |
| `QueryParams.QueryOrder` | frontend/src/Dashboard.js:90-98 | the keys appear in the order company, source_region, location, job_title, dateFrom, dateTo, sortBy, sortOrder, each at most once, and the query ends with the two sort pairs |
| `QueryParams.QueryLookup` | frontend/src/Dashboard.js:91-96 | a filter key is present exactly when the filter is truthy (non-empty string or set date), and then carries the filter's text or date part |
| `QueryParams.QuerySortLookup` | frontend/src/Dashboard.js:97-98 | `sortBy` and `sortOrder` are always present with the chosen values |
| `QueryParams.DateParamIsDay` | frontend/src/Dashboard.js:95-96 | a set date bound is sent as the `YYYY-MM-DD` text of its day |
| `QueryParams.KeyNamesDistinct` | frontend/src/Dashboard.js:91-98 | the eight key names are pairwise different |
| `QueryParams.RenderInjective` | frontend/src/Dashboard.js:90-98 | two buffers that render to the same text pairs hold the same keys and values, so the text sent loses nothing |
| `QueryParams.QueryRoundTrip` | frontend/src/Dashboard.js:90-98 | decoding the built query gives back the text filters, the days of the date bounds and the sort |
| `QueryParams.SameQueryIffSameView` | frontend/src/Dashboard.js:90-98 | two filter-and-sort states give the same query if and only if they agree on the text filters, the days of the date bounds and the sort |
| `QueryParams.ClearedQueryHasOnlySort` | frontend/src/Dashboard.js:122-131 | after clearing, the query is exactly the `sortBy` pair followed by the `sortOrder` pair |
| `QueryParams.TitleOnlyExample` | frontend/src/Dashboard.js:90-98 | a title filter `engineer` with the default sort renders as `job_title=engineer`, `sortBy=collected_at`, `sortOrder=desc` and nothing else |
| `Salary.ExtractSalary` | frontend/src/Dashboard.js:138-141 | a null or empty salary is shown as `N/A`, any other salary as it is |
| `Salary.ShownSalaryIsStable` | frontend/src/Dashboard.js:138-141 | the salary cell is never blank, and showing a shown value again changes nothing |
| `Controller.JobsError` | frontend/src/Dashboard.js:103 | the error banner is the prefix `Erro ao carregar vagas: ` followed by exactly the error message |
| `Controller.Dashboard.constructor` | frontend/src/Dashboard.js:10-43 | starts with no jobs, not loading, no error, the initial filters, sort `collected_at`/`desc`, empty settings with `tokenConfigured` false and an empty form |
| `Controller.Dashboard.LoadSettings` | frontend/src/Dashboard.js:57-69 | on success the settings are the response and the form gets its URL and table id with an empty token; on failure nothing changes |
| `Controller.Dashboard.SaveSettings` | frontend/src/Dashboard.js:71-83 | posts the form; settings become the returned `config` on success and stay on failure; `loading` is false afterwards; nothing else changes |
| `Controller.Dashboard.LoadJobs` | frontend/src/Dashboard.js:85-108 | sends `Query` of the current filters and sort; on success the jobs are replaced by the response and the error cleared; on failure the jobs stay and the error is the prefixed message; `loading` is false afterwards |
| `Controller.Dashboard.RefreshJobs` | frontend/src/Dashboard.js:51-55 | a query is sent if and only if `settings.tokenConfigured` holds, with the effect of `LoadJobs`; otherwise nothing changes |
| `Controller.Dashboard.ChangeFilter` | frontend/src/Dashboard.js:110-115 | the filters become `HandleFilterChange` of the old filters; no other field changes |
| `Controller.Dashboard.SelectDate` | frontend/src/Dashboard.js:117-120 | the filters become `HandleDateSelect` of the old filters; no other field changes |
| `Controller.Dashboard.ClearAllFilters` | frontend/src/Dashboard.js:122-131 | the filters become the cleared record; no other field changes |
| `Controller.Dashboard.SetSortBy` | frontend/src/Dashboard.js:297-302 | the sort field becomes the chosen option; no other field changes |
| `Controller.Dashboard.SetSortOrder` | frontend/src/Dashboard.js:303-306 | the sort direction becomes the chosen option; no other field changes |
| `Controller.NoJobsWithoutSettings` | frontend/src/Dashboard.js:33-55 | after a failed settings load, no sequence of filter and sort edits followed by the effect ever sends a job query, and no job is shown |

## Left out

- Rendering: the JSX, CSS, the results table and count, and `formatDate` with its `pt-BR` locale formatting (lines 133-136 and 143-357). These are presentation only.
- The settings form's input handlers (the `setNewSettings` calls in the JSX). `newSettings` changes only through `LoadSettings` in the model. Typing into the form is presentation.
- The `showSettings` and `showCalendar` toggles, `alert` and `console.error`. These are UI side effects with nothing to state. The error message of a failed save goes only into an alert, so the model drops it.
- `axios`, the network and `API_URL`. Each response is a parameter of the step that makes the call. The `GET /settings` payload and the `config` of `POST /settings` are taken to be a `Settings` record.
- Percent-encoding by `URLSearchParams`. The query is a list of raw key and value pairs.
- Time zones and the host clock. A date is held as its UTC fields. `toISOString`'s conversion from local time is not modelled. A valid `Instant` allows any day from 1 to 31 in any month, within the year range of a JavaScript `Date`. The exact end days of that range are not modelled.
- React scheduling. The effect at lines 51-55 is the explicit step `RefreshJobs`, and the caller decides when it runs. React runs it after any change of `filters`, `sortBy`, `sortOrder` or `settings` by reference.
- Overlapping requests. Each `LoadJobs` is one atomic request and response, so its intermediate state (`loading` true, `error` cleared) is not visible between steps. With overlapping requests, a late answer to an earlier query overwrites the jobs of a later one, because the code has no stale-response guard. The atomic model cannot show that race.
- The mount-time effect that calls `loadSettings` (lines 46-48). The caller runs `LoadSettings` first, as `NoJobsWithoutSettings` does.
- `Filters.HandleFilterChange`: JavaScript lets any value reach any field. The model requires a string for a text field and a date for a date field, as every call site in the component passes.
- `Salary.ExtractSalary`: `salary_raw` is taken to be a string or null. JavaScript's other falsy values (`0`, `false`, `NaN`) are not modelled.
