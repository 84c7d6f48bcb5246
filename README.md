# Microgrid dashboard — page logic in Dafny

This project models the state logic inside the React microgrid dashboard's page components:

- **Asset list pages.** The solar-system list and the wind-turbine list hold a fetched list of assets. A validated form creates or edits an asset, a confirm step deletes one, and the active assets' rated power is totalled.
- **Detail pages.** Each detail page joins several fetches, builds a chart from the last 24 measurements followed by the first 24 forecasts sorted by time, and shows tables of the newest 10 measurements.
- **Decision-log page.** It sorts the fetched rows newest first, falls back to a sample list, and pages the rows client-side 10 at a time.
- **Settings page.** A record is edited one key at a time, behind a guard against non-numeric or negative numbers.
- **Dashboard.** Mocked live figures with a clamped battery charge level, classification thresholds, and a bounded newest-first event log.

Each page is one module. State that a component keeps in `useState` hooks becomes a class whose fields are those hooks. Each handler becomes a method with a `modifies` clause on the fields it sets. The expressions a page computes while rendering become functions, and their properties are lemmas.

Modelling conventions:

- **Network calls.** Each call's result is an `Outcome` parameter: `Success(body)`, or `Failure(cause)` for what the `catch` block receives.
- **Browser prompts and randomness.** `window.confirm` answers are boolean parameters. `Math.random()` values are real parameters in [0, 1).
- **Numbers and time.** Numbers are exact reals. Numeric form inputs are already-parsed `Option<real>` values, with `None` for an empty field. Timestamps are abstract integers, assumed to order the same way as the original date strings.
- **Sorting.** The in-place `forecasts.sort(...)` during rendering modifies the `forecasts` field. `Array.prototype.sort` is modelled as an insertion sort by an integer key that puts each element ahead of the later ones with an equal key. The contracts state that the result is sorted, that it is a permutation of the input, and that a sorted input is left unchanged; stability is not stated (see "## Left out").

Shared modules:

- `Wrappers`: `Option`, `Outcome`, JavaScript truthiness of numbers, `x || 0`, and `data || []`.
- `Text`: `String.prototype.trim`.
- `Seqs`: `slice` with negative indices, `reverse`, and the sort.
- `Collection`: remove by id and replace by id.
- `Assets`: the active-power total.
- `Chart`: the 24-point window both detail charts share, and their table of the newest 10 measurements.

The log page's page count (`src/components/pages/DataPage.jsx:73`) is `Math.ceil(n / 10)`, which is 0 for no rows. In the model `DataPage.TotalPages(0) == 0`, and `LogsPage.Next` re-establishes the page invariant only when there is at least one page.

## Model

| member | source | states |
|---|---|---|
| Wrappers.OrZero | src/components/pages/WindPage.jsx:50 | `x \|\| 0` is the value when it is truthy and 0 when it is missing or zero |
| Wrappers.OrEmpty | src/components/pages/WindTurbineDetailPage.jsx:28-29 | a missing list body stands for the empty list, and a present one is taken as it is |
| Text.TrimStart | src/components/pages/SolarPage.jsx:54 | the result is a suffix of the input that does not start with white space, and everything dropped was white space |
| Text.TrimEnd | src/components/pages/SolarPage.jsx:54 | the result is a prefix of the input that does not end with white space, and everything dropped was white space |
| Text.Trim | src/components/pages/WindPage.jsx:55 | `trim()` gives a string no longer than the input that neither starts nor ends with white space; TrimShape adds that it is what is left once only white space is cut from both ends |
| Text.TrimEmptyIffBlank | src/components/pages/SolarPage.jsx:54 | `!s.trim()` holds exactly when the string consists of white space only |
| Text.TrimShape | src/components/pages/WindPage.jsx:67-68 | a trimmed string is `s[i..j]` for some i ≤ j where `s[..i]` and `s[j..]` are all white space, and it neither starts nor ends with white space |
| Text.TrimIdempotent | src/components/pages/WindPage.jsx:67-68 | trimming an already trimmed name or location changes nothing |
| Seqs.RelativeIndex | src/components/pages/DataPage.jsx:74 | `slice` counts a negative index from the end and clamps every index to [0, length] |
| Seqs.Slice | src/components/pages/DataPage.jsx:74 | `slice(start, end)` is the contiguous run from the resolved start, as long as the resolved end lies beyond it and empty otherwise |
| Seqs.Last | src/components/pages/WindTurbineDetailPage.jsx:44 | `slice(-n)` gives the last min(n, length) elements, in their order |
| Seqs.First | src/components/pages/WindTurbineDetailPage.jsx:53 | `slice(0, n)` gives the first min(n, length) elements, as a prefix |
| Seqs.Reverse | src/components/pages/WindTurbineDetailPage.jsx:161 | the reversed list has the same length, with element i taken from position length-1-i |
| Seqs.NewestFirst | src/components/pages/WindTurbineDetailPage.jsx:161 | `slice(-n).reverse()` gives the newest min(n, length) entries, newest first |
| Seqs.Insert | src/components/pages/WindTurbineDetailPage.jsx:52 | one insertion step adds exactly the new element, and keeps a sorted list sorted |
| Seqs.SortBy | src/components/pages/WindTurbineDetailPage.jsx:52 | sorting by a key gives a permutation of the input whose keys never decrease |
| Seqs.SortSortedIsIdentity | src/components/pages/WindTurbineDetailPage.jsx:52 | sorting a list that is already sorted gives the same list |
| Collection.RemoveById | src/components/pages/WindPage.jsx:127 | `filter(t => t.id !== id)` keeps every element with another id, and only those, drawn from the input |
| Collection.RemoveByIdConcat | src/components/pages/SolarPage.jsx:111 | removal distributes over concatenation, so the kept elements stay in their relative order |
| Collection.RemoveAbsentId | src/components/pages/SolarPage.jsx:111 | deleting an id that no element carries leaves the list as it was |
| Collection.ReplaceById | src/components/pages/WindPage.jsx:79-81 | `map(t => t.id === id ? saved : t)` keeps the length, replaces exactly the entries with that id and leaves every other entry unchanged |
| Collection.RemoveKeepsUnique | src/components/pages/WindPage.jsx:127 | deleting keeps the ids of a list unique |
| Collection.AppendKeepsUnique | src/components/pages/WindPage.jsx:84 | appending a record with a new id keeps the ids unique |
| Collection.ReplaceKeepsUnique | src/components/pages/WindPage.jsx:79-81 | replacing by id keeps the ids unique and, when ids are unique, changes at most one position |
| Assets.ActiveOnly | src/components/pages/WindPage.jsx:49 | the filter keeps only assets whose status is "Активна" |
| Assets.SumPower | src/components/pages/WindPage.jsx:50 | no contract of its own: the left-to-right `reduce` sum, specified by SumPowerAppend |
| Assets.TotalActivePower | src/components/pages/WindPage.jsx:48-51 | no contract of its own: the sum over the active assets, specified by TotalActivePowerAppend and TotalActivePowerNonNegative |
| Assets.ActiveOnlyAppend | src/components/pages/WindPage.jsx:49 | a new asset passes the filter exactly when it is active, and the earlier ones are filtered as before |
| Assets.SumPowerAppend | src/components/pages/WindPage.jsx:50 | the left-to-right sum grows by the new asset's power, a missing power counting as 0 |
| Assets.TotalActivePowerAppend | src/components/pages/WindPage.jsx:48-51 | a new asset adds its power to the total exactly when it is active, and an inactive one leaves the total unchanged |
| Assets.TotalActivePowerNonNegative | src/components/pages/SolarSystemDetail.jsx:56-59 | with no negative rated power, the total is never negative |
| Chart.Upcoming | src/components/pages/WindTurbineDetailPage.jsx:51-53 | min(24, n) of the forecasts, in non-decreasing key order, none taken more often than it was fetched |
| Chart.UpcomingIsEarliest | src/components/pages/WindTurbineDetailPage.jsx:51-53 | no forecast left out of the window is earlier than one kept: the window is the earliest 24 |
| Chart.SortedSplit | src/components/pages/WindTurbineDetailPage.jsx:52-53 | cutting a sorted list keeps a sorted front part, and everything behind the cut has a key at least that of everything in front of it |
| Chart.RecentRows | src/components/pages/WindTurbineDetailPage.jsx:161 | the measurement table of both detail pages shows the newest min(10, n) measurements, newest first |
| SolarPage.ValidateCreateForm | src/components/pages/SolarPage.jsx:52-62 | the name error is present iff the name is blank, the power error iff the power is missing or ≤ 0, the efficiency error iff an efficiency is given outside [0, 100]; each error has its fixed text |
| SolarPage.ValidIff | src/components/pages/SolarPage.jsx:63 | the validator accepts exactly the forms that break none of the three rules |
| SolarPage.DeleteRemovesExactlyId | src/components/pages/SolarPage.jsx:111 | after a delete, no system with the id is left, every other system is kept, and the order of the rest is preserved |
| SolarPage.SolarListPage.constructor | src/components/pages/SolarPage.jsx:14-34 | the initial state: empty list, loading, empty form with status "Активна", both modals closed |
| SolarPage.SolarListPage.FetchSystems | src/components/pages/SolarPage.jsx:40-50 | success replaces the list; failure keeps it and sets the load error; loading ends either way |
| SolarPage.SolarListPage.CreateSystem | src/components/pages/SolarPage.jsx:66-102 | the errors are the validator's verdict on the form; a request is sent iff there are none; an invalid form changes nothing else; a sent request carries the form's fields and its response is applied |
| SolarPage.SolarListPage.ApplyCreated | src/components/pages/SolarPage.jsx:79-101 | success appends exactly the created system, hides and resets the form and reports success; failure keeps the list and form and reports the error |
| SolarPage.SolarListPage.RequestDelete | src/components/pages/SolarPage.jsx:104-106 | asking to delete only opens the confirm modal for that id |
| SolarPage.SolarListPage.CancelDelete | src/components/pages/SolarPage.jsx:148-149 | cancelling closes the confirm modal and clears its id |
| SolarPage.SolarListPage.ConfirmDelete | src/components/pages/SolarPage.jsx:108-131 | the button exists only while the confirm modal is open, so an id is pending; the DELETE targets it; success removes every system with it and reports success; failure keeps the list and reports the error; the confirm modal closes with no id either way |
| SolarPage.SolarListPage.CloseMessage | src/components/pages/SolarPage.jsx:186-192 | the OK button closes the message modal |
| SolarPage.SolarListPage.ToggleCreateForm | src/components/pages/SolarPage.jsx:218 | the header button flips whether the create form is shown |
| WindPage.ValidateForm | src/components/pages/WindPage.jsx:53-58 | the name error is present iff the name is blank, the power error iff the power is missing or ≤ 0, each with its fixed text |
| WindPage.ValidIff | src/components/pages/WindPage.jsx:59 | the form is accepted iff neither rule is broken |
| WindPage.Payload | src/components/pages/WindPage.jsx:66-71 | the request body has the trimmed name, and the trimmed location, or null exactly when the location is blank |
| WindPage.RequestFor | src/components/pages/WindPage.jsx:74-84 | the request is a PUT to the form's id iff editing with a truthy id, otherwise a POST, always with that body |
| WindPage.AfterSave | src/components/pages/WindPage.jsx:79-84 | no contract of its own: the list after a successful save, specified by AfterSaveShape |
| WindPage.AfterSaveShape | src/components/pages/WindPage.jsx:79-84 | an update keeps the length and replaces exactly the entries with the edited id; a create appends exactly the saved turbine behind the unchanged earlier ones |
| WindPage.TotalActivePower | src/components/pages/WindPage.jsx:48-51 | no contract of its own: the card's total, specified by TotalActivePowerOfAdded |
| WindPage.TotalActivePowerOfAdded | src/components/pages/WindPage.jsx:48-51 | adding an inactive turbine leaves the total unchanged, and adding an active one raises it by its power |
| WindPage.WindListPage.constructor | src/components/pages/WindPage.jsx:17-30 | the initial state: empty list, loading, empty form with status "Активна", not editing, no errors |
| WindPage.WindListPage.FetchTurbines | src/components/pages/WindPage.jsx:36-46 | success replaces the list; failure keeps it and sets the load error; loading ends either way |
| WindPage.WindListPage.ResetForm | src/components/pages/WindPage.jsx:94-103 | the form returns to its defaults and the errors are cleared |
| WindPage.WindListPage.Cancel | src/components/pages/WindPage.jsx:105-108 | cancelling leaves edit mode and resets the form |
| WindPage.WindListPage.Submit | src/components/pages/WindPage.jsx:62-92 | the errors are the validator's verdict; no request is made iff there are errors, and then nothing else changes; otherwise the request is the PUT or POST for the form and its response is applied |
| WindPage.WindListPage.ApplySaved | src/components/pages/WindPage.jsx:74-91 | success stores the saved turbine, resets the form, clears the errors and leaves edit mode; failure changes nothing |
| WindPage.WindListPage.Edit | src/components/pages/WindPage.jsx:110-119 | the form receives the turbine's id, name, power, location (or "") and status, and edit mode is entered |
| WindPage.WindListPage.Delete | src/components/pages/WindPage.jsx:121-132 | a declined prompt sends nothing and changes nothing; a confirmed delete that succeeds removes every turbine with that id; a failed one changes nothing |
| DataPage.SortNewestFirst | src/components/pages/DataPage.jsx:61 | the sorted rows are a permutation of the response with timestamps never increasing |
| DataPage.GeneratedRow | src/components/pages/DataPage.jsx:35-44 | the i-th generated sample row has id i + 4, timestamp hour 7 − i mod 8, one of the three sample actions and a charge level in [0.3, 0.9) |
| DataPage.GeneratedRows | src/components/pages/DataPage.jsx:35 | 27 sample rows; row i has id i + 4, timestamp hour 7 − i mod 8, one of the three sample actions and a charge level in [0.3, 0.9) |
| DataPage.MockLogs | src/components/pages/DataPage.jsx:4-45 | the fallback list has 30 rows, is sorted newest first and contains the three fixed rows |
| DataPage.SortedKeepsRows | src/components/pages/DataPage.jsx:45 | sorting keeps the number of rows and every row |
| DataPage.TotalPages | src/components/pages/DataPage.jsx:73 | `Math.ceil(n / 10)` is the fewest pages of 10 that hold n rows, 0 for no rows |
| DataPage.PagerShownIffMoreThanOnePage | src/components/pages/DataPage.jsx:196 | the pager is drawn exactly when there are more than 10 rows |
| DataPage.CurrentData | src/components/pages/DataPage.jsx:74 | the current page holds at most 10 rows: the rows from (page−1)·10 up to page·10, clamped to the data |
| DataPage.PagesUpToIsPrefix | src/components/pages/DataPage.jsx:74 | pages 1 to k, one after another, are the first k·10 rows |
| DataPage.PagesReconstructData | src/components/pages/DataPage.jsx:73-74 | pages 1 to totalPages, one after another, are exactly the data, in order |
| DataPage.NextPage | src/components/pages/DataPage.jsx:76 | no contract of its own: `Math.min(p + 1, totalPages)`, specified by PagingStaysInRange |
| DataPage.PrevPage | src/components/pages/DataPage.jsx:77 | no contract of its own: `Math.max(p - 1, 1)`, specified by PagingStaysInRange |
| DataPage.PagingStaysInRange | src/components/pages/DataPage.jsx:76-77 | with at least one page, both buttons keep the page within [1, totalPages]; the first page is fixed under `prevPage` and the last under `nextPage` |
| DataPage.ActionLabel | src/components/pages/DataPage.jsx:79-90 | charge, discharge and idle get their fixed labels and any other action is shown as it is |
| DataPage.RewardClassOf | src/components/pages/DataPage.jsx:92-96 | rewards are classed by sign, and a missing reward is neutral |
| DataPage.LogsPage.constructor | src/components/pages/DataPage.jsx:48-51 | the initial state: no rows, loading, no error, page 1 |
| DataPage.LogsPage.Load | src/components/pages/DataPage.jsx:54-71 | an ok response is stored sorted newest first with the error cleared; a non-ok response or a failed request stores the sample rows with the error text; the stored rows are always newest first and loading ends |
| DataPage.LogsPage.Visible | src/components/pages/DataPage.jsx:74 | the rows shown are the current page of the data, at most one page of them |
| DataPage.LogsPage.Next | src/components/pages/DataPage.jsx:76 | the page becomes `min(page + 1, totalPages)` and stays in range whenever there is a page |
| DataPage.LogsPage.Prev | src/components/pages/DataPage.jsx:77 | the page becomes `max(page − 1, 1)` and stays in range |
| WindTurbineDetail.MeasuredRun | src/components/pages/WindTurbineDetailPage.jsx:43-49 | the measured run has the newest min(24, n) measurements in their order, each with the power converted from W to kW |
| WindTurbineDetail.ForecastRun | src/components/pages/WindTurbineDetailPage.jsx:51-58 | the forecast run has min(24, n) forecast points, one for each forecast of the earliest-24 window in its order, so their times never decrease |
| WindTurbineDetail.SortForecasts | src/components/pages/WindTurbineDetailPage.jsx:52 | no contract of its own: the sort by target time, specified by Seqs.SortBy and RenderIsStable |
| WindTurbineDetail.ForecastRunFromFetched | src/components/pages/WindTurbineDetailPage.jsx:51-53 | every forecast point shows one of the fetched forecasts |
| WindTurbineDetail.ChartData | src/components/pages/WindTurbineDetailPage.jsx:41-59 | the chart has min(24, measurements) + min(24, forecasts) points: the measured run first, then the forecast run |
| WindTurbineDetail.ChartDoesNotMerge | src/components/pages/WindTurbineDetailPage.jsx:41-59 | the first min(24, n) chart points are measured and every later point is a forecast, whatever their times: the two series are concatenated, never merged |
| WindTurbineDetail.DisplayPower | src/components/pages/WindTurbineDetailPage.jsx:65-66 | an active turbine shows its rated power and any other turbine shows 0 |
| WindTurbineDetail.DisplayPowerMatchesListTotal | src/components/pages/WindTurbineDetailPage.jsx:65-66 | the detail page's power agrees with what the list page counts for that turbine in its active total |
| WindTurbineDetail.ForecastRows | src/components/pages/WindTurbineDetailPage.jsx:189 | the forecast table shows the first min(10, n) forecasts |
| WindTurbineDetail.ViewOf | src/components/pages/WindTurbineDetailPage.jsx:61-189 | loading, then error, then a missing turbine are checked in that order; the turbine view shows the display power; the chart appears iff there is any measurement or forecast and is then ChartData; the measurement table appears iff there are measurements and holds the newest 10; the forecast table appears iff there are forecasts and holds the first 10 |
| WindTurbineDetail.WindDetailPage.constructor | src/components/pages/WindTurbineDetailPage.jsx:13-17 | the initial state: no turbine, empty lists, loading, no error |
| WindTurbineDetail.WindDetailPage.FetchData | src/components/pages/WindTurbineDetailPage.jsx:20-36 | only when all three requests succeed are the turbine and its lists stored (a missing list as empty); any failure sets the error and stores nothing; loading ends either way |
| WindTurbineDetail.WindDetailPage.Render | src/components/pages/WindTurbineDetailPage.jsx:41-66 | rendering sorts the stored forecasts in place and returns the view of the state |
| WindTurbineDetail.RenderIsStable | src/components/pages/WindTurbineDetailPage.jsx:52 | a second render finds the forecasts sorted, leaves them as they are, and draws the same chart |
| SolarSystemDetail.Kilowatts | src/components/pages/SolarSystemDetail.jsx:71 | a truthy reading is divided by 1000, and a missing or zero one gives 0 |
| SolarSystemDetail.Irradiance | src/components/pages/SolarSystemDetail.jsx:72 | GHI when truthy, else POA when truthy, else 0 |
| SolarSystemDetail.MeasuredRun | src/components/pages/SolarSystemDetail.jsx:64-73 | the measured run has the newest min(24, n) measurements in their order |
| SolarSystemDetail.ForecastRun | src/components/pages/SolarSystemDetail.jsx:75-84 | the forecast run has min(24, n) forecast points, one for each forecast of the earliest-24 window, placed at the target time or else at the timestamp, so their times never decrease |
| SolarSystemDetail.ForecastTime | src/components/pages/SolarSystemDetail.jsx:76 | no contract of its own: `target_time \|\| timestamp`, the key ForecastRun is ordered by |
| SolarSystemDetail.ForecastRunFromFetched | src/components/pages/SolarSystemDetail.jsx:75-77 | every forecast point shows one of the fetched forecasts |
| SolarSystemDetail.SortForecasts | src/components/pages/SolarSystemDetail.jsx:76 | no contract of its own: the sort by ForecastTime, specified by Seqs.SortBy and RenderIsStable |
| SolarSystemDetail.ChartData | src/components/pages/SolarSystemDetail.jsx:62-85 | the chart has min(24, measurements) + min(24, forecasts) points: the measured run first, then the forecast run |
| SolarSystemDetail.WithIrradiance | src/components/pages/SolarSystemDetail.jsx:159 | the filter keeps only points that carry an irradiance |
| SolarSystemDetail.WithIrradianceConcat | src/components/pages/SolarSystemDetail.jsx:159 | filtering a concatenation concatenates the filtered parts |
| SolarSystemDetail.WithIrradianceKeepsMeasured | src/components/pages/SolarSystemDetail.jsx:159 | a run of measured points passes the filter unchanged |
| SolarSystemDetail.WithIrradianceDropsForecasts | src/components/pages/SolarSystemDetail.jsx:159 | a run of forecast points is filtered out entirely |
| SolarSystemDetail.IrradianceChartIsMeasuredRun | src/components/pages/SolarSystemDetail.jsx:159 | the irradiance chart's data is exactly the measured run |
| SolarSystemDetail.ShowIrradiance | src/components/pages/SolarSystemDetail.jsx:155 | the irradiance chart is shown iff some measurement has a truthy GHI or POA |
| SolarSystemDetail.ActivePanelPower | src/components/pages/SolarSystemDetail.jsx:56-59 | no contract of its own: the panel total, specified by ActivePanelPowerOfAdded and ActivePanelPowerNonNegative |
| SolarSystemDetail.ActivePanelPowerOfAdded | src/components/pages/SolarSystemDetail.jsx:56-59 | adding an inactive panel leaves the total unchanged, and adding an active one raises it by its power |
| SolarSystemDetail.ActivePanelPowerNonNegative | src/components/pages/SolarSystemDetail.jsx:56-59 | with no negative panel power, the panel total is never negative |
| SolarSystemDetail.StatusShown | src/components/pages/SolarSystemDetail.jsx:115 | a system without a status is shown as "Активна" |
| SolarSystemDetail.ViewOf | src/components/pages/SolarSystemDetail.jsx:87-199 | loading, then error, then a missing system are checked in that order; the system view shows the nominal power (`power_kw \|\| 0`), the status shown and the active panel total; the chart appears iff there is any data and is then ChartData; the irradiance chart appears iff there is some reading, and its data is then the measured run; the table appears iff there are measurements and holds the newest 10 |
| SolarSystemDetail.SolarDetailPage.constructor | src/components/pages/SolarSystemDetail.jsx:22-27 | the initial state: no system, empty lists, loading, no error |
| SolarSystemDetail.SolarDetailPage.FetchData | src/components/pages/SolarSystemDetail.jsx:33-51 | only when all four requests succeed is anything stored (a missing list as empty); any failure sets the error; loading ends either way |
| SolarSystemDetail.SolarDetailPage.Render | src/components/pages/SolarSystemDetail.jsx:62-89 | rendering sorts the stored forecasts in place and returns the view of the state |
| SolarSystemDetail.RenderIsStable | src/components/pages/SolarSystemDetail.jsx:76 | a second render finds the forecasts sorted, leaves them as they are, and draws the same chart |
| SettingsPage.Defaults | src/components/pages/SettingsPage.jsx:4-15 | the initial record has exactly the ten listed keys with their listed values |
| SettingsPage.Change | src/components/pages/SettingsPage.jsx:17-19 | the key gets the new value, no other key changes, and only that key can be added |
| SettingsPage.NumberChange | src/components/pages/SettingsPage.jsx:21-26 | input that is not a number, or that is negative, leaves the record unchanged; a number ≥ 0, including 0, is stored under the key |
| SettingsPage.NumberEditsAreGuarded | src/components/pages/SettingsPage.jsx:21-26 | after any sequence of number edits, the untouched keys keep their values, no key appears that no accepted edit wrote, and every key one wrote holds a number ≥ 0 |
| SettingsPage.NumberEditsKeepNonNegative | src/components/pages/SettingsPage.jsx:21-26 | a record with no negative number never gets one from number edits |
| SettingsPage.DefaultsNonNegative | src/components/pages/SettingsPage.jsx:4-15 | the defaults contain no negative number |
| SettingsPage.SettingsForm.constructor | src/components/pages/SettingsPage.jsx:4-15 | the form starts from the defaults |
| SettingsPage.SettingsForm.HandleChange | src/components/pages/SettingsPage.jsx:17-19 | the record after the change is the old one with only that key set |
| SettingsPage.SettingsForm.HandleNumberChange | src/components/pages/SettingsPage.jsx:21-26 | the record changes exactly as the guarded number update says |
| Dashboard.InitialEvents | src/components/Dashboard.jsx:41-47 | the log starts with five events, one of each kind, each stamped `HH:MM` |
| Dashboard.PrependEvent | src/components/Dashboard.jsx:76 | the new event comes first, followed by the first at most nine earlier events, so the log holds at most ten |
| Dashboard.PrependEach | src/components/Dashboard.jsx:76 | a log of at most ten events stays at most ten however many events are added |
| Dashboard.PrependOfPrefix | src/components/Dashboard.jsx:76 | adding an event to the newest ten is taking the newest ten after adding it to the whole history |
| Dashboard.PrependAll | src/components/Dashboard.jsx:76 | after any sequence of events the log holds the newest ten of them and the initial log, newest first |
| Dashboard.NextSoc | src/components/Dashboard.jsx:61 | the new charge level is the old one plus the step, clamped to [0.1, 0.95] |
| Dashboard.SocStepIsSmall | src/components/Dashboard.jsx:61 | from inside the band, one update changes the charge level by at most 0.04 |
| Dashboard.NextStats | src/components/Dashboard.jsx:57-62 | the figures lie in [1, 8), [1, 7) and [6, 10), and the charge level is clamped |
| Dashboard.KindOf | src/components/Dashboard.jsx:65-66 | each fifth of [0, 1) selects one of the five event kinds |
| Dashboard.MessageOf | src/components/Dashboard.jsx:67-73 | no contract of its own: the fixed message of each event kind, used by DashboardState.Tick |
| Dashboard.TwoDigits | src/components/Dashboard.jsx:75 | `padStart(2, "0")` gives two decimal digits that spell the number |
| Dashboard.Clock | src/components/Dashboard.jsx:75 | the stamp is five characters: hours, a colon, minutes |
| Dashboard.BatteryIconOf | src/components/Dashboard.jsx:124-128 | full above 0.7, half above 0.3 up to 0.7, empty otherwise |
| Dashboard.SocColourMatchesIcon | src/components/Dashboard.jsx:149-153 | the charge figure is green exactly when the battery icon is not empty |
| Dashboard.Balance | src/components/Dashboard.jsx:119-120 | the balance is positive iff generation exceeds the load |
| Dashboard.BalanceText | src/components/Dashboard.jsx:121 | "Избыток" iff the balance is positive, otherwise "Дефицит" |
| Dashboard.SolarTrend | src/components/Dashboard.jsx:143 | the solar trend is up iff solar generation exceeds 4 |
| Dashboard.WindTrend | src/components/Dashboard.jsx:144 | the wind trend is up iff wind generation exceeds 3 |
| Dashboard.DashboardState.constructor | src/components/Dashboard.jsx:34-47 | the initial figures and the five initial events, with the charge level in its band |
| Dashboard.DashboardState.Tick | src/components/Dashboard.jsx:56-77 | new figures every tick, with the charge level kept in its band; an event stamped with the given time is added in front when the draw exceeds 0.7, and otherwise the log is unchanged; the log never exceeds ten events |

## Left out

- Network I/O. The REST endpoints, their URLs, `fetch`, `axios` and the `Promise.all` joins are replaced by `Outcome` parameters. Which request failed and any partial results are not modelled, because the source discards both.
- Asynchrony. Each handler runs to completion, as though its awaited response had already arrived. An interleaving of two in-flight handlers, React's batching of state updates, and a second submission made before the first response arrives are not modelled.
- Rendering. JSX markup, CSS classes, colours other than the charge-level colour, icons, recharts components, modal markup and the `alert` calls are not modelled. A view is a datatype that records which sections are shown and with what data.
- Form input handlers. The `onChange` setters that copy one input into the form are not modelled, nor are the create form's own open and close buttons (src/components/pages/SolarPage.jsx:331, 402). Each is a single field assignment.
- Prompts. `window.confirm` is a boolean parameter.
- Number parsing. `parseFloat` and the string form of number inputs are not modelled: a numeric field holds the parsed value, or `None` when empty. WindPage.ValidateForm therefore does not model a non-numeric power string, which `parseFloat` would turn into `NaN` and which its `<= 0` test would let through.
- Formatting. `toFixed`, `toLocaleTimeString`, `toLocaleDateString` and `Date` parsing are not modelled. Chart and table times are abstract integers, and numbers are exact reals.
- Dashboard.NextSoc: does not round the clamped charge level to two decimals (`toFixed(2)` at src/components/Dashboard.jsx:61), because decimal rounding of floating point numbers is outside the model; the clamp to [0.1, 0.95] is modelled.
- Dashboard.NextStats: does not round the random figures to two decimals, for the same reason.
- Randomness and time. `Math.random` values, the 4-second `setInterval` with its cleanup, and the wall-clock hour and minute are parameters.
- The DataPage sample rows' string-typed figures (`toFixed` on the random values) are modelled as numbers.
- The Dashboard's graph-data fetch and its formatting (src/components/Dashboard.jsx:83-117), which is I/O and formatting.
- The Dashboard's active-tab switch is pure UI toggling.
- Seqs.SortBy: does not state stability (that elements with equal keys keep their input order), although the insertion sort is stable; the order among equal timestamps in the log page and the detail tables is therefore not promised by any contract.
- DataPage.LogsPage.Load: takes the random draws of the sample rows as a parameter of each call, whereas `mockLogs` is a module constant computed once when the module loads, so the model does not promise that two fallbacks produce the same sample list.
- DataPage.LogsPage.Next: restores the page invariant only when there is at least one page. With no rows `nextPage` would set the page to 0, but the pager is only rendered when there are more than 10 rows.
- DataPage.LogsPage.Next and DataPage.LogsPage.Prev require that loading has ended, because the pager buttons only exist then.
- Error maps are keyed by a datatype of the form's fields rather than by the field-name strings. `Object.keys(errors).length === 0` is the map's cardinality being 0.
- The SettingsPage save button has no handler in the source, so there is nothing to model.
- src/components/Sidebar.jsx and src/App.jsx are not part of this model. They are UI toggling and a routing table.
- src/components/pages/SolarSimulationPage.jsx and src/api/solarSimulationApi.js are not part of this model. They post and refetch with a loading flag, and their only list logic repeats the solar page's remove by id.
