# Process-mining dashboard: filter state, query parameters and DFG placement

This project models the deterministic logic of the process-mining dashboard in
`app.py`. The dashboard lets an analyst filter a business event log (offers,
orders, deliveries, invoices, payments) by period, customer and product, and
sends the chosen filters to the stored procedure `process_analyzer_orchestrator`.

- **Session filter state** (`session_filters.dfy`, module `SessionFilters`).
  The session holds six *input* keys written by the widgets and six *applied*
  keys read by the loaders. It also holds the flag `data_applied` and
  `min_data_date`. These live in the class `FilterSession`, whose methods
  `ApplyFilters`, `ResetFilters`, `UpdateDatesOnPeriodChange` and
  `RecordMinDataDate` update the fields in place. `PeriodRange` is the pure
  period rule. `CustomerList` turns the single-customer selection into a list.
  `AppliedQuery` gives the parameters the loaders receive, or nothing while
  `data_applied` is false.
- **Query parameters** (`sql_params.dfy`, module `SqlParams`).
  A customer or material list becomes `NULL` when empty. Otherwise it becomes
  one quoted T-SQL string literal of the comma-joined ids. Material ids have each
  quote doubled first; customer ids are joined as they are. The strict-inclusion
  flag becomes `1` or `0`. `ParseLiteral` is an independent reader of T-SQL
  string literals. The round-trip lemmas say what the procedure receives. The
  eventlog, KPI and DFG loaders repeat the same six lines (`app.py:125-130`,
  `157-162`, `186-191`), so they are modelled once, as `BuildQueryParams`.
- **DFG panel** (`dfg_layout.dfy`, module `DfgLayout`).
  Every activity seen as the source or target of a transition row gets an
  index `0..n-1`. Index `i` is drawn at `((i mod 5)*100, (i div 5)*100)`. Each
  row is drawn as a straight line between the grid points of its two
  activities. Distinct activities never share a grid point.

Dates are day numbers, as Python's `date.toordinal()` gives them; the default
start date `date(2025, 1, 1)` is day 739252. The current day is a parameter
wherever the dashboard reads the clock. `DEFAULT_END_DATE` is `date.today()` at
each run of the script, so it is the `today` argument of the constructor and of
`ResetFilters`.

The DFG panel in `app.py` places nodes on a fixed five-wide grid and draws
straight lines; that is what is modelled.

Customer ids are not escaped (`app.py:125`). `CustomerParamRoundTripIff` proves
that a customer list reads back as its comma-joined ids exactly when no id holds
a quote. `CustomerQuoteBreaksLiteral` works the example `A'B`: it ends the
literal early, while the same id as a material id arrives intact. Customer ids
come from the customer lookup table, so whether such ids occur is outside the
model.

## Model

| member | source | states |
|---|---|---|
| `SqlParams.Escape` | app.py:128 | doubling quotes never shortens a text and leaves a quote-free text unchanged |
| `SqlParams.EscapeEach` | app.py:128 | the comprehension keeps the number of ids and escapes each id in place |
| `SqlParams.EscapeJoin` | app.py:128-129 | escaping each material id and then comma-joining equals escaping the comma-joined ids |
| `SqlParams.QuotedEscapedRoundTrip` | app.py:128-129 | a quoted, escaped text reads back as exactly one T-SQL literal holding that text |
| `SqlParams.CustomerIdParam` | app.py:125 | the customer parameter is `NULL` exactly when the customer list is empty |
| `SqlParams.MaterialIdsParam` | app.py:128-129 | the material parameter is `NULL` exactly when the material list is empty |
| `SqlParams.MaterialFilterModeParam` | app.py:130 | the mode is 1 exactly when strict inclusion is on and 0 exactly when it is off |
| `SqlParams.BuildQueryParams` | app.py:125-130 | each list parameter is `NULL` iff its list is empty; the mode is 1 iff strict and 0 iff not; the dates are passed through |
| `SqlParams.BuildQueryParamsRoundTrip` | app.py:125-130 | in the built parameters, a non-empty material list and a non-empty quote-free customer list each read back as the comma-joined ids |
| `SqlParams.MaterialParamRoundTrip` | app.py:128-129 | a non-empty material list reaches the procedure as one literal whose content is the comma-joined ids, quotes included |
| `SqlParams.CustomerParamRoundTrip` | app.py:125 | a non-empty customer list without quotes reaches the procedure as one literal holding the comma-joined ids |
| `SqlParams.ParseBodyInverse` | app.py:128-129 | the literal reader accepts only escaped text followed by the closing quote, so escaping is the only way to reach a given content |
| `SqlParams.CustomerQuoteNoRoundTrip` | app.py:125 | once any customer id holds a quote, the customer parameter no longer reads back as the comma-joined ids |
| `SqlParams.CustomerParamRoundTripIff` | app.py:125 | a non-empty customer list reads back as its comma-joined ids exactly when no id holds a quote |
| `SqlParams.CustomerQuoteBreaksLiteral` | app.py:125 | an unescaped customer id `A'B` yields `'A'B'`, which is not one literal; as a material id it arrives intact |
| `SqlParams.SplitJoin` | app.py:129 | when no id holds a comma, splitting the joined ids on commas gives the id list back |
| `SessionFilters.Defaults` | app.py:61-68 | the defaults are `Gesamt`, the default start date, the given end date, all customers, no product and non-strict |
| `SessionFilters.PeriodRange` | app.py:73-92 | whenever the period sets the dates, the end date is today |
| `SessionFilters.PeriodRangeCases` | app.py:82-92 | last 7 days is today-7..today, last 30 days is today-30..today, `Gesamt` is min data date..today; `Benutzerdefiniert` and every other value keep the dates, and only those |
| `SessionFilters.PeriodRangeOrdered` | app.py:79-88 | if the min data date is not after today, a range that is set never starts after it ends |
| `SessionFilters.CustomerList` | app.py:261-264 | the list has at most one id; it is empty exactly for "all customers" and holds the selected id otherwise |
| `SessionFilters.CustomerSelectionParam` | app.py:261-264 | no customer selected gives `NULL`; a selected id without quotes reaches the procedure as exactly that id |
| `SessionFilters.AppliedQuery` | app.py:253-292 | the loaders are called exactly when `data_applied` is true; they get the applied dates unchanged, `NULL` customers exactly for "all customers", `NULL` materials exactly for no product, a non-empty product list as its comma-joined ids, and mode 1 exactly for strict and 0 otherwise |
| `SessionFilters.MinDataDate` | app.py:315-316 | the earliest event date: an event date no later than any other, or the default start date for an empty log |
| `SessionFilters.ResetQuery` | app.py:59-70 | after a reset the loaders get `NULL` customers, the default dates, `NULL` materials and mode 0 |
| `SessionFilters.FilterSession.constructor` | app.py:23-43 | every input and applied key starts at its default, `data_applied` is false, and nothing is loaded |
| `SessionFilters.FilterSession.ApplyFilters` | app.py:46-55 | each applied key equals its input key, `data_applied` becomes true, and the input keys and `min_data_date` are unchanged |
| `SessionFilters.FilterSession.ResetFilters` | app.py:59-70 | input and applied keys both hold the defaults, `data_applied` is true, and the loaders get `NULL`, `NULL`, mode 0 |
| `SessionFilters.FilterSession.UpdateDatesOnPeriodChange` | app.py:73-92 | the input dates become the period's range, or stay when the period sets none; every other key is unchanged |
| `SessionFilters.FilterSession.RecordMinDataDate` | app.py:315-317 | `min_data_date` becomes the earliest event date; the filter keys are unchanged |
| `DfgLayout.Endpoints` | app.py:423-426 | holds both ends of every row, and every member is an end of some row |
| `DfgLayout.GridPosition` | app.py:433-434 | x is one of 0, 100, 200, 300, 400 and y is a non-negative multiple of 100 |
| `DfgLayout.GridPositionInjective` | app.py:446-447 | different indices are placed at different grid points |
| `DfgLayout.CollectNodes` | app.py:423-426 | the set built row by row is exactly the set of row endpoints |
| `DfgLayout.ListNodes` | app.py:427 | the list holds every activity of the set exactly once, in an unspecified order |
| `DfgLayout.IndexNodes` | app.py:428 | every listed activity maps to its position in the list, and only listed activities are keys |
| `DfgLayout.DrawLines` | app.py:430-434 | one line per row, in row order, from the grid point of the source's index to that of the target's, carrying the row's frequency |
| `DfgLayout.DrawMarkers` | app.py:446-453 | the marker of activity `i` is at grid point `i` with that activity's name, and no two markers share a point |
| `DfgLayout.BuildDiagram` | app.py:418-464 | an empty result draws nothing; otherwise every endpoint appears once, markers sit at distinct grid points, and every row becomes a line between its endpoints' grid points |

## Left out

- Database access is not modelled: `_get_db_connection`, `pyodbc.connect`, `pd.read_sql` and the customer and product lookup loaders (`app.py:99-242`). It is I/O. The missing-configuration and driver-error paths that return an empty frame go with it.
- The text of the `EXEC process_analyzer_orchestrator` statement and the `'%Y-%m-%d'` formatting of the two dates are not modelled. Dates stay day numbers in `QueryParams`.
- `str()` applied to customer and material ids (app.py:125, 128) is not modelled: ids enter the model as strings.
- `st.cache_data`, `st.rerun`, every widget, the page layout and the CSS are not modelled. They are user-interface framework calls.
- The KPI table (`app.py:393-414`) is not modelled. It is fixed float data with float ratios and percent formatting.
- The Plotly figure is not modelled beyond its geometry: line width `max(2, Frequency/10)` (a float division), colours, marker size, hover texts and axis settings are left out.
- Python's set iteration order for `nodes_list` is not modelled: `ListNodes` may produce any duplicate-free order of the node set.
- `applied_produkt_input` and `produkt_input` share one list object after `apply_filters`; the model copies values, so that aliasing is not captured.
- Python's date range (years 1 to 9999) is not modelled: `today - 7` and `today - 30` never fail here.
- `MinDataDate` takes the event dates as a list of day numbers, so a missing date cannot be expressed. Missing (NaT) dates are not in the list, since `min()` skips them (app.py:144-145, 315-316). An event log without a `Datum` column is the empty list. A non-empty log whose dates are all missing is not modelled: there the dashboard stores NaT as `min_data_date`, not the default start date.
- login.py and sql_conn.py are not part of this model. They check credentials against a live database, render the login form and open connections.
