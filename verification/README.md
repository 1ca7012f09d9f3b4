# Bitrix sales analytics: sync and aggregation core

This project models two paths of a small sales-analytics tool that reads from the
Bitrix24 CRM:

- **Sync (write path).** `sync_data` in `bitrix_client.py` takes the
  `profile.json` and `crm.deal.list.json` payloads. It builds one `Manager` and
  one `Deal` per listed deal, adds them to an SQLAlchemy session and commits.
  `models.py` defines both tables with `id` as the primary key.
- **Dashboard (read path).** The computational lines of `dashboard.py` cover:
  - the date-range filter and its fallback to all data;
  - the point metrics: deals, I2CRM chats, meetings, won deals, conversion,
    average deal and time to close;
  - the per-day activity series with its three-day moving average;
  - the per-manager page with its daily conversion series;
  - the forecast page with its "activity below forecast" warning.

Modules, one file each:

- `Wrappers`: `Option` and `Result`.
- `Seqs`: counting, filtering, sums and means over exact reals, and literal
  substring search.
- `Schema`: the stored values, the `Manager` and `Deal` rows, and a store keyed
  by primary key.
- `Sync`: record normalisation, the commit with its primary-key checks, the run
  itself, and re-serialisation.
- `Deals`: the dashboard's view of a stored deal.
- `Daily`: `groupby(date_create.dt.date)`.
- `Rolling`: pandas `rolling(window, min_periods).mean()`. It is a reference
  definition plus a running-sum method proved equal to it.
- `Metrics`: the range selection and the point metrics.
- `Views`: the three dashboard pages.

The model follows the code as written:

- **Plain inserts.** The commit inserts with `session.add` and does not upsert.
  A second sync that repeats a manager or deal id therefore fails as a whole
  (`Sync.ResyncFails`).
- **Fail-fast sync.** The first record that cannot be normalised aborts the run,
  and nothing is written.
- **No sign check on `opportunity`.** The code does not check that it is
  non-negative.
- **Forecast window includes the current day.** The forecast is
  `rolling(window=3, min_periods=1)`, so the window contains the day being
  forecast. For counts 10, 10, 10, 4 the last forecast is therefore 8, not 10,
  and the warning fires (`Views.AnomalyExampleDrop`).
- **Range ends at midnight.** The range filter's upper bound is midnight at the
  start of the end day, so deals created later that day fall outside
  (`Metrics.EndDayStopsAtMidnight`).
- **Manager average over all deals.** The per-manager average deal is taken
  over all of the manager's selected deals. The general page uses only the won
  deals.

## Model

| member | source | states |
|---|---|---|
| Sync.NormalizeManager | bitrix_client.py:26-31 | Succeeds exactly when ID, NAME, LAST_NAME and ADMIN are present and ID converts with `int()`. On success, the manager carries exactly those values. Otherwise the error names the missing key or the value `int()` rejected. |
| Sync.NormalizeDeal | bitrix_client.py:35-49 | Succeeds exactly when all thirteen keys are present, ID and ASSIGNED_BY_ID convert with `int()`, and OPPORTUNITY converts with `float()`. Every field of the row comes from its key. A failure names the key and the raw value. |
| Sync.NormalizeDeals | bitrix_client.py:34-49 | Succeeds exactly when every deal normalises. The result is then the normalised deals, one per input, in order. |
| Sync.NormalizeDealsFirstError | bitrix_client.py:34-49 | A failed batch reports the error of the first deal that fails, and every deal before it normalises. |
| Sync.Normalize | bitrix_client.py:23-49 | Succeeds exactly when the profile result is present and normalises, the deal list is not JSON null, and every listed deal normalises. The manager is then the normalised profile, and the rows are the normalised deals, one per listed deal, in order. When the deal list is missing, the run succeeds exactly when the profile normalises. |
| Sync.Commit | bitrix_client.py:32-52 | Commits exactly when the manager id is new, the batch's deal ids are distinct, and none is already stored. Otherwise it fails with an integrity error. |
| Sync.CommitAddsManager | bitrix_client.py:32 | A successful commit stores the manager under its id and leaves all other managers unchanged. |
| Sync.CommitAddsDeals | bitrix_client.py:50 | A successful commit stores every deal of the batch under its id. Earlier deals are unchanged, and the table grows by the batch size. |
| Sync.CommitKeepsKeys | models.py:6-13 | A commit keeps every stored row under its own primary key. |
| Sync.SyncData | bitrix_client.py:20-52 | A run that fails leaves the store as it was. A run succeeds exactly when normalisation and the commit both succeed. |
| Sync.SyncKeepsKeys | models.py:6-13 | Every run keeps every row keyed by its primary key. |
| Sync.SyncStoresNormalizedRows | bitrix_client.py:26-52 | After a successful run, the normalised profile is stored under its id, and every listed deal, normalised, is stored under its own id. |
| Sync.BadDealFailsRun | bitrix_client.py:34-52 | A listed deal that does not normalise makes the run fail with the store unchanged. When the profile is good, the error is that of the first failing deal. |
| Sync.SyncEffect | bitrix_client.py:32-52 | A successful run adds one manager and exactly as many deals as were listed, and changes no earlier row. |
| Sync.MissingDealListAddsOnlyManager | bitrix_client.py:24 | Without a `result` in the deal payload, a run adds only the manager. |
| Sync.ResyncFails | bitrix_client.py:32-52 | Repeating a successful run on its own result fails with an integrity error and changes nothing. |
| Sync.RepeatedDealIdFails | bitrix_client.py:34-52 | Two listed deals with the same id make the whole run fail, with the store unchanged. |
| Sync.CommitIgnoresAssignee | models.py:21 | Whether a commit succeeds does not depend on any deal's `assigned_by_id`, because the foreign key is not enforced. |
| Sync.ManagerRoundTrip | bitrix_client.py:26-31 | Re-serialising a manager and normalising the result gives back the same manager. |
| Sync.DealRoundTrip | bitrix_client.py:35-49 | Re-serialising a deal and normalising the result gives back the same row. |
| Sync.DealReserializes | bitrix_client.py:35-49 | Re-serialising a normalised deal gives back its ten verbatim fields unchanged. Its three numeric fields convert to the same numbers as the originals. |
| Schema.InsertDeals | models.py:13 | Inserting rows with distinct new ids adds exactly those keys, keeps old rows, and stores each row under its id. Rows stay keyed by id. |
| Schema.RowsByIdKeys | models.py:13 | A batch keyed by id has exactly the batch's ids as keys. |
| Schema.RowsByIdLookup | models.py:13 | With distinct ids, each row is found under its own id. |
| Schema.RowsByIdSize | models.py:13 | With distinct ids, no row is lost when the batch is keyed. |
| Schema.RowsByIdKeyed | models.py:13 | Every row of a keyed batch sits under its own id. |
| Deals.ReadDealsCounts | dashboard.py:37-38 | Of the deals read from the stored rows, the dated ones are exactly the rows whose `date_create` parses. A manager's deals are exactly the rows assigned to that manager. Every deal read has a known `opportunity`, as every stored amount in the model is a number. |
| Seqs.Count | dashboard.py:66-67 | A boolean-mask sum is at most the length. It is zero exactly when no element matches, and full exactly when all match. |
| Seqs.Filter | dashboard.py:68 | A mask selection keeps exactly the matching rows, with their multiplicities, and has one row per match. |
| Seqs.FilterInOrder | dashboard.py:68 | A mask selection keeps the input order: the matching row at position `i` lands at the position given by the number of matches before `i`. |
| Seqs.CountFilter | dashboard.py:143-146 | Counting inside a selection equals counting the conjunction of both masks over the whole input. |
| Seqs.ContainsIff | dashboard.py:66 | The chat test holds exactly when the marker occurs at some position of `source_id`. |
| Metrics.SelectRange | dashboard.py:56-62 | The selection falls back exactly when no deal lies in the range, and then keeps all deals. Otherwise it keeps exactly the in-range deals with their multiplicities. A non-empty input never gives an empty selection. |
| Metrics.EndDayStopsAtMidnight | dashboard.py:58 | A deal created on the end day after midnight is outside the range. |
| Metrics.WonSet | dashboard.py:68 | The won set is exactly the deals in stage WON, with their multiplicities. |
| Metrics.Conversion | dashboard.py:70 | The conversion, before rounding to one decimal, lies in [0, 100] and is 0 for no deals. Times the deal count, it equals the won count times 100. It is 0 exactly when nothing is won, and 100 exactly when everything is won. |
| Metrics.ConversionShare | dashboard.py:68-70 | The conversion is the won set's size as a percentage of the deals: times the deal count it gives the won count times 100, and it is 0 or 100 exactly when none or all are won. |
| Metrics.PercentBounds | dashboard.py:70 | A share of a whole as a percentage lies in [0, 100], with both ends reached exactly at 0 and at the whole. |
| Metrics.KnownOpportunities | dashboard.py:71 | The values the mean uses are the non-null opportunities, one per deal that has one. |
| Metrics.KnownOpportunitiesInOrder | dashboard.py:71 | The values the mean uses are the non-null opportunities in deal order: a deal that has one contributes it at the position given by the number of earlier deals that have one. |
| Metrics.SumKnownOpportunities | dashboard.py:71 | The values the mean uses add up to the total of the non-null opportunities, taken deal by deal. |
| Metrics.AverageOpportunity | dashboard.py:71 | The average deal is 0 when every opportunity is null. Its value otherwise is stated by `Metrics.AverageOpportunityIsMean`, its bounds by `Metrics.AverageOpportunityBounds`. |
| Metrics.AverageOpportunityIsMean | dashboard.py:71 | When some opportunity is known, the average deal is the total of the known opportunities divided by how many there are. |
| Metrics.AverageOpportunityBounds | dashboard.py:71 | The average deal lies within the bounds of the known opportunities. |
| Metrics.AverageIgnoresUnknown | dashboard.py:71 | A deal with a null opportunity does not change the average. |
| Metrics.CloseDurations | dashboard.py:72-74 | There is one whole-day duration per won deal with both dates, computed from that deal's dates. |
| Metrics.CloseDurationsInOrder | dashboard.py:72-74 | The durations follow deal order: a deal with both dates contributes its whole days to close at the position given by the number of earlier deals with both dates. |
| Metrics.SumCloseDurations | dashboard.py:72-74 | The durations add up to the whole days to close, totalled deal by deal over the deals with both dates. |
| Metrics.TimeToClose | dashboard.py:72-74 | Time to close is 0 for no won deals. It is unknown (NaN) exactly when won deals exist but none has both dates. |
| Metrics.TimeToCloseIsMeanDays | dashboard.py:72-74 | When some won deal has both dates, time to close is the total of their whole days to close divided by their number. |
| Metrics.TimeToCloseNonNegative | dashboard.py:72-74 | If no deal closes before it is created, time to close is not negative. |
| Metrics.OverviewMetrics | dashboard.py:65-74 | Chats, meetings and won deals are each at most the deal count. Conversion is the unrounded conversion of the selection, in [0, 100], and is 0 exactly when nothing is won and 100 exactly when every deal is won. The average deal and time to close are taken over the won set. |
| Metrics.ManagerMetrics | dashboard.py:153-161 | Chats are at most the deal count. Conversion is the unrounded conversion of the selection, in [0, 100], and is 0 exactly when nothing is won and 100 exactly when every deal is won. The average deal is taken over all selected deals, and time to close over the won ones. The page computes no meetings or won count; those two fields are extra, shared with the general page's record. |
| Daily.Add | dashboard.py:90 | Adding a deal keeps the buckets in strictly increasing day order, each non-empty with no more won deals than deals. |
| Daily.AddDays | dashboard.py:90 | Adding a deal adds exactly its day to the bucketed days. |
| Daily.AddCounts | dashboard.py:90 | Adding a deal raises exactly its day's count by one, and that day's won count by one if it is won. |
| Daily.DaysMembers | dashboard.py:90 | A day is bucketed exactly when some bucket carries it. |
| Daily.DaysHaveDeals | dashboard.py:90 | A day has a bucket exactly when its count is positive. |
| Daily.BucketCounts | dashboard.py:182-185 | Each bucket's fields are the counts of its own day. |
| Daily.NoBucketNoCount | dashboard.py:90 | A day before every bucket counts no deals. |
| Daily.DailyBuckets | dashboard.py:90 | The groups come in strictly increasing day order. Each holds at least one deal and no more won deals than deals. |
| Daily.DailyBucketsCount | dashboard.py:207-211 | Each day's count is the number of deals created that day, and its won count the won ones among them. The counts add up to the deals with a parseable date, and a day has a group exactly when it has a deal. |
| Daily.DailyBucketsContents | dashboard.py:182-185 | Each group's count and won count are those of the deals created on its day. |
| Rolling.RollingMean | dashboard.py:91 | There is one rolling value per observation. The window contents are stated by `Rolling.TrailingThree`, `Rolling.TrailingThreeFromOne` and `Rolling.RollingMeanOnline`. |
| Rolling.RollingMeanOnline | dashboard.py:212 | Computing the rolling mean with a running sum gives the reference rolling mean. |
| Rolling.TrailingThree | dashboard.py:91 | `rolling(window=3)` is missing for the first two days and is then the mean of the day and the two days before it. |
| Rolling.TrailingThreeFromOne | dashboard.py:212 | `rolling(window=3, min_periods=1)` is always present. It is the first count, then the mean of the first two, then the mean of the last three including the current day. |
| Rolling.RollingBounds | dashboard.py:188 | Every present rolling mean lies within the bounds of the observations. |
| Rolling.TrailingThreeExample | dashboard.py:91 | Counts 5, 7, 9, 6 give missing, missing, 7 and 22/3. |
| Views.Trend | dashboard.py:90-91 | There is one chart point per bucket, with its day and count. The average is missing for the first two points, then the mean of three consecutive counts. |
| Views.TrendCounts | dashboard.py:90 | Chart days strictly increase, and each point counts the deals of its day, at least one. |
| Views.TrendDays | dashboard.py:90 | The chart has a point exactly for each day with a dated deal. |
| Views.OverviewOf | dashboard.py:56-91 | The page falls back exactly when no deal is in range, and then shows the metrics and trend of all deals. Otherwise it shows the metrics and trend of exactly the in-range deals, which are at least one. |
| Views.OverviewWonInRange | dashboard.py:68 | Within the range, the won count is the number of won deals created in the range. |
| Views.OverviewTrendInRange | dashboard.py:90 | Within the range, every charted day lies between the two dates. |
| Views.TrendWithinRange | dashboard.py:90 | The trend of in-range deals charts only days of the range. |
| Views.DaysWithinRange | dashboard.py:56-59 | Any day holding an in-range deal lies between the start and end days. |
| Views.DayWithin | dashboard.py:56-59 | A timestamp between two midnights falls on a day between them. |
| Views.Ratios | dashboard.py:187 | Each day's conversion lies in [0, 1], and times the day's deals it equals the won deals. |
| Views.ConversionSeries | dashboard.py:181-188 | There is one point per day with its deals and won deals. The ratio lies in [0, 1]. The average is missing for two points, then the mean of three ratios. |
| Views.ConversionAverageBounds | dashboard.py:188 | The moving average of the conversion stays in [0, 1]. |
| Views.ManagerView | dashboard.py:126-188 | The page stops exactly when the manager has no deal. Otherwise it falls back exactly when none of the manager's deals is in range. Its metrics and daily conversion series are those of the manager's in-range deals, or of all the manager's deals after a fallback. |
| Views.DailyCountsCoverDatedDeals | dashboard.py:207-211 | The forecast page's per-day counts add up to the number of deals whose creation date parses: dropping the unparseable dates loses no other deal. |
| Views.ForecastSeries | dashboard.py:211-212 | There is one forecast point per day. The forecast is the first count, then the mean of the first two, then the mean of the last three. |
| Views.ForecastOf | dashboard.py:205-216 | The warning fires exactly when there are at least two days and the last count is below its forecast. |
| Views.AnomalyOnChart | dashboard.py:215 | The warning computed on the counts is the one read off the chart. |
| Views.AnomalyBelowRecent | dashboard.py:212-215 | The warning fires exactly when the last count is below the one before it (two days), or below the mean of the two before it (three or more days). |
| Views.AnomalyExampleDrop | dashboard.py:212-215 | For counts 10, 10, 10, 4 the last forecast is 8 and the warning fires. |
| Views.AnomalyExampleRise | dashboard.py:212-215 | For counts 10, 10, 10, 12 the warning does not fire. |

## Left out

- **HTTP fetches and `.env` configuration.** The two payloads are parameters
  (`Slot` values). A payload that is not JSON, or a network failure, is outside
  the model.
- **`async` session handling and concurrency.** A run is one atomic step: the
  commit either stores the whole batch or nothing.
- **Python's `int()` and `float()`.** They are abstract functions (`Coercions`).
  `Pythonic` states the only facts used: they map a stored integer or float to
  itself and reject null.
- **pandas `to_datetime(errors='coerce')` and `tz_localize(None)`.** They are an
  abstract `Reader`. Timestamps are whole seconds, and a day is
  `timestamp / 86400`.
- **SQLAlchemy column types and SQLite type affinity.** Stored values keep the
  type they arrived with.
- Sync.Commit: a commit fails only on a repeated primary key. It does not model
  SQLite rejecting an `int()` result outside 64 bits (`OverflowError`), nor
  SQLAlchemy's `Boolean` type rejecting an `ADMIN` value that is not a boolean
  (`TypeError`). Both also abort the commit and write nothing.
- **Row order of `SELECT * FROM deals`.** It is taken as given, in the order of
  the `seq`.
- **The date-picker defaults.** The minimum and maximum dates are not modelled;
  the start and end days are parameters.
- **The fixed `manager_dict` name table.** The chosen manager id is a parameter.
- **Streamlit rendering, charts, captions and warnings.** Only the data a page
  shows is modelled: its selection, metrics and series.
- **Other parts of the repository.** The FastAPI facade (`main.py`), the
  database setup (`database.py`, `debug_db.py`), and the CSV, PDF and Telegram
  forms of the dashboard are not part of this model.
- **Floating point.** Means and ratios are exact reals, and NaN appears only as
  the unknown time to close.
- Sync.NormalizeDeal: `float()` of the `OPPORTUNITY` value can give NaN or
  ±infinity, which `Coercions.toFloat` cannot return. A NaN is stored as NULL
  and then skipped by the average deal, and an infinity makes the average
  infinite. The model's stored amounts are always finite numbers, so these
  cases are not covered.
- Metrics.Conversion: the value is the percentage before `round(…, 1)`. The
  product identity and the two exact ends (0 exactly when nothing is won, 100
  exactly when all are won) hold for that unrounded value only. The number the
  page shows keeps just the [0, 100] bounds: 1 won of 2001 shows 0.0, and
  2000 won of 2001 shows 100.0. Decimal rounding of a binary float is not
  modelled.
- Metrics.TimeToClose: the value is the mean before the display's `int(…)`
  truncation. Its value is stated by `Metrics.TimeToCloseIsMeanDays`.
- Metrics.AverageOpportunity: the function only promises 0 when no value is
  known. Its value is stated by `Metrics.AverageOpportunityIsMean`, its bounds
  by `Metrics.AverageOpportunityBounds`, and the fact that an unknown value
  does not move it by `Metrics.AverageIgnoresUnknown`.
- Rolling.RollingMean: its own contract gives only the length. The window
  contents are stated by `Rolling.TrailingThree`, `Rolling.TrailingThreeFromOne`
  and `Rolling.RollingMeanOnline`.
