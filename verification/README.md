# Aadhaar update-data cleaner and demand forecaster, modelled in Dafny

This project models the computational core of an analysis pipeline for
Aadhaar enrolment, biometric-update and demographic-update records.

- **The state-name canonicaliser.** `clean_state_name` maps a free-text state
  label to a canonical state or union-territory name, or to `"Unknown"`. It
  works through an ordered cascade over the `STATE_MAPPING` and
  `CITY_TO_STATE` tables.
- **The dataset cleaner.** `clean_dataframe` canonicalises every row's state
  and drops the `"Unknown"` rows. It then drops exact duplicates, keeping the
  first, and fills missing counts with 0. The pincode is never filled.
- **The demand forecaster's arithmetic.**
  - `prepare_time_series` builds the daily series.
  - `simple_forecast` computes a moving-average base scaled by a weekday
    factor, with noise, a clamp at 0 and a ±20 % band.
  - `create_state_predictions` computes the per-state mean over the last 30
    days and multiplies it by 30 for the monthly figure.

## Modules

| file | module | contents |
|---|---|---|
| common.dfy | `Common` | `Option`, `Result` |
| text.dfy | `Text` | ASCII lower-casing, `strip`, whitespace collapsing, `isdigit`, `title`, substring search, string order; normalisation lemmas |
| assoc.dfy | `Assoc` | an ordered table of `(key, value)` pairs with Python-dict lookup and the first-related-entry search, each with a recursive reference scan |
| state_tables.dfy | `StateTables` | `STATE_MAPPING`, `CITY_TO_STATE`, the list of canonical names, `"Unknown"` |
| canonicalizer.dfy | `Canonicalizer` | `Resolve`, `CleanStateName` and their laws |
| canonical_facts.dfy | `CanonicalFacts` | every canonical name is a fixed point; worked examples |
| sequences.dfy | `Sequences` | order-preserving subsequences, `Filter`, `Count`, first occurrences, `DropDuplicates`, and `Flatten` (the block concatenation of `pd.concat`) |
| cleaner.dfy | `Cleaner` | `clean_dataframe` as a pipeline over records |
| grouping.dfy | `Grouping` | a sorted group-by-key with sums and counts (pandas `groupby`) |
| forecaster.dfy | `Forecaster` | `prepare_time_series`, `simple_forecast` |
| state_predictions.dfy | `StatePredictions` | `create_state_predictions` |

## Modelling choices

- **Strings.** Strings are ASCII `seq<char>`.
  - Whitespace is the ASCII part of Python's `\s`.
  - `title` upper-cases a letter that follows a non-letter and lower-cases
    every other letter.
  - A missing cell (`None`/NaN) is `None`.
- **Tables.** Both tables are ordered sequences of pairs, because a Python
  dict iterates in insertion order.
  - The substring fallback scans `STATE_MAPPING` in that order.
  - The literal repeats the key `'jammu and kashmir'` with the same value.
    The dict keeps that key at its first position, so it appears once.
- **Dates and values.** Dates are day numbers, with day 0 = 1970-01-01, a
  Thursday. `DayOfWeek(d) = (d + 3) % 7` is pandas' `dayofweek`, where Monday
  is 0. Totals are exact `real`s.
- **Noise.** The `np.random.normal(0, base * 0.05)` draws are given as
  standard-normal values `draws[i]`, so the noise is `base * 0.05 * draws[i]`.
- **Grouping.** Pandas `groupby` sorts its keys. `Grouping.GroupBy` keeps
  its groups ascending under a strict total order that the caller passes in.
- **The source's error paths are kept.**
  - `SimpleForecast` returns `Failure` where the source raises: an empty
    history has no last date, and `forecast_days < 0` is rejected.
  - `CreateStatePredictions` returns `Failure` for an empty list of
    datasets, where `pd.concat` raises on an empty list of tables.
  - Daily totals are sums of counts, so the forecaster takes non-negative
    totals. The base is then never negative, so the noise scale is always
    valid (`BaseNonNegative`).
  - With non-negative totals, weekday means whose mean is 0 are all 0, so a
    present weekday's factor is 0 / 0. The resulting NaN makes `max(0, NaN)`
    return 0, and `Factor` returns `None` for it (`ZeroNormaliserFactor`).
  - `create_state_predictions` on a dataset without rows predicts nothing,
    because comparing with the missing maximum date is false.
  - The "daily average" of a state is the mean of its recent rows' totals,
    as `groupby('state')['total'].mean()` computes it. It is not a sum
    divided by the number of days.
- **`clean_dataframe` does not recompute `total`.** Recomputing the `total`
  column is not part of `clean_dataframe` at
  comprehensive_data_cleaning.py:223-252, so the model leaves every column
  except `state` and the filled counts untouched.
- **Documented quirks, proved as they are.**
  - A blank label resolves to "Andaman & Nicobar Islands" (`CleanBlank`).
  - The short key `'ap'` is contained in "mapusa", so the Goan town Mapusa
    resolves to "Andhra Pradesh" (`MapusaIsAndhraPradesh`).
  - The key `'west  bengal'`, which has two blanks, can never match exactly
    (`NonNormalKeyUnreachable`).

## Model

| member | source | states |
|---|---|---|
| Assoc.Lookup | comprehensive_data_cleaning.py:204-205 | dict lookup: a value exactly when the key is present, and the pair is in the table |
| Assoc.LookupIsScan | comprehensive_data_cleaning.py:204-205 | the lookup equals a first-match scan from the front, so duplicated keys keep the first entry |
| Assoc.FirstRelated | comprehensive_data_cleaning.py:216-218 | the fallback finds a value exactly when some key contains the label or is contained in it, and that value belongs to such a key |
| Assoc.FirstRelatedIsScan | comprehensive_data_cleaning.py:216-218 | the fallback equals the in-order loop that returns at the first related key |
| Text.NormalizeIsNormal | comprehensive_data_cleaning.py:197-201 | the normal form is lower-case, has no leading or trailing whitespace, and no whitespace but single blanks |
| Text.NormalFixedIff | comprehensive_data_cleaning.py:197-201 | normalisation is idempotent, and fixes exactly the lower-case, trimmed, single-spaced strings |
| Text.NormalizeRun | comprehensive_data_cleaning.py:200-201 | any internal whitespace run normalises like a single blank |
| Text.NormalizePadding | comprehensive_data_cleaning.py:197-198 | leading and trailing whitespace is ignored by normalisation |
| Text.TitleKeepsText | comprehensive_data_cleaning.py:221 | title-casing keeps the length and every non-letter, and changes letters only in case |
| Text.TitleIdempotent | comprehensive_data_cleaning.py:220-221 | title-casing twice is title-casing once |
| Canonicalizer.TablesShape | comprehensive_data_cleaning.py:13-190 | STATE_MAPPING has 90 entries and CITY_TO_STATE 10; every key of both starts with a letter, and every value is a canonical name |
| Canonicalizer.Resolve | comprehensive_data_cleaning.py:203-218 | the cascade gives "Unknown" or a canonical name; all-digit text gives "Unknown"; it finds nothing exactly when every step misses |
| Canonicalizer.CleanStateName | comprehensive_data_cleaning.py:192-221 | a missing label is "Unknown"; every result is "Unknown", a canonical name, or the stripped original in title case |
| Canonicalizer.CleanDigits | comprehensive_data_cleaning.py:211-213 | a label whose normal form is all digits cleans to "Unknown" |
| Canonicalizer.CleanAlias | comprehensive_data_cleaning.py:203-205 | an exact STATE_MAPPING key gives the value of its first entry |
| Canonicalizer.CleanCity | comprehensive_data_cleaning.py:207-209 | CITY_TO_STATE decides only when STATE_MAPPING has no exact key |
| Canonicalizer.CleanFallback | comprehensive_data_cleaning.py:215-218 | when no exact key matches and the label is not numeric, the first related STATE_MAPPING entry in table order decides |
| Canonicalizer.CleanUnmatched | comprehensive_data_cleaning.py:220-221 | an unmatched label comes back as the stripped original in title case, not as its normal form |
| Canonicalizer.CleanIgnoresCase | comprehensive_data_cleaning.py:192-221 | labels equal up to case clean to the same result, on every path |
| Canonicalizer.CleanIgnoresPadding | comprehensive_data_cleaning.py:197-221 | surrounding whitespace never changes the result |
| Canonicalizer.CleanIgnoresRuns | comprehensive_data_cleaning.py:200-213 | an internal whitespace run reads as one blank whenever a table or the digit check resolves the label |
| Canonicalizer.CleanBlank | comprehensive_data_cleaning.py:215-218 | a blank or whitespace-only label resolves to "Andaman & Nicobar Islands" |
| Canonicalizer.NonNormalKeyUnreachable | comprehensive_data_cleaning.py:172 | no label normalises to the two-blank key 'west  bengal' |
| CanonicalFacts.CanonicalNamesFixed | comprehensive_data_cleaning.py:13-176 | every canonical name cleans to itself |
| CanonicalFacts.DadraFixed | comprehensive_data_cleaning.py:48 | the merged territory's name cleans to itself |
| CanonicalFacts.DadraNoKey | comprehensive_data_cleaning.py:13-189 | its normal form is no STATE_MAPPING or CITY_TO_STATE key and is not numeric |
| CanonicalFacts.DadraFirstRelated | comprehensive_data_cleaning.py:48 | the first related STATE_MAPPING entry gives "Dadra & Nagar Haveli and Daman & Diu" |
| CanonicalFacts.UnknownNotCanonical | comprehensive_data_cleaning.py:13-176 | "Unknown" is not a canonical name |
| CanonicalFacts.OrissaIsOdisha | comprehensive_data_cleaning.py:127 | 'ORISSA' cleans to "Odisha" |
| CanonicalFacts.JkIsJammuKashmir | comprehensive_data_cleaning.py:82 | ' J&K ' cleans to "Jammu & Kashmir" |
| CanonicalFacts.NagpurIsMaharashtra | comprehensive_data_cleaning.py:186 | 'Nagpur' cleans to "Maharashtra" |
| CanonicalFacts.NagpurKeys | comprehensive_data_cleaning.py:186 | 'nagpur' is no STATE_MAPPING key, and its first CITY_TO_STATE entry, the seventh, gives "Maharashtra" |
| CanonicalFacts.NumberIsUnknown | comprehensive_data_cleaning.py:211-213 | '12345' cleans to "Unknown" |
| CanonicalFacts.MapusaIsAndhraPradesh | comprehensive_data_cleaning.py:23 | 'Mapusa' cleans to "Andhra Pradesh" |
| CanonicalFacts.MapusaNoKey | comprehensive_data_cleaning.py:13-189 | 'mapusa' is no key of either table and is not numeric |
| CanonicalFacts.MapusaSearch | comprehensive_data_cleaning.py:23 | the first STATE_MAPPING entry related to 'mapusa' (the key 'ap') gives "Andhra Pradesh" |
| CanonicalFacts.PradeshIsAndhraPradesh | comprehensive_data_cleaning.py:215-218 | 'Pradesh' cleans to "Andhra Pradesh" |
| CanonicalFacts.PradeshSearch | comprehensive_data_cleaning.py:215-218 | the first STATE_MAPPING entry related to 'pradesh' (the first key, 'andhra pradesh') gives "Andhra Pradesh" |
| Sequences.FirstOccurrences | comprehensive_data_cleaning.py:241 | dropping duplicates keeps exactly the values of the input: every kept row is an input row and every input row is kept |
| Sequences.FirstOccurrencesKeepFirst | comprehensive_data_cleaning.py:241 | keep='first': the kept rows come in the order of their first occurrences in the input |
| Sequences.FirstOccurrencesNoDuplicates | comprehensive_data_cleaning.py:241 | no row is kept twice |
| Sequences.FirstOccurrencesKeepsAll | comprehensive_data_cleaning.py:240-242 | dropping duplicates removes nothing exactly when no row repeats |
| Sequences.FirstOccurrencesIdempotent | comprehensive_data_cleaning.py:241 | dropping duplicates twice is dropping them once |
| Sequences.DropDuplicates | comprehensive_data_cleaning.py:241 | the loop with a seen-set keeps the first occurrence of each row, in order |
| Cleaner.CleanStates | comprehensive_data_cleaning.py:230 | only the state column changes, and each state becomes "Unknown", canonical, or the title-cased original |
| Cleaner.DropUnknown | comprehensive_data_cleaning.py:234-237 | the result is an order-preserving subsequence without "Unknown" rows; every other row stays; the count removed is the number of "Unknown" rows |
| Cleaner.FillRow | comprehensive_data_cleaning.py:244-248 | missing counts become 0, present counts and the pincode are unchanged |
| Cleaner.Survivors | comprehensive_data_cleaning.py:230-241 | the surviving rows are an order-preserving subsequence of the canonicalised rows, without repeats and without "Unknown" |
| Cleaner.FillMissing | comprehensive_data_cleaning.py:244-248 | one row per input row, each the input row filled, and no count left missing |
| Cleaner.CleanFrame | comprehensive_data_cleaning.py:223-252 | original rows = unknown removed + duplicates removed + final rows; no final row is "Unknown"; every count is filled |
| Cleaner.UnknownCount | comprehensive_data_cleaning.py:234 | the unknown count is the number of rows whose label cleans to "Unknown" |
| Cleaner.KnownRowsKept | comprehensive_data_cleaning.py:229-248 | every row whose label is recognised reaches the output, canonicalised and filled |
| Cleaner.DuplicatesReported | comprehensive_data_cleaning.py:240-242 | duplicates are reported exactly when the recognised rows repeat |
| Cleaner.CleanFrameOfCanonical | comprehensive_data_cleaning.py:223-252 | a canonical, distinct, filled frame comes back unchanged with nothing removed |
| Cleaner.FillAfterDedup | comprehensive_data_cleaning.py:239-248 | a row with a canonical label and a missing count, followed by its copy with a zero count, is not a duplicate: both rows survive and the fill makes them identical |
| Grouping.GroupBy | ml_models/demand_forecaster.py:66 | at most one group per row, and some group whenever there is a row |
| Grouping.GroupByAscending | ml_models/demand_forecaster.py:66 | the groups come out in strictly ascending key order, as groupby sorts them |
| Grouping.GroupByContents | ml_models/demand_forecaster.py:66 | each group's sum and count are those of its key's rows, and a group exists exactly when the key has a row |
| Grouping.GroupByTotal | ml_models/demand_forecaster.py:66 | grouping keeps the grand total |
| Forecaster.PrepareTimeSeries | ml_models/demand_forecaster.py:61-70 | the series is strictly ascending in date and no longer than the input; a non-empty input gives a non-empty series |
| Forecaster.PrepareTimeSeriesContents | ml_models/demand_forecaster.py:66-67 | a date is in the series exactly when some row has it, and its value is the sum of that date's totals |
| Forecaster.PrepareTimeSeriesTotal | ml_models/demand_forecaster.py:66 | the series' total equals the rows' grand total |
| Forecaster.BaseNonNegative | ml_models/demand_forecaster.py:100-119 | non-negative totals give a non-negative base, so the noise scale base * 0.05 is valid |
| Forecaster.BaseOfConstant | ml_models/demand_forecaster.py:100-104 | a constant series has that constant as base |
| Forecaster.BaseBounds | ml_models/demand_forecaster.py:100-104 | the base lies between the smallest and largest of the last 30 values |
| Forecaster.DayOfWeek | ml_models/demand_forecaster.py:107 | the weekday is always one of the seven values 0 to 6 |
| Forecaster.LastDate | ml_models/demand_forecaster.py:112 | the last date is a date of the series and no series date is later |
| Forecaster.FactorNonNegative | ml_models/demand_forecaster.py:107-117 | for non-negative totals every factor that is a number is non-negative |
| Forecaster.ZeroNormaliserFactor | ml_models/demand_forecaster.py:107-109 | when the weekday means average 0, a present weekday's mean is 0 and its factor is NaN |
| Forecaster.FactorsAverageOne | ml_models/demand_forecaster.py:107-109 | the normalised factors of the weekdays present average to 1 |
| Forecaster.PresentWeekdayFactor | ml_models/demand_forecaster.py:107-109 | a present weekday's factor is its mean over the mean of the means |
| Forecaster.AbsentWeekdayFactor | ml_models/demand_forecaster.py:117 | a weekday absent from the history gets factor 1.0 |
| Forecaster.ForecastValue | ml_models/demand_forecaster.py:116-121 | the forecast is never negative; it is 0 or base·factor plus the noise; it is 0 for a NaN factor |
| Forecaster.ZeroDrawForecast | ml_models/demand_forecaster.py:116-121 | without noise the forecast is max(0, base·factor) |
| Forecaster.ForecastAt | ml_models/demand_forecaster.py:112-128 | for non-negative totals, row i is dated last + 1 + i, its forecast is max(0, base·factor + noise) for that date's weekday, and lower = 0.8·forecast ≥ 0, upper = 1.2·forecast |
| Forecaster.SimpleForecast | ml_models/demand_forecaster.py:95-130 | for non-negative totals, succeeds exactly when the history is non-empty and days ≥ 0; then it gives exactly `days` rows on contiguous dates with bounds 0.8 f and 1.2 f, row i being the forecast `ForecastAt` gives for day i |
| Forecaster.FlatSeriesForecast | ml_models/demand_forecaster.py:95-130 | a flat non-negative history without noise forecasts that constant on every day |
| Forecaster.ForecastWeekly | ml_models/demand_forecaster.py:112-121 | in a successful forecast, row i + 1 falls on the weekday after row i's, and rows a week apart with equal draws forecast the same value |
| StatePredictions.MaxDate | ml_models/demand_forecaster.py:219 | the latest date is missing exactly for no rows, bounds every date and is attained |
| StatePredictions.Recent | ml_models/demand_forecaster.py:219-220 | the window is the mask selection with cutoff max − 30 days: an order-preserving subsequence of the rows holding exactly as many rows as are dated on or after the cutoff, repeats included |
| StatePredictions.RecentRows | ml_models/demand_forecaster.py:219-220 | a row is recent exactly when it is a dataset row dated at most 30 days before the latest date; only a dataset without rows has no recent rows |
| StatePredictions.OnOrAfter | ml_models/demand_forecaster.py:220 | the selected rows are on or after the cutoff, and every such row is selected |
| StatePredictions.OnOrAfterIsFilter | ml_models/demand_forecaster.py:220 | the selection equals the order-preserving filter with the mask `date >= cutoff`: a subsequence of the rows whose length is the number of qualifying rows, so repeated rows are all kept |
| StatePredictions.PredictionOf | ml_models/demand_forecaster.py:222-225 | the daily average times the row count is the sum; the monthly figure is 30 daily averages |
| StatePredictions.PredictFor | ml_models/demand_forecaster.py:215-225 | one prediction per recent group, in ascending state order |
| StatePredictions.PredictionPresent | ml_models/demand_forecaster.py:220-222 | a state is predicted exactly when it has a row in the window |
| StatePredictions.PredictionMean | ml_models/demand_forecaster.py:222-225 | each daily average is the mean of that state's recent totals, and the monthly figure is 30 times it |
| StatePredictions.OnlyRecentRowsMatter | ml_models/demand_forecaster.py:219-220 | rows older than the window never change the predictions |
| StatePredictions.OnOrAfterMax | ml_models/demand_forecaster.py:219-220 | the window keeps the latest date |
| StatePredictions.NoRowsNoPredictions | ml_models/demand_forecaster.py:219-220 | a dataset without rows predicts nothing |
| StatePredictions.Tables | ml_models/demand_forecaster.py:213-226 | one table per dataset, in dataset order, each that dataset's predictions |
| StatePredictions.CreateStatePredictions | ml_models/demand_forecaster.py:213-229 | fails exactly for an empty list of datasets, as `pd.concat([])` raises; otherwise the combined table is as long as all the per-dataset tables together |
| StatePredictions.CreateStatePredictionsBlocks | ml_models/demand_forecaster.py:226-229 | dataset k's predictions appear, unchanged and contiguous, right after those of the datasets before it |
| StatePredictions.CreateStatePredictionsCovered | ml_models/demand_forecaster.py:226-229 | every combined prediction lies in the block of some dataset |
| Sequences.FlattenBlock | ml_models/demand_forecaster.py:229 | concatenation places each block at the total length of the blocks before it |
| Sequences.FlattenMember | ml_models/demand_forecaster.py:229 | every element of the concatenation comes from one of the blocks |
| StatePredictions.CreateStatePredictionsLabels | ml_models/demand_forecaster.py:224-229 | every combined prediction carries the name of one of the datasets |

## Left out

- The CSV and glob loaders, `print_state_summary`, all printing and plotting, pickling, `to_csv`, and `main`. They are I/O.
- `create_features` and `train_demand_model`. `simple_forecast` never uses the features, and the training is plotting and printing around the forecast.
- `dashboard.py`, `master_analysis.py`, `generate_report.py`, `verify_models.py` and `ml_models/anomaly_detector.py` are not part of this model. They are UI, charts, report layout, or calls into sklearn.
- Floating point. Values are exact reals, so rounding, overflow and NaN totals are not modelled.
- Random numbers. The normal draws are a parameter of `SimpleForecast`.
- Date parsing. `pd.to_datetime(..., dayfirst=True)` is replaced by day numbers given as input.
- Unicode. Lower-casing, `isdigit` and `\s` are modelled on ASCII only.
- `str(state)` of a non-string label is not modelled. A label is a string or missing.
- Column typing. The model cannot tell which columns `select_dtypes` reports as numeric. The numeric columns are the record's `measures` plus `pincode`, and the text columns other than `state` are `labels`.
- Forecaster.Factor: it requires non-negative totals, as sums of counts are. With totals of mixed sign the weekday means can average 0 without all being 0, and the source then gives factors of ±inf; those are not modelled.
- Forecaster.ForecastAt: it requires non-negative totals, for the reason given for `Factor`.
- Forecaster.SimpleForecast: it requires non-negative totals, for the reason given for `Factor`; a negative base, which makes `np.random.normal` raise, therefore does not arise.
- Forecaster.SimpleForecast: it requires at least `days` draws. The source draws one value per forecast day from a global generator.
- StatePredictions.CreateStatePredictions: it takes any non-empty list of named datasets. The source always passes the same three.
