# Earned-wage-access risk scoring: a verified model

This project models the deterministic core of a small earned-wage-access (EWA)
risk-scoring repository. It has three parts.

- **The synthetic data generator** (`data/synthetic_data.py`):
  - It simulates 90 days of transactions per employee from 2025-06-01. Each day
    has a payday deposit, a clamped spend, an optional EWA advance, a same-day
    repayment, and a running balance.
  - It groups the transactions by employee and sorts each group by date.
  - It reduces each group to one feature row: rolling spend means, velocity,
    days to payday, the month-end flag, income/expense and repayment ratios, the
    necessity/discretionary split, balance trend, EWA count and total, and the
    `ewa_next15` label.
- **The scoring service** (`app.py`): the twelve-field `Employee` request, the
  one-row frame handed to the classifier, and the tiering of the classifier's
  probability into `low`/`medium`/`high`.
- **The training schema step** (`train/train_model.py`): choosing the target
  column, splitting it and `employee_id` off the features, and the numeric and
  categorical column lists of the preprocessor.

Every random draw is a parameter: `DayDraw` holds one day's draws and
`EmployeeDraws` one employee's. The classifier is a parameter too (`Row -> real`).
Money is exact `real`. pandas' NaN is `Option<real>`'s `None`.

The generator's three loops (lines 26, 32 and 68) are imperative methods. Each
is proved equal to a recursive specification function:
- `SimulateTransactions` to `AllRecords`;
- `SimulateEmployee` to `History`/`Run`;
- `BuildFeatureTable` to `Groups`/`BuildFeatures`.

The properties are lemmas about those functions. The training frame is a class
whose `Pop` removes a column in place.

Files and modules:
- `wrappers.dfy`: `Option`, `Result`.
- `reductions.dfy`: sums, means, pandas' `rolling`/`diff`, and the days-to-payday formula.
- `calendar.dfy`: Gregorian dates, `2025-06-01 + k`, and month ends.
- `employees.dfy`: the employee profile and the `E{i:05d}` id format.
- `simulation.dfy`: the day step and the simulation loops.
- `summary.dfy`: whole-history aggregates and the label.
- `featuretable.dfy`: the feature row, the date sort, and the group-by loop.
- `service.dfy`: the request, the tiers, and `predict`.
- `training.dfy`: the target/feature split and the column lists.

## Model

| member | source | states |
|---|---|---|
| Employees.ParseFormatId | data/synthetic_data.py:15 | `E{i:05d}` parses back to `i`: the id format is a faithful encoding of the index |
| Employees.FormatIdInjective | data/synthetic_data.py:15 | distinct indices give distinct employee ids |
| Employees.FormatIdLength | data/synthetic_data.py:15 | below 100000 every id is exactly six characters, `E` plus five digits |
| Employees.FormatIdOrdered | data/synthetic_data.py:15 | for indices below 100000, a smaller index gives a lexicographically smaller id, so `groupby` visits employees in generation order |
| Calendar.NextDay | data/synthetic_data.py:33 | the next calendar day is valid and later, and it is the 1st exactly when the day before was a month end |
| Calendar.AddDaysAdditive | data/synthetic_data.py:33 | adding `a + b` days is adding `a` then `b` |
| Calendar.AddDaysStrictlyIncreasing | data/synthetic_data.py:32-33 | later loop days get strictly later dates |
| Calendar.AddDaysWithinMonth | data/synthetic_data.py:33 | inside one month, adding days only moves the day of the month |
| Calendar.SimulatedPeriod | data/synthetic_data.py:33 | the 90 simulated dates are June 1-30, July 1-31 and August 1-29 of 2025; `is_month_end` holds exactly on loop days 29 and 60 |
| Simulation.DayRecordFacts | data/synthetic_data.py:35-51 | spend is `max(0, draw)`; the deposit is half the salary on the payday and 0 otherwise; with a draw of at least 100 the EWA amount is 0 iff no EWA was used; the EWA amount is the day's draw when EWA is used and 0 otherwise; a non-zero repayment happens only on the payday with EWA used, and it equals the EWA amount; conversely, on the payday with EWA used the repayment equals the EWA amount; the new balance is old + deposit − spend + EWA − repayment |
| Simulation.SimulateDay | data/synthetic_data.py:35-62 | one day's three in-place balance updates produce exactly the day record, and the running balance is the record's balance |
| Simulation.SimulateEmployee | data/synthetic_data.py:27-62 | the inner loop appends exactly `History` (one record per day, balance threaded through) and `prev_ewa_dates` is the dates of the EWA days, in order |
| Simulation.SimulateTransactions | data/synthetic_data.py:25-62 | the outer loop's `records` is every employee's history, concatenated in employee order |
| Simulation.RunShape | data/synthetic_data.py:32-62 | record `i` belongs to the employee and is dated `2025-06-01 + i`; dates strictly increase; with a non-negative salary and draws in range every record is well formed |
| Simulation.RunEntry | data/synthetic_data.py:42-51 | record `i` is the day step applied to the balance left by the records before it |
| Simulation.RunPrefix | data/synthetic_data.py:32-52 | simulating the first `k` days gives the first `k` records of the full run |
| Simulation.RunBalanceConserved | data/synthetic_data.py:42-51 | the closing balance is the opening balance plus deposits minus spends plus EWA amounts minus repayments |
| Summary.EwaDatesCount | data/synthetic_data.py:46-47 | `prev_ewa_dates` has exactly `ewa_count` entries, and a date is in it iff some record of that date used EWA |
| Reductions.SumConcat | data/synthetic_data.py:80-91 | a column sum over a concatenation is the sum of the parts |
| Reductions.RollingAtLast | data/synthetic_data.py:71-73 | at the last row, the `W`-row rolling mean is the mean of the last `W` spends when there are at least `W` rows, and NaN otherwise |
| Reductions.DiffTelescopes | data/synthetic_data.py:75 | the day-over-day differences over rows `a..b-1` are all defined (for `a ≥ 1`) and sum to `s[b-1] − s[a-1]` |
| Reductions.VelocityAtLast | data/synthetic_data.py:75 | spend velocity at the last row is defined iff there are at least 8 rows, and it then equals `(spend[n-1] − spend[n-8]) / 7` |
| Reductions.DaysToPayday | data/synthetic_data.py:77 | `days_to_payday` lies in 0..7 and is 0 exactly when `(day − 1) % 15 == 0` |
| Reductions.DaysToPaydayZeros | data/synthetic_data.py:77 | for days 1..31 the value is 0 exactly on days 1, 16 and 31; on day 15 it is 1 |
| Reductions.DaysToPaydaySymmetric | data/synthetic_data.py:77 | residues `r` and `15 − r` give the same value |
| Summary.SmoothedRatio | data/synthetic_data.py:82 | the ε-smoothed ratio is defined iff `den + 0.001 ≠ 0`; it then times `den + 0.001` gives back `num`; with non-negative inputs it is defined and non-negative |
| Summary.IncomeExpenseRatioDefined | data/synthetic_data.py:80-82 | on well-formed records the income/expense ratio is defined and non-negative |
| Summary.SpendPartition | data/synthetic_data.py:85-86 | necessity spend plus discretionary spend is total spend |
| Summary.CategorySpendBounds | data/synthetic_data.py:85-86 | with non-negative spends each category's spend lies between 0 and the total |
| Summary.BalanceTrendShortHistory | data/synthetic_data.py:88 | with at most 30 records both slices are the whole history, so the balance trend is exactly 0 |
| Summary.BalanceTrendOfRisingBalance | data/synthetic_data.py:88 | a balance that never falls has a non-negative trend |
| Summary.EwaCountAtMostLength | data/synthetic_data.py:90 | `ewa_count` is at most the number of records |
| Summary.EwaCountPositive | data/synthetic_data.py:90 | `ewa_count` is positive iff some record used EWA |
| Summary.EwaTotals | data/synthetic_data.py:45-51 | on well-formed records the EWA total lies between 100 and 500 times `ewa_count`, and the repaid total lies between 0 and the EWA total |
| Summary.RepaymentRateBounds | data/synthetic_data.py:92 | on well-formed records the repayment rate is defined and lies in [0, 1) |
| Summary.SampleVariance | data/synthetic_data.py:83 | the sample variance is defined iff there are at least two spends, and it is then non-negative |
| Summary.SampleVarianceOfConstant | data/synthetic_data.py:83 | a constant spend has variance 0 |
| Summary.EwaNext15 | data/synthetic_data.py:119 | the label is 0 or 1, and it is 1 iff some record among the last 15 used EWA |
| Summary.LabelWindowCount | data/synthetic_data.py:119 | the sum of `ewa_used` over the last 15 records is positive iff one of them used EWA |
| Summary.LabelImpliesEwaCount | data/synthetic_data.py:119 | a label of 1 forces `ewa_count ≥ 1`, because the feature window contains the label window |
| Summary.LabelLeaksIntoEwaCount | data/synthetic_data.py:90 | changing only the last record's `ewa_used` (inside the label window) changes `ewa_count` |
| FeatureTable.DateKeyOrder | data/synthetic_data.py:69 | the date sort key orders exactly as the calendar does |
| FeatureTable.InsertByDatePermutes | data/synthetic_data.py:69 | inserting a record keeps every record: the result is the old multiset plus the new record |
| FeatureTable.InsertByDateSorted | data/synthetic_data.py:69 | inserting into a date-sorted group keeps it sorted |
| FeatureTable.SortByDateSorts | data/synthetic_data.py:69 | `sort_values('date')` yields a group sorted by date |
| FeatureTable.SortByDatePermutes | data/synthetic_data.py:69 | the sort is a permutation of the group |
| FeatureTable.SortByDateOfSorted | data/synthetic_data.py:69 | a group already in date order is left unchanged |
| FeatureTable.HistorySorted | data/synthetic_data.py:69 | a simulated history is already in date order, so the sort leaves it as it is |
| FeatureTable.MakeRowRolling | data/synthetic_data.py:71-73 | the row keeps the employee id; the row's 3/7/30-row spend average is the mean of the group's last 3, 7 or 30 spends when the group has that many records, and NaN otherwise |
| FeatureTable.MakeRowVelocity | data/synthetic_data.py:75 | the row's velocity is `(spend[n-1] − spend[n-8]) / 7` when the group has at least 8 records, and NaN otherwise |
| FeatureTable.MakeRowCalendar | data/synthetic_data.py:77-78 | the row's `days_to_payday` is in 0..7 and is 0 exactly when the last date's `(day − 1) % 15` is 0; `is_month_end` is 0 or 1, and 1 exactly when the last date is the last day of its month |
| FeatureTable.MakeRowAggregates | data/synthetic_data.py:80-92 | the row's necessity and discretionary spends add up to the group's total spend, and `ewa_count` is at most the group size |
| FeatureTable.BuildFeaturesFacts | data/synthetic_data.py:68-120 | the whole row built from a group: the presence facts of the rolling columns, the calendar flags and the aggregates, on the date-sorted group, the label in {0, 1}, and a label of 1 forcing `ewa_count ≥ 1` |
| FeatureTable.Groups | data/synthetic_data.py:68 | `groupby` yields at most as many groups as employees, each non-empty and exactly the transactions of its key |
| FeatureTable.GroupKeysAreProfiles | data/synthetic_data.py:68 | every group's key is one of the employees |
| FeatureTable.GroupsComplete | data/synthetic_data.py:68 | every employee with transactions has a group holding exactly those transactions |
| FeatureTable.GroupsInKeyOrder | data/synthetic_data.py:68 | with ids in increasing order the group keys strictly increase, so no employee has two groups |
| FeatureTable.GeneratedIdsIncreasing | data/synthetic_data.py:15 | employees numbered `E{i:05d}` in generation order (at most 100000 of them) have increasing ids, which is what `BuildFeatureTable` requires |
| FeatureTable.BuildFeatureTable | data/synthetic_data.py:67-120 | the loop appends one feature row per group, in group order, each built from its group's sorted records |
| FeatureTable.AppendRow | data/synthetic_data.py:95 | `features.append` extends the table by exactly the next group's row |
| FeatureTable.GroupOfConcat | data/synthetic_data.py:68 | selecting one employee's records distributes over concatenation |
| FeatureTable.GroupOfAllRecords | data/synthetic_data.py:25-68 | with distinct ids, an employee's group in the simulated transactions is exactly that employee's simulated history |
| FeatureTable.GroupOfStranger | data/synthetic_data.py:25-68 | an id with no profile has no transactions |
| FeatureTable.AllRecordsHaveProfiles | data/synthetic_data.py:52-53 | every simulated transaction belongs to a generated employee |
| FeatureTable.GroupsOfSimulation | data/synthetic_data.py:25-69 | on a simulation with distinct ids there is one group per employee, in order, holding that employee's history |
| FeatureTable.FeatureTableOfSimulation | data/synthetic_data.py:25-120 | the generated table has one row per employee, in order, each computed from that employee's 90-day history |
| Service.RowOfRoundTrip | app.py:25 | the one-row frame holds all twelve fields under their names in declaration order, and reading it back gives the same request |
| Service.RowOfInjective | app.py:25 | distinct requests give distinct frames |
| Service.TierBands | app.py:27 | `high` iff p ≥ 0.6; `medium` iff 0.3 ≤ p < 0.6; `low` iff p < 0.3 |
| Service.TierExamples | app.py:27 | 0.29 → low, 0.30 → medium, 0.59 → medium, 0.60 → high |
| Service.TierMonotone | app.py:27 | a higher probability never gets a lower tier |
| Service.LabelNameInjective | app.py:27 | the three label strings are distinct |
| Service.Predict | app.py:23-28 | the response echoes the request's id; the score is the classifier's probability on the request's frame, unchanged; the label is exactly one of `high`/`medium`/`low`, by the cut points 0.6 and 0.3; every request reaches the classifier |
| Service.PredictScoreInRange | app.py:26 | a classifier returning probabilities gives a score in [0, 1] |
| Service.PredictDependsOnRowOnly | app.py:25-28 | two classifiers that agree on the request's frame give the same response |
| Training.WithoutMembers | train/train_model.py:18-19 | after removing labels, a column remains iff it was there and is not a removed label |
| Training.WithoutConcat | train/train_model.py:19 | removal acts column by column, so the kept columns stay in their original order |
| Training.WithoutAbsent | train/train_model.py:19 | removing labels that are absent changes nothing |
| Training.WithoutTwice | train/train_model.py:18-19 | popping one column and then dropping others is the same as removing all of them at once |
| Training.DropColumns | train/train_model.py:19 | `drop` fails iff some label is absent, and then it reports exactly the missing labels; otherwise it keeps exactly the other columns |
| Training.PopColumn | train/train_model.py:18 | `pop` fails with `KeyError([name])` iff the column is absent |
| Training.Frame.Pop | train/train_model.py:18 | the in-place pop removes the column and returns its name, or leaves the frame unchanged and raises `KeyError` |
| Training.Frame.SplitTargetFeatures | train/train_model.py:18-19 | the two lines on the frame give `SplitColumns` of the old columns; afterwards the frame has lost only the popped legacy label column |
| Training.SplitSucceeds | train/train_model.py:18-19 | the split succeeds iff `employee_id` is present with one of the two label columns; its target is `ewa_next15` whenever that column exists, and `label_request_next_cycle` otherwise |
| Training.SplitErrors | train/train_model.py:18-19 | with neither label column the `KeyError` names `label_request_next_cycle`; with a label but no `employee_id` it names `employee_id` |
| Training.SplitFeatures | train/train_model.py:18-19 | the features are the columns minus `employee_id` and the target, in order; neither of those two is a feature |
| Training.LegacyLabelKept | train/train_model.py:18-19 | with both label columns present, `label_request_next_cycle` stays among the features |
| Training.SplitOfGeneratedLayout | train/train_model.py:18-19 | a table that starts with `employee_id` and ends with `ewa_next15` splits into that label and exactly the columns between |
| Training.SplitOfOfflineTable | train/train_model.py:18-19 | on the generated table the target is `ewa_next15` and the features are the 21 columns between `employee_id` and it |
| Training.PreprocessorColumns | train/train_model.py:21-22 | `num_cols` and `cat_cols` are disjoint, and every name in them is a field of the request schema |
| Training.NumericColumnsNotGenerated | train/train_model.py:21 | `avg_withdraw_amount`, `avg_withdraw_pct_of_salary` and `last_withdraw_days_ago` are numeric columns that the generated table never writes |
| Calendar.AddDays | data/synthetic_data.py:33 | `2025-06-01 + timedelta(days=day)`: adding days one calendar day at a time always gives a valid date (its position is pinned by Calendar.SimulatedPeriod) |
| Calendar.IsMonthEnd | data/synthetic_data.py:78 | `dt.is_month_end`: the day is the last of its month under Gregorian month lengths (see Calendar.NextDay and Calendar.SimulatedPeriod) |
| Employees.FormatId | data/synthetic_data.py:15 | `f'E{i:05d}'`; its properties are Employees.ParseFormatId, Employees.FormatIdLength and Employees.FormatIdOrdered |
| Simulation.OpeningBalance | data/synthetic_data.py:29 | savings plus salary times the drawn factor; it is the starting point of Simulation.RunBalanceConserved |
| Simulation.DayRecord | data/synthetic_data.py:35-62 | one day's record from the balance before it; its properties are Simulation.DayRecordFacts |
| Simulation.Run | data/synthetic_data.py:32-62 | the inner loop as a function: one record per day draw; see Simulation.RunShape, Simulation.RunEntry and Simulation.RunBalanceConserved |
| Simulation.History | data/synthetic_data.py:27-62 | one employee's 90 records: `Run` from the opening balance with the employee's payday; one record per draw |
| Simulation.AllRecords | data/synthetic_data.py:25-62 | all histories in employee order, the specification of Simulation.SimulateTransactions |
| Simulation.EwaDates | data/synthetic_data.py:46-47 | the dates of the EWA days, in order; see Summary.EwaDatesCount |
| Reductions.Sum | data/synthetic_data.py:80-81 | pandas' `.sum()`; see Reductions.SumConcat and Reductions.SumNonNegative |
| Reductions.Mean | data/synthetic_data.py:88 | pandas' `.mean()` of a non-empty column; the reference for Reductions.RollingAtLast |
| Reductions.Head | data/synthetic_data.py:88 | `iloc[:30]`: the first `k` entries, or all when there are fewer |
| Reductions.Tail | data/synthetic_data.py:119 | `iloc[-k:]`: the last `k` entries, or all when there are fewer |
| Reductions.Rolling | data/synthetic_data.py:71-73 | `rolling(w).mean()`: one entry per row, NaN until a full window of defined values; its value at the last row is Reductions.RollingAtLast |
| Reductions.Diff | data/synthetic_data.py:75 | `diff()`: one entry per row, NaN at the first; see Reductions.DiffTelescopes |
| Summary.CategorySpend | data/synthetic_data.py:85-86 | the spend of one category; see Summary.SpendPartition and Summary.CategorySpendBounds |
| Summary.EwaCount | data/synthetic_data.py:90 | `ewa_used.sum()`; see Summary.EwaCountPositive and Summary.EwaCountAtMostLength |
| Summary.TotalIncome | data/synthetic_data.py:80 | `deposit.sum()`; see Simulation.RunBalanceConserved and Summary.IncomeExpenseRatioDefined |
| Summary.TotalSpend | data/synthetic_data.py:81 | `spend.sum()`; see Summary.SpendPartition and Summary.CategorySpendBounds |
| Summary.TotalRepaid | data/synthetic_data.py:92 | `repayment.sum()`; see Summary.EwaTotals, which puts it between 0 and the EWA total |
| Summary.EwaTotal | data/synthetic_data.py:91 | `ewa_amount.sum()`; see Summary.EwaTotals |
| Summary.BalanceTrend | data/synthetic_data.py:88 | mean of the last 30 balances minus mean of the first 30; see Summary.BalanceTrendShortHistory and Summary.BalanceTrendOfRisingBalance |
| Summary.IncomeExpenseRatio | data/synthetic_data.py:80-82 | total deposits over total spend plus 0.001; see Summary.SmoothedRatio and Summary.IncomeExpenseRatioDefined |
| Summary.RepaymentRate | data/synthetic_data.py:92 | total repaid over EWA total plus 0.001; see Summary.RepaymentRateBounds |
| FeatureTable.GroupOf | data/synthetic_data.py:68 | one employee's records in table order; see FeatureTable.GroupOfConcat and FeatureTable.GroupOfAllRecords |
| FeatureTable.SortByDate | data/synthetic_data.py:69 | `sort_values('date')`; see FeatureTable.SortByDateSorts, FeatureTable.SortByDatePermutes and FeatureTable.SortByDateOfSorted |
| FeatureTable.MakeRow | data/synthetic_data.py:95-120 | the feature dict of one sorted group; what its fields hold is FeatureTable.MakeRowRolling, FeatureTable.MakeRowVelocity, FeatureTable.MakeRowCalendar and FeatureTable.MakeRowAggregates |
| FeatureTable.BuildFeatures | data/synthetic_data.py:68-120 | one loop iteration: sort the group, then fill the row with the label of the sorted group; see FeatureTable.BuildFeaturesFacts |
| FeatureTable.OFFLINE_COLUMNS | data/synthetic_data.py:95-120 | the 23 keys of the feature dict in insertion order; used by Training.SplitOfOfflineTable |
| Service.EMPLOYEE_FIELDS | app.py:9-21 | the twelve field names of `Employee`, in declaration order |
| Service.RowOf | app.py:25 | `pd.DataFrame([emp.dict()])`: the frame's columns are the schema's fields and it has one cell per field; see Service.RowOfRoundTrip |
| Service.Tier | app.py:27 | the nested conditional on the probability; see Service.TierBands and Service.TierMonotone |
| Training.Frame.Drop | train/train_model.py:19 | `df.drop(labels, axis=1)` on the frame's columns; see Training.DropColumns and Training.Frame.SplitTargetFeatures |
| Training.Without | train/train_model.py:18-19 | removing labeled columns; see Training.WithoutMembers, Training.WithoutConcat and Training.WithoutAbsent |
| Training.Missing | train/train_model.py:19 | the labels that are absent, in the order asked: exactly those of `labels` not in the columns |
| Training.SplitColumns | train/train_model.py:18-19 | the split as a function; see Training.SplitSucceeds, Training.SplitErrors and Training.SplitFeatures |
| Training.ColumnsAfterSplit | train/train_model.py:18-19 | the frame's columns after the two lines: only the popped legacy label is gone; see Training.Frame.SplitTargetFeatures |
| Training.NUM_COLS | train/train_model.py:21 | `num_cols`; see Training.PreprocessorColumns and Training.NumericColumnsNotGenerated |
| Training.CAT_COLS | train/train_model.py:22 | `cat_cols`; see Training.PreprocessorColumns |

## Left out

- Random sampling and the global seed (data/synthetic_data.py:6,16-21,29-30,37,40,44-45). Every draw is a parameter, including the opening-balance factor and the payday. The model does not capture the fact that the EWA probability depends on `balance > 500`: that is a distribution, not a rule.
- The employee table's random columns (data/synthetic_data.py:16-21) are inputs (`Profile`); only the id format is modelled.
- Summary.SampleVariance: `spend_volatility` is `.std()`, a square root over floats. The model states the sample variance (divisor n − 1) without the root.
- Floating point: money and ratios are exact reals, so float rounding is not modelled.
- CSV writing and `print` (data/synthetic_data.py:122-124) and CSV reading (train/train_model.py:11) are I/O.
- Everything in train/train_model.py from line 24 on: imputers, scaling, one-hot encoding, the base and stacked classifiers, the train/test split, ROC AUC and `joblib.dump`. These are library calls whose behaviour is not visible here.
- FastAPI routing, pydantic parsing and `joblib.load` (app.py:1-7,23). The classifier is any function from a frame to a real. pydantic's coercion of JSON numbers is represented only by a float field accepting an integer cell.
- FeatureTable.BuildFeatureTable: `groupby('employee_id')` orders groups by id. The model visits the employee list in order and requires strictly increasing ids. FeatureTable.GeneratedIdsIncreasing shows that the generated ids (at most 100000 employees) satisfy this.
- FeatureTable.SortByDate: pandas' default date sort is not stable. The model sorts stably by insertion. Its dates are distinct (Simulation.RunShape), so the two sorts agree on simulated data.
- The training frame holds column labels only; column contents and `y`'s values are not modelled.
- The following are modelled as the code does them, although the source's own names and comments suggest otherwise (line 30 samples a payday of the 1st or the 15th, line 49 says "simulate next payday", line 118 says "next 15 days"), and are not corrected:
  - `days_to_payday` is 0 on days 1, 16 and 31 (not 15), and it ignores each employee's sampled payday.
  - The label window (last 15 records) lies inside the `ewa_count` window (Summary.LabelLeaksIntoEwaCount).
  - Repayment happens only for an advance taken on the payday itself.
  - `predict` has no validation or rejection path.
  - The training preprocessor selects three numeric columns that the generator never writes.
