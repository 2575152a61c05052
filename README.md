# Brazilian e-commerce analytics pipeline — a Dafny model of its business rules

This project models the rule-bearing core of an analytics pipeline over the
Brazilian e-commerce (Olist) tables: customers, orders, order items,
payments, reviews, products, sellers, category translations and geolocation.
The pipeline cleans the raw tables, validates and grades their quality,
derives features, and then runs three analyses: geographic market
expansion, seasonal demand, and payment operations. The model states each
stage's thresholds, bins, guarded ratios, imputations, deduplication and
key checks over sequences of records. It then proves what those rules
promise.

One Dafny module per pipeline stage:

- `Common`: optional cells (pandas NaN), operations that can raise (`Outcome`), floored day differences, the calendar fields of a timestamp (year, month, day, weekday, hour, quarter, ISO week), sums, means and percentages.
- `Stats`: stable sort, median, linear-interpolation quantiles, `rank(method='first')`, and the equal-count bins of `pd.qcut`.
- `Tables`: `drop_duplicates` keeping first occurrences, key sets, orphaned keys, and the six parent/child key relationships.
- `DataCleaning`: the `DataCleaner` class. It covers masked date imputation, category and dimension medians, payment repair, deduplication, translation merge, foreign keys and derived metrics.
- `Validation`: the `DataValidator` class, whose pass flag is only ever lowered. It covers completeness, dtype, business-rule, integrity and range checks.
- `Quality`: the `DataQualityChecker` class. It covers severity scales, missing, duplicate, dtype and IQR outlier reports, foreign-key integrity, and recommendations.
- `FeatureEngineering`: the `FeatureEngineer` class. It covers delivery bins, RFM scores and segments, CLV, product lifecycle, state ratios and the market-opportunity score.
- `MarketExpansion`: the `MarketExpansionAnalyzer` class. It covers penetration, tier benchmarks, untapped customers, seller supply, the weighted opportunity score, the priority table and state recommendations.
- `SeasonalAnalysis`: the event calendar, season flags, the three-step recursive forecast with its lag sources and intervals, seasonality levels and inventory strategy.
- `PaymentOperations`: the `PaymentOperationsAnalyzer` class. It covers installment bands, satisfaction and on-time rates, the regional sample filter, payment diversity, installment preference and operational recommendations.
- `CleanedData`: the `cleaned_<name>.csv` file-name codec, saving, and reloading with type restoration.

Modelling conventions:

- Timestamps are whole seconds since 1970-01-01 00:00 (naive, as pandas reads the tables), and `.dt.days` floors the difference. Calendar fields follow the proleptic Gregorian calendar.
- Scores and ratios are exact `real`s, not IEEE doubles.
- A missing cell is `None`. A comparison with a missing value is false, as pandas makes it.
- Some inputs become parameters: the two fitted regressors with their residual spread, the directory listing (each entry is a name and, when the file parses, its table) and the date parser.
- Where the pipeline mutates object state (`self.datasets`, `self.state_summary`, `self.validation_passed`, `self.analysis_results`, logs and dictionaries), the model is a class with those fields. Its methods carry `modifies` clauses and state the new state in terms of specification functions. Lemmas prove the properties of those functions.

## Model

| member | source | states |
|---|---|---|
| Common.Days | data_cleaner.py:479-482 | `.dt.days` is the whole number of days d with d days ≤ the difference < d+1 days, i.e. floored, also for negative differences |
| Common.DaysMonotone | data_cleaner.py:479-490 | a later delivery never gets fewer whole days |
| Common.DaysBetween | data_cleaner.py:475-482 | the day count is present exactly when both timestamps are, and then floors their difference |
| Common.Quarter | seasonal_analysis.py:393 | `(month - 1) // 3 + 1` is the quarter q in 1..4 with 3(q−1) < month ≤ 3q |
| Common.MonthsFillYear | feature_engineer.py:124 | the twelve month lengths add up to the year's length, 365 or 366 |
| Common.YearFrom | feature_engineer.py:123 | a day number splits into a year and a day of that year, within the year's length, with the same day count from the epoch |
| Common.MonthFrom | feature_engineer.py:124 | a day of the year splits into a month and a day within that month's length, with the same day count |
| Common.DateOf | feature_engineer.py:123-124 | `.dt.year`/`.dt.month`/`.dt.day` give a valid date whose day number is the timestamp's whole days since the epoch |
| Common.HourOf | feature_engineer.py:128 | `.dt.hour` is the h in 0..23 with the timestamp inside hour h of its day |
| Common.DayOfWeekOf | feature_engineer.py:126 | `.dt.dayofweek` lies in 0..6 |
| Common.YearStartsIncrease | feature_engineer.py:123 | a later year starts no earlier than the end of an earlier one |
| Common.MonthStartsIncrease | feature_engineer.py:124 | a later month starts no earlier than the end of an earlier one |
| Common.DateUnique | feature_engineer.py:123-124 | two valid dates with the same day number are equal |
| Common.DateRoundTrip | feature_engineer.py:123-124 | the date of a valid date's midnight is that date, and every timestamp lies within the day its date numbers |
| Common.NextDay | feature_engineer.py:126-128 | a day later the weekday moves on by one (mod 7), the hour stays, and the date's day number grows by one |
| Common.WeekLater | feature_engineer.py:126 | a week later the weekday is the same |
| Common.WeekendDayNames | feature_engineer.py:127 | only weekday 5 is named "Saturday" and only weekday 6 "Sunday" |
| Common.EpochIsThursday | feature_engineer.py:123-128 | the epoch is Thursday 1 January 1970 at hour 0 |
| Common.DayOfYearBounds | feature_engineer.py:129 | a valid date is day 1 to 365 (366) of its year |
| Common.IsoWeekOf | feature_engineer.py:129 | `.dt.isocalendar().week` lies in 1..53 |
| Common.FourthOfJanuaryIsWeekOne | feature_engineer.py:129 | 4 January always lies in ISO week 1 |
| Common.OrderTimingOf | data_cleaner.py:503-506 | the timing columns are present exactly with a purchase time, and then hold its year and month, a weekday in 0..6 agreeing with its day number, and the hour within which it falls |
| Common.Percent | data_quality_check.py:35 | a share of a whole is a percentage in [0, 100], 0 exactly when the part is 0, and part / whole * 100 when the whole is not empty; also covers data_cleaner.py:447. |
| Common.CountWherePermutation | payment_operations.py:356-359 | reordering a column does not change how many of its values satisfy a test |
| Common.Mean | payment_operations.py:241-246 | the mean is missing exactly for an empty column, and otherwise times the count gives the sum |
| Common.MeanBetween | payment_operations.py:241-246 | a mean lies between any bounds of the values it averages |
| Stats.SortBy | seasonal_analysis.py:834 | a stable sort: the result is ordered by the key and is a permutation of the input |
| Stats.InsertSorted | seasonal_analysis.py:834 | inserting into a key-ordered list keeps it ordered by the key |
| Stats.InsertMultiset | seasonal_analysis.py:834 | inserting adds exactly the one element: the result is a permutation of the list plus it |
| Stats.SortDescending | data_quality_check.py:48 | `sort_values(ascending=False)`: a permutation of the rows with non-increasing keys; also covers data_quality_check.py:68. |
| Stats.Median | data_cleaner.py:121 | the median exists exactly for a non-empty column, is the mean of the two middle elements of the sorted column, lies between its smallest and largest values, and is positive when every value is; also covers data_cleaner.py:131. |
| Stats.MedianHalves | payment_operations.py:356-359 | at most half of a column lies strictly above its median, and at most half strictly below |
| Stats.MedianBetweenMiddles | data_cleaner.py:131 | the median lies between the two middle elements of the sorted column |
| Stats.SplitBetween | payment_operations.py:356-359 | any value between the two middle elements of the sorted column has at most half the column strictly above it and at most half strictly below |
| Stats.QuantileAt | data_quality_check.py:104-107 | the k/q quantile of sorted values lies between the smallest and largest value, is the minimum at k = 0 and the maximum at k = q |
| Stats.QuotientBounds | data_quality_check.py:104-107 | the whole part of the quantile position h/q lies in 0..m, strictly below m when there is a fractional part, and equals m exactly at the top |
| Stats.Interpolate | data_quality_check.py:104-107 | linear interpolation between two ordered neighbours stays between them |
| Stats.QuantileBetween | data_quality_check.py:104-107 | linear interpolation: the quantile lies between the two order statistics around its position and equals the lower one at a whole position |
| Stats.QuantileMonotone | data_quality_check.py:104-107 | a higher quantile is never smaller, so Q1 ≤ Q3 |
| Stats.RankFirst | feature_engineer.py:229-231 | `rank(method='first')` gives each value a rank in 1..n |
| Stats.RankFirstStrictlyOrders | feature_engineer.py:229-231 | a smaller value, or an equal value earlier in the column, gets a strictly smaller rank |
| Stats.RankFirstInjective | feature_engineer.py:229-231 | no two rows share a first-occurrence rank |
| Stats.RankBin | feature_engineer.py:229-237 | `qcut` of the ranks 1..n into q bins: the bin b in 1..q is the one whose edges 1 + (n−1)(b−1)/q < r ≤ 1 + (n−1)b/q enclose the rank |
| Stats.RankBinMonotone | feature_engineer.py:229-237 | a higher rank never falls in a lower bin |
| Stats.RankBinExtremes | feature_engineer.py:229-237 | the first rank falls in bin 1 and the last rank in bin q |
| Stats.QuantileEdges | feature_engineer.py:224-227 | q + 1 edges, the first at most and the last at least every value |
| Stats.BinOf | feature_engineer.py:224-227 | a value falls in the first bin whose upper edge is at least the value |
| Stats.BinOfMonotone | feature_engineer.py:224-227 | a larger value never falls in a lower bin |
| Stats.QCut | feature_engineer.py:224-227 | `qcut` on raw values fails exactly on an empty column or coinciding quantile edges; otherwise each value gets a bin in 1..q and larger values never get lower bins |
| Stats.QCutMonotone | feature_engineer.py:224-227 | a larger value never gets a lower qcut bin |
| Stats.MaxOf | feature_engineer.py:421-422 | the maximum exists exactly for a non-empty column, bounds every value and is one of them |
| Stats.MaxPresent | market_expansion.py:232 | the maximum of the present values exists exactly when one is present, bounds them and is one of them; also covers market_expansion.py:424-434. |
| Stats.MinOf | data_validator.py:355 | the minimum exists exactly for a non-empty column, bounds every value from below and is one of them |
| DataCleaning.CleanOrderSpec | data_cleaner.py:62-96 | order imputation touches only the two date columns and never overwrites a known date; a delivered order with an estimate always ends with a delivery date; every row with a delivery date (a freshly imputed one included) ends with a carrier date, one day before delivery where it was missing; a second pass changes nothing |
| DataCleaning.CarrierDateFollowsImputedDelivery | data_cleaner.py:62-88 | a delivered order missing both dates gets its estimate as delivery date and the day before as carrier date, because the carrier step runs after the delivery step |
| DataCleaning.CleanOrders | data_cleaner.py:59-96 | the orders table keeps its length and each row is imputed on its own |
| DataCleaning.GroupFillAt | data_cleaner.py:118-126 | a present value is kept; a gap stays a gap when its category has no present value |
| DataCleaning.GroupFixAt | data_cleaner.py:141-149 | a valid value is kept; an invalid one is kept or becomes a positive category median |
| DataCleaning.FillMissingSpec | data_cleaner.py:114-132 | gap filling keeps every present value, leaves no gap in a column that has any value, and changes nothing in a column without values |
| DataCleaning.FillMissingKeepsPresent | data_cleaner.py:118-132 | gap filling never changes a present value |
| DataCleaning.FillMissingLeavesNoGap | data_cleaner.py:128-132 | after the overall median step no gap remains when the column has a value |
| DataCleaning.FillMissingOnEmptyColumn | data_cleaner.py:128-132 | a column with no value stays all missing (the median of nothing is NaN) |
| DataCleaning.FillMissingKeepsComplete | data_cleaner.py:118-119 | a column without gaps is left alone |
| DataCleaning.GroupFixSpec | data_cleaner.py:141-149 | the category step changes only invalid (≤ 0) values and only to positive ones |
| DataCleaning.FixNonPositiveSpec | data_cleaner.py:139-156 | repair changes only invalid values, only to positive ones or (payments, no positive median) to missing, and leaves no invalid value when the column has a positive one; also covers data_cleaner.py:186-201. |
| DataCleaning.FixNonPositiveAllOrNothing | data_cleaner.py:151-156 | payments never keep an invalid value; products either lose every invalid value or stay unchanged (the overall median is written only when it exists); also covers data_cleaner.py:197-201. |
| DataCleaning.FixNonPositiveWithPositive | data_cleaner.py:139-156 | with one positive value in the column every present value ends up positive |
| DataCleaning.FixNonPositiveKeepsValid | data_cleaner.py:141-142 | a column with no value ≤ 0 is left alone |
| DataCleaning.FixNonPositiveIdempotent | data_cleaner.py:139-156 | a second repair changes nothing |
| DataCleaning.CleanColumnKeepsValues | data_cleaner.py:114-156 | dimension cleaning keeps every positive value and replaces a non-positive one only by a positive median |
| DataCleaning.CleanColumnComplete | data_cleaner.py:114-156 | a cleaned dimension column has no gap if it had any value, and all values positive if one was positive |
| DataCleaning.CleanColumnNoGap | data_cleaner.py:114-156 | one present value is enough for no gap to remain after cleaning |
| DataCleaning.CleanColumnAllPositive | data_cleaner.py:114-156 | one positive value is enough for every value to be positive after cleaning |
| DataCleaning.FillMissingAfterClean | data_cleaner.py:114-156 | gap filling finds nothing to do in a cleaned dimension column |
| DataCleaning.CleanColumnIdempotent | data_cleaner.py:114-156 | cleaning a dimension column twice equals cleaning it once |
| DataCleaning.FillCategory | data_cleaner.py:101-105 | a missing category becomes "unknown" and the dimensions are untouched |
| DataCleaning.CleanDimensionsColumns | data_cleaner.py:114-156 | cleaning the four dimensions in turn leaves every other column as it was and turns each dimension into its cleaned column grouped by the original categories |
| DataCleaning.CleanDimensionsFixed | data_cleaner.py:114-156 | cleaning columns that are already clean changes nothing |
| DataCleaning.CleanProductsSpec | data_cleaner.py:98-158 | product cleaning fills every category, changes no other column than the category and the four dimensions, and per dimension keeps positive values, replaces non-positive ones only by positive medians, leaves no gap in a column with a value and leaves every value positive when one was |
| DataCleaning.CleanLoadedProducts | data_cleaner.py:98-164 | products are cleaned exactly when the table was loaded; an absent table stays absent |
| DataCleaning.CleanProductsIdempotent | data_cleaner.py:98-158 | product cleaning a second time changes nothing |
| DataCleaning.FixPaymentsSpec | data_cleaner.py:183-203 | payment repair touches only the value column and only values ≤ 0; afterwards no value is ≤ 0; with one positive payment every present one is positive; a second repair changes nothing |
| DataCleaning.FixLoadedPayments | data_cleaner.py:183-209 | payments are fixed exactly when the table was loaded; an absent table stays absent |
| DataCleaning.FixPaymentsColumns | data_cleaner.py:183-203 | fixing payments leaves the type column alone, rewrites only the value column, and rewrites it by the non-positive replacement rule keyed on the payment type |
| DataCleaning.GroupFillColumn | data_cleaner.py:121-126 | the loop over rows produces exactly the category-median fill |
| DataCleaning.FillWithColumn | data_cleaner.py:129-132 | the loop writes the overall median into exactly the gaps |
| DataCleaning.FillMissingColumn | data_cleaner.py:114-132 | the two passes produce exactly the specified gap filling |
| DataCleaning.GroupFixColumn | data_cleaner.py:144-149 | the loop over rows produces exactly the positive category-median repair |
| DataCleaning.ReplaceInvalidColumn | data_cleaner.py:152-156 | the loop writes the overall positive median over exactly the invalid values (products only when it exists); also covers data_cleaner.py:198-201. |
| DataCleaning.ReplaceInvalidSpec | data_cleaner.py:152-156 | valid values are kept; an invalid value is kept, replaced by a positive value, or (when not kept) blanked; with a positive median no invalid value survives; also covers data_cleaner.py:198-201. |
| DataCleaning.FixNonPositiveColumn | data_cleaner.py:139-156 | the two passes produce exactly the specified repair; also covers data_cleaner.py:186-201. |
| DataCleaning.CleanProductTable | data_cleaner.py:98-158 | the products table after its loop over the four dimensions is the specified product cleaning |
| DataCleaning.FixPaymentTable | data_cleaner.py:183-203 | the payments table after repair is the specified payment repair |
| DataCleaning.MatchesOf | data_cleaner.py:364-368 | the translations matched by a Portuguese name are exactly those carrying it |
| DataCleaning.NoMatches | data_cleaner.py:364-368 | a name without a translation matches nothing |
| DataCleaning.MatchesUnique | data_cleaner.py:364-368 | with one translation row per Portuguese name a product matches at most one row |
| DataCleaning.MergeRow | data_cleaner.py:364-375 | a product becomes at least one merged row, identical except for the English name, which is present whenever the Portuguese one is |
| DataCleaning.MergeRowUnique | data_cleaner.py:364-375 | when the translation table has one row per Portuguese name, a product merges into exactly one row carrying its translated name |
| DataCleaning.MergeCategories | data_cleaner.py:364-375 | the left merge never loses a product: at least as many rows come out as went in |
| DataCleaning.MergeCategoriesSound | data_cleaner.py:364-375 | every merged row is an input product with only its English name changed, and every row with a Portuguese category has an English name |
| DataCleaning.MergeWithUniqueTranslations | data_cleaner.py:364-375 | with one translation per name the merge keeps the table row for row and adds the translation, or the Portuguese name when there is none |
| DataCleaning.UntranslatedKeepsPortugueseName | data_cleaner.py:371-375 | an untranslated product gets its Portuguese name as English name |
| DataCleaning.DeliveryMetricsSpec | data_cleaner.py:470-495 | only the three derived columns change; delivery days floor the time since purchase; on time holds exactly when delivery is before the end of the estimated day; rows without both dates are untouched; recomputing changes nothing |
| DataCleaning.ProductMetricsSpec | data_cleaner.py:519-538 | only volume and density change; the volume is present exactly when all three measures are; with positive weight and volume the density is positive and times the volume gives the weight |
| DataCleaning.ProductMetricsIdempotent | data_cleaner.py:519-538 | recomputing the product metrics changes nothing |
| DataCleaning.MissingValuesCleanedIdempotent | data_cleaner.py:48-212 | running `clean_missing_values` a second time imputes nothing |
| DataCleaning.GeolocationOnePerZip | data_cleaner.py:224-234 | geolocation deduplication keeps row order, keeps exactly one row per zip prefix, the first, and loses no zip prefix |
| DataCleaning.MapOrders | data_cleaner.py:470-506 | every order gets its own delivery metrics and then its purchase-time columns; the table keeps its length |
| DataCleaning.TimingColumnsSpec | data_cleaner.py:502-506 | the timing columns change nothing else, hold the purchase's year, month, weekday and hour (missing without a purchase time), are idempotent and independent of the delivery metrics |
| DataCleaning.MapProducts | data_cleaner.py:519-538 | every product gets its own volume and density, the table keeps its length |
| DataCleaning.KeyResults | data_cleaner.py:428-455 | every result is named after one of the checked relationships |
| DataCleaning.KeyResultsSpec | data_cleaner.py:428-455 | with distinct result names a relationship is reported exactly when both key columns are loaded, and with its own check |
| DataCleaning.ForeignKeyResultsSpec | data_cleaner.py:419-455 | each of the six relationships is reported exactly when both tables and keys are loaded, and is GOOD exactly when every non-missing child key has a parent |
| DataCleaning.DataCleaner.constructor | data_cleaner.py:26-35 | the cleaner holds the datasets it was given and no validation results |
| DataCleaning.DataCleaner.CleanMissingValues | data_cleaner.py:48-212 | replaces the datasets with their missing-value cleaning and returns them |
| DataCleaning.DataCleaner.RemoveDuplicates | data_cleaner.py:214-263 | replaces the datasets with their deduplication and returns them |
| DataCleaning.DataCleaner.MergeProductCategories | data_cleaner.py:348-405 | replaces the products with their merge with the translations, when both are loaded |
| DataCleaning.DataCleaner.ValidateForeignKeys | data_cleaner.py:407-459 | stores and returns the foreign key results without changing the datasets |
| DataCleaning.DataCleaner.CreateDerivedFeatures | data_cleaner.py:461-549 | replaces the datasets with their derived delivery, timing and product columns |
| DataCleaning.DataCleaner.CleanAllData | data_cleaner.py:599-621 | runs the steps in pipeline order; the stored results are the foreign key checks of the final tables |
| Tables.DedupBy | data_cleaner.py:234 | `drop_duplicates(subset, keep='first')` keeps an ordered subsequence with one row per key, the first of its key, and loses no key |
| Tables.Dedup | data_cleaner.py:229 | `drop_duplicates()` keeps an ordered subsequence of distinct rows containing every row value; also covers data_cleaner.py:251. |
| Tables.Orphans | data_cleaner.py:433-437 | the orphaned keys are exactly the non-missing child keys without a parent key, and there are none iff child keys ⊆ parent keys |
| Tables.CheckKeys | data_cleaner.py:433-449 | counts are the sizes of the key sets; orphans are at most the child keys; GOOD iff no orphan iff child keys ⊆ parent keys; the percentage is within 0..100 |
| Tables.ResultsOf | data_validator.py:275-300 | every result is keyed by the "parent_child" name of one of the relationships; also covers data_cleaner.py:419-455. |
| Tables.ResultsOfSpec | data_validator.py:275-300 | with distinct names, a relationship has a result exactly when it was checked, and the result stored under its name is its own check; also covers data_cleaner.py:419-455. |
| Tables.RelationshipsDistinct | data_cleaner.py:419-426 | the six relationships have distinct result names, so none overwrites another |
| Validation.MissingPercentage | data_validator.py:63 | the missing percentage exists exactly for a frame with rows, and times the row count gives 100 × the missing count |
| Validation.CheckCompleteness | data_validator.py:62-70 | the missing count is the number of missing cells; PASS exactly when the frame has rows and fewer than 1% of them are missing; never WARN |
| Validation.CompletenessVerdict | data_validator.py:62-74 | a column lowers the flag exactly when a non-empty frame misses at least 1% of its rows, and is then FAIL; an empty frame gives NaN, reported FAIL without lowering the flag |
| Validation.TableIncompleteIffReported | data_validator.py:57-76 | a table lowers the completeness flag exactly when one of its checked columns misses at least 1% of a non-empty frame |
| Validation.CompletenessOfTables | data_validator.py:47-78 | the loop over the tables stores every table's completeness results and fails exactly when some table is incomplete |
| Validation.CompletenessFailsIffReported | data_validator.py:47-78 | the completeness check lowers the flag exactly when one reported critical column does |
| Validation.CompletenessOfTable | data_validator.py:57-76 | the loop over critical columns yields exactly the specified column results and incompleteness |
| Validation.CheckType | data_validator.py:128-141 | with a list of accepted dtypes PASS iff the dtype is among them, otherwise PASS iff equal; expected and actual dtypes are reported; never WARN |
| Validation.TypesFailIffReported | data_validator.py:122-150 | the dtype check lowers the flag exactly when one reported column is FAIL |
| Validation.TableMistypedIffReported | data_validator.py:122-150 | a table is reported with a type failure exactly when one of its expected columns has the wrong type |
| Validation.MistypedIffReported | data_validator.py:122-150 | the type check reports a failure exactly when some table has a column of the wrong type |
| Validation.TypesOfTable | data_validator.py:123-147 | the loop over expected columns yields exactly the specified results and mismatch |
| Validation.TypesOfTables | data_validator.py:122-147 | the loop over tables yields exactly the specified results and mismatch |
| Validation.Rule | data_validator.py:181-246 | a rule reports its counts and is PASS exactly when no row breaks it; never WARN |
| Validation.DeliveryAfterPurchase | data_validator.py:170-189 | reported exactly when some row has both dates; at most as many broken rows as checked rows; PASS iff no row with both dates was delivered before purchase |
| Validation.BrokenOnlyAmongPresent | data_validator.py:174-183 | broken rows are counted among the rows where both dates are present |
| Validation.DimensionRuleNames | data_validator.py:212-226 | every product rule is named "positive_" plus a present dimension column |
| Validation.DimensionRuleAt | data_validator.py:212-226 | each present dimension column's rule is reported under its own name |
| Validation.DimensionRulesFail | data_validator.py:212-226 | a product rule is FAIL exactly when a dimension column has a value ≤ 0 |
| Validation.DimensionColumnsDistinct | data_validator.py:210-213 | the four product dimension columns are distinct |
| Validation.RulesFailIffReported | data_validator.py:152-252 | the business-rule check lowers the flag exactly when one reported rule is FAIL |
| Validation.RulesOfTables | data_validator.py:152-252 | the rule loop produces exactly the business-rule results and fails exactly when a rule is broken |
| Validation.DimensionRulesOf | data_validator.py:212-226 | the loop over dimension columns yields exactly the specified rules and breakage |
| Validation.Numbers | data_validator.py:344 | the numeric values of a column are exactly its non-missing numbers |
| Validation.CheckIntegrity | data_validator.py:276-296 | the orphan count is the number of distinct child keys with no parent key, at most the child key count; PASS iff child keys ⊆ parent keys |
| Validation.IntegrityResults | data_validator.py:275-300 | every result is named after a checked relationship |
| Validation.IntegrityResultsSpec | data_validator.py:275-300 | with distinct names a relationship is reported exactly when both tables carry their keys, with its own check |
| Validation.IntegrityOfRelationships | data_validator.py:266-302 | the relationship loop produces exactly the integrity results and fails exactly when a checked relationship has orphans |
| Validation.IntegrityFailsIffReported | data_validator.py:266-302 | the integrity check lowers the flag exactly when one reported relationship is FAIL |
| Validation.CheckRange | data_validator.py:343-360 | a range is reported exactly when the column has a value; never FAIL; out-of-range values at most the total; PASS iff every value is within bounds iff min and max are |
| Validation.RangesNeverFail | data_validator.py:359-363 | no range entry is ever FAIL: ranges cannot fail validation |
| Validation.RangesOfTable | data_validator.py:342-363 | the loop over expected columns yields exactly the specified range results |
| Validation.RangesOfTables | data_validator.py:338-365 | the loop over tables yields exactly the specified range results |
| Validation.VerdictIffNothingReported | data_validator.py:463-483 | validation passes exactly when no completeness column lowers the flag and no dtype, business rule or integrity entry is FAIL |
| Validation.DataValidator.constructor | data_validator.py:25-34 | a new validator holds its datasets, no results and a raised flag |
| Validation.DataValidator.ValidateDataCompleteness | data_validator.py:36-79 | stores and returns the completeness results; lowers the flag iff a critical column fails |
| Validation.DataValidator.ValidateDataTypes | data_validator.py:81-150 | stores and returns the dtype results; lowers the flag iff a column is mistyped |
| Validation.DataValidator.ValidateBusinessRules | data_validator.py:152-252 | stores and returns the business rules; lowers the flag iff a rule is broken |
| Validation.DataValidator.ValidateReferentialIntegrity | data_validator.py:254-302 | stores and returns the integrity results; lowers the flag iff a relationship has orphans |
| Validation.DataValidator.ValidateDataRanges | data_validator.py:304-368 | stores and returns the range results; the flag is unchanged |
| Validation.DataValidator.ValidateAllData | data_validator.py:463-483 | runs the five checks in order; the flag only goes down, and falls exactly when the verdict fails; every result slot is filled |
| Validation.ValidateCleanedData | data_validator.py:486-497 | a fresh validator passes exactly when the verdict holds |
| Quality.Grade | data_quality_check.py:167-204 | a percentage is graded NONE exactly when it is 0, CRITICAL exactly when it reaches the top threshold, and each middle grade only inside its band |
| Quality.GradeMonotone | data_quality_check.py:167-204 | a larger percentage never receives a milder severity |
| Quality.SeverityScales | data_quality_check.py:167-204 | the missing (5/20/50), duplicate (1/5/20) and outlier (5/10/20) scales change grade exactly at their thresholds |
| Quality.SortValuesAsWritten | data_quality_check.py:48 | sorting a frame built from a list of rows raises exactly when the list is empty, and otherwise orders the rows by the column, largest first; also covers data_quality_check.py:68. |
| Quality.MissingEntryOf | data_quality_check.py:34-46 | a column with gaps is reported with a percentage in (0, 100] equal to count / rows * 100 and a severity other than NONE graded on the missing scale |
| Quality.MissingOfTable | data_quality_check.py:37-46 | the rows built for one dataset are exactly its columns with at least one gap, each once |
| Quality.CollectMissing | data_quality_check.py:31-46 | the rows built over all datasets are exactly the columns with gaps of every dataset, each once |
| Quality.CompleteDataCrashesMissingCheck | data_quality_check.py:48 | when no cell of any dataset is missing, the missing-value check as written raises |
| Quality.MissingCheckCounterexample | data_quality_check.py:31-48 | a single complete orders table yields no missing-value row, so the sort at line 48 raises on it |
| Quality.DuplicateCount | data_quality_check.py:56 | the number of rows equal to an earlier row is at most the number of rows |
| Quality.DuplicatesPlusDistinct | data_quality_check.py:56 | the reported unique rows (total minus duplicates) equal the number of distinct rows of the frame; also covers data_quality_check.py:64. |
| Quality.DuplicateEntryOf | data_quality_check.py:55-66 | a dataset's duplicate row has duplicates plus unique equal to total, a percentage in [0, 100] that is 0 for an empty frame and exactly when there are no duplicates, and the duplicate-scale severity |
| Quality.CollectDuplicates | data_quality_check.py:52-66 | one duplicate row per dataset, each once |
| Quality.CheckDuplicatesAsWritten | data_quality_check.py:68 | as written, the duplicate check raises exactly when there is no dataset, and otherwise sorts by duplicate percentage, largest first |
| Quality.NoDatasetsCrashesDuplicateCheck | data_quality_check.py:52-68 | with no dataset loaded the duplicate check as written raises |
| Quality.Lower | data_quality_check.py:209 | lower-casing keeps the length and lowers every character |
| Quality.SuggestionAgreesWithFlag | data_quality_check.py:206-226 | a column needing no conversion keeps its dtype; one needing conversion is sent to datetime64 or category; category is only suggested for an object column flagged for conversion; the "fewer than a tenth" test is exact on whole numbers |
| Quality.OrderDatesFlagged | data_quality_check.py:209-210 | the order purchase and delivery columns are flagged for conversion whatever their contents |
| Quality.TypesOfTable | data_quality_check.py:75-91 | one type row per column of the dataset, each once |
| Quality.CollectTypes | data_quality_check.py:72-91 | the type rows over all datasets are exactly one per column of every dataset |
| Quality.Fences | data_quality_check.py:107-109 | the Tukey fences enclose the quartiles |
| Quality.RangeEntryOf | data_quality_check.py:103-124 | a numeric column with values is reported with min <= q1 <= q3 <= max, min and max among the values and bounding them all, no outliers exactly when every value lies within the fences, and the outlier-scale severity, which is not NONE when there are outliers |
| Quality.RangeOfColumn | data_quality_check.py:102-124 | a column gets a range row exactly when it is numeric and has values, and the row is that of its own values, dataset and column |
| Quality.RangesOfTable | data_quality_check.py:100-124 | the range rows of one dataset are exactly its numeric columns with at least one value, each once |
| Quality.CollectRanges | data_quality_check.py:97-124 | the range rows over all datasets are exactly those of every dataset |
| Quality.IntegrityEntries | data_quality_check.py:133-163 | one row per relationship whose tables and key columns are loaded, carrying the key-set comparison of its parent and child columns, and every such relationship has a row |
| Quality.IntegrityIssuesAsWritten | data_quality_check.py:285 | as written, selecting the relationships with issues raises exactly when no relationship was checked; also covers data_quality_check.py:328. |
| Quality.IntegrityIssues | data_quality_check.py:285 | the selected rows are exactly the checked relationships with status ISSUES, and none is selected exactly when no relationship has issues; also covers data_quality_check.py:328. |
| Quality.IssuesIffOrphans | data_quality_check.py:146-163 | some relationship is flagged ISSUES exactly when a checked relationship has a child key missing from its parent keys; also covers data_quality_check.py:328-330. |
| Quality.NoDatasetsCrashesIntegrityFilter | data_quality_check.py:130-165 | with no dataset loaded no relationship is checked and the issue filter as written raises; also covers data_quality_check.py:285. |
| Quality.When | data_quality_check.py:313-330 | a recommendation is added exactly when its condition holds |
| Quality.Findings | data_quality_check.py:313-330 | the finding-driven recommendations, without repeats, are exactly those whose conditions hold |
| Quality.FindingsThenGeneral | data_quality_check.py:313-338 | appending the four general items to at most four distinct findings gives 4 to 8 distinct items ending with the general ones, and holds a finding exactly when the findings did |
| Quality.Recommendations | data_quality_check.py:308-340 | between 4 and 8 distinct recommendations ending in the four general items; each finding-driven one appears exactly when critical missing columns, high missing columns, HIGH/CRITICAL duplicates or integrity issues are present |
| Quality.DataQualityChecker.constructor | data_quality_check.py:19-27 | the checker holds the datasets it is given |
| Quality.DataQualityChecker.CheckMissingValues | data_quality_check.py:29-48 | the rows are exactly the columns with gaps, each once, ordered by missing percentage, largest first (an empty table when nothing is missing) |
| Quality.DataQualityChecker.CheckDuplicates | data_quality_check.py:50-68 | one row per dataset, each once, ordered by duplicate percentage, largest first |
| Quality.DataQualityChecker.CheckDataTypes | data_quality_check.py:70-93 | one type row for every column of every dataset, each once |
| Quality.DataQualityChecker.CheckValueRanges | data_quality_check.py:95-126 | one range row for every numeric column with values, each once |
| Quality.DataQualityChecker.CheckForeignKeyIntegrity | data_quality_check.py:128-165 | the rows are the schema's checkable relationships in the order listed |
| Quality.DataQualityChecker.GenerateRecommendations | data_quality_check.py:308-340 | the recommendations are, in this order, the critical-missing advice, the imputation advice, the duplicate advice and the integrity advice, each present exactly when its finding holds over the datasets, then the four general items; also covers data_quality_check.py:228-237 and data_quality_check.py:296. |
| Quality.AdviceOfDatasets | data_quality_check.py:308-340 | the advice has 4 to 8 distinct items ending in the general ones, and holds each finding's item exactly when that finding holds over the datasets |
| Quality.RecommendationsOfDatasets | data_quality_check.py:308-330 | read from the three check tables, the advice is exactly the one the datasets call for |
| Quality.DuplicatesFound | data_quality_check.py:323-325 | the duplicate table has a HIGH or CRITICAL row exactly when some dataset has that share of duplicates |
| FeatureEngineering.SpeedLabelsMatchBins | feature_engineer.py:78-82 | the speed bins (−∞,7], (7,14], (14,21], (21,30], (30,∞) give every whole day count exactly the label whose announced day range contains it |
| FeatureEngineering.OnTimeMatchesAccuracy | feature_engineer.py:94-101 | `on_time_delivery` (days vs estimate ≤ 0) holds exactly for the "Much Earlier" and "Earlier" accuracy bins; an "On Time" order is 1 to 7 days late and not flagged on time |
| FeatureEngineering.OnTimeWithinOneDay | feature_engineer.py:86-95 | because `.dt.days` floors, an order is on time exactly when it arrives less than one full day after the estimated timestamp |
| FeatureEngineering.DeliveryFeaturesOf | feature_engineer.py:65-120 | every delivery column is present only when some order of the table was delivered; delivery days are present exactly for rows with both dates and floor the time difference; speed is present with them; on-time is present exactly for rows that also have an estimate and holds iff delivery is earlier than estimate + 1 day; processing and shipping days need their two dates; the calendar columns are those of the purchase time, for every order |
| FeatureEngineering.EventSeasonsDisjoint | feature_engineer.py:133-137 | no month carries two of the holiday, carnival, Mother's Day and Valentine's season flags |
| FeatureEngineering.CalendarFeaturesOf | feature_engineer.py:123-137 | the temporal columns are missing and every flag false without a purchase time; otherwise year, month, weekday and hour are those of the purchase, the quarter is its month's, the day name its weekday's and the week its ISO week |
| FeatureEngineering.CalendarFlagsFollowPurchase | feature_engineer.py:131-137 | the weekend flag marks exactly Saturday and Sunday orders; the holiday flag marks exactly November and December purchases; at most one season flag holds |
| FeatureEngineering.SeasonFlagQuarters | feature_engineer.py:125-137 | the season flags agree with the quarter column: holiday in quarter 4, carnival in quarter 1, Mother's Day and Valentine's in quarter 2 |
| FeatureEngineering.WeekendRepeatsWeekly | feature_engineer.py:126-131 | orders a week apart share their day name and their weekend flag |
| FeatureEngineering.OrderFrequencyPerMonth | feature_engineer.py:217-221 | with a positive lifetime the frequency times lifetime in months (days / 30.44) gives back the order count; otherwise the frequency is the order count |
| FeatureEngineering.ClvIsOrderValueTimesOrders | feature_engineer.py:273-277 | frequency and lifetime cancel: CLV is average order value × order count, except for lifetimes of 1 to 30 days, where CLV × lifetime = aov × orders × 30.44 |
| FeatureEngineering.RfmScoreDigits | feature_engineer.py:240-244 | with R, F, M in 1..5 the code 100R + 10F + M lies in 111..555 and its three digits give back R, F and M |
| FeatureEngineering.RfmScoreInjective | feature_engineer.py:240-244 | two customers share an RFM code only when they share all three scores |
| FeatureEngineering.SegmentRegions | feature_engineer.py:247-267 | for each of the nine labels, the exact region of 1..5³ that receives it once earlier rules have taken their share (Champions iff R, F, M ≥ 4; Promising only at R = 3; Others from two regions) |
| FeatureEngineering.CustomerStatusOf | feature_engineer.py:286-289 | Active iff days ≤ 90, Inactive iff 90 < days ≤ 180, Churned iff days > 180 |
| FeatureEngineering.RecencyDays | feature_engineer.py:207-209 | each customer's recency is the floored whole days from their last order to the analysis date |
| FeatureEngineering.CustomerRow | feature_engineer.py:224-292 | the recency score reverses the qcut label (6 − bin); frequency and monetary scores are their bins |
| FeatureEngineering.FrequencyScoreAt | feature_engineer.py:229-232 | the frequency score is in 1..5 |
| FeatureEngineering.MonetaryScoreAt | feature_engineer.py:234-237 | the monetary score is in 1..5 |
| FeatureEngineering.KnownClvsPosition | feature_engineer.py:280-282 | a customer with a lifetime value sits in the ranked values at the number of known values before it, in table order |
| FeatureEngineering.TwoKnownClvs | feature_engineer.py:280-283 | two customers with an average order value give at least two values to bin |
| FeatureEngineering.NoKnownClvs | feature_engineer.py:188-198 | when no customer has an order with items, no lifetime value is known |
| FeatureEngineering.ClvQuartileAt | feature_engineer.py:280-283 | a customer gets a CLV quartile exactly when it has an average order value; the quartile is one of the four labels |
| FeatureEngineering.ClvQuartileFollowsValue | feature_engineer.py:280-283 | among customers with a lifetime value, a lower CLV (or an equal one earlier in the table) never lands in a higher CLV quartile, ranks being taken among the known values only |
| FeatureEngineering.CustomerRows | feature_engineer.py:194-292 | one feature row per customer aggregate, in order |
| FeatureEngineering.CustomerBehaviorFeatures | feature_engineer.py:207-292 | fails exactly when `pd.qcut` of the raw recency days fails (no customers, or two quantile edges coincide) or fewer than two customers have a lifetime value (the CLV quartile edges coincide); otherwise one row per customer, recency score = 6 − its recency bin, frequency and monetary scores from first-occurrence ranks |
| FeatureEngineering.ScoredCustomersAreWellFormed | feature_engineer.py:224-292 | every scored customer has R, F, M in 1..5, an RFM code in 111..555 built from them, the Champions label iff all three are ≥ 4, recency in floored days and the repeat flag iff more than one order |
| FeatureEngineering.ScoredCustomersLifetimeValue | feature_engineer.py:273-283 | a scored customer's CLV and CLV category are missing exactly when its average order value is (no order with items); otherwise the category is the label of its quartile among the known values, of which there are at least two |
| FeatureEngineering.RecencyRewardsRecentCustomers | feature_engineer.py:224-227 | a customer whose last order is no earlier than another's never gets a lower recency score |
| FeatureEngineering.FrequencyAndMonetaryFollowRank | feature_engineer.py:229-237 | frequency and monetary scores are non-decreasing in order count and in revenue, ties going to the customer listed first |
| FeatureEngineering.FrequencyScoreSpansRange | feature_engineer.py:229-232 | the customer ranked first by order count scores 1 and the one ranked last scores 5 |
| FeatureEngineering.PopularityInUnitInterval | feature_engineer.py:424-429 | popularity 0.6·sales/max + 0.2·reviews/max + 0.2·score/5 lies in [0, 1] when normalised by the column maxima and scores are in 0..5 |
| FeatureEngineering.LifecycleMonotoneInPopularity | feature_engineer.py:434-444 | past the no-sales and introduction rules, more popularity never moves a product from Growth, and less never moves it out of Decline |
| FeatureEngineering.ReviewCategoryOf | feature_engineer.py:388-392 | a review category exists exactly for averages in (0, 5]; the bins are right-closed at 2, 3, 4, 5 |
| FeatureEngineering.ProductPerformanceFeatures | feature_engineer.py:404-446 | fails exactly for fewer than two products; otherwise sales and revenue quartiles are in 1..4, the lifecycle is the rule table applied to the popularity, and popularity is in [0, 1] |
| FeatureEngineering.ProductRow | feature_engineer.py:404-446 | a product row has sales and revenue quartiles in 1..4, the lifecycle stage its own popularity gives, and popularity in [0, 1] when its review score is in [0, 5] |
| FeatureEngineering.CustomerToSellerRatio | feature_engineer.py:582-586 | ratio × sellers = customers when there are sellers, and the customer count when there are none; never negative |
| FeatureEngineering.RevenuePerCustomer | feature_engineer.py:589-593 | ratio × customers = revenue when there are customers, and 0 otherwise |
| FeatureEngineering.MarketOpportunityInUnitInterval | feature_engineer.py:629-634 | 0.6·(1 − customers/max) + 0.4·rpc/max lies in [0, 1] |
| FeatureEngineering.StateLevelMetrics | feature_engineer.py:609-636 | one row per state, opportunity in [0, 1], and the customer-to-seller ratio by the fallback rule |
| FeatureEngineering.CulturalEventsMatchOrderFlags | feature_engineer.py:748-751 | a month has a cultural event exactly when it carries one of the four season flags of the orders table |
| FeatureEngineering.SeasonalVariance | feature_engineer.py:721-727 | the coefficient of variation is never negative and is 0 when the deviation is missing (a single month) or the mean is 0 (0/0 filled with 0) |
| FeatureEngineering.FeatureEngineer.constructor | feature_engineer.py:26-36 | starts with an empty log and feature dictionary |
| FeatureEngineering.FeatureEngineer.CreateDeliveryPerformanceFeatures | feature_engineer.py:49-164 | with no orders table, returns nothing and changes nothing; otherwise returns one row per order computed against the table-wide "any delivered" flag, appends one log entry and adds the delivery feature names, calendar columns included |
| FeatureEngineering.FeatureEngineer.CreateCustomerBehaviorFeatures | feature_engineer.py:165-319 | with no tables, returns no rows and changes nothing; otherwise returns the scored customers, including missing CLVs for customers whose orders have no items; it logs and adds the feature names only when binning succeeded |
| MarketExpansion.PenetrationLevel | market_expansion.py:110-114 | a state has no penetration level exactly when it has 0 customers; "Very Low" means at most 100 and "High" more than 5000 |
| MarketExpansion.PenetrationLevelMonotone | market_expansion.py:110-114 | more customers never give a lower penetration level |
| MarketExpansion.PenetrationMetricsOf | market_expansion.py:91-114 | revenue and orders per customer multiply back to the totals when there are customers and are 0 otherwise; the customer-to-seller ratio multiplies back when there are sellers and falls back to the customer count otherwise |
| MarketExpansion.MarketPenetration | market_expansion.py:79-117 | one summary row per state, a permutation of the per-state rows, sorted by mean opportunity score, highest first |
| MarketExpansion.InfoOf | market_expansion.py:148-184 | exactly the states of the census table get context (population, GDP per capita, tier, urban rate), and that context is well formed |
| MarketExpansion.TierSums | market_expansion.py:193-199 | an empty tier has no customers and no urban population; a populated one has a positive urban population |
| MarketExpansion.TierOfRowIsPopulated | market_expansion.py:194-199 | the tier of any state with context has at least one state |
| MarketExpansion.TierBenchmark | market_expansion.py:193-202 | a benchmark exists exactly for tiers with a state and is the tier's customers per 1000 urban inhabitants |
| MarketExpansion.Untapped | market_expansion.py:205-209 | untapped customers are never negative, are 0 exactly when the state is at or above the benchmark rate, and otherwise bring the state up to it |
| MarketExpansion.SomeRowAtLeast | market_expansion.py:197-199 | if a tier reaches a rate in total, one of its states reaches it |
| MarketExpansion.SomeStateMeetsItsTierBenchmark | market_expansion.py:193-209 | every populated tier has a state with no untapped customers, since the benchmark is the tier's own rate |
| MarketExpansion.SomeStateAtRate | market_expansion.py:193-209 | for any rate that, times the tier's urban population, equals 1000 times the tier's customers, some state of the tier has no untapped customers at that rate |
| MarketExpansion.UntappedAtRate | market_expansion.py:204-209 | a state whose customers reach the benchmark share of its urban population has no untapped customers |
| MarketExpansion.ShortfallCarries | market_expansion.py:193-209 | if a first group of states is below a rate and the whole is at or above it, the remaining states together reach the rate |
| MarketExpansion.NationalAverageGdp | market_expansion.py:212 | the mean GDP per capita exists exactly when some state has context, and is then positive |
| MarketExpansion.GdpPositive | market_expansion.py:212 | the GDP sum and count skip states without context; the sum is positive when the count is |
| MarketExpansion.EconomicFactor | market_expansion.py:213-216 | the economic factor lies in (0, 2] and is GDP per capita over the national mean below the cap |
| MarketExpansion.NationalRevenuePerCustomer | market_expansion.py:223 | national revenue per customer exists exactly when the country has customers |
| MarketExpansion.NationalRevenuePerCustomerNonNegative | market_expansion.py:223 | with non-negative state revenues, the national revenue per customer is never negative |
| MarketExpansion.RevenueSumNonNegative | market_expansion.py:223 | the revenue total of non-negative revenues is non-negative |
| MarketExpansion.CensusOf | market_expansion.py:179-190 | pairs each state's customer count with its context |
| MarketExpansion.RawPotential | market_expansion.py:186-229 | a state without context gets no rate, untapped count or revenue; with context its penetration rate is customers / urban population × 1000, its benchmark is its tier's benchmark, its untapped customers are `Untapped` against that benchmark, its economic factor is `EconomicFactor` against the national GDP mean, and its untapped revenue, present exactly when the national revenue per customer is, is untapped × factor × revenue per customer × factor (the factor applied twice, as in the adjusted count and again in the revenue); it is non-negative with a non-negative revenue per customer |
| MarketExpansion.ContextPotential | market_expansion.py:186-229 | with context, the penetration rate is customers per 1000 urban inhabitants (non-negative), the untapped count is `Untapped` against the benchmark, and the untapped revenue exists exactly with a national revenue per customer and is untapped × factor × revenue per customer × factor |
| MarketExpansion.UntappedExactlyBelowBenchmark | market_expansion.py:188-209 | a state with context has untapped customers exactly when its penetration rate is below its tier's benchmark rate |
| MarketExpansion.ProductNonNegative | market_expansion.py:218-229 | the untapped revenue (untapped × factor × revenue per customer × factor) is non-negative for a non-negative revenue per customer |
| MarketExpansion.RawColumn | market_expansion.py:186-229 | row i is the raw potential of state i in the census of the summary, against the national GDP mean of that census and the national revenue per customer; each carries its context, non-negative untapped customers and a factor of at most 2, and non-negative revenues give non-negative untapped revenue |
| MarketExpansion.RawPotentials | market_expansion.py:186-238 | one potential per census row, each the row-wise potential of that state against the national figures |
| MarketExpansion.ScaledColumn | market_expansion.py:231-238 | each state keeps every other column and gets as market potential score its untapped revenue as a share of the largest untapped revenue of the column (`ShareOfLargest` against `MaxPresent` of the revenue column), 0 when that largest is not positive; with non-negative revenues every score lies in [0, 1] |
| MarketExpansion.RevenueColumn | market_expansion.py:225-232 | the `untapped_revenue_potential` column, one entry per state |
| MarketExpansion.ScaledColumnKeepsOrder | market_expansion.py:231-238 | a state with no more untapped revenue than another never gets a higher market potential score |
| MarketExpansion.LargestRevenueScoresOne | market_expansion.py:231-238 | when the largest untapped revenue is positive, the state that has it scores exactly 1 |
| MarketExpansion.DivideMonotone | market_expansion.py:235-236 | dividing by the same positive maximum keeps the order of two revenues |
| MarketExpansion.ShareOfLargestInUnitInterval | market_expansion.py:232-238 | the market potential score (revenue over the largest, or 0 when that is not positive) lies in [0, 1] |
| MarketExpansion.PotentialColumn | market_expansion.py:186-238 | the potential columns are the scaled raw column: `ScaledColumn(RawColumn(rows, infos))`; context-bearing states have untapped ≥ 0 and factor ≤ 2; with non-negative revenues every market potential score lies in [0, 1] |
| MarketExpansion.OptimalSellerCount | market_expansion.py:274-277 | the optimal seller count is customers / 30 rounded up: the least n with 30n ≥ customers |
| MarketExpansion.SellerFitOf | market_expansion.py:267-295 | shortage iff more than 50 customers per seller; the optimal count is customers / 30 rounded up; gap − oversupply = optimal − sellers; the efficiency is `SellerEfficiency` of the sellers against the optimal count |
| MarketExpansion.SellerEfficiency | market_expansion.py:286-290 | the efficiency is 1 when no seller is needed, and otherwise times the optimal count gives min(sellers, optimal): the filled share of the optimal count, capped at 1 |
| MarketExpansion.ScaledBelow | market_expansion.py:286-290 | a quotient below 1 times a positive divisor stays below the divisor |
| MarketExpansion.ScaledAtLeast | market_expansion.py:286-290 | a quotient of at least 1 times a positive divisor reaches the divisor |
| MarketExpansion.SellerBalance | market_expansion.py:279-295 | a state never has both a seller gap and an oversupply; efficiency lies in [0, 1] and is 1 exactly when there is no gap |
| MarketExpansion.ShortageMeansGap | market_expansion.py:267-282 | more than 50 customers per seller always leaves a seller gap |
| MarketExpansion.MaximaOf | market_expansion.py:424-452 | each column maximum bounds every present value of its column |
| MarketExpansion.WeightsSumToOne | market_expansion.py:469-474 | the weights 0.35, 0.30, 0.20, 0.15 sum to 1 |
| MarketExpansion.PartialCombinedBounds | market_expansion.py:476-481 | after the first k weighted metrics the running score lies between 0 and the sum of those weights |
| MarketExpansion.CombinedScoreInUnitInterval | market_expansion.py:476-481 | with every metric in [0, 1] (missing as 0) the combined score lies in [0, 1] |
| MarketExpansion.SubScoresInUnitInterval | market_expansion.py:423-466 | market size, growth potential, operational feasibility and competitive scores each lie in [0, 1] for non-negative inputs bounded by their maxima |
| MarketExpansion.ExpansionPriority | market_expansion.py:484-512 | tier 1 gives exactly the two optimisation labels; "High Priority" only in tier 2; tier 2 only High, Medium or Low; "Not Recommended" only outside tiers 1 and 2 |
| MarketExpansion.ExpansionPriorityMonotone | market_expansion.py:484-512 | a higher score never lowers a state's priority within its tier |
| MarketExpansion.SmallMarketsNotRecommended | market_expansion.py:505-512 | outside tiers 1 and 2, a population of at most 1M (or none) is "Not Recommended" whatever the score |
| MarketExpansion.WithOpportunity | market_expansion.py:423-514 | every state gets the four sub-scores, their weighted combination and its priority |
| MarketExpansion.ColumnMax | market_expansion.py:424-452 | the column maximum used for normalising is present whenever some state has a value, and bounds every value |
| MarketExpansion.QuotientBelowOne | market_expansion.py:279-295 | a non-negative value divided by a positive maximum is non-negative, and below 1 exactly when the value is below the maximum |
| MarketExpansion.ScoreRows | market_expansion.py:423-514 | the scoring loop gives every state exactly its opportunity score and priority |
| MarketExpansion.CombinedScoresInUnitInterval | market_expansion.py:423-481 | every state's combined opportunity score lies in [0, 1] for the inputs the earlier stages produce |
| MarketExpansion.TooSmallMarketGetsOnlyRejection | market_expansion.py:588-593 | a state outside tiers 1 and 2, under 1M people and not large enough for selective entry, gets exactly the single "NOT RECOMMENDED" line; no other state gets it |
| MarketExpansion.DeliveryRecommendationRule | market_expansion.py:595-605 | otherwise, a distribution centre iff delivery > 25 days, logistics partners iff 15 < delivery ≤ 25, value products iff GDP < 20000, premium products iff GDP > 40000 |
| MarketExpansion.TierRecommendationsKeepToTiers | market_expansion.py:568-592 | the tier-specific part never issues a delivery or an economic-context recommendation: those come only from the universal rules |
| MarketExpansion.TopRecommendations | market_expansion.py:524-542 | fails exactly when one of the first min(10, n) ranked states has key metrics that cannot be built; otherwise one entry per such state, in rank order, with its state, its priority, its combined score as the opportunity score, its key metrics and its rule-based recommendations |
| MarketExpansion.KeyMetricsOf | market_expansion.py:533-539 | customers, sellers, seller gap and delivery days are the row's own; untapped customers are `int()` of the untapped count, 0 when the column was never added; the metrics fail exactly when the untapped count is missing (NaN) |
| MarketExpansion.KeyMetricsFailWithoutContext | market_expansion.py:179-209 | after the potential columns are attached, a state's key metrics fail exactly when it has no census context, and otherwise count a non-negative number of untapped customers |
| MarketExpansion.ReportedHighCountAlwaysZero | market_expansion.py:870 | the report's "high expansion priority" count, which filters on "Critical Priority", is always 0 |
| MarketExpansion.IntendedCountsSeeTheirLabels | market_expansion.py:870-871 | the corrected counts are positive exactly when a state carries "High Priority", resp. "Medium Priority" |
| MarketExpansion.CountLabelPositive | market_expansion.py:870-871 | a label count is positive exactly when some state carries that label |
| MarketExpansion.ReportMissesHighPriorityState | market_expansion.py:497-499 | a tier-2 state scoring 0.8 is "High Priority", yet the report's high count for it is 0 while the corrected count is 1 |
| MarketExpansion.InfoColumn | market_expansion.py:179-184 | each summary row gets the census context of its state, or none |
| MarketExpansion.WithPotential | market_expansion.py:179-238 | row i gets the i-th entry of the potential column as its potential, and nothing else in any row changes |
| MarketExpansion.WithSellerFit | market_expansion.py:259-295 | each row gets the seller fit of its own aggregates |
| MarketExpansion.StateValues | market_expansion.py:338-349 | the recorded values of a column over the orders whose customer is in the state; none exactly when no order of the state records it |
| MarketExpansion.StateValuesFromOrders | market_expansion.py:344-348 | every value averaged for a state is recorded on one of that state's orders |
| MarketExpansion.RecordedDaysAreValued | market_expansion.py:344-348 | a state has delivery days to average exactly when one of its orders records them |
| MarketExpansion.WithDeliveryDetail | market_expansion.py:365-377 | every row of the summary is refreshed with the per-state delivery means over orders, in place and in order |
| MarketExpansion.DeliveryDaysFromOrders | market_expansion.py:344-374 | a state with recorded delivery days on its orders gets their mean (mean × count = sum); any other state keeps its city-level mean |
| MarketExpansion.DeliveryDetailKeepsTheRest | market_expansion.py:365-377 | only the two delivery columns change: state, counts, revenue, metrics, potential and seller fit stay, so a scoreable summary stays scoreable |
| MarketExpansion.OnTimeRateStaysAProportion | market_expansion.py:344-377 | with 0/1 on-time flags, an on-time rate in [0, 1] stays in [0, 1] |
| MarketExpansion.DeliveryDetailIdempotent | market_expansion.py:372-377 | refreshing the delivery columns twice from the same orders gives the same summary as once |
| MarketExpansion.RankByCombined | market_expansion.py:520-522 | ranking is a permutation ordered by combined score, highest first, keeping every scored column |
| MarketExpansion.RankingKeepsColumns | market_expansion.py:520-522 | the sorted matrix still has every column filled in |
| MarketExpansion.MarketExpansionAnalyzer.constructor | market_expansion.py:36-42 | starts with an empty state summary |
| MarketExpansion.MarketExpansionAnalyzer.AnalyzeMarketPenetration | market_expansion.py:71-138 | the summary becomes the sorted penetration table |
| MarketExpansion.MarketExpansionAnalyzer.CalculateUntappedPotential | market_expansion.py:140-257 | fails, leaving the summary unchanged, exactly when no state of the summary is in the census table (the `population` column is then never created and reading it raises), which includes an empty summary; otherwise the per-state loop attaches census context and the potential columns are derived from it |
| MarketExpansion.MarketExpansionAnalyzer.EvaluateSellerDistribution | market_expansion.py:259-295 | every row gets its seller fit |
| MarketExpansion.MarketExpansionAnalyzer.AnalyzeDeliveryPerformanceByGeography | market_expansion.py:331-414 | the summary becomes the delivery-refreshed summary over the given orders |
| MarketExpansion.MarketExpansionAnalyzer.GenerateExpansionOpportunityMatrix | market_expansion.py:416-559 | the summary gets opportunity columns; the result is the ranking by combined score and the top-ten recommendations, which fail (after the summary was scored) when a top-ten state has no untapped count |
| MarketExpansion.AccumulateCombined | market_expansion.py:476-481 | the accumulating loop yields, for every state, the weighted combination of its four metrics with missing values as 0 |
| SeasonalAnalysis.EventCalendarCoversYear | seasonal_analysis.py:40-53 | the Brazilian event calendar has an entry for a month exactly when it is one of 1..12 |
| SeasonalAnalysis.ImpactScore | seasonal_analysis.py:396 | the impact scores low, medium, high and very high lie in 1..4 |
| SeasonalAnalysis.ImpactScoreInjective | seasonal_analysis.py:396 | two impact levels with the same score are the same level |
| SeasonalAnalysis.HolidayImpactOf | seasonal_analysis.py:396-399 | `holiday_impact` is in 1..4 and, for a calendar month, is the score of that month's event |
| SeasonalAnalysis.SeasonsPartitionYear | seasonal_analysis.py:114-117 | each of the months 1..12 carries exactly one of the summer, autumn, winter and spring flags, and any other value carries none |
| SeasonalAnalysis.QuarterNamesDifferFromSeasonFlags | seasonal_analysis.py:114-117 | the quarterly season names disagree with the month flags: December is flagged summer but its quarter is named "Spring", March is flagged autumn but its quarter is named "Summer"; also covers seasonal_analysis.py:187-189. |
| SeasonalAnalysis.ModelData | seasonal_analysis.py:402-408 | the model rows are the history sorted chronologically (`SortBy` on year × 12 + month) without its first three rows, whose lags are missing: in chronological order, the dropped rows no later than any kept row, three fewer rows than the history (none below three), all taken from it |
| SeasonalAnalysis.DropEarliest | seasonal_analysis.py:402-408 | dropping the first three rows of a chronological table keeps it chronological, and the dropped rows are the earliest |
| SeasonalAnalysis.SuffixKeepsMonths | seasonal_analysis.py:402-408 | rows kept after sorting and dropping are rows of the history, so they keep valid months |
| Common.Trunc | seasonal_analysis.py:517-521 | Python's `int()` of a float truncates toward zero: within one below a non-negative value and within one above a negative value |
| Common.TruncMonotone | seasonal_analysis.py:517-521 | truncation never reverses the order of two values |
| SeasonalAnalysis.NextMonth | seasonal_analysis.py:466 | `(month + i - 1) % 12 + 1` is always a calendar month |
| SeasonalAnalysis.Forecasts | seasonal_analysis.py:464-526 | k forecast steps produce exactly k forecasts |
| SeasonalAnalysis.BuildDemandForecast | seasonal_analysis.py:461-526 | fails with "Insufficient data for forecasting" exactly when fewer than ten rows have all lags; otherwise the loop that appends one forecast per step yields the three forecasts of the specification function; also covers seasonal_analysis.py:410-412. |
| SeasonalAnalysis.ForecastMonthsConsecutive | seasonal_analysis.py:466-467 | the three forecast months are the three months after the last month of history, each one month after the previous, moving to January of the next year after December |
| SeasonalAnalysis.ForecastCalendar | seasonal_analysis.py:464-467 | the k-th forecast (0-based) is dated k+1 months after the last month of history |
| SeasonalAnalysis.CalendarStep | seasonal_analysis.py:466-467 | `(m + i - 1) % 12 + 1` and the year carry advance by one month at a time, wrapping December to January of the next year |
| SeasonalAnalysis.ForecastAt | seasonal_analysis.py:464-526 | forecast k is computed from the k forecasts appended before it |
| SeasonalAnalysis.ForecastLagSources | seasonal_analysis.py:479-498 | step 2 lags on forecast 1 and twice on the last actual month; step 3 lags on forecasts 2 and 1 and the last actual month; order lags use the truncated predicted counts |
| SeasonalAnalysis.ForecastIntervals | seasonal_analysis.py:512-523 | each revenue interval contains its prediction and is symmetric around it, the orders' lower bound is never negative, and each forecast names the event of its own month |
| SeasonalAnalysis.ForecastOrderBounds | seasonal_analysis.py:517-521 | for a non-negative order prediction the truncated count lies between the truncated lower and upper bounds |
| SeasonalAnalysis.ClassifySeasonalityMonotone | seasonal_analysis.py:655-663 | a larger coefficient of variation (an infinite one included) never gets a lower seasonality level |
| SeasonalAnalysis.CategoryVariation | seasonal_analysis.py:645-647 | the category CV is std / mean, 0 when the deviation is missing or both are 0, and infinite exactly when the mean is 0 and the deviation is positive |
| SeasonalAnalysis.OverallVariation | seasonal_analysis.py:587 | the overall CV is 0 unless the mean is positive, and then CV × mean = std; also covers seasonal_analysis.py:591. |
| SeasonalAnalysis.PeakToTrough | seasonal_analysis.py:650-652 | the ratio is 0 when the smallest month is 0 (inf or NaN replaced), otherwise at least 1 and ratio × smallest = largest |
| SeasonalAnalysis.AverageRevenue | seasonal_analysis.py:745-746 | the average exists exactly for a non-empty table and times the number of months gives the total revenue |
| SeasonalAnalysis.PreviousMonth | seasonal_analysis.py:768-770 | the preparation month is the month whose next month is the high-season month (December before January) |
| SeasonalAnalysis.FollowingMonth | seasonal_analysis.py:778-780 | the clearance month is the next month, and its previous month is the high-season month |
| SeasonalAnalysis.HighSeasonMonths | seasonal_analysis.py:748-759 | no more high-season entries than table rows, each a calendar month |
| SeasonalAnalysis.LowSeasonMonths | seasonal_analysis.py:760-766 | no more low-season entries than table rows |
| SeasonalAnalysis.HighSeasonFromRows | seasonal_analysis.py:748-759 | every listed high-season month comes from a row more than 20% above the average, with its event and revenue multiplier |
| SeasonalAnalysis.LowSeasonFromRows | seasonal_analysis.py:753-766 | every listed low-season month comes from a row that is not high season and is more than 20% below the average |
| SeasonalAnalysis.HighRowsListed | seasonal_analysis.py:748-759 | every row more than 20% above the average is listed as high season |
| SeasonalAnalysis.LowRowsListed | seasonal_analysis.py:760-766 | every row not above the high threshold and more than 20% below the average is listed as low season |
| SeasonalAnalysis.SeasonsDisjoint | seasonal_analysis.py:753-766 | with one row per month, no month is both high and low season |
| SeasonalAnalysis.HighSeasonMultiplier | seasonal_analysis.py:753-758 | with a positive average, a high-season month's revenue multiplier exceeds 1.2 |
| SeasonalAnalysis.LowSeasonMultiplier | seasonal_analysis.py:760-765 | with a positive average, a low-season month's revenue multiplier is below 0.8 |
| SeasonalAnalysis.OverallInventoryStrategy | seasonal_analysis.py:735-786 | the high and low season lists are those of the specification functions; there is one preparation month (the previous month) and one clearance month (the following month) per high-season month, each with its own event name and the high-season event |
| SeasonalAnalysis.SeasonScan | seasonal_analysis.py:748-766 | the scan over the months yields exactly the high- and low-season months relative to the average revenue |
| SeasonalAnalysis.PreparationMonths | seasonal_analysis.py:768-776 | one preparation entry per high-season month: the month before it, with that month's event and the high-season event |
| SeasonalAnalysis.ClearanceMonths | seasonal_analysis.py:778-786 | one clearance entry per high-season month: the month after it, with that month's event and the high-season event |
| SeasonalAnalysis.CategoryPlanOrdered | seasonal_analysis.py:805-820 | a more seasonal category gets a seasonal adjustment no lower, a strictly higher risk level and a buffer stock no higher |
| SeasonalAnalysis.PlanByRank | seasonal_analysis.py:805-820 | each seasonality level's plan is linear in its rank: adjustment 20r to 20r+20 (0 for the lowest), buffer 25−5r to 30−5r, and the risk of the same rank |
| SeasonalAnalysis.ForecastPlanOrdered | seasonal_analysis.py:853-864 | a stronger expected impact gets an inventory increase and a lead time no smaller |
| SeasonalAnalysis.SortByRevenue | seasonal_analysis.py:834 | the category recommendations are a permutation of the input in non-increasing average monthly revenue |
| SeasonalAnalysis.Filter | seasonal_analysis.py:894-899 | keeps exactly the recommendations whose level passes the test, as a subsequence of the input: in input order |
| SeasonalAnalysis.FilterCounts | seasonal_analysis.py:894-899 | each passing category appears in the filtered list exactly as often as in the input, and no other category appears |
| SeasonalAnalysis.SubsequenceMembers | seasonal_analysis.py:894-899 | entries of a subsequence are entries of the whole |
| SeasonalAnalysis.SubsequenceKeepsOrder | seasonal_analysis.py:892-899 | leaving entries out of a list in non-increasing revenue order keeps it in that order |
| SeasonalAnalysis.RiskListsBounded | seasonal_analysis.py:892-901 | each risk list holds at most ten categories, only of its levels, and all of them when there are at most ten |
| SeasonalAnalysis.RiskListsInRevenueOrder | seasonal_analysis.py:892-901 | over the revenue-sorted recommendations, each risk list is the first min(10, k) of the k categories of its levels, in order, so in non-increasing revenue order |
| SeasonalAnalysis.CategoryRecommendationOf | seasonal_analysis.py:655-663 | a category's level is the classification of its CV and its plan is the plan of that level; also covers seasonal_analysis.py:797-832. |
| PaymentOperations.Where | payment_operations.py:147 | a boolean filter keeps, in order, exactly the rows that pass, as many as the mask counts |
| PaymentOperations.GroupKeys | payment_operations.py:159 | the group keys of a `groupby` are distinct and are exactly the non-missing keys of the rows; also covers payment_operations.py:173. |
| PaymentOperations.Group | payment_operations.py:159 | a group holds exactly the rows carrying its key; also covers payment_operations.py:173. |
| PaymentOperations.GroupNonEmpty | payment_operations.py:159 | every group of a `groupby` has a row; also covers payment_operations.py:173. |
| PaymentOperations.GroupOnTimeRate | payment_operations.py:163 | `x.sum() / len(x) * 100` counts a missing flag against the group: the rate lies within 0..100 and times the group size gives 100 × the on-time rows; also covers payment_operations.py:177. |
| PaymentOperations.AverageReview | payment_operations.py:160 | the group's satisfaction is the mean of its review scores |
| PaymentOperations.Cut | payment_operations.py:150-156 | `pd.cut` with `include_lowest`: no bin below the first edge; bin 0 takes the first edge itself; otherwise the bin b with edge[b] < x ≤ edge[b+1] |
| PaymentOperations.InstallmentBands | payment_operations.py:150-156 | installments 0–1 are a single payment, 2–3, 4–6, 7–12 and more than 12 their bands, and a negative count gets no band |
| PaymentOperations.InstallmentBandsMonotone | payment_operations.py:150-156 | more installments never fall in a lower band |
| PaymentOperations.SatisfactionData | payment_operations.py:147 | the satisfaction data are exactly the payments with a review score |
| PaymentOperations.CategoryRow | payment_operations.py:159-164 | a band's review count is its number of reviewed payments; its average exists exactly when the count is positive |
| PaymentOperations.InstallmentSatisfaction | payment_operations.py:159-170 | one row per band in band order (categorical `groupby` keeps empty bands), each counting its reviewed payments, with an average exactly when non-empty |
| PaymentOperations.BandAverageWithinScores | payment_operations.py:159-164 | a band's average satisfaction lies within any bounds of the review scores |
| PaymentOperations.PaymentSatisfaction | payment_operations.py:173-178 | row i is the aggregate of the i-th payment-type group of the reviewed payments: its type, its review count, the mean of its review scores and its on-time rate (missing flags counted as not on time) |
| PaymentOperations.TypeRows | payment_operations.py:173-178 | one row per key, in key order, each the aggregate of that key's group |
| PaymentOperations.TypeRow | payment_operations.py:173-178 | a payment type's row: `count` is the size of its group (at least 1), `mean` the average of the group's review scores, and the on-time rate that of the group |
| PaymentOperations.PaymentSatisfactionSound | payment_operations.py:173-178 | every payment-type row stems from a reviewed payment of that type |
| PaymentOperations.TypeRowWitness | payment_operations.py:173-178 | each row of the satisfaction table has a reviewed payment of its type behind it |
| PaymentOperations.PaymentSatisfactionComplete | payment_operations.py:173-178 | every reviewed payment's type has a row |
| PaymentOperations.PaymentSatisfactionEmpty | payment_operations.py:173-178 | the satisfaction table is empty exactly when no payment carries a review score |
| PaymentOperations.RegionalSatisfaction | payment_operations.py:190-195 | one row per (state, payment type) group of the reviewed payments, in group order, each its group's aggregate |
| PaymentOperations.RegionalRowOf | payment_operations.py:190-195 | a (state, type) row names its pair, counts its group's orders (at least 1), averages its review scores and gives the group's on-time rate |
| PaymentOperations.SignificantRegions | payment_operations.py:203 | keeps, in order, exactly the groups of at least 50 orders |
| PaymentOperations.OnTimeDeliveryRate | payment_operations.py:244-245 | `sum() / count() * 100` skips missing flags: the rate exists exactly when some flag is known and lies within 0..100 |
| PaymentOperations.DeliveryMetricsOf | payment_operations.py:233-248 | fails (division by zero) exactly on an empty table; otherwise the delivered count is the number of delivered orders, at most the total, the delivery rate is their percentage and the on-time rate is the known-flag rate |
| PaymentOperations.MetricsLookups | payment_operations.py:289 | the metrics dictionary has no "avg_satisfaction", so the baseline is the default 4.0, while "on_time_delivery_rate" is read as stored; also covers payment_operations.py:457. |
| PaymentOperations.StateRow | payment_operations.py:266-270 | a state's row counts the orders of its group (at least 1) and gives the group's on-time rate, within 0..100 |
| PaymentOperations.StatePerformanceOf | payment_operations.py:266-280 | sorted by non-increasing on-time rate, the table holds each state's own row exactly once and nothing else |
| PaymentOperations.StateRows | payment_operations.py:266-280 | one row per state key, in key order, each that state's own row |
| PaymentOperations.StateTableReordered | payment_operations.py:280 | any reordering of the per-state rows holds each state's row exactly once and nothing else |
| PaymentOperations.StatesPresent | payment_operations.py:266-280 | the state table has a row exactly when some payment has a state |
| PaymentOperations.DelayImpactOf | payment_operations.py:283-289 | one row per delivery-accuracy class, in group order, each that class's own row |
| PaymentOperations.DelayRow | payment_operations.py:283-289 | a class's row counts its orders and averages their review scores; the impact is that average minus the `avg_satisfaction` baseline (4.0 when absent), and missing exactly when either is |
| PaymentOperations.SatisfactionImpactAgainstFour | payment_operations.py:289 | the satisfaction impact exists exactly when the class has an average and is that average minus 4.0 |
| PaymentOperations.ReviewRow | payment_operations.py:292-297 | a payment type's reviews are its reviewed orders, at most its orders, and the rate is their percentage |
| PaymentOperations.ReviewRatesOf | payment_operations.py:292-298 | one review-rate row per payment type |
| PaymentOperations.Shares | payment_operations.py:345-349 | `crosstab(normalize='index') * 100`: the shares are non-negative, positive exactly for used types, and add up to 100 |
| PaymentOperations.ScaledSigns | payment_operations.py:345-349 | scaling counts by a positive factor gives non-negative shares, positive exactly where the count is |
| PaymentOperations.ConcentrationAtMostSquare | payment_operations.py:352-354 | the sum of squared shares is at most the square of their total, with equality exactly when one type takes everything |
| PaymentOperations.ConcentrationPositive | payment_operations.py:352-354 | one used payment type makes the concentration positive |
| PaymentOperations.DiversityRange | payment_operations.py:352-354 | the diversity index `1 - sum((x/100)**2)` lies in [0, 1) and is 0 exactly when a single payment type is used |
| PaymentOperations.PreferenceOf | payment_operations.py:356-359 | "High Installment Usage" exactly when the average exceeds a present median |
| PaymentOperations.Preferences | payment_operations.py:356-359 | each state is "High Installment Usage" exactly when its average installments exceed the median of the column |
| PaymentOperations.HighAtMostHalf | payment_operations.py:356-359 | strictly above the median: at most half of the states are high-usage |
| PaymentOperations.StateDiversity | payment_operations.py:345-354 | each state's diversity lies in [0, 1) |
| PaymentOperations.RegionalAnalysis | payment_operations.py:330-359 | one profile per state in group order; profile i holds that state's mean installments and its Herfindahl diversity, in [0, 1), and the preference column is the median split of the installment column |
| PaymentOperations.StateAverageInstallments | payment_operations.py:330-340 | a state's `avg_installments` is the mean of its present installment counts |
| PaymentOperations.AverageColumn | payment_operations.py:330-340 | the installment column holds each state's own average, in key order |
| PaymentOperations.Profiles | payment_operations.py:330-359 | profile i is the profile of state key i with its own installment average and preference |
| PaymentOperations.ProfileOf | payment_operations.py:344-352 | a profile names its state, carries the given average and preference, and its diversity is the state's Herfindahl diversity, in [0, 1) |
| PaymentOperations.HighUsageStates | payment_operations.py:356-359 | at most half of the states are listed as high installment usage |
| PaymentOperations.ArgMax | payment_operations.py:211 | `idxmax` picks the first row holding the largest value; also covers payment_operations.py:416. |
| PaymentOperations.BestBand | payment_operations.py:218 | `idxmax` over band averages skips empty bands: none exactly when every band is empty, otherwise a band with the largest average; also covers payment_operations.py:444. |
| PaymentOperations.LastStates | payment_operations.py:430 | `tail(3)`: the last (at most) three states of the sorted table, in order |
| PaymentOperations.LowReviewTypes | payment_operations.py:471 | exactly the payment types whose review rate is below 50%, in table order |
| PaymentOperations.PaymentPart | payment_operations.py:414-424 | one "Payment Method Optimization" recommendation exactly when satisfaction by payment type was stored |
| PaymentOperations.RegionalPart | payment_operations.py:427-437 | one "Regional Operations" recommendation exactly when the state table was stored |
| PaymentOperations.TermsPart | payment_operations.py:440-452 | one "Payment Terms" recommendation exactly when a non-empty installment table was stored |
| PaymentOperations.DeliveryPart | payment_operations.py:455-467 | one critical "Delivery Operations" recommendation exactly when the on-time rate is below 80% |
| PaymentOperations.EngagementPart | payment_operations.py:470-481 | one "Customer Engagement" recommendation exactly when some type's review rate is below 50%, naming exactly those types |
| PaymentOperations.OperationalRecommendations | payment_operations.py:407-484 | fails (idxmax of nothing) exactly when the stored payment table is empty; otherwise at most five recommendations |
| PaymentOperations.RecommendationParts | payment_operations.py:407-484 | the recommendations are exactly those of the five parts |
| PaymentOperations.RecommendationTriggers | payment_operations.py:407-484 | each kind of recommendation appears exactly when its trigger holds; a critical one exactly when on-time delivery is below 80% |
| PaymentOperations.PromoteTrigger | payment_operations.py:407-420 | a payment method is promoted exactly when the satisfaction table is present |
| PaymentOperations.FocusTrigger | payment_operations.py:407-484 | regional delivery focus is recommended exactly when the state performance table is present |
| PaymentOperations.CriticalTrigger | payment_operations.py:407-484 | a critical recommendation appears exactly when on-time delivery is below 80% |
| PaymentOperations.ReviewTrigger | payment_operations.py:470-481 | raising review rates is recommended exactly when some payment type has a low review rate |
| PaymentOperations.BuildRecommendations | payment_operations.py:407-484 | the sequential appends produce exactly the recommendations the results call for, or the same failure |
| PaymentOperations.EngagementNamesLowTypes | payment_operations.py:470-481 | the engagement recommendation names exactly the payment types with review rate under 50% |
| PaymentOperations.PaymentOperationsAnalyzer.constructor | payment_operations.py:33-41 | the analyzer holds the merged payment rows and no results |
| PaymentOperations.PaymentOperationsAnalyzer.AnalyzeInstallmentSatisfactionRelationship | payment_operations.py:142-226 | stores the installment, payment-type and significant regional tables; succeeds exactly when some payment has a review |
| PaymentOperations.PaymentOperationsAnalyzer.CalculateOperationalPerformanceMetrics | payment_operations.py:228-323 | on an empty table stores nothing and fails; otherwise stores metrics, state, delay and review tables, and succeeds exactly when some payment has a state |
| PaymentOperations.PerformanceStep | payment_operations.py:228-323 | on an empty table nothing is stored and the step fails; otherwise the four performance tables are stored and the step succeeds exactly when some payment has a state |
| PaymentOperations.PaymentOperationsAnalyzer.AnalyzeRegionalPaymentBehavior | payment_operations.py:325-405 | succeeds exactly when some payment has a state, and then stores the regional profiles; otherwise (`pd.cut` on an empty column raises) nothing is stored |
| PaymentOperations.PaymentOperationsAnalyzer.GenerateOperationalRecommendations | payment_operations.py:407-484 | returns the recommendations of the stored results and stores them, or fails and changes nothing |
| CleanedData.FileName | save_cleaned_data.py:35-36 | a saved table's file name starts with "cleaned_", ends with ".csv" and is exactly those two around the name |
| CleanedData.RemoveAll | save_cleaned_data.py:136 | `str.replace(pat, "")` never lengthens a string |
| CleanedData.ParseName | save_cleaned_data.py:134-136 | a file is taken as a table exactly when it starts with "cleaned_" and ends with ".csv"; the name is then no longer than the file name |
| CleanedData.AbsentUnchanged | save_cleaned_data.py:136 | removing a pattern that does not occur changes nothing |
| CleanedData.PresentShrinks | save_cleaned_data.py:136 | removing a pattern that occurs makes the string shorter |
| CleanedData.RemoveAllIdentity | save_cleaned_data.py:136 | `replace(pat, "")` leaves a string unchanged exactly when the pattern does not occur in it |
| CleanedData.ParseFileName | save_cleaned_data.py:35-36 | the name read back from a saved file is the table name with every "cleaned_" and then every ".csv" removed; also covers save_cleaned_data.py:134-136. |
| CleanedData.NameRoundTrip | save_cleaned_data.py:35-36 | a table name survives saving and loading exactly when it contains neither "cleaned_" nor ".csv"; also covers save_cleaned_data.py:134-136. |
| CleanedData.CleanedTablesRoundTrip | save_cleaned_data.py:35-36 | every table the cleaner produces gets its own name back when reloaded; also covers save_cleaned_data.py:134-136. |
| CleanedData.PlanFor | save_cleaned_data.py:96-131 | a table without an entry in the conversion table gets no conversion; also covers save_cleaned_data.py:143-144. |
| CleanedData.Converted | save_cleaned_data.py:147-150 | a category conversion keeps the cells and sets the dtype to "category" |
| CleanedData.ConvertOne | save_cleaned_data.py:145-153 | one conversion keeps the rows and the column names and changes no other column |
| CleanedData.ConvertAll | save_cleaned_data.py:143-153 | the conversions keep the rows and column names and leave every unplanned column as it was |
| CleanedData.PlannedColumn | save_cleaned_data.py:145-153 | with one conversion per column, a planned column that is present ends restored to its target type, or unchanged when the conversion raised |
| CleanedData.TypeConversionsDistinct | save_cleaned_data.py:96-131 | each table's conversion list names each column once |
| CleanedData.LoadedComplete | save_cleaned_data.py:133-159 | every readable "cleaned_*.csv" file yields a dataset under its parsed name |
| CleanedData.LoadedSound | save_cleaned_data.py:133-159 | every loaded dataset comes from a readable file with that parsed name |
| CleanedData.LoadedFromLast | save_cleaned_data.py:133-159 | a dataset holds the contents of the last readable file with its name, with types restored |
| CleanedData.RestoreTypes | save_cleaned_data.py:143-153 | the loop over the planned conversions yields exactly the specified conversion |
| CleanedData.LoadCleanedDatasets | save_cleaned_data.py:76-162 | a missing directory gives no datasets; otherwise the loop over the listing yields exactly the specified loading |
| CleanedData.Saved | save_cleaned_data.py:33-69 | one file per table plus the two text reports |
| CleanedData.TableFiles | save_cleaned_data.py:33-37 | one file per table, in table order |
| CleanedData.ReportsSkipped | save_cleaned_data.py:42-44 | neither the cleaning report nor the summary is read back as a table; also covers save_cleaned_data.py:67-69 and save_cleaned_data.py:134. |
| CleanedData.LoadedAppend | save_cleaned_data.py:133-159 | loading one more file adds or replaces its dataset when readable and changes nothing otherwise |
| CleanedData.LoadTableFiles | save_cleaned_data.py:133-159 | reloading the saved table files yields exactly the saved tables, each with types restored; also covers save_cleaned_data.py:33-37. |
| CleanedData.ExtendPrepared | save_cleaned_data.py:133-159 | adding one more prepared table keeps the loaded map holding exactly the processed names, each with its own prepared frame |
| CleanedData.SaveThenLoad | save_cleaned_data.py:17-69 | when no table name contains "cleaned_" or ".csv" and the directory holds only the files just saved, saving and reloading gives back exactly the saved tables, each with its types restored; also covers save_cleaned_data.py:76-162. |
| CleanedData.ReportsIgnored | save_cleaned_data.py:133-159 | the report and summary text files written beside the tables never change what is loaded; also covers save_cleaned_data.py:17-69. |

## Left out

- Streamlit pages, charts, and the text and markdown reports: `create_visualizations`, `generate_report`, `generate_comprehensive_report` of the payment analyzer, `create_seasonal_intelligence_report`, `generate_validation_report` and `generate_cleaning_report`. These are presentation and file output. Only the recommendation and verdict logic that feeds them is modelled.
- Logging, `print`, wall-clock timestamps in logs and reports, and the free-text `insights` lists are output only.
- CSV reading and writing (`load_data`, `_load_datasets`, `to_csv`, `read_csv` with its encoding fallback) is I/O. Tables are given as values. Directory contents on load are a parameter, and the summary file's text is not modelled.
- `pd.to_datetime` is a parameter of the loader that may fail per column. The cleaner's `convert_data_types` is not modelled: it only changes dtypes, which the typed records already have.
- The sklearn part of the forecast (the train/test split, fitting the random forests, the test metrics) is not modelled. The fitted regressors are opaque functions, and the residual spread is a non-negative parameter.
- Floating point: every score, ratio and mean is an exact real. Python's `round(x, 2)` on reported percentages and averages is not modelled, so reported values are unrounded. Standard deviation, `pct_change` and correlation are either parameters or not modelled. Rounded values also drive decisions in the source, and the model decides on unrounded ones instead: `review_rate < 50` is tested after `.round(2)` (payment_operations.py:298, 471), the installment preference compares rounded state averages with their median (payment_operations.py:336, 356-357), and ties for `idxmax` in the installment table can arise from `.round(2)` (payment_operations.py:164). Values within rounding of a threshold, or of each other, may therefore be decided differently.
- Sort order: pandas' `sort_values` uses an unstable quicksort. The model sorts stably, so rows with equal keys keep their input order, while pandas may order them differently.
- Group order: `groupby` emits keys in sorted order. The model's groups come in order of first appearance, and only per-group contents and counts are stated. Ties are resolved by that order too: where two groups tie for `idxmax` or `idxmin` (payment_operations.py:416-417), or at the boundary of the stable `tail(3)` (payment_operations.py:430), the model picks the group that appears first in the data, whereas pandas picks by sorted key.
- `PaymentOperations.BestBand`: the model returns no band when every band average is missing. In that case pandas' `idxmax` returns NaN or raises, depending on the version.
- `analyze_payment_method_preferences` is not modelled: it is aggregation and sorting for the report. The seasonal and holiday payment tables of `analyze_regional_payment_behavior` (payment_operations.py:368-384) are not modelled either: they are grouped sums with no rule attached.
- `economic_segment` (payment_operations.py:361-365) is not modelled: it is a three-bin equal-width `pd.cut`, whose edges depend on floating-point range padding.
- `MarketExpansion.MarketExpansionAnalyzer.AnalyzeDeliveryPerformanceByGeography`: the median and standard deviation of delivery days, the delivery performance category bins, the `delivery_efficiency_score` column and the insights (market_expansion.py:344-414) are not modelled. They feed only charts and report text. The replacement of the mean delivery days and the on-time rate, which the opportunity scoring, the delivery recommendations and the key metrics read, is modelled.
- Grouping keys held as plain strings cannot be missing in the model: the payment type, the order status and the translated product category. So the rows with a NaN key, which `groupby` drops, do not arise.
- The following are grouped aggregations feeding reports, and are not modelled beyond the event calendar, the season flags, the impact scores and the variation measures listed above: `prepare_seasonal_data`, `analyze_monthly_seasonal_patterns` and `analyze_brazilian_holiday_impact`.
- `create_master_analytical_datasets`, `save_feature_dictionary`, `save_master_datasets` and `load_feature_engineered_datasets` are not modelled. They are merges and file output of features that are modelled row by row.
- `Quality.DataQualityChecker.CheckDataTypes`: the sample values column (the first five values printed and cut to 100 characters) is not modelled.
- `Quality.DataQualityChecker.constructor`: the unused `quality_issues` dictionary is not modelled.
- `SeasonalAnalysis.SortByRevenue`: only the category sort at seasonal_analysis.py:834 is modelled. The report-only sort of seasonality rankings is not.
- `CleanedData.Converted`: the generic `astype(dtype)` branch (save_cleaned_data.py:150-151) is not modelled. Every conversion in the loader's table is a datetime or a category, so that branch cannot be taken.
- `DataCleaning.DataCleaner.RemoveDuplicates`: the cleaner's `cleaning_log` is not modelled in any of its methods. This includes the counts of removed rows that this method writes to the log. The resulting tables are modelled.
- `SeasonalAnalysis.OverallVariation`: the deviation is a real. A table with a single month, where pandas' sample standard deviation and so the CV are NaN, is not covered.
- The unbounded `int` model does not capture 64-bit overflow of counts and sums. No realistic table reaches it.
- `PaymentOperations.PaymentOperationsAnalyzer.CalculateOperationalPerformanceMetrics`: the per-payment-type `payment_performance` table (payment_operations.py:250-263) is not modelled. Its mean, median and standard deviation of delivery days, mean processing, shipping and review columns and order counts are rounded group statistics with no rule attached. The overall delivery metrics, including the mean and median delivery days, are modelled.
- `Quality.RangeEntryOf`: the `Mean` and `Std` columns of a range row (data_quality_check.py:119-120) are not modelled. They are rounded statistics that no verdict reads; the quartiles, bounds, outlier count and severity are modelled.
- `SeasonalAnalysis.PeakToTrough`: the peak and trough month lookup with `idxmax` and `idxmin` (seasonal_analysis.py:597-613) is not modelled. It only selects the months that are printed.

## Findings

| source | as written | input that shows it | evidently intended | confidence | as-written member | corrected member |
|---|---|---|---|---|---|---|
| market_expansion.py:870-871 | the "high expansion priority" count filters on "Critical Priority", a label `categorize_expansion_priority` never returns, and the "medium" count filters on "High Priority" | one tier-2 state with combined score 0.8: it is labelled "High Priority", yet the report says 0 states have high priority | count "High Priority" states as high and "Medium Priority" states as medium | high; not executed | MarketExpansion.ReportedHighCountAlwaysZero, MarketExpansion.ReportMissesHighPriorityState | MarketExpansion.IntendedCountsSeeTheirLabels |
| data_quality_check.py:48 | `pd.DataFrame(missing_analysis).sort_values('Missing_Percentage')` on an empty list: a frame built from no rows has no columns, so the sort raises KeyError | datasets with no missing cell, e.g. an orders table whose only column `order_id` holds one value | an empty missing-values table, which the report already handles with "No missing values found!" (data_quality_check.py:258-269) | high; not executed | Quality.CompleteDataCrashesMissingCheck, Quality.MissingCheckCounterexample | Quality.DataQualityChecker.CheckMissingValues |
| data_quality_check.py:68 | the same sort on the duplicate rows raises KeyError when no dataset is loaded | a checker built with an empty datasets dictionary | an empty duplicates table | medium; not executed | Quality.NoDatasetsCrashesDuplicateCheck | Quality.DataQualityChecker.CheckDuplicates |
| data_quality_check.py:285 | `integrity_df[integrity_df['Integrity_Status'] == 'ISSUES']` raises KeyError when no relationship could be checked, because the frame then has no columns; the recommendations repeat the filter at data_quality_check.py:328 | no dataset loaded, or none of the six relationships with both tables and key columns present | no integrity issues, so the report says "All foreign key relationships are intact" and no integrity recommendation is added | medium; not executed | Quality.NoDatasetsCrashesIntegrityFilter | Quality.IntegrityIssues |
