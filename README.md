# Marketing-campaign dashboards: a verified model of the analysis pipeline

Three Streamlit dashboards read one customer table from a marketing campaign.
Each one cleans the rows, filters them with widgets, groups or splits them
into cohorts, compares two cohorts with a Welch t-test and picks a fixed
recommendation text by the p-value. This project models that pipeline in
Dafny and proves what each stage promises: which rows a selection keeps and
in what order, which columns are derived and when, how ages fall into
brackets, what the per-bracket aggregates are, and which template is chosen.

The model has these modules:

- `Wrappers` (wrappers.dfy): `Option` for a cell that may be missing (NaN) and `Result` for a stage that can fail.
- `Rows` (rows.dfy): the boolean-mask selection `df[mask]` as `Filter`, plus general lemmas about it. A selection keeps exactly the matching rows with their multiplicities (`FilterMultiset`). It keeps their order (`FilterIsSubseq`). Two selections commute (`FilterCommutes`). Selecting after a row-wise derivation is deriving after selecting (`FilterMap`). Disjoint masks split the rows (`FilterSplitLength`).
- `Stats` (stats.dfy): `Sum`, and `Mean` as an exact rational. An empty column has no mean, as pandas gives NaN. Also the p-value, where `None` stands for NaN, the `p < 0.05` rule and `abs(a - b)`.
- `Sorting` (sorting.dfy): Python's `<` on strings (lexicographic by code point) and `sorted` of the distinct values.
- `StatusDashboard` (status.dfy): `streamlit/dashboard_status.py`, meat spend by marital status.
- `CampaignDashboard` (campaign.dfy): `streamlit/dashboard_campaign.py`, complaints against regular spend.
- `GoldDashboard` (gold.dfy): `streamlit/dashboard_gastos_ouro.py`, gold spend by age bracket.

Where the source changes a frame in place, the model uses a class. In
`load_data` of the campaign dashboard, `Table.AddRegularTotal` and
`Table.AddEnrolmentYear` add columns. In `calculate_age_and_groups`,
`GoldFrame.CalculateAgeAndGroups` writes the `Age` and `Faixa_Etaria`
columns. Each of these methods is tied to a pure function of the old state.
Where the source only computes new frames, the model uses functions.
`generate_insight_blocks` builds its second block in a loop, and so does
`GenerateInsightBlocks`.

Inputs that come from outside become parameters:

- Widget results: the marital and complaint choices, and the income, year and age ranges.
- The reference year that replaces `datetime.now().year`.
- The two-sample test, passed as a function value of type `TwoSampleTest`.

A few behaviours of the source are worth stating, because a generic cohort
pipeline would behave differently:

- No stage reports an "insufficient data" error for a cohort of fewer than two rows. The rows go to the test, which then returns NaN. A NaN p-value is not below 0.05, so the "not significant" text is chosen.
- The campaign dashboard's column check does not name the missing column. It only fails.
- Only `MntRegularProds` is derived conditionally. `Ano_Inscricao` is always overwritten.
- The row-wise spend sum skips missing cells, counting them as 0. So the derived total is never missing.
- In the status dashboard, `main` reads `Marital_Status` (line 154) and `Income` (line 163) before the analysis checks its columns. A frame without one of those two fails there, with a `KeyError`. Through `main`, the analysis' own check can only report `MntMeatProducts` (`StatusDashboard.Dashboard`).
- `Year_Birth` is int16, and numpy keeps int16 for `current_year - df['Year_Birth']`. So the age is computed with 16-bit wrap-around (`Wrap16`). It equals the plain difference whenever that difference fits in 16 bits.

## Model

| member | source | states |
|---|---|---|
| `StatusDashboard.FirstMissing` | streamlit/dashboard_status.py:88-90 | the check loop finds nothing exactly when every required name is a column; otherwise it stops at a missing name and every earlier name is present |
| `StatusDashboard.CheckColumns` | streamlit/dashboard_status.py:87-90 | validation succeeds iff `Marital_Status`, `MntMeatProducts` and `Income` are all columns; otherwise it fails naming the first missing one in that order |
| `StatusDashboard.DropIncompleteSpec` | streamlit/dashboard_status.py:93 | after `dropna(subset=...)` no kept row misses a required value, every complete row is kept as often as it occurs, and relative order is preserved |
| `StatusDashboard.DropdownOptionsSpec` | streamlit/dashboard_status.py:154 | the options start with 'Todos'; the rest are strictly ascending, free of repeats, and are exactly the non-missing statuses present |
| `StatusDashboard.MaritalFilterSpec` | streamlit/dashboard_status.py:158-159 | 'Todos' leaves the rows unchanged; a status s keeps exactly the rows whose status is s, with their multiplicities, in order |
| `StatusDashboard.IncomeFilterSpec` | streamlit/dashboard_status.py:168 | the income filter keeps exactly the rows with lo <= Income <= hi, both ends inclusive, a missing income never kept, in order |
| `StatusDashboard.FiltersCommute` | streamlit/dashboard_status.py:158-168 | applying the marital and the income filter in either order gives the same rows |
| `StatusDashboard.CohortsDisjoint` | streamlit/dashboard_status.py:120-121 | the Single and Married cohorts are order-preserving selections of the cleaned rows, share no row, and together are no larger than the cleaned rows |
| `StatusDashboard.Analyze` | streamlit/dashboard_status.py:86-132 | the analysis fails exactly when a required column is missing; its cleaned rows are all complete; each cohort mean is undefined exactly when no complete row has that status |
| `StatusDashboard.ConcludeFrom` | streamlit/dashboard_status.py:202-208 | the conclusion is the "significant" text iff p < 0.05 (a NaN p-value is not), otherwise the "not significant" text, and never a third one |
| `StatusDashboard.Dashboard` | streamlit/dashboard_status.py:139-175 | each outcome has its exact condition: the page stops iff the frame is empty; it fails with a `KeyError` on `Marital_Status` iff that column is absent, else on `Income` iff that one is; the income slider cannot be built iff every income of the marital-filtered rows is missing; the analysis reports a missing column iff `MntMeatProducts` is absent, and names no other; the page succeeds otherwise; on success the options are the dropdown options of the unfiltered rows, the analysed rows are the income- and marital-filtered rows, cleaned, and the conclusion follows the p < 0.05 rule |
| `CampaignDashboard.Table.AddRegularTotal` | streamlit/dashboard_campaign.py:62-64 | the frame after the step is the derivation of the frame before it: an existing `MntRegularProds` column is untouched, an absent one is added |
| `CampaignDashboard.WithRegularTotalSpec` | streamlit/dashboard_campaign.py:62-64 | an existing column is never overwritten, an absent one is filled for every row with the six-column sum, and deriving twice equals deriving once |
| `CampaignDashboard.Table.AddEnrolmentYear` | streamlit/dashboard_campaign.py:67 | the step adds `Ano_Inscricao`, the year of each row's customer date (missing for a missing date) |
| `CampaignDashboard.Load` | streamlit/dashboard_campaign.py:51-74 | loading yields the empty frame iff one of the eight required columns is missing, and otherwise exactly the columns `Complain`, `Ano_Inscricao`, `MntRegularProds` |
| `CampaignDashboard.LoadData` | streamlit/dashboard_campaign.py:47-74 | the in-place derivation on a frame object, then cleaning and projection, yields what `Load` specifies |
| `CampaignDashboard.LoadedRowsSpec` | streamlit/dashboard_campaign.py:62-70 | the loaded rows correspond position by position to the kept source rows: those with a complaint flag, a date, and a value in an existing `MntRegularProds` column. There are exactly as many of them as kept rows, in source order, each counted as often as it occurs. Each one carries its row's flag, its date's year, and the existing column's value or else the six-column sum. No other row is loaded |
| `CampaignDashboard.YearFilterSpec` | streamlit/dashboard_campaign.py:180 | the year filter keeps exactly the rows with lo <= Ano_Inscricao <= hi, in order |
| `CampaignDashboard.ComplaintFilterSpec` | streamlit/dashboard_campaign.py:181-184 | 'Reclamaram' keeps exactly the rows with Complain = 1, 'Não Reclamaram' exactly those with Complain = 0, and 'Todos' changes nothing; order is kept |
| `CampaignDashboard.CampaignFiltersCommute` | streamlit/dashboard_campaign.py:180-184 | the year and complaint filters commute |
| `CampaignDashboard.CalculateMetrics` | streamlit/dashboard_campaign.py:103-119 | `total_clientes` is the number of filtered rows; each cohort mean is undefined exactly when no row has that flag |
| `CampaignDashboard.ComplaintsCountComplainers` | streamlit/dashboard_campaign.py:118 | with 0/1 flags, the `Complain` column sums to the number of complainers |
| `CampaignDashboard.ComplaintRateSpec` | streamlit/dashboard_campaign.py:117-118 | with 0/1 flags the complaint rate is complainers divided by `total_clientes`, lies in [0, 1], and is undefined for no rows |
| `CampaignDashboard.ComplaintCohortsSpec` | streamlit/dashboard_campaign.py:107-108 | the complainer and non-complainer cohorts share no row; with 0/1 flags their sizes add up to the number of rows |
| `CampaignDashboard.ComplainedLeavesNoNonComplainers` | streamlit/dashboard_campaign.py:181-182 | after the 'Reclamaram' filter the non-complainer cohort is empty and its mean undefined |
| `Stats.AbsDifference` | streamlit/dashboard_campaign.py:131 | the reported difference is abs(mean1 - mean0), never negative, and undefined when either mean is |
| `CampaignDashboard.GenerateInsights` | streamlit/dashboard_campaign.py:121-151 | the reported means and p-value are those of the metrics; the difference is the absolute difference of the means; the flag line and the appended recommendations use the same p < 0.05 test; exactly one of the two fixed lists is appended |
| `CampaignDashboard.Dashboard` | streamlit/dashboard_campaign.py:153-222 | nothing is shown for an empty frame. Otherwise the metrics are those of the year- and complaint-filtered rows, and the insights report those metrics' means and p-value. The difference is their absolute difference, and the recommendations are the significant list iff p < 0.05. Under 'Reclamaram' the non-complainer mean is undefined |
| `GoldDashboard.Age` | streamlit/dashboard_gastos_ouro.py:65-66 | age is the reference year minus `Year_Birth` whenever that fits in int16 (the wrap-around is written out) |
| `GoldDashboard.GoldFrame.CalculateAgeAndGroups` | streamlit/dashboard_gastos_ouro.py:61-72 | the frame gains, for every row, its age and its bracket of that age; the loaded columns are unchanged |
| `GoldDashboard.BracketOfSpec` | streamlit/dashboard_gastos_ouro.py:68-70 | an age a gets a bracket iff 20 <= a < 100, and then that bracket's lower edge is 10 * (a div 10) and a lies in its right-open interval, so 30 gets "30-40" |
| `GoldDashboard.BracketMembership` | streamlit/dashboard_gastos_ouro.py:68-70 | an age is in bracket k exactly when it lies in k's right-open interval, so the eight brackets are pairwise disjoint |
| `GoldDashboard.LabelsSpellEdges` | streamlit/dashboard_gastos_ouro.py:68-69 | each label is "L-U", spelled from its bracket's lower and upper edge |
| `GoldDashboard.AgeFilterSpec` | streamlit/dashboard_gastos_ouro.py:166 | the age filter keeps exactly the rows with lo <= Age <= hi, in order |
| `GoldDashboard.BracketMeanSpec` | streamlit/dashboard_gastos_ouro.py:106 | a bracket's mean is undefined, not zero, exactly when no row is in the bracket |
| `GoldDashboard.FirstMaxIndex` | streamlit/dashboard_gastos_ouro.py:107-108 | `idxmax` is the first position whose defined mean is the largest; there is none only when no mean is defined |
| `GoldDashboard.MinValue` | streamlit/dashboard_gastos_ouro.py:109 | the minimum is a defined mean no larger than any other defined mean |
| `GoldDashboard.InsightBlocksSpec` | streamlit/dashboard_gastos_ouro.py:102-144 | the top bracket is the first with the largest defined mean and exists iff some row has a bracket; the spread max - min is never negative; block 2 has one line per bracket, in bracket order, empty brackets included |
| `GoldDashboard.GenerateInsightBlocks` | streamlit/dashboard_gastos_ouro.py:122-130 | the loop that grows block 2 produces exactly the blocks `InsightBlocksOf` specifies |
| `GoldDashboard.Dashboard` | streamlit/dashboard_gastos_ouro.py:145-192 | nothing is shown for no rows; total and mean spend are over the age-filtered rows, while the insight blocks depend only on the unfiltered rows, not on the slider |

## Left out

- Streamlit page setup, CSS, layout, `st.error` and `st.stop`: presentation. A stop or an error becomes an `Err` or `None` result.
- Plotly figures (`px.box`, `px.scatter`, `px.histogram`, `px.bar`, `create_complaint_plot`, `create_gold_spending_plot`): rendering only.
- `pd.read_csv`, `usecols`/`dtype` coercion, and the `load_data` functions of the status and gold dashboards: file I/O. The loaded rows are parameters. `@st.cache_data` memoisation is framework caching.
- The campaign `load_data`'s `except` branch for I/O errors and unparseable dates: dates arrive already parsed, so neither error can arise.
- `pd.to_datetime`: a date is a given `Date` value.
- `datetime.now()`: the reference year is a parameter.
- The Welch t-test (`ttest_ind(..., equal_var=False)`): a foreign floating-point routine. The model receives it as a function and reasons only about the branch on its p-value.
- Slider bounds from the column minimum and maximum, and the slider step. Only the status dashboard's failure on an all-missing income column is modelled (`NoIncomeRange`).
- Number formatting (`:.2f`, `:.1%`, `:,.2f`) and the HTML of the reports and blocks: the model keeps the chosen template and the values in records.
- Floating-point arithmetic: means and incomes are exact reals.
- `GoldDashboard.Dashboard`: the int64 accumulator of `MntGoldProds.sum()` is not modelled. Its sum is unbounded, which matters only past 2^32 rows.
- Columns of the table that no dashboard reads are not modelled.
- `GoldDashboard.FirstMaxIndex`: when every bracket mean is NaN it returns `None`, standing for the NaN that pandas 2 returns with a warning. pandas 3 raises instead.
