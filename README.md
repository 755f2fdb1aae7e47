# CAIS lead prioritizer: scoring engine and filter pipeline

This project models the deterministic core of the Caprae AI-Score Lead Prioritizer, a Streamlit app (`app.py`):

- **The CAIS score of a lead** (`calculate_cais`). A pain sub-score comes from three substring rules on the lead's keywords and tech stack. A readiness sub-score comes from a non-stacking traffic tier plus an exclusive CRM / Google Analytics bonus. Each sub-score is capped at 50, and the CAIS is their sum.
- **The fit summary of a score** (`get_insights`). It is HIGH from 75, MEDIUM from 50, and LOW below that. The MEDIUM text names the pain score.
- **The filter block** applied to the table of scored leads. It applies a CAIS threshold. Then, for each non-empty selection, it applies a keyword-substring mask, a company-size mask and a funding-stage mask. The table it filters is sorted by CAIS, highest first.

The modules:

- `Text`: Python's `t in s` on strings as `Contains`, a case-sensitive substring test. It also holds the decimal rendering that an f-string gives an `int`, with a parser for it.
- `Leads`: the lead record and the scored row.
- `Scoring`: the rules, the score as a rule table (`ScoreOf`), and `CalculateCais`, a method that bumps two counters in the source's order.
- `Insights`: `GetInsights` and its three summaries.
- `Dataset`: the per-row scoring pass, and the sortedness that `sort_values` establishes.
- `Filters`: masks as criteria, `Filter` (boolean masking), and `ApplyFilters` (the filter block step by step). The masks obey laws of subset, order, idempotence and monotonicity. Every `Kept` outcome of the block is such a mask result, but the block as a whole can fail where the masks cannot (see below).
- `ScenarioStrings` and `Scenarios`: worked examples on the tag strings the mock data uses.

Three behaviours of the source are modelled as written:

- The mock stack `'modern stack, custom billing, HubSpot'` (app.py:65) never earns the CRM bonus. The rule looks for `'Hubspot'` (app.py:36), and the test is case-sensitive.
- Adding a keyword, size or stage to a selection that is already non-empty can only *widen* the result. Within a dimension the selection is an OR. Narrowing holds when a constraint is put on a dimension that had none, when values are removed from a selection, or when the threshold is raised (`TighterSettingsNarrow`).
- When no row reaches the threshold and a keyword selection is made, the keyword mask is built by `apply` over an empty column. Pandas returns an empty object-dtype Series for that, and it reads such a Series as a list of columns, not as a boolean mask. The frame then has no columns, and a size or funding-stage selection fails with a `KeyError` on the missing column. `ApplyFilters` returns this as its `MissingColumn` outcome. So the block is not idempotent, and it is not monotone in its settings. Take a row with CAIS 80 that fails the size selection. A keyword and size selection at threshold 75 gives an empty result, and running the block on that result again fails. A row with CAIS 10, a keyword selection and threshold 75 gives an empty result, and adding a size selection then fails.

The model follows the code:

- No input is validated. A negative traffic value is scored like any other number.
- Pain can never exceed 40, so the cap of 50 never binds (`CapsNeverBind`).

## Model

| member | source | states |
|---|---|---|
| `Scoring.ScoreOf` | app.py:24-43 | Pain and readiness each lie in [0, 50]. The CAIS is their sum, in [0, 100]. |
| `Scoring.CalculateCais` | app.py:24-43 | The step-by-step counter updates, caps and sum give exactly the rule-table score `ScoreOf`, with all three values in range. |
| `Scoring.CapsNeverBind` | app.py:25-41 | The rules add at most 40 pain and 50 readiness. So each sub-score equals the uncapped sum of the rules that fire, and pain never exceeds 40. |
| `Scoring.SubScoreValues` | app.py:25-41 | Pain is one of 0, 10, 15, 25, 30, 40. Readiness is one of 0, 5, 15, 25, 30, 35, 40, 50. |
| `Scoring.ScoreDependsOnSignalsOnly` | app.py:24-43 | Two leads that agree on keywords, tech stack and traffic get identical (cais, pain, readiness), whatever their other columns. |
| `Scoring.TrafficTiers` | app.py:32-35 | Traffic above 100000 adds exactly 35. Above 10000 up to 100000 adds exactly 25. At most 10000 adds 0. The boundaries 10000 and 100000 fall to the lower tier, and tiers do not stack. |
| `Scoring.ToolingExclusive` | app.py:36-39 | Salesforce or Hubspot in the stack adds 15, and the Google Analytics 5 is then not added. Google Analytics alone adds 5. Neither adds 0. |
| `Scoring.PainRules` | app.py:25-31 | 'manual' or 'spreadsheet' (or both) adds 15 once. 'old CMS' or 'legacy ERP' (or both) adds 10 once. 'basic website' adds 15 only while traffic is strictly below 5000, and nothing at 5000 or more. |
| `Scoring.TrafficMonotone` | app.py:30-35 | With the same keywords and stack, more traffic never lowers readiness and never raises pain. |
| `Text.IntToDecimal` | app.py:49 | The text that `{pain_score}` interpolates is never empty. |
| `Text.NatToDecimal` | app.py:49 | The decimal text of a natural number is non-empty, all digits, and has no leading zero. |
| `Text.IntToDecimalRoundTrip` | app.py:49 | Parsing the interpolated decimal text gives back the same integer. |
| `Insights.MediumSummary` | app.py:49 | The MEDIUM text opens with 'M' and is longer than its fixed prefix and suffix together. |
| `Insights.GetInsights` | app.py:45-52 | The summary is the HIGH text exactly when cais ≥ 75, the MEDIUM text exactly when 50 ≤ cais < 75, and the LOW text exactly when cais < 50. The cais, pain and readiness pass through unchanged, and the second slot is None. |
| `Insights.MediumSummaryNamesPain` | app.py:49 | In the MEDIUM case the summary is the fixed prefix, the decimal pain score and "/50).", and the pain score parses back out of it. |
| `Dataset.ScoreLead` | app.py:97-99 | A scored row keeps its lead, and carries that lead's CAIS, pain and readiness (CAIS = pain + readiness, in [0, 100]). Its insight is the summary for that score. |
| `Dataset.ScoreAll` | app.py:97-99 | Scoring the table keeps its length and order, and every row is scored from its own lead. |
| `Filters.Filter` | app.py:132-138 | Boolean masking keeps a row exactly when it is in the input and passes every mask. The result is never longer than the input. |
| `Filters.FilterKeepsEveryCopy` | app.py:132-138 | Masking keeps every copy of a passing row and no copy of a failing one. A row repeated n times in the input appears n times in the result when it passes. |
| `Filters.CriteriaMeanMatches` | app.py:132-138 | A row passes the masks the block applies exactly when CAIS ≥ min_cais, and for each non-empty selection it has a selected keyword as a substring, a selected size, or a selected stage. An empty selection leaves its dimension unconstrained. |
| `Filters.FilterThenFilter` | app.py:132-138 | Masking by one list of masks and then by another is the same as masking by both at once. |
| `Filters.FilterNarrower` | app.py:132-138 | If every row one mask list accepts is accepted by a second list, the first keeps an in-order selection of what the second keeps. |
| `Filters.FilterIsSubsequence` | app.py:132-138 | The rows a mask keeps are an order-preserving subsequence of its input. |
| `Filters.FilterPreservesOrder` | app.py:132-138 | Masking a table sorted by CAIS, highest first (the order set at line 100), leaves it sorted that way. |
| `Filters.FilterBySettings` | app.py:132-138 | The block's masks keep exactly the matching rows, each as often as the table holds it, as an in-order selection of the table, sorted whenever the table is. |
| `Filters.FilterIdempotent` | app.py:132-138 | Filtering the filtered table again with the same settings changes nothing. |
| `Filters.TighterSettingsNarrow` | app.py:132-138 | Tighter settings keep an in-order selection of what looser settings keep, and never more rows. Tighter means a higher threshold, a constraint on a dimension that had none, or a non-empty selection with values removed. |
| `Filters.EmptySelectionMaskRejectsAll` | app.py:133-138 | An empty selection applied as a mask would reject every row. That is why the block applies only non-empty selections. |
| `Filters.ThresholdKeepsNothing` | app.py:132 | The threshold mask leaves an empty frame exactly when every row's CAIS is below `min_cais`. |
| `Filters.ApplyFilters` | app.py:132-138 | The block fails with a missing column exactly when a keyword selection is made, no row reaches the threshold, and a size or stage selection is made. The column is 'Company Size' when sizes are selected, and 'Funding Stage' otherwise. In every other case the block, rebinding its result mask by mask, keeps exactly the matching rows, each as often as the table holds it, as an order-preserving subsequence. The result is sorted by CAIS, highest first, whenever the table is. |
| `Filters.FilteredRowsAreScored` | app.py:132-138 | Every row the block keeps from the scored table (app.py:97-99) is scored from its own lead. Its CAIS lies between `min_cais` and 100, and its insight is the summary for its score. |
| `Scenarios.LegacySmallBusiness` | app.py:24-52 | The stack 'legacy ERP, no CRM, basic website' with keywords 'manual reporting, high growth' and traffic 3000 scores pain 40, readiness 0 and CAIS 40. Its summary is LOW. |
| `Scenarios.ModernMarketLeader` | app.py:24-52 | The stack 'Salesforce, modern stack, Tableau' with keywords 'AI, market leader, scale' and traffic 150000 scores pain 0, readiness 50 and CAIS 50. Its summary is the MEDIUM text with pain 0. |
| `Scenarios.HighThresholdKeepsNeither` | app.py:132 | A threshold of 75 keeps neither of the two leads above. |
| `Scenarios.HubSpotStackEarnsNoToolingBonus` | app.py:36-39 | The stack 'modern stack, custom billing, HubSpot' does not contain 'Hubspot'. It earns no tooling bonus, so its readiness is the traffic tier alone. |
| `Scenarios.PainRuleCountsOnce` | app.py:26-27 | Keywords containing both 'manual' and 'spreadsheet' add 15 once. With 'Shopify, Google Analytics' and traffic 20000, the score is pain 15, readiness 30 and CAIS 45. |

## Left out

- Page configuration, CSS, title and sidebar text, sliders and multiselects, metrics, tables, the company select box and the info box (app.py:8-21, 106-130, 140-141, 154-175, 207-227). These are UI rendering. The widget values enter the model as `FilterSettings`.
- The keyword-option extraction that splits the keywords on ',' (app.py:116). It only fills a widget's options. The model takes any list of selected keywords.
- The Altair charts and the `value_counts` aggregations behind them (app.py:179-205). These are presentation.
- The CSV and JSON export and the download buttons (app.py:144-151). These are library serialisers and file I/O. So the round trip of the export is not modelled.
- The seeded random mock-data generator (app.py:54-96). Leads are arbitrary input. The scenarios use tag strings it draws from.
- `sort_values('CAIS', ascending=False)` itself (app.py:100). Its effect is taken as the precondition `SortedByCaisDescending`. The order among rows with equal CAIS is not modelled.
- The pandas DataFrame machinery (`apply`, `concat`, `reset_index`). Rows are a sequence of records, and a frame's set of columns is not represented.
- Filters.ApplyFilters: the pandas behaviour behind `MissingColumn` follows how pandas treats an empty object-dtype mask. Pandas is not part of this model, so that behaviour is taken as given, not derived. When the only selection is keywords and no row reaches the threshold, the block returns `Kept([])`. The fact that this empty frame has also lost its columns is not modelled.
- Filters.FilterIdempotent: holds for the masks, `Filter(rows, Criteria(s))`, which is every `Kept` outcome. It is not promised of `ApplyFilters` itself. Re-running the block on an empty result with a keyword selection and a size or stage selection ends in `MissingColumn`.
- Filters.TighterSettingsNarrow: holds for the masks, and so for every pair of `Kept` outcomes. It is not promised of `ApplyFilters` itself. Adding a size or stage selection, when keywords are selected and no row reaches the threshold, turns an empty `Kept` result into `MissingColumn`.
- Python's dynamic typing. Keywords and tech stack are strings and traffic is an integer. A row with a missing column or a non-string value, which the source would reject with a runtime error, is not represented.
